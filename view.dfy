/**
  The view half of the web-socket chat example: the pure functions that
  turn the model into the nested `[tag, ...]` description handed to the
  renderer, and an inverse that reads the model back out of that
  description.
 */
module ChatView {
  import ChatReducer

  datatype Option<T> = None | Some(value: T)

  /** Where a key-up binding sends its result: an outbound message on the
      socket's named event, or an action of the given type dispatched to
      the reducer. */
  datatype Target = Emit(event: string) | Dispatch(actionType: string)

  /** The imported process a binding runs to decide whether it fires and
      what payload it carries (`valueOnEnter`, `value`, `onEnter`); kept as
      an opaque tag, since what each one does is not part of this model. */
  datatype Process = ValueOnEnter | Value | OnEnter

  datatype Binding = Binding(target: Target, process: Process)

  /** The value of one attribute of an element. */
  datatype Attr = Text(s: string) | Flag(b: bool) | Bindings(list: seq<Binding>)

  /** The three array shapes the view builds: `[tag, [children...]]`,
      `[tag, 'text']` and `[tag, {attributes}]`. */
  datatype Node =
    | Parent(tag: string, children: seq<Node>)
    | Leaf(tag: string, text: string)
    | Props(tag: string, attrs: map<string, Attr>)

  const Title: string := "Act web sockets chat"
  const Hint: string := "Open this example in two windows and chat"
  const Placeholder: string := "Say something"

  /** The key-up bindings of the input, in declaration order: an emit on
      the socket's `message` event run through `valueOnEnter`, a `value`
      dispatch run through `value`, and a `clear` dispatch run through
      `onEnter`. What the process names suggest (firing on Enter, carrying
      the typed text) is read from the names only. */
  const KeyupBindings: seq<Binding> := [
    Binding(Emit("message"), ValueOnEnter),
    Binding(Dispatch("value"), Value),
    Binding(Dispatch("clear"), OnEnter)
  ]

  /** One message becomes one list item holding its text, and reading the
      item's text back gives the message. */
  function Message(m: string): (r: Node)
    ensures r.Leaf? && r.tag == "li" && r.text == m
    ensures ItemTexts([r]) == Some([m])
  {
    var item := Leaf("li", m);
    assert [item][1..] == [] && ItemTexts([]) == Some([]);
    assert [item.text] + [] == [m];
    item
  }

  /** The list items for `ms`, one per message, in order. */
  function Items(ms: seq<string>): (r: seq<Node>)
    ensures |r| == |ms|
    ensures forall i :: 0 <= i < |ms| ==> r[i] == Leaf("li", ms[i])
    decreases |ms|
  {
    if ms == [] then [] else [Message(ms[0])] + Items(ms[1..])
  }

  /** The message list: a `ul` with exactly one `li` per message, the i-th
      holding the i-th message. */
  function Messages(ms: seq<string>): (r: Node)
    ensures r.Parent? && r.tag == "ul"
    ensures |r.children| == |ms|
    ensures forall i :: 0 <= i < |ms| ==> r.children[i] == Leaf("li", ms[i])
  {
    Parent("ul", Items(ms))
  }

  /** The attributes of the text input. */
  function InputAttrs(val: string): map<string, Attr>
  {
    map[
      "placeholder" := Text(Placeholder),
      "value" := Text(val),
      "autofocus" := Flag(true),
      "keyup" := Bindings(KeyupBindings)
    ]
  }

  /** The header: a title, a hint, and the text input, whose `value`
      attribute is `val` and whose `keyup` attribute is the binding list. */
  function Header(val: string): (r: Node)
    ensures r.Parent? && r.tag == "header" && |r.children| == 3
    ensures r.children[0] == Leaf("h1", Title) && r.children[1] == Leaf("small", Hint)
    ensures r.children[2].Props? && r.children[2].tag == "input"
    ensures "value" in r.children[2].attrs && r.children[2].attrs["value"] == Text(val)
    ensures "keyup" in r.children[2].attrs && r.children[2].attrs["keyup"] == Bindings(KeyupBindings)
    ensures "placeholder" in r.children[2].attrs && r.children[2].attrs["placeholder"] == Text(Placeholder)
    ensures "autofocus" in r.children[2].attrs && r.children[2].attrs["autofocus"] == Flag(true)
  {
    Parent("header", [
      Leaf("h1", Title),
      Leaf("small", Hint),
      Props("input", InputAttrs(val))
    ])
  }

  /** The whole page: the header over the message list. The page holds the
      whole model: reading it back gives the model. */
  function Chat(model: ChatReducer.State): (r: Node)
    ensures r.Parent? && r.tag == "main" && |r.children| == 2
    ensures r.children[0] == Header(model.value) && r.children[1] == Messages(model.messages)
    ensures ModelOf(r) == Some(model)
  {
    ItemTextsOfItems(model.messages);
    Parent("main", [Header(model.value), Messages(model.messages)])
  }

  /** The input node inside a rendered page, if the page has the shape
      `Chat` builds. The ensures only repeats the guard, so that `ModelOf`
      may index the page's children. */
  function InputOf(page: Node): (r: Option<map<string, Attr>>)
    ensures r.Some? ==> page.Parent? && |page.children| == 2
  {
    if page.Parent? && |page.children| == 2 then
      var header := page.children[0];
      if header.Parent? && header.tag == "header" && |header.children| == 3
         && header.children[2].Props? && header.children[2].tag == "input"
      then Some(header.children[2].attrs)
      else None
    else None
  }

  /** The texts of a sequence of `li` items, or None if some node is not
      an `li` holding text. */
  function ItemTexts(items: seq<Node>): (r: Option<seq<string>>)
    decreases |items|
  {
    if items == [] then Some([])
    else if items[0].Leaf? && items[0].tag == "li" then
      match ItemTexts(items[1..])
      case Some(rest) => Some([items[0].text] + rest)
      case None => None
    else None
  }

  /** Reads the model back out of a rendered page: the `value` attribute
      of the input and the texts of the list items. */
  function ModelOf(page: Node): Option<ChatReducer.State>
  {
    match InputOf(page)
    case None => None
    case Some(attrs) =>
      var list := page.children[1];
      if "value" in attrs && attrs["value"].Text? && list.Parent? && list.tag == "ul" then
        match ItemTexts(list.children)
        case Some(ms) => Some(ChatReducer.State(ms, attrs["value"].s))
        case None => None
      else None
  }

  /** The texts of the rendered items are the messages, in order. */
  lemma {:induction false} ItemTextsOfItems(ms: seq<string>)
    ensures ItemTexts(Items(ms)) == Some(ms)
    decreases |ms|
  {
    if ms != [] {
      var r := Items(ms);
      assert r[1..] == Items(ms[1..]);
      ItemTextsOfItems(ms[1..]);
      assert [ms[0]] + ms[1..] == ms;
    }
  }

  /** The input's `value` attribute mirrors `model.value`, and its key-up
      list holds exactly the three bindings in declaration order. */
  lemma ChatInput(model: ChatReducer.State)
    ensures InputOf(Chat(model)).Some?
    ensures InputOf(Chat(model)).value["value"] == Text(model.value)
    ensures InputOf(Chat(model)).value["keyup"] == Bindings(KeyupBindings)
  {
  }

  /** The key-up list has three entries, in this order: emit on the socket's
      `message` event with `valueOnEnter`, then dispatch `value` with
      `value`, then dispatch `clear` with `onEnter`; every type it
      dispatches is one the reducer recognises. */
  lemma KeyupOrder()
    ensures |KeyupBindings| == 3
    ensures KeyupBindings[0].target == Emit("message")
    ensures KeyupBindings[1].target == Dispatch("value")
    ensures KeyupBindings[2].target == Dispatch("clear")
    ensures [KeyupBindings[0].process, KeyupBindings[1].process, KeyupBindings[2].process]
      == [ValueOnEnter, Value, OnEnter]
    ensures forall i :: 0 <= i < |KeyupBindings| && KeyupBindings[i].target.Dispatch? ==>
      KeyupBindings[i].target.actionType in ChatReducer.KnownTypes
  {
  }

  /** The page's second child is the message list, one `li` per message. */
  lemma ChatListsMessages(model: ChatReducer.State)
    ensures Chat(model).children[1] == Messages(model.messages)
    ensures ItemTexts(Chat(model).children[1].children) == Some(model.messages)
  {
  }

  /** Two models render to the same page exactly when they are equal; this
      follows from the round trip stated by `Chat`. */
  lemma ChatInjective(m1: ChatReducer.State, m2: ChatReducer.State)
    ensures Chat(m1) == Chat(m2) <==> m1 == m2
  {
  }

  /** The page changes after an action exactly when the reducer changed
      the state: a corollary of `ChatInjective` for the states before and
      after the action. */
  lemma PageChangesIffStateChanges(s: ChatReducer.State, a: ChatReducer.Action)
    ensures Chat(ChatReducer.Reduce(s, a)) != Chat(s) <==> ChatReducer.Reduce(s, a) != s
  {
  }
}
