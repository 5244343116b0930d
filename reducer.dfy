/**
  The state-update half of the web-socket chat example: the application
  state, the actions that change it, the reducer that applies one action,
  and the left fold of the reducer over a sequence of actions (what the
  runtime does when it feeds actions to the reducer one after the other).
 */
module ChatReducer {

  /** The application state: the messages received so far and the text
      currently typed in the input box. */
  datatype State = State(messages: seq<string>, value: string)

  /** The three action types the reducer's switch recognises. */
  const KnownTypes: set<string> := {"messages", "clear", "value"}

  /** Any action type the switch does not recognise. */
  type UnknownType = t: string | t != "messages" && t != "clear" && t != "value" witness "unknown"

  /** An action `{type, payload}`. Each constructor stands for one branch of
      the reducer's switch; `Other` is every type that falls to `default`,
      whatever its payload. */
  datatype Action =
    | Messages(list: seq<string>)
    | Clear
    | Value(text: string)
    | Other(tag: UnknownType)
  {
    /** The action's `type` string. */
    function Type(): (t: string)
      ensures t in KnownTypes <==> !Other?
    {
      match this
      case Messages(_) => "messages"
      case Clear => "clear"
      case Value(_) => "value"
      case Other(tag) => tag
    }
  }

  /** The initial model: no messages and an empty input. */
  const Initial: State := State([], "")

  /** The reducer. Only a `messages` action can change `messages`, and
      only `clear` and `value` actions can change `value`. */
  function Reduce(s: State, a: Action): (r: State)
    ensures r.messages != s.messages ==> a.Messages?
    ensures r.value != s.value ==> a.Clear? || a.Value?
    ensures a.Other? ==> r == s
  {
    match a
    case Messages(list) => s.(messages := list)
    case Clear => s.(value := "")
    case Value(text) => s.(value := text)
    case Other(_) => s
  }

  /** An action whose `type` is not one of the three known strings leaves
      the state exactly as it was. */
  lemma UnknownTypeIsNoOp(s: State, a: Action)
    requires a.Type() !in KnownTypes
    ensures Reduce(s, a) == s
  {
  }

  /** `messages` replaces the message list by the payload and keeps `value`. */
  lemma MessagesReplacesList(s: State, list: seq<string>)
    ensures Reduce(s, Messages(list)).messages == list
    ensures Reduce(s, Messages(list)).value == s.value
  {
  }

  /** `clear` empties `value`, keeps `messages`, and is idempotent. */
  lemma ClearEmptiesValue(s: State)
    ensures Reduce(s, Clear).value == ""
    ensures Reduce(s, Clear).messages == s.messages
    ensures Reduce(Reduce(s, Clear), Clear) == Reduce(s, Clear)
  {
  }

  /** `value` replaces `value` by the payload and keeps `messages`; of two
      consecutive `value` actions only the last one matters. */
  lemma ValueReplacesText(s: State, x: string, y: string)
    ensures Reduce(s, Value(x)).value == x
    ensures Reduce(s, Value(x)).messages == s.messages
    ensures Reduce(Reduce(s, Value(x)), Value(y)) == Reduce(s, Value(y))
  {
  }

  /** The state reached from `s` by reducing `acts` in order. */
  function Fold(s: State, acts: seq<Action>): State
    decreases |acts|
  {
    if acts == [] then s else Fold(Reduce(s, acts[0]), acts[1..])
  }

  /** Reducing `p + q` is reducing `p`, then `q` from where `p` ended. */
  lemma {:induction false} FoldAppend(s: State, p: seq<Action>, q: seq<Action>)
    ensures Fold(s, p + q) == Fold(Fold(s, p), q)
    decreases |p|
  {
    if p == [] {
      assert p + q == q;
    } else {
      assert (p + q)[0] == p[0];
      assert (p + q)[1..] == p[1..] + q;
      FoldAppend(Reduce(s, p[0]), p[1..], q);
    }
  }

  /** Reducing one more action is one more reducer step. */
  lemma {:induction false} FoldSnoc(s: State, p: seq<Action>, a: Action)
    ensures Fold(s, p + [a]) == Reduce(Fold(s, p), a)
  {
    FoldAppend(s, p, [a]);
    assert [a][1..] == [];
  }

  /** Reference definition of the final message list: the payload of the
      last `messages` action, or the starting list if there is none. */
  function LastMessages(start: seq<string>, acts: seq<Action>): seq<string>
    decreases |acts|
  {
    if acts == [] then start
    else
      var a := acts[|acts| - 1];
      if a.Messages? then a.list else LastMessages(start, acts[..|acts| - 1])
  }

  /** Reference definition of the final input value: set by the last
      `clear` or `value` action, or the starting value if there is none. */
  function LastValue(start: string, acts: seq<Action>): string
    decreases |acts|
  {
    if acts == [] then start
    else
      var a := acts[|acts| - 1];
      if a.Clear? then ""
      else if a.Value? then a.text
      else LastValue(start, acts[..|acts| - 1])
  }

  /** The fold agrees with the reference definitions: each field holds what
      the last action that touches it wrote there. */
  lemma {:induction false} FoldIsLast(s: State, acts: seq<Action>)
    ensures Fold(s, acts) == State(LastMessages(s.messages, acts), LastValue(s.value, acts))
    decreases |acts|
  {
    if acts != [] {
      var n := |acts| - 1;
      var p := acts[..n];
      assert acts == p + [acts[n]];
      FoldSnoc(s, p, acts[n]);
      FoldIsLast(s, p);
    }
  }

  /** Without a `messages` action the message list never changes. */
  lemma {:induction false} LastMessagesWithoutMessages(start: seq<string>, acts: seq<Action>)
    requires forall i :: 0 <= i < |acts| ==> !acts[i].Messages?
    ensures LastMessages(start, acts) == start
    decreases |acts|
  {
    if acts != [] {
      LastMessagesWithoutMessages(start, acts[..|acts| - 1]);
    }
  }

  /** Folding any actions none of which is a `messages` action keeps the
      message list. */
  lemma FoldKeepsMessages(s: State, acts: seq<Action>)
    requires forall i :: 0 <= i < |acts| ==> !acts[i].Messages?
    ensures Fold(s, acts).messages == s.messages
  {
    FoldIsLast(s, acts);
    LastMessagesWithoutMessages(s.messages, acts);
  }

  /** Two consecutive `clear` actions anywhere in a trace act as one. */
  lemma ClearTwiceInTrace(s: State, p: seq<Action>, q: seq<Action>)
    ensures Fold(s, p + [Clear, Clear] + q) == Fold(s, p + [Clear] + q)
  {
    var mid := Fold(s, p);
    FoldAppend(s, p + [Clear, Clear], q);
    FoldAppend(s, p, [Clear, Clear]);
    FoldAppend(s, p + [Clear], q);
    FoldSnoc(s, p, Clear);
    ClearEmptiesValue(mid);
  }

  /** Two consecutive `value` actions anywhere in a trace act as the second. */
  lemma ValueTwiceInTrace(s: State, p: seq<Action>, x: string, y: string, q: seq<Action>)
    ensures Fold(s, p + [Value(x), Value(y)] + q) == Fold(s, p + [Value(y)] + q)
  {
    var mid := Fold(s, p);
    FoldAppend(s, p + [Value(x), Value(y)], q);
    FoldAppend(s, p, [Value(x), Value(y)]);
    FoldAppend(s, p + [Value(y)], q);
    FoldSnoc(s, p, Value(y));
    FoldSnoc(mid, [Value(x)], Value(y));
    assert [Value(x)] + [Value(y)] == [Value(x), Value(y)];
    ValueReplacesText(mid, x, y);
  }

  /** The trace: type "hi", clear the input, then receive ["hi"]. */
  lemma ExampleTrace()
    ensures Initial.messages == [] && Initial.value == ""
    ensures Fold(Initial, [Value("hi")]) == State([], "hi")
    ensures Fold(Initial, [Value("hi"), Clear]) == State([], "")
    ensures Fold(Initial, [Value("hi"), Clear, Messages(["hi"])]) == State(["hi"], "")
  {
  }
}
