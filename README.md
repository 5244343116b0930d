# Web-socket chat example of `act`, modelled in Dafny

`act` is a small unidirectional-data-flow UI runtime: one model, changed only
by actions passed through a pure reducer, drives a declarative view. Its
web-socket chat example (`examples/ws/index.js`) holds the only logic of the
repository that is visible in full. This project models that logic:

- `reducer.dfy`, module `ChatReducer`: the state `{messages, value}`, the
  actions `messages`, `clear`, `value` and every unrecognised type, the
  reducer, the initial model, and `Fold`, the reducer folded left over a
  sequence of actions. Reference definitions `LastMessages` and `LastValue`
  say independently what each field holds after a trace.
- `view.dfy`, module `ChatView`: the view functions `Chat`, `Header`,
  `Messages` and `Message` producing a tree of `Node`s (the three array
  shapes `[tag, [children]]`, `[tag, 'text']` and `[tag, {attributes}]`),
  the input's key-up binding list as plain data, and `ModelOf`, which reads
  the model back out of a rendered page.

An action is one of `Messages(list)`, `Clear`, `Value(text)` or
`Other(tag)`, where `tag` ranges over every string other than the three
known types, so each action value falls into exactly one branch of the
source's `switch`.

## Model

| member | source | states |
|---|---|---|
| `ChatReducer.Reduce` | examples/ws/index.js:36-47 | only a `messages` action can change `messages`; only `clear` and `value` can change `value`; an unrecognised type returns the state unchanged |
| `ChatReducer.UnknownTypeIsNoOp` | examples/ws/index.js:44-45 | an action whose `type` string is none of `messages`, `clear`, `value` leaves the state exactly as it was |
| `ChatReducer.MessagesReplacesList` | examples/ws/index.js:38-39 | `messages` sets the list to the payload and leaves `value` untouched |
| `ChatReducer.ClearEmptiesValue` | examples/ws/index.js:40-41 | `clear` sets `value` to the empty string, leaves `messages` untouched, and applying it twice equals applying it once |
| `ChatReducer.ValueReplacesText` | examples/ws/index.js:42-43 | `value` sets `value` to the payload, leaves `messages` untouched, and of two consecutive `value` actions only the second matters |
| `ChatReducer.FoldAppend` | examples/ws/index.js:36-47 | reducing `p + q` equals reducing `p` and then `q` from the state `p` reached |
| `ChatReducer.FoldSnoc` | examples/ws/index.js:36-47 | reducing one more action is one more reducer step on the state reached so far |
| `ChatReducer.FoldIsLast` | examples/ws/index.js:36-47 | after any trace, `messages` is the payload of the last `messages` action (or the start list) and `value` is what the last `clear` or `value` action wrote (or the start value) |
| `ChatReducer.LastMessagesWithoutMessages` | examples/ws/index.js:38-39 | with no `messages` action in a trace, the last-written message list is the starting one |
| `ChatReducer.FoldKeepsMessages` | examples/ws/index.js:36-47 | folding any actions none of which is `messages` preserves the message list |
| `ChatReducer.ClearTwiceInTrace` | examples/ws/index.js:40-41 | two consecutive `clear` actions anywhere in a trace reach the same final state as one |
| `ChatReducer.ValueTwiceInTrace` | examples/ws/index.js:42-43 | two consecutive `value` actions anywhere in a trace reach the same final state as the second alone |
| `ChatReducer.ExampleTrace` | examples/ws/index.js:31-47 | the initial model has no messages and an empty value; from it `value "hi"`, `clear`, `messages ["hi"]` pass through `{[], "hi"}`, `{[], ""}` and end at `{["hi"], ""}` |
| `ChatView.Message` | examples/ws/index.js:28-29 | a message becomes an `li` leaf holding exactly that message, and reading the item back gives the message |
| `ChatView.Header` | examples/ws/index.js:14-23 | the header has the `h1` title, the `small` hint and the `input`, whose `value` attribute is the given text, whose `keyup` attribute is the binding list, with the placeholder and autofocus attributes |
| `ChatView.Chat` | examples/ws/index.js:11-12 | the page is a `main` node holding the header over the message list, and reading the model back out of it gives the model |
| `ChatView.Items` | examples/ws/index.js:25-29 | mapping `message` over the list gives one `li` per message, the i-th holding the i-th message |
| `ChatView.Messages` | examples/ws/index.js:25-26 | the list is a `ul` with exactly as many children as messages, the i-th an `li` with the i-th message |
| `ChatView.ItemTextsOfItems` | examples/ws/index.js:25-29 | reading the texts of the rendered items gives back the message list, in order |
| `ChatView.ChatInput` | examples/ws/index.js:11-22 | the page contains the input, whose `value` attribute equals `model.value` and whose `keyup` attribute is the binding list |
| `ChatView.KeyupOrder` | examples/ws/index.js:18-22 | the key-up list has exactly three entries in declaration order, each a target with its process (emit on `message` with `valueOnEnter`, dispatch `value` with `value`, dispatch `clear` with `onEnter`), and every dispatched type is one the reducer recognises |
| `ChatView.ChatListsMessages` | examples/ws/index.js:11-12 | the page's second child is the message list, and its item texts are `model.messages` |
| `ChatView.ChatInjective` | examples/ws/index.js:11-29 | two models render to the same page exactly when they are equal |
| `ChatView.PageChangesIffStateChanges` | examples/ws/index.js:11-47 | after an action the rendered page differs from the previous one exactly when the reducer changed the state (a corollary of `ChatInjective`) |

## Left out

- `main` (examples/ws/index.js:1, 53): the runtime that queues actions, calls the reducer and re-renders is imported from a package that is not part of this model; `Fold` stands for feeding it actions one after the other.
- The socket (`fromSocket`, `socket.on`, `socket.emit`, examples/ws/index.js:5, 9, 19, 49-51) and the `subscriptions` object: network I/O in a foreign library. The `Emit("message")` binding target is kept only as a tag.
- The processes `valueOnEnter`, `onEnter` and `value` (examples/ws/index.js:2-4): their trigger and payload semantics are imported and not visible, so a binding's process is an opaque tag and the bindings are never evaluated.
- `ramda/src/map` (examples/ws/index.js:6) is replaced by the recursive `Items`.
- `./styles.css` (examples/ws/index.js:7): styling, no behaviour.
- Payload types: the source copies whatever `payload` an action carries into the state; the model types the payload of `messages` as a list of strings and that of `value` as a string, so an action with a mistyped payload is not represented.
- Reference identity: the source returns the very same object for an unrecognised type and a fresh copy otherwise; values in the model have no identity, so "unchanged" means equal.
- Rendering and re-render skipping: not implemented in the example; only the view tree handed to the renderer is modelled.
