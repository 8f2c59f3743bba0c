# HypePostMessage, modelled in Dafny

HypePostMessage relays named events and Hype "custom behaviours" between a web
page and its iframes (or its embedding parent) over `window.postMessage`. This
project models its routing and targeting decisions over an abstract browsing
context:

- **Envelope** (`envelope.dfy`): the options of `postEvent` and `postBehavior`
  and their `||` defaults (`propagate` false, `selector` "iframe", `direction`
  'parent'), the `{type: "HypePostEvent", name, data, propagate}` envelope, and
  the receive filter that ignores every message of another type.
- **Routing** (`routing.dfy`): where `postEvent` sends. 'parent' sends once to
  the parent. 'children' sends to each frame the selector matches, in document
  order. Any other direction sends nothing. One `try` wraps the whole loop, so
  the first send that throws ends it, and the error never reaches the caller.
  This module also holds the one-hop forwarding rule of `handlePostEvent`.
- **Targeting** (`targeting.dfy`): which Hype documents `handleBehaviorEvent`
  triggers. A falsy `documentId` matches every document, an array matches by
  membership and anything else by equality. Null documents are skipped. Running
  the pass once per listener multiplies every trigger.
- **Browser** (`browser.dfy`): a `Page` class, one browsing context. Its fields
  are the embedding flag, the answers of `querySelectorAll`, `HYPE.documents`,
  the listeners added by `HypeDocumentLoad`, and logs of what was posted, warned,
  dispatched and triggered. Each method of the source is a method of `Page`, and
  its `ensures` ties the new state to the pure specifications above.
  `ReceiveEffect` states the whole effect of one incoming message. The lemmas
  beside it prove the receive and forward properties.

The browser is abstract. A send appends `(window, envelope)` to an outbox. A
send throws when the matched element has no content window, or when the data
cannot be structured-cloned. `querySelectorAll` is a map from each accepted
selector to the matched frames in document order. A selector missing from that
map is one the page rejects, and the `try` catches that error too.

Three consequences of the code as written are proved rather than assumed:

- A child frame that throws stops delivery to every later frame, because one
  `try` wraps the whole `forEach` (`Routing.PostToChildrenCutOff`).
- Direction 'parent' always posts to `window.parent`, embedded or not. At top
  level that is the window itself (`Routing.PostToParent`).
- Every `HypeDocumentLoad` adds another `HypePostEventReceived` listener. After
  k loads, one behaviour message triggers each matching document k times
  (`Browser.BehaviorTriggeredPerListener`). Triggers are known by document id,
  so two entries of `HYPE.documents` with one id are triggered k times each
  (`Targeting.TriggeredPerEntry`).

## Model

| member | source | states |
|---|---|---|
| `Envelope.Resolve` | HypePostMessage.js:32-34 | `propagate` is kept. A truthy selector or direction is kept. A missing or empty one becomes "iframe" or 'parent', so the result is never empty |
| `Envelope.ResolveIdempotent` | HypePostMessage.js:98-103 | defaulting the options again, as postEvent does after postBehavior, changes nothing |
| `Envelope.WithDirection` | HypePostMessage.js:133-147 | `{...options, direction: d}` keeps `propagate` and `selector` and always resolves to direction d |
| `Envelope.Unwrap` | HypePostMessage.js:62-64 | a message is recognised iff its type is "HypePostEvent", and a recognised message is exactly the envelope of its name, data and flag |
| `Envelope.UnwrapMakeEnvelope` | HypePostMessage.js:36-41 | every envelope postEvent builds passes the receive filter with name, data and propagate unchanged |
| `Envelope.MakeEnvelope` | HypePostMessage.js:36-41 | the envelope is tagged "HypePostEvent" and carries the name, data and `propagate` unchanged |
| `Routing.DeliverAll` | HypePostMessage.js:47-54 | the `forEach` inside the `try` never sends more than there are targets, and an error is caught iff it sends fewer |
| `Routing.Targets` | HypePostMessage.js:44-53 | the lookup throws iff the direction is 'children' and the page rejects the selector. Otherwise it yields one parent, each matched frame, or nothing, and a target is the parent iff the direction is 'parent' |
| `Routing.PostEventSpec` | HypePostMessage.js:31-55 | postEvent never sends more than its targets, sends to all of them unless the `try` caught, and catches only for 'parent' or 'children' |
| `Routing.PostEventCarriesEnvelope` | HypePostMessage.js:36-49 | every send of one postEvent carries the same envelope of its name, data and resolved flag |
| `Routing.DeliverAllPrefix` | HypePostMessage.js:43-54 | the sends are a prefix of the targets in order, each deliverable. The `try` catches iff the prefix is shorter than the targets, and then the next target is undeliverable |
| `Routing.PostToParent` | HypePostMessage.js:44-45 | direction 'parent' makes exactly one send, to the parent. If the data cannot be cloned it makes none, and the error is caught |
| `Routing.PostToChildren` | HypePostMessage.js:46-50 | direction 'children' with reachable frames makes one send per matched frame, in document order, and raises no error |
| `Routing.PostToChildrenCutOff` | HypePostMessage.js:43-54 | if the i-th matched frame is the first that throws, frames 0..i-1 received the envelope, no later frame does, and the error is caught |
| `Routing.PostUncloneableToChildren` | HypePostMessage.js:46-54 | uncloneable data reaches no child. An error is caught unless no frame matched |
| `Routing.PostToRejectedSelector` | HypePostMessage.js:46-53 | a selector the page rejects sends nothing, and the error is caught |
| `Routing.PostElsewhere` | HypePostMessage.js:44-51 | any direction other than 'parent' and 'children' sends nothing and raises nothing |
| `Routing.ForwardOptions` | HypePostMessage.js:73-79 | the forward sets `propagate`, uses the default selector, and resolves to 'parent' iff the window is embedded, else 'children' |
| `Routing.ForwardOneWay` | HypePostMessage.js:73-80 | each forwarded copy goes to the parent iff the window is embedded, and carries the same name and data with `propagate` true |
| `Targeting.CollectSound` | HypePostMessage.js:117-125 | every trigger of a pass is for a matching document, with `data.behavior` and `data` |
| `Targeting.Matches` | HypePostMessage.js:120-122 | a falsy `documentId` matches every document. An array matches by membership, and a non-empty string by equality |
| `Targeting.FilterOf` | HypePostMessage.js:120 | reading `data.documentId` fails iff the data is undefined or null. A behaviour record yields its filter, and data without the field matches every document |
| `Targeting.Collect` | HypePostMessage.js:117-125 | one `forEach` over `HYPE.documents` makes no more triggers than the list has entries |
| `Targeting.BehaviorPass` | HypePostMessage.js:110-125 | handleBehaviorEvent triggers nothing for another event name, without `HYPE.documents`, or for undefined or null data, and never more than the list has entries |
| `Targeting.CollectCount` | HypePostMessage.js:117-125 | one pass triggers a matching document once per entry of it in the list, and a document that does not match never |
| `Targeting.DocCountDistinct` | HypePostMessage.js:117-123 | with distinct ids, a listed document occurs exactly once |
| `Targeting.CollectFromDocuments` | HypePostMessage.js:117-123 | every trigger of a pass is for a document in `HYPE.documents` |
| `Targeting.CollectComplete` | HypePostMessage.js:117-124 | every non-null matching document is triggered |
| `Targeting.CollectNoMatch` | HypePostMessage.js:120-124 | when no document matches, nothing is triggered |
| `Targeting.NullDocumentSkipped` | HypePostMessage.js:118 | a null entry anywhere in `HYPE.documents` changes nothing |
| `Targeting.CollectOnce` | HypePostMessage.js:117-125 | assuming the documents' ids are distinct (the code does not check this), one pass triggers a document once if it matches and never otherwise |
| `Targeting.RepeatOccurrences` | HypePostMessage.js:149-153 | a pass run by k listeners holds each trigger k times as often as one pass |
| `Targeting.TriggeredOncePerListener` | HypePostMessage.js:110-153 | assuming distinct ids, with k listeners a behaviour event triggers each matching document k times and every other document never |
| `Targeting.TriggeredPerEntry` | HypePostMessage.js:110-153 | without assuming distinct ids, with k listeners a behaviour event triggers a matching document k times per entry of it, and any other document never |
| `Targeting.EmptyArrayTriggersNothing` | HypePostMessage.js:120-122 | an empty `documentId` array is truthy but contains nothing, so no document is triggered |
| `Targeting.NoHypeNoTrigger` | HypePostMessage.js:115 | without `HYPE` or `HYPE.documents`, nothing is triggered |
| `Targeting.TwoIdsExample` | HypePostMessage.js:120-123 | `documentId` ["A", "B"] triggers only documents "A" and "B", and does trigger "A" when it is present |
| `Browser.BehaviorEventOptions` | HypePostMessage.js:98-102 | postBehavior's options default exactly as postEvent's do |
| `Browser.PostBehaviorSpec` | HypePostMessage.js:93-104 | every send of postBehavior carries the "HypePostMessage" envelope of data `{behavior, documentId}` with the caller's `propagate` |
| `Browser.Warnings` | HypePostMessage.js:53 | at most one warning is logged, iff the `try` caught, and it names the direction |
| `Browser.ReceiveEffect` | HypePostMessage.js:61-81 | a message is dispatched once iff its type is the tag. Nothing is triggered without a dispatch or a listener, and nothing is forwarded without the flag |
| `Browser.Page.PostMessage` | HypePostMessage.js:45-49 | a send appends `(window, envelope)` to the outbox, or throws when there is no window or the data cannot be cloned |
| `Browser.Page.PostToEach` | HypePostMessage.js:47-50 | the `forEach` appends exactly the sends of `DeliverAll` and reports whether one threw |
| `Browser.Page.PostEvent` | HypePostMessage.js:31-55 | the outbox grows by the sends for the resolved options. A warning naming the direction is logged iff the `try` caught an error |
| `Browser.Page.PostBehavior` | HypePostMessage.js:93-104 | sends a "HypePostMessage" event with data `{behavior, documentId}`, with the same defaults, whatever `hypeDocument` is |
| `Browser.Page.HandleBehaviorEvent` | HypePostMessage.js:110-126 | the triggers appended are exactly one targeting pass over `HYPE.documents`, in order |
| `Browser.Page.HypeDocumentLoad` | HypePostMessage.js:132-154 | each load gives the document its wrappers and adds one more listener |
| `Browser.Page.HandlePostEvent` | HypePostMessage.js:61-81 | dispatch, listener triggers, forwarded sends and warnings grow by exactly `ReceiveEffect` for the current listener count |
| `Browser.Page.PostEventToParent` | HypePostMessage.js:133-135 | postEvent with direction 'parent', whatever the caller's direction |
| `Browser.Page.PostEventToChildren` | HypePostMessage.js:137-139 | postEvent with direction 'children', whatever the caller's direction |
| `Browser.Page.PostBehaviorToParent` | HypePostMessage.js:141-143 | postBehavior with direction 'parent', whatever the caller's direction |
| `Browser.Page.PostBehaviorToChildren` | HypePostMessage.js:145-147 | postBehavior with direction 'children', whatever the caller's direction |
| `Browser.ForeignMessageIgnored` | HypePostMessage.js:62 | a message of another type causes no dispatch, no trigger, no send and no warning |
| `Browser.RecognisedDispatchedOnce` | HypePostMessage.js:64-73 | a recognised message is dispatched exactly once with its own name, data and flag. Without the flag nothing is sent |
| `Browser.ForwardFromEmbedded` | HypePostMessage.js:73-76 | an embedded window forwards a propagating message once, to the parent, as the same envelope |
| `Browser.ForwardFromTopLevel` | HypePostMessage.js:77-79 | a top-level window forwards a propagating message to every "iframe" child, in order, as the same envelope |
| `Browser.ForwardOneDirection` | HypePostMessage.js:73-80 | forwarding never goes both ways: every copy goes to the parent iff the window is embedded |
| `Browser.BehaviorTriggeredPerListener` | HypePostMessage.js:149-153 | assuming distinct ids, after k loads one behaviour message triggers each matching document k times and every other document never |
| `Browser.PostBehaviorRoundTrip` | HypePostMessage.js:93-125 | what postBehavior sends is dispatched once at the receiver. Assuming distinct ids there, it triggers each document its `documentId` selects once per listener |
| `Browser.WrappersFixDirection` | HypePostMessage.js:133-147 | the four wrappers always override a caller-supplied direction |
| `Browser.PingToTwoChildren` | HypePostMessage.js:44-51 | "ping" sent to two reachable children reaches both, in order, with `propagate` false |
| `Browser.SyncFromChild` | HypePostMessage.js:64-76 | an embedded window receiving "sync" with the flag set dispatches it and sends the same envelope to its parent |

## Left out

- The transport: the real `window.postMessage`, the "*" target origin and structured cloning. A send appends to an outbox. Data is either cloneable or `Uncloneable`.
- CSS selector matching: `querySelectorAll` is an input map from selector to the matched frames in document order.
- The browser fact that a top-level window's `parent` is itself. Direction 'parent' always targets `ParentWindow`. The embedding test of line 74 is the `hasParent` flag.
- `CustomEvent` construction and DOM dispatch: a dispatch is appended to a log, then the `HypeDocumentLoad` listeners run in registration order. What other in-page listeners do is not modelled.
- An exception thrown inside a listener (data undefined or null, so `data.documentId` throws) is reported by the browser. The model records only that this pass triggers nothing. The same holds when `event.data` itself is undefined or null: reading its `type` throws, and the model treats it as a message of another type, which has the same outcome (nothing dispatched or sent).
- The text of `console.warn`: a warning is logged as the direction it names.
- The Hype runtime: `triggerCustomBehaviorNamed` is a recorded trigger, and `documentId()` is a given id. What a triggered behaviour then does, including posting again, is not modelled. `HYPE.documents` is an input; the runtime, not this code, adds loaded documents to it.
- The install guard, the global registration and the public API object (lines 11, 157, 160-172), and the unused `Propagation` constant (lines 16-20).
- JavaScript truthiness beyond these cases. `propagate` is a boolean. `documentId` is `Absent`, `Single(id)` or `Many(ids)`, and an empty-string `Single` counts as falsy. Event data is one of four shapes: undefined/null, opaque, a behaviour record, or uncloneable.
- An explicit `null` options argument makes `postEvent` throw a TypeError before its `try`. The model takes an options record whose missing fields are falsy.
- A network of windows: one `Page` is one browsing context, so relay loops between windows are outside the model.
