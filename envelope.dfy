/** The envelope of HypePostMessage: the options a caller passes to postEvent and
    postBehavior, the defaults they fall back to, the message put on the wire and
    the filter a receiving window applies to whatever message reaches it. */
module Envelope {

  datatype Option<+T> = None | Some(value: T)

  /** The `type` tag that tells this protocol's messages apart from other traffic. */
  const PostEventType := "HypePostEvent"
  /** The event name reserved for custom behaviours. */
  const BehaviorEventName := "HypePostMessage"
  const DefaultSelector := "iframe"
  const Parent := "parent"
  const Children := "children"

  /** The `documentId` of a behaviour payload: not given (or falsy), one id, or an array of ids. */
  datatype DocumentId = Absent | Single(id: string) | Many(ids: seq<string>)

  /** Event data, as far as this code looks into it. */
  datatype Data =
    | Nullish                                            // undefined or null
    | Opaque(content: string)                            // any cloneable value without behaviour fields
    | BehaviorData(behavior: string, documentId: DocumentId)
    | Uncloneable                                        // a value structured cloning refuses, e.g. a function

  /** A message as a window receives it (`event.data`). A number, string or
      boolean has no `type` and reads here as one whose kind is not the tag;
      `null` or `undefined` makes the `type` read throw, which has the same
      outcome: nothing is dispatched or sent. */
  datatype Message = Message(kind: string, name: string, data: Data, propagate: bool)

  /** The `detail` of the local `HypePostEventReceived` event. */
  datatype Notification = Notification(name: string, data: Data, propagate: bool)

  /** The options object of postEvent. `propagate` is a boolean, so a falsy one is
      `false`; a missing or empty-string selector or direction is falsy. */
  datatype EventOptions = EventOptions(propagate: bool, selector: Option<string>, direction: Option<string>)

  /** The options object of postBehavior. */
  datatype BehaviorOptions = BehaviorOptions(documentId: DocumentId, propagate: bool,
                                             selector: Option<string>, direction: Option<string>)

  /** The options after `||` has supplied the defaults. */
  datatype Settings = Settings(propagate: bool, selector: string, direction: string)

  /** JavaScript truthiness of an optional string. */
  predicate Truthy(o: Option<string>) {
    o.Some? && o.value != ""
  }

  function OrDefault(o: Option<string>, default: string): string {
    if Truthy(o) then o.value else default
  }

  /** `options.x || default` for each of the three options. */
  function Resolve(o: EventOptions): (s: Settings)
    ensures s.propagate == o.propagate
    ensures s.selector != "" && s.direction != ""
    ensures Truthy(o.selector) ==> s.selector == o.selector.value
    ensures !Truthy(o.selector) ==> s.selector == DefaultSelector
    ensures Truthy(o.direction) ==> s.direction == o.direction.value
    ensures !Truthy(o.direction) ==> s.direction == Parent
  {
    Settings(o.propagate, OrDefault(o.selector, DefaultSelector), OrDefault(o.direction, Parent))
  }

  /** The settings passed on again as an options object. */
  function AsOptions(s: Settings): EventOptions {
    EventOptions(s.propagate, Some(s.selector), Some(s.direction))
  }

  /** Defaulting twice is defaulting once: postBehavior resolves the options and
      postEvent resolves them again. */
  lemma ResolveIdempotent(o: EventOptions)
    ensures Resolve(AsOptions(Resolve(o))) == Resolve(o)
  {
  }

  /** `{ ...options, direction: d }`, as the four wrappers build it. */
  function WithDirection(o: EventOptions, d: string): (r: EventOptions)
    requires d != ""
    ensures r.propagate == o.propagate && r.selector == o.selector
    ensures Resolve(r).direction == d
    ensures Resolve(r).selector == Resolve(o).selector
  {
    o.(direction := Some(d))
  }

  /** The envelope postEvent puts on the wire: tagged as this protocol's, and
      carrying the event's name, data and flag unchanged. */
  function MakeEnvelope(name: string, data: Data, propagate: bool): (m: Message)
    ensures m.kind == PostEventType
    ensures m.name == name && m.data == data && m.propagate == propagate
  {
    Message(PostEventType, name, data, propagate)
  }

  /** The receive filter: a message whose `type` is not the tag yields no
      notification; a recognised one yields its name, data and flag unchanged. */
  function Unwrap(m: Message): (r: Option<Notification>)
    ensures r.Some? <==> m.kind == PostEventType
    ensures r.Some? ==> m == MakeEnvelope(r.value.name, r.value.data, r.value.propagate)
  {
    if m.kind != PostEventType then None else Some(Notification(m.name, m.data, m.propagate))
  }

  /** Every envelope postEvent builds passes the receive filter with its fields intact. */
  lemma UnwrapMakeEnvelope(name: string, data: Data, propagate: bool)
    ensures Unwrap(MakeEnvelope(name, data, propagate)) == Some(Notification(name, data, propagate))
  {
  }
}
