/** Where postEvent sends an envelope, what reaches whom when a send throws, and
    the one-hop forwarding rule of handlePostEvent. The transport is abstracted
    to "append (window, message) to an outbox". */
module Routing {
  import opened Envelope

  /** A window a message can be posted to. */
  datatype Window = ParentWindow | ChildWindow(id: nat)

  /** One `postMessage(message, "*")` that went through. */
  datatype Sent = Sent(to: Window, message: Message)

  /** What `document.querySelectorAll` answers, per selector: the matched elements
      in document order, each with its content window or None when it has none.
      A selector missing from the map is one the page rejects with an error. */
  type Query = map<string, seq<Option<nat>>>

  /** The outcome of one postEvent: the sends that went through, and whether its
      `try` caught an error (and so logged a warning). */
  datatype Delivery = Delivery(sent: seq<Sent>, threw: bool)

  /** Posting to a target succeeds when there is a window to post to and the data
      survives structured cloning; otherwise `postMessage` (or the property read
      before it) throws. */
  predicate Deliverable(t: Option<Window>, m: Message) {
    t.Some? && !m.data.Uncloneable?
  }

  /** The `forEach` inside one `try`: targets are posted to in order, and the first
      one that throws ends the loop. */
  function DeliverAll(targets: seq<Option<Window>>, m: Message): (r: Delivery)
    ensures |r.sent| <= |targets|
    ensures r.threw <==> |r.sent| < |targets|
  {
    if targets == [] then Delivery([], false)
    else if !Deliverable(targets[0], m) then Delivery([], true)
    else
      var rest := DeliverAll(targets[1..], m);
      Delivery([Sent(targets[0].value, m)] + rest.sent, rest.threw)
  }

  /** What the loop delivers is the longest deliverable prefix of the targets, in
      order; an error is caught exactly when that prefix stops short, and then
      the next target is the one that threw. */
  lemma {:induction false} DeliverAllPrefix(targets: seq<Option<Window>>, m: Message)
    ensures var r := DeliverAll(targets, m);
      |r.sent| <= |targets| &&
      (forall j :: 0 <= j < |r.sent| ==> Deliverable(targets[j], m) && r.sent[j] == Sent(targets[j].value, m)) &&
      (r.threw <==> |r.sent| < |targets|) &&
      (r.threw ==> !Deliverable(targets[|r.sent|], m))
  {
    if targets != [] && Deliverable(targets[0], m) {
      DeliverAllPrefix(targets[1..], m);
    }
  }

  /** One step of the `forEach`: with `done` sent for the targets before i, posting
      to target i either extends `done` or ends the loop with an error. */
  lemma DeliverAllStep(targets: seq<Option<Window>>, i: nat, m: Message, done: seq<Sent>)
    requires i < |targets|
    requires DeliverAll(targets, m).sent == done + DeliverAll(targets[i..], m).sent
    requires DeliverAll(targets, m).threw == DeliverAll(targets[i..], m).threw
    ensures Deliverable(targets[i], m) ==>
      DeliverAll(targets, m).sent == (done + [Sent(targets[i].value, m)]) + DeliverAll(targets[i + 1..], m).sent &&
      DeliverAll(targets, m).threw == DeliverAll(targets[i + 1..], m).threw
    ensures !Deliverable(targets[i], m) ==> DeliverAll(targets, m) == Delivery(done, true)
  {
  }

  function ChildWindows(frames: seq<Option<nat>>): seq<Option<Window>> {
    seq(|frames|, j requires 0 <= j < |frames| =>
      if frames[j].Some? then Some(ChildWindow(frames[j].value)) else None)
  }

  /** The targets of one postEvent, or None when looking them up throws (a
      selector the page rejects). */
  function Targets(s: Settings, q: Query): (r: Option<seq<Option<Window>>>)
    ensures r.None? <==> s.direction == Children && s.selector !in q
    ensures r.Some? ==> |r.value| == TargetCount(s, q)
    ensures r.Some? ==> forall j :: 0 <= j < |r.value| && r.value[j].Some? ==>
      (r.value[j].value.ParentWindow? <==> s.direction == Parent)
  {
    if s.direction == Parent then Some([Some(ParentWindow)])
    else if s.direction == Children then
      if s.selector in q then Some(ChildWindows(q[s.selector])) else None
    else Some([])
  }

  /** How many elements postEvent tries to post to: one parent, every frame the
      selector matches, or none. */
  function TargetCount(s: Settings, q: Query): nat {
    if s.direction == Parent then 1
    else if s.direction == Children && s.selector in q then |q[s.selector]|
    else 0
  }

  /** The whole effect of postEvent with resolved settings: never more sends than
      targets, and an error only for the two directions that post at all. */
  function PostEventSpec(s: Settings, name: string, data: Data, q: Query): (r: Delivery)
    ensures |r.sent| <= TargetCount(s, q)
    ensures r.threw ==> s.direction == Parent || s.direction == Children
    ensures !r.threw ==> |r.sent| == TargetCount(s, q)
  {
    match Targets(s, q)
    case None => Delivery([], true)
    case Some(ts) => DeliverAll(ts, MakeEnvelope(name, data, s.propagate))
  }

  /** Every send of postEvent carries the one envelope built from its name, data
      and resolved flag. */
  lemma PostEventCarriesEnvelope(s: Settings, name: string, data: Data, q: Query)
    ensures var r := PostEventSpec(s, name, data, q);
      forall j :: 0 <= j < |r.sent| ==> r.sent[j].message == MakeEnvelope(name, data, s.propagate)
  {
    if Targets(s, q).Some? {
      DeliverAllPrefix(Targets(s, q).value, MakeEnvelope(name, data, s.propagate));
    }
  }

  /** Direction 'parent': exactly one send, to the parent, unless the data cannot
      be cloned, in which case nothing is sent and the error is caught. */
  lemma PostToParent(s: Settings, name: string, data: Data, q: Query)
    requires s.direction == Parent
    ensures PostEventSpec(s, name, data, q) ==
      if data.Uncloneable? then Delivery([], true)
      else Delivery([Sent(ParentWindow, MakeEnvelope(name, data, s.propagate))], false)
  {
    var m := MakeEnvelope(name, data, s.propagate);
    assert Targets(s, q) == Some([Some(ParentWindow)]);
    assert [Some(ParentWindow)][1..] == [];
    assert [Sent(ParentWindow, m)] + DeliverAll([], m).sent == [Sent(ParentWindow, m)];
  }

  /** Direction 'children' with every matched frame reachable: one send per frame,
      in document order, and no error. */
  lemma PostToChildren(s: Settings, name: string, data: Data, q: Query)
    requires s.direction == Children && s.selector in q && !data.Uncloneable?
    requires forall j :: 0 <= j < |q[s.selector]| ==> q[s.selector][j].Some?
    ensures var r := PostEventSpec(s, name, data, q);
      !r.threw && |r.sent| == |q[s.selector]| &&
      forall j :: 0 <= j < |r.sent| ==>
        r.sent[j] == Sent(ChildWindow(q[s.selector][j].value), MakeEnvelope(name, data, s.propagate))
  {
    DeliverAllPrefix(ChildWindows(q[s.selector]), MakeEnvelope(name, data, s.propagate));
  }

  /** Direction 'children' where the i-th matched element is the first without a
      window: frames 0..i-1 have received the envelope, no later frame does, and
      the error is caught. */
  lemma PostToChildrenCutOff(s: Settings, name: string, data: Data, q: Query, i: nat)
    requires s.direction == Children && s.selector in q && !data.Uncloneable?
    requires i < |q[s.selector]| && q[s.selector][i].None?
    requires forall j :: 0 <= j < i ==> q[s.selector][j].Some?
    ensures var r := PostEventSpec(s, name, data, q);
      r.threw && |r.sent| == i &&
      forall j :: 0 <= j < i ==>
        r.sent[j] == Sent(ChildWindow(q[s.selector][j].value), MakeEnvelope(name, data, s.propagate))
  {
    var m := MakeEnvelope(name, data, s.propagate);
    var ts := ChildWindows(q[s.selector]);
    DeliverAllPrefix(ts, m);
    assert !Deliverable(ts[i], m);
  }

  /** Direction 'children' with data that cannot be cloned: the first send throws,
      so nothing is sent at all. */
  lemma PostUncloneableToChildren(s: Settings, name: string, q: Query)
    requires s.direction == Children
    ensures PostEventSpec(s, name, Uncloneable, q).sent == []
    ensures PostEventSpec(s, name, Uncloneable, q).threw <==> !(s.selector in q) || q[s.selector] != []
  {
  }

  /** Direction 'children' with a selector the page rejects: nothing is sent and the
      error is caught. */
  lemma PostToRejectedSelector(s: Settings, name: string, data: Data, q: Query)
    requires s.direction == Children && s.selector !in q
    ensures PostEventSpec(s, name, data, q) == Delivery([], true)
  {
  }

  /** Any direction other than 'parent' and 'children': no send, no error. */
  lemma PostElsewhere(s: Settings, name: string, data: Data, q: Query)
    requires s.direction != Parent && s.direction != Children
    ensures PostEventSpec(s, name, data, q) == Delivery([], false)
  {
  }

  /** The options handlePostEvent forwards a propagating event with: toward the
      parent when the window is embedded, otherwise toward the default children. */
  function ForwardOptions(hasParent: bool): (o: EventOptions)
    ensures o.propagate && !Truthy(o.selector)
    ensures Resolve(o).direction == (if hasParent then Parent else Children)
    ensures Resolve(o).selector == DefaultSelector
  {
    EventOptions(true, None, Some(if hasParent then Parent else Children))
  }

  /** A forwarded event goes one way only, to the parent exactly when the window is
      embedded, and every forwarded copy carries the same name and data with
      `propagate` set. */
  lemma ForwardOneWay(hasParent: bool, name: string, data: Data, q: Query)
    ensures var r := PostEventSpec(Resolve(ForwardOptions(hasParent)), name, data, q);
      forall j :: 0 <= j < |r.sent| ==>
        (r.sent[j].to.ParentWindow? <==> hasParent) &&
        r.sent[j].message == MakeEnvelope(name, data, true)
  {
    var s := Resolve(ForwardOptions(hasParent));
    if Targets(s, q).Some? {
      DeliverAllPrefix(Targets(s, q).value, MakeEnvelope(name, data, true));
    }
  }
}
