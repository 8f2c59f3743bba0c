/** One browsing context running HypePostMessage, as a class whose fields are the
    parts of the window the code reads or changes: whether it is embedded, what
    `querySelectorAll` finds, `HYPE.documents`, the `HypePostEventReceived`
    listeners added by HypeDocumentLoad, the documents given the four wrapper
    methods, and logs of what was posted, warned, dispatched and triggered. */
module Browser {
  import opened Envelope
  import opened Routing
  import opened Targeting

  /** A `HypePostEventReceived` listener added by HypeDocumentLoad, remembered by
      the id of the document whose load added it. */
  datatype Listener = BehaviorListener(addedBy: string)

  /** Everything one incoming message causes: the local notifications, the
      behaviours triggered by the registered listeners, and the forwarding. */
  datatype Effect = Effect(dispatched: seq<Notification>, triggered: seq<Trigger>, forward: Delivery)

  /** handlePostEvent followed by the listeners, as a function of the window: a
      foreign message changes nothing; a recognised one is dispatched once, runs
      handleBehaviorEvent once per listener, and is forwarded one hop when its
      `propagate` flag is set. */
  function ReceiveEffect(hasParent: bool, q: Query, documents: Option<seq<Option<HypeDoc>>>,
                         listeners: nat, m: Message): (e: Effect)
    ensures e.dispatched == [] <==> m.kind != PostEventType
    ensures |e.dispatched| <= 1
    ensures e.dispatched == [] || listeners == 0 ==> e.triggered == []
    ensures !m.propagate || m.kind != PostEventType ==> e.forward == Delivery([], false)
  {
    match Unwrap(m)
    case None => Effect([], [], Delivery([], false))
    case Some(n) =>
      Effect([n], Repeat(BehaviorPass(documents, n), listeners),
             if n.propagate then PostEventSpec(Resolve(ForwardOptions(hasParent)), n.name, n.data, q)
             else Delivery([], false))
  }

  /** The warning logged by one postEvent: its direction, when its `try` caught an error. */
  function Warnings(direction: string, d: Delivery): (w: seq<string>)
    ensures |w| <= 1
    ensures w != [] <==> d.threw
    ensures forall x :: x in w ==> x == direction
  {
    if d.threw then [direction] else []
  }

  /** The options object postBehavior hands on to postEvent, before defaulting. */
  function BehaviorEventOptions(o: BehaviorOptions): (r: EventOptions)
    ensures Resolve(r).propagate == o.propagate
    ensures Truthy(o.selector) ==> Resolve(r).selector == o.selector.value
    ensures Truthy(o.direction) ==> Resolve(r).direction == o.direction.value
    ensures !Truthy(o.selector) ==> Resolve(r).selector == DefaultSelector
    ensures !Truthy(o.direction) ==> Resolve(r).direction == Parent
  {
    EventOptions(o.propagate, o.selector, o.direction)
  }

  /** The effect of postBehavior: one postEvent of the behaviour event name with
      data `{behavior, documentId}`. */
  function PostBehaviorSpec(behaviorName: string, o: BehaviorOptions, q: Query): (d: Delivery)
    ensures forall j :: 0 <= j < |d.sent| ==>
      d.sent[j].message == MakeEnvelope(BehaviorEventName, BehaviorData(behaviorName, o.documentId), o.propagate)
  {
    var s := Resolve(BehaviorEventOptions(o));
    var data := BehaviorData(behaviorName, o.documentId);
    PostEventCarriesEnvelope(s, BehaviorEventName, data, q);
    PostEventSpec(s, BehaviorEventName, data, q)
  }

  class Page {
    const hasParent: bool
    const query: Query
    const documents: Option<seq<Option<HypeDoc>>>
    var listeners: seq<Listener>
    var extended: seq<HypeDoc>
    var outbox: seq<Sent>
    var warnings: seq<string>
    var dispatched: seq<Notification>
    var triggered: seq<Trigger>

    /** A window before any Hype document has loaded and before any message. */
    constructor (hasParent: bool, query: Query, documents: Option<seq<Option<HypeDoc>>>)
      ensures this.hasParent == hasParent && this.query == query && this.documents == documents
      ensures listeners == [] && extended == []
      ensures outbox == [] && warnings == [] && dispatched == [] && triggered == []
    {
      this.hasParent := hasParent;
      this.query := query;
      this.documents := documents;
      listeners, extended := [], [];
      outbox, warnings, dispatched, triggered := [], [], [], [];
    }

    /** `target.postMessage(message, "*")`: appends to the outbox, or throws when
        there is no window or the data cannot be cloned. */
    method PostMessage(target: Option<Window>, m: Message) returns (threw: bool)
      modifies this`outbox
      ensures threw == !Deliverable(target, m)
      ensures outbox == old(outbox) + if threw then [] else [Sent(target.value, m)]
    {
      threw := !Deliverable(target, m);
      if !threw {
        outbox := outbox + [Sent(target.value, m)];
      }
    }

    /** The `forEach` over the matched frames: post to each in turn until one throws. */
    method PostToEach(targets: seq<Option<Window>>, message: Message) returns (threw: bool)
      modifies this`outbox
      ensures outbox == old(outbox) + DeliverAll(targets, message).sent
      ensures threw == DeliverAll(targets, message).threw
    {
      threw := false;
      var i := 0;
      ghost var done: seq<Sent> := [];
      while i < |targets| && !threw
        invariant 0 <= i <= |targets|
        invariant outbox == old(outbox) + done
        invariant !threw ==> (DeliverAll(targets, message).sent == done + DeliverAll(targets[i..], message).sent &&
                              DeliverAll(targets, message).threw == DeliverAll(targets[i..], message).threw)
        invariant threw ==> DeliverAll(targets, message) == Delivery(done, true)
      {
        DeliverAllStep(targets, i, message, done);
        threw := PostMessage(targets[i], message);
        if !threw {
          done := done + [Sent(targets[i].value, message)];
        }
        i := i + 1;
      }
      if !threw {
        assert targets[i..] == [] && done + [] == done;
      }
    }

    /** postEvent: default the options, build the envelope, post it inside one
        `try`, and log a warning naming the direction when that `try` catches. */
    method PostEvent(name: string, data: Data, options: EventOptions)
      modifies this`outbox, this`warnings
      ensures var s := Resolve(options);
        var d := PostEventSpec(s, name, data, query);
        outbox == old(outbox) + d.sent && warnings == old(warnings) + Warnings(s.direction, d)
    {
      var s := Resolve(options);
      var message := MakeEnvelope(name, data, s.propagate);
      var threw := false;
      if s.direction == Parent {
        PostToParent(s, name, data, query);
        threw := PostMessage(Some(ParentWindow), message);
      } else if s.direction == Children {
        if s.selector !in query {
          // querySelectorAll rejects the selector
          threw := true;
        } else {
          threw := PostToEach(ChildWindows(query[s.selector]), message);
        }
      }
      if threw {
        warnings := warnings + [s.direction];
      }
    }

    /** postBehavior: the behaviour name and document filter become the event
        data; the document it is called for plays no part. */
    method PostBehavior(hypeDocument: HypeDoc, behaviorName: string, options: BehaviorOptions)
      modifies this`outbox, this`warnings
      ensures var d := PostBehaviorSpec(behaviorName, options, query);
        outbox == old(outbox) + d.sent &&
        warnings == old(warnings) + Warnings(Resolve(BehaviorEventOptions(options)).direction, d)
    {
      var eventData := BehaviorData(behaviorName, options.documentId);
      var eventOptions := AsOptions(Resolve(BehaviorEventOptions(options)));
      ResolveIdempotent(BehaviorEventOptions(options));
      PostEvent(BehaviorEventName, eventData, eventOptions);
    }

    /** handleBehaviorEvent: for a behaviour event, when `HYPE.documents` exists,
        trigger the behaviour on every non-null matching document in order. */
    method HandleBehaviorEvent(n: Notification)
      modifies this`triggered
      ensures triggered == old(triggered) + BehaviorPass(documents, n)
    {
      if n.name != BehaviorEventName || documents.None? {
        return;
      }
      var docs := documents.value;
      var filter := FilterOf(n.data);
      var i := 0;
      while i < |docs|
        invariant 0 <= i <= |docs|
        invariant triggered == old(triggered) + if filter.None? then [] else Collect(docs[..i], filter.value, n.data)
      {
        var d := docs[i];
        if d.Some? {
          if filter.None? {
            // reading `data.documentId` throws and ends the loop
            return;
          }
          if Matches(filter.value, d.value.id) {
            triggered := triggered + [TriggerFor(d.value, n.data)];
          }
        }
        assert docs[..i + 1][..i] == docs[..i];
        i := i + 1;
      }
      assert docs[..i] == docs;
    }

    /** HypeDocumentLoad: give the document its four wrapper methods and add one
        more `HypePostEventReceived` listener. */
    method HypeDocumentLoad(hypeDocument: HypeDoc)
      modifies this`listeners, this`extended
      ensures listeners == old(listeners) + [BehaviorListener(hypeDocument.id)]
      ensures extended == old(extended) + [hypeDocument]
    {
      extended := extended + [hypeDocument];
      listeners := listeners + [BehaviorListener(hypeDocument.id)];
    }

    /** handlePostEvent, with the local dispatch running every listener HypeDocumentLoad added. */
    method HandlePostEvent(m: Message)
      modifies this`dispatched, this`triggered, this`outbox, this`warnings
      ensures var e := ReceiveEffect(hasParent, query, documents, |listeners|, m);
        dispatched == old(dispatched) + e.dispatched &&
        triggered == old(triggered) + e.triggered &&
        outbox == old(outbox) + e.forward.sent &&
        warnings == old(warnings) + Warnings(Resolve(ForwardOptions(hasParent)).direction, e.forward)
    {
      if m.kind != PostEventType {
        return;
      }
      var n := Notification(m.name, m.data, m.propagate);
      dispatched := dispatched + [n];
      var i := 0;
      while i < |listeners|
        invariant 0 <= i <= |listeners|
        invariant dispatched == old(dispatched) + [n]
        invariant outbox == old(outbox) && warnings == old(warnings)
        invariant triggered == old(triggered) + Repeat(BehaviorPass(documents, n), i)
      {
        if n.name == BehaviorEventName {
          HandleBehaviorEvent(n);
        }
        i := i + 1;
      }
      if n.propagate {
        if hasParent {
          PostEvent(n.name, n.data, EventOptions(true, None, Some(Parent)));
        } else {
          PostEvent(n.name, n.data, EventOptions(true, None, Some(Children)));
        }
      }
    }

    /** `hypeDocument.postEventToParent`: postEvent with the direction forced to 'parent'. */
    method PostEventToParent(hypeDocument: HypeDoc, name: string, data: Data, options: EventOptions)
      requires hypeDocument in extended
      modifies this`outbox, this`warnings
      ensures var d := PostEventSpec(Resolve(options).(direction := Parent), name, data, query);
        outbox == old(outbox) + d.sent && warnings == old(warnings) + Warnings(Parent, d)
    {
      PostEvent(name, data, WithDirection(options, Parent));
    }

    /** `hypeDocument.postEventToChildren`: postEvent with the direction forced to 'children'. */
    method PostEventToChildren(hypeDocument: HypeDoc, name: string, data: Data, options: EventOptions)
      requires hypeDocument in extended
      modifies this`outbox, this`warnings
      ensures var d := PostEventSpec(Resolve(options).(direction := Children), name, data, query);
        outbox == old(outbox) + d.sent && warnings == old(warnings) + Warnings(Children, d)
    {
      PostEvent(name, data, WithDirection(options, Children));
    }

    /** `hypeDocument.postBehaviorToParent`: postBehavior with the direction forced to 'parent'. */
    method PostBehaviorToParent(hypeDocument: HypeDoc, behaviorName: string, options: BehaviorOptions)
      requires hypeDocument in extended
      modifies this`outbox, this`warnings
      ensures var d := PostBehaviorSpec(behaviorName, options.(direction := Some(Parent)), query);
        outbox == old(outbox) + d.sent && warnings == old(warnings) + Warnings(Parent, d)
    {
      PostBehavior(hypeDocument, behaviorName, options.(direction := Some(Parent)));
    }

    /** `hypeDocument.postBehaviorToChildren`: postBehavior with the direction forced to 'children'. */
    method PostBehaviorToChildren(hypeDocument: HypeDoc, behaviorName: string, options: BehaviorOptions)
      requires hypeDocument in extended
      modifies this`outbox, this`warnings
      ensures var d := PostBehaviorSpec(behaviorName, options.(direction := Some(Children)), query);
        outbox == old(outbox) + d.sent && warnings == old(warnings) + Warnings(Children, d)
    {
      PostBehavior(hypeDocument, behaviorName, options.(direction := Some(Children)));
    }
  }

  /** A message whose `type` is not the tag changes nothing: no local dispatch, no
      trigger, no send, no warning. */
  lemma ForeignMessageIgnored(hasParent: bool, q: Query, documents: Option<seq<Option<HypeDoc>>>, k: nat, m: Message)
    requires m.kind != PostEventType
    ensures ReceiveEffect(hasParent, q, documents, k, m) == Effect([], [], Delivery([], false))
  {
  }

  /** A recognised message is dispatched locally exactly once, with its own name,
      data and flag; without the flag nothing is sent on. */
  lemma RecognisedDispatchedOnce(hasParent: bool, q: Query, documents: Option<seq<Option<HypeDoc>>>, k: nat, m: Message)
    requires m.kind == PostEventType
    ensures ReceiveEffect(hasParent, q, documents, k, m).dispatched == [Notification(m.name, m.data, m.propagate)]
    ensures !m.propagate ==> ReceiveEffect(hasParent, q, documents, k, m).forward == Delivery([], false)
  {
  }

  /** An embedded window forwards a propagating message once, to its parent, as
      the same envelope. */
  lemma ForwardFromEmbedded(q: Query, documents: Option<seq<Option<HypeDoc>>>, k: nat, m: Message)
    requires m.kind == PostEventType && m.propagate && !m.data.Uncloneable?
    ensures ReceiveEffect(true, q, documents, k, m).forward == Delivery([Sent(ParentWindow, m)], false)
  {
    PostToParent(Resolve(ForwardOptions(true)), m.name, m.data, q);
  }

  /** A top-level window forwards a propagating message to every "iframe" child,
      in document order, as the same envelope. */
  lemma ForwardFromTopLevel(q: Query, documents: Option<seq<Option<HypeDoc>>>, k: nat, m: Message)
    requires m.kind == PostEventType && m.propagate && !m.data.Uncloneable?
    requires DefaultSelector in q && forall j :: 0 <= j < |q[DefaultSelector]| ==> q[DefaultSelector][j].Some?
    ensures var f := ReceiveEffect(false, q, documents, k, m).forward;
      !f.threw && |f.sent| == |q[DefaultSelector]| &&
      forall j :: 0 <= j < |f.sent| ==> f.sent[j] == Sent(ChildWindow(q[DefaultSelector][j].value), m)
  {
    PostToChildren(Resolve(ForwardOptions(false)), m.name, m.data, q);
  }

  /** Forwarding never goes both ways: every forwarded copy goes to the parent
      when the window is embedded and to a child otherwise, and is the received
      envelope itself. */
  lemma ForwardOneDirection(hasParent: bool, q: Query, documents: Option<seq<Option<HypeDoc>>>, k: nat, m: Message)
    ensures var f := ReceiveEffect(hasParent, q, documents, k, m).forward;
      forall j :: 0 <= j < |f.sent| ==> (f.sent[j].to.ParentWindow? <==> hasParent) && f.sent[j].message == m
  {
    if m.kind == PostEventType && m.propagate {
      ForwardOneWay(hasParent, m.name, m.data, q);
    }
  }

  /** After k document loads, one behaviour message triggers every matching
      document k times and every other document never. */
  lemma BehaviorTriggeredPerListener(hasParent: bool, q: Query, docs: seq<Option<HypeDoc>>, k: nat, m: Message, d: HypeDoc)
    requires m.kind == PostEventType && m.name == BehaviorEventName && m.data.BehaviorData?
    requires DistinctIds(docs) && Some(d) in docs
    ensures Occurrences(ReceiveEffect(hasParent, q, Some(docs), k, m).triggered, TriggerFor(d, m.data)) ==
      if Matches(m.data.documentId, d.id) then k else 0
  {
    TriggeredOncePerListener(docs, Notification(m.name, m.data, m.propagate), k, d);
  }

  /** Whatever postBehavior sends is recognised by the receiving window, dispatched
      once as a behaviour event, and triggers each document that its documentId
      selects once per listener there. */
  lemma PostBehaviorRoundTrip(behaviorName: string, o: BehaviorOptions, q: Query,
                              hasParent: bool, q': Query, docs: seq<Option<HypeDoc>>, k: nat, d: HypeDoc, j: nat)
    requires j < |PostBehaviorSpec(behaviorName, o, q).sent|
    requires DistinctIds(docs) && Some(d) in docs
    ensures var m := PostBehaviorSpec(behaviorName, o, q).sent[j].message;
      var e := ReceiveEffect(hasParent, q', Some(docs), k, m);
      e.dispatched == [Notification(BehaviorEventName, BehaviorData(behaviorName, o.documentId), o.propagate)] &&
      Occurrences(e.triggered, TriggerFor(d, BehaviorData(behaviorName, o.documentId))) ==
        if Matches(o.documentId, d.id) then k else 0
  {
    var data := BehaviorData(behaviorName, o.documentId);
    var m := MakeEnvelope(BehaviorEventName, data, o.propagate);
    var s := Resolve(BehaviorEventOptions(o));
    DeliverAllPrefix(Targets(s, q).value, m);
    assert PostBehaviorSpec(behaviorName, o, q).sent[j].message == m;
    BehaviorTriggeredPerListener(hasParent, q', docs, k, m, d);
  }

  /** The four wrappers fix the direction whatever the caller's options say. */
  lemma WrappersFixDirection(o: EventOptions, b: BehaviorOptions)
    ensures Resolve(WithDirection(o, Parent)).direction == Parent
    ensures Resolve(WithDirection(o, Children)).direction == Children
    ensures Resolve(BehaviorEventOptions(b.(direction := Some(Parent)))).direction == Parent
    ensures Resolve(BehaviorEventOptions(b.(direction := Some(Children)))).direction == Children
  {
  }

  /** A top-level page posting "ping" with data {n: 1} to its children reaches
      both of its two frames, with `propagate` false. */
  lemma PingToTwoChildren(data: Data, q: Query)
    requires data == Opaque("{n:1}") && q == map[DefaultSelector := [Some(1), Some(2)]]
    ensures PostEventSpec(Resolve(EventOptions(false, None, Some(Children))), "ping", data, q) ==
      Delivery([Sent(ChildWindow(1), Message(PostEventType, "ping", data, false)),
                Sent(ChildWindow(2), Message(PostEventType, "ping", data, false))], false)
  {
    var ts := ChildWindows(q[DefaultSelector]);
    assert ts == [Some(ChildWindow(1)), Some(ChildWindow(2))];
    var m := Message(PostEventType, "ping", data, false);
    assert ts[1..][1..] == [];
    assert DeliverAll(ts[1..], m) == Delivery([Sent(ChildWindow(2), m)], false);
  }

  /** An embedded window receiving "sync" with data 42 and `propagate` set
      dispatches it locally and sends the same envelope to its parent. */
  lemma SyncFromChild(q: Query, documents: Option<seq<Option<HypeDoc>>>, k: nat, m: Message)
    requires m == Message(PostEventType, "sync", Opaque("42"), true)
    ensures ReceiveEffect(true, q, documents, k, m).dispatched == [Notification("sync", Opaque("42"), true)]
    ensures ReceiveEffect(true, q, documents, k, m).forward == Delivery([Sent(ParentWindow, m)], false)
  {
    ForwardFromEmbedded(q, documents, k, m);
  }
}
