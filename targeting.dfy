/** Behaviour targeting: which Hype documents handleBehaviorEvent asks to run a
    custom behaviour, and how often, given the `documentId` filter of the event
    data and the number of listeners that run it. */
module Targeting {
  import opened Envelope

  /** A Hype document, known by the id its `documentId()` returns. */
  datatype HypeDoc = HypeDoc(id: string)

  /** One call `hypeDocument.triggerCustomBehaviorNamed(data.behavior, data)`;
      `behavior` is None when the data has no `behavior` field. */
  datatype Trigger = Trigger(document: string, behavior: Option<string>, data: Data)

  /** `!data.documentId`: absent, or the empty string. (An array, even an empty
      one, is truthy.) */
  predicate Falsy(f: DocumentId) {
    f.Absent? || (f.Single? && f.id == "")
  }

  /** The per-document test of handleBehaviorEvent: a falsy filter matches every
      document, an array matches by membership, anything else by equality. */
  function Matches(f: DocumentId, id: string): (r: bool)
    ensures Falsy(f) ==> r
    ensures f.Many? ==> (r <==> id in f.ids)
    ensures f.Single? && f.id != "" ==> (r <==> f.id == id)
  {
    Falsy(f) || (f.Many? && id in f.ids) || (f.Single? && f.id == id)
  }

  /** `data.documentId`, or None when reading it throws because the data is
      undefined or null. Data of any other shape has no such field. */
  function FilterOf(data: Data): (r: Option<DocumentId>)
    ensures r.None? <==> data.Nullish?
    ensures data.BehaviorData? ==> r == Some(data.documentId)
    ensures r.Some? && !data.BehaviorData? ==> forall id :: Matches(r.value, id)
  {
    match data
    case Nullish => None
    case BehaviorData(_, f) => Some(f)
    case _ => Some(Absent)
  }

  /** `data.behavior`. */
  function BehaviorOf(data: Data): Option<string> {
    if data.BehaviorData? then Some(data.behavior) else None
  }

  function TriggerFor(d: HypeDoc, data: Data): Trigger {
    Trigger(d.id, BehaviorOf(data), data)
  }

  /** One `forEach` over `Object.values(HYPE.documents)`: null entries are skipped,
      and every matching document is triggered once, in order. */
  function Collect(docs: seq<Option<HypeDoc>>, f: DocumentId, data: Data): (r: seq<Trigger>)
    ensures |r| <= |docs|
  {
    if docs == [] then []
    else
      var last := docs[|docs| - 1];
      Collect(docs[..|docs| - 1], f, data) +
        (if last.Some? && Matches(f, last.value.id) then [TriggerFor(last.value, data)] else [])
  }

  /** A pass triggers only documents that match, each with `data.behavior` and
      the data itself. */
  lemma {:induction false} CollectSound(docs: seq<Option<HypeDoc>>, f: DocumentId, data: Data)
    ensures forall t :: t in Collect(docs, f, data) ==>
      t.behavior == BehaviorOf(data) && t.data == data && Matches(f, t.document)
  {
    if docs != [] {
      CollectSound(docs[..|docs| - 1], f, data);
    }
  }

  /** Every trigger of a pass is for a document of the list. */
  lemma {:induction false} CollectFromDocuments(docs: seq<Option<HypeDoc>>, f: DocumentId, data: Data, t: Trigger)
    requires t in Collect(docs, f, data)
    ensures Some(HypeDoc(t.document)) in docs
  {
    var init := docs[..|docs| - 1];
    if t in Collect(init, f, data) {
      CollectFromDocuments(init, f, data, t);
      assert forall x :: x in init ==> x in docs;
    } else {
      assert docs[|docs| - 1] == Some(HypeDoc(t.document));
    }
  }

  /** Every non-null matching document of the list is triggered by a pass. */
  lemma {:induction false} CollectComplete(docs: seq<Option<HypeDoc>>, f: DocumentId, data: Data, j: nat)
    requires j < |docs| && docs[j].Some? && Matches(f, docs[j].value.id)
    ensures TriggerFor(docs[j].value, data) in Collect(docs, f, data)
  {
    if j < |docs| - 1 {
      CollectComplete(docs[..|docs| - 1], f, data, j);
    }
  }

  /** One run of handleBehaviorEvent for a received notification: nothing unless
      its name is the behaviour name and `HYPE.documents` exists; nothing either
      when the data is undefined or null (the first document read throws). */
  function BehaviorPass(documents: Option<seq<Option<HypeDoc>>>, n: Notification): (r: seq<Trigger>)
    ensures n.name != BehaviorEventName || documents.None? || n.data.Nullish? ==> r == []
    ensures documents.Some? ==> |r| <= |documents.value|
  {
    if n.name != BehaviorEventName || documents.None? then []
    else match FilterOf(n.data)
      case None => []
      case Some(f) => Collect(documents.value, f, n.data)
  }

  /** `p` run `k` times in a row, once per registered listener. */
  function Repeat(p: seq<Trigger>, k: nat): seq<Trigger> {
    if k == 0 then [] else Repeat(p, k - 1) + p
  }

  /** How many times `t` occurs in `s`. */
  function Occurrences(s: seq<Trigger>, t: Trigger): nat {
    if s == [] then 0
    else Occurrences(s[..|s| - 1], t) + (if s[|s| - 1] == t then 1 else 0)
  }

  lemma {:induction false} OccurrencesAppend(a: seq<Trigger>, b: seq<Trigger>, t: Trigger)
    ensures Occurrences(a + b, t) == Occurrences(a, t) + Occurrences(b, t)
  {
    if b != [] {
      assert (a + b)[..|a + b| - 1] == a + b[..|b| - 1];
      OccurrencesAppend(a, b[..|b| - 1], t);
    } else {
      assert a + b == a;
    }
  }

  lemma {:induction false} OccurrencesAbsent(s: seq<Trigger>, t: Trigger)
    ensures Occurrences(s, t) == 0 <==> t !in s
  {
    if s != [] {
      assert s == s[..|s| - 1] + [s[|s| - 1]];
      OccurrencesAbsent(s[..|s| - 1], t);
    }
  }

  /** A pass repeated by k listeners holds every trigger k times as often. */
  lemma {:induction false} RepeatOccurrences(p: seq<Trigger>, k: nat, t: Trigger)
    ensures Occurrences(Repeat(p, k), t) == k * Occurrences(p, t)
  {
    if k > 0 {
      RepeatOccurrences(p, k - 1, t);
      OccurrencesAppend(Repeat(p, k - 1), p, t);
      var o := Occurrences(p, t);
      assert k * o == (k - 1) * o + o;
    }
  }

  /** Looping over two runs of documents is looping over the first, then the second. */
  lemma {:induction false} CollectAppend(a: seq<Option<HypeDoc>>, b: seq<Option<HypeDoc>>, f: DocumentId, data: Data)
    ensures Collect(a + b, f, data) == Collect(a, f, data) + Collect(b, f, data)
  {
    if b == [] {
      assert a + b == a;
    } else {
      var c, b' := a + b, b[..|b| - 1];
      var last := b[|b| - 1];
      var step := if last.Some? && Matches(f, last.value.id) then [TriggerFor(last.value, data)] else [];
      assert c[..|c| - 1] == a + b' && c[|c| - 1] == last;
      assert Collect(c, f, data) == Collect(a + b', f, data) + step;
      assert Collect(b, f, data) == Collect(b', f, data) + step;
      CollectAppend(a, b', f, data);
    }
  }

  /** Null entries of `HYPE.documents` are skipped: inserting one anywhere changes
      nothing. */
  lemma NullDocumentSkipped(docs: seq<Option<HypeDoc>>, i: nat, n: Notification)
    requires i <= |docs|
    ensures BehaviorPass(Some(docs[..i] + [None] + docs[i..]), n) == BehaviorPass(Some(docs), n)
  {
    if n.name == BehaviorEventName && FilterOf(n.data).Some? {
      var f := FilterOf(n.data).value;
      CollectAppend(docs[..i] + [None], docs[i..], f, n.data);
      CollectAppend(docs[..i], [None], f, n.data);
      CollectAppend(docs[..i], docs[i..], f, n.data);
      assert docs[..i] + docs[i..] == docs;
    }
  }

  /** The ids of the non-null documents are pairwise distinct, as Hype's are. */
  predicate DistinctIds(docs: seq<Option<HypeDoc>>) {
    forall i, j :: 0 <= i < j < |docs| && docs[i].Some? && docs[j].Some? ==> docs[i].value.id != docs[j].value.id
  }

  lemma OccurrencesOfStep(step: seq<Trigger>, t: Trigger)
    requires |step| <= 1
    ensures Occurrences(step, t) == if step == [t] then 1 else 0
  {
    if step != [] {
      assert step[..0] == [];
    }
  }

  /** Dropping the last document keeps the ids distinct, and the last document's
      id occurs nowhere before it. */
  lemma DistinctIdsInit(docs: seq<Option<HypeDoc>>)
    requires DistinctIds(docs) && docs != []
    ensures DistinctIds(docs[..|docs| - 1])
    ensures forall i :: 0 <= i < |docs| - 1 && docs[|docs| - 1].Some? ==> docs[i] != docs[|docs| - 1]
  {
  }

  /** How many entries of the list are the document `d`. */
  function DocCount(docs: seq<Option<HypeDoc>>, d: HypeDoc): nat {
    if docs == [] then 0
    else DocCount(docs[..|docs| - 1], d) + (if docs[|docs| - 1] == Some(d) then 1 else 0)
  }

  lemma {:induction false} DocCountAbsent(docs: seq<Option<HypeDoc>>, d: HypeDoc)
    ensures DocCount(docs, d) == 0 <==> Some(d) !in docs
  {
    if docs != [] {
      assert docs == docs[..|docs| - 1] + [docs[|docs| - 1]];
      DocCountAbsent(docs[..|docs| - 1], d);
    }
  }

  /** With distinct ids, a document of the list is in it exactly once. */
  lemma {:induction false} DocCountDistinct(docs: seq<Option<HypeDoc>>, d: HypeDoc)
    requires DistinctIds(docs) && Some(d) in docs
    ensures DocCount(docs, d) == 1
  {
    var init := docs[..|docs| - 1];
    DistinctIdsInit(docs);
    if docs[|docs| - 1] == Some(d) {
      DocCountAbsent(init, d);
    } else {
      assert Some(d) in init by {
        var i :| 0 <= i < |docs| && docs[i] == Some(d);
        assert i < |init| && init[i] == Some(d);
      }
      DocCountDistinct(init, d);
    }
  }

  /** In one pass, a matching document is triggered once for every entry of it
      in the list, and a document that does not match never is. Triggers are
      known by document id, so two entries with one id count twice. */
  lemma {:induction false} CollectCount(docs: seq<Option<HypeDoc>>, f: DocumentId, data: Data, d: HypeDoc)
    ensures Occurrences(Collect(docs, f, data), TriggerFor(d, data)) ==
      if Matches(f, d.id) then DocCount(docs, d) else 0
  {
    if docs != [] {
      var t := TriggerFor(d, data);
      var init := docs[..|docs| - 1];
      var last := docs[|docs| - 1];
      var step := if last.Some? && Matches(f, last.value.id) then [TriggerFor(last.value, data)] else [];
      assert Collect(docs, f, data) == Collect(init, f, data) + step;
      OccurrencesAppend(Collect(init, f, data), step, t);
      OccurrencesOfStep(step, t);
      assert step == [t] <==> last == Some(d) && Matches(f, d.id);
      CollectCount(init, f, data, d);
    }
  }

  /** With distinct ids, one pass triggers a matching document exactly once and
      any other never. */
  lemma CollectOnce(docs: seq<Option<HypeDoc>>, f: DocumentId, data: Data, d: HypeDoc)
    requires DistinctIds(docs) && Some(d) in docs
    ensures Occurrences(Collect(docs, f, data), TriggerFor(d, data)) == if Matches(f, d.id) then 1 else 0
  {
    CollectCount(docs, f, data, d);
    DocCountDistinct(docs, d);
  }

  /** With k behaviour listeners registered, one behaviour message triggers each
      matching document k times and every other document never. */
  lemma TriggeredOncePerListener(docs: seq<Option<HypeDoc>>, n: Notification, k: nat, d: HypeDoc)
    requires DistinctIds(docs) && Some(d) in docs
    requires n.name == BehaviorEventName && n.data.BehaviorData?
    ensures Occurrences(Repeat(BehaviorPass(Some(docs), n), k), TriggerFor(d, n.data)) ==
      if Matches(n.data.documentId, d.id) then k else 0
  {
    RepeatOccurrences(BehaviorPass(Some(docs), n), k, TriggerFor(d, n.data));
    CollectOnce(docs, n.data.documentId, n.data, d);
    assert k * 1 == k && k * 0 == 0;
  }

  /** Without assuming distinct ids: with k listeners, a behaviour message
      triggers a matching document k times per entry of it, and any other never. */
  lemma TriggeredPerEntry(docs: seq<Option<HypeDoc>>, n: Notification, k: nat, d: HypeDoc)
    requires n.name == BehaviorEventName && n.data.BehaviorData?
    ensures Occurrences(Repeat(BehaviorPass(Some(docs), n), k), TriggerFor(d, n.data)) ==
      if Matches(n.data.documentId, d.id) then k * DocCount(docs, d) else 0
  {
    RepeatOccurrences(BehaviorPass(Some(docs), n), k, TriggerFor(d, n.data));
    CollectCount(docs, n.data.documentId, n.data, d);
    assert k * 0 == 0;
  }

  /** An empty array of ids is truthy but contains nothing: no document is
      triggered. */
  lemma EmptyArrayTriggersNothing(docs: seq<Option<HypeDoc>>, n: Notification)
    requires FilterOf(n.data) == Some(Many([]))
    ensures BehaviorPass(Some(docs), n) == []
  {
    CollectNoMatch(docs, Many([]), n.data);
  }

  /** When no document matches, a pass triggers nothing. */
  lemma {:induction false} CollectNoMatch(docs: seq<Option<HypeDoc>>, f: DocumentId, data: Data)
    requires forall j :: 0 <= j < |docs| && docs[j].Some? ==> !Matches(f, docs[j].value.id)
    ensures Collect(docs, f, data) == []
  {
    if docs != [] {
      CollectNoMatch(docs[..|docs| - 1], f, data);
    }
  }

  /** Without `HYPE` or `HYPE.documents` nothing happens. */
  lemma NoHypeNoTrigger(n: Notification)
    ensures BehaviorPass(None, n) == []
  {
  }

  /** A behaviour aimed at ids ["A", "B"] reaches the documents "A" and "B" and no
      other. */
  lemma TwoIdsExample(docs: seq<Option<HypeDoc>>, behavior: string, n: Notification)
    requires n == Notification(BehaviorEventName, BehaviorData(behavior, Many(["A", "B"])), false)
    ensures forall t :: t in BehaviorPass(Some(docs), n) ==> t.document == "A" || t.document == "B"
    ensures Some(HypeDoc("A")) in docs ==> Trigger("A", Some(behavior), n.data) in BehaviorPass(Some(docs), n)
  {
    CollectSound(docs, Many(["A", "B"]), n.data);
    if Some(HypeDoc("A")) in docs {
      var j :| 0 <= j < |docs| && docs[j] == Some(HypeDoc("A"));
      CollectComplete(docs, Many(["A", "B"]), n.data, j);
    }
  }
}
