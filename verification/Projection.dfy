/** Keys do not interfere: each (client, route, key) sees the machine as if it had it alone. */
module Projection {
  import opened Domain
  import opened Intake

  function ForKey(es: seq<Record>, k: Key): (own: seq<Record>)
    ensures forall r :: r in own <==> r in es && OfKey(r, k)
  {
    if es == [] then []
    else
      assert es == Init(es) + [Last(es)];
      if OfKey(Last(es), k) then ForKey(Init(es), k) + [Last(es)] else ForKey(Init(es), k)
  }

  /** What one key can observe: its own records with their outcomes, and its incident row. */
  datatype View = View(records: seq<Record>, row: Option<Incident>)

  function ViewOf(b: Book, k: Key): View {
    View(ForKey(b.events, k), Lookup(b.incidents, k))
  }

  /** The inputs that concern one key: its own events, and every retention pass. */
  predicate Concerns(s: Step, k: Key) {
    s.Offer? ==> KeyOf(s.p.client, s.p.event) == k
  }

  function Subrun(steps: seq<Step>, k: Key): (sub: seq<Step>)
    ensures forall s :: s in sub ==> s in steps && Concerns(s, k)
  {
    if steps == [] then []
    else
      assert steps == Init(steps) + [Last(steps)];
      if Concerns(Last(steps), k) then Subrun(Init(steps), k) + [Last(steps)] else Subrun(Init(steps), k)
  }

  predicate SameIdentity(a: Params, b: Params) {
    a.client == b.client && a.event.eventId == b.event.eventId
  }

  /** An event id may be offered any number of times, but by one client only on one key. */
  predicate OneKeyPerId(steps: seq<Step>) {
    forall s, t :: s in steps && t in steps && s.Offer? && t.Offer? && SameIdentity(s.p, t.p) ==>
      KeyOf(s.p.client, s.p.event) == KeyOf(t.p.client, t.p.event)
  }

  predicate StoredFrom(r: Record, s: Step) {
    s.Offer? && r.client == s.p.client && r.event == s.p.event
  }

  /** A record holds the event of an offer of the run. */
  lemma {:induction false} Provenance(steps: seq<Step>, r: Record)
    requires r in Run(steps).events
    ensures exists s :: s in steps && StoredFrom(r, s)
  {
    if steps != [] {
      assert steps == Init(steps) + [Last(steps)];
      if r in Run(Init(steps)).events {
        Provenance(Init(steps), r);
        var s :| s in Init(steps) && StoredFrom(r, s);
        assert s in steps;
      } else {
        assert StoredFrom(r, Last(steps));
      }
    }
  }

  lemma {:induction false} ForKeyAppend(es: seq<Record>, r: Record, k: Key)
    ensures ForKey(es + [r], k) == if OfKey(r, k) then ForKey(es, k) + [r] else ForKey(es, k)
  {
    assert Init(es + [r]) == es;
  }

  lemma {:induction false} LatestAppend(es: seq<Record>, r: Record, k: Key)
    ensures Latest(es + [r], k) == if !Counted(r, k) then Latest(es, k)
                                   else if Latest(es, k).Some? && r.event.occurredAt <= Latest(es, k).value then Latest(es, k)
                                   else Some(r.event.occurredAt)
  {
    assert Init(es + [r]) == es;
  }

  lemma {:induction false} LoudestAppend(es: seq<Record>, r: Record, k: Key, since: int)
    ensures Loudest(es + [r], k, since) ==
            if Heard(r, k, since) && Loudest(es, k, since) < Rank(r.event.severity) then Rank(r.event.severity)
            else Loudest(es, k, since)
  {
    assert Init(es + [r]) == es;
  }

  lemma {:induction false} LatestSeesOnlyTheKey(es: seq<Record>, k: Key)
    ensures Latest(ForKey(es, k), k) == Latest(es, k)
  {
    if es != [] {
      var early, r := Init(es), Last(es);
      assert es == early + [r];
      LatestSeesOnlyTheKey(early, k);
      ForKeyAppend(early, r, k);
      LatestAppend(early, r, k);
      LatestAppend(ForKey(early, k), r, k);
    }
  }

  lemma {:induction false} LoudestSeesOnlyTheKey(es: seq<Record>, k: Key, since: int)
    ensures Loudest(ForKey(es, k), k, since) == Loudest(es, k, since)
  {
    if es != [] {
      var early, r := Init(es), Last(es);
      assert es == early + [r];
      LoudestSeesOnlyTheKey(early, k, since);
      ForKeyAppend(early, r, k);
      LoudestAppend(early, r, k, since);
      LoudestAppend(ForKey(early, k), r, k, since);
    }
  }

  lemma AggregatesSeeOnlyTheKey(es: seq<Record>, k: Key, since: int)
    ensures Latest(ForKey(es, k), k) == Latest(es, k)
    ensures Loudest(ForKey(es, k), k, since) == Loudest(es, k, since)
  {
    LatestSeesOnlyTheKey(es, k);
    LoudestSeesOnlyTheKey(es, k, since);
  }

  lemma {:induction false} PurgeCommutes(es: seq<Record>, gone: set<nat>, k: Key)
    ensures ForKey(Without(es, gone), k) == Without(ForKey(es, k), gone)
  {
    if es != [] {
      var r, early := Last(es), Init(es);
      PurgeCommutes(early, gone, k);
      ForKeyAppend(Without(early, gone), r, k);
      if OfKey(r, k) {
        assert Init(ForKey(early, k) + [r]) == ForKey(early, k);
        assert Last(ForKey(early, k) + [r]) == r;
      }
    }
  }

  lemma VerdictReadsAggregates(es: seq<Record>, fs: seq<Record>, row: Option<Incident>, p: Params, k: Key)
    requires k == KeyOf(p.client, p.event)
    requires Latest(es, k) == Latest(fs, k)
    requires row.Some? ==> Loudest(es, k, row.value.firstFiredAt) == Loudest(fs, k, row.value.firstFiredAt)
    ensures Decide(es, row, p) == Decide(fs, row, p)
  {
    assert Stale(es, k, p.event.occurredAt) == Stale(fs, k, p.event.occurredAt);
    if row.Some? {
      assert Repeats(es, row.value, k, p) == Repeats(fs, row.value, k, p);
    }
    assert Classify(es, row, p) == Classify(fs, row, p);
  }

  lemma VerdictSeesOnlyTheView(b: Book, c: Book, p: Params)
    requires ViewOf(b, KeyOf(p.client, p.event)) == ViewOf(c, KeyOf(p.client, p.event))
    ensures VerdictFor(b, p) == VerdictFor(c, p)
  {
    var k := KeyOf(p.client, p.event);
    var row := Lookup(b.incidents, k);
    assert row == ViewOf(b, k).row == Lookup(c.incidents, k);
    assert ForKey(b.events, k) == ForKey(c.events, k);
    if row.Some? {
      AggregatesSeeOnlyTheKey(b.events, k, row.value.firstFiredAt);
      AggregatesSeeOnlyTheKey(c.events, k, row.value.firstFiredAt);
    } else {
      AggregatesSeeOnlyTheKey(b.events, k, 0);
      AggregatesSeeOnlyTheKey(c.events, k, 0);
    }
    VerdictReadsAggregates(b.events, c.events, row, p, k);
  }

  /** An offer changes the view of its own key only. */
  lemma OfferMovesOwnView(b: Book, p: Params, id: nat, k: Key)
    requires !Known(b.events, p.client, p.event.eventId)
    ensures KeyOf(p.client, p.event) != k ==> ViewOf(Accept(b, p, id), k) == ViewOf(b, k)
    ensures KeyOf(p.client, p.event) == k ==>
              ViewOf(Accept(b, p, id), k) ==
              var v := VerdictFor(b, p);
              View(ViewOf(b, k).records + [RecordOf(p, id, v)], if v.row.Some? then v.row else ViewOf(b, k).row)
  {
    ForKeyAppend(b.events, RecordOf(p, id, VerdictFor(b, p)), k);
  }

  /** A stored event of an id is on the key on which the id is offered. */
  lemma KnownOnItsKey(steps: seq<Step>, offers: seq<Step>, s: Step, r: Record)
    requires OneKeyPerId(steps) && s in steps && s.Offer?
    requires (forall o :: o in offers ==> o in steps) && r in Run(offers).events
    requires SameEvent(r, s.p.client, s.p.event.eventId)
    ensures OfKey(r, KeyOf(s.p.client, s.p.event))
  {
    Provenance(offers, r);
    var o :| o in offers && StoredFrom(r, o);
    assert SameIdentity(o.p, s.p);
  }

  /** Whether an event on the key is a duplicate can be seen in the key's own records. */
  lemma KnownInTheView(steps: seq<Step>, early: seq<Step>, own: seq<Step>, s: Step, k: Key)
    requires OneKeyPerId(steps) && s in steps && s.Offer? && KeyOf(s.p.client, s.p.event) == k
    requires forall o :: o in early || o in own ==> o in steps
    requires ViewOf(Run(early), k) == ViewOf(Run(own), k)
    ensures Known(Run(early).events, s.p.client, s.p.event.eventId) <==> Known(Run(own).events, s.p.client, s.p.event.eventId)
  {
    assert ForKey(Run(early).events, k) == ForKey(Run(own).events, k);
    if r :| r in Run(early).events && SameEvent(r, s.p.client, s.p.event.eventId) {
      KnownOnItsKey(steps, early, s, r);
      assert r in ForKey(Run(own).events, k);
    }
    if r :| r in Run(own).events && SameEvent(r, s.p.client, s.p.event.eventId) {
      KnownOnItsKey(steps, own, s, r);
      assert r in ForKey(Run(early).events, k);
    }
  }

  /** One more event keeps two books alike on a key, when they agree on whether it is a duplicate. */
  lemma OfferKeepsViews(b: Book, c: Book, p: Params, id: nat, k: Key)
    requires ViewOf(b, k) == ViewOf(c, k)
    requires KeyOf(p.client, p.event) == k
    requires Known(b.events, p.client, p.event.eventId) <==> Known(c.events, p.client, p.event.eventId)
    ensures ViewOf(Accept(b, p, id), k) == ViewOf(Accept(c, p, id), k)
  {
    if !Known(b.events, p.client, p.event.eventId) {
      OfferMovesOwnView(b, p, id, k);
      OfferMovesOwnView(c, p, id, k);
      VerdictSeesOnlyTheView(b, c, p);
    }
  }

  lemma ForeignOfferKeepsView(b: Book, p: Params, id: nat, k: Key)
    requires KeyOf(p.client, p.event) != k
    ensures ViewOf(Accept(b, p, id), k) == ViewOf(b, k)
  {
    if !Known(b.events, p.client, p.event.eventId) {
      OfferMovesOwnView(b, p, id, k);
    }
  }

  /** In any interleaving, with events offered repeatedly and history deleted, a key's outcomes and incident row are those of
      its own subsequence run alone. */
  lemma {:induction false} RunsProject(steps: seq<Step>, k: Key)
    requires OneKeyPerId(steps)
    ensures ViewOf(Run(steps), k) == ViewOf(Run(Subrun(steps, k)), k)
  {
    if steps != [] {
      var early, s := Init(steps), Last(steps);
      var own := Subrun(early, k);
      assert steps == early + [s];
      RunsProject(early, k);
      assert Init(own + [s]) == own && Last(own + [s]) == s;
      match s
      case Purge(gone) =>
        PurgeCommutes(Run(early).events, gone, k);
        PurgeCommutes(Run(own).events, gone, k);
      case Offer(p, id) =>
        if KeyOf(p.client, p.event) == k {
          KnownInTheView(steps, early, own, s, k);
          OfferKeepsViews(Run(early), Run(own), p, id, k);
        } else {
          ForeignOfferKeepsView(Run(early), p, id, k);
        }
    }
  }

  lemma {:induction false} SubrunAppend(steps: seq<Step>, s: Step, k: Key)
    ensures Subrun(steps + [s], k) == if Concerns(s, k) then Subrun(steps, k) + [s] else Subrun(steps, k)
  {
    assert Init(steps + [s]) == steps;
  }

  /** Consequently two neighbouring events on different keys can be swapped without any key noticing. */
  lemma {:induction false} DifferentKeysCommute(steps: seq<Step>, a: Step, b: Step, k: Key)
    requires a.Offer? && b.Offer? && KeyOf(a.p.client, a.p.event) != KeyOf(b.p.client, b.p.event)
    requires OneKeyPerId(steps + [a] + [b])
    ensures ViewOf(Run(steps + [a] + [b]), k) == ViewOf(Run(steps + [b] + [a]), k)
  {
    assert forall s :: s in steps + [b] + [a] ==> s in steps + [a] + [b];
    RunsProject(steps + [a] + [b], k);
    RunsProject(steps + [b] + [a], k);
    SubrunAppend(steps, a, k);
    SubrunAppend(steps, b, k);
    SubrunAppend(steps + [a], b, k);
    SubrunAppend(steps + [b], a, k);
  }
}
