/** No delivery is lost, invented or doubled, whatever intake, workers, the administrator and retention do. */
module Conservation {
  import opened Domain
  import opened Intake
  import opened Queue
  import opened Subscriptions
  import opened Database
  import OAuth

  datatype History = History(ops: seq<Op>, dbs: seq<Db>)

  predicate Follows(h: History, n: nat, lease: int)
    requires n < |h.ops| && |h.dbs| == |h.ops| + 1
  {
    && h.dbs[n + 1] == Perform(h.dbs[n], h.ops[n], lease)
    && (h.ops[n].Handle? ==> WorkerAct(h.ops[n].a) && Allowed(h.dbs[n].queue, h.ops[n].a))
  }

  predicate Legal(h: History, lease: int) {
    && |h.dbs| == |h.ops| + 1
    && h.dbs[0] == EmptyDb
    && forall n: nat :: n < |h.ops| ==> Follows(h, n, lease)
  }

  // ----- the constraints of the schema -----

  predicate IdFits(db: Db, id: DeliveryId)
    requires id in db.queue
  {
    match id
    case Random(n) => n < db.supply && db.queue[id].channel.Target?
    case ForSubscriber(record, s) => db.queue[id].record == record && db.queue[id].channel == Subscriber(s)
  }

  /** The foreign key of a delivery: a stored, queued event. */
  predicate HasEvent(db: Db, id: DeliveryId)
    requires id in db.queue
  {
    exists r :: r in db.book.events && r.id == db.queue[id].record && r.outcome.Queued?
  }

  /** UNIQUE(event_record_id, channel_id). */
  predicate SamePlace(q: Table, a: DeliveryId, b: DeliveryId)
    requires a in q && b in q
  {
    q[a].record == q[b].record && q[a].channel == q[b].channel
  }

  predicate RecordsFit(db: Db) {
    && (forall r :: r in db.book.events ==> r.id < db.supply)
    && DistinctRecords(db.book.events)
  }

  predicate QueueFits(db: Db) {
    && (forall id :: id in db.queue ==> IdFits(db, id) && HasEvent(db, id))
    && (forall a, b :: a in db.queue && b in db.queue && SamePlace(db.queue, a, b) ==> a == b)
    && (forall id :: id in db.generations ==> id in db.queue && id.ForSubscriber?)
  }

  predicate Fits(db: Db) {
    RecordsFit(db) && QueueFits(db)
  }

  // ----- what an accepted event is owed -----

  /** The distinct targets and the matched subscriptions with their generations, as they were at acceptance. */
  datatype Debt = Debt(targets: set<string>, subs: map<SubId, OAuth.Token>)

  function DebtOf(db: Db, p: Params): Debt {
    var matched := MatchedBy(db.rows, db.oauth.grants, p.event, p.now);
    Debt(set t | t in p.targets, map s | s in matched && s in db.rows :: db.rows[s].generation)
  }

  predicate Owns(q: Table, record: nat, id: DeliveryId) {
    id in q && q[id].record == record
  }

  predicate TargetServed(q: Table, record: nat, t: string) {
    exists id :: id in q && Owns(q, record, id) && q[id].channel == Target(t)
  }

  predicate SubscriberServed(db: Db, record: nat, s: SubId, generation: OAuth.Token) {
    var id := ForSubscriber(record, s);
    Owns(db.queue, record, id) && id in db.generations && db.generations[id] == generation
  }

  /** Exactly the owed deliveries are there; uniqueness is the schema's. */
  predicate Paid(db: Db, record: nat, debt: Debt) {
    && (forall t :: t in debt.targets ==> TargetServed(db.queue, record, t))
    && (forall s :: s in debt.subs ==> SubscriberServed(db, record, s, debt.subs[s]))
    && (forall id :: id in db.queue && Owns(db.queue, record, id) ==>
          match db.queue[id].channel
          case Target(t) => t in debt.targets
          case Subscriber(s) => s in debt.subs)
  }

  predicate OwedNothing(q: Table, record: nat) {
    forall id :: id in q ==> !Owns(q, record, id)
  }

  predicate Served(db: Db, r: Record, debt: Debt) {
    if r.outcome.Queued? then Paid(db, r.id, debt) else OwedNothing(db.queue, r.id)
  }

  /** Nothing about the deliveries of one event changed but their progress. */
  ghost predicate SameDeliveries(db: Db, db': Db, record: nat) {
    && (forall id :: Owns(db.queue, record, id) <==> Owns(db'.queue, record, id))
    && (forall id :: Owns(db.queue, record, id) && Owns(db'.queue, record, id) ==> db.queue[id].channel == db'.queue[id].channel)
    && (forall id :: Owns(db.queue, record, id) ==>
          (id in db.generations <==> id in db'.generations)
          && (id in db.generations && id in db'.generations ==> db.generations[id] == db'.generations[id]))
  }

  lemma ServedFrame(db: Db, db': Db, r: Record, debt: Debt)
    requires SameDeliveries(db, db', r.id) && Served(db, r, debt)
    ensures Served(db', r, debt)
  {
    if r.outcome.Queued? {
      forall t | t in debt.targets
        ensures TargetServed(db'.queue, r.id, t)
      {
        assert TargetServed(db.queue, r.id, t);
        var id :| id in db.queue && Owns(db.queue, r.id, id) && db.queue[id].channel == Target(t);
        assert Owns(db'.queue, r.id, id);
      }
      forall s | s in debt.subs
        ensures SubscriberServed(db', r.id, s, debt.subs[s])
      {
        assert SubscriberServed(db, r.id, s, debt.subs[s]);
      }
      forall id | id in db'.queue && Owns(db'.queue, r.id, id)
        ensures match db'.queue[id].channel
                case Target(t) => t in debt.targets
                case Subscriber(s) => s in debt.subs
      {
        assert Owns(db.queue, r.id, id);
      }
    } else {
      forall id | id in db'.queue
        ensures !Owns(db'.queue, r.id, id)
      {
        assert !Owns(db.queue, r.id, id);
      }
    }
  }

  // ----- a worker or administrator step -----

  lemma ActKeepsPlaces(q: Table, a: Act, lease: int)
    requires WorkerAct(a)
    ensures var q' := Queue.Apply(q, a, lease);
            q'.Keys == q.Keys && forall id :: id in q ==> q'[id].record == q[id].record && q'[id].channel == q[id].channel
  {
  }

  lemma HandleKeeps(db: Db, a: Act, lease: int)
    requires Fits(db) && WorkerAct(a)
    ensures Fits(Perform(db, Handle(a), lease))
    ensures forall record :: SameDeliveries(db, Perform(db, Handle(a), lease), record)
  {
    ActKeepsPlaces(db.queue, a, lease);
    ProgressKeeps(db, Perform(db, Handle(a), lease));
  }

  lemma ProgressKeeps(db: Db, db': Db)
    requires Fits(db) && db' == db.(queue := db'.queue) && db'.queue.Keys == db.queue.Keys
    requires forall id :: id in db.queue ==>
               db'.queue[id].record == db.queue[id].record && db'.queue[id].channel == db.queue[id].channel
    ensures Fits(db') && forall record :: SameDeliveries(db, db', record)
  {
    assert forall id :: id in db.queue <==> id in db'.queue;
    forall id | id in db'.queue
      ensures IdFits(db', id) && HasEvent(db', id)
    {
      assert IdFits(db, id) && HasEvent(db, id);
    }
    forall x, y | x in db'.queue && y in db'.queue && SamePlace(db'.queue, x, y)
      ensures x == y
    {
      assert SamePlace(db.queue, x, y);
    }
  }

  // ----- retention -----

  lemma DistinctAppend(es: seq<Record>, r: Record)
    requires DistinctRecords(es) && forall e :: e in es ==> e.id != r.id
    ensures DistinctRecords(es + [r])
  {
    var all := es + [r];
    forall i, j | 0 <= i < j < |all|
      ensures all[i].id != all[j].id
    {
      assert all[i] in es;
    }
  }

  lemma {:induction false} WithoutKeepsDistinct(es: seq<Record>, gone: set<nat>)
    requires DistinctRecords(es)
    ensures DistinctRecords(Without(es, gone))
  {
    if es != [] {
      var early, r := Init(es), Last(es);
      WithoutKeepsDistinct(early, gone);
      forall e | e in Without(early, gone)
        ensures e.id != r.id
      {
        var j :| 0 <= j < |early| && early[j] == e;
        assert es[j].id != es[|es| - 1].id;
      }
      DistinctAppend(Without(early, gone), r);
    }
  }

  lemma PruneKeepsId(db: Db, before: int, id: DeliveryId)
    requires id in db.queue && IdFits(db, id) && HasEvent(db, id) && id in PruneEvents(db, before).queue
    ensures IdFits(PruneEvents(db, before), id) && HasEvent(PruneEvents(db, before), id)
  {
    var r :| r in db.book.events && r.id == db.queue[id].record && r.outcome.Queued?;
    assert r in PruneEvents(db, before).book.events;
  }

  lemma PruneKeepsDeliveries(db: Db, before: int, record: nat)
    requires QueueFits(db) && record !in Prunable(db, before)
    ensures SameDeliveries(db, PruneEvents(db, before), record)
  {
  }

  lemma PruneKeeps(db: Db, before: int)
    requires Fits(db)
    ensures Fits(PruneEvents(db, before))
  {
    var db' := PruneEvents(db, before);
    WithoutKeepsDistinct(db.book.events, Prunable(db, before));
    assert RecordsFit(db');
    forall id | id in db'.queue
      ensures IdFits(db', id) && HasEvent(db', id)
    {
      PruneKeepsId(db, before, id);
    }
    forall x, y | x in db'.queue && y in db'.queue && SamePlace(db'.queue, x, y)
      ensures x == y
    {
      assert SamePlace(db.queue, x, y);
    }
  }

  /** An event is pruned only when all its deliveries are finished, so no unfinished delivery is ever removed. */
  lemma PruneSparesUnfinished(db: Db, before: int, id: DeliveryId)
    requires RecordsFit(db) && id in db.queue && Unfinished(db.queue[id])
    ensures id in PruneEvents(db, before).queue && PruneEvents(db, before).queue[id] == db.queue[id]
  {
    assert HasUnfinished(db.queue, db.queue[id].record);
  }

  // ----- intake -----

  /** Ids and records of a fitting table come from the supply so far. */
  predicate FromSupply(q: Table, supply: nat) {
    forall id :: id in q ==>
      && q[id].record < supply
      && (id.Random? ==> id.n < supply)
      && (id.ForSubscriber? ==> id.record < supply)
  }

  lemma FittingIsFromSupply(db: Db)
    requires Fits(db)
    ensures FromSupply(db.queue, db.supply)
  {
    forall id | id in db.queue
      ensures db.queue[id].record < db.supply && (id.Random? ==> id.n < db.supply)
              && (id.ForSubscriber? ==> id.record < db.supply)
    {
      assert IdFits(db, id) && HasEvent(db, id);
    }
  }

  /** A delivery that the fan-out of `record` adds. */
  predicate NewRow(id: DeliveryId, d: Delivery, record: nat, targets: seq<string>, matched: set<SubId>, now: int) {
    match id
    case Random(n) => record < n <= record + |targets| && d == NewDelivery(record, Target(targets[n - record - 1]), now)
    case ForSubscriber(k, s) => k == record && s in matched && d == NewDelivery(record, Subscriber(s), now)
  }

  /** The fan-out keeps the old rows and adds exactly the owed ones. */
  predicate Fans(q: Table, q': Table, record: nat, targets: seq<string>, matched: set<SubId>, now: int) {
    && (forall id :: id in q ==> id in q' && q'[id] == q[id])
    && (forall id :: id in q' && id !in q ==> NewRow(id, q'[id], record, targets, matched, now))
    && (forall n: nat :: record < n <= record + |targets| ==> Random(n) in q' && Random(n) !in q)
    && (forall s :: s in matched ==> ForSubscriber(record, s) in q' && ForSubscriber(record, s) !in q)
  }

  lemma TargetRowsFan(q: Table, record: nat, targets: seq<string>, now: int)
    requires FromSupply(q, record)
    ensures Fans(q, q + TargetRows(record, targets, record + 1, now), record, targets, {}, now)
  {
    var rows := TargetRows(record, targets, record + 1, now);
    forall id | id in rows
      ensures NewRow(id, rows[id], record, targets, {}, now)
    {
    }
  }

  lemma SubscriberRowsFan(q: Table, q1: Table, record: nat, targets: seq<string>, matched: set<SubId>, now: int)
    requires FromSupply(q, record) && Fans(q, q1, record, targets, {}, now)
    ensures Fans(q, q1 + SubscriberRows(record, matched, now), record, targets, matched, now)
  {
    var rows := SubscriberRows(record, matched, now);
    var q' := q1 + rows;
    forall id | id in q' && id !in q
      ensures NewRow(id, q'[id], record, targets, matched, now)
    {
      if id !in rows {
        assert NewRow(id, q1[id], record, targets, {}, now);
      }
    }
  }

  function MatchedFor(db: Db, p: Params): set<SubId> {
    MatchedBy(db.rows, db.oauth.grants, p.event, p.now)
  }

  predicate FansOut(db: Db, db': Db, p: Params) {
    Fans(db.queue, db'.queue, db.supply, Distinct(p.targets), MatchedFor(db, p), p.now)
  }

  lemma FannedQueueFans(q: Table, record: nat, targets: seq<string>, matched: set<SubId>, now: int)
    requires FromSupply(q, record)
    ensures Fans(q, FannedQueue(q, record, targets, matched, now), record, targets, matched, now)
  {
    TargetRowsFan(q, record, targets, now);
    SubscriberRowsFan(q, q + TargetRows(record, targets, record + 1, now), record, targets, matched, now);
  }

  lemma FanOutFans(db: Db, p: Params)
    requires FromSupply(db.queue, db.supply)
    ensures FansOut(db, FanOut(db, p), p)
  {
    FannedQueueFans(db.queue, db.supply, Distinct(p.targets), MatchedFor(db, p), p.now);
  }

  /** The join adds one generation row per new subscriber delivery. */
  predicate Generates(db: Db, db': Db, p: Params) {
    && (forall id :: id in db.generations ==> id in db'.generations && db'.generations[id] == db.generations[id])
    && (forall s :: s in MatchedFor(db, p) ==>
          && s in db.rows && ForSubscriber(db.supply, s) in db'.generations
          && db'.generations[ForSubscriber(db.supply, s)] == db.rows[s].generation)
    && (forall id :: id in db'.generations && id !in db.generations ==>
          id.ForSubscriber? && id.record == db.supply && id in db'.queue)
  }

  lemma JoinGenerates(db: Db, q': Table, p: Params)
    requires Fits(db) && FromSupply(db.queue, db.supply)
    requires Fans(db.queue, q', db.supply, Distinct(p.targets), MatchedFor(db, p), p.now)
    ensures Generates(db, db.(queue := q', generations := db.generations + GenerationRows(q', db.rows, db.supply)), p)
  {
    var join := GenerationRows(q', db.rows, db.supply);
    forall id | id in join
      ensures id !in db.queue && id.ForSubscriber? && id.record == db.supply && id !in db.generations
      ensures join[id] == db.rows[id.sub].generation
    {
      assert id !in db.queue;
      assert NewRow(id, q'[id], db.supply, Distinct(p.targets), MatchedFor(db, p), p.now);
    }
    forall s | s in MatchedFor(db, p)
      ensures ForSubscriber(db.supply, s) in join
    {
      assert NewRow(ForSubscriber(db.supply, s), q'[ForSubscriber(db.supply, s)], db.supply, Distinct(p.targets),
                    MatchedFor(db, p), p.now);
    }
  }

  lemma FanOutGenerates(db: Db, p: Params)
    requires Fits(db)
    ensures FromSupply(db.queue, db.supply) && FansOut(db, FanOut(db, p), p) && Generates(db, FanOut(db, p), p)
  {
    FittingIsFromSupply(db);
    FanOutFans(db, p);
    JoinGenerates(db, FanOut(db, p).queue, p);
  }

  /** The new rows are one delivery per distinct target and one per matched subscription. */
  lemma FanOutPays(db: Db, db': Db, p: Params)
    requires FromSupply(db.queue, db.supply) && FansOut(db, db', p) && Generates(db, db', p)
    ensures Paid(db', db.supply, DebtOf(db, p))
  {
    var record, targets, debt := db.supply, Distinct(p.targets), DebtOf(db, p);
    forall t | t in debt.targets
      ensures TargetServed(db'.queue, record, t)
    {
      var i :| 0 <= i < |targets| && targets[i] == t;
      var id := Random(record + 1 + i);
      assert NewRow(id, db'.queue[id], record, targets, MatchedFor(db, p), p.now);
      assert Owns(db'.queue, record, id);
    }
    forall s | s in debt.subs
      ensures SubscriberServed(db', record, s, debt.subs[s])
    {
      var id := ForSubscriber(record, s);
      assert NewRow(id, db'.queue[id], record, targets, MatchedFor(db, p), p.now);
    }
    forall id | id in db'.queue && Owns(db'.queue, record, id)
      ensures match db'.queue[id].channel
              case Target(t) => t in debt.targets
              case Subscriber(s) => s in debt.subs
    {
      assert id !in db.queue;
      assert NewRow(id, db'.queue[id], record, targets, MatchedFor(db, p), p.now);
    }
  }

  lemma NewIdFits(db: Db, db': Db, p: Params, id: DeliveryId)
    requires FansOut(db, db', p) && db'.supply == db.supply + 1 + |Distinct(p.targets)|
    requires exists r :: r in db'.book.events && r.id == db.supply && r.outcome.Queued?
    requires id in db'.queue && id !in db.queue
    ensures IdFits(db', id) && HasEvent(db', id)
  {
    assert NewRow(id, db'.queue[id], db.supply, Distinct(p.targets), MatchedFor(db, p), p.now);
  }

  lemma OldIdFits(db: Db, db': Db, id: DeliveryId)
    requires id in db.queue && id in db'.queue && db'.queue[id] == db.queue[id] && db.supply <= db'.supply
    requires forall r :: r in db.book.events ==> r in db'.book.events
    requires IdFits(db, id) && HasEvent(db, id)
    ensures IdFits(db', id) && HasEvent(db', id)
  {
  }

  lemma PlacesStayDistinct(db: Db, db': Db, p: Params, x: DeliveryId, y: DeliveryId)
    requires QueueFits(db) && FromSupply(db.queue, db.supply) && FansOut(db, db', p)
    requires x in db'.queue && y in db'.queue && SamePlace(db'.queue, x, y)
    ensures x == y
  {
    var targets := Distinct(p.targets);
    assert x !in db.queue ==> NewRow(x, db'.queue[x], db.supply, targets, MatchedFor(db, p), p.now);
    assert y !in db.queue ==> NewRow(y, db'.queue[y], db.supply, targets, MatchedFor(db, p), p.now);
    assert x in db.queue <==> y in db.queue;
    if x in db.queue {
      assert SamePlace(db.queue, x, y);
    }
  }

  lemma FanOutQueueFits(db: Db, db': Db, p: Params)
    requires Fits(db) && FromSupply(db.queue, db.supply) && FansOut(db, db', p) && Generates(db, db', p)
    requires db'.supply == db.supply + 1 + |Distinct(p.targets)|
    requires exists r :: r in db'.book.events && r.id == db.supply && r.outcome.Queued?
    requires forall r :: r in db.book.events ==> r in db'.book.events
    ensures QueueFits(db')
  {
    forall id | id in db'.queue
      ensures IdFits(db', id) && HasEvent(db', id)
    {
      if id in db.queue {
        OldIdFits(db, db', id);
      } else {
        NewIdFits(db, db', p, id);
      }
    }
    forall x, y | x in db'.queue && y in db'.queue && SamePlace(db'.queue, x, y)
      ensures x == y
    {
      PlacesStayDistinct(db, db', p, x, y);
    }
  }

  lemma OlderRecordsAreLeftAlone(db: Db, db': Db, p: Params, record: nat)
    requires QueueFits(db) && FromSupply(db.queue, db.supply) && record < db.supply
    requires FansOut(db, db', p) && Generates(db, db', p)
    ensures SameDeliveries(db, db', record)
  {
    forall id
      ensures Owns(db.queue, record, id) <==> Owns(db'.queue, record, id)
    {
      if id in db'.queue && id !in db.queue {
        assert NewRow(id, db'.queue[id], db.supply, Distinct(p.targets), MatchedFor(db, p), p.now);
      }
    }
  }

  lemma AppendKeepsRecords(db: Db, db': Db, r: Record)
    requires RecordsFit(db) && r.id == db.supply < db'.supply && db'.book.events == db.book.events + [r]
    ensures RecordsFit(db')
  {
    DistinctAppend(db.book.events, r);
  }

  /** A newly accepted event is served; older ones keep their deliveries. */
  lemma OfferKeeps(db: Db, p: Params)
    requires Fits(db) && !Known(db.book.events, p.client, p.event.eventId)
    ensures var db', r := AcceptEvent(db, p).0, RecordOf(p, db.supply, VerdictFor(db.book, p));
            && Fits(db')
            && db'.book.events == db.book.events + [r]
            && Served(db', r, DebtOf(db, p))
    ensures forall record: nat :: record < db.supply ==> SameDeliveries(db, AcceptEvent(db, p).0, record)
  {
    var db', r := AcceptEvent(db, p).0, RecordOf(p, db.supply, VerdictFor(db.book, p));
    assert db'.book.events == db.book.events + [r];
    AppendKeepsRecords(db, db', r);
    if r.outcome.Queued? {
      QueuedOfferKeeps(db, p, db', r);
    } else {
      SuppressedOfferKeeps(db, p, db', r);
    }
  }

  lemma QueuedOfferKeeps(db: Db, p: Params, db': Db, r: Record)
    requires Fits(db) && r.id == db.supply && r.outcome.Queued?
    requires db' == FanOut(db, p).(book := db'.book) && db'.book.events == db.book.events + [r]
    ensures QueueFits(db') && Served(db', r, DebtOf(db, p))
    ensures forall record: nat :: record < db.supply ==> SameDeliveries(db, db', record)
  {
    FanOutGenerates(db, p);
    assert r in db'.book.events;
    FanOutQueueFits(db, db', p);
    FanOutPays(db, db', p);
    forall record: nat | record < db.supply
      ensures SameDeliveries(db, db', record)
    {
      OlderRecordsAreLeftAlone(db, db', p, record);
    }
  }

  lemma SuppressedOfferKeeps(db: Db, p: Params, db': Db, r: Record)
    requires Fits(db) && r.id == db.supply && r.outcome.Suppressed?
    requires db'.queue == db.queue && db'.generations == db.generations && db'.supply == db.supply + 1
    requires db'.book.events == db.book.events + [r]
    ensures QueueFits(db') && Served(db', r, DebtOf(db, p))
    ensures forall record :: SameDeliveries(db, db', record)
  {
    forall id | id in db'.queue
      ensures IdFits(db', id) && HasEvent(db', id) && db'.queue[id].record < db.supply
    {
      assert IdFits(db, id) && HasEvent(db, id);
      var e :| e in db.book.events && e.id == db.queue[id].record && e.outcome.Queued?;
      assert e in db'.book.events;
    }
    forall x, y | x in db'.queue && y in db'.queue && SamePlace(db'.queue, x, y)
      ensures x == y
    {
      assert SamePlace(db.queue, x, y);
    }
  }

  // ----- whole runs -----

  /** Step `m` stored the record. */
  predicate AcceptedAt(h: History, m: nat, r: Record)
    requires m < |h.ops| < |h.dbs|
  {
    var db, op := h.dbs[m], h.ops[m];
    && op.Offer? && !Known(db.book.events, op.p.client, op.p.event.eventId)
    && r == RecordOf(op.p, db.supply, VerdictFor(db.book, op.p))
  }

  predicate ServedSince(h: History, n: nat, m: nat, r: Record)
    requires m < n <= |h.ops| < |h.dbs|
  {
    AcceptedAt(h, m, r) && Served(h.dbs[n], r, DebtOf(h.dbs[m], h.ops[m].p))
  }

  predicate EveryRecordServed(h: History, n: nat)
    requires n <= |h.ops| < |h.dbs|
  {
    forall r :: r in h.dbs[n].book.events ==> exists m: nat :: m < n && ServedSince(h, n, m, r)
  }

  lemma StepKeepsFits(h: History, n: nat, lease: int)
    requires Legal(h, lease) && n < |h.ops| && Fits(h.dbs[n])
    ensures Fits(h.dbs[n + 1])
  {
    var db := h.dbs[n];
    assert Follows(h, n, lease);
    match h.ops[n]
    case Offer(p) =>
      if !Known(db.book.events, p.client, p.event.eventId) {
        OfferKeeps(db, p);
      }
    case Handle(a) => HandleKeeps(db, a, lease);
    case Retain(before) => PruneKeeps(db, before);
    case Subscribe(rows) => SidestepKeeps(db, db.(rows := rows));
    case Authorize(oauth) => SidestepKeeps(db, db.(oauth := oauth));
  }

  lemma SidestepKeeps(db: Db, db': Db)
    requires Fits(db) && db'.book == db.book && db'.queue == db.queue && db'.generations == db.generations
    requires db'.supply == db.supply
    ensures Fits(db') && forall record :: SameDeliveries(db, db', record)
  {
    forall id | id in db'.queue
      ensures IdFits(db', id) && HasEvent(db', id)
    {
      assert IdFits(db, id) && HasEvent(db, id);
    }
  }

  /** A retained older record keeps its deliveries through any step. */
  lemma StepKeepsDeliveries(h: History, n: nat, lease: int, r: Record)
    requires Legal(h, lease) && n < |h.ops| && Fits(h.dbs[n])
    requires r in h.dbs[n].book.events && r in h.dbs[n + 1].book.events
    ensures SameDeliveries(h.dbs[n], h.dbs[n + 1], r.id)
  {
    var db := h.dbs[n];
    assert Follows(h, n, lease);
    match h.ops[n]
    case Offer(p) =>
      if !Known(db.book.events, p.client, p.event.eventId) {
        OfferKeeps(db, p);
      }
    case Handle(a) => HandleKeeps(db, a, lease);
    case Retain(before) => PruneKeepsDeliveries(db, before, r.id);
    case Subscribe(rows) => SidestepKeeps(db, db.(rows := rows));
    case Authorize(oauth) => SidestepKeeps(db, db.(oauth := oauth));
  }

  lemma StepAddsOnlyTheOffer(h: History, n: nat, lease: int, r: Record)
    requires Legal(h, lease) && n < |h.ops| && Fits(h.dbs[n])
    requires r in h.dbs[n + 1].book.events && r !in h.dbs[n].book.events
    ensures AcceptedAt(h, n, r) && Served(h.dbs[n + 1], r, DebtOf(h.dbs[n], h.ops[n].p))
  {
    var db, op := h.dbs[n], h.ops[n];
    assert Follows(h, n, lease);
    if op.Offer? && !Known(db.book.events, op.p.client, op.p.event.eventId) {
      OfferKeeps(db, op.p);
    }
  }

  lemma {:induction false} RunConserves(h: History, n: nat, lease: int)
    requires Legal(h, lease) && n <= |h.ops|
    ensures Fits(h.dbs[n]) && EveryRecordServed(h, n)
  {
    if n > 0 {
      RunConserves(h, n - 1, lease);
      StepKeepsFits(h, n - 1, lease);
      forall r | r in h.dbs[n].book.events
        ensures exists m: nat :: m < n && ServedSince(h, n, m, r)
      {
        RecordStaysServed(h, n - 1, n, lease, r);
      }
    }
  }

  lemma RunFits(h: History, n: nat, lease: int)
    requires Legal(h, lease) && n <= |h.ops|
    ensures Fits(h.dbs[n])
  {
    RunConserves(h, n, lease);
  }

  lemma RecordStaysServed(h: History, k: nat, n: nat, lease: int, r: Record)
    requires Legal(h, lease) && n == k + 1 <= |h.ops| && Fits(h.dbs[k]) && EveryRecordServed(h, k)
    requires r in h.dbs[n].book.events
    ensures exists m: nat :: m < n && ServedSince(h, n, m, r)
  {
    if r in h.dbs[k].book.events {
      var m: nat :| m < k && ServedSince(h, k, m, r);
      StepKeepsDeliveries(h, k, lease, r);
      ServedFrame(h.dbs[k], h.dbs[n], r, DebtOf(h.dbs[m], h.ops[m].p));
      assert ServedSince(h, n, m, r);
    } else {
      StepAddsOnlyTheOffer(h, k, lease, r);
      assert ServedSince(h, n, k, r);
    }
  }

  /** Every retained event has exactly one delivery per distinct target and one, with its generation row, per subscription
      matched when it was accepted; events that were not queued have none. */
  lemma DeliveriesAreConserved(h: History, n: nat, lease: int, r: Record)
    requires Legal(h, lease) && n <= |h.ops| && r in h.dbs[n].book.events
    ensures exists m: nat :: m < n && AcceptedAt(h, m, r) && Served(h.dbs[n], r, DebtOf(h.dbs[m], h.ops[m].p))
  {
    RunConserves(h, n, lease);
    var m: nat :| m < n && ServedSince(h, n, m, r);
    assert AcceptedAt(h, m, r);
  }

  /** In every state a delivery belongs to a retained, queued event, and no two are for one event and channel. */
  lemma NoStrayDeliveries(h: History, n: nat, lease: int)
    requires Legal(h, lease) && n <= |h.ops|
    ensures forall id :: id in h.dbs[n].queue ==> HasEvent(h.dbs[n], id)
    ensures forall a, b :: a in h.dbs[n].queue && b in h.dbs[n].queue && SamePlace(h.dbs[n].queue, a, b) ==> a == b
  {
    RunConserves(h, n, lease);
  }

  /** No unfinished delivery is ever removed. */
  lemma UnfinishedIsNeverRemoved(h: History, n: nat, lease: int, id: DeliveryId)
    requires Legal(h, lease) && n < |h.ops|
    requires id in h.dbs[n].queue && Unfinished(h.dbs[n].queue[id])
    ensures id in h.dbs[n + 1].queue
  {
    var db := h.dbs[n];
    RunFits(h, n, lease);
    assert Follows(h, n, lease);
    match h.ops[n]
    case Offer(p) => OfferKeepsRows(db, p, h.dbs[n + 1]);
    case Handle(a) => ActKeepsPlaces(db.queue, a, lease);
    case Retain(before) => PruneSparesUnfinished(db, before, id);
    case _ =>
  }

  lemma OfferMovesQueue(db: Db, p: Params)
    ensures AcceptEvent(db, p).0.queue == db.queue || AcceptEvent(db, p).0.queue == FanOut(db, p).queue
  {
    var fanned, book := FanOut(db, p), Accept(db.book, p, db.supply);
    if !Known(db.book.events, p.client, p.event.eventId) && VerdictFor(db.book, p).outcome.Queued? {
      assert AcceptEvent(db, p).0 == fanned.(book := book);
    }
  }

  lemma OfferKeepsRows(db: Db, p: Params, db': Db)
    requires Fits(db) && db' == AcceptEvent(db, p).0
    ensures forall id :: id in db.queue ==> id in db'.queue
  {
    FittingIsFromSupply(db);
    FanOutFans(db, p);
    OfferMovesQueue(db, p);
  }

  /** A sent delivery stays as it is; it leaves only together with its event, and never returns. */
  lemma {:induction false} SentIsFinal(h: History, m: nat, n: nat, lease: int, id: DeliveryId)
    requires Legal(h, lease) && m <= n <= |h.ops|
    requires id in h.dbs[m].queue && h.dbs[m].queue[id].phase.Sent?
    ensures SentOrGone(h.dbs[n], id, h.dbs[m].queue[id])
  {
    RunFits(h, m, lease);
    FittingIsFromSupply(h.dbs[m]);
    assert IdFits(h.dbs[m], id);
    if m < n {
      SentIsFinal(h, m, n - 1, lease, id);
      RunFits(h, n - 1, lease);
      SentStep(h, n - 1, n, lease, id, h.dbs[m].queue[id]);
    }
  }

  /** The row is untouched while it is there, and once gone it stays gone with its event. */
  predicate SentOrGone(db: Db, id: DeliveryId, d: Delivery) {
    && (id in db.queue ==> db.queue[id] == d)
    && (id !in db.queue ==> forall r :: r in db.book.events ==> r.id != d.record)
    && d.record < db.supply
    && (id.Random? ==> id.n < db.supply)
  }

  lemma SentStep(h: History, k: nat, n: nat, lease: int, id: DeliveryId, d: Delivery)
    requires Legal(h, lease) && n == k + 1 <= |h.ops| && Fits(h.dbs[k])
    requires d.phase.Sent? && SentOrGone(h.dbs[k], id, d)
    requires id.ForSubscriber? ==> id.record == d.record
    ensures SentOrGone(h.dbs[n], id, d)
  {
    var db, db' := h.dbs[k], h.dbs[n];
    assert Follows(h, k, lease);
    match h.ops[k]
    case Offer(p) =>
      if !Known(db.book.events, p.client, p.event.eventId) {
        SentSurvivesOffer(db, p, id, d);
      }
    case Handle(a) => SentSurvivesWork(db.queue, a, lease, id);
    case Retain(before) => SentSurvivesPrune(db, before, id, d);
    case _ =>
  }

  lemma SentSurvivesWork(q: Table, a: Act, lease: int, id: DeliveryId)
    requires WorkerAct(a) && Allowed(q, a)
    ensures id in q <==> id in Queue.Apply(q, a, lease)
    ensures id in q && q[id].phase.Sent? ==> Queue.Apply(q, a, lease)[id] == q[id]
  {
  }

  lemma SentSurvivesFanOut(db: Db, db': Db, p: Params, r: Record, id: DeliveryId, d: Delivery)
    requires SentOrGone(db, id, d) && (id.ForSubscriber? ==> id.record == d.record)
    requires r.id == db.supply < db'.supply && db'.book.events == db.book.events + [r]
    requires db'.queue == db.queue || FansOut(db, db', p)
    ensures SentOrGone(db', id, d)
  {
    assert id in db'.queue <==> id in db.queue;
  }

  lemma OfferAppends(db: Db, p: Params)
    requires !Known(db.book.events, p.client, p.event.eventId)
    ensures AcceptEvent(db, p).0.book.events == db.book.events + [RecordOf(p, db.supply, VerdictFor(db.book, p))]
    ensures db.supply < AcceptEvent(db, p).0.supply
  {
  }

  lemma SentSurvivesOffer(db: Db, p: Params, id: DeliveryId, d: Delivery)
    requires Fits(db) && !Known(db.book.events, p.client, p.event.eventId)
    requires SentOrGone(db, id, d) && (id.ForSubscriber? ==> id.record == d.record)
    ensures SentOrGone(AcceptEvent(db, p).0, id, d)
  {
    var db', r := AcceptEvent(db, p).0, RecordOf(p, db.supply, VerdictFor(db.book, p));
    FittingIsFromSupply(db);
    FanOutFans(db, p);
    OfferMovesQueue(db, p);
    OfferAppends(db, p);
    SentSurvivesFanOut(db, db', p, r, id, d);
  }

  lemma SentSurvivesPrune(db: Db, before: int, id: DeliveryId, d: Delivery)
    requires SentOrGone(db, id, d)
    ensures SentOrGone(PruneEvents(db, before), id, d)
  {
  }

  // ----- accepting the same event again -----

  lemma {:induction false} KnownIdIsTheRecord(es: seq<Record>, client: string, eventId: string, r: Record)
    requires r in es && SameEvent(r, client, eventId)
    requires forall x :: x in es && SameEvent(x, client, eventId) ==> x == r
    ensures Known(es, client, eventId) && IdOfKnown(es, client, eventId) == r.id
  {
    assert es == Init(es) + [Last(es)];
    if !SameEvent(Last(es), client, eventId) {
      KnownIdIsTheRecord(Init(es), client, eventId, r);
    }
  }

  predicate EventsAreUnique(es: seq<Record>) {
    forall x, y :: x in es && y in es && SameEvent(x, y.client, y.event.eventId) ==> x == y
  }

  lemma {:induction false} EventsStayUnique(h: History, n: nat, lease: int)
    requires Legal(h, lease) && n <= |h.ops|
    ensures EventsAreUnique(h.dbs[n].book.events)
  {
    if n > 0 {
      EventsStayUnique(h, n - 1, lease);
      assert Follows(h, n - 1, lease);
    }
  }

  /** The target deliveries of a paid event are as many as its distinct targets. */
  lemma {:induction false} ChannelCount(q: Table, ids: set<DeliveryId>, targets: seq<string>)
    requires forall id :: id in ids ==> id in q && q[id].channel.Target? && q[id].channel.name in targets
    requires forall a, b :: a in ids && b in ids && q[a].channel == q[b].channel ==> a == b
    requires forall t :: t in targets ==> exists id :: id in ids && q[id].channel == Target(t)
    requires forall i, j :: 0 <= i < j < |targets| ==> targets[i] != targets[j]
    ensures |ids| == |targets|
  {
    if targets == [] {
      assert forall id :: id !in ids;
      assert ids == {};
    } else {
      var t, rest := Last(targets), Init(targets);
      assert targets == rest + [t];
      assert t in targets;
      var id :| id in ids && q[id].channel == Target(t);
      forall u | u in rest
        ensures exists o :: o in ids - {id} && q[o].channel == Target(u)
      {
        var i :| 0 <= i < |rest| && rest[i] == u;
        assert targets[i] != targets[|targets| - 1];
        assert u in targets;
        var o :| o in ids && q[o].channel == Target(u);
        assert o in ids - {id};
      }
      ChannelCount(q, ids - {id}, rest);
    }
  }

  lemma PaidCount(db: Db, p: Params, db0: Db, record: nat)
    requires QueueFits(db) && Paid(db, record, DebtOf(db0, p))
    ensures |TargetDeliveries(db.queue, record)| == |Distinct(p.targets)|
  {
    var q, ids, debt := db.queue, TargetDeliveries(db.queue, record), DebtOf(db0, p);
    forall t | t in Distinct(p.targets)
      ensures exists id :: id in ids && q[id].channel == Target(t)
    {
      assert t in debt.targets && TargetServed(q, record, t);
      var id :| id in q && Owns(q, record, id) && q[id].channel == Target(t);
      assert id in ids;
    }
    forall id | id in ids
      ensures q[id].channel.name in Distinct(p.targets)
    {
      assert Owns(q, record, id);
    }
    forall a, b | a in ids && b in ids && q[a].channel == q[b].channel
      ensures a == b
    {
      assert SamePlace(q, a, b);
    }
    ChannelCount(q, ids, Distinct(p.targets));
  }

  /** Accepting a retained event again changes nothing and reports the record and channel count of the first acceptance. */
  lemma ReacceptanceReportsTheOriginal(h: History, m: nat, n: nat, lease: int, p: Params, r: Record)
    requires Legal(h, lease) && m < n <= |h.ops|
    requires AcceptedAt(h, m, r) && r in h.dbs[n].book.events
    requires p.client == r.client && p.event.eventId == r.event.eventId
    ensures AcceptEvent(h.dbs[n], p).0 == h.dbs[n]
    ensures AcceptEvent(h.dbs[n], p).1.outcome.WasDuplicate?
    ensures AcceptEvent(h.dbs[n], p).1.record == AcceptEvent(h.dbs[m], h.ops[m].p).1.record == r.id
    ensures AcceptEvent(h.dbs[n], p).1.deliveries == AcceptEvent(h.dbs[m], h.ops[m].p).1.deliveries
  {
    var db := h.dbs[n];
    RunConserves(h, n, lease);
    EventsStayUnique(h, n, lease);
    KnownIdIsTheRecord(db.book.events, p.client, p.event.eventId, r);
    var k: nat :| k < n && ServedSince(h, n, k, r);
    AcceptedOnce(h, m, k, n, lease, r);
    if r.outcome.Queued? {
      PaidCount(db, h.ops[m].p, h.dbs[m], r.id);
    } else {
      NoTargetsOwed(db.queue, r.id);
    }
  }

  lemma {:induction false} SupplyGrows(h: History, m: nat, n: nat, lease: int)
    requires Legal(h, lease) && m <= n <= |h.ops|
    ensures h.dbs[m].supply <= h.dbs[n].supply
  {
    if m < n {
      SupplyGrows(h, m, n - 1, lease);
      assert Follows(h, n - 1, lease);
    }
  }

  /** A record is stored by one step only: its id was drawn from the supply there. */
  lemma AcceptedOnce(h: History, m: nat, k: nat, n: nat, lease: int, r: Record)
    requires Legal(h, lease) && m < n <= |h.ops| && k < n
    requires AcceptedAt(h, m, r) && AcceptedAt(h, k, r)
    ensures m == k
  {
    assert Follows(h, m, lease) && Follows(h, k, lease);
    if m < k {
      SupplyGrows(h, m + 1, k, lease);
    } else if k < m {
      SupplyGrows(h, k + 1, m, lease);
    }
  }

  // ----- the reply and the new deliveries -----

  /** An event is a duplicate exactly when its client has a retained event with this id; then nothing changes. */
  lemma DuplicateExactly(db: Db, p: Params)
    ensures AcceptEvent(db, p).1.outcome.WasDuplicate? <==>
              exists r :: r in db.book.events && r.client == p.client && r.event.eventId == p.event.eventId
    ensures AcceptEvent(db, p).1.outcome.WasDuplicate? ==> AcceptEvent(db, p).0 == db
  {
    if r :| r in db.book.events && r.client == p.client && r.event.eventId == p.event.eventId {
      assert SameEvent(r, p.client, p.event.eventId);
    }
  }

  /** The reply describes what was stored: the new record, its outcome, and how many channel deliveries it has. */
  lemma ReplyTellsTheState(db: Db, p: Params)
    requires Fits(db) && !Known(db.book.events, p.client, p.event.eventId)
    ensures var (db', reply) := AcceptEvent(db, p);
            && db'.book.events != [] && Init(db'.book.events) == db.book.events
            && var r := Last(db'.book.events);
            && r.client == p.client && r.event == p.event && r.createdAt == p.now
            && reply.record == r.id == db.supply && reply.startedAt == r.startedAt
            && !reply.outcome.WasDuplicate? && (reply.outcome.WasQueued? <==> r.outcome.Queued?)
            && (reply.outcome.WasQueued? <==> reply.reason.NoReason?)
            && reply.deliveries == |TargetDeliveries(db'.queue, r.id)|
  {
    var db', r := AcceptEvent(db, p).0, RecordOf(p, db.supply, VerdictFor(db.book, p));
    OfferKeeps(db, p);
    ReasonsExactly(db.book, p);
    assert Init(db'.book.events) == db.book.events;
    if r.outcome.Queued? {
      PaidCount(db', p, db, r.id);
    } else {
      NoTargetsOwed(db'.queue, r.id);
    }
  }

  lemma NoTargetsOwed(q: Table, record: nat)
    requires OwedNothing(q, record)
    ensures TargetDeliveries(q, record) == {}
  {
    forall id | id in q
      ensures q[id].record != record
    {
      assert !Owns(q, record, id);
    }
  }

  /** Every delivery an event adds waits for its first attempt, which is due at the receipt of the event and not before. */
  lemma NewDeliveriesAreDueAtOnce(db: Db, p: Params, q': Table, id: DeliveryId, now: int)
    requires Fits(db) && q' == AcceptEvent(db, p).0.queue && id in q' && id !in db.queue
    ensures var d := q'[id];
            && d.phase.Pending? && d.attempts == 0 && d.created == p.now && d.record == db.supply
            && (Due(d, now) <==> p.now <= now)
  {
    FittingIsFromSupply(db);
    OfferMovesQueue(db, p);
    AddedRow(db, p, q', id);
  }

  lemma AddedRow(db: Db, p: Params, q': Table, id: DeliveryId)
    requires FromSupply(db.queue, db.supply) && q' == FanOut(db, p).queue && id in q' && id !in db.queue
    ensures var d := q'[id];
            d.phase.Pending? && d.attempts == 0 && d.created == p.now && d.next == p.now && d.record == db.supply
  {
    FanOutFans(db, p);
    assert NewRow(id, q'[id], db.supply, Distinct(p.targets), MatchedFor(db, p), p.now);
  }

  /** Retention keeps exactly the events that are young or have an unfinished delivery, and exactly the deliveries of those. */
  lemma PruneKeepsExactly(db: Db, before: int)
    requires Fits(db)
    ensures var db' := PruneEvents(db, before);
            && (forall r :: r in db'.book.events <==>
                  r in db.book.events
                  && (before <= r.createdAt
                      || exists id :: id in db.queue && db.queue[id].record == r.id && Unfinished(db.queue[id])))
            && (forall id :: id in db'.queue <==>
                  id in db.queue && exists r :: r in db'.book.events && r.id == db.queue[id].record)
            && (forall id :: id in db'.queue ==> db'.queue[id] == db.queue[id])
            && (forall id :: id in db'.generations <==> id in db.generations && id in db'.queue)
            && (forall id :: id in db'.generations ==> db'.generations[id] == db.generations[id])
            && db'.book.incidents == db.book.incidents && db'.rows == db.rows && db'.oauth == db.oauth
  {
    var db' := PruneEvents(db, before);
    forall r | r in db.book.events
      ensures r.id in Prunable(db, before) <==> r.createdAt < before && !HasUnfinished(db.queue, r.id)
    {
      SameIdSameRecord(db, before, r);
    }
    forall id | id in db.queue
      ensures id in db'.queue <==> exists r :: r in db'.book.events && r.id == db.queue[id].record
    {
      assert HasEvent(db, id);
      var r :| r in db.book.events && r.id == db.queue[id].record && r.outcome.Queued?;
      assert id in db'.queue <==> r in db'.book.events;
    }
  }

  lemma SameIdSameRecord(db: Db, before: int, r: Record)
    requires RecordsFit(db) && r in db.book.events
    ensures r.id in Prunable(db, before) <==> r.createdAt < before && !HasUnfinished(db.queue, r.id)
  {
    if r.id in Prunable(db, before) {
      var x :| x in db.book.events && x.createdAt < before && !HasUnfinished(db.queue, x.id) && x.id == r.id;
      var i :| 0 <= i < |db.book.events| && db.book.events[i] == r;
      var j :| 0 <= j < |db.book.events| && db.book.events[j] == x;
      assert i == j;
    }
  }
}
