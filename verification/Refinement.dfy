/** Runs of the whole database are runs of the smaller machines, so what is proved of those holds of it. */
module Refinement {
  import opened Domain
  import opened Intake
  import opened Queue
  import opened Subscriptions
  import opened Database
  import opened Conservation
  import Leases
  import Noise
  import OAuth
  import Families
  import SubscriptionRuns

  // ----- the event and incident tables -----

  function BookStep(db: Db, op: Op): Step {
    match op
    case Offer(p) => Intake.Offer(p, db.supply)
    case Retain(before) => Purge(Prunable(db, before))
    case _ => Purge({})
  }

  function BookSteps(h: History, n: nat): seq<Step>
    requires n <= |h.ops| < |h.dbs|
  {
    if n == 0 then [] else BookSteps(h, n - 1) + [BookStep(h.dbs[n - 1], h.ops[n - 1])]
  }

  lemma BookMoves(db: Db, op: Op, lease: int)
    ensures Perform(db, op, lease).book == Intake.Apply(db.book, BookStep(db, op))
  {
    PurgingNothing(db.book.events);
    match op
    case Offer(p) => OfferBook(db, p);
    case _ =>
  }

  lemma OfferBook(db: Db, p: Params)
    ensures AcceptEvent(db, p).0.book == Accept(db.book, p, db.supply)
  {
  }

  /** The database's events and incidents are those of the incident machine on the same offers and retention passes. */
  lemma {:induction false} BookIsARun(h: History, n: nat, lease: int)
    requires Legal(h, lease) && n <= |h.ops|
    ensures h.dbs[n].book == Run(BookSteps(h, n))
  {
    if n > 0 {
      BookIsARun(h, n - 1, lease);
      assert Follows(h, n - 1, lease);
      BookMoves(h.dbs[n - 1], h.ops[n - 1], lease);
      RunAppend(BookSteps(h, n - 1), BookStep(h.dbs[n - 1], h.ops[n - 1]));
    }
  }

  lemma RunAppend(steps: seq<Step>, s: Step)
    ensures Run(steps + [s]) == Intake.Apply(Run(steps), s)
  {
    assert Init(steps + [s]) == steps && Last(steps + [s]) == s;
  }

  // ----- the delivery table -----

  function NewDeliveries(record: nat, targets: seq<string>, matched: set<SubId>, now: int): Table {
    TargetRows(record, targets, record + 1, now) + SubscriberRows(record, matched, now)
  }

  function Arrivals(db: Db, p: Params): Table {
    if Known(db.book.events, p.client, p.event.eventId) || VerdictFor(db.book, p).outcome.Suppressed? then map[]
    else NewDeliveries(db.supply, Distinct(p.targets), MatchedFor(db, p), p.now)
  }

  function Swept(db: Db, before: int): set<DeliveryId> {
    set id | id in db.queue && db.queue[id].record in Prunable(db, before)
  }

  function ActOf(db: Db, op: Op): Act {
    match op
    case Offer(p) => Enqueue(Arrivals(db, p))
    case Handle(a) => a
    case Retain(before) => Sweep(Swept(db, before))
    case _ => Sweep({})
  }

  function QueueHistory(h: History): Leases.History
    requires |h.dbs| == |h.ops| + 1
  {
    Leases.History(
      seq(|h.ops|, i requires 0 <= i < |h.ops| => ActOf(h.dbs[i], h.ops[i])),
      seq(|h.dbs|, i requires 0 <= i < |h.dbs| => h.dbs[i].queue))
  }

  lemma NewDeliveriesAreNew(record: nat, targets: seq<string>, matched: set<SubId>, now: int)
    ensures var rows := NewDeliveries(record, targets, matched, now);
            forall id :: id in rows ==>
              IsNew(rows[id]) && (id.Random? ==> record < id.n) && (id.ForSubscriber? ==> id.record == record)
  {
  }

  lemma ArrivalsAreNew(db: Db, p: Params)
    ensures var rows := Arrivals(db, p);
            forall id :: id in rows ==>
              && IsNew(rows[id])
              && (id.Random? ==> db.supply < id.n)
              && (id.ForSubscriber? ==> id.record == db.supply)
  {
    NewDeliveriesAreNew(db.supply, Distinct(p.targets), MatchedFor(db, p), p.now);
  }

  lemma OfferQueue(db: Db, p: Params)
    ensures AcceptEvent(db, p).0.queue ==
            if Known(db.book.events, p.client, p.event.eventId) || VerdictFor(db.book, p).outcome.Suppressed? then db.queue
            else FannedQueue(db.queue, db.supply, Distinct(p.targets), MatchedFor(db, p), p.now)
  {
  }

  lemma FannedQueueJoins(q: Table, record: nat, targets: seq<string>, matched: set<SubId>, now: int)
    ensures FannedQueue(q, record, targets, matched, now) == q + NewDeliveries(record, targets, matched, now)
  {
  }

  lemma OfferEnqueues(db: Db, p: Params)
    ensures AcceptEvent(db, p).0.queue == db.queue + Arrivals(db, p)
  {
    OfferQueue(db, p);
    if Known(db.book.events, p.client, p.event.eventId) || VerdictFor(db.book, p).outcome.Suppressed? {
      JoinNothing(db.queue);
      assert Arrivals(db, p) == map[];
    } else {
      FannedQueueJoins(db.queue, db.supply, Distinct(p.targets), MatchedFor(db, p), p.now);
      assert Arrivals(db, p) == NewDeliveries(db.supply, Distinct(p.targets), MatchedFor(db, p), p.now);
    }
  }

  lemma JoinNothing(q: Table)
    ensures q + map[] == q
  {
  }

  lemma RetainSweeps(db: Db, before: int, lease: int)
    ensures PruneEvents(db, before).queue == Queue.Apply(db.queue, Sweep(Swept(db, before)), lease)
    ensures Allowed(db.queue, Sweep(Swept(db, before)))
  {
    forall id | id in Swept(db, before)
      ensures !Unfinished(db.queue[id])
    {
      var r :| r in db.book.events && r.createdAt < before && !HasUnfinished(db.queue, r.id) && r.id == db.queue[id].record;
    }
  }

  /** Workers schedule a retry only below the attempt limit. */
  predicate WorkersObey(h: History, max: nat) {
    forall n :: 0 <= n < |h.ops| && h.ops[n].Handle? && h.ops[n].a.ReportFailure? && !h.ops[n].a.dead ==>
      h.ops[n].a.attempts < max
  }

  lemma ArrivalsWereNeverUsed(h: History, n: nat, lease: int, p: Params)
    requires Legal(h, lease) && n < |h.ops|
    ensures Leases.NeverUsed(QueueHistory(h).tables[..n + 1], Arrivals(h.dbs[n], p))
  {
    var rows := Arrivals(h.dbs[n], p);
    ArrivalsAreNew(h.dbs[n], p);
    forall m, id | 0 <= m <= n && id in rows
      ensures id !in h.dbs[m].queue
    {
      RunFits(h, m, lease);
      FittingIsFromSupply(h.dbs[m]);
      SupplyGrows(h, m, n, lease);
    }
  }

  /** Every database step moves the delivery table by one act. */
  lemma QueueMoves(db: Db, op: Op, lease: int)
    ensures Database.Perform(db, op, lease).queue == Queue.Apply(db.queue, ActOf(db, op), lease)
  {
    match op
    case Offer(p) => OfferEnqueues(db, p);
    case Handle(a) =>
    case Retain(before) => RetainSweeps(db, before, lease);
    case _ =>
      assert db.queue - {} == db.queue;
  }

  lemma OffersAreAllowed(h: History, n: nat, lease: int, p: Params)
    requires Legal(h, lease) && n < |h.ops|
    ensures Allowed(h.dbs[n].queue, Enqueue(Arrivals(h.dbs[n], p)))
  {
    ArrivalsAreNew(h.dbs[n], p);
    RunFits(h, n, lease);
    FittingIsFromSupply(h.dbs[n]);
  }

  lemma QueueStep(h: History, n: nat, l: Leases.Limits)
    requires Legal(h, l.lease) && n < |h.ops| && WorkersObey(h, l.maxAttempts)
    ensures Leases.Follows(QueueHistory(h), n, l)
  {
    var db, op := h.dbs[n], h.ops[n];
    assert Follows(h, n, l.lease);
    QueueMoves(db, op, l.lease);
    match op
    case Offer(p) =>
      ArrivalsWereNeverUsed(h, n, l.lease, p);
      OffersAreAllowed(h, n, l.lease, p);
    case Handle(a) =>
    case Retain(before) =>
      RetainSweeps(db, before, l.lease);
    case _ =>
  }

  /** The delivery table of a database run is a run of the lease machine, with its exclusion, fencing and attempt bound. */
  lemma QueueIsARun(h: History, l: Leases.Limits)
    requires Legal(h, l.lease) && WorkersObey(h, l.maxAttempts)
    ensures Leases.Legal(QueueHistory(h), l)
  {
    forall n: nat | n < |h.ops|
      ensures Leases.Follows(QueueHistory(h), n, l)
    {
      QueueStep(h, n, l);
    }
  }

  // ----- notifications over time -----

  /** The clock reading behind a step: of the accepted event, or of the retention pass that deletes what is older. */
  function Reading(op: Op, y: Noise.Policy, clock: int): int {
    match op
    case Offer(p) => p.now
    case Retain(before) => before + y.retention
    case _ => clock
  }

  function ClockAfter(h: History, n: nat, y: Noise.Policy, start: int): int
    requires n <= |h.ops|
  {
    if n == 0 then start else Reading(h.ops[n - 1], y, ClockAfter(h, n - 1, y, start))
  }

  /** The clock does not run backwards and every event is accepted under the same dedupe window. */
  predicate Timed(h: History, y: Noise.Policy, start: int) {
    forall n: nat :: n < |h.ops| ==>
      && ClockAfter(h, n, y, start) <= ClockAfter(h, n + 1, y, start)
      && (h.ops[n].Offer? ==> h.ops[n].p.window == y.window)
  }

  function MovesOf(db: Db, op: Op, y: Noise.Policy): seq<Noise.Move> {
    match op
    case Offer(p) => [Noise.Offered(p, db.supply)]
    case Retain(before) => [Noise.Retained(before + y.retention, Prunable(db, before))]
    case _ => []
  }

  function Moves(h: History, n: nat, y: Noise.Policy): seq<Noise.Move>
    requires n <= |h.ops| < |h.dbs|
  {
    if n == 0 then [] else Moves(h, n - 1, y) + MovesOf(h.dbs[n - 1], h.ops[n - 1], y)
  }

  lemma PrunedIsOld(db: Db, before: int, r: Record)
    requires RecordsFit(db) && r in db.book.events && r.id in Prunable(db, before)
    ensures r.createdAt < before
  {
    var x :| x in db.book.events && x.createdAt < before && x.id == r.id;
    var i :| 0 <= i < |db.book.events| && db.book.events[i] == r;
    var j :| 0 <= j < |db.book.events| && db.book.events[j] == x;
    assert i == j;
  }

  lemma OneMoreMove(start: int, moves: seq<Noise.Move>, m: Noise.Move, y: Noise.Policy)
    requires Noise.LegalRun(start, moves, y) && Noise.Legal(Noise.Follow(start, moves), m, y)
    ensures Noise.LegalRun(start, moves + [m], y)
    ensures Noise.Follow(start, moves + [m]) == Noise.Advance(Noise.Follow(start, moves), m)
  {
    assert Init(moves + [m]) == moves && Last(moves + [m]) == m;
  }

  /** The moves of one database step are legal and lead to its event and incident tables. */
  lemma MovesFollow(db: Db, op: Op, lease: int, t: Noise.Trail, m: Noise.Move, y: Noise.Policy)
    requires RecordsFit(db) && t.book == db.book && MovesOf(db, op, y) == [m]
    requires op.Offer? ==> t.clock <= op.p.now && op.p.window == y.window
    requires op.Retain? ==> t.clock <= op.before + y.retention
    ensures Noise.Legal(t, m, y)
    ensures Noise.Advance(t, m).book == Perform(db, op, lease).book
    ensures op.Offer? ==> Noise.Advance(t, m).clock == op.p.now
    ensures op.Retain? ==> Noise.Advance(t, m).clock == op.before + y.retention
  {
    match op
    case Offer(p) => OfferBook(db, p);
    case Retain(before) =>
      forall r | r in db.book.events && r.id in Prunable(db, before)
        ensures r.createdAt < before
      {
        PrunedIsOld(db, before, r);
      }
    case _ =>
  }

  lemma StepFollows(db: Db, op: Op, lease: int, start: int, early: seq<Noise.Move>, y: Noise.Policy)
    requires RecordsFit(db) && Noise.LegalRun(start, early, y) && Noise.Follow(start, early).book == db.book
    requires op.Offer? ==> op.p.window == y.window
    requires Noise.Follow(start, early).clock <= Reading(op, y, Noise.Follow(start, early).clock)
    ensures var moves := early + MovesOf(db, op, y);
            && Noise.LegalRun(start, moves, y)
            && Noise.Follow(start, moves).book == Perform(db, op, lease).book
            && Noise.Follow(start, moves).clock == Reading(op, y, Noise.Follow(start, early).clock)
  {
    var moves := MovesOf(db, op, y);
    if moves == [] {
      assert early + moves == early;
      BookMoves(db, op, lease);
      PurgingNothing(db.book.events);
    } else {
      MovesFollow(db, op, lease, Noise.Follow(start, early), moves[0], y);
      OneMoreMove(start, early, moves[0], y);
    }
  }

  lemma TimedStep(h: History, n: nat, lease: int, y: Noise.Policy, start: int)
    requires Legal(h, lease) && Timed(h, y, start) && n < |h.ops|
    ensures RecordsFit(h.dbs[n]) && h.dbs[n + 1] == Perform(h.dbs[n], h.ops[n], lease)
    ensures ClockAfter(h, n, y, start) <= Reading(h.ops[n], y, ClockAfter(h, n, y, start))
    ensures h.ops[n].Offer? ==> h.ops[n].p.window == y.window
  {
    RunFits(h, n, lease);
    assert Follows(h, n, lease);
    assert ClockAfter(h, n, y, start) <= ClockAfter(h, n + 1, y, start);
  }

  /** A timed run of the database is, in its event and incident tables, a legal run of the notification machine, so its noise
      bound holds of it. */
  lemma {:induction false} TrailIsARun(h: History, n: nat, lease: int, y: Noise.Policy, start: int)
    requires Legal(h, lease) && Timed(h, y, start) && n <= |h.ops|
    ensures Noise.LegalRun(start, Moves(h, n, y), y)
    ensures Noise.Follow(start, Moves(h, n, y)).book == h.dbs[n].book
    ensures Noise.Follow(start, Moves(h, n, y)).clock == ClockAfter(h, n, y, start)
  {
    if n > 0 {
      TrailIsARun(h, n - 1, lease, y, start);
      TimedStep(h, n - 1, lease, y, start);
      StepFollows(h.dbs[n - 1], h.ops[n - 1], lease, start, Moves(h, n - 1, y), y);
    }
  }

  // ----- the grant table -----

  /** Each state of a subscription run shows the grants of some state of the grant table up to `n`, the last that of `n`. */
  predicate ShowsGrants(states: seq<SubscriptionRuns.State>, tables: seq<OAuth.Tables>, n: nat)
    requires states != [] && n < |tables|
  {
    && Last(states).grants == tables[n].grants
    && forall i :: 0 <= i < |states| ==> ShownBefore(states[i].grants, tables, n)
  }

  predicate ShownBefore(grants: Grants, tables: seq<OAuth.Tables>, n: nat)
    requires n < |tables|
  {
    exists m :: 0 <= m <= n && grants == tables[m].grants
  }

  /** What subscription runs demand of the grants that change under them holds in every run of the grant table. */
  lemma GrantTablesEvolve(h: Families.History, n: nat, states: seq<SubscriptionRuns.State>)
    requires Families.Legal(h) && n < |h.ops| && states != [] && ShowsGrants(states, h.tables, n)
    ensures SubscriptionRuns.GrantsEvolve(states, h.tables[n + 1].grants)
  {
    forall g | g in h.tables[n + 1].grants
      ensures g in Last(states).grants ==>
                && h.tables[n + 1].grants[g].policy == Last(states).grants[g].policy
                && h.tables[n + 1].grants[g].expires == Last(states).grants[g].expires
      ensures g !in Last(states).grants ==> forall i :: 0 <= i < |states| ==> g !in states[i].grants
    {
      Families.GrantsAreStable(h, n, n, g);
      forall i | 0 <= i < |states|
        ensures g !in Last(states).grants ==> g !in states[i].grants
      {
        assert ShownBefore(states[i].grants, h.tables, n);
        var m: nat :| m <= n && states[i].grants == h.tables[m].grants;
        Families.GrantsAreStable(h, m, n, g);
      }
    }
  }
}
