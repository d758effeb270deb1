/** Fairness, termination and timing of the crash-free worker, whatever the senders answer. */
module Progress {
  import opened Domain
  import opened Queue
  import opened WorkerRuns

  // ----- bounded overtaking -----

  predicate PositiveDelays(s: Settings) {
    forall d :: d in s.delays ==> 0 < d
  }

  /** From position `from` on no claim is made before `clock`. */
  predicate NotBefore(h: WorkerRun, from: nat, clock: int) {
    forall n :: from <= n < |h.steps| && h.steps[n].Work? ==> clock <= h.steps[n].now
  }

  predicate NotHandled(h: WorkerRun, from: nat, to: nat, id: DeliveryId)
    requires to <= |h.steps|
  {
    forall n :: from <= n < to ==> !WorksOn(h.steps[n], id)
  }

  /** A delivery that is not handled keeps its place in the queue. */
  lemma {:induction false} WaitingRow(h: WorkerRun, from: nat, n: nat, s: Settings, d: DeliveryId)
    requires Legal(h, s) && from <= n <= |h.steps|
    requires d in h.tables[from] && Unfinished(h.tables[from][d]) && NotHandled(h, from, n, d)
    ensures d in h.tables[n] && h.tables[n][d] == h.tables[from][d]
  {
    if from < n {
      WaitingRow(h, from, n - 1, s, d);
      RowStep(h, n - 1, s, d, from);
    }
  }

  /** `e` can no longer be claimed before something that was due at `next`. */
  predicate Behind(q: Table, e: DeliveryId, next: int) {
    e in q && Unfinished(q[e]) ==> next < q[e].next
  }

  lemma {:induction false} HandledGoesBehind(h: WorkerRun, i: nat, n: nat, s: Settings, e: DeliveryId, next: int)
    requires Legal(h, s) && PositiveDelays(s) && i < n <= |h.steps|
    requires WorksOn(h.steps[i], e) && NotBefore(h, i, next)
    ensures e in h.tables[i] && Behind(h.tables[n], e, next)
  {
    assert Follows(h, i, s);
    if i + 1 == n {
      RowStep(h, i, s, e, i);
    } else {
      HandledGoesBehind(h, i, n - 1, s, e, next);
      RowStep(h, n - 1, s, e, i);
    }
  }

  /** Once `d` is due, every other delivery is claimed at most once before it. */
  lemma BoundedOvertaking(h: WorkerRun, from: nat, i: nat, j: nat, s: Settings, d: DeliveryId)
    requires Legal(h, s) && PositiveDelays(s)
    requires from <= i < j < |h.steps|
    requires d in h.tables[from] && Unfinished(h.tables[from][d])
    requires NotBefore(h, from, h.tables[from][d].next)
    requires NotHandled(h, from, j, d)
    requires h.steps[i].Work? && h.steps[j].Work?
    ensures h.steps[i].id != h.steps[j].id
  {
    var next := h.tables[from][d].next;
    WaitingRow(h, from, j, s, d);
    StaysAtRest(h, j, s);
    assert Follows(h, j, s);
    assert NoLaterThan(h.tables[j][h.steps[j].id], h.tables[j][d]);
    if WorksOn(h.steps[i], h.steps[j].id) {
      HandledGoesBehind(h, i, j, s, h.steps[j].id, next);
    }
  }

  function HandledIds(h: WorkerRun, from: nat, to: nat): set<DeliveryId>
    requires to <= |h.steps|
  {
    set n | from <= n < to && h.steps[n].Work? :: h.steps[n].id
  }

  function CountWork(h: WorkerRun, from: nat, to: nat): nat
    requires from <= to <= |h.steps|
  {
    if from == to then 0 else CountWork(h, from, to - 1) + if h.steps[to - 1].Work? then 1 else 0
  }

  lemma HandledIdsGrow(h: WorkerRun, from: nat, to: nat)
    requires from < to <= |h.steps|
    requires h.steps[to - 1].Work? ==> h.steps[to - 1].id !in HandledIds(h, from, to - 1)
    ensures |HandledIds(h, from, to)| == |HandledIds(h, from, to - 1)| + if h.steps[to - 1].Work? then 1 else 0
  {
    var c, earlier := h.steps[to - 1], HandledIds(h, from, to - 1);
    assert HandledIds(h, from, to) == if c.Work? then earlier + {c.id} else earlier;
  }

  lemma NothingHandledYet(h: WorkerRun, from: nat)
    requires from <= |h.steps|
    ensures |HandledIds(h, from, from)| == 0
  {
    assert HandledIds(h, from, from) == {};
  }

  /** A claim before the waiting delivery's is not of one that was handled since it waits. */
  lemma NextOvertakerIsNew(h: WorkerRun, from: nat, j: nat, s: Settings, d: DeliveryId)
    requires Legal(h, s) && PositiveDelays(s)
    requires from <= j < |h.steps| && h.steps[j].Work?
    requires d in h.tables[from] && Unfinished(h.tables[from][d])
    requires NotBefore(h, from, h.tables[from][d].next)
    requires NotHandled(h, from, j, d)
    ensures h.steps[j].id !in HandledIds(h, from, j)
  {
    if h.steps[j].id in HandledIds(h, from, j) {
      var i: nat :| from <= i < j && h.steps[i].Work? && h.steps[i].id == h.steps[j].id;
      BoundedOvertaking(h, from, i, j, s, d);
    }
  }

  lemma {:induction false} OvertakersAreDistinct(h: WorkerRun, from: nat, to: nat, s: Settings, d: DeliveryId)
    requires Legal(h, s) && PositiveDelays(s)
    requires from <= to <= |h.steps|
    requires d in h.tables[from] && Unfinished(h.tables[from][d])
    requires NotBefore(h, from, h.tables[from][d].next)
    requires NotHandled(h, from, to, d)
    ensures |HandledIds(h, from, to)| == CountWork(h, from, to)
  {
    if from < to {
      OvertakersAreDistinct(h, from, to - 1, s, d);
      if h.steps[to - 1].Work? {
        NextOvertakerIsNew(h, from, to - 1, s, d);
      }
      HandledIdsGrow(h, from, to);
    } else {
      NothingHandledYet(h, from);
    }
  }

  /** A due delivery waits for at most one turn of every other delivery there ever was. */
  lemma DueDeliveryIsReached(h: WorkerRun, from: nat, to: nat, s: Settings, d: DeliveryId, everyone: set<DeliveryId>)
    requires Legal(h, s) && PositiveDelays(s)
    requires from <= to <= |h.steps|
    requires d in h.tables[from] && Unfinished(h.tables[from][d])
    requires NotBefore(h, from, h.tables[from][d].next)
    requires forall n :: 0 <= n < |h.tables| ==> h.tables[n].Keys <= everyone
    requires |everyone| <= CountWork(h, from, to)
    ensures !NotHandled(h, from, to, d)
  {
    if NotHandled(h, from, to, d) {
      OvertakersAreDistinct(h, from, to, s, d);
      var handled := HandledIds(h, from, to);
      forall id | id in handled
        ensures id in everyone - {d}
      {
        var n: nat :| from <= n < to && h.steps[n].Work? && h.steps[n].id == id;
        assert Follows(h, n, s);
        assert h.tables[n].Keys <= everyone;
      }
      assert d in h.tables[from].Keys;
      assert h.tables[from].Keys <= everyone;
      SubsetIsSmaller(handled, everyone - {d});
    }
  }

  // ----- drain termination -----

  function Weight(d: Delivery, max: int): int {
    if Unfinished(d) then max - d.attempts else 0
  }

  ghost function WeightOf(q: Table, ids: set<DeliveryId>, max: int): int
    requires ids <= q.Keys
  {
    if ids == {} then 0
    else
      var id :| id in ids;
      Weight(q[id], max) + WeightOf(q, ids - {id}, max)
  }

  /** The attempts that all unfinished deliveries may still make. */
  ghost function Remaining(q: Table, s: Settings): int {
    WeightOf(q, q.Keys, s.maxAttempts)
  }

  lemma {:induction false} WeightSplits(q: Table, ids: set<DeliveryId>, id: DeliveryId, max: int)
    requires ids <= q.Keys && id in ids
    ensures WeightOf(q, ids, max) == Weight(q[id], max) + WeightOf(q, ids - {id}, max)
  {
    var pick :| pick in ids && WeightOf(q, ids, max) == Weight(q[pick], max) + WeightOf(q, ids - {pick}, max);
    if pick != id {
      WeightSplits(q, ids - {pick}, id, max);
      WeightSplits(q, ids - {id}, pick, max);
      assert ids - {pick} - {id} == ids - {id} - {pick};
    }
  }

  lemma {:induction false} WeightFrame(q: Table, q': Table, ids: set<DeliveryId>, max: int)
    requires ids <= q.Keys && ids <= q'.Keys
    requires forall id :: id in ids ==> q[id] == q'[id]
    ensures WeightOf(q, ids, max) == WeightOf(q', ids, max)
  {
    if ids != {} {
      var id :| id in ids;
      WeightSplits(q, ids, id, max);
      WeightSplits(q', ids, id, max);
      WeightFrame(q, q', ids - {id}, max);
    }
  }

  lemma {:induction false} WeightOfFinished(q: Table, ids: set<DeliveryId>, rest: set<DeliveryId>, max: int)
    requires rest <= ids <= q.Keys
    requires forall id :: id in ids - rest ==> !Unfinished(q[id])
    ensures WeightOf(q, ids, max) == WeightOf(q, rest, max)
  {
    if ids != rest {
      var id :| id in ids - rest;
      WeightSplits(q, ids, id, max);
      WeightOfFinished(q, ids - {id}, rest, max);
    }
  }

  lemma {:induction false} RemainingIsNatural(q: Table, ids: set<DeliveryId>, s: Settings)
    requires Sane(s) && AtRest(q, s) && ids <= q.Keys
    ensures 0 <= WeightOf(q, ids, s.maxAttempts)
    ensures WeightOf(q, ids, s.maxAttempts) == 0 <==> forall id :: id in ids ==> !Unfinished(q[id])
  {
    if ids != {} {
      var id :| id in ids;
      WeightSplits(q, ids, id, s.maxAttempts);
      RemainingIsNatural(q, ids - {id}, s);
      assert forall o :: o in ids ==> o == id || o in ids - {id};
    }
  }

  /** No intake in the run. */
  predicate NoIntake(h: WorkerRun) {
    forall n :: 0 <= n < |h.steps| ==> Arrivals(h.steps[n]) == map[]
  }

  lemma DrainStep(h: WorkerRun, n: nat, s: Settings)
    requires Legal(h, s) && NoIntake(h) && n < |h.steps|
    ensures h.steps[n].Work? ==> Remaining(h.tables[n + 1], s) < Remaining(h.tables[n], s)
    ensures !h.steps[n].Work? ==> Remaining(h.tables[n + 1], s) == Remaining(h.tables[n], s)
  {
    var q, q', c, max := h.tables[n], h.tables[n + 1], h.steps[n], s.maxAttempts;
    assert Follows(h, n, s);
    StaysAtRest(h, n, s);
    StaysAtRest(h, n + 1, s);
    match c
    case Work(id, now, answer, meanwhile) =>
      assert Arrivals(c) == map[];
      HandledRow(q, s, id, now, answer, meanwhile);
      assert q'.Keys == q.Keys;
      WeightSplits(q, q.Keys, id, max);
      WeightSplits(q', q.Keys, id, max);
      WeightFrame(q, q', q.Keys - {id}, max);
    case Arrive(arrivals) =>
      assert Arrivals(c) == map[];
      assert q' == q;
    case Clear(gone) =>
      assert q'.Keys == q.Keys - gone;
      WeightOfFinished(q, q.Keys, q'.Keys, max);
      WeightFrame(q, q', q'.Keys, max);
  }

  /** Without new intake the worker handles at most as many deliveries as there are attempts left. */
  lemma {:induction false} DrainTerminates(h: WorkerRun, n: nat, s: Settings)
    requires Legal(h, s) && NoIntake(h) && n <= |h.steps|
    ensures CountWork(h, 0, n) + Remaining(h.tables[n], s) <= Remaining(h.tables[0], s)
    ensures 0 <= Remaining(h.tables[n], s)
  {
    StaysAtRest(h, n, s);
    RemainingIsNatural(h.tables[n], h.tables[n].Keys, s);
    if n > 0 {
      DrainTerminates(h, n - 1, s);
      DrainStep(h, n - 1, s);
    }
  }

  predicate AllSettled(q: Table) {
    forall id :: id in q ==> q[id].phase.Sent? || q[id].phase.Dead?
  }

  predicate AllReady(q: Table, now: int) {
    forall id :: id in q && Unfinished(q[id]) ==> q[id].next <= now
  }

  /** The worker stops for good exactly when every delivery is sent or dead. */
  lemma {:induction false} DrainEndsSettled(h: WorkerRun, n: nat, s: Settings, now: int)
    requires Legal(h, s) && n <= |h.steps| && AllReady(h.tables[n], now)
    ensures AllSettled(h.tables[n]) <==> forall id :: id in h.tables[n] ==> !IsNext(h.tables[n], id, now)
    ensures AllSettled(h.tables[n]) <==> Remaining(h.tables[n], s) == 0
  {
    var q := h.tables[n];
    StaysAtRest(h, n, s);
    NextExists(q, now);
    RemainingIsNatural(q, q.Keys, s);
    if !AllSettled(q) {
      var id :| id in q && !q[id].phase.Sent? && !q[id].phase.Dead?;
      assert Due(q[id], now);
    }
  }

  // ----- backoff schedule -----

  /** Total delay after the first `k` attempts. */
  function DelaySum(s: Settings, k: nat): int
    requires s.delays != []
  {
    if k == 0 then 0 else DelaySum(s, k - 1) + s.delays[Min(k - 1, |s.delays| - 1)]
  }

  predicate OnlyRetryableFailures(h: WorkerRun, from: nat, to: nat, id: DeliveryId)
    requires to <= |h.steps|
  {
    forall n :: from <= n < to && WorksOn(h.steps[n], id) ==> h.steps[n].answer.Rejected? && h.steps[n].answer.retryable
  }

  /** After `attempts` failures the delivery is not due before the first claim plus their delays. */
  predicate OnSchedule(q: Table, id: DeliveryId, first: int, s: Settings)
    requires s.delays != []
  {
    id in q ==>
      && 0 < q[id].attempts <= s.maxAttempts
      && (q[id].phase.Retrying? || q[id].phase.Dead?)
      && (q[id].phase.Retrying? ==> first + DelaySum(s, q[id].attempts) <= q[id].next)
  }

  lemma ScheduleStep(q: Table, q': Table, c: WorkerStep, s: Settings, id: DeliveryId, first: int)
    requires Sane(s) && AtRest(q, s) && RowMoves(q, q', c, s, id) && OnSchedule(q, id, first, s)
    requires WorksOn(c, id) ==> c.answer.Rejected? && c.answer.retryable
    ensures OnSchedule(q', id, first, s)
    ensures WorksOn(c, id) && q'[id].phase.Dead? ==>
              first + DelaySum(s, s.maxAttempts - 1) <= c.now && q'[id].attempts == s.maxAttempts
  {
    if WorksOn(c, id) {
      var a := q[id].attempts;
      assert DelayAfter(s, a + 1) == s.delays[Min(a, |s.delays| - 1)];
    }
  }

  lemma {:induction false} ScheduleHolds(h: WorkerRun, f: nat, n: nat, s: Settings, id: DeliveryId)
    requires Legal(h, s) && f < n <= |h.steps|
    requires WorksOn(h.steps[f], id) && id in h.tables[f] && h.tables[f][id].attempts == 0
    requires OnlyRetryableFailures(h, f, n, id)
    ensures OnSchedule(h.tables[n], id, h.steps[f].now, s)
  {
    if f + 1 == n {
      RowStep(h, f, s, id, f);
      assert DelaySum(s, 1) == DelaySum(s, 0) + s.delays[0];
      assert DelayAfter(s, 1) == s.delays[0];
    } else {
      ScheduleHolds(h, f, n - 1, s, id);
      RowStep(h, n - 1, s, id, f);
      StaysAtRest(h, n - 1, s);
      ScheduleStep(h.tables[n - 1], h.tables[n], h.steps[n - 1], s, id, h.steps[f].now);
    }
  }

  /** A delivery that dies of retryable failures alone dies at its last attempt, no earlier than the whole backoff schedule. */
  lemma DeathTakesTheWholeSchedule(h: WorkerRun, f: nat, g: nat, s: Settings, id: DeliveryId)
    requires Legal(h, s) && f <= g < |h.steps|
    requires WorksOn(h.steps[f], id) && id in h.tables[f] && h.tables[f][id].attempts == 0
    requires OnlyRetryableFailures(h, f, g + 1, id)
    requires WorksOn(h.steps[g], id) && id in h.tables[g + 1] && h.tables[g + 1][id].phase.Dead?
    ensures h.steps[f].now + DelaySum(s, s.maxAttempts - 1) <= h.steps[g].now
    ensures h.tables[g + 1][id].attempts == s.maxAttempts
  {
    RowStep(h, g, s, id, f);
    if f < g {
      ScheduleHolds(h, f, g, s, id);
      StaysAtRest(h, g, s);
      ScheduleStep(h.tables[g], h.tables[g + 1], h.steps[g], s, id, h.steps[f].now);
    }
  }

  /** With the default settings that is twelve minutes and thirty-six seconds. */
  lemma DefaultScheduleTotal()
    ensures DelaySum(DefaultSettings, DefaultSettings.maxAttempts - 1) == 756000
  {
    assert DelaySum(DefaultSettings, 1) == 1000;
    assert DelaySum(DefaultSettings, 3) == 36000;
  }
}
