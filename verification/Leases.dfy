/** Any number of workers that crash or stall at any point: lease exclusion, fencing and the attempt bound. */
module Leases {
  import opened Domain
  import opened Queue

  /** Worker settings; the constructor of the worker replaces non-positive values by defaults. */
  datatype Limits = Limits(lease: int, maxAttempts: nat)

  predicate Configured(l: Limits) {
    0 < l.lease && 0 < l.maxAttempts
  }

  /** The steps taken so far and the table before and after each of them. */
  datatype History = History(acts: seq<Act>, tables: seq<Table>)

  predicate NeverUsed(tables: seq<Table>, arrivals: Table) {
    forall m, id :: 0 <= m < |tables| && id in arrivals ==> id !in tables[m]
  }

  /** Step `n` is allowed, enqueues fresh ids only, and schedules a retry only below the attempt limit. */
  predicate Follows(h: History, n: nat, l: Limits)
    requires n < |h.acts| && |h.tables| == |h.acts| + 1
  {
    var q, a := h.tables[n], h.acts[n];
    && Allowed(q, a)
    && h.tables[n + 1] == Apply(q, a, l.lease)
    && (a.Enqueue? ==> NeverUsed(h.tables[..n + 1], a.arrivals))
    && (a.ReportFailure? && !a.dead ==> a.attempts < l.maxAttempts)
  }

  predicate Legal(h: History, l: Limits) {
    && |h.tables| == |h.acts| + 1
    && h.tables[0] == map[]
    && forall n: nat :: n < |h.acts| ==> Follows(h, n, l)
  }

  /** The report ends the claim that is running on `id`. */
  predicate Completes(q: Table, a: Act, id: DeliveryId) {
    || (a.ReportSuccess? && a.id == id && SuccessApplies(q, id))
    || (a.ReportFailure? && a.id == id && FailureApplies(q, id, a.attempts))
  }

  predicate Revives(q: Table, a: Act, id: DeliveryId) {
    a.ManualRetry? && a.id == id && RevivalApplies(q, id)
  }

  predicate ClaimsOf(a: Act, id: DeliveryId) {
    a.Claim? && a.id == id
  }

  /** What one step may do to a row whose id was enqueued before it. */
  predicate RowMoves(q: Table, q': Table, a: Act, lease: int, id: DeliveryId) {
    && (id in q' ==> id in q)
    && (id in q && Unfinished(q[id]) ==> id in q')
    && (id in q && id in q' && !ClaimsOf(a, id) && !Completes(q, a, id) && !Revives(q, a, id) ==> q'[id] == q[id])
    && (id in q && id in q' && !ClaimsOf(a, id) && !Revives(q, a, id) ==> q'[id].attempts == q[id].attempts)
    && (ClaimsOf(a, id) ==> id in q && id in q' && Due(q[id], a.now) && q'[id] == Claimed(q[id], a.now, lease))
  }

  lemma RowStep(h: History, n: nat, l: Limits, id: DeliveryId, seen: nat)
    requires Legal(h, l) && seen <= n < |h.acts| && id in h.tables[seen]
    ensures RowMoves(h.tables[n], h.tables[n + 1], h.acts[n], l.lease, id)
  {
    assert Follows(h, n, l);
    assert h.tables[..n + 1][seen] == h.tables[seen];
  }

  lemma ClaimedRow(h: History, n: nat, l: Limits, id: DeliveryId)
    requires Legal(h, l) && n < |h.acts| && ClaimsOf(h.acts[n], id)
    ensures IsNext(h.tables[n], id, h.acts[n].now)
  {
    assert Follows(h, n, l);
  }

  /** No report ended a claim of `id` between the two positions. */
  predicate Uncompleted(h: History, i: nat, j: nat, id: DeliveryId)
    requires j <= |h.acts| < |h.tables|
  {
    forall n :: i < n < j ==> !Completes(h.tables[n], h.acts[n], id)
  }

  /** The row is running under a lease that lasts at least until `until`. */
  predicate HeldUntil(q: Table, id: DeliveryId, until: int) {
    id in q && q[id].phase.Processing? && q[id].lease.Some? && until <= q[id].lease.value
  }

  lemma HoldingStep(q: Table, q': Table, a: Act, lease: int, id: DeliveryId, until: int)
    requires RowMoves(q, q', a, lease, id) && !Completes(q, a, id) && 0 < lease
    requires HeldUntil(q, id, until)
    ensures HeldUntil(q', id, until)
  {
  }

  lemma {:induction false} LeaseIsHeld(h: History, i: nat, j: nat, l: Limits, id: DeliveryId)
    requires Legal(h, l) && Configured(l)
    requires i < j <= |h.acts| && ClaimsOf(h.acts[i], id) && Uncompleted(h, i, j, id)
    ensures HeldUntil(h.tables[j], id, h.acts[i].now + l.lease)
  {
    ClaimedRow(h, i, l, id);
    if i + 1 == j {
      RowStep(h, i, l, id, i);
    } else {
      LeaseIsHeld(h, i, j - 1, l, id);
      RowStep(h, j - 1, l, id, i);
      HoldingStep(h.tables[j - 1], h.tables[j], h.acts[j - 1], l.lease, id, h.acts[i].now + l.lease);
    }
  }

  /** Two claims of a delivery with no completion between them are at least one lease apart. */
  lemma LeaseExclusion(h: History, i: nat, j: nat, l: Limits, id: DeliveryId)
    requires Legal(h, l) && Configured(l)
    requires i < j < |h.acts| && ClaimsOf(h.acts[i], id) && ClaimsOf(h.acts[j], id)
    requires Uncompleted(h, i, j, id)
    ensures h.acts[i].now + l.lease <= h.acts[j].now
  {
    LeaseIsHeld(h, i, j, l, id);
    ClaimedRow(h, j, l, id);
  }

  /** While its claim is neither completed nor repeated, a delivery keeps the lease of that claim. */
  lemma {:induction false} LeaseIsKept(h: History, i: nat, j: nat, l: Limits, id: DeliveryId)
    requires Legal(h, l)
    requires i < j <= |h.acts| && ClaimsOf(h.acts[i], id) && Uncompleted(h, i, j, id) && !Reclaimed(h, i, j, id)
    ensures id in h.tables[j] && h.tables[j][id].phase.Processing? && h.tables[j][id].lease == Some(h.acts[i].now + l.lease)
  {
    ClaimedRow(h, i, l, id);
    if i + 1 == j {
      RowStep(h, i, l, id, i);
    } else {
      LeaseIsKept(h, i, j - 1, l, id);
      RowStep(h, j - 1, l, id, i);
    }
  }

  /** A delivery whose claimant never reports is claimable again exactly when its lease is over. */
  lemma ClaimableAgainExactly(h: History, i: nat, j: nat, l: Limits, id: DeliveryId, now: int)
    requires Legal(h, l)
    requires i < j <= |h.acts| && ClaimsOf(h.acts[i], id) && Uncompleted(h, i, j, id) && !Reclaimed(h, i, j, id)
    ensures id in h.tables[j] && (Due(h.tables[j][id], now) <==> h.acts[i].now + l.lease <= now)
  {
    LeaseIsKept(h, i, j, l, id);
  }

  /** A reported failure is claimable again exactly from the reported time on, unless the delivery is dead; a sent one never. */
  lemma ReportedIsDueExactly(h: History, n: nat, l: Limits, id: DeliveryId, now: int)
    requires Legal(h, l) && n < |h.acts| && Completes(h.tables[n], h.acts[n], id)
    ensures id in h.tables[n + 1]
    ensures Due(h.tables[n + 1][id], now) <==> h.acts[n].ReportFailure? && !h.acts[n].dead && h.acts[n].next <= now
  {
    assert Follows(h, n, l);
  }

  /** An enqueued or manually retried delivery is due from that moment on. */
  lemma FreshIsDueExactly(h: History, n: nat, l: Limits, id: DeliveryId, now: int)
    requires Legal(h, l) && n < |h.acts|
    ensures h.acts[n].Enqueue? && id in h.acts[n].arrivals ==>
              id in h.tables[n + 1] && (Due(h.tables[n + 1][id], now) <==> h.acts[n].arrivals[id].created <= now)
    ensures Revives(h.tables[n], h.acts[n], id) ==>
              id in h.tables[n + 1] && (Due(h.tables[n + 1][id], now) <==> h.acts[n].now <= now)
  {
    assert Follows(h, n, l);
  }

  predicate NoRevival(h: History, i: nat, j: nat, id: DeliveryId)
    requires j <= |h.acts| < |h.tables|
  {
    forall n :: i < n < j ==> !Revives(h.tables[n], h.acts[n], id)
  }

  predicate Reclaimed(h: History, i: nat, j: nat, id: DeliveryId)
    requires j <= |h.acts|
  {
    exists n :: i < n < j && ClaimsOf(h.acts[n], id)
  }

  predicate CountsFrom(q: Table, id: DeliveryId, base: nat, reclaimed: bool) {
    id in q ==> base <= q[id].attempts && (q[id].attempts == base <==> !reclaimed)
  }

  lemma CountingStep(q: Table, q': Table, a: Act, lease: int, id: DeliveryId, base: nat, reclaimed: bool)
    requires RowMoves(q, q', a, lease, id) && !Revives(q, a, id)
    requires CountsFrom(q, id, base, reclaimed)
    ensures CountsFrom(q', id, base, reclaimed || ClaimsOf(a, id))
  {
  }

  /** Between manual retries the attempts number of a row tells whether it was claimed again. */
  lemma {:induction false} AttemptsCountClaims(h: History, i: nat, j: nat, l: Limits, id: DeliveryId)
    requires Legal(h, l)
    requires i < j <= |h.acts| && ClaimsOf(h.acts[i], id) && NoRevival(h, i, j, id)
    ensures id in h.tables[i] && id in h.tables[i + 1]
    ensures CountsFrom(h.tables[j], id, h.tables[i + 1][id].attempts, Reclaimed(h, i, j, id))
  {
    ClaimedRow(h, i, l, id);
    RowStep(h, i, l, id, i);
    if i + 1 < j {
      AttemptsCountClaims(h, i, j - 1, l, id);
      RowStep(h, j - 1, l, id, i);
      CountingStep(h.tables[j - 1], h.tables[j], h.acts[j - 1], l.lease, id,
                   h.tables[i + 1][id].attempts, Reclaimed(h, i, j - 1, id));
      assert Reclaimed(h, i, j, id) <==> Reclaimed(h, i, j - 1, id) || ClaimsOf(h.acts[j - 1], id);
    }
  }

  /** The report carries the attempts number its worker was given by the claim at `i`. */
  predicate ReportsOn(h: History, i: nat, a: Act, id: DeliveryId)
    requires i < |h.acts| < |h.tables|
  {
    && ClaimsOf(h.acts[i], id) && a.ReportFailure? && a.id == id
    && id in h.tables[i + 1] && a.attempts == h.tables[i + 1][id].attempts
  }

  /** Claims of the delivery before `n` since a manual retry last reset it. */
  function ClaimsSinceRetry(h: History, n: nat, id: DeliveryId): nat
    requires n <= |h.acts| < |h.tables|
  {
    if n == 0 then 0
    else
      var q, a := h.tables[n - 1], h.acts[n - 1];
      if Revives(q, a, id) then 0
      else if ClaimsOf(a, id) then ClaimsSinceRetry(h, n - 1, id) + 1
      else ClaimsSinceRetry(h, n - 1, id)
  }

  lemma {:induction false} NothingClaimedBeforeEnqueue(h: History, n: nat, l: Limits, id: DeliveryId)
    requires Legal(h, l) && n <= |h.acts|
    requires forall m :: 0 <= m <= n ==> id !in h.tables[m]
    ensures ClaimsSinceRetry(h, n, id) == 0
  {
    if n > 0 {
      NothingClaimedBeforeEnqueue(h, n - 1, l, id);
      if ClaimsOf(h.acts[n - 1], id) {
        ClaimedRow(h, n - 1, l, id);
      }
    }
  }

  /** The attempts number of a row is the number of its claims since the last manual retry. */
  lemma {:induction false} AttemptsAreClaims(h: History, n: nat, l: Limits, id: DeliveryId)
    requires Legal(h, l) && n <= |h.acts| && id in h.tables[n]
    ensures h.tables[n][id].attempts == ClaimsSinceRetry(h, n, id)
  {
    if n > 0 {
      assert Follows(h, n - 1, l);
      if id in h.tables[n - 1] {
        AttemptsAreClaims(h, n - 1, l, id);
        RowStep(h, n - 1, l, id, n - 1);
      } else {
        var arrivals := h.acts[n - 1].arrivals;
        forall m | 0 <= m <= n - 1
          ensures id !in h.tables[m]
        {
          assert id in arrivals && h.tables[..n][m] == h.tables[m];
        }
        NothingClaimedBeforeEnqueue(h, n - 1, l, id);
      }
    }
  }

  /** In any history, a failure report of the claimant at `i` takes effect exactly when the row is running and has been claimed,
      since its last manual retry, as often as it had been when the report's worker claimed it. */
  lemma FailureReportsExactly(h: History, i: nat, j: nat, l: Limits, id: DeliveryId)
    requires Legal(h, l)
    requires i < j < |h.acts| && ReportsOn(h, i, h.acts[j], id)
    ensures Completes(h.tables[j], h.acts[j], id) <==>
              && id in h.tables[j] && h.tables[j][id].phase.Processing?
              && ClaimsSinceRetry(h, j, id) == ClaimsSinceRetry(h, i + 1, id)
  {
    AttemptsAreClaims(h, i + 1, l, id);
    if id in h.tables[j] {
      AttemptsAreClaims(h, j, l, id);
    }
  }

  /** Between manual retries a failure report takes effect exactly when the row is running and its worker is the latest claimant. */
  lemma FailureReportsAreFenced(h: History, i: nat, j: nat, l: Limits, id: DeliveryId)
    requires Legal(h, l)
    requires i < j < |h.acts| && ReportsOn(h, i, h.acts[j], id)
    requires NoRevival(h, i, j, id)
    ensures Completes(h.tables[j], h.acts[j], id) <==>
            id in h.tables[j] && h.tables[j][id].phase.Processing? && !Reclaimed(h, i, j, id)
  {
    AttemptsCountClaims(h, i, j, l, id);
  }

  /** Claims before `n` that took over a row whose claimant never reported, since the row was last reset. */
  function Crashes(h: History, n: nat, id: DeliveryId): nat
    requires n <= |h.acts| < |h.tables|
  {
    if n == 0 then 0
    else
      var q, a := h.tables[n - 1], h.acts[n - 1];
      if Revives(q, a, id) then 0
      else if ClaimsOf(a, id) && id in q && q[id].phase.Processing? then Crashes(h, n - 1, id) + 1
      else Crashes(h, n - 1, id)
  }

  predicate AttemptsWithin(d: Delivery, max: nat, crashes: nat) {
    && d.attempts <= max + crashes
    && (d.phase.Pending? ==> d.attempts == 0)
    && (d.phase.Retrying? ==> d.attempts < max)
  }

  /** With c crashed claims since its last reset, a delivery has had at most maxAttempts + c attempts. */
  lemma {:induction false} AttemptBound(h: History, n: nat, l: Limits, id: DeliveryId)
    requires Legal(h, l) && Configured(l)
    requires n <= |h.acts| && id in h.tables[n]
    ensures AttemptsWithin(h.tables[n][id], l.maxAttempts, Crashes(h, n, id))
  {
    if n > 0 {
      assert Follows(h, n - 1, l);
      if id in h.tables[n - 1] {
        AttemptBound(h, n - 1, l, id);
      }
    }
  }

  const Sample: DeliveryId := Random(0)

  function LateActs(): seq<Act> {
    [Enqueue(map[Sample := NewDelivery(0, Target("t"), 0)]),
     Claim(Sample, 0),
     Claim(Sample, 10),
     ReportFailure(Sample, 2, 10, "", 0, true),
     ManualRetry(Sample, 20),
     Claim(Sample, 20),
     ReportFailure(Sample, 1, 10, "", 0, true)]
  }

  /** The only row of the example after its first `n` steps. */
  function LateRow(n: nat): Delivery {
    var d := NewDelivery(0, Target("t"), 0);
    match n
    case 1 => d
    case 2 => d.(phase := Processing, attempts := 1, lease := Some(10))
    case 3 => d.(phase := Processing, attempts := 2, lease := Some(20))
    case 4 => d.(phase := Dead, attempts := 2, next := 10)
    case 5 => d.(phase := Pending, attempts := 0, next := 20)
    case 6 => d.(phase := Processing, attempts := 1, next := 20, lease := Some(30))
    case _ => d.(phase := Dead, attempts := 1, next := 10)
  }

  function LateHistory(): History {
    History(LateActs(), [map[]] + seq(7, i requires 0 <= i => map[Sample := LateRow(i + 1)]))
  }

  lemma LateStep(n: nat)
    requires n < 7
    ensures Follows(LateHistory(), n, Limits(10, 2))
  {
    var h := LateHistory();
    if n == 0 {
      assert h.tables[..1] == [map[]];
    } else {
      assert h.tables[n] == map[Sample := LateRow(n)] && h.tables[n + 1] == map[Sample := LateRow(n + 1)];
    }
  }

  /** Across a manual retry the fence opens: the report of a claimant from before it kills the claim made after it. */
  lemma {:induction false} FenceOpensAcrossManualRetry()
    ensures Legal(LateHistory(), Limits(10, 2))
    ensures ReportsOn(LateHistory(), 1, LateActs()[6], Sample)
    ensures Reclaimed(LateHistory(), 1, 6, Sample)
    ensures Completes(LateHistory().tables[6], LateActs()[6], Sample)
  {
    var h := LateHistory();
    forall n: nat | n < |h.acts|
      ensures Follows(h, n, Limits(10, 2))
    {
      LateStep(n);
    }
    assert ClaimsOf(h.acts[2], Sample);
  }
}
