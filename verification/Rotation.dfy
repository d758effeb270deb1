/** A replaced callback secret stays usable for five minutes from its replacement, and no row outlives a day unrefreshed. */
module Rotation {
  import opened Domain
  import opened OAuth
  import opened Subscriptions
  import opened SubscriptionRuns
  import opened Generations

  /** Step `m` asked to replace the standing secret `was` of this subscription five minutes before `until`. */
  predicate ReplacedBy(gw: Gateway, h: History, m: nat, id: SubId, was: string, until: int)
    requires m < |h.ops| < |h.states|
  {
    var s, op := h.states[m], h.ops[m];
    && op.Begin? && RequestedId(gw, op.r) == id && until == op.r.now + 5 * MINUTE
    && Standing(gw, s.rows, s.grants, op.r).Some?
    && s.rows[id].secret == was && was != op.r.secret
  }

  ghost predicate Replaced(gw: Gateway, h: History, n: nat, id: SubId, was: string, until: int)
    requires n <= |h.ops| < |h.states|
  {
    exists m: nat :: m < n && ReplacedBy(gw, h, m, id, was, until)
  }

  /** The kept old secret is a different one, replaced when its time says; the row ends within a day of `clock`. */
  ghost predicate Fair(gw: Gateway, h: History, n: nat, id: SubId, sub: Subscription, clock: int)
    requires n <= |h.ops| < |h.states|
  {
    && sub.expires <= clock + DAY
    && (sub.previous.Some? ==>
          && sub.previous.value.0 != sub.secret
          && Replaced(gw, h, n, id, sub.previous.value.0, sub.previous.value.1))
  }

  ghost predicate AllFair(gw: Gateway, h: History, n: nat)
    requires n <= |h.ops| < |h.states|
  {
    var s := h.states[n];
    && (forall id :: id in s.rows ==> Fair(gw, h, n, id, s.rows[id], s.clock))
    && (s.pending.Some? ==> Fair(gw, h, n, s.pending.value.id, s.pending.value.draft, s.clock))
  }

  lemma FairGrows(gw: Gateway, h: History, n: nat, m: nat, id: SubId, sub: Subscription, clock: int, later: int)
    requires n <= m <= |h.ops| < |h.states| && clock <= later && Fair(gw, h, n, id, sub, clock)
    ensures Fair(gw, h, m, id, sub, later)
  {
  }

  /** What a new draft says of the secret it replaces. */
  lemma DraftSecrets(gw: Gateway, s: State, r: Request)
    requires Next(gw, s, Begin(r)).pending.Some?
    ensures var p, standing := Next(gw, s, Begin(r)).pending.value, Standing(gw, s.rows, s.grants, r);
            && p.id == RequestedId(gw, r) && p.draft.secret == r.secret && p.draft.expires <= r.now + DAY
            && (standing.Some? ==> p.id in s.rows && standing.value == s.rows[p.id])
            && p.draft.previous == RotatedOut(standing, r)
  {
  }

  lemma NewDraftIsFair(gw: Gateway, h: History, n: nat, m: nat)
    requires Legal(gw, h) && m == n + 1 <= |h.ops| && h.ops[n].Begin? && AllFair(gw, h, n)
    requires h.states[m].pending.Some?
    ensures Fair(gw, h, m, h.states[m].pending.value.id, h.states[m].pending.value.draft, h.states[m].clock)
  {
    var s, r, p := h.states[n], h.ops[n].r, h.states[m].pending.value;
    assert Follows(gw, h, n);
    DraftSecrets(gw, s, r);
    var standing := Standing(gw, s.rows, s.grants, r);
    if standing.Some? {
      if standing.value.secret != r.secret {
        assert ReplacedBy(gw, h, n, p.id, standing.value.secret, r.now + 5 * MINUTE);
      } else {
        FairGrows(gw, h, n, m, p.id, s.rows[p.id], s.clock, h.states[m].clock);
      }
    }
  }

  lemma RowStaysFair(gw: Gateway, h: History, n: nat, m: nat, id: SubId)
    requires Legal(gw, h) && m == n + 1 <= |h.ops| && AllFair(gw, h, n) && id in h.states[m].rows
    ensures Fair(gw, h, m, id, h.states[m].rows[id], h.states[m].clock)
  {
    RunMovesRows(gw, h, n);
    var s, s' := h.states[n], h.states[m];
    if id in s.rows && s'.rows[id] == s.rows[id] {
      FairGrows(gw, h, n, m, id, s.rows[id], s.clock, s'.clock);
    } else {
      FairGrows(gw, h, n, m, id, s.pending.value.draft, s.clock, s'.clock);
    }
  }

  lemma {:induction false} RunIsFair(gw: Gateway, h: History, n: nat)
    requires Legal(gw, h) && n <= |h.ops|
    ensures AllFair(gw, h, n)
  {
    if n > 0 {
      RunIsFair(gw, h, n - 1);
      RunMovesRows(gw, h, n - 1);
      var s, s' := h.states[n - 1], h.states[n];
      forall id | id in s'.rows
        ensures Fair(gw, h, n, id, s'.rows[id], s'.clock)
      {
        RowStaysFair(gw, h, n - 1, n, id);
      }
      if s'.pending.Some? {
        if h.ops[n - 1].Begin? {
          NewDraftIsFair(gw, h, n - 1, n);
        } else {
          FairGrows(gw, h, n - 1, n, s.pending.value.id, s.pending.value.draft, s.clock, s'.clock);
        }
      }
    }
  }

  /** A stored old secret is one that a request really replaced, exactly five minutes before it stops being used; refreshes
      do not stretch it, and none keeps a subscription for more than a day. */
  lemma OldSecretsEndOnTime(gw: Gateway, h: History, n: nat, id: SubId)
    requires Legal(gw, h) && n <= |h.ops| && id in h.states[n].rows
    ensures var row := h.states[n].rows[id];
            && row.expires <= h.states[n].clock + DAY
            && (row.previous.Some? ==>
                  && row.previous.value.0 != row.secret
                  && Replaced(gw, h, n, id, row.previous.value.0, row.previous.value.1))
  {
    RunIsFair(gw, h, n);
  }

  /** Between the positions no subscribe request begins or ends. */
  predicate NoneBetween(h: History, m: nat, n: nat)
    requires n <= |h.ops|
  {
    forall k :: m < k < n ==> !h.ops[k].Begin? && !h.ops[k].Finish?
  }

  lemma {:induction false} PendingWaits(gw: Gateway, h: History, m: nat, n: nat)
    requires Legal(gw, h) && m < n <= |h.ops| && NoneBetween(h, m, n)
    ensures h.states[n].pending == h.states[m + 1].pending
  {
    if m + 1 < n {
      PendingWaits(gw, h, m, n - 1);
      RunMovesRows(gw, h, n - 1);
    }
  }

  /** Whatever happens between the read and the save of a request that replaces the secret: if the save goes through, the old
      secret is kept for its five minutes. */
  lemma ReplacedSecretIsKept(gw: Gateway, h: History, m: nat, n: nat, id: SubId, was: string, until: int)
    requires Legal(gw, h) && m < n < |h.ops|
    requires ReplacedBy(gw, h, m, id, was, until)
    requires NoneBetween(h, m, n) && h.ops[n].Finish? && h.states[n].pending.Some?
    requires SaveGoesThrough(gw, h.states[n], h.states[n].pending.value, h.ops[n].later)
    ensures id in h.states[n + 1].rows && h.states[n + 1].rows[id].previous == Some((was, until))
    ensures h.states[n + 1].rows[id].secret == h.ops[m].r.secret
  {
    assert Follows(gw, h, m) && Follows(gw, h, n);
    PendingWaits(gw, h, m, n);
    DraftSecrets(gw, h.states[m], h.ops[m].r);
    FinishStores(gw, h.states[n], h.ops[n].later);
  }

  lemma FinishStores(gw: Gateway, s: State, later: int)
    requires s.pending.Some? && SaveGoesThrough(gw, s, s.pending.value, later)
    ensures var p, rows := s.pending.value, Next(gw, s, Finish(later)).rows;
            p.id in rows && rows[p.id] == p.draft.(routes := rows[p.id].routes)
  {
    var p := s.pending.value;
    SaveMovesRows(s.rows, p.id, p.draft, p.now);
  }
}
