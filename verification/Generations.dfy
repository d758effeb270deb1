/** Old jobs stay dead: a removed, expired or revoked subscription never delivers what was queued for it before. */
module Generations {
  import opened Domain
  import opened OAuth
  import opened Subscriptions
  import opened SubscriptionRuns
  import opened Routes

  predicate HasGeneration(s: State, id: SubId, g: Token) {
    id in s.rows && s.rows[id].generation == g
  }

  /** The subscription had this generation in some state up to `k`. */
  predicate Seen(h: History, k: nat, id: SubId, g: Token)
    requires k < |h.states|
  {
    exists m :: 0 <= m <= k && HasGeneration(h.states[m], id, g)
  }

  /** No subscription ever had this generation up to `k`. */
  ghost predicate NeverSeen(h: History, k: nat, g: Token)
    requires k < |h.states|
  {
    forall id :: !Seen(h, k, id, g)
  }

  predicate FromBegin(h: History, n: nat, g: Token)
    requires n <= |h.ops|
  {
    exists m :: 0 <= m < n && h.ops[m].Begin? && h.ops[m].r.token == g
  }

  predicate GrantWasLive(h: History, n: nat, g: GrantId)
    requires n < |h.states|
  {
    exists m :: 0 <= m <= n && g in h.states[m].grants
  }

  /** Where generations come from: each was some request's random token, and a draft's own token was never stored. */
  ghost predicate Traceable(h: History, n: nat)
    requires n <= |h.ops| < |h.states|
  {
    var s := h.states[n];
    && (forall id :: id in s.rows ==> FromBegin(h, n, s.rows[id].generation))
    && (forall id :: id in s.rows && id.owner.OAuth? ==> GrantWasLive(h, n, id.owner.grant))
    && (s.pending.Some? ==>
          var p := s.pending.value;
          && FromBegin(h, n, p.draft.generation)
          && (p.kept ==> Seen(h, n, p.id, p.draft.generation))
          && (!p.kept ==> NeverSeen(h, n, p.draft.generation)))
  }

  lemma SeenGrows(h: History, n: nat, id: SubId, g: Token)
    requires n + 1 < |h.states|
    ensures Seen(h, n + 1, id, g) <==> Seen(h, n, id, g) || HasGeneration(h.states[n + 1], id, g)
  {
  }

  lemma NeverSeenGrows(h: History, n: nat, m: nat, g: Token)
    requires m == n + 1 < |h.states|
    requires NeverSeen(h, n, g)
    requires forall id :: HasGeneration(h.states[m], id, g) ==> HasGeneration(h.states[n], id, g)
    ensures NeverSeen(h, m, g)
  {
    forall id
      ensures !Seen(h, m, id, g)
    {
      SeenGrows(h, n, id, g);
      assert !Seen(h, n, id, g);
    }
  }

  /** Rows after a step are rows from before it, except the one a finished request saved. */
  predicate RowsMove(gw: Gateway, s: State, s': State, op: Op) {
    && (forall id :: id in s'.rows ==>
          || (id in s.rows && s'.rows[id] == s.rows[id])
          || (op.Finish? && s.pending.Some? && s.pending.value.id == id
              && s'.rows[id] == s.pending.value.draft.(routes := s'.rows[id].routes)
              && Authorized(gw, s.grants, id, s.pending.value.draft, op.later)))
    && (!op.Finish? && !op.Begin? ==> s'.pending == s.pending)
    && (op.Finish? ==> s'.pending.None?)
    && (op.Begin? ==> s'.rows == s.rows)
    && (!op.GrantsBecome? ==> s'.grants == s.grants)
    && s'.clock == TimeOf(op)
  }

  /** A save keeps other rows or drops them, and stores the draft under its own id. */
  predicate Saves(rows: Rows, rows': Rows, id: SubId, sub: Subscription, saved: bool) {
    && (forall o :: o in rows' && (o != id || !saved) ==> o in rows && rows'[o] == rows[o])
    && (saved ==> id in rows' && rows'[id] == sub.(routes := rows'[id].routes))
    && (!saved ==> rows' == rows)
  }

  lemma SaveMovesRows(rows: Rows, id: SubId, sub: Subscription, now: int)
    ensures Saves(rows, Save(rows, id, sub, now).0, id, sub, Save(rows, id, sub, now).1)
  {
    var live := rows - Expired(rows, now);
    assert forall o :: o in live ==> o in rows && live[o] == rows[o];
    if !LimitReached(live, id) {
      var row := if id in live then sub.(routes := live[id].routes) else sub;
      assert Save(rows, id, sub, now) == (live[id := row], true);
    }
  }

  lemma CommitMovesRows(gw: Gateway, rows: Rows, grants: Grants, id: SubId, draft: Subscription, now: int, later: int)
    ensures var (rows', saved) := Commit(gw, rows, grants, id, draft, now, later);
            Saves(rows, rows', id, draft, saved) && (saved ==> Authorized(gw, grants, id, draft, later))
  {
    SaveMovesRows(rows, id, draft, now);
  }

  lemma SavesMoveRows(gw: Gateway, s: State, s': State, later: int, saved: bool)
    requires s.pending.Some?
    requires s' == s.(rows := s'.rows, pending := None, clock := later)
    requires Saves(s.rows, s'.rows, s.pending.value.id, s.pending.value.draft, saved)
    requires saved ==> Authorized(gw, s.grants, s.pending.value.id, s.pending.value.draft, later)
    ensures RowsMove(gw, s, s', Finish(later))
  {
  }

  lemma FinishMovesRows(gw: Gateway, s: State, later: int)
    ensures RowsMove(gw, s, Next(gw, s, Finish(later)), Finish(later))
  {
    if s.pending.Some? {
      var p := s.pending.value;
      CommitMovesRows(gw, s.rows, s.grants, p.id, p.draft, p.now, later);
      SavesMoveRows(gw, s, Next(gw, s, Finish(later)), later,
                    Commit(gw, s.rows, s.grants, p.id, p.draft, p.now, later).1);
    }
  }

  lemma {:induction false} StepMovesRows(gw: Gateway, s: State, op: Op)
    ensures RowsMove(gw, s, Next(gw, s, op), op)
  {
    match op
    case Finish(later) => FinishMovesRows(gw, s, later);
    case Begin(r) =>
      var s' := Next(gw, s, op);
      assert s'.rows == s.rows && s'.grants == s.grants;
    case _ =>
  }

  lemma RunMovesRows(gw: Gateway, h: History, n: nat)
    requires Legal(gw, h) && n < |h.ops|
    ensures RowsMove(gw, h.states[n], h.states[n + 1], h.ops[n])
    ensures h.states[n].clock <= TimeOf(h.ops[n])
  {
    assert Follows(gw, h, n);
    StepMovesRows(gw, h.states[n], h.ops[n]);
  }

  lemma BeginDraft(gw: Gateway, s: State, r: Request)
    ensures var p := Next(gw, s, Begin(r)).pending;
            p.Some? ==>
              && p.value.id == RequestedId(gw, r) && p.value.now == r.now
              && (p.value.kept ==> HasGeneration(s, p.value.id, p.value.draft.generation)
                                   && Authorized(gw, s.grants, p.value.id, s.rows[p.value.id], r.now))
              && (!p.value.kept ==> p.value.draft.generation == r.token)
  {
  }

  lemma TokenIsNew(gw: Gateway, h: History, n: nat, g: Token)
    requires Legal(gw, h) && n < |h.ops| && h.ops[n].Begin? && FromBegin(h, n, g)
    ensures h.ops[n].r.token != g
  {
    assert Follows(gw, h, n);
  }

  lemma FromBeginGrows(h: History, n: nat, m: nat, g: Token)
    requires n <= m <= |h.ops| && FromBegin(h, n, g)
    ensures FromBegin(h, m, g)
  {
  }

  lemma GrantWasLiveGrows(h: History, n: nat, g: GrantId)
    requires n + 1 < |h.states| && GrantWasLive(h, n, g)
    ensures GrantWasLive(h, n + 1, g)
  {
  }

  lemma StepKeepsRowsTraceable(gw: Gateway, h: History, n: nat, id: SubId)
    requires Legal(gw, h) && n < |h.ops| && Traceable(h, n) && id in h.states[n + 1].rows
    ensures FromBegin(h, n + 1, h.states[n + 1].rows[id].generation)
    ensures id.owner.OAuth? ==> GrantWasLive(h, n + 1, id.owner.grant)
  {
    var s, s', op := h.states[n], h.states[n + 1], h.ops[n];
    assert Follows(gw, h, n);
    StepMovesRows(gw, s, op);
    FromBeginGrows(h, n, n + 1, s'.rows[id].generation);
    if id.owner.OAuth? {
      if id in s.rows && s'.rows[id] == s.rows[id] {
        GrantWasLiveGrows(h, n, id.owner.grant);
      } else {
        assert id.owner.grant in s.grants;
      }
    }
  }

  /** A fresh token was never stored, because everything stored came from an earlier request. */
  lemma FreshTokenUnseen(gw: Gateway, h: History, n: nat, id: SubId)
    requires Legal(gw, h) && n < |h.ops| && h.ops[n].Begin?
    requires forall m: nat :: m <= n ==> Traceable(h, m)
    ensures !Seen(h, n, id, h.ops[n].r.token)
  {
    if Seen(h, n, id, h.ops[n].r.token) {
      var m :| 0 <= m <= n && HasGeneration(h.states[m], id, h.ops[n].r.token);
      assert Traceable(h, m);
      FromBeginGrows(h, m, n, h.ops[n].r.token);
      TokenIsNew(gw, h, n, h.ops[n].r.token);
    }
  }

  lemma StepKeepsPendingTraceable(gw: Gateway, h: History, n: nat)
    requires Legal(gw, h) && n < |h.ops|
    requires forall m: nat :: m <= n ==> Traceable(h, m)
    requires h.states[n + 1].pending.Some?
    ensures var p := h.states[n + 1].pending.value;
            && FromBegin(h, n + 1, p.draft.generation)
            && (p.kept ==> Seen(h, n + 1, p.id, p.draft.generation))
            && (!p.kept ==> NeverSeen(h, n + 1, p.draft.generation))
  {
    var s, s', op := h.states[n], h.states[n + 1], h.ops[n];
    var p := s'.pending.value;
    assert Follows(gw, h, n) && Traceable(h, n);
    StepMovesRows(gw, s, op);
    if op.Begin? {
      BeginDraft(gw, s, op.r);
      if p.kept {
        assert HasGeneration(h.states[n], p.id, p.draft.generation);
        FromBeginGrows(h, n, n + 1, p.draft.generation);
      }
    } else {
      FromBeginGrows(h, n, n + 1, p.draft.generation);
    }
    assert forall id :: HasGeneration(s', id, p.draft.generation) ==> HasGeneration(s, id, p.draft.generation);
    if p.kept {
      assert Seen(h, n, p.id, p.draft.generation);
      SeenGrows(h, n, p.id, p.draft.generation);
    } else {
      if op.Begin? {
        forall id
          ensures !Seen(h, n, id, p.draft.generation)
        {
          FreshTokenUnseen(gw, h, n, id);
        }
      }
      NeverSeenGrows(h, n, n + 1, p.draft.generation);
    }
  }

  lemma {:induction false} RunIsTraceable(gw: Gateway, h: History, n: nat)
    requires Legal(gw, h) && n <= |h.ops|
    ensures forall m: nat :: m <= n ==> Traceable(h, m)
  {
    if n > 0 {
      RunIsTraceable(gw, h, n - 1);
      forall id | id in h.states[n].rows
        ensures FromBegin(h, n, h.states[n].rows[id].generation)
        ensures id.owner.OAuth? ==> GrantWasLive(h, n, id.owner.grant)
      {
        StepKeepsRowsTraceable(gw, h, n - 1, id);
      }
      if h.states[n].pending.Some? {
        StepKeepsPendingTraceable(gw, h, n - 1);
      }
      assert Traceable(h, n);
    }
  }

  /** The guards of the save: the owner is still authorized and no quota is used up. */
  predicate SaveGoesThrough(gw: Gateway, s: State, p: Pending, later: int) {
    && Authorized(gw, s.grants, p.id, p.draft, later)
    && !LimitReached(s.rows - Expired(s.rows, p.now), p.id)
  }

  /** The save at `k` keeps the generation its request read. */
  predicate SavesKept(gw: Gateway, h: History, k: nat, id: SubId, g: Token)
    requires k < |h.ops| < |h.states|
  {
    var s := h.states[k];
    && h.ops[k].Finish? && s.pending.Some?
    && s.pending.value.id == id && s.pending.value.kept && s.pending.value.draft.generation == g
    && SaveGoesThrough(gw, s, s.pending.value, h.ops[k].later)
  }

  /** The save at `k` restores a kept generation whose row has gone or ended by the time of the save. */
  predicate DisturbedSave(gw: Gateway, h: History, k: nat, id: SubId, g: Token)
    requires k < |h.ops| < |h.states|
  {
    SavesKept(gw, h, k, id, g) && !Live(gw, h.states[k], id, g, h.ops[k].later)
  }

  /** The generation was stored before; the step makes it deliverable at an instant at which it was not. */
  predicate RevivedAt(gw: Gateway, h: History, k: nat, id: SubId, g: Token)
    requires k < |h.ops| < |h.states|
  {
    var now := TimeOf(h.ops[k]);
    Seen(h, k, id, g) && !Live(gw, h.states[k], id, g, now) && Live(gw, h.states[k + 1], id, g, now)
  }

  lemma AuthorizedEarlier(gw: Gateway, h: History, k: nat, id: SubId, sub: Subscription, now: int)
    requires Legal(gw, h) && k < |h.ops| && Traceable(h, k)
    requires id in h.states[k].rows
    requires Authorized(gw, h.states[k + 1].grants, id, sub, now)
    ensures Authorized(gw, h.states[k].grants, id, sub, now)
  {
    var s, op := h.states[k], h.ops[k];
    assert Follows(gw, h, k);
    StepMovesRows(gw, s, op);
    if id.owner.OAuth? && op.GrantsBecome? {
      var g := id.owner.grant;
      assert GrantWasLive(h, k, g);
      var m :| 0 <= m <= k && g in h.states[m].grants;
      assert h.states[..k + 1][m] == h.states[m] && Last(h.states[..k + 1]) == s;
    }
  }

  lemma RevivalIsDisturbedSave(gw: Gateway, h: History, k: nat, id: SubId, g: Token)
    requires Legal(gw, h) && k < |h.ops| && Traceable(h, k)
    requires RevivedAt(gw, h, k, id, g)
    ensures DisturbedSave(gw, h, k, id, g)
  {
    var s, s', op := h.states[k], h.states[k + 1], h.ops[k];
    assert Follows(gw, h, k);
    StepMovesRows(gw, s, op);
    if id in s.rows && s'.rows[id] == s.rows[id] {
      AuthorizedEarlier(gw, h, k, id, s.rows[id], TimeOf(op));
      assert false;
    } else {
      var p := s.pending.value;
      SaveMovesRows(s.rows, p.id, p.draft, p.now);
      assert !p.kept ==> NeverSeen(h, k, p.draft.generation);
    }
  }

  lemma {:induction false} DisturbedSaveRevives(gw: Gateway, h: History, k: nat, id: SubId, g: Token)
    requires Legal(gw, h) && k < |h.ops| && Traceable(h, k)
    requires DisturbedSave(gw, h, k, id, g)
    ensures RevivedAt(gw, h, k, id, g)
  {
    var s, s', op := h.states[k], h.states[k + 1], h.ops[k];
    var p := s.pending.value;
    assert Follows(gw, h, k);
    SaveMovesRows(s.rows, p.id, p.draft, p.now);
    assert s'.rows == Save(s.rows, p.id, p.draft, p.now).0;
    assert s'.rows[id].expires == p.draft.expires;
    assert Authorized(gw, s'.grants, id, s'.rows[id], TimeOf(op));
  }

  /** A step makes a stored generation deliverable at an instant at which it was not exactly when it is a disturbed save. */
  lemma OnlyDisturbedSavesRevive(gw: Gateway, h: History, k: nat, id: SubId, g: Token)
    requires Legal(gw, h) && k < |h.ops|
    ensures RevivedAt(gw, h, k, id, g) <==> DisturbedSave(gw, h, k, id, g)
  {
    RunIsTraceable(gw, h, k);
    assert Traceable(h, k);
    if RevivedAt(gw, h, k, id, g) {
      RevivalIsDisturbedSave(gw, h, k, id, g);
    }
    if DisturbedSave(gw, h, k, id, g) {
      DisturbedSaveRevives(gw, h, k, id, g);
    }
  }

  /** Step `m` queued a job for the subscription with its generation, and step `n` posts that job. */
  predicate PostsJobOf(h: History, m: nat, n: nat, id: SubId, g: Token)
    requires m <= n < |h.ops| < |h.states|
  {
    && h.ops[m].Accepted? && id in MatchedBy(h.states[m].rows, h.states[m].grants, h.ops[m].e, h.ops[m].now)
    && h.states[m].rows[id].generation == g
    && h.ops[n].Post? && h.ops[n].id == id && h.ops[n].generation == g
  }

  /** Without a disturbed save of this very subscription and generation, a posted job's subscription was live until the time
      of every step. */
  lemma {:induction false} NoRevivedJobs(gw: Gateway, h: History, m: nat, n: nat, k: nat, id: SubId, g: Token)
    requires Legal(gw, h) && m <= k <= n < |h.ops| && PostsJobOf(h, m, n, id, g)
    requires forall j :: m <= j < n ==> !DisturbedSave(gw, h, j, id, g)
    ensures Live(gw, h.states[k], id, g, TimeOf(h.ops[k]))
    decreases n - k
  {
    assert Follows(gw, h, k);
    if k < n {
      assert Follows(gw, h, k + 1);
      NoRevivedJobs(gw, h, m, n, k + 1, id, g);
      OnlyDisturbedSavesRevive(gw, h, k, id, g);
      assert HasGeneration(h.states[m], id, g) && Seen(h, k, id, g);
    }
  }

  /** In the states from `m` to `n`, at every instant up to the step that ends the state, the subscription was live. */
  ghost predicate LiveThroughout(gw: Gateway, h: History, m: nat, n: nat, id: SubId, g: Token)
    requires n < |h.ops| < |h.states|
  {
    forall k: nat, t: int :: m <= k <= n && t <= TimeOf(h.ops[k]) ==> Live(gw, h.states[k], id, g, t)
  }

  /** If a callback is posted for a job of generation g, the subscription was live with g at every instant since the job was
      queued, exactly when no save in between restored that generation after its row had gone or ended. */
  lemma {:induction false} NoRevivedJobsExactly(gw: Gateway, h: History, m: nat, n: nat, id: SubId, g: Token)
    requires Legal(gw, h) && m <= n < |h.ops| && PostsJobOf(h, m, n, id, g)
    ensures LiveThroughout(gw, h, m, n, id, g) <==>
            forall j: nat :: m <= j < n ==> !DisturbedSave(gw, h, j, id, g)
  {
    if forall j: nat :: m <= j < n ==> !DisturbedSave(gw, h, j, id, g) {
      forall k: nat, t: int | m <= k <= n && t <= TimeOf(h.ops[k])
        ensures Live(gw, h.states[k], id, g, t)
      {
        NoRevivedJobs(gw, h, m, n, k, id, g);
      }
    } else {
      var j: nat :| m <= j < n && DisturbedSave(gw, h, j, id, g);
      assert !Live(gw, h.states[j], id, g, TimeOf(h.ops[j]));
    }
  }

  /** A save of a kept generation that directly follows its read is disturbed exactly when the row it read has ended by then. */
  lemma AtomicSavesAreDisturbedByExpiry(gw: Gateway, h: History, k: nat, id: SubId, g: Token)
    requires Legal(gw, h) && 0 < k < |h.ops| && h.ops[k - 1].Begin? && SavesKept(gw, h, k, id, g)
    ensures HasGeneration(h.states[k], id, g)
    ensures DisturbedSave(gw, h, k, id, g) <==> h.states[k].rows[id].expires <= h.ops[k].later
  {
    assert Follows(gw, h, k - 1);
    BeginDraft(gw, h.states[k - 1], h.ops[k - 1].r);
  }
}
