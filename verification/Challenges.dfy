/** Every stored verification time is the time of a real, recent challenge to the same callback with the same secret. */
module Challenges {
  import opened Domain
  import opened OAuth
  import opened Subscriptions
  import opened SubscriptionRuns
  import opened Generations

  /** Step `m` challenged this callback with this secret, and the callback echoed the challenge. */
  predicate ProvedBy(gw: Gateway, h: History, m: nat, key: CacheKey, at: int)
    requires m < |h.ops| < |h.states|
  {
    var s, op := h.states[m], h.ops[m];
    && op.Begin? && Acceptable(gw, op.r) && KeyOfRequest(op.r) == key && op.r.now == at
    && Subscriptions.Challenges(s.cache, Standing(gw, s.rows, s.grants, op.r), op.r) && op.r.echoed
  }

  ghost predicate Proved(gw: Gateway, h: History, n: nat, key: CacheKey, at: int)
    requires n <= |h.ops| < |h.states|
  {
    exists m: nat :: m < n && ProvedBy(gw, h, m, key, at)
  }

  function KeyOfRow(id: SubId, secret: string): CacheKey {
    CacheKey(id.owner, id.url, secret)
  }

  ghost predicate RowProved(gw: Gateway, h: History, n: nat, rows: Rows, id: SubId)
    requires n <= |h.ops| < |h.states|
  {
    id in rows ==> Proved(gw, h, n, KeyOfRow(id, rows[id].secret), rows[id].verified)
  }

  ghost predicate EntryProved(gw: Gateway, h: History, n: nat, cache: Cache, key: CacheKey)
    requires n <= |h.ops| < |h.states|
  {
    key in cache ==> Proved(gw, h, n, key, cache[key] - PROOF_LIFETIME)
  }

  ghost predicate HonestRows(gw: Gateway, h: History, n: nat, rows: Rows)
    requires n <= |h.ops| < |h.states|
  {
    forall id :: RowProved(gw, h, n, rows, id)
  }

  ghost predicate HonestCache(gw: Gateway, h: History, n: nat, cache: Cache)
    requires n <= |h.ops| < |h.states|
  {
    |cache| <= CACHE_LIMIT && forall key :: EntryProved(gw, h, n, cache, key)
  }

  ghost predicate HonestPending(gw: Gateway, h: History, n: nat, s: State)
    requires n <= |h.ops| < |h.states|
  {
    s.pending.Some? ==>
      var p := s.pending.value;
      && Proved(gw, h, n, KeyOfRow(p.id, p.draft.secret), p.draft.verified)
      && p.now - p.draft.verified < PROOF_LIFETIME
      && p.now <= s.clock
  }

  ghost predicate Honest(gw: Gateway, h: History, n: nat)
    requires n <= |h.ops| < |h.states|
  {
    var s := h.states[n];
    HonestRows(gw, h, n, s.rows) && HonestCache(gw, h, n, s.cache) && HonestPending(gw, h, n, s)
  }

  lemma ProvedGrows(gw: Gateway, h: History, n: nat, m: nat, key: CacheKey, at: int)
    requires n <= m <= |h.ops| < |h.states| && Proved(gw, h, n, key, at)
    ensures Proved(gw, h, m, key, at)
  {
  }

  lemma SweptIsSmaller(cache: Cache, now: int)
    ensures |Swept(cache, now)| <= |cache|
  {
    var kept := Swept(cache, now);
    assert kept.Keys <= cache.Keys;
    SubsetIsSmaller(kept.Keys, cache.Keys);
    assert |kept.Keys| == |kept| && |cache.Keys| == |cache|;
  }

  lemma CacheStaysSmall(cache: Cache, standing: Option<Subscription>, r: Request)
    requires |cache| <= CACHE_LIMIT
    ensures |CacheAfter(cache, standing, r)| <= CACHE_LIMIT && |Swept(cache, r.now)| <= CACHE_LIMIT
  {
    SweptIsSmaller(cache, r.now);
  }

  /** The three sources of a draft's verification time. */
  lemma DraftTime(gw: Gateway, s: State, r: Request)
    requires Next(gw, s, Begin(r)).pending.Some?
    ensures var p := Next(gw, s, Begin(r)).pending.value;
            var standing := Standing(gw, s.rows, s.grants, r);
            && Acceptable(gw, r)
            && KeyOfRow(p.id, p.draft.secret) == KeyOfRequest(r)
            && p.now == r.now
            && r.now - p.draft.verified < PROOF_LIFETIME
            && (|| (p.id in s.rows && s.rows[p.id].secret == r.secret && p.draft.verified == s.rows[p.id].verified)
                || (KeyOfRequest(r) in s.cache && p.draft.verified == s.cache[KeyOfRequest(r)] - PROOF_LIFETIME)
                || (Subscriptions.Challenges(s.cache, standing, r) && r.echoed && p.draft.verified == r.now))
  {
  }

  lemma CacheSources(gw: Gateway, s: State, r: Request, key: CacheKey)
    requires key in Next(gw, s, Begin(r)).cache
    ensures var cache := Next(gw, s, Begin(r)).cache;
            || (key in s.cache && cache[key] == s.cache[key])
            || (Acceptable(gw, r) && key == KeyOfRequest(r) && cache[key] == r.now + PROOF_LIFETIME
                && Subscriptions.Challenges(s.cache, Standing(gw, s.rows, s.grants, r), r) && r.echoed)
  {
  }

  lemma RowsStayHonest(gw: Gateway, h: History, n: nat, m: nat)
    requires Legal(gw, h) && m == n + 1 <= |h.ops| && Honest(gw, h, n)
    ensures HonestRows(gw, h, m, h.states[m].rows)
  {
    var s, s' := h.states[n], h.states[m];
    RunMovesRows(gw, h, n);
    forall id
      ensures RowProved(gw, h, m, s'.rows, id)
    {
      if id in s'.rows {
        assert RowProved(gw, h, n, s.rows, id);
        ProvedGrows(gw, h, n, m, KeyOfRow(id, s'.rows[id].secret), s'.rows[id].verified);
      }
    }
  }

  lemma BeginStep(gw: Gateway, h: History, n: nat)
    requires Legal(gw, h) && n < |h.ops| && h.ops[n].Begin?
    ensures h.states[n + 1] == Next(gw, h.states[n], h.ops[n])
  {
    assert Follows(gw, h, n);
  }

  lemma CacheUnchanged(gw: Gateway, h: History, n: nat)
    requires Legal(gw, h) && n < |h.ops| && !h.ops[n].Begin?
    ensures h.states[n + 1].cache == h.states[n].cache
  {
    assert Follows(gw, h, n);
  }

  lemma SizeAfter(gw: Gateway, s: State, r: Request)
    requires |s.cache| <= CACHE_LIMIT
    ensures |Next(gw, s, Begin(r)).cache| <= CACHE_LIMIT
  {
    CacheStaysSmall(s.cache, Standing(gw, s.rows, s.grants, r), r);
  }

  lemma EntryStaysHonest(gw: Gateway, h: History, n: nat, m: nat, key: CacheKey)
    requires Legal(gw, h) && m == n + 1 <= |h.ops| && EntryProved(gw, h, n, h.states[n].cache, key)
    ensures EntryProved(gw, h, m, h.states[m].cache, key)
  {
    var s, s' := h.states[n], h.states[m];
    if key in s'.cache {
      if h.ops[n].Begin? {
        BeginStep(gw, h, n);
        CacheSources(gw, s, h.ops[n].r, key);
      } else {
        CacheUnchanged(gw, h, n);
      }
      if key in s.cache && s'.cache[key] == s.cache[key] {
        ProvedGrows(gw, h, n, m, key, s.cache[key] - PROOF_LIFETIME);
      } else {
        assert ProvedBy(gw, h, n, key, h.ops[n].r.now);
      }
    }
  }

  lemma CacheStaysBounded(gw: Gateway, h: History, n: nat, m: nat)
    requires Legal(gw, h) && m == n + 1 <= |h.ops| && |h.states[n].cache| <= CACHE_LIMIT
    ensures |h.states[m].cache| <= CACHE_LIMIT
  {
    if h.ops[n].Begin? {
      BeginStep(gw, h, n);
      SizeAfter(gw, h.states[n], h.ops[n].r);
    } else {
      CacheUnchanged(gw, h, n);
    }
  }

  lemma CacheStaysHonest(gw: Gateway, h: History, n: nat, m: nat)
    requires Legal(gw, h) && m == n + 1 <= |h.ops| && Honest(gw, h, n)
    ensures HonestCache(gw, h, m, h.states[m].cache)
  {
    CacheStaysBounded(gw, h, n, m);
    forall key
      ensures EntryProved(gw, h, m, h.states[m].cache, key)
    {
      assert EntryProved(gw, h, n, h.states[n].cache, key);
      EntryStaysHonest(gw, h, n, m, key);
    }
  }

  /** A new draft takes its time from a stored row, from the cache or from the challenge of this very step. */
  lemma NewDraftIsProved(gw: Gateway, h: History, n: nat, m: nat)
    requires Legal(gw, h) && m == n + 1 <= |h.ops| && h.ops[n].Begin? && Honest(gw, h, n)
    requires h.states[m].pending.Some?
    ensures var p := h.states[m].pending.value;
            && Proved(gw, h, m, KeyOfRow(p.id, p.draft.secret), p.draft.verified)
            && p.now == h.ops[n].r.now && p.now - p.draft.verified < PROOF_LIFETIME
  {
    var s, r, p := h.states[n], h.ops[n].r, h.states[m].pending.value;
    BeginStep(gw, h, n);
    DraftTime(gw, s, r);
    assert RowProved(gw, h, n, s.rows, p.id) && EntryProved(gw, h, n, s.cache, KeyOfRequest(r));
    if p.id in s.rows && s.rows[p.id].secret == r.secret && p.draft.verified == s.rows[p.id].verified {
      ProvedGrows(gw, h, n, m, KeyOfRequest(r), p.draft.verified);
    } else if KeyOfRequest(r) in s.cache && p.draft.verified == s.cache[KeyOfRequest(r)] - PROOF_LIFETIME {
      ProvedGrows(gw, h, n, m, KeyOfRequest(r), p.draft.verified);
    } else {
      assert ProvedBy(gw, h, n, KeyOfRequest(r), r.now);
    }
  }

  lemma PendingStaysHonest(gw: Gateway, h: History, n: nat, m: nat)
    requires Legal(gw, h) && m == n + 1 <= |h.ops| && Honest(gw, h, n)
    ensures HonestPending(gw, h, m, h.states[m])
  {
    RunMovesRows(gw, h, n);
    if h.states[m].pending.Some? {
      if h.ops[n].Begin? {
        NewDraftIsProved(gw, h, n, m);
      } else {
        var p := h.states[n].pending.value;
        ProvedGrows(gw, h, n, m, KeyOfRow(p.id, p.draft.secret), p.draft.verified);
      }
    }
  }

  lemma {:induction false} RunIsHonest(gw: Gateway, h: History, n: nat)
    requires Legal(gw, h) && n <= |h.ops|
    ensures Honest(gw, h, n)
  {
    if n > 0 {
      RunIsHonest(gw, h, n - 1);
      RowsStayHonest(gw, h, n - 1, n);
      CacheStaysHonest(gw, h, n - 1, n);
      PendingStaysHonest(gw, h, n - 1, n);
    }
  }

  /** No chain of refreshes or cache hits stretches a proof: what is saved was proved by the same owner, callback and secret
      less than five minutes before the request that saves it. */
  lemma SavedProofsAreRecent(gw: Gateway, h: History, k: nat)
    requires Legal(gw, h) && k < |h.ops| && h.ops[k].Finish? && h.states[k].pending.Some?
    ensures var p := h.states[k].pending.value;
            && Proved(gw, h, k, CacheKey(p.id.owner, p.id.url, p.draft.secret), p.draft.verified)
            && p.now - p.draft.verified < 5 * MINUTE
            && p.now <= h.ops[k].later
  {
    RunIsHonest(gw, h, k);
    RunMovesRows(gw, h, k);
  }

  /** At any moment every stored subscription rests on a challenge that was answered, and the cache is bounded. */
  lemma StoredProofsAreReal(gw: Gateway, h: History, n: nat, id: SubId)
    requires Legal(gw, h) && n <= |h.ops|
    ensures id in h.states[n].rows ==>
              Proved(gw, h, n, CacheKey(id.owner, id.url, h.states[n].rows[id].secret), h.states[n].rows[id].verified)
    ensures |h.states[n].cache| <= 1000
  {
    RunIsHonest(gw, h, n);
    assert RowProved(gw, h, n, h.states[n].rows, id);
  }
}
