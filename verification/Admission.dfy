/** The nonce check and the rate limit together: how many requests of a client are admitted. */
module Admission {
  import opened Domain
  import opened Windows
  import Replay
  import RateBound

  function HitOf(r: Replay.Request): RateBound.Hit {
    RateBound.Hit("hmac:" + r.client, r.recorded, r.limit)
  }

  /** The requests that reach the rate limit: those with a new nonce. A replay is rolled back before it is counted. */
  function HitsOf(h: Replay.History, n: nat): (hits: RateBound.History)
    requires n <= |h.requests| < |h.gates|
    ensures |hits.tables| == |hits.hits| + 1
  {
    if n == 0 then RateBound.History([], [h.gates[0].rates])
    else
      var early := HitsOf(h, n - 1);
      if Replay.PassesNonceCheck(h, n - 1) then
        RateBound.History(early.hits + [HitOf(h.requests[n - 1])], early.tables + [h.gates[n].rates])
      else early
  }

  lemma {:induction false} HitsAreARun(h: Replay.History, n: nat, c: Replay.Config)
    requires Replay.Legal(h, c) && h.gates[0].rates == map[] && n <= |h.requests|
    ensures RateBound.Legal(HitsOf(h, n)) && Last(HitsOf(h, n).tables) == h.gates[n].rates
    ensures forall k, m :: 0 <= k < |HitsOf(h, n).hits| && n <= m < |h.requests| ==>
              HitsOf(h, n).hits[k].now <= h.requests[m].recorded
  {
    if n > 0 {
      var early, all := HitsOf(h, n - 1), HitsOf(h, n);
      HitsAreARun(h, n - 1, c);
      assert Replay.Follows(h, n - 1, c);
      forall m | n <= m < |h.requests|
        ensures h.requests[n - 1].recorded <= h.requests[m].recorded
      {
        assert Replay.Follows(h, m, c);
      }
      if Replay.PassesNonceCheck(h, n - 1) {
        forall k: nat | k < |all.hits|
          ensures RateBound.Follows(all, k)
        {
          if k < |early.hits| {
            assert RateBound.Follows(early, k);
          }
        }
      }
    }
  }

  predicate Admitted(h: Replay.History, n: nat, c: Replay.Config)
    requires n < |h.requests| < |h.gates|
  {
    Replay.Recorded(h.gates[n], h.requests[n], c).1.Admitted?
  }

  /** The requests of a client among the first `n` that were admitted in one minute bucket. */
  function AdmittedInBucket(h: Replay.History, n: nat, c: Replay.Config, client: string, bucket: int): nat
    requires n <= |h.requests| < |h.gates|
  {
    if n == 0 then 0
    else
      var r := h.requests[n - 1];
      AdmittedInBucket(h, n - 1, c, client, bucket)
      + if r.client == client && Bucket(r.recorded) == bucket && Admitted(h, n - 1, c) then 1 else 0
  }

  lemma {:induction false} EarlierHitsCountTheSame(a: RateBound.History, b: RateBound.History, n: nat, key: string, bucket: int)
    requires n <= |a.hits| < |a.tables| && n <= |b.hits| < |b.tables|
    requires a.hits[..n] == b.hits[..n] && a.tables[..n] == b.tables[..n]
    ensures RateBound.PassedInBucket(a, n, key, bucket) == RateBound.PassedInBucket(b, n, key, bucket)
  {
    if n > 0 {
      assert a.hits[..n - 1] == a.hits[..n][..n - 1] && b.hits[..n - 1] == b.hits[..n][..n - 1];
      assert a.tables[..n - 1] == a.tables[..n][..n - 1] && b.tables[..n - 1] == b.tables[..n][..n - 1];
      assert a.hits[n - 1] == a.hits[..n][n - 1] && b.hits[n - 1] == b.hits[..n][n - 1];
      assert a.tables[n - 1] == a.tables[..n][n - 1] && b.tables[n - 1] == b.tables[..n][n - 1];
      EarlierHitsCountTheSame(a, b, n - 1, key, bucket);
    }
  }

  lemma PrefixedKeys(a: string, b: string)
    ensures "hmac:" + a == "hmac:" + b <==> a == b
  {
    assert ("hmac:" + a)[5..] == a && ("hmac:" + b)[5..] == b;
  }

  lemma {:induction false} AdmittedIsPassed(h: Replay.History, n: nat, c: Replay.Config, client: string, bucket: int)
    requires Replay.Legal(h, c) && h.gates[0].rates == map[] && n <= |h.requests|
    ensures var hits := HitsOf(h, n);
            AdmittedInBucket(h, n, c, client, bucket) == RateBound.PassedInBucket(hits, |hits.hits|, "hmac:" + client, bucket)
  {
    if n > 0 {
      var early, all, r := HitsOf(h, n - 1), HitsOf(h, n), h.requests[n - 1];
      AdmittedIsPassed(h, n - 1, c, client, bucket);
      HitsAreARun(h, n - 1, c);
      PrefixedKeys(r.client, client);
      if Replay.PassesNonceCheck(h, n - 1) {
        assert all.tables[|early.hits|] == h.gates[n - 1].rates;
        assert all.tables[..|early.hits|] == early.tables[..|early.hits|];
        EarlierHitsCountTheSame(early, all, |early.hits|, "hmac:" + client, bucket);
      }
    }
  }

  predicate ConstantLimit(h: Replay.History, client: string, limit: int) {
    forall n :: 0 <= n < |h.requests| && h.requests[n].client == client ==> h.requests[n].limit == limit
  }

  lemma {:induction false} HitsKeepTheLimit(h: Replay.History, n: nat, client: string, limit: int)
    requires n <= |h.requests| < |h.gates| && ConstantLimit(h, client, limit)
    ensures RateBound.ConstantLimit(HitsOf(h, n), "hmac:" + client, limit)
  {
    if n > 0 {
      HitsKeepTheLimit(h, n - 1, client, limit);
      PrefixedKeys(h.requests[n - 1].client, client);
    }
  }

  /** However its requests are mixed with those of others and with replays, a client has at most its limit of them admitted per
      minute bucket. */
  lemma ClientsKeepTheirLimit(h: Replay.History, n: nat, c: Replay.Config, client: string, limit: int, bucket: int)
    requires Replay.Legal(h, c) && h.gates[0].rates == map[] && n <= |h.requests| && ConstantLimit(h, client, limit)
    ensures AdmittedInBucket(h, n, c, client, bucket) <= Max(limit, 0)
  {
    var hits := HitsOf(h, n);
    HitsAreARun(h, n, c);
    HitsKeepTheLimit(h, n, client, limit);
    AdmittedIsPassed(h, n, c, client, bucket);
    RateBound.LimitPerBucket(hits, |hits.hits|, "hmac:" + client, limit, bucket);
  }

  /** A request with a new nonce is turned away only when its own client has used up its limit in this minute. */
  lemma TurnedAwayByOwnRequestsOnly(h: Replay.History, n: nat, c: Replay.Config)
    requires Replay.Legal(h, c) && h.gates[0].rates == map[] && n < |h.requests|
    ensures var r := h.requests[n];
            Admitted(h, n, c) <==>
              Replay.PassesNonceCheck(h, n) && AdmittedInBucket(h, n, c, r.client, Bucket(r.recorded)) < r.limit
  {
    var r := h.requests[n];
    if Replay.PassesNonceCheck(h, n) {
      var early, all := HitsOf(h, n), HitsOf(h, n + 1);
      HitsAreARun(h, n, c);
      HitsAreARun(h, n + 1, c);
      AdmittedIsPassed(h, n, c, r.client, Bucket(r.recorded));
      assert all.tables[..|early.hits|] == early.tables[..|early.hits|];
      EarlierHitsCountTheSame(early, all, |early.hits|, "hmac:" + r.client, Bucket(r.recorded));
      RateBound.TurnedAwayOnlyWhenFull(all, |early.hits|);
      assert all.tables[|early.hits|] == h.gates[n].rates;
    }
  }
}
