/** The events endpoint: subscribing with a callback challenge, and posting with live authorization. */
module Events {
  import opened Domain
  import opened Subscriptions
  import opened Store
  import WorkerRuns
  import OAuth

  datatype SubscribeReply = Subscribed(id: SubId) | InvalidArguments | ChallengeFailed | Unavailable

  /** What other requests, workers and the clean-up do to the tables while a callback is challenged; any function is allowed. */
  type Interference = (Rows, OAuth.Tables) -> (Rows, OAuth.Tables)

  /** A map as the entries over a set of its keys. */
  lemma KeptEntries(cache: Cache, seen: set<CacheKey>, now: int)
    requires seen == cache.Keys
    ensures (map k | k in cache && (k !in seen || now < cache[k]) :: cache[k]) == Swept(cache, now)
  {
  }

  class Events {
    const gateway: Gateway
    const store: Store
    var cache: Cache

    constructor (gateway: Gateway, store: Store)
      ensures this.gateway == gateway && this.store == store && cache == map[]
    {
      this.gateway := gateway;
      this.store := store;
      cache := map[];
    }

    /** Drops the cached proofs that are over. */
    method SweepCache(now: int)
      modifies this`cache
      ensures cache == Swept(old(cache), now)
    {
      var waiting := cache.Keys;
      ghost var seen: set<CacheKey> := {};
      while waiting != {}
        invariant seen + waiting == old(cache).Keys && seen !! waiting
        invariant cache == map k | k in old(cache) && (k !in seen || now < old(cache)[k]) :: old(cache)[k]
        decreases |waiting|
      {
        var key :| key in waiting;
        if key in cache && cache[key] <= now {
          cache := cache - {key};
        }
        waiting := waiting - {key};
        seen := seen + {key};
      }
      KeptEntries(old(cache), seen, now);
    }

    /** Finds a recent proof that the callback is willing, or challenges it; None when the challenge fails. */
    method ProveCallback(standing: Option<Subscription>, r: Request) returns (verified: Option<int>)
      modifies this`cache
      ensures verified.None? <==> Challenges(old(cache), standing, r) && !r.echoed
      ensures verified.None? ==> cache == Swept(old(cache), r.now)
      ensures verified.Some? ==>
                cache == CacheAfter(old(cache), standing, r) && verified.value == VerifiedTime(old(cache), standing, r)
    {
      SweepCache(r.now);
      var key := CacheKey(r.owner, r.url, r.secret);
      if standing.Some? && standing.value.secret == r.secret && r.now - standing.value.verified < PROOF_LIFETIME {
        return Some(standing.value.verified);
      }
      if key in cache {
        return Some(cache[key] - PROOF_LIFETIME);
      }
      if !r.echoed {
        return None;
      }
      if |cache| < CACHE_LIMIT {
        cache := cache[key := r.now + PROOF_LIFETIME];
      }
      return Some(r.now);
    }

    /** Builds the row that a proved request saves. */
    method DraftRow(standing: Option<Subscription>, r: Request, verified: int) returns (draft: Subscription)
      ensures draft == Subscription(if standing.Some? then standing.value.generation else r.token, RouteText(gateway, r),
                                    r.secret, RotatedOut(standing, r), r.now + Lifetime(r), verified)
    {
      var ttl := DAY;
      if r.ttl.Some? && r.ttl.value < ttl {
        ttl := r.ttl.value;
      }
      var generation := r.token;
      if standing.Some? {
        generation := standing.value.generation;
      }
      var previous: Option<(string, int)> := None;
      if standing.Some? && standing.value.secret != r.secret {
        previous := Some((standing.value.secret, r.now + PROOF_LIFETIME));
      } else if standing.Some? && standing.value.previous.Some? && r.now < standing.value.previous.value.1 {
        previous := standing.value.previous;
      }
      draft := Subscription(generation, RouteText(gateway, r), r.secret, previous, r.now + ttl, verified);
    }

    /** The first half of a subscribe request. */
    method PrepareRow(r: Request) returns (draft: Option<Subscription>)
      requires Acceptable(gateway, r)
      modifies this`cache
      ensures cache == Prepare(gateway, store.rows, store.oauth.grants, old(cache), r).cache
      ensures draft == Prepare(gateway, store.rows, store.oauth.grants, old(cache), r).draft
    {
      var id := RequestedId(gateway, r);
      var standing: Option<Subscription> := None;
      if id in store.rows && Authorized(gateway, store.oauth.grants, id, store.rows[id], r.now) {
        standing := Some(store.rows[id]);
      }
      assert standing == Standing(gateway, store.rows, store.oauth.grants, r);
      var verified := ProveCallback(standing, r);
      if verified.None? {
        return None;
      }
      var row := DraftRow(standing, r, verified.value);
      return Some(row);
    }

    /** One subscribe request: read, challenge if needed while others go on, authorize again, save. */
    method Subscribe(r: Request, later: int, meanwhile: Interference) returns (reply: SubscribeReply)
      modifies this`cache, store`rows, store`oauth
      ensures var p := Prepare(gateway, old(store.rows), old(store.oauth).grants, old(cache), r);
              && cache == p.cache
              && (reply.InvalidArguments? <==> !Acceptable(gateway, r))
              && (reply.InvalidArguments? <==>
                    || (r.filters.route != "" && r.filters.route !in gateway.routes)
                    || r.secret == "" || (r.ttl.Some? && r.ttl.value <= 0))
              && (reply.ChallengeFailed? <==> Acceptable(gateway, r) && p.draft.None?)
      ensures !Acceptable(gateway, r) ==> store.rows == old(store.rows) && store.oauth == old(store.oauth)
      ensures Acceptable(gateway, r) ==>
                var id := RequestedId(gateway, r);
                var p := Prepare(gateway, old(store.rows), old(store.oauth).grants, old(cache), r);
                var (found, oauth) := meanwhile(old(store.rows), old(store.oauth));
                && store.oauth == oauth
                && (p.draft.None? ==> store.rows == found)
                && (p.draft.Some? ==>
                      (store.rows, reply == Subscribed(id))
                      == Commit(gateway, found, oauth.grants, id, p.draft.value, r.now, later))
    {
      if (r.filters.route != "" && r.filters.route !in gateway.routes) || r.secret == "" || (r.ttl.Some? && r.ttl.value <= 0) {
        return InvalidArguments;
      }
      var id := RequestedId(gateway, r);
      var draft := PrepareRow(r);
      var (found, oauth) := meanwhile(store.rows, store.oauth);
      store.rows, store.oauth := found, oauth;
      if draft.None? {
        return ChallengeFailed;
      }
      reply := SaveRow(id, draft.value, r.now, later);
    }

    /** The second half: authorization is read again before the row is saved. */
    method SaveRow(id: SubId, draft: Subscription, now: int, later: int) returns (reply: SubscribeReply)
      modifies store`rows
      ensures (store.rows, reply == Subscribed(id))
              == Commit(gateway, old(store.rows), store.oauth.grants, id, draft, now, later)
      ensures reply == Subscribed(id) || reply == Unavailable
    {
      if !Authorized(gateway, store.oauth.grants, id, draft, later) {
        return Unavailable;
      }
      var ok := store.SaveEventSubscription(id, draft, now);
      if !ok {
        return Unavailable;
      }
      return Subscribed(id);
    }

    method Unsubscribe(owner: Owner, url: string, filters: Filters)
      modifies store`rows
      ensures store.rows == Remove(old(store.rows), IdentityOf(gateway, owner, url, filters))
    {
      store.RemoveEventSubscription(IdentityOf(gateway, owner, url, filters));
    }

    /** The stored row, when a job of this generation may be posted now. */
    method Resolve(id: SubId, generation: Option<OAuth.Token>, now: int) returns (row: Option<Subscription>)
      ensures row.Some? <==> generation.Some? && Deliverable(gateway, store.rows, store.oauth.grants, id, generation.value, now)
      ensures row.Some? ==> row.value == store.rows[id]
    {
      if id !in store.rows || generation != Some(store.rows[id].generation)
         || !Authorized(gateway, store.oauth.grants, id, store.rows[id], now) {
        return None;
      }
      return Some(store.rows[id]);
    }

    /** Sends one claimed job: authorization is read when the sender is made, when it sends, and once more before the post.
        `response` is the callback's status code, None when it cannot be reached. */
    method Send(id: SubId, generation: Option<OAuth.Token>, made: int, sent: int, checked: int, response: Option<int>)
      returns (answer: WorkerRuns.Answer, posted: bool)
      modifies store`rows
      ensures posted <==>
                && generation.Some?
                && Deliverable(gateway, old(store.rows), store.oauth.grants, id, generation.value, made)
                && Deliverable(gateway, old(store.rows), store.oauth.grants, id, generation.value, sent)
                && Deliverable(gateway, old(store.rows), store.oauth.grants, id, generation.value, checked)
      ensures !posted ==> answer.Unavailable? || (answer.Rejected? && !answer.retryable)
      ensures answer.Delivered? <==> posted && response.Some? && 200 <= response.value < 300
      ensures posted && response.None? ==> answer.Rejected? && answer.retryable
      ensures posted && response.Some? && !(200 <= response.value < 300) ==>
                && answer.Rejected? && answer.code == response.value
                && (answer.retryable <==> response.value in {408, 425, 429} || 500 <= response.value)
      ensures store.rows == if posted && response == Some(410) then Remove(old(store.rows), id) else old(store.rows)
    {
      posted := false;
      var row := Resolve(id, generation, made);
      if row.None? {
        return WorkerRuns.Unavailable, false;
      }
      row := Resolve(id, generation, sent);
      if row.None? {
        return WorkerRuns.Rejected(0, false, "event subscription unavailable"), false;
      }
      if !Authorized(gateway, store.oauth.grants, id, row.value, checked) {
        return WorkerRuns.Rejected(0, false, "event subscription unavailable"), false;
      }
      posted := true;
      if response.None? {
        return WorkerRuns.Rejected(0, true, "event callback unavailable"), true;
      }
      var code := response.value;
      if code == 410 {
        store.RemoveEventSubscription(id);
      }
      if 200 <= code < 300 {
        return WorkerRuns.Delivered(code), true;
      }
      return WorkerRuns.Rejected(code, code == 408 || code == 425 || code == 429 || 500 <= code, "event callback rejected"), true;
    }
  }
}
