/** The store: every public operation is one transaction over the tables. */
module Store {
  import opened Domain
  import opened Intake
  import opened Queue
  import opened Subscriptions
  import opened Database
  import opened Windows
  import OAuth

  datatype ClaimReply = NothingDue | ClaimOf(id: DeliveryId, row: Delivery, generation: Option<OAuth.Token>)

  datatype RetryReply = Revived | NotFound | InvalidState

  /** One deliveries row per distinct target, one more at a time. */
  lemma TargetRowsGrow(record: nat, targets: seq<string>, i: nat, base: nat, now: int)
    requires i < |targets|
    ensures TargetRows(record, targets[..i + 1], base, now)
            == TargetRows(record, targets[..i], base, now)[Random(base + i) := NewDelivery(record, Queue.Target(targets[i]), now)]
  {
  }

  lemma QueueGrows(q: Table, record: nat, targets: seq<string>, i: nat, base: nat, now: int)
    requires i < |targets|
    ensures q + TargetRows(record, targets[..i + 1], base, now)
            == (q + TargetRows(record, targets[..i], base, now))[Random(base + i) := NewDelivery(record, Queue.Target(targets[i]), now)]
  {
    TargetRowsGrow(record, targets, i, base, now);
  }

  /** The subscription has a pending delivery of the event, recorded with its generation. */
  predicate QueuedFor(q: Table, generations: map<DeliveryId, OAuth.Token>, rows: Rows, record: nat, s: SubId, now: int) {
    var id := ForSubscriber(record, s);
    && s in rows
    && id in q && q[id] == NewDelivery(record, Subscriber(s), now)
    && id in generations && generations[id] == rows[s].generation
  }

  /** What the two insert statements mean for each matching subscription. */
  lemma MatchesAreQueued(q: Table, generations: map<DeliveryId, OAuth.Token>, rows: Rows, record: nat, matched: set<SubId>,
                         now: int)
    requires matched <= rows.Keys
    ensures var q' := q + SubscriberRows(record, matched, now);
            forall s :: s in matched ==>
              QueuedFor(q', generations + GenerationRows(q', rows, record), rows, record, s, now)
  {
    var rowsAdded := SubscriberRows(record, matched, now);
    var q' := q + rowsAdded;
    forall s | s in matched
      ensures QueuedFor(q', generations + GenerationRows(q', rows, record), rows, record, s, now)
    {
      assert ForSubscriber(record, s) in rowsAdded;
      assert ForSubscriber(record, s) in GenerationRows(q', rows, record);
    }
  }

  /** The rows an admitted save leaves, by the columns its statement sets. */
  lemma SavedRows(before: Rows, live: Rows, id: SubId, sub: Subscription, now: int)
    requires live == before - Expired(before, now) && !LimitReached(live, id)
    ensures id in live ==>
              Save(before, id, sub, now) ==
              (live[id := live[id].(generation := sub.generation, secret := sub.secret, previous := sub.previous,
                                    expires := sub.expires, verified := sub.verified)], true)
    ensures id !in live ==> Save(before, id, sub, now) == (live[id := sub], true)
  {
    if id in live {
      assert live[id].(generation := sub.generation, secret := sub.secret, previous := sub.previous,
                       expires := sub.expires, verified := sub.verified) == sub.(routes := live[id].routes);
    }
  }

  /** The parts of a stored event put together. */
  lemma NewEventIsAccepted(before: Db, after: Db, p: Params)
    requires !Known(before.book.events, p.client, p.event.eventId)
    requires after.book == Accept(before.book, p, before.supply)
    requires after.rows == before.rows && after.oauth == before.oauth
    requires VerdictFor(before.book, p).outcome.Queued? ==>
               after.queue == FanOut(before, p).queue && after.generations == FanOut(before, p).generations
               && after.supply == FanOut(before, p).supply
    requires VerdictFor(before.book, p).outcome.Suppressed? ==>
               after.queue == before.queue && after.generations == before.generations && after.supply == before.supply + 1
    ensures after == Database.AcceptEvent(before, p).0
  {
  }

  lemma NewEventReply(before: Db, p: Params)
    requires !Known(before.book.events, p.client, p.event.eventId)
    ensures var v := VerdictFor(before.book, p);
            Database.AcceptEvent(before, p).1 ==
            AcceptResult(before.supply, OutcomeOf(v), v.reason, if v.outcome.Queued? then |Distinct(p.targets)| else 0, v.startedAt)
  {
  }

  /** Writing the verdict's row and record is what accepting does to the two event tables. */
  lemma BookAccepts(b: Book, incidents: map<Key, Incident>, p: Params, id: nat)
    requires !Known(b.events, p.client, p.event.eventId)
    requires var v := VerdictFor(b, p);
             incidents == if v.row.Some? then b.incidents[KeyOf(p.client, p.event) := v.row.value] else b.incidents
    ensures Book(b.events + [RecordOf(p, id, VerdictFor(b, p))], incidents) == Accept(b, p, id)
  {
  }

  class Store {
    var events: seq<Record>
    var incidents: map<Key, Incident>
    var queue: Table
    var generations: map<DeliveryId, OAuth.Token>
    var rows: Rows
    var oauth: OAuth.Tables
    var nonces: Nonces
    var rates: Rates
    var supply: nat

    /** The tables of intake, delivery, subscriptions and grants. */
    ghost function Contents(): Db
      reads this
    {
      Db(Book(events, incidents), queue, generations, rows, oauth, supply)
    }

    ghost function Guards(): Gate
      reads this
    {
      Gate(nonces, rates)
    }

    /** The uniqueness constraints of the grant table, which the database enforces on every write. */
    ghost predicate Valid()
      reads this
    {
      OAuth.Constrained(oauth)
    }

    constructor ()
      ensures Contents() == EmptyDb && Guards() == Gate(map[], map[]) && Valid()
    {
      events, incidents := [], map[];
      queue, generations := map[], map[];
      rows, oauth := map[], OAuth.EmptyTables;
      nonces, rates := map[], map[];
      supply := 0;
    }

    // ----- nonces and rates -----

    method RecordRequest(client: string, nonce: string, expires: int, now: int, limit: int) returns (reply: Reply)
      modifies this`nonces, this`rates
      ensures (Guards(), reply) == Windows.RecordRequest(old(Guards()), client, nonce, expires, now, limit)
    {
      var live := LiveNonces(nonces, now);
      if NonceKey(client, nonce) in live {
        return Replayed;
      }
      nonces := live[NonceKey(client, nonce) := expires];
      var exceeded := RecordRateWindow("hmac:" + client, now, limit);
      reply := if exceeded then RateLimited else Admitted;
    }

    method RecordRateLimit(key: string, now: int, limit: int) returns (reply: Reply)
      modifies this`rates
      ensures rates == RecordRate(old(rates), key, now, limit).0
      ensures reply == if RecordRate(old(rates), key, now, limit).1 then RateLimited else Admitted
    {
      var exceeded := RecordRateWindow(key, now, limit);
      reply := if exceeded then RateLimited else Admitted;
    }

    method RecordRateWindow(key: string, now: int, limit: int) returns (exceeded: bool)
      modifies this`rates
      ensures (rates, exceeded) == RecordRate(old(rates), key, now, limit)
      ensures forall k :: k in rates ==> Bucket(now) - 2 <= k.bucket
      ensures forall k :: k != RateKey(key, Bucket(now)) && k in old(rates) && Bucket(now) - 2 <= k.bucket ==>
                k in rates && rates[k] == old(rates)[k]
    {
      var bucket := Bucket(now);
      rates := LiveRates(rates, bucket);
      var row := RateKey(key, bucket);
      if row !in rates {
        if limit < 1 {
          return true;
        }
        rates := rates[row := 1];
        return false;
      }
      if limit <= rates[row] {
        return true;
      }
      rates := rates[row := rates[row] + 1];
      return false;
    }

    // ----- intake -----

    method NewId() returns (id: nat)
      modifies this`supply
      ensures id == old(supply) && supply == old(supply) + 1
    {
      id := supply;
      supply := supply + 1;
    }

    /** The lifecycle decision, writing the incident row it leads to. */
    method UpdateIncident(p: Params) returns (outcome: Outcome, reason: Reason, started: Option<int>)
      modifies this`incidents
      ensures var k := KeyOf(p.client, p.event);
              var v := Classify(events, Lookup(old(incidents), k), p);
              && outcome == v.outcome && reason == v.reason && started == v.startedAt
              && incidents == if v.row.Some? then old(incidents)[k := v.row.value] else old(incidents)
    {
      outcome, reason, started := Queued, NoReason, None;
      var k := KeyOf(p.client, p.event);
      if !p.event.status.Firing? && !p.event.status.Resolved? {
        assert k in incidents ==> incidents == incidents[k := incidents[k]];
        return;
      }
      var row := Lookup(incidents, k);
      var latest := Latest(events, k);
      var previousSeverity := 0;
      if FiringRow(row) {
        previousSeverity := Loudest(events, k, row.value.firstFiredAt);
      }
      if latest.Some? && p.event.occurredAt < latest.value {
        outcome, reason := Suppressed, StaleEvent;
        assert k in incidents ==> incidents == incidents[k := incidents[k]];
      } else if p.event.status.Firing? {
        if row.None? || row.value.state.IsResolved? {
          incidents := incidents[k := Incident(IsFiring, p.now, p.now, p.now)];
        } else if Rank(p.event.severity) <= previousSeverity && p.now - row.value.lastNotifiedAt < p.window {
          outcome, reason := Suppressed, InDedupeWindow;
          incidents := incidents[k := row.value.(lastSeenAt := p.now)];
        } else {
          incidents := incidents[k := row.value.(lastSeenAt := p.now, lastNotifiedAt := p.now)];
        }
      } else if row.None? || !row.value.state.IsFiring? {
        outcome, reason := Suppressed, OrphanResolved;
        assert k in incidents ==> incidents == incidents[k := incidents[k]];
      } else {
        started := Some(row.value.firstFiredAt);
        incidents := incidents[k := row.value.(state := IsResolved, lastSeenAt := p.now, lastNotifiedAt := p.now)];
      }
    }

    /** One delivery and one generation row per matching subscription. */
    method EnqueueEventSubscriptions(record: nat, p: Params)
      modifies this`queue, this`generations
      ensures queue == old(queue) + SubscriberRows(record, MatchedBy(rows, oauth.grants, p.event, p.now), p.now)
      ensures generations == old(generations) + GenerationRows(queue, rows, record)
    {
      queue := queue + SubscriberRows(record, MatchedBy(rows, oauth.grants, p.event, p.now), p.now);
      generations := generations + GenerationRows(queue, rows, record);
    }

    /** One delivery per distinct target. */
    method EnqueueTargets(record: nat, targets: seq<string>, now: int) returns (deliveries: nat)
      requires supply == record + 1
      modifies this`queue, this`supply
      ensures queue == old(queue) + TargetRows(record, targets, record + 1, now)
      ensures supply == record + 1 + |targets| && deliveries == |targets|
    {
      deliveries := 0;
      ghost var base := record + 1;
      assert queue == old(queue) + TargetRows(record, targets[..0], base, now);
      for i := 0 to |targets|
        invariant deliveries == i && supply == base + i
        invariant queue == old(queue) + TargetRows(record, targets[..i], base, now)
      {
        QueueGrows(old(queue), record, targets, i, base, now);
        var id := NewId();
        queue := queue[Random(id) := NewDelivery(record, Queue.Target(targets[i]), now)];
        deliveries := deliveries + 1;
      }
      assert targets[..|targets|] == targets;
    }

    /** The delivery part of accepting a queued event. */
    method EnqueueDeliveries(record: nat, p: Params) returns (deliveries: nat)
      requires supply == record + 1
      modifies this`queue, this`generations, this`supply
      ensures queue == FannedQueue(old(queue), record, Distinct(p.targets), MatchedBy(rows, oauth.grants, p.event, p.now), p.now)
      ensures generations == old(generations) + GenerationRows(queue, rows, record)
      ensures deliveries == |Distinct(p.targets)| && supply == record + 1 + deliveries
    {
      var targets := UniqueStrings(p.targets);
      deliveries := EnqueueTargets(record, targets, p.now);
      EnqueueEventSubscriptions(record, p);
    }

    /** Stores a new event under a fresh id and fans it out when it is queued. */
    method StoreEvent(p: Params, outcome: Outcome, started: Option<int>) returns (record: nat, deliveries: nat)
      modifies this`events, this`queue, this`generations, this`supply
      ensures record == old(supply)
      ensures events == old(events) + [Record(record, p.client, p.event, outcome, started, p.now)]
      ensures outcome.Queued? ==>
                && queue == FannedQueue(old(queue), record, Distinct(p.targets), MatchedBy(rows, oauth.grants, p.event, p.now), p.now)
                && generations == old(generations) + GenerationRows(queue, rows, record)
                && deliveries == |Distinct(p.targets)| && supply == record + 1 + deliveries
      ensures outcome.Suppressed? ==>
                queue == old(queue) && generations == old(generations) && deliveries == 0 && supply == record + 1
    {
      record := NewId();
      events := events + [Record(record, p.client, p.event, outcome, started, p.now)];
      deliveries := 0;
      if outcome.Queued? {
        deliveries := EnqueueDeliveries(record, p);
      }
    }

    method AcceptEvent(p: Params) returns (result: AcceptResult)
      modifies this`events, this`incidents, this`queue, this`generations, this`supply
      ensures Contents() == Database.AcceptEvent(old(Contents()), p).0
      ensures result == Database.AcceptEvent(old(Contents()), p).1
    {
      if Known(events, p.client, p.event.eventId) {
        var existing := IdOfKnown(events, p.client, p.event.eventId);
        return AcceptResult(existing, WasDuplicate, NoReason, |TargetDeliveries(queue, existing)|, None);
      }
      result := AcceptNewEvent(p);
    }

    /** The part of AcceptEvent after the duplicate check. */
    method AcceptNewEvent(p: Params) returns (result: AcceptResult)
      requires !Known(events, p.client, p.event.eventId)
      modifies this`events, this`incidents, this`queue, this`generations, this`supply
      ensures Contents() == Database.AcceptEvent(old(Contents()), p).0
      ensures result == Database.AcceptEvent(old(Contents()), p).1
    {
      ghost var before := Contents();
      ghost var v := VerdictFor(before.book, p);
      var outcome, reason, started := UpdateIncident(p);
      if p.suppress != "" && outcome.Queued? {
        outcome, reason := Suppressed, Requested(p.suppress);
      }
      assert outcome == v.outcome && reason == v.reason && started == v.startedAt;
      BookAccepts(before.book, incidents, p, before.supply);
      var record, deliveries := StoreEvent(p, outcome, started);
      NewEventIsAccepted(before, Contents(), p);
      NewEventReply(before, p);
      result := AcceptResult(record, if outcome.Queued? then WasQueued else WasSuppressed, reason, deliveries, started);
    }

    // ----- deliveries -----

    /** Leases some due delivery that is first in (next_attempt_at, created_at) order, if any is due. */
    method ClaimDelivery(now: int, lease: int) returns (claim: ClaimReply)
      modifies this`queue
      ensures claim.NothingDue? <==> forall id :: id in old(queue) ==> !Due(old(queue)[id], now)
      ensures claim.NothingDue? ==> queue == old(queue)
      ensures claim.ClaimOf? ==> claim.id in old(queue) && forall o :: o in old(queue) && Due(old(queue)[o], now) ==>
                var first, other := old(queue)[claim.id], old(queue)[o];
                first.next < other.next || (first.next == other.next && first.created <= other.created)
      ensures claim.ClaimOf? ==>
                && IsNext(old(queue), claim.id, now)
                && queue == Queue.Apply(old(queue), Act.Claim(claim.id, now), lease)
                && claim.row == queue[claim.id]
                && claim.generation == if claim.id in generations then Some(generations[claim.id]) else None
    {
      NextExists(queue, now);
      if forall id :: id in queue ==> !IsNext(queue, id, now) {
        return NothingDue;
      }
      var id :| id in queue && IsNext(queue, id, now);
      queue := queue[id := Claimed(queue[id], now, lease)];
      claim := ClaimOf(id, queue[id], if id in generations then Some(generations[id]) else None);
    }

    /** True when exactly one row changed. */
    method CompleteSuccess(id: DeliveryId, code: int, sentAt: int) returns (ok: bool)
      modifies this`queue
      ensures ok ==> id in old(queue) && id in queue
                     && queue[id] == old(queue)[id].(phase := Sent, lease := None, code := code, error := "",
                                                     sentAt := Some(sentAt))
      ensures queue == Succeed(old(queue), id, code, sentAt)
      ensures ok <==> SuccessApplies(old(queue), id)
    {
      if id in queue && queue[id].phase.Processing? {
        queue := queue[id := queue[id].(phase := Sent, lease := None, code := code, error := "", sentAt := Some(sentAt))];
        return true;
      }
      return false;
    }

    method CompleteFailure(id: DeliveryId, attempts: int, next: int, message: string, code: int, dead: bool) returns (ok: bool)
      modifies this`queue
      ensures ok ==> id in old(queue) && id in queue
                     && queue[id] == old(queue)[id].(phase := if dead then Dead else Retrying, lease := None, next := next,
                                                     code := code, error := Clip(message))
      ensures queue == Fail(old(queue), id, attempts, next, message, code, dead)
      ensures ok <==> FailureApplies(old(queue), id, attempts)
    {
      var phase := Retrying;
      if dead {
        phase := Dead;
      }
      var text := message;
      if 500 < |message| {
        text := message[..500];
      }
      if id in queue && queue[id].phase.Processing? && queue[id].attempts == attempts {
        queue := queue[id := queue[id].(phase := phase, lease := None, next := next, code := code, error := text)];
        return true;
      }
      return false;
    }

    method RetryDeadDelivery(id: DeliveryId, now: int) returns (reply: RetryReply)
      modifies this`queue
      ensures reply.Revived? ==> id in old(queue) && id in queue
                                 && queue[id] == old(queue)[id].(phase := Pending, attempts := 0, next := now, lease := None,
                                                                 code := 0, error := "", sentAt := None)
      ensures queue == Revive(old(queue), id, now)
      ensures reply == if id !in old(queue) then NotFound else if old(queue)[id].phase.Dead? then Revived else InvalidState
    {
      if id in queue && queue[id].phase.Dead? {
        queue := queue[id := queue[id].(phase := Pending, attempts := 0, next := now, lease := None, code := 0, error := "",
                                        sentAt := None)];
        return Revived;
      }
      if id !in queue {
        return NotFound;
      }
      return InvalidState;
    }

    /** Deletes old events without unfinished deliveries, with what hangs on them. */
    method Prune(before: int) returns (deleted: nat)
      modifies this`events, this`queue, this`generations
      ensures Contents() == PruneEvents(old(Contents()), before)
      ensures deleted == |old(events)| - |events|
    {
      var gone := set r | r in events && r.createdAt < before && !HasUnfinished(queue, r.id) :: r.id;
      WithoutIsShorter(events, gone);
      var kept := Without(events, gone);
      deleted := |events| - |kept|;
      events := kept;
      queue := map id | id in queue && queue[id].record !in gone :: queue[id];
      generations := map id | id in generations && id in queue :: generations[id];
      assert gone == Prunable(old(Contents()), before);
    }

    // ----- subscriptions -----

    method SaveEventSubscription(id: SubId, sub: Subscription, now: int) returns (ok: bool)
      modifies this`rows
      ensures (rows, ok) == Save(old(rows), id, sub, now)
    {
      ghost var before := rows;
      var live := rows - Expired(rows, now);
      if |live.Keys - {id}| >= SUBSCRIPTION_LIMIT {
        return false;
      }
      if |set o | o in live && o != id && o.owner == id.owner| >= OWNER_LIMIT {
        return false;
      }
      SavedRows(before, live, id, sub, now);
      if id in live {
        rows := live[id := live[id].(generation := sub.generation, secret := sub.secret, previous := sub.previous,
                                     expires := sub.expires, verified := sub.verified)];
      } else {
        rows := live[id := sub];
      }
      return true;
    }

    method RemoveEventSubscription(id: SubId)
      modifies this`rows
      ensures id !in rows && forall o :: o != id ==> (o in rows <==> o in old(rows)) && (o in rows ==> rows[o] == old(rows)[o])
      ensures rows == Remove(old(rows), id)
    {
      rows := rows - {id};
    }

    method PruneEventSubscriptions(now: int)
      modifies this`rows
      ensures forall id :: id in rows <==>
                id in old(rows) && now < old(rows)[id].expires && OwnerActive(oauth.grants, id, now)
      ensures forall id :: id in rows ==> rows[id] == old(rows)[id]
      ensures rows == PruneRows(old(rows), oauth.grants, now)
    {
      rows := rows - set id | id in rows && (rows[id].expires <= now || !OwnerActive(oauth.grants, id, now));
    }

    // ----- OAuth -----

    method DeleteGrants(gone: set<OAuth.GrantId>)
      requires Valid()
      modifies this`oauth
      ensures oauth == OAuth.DeleteGrants(old(oauth), gone) && Valid()
    {
      oauth := oauth.(grants := oauth.grants - gone,
                      used := map h | h in oauth.used && oauth.used[h] !in gone :: oauth.used[h]);
    }

    method SaveOAuthCode(hash: OAuth.Token, challenge: string, redirect: string, resource: string, policy: string, now: int)
      returns (reply: OAuth.Reply)
      requires Valid()
      modifies this`oauth
      ensures (oauth, reply) == OAuth.SaveCode(old(oauth), hash, challenge, redirect, resource, policy, now) && Valid()
      ensures reply.Ok? ==>
                && (forall c :: c in oauth.codes && c != hash <==> c in old(oauth).codes && c != hash && now < old(oauth).codes[c].expires)
                && (forall g :: g in oauth.grants <==> g in old(oauth).grants && now < old(oauth).grants[g].expires)
    {
      var rollback := oauth;
      oauth := oauth.(codes := oauth.codes - OAuth.ExpiredCodes(oauth, now));
      DeleteGrants(OAuth.ExpiredGrants(oauth, now));
      if hash in oauth.codes {
        oauth := rollback;
        return OAuth.Conflict;
      }
      oauth := oauth.(codes := oauth.codes[hash := OAuth.Code(challenge, redirect, resource, policy, now + OAuth.CODE_LIFETIME)]);
      return OAuth.Ok;
    }

    method ExchangeOAuthCode(hash: OAuth.Token, challenge: string, redirect: string, resource: string, policy: string,
                             id: OAuth.GrantId, access: OAuth.Token, refresh: OAuth.Token, now: int)
      returns (reply: OAuth.Reply)
      requires Valid()
      modifies this`oauth
      ensures (oauth, reply) == OAuth.Exchange(old(oauth), hash, challenge, redirect, resource, policy, id, access, refresh, now)
      ensures Valid()
    {
      if hash !in oauth.codes || !OAuth.CodeMatches(oauth.codes[hash], challenge, redirect, resource, policy, now) {
        return OAuth.InvalidGrant;
      }
      if id in oauth.grants || OAuth.AccessTaken(oauth, access, {}) || OAuth.RefreshTaken(oauth, refresh, {}) {
        return OAuth.Conflict;
      }
      oauth := oauth.(codes := oauth.codes - {hash});
      oauth := oauth.(grants := oauth.grants[id := OAuth.Grant(access, refresh, policy, now + OAuth.HOUR,
                                                               now + OAuth.GRANT_LIFETIME)]);
      return OAuth.Ok;
    }

    method OAuthAccess(hash: OAuth.Token, policy: string, now: int) returns (id: Option<OAuth.GrantId>)
      ensures id.Some? <==> exists g :: OAuth.Accepts(oauth, hash, policy, now, g)
      ensures id.Some? ==> OAuth.Accepts(oauth, hash, policy, now, id.value)
    {
      if g :| g in oauth.grants && OAuth.Accepts(oauth, hash, policy, now, g) {
        return Some(g);
      }
      return None;
    }

    method RotateOAuthRefresh(presented: OAuth.Token, policy: string, access: OAuth.Token, refresh: OAuth.Token, now: int)
      returns (reply: OAuth.Reply)
      requires Valid()
      modifies this`oauth
      ensures (oauth, reply) == OAuth.Rotate(old(oauth), presented, policy, access, refresh, now) && Valid()
    {
      if presented in oauth.used {
        DeleteGrants({oauth.used[presented]});
        return OAuth.InvalidGrant;
      }
      if g :| g in oauth.grants && OAuth.Refreshable(oauth, presented, policy, now, g) {
        OAuth.RefreshableIsUnique(oauth, presented, policy, now, g);
        if OAuth.AccessTaken(oauth, access, {g}) || OAuth.RefreshTaken(oauth, refresh, {g}) {
          return OAuth.Conflict;
        }
        oauth := oauth.(used := oauth.used[presented := g]);
        oauth := oauth.(grants := oauth.grants[g := oauth.grants[g].(access := access, refresh := refresh,
                                                                     accessExpires := now + OAuth.HOUR)]);
        return OAuth.Ok;
      }
      return OAuth.InvalidGrant;
    }

    method RevokeOAuthToken(hash: OAuth.Token)
      requires Valid()
      modifies this`oauth
      ensures forall g :: g in oauth.grants <==>
                && g in old(oauth.grants)
                && old(oauth.grants[g].access) != hash && old(oauth.grants[g].refresh) != hash
                && !(hash in old(oauth.used) && old(oauth.used[hash]) == g)
      ensures forall g :: g in oauth.grants ==> oauth.grants[g] == old(oauth.grants)[g]
      ensures oauth == OAuth.RevokeToken(old(oauth), hash) && Valid()
    {
      DeleteGrants(set g | g in oauth.grants && OAuth.RevokedBy(oauth, hash, g));
    }

    method RevokeAllOAuth()
      requires Valid()
      modifies this`oauth
      ensures oauth == OAuth.RevokeAll(old(oauth)) && Valid()
      ensures oauth == OAuth.EmptyTables
    {
      oauth := oauth.(codes := map[]);
      DeleteGrants(oauth.grants.Keys);
    }
  }

  lemma {:induction false} WithoutIsShorter(es: seq<Record>, gone: set<nat>)
    ensures |Without(es, gone)| <= |es|
  {
    if es != [] {
      WithoutIsShorter(Init(es), gone);
    }
  }
}
