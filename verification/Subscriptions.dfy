/** Event subscriptions: who may hold one, which events it matches, and what a subscribe request prepares and saves. */
module Subscriptions {
  import opened Domain
  import opened OAuth
  import opened Routes

  const DAY: int := 24 * HOUR
  const PROOF_LIFETIME: int := 5 * MINUTE
  const CACHE_LIMIT: nat := 1000
  const SUBSCRIPTION_LIMIT: nat := 1000
  const OWNER_LIMIT: nat := 100

  /** The configuration of the events endpoint, fixed while the process runs. */
  datatype Gateway = Gateway(routes: seq<string>, staticOwner: Option<string>, staticPolicy: string, oauthPolicy: string)

  /** A row of the subscription table; secrets are stored encrypted and `previous` is the rotated-out secret with its end. */
  datatype Subscription = Subscription(
    generation: Token,
    routes: string,
    secret: string,
    previous: Option<(string, int)>,
    expires: int,
    verified: int)

  type Rows = map<SubId, Subscription>

  type Grants = map<GrantId, Grant>

  datatype CacheKey = CacheKey(owner: Owner, url: string, secret: string)

  type Cache = map<CacheKey, int>

  function PolicyOf(gw: Gateway, owner: Owner): string {
    match owner
    case Static(digest) => if gw.staticOwner == Some(digest) then gw.staticPolicy else ""
    case OAuth(_) => gw.oauthPolicy
  }

  function IdentityOf(gw: Gateway, owner: Owner, url: string, filters: Filters): SubId {
    SubId(owner, PolicyOf(gw, owner), url, filters)
  }

  predicate GrantActive(grants: Grants, g: GrantId, policy: string, now: int) {
    g in grants && grants[g].policy == policy && now < grants[g].expires
  }

  /** The subscription's owner may receive events now. */
  predicate OwnerActive(grants: Grants, id: SubId, now: int) {
    match id.owner
    case Static(_) => true
    case OAuth(g) => GrantActive(grants, g, id.policy, now)
  }

  predicate Authorized(gw: Gateway, grants: Grants, id: SubId, sub: Subscription, now: int) {
    && now < sub.expires
    && id.policy != "" && id.policy == PolicyOf(gw, id.owner)
    && OwnerActive(grants, id, now)
    && (id.owner.Static? ==> gw.staticOwner == Some(id.owner.digest))
  }

  /** The WHERE clause that picks the subscriptions of an accepted event. */
  predicate Matches(grants: Grants, id: SubId, sub: Subscription, e: Event, now: int) {
    && now < sub.expires
    && OwnerActive(grants, id, now)
    && Selects(sub.routes, e.route)
    && (id.filters.source == "" || id.filters.source == e.source)
    && (id.filters.severity.None? || id.filters.severity.value == e.severity)
    && (id.filters.status.None? || id.filters.status.value == e.status)
  }

  function MatchedBy(rows: Rows, grants: Grants, e: Event, now: int): set<SubId> {
    set id | id in rows && Matches(grants, id, rows[id], e, now)
  }

  function Expired(rows: Rows, now: int): set<SubId> {
    set id | id in rows && rows[id].expires <= now
  }

  predicate LimitReached(rows: Rows, id: SubId) {
    || |rows.Keys - {id}| >= SUBSCRIPTION_LIMIT
    || |set o | o in rows && o != id && o.owner == id.owner| >= OWNER_LIMIT
  }

  /** Expired rows go first; a full table rolls that back too. An existing row keeps its route text. */
  function Save(rows: Rows, id: SubId, sub: Subscription, now: int): (Rows, bool) {
    var live := rows - Expired(rows, now);
    if LimitReached(live, id) then (rows, false)
    else if id in live then (live[id := sub.(routes := live[id].routes)], true)
    else (live[id := sub], true)
  }

  function Remove(rows: Rows, id: SubId): Rows {
    rows - {id}
  }

  function PruneRows(rows: Rows, grants: Grants, now: int): Rows {
    rows - set id | id in rows && (rows[id].expires <= now || !OwnerActive(grants, id, now))
  }

  /** A claimed delivery may be posted: its generation is the live one and its owner is still authorized. */
  predicate Deliverable(gw: Gateway, rows: Rows, grants: Grants, id: SubId, generation: Token, now: int) {
    id in rows && rows[id].generation == generation && Authorized(gw, grants, id, rows[id], now)
  }

  /** A subscribe request after syntax checks. `token` is the random generation, `echoed` the callback's answer to a challenge. */
  datatype Request = Request(
    owner: Owner,
    url: string,
    filters: Filters,
    secret: string,
    ttl: Option<int>,
    now: int,
    token: Token,
    echoed: bool)

  function RequestedId(gw: Gateway, r: Request): SubId {
    IdentityOf(gw, r.owner, r.url, r.filters)
  }

  predicate Acceptable(gw: Gateway, r: Request) {
    && (r.filters.route == "" || r.filters.route in gw.routes)
    && r.secret != ""
    && (r.ttl.None? || 0 < r.ttl.value)
  }

  function Lifetime(r: Request): int {
    if r.ttl.Some? && r.ttl.value < DAY then r.ttl.value else DAY
  }

  /** The stored row, when it still authorizes its owner. */
  function Standing(gw: Gateway, rows: Rows, grants: Grants, r: Request): Option<Subscription> {
    var id := RequestedId(gw, r);
    if id in rows && Authorized(gw, grants, id, rows[id], r.now) then Some(rows[id]) else None
  }

  function Swept(cache: Cache, now: int): Cache {
    map k | k in cache && now < cache[k] :: cache[k]
  }

  function KeyOfRequest(r: Request): CacheKey {
    CacheKey(r.owner, r.url, r.secret)
  }

  predicate RecentlyProved(standing: Option<Subscription>, r: Request) {
    standing.Some? && standing.value.secret == r.secret && r.now - standing.value.verified < PROOF_LIFETIME
  }

  /** The request sends a challenge to the callback. */
  predicate Challenges(cache: Cache, standing: Option<Subscription>, r: Request) {
    !RecentlyProved(standing, r) && KeyOfRequest(r) !in Swept(cache, r.now)
  }

  function CacheAfter(cache: Cache, standing: Option<Subscription>, r: Request): Cache {
    var swept := Swept(cache, r.now);
    if Challenges(cache, standing, r) && r.echoed && |swept| < CACHE_LIMIT then
      swept[KeyOfRequest(r) := r.now + PROOF_LIFETIME]
    else swept
  }

  function VerifiedTime(cache: Cache, standing: Option<Subscription>, r: Request): int {
    if RecentlyProved(standing, r) then standing.value.verified
    else if KeyOfRequest(r) in Swept(cache, r.now) then cache[KeyOfRequest(r)] - PROOF_LIFETIME
    else r.now
  }

  /** A changed secret stays valid beside the new one for a while; an unfinished rotation is carried over. */
  function RotatedOut(standing: Option<Subscription>, r: Request): Option<(string, int)> {
    if standing.None? then None
    else if standing.value.secret != r.secret then Some((standing.value.secret, r.now + PROOF_LIFETIME))
    else if standing.value.previous.Some? && r.now < standing.value.previous.value.1 then standing.value.previous
    else None
  }

  function RouteText(gw: Gateway, r: Request): string {
    if r.filters.route != "" then r.filters.route else Join(gw.routes)
  }

  function Draft(gw: Gateway, cache: Cache, standing: Option<Subscription>, r: Request): Subscription {
    Subscription(
      if standing.Some? then standing.value.generation else r.token,
      RouteText(gw, r),
      r.secret,
      RotatedOut(standing, r),
      r.now + Lifetime(r),
      VerifiedTime(cache, standing, r))
  }

  /** The endpoint's cache after the first half of a subscribe request, and the row to save unless it was refused. */
  datatype Preparation = Preparation(cache: Cache, draft: Option<Subscription>, kept: bool)

  function Prepare(gw: Gateway, rows: Rows, grants: Grants, cache: Cache, r: Request): Preparation {
    if !Acceptable(gw, r) then Preparation(cache, None, false)
    else
      var standing := Standing(gw, rows, grants, r);
      if Challenges(cache, standing, r) && !r.echoed then Preparation(Swept(cache, r.now), None, false)
      else Preparation(CacheAfter(cache, standing, r), Some(Draft(gw, cache, standing, r)), standing.Some?)
  }

  /** The second half: authorization is read again after the challenge, then the row is saved. */
  function Commit(gw: Gateway, rows: Rows, grants: Grants, id: SubId, draft: Subscription, now: int, later: int): (Rows, bool) {
    if Authorized(gw, grants, id, draft, later) then Save(rows, id, draft, now) else (rows, false)
  }

  /** Removing a subscription stops every job queued for it, of any generation, and no other job. */
  lemma RemovalStopsItsJobs(gw: Gateway, rows: Rows, grants: Grants, id: SubId, o: SubId, generation: Token, now: int)
    ensures Deliverable(gw, Remove(rows, id), grants, o, generation, now) <==>
              o != id && Deliverable(gw, rows, grants, o, generation, now)
  {
  }

  /** The grants that own subscriptions only expire or disappear; an owner that is inactive now stays so. */
  predicate OwnersOnlyEnd(rows: Rows, grants: Grants, later: Grants) {
    forall id :: id in rows && id.owner.OAuth? && id.owner.grant in later ==>
      var g := id.owner.grant;
      g in grants && later[g].policy == grants[g].policy && later[g].expires <= grants[g].expires
  }

  /** The clean-up goes unnoticed: from then on the same jobs are delivered, the same events matched and the same rows refreshed. */
  lemma PruningGoesUnnoticed(gw: Gateway, rows: Rows, grants: Grants, now: int, later: Grants, after: int)
    requires now <= after && OwnersOnlyEnd(rows, grants, later)
    ensures forall id, generation ::
              Deliverable(gw, PruneRows(rows, grants, now), later, id, generation, after)
              <==> Deliverable(gw, rows, later, id, generation, after)
    ensures forall e :: MatchedBy(PruneRows(rows, grants, now), later, e, after) == MatchedBy(rows, later, e, after)
    ensures forall r: Request :: r.now == after ==>
              Standing(gw, PruneRows(rows, grants, now), later, r) == Standing(gw, rows, later, r)
  {
    var pruned := PruneRows(rows, grants, now);
    forall id | id in rows && id !in pruned
      ensures rows[id].expires <= after || !OwnerActive(later, id, after)
    {
    }
  }

  /** What a saved subscription selects: its own route, or any configured one. */
  lemma SavedRoutesSelectExactly(gw: Gateway, r: Request, route: string)
    requires CommaFree(route) && route != "" && CommaFree(r.filters.route)
    requires forall x :: x in gw.routes ==> CommaFree(x)
    ensures Selects(RouteText(gw, r), route) <==>
            if r.filters.route != "" then route == r.filters.route else route in gw.routes
  {
    if r.filters.route != "" {
      assert Join([r.filters.route]) == r.filters.route;
      TextSearchIsMembership([r.filters.route], route);
    } else {
      TextSearchIsMembership(gw.routes, route);
    }
  }

  // ----- the conditions, in terms of the stored columns -----

  /** The configured static owner under the static policy, or an unexpired grant under the OAuth policy. */
  predicate OwnerEntitled(gw: Gateway, grants: Grants, id: SubId, now: int) {
    && id.policy != ""
    && match id.owner
       case Static(digest) => gw.staticOwner == Some(digest) && id.policy == gw.staticPolicy
       case OAuth(g) =>
         id.policy == gw.oauthPolicy && g in grants && grants[g].policy == id.policy && now < grants[g].expires
  }

  /** A job may be posted exactly while its generation is stored, unexpired, and owned by someone entitled. */
  lemma DeliverableExactly(gw: Gateway, rows: Rows, grants: Grants, id: SubId, generation: Token, now: int)
    ensures Deliverable(gw, rows, grants, id, generation, now) <==>
              && id in rows && rows[id].generation == generation && now < rows[id].expires
              && OwnerEntitled(gw, grants, id, now)
  {
  }

  /** An event is queued for exactly the unexpired subscriptions that list its route, whose filters it meets, and whose grant,
      if they have one, is valid. */
  lemma MatchedExactly(rows: Rows, grants: Grants, e: Event, now: int, id: SubId)
    requires CommaFree(e.route)
    ensures id in MatchedBy(rows, grants, e, now) <==>
              && id in rows && now < rows[id].expires
              && (id.owner.OAuth? ==>
                    && id.owner.grant in grants && grants[id.owner.grant].policy == id.policy
                    && now < grants[id.owner.grant].expires)
              && e.route in Split(rows[id].routes)
              && (id.filters.source != "" ==> e.source == id.filters.source)
              && (id.filters.severity.Some? ==> e.severity == id.filters.severity.value)
              && (id.filters.status.Some? ==> e.status == id.filters.status.value)
  {
    if id in rows {
      SearchFindsPieces(rows[id].routes, e.route);
    }
  }

  /** The unexpired rows other than this one. */
  function Others(rows: Rows, id: SubId, now: int): set<SubId> {
    set o | o in rows && o != id && now < rows[o].expires
  }

  function OfOwner(ids: set<SubId>, owner: Owner): set<SubId> {
    set o | o in ids && o.owner == owner
  }

  lemma LimitExactly(rows: Rows, id: SubId, now: int)
    ensures LimitReached(rows - Expired(rows, now), id) <==>
              1000 <= |Others(rows, id, now)| || 100 <= |OfOwner(Others(rows, id, now), id.owner)|
  {
    var live := rows - Expired(rows, now);
    assert live.Keys - {id} == Others(rows, id, now);
    assert (set o | o in live && o != id && o.owner == id.owner) == OfOwner(Others(rows, id, now), id.owner);
  }

  lemma LiveRows(rows: Rows, now: int)
    ensures var live := rows - Expired(rows, now);
            forall o :: (o in live <==> o in rows && now < rows[o].expires) && (o in live ==> live[o] == rows[o])
  {
  }

  lemma StoredRow(rows: Rows, id: SubId, sub: Subscription, now: int)
    requires !LimitReached(rows - Expired(rows, now), id)
    ensures var rows', routes := Save(rows, id, sub, now).0,
                                 if id in rows && now < rows[id].expires then rows[id].routes else sub.routes;
            rows' == (rows - Expired(rows, now))[id := sub.(routes := routes)]
  {
    LiveRows(rows, now);
    assert sub.(routes := sub.routes) == sub;
  }

  /** A save is refused exactly when 1000 other unexpired subscriptions exist or 100 of the same owner, and then changes
      nothing; otherwise it leaves the unexpired ones and this one, whose routes do not change while it is stored. */
  lemma SavedExactly(rows: Rows, id: SubId, sub: Subscription, now: int)
    ensures var (rows', saved) := Save(rows, id, sub, now);
            && (saved <==> |Others(rows, id, now)| < 1000 && |OfOwner(Others(rows, id, now), id.owner)| < 100)
            && (!saved ==> rows' == rows)
            && (saved ==>
                  && (forall o :: o in rows' <==> o in Others(rows, id, now) || o == id)
                  && (forall o :: o in Others(rows, id, now) ==> rows'[o] == rows[o])
                  && rows'[id] == sub.(routes := if id in rows && now < rows[id].expires then rows[id].routes else sub.routes))
  {
    LimitExactly(rows, id, now);
    if !LimitReached(rows - Expired(rows, now), id) {
      StoredRow(rows, id, sub, now);
      LiveRows(rows, now);
    }
  }

  /** The callback is asked exactly when neither the row nor the cache has a proof of this secret from the last five minutes. */
  lemma ChallengedExactly(cache: Cache, standing: Option<Subscription>, r: Request)
    ensures Challenges(cache, standing, r) <==>
              && !(standing.Some? && standing.value.secret == r.secret && r.now < standing.value.verified + 300_000)
              && !(CacheKey(r.owner, r.url, r.secret) in cache && r.now < cache[CacheKey(r.owner, r.url, r.secret)])
  {
  }

  /** Entries that are over leave the cache; an answered challenge enters it for five minutes while there is room. */
  lemma CachedExactly(cache: Cache, standing: Option<Subscription>, r: Request)
    ensures var after, key := CacheAfter(cache, standing, r), CacheKey(r.owner, r.url, r.secret);
            var stores := Challenges(cache, standing, r) && r.echoed && |Swept(cache, r.now)| < 1000;
            && (forall k :: k in after <==> (k in cache && r.now < cache[k]) || (stores && k == key))
            && (forall k :: k in after && !(stores && k == key) ==> after[k] == cache[k])
            && (stores ==> after[key] == r.now + 300_000)
  {
  }

  /** The row a request saves: the standing generation or the new token, the asked route or all, the new secret beside the
      replaced or not yet retired one, an end after the asked time but at most a day. */
  lemma DraftExactly(gw: Gateway, cache: Cache, standing: Option<Subscription>, r: Request)
    ensures var d := Draft(gw, cache, standing, r);
            && d.generation == (if standing.Some? then standing.value.generation else r.token)
            && d.secret == r.secret
            && d.expires == r.now + (if r.ttl.Some? && r.ttl.value < 86_400_000 then r.ttl.value else 86_400_000)
            && d.previous == if standing.Some? && standing.value.secret != r.secret
                             then Some((standing.value.secret, r.now + 300_000))
                             else if standing.Some? && standing.value.previous.Some? && r.now < standing.value.previous.value.1
                             then standing.value.previous
                             else None
  {
  }

  /** A refresh addresses the same row exactly when owner, callback and filters are the same. */
  lemma SameRowExactly(gw: Gateway, r: Request, other: Request)
    ensures RequestedId(gw, r) == RequestedId(gw, other) <==>
              r.owner == other.owner && r.url == other.url && r.filters == other.filters
  {
  }
}
