/** The OAuth tables: single-use codes, grants with one access and one refresh token, and retired refresh tokens. */
module OAuth {
  import opened Domain

  /** Token digests are injective, so a token stands for its digest; 256-bit random values are numbers. */
  type Token = nat

  type GrantId = nat

  const MINUTE: int := 60000
  const HOUR: int := 60 * MINUTE
  const CODE_LIFETIME: int := 5 * MINUTE
  const GRANT_LIFETIME: int := 30 * 24 * HOUR

  datatype Code = Code(challenge: string, redirect: string, resource: string, policy: string, expires: int)

  datatype Grant = Grant(access: Token, refresh: Token, policy: string, accessExpires: int, expires: int)

  datatype Tables = Tables(codes: map<Token, Code>, grants: map<GrantId, Grant>, used: map<Token, GrantId>)

  const EmptyTables: Tables := Tables(map[], map[], map[])

  /** Conflict stands for a violated key or uniqueness constraint; the transaction is rolled back. */
  datatype Reply = Ok | InvalidGrant | Conflict

  /** Deleting grants deletes the retired tokens that reference them. */
  function DeleteGrants(t: Tables, gone: set<GrantId>): Tables {
    t.(grants := t.grants - gone,
       used := map h | h in t.used && t.used[h] !in gone :: t.used[h])
  }

  function ExpiredCodes(t: Tables, now: int): set<Token> {
    set c | c in t.codes && t.codes[c].expires <= now
  }

  function ExpiredGrants(t: Tables, now: int): set<GrantId> {
    set g | g in t.grants && t.grants[g].expires <= now
  }

  function SaveCode(t: Tables, hash: Token, challenge: string, redirect: string, resource: string, policy: string, now: int)
    : (Tables, Reply)
  {
    var clean := DeleteGrants(t.(codes := t.codes - ExpiredCodes(t, now)), ExpiredGrants(t, now));
    if hash in clean.codes then (t, Conflict)
    else (clean.(codes := clean.codes[hash := Code(challenge, redirect, resource, policy, now + CODE_LIFETIME)]), Ok)
  }

  predicate CodeMatches(c: Code, challenge: string, redirect: string, resource: string, policy: string, now: int) {
    c.challenge == challenge && c.redirect == redirect && c.resource == resource && c.policy == policy && now < c.expires
  }

  predicate AccessTaken(t: Tables, access: Token, except: set<GrantId>) {
    exists g :: g in t.grants && g !in except && t.grants[g].access == access
  }

  predicate RefreshTaken(t: Tables, refresh: Token, except: set<GrantId>) {
    exists g :: g in t.grants && g !in except && t.grants[g].refresh == refresh
  }

  function Exchange(t: Tables, hash: Token, challenge: string, redirect: string, resource: string, policy: string,
                    id: GrantId, access: Token, refresh: Token, now: int): (Tables, Reply)
  {
    if hash !in t.codes || !CodeMatches(t.codes[hash], challenge, redirect, resource, policy, now) then
      (t, InvalidGrant)
    else if id in t.grants || AccessTaken(t, access, {}) || RefreshTaken(t, refresh, {}) then
      (t, Conflict)
    else
      (t.(codes := t.codes - {hash},
          grants := t.grants[id := Grant(access, refresh, policy, now + HOUR, now + GRANT_LIFETIME)]), Ok)
  }

  /** The grant for which an access token is accepted. */
  predicate Accepts(t: Tables, access: Token, policy: string, now: int, g: GrantId) {
    && g in t.grants
    && t.grants[g].access == access && t.grants[g].policy == policy
    && now < t.grants[g].accessExpires && now < t.grants[g].expires
  }

  /** The grant a refresh token may rotate. */
  predicate Refreshable(t: Tables, refresh: Token, policy: string, now: int, g: GrantId) {
    && g in t.grants
    && t.grants[g].refresh == refresh && t.grants[g].policy == policy && now < t.grants[g].expires
  }

  /** The uniqueness and foreign-key constraints of the schema. */
  predicate Constrained(t: Tables) {
    && (forall g, k :: g in t.grants && k in t.grants && g != k ==>
          t.grants[g].access != t.grants[k].access && t.grants[g].refresh != t.grants[k].refresh)
    && (forall h :: h in t.used ==> t.used[h] in t.grants)
  }

  function RotateGrant(t: Tables, g: GrantId, access: Token, refresh: Token, now: int): Tables
    requires g in t.grants
  {
    t.(used := t.used[t.grants[g].refresh := g],
       grants := t.grants[g := t.grants[g].(access := access, refresh := refresh, accessExpires := now + HOUR)])
  }

  /** Presenting a retired refresh token deletes its grant; a current one is retired and replaced. */
  ghost function Rotate(t: Tables, presented: Token, policy: string, access: Token, refresh: Token, now: int): (Tables, Reply) {
    if presented in t.used then
      (DeleteGrants(t, {t.used[presented]}), InvalidGrant)
    else if !exists g :: Refreshable(t, presented, policy, now, g) then
      (t, InvalidGrant)
    else
      var g :| Refreshable(t, presented, policy, now, g);
      if AccessTaken(t, access, {g}) || RefreshTaken(t, refresh, {g}) then (t, Conflict)
      else (RotateGrant(t, g, access, refresh, now), Ok)
  }

  predicate RevokedBy(t: Tables, token: Token, g: GrantId)
    requires g in t.grants
  {
    t.grants[g].access == token || t.grants[g].refresh == token || (token in t.used && t.used[token] == g)
  }

  function RevokeToken(t: Tables, token: Token): Tables {
    DeleteGrants(t, set g | g in t.grants && RevokedBy(t, token, g))
  }

  function RevokeAll(t: Tables): Tables {
    DeleteGrants(t.(codes := map[]), t.grants.Keys)
  }

  /** The row is unique, so the choice in Rotate is no choice. */
  lemma RefreshableIsUnique(t: Tables, presented: Token, policy: string, now: int, g: GrantId)
    requires Constrained(t) && Refreshable(t, presented, policy, now, g) && presented !in t.used
    ensures forall access, refresh ::
              Rotate(t, presented, policy, access, refresh, now) ==
              if AccessTaken(t, access, {g}) || RefreshTaken(t, refresh, {g}) then (t, Conflict)
              else (RotateGrant(t, g, access, refresh, now), Ok)
  {
    forall k | Refreshable(t, presented, policy, now, k)
      ensures k == g
    {
    }
  }
}
