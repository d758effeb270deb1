/** Refresh-token families over whole runs (section 4.14.2 of RFC 9700). */
module Families {
  import opened Domain
  import opened OAuth

  datatype Op =
    | Authorize(code: Token, challenge: string, redirect: string, resource: string, policy: string, now: int)
    | Redeem(code: Token, challenge: string, redirect: string, resource: string, policy: string,
             id: GrantId, access: Token, refresh: Token, now: int)
    | Refresh(presented: Token, policy: string, access: Token, refresh: Token, now: int)
    | Revoke(token: Token)
    | RevokeEverything

  ghost function Perform(t: Tables, op: Op): (Tables, Reply) {
    match op
    case Authorize(code, challenge, redirect, resource, policy, now) =>
      SaveCode(t, code, challenge, redirect, resource, policy, now)
    case Redeem(code, challenge, redirect, resource, policy, id, access, refresh, now) =>
      Exchange(t, code, challenge, redirect, resource, policy, id, access, refresh, now)
    case Refresh(presented, policy, access, refresh, now) => Rotate(t, presented, policy, access, refresh, now)
    case Revoke(token) => (RevokeToken(t, token), Ok)
    case RevokeEverything => (RevokeAll(t), Ok)
  }

  datatype History = History(ops: seq<Op>, tables: seq<Tables>)

  predicate Mints(op: Op) {
    op.Redeem? || op.Refresh?
  }

  function Minted(op: Op): set<Token>
    requires Mints(op)
  {
    {op.access, op.refresh}
  }

  /** Random tokens and grant ids do not repeat. */
  predicate FreshTokens(h: History, n: nat)
    requires n < |h.ops|
  {
    Mints(h.ops[n]) ==>
      && h.ops[n].access != h.ops[n].refresh
      && (forall m :: 0 <= m < n && Mints(h.ops[m]) ==> Minted(h.ops[m]) !! Minted(h.ops[n]))
      && (forall m :: 0 <= m < n && h.ops[m].Redeem? && h.ops[n].Redeem? ==> h.ops[m].id != h.ops[n].id)
  }

  ghost predicate Follows(h: History, n: nat)
    requires n < |h.ops| && |h.tables| == |h.ops| + 1
  {
    FreshTokens(h, n) && h.tables[n + 1] == Perform(h.tables[n], h.ops[n]).0
  }

  ghost predicate Legal(h: History) {
    && |h.tables| == |h.ops| + 1
    && h.tables[0] == EmptyTables
    && forall n: nat :: n < |h.ops| ==> Follows(h, n)
  }

  /** The tokens step `n` hands out belong to grant `g`. */
  predicate IssuesTo(t: Tables, t': Tables, op: Op, g: GrantId) {
    Mints(op) && g in t'.grants && t'.grants[g].access == op.access && t'.grants[g].refresh == op.refresh
    && (g in t.grants ==> t.grants[g] != t'.grants[g])
  }

  /** The token pairs issued to `g` by the first `n` steps, oldest first. */
  function Issued(h: History, n: nat, g: GrantId): seq<(Token, Token)>
    requires n <= |h.ops| < |h.tables|
  {
    if n == 0 then []
    else if IssuesTo(h.tables[n - 1], h.tables[n], h.ops[n - 1], g) then
      Issued(h, n - 1, g) + [(h.ops[n - 1].access, h.ops[n - 1].refresh)]
    else Issued(h, n - 1, g)
  }

  /** What one step does to the row of one grant. */
  ghost predicate GrantMoves(t: Tables, t': Tables, op: Op, g: GrantId) {
    && (g in t'.grants && g !in t.grants ==>
          && op.Redeem? && op.id == g && IssuesTo(t, t', op, g)
          && t'.grants[g].expires == op.now + GRANT_LIFETIME && t'.grants[g].policy == op.policy
          && t'.grants[g].accessExpires == op.now + HOUR
          && (forall x :: x in t'.used ==> t'.used[x] != g))
    && (g in t'.grants && g in t.grants && t.grants[g] != t'.grants[g] ==>
          && op.Refresh? && op.presented == t.grants[g].refresh && op.presented !in t.used && IssuesTo(t, t', op, g)
          && t'.grants[g].accessExpires == op.now + HOUR
          && t'.grants[g].expires == t.grants[g].expires && t'.grants[g].policy == t.grants[g].policy
          && t'.used == t.used[op.presented := g])
    && (g in t'.grants && g in t.grants && t.grants[g] == t'.grants[g] ==>
          forall x :: x in t'.used && t'.used[x] == g <==> x in t.used && t.used[x] == g)
  }

  lemma ExchangeMoves(t: Tables, op: Op, g: GrantId)
    requires Constrained(t) && op.Redeem?
    ensures Constrained(Perform(t, op).0) && GrantMoves(t, Perform(t, op).0, op, g)
  {
  }

  lemma RotateMoves(t: Tables, op: Op, g: GrantId)
    requires Constrained(t) && op.Refresh?
    requires forall k :: k in t.grants ==> t.grants[k].access != op.access && t.grants[k].refresh != op.refresh
    ensures Constrained(Perform(t, op).0) && GrantMoves(t, Perform(t, op).0, op, g)
  {
    if op.presented !in t.used && exists k :: Refreshable(t, op.presented, op.policy, op.now, k) {
      var k :| Refreshable(t, op.presented, op.policy, op.now, k);
      RefreshableIsUnique(t, op.presented, op.policy, op.now, k);
    }
  }

  lemma DeletionMoves(t: Tables, op: Op, g: GrantId)
    requires Constrained(t) && !Mints(op)
    ensures Constrained(Perform(t, op).0) && GrantMoves(t, Perform(t, op).0, op, g)
  {
  }

  predicate FreshFor(t: Tables, op: Op) {
    Mints(op) ==> forall k :: k in t.grants ==> t.grants[k].access != op.access && t.grants[k].refresh != op.refresh
  }

  lemma StepMoves(t: Tables, op: Op, g: GrantId)
    requires Constrained(t) && FreshFor(t, op)
    ensures Constrained(Perform(t, op).0) && GrantMoves(t, Perform(t, op).0, op, g)
  {
    if op.Redeem? {
      ExchangeMoves(t, op, g);
    } else if op.Refresh? {
      RotateMoves(t, op, g);
    } else {
      DeletionMoves(t, op, g);
    }
  }

  predicate RetiredIn(pairs: seq<(Token, Token)>, x: Token) {
    exists i :: 0 <= i < |pairs| - 1 && pairs[i].1 == x
  }

  /** A live grant holds its newest pair, and its used_refresh rows are exactly its retired refresh tokens. */
  ghost predicate FamilyHolds(t: Tables, pairs: seq<(Token, Token)>, g: GrantId) {
    g in t.grants ==>
      && pairs != []
      && Last(pairs) == (t.grants[g].access, t.grants[g].refresh)
      && (forall x :: x in t.used && t.used[x] == g <==> RetiredIn(pairs, x))
  }

  /** Every issued pair was minted by an earlier step. */
  lemma {:induction false} IssuedWasMinted(h: History, n: nat, g: GrantId, i: nat)
    requires n <= |h.ops| < |h.tables| && i < |Issued(h, n, g)|
    ensures exists m :: 0 <= m < n && Mints(h.ops[m]) && (h.ops[m].access, h.ops[m].refresh) == Issued(h, n, g)[i]
  {
    if i < |Issued(h, n - 1, g)| {
      IssuedWasMinted(h, n - 1, g, i);
    }
  }

  lemma LiveTokensAreOld(h: History, n: nat, g: GrantId)
    requires Legal(h) && n < |h.ops| && Mints(h.ops[n])
    requires g in h.tables[n].grants && FamilyHolds(h.tables[n], Issued(h, n, g), g)
    ensures h.tables[n].grants[g].access != h.ops[n].access && h.tables[n].grants[g].refresh != h.ops[n].refresh
  {
    assert Follows(h, n);
    IssuedWasMinted(h, n, g, |Issued(h, n, g)| - 1);
    var m :| 0 <= m < n && Mints(h.ops[m]) && (h.ops[m].access, h.ops[m].refresh) == Last(Issued(h, n, g));
    assert h.ops[m].access in Minted(h.ops[m]) && h.ops[m].refresh in Minted(h.ops[m]);
  }

  /** A grant id that is not live and not yet redeemed has no issued pairs. */
  predicate IssuedOnlyIfRedeemed(h: History, n: nat, g: GrantId)
    requires n <= |h.ops| < |h.tables|
  {
    Issued(h, n, g) != [] ==> exists m :: 0 <= m < n && h.ops[m].Redeem? && h.ops[m].id == g
  }

  lemma FamilyStep(t: Tables, t': Tables, op: Op, g: GrantId, pairs: seq<(Token, Token)>, pairs': seq<(Token, Token)>)
    requires GrantMoves(t, t', op, g) && FamilyHolds(t, pairs, g)
    requires pairs' == if IssuesTo(t, t', op, g) then pairs + [(op.access, op.refresh)] else pairs
    requires g !in t.grants && g in t'.grants ==> pairs == []
    ensures FamilyHolds(t', pairs', g)
  {
    if g in t'.grants {
      if g in t.grants && t.grants[g] != t'.grants[g] {
        assert pairs'[..|pairs|] == pairs;
        forall x
          ensures RetiredIn(pairs', x) <==> RetiredIn(pairs, x) || x == op.presented
        {
          if RetiredIn(pairs, x) {
            var i :| 0 <= i < |pairs| - 1 && pairs[i].1 == x;
            assert pairs'[i].1 == x;
          }
          assert pairs'[|pairs| - 1].1 == op.presented;
        }
      }
    }
  }

  ghost predicate FamiliesHold(h: History, n: nat)
    requires n <= |h.ops| < |h.tables|
  {
    && Constrained(h.tables[n])
    && forall g: GrantId :: FamilyHolds(h.tables[n], Issued(h, n, g), g) && IssuedOnlyIfRedeemed(h, n, g)
  }

  lemma {:induction false} RunKeepsFamilies(h: History, n: nat)
    requires Legal(h) && n <= |h.ops|
    ensures FamiliesHold(h, n)
  {
    if n > 0 {
      RunKeepsFamilies(h, n - 1);
      var t, t', op := h.tables[n - 1], h.tables[n], h.ops[n - 1];
      StepKeepsConstraints(h, n - 1);
      forall g: GrantId
        ensures FamilyHolds(t', Issued(h, n, g), g) && IssuedOnlyIfRedeemed(h, n, g)
      {
        StepKeepsFamily(h, n - 1, g);
      }
    }
  }

  lemma FreshForStep(h: History, n: nat)
    requires Legal(h) && n < |h.ops| && FamiliesHold(h, n)
    ensures FreshFor(h.tables[n], h.ops[n])
  {
    if Mints(h.ops[n]) {
      forall k | k in h.tables[n].grants
        ensures h.tables[n].grants[k].access != h.ops[n].access && h.tables[n].grants[k].refresh != h.ops[n].refresh
      {
        LiveTokensAreOld(h, n, k);
      }
    }
  }

  lemma StepKeepsConstraints(h: History, n: nat)
    requires Legal(h) && n < |h.ops| && FamiliesHold(h, n)
    ensures Constrained(h.tables[n + 1])
  {
    assert Follows(h, n);
    FreshForStep(h, n);
    StepMoves(h.tables[n], h.ops[n], 0);
  }

  lemma GrantStep(h: History, n: nat, g: GrantId)
    requires Legal(h) && n < |h.ops| && FamiliesHold(h, n)
    ensures GrantMoves(h.tables[n], h.tables[n + 1], h.ops[n], g)
  {
    assert Follows(h, n);
    FreshForStep(h, n);
    StepMoves(h.tables[n], h.ops[n], g);
  }

  lemma StepKeepsFamily(h: History, n: nat, g: GrantId)
    requires Legal(h) && n < |h.ops| && FamiliesHold(h, n)
    ensures FamilyHolds(h.tables[n + 1], Issued(h, n + 1, g), g) && IssuedOnlyIfRedeemed(h, n + 1, g)
  {
    var t, t', op := h.tables[n], h.tables[n + 1], h.ops[n];
    GrantStep(h, n, g);
    assert FreshTokens(h, n) by {
      assert Follows(h, n);
    }
    if g !in t.grants && g in t'.grants && Issued(h, n, g) != [] {
      assert false;
    }
    FamilyStep(t, t', op, g, Issued(h, n, g), Issued(h, n + 1, g));
    if Issued(h, n + 1, g) != [] && Issued(h, n, g) == [] {
      assert FamilyHolds(t, Issued(h, n, g), g) && g !in t.grants;
      assert h.ops[n].Redeem? && h.ops[n].id == g;
    } else if Issued(h, n + 1, g) != [] {
      var m :| 0 <= m < n && h.ops[m].Redeem? && h.ops[m].id == g;
    }
  }

  /** A live grant's used_refresh rows are exactly the refresh tokens it has retired; its current one is not among them. */
  lemma UsedRowsAreTheRetiredTokens(h: History, n: nat, g: GrantId)
    requires Legal(h) && n <= |h.ops| && g in h.tables[n].grants
    ensures FamilyHolds(h.tables[n], Issued(h, n, g), g)
    ensures h.tables[n].grants[g].refresh !in h.tables[n].used
  {
    RunKeepsFamilies(h, n);
    CurrentIsNotUsed(h, n, g);
  }

  /** No two positions of any families carry the same refresh or access token. */
  lemma {:induction false} TokensAreDistinct(h: History, n: nat, g: GrantId, k: GrantId, i: nat, j: nat)
    requires Legal(h) && n <= |h.ops|
    requires i < |Issued(h, n, g)| && j < |Issued(h, n, k)|
    requires Issued(h, n, g)[i].0 == Issued(h, n, k)[j].0 || Issued(h, n, g)[i].1 == Issued(h, n, k)[j].1
    ensures g == k && i == j
  {
    var gs, ks := Issued(h, n - 1, g), Issued(h, n - 1, k);
    assert Follows(h, n - 1);
    if i < |gs| && j < |ks| {
      TokensAreDistinct(h, n - 1, g, k, i, j);
    } else if i < |gs| {
      NewPairIsNew(h, n - 1, g, i);
    } else if j < |ks| {
      NewPairIsNew(h, n - 1, k, j);
    } else {
      RunKeepsFamilies(h, n);
      assert g in h.tables[n].grants && k in h.tables[n].grants;
    }
  }

  lemma NewPairIsNew(h: History, n: nat, g: GrantId, i: nat)
    requires Legal(h) && n < |h.ops| && Mints(h.ops[n]) && i < |Issued(h, n, g)|
    ensures Issued(h, n, g)[i].0 != h.ops[n].access && Issued(h, n, g)[i].1 != h.ops[n].refresh
  {
    assert Follows(h, n);
    IssuedWasMinted(h, n, g, i);
    var m :| 0 <= m < n && Mints(h.ops[m]) && (h.ops[m].access, h.ops[m].refresh) == Issued(h, n, g)[i];
    assert h.ops[m].access in Minted(h.ops[m]) && h.ops[m].refresh in Minted(h.ops[m]);
  }

  lemma CurrentIsNotUsed(h: History, n: nat, g: GrantId)
    requires Legal(h) && n <= |h.ops| && g in h.tables[n].grants
    ensures h.tables[n].grants[g].refresh !in h.tables[n].used
  {
    RunKeepsFamilies(h, n);
    var t := h.tables[n];
    var x := t.grants[g].refresh;
    if x in t.used {
      var k := t.used[x];
      assert FamilyHolds(t, Issued(h, n, k), k) && FamilyHolds(t, Issued(h, n, g), g);
      var i :| 0 <= i < |Issued(h, n, k)| - 1 && Issued(h, n, k)[i].1 == x;
      TokensAreDistinct(h, n, g, k, |Issued(h, n, g)| - 1, i);
    }
  }

  /** Presenting any retired refresh token of a live grant deletes the grant. */
  lemma ReuseDeletesTheGrant(h: History, n: nat, g: GrantId)
    requires Legal(h) && n < |h.ops| && g in h.tables[n].grants
    requires h.ops[n].Refresh? && RetiredIn(Issued(h, n, g), h.ops[n].presented)
    ensures g !in h.tables[n + 1].grants
    ensures Perform(h.tables[n], h.ops[n]).1.InvalidGrant?
  {
    RunKeepsFamilies(h, n);
    assert FamilyHolds(h.tables[n], Issued(h, n, g), g);
    assert Follows(h, n);
  }

  predicate RefreshIn(pairs: seq<(Token, Token)>, x: Token) {
    exists i :: 0 <= i < |pairs| && pairs[i].1 == x
  }

  /** A revocation ends exactly the families that were ever issued the token for refreshing or hold it for access now; all
      others keep their grants. */
  lemma RevocationEndsTheFamily(h: History, n: nat, g: GrantId)
    requires Legal(h) && n < |h.ops| && h.ops[n].Revoke? && g in h.tables[n].grants
    ensures Issued(h, n, g) != []
    ensures g !in h.tables[n + 1].grants <==>
              RefreshIn(Issued(h, n, g), h.ops[n].token) || Last(Issued(h, n, g)).0 == h.ops[n].token
    ensures g in h.tables[n + 1].grants ==> h.tables[n + 1].grants[g] == h.tables[n].grants[g]
  {
    var pairs, token := Issued(h, n, g), h.ops[n].token;
    RunKeepsFamilies(h, n);
    assert FamilyHolds(h.tables[n], pairs, g);
    assert Follows(h, n);
    assert RefreshIn(pairs, token) <==> RetiredIn(pairs, token) || Last(pairs).1 == token;
  }

  /** A grant that was issued and is gone never comes back. */
  lemma {:induction false} DeadGrantsStayDead(h: History, m: nat, n: nat, g: GrantId)
    requires Legal(h) && m <= n <= |h.ops|
    requires Issued(h, m, g) != [] && g !in h.tables[m].grants
    ensures g !in h.tables[n].grants && Issued(h, n, g) == Issued(h, m, g)
  {
    if m < n {
      DeadGrantsStayDead(h, m, n - 1, g);
      RunKeepsFamilies(h, n - 1);
      GrantStep(h, n - 1, g);
      assert FreshTokens(h, n - 1) by {
        assert Follows(h, n - 1);
      }
      assert IssuedOnlyIfRedeemed(h, n - 1, g);
    }
  }

  /** An accepted access token is the newest one of a live grant, and so is a refresh token that rotates. */
  lemma OnlyNewestTokensWork(h: History, n: nat, g: GrantId, token: Token, policy: string, now: int)
    requires Legal(h) && n <= |h.ops|
    ensures Accepts(h.tables[n], token, policy, now, g) ==>
              g in h.tables[n].grants && Issued(h, n, g) != [] && Last(Issued(h, n, g)).0 == token
    ensures Refreshable(h.tables[n], token, policy, now, g) ==>
              g in h.tables[n].grants && Issued(h, n, g) != [] && Last(Issued(h, n, g)).1 == token
  {
    RunKeepsFamilies(h, n);
    assert FamilyHolds(h.tables[n], Issued(h, n, g), g);
  }

  /** Once a family is gone, no access or refresh token ever issued for it is accepted again, for any policy, at any time. */
  lemma DeadFamiliesAreRefused(h: History, m: nat, n: nat, g: GrantId, i: nat, policy: string, now: int)
    requires Legal(h) && m <= n <= |h.ops|
    requires g !in h.tables[m].grants && i < |Issued(h, m, g)|
    ensures forall k :: !Accepts(h.tables[n], Issued(h, m, g)[i].0, policy, now, k)
    ensures forall access, refresh ::
              Rotate(h.tables[n], Issued(h, m, g)[i].1, policy, access, refresh, now) == (h.tables[n], InvalidGrant)
  {
    DeadGrantsStayDead(h, m, n, g);
    RunKeepsFamilies(h, n);
    var t := h.tables[n];
    var pair := Issued(h, n, g)[i];
    forall k | k in t.grants
      ensures t.grants[k].access != pair.0 && t.grants[k].refresh != pair.1
    {
      assert FamilyHolds(t, Issued(h, n, k), k);
      if t.grants[k].access == pair.0 || t.grants[k].refresh == pair.1 {
        TokensAreDistinct(h, n, g, k, i, |Issued(h, n, k)| - 1);
      }
    }
    if pair.1 in t.used {
      var k := t.used[pair.1];
      assert FamilyHolds(t, Issued(h, n, k), k);
      var j :| 0 <= j < |Issued(h, n, k)| - 1 && Issued(h, n, k)[j].1 == pair.1;
      TokensAreDistinct(h, n, g, k, i, j);
    }
  }

  /** Rotation never extends a grant: it ends 30 days after its code was redeemed. */
  lemma {:induction false} GrantsEndOnTime(h: History, n: nat, g: GrantId)
    requires Legal(h) && n <= |h.ops| && g in h.tables[n].grants
    ensures exists m :: 0 <= m < n && h.ops[m].Redeem? && h.ops[m].id == g
                        && h.tables[n].grants[g].expires == h.ops[m].now + GRANT_LIFETIME
  {
    if n > 0 {
      RunKeepsFamilies(h, n - 1);
      GrantStep(h, n - 1, g);
      if g in h.tables[n - 1].grants {
        GrantsEndOnTime(h, n - 1, g);
      }
    }
  }

  /** No authorization between the two steps saves this code again; codes are random. */
  predicate NotSavedAgain(h: History, m: nat, n: nat, code: Token)
    requires n <= |h.ops|
  {
    forall k :: m < k < n && h.ops[k].Authorize? ==> h.ops[k].code != code
  }

  lemma {:induction false} SpentCodesStaySpent(h: History, m: nat, n: nat, code: Token)
    requires Legal(h) && m < n <= |h.ops| && NotSavedAgain(h, m, n, code)
    requires code !in h.tables[m + 1].codes
    ensures code !in h.tables[n].codes
  {
    if m + 1 < n {
      SpentCodesStaySpent(h, m, n - 1, code);
      assert Follows(h, n - 1);
    }
  }

  /** An authorization code buys one grant: once redeemed, presenting it again is refused and changes nothing. */
  lemma CodesAreSpentOnce(h: History, m: nat, n: nat)
    requires Legal(h) && m < n < |h.ops| && h.ops[m].Redeem? && h.ops[n].Redeem?
    requires h.ops[m].code == h.ops[n].code && NotSavedAgain(h, m, n, h.ops[m].code)
    requires Perform(h.tables[m], h.ops[m]).1.Ok?
    ensures Perform(h.tables[n], h.ops[n]) == (h.tables[n], InvalidGrant)
  {
    assert Follows(h, m);
    SpentCodesStaySpent(h, m, n, h.ops[m].code);
  }

  lemma {:induction false} IssuedIsKept(h: History, m: nat, n: nat, g: GrantId)
    requires Legal(h) && m <= n <= |h.ops| && Issued(h, m, g) != []
    ensures Issued(h, n, g) != []
  {
    if m < n {
      IssuedIsKept(h, m, n - 1, g);
    }
  }

  /** A grant keeps its policy and its end while it lives, and its id is never used before or after. */
  lemma GrantsAreStable(h: History, m: nat, n: nat, g: GrantId)
    requires Legal(h) && m <= n < |h.ops| && g in h.tables[n + 1].grants
    ensures g in h.tables[n].grants ==>
              && h.tables[n + 1].grants[g].policy == h.tables[n].grants[g].policy
              && h.tables[n + 1].grants[g].expires == h.tables[n].grants[g].expires
    ensures g !in h.tables[n].grants ==> g !in h.tables[m].grants
  {
    RunKeepsFamilies(h, n);
    RunKeepsFamilies(h, m);
    GrantStep(h, n, g);
    if g !in h.tables[n].grants && g in h.tables[m].grants {
      assert FamilyHolds(h.tables[m], Issued(h, m, g), g);
      IssuedIsKept(h, m, n, g);
      DeadGrantsStayDead(h, n, n + 1, g);
      assert false;
    }
  }
}
