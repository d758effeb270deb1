/** What a code, an access token and a refresh token must be to be accepted, over whole runs of the grant tables. */
module Credentials {
  import opened Domain
  import opened OAuth
  import opened Families

  ghost predicate Accepted(h: History, n: nat)
    requires n < |h.ops| < |h.tables|
  {
    Perform(h.tables[n], h.ops[n]).1.Ok?
  }

  // ----- authorization codes -----

  /** Step `k` uses the code up. */
  ghost predicate Spends(h: History, k: nat, code: Token)
    requires k < |h.ops| < |h.tables|
  {
    h.ops[k].RevokeEverything? || (h.ops[k].Redeem? && h.ops[k].code == code && Accepted(h, k))
  }

  /** Step `m` saved the code, and nothing has used it up before `n`. */
  ghost predicate InForce(h: History, m: nat, n: nat, code: Token)
    requires n <= |h.ops| < |h.tables|
  {
    && m < n && h.ops[m].Authorize? && h.ops[m].code == code && Accepted(h, m)
    && forall k: nat :: m < k < n ==> !Spends(h, k, code)
  }

  /** The stored code is what step `m` authorized. */
  predicate CodeOf(h: History, n: nat, code: Token, m: nat)
    requires m < |h.ops| && n < |h.tables|
  {
    && h.ops[m].Authorize? && code in h.tables[n].codes
    && h.tables[n].codes[code]
       == Code(h.ops[m].challenge, h.ops[m].redirect, h.ops[m].resource, h.ops[m].policy, h.ops[m].now + 300_000)
  }

  lemma CodeStep(h: History, n: nat, code: Token)
    requires Legal(h) && n < |h.ops| && code in h.tables[n + 1].codes
    ensures || (code in h.tables[n].codes && h.tables[n + 1].codes[code] == h.tables[n].codes[code] && !Spends(h, n, code))
            || (h.ops[n].Authorize? && h.ops[n].code == code && Accepted(h, n) && CodeOf(h, n + 1, code, n))
  {
    assert Follows(h, n);
  }

  lemma {:induction false} CodeProvenance(h: History, n: nat, code: Token) returns (m: nat)
    requires Legal(h) && n <= |h.ops| && code in h.tables[n].codes
    ensures InForce(h, m, n, code) && CodeOf(h, n, code, m)
  {
    CodeStep(h, n - 1, code);
    if h.ops[n - 1].Authorize? && h.ops[n - 1].code == code && Accepted(h, n - 1) && CodeOf(h, n, code, n - 1) {
      m := n - 1;
    } else {
      m := CodeProvenance(h, n - 1, code);
    }
  }

  /** The codes saved later are saved while this one is valid. */
  predicate NotSweptBefore(h: History, m: nat, n: nat)
    requires m < n <= |h.ops| && h.ops[m].Authorize?
  {
    forall k :: m < k < n && h.ops[k].Authorize? ==> h.ops[k].now < h.ops[m].now + 300_000
  }

  lemma {:induction false} CodeStays(h: History, m: nat, n: nat, code: Token)
    requires Legal(h) && n <= |h.ops| && InForce(h, m, n, code) && NotSweptBefore(h, m, n)
    ensures CodeOf(h, n, code, m)
  {
    assert Follows(h, n - 1);
    if m + 1 < n {
      CodeStays(h, m, n - 1, code);
      assert !Spends(h, n - 1, code);
    }
  }

  /** New tokens and ids are not taken, so a mint never conflicts. */
  lemma MintIsFree(h: History, n: nat)
    requires Legal(h) && n < |h.ops| && Mints(h.ops[n])
    ensures !AccessTaken(h.tables[n], h.ops[n].access, {}) && !RefreshTaken(h.tables[n], h.ops[n].refresh, {})
    ensures h.ops[n].Redeem? ==> h.ops[n].id !in h.tables[n].grants
  {
    RunKeepsFamilies(h, n);
    FreshForStep(h, n);
    assert Follows(h, n);
    if h.ops[n].Redeem? {
      var g := h.ops[n].id;
      assert FamilyHolds(h.tables[n], Issued(h, n, g), g) && IssuedOnlyIfRedeemed(h, n, g);
    }
  }

  /** The redemption at `n` presents what step `m` authorized, within five minutes. */
  predicate Presents(h: History, m: nat, n: nat)
    requires m < |h.ops| && n < |h.ops|
  {
    var a, r := h.ops[m], h.ops[n];
    && a.Authorize? && r.Redeem? && a.code == r.code
    && a.challenge == r.challenge && a.redirect == r.redirect && a.resource == r.resource && a.policy == r.policy
    && r.now < a.now + 300_000
  }

  /** The clock of the code table does not run past the redemption before it. */
  predicate InTime(h: History, n: nat)
    requires n < |h.ops| && h.ops[n].Redeem?
  {
    forall k :: 0 <= k < n && h.ops[k].Authorize? ==> h.ops[k].now <= h.ops[n].now
  }

  /** A code is redeemed exactly when a saved, unused authorization of it named the same challenge, redirect, resource and
      policy less than five minutes before; anything else is refused without effect. */
  lemma RedeemedExactly(h: History, n: nat)
    requires Legal(h) && n < |h.ops| && h.ops[n].Redeem? && InTime(h, n)
    ensures Accepted(h, n) <==> exists m: nat :: InForce(h, m, n, h.ops[n].code) && Presents(h, m, n)
    ensures !Accepted(h, n) ==> Perform(h.tables[n], h.ops[n]) == (h.tables[n], InvalidGrant)
  {
    MintIsFree(h, n);
    if Accepted(h, n) {
      var m := CodeProvenance(h, n, h.ops[n].code);
      assert Presents(h, m, n);
    }
    if m: nat :| InForce(h, m, n, h.ops[n].code) && Presents(h, m, n) {
      CodeStays(h, m, n, h.ops[n].code);
    }
  }

  // ----- tokens -----

  /** Step `r` redeemed the code of the live grant, and step `m` handed out its newest tokens. */
  predicate Holds(h: History, n: nat, g: GrantId, r: nat, m: nat)
    requires n <= |h.ops| < |h.tables|
  {
    && g in h.tables[n].grants
    && r <= m < n && h.ops[r].Redeem? && h.ops[r].id == g
    && Mints(h.ops[m]) && Issued(h, n, g) != [] && Last(Issued(h, n, g)) == (h.ops[m].access, h.ops[m].refresh)
  }

  /** The row says what these two steps gave it. */
  predicate RowOf(h: History, n: nat, g: GrantId, r: nat, m: nat)
    requires n <= |h.ops| < |h.tables| && Holds(h, n, g, r, m)
  {
    h.tables[n].grants[g] == Grant(h.ops[m].access, h.ops[m].refresh, h.ops[r].policy, h.ops[m].now + 3_600_000,
                                   h.ops[r].now + 2_592_000_000)
  }

  lemma {:induction false} GrantProvenance(h: History, n: nat, g: GrantId) returns (r: nat, m: nat)
    requires Legal(h) && n <= |h.ops| && g in h.tables[n].grants
    ensures Holds(h, n, g, r, m) && RowOf(h, n, g, r, m)
  {
    RunKeepsFamilies(h, n);
    assert FamilyHolds(h.tables[n], Issued(h, n, g), g);
    RunKeepsFamilies(h, n - 1);
    GrantStep(h, n - 1, g);
    if g !in h.tables[n - 1].grants {
      r, m := n - 1, n - 1;
    } else {
      r, m := GrantProvenance(h, n - 1, g);
      if h.tables[n].grants[g] != h.tables[n - 1].grants[g] {
        m := n - 1;
      }
    }
  }

  /** Grant ids and tokens are drawn once, so the two steps are determined. */
  lemma HolderIsUnique(h: History, n: nat, g: GrantId, r: nat, m: nat, r': nat, m': nat)
    requires Legal(h) && n <= |h.ops| && Holds(h, n, g, r, m) && Holds(h, n, g, r', m')
    ensures r == r' && m == m'
  {
    assert Follows(h, r) && Follows(h, r') && Follows(h, m) && Follows(h, m');
    assert h.ops[m].access in Minted(h.ops[m]) && h.ops[m'].access in Minted(h.ops[m']);
  }

  /** The token opens the grant that step `r` created, with its policy and before its end. */
  predicate Entitles(h: History, n: nat, g: GrantId, r: nat, m: nat, policy: string, now: int)
    requires n <= |h.ops| < |h.tables|
  {
    Holds(h, n, g, r, m) && policy == h.ops[r].policy && now < h.ops[r].now + 2_592_000_000
  }

  /** An access token is accepted exactly when it is the newest of a live grant, for the policy of its authorization, within an
      hour of the step that handed it out and thirty days of the redemption. */
  lemma AccessExactly(h: History, n: nat, token: Token, policy: string, now: int, g: GrantId)
    requires Legal(h) && n <= |h.ops|
    ensures Accepts(h.tables[n], token, policy, now, g) <==>
            exists r: nat, m: nat :: Entitles(h, n, g, r, m, policy, now) && h.ops[m].access == token
                                     && now < h.ops[m].now + 3_600_000
  {
    if g in h.tables[n].grants {
      var r, m := GrantProvenance(h, n, g);
      if r': nat, m': nat :| Entitles(h, n, g, r', m', policy, now) && h.ops[m'].access == token
                              && now < h.ops[m'].now + 3_600_000 {
        HolderIsUnique(h, n, g, r, m, r', m');
      }
      assert Accepts(h.tables[n], token, policy, now, g) ==> Entitles(h, n, g, r, m, policy, now);
    }
  }

  lemma RefreshableExactly(h: History, n: nat, token: Token, policy: string, now: int, g: GrantId)
    requires Legal(h) && n <= |h.ops|
    ensures Refreshable(h.tables[n], token, policy, now, g) <==>
            exists r: nat, m: nat :: Entitles(h, n, g, r, m, policy, now) && h.ops[m].refresh == token
  {
    if g in h.tables[n].grants {
      var r, m := GrantProvenance(h, n, g);
      if r': nat, m': nat :| Entitles(h, n, g, r', m', policy, now) && h.ops[m'].refresh == token {
        HolderIsUnique(h, n, g, r, m, r', m');
      }
      assert Refreshable(h.tables[n], token, policy, now, g) ==> Entitles(h, n, g, r, m, policy, now);
    }
  }

  /** A refresh succeeds exactly with the newest refresh token of a live grant, for its policy and within thirty days of its
      redemption; then the grant holds the new pair. Otherwise it is refused, and nothing changes unless the token is retired. */
  lemma RefreshedExactly(h: History, n: nat)
    requires Legal(h) && n < |h.ops| && h.ops[n].Refresh?
    ensures Accepted(h, n) <==> exists g: GrantId, r: nat, m: nat ::
              Entitles(h, n, g, r, m, h.ops[n].policy, h.ops[n].now) && h.ops[m].refresh == h.ops[n].presented
    ensures !Accepted(h, n) ==> Perform(h.tables[n], h.ops[n]).1.InvalidGrant?
    ensures !Accepted(h, n) && h.ops[n].presented !in h.tables[n].used ==> h.tables[n + 1] == h.tables[n]
  {
    var t, op := h.tables[n], h.ops[n];
    assert Follows(h, n);
    RunKeepsFamilies(h, n);
    MintIsFree(h, n);
    if Accepted(h, n) {
      var g :| Refreshable(t, op.presented, op.policy, op.now, g);
      RefreshableExactly(h, n, op.presented, op.policy, op.now, g);
    }
    if g: GrantId, r: nat, m: nat :| Entitles(h, n, g, r, m, op.policy, op.now) && h.ops[m].refresh == op.presented {
      RefreshableExactly(h, n, op.presented, op.policy, op.now, g);
      CurrentIsNotUsed(h, n, g);
      RefreshableIsUnique(t, op.presented, op.policy, op.now, g);
    }
  }
}
