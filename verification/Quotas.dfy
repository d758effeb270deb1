/** The subscription quotas, over whole runs of the events endpoint. */
module Quotas {
  import opened Domain
  import opened Subscriptions
  import opened SubscriptionRuns

  function OwnedBy(rows: Rows, owner: Owner): set<SubId> {
    set id | id in rows && id.owner == owner
  }

  /** At most 1000 subscriptions, and at most 100 of one owner. */
  ghost predicate WithinQuotas(rows: Rows) {
    |rows.Keys| <= 1000 && forall owner: Owner :: |OwnedBy(rows, owner)| <= 100
  }

  lemma FewerAreWithinQuotas(rows: Rows, fewer: Rows)
    requires WithinQuotas(rows) && fewer.Keys <= rows.Keys
    ensures WithinQuotas(fewer)
  {
    SubsetIsSmaller(fewer.Keys, rows.Keys);
    forall owner: Owner
      ensures |OwnedBy(fewer, owner)| <= 100
    {
      SubsetIsSmaller(OwnedBy(fewer, owner), OwnedBy(rows, owner));
    }
  }

  lemma OneMoreIsWithinQuotas(rows: Rows, rows': Rows, id: SubId, others: set<SubId>)
    requires WithinQuotas(rows) && others <= rows.Keys && id !in others
    requires forall o :: o in rows' <==> o in others || o == id
    requires |others| < 1000 && |OfOwner(others, id.owner)| < 100
    ensures WithinQuotas(rows')
  {
    assert rows'.Keys == others + {id};
    forall owner: Owner
      ensures |OwnedBy(rows', owner)| <= 100
    {
      if owner == id.owner {
        assert OwnedBy(rows', owner) == OfOwner(others, owner) + {id};
      } else {
        SubsetIsSmaller(OwnedBy(rows', owner), OwnedBy(rows, owner));
      }
    }
  }

  lemma SaveKeepsQuotas(rows: Rows, rows': Rows, saved: bool, id: SubId, sub: Subscription, now: int)
    requires WithinQuotas(rows) && (rows', saved) == Save(rows, id, sub, now)
    ensures WithinQuotas(rows')
  {
    var others := Others(rows, id, now);
    OthersAreRows(rows, id, now, others);
    SavedWithOthers(rows, rows', saved, id, sub, now, others);
    if saved {
      OneMoreIsWithinQuotas(rows, rows', id, others);
    }
  }

  lemma OthersAreRows(rows: Rows, id: SubId, now: int, others: set<SubId>)
    requires others == Others(rows, id, now)
    ensures others <= rows.Keys && id !in others
  {
  }

  lemma SavedWithOthers(rows: Rows, rows': Rows, saved: bool, id: SubId, sub: Subscription, now: int, others: set<SubId>)
    requires (rows', saved) == Save(rows, id, sub, now) && others == Others(rows, id, now)
    ensures if saved then
              && |others| < 1000 && |OfOwner(others, id.owner)| < 100
              && forall o :: o in rows' <==> o in others || o == id
            else rows' == rows
  {
    SavedExactly(rows, id, sub, now);
  }

  lemma FinishKeepsQuotas(gw: Gateway, s: State, later: int)
    requires WithinQuotas(s.rows) && s.pending.Some?
    ensures WithinQuotas(Next(gw, s, Finish(later)).rows)
  {
    var p := s.pending.value;
    if Authorized(gw, s.grants, p.id, p.draft, later) {
      var (rows, saved) := Save(s.rows, p.id, p.draft, p.now);
      SaveKeepsQuotas(s.rows, rows, saved, p.id, p.draft, p.now);
    }
  }

  lemma StepKeepsQuotas(gw: Gateway, s: State, op: Op)
    requires WithinQuotas(s.rows)
    ensures WithinQuotas(Next(gw, s, op).rows)
  {
    match op
    case Finish(later) =>
      if s.pending.Some? {
        FinishKeepsQuotas(gw, s, later);
      }
    case Unsubscribe(id, _) => FewerAreWithinQuotas(s.rows, Remove(s.rows, id));
    case Gone(id, _) => FewerAreWithinQuotas(s.rows, Remove(s.rows, id));
    case Prune(now) => FewerAreWithinQuotas(s.rows, PruneRows(s.rows, s.grants, now));
    case _ =>
  }

  /** In every state of every run there are at most 1000 subscriptions and at most 100 of one owner. */
  lemma {:induction false} QuotasHold(gw: Gateway, h: History, n: nat)
    requires Legal(gw, h) && n <= |h.ops|
    ensures WithinQuotas(h.states[n].rows)
  {
    if n == 0 {
      NothingIsWithinQuotas();
    } else {
      QuotasHold(gw, h, n - 1);
      StepTaken(gw, h, n - 1);
      StepKeepsQuotas(gw, h.states[n - 1], h.ops[n - 1]);
    }
  }

  lemma NothingIsWithinQuotas()
    ensures WithinQuotas(map[])
  {
    forall owner: Owner
      ensures |OwnedBy(map[], owner)| <= 100
    {
      assert OwnedBy(map[], owner) == {};
    }
  }

  lemma StepTaken(gw: Gateway, h: History, n: nat)
    requires Legal(gw, h) && n < |h.ops|
    ensures h.states[n + 1] == Next(gw, h.states[n], h.ops[n])
  {
    assert Follows(gw, h, n);
  }
}
