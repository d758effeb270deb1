/** Two histories in which a refresh brings a removed or ended subscription back, with the jobs queued for it before. */
module Revivals {
  import opened Domain
  import opened OAuth
  import opened Subscriptions
  import opened SubscriptionRuns
  import opened Routes
  import opened Generations

  // ----- a removal during the challenge revives old jobs -----

  const Site: Gateway := Gateway(["r"], Some("d"), "p", "")
  const Sub: SubId := SubId(Static("d"), "p", "u", Filters("", "", None, None))
  const Alert: Event := Event("1", "s", "r", Test, Critical, "", 0)
  const NextAlert: Event := Event("2", "s", "r", Test, Critical, "", 0)

  function Ask(secret: string, ttl: Option<int>, now: int, token: Token): Request {
    Request(Static("d"), "u", Filters("", "", None, None), secret, ttl, now, token, true)
  }

  const FirstRow: Subscription := Subscription(7, "r", "one", None, DAY, 0)
  const SecondRow: Subscription := Subscription(7, "r", "two", Some(("one", 2 + PROOF_LIFETIME)), 2 + DAY, 2)
  const OneProof: Cache := map[CacheKey(Static("d"), "u", "one") := PROOF_LIFETIME]
  const TwoProofs: Cache := OneProof[CacheKey(Static("d"), "u", "two") := 2 + PROOF_LIFETIME]

  function RaceOps(): seq<Op> {
    [Begin(Ask("one", None, 0, 7)), Finish(0), Accepted(Alert, 1), Accepted(NextAlert, 1), Begin(Ask("two", None, 2, 8)),
     Post(Sub, 7, 3), Gone(Sub, 3), Finish(4), Post(Sub, 7, 5)]
  }

  function RaceStates(): seq<State> {
    [State(map[], map[], map[], None, 0),
     State(map[], map[], OneProof, Some(Pending(Sub, FirstRow, false, 0)), 0),
     State(map[Sub := FirstRow], map[], OneProof, None, 0),
     State(map[Sub := FirstRow], map[], OneProof, None, 1),
     State(map[Sub := FirstRow], map[], OneProof, None, 1),
     State(map[Sub := FirstRow], map[], TwoProofs, Some(Pending(Sub, SecondRow, true, 2)), 2),
     State(map[Sub := FirstRow], map[], TwoProofs, Some(Pending(Sub, SecondRow, true, 2)), 3),
     State(map[], map[], TwoProofs, Some(Pending(Sub, SecondRow, true, 2)), 3),
     State(map[Sub := SecondRow], map[], TwoProofs, None, 4),
     State(map[Sub := SecondRow], map[], TwoProofs, None, 5)]
  }

  lemma FirstBegin()
    ensures Next(Site, RaceStates()[0], RaceOps()[0]) == RaceStates()[1]
  {
    var r := Ask("one", None, 0, 7);
    assert Join(["r"]) == "r";
    assert RequestedId(Site, r) == Sub;
    assert Swept(map[], 0) == map[];
    assert CacheAfter(map[], None, r) == OneProof;
  }

  lemma SavingIntoEmpty(row: Subscription, now: int, later: int)
    requires later < row.expires
    ensures Commit(Site, map[], map[], Sub, row, now, later) == (map[Sub := row], true)
  {
    var rows: Rows := map[];
    assert rows - Expired(rows, now) == rows;
    assert rows.Keys - {Sub} == {};
    assert (set o | o in rows && o != Sub && o.owner == Sub.owner) == {};
  }

  lemma SecondBegin()
    ensures Next(Site, RaceStates()[4], RaceOps()[4]) == RaceStates()[5]
  {
    var r := Ask("two", None, 2, 8);
    var s := RaceStates()[4];
    assert Join(["r"]) == "r";
    assert RequestedId(Site, r) == Sub;
    assert Standing(Site, s.rows, s.grants, r) == Some(FirstRow);
    assert Swept(OneProof, 2) == OneProof;
    assert KeyOfRequest(r) !in OneProof;
    assert CacheAfter(OneProof, Some(FirstRow), r) == TwoProofs;
  }

  function Race(): History {
    History(RaceOps(), RaceStates())
  }

  lemma RaceStarts()
    ensures Follows(Site, Race(), 0)
  {
    FirstBegin();
  }

  lemma FirstFinish(s: State)
    requires s == State(map[], map[], OneProof, Some(Pending(Sub, FirstRow, false, 0)), 0)
    ensures Next(Site, s, Finish(0)) == State(map[Sub := FirstRow], map[], OneProof, None, 0)
  {
    SavingIntoEmpty(FirstRow, 0, 0);
  }

  lemma RaceSaves()
    ensures Follows(Site, Race(), 1)
  {
    var h := Race();
    assert h.ops[1] == Finish(0);
    assert h.states[2] == State(map[Sub := FirstRow], map[], OneProof, None, 0);
    FirstFinish(h.states[1]);
  }

  lemma RaceQueues()
    ensures Follows(Site, Race(), 2) && Follows(Site, Race(), 3)
  {
  }

  lemma RaceRefreshes()
    ensures Follows(Site, Race(), 4)
  {
    SecondBegin();
  }

  lemma RacePosts()
    ensures Follows(Site, Race(), 5)
  {
    assert Race().states[5] == State(map[Sub := FirstRow], map[], TwoProofs, Some(Pending(Sub, SecondRow, true, 2)), 2);
  }

  lemma RaceRemoves()
    ensures Follows(Site, Race(), 6)
  {
    assert Race().ops[5] == Post(Sub, 7, 3) && WasPosted(Race(), 6, Sub);
    assert Remove(map[Sub := FirstRow], Sub) == map[];
  }

  lemma RaceEnds()
    ensures Follows(Site, Race(), 7) && Follows(Site, Race(), 8)
  {
    SavingIntoEmpty(SecondRow, 2, 4);
  }

  lemma RaceIsLegal()
    ensures Legal(Site, Race())
  {
    RaceStarts();
    RaceSaves();
    RaceQueues();
    RaceRefreshes();
    RacePosts();
    RaceRemoves();
    RaceEnds();
    NineSteps(Site, Race());
  }

  lemma NineSteps(gw: Gateway, h: History)
    requires |h.ops| == 9 && |h.states| == 10
    requires h.states[0].rows == map[] && h.states[0].cache == map[] && h.states[0].pending.None?
    requires Follows(gw, h, 0) && Follows(gw, h, 1) && Follows(gw, h, 2) && Follows(gw, h, 3)
    requires Follows(gw, h, 4) && Follows(gw, h, 5) && Follows(gw, h, 6) && Follows(gw, h, 7) && Follows(gw, h, 8)
    ensures Legal(gw, h)
  {
    forall n: nat | n < |h.ops|
      ensures Follows(gw, h, n)
    {
      assert n == 0 || n == 1 || n == 2 || n == 3 || n == 4 || n == 5 || n == 6 || n == 7 || n == 8;
    }
  }

  lemma FirstRowMatches(e: Event)
    requires e == Alert || e == NextAlert
    ensures Sub in MatchedBy(map[Sub := FirstRow], map[], e, 1)
  {
    assert OccursAt(Wrap("r"), Wrap("r"), 0);
  }

  /** Two alerts are queued for a callback; it answers the first post with 410 while its refresh is being challenged, so it
      is removed, comes back with its generation, and is posted the second job. */
  lemma {:induction false} RemovalDuringChallengeRevives()
    ensures Legal(Site, Race())
    ensures PostsJobOf(Race(), 2, 5, Sub, 7) && PostsJobOf(Race(), 3, 8, Sub, 7)
    ensures Race().ops[6] == Gone(Sub, 3) && Sub !in Race().states[7].rows
  {
    RaceIsLegal();
    assert Race().states[2] == State(map[Sub := FirstRow], map[], OneProof, None, 0);
    assert Race().states[3] == State(map[Sub := FirstRow], map[], OneProof, None, 1);
    FirstRowMatches(Alert);
    FirstRowMatches(NextAlert);
  }

  // ----- so does an expiry during the challenge -----

  const ShortRow: Subscription := Subscription(7, "r", "one", None, 10, 0)
  const LateRow: Subscription := Subscription(7, "r", "two", Some(("one", 5 + PROOF_LIFETIME)), 5 + DAY, 5)
  const LateProofs: Cache := OneProof[CacheKey(Static("d"), "u", "two") := 5 + PROOF_LIFETIME]

  function LapseOps(): seq<Op> {
    [Begin(Ask("one", Some(10), 0, 7)), Finish(0), Accepted(Alert, 1), Begin(Ask("two", None, 5, 8)), Finish(15),
     Post(Sub, 7, 16)]
  }

  function LapseStates(): seq<State> {
    [State(map[], map[], map[], None, 0),
     State(map[], map[], OneProof, Some(Pending(Sub, ShortRow, false, 0)), 0),
     State(map[Sub := ShortRow], map[], OneProof, None, 0),
     State(map[Sub := ShortRow], map[], OneProof, None, 1),
     State(map[Sub := ShortRow], map[], LateProofs, Some(Pending(Sub, LateRow, true, 5)), 5),
     State(map[Sub := LateRow], map[], LateProofs, None, 15),
     State(map[Sub := LateRow], map[], LateProofs, None, 16)]
  }

  function Lapse(): History {
    History(LapseOps(), LapseStates())
  }

  lemma LapseBegins()
    ensures Follows(Site, Lapse(), 0)
  {
    var r := Ask("one", Some(10), 0, 7);
    assert Join(["r"]) == "r";
    assert RequestedId(Site, r) == Sub;
    assert Swept(map[], 0) == map[];
    assert CacheAfter(map[], None, r) == OneProof;
  }

  lemma LapseSaves(s: State)
    requires s == State(map[], map[], OneProof, Some(Pending(Sub, ShortRow, false, 0)), 0)
    ensures Next(Site, s, Finish(0)) == State(map[Sub := ShortRow], map[], OneProof, None, 0)
  {
    SavingIntoEmpty(ShortRow, 0, 0);
  }

  lemma LapseRefreshes(s: State)
    requires s == State(map[Sub := ShortRow], map[], OneProof, None, 1)
    ensures Next(Site, s, Begin(Ask("two", None, 5, 8)))
            == State(map[Sub := ShortRow], map[], LateProofs, Some(Pending(Sub, LateRow, true, 5)), 5)
  {
    var r := Ask("two", None, 5, 8);
    assert Join(["r"]) == "r";
    assert RequestedId(Site, r) == Sub;
    assert Standing(Site, s.rows, s.grants, r) == Some(ShortRow);
    assert Swept(OneProof, 5) == OneProof;
    assert KeyOfRequest(r) !in OneProof;
    assert CacheAfter(OneProof, Some(ShortRow), r) == LateProofs;
  }

  lemma LapseRestores(s: State)
    requires s == State(map[Sub := ShortRow], map[], LateProofs, Some(Pending(Sub, LateRow, true, 5)), 5)
    ensures Next(Site, s, Finish(15)) == State(map[Sub := LateRow], map[], LateProofs, None, 15)
    ensures SaveGoesThrough(Site, s, Pending(Sub, LateRow, true, 5), 15)
  {
    var rows: Rows := map[Sub := ShortRow];
    assert rows - Expired(rows, 5) == rows;
    assert rows.Keys - {Sub} == {};
    assert (set o | o in rows && o != Sub && o.owner == Sub.owner) == {};
    assert rows[Sub := LateRow] == map[Sub := LateRow];
  }

  lemma LapseStarts()
    ensures Follows(Site, Lapse(), 1) && Follows(Site, Lapse(), 2)
  {
    var h := Lapse();
    assert h.states[1] == State(map[], map[], OneProof, Some(Pending(Sub, ShortRow, false, 0)), 0);
    assert h.states[2] == State(map[Sub := ShortRow], map[], OneProof, None, 0);
    LapseSaves(h.states[1]);
  }

  lemma LapseGoesOn()
    ensures Follows(Site, Lapse(), 3)
  {
    var h := Lapse();
    assert h.states[3] == State(map[Sub := ShortRow], map[], OneProof, None, 1);
    LapseRefreshes(h.states[3]);
  }

  lemma LapseEnds()
    ensures Follows(Site, Lapse(), 4) && Follows(Site, Lapse(), 5)
  {
    var h := Lapse();
    assert h.states[4] == State(map[Sub := ShortRow], map[], LateProofs, Some(Pending(Sub, LateRow, true, 5)), 5);
    assert h.states[5] == State(map[Sub := LateRow], map[], LateProofs, None, 15);
    LapseRestores(h.states[4]);
  }

  lemma LapseIsLegal()
    ensures Legal(Site, Lapse())
  {
    LapseBegins();
    LapseStarts();
    LapseGoesOn();
    LapseEnds();
    SixSteps(Site, Lapse());
  }

  lemma SixSteps(gw: Gateway, h: History)
    requires |h.ops| == 6 && |h.states| == 7
    requires h.states[0].rows == map[] && h.states[0].cache == map[] && h.states[0].pending.None?
    requires Follows(gw, h, 0) && Follows(gw, h, 1) && Follows(gw, h, 2)
    requires Follows(gw, h, 3) && Follows(gw, h, 4) && Follows(gw, h, 5)
    ensures Legal(gw, h)
  {
    forall n: nat | n < |h.ops|
      ensures Follows(gw, h, n)
    {
      assert n == 0 || n == 1 || n == 2 || n == 3 || n == 4 || n == 5;
    }
  }

  /** A subscription that ends while its refresh is being challenged stops being deliverable and comes back with its old job. */
  lemma {:induction false} ExpiryDuringChallengeRevives()
    ensures Legal(Site, Lapse()) && PostsJobOf(Lapse(), 2, 5, Sub, 7)
    ensures !Live(Site, Lapse().states[4], Sub, 7, 12)
    ensures DisturbedSave(Site, Lapse(), 4, Sub, 7)
  {
    LapseIsLegal();
    LapseRestores(Lapse().states[4]);
    assert OccursAt(Wrap("r"), Wrap("r"), 0);
  }
}
