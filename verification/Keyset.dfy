/** Keyset pagination over a table that changes between pages. */
module Keyset {
  import opened Domain

  /** The sort position of a row; descending queries use negated positions. */
  datatype Pos = Pos(major: int, minor: int)

  datatype Keyed<T> = Keyed(pos: Pos, row: T)

  predicate Less(a: Pos, b: Pos) {
    a.major < b.major || (a.major == b.major && a.minor < b.minor)
  }

  predicate Past(p: Pos, from: Option<Pos>) {
    from.Some? ==> Less(from.value, p)
  }

  /** Rows have distinct positions: the minor part is a primary key. */
  predicate DistinctPositions<T(!new)>(rows: seq<Keyed<T>>) {
    forall i, j :: 0 <= i < j < |rows| ==> rows[i].pos != rows[j].pos
  }

  predicate Increasing<T(!new)>(rows: seq<Keyed<T>>) {
    forall i, j :: 0 <= i < j < |rows| ==> Less(rows[i].pos, rows[j].pos)
  }

  function Insert<T(!new)>(x: Keyed<T>, s: seq<Keyed<T>>): seq<Keyed<T>> {
    if s == [] || Less(x.pos, s[0].pos) then [x] + s else [s[0]] + Insert(x, s[1..])
  }

  function Sort<T(!new)>(s: seq<Keyed<T>>): seq<Keyed<T>> {
    if s == [] then [] else Insert(Last(s), Sort(Init(s)))
  }

  function Beyond<T(!new)>(s: seq<Keyed<T>>, from: Option<Pos>): seq<Keyed<T>> {
    if s == [] then []
    else if Past(Last(s).pos, from) then Beyond(Init(s), from) + [Last(s)]
    else Beyond(Init(s), from)
  }

  datatype Page<T> = Page(rows: seq<Keyed<T>>, next: Option<Pos>)

  /** The rows past the cursor in order, cut at the limit; a cut page carries the position of its last row. */
  function Fetch<T(!new)>(table: seq<Keyed<T>>, from: Option<Pos>, limit: nat): Page<T>
    requires 0 < limit
  {
    var rows := Sort(Beyond(table, from));
    if limit < |rows| then Page(rows[..limit], Some(rows[limit - 1].pos)) else Page(rows, None)
  }

  lemma {:induction false} InsertKeeps<T(!new)>(x: Keyed<T>, s: seq<Keyed<T>>)
    requires Increasing(s) && forall y :: y in s ==> y.pos != x.pos
    ensures Increasing(Insert(x, s))
    ensures forall y :: y in Insert(x, s) <==> y == x || y in s
    ensures |Insert(x, s)| == |s| + 1
  {
    if s != [] && !Less(x.pos, s[0].pos) {
      assert s == [s[0]] + s[1..];
      assert s[0] in s;
      InsertKeeps(x, s[1..]);
      var rest := Insert(x, s[1..]);
      forall y | y in rest
        ensures Less(s[0].pos, y.pos)
      {
        if y != x {
          var j :| 0 <= j < |s[1..]| && s[1..][j] == y;
          assert s[j + 1] == y;
        }
      }
    }
  }

  lemma {:induction false} SortKeeps<T(!new)>(s: seq<Keyed<T>>)
    requires DistinctPositions(s)
    ensures Increasing(Sort(s))
    ensures forall y :: y in Sort(s) <==> y in s
    ensures |Sort(s)| == |s|
  {
    if s != [] {
      SortKeeps(Init(s));
      forall y | y in Sort(Init(s))
        ensures y.pos != Last(s).pos
      {
        var i :| 0 <= i < |Init(s)| && Init(s)[i] == y;
        assert s[i].pos != s[|s| - 1].pos;
      }
      InsertKeeps(Last(s), Sort(Init(s)));
      assert s == Init(s) + [Last(s)];
    }
  }

  lemma {:induction false} BeyondKeeps<T(!new)>(s: seq<Keyed<T>>, from: Option<Pos>)
    requires DistinctPositions(s)
    ensures DistinctPositions(Beyond(s, from))
    ensures forall y :: y in Beyond(s, from) <==> y in s && Past(y.pos, from)
  {
    if s != [] {
      BeyondKeeps(Init(s), from);
      assert s == Init(s) + [Last(s)];
      var early := Beyond(Init(s), from);
      forall y | y in early
        ensures y.pos != Last(s).pos
      {
        var i :| 0 <= i < |Init(s)| && Init(s)[i] == y;
        assert s[i].pos != s[|s| - 1].pos;
      }
    }
  }

  /** What one page promises about the table it was read from. */
  ghost predicate Faithful<T(!new)>(page: Page<T>, table: seq<Keyed<T>>, from: Option<Pos>) {
    && Increasing(page.rows)
    && (forall y :: y in page.rows ==> y in table && Past(y.pos, from))
    && (page.next.None? ==> forall y :: y in table && Past(y.pos, from) ==> y in page.rows)
    && (page.next.Some? ==>
          && page.rows != [] && page.next.value == Last(page.rows).pos
          && forall y :: y in table && Past(y.pos, from) && !Past(y.pos, page.next) ==> y in page.rows)
  }

  lemma CutKeepsOrder<T(!new)>(rows: seq<Keyed<T>>, limit: nat)
    requires Increasing(rows) && 0 < limit < |rows|
    ensures Increasing(rows[..limit])
    ensures forall y :: y in rows[..limit] <==> y in rows && !Less(rows[limit - 1].pos, y.pos)
  {
    forall y
      ensures y in rows[..limit] <==> y in rows && !Less(rows[limit - 1].pos, y.pos)
    {
      if y in rows[..limit] {
        var i :| 0 <= i < limit && rows[i] == y;
      }
      if y in rows && !Less(rows[limit - 1].pos, y.pos) {
        var i :| 0 <= i < |rows| && rows[i] == y;
        assert i < limit;
        assert rows[..limit][i] == y;
      }
    }
  }

  lemma CutIsFaithful<T(!new)>(rows: seq<Keyed<T>>, table: seq<Keyed<T>>, from: Option<Pos>, limit: nat)
    requires Increasing(rows) && 0 < limit < |rows|
    requires forall y :: y in rows <==> y in table && Past(y.pos, from)
    ensures Faithful(Page(rows[..limit], Some(rows[limit - 1].pos)), table, from)
  {
    CutKeepsOrder(rows, limit);
    assert Last(rows[..limit]) == rows[limit - 1];
  }

  lemma FetchIsFaithful<T(!new)>(table: seq<Keyed<T>>, from: Option<Pos>, limit: nat)
    requires DistinctPositions(table) && 0 < limit
    ensures Faithful(Fetch(table, from, limit), table, from)
  {
    var rows := Sort(Beyond(table, from));
    BeyondKeeps(table, from);
    SortKeeps(Beyond(table, from));
    if limit < |rows| {
      CutIsFaithful(rows, table, from, limit);
    }
  }

  /** Pages read one after the other, each from the cursor of the one before, each from its own state of the table. */
  datatype Walk<T> = Walk(tables: seq<seq<Keyed<T>>>, pages: seq<Page<T>>)

  function CursorAt<T(!new)>(w: Walk<T>, start: Option<Pos>, i: nat): Option<Pos>
    requires i <= |w.pages|
  {
    if i == 0 then start else w.pages[i - 1].next
  }

  ghost predicate PageFollows<T(!new)>(w: Walk<T>, start: Option<Pos>, limit: nat, i: nat)
    requires i < |w.pages| == |w.tables| && 0 < limit
  {
    && DistinctPositions(w.tables[i])
    && w.pages[i] == Fetch(w.tables[i], CursorAt(w, start, i), limit)
    && (i + 1 < |w.pages| ==> w.pages[i].next.Some?)
  }

  ghost predicate IsWalk<T(!new)>(w: Walk<T>, start: Option<Pos>, limit: nat) {
    && 0 < limit && |w.pages| == |w.tables|
    && forall i: nat :: i < |w.pages| ==> PageFollows(w, start, limit, i)
  }

  function Returned<T(!new)>(w: Walk<T>, n: nat): seq<Keyed<T>>
    requires n <= |w.pages|
  {
    if n == 0 then [] else Returned(w, n - 1) + w.pages[n - 1].rows
  }

  /** Everything returned so far lies between the start and the current cursor. */
  ghost predicate Bounded<T(!new)>(rows: seq<Keyed<T>>, start: Option<Pos>, upTo: Option<Pos>) {
    && Increasing(rows)
    && (forall y :: y in rows ==> Past(y.pos, start))
    && (forall y :: y in rows && upTo.Some? ==> !Past(y.pos, upTo))
  }

  lemma LastIsGreatest<T(!new)>(rows: seq<Keyed<T>>)
    requires Increasing(rows) && rows != []
    ensures forall y :: y in rows ==> !Less(Last(rows).pos, y.pos)
  {
    forall y | y in rows
      ensures !Less(Last(rows).pos, y.pos)
    {
      var i :| 0 <= i < |rows| && rows[i] == y;
    }
  }

  lemma IncreasingJoin<T(!new)>(a: seq<Keyed<T>>, b: seq<Keyed<T>>, mid: Pos)
    requires Increasing(a) && Increasing(b)
    requires forall y :: y in a ==> !Less(mid, y.pos)
    requires forall y :: y in b ==> Less(mid, y.pos)
    ensures Increasing(a + b)
  {
    var s := a + b;
    forall i, j | 0 <= i < j < |s|
      ensures Less(s[i].pos, s[j].pos)
    {
      if i < |a| <= j {
        assert s[i] in a && s[j] in b;
      }
    }
  }

  lemma FirstPageIsBounded<T(!new)>(page: Page<T>, table: seq<Keyed<T>>, start: Option<Pos>)
    requires Faithful(page, table, start)
    ensures page.next.Some? ==> Bounded(page.rows, start, page.next) && Past(page.next.value, start)
  {
    if page.next.Some? {
      LastIsGreatest(page.rows);
      assert Last(page.rows) in page.rows;
    }
  }

  /** A page read from the cursor `mid` goes on where the earlier ones ended. */
  lemma PageExtends<T(!new)>(earlier: seq<Keyed<T>>, page: Page<T>, table: seq<Keyed<T>>, start: Option<Pos>, mid: Pos)
    requires Bounded(earlier, start, Some(mid)) && Past(mid, start) && Faithful(page, table, Some(mid))
    ensures Increasing(earlier + page.rows) && forall y :: y in earlier + page.rows ==> Past(y.pos, start)
    ensures page.next.Some? ==> Bounded(earlier + page.rows, start, page.next) && Past(page.next.value, start)
  {
    IncreasingJoin(earlier, page.rows, mid);
    if page.next.Some? {
      LastIsGreatest(page.rows);
      assert Last(page.rows) in page.rows;
    }
  }

  lemma {:induction false} WalkIncreases<T(!new)>(w: Walk<T>, start: Option<Pos>, limit: nat, n: nat)
    requires IsWalk(w, start, limit) && n <= |w.pages|
    ensures Increasing(Returned(w, n))
    ensures forall y :: y in Returned(w, n) ==> Past(y.pos, start)
    ensures 0 < n && w.pages[n - 1].next.Some? ==> Bounded(Returned(w, n), start, w.pages[n - 1].next)
    ensures 0 < n && w.pages[n - 1].next.Some? ==> Past(w.pages[n - 1].next.value, start)
  {
    if n > 0 {
      WalkIncreases(w, start, limit, n - 1);
      assert PageFollows(w, start, limit, n - 1);
      var from, page, earlier := CursorAt(w, start, n - 1), w.pages[n - 1], Returned(w, n - 1);
      FetchIsFaithful(w.tables[n - 1], from, limit);
      if n > 1 {
        assert PageFollows(w, start, limit, n - 2);
        PageExtends(earlier, page, w.tables[n - 1], start, from.value);
      } else {
        assert earlier + page.rows == page.rows;
        FirstPageIsBounded(page, w.tables[n - 1], start);
      }
    }
  }

  /** Following the cursor never returns a position twice, whatever is inserted or deleted between pages. */
  lemma NeverReturnedTwice<T(!new)>(w: Walk<T>, start: Option<Pos>, limit: nat, n: nat, i: nat, j: nat)
    requires IsWalk(w, start, limit) && n <= |w.pages|
    requires i < j < |Returned(w, n)|
    ensures Less(Returned(w, n)[i].pos, Returned(w, n)[j].pos)
  {
    WalkIncreases(w, start, limit, n);
  }

  predicate HasPosition<T(!new)>(rows: seq<Keyed<T>>, p: Pos) {
    exists i :: 0 <= i < |rows| && rows[i].pos == p
  }

  lemma PositionInJoin<T(!new)>(a: seq<Keyed<T>>, b: seq<Keyed<T>>, p: Pos)
    ensures HasPosition(a, p) || HasPosition(b, p) ==> HasPosition(a + b, p)
  {
    if i :| 0 <= i < |a| && a[i].pos == p {
      assert (a + b)[i].pos == p;
    }
    if i :| 0 <= i < |b| && b[i].pos == p {
      assert (a + b)[|a| + i].pos == p;
    }
  }

  lemma PageCovers<T(!new)>(page: Page<T>, table: seq<Keyed<T>>, from: Option<Pos>, p: Pos)
    requires Faithful(page, table, from) && HasPosition(table, p) && Past(p, from)
    requires page.next.None? || !Past(p, page.next)
    ensures HasPosition(page.rows, p)
  {
    var i :| 0 <= i < |table| && table[i].pos == p;
    assert table[i] in table && table[i] in page.rows;
    var k :| 0 <= k < |page.rows| && page.rows[k] == table[i];
  }

  lemma {:induction false} WalkCovers<T(!new)>(w: Walk<T>, start: Option<Pos>, limit: nat, n: nat, p: Pos)
    requires IsWalk(w, start, limit) && n <= |w.pages| && Past(p, start)
    requires forall i :: 0 <= i < n ==> HasPosition(w.tables[i], p)
    requires !Past(p, CursorAt(w, start, n)) || (n > 0 && w.pages[n - 1].next.None?)
    ensures HasPosition(Returned(w, n), p)
  {
    if n > 0 {
      assert PageFollows(w, start, limit, n - 1);
      var from, page, earlier, table := CursorAt(w, start, n - 1), w.pages[n - 1], Returned(w, n - 1), w.tables[n - 1];
      FetchIsFaithful(table, from, limit);
      if Past(p, from) {
        PageCovers(page, table, from, p);
      } else {
        WalkCovers(w, start, limit, n - 1, p);
      }
      PositionInJoin(earlier, page.rows, p);
    }
  }

  predicate Finished<T(!new)>(w: Walk<T>) {
    w.pages != [] && Last(w.pages).next.None?
  }

  predicate OnlyAt<T(!new)>(rows: seq<Keyed<T>>, p: Pos, i: int) {
    forall j :: 0 <= j < |rows| && rows[j].pos == p ==> j == i
  }

  /** Exactly one of the rows has this position. */
  predicate HasOnce<T(!new)>(rows: seq<Keyed<T>>, p: Pos) {
    exists i :: 0 <= i < |rows| && rows[i].pos == p && OnlyAt(rows, p, i)
  }

  /** A walk that ends has returned every row that was there throughout, exactly once. */
  lemma PresentThroughoutIsReturnedOnce<T(!new)>(w: Walk<T>, start: Option<Pos>, limit: nat, p: Pos)
    requires IsWalk(w, start, limit) && Finished(w) && Past(p, start)
    requires forall i :: 0 <= i < |w.tables| ==> HasPosition(w.tables[i], p)
    ensures HasOnce(Returned(w, |w.pages|), p)
  {
    var n := |w.pages|;
    WalkCovers(w, start, limit, n, p);
    WalkIncreases(w, start, limit, n);
    var i :| 0 <= i < |Returned(w, n)| && Returned(w, n)[i].pos == p;
    assert OnlyAt(Returned(w, n), p, i);
  }

  // ----- a table that does not change -----

  lemma {:induction false} BeyondShrinks<T(!new)>(s: seq<Keyed<T>>, a: Option<Pos>, b: Pos)
    requires Past(b, a)
    ensures |Beyond(s, Some(b))| <= |Beyond(s, a)|
    ensures (exists y :: y in s && y.pos == b) ==> |Beyond(s, Some(b))| < |Beyond(s, a)|
  {
    if s != [] {
      BeyondShrinks(Init(s), a, b);
      assert s == Init(s) + [Last(s)];
    }
  }

  lemma CursorAdvances<T(!new)>(table: seq<Keyed<T>>, from: Option<Pos>, limit: nat)
    requires DistinctPositions(table) && 0 < limit && Fetch(table, from, limit).next.Some?
    ensures |Beyond(table, Fetch(table, from, limit).next)| < |Beyond(table, from)|
  {
    var page := Fetch(table, from, limit);
    FetchIsFaithful(table, from, limit);
    assert Last(page.rows) in page.rows;
    BeyondShrinks(table, from, page.next.value);
  }

  /** Following the cursor to the end of an unchanging table. */
  function Collect<T(!new)>(table: seq<Keyed<T>>, from: Option<Pos>, limit: nat): seq<Keyed<T>>
    requires DistinctPositions(table) && 0 < limit
    decreases |Beyond(table, from)|
  {
    var page := Fetch(table, from, limit);
    if page.next.None? then page.rows
    else
      CursorAdvances(table, from, limit);
      page.rows + Collect(table, page.next, limit)
  }

  /** Two increasing lists with the same members are the same list. */
  lemma {:induction false} IncreasingIsCanonical<T(!new)>(a: seq<Keyed<T>>, b: seq<Keyed<T>>)
    requires Increasing(a) && Increasing(b)
    requires forall y :: y in a <==> y in b
    ensures a == b
  {
    assert a != [] ==> a[0] in a;
    assert b != [] ==> b[0] in b;
    if a != [] && b != [] {
      FirstIsLeast(a, b);
      FirstIsLeast(b, a);
      assert a[0] == b[0];
      assert a == [a[0]] + a[1..] && b == [b[0]] + b[1..];
      TailMembers(a);
      TailMembers(b);
      IncreasingIsCanonical(a[1..], b[1..]);
    }
  }

  lemma FirstIsLeast<T(!new)>(a: seq<Keyed<T>>, b: seq<Keyed<T>>)
    requires Increasing(a) && a != [] && b != [] && b[0] in a
    ensures a[0] == b[0] || Less(a[0].pos, b[0].pos)
  {
    var i :| 0 <= i < |a| && a[i] == b[0];
  }

  lemma TailMembers<T(!new)>(a: seq<Keyed<T>>)
    requires Increasing(a) && a != []
    ensures forall y :: y in a[1..] <==> y in a && y != a[0]
  {
    forall y
      ensures y in a[1..] <==> y in a && y != a[0]
    {
      if y in a[1..] {
        var i :| 0 <= i < |a[1..]| && a[1..][i] == y;
        assert a[i + 1] == y;
      }
      if y in a && y != a[0] {
        var i :| 0 <= i < |a| && a[i] == y;
        assert a[1..][i - 1] == y;
      }
    }
  }

  lemma {:induction false} CollectIsFaithful<T(!new)>(table: seq<Keyed<T>>, from: Option<Pos>, limit: nat)
    requires DistinctPositions(table) && 0 < limit
    ensures Increasing(Collect(table, from, limit))
    ensures forall y :: y in Collect(table, from, limit) <==> y in table && Past(y.pos, from)
    decreases |Beyond(table, from)|
  {
    var page := Fetch(table, from, limit);
    FetchIsFaithful(table, from, limit);
    if page.next.Some? {
      CursorAdvances(table, from, limit);
      CollectIsFaithful(table, page.next, limit);
      LastIsGreatest(page.rows);
      IncreasingJoin(page.rows, Collect(table, page.next, limit), page.next.value);
      assert Last(page.rows) in page.rows;
    }
  }

  /** For every limit the concatenated pages of an unchanging table are its sorted rows past the start. */
  lemma PagesConcatenateToTheSortedList<T(!new)>(table: seq<Keyed<T>>, from: Option<Pos>, limit: nat)
    requires DistinctPositions(table) && 0 < limit
    ensures Collect(table, from, limit) == Sort(Beyond(table, from))
  {
    CollectIsFaithful(table, from, limit);
    BeyondKeeps(table, from);
    SortKeeps(Beyond(table, from));
    IncreasingIsCanonical(Collect(table, from, limit), Sort(Beyond(table, from)));
  }
}
