/** The two paged queries: alerts by (created_at, id) in either direction, firing incidents by rowid. */
module Query {
  import opened Domain
  import opened Intake
  import opened Keyset

  datatype Since = Always | BadSince | From(ms: int)

  /** A decoded cursor; `order` is its direction tag, empty for ascending. Record ids are fixed-width, so they compare as numbers. */
  datatype Cursor = NoCursor | BadCursor | At(time: int, id: nat, order: string)

  datatype AlertQuery = AlertQuery(order: string, since: Since, cursor: Cursor, limit: int,
                                   source: string, severity: string, status: string)

  datatype AlertPage = AlertPage(alerts: seq<Record>, next: Cursor, checkpoint: Cursor)

  datatype QueryError = BadOrder | BadLimit | SinceNotATime | InvalidCursor | CursorOrderMismatch

  datatype AlertResult = Found(page: AlertPage) | Failed(error: QueryError)

  function SeverityName(s: Severity): (name: string)
    ensures (name == "info" <==> s.InfoSeverity?) && (name == "warning" <==> s.Warning?) && (name == "critical" <==> s.Critical?)
  {
    match s
    case InfoSeverity => "info"
    case Warning => "warning"
    case Critical => "critical"
  }

  function StatusName(s: Status): (name: string)
    ensures (name == "firing" <==> s.Firing?) && (name == "resolved" <==> s.Resolved?)
    ensures (name == "info" <==> s.Info?) && (name == "test" <==> s.Test?)
  {
    match s
    case Firing => "firing"
    case Resolved => "resolved"
    case Info => "info"
    case Test => "test"
  }

  predicate Descending(q: AlertQuery) {
    q.order == "desc"
  }

  function Tag(q: AlertQuery): string {
    if Descending(q) then "desc" else ""
  }

  function LimitOf(limit: int): int {
    if limit == 0 then 20 else limit
  }

  /** The first check that rejects the query, in the order the code makes them. */
  function Rejection(q: AlertQuery): Option<QueryError> {
    if q.order != "" && q.order != "asc" && q.order != "desc" then Some(BadOrder)
    else if LimitOf(q.limit) < 1 || 100 < LimitOf(q.limit) then Some(BadLimit)
    else if q.since.BadSince? then Some(SinceNotATime)
    else if q.cursor.BadCursor? || (q.cursor.At? && q.cursor.time < 0) then Some(InvalidCursor)
    else if q.cursor.At? && q.cursor.order != Tag(q) then Some(CursorOrderMismatch)
    else None
  }

  predicate Selected(r: Record, routes: set<string>, q: AlertQuery) {
    && r.event.route in routes
    && (q.since.From? ==> q.since.ms <= r.createdAt)
    && (q.source == "" || r.event.source == q.source)
    && (q.severity == "" || SeverityName(r.event.severity) == q.severity)
    && (q.status == "" || StatusName(r.event.status) == q.status)
  }

  function PosOf(r: Record, descending: bool): Pos {
    if descending then Pos(-r.createdAt, 0 - r.id) else Pos(r.createdAt, r.id)
  }

  /** The rows the query's filters select, with their sort positions. */
  function Candidates(events: seq<Record>, routes: set<string>, q: AlertQuery): seq<Keyed<Record>> {
    if events == [] then []
    else
      var r, early := Last(events), Candidates(Init(events), routes, q);
      if Selected(r, routes, q) then early + [Keyed(PosOf(r, Descending(q)), r)] else early
  }

  function StartOf(q: AlertQuery): Option<Pos> {
    if !q.cursor.At? then None
    else if Descending(q) then Some(Pos(-q.cursor.time, 0 - q.cursor.id))
    else Some(Pos(q.cursor.time, q.cursor.id))
  }

  function RowsOf(rows: seq<Keyed<Record>>): (alerts: seq<Record>)
    ensures |alerts| == |rows|
    ensures forall i :: 0 <= i < |rows| ==> alerts[i] == rows[i].row
  {
    seq(|rows|, i requires 0 <= i < |rows| => rows[i].row)
  }

  function CursorAfter(r: Record, tag: string): Cursor {
    At(r.createdAt, r.id, tag)
  }

  /** The page made of the alerts read: a cursor when there are more, a checkpoint for ascending readers. */
  function PageFrom(alerts: seq<Record>, more: bool, q: AlertQuery): AlertPage {
    AlertPage(
      alerts,
      if more && alerts != [] then CursorAfter(Last(alerts), Tag(q)) else NoCursor,
      if Descending(q) then NoCursor
      else if alerts != [] then CursorAfter(Last(alerts), "")
      else q.cursor)
  }

  /** What the query answers. */
  function Answer(events: seq<Record>, routes: set<string>, q: AlertQuery): AlertResult {
    if Rejection(q).Some? then Failed(Rejection(q).value)
    else
      var page := Fetch(Candidates(events, routes, q), StartOf(q), LimitOf(q.limit));
      Found(PageFrom(RowsOf(page.rows), page.next.Some?, q))
  }

  /** The rows of a statement: past the cursor, ordered, at most limit + 1 of them. */
  function Selection<T(!new)>(rows: seq<Keyed<T>>, from: Option<Pos>, limit: nat): seq<Keyed<T>> {
    var found := Sort(Beyond(rows, from));
    if limit < |found| then found[..limit + 1] else found
  }

  /** One row more than the limit tells a cut page from the last one. */
  lemma ExtraRowMarksTheCut<T(!new)>(rows: seq<Keyed<T>>, from: Option<Pos>, limit: nat)
    requires 0 < limit
    ensures var found, page := Selection(rows, from, limit), Fetch(rows, from, limit);
            && (page.next.Some? <==> limit < |found|)
            && (limit < |found| ==> page == Page(found[..limit], Some(found[limit - 1].pos)))
            && (|found| <= limit ==> page.rows == found)
  {
  }

  function CutTo(read: seq<Record>, limit: nat): seq<Record> {
    if limit < |read| then read[..limit] else read
  }

  lemma CutReadsTheCut(rows: seq<Keyed<Record>>, limit: nat)
    ensures CutTo(RowsOf(rows), limit) == RowsOf(if limit < |rows| then rows[..limit] else rows)
  {
  }

  /** What the rows of the statement, read in full, make of the answer. */
  lemma ReadRowsGiveTheAnswer(events: seq<Record>, routes: set<string>, q: AlertQuery, limit: nat, read: seq<Record>)
    requires Rejection(q).None? && limit == LimitOf(q.limit)
    requires read == RowsOf(Selection(Candidates(events, routes, q), StartOf(q), limit))
    ensures Answer(events, routes, q) == Found(PageFrom(CutTo(read, limit), limit < |read|, q))
  {
    ExtraRowMarksTheCut(Candidates(events, routes, q), StartOf(q), limit);
    CutReadsTheCut(Selection(Candidates(events, routes, q), StartOf(q), limit), limit);
  }

  method ScanAlerts(rows: seq<Keyed<Record>>) returns (alerts: seq<Record>)
    ensures alerts == RowsOf(rows)
  {
    alerts := [];
    for i := 0 to |rows|
      invariant |alerts| == i
      invariant forall k :: 0 <= k < i ==> alerts[k] == rows[k].row
    {
      alerts := alerts + [rows[i].row];
    }
  }

  /** Checks, reads the rows one by one, drops the extra row and tags the cursors. */
  method QueryAlerts(events: seq<Record>, routes: set<string>, q: AlertQuery) returns (result: AlertResult)
    ensures result == Answer(events, routes, q)
  {
    var order := if q.order == "" then "asc" else q.order;
    if order != "asc" && order != "desc" {
      return Failed(BadOrder);
    }
    var cursorOrder := "";
    if order == "desc" {
      cursorOrder := "desc";
    }
    var limit := q.limit;
    if limit == 0 {
      limit := 20;
    }
    if limit < 1 || 100 < limit {
      return Failed(BadLimit);
    }
    if q.since.BadSince? {
      return Failed(SinceNotATime);
    }
    if !q.cursor.NoCursor? {
      if q.cursor.BadCursor? || q.cursor.time < 0 {
        return Failed(InvalidCursor);
      }
      if q.cursor.order != cursorOrder {
        return Failed(CursorOrderMismatch);
      }
    }
    var rows := Selection(Candidates(events, routes, q), StartOf(q), limit);
    var alerts := ScanAlerts(rows);
    ReadRowsGiveTheAnswer(events, routes, q, limit, alerts);
    var next := NoCursor;
    if limit < |alerts| {
      alerts := alerts[..limit];
      next := CursorAfter(alerts[|alerts| - 1], cursorOrder);
    }
    if order == "desc" {
      return Found(AlertPage(alerts, next, NoCursor));
    }
    if 0 < |alerts| {
      return Found(AlertPage(alerts, next, CursorAfter(alerts[|alerts| - 1], "")));
    }
    return Found(AlertPage(alerts, next, q.cursor));
  }

  lemma {:induction false} CandidatesAreSelected(events: seq<Record>, routes: set<string>, q: AlertQuery)
    ensures forall y :: y in Candidates(events, routes, q) <==>
              y.row in events && Selected(y.row, routes, q) && y.pos == PosOf(y.row, Descending(q))
  {
    if events != [] {
      CandidatesAreSelected(Init(events), routes, q);
      assert events == Init(events) + [Last(events)];
    }
  }

  lemma {:induction false} CandidatesAreDistinct(events: seq<Record>, routes: set<string>, q: AlertQuery)
    requires DistinctRecords(events)
    ensures DistinctPositions(Candidates(events, routes, q))
  {
    if events != [] {
      var early, r := Init(events), Last(events);
      CandidatesAreDistinct(early, routes, q);
      CandidatesAreSelected(early, routes, q);
      var rows := Candidates(early, routes, q);
      forall i | 0 <= i < |rows|
        ensures rows[i].pos != PosOf(r, Descending(q))
      {
        assert rows[i] in rows;
        var j :| 0 <= j < |early| && early[j] == rows[i].row;
        assert events[j].id != events[|events| - 1].id;
      }
    }
  }

  /** Reads of one query, each with the cursor the one before returned, while the table changes. */
  datatype Reading = Reading(tables: seq<seq<Record>>, pages: seq<AlertPage>)

  function QueryAt(rd: Reading, q: AlertQuery, i: nat): AlertQuery
    requires i <= |rd.pages|
  {
    if i == 0 then q else q.(cursor := rd.pages[i - 1].next)
  }

  predicate ReadFollows(rd: Reading, routes: set<string>, q: AlertQuery, i: nat)
    requires i < |rd.pages| == |rd.tables|
  {
    && DistinctRecords(rd.tables[i])
    && Answer(rd.tables[i], routes, QueryAt(rd, q, i)) == Found(rd.pages[i])
    && (i + 1 < |rd.pages| ==> rd.pages[i].next.At?)
  }

  predicate IsReading(rd: Reading, routes: set<string>, q: AlertQuery) {
    && |rd.pages| == |rd.tables| && Rejection(q).None?
    && forall i: nat :: i < |rd.pages| ==> ReadFollows(rd, routes, q, i)
  }

  function AlertsRead(rd: Reading, n: nat): seq<Record>
    requires n <= |rd.pages|
  {
    if n == 0 then [] else AlertsRead(rd, n - 1) + rd.pages[n - 1].alerts
  }

  function PageFor(rd: Reading, routes: set<string>, q: AlertQuery, i: nat): Page<Record>
    requires i < |rd.pages| == |rd.tables| && 0 < LimitOf(q.limit)
  {
    Fetch(Candidates(rd.tables[i], routes, q), StartOf(QueryAt(rd, q, i)), LimitOf(q.limit))
  }

  function WalkFor(rd: Reading, routes: set<string>, q: AlertQuery): Walk<Record>
    requires |rd.pages| == |rd.tables| && 0 < LimitOf(q.limit)
  {
    Walk(seq(|rd.tables|, i requires 0 <= i < |rd.tables| => Candidates(rd.tables[i], routes, q)),
         seq(|rd.pages|, i requires 0 <= i < |rd.pages| => PageFor(rd, routes, q, i)))
  }

  lemma {:induction false} FiltersIgnoreTheCursor(events: seq<Record>, routes: set<string>, q: AlertQuery, c: Cursor)
    ensures Candidates(events, routes, q.(cursor := c)) == Candidates(events, routes, q)
  {
    if events != [] {
      FiltersIgnoreTheCursor(Init(events), routes, q, c);
    }
  }

  function PageOf(events: seq<Record>, routes: set<string>, q: AlertQuery): Page<Record>
    requires 0 < LimitOf(q.limit)
  {
    Fetch(Candidates(events, routes, q), StartOf(q), LimitOf(q.limit))
  }

  /** A cut page ends in a stored alert, whose position is the cursor. */
  lemma CutPageEndsInAnAlert(events: seq<Record>, routes: set<string>, q: AlertQuery)
    requires DistinctRecords(events) && 0 < LimitOf(q.limit) && PageOf(events, routes, q).next.Some?
    ensures var page := PageOf(events, routes, q);
            && page.rows != [] && Last(page.rows).row in events
            && page.next.value == PosOf(Last(page.rows).row, Descending(q))
  {
    var page := PageOf(events, routes, q);
    CandidatesAreDistinct(events, routes, q);
    CandidatesAreSelected(events, routes, q);
    FetchIsFaithful(Candidates(events, routes, q), StartOf(q), LimitOf(q.limit));
    assert Last(page.rows) in page.rows;
  }

  /** The answer is the fetched page, and its cursor text carries the position of the page's last row. */
  lemma AnswerIsFetch(events: seq<Record>, routes: set<string>, q: AlertQuery)
    requires DistinctRecords(events) && Rejection(q).None?
    ensures var page, answer := PageOf(events, routes, q), Answer(events, routes, q);
            && answer.Found?
            && answer.page.alerts == RowsOf(page.rows)
            && (answer.page.next.At? <==> page.next.Some?)
            && (answer.page.next.At? ==> answer.page.next.order == Tag(q)
                                         && StartOf(q.(cursor := answer.page.next)) == page.next)
  {
    var page := PageOf(events, routes, q);
    if page.next.Some? {
      CutPageEndsInAnAlert(events, routes, q);
      assert Last(RowsOf(page.rows)) == Last(page.rows).row;
    }
  }

  lemma ReadIsFetch(rd: Reading, routes: set<string>, q: AlertQuery, i: nat)
    requires IsReading(rd, routes, q) && i < |rd.pages|
    ensures rd.pages[i].alerts == RowsOf(PageFor(rd, routes, q, i).rows)
    ensures rd.pages[i].next.At? <==> PageFor(rd, routes, q, i).next.Some?
    ensures rd.pages[i].next.At? ==> StartOf(QueryAt(rd, q, i + 1)) == PageFor(rd, routes, q, i).next
    ensures DistinctPositions(Candidates(rd.tables[i], routes, q))
    ensures i + 1 < |rd.pages| ==> rd.pages[i].next.At?
  {
    assert ReadFollows(rd, routes, q, i);
    var here := QueryAt(rd, q, i);
    FiltersIgnoreTheCursor(rd.tables[i], routes, q, here.cursor);
    assert here == q.(cursor := here.cursor);
    assert Rejection(here).None?;
    AnswerIsFetch(rd.tables[i], routes, here);
    CandidatesAreDistinct(rd.tables[i], routes, q);
    assert here.(cursor := rd.pages[i].next) == QueryAt(rd, q, i + 1);
  }

  lemma ReadingIsWalk(rd: Reading, routes: set<string>, q: AlertQuery)
    requires IsReading(rd, routes, q)
    ensures IsWalk(WalkFor(rd, routes, q), StartOf(q), LimitOf(q.limit))
  {
    var w := WalkFor(rd, routes, q);
    forall i: nat | i < |w.pages|
      ensures PageFollows(w, StartOf(q), LimitOf(q.limit), i)
    {
      ReadIsFetch(rd, routes, q, i);
      if i > 0 {
        ReadIsFetch(rd, routes, q, i - 1);
      }
    }
  }

  lemma RowsOfJoin(a: seq<Keyed<Record>>, b: seq<Keyed<Record>>)
    ensures RowsOf(a + b) == RowsOf(a) + RowsOf(b)
  {
  }

  /** Every row carries its own sort position. */
  predicate Placed(rows: seq<Keyed<Record>>, descending: bool) {
    forall i :: 0 <= i < |rows| ==> rows[i].pos == PosOf(rows[i].row, descending)
  }

  lemma PageRowsArePlaced(rd: Reading, routes: set<string>, q: AlertQuery, i: nat)
    requires IsReading(rd, routes, q) && i < |rd.pages|
    ensures Placed(PageFor(rd, routes, q, i).rows, Descending(q))
  {
    ReadIsFetch(rd, routes, q, i);
    CandidatesAreSelected(rd.tables[i], routes, q);
    FetchIsFaithful(Candidates(rd.tables[i], routes, q), StartOf(QueryAt(rd, q, i)), LimitOf(q.limit));
  }

  /** Page `i` of the reading shows the rows of page `i` of the walk, each in its place. */
  predicate Shows(rd: Reading, w: Walk<Record>, q: AlertQuery, i: nat)
    requires i < |rd.pages| == |w.pages|
  {
    rd.pages[i].alerts == RowsOf(w.pages[i].rows) && Placed(w.pages[i].rows, Descending(q))
  }

  lemma {:induction false} ShownRowsAreReturned(rd: Reading, w: Walk<Record>, q: AlertQuery, n: nat)
    requires n <= |rd.pages| == |w.pages| && forall i: nat :: i < n ==> Shows(rd, w, q, i)
    ensures AlertsRead(rd, n) == RowsOf(Returned(w, n))
    ensures Placed(Returned(w, n), Descending(q))
  {
    if n > 0 {
      ShownRowsAreReturned(rd, w, q, n - 1);
      assert Shows(rd, w, q, n - 1);
      RowsOfJoin(Returned(w, n - 1), w.pages[n - 1].rows);
    }
  }

  lemma AlertsAreReturned(rd: Reading, routes: set<string>, q: AlertQuery, w: Walk<Record>, n: nat)
    requires IsReading(rd, routes, q) && w == WalkFor(rd, routes, q) && n <= |rd.pages|
    ensures AlertsRead(rd, n) == RowsOf(Returned(w, n))
    ensures Placed(Returned(w, n), Descending(q))
  {
    forall i: nat | i < n
      ensures Shows(rd, w, q, i)
    {
      PageIsRead(rd, routes, q, w, i);
    }
    ShownRowsAreReturned(rd, w, q, n);
  }

  lemma PageIsRead(rd: Reading, routes: set<string>, q: AlertQuery, w: Walk<Record>, i: nat)
    requires IsReading(rd, routes, q) && w == WalkFor(rd, routes, q) && i < |rd.pages|
    ensures rd.pages[i].alerts == RowsOf(w.pages[i].rows)
    ensures Placed(w.pages[i].rows, Descending(q))
    ensures rd.pages[i].next.At? <==> w.pages[i].next.Some?
  {
    ReadIsFetch(rd, routes, q, i);
    PageRowsArePlaced(rd, routes, q, i);
  }

  /** Strictly later in the direction of the query: by receipt time, then by record id. */
  predicate FollowsInOrder(a: Record, b: Record, q: AlertQuery) {
    if q.order == "desc" then b.createdAt < a.createdAt || (b.createdAt == a.createdAt && b.id < a.id)
    else a.createdAt < b.createdAt || (a.createdAt == b.createdAt && a.id < b.id)
  }

  /** Whatever is inserted or pruned between pages, no alert is read twice, and alerts come in order. */
  lemma AlertsNeverRepeat(rd: Reading, routes: set<string>, q: AlertQuery, i: nat, j: nat)
    requires IsReading(rd, routes, q)
    requires i < j < |AlertsRead(rd, |rd.pages|)|
    ensures FollowsInOrder(AlertsRead(rd, |rd.pages|)[i], AlertsRead(rd, |rd.pages|)[j], q)
    ensures AlertsRead(rd, |rd.pages|)[i] != AlertsRead(rd, |rd.pages|)[j]
  {
    var n, w := |rd.pages|, WalkFor(rd, routes, q);
    ReadingIsWalk(rd, routes, q);
    AlertsAreReturned(rd, routes, q, w, n);
    NeverReturnedTwice(w, StartOf(q), LimitOf(q.limit), n, i, j);
  }

  predicate SameAlert(a: Record, b: Record) {
    a.id == b.id && a.createdAt == b.createdAt
  }

  /** `r` occurs in the list exactly once. */
  predicate ReadOnce(alerts: seq<Record>, r: Record) {
    exists i :: 0 <= i < |alerts| && SameAlert(alerts[i], r) && ReadOnlyAt(alerts, r, i)
  }

  predicate ReadOnlyAt(alerts: seq<Record>, r: Record, i: int) {
    forall j :: 0 <= j < |alerts| && SameAlert(alerts[j], r) ==> j == i
  }

  lemma PresentInTheWalk(rd: Reading, routes: set<string>, q: AlertQuery, r: Record)
    requires IsReading(rd, routes, q) && Selected(r, routes, q)
    requires forall i :: 0 <= i < |rd.tables| ==> r in rd.tables[i]
    ensures forall i :: 0 <= i < |rd.tables| ==> HasPosition(WalkFor(rd, routes, q).tables[i], PosOf(r, Descending(q)))
  {
    var w, p := WalkFor(rd, routes, q), PosOf(r, Descending(q));
    forall i | 0 <= i < |w.tables|
      ensures HasPosition(w.tables[i], p)
    {
      CandidatesAreSelected(rd.tables[i], routes, q);
      assert Keyed(p, r) in w.tables[i];
    }
  }

  lemma PlacedOnceIsReadOnce(rows: seq<Keyed<Record>>, r: Record, descending: bool)
    requires Placed(rows, descending)
    requires HasOnce(rows, PosOf(r, descending))
    ensures ReadOnce(RowsOf(rows), r)
  {
    var alerts, p := RowsOf(rows), PosOf(r, descending);
    var i :| 0 <= i < |rows| && rows[i].pos == p && Keyset.OnlyAt(rows, p, i);
    assert forall j :: 0 <= j < |rows| ==> alerts[j] == rows[j].row;
    assert SameAlert(alerts[i], r) && ReadOnlyAt(alerts, r, i);
  }

  lemma ReturnedOnceWhenPresent(rd: Reading, routes: set<string>, q: AlertQuery, r: Record, w: Walk<Record>)
    requires IsReading(rd, routes, q) && rd.pages != [] && !Last(rd.pages).next.At?
    requires Selected(r, routes, q) && Past(PosOf(r, Descending(q)), StartOf(q))
    requires forall i :: 0 <= i < |rd.tables| ==> r in rd.tables[i]
    requires w == WalkFor(rd, routes, q)
    ensures HasOnce(Returned(w, |rd.pages|), PosOf(r, Descending(q)))
  {
    ReadingIsWalk(rd, routes, q);
    PageIsRead(rd, routes, q, w, |rd.pages| - 1);
    PresentInTheWalk(rd, routes, q, r);
    PresentThroughoutIsReturnedOnce(w, StartOf(q), LimitOf(q.limit), PosOf(r, Descending(q)));
  }

  /** Later than the cursor in ascending order, earlier in descending order; record ids break ties. */
  predicate PastCursor(r: Record, q: AlertQuery) {
    q.cursor.At? ==>
      if q.order == "desc" then r.createdAt < q.cursor.time || (r.createdAt == q.cursor.time && r.id < q.cursor.id)
      else q.cursor.time < r.createdAt || (r.createdAt == q.cursor.time && q.cursor.id < r.id)
  }

  /** When the reading ends, every matching alert that was there throughout has been read exactly once. */
  lemma AlertsPresentThroughoutAreRead(rd: Reading, routes: set<string>, q: AlertQuery, r: Record)
    requires IsReading(rd, routes, q) && rd.pages != [] && !Last(rd.pages).next.At?
    requires r.event.route in routes && (q.since.From? ==> q.since.ms <= r.createdAt)
    requires q.source != "" ==> r.event.source == q.source
    requires q.severity != "" ==> SeverityName(r.event.severity) == q.severity
    requires q.status != "" ==> StatusName(r.event.status) == q.status
    requires PastCursor(r, q)
    requires forall i :: 0 <= i < |rd.tables| ==> r in rd.tables[i]
    ensures ReadOnce(AlertsRead(rd, |rd.pages|), r)
  {
    var n, w := |rd.pages|, WalkFor(rd, routes, q);
    ReturnedOnceWhenPresent(rd, routes, q, r, w);
    AlertsAreReturned(rd, routes, q, w, n);
    PlacedOnceIsReadOnce(Returned(w, n), r, Descending(q));
  }

  /** Receipt times are taken from a clock after 1970; a cursor with an earlier time would be rejected. */
  predicate Modern(events: seq<Record>) {
    forall r :: r in events ==> 0 <= r.createdAt
  }

  lemma NextQueryIsAccepted(events: seq<Record>, routes: set<string>, q: AlertQuery)
    requires DistinctRecords(events) && Modern(events) && Rejection(q).None?
    requires Answer(events, routes, q).page.next.At?
    ensures Rejection(q.(cursor := Answer(events, routes, q).page.next)).None?
    ensures StartOf(q.(cursor := Answer(events, routes, q).page.next)) == PageOf(events, routes, q).next
  {
    AnswerIsFetch(events, routes, q);
    CutPageEndsInAnAlert(events, routes, q);
  }

  /** The follow-up query is accepted, selects from the same rows, starts where the page ended, and has less to read. */
  lemma NextQueryGoesOn(events: seq<Record>, routes: set<string>, q: AlertQuery, rows: seq<Keyed<Record>>, q': AlertQuery)
    requires DistinctRecords(events) && Modern(events) && Rejection(q).None?
    requires rows == Candidates(events, routes, q)
    requires Answer(events, routes, q).page.next.At? && q' == q.(cursor := Answer(events, routes, q).page.next)
    ensures Rejection(q').None? && LimitOf(q'.limit) == LimitOf(q.limit)
    ensures Candidates(events, routes, q') == rows
    ensures Fetch(rows, StartOf(q), LimitOf(q.limit)).next == StartOf(q') && StartOf(q').Some?
    ensures DistinctPositions(rows) && |Beyond(rows, StartOf(q'))| < |Beyond(rows, StartOf(q))|
  {
    NextQueryIsAccepted(events, routes, q);
    FiltersIgnoreTheCursor(events, routes, q, q'.cursor);
    CandidatesAreDistinct(events, routes, q);
    AnswerIsFetch(events, routes, q);
    CursorAdvances(rows, StartOf(q), LimitOf(q.limit));
  }

  /** Reading an unchanging table to the end with one limit. */
  function ReadAll(events: seq<Record>, routes: set<string>, q: AlertQuery): seq<Record>
    requires DistinctRecords(events) && Modern(events) && Rejection(q).None?
    decreases |Beyond(Candidates(events, routes, q), StartOf(q))|
  {
    var page := Answer(events, routes, q).page;
    if !page.next.At? then page.alerts
    else
      var q' := q.(cursor := page.next);
      NextQueryGoesOn(events, routes, q, Candidates(events, routes, q), q');
      page.alerts + ReadAll(events, routes, q')
  }

  lemma {:induction false} ReadAllCollects(events: seq<Record>, routes: set<string>, q: AlertQuery)
    requires DistinctRecords(events) && Modern(events) && Rejection(q).None?
    requires DistinctPositions(Candidates(events, routes, q))
    ensures ReadAll(events, routes, q) == RowsOf(Collect(Candidates(events, routes, q), StartOf(q), LimitOf(q.limit)))
    decreases |Beyond(Candidates(events, routes, q), StartOf(q))|
  {
    var rows, page := Candidates(events, routes, q), Answer(events, routes, q).page;
    AnswerIsFetch(events, routes, q);
    if page.next.At? {
      var q' := q.(cursor := page.next);
      NextQueryGoesOn(events, routes, q, rows, q');
      ReadAllCollects(events, routes, q');
      RowsOfJoin(PageOf(events, routes, q).rows, Collect(rows, StartOf(q'), LimitOf(q.limit)));
    }
  }

  /** On a static table the concatenated pages are the sorted matching alerts, for every limit and both directions. */
  lemma StaticPagesAreTheSortedList(events: seq<Record>, routes: set<string>, q: AlertQuery)
    requires DistinctRecords(events) && Modern(events) && Rejection(q).None?
    ensures ReadAll(events, routes, q) == RowsOf(Sort(Beyond(Candidates(events, routes, q), StartOf(q))))
  {
    CandidatesAreDistinct(events, routes, q);
    ReadAllCollects(events, routes, q);
    PagesConcatenateToTheSortedList(Candidates(events, routes, q), StartOf(q), LimitOf(q.limit));
  }

  // ----- one page -----

  /** A query is refused exactly for an unknown order, a limit outside 1 to 100, a bad time, a bad cursor, or a cursor of the
      other direction, in this order. */
  lemma FailsExactly(events: seq<Record>, routes: set<string>, q: AlertQuery)
    ensures var answer := Answer(events, routes, q);
            && (answer == Failed(BadOrder) <==> q.order !in {"", "asc", "desc"})
            && (answer == Failed(BadLimit) <==> q.order in {"", "asc", "desc"} && (q.limit < 0 || 100 < q.limit))
            && (answer == Failed(SinceNotATime) <==>
                  q.order in {"", "asc", "desc"} && 0 <= q.limit <= 100 && q.since.BadSince?)
            && (answer == Failed(InvalidCursor) <==>
                  && q.order in {"", "asc", "desc"} && 0 <= q.limit <= 100 && !q.since.BadSince?
                  && (q.cursor.BadCursor? || (q.cursor.At? && q.cursor.time < 0)))
            && (answer == Failed(CursorOrderMismatch) <==>
                  && q.order in {"", "asc", "desc"} && 0 <= q.limit <= 100 && !q.since.BadSince?
                  && q.cursor.At? && 0 <= q.cursor.time && q.cursor.order != if q.order == "desc" then "desc" else "")
            && (answer.Found? <==>
                  && q.order in {"", "asc", "desc"} && 0 <= q.limit <= 100 && !q.since.BadSince?
                  && (q.cursor.NoCursor?
                      || (q.cursor.At? && 0 <= q.cursor.time
                          && q.cursor.order == if q.order == "desc" then "desc" else "")))
  {
  }

  /** A page shows only stored alerts of the permitted routes that meet every given filter and lie past the cursor. */
  lemma PageShowsOnly(events: seq<Record>, routes: set<string>, q: AlertQuery, r: Record)
    requires DistinctRecords(events) && Answer(events, routes, q).Found? && r in Answer(events, routes, q).page.alerts
    ensures r in events && r.event.route in routes
    ensures q.since.From? ==> q.since.ms <= r.createdAt
    ensures q.source != "" ==> r.event.source == q.source
    ensures q.severity != "" ==> SeverityName(r.event.severity) == q.severity
    ensures q.status != "" ==> StatusName(r.event.status) == q.status
    ensures PastCursor(r, q)
  {
    PageIsFaithful(events, routes, q);
    var rows := PageOf(events, routes, q).rows;
    var i :| 0 <= i < |RowsOf(rows)| && RowsOf(rows)[i] == r;
    assert rows[i] in rows;
  }

  lemma PageIsFaithful(events: seq<Record>, routes: set<string>, q: AlertQuery)
    requires DistinctRecords(events) && Answer(events, routes, q).Found?
    ensures var page := PageOf(events, routes, q);
            && Answer(events, routes, q).page.alerts == RowsOf(page.rows)
            && Faithful(page, Candidates(events, routes, q), StartOf(q))
            && |page.rows| <= LimitOf(q.limit) && (page.next.Some? ==> |page.rows| == LimitOf(q.limit))
            && (Answer(events, routes, q).page.next.At? <==> page.next.Some?)
    ensures forall y :: y in Candidates(events, routes, q) <==>
              y.row in events && Selected(y.row, routes, q) && y.pos == PosOf(y.row, Descending(q))
  {
    AnswerIsFetch(events, routes, q);
    CandidatesAreDistinct(events, routes, q);
    CandidatesAreSelected(events, routes, q);
    FetchIsFaithful(Candidates(events, routes, q), StartOf(q), LimitOf(q.limit));
  }

  /** A page holds as many alerts as asked for, 20 by default, or all there are; then it carries no cursor. */
  lemma PageIsFull(events: seq<Record>, routes: set<string>, q: AlertQuery, r: Record)
    requires DistinctRecords(events) && Answer(events, routes, q).Found?
    ensures var page, size := Answer(events, routes, q).page, if q.limit == 0 then 20 else q.limit;
            && |page.alerts| <= size && (page.next.At? ==> |page.alerts| == size)
    ensures (&& !Answer(events, routes, q).page.next.At? && r in events && r.event.route in routes
             && (q.since.From? ==> q.since.ms <= r.createdAt)
             && (q.source != "" ==> r.event.source == q.source)
             && (q.severity != "" ==> SeverityName(r.event.severity) == q.severity)
             && (q.status != "" ==> StatusName(r.event.status) == q.status)
             && PastCursor(r, q))
            ==> r in Answer(events, routes, q).page.alerts
  {
    PageIsFaithful(events, routes, q);
    var rows, y := PageOf(events, routes, q).rows, Keyed(PosOf(r, Descending(q)), r);
    if y in rows {
      var i :| 0 <= i < |rows| && rows[i] == y;
      assert RowsOf(rows)[i] == r;
    }
  }

  /** Only ascending pages carry a checkpoint: the place of their last alert, or the cursor asked with when they are empty. */
  lemma CheckpointsResume(events: seq<Record>, routes: set<string>, q: AlertQuery)
    requires Answer(events, routes, q).Found?
    ensures var page := Answer(events, routes, q).page;
            if q.order == "desc" then page.checkpoint.NoCursor?
            else if page.alerts == [] then page.checkpoint == q.cursor
            else page.checkpoint == At(Last(page.alerts).createdAt, Last(page.alerts).id, "")
    ensures var page := Answer(events, routes, q).page;
            page.next.At? ==>
              && page.alerts != []
              && page.next == At(Last(page.alerts).createdAt, Last(page.alerts).id, if q.order == "desc" then "desc" else "")
  {
  }

  // ----- incidents -----

  /** A row of the incidents table with its rowid. */
  datatype IncidentRow = IncidentRow(rowid: int, key: Key, row: Incident)

  datatype Offset = NoOffset | BadOffset | Offset(n: int)

  datatype IncidentResult = Incidents(rows: seq<IncidentRow>, next: Offset) | Rejected(error: QueryError)

  function FiringRows(table: seq<IncidentRow>, routes: set<string>): seq<Keyed<IncidentRow>> {
    if table == [] then []
    else
      var r, early := Last(table), FiringRows(Init(table), routes);
      if r.key.route in routes && r.row.state.IsFiring? then early + [Keyed(Pos(r.rowid, 0), r)] else early
  }

  function OffsetPos(cursor: Offset): Option<Pos> {
    Some(Pos(if cursor.Offset? then cursor.n else 0, 0))
  }

  function IncidentsOf(rows: seq<Keyed<IncidentRow>>): (s: seq<IncidentRow>)
    ensures |s| == |rows| && forall i :: 0 <= i < |rows| ==> s[i] == rows[i].row
  {
    seq(|rows|, i requires 0 <= i < |rows| => rows[i].row)
  }

  function IncidentAnswer(table: seq<IncidentRow>, routes: set<string>, cursor: Offset, limit: int): IncidentResult {
    if LimitOf(limit) < 1 || 100 < LimitOf(limit) then Rejected(BadLimit)
    else if cursor.BadOffset? || (cursor.Offset? && cursor.n < 0) then Rejected(InvalidCursor)
    else
      var page := Fetch(FiringRows(table, routes), OffsetPos(cursor), LimitOf(limit));
      Incidents(IncidentsOf(page.rows), if page.next.Some? then Offset(page.next.value.major) else NoOffset)
  }


  lemma ReadIncidentsGiveTheAnswer(table: seq<IncidentRow>, routes: set<string>, cursor: Offset, limit: int,
                                   rows: seq<Keyed<IncidentRow>>)
    requires 1 <= LimitOf(limit) <= 100 && !cursor.BadOffset? && (cursor.Offset? ==> 0 <= cursor.n)
    requires rows == Selection(FiringRows(table, routes), OffsetPos(cursor), LimitOf(limit))
    ensures var size := LimitOf(limit);
            IncidentAnswer(table, routes, cursor, limit) ==
            if size < |rows| then Incidents(IncidentsOf(rows)[..size], Offset(rows[size - 1].pos.major))
            else Incidents(IncidentsOf(rows), NoOffset)
  {
    var size := LimitOf(limit);
    ExtraRowMarksTheCut(FiringRows(table, routes), OffsetPos(cursor), size);
    assert size < |rows| ==> IncidentsOf(rows)[..size] == IncidentsOf(rows[..size]);
  }

  method ScanIncidents(rows: seq<Keyed<IncidentRow>>) returns (found: seq<IncidentRow>, ids: seq<int>)
    ensures found == IncidentsOf(rows)
    ensures |ids| == |rows| && forall k :: 0 <= k < |rows| ==> ids[k] == rows[k].pos.major
  {
    found, ids := [], [];
    for i := 0 to |rows|
      invariant |found| == |ids| == i
      invariant forall k :: 0 <= k < i ==> found[k] == rows[k].row && ids[k] == rows[k].pos.major
    {
      found := found + [rows[i].row];
      ids := ids + [rows[i].pos.major];
    }
  }

  method QueryIncidents(table: seq<IncidentRow>, routes: set<string>, cursor: Offset, limit: int) returns (result: IncidentResult)
    ensures result == IncidentAnswer(table, routes, cursor, limit)
  {
    var size := limit;
    if size == 0 {
      size := 20;
    }
    if size < 1 || 100 < size {
      return Rejected(BadLimit);
    }
    if cursor.BadOffset? || (cursor.Offset? && cursor.n < 0) {
      return Rejected(InvalidCursor);
    }
    var rows := Selection(FiringRows(table, routes), OffsetPos(cursor), size);
    var found, ids := ScanIncidents(rows);
    ReadIncidentsGiveTheAnswer(table, routes, cursor, limit, rows);
    if size < |ids| {
      return Incidents(found[..size], Offset(ids[size - 1]));
    }
    return Incidents(found, NoOffset);
  }

  predicate UniqueRowids(table: seq<IncidentRow>) {
    forall i, j :: 0 <= i < j < |table| ==> table[i].rowid != table[j].rowid
  }

  lemma {:induction false} FiringRowsAreFiring(table: seq<IncidentRow>, routes: set<string>)
    ensures forall y :: y in FiringRows(table, routes) <==>
              y.row in table && y.row.key.route in routes && y.row.row.state.IsFiring? && y.pos == Pos(y.row.rowid, 0)
  {
    if table != [] {
      FiringRowsAreFiring(Init(table), routes);
      assert table == Init(table) + [Last(table)];
    }
  }

  lemma {:induction false} FiringRowsAreDistinct(table: seq<IncidentRow>, routes: set<string>)
    requires UniqueRowids(table)
    ensures DistinctPositions(FiringRows(table, routes))
  {
    if table != [] {
      var early, r := Init(table), Last(table);
      FiringRowsAreDistinct(early, routes);
      FiringRowsAreFiring(early, routes);
      var rows := FiringRows(early, routes);
      forall i | 0 <= i < |rows|
        ensures rows[i].pos != Pos(r.rowid, 0)
      {
        assert rows[i] in rows;
        var j :| 0 <= j < |early| && early[j] == rows[i].row;
        assert table[j].rowid != table[|table| - 1].rowid;
      }
    }
  }

  /** Reads of the incident list, each from the offset the one before returned, while incidents open and close. */
  datatype IncidentReading = IncidentReading(tables: seq<seq<IncidentRow>>, answers: seq<IncidentResult>)

  function NextOffset(answer: IncidentResult): Offset {
    if answer.Incidents? then answer.next else NoOffset
  }

  function OffsetAt(rd: IncidentReading, cursor: Offset, i: nat): Offset
    requires i <= |rd.answers|
  {
    if i == 0 then cursor else NextOffset(rd.answers[i - 1])
  }

  predicate IncidentReadFollows(rd: IncidentReading, routes: set<string>, cursor: Offset, limit: int, i: nat)
    requires i < |rd.answers| == |rd.tables|
  {
    && UniqueRowids(rd.tables[i])
    && rd.answers[i].Incidents?
    && rd.answers[i] == IncidentAnswer(rd.tables[i], routes, OffsetAt(rd, cursor, i), limit)
    && (i + 1 < |rd.answers| ==> rd.answers[i].next.Offset?)
  }

  predicate IsIncidentReading(rd: IncidentReading, routes: set<string>, cursor: Offset, limit: int) {
    && |rd.answers| == |rd.tables| && 1 <= LimitOf(limit) <= 100
    && forall i: nat :: i < |rd.answers| ==> IncidentReadFollows(rd, routes, cursor, limit, i)
  }

  function IncidentPageOf(table: seq<IncidentRow>, routes: set<string>, from: Offset, limit: int): Page<IncidentRow>
    requires 0 < LimitOf(limit)
  {
    Fetch(FiringRows(table, routes), OffsetPos(from), LimitOf(limit))
  }

  function IncidentWalk(rd: IncidentReading, routes: set<string>, cursor: Offset, limit: int): Walk<IncidentRow>
    requires |rd.answers| == |rd.tables| && 0 < LimitOf(limit)
  {
    Walk(seq(|rd.tables|, i requires 0 <= i < |rd.tables| => FiringRows(rd.tables[i], routes)),
         seq(|rd.tables|, i requires 0 <= i < |rd.tables| =>
           IncidentPageOf(rd.tables[i], routes, OffsetAt(rd, cursor, i), limit)))
  }

  /** All positions have minor part 0, so the offset alone restores the position. */
  lemma OffsetCarriesThePosition(table: seq<IncidentRow>, routes: set<string>, from: Offset, limit: int)
    requires UniqueRowids(table) && 0 < LimitOf(limit)
    ensures var page := IncidentPageOf(table, routes, from, limit);
            page.next.Some? ==> page.next == OffsetPos(Offset(page.next.value.major))
  {
    var page := IncidentPageOf(table, routes, from, limit);
    FiringRowsAreDistinct(table, routes);
    FiringRowsAreFiring(table, routes);
    FetchIsFaithful(FiringRows(table, routes), OffsetPos(from), LimitOf(limit));
    if page.next.Some? {
      assert Last(page.rows) in page.rows;
    }
  }

  /** Each answer is the page the walk fetches. */
  lemma IncidentReadIsFetch(rd: IncidentReading, routes: set<string>, cursor: Offset, limit: int, i: nat)
    requires IsIncidentReading(rd, routes, cursor, limit) && i < |rd.answers|
    ensures var page := IncidentPageOf(rd.tables[i], routes, OffsetAt(rd, cursor, i), limit);
            && rd.answers[i].Incidents? && rd.answers[i].rows == IncidentsOf(page.rows)
            && (rd.answers[i].next.Offset? <==> page.next.Some?)
            && (page.next.Some? ==> OffsetPos(OffsetAt(rd, cursor, i + 1)) == page.next)
            && (i + 1 < |rd.answers| ==> page.next.Some?)
    ensures DistinctPositions(FiringRows(rd.tables[i], routes))
  {
    assert IncidentReadFollows(rd, routes, cursor, limit, i);
    OffsetCarriesThePosition(rd.tables[i], routes, OffsetAt(rd, cursor, i), limit);
    FiringRowsAreDistinct(rd.tables[i], routes);
  }

  lemma IncidentReadingIsWalk(rd: IncidentReading, routes: set<string>, cursor: Offset, limit: int)
    requires IsIncidentReading(rd, routes, cursor, limit)
    ensures IsWalk(IncidentWalk(rd, routes, cursor, limit), OffsetPos(cursor), LimitOf(limit))
  {
    var w := IncidentWalk(rd, routes, cursor, limit);
    forall i: nat | i < |w.pages|
      ensures PageFollows(w, OffsetPos(cursor), LimitOf(limit), i)
    {
      IncidentReadIsFetch(rd, routes, cursor, limit, i);
      if i > 0 {
        IncidentReadIsFetch(rd, routes, cursor, limit, i - 1);
      }
    }
  }

  function IncidentsRead(rd: IncidentReading, n: nat): seq<IncidentRow>
    requires n <= |rd.answers|
  {
    if n == 0 then []
    else IncidentsRead(rd, n - 1) + if rd.answers[n - 1].Incidents? then rd.answers[n - 1].rows else []
  }

  lemma IncidentsOfJoin(a: seq<Keyed<IncidentRow>>, b: seq<Keyed<IncidentRow>>)
    ensures IncidentsOf(a + b) == IncidentsOf(a) + IncidentsOf(b)
  {
  }

  predicate PlacedByRowid(rows: seq<Keyed<IncidentRow>>) {
    forall i :: 0 <= i < |rows| ==> rows[i].pos == Pos(rows[i].row.rowid, 0)
  }

  lemma IncidentPageIsPlaced(table: seq<IncidentRow>, routes: set<string>, from: Offset, limit: int)
    requires UniqueRowids(table) && 0 < LimitOf(limit)
    ensures PlacedByRowid(IncidentPageOf(table, routes, from, limit).rows)
  {
    FiringRowsAreDistinct(table, routes);
    FiringRowsAreFiring(table, routes);
    FetchIsFaithful(FiringRows(table, routes), OffsetPos(from), LimitOf(limit));
  }

  lemma IncidentPageIsRead(rd: IncidentReading, routes: set<string>, cursor: Offset, limit: int, w: Walk<IncidentRow>, i: nat)
    requires IsIncidentReading(rd, routes, cursor, limit) && w == IncidentWalk(rd, routes, cursor, limit) && i < |rd.answers|
    ensures rd.answers[i].Incidents? && rd.answers[i].rows == IncidentsOf(w.pages[i].rows)
    ensures PlacedByRowid(w.pages[i].rows)
    ensures rd.answers[i].next.Offset? <==> w.pages[i].next.Some?
  {
    IncidentReadIsFetch(rd, routes, cursor, limit, i);
    assert IncidentReadFollows(rd, routes, cursor, limit, i);
    IncidentPageIsPlaced(rd.tables[i], routes, OffsetAt(rd, cursor, i), limit);
  }

  predicate ShowsIncidents(rd: IncidentReading, w: Walk<IncidentRow>, i: nat)
    requires i < |rd.answers| == |w.pages|
  {
    && rd.answers[i].Incidents? && rd.answers[i].rows == IncidentsOf(w.pages[i].rows)
    && PlacedByRowid(w.pages[i].rows)
  }

  lemma {:induction false} ShownIncidentsAreReturned(rd: IncidentReading, w: Walk<IncidentRow>, n: nat)
    requires n <= |rd.answers| == |w.pages| && forall i: nat :: i < n ==> ShowsIncidents(rd, w, i)
    ensures IncidentsRead(rd, n) == IncidentsOf(Returned(w, n))
    ensures PlacedByRowid(Returned(w, n))
  {
    if n > 0 {
      ShownIncidentsAreReturned(rd, w, n - 1);
      assert ShowsIncidents(rd, w, n - 1);
      IncidentsOfJoin(Returned(w, n - 1), w.pages[n - 1].rows);
    }
  }

  lemma IncidentsAreReturned(rd: IncidentReading, routes: set<string>, cursor: Offset, limit: int, w: Walk<IncidentRow>, n: nat)
    requires IsIncidentReading(rd, routes, cursor, limit) && w == IncidentWalk(rd, routes, cursor, limit) && n <= |rd.answers|
    ensures IncidentsRead(rd, n) == IncidentsOf(Returned(w, n))
    ensures PlacedByRowid(Returned(w, n))
  {
    forall i: nat | i < n
      ensures ShowsIncidents(rd, w, i)
    {
      IncidentPageIsRead(rd, routes, cursor, limit, w, i);
    }
    ShownIncidentsAreReturned(rd, w, n);
  }

  /** A page of incidents shows only firing ones of the permitted routes, past the cursor, at most as many as asked for. */
  lemma IncidentsShownAreFiring(table: seq<IncidentRow>, routes: set<string>, cursor: Offset, limit: int)
    requires UniqueRowids(table) && IncidentAnswer(table, routes, cursor, limit).Incidents?
    ensures forall r :: r in IncidentAnswer(table, routes, cursor, limit).rows ==>
              && r in table && r.key.route in routes && r.row.state.IsFiring?
              && (if cursor.Offset? then cursor.n else 0) < r.rowid
    ensures |IncidentAnswer(table, routes, cursor, limit).rows| <= if limit == 0 then 20 else limit
  {
    var rows := IncidentPageOf(table, routes, cursor, limit).rows;
    FiringRowsAreDistinct(table, routes);
    FiringRowsAreFiring(table, routes);
    FetchIsFaithful(FiringRows(table, routes), OffsetPos(cursor), LimitOf(limit));
    forall r | r in IncidentsOf(rows)
      ensures r in table && r.key.route in routes && r.row.state.IsFiring?
      ensures (if cursor.Offset? then cursor.n else 0) < r.rowid
    {
      var i :| 0 <= i < |rows| && IncidentsOf(rows)[i] == r;
      assert rows[i] in rows;
    }
  }

  /** The list is refused exactly for a limit outside 1 to 100 or a bad cursor. */
  lemma IncidentsFailExactly(table: seq<IncidentRow>, routes: set<string>, cursor: Offset, limit: int)
    ensures var answer := IncidentAnswer(table, routes, cursor, limit);
            && (answer == Rejected(BadLimit) <==> limit < 0 || 100 < limit)
            && (answer == Rejected(InvalidCursor) <==>
                  0 <= limit <= 100 && (cursor.BadOffset? || (cursor.Offset? && cursor.n < 0)))
            && (answer.Incidents? <==> 0 <= limit <= 100 && (cursor.NoOffset? || (cursor.Offset? && 0 <= cursor.n)))
  {
  }

  /** While incidents open and close between pages, rowids strictly increase, so no incident is listed twice. */
  lemma IncidentsNeverRepeat(rd: IncidentReading, routes: set<string>, cursor: Offset, limit: int, i: nat, j: nat)
    requires IsIncidentReading(rd, routes, cursor, limit)
    requires i < j < |IncidentsRead(rd, |rd.answers|)|
    ensures IncidentsRead(rd, |rd.answers|)[i].rowid < IncidentsRead(rd, |rd.answers|)[j].rowid
  {
    var w, n := IncidentWalk(rd, routes, cursor, limit), |rd.answers|;
    IncidentReadingIsWalk(rd, routes, cursor, limit);
    IncidentsAreReturned(rd, routes, cursor, limit, w, n);
    NeverReturnedTwice(w, OffsetPos(cursor), LimitOf(limit), n, i, j);
  }

  predicate FiringAs(table: seq<IncidentRow>, routes: set<string>, rowid: int) {
    exists r :: r in table && r.rowid == rowid && r.key.route in routes && r.row.state.IsFiring?
  }

  lemma FiringHasPosition(table: seq<IncidentRow>, routes: set<string>, rowid: int)
    requires FiringAs(table, routes, rowid)
    ensures HasPosition(FiringRows(table, routes), Pos(rowid, 0))
  {
    FiringRowsAreFiring(table, routes);
    var r :| r in table && r.rowid == rowid && r.key.route in routes && r.row.state.IsFiring?;
    assert Keyed(Pos(rowid, 0), r) in FiringRows(table, routes);
  }

  lemma ListedOnce(rows: seq<Keyed<IncidentRow>>, rowid: int)
    requires PlacedByRowid(rows)
    requires HasOnce(rows, Pos(rowid, 0))
    ensures exists r :: r in IncidentsOf(rows) && r.rowid == rowid
  {
    var i :| 0 <= i < |rows| && rows[i].pos == Pos(rowid, 0) && Keyset.OnlyAt(rows, Pos(rowid, 0), i);
    assert IncidentsOf(rows)[i] == rows[i].row;
    assert IncidentsOf(rows)[i] in IncidentsOf(rows);
  }

  /** An incident that is firing whenever a page is read is listed (and, by the above, only once). */
  lemma FiringThroughoutIsListed(rd: IncidentReading, routes: set<string>, cursor: Offset, limit: int, rowid: int)
    requires IsIncidentReading(rd, routes, cursor, limit)
    requires rd.answers != [] && NextOffset(Last(rd.answers)).NoOffset?
    requires (if cursor.Offset? then cursor.n else 0) < rowid
    requires forall i :: 0 <= i < |rd.tables| ==> FiringAs(rd.tables[i], routes, rowid)
    ensures exists r :: r in IncidentsRead(rd, |rd.answers|) && r.rowid == rowid
  {
    var w, n := IncidentWalk(rd, routes, cursor, limit), |rd.answers|;
    IncidentReadingIsWalk(rd, routes, cursor, limit);
    forall i | 0 <= i < |w.tables|
      ensures HasPosition(w.tables[i], Pos(rowid, 0))
    {
      FiringHasPosition(rd.tables[i], routes, rowid);
    }
    IncidentPageIsRead(rd, routes, cursor, limit, w, n - 1);
    PresentThroughoutIsReturnedOnce(w, OffsetPos(cursor), LimitOf(limit), Pos(rowid, 0));
    IncidentsAreReturned(rd, routes, cursor, limit, w, n);
    ListedOnce(Returned(w, n), rowid);
  }
}
