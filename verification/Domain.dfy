/** Values shared by every component: events, severities and the optional/result types. */
module Domain {

  datatype Option<+T> = None | Some(value: T)

  datatype Status = Firing | Resolved | Info | Test

  datatype Severity = InfoSeverity | Warning | Critical

  /** The order in which severities may escalate inside one incident. */
  function Rank(s: Severity): (r: nat)
    ensures 1 <= r <= 3 && (r == 1 <==> s.InfoSeverity?) && (r == 3 <==> s.Critical?)
  {
    match s
    case InfoSeverity => 1
    case Warning => 2
    case Critical => 3
  }

  /** An accepted notification. Times are milliseconds since 1970; the text fields that no decision reads are left out. */
  datatype Event = Event(
    eventId: string,
    source: string,
    route: string,
    status: Status,
    severity: Severity,
    dedupeKey: string,
    occurredAt: int)

  /** The primary key of an incident. */
  datatype Key = Key(client: string, route: string, dedupeKey: string)

  function KeyOf(client: string, e: Event): Key {
    Key(client, e.route, e.dedupeKey)
  }

  /** Who owns an event subscription: the configured static token, or one OAuth grant. */
  datatype Owner = Static(digest: string) | OAuth(grant: nat)

  /** The typed filters of a subscription; the empty string or None matches everything. */
  datatype Filters = Filters(route: string, source: string, severity: Option<Severity>, status: Option<Status>)

  /** A subscription id is an injective digest of these values, so the values themselves stand for it. */
  datatype SubId = SubId(owner: Owner, policy: string, url: string, filters: Filters)

  /** Sequence indexing helpers used by every history. */
  function Init<T>(s: seq<T>): seq<T>
    requires s != []
  {
    s[..|s| - 1]
  }

  function Last<T>(s: seq<T>): T
    requires s != []
  {
    s[|s| - 1]
  }

  lemma {:induction false} SubsetIsSmaller<T>(a: set<T>, b: set<T>)
    requires a <= b
    ensures |a| <= |b|
  {
    if a != {} {
      var x :| x in a;
      SubsetIsSmaller(a - {x}, b - {x});
    }
  }

  function Min(a: int, b: int): int {
    if a < b then a else b
  }

  function Max(a: int, b: int): int {
    if a < b then b else a
  }
}
