/** The guards in front of intake: the signature check, the nonce table and the per-minute rate table. */
module Windows {
  import opened Domain

  // ----- the signature check -----

  const MAX_INT64: int := 0x7FFF_FFFF_FFFF_FFFF
  const MIN_INT64: int := -0x8000_0000_0000_0000
  const NANOS_PER_MS: int := 1_000_000

  /** Seconds from year 1 to 1970; larger timestamps overflow the clock's 64-bit seconds and land in the distant past. */
  const EPOCH_OFFSET: int := 62_135_596_800

  predicate IsDigit(c: char) {
    '0' <= c <= '9'
  }

  predicate AllDigits(s: string) {
    forall i :: 0 <= i < |s| ==> IsDigit(s[i])
  }

  function DigitsValue(s: string): (v: int)
    requires AllDigits(s)
    ensures 0 <= v
  {
    if s == "" then 0
    else
      assert IsDigit(s[|s| - 1]);
      DigitsValue(Init(s)) * 10 + (Last(s) as int - '0' as int)
  }

  /** The text without its sign. */
  function Unsigned(s: string): string {
    if s != "" && (s[0] == '+' || s[0] == '-') then s[1..] else s
  }

  /** Base-10 parsing of a signed 64-bit number. */
  function ParseInt64(s: string): (v: Option<int>)
    ensures v.Some? ==> MIN_INT64 <= v.value <= MAX_INT64
  {
    var digits := Unsigned(s);
    if digits == "" || !AllDigits(digits) then None
    else
      var n := if s[0] == '-' then -DigitsValue(digits) else DigitsValue(digits);
      if n < MIN_INT64 || MAX_INT64 < n then None else Some(n)
  }

  function DigitChar(d: nat): char
    requires d < 10
  {
    '0' + d as char
  }

  /** The usual way to write a number. */
  function Decimal(n: nat): string {
    if n < 10 then [DigitChar(n)] else Decimal(n / 10) + [DigitChar(n % 10)]
  }

  function Zeros(k: nat): string {
    seq(k, i => '0')
  }

  lemma {:induction false} DecimalDenotes(n: nat)
    ensures Decimal(n) != "" && AllDigits(Decimal(n))
    ensures DigitsValue(Decimal(n)) == n
  {
    if n >= 10 {
      DecimalDenotes(n / 10);
      assert Init(Decimal(n)) == Decimal(n / 10) && Last(Decimal(n)) == DigitChar(n % 10);
    }
  }

  lemma {:induction false} LeadingZeros(k: nat, s: string)
    requires AllDigits(s)
    ensures AllDigits(Zeros(k) + s)
    ensures DigitsValue(Zeros(k) + s) == DigitsValue(s)
  {
    if s != "" {
      LeadingZeros(k, Init(s));
      assert Init(Zeros(k) + s) == Zeros(k) + Init(s) && Last(Zeros(k) + s) == Last(s);
    } else if k > 0 {
      LeadingZeros(k - 1, "");
      assert Zeros(k) + "" == Zeros(k) && Init(Zeros(k)) == Zeros(k - 1) + "" && Last(Zeros(k)) == '0';
    }
  }

  lemma ZerosGrow(k: nat)
    ensures Zeros(k) + Decimal(0) == Zeros(k + 1)
  {
  }

  /** Any text of digits is the usual one of its value behind some zeros. */
  lemma {:induction false} DigitsAreDecimal(s: string) returns (k: nat)
    requires s != "" && AllDigits(s)
    ensures s == Zeros(k) + Decimal(DigitsValue(s))
  {
    var early, d := Init(s), Last(s);
    assert s == early + [d];
    if early == "" {
      k := 0;
      assert DigitsValue(early) == 0;
      assert Zeros(0) + Decimal(DigitsValue(s)) == s;
    } else {
      k := DigitsAreDecimal(early);
      var n := DigitsValue(early);
      if n == 0 {
        ZerosGrow(k);
        k := k + 1;
      } else {
        assert Decimal(n * 10 + (d as int - '0' as int)) == Decimal(n) + [d];
      }
    }
  }

  /** The texts of a number: an optional sign, `k` leading zeros, and its digits. */
  predicate Writes(s: string, v: int, k: nat) {
    var digits := Zeros(k) + Decimal(if v < 0 then -v else v);
    || (0 <= v && (s == digits || s == "+" + digits))
    || (v <= 0 && s == "-" + digits)
  }

  ghost predicate Denotes(s: string, v: int) {
    exists k: nat :: Writes(s, v, k)
  }

  lemma PaddedDigits(k: nat, n: nat)
    ensures var digits := Zeros(k) + Decimal(n);
            digits != "" && AllDigits(digits) && DigitsValue(digits) == n
  {
    DecimalDenotes(n);
    LeadingZeros(k, Decimal(n));
  }

  lemma PlainIsParsed(digits: string)
    requires digits != "" && AllDigits(digits) && DigitsValue(digits) <= MAX_INT64
    ensures ParseInt64(digits) == Some(DigitsValue(digits))
  {
    assert IsDigit(digits[0]);
  }

  lemma SignedIsParsed(sign: char, digits: string)
    requires sign == '+' || sign == '-'
    requires digits != "" && AllDigits(digits)
    ensures var v := if sign == '-' then -DigitsValue(digits) else DigitsValue(digits);
            MIN_INT64 <= v <= MAX_INT64 ==> ParseInt64([sign] + digits) == Some(v)
  {
    assert ([sign] + digits)[1..] == digits;
  }

  lemma DenotedIsParsed(s: string, v: int, k: nat)
    requires MIN_INT64 <= v <= MAX_INT64
    requires Writes(s, v, k)
    ensures ParseInt64(s) == Some(v)
  {
    var n := if v < 0 then -v else v;
    var digits := Zeros(k) + Decimal(n);
    PaddedDigits(k, n);
    if s == digits && 0 <= v {
      PlainIsParsed(digits);
    } else if s == "+" + digits && 0 <= v {
      SignedIsParsed('+', digits);
    } else {
      SignedIsParsed('-', digits);
    }
  }

  lemma ParsedIsDenoted(s: string)
    requires ParseInt64(s).Some?
    ensures Denotes(s, ParseInt64(s).value)
  {
    var digits := Unsigned(s);
    var k := DigitsAreDecimal(digits);
    assert s == if s[0] == '+' then "+" + digits else if s[0] == '-' then "-" + digits else digits;
    assert Writes(s, ParseInt64(s).value, k);
  }

  /** The parser reads a number from exactly the texts that denote it, and rejects what does not fit 64 bits. */
  lemma ParsesExactly(s: string, v: int)
    ensures ParseInt64(s) == Some(v) <==> MIN_INT64 <= v <= MAX_INT64 && Denotes(s, v)
  {
    if ParseInt64(s) == Some(v) {
      ParsedIsDenoted(s);
    }
    if MIN_INT64 <= v <= MAX_INT64 && Denotes(s, v) {
      var k: nat :| Writes(s, v, k);
      DenotedIsParsed(s, v, k);
    }
  }

  predicate NonceWellFormed(s: string) {
    8 <= |s| <= 128 && forall i :: 0 <= i < |s| ==>
      IsDigit(s[i]) || 'A' <= s[i] <= 'Z' || 'a' <= s[i] <= 'z' || s[i] == '_' || s[i] == '-'
  }

  /** Signing is injective, so a signature is the tuple it was computed from. */
  datatype Signature = Signature(secret: string, timestamp: string, nonce: string, body: string)

  datatype Headers = Headers(client: string, timestamp: string, nonce: string, signature: Option<Signature>)

  datatype Client = Client(id: string, secret: string, enabled: bool, routes: set<string>, ratePerMinute: int)

  datatype Verdict = Trusted(client: Client) | UnknownClient | DisabledClient | InvalidAuth | StaleRequest

  /** The instant of a timestamp in milliseconds. */
  function RequestTime(timestamp: int): int {
    (if MAX_INT64 - EPOCH_OFFSET < timestamp then timestamp - 0x1_0000_0000_0000_0000 else timestamp) * 1000
  }

  /** A difference of instants as a 64-bit count of nanoseconds, saturating at both ends. */
  function Elapsed(now: int, since: int): (d: int)
    ensures MIN_INT64 <= d <= MAX_INT64
  {
    var exact := (now - since) * NANOS_PER_MS;
    if exact < MIN_INT64 then MIN_INT64 else if MAX_INT64 < exact then MAX_INT64 else exact
  }

  /** Negation of a 64-bit number; the smallest one is its own negation. */
  function Negate(d: int): int {
    if d == MIN_INT64 then MIN_INT64 else -d
  }

  predicate WithinTolerance(timestamp: int, now: int, tolerance: int) {
    var delta := Elapsed(now, RequestTime(timestamp));
    (if delta < 0 then Negate(delta) else delta) <= tolerance * NANOS_PER_MS
  }

  function Verify(clients: map<string, Client>, tolerance: int, now: int, h: Headers, body: string): Verdict {
    if h.client !in clients then UnknownClient
    else
      var client := clients[h.client];
      var timestamp := ParseInt64(h.timestamp);
      if !client.enabled then DisabledClient
      else if timestamp.None? || timestamp.value <= 0 || !NonceWellFormed(h.nonce) then InvalidAuth
      else if !WithinTolerance(timestamp.value, now, tolerance) then StaleRequest
      else if h.signature != Some(Signature(client.secret, h.timestamp, h.nonce, body)) then InvalidAuth
      else Trusted(client)
  }

  /** The instant lies so far ahead that the difference saturates. */
  predicate FarAhead(timestamp: int, now: int) {
    (now - RequestTime(timestamp)) * NANOS_PER_MS <= MIN_INT64
  }

  /** Exactly the requests within the tolerance pass the time check, and those whose date saturates the difference. */
  lemma ToleranceExactly(timestamp: int, now: int, tolerance: int)
    requires 0 <= tolerance && tolerance * NANOS_PER_MS < MAX_INT64
    ensures WithinTolerance(timestamp, now, tolerance) <==>
              || (RequestTime(timestamp) - tolerance <= now <= RequestTime(timestamp) + tolerance)
              || FarAhead(timestamp, now)
  {
  }

  /** What a client sends: its id, the time in digits, a nonce and its signature over them and the body. */
  function SignedHeaders(client: string, secret: string, timestamp: nat, nonce: string, body: string): Headers {
    var text := Decimal(timestamp);
    Headers(client, text, nonce, Some(Signature(secret, text, nonce, body)))
  }

  /** A client that signs with its secret is trusted exactly while its timestamp is within the tolerance or far ahead; nobody
      is trusted with the same signature over another timestamp text, nonce or body. */
  lemma SignedRequestIsTrusted(clients: map<string, Client>, tolerance: int, now: int, id: string, timestamp: nat,
                               nonce: string, body: string)
    requires id in clients && clients[id].enabled && NonceWellFormed(nonce) && 0 < timestamp <= MAX_INT64
    requires 0 <= tolerance && tolerance * NANOS_PER_MS < MAX_INT64
    ensures Verify(clients, tolerance, now, SignedHeaders(id, clients[id].secret, timestamp, nonce, body), body)
            == if RequestTime(timestamp) - tolerance <= now <= RequestTime(timestamp) + tolerance || FarAhead(timestamp, now)
               then Trusted(clients[id]) else StaleRequest
    ensures var signed := SignedHeaders(id, clients[id].secret, timestamp, nonce, body);
            forall h: Headers, other: string ::
              h.signature == signed.signature && (h.timestamp != signed.timestamp || h.nonce != nonce || other != body) ==>
                !Verify(clients, tolerance, now, h, other).Trusted?
  {
    assert Zeros(0) + Decimal(timestamp) == Decimal(timestamp);
    DenotedIsParsed(Decimal(timestamp), timestamp, 0);
    ToleranceExactly(timestamp, now, tolerance);
    forall h: Headers, other: string | Verify(clients, tolerance, now, h, other).Trusted?
      ensures h.client in clients && h.signature == Some(Signature(clients[h.client].secret, h.timestamp, h.nonce, other))
    {
      TrustedIsSigned(clients, tolerance, now, h, other);
    }
  }

  lemma TrustedIsSigned(clients: map<string, Client>, tolerance: int, now: int, h: Headers, body: string)
    requires Verify(clients, tolerance, now, h, body).Trusted?
    ensures h.client in clients && h.signature == Some(Signature(clients[h.client].secret, h.timestamp, h.nonce, body))
  {
  }

  // ----- the nonce and rate tables -----

  datatype NonceKey = NonceKey(client: string, nonce: string)

  datatype RateKey = RateKey(key: string, bucket: int)

  type Nonces = map<NonceKey, int>

  type Rates = map<RateKey, int>

  datatype Gate = Gate(nonces: Nonces, rates: Rates)

  datatype Reply = Admitted | Replayed | RateLimited

  /** Division that truncates toward zero. */
  function Quotient(a: int, b: int): int
    requires 0 < b
  {
    if 0 <= a then a / b else -((-a) / b)
  }

  function Bucket(now: int): int {
    Quotient(now / 1000, 60)
  }

  function LiveNonces(nonces: Nonces, now: int): Nonces {
    map k | k in nonces && now <= nonces[k] :: nonces[k]
  }

  function LiveRates(rates: Rates, bucket: int): Rates {
    map k | k in rates && bucket - 2 <= k.bucket :: rates[k]
  }

  /** Whether the limit of a key's current minute is used up, and the table afterwards. */
  function RecordRate(rates: Rates, key: string, now: int, limit: int): (Rates, bool) {
    var live, row := LiveRates(rates, Bucket(now)), RateKey(key, Bucket(now));
    if row !in live then
      if limit < 1 then (live, true) else (live[row := 1], false)
    else if limit <= live[row] then (live, true)
    else (live[row := live[row] + 1], false)
  }

  predicate NonceIsNew(nonces: Nonces, client: string, nonce: string, now: int) {
    NonceKey(client, nonce) !in LiveNonces(nonces, now)
  }

  /** A replay rolls everything back; a rate-limited request still leaves its nonce. */
  function RecordRequest(g: Gate, client: string, nonce: string, expires: int, now: int, limit: int): (Gate, Reply) {
    if !NonceIsNew(g.nonces, client, nonce, now) then (g, Replayed)
    else
      var (rates, exceeded) := RecordRate(g.rates, "hmac:" + client, now, limit);
      (Gate(LiveNonces(g.nonces, now)[NonceKey(client, nonce) := expires], rates),
       if exceeded then RateLimited else Admitted)
  }
}
