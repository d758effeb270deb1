/** How many requests a key gets through, although the rows of old minutes are deleted on every call. */
module RateBound {
  import opened Domain
  import opened Windows

  datatype Hit = Hit(key: string, now: int, limit: int)

  datatype History = History(hits: seq<Hit>, tables: seq<Rates>)

  predicate Follows(h: History, n: nat)
    requires n < |h.hits| && |h.tables| == |h.hits| + 1
  {
    var hit := h.hits[n];
    && h.tables[n + 1] == RecordRate(h.tables[n], hit.key, hit.now, hit.limit).0
    && forall m :: 0 <= m < n ==> h.hits[m].now <= hit.now
  }

  /** The clock does not run backwards. */
  predicate Legal(h: History) {
    && |h.tables| == |h.hits| + 1
    && h.tables[0] == map[]
    && forall n: nat :: n < |h.hits| ==> Follows(h, n)
  }

  predicate Passed(h: History, n: nat)
    requires n < |h.hits| < |h.tables|
  {
    !RecordRate(h.tables[n], h.hits[n].key, h.hits[n].now, h.hits[n].limit).1
  }

  /** Requests of a key among the first `n` that got through in one minute bucket. */
  function PassedInBucket(h: History, n: nat, key: string, bucket: int): nat
    requires n <= |h.hits| < |h.tables|
  {
    if n == 0 then 0
    else
      PassedInBucket(h, n - 1, key, bucket)
      + if h.hits[n - 1].key == key && Bucket(h.hits[n - 1].now) == bucket && Passed(h, n - 1) then 1 else 0
  }

  function PassedBetween(h: History, n: nat, key: string, from: int, to: int): nat
    requires n <= |h.hits| < |h.tables|
  {
    if n == 0 then 0
    else
      PassedBetween(h, n - 1, key, from, to)
      + if h.hits[n - 1].key == key && from <= h.hits[n - 1].now <= to && Passed(h, n - 1) then 1 else 0
  }

  /** From 1970 on, a bucket is a calendar minute. */
  lemma BucketIsTheMinute(now: int)
    requires 0 <= now
    ensures Bucket(now) == now / 60_000
  {
    assert now == 60_000 * (now / 60_000) + now % 60_000;
  }

  lemma BucketsAreOrdered(a: int, b: int)
    requires a <= b
    ensures Bucket(a) <= Bucket(b)
  {
  }

  /** Sixty seconds touch at most two neighbouring buckets. */
  lemma MinuteTouchesTwoBuckets(from: int, t: int)
    requires from <= t <= from + 60_000
    ensures Bucket(t) == Bucket(from) || Bucket(t) == Bucket(from) + 1
  {
    var a, b := from / 1000, t / 1000;
    assert a <= b <= a + 60;
  }

  /** The row of a bucket that is not over yet counts what got through in it. */
  predicate RowCounts(h: History, n: nat, key: string, bucket: int)
    requires n <= |h.hits| < |h.tables|
  {
    var row := RateKey(key, bucket);
    && (row in h.tables[n] ==> h.tables[n][row] == PassedInBucket(h, n, key, bucket))
    && (row !in h.tables[n] ==> PassedInBucket(h, n, key, bucket) == 0)
  }

  lemma {:induction false} CurrentRowsCount(h: History, n: nat, key: string, bucket: int)
    requires Legal(h) && n <= |h.hits|
    requires n > 0 ==> Bucket(h.hits[n - 1].now) <= bucket
    ensures RowCounts(h, n, key, bucket)
  {
    if n > 0 {
      assert Follows(h, n - 1);
      if n > 1 {
        BucketsAreOrdered(h.hits[n - 2].now, h.hits[n - 1].now);
      }
      CurrentRowsCount(h, n - 1, key, bucket);
    }
  }

  predicate ConstantLimit(h: History, key: string, limit: int) {
    forall n :: 0 <= n < |h.hits| && h.hits[n].key == key ==> h.hits[n].limit == limit
  }

  /** Per minute bucket a key gets at most its limit through. */
  lemma {:induction false} LimitPerBucket(h: History, n: nat, key: string, limit: int, bucket: int)
    requires Legal(h) && n <= |h.hits| && ConstantLimit(h, key, limit)
    ensures PassedInBucket(h, n, key, bucket) <= Max(limit, 0)
  {
    if n > 0 {
      LimitPerBucket(h, n - 1, key, limit, bucket);
      var hit := h.hits[n - 1];
      if hit.key == key && Bucket(hit.now) == bucket && Passed(h, n - 1) {
        assert Follows(h, n - 1);
        if n > 1 {
          BucketsAreOrdered(h.hits[n - 2].now, hit.now);
        }
        CurrentRowsCount(h, n - 1, key, bucket);
      }
    }
  }

  lemma {:induction false} IntervalWithinTwoBuckets(h: History, n: nat, key: string, from: int)
    requires Legal(h) && n <= |h.hits|
    ensures PassedBetween(h, n, key, from, from + 60_000)
            <= PassedInBucket(h, n, key, Bucket(from)) + PassedInBucket(h, n, key, Bucket(from) + 1)
  {
    if n > 0 {
      IntervalWithinTwoBuckets(h, n - 1, key, from);
      if from <= h.hits[n - 1].now <= from + 60_000 {
        MinuteTouchesTwoBuckets(from, h.hits[n - 1].now);
      }
    }
  }

  /** In any sixty seconds a key gets at most twice its limit through. */
  lemma TwiceTheLimitPerMinute(h: History, n: nat, key: string, limit: int, from: int)
    requires Legal(h) && n <= |h.hits| && ConstantLimit(h, key, limit)
    ensures PassedBetween(h, n, key, from, from + 60_000) <= 2 * Max(limit, 0)
  {
    IntervalWithinTwoBuckets(h, n, key, from);
    LimitPerBucket(h, n, key, limit, Bucket(from));
    LimitPerBucket(h, n, key, limit, Bucket(from) + 1);
  }

  /** A request is turned away only when its minute is full. */
  lemma TurnedAwayOnlyWhenFull(h: History, n: nat)
    requires Legal(h) && n < |h.hits|
    ensures Passed(h, n) <==> PassedInBucket(h, n, h.hits[n].key, Bucket(h.hits[n].now)) < h.hits[n].limit
  {
    var hit := h.hits[n];
    assert Follows(h, n);
    if n > 0 {
      BucketsAreOrdered(h.hits[n - 1].now, hit.now);
    }
    CurrentRowsCount(h, n, hit.key, Bucket(hit.now));
  }
}
