/** The reporter of the scheduling benchmarks: it reads the counters one by one
    and complains when one is further than 1 from their average. */
module Tolerance {
  /** The number of threads and the modulus of an unsigned long. */
  datatype Config = Config(n: nat, m: nat) {
    predicate Valid() {
      n >= 2 && m >= 2 * n
    }
  }

  function Sum(c: seq<nat>): nat {
    if c == [] then 0 else c[0] + Sum(c[1..])
  }

  /** The sum as the reporter computes it, in words of modulus `m`. */
  function WordSum(c: seq<nat>, m: nat): nat
    requires m > 0
  {
    if c == [] then 0 else (WordSum(c[..|c| - 1], m) + c[|c| - 1]) % m
  }

  /** The reporter's error condition on a snapshot of unsigned words. */
  predicate Errs(c: seq<nat>, m: nat)
    requires m > 0 && |c| > 0
  {
    var average := WordSum(c, m) / |c|;
    average > 0 && exists k :: 0 <= k < |c| && (c[k] < average - 1 || c[k] > (average + 1) % m)
  }

  /** All values are `lo` or `lo + 1`. */
  predicate Within1(c: seq<nat>, lo: nat) {
    forall k :: 0 <= k < |c| ==> lo <= c[k] <= lo + 1
  }

  lemma {:induction false} SumAppend(c: seq<nat>, x: nat)
    ensures Sum(c + [x]) == Sum(c) + x
  {
    if c == [] {
      assert [] + [x] == [x];
    } else {
      assert (c + [x])[1..] == c[1..] + [x];
      SumAppend(c[1..], x);
    }
  }

  lemma MulMono(x: int, y: int, n: nat)
    requires x <= y
    ensures x * n <= y * n
  {
  }

  lemma ModUnique(a: nat, q: nat, r: nat, m: nat)
    requires m > 0 && r < m && a == q * m + r
    ensures a / m == q && a % m == r
  {
    var q1, r1 := a / m, a % m;
    assert a == q1 * m + r1;
    assert (q1 + 1) * m == q1 * m + m && (q + 1) * m == q * m + m;
    if q1 < q { MulMono(q1 + 1, q, m); }
    if q < q1 { MulMono(q + 1, q1, m); }
  }

  lemma AddMod(a: nat, x: nat, m: nat)
    requires m > 0
    ensures (a % m + x) % m == (a + x) % m
  {
    var p, b := a / m, a % m + x;
    var q, r := b / m, b % m;
    assert a == p * m + a % m;
    assert b == q * m + r;
    MulDist(p, q, m);
    ModUnique(a + x, p + q, r, m);
  }

  lemma MulDist(p: int, q: int, m: int)
    ensures (p + q) * m == p * m + q * m
  {
  }

  /** Wrapping at every addition is wrapping once at the end. */
  lemma {:induction false} WordSumIsSum(c: seq<nat>, m: nat)
    requires m > 0
    ensures WordSum(c, m) == Sum(c) % m
  {
    if c == [] {
      ModUnique(0, 0, 0, m);
    } else {
      var d, x := c[..|c| - 1], c[|c| - 1];
      WordSumIsSum(d, m);
      assert c == d + [x];
      SumAppend(d, x);
      AddMod(Sum(d), x, m);
    }
  }

  lemma {:induction false} SumBounds(c: seq<nat>, lo: nat, hi: nat)
    requires forall k :: 0 <= k < |c| ==> lo <= c[k] <= hi
    ensures |c| * lo <= Sum(c) <= |c| * hi
  {
    if c == [] {
    } else {
      SumBounds(c[1..], lo, hi);
      assert |c| * lo == (|c| - 1) * lo + lo && |c| * hi == (|c| - 1) * hi + hi;
    }
  }

  lemma DivBounds(n: nat, total: nat, lo: nat)
    requires n > 0 && n * lo <= total <= n * (lo + 1)
    ensures lo <= total / n <= lo + 1
  {
    var q := total / n;
    assert q * n <= total < (q + 1) * n by { DivFacts(total, n); }
    if q < lo { MulMono(q + 1, lo, n); }
    if q > lo + 1 { MulMono(lo + 2, q, n); }
  }

  lemma DivFacts(a: nat, n: nat)
    requires n > 0
    ensures (a / n) * n <= a < (a / n + 1) * n
  {
    var q, r := a / n, a % n;
    assert a == q * n + r;
    assert (q + 1) * n == q * n + n;
  }

  /** An average of at least two words leaves room for 1 more. */
  lemma AverageFits(total: nat, n: nat, m: nat)
    requires n >= 2 && m >= 2 * n && total < m
    ensures (total / n + 1) % m == total / n + 1
  {
    var q := total / n;
    DivFacts(total, n);
    MulMono(2, n, q);
    assert 2 * q <= q * n;
    ModUnique(q + 1, 0, q + 1, m);
  }

  /** While the total fits in a word, counters within 1 of each other pass. */
  lemma CloseCountersPass(c: seq<nat>, lo: nat, m: nat)
    requires |c| >= 2 && m >= 2 * |c| && Within1(c, lo) && Sum(c) < m
    ensures !Errs(c, m)
  {
    WordSumIsSum(c, m);
    ModUnique(Sum(c), 0, Sum(c), m);
    SumBounds(c, lo, lo + 1);
    DivBounds(|c|, Sum(c), lo);
    AverageFits(Sum(c), |c|, m);
  }

  /** Counters that are close to each other, but whose total has wrapped, are
      reported as soon as the wrapped average is not 0. */
  lemma WrappedTotalFails(c: seq<nat>, lo: nat, m: nat)
    requires |c| >= 2 && m >= 2 * |c| && Within1(c, lo)
    requires Sum(c) >= m && Sum(c) % m >= |c|
    ensures Errs(c, m)
  {
    var n, total := |c|, Sum(c) % m;
    WordSumIsSum(c, m);
    DivFacts(Sum(c), m);
    assert total + m <= Sum(c) by { WrapLosesModulus(Sum(c), m); }
    AverageFits(total, n, m);
    DivFacts(total, n);
    var average := total / n;
    MulDist(average, 1, n);
    var k := MaximumIsAverage(c, lo);
    if c[k] < average + 2 { MulMono(c[k], average + 1, n); }
  }

  lemma WrapLosesModulus(a: nat, m: nat)
    requires m > 0 && a >= m
    ensures a % m + m <= a
  {
    var q := a / m;
    assert a == q * m + a % m;
    DivFacts(a, m);
    MulDist(q, 1, m);
    if q >= 1 { MulMono(1, q, m); }
  }

  /** Some counter is no smaller than the true average. */
  lemma MaximumIsAverage(c: seq<nat>, lo: nat) returns (k: nat)
    requires |c| > 0 && Within1(c, lo)
    ensures k < |c| && c[k] * |c| >= Sum(c)
  {
    if j :| 0 <= j < |c| && c[j] == lo + 1 {
      k := j;
      SumBounds(c, lo, lo + 1);
    } else {
      k := 0;
      SumBounds(c, lo, lo);
    }
  }

  /** For counters within 1 of each other the reporter's check is right exactly
      while their total fits in a word, or has wrapped to less than their number. */
  lemma ToleranceIsExact(c: seq<nat>, lo: nat, m: nat)
    requires |c| >= 2 && m >= 2 * |c| && Within1(c, lo)
    ensures !Errs(c, m) <==> Sum(c) < m || Sum(c) % m < |c|
  {
    if Sum(c) < m { CloseCountersPass(c, lo, m); }
    else if Sum(c) % m >= |c| { WrappedTotalFails(c, lo, m); }
    else {
      WordSumIsSum(c, m);
      ModUnique(Sum(c) % m, 0, Sum(c) % m, |c|);
    }
  }

  /** Five equal 32-bit counters at which the check fails although they agree. */
  lemma FiveEqualCountersFail()
    ensures Errs([900_000_000, 900_000_000, 900_000_000, 900_000_000, 900_000_000], 0x1_0000_0000)
  {
    var c: seq<nat> := [900_000_000, 900_000_000, 900_000_000, 900_000_000, 900_000_000];
    SumBounds(c, 900_000_000, 900_000_000);
    assert Sum(c) == 4_500_000_000;
    WrappedTotalFails(c, 900_000_000, 0x1_0000_0000);
  }

  /** The verdict on equal counters. */
  lemma EqualCountersVerdict(c: seq<nat>, v: nat, m: nat)
    requires |c| >= 2 && m >= 2 * |c| && forall k :: 0 <= k < |c| ==> c[k] == v
    ensures Errs(c, m) <==> |c| * v >= m && (|c| * v) % m >= |c|
  {
    SumBounds(c, v, v);
    ToleranceIsExact(c, v, m);
  }

  // ----- what the check detects -----

  /** Counter `x` lies more than 1 below, or more than 1 above, the average of `n`
      counters that add up to `total`. */
  predicate FarBelow(x: nat, n: nat, total: nat) {
    n * (x + 2) <= total
  }

  predicate FarAbove(x: nat, n: nat, total: nat) {
    total < n * (x - 1)
  }

  lemma BelowAverage(x: nat, n: nat, total: nat)
    requires n > 0
    ensures x < total / n - 1 <==> FarBelow(x, n, total)
  {
    var q := total / n;
    DivFacts(total, n);
    if x + 2 <= q { MulMono(x + 2, q, n); } else { MulMono(q + 1, x + 2, n); }
  }

  lemma AboveAverage(x: nat, n: nat, total: nat)
    requires n > 0
    ensures x > total / n + 1 <==> FarAbove(x, n, total)
  {
    var q := total / n;
    DivFacts(total, n);
    if x - 1 > q { MulMono(q + 1, x - 1, n); } else { MulMono(x - 1, q, n); }
  }

  lemma AveragePositive(total: nat, n: nat)
    requires n > 0
    ensures total / n > 0 <==> total >= n
  {
    DivFacts(total, n);
    if total / n > 0 { MulMono(1, total / n, n); }
  }

  /** What the check reports, for any counters at all and without dividing: the total of
      the words, wrapped, is at least their number, and some counter is far below or far
      above it. */
  lemma ErrsIffFarOff(c: seq<nat>, m: nat)
    requires |c| >= 2 && m >= 2 * |c|
    ensures var total := Sum(c) % m;
      Errs(c, m) <==>
        total >= |c| && exists k :: 0 <= k < |c| && (FarBelow(c[k], |c|, total) || FarAbove(c[k], |c|, total))
  {
    var total := Sum(c) % m;
    WordSumIsSum(c, m);
    AverageFits(total, |c|, m);
    AveragePositive(total, |c|);
    forall k | 0 <= k < |c|
      ensures c[k] < total / |c| - 1 <==> FarBelow(c[k], |c|, total)
      ensures c[k] > total / |c| + 1 <==> FarAbove(c[k], |c|, total)
    {
      BelowAverage(c[k], |c|, total);
      AboveAverage(c[k], |c|, total);
    }
  }

  /** A check that passes says that no two counters differ by more than 2. */
  lemma SilenceMeansClose(c: seq<nat>, m: nat, j: nat, k: nat)
    requires |c| >= 2 && m >= 2 * |c| && |c| <= Sum(c) < m && !Errs(c, m)
    requires j < |c| && k < |c|
    ensures c[j] <= c[k] + 2
  {
    ErrsIffFarOff(c, m);
    ModUnique(Sum(c), 0, Sum(c), m);
    BelowAverage(c[k], |c|, Sum(c));
    AboveAverage(c[j], |c|, Sum(c));
  }

  /** A thread that never ran is always reported, once the others have counted to twice
      the number of threads. */
  lemma StalledThreadIsReported(c: seq<nat>, m: nat, k: nat)
    requires |c| >= 2 && m >= 2 * |c| && 2 * |c| <= Sum(c) < m
    requires k < |c| && c[k] == 0
    ensures Errs(c, m)
  {
    ErrsIffFarOff(c, m);
    ModUnique(Sum(c), 0, Sum(c), m);
    assert FarBelow(c[k], |c|, Sum(c));
  }

  /** And so is a thread that has run away from the others by more than 2. */
  lemma RunawayIsReported(c: seq<nat>, m: nat, j: nat, k: nat)
    requires |c| >= 2 && m >= 2 * |c| && |c| <= Sum(c) < m
    requires j < |c| && k < |c| && c[j] > c[k] + 2
    ensures Errs(c, m)
  {
    if !Errs(c, m) { SilenceMeansClose(c, m, j, k); }
  }

  // ----- the reporter thread -----

  /** Asleep, or awake with the counters it has read so far. */
  datatype Reporter = Asleep | Reading(snapshot: seq<nat>)

  /** The next step of an awake reporter: read one counter or, when all are read,
      check them and go back to sleep. Answers whether it complained. */
  function ReporterStep(r: Reporter, counters: seq<nat>, m: nat): (Reporter, bool)
    requires r.Reading? && m > 0
  {
    if |r.snapshot| < |counters| then (Reading(r.snapshot + [counters[|r.snapshot|]]), false)
    else (Asleep, r.snapshot != [] && Errs(r.snapshot, m))
  }

  /** What an awake reporter has read is what the counters still hold. */
  predicate SnapshotInv(r: Reporter, counters: seq<nat>) {
    r.Reading? ==> r.snapshot <= counters
  }

  /** The words that hold the exact counts `done`. */
  predicate Words(counters: seq<nat>, done: seq<nat>, m: nat)
    requires m > 0
  {
    |counters| == |done| && forall k :: 0 <= k < |done| ==> counters[k] == done[k] % m
  }

  lemma {:induction false} SumAtLeast(c: seq<nat>, k: nat)
    requires k < |c|
    ensures c[k] <= Sum(c)
  {
    if k == 0 {
    } else {
      SumAtLeast(c[1..], k - 1);
    }
  }

  /** While the exact total fits in a word, the words are the exact counts. */
  lemma FittingWordsAreExact(counters: seq<nat>, done: seq<nat>, m: nat)
    requires m > 0 && Words(counters, done, m) && Sum(done) < m
    ensures counters == done
  {
    forall k | 0 <= k < |done| ensures counters[k] == done[k] { SumAtLeast(done, k); ModUnique(done[k], 0, done[k],
      m); }
  }

  /** A step of the reporter keeps the snapshot true and complains only once the
      exact total no longer fits. */
  lemma ReporterIsSound(r: Reporter, counters: seq<nat>, done: seq<nat>, lo: nat, m: nat)
    requires |done| >= 2 && m >= 2 * |done|
    requires r.Reading? && SnapshotInv(r, counters) && Words(counters, done, m) && Within1(done, lo)
    ensures SnapshotInv(ReporterStep(r, counters, m).0, counters)
    ensures ReporterStep(r, counters, m).1 ==> Sum(done) >= m
  {
    if |r.snapshot| < |counters| {
    } else if Sum(done) < m {
      FittingWordsAreExact(counters, done, m);
      assert r.snapshot == counters;
      CloseCountersPass(done, lo, m);
    }
  }

  lemma {:induction false} SumIncrement(c: seq<nat>, k: nat)
    requires k < |c|
    ensures Sum(c[k := c[k] + 1]) == Sum(c) + 1
  {
    if k == 0 {
      assert c[k := c[k] + 1][1..] == c[1..];
    } else {
      assert c[k := c[k] + 1][1..] == c[1..][k - 1 := c[1..][k - 1] + 1];
      SumIncrement(c[1..], k - 1);
    }
  }
}
