/**
  Dist::from_samples: exact percentiles of a list of samples, by the nearest rank.
 */
module Stats {

  import opened Machine
  import opened Wrappers

  datatype Dist = Dist(count: nat, min: nat, p50: nat, p90: nat, p99: nat, p100: nat, mean: nat)

  const DEFAULT_DIST: Dist := Dist(0, 0, 0, 0, 0, 0, 0)

  datatype LatencyStats = LatencyStats(interval: Dist, throughput: Dist, baseline: nat, warmupDiscarded: nat)

  datatype StreamStats =
    StreamStats(sender: bool, durationMillis: nat, bytesTransferred: nat, syscalls: nat, latency: Option<LatencyStats>)

  // -------------------------------------------------------------------- sorting

  ghost predicate Sorted(s: seq<nat>) {
    forall i, j :: 0 <= i < j < |s| ==> s[i] <= s[j]
  }

  function Insert(s: seq<nat>, x: nat): (r: seq<nat>)
    ensures multiset(r) == multiset(s) + multiset{x}
  {
    if s == [] then [x]
    else if x <= s[0] then [x] + s
    else
      assert s == [s[0]] + s[1..];
      [s[0]] + Insert(s[1..], x)
  }

  lemma {:induction false} InsertSorted(s: seq<nat>, x: nat)
    requires Sorted(s)
    ensures Sorted(Insert(s, x))
  {
    if s != [] && x > s[0] {
      InsertSorted(s[1..], x);
      var r := Insert(s[1..], x);
      forall i | 0 <= i < |r| ensures s[0] <= r[i] {
        assert r[i] in multiset(s[1..]) + multiset{x};
      }
    }
  }

  function SortedCopy(s: seq<nat>): (r: seq<nat>)
    ensures Sorted(r) && multiset(r) == multiset(s) && |r| == |s|
  {
    if s == [] then [] else
      assert s == s[..|s| - 1] + [s[|s| - 1]];
      InsertSorted(SortedCopy(s[..|s| - 1]), s[|s| - 1]);
      var r := Insert(SortedCopy(s[..|s| - 1]), s[|s| - 1]);
      assert |multiset(r)| == |multiset(s)|;
      r
  }

  // The library's in-place sort.
  method SortUnstable(a: array<nat>)
    modifies a
    ensures a[..] == SortedCopy(old(a[..]))
  {
    var s := SortedCopy(a[..]);
    assert |s| == a.Length;
    for i := 0 to a.Length
      invariant forall k :: 0 <= k < i ==> a[k] == s[k]
    {
      a[i] := s[i];
    }
  }

  // --------------------------------------------------------------- specification

  function Tally(f: nat -> nat, s: seq<nat>): nat {
    if s == [] then 0 else Tally(f, s[..|s| - 1]) + f(s[|s| - 1])
  }

  function AtMost(x: nat): nat -> nat {
    y => if y <= x then 1 else 0
  }

  function CountAtMost(s: seq<nat>, x: nat): nat {
    Tally(AtMost(x), s)
  }

  function Sum(s: seq<nat>): nat {
    Tally(y => y, s)
  }

  // x is the smallest sample whose at-or-below count reaches p percent of all samples.
  ghost predicate NearestRank(s: seq<nat>, p: nat, x: nat) {
    && x in s
    && 100 * CountAtMost(s, x) >= p * |s|
    && forall y :: y in s && y < x ==> 100 * CountAtMost(s, y) < p * |s|
  }

  ghost predicate IsDist(s: seq<nat>, d: Dist) {
    && d.count == |s| > 0
    && d.min in s && d.p100 in s
    && (forall x :: x in s ==> d.min <= x <= d.p100)
    && NearestRank(s, 50, d.p50) && NearestRank(s, 90, d.p90) && NearestRank(s, 99, d.p99)
    && d.mean * |s| <= Sum(s) < (d.mean + 1) * |s|
  }

  // ----------------------------------------------------------------- the closure

  // The product is a usize and wraps around.
  function Rank(p: nat, n: nat): nat {
    ((p * n) % USIZE + 99) / 100
  }

  // The percentile read off a sorted list, with both of its index clamps.
  function Percentile(v: seq<nat>, p: nat): nat
    requires v != []
  {
    var rank := Rank(p, |v|);
    var below := if rank == 0 then 0 else rank - 1;
    v[if below < |v| - 1 then below else |v| - 1]
  }

  // --------------------------------------------------------------- permutations

  lemma {:induction false} TallyConcat(f: nat -> nat, a: seq<nat>, b: seq<nat>)
    ensures Tally(f, a + b) == Tally(f, a) + Tally(f, b)
  {
    if b == [] {
      assert a + b == a;
    } else {
      assert (a + b)[..|a + b| - 1] == a + b[..|b| - 1];
      TallyConcat(f, a, b[..|b| - 1]);
    }
  }

  lemma RemoveAt(f: nat -> nat, t: seq<nat>, j: nat)
    requires j < |t|
    ensures multiset(t[..j] + t[j + 1..]) == multiset(t) - multiset{t[j]}
    ensures Tally(f, t) == Tally(f, t[..j] + t[j + 1..]) + f(t[j])
  {
    Split(t, j);
    TallyAround(f, t[..j], t[j], t[j + 1..]);
    MultisetAround(t[..j], t[j], t[j + 1..]);
  }

  lemma Split(t: seq<nat>, j: nat)
    requires j < |t|
    ensures t[..j] + [t[j]] + t[j + 1..] == t
  {
  }

  lemma MultisetAround(a: seq<nat>, x: nat, b: seq<nat>)
    ensures multiset(a + [x] + b) == multiset(a + b) + multiset{x}
  {
  }

  lemma TallyAround(f: nat -> nat, a: seq<nat>, x: nat, b: seq<nat>)
    ensures Tally(f, a + [x] + b) == Tally(f, a + b) + f(x)
  {
    TallyConcat(f, a + [x], b);
    TallyConcat(f, a, b);
    assert (a + [x])[..|a|] == a;
  }

  // A tally only depends on which samples there are, not on their order.
  lemma {:induction false} TallyPermutes(f: nat -> nat, s: seq<nat>, t: seq<nat>)
    requires multiset(s) == multiset(t)
    ensures Tally(f, s) == Tally(f, t)
  {
    assert |multiset(s)| == |s| && |multiset(t)| == |t|;
    if s != [] {
      var last := |s| - 1;
      assert s == s[..last] + [s[last]];
      assert s[last] in multiset(t);
      var j :| 0 <= j < |t| && t[j] == s[last];
      RemoveAt(f, t, j);
      TallyPermutes(f, s[..last], t[..j] + t[j + 1..]);
    }
  }

  // ------------------------------------------------------------------ percentiles

  lemma {:induction false} CountBounds(s: seq<nat>, x: nat)
    ensures CountAtMost(s, x) <= |s|
    ensures (forall i :: 0 <= i < |s| ==> s[i] <= x) ==> CountAtMost(s, x) == |s|
    ensures (forall i :: 0 <= i < |s| ==> s[i] > x) ==> CountAtMost(s, x) == 0
  {
    if s != [] { CountBounds(s[..|s| - 1], x); }
  }

  // In a sorted list the sample at index i has at least i + 1 samples at or below it, and a
  // smaller value at most i.
  lemma CountAtIndex(v: seq<nat>, i: nat)
    requires Sorted(v) && i < |v|
    ensures CountAtMost(v, v[i]) >= i + 1
  {
    var low, high := v[..i + 1], v[i + 1..];
    assert v == low + high;
    TallyConcat(AtMost(v[i]), low, high);
    CountBounds(low, v[i]);
  }

  lemma {:induction false} CountBelowIndex(v: seq<nat>, i: nat, y: nat)
    requires i <= |v| && forall k :: i <= k < |v| ==> v[k] > y
    ensures CountAtMost(v, y) <= i
  {
    if i < |v| {
      CountBelowIndex(v[..|v| - 1], i, y);
    } else {
      CountBounds(v, y);
    }
  }

  lemma CeilBounds(m: nat, n: nat)
    requires 1 <= m <= 100 * n
    ensures 1 <= (m + 99) / 100 <= n
    ensures 100 * ((m + 99) / 100 - 1) < m <= 100 * ((m + 99) / 100)
  {
  }

  // The rank stays within the list by itself: neither clamp is ever needed, unless the product
  // wraps around.
  lemma ClampsIdle(p: nat, n: nat)
    requires 1 <= p <= 100 && n >= 1 && p * n < USIZE
    ensures 1 <= Rank(p, n) <= n
    ensures 100 * (Rank(p, n) - 1) < p * n <= 100 * Rank(p, n)
  {
    var m := p * n;
    MulBounds(p, n);
    assert m % USIZE == m;
    CeilBounds(m, n);
  }

  lemma MulBounds(p: nat, n: nat)
    requires 1 <= p <= 100 && n >= 1
    ensures 1 <= p * n <= 100 * n
  {
  }

  // The sample at index i of the sorted list is the nearest rank of any m with 100 * i < m and
  // m at most 100 * (i + 1).
  lemma IndexIsNearestRank(s: seq<nat>, v: seq<nat>, i: nat, m: nat)
    requires Sorted(v) && multiset(s) == multiset(v) && i < |v|
    requires 100 * i < m <= 100 * (i + 1)
    ensures v[i] in s && 100 * CountAtMost(s, v[i]) >= m
    ensures forall y :: y in s && y < v[i] ==> 100 * CountAtMost(s, y) < m
  {
    hide CountAtMost;
    assert v[i] in multiset(s);
    CountTransfer(s, v, v[i]);
    CountAtIndex(v, i);
    forall y | y in s && y < v[i] ensures 100 * CountAtMost(s, y) < m {
      CountTransfer(s, v, y);
      CountBelowIndex(v, i, y);
    }
  }

  lemma PercentileIsNearestRank(s: seq<nat>, p: nat)
    requires s != [] && 1 <= p <= 100 && p * |s| < USIZE
    ensures NearestRank(s, p, Percentile(SortedCopy(s), p))
  {
    hide Rank, SortedCopy, CountAtMost, Sorted;
    var v := SortedCopy(s);
    ClampsIdle(p, |s|);
    IndexIsNearestRank(s, v, Rank(p, |s|) - 1, p * |s|);
  }

  lemma CountTransfer(s: seq<nat>, v: seq<nat>, x: nat)
    requires multiset(s) == multiset(v)
    ensures CountAtMost(s, x) == CountAtMost(v, x)
  {
    TallyPermutes(AtMost(x), s, v);
  }

  // The nearest rank determines the percentile.
  lemma NearestRankUnique(s: seq<nat>, p: nat, x: nat, y: nat)
    requires NearestRank(s, p, x) && NearestRank(s, p, y)
    ensures x == y
  {
  }

  lemma {:induction false} CountMonotone(s: seq<nat>, x: nat, y: nat)
    requires x <= y
    ensures CountAtMost(s, x) <= CountAtMost(s, y)
  {
    if s != [] { CountMonotone(s[..|s| - 1], x, y); }
  }

  // A higher percentage never gives a smaller percentile.
  lemma NearestRankMonotone(s: seq<nat>, p: nat, q: nat, x: nat, y: nat)
    requires NearestRank(s, p, x) && NearestRank(s, q, y) && p <= q
    ensures x <= y
  {
    assert p * |s| <= q * |s|;
  }

  // ------------------------------------------------------------------ the mean

  lemma {:induction false} SumBounds(s: seq<nat>, lo: nat, hi: nat)
    requires forall i :: 0 <= i < |s| ==> lo <= s[i] <= hi
    ensures lo * |s| <= Sum(s) <= hi * |s|
  {
    if s != [] { SumBounds(s[..|s| - 1], lo, hi); }
  }

  // The order every reader of the report relies on.
  lemma DistIsOrdered(s: seq<nat>, d: Dist)
    requires IsDist(s, d)
    ensures d.min <= d.p50 <= d.p90 <= d.p99 <= d.p100
    ensures d.min <= d.mean <= d.p100
  {
    NearestRankMonotone(s, 50, 90, d.p50, d.p90);
    NearestRankMonotone(s, 90, 99, d.p90, d.p99);
    MeanIsBetween(s, d.min, d.mean, d.p100);
  }

  lemma MeanIsBetween(s: seq<nat>, lo: nat, mean: nat, hi: nat)
    requires s != [] && forall x :: x in s ==> lo <= x <= hi
    requires mean * |s| <= Sum(s) < (mean + 1) * |s|
    ensures lo <= mean <= hi
  {
    hide Sum;
    assert forall i :: 0 <= i < |s| ==> s[i] in s;
    SumBounds(s, lo, hi);
    MulCancel(lo, mean + 1, |s|);
    MulCancel(mean, hi + 1, |s|) by { assert (hi + 1) * |s| == hi * |s| + |s|; }
  }

  lemma MulCancel(a: nat, b: nat, n: nat)
    requires n >= 1
    ensures a * n < b * n ==> a < b
  {
    if a >= b { assert a * n >= b * n; }
  }

  // The statistics depend on the multiset of samples only.
  lemma DistOfPermutation(s: seq<nat>, t: seq<nat>, d: Dist, e: Dist)
    requires multiset(s) == multiset(t) && IsDist(s, d) && IsDist(t, e)
    ensures d == e
  {
    assert |multiset(s)| == |s| && |multiset(t)| == |t|;
    assert forall x :: x in s <==> x in multiset(s);
    assert forall x :: x in t <==> x in multiset(t);
    forall p, x | NearestRank(t, p, x) ensures NearestRank(s, p, x) {
      NearestRankPermutes(s, t, p, x);
    }
    NearestRankUnique(s, 50, d.p50, e.p50);
    NearestRankUnique(s, 90, d.p90, e.p90);
    NearestRankUnique(s, 99, d.p99, e.p99);
    TallyPermutes(y => y, s, t);
    MulCancel(d.mean, e.mean + 1, |s|);
    MulCancel(e.mean, d.mean + 1, |s|);
  }

  lemma NearestRankPermutes(s: seq<nat>, t: seq<nat>, p: nat, x: nat)
    requires multiset(s) == multiset(t) && NearestRank(t, p, x)
    ensures NearestRank(s, p, x)
  {
    assert |multiset(s)| == |s| && |multiset(t)| == |t|;
    assert forall y :: y in s <==> y in multiset(s);
    assert forall y :: y in t <==> y in multiset(t);
    TallyPermutes(AtMost(x), s, t);
    forall y | y in s && y < x ensures 100 * CountAtMost(s, y) < p * |s| {
      TallyPermutes(AtMost(y), s, t);
    }
  }

  // -------------------------------------------------------------- from_samples

  // With a product that fits usize this is the distribution; the count, the extremes and the
  // mean are right in any case.
  method FromSamples(samples: seq<nat>) returns (d: Dist)
    ensures samples == [] ==> d == Dist(0, 0, 0, 0, 0, 0, 0)
    ensures samples != [] && 99 * |samples| < USIZE ==> IsDist(samples, d)
    ensures samples != [] ==> d.count == |samples| && d.mean == Sum(samples) / |samples|
    ensures samples != [] ==> IsRange(samples, d.min, d.p100)
    ensures samples != [] ==>
              && d.p50 == Percentile(SortedCopy(samples), 50)
              && d.p90 == Percentile(SortedCopy(samples), 90)
              && d.p99 == Percentile(SortedCopy(samples), 99)
  {
    hide IsDist, IsRange, SortedCopy, Sum, Percentile;
    if |samples| == 0 { return DEFAULT_DIST; }
    var v := new nat[|samples|](i requires 0 <= i < |samples| => samples[i]);
    assert v[..] == samples;
    SortUnstable(v);
    var n := v.Length;
    var sum := SumOf(v);
    SumTransfer(v[..], samples);
    d := Dist(n, v[0], Percentile(v[..], 50), Percentile(v[..], 90), Percentile(v[..], 99), v[n - 1], sum / n);
    DistOfSorted(samples, v[..], d);
  }

  method SumOf(v: array<nat>) returns (sum: nat)
    ensures sum == Sum(v[..])
  {
    hide Sum;
    sum := 0;
    SumExtends([]);
    assert v[..0] == [];
    for i := 0 to v.Length
      invariant sum == Sum(v[..i])
    {
      SumExtends(v[..i + 1]);
      assert v[..i + 1][..i] == v[..i];
      sum := sum + v[i];
    }
    assert v[..v.Length] == v[..];
  }

  ghost predicate IsRange(s: seq<nat>, lo: nat, hi: nat) {
    lo in s && hi in s && forall x :: x in s ==> lo <= x <= hi
  }

  lemma SumExtends(s: seq<nat>)
    ensures s == [] ==> Sum(s) == 0
    ensures s != [] ==> Sum(s) == Sum(s[..|s| - 1]) + s[|s| - 1]
    ensures Sum([]) == 0
  {
  }

  lemma SumTransfer(s: seq<nat>, t: seq<nat>)
    requires multiset(s) == multiset(t)
    ensures Sum(s) == Sum(t)
  {
    TallyPermutes(y => y, s, t);
  }

  lemma SortedRange(s: seq<nat>, v: seq<nat>)
    requires s != [] && Sorted(v) && multiset(v) == multiset(s) && |v| == |s|
    ensures IsRange(s, v[0], v[|v| - 1])
  {
    forall x | x in s ensures v[0] <= x <= v[|v| - 1] {
      assert x in multiset(v);
      var i :| 0 <= i < |v| && v[i] == x;
    }
    assert v[0] in multiset(s) && v[|v| - 1] in multiset(s);
  }

  lemma DistOfSorted(s: seq<nat>, v: seq<nat>, d: Dist)
    requires s != [] && v == SortedCopy(s)
    requires d.count == |v| && d.min == v[0] && d.p100 == v[|v| - 1] && d.mean == Sum(s) / |v|
    requires d.p50 == Percentile(v, 50) && d.p90 == Percentile(v, 90) && d.p99 == Percentile(v, 99)
    ensures IsRange(s, d.min, d.p100)
    ensures 99 * |s| < USIZE ==> IsDist(s, d)
  {
    hide Percentile, SortedCopy, Sum, NearestRank, Sorted;
    SortedRange(s, v);
    QuotientBounds(Sum(s), |v|);
    if 99 * |s| < USIZE {
      PercentileIsNearestRank(s, 50);
      PercentileIsNearestRank(s, 90);
      PercentileIsNearestRank(s, 99);
    }
  }

  lemma QuotientBounds(a: nat, n: nat)
    requires n >= 1
    ensures a / n * n <= a < (a / n + 1) * n
  {
    assert a == a / n * n + a % n;
    assert (a / n + 1) * n == a / n * n + n;
  }

  // ----------------------------------------------------------- where usize runs out

  function Ramp(n: nat): seq<nat> {
    seq(n, i requires 0 <= i < n => i)
  }

  lemma {:induction false} SortedIsFixed(s: seq<nat>)
    requires Sorted(s)
    ensures SortedCopy(s) == s
  {
    var r := SortedCopy(s);
    SameSorted(r, s);
  }

  lemma SameLast(s: seq<nat>, t: seq<nat>)
    requires Sorted(s) && Sorted(t) && multiset(s) == multiset(t) && s != [] && |s| == |t|
    ensures s[|s| - 1] == t[|t| - 1]
  {
    assert s[|s| - 1] in multiset(t) && t[|t| - 1] in multiset(s);
  }

  lemma DropLast(s: seq<nat>)
    requires s != []
    ensures Sorted(s) ==> Sorted(s[..|s| - 1])
    ensures s == s[..|s| - 1] + [s[|s| - 1]]
    ensures multiset(s[..|s| - 1]) == multiset(s) - multiset{s[|s| - 1]}
  {
    assert s == s[..|s| - 1] + [s[|s| - 1]];
  }

  lemma {:induction false} SameSorted(s: seq<nat>, t: seq<nat>)
    requires Sorted(s) && Sorted(t) && multiset(s) == multiset(t)
    ensures s == t
  {
    hide Sorted;
    assert |multiset(s)| == |s| && |multiset(t)| == |t|;
    if s != [] {
      var last := |s| - 1;
      SameLast(s, t);
      DropLast(s);
      DropLast(t);
      SameSorted(s[..last], t[..last]);
    }
  }

  // For n samples the p-th percentile is right, whatever they are, exactly when p * n fits usize.
  lemma RightExactlyWhenItFits(p: nat, n: nat)
    requires 1 <= p <= 100 && n >= 1
    ensures (forall s: seq<nat> :: |s| == n ==> NearestRank(s, p, Percentile(SortedCopy(s), p)))
            <==> p * n < 0x1_0000_0000
  {
    hide NearestRank, Percentile, SortedCopy;
    if p * n < USIZE {
      forall s: seq<nat> | |s| == n ensures NearestRank(s, p, Percentile(SortedCopy(s), p)) {
        assert p * |s| == p * n;
        PercentileIsNearestRank(s, p);
      }
    } else {
      var s := Ramp(n);
      SortedIsFixed(s);
      RampIsWrong(p, n);
    }
  }

  // The wrapped rank is too small, and on n different samples a smaller rank is another sample.
  lemma RampIsWrong(p: nat, n: nat)
    requires 1 <= p <= 100 && n >= 1 && p * n >= USIZE
    ensures !NearestRank(Ramp(n), p, Percentile(Ramp(n), p))
  {
    hide CountAtMost;
    var s := Ramp(n);
    var x := Percentile(s, p);
    var i := if Rank(p, n) == 0 then 0 else Rank(p, n) - 1;
    WrappedRank(p * n);
    MulBounds(p, n);
    assert i < n - 1 && x == i;
    CountBelowIndex(s, i + 1, x);
  }

  lemma WrappedRank(m: nat)
    requires m >= USIZE
    ensures 100 * ((m % USIZE + 99) / 100) < m
  {
  }
}
