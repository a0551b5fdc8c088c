/**
  What a stream worker's bookkeeping means: completed reads and writes, seen as a history. Times
  are in nanoseconds.
 */
module Completions {
  import Stats

  const MS: nat := 1_000_000
  const SECOND: nat := 1_000_000_000
  const WIN: nat := 10 * MS

  // A read or write of `bytes` > 0 bytes that completed at `at`.
  datatype Io = Io(bytes: nat, at: nat)

  function Bytes(ios: seq<Io>): nat {
    if ios == [] then 0 else Bytes(ios[..|ios| - 1]) + ios[|ios| - 1].bytes
  }

  lemma {:induction false} BytesConcat(a: seq<Io>, b: seq<Io>)
    ensures Bytes(a + b) == Bytes(a) + Bytes(b)
  {
    if b == [] {
      assert a + b == a;
    } else {
      assert (a + b)[..|a + b| - 1] == a + b[..|b| - 1];
      BytesConcat(a, b[..|b| - 1]);
    }
  }

  // The instant after the first i completions; the start, before any.
  function At(ios: seq<Io>, start: nat, i: nat): nat
    requires i <= |ios|
  {
    if i == 0 then start else ios[i - 1].at
  }

  ghost predicate Ordered(ios: seq<Io>, start: nat) {
    forall i, j :: 0 <= i <= j <= |ios| ==> At(ios, start, i) <= At(ios, start, j)
  }

  // ------------------------------------------------------------------- latency samples

  // Since the completion before it.
  function Gap(ios: seq<Io>, start: nat, i: nat): int
    requires i < |ios|
  {
    ios[i].at - At(ios, start, i)
  }

  function SaturatingSub(a: int, b: nat): nat {
    if a <= b then 0 else a - b
  }

  // The kept samples are the gaps before the completions after warm-up, each less the cost of a
  // clock reading; the first `discarded` completions fall into the warm-up, the others do not.
  ghost predicate Latency(ios: seq<Io>, start: nat, warmup: nat, baseline: nat, discarded: nat, samples: seq<nat>) {
    && discarded + |samples| == |ios|
    && (forall i :: 0 <= i < discarded ==> ios[i].at < start + warmup)
    && (forall i :: discarded <= i < |ios| ==> ios[i].at >= start + warmup)
    && (forall i :: discarded <= i < |ios| ==> samples[i - discarded] == SaturatingSub(Gap(ios, start, i), baseline))
  }

  lemma LatencyExtends(ios: seq<Io>, start: nat, warmup: nat, baseline: nat, discarded: nat, samples: seq<nat>, io: Io)
    requires Latency(ios, start, warmup, baseline, discarded, samples)
    requires At(ios, start, |ios|) <= io.at
    ensures io.at >= start + warmup ==>
              Latency(ios + [io], start, warmup, baseline, discarded,
                samples + [SaturatingSub(io.at - At(ios, start, |ios|), baseline)])
    ensures io.at < start + warmup ==> Latency(ios + [io], start, warmup, baseline, discarded + 1, samples)
  {
    var all := ios + [io];
    assert forall i :: 0 <= i < |ios| ==> Gap(all, start, i) == Gap(ios, start, i);
    assert Gap(all, start, |ios|) == io.at - At(ios, start, |ios|);
    assert samples != [] ==> ios[|ios| - 1].at >= start + warmup;
  }

  lemma LatencyShrinks(ios: seq<Io>, start: nat, warmup: nat, baseline: nat, discarded: nat, samples: seq<nat>)
    requires Latency(ios, start, warmup, baseline, discarded, samples) && samples != []
    ensures Latency(ios[..|ios| - 1], start, warmup, baseline, discarded, samples[..|samples| - 1])
    ensures samples[|samples| - 1] == SaturatingSub(Gap(ios, start, |ios| - 1), baseline)
  {
    var fewer := ios[..|ios| - 1];
    assert forall i :: 0 <= i < |ios| - 1 ==> Gap(fewer, start, i) == Gap(ios, start, i);
  }

  // The samples telescope.
  lemma {:induction false} SamplesTelescope(ios: seq<Io>, start: nat, warmup: nat, baseline: nat, discarded: nat,
                                            samples: seq<nat>)
    requires Latency(ios, start, warmup, baseline, discarded, samples) && Ordered(ios, start)
    ensures At(ios, start, discarded) <= At(ios, start, |ios|)
    ensures var covered := At(ios, start, |ios|) - At(ios, start, discarded);
            covered - baseline * |samples| <= Stats.Sum(samples) <= covered
  {
    if samples != [] {
      hide Latency;
      var last := |ios| - 1;
      LatencyShrinks(ios, start, warmup, baseline, discarded, samples);
      assert forall i :: 0 <= i <= last ==> At(ios[..last], start, i) == At(ios, start, i);
      SamplesTelescope(ios[..last], start, warmup, baseline, discarded, samples[..|samples| - 1]);
      assert baseline * |samples| == baseline * (|samples| - 1) + baseline;
    }
  }

  // Each kept sample is the time since the completion before it, less the cost of a clock reading,
  // and nothing where that time is shorter than the reading itself.
  lemma SamplesAreCorrected(ios: seq<Io>, start: nat, warmup: nat, baseline: nat, discarded: nat,
                            samples: seq<nat>, j: nat)
    requires Latency(ios, start, warmup, baseline, discarded, samples) && j < |samples|
    ensures discarded + |samples| == |ios|
    ensures var i := discarded + j;
            var gap := ios[i].at - (if i == 0 then start else ios[i - 1].at);
            if gap >= baseline then samples[j] + baseline == gap else samples[j] == 0
  {
    assert samples[discarded + j - discarded] == SaturatingSub(Gap(ios, start, discarded + j), baseline);
  }

  // So where every gap is at least a clock reading, the samples sum to the time they cover less
  // one reading each.
  lemma {:induction false} SumIsExact(ios: seq<Io>, start: nat, warmup: nat, baseline: nat, discarded: nat,
                                      samples: seq<nat>)
    requires Latency(ios, start, warmup, baseline, discarded, samples)
    requires forall i :: discarded <= i < |ios| ==> Gap(ios, start, i) >= baseline
    ensures Stats.Sum(samples) + baseline * |samples| == At(ios, start, |ios|) - At(ios, start, discarded)
  {
    hide Gap, Latency;
    KeptAreCounted(ios, start, warmup, baseline, discarded, samples);
    if samples != [] {
      var last := |ios| - 1;
      LatencyShrinks(ios, start, warmup, baseline, discarded, samples);
      SameGaps(ios, start);
      forall i | discarded <= i < last ensures Gap(ios[..last], start, i) >= baseline {
        assert Gap(ios[..last], start, i) == Gap(ios, start, i);
      }
      SumIsExact(ios[..last], start, warmup, baseline, discarded, samples[..|samples| - 1]);
      LastGap(ios, start);
      assert baseline * |samples| == baseline * (|samples| - 1) + baseline;
    }
  }

  lemma SameGaps(ios: seq<Io>, start: nat)
    requires ios != []
    ensures forall i :: 0 <= i < |ios| ==> At(ios[..|ios| - 1], start, i) == At(ios, start, i)
    ensures forall i :: 0 <= i < |ios| - 1 ==> Gap(ios[..|ios| - 1], start, i) == Gap(ios, start, i)
  {
    var fewer := ios[..|ios| - 1];
    assert forall i :: 0 <= i < |ios| ==> At(fewer, start, i) == At(ios, start, i);
  }

  lemma LastGap(ios: seq<Io>, start: nat)
    requires ios != []
    ensures Gap(ios, start, |ios| - 1) == At(ios, start, |ios|) - At(ios, start, |ios| - 1)
  {
  }

  // The reported mean, over all kept samples, never exceeds the time the worker ran.
  lemma MeanWithinElapsed(ios: seq<Io>, start: nat, warmup: nat, baseline: nat, discarded: nat,
                          samples: seq<nat>, d: Stats.Dist, end: nat)
    requires Latency(ios, start, warmup, baseline, discarded, samples) && Ordered(ios, start)
    requires Stats.IsDist(samples, d) && At(ios, start, |ios|) <= end
    ensures d.count + discarded == |ios|
    ensures d.mean * d.count <= end - start
  {
    SamplesTelescope(ios, start, warmup, baseline, discarded, samples);
    assert At(ios, start, 0) <= At(ios, start, discarded);
  }

  lemma KeptAreCounted(ios: seq<Io>, start: nat, warmup: nat, baseline: nat, discarded: nat, samples: seq<nat>)
    requires Latency(ios, start, warmup, baseline, discarded, samples)
    ensures discarded + |samples| == |ios|
  {
  }

  // The history leaves no choice.
  lemma LatencyUnique(ios: seq<Io>, start: nat, warmup: nat, baseline: nat, d: nat, s: seq<nat>, e: nat, t: seq<nat>)
    requires Latency(ios, start, warmup, baseline, d, s) && Latency(ios, start, warmup, baseline, e, t)
    ensures d == e && s == t
  {
    assert d < |ios| ==> ios[d].at >= start + warmup;
    assert e < |ios| ==> ios[e].at >= start + warmup;
    assert d == e;
    forall i | 0 <= i < |s| ensures s[i] == t[i] {
      assert s[i] == SaturatingSub(Gap(ios, start, d + i), baseline);
    }
  }

  // ------------------------------------------------------------------- goodput windows

  // Bits per second.
  function Rate(bytes: nat, ns: nat): nat
    requires ns > 0
  {
    bytes * 8 * SECOND / ns
  }

  // The completions from i up to j make one window: the last of them is the first to come at
  // least 10 ms after the window opened.
  ghost predicate Closes(ios: seq<Io>, start: nat, i: nat, j: nat) {
    && i < j <= |ios|
    && At(ios, start, j) >= At(ios, start, i) + WIN
    && forall k :: i < k < j ==> At(ios, start, k) < At(ios, start, i) + WIN
  }

  ghost predicate Open(ios: seq<Io>, start: nat, i: nat) {
    && i <= |ios|
    && forall k :: i < k <= |ios| ==> At(ios, start, k) < At(ios, start, i) + WIN
  }

  // Windows one after the other from the start: window w ends where window w + 1 begins, and the
  // last one has not been closed yet.
  ghost predicate Windows(ios: seq<Io>, start: nat, cuts: seq<nat>) {
    && |cuts| >= 1 && cuts[0] == 0
    && (forall w :: 0 <= w < |cuts| - 1 ==> Closes(ios, start, cuts[w], cuts[w + 1]))
    && Open(ios, start, cuts[|cuts| - 1])
  }

  function WindowRate(ios: seq<Io>, start: nat, i: nat, j: nat): nat
    requires i <= j <= |ios| && At(ios, start, i) < At(ios, start, j)
  {
    Rate(Bytes(ios[i..j]), At(ios, start, j) - At(ios, start, i))
  }

  ghost predicate Rates(ios: seq<Io>, start: nat, cuts: seq<nat>, tput: seq<nat>)
    requires Windows(ios, start, cuts)
  {
    && |tput| == |cuts| - 1
    && forall w :: 0 <= w < |tput| ==> tput[w] == WindowRate(ios, start, cuts[w], cuts[w + 1])
  }

  // A window that has been closed stays as it is.
  lemma OldWindow(ios: seq<Io>, start: nat, i: nat, j: nat, io: Io)
    requires Closes(ios, start, i, j)
    ensures Closes(ios + [io], start, i, j)
    ensures WindowRate(ios + [io], start, i, j) == WindowRate(ios, start, i, j)
  {
    hide Bytes, Rate;
    var all := ios + [io];
    assert forall k :: 0 <= k <= |ios| ==> At(all, start, k) == At(ios, start, k);
    assert all[i..j] == ios[i..j];
  }

  // The open window is closed by the next completion or stays open.
  lemma OpenWindow(ios: seq<Io>, start: nat, i: nat, io: Io)
    requires Open(ios, start, i)
    ensures var all := ios + [io];
            var since := At(ios, start, i);
            if io.at >= since + WIN
            then
              && Closes(all, start, i, |all|) && Open(all, start, |all|)
              && WindowRate(all, start, i, |all|) == Rate(Bytes(ios[i..]) + io.bytes, io.at - since)
            else Open(all, start, i)
  {
    hide Rate;
    var all := ios + [io];
    assert forall k :: 0 <= k <= |ios| ==> At(all, start, k) == At(ios, start, k);
    assert At(all, start, |all|) == io.at;
    var tail := all[i..|all|];
    assert tail[..|tail| - 1] == ios[i..];
  }

  lemma WindowsExtend(ios: seq<Io>, start: nat, cuts: seq<nat>, tput: seq<nat>, io: Io)
    requires Windows(ios, start, cuts) && Rates(ios, start, cuts, tput)
    ensures var open := cuts[|cuts| - 1];
            var all := ios + [io];
            var since := At(ios, start, open);
            if io.at >= since + WIN
            then
              && Windows(all, start, cuts + [|all|])
              && Rates(all, start, cuts + [|all|], tput + [Rate(Bytes(ios[open..]) + io.bytes, io.at - since)])
            else Windows(all, start, cuts) && Rates(all, start, cuts, tput)
  {
    hide Bytes, Rate, WindowRate;
    forall w | 0 <= w < |tput|
      ensures Closes(ios + [io], start, cuts[w], cuts[w + 1])
      ensures WindowRate(ios + [io], start, cuts[w], cuts[w + 1]) == tput[w]
    {
      OldWindow(ios, start, cuts[w], cuts[w + 1], io);
    }
    OpenWindow(ios, start, cuts[|cuts| - 1], io);
  }

  // A closed window takes at least 10 ms, and had not taken 10 ms before its last completion.
  lemma WindowTakesTenMs(ios: seq<Io>, start: nat, cuts: seq<nat>, w: nat)
    requires Windows(ios, start, cuts) && w + 1 < |cuts|
    ensures cuts[w] < cuts[w + 1] <= |ios|
    ensures var begin := if cuts[w] == 0 then start else ios[cuts[w] - 1].at;
            && ios[cuts[w + 1] - 1].at >= begin + 10_000_000
            && forall k :: cuts[w] <= k < cuts[w + 1] - 1 ==> ios[k].at < begin + 10_000_000
  {
    var i, j := cuts[w], cuts[w + 1];
    assert Closes(ios, start, i, j);
    forall k | i <= k < j - 1 ensures ios[k].at < At(ios, start, i) + 10_000_000 {
      assert At(ios, start, k + 1) == ios[k].at;
    }
  }

  // The history leaves no choice where the windows are cut.
  lemma {:induction false} WindowsUnique(ios: seq<Io>, start: nat, c: seq<nat>, d: seq<nat>, w: nat)
    requires Windows(ios, start, c) && Windows(ios, start, d)
    ensures w < |c| ==> w < |d| && c[w] == d[w]
  {
    if 0 < w < |c| {
      WindowsUnique(ios, start, c, d, w - 1);
      assert Closes(ios, start, c[w - 1], c[w]);
      if w < |d| {
        assert Closes(ios, start, d[w - 1], d[w]);
      }
    }
  }

  lemma WindowsDetermined(ios: seq<Io>, start: nat, c: seq<nat>, d: seq<nat>)
    requires Windows(ios, start, c) && Windows(ios, start, d)
    ensures c == d
  {
    forall w | 0 <= w < |c| || 0 <= w < |d| ensures w < |c| && w < |d| && c[w] == d[w] {
      WindowsUnique(ios, start, c, d, w);
      WindowsUnique(ios, start, d, c, w);
    }
    assert |c| == |d| by {
      WindowsUnique(ios, start, c, d, |c| - 1);
      WindowsUnique(ios, start, d, c, |d| - 1);
    }
  }

  // Σ rate · duration over the first n windows, in bits · nanoseconds per second.
  function Weighted(ios: seq<Io>, start: nat, cuts: seq<nat>, n: nat): nat
    requires Windows(ios, start, cuts) && n < |cuts|
  {
    if n == 0 then 0
    else
      assert Closes(ios, start, cuts[n - 1], cuts[n]);
      Weighted(ios, start, cuts, n - 1)
      + WindowRate(ios, start, cuts[n - 1], cuts[n]) * (At(ios, start, cuts[n]) - At(ios, start, cuts[n - 1]))
  }

  // Disjoint and contiguous: the bytes of the windows add up, each takes at least 10 ms, and the
  // rates give the bits back, to less than one bit per second over the time the windows cover.
  lemma {:induction false} WindowsAddUp(ios: seq<Io>, start: nat, cuts: seq<nat>, n: nat)
    requires Windows(ios, start, cuts) && n < |cuts|
    ensures cuts[n] <= |ios|
    ensures start + n * 10_000_000 <= At(ios, start, cuts[n])
    ensures var bits := 8_000_000_000 * Bytes(ios[..cuts[n]]);
            Weighted(ios, start, cuts, n) <= bits <= Weighted(ios, start, cuts, n) + (At(ios, start, cuts[n]) - start)
  {
    if n > 0 {
      WindowsAddUp(ios, start, cuts, n - 1);
      var i, j := cuts[n - 1], cuts[n];
      assert Closes(ios, start, i, j);
      assert ios[..j] == ios[..i] + ios[i..j];
      BytesConcat(ios[..i], ios[i..j]);
      RateBounds(Bytes(ios[i..j]), At(ios, start, j) - At(ios, start, i));
    }
  }

  lemma RateBounds(bytes: nat, ns: nat)
    requires ns > 0
    ensures Rate(bytes, ns) * ns <= 8_000_000_000 * bytes < Rate(bytes, ns) * ns + ns
  {
    Stats.QuotientBounds(bytes * 8 * SECOND, ns);
    assert (Rate(bytes, ns) + 1) * ns == Rate(bytes, ns) * ns + ns;
  }

  lemma WindowTotals(ios: seq<Io>, start: nat, cuts: seq<nat>, tput: seq<nat>, end: nat)
    requires Windows(ios, start, cuts) && Rates(ios, start, cuts, tput) && Ordered(ios, start)
    requires At(ios, start, |ios|) <= end
    ensures var open := cuts[|tput|];
            var weighted := Weighted(ios, start, cuts, |tput|);
            && open <= |ios| && Bytes(ios[..open]) + Bytes(ios[open..]) == Bytes(ios)
            && |tput| * 10_000_000 <= end - start
            && weighted <= 8_000_000_000 * (Bytes(ios) - Bytes(ios[open..])) <= weighted + (end - start)
  {
    hide Bytes, WindowRate, Weighted;
    var open := cuts[|tput|];
    WindowsAddUp(ios, start, cuts, |tput|);
    assert ios == ios[..open] + ios[open..];
    BytesConcat(ios[..open], ios[open..]);
    assert At(ios, start, open) <= At(ios, start, |ios|);
  }
}
