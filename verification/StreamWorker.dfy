/**
  A stream worker of netperf-p2: it waits for the start signal, transfers until it is told to stop,
  keeps its books on the way, and drains what is left.
 */
module StreamWorker {
  import opened ByteStream
  import opened Completions
  import opened Machine
  import opened Wrappers
  import Stats

  datatype Signal = StartLoad | Terminate | Hangup

  // What the select finds ready: a signal, a tick of the interval timer, a read or write of
  // `count` bytes completed at `now`, or one that failed. When the list ends, time is up.
  datatype Event = Told(signal: Signal) | Tick(at: nat) | Completed(count: nat, now: nat) | Broken

  // One line printed per tick.
  datatype Report = Report(from: nat, to: nat, bytes: nat, calls: nat)

  datatype Outcome = Finished(stats: Stats.StreamStats) | NotStarted | Failed

  // ------------------------------------------------------------------- what is handled

  predicate Stops(e: Event) {
    || e == Told(Terminate) || e == Told(Hangup) || e.Broken?
    || (e.Completed? && e.count == 0)
  }

  // The events up to the one that ends the loop.
  function Handled(events: seq<Event>): (h: seq<Event>)
    ensures h <= events && (|h| < |events| ==> Stops(events[|h|]))
    ensures forall i :: 0 <= i < |h| ==> !Stops(h[i])
  {
    if events == [] || Stops(events[0]) then [] else [events[0]] + Handled(events[1..])
  }

  // An event is handled exactly when it and all before it leave the loop running: a stray start
  // signal, a tick, or a read or write that moved something. A Terminate, a closed queue, an error
  // and an empty read or write end it.
  lemma {:induction false} HandledExactly(events: seq<Event>, i: nat)
    requires i < |events|
    ensures i < |Handled(events)| <==>
              forall j :: 0 <= j <= i ==>
                events[j] == Told(StartLoad) || events[j].Tick? || (events[j].Completed? && events[j].count > 0)
  {
    var rest := events[1..];
    assert !Stops(events[0]) <==>
             events[0] == Told(StartLoad) || events[0].Tick? || (events[0].Completed? && events[0].count > 0) by {
      if events[0].Told? { match events[0].signal case StartLoad => case Terminate => case Hangup => }
    }
    if i > 0 {
      HandledExactly(rest, i - 1);
      assert forall j :: 1 <= j <= i ==> events[j] == rest[j - 1];
      assert forall j :: 0 <= j <= i - 1 ==> rest[j] == events[j + 1];
    }
  }

  function Ios(log: seq<Event>): seq<Io> {
    if log == [] then []
    else
      var e := log[|log| - 1];
      Ios(log[..|log| - 1]) + if e.Completed? then [Io(e.count, e.now)] else []
  }

  // The last tick, and what came after it.
  function LastTick(log: seq<Event>, start: nat): nat {
    if log == [] then start
    else if log[|log| - 1].Tick? then log[|log| - 1].at
    else LastTick(log[..|log| - 1], start)
  }

  function SinceTick(log: seq<Event>): seq<Event> {
    if log == [] || log[|log| - 1].Tick? then [] else SinceTick(log[..|log| - 1]) + [log[|log| - 1]]
  }

  function Reports(log: seq<Event>, start: nat): seq<Report> {
    if log == [] then []
    else
      var before := log[..|log| - 1];
      var since := Ios(SinceTick(before));
      Reports(before, start) +
        if log[|log| - 1].Tick? then [Report(LastTick(before, start), log[|log| - 1].at, Bytes(since), |since|)] else []
  }

  function ReportedBytes(reports: seq<Report>): nat {
    if reports == [] then 0 else ReportedBytes(reports[..|reports| - 1]) + reports[|reports| - 1].bytes
  }

  function ReportedCalls(reports: seq<Report>): nat {
    if reports == [] then 0 else ReportedCalls(reports[..|reports| - 1]) + reports[|reports| - 1].calls
  }

  // Clock readings never run backwards.
  ghost predicate Timely(events: seq<Event>, start: nat) {
    && (forall i :: 0 <= i < |events| && events[i].Completed? ==> start <= events[i].now)
    && (forall i, j :: 0 <= i < j < |events| && events[i].Completed? && events[j].Completed? ==>
          events[i].now <= events[j].now)
  }

  // ------------------------------------------------------------------ what the log implies

  lemma LogExtends(log: seq<Event>, e: Event, start: nat)
    ensures e.Completed? ==>
              && Ios(log + [e]) == Ios(log) + [Io(e.count, e.now)]
              && Ios(SinceTick(log + [e])) == Ios(SinceTick(log)) + [Io(e.count, e.now)]
    ensures !e.Completed? ==> Ios(log + [e]) == Ios(log)
    ensures e.Told? || e.Broken? ==> Ios(SinceTick(log + [e])) == Ios(SinceTick(log))
    ensures e.Tick? ==>
              && Ios(SinceTick(log + [e])) == [] && LastTick(log + [e], start) == e.at
              && Reports(log + [e], start) == Reports(log, start) +
                [Report(LastTick(log, start), e.at, Bytes(Ios(SinceTick(log))), |Ios(SinceTick(log))|)]
    ensures !e.Tick? ==>
              Reports(log + [e], start) == Reports(log, start) && LastTick(log + [e], start) == LastTick(log, start)
  {
    assert (log + [e])[..|log|] == log;
    assert (SinceTick(log) + [e])[..|SinceTick(log)|] == SinceTick(log);
  }

  lemma NothingLogged(start: nat)
    ensures Ios([]) == [] && Ios(SinceTick([])) == [] && LastTick([], start) == start && Reports([], start) == []
    ensures Bytes([]) == 0 && ReportedBytes([]) == 0 && ReportedCalls([]) == 0
  {
  }

  lemma BytesExtend(ios: seq<Io>, io: Io)
    ensures Bytes(ios + [io]) == Bytes(ios) + io.bytes
  {
    assert (ios + [io])[..|ios|] == ios;
  }

  ghost predicate Contiguous(r: seq<Report>, start: nat) {
    (r != [] ==> r[0].from == start) && forall i :: 0 < i < |r| ==> r[i].from == r[i - 1].to
  }

  lemma ReportsExtend(r: seq<Report>, last: Report, start: nat)
    requires Contiguous(r, start) && last.from == if r == [] then start else r[|r| - 1].to
    ensures Contiguous(r + [last], start)
    ensures ReportedBytes(r + [last]) == ReportedBytes(r) + last.bytes
    ensures ReportedCalls(r + [last]) == ReportedCalls(r) + last.calls
  {
    var all := r + [last];
    assert all[..|r|] == r;
  }

  // The reports follow one another without a gap, and with the unreported tail they account for
  // every byte and every call.
  lemma {:induction false} ReportsAddUp(log: seq<Event>, start: nat)
    ensures var r, tail := Reports(log, start), Ios(SinceTick(log));
            && ReportedBytes(r) + Bytes(tail) == Bytes(Ios(log))
            && ReportedCalls(r) + |tail| == |Ios(log)|
            && Contiguous(r, start)
            && LastTick(log, start) == if r == [] then start else r[|r| - 1].to
  {
    hide Ios, SinceTick, LastTick, Reports, Bytes, ReportedBytes, ReportedCalls;
    NothingLogged(start);
    if log != [] {
      var before, e := log[..|log| - 1], log[|log| - 1];
      assert log == before + [e];
      ReportsAddUp(before, start);
      LogExtends(before, e, start);
      var tail := Ios(SinceTick(before));
      match e {
        case Tick(at) =>
          ReportsExtend(Reports(before, start), Report(LastTick(before, start), at, Bytes(tail), |tail|), start);
        case Completed(count, now) =>
          BytesExtend(Ios(before), Io(count, now));
          BytesExtend(tail, Io(count, now));
        case _ =>
      }
    }
  }

  lemma {:induction false} IosFromLog(log: seq<Event>, i: nat)
    requires i < |Ios(log)|
    ensures exists k :: 0 <= k < |log| && log[k].Completed? && Ios(log)[i].at == log[k].now
  {
    var last := |log| - 1;
    if i < |Ios(log[..last])| {
      IosFromLog(log[..last], i);
      var k :| 0 <= k < last && log[..last][k].Completed? && Ios(log[..last])[i].at == log[..last][k].now;
      assert log[k].Completed?;
    } else {
      assert log[last].Completed?;
    }
  }

  lemma {:induction false} TimelyIsOrdered(log: seq<Event>, start: nat)
    requires Timely(log, start)
    ensures Ordered(Ios(log), start)
  {
    if log != [] {
      var before, e := log[..|log| - 1], log[|log| - 1];
      assert log == before + [e];
      TimelyIsOrdered(before, start);
      LogExtends(before, e, start);
      if e.Completed? {
        var ios := Ios(before);
        forall i | 0 <= i < |ios| ensures ios[i].at <= e.now {
          IosFromLog(before, i);
        }
        OrderedExtends(ios, start, Io(e.count, e.now));
      }
    }
  }

  lemma OrderedExtends(ios: seq<Io>, start: nat, io: Io)
    requires Ordered(ios, start) && start <= io.at
    requires forall i :: 0 <= i < |ios| ==> ios[i].at <= io.at
    ensures Ordered(ios + [io], start)
  {
    var all := ios + [io];
    assert forall i :: 0 <= i <= |ios| ==> At(all, start, i) == At(ios, start, i);
    assert At(all, start, |all|) == io.at;
  }

  // ------------------------------------------------------------------------ the books

  // The variables of the transfer loop.
  class Books {
    const start: nat
    const measure: bool
    const warmup: nat
    const baseline: nat
    var bytesTransferred: nat
    var syscalls: nat
    var lastTick: nat
    var intervalBytes: nat
    var intervalSyscalls: nat
    var reports: seq<Report>
    var samples: seq<nat>
    var tput: seq<nat>
    var warmupDiscarded: nat
    var tPrev: nat
    var winStart: nat
    var winBytes: nat
    ghost var log: seq<Event>
    ghost var cuts: seq<nat>

    ghost predicate Tallied()
      reads this
    {
      && bytesTransferred == Bytes(Ios(log)) && syscalls == |Ios(log)|
      && lastTick == LastTick(log, start) && reports == Reports(log, start)
      && intervalBytes == Bytes(Ios(SinceTick(log))) && intervalSyscalls == |Ios(SinceTick(log))|
    }

    ghost predicate Measured(ios: seq<Io>)
      reads this
    {
      && Latency(ios, start, warmup, baseline, warmupDiscarded, samples)
      && tPrev == At(ios, start, |ios|)
      && Windows(ios, start, cuts) && Rates(ios, start, cuts, tput)
      && winStart == At(ios, start, cuts[|tput|]) && winBytes == Bytes(ios[cuts[|tput|]..])
    }

    ghost predicate Valid()
      reads this
    {
      Tallied() && (measure ==> Measured(Ios(log)))
    }

    constructor (start: nat, measure: bool, warmup: nat, baseline: nat)
      ensures Valid() && log == []
      ensures this.start == start && this.measure == measure && this.warmup == warmup && this.baseline == baseline
    {
      this.start, this.measure, this.warmup, this.baseline := start, measure, warmup, baseline;
      bytesTransferred, syscalls, lastTick, intervalBytes, intervalSyscalls := 0, 0, start, 0, 0;
      reports, samples, tput, warmupDiscarded := [], [], [], 0;
      tPrev, winStart, winBytes := start, start, 0;
      log, cuts := [], [0];
    }

    method OnTick(at: nat)
      requires Valid()
      modifies this
      ensures Valid() && log == old(log) + [Tick(at)]
    {
      hide Latency, Windows, Rates, Ios, SinceTick, LastTick, Reports, Bytes;
      LogExtends(log, Tick(at), start);
      NothingLogged(start);
      reports := reports + [Report(lastTick, at, intervalBytes, intervalSyscalls)];
      intervalBytes, intervalSyscalls := 0, 0;
      lastTick := at;
      log := log + [Tick(at)];
    }

    method OnStrayStart()
      requires Valid()
      modifies this`log
      ensures Valid() && log == old(log) + [Told(StartLoad)]
    {
      hide Latency, Windows, Rates, Ios, SinceTick, LastTick, Reports, Bytes;
      LogExtends(log, Told(StartLoad), start);
      log := log + [Told(StartLoad)];
    }

    // One clock reading drives the windows and the samples.
    method Observe(ghost ios: seq<Io>, count: nat, now: nat)
      requires Measured(ios) && At(ios, start, |ios|) <= now
      modifies this`samples, this`tput, this`warmupDiscarded, this`tPrev, this`winStart, this`winBytes, this`cuts
      ensures Measured(ios + [Io(count, now)])
    {
      hide Latency, Bytes, Rate, At;
      ghost var io := Io(count, now);
      LatencyExtends(ios, start, warmup, baseline, warmupDiscarded, samples, io);
      WindowsExtend(ios, start, cuts, tput, io);
      AtExtends(ios, start, io, cuts[|tput|]);
      winBytes := winBytes + count;
      var winElapsed := now - winStart;
      if winElapsed >= WIN {
        tput := tput + [Rate(winBytes, winElapsed)];
        winStart, winBytes := now, 0;
        cuts := cuts + [|ios| + 1];
      }
      if now - start >= warmup {
        samples := samples + [SaturatingSub(now - tPrev, baseline)];
      } else {
        warmupDiscarded := warmupDiscarded + 1;
      }
      tPrev := now;
    }

    method OnCompleted(count: nat, now: nat)
      requires Valid() && count > 0
      requires At(Ios(log), start, |Ios(log)|) <= now
      modifies this
      ensures Valid() && log == old(log) + [Completed(count, now)]
    {
      hide Latency, Windows, Rates, Ios, SinceTick, LastTick, Reports, Bytes, At;
      ghost var ios := Ios(log);
      LogExtends(log, Completed(count, now), start);
      BytesExtend(ios, Io(count, now));
      BytesExtend(Ios(SinceTick(log)), Io(count, now));
      if measure { Observe(ios, count, now); }
      log := log + [Completed(count, now)];
      intervalBytes, bytesTransferred := intervalBytes + count, bytesTransferred + count;
      syscalls, intervalSyscalls := syscalls + 1, intervalSyscalls + 1;
    }
  }

  lemma AtExtends(ios: seq<Io>, start: nat, io: Io, open: nat)
    requires open <= |ios|
    ensures At(ios + [io], start, open) == At(ios, start, open)
    ensures At(ios + [io], start, |ios| + 1) == io.at
    ensures Bytes((ios + [io])[open..]) == Bytes(ios[open..]) + io.bytes
    ensures Bytes((ios + [io])[|ios| + 1..]) == 0
  {
    assert (ios + [io])[open..] == ios[open..] + [io];
    BytesExtend(ios[open..], io);
  }

  // ---------------------------------------------------------------------- the worker

  function Warmup(timeSeconds: nat): nat {
    if timeSeconds > 2 then SECOND else 0
  }

  lemma HandledExtends(events: seq<Event>, i: nat)
    requires i < |events| && i <= |Handled(events)|
    ensures Stops(events[i]) ==> |Handled(events)| == i
    ensures !Stops(events[i]) ==> i < |Handled(events)| && events[..i + 1] == events[..i] + [events[i]]
  {
    hide Handled, Stops;
    if |Handled(events)| > i { assert Handled(events)[i] == events[i]; }
  }

  lemma HandledIs(events: seq<Event>, i: nat)
    requires i == |Handled(events)|
    ensures i <= |events| && Handled(events) == events[..i]
  {
  }

  lemma NowIsLater(events: seq<Event>, i: nat, start: nat)
    requires Timely(events, start) && i < |events| && events[i].Completed?
    ensures At(Ios(events[..i]), start, |Ios(events[..i])|) <= events[i].now
  {
    var ios := Ios(events[..i]);
    if ios != [] { IosFromLog(events[..i], |ios| - 1); }
  }

  // The median of 256 clock readings back to back.
  method CalibrateClock(readings: seq<nat>) returns (cost: nat)
    requires |readings| == 257 && Rising(readings)
    ensures IsMedian(Deltas(readings), cost)
    ensures forall i :: 0 <= i < 256 ==> Deltas(readings)[i] == readings[i + 1] - readings[i]
  {
    var deltas := new nat[256](_ => 0);
    var prev := readings[0];
    for i := 0 to 256
      invariant prev == readings[i]
      invariant forall k :: 0 <= k < i ==> deltas[k] == readings[k + 1] - readings[k]
    {
      deltas[i] := readings[i + 1] - prev;
      prev := readings[i + 1];
    }
    assert deltas[..] == Deltas(readings);
    Stats.SortUnstable(deltas);
    MedianOfSorted(Deltas(readings), deltas[..]);
    cost := deltas[deltas.Length / 2];
  }

  ghost predicate Rising(readings: seq<nat>) {
    forall i, j :: 0 <= i < j < |readings| ==> readings[i] <= readings[j]
  }

  ghost function Deltas(readings: seq<nat>): seq<nat>
    requires |readings| > 0 && Rising(readings)
  {
    seq(|readings| - 1, i requires 0 <= i < |readings| - 1 => readings[i + 1] - readings[i])
  }

  // Of 256 values, more than half are at most x and no more than half are less.
  ghost predicate IsMedian(s: seq<nat>, x: nat) {
    && x in s && 2 * Stats.CountAtMost(s, x) > |s|
    && forall y :: y in s && y < x ==> 2 * Stats.CountAtMost(s, y) <= |s|
  }

  lemma MedianOfSorted(s: seq<nat>, v: seq<nat>)
    requires |s| == |v| == 256 && Stats.Sorted(v) && multiset(s) == multiset(v)
    ensures IsMedian(s, v[128])
  {
    hide Stats.CountAtMost, Stats.Sorted;
    Stats.IndexIsNearestRank(s, v, 128, 12801);
    forall y | y in s && y < v[128] ensures 2 * Stats.CountAtMost(s, y) <= |s| {
      FewBelow(s, v, y);
    }
  }

  lemma FewBelow(s: seq<nat>, v: seq<nat>, y: nat)
    requires |v| == 256 && Stats.Sorted(v) && multiset(s) == multiset(v) && y < v[128]
    ensures Stats.CountAtMost(s, y) <= 128
  {
    hide Stats.CountAtMost;
    Stats.CountTransfer(s, v, y);
    Stats.CountBelowIndex(v, 128, y);
  }

  ghost predicate Summarises(d: Stats.Dist, samples: seq<nat>) {
    && (samples == [] ==> d == Stats.Dist(0, 0, 0, 0, 0, 0, 0))
    && (samples != [] && 99 * |samples| < USIZE ==> Stats.IsDist(samples, d))
  }

  // What a worker reports about the events h it handled.
  ghost predicate Figures(h: seq<Event>, start: nat, end: nat, timeSeconds: nat, readings: seq<nat>,
                          s: Stats.StreamStats, samples: seq<nat>, cuts: seq<nat>, tput: seq<nat>)
    requires |readings| == 257 && Rising(readings) && start <= end
  {
    && s.bytesTransferred == Bytes(Ios(h)) && s.syscalls == |Ios(h)|
    && s.durationMillis == (end - start) / 1_000_000
    && match s.latency
       case None => true
       case Some(l) =>
         && IsMedian(Deltas(readings), l.baseline)
         && Latency(Ios(h), start, Warmup(timeSeconds), l.baseline, l.warmupDiscarded, samples)
         && Windows(Ios(h), start, cuts) && Rates(Ios(h), start, cuts, tput)
         && Summarises(l.interval, samples) && Summarises(l.throughput, tput)
  }

  // Whether the loop ended with an I/O error.
  predicate BrokenOff(events: seq<Event>) {
    |Handled(events)| < |events| && events[|Handled(events)|].Broken?
  }

  // The transfer loop, on whatever the select finds ready.
  method Transfer(books: Books, events: seq<Event>) returns (failed: bool)
    requires books.Valid() && books.log == [] && Timely(events, books.start)
    modifies books
    ensures books.Valid() && books.log == Handled(events)
    ensures failed <==> BrokenOff(events)
  {
    hide Latency, Windows, Rates, Ios, SinceTick, LastTick, Reports, Bytes, At, Handled, Timely;
    var i := 0;
    while i < |events|
      invariant i <= |Handled(events)| && i <= |events|
      invariant books.Valid() && books.log == events[..i]
    {
      HandledExtends(events, i);
      if i == |Handled(events)| { HandledIs(events, i); }
      match events[i] {
        case Told(s) =>
          if s != StartLoad { return false; }
          books.OnStrayStart();
        case Tick(at) => books.OnTick(at);
        case Broken => return true;
        case Completed(count, now) =>
          if count == 0 { return false; }
          NowIsLater(events, i, books.start);
          books.OnCompleted(count, now);
      }
      i := i + 1;
    }
    HandledIs(events, i);
    failed := false;
  }

  // Reads until nothing comes; into an empty buffer nothing ever comes. `breaks` is how many reads
  // succeed before one fails, if one does; `n` is how many brought something. The drain fails
  // exactly when the failing read comes no later than the one that would have brought nothing.
  method Drain(rx: Reader, blockSize: nat, breaks: Option<nat>) returns (failed: bool, ghost n: nat)
    requires rx.Valid()
    modifies rx
    ensures rx.Valid() && n + |rx.Unread()| <= |old(rx.Unread())|
    ensures failed <==> breaks == Some(n)
    ensures !failed && breaks.Some? ==> breaks.value > n
    ensures !failed ==> rx.Unread() == if blockSize > 0 then [] else old(rx.Unread())
  {
    var done := 0;
    while true
      invariant rx.Valid() && (blockSize == 0 ==> rx.Unread() == old(rx.Unread()))
      invariant done + |rx.Unread()| <= |old(rx.Unread())| && (breaks.Some? ==> done <= breaks.value)
      decreases |rx.Unread()|
    {
      if breaks == Some(done) { return true, done; }
      if blockSize == 0 { break; }
      var b := rx.Read(blockSize);
      if b == [] { break; }
      done := done + 1;
    }
    failed, n := false, done;
  }

  // run_worker. A receiver that ends well has read its connection to the end.
  method RunWorker(isSending: bool, measure: bool, timeSeconds: nat, blockSize: nat, signal: Signal,
                   readings: seq<nat>, events: seq<Event>, start: nat, end: nat, rx: Reader, breaks: Option<nat>)
    returns (r: Outcome, printed: seq<Report>, ghost samples: seq<nat>, ghost cuts: seq<nat>, ghost tput: seq<nat>,
             ghost drained: nat)
    requires |readings| == 257 && Rising(readings) && Timely(events, start) && start <= end && rx.Valid()
    modifies rx
    ensures signal != StartLoad <==> r == NotStarted
    ensures signal == StartLoad ==>
              var h := Handled(events);
              && printed == Reports(h, start)
              && (r == Failed <==> BrokenOff(events) || (!isSending && breaks == Some(drained)))
              && (r.Finished? ==>
                    && r.stats.sender == isSending && (r.stats.latency.Some? <==> measure)
                    && Figures(h, start, end, timeSeconds, readings, r.stats, samples, cuts, tput))
    ensures r.Finished? && !isSending && breaks.Some? ==> breaks.value > drained
    ensures r.Finished? && !isSending && blockSize > 0 ==> rx.Unread() == []
    ensures isSending || r == NotStarted || (signal == StartLoad && BrokenOff(events)) ==>
              rx.Unread() == old(rx.Unread())
  {
    hide Latency, Windows, Rates, Ios, SinceTick, LastTick, Reports, IsMedian, Bytes, Deltas, At, Handled, Timely,
         Stats.IsDist;
    printed, samples, cuts, tput, drained := [], [], [0], [], 0;
    if signal != StartLoad { return NotStarted, [], [], [0], [], 0; }
    var baseline := 0;
    if measure { baseline := CalibrateClock(readings); }
    var books := new Books(start, measure, Warmup(timeSeconds), baseline);
    var failed := Transfer(books, events);
    printed := books.reports;
    if failed { return Failed, printed, [], [0], [], 0; }
    samples, cuts, tput := books.samples, books.cuts, books.tput;
    var latency := None;
    if measure {
      var interval := Stats.FromSamples(books.samples);
      var throughput := Stats.FromSamples(books.tput);
      latency := Some(Stats.LatencyStats(interval, throughput, baseline, books.warmupDiscarded));
    }
    r := Finished(Stats.StreamStats(isSending, (end - start) / MS, books.bytesTransferred, books.syscalls, latency));
    if !isSending {
      var broken;
      broken, drained := Drain(rx, blockSize, breaks);
      if broken { r := Failed; }
    }
  }

  // What the figures of a measured run guarantee to whoever reads them.
  lemma FiguresAreConsistent(h: seq<Event>, start: nat, end: nat, timeSeconds: nat, readings: seq<nat>,
                             s: Stats.StreamStats, samples: seq<nat>, cuts: seq<nat>, tput: seq<nat>)
    requires |readings| == 257 && Rising(readings) && Timely(h, start) && start <= end
    requires At(Ios(h), start, |Ios(h)|) <= end
    requires Figures(h, start, end, timeSeconds, readings, s, samples, cuts, tput) && s.latency.Some?
    requires 99 * |samples| < USIZE && 99 * |tput| < USIZE
    ensures var l := s.latency.value;
            && l.interval.count + l.warmupDiscarded == s.syscalls
            && l.interval.mean * l.interval.count <= end - start
            && l.throughput.count * 10_000_000 <= end - start
            && l.interval.min <= l.interval.p50 <= l.interval.p90 <= l.interval.p99 <= l.interval.p100
            && l.throughput.min <= l.throughput.p50 <= l.throughput.p90 <= l.throughput.p99 <= l.throughput.p100
  {
    hide Latency, Windows, Rates, Ios, Bytes, IsMedian, Deltas;
    var l := s.latency.value;
    TimelyIsOrdered(h, start);
    if samples == [] {
      KeptAreCounted(Ios(h), start, Warmup(timeSeconds), l.baseline, l.warmupDiscarded, samples);
    } else {
      MeanWithinElapsed(Ios(h), start, Warmup(timeSeconds), l.baseline, l.warmupDiscarded, samples, l.interval, end);
      Stats.DistIsOrdered(samples, l.interval);
    }
    WindowTotals(Ios(h), start, cuts, tput, end);
    if tput != [] { Stats.DistIsOrdered(tput, l.throughput); }
  }

  // A test of more than two seconds discards exactly what completes in its first second, a shorter
  // one nothing.
  lemma WarmupIsFirstSecond(h: seq<Event>, start: nat, end: nat, timeSeconds: nat, readings: seq<nat>,
                            s: Stats.StreamStats, samples: seq<nat>, cuts: seq<nat>, tput: seq<nat>, i: nat)
    requires |readings| == 257 && Rising(readings) && Timely(h, start) && start <= end
    requires Figures(h, start, end, timeSeconds, readings, s, samples, cuts, tput) && s.latency.Some?
    requires i < |Ios(h)|
    ensures i < s.latency.value.warmupDiscarded <==> timeSeconds > 2 && Ios(h)[i].at < start + 1_000_000_000
    ensures s.latency.value.warmupDiscarded + |samples| == s.syscalls
  {
    hide Windows, Rates, IsMedian, Deltas;
    TimelyIsOrdered(h, start);
    assert At(Ios(h), start, 0) <= At(Ios(h), start, i + 1);
  }
}
