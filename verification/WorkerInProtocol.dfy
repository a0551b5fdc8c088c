/**
  The worker of the transition system and the worker that keeps books are the same worker: the
  bytes one has moved are those the other's history adds up to. So the interval reports of the two
  ends of a stream meet in the conservation of bytes over every run.
 */
module WorkerInProtocol {
  import opened Protocol
  import opened ProtocolCompletion
  import opened ProtocolInvariant
  import opened ProtocolTheorems
  import Completions
  import Stats
  import StreamWorker

  function AddUp(counts: seq<nat>): nat {
    if counts == [] then 0 else AddUp(counts[..|counts| - 1]) + counts[|counts| - 1]
  }

  // Whether the step is a read or write of task `t` of side `role`.
  predicate IsMove(step: Step, role: Role, t: nat) {
    (step.Write? || step.Read?) && step.role == role && step.t == t
  }

  // The sizes of the reads and writes a run lets task `t` complete.
  function Transfers(r: Run, role: Role, t: nat): seq<nat> {
    match r
    case Begin => []
    case Extend(p, step) => Transfers(p, role, t) + if IsMove(step, role, t) then [step.n] else []
  }

  function BytesMoved(workers: seq<Worker>, t: nat): nat {
    if t < |workers| then workers[t].bytes else 0
  }

  ghost predicate SameBytes(ws: seq<Worker>, vs: seq<Worker>) {
    forall t: nat :: BytesMoved(vs, t) == BytesMoved(ws, t)
  }

  lemma ControllerBytes(cfg: Config, n: Node, conn: nat, id: nat)
    ensures SameBytes(n.workers, HeadOf(n).workers) && SameBytes(n.workers, Register(cfg, n, conn).workers)
    ensures n.queue != [] ==> SameBytes(n.workers, Register(cfg, n.(queue := n.queue[1..]), conn).workers)
    ensures CanCollectJoin(n, id) ==> DoCollectJoin(n, id).workers == n.workers
  {
  }

  lemma ControllersMoveNothing(cfg: Config, s: World, step: Step)
    requires Enabled(cfg, s, step) && !ByWorker(step)
    ensures SameBytes(s.server.workers, Next(cfg, s, step).server.workers)
    ensures SameBytes(s.client.workers, Next(cfg, s, step).client.workers)
  {
    hide WorkerCan, WorkerNext, HeadOf, Register, Broadcast, DoCollectJoin, BytesMoved;
    var id := if step.CollectJoin? then step.id else 0;
    var conn := if step.RecvInternal? && NodeOf(s, step.role).queue[0].CreateStream?
                then NodeOf(s, step.role).queue[0].conn
                else if step.RecvWelcome? then s.client.pc.conn else 0;
    ControllerBytes(cfg, s.server, conn, id);
    ControllerBytes(cfg, s.client, conn, id);
  }

  // What a worker step leaves: the bytes of its own task, raised by n, and those of all others.
  ghost predicate Raised(s: World, s': World, role: Role, t: nat, n: nat) {
    && NodeOf(s', Other(role)) == NodeOf(s, Other(role))
    && forall u: nat ::
         BytesMoved(NodeOf(s', role).workers, u) == BytesMoved(NodeOf(s, role).workers, u) + if u == t then n else 0
  }

  lemma MovesRaise(cfg: Config, s: World, role: Role, t: nat, n: nat)
    ensures CanStart(s, role, t) ==> Raised(s, DoStart(s, role, t), role, t, 0)
    ensures CanWrite(cfg, s, role, t, n) ==> Raised(s, DoWrite(cfg, s, role, t, n), role, t, n)
    ensures CanRead(cfg, s, role, t, n) ==> Raised(s, DoRead(cfg, s, role, t, n), role, t, n)
    ensures CanDrainRead(cfg, s, role, t, n) ==> Raised(s, DoDrainRead(cfg, s, role, t, n), role, t, 0)
  {
  }

  lemma ReturnsRaiseNothing(s: World, role: Role, t: nat, outcome: Outcome)
    requires HasTask(s, role, t)
    ensures Raised(s, Return(s, role, t, outcome), role, t, 0) && Raised(s, LeaveLoop(s, role, t), role, t, 0)
  {
  }

  lemma WorkersMove(cfg: Config, s: World, step: Step)
    requires Enabled(cfg, s, step) && ByWorker(step)
    ensures Raised(s, Next(cfg, s, step), step.role, step.t, if step.Write? || step.Read? then step.n else 0)
  {
    hide ControllerCan, ControllerNext, Attached, Source, DoStart, DoWrite, DoRead, DoDrainRead, LeaveLoop, Return,
         CanStart, CanWrite, CanRead,
         CanDrainRead, HasTask, Raised;
    MovesRaise(cfg, s, step.role, step.t, if step.Write? || step.Read? || step.DrainRead? then step.n else 0);
    if !step.Start? && !step.Write? && !step.Read? && !step.DrainRead? {
      TaskExists(cfg, s, step);
      ReturnsRaiseNothing(s, step.role, step.t,
                          if step.DrainEof? then Ok(StatsOf(TaskOf(s, step.role, step.t))) else Failed);
    }
  }

  lemma StepBytes(cfg: Config, s: World, step: Step, role: Role, t: nat)
    requires Enabled(cfg, s, step)
    ensures BytesMoved(NodeOf(Next(cfg, s, step), role).workers, t) ==
            BytesMoved(NodeOf(s, role).workers, t) + if IsMove(step, role, t) then step.n else 0
  {
    hide Enabled, Next, BytesMoved;
    if ByWorker(step) {
      WorkersMove(cfg, s, step);
    } else {
      ControllersMoveNothing(cfg, s, step);
    }
  }

  // In every run a worker has moved what its reads and writes add up to.
  lemma {:induction false} BytesAreMoves(cfg: Config, r: Run, role: Role, t: nat)
    requires IsRun(cfg, r)
    ensures BytesMoved(NodeOf(Last(cfg, r), role).workers, t) == AddUp(Transfers(r, role, t))
  {
    hide Enabled, Next;
    match r
    case Begin =>
    case Extend(p, step) =>
      BytesAreMoves(cfg, p, role, t);
      StepBytes(cfg, Last(cfg, p), step, role, t);
      var counts := Transfers(p, role, t);
      assert counts + [] == counts;
      if IsMove(step, role, t) { assert (counts + [step.n])[..|counts|] == counts; }
  }

  // ---------------------------------------------------------------- the worker's own books

  function Counts(ios: seq<Completions.Io>): seq<nat> {
    seq(|ios|, i requires 0 <= i < |ios| => ios[i].bytes)
  }

  // The events `h` a worker handled contain the reads and writes of task `t` in run `r`.
  ghost predicate Keeps(r: Run, role: Role, t: nat, h: seq<StreamWorker.Event>) {
    Counts(StreamWorker.Ios(h)) == Transfers(r, role, t)
  }

  lemma {:induction false} CountsAddUp(ios: seq<Completions.Io>)
    ensures AddUp(Counts(ios)) == Completions.Bytes(ios)
  {
    if ios != [] {
      var last := |ios| - 1;
      CountsAddUp(ios[..last]);
      assert Counts(ios)[..last] == Counts(ios[..last]);
    }
  }

  // The books agree with the transition system at every moment.
  lemma BooksAgree(cfg: Config, r: Run, role: Role, t: nat, h: seq<StreamWorker.Event>)
    requires IsRun(cfg, r) && Keeps(r, role, t, h)
    ensures Completions.Bytes(StreamWorker.Ios(h)) == BytesMoved(NodeOf(Last(cfg, r), role).workers, t)
  {
    hide Last, IsRun, Counts;
    BytesAreMoves(cfg, r, role, t);
    CountsAddUp(StreamWorker.Ios(h));
  }

  // What the reports of one end say, with what it has not reported yet.
  function Reported(h: seq<StreamWorker.Event>, start: nat): nat {
    StreamWorker.ReportedBytes(StreamWorker.Reports(h, start)) +
    Completions.Bytes(StreamWorker.Ios(StreamWorker.SinceTick(h)))
  }

  // What the sending end of stream k has reported, with its unreported tail, is what the receiving
  // end has reported, with its tail, and what it drained, and what is in flight.
  lemma ReportsMeet(cfg: Config, r: Run, writer: Role, k: nat,
                    hw: seq<StreamWorker.Event>, hr: seq<StreamWorker.Event>, sw: nat, sr: nat)
    requires Total(cfg) >= 1 && IsRun(cfg, r)
    requires k < |Last(cfg, r).server.workers| && k < |Last(cfg, r).client.workers|
    requires IsSending(cfg, writer, k)
    requires Keeps(r, writer, k, hw) && Keeps(r, Other(writer), k, hr)
    ensures var s := Last(cfg, r);
            k < |s.conns| &&
            Reported(hw, sw) == Reported(hr, sr) + NodeOf(s, Other(writer)).workers[k].drained
                                + PipeFrom(s.conns[k], writer).inflight
  {
    hide Last, IsRun, Keeps, IsSending;
    PairedStreams(cfg, r, k);
    ClientFits(cfg, r);
    RolesAreComplementary(cfg, k);
    BytesConserved(cfg, r, writer, k);
    BooksAgree(cfg, r, writer, k, hw);
    BooksAgree(cfg, r, Other(writer), k, hr);
    StreamWorker.ReportsAddUp(hw, sw);
    StreamWorker.ReportsAddUp(hr, sr);
  }

  // The byte count a controller stores for a stream is the one in its worker's own figures.
  lemma ResultsAreFigures(cfg: Config, r: Run, role: Role, id: nat, h: seq<StreamWorker.Event>,
                          start: nat, end: nat, timeSeconds: nat, readings: seq<nat>, f: Stats.StreamStats,
                          samples: seq<nat>, cuts: seq<nat>, tput: seq<nat>)
    requires Total(cfg) >= 1 && IsRun(cfg, r) && id < Total(cfg)
    requires id in NodeOf(Last(cfg, r), role).results
    requires var n := NodeOf(Last(cfg, r), role); n.state.Running? || n.state.ExchangeResults?
    requires |readings| == 257 && StreamWorker.Rising(readings) && start <= end
    requires StreamWorker.Figures(h, start, end, timeSeconds, readings, f, samples, cuts, tput)
    requires Keeps(r, role, id, h)
    ensures NodeOf(Last(cfg, r), role).results[id].bytes == f.bytesTransferred
  {
    hide Last, IsRun, Keeps;
    EveryStreamAccountedFor(cfg, r, role, id);
    BooksAgree(cfg, r, role, id, h);
  }
}
