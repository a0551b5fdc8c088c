/**
  When a test completes. With one to five streams every run can be continued to completion without
  anything more going wrong, and if nothing went wrong before, every result arrives.
 */
module ProtocolCompletion {
  import opened Protocol
  import opened ProtocolInvariant
  import opened ControllerSafety
  import opened ProtocolSafety
  import opened ProtocolProgress
  import opened ProtocolTheorems
  import opened WorkerSafety
  import opened Ids

  // ------------------------------------------------------------- how long a run can be

  function Steps(r: Run): nat {
    match r
    case Begin => 0
    case Extend(p, step) => Steps(p) + if step.Write? then 0 else 1
  }

  function Written(r: Run): nat {
    match r
    case Begin => 0
    case Extend(p, step) => Written(p) + if step.Write? then step.n else 0
  }

  lemma {:induction false} MeasureAlongRun(cfg: Config, r: Run)
    requires Total(cfg) >= 1 && IsRun(cfg, r)
    ensures Measure(cfg, Last(cfg, r)) + Steps(r) <= 26 * Total(cfg) + 24 + Written(r)
  {
    match r
    case Begin =>
    case Extend(p, step) =>
      hide Measure, Inv, Enabled, Next;
      MeasureAlongRun(cfg, p);
      EveryRunIsSafe(cfg, p);
      StepMeasure(cfg, Last(cfg, p), step);
  }

  // Termination: however the components interleave, a run has at most 26 * total + 24 steps
  // that are not writes, and one more for every byte written.
  lemma RunsAreBounded(cfg: Config, r: Run)
    requires Total(cfg) >= 1 && IsRun(cfg, r)
    ensures Steps(r) <= 26 * Total(cfg) + 24 + Written(r)
  {
    hide Measure, Inv;
    MeasureAlongRun(cfg, r);
    EveryRunIsSafe(cfg, r);
    MeasureNat(cfg, Last(cfg, r));
  }

  // ---------------------------------------------------------------- one to five streams

  predicate Continues(r: Run, q: Run) {
    r == q || (q.Extend? && Continues(r, q.prefix))
  }

  // The same, and nothing more goes wrong.
  predicate Calmly(r: Run, q: Run) {
    r == q || (q.Extend? && !Fault(q.step) && Calmly(r, q.prefix))
  }

  lemma {:induction false} CalmContinues(r: Run, q: Run)
    requires Calmly(r, q)
    ensures Continues(r, q) && (Smooth(r) ==> Smooth(q))
  {
    if r != q { CalmContinues(r, q.prefix); }
  }

  // A run that can only go on by writing, or by a fault, is complete.
  lemma StuckOnlyWhenComplete(cfg: Config, r: Run)
    requires 1 <= Total(cfg) <= INTERNAL_PROT_BUFFER && IsRun(cfg, r)
    requires forall step: Step :: Enabled(cfg, Last(cfg, r), step) ==> step.Write? || Fault(step)
    ensures Complete(Last(cfg, r))
  {
    hide Inv, Enabled, Next, Last, IsRun;
    EveryRunIsSafe(cfg, r);
    if !Complete(Last(cfg, r)) {
      var step := SomeStep(cfg, Last(cfg, r));
    }
  }

  ghost predicate CanComplete(cfg: Config, r: Run) {
    exists q :: Continues(r, q) && IsRun(cfg, q) && Complete(Last(cfg, q))
  }

  // From wherever it is, the test can be run to its end, and nothing more need go wrong for it.
  lemma {:induction false} RunsComplete(cfg: Config, r: Run) returns (q: Run)
    requires 1 <= Total(cfg) <= INTERNAL_PROT_BUFFER && IsRun(cfg, r)
    ensures Calmly(r, q) && IsRun(cfg, q) && Complete(Last(cfg, q))
    decreases Measure(cfg, Last(cfg, r))
  {
    hide Inv, Enabled, Next, Measure;
    EveryRunIsSafe(cfg, r);
    if Complete(Last(cfg, r)) {
      q := r;
    } else {
      MeasureNat(cfg, Last(cfg, r));
      var step := SomeStep(cfg, Last(cfg, r));
      StepMeasure(cfg, Last(cfg, r), step);
      var r' := Extend(r, step);
      EveryRunIsSafe(cfg, r');
      MeasureNat(cfg, Last(cfg, r'));
      q := RunsComplete(cfg, r');
      CalmTransitive(r, r', q);
    }
  }

  lemma {:induction false} CalmTransitive(r: Run, p: Run, q: Run)
    requires Calmly(r, p) && Calmly(p, q)
    ensures Calmly(r, q)
  {
    if p != q { CalmTransitive(r, p, q.prefix); }
  }

  // ------------------------------------------------------------- runs without a fault

  ghost predicate Unharmed(failed: set<nat>, timedOut: set<nat>, workers: seq<Worker>) {
    && failed == {} && timedOut == {}
    && forall t | 0 <= t < |workers| :: workers[t].pc.Done? ==> workers[t].pc.outcome.Ok?
  }

  // No worker has failed, and none was given up.
  ghost predicate Clean(n: Node) {
    Unharmed(n.failed, n.timedOut, n.workers)
  }

  // Controller steps: a join records what its worker returned.
  lemma CleanJoins(n: Node, id: nat)
    requires Clean(n)
    ensures forall m: WorkerMessage :: Clean(Broadcast(n, m))
    ensures Clean(HeadOf(n))
    ensures CanJoin(n) ==> Clean(Joined(n, n.pc.id, n.workers[n.pc.task].pc.outcome))
    ensures CanCollectJoin(n, id) ==> Clean(DoCollectJoin(n, id))
  {
  }

  lemma CleanRegisters(cfg: Config, n: Node, conn: nat)
    requires Clean(n)
    ensures n.queue != [] ==> Clean(Register(cfg, n.(queue := n.queue[1..]), conn))
    ensures Clean(Register(cfg, n, conn))
  {
  }

  lemma TaskExists(cfg: Config, s: World, step: Step)
    requires Enabled(cfg, s, step) && ByWorker(step)
    ensures HasTask(s, step.role, step.t)
  {
    hide ControllerCan, ControllerNext, Source, Attached;
  }

  // A worker step changes workers, queue and connections.
  ghost predicate TaskOnly(s: World, s': World, role: Role) {
    OnlyNode(s, s', role) && SameControl(NodeOf(s, role), NodeOf(s', role))
  }

  lemma MovesTaskOnly(cfg: Config, s: World, role: Role, t: nat, n: nat)
    ensures CanStart(s, role, t) ==> TaskOnly(s, DoStart(s, role, t), role)
    ensures CanWrite(cfg, s, role, t, n) ==> TaskOnly(s, DoWrite(cfg, s, role, t, n), role)
    ensures CanRead(cfg, s, role, t, n) ==> TaskOnly(s, DoRead(cfg, s, role, t, n), role)
    ensures CanDrainRead(cfg, s, role, t, n) ==> TaskOnly(s, DoDrainRead(cfg, s, role, t, n), role)
  {
  }

  lemma ReturnsTaskOnly(s: World, role: Role, t: nat, outcome: Outcome)
    requires HasTask(s, role, t)
    ensures TaskOnly(s, Return(s, role, t, outcome), role) && TaskOnly(s, LeaveLoop(s, role, t), role)
  {
  }

  lemma WorkerStepShape(cfg: Config, s: World, step: Step)
    requires Enabled(cfg, s, step) && ByWorker(step)
    ensures TaskOnly(s, Next(cfg, s, step), step.role)
  {
    hide ControllerCan, ControllerNext, Attached, Source, DoStart, DoWrite, DoRead, DoDrainRead, LeaveLoop, Return,
         CanStart, CanWrite, CanRead, CanDrainRead, HasTask, TaskOnly;
    MovesTaskOnly(cfg, s, step.role, step.t, if step.Write? || step.Read? || step.DrainRead? then step.n else 0);
    if !step.Start? && !step.Write? && !step.Read? && !step.DrainRead? {
      TaskExists(cfg, s, step);
      ReturnsTaskOnly(s, step.role, step.t,
                      if step.DrainEof? then Ok(StatsOf(TaskOf(s, step.role, step.t))) else Failed);
    }
  }

  lemma CleanController(cfg: Config, s: World, step: Step)
    requires Enabled(cfg, s, step) && !Fault(step) && !ByWorker(step)
    requires Clean(s.server) && Clean(s.client)
    ensures Clean(Next(cfg, s, step).server) && Clean(Next(cfg, s, step).client)
  {
    hide WorkerCan, WorkerNext, HeadOf, Register, Broadcast, DoCollectJoin, Joined, Unharmed;
    CleanJoins(s.server, if step.CollectJoin? then step.id else 0);
    CleanJoins(s.client, if step.CollectJoin? then step.id else 0);
    if step.RecvInternal? {
      var m := NodeOf(s, step.role).queue[0];
      if m.CreateStream? { CleanRegisters(cfg, NodeOf(s, step.role), m.conn); }
    }
    if step.RecvWelcome? { CleanRegisters(cfg, s.client, s.client.pc.conn); }
  }

  // One worker changes, and perhaps the queue.
  lemma CleanTouched(n: Node, m: Node, t: nat)
    requires Clean(n) && t < |n.workers| == |m.workers|
    requires m == n.(workers := n.workers[t := m.workers[t]], queue := m.queue, lost := m.lost)
    requires m.workers[t].pc.Done? ==> m.workers[t].pc.outcome.Ok?
    ensures Clean(m)
  {
  }

  lemma CleanWorker(cfg: Config, s: World, step: Step)
    requires Enabled(cfg, s, step) && ByWorker(step) && !Fault(step) && !step.Bail?
    requires Clean(s.server) && Clean(s.client)
    ensures Clean(Next(cfg, s, step).server) && Clean(Next(cfg, s, step).client)
  {
    hide ControllerCan, ControllerNext, Attached, Source, Clean;
    CleanTouched(NodeOf(s, step.role), NodeOf(Next(cfg, s, step), step.role), step.t);
  }

  lemma CleanStep(cfg: Config, s: World, step: Step)
    requires Enabled(cfg, s, step) && !Fault(step) && !step.Bail?
    requires Clean(s.server) && Clean(s.client)
    ensures Clean(Next(cfg, s, step).server) && Clean(Next(cfg, s, step).client)
  {
    hide Enabled, Next, Clean;
    if ByWorker(step) { CleanWorker(cfg, s, step); } else { CleanController(cfg, s, step); }
  }

  lemma {:induction false} SmoothIsClean(cfg: Config, r: Run)
    requires Total(cfg) >= 1 && IsRun(cfg, r) && Smooth(r)
    ensures Clean(Last(cfg, r).server) && Clean(Last(cfg, r).client)
  {
    hide Inv, Enabled, Next;
    if r.Extend? {
      SmoothIsClean(cfg, r.prefix);
      EveryRunIsSafe(cfg, r.prefix);
      NoBail(cfg, Last(cfg, r.prefix), r.step);
      CleanStep(cfg, Last(cfg, r.prefix), r.step);
    }
  }

  lemma NoBail(cfg: Config, s: World, step: Step)
    requires Inv(cfg, s) && Enabled(cfg, s, step)
    ensures !step.Bail?
  {
    hide Inv, CanBail;
    if step.Bail? { NeverBails(cfg, s, step.role, step.t); }
  }

  // Both sides are done, and each has every stream's result from both ends.
  ghost predicate Delivered(cfg: Config, s: World) {
    && Complete(s)
    && s.server.results.Keys == s.client.results.Keys == Below(Total(cfg))
    && s.client.pc.remote == s.server.results && s.server.pc.remote == s.client.results
    && forall k: nat :: k < Total(cfg) ==> FinishedStream(s, k)
  }

  // A completed run in which nothing went wrong has delivered every result.
  lemma SmoothDelivers(cfg: Config, r: Run)
    requires Total(cfg) >= 1 && IsRun(cfg, r) && Smooth(r) && Complete(Last(cfg, r))
    ensures Delivered(cfg, Last(cfg, r))
  {
    hide Last, IsRun, FinishedStream;
    FinishedRun(cfg, r);
    SmoothIsClean(cfg, r);
  }

  ghost predicate CanDeliver(cfg: Config, r: Run) {
    exists q :: Calmly(r, q) && IsRun(cfg, q) && Delivered(cfg, Last(cfg, q))
  }

  // With one to five streams every result arrives, if nothing goes wrong.
  lemma EveryResultArrives(cfg: Config, r: Run)
    requires 1 <= Total(cfg) <= INTERNAL_PROT_BUFFER && IsRun(cfg, r) && Smooth(r)
    ensures CanDeliver(cfg, r)
  {
    hide Last, IsRun, Delivered;
    var q := RunsComplete(cfg, r);
    CalmContinues(r, q);
    SmoothDelivers(cfg, q);
  }

  // ------------------------------------------------------------------ no stream at all

  // With no stream needed the server waits for one for ever: neither side gets past
  // CreateStreams.
  ghost predicate Barren(s: World) {
    && s.conns == [] && s.accepted == 0 && s.accept.Idle?
    && s.server.queue == [] && s.server.workers == [] && s.client.workers == []
    && s.client.queue == [] && s.client.streams == map[] && s.server.role.Server?
    && (s.server.state.TestStart? || s.server.state.CreateStreams?)
    && (s.client.state.TestStart? || s.client.state.CreateStreams?)
    && (s.server.pc.Top? || s.server.pc.Recv?)
    && (s.client.pc.Top? || s.client.pc.Recv? || s.client.pc.Creating?)
    && (forall i | 0 <= i < |s.toClient| :: s.toClient[i] == SetState(CreateStreams))
  }

  lemma BarrenChoices(cfg: Config, s: World, step: Step)
    requires Total(cfg) == 0 && Barren(s) && Enabled(cfg, s, step)
    ensures step.Head? || step.RecvServer? || step.FinishCreating?
  {
    hide Source, Attached;
  }

  lemma BarrenStep(cfg: Config, s: World, step: Step)
    requires Total(cfg) == 0 && Barren(s) && Enabled(cfg, s, step)
    ensures Barren(Next(cfg, s, step))
  {
    hide Broadcast, CanCollectJoin, CanCollectTimeout, CanCollectDone, CanJoin, CanBail, CanStart, CanWrite, CanRead,
         CanDrainRead, CanDrainEof, CanEof, CanFail, Register, ReceiveInternal, DoJoin, DoCollectJoin, DoCollectTimeout,
         DoCollectDone, DoReadResults, Return, LeaveLoop, DoWrite, DoRead, DoDrainRead, DoStart;
    BarrenChoices(cfg, s, step);
  }

  lemma {:induction false} NoStreamsNoEnd(cfg: Config, r: Run)
    requires Total(cfg) == 0 && IsRun(cfg, r)
    ensures Barren(Last(cfg, r)) && !Complete(Last(cfg, r))
  {
    hide Enabled, Next;
    if r.Extend? {
      NoStreamsNoEnd(cfg, r.prefix);
      BarrenStep(cfg, Last(cfg, r.prefix), r.step);
    }
  }
}
