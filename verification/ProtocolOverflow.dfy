/**
  Six or more streams: the queue of five is too small. There is a run in which the accept loop
  cannot hand a connection over and the server goes down, and one in which a notification is
  dropped and the server waits for ever; nothing goes wrong in them before, and neither can be
  continued to completion.
 */
module ProtocolOverflow {
  import opened Protocol
  import opened ProtocolInvariant
  import opened NodeSafety
  import opened ControllerSafety
  import opened ExchangeSafety
  import opened WorkerSafety
  import opened ProtocolSafety
  import opened ProtocolProgress
  import opened ProtocolCompletion
  import opened ProtocolRuns
  import opened Ids

  // ----------------------------------------------------------- the server goes down

  // No server step is left, and no client step touches the server.
  lemma DownStays(cfg: Config, s: World, step: Step)
    requires s.accept.Down? && Enabled(cfg, s, step)
    ensures Next(cfg, s, step).accept.Down? && Next(cfg, s, step).server == s.server
  {
    hide WorkerCan, WorkerNext, Register, HeadOf;
    if ByWorker(step) { WorkerStepShape(cfg, s, step); }
  }

  lemma {:induction false} DownNeverCompletes(cfg: Config, r: Run, q: Run)
    requires Total(cfg) >= 1 && IsRun(cfg, r) && Last(cfg, r).accept.Down?
    requires IsRun(cfg, q) && Continues(r, q)
    ensures Last(cfg, q).accept.Down? && !Complete(Last(cfg, q))
  {
    hide NodeOk, ChannelOk, PipesOk, Enabled, Next;
    EveryRunIsSafe(cfg, q);
    if q != r {
      DownNeverCompletes(cfg, r, q.prefix);
      DownStays(cfg, Last(cfg, q.prefix), q.step);
    }
    NotFinishedBefore(cfg, Last(cfg, q));
  }

  lemma NotFinishedBefore(cfg: Config, s: World)
    requires Inv(cfg, s) && !s.server.state.ExchangeResults?
    ensures !s.server.pc.Finished?
  {
    hide WorkersOk, NothingLost, PhaseOk, HandshakeOk, ChannelOk, PipesOk;
  }

  // ------------------------------------------------ when the controller gets its turn

  predicate Gathering(s: World) {
    s.server.state.TestStart? || s.server.state.CreateStreams?
  }

  // Until the load is on only the hand-over and the controller itself touch the server's queue.
  lemma QueueStep(cfg: Config, s: World, step: Step)
    requires Inv(cfg, s) && Enabled(cfg, s, step) && Gathering(Next(cfg, s, step))
    ensures Gathering(s)
    ensures |Next(cfg, s, step).server.queue| ==
              if step.Enqueue? && |s.server.queue| < INTERNAL_PROT_BUFFER then |s.server.queue| + 1
              else if step == RecvInternal(Server) then |s.server.queue| - 1
              else |s.server.queue|
  {
    hide Inv, NodeOk, HandshakeOk, ChannelOk, PipesOk, WorkerCan, WorkerNext, Broadcast, TotalNeededStreams, IsSending,
         CanCollectJoin, CanCollectTimeout, CanCollectDone, CanReadResults, CanRecvServer, CanConnect, CanRecvWelcome,
         CanRecvRefusal, CanFinishCreating, CanAccept, CanWelcome;
    Parts(cfg, s);
    BroadcastOnlyWorkers(s.server.(iters := s.server.iters + 1), StartLoad);
    BroadcastOnlyWorkers(s.server.(iters := s.server.iters + 1), Terminate);
    if ByWorker(step) { WorkersKeepQueue(cfg, s, step); }
  }

  lemma WorkersKeepQueue(cfg: Config, s: World, step: Step)
    requires Inv(cfg, s) && Enabled(cfg, s, step) && ByWorker(step)
    ensures Next(cfg, s, step).server.state == s.server.state
    ensures Gathering(s) ==> Next(cfg, s, step).server.queue == s.server.queue
  {
    hide Inv, NodeOk, HandshakeOk, ChannelOk, PipesOk, ControllerCan, ControllerNext, Source, Attached,
         Return, LeaveLoop;
    Parts(cfg, s);
    WorkerStepShape(cfg, s, step);
    NoBail(cfg, s, step);
    if Gathering(s) && step.role.Server? {
      TaskExists(cfg, s, step);
      StillWaiting(cfg, s.server, step.t);
    }
  }

  lemma StillWaiting(cfg: Config, n: Node, t: nat)
    requires NodeOk(cfg, n) && (n.state.TestStart? || n.state.CreateStreams?) && t < |n.workers|
    ensures n.workers[t].pc.WaitStart?
  {
    hide WorkersOk, PcOk, NothingLost;
  }

  lemma HandsOverEarly(cfg: Config, s: World)
    requires Inv(cfg, s) && s.accept.HandOff?
    ensures Gathering(s)
  {
    hide WorkersOk, NothingLost, PhaseOk, ChannelOk, PipesOk;
  }

  lemma OnlyHandOversEnd(cfg: Config, s: World, step: Step)
    requires Enabled(cfg, s, step) && !s.accept.Down? && Next(cfg, s, step).accept.Down?
    ensures step.Enqueue? && |s.server.queue| >= INTERNAL_PROT_BUFFER
  {
    hide WorkerCan, WorkerNext, Register, Broadcast;
    if ByWorker(step) { WorkerStepShape(cfg, s, step); }
  }

  // If the controller gets its turn between any two hand-overs, never more than one connection
  // waits in its queue, and the accept loop does not go down, however many streams are needed.
  lemma {:induction false} OrderlyLoopStaysUp(cfg: Config, r: Run)
    requires Total(cfg) >= 1 && IsRun(cfg, r) && Orderly(r)
    ensures !Last(cfg, r).accept.Down?
    ensures Gathering(Last(cfg, r)) ==> |Last(cfg, r).server.queue| <= if Rested(r) then 0 else 1
  {
    hide Inv, Enabled, Next;
    match r
    case Begin =>
    case Extend(p, step) =>
      OrderlyLoopStaysUp(cfg, p);
      EveryRunIsSafe(cfg, p);
      var s := Last(cfg, p);
      if Gathering(Last(cfg, r)) { QueueStep(cfg, s, step); }
      if Last(cfg, r).accept.Down? {
        OnlyHandOversEnd(cfg, s, step);
        HandsOverNow(cfg, s, step);
        HandsOverEarly(cfg, s);
      }
  }

  lemma HandsOverNow(cfg: Config, s: World, step: Step)
    requires Enabled(cfg, s, step) && step.Enqueue?
    ensures s.accept.HandOff?
  {
  }

  // ------------------------------------------------------- a notification is dropped

  // Stream `id` has returned, is still active, and nothing in the queue will say so.
  ghost predicate Orphan(n: Node, id: nat) {
    && n.state.Running? && n.prior.Running? && n.role.Server?
    && id in n.lost && id in n.streams && StreamTerminated(id) !in n.queue
  }

  lemma OrphanPopped(cfg: Config, s: World, id: nat)
    requires Inv(cfg, s) && Orphan(s.server, id) && CanRecvInternal(s, Server)
    ensures Orphan(ReceiveInternal(cfg, s, Server).server, id)
  {
    hide Inv, NodeOk, HandshakeOk, ChannelOk, PipesOk, UnderLoad;
    Parts(cfg, s);
    LoadMessages(cfg, s.server);
  }

  lemma OrphanReturned(cfg: Config, s: World, id: nat, t: nat)
    requires Inv(cfg, s) && Orphan(s.server, id)
    requires HasTask(s, Server, t) && !TaskOf(s, Server, t).pc.Done?
    ensures forall o: Outcome :: Orphan(Return(s, Server, t, o).server, id)
  {
    hide HandshakeOk, ChannelOk, PipesOk, Accounted, Notified, AllSent, HandlesOk;
    assert WorkerOk(cfg, Server, t, s.server.workers[t]);
  }

  lemma OrphanStays(cfg: Config, s: World, step: Step, id: nat)
    requires Inv(cfg, s) && Orphan(s.server, id) && Enabled(cfg, s, step)
    ensures Orphan(Next(cfg, s, step).server, id)
  {
    hide Inv, NodeOk, HandshakeOk, ChannelOk, PipesOk, Source, Attached;
    Parts(cfg, s);
    IdleUnderLoad(cfg, s);
    if step.RecvInternal? && step.role.Server? {
      OrphanPopped(cfg, s, id);
    } else if step.Process().Server? &&
              (step.Bail? || step.Eof? || step.Stop? || step.DrainEof? || step.Fail?) {
      OrphanReturned(cfg, s, id, step.t);
    } else {
      OrphanFrame(cfg, s, step, id);
    }
  }

  lemma IdleUnderLoad(cfg: Config, s: World)
    requires Inv(cfg, s) && s.server.state.Running?
    ensures s.accept.Idle? && !s.server.pc.Collecting?
  {
    hide WorkersOk, NothingLost, PhaseOk, ChannelOk, PipesOk;
  }

  lemma OrphanWorkers(cfg: Config, s: World, step: Step, id: nat)
    requires Orphan(s.server, id) && Enabled(cfg, s, step) && ByWorker(step)
    requires step.role.Server? ==> step.Start? || step.Write? || step.Read? || step.DrainRead?
    ensures Orphan(Next(cfg, s, step).server, id)
  {
    hide ControllerCan, ControllerNext, Source, Attached, Orphan;
    if step.role.Client? {
      WorkerStepShape(cfg, s, step);
    } else {
      OrphanIgnoresWorkers(s.server, Next(cfg, s, step).server.workers, id);
    }
  }

  lemma OrphanIgnoresWorkers(n: Node, workers: seq<Worker>, id: nat)
    requires Orphan(n, id)
    ensures Orphan(n.(workers := workers), id)
  {
  }

  lemma OrphanFrame(cfg: Config, s: World, step: Step, id: nat)
    requires Orphan(s.server, id) && Enabled(cfg, s, step)
    requires s.accept.Idle? && !s.server.pc.Collecting?
    requires !(step.RecvInternal? && step.role.Server?)
    requires step.Process().Server? ==>
               !step.Bail? && !step.Eof? && !step.Stop? && !step.DrainEof? && !step.Fail?
    ensures Orphan(Next(cfg, s, step).server, id)
  {
    hide WorkerCan, WorkerNext, Register, Broadcast;
    if ByWorker(step) { OrphanWorkers(cfg, s, step, id); }
  }

  lemma {:induction false} OrphanNeverCompletes(cfg: Config, r: Run, q: Run, id: nat)
    requires Total(cfg) >= 1 && IsRun(cfg, r) && Orphan(Last(cfg, r).server, id)
    requires IsRun(cfg, q) && Continues(r, q)
    ensures Orphan(Last(cfg, q).server, id) && !Complete(Last(cfg, q))
  {
    hide Inv, Enabled, Next;
    EveryRunIsSafe(cfg, q);
    if q != r {
      OrphanNeverCompletes(cfg, r, q.prefix, id);
      EveryRunIsSafe(cfg, q.prefix);
      OrphanStays(cfg, Last(cfg, q.prefix), q.step, id);
    }
    NotFinishedBefore(cfg, Last(cfg, q));
  }

  // ---------------------------------------------------------------- the runs themselves

  // The sixth connection finds five in the queue: try_send fails and run_server returns.
  lemma AcceptLoopGoesDown(cfg: Config) returns (r: Run)
    requires Total(cfg) > INTERNAL_PROT_BUFFER
    ensures Trace(cfg, r) && Last(cfg, r).accept.Down?
  {
    hide Last, IsRun, Smooth, Orderly, Rested;
    r := Prelude(cfg);
    for k := 0 to INTERNAL_PROT_BUFFER
      invariant Trace(cfg, r) && SetUp(Last(cfg, r), k, k)
    {
      r := SetUpOne(cfg, r, k, k);
    }
    r := DialUp(cfg, r, INTERNAL_PROT_BUFFER, INTERNAL_PROT_BUFFER);
    r := GoOn(cfg, r, Enqueue);
  }

  // The first `j` workers have returned, unnoticed by the controller.
  ghost predicate Unnoticed(n: Node, j: nat) {
    && j <= INTERNAL_PROT_BUFFER && |n.queue| == j && n.lost == {}
    && forall i | 0 <= i < j :: n.queue[i] == StreamTerminated(i)
  }

  // One more notification is queued if there is room, and dropped if there is not.
  lemma OneMoreReturns(cfg: Config, n: Node, j: nat)
    requires Ready(cfg, n, j) && j < Total(cfg) && Unnoticed(n, j) && n.role.Server? && n.workers[j].id == j
    ensures j < INTERNAL_PROT_BUFFER ==> Unnoticed(Back(n, j), j + 1)
    ensures j == INTERNAL_PROT_BUFFER ==> Orphan(Back(n, j), j)
  {
  }

  lemma OwnId(cfg: Config, r: Run, j: nat)
    requires Total(cfg) >= 1 && Trace(cfg, r) && Ready(cfg, Last(cfg, r).server, j) && j < Total(cfg)
    ensures Last(cfg, r).server.workers[j].id == j
  {
    hide Last, IsRun, Smooth, Orderly, Rested, IsSending;
    Startable(cfg, r, Server, j);
  }

  // Six workers end, all without a fault, before the controller looks at its queue: the sixth
  // notification is lost.
  lemma NotificationIsDropped(cfg: Config) returns (r: Run)
    requires Total(cfg) > INTERNAL_PROT_BUFFER
    ensures Trace(cfg, r) && Orderly(r) && Orphan(Last(cfg, r).server, INTERNAL_PROT_BUFFER)
  {
    hide Last, IsRun, Smooth, Orderly, Rested, Ready, Orphan, Back, Unnoticed;
    r := BothLoaded(cfg);
    NoneNoticed(Last(cfg, r).server);
    for j := 0 to INTERNAL_PROT_BUFFER + 1
      invariant Trace(cfg, r) && Orderly(r) && BothReady(cfg, Last(cfg, r), j)
      invariant j <= INTERNAL_PROT_BUFFER ==> Unnoticed(Last(cfg, r).server, j)
      invariant j > INTERNAL_PROT_BUFFER ==> Orphan(Last(cfg, r).server, INTERNAL_PROT_BUFFER)
    {
      OwnId(cfg, r, j);
      OneMoreReturns(cfg, Last(cfg, r).server, j);
      r := StreamReturns(cfg, r, j);
    }
  }

  lemma NoneNoticed(n: Node)
    requires n.queue == [] && n.lost == {}
    ensures Unnoticed(n, 0)
  {
  }

  // --------------------------------------------------------------------- the exact bound

  // A run in which nothing has gone wrong and from which the test can no longer be completed.
  ghost predicate DeadEnd(cfg: Config, r: Run) {
    Trace(cfg, r) && !CanComplete(cfg, r)
  }

  lemma SixIsTooMany(cfg: Config)
    requires Total(cfg) > INTERNAL_PROT_BUFFER
    ensures exists r :: DeadEnd(cfg, r) && Last(cfg, r).accept.Down?
    ensures exists r :: DeadEnd(cfg, r) && Orderly(r) && INTERNAL_PROT_BUFFER in Last(cfg, r).server.lost
  {
    hide Last, IsRun, Smooth, Orderly, Rested;
    var r := AcceptLoopGoesDown(cfg);
    forall q | Continues(r, q) && IsRun(cfg, q) ensures !Complete(Last(cfg, q)) {
      DownNeverCompletes(cfg, r, q);
    }
    assert DeadEnd(cfg, r);
    var p := NotificationIsDropped(cfg);
    forall q | Continues(p, q) && IsRun(cfg, q) ensures !Complete(Last(cfg, q)) {
      OrphanNeverCompletes(cfg, p, q, INTERNAL_PROT_BUFFER);
    }
    assert DeadEnd(cfg, p);
  }

  lemma DeliveryCompletes(cfg: Config, r: Run)
    requires CanDeliver(cfg, r)
    ensures CanComplete(cfg, r)
  {
    hide Last, IsRun;
    var q :| Calmly(r, q) && IsRun(cfg, q) && Delivered(cfg, Last(cfg, q));
    CalmContinues(r, q);
  }

  // Every run of a configuration can be completed, and every run without a fault, with or without
  // orderly hand-overs, can deliver all results, exactly when it needs one to five streams.
  lemma CompletesExactlyUpToFive(cfg: Config)
    ensures (forall r | IsRun(cfg, r) :: CanComplete(cfg, r)) <==> 1 <= Total(cfg) <= 5
    ensures (forall r | Trace(cfg, r) :: CanDeliver(cfg, r)) <==> 1 <= Total(cfg) <= 5
    ensures (forall r | Trace(cfg, r) && Orderly(r) :: CanDeliver(cfg, r)) <==> 1 <= Total(cfg) <= 5
  {
    hide Last, CanComplete, CanDeliver;
    if Total(cfg) > INTERNAL_PROT_BUFFER {
      SixIsTooMany(cfg);
      var r :| DeadEnd(cfg, r) && Orderly(r) && INTERNAL_PROT_BUFFER in Last(cfg, r).server.lost;
      if CanDeliver(cfg, r) { DeliveryCompletes(cfg, r); }
    } else if Total(cfg) == 0 {
      assert Trace(cfg, Begin) && Orderly(Begin);
      NeverAnyEnd(cfg);
      if CanDeliver(cfg, Begin) { DeliveryCompletes(cfg, Begin); }
    } else {
      forall r | IsRun(cfg, r) ensures CanComplete(cfg, r) { CanRunOut(cfg, r); }
      forall r | Trace(cfg, r) ensures CanDeliver(cfg, r) { EveryResultArrives(cfg, r); }
    }
  }

  lemma CanRunOut(cfg: Config, r: Run)
    requires 1 <= Total(cfg) <= INTERNAL_PROT_BUFFER && IsRun(cfg, r)
    ensures CanComplete(cfg, r)
  {
    hide Last, IsRun;
    var q := RunsComplete(cfg, r);
    CalmContinues(r, q);
  }

  lemma NeverAnyEnd(cfg: Config)
    requires Total(cfg) == 0
    ensures !CanComplete(cfg, Begin)
  {
    hide Last, IsRun;
    forall q | IsRun(cfg, q) ensures !Complete(Last(cfg, q)) { NoStreamsNoEnd(cfg, q); }
  }
}
