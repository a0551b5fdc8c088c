/** The invariant holds in every reachable state. */
module ProtocolSafety {
  import opened Protocol
  import opened ProtocolInvariant
  import opened WorkerSafety
  import opened ControllerSafety
  import opened ExchangeSafety

  lemma RecvInternalKeeps(cfg: Config, s: World, role: Role)
    requires Inv(cfg, s) && CanRecvInternal(s, role)
    ensures Inv(cfg, ReceiveInternal(cfg, s, role))
  {
    hide Inv, NodeOk, ReceiveInternal;
    if !NodeOf(s, role).state.CreateStreams? {
      PopKeeps(cfg, s, role);
    } else if role.Server? {
      AcceptStreamKeeps(cfg, s);
    } else {
      Parts(cfg, s);
      ClientQueueEmpty(cfg, s.client);
      assert false;
    }
  }

  lemma HeadKeeps(cfg: Config, s: World, role: Role)
    requires Total(cfg) >= 1 && Inv(cfg, s) && CanHead(s, role)
    ensures Inv(cfg, LoopHead(s, role))
  {
    hide Inv, LoopHead;
    if role.Server? && s.server.state.TestStart? {
      HeadServerStarts(cfg, s);
    } else {
      HeadStep(cfg, s, role);
    }
  }

  lemma StepKeeps(cfg: Config, s: World, step: Step)
    requires Total(cfg) >= 1 && Inv(cfg, s) && Enabled(cfg, s, step)
    ensures Inv(cfg, Next(cfg, s, step))
  {
    hide Inv, LoopHead, ReceiveInternal, DoJoin, DoCollectJoin, DoCollectTimeout, DoCollectDone,
         DoReadResults, DoRecvServer, DoConnect, DoSendHello, DoRecvWelcome, DoRecvRefusal,
         DoFinishCreating, DoAccept, DoWelcome, DoEnqueue, DoStart, Return, DoWrite, DoRead,
         LeaveLoop, DoDrainRead, CanHead, CanRecvInternal, CanJoin, CanCollectJoin,
         CanCollectTimeout, CanCollectDone, CanReadResults, CanRecvServer, CanConnect,
         CanRecvWelcome, CanRecvRefusal, CanFinishCreating, CanAccept, CanWelcome, CanStart,
         CanBail, CanWrite, CanRead, CanDrainRead, CanDrainEof, CanFail;
    match step
    case Head(role) => HeadKeeps(cfg, s, role);
    case RecvInternal(role) => RecvInternalKeeps(cfg, s, role);
    case JoinDone(role) => JoinKeeps(cfg, s, role);
    case CollectJoin(role, id) => CollectJoinKeeps(cfg, s, role, id);
    case CollectTimeout(role, id) => CollectTimeoutKeeps(cfg, s, role, id);
    case CollectDone(role) => CollectDoneKeeps(cfg, s, role);
    case ReadResults(role) => ReadResultsKeeps(cfg, s, role);
    case RecvServer => RecvServerKeeps(cfg, s);
    case Connect => ConnectKeeps(cfg, s);
    case SendHello => SendHelloKeeps(cfg, s);
    case RecvWelcome => RecvWelcomeKeeps(cfg, s);
    case RecvRefusal => NeverRefused(cfg, s);
    case FinishCreating => FinishCreatingKeeps(cfg, s);
    case Accept => AcceptKeeps(cfg, s);
    case Welcome => WelcomeKeeps(cfg, s);
    case Enqueue => EnqueueKeeps(cfg, s);
    case Start(role, t) => StartKeeps(cfg, s, role, t);
    case Bail(role, t) => NeverBails(cfg, s, role, t);
    case Write(role, t, n) => WriteKeeps(cfg, s, role, t, n);
    case Read(role, t, n) => ReadKeeps(cfg, s, role, t, n);
    case Eof(role, t) => LeaveLoopKeeps(cfg, s, role, t);
    case Stop(role, t) => LeaveLoopKeeps(cfg, s, role, t);
    case DrainRead(role, t, n) => DrainReadKeeps(cfg, s, role, t, n);
    case DrainEof(role, t) => DrainEofKeeps(cfg, s, role, t);
    case Fail(role, t) => FailKeeps(cfg, s, role, t);
  }

  // Main safety result: whatever the interleaving, the invariant holds at the end of every run.
  lemma {:induction false} EveryRunIsSafe(cfg: Config, r: Run)
    requires Total(cfg) >= 1 && IsRun(cfg, r)
    ensures Inv(cfg, Last(cfg, r))
  {
    hide Inv, Enabled, Next;
    match r
    case Begin => InitOk(cfg);
    case Extend(p, step) =>
      EveryRunIsSafe(cfg, p);
      StepKeeps(cfg, Last(cfg, p), step);
  }
}
