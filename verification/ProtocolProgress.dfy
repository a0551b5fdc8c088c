/**
  Progress: a measure that every step except a write lowers, and, for one to five streams, a
  step other than a write in every reachable state in which the test is not complete.
 */
module ProtocolProgress {
  import opened Protocol
  import opened ProtocolInvariant
  import opened NodeSafety
  import opened ControllerSafety
  import opened ExchangeSafety
  import opened WorkerSafety
  import opened ProtocolSafety
  import opened Ids

  // ---------------------------------------------------------------- the measure

  function WorkerRank(pc: WorkerPc): nat {
    match pc
    case WaitStart => 3
    case Transfer => 2
    case Drain => 1
    case Done(_) => 0
  }

  function Load(ws: seq<Worker>): nat {
    if ws == [] then 0 else Load(ws[..|ws| - 1]) + WorkerRank(ws[|ws| - 1].pc)
  }

  function InFlight(conns: seq<Conn>): nat {
    if conns == [] then 0
    else InFlight(conns[..|conns| - 1]) + conns[|conns| - 1].up.inflight + conns[|conns| - 1].down.inflight
  }

  function PcRank(pc: Pc): nat {
    match pc
    case Top => 0
    case Creating => 3
    case Greeting(_) => 3
    case AwaitWelcome(_) => 3
    case Recv => 2
    case Join(_, _) => 1
    case Collecting => 2
    case AwaitResults => 1
    case Finished(_) => 0
    case Aborted => 0
  }

  // The most often a controller can enter its loop.
  function MaxIters(cfg: Config, role: Role): nat {
    if role.Server? then 2 * Total(cfg) + 2 else Total(cfg) + 4
  }

  function NodeMeasure(cfg: Config, n: Node): int {
    4 * (MaxIters(cfg, n.role) - n.iters) + PcRank(n.pc) + 4 * (Total(cfg) - |n.workers|)
    + |n.streams| + Load(n.workers)
  }

  function DialMeasure(cfg: Config, s: World): int {
    3 * (Total(cfg) - |s.conns|) +
    (match s.client.pc
     case Greeting(_) => 2
     case AwaitWelcome(_) => 1
     case _ => 0)
  }

  function AcceptMeasure(cfg: Config, s: World): int {
    3 * (Total(cfg) - s.accepted) +
    (match s.accept
     case Reading(_) => 2
     case HandOff(_) => 1
     case _ => 0)
  }

  function Measure(cfg: Config, s: World): int {
    NodeMeasure(cfg, s.server) + NodeMeasure(cfg, s.client) + DialMeasure(cfg, s)
    + AcceptMeasure(cfg, s) + InFlight(s.conns)
  }

  lemma {:induction false} LoadUpdate(ws: seq<Worker>, t: nat, w: Worker)
    requires t < |ws|
    ensures Load(ws[t := w]) == Load(ws) - WorkerRank(ws[t].pc) + WorkerRank(w.pc)
  {
    var vs := ws[t := w];
    var last := |ws| - 1;
    if t < last {
      LoadUpdate(ws[..last], t, w);
      assert vs[..last] == ws[..last][t := w];
    } else {
      assert vs[..last] == ws[..last];
    }
  }

  lemma {:induction false} LoadSamePcs(ws: seq<Worker>, vs: seq<Worker>)
    requires SamePcs(ws, vs)
    ensures Load(ws) == Load(vs)
  {
    if ws != [] {
      LoadSamePcs(ws[..|ws| - 1], vs[..|ws| - 1]);
    }
  }

  lemma {:induction false} InFlightUpdate(conns: seq<Conn>, k: nat, c: Conn)
    requires k < |conns|
    ensures InFlight(conns[k := c]) ==
            InFlight(conns) - conns[k].up.inflight - conns[k].down.inflight + c.up.inflight + c.down.inflight
  {
    var ds := conns[k := c];
    var last := |conns| - 1;
    if k < last {
      InFlightUpdate(conns[..last], k, c);
      assert ds[..last] == conns[..last][k := c];
    } else {
      assert ds[..last] == conns[..last];
    }
  }

  lemma NodeMeasureNat(cfg: Config, n: Node)
    requires NodeOk(cfg, n)
    ensures n.iters <= MaxIters(cfg, n.role) && |n.workers| <= Total(cfg)
    ensures NodeMeasure(cfg, n) >= 0
  {
    hide WorkersOk, NothingLost, HandlesOk, QueueOk, Notified, AllSent, AllWaiting, Load;
    if n.state.CreateStreams? || (n.state.Running? && !n.prior.Running?) {
      MapCard(n.streams, |n.workers|);
    }
  }

  lemma MeasureNat(cfg: Config, s: World)
    requires Inv(cfg, s)
    ensures Measure(cfg, s) >= 0
  {
    hide NodeOk, NodeMeasure, ChannelOk, PipesOk, InFlight;
    NodeMeasureNat(cfg, s.server);
    NodeMeasureNat(cfg, s.client);
  }

  // -------------------------------------------------- every step but a write lowers it

  // A controller step that does not dial changes its own side's share only.
  lemma NodeShare(cfg: Config, s: World, s': World, role: Role)
    requires s' == WithNode(s, role, NodeOf(s', role)).(toClient := s'.toClient, toServer := s'.toServer,
                                                       announced := s'.announced, handled := s'.handled)
    requires role.Client? ==> !Dialled(s.client.pc) && !Dialled(s'.client.pc)
    ensures Measure(cfg, s') - Measure(cfg, s) ==
            NodeMeasure(cfg, NodeOf(s', role)) - NodeMeasure(cfg, NodeOf(s, role))
  {
    hide NodeMeasure, InFlight;
  }

  lemma HeadNodeLowers(cfg: Config, n: Node)
    requires n.pc.Top?
    ensures NodeMeasure(cfg, HeadOf(n)) < NodeMeasure(cfg, n)
    ensures !Dialled(HeadOf(n).pc)
  {
    hide Load, MaxIters;
    LoadSamePcs(n.workers, HeadOf(n).workers);
  }

  lemma HeadLowers(cfg: Config, s: World, role: Role)
    requires CanHead(s, role)
    ensures Measure(cfg, LoopHead(s, role)) < Measure(cfg, s)
  {
    hide Measure, HeadOf, Load, MaxIters;
    HeadNodeLowers(cfg, NodeOf(s, role));
    NodeShare(cfg, s, LoopHead(s, role), role);
  }

  lemma PopLowers(cfg: Config, s: World, role: Role)
    requires Inv(cfg, s) && CanRecvInternal(s, role) && !NodeOf(s, role).state.CreateStreams?
    ensures Measure(cfg, ReceiveInternal(cfg, s, role)) < Measure(cfg, s)
  {
    hide Inv, NodeOk, Load, Measure, UnderLoad;
    Parts(cfg, s);
    var n := NodeOf(s, role);
    LoadMessages(cfg, n);
    MapRemove(n.streams, n.queue[0].id);
    NodeShare(cfg, s, ReceiveInternal(cfg, s, role), role);
  }

  lemma LoadOfNew(ws: seq<Worker>, w: Worker)
    ensures Load(ws + [w]) == Load(ws) + WorkerRank(w.pc)
  {
    assert (ws + [w])[..|ws|] == ws;
  }

  lemma AcceptStreamLowers(cfg: Config, s: World)
    requires Inv(cfg, s) && CanRecvInternal(s, Server) && s.server.state.CreateStreams?
    ensures Measure(cfg, ReceiveInternal(cfg, s, Server)) < Measure(cfg, s)
  {
    hide Inv, WorkersOk, NothingLost, PcOk, Load, Measure, HandshakeOk, Register, Registering;
    Parts(cfg, s);
    AcceptQueue(cfg, s);
    var n := s.server.(queue := s.server.queue[1..]);
    RegisteringServer(cfg, s.server);
    RegisteringAgain(s.server);
    RegisterShape(cfg, n);
    LoadOfNew(n.workers, NewWorker(|n.workers|, |n.workers|, IsSending(cfg, n.role, |n.workers|)));
    NodeShare(cfg, s, ReceiveInternal(cfg, s, Server), Server);
  }

  lemma RegisteringAgain(n: Node)
    requires Registering(n) && n.queue != []
    ensures Registering(n.(queue := n.queue[1..]))
  {
  }

  lemma RegisteringServer(cfg: Config, n: Node)
    requires PhaseOk(cfg, n) && n.state.CreateStreams?
    ensures Registering(n) && |n.streams| == |n.workers|
  {
    MapCard(n.streams, |n.workers|);
  }

  lemma RecvInternalLowers(cfg: Config, s: World, role: Role)
    requires Inv(cfg, s) && CanRecvInternal(s, role)
    ensures Measure(cfg, ReceiveInternal(cfg, s, role)) < Measure(cfg, s)
  {
    hide Inv, NodeOk, Measure, ReceiveInternal;
    if !NodeOf(s, role).state.CreateStreams? {
      PopLowers(cfg, s, role);
    } else if role.Server? {
      AcceptStreamLowers(cfg, s);
    } else {
      Parts(cfg, s);
      ClientQueueEmpty(cfg, s.client);
      assert false;
    }
  }

  lemma JoinLowers(cfg: Config, s: World, role: Role)
    requires CanJoin(NodeOf(s, role))
    ensures Measure(cfg, DoJoin(s, role)) < Measure(cfg, s)
  {
    hide Load, MaxIters, Measure;
    NodeShare(cfg, s, DoJoin(s, role), role);
  }

  lemma CollectLowers(cfg: Config, s: World, role: Role, id: nat)
    requires NodeOf(s, role).role == role
    ensures CanCollectJoin(NodeOf(s, role), id) ==>
              Measure(cfg, WithNode(s, role, DoCollectJoin(NodeOf(s, role), id))) < Measure(cfg, s)
    ensures CanCollectTimeout(NodeOf(s, role), id) ==>
              Measure(cfg, WithNode(s, role, DoCollectTimeout(NodeOf(s, role), id))) < Measure(cfg, s)
  {
    hide Load, MaxIters, Measure;
    var n := NodeOf(s, role);
    if Collectable(n, id) {
      MapRemove(n.streams, id);
      if n.workers[n.streams[id]].pc.Done? {
        NodeShare(cfg, s, WithNode(s, role, DoCollectJoin(n, id)), role);
      } else {
        NodeShare(cfg, s, WithNode(s, role, DoCollectTimeout(n, id)), role);
      }
    }
  }

  lemma ExchangeLowers(cfg: Config, s: World, role: Role)
    ensures CanCollectDone(NodeOf(s, role)) ==> Measure(cfg, DoCollectDone(s, role)) < Measure(cfg, s)
    ensures CanReadResults(s, role) ==> Measure(cfg, DoReadResults(s, role)) < Measure(cfg, s)
  {
    hide Load, MaxIters, Measure;
    if CanCollectDone(NodeOf(s, role)) { NodeShare(cfg, s, DoCollectDone(s, role), role); }
    if CanReadResults(s, role) { NodeShare(cfg, s, DoReadResults(s, role), role); }
  }

  lemma ClientLowers(cfg: Config, s: World)
    ensures CanRecvServer(s) ==> Measure(cfg, DoRecvServer(s)) < Measure(cfg, s)
    ensures s.client.pc.Greeting? ==> Measure(cfg, DoSendHello(s)) < Measure(cfg, s)
    ensures CanFinishCreating(cfg, s) ==> Measure(cfg, DoFinishCreating(s)) < Measure(cfg, s)
    ensures CanConnect(cfg, s) ==> Measure(cfg, DoConnect(s)) < Measure(cfg, s)
  {
    hide Load, InFlight, MaxIters;
    assert InFlight(s.conns + [FRESH_CONN]) == InFlight(s.conns) by { InFlightOfFresh(s.conns); }
  }

  lemma InFlightOfFresh(conns: seq<Conn>)
    ensures InFlight(conns + [FRESH_CONN]) == InFlight(conns)
  {
    assert (conns + [FRESH_CONN])[..|conns|] == conns;
  }

  lemma RecvWelcomeLowers(cfg: Config, s: World)
    requires Inv(cfg, s) && CanRecvWelcome(s)
    ensures Measure(cfg, DoRecvWelcome(cfg, s)) < Measure(cfg, s)
  {
    hide Inv, NodeOk, Load, InFlight, MaxIters, HandshakeOk, Register, Registering;
    Parts(cfg, s);
    DiallingClient(cfg, s.client);
    RecvWelcomeHandshake(cfg, s) by { RecvWelcomeKeeps(cfg, s); RegisterShape(cfg, s.client); ConnOfDial(cfg, s); }
    RegisterShape(cfg, s.client);
    LoadOfNew(s.client.workers,
              NewWorker(|s.client.workers|, |s.client.workers|, IsSending(cfg, Client, |s.client.workers|)));
  }

  lemma ConnOfDial(cfg: Config, s: World)
    requires HandshakeOk(cfg, s) && CanRecvWelcome(s)
    ensures s.client.pc.conn == |s.client.workers|
  {
  }

  lemma AcceptLowers(cfg: Config, s: World)
    ensures CanAccept(s) ==> Measure(cfg, DoAccept(s)) < Measure(cfg, s)
    ensures CanWelcome(s) ==> Measure(cfg, DoWelcome(s)) < Measure(cfg, s)
    ensures s.accept.HandOff? ==> Measure(cfg, DoEnqueue(s)) < Measure(cfg, s)
  {
    hide Load, InFlight, MaxIters;
  }

  // A worker step changes one worker, one connection and perhaps the queue.
  lemma WorkerMeasure(cfg: Config, s: World, s': World, role: Role, t: nat, k: nat)
    requires t < |NodeOf(s, role).workers| && k < |s.conns|
    requires |NodeOf(s', role).workers| == |NodeOf(s, role).workers| && |s'.conns| == |s.conns|
    requires var n := NodeOf(s, role); var m := NodeOf(s', role);
             && m == n.(workers := n.workers[t := m.workers[t]], queue := m.queue, lost := m.lost)
             && s'.conns == s.conns[k := s'.conns[k]]
             && s' == WithNode(s, role, m).(conns := s'.conns)
    ensures Measure(cfg, s') == Measure(cfg, s)
              - WorkerRank(NodeOf(s, role).workers[t].pc) + WorkerRank(NodeOf(s', role).workers[t].pc)
              - s.conns[k].up.inflight - s.conns[k].down.inflight
              + s'.conns[k].up.inflight + s'.conns[k].down.inflight
  {
    hide Load, InFlight, MaxIters;
    LoadUpdate(NodeOf(s, role).workers, t, NodeOf(s', role).workers[t]);
    InFlightUpdate(s.conns, k, s'.conns[k]);
  }

  lemma ReturnLowers(cfg: Config, s: World, role: Role, t: nat, outcome: Outcome)
    requires HasTask(s, role, t) && !TaskOf(s, role, t).pc.Done?
    ensures Measure(cfg, Return(s, role, t, outcome)) < Measure(cfg, s)
  {
    hide Measure;
    WorkerMeasure(cfg, s, Return(s, role, t, outcome), role, t, TaskOf(s, role, t).conn);
  }

  lemma MoveMeasure(cfg: Config, s: World, role: Role, t: nat, n: nat)
    ensures CanWrite(cfg, s, role, t, n) ==> Measure(cfg, DoWrite(cfg, s, role, t, n)) == Measure(cfg, s) + n
    ensures CanRead(cfg, s, role, t, n) ==> n >= 1 && Measure(cfg, DoRead(cfg, s, role, t, n)) == Measure(cfg, s) - n
    ensures CanDrainRead(cfg, s, role, t, n) ==>
              n >= 1 && Measure(cfg, DoDrainRead(cfg, s, role, t, n)) == Measure(cfg, s) - n
  {
    hide Measure;
    if CanWrite(cfg, s, role, t, n) {
      WorkerMeasure(cfg, s, DoWrite(cfg, s, role, t, n), role, t, TaskOf(s, role, t).conn);
    }
    if CanRead(cfg, s, role, t, n) {
      WorkerMeasure(cfg, s, DoRead(cfg, s, role, t, n), role, t, TaskOf(s, role, t).conn);
    }
    if CanDrainRead(cfg, s, role, t, n) {
      WorkerMeasure(cfg, s, DoDrainRead(cfg, s, role, t, n), role, t, TaskOf(s, role, t).conn);
    }
  }

  lemma SignalLowers(cfg: Config, s: World, role: Role, t: nat)
    ensures CanStart(s, role, t) ==> Measure(cfg, DoStart(s, role, t)) < Measure(cfg, s)
    ensures AtPc(s, role, t, Transfer) ==> Measure(cfg, LeaveLoop(s, role, t)) < Measure(cfg, s)
  {
    hide Measure;
    if CanStart(s, role, t) {
      WorkerMeasure(cfg, s, DoStart(s, role, t), role, t, TaskOf(s, role, t).conn);
    }
    if AtPc(s, role, t, Transfer) {
      if TaskOf(s, role, t).sending {
        ReturnLowers(cfg, s, role, t, Ok(StatsOf(TaskOf(s, role, t))));
      } else {
        WorkerMeasure(cfg, s, LeaveLoop(s, role, t), role, t, TaskOf(s, role, t).conn);
      }
    }
  }

  // A write of n bytes raises the measure by n; every other step lowers it.
  lemma StepMeasure(cfg: Config, s: World, step: Step)
    requires Inv(cfg, s) && Enabled(cfg, s, step)
    ensures step.Write? ==> Measure(cfg, Next(cfg, s, step)) == Measure(cfg, s) + step.n
    ensures !step.Write? ==> Measure(cfg, Next(cfg, s, step)) < Measure(cfg, s)
  {
    hide Inv, Measure, NodeOk, LoopHead, ReceiveInternal, DoJoin, DoCollectJoin, DoCollectTimeout, DoCollectDone,
         DoReadResults, DoRecvServer, DoConnect, DoSendHello, DoRecvWelcome, DoRecvRefusal,
         DoFinishCreating, DoAccept, DoWelcome, DoEnqueue, DoStart, Return, DoWrite, DoRead,
         LeaveLoop, DoDrainRead, CanHead, CanRecvInternal, CanJoin, CanCollectJoin,
         CanCollectTimeout, CanCollectDone, CanReadResults, CanRecvServer, CanConnect,
         CanRecvWelcome, CanRecvRefusal, CanFinishCreating, CanAccept, CanWelcome, CanStart,
         CanBail, CanWrite, CanRead, CanDrainRead;
    Parts(cfg, s);
    match step
    case Head(role) => HeadLowers(cfg, s, role);
    case RecvInternal(role) => RecvInternalLowers(cfg, s, role);
    case JoinDone(role) => JoinLowers(cfg, s, role);
    case CollectJoin(role, id) => CollectLowers(cfg, s, role, id);
    case CollectTimeout(role, id) => CollectLowers(cfg, s, role, id);
    case CollectDone(role) => ExchangeLowers(cfg, s, role);
    case ReadResults(role) => ExchangeLowers(cfg, s, role);
    case RecvServer => ClientLowers(cfg, s);
    case Connect => ClientLowers(cfg, s);
    case SendHello => ClientLowers(cfg, s);
    case RecvWelcome => RecvWelcomeLowers(cfg, s);
    case RecvRefusal => NeverRefused(cfg, s);
    case FinishCreating => ClientLowers(cfg, s);
    case Accept => AcceptLowers(cfg, s);
    case Welcome => AcceptLowers(cfg, s);
    case Enqueue => AcceptLowers(cfg, s);
    case Start(role, t) => SignalLowers(cfg, s, role, t);
    case Bail(role, t) => NeverBails(cfg, s, role, t);
    case Write(role, t, n) => MoveMeasure(cfg, s, role, t, n);
    case Read(role, t, n) => MoveMeasure(cfg, s, role, t, n);
    case Eof(role, t) => SignalLowers(cfg, s, role, t);
    case Stop(role, t) => SignalLowers(cfg, s, role, t);
    case DrainRead(role, t, n) => MoveMeasure(cfg, s, role, t, n);
    case DrainEof(role, t) => ReturnLowers(cfg, s, role, t, Ok(StatsOf(TaskOf(s, role, t))));
    case Fail(role, t) => ReturnLowers(cfg, s, role, t, Failed);
  }

  // ------------------------------------------------------------ some step is enabled

  predicate Complete(s: World) {
    s.server.pc.Finished? && s.client.pc.Finished?
  }

  // A step that takes the test on: neither a write nor a fault.
  predicate Proceeds(step: Step) {
    !step.Write? && !Fault(step)
  }

  lemma StartMoves(cfg: Config, s: World, role: Role, t: nat)
    requires Inv(cfg, s) && AtPc(s, role, t, WaitStart) && !s.accept.Down?
    requires TaskOf(s, role, t).sent != []
    ensures Enabled(cfg, s, Start(role, t))
  {
    hide Inv, NodeOk, PipesOk;
    TaskFacts(cfg, s, role, t);
    FirstSignal(cfg, s, role, t);
  }

  lemma DrainMoves(cfg: Config, s: World, role: Role, t: nat) returns (step: Step)
    requires AtPc(s, role, t, Drain) && !s.accept.Down? && Source(s, role, t).fin
    requires cfg.blockSize == 0 ==> Source(s, role, t).inflight == 0
    ensures Enabled(cfg, s, step) && Proceeds(step)
  {
    if cfg.blockSize > 0 && Source(s, role, t).inflight > 0 {
      step := DrainRead(role, t, 1);
      assert CanDrainRead(cfg, s, role, t, 1);
    } else {
      step := DrainEof(role, t);
      assert CanDrainEof(cfg, s, role, t);
    }
  }

  lemma EmptyBlocksEmptyPipes(cfg: Config, s: World, role: Role, t: nat)
    requires Inv(cfg, s) && HasTask(s, role, t) && cfg.blockSize == 0
    ensures Source(s, role, t).inflight == 0
  {
    hide NodesOk, HandshakeOk, ChannelOk;
    assert FlowOk(cfg, s, Other(role), TaskOf(s, role, t).conn);
  }

  // A worker that was told to start and has not returned can move, once its peer has hung up
  // if it is draining.
  lemma WorkerMoves(cfg: Config, s: World, role: Role, t: nat) returns (step: Step)
    requires Inv(cfg, s) && HasTask(s, role, t) && !s.accept.Down?
    requires !TaskOf(s, role, t).pc.Done? && TaskOf(s, role, t).sent != []
    requires TaskOf(s, role, t).pc.Drain? ==> Source(s, role, t).fin
    ensures Enabled(cfg, s, step) && Proceeds(step)
  {
    hide Inv, CanStart;
    match TaskOf(s, role, t).pc
    case WaitStart =>
      StartMoves(cfg, s, role, t);
      step := Start(role, t);
    case Transfer =>
      step := Stop(role, t);
    case Drain =>
      if cfg.blockSize == 0 { EmptyBlocksEmptyPipes(cfg, s, role, t); }
      step := DrainMoves(cfg, s, role, t);
  }

  lemma FirstSignal(cfg: Config, s: World, role: Role, t: nat)
    requires Inv(cfg, s) && HasTask(s, role, t) && TaskOf(s, role, t).sent != []
    ensures TaskOf(s, role, t).sent[0].StartLoad?
  {
    hide HandshakeOk, ChannelOk, PipesOk, Accounted, QueueOk, Notified, PcOk;
  }

  // While an announcement is unread, the client controller can move.
  lemma ClientAlive(cfg: Config, s: World)
    requires Inv(cfg, s) && |s.handled| < |s.announced|
    ensures !s.client.state.ExchangeResults? && s.toClient != []
    ensures var pc := s.client.pc;
            pc.Top? || pc.Recv? || pc.Creating? || Dialled(pc) || CanJoin(s.client)
  {
    hide WorkersOk, NothingLost, PhaseOk, HandshakeOk, PipesOk;
    if s.client.pc.Join? { JoinState(cfg, s.client); }
  }

  lemma WelcomeIsThere(cfg: Config, s: World)
    requires HandshakeOk(cfg, s) && s.accept.Idle? && s.accepted == |s.conns|
    requires s.client.pc.AwaitWelcome?
    ensures CanRecvWelcome(s)
  {
  }

  // The client controller is not waiting for the server.
  predicate ClientReady(s: World) {
    var pc := s.client.pc;
    pc.Top? || (pc.Recv? && s.toClient != []) || pc.Creating? || Dialled(pc) || CanJoin(s.client)
  }

  lemma ClientMoves(cfg: Config, s: World) returns (step: Step)
    requires HandshakeOk(cfg, s) && ClientReady(s)
    requires s.accept.Idle? && s.accepted == |s.conns|
    ensures Enabled(cfg, s, step) && Proceeds(step)
  {
    hide HandshakeOk, CanRecvWelcome;
    match s.client.pc
    case Top => step := Head(Client);
    case Recv => step := RecvServer;
    case Creating =>
      step := if |s.client.streams| < TotalNeededStreams(cfg, Client) then Connect else FinishCreating;
    case Greeting(c) => step := SendHello;
    case AwaitWelcome(c) => step := RecvWelcome; WelcomeIsThere(cfg, s);
    case _ => step := JoinDone(Client);
  }

  lemma ReadingMoves(cfg: Config, s: World) returns (step: Step)
    requires HandshakeOk(cfg, s) && s.accept.Reading?
    ensures Enabled(cfg, s, step) && Proceeds(step)
  {
    step := if s.accept.conn in s.helloed then Welcome else SendHello;
  }

  // Not all streams are registered and none is under way: the client is about to dial.
  lemma ClientDials(cfg: Config, s: World)
    requires Inv(cfg, s) && s.server.state.CreateStreams? && |s.handled| == |s.announced|
    requires s.server.queue == [] && s.accept.Idle? && s.accepted == |s.conns|
    ensures ClientReady(s)
  {
    hide WorkersOk, NothingLost, PhaseOk, PipesOk;
  }

  lemma ActiveStream(cfg: Config, n: Node) returns (id: nat)
    requires NodeOk(cfg, n) && n.role.Server? && n.state.Running? && n.pc.Recv? && n.queue == []
    requires Total(cfg) <= INTERNAL_PROT_BUFFER
    ensures id < |n.workers| && !n.workers[id].pc.Done? && n.workers[id].sent != [] && n.workers[id].id == id
  {
    id :| id in n.streams;
    assert WorkerOk(cfg, n.role, id, n.workers[id]);
  }

  // Both controllers have adopted Running.
  lemma BothRunning(cfg: Config, s: World)
    requires Inv(cfg, s) && s.server.state.Running? && |s.handled| == |s.announced|
    ensures s.client.state.Running? && (s.client.prior.Running? || CanHead(s, Client))
    ensures |s.server.workers| == |s.client.workers| == |s.conns| == Total(cfg)
    ensures s.client.prior.Running? ==> UnderLoad(cfg, s.client)
  {
    hide WorkersOk, NothingLost, HandlesOk, QueueOk, Notified, Pending, AllWaiting, PipesOk;
  }

  // The other end of a server stream under load, when the client has handled Running.
  lemma PeerOf(cfg: Config, s: World, t: nat)
    requires Inv(cfg, s) && s.server.state.Running? && |s.handled| == |s.announced|
    requires t < |s.server.workers|
    ensures HasTask(s, Server, t) && HasTask(s, Client, t)
    ensures TaskOf(s, Server, t).conn == t == TaskOf(s, Client, t).conn
    ensures s.client.prior.Running? || CanHead(s, Client)
    ensures s.client.prior.Running? ==> TaskOf(s, Client, t).sent != []
    ensures !TaskOf(s, Server, t).sending ==> !TaskOf(s, Client, t).pc.Drain?
    ensures s.conns[t].up.fin <==> TaskOf(s, Client, t).pc.Done?
    ensures TaskOf(s, Server, t).pc.Drain? ==> !TaskOf(s, Server, t).sending
  {
    hide Inv, NodeOk, PipesOk, HandlesOk, Accounted, QueueOk, Notified, HandshakeOk;
    BothRunning(cfg, s);
    TaskAt(cfg, s, Server, t);
    TaskAt(cfg, s, Client, t);
    assert FlowOk(cfg, s, Client, t);
  }

  lemma TaskAt(cfg: Config, s: World, role: Role, t: nat)
    requires Inv(cfg, s) && t < |NodeOf(s, role).workers| && t < |s.conns|
    ensures WorkerOk(cfg, role, t, NodeOf(s, role).workers[t]) && HasTask(s, role, t)
    ensures FlowOk(cfg, s, role, t)
  {
    hide HandshakeOk, ChannelOk, NothingLost, PhaseOk, PcOk, FlowOk;
    assert WorkerOk(cfg, NodeOf(s, role).role, t, NodeOf(s, role).workers[t]);
  }

  lemma ServerUnderLoadMoves(cfg: Config, s: World) returns (step: Step)
    requires Inv(cfg, s) && Total(cfg) <= INTERNAL_PROT_BUFFER
    requires s.server.state.Running? && s.server.pc.Recv? && s.server.queue == []
    requires |s.handled| == |s.announced| && s.accept.Idle?
    ensures Enabled(cfg, s, step) && Proceeds(step)
  {
    hide Inv, NodeOk, HandshakeOk, ChannelOk, PipesOk;
    Parts(cfg, s);
    var t := ActiveStream(cfg, s.server);
    PeerOf(cfg, s, t);
    if TaskOf(s, Server, t).pc.Drain? && !s.conns[t].up.fin {
      if s.client.prior.Running? {
        step := WorkerMoves(cfg, s, Client, t);
      } else {
        step := Head(Client);
      }
    } else {
      step := WorkerMoves(cfg, s, Server, t);
    }
  }

  lemma ClientCaughtUp(cfg: Config, s: World)
    requires Inv(cfg, s) && s.server.pc.AwaitResults? && s.toServer == []
    requires |s.handled| == |s.announced|
    ensures s.client.state.ExchangeResults? && (s.client.pc.Top? || s.client.pc.Collecting?)
    ensures s.client.pc.Collecting? && s.client.streams != map[] ==>
              exists id :: Collectable(s.client, id)
  {
    hide WorkersOk, NothingLost, PipesOk, HandshakeOk, QueueOk, UnderLoad, Registering;
    AwaitState(cfg, s.server);
    if s.client.pc.Collecting? && s.client.streams != map[] {
      var id :| id in s.client.streams;
      assert Collectable(s.client, id);
    }
  }

  lemma ClientExchanges(cfg: Config, s: World) returns (step: Step)
    requires Inv(cfg, s) && s.server.pc.AwaitResults? && s.toServer == []
    requires |s.handled| == |s.announced| && !s.accept.Down?
    ensures Enabled(cfg, s, step) && Proceeds(step)
  {
    hide Inv, Collectable;
    ClientCaughtUp(cfg, s);
    if s.client.pc.Top? {
      step := Head(Client);
    } else if s.client.streams == map[] {
      step := CollectDone(Client);
    } else {
      var id :| Collectable(s.client, id);
      step := CollectMoves(cfg, s, id);
    }
  }

  // The client adopts a state only after the server announced it.
  lemma ServerFirst(cfg: Config, s: World)
    requires ChannelOk(s)
    ensures s.client.state.Running? || s.client.state.ExchangeResults? ==>
              s.server.state.Running? || s.server.state.ExchangeResults?
    ensures s.client.state.ExchangeResults? ==> s.server.state.ExchangeResults?
  {
    hide Pending;
  }

  lemma AllBack(cfg: Config, n: Node)
    requires NodeOk(cfg, n) && n.role.Server? && n.state.ExchangeResults?
    ensures |n.workers| == Total(cfg)
    ensures forall t: nat :: t < |n.workers| ==> n.workers[t].pc.Done?
  {
    hide WorkersOk, NothingLost, QueueOk;
    forall t: nat | t < |n.workers| ensures n.workers[t].pc.Done? {
      assert t in n.results || t in n.failed;
    }
  }

  lemma CollectsOwn(cfg: Config, n: Node, id: nat)
    requires NodeOk(cfg, n) && Collectable(n, id)
    ensures n.streams[id] == id < Total(cfg) == |n.workers|
  {
    hide WorkersOk, NothingLost, QueueOk, UnderLoad;
  }

  // Every server worker has returned by then, so a client worker that has not can still move.
  lemma CollectMoves(cfg: Config, s: World, id: nat) returns (step: Step)
    requires Inv(cfg, s) && Collectable(s.client, id) && !s.accept.Down?
    ensures Enabled(cfg, s, step) && Proceeds(step)
  {
    hide Inv, NodeOk, HandshakeOk, ChannelOk, PipesOk;
    Parts(cfg, s);
    CollectsOwn(cfg, s.client, id);
    Signalled(cfg, s, id);
    TaskAt(cfg, s, Client, id);
    TaskAt(cfg, s, Server, id);
    if s.client.workers[id].pc.Done? {
      CollectReady(s, id);
      step := CollectJoin(Client, id);
    } else {
      step := WorkerMoves(cfg, s, Client, id);
    }
  }

  lemma CollectReady(s: World, id: nat)
    requires Collectable(s.client, id) && s.client.streams[id] == id < |s.client.workers|
    requires s.client.workers[id].pc.Done?
    ensures CanCollectJoin(s.client, id)
  {
  }

  lemma Signalled(cfg: Config, s: World, id: nat)
    requires Inv(cfg, s) && s.client.pc.Collecting? && id < Total(cfg)
    ensures |s.client.workers| == |s.server.workers| == |s.conns| == Total(cfg)
    ensures s.server.workers[id].pc.Done? && s.client.workers[id].sent != []
  {
    hide Inv, NodeOk, PipesOk, Accounted, QueueOk;
    Parts(cfg, s);
    CollectState(cfg, s.client);
    ServerFirst(cfg, s);
    AllBack(cfg, s.server);
    AllConnected(cfg, s);
  }

  lemma AllConnected(cfg: Config, s: World)
    requires HandshakeOk(cfg, s) && s.server.state.ExchangeResults?
    ensures |s.conns| == Total(cfg)
  {
  }

  lemma ClientReadsLast(cfg: Config, s: World)
    requires Inv(cfg, s) && s.server.pc.Finished? && !s.client.pc.Finished?
    ensures CanReadResults(s, Client)
  {
    hide WorkersOk, NothingLost, PhaseOk, HandshakeOk, PipesOk;
  }

  // The server controller waits for a message only.
  lemma ServerPlaces(cfg: Config, s: World)
    requires Inv(cfg, s)
    ensures var n := s.server;
            && (n.pc.Top? || n.pc.Recv? || CanJoin(n) || CanCollectDone(n) || n.pc.AwaitResults? || n.pc.Finished?)
            && (n.pc.Recv? ==> n.state.CreateStreams? || n.state.Running?)
    ensures Total(cfg) <= INTERNAL_PROT_BUFFER ==> !s.accept.Down?
    ensures HandshakeOk(cfg, s) && |s.handled| <= |s.announced|
  {
    hide WorkersOk, NothingLost, PhaseOk, PipesOk;
    if s.server.pc.Join? { JoinState(cfg, s.server); }
  }

  // The server's side of the choice, once the accept loop is idle and everything is read.
  lemma ServerMoves(cfg: Config, s: World) returns (step: Step)
    requires Inv(cfg, s) && Total(cfg) <= INTERNAL_PROT_BUFFER && !s.server.pc.Finished?
    requires s.accept.Idle? && s.accepted == |s.conns| && |s.handled| == |s.announced|
    ensures Enabled(cfg, s, step) && Proceeds(step)
  {
    hide Inv, NodeOk, HandshakeOk, ChannelOk, PipesOk, ClientReady;
    ServerPlaces(cfg, s);
    match s.server.pc
    case Top => step := Head(Server);
    case Recv =>
      if s.server.queue != [] {
        step := RecvInternal(Server);
      } else if s.server.state.Running? {
        step := ServerUnderLoadMoves(cfg, s);
      } else {
        ClientDials(cfg, s);
        step := ClientMoves(cfg, s);
      }
    case Join(id, t) => step := JoinDone(Server);
    case AwaitResults =>
      if s.toServer != [] { step := ReadResults(Server); } else { step := ClientExchanges(cfg, s); }
    case _ => step := CollectDone(Server);
  }

  // Main progress result: a test with one to five streams is never stuck before it is complete.
  lemma SomeStep(cfg: Config, s: World) returns (step: Step)
    requires Inv(cfg, s) && Total(cfg) <= INTERNAL_PROT_BUFFER && !Complete(s)
    ensures Enabled(cfg, s, step) && Proceeds(step)
  {
    hide Inv, HandshakeOk, CanReadResults, CanJoin, CanCollectDone, ClientReady;
    ServerPlaces(cfg, s);
    if s.accept.Reading? {
      step := ReadingMoves(cfg, s);
    } else if s.accept.HandOff? {
      step := Enqueue;
    } else if s.accepted < |s.conns| {
      step := Accept;
    } else if |s.handled| < |s.announced| {
      ClientAlive(cfg, s);
      AllAccepted(cfg, s);
      assert ClientReady(s) by { ReadyIf(s); }
      step := ClientMoves(cfg, s);
    } else if s.server.pc.Finished? {
      ClientReadsLast(cfg, s);
      step := ReadResults(Client);
    } else {
      AllAccepted(cfg, s);
      step := ServerMoves(cfg, s);
    }
  }

  lemma AllAccepted(cfg: Config, s: World)
    requires HandshakeOk(cfg, s) && s.accepted >= |s.conns|
    ensures s.accepted == |s.conns|
  {
  }

  lemma ReadyIf(s: World)
    requires s.toClient != []
    requires var pc := s.client.pc;
             pc.Top? || pc.Recv? || pc.Creating? || Dialled(pc) || CanJoin(s.client)
    ensures ClientReady(s)
  {
  }
}
