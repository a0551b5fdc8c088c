/**
  Runs built step by step, all of them free of faults: setting up the streams, starting the load on
  both sides, and workers that start and return.
 */
module ProtocolRuns {
  import opened Protocol
  import opened ProtocolInvariant
  import opened NodeSafety
  import opened ControllerSafety
  import opened ExchangeSafety
  import opened WorkerSafety
  import opened ProtocolSafety
  import opened ProtocolProgress
  import opened ProtocolTheorems
  import opened Ids

  // A run in which nothing goes wrong.
  predicate Trace(cfg: Config, r: Run): (b: bool)
    ensures b ==> IsRun(cfg, r)
  {
    IsRun(cfg, r) && Smooth(r)
  }

  // Since the accept loop last handed a connection over, the server's controller has taken a message.
  predicate Rested(r: Run) {
    match r
    case Begin => true
    case Extend(p, step) => step == RecvInternal(Server) || (!step.Enqueue? && Rested(p))
  }

  // The controller gets its turn between any two hand-overs.
  predicate Orderly(r: Run) {
    r.Extend? ==> Orderly(r.prefix) && (r.step.Enqueue? ==> Rested(r.prefix))
  }

  // A step taken at the end of a run.
  lemma GoOn(cfg: Config, r: Run, step: Step) returns (q: Run)
    requires Trace(cfg, r) && Enabled(cfg, Last(cfg, r), step) && !Fault(step)
    ensures Trace(cfg, q) && Last(cfg, q) == Next(cfg, Last(cfg, r), step)
    ensures Orderly(q) <==> Orderly(r) && (step.Enqueue? ==> Rested(r))
    ensures Rested(q) <==> step == RecvInternal(Server) || (!step.Enqueue? && Rested(r))
  {
    q := Extend(r, step);
  }

  // `k` streams are set up on the client, `q` of them still queued at the server.
  ghost predicate SetUp(s: World, k: nat, q: nat) {
    && s.server.role.Server? && s.client.role.Client?
    && s.accept.Idle? && s.accepted == |s.conns| == k
    && s.server.state.CreateStreams? && s.server.pc.Recv?
    && |s.server.queue| == q && |s.server.streams| == |s.server.workers| == k - q
    && !s.server.prior.Running?
    && s.client.state.CreateStreams? && s.client.pc.Creating?
    && |s.client.streams| == k
  }

  lemma ServerListens(cfg: Config)
    ensures Enabled(cfg, INIT, Head(Server))
    ensures var s1 := Next(cfg, INIT, Head(Server));
            && Enabled(cfg, s1, Head(Server))
            && var s2 := Next(cfg, s1, Head(Server));
            && s2 == INIT.(server := s2.server, toClient := [SetState(CreateStreams)], announced := [CreateStreams])
            && s2.server == InitNode(Server).(state := CreateStreams, prior := CreateStreams, pc := Recv, iters := 2)
  {
    hide WorkerCan, WorkerNext, Register, Broadcast;
  }

  lemma ClientListens(cfg: Config, s: World)
    requires s.client == InitNode(Client) && s.toClient == [SetState(CreateStreams)]
    ensures Enabled(cfg, s, Head(Client))
    ensures var s1 := Next(cfg, s, Head(Client));
            && Enabled(cfg, s1, RecvServer)
            && var s2 := Next(cfg, s1, RecvServer);
            && Enabled(cfg, s2, Head(Client))
            && var s3 := Next(cfg, s2, Head(Client));
            && s3 == s.(client := s3.client, toClient := [], handled := s.handled + [CreateStreams])
            && s3.client == InitNode(Client).(state := CreateStreams, prior := TestStart, pc := Creating, iters := 2)
  {
    hide WorkerCan, WorkerNext, Register, Broadcast;
  }

  lemma Prelude(cfg: Config) returns (r: Run)
    requires Total(cfg) >= 1
    ensures Trace(cfg, r) && Orderly(r) && Rested(r) && SetUp(Last(cfg, r), 0, 0)
  {
    hide Enabled, Next;
    r := Begin;
    ServerListens(cfg);
    r := GoOn(cfg, r, Head(Server));
    r := GoOn(cfg, r, Head(Server));
    ClientListens(cfg, Last(cfg, r));
    r := GoOn(cfg, r, Head(Client));
    r := GoOn(cfg, r, RecvServer);
    r := GoOn(cfg, r, Head(Client));
  }

  // The client dials and greets.
  lemma DialOut(cfg: Config, r: Run, k: nat, q: nat) returns (r': Run)
    requires Trace(cfg, r) && SetUp(Last(cfg, r), k, q) && k < Total(cfg)
    ensures Trace(cfg, r')
    ensures var s := Last(cfg, r);
            Last(cfg, r') == s.(client := s.client.(pc := AwaitWelcome(k)), conns := s.conns + [FRESH_CONN],
                                helloed := s.helloed + {k})
    ensures (Orderly(r') <==> Orderly(r)) && (Rested(r') <==> Rested(r))
  {
    hide Last, IsRun, Smooth, Orderly, Rested;
    r' := GoOn(cfg, r, Connect);
    r' := GoOn(cfg, r', SendHello);
  }

  // The accept loop answers; the connection is about to be queued.
  lemma DialUp(cfg: Config, r: Run, k: nat, q: nat) returns (r': Run)
    requires Trace(cfg, r) && SetUp(Last(cfg, r), k, q) && k < Total(cfg)
    ensures Trace(cfg, r')
    ensures var s := Last(cfg, r);
            Last(cfg, r') == s.(client := s.client.(pc := AwaitWelcome(k)), conns := s.conns + [FRESH_CONN],
                                accept := HandOff(k), accepted := k + 1,
                                helloed := s.helloed + {k}, welcomed := s.welcomed + {k})
    ensures (Orderly(r') <==> Orderly(r)) && (Rested(r') <==> Rested(r))
  {
    hide Last, IsRun, Smooth, Orderly, Rested;
    r' := DialOut(cfg, r, k, q);
    r' := GoOn(cfg, r', Accept);
    r' := GoOn(cfg, r', Welcome);
  }

  // One more stream set up, with the server controller not scheduled.
  lemma SetUpOne(cfg: Config, r: Run, k: nat, q: nat) returns (r': Run)
    requires Trace(cfg, r) && SetUp(Last(cfg, r), k, q) && k < Total(cfg)
    requires q < INTERNAL_PROT_BUFFER
    ensures Trace(cfg, r') && SetUp(Last(cfg, r'), k + 1, q + 1)
    ensures Last(cfg, r').server.queue == Last(cfg, r).server.queue + [CreateStream(k)]
    ensures Orderly(r) && Rested(r) ==> Orderly(r')
  {
    hide Last, IsRun, Smooth, Orderly, Rested;
    r' := DialUp(cfg, r, k, q);
    var s1 := Last(cfg, r');
    assert Enabled(cfg, s1, Enqueue);
    r' := GoOn(cfg, r', Enqueue);
    var s2 := Last(cfg, r');
    assert s2 == s1.(accept := Idle, server := s1.server.(queue := s1.server.queue + [CreateStream(k)]));
    ClientShape(cfg, r');
    assert Enabled(cfg, s2, RecvWelcome);
    r' := GoOn(cfg, r', RecvWelcome);
  }

  // Registering gives the client one stream more, under the next id.
  lemma ClientShape(cfg: Config, r: Run)
    requires Total(cfg) >= 1 && Trace(cfg, r) && Last(cfg, r).client.pc.AwaitWelcome?
    ensures var n := Last(cfg, r).client; var m := Register(cfg, n, |n.streams|);
            && |n.streams| == |n.workers| && |m.streams| == |n.streams| + 1
            && m == n.(streams := m.streams, workers := m.workers)
  {
    hide Last, IsRun, Smooth, Orderly, Rested, Inv, NodeOk, Register, Registering;
    EveryRunIsSafe(cfg, r);
    Parts(cfg, Last(cfg, r));
    DiallingClient(cfg, Last(cfg, r).client);
    RegisterShape(cfg, Last(cfg, r).client);
  }

  // Registering gives the server one stream more, under the next id.
  lemma ServerShape(cfg: Config, r: Run)
    requires Total(cfg) >= 1 && Trace(cfg, r)
    requires var s := Last(cfg, r); CanRecvInternal(s, Server) && s.server.state.CreateStreams?
    ensures var n := Last(cfg, r).server; var q := n.(queue := n.queue[1..]);
            var m := Register(cfg, q, |n.streams|);
            && n.role.Server? && n.queue[0] == CreateStream(|n.streams|)
            && |n.streams| == |n.workers| && |m.streams| == |m.workers| == |n.streams| + 1
            && m == q.(streams := m.streams, workers := m.workers)
  {
    hide Last, IsRun, Smooth, Orderly, Rested, Inv, NodeOk, HandshakeOk, Register, Registering;
    EveryRunIsSafe(cfg, r);
    var s := Last(cfg, r);
    Parts(cfg, s);
    AcceptQueue(cfg, s);
    ServerPhase(cfg, s.server);
    RegisteringServer(cfg, s.server);
    RegisteringAgain(s.server);
    RegisterShape(cfg, s.server.(queue := s.server.queue[1..]));
  }

  lemma ServerPhase(cfg: Config, n: Node)
    requires NodeOk(cfg, n)
    ensures PhaseOk(cfg, n)
  {
    hide PhaseOk, WorkersOk, NothingLost, PcOk;
  }

  // The server controller registers the stream at the head of its queue, which is not the last.
  lemma RegisterOne(cfg: Config, r: Run, k: nat) returns (r': Run)
    requires Trace(cfg, r) && SetUp(Last(cfg, r), k, 1) && k < Total(cfg)
    ensures Trace(cfg, r') && SetUp(Last(cfg, r'), k, 0)
    ensures Orderly(r) ==> Orderly(r') && Rested(r')
  {
    hide Last, IsRun, Smooth, Orderly, Rested, Register;
    ServerShape(cfg, r);
    assert TotalNeededStreams(cfg, Server) == Total(cfg);
    r' := GoOn(cfg, r, RecvInternal(Server));
    r' := GoOn(cfg, r', Head(Server));
  }


  // ------------------------------------------------------------------ the load is on

  // The load is on, and from stream `j` on every stream is active and no worker has moved.
  ghost predicate Ready(cfg: Config, n: Node, j: nat) {
    && n.state.Running? && n.prior.Running? && n.pc.Recv?
    && |n.workers| == Total(cfg) && (forall id: nat | j <= id < Total(cfg) :: id in n.streams)
    && (forall t: nat | j <= t < |n.workers| :: n.workers[t].pc.WaitStart? && n.workers[t].inbox == [StartLoad])
  }

  lemma ReadyAfter(cfg: Config, r: Run, role: Role)
    requires Total(cfg) >= 1 && Trace(cfg, r)
    requires var n := NodeOf(Last(cfg, r), role); n.state.Running? && !n.prior.Running?
    ensures var n := NodeOf(Last(cfg, r), role);
            && Ready(cfg, HeadOf(n), 0) && HeadOf(n).queue == n.queue && HeadOf(n).lost == {}
            && HeadOf(n).streams.Keys == Below(Total(cfg))
  {
    hide Last, IsRun, Smooth, Orderly, Rested, Inv, HandshakeOk, ChannelOk, PipesOk, Broadcast, NothingLost, PcOk;
    EveryRunIsSafe(cfg, r);
    Parts(cfg, Last(cfg, r));
    var n := NodeOf(Last(cfg, r), role);
    var m := n.(iters := n.iters + 1);
    assert Registering(m);
    StartLoadReaches(cfg, m);
    BroadcastOnlyWorkers(m, StartLoad);
    forall t: nat | t < |n.workers|
      ensures HeadOf(n).workers[t].pc.WaitStart? && HeadOf(n).workers[t].inbox == [StartLoad]
    {
      assert WorkerOk(cfg, n.role, t, Broadcast(m, StartLoad).workers[t]);
    }
  }

  lemma BroadcastOnlyWorkers(n: Node, m: WorkerMessage)
    ensures Broadcast(n, m) == n.(workers := Broadcast(n, m).workers)
  {
  }

  // Both sides are under load, the accept loop idles.
  ghost predicate BothReady(cfg: Config, s: World, j: nat) {
    && s.accept.Idle? && s.server.role.Server? && s.client.role.Client?
    && Ready(cfg, s.server, j) && Ready(cfg, s.client, j)
  }

  lemma Setting(cfg: Config) returns (r: Run)
    requires Total(cfg) >= 1
    ensures Trace(cfg, r) && SetUp(Last(cfg, r), Total(cfg), 1)
    ensures Orderly(r)
  {
    hide Last, IsRun, Smooth, Orderly, Rested, SetUp;
    r := Prelude(cfg);
    for k := 0 to Total(cfg) - 1
      invariant Trace(cfg, r) && Orderly(r) && Rested(r) && SetUp(Last(cfg, r), k, 0)
    {
      r := SetUpOne(cfg, r, k, 0);
      r := RegisterOne(cfg, r, k + 1);
    }
    r := SetUpOne(cfg, r, Total(cfg) - 1, 0);
  }

  // The last stream opens the barrier.
  lemma RegisterLast(cfg: Config, r: Run) returns (r': Run)
    requires Total(cfg) >= 1 && Trace(cfg, r) && SetUp(Last(cfg, r), Total(cfg), 1)
    ensures Trace(cfg, r') && Last(cfg, r').accept.Idle? && Last(cfg, r').client == Last(cfg, r).client
    ensures var n := Last(cfg, r').server;
            && Ready(cfg, n, 0) && n.queue == [] && n.lost == {} && n.role.Server?
            && n.streams.Keys == Below(Total(cfg))
    ensures Orderly(r) ==> Orderly(r')
  {
    hide Last, IsRun, Smooth, Orderly, Rested, Register, HeadOf;
    ServerShape(cfg, r);
    assert TotalNeededStreams(cfg, Server) == Total(cfg);
    r' := GoOn(cfg, r, RecvInternal(Server));
    ReadyAfter(cfg, r', Server);
    KeepsRole(Last(cfg, r').server);
    r' := GoOn(cfg, r', Head(Server));
  }

  lemma KeepsRole(n: Node)
    ensures HeadOf(n).role == n.role
  {
  }

  // What the client hears next.
  lemma NextHeard(cfg: Config, s: World)
    requires Inv(cfg, s) && s.client.pc.Recv?
    ensures s.client.state.CreateStreams? && s.server.state.Running? ==>
              CanRecvServer(s) && s.toClient[0] == SetState(Running)
    ensures s.client.state.Running? && s.server.state.ExchangeResults? ==>
              CanRecvServer(s) && s.toClient[0] == SetState(ExchangeResults)
  {
    hide NodesOk, HandshakeOk, PipesOk;
  }

  // Both sides have all their streams and have told them to start; none has.
  lemma BothLoaded(cfg: Config) returns (r: Run)
    requires Total(cfg) >= 1
    ensures Trace(cfg, r) && BothReady(cfg, Last(cfg, r), 0)
    ensures Last(cfg, r).server.queue == [] && Last(cfg, r).server.lost == {}
    ensures Last(cfg, r).server.streams.Keys == Below(Total(cfg))
    ensures Orderly(r)
  {
    hide Last, IsRun, Smooth, Orderly, Rested, Inv, HeadOf, Ready;
    r := Setting(cfg);
    r := RegisterLast(cfg, r);
    r := GoOn(cfg, r, FinishCreating);
    EveryRunIsSafe(cfg, r);
    ServerIsRunning(cfg, Last(cfg, r).server);
    NextHeard(cfg, Last(cfg, r));
    r := GoOn(cfg, r, RecvServer);
    ReadyAfter(cfg, r, Client);
    KeepsRole(Last(cfg, r).client);
    r := GoOn(cfg, r, Head(Client));
  }

  lemma ServerIsRunning(cfg: Config, n: Node)
    requires Ready(cfg, n, 0)
    ensures n.state.Running?
  {
  }

  // ------------------------------------------------------- a worker starts and returns

  // The node after its worker `j` started, moved nothing and returned.
  function Back(n: Node, j: nat): Node
    requires j < |n.workers| && n.workers[j].inbox != []
  {
    var w := n.workers[j];
    Returned(n.(workers := n.workers[j := w.(inbox := w.inbox[1..])]), j, Ok(StatsOf(w)))
  }

  lemma BackIsReady(cfg: Config, n: Node, j: nat)
    requires Ready(cfg, n, j) && j < Total(cfg)
    ensures Ready(cfg, Back(n, j), j + 1)
    ensures Back(n, j) == n.(workers := Back(n, j).workers, queue := Back(n, j).queue, lost := Back(n, j).lost)
    ensures Back(n, j).workers[j].pc == Done(Ok(StatsOf(n.workers[j])))
    ensures Back(n, j).workers[j].bytes == n.workers[j].bytes
  {
  }

  // Task `j` is stream `j` of its side, on an existing connection, waiting to start.
  lemma Startable(cfg: Config, r: Run, role: Role, j: nat)
    requires Total(cfg) >= 1 && Trace(cfg, r) && j < Total(cfg)
    requires Ready(cfg, NodeOf(Last(cfg, r), role), j)
    ensures CanStart(Last(cfg, r), role, j)
    ensures WorkerOk(cfg, role, j, TaskOf(Last(cfg, r), role, j))
  {
    hide Last, IsRun, Smooth, Orderly, Rested, Inv, HandshakeOk, ChannelOk, PipesOk, NodeOk, WorkerOk;
    var s := Last(cfg, r);
    EveryRunIsSafe(cfg, r);
    Parts(cfg, s);
    WorkersHaveConns(cfg, s);
    TaskAt(cfg, s, role, j);
  }

  lemma SenderStops(cfg: Config, s: World, role: Role, j: nat)
    requires s.accept.Idle? && CanStart(s, role, j) && TaskOf(s, role, j).sending && NodeOf(s, role).pc.Recv?
    ensures var s1 := DoStart(s, role, j);
            && Enabled(cfg, s, Start(role, j)) && Next(cfg, s, Start(role, j)) == s1
            && Enabled(cfg, s1, Stop(role, j))
            && var s2 := Next(cfg, s1, Stop(role, j));
            && s2.accept.Idle? && NodeOf(s2, Other(role)) == NodeOf(s, Other(role))
            && NodeOf(s2, role) == Back(NodeOf(s, role), j)
  {
    var w, n := TaskOf(s, role, j), NodeOf(s, role);
    var started := w.(pc := Transfer, inbox := w.inbox[1..]);
    var done := w.(pc := Done(Ok(StatsOf(w))), inbox := w.inbox[1..]);
    assert n.workers[j := started][j := done] == n.workers[j := done];
    assert n.workers[j := w.(inbox := w.inbox[1..])][j := done] == n.workers[j := done];
  }

  lemma SenderReturns(cfg: Config, r: Run, role: Role, j: nat) returns (r': Run)
    requires Total(cfg) >= 1 && Trace(cfg, r) && Last(cfg, r).accept.Idle?
    requires Ready(cfg, NodeOf(Last(cfg, r), role), j) && j < Total(cfg) && IsSending(cfg, role, j)
    ensures Trace(cfg, r') && Last(cfg, r').accept.Idle?
    ensures NodeOf(Last(cfg, r'), Other(role)) == NodeOf(Last(cfg, r), Other(role))
    ensures NodeOf(Last(cfg, r'), role) == Back(NodeOf(Last(cfg, r), role), j)
    ensures Orderly(r) ==> Orderly(r')
  {
    hide Last, IsRun, Smooth, Orderly, Rested, IsSending, Enabled, Next, Back, DoStart;
    Startable(cfg, r, role, j);
    SenderStops(cfg, Last(cfg, r), role, j);
    r' := GoOn(cfg, r, Start(role, j));
    r' := GoOn(cfg, r', Stop(role, j));
  }

  // Past the hot loop, having moved nothing.
  function Draining(w: Worker): Worker
    requires w.inbox != []
  {
    w.(pc := Drain, inbox := w.inbox[1..])
  }

  lemma ReceiverLeaves(cfg: Config, s: World, role: Role, j: nat)
    requires s.accept.Idle? && CanStart(s, role, j) && !TaskOf(s, role, j).sending
    ensures var s1 := DoStart(s, role, j);
            && Enabled(cfg, s, Start(role, j)) && Next(cfg, s, Start(role, j)) == s1
            && Enabled(cfg, s1, Stop(role, j))
            && Next(cfg, s1, Stop(role, j)) == WithTask(s, role, j, Draining(TaskOf(s, role, j)))
  {
    var w := TaskOf(s, role, j);
    var n := NodeOf(s, role);
    assert n.workers[j := w.(pc := Transfer, inbox := w.inbox[1..])][j := Draining(w)] == n.workers[j := Draining(w)];
  }

  lemma DrainerReturns(cfg: Config, s: World, role: Role, j: nat)
    requires s.accept.Idle? && CanStart(s, role, j) && NodeOf(s, role).pc.Recv?
    requires ReadsNothing(cfg, Source(s, role, j))
    ensures var s2 := WithTask(s, role, j, Draining(TaskOf(s, role, j)));
            && Enabled(cfg, s2, DrainEof(role, j))
            && var s3 := Next(cfg, s2, DrainEof(role, j));
            && s3.accept.Idle? && NodeOf(s3, Other(role)) == NodeOf(s, Other(role))
            && NodeOf(s3, role) == Back(NodeOf(s, role), j)
  {
    var w, n := TaskOf(s, role, j), NodeOf(s, role);
    var s2 := WithTask(s, role, j, Draining(w));
    assert Source(s2, role, j) == Source(s, role, j);
    var done := w.(pc := Done(Ok(StatsOf(w))), inbox := w.inbox[1..]);
    assert n.workers[j := Draining(w)][j := done] == n.workers[j := done];
    assert n.workers[j := w.(inbox := w.inbox[1..])][j := done] == n.workers[j := done];
  }

  lemma ReceiverDrains(cfg: Config, r: Run, role: Role, j: nat) returns (r': Run)
    requires Trace(cfg, r) && Last(cfg, r).accept.Idle?
    requires CanStart(Last(cfg, r), role, j) && !TaskOf(Last(cfg, r), role, j).sending
    ensures Trace(cfg, r') && (Orderly(r) ==> Orderly(r'))
    ensures Last(cfg, r') == WithTask(Last(cfg, r), role, j, Draining(TaskOf(Last(cfg, r), role, j)))
  {
    hide Trace, Last, IsRun, Orderly, Rested, Enabled, Next, DoStart, WithTask;
    ReceiverLeaves(cfg, Last(cfg, r), role, j);
    r' := GoOn(cfg, r, Start(role, j));
    r' := GoOn(cfg, r', Stop(role, j));
  }

  lemma ReceiverReturns(cfg: Config, r: Run, role: Role, j: nat) returns (r': Run)
    requires Total(cfg) >= 1 && Trace(cfg, r) && Last(cfg, r).accept.Idle?
    requires Ready(cfg, NodeOf(Last(cfg, r), role), j) && j < Total(cfg) && !IsSending(cfg, role, j)
    requires HasTask(Last(cfg, r), role, j) && ReadsNothing(cfg, Source(Last(cfg, r), role, j))
    ensures Trace(cfg, r') && Last(cfg, r').accept.Idle?
    ensures NodeOf(Last(cfg, r'), Other(role)) == NodeOf(Last(cfg, r), Other(role))
    ensures NodeOf(Last(cfg, r'), role) == Back(NodeOf(Last(cfg, r), role), j)
    ensures Orderly(r) ==> Orderly(r')
  {
    hide Trace, Last, IsRun, Orderly, Rested, IsSending, Enabled, Next, Back, ReadsNothing, WithTask;
    Startable(cfg, r, role, j);
    DrainerReturns(cfg, Last(cfg, r), role, j);
    r' := ReceiverDrains(cfg, r, role, j);
    r' := GoOn(cfg, r', DrainEof(role, j));
  }

  // Stream `j` of the server starts, moves nothing and returns: a sender at once, a receiver after
  // its sender on the client did the same.
  lemma StreamReturns(cfg: Config, r: Run, j: nat) returns (r': Run)
    requires Total(cfg) >= 1 && Trace(cfg, r) && BothReady(cfg, Last(cfg, r), j) && j < Total(cfg)
    ensures Trace(cfg, r') && BothReady(cfg, Last(cfg, r'), j + 1)
    ensures Last(cfg, r').server == Back(Last(cfg, r).server, j)
    ensures Orderly(r) ==> Orderly(r')
  {
    hide Last, IsRun, Smooth, Orderly, Rested, IsSending, Ready, Back;
    BackFrame(cfg, Last(cfg, r).server, j);
    if IsSending(cfg, Server, j) {
      r' := SenderReturns(cfg, r, Server, j);
    } else {
      RolesAreComplementary(cfg, j);
      BackFrame(cfg, Last(cfg, r).client, j);
      var r1 := SenderReturns(cfg, r, Client, j);
      SourceIsClosed(cfg, r, r1, j);
      r' := ReceiverReturns(cfg, r1, Server, j);
    }
    StillReady(cfg, Last(cfg, r).client, j);
  }

  lemma BackFrame(cfg: Config, n: Node, j: nat)
    requires Ready(cfg, n, j) && j < Total(cfg)
    ensures j < |n.workers| && n.workers[j].inbox != []
    ensures Ready(cfg, Back(n, j), j + 1) && Back(n, j).role == n.role
  {
  }

  lemma StillReady(cfg: Config, n: Node, j: nat)
    requires Ready(cfg, n, j)
    ensures Ready(cfg, n, j + 1)
  {
  }

  // The client's end hung up without having written.
  lemma SourceIsClosed(cfg: Config, r: Run, r1: Run, j: nat)
    requires Total(cfg) >= 1 && Trace(cfg, r) && Trace(cfg, r1) && j < Total(cfg)
    requires Ready(cfg, Last(cfg, r).client, j) && Ready(cfg, Last(cfg, r1).server, j)
    requires j < |Last(cfg, r).client.workers| && Last(cfg, r).client.workers[j].inbox != []
    requires Last(cfg, r1).client == Back(Last(cfg, r).client, j)
    ensures HasTask(Last(cfg, r1), Server, j) && Source(Last(cfg, r1), Server, j) == Pipe(0, true)
  {
    hide Last, IsRun, Smooth, Orderly, Rested, IsSending, Inv, NodeOk, HandshakeOk, ChannelOk, PipesOk;
    Startable(cfg, r, Client, j);
    Startable(cfg, r1, Server, j);
    EveryRunIsSafe(cfg, r1);
    BackIsReady(cfg, Last(cfg, r).client, j);
    EveryRunIsSafe(cfg, r);
    TaskAt(cfg, Last(cfg, r1), Client, j) by { HasConn(cfg, Last(cfg, r1), j); }
  }

  lemma HasConn(cfg: Config, s: World, j: nat)
    requires HasTask(s, Server, j) && TaskOf(s, Server, j).conn == j
    ensures j < |s.conns|
  {
  }
}
