/** The steps of the controllers from the head of the loop to the exchange of results. */
module ExchangeSafety {
  import opened Protocol
  import opened ProtocolInvariant
  import opened NodeSafety
  import opened ControllerSafety
  import opened Ids

  // ------------------------------------------------------------ the head of the loop

  // A server that announces a state and adopts it; the new node differs in what `m` says.
  lemma EnterChannel(s: World, m: Node, state: TestState)
    requires ChannelOk(s)
    requires !s.server.pc.Finished? && !m.pc.Finished?
    requires Announcements(state) == Announcements(s.server.state) + [state]
    requires !Exchanging(s.client.pc)
    ensures ChannelOk(Enter(s, Server, m, state))
  {
  }

  // The client has not begun the exchange before the server announced it.
  lemma ClientNotAhead(cfg: Config, s: World)
    requires Inv(cfg, s) && !s.server.state.ExchangeResults?
    ensures !Exchanging(s.client.pc) && !s.client.state.ExchangeResults? && !s.server.pc.Finished?
  {
    hide WorkersOk, NothingLost, PhaseOk, HandshakeOk, PipesOk;
  }

  lemma FirstAnnouncement(cfg: Config, n: Node)
    requires Total(cfg) >= 1 && NodeOk(cfg, n) && n.role.Server? && n.state.TestStart?
    ensures NodeOk(cfg, HeadOf(n).(state := CreateStreams))
    ensures n.workers == [] && n.queue == []
  {
  }

  lemma HeadServerStarts(cfg: Config, s: World)
    requires Total(cfg) >= 1 && Inv(cfg, s) && CanHead(s, Server) && s.server.state.TestStart?
    ensures Inv(cfg, LoopHead(s, Server))
  {
    hide Inv, NodeOk, PipesOk, ChannelOk;
    Parts(cfg, s);
    FirstAnnouncement(cfg, s.server);
    ClientNotAhead(cfg, s);
    EnterChannel(s, HeadOf(s.server), CreateStreams);
    PipesFrame(cfg, s, LoopHead(s, Server));
    Whole(cfg, LoopHead(s, Server));
  }

  lemma HeadFrames(cfg: Config, n: Node)
    requires NodeOk(cfg, n) && n.pc.Top? && !(n.role.Server? && n.state.TestStart?)
    ensures var m := HeadOf(n);
            && SameCounters(n.workers, m.workers) && m.state == n.state && m.role == n.role
            && m.queue == n.queue && !Dialled(m.pc) && !Exchanging(m.pc)
  {
    hide NodeOk;
  }

  lemma HeadStep(cfg: Config, s: World, role: Role)
    requires Total(cfg) >= 1 && Inv(cfg, s) && CanHead(s, role)
    requires !(role.Server? && s.server.state.TestStart?)
    ensures Inv(cfg, LoopHead(s, role))
  {
    hide Inv, NodeOk, HandshakeOk, PipesOk, ChannelOk, HeadOf;
    Parts(cfg, s);
    HeadKeepsNode(cfg, NodeOf(s, role));
    HeadFrames(cfg, NodeOf(s, role));
    HandshakeFrame(cfg, s, LoopHead(s, role), role);
    PipesFrame(cfg, s, LoopHead(s, role));
    ChannelFrame(s, LoopHead(s, role));
    Whole(cfg, LoopHead(s, role));
  }

  // ------------------------------------------------------------ accepting a stream

  lemma AcceptQueue(cfg: Config, s: World)
    requires HandshakeOk(cfg, s) && s.server.queue != []
    requires s.server.state.CreateStreams?
    ensures s.server.queue[0] == CreateStream(|s.server.workers|)
    ensures |s.server.workers| < Total(cfg)
  {
  }

  // A registered stream, the last one or not.
  lemma ServerRegisters(cfg: Config, n: Node)
    requires NodeOk(cfg, n) && n.role.Server? && n.state.CreateStreams? && n.pc.Recv? && n.queue != []
    requires n.queue[0] == CreateStream(|n.workers|)
    ensures var q := n.(queue := n.queue[1..]);
            var m := Register(cfg, q, |n.workers|).(pc := Top);
            && WorkersOk(cfg, n.role, m.workers) && Registering(m) && NothingLost(cfg, m)
            && |m.workers| == |n.workers| + 1 == |m.streams|
            && m == n.(queue := n.queue[1..], pc := Top, workers := m.workers, streams := m.streams)
            && m.workers[..|n.workers|] == n.workers
            && m.workers[|n.workers|].pc.WaitStart? && m.workers[|n.workers|].bytes == 0
            && m.workers[|n.workers|].drained == 0
            && (|m.workers| < Total(cfg) ==> NodeOk(cfg, m))
            && (|m.workers| == Total(cfg) && m.queue == [] ==> NodeOk(cfg, m.(state := Running)))
  {
    hide WorkersOk, Register, Registering, NodeOk;
    var q := n.(queue := n.queue[1..]);
    RegisteringNode(cfg, n);
    RegisterShape(cfg, q);
    RegisterKeeps(cfg, q, Top);
    OneMoreStream(cfg, n, Register(cfg, q, |n.workers|).(pc := Top));
  }

  lemma RegisteringNode(cfg: Config, n: Node)
    requires NodeOk(cfg, n) && n.state.CreateStreams? && n.queue != []
    ensures Registering(n.(queue := n.queue[1..])) && WorkersOk(cfg, n.role, n.workers)
    ensures NothingLost(cfg, n.(queue := n.queue[1..])) && PcOk(cfg, n)
  {
    hide WorkersOk, PcOk;
  }

  lemma OneMoreStream(cfg: Config, n: Node, m: Node)
    requires ServerPc(cfg, n) && n.role.Server? && n.state.CreateStreams? && n.pc.Recv? && n.queue != []
    requires WorkersOk(cfg, n.role, m.workers) && Registering(m) && NothingLost(cfg, m)
    requires |m.workers| == |n.workers| + 1
    requires m == n.(queue := n.queue[1..], pc := Top, workers := m.workers, streams := m.streams)
    ensures |m.workers| < Total(cfg) ==> NodeOk(cfg, m)
    ensures |m.workers| == Total(cfg) && m.queue == [] ==> NodeOk(cfg, m.(state := Running))
  {
    hide WorkersOk, AllSent, AllWaiting, Below;
  }

  lemma RegisterHandshake(cfg: Config, s: World, m: Node)
    requires HandshakeOk(cfg, s) && s.server.state.CreateStreams? && s.server.queue != []
    requires m == s.server.(queue := s.server.queue[1..], pc := Top, workers := m.workers,
                            streams := m.streams)
    requires |m.workers| == |s.server.workers| + 1
    ensures |m.workers| < Total(cfg) ==> HandshakeOk(cfg, s.(server := m))
    ensures |m.workers| == Total(cfg) ==> m.queue == [] && HandshakeOk(cfg, Enter(s, Server, m, Running))
  {
  }

  lemma AcceptStreamKeeps(cfg: Config, s: World)
    requires Inv(cfg, s) && CanRecvInternal(s, Server) && s.server.state.CreateStreams?
    ensures Inv(cfg, ReceiveInternal(cfg, s, Server))
  {
    hide Inv, NodeOk, HandshakeOk, PipesOk, ChannelOk, Register, Registering, WorkersOk, NothingLost;
    Parts(cfg, s);
    AcceptQueue(cfg, s);
    ServerRegisters(cfg, s.server);
    var n := s.server.(queue := s.server.queue[1..]);
    var m := Register(cfg, n, |s.server.workers|).(pc := Top);
    RegisterHandshake(cfg, s, m);
    var s' := ReceiveInternal(cfg, s, Server);
    PipesWithNewWorker(cfg, s, s', Server);
    if |m.workers| == Total(cfg) {
      ClientNotAhead(cfg, s);
      EnterChannel(s, m, Running);
    } else {
      ChannelFrame(s, s');
    }
    Whole(cfg, s');
  }

  // ---------------------------------------------------------- joining a stream

  // Under load the only messages are notifications about active streams.
  lemma LoadMessages(cfg: Config, n: Node)
    requires NodeOk(cfg, n) && n.pc.Recv? && n.queue != [] && !n.state.CreateStreams?
    ensures UnderLoad(cfg, n) && n.state.Running? && n.prior.Running?
    ensures NodeOk(cfg, Popped(n, n.queue[0].id)) && n.queue[0].StreamTerminated? && n.queue[0].id in n.streams
  {
    hide WorkersOk, Registering, WindingUp, Accounted, Notified, QueueOk, AllSent;
    PopUnderLoad(cfg, n);
  }

  lemma PopKeeps(cfg: Config, s: World, role: Role)
    requires Inv(cfg, s) && CanRecvInternal(s, role) && !NodeOf(s, role).state.CreateStreams?
    ensures Inv(cfg, ReceiveInternal(cfg, s, role))
  {
    hide Inv, NodeOk, HandshakeOk, PipesOk, ChannelOk, UnderLoad;
    Parts(cfg, s);
    LoadMessages(cfg, NodeOf(s, role));
    var s' := ReceiveInternal(cfg, s, role);
    HandshakeFrame(cfg, s, s', role);
    PipesFrame(cfg, s, s');
    ChannelFrame(s, s');
    Whole(cfg, s');
  }

  lemma ClientQueueEmpty(cfg: Config, n: Node)
    requires NodeOk(cfg, n) && n.role.Client? && n.state.CreateStreams?
    ensures n.queue == []
  {
    hide WorkersOk, Registering, PhaseOk;
  }

  lemma JoinState(cfg: Config, n: Node)
    requires NodeOk(cfg, n) && n.pc.Join?
    ensures CanJoin(n) && UnderLoad(cfg, n) && n.state.Running? && n.prior.Running?
  {
    hide WorkersOk;
  }

  lemma JoinKeepsNode(cfg: Config, n: Node)
    requires NodeOk(cfg, n) && CanJoin(n)
    ensures n.role.Client? || n.streams != map[] ==> NodeOk(cfg, JoinedTop(n))
    ensures n.role.Server? && n.streams == map[] ==> NodeOk(cfg, JoinedTop(n).(state := ExchangeResults))
  {
    hide WorkersOk, Registering, UnderLoad;
    JoinState(cfg, n);
    JoinUnderLoad(cfg, n);
    JoinWindsUp(cfg, JoinedTop(n));
  }

  lemma JoinWindsUp(cfg: Config, n: Node)
    requires UnderLoad(cfg, n) && n.pc.Top?
    ensures WindingUp(cfg, n.(state := ExchangeResults)) && UnderLoad(cfg, n.(state := ExchangeResults))
    ensures n.timedOut == {}
  {
    hide QueueOk;
  }

  lemma FinaliseHandshake(cfg: Config, s: World, m: Node)
    requires HandshakeOk(cfg, s) && s.server.state.Running?
    requires m.workers == s.server.workers
    ensures HandshakeOk(cfg, Enter(s, Server, m, ExchangeResults))
  {
  }

  lemma JoinChannel(cfg: Config, s: World, role: Role)
    requires Inv(cfg, s) && CanJoin(NodeOf(s, role)) && NodeOf(s, role).state.Running?
    requires NodeOf(s, role).role == role
    ensures ChannelOk(DoJoin(s, role)) && HandshakeOk(cfg, DoJoin(s, role))
  {
    hide Inv, NodeOk, HandshakeOk, PipesOk, ChannelOk;
    Parts(cfg, s);
    var n := NodeOf(s, role);
    if role.Server? && n.streams == map[] {
      FinaliseHandshake(cfg, s, JoinedTop(n));
      ClientNotAhead(cfg, s);
      EnterChannel(s, JoinedTop(n), ExchangeResults);
    } else {
      HandshakeFrame(cfg, s, DoJoin(s, role), role);
      ChannelFrame(s, DoJoin(s, role));
    }
  }

  lemma JoinKeeps(cfg: Config, s: World, role: Role)
    requires Inv(cfg, s) && CanJoin(NodeOf(s, role))
    ensures Inv(cfg, DoJoin(s, role))
  {
    hide Inv, NodeOk, HandshakeOk, PipesOk, ChannelOk, UnderLoad;
    Parts(cfg, s);
    JoinState(cfg, NodeOf(s, role));
    JoinKeepsNode(cfg, NodeOf(s, role));
    JoinChannel(cfg, s, role);
    PipesFrame(cfg, s, DoJoin(s, role));
    Whole(cfg, DoJoin(s, role));
  }

  // ------------------------------------------------------------ collecting

  lemma CollectState(cfg: Config, n: Node)
    requires NodeOk(cfg, n) && n.pc.Collecting?
    ensures n.state.ExchangeResults? && WindingUp(cfg, n)
    ensures n.role.Server? ==> n.streams == map[]
  {
    hide WorkersOk, UnderLoad;
  }

  lemma CollectJoinNode(cfg: Config, n: Node, id: nat)
    requires NodeOk(cfg, n) && CanCollectJoin(n, id)
    ensures NodeOk(cfg, DoCollectJoin(n, id))
  {
    hide WorkersOk, UnderLoad, WindingUp, Registering;
    CollectState(cfg, n);
    CollectJoinWindingUp(cfg, n, id);
  }

  lemma CollectTimeoutNode(cfg: Config, n: Node, id: nat)
    requires NodeOk(cfg, n) && CanCollectTimeout(n, id)
    ensures NodeOk(cfg, DoCollectTimeout(n, id))
  {
    hide WorkersOk, UnderLoad, WindingUp, Registering;
    CollectState(cfg, n);
    CollectTimeoutWindingUp(cfg, n, id);
  }

  lemma CollectJoinKeeps(cfg: Config, s: World, role: Role, id: nat)
    requires Inv(cfg, s) && CanCollectJoin(NodeOf(s, role), id)
    ensures Inv(cfg, WithNode(s, role, DoCollectJoin(NodeOf(s, role), id)))
  {
    hide Inv, NodeOk, HandshakeOk, PipesOk, ChannelOk;
    Parts(cfg, s);
    var s' := WithNode(s, role, DoCollectJoin(NodeOf(s, role), id));
    CollectJoinNode(cfg, NodeOf(s, role), id);
    HandshakeFrame(cfg, s, s', role);
    PipesFrame(cfg, s, s');
    ChannelFrame(s, s');
    Whole(cfg, s');
  }

  lemma CollectTimeoutKeeps(cfg: Config, s: World, role: Role, id: nat)
    requires Inv(cfg, s) && CanCollectTimeout(NodeOf(s, role), id)
    ensures Inv(cfg, WithNode(s, role, DoCollectTimeout(NodeOf(s, role), id)))
  {
    hide Inv, NodeOk, HandshakeOk, PipesOk, ChannelOk;
    Parts(cfg, s);
    var s' := WithNode(s, role, DoCollectTimeout(NodeOf(s, role), id));
    CollectTimeoutNode(cfg, NodeOf(s, role), id);
    HandshakeFrame(cfg, s, s', role);
    PipesFrame(cfg, s, s');
    ChannelFrame(s, s');
    Whole(cfg, s');
  }

  lemma CollectDoneNode(cfg: Config, n: Node)
    requires NodeOk(cfg, n) && CanCollectDone(n)
    ensures NodeOk(cfg, n.(pc := AwaitResults)) && n.state.ExchangeResults?
  {
    hide WorkersOk, UnderLoad, Registering, QueueOk;
  }

  lemma SentResults(s: World)
    requires ChannelOk(s) && CanCollectDone(s.client) && s.client.state.ExchangeResults? && s.client.role.Client?
    ensures ChannelOk(DoCollectDone(s, Client))
  {
  }

  lemma CollectDoneKeeps(cfg: Config, s: World, role: Role)
    requires Inv(cfg, s) && CanCollectDone(NodeOf(s, role))
    ensures Inv(cfg, DoCollectDone(s, role))
  {
    hide Inv, NodeOk, HandshakeOk, PipesOk, ChannelOk;
    Parts(cfg, s);
    var s' := DoCollectDone(s, role);
    CollectDoneNode(cfg, NodeOf(s, role));
    HandshakeFrame(cfg, s, WithNode(s, role, NodeOf(s', role)), role);
    PipesFrame(cfg, s, s');
    if role.Client? { SentResults(s); } else { ChannelFrame(s, s'); }
    Whole(cfg, s') by { SameHandshake(cfg, WithNode(s, role, NodeOf(s', role)), s'); }
  }

  // The handshake does not look at the control connection.
  lemma SameHandshake(cfg: Config, s: World, s': World)
    requires HandshakeOk(cfg, s)
    requires s' == s.(toClient := s'.toClient, toServer := s'.toServer,
                         handled := s'.handled, announced := s'.announced)
    ensures HandshakeOk(cfg, s')
  {
  }

  // ------------------------------------------------------- exchanging the results

  lemma AwaitState(cfg: Config, n: Node)
    requires NodeOk(cfg, n) && n.pc.AwaitResults?
    ensures n.state.ExchangeResults?
    ensures forall r :: NodeOk(cfg, n.(pc := Finished(r)))
  {
    hide WorkersOk, UnderLoad, Registering, QueueOk;
  }

  // The client's results arrive, and nothing else does.
  lemma ServerReads(s: World)
    requires ChannelOk(s) && CanReadResults(s, Server) && s.server.state.ExchangeResults?
    ensures ChannelOk(DoReadResults(s, Server))
  {
  }

  // By then the client has handled every announcement, so the server's results are next.
  lemma ClientReads(s: World)
    requires ChannelOk(s) && CanReadResults(s, Client) && s.client.state.ExchangeResults?
    ensures ChannelOk(DoReadResults(s, Client)) && DoReadResults(s, Client).client.pc.Finished?
  {
  }

  lemma ReadResultsKeeps(cfg: Config, s: World, role: Role)
    requires Inv(cfg, s) && CanReadResults(s, role)
    ensures Inv(cfg, DoReadResults(s, role)) && NodeOf(DoReadResults(s, role), role).pc.Finished?
  {
    hide Inv, NodeOk, HandshakeOk, PipesOk, ChannelOk;
    Parts(cfg, s);
    var s' := DoReadResults(s, role);
    AwaitState(cfg, NodeOf(s, role));
    if role.Client? { ClientReads(s); } else { ServerReads(s); }
    HandshakeFrame(cfg, s, WithNode(s, role, NodeOf(s', role)), role);
    PipesFrame(cfg, s, s');
    SameHandshake(cfg, WithNode(s, role, NodeOf(s', role)), s');
    Whole(cfg, s');
  }

  // ------------------------------------------------- the client hears of a new state

  // The next announcement is the successor of the last one the client handled.
  lemma NextAnnouncement(cfg: Config, s: World)
    requires ChannelOk(s) && CanRecvServer(s) && ClientPc(cfg, s.client)
    ensures s.toClient[0].SetState? && ChannelOk(DoRecvServer(s))
    ensures Announcements(s.toClient[0].state) == Announcements(s.client.state) + [s.toClient[0].state]
  {
  }

  // Adopting the successor state.
  lemma ClientAdopts(cfg: Config, n: Node, state: TestState)
    requires NodeOk(cfg, n) && n.role.Client? && n.pc.Recv?
    requires Announcements(state) == Announcements(n.state) + [state]
    ensures NodeOk(cfg, n.(state := state, pc := Top))
  {
    hide WorkersOk, PhaseOk, ServerPc;
    AdoptedPhase(cfg, n, state);
    if n.state.TestStart? { FreshNode(cfg, n); }
  }

  lemma FreshNode(cfg: Config, n: Node)
    requires PhaseOk(cfg, n) && n.state.TestStart?
    ensures n.workers == [] && n.queue == [] && n.prior.TestStart? && Registering(n)
  {
  }

  lemma AdoptedPhase(cfg: Config, n: Node, state: TestState)
    requires PhaseOk(cfg, n) && ClientPc(cfg, n) && n.role.Client? && n.pc.Recv?
    requires Announcements(state) == Announcements(n.state) + [state]
    ensures PhaseOk(cfg, n.(state := state, pc := Top))
  {
    hide AllSent, AllWaiting, QueueOk, Below;
    match n.state
    case TestStart => FreshNode(cfg, n);
    case Running => LoadedWindsUp(cfg, n);
    case _ =>
  }

  lemma LoadedWindsUp(cfg: Config, n: Node)
    requires UnderLoad(cfg, n) && n.pc.Recv?
    ensures var m := n.(state := ExchangeResults, pc := Top); WindingUp(cfg, m) && UnderLoad(cfg, m)
  {
    hide QueueOk;
  }

  lemma RecvServerHandshake(cfg: Config, s: World)
    requires HandshakeOk(cfg, s) && CanRecvServer(s)
    ensures HandshakeOk(cfg, DoRecvServer(s))
  {
  }

  lemma RecvServerKeeps(cfg: Config, s: World)
    requires Inv(cfg, s) && CanRecvServer(s)
    ensures Inv(cfg, DoRecvServer(s)) && s.toClient[0].SetState?
  {
    hide Inv, HandshakeOk, PipesOk, ChannelOk, WorkersOk, PhaseOk, ClientPc, ServerPc, NothingLost;
    Parts(cfg, s);
    NextAnnouncement(cfg, s);
    ClientAdopts(cfg, s.client, s.toClient[0].state);
    RecvServerHandshake(cfg, s);
    PipesFrame(cfg, s, DoRecvServer(s));
    Whole(cfg, DoRecvServer(s));
  }
}
