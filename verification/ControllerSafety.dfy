/** Every step of a controller and of the accept loop keeps the invariant of the whole protocol. */
module ControllerSafety {
  import opened Protocol
  import opened ProtocolInvariant
  import opened NodeSafety
  import opened Ids

  lemma InitOk(cfg: Config)
    requires Total(cfg) >= 1
    ensures Inv(cfg, INIT)
  {
  }

  // --------------------------------------------------------------------- frames

  // Pipes only look at the counters and at which workers have returned.
  ghost predicate SameFlows(s: World, s': World) {
    && s'.conns == s.conns
    && SameCounters(s.server.workers, s'.server.workers)
    && SameCounters(s.client.workers, s'.client.workers)
  }

  ghost predicate SameCounters(ws: seq<Worker>, vs: seq<Worker>) {
    && |ws| == |vs|
    && forall t | 0 <= t < |ws| :: vs[t] == ws[t].(inbox := vs[t].inbox, sent := vs[t].sent)
  }

  lemma PipesFrame(cfg: Config, s: World, s': World)
    requires PipesOk(cfg, s) && SameFlows(s, s')
    ensures PipesOk(cfg, s')
  {
    forall r: Role, k: nat | k < |s'.conns| ensures FlowOk(cfg, s', r, k) {
      assert FlowOk(cfg, s, r, k);
    }
  }

  // A new worker on either side has moved nothing yet.
  lemma PipesWithNewWorker(cfg: Config, s: World, s': World, role: Role)
    requires PipesOk(cfg, s) && s'.conns == s.conns
    requires NodeOf(s', Other(role)).workers == NodeOf(s, Other(role)).workers
    requires var ws := NodeOf(s, role).workers; var vs := NodeOf(s', role).workers;
             && |vs| == |ws| + 1 && vs[..|ws|] == ws
             && vs[|ws|].pc.WaitStart? && vs[|ws|].bytes == 0 && vs[|ws|].drained == 0
    ensures PipesOk(cfg, s')
  {
    forall r: Role, k: nat | k < |s'.conns| ensures FlowOk(cfg, s', r, k) {
      assert FlowOk(cfg, s, r, k);
      var ws := NodeOf(s, role).workers; var vs := NodeOf(s', role).workers;
      assert k < |ws| ==> vs[k] == vs[..|ws|][k];
    }
  }

  ghost predicate SameButNode(s: World, s': World, role: Role) {
    s' == WithNode(s, role, NodeOf(s', role))
  }

  // The handshake does not look at iters, prior, results, inboxes and signals.
  lemma HandshakeFrame(cfg: Config, s: World, s': World, role: Role)
    requires HandshakeOk(cfg, s) && SameButNode(s, s', role)
    requires var n := NodeOf(s, role); var m := NodeOf(s', role);
             && |m.workers| == |n.workers| && m.state == n.state
             && (role.Server? ==> m.queue == n.queue || n.state.Running? || n.state.ExchangeResults?)
             && (role.Client? ==> m.pc == n.pc || (!Dialled(m.pc) && !Dialled(n.pc)))
    ensures HandshakeOk(cfg, s')
  {
  }

  predicate Dialled(pc: Pc) {
    pc.Greeting? || pc.AwaitWelcome?
  }

  predicate Exchanging(pc: Pc) {
    pc.AwaitResults? || pc.Finished?
  }

  // Nothing the control connection depends on: the states and how far the exchange got.
  ghost predicate SameStanding(n: Node, m: Node) {
    && m.state == n.state
    && (Exchanging(n.pc) ==> m.results == n.results && m.pc == n.pc)
    && (Exchanging(m.pc) ==> m.pc == n.pc || (m.role.Server? && m.pc.AwaitResults?))
  }

  lemma ChannelFrame(s: World, s': World)
    requires ChannelOk(s)
    requires s'.toClient == s.toClient && s'.toServer == s.toServer
    requires s'.announced == s.announced && s'.handled == s.handled
    requires s'.server.role.Server? && s'.client.role.Client?
    requires SameStanding(s.server, s'.server) && SameStanding(s.client, s'.client)
    ensures ChannelOk(s')
  {
  }

  // ------------------------------------------------------------- the handshake

  lemma Parts(cfg: Config, s: World)
    requires Inv(cfg, s)
    ensures s.server.role == Server && s.client.role == Client
    ensures NodeOk(cfg, s.server) && NodeOk(cfg, s.client)
    ensures HandshakeOk(cfg, s) && ChannelOk(s) && PipesOk(cfg, s)
  {
    hide NodeOk, HandshakeOk, ChannelOk, PipesOk;
  }

  lemma Whole(cfg: Config, s: World)
    requires s.server.role == Server && s.client.role == Client
    requires NodeOk(cfg, s.server) && NodeOk(cfg, s.client)
    requires HandshakeOk(cfg, s) && ChannelOk(s) && PipesOk(cfg, s)
    ensures Inv(cfg, s)
  {
    hide NodeOk, HandshakeOk, ChannelOk, PipesOk;
  }

  // While the client dials, it registers streams and has heard of CreateStreams only.
  lemma DiallingClient(cfg: Config, n: Node)
    requires NodeOk(cfg, n) && n.role.Client?
    requires n.pc.Creating? || Dialled(n.pc)
    ensures n.state.CreateStreams? && Registering(n) && |n.streams| == |n.workers| <= Total(cfg)
    ensures n.iters == 2 && n.prior.TestStart? && n.queue == []
  {
    hide WorkersOk, UnderLoad, WindingUp;
    MapCard(n.streams, |n.workers|);
  }

  // A change of the program counter alone.
  lemma ClientPcOnly(cfg: Config, n: Node, pc: Pc)
    requires NodeOk(cfg, n) && n.role.Client?
    requires n.pc.Creating? || Dialled(n.pc)
    requires pc.Creating? || Dialled(pc)
    ensures NodeOk(cfg, n.(pc := pc))
  {
    hide WorkersOk, UnderLoad, WindingUp;
  }

  lemma ConnectHandshake(cfg: Config, s: World)
    requires HandshakeOk(cfg, s) && CanConnect(cfg, s)
    requires |s.client.streams| == |s.client.workers|
    ensures HandshakeOk(cfg, DoConnect(s))
  {
  }

  lemma ConnectPipes(cfg: Config, s: World)
    requires PipesOk(cfg, s) && |s.server.workers| <= |s.conns| && |s.client.workers| <= |s.conns|
    ensures PipesOk(cfg, DoConnect(s))
  {
    var s' := DoConnect(s);
    forall r: Role, k: nat | k < |s'.conns| ensures FlowOk(cfg, s', r, k) {
      assert k < |s.conns| ==> FlowOk(cfg, s, r, k);
    }
  }

  lemma WorkersHaveConns(cfg: Config, s: World)
    requires HandshakeOk(cfg, s) && NodeOk(cfg, s.server)
    ensures |s.server.workers| <= |s.conns| && |s.client.workers| <= |s.conns|
  {
    hide WorkersOk, NothingLost, UnderLoad, WindingUp, Registering;
  }

  lemma ConnectKeeps(cfg: Config, s: World)
    requires Inv(cfg, s) && CanConnect(cfg, s)
    ensures Inv(cfg, DoConnect(s))
  {
    hide Inv, NodeOk, HandshakeOk, PipesOk, ChannelOk;
    Parts(cfg, s);
    DiallingClient(cfg, s.client);
    ClientPcOnly(cfg, s.client, Greeting(|s.conns|));
    ConnectHandshake(cfg, s);
    WorkersHaveConns(cfg, s);
    ConnectPipes(cfg, s);
    ChannelFrame(s, DoConnect(s));
    Whole(cfg, DoConnect(s));
  }

  lemma SendHelloHandshake(cfg: Config, s: World)
    requires HandshakeOk(cfg, s) && s.client.pc.Greeting?
    ensures HandshakeOk(cfg, DoSendHello(s))
  {
  }

  lemma SendHelloKeeps(cfg: Config, s: World)
    requires Inv(cfg, s) && s.client.pc.Greeting?
    ensures Inv(cfg, DoSendHello(s))
  {
    hide Inv, NodeOk, HandshakeOk, PipesOk, ChannelOk;
    Parts(cfg, s);
    ClientPcOnly(cfg, s.client, AwaitWelcome(s.client.pc.conn));
    SendHelloHandshake(cfg, s);
    PipesFrame(cfg, s, DoSendHello(s));
    ChannelFrame(s, DoSendHello(s));
    Whole(cfg, DoSendHello(s));
  }

  lemma RecvWelcomeHandshake(cfg: Config, s: World)
    requires HandshakeOk(cfg, s) && CanRecvWelcome(s)
    requires |DoRecvWelcome(cfg, s).client.workers| == |s.client.workers| + 1
    ensures HandshakeOk(cfg, DoRecvWelcome(cfg, s))
    ensures s.client.pc.conn == |s.client.workers| < Total(cfg)
  {
  }

  lemma ClientRegisters(cfg: Config, n: Node)
    requires NodeOk(cfg, n) && n.role.Client? && n.pc.AwaitWelcome? && n.pc.conn == |n.workers| < Total(cfg)
    ensures NodeOk(cfg, Register(cfg, n, n.pc.conn).(pc := Creating))
  {
    hide WorkersOk, UnderLoad, WindingUp, Registering;
    DiallingClient(cfg, n);
    RegisterShape(cfg, n);
    RegisterKeeps(cfg, n, Creating);
  }

  lemma RecvWelcomeKeeps(cfg: Config, s: World)
    requires Inv(cfg, s) && CanRecvWelcome(s)
    ensures Inv(cfg, DoRecvWelcome(cfg, s))
  {
    hide Inv, NodeOk, HandshakeOk, PipesOk, ChannelOk, Registering;
    Parts(cfg, s);
    DiallingClient(cfg, s.client);
    RecvWelcomeHandshake(cfg, s);
    ClientRegisters(cfg, s.client);
    RegisterShape(cfg, s.client);
    PipesWithNewWorker(cfg, s, DoRecvWelcome(cfg, s), Client);
    ChannelFrame(s, DoRecvWelcome(cfg, s));
    Whole(cfg, DoRecvWelcome(cfg, s));
  }

  lemma ClientIsDone(cfg: Config, n: Node)
    requires NodeOk(cfg, n) && n.role.Client? && n.pc.Creating? && |n.streams| >= Total(cfg)
    ensures NodeOk(cfg, n.(prior := CreateStreams, pc := Recv))
  {
    hide WorkersOk, UnderLoad, WindingUp;
    DiallingClient(cfg, n);
  }

  lemma FinishCreatingKeeps(cfg: Config, s: World)
    requires Inv(cfg, s) && CanFinishCreating(cfg, s)
    ensures Inv(cfg, DoFinishCreating(s))
  {
    hide Inv, NodeOk, HandshakeOk, PipesOk, ChannelOk;
    Parts(cfg, s);
    ClientIsDone(cfg, s.client);
    HandshakeFrame(cfg, s, DoFinishCreating(s), Client);
    PipesFrame(cfg, s, DoFinishCreating(s));
    ChannelFrame(s, DoFinishCreating(s));
    Whole(cfg, DoFinishCreating(s));
  }

  // The conforming client is never turned away.
  lemma NeverRefused(cfg: Config, s: World)
    requires Inv(cfg, s)
    ensures !CanRecvRefusal(s)
  {
    hide NodeOk, PipesOk, ChannelOk;
  }

  // The client dials only after CreateStreams was announced.
  lemma AnnouncedBeforeDialled(cfg: Config, s: World)
    requires Inv(cfg, s) && |s.conns| > 0
    ensures !s.server.state.TestStart?
  {
    hide PipesOk, WorkersOk, NothingLost, UnderLoad, WindingUp, Registering;
  }

  lemma AcceptHandshake(cfg: Config, s: World)
    requires HandshakeOk(cfg, s) && CanAccept(s) && !s.server.state.TestStart?
    ensures HandshakeOk(cfg, DoAccept(s)) && s.server.state.CreateStreams?
  {
  }

  lemma AcceptKeeps(cfg: Config, s: World)
    requires Inv(cfg, s) && CanAccept(s)
    ensures Inv(cfg, DoAccept(s))
  {
    hide Inv, NodeOk, HandshakeOk, PipesOk, ChannelOk;
    Parts(cfg, s);
    AnnouncedBeforeDialled(cfg, s);
    AcceptHandshake(cfg, s);
    PipesFrame(cfg, s, DoAccept(s));
    ChannelFrame(s, DoAccept(s));
    Whole(cfg, DoAccept(s));
  }

  lemma WelcomeHandshake(cfg: Config, s: World)
    requires HandshakeOk(cfg, s) && CanWelcome(s)
    ensures HandshakeOk(cfg, DoWelcome(s))
  {
  }

  lemma WelcomeKeeps(cfg: Config, s: World)
    requires Inv(cfg, s) && CanWelcome(s)
    ensures Inv(cfg, DoWelcome(s))
  {
    hide Inv, NodeOk, HandshakeOk, PipesOk, ChannelOk;
    Parts(cfg, s);
    WelcomeHandshake(cfg, s);
    PipesFrame(cfg, s, DoWelcome(s));
    ChannelFrame(s, DoWelcome(s));
    Whole(cfg, DoWelcome(s));
  }

  lemma EnqueueHandshake(cfg: Config, s: World)
    requires HandshakeOk(cfg, s) && s.accept.HandOff? && !s.server.state.TestStart?
    ensures HandshakeOk(cfg, DoEnqueue(s)) && s.server.state.CreateStreams?
  {
  }

  lemma ServerEnqueues(cfg: Config, n: Node, m: ControllerMessage)
    requires NodeOk(cfg, n) && n.role.Server? && n.state.CreateStreams?
    requires |n.queue| < INTERNAL_PROT_BUFFER
    ensures NodeOk(cfg, n.(queue := n.queue + [m]))
  {
    hide WorkersOk, UnderLoad, WindingUp;
  }

  lemma EnqueueKeeps(cfg: Config, s: World)
    requires Inv(cfg, s) && s.accept.HandOff?
    ensures Inv(cfg, DoEnqueue(s))
  {
    hide Inv, NodeOk, HandshakeOk, PipesOk, ChannelOk;
    Parts(cfg, s);
    assert |s.conns| > 0 by { EnqueueHasConn(cfg, s); }
    AnnouncedBeforeDialled(cfg, s);
    EnqueueHandshake(cfg, s);
    if |s.server.queue| < INTERNAL_PROT_BUFFER {
      ServerEnqueues(cfg, s.server, CreateStream(s.accept.conn));
    }
    PipesFrame(cfg, s, DoEnqueue(s));
    ChannelFrame(s, DoEnqueue(s));
    Whole(cfg, DoEnqueue(s));
  }

  lemma EnqueueHasConn(cfg: Config, s: World)
    requires HandshakeOk(cfg, s) && s.accept.HandOff?
    ensures |s.conns| > 0
  {
  }
}
