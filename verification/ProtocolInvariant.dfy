/**
  What holds in every reachable state of the protocol (for at least one stream), cut into the
  parts that one controller, the handshake, the control connection and the pipes depend on.
 */
module ProtocolInvariant {
  import opened Protocol
  import opened Ids

  // ------------------------------------------------------------------ workers

  // A worker is what its position in the spawn order says, and its bookkeeping is consistent.
  ghost predicate WorkerOk(cfg: Config, role: Role, t: nat, w: Worker) {
    && w.id == t && w.conn == t
    && w.sending == IsSending(cfg, role, t)
    && (w.pc.WaitStart? ==> w.inbox == w.sent && w.bytes == 0)
    && (!w.pc.WaitStart? ==> |w.sent| >= 1 && w.inbox == w.sent[1..])
    && (w.pc.WaitStart? || w.pc.Transfer? || w.sending ==> w.drained == 0)
    && (w.pc.Drain? ==> !w.sending)
    && (w.pc.Done? && w.pc.outcome.Ok? ==> w.pc.outcome.stats == StatsOf(w))
  }

  ghost predicate AllSent(workers: seq<Worker>, sent: seq<WorkerMessage>) {
    forall t | 0 <= t < |workers| :: workers[t].sent == sent
  }

  ghost predicate AllWaiting(workers: seq<Worker>) {
    forall t | 0 <= t < |workers| :: workers[t].pc.WaitStart?
  }

  // StartLoad, then perhaps one Terminate.
  predicate Signals(sent: seq<WorkerMessage>) {
    sent == [StartLoad] || sent == [StartLoad, Terminate]
  }

  ghost predicate WorkersOk(cfg: Config, role: Role, workers: seq<Worker>) {
    forall t: nat | t < |workers| :: WorkerOk(cfg, role, t, workers[t])
  }

  // -------------------------------------------------------------- controllers

  ghost predicate HandlesOk(n: Node) {
    forall id | id in n.streams :: id < |n.workers| && n.streams[id] == id
  }

  // Streams are being registered: none has been signalled, all are in the map.
  ghost predicate Registering(n: Node) {
    && n.streams.Keys == Below(|n.workers|)
    && HandlesOk(n)
    && n.results == map[] && n.failed == {} && n.timedOut == {} && n.lost == {}
    && AllSent(n.workers, []) && AllWaiting(n.workers)
  }

  predicate Joining(n: Node, id: nat) {
    n.pc.Join? && n.pc.id == id
  }

  // Every stream is in exactly one place: active, being joined, reported, failed or given up.
  ghost predicate Accounted(cfg: Config, n: Node) {
    && |n.workers| == Total(cfg)
    && HandlesOk(n)
    && (forall id | id in n.streams ::
          id !in n.results && id !in n.failed && id !in n.timedOut && !Joining(n, id))
    && (forall id | id in n.results ::
          && id < |n.workers| && id !in n.failed && id !in n.timedOut && !Joining(n, id)
          && n.workers[id].pc == Done(Ok(n.results[id])))
    && (forall id | id in n.failed ::
          && id < |n.workers| && id !in n.timedOut && !Joining(n, id)
          && n.workers[id].pc == Done(Failed))
    && (forall id | id in n.timedOut :: id < |n.workers| && !Joining(n, id))
    && (n.pc.Join? ==> n.pc.id < |n.workers| && n.pc.task == n.pc.id &&
                       n.workers[n.pc.id].pc.Done?)
    && (forall id: nat | id < |n.workers| ::
          id in n.streams || id in n.results || id in n.failed || id in n.timedOut || Joining(n, id))
  }

  // Queued notifications are about distinct returned workers.
  ghost predicate QueueOk(queue: seq<ControllerMessage>, lost: set<nat>, workers: seq<Worker>) {
    && (forall i | 0 <= i < |queue| ::
          queue[i].StreamTerminated? && queue[i].id < |workers| && workers[queue[i].id].pc.Done?)
    && (forall i, j | 0 <= i < j < |queue| :: queue[i] != queue[j])
    && (forall id | id in lost :: id < |workers| && workers[id].pc.Done?)
  }

  // Under load, a stream is returned but still active exactly while its notification waits
  // in the queue, unless it was dropped.
  ghost predicate Notified(n: Node) {
    && (forall i | 0 <= i < |n.queue| ::
          n.queue[i].StreamTerminated? ==> n.queue[i].id in n.streams)
    && (forall id | id in n.streams && id < |n.workers| && n.workers[id].pc.Done? ::
          StreamTerminated(id) in n.queue || id in n.lost)
  }

  ghost predicate NothingLost(cfg: Config, n: Node) {
    |n.queue| <= INTERNAL_PROT_BUFFER && (Total(cfg) <= INTERNAL_PROT_BUFFER ==> n.lost == {})
  }

  // Load is on: every worker has been sent StartLoad and nothing else.
  ghost predicate UnderLoad(cfg: Config, n: Node) {
    && Accounted(cfg, n) && QueueOk(n.queue, n.lost, n.workers) && Notified(n)
    && AllSent(n.workers, [StartLoad]) && n.timedOut == {}
  }

  // Whoever is still waited for has been told to stop.
  ghost predicate ToldToStop(n: Node) {
    n.pc.Collecting? ==>
      forall id | id in n.streams && id < |n.workers| && !n.workers[id].pc.Done? ::
        n.workers[id].sent == [StartLoad, Terminate]
  }

  // Results are being collected or exchanged.
  ghost predicate WindingUp(cfg: Config, n: Node) {
    && Accounted(cfg, n) && QueueOk(n.queue, n.lost, n.workers) && ToldToStop(n)
    && (forall t | 0 <= t < |n.workers| :: Signals(n.workers[t].sent))
    && (n.pc.AwaitResults? || n.pc.Finished? ==> n.streams == map[])
  }

  // What the two sides have in common in each state.
  ghost predicate PhaseOk(cfg: Config, n: Node) {
    match n.state
    case TestStart => n == InitNode(n.role).(pc := n.pc, iters := n.iters)
    case CreateStreams => Registering(n)
    case Running => if n.prior.Running? then UnderLoad(cfg, n) else Registering(n) && |n.workers| == Total(cfg)
    case ExchangeResults => WindingUp(cfg, n) && (n.pc.Top? ==> UnderLoad(cfg, n))
  }

  // Where the server's controller can be, and how often it has entered its loop by then.
  predicate ServerPc(cfg: Config, n: Node) {
    match n.state
    case TestStart =>
      n.pc.Top? && n.iters == 0
    case CreateStreams =>
      && (n.pc.Top? || n.pc.Recv?)
      && |n.workers| < Total(cfg)
      && n.prior == (if n.pc.Top? && |n.workers| == 0 then TestStart else CreateStreams)
      && n.iters == |n.workers| + (if n.pc.Top? then 1 else 2)
    case Running =>
      if n.prior.Running? then
        && (n.pc.Top? || n.pc.Recv? || n.pc.Join?)
        && (!n.pc.Join? ==> n.streams != map[])
        && n.iters + |n.streams| == 2 * Total(cfg) + (if n.pc.Recv? then 2 else 1)
      else
        n.pc.Top? && n.queue == [] && n.prior.CreateStreams? && n.iters == Total(cfg) + 1
    case ExchangeResults =>
      && (n.pc.Top? || n.pc.Collecting? || n.pc.AwaitResults? || n.pc.Finished?)
      && n.prior.Running? && n.timedOut == {} && n.streams == map[]
      && n.iters == 2 * Total(cfg) + (if n.pc.Top? then 1 else 2)
  }

  predicate ClientPc(cfg: Config, n: Node) {
    match n.state
    case TestStart =>
      if n.pc.Top? then n.iters == 0 else n.pc.Recv? && n.iters == 1
    case CreateStreams =>
      && (n.pc.Top? || n.pc.Creating? || n.pc.Greeting? || n.pc.AwaitWelcome? || n.pc.Recv?)
      && n.queue == [] && |n.workers| <= Total(cfg)
      && n.prior == (if n.pc.Recv? then CreateStreams else TestStart)
      && (n.pc.Top? ==> n.workers == [])
      && (n.pc.Recv? ==> |n.workers| == Total(cfg))
      && n.iters == (if n.pc.Top? then 1 else 2)
    case Running =>
      if n.prior.Running? then
        && (n.pc.Top? || n.pc.Recv? || n.pc.Join?)
        && n.iters + |n.streams| == Total(cfg) + (if n.pc.Recv? then 3 else 2)
      else
        n.pc.Top? && n.queue == [] && n.prior.CreateStreams? && n.iters == 2
    case ExchangeResults =>
      && (n.pc.Top? || n.pc.Collecting? || n.pc.AwaitResults? || n.pc.Finished?)
      && n.prior.Running?
      && n.iters <= Total(cfg) + (if n.pc.Top? then 3 else 4)
  }

  predicate PcOk(cfg: Config, n: Node) {
    if n.role.Server? then ServerPc(cfg, n) else ClientPc(cfg, n)
  }

  ghost predicate NodeOk(cfg: Config, n: Node) {
    WorkersOk(cfg, n.role, n.workers) && NothingLost(cfg, n) && PhaseOk(cfg, n) && PcOk(cfg, n)
  }

  ghost predicate NodesOk(cfg: Config, s: World) {
    && s.server.role == Server && s.client.role == Client
    && NodeOk(cfg, s.server) && NodeOk(cfg, s.client)
  }

  // ---------------------------------------------------------------- handshake

  // Connections the accept loop has disposed of.
  function Handed(s: World): nat {
    if s.accept.Idle? || s.accepted == 0 then s.accepted else s.accepted - 1
  }

  function WelcomedCount(s: World): nat {
    if s.accept.Reading? && s.accepted > 0 then s.accepted - 1 else s.accepted
  }

  function GreetedCount(s: World): nat {
    if s.client.pc.Greeting? && |s.conns| > 0 then |s.conns| - 1 else |s.conns|
  }

  ghost predicate Dialling(s: World) {
    if s.client.pc.Greeting? || s.client.pc.AwaitWelcome?
    then s.client.pc.conn == |s.client.workers| && |s.conns| == |s.client.workers| + 1
    else |s.conns| == |s.client.workers|
  }

  ghost predicate QueueInOrder(s: World) {
    && |s.server.workers| + |s.server.queue| == Handed(s)
    && forall i | 0 <= i < |s.server.queue| ::
         s.server.queue[i] == CreateStream(|s.server.workers| + i)
  }

  ghost predicate HandshakeOk(cfg: Config, s: World) {
    && s.refused == {}
    && |s.client.workers| <= WelcomedCount(s) <= s.accepted <= |s.conns| <= Total(cfg)
    && (s.accept.Reading? || s.accept.HandOff? ==> s.accepted > 0 && s.accept.conn == s.accepted - 1)
    && (s.accept.Down? ==> s.accepted > 0 && Total(cfg) > INTERNAL_PROT_BUFFER &&
                           s.server.state.CreateStreams?)
    && Dialling(s)
    && s.helloed == Below(GreetedCount(s))
    && s.welcomed == Below(WelcomedCount(s))
    && (s.server.state.TestStart? || s.server.state.CreateStreams? ==> QueueInOrder(s))
    && (s.server.state.Running? || s.server.state.ExchangeResults? ==>
          s.accept.Idle? && s.accepted == |s.conns| == |s.server.workers| == Total(cfg))
  }

  // --------------------------------------------------------- control channel

  function Announcements(state: TestState): seq<TestState> {
    match state
    case TestStart => []
    case CreateStreams => [CreateStreams]
    case Running => [CreateStreams, Running]
    case ExchangeResults => [CreateStreams, Running, ExchangeResults]
  }

  ghost predicate Pending(s: World, unread: seq<TestState>) {
    && |s.toClient| == |unread| + (if s.server.pc.Finished? && !s.client.pc.Finished? then 1 else 0)
    && (forall i | 0 <= i < |unread| :: s.toClient[i] == SetState(unread[i]))
    && (s.server.pc.Finished? && !s.client.pc.Finished? ==>
          s.toClient[|unread|] == ServerResults(s.server.results))
  }

  ghost predicate ChannelOk(s: World) {
    && s.announced == Announcements(s.server.state)
    && s.handled == Announcements(s.client.state)
    && |s.handled| <= |s.announced|
    && Pending(s, s.announced[|s.handled|..])
    && s.toServer == (if (s.client.pc.AwaitResults? || s.client.pc.Finished?) && !s.server.pc.Finished?
                      then [ClientResults(s.client.results)] else [])
    && (s.client.pc.Finished? ==> s.server.pc.Finished? && s.client.pc.remote == s.server.results)
    && (s.server.pc.Finished? ==> s.server.pc.remote == s.client.results &&
                                  (s.client.pc.AwaitResults? || s.client.pc.Finished?))
  }

  // -------------------------------------------------------------------- pipes

  function Given(workers: seq<Worker>, k: nat): nat {
    if k < |workers| && workers[k].sending then workers[k].bytes else 0
  }

  function Taken(workers: seq<Worker>, k: nat): nat {
    if k < |workers| && !workers[k].sending then workers[k].bytes + workers[k].drained else 0
  }

  ghost predicate PipeOk(cfg: Config, p: Pipe, writers: seq<Worker>, readers: seq<Worker>, k: nat) {
    && (p.fin <==> k < |writers| && writers[k].pc.Done?)
    && Given(writers, k) == Taken(readers, k) + p.inflight
    && (k < |readers| && !readers[k].sending && readers[k].pc.Done? && readers[k].pc.outcome.Ok? ==>
          ReadsNothing(cfg, p))
    && (cfg.blockSize == 0 ==> p.inflight == 0)
  }

  // The bytes of connection `k` that flow away from side `writer`.
  ghost predicate FlowOk(cfg: Config, s: World, writer: Role, k: nat)
    requires k < |s.conns|
  {
    PipeOk(cfg, PipeFrom(s.conns[k], writer), NodeOf(s, writer).workers, NodeOf(s, Other(writer)).workers, k)
  }

  ghost predicate PipesOk(cfg: Config, s: World) {
    forall r: Role, k: nat | k < |s.conns| :: FlowOk(cfg, s, r, k)
  }

  ghost predicate Inv(cfg: Config, s: World) {
    NodesOk(cfg, s) && HandshakeOk(cfg, s) && ChannelOk(s) && PipesOk(cfg, s)
  }
}
