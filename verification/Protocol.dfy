/**
  The netperf-p2 test protocol as a labelled transition system: the two controllers, the
  server's accept loop, the worker tasks of both sides, the control connection in both
  directions and the two byte pipes of every data connection.

  One step is what one component does between two of its await points, so that a run is any
  interleaving the single-threaded executors of the two processes can produce. Choices the
  environment makes (which task runs next, how many bytes a socket call moves, when a deadline
  fires, which order a hash map is drained in) are parameters of the step.
 */
module Protocol {

  // The bound of the controller's queue and of every worker's queue.
  const INTERNAL_PROT_BUFFER: nat := 5

  datatype Role = Server | Client

  datatype Direction = ClientToServer | ServerToClient | Bidirectional

  // The negotiated parameters that steer the protocol; `parallel` is a u16, and nothing keeps a
  // client from asking for blocks of length 0. `emptyReadEnds` is a property of the platform: a
  // read into an empty buffer returns 0 at once, and does not wait for the end of the stream.
  datatype Config = Config(direction: Direction, parallel: u16, blockSize: nat, emptyReadEnds: bool)
  newtype u16 = x: int | 0 <= x < 0x1_0000

  function Other(role: Role): Role {
    if role.Server? then Client else Server
  }

  // The counters PerfTest::new assigns, before the server's swap.
  function ClientSendStreams(cfg: Config): u16 {
    if cfg.direction.ServerToClient? then 0 else cfg.parallel
  }

  function ClientReceiveStreams(cfg: Config): u16 {
    if cfg.direction.ClientToServer? then 0 else cfg.parallel
  }

  function NumSendStreams(cfg: Config, role: Role): u16 {
    if role.Client? then ClientSendStreams(cfg) else ClientReceiveStreams(cfg)
  }

  function NumReceiveStreams(cfg: Config, role: Role): u16 {
    if role.Client? then ClientReceiveStreams(cfg) else ClientSendStreams(cfg)
  }

  // The two counters are added as u16 values, so the sum wraps around.
  function TotalNeededStreams(cfg: Config, role: Role): nat {
    (NumSendStreams(cfg, role) as int + NumReceiveStreams(cfg, role) as int) % 0x1_0000
  }

  function Total(cfg: Config): nat {
    TotalNeededStreams(cfg, Client)
  }

  // Whether the stream registered when `created` streams exist is a sending one.
  predicate IsSending(cfg: Config, role: Role, created: nat) {
    var sending := created < NumSendStreams(cfg, role) as int;
    if role.Server? && cfg.direction.Bidirectional? then !sending else sending
  }

  // ---------------------------------------------------------------- messages

  datatype TestState = TestStart | CreateStreams | Running | ExchangeResults

  datatype ControllerMessage = CreateStream(conn: nat) | StreamTerminated(id: nat)

  datatype WorkerMessage = StartLoad | Terminate

  datatype StreamTotals = StreamTotals(sender: bool, bytes: nat)

  type Results = map<nat, StreamTotals>

  datatype ServerMessage = SetState(state: TestState) | ServerResults(results: Results)

  datatype ClientMessage = ClientResults(results: Results)

  // ------------------------------------------------------------------ workers

  datatype Outcome = Ok(stats: StreamTotals) | Failed

  // Where a worker task is suspended.
  datatype WorkerPc =
    | WaitStart              // waiting for its first signal
    | Transfer               // in the hot loop
    | Drain                  // a receiver past the hot loop, reading to the end of the stream
    | Done(outcome: Outcome) // returned, socket dropped

  // `sent` is the history of what the controller put into the worker's queue.
  datatype Worker = Worker(id: nat, conn: nat, sending: bool, pc: WorkerPc,
                           inbox: seq<WorkerMessage>, sent: seq<WorkerMessage>,
                           bytes: nat, drained: nat)

  function StatsOf(w: Worker): StreamTotals {
    StreamTotals(w.sending, w.bytes)
  }

  // -------------------------------------------------------------- controllers

  datatype Pc =
    | Top                                  // at the head of the loop
    | Creating | Greeting(conn: nat) | AwaitWelcome(conn: nat) // client, inside create_streams
    | Recv                                 // awaiting the next message
    | Join(id: nat, task: nat)             // awaiting the handle of a terminated stream
    | Collecting                           // collect_test_result
    | AwaitResults                         // exchange_results, awaiting the peer's results
    | Finished(remote: Results)
    | Aborted

  /** A controller with its worker tasks. `streams` maps a stream id to its task; `workers`
      lists those tasks in spawn order. `failed`, `timedOut`, `lost` and `iters`
      are histories: streams joined with an error, streams given up on, ids whose notification
      did not fit into the queue, and entries into the controller loop. */
  datatype Node = Node(role: Role, state: TestState, prior: TestState, pc: Pc, iters: nat,
                       streams: map<nat, nat>, results: Results,
                       failed: set<nat>, timedOut: set<nat>,
                       queue: seq<ControllerMessage>, lost: set<nat>,
                       workers: seq<Worker>)

  // ------------------------------------------------------------- connections

  // One direction of a data connection: bytes on the way, and whether its writer hung up.
  datatype Pipe = Pipe(inflight: nat, fin: bool)

  // `up` carries bytes from the client to the server, `down` the other way.
  datatype Conn = Conn(up: Pipe, down: Pipe)

  const FRESH_CONN: Conn := Conn(Pipe(0, false), Pipe(0, false))

  function PipeFrom(c: Conn, writer: Role): Pipe {
    if writer.Client? then c.up else c.down
  }

  function WithPipe(c: Conn, writer: Role, p: Pipe): Conn {
    if writer.Client? then c.(up := p) else c.(down := p)
  }

  // The accept loop; outside Idle it holds the lock on the test's state. Down: run_server
  // returned an error because the controller's queue was full.
  datatype AcceptPc = Idle | Reading(conn: nat) | HandOff(conn: nat) | Down

  datatype World = World(server: Node, client: Node, accept: AcceptPc,
                         conns: seq<Conn>, accepted: nat,
                         helloed: set<nat>, welcomed: set<nat>, refused: set<nat>,
                         toClient: seq<ServerMessage>, toServer: seq<ClientMessage>,
                         announced: seq<TestState>, handled: seq<TestState>)

  function NodeOf(s: World, role: Role): Node {
    if role.Server? then s.server else s.client
  }

  function WithNode(s: World, role: Role, n: Node): World {
    if role.Server? then s.(server := n) else s.(client := n)
  }

  function InitNode(role: Role): Node {
    Node(role, TestStart, TestStart, Top, 0, map[], map[], {}, {}, [], {}, [])
  }

  // Both sides have just created their controller.
  const INIT: World := World(InitNode(Server), InitNode(Client), Idle, [], 0, {}, {}, {}, [], [], [], [])

  // --------------------------------------------------- controller operations

  // set_state: the server announces the state to the client before it adopts it.
  function Enter(s: World, role: Role, n: Node, state: TestState): World {
    var s' := WithNode(s, role, n.(state := state));
    if role.Server?
    then s'.(toClient := s.toClient + [SetState(state)], announced := s.announced + [state])
    else s'
  }

  // Whether the handle map still leads to task `t`, that is, its queue has a sender.
  predicate Attached(n: Node, t: nat)
    requires t < |n.workers|
  {
    var id := n.workers[t].id;
    id in n.streams && n.streams[id] == t
  }

  // try_send into a worker's queue: nothing happens when it is full or its receiver is gone.
  function Deliver(w: Worker, m: WorkerMessage): Worker {
    if w.pc.Done? || |w.inbox| >= INTERNAL_PROT_BUFFER then w
    else w.(inbox := w.inbox + [m], sent := w.sent + [m])
  }

  function Broadcast(n: Node, m: WorkerMessage): Node {
    n.(workers := seq(|n.workers|, t requires 0 <= t < |n.workers| =>
                        if Attached(n, t) then Deliver(n.workers[t], m) else n.workers[t]))
  }

  function NewWorker(id: nat, conn: nat, sending: bool): Worker {
    Worker(id, conn, sending, WaitStart, [], [], 0, 0)
  }

  // create_and_register_stream_worker: the id is the number of streams in the map.
  function Register(cfg: Config, n: Node, conn: nat): Node {
    var id := |n.streams|;
    n.(streams := n.streams[id := |n.workers|],
       workers := n.workers + [NewWorker(id, conn, IsSending(cfg, n.role, id))])
  }

  // accept_stream: the last stream starts the load.
  function AcceptStream(cfg: Config, s: World, n: Node, conn: nat): World {
    var n' := Register(cfg, n, conn).(pc := Top);
    if |n'.streams| == TotalNeededStreams(cfg, Server)
    then Enter(s, Server, n', Running)
    else WithNode(s, Server, n')
  }

  // What a joined handle leaves behind.
  function Joined(n: Node, id: nat, outcome: Outcome): Node {
    match outcome
    case Ok(stats) => n.(results := n.results[id := stats])
    case Failed => n.(failed := n.failed + {id})
  }

  // The end of the StreamTerminated branch: the server finalises when no stream is active.
  function AfterTermination(s: World, role: Role, n: Node): World {
    var n' := n.(pc := Top);
    if n.streams == map[] && role.Server?
    then Enter(s, role, n', ExchangeResults)
    else WithNode(s, role, n')
  }

  // A notification: the handle leaves the map and is joined, unless it is gone already.
  function TerminateStream(s: World, role: Role, n: Node, id: nat): World {
    if id in n.streams
    then WithNode(s, role, n.(pc := Join(id, n.streams[id]), streams := n.streams - {id}))
    else AfterTermination(s, role, n)
  }

  function ReceiveInternal(cfg: Config, s: World, role: Role): World
    requires NodeOf(s, role).queue != []
  {
    var n0 := NodeOf(s, role);
    var n := n0.(queue := n0.queue[1..]);
    match n0.queue[0]
    case CreateStream(c) =>
      if role.Server? then AcceptStream(cfg, s, n, c) else WithNode(s, role, n.(pc := Aborted))
    case StreamTerminated(id) => TerminateStream(s, role, n, id)
  }

  // One entry into the loop: act on the state just read, then go and wait for a message.
  function HeadOf(n0: Node): Node {
    var n := n0.(iters := n0.iters + 1);
    match n.state
    case TestStart =>
      if n.role.Server? then n else n.(prior := TestStart, pc := Recv)
    case CreateStreams =>
      if n.role.Server? then n.(prior := CreateStreams, pc := Recv) else n.(pc := Creating)
    case Running =>
      (if n.prior != Running then Broadcast(n, StartLoad) else n).(prior := Running, pc := Recv)
    case ExchangeResults =>
      Broadcast(n, Terminate).(pc := Collecting)
  }

  // A server that has just started enters CreateStreams and stays at the head of the loop.
  function LoopHead(s: World, role: Role): World {
    var n := NodeOf(s, role);
    if n.state.TestStart? && role.Server? then Enter(s, role, HeadOf(n), CreateStreams)
    else WithNode(s, role, HeadOf(n))
  }

  // ------------------------------------------------------- worker operations

  // A worker ends with a try_send of StreamTerminated, which a full queue drops silently.
  function Notify(n: Node, id: nat): Node {
    if n.pc.Finished? || n.pc.Aborted? then n
    else if |n.queue| < INTERNAL_PROT_BUFFER then n.(queue := n.queue + [StreamTerminated(id)])
    else n.(lost := n.lost + {id})
  }

  predicate HasTask(s: World, role: Role, t: nat) {
    && t < |NodeOf(s, role).workers|
    && NodeOf(s, role).workers[t].conn < |s.conns|
  }

  function TaskOf(s: World, role: Role, t: nat): Worker
    requires HasTask(s, role, t)
  {
    NodeOf(s, role).workers[t]
  }

  function WithTask(s: World, role: Role, t: nat, w: Worker): World
    requires HasTask(s, role, t)
  {
    var n := NodeOf(s, role);
    WithNode(s, role, n.(workers := n.workers[t := w]))
  }

  // The pipe task `t` of side `role` reads from.
  function Source(s: World, role: Role, t: nat): Pipe
    requires HasTask(s, role, t)
  {
    PipeFrom(s.conns[TaskOf(s, role, t).conn], Other(role))
  }

  function Take(s: World, role: Role, t: nat, n: nat): World
    requires HasTask(s, role, t) && n <= Source(s, role, t).inflight
  {
    var c := TaskOf(s, role, t).conn;
    var p := Source(s, role, t);
    s.(conns := s.conns[c := WithPipe(s.conns[c], Other(role), p.(inflight := p.inflight - n))])
  }

  function Give(s: World, role: Role, t: nat, n: nat): World
    requires HasTask(s, role, t)
  {
    var c := TaskOf(s, role, t).conn;
    var p := PipeFrom(s.conns[c], role);
    s.(conns := s.conns[c := WithPipe(s.conns[c], role, p.(inflight := p.inflight + n))])
  }

  // The worker returns: its socket is dropped, then the controller is notified.
  function Return(s: World, role: Role, t: nat, outcome: Outcome): World
    requires HasTask(s, role, t)
  {
    var w := TaskOf(s, role, t);
    var n := NodeOf(s, role);
    var p := PipeFrom(s.conns[w.conn], role);
    WithNode(s.(conns := s.conns[w.conn := WithPipe(s.conns[w.conn], role, p.(fin := true))]),
             role,
             Notify(n.(workers := n.workers[t := w.(pc := Done(outcome))]), w.id))
  }

  // The hot loop ends without an error: a sender returns, a receiver goes on to drain.
  function LeaveLoop(s: World, role: Role, t: nat): World
    requires HasTask(s, role, t)
  {
    var w := TaskOf(s, role, t);
    if w.sending then Return(s, role, t, Ok(StatsOf(w)))
    else WithTask(s, role, t, w.(pc := Drain))
  }

  // ------------------------------------------------- steps of either controller

  predicate CanHead(s: World, role: Role) {
    NodeOf(s, role).pc.Top? && (role.Server? ==> s.accept.Idle?)
  }

  predicate CanRecvInternal(s: World, role: Role) {
    NodeOf(s, role).pc.Recv? && NodeOf(s, role).queue != []
  }

  predicate CanJoin(n: Node) {
    n.pc.Join? && n.pc.task < |n.workers| && n.workers[n.pc.task].pc.Done?
  }

  function DoJoin(s: World, role: Role): World
    requires CanJoin(NodeOf(s, role))
  {
    var n := NodeOf(s, role);
    AfterTermination(s, role, Joined(n, n.pc.id, n.workers[n.pc.task].pc.outcome))
  }

  predicate Collectable(n: Node, id: nat) {
    n.pc.Collecting? && id in n.streams && n.streams[id] < |n.workers|
  }

  predicate CanCollectJoin(n: Node, id: nat) {
    Collectable(n, id) && n.workers[n.streams[id]].pc.Done?
  }

  // The awaited handle is ready.
  function DoCollectJoin(n: Node, id: nat): Node
    requires CanCollectJoin(n, id)
  {
    Joined(n.(streams := n.streams - {id}), id, n.workers[n.streams[id]].pc.outcome)
  }

  // The five seconds pass before the worker returns.
  predicate CanCollectTimeout(n: Node, id: nat) {
    Collectable(n, id) && !n.workers[n.streams[id]].pc.Done?
  }

  function DoCollectTimeout(n: Node, id: nat): Node {
    n.(streams := n.streams - {id}, timedOut := n.timedOut + {id})
  }

  predicate CanCollectDone(n: Node) {
    n.pc.Collecting? && n.streams == map[]
  }

  // The client sends its results first, the server waits for them.
  function DoCollectDone(s: World, role: Role): World {
    var n := NodeOf(s, role);
    var s' := WithNode(s, role, n.(pc := AwaitResults));
    if role.Client? then s'.(toServer := s.toServer + [ClientResults(n.results)]) else s'
  }

  predicate CanReadResults(s: World, role: Role) {
    NodeOf(s, role).pc.AwaitResults? &&
    if role.Server? then s.toServer != [] else s.toClient != []
  }

  function DoReadResults(s: World, role: Role): World
    requires CanReadResults(s, role)
  {
    if role.Server? then
      s.(server := s.server.(pc := Finished(s.toServer[0].results)), toServer := s.toServer[1..],
         toClient := s.toClient + [ServerResults(s.server.results)])
    else
      match s.toClient[0]
      case ServerResults(remote) =>
        s.(client := s.client.(pc := Finished(remote)), toClient := s.toClient[1..])
      case SetState(_) =>
        s.(client := s.client.(pc := Aborted), toClient := s.toClient[1..])
  }

  // ------------------------------------------------ steps of the client controller

  predicate CanRecvServer(s: World) {
    s.client.pc.Recv? && s.toClient != []
  }

  function DoRecvServer(s: World): World
    requires CanRecvServer(s)
  {
    match s.toClient[0]
    case SetState(state) =>
      s.(client := s.client.(state := state, pc := Top), toClient := s.toClient[1..],
         handled := s.handled + [state])
    case ServerResults(_) =>
      s.(client := s.client.(pc := Top), toClient := s.toClient[1..])
  }

  predicate CanConnect(cfg: Config, s: World) {
    s.client.pc.Creating? && |s.client.streams| < TotalNeededStreams(cfg, Client)
  }

  function DoConnect(s: World): World {
    s.(client := s.client.(pc := Greeting(|s.conns|)), conns := s.conns + [FRESH_CONN])
  }

  function DoSendHello(s: World): World
    requires s.client.pc.Greeting?
  {
    var c := s.client.pc.conn;
    s.(client := s.client.(pc := AwaitWelcome(c)), helloed := s.helloed + {c})
  }

  predicate CanRecvWelcome(s: World) {
    s.client.pc.AwaitWelcome? && s.client.pc.conn in s.welcomed
  }

  function DoRecvWelcome(cfg: Config, s: World): World
    requires CanRecvWelcome(s)
  {
    s.(client := Register(cfg, s.client, s.client.pc.conn).(pc := Creating))
  }

  predicate CanRecvRefusal(s: World) {
    s.client.pc.AwaitWelcome? && s.client.pc.conn in s.refused
  }

  function DoRecvRefusal(s: World): World {
    s.(client := s.client.(pc := Aborted))
  }

  predicate CanFinishCreating(cfg: Config, s: World) {
    s.client.pc.Creating? && |s.client.streams| >= TotalNeededStreams(cfg, Client)
  }

  function DoFinishCreating(s: World): World {
    s.(client := s.client.(prior := CreateStreams, pc := Recv))
  }

  // ------------------------------------------------------ steps of the accept loop

  predicate CanAccept(s: World) {
    s.accept.Idle? && s.accepted < |s.conns|
  }

  function DoAccept(s: World): World {
    if s.server.state.CreateStreams?
    then s.(accept := Reading(s.accepted), accepted := s.accepted + 1)
    else s.(refused := s.refused + {s.accepted}, accepted := s.accepted + 1)
  }

  predicate CanWelcome(s: World) {
    s.accept.Reading? && s.accept.conn in s.helloed
  }

  function DoWelcome(s: World): World
    requires CanWelcome(s)
  {
    s.(accept := HandOff(s.accept.conn), welcomed := s.welcomed + {s.accept.conn})
  }

  // try_send of the new connection; a full queue makes run_server return an error.
  function DoEnqueue(s: World): World
    requires s.accept.HandOff?
  {
    var n := s.server;
    if |n.queue| < INTERNAL_PROT_BUFFER
    then s.(accept := Idle, server := n.(queue := n.queue + [CreateStream(s.accept.conn)]))
    else s.(accept := Down)
  }

  // -------------------------------------------------------- steps of a worker task

  predicate AtPc(s: World, role: Role, t: nat, pc: WorkerPc) {
    HasTask(s, role, t) && TaskOf(s, role, t).pc == pc
  }

  predicate CanStart(s: World, role: Role, t: nat) {
    AtPc(s, role, t, WaitStart) &&
    var w := TaskOf(s, role, t);
    w.inbox != [] && w.inbox[0].StartLoad?
  }

  function DoStart(s: World, role: Role, t: nat): World
    requires CanStart(s, role, t)
  {
    var w := TaskOf(s, role, t);
    WithTask(s, role, t, w.(pc := Transfer, inbox := w.inbox[1..]))
  }

  // The first signal is not StartLoad, or the queue is closed and empty.
  predicate CanBail(s: World, role: Role, t: nat) {
    AtPc(s, role, t, WaitStart) &&
    var w := TaskOf(s, role, t);
    if w.inbox == [] then !Attached(NodeOf(s, role), t) else !w.inbox[0].StartLoad?
  }

  predicate CanWrite(cfg: Config, s: World, role: Role, t: nat, n: nat) {
    AtPc(s, role, t, Transfer) && TaskOf(s, role, t).sending && 1 <= n <= cfg.blockSize
  }

  function DoWrite(cfg: Config, s: World, role: Role, t: nat, n: nat): World
    requires CanWrite(cfg, s, role, t, n)
  {
    var w := TaskOf(s, role, t);
    WithTask(Give(s, role, t, n), role, t, w.(bytes := w.bytes + n))
  }

  predicate CanRead(cfg: Config, s: World, role: Role, t: nat, n: nat) {
    AtPc(s, role, t, Transfer) && !TaskOf(s, role, t).sending &&
    1 <= n <= Source(s, role, t).inflight && n <= cfg.blockSize
  }

  function DoRead(cfg: Config, s: World, role: Role, t: nat, n: nat): World
    requires CanRead(cfg, s, role, t, n)
  {
    var w := TaskOf(s, role, t);
    WithTask(Take(s, role, t, n), role, t, w.(bytes := w.bytes + n))
  }

  // Whether a read that returns 0 means the end of the stream.
  predicate SeesEnd(cfg: Config) {
    cfg.blockSize >= 1 || !cfg.emptyReadEnds
  }

  predicate ReadsNothing(cfg: Config, p: Pipe) {
    p == Pipe(0, true) || !SeesEnd(cfg)
  }

  predicate CanEof(cfg: Config, s: World, role: Role, t: nat) {
    AtPc(s, role, t, Transfer) && !TaskOf(s, role, t).sending && ReadsNothing(cfg, Source(s, role, t))
  }

  predicate CanDrainRead(cfg: Config, s: World, role: Role, t: nat, n: nat) {
    AtPc(s, role, t, Drain) && 1 <= n <= Source(s, role, t).inflight && n <= cfg.blockSize
  }

  function DoDrainRead(cfg: Config, s: World, role: Role, t: nat, n: nat): World
    requires CanDrainRead(cfg, s, role, t, n)
  {
    var w := TaskOf(s, role, t);
    WithTask(Take(s, role, t, n), role, t, w.(drained := w.drained + n))
  }

  predicate CanDrainEof(cfg: Config, s: World, role: Role, t: nat) {
    AtPc(s, role, t, Drain) && ReadsNothing(cfg, Source(s, role, t))
  }

  predicate CanFail(s: World, role: Role, t: nat) {
    AtPc(s, role, t, Transfer) || AtPc(s, role, t, Drain)
  }

  // -------------------------------------------------------------------- all steps

  datatype Step =
    | Head(role: Role)
    | RecvInternal(role: Role)
    | JoinDone(role: Role)
    | CollectJoin(role: Role, id: nat)
    | CollectTimeout(role: Role, id: nat)
    | CollectDone(role: Role)
    | ReadResults(role: Role)
    | RecvServer | Connect | SendHello | RecvWelcome | RecvRefusal | FinishCreating
    | Accept | Welcome | Enqueue
    | Start(role: Role, t: nat)
    | Bail(role: Role, t: nat)
    | Write(role: Role, t: nat, n: nat)
    | Read(role: Role, t: nat, n: nat)
    | Eof(role: Role, t: nat)
    | Stop(role: Role, t: nat)          // deadline, Terminate, closed queue or empty write
    | DrainRead(role: Role, t: nat, n: nat)
    | DrainEof(role: Role, t: nat)
    | Fail(role: Role, t: nat)          // an I/O error
  {
    // The process whose component takes the step.
    function Process(): Role {
      if RecvServer? || Connect? || SendHello? || RecvWelcome? || RecvRefusal? || FinishCreating?
      then Client
      else if Accept? || Welcome? || Enqueue? then Server
      else role
    }
  }

  // What goes wrong in a run: an I/O error, or a stream that is given up on.
  predicate Fault(step: Step) {
    step.Fail? || step.CollectTimeout?
  }

  // Steps of the workers, as opposed to those of the controllers and of the accept loop.
  predicate ByWorker(step: Step) {
    step.Start? || step.Bail? || step.Write? || step.Read? || step.Eof? || step.Stop? || step.DrainRead? ||
    step.DrainEof? || step.Fail?
  }

  predicate WorkerCan(cfg: Config, s: World, step: Step)
    requires ByWorker(step)
  {
    match step
    case Start(role, t) => CanStart(s, role, t)
    case Bail(role, t) => CanBail(s, role, t)
    case Write(role, t, n) => CanWrite(cfg, s, role, t, n)
    case Read(role, t, n) => CanRead(cfg, s, role, t, n)
    case Eof(role, t) => CanEof(cfg, s, role, t)
    case Stop(role, t) => AtPc(s, role, t, Transfer)
    case DrainRead(role, t, n) => CanDrainRead(cfg, s, role, t, n)
    case DrainEof(role, t) => CanDrainEof(cfg, s, role, t)
    case Fail(role, t) => CanFail(s, role, t)
  }

  function WorkerNext(cfg: Config, s: World, step: Step): World
    requires ByWorker(step) && WorkerCan(cfg, s, step)
  {
    match step
    case Start(role, t) => DoStart(s, role, t)
    case Bail(role, t) => Return(s, role, t, Failed)
    case Write(role, t, n) => DoWrite(cfg, s, role, t, n)
    case Read(role, t, n) => DoRead(cfg, s, role, t, n)
    case Eof(role, t) => LeaveLoop(s, role, t)
    case Stop(role, t) => LeaveLoop(s, role, t)
    case DrainRead(role, t, n) => DoDrainRead(cfg, s, role, t, n)
    case DrainEof(role, t) => Return(s, role, t, Ok(StatsOf(TaskOf(s, role, t))))
    case Fail(role, t) => Return(s, role, t, Failed)
  }

  predicate ControllerCan(cfg: Config, s: World, step: Step)
    requires !ByWorker(step)
  {
    match step
    case Head(role) => CanHead(s, role)
    case RecvInternal(role) => CanRecvInternal(s, role)
    case JoinDone(role) => CanJoin(NodeOf(s, role))
    case CollectJoin(role, id) => CanCollectJoin(NodeOf(s, role), id)
    case CollectTimeout(role, id) => CanCollectTimeout(NodeOf(s, role), id)
    case CollectDone(role) => CanCollectDone(NodeOf(s, role))
    case ReadResults(role) => CanReadResults(s, role)
    case RecvServer => CanRecvServer(s)
    case Connect => CanConnect(cfg, s)
    case SendHello => s.client.pc.Greeting?
    case RecvWelcome => CanRecvWelcome(s)
    case RecvRefusal => CanRecvRefusal(s)
    case FinishCreating => CanFinishCreating(cfg, s)
    case Accept => CanAccept(s)
    case Welcome => CanWelcome(s)
    case Enqueue => s.accept.HandOff?
  }

  function ControllerNext(cfg: Config, s: World, step: Step): World
    requires !ByWorker(step) && ControllerCan(cfg, s, step)
  {
    match step
    case Head(role) => LoopHead(s, role)
    case RecvInternal(role) => ReceiveInternal(cfg, s, role)
    case JoinDone(role) => DoJoin(s, role)
    case CollectJoin(role, id) => WithNode(s, role, DoCollectJoin(NodeOf(s, role), id))
    case CollectTimeout(role, id) => WithNode(s, role, DoCollectTimeout(NodeOf(s, role), id))
    case CollectDone(role) => DoCollectDone(s, role)
    case ReadResults(role) => DoReadResults(s, role)
    case RecvServer => DoRecvServer(s)
    case Connect => DoConnect(s)
    case SendHello => DoSendHello(s)
    case RecvWelcome => DoRecvWelcome(cfg, s)
    case RecvRefusal => DoRecvRefusal(s)
    case FinishCreating => DoFinishCreating(s)
    case Accept => DoAccept(s)
    case Welcome => DoWelcome(s)
    case Enqueue => DoEnqueue(s)
  }

  // No component of the server process moves once run_server has returned.
  predicate Enabled(cfg: Config, s: World, step: Step) {
    && (step.Process().Server? ==> !s.accept.Down?)
    && if ByWorker(step) then WorkerCan(cfg, s, step) else ControllerCan(cfg, s, step)
  }

  function Next(cfg: Config, s: World, step: Step): World
    requires Enabled(cfg, s, step)
  {
    if ByWorker(step) then WorkerNext(cfg, s, step) else ControllerNext(cfg, s, step)
  }

  // ---------------------------------------------------------------------- runs

  // A run, latest state last.
  datatype Run = Begin | Extend(prefix: Run, step: Step)

  predicate Smooth(r: Run) {
    r.Extend? ==> Smooth(r.prefix) && !Fault(r.step)
  }

  // The state a run ends in; a run only takes enabled steps.
  predicate IsRun(cfg: Config, r: Run)
    decreases r, 0
  {
    match r
    case Begin => true
    case Extend(p, step) => IsRun(cfg, p) && Enabled(cfg, Last(cfg, p), step)
  }

  function Last(cfg: Config, r: Run): World
    requires IsRun(cfg, r)
    decreases r, 1
  {
    match r
    case Begin => INIT
    case Extend(p, step) => Next(cfg, Last(cfg, p), step)
  }
}
