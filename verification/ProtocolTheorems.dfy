/**
  The guarantees of the protocol, stated over every run: whatever the interleaving of the two
  controllers, the accept loop and the workers, whatever the sizes of reads and writes, and
  whichever workers fail.
 */
module ProtocolTheorems {
  import opened Protocol
  import opened ProtocolInvariant
  import opened NodeSafety
  import opened ControllerSafety
  import opened ExchangeSafety
  import opened WorkerSafety
  import opened ProtocolSafety
  import opened ProtocolProgress
  import opened Ids

  // ----------------------------------------------------------------- stream counts

  // How many of the first `n` streams of a side are sending ones.
  function SendingBelow(cfg: Config, role: Role, n: nat): nat {
    if n == 0 then 0
    else SendingBelow(cfg, role, n - 1) + if IsSending(cfg, role, n - 1) then 1 else 0
  }

  // Both sides agree on the number of streams, which is what the direction asks for exactly
  // when the u16 sum does not wrap.
  lemma TotalIsExact(cfg: Config)
    ensures TotalNeededStreams(cfg, Server) == TotalNeededStreams(cfg, Client)
    ensures var wanted := if cfg.direction.Bidirectional? then 2 * (cfg.parallel as int) else cfg.parallel as int;
            Total(cfg) == wanted <==> !cfg.direction.Bidirectional? || cfg.parallel <= 32767
  {
  }

  // The flip on the server makes the two ends of stream k complementary, wrapped sum or not.
  lemma RolesAreComplementary(cfg: Config, k: nat)
    requires k < Total(cfg)
    ensures IsSending(cfg, Client, k) != IsSending(cfg, Server, k)
    ensures cfg.direction.ClientToServer? ==> IsSending(cfg, Client, k)
    ensures cfg.direction.ServerToClient? ==> IsSending(cfg, Server, k)
  {
  }

  lemma {:induction false} SendingCount(cfg: Config, role: Role, n: nat)
    requires n <= Total(cfg)
    ensures SendingBelow(cfg, role, n) + SendingBelow(cfg, Other(role), n) == n
    ensures SendingBelow(cfg, Client, n) ==
            if n <= ClientSendStreams(cfg) as int then n else ClientSendStreams(cfg) as int
  {
    if n > 0 {
      SendingCount(cfg, role, n - 1);
      RolesAreComplementary(cfg, n - 1);
    }
  }

  // Each side sends on exactly as many of the needed streams as it was configured with, iff
  // the sum of the two counters did not wrap.
  lemma SendsAsConfigured(cfg: Config)
    ensures SendingBelow(cfg, Client, Total(cfg)) == NumSendStreams(cfg, Client) as int &&
            SendingBelow(cfg, Server, Total(cfg)) == NumSendStreams(cfg, Server) as int
            <==> !cfg.direction.Bidirectional? || cfg.parallel <= 32767
  {
    SendingCount(cfg, Client, Total(cfg));
    TotalIsExact(cfg);
  }

  // -------------------------------------------------------------------- pairing

  // Stream k of the client and stream k of the server are the two ends of connection k, under
  // the same id, and exactly one of them sends.
  lemma PairedStreams(cfg: Config, r: Run, k: nat)
    requires Total(cfg) >= 1 && IsRun(cfg, r)
    requires var s := Last(cfg, r); k < |s.client.workers| && k < |s.server.workers|
    ensures var s := Last(cfg, r); var c := s.client.workers[k]; var v := s.server.workers[k];
            && c.conn == v.conn == k < |s.conns| && c.id == v.id == k
            && c.sending != v.sending
            && c.sending == IsSending(cfg, Client, k)
  {
    var s := Last(cfg, r);
    hide NodeOk, HandshakeOk, ChannelOk, PipesOk, Enabled, Next, Last, IsRun, IsSending;
    EveryRunIsSafe(cfg, r);
    Parts(cfg, s);
    WorkersHaveConns(cfg, s);
    TaskAt(cfg, s, Client, k);
    TaskAt(cfg, s, Server, k);
    WithinTotal(cfg, s.client);
    RolesAreComplementary(cfg, k);
  }

  lemma WithinTotal(cfg: Config, n: Node)
    requires NodeOk(cfg, n)
    ensures |n.workers| <= Total(cfg)
  {
    hide WorkersOk, NothingLost;
  }

  lemma ClientFits(cfg: Config, r: Run)
    requires Total(cfg) >= 1 && IsRun(cfg, r)
    ensures |Last(cfg, r).client.workers| <= Total(cfg)
  {
    hide Last, IsRun, Inv, NodeOk;
    EveryRunIsSafe(cfg, r);
    Parts(cfg, Last(cfg, r));
    WithinTotal(cfg, Last(cfg, r).client);
  }

  // ------------------------------------------------------------------ start barrier

  ghost predicate Started(n: Node) {
    exists t :: 0 <= t < |n.workers| && !n.workers[t].pc.WaitStart?
  }

  // No worker transfers before the server has registered every stream; a client worker waits
  // until the client has too. StartLoad is sent once, before any Terminate, and is the first
  // signal a worker sees.
  lemma StartBarrier(cfg: Config, r: Run)
    requires Total(cfg) >= 1 && IsRun(cfg, r)
    ensures var s := Last(cfg, r);
            && (Started(s.server) || Started(s.client) ==> |s.server.workers| == Total(cfg))
            && (Started(s.client) ==> |s.client.workers| == Total(cfg))
            && (s.client.state.Running? ==> |s.client.workers| == Total(cfg))
    ensures forall role: Role, t: nat :: t < |NodeOf(Last(cfg, r), role).workers| ==>
              var sent := NodeOf(Last(cfg, r), role).workers[t].sent;
              sent == [] || Signals(sent)
    ensures forall role: Role, t: nat :: !CanBail(Last(cfg, r), role, t)
  {
    var s := Last(cfg, r);
    hide Inv, NodeOk, HandshakeOk, ChannelOk, PipesOk, Enabled, Next, Last, IsRun, CanBail;
    EveryRunIsSafe(cfg, r);
    Parts(cfg, s);
    BarrierOf(cfg, s.server);
    BarrierOf(cfg, s.client);
    ServerFirst(cfg, s);
    forall role: Role, t: nat ensures !CanBail(s, role, t) { NeverBails(cfg, s, role, t); }
  }

  lemma BarrierOf(cfg: Config, n: Node)
    requires NodeOk(cfg, n)
    ensures Started(n) ==> n.state.Running? || n.state.ExchangeResults?
    ensures n.state.Running? || n.state.ExchangeResults? ==> |n.workers| == Total(cfg)
    ensures forall t: nat :: t < |n.workers| ==> n.workers[t].sent == [] || Signals(n.workers[t].sent)
  {
    hide WorkersOk, NothingLost, QueueOk, Notified, HandlesOk;
  }

  // Before a controller waits for its streams it has told each of them to stop: while it collects,
  // every worker it still waits for has been sent Terminate, once, after StartLoad.
  lemma CollectorHasTerminated(cfg: Config, r: Run, role: Role, id: nat)
    requires Total(cfg) >= 1 && IsRun(cfg, r)
    requires var n := NodeOf(Last(cfg, r), role);
             n.pc.Collecting? && id in n.streams && n.streams[id] < |n.workers| && !n.workers[n.streams[id]].pc.Done?
    ensures var n := NodeOf(Last(cfg, r), role);
            n.streams[id] == id && n.workers[id].sent == [StartLoad, Terminate]
  {
    hide Last, IsRun, Inv, NodeOk, Accounted, QueueOk;
    EveryRunIsSafe(cfg, r);
    Parts(cfg, Last(cfg, r));
    CollectState(cfg, NodeOf(Last(cfg, r), role));
    CollectsOwn(cfg, NodeOf(Last(cfg, r), role), id);
  }

  // ------------------------------------------------------------- orderly shutdown

  // Where a read of 0 means the end, a receiver that returned without an error has read its
  // stream to the end: its paired sender has returned and nothing is left in the pipe.
  lemma ReceiverOutlivesSender(cfg: Config, r: Run, role: Role, k: nat)
    requires Total(cfg) >= 1 && IsRun(cfg, r)
    requires SeesEnd(cfg) && k < |NodeOf(Last(cfg, r), role).workers|
    requires var w := NodeOf(Last(cfg, r), role).workers[k];
             !w.sending && w.pc.Done? && w.pc.outcome.Ok?
    ensures var s := Last(cfg, r); var peers := NodeOf(s, Other(role)).workers;
            && k < |peers| && peers[k].sending && peers[k].pc.Done?
            && k < |s.conns| && PipeFrom(s.conns[k], Other(role)).inflight == 0
  {
    var s := Last(cfg, r);
    hide NodeOk, HandshakeOk, ChannelOk, Enabled, Next, Last, IsRun, IsSending;
    EveryRunIsSafe(cfg, r);
    Parts(cfg, s);
    WorkersHaveConns(cfg, s);
    assert FlowOk(cfg, s, Other(role), k);
    assert k < |NodeOf(s, Other(role)).workers|;
    PairedStreams(cfg, r, k);
  }

  // So a sender never writes to a peer that has already returned successfully.
  lemma NoWriteToClosedPeer(cfg: Config, r: Run, role: Role, k: nat, n: nat)
    requires Total(cfg) >= 1 && IsRun(cfg, r)
    requires Enabled(cfg, Last(cfg, r), Write(role, k, n))
    ensures var peers := NodeOf(Last(cfg, r), Other(role)).workers;
            k < |peers| && peers[k].pc.Done? ==> peers[k].pc.outcome.Failed?
  {
    var s := Last(cfg, r);
    hide Next, Last, IsRun, Inv, IsSending;
    var peers := NodeOf(s, Other(role)).workers;
    if k < |peers| && peers[k].pc.Done? {
      PairedStreams(cfg, r, k);
      if peers[k].pc.outcome.Ok? {
        WritesHaveBytes(cfg, s, role, k, n);
        ReceiverOutlivesSender(cfg, r, Other(role), k);
      }
    }
  }

  lemma WritesHaveBytes(cfg: Config, s: World, role: Role, k: nat, n: nat)
    requires Enabled(cfg, s, Write(role, k, n))
    ensures SeesEnd(cfg)
  {
  }

  // When the client handles ExchangeResults, every server worker has returned, and so has, where
  // a read of 0 means the end, every client sender whose server end did not fail.
  lemma SendersAreBack(cfg: Config, r: Run, k: nat)
    requires Total(cfg) >= 1 && IsRun(cfg, r)
    requires Last(cfg, r).client.state.ExchangeResults? && k < Total(cfg)
    ensures var s := Last(cfg, r);
            && |s.client.workers| == |s.server.workers| == Total(cfg)
            && s.server.workers[k].pc.Done?
            && (SeesEnd(cfg) && s.client.workers[k].sending && s.server.workers[k].pc.outcome.Ok? ==>
                  s.client.workers[k].pc.Done?)
  {
    var s := Last(cfg, r);
    hide Inv, NodeOk, HandshakeOk, ChannelOk, PipesOk, Enabled, Next, Last, IsRun;
    EveryRunIsSafe(cfg, r);
    Parts(cfg, s);
    ServerFirst(cfg, s);
    BarrierOf(cfg, s.client);
    AllBack(cfg, s.server);
    if SeesEnd(cfg) && s.client.workers[k].sending && s.server.workers[k].pc.outcome.Ok? {
      PairedStreams(cfg, r, k);
      ReceiverOutlivesSender(cfg, r, Server, k);
    }
  }

  // The five-second timeout never hits the server; where a read of 0 means the end it can
  // only hit a client receiver, or a client sender whose server end failed.
  lemma WhoCanTimeOut(cfg: Config, r: Run, role: Role, id: nat)
    requires Total(cfg) >= 1 && IsRun(cfg, r)
    requires CanCollectTimeout(NodeOf(Last(cfg, r), role), id)
    ensures var s := Last(cfg, r);
            && role.Client? && id < |s.client.workers| && id < |s.server.workers|
            && (SeesEnd(cfg) && s.client.workers[id].sending ==> s.server.workers[id].pc == Done(Failed))
  {
    hide Inv, Enabled, Next, Last, IsRun, Collectable;
    EveryRunIsSafe(cfg, r);
    TimedOutClient(cfg, Last(cfg, r), role, id);
    SendersAreBack(cfg, r, id);
  }

  // Only the client ever finds an active stream when it collects.
  lemma TimedOutClient(cfg: Config, s: World, role: Role, id: nat)
    requires Inv(cfg, s) && CanCollectTimeout(NodeOf(s, role), id)
    ensures role.Client? && s.client.state.ExchangeResults? && s.client.streams[id] == id < Total(cfg)
    ensures id < |s.client.workers| && !s.client.workers[id].pc.Done?
  {
    hide Inv, NodeOk, HandshakeOk, ChannelOk, PipesOk, WindingUp;
    Parts(cfg, s);
    CollectState(cfg, NodeOf(s, role));
    CollectsOwn(cfg, s.client, id);
  }

  // --------------------------------------------------------------- announcements

  // The client handles a prefix of what the server announced, the server announces a prefix of
  // CreateStreams, Running, ExchangeResults, and no unexpected-message branch is reached.
  lemma StatesInOrder(cfg: Config, r: Run)
    requires Total(cfg) >= 1 && IsRun(cfg, r)
    ensures var s := Last(cfg, r);
            && s.handled <= s.announced <= [CreateStreams, Running, ExchangeResults]
            && (s.announced == [] <==> s.server.state.TestStart?)
            && (s.announced != [] ==> s.server.state == s.announced[|s.announced| - 1])
            && (s.handled != [] ==> s.client.state == s.handled[|s.handled| - 1])
            && !s.client.pc.Aborted? && !s.server.pc.Aborted?
            && s.refused == {}
    ensures var s := Last(cfg, r); CanReadResults(s, Client) ==> s.toClient[0].ServerResults?
    ensures var s := Last(cfg, r); CanRecvServer(s) ==> s.toClient[0].SetState?
  {
    hide Inv, Enabled, Next, Last, IsRun, Announcements, CanReadResults, CanRecvServer;
    EveryRunIsSafe(cfg, r);
    OrderOf(cfg, Last(cfg, r));
  }

  lemma OrderOf(cfg: Config, s: World)
    requires Inv(cfg, s)
    ensures s.handled <= s.announced <= [CreateStreams, Running, ExchangeResults]
    ensures s.announced == [] <==> s.server.state.TestStart?
    ensures s.announced != [] ==> s.server.state == s.announced[|s.announced| - 1]
    ensures s.handled != [] ==> s.client.state == s.handled[|s.handled| - 1]
    ensures !s.client.pc.Aborted? && !s.server.pc.Aborted? && s.refused == {}
    ensures CanReadResults(s, Client) ==> s.toClient[0].ServerResults?
    ensures CanRecvServer(s) ==> s.toClient[0].SetState?
  {
    hide WorkersOk, NothingLost, PhaseOk, PipesOk, QueueInOrder, ChannelOk, Dialling,
         CanReadResults, CanRecvServer;
    Sequence(s);
    ExpectedMessage(cfg, s);
  }

  lemma Sequence(s: World)
    requires ChannelOk(s)
    ensures s.handled <= s.announced <= [CreateStreams, Running, ExchangeResults]
    ensures s.announced == [] <==> s.server.state.TestStart?
    ensures s.announced != [] ==> s.server.state == s.announced[|s.announced| - 1]
    ensures s.handled != [] ==> s.client.state == s.handled[|s.handled| - 1]
  {
    hide Pending;
  }

  lemma ExpectedMessage(cfg: Config, s: World)
    requires ChannelOk(s) && NodesOk(cfg, s)
    ensures CanReadResults(s, Client) ==> s.toClient[0].ServerResults?
    ensures CanRecvServer(s) ==> s.toClient[0].SetState?
  {
    hide WorkersOk, NothingLost, PhaseOk;
  }

  // ------------------------------------------------------------------- accounting

  // From Running on, every stream is in exactly one place, and a stored result is the one the
  // stream's own worker returned, with that worker's byte count.
  lemma EveryStreamAccountedFor(cfg: Config, r: Run, role: Role, id: nat)
    requires Total(cfg) >= 1 && IsRun(cfg, r) && id < Total(cfg)
    requires var n := NodeOf(Last(cfg, r), role); n.state.Running? || n.state.ExchangeResults?
    ensures var n := NodeOf(Last(cfg, r), role);
            && |n.workers| == Total(cfg)
            && (if id in n.streams then 1 else 0) + (if Joining(n, id) then 1 else 0)
               + (if id in n.results then 1 else 0) + (if id in n.failed then 1 else 0)
               + (if id in n.timedOut then 1 else 0) == 1
            && (id in n.results ==>
                  n.workers[id].pc == Done(Ok(n.results[id])) &&
                  n.results[id] == StatsOf(n.workers[id]))
            && (id in n.failed ==> n.workers[id].pc == Done(Failed))
            && (role.Server? ==> id !in n.timedOut)
  {
    var s := Last(cfg, r);
    hide Inv, NodeOk, HandshakeOk, ChannelOk, PipesOk, Enabled, Next, Last, IsRun, Accounted, IsSending;
    EveryRunIsSafe(cfg, r);
    Parts(cfg, s);
    AccountedOf(cfg, NodeOf(s, role));
    Placed(cfg, NodeOf(s, role), id);
  }

  lemma AccountedOf(cfg: Config, n: Node)
    requires NodeOk(cfg, n) && (n.state.Running? || n.state.ExchangeResults?)
    ensures Accounted(cfg, n) && WorkersOk(cfg, n.role, n.workers)
    ensures n.role.Server? ==> n.timedOut == {}
  {
    hide WorkersOk, NothingLost, QueueOk, AllSent;
    if n.state.Running? && !n.prior.Running? {
      assert forall t | 0 <= t < |n.workers| :: t in n.streams;
    }
  }

  lemma Placed(cfg: Config, n: Node, id: nat)
    requires Accounted(cfg, n) && WorkersOk(cfg, n.role, n.workers) && id < |n.workers|
    ensures (if id in n.streams then 1 else 0) + (if Joining(n, id) then 1 else 0)
            + (if id in n.results then 1 else 0) + (if id in n.failed then 1 else 0)
            + (if id in n.timedOut then 1 else 0) == 1
    ensures id in n.results ==>
              n.workers[id].pc == Done(Ok(n.results[id])) &&
              n.results[id] == StatsOf(n.workers[id])
    ensures id in n.failed ==> n.workers[id].pc == Done(Failed)
  {
    hide IsSending;
    assert WorkerOk(cfg, n.role, id, n.workers[id]);
  }

  // ------------------------------------------------------------ no lost notification

  // With at most five streams every try_send to a controller succeeds, and a stream that is
  // still active under load has either not returned or has its notification in the queue once.
  lemma NoLostNotification(cfg: Config, r: Run)
    requires 1 <= Total(cfg) <= INTERNAL_PROT_BUFFER && IsRun(cfg, r)
    ensures var s := Last(cfg, r);
            s.server.lost == {} && s.client.lost == {} && !s.accept.Down?
    ensures NotificationsExact(Last(cfg, r).server) && NotificationsExact(Last(cfg, r).client)
  {
    var s := Last(cfg, r);
    hide Inv, NodeOk, HandshakeOk, Enabled, Next, Last, IsRun;
    EveryRunIsSafe(cfg, r);
    Parts(cfg, s);
    ServerPlaces(cfg, s);
    NotifiedOnce(cfg, s.server);
    NotifiedOnce(cfg, s.client);
  }

  // Under load: returned and active means notified and not yet handled, and only once.
  ghost predicate NotificationsExact(n: Node) {
    n.state.Running? ==>
      && (forall id: nat :: id in n.streams ==>
            id < |n.workers| && (n.workers[id].pc.Done? <==> StreamTerminated(id) in n.queue))
      && (forall i, j :: 0 <= i < j < |n.queue| ==> n.queue[i] != n.queue[j])
  }

  lemma NotifiedOnce(cfg: Config, n: Node)
    requires NodeOk(cfg, n) && Total(cfg) <= INTERNAL_PROT_BUFFER
    ensures n.lost == {} && NotificationsExact(n)
  {
    hide WorkersOk, Accounted, AllSent;
    if n.state.Running? && n.prior.Running? { AccountedOf(cfg, n); HandlesOf(cfg, n); }
  }

  // --------------------------------------------------------------------- loop counts

  // The controller loops are bounded: 2 * total + 2 entries on the server, exactly that many
  // in a finished run, and total + 4 on the client.
  lemma LoopBounds(cfg: Config, r: Run)
    requires Total(cfg) >= 1 && IsRun(cfg, r)
    ensures var s := Last(cfg, r);
            && s.server.iters <= 2 * Total(cfg) + 2
            && s.client.iters <= Total(cfg) + 4
            && (s.server.pc.Finished? ==> s.server.iters == 2 * Total(cfg) + 2)
  {
    hide WorkersOk, NothingLost, HandshakeOk, ChannelOk, PipesOk, Enabled, Next, Last, IsRun, HandlesOk, QueueOk,
         Notified, AllSent, AllWaiting, Accounted;
    EveryRunIsSafe(cfg, r);
    NodeMeasureNat(cfg, Last(cfg, r).server);
    NodeMeasureNat(cfg, Last(cfg, r).client);
  }

  // ------------------------------------------------------------------- conservation

  // At every moment the bytes the sender counted are those the receiver counted, those it
  // drained without counting, and those on the way.
  lemma BytesConserved(cfg: Config, r: Run, writer: Role, k: nat)
    requires Total(cfg) >= 1 && IsRun(cfg, r) && k < |Last(cfg, r).conns|
    ensures var s := Last(cfg, r);
            Given(NodeOf(s, writer).workers, k) ==
            Taken(NodeOf(s, Other(writer)).workers, k) + PipeFrom(s.conns[k], writer).inflight
  {
    hide NodeOk, HandshakeOk, ChannelOk, Enabled, Next, Last, IsRun;
    EveryRunIsSafe(cfg, r);
    assert FlowOk(cfg, Last(cfg, r), writer, k);
  }

  // ---------------------------------------------------------------- the finished run

  // The two results of stream k: one end sent what the other end counted or drained.
  ghost predicate FinishedStream(s: World, k: nat)
    requires k in s.server.results && k in s.client.results
  {
    var sender := if s.client.results[k].sender then s.client.results[k] else s.server.results[k];
    var receiver := if s.client.results[k].sender then s.server.results[k] else s.client.results[k];
    var worker := if s.client.results[k].sender then s.server.workers else s.client.workers;
    && sender.sender && !receiver.sender && k < |worker|
    && sender.bytes == receiver.bytes + worker[k].drained
  }

  // When both controllers are done, each holds the other's results, which are those of all
  // streams not lost to a fault; no stream is active; and for every stream that both ends
  // reported, the receiver's count plus what it drained is the sender's.
  lemma FinishedRun(cfg: Config, r: Run)
    requires Total(cfg) >= 1 && IsRun(cfg, r) && Complete(Last(cfg, r))
    ensures var s := Last(cfg, r);
            && s.client.pc.remote == s.server.results && s.server.pc.remote == s.client.results
            && s.server.streams == map[] && s.client.streams == map[]
            && s.handled == [CreateStreams, Running, ExchangeResults]
            && s.server.results.Keys == Below(Total(cfg)) - s.server.failed - s.server.timedOut
            && s.client.results.Keys == Below(Total(cfg)) - s.client.failed - s.client.timedOut
    ensures forall k: nat ::
              k in Last(cfg, r).server.results && k in Last(cfg, r).client.results ==>
                FinishedStream(Last(cfg, r), k)
  {
    var s := Last(cfg, r);
    hide Inv, NodeOk, HandshakeOk, PipesOk, Enabled, Next, Last, IsRun, IsSending, Accounted;
    EveryRunIsSafe(cfg, r);
    Parts(cfg, s);
    FinishedNode(cfg, s.server);
    FinishedNode(cfg, s.client);
    forall k: nat | k in s.server.results && k in s.client.results
      ensures FinishedStream(s, k)
    {
      FinishedPair(cfg, r, k);
    }
  }

  lemma FinishedNode(cfg: Config, n: Node)
    requires NodeOk(cfg, n) && n.pc.Finished?
    ensures n.state.ExchangeResults? && n.streams == map[] && Accounted(cfg, n)
    ensures n.results.Keys == Below(Total(cfg)) - n.failed - n.timedOut
  {
    hide WorkersOk, NothingLost, QueueOk, Notified, AllSent;
  }

  lemma NothingInFlight(cfg: Config, s: World, role: Role, k: nat)
    requires PipesOk(cfg, s) && k < |s.conns| && k < |NodeOf(s, role).workers|
    requires var w := NodeOf(s, role).workers[k]; !w.sending && w.pc.Done? && w.pc.outcome.Ok?
    ensures PipeFrom(s.conns[k], Other(role)).inflight == 0
  {
    assert FlowOk(cfg, s, Other(role), k);
  }

  lemma FinishedPair(cfg: Config, r: Run, k: nat)
    requires Total(cfg) >= 1 && IsRun(cfg, r) && Complete(Last(cfg, r))
    requires k in Last(cfg, r).server.results && k in Last(cfg, r).client.results
    ensures FinishedStream(Last(cfg, r), k)
  {
    var s := Last(cfg, r);
    hide Inv, NodeOk, HandshakeOk, ChannelOk, PipesOk, Enabled, Next, Last, IsRun, IsSending, Accounted;
    EveryRunIsSafe(cfg, r);
    Parts(cfg, s);
    FinishedNode(cfg, s.server);
    FinishedNode(cfg, s.client);
    EveryStreamAccountedFor(cfg, r, Server, k);
    EveryStreamAccountedFor(cfg, r, Client, k);
    PairedStreams(cfg, r, k);
    WorkersHaveConns(cfg, s);
    var receiver := if s.client.workers[k].sending then Server else Client;
    NothingInFlight(cfg, s, receiver, k);
    BytesConserved(cfg, r, Other(receiver), k);
    PairMatches(s, receiver, k);
  }

  lemma PairMatches(s: World, receiver: Role, k: nat)
    requires k in s.server.results && k in s.client.results
    requires k < |s.server.workers| && k < |s.client.workers| && k < |s.conns|
    requires s.server.results[k] == StatsOf(s.server.workers[k])
    requires s.client.results[k] == StatsOf(s.client.workers[k])
    requires s.client.workers[k].sending != s.server.workers[k].sending
    requires !NodeOf(s, receiver).workers[k].sending
    requires PipeFrom(s.conns[k], Other(receiver)).inflight == 0
    requires Given(NodeOf(s, Other(receiver)).workers, k) ==
             Taken(NodeOf(s, receiver).workers, k) + PipeFrom(s.conns[k], Other(receiver)).inflight
    ensures FinishedStream(s, k)
  {
  }
}
