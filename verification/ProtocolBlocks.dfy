/**
  What a block length of 0 does to the orderly end of a test. Where a read into an empty buffer
  returns 0 at once, a receiver takes that for the end of its stream. So the guarantees that rest on
  a receiver having seen the end hold in every run exactly when there is no such read to be had.
 */
module ProtocolBlocks {
  import opened Protocol
  import opened ProtocolInvariant
  import opened NodeSafety
  import opened ControllerSafety
  import opened ExchangeSafety
  import opened WorkerSafety
  import opened ProtocolSafety
  import opened ProtocolProgress
  import opened ProtocolTheorems
  import opened ProtocolRuns
  import opened ProtocolCompletion
  import opened Ids

  predicate Succeeded(w: Worker) {
    !w.sending && w.pc.Done? && w.pc.outcome.Ok?
  }

  // A receiver that reports success has outlived its sender.
  ghost predicate ReceiversOutlive(s: World) {
    forall role: Role, k: nat :: k < |NodeOf(s, role).workers| && Succeeded(NodeOf(s, role).workers[k]) ==>
      k < |NodeOf(s, Other(role)).workers| && NodeOf(s, Other(role)).workers[k].pc.Done?
  }

  // When the client collects, its senders are back, except where the server's end failed.
  ghost predicate SendersBack(s: World) {
    s.client.state.ExchangeResults? ==>
      forall k: nat ::
        (k < |s.client.workers| && k < |s.server.workers| &&
         s.client.workers[k].sending && Succeeded(s.server.workers[k]))
        ==> s.client.workers[k].pc.Done?
  }

  // A client sender is only given up when its server end failed.
  ghost predicate TimeoutsExcused(s: World) {
    forall id: nat :: CanCollectTimeout(s.client, id) && id < |s.client.workers| && s.client.workers[id].sending ==>
      id < |s.server.workers| && s.server.workers[id].pc == Done(Failed)
  }

  // ------------------------------------------------------------------- blocks of a byte or more

  lemma OutliveWithBytes(cfg: Config, r: Run)
    requires Total(cfg) >= 1 && IsRun(cfg, r) && SeesEnd(cfg)
    ensures ReceiversOutlive(Last(cfg, r))
  {
    hide Last, IsRun;
    var s := Last(cfg, r);
    forall role: Role, k: nat | k < |NodeOf(s, role).workers| && Succeeded(NodeOf(s, role).workers[k])
      ensures k < |NodeOf(s, Other(role)).workers| && NodeOf(s, Other(role)).workers[k].pc.Done?
    {
      ReceiverOutlivesSender(cfg, r, role, k);
    }
  }

  // Or the client does not send at all.
  predicate Harmless(cfg: Config) {
    SeesEnd(cfg) || cfg.direction.ServerToClient?
  }

  lemma NoClientSender(cfg: Config, r: Run, k: nat)
    requires Total(cfg) >= 1 && IsRun(cfg, r) && cfg.direction.ServerToClient?
    requires k < |Last(cfg, r).client.workers|
    ensures !Last(cfg, r).client.workers[k].sending
  {
    hide Last, IsRun, HandshakeOk, ChannelOk, PipesOk, NothingLost, PhaseOk, PcOk;
    EveryRunIsSafe(cfg, r);
    assert WorkerOk(cfg, Client, k, Last(cfg, r).client.workers[k]);
  }

  lemma BackWithBytes(cfg: Config, r: Run)
    requires Total(cfg) >= 1 && IsRun(cfg, r) && Harmless(cfg)
    ensures SendersBack(Last(cfg, r))
  {
    hide Last, IsRun;
    var s := Last(cfg, r);
    forall k: nat | s.client.state.ExchangeResults? && k < |s.client.workers| && k < |s.server.workers| &&
                    s.client.workers[k].sending && Succeeded(s.server.workers[k])
      ensures s.client.workers[k].pc.Done?
    {
      if cfg.direction.ServerToClient? { NoClientSender(cfg, r, k); }
      ClientFits(cfg, r);
      SendersAreBack(cfg, r, k);
    }
  }

  lemma ExcusedWithBytes(cfg: Config, r: Run)
    requires Total(cfg) >= 1 && IsRun(cfg, r) && Harmless(cfg)
    ensures TimeoutsExcused(Last(cfg, r))
  {
    hide Last, IsRun, CanCollectTimeout;
    var s := Last(cfg, r);
    forall id: nat | CanCollectTimeout(s.client, id) && id < |s.client.workers| && s.client.workers[id].sending
      ensures id < |s.server.workers| && s.server.workers[id].pc == Done(Failed)
    {
      if cfg.direction.ServerToClient? { NoClientSender(cfg, r, id); }
      WhoCanTimeOut(cfg, r, Client, id);
    }
  }

  // -------------------------------------------------------------------- blocks of length 0

  // The receiver of stream 0 starts and returns while its sender has not started.
  lemma ReceiverIsEarly(cfg: Config) returns (r: Run)
    requires Total(cfg) >= 1 && !SeesEnd(cfg)
    ensures Trace(cfg, r) && !ReceiversOutlive(Last(cfg, r))
  {
    hide Last, IsRun, Smooth, IsSending, Back;
    var r0 := BothLoaded(cfg);
    var role := if IsSending(cfg, Client, 0) then Server else Client;
    RolesAreComplementary(cfg, 0);
    Startable(cfg, r0, role, 0);
    r := ReceiverReturns(cfg, r0, role, 0);
    BackIsReady(cfg, NodeOf(Last(cfg, r0), role), 0);
    BackKeepsRole(NodeOf(Last(cfg, r0), role), 0);
    assert Succeeded(NodeOf(Last(cfg, r), role).workers[0]);
  }

  lemma BackKeepsRole(n: Node, j: nat)
    requires j < |n.workers| && n.workers[j].inbox != []
    ensures Back(n, j).workers[j].sending == n.workers[j].sending
  {
  }

  // The first `j` server streams are over, and the client has not moved.
  ghost predicate Emptied(cfg: Config, s: World, j: nat) {
    && BothReady(cfg, s, j) && Ready(cfg, s.client, 0)
    && s.server.queue == [] && s.server.streams.Keys == Below(Total(cfg)) - Below(j)
  }

  // The server winds up alone.
  ghost predicate Alone(cfg: Config, s: World) {
    && s.accept.Idle? && s.client.role.Client? && Ready(cfg, s.client, 0) && s.server.state.ExchangeResults?
  }

  lemma TakesNotice(cfg: Config, s: World, j: nat)
    requires s.accept.Idle? && s.server.role.Server? && s.server.pc.Recv? && s.server.queue == [StreamTerminated(j)]
    requires j in s.server.streams && s.server.streams[j] == j < |s.server.workers| && s.server.workers[j].pc.Done?
    ensures Enabled(cfg, s, RecvInternal(Server))
    ensures var s1 := Next(cfg, s, RecvInternal(Server));
            && Enabled(cfg, s1, JoinDone(Server))
            && var s2 := Next(cfg, s1, JoinDone(Server));
            && s2.accept == s.accept && s2.client == s.client
            && s2.server == s.server.(pc := Top, queue := [], streams := s.server.streams - {j},
                                      state := s2.server.state, results := s2.server.results,
                                      failed := s2.server.failed)
            && s2.server.state == if s.server.streams - {j} == map[] then ExchangeResults else s.server.state
  {
  }

  lemma OwnHandle(cfg: Config, r: Run, id: nat)
    requires Total(cfg) >= 1 && Trace(cfg, r) && Last(cfg, r).server.state.Running? && id in Last(cfg, r).server.streams
    ensures Last(cfg, r).server.streams[id] == id
  {
    hide Last, IsRun, Smooth, Inv, NodeOk, Accounted;
    EveryRunIsSafe(cfg, r);
    Parts(cfg, Last(cfg, r));
    AccountedOf(cfg, Last(cfg, r).server);
    HandlesOf(cfg, Last(cfg, r).server);
  }

  lemma BackQueues(cfg: Config, n: Node, j: nat)
    requires Ready(cfg, n, j) && j < Total(cfg) && n.queue == [] && n.workers[j].id == j
    ensures Back(n, j).queue == [StreamTerminated(j)] && Back(n, j).streams == n.streams
    ensures Back(n, j).workers[j].pc.Done? && |Back(n, j).workers| == |n.workers|
  {
  }

  lemma WorkerEnds(cfg: Config, r: Run, j: nat) returns (r': Run)
    requires Total(cfg) >= 1 && !SeesEnd(cfg) && Trace(cfg, r) && Emptied(cfg, Last(cfg, r), j) && j < Total(cfg)
    ensures var n := Last(cfg, r).server; j < |n.workers| && n.workers[j].inbox != [] && n.workers[j].id == j
    ensures Trace(cfg, r') && Last(cfg, r').accept.Idle? && Last(cfg, r').client == Last(cfg, r).client
    ensures Last(cfg, r').server == Back(Last(cfg, r).server, j)
  {
    hide Trace, Last, IsRun, Orderly, Rested, IsSending, Back, Enabled, Next;
    Startable(cfg, r, Server, j);
    BackFrame(cfg, Last(cfg, r).server, j);
    if IsSending(cfg, Server, j) {
      r' := SenderReturns(cfg, r, Server, j);
    } else {
      r' := ReceiverReturns(cfg, r, Server, j);
    }
  }

  // The controller takes the only notification and joins its stream.
  lemma HandledOne(cfg: Config, r: Run, j: nat) returns (r': Run)
    requires Total(cfg) >= 1 && Trace(cfg, r) && Last(cfg, r).accept.Idle?
    requires var n := Last(cfg, r).server;
             && n.role.Server? && n.state.Running? && n.pc.Recv? && n.queue == [StreamTerminated(j)]
             && j in n.streams && j < |n.workers| && n.workers[j].pc.Done?
    ensures Trace(cfg, r')
    ensures var s, s' := Last(cfg, r), Last(cfg, r');
            && s'.accept == s.accept && s'.client == s.client
            && s'.server == s.server.(pc := Top, queue := [], streams := s.server.streams - {j},
                                      state := s'.server.state, results := s'.server.results,
                                      failed := s'.server.failed)
            && s'.server.state == if s.server.streams - {j} == map[] then ExchangeResults else Running
  {
    hide Trace, Last, IsRun, Orderly, Rested, Enabled, Next;
    OwnHandle(cfg, r, j);
    TakesNotice(cfg, Last(cfg, r), j);
    r' := GoOn(cfg, r, RecvInternal(Server));
    r' := GoOn(cfg, r', JoinDone(Server));
  }

  lemma OneStreamEnds(cfg: Config, r: Run, j: nat) returns (r': Run)
    requires Total(cfg) >= 1 && !SeesEnd(cfg) && Trace(cfg, r) && Emptied(cfg, Last(cfg, r), j) && j < Total(cfg)
    ensures Trace(cfg, r')
    ensures if j + 1 < Total(cfg) then Emptied(cfg, Last(cfg, r'), j + 1) else Alone(cfg, Last(cfg, r'))
  {
    hide Trace, Last, IsRun, Orderly, Rested, IsSending, Back, Enabled, Next;
    r' := WorkerEnds(cfg, r, j);
    BackFrame(cfg, Last(cfg, r).server, j);
    BackQueues(cfg, Last(cfg, r).server, j);
    r' := HandledOne(cfg, r', j);
    var m := Last(cfg, r').server;
    assert m.streams.Keys == Below(Total(cfg)) - Below(j + 1);
    if j + 1 < Total(cfg) {
      assert j + 1 in m.streams.Keys;
      ReadsOn(cfg, Last(cfg, r'));
      r' := GoOn(cfg, r', Head(Server));
    } else {
      assert m.streams == map[];
    }
  }

  lemma ReadsOn(cfg: Config, s: World)
    requires s.accept.Idle? && s.server.role.Server?
    requires s.server.pc.Top? && s.server.state.Running? && s.server.prior.Running?
    ensures Enabled(cfg, s, Head(Server))
    ensures Next(cfg, s, Head(Server)) == s.(server := s.server.(iters := s.server.iters + 1, pc := Recv))
  {
  }

  lemma ServerAlone(cfg: Config) returns (r: Run)
    requires Total(cfg) >= 1 && !SeesEnd(cfg)
    ensures Trace(cfg, r) && Alone(cfg, Last(cfg, r))
  {
    hide Last, IsRun, Smooth, Ready;
    r := BothLoaded(cfg);
    for j := 0 to Total(cfg)
      invariant Trace(cfg, r)
      invariant if j < Total(cfg) then Emptied(cfg, Last(cfg, r), j) else Alone(cfg, Last(cfg, r))
    {
      r := OneStreamEnds(cfg, r, j);
    }
  }

  // The client hears that it is time to exchange results before its sender has started, and gives
  // the sender up although the server's end reported success.
  lemma SenderIsLate(cfg: Config) returns (r: Run, q: Run)
    requires Total(cfg) >= 1 && !Harmless(cfg)
    ensures Trace(cfg, r) && !SendersBack(Last(cfg, r))
    ensures Trace(cfg, q) && !TimeoutsExcused(Last(cfg, q))
  {
    hide Last, IsRun, Smooth, Inv, NodeOk, IsSending, Clean;
    var p := ServerAlone(cfg);
    EveryRunIsSafe(cfg, p);
    NextHeard(cfg, Last(cfg, p));
    r := GoOn(cfg, p, RecvServer);
    FirstPair(cfg, p);
    q := GoOn(cfg, r, Head(Client));
    GivenUp(cfg, Last(cfg, r).client);
    assert CanCollectTimeout(Last(cfg, q).client, 0);
  }

  lemma GivenUp(cfg: Config, n: Node)
    requires n.pc.Top? && n.state.ExchangeResults? && 0 in n.streams && n.streams[0] == 0 < |n.workers|
    requires !n.workers[0].pc.Done?
    ensures CanCollectTimeout(HeadOf(n), 0) && HeadOf(n).workers[0].sending == n.workers[0].sending
    ensures |HeadOf(n).workers| == |n.workers|
  {
  }

  // Stream 0 of both ends, once the server has wound up and the client has not moved.
  lemma FirstPair(cfg: Config, r: Run)
    requires Total(cfg) >= 1 && !Harmless(cfg) && Trace(cfg, r) && Alone(cfg, Last(cfg, r))
    ensures var s := Last(cfg, r);
            && |s.client.workers| == |s.server.workers| == Total(cfg)
            && s.client.workers[0].sending && s.client.workers[0].pc.WaitStart? && Succeeded(s.server.workers[0])
            && 0 in s.client.streams && s.client.streams[0] == 0
  {
    hide Last, IsRun, Smooth, Inv, NodeOk, HandshakeOk, ChannelOk, PipesOk, Accounted;
    var s := Last(cfg, r);
    EveryRunIsSafe(cfg, r);
    Parts(cfg, s);
    AllBack(cfg, s.server);
    SmoothIsClean(cfg, r);
    PairedStreams(cfg, r, 0);
    AccountedOf(cfg, s.client);
    HandlesOf(cfg, s.client);
  }

  // -------------------------------------------------------------------------- exactly when

  ghost predicate AlwaysOutlive(cfg: Config) {
    forall r | IsRun(cfg, r) :: ReceiversOutlive(Last(cfg, r))
  }

  ghost predicate AlwaysBack(cfg: Config) {
    forall r | IsRun(cfg, r) :: SendersBack(Last(cfg, r))
  }

  ghost predicate AlwaysExcused(cfg: Config) {
    forall r | IsRun(cfg, r) :: TimeoutsExcused(Last(cfg, r))
  }

  lemma OrderlyEndExactly(cfg: Config)
    requires Total(cfg) >= 1
    ensures AlwaysOutlive(cfg) <==> SeesEnd(cfg)
    ensures AlwaysBack(cfg) <==> Harmless(cfg)
    ensures AlwaysExcused(cfg) <==> Harmless(cfg)
  {
    hide Last, ReceiversOutlive, SendersBack, TimeoutsExcused;
    if SeesEnd(cfg) {
      forall r | IsRun(cfg, r) ensures ReceiversOutlive(Last(cfg, r)) { OutliveWithBytes(cfg, r); }
    } else {
      var r := ReceiverIsEarly(cfg);
    }
    if Harmless(cfg) {
      forall r | IsRun(cfg, r) ensures SendersBack(Last(cfg, r)) { BackWithBytes(cfg, r); }
      forall r | IsRun(cfg, r) ensures TimeoutsExcused(Last(cfg, r)) { ExcusedWithBytes(cfg, r); }
    } else {
      var r, q := SenderIsLate(cfg);
    }
  }
}
