/** What the steps of one controller and of its workers keep of that side's own invariant. */
module NodeSafety {
  import opened Protocol
  import opened ProtocolInvariant
  import opened Ids

  // ------------------------------------------------------------- worker steps

  // Workers only move under load or later.
  lemma PastRegistering(cfg: Config, n: Node, t: nat)
    requires NodeOk(cfg, n) && t < |n.workers|
    requires !n.workers[t].pc.WaitStart? || n.workers[t].inbox != []
    ensures (n.state.Running? && n.prior.Running?) || n.state.ExchangeResults?
    ensures n.state.Running? ==> UnderLoad(cfg, n)
    ensures n.state.ExchangeResults? ==> WindingUp(cfg, n) && (n.pc.Top? ==> UnderLoad(cfg, n))
    ensures !n.pc.Aborted? && (n.pc.Finished? ==> n.state.ExchangeResults?)
    ensures WorkerOk(cfg, n.role, t, n.workers[t]) && n.workers[t].id == t
    ensures |n.workers| == Total(cfg) && QueueOk(n.queue, n.lost, n.workers) && NothingLost(cfg, n)
  {
    assert WorkerOk(cfg, n.role, t, n.workers[t]);
  }

  ghost predicate Touched(cfg: Config, n: Node, t: nat, w: Worker) {
    && t < |n.workers|
    && WorkerOk(cfg, n.role, t, w)
    && w.sent == n.workers[t].sent
    && !w.pc.Done? && !n.workers[t].pc.Done?
  }

  function Touch(n: Node, t: nat, w: Worker): Node
    requires t < |n.workers|
  {
    n.(workers := n.workers[t := w])
  }

  lemma TouchAccounted(cfg: Config, n: Node, t: nat, w: Worker)
    requires Accounted(cfg, n) && Touched(cfg, n, t, w)
    ensures Accounted(cfg, Touch(n, t, w))
  {
  }

  lemma TouchQueueOk(cfg: Config, n: Node, t: nat, w: Worker)
    requires QueueOk(n.queue, n.lost, n.workers) && Touched(cfg, n, t, w)
    ensures QueueOk(n.queue, n.lost, Touch(n, t, w).workers)
  {
  }

  lemma TouchPhase(cfg: Config, n: Node, t: nat, w: Worker)
    requires NodeOk(cfg, n) && Touched(cfg, n, t, w)
    requires !n.workers[t].pc.WaitStart? || n.workers[t].inbox != []
    ensures PhaseOk(cfg, Touch(n, t, w))
  {
    hide Accounted, QueueOk, WorkersOk, PcOk, WorkerOk, NothingLost;
    PastRegistering(cfg, n, t);
    TouchAccounted(cfg, n, t, w);
    TouchQueueOk(cfg, n, t, w);
  }

  lemma TouchKeeps(cfg: Config, n: Node, t: nat, w: Worker)
    requires NodeOk(cfg, n) && Touched(cfg, n, t, w)
    requires !n.workers[t].pc.WaitStart? || n.workers[t].inbox != []
    ensures NodeOk(cfg, Touch(n, t, w))
  {
    hide PhaseOk, UnderLoad, WindingUp;
    TouchPhase(cfg, n, t, w);
    PastRegistering(cfg, n, t);
  }

  function Returned(n: Node, t: nat, outcome: Outcome): Node
    requires t < |n.workers|
  {
    Notify(n.(workers := n.workers[t := n.workers[t].(pc := Done(outcome))]), n.workers[t].id)
  }

  ghost predicate CanReturn(n: Node, t: nat, outcome: Outcome) {
    && t < |n.workers|
    && !n.workers[t].pc.WaitStart? && !n.workers[t].pc.Done?
    && (outcome.Ok? ==> outcome.stats == StatsOf(n.workers[t]))
  }

  // A worker that has not returned is not among the queued notifications.
  lemma QueueRoom(n: Node, t: nat)
    requires QueueOk(n.queue, n.lost, n.workers)
    requires t < |n.workers| && !n.workers[t].pc.Done?
    ensures |n.queue| < |n.workers|
  {
    var ids := seq(|n.queue|, i requires 0 <= i < |n.queue| => n.queue[i].id);
    assert forall i :: 0 <= i < |ids| ==> n.queue[i] == StreamTerminated(ids[i]);
    forall i | 0 <= i < |ids| ensures ids[i] in Below(|n.workers|) - {t} { }
    Pigeonhole(ids, Below(|n.workers|) - {t});
    CardBelow(|n.workers|);
  }

  lemma ReturnAccounted(cfg: Config, n: Node, t: nat, outcome: Outcome)
    requires Accounted(cfg, n) && CanReturn(n, t, outcome)
    ensures Accounted(cfg, Returned(n, t, outcome))
  {
  }

  lemma ReturnQueueOk(n: Node, t: nat, outcome: Outcome)
    requires QueueOk(n.queue, n.lost, n.workers) && CanReturn(n, t, outcome) && n.workers[t].id == t
    ensures var n' := Returned(n, t, outcome); QueueOk(n'.queue, n'.lost, n'.workers)
  {
  }

  lemma ReturnNotified(cfg: Config, n: Node, t: nat, outcome: Outcome)
    requires Accounted(cfg, n) && Notified(n) && CanReturn(n, t, outcome) && n.workers[t].id == t
    requires n.timedOut == {} && !n.pc.Finished? && !n.pc.Aborted?
    ensures Notified(Returned(n, t, outcome))
  {
    var n' := Returned(n, t, outcome);
    assert t in n.streams;
    assert |n.queue| < INTERNAL_PROT_BUFFER ==> n'.queue[|n.queue|] == StreamTerminated(t);
    forall id | id in n'.streams && id < |n'.workers| && n'.workers[id].pc.Done?
      ensures StreamTerminated(id) in n'.queue || id in n'.lost
    {
      assert id != t ==> n.workers[id].pc.Done?;
    }
  }

  lemma ReturnUnderLoad(cfg: Config, n: Node, t: nat, outcome: Outcome)
    requires UnderLoad(cfg, n) && CanReturn(n, t, outcome) && n.workers[t].id == t
    requires !n.pc.Finished? && !n.pc.Aborted?
    ensures UnderLoad(cfg, Returned(n, t, outcome))
  {
    hide Accounted, QueueOk, Notified;
    ReturnAccounted(cfg, n, t, outcome);
    ReturnQueueOk(n, t, outcome);
    ReturnNotified(cfg, n, t, outcome);
  }

  lemma ReturnWindingUp(cfg: Config, n: Node, t: nat, outcome: Outcome)
    requires WindingUp(cfg, n) && CanReturn(n, t, outcome) && n.workers[t].id == t
    ensures WindingUp(cfg, Returned(n, t, outcome))
  {
    hide Accounted, QueueOk;
    ReturnAccounted(cfg, n, t, outcome);
    ReturnQueueOk(n, t, outcome);
  }

  lemma ReturnPhase(cfg: Config, n: Node, t: nat, outcome: Outcome)
    requires NodeOk(cfg, n) && CanReturn(n, t, outcome)
    ensures PhaseOk(cfg, Returned(n, t, outcome)) && NothingLost(cfg, Returned(n, t, outcome))
  {
    hide Accounted, QueueOk, PcOk, WorkersOk, UnderLoad, WindingUp, NodeOk, WorkerOk;
    PastRegistering(cfg, n, t);
    QueueRoom(n, t);
    if n.state.ExchangeResults? {
      ReturnWindingUp(cfg, n, t, outcome);
    }
    if n.state.Running? || n.pc.Top? {
      ReturnUnderLoad(cfg, n, t, outcome);
    }
  }

  lemma ReturnWorkers(cfg: Config, n: Node, t: nat, outcome: Outcome)
    requires WorkersOk(cfg, n.role, n.workers) && CanReturn(n, t, outcome)
    ensures WorkersOk(cfg, n.role, Returned(n, t, outcome).workers)
  {
    assert WorkerOk(cfg, n.role, t, n.workers[t]);
  }

  lemma ReturnKeeps(cfg: Config, n: Node, t: nat, outcome: Outcome)
    requires NodeOk(cfg, n) && CanReturn(n, t, outcome)
    ensures NodeOk(cfg, Returned(n, t, outcome))
  {
    hide PhaseOk, UnderLoad, WindingUp, NothingLost, WorkersOk;
    ReturnPhase(cfg, n, t, outcome);
    ReturnWorkers(cfg, n, t, outcome);
    PastRegistering(cfg, n, t);
  }

  // ------------------------------------------------------------- broadcasting

  lemma StartLoadReaches(cfg: Config, n: Node)
    requires WorkersOk(cfg, n.role, n.workers) && Registering(n)
    ensures var ws := Broadcast(n, StartLoad).workers;
            |ws| == |n.workers| && WorkersOk(cfg, n.role, ws) && AllSent(ws, [StartLoad]) && AllWaiting(ws)
  {
    forall t: nat | t < |n.workers|
      ensures Attached(n, t) && WorkerOk(cfg, n.role, t, Broadcast(n, StartLoad).workers[t])
    {
      assert WorkerOk(cfg, n.role, t, n.workers[t]);
      assert t in n.streams;
    }
  }

  ghost predicate SamePcs(ws: seq<Worker>, vs: seq<Worker>) {
    |ws| == |vs| && forall t | 0 <= t < |ws| :: vs[t].pc == ws[t].pc
  }

  lemma TerminateReaches(cfg: Config, n: Node)
    requires WorkersOk(cfg, n.role, n.workers) && AllSent(n.workers, [StartLoad]) && HandlesOk(n)
    ensures ToldToStop(Broadcast(n, Terminate).(pc := Collecting))
    ensures var ws := Broadcast(n, Terminate).workers;
            && SamePcs(n.workers, ws) && WorkersOk(cfg, n.role, ws)
            && forall t | 0 <= t < |ws| :: Signals(ws[t].sent)
  {
    forall t: nat | t < |n.workers|
      ensures WorkerOk(cfg, n.role, t, Broadcast(n, Terminate).workers[t])
    {
      assert WorkerOk(cfg, n.role, t, n.workers[t]);
    }
  }

  lemma SamePcsAccounted(cfg: Config, n: Node, m: Node)
    requires Accounted(cfg, n) && SamePcs(n.workers, m.workers)
    requires m.streams == n.streams && m.results == n.results && m.failed == n.failed
    requires m.timedOut == n.timedOut && !m.pc.Join? && !n.pc.Join?
    ensures Accounted(cfg, m)
  {
  }

  lemma SamePcsQueueOk(queue: seq<ControllerMessage>, lost: set<nat>, ws: seq<Worker>, vs: seq<Worker>)
    requires QueueOk(queue, lost, ws) && SamePcs(ws, vs)
    ensures QueueOk(queue, lost, vs)
  {
  }

  // The barrier opens: from here on every stream is active and has been told to start.
  lemma LoadBegins(cfg: Config, n: Node, m: Node)
    requires Registering(n) && |n.workers| == Total(cfg) && n.queue == []
    requires m == n.(workers := m.workers, pc := Recv, prior := Running, iters := m.iters)
    requires |m.workers| == |n.workers| && AllSent(m.workers, [StartLoad]) && AllWaiting(m.workers)
    ensures UnderLoad(cfg, m)
  {
  }

  lemma AtTheBarrier(cfg: Config, n: Node)
    requires NodeOk(cfg, n) && n.state.Running? && n.prior != Running
    ensures WorkersOk(cfg, n.role, n.workers) && NothingLost(cfg, n) && PcOk(cfg, n)
    ensures Registering(n) && |n.workers| == Total(cfg) && n.queue == [] && n.pc.Top?
    ensures |n.streams| == |n.workers|
    ensures Registering(n.(iters := n.iters + 1))
  {
    hide WorkersOk;
    MapCard(n.streams, |n.workers|);
  }

  lemma HeadOpensLoad(cfg: Config, n: Node)
    requires NodeOk(cfg, n) && n.pc.Top? && n.state.Running? && n.prior != Running
    requires Total(cfg) >= 1
    ensures NodeOk(cfg, HeadOf(n))
  {
    hide WorkersOk, UnderLoad, Registering, AllSent, AllWaiting;
    AtTheBarrier(cfg, n);
    StartLoadReaches(cfg, n.(iters := n.iters + 1));
    LoadBegins(cfg, n, HeadOf(n));
  }

  lemma HeadUnderLoad(cfg: Config, n: Node)
    requires NodeOk(cfg, n) && n.pc.Top? && n.state.Running? && n.prior == Running
    ensures NodeOk(cfg, HeadOf(n))
  {
    hide WorkersOk, AllSent, Registering, WindingUp, QueueOk;
  }

  lemma HandlesOf(cfg: Config, n: Node)
    requires Accounted(cfg, n)
    ensures HandlesOk(n)
  {
  }

  lemma HeadWindsUp(cfg: Config, n: Node)
    requires NodeOk(cfg, n) && n.pc.Top? && n.state.ExchangeResults?
    ensures NodeOk(cfg, HeadOf(n))
  {
    hide WorkersOk, AllSent, Accounted, QueueOk, Notified, Registering, SamePcs;
    HandlesOf(cfg, n);
    TerminateReaches(cfg, n.(iters := n.iters + 1));
    SamePcsAccounted(cfg, n, HeadOf(n));
    SamePcsQueueOk(n.queue, n.lost, n.workers, HeadOf(n).workers);
  }

  lemma HeadRegisters(cfg: Config, n: Node)
    requires Total(cfg) >= 1 && NodeOk(cfg, n) && n.pc.Top?
    requires n.state.CreateStreams? || (n.state.TestStart? && n.role.Client?)
    ensures NodeOk(cfg, HeadOf(n))
  {
    hide UnderLoad, WindingUp, WorkersOk;
  }

  lemma HeadKeepsNode(cfg: Config, n: Node)
    requires Total(cfg) >= 1 && NodeOk(cfg, n) && n.pc.Top?
    requires !(n.role.Server? && n.state.TestStart?)
    ensures NodeOk(cfg, HeadOf(n))
  {
    hide NodeOk, HeadOf;
    match n.state
    case TestStart => HeadRegisters(cfg, n);
    case CreateStreams => HeadRegisters(cfg, n);
    case Running => if n.prior == Running { HeadUnderLoad(cfg, n); } else { HeadOpensLoad(cfg, n); }
    case ExchangeResults => HeadWindsUp(cfg, n);
  }

  // --------------------------------------------------------- registering streams

  lemma RegisterShape(cfg: Config, n: Node)
    requires Registering(n)
    ensures var m := Register(cfg, n, |n.workers|);
            && m.workers == n.workers + [NewWorker(|n.workers|, |n.workers|, IsSending(cfg, n.role, |n.workers|))]
            && m.streams == n.streams[|n.workers| := |n.workers|]
            && m == n.(workers := m.workers, streams := m.streams)
            && |m.workers| == |n.workers| + 1 == |m.streams|
  {
    hide Below, AllSent, AllWaiting, HandlesOk;
    MapCard(n.streams, |n.workers|);
    var m := Register(cfg, n, |n.workers|);
    assert m.streams.Keys == Below(|m.workers|);
    MapCard(m.streams, |m.workers|);
  }

  lemma RegisterKeeps(cfg: Config, n: Node, pc: Pc)
    requires WorkersOk(cfg, n.role, n.workers) && Registering(n)
    ensures var m := Register(cfg, n, |n.workers|).(pc := pc);
            WorkersOk(cfg, n.role, m.workers) && Registering(m)
  {
    hide Below, Register;
    RegisterShape(cfg, n);
    var m := Register(cfg, n, |n.workers|).(pc := pc);
    forall t: nat | t < |m.workers| ensures WorkerOk(cfg, n.role, t, m.workers[t]) {
      assert t < |n.workers| ==> WorkerOk(cfg, n.role, t, n.workers[t]);
    }
    assert m.streams.Keys == Below(|m.workers|);
  }

  // --------------------------------------------------------- joining streams

  // The node after it took a notification off its queue and out of its handle map.
  function Popped(n: Node, id: nat): Node
    requires n.queue != [] && id in n.streams
  {
    n.(queue := n.queue[1..], pc := Join(id, n.streams[id]), streams := n.streams - {id})
  }

  lemma PopAccounted(cfg: Config, n: Node, id: nat)
    requires Accounted(cfg, n) && n.pc.Recv? && n.queue != [] && id in n.streams
    requires n.workers[n.streams[id]].pc.Done?
    ensures Accounted(cfg, Popped(n, id))
  {
  }

  lemma PopQueueOk(n: Node)
    requires QueueOk(n.queue, n.lost, n.workers) && n.queue != []
    ensures QueueOk(n.queue[1..], n.lost, n.workers)
  {
  }

  lemma PopNotified(n: Node, id: nat)
    requires QueueOk(n.queue, n.lost, n.workers) && Notified(n) && n.queue != []
    requires n.queue[0] == StreamTerminated(id) && id in n.streams
    ensures Notified(Popped(n, id))
  {
    var m := Popped(n, id);
    assert n.queue == [n.queue[0]] + m.queue;
    forall x | x in m.streams && x < |m.workers| && m.workers[x].pc.Done?
      ensures StreamTerminated(x) in m.queue || x in m.lost
    {
      assert StreamTerminated(x) in n.queue || x in n.lost;
    }
  }

  lemma PopUnderLoad(cfg: Config, n: Node)
    requires UnderLoad(cfg, n) && n.pc.Recv? && n.queue != []
    ensures n.queue[0].StreamTerminated? && n.queue[0].id in n.streams
    ensures UnderLoad(cfg, Popped(n, n.queue[0].id))
    ensures |Popped(n, n.queue[0].id).streams| == |n.streams| - 1
  {
    assert n.queue[0].StreamTerminated? && n.queue[0].id in n.streams;
    PopAccounted(cfg, n, n.queue[0].id);
    PopQueueOk(n);
    PopNotified(n, n.queue[0].id);
    MapRemove(n.streams, n.queue[0].id);
  }

  function JoinedTop(n: Node): Node
    requires CanJoin(n)
  {
    Joined(n, n.pc.id, n.workers[n.pc.task].pc.outcome).(pc := Top)
  }

  // A worker that reported success reported its own count.
  lemma JoinAccounted(cfg: Config, n: Node)
    requires Accounted(cfg, n) && CanJoin(n)
    ensures Accounted(cfg, JoinedTop(n))
  {
  }

  lemma JoinUnderLoad(cfg: Config, n: Node)
    requires UnderLoad(cfg, n) && CanJoin(n)
    ensures UnderLoad(cfg, JoinedTop(n)) && JoinedTop(n).streams == n.streams
  {
    hide Accounted, QueueOk;
    JoinAccounted(cfg, n);
  }

  lemma CollectJoinAccounted(cfg: Config, n: Node, id: nat)
    requires Accounted(cfg, n) && CanCollectJoin(n, id)
    ensures Accounted(cfg, DoCollectJoin(n, id))
  {
  }

  lemma CollectJoinWindingUp(cfg: Config, n: Node, id: nat)
    requires WindingUp(cfg, n) && CanCollectJoin(n, id)
    ensures WindingUp(cfg, DoCollectJoin(n, id))
  {
    hide Accounted, QueueOk;
    CollectJoinAccounted(cfg, n, id);
  }

  lemma CollectTimeoutWindingUp(cfg: Config, n: Node, id: nat)
    requires WindingUp(cfg, n) && CanCollectTimeout(n, id)
    ensures WindingUp(cfg, DoCollectTimeout(n, id))
  {
  }
}
