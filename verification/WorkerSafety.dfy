/** Every step of a worker task keeps the invariant of the whole protocol. */
module WorkerSafety {
  import opened Protocol
  import opened ProtocolInvariant
  import opened NodeSafety
  import opened Ids

  // What a worker step changes: its own side's node and the connections.
  ghost predicate OnlyNode(s: World, s': World, role: Role) {
    && s' == WithNode(s, role, NodeOf(s', role)).(conns := s'.conns)
    && |s'.conns| == |s.conns|
  }

  ghost predicate SameControl(n: Node, m: Node) {
    m == n.(workers := m.workers, queue := m.queue, lost := m.lost) && |m.workers| == |n.workers|
  }

  lemma WorkerHandshake(cfg: Config, s: World, s': World, role: Role)
    requires HandshakeOk(cfg, s) && OnlyNode(s, s', role)
    requires SameControl(NodeOf(s, role), NodeOf(s', role))
    requires NodeOf(s, role).state.Running? || NodeOf(s, role).state.ExchangeResults?
    ensures HandshakeOk(cfg, s')
  {
  }

  lemma WorkerChannel(s: World, s': World, role: Role)
    requires ChannelOk(s) && OnlyNode(s, s', role)
    requires SameControl(NodeOf(s, role), NodeOf(s', role))
    ensures ChannelOk(s')
  {
  }

  // A task is on the connection of its own number, and both ends of that exist.
  lemma TaskFacts(cfg: Config, s: World, role: Role, t: nat)
    requires Inv(cfg, s) && HasTask(s, role, t)
    ensures NodeOf(s, role).role == role && NodeOk(cfg, NodeOf(s, role))
    ensures WorkerOk(cfg, role, t, TaskOf(s, role, t))
    ensures PipesOk(cfg, s)
  {
    hide HandshakeOk, ChannelOk, NothingLost, PhaseOk, PcOk, PipesOk;
  }

  lemma Combine(cfg: Config, s: World, s': World, role: Role, t: nat)
    requires Inv(cfg, s) && HasTask(s, role, t)
    requires TaskOf(s, role, t).pc.WaitStart? ==> TaskOf(s, role, t).inbox != []
    requires OnlyNode(s, s', role) && SameControl(NodeOf(s, role), NodeOf(s', role))
    requires NodeOk(cfg, NodeOf(s', role)) && PipesOk(cfg, s')
    ensures Inv(cfg, s')
  {
    hide HandshakeOk, ChannelOk, PipesOk, NothingLost, WorkersOk, PhaseOk, PcOk;
    PastRegistering(cfg, NodeOf(s, role), t);
    WorkerHandshake(cfg, s, s', role);
    WorkerChannel(s, s', role);
  }

  // ------------------------------------------------------------------- pipes

  // A step that leaves the counters and the outcome of the worker alone.
  lemma SameCountersPipes(cfg: Config, s: World, role: Role, t: nat, w: Worker)
    requires PipesOk(cfg, s) && HasTask(s, role, t)
    requires var v := TaskOf(s, role, t);
             !v.pc.Done? && !w.pc.Done? && w == v.(pc := w.pc, inbox := w.inbox, sent := w.sent)
    ensures PipesOk(cfg, WithTask(s, role, t, w))
  {
    var s' := WithTask(s, role, t, w);
    forall r: Role, k: nat | k < |s'.conns| ensures FlowOk(cfg, s', r, k) {
      assert FlowOk(cfg, s, r, k);
    }
  }

  lemma WritePipes(cfg: Config, s: World, role: Role, t: nat, n: nat)
    requires PipesOk(cfg, s) && CanWrite(cfg, s, role, t, n) && TaskOf(s, role, t).conn == t
    ensures PipesOk(cfg, DoWrite(cfg, s, role, t, n))
  {
    var s' := DoWrite(cfg, s, role, t, n);
    forall r: Role, k: nat | k < |s'.conns| ensures FlowOk(cfg, s', r, k) {
      assert FlowOk(cfg, s, r, k);
    }
  }

  lemma ReadPipes(cfg: Config, s: World, role: Role, t: nat, n: nat)
    requires PipesOk(cfg, s) && CanRead(cfg, s, role, t, n) && TaskOf(s, role, t).conn == t
    ensures PipesOk(cfg, DoRead(cfg, s, role, t, n))
  {
    var s' := DoRead(cfg, s, role, t, n);
    forall r: Role, k: nat | k < |s'.conns| ensures FlowOk(cfg, s', r, k) {
      assert FlowOk(cfg, s, r, k);
    }
  }

  lemma DrainReadPipes(cfg: Config, s: World, role: Role, t: nat, n: nat)
    requires PipesOk(cfg, s) && CanDrainRead(cfg, s, role, t, n) && TaskOf(s, role, t).conn == t
    requires !TaskOf(s, role, t).sending
    ensures PipesOk(cfg, DoDrainRead(cfg, s, role, t, n))
  {
    var s' := DoDrainRead(cfg, s, role, t, n);
    forall r: Role, k: nat | k < |s'.conns| ensures FlowOk(cfg, s', r, k) {
      assert FlowOk(cfg, s, r, k);
    }
  }

  // The pipe a returning worker wrote to is finished, and its reader has lost nothing.
  lemma ReturnOwnPipe(cfg: Config, s: World, role: Role, t: nat, outcome: Outcome, k: nat)
    requires k < |s.conns| && FlowOk(cfg, s, role, k) && HasTask(s, role, t) && TaskOf(s, role, t).conn == t
    requires !TaskOf(s, role, t).pc.Done?
    ensures k < |Return(s, role, t, outcome).conns| && FlowOk(cfg, Return(s, role, t, outcome), role, k)
  {
  }

  // A receiver may only report success at the end of its stream.
  lemma ReturnPeerPipe(cfg: Config, s: World, role: Role, t: nat, outcome: Outcome, k: nat)
    requires k < |s.conns| && FlowOk(cfg, s, Other(role), k) && HasTask(s, role, t) && TaskOf(s, role, t).conn == t
    requires !TaskOf(s, role, t).pc.Done?
    requires outcome.Ok? && !TaskOf(s, role, t).sending ==> ReadsNothing(cfg, Source(s, role, t))
    ensures k < |Return(s, role, t, outcome).conns| && FlowOk(cfg, Return(s, role, t, outcome), Other(role), k)
  {
  }

  lemma ReturnPipes(cfg: Config, s: World, role: Role, t: nat, outcome: Outcome)
    requires PipesOk(cfg, s) && HasTask(s, role, t) && TaskOf(s, role, t).conn == t
    requires !TaskOf(s, role, t).pc.Done?
    requires outcome.Ok? && !TaskOf(s, role, t).sending ==> ReadsNothing(cfg, Source(s, role, t))
    ensures PipesOk(cfg, Return(s, role, t, outcome))
  {
    hide Return, FlowOk;
    var s' := Return(s, role, t, outcome);
    forall r: Role, k: nat | k < |s'.conns| ensures FlowOk(cfg, s', r, k) {
      SameConns(s, role, t, outcome);
      assert FlowOk(cfg, s, r, k);
      if r == role { ReturnOwnPipe(cfg, s, role, t, outcome, k); } else { ReturnPeerPipe(cfg, s, role, t, outcome, k); }
    }
  }

  lemma SameConns(s: World, role: Role, t: nat, outcome: Outcome)
    requires HasTask(s, role, t)
    ensures |Return(s, role, t, outcome).conns| == |s.conns|
  {
  }

  // ------------------------------------------------------------- the worker steps

  // A step that neither signals nor returns keeps the invariant if it keeps the pipes' part.
  lemma TouchStep(cfg: Config, s: World, s': World, role: Role, t: nat, w: Worker)
    requires Inv(cfg, s) && HasTask(s, role, t)
    requires Moves(cfg, s, s', role, t, w)
    requires TaskOf(s, role, t).pc.WaitStart? ==> TaskOf(s, role, t).inbox != []
    requires PipesOk(cfg, s')
    ensures Inv(cfg, s')
  {
    hide HandshakeOk, ChannelOk, PipesOk, WorkersOk, PhaseOk, PcOk, NothingLost, Touched, NodeOk, Inv;
    TaskFacts(cfg, s, role, t);
    TouchKeeps(cfg, NodeOf(s, role), t, w);
    Combine(cfg, s, s', role, t);
  }

  // A step that changes a task and the connections, and keeps what a touch must keep.
  ghost predicate Moves(cfg: Config, s: World, s': World, role: Role, t: nat, w: Worker)
    requires HasTask(s, role, t)
  {
    && Touched(cfg, NodeOf(s, role), t, w)
    && s' == WithTask(s, role, t, w).(conns := s'.conns) && |s'.conns| == |s.conns|
  }

  lemma WriteMoves(cfg: Config, s: World, role: Role, t: nat, n: nat)
    requires Inv(cfg, s) && CanWrite(cfg, s, role, t, n)
    ensures var w := TaskOf(s, role, t); var s' := DoWrite(cfg, s, role, t, n);
            PipesOk(cfg, s') && Moves(cfg, s, s', role, t, w.(bytes := w.bytes + n))
  {
    hide Inv, NodeOk, PipesOk;
    TaskFacts(cfg, s, role, t);
    WritePipes(cfg, s, role, t, n);
  }

  lemma ReadMoves(cfg: Config, s: World, role: Role, t: nat, n: nat)
    requires Inv(cfg, s) && CanRead(cfg, s, role, t, n)
    ensures var w := TaskOf(s, role, t); var s' := DoRead(cfg, s, role, t, n);
            PipesOk(cfg, s') && Moves(cfg, s, s', role, t, w.(bytes := w.bytes + n))
  {
    hide Inv, NodeOk, PipesOk;
    TaskFacts(cfg, s, role, t);
    ReadPipes(cfg, s, role, t, n);
  }

  lemma DrainReadMoves(cfg: Config, s: World, role: Role, t: nat, n: nat)
    requires Inv(cfg, s) && CanDrainRead(cfg, s, role, t, n)
    ensures var w := TaskOf(s, role, t); var s' := DoDrainRead(cfg, s, role, t, n);
            PipesOk(cfg, s') && Moves(cfg, s, s', role, t, w.(drained := w.drained + n))
  {
    hide Inv, NodeOk, PipesOk;
    TaskFacts(cfg, s, role, t);
    DrainReadPipes(cfg, s, role, t, n);
  }

  lemma ReturnsOnly(s: World, role: Role, t: nat, outcome: Outcome)
    requires HasTask(s, role, t)
    ensures var s' := Return(s, role, t, outcome);
            && OnlyNode(s, s', role)
            && NodeOf(s', role) == Returned(NodeOf(s, role), t, outcome)
            && SameControl(NodeOf(s, role), NodeOf(s', role))
  {
  }

  lemma StartKeeps(cfg: Config, s: World, role: Role, t: nat)
    requires Inv(cfg, s) && CanStart(s, role, t)
    ensures Inv(cfg, DoStart(s, role, t))
  {
    hide Inv, NodeOk, PipesOk;
    TaskFacts(cfg, s, role, t);
    var w := TaskOf(s, role, t);
    var w' := w.(pc := Transfer, inbox := w.inbox[1..]);
    SameCountersPipes(cfg, s, role, t, w');
    TouchStep(cfg, s, DoStart(s, role, t), role, t, w');
  }

  lemma WriteKeeps(cfg: Config, s: World, role: Role, t: nat, n: nat)
    requires Inv(cfg, s) && CanWrite(cfg, s, role, t, n)
    ensures Inv(cfg, DoWrite(cfg, s, role, t, n))
  {
    hide Inv, NodeOk, PipesOk, DoWrite;
    WriteMoves(cfg, s, role, t, n);
    var w := TaskOf(s, role, t);
    TouchStep(cfg, s, DoWrite(cfg, s, role, t, n), role, t, w.(bytes := w.bytes + n));
  }

  lemma ReadKeeps(cfg: Config, s: World, role: Role, t: nat, n: nat)
    requires Inv(cfg, s) && CanRead(cfg, s, role, t, n)
    ensures Inv(cfg, DoRead(cfg, s, role, t, n))
  {
    hide Inv, NodeOk, PipesOk, DoRead;
    ReadMoves(cfg, s, role, t, n);
    var w := TaskOf(s, role, t);
    TouchStep(cfg, s, DoRead(cfg, s, role, t, n), role, t, w.(bytes := w.bytes + n));
  }

  lemma DrainReadKeeps(cfg: Config, s: World, role: Role, t: nat, n: nat)
    requires Inv(cfg, s) && CanDrainRead(cfg, s, role, t, n)
    ensures Inv(cfg, DoDrainRead(cfg, s, role, t, n))
  {
    hide Inv, NodeOk, PipesOk, DoDrainRead;
    DrainReadMoves(cfg, s, role, t, n);
    var w := TaskOf(s, role, t);
    TouchStep(cfg, s, DoDrainRead(cfg, s, role, t, n), role, t, w.(drained := w.drained + n));
  }

  lemma ReturnStep(cfg: Config, s: World, role: Role, t: nat, outcome: Outcome)
    requires Inv(cfg, s) && HasTask(s, role, t) && CanReturn(NodeOf(s, role), t, outcome)
    requires outcome.Ok? && !TaskOf(s, role, t).sending ==> ReadsNothing(cfg, Source(s, role, t))
    ensures Inv(cfg, Return(s, role, t, outcome))
  {
    hide Inv, NodeOk, PipesOk, Return, Returned, SameControl, OnlyNode;
    TaskFacts(cfg, s, role, t);
    ReturnPipes(cfg, s, role, t, outcome);
    ReturnKeeps(cfg, NodeOf(s, role), t, outcome);
    ReturnsOnly(s, role, t, outcome);
    Combine(cfg, s, Return(s, role, t, outcome), role, t);
  }

  lemma FailKeeps(cfg: Config, s: World, role: Role, t: nat)
    requires Inv(cfg, s) && CanFail(s, role, t)
    ensures Inv(cfg, Return(s, role, t, Failed))
  {
    hide Inv;
    ReturnStep(cfg, s, role, t, Failed);
  }

  lemma DrainEofKeeps(cfg: Config, s: World, role: Role, t: nat)
    requires Inv(cfg, s) && CanDrainEof(cfg, s, role, t)
    ensures Inv(cfg, Return(s, role, t, Ok(StatsOf(TaskOf(s, role, t)))))
  {
    hide Inv;
    ReturnStep(cfg, s, role, t, Ok(StatsOf(TaskOf(s, role, t))));
  }

  // A deadline, a Terminate or the end of the stream ends the hot loop.
  lemma LeaveLoopKeeps(cfg: Config, s: World, role: Role, t: nat)
    requires Inv(cfg, s) && AtPc(s, role, t, Transfer)
    ensures Inv(cfg, LeaveLoop(s, role, t))
  {
    hide Inv, NodeOk, PipesOk;
    TaskFacts(cfg, s, role, t);
    var w := TaskOf(s, role, t);
    if w.sending {
      ReturnStep(cfg, s, role, t, Ok(StatsOf(w)));
    } else {
      SameCountersPipes(cfg, s, role, t, w.(pc := Drain));
      TouchStep(cfg, s, LeaveLoop(s, role, t), role, t, w.(pc := Drain));
    }
  }

  // The first signal of a worker is always StartLoad, so its error exit is unreachable.
  lemma NeverBails(cfg: Config, s: World, role: Role, t: nat)
    requires Inv(cfg, s)
    ensures !CanBail(s, role, t)
  {
    hide Inv;
    if AtPc(s, role, t, WaitStart) {
      TaskFacts(cfg, s, role, t);
      var n := NodeOf(s, role);
      assert t in n.streams ==> Attached(n, t);
    }
  }
}
