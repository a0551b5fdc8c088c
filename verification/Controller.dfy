/**
  The test controller as the object it is: its methods update the handle map, the results, the
  queue and the control socket in place, and each is proved to do what the transition system
  says the controller does between two of its await points.
 */
module Controller {
  import opened Protocol
  import opened Ids

  // How waiting for one handle ended.
  datatype Wait = TimedOut | Returned(outcome: Outcome)

  // What draining the handles `ids` with these outcomes leaves behind.
  ghost function Collected(n: Node, ids: set<nat>, waits: map<nat, Wait>): Node
    requires ids <= waits.Keys
  {
    n.(streams := n.streams - ids,
       results := n.results +
         (map id | id in ids && waits[id].Returned? && waits[id].outcome.Ok? :: waits[id].outcome.stats),
       failed := n.failed + (set id | id in ids && waits[id].Returned? && waits[id].outcome.Failed?),
       timedOut := n.timedOut + (set id | id in ids && waits[id].TimedOut?))
  }

  // The entry of one handle.
  function Settled(n: Node, id: nat, wait: Wait): Node {
    match wait
    case TimedOut => DoCollectTimeout(n, id)
    case Returned(outcome) => Joined(n.(streams := n.streams - {id}), id, outcome)
  }

  lemma SettledKeys(n: Node, id: nat, wait: Wait)
    ensures Settled(n, id, wait).streams.Keys == n.streams.Keys - {id}
  {
    assert (n.streams - {id}).Keys == n.streams.Keys - {id};
  }

  // One handle more, in any order: the step the transition system takes for it.
  lemma CollectOne(n: Node, ids: set<nat>, id: nat, waits: map<nat, Wait>)
    requires ids <= waits.Keys && id in waits && id !in ids && id in n.streams
    ensures Collected(n, ids + {id}, waits) == Settled(Collected(n, ids, waits), id, waits[id])
  {
    var m := Collected(n, ids, waits);
    var k := Collected(n, ids + {id}, waits);
    assert k.streams == m.streams - {id};
    assert k.failed == if waits[id] == Returned(Failed) then m.failed + {id} else m.failed;
    assert k.timedOut == if waits[id].TimedOut? then m.timedOut + {id} else m.timedOut;
    CollectResults(n, ids, id, waits);
  }

  lemma CollectNone(n: Node, waits: map<nat, Wait>)
    ensures Collected(n, {}, waits) == n
  {
    var m := Collected(n, {}, waits);
    assert m.streams == n.streams && m.results == n.results;
    assert m.failed == n.failed && m.timedOut == n.timedOut;
  }

  lemma CollectResults(n: Node, ids: set<nat>, id: nat, waits: map<nat, Wait>)
    requires ids <= waits.Keys && id in waits && id !in ids
    ensures Collected(n, ids + {id}, waits).results ==
            if waits[id].Returned? && waits[id].outcome.Ok?
            then Collected(n, ids, waits).results[id := waits[id].outcome.stats]
            else Collected(n, ids, waits).results
  {
  }

  // A world that shows this controller and its end of the control connection, and nothing else.
  function Around(n: Node, out: seq<ServerMessage>): World {
    WithNode(INIT, n.role, n).(toClient := out)
  }

  // Controller `n` with the control connection's end `out` is what world `s` shows of `role`.
  ghost predicate Shows(s: World, n: Node, out: seq<ServerMessage>) {
    NodeOf(s, n.role) == n && (n.role.Server? ==> s.toClient == out)
  }

  // What a controller does depends on nothing else, so the methods below, stated on the world
  // around them, do the same in every world.
  lemma ControllerIsLocal(cfg: Config, s: World, n: Node, out: seq<ServerMessage>)
    requires Shows(s, n, out)
    ensures n.queue != [] ==>
              var s' := ReceiveInternal(cfg, s, n.role); var a' := ReceiveInternal(cfg, Around(n, out), n.role);
              NodeOf(s', n.role) == NodeOf(a', n.role) && (n.role.Server? ==> s'.toClient == a'.toClient)
    ensures CanJoin(n) ==>
              var s' := DoJoin(s, n.role); var a' := DoJoin(Around(n, out), n.role);
              NodeOf(s', n.role) == NodeOf(a', n.role) && (n.role.Server? ==> s'.toClient == a'.toClient)
    ensures var s' := LoopHead(s, n.role); var a' := LoopHead(Around(n, out), n.role);
            NodeOf(s', n.role) == NodeOf(a', n.role) && (n.role.Server? ==> s'.toClient == a'.toClient)
  {
    hide Register, Broadcast;
  }

  lemma HeadKeepsRole(n: Node)
    ensures HeadOf(n).role == n.role
  {
  }

  // The world around a controller only matters for its control connection.
  lemma OtherNode(cfg: Config, n: Node, m: Node, out: seq<ServerMessage>, message: ControllerMessage)
    requires n.role == m.role
    ensures message.CreateStream? && m.role.Server? ==>
              Protocol.AcceptStream(cfg, Around(n, out), m, message.conn) ==
              Protocol.AcceptStream(cfg, Around(m, out), m, message.conn)
    ensures message.StreamTerminated? ==>
              TerminateStream(Around(n, out), m.role, m, message.id) ==
              TerminateStream(Around(m, out), m.role, m, message.id)
  {
    hide Register;
    AcceptKeepsRole(cfg, m, if message.CreateStream? then message.conn else 0);
  }

  lemma AcceptKeepsRole(cfg: Config, n: Node, conn: nat)
    ensures Register(cfg, n, conn).role == n.role
  {
  }

  // `n` is `n0` with streams registered on the connections counted from `conn`, under the ids
  // and with the worker tasks that follow on.
  ghost predicate Opened(cfg: Config, n0: Node, n: Node, conn: nat) {
    && |n0.streams| <= |n.streams| && n.streams.Keys == Below(|n.streams|)
    && n == n0.(streams := n.streams, workers := n.workers)
    && |n.workers| == |n0.workers| + |n.streams| - |n0.streams|
    && (forall t: nat | t < |n.workers| ::
          n.workers[t] == if t < |n0.workers| then n0.workers[t] else
                          var i := t - |n0.workers|;
                          NewWorker(|n0.streams| + i, conn + i, IsSending(cfg, n0.role, |n0.streams| + i)))
    && (forall id | id in n.streams ::
          n.streams[id] == if id in n0.streams then n0.streams[id] else |n0.workers| + id - |n0.streams|)
  }

  lemma OpenNone(cfg: Config, n: Node, conn: nat)
    requires n.streams.Keys == Below(|n.streams|)
    ensures Opened(cfg, n, n, conn)
  {
  }

  lemma OpenOne(cfg: Config, n0: Node, n: Node, conn: nat)
    requires Opened(cfg, n0, n, conn) && n0.streams.Keys == Below(|n0.streams|)
    ensures var m := Register(cfg, n, conn + |n.streams| - |n0.streams|);
            Opened(cfg, n0, m, conn) && |m.streams| == |n.streams| + 1
  {
    hide Below;
    var m := Register(cfg, n, conn + |n.streams| - |n0.streams|);
    assert m.streams.Keys == Below(|n.streams| + 1);
    MapCard(m.streams, |n.streams| + 1);
  }

  // How many connections are welcomed before the first that is not.
  function Welcomes(answers: seq<bool>): nat {
    if answers == [] || !answers[0] then 0 else 1 + Welcomes(answers[1..])
  }

  lemma {:induction false} WelcomeAt(answers: seq<bool>, i: nat)
    requires i < |answers| && i <= Welcomes(answers)
    ensures answers[i] <==> i < Welcomes(answers)
  {
    if i > 0 { WelcomeAt(answers[1..], i - 1); }
  }

  // A handle whose worker has returned is joined with what that worker returned.
  ghost predicate Truthful(n: Node, waits: map<nat, Wait>) {
    && n.streams.Keys <= waits.Keys
    && forall id | id in n.streams && n.streams[id] < |n.workers| && n.workers[n.streams[id]].pc.Done? ::
         waits[id] == Returned(n.workers[n.streams[id]].pc.outcome)
  }

  // A worker hears the message exactly when its handle is in the map, it has not returned, and its
  // queue of five has room; nobody else changes.
  ghost predicate Heard(streams: map<nat, nat>, workers: seq<Worker>, message: WorkerMessage, tasks: seq<Worker>) {
    && |tasks| == |workers|
    && forall t: nat | t < |tasks| ::
         var w := workers[t];
         if w.id in streams && streams[w.id] == t && !w.pc.Done? && |w.inbox| < 5
         then tasks[t] == w.(inbox := w.inbox + [message], sent := w.sent + [message])
         else tasks[t] == w
  }

  class TestController {
    const cfg: Config
    const role: Role
    // PerfTest
    var numSendStreams: u16
    var numReceiveStreams: u16
    var state: TestState
    var streams: map<nat, nat>
    // TestController
    var prior: TestState
    var queue: seq<ControllerMessage>
    var results: Results
    // the worker tasks behind the handles, and what was written to the control socket
    var tasks: seq<Worker>
    var outbox: seq<ServerMessage>
    // where the suspended run_controller is, with the locals it holds there
    var pc: Pc
    // histories
    ghost var iters: nat
    ghost var failed: set<nat>
    ghost var timedOut: set<nat>
    ghost var lost: set<nat>

    ghost function View(): Node
      reads this
    {
      Node(role, state, prior, pc, iters, streams, results, failed, timedOut, queue, lost, tasks)
    }

    // Handles lead to tasks of the same id, and the counters are the configured ones.
    ghost predicate Valid()
      reads this
    {
      && numSendStreams == NumSendStreams(cfg, role)
      && numReceiveStreams == NumReceiveStreams(cfg, role)
      && forall id | id in streams :: streams[id] < |tasks| && tasks[streams[id]].id == id
    }

    constructor (cfg: Config, role: Role)
      ensures Valid() && View() == InitNode(role) && outbox == []
      ensures this.cfg == cfg && this.role == role
    {
      var sending: u16, receiving: u16 := 0, 0;
      match cfg.direction {
        case ClientToServer => sending := cfg.parallel;
        case ServerToClient => receiving := cfg.parallel;
        case Bidirectional => sending, receiving := cfg.parallel, cfg.parallel;
      }
      if role.Server? {
        sending, receiving := receiving, sending;
      }
      this.cfg := cfg;
      this.role := role;
      numSendStreams, numReceiveStreams := sending, receiving;
      state, prior := TestStart, TestStart;
      streams, results, queue, tasks, outbox := map[], map[], [], [], [];
      pc, iters, failed, timedOut, lost := Top, 0, {}, {}, {};
    }

    method SetState(newState: TestState)
      requires Valid()
      modifies this`state, this`outbox
      ensures Valid() && (role.Client? ==> outbox == old(outbox))
      ensures var s := Around(old(View()), old(outbox));
              Shows(Enter(s, role, old(View()), newState), View(), outbox)
    {
      if role.Server? {
        outbox := outbox + [ServerMessage.SetState(newState)];
      }
      state := newState;
    }

    method BroadcastToStreams(message: WorkerMessage)
      requires Valid()
      modifies this`tasks
      ensures Valid() && View() == Broadcast(old(View()), message)
      ensures Heard(streams, old(tasks), message, tasks)
    {
      ghost var n := View();
      var pending := streams.Keys;
      while pending != {}
        invariant pending <= streams.Keys
        invariant |tasks| == |n.workers|
        invariant forall t: nat | t < |tasks| ::
                    tasks[t] == if Attached(n, t) && n.workers[t].id !in pending
                                then Deliver(n.workers[t], message) else n.workers[t]
        decreases |pending|
      {
        var id :| id in pending;
        var t := streams[id];
        tasks := tasks[t := Deliver(tasks[t], message)];
        pending := pending - {id};
      }
      assert tasks == Broadcast(n, message).workers;
    }

    method CreateAndRegisterStreamWorker(conn: nat)
      requires Valid()
      modifies this`streams, this`tasks
      ensures Valid() && View() == Register(cfg, old(View()), conn)
      ensures |tasks| == |old(tasks)| + 1
    {
      var streamsCreated := |streams|;
      var isSending := streamsCreated < numSendStreams as int;
      if role.Server? && cfg.direction.Bidirectional? {
        isSending := !isSending;
      }
      tasks := tasks + [NewWorker(streamsCreated, conn, isSending)];
      streams := streams[streamsCreated := |tasks| - 1];
    }

    // Executed only on the server.
    method AcceptStream(conn: nat)
      requires Valid() && role.Server?
      modifies this`streams, this`tasks, this`state, this`outbox, this`pc
      ensures Valid()
      ensures var s := Around(old(View()), old(outbox));
              Shows(Protocol.AcceptStream(cfg, s, old(View()), conn), View(), outbox)
      ensures |tasks| == |old(tasks)| + 1 && pc == Top
    {
      hide Register;
      var totalNeededStreams := (numSendStreams as int + numReceiveStreams as int) % 0x1_0000;
      CreateAndRegisterStreamWorker(conn);
      pc := Top;
      if |streams| == totalNeededStreams {
        SetState(Running);
      }
    }

    // The rest of the StreamTerminated branch once the handle is gone.
    method FinaliseIfIdle()
      requires Valid()
      modifies this`state, this`outbox, this`pc
      ensures Valid()
      ensures var s := Around(old(View()), old(outbox));
              Shows(AfterTermination(s, role, old(View())), View(), outbox)
    {
      pc := Top;
      if streams == map[] && role.Server? {
        SetState(ExchangeResults);
      }
    }

    // The StreamTerminated branch up to the await of the join handle.
    method TakeNotice(id: nat)
      requires Valid()
      modifies this`streams, this`state, this`outbox, this`pc
      ensures Valid()
      ensures var s := Around(old(View()), old(outbox));
              Shows(TerminateStream(s, role, old(View()), id), View(), outbox)
      // The handle is taken out and awaited; without one the server only looks whether it is done.
      ensures if id in old(streams)
              then pc == Join(id, old(streams)[id]) && streams == old(streams) - {id} && state == old(state)
              else
                && pc == Top && streams == old(streams)
                && state == if streams == map[] && role.Server? then ExchangeResults else old(state)
    {
      if id in streams {
        pc := Join(id, streams[id]);
        streams := streams - {id};
      } else {
        FinaliseIfIdle();
      }
    }

    // process_internal_message up to that await.
    method ProcessInternalMessage()
      requires Valid() && queue != []
      modifies this`queue, this`streams, this`tasks, this`state, this`outbox, this`pc
      ensures Valid()
      ensures var s := Around(old(View()), old(outbox));
              Shows(ReceiveInternal(cfg, s, role), View(), outbox)
      ensures queue == old(queue)[1..]
      ensures old(queue)[0].CreateStream? && role.Client? ==> pc == Aborted
      ensures old(queue)[0].CreateStream? && role.Server? ==> |tasks| == |old(tasks)| + 1 && pc == Top
    {
      hide Protocol.AcceptStream, TerminateStream;
      ghost var n, out := View(), outbox;
      var message := queue[0];
      queue := queue[1..];
      match message {
        case CreateStream(conn) =>
          if role.Server? {
            OtherNode(cfg, n, View(), out, message);
            AcceptStream(conn);
          } else {
            pc := Aborted;
          }
        case StreamTerminated(id) =>
          OtherNode(cfg, n, View(), out, message);
          TakeNotice(id);
      }
    }

    // What remains of it when the awaited task has returned.
    method JoinStream()
      requires Valid() && CanJoin(View())
      modifies this`results, this`failed, this`state, this`outbox, this`pc
      ensures Valid()
      ensures var s := Around(old(View()), old(outbox));
              Shows(DoJoin(s, role), View(), outbox)
      ensures var outcome := tasks[old(pc).task].pc.outcome;
              && results == (if outcome.Ok? then old(results)[old(pc).id := outcome.stats] else old(results))
              && state == if streams == map[] && role.Server? then ExchangeResults else old(state)
    {
      match tasks[pc.task].pc.outcome {
        case Ok(stats) => results := results[pc.id := stats];
        case Failed => failed := failed + {pc.id};
      }
      FinaliseIfIdle();
    }

    // Executed only on the client: a message read from the control socket.
    method ProcessServerMessage(message: ServerMessage)
      requires Valid() && role.Client? && pc.Recv?
      modifies this`state, this`outbox, this`pc
      ensures Valid() && outbox == old(outbox)
      ensures View() == DoRecvServer(Around(old(View()), [message])).client
      ensures pc == Top && state == if message.SetState? then message.state else old(state)
    {
      match message {
        case SetState(newState) => SetState(newState);
        case ServerResults(_) =>
      }
      pc := Top;
    }

    // What the loop does about the state it finds, other than entering the next one.
    method ActOnState()
      requires Valid() && pc.Top?
      modifies this`iters, this`pc, this`prior, this`tasks
      ensures Valid() && View() == HeadOf(old(View()))
      // The load starts when Running is new, and everyone is told to stop before the results are
      // collected; otherwise no worker hears anything.
      ensures if old(state).Running? && !old(prior).Running? then Heard(streams, old(tasks), StartLoad, tasks)
              else if old(state).ExchangeResults? then Heard(streams, old(tasks), Terminate, tasks)
              else tasks == old(tasks)
    {
      hide Broadcast, Deliver, Attached, Heard;
      iters := iters + 1;
      match state {
        case TestStart =>
          if role.Server? { return; }
        case CreateStreams =>
          if role.Client? { pc := Creating; return; }
        case Running =>
          if prior != Running { BroadcastToStreams(StartLoad); }
        case ExchangeResults =>
          BroadcastToStreams(Terminate);
          pc := Collecting;
          return;
      }
      prior := state;
      pc := Recv;
    }

    // One entry into the loop of run_controller, up to its next await.
    method EnterLoop()
      requires Valid() && pc.Top?
      modifies this`iters, this`pc, this`prior, this`state, this`outbox, this`tasks
      ensures Valid()
      ensures var s := Around(old(View()), old(outbox));
              Shows(LoopHead(s, role), View(), outbox)
      ensures if old(state).Running? && !old(prior).Running? then Heard(streams, old(tasks), StartLoad, tasks)
              else if old(state).ExchangeResults? then Heard(streams, old(tasks), Terminate, tasks)
              else tasks == old(tasks)
    {
      hide HeadOf, Broadcast, Deliver, Attached, Heard;
      HeadKeepsRole(View());
      var starting := state.TestStart? && role.Server?;
      ActOnState();
      if starting { SetState(TestState.CreateStreams); }
    }

    // Executed only on the client: opens connections, counting from `conn`, and registers a stream
    // for every one that is welcomed, until all needed streams are there or one is not welcomed.
    method CreateStreams(conn: nat, answers: seq<bool>) returns (ok: bool)
      requires Valid() && role.Client? && streams.Keys == Below(|streams|)
      requires |streams| + |answers| >= TotalNeededStreams(cfg, role)
      modifies this`streams, this`tasks, this`pc
      ensures Valid() && Opened(cfg, old(View()), View().(pc := old(pc)), conn)
      ensures pc == if ok then old(pc) else Aborted
      ensures ok <==> old(|streams|) + Welcomes(answers) >= TotalNeededStreams(cfg, role)
      ensures |streams| == if old(|streams|) >= TotalNeededStreams(cfg, role) then old(|streams|)
                           else if ok then TotalNeededStreams(cfg, role) else old(|streams|) + Welcomes(answers)
    {
      hide Opened, Register, Below, Welcomes;
      var totalNeededStreams := (numSendStreams as int + numReceiveStreams as int) % 0x1_0000;
      var dialled := 0;
      ghost var n := View();
      OpenNone(cfg, n, conn);
      while |streams| < totalNeededStreams
        invariant Valid() && Opened(cfg, n, View(), conn) && pc == old(pc)
        invariant |streams| == |n.streams| + dialled && dialled <= |answers| && dialled <= Welcomes(answers)
        invariant dialled == 0 || |streams| <= totalNeededStreams
        decreases totalNeededStreams - |streams|
      {
        WelcomeAt(answers, dialled);
        // The dial, the Hello or the Welcome failed.
        if !answers[dialled] {
          pc := Aborted;
          return false;
        }
        OpenOne(cfg, n, View(), conn);
        CreateAndRegisterStreamWorker(conn + dialled);
        dialled := dialled + 1;
      }
      ok := true;
    }

    // One handle drained, with how waiting for it ended.
    method Settle(id: nat, wait: Wait)
      requires Valid() && id in streams
      modifies this`streams, this`results, this`failed, this`timedOut
      ensures Valid() && View() == Settled(old(View()), id, wait)
    {
      streams := streams - {id};
      match wait {
        case TimedOut => timedOut := timedOut + {id};
        case Returned(outcome) =>
          match outcome {
            case Ok(stats) => results := results[id := stats];
            case Failed => failed := failed + {id};
          }
      }
    }

    // Drains the handle map in whatever order it comes, waiting for each worker at most so long.
    // `waits` says how that ends for the workers that have not returned yet.
    method CollectTestResult(waits: map<nat, Wait>)
      requires Valid() && Truthful(View(), waits)
      modifies this`streams, this`results, this`failed, this`timedOut
      ensures Valid() && streams == map[]
      ensures View() == Collected(old(View()), old(streams).Keys, waits)
    {
      hide Collected, Settled;
      ghost var n := View();
      ghost var done: set<nat> := {};
      CollectNone(n, waits);
      while streams.Keys != {}
        invariant Valid() && done <= n.streams.Keys
        invariant View() == Collected(n, done, waits) && streams.Keys == n.streams.Keys - done
        decreases streams.Keys
      {
        var id :| id in streams.Keys;
        CollectOne(n, done, id, waits);
        SettledKeys(View(), id, waits[id]);
        Settle(id, waits[id]);
        done := done + {id};
      }
      assert done == n.streams.Keys;
    }
  }
}
