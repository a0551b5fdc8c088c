/**
  The accept loop of run_server as the loop it is: one connection at a time, at most one test in
  flight. For the connections of a conforming client it does what the transition system's accept
  steps do; every other connection leaves the test in flight as it is, but some end the loop.
 */
module Server {
  import opened Protocol
  import opened ProtocolCompletion
  import opened WorkerSafety
  import opened Wrappers

  // What a new connection says first: a Hello with a cookie, something else or nothing before it
  // closes, or nothing at all without ever closing.
  datatype Hello = Hello(cookie: string) | NoHello | Silent

  // Whether the caller is still there when the Welcome is written, and what the client of a new
  // test sends next: None when it sends something else or takes too long.
  datatype Caller = Caller(hello: Hello, stays: bool, params: Option<Config>)

  // The test whose state the weak reference still leads to.
  datatype Test = Test(cookie: string, state: TestState)

  // The accept steps for one connection of the client, taken together.
  function Round(s: World): World
    requires CanAccept(s) && s.accepted in s.helloed
  {
    if s.server.state.CreateStreams? then DoEnqueue(DoWelcome(DoAccept(s))) else DoAccept(s)
  }

  class AcceptLoop {
    var inFlight: Option<Test>
    var queue: seq<ControllerMessage>
    var welcomed: set<nat>
    var refused: set<nat>
    var created: seq<Config>
    // run_server has returned an error, or waits for a caller that never speaks.
    var down: bool
    var stuck: bool

    constructor ()
      ensures inFlight.None? && queue == [] && welcomed == {} && refused == {} && created == [] && !down && !stuck
    {
      inFlight, queue, welcomed, refused, created, down, stuck := None, [], {}, {}, [], false, false;
    }

    // World `s` shows the test in flight as this loop sees it, with `accepted` connections taken.
    ghost predicate ShownBy(s: World, accepted: nat)
      reads this
    {
      && inFlight.Some? && s.server.state == inFlight.value.state && s.server.queue == queue
      && s.accepted == accepted && s.welcomed == welcomed && s.refused == refused
      && (s.accept.Down? <==> down) && (!down ==> s.accept.Idle?) && !stuck
    }

    // One round of the loop, on the connection accepted as number `conn`.
    method Accept(conn: nat, caller: Caller)
      requires !down && !stuck
      modifies this
      // A test is created only when there is none, and only by a client that stays and says what
      // it wants.
      ensures old(inFlight).None? ==>
                && refused == old(refused)
                && welcomed == old(welcomed) + (if caller.hello.Hello? && caller.stays then {conn} else {})
                && if caller.hello.Hello? && caller.stays && caller.params.Some?
                   then
                     && inFlight == Some(Test(caller.hello.cookie, TestStart))
                     && queue == [] && created == old(created) + [caller.params.value]
                   else inFlight.None? && queue == old(queue) && created == old(created)
      // A test in flight keeps its state. While it gathers streams, a caller with its cookie that
      // stays is welcomed, and handed over if there is room; another cookie is refused. At any
      // other time every caller is.
      ensures old(inFlight).Some? ==>
                var test := old(inFlight).value;
                var gathers := test.state.CreateStreams?;
                var joins := gathers && caller.hello == Hello(test.cookie) && caller.stays;
                && inFlight == old(inFlight) && created == old(created)
                && welcomed == old(welcomed) + (if joins then {conn} else {})
                && queue == old(queue) + (if joins && |old(queue)| < 5 then [CreateStream(conn)] else [])
                && refused == old(refused) +
                     (if !gathers || (caller.hello.Hello? && caller.hello.cookie != test.cookie) then {conn} else {})
      // What the transition system says of the client's own connections.
      ensures caller.stays && !caller.hello.Silent? ==>
                forall s: World ::
                  (old(ShownBy(s, conn)) && conn < |s.conns| && conn in s.helloed &&
                   (s.server.state.CreateStreams? ==> caller.hello == Hello(old(inFlight).value.cookie)))
                  ==> ShownBy(Round(s), conn + 1)
      // The loop ends exactly when, while streams are gathered, a caller does not greet, or has the
      // right cookie but is gone before its Welcome or finds no room.
      ensures down <==>
                old(inFlight).Some? && old(inFlight).value.state.CreateStreams? &&
                (caller.hello.NoHello? ||
                 (caller.hello == Hello(old(inFlight).value.cookie) && (!caller.stays || |old(queue)| >= 5)))
      // It never comes round again exactly when its caller says nothing and it listens.
      ensures stuck <==>
                caller.hello.Silent? && (old(inFlight).None? || old(inFlight).value.state.CreateStreams?)
    {
      match inFlight {
        case Some(test) =>
          if test.state.CreateStreams? {
            match caller.hello {
              case Silent => stuck := true;
              case NoHello => down := true;
              case Hello(cookie) =>
                if cookie == test.cookie {
                  if caller.stays {
                    welcomed := welcomed + {conn};
                    if |queue| < INTERNAL_PROT_BUFFER {
                      queue := queue + [CreateStream(conn)];
                    } else {
                      down := true;
                    }
                  } else {
                    down := true;
                  }
                } else {
                  refused := refused + {conn};
                }
            }
          } else {
            refused := refused + {conn};
          }
        case None =>
          match caller.hello {
            case Silent => stuck := true;
            case NoHello =>
            case Hello(cookie) =>
              if caller.stays {
                welcomed := welcomed + {conn};
                if caller.params.Some? {
                  inFlight := Some(Test(cookie, TestStart));
                  queue := [];
                  created := created + [caller.params.value];
                }
              }
          }
      }
    }
  }

  // ------------------------------------------------------------ a caller that stays silent

  lemma WorkersLeaveLoopAlone(cfg: Config, s: World, step: Step)
    requires Enabled(cfg, s, step) && ByWorker(step)
    ensures Next(cfg, s, step).accept == s.accept && Next(cfg, s, step).helloed == s.helloed
    ensures Next(cfg, s, step).server.iters == s.server.iters
  {
    hide Enabled, Next;
    WorkerStepShape(cfg, s, step);
  }

  lemma ControllersWait(cfg: Config, s: World, step: Step, c: nat)
    requires s.accept == Reading(c) && Enabled(cfg, s, step) && !ByWorker(step) && c !in s.helloed
    ensures Next(cfg, s, step).accept == Reading(c) && Next(cfg, s, step).server.iters == s.server.iters
  {
    hide WorkerCan, WorkerNext, Broadcast;
  }

  lemma ReadingStays(cfg: Config, s: World, step: Step, c: nat)
    requires s.accept == Reading(c) && Enabled(cfg, s, step) && c !in s.helloed
    ensures Next(cfg, s, step).accept == Reading(c) && Next(cfg, s, step).server.iters == s.server.iters
  {
    hide Enabled, Next;
    if ByWorker(step) { WorkersLeaveLoopAlone(cfg, s, step); } else { ControllersWait(cfg, s, step, c); }
  }

  // While the accept loop waits for a Hello it holds the state's lock, so as long as none comes
  // neither the loop nor the server's controller goes round again.
  lemma {:induction false} SilenceStalls(cfg: Config, r: Run, q: Run, c: nat)
    requires IsRun(cfg, r) && Last(cfg, r).accept == Reading(c)
    requires IsRun(cfg, q) && Continues(r, q) && c !in Last(cfg, q).helloed
    ensures Last(cfg, q).accept == Reading(c)
    ensures Last(cfg, q).server.iters == Last(cfg, r).server.iters
  {
    hide Enabled, Next;
    if q != r {
      if c in Last(cfg, q.prefix).helloed { NeverUnsaid(cfg, Last(cfg, q.prefix), q.step, c); }
      SilenceStalls(cfg, r, q.prefix, c);
      ReadingStays(cfg, Last(cfg, q.prefix), q.step, c);
    }
  }

  lemma NeverUnsaid(cfg: Config, s: World, step: Step, c: nat)
    requires Enabled(cfg, s, step) && c in s.helloed
    ensures c in Next(cfg, s, step).helloed
  {
    hide WorkerCan, WorkerNext, Broadcast, Register;
    if ByWorker(step) { WorkersLeaveLoopAlone(cfg, s, step); }
  }
}
