# netperf: the test protocol and its accounting, proved

netperf measures TCP throughput and latency between a client and a server. This project models the
two ways it is built, p2 (tokio, poll-based sockets) and p3 (native async sockets), and proves what
its users rely on: that the two sides of a test agree on who sends on which stream, that no stream
starts before all of them exist, that the test ends, that every result arrives when nothing fails, and
that the numbers printed at the end are about the bytes and the time that really passed.

`dafny verify dfyconfig.toml` checks everything.

## How the model is cut

**The p2 protocol** is a labelled transition system (`Protocol.dfy`): the two controllers, the
server's accept loop, the workers of both sides, the control connection as a FIFO in each direction,
two byte pipes for every data connection, the controllers' queues and the workers' queues, each of
five places. A step is what one component does between two of its awaits. A `Run` is any sequence of
enabled steps, so a statement about every run is a statement about every interleaving, every split of
the bytes into reads and writes, every choice of failing workers and every firing of a timeout.
`ProtocolInvariant.dfy` holds the inductive invariant; `NodeSafety`, `ControllerSafety`,
`ExchangeSafety` and `WorkerSafety` prove that each group of steps keeps it, `ProtocolSafety` puts
them together. `ProtocolTheorems` states the guarantees. `ProtocolProgress` and `ProtocolCompletion`
bound the length of runs and show that they can be completed and that the results arrive;
`ProtocolOverflow` shows where that ends, and `ProtocolBlocks` what blocks of length 0 do to it, both
with the runs built in `ProtocolRuns`.

**The controller and the accept loop as objects** (`Controller.dfy`, `Server.dfy`): classes whose
methods update the handle map, the results, the queue and the control socket in place, each proved
equal to the step of the transition system it stands for.

**The p2 worker** (`Completions.dfy`, `StreamWorker.dfy`): the transfer loop with all its counters,
proved against a history of completed reads and writes. What the counters mean is said by predicates
over that history, which determine them. `WorkerInProtocol.dfy` ties this worker to the one in the
transition system.

**Framing**: `Framing.dfy` (p2, big-endian, exact reads), `ControlFraming.dfy` (p3, little-endian,
over-reading), both over `ByteStream.Reader`, a connection that delivers its bytes in arbitrary
fragments.

**The p3 data plane** (`DataPlane.dfy`), **percentiles** (`Stats.dfy`), **the final totals**
(`Summary.dfy`) and **the symbol index** (`SymbolIndex.dfy`).

## What turned out not to hold

- The controller's queue has five places, and a full queue drops a notification. Every run can be
  completed, and every run without a fault can deliver all results, exactly when the test needs one to
  five streams (`ProtocolOverflow.CompletesExactlyUpToFive`), while the repository's README starts tests
  with `-P 100 --bidir` (README.md:26). For each larger number there is a run, with nothing going wrong
  before, in which six workers simply end together and the server waits for ever
  (`ProtocolOverflow.NotificationIsDropped`). The result is the same for those runs alone in which the
  controller gets its turn between any two connections handed to it. The second way for a full queue
  to do harm, ending the accept loop (`ProtocolOverflow.AcceptLoopGoesDown`), needs a scheduler and a
  lock that pass over the ready controller; where the controller gets its turn it does not happen, for
  any number of streams (`ProtocolOverflow.OrderlyLoopStaysUp`). The program's own runtime, one thread
  (crates/netperf-p2/src/main.rs:4) and a first-come lock, gives it its turn.
- Two more limits to `CompletesExactlyUpToFive` lie outside the model, in inputs nobody validates: `-t`
  near 2^64 makes `start_time + timeout_duration` overflow
  (crates/netperf-p2/src/common/stream_worker.rs:85, 128), and `-l` near 2^32 on wasm (2^64 elsewhere)
  is more than `vec![0; block_size]` can hold (crates/netperf-p2/src/common/stream_worker.rs:57).
  Either makes the worker panic before it notifies its controller, so that even a test with one stream
  cannot be completed.
- A block length of 0 is accepted (`-l 0`), and on platforms where a read into an empty buffer returns 0
  at once, a worker takes that for the end of its stream, so a receiver can report success before its
  sender has started. That a successful receiver outlives its sender holds in every run exactly when the
  block length is at least 1 or an empty read waits for the end; that the client's senders are back when
  it collects, and are given up only when the server's end failed, exactly when that holds or the client
  does not send (`ProtocolBlocks.OrderlyEndExactly`).
- With `--bidir` the stream total is a `u16` sum; both sides still agree on it, but it is the number
  asked for only up to `parallel` 32767 (`ProtocolTheorems.TotalIsExact`). In a build with overflow
  checks the sum panics instead.
- In p3 the sender's total is `block` minus what `write_all` hands back, also when the buffer was
  already shorter than `block`. If the receiver goes away in the middle of a block, each further
  round counts the same remainder again until the time is up. The count is right exactly under
  `DataPlane.Undisturbed` (`DataPlane.CountIsExact`).
- In p3 the results are numbered at each end by the connections that end has reports of. An id means the
  same connection at both ends exactly when only the client's own connections were accepted and none of
  them was refused before one that was not (`DataPlane.IdsMatchExactly`).
- `Dist::from_samples` multiplies in `usize`, 32 bits on wasm: the p-th percentile is right for every
  list of n samples exactly when p * n fits (`Stats.RightExactlyWhenItFits`). With overflow checks
  the product panics instead.
- A perfmap row can hide behind a later, shorter one; the bisection finds a containing row whenever
  there is one exactly when none does (`SymbolIndex.RangeAtIsComplete`).
- A p2 message of more than 20 MiB can be sent but is refused by the reader, which leaves its payload
  on the stream (`Framing.FrameRoundTrip`).
- While streams are being created, `run_server` returns an error when a connection does not start with a
  Hello, or has the right cookie and is gone before its Welcome is written; and a connection that stays
  silent holds the accept loop, and with it the lock on the test's state and the server's controller,
  for as long as it likes (`Server.AcceptLoop.Accept`, `Server.SilenceStalls`). The comment above
  `create_test` (crates/netperf-p2/src/server.rs:98-100) speaks of a timeout for each read; the first
  read, `read_cookie`, has none.

## Assumptions

- Each process runs its components on one thread, so they interleave only at awaits.
- `set_state` is one step: the announcement is sent and the state adopted together. A control frame is
  read in one step. The control connection does not fail.
- Whether a p2 read into an empty buffer returns 0 before the end of the stream depends on the platform
  (`Config.emptyReadEnds`); both answers are covered.
- A run may schedule the components of one process in any order. Where that matters, the runs in which
  the controller gets its turn between two hand-overs (`ProtocolRuns.Orderly`) are treated apart.
- The random block is always available, so a worker ends only after it was signalled, or with an I/O
  error.
- The client conforms: it opens the negotiated number of streams, one after the other, with the right
  cookie, each staying until it is welcomed. Other connections are refused and do not touch the test
  in flight, except as `Server.AcceptLoop.Accept` states.
- Encoding and decoding of messages is a pair of functions on opaque payloads.
- Clock readings do not run backwards; otherwise they are arbitrary.
- A p3 read into an empty buffer only tells whether the stream has ended.
- Times are whole nanoseconds; the goodput rate, a floating-point quotient in the source, is the exact
  integer quotient.

## Model

| member | source | states |
|---|---|---|
| ProtocolSafety.EveryRunIsSafe | crates/netperf-p2/src/controller.rs:42-111 | The whole invariant (both controllers, handshake, control connection, pipes) holds at the end of every run, for every direction and number of streams |
| ProtocolSafety.StepKeeps | crates/netperf-p2/src/controller.rs:42-246 | Each of the 25 kinds of step, by any component, keeps the invariant |
| ProtocolTheorems.TotalIsExact | crates/netperf-p2/src/controller.rs:326-327 | Both sides need the same number of streams, and it is the one asked for iff the u16 sum does not wrap (bidirectional: parallel at most 32767) |
| ProtocolTheorems.RolesAreComplementary | crates/netperf-p2/src/controller.rs:282-300 | Swap and flip together make the two ends of every stream complementary, in all directions and even when the sum wraps |
| ProtocolTheorems.SendsAsConfigured | crates/netperf-p2/src/common/perf_test.rs:51-66 | Each side sends on exactly as many streams as its counter says iff the sum did not wrap |
| ProtocolTheorems.PairedStreams | crates/netperf-p2/src/controller.rs:249-334 | In every run, client stream k and server stream k are the two ends of the same connection, under the same id, and exactly one of them sends |
| ProtocolTheorems.StartBarrier | crates/netperf-p2/src/controller.rs:249-258 | In every run nobody transfers before the server holds all streams, a client worker not before the client does too; each worker is sent StartLoad once and first, Terminate at most once after it; the wrong-first-signal error is unreachable |
| ProtocolTheorems.CollectorHasTerminated | crates/netperf-p2/src/controller.rs:81-86 | In every run, on either side, while results are collected every worker still waited for has been sent Terminate, once, after StartLoad |
| ProtocolTheorems.ReceiverOutlivesSender | crates/netperf-p2/src/common/stream_worker.rs:226-231 | Where a read of 0 means the end of the stream, a receiver that returned without error did so after its sender returned, with nothing left in the pipe |
| ProtocolTheorems.NoWriteToClosedPeer | crates/netperf-p2/src/common/stream_worker.rs:226-231 | Whenever a write is possible, the peer has not returned, or it failed, whatever the block length |
| ProtocolTheorems.SendersAreBack | crates/netperf-p2/src/controller.rs:206-226 | When the client handles ExchangeResults every server worker has returned, and so has, where a read of 0 means the end, every client sender whose server end did not fail |
| ProtocolTheorems.WhoCanTimeOut | crates/netperf-p2/src/controller.rs:120-141 | The five-second timeout never hits the server; where a read of 0 means the end, on the client only a receiver or a sender whose server end failed |
| ProtocolTheorems.StatesInOrder | crates/netperf-p2/src/controller.rs:149-181 | The states handled are a prefix of those announced, which are a prefix of CreateStreams, Running, ExchangeResults; no unexpected-message branch is ever reached |
| ProtocolTheorems.EveryStreamAccountedFor | crates/netperf-p2/src/controller.rs:206-222 | From Running on every id is in exactly one place (active, being joined, stored, failed, given up), and a stored result is the one its own worker returned |
| ProtocolTheorems.NoLostNotification | crates/netperf-p2/src/controller.rs:305-311 | With at most five streams no try_send to a controller fails, and under load an active stream has returned iff its notification is queued, once |
| ProtocolTheorems.LoopBounds | crates/netperf-p2/src/controller.rs:45-108 | The server's loop is entered at most 2 * total + 2 times, exactly that often in a finished run; the client's at most total + 4 times |
| ProtocolTheorems.BytesConserved | crates/netperf-p2/src/common/stream_worker.rs:131-231 | At every moment the bytes counted by a sender are those counted by its receiver, drained by it, and in flight |
| ProtocolTheorems.FinishedRun | crates/netperf-p2/src/controller.rs:149-181 | When both sides are done each holds the other's results, which are those of exactly the streams that neither failed nor were given up; no stream is active; and a stream both report has sender bytes equal to receiver bytes plus bytes drained |
| ProtocolProgress.StepMeasure | crates/netperf-p2/src/controller.rs:42-111 | A measure that a write of n bytes raises by n and every other step lowers |
| ProtocolProgress.SomeStep | crates/netperf-p2/src/controller.rs:42-111 | With one to five streams every reachable state that is not complete has an enabled step that is no write, no I/O error and no timeout: no deadlock |
| ProtocolCompletion.RunsAreBounded | crates/netperf-p2/src/controller.rs:42-111 | However the components interleave, a run has at most 26 * total + 24 steps other than writes, and one more per byte written |
| ProtocolCompletion.StuckOnlyWhenComplete | crates/netperf-p2/src/controller.rs:42-111 | With one to five streams a run that can only go on by writing or by a fault is complete |
| ProtocolCompletion.RunsComplete | crates/netperf-p2/src/controller.rs:42-111 | With one to five streams every run can be continued to completion without any further I/O error or timeout |
| ProtocolCompletion.EveryResultArrives | crates/netperf-p2/src/controller.rs:120-181 | With one to five streams every run free of I/O errors and timeouts can be continued, still free of them, until both sides hold the results of all streams from both ends, each with its bytes accounted for |
| ProtocolCompletion.SmoothDelivers | crates/netperf-p2/src/controller.rs:120-181 | Every completed run free of faults, for any number of streams, has delivered every result to both sides |
| ProtocolCompletion.SmoothIsClean | crates/netperf-p2/src/controller.rs:122-140 | Without I/O errors and timeouts no stream is ever recorded as failed or given up, and every worker that returned reported success |
| ProtocolCompletion.NoStreamsNoEnd | crates/netperf-p2/src/controller.rs:249-258 | With no stream at all no run completes: the server waits for one for ever |
| ProtocolOverflow.AcceptLoopGoesDown | crates/netperf-p2/src/server.rs:44-46 | With six or more streams there is a run, free of faults, in which the controller is passed over six times, the accept loop meets a full queue and returns an error |
| ProtocolOverflow.OrderlyLoopStaysUp | crates/netperf-p2/src/server.rs:37-46 | If the controller takes a message between any two hand-overs, at most one connection waits in its queue and the accept loop never meets a full one, for any number of streams |
| ProtocolOverflow.DownNeverCompletes | crates/netperf-p2/src/server.rs:44-46 | No continuation of such a run completes |
| ProtocolOverflow.NotificationIsDropped | crates/netperf-p2/src/controller.rs:305-311 | With six or more streams there is a run, free of faults and with the controller taking every hand-over in turn, in which six workers end one after the other and the sixth notification is dropped while its stream is active |
| ProtocolOverflow.OrphanNeverCompletes | crates/netperf-p2/src/controller.rs:206-226 | After a dropped notification no continuation completes: the stream stays in the map and ExchangeResults never comes |
| ProtocolOverflow.CompletesExactlyUpToFive | crates/netperf-p2/src/common/consts.rs:3 | Every run of a configuration can be completed, every run free of faults can deliver all results, and every such run with orderly hand-overs can, each iff it needs one to five streams |
| ProtocolBlocks.OrderlyEndExactly | crates/netperf-p2/src/common/stream_worker.rs:56-57 | Successful receivers outlive their senders in every run iff the block length is at least 1 or an empty read waits for the end; client senders are back when the client collects, and are given up only for a failed server end, iff that holds or the client does not send |
| ProtocolBlocks.ReceiverIsEarly | crates/netperf-p2/src/common/stream_worker.rs:132-137 | With block length 0, where an empty read returns at once, there is a run, free of faults, in which a receiver reports success before its sender has started |
| ProtocolBlocks.SenderIsLate | crates/netperf-p2/src/common/stream_worker.rs:228-230 | In the same circumstances and with a sending client there are such runs in which the client collects before its sender has started, and gives it up although the server reported success |
| Controller.TestController.constructor | crates/netperf-p2/src/common/perf_test.rs:44-78 | A fresh controller is the initial node, with the counters swapped on the server |
| Controller.TestController.SetState | crates/netperf-p2/src/common/perf_test.rs:80-94 | Announces on the server, then adopts; on the client only adopts |
| Controller.TestController.BroadcastToStreams | crates/netperf-p2/src/controller.rs:183-196 | Every handle in the map gets the message if its queue has room, in whatever order the map is walked; nobody else does |
| Controller.TestController.CreateAndRegisterStreamWorker | crates/netperf-p2/src/controller.rs:282-317 | The new worker has the next id and the role the registration step gives it |
| Controller.TestController.AcceptStream | crates/netperf-p2/src/controller.rs:249-258 | Registers and, on the last needed stream, announces Running: the transition system's step |
| Controller.TestController.ProcessInternalMessage | crates/netperf-p2/src/controller.rs:199-230 | Handles the message at the head of the queue up to its await as the receiving step does |
| Controller.TestController.JoinStream | crates/netperf-p2/src/controller.rs:210-226 | Stores the joined worker's own result or its failure and announces ExchangeResults when no stream is left, as the join step does |
| Controller.TestController.ProcessServerMessage | crates/netperf-p2/src/controller.rs:232-246 | Adopts an announced state and ignores anything else, as the client's receiving step does |
| Controller.TestController.EnterLoop | crates/netperf-p2/src/controller.rs:45-100 | One entry into the loop up to its await is the transition system's loop step; every reachable worker hears StartLoad when Running is new and Terminate before the results are collected, and nothing else is ever broadcast |
| Controller.TestController.CreateStreams | crates/netperf-p2/src/controller.rs:263-334 | Registers consecutive connections under consecutive ids until the total is reached; aborts, with exactly the streams welcomed before registered, at the first connection whose dial, Hello or Welcome fails |
| Controller.TestController.CollectTestResult | crates/netperf-p2/src/controller.rs:120-146 | The map ends empty, and each handle's result, failure or timeout is recorded whatever the order of the drain; a worker that had returned is recorded with what it returned |
| Controller.ControllerIsLocal | crates/netperf-p2/src/controller.rs:199-230 | What a controller does depends only on itself and its control socket, so the methods do in every world what they do in the one they are stated on |
| Controller.CollectOne | crates/netperf-p2/src/controller.rs:122-140 | The outcome of draining a set of handles extends by one handle, taken in any order, with the transition system's own step |
| Server.AcceptLoop.Accept | crates/netperf-p2/src/server.rs:31-93 | The whole new state of one round: a test is created only when none is in flight; while it gathers streams a caller with its cookie is welcomed and handed over, one with another cookie refused, and at any other time everyone is; the loop ends exactly when a caller does not greet, is gone before its Welcome or finds no room, and never comes round again exactly when it listens to a silent one; for the client's own connections all this is the accept steps |
| Server.SilenceStalls | crates/netperf-p2/src/server.rs:37-40 | While the accept loop waits for a Hello that does not come, neither it nor the server's controller goes round again, in any continuation |
| StreamWorker.RunWorker | crates/netperf-p2/src/common/stream_worker.rs:54-232 | All figures and reports of a worker as the history of its handled events determines them, for every choice the select makes; a receiver that ends well has drained its stream, and it fails exactly when an I/O error ends the loop or comes before the drain has reached the end |
| WorkerInProtocol.BytesAreMoves | crates/netperf-p2/src/common/stream_worker.rs:172-176 | In every run of the protocol a worker's byte count is the sum of the reads and writes the run let it complete |
| WorkerInProtocol.ReportsMeet | crates/netperf-p2/src/common/stream_worker.rs:131-203 | In every run, what the sending end of a stream reported per interval plus its unreported tail is what the receiving end reported plus its tail, plus bytes drained and in flight |
| WorkerInProtocol.ResultsAreFigures | crates/netperf-p2/src/controller.rs:206-222 | The byte count a controller stores for a stream is the one in its worker's own figures |
| StreamWorker.Transfer | crates/netperf-p2/src/common/stream_worker.rs:131-205 | The loop handles exactly the events up to the first one that stops it, and fails exactly when that is an I/O error |
| StreamWorker.HandledExactly | crates/netperf-p2/src/common/stream_worker.rs:141-203 | An event is handled iff it and all before it are stray start signals, ticks, or reads and writes that moved something; Terminate, a closed queue, an error and an empty read or write end the loop |
| StreamWorker.Books.OnCompleted | crates/netperf-p2/src/common/stream_worker.rs:172-197 | A completed read or write keeps totals, interval counters, windows and samples in step with the history |
| StreamWorker.Books.OnTick | crates/netperf-p2/src/common/stream_worker.rs:155-171 | A tick reports what came since the last one and starts afresh |
| StreamWorker.ReportsAddUp | crates/netperf-p2/src/common/stream_worker.rs:155-178 | The interval reports are contiguous from the start, and with the unreported tail they add up to all bytes and calls |
| StreamWorker.FiguresAreConsistent | crates/netperf-p2/src/common/stream_worker.rs:207-224 | Sample count plus warm-up equals syscalls; mean times count and windows times 10 ms stay within the elapsed time; both distributions are ordered |
| StreamWorker.WarmupIsFirstSecond | crates/netperf-p2/src/common/stream_worker.rs:97-101 | A test of more than two seconds discards exactly what completes in its first second, a shorter one nothing; the rest is sampled |
| StreamWorker.CalibrateClock | crates/netperf-p2/src/common/stream_worker.rs:251-261 | The baseline is one of the 256 differences; more than half of them are at most it, and for any smaller one no more than half are at most that |
| Completions.SamplesTelescope | crates/netperf-p2/src/common/stream_worker.rs:190-196 | The kept samples sum to at most the time they cover, and to at least that time less count times the clock baseline |
| Completions.SamplesAreCorrected | crates/netperf-p2/src/common/stream_worker.rs:190-192 | Each sample plus the clock baseline is the time since the completion before it, and the sample is 0 where that time is shorter than the baseline |
| Completions.SumIsExact | crates/netperf-p2/src/common/stream_worker.rs:190-196 | Where no gap is shorter than a clock reading the samples sum to exactly the covered time less one reading each |
| Completions.MeanWithinElapsed | crates/netperf-p2/src/common/stream_worker.rs:208-217 | The mean times the number of samples never exceeds the elapsed time |
| Completions.LatencyUnique | crates/netperf-p2/src/common/stream_worker.rs:190-196 | The history determines which completions are warm-up and what every sample is |
| Completions.WindowTotals | crates/netperf-p2/src/common/stream_worker.rs:182-189 | Closed windows plus the open one hold all bytes; windows times 10 ms is at most the elapsed time; the time-weighted rates give the bits back to within one bit per second |
| Completions.WindowsAddUp | crates/netperf-p2/src/common/stream_worker.rs:182-189 | The same for the first n windows, each contiguous with the one before and at least 10 ms long |
| Completions.WindowTakesTenMs | crates/netperf-p2/src/common/stream_worker.rs:182-189 | A closed window took at least 10 ms and had not before its last completion |
| Completions.WindowsDetermined | crates/netperf-p2/src/common/stream_worker.rs:182-189 | The history determines where the windows are cut: each at the first completion 10 ms or more after it opened |
| Framing.SendControlMessage | crates/netperf-p2/src/common/net_utils.rs:62-80 | The buffer filled in place is the big-endian length followed by the payload |
| Framing.ToBigEndian | crates/netperf-p2/src/common/net_utils.rs:72-74 | The length goes out most significant byte first |
| Framing.ReadControlMessage | crates/netperf-p2/src/common/net_utils.rs:84-128 | For every fragmentation, result and remaining bytes are those of the one-shot frame reader |
| Framing.FrameRoundTrip | crates/netperf-p2/src/common/net_utils.rs:62-128 | A sent frame is read back, leaving all later bytes alone, iff its payload is at most 20 MiB; a longer one is refused with its payload left on the stream |
| Framing.ReadTakesOneFrame | crates/netperf-p2/src/common/net_utils.rs:93-121 | A successful read takes exactly 4 + length bytes, and each way of failing happens on exactly the streams described |
| Framing.ReadAll | crates/netperf-p2/src/common/net_utils.rs:84-128 | Any list of payloads written back to back is read back unchanged and in order, whatever the fragments |
| ControlFraming.RecvMsg | crates/netperf-p3/src/lib.rs:108-124 | For every chunking the incremental reader answers as the one-shot parse of the whole stream does, and over-reads by less than one buffer |
| ControlFraming.ToLittleEndian | crates/netperf-p3/src/lib.rs:93 | The length goes out least significant byte first |
| ControlFraming.FrameReadsBack | crates/netperf-p3/src/lib.rs:91-124 | The first frame is decoded whatever follows it, iff 4 + length fits usize |
| ControlFraming.MoreBytesChangeNothing | crates/netperf-p3/src/lib.rs:108-124 | An answer once given is not revised by later bytes |
| ControlFraming.NothingMeansShortOrGarbled | crates/netperf-p3/src/lib.rs:108-124 | Nothing is returned iff the stream does not start with a whole frame or that frame's payload does not decode |
| DataPlane.WriteData | crates/netperf-p3/src/lib.rs:143-182 | What is sent and what is counted, for every block size, number of rounds and amount the reader takes before it leaves |
| DataPlane.CountIsExact | crates/netperf-p3/src/lib.rs:150-166 | The sender never counts too little, and counts what moved iff no write taken in part was followed by another |
| DataPlane.ReadData | crates/netperf-p3/src/lib.rs:186-211 | Counts every byte up to the end of the stream, on top of what was already read, and returns iff the block is not empty or nothing is left to read |
| DataPlane.ClientConn | crates/netperf-p3/src/lib.rs:239-290 | The client's half carries the cookie and then its data; its reports, in order, are those of the roles it plays |
| DataPlane.ServerConn | crates/netperf-p3/src/lib.rs:295-324 | For every chunking, reports come exactly when the first eight bytes are the expected cookie, and then the receiver counts all bytes after them; it never returns exactly when the blocks are empty and bytes are left that did not come in with the cookie |
| DataPlane.ConnectionConserves | crates/netperf-p3/src/lib.rs:239-324 | End to end, in all three directions: a connection is counted iff its cookie arrived whole and right, then sender and receiver agree iff the reader did no harm, and no receiver hangs, even with empty blocks |
| DataPlane.ResultsOfConnection | crates/netperf-p3/src/lib.rs:326-341 | Under which id each report of each connection is stored at either end |
| DataPlane.IdsMatchExactly | crates/netperf-p3/src/lib.rs:326-341 | An id leads to the same connection and role in the two result maps iff only own connections were accepted and none was refused before an accepted one |
| Stats.SortUnstable | crates/netperf-core/src/stats.rs:36 | The array becomes the sorted permutation of itself |
| Stats.FromSamples | crates/netperf-core/src/stats.rs:31-52 | The default for no samples; count, extremes and mean always right; the whole distribution right when 99 * n fits usize |
| Stats.ClampsIdle | crates/netperf-core/src/stats.rs:39-42 | Neither index clamp is ever needed while the product fits usize |
| Stats.PercentileIsNearestRank | crates/netperf-core/src/stats.rs:38-42 | The value read off the sorted list is the smallest sample whose at-or-below count reaches p percent |
| Stats.RightExactlyWhenItFits | crates/netperf-core/src/stats.rs:38-42 | The p-th percentile is right for all lists of n samples iff p * n fits usize |
| Stats.DistIsOrdered | crates/netperf-core/src/stats.rs:44-52 | min, p50, p90, p99, p100 never fall, and the mean lies between the extremes |
| Stats.DistOfPermutation | crates/netperf-core/src/stats.rs:31-52 | The distribution depends only on the multiset of samples |
| Summary.PrintSummary | crates/netperf-core/src/ui.rs:78-117 | The totals are sums and maxima over the streams, whatever order the map is walked in, and are shown for more than one stream |
| Summary.TotalsGrow | crates/netperf-core/src/ui.rs:85-111 | One more stream adds the bytes of its local line, and in a one-way test of its remote line, to the totals of their own kinds, and their durations to those maxima |
| Summary.TotalsUnique | crates/netperf-core/src/ui.rs:85-111 | There is only one such set of totals, so the order is invisible |
| Summary.SwapChangesNothing | crates/netperf-core/src/ui.rs:85-111 | In a one-way test whose two maps have the same ids, the totals stay the same when local and remote are swapped |
| Summary.SymmetricExactly | crates/netperf-core/src/ui.rs:98-100 | Both ends print the same totals, whatever the results, iff they know the same ids |
| SymbolIndex.MergeEntries | tools/symbolicate_stacks.py:35-52 | Per start address the first entry not named wasm[ is kept, or else the first entry |
| SymbolIndex.NamesUnique | tools/symbolicate_stacks.py:50-52 | That entry is unique |
| SymbolIndex.LoadPerfmap | tools/symbolicate_stacks.py:34-54 | The table holds exactly the merged rows in rising order of start |
| SymbolIndex.LookupAnswers | tools/symbolicate_stacks.py:34-80 | From the lines of the file to the answer: a lookup gives a name iff it is that of the naming entry with the greatest start at or below the address, and start <= address < start + size |
| SymbolIndex.LookupRange | tools/symbolicate_stacks.py:74-80 | Bisection agrees with a linear scan |
| SymbolIndex.RangeAtIsSound | tools/symbolicate_stacks.py:74-80 | A hit is the last row that contains the address |
| SymbolIndex.RangeAtIsComplete | tools/symbolicate_stacks.py:74-80 | A containing row is found whenever there is one iff no row hides behind a later, shorter one |
| SymbolIndex.DisjointIsShadowless | tools/symbolicate_stacks.py:74-80 | Disjoint ranges hide nothing |
| SymbolIndex.LoadKsyms | tools/symbolicate_stacks.py:57-71 | The symbols read, all of them, in the order of (address, name) |
| SymbolIndex.StringOrder | tools/symbolicate_stacks.py:70 | Names at the same address are ordered lexicographically |
| SymbolIndex.LookupNearest | tools/symbolicate_stacks.py:83-93 | The greatest symbol at or below the address and its distance; nothing iff all lie above |
| SymbolIndex.NearestIsGreatest | tools/symbolicate_stacks.py:90-92 | No symbol at or below the address lies beyond the hit, and at its address none has a later name |
| SymbolIndex.Fold | tools/symbolicate_stacks.py:133-147 | Every key holds the summed counts of its records, and all counts of non-empty records are there |
| SymbolIndex.RecordsGrow | tools/symbolicate_stacks.py:135-145 | A count closes the frames before it into one record; counts without frames and frames without a count are dropped |
| SymbolIndex.FoldGrows | tools/symbolicate_stacks.py:140-142 | One more record adds its count under its own key and changes nothing else |
| SymbolIndex.KeyIsRootFirst | tools/symbolicate_stacks.py:142 | In a key the frames nearer the root come first, separated by semicolons, each cleaned |

## Left out

- Sockets, DNS, TCP, the wasmtime host and the `wit/` interfaces: a connection is a reliable FIFO byte pipe with end of stream.
- JSON text, the envelope wrappers, logging, colours, banners, printed layout and the `humanize_*` functions.
- Half-read control frames dropped by `select!`, and failures of the control connection.
- Splitting `set_state` into its send and its update, and waiting for the state lock between them.
- What a client sees after the server process has gone: once `run_server` has returned no server component moves and nothing more arrives.
- Panics of workers and the sizes of `-t` and `-l` that cause them; a worker ends with its result or with an I/O error.
- Connections of other clients in the transition system; `Server.AcceptLoop.Accept` states what they do to the accept loop and the test in flight.
- Server.AcceptLoop.Accept: states one round; the controller's own steps between rounds are in the transition system, not in this class.
- Controller.TestController.CollectTestResult: how waiting ends for a worker that has not returned yet is an input, since the worker runs on meanwhile.
- Real time in the transition system: a deadline or timeout may fire whenever it is waited for.
- Fairness: completion is stated as no deadlock, a bound on the steps other than writes, and a completing continuation of every run.
- DataPlane.WriteData: the write-stall samples and durations of p3 are not modelled, and the number of rounds the clock allows is an input.
- DataPlane.ClientConn: the two halves of a connection, concurrent in the source, run one after the other, since neither touches the other.
- The p3 accept order: the client's connections reach the server in the order the client opened them.
- ControlFraming.RecvMsg: a read that completes with no bytes is not distinguished from one that has not completed.
- Summary.PrintSummary: durations and byte counts are unbounded, and the per-stream lines are not modelled, only the totals.
- StreamWorker.RunWorker: u64 and u128 widths of times and counts are not modelled, and the goodput rate is an exact integer quotient.
- SymbolIndex.LoadPerfmap: lines are given parsed; text that does not parse is skipped before, and negative hexadecimal numbers do not occur.
- SymbolIndex.Fold: `clean` is an arbitrary function on frames; the regular expressions it uses are not modelled.
- Command-line parsing, the contents of the random block and the shell scripts.
