# Verification of warlib's Pipeline, Threadpool, log writer and Transaction

`war::Pipeline` is a single worker thread that executes tasks from an asio queue, shared by any
number of threads that post to it; `war::Threadpool` owns several of them. Nothing in a pipeline
makes its check, reserve, enqueue and close operations atomic together, so what it promises has to
hold over every interleaving. This project models the pipeline as a state machine over its atomic
operations, proves an inductive invariant of it, and derives the safety and progress properties
from that; it does the same for the pool on top, and proves the log writer, the log gate and the
transaction rollback correct.

## How the model is built

- `Tasks` is the vocabulary. A task body is a finite tree of calls to its own pipeline, each with
  one continuation for a normal return and one for an exception, so nesting and re-entrancy are
  real. `Machine` has one transition per atomic operation: the read of `closing_`, the fused
  increment-and-compare of `AddingTask`, its rollback, the enqueue, the two steps of `Close`, the
  worker's decrement, check and body start, the marker's test, store and `stop()`, and the lock and
  unlock of `waiter_`. `Next` takes a label naming the thread that moves; every list of labels is a
  run, so the number of threads, the tasks, the length and the interleaving are all unbounded.
- asio is one first-in-first-out queue and a stop flag; a timer that expires appends to the back
  of the queue. `std::size_t` wraps at 2^64 and the pool's counter at 2^32.
- `Book` records what has happened (submissions, ends, the history of the queue, the begin and end
  of bodies). No decision of the pipeline reads it.
- `Invariant` states what every reachable state satisfies; the modules named `...Steps` and
  `Safety` prove that each operation keeps it. Everything that is somewhere (a submission, a
  reservation, an unsettled promise) is counted by one weighted sum over threads, queue, stack and
  timers (`Counting`), so conservation properties are linear in it.
- `PipelineObject.Pipeline` and `ThreadpoolObject.Threadpool` are the classes themselves, with
  their fields and imperative methods. `Pipeline.Live` takes the object through any run of the
  machine whatsoever, so what is proved of runs holds of the object. `Post`, `Close`, `Dispatch`,
  `ExecHandler` and `WaitUntilClosed` are whole calls that nobody interrupts, and say what they
  leave behind; the methods for single operations only serve these.
- `Meaning` is a recursive interpreter of tasks: what a call, a body, a wrapper lambda and a handler do
  when nobody else acts, with no stack, no phases and no atomic operations. `Interpretation` proves
  that the machine's worker does just that with every handler. `Following`, `Outcomes` and `Promises`
  say of every interleaving what becomes of a call, of a body and of a promise.
- `Pool` interleaves any number of clients inside the pool's methods with everything that happens
  inside the pipelines; `PoolRunIsPipelineRun` shows that each pipeline sees a run of its own.

## Where the code and its documentation differ

The model follows the code in each case.

- The token overload of `Post` (and the timer overload built with Boost before 1.70) executes
  `--count_` without a reservation. `TokenPostUndercounts` is a run after which `GetCount()` is
  2^64 - 1 on an empty queue; `GetCountAtQuiescence` says exactly when the count is right.
- Handlers behind the close marker are never dequeued and stay counted (`CountAfterExit`).
- Close followed by a join need not return although every body terminates when called: a body that
  calls `PostSynchronously` while another thread closes the pipeline waits for a promise that nobody
  will set (`CloseThenJoinCanHang`). Once `closing_` is set, every other call that a body makes
  returns normally, so the rest of each open body is determined; `Doom.Doomed` reads off the
  worker's stack whether one of them still reaches `PostSynchronously`, and `ClosedPipelineEnds`,
  `ClosedPoolEndsWhen`, `ClosedPoolIsJoined` and `DoomedPoolIsNotJoined` say that the worker ends,
  and the join returns, if and only if that is not so. (For a body between the two tests of `Post`
  the counter at the second test decides as well.) Pipelines and pools whose bodies never call
  `PostSynchronously` always end (`ClosedTamePipelineEnds`, `ClosedTamePoolIsJoined`).
- The refusal of a post is justified by reservations held plus rollbacks in flight
  (`RefusalIsJustified`), so a post can be refused while fewer than the capacity are queued, even
  while none is (`RefusedWhileEmpty`).
- When `hardware_concurrency()` reports 0, the default size of a pool is 2^32 - 1 threads, not 2
  (`PoolSize`).
- `DoSubmit` tests the level only, where handlers are promised level and filter; `IsRelevant` tests
  the two separately, where at least one handler is promised to log; `SetLevel` leaves the cached
  level as it was. `DeliveryIsExactWhen`, `GateIsExactWhen` and `StaleGateHides` say exactly when
  this makes a difference.
- A message that contains a percent sign and the two lower-case digits of a control code is written
  like that control code; `RoundTrip` is the exact condition.
- With a number of pipelines that does not divide 2^32, a wrap of the counter makes the distribution
  uneven and the pool refuse early (`EvenExactly`, `FillsExactlyWhen`).

## Model

| member | source | states |
|---|---|---|
| `Safety.StepKeeps` | core/src/WarPipeline.cpp:63-281 | every atomic operation of any thread keeps the invariant: control, places of submissions, reservations, order, closing, nesting, promises |
| `Safety.RunKeeps` | core/src/WarPipeline.cpp:63-281 | so does every run, over any number of threads, tasks and interleavings |
| `Safety.ReachableInv` | core/src/WarPipeline.cpp:34-50 | every state reachable from a new pipeline satisfies the invariant |
| `Fifo.HistoryIsOrdered` | core/src/WarPipeline.cpp:107-123 | at any moment the enqueue history is ran ++ dismissed ++ the one being looked at ++ the marker ++ still queued |
| `Fifo.AfterExit` | core/src/WarPipeline.cpp:204-226 | after the worker ends: ran ++ dismissed ++ the first marker ++ stranded, bodies having begun in enqueue order |
| `Fifo.NothingRunsAfterDismissal` | core/src/WarPipeline.cpp:255-260 | once a dequeued handler was dismissed no dequeued handler runs in any continuation |
| `Conservation.ExactlyOneFate` | core/src/WarPipeline.cpp:107-274 | every submission is in exactly one of: inside a method, queued, behind a timer, executing, over; unused identities are nowhere |
| `Conservation.RunsAtMostOnce` | core/src/WarPipeline.cpp:248-274 | no body runs twice; refused, dismissed and waiting submissions have not run; finished and threw ran once |
| `Conservation.RefusedNeverRuns` | core/src/WarPipeline.cpp:111-122 | a refused or dismissed task does not run in any continuation |
| `Conservation.TasksRunCountsNormalEnds` | core/src/WarPipeline.cpp:263-272 | tasks_run_ is the number of ExecTask_ activations whose body ended normally, wrappers and inner tasks alike |
| `Outcomes.FateFollowsTask` | core/src/WarPipeline.cpp:263-272 | over every run: a body none of whose paths ends normally is never recorded as finished and adds nothing to tasks_run_; one none of whose paths throws never throws and its promise gets no exception, where on the worker only a refused post and a throwing PostSynchronously can make a call throw |
| `Outcomes.LeavesDecideFate` | core/src/WarPipeline.cpp:263-272 | in particular bodies that always raise never count as run and bodies that always return never throw |
| `Interpretation.HandlerIsMeant` | core/src/WarPipeline.cpp:248-274 | the worker alone, from any reachable state between handlers, does with the next handler exactly what a recursive interpreter of the task says: queue, timers, counter, tasks run and promises, back between handlers with everything else unchanged, or waiting for ever when the interpreter says so |
| `Meaning.InPlaceMeans` | core/src/WarPipeline.cpp:131-174 | what a body reaches through Dispatch and PostSynchronously alone, at any depth, is never refused however full the queue is, leaves counter and queue alone, and throws into its caller only through PostSynchronously |
| `Meaning.HangsOnlyWhenClosing` | core/src/WarPipeline.cpp:145 | a task left alone waits for ever only in a pipeline that is closing |
| `TasksRun.SynchronousAdds` | core/src/WarPipeline.cpp:131-146 | of these a PostSynchronously that is over on an open pipeline is two if its task returned and one if it threw |
| `TasksRun.WrappersCatch` | core/src/WarPipeline.cpp:136-143 | no submission that is a wrapper ever ends by an exception |
| `Conservation.ExceptionsAreContained` | core/src/WarPipeline.cpp:97-100 | no task exception leaves the worker loop; the worker ends only through the close marker |
| `Accounting.CounterEquation` | core/src/WarPipeline.cpp:239-254 | in every run, token posts included, count_ plus the uncompensated decrements is congruent to the outstanding reservations modulo 2^64 |
| `Accounting.CounterIsExact` | core/src/WarPipeline.cpp:121-122 | count_ is admitted tasks not yet decremented plus rollbacks in flight minus token handlers executed, modulo 2^64; without token handlers it is exact and the admitted ones never exceed the capacity |
| `Accounting.GetCountAtQuiescence` | core/include/warlib/WarPipeline.h:181-184 | with nothing in progress GetCount is the number of queued counted tasks if and only if the number of uncompensated decrements is 0 modulo 2^64 |
| `Accounting.CountAfterExit` | core/src/WarPipeline.cpp:214-219 | after the worker ended and producers are idle, count_ is the number of counted handlers stranded behind the marker, less the token handlers executed |
| `Accounting.RefusalIsJustified` | core/src/WarPipeline.cpp:239-246 | AddingTask refuses exactly when the increment of what the counter stands for exceeds the capacity; without token handlers, when reservations held plus other rollbacks in flight reach it, and with none in flight exactly when it is full |
| `Examples.RefusedWhileEmpty` | core/src/WarPipeline.cpp:239-246 | a reachable state with capacity 1, nothing queued and nothing admitted, in which a post is refused because another one is being refused |
| `Accounting.RefusedPostUndone` | core/src/WarPipeline.cpp:239-246 | a refused post leaves counter, queue and history unchanged and its task over |
| `Accounting.RefusedBodyCatches` | core/src/WarPipeline.cpp:241-244 | a body whose post is refused gets the exception and goes on on its catching path, counter and queue untouched |
| `Shutdown.FlagsFollowTheMarker` | core/src/WarPipeline.cpp:204-226 | closing_ implies closed_ or a marker queued or executing; conversely these imply closing_ or a closer before its store; stop() at most once |
| `Shutdown.ClosingIsPermanent` | core/src/WarPipeline.cpp:224 | closing_ never reverts and the enqueue history only grows at its end |
| `Shutdown.Countdown` | core/src/WarPipeline.cpp:214-219 | with the first marker at queue index k at most k + 1 more handlers are dequeued whatever others post, and exactly k + 1 when the worker ends |
| `Shutdown.AtMostOneMoreBody` | core/src/WarPipeline.cpp:255-271 | once closing_ is set at most one more body begins in the rest of the run, at any nesting depth, and only one that had passed the test |
| `Dispatching.BodiesNest` | core/src/WarPipeline.cpp:155-174 | begin and end of bodies form a well-bracketed word whose open brackets are the worker's stack and whose outermost brackets follow queue order |
| `Dispatching.DispatchCompletesInPlace` | core/src/WarPipeline.cpp:168-170 | Dispatch on the worker starts the task in place and in every continuation its caller stays suspended until the task is over; counter and queue untouched |
| `Dispatching.DispatchIsNeverRefused` | core/src/WarPipeline.cpp:155-174 | what a body hands to Dispatch, at any depth, is in no continuation queued or refused for lack of capacity: it starts in place or the pipeline is closing |
| `Dispatching.PostNeverNests` | core/include/warlib/WarPipeline.h:58-65 | Post from a body appends to the queue and starts no activation |
| `Rendezvous.SettledAtMostOnce` | core/src/WarPipeline.cpp:131-146 | a PostSynchronously promise is set at most once, and never if its wrapper was refused or dismissed |
| `Rendezvous.CallerGetsTheOutcome` | core/src/WarPipeline.cpp:131-146 | future.get() gives a value if and only if the activation that the caller's own wrapper called did not throw; on an open pipeline that body ran once |
| `Promises.WrapperIsHonest` | core/include/warlib/WarPipeline.h:85-97 | over every run: a wrapper that is over has given its promise exactly what its own inner activation did: PostSynchronously a value or the exception, PostWithPromise the exception if and only if it threw and never a value; nothing if it was refused or dismissed |
| `Following.CallIsFollowed` | core/src/WarPipeline.cpp:107-226 | a client that entered any of the methods is, after any interleaving, still inside with its task, or the task went where that method promises: queued last as counted, as a token, armed or queued by its timer, or refused as that method can refuse; a caller of PostSynchronously is inside future.get() until its promise is settled, unless it got the capacity exception; a closer is back only when closing_ is set |
| `Following.CallIsOver` | core/src/WarPipeline.cpp:107-226 | that takes at most four operations of the client's own, whatever the others do |
| `Rendezvous.WorkerNeverDeadlocks` | core/src/WarPipeline.cpp:168-173 | on an open pipeline a body that reaches future.get(), at any Dispatch depth, finds its promise set |
| `Rendezvous.WrapperIsKept` | core/src/WarPipeline.cpp:131-146 | a client waiting on an open pipeline has its wrapper queued or executing |
| `Service.HandlerIsReached` | core/src/WarPipeline.cpp:122 | a handler queued behind tasks only is over after the worker operations that these and its own body may take, whatever others do, if the pipeline is not closed before |
| `Service.CallerIsServed` | core/src/WarPipeline.cpp:131-146 | a PostSynchronously whose wrapper is queued behind tasks only, or is executing, has then set its promise exactly once, and its caller can go on |
| `Service.EveryCallerIsServed` | core/src/WarPipeline.cpp:145 | in a run that never closes every client inside future.get() is served after the operations that everything queued may take |
| `Following.PostSynchronouslyIsServed` | core/src/WarPipeline.cpp:131-146 | from the call itself: in a run without a Close, once the client has made four operations of its own and the worker those that everything then queued may take, the call was refused for capacity, or its promise is set exactly once and the client is past future.get() or free to pass it |
| `Progress.StepRank` | core/src/WarPipeline.cpp:248-274 | no step of anyone adds to the worker's remaining work once a marker is posted, and each of its own operations reduces it unless it is stuck |
| `Doom.ClosedPipelineEnds` | core/src/WarPipeline.cpp:204-226 | a closed pipeline's worker has ended after a number of its own operations fixed by what is queued, if and only if no body open in the closed state still reaches PostSynchronously or waits for one that closing dismissed |
| `Doom.StepKeepsDoom` | core/src/WarPipeline.cpp:107-274 | once closing_ is set no operation of anyone changes that, but for the counter at the second test of Post |
| `Doom.DoomedNeverEnds` | core/src/WarPipeline.cpp:136-145 | such a body keeps the worker for ever, however it is scheduled |
| `Drain.StuckMeansDismissed` | core/src/WarPipeline.cpp:136-145 | a worker inside future.get() is stuck if and only if closing dismissed that submission |
| `Drain.StuckForever` | core/src/WarPipeline.cpp:145 | a stuck worker stays stuck in every continuation |
| `Doom.ClosedTamePipelineEnds` | core/src/WarPipeline.cpp:204-226 | if no body submitted before calls PostSynchronously, a closed pipeline ends in every run that schedules its worker often enough |
| `Drain.JoinReturnsAfterExit` | core/src/WarPipeline.cpp:276-281 | WaitUntilClosed returns if and only if the worker has left its loop |
| `Drain.ExitIsFinal` | core/src/WarPipeline.cpp:97-105 | after that nothing runs and no promise is set in any continuation |
| `Drain.UnservedWhen` | core/src/WarPipeline.cpp:136-145 | after the worker ended a caller of PostSynchronously is unserved if and only if its wrapper was refused or dismissed by closing or is stranded behind the marker |
| `Drain.UnservedForEver` | core/src/WarPipeline.cpp:145 | such a caller waits in every continuation |
| `Examples.CloseThenJoinCanHang` | core/src/WarPipeline.cpp:131-146 | a reachable closed state from which no continuation ends the worker |
| `Examples.TokenPostUndercounts` | core/include/warlib/WarPipeline.h:69-78 | a run after which count_ is 2^64 - 1 with nothing queued |
| `Alone.PostAloneRuns` | core/src/WarPipeline.cpp:107-123 | the atomic operations of an uninterrupted Post compose to: dismissed if closing, refused if full, else counted and queued last |
| `Alone.DispatchFromClient` | core/include/warlib/WarPipeline.h:100-110 | from another thread Dispatch has the effect of Post |
| `Alone.CloseAloneRuns` | core/src/WarPipeline.cpp:204-226 | the operations of an uninterrupted Close compose to: marker queued last and closing_ set, or nothing if already closing |
| `Alone.TokenAloneRuns` | core/include/warlib/WarPipeline.h:69-78 | the token Post queues whatever closing_, count_ and the capacity say, and counts nothing |
| `Alone.TimerAloneRuns` | core/src/WarPipeline.cpp:183-201 | an uninterrupted PostWithTimer arms one timer with its task and touches neither queue nor counter, or is dismissed at once when closing; the token overload of Boost 1.70 arms it even then, the older one with its resuming lambda |
| `Alone.TimerExpires` | core/src/WarPipeline.cpp:228-237 | when that timer expires the task is queued last, uncounted, and the timer is gone |
| `PipelineObject.Pipeline.constructor` | core/src/WarPipeline.cpp:34-50 | a new pipeline's worker holds waiter_ and is in its loop before the constructor returns |
| `PipelineObject.Pipeline.AddingTask` | core/src/WarPipeline.cpp:239-246 | admits exactly while the counter stays within the capacity, and a refusal leaves the counter as it was |
| `PipelineObject.Pipeline.Post` | core/src/WarPipeline.cpp:107-123 | the object goes through exactly the machine's run of Post; each of the three answers if and only if its condition, with counter and queue |
| `PipelineObject.Pipeline.Close` | core/src/WarPipeline.cpp:204-226 | the object goes through the machine's run of Close; one marker, closing_ set |
| `PipelineObject.Pipeline.Dispatch` | core/src/WarPipeline.cpp:155-174 | from a client: the machine's run of Dispatch, accepted under the condition of Post |
| `PipelineObject.Pipeline.PostWithTimer` | core/src/WarPipeline.cpp:183-201 | the object arms a timer with the task, or dismisses the task exactly when closing; queue and counter stay |
| `PipelineObject.Pipeline.Expire` | core/src/WarPipeline.cpp:228-237 | an expired timer's task is queued last and not counted |
| `PipelineObject.Pipeline.ExecHandler` | core/src/WarPipeline.cpp:248-274 | ExecTask_ of the first handler: dismissed without a body if closing, else its body runs to its end with all it dispatches and whatever it throws before the next handler is taken; counter, queue, timers, promises and tasks_run_ are what the interpreter computes, so a plain return adds one to tasks_run_ and a plain exception none |
| `PipelineObject.Pipeline.Live` | core/src/WarPipeline.cpp:63-281 | the object goes through every run of the machine, any interleaving of any threads |
| `PipelineObject.Pipeline.WaitUntilClosed` | core/src/WarPipeline.cpp:276-281 | with the worker running it returns when the worker ended, exactly k + 1 handlers later, if and only if the state in which it is called does not doom the worker |
| `RoundRobin.StraightSpread` | core/src/WarThreadpool.cpp:68-72 | without a wrap n selections hit each of c pipelines n / c times, rounded down or up |
| `RoundRobin.Balance` | core/src/WarThreadpool.cpp:68-72 | over a window crossing w wraps the selections of two pipelines differ by at most w + 1 |
| `RoundRobin.EvenExactly` | core/include/warlib/WarThreadpool.h:65-66 | they differ by at most 1 in every window if and only if the number of pipelines divides 2^32 |
| `RoundRobin.UnevenWindow` | core/src/WarThreadpool.cpp:71 | otherwise a window crossing one wrap reaches the difference 2 |
| `PoolSafety.PoolStepKeeps` | core/src/WarThreadpool.cpp:37-110 | every step of a client in a pool method, or inside a pipeline, keeps the pool's invariant |
| `PoolSafety.PoolRunKeeps` | core/src/WarThreadpool.cpp:37-110 | so does every run |
| `PoolSafety.NewPoolInv` | core/src/WarThreadpool.cpp:14-35 | a new pool satisfies it |
| `PoolShutdown.FlagsHold` | core/src/WarThreadpool.cpp:74-110 | closed_ implies every pipeline closing; finished_ implies every worker ended; JoinAll is left only then, by one client at a time |
| `PoolShutdown.JoinAllIsIdempotent` | core/src/WarThreadpool.cpp:93-98 | a later JoinAll changes nothing |
| `PoolShutdown.CloseIsIdempotent` | core/src/WarThreadpool.cpp:77-78 | nor does a later Close |
| `PoolShutdown.PoolRunIsPipelineRun` | core/src/WarThreadpool.cpp:27-34 | each pipeline of a pool sees a run of its own with as many turns of its worker |
| `PoolShutdown.ClosedPoolEnds` | core/src/WarThreadpool.cpp:74-85 | a closing pipeline of a pool ends after the turns its own queue takes, if and only if no body open in it dooms its worker |
| `PoolReturns.CallerReturns` | core/src/WarThreadpool.cpp:74-110 | Close comes back with closed_ set after a bounded number of the caller's operations whatever others do; so does JoinAll that has the lock, with finished_ set, once all workers ended |
| `PoolReturns.ClosedPoolEndsWhen` | core/src/WarThreadpool.cpp:74-85 | in a closed pool all workers end if and only if no body that was open dooms its worker |
| `PoolReturns.ClosedPoolIsJoined` | core/src/WarThreadpool.cpp:93-110 | then JoinAll comes back with finished_ set and every worker ended, for any queue contents and interleaving |
| `PoolReturns.DoomedPoolIsNotJoined` | core/src/WarThreadpool.cpp:93-110 | and otherwise it never does, in no continuation |
| `PoolDestructor.CloseThenJoinAll` | core/src/WarThreadpool.cpp:37-42 | one client goes through Close, comes back with closed_ set, goes through JoinAll and comes back with every worker ended, under interleaving |
| `PoolDestructor.ClosedTamePoolIsJoined` | core/src/WarThreadpool.cpp:37-42 | if nothing posted before calls PostSynchronously from a body, this needs no condition on the bodies |
| `PoolFill.PostToNextRuns` | core/src/WarThreadpool.cpp:44-48 | an uninterrupted post to the pool is one post to the pipeline whose turn it is |
| `PoolFill.Filling` | core/src/WarThreadpool.cpp:44-72 | after n posts each pipeline holds and counts as many tasks as selected it, up to its capacity |
| `PoolFill.ExactFill` | core/src/WarThreadpool.cpp:44-72 | with c empty pipelines of capacity m and one producer exactly the first c * m posts are accepted, without a wrap or if c divides 2^32 |
| `PoolFill.FillsExactlyWhen` | core/src/WarThreadpool.cpp:68-72 | from every counter value, wraps included, for every capacity, if and only if c divides 2^32 |
| `PoolFill.OverfullWindow` | core/src/WarThreadpool.cpp:71 | otherwise some c * m selections hit pipeline 0 more than m times |
| `ThreadpoolObject.Threadpool.constructor` | core/src/WarThreadpool.cpp:14-35 | as many pipelines as asked for, else the greater of 2 and the cores less one (2^32 - 1 when the cores are unknown), each of the given capacity, running, open and empty |
| `ThreadpoolObject.Threadpool.GetAnyPipeline` | core/src/WarThreadpool.cpp:68-72 | the 32-bit counter goes up by one, from its greatest value to 0, and its new value modulo the number of pipelines selects |
| `ThreadpoolObject.Threadpool.Post` | core/src/WarThreadpool.cpp:44-54 | the pipeline whose turn it is queues the task last, or dismisses or refuses it, and no other pipeline changes |
| `ThreadpoolObject.Threadpool.PostWithTimer` | core/src/WarThreadpool.cpp:56-66 | the pipeline whose turn it is arms a timer with the task, or dismisses it exactly when closing; nothing is queued and no other pipeline changes |
| `ThreadpoolObject.Threadpool.Close` | core/src/WarThreadpool.cpp:74-85 | every pipeline is closing, with one marker queued last where it was open |
| `ThreadpoolObject.Threadpool.JoinAll` | core/src/WarThreadpool.cpp:93-110 | it returns, with finished_ set and every worker ended, if and only if no open body dooms its worker when it is called; a finished pool is left alone |
| `ThreadpoolObject.Threadpool.Destroy` | core/src/WarThreadpool.cpp:37-42 | Close then JoinAll returns with every worker ended if and only if no body open at the call dooms its worker |
| `LogText.WriteMessage` | core/src/WarLog.cpp:197-220 | the loop appends exactly the escapes of the message |
| `LogText.OutputIsClean` | core/include/warlib/WarLog.h:223-228 | every character of the output is printable or tab, newline, vertical tab or form feed, by code point, and two spaces follow each newline |
| `LogText.CleanIsKept` | core/src/WarLog.cpp:211-218 | a message of such characters without a newline is written as it is |
| `LogText.RoundTrip` | core/include/warlib/WarLog.h:223-228 | decoding gives the message without carriage returns and final newline if and only if no percent sign in it is followed by a control code |
| `LogText.RoundTripWithoutPercent` | core/src/WarLog.cpp:197-220 | in particular for every message without a percent sign |
| `LogText.Ambiguity` | core/src/WarLog.cpp:211-215 | two different messages that are written alike |
| `LogRecords.WriteDefaulInfo` | core/src/WarLog.cpp:235-245 | a record is its header, the escapes of the message and a newline |
| `LogRecords.Framing` | core/src/WarLog.cpp:235-245 | cutting the concatenated records at each newline that two spaces do not follow gives back exactly the records |
| `LogRecords.MessagesReadBack` | core/src/WarLog.cpp:197-245 | and every unambiguous message can be read back from its record |
| `LogGate.LogEngine.UpdateLevelAndFilter` | core/src/WarLog.cpp:85-101 | no handler is above the cached level, one is at it, and the cached filter has exactly the bits that some handler's filter has |
| `LogGate.LogEngine.AddHandler` | core/src/WarLog.cpp:73-83 | from then on every message that some handler asks for on level and filter passes, and one that passes has a handler for its level and one for its filter |
| `LogGate.LogEngine.DoSubmit` | core/src/WarLog.cpp:51-71 | every handler whose level admits the message prints it, as often as it was added, and no other does |
| `LogGate.LogEngine.Log` | core/include/warlib/WarLog.h:20 | a log statement reaches the handlers whose level admits it if and only if it passes the gate; while the cache is fresh it reaches every handler that asks for it |
| `LogGate.LogEngine.IsRelevant` | core/include/warlib/WarLog.h:304-307 | with a fresh cache the test is that of the fold over the handlers; with a stale level, of that level |
| `LogGate.MaxLevelIsMax` | core/src/WarLog.cpp:92-95 | the cached level is attained by a handler and exceeded by none |
| `LogGate.AllFiltersOverlap` | core/src/WarLog.cpp:97 | the cached filter meets a message's filter if and only if some handler's does |
| `LogGate.GateIsSafe` | core/include/warlib/WarLog.h:304-307 | the gate hides no message that a handler accepts on level and filter, and what passes reaches at least one handler |
| `LogGate.GateIsExactWhen` | core/include/warlib/WarLog.h:304 | every passing message is accepted by some handler if and only if the handlers at the top level cover all filters |
| `LogGate.DeliveryIsExactWhen` | core/include/warlib/WarLog.h:318-325 | handlers print only what their level and filter ask for if and only if they all have the same filter |
| `LogGate.StaleGateHides` | core/include/warlib/WarLog.h:212-214 | after SetLevel an accepted message is hidden if and only if a handler with a filter is above the cached level |
| `TransactionRollback.Transaction.AddUndo` | core/include/warlib/transaction.h:39-44 | the operation goes to the front |
| `TransactionRollback.Transaction.Destroy` | core/include/warlib/transaction.h:21-28 | an uncommitted transaction applies its undo operations front to back, a committed one none |
| `TransactionRollback.Rollback` | core/include/warlib/transaction.h:39-44 | undoing steps that each have an inverse restores the state they started from |
| `TransactionRollback.Attempt` | core/include/warlib/transaction.h:9-13 | a block left after any prefix of its steps is undone completely, a committed one not at all |

## Left out

- Boost.Asio itself, coroutines, `async_compose` and completion handlers: assumed to be one queue, a stop flag, and handlers that run on the worker only; what a token overload does after its handler's `ExecTask_` returns is not modelled.
- Clients that run or post to `GetIoService()` directly.
- The `error_code` branch of `OnTimer_`: nothing in the repository cancels a timer. A timer is "queued at some point after it was armed, uncounted, at most once"; the deadline itself is not modelled.
- Calls that a body makes to another pipeline: for that pipeline they are calls of a client thread, for its own they are part of the body. A body that waits for its own pipeline or pool to close (`WaitUntilClosed` from the worker) never returns and is not modelled.
- Task bodies are finite trees of calls, so a body that never ends by itself is not covered.
- Accounting.CounterIsExact: that the counter is exact and the capacity kept assumes that the capacity plus the number of threads is below 2^64, so that the counter itself cannot wrap; the congruence has no such assumption.
- Accounting.RefusalIsJustified: the same for its second and third statement; the first has no such assumption.
- `tasks_run_` is an unbounded integer, not `std::int64_t`.
- Doom.ClosedPipelineEnds: bounds the worker's own operations; that the operating system schedules the worker is an assumption, as is fairness of `close_mutex_`.
- PipelineObject.Pipeline.WaitUntilClosed: only for a pipeline that is closing; on an open one it waits for somebody to close it, as documented.
- PipelineObject.Pipeline.Post: states an uninterrupted call; the interleaved ones are in `Pipeline.Live`.
- PipelineObject.Pipeline.Close: the same.
- PipelineObject.Pipeline.Dispatch: the same, for a client; on the worker it is `Dispatching.DispatchCompletesInPlace`.
- PipelineObject.Pipeline.PostWithTimer: the same.
- PipelineObject.Pipeline.ExecHandler: the same, with only the worker running.
- Interpretation.HandlerIsMeant: with only the worker running; what holds under interleaving is in `Following`, `Outcomes`, `Promises` and `Dispatching`.
- ThreadpoolObject.Threadpool.JoinAll: only for a pool that is closed, and with only the workers running; on an open one it waits for somebody to close it, as the code warns.
- ThreadpoolObject.Threadpool.Destroy: with only the workers running; under interleaving it is `PoolDestructor.CloseThenJoinAll`.
- CPU pinning, thread names, real clocks, allocation failures inside asio, exceptions thrown while logging.
- `WriteTimestamp`, `WriteLevel` and `WriteFilter`: a header is any text that starts with a non-space and has no newline. The "C" locale decides what a control character is.
- The debug messages that `AddHandler` and `UpdateLevelAndFilter` log about themselves, the mutex of `LogEngine`, and `LogEngine`'s destructor.
- A log filter is the set of its bits rather than an `unsigned int`.
- `GetLevelName`, `GetLevelFromName`, `Errno`, `Timer`, `LogToFile`'s opening of files: finite, or input and output.
- `WarCleanUp`: its `thread_id_` is never set to the creating thread, so there is no intended behaviour to prove.
- Undo operations that throw: each is a function on the state that is rolled back.
