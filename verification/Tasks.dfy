/** The vocabulary of `war::Pipeline`: what a task may do, what is queued, and where
    each thread stands inside the pipeline's code. */
module Tasks {

  /** A task body, as the finite tree of pipeline calls it makes. After a call the body
      continues with `ok` if the call returned and with `ko` if it threw; a body that
      does not catch has `ko == Raise`. */
  datatype Task = Return | Raise | Do(api: Api, ok: Task, ko: Task)

  /** The public entry points of a pipeline. `PostToken`, `PostTimerToken` and
      `PostTimerLegacy` are the completion-token overloads, the latter two as compiled with
      Boost 1.70 or later and with earlier versions. */
  datatype Api =
    | Post(task: Task)
    | PostToken(task: Task)
    | PostWithPromise(task: Task)
    | PostSynchronously(task: Task)
    | Dispatch(task: Task)
    | PostWithTimer(task: Task)
    | PostTimerToken(task: Task)
    | PostTimerLegacy(task: Task)
    | Close

  /** What is handed to `ExecTask_`: the caller's task, or a lambda that the library
      wraps around it. A wrapper calls `ExecTask_` itself for the inner task. */
  datatype Work =
    | Plain(task: Task)
    | Sync(task: Task)      // PostSynchronously: settles a promise either way
    | Promised(task: Task)  // PostWithPromise: settles a promise on an exception only
    | Resuming(task: Task)  // PostTimerLegacy: inner call has counting == true

  /** A submission. Identities are never reused; a promise has its submission's identity. */
  datatype Job = Job(id: nat, work: Work)

  datatype Origin = Posted | Token | Timer

  /** An entry of the io_context's queue. `Marker` is the lambda posted by `Close`. */
  datatype Handler = Run(job: Job, origin: Origin) | Marker

  /** The next atomic operation of a thread that is inside a pipeline method. */
  datatype Call =
    | Idle
    | PostCheck(job: Job)      // Post reads closing_
    | PostReserve(job: Job)    // AddingTask: ++count_ and compare
    | PostRollback(job: Job)   // AddingTask: --count_ and throw
    | PostEnqueue(job: Job)    // Post: asio::post
    | DispatchCheck(job: Job)  // Dispatch reads closing_
    | Nest(job: Job)           // Dispatch on the worker: calls ExecTask_
    | TimerCheck(job: Job)     // PostWithTimer reads closing_
    | TimerArm(job: Job)       // PostWithTimer: async_wait
    | TokenEnqueue(job: Job)   // token Post: asio::post, nothing else
    | CloseCheck               // Close reads closing_
    | ClosePost                // Close posts the marker
    | CloseStore               // Close stores closing_
    | Await(id: nat)           // PostSynchronously: future.get()
    | Join                     // WaitUntilClosed: lock waiter_

  /** How an `ExecTask_` activation came about. */
  datatype Via = FromQueue(origin: Origin) | FromDispatch | FromWrapper(counting: bool)

  /** Progress of one `ExecTask_` activation. */
  datatype Phase =
    | Count                      // about to execute --count_
    | Check                      // about to read closing_
    | Passed                     // read closing_ == false, body not yet begun
    | In(rest: Task)             // inside the body
    | Wrapped                    // a wrapper waiting for its inner ExecTask_
    | Settle(inner: nat, ok: bool)  // a wrapper whose inner ExecTask_ returned or threw

  datatype Frame = Frame(job: Job, via: Via, phase: Phase) {
    /** The `autoCatch` argument of this activation. */
    predicate AutoCatch() {
      via != FromWrapper(false)
    }

    /** The body of this activation has begun and has not ended. */
    predicate Begun() {
      phase.In? || phase.Wrapped? || phase.Settle?
    }
  }

  /** The worker's nested `ExecTask_` activations, innermost first. */
  datatype Stack = Empty | Frames(top: Frame, below: Stack)

  datatype Maybe<T> = Nothing | Just(value: T)

  /** An append-only record, latest entry outermost. */
  datatype Log<T> = Start | Add(earlier: Log<T>, latest: T)

  /** How a submission ended. */
  datatype Fate = RefusedClosing | RefusedCapacity | Finished | Threw | Dismissed

  datatype Event = Began(id: nat) | Ended(id: nat, normal: bool)

  /** A submission is over. */
  datatype Ending = Ending(id: nat, fate: Fate)

  /** Wrapper submission `wrapper` has called ExecTask_ for its task, as submission `inner`. */
  datatype Inside = Inside(inner: nat, wrapper: nat)

  /** A promise has been given a value or an exception, produced by activation `inner`. */
  datatype Settled = Settled(id: nat, ok: bool, inner: nat)

  datatype Promise = Unset | Value | Exception

  /** The worker thread, from its creation to the end of `Run`. */
  datatype Worker =
    | Spawned   // before the waiter_ lock
    | Locked    // holds waiter_, has not released the constructor
    | Loop      // inside io_context::run
    | Shut      // executing the marker, before the closed_ test
    | Stopping  // closed_ stored, before stop()
    | Leaving   // run() has returned
    | Exited    // waiter_ released
    | Failed    // start-up exception handed to the constructor
    | Escaped   // a task exception left run()
}
