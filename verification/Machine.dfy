/** `war::Pipeline` as a state machine over its atomic operations. Thread 0 is the
    worker, every other index of `calls` is a client thread. `Next` is total: a label
    whose thread has nothing to do, or is blocked, changes nothing, so that every
    sequence of labels is a run and every interleaving is such a sequence. */
module Machine {
  import opened Tasks

  /** Arithmetic on `std::size_t` wraps here. */
  const SIZE_T := 0x1_0000_0000_0000_0000

  /** What has happened so far. The pipeline's own decisions never read it. */
  datatype Book = Book(
    jobs: seq<Work>,          // by submission identity
    ends: Log<Ending>,        // submissions that are over
    hist: seq<Handler>,       // everything ever enqueued
    ran: seq<Handler>,        // dequeued handlers whose body began
    dropped: seq<Handler>,    // dequeued handlers that ExecTask_ dismissed
    shut: nat,                // markers dequeued
    trace: Log<Event>,        // begin and end of every body
    uncompensated: nat,       // decrements of count_ that no AddingTask precedes
    stops: nat,               // calls of io_context::stop
    inside: Log<Inside>)      // the wrappers' own calls of ExecTask_

  datatype State = State(
    capacity: nat,
    count: nat,
    closing: bool,
    closed: bool,
    stopped: bool,
    started: bool,            // the constructor may return
    waiter: bool,             // the worker holds waiter_
    tasksRun: nat,
    worker: Worker,
    queue: seq<Handler>,
    armed: seq<Job>,
    calls: seq<Call>,
    stack: Stack,
    promises: Log<Settled>,
    book: Book)

  datatype Label =
    | Begin(t: nat, api: Api)  // client thread t calls a method
    | BeginJoin(t: nat)        // client thread t calls WaitUntilClosed
    | Step(t: nat)             // thread t performs its next atomic operation
    | Expire(i: nat)           // the i-th armed timer expires
    | StartFails               // the worker's start-up throws

  function Init(capacity: nat, clients: nat): State {
    State(capacity, 0, false, false, false, false, false, 0, Spawned, [], [],
          seq(clients + 1, _ => Idle), Empty, Start,
          Book([], Start, [], [], [], 0, Start, 0, 0, Start))
  }

  /** What future.get() sees. */
  function Lookup(promises: Log<Settled>, id: nat): Promise {
    match promises
    case Start => Unset
    case Add(earlier, p) =>
      if p.id == id then (if p.ok then Value else Exception) else Lookup(earlier, id)
  }

  // ----- threads inside the pipeline's methods -----

  function SetPhase(stack: Stack, phase: Phase): Stack
    requires stack.Frames?
  {
    Frames(stack.top.(phase := phase), stack.below)
  }

  /** The innermost body goes on after the call it made has returned or thrown. */
  function Resume(stack: Stack, normal: bool): Stack {
    match stack
    case Frames(Frame(_, _, In(Do(_, ok, ko))), _) => SetPhase(stack, In(if normal then ok else ko))
    case _ => stack
  }

  /** Where a thread goes when Post or Dispatch of `job` returns: PostSynchronously still
      has to wait for the promise. */
  function After(job: Job): Call {
    if job.work.Sync? then Await(job.id) else Idle
  }

  // ----- a client or a body enters a method -----

  function Entry(api: Api, id: nat): Call {
    match api
    case Post(task) => PostCheck(Job(id, Plain(task)))
    case PostToken(task) => TokenEnqueue(Job(id, Plain(task)))
    case PostWithPromise(task) => PostCheck(Job(id, Promised(task)))
    case PostSynchronously(task) => DispatchCheck(Job(id, Sync(task)))
    case Dispatch(task) => DispatchCheck(Job(id, Plain(task)))
    case PostWithTimer(task) => TimerCheck(Job(id, Plain(task)))
    case PostTimerToken(task) => TimerArm(Job(id, Plain(task)))
    case PostTimerLegacy(task) => TimerCheck(Job(id, Resuming(task)))
    case Close => CloseCheck
  }

  function Enter(s: State, t: nat, api: Api): State
    requires t < |s.calls|
  {
    var c := Entry(api, |s.book.jobs|);
    s.(calls := s.calls[t := c],
       book := s.book.(jobs := if api.Close? then s.book.jobs else s.book.jobs + [c.job.work]))
  }

  /** What an atomic operation does to the counter. */
  datatype Tick = Keep | Up | Down

  function Ticked(n: nat, tick: Tick): nat {
    match tick
    case Keep => n
    case Up => (n + 1) % SIZE_T
    case Down => (n + SIZE_T - 1) % SIZE_T
  }

  /** One atomic operation of a thread inside a method. */
  datatype Effect = Effect(
    next: Call,                        // where the thread goes
    normal: bool := true,              // if it leaves the method: it returned, did not throw
    count: Tick := Keep,
    over: Maybe<Ending> := Nothing,    // a submission that is thereby over
    enqueue: Maybe<Handler> := Nothing,
    arm: Maybe<Job> := Nothing,
    nest: Maybe<Frame> := Nothing,     // ExecTask_ called in place
    close: bool := false)              // closing_ stored

  /** What the thread at `c` does next, given the shared flags it reads. */
  function CallEffect(s: State, t: nat): Effect
    requires t < |s.calls|
  {
    match s.calls[t]
    case PostCheck(job) =>
      if s.closing then Effect(After(job), over := Just(Ending(job.id, RefusedClosing)))
      else Effect(PostReserve(job))
    case PostReserve(job) =>
      if Ticked(s.count, Up) > s.capacity then Effect(PostRollback(job), count := Up)
      else Effect(PostEnqueue(job), count := Up)
    case PostRollback(job) =>
      Effect(Idle, normal := false, count := Down, over := Just(Ending(job.id, RefusedCapacity)))
    case PostEnqueue(job) => Effect(After(job), enqueue := Just(Run(job, Posted)))
    case DispatchCheck(job) =>
      if s.closing then Effect(After(job), over := Just(Ending(job.id, RefusedClosing)))
      else if t == 0 then Effect(Nest(job))
      else Effect(PostCheck(job))
    case Nest(job) => Effect(Idle, nest := Just(Frame(job, FromDispatch, Check)))
    case TimerCheck(job) =>
      if s.closing then Effect(Idle, over := Just(Ending(job.id, RefusedClosing)))
      else Effect(TimerArm(job))
    case TimerArm(job) => Effect(Idle, arm := Just(job))
    case TokenEnqueue(job) => Effect(Idle, enqueue := Just(Run(job, Token)))
    case CloseCheck => if s.closing then Effect(Idle) else Effect(ClosePost)
    case ClosePost => Effect(CloseStore, enqueue := Just(Marker))
    case CloseStore => Effect(Idle, close := true)
    case Await(id) => Effect(Idle, normal := Lookup(s.promises, id).Value?)
    case Join => Effect(Idle)
    case Idle => Effect(Idle)
  }

  function Appended<T>(s: seq<T>, x: Maybe<T>): seq<T> {
    match x
    case Nothing => s
    case Just(y) => s + [y]
  }

  function Recorded<T>(l: Log<T>, x: Maybe<T>): Log<T> {
    match x
    case Nothing => l
    case Just(y) => Add(l, y)
  }

  /** When the worker leaves a method, the body that called it goes on. */
  function Perform(s: State, t: nat, e: Effect): State
    requires t < |s.calls|
  {
    s.(calls := s.calls[t := e.next],
       stack := if e.nest.Just? then Frames(e.nest.value, s.stack)
                else if t == 0 && e.next.Idle? then Resume(s.stack, e.normal)
                else s.stack,
       count := Ticked(s.count, e.count),
       closing := s.closing || e.close,
       queue := Appended(s.queue, e.enqueue),
       armed := Appended(s.armed, e.arm),
       book := s.book.(hist := Appended(s.book.hist, e.enqueue),
                       ends := Recorded(s.book.ends, e.over)))
  }

  predicate Blocked(s: State, t: nat)
    requires t < |s.calls|
  {
    match s.calls[t]
    case Idle => true
    case Await(id) => Lookup(s.promises, id).Unset?
    case Join => s.waiter
    case _ => false
  }

  function CallStep(s: State, t: nat): State
    requires t < |s.calls|
  {
    if Blocked(s, t) then s else Perform(s, t, CallEffect(s, t))
  }

  // ----- the atomic operations of ExecTask_ -----

  /** One atomic operation of the innermost activation: it stays and possibly calls
      another one, enters a method of the pipeline, or is over. */
  datatype FrameEffect =
    | Stay(phase: Phase,
           began: bool := false,               // its body begins
           count: Tick := Keep,
           call: Maybe<Frame> := Nothing,      // a wrapper's own call of ExecTask_
           settle: Maybe<Settled> := Nothing)  // a promise given its value or exception
    | Call(api: Api)
    | Over(fate: Fate, threw: bool)
    | Still

  /** The first activation state of a wrapper's own call of ExecTask_. */
  function Inner(wrapper: Work, id: nat): Frame {
    Frame(Job(id, Plain(wrapper.task)), FromWrapper(wrapper.Resuming?),
          if wrapper.Resuming? then Count else Check)
  }

  function ExecEffect(f: Frame, closing: bool, id: nat): FrameEffect {
    match f.phase
    case Count => Stay(Check, count := Down)
    case Check => if closing then Over(Dismissed, false) else Stay(Passed)
    case Passed =>
      if f.job.work.Plain? then Stay(In(f.job.work.task), began := true)
      else Stay(Wrapped, began := true, call := Just(Inner(f.job.work, id)))
    case In(Return) => Over(Finished, false)
    case In(Raise) => Over(Threw, !f.AutoCatch())
    case In(Do(api, _, _)) => Call(api)
    case Wrapped => Still
    case Settle(inner, ok) =>
      if f.job.work.Sync? || (f.job.work.Promised? && !ok) then
        Stay(In(Return), settle := Just(Settled(f.job.id, ok, inner)))
      else Stay(In(Return))
  }

  /** The queue entry that activation `f` serves, if it was dequeued. */
  function Served(f: Frame): seq<Handler> {
    if f.via.FromQueue? then [Run(f.job, f.via.origin)] else []
  }

  function Stays(s: State, e: FrameEffect): State
    requires s.stack.Frames? && e.Stay?
  {
    var f := s.stack.top;
    var stays := SetPhase(s.stack, e.phase);
    s.(stack := if e.call.Just? then Frames(e.call.value, stays) else stays,
       count := Ticked(s.count, e.count),
       promises := Recorded(s.promises, e.settle),
       book := s.book.(
         jobs := if e.call.Just? then s.book.jobs + [e.call.value.job.work] else s.book.jobs,
         inside := if e.call.Just? then Add(s.book.inside, Inside(e.call.value.job.id, f.job.id))
                   else s.book.inside,
         ran := if e.began then s.book.ran + Served(f) else s.book.ran,
         trace := if e.began then Add(s.book.trace, Began(f.job.id)) else s.book.trace,
         uncompensated := if e.count.Down? && f.via != FromQueue(Posted)
                          then s.book.uncompensated + 1 else s.book.uncompensated))
  }

  /** The caller of the innermost activation takes over. */
  function Unwind(stack: Stack, threw: bool): Stack
    requires stack.Frames?
  {
    var caller := stack.below;
    if caller.Frames? && caller.top.phase.Wrapped? then
      SetPhase(caller, Settle(stack.top.job.id, !threw))
    else if stack.top.job.work.Sync? && !threw then caller
    else Resume(caller, !threw)
  }

  /** The innermost activation is over; `threw` says whether an exception leaves it. An
      exception that leaves the outermost one leaves io_context::run. */
  function IsOver(s: State, fate: Fate, threw: bool): State
    requires s.stack.Frames? && s.calls != []
  {
    var f, caller := s.stack.top, s.stack.below;
    var escapes := threw && caller.Empty?;
    var waits := f.job.work.Sync? && !threw && caller.Frames? && !caller.top.phase.Wrapped?;
    s.(stack := Unwind(s.stack, threw),
       calls := s.calls[0 := if waits then Await(f.job.id) else Idle],
       worker := if escapes then Escaped else s.worker,
       waiter := s.waiter && !escapes,
       tasksRun := if fate.Finished? then s.tasksRun + 1 else s.tasksRun,
       book := s.book.(
         ends := Add(s.book.ends, Ending(f.job.id, fate)),
         trace := if fate.Dismissed? then s.book.trace
                  else Add(s.book.trace, Ended(f.job.id, fate.Finished?)),
         dropped := if fate.Dismissed? then s.book.dropped + Served(f) else s.book.dropped))
  }

  function ExecStep(s: State): State
    requires s.stack.Frames? && s.calls != []
  {
    var e := ExecEffect(s.stack.top, s.closing, |s.book.jobs|);
    match e
    case Stay(_, _, _, _, _) => Stays(s, e)
    case Call(api) => Enter(s, 0, api)
    case Over(fate, threw) => IsOver(s, fate, threw)
    case Still => s
  }

  // ----- the other atomic operations of the worker -----

  function DequeuesJob(s: State): State
    requires s.queue != [] && s.queue[0].Run?
  {
    var h := s.queue[0];
    s.(queue := s.queue[1..],
       stack := Frames(Frame(h.job, FromQueue(h.origin), if h.origin.Timer? then Check else Count),
                       s.stack))
  }

  function DequeuesMarker(s: State): State
    requires s.queue != [] && s.queue[0].Marker?
  {
    s.(queue := s.queue[1..], worker := Shut, book := s.book.(shut := s.book.shut + 1))
  }

  function MarkerTests(s: State): State {
    s.(worker := if s.closed then Loop else Stopping, closed := true)
  }

  function MarkerStops(s: State): State {
    s.(worker := Loop, stopped := true, book := s.book.(stops := s.book.stops + 1))
  }

  function WorkerStep(s: State): State
    requires s.calls != []
  {
    match s.worker
    case Spawned => s.(worker := Locked, waiter := true)
    case Locked => s.(worker := Loop, started := true)
    case Loop =>
      if s.stack.Frames? then ExecStep(s)
      else if s.stopped then s.(worker := Leaving)
      else if s.queue == [] then s
      else if s.queue[0].Run? then DequeuesJob(s)
      else DequeuesMarker(s)
    case Shut => MarkerTests(s)
    case Stopping => MarkerStops(s)
    case Leaving => s.(worker := Exited, waiter := false)
    case Exited => s
    case Failed => s
    case Escaped => s
  }

  function Fires(s: State, i: nat): State
    requires i < |s.armed|
  {
    var h := Run(s.armed[i], Timer);
    s.(armed := s.armed[..i] + s.armed[i + 1..],
       queue := s.queue + [h],
       book := s.book.(hist := s.book.hist + [h]))
  }

  /** Client thread t may enter a method. */
  predicate Free(s: State, t: nat) {
    s.started && 0 < t < |s.calls| && s.calls[t].Idle?
  }

  function Next(s: State, l: Label): State {
    match l
    case Begin(t, api) => if Free(s, t) then Enter(s, t, api) else s
    case BeginJoin(t) => if Free(s, t) then s.(calls := s.calls[t := Join]) else s
    case Step(t) =>
      if t >= |s.calls| then s
      else if t == 0 && s.calls[0].Idle? then WorkerStep(s)
      else CallStep(s, t)
    case Expire(i) => if i < |s.armed| && s.worker.Loop? then Fires(s, i) else s
    case StartFails =>
      if s.worker.Locked? then s.(worker := Failed, waiter := false) else s
  }

  function Exec(s: State, ls: seq<Label>): State {
    if ls == [] then s else Next(Exec(s, ls[..|ls| - 1]), ls[|ls| - 1])
  }
}
