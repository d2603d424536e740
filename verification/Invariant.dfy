/** What every reachable state of a pipeline satisfies. */
module Invariant {
  import opened Tasks
  import opened Machine
  import opened Counting

  // ----- control -----

  predicate Suspended(phase: Phase) {
    phase.Wrapped? || (phase.In? && phase.rest.Do?)
  }

  predicate FrameOk(f: Frame, below: Stack) {
    && (f.via.FromQueue? <==> below.Empty?)
    && (f.via.FromWrapper? <==> below.Frames? && below.top.phase.Wrapped?)
    && (f.via.FromWrapper? ==>
          f.job.work == Plain(below.top.job.work.task) && f.via.counting == below.top.job.work.Resuming?)
    && (f.phase.Wrapped? || f.phase.Settle? ==> !f.job.work.Plain?)
    && (f.phase.In? && !f.job.work.Plain? ==> f.phase.rest == Return)
    && (f.phase.Count? ==>
          (f.via.FromQueue? && !f.via.origin.Timer?) || f.via == FromWrapper(true))
    && (below.Frames? ==> Suspended(below.top.phase))
  }

  predicate StackOk(stack: Stack) {
    match stack
    case Empty => true
    case Frames(f, below) => FrameOk(f, below) && StackOk(below)
  }

  predicate Started(w: Worker) {
    !w.Spawned? && !w.Locked? && !w.Failed?
  }

  predicate Control(s: State) {
    && s.calls != []
    && !s.calls[0].Join?
    && (forall t | 0 < t < |s.calls| :: !s.calls[t].Nest?)
    && (!s.calls[0].Idle? ==>
          s.stack.Frames? && s.stack.top.phase.In? && s.stack.top.phase.rest.Do?)
    && (Carrying(s.calls[0]) && s.calls[0].job.work.Sync? ==>
          s.calls[0].DispatchCheck? || s.calls[0].Nest?)
    && StackOk(s.stack)
    && (s.stack.Frames? ==> s.worker.Loop? && !s.stopped && !s.stack.top.phase.Wrapped?)
    && (s.started <==> Started(s.worker))
    && (s.closing ==> s.started)
    && (forall t | 0 <= t < |s.calls| :: !s.calls[t].Idle? ==> s.started)
    && (s.waiter <==> !s.worker.Spawned? && !s.worker.Exited? && !s.worker.Failed?)
    && !s.worker.Escaped?
    && (s.stopped ==> s.worker.Loop? || s.worker.Leaving? || s.worker.Exited?)
    && (s.worker.Leaving? || s.worker.Exited? ==> s.stopped)
    && (s.closed <==> s.stopped || s.worker.Stopping?)
    && s.book.stops == (if s.stopped then 1 else 0)
    && s.book.shut == (if s.closed || s.worker.Shut? then 1 else 0)
    && s.tasksRun == TotalLog(s.book.trace, NormalEnd)
  }

  // ----- places of submissions -----

  predicate Carrying(c: Call) {
    || c.PostCheck? || c.PostReserve? || c.PostRollback? || c.PostEnqueue?
    || c.DispatchCheck? || c.Nest? || c.TimerCheck? || c.TimerArm? || c.TokenEnqueue?
  }

  predicate JobOk(j: Job, jobs: seq<Work>) {
    j.id < |jobs| && jobs[j.id] == j.work
  }

  predicate StackJobs(stack: Stack, jobs: seq<Work>) {
    match stack
    case Empty => true
    case Frames(f, below) => JobOk(f.job, jobs) && StackJobs(below, jobs)
  }

  predicate CallJobs(calls: seq<Call>, jobs: seq<Work>) {
    forall t | 0 <= t < |calls| :: Carrying(calls[t]) ==> JobOk(calls[t].job, jobs)
  }

  predicate QueueJobs(queue: seq<Handler>, jobs: seq<Work>) {
    forall i | 0 <= i < |queue| :: queue[i].Run? ==> JobOk(queue[i].job, jobs)
  }

  predicate TimerJobs(armed: seq<Job>, jobs: seq<Work>) {
    forall i | 0 <= i < |armed| :: JobOk(armed[i], jobs)
  }

  /** The book knows every submission that is somewhere. */
  predicate Jobs(s: State) {
    && CallJobs(s.calls, s.book.jobs)
    && QueueJobs(s.queue, s.book.jobs)
    && TimerJobs(s.armed, s.book.jobs)
    && StackJobs(s.stack, s.book.jobs)
  }

  function Bit(b: bool): nat {
    if b then 1 else 0
  }

  function NormalEnd(e: Event): nat { Bit(e.Ended? && e.normal) }

  function InCall(k: nat, c: Call): nat { Bit(Carrying(c) && c.job.id == k) }
  function InHandler(k: nat, h: Handler): nat { Bit(h.Run? && h.job.id == k) }
  function InFrame(k: nat, f: Frame): nat { Bit(f.job.id == k) }
  function InJob(k: nat, j: Job): nat { Bit(j.id == k) }
  function UnsettledIn(k: nat, f: Frame): nat { Bit(f.job.id == k && !f.phase.In?) }
  function BegunIn(k: nat, f: Frame): nat { Bit(f.job.id == k && f.Begun()) }

  /** Where submission k is. */
  function At(k: nat): Weights {
    Weights(c => InCall(k, c), h => InHandler(k, h), f => InFrame(k, f), j => InJob(k, j))
  }

  /** Where submission k is, except for activations whose promise is settled. */
  function Unsettled(k: nat): Weights {
    At(k).(frame := f => UnsettledIn(k, f))
  }

  function BegunFrame(k: nat): Frame -> nat { f => BegunIn(k, f) }

  function Ends(k: nat, e: Ending): nat { Bit(e.id == k) }
  function Ran(k: nat, e: Ending): nat { Bit(e.id == k && (e.fate.Finished? || e.fate.Threw?)) }
  function Throws(k: nat, e: Ending): nat { Bit(e.id == k && e.fate.Threw?) }
  function Full(k: nat, e: Ending): nat { Bit(e.id == k && e.fate.RefusedCapacity?) }
  function Never(k: nat, e: Ending): nat {
    Bit(e.id == k && (e.fate.RefusedClosing? || e.fate.RefusedCapacity? || e.fate.Dismissed?))
  }
  function ByClosing(e: Ending): nat { Bit(e.fate.RefusedClosing? || e.fate.Dismissed?) }

  function EndOf(k: nat): Ending -> nat { e => Ends(k, e) }
  function RanEnd(k: nat): Ending -> nat { e => Ran(k, e) }
  function ThrewEnd(k: nat): Ending -> nat { e => Throws(k, e) }
  function CapacityEnd(k: nat): Ending -> nat { e => Full(k, e) }
  function NoPromise(k: nat): Ending -> nat { e => Never(k, e) }

  function FinishedEnd(k: nat): Ending -> nat { (e: Ending) => Bit(e == Ending(k, Finished)) }

  function BeganAs(k: nat): Event -> nat { (e: Event) => Bit(e == Began(k)) }
  function NormalAs(k: nat): Event -> nat { (e: Event) => Bit(e == Ended(k, true)) }
  function SettledAs(k: nat): Settled -> nat { (p: Settled) => Bit(p.id == k) }

  /** Submission k is in exactly one place or over exactly once. */
  predicate Placed(s: State, k: nat) {
    Mass(s, At(k)) + TotalLog(s.book.ends, EndOf(k)) == Bit(k < |s.book.jobs|)
  }

  /** The body of k has begun as often as it is on the stack or over, and it has ended
      normally as often as that is recorded of the submission. */
  predicate Traced(s: State, k: nat) {
    && TotalLog(s.book.trace, BeganAs(k))
       == TotalStack(s.stack, BegunFrame(k)) + TotalLog(s.book.ends, RanEnd(k))
    && TotalLog(s.book.trace, NormalAs(k)) == TotalLog(s.book.ends, FinishedEnd(k))
  }

  /** The promise of k is pending, settled once, or will never be settled. */
  predicate Promising(s: State, k: nat) {
    (k < |s.book.jobs| ==> s.book.jobs[k].Sync?) ==>
      Mass(s, Unsettled(k)) + TotalLog(s.promises, SettledAs(k))
      + TotalLog(s.book.ends, NoPromise(k)) == Bit(k < |s.book.jobs|)
  }

  ghost predicate Ledger(s: State) {
    forall k: nat :: Placed(s, k) && Traced(s, k) && Promising(s, k)
  }

  // ----- reservations -----

  function ReservedCall(c: Call): nat { Bit(c.PostEnqueue? || c.PostRollback?) }
  function HeldCall(c: Call): nat { Bit(c.PostEnqueue?) }
  function RollingCall(c: Call): nat { Bit(c.PostRollback?) }
  function HeldHandler(h: Handler): nat { Bit(h.Run? && h.origin.Posted?) }
  function HeldFrame(f: Frame): nat { Bit(f.phase.Count? && f.via == FromQueue(Posted)) }
  function NoTimer(j: Job): nat { 0 }

  const RESERVED := Weights(ReservedCall, HeldHandler, HeldFrame, NoTimer)
  const HELD := Weights(HeldCall, HeldHandler, HeldFrame, NoTimer)

  /** Increments of count_ that are still to be undone. */
  function Reserved(s: State): nat {
    Mass(s, RESERVED)
  }

  /** Those of them that stand for an admitted task. */
  function Held(s: State): nat {
    Mass(s, HELD)
  }

  /** Producers between a refusing comparison and its decrement. */
  function Rolling(s: State): nat {
    Total(s.calls, RollingCall)
  }

  predicate NoWrap(s: State) {
    s.capacity + |s.calls| < SIZE_T
  }

  predicate Accounts(s: State) {
    && s.count < SIZE_T
    && (s.count + s.book.uncompensated) % SIZE_T == Reserved(s) % SIZE_T
    && (s.book.uncompensated == 0 && NoWrap(s) ==> Held(s) <= s.capacity)
  }

  // ----- order -----

  /** The dequeued handler whose body has not begun. */
  function Pending(stack: Stack): seq<Handler> {
    match stack
    case Empty => []
    case Frames(f, below) =>
      if below.Frames? then Pending(below)
      else if f.Begun() then [] else Served(f)
  }

  /** The outermost activation has read closing_ == false and not yet begun its body. */
  predicate AtStart(stack: Stack) {
    stack.Frames? && stack.below.Empty? && stack.top.phase.Passed?
  }

  function Markers(n: nat): seq<Handler> {
    if n == 0 then [] else [Marker]
  }

  predicate Order(s: State) {
    && s.book.hist == s.book.ran + s.book.dropped + Pending(s.stack) + Markers(s.book.shut) + s.queue
    && (forall i | 0 <= i < |s.book.ran| :: s.book.ran[i].Run?)
    && (forall i | 0 <= i < |s.book.dropped| :: s.book.dropped[i].Run?)
    && (s.book.dropped != [] ==> s.closing && !AtStart(s.stack))
  }

  // ----- closing -----

  function MarkerHandler(h: Handler): nat { Bit(h.Marker?) }
  function StoreCall(c: Call): nat { Bit(c.CloseStore?) }

  predicate Closing(s: State) {
    && (Total(s.book.hist, MarkerHandler) > 0 <==> s.closing || Total(s.calls, StoreCall) > 0)
    && (!s.closing ==> TotalLog(s.book.ends, ByClosing) == 0)
  }

  // ----- nesting -----

  /** Bodies that have begun and not ended, innermost last. */
  function Open(trace: Log<Event>): Log<nat> {
    match trace
    case Start => Start
    case Add(earlier, Began(k)) => Add(Open(earlier), k)
    case Add(earlier, Ended(_, _)) => if Open(earlier).Add? then Open(earlier).earlier else Start
  }

  /** Every end matches the innermost open beginning. */
  predicate Bracketed(trace: Log<Event>) {
    match trace
    case Start => true
    case Add(earlier, Began(_)) => Bracketed(earlier)
    case Add(earlier, Ended(k, _)) =>
      Bracketed(earlier) && Open(earlier).Add? && Open(earlier).latest == k
  }

  /** Bodies that began while no other was open. */
  function Tops(trace: Log<Event>): seq<nat> {
    match trace
    case Start => []
    case Add(earlier, Began(k)) => if Open(earlier).Start? then Tops(earlier) + [k] else Tops(earlier)
    case Add(earlier, Ended(_, _)) => Tops(earlier)
  }

  function OpenFrames(stack: Stack): Log<nat> {
    match stack
    case Empty => Start
    case Frames(f, below) =>
      if f.Begun() then Add(OpenFrames(below), f.job.id) else OpenFrames(below)
  }

  predicate Nesting(s: State) {
    && Bracketed(s.book.trace)
    && Open(s.book.trace) == OpenFrames(s.stack)
    && |Tops(s.book.trace)| == |s.book.ran|
    && (forall i | 0 <= i < |s.book.ran| ::
          s.book.ran[i].Run? && s.book.ran[i].job.id == Tops(s.book.trace)[i])
  }

  // ----- promises -----

  /** Activation `inner` is over, and `ok` says whether it ended without an exception. */
  predicate Judged(inner: nat, ok: bool, ends: Log<Ending>) {
    && TotalLog(ends, EndOf(inner)) == 1
    && (ok <==> TotalLog(ends, ThrewEnd(inner)) == 0)
    && TotalLog(ends, CapacityEnd(inner)) == 0
  }

  predicate AllJudged(promises: Log<Settled>, ends: Log<Ending>) {
    match promises
    case Start => true
    case Add(earlier, p) => Judged(p.inner, p.ok, ends) && AllJudged(earlier, ends)
  }

  /** The submission whose wrapper called ExecTask_ for submission `inner`. */
  function WrapperOf(inside: Log<Inside>, inner: nat): Maybe<nat> {
    match inside
    case Start => Nothing
    case Add(earlier, x) => if x.inner == inner then Just(x.wrapper) else WrapperOf(earlier, inner)
  }

  /** Activation `inner` is the one that the wrapper of submission `id` called. */
  predicate Owns(id: nat, inner: nat, book: Book) {
    && id < |book.jobs| && inner < |book.jobs| && book.jobs[inner] == Plain(book.jobs[id].task)
    && WrapperOf(book.inside, inner) == Just(id)
  }

  predicate AllOwned(promises: Log<Settled>, book: Book) {
    match promises
    case Start => true
    case Add(earlier, p) => Owns(p.id, p.inner, book) && AllOwned(earlier, book)
  }

  /** Every activation called by a wrapper is recorded as such. */
  predicate StackOwned(stack: Stack, book: Book) {
    match stack
    case Empty => true
    case Frames(f, below) =>
      (f.via.FromWrapper? && below.Frames? ==> Owns(below.top.job.id, f.job.id, book))
      && StackOwned(below, book)
  }

  predicate Owned(s: State) {
    && AllOwned(s.promises, s.book)
    && StackOwned(s.stack, s.book)
    && (s.stack.Frames? && s.stack.top.phase.Settle? ==>
          Owns(s.stack.top.job.id, s.stack.top.phase.inner, s.book))
  }

  /** What holds of a thread inside future.get(). */
  predicate WaitOk(s: State, t: nat)
    requires t < |s.calls| && s.calls[t].Await?
  {
    var id := s.calls[t].id;
    && id < |s.book.jobs| && s.book.jobs[id].Sync?
    && (forall u | 0 <= u < |s.calls| :: !(Carrying(s.calls[u]) && s.calls[u].job.id == id))
    && (forall i | 0 <= i < |s.armed| :: s.armed[i].id != id)
    && TotalLog(s.book.ends, CapacityEnd(id)) == 0
    && (t == 0 ==> TotalLog(s.book.ends, EndOf(id)) == 1)
  }

  predicate Waits(s: State) {
    && AllJudged(s.promises, s.book.ends)
    && (s.stack.Frames? && s.stack.top.phase.Settle? && !s.stack.top.job.work.Resuming? ==>
          Judged(s.stack.top.phase.inner, s.stack.top.phase.ok, s.book.ends))
    && (forall t | 0 <= t < |s.calls| :: s.calls[t].Await? ==> WaitOk(s, t))
  }

  ghost predicate Inv(s: State) {
    && Control(s)
    && Jobs(s)
    && Ledger(s)
    && Accounts(s)
    && Order(s)
    && Closing(s)
    && Nesting(s)
    && Waits(s)
    && Owned(s)
  }
}
