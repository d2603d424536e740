/** Every handler takes the worker a bounded number of its own operations, whatever the
    other threads do; so a closed pipeline drains, with one exception: a body that calls
    PostSynchronously while the pipeline is being closed waits for ever. */
module Progress {
  import opened Tasks
  import opened Machine
  import opened Counting
  import opened Invariant

  // ----- sizes -----

  /** Operations that executing a task may take, calls of Dispatch included. */
  function TaskSize(task: Task): nat {
    match task
    case Return => 2
    case Raise => 2
    case Do(api, ok, ko) => 1 + ApiSize(api) + TaskSize(ok) + TaskSize(ko)
  }

  function ApiSize(api: Api): nat {
    match api
    case Dispatch(task) => 10 + TaskSize(task)
    case PostSynchronously(task) => 20 + TaskSize(task)
    case _ => 5
  }

  function WorkSize(work: Work): nat {
    (if work.Plain? then 0 else 7) + TaskSize(work.task)
  }

  /** Operations left for the call that the worker is in. */
  function CallSize(c: Call): nat {
    match c
    case Idle => 0
    case PostCheck(_) => 4
    case PostReserve(_) => 3
    case PostRollback(_) => 2
    case PostEnqueue(_) => 2
    case DispatchCheck(job) => 5 + WorkSize(job.work)
    case Nest(job) => 4 + WorkSize(job.work)
    case TimerCheck(_) => 2
    case TimerArm(_) => 1
    case TokenEnqueue(_) => 1
    case CloseCheck => 3
    case ClosePost => 2
    case CloseStore => 1
    case Await(_) => 1
    case Join => 1
  }

  /** Operations left for an activation that is not suspended. */
  function FrameSize(f: Frame): nat {
    match f.phase
    case Count => 3 + WorkSize(f.job.work)
    case Check => 2 + WorkSize(f.job.work)
    case Passed => 1 + WorkSize(f.job.work)
    case In(rest) => TaskSize(rest)
    case Wrapped => 4
    case Settle(_, _) => 3
  }

  /** Operations left for an activation after the call it is in. */
  function RestSize(f: Frame): nat {
    match f.phase
    case In(Do(_, ok, ko)) => TaskSize(ok) + TaskSize(ko)
    case _ => FrameSize(f)
  }

  function RestStack(stack: Stack): nat {
    match stack
    case Empty => 0
    case Frames(f, below) => RestSize(f) + RestStack(below)
  }

  function StackSize(stack: Stack, inCall: bool): nat {
    match stack
    case Empty => 0
    case Frames(f, below) => (if inCall then RestSize(f) else FrameSize(f)) + RestStack(below)
  }

  /** Operations left for the handlers before the first marker, and the shutdown itself. */
  function QueueSize(queue: seq<Handler>): nat {
    if queue == [] || queue[0].Marker? then 5
    else 4 + WorkSize(queue[0].job.work) + QueueSize(queue[1..])
  }

  /** Operations the worker still takes before it ends, once a marker is posted. */
  function Rank(s: State): nat
    requires s.calls != []
  {
    match s.worker
    case Spawned => 2 + QueueSize(s.queue)
    case Locked => 1 + QueueSize(s.queue)
    case Loop =>
      if s.stopped then 2
      else StackSize(s.stack, !s.calls[0].Idle?) + CallSize(s.calls[0]) + QueueSize(s.queue)
    case Shut => 4
    case Stopping => 3
    case Leaving => 1
    case Exited => 0
    case Failed => 0
    case Escaped => 0
  }

  // ----- the queue -----

  lemma {:induction false} QueueSizeBehindMarker(queue: seq<Handler>, h: Handler)
    requires Marker in queue
    ensures QueueSize(queue + [h]) == QueueSize(queue)
  {
    assert (queue + [h])[0] == queue[0];
    if queue[0].Run? {
      assert (queue + [h])[1..] == queue[1..] + [h];
      QueueSizeBehindMarker(queue[1..], h);
    }
  }

  /** A marker is on its way to the worker, or has reached it. */
  predicate MarkerComing(s: State) {
    Marker in s.queue || s.worker.Shut? || s.closed
  }

  lemma AppendedRank(queue: seq<Handler>, x: Maybe<Handler>)
    requires Marker in queue
    ensures QueueSize(Appended(queue, x)) == QueueSize(queue) && Marker in Appended(queue, x)
  {
    if x.Just? {
      QueueSizeBehindMarker(queue, x.value);
    }
  }

  // ----- the worker's calls -----

  lemma EntrySize(api: Api, id: nat)
    ensures 0 < CallSize(Entry(api, id)) <= ApiSize(api)
  {
  }

  /** Every operation of a thread inside a method brings it closer to the end of it. */
  lemma CallShrinks(s: State, t: nat)
    requires t < |s.calls| && !s.calls[t].Idle?
    ensures var e := CallEffect(s, t);
      CallSize(e.next) + (if e.nest.Just? then FrameSize(e.nest.value) else 0) < CallSize(s.calls[t])
  {
    hide Ticked, Lookup, TaskSize;
    match s.calls[t] {
      case PostCheck(_) => case PostReserve(_) => case PostRollback(_) => case PostEnqueue(_) =>
      case DispatchCheck(_) => case Nest(_) => case TimerCheck(_) => case TimerArm(_) =>
      case TokenEnqueue(_) => case CloseCheck => case ClosePost => case CloseStore =>
      case Await(_) => case Join =>
    }
  }

  lemma ResumeShrinks(stack: Stack, normal: bool)
    requires stack.Frames? && stack.top.phase.In? && stack.top.phase.rest.Do?
    ensures StackSize(Resume(stack, normal), false) <= StackSize(stack, true)
  {
  }

  lemma WorkerCallShrinks(s: State)
    requires Control(s) && !s.calls[0].Idle?
    ensures var s' := Perform(s, 0, CallEffect(s, 0));
      StackSize(s'.stack, !s'.calls[0].Idle?) + CallSize(s'.calls[0])
      < StackSize(s.stack, true) + CallSize(s.calls[0])
  {
    CallShrinks(s, 0);
    ResumeShrinks(s.stack, CallEffect(s, 0).normal);
    assert CallEffect(s, 0).nest.Just? ==> CallEffect(s, 0).next.Idle?;
    hide CallEffect, Ticked, Resume, StackOk, CallSize, FrameSize;
  }

  // ----- the worker's activations -----

  lemma StaysShrinks(s: State)
    requires s.stack.Frames? && ExecEffect(s.stack.top, s.closing, |s.book.jobs|).Stay?
    ensures var s' := Stays(s, ExecEffect(s.stack.top, s.closing, |s.book.jobs|));
      StackSize(s'.stack, false) < StackSize(s.stack, false)
  {
    var f, e := s.stack.top, ExecEffect(s.stack.top, s.closing, |s.book.jobs|);
    assert FrameSize(f.(phase := e.phase)) + (if e.call.Just? then FrameSize(e.call.value) else 0)
           < FrameSize(f);
    assert e.call.Just? ==> e.phase.Wrapped?;
    hide ExecEffect, Ticked, FrameSize;
  }

  lemma UnwindShrinks(stack: Stack, threw: bool)
    requires StackOk(stack) && stack.Frames?
    ensures stack.top.job.work.Sync? && !threw && stack.below.Frames? && !stack.below.top.phase.Wrapped?
            ==> Unwind(stack, threw) == stack.below
    ensures !(stack.top.job.work.Sync? && !threw && stack.below.Frames? && !stack.below.top.phase.Wrapped?)
            ==> StackSize(Unwind(stack, threw), false) <= RestStack(stack.below)
  {
    assert stack.below.Frames? ==> Suspended(stack.below.top.phase);
  }

  lemma OverShrinks(s: State, fate: Fate, threw: bool)
    requires StackOk(s.stack) && s.stack.Frames? && s.calls != [] && FrameSize(s.stack.top) >= 2
    ensures var s' := IsOver(s, fate, threw);
      StackSize(s'.stack, !s'.calls[0].Idle?) + CallSize(s'.calls[0]) < StackSize(s.stack, false)
  {
    hide Unwind, FrameSize, StackOk, RestSize, Served;
    UnwindShrinks(s.stack, threw);
    assert s.stack.below.Frames? ==> StackSize(s.stack.below, true) == RestStack(s.stack.below);
  }

  lemma EnterShrinks(s: State, api: Api)
    requires s.stack.Frames? && s.calls != [] && s.stack.top.phase.In? && s.stack.top.phase.rest.Do?
    requires s.stack.top.phase.rest.api == api
    ensures var s' := Enter(s, 0, api);
      StackSize(s'.stack, !s'.calls[0].Idle?) + CallSize(s'.calls[0]) < StackSize(s.stack, false)
  {
    EntrySize(api, |s.book.jobs|);
    assert !Entry(api, |s.book.jobs|).Idle?;
    hide Entry, CallSize, ApiSize;
  }

  lemma ExecShrinks(s: State)
    requires Control(s) && s.stack.Frames? && s.calls[0].Idle?
    ensures var s' := ExecStep(s);
      && StackSize(s'.stack, !s'.calls[0].Idle?) + CallSize(s'.calls[0]) < StackSize(s.stack, false)
      && s'.queue == s.queue && s'.worker.Loop? && s'.stopped == s.stopped && s'.calls != []
  {
    var f := s.stack.top;
    var e := ExecEffect(f, s.closing, |s.book.jobs|);
    assert !e.Still?;
    assert e.Call? ==> f.phase.In? && f.phase.rest.Do? && f.phase.rest.api == e.api;
    assert e.Over? && e.threw ==> s.stack.below.Frames?;
    hide ExecEffect, Ticked, Unwind, Entry, StackOk, StackSize, CallSize;
    match e
    case Stay(_, _, _, _, _) => StaysShrinks(s); assert CallSize(Idle) == 0 by { NoCall(); }
    case Call(api) => EnterShrinks(s, api);
    case Over(fate, threw) =>
      OverShrinks(s, fate, threw);
  }

  lemma NoCall()
    ensures CallSize(Idle) == 0
  {
  }

  // ----- every step -----

  /** The worker is inside future.get() on a promise that is not settled. */
  predicate Stuck(s: State) {
    s.calls != [] && s.calls[0].Await? && Lookup(s.promises, s.calls[0].id).Unset?
  }

  /** What the clients and the timers do leaves the worker's remaining work as it is. */
  lemma OthersKeepRank(s: State, s': State)
    requires Control(s) && MarkerComing(s)
    requires s'.calls != [] && s'.calls[0] == s.calls[0] && s'.stack == s.stack
    requires s'.worker == s.worker && s'.stopped == s.stopped && s'.closed == s.closed
    requires s'.queue == s.queue || (s'.queue != [] && s'.queue[..|s'.queue| - 1] == s.queue)
    ensures MarkerComing(s') && Rank(s') == Rank(s)
  {
    if Marker in s.queue && s'.queue != s.queue {
      QueueSizeBehindMarker(s.queue, s'.queue[|s'.queue| - 1]);
      assert s'.queue == s.queue + [s'.queue[|s'.queue| - 1]];
    }
    hide StackSize, CallSize, QueueSize, StackOk, TotalLog;
  }

  lemma ClientKeepsRank(s: State, t: nat)
    requires Control(s) && MarkerComing(s) && 0 < t < |s.calls| && !s.calls[t].Idle?
    ensures var s' := Perform(s, t, CallEffect(s, t)); MarkerComing(s') && Rank(s') == Rank(s)
  {
    assert CallEffect(s, t).nest.Nothing?;
    OthersKeepRank(s, Perform(s, t, CallEffect(s, t)));
    hide CallEffect, Ticked, Rank, MarkerComing, Control;
  }

  lemma WorkerCallRank(s: State)
    requires Control(s) && MarkerComing(s) && !s.calls[0].Idle?
    ensures var s' := Perform(s, 0, CallEffect(s, 0)); MarkerComing(s') && Rank(s') < Rank(s)
  {
    var e := CallEffect(s, 0);
    WorkerCallShrinks(s);
    AppendedRank(s.queue, e.enqueue);
    hide CallEffect, Ticked, Resume, StackOk, StackSize, CallSize, QueueSize, TotalLog;
  }

  lemma WorkerRank(s: State)
    requires Control(s) && MarkerComing(s) && s.calls[0].Idle? && Rank(s) > 0
    ensures var s' := WorkerStep(s);
      s'.calls != [] && MarkerComing(s') && Rank(s') < Rank(s)
  {
    if s.worker.Loop? && s.stack.Frames? {
      ExecShrinks(s);
    }
    NoCall();
    hide ExecStep, StackOk, TotalLog, CallSize, WorkSize;
    match s.worker {
      case Loop => case Spawned => case Locked => case Shut => case Stopping => case Leaving =>
      case Exited => case Failed => case Escaped =>
    }
  }

  lemma ClientsRank(s: State, l: Label)
    requires Control(s) && MarkerComing(s) && l != Step(0)
    ensures Next(s, l).calls != [] && MarkerComing(Next(s, l)) && Rank(Next(s, l)) <= Rank(s)
  {
    match l {
      case Begin(t, api) =>
        if Free(s, t) {
          OthersKeepRank(s, Enter(s, t, api));
        }
      case BeginJoin(t) =>
        if Free(s, t) {
          OthersKeepRank(s, s.(calls := s.calls[t := Join]));
        }
      case Expire(i) =>
        if i < |s.armed| {
          OthersKeepRank(s, Fires(s, i));
        }
      case StartFails =>
      case Step(t) =>
        if t < |s.calls| && !s.calls[t].Idle? {
          ClientKeepsRank(s, t);
        }
    }
    hide CallEffect, Perform, WorkerStep, Entry, StackSize, CallSize, QueueSize, StackOk, TotalLog;
  }

  /** No step adds to the worker's remaining work, and every operation of the worker
      reduces it unless the worker is stuck. */
  lemma StepRank(s: State, l: Label)
    requires Control(s) && MarkerComing(s)
    ensures Next(s, l).calls != [] && MarkerComing(Next(s, l))
    ensures Rank(Next(s, l)) <= Rank(s)
    ensures l == Step(0) && !Stuck(s) && Rank(s) > 0 ==> Rank(Next(s, l)) < Rank(s)
  {
    if l != Step(0) {
      ClientsRank(s, l);
    } else if s.calls[0].Idle? {
      if Rank(s) > 0 {
        WorkerRank(s);
      } else {
        assert WorkerStep(s) == s;
      }
    } else if !Blocked(s, 0) {
      WorkerCallRank(s);
    }
    hide CallEffect, Perform, Entry, StackSize, CallSize, QueueSize, ExecStep, StackOk, TotalLog;
  }
}
