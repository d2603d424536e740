/** How a task can end: what its tree of calls allows is all that is ever recorded of it. */
module Outcomes {
  import opened Tasks
  import opened Machine
  import opened Counting
  import opened Invariant
  import opened Safety

  // ----- what a task may do, read off the tree -----

  /** On the worker a call throws only if it posts and the queue is full, or if it runs a task
      synchronously that may throw. */
  predicate MayThrow(api: Api) {
    api.Post? || api.PostWithPromise? || (api.PostSynchronously? && MayRaise(api.task))
  }

  /** Some path through the tree ends with an exception. */
  predicate MayRaise(task: Task) {
    match task
    case Return => false
    case Raise => true
    case Do(api, ok, ko) => MayRaise(ok) || (MayThrow(api) && MayRaise(ko))
  }

  /** Some path through the tree ends normally. */
  predicate MayReturn(task: Task) {
    match task
    case Return => true
    case Raise => false
    case Do(api, ok, ko) => MayReturn(ok) || (MayThrow(api) && MayReturn(ko))
  }

  /** Every path through the tree ends with `leaf`. */
  predicate Always(task: Task, leaf: Task) {
    match task
    case Do(_, ok, ko) => Always(ok, leaf) && Always(ko, leaf)
    case _ => task == leaf
  }

  lemma {:induction false} LeavesDecide(task: Task)
    ensures Always(task, Return) ==> !MayRaise(task)
    ensures Always(task, Raise) ==> !MayReturn(task)
  {
    if task.Do? {
      LeavesDecide(task.ok);
      LeavesDecide(task.ko);
    }
  }

  // ----- the invariant -----

  /** What is left of a body does nothing that the whole may not do. */
  predicate Within(rest: Task, task: Task) {
    (MayReturn(rest) ==> MayReturn(task)) && (MayRaise(rest) ==> MayRaise(task))
  }

  /** The activation that a call of `api` has started. */
  predicate StartedBy(work: Work, api: Api) {
    (api.Dispatch? && work == Plain(api.task)) || (api.PostSynchronously? && work == Sync(api.task))
  }

  predicate FrameFits(f: Frame) {
    && (f.job.work.Plain? && f.phase.In? ==> Within(f.phase.rest, f.job.work.task))
    && (f.phase.Settle? && !f.phase.ok ==> MayRaise(f.job.work.task))
  }

  predicate StackFits(stack: Stack) {
    match stack
    case Empty => true
    case Frames(f, below) =>
      && FrameFits(f)
      && (below.Frames? && below.top.phase.In? && below.top.phase.rest.Do? ==>
            StartedBy(f.job.work, below.top.phase.rest.api))
      && StackFits(below)
  }

  /** Where the worker stands in a call of `api`. */
  predicate InCallOf(c: Call, api: Api, jobs: seq<Work>) {
    match c
    case PostCheck(_) => api.Post? || api.PostWithPromise?
    case PostReserve(_) => api.Post? || api.PostWithPromise?
    case PostRollback(_) => api.Post? || api.PostWithPromise?
    case PostEnqueue(_) => api.Post? || api.PostWithPromise?
    case DispatchCheck(job) => StartedBy(job.work, api)
    case Nest(job) => StartedBy(job.work, api)
    case Await(id) => api.PostSynchronously? && id < |jobs| && jobs[id] == Sync(api.task)
    case _ => true
  }

  predicate CallFits(c: Call, stack: Stack, jobs: seq<Work>) {
    !c.Idle? && stack.Frames? && stack.top.phase.In? && stack.top.phase.rest.Do? ==>
      InCallOf(c, stack.top.phase.rest.api, jobs)
  }

  predicate PromisesFit(promises: Log<Settled>, jobs: seq<Work>) {
    match promises
    case Start => true
    case Add(earlier, p) =>
      p.id < |jobs| && (!p.ok ==> MayRaise(jobs[p.id].task)) && PromisesFit(earlier, jobs)
  }

  predicate EndFits(e: Ending, jobs: seq<Work>) {
    && (e.fate.Threw? ==> e.id < |jobs| && MayRaise(jobs[e.id].task))
    && (e.fate.Finished? ==> e.id < |jobs| && (jobs[e.id].Plain? ==> MayReturn(jobs[e.id].task)))
  }

  predicate EndsFit(ends: Log<Ending>, jobs: seq<Work>) {
    match ends
    case Start => true
    case Add(earlier, e) => EndFits(e, jobs) && EndsFit(earlier, jobs)
  }

  predicate Fits(s: State) {
    && s.calls != []
    && StackFits(s.stack) && CallFits(s.calls[0], s.stack, s.book.jobs)
    && PromisesFit(s.promises, s.book.jobs) && EndsFit(s.book.ends, s.book.jobs)
  }

  lemma {:induction false} LogsGrow(promises: Log<Settled>, ends: Log<Ending>, jobs: seq<Work>, more: seq<Work>)
    requires PromisesFit(promises, jobs) && EndsFit(ends, jobs) && jobs <= more
    ensures PromisesFit(promises, more) && EndsFit(ends, more)
    decreases promises, ends
  {
    if promises.Add? {
      LogsGrow(promises.earlier, ends, jobs, more);
    } else if ends.Add? {
      LogsGrow(promises, ends.earlier, jobs, more);
    }
    hide MayReturn, MayRaise;
  }

  lemma {:induction false} ExceptionFits(promises: Log<Settled>, jobs: seq<Work>, k: nat)
    requires PromisesFit(promises, jobs) && Lookup(promises, k).Exception?
    ensures k < |jobs| && MayRaise(jobs[k].task)
  {
    if promises.latest.id != k {
      ExceptionFits(promises.earlier, jobs, k);
    }
    hide MayRaise;
  }

  // ----- the worker inside a method -----

  /** The body goes on on a path that its tree has. */
  lemma ResumeFits(stack: Stack, normal: bool)
    requires StackFits(stack) && stack.Frames? && stack.top.phase.In? && stack.top.phase.rest.Do?
    requires stack.top.job.work.Plain?
    requires !normal ==> MayThrow(stack.top.phase.rest.api)
    ensures StackFits(Resume(stack, normal))
  {
    hide MayThrow;
  }

  lemma CallEffectFits(s: State)
    requires Fits(s) && Control(s) && !s.calls[0].Idle? && s.stack.Frames? && s.stack.top.phase.In?
    requires s.stack.top.phase.rest.Do? && !Blocked(s, 0)
    ensures var e, api := CallEffect(s, 0), s.stack.top.phase.rest.api;
      && (!e.next.Idle? && Carrying(s.calls[0]) && JobOk(s.calls[0].job, s.book.jobs) ==>
            InCallOf(e.next, api, s.book.jobs))
      && (e.nest.Just? ==> StartedBy(e.nest.value.job.work, api) && e.nest.value.phase.Check?)
      && (e.next.Idle? && !e.normal ==> MayThrow(api))
  {
    if s.calls[0].Await? && Lookup(s.promises, s.calls[0].id).Exception? {
      ExceptionFits(s.promises, s.book.jobs, s.calls[0].id);
    }
    hide Ticked, StackFits, PromisesFit, EndsFit, MayRaise;
  }

  lemma WorkerCallFits(s: State)
    requires Inv(s) && Fits(s) && !s.calls[0].Idle? && !Blocked(s, 0)
    ensures Fits(Perform(s, 0, CallEffect(s, 0)))
  {
    var e := CallEffect(s, 0);
    assert s.stack.Frames? && s.stack.top.phase.In? && s.stack.top.phase.rest.Do?
      && FrameOk(s.stack.top, s.stack.below);
    assert Control(s);
    assert Carrying(s.calls[0]) ==> JobOk(s.calls[0].job, s.book.jobs);
    assert e.over.Just? ==> !e.over.value.fate.Threw? && !e.over.value.fate.Finished?;
    hide Inv, Control, CallEffect, InCallOf, StartedBy, MayThrow, MayReturn, MayRaise, Resume, Ticked;
    hide PromisesFit, EndFits;
    CallEffectFits(s);
    if e.next.Idle? {
      ResumeFits(s.stack, e.normal);
    }
    RefusalFits(s.book.ends, e.over, s.book.jobs);
  }

  lemma RefusalFits(ends: Log<Ending>, x: Maybe<Ending>, jobs: seq<Work>)
    requires EndsFit(ends, jobs) && (x.Just? ==> !x.value.fate.Threw? && !x.value.fate.Finished?)
    ensures EndsFit(Recorded(ends, x), jobs)
  {
    hide MayReturn, MayRaise;
  }

  // ----- the other operations -----

  lemma ClientCallFits(s: State, t: nat)
    requires Control(s) && Fits(s) && 0 < t < |s.calls|
    ensures Fits(Perform(s, t, CallEffect(s, t)))
  {
    var e := CallEffect(s, t);
    assert e.nest.Nothing? && (e.over.Just? ==> !e.over.value.fate.Threw? && !e.over.value.fate.Finished?) by {
      hide Ticked, Lookup, Fits, StackOk;
    }
    hide Control, CallEffect, StackFits, CallFits, PromisesFit, EndsFit, Ticked, Resume;
    RefusalFits(s.book.ends, e.over, s.book.jobs);
  }

  lemma EnterFits(s: State, t: nat, api: Api)
    requires Fits(s) && t < |s.calls| && s.calls[t].Idle?
    requires t == 0 ==> s.stack.Frames? && s.stack.top.phase.In? && s.stack.top.phase.rest.Do?
                        && s.stack.top.phase.rest.api == api
    ensures Fits(Enter(s, t, api))
  {
    var jobs := Enter(s, t, api).book.jobs;
    CallFitsLater(s.calls[0], s.stack, s.book.jobs, jobs);
    LogsGrow(s.promises, s.book.ends, s.book.jobs, jobs);
    hide StackFits, PromisesFit, EndsFit;
  }

  lemma CallFitsLater(c: Call, stack: Stack, jobs: seq<Work>, more: seq<Work>)
    requires CallFits(c, stack, jobs) && jobs <= more
    ensures CallFits(c, stack, more)
  {
  }

  lemma SetPhaseFits(stack: Stack, phase: Phase)
    requires StackFits(stack) && stack.Frames? && FrameFits(stack.top.(phase := phase))
    ensures StackFits(SetPhase(stack, phase))
  {
    hide FrameFits;
  }

  lemma StaysFits(s: State)
    requires Fits(s) && s.calls[0].Idle? && s.stack.Frames? && JobOk(s.stack.top.job, s.book.jobs)
    requires FrameOk(s.stack.top, s.stack.below) && ExecEffect(s.stack.top, s.closing, |s.book.jobs|).Stay?
    ensures Fits(Stays(s, ExecEffect(s.stack.top, s.closing, |s.book.jobs|)))
  {
    hide ExecEffect, FrameFits, MayReturn, MayRaise, EndsFit, Ticked, InCallOf;
    var f := s.stack.top;
    var e := ExecEffect(f, s.closing, |s.book.jobs|);
    StayEffectFits(f, s.stack.below, s.closing, |s.book.jobs|);
    SetPhaseFits(s.stack, e.phase);
    LogsGrow(s.promises, s.book.ends, s.book.jobs, Stays(s, e).book.jobs);
  }

  lemma StayEffectFits(f: Frame, below: Stack, closing: bool, id: nat)
    requires FrameOk(f, below) && FrameFits(f) && ExecEffect(f, closing, id).Stay?
    ensures var e := ExecEffect(f, closing, id);
      && FrameFits(f.(phase := e.phase))
      && (e.settle.Just? ==> e.settle.value.id == f.job.id && (!e.settle.value.ok ==> MayRaise(f.job.work.task)))
      && (e.call.Just? ==> FrameFits(e.call.value) && e.phase.Wrapped?)
  {
    hide MayReturn, MayRaise;
  }

  /** The caller of an activation that is over goes on on a path that its tree has. */
  lemma UnwindFits(stack: Stack, threw: bool)
    requires StackFits(stack) && StackOk(stack) && stack.Frames?
    requires threw ==> stack.top.via == FromWrapper(false) && MayRaise(stack.top.job.work.task)
    ensures StackFits(Unwind(stack, threw))
  {
    var caller := stack.below;
    if caller.Frames? {
      assert FrameOk(stack.top, caller) && FrameOk(caller.top, caller.below);
      hide StackOk, MayRaise, MayReturn, MayThrow, StartedBy;
      if caller.top.phase.Wrapped? {
        SetPhaseFits(caller, Settle(stack.top.job.id, !threw));
      } else if !(stack.top.job.work.Sync? && !threw) {
        ResumeFits(caller, true);
      }
    }
  }

  lemma OverCallFits(s: State, fate: Fate, threw: bool)
    requires Fits(s) && StackOk(s.stack) && s.stack.Frames? && JobOk(s.stack.top.job, s.book.jobs)
    ensures CallFits(IsOver(s, fate, threw).calls[0], IsOver(s, fate, threw).stack, s.book.jobs)
  {
    hide MayRaise, MayReturn, FrameFits, PromisesFit, EndsFit, StackOk;
  }

  lemma OverFits(s: State, fate: Fate, threw: bool)
    requires Inv(s) && Fits(s) && s.stack.Frames? && s.calls[0].Idle?
    requires ExecEffect(s.stack.top, s.closing, |s.book.jobs|) == Over(fate, threw)
    ensures Fits(IsOver(s, fate, threw))
  {
    var f := s.stack.top;
    assert StackOk(s.stack) && JobOk(f.job, s.book.jobs) && FrameOk(f, s.stack.below);
    hide Inv;
    OverEndFits(f, s.closing, s.book.jobs, fate, threw);
    hide ExecEffect;
    UnwindFits(s.stack, threw);
    OverCallFits(s, fate, threw);
    hide StackOk, MayRaise, MayReturn, Unwind, CallFits, EndFits;
  }

  lemma OverEndFits(f: Frame, closing: bool, jobs: seq<Work>, fate: Fate, threw: bool)
    requires FrameFits(f) && JobOk(f.job, jobs) && ExecEffect(f, closing, |jobs|) == Over(fate, threw)
    requires f.phase.In? && !f.job.work.Plain? ==> f.phase.rest == Return
    ensures EndFits(Ending(f.job.id, fate), jobs)
    ensures threw ==> f.via == FromWrapper(false) && MayRaise(f.job.work.task)
  {
  }

  lemma ExecFits(s: State)
    requires Inv(s) && Fits(s) && s.stack.Frames? && s.calls[0].Idle?
    ensures Fits(ExecStep(s))
  {
    var e := ExecEffect(s.stack.top, s.closing, |s.book.jobs|);
    assert JobOk(s.stack.top.job, s.book.jobs) && FrameOk(s.stack.top, s.stack.below);
    assert e.Call? ==> s.stack.top.phase.In? && s.stack.top.phase.rest.Do? && s.stack.top.phase.rest.api == e.api;
    hide Inv, ExecEffect, Stays, IsOver, Enter, Fits;
    match e
    case Stay(_, _, _, _, _) => StaysFits(s);
    case Call(api) => EnterFits(s, 0, api);
    case Over(fate, threw) => OverFits(s, fate, threw);
    case Still =>
  }

  lemma AsideFits(s: State, s': State)
    requires Fits(s) && s'.calls == s.calls && s'.stack == s.stack && s'.promises == s.promises
    requires s'.book.ends == s.book.ends && s'.book.jobs == s.book.jobs
    ensures Fits(s')
  {
    hide StackFits, CallFits, PromisesFit, EndsFit;
  }

  lemma DequeueFits(s: State)
    requires Fits(s) && s.queue != [] && s.stack.Empty?
    ensures s.queue[0].Run? ==> Fits(DequeuesJob(s))
    ensures s.queue[0].Marker? ==> Fits(DequeuesMarker(s))
  {
    hide PromisesFit, EndsFit;
  }

  lemma WorkerFits(s: State)
    requires Inv(s) && Fits(s) && s.calls[0].Idle?
    ensures Fits(WorkerStep(s))
  {
    assert s.calls != [];
    hide Inv, Fits, ExecStep, DequeuesJob, DequeuesMarker, Clock;
    if s.worker.Loop? && s.stack.Frames? {
      ExecFits(s);
    } else if s.worker.Loop? && !s.stopped && s.queue != [] {
      DequeueFits(s);
    } else {
      WorkerIsClock(s);
      ClockFits(s, WorkerStep(s));
    }
  }

  lemma ClockFits(s: State, s': State)
    requires Fits(s) && Clock(s, s')
    ensures Fits(s')
  {
    hide Fits;
    AsideFits(s, s');
  }

  lemma StepFits(s: State, l: Label)
    requires Inv(s) && Fits(s)
    ensures Fits(Next(s, l))
  {
    assert Control(s) && s.calls != [];
    hide Inv, Control, Fits;
    match l {
      case Begin(t, api) =>
        hide Enter;
        if Free(s, t) {
          EnterFits(s, t, api);
        }
      case BeginJoin(t) =>
        if Free(s, t) {
          JoinFits(s, t);
        }
      case Step(t) =>
        ThreadNext(s, t);
        hide Next, WorkerStep, Perform, CallEffect, Blocked;
        if t == 0 && s.calls[0].Idle? {
          WorkerFits(s);
        } else if t < |s.calls| && !Blocked(s, t) {
          if t == 0 {
            WorkerCallFits(s);
          } else {
            ClientCallFits(s, t);
          }
        }
      case Expire(i) =>
        if i < |s.armed| {
          AsideFits(s, Fires(s, i));
        }
      case StartFails => AsideFits(s, Next(s, l));
    }
  }

  lemma JoinFits(s: State, t: nat)
    requires Fits(s) && 0 < t < |s.calls|
    ensures Fits(s.(calls := s.calls[t := Join]))
  {
    hide StackFits, CallFits, PromisesFit, EndsFit;
  }

  lemma {:induction false} RunFits(s: State, ls: seq<Label>)
    requires Inv(s) && Fits(s)
    ensures Fits(Exec(s, ls))
  {
    if ls != [] {
      RunFits(s, ls[..|ls| - 1]);
      RunKeeps(s, ls[..|ls| - 1]);
      StepFits(Exec(s, ls[..|ls| - 1]), ls[|ls| - 1]);
    }
    hide Inv, Fits, Next;
  }

  lemma ReachableFits(s: State)
    requires Reachable(s)
    ensures Fits(s)
  {
    var capacity: nat, clients: nat, ls: seq<Label> :| s == Exec(Init(capacity, clients), ls);
    InitInv(capacity, clients);
    assert Fits(Init(capacity, clients));
    hide Inv, Fits, Exec;
    RunFits(Init(capacity, clients), ls);
  }

  // ----- what is recorded of a task -----

  lemma {:induction false} RecordedFits(ends: Log<Ending>, jobs: seq<Work>, k: nat)
    requires EndsFit(ends, jobs) && k < |jobs|
    ensures !MayRaise(jobs[k].task) ==> TotalLog(ends, ThrewEnd(k)) == 0
    ensures jobs[k].Plain? && !MayReturn(jobs[k].task) ==> TotalLog(ends, FinishedEnd(k)) == 0
  {
    if ends.Add? {
      RecordedFits(ends.earlier, jobs, k);
    }
    hide MayRaise, MayReturn;
  }

  /** In every run a body ends as its tree of calls allows: one that cannot end normally is
      never recorded as finished and adds nothing to tasks_run_; one that cannot throw is never
      recorded as having thrown, and its caller gets no exception from a promise. */
  lemma FateFollowsTask(s: State, k: nat)
    requires Reachable(s) && k < |s.book.jobs|
    ensures s.book.jobs[k].Plain? && !MayReturn(s.book.jobs[k].task) ==>
      TotalLog(s.book.ends, FinishedEnd(k)) == 0 && TotalLog(s.book.trace, NormalAs(k)) == 0
    ensures !MayRaise(s.book.jobs[k].task) ==>
      TotalLog(s.book.ends, ThrewEnd(k)) == 0 && !Lookup(s.promises, k).Exception?
  {
    ReachableInv(s);
    ReachableFits(s);
    LedgerAt(s, k);
    RecordedFits(s.book.ends, s.book.jobs, k);
    if Lookup(s.promises, k).Exception? {
      ExceptionFits(s.promises, s.book.jobs, k);
    }
    hide Inv, TotalLog, MayRaise, MayReturn, Reachable, Mass;
  }

  /** In particular a body all of whose paths end with an exception never counts as run, and
      one all of whose paths end normally never throws. */
  lemma LeavesDecideFate(s: State, k: nat)
    requires Reachable(s) && k < |s.book.jobs|
    ensures s.book.jobs[k].Plain? && Always(s.book.jobs[k].task, Raise) ==>
      TotalLog(s.book.ends, FinishedEnd(k)) == 0 && TotalLog(s.book.trace, NormalAs(k)) == 0
    ensures Always(s.book.jobs[k].task, Return) ==>
      TotalLog(s.book.ends, ThrewEnd(k)) == 0 && !Lookup(s.promises, k).Exception?
  {
    FateFollowsTask(s, k);
    LeavesDecide(s.book.jobs[k].task);
    hide Reachable, TotalLog, MayRaise, MayReturn, Always;
  }
}
