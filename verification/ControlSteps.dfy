/** Where the worker and the clients can be: `Control` and `Jobs` are kept by each kind
    of step. */
module ControlSteps {
  import opened Tasks
  import opened Machine
  import opened Counting
  import opened Invariant

  // ----- Control -----

  lemma ResumeOk(stack: Stack, normal: bool)
    requires StackOk(stack)
    ensures StackOk(Resume(stack, normal))
    ensures Resume(stack, normal).Frames? <==> stack.Frames?
    ensures stack.Frames? && !stack.top.phase.Wrapped? ==> !Resume(stack, normal).top.phase.Wrapped?
  {
  }

  lemma NestOk(s: State)
    requires Control(s) && s.calls[0].Nest?
    ensures StackOk(Frames(Frame(s.calls[0].job, FromDispatch, Check), s.stack))
  {
    hide TotalLog;
  }

  lemma CallControl(s: State, t: nat)
    requires t < |s.calls| && !Blocked(s, t) && Control(s)
    ensures Control(Perform(s, t, CallEffect(s, t)))
  {
    hide Resume, Ticked, Lookup, TotalLog, StackOk;
    ResumeOk(s.stack, true);
    ResumeOk(s.stack, false);
    if s.calls[t].Nest? {
      NestOk(s);
    }
    match s.calls[t] {
      case PostCheck(_) => case PostReserve(_) => case PostRollback(_) => case PostEnqueue(_) =>
      case DispatchCheck(_) => case Nest(_) => case TimerCheck(_) => case TimerArm(_) =>
      case TokenEnqueue(_) => case CloseCheck => case ClosePost => case CloseStore =>
      case Await(_) => case Join =>
    }
  }

  lemma EnterControl(s: State, t: nat, api: Api)
    requires Control(s) && t < |s.calls| && s.started
    requires t == 0 ==> s.stack.Frames? && s.stack.top.phase.In? && s.stack.top.phase.rest.Do?
    ensures Control(Enter(s, t, api))
  {
  }

  lemma StaysControl(s: State)
    requires Control(s) && s.stack.Frames? && s.calls[0].Idle?
    requires ExecEffect(s.stack.top, s.closing, |s.book.jobs|).Stay?
    ensures Control(Stays(s, ExecEffect(s.stack.top, s.closing, |s.book.jobs|)))
  {
    var e := ExecEffect(s.stack.top, s.closing, |s.book.jobs|);
    assert StackOk(SetPhase(s.stack, e.phase));
    hide Ticked;
    match s.stack.top.phase {
      case Count => case Check => case Passed => case In(_) => case Settle(_, _) =>
    }
  }

  lemma UnwindOk(stack: Stack, threw: bool)
    requires StackOk(stack) && stack.Frames?
    ensures StackOk(Unwind(stack, threw))
    ensures Unwind(stack, threw).Frames? ==> !Unwind(stack, threw).top.phase.Wrapped?
    ensures Unwind(stack, threw).Frames? <==> stack.below.Frames?
  {
  }

  lemma OverControl(s: State, fate: Fate, threw: bool)
    requires Control(s) && s.stack.Frames? && s.calls[0].Idle?
    requires threw ==> s.stack.top.via == FromWrapper(false)
    requires fate.Finished? || fate.Threw? || fate.Dismissed?
    ensures Control(IsOver(s, fate, threw))
  {
    UnwindOk(s.stack, threw);
    assert s.stack.below.Frames? && !s.stack.below.top.phase.Wrapped? && s.stack.top.job.work.Sync? && !threw
           ==> Unwind(s.stack, threw) == s.stack.below;
    hide Unwind;
  }

  lemma MarkerControl(s: State)
    requires Control(s) && s.worker.Loop? && s.stack.Empty? && !s.stopped
    requires s.queue != [] && s.queue[0].Marker?
    ensures Control(DequeuesMarker(s))
  {
  }

  // ----- Jobs -----

  lemma StackJobsGrow(stack: Stack, jobs: seq<Work>, more: seq<Work>)
    requires StackJobs(stack, jobs)
    ensures StackJobs(stack, jobs + more)
  {
  }

  lemma JobsGrow(s: State, more: seq<Work>)
    requires Jobs(s)
    ensures Jobs(s.(book := s.book.(jobs := s.book.jobs + more)))
  {
    StackJobsGrow(s.stack, s.book.jobs, more);
  }

  lemma ResumeJobs(stack: Stack, normal: bool, jobs: seq<Work>)
    requires StackJobs(stack, jobs)
    ensures StackJobs(Resume(stack, normal), jobs)
  {
  }

  lemma UnwindJobs(stack: Stack, threw: bool, jobs: seq<Work>)
    requires StackJobs(stack, jobs) && stack.Frames?
    ensures StackJobs(Unwind(stack, threw), jobs)
  {
  }

  predicate Same(c: Call, j: Job) {
    Carrying(c) && c.job == j
  }

  /** An operation hands on the very job the thread was carrying. */
  predicate HandsOn(c: Call, e: Effect) {
    && (Carrying(e.next) ==> Same(c, e.next.job))
    && (e.enqueue.Just? && e.enqueue.value.Run? ==> Same(c, e.enqueue.value.job))
    && (e.arm.Just? ==> Same(c, e.arm.value))
    && (e.nest.Just? ==> Same(c, e.nest.value.job))
  }

  lemma CallHandsOn(s: State, t: nat)
    requires t < |s.calls|
    ensures HandsOn(s.calls[t], CallEffect(s, t))
  {
    hide Ticked, Lookup;
    match s.calls[t] {
      case PostCheck(_) => case PostReserve(_) => case PostRollback(_) => case PostEnqueue(_) =>
      case DispatchCheck(_) => case Nest(_) => case TimerCheck(_) => case TimerArm(_) =>
      case TokenEnqueue(_) => case _ =>
    }
  }

  lemma PerformJobs(s: State, t: nat, e: Effect)
    requires t < |s.calls| && Jobs(s) && HandsOn(s.calls[t], e)
    ensures Jobs(Perform(s, t, e))
  {
    ResumeJobs(s.stack, e.normal, s.book.jobs);
    hide Resume, Ticked;
  }

  lemma EntryJob(api: Api, jobs: seq<Work>)
    ensures var c := Entry(api, |jobs|);
      if api.Close? then !Carrying(c) else Carrying(c) && JobOk(c.job, jobs + [c.job.work])
  {
  }

  lemma EnterJobs(s: State, t: nat, api: Api)
    requires Jobs(s) && t < |s.calls|
    ensures Jobs(Enter(s, t, api))
  {
    hide Entry, JobOk, Carrying, StackJobs, QueueJobs, TimerJobs;
    var c := Entry(api, |s.book.jobs|);
    EntryJob(api, s.book.jobs);
    if !api.Close? {
      JobsGrow(s, [c.job.work]);
    }
  }

  lemma StaysJobs(s: State, e: FrameEffect)
    requires Jobs(s) && s.stack.Frames? && e.Stay?
    requires e.call.Just? ==> e.call.value.job.id == |s.book.jobs|
    ensures Jobs(Stays(s, e))
  {
    if e.call.Just? {
      JobsGrow(s, [e.call.value.job.work]);
    }
  }

  lemma OverJobs(s: State, fate: Fate, threw: bool)
    requires Jobs(s) && s.stack.Frames? && s.calls != []
    ensures Jobs(IsOver(s, fate, threw))
  {
    UnwindJobs(s.stack, threw, s.book.jobs);
    hide Unwind;
  }
}
