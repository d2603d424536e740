/** Dispatch on the worker is a function call; Post never nests. */
module Dispatching {
  import opened Tasks
  import opened Machine
  import opened Counting
  import opened Invariant
  import opened PromiseSteps
  import opened Growth
  import opened Safety

  /** The begin and end events of all bodies form a well-bracketed word whose open brackets
      are the activations on the worker's stack and whose outermost brackets are the
      dequeued handlers, in queue order. */
  lemma BodiesNest(s: State)
    requires Reachable(s)
    ensures Bracketed(s.book.trace)
    ensures Open(s.book.trace) == OpenFrames(s.stack)
    ensures s.stack.Empty? ==> Open(s.book.trace) == Start
    ensures |Tops(s.book.trace)| == |s.book.ran|
    ensures forall i | 0 <= i < |s.book.ran| ::
              s.book.ran[i].Run? && Tops(s.book.trace)[i] == s.book.ran[i].job.id
  {
    ReachableInv(s);
  }

  /** The activation directly above `below` is that of submission k. */
  predicate Above(stack: Stack, below: Stack, k: nat) {
    stack.Frames?
    && (if stack.below == below then stack.top.job.id == k else Above(stack.below, below, k))
  }

  lemma UnwindAbove(stack: Stack, threw: bool, below: Stack, k: nat)
    requires stack.Frames? && stack.below != below && Above(stack, below, k)
    ensures Above(Unwind(stack, threw), below, k)
  {
  }

  /** Submission k is still being executed on top of `below`, or it is over. */
  predicate Nested(s: State, below: Stack, k: nat) {
    Above(s.stack, below, k) || TotalLog(s.book.ends, EndOf(k)) > 0
  }

  lemma {:induction false} Deeper(stack: Stack, below: Stack, k: nat)
    requires Above(stack, below, k)
    ensures stack != below && below < stack
  {
    if stack.below != below {
      Deeper(stack.below, below, k);
    }
  }

  lemma PerformNested(s: State, t: nat, e: Effect, below: Stack, k: nat)
    requires t < |s.calls| && Nested(s, below, k)
    ensures Nested(Perform(s, t, e), below, k)
  {
    if Above(s.stack, below, k) {
      Deeper(s.stack, below, k);
    }
    hide Resume, Ticked;
  }

  lemma StaysNested(s: State, e: FrameEffect, below: Stack, k: nat)
    requires s.stack.Frames? && e.Stay? && Nested(s, below, k)
    ensures Nested(Stays(s, e), below, k)
  {
    if Above(s.stack, below, k) {
      Deeper(s.stack, below, k);
      var stays := SetPhase(s.stack, e.phase);
      assert Above(stays, below, k);
      Deeper(stays, below, k);
    }
    hide Ticked;
  }

  lemma OverNested(s: State, fate: Fate, threw: bool, below: Stack, k: nat)
    requires s.stack.Frames? && s.calls != [] && Nested(s, below, k)
    ensures Nested(IsOver(s, fate, threw), below, k)
  {
    hide Unwind;
    if Above(s.stack, below, k) && s.stack.below != below {
      UnwindAbove(s.stack, threw, below, k);
    }
  }

  lemma ExecNested(s: State, below: Stack, k: nat)
    requires s.stack.Frames? && s.calls != [] && Nested(s, below, k)
    ensures Nested(ExecStep(s), below, k)
  {
    hide ExecEffect, Stays, IsOver;
    match ExecEffect(s.stack.top, s.closing, |s.book.jobs|)
    case Stay(_, _, _, _, _) =>
      StaysNested(s, ExecEffect(s.stack.top, s.closing, |s.book.jobs|), below, k);
    case Call(api) =>
    case Over(fate, threw) => OverNested(s, fate, threw, below, k);
    case Still =>
  }

  lemma WorkerNested(s: State, below: Stack, k: nat)
    requires s.calls != [] && Nested(s, below, k)
    ensures Nested(WorkerStep(s), below, k)
  {
    hide ExecStep, TotalLog;
    match s.worker
    case Loop =>
      if s.stack.Frames? {
        ExecNested(s, below, k);
      } else {
        assert !Above(s.stack, below, k);
      }
    case Spawned => case Locked => case Shut => case Stopping => case Leaving =>
    case Exited => case Failed => case Escaped =>
  }

  lemma StepNested(s: State, l: Label, below: Stack, k: nat)
    requires s.calls != [] && Nested(s, below, k)
    ensures Nested(Next(s, l), below, k)
  {
    match l {
      case Begin(_, _) =>
      case BeginJoin(_) =>
      case Expire(_) =>
      case StartFails =>
      case Step(t) =>
        if t < |s.calls| {
          WorkerNested(s, below, k);
          PerformNested(s, t, CallEffect(s, t), below, k);
        }
    }
    hide CallEffect, Perform, WorkerStep, Blocked, TotalLog, Entry, Above;
  }

  /** Dispatch of `job` from a body: the job starts at once, above the dispatching body, on
      an untouched counter and queue; and in every continuation of the run the dispatching
      body and everything below it stay exactly as they are until the job is over. */
  lemma {:induction false} DispatchCompletesInPlace(s: State, ls: seq<Label>)
    requires Reachable(s) && s.calls != [] && s.calls[0].Nest?
    ensures var s1 := Next(s, Step(0));
      && s1.stack == Frames(Frame(s.calls[0].job, FromDispatch, Check), s.stack)
      && s1.count == s.count && s1.queue == s.queue
      && Nested(Exec(s1, ls), s.stack, s.calls[0].job.id)
  {
    ReachableInv(s);
    var s1 := Next(s, Step(0));
    if ls != [] {
      var before := ls[..|ls| - 1];
      DispatchCompletesInPlace(s, before);
      RunGrows(s1, before);
      StepNested(Exec(s1, before), ls[|ls| - 1], s.stack, s.calls[0].job.id);
    }
    hide Inv;
  }

  // ----- Dispatch is not Post -----

  /** No thread is posting submission k, and it did not end for lack of capacity: if it is
      with its submitter at all, it is in the worker's own Dispatch. */
  predicate Unposted(s: State, k: nat) {
    && k < |s.book.jobs| && TotalLog(s.book.ends, CapacityEnd(k)) == 0
    && (forall t | 0 <= t < |s.calls| && Carrying(s.calls[t]) && s.calls[t].job.id == k ::
          t == 0 && (s.calls[t].DispatchCheck? || s.calls[t].Nest?))
  }

  /** Moreover it is neither armed nor queued: it is in the worker's Dispatch, on its stack,
      or over. */
  predicate Direct(s: State, k: nat) {
    && Unposted(s, k)
    && (forall i | 0 <= i < |s.armed| :: s.armed[i].id != k)
    && (forall i | 0 <= i < |s.queue| :: s.queue[i].Run? ==> s.queue[i].job.id != k)
  }

  lemma NotQueued(queue: seq<Handler>, k: nat)
    requires Total(queue, At(k).handler) == 0
    ensures forall i | 0 <= i < |queue| :: queue[i].Run? ==> queue[i].job.id != k
  {
    forall i | 0 <= i < |queue|
      ensures queue[i].Run? ==> queue[i].job.id != k
    {
      TotalAtLeast(queue, i, At(k).handler);
    }
  }

  lemma {:induction false} CapacityIsAnEnd(ends: Log<Ending>, k: nat)
    ensures TotalLog(ends, CapacityEnd(k)) <= TotalLog(ends, EndOf(k))
  {
    if ends.Add? {
      CapacityIsAnEnd(ends.earlier, k);
    }
  }

  lemma DispatchIsDirect(s: State)
    requires Inv(s) && s.calls[0].DispatchCheck?
    ensures Direct(s, s.calls[0].job.id)
  {
    var k := s.calls[0].job.id;
    LedgerAt(s, k);
    TotalAtLeast(s.calls, 0, At(k).call);
    NotArmed(s.armed, k);
    NotQueued(s.queue, k);
    CapacityIsAnEnd(s.book.ends, k);
    forall t | 0 < t < |s.calls|
      ensures !(Carrying(s.calls[t]) && s.calls[t].job.id == k)
    {
      OnlyCarrier(s, 0, t);
    }
    assert JobOk(s.calls[0].job, s.book.jobs);
    hide Total, TotalLog, TotalStack, Ledger, StackOk, StackJobs;
  }

  lemma PerformDirect(s: State, t: nat, k: nat)
    requires t < |s.calls| && Unposted(s, k)
    ensures Unposted(Perform(s, t, CallEffect(s, t)), k)
    ensures Direct(s, k) ==> Direct(Perform(s, t, CallEffect(s, t)), k)
  {
    hide Resume, Ticked, TotalLog;
    var e := CallEffect(s, t);
    EffectDirect(s, t, k);
    assert e.over.Just? ==> CapacityEnd(k)(e.over.value) == 0;
    RecordedDirect(s.book.ends, e.over, k);
    hide CallEffect;
  }

  lemma RecordedDirect(ends: Log<Ending>, x: Maybe<Ending>, k: nat)
    requires x.Just? ==> CapacityEnd(k)(x.value) == 0
    ensures TotalLog(Recorded(ends, x), CapacityEnd(k)) == TotalLog(ends, CapacityEnd(k))
  {
  }

  lemma EffectDirect(s: State, t: nat, k: nat)
    requires t < |s.calls| && Unposted(s, k)
    ensures var e := CallEffect(s, t);
      && (Carrying(e.next) && e.next.job.id == k ==> t == 0 && e.next.Nest?)
      && (e.enqueue.Just? && e.enqueue.value.Run? ==> e.enqueue.value.job.id != k)
      && (e.arm.Just? ==> e.arm.value.id != k)
      && (e.over.Just? ==> CapacityEnd(k)(e.over.value) == 0)
  {
    hide Ticked, Lookup, TotalLog;
    match s.calls[t] {
      case PostCheck(_) => case PostReserve(_) => case PostRollback(_) => case PostEnqueue(_) =>
      case DispatchCheck(_) => case Nest(_) => case TimerCheck(_) => case TimerArm(_) =>
      case TokenEnqueue(_) => case CloseCheck => case ClosePost => case CloseStore => case _ =>
    }
  }

  /** Operations of the worker outside the pipeline's methods. */
  predicate Leaves(s: State, s': State, k: nat) {
    && |s.book.jobs| <= |s'.book.jobs| && |s'.calls| == |s.calls| && s'.armed == s.armed
    && TotalLog(s'.book.ends, CapacityEnd(k)) == TotalLog(s.book.ends, CapacityEnd(k))
    && (forall t | 0 < t < |s.calls| :: s'.calls[t] == s.calls[t])
    && (s.calls != [] && Carrying(s'.calls[0]) ==>
          s'.calls[0] == s.calls[0] || s'.calls[0].job.id >= |s.book.jobs|)
    && (s'.queue == s.queue || (s.queue != [] && s'.queue == s.queue[1..]))
  }

  lemma StaysLeaves(s: State, e: FrameEffect, k: nat)
    requires s.stack.Frames? && e.Stay?
    ensures Leaves(s, Stays(s, e), k)
  {
    hide Ticked, TotalLog;
  }

  lemma EnterLeaves(s: State, api: Api, k: nat)
    requires s.calls != []
    ensures Leaves(s, Enter(s, 0, api), k)
  {
    assert Carrying(Entry(api, |s.book.jobs|)) ==> Entry(api, |s.book.jobs|).job.id == |s.book.jobs|;
    hide Entry, TotalLog;
  }

  lemma OverLeaves(s: State, fate: Fate, threw: bool, k: nat)
    requires s.stack.Frames? && s.calls != [] && !fate.RefusedCapacity?
    ensures Leaves(s, IsOver(s, fate, threw), k)
  {
    hide Unwind;
  }

  lemma ExecLeaves(s: State, k: nat)
    requires s.stack.Frames? && s.calls != []
    ensures Leaves(s, ExecStep(s), k)
  {
    var e := ExecEffect(s.stack.top, s.closing, |s.book.jobs|);
    assert e.Over? ==> !e.fate.RefusedCapacity?;
    assert Leaves(s, s, k);
    hide ExecEffect, Stays, IsOver, Enter, Leaves;
    match e
    case Stay(_, _, _, _, _) => StaysLeaves(s, e, k);
    case Call(api) => EnterLeaves(s, api, k);
    case Over(fate, threw) => OverLeaves(s, fate, threw, k);
    case Still =>
  }

  lemma WorkerLeaves(s: State, k: nat)
    requires s.calls != [] && s.calls[0].Idle?
    ensures Leaves(s, WorkerStep(s), k)
  {
    if s.worker.Loop? && s.stack.Frames? {
      ExecLeaves(s, k);
    } else if s.worker.Loop? && !s.stopped && s.queue != [] {
    } else {
      WakingIsClock(s, WorkerStep(s));
    }
    hide Leaves, ExecStep, DequeuesJob, DequeuesMarker, Clock;
  }

  lemma StepDirect(s: State, l: Label, k: nat)
    requires s.calls != [] && Unposted(s, k)
    ensures Unposted(Next(s, l), k) && (Direct(s, k) ==> Direct(Next(s, l), k))
  {
    if l.Step? {
      ThreadNext(s, l.t);
      hide Next, CallEffect, Perform, WorkerStep, Blocked, Unposted, Direct;
      if l.t == 0 && s.calls[0].Idle? {
        WorkerLeaves(s, k);
      } else if l.t < |s.calls| {
        PerformDirect(s, l.t, k);
      }
    } else {
      ClientsDirect(s, l, k);
    }
    hide Unposted, Direct, Next;
  }

  lemma ClientsDirect(s: State, l: Label, k: nat)
    requires s.calls != [] && Unposted(s, k) && !l.Step?
    ensures Unposted(Next(s, l), k) && (Direct(s, k) ==> Direct(Next(s, l), k))
  {
    hide CallStep, WorkerStep, TotalLog;
    match l {
      case Begin(_, _) =>
      case BeginJoin(_) =>
      case Expire(_) =>
      case StartFails =>
      case Step(_) =>
    }
  }

  /** A task that a body hands to Dispatch, at any depth, is in no continuation queued,
      counted against the capacity or refused for lack of it: it starts in place, or the
      pipeline is closing. */
  lemma {:induction false} DispatchIsNeverRefused(s: State, ls: seq<Label>)
    requires Reachable(s) && s.calls != [] && s.calls[0].DispatchCheck?
    ensures Direct(Exec(s, ls), s.calls[0].job.id)
    ensures var s1 := Next(s, Step(0)); var job := s.calls[0].job;
      && s1.count == s.count && s1.queue == s.queue
      && (!s.closing ==> s1.calls[0] == Nest(job) && s1.book.ends == s.book.ends)
      && (s.closing ==> s1.book.ends == Add(s.book.ends, Ending(job.id, RefusedClosing)))
  {
    ReachableInv(s);
    DispatchIsDirect(s);
    if ls != [] {
      var before := ls[..|ls| - 1];
      DispatchIsNeverRefused(s, before);
      RunGrows(s, before);
      StepDirect(Exec(s, before), ls[|ls| - 1], s.calls[0].job.id);
      assert Unposted(Exec(s, before), s.calls[0].job.id);
    }
    hide Inv, Unposted, Ticked, Resume;
  }

  /** A task posted by a body is queued behind everything else: no activation starts. */
  lemma PostNeverNests(s: State)
    requires Reachable(s) && s.calls != [] && s.calls[0].PostEnqueue?
    ensures var s1 := Next(s, Step(0));
      && s1.queue == s.queue + [Run(s.calls[0].job, Posted)]
      && s.stack.Frames? && s1.stack.Frames? && s1.stack.below == s.stack.below
      && s1.stack.top.job == s.stack.top.job && s1.book.trace == s.book.trace
  {
    ReachableInv(s);
    hide Ledger, Jobs, Accounts, Order, Closing, Nesting, Waits, Owned, Ticked;
  }
}
