/** Whether a closed pipeline's worker will end, read off the state in which it is closed.
    Once closing_ is set, every call that a body makes returns normally, except that a
    PostSynchronously never returns; so the rest of every open body is determined. */
module Doom {
  import opened Tasks
  import opened Machine
  import opened Counting
  import opened Invariant
  import opened Growth
  import opened Rendezvous
  import opened Progress
  import opened Drain
  import opened Safety

  /** What the caller of an activation, or of a method, learns about it. */
  datatype Report =
    | Hangs               // nothing: it does not end
    | Silent              // it ends, and the caller then waits for a promise that stays unset
    | Back(normal: bool)  // it returns or throws

  /** The rest of a body while the pipeline is closing. */
  function Course(task: Task): Report {
    match task
    case Return => Back(true)
    case Raise => Back(false)
    case Do(api, ok, _) => if api.PostSynchronously? then Hangs else Course(ok)
  }

  /** What future.get() on promise k will do if nobody settles it any more. */
  function Told(promises: Log<Settled>, k: nat): Report {
    match Lookup(promises, k)
    case Unset => Silent
    case Value => Back(true)
    case Exception => Back(false)
  }

  /** What leaves activation f when its body takes course r. */
  function Caught(f: Frame, r: Report): Report {
    if r.Back? then Back(r.normal || f.AutoCatch()) else r
  }

  /** What the caller of the innermost activation learns. */
  function Reply(f: Frame, promises: Log<Settled>): Report {
    match f.phase
    case Count => if f.job.work.Sync? then Silent else Back(true)
    case Check => if f.job.work.Sync? then Silent else Back(true)
    case Passed => if f.job.work.Plain? then Caught(f, Course(f.job.work.task)) else Back(true)
    case In(rest) => if f.job.work.Sync? then Told(promises, f.job.id) else Caught(f, Course(rest))
    case Wrapped => Back(true)
    case Settle(_, ok) => if f.job.work.Sync? then Back(ok) else Back(true)
  }

  /** What the caller of a suspended activation learns once f's own call has reported r. */
  function Resumed(f: Frame, r: Report): Report {
    if !r.Back? then Hangs
    else match f.phase
      case In(Do(_, ok, ko)) => Caught(f, Course(if r.normal then ok else ko))
      case Wrapped => if f.job.work.Sync? then r else Back(true)
      case _ => Back(true)
  }

  /** One of the suspended activations of `stack` never goes on, its callee reporting r. */
  predicate Halts(stack: Stack, r: Report) {
    r.Hangs? || (stack.Frames? && (r.Silent? || Halts(stack.below, Resumed(stack.top, r))))
  }

  /** What the body that is inside a method learns from it. `room` says whether the next
      increment of the counter stays within the capacity. */
  function CallReport(c: Call, promises: Log<Settled>, room: bool): Report {
    match c
    case DispatchCheck(job) => if job.work.Sync? then Silent else Back(true)
    case Nest(job) => if job.work.Sync? then Silent else Back(true)
    case PostReserve(_) => Back(room)
    case PostRollback(_) => Back(false)
    case Await(k) => Told(promises, k)
    case _ => Back(true)
  }

  predicate DoomedAt(c: Call, stack: Stack, promises: Log<Settled>, room: bool) {
    stack.Frames? &&
    if c.Idle? then Halts(stack.below, Reply(stack.top, promises))
    else Halts(stack, CallReport(c, promises, room))
  }

  /** The worker will get stuck. Only for a body between the two tests of Post does this
      depend on the counter. */
  predicate Doomed(s: State, room: bool) {
    s.calls != [] && DoomedAt(s.calls[0], s.stack, s.promises, room)
  }

  /** If the counter stays as it is. */
  predicate DoomedNow(s: State) {
    Doomed(s, Ticked(s.count, Up) <= s.capacity)
  }

  lemma RoomSeldomMatters(s: State, a: bool, b: bool)
    requires s.calls != [] && !s.calls[0].PostReserve?
    ensures Doomed(s, a) == Doomed(s, b)
  {
  }

  // ----- promises that are not settled yet -----

  lemma CarriedIsUnset(s: State)
    requires Inv(s) && Carrying(s.calls[0]) && s.calls[0].job.work.Sync?
    ensures Told(s.promises, s.calls[0].job.id).Silent?
  {
    var k := s.calls[0].job.id;
    assert JobOk(s.calls[0].job, s.book.jobs);
    LedgerAt(s, k);
    TotalAtLeast(s.calls, 0, Unsettled(k).call);
    LookupCounts(s.promises, k);
    hide Control, Jobs, Order, Nesting, Waits, Owned, TotalLog, TotalStack;
  }

  lemma UndecidedIsUnset(s: State)
    requires Inv(s) && s.stack.Frames? && s.stack.top.job.work.Sync? && !s.stack.top.phase.In?
    ensures Told(s.promises, s.stack.top.job.id).Silent?
  {
    var k := s.stack.top.job.id;
    assert JobOk(s.stack.top.job, s.book.jobs);
    LedgerAt(s, k);
    LookupCounts(s.promises, k);
    hide Control, Jobs, Order, Nesting, Waits, Owned, TotalLog, Total;
  }

  // ----- the worker's operations -----

  /** A body inside a method, which is not a wrapper's. */
  predicate Calling(stack: Stack) {
    stack.Frames? && stack.top.phase.In? && stack.top.phase.rest.Do? && !stack.top.job.work.Sync?
  }

  /** Every operation inside a method moves on as its report says. */
  lemma CallReports(s: State, room: bool)
    requires s.calls != [] && s.closing && !s.calls[0].Idle? && !Blocked(s, 0) && !s.calls[0].Join?
    requires Carrying(s.calls[0]) && s.calls[0].job.work.Sync? ==>
      (s.calls[0].DispatchCheck? || s.calls[0].Nest?) && Told(s.promises, s.calls[0].job.id).Silent?
    requires s.calls[0].PostReserve? ==> room == (Ticked(s.count, Up) <= s.capacity)
    ensures var e, r := CallEffect(s, 0), CallReport(s.calls[0], s.promises, room);
      && (e.nest.Just? ==> e.next.Idle? && e.nest.value.phase.Check?
                           && (if e.nest.value.job.work.Sync? then r == Silent else r == Back(true)))
      && (e.nest.Nothing? && e.next.Idle? ==> r == Back(e.normal))
      && (e.nest.Nothing? && !e.next.Idle? ==> r == CallReport(e.next, s.promises, room))
  {
    hide Ticked, Lookup;
    match s.calls[0] {
      case PostCheck(_) => case PostReserve(_) => case PostRollback(_) => case PostEnqueue(_) =>
      case DispatchCheck(_) => case Nest(_) => case TimerCheck(_) => case TimerArm(_) =>
      case TokenEnqueue(_) => case CloseCheck => case ClosePost => case CloseStore =>
      case Await(_) => case Join => case Idle =>
    }
  }

  lemma ResumeAsReported(stack: Stack, normal: bool, promises: Log<Settled>, room: bool)
    requires Calling(stack)
    ensures DoomedAt(Idle, Resume(stack, normal), promises, room) == Halts(stack, Back(normal))
  {
    hide Course;
  }

  lemma CallKeepsDoom(s: State, room: bool)
    requires Inv(s) && s.closing && !s.calls[0].Idle? && !Blocked(s, 0)
    requires s.calls[0].PostReserve? ==> room == (Ticked(s.count, Up) <= s.capacity)
    ensures Doomed(Perform(s, 0, CallEffect(s, 0)), room) == Doomed(s, room)
  {
    if Carrying(s.calls[0]) && s.calls[0].job.work.Sync? {
      CarriedIsUnset(s);
    }
    assert Control(s) && !s.calls[0].Join?;
    hide Inv, Control, Ticked, CallEffect, CallReport, Resume, Blocked, Told, Calling;
    CallReports(s, room);
    ResumeAsReported(s.stack, CallEffect(s, 0).normal, s.promises, room);
    hide Perform, Course;
  }

  lemma StaysKeepDoom(s: State, room: bool)
    requires s.calls != [] && s.calls[0].Idle? && s.stack.Frames? && FrameOk(s.stack.top, s.stack.below)
    requires ExecEffect(s.stack.top, s.closing, |s.book.jobs|).Stay? && s.closing
    ensures Doomed(Stays(s, ExecEffect(s.stack.top, s.closing, |s.book.jobs|)), room) == Doomed(s, room)
  {
    assert Course(Return) == Back(true);
    hide Ticked, Course, Halts, Stays;
    StaysFields(s);
    var f := s.stack.top;
    if f.phase.Passed? && !f.job.work.Plain? {
      WrapperCalls(f.(phase := Wrapped), Inner(f.job.work, |s.book.jobs|), s.stack.below, s.promises);
    }
  }

  lemma StaysFields(s: State)
    requires s.stack.Frames? && ExecEffect(s.stack.top, s.closing, |s.book.jobs|).Stay?
    ensures var e := ExecEffect(s.stack.top, s.closing, |s.book.jobs|);
      var s', stays := Stays(s, e), SetPhase(s.stack, e.phase);
      && s'.calls == s.calls && s'.promises == Recorded(s.promises, e.settle)
      && s'.stack == (if e.call.Just? then Frames(e.call.value, stays) else stays)
  {
    hide ExecEffect, Ticked;
  }

  lemma WrapperCalls(f: Frame, inner: Frame, below: Stack, promises: Log<Settled>)
    requires f.phase.Wrapped? && (inner.phase.Count? || inner.phase.Check?) && inner.job.work.Plain?
    ensures Halts(Frames(f, below), Reply(inner, promises)) == Halts(below, Back(true))
  {
  }

  lemma EntersKeepDoom(s: State, api: Api, room: bool)
    requires s.calls != [] && s.calls[0].Idle? && s.stack.Frames? && FrameOk(s.stack.top, s.stack.below)
    requires s.stack.top.phase.In? && s.stack.top.phase.rest.Do? && s.stack.top.phase.rest.api == api
    ensures Doomed(Enter(s, 0, api), room) == Doomed(s, room)
  {
    EntryReports(api, |s.book.jobs|, s.promises, room);
    hide Entry, CallReport, Lookup;
  }

  lemma EntryReports(api: Api, id: nat, promises: Log<Settled>, room: bool)
    ensures var c := Entry(api, id);
      !c.Idle? && CallReport(c, promises, room) == if api.PostSynchronously? then Silent else Back(true)
  {
  }

  lemma OversKeepDoom(s: State, fate: Fate, threw: bool, room: bool)
    requires s.calls != [] && s.calls[0].Idle? && s.stack.Frames? && StackOk(s.stack)
    requires ExecEffect(s.stack.top, true, |s.book.jobs|) == Over(fate, threw)
    requires s.stack.top.job.work.Sync? && !s.stack.top.phase.In? ==>
      Told(s.promises, s.stack.top.job.id).Silent?
    ensures Doomed(IsOver(s, fate, threw), room) == Doomed(s, room)
  {
    assert FrameOk(s.stack.top, s.stack.below);
    assert Doomed(s, room) == Halts(s.stack.below, Reply(s.stack.top, s.promises)) by {
      hide Reply, Halts, StackOk;
    }
    hide ExecEffect, StackOk, Told, Reply, Unwind, Halts, IsOver, DoomedAt;
    OverFields(s, fate, threw);
  }

  lemma OverFields(s: State, fate: Fate, threw: bool)
    requires s.calls != [] && s.stack.Frames?
    ensures var f, s' := s.stack.top, IsOver(s, fate, threw);
      var waits := f.job.work.Sync? && !threw && s.stack.below.Frames? && !s.stack.below.top.phase.Wrapped?;
      && s'.calls != [] && s'.calls[0] == (if waits then Await(f.job.id) else Idle)
      && s'.stack == Unwind(s.stack, threw) && s'.promises == s.promises
  {
    hide Unwind;
  }

  lemma ExecKeepsDoom(s: State, room: bool)
    requires Inv(s) && s.closing && s.calls[0].Idle? && s.stack.Frames?
    ensures Doomed(ExecStep(s), room) == Doomed(s, room)
  {
    var f := s.stack.top;
    var e := ExecEffect(f, true, |s.book.jobs|);
    if f.job.work.Sync? && !f.phase.In? {
      UndecidedIsUnset(s);
    }
    assert StackOk(s.stack) && FrameOk(f, s.stack.below);
    assert e.Call? ==> f.phase.In? && f.phase.rest.Do? && f.phase.rest.api == e.api;
    hide Inv, Doomed, ExecEffect, Stays, IsOver, Enter, Told, StackOk;
    match e
    case Stay(_, _, _, _, _) => StaysKeepDoom(s, room);
    case Call(api) => EntersKeepDoom(s, api, room);
    case Over(fate, threw) => OversKeepDoom(s, fate, threw, room);
    case Still =>
  }

  lemma WorkerKeepsDoom(s: State, room: bool)
    requires Inv(s) && s.closing && s.calls[0].Idle?
    ensures Doomed(WorkerStep(s), room) == Doomed(s, room)
  {
    if s.worker.Loop? && s.stack.Frames? {
      ExecKeepsDoom(s, room);
    } else if s.worker.Loop? && !s.stopped && s.queue != [] {
    } else {
      WakingIsClock(s, WorkerStep(s));
    }
    hide Inv, Doomed, Clock, ExecStep, DequeuesJob, DequeuesMarker;
  }

  /** The worker's own place, and what it reads there. */
  predicate Aside(s: State, s': State) {
    s'.calls != [] && s.calls != [] && s'.calls[0] == s.calls[0] && s'.stack == s.stack
    && s'.promises == s.promises
  }

  lemma OthersStandAside(s: State, l: Label)
    requires Control(s) && l != Step(0)
    ensures Aside(s, Next(s, l))
  {
    hide WorkerStep, CallEffect, Entry, StackOk, TotalLog, Blocked;
    if l.Step? && l.t < |s.calls| {
      assert CallEffect(s, l.t).nest.Nothing? by { OnlyTheWorkerNests(s, l.t); }
    }
  }

  lemma OnlyTheWorkerNests(s: State, t: nat)
    requires t < |s.calls| && !s.calls[t].Nest?
    ensures CallEffect(s, t).nest.Nothing?
  {
    hide Ticked, Lookup;
  }

  /** No operation of anyone changes whether the worker of a closed pipeline gets stuck,
      except that the counter decides at the second test of Post. */
  lemma StepKeepsDoom(s: State, l: Label, room: bool)
    requires Inv(s) && s.closing
    requires l == Step(0) && s.calls[0].PostReserve? ==> room == (Ticked(s.count, Up) <= s.capacity)
    ensures Doomed(Next(s, l), room) == Doomed(s, room)
  {
    assert Control(s) && s.calls != [];
    if l != Step(0) {
      OthersStandAside(s, l);
    } else {
      ThreadNext(s, 0);
      hide Next, Inv, WorkerStep, Perform, CallEffect, Blocked;
      if s.calls[0].Idle? {
        WorkerKeepsDoom(s, room);
      } else if !Blocked(s, 0) {
        CallKeepsDoom(s, room);
      }
    }
    hide Inv, DoomedAt, Control, Next, Ticked;
  }

  // ----- runs -----

  /** What the counter says at the worker's first operation within `ls`. */
  function Room(s: State, ls: seq<Label>): bool {
    if ls == [] then true
    else
      var before := ls[..|ls| - 1];
      if Turns(before) > 0 then Room(s, before)
      else ls[|ls| - 1] == Step(0) ==> Ticked(Exec(s, before).count, Up) <= Exec(s, before).capacity
  }

  lemma WorkerEntersNoReserve(s: State)
    requires s.calls != [] && s.calls[0].Idle?
    ensures |WorkerStep(s).calls| == |s.calls| && !WorkerStep(s).calls[0].PostReserve?
  {
    if s.worker.Loop? && s.stack.Frames? {
      ExecEntersNoReserve(s);
    } else if !(s.worker.Loop? && !s.stopped && s.queue != []) {
      WakingIsClock(s, WorkerStep(s));
    }
    hide ExecStep;
  }

  lemma ExecEntersNoReserve(s: State)
    requires s.calls != [] && s.calls[0].Idle? && s.stack.Frames?
    ensures |ExecStep(s).calls| == |s.calls| && !ExecStep(s).calls[0].PostReserve?
  {
    hide Ticked, Unwind, ExecEffect;
    match ExecEffect(s.stack.top, s.closing, |s.book.jobs|) {
      case Stay(_, _, _, _, _) => case Call(_) => case Over(_, _) => case Still =>
    }
  }

  /** While the pipeline is closing the worker comes no further into Post than the first test. */
  lemma NoReserveAfterStep(s: State)
    requires s.calls != [] && s.closing
    ensures |Next(s, Step(0)).calls| == |s.calls| && !Next(s, Step(0)).calls[0].PostReserve?
  {
    ThreadNext(s, 0);
    if s.calls[0].Idle? {
      WorkerEntersNoReserve(s);
    }
    hide Next, WorkerStep, Resume, Ticked, Lookup;
  }

  lemma {:induction false} RunKeepsDoom(s: State, ls: seq<Label>, room: bool)
    requires Inv(s) && s.closing
    requires s.calls[0].PostReserve? && Turns(ls) > 0 ==> room == Room(s, ls)
    ensures Inv(Exec(s, ls)) && Exec(s, ls).closing
    ensures Doomed(Exec(s, ls), room) == Doomed(s, room)
    ensures Turns(ls) == 0 ==> Aside(s, Exec(s, ls))
    ensures Turns(ls) > 0 ==> !Exec(s, ls).calls[0].PostReserve?
  {
    if ls != [] {
      var before, l := ls[..|ls| - 1], ls[|ls| - 1];
      var s1 := Exec(s, before);
      RunKeepsDoom(s, before, room);
      StepKeeps(s1, l);
      StepGrows(s1, l);
      StepKeepsDoom(s1, l, room);
      if l == Step(0) {
        NoReserveAfterStep(s1);
      } else {
        OthersStandAside(s1, l);
      }
    }
    hide Doomed, Next, Ledger, Jobs, Accounts, Order, Closing, Nesting, Waits, Owned, StackOk, Ticked, TotalLog;
  }

  // ----- the end of a closed pipeline -----

  lemma StuckIsDoomed(s: State, room: bool)
    requires Control(s)
    ensures Stuck(s) ==> Doomed(s, room)
    ensures s.worker.Exited? ==> !Doomed(s, room)
  {
    hide StackOk, TotalLog;
  }

  /** Once closing_ is set, a number of the worker's own operations that depends on the
      queued work only -- not on what the other threads go on to do -- ends the worker, and
      whether it ends is settled by the state in which that is asked: by the open bodies,
      and for a body between the two tests of Post by the counter at the second. */
  lemma ClosedPipelineEnds(s: State, ls: seq<Label>)
    requires Reachable(s) && s.calls != [] && s.closing && Turns(ls) >= Rank(s)
    ensures Exec(s, ls).worker.Exited? <==> !Doomed(s, Room(s, ls))
    ensures !s.calls[0].PostReserve? ==> (Exec(s, ls).worker.Exited? <==> !Doomed(s, true))
  {
    hide Doomed, Exec, Room, Rank, Turns, Reachable;
    ReachableInv(s);
    ExitedUnlessStuck(s, ls);
    RunKeepsDoom(s, ls, Room(s, ls));
    StuckIsDoomed(Exec(s, ls), Room(s, ls));
    if !s.calls[0].PostReserve? {
      RoomSeldomMatters(s, Room(s, ls), true);
    }
    hide Ledger, Jobs, Accounts, Order, Closing, Nesting, Waits, Owned, Control;
  }

  /** A doomed worker never ends, however it is scheduled. */
  lemma DoomedNeverEnds(s: State, ls: seq<Label>)
    requires Reachable(s) && s.calls != [] && s.closing && Doomed(s, Room(s, ls))
    ensures !Exec(s, ls).worker.Exited?
  {
    ReachableInv(s);
    RunKeepsDoom(s, ls, Room(s, ls));
    StuckIsDoomed(Exec(s, ls), Room(s, ls));
    hide Ledger, Jobs, Accounts, Order, Closing, Nesting, Waits, Owned, Exec, Room, Reachable;
  }

  // ----- bodies that do not call PostSynchronously -----

  lemma {:induction false} TameCourse(task: Task)
    requires NoSync(task)
    ensures Course(task).Back?
  {
    if task.Do? {
      TameCourse(task.ok);
    }
  }

  lemma {:induction false} TameGoesOn(stack: Stack, r: Report)
    requires TameStack(stack) && r.Back?
    ensures !Halts(stack, r)
  {
    if stack.Frames? {
      var f := stack.top;
      if f.phase.In? && f.phase.rest.Do? {
        TameCourse(f.phase.rest.ok);
        TameCourse(f.phase.rest.ko);
      }
      TameGoesOn(stack.below, Resumed(f, r));
      hide Course, NoSync;
    }
  }

  lemma TameIsNotDoomed(s: State, room: bool)
    requires Tame(s) && Jobs(s)
    ensures !Doomed(s, room)
  {
    if s.stack.Frames? {
      var f := s.stack.top;
      assert JobOk(f.job, s.book.jobs) && NoSync(f.job.work.task);
      TameCourse(f.job.work.task);
      if f.phase.In? {
        TameCourse(f.phase.rest);
      }
      assert s.stack.below.Frames? ==> !f.job.work.Sync?;
      if s.calls[0].Idle? {
        if Reply(f, s.promises).Back? {
          TameGoesOn(s.stack.below, Reply(f, s.promises));
        } else {
          assert s.stack.below.Empty? && !Reply(f, s.promises).Hangs?;
        }
      } else {
        TameGoesOn(s.stack, CallReport(s.calls[0], s.promises, room));
      }
    }
    hide Course, NoSync, TameStack, StackJobs, Lookup;
  }

  /** A pipeline whose submitted bodies never call PostSynchronously ends after being closed,
      in every run that schedules the worker often enough, whatever is submitted later. */
  lemma ClosedTamePipelineEnds(capacity: nat, clients: nat, before: seq<Label>, after: seq<Label>)
    requires forall i | 0 <= i < |before| :: TameLabel(before[i])
    requires Exec(Init(capacity, clients), before).closing
    requires Exec(Init(capacity, clients), before).calls != []
    requires Turns(after) >= Rank(Exec(Init(capacity, clients), before))
    ensures Exec(Exec(Init(capacity, clients), before), after).worker.Exited?
  {
    var s0 := Init(capacity, clients);
    var s := Exec(s0, before);
    InitInv(capacity, clients);
    RunKeeps(s0, before);
    assert Tame(s0);
    TameRun(s0, before);
    assert Reachable(s) && Jobs(s);
    hide Inv, Exec, Rank, Room, Doomed;
    TameIsNotDoomed(s, Room(s, after));
    ClosedPipelineEnds(s, after);
  }
}
