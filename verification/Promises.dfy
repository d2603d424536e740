/** A wrapper hands over exactly what the task inside did: PostSynchronously its return or its
    exception, PostWithPromise its exception and nothing else. */
module Promises {
  import opened Tasks
  import opened Machine
  import opened Counting
  import opened Invariant
  import opened Growth
  import opened Conservation
  import opened Safety

  /** The submission for which the wrapper of submission k has called ExecTask_. */
  function InnerOf(inside: Log<Inside>, k: nat): Maybe<nat> {
    match inside
    case Start => Nothing
    case Add(earlier, x) => if x.wrapper == k then Just(x.inner) else InnerOf(earlier, k)
  }

  /** Each activation that a wrapper called is the one recorded for that wrapper. */
  predicate StackInner(stack: Stack, inside: Log<Inside>) {
    match stack
    case Empty => true
    case Frames(f, below) =>
      && (f.via.FromWrapper? && below.Frames? ==> InnerOf(inside, below.top.job.id) == Just(f.job.id))
      && StackInner(below, inside)
  }

  predicate TopInner(stack: Stack, inside: Log<Inside>) {
    stack.Frames? && stack.top.phase.Settle? ==>
      InnerOf(inside, stack.top.job.id) == Just(stack.top.phase.inner)
  }

  /** The wrapper of submission k has reported: it is about to return, or it has. */
  predicate Late(s: State, k: nat) {
    && k < |s.book.jobs| && !s.book.jobs[k].Plain?
    && (TotalLog(s.book.ends, RanEnd(k)) > 0
        || (s.stack.Frames? && s.stack.top.job.id == k && s.stack.top.phase.In?))
  }

  /** The promise of a wrapper around `work`, when the task inside is over. */
  function Answer(work: Work, threw: bool): Promise {
    if threw then (if work.Resuming? then Unset else Exception)
    else (if work.Sync? then Value else Unset)
  }

  predicate Answered(s: State, k: nat)
    requires k < |s.book.jobs|
  {
    var i := InnerOf(s.book.inside, k);
    if s.book.jobs[k].Resuming? then Lookup(s.promises, k).Unset?
    else
      && i.Just? && EndedAs(s, i.value) == 1
      && Lookup(s.promises, k) == Answer(s.book.jobs[k], TotalLog(s.book.ends, ThrewEnd(i.value)) > 0)
  }

  predicate Honest(s: State, k: nat) {
    && StackInner(s.stack, s.book.inside) && TopInner(s.stack, s.book.inside)
    && (if Late(s, k) then Answered(s, k) else Lookup(s.promises, k).Unset?)
  }

  // ----- steps that leave the worker's stack alone -----

  /** What is over once is over for good, as it was. */
  lemma OverStays(s: State, s': State, i: nat)
    requires LogGrows(s.book.ends, s'.book.ends) && EndedAs(s, i) == 1 && Inv(s')
    ensures EndedAs(s', i) == 1
    ensures TotalLog(s'.book.ends, ThrewEnd(i)) == TotalLog(s.book.ends, ThrewEnd(i))
  {
    LedgerAt(s', i);
    assert EndedAs(s', i) <= 1;
    hide Mass, Inv, Ledger;
  }

  lemma AnsweredStays(s: State, s': State, k: nat)
    requires k < |s.book.jobs| && Answered(s, k) && s.book.jobs <= s'.book.jobs
    requires LogGrows(s.book.ends, s'.book.ends) && Inv(s')
    requires Lookup(s'.promises, k) == Lookup(s.promises, k)
    requires InnerOf(s'.book.inside, k) == InnerOf(s.book.inside, k)
    ensures Answered(s', k)
  {
    hide Inv, LogGrows, Lookup, InnerOf, TotalLog;
    if !s.book.jobs[k].Resuming? {
      OverStays(s, s', InnerOf(s.book.inside, k).value);
    }
  }

  /** A submission that has not been made has no end. */
  lemma NewIsNotOver(s: State, k: nat)
    requires Inv(s)
    ensures k >= |s.book.jobs| ==> TotalLog(s.book.ends, RanEnd(k)) == 0
    ensures TotalLog(s.book.ends, RanEnd(k)) > 0 ==> EndedAs(s, k) == 1
  {
    LedgerAt(s, k);
    RanEndBound(s.book.ends, k);
    hide TotalLog, Inv, Ledger;
  }

  /** No body that is on the stack ended, and none that is innermost changed its place. */
  lemma AsideHonest(s: State, s': State, k: nat)
    requires Inv(s) && Inv(s') && Honest(s, k)
    requires s'.promises == s.promises && s'.book.inside == s.book.inside
    requires s.book.jobs <= s'.book.jobs && LogGrows(s.book.ends, s'.book.ends)
    requires TotalLog(s'.book.ends, RanEnd(k)) == TotalLog(s.book.ends, RanEnd(k))
    requires StackInner(s'.stack, s'.book.inside) && TopInner(s'.stack, s'.book.inside)
    requires s'.stack.Frames? && s'.stack.top.phase.In? && !s'.stack.top.job.work.Plain? ==> s'.stack == s.stack
    requires s.stack.Frames? && s.stack.top.phase.In? && !s.stack.top.job.work.Plain? ==> s'.stack == s.stack
    ensures Honest(s', k)
  {
    NewIsNotOver(s, k);
    assert s.stack.Frames? ==> JobOk(s.stack.top.job, s.book.jobs);
    assert s'.stack.Frames? ==> JobOk(s'.stack.top.job, s'.book.jobs);
    hide Inv, StackInner, TopInner, Answered, TotalLog, LogGrows;
    if Late(s, k) {
      AnsweredStays(s, s', k);
    }
  }

  lemma ResumeInner(stack: Stack, normal: bool, inside: Log<Inside>)
    requires StackInner(stack, inside)
    ensures StackInner(Resume(stack, normal), inside)
  {
  }

  lemma CallMoves(s: State, t: nat)
    requires Control(s) && t < |s.calls| && !Blocked(s, t)
    ensures var e := CallEffect(s, t);
      && (e.over.Just? ==> !e.over.value.fate.Finished? && !e.over.value.fate.Threw?)
      && (e.nest.Just? ==> t == 0 && e.nest.value.via.FromDispatch? && e.nest.value.phase.Check?)
      && (t == 0 ==> s.stack.Frames? && s.stack.top.phase.In? && s.stack.top.job.work.Plain?)
  {
    assert t == 0 ==> s.stack.Frames? && FrameOk(s.stack.top, s.stack.below);
    hide Ticked, Lookup, StackOk;
  }

  /** The innermost activation after an operation inside a method, as before it a plain one. */
  lemma PerformInner(s: State, t: nat, e: Effect)
    requires t < |s.calls| && StackInner(s.stack, s.book.inside) && TopInner(s.stack, s.book.inside)
    requires e.nest.Just? ==> t == 0 && e.nest.value.via.FromDispatch? && e.nest.value.phase.Check?
    requires t == 0 ==> s.stack.Frames? && s.stack.top.phase.In? && s.stack.top.job.work.Plain?
    ensures var stack := Perform(s, t, e).stack;
      && StackInner(stack, s.book.inside) && TopInner(stack, s.book.inside)
      && (stack != s.stack ==>
            && (stack.Frames? && stack.top.phase.In? ==> stack.top.job.work.Plain?)
            && (s.stack.Frames? && s.stack.top.phase.In? ==> s.stack.top.job.work.Plain?))
  {
    ResumeInner(s.stack, e.normal, s.book.inside);
    hide Ticked, InnerOf;
  }

  lemma CallHonest(s: State, t: nat, k: nat)
    requires Inv(s) && Honest(s, k) && t < |s.calls| && !Blocked(s, t)
    requires Inv(Perform(s, t, CallEffect(s, t)))
    ensures Honest(Perform(s, t, CallEffect(s, t)), k)
  {
    assert Control(s);
    hide Inv, Control, CallEffect, Perform, Recorded, Late, Answered, Blocked, StackInner, TopInner, TotalLog, LogGrows;
    CallMoves(s, t);
    var e := CallEffect(s, t);
    PerformInner(s, t, e);
    PerformRecords(s, t, e);
    RefusalCounts(s.book.ends, e.over, k);
    AsideHonest(s, Perform(s, t, e), k);
  }

  lemma PerformRecords(s: State, t: nat, e: Effect)
    requires t < |s.calls|
    ensures var s' := Perform(s, t, e);
      && s'.promises == s.promises && s'.book.inside == s.book.inside && s'.book.jobs == s.book.jobs
      && s'.book.ends == Recorded(s.book.ends, e.over) && LogGrows(s.book.ends, s'.book.ends)
  {
    hide Resume, Ticked;
  }

  lemma RefusalCounts(ends: Log<Ending>, x: Maybe<Ending>, k: nat)
    requires x.Just? ==> !x.value.fate.Finished? && !x.value.fate.Threw?
    ensures TotalLog(Recorded(ends, x), RanEnd(k)) == TotalLog(ends, RanEnd(k))
  {
  }

  lemma SameStackHonest(s: State, s': State, k: nat)
    requires Inv(s) && Inv(s') && Honest(s, k)
    requires s'.stack == s.stack && s'.promises == s.promises && s'.book.inside == s.book.inside
    requires s.book.jobs <= s'.book.jobs && s'.book.ends == s.book.ends
    ensures Honest(s', k)
  {
    hide Inv, Late, Answered, StackInner, TopInner;
    AsideHonest(s, s', k);
  }

  lemma DequeueHonest(s: State, k: nat)
    requires Inv(s) && Honest(s, k) && s.stack.Empty? && s.queue != []
    ensures s.queue[0].Run? && Inv(DequeuesJob(s)) ==> Honest(DequeuesJob(s), k)
    ensures s.queue[0].Marker? && Inv(DequeuesMarker(s)) ==> Honest(DequeuesMarker(s), k)
  {
    hide Inv, Late, Answered;
    if s.queue[0].Run? && Inv(DequeuesJob(s)) {
      AsideHonest(s, DequeuesJob(s), k);
    }
    if s.queue[0].Marker? && Inv(DequeuesMarker(s)) {
      AsideHonest(s, DequeuesMarker(s), k);
    }
  }

  // ----- ExecTask_ -----

  lemma {:induction false} OthersInner(stack: Stack, inside: Log<Inside>, x: Inside)
    requires StackInner(stack, inside) && TotalStack(stack, At(x.wrapper).frame) == 0
    ensures StackInner(stack, Add(inside, x))
  {
    if stack.Frames? {
      OthersInner(stack.below, inside, x);
    }
  }

  /** The innermost activation is the only place of its submission, and that is not over. */
  lemma TopAlone(s: State)
    requires Inv(s) && s.stack.Frames?
    ensures var k := s.stack.top.job.id;
      TotalStack(s.stack.below, At(k).frame) == 0 && EndedAs(s, k) == 0 && JobOk(s.stack.top.job, s.book.jobs)
  {
    LedgerAt(s, s.stack.top.job.id);
    hide TotalLog, Total, Ledger, Control, Accounts, Order, Closing, Nesting, Waits, Owned;
  }

  lemma MovesHonest(s: State, phase: Phase, s': State, k: nat)
    requires Inv(s) && Inv(s') && Honest(s, k) && s.stack.Frames? && !s.stack.top.phase.In? && !phase.Settle?
    requires s'.stack == SetPhase(s.stack, phase) && (phase.In? ==> s.stack.top.job.work.Plain?)
    requires s'.promises == s.promises && s'.book.inside == s.book.inside
    requires s'.book.jobs == s.book.jobs && s'.book.ends == s.book.ends
    ensures Honest(s', k)
  {
    hide Inv, Late, Answered, InnerOf;
    AsideHonest(s, s', k);
  }

  lemma WrapInner(f: Frame, below: Stack, inside: Log<Inside>, x: Inside, call: Frame)
    requires StackInner(Frames(f, below), inside) && x.wrapper == f.job.id && x.inner == call.job.id
    requires TotalStack(below, At(f.job.id).frame) == 0
    ensures StackInner(Frames(call, Frames(f.(phase := Wrapped), below)), Add(inside, x))
  {
    OthersInner(below, inside, x);
    assert below.Frames? ==> below.top.job.id != f.job.id;
  }

  /** A wrapper calls ExecTask_ for its task. */
  lemma WrapsHonest(s: State, k: nat)
    requires Inv(s) && Honest(s, k) && s.stack.Frames? && s.stack.top.phase.Passed? && !s.stack.top.job.work.Plain?
    requires var e := ExecEffect(s.stack.top, s.closing, |s.book.jobs|); e.Stay? && Inv(Stays(s, e))
    ensures Honest(Stays(s, ExecEffect(s.stack.top, s.closing, |s.book.jobs|)), k)
  {
    var f := s.stack.top;
    var e := ExecEffect(f, s.closing, |s.book.jobs|);
    var call := Inner(f.job.work, |s.book.jobs|);
    assert e == Stay(Wrapped, began := true, call := Just(call)) && !call.phase.In? && !call.phase.Settle?;
    assert call.job.id == |s.book.jobs|;
    TopAlone(s);
    NewIsNotOver(s, k);
    hide Inv, ExecEffect, Inner, Answered, Ticked, TotalStack, TotalLog, StackInner;
    WrapInner(f, s.stack.below, s.book.inside, Inside(call.job.id, f.job.id), call);
    var s' := Stays(s, e);
    assert !Late(s', k) ==> !Late(s, k);
    if Late(s, k) {
      AnsweredStays(s, s', k);
    }
  }

  /** A wrapper reports how the task inside ended. */
  lemma ReportsHonest(s: State, k: nat)
    requires Inv(s) && Honest(s, k) && s.stack.Frames? && s.stack.top.phase.Settle?
    requires var e := ExecEffect(s.stack.top, s.closing, |s.book.jobs|); e.Stay? && Inv(Stays(s, e))
    ensures Honest(Stays(s, ExecEffect(s.stack.top, s.closing, |s.book.jobs|)), k)
  {
    var f := s.stack.top;
    var e := ExecEffect(f, s.closing, |s.book.jobs|);
    var s' := Stays(s, e);
    assert e.call.Nothing? && e.phase == In(Return) && FrameOk(f, s.stack.below);
    assert e.settle == if f.job.work.Sync? || (f.job.work.Promised? && !f.phase.ok)
      then Just(Settled(f.job.id, f.phase.ok, f.phase.inner)) else Nothing;
    TopAlone(s);
    NewIsNotOver(s, k);
    assert !f.job.work.Resuming? ==> Judged(f.phase.inner, f.phase.ok, s.book.ends);
    hide Inv, Control, Ticked, TotalStack, TotalLog, StackInner, InnerOf, ExecEffect;
    assert StackInner(s'.stack, s'.book.inside) by { PhaseInner(s.stack, e.phase, s.book.inside); }
    if k == f.job.id {
      assert !Late(s, k);
    } else if Late(s, k) {
      AnsweredStays(s, s', k);
    }
  }

  lemma PhaseInner(stack: Stack, phase: Phase, inside: Log<Inside>)
    requires StackInner(stack, inside) && stack.Frames?
    ensures StackInner(SetPhase(stack, phase), inside)
  {
  }

  lemma MovesOn(f: Frame, closing: bool, id: nat)
    requires ExecEffect(f, closing, id).Stay? && !f.phase.Settle? && (f.phase.Passed? ==> f.job.work.Plain?)
    ensures var e := ExecEffect(f, closing, id);
      e.call.Nothing? && e.settle.Nothing? && !f.phase.In? && !e.phase.Settle?
      && (e.phase.In? ==> f.job.work.Plain?)
  {
  }

  lemma StaysHonest(s: State, k: nat)
    requires Inv(s) && Honest(s, k) && s.stack.Frames?
    requires var e := ExecEffect(s.stack.top, s.closing, |s.book.jobs|); e.Stay? && Inv(Stays(s, e))
    ensures Honest(Stays(s, ExecEffect(s.stack.top, s.closing, |s.book.jobs|)), k)
  {
    hide Inv, Honest, ExecEffect, Ticked;
    var f := s.stack.top;
    var e := ExecEffect(f, s.closing, |s.book.jobs|);
    if f.phase.Settle? {
      ReportsHonest(s, k);
    } else if f.phase.Passed? && !f.job.work.Plain? {
      WrapsHonest(s, k);
    } else {
      MovesOn(f, s.closing, |s.book.jobs|);
      MovesHonest(s, e.phase, Stays(s, e), k);
    }
  }

  lemma UnwindInner(stack: Stack, threw: bool, inside: Log<Inside>)
    requires stack.Frames? && StackInner(stack, inside) && FrameOk(stack.top, stack.below)
    ensures StackInner(Unwind(stack, threw), inside) && TopInner(Unwind(stack, threw), inside)
    ensures var after := Unwind(stack, threw); after.Frames? && after.top.phase.In? ==>
      stack.below.Frames? && stack.below.top.phase.In? && after.top.job == stack.below.top.job
  {
  }

  /** After an activation is over the innermost one is not a wrapper that has reported. */
  lemma CallerIsPlain(s: State, threw: bool)
    requires Control(s) && s.stack.Frames?
    ensures var after := Unwind(s.stack, threw); after.Frames? && after.top.phase.In? ==> after.top.job.work.Plain?
  {
    assert StackOk(s.stack) && StackOk(s.stack.below);
    hide Control;
  }

  lemma OverChanges(s: State, fate: Fate, threw: bool)
    requires s.stack.Frames? && s.calls != []
    ensures var s' := IsOver(s, fate, threw);
      && s'.stack == Unwind(s.stack, threw) && s'.promises == s.promises
      && s'.book.jobs == s.book.jobs && s'.book.inside == s.book.inside
      && s'.book.ends == Add(s.book.ends, Ending(s.stack.top.job.id, fate))
  {
    hide Unwind;
  }

  /** When an activation is over, whether a wrapper has reported stays as it was. */
  lemma LateStays(s: State, s': State, k: nat)
    requires s.stack.Frames? && JobOk(s.stack.top.job, s.book.jobs) && s'.book.jobs == s.book.jobs
    requires TotalLog(s'.book.ends, RanEnd(k)) == TotalLog(s.book.ends, RanEnd(k))
      + (if s.stack.top.job.id == k && s.stack.top.phase.In? then 1 else 0)
    requires s'.stack.Frames? ==> JobOk(s'.stack.top.job, s'.book.jobs)
    requires s'.stack.Frames? && s'.stack.top.phase.In? ==> s'.stack.top.job.work.Plain?
    ensures Late(s', k) == Late(s, k)
  {
    hide TotalLog;
  }

  lemma OverHonest(s: State, fate: Fate, threw: bool, k: nat)
    requires Inv(s) && Honest(s, k) && s.stack.Frames? && s.calls != []
    requires ExecEffect(s.stack.top, s.closing, |s.book.jobs|) == Over(fate, threw)
    requires Inv(IsOver(s, fate, threw))
    ensures Honest(IsOver(s, fate, threw), k)
  {
    var f, s' := s.stack.top, IsOver(s, fate, threw);
    OverIsEnd(s, fate, threw);
    hide Inv, ExecEffect, IsOver, Unwind, StackInner, TopInner, TotalStack, TotalLog, Answered, FrameOk, Late;
    TopAlone(s);
    OverChanges(s, fate, threw);
    UnwindInner(s.stack, threw, s.book.inside);
    CallerIsPlain(s, threw);
    TopJob(s');
    EndCounts(s.book.ends, Ending(f.job.id, fate), k);
    LateStays(s, s', k);
    if Late(s, k) {
      LateIsKnown(s, k);
      AnsweredStays(s, s', k);
    }
  }

  lemma LateIsKnown(s: State, k: nat)
    requires Late(s, k)
    ensures k < |s.book.jobs|
  {
  }

  lemma OverIsEnd(s: State, fate: Fate, threw: bool)
    requires Inv(s) && s.stack.Frames?
    requires ExecEffect(s.stack.top, s.closing, |s.book.jobs|) == Over(fate, threw)
    ensures (fate.Finished? || fate.Threw? <==> s.stack.top.phase.In?)
    ensures FrameOk(s.stack.top, s.stack.below) && Control(s)
  {
    hide Ledger, Jobs, Accounts, Order, Closing, Nesting, Waits, Owned, FrameOk;
  }

  lemma TopJob(s: State)
    requires Inv(s)
    ensures s.stack.Frames? ==> JobOk(s.stack.top.job, s.book.jobs)
  {
    hide Ledger, Control, Accounts, Order, Closing, Nesting, Waits, Owned;
  }

  lemma EndCounts(ends: Log<Ending>, e: Ending, k: nat)
    ensures TotalLog(Add(ends, e), RanEnd(k))
         == TotalLog(ends, RanEnd(k)) + (if e.id == k && (e.fate.Finished? || e.fate.Threw?) then 1 else 0)
  {
  }

  lemma ExecHonest(s: State, k: nat)
    requires Inv(s) && Honest(s, k) && s.stack.Frames? && s.calls[0].Idle? && Inv(ExecStep(s))
    ensures Honest(ExecStep(s), k)
  {
    var e := ExecEffect(s.stack.top, s.closing, |s.book.jobs|);
    assert s.calls != [];
    hide Inv, ExecEffect, Stays, IsOver, Honest;
    match e
    case Stay(_, _, _, _, _) => StaysHonest(s, k);
    case Call(api) => SameStackHonest(s, Enter(s, 0, api), k);
    case Over(fate, threw) => OverHonest(s, fate, threw, k);
    case Still =>
  }

  lemma WorkerHonest(s: State, k: nat)
    requires Inv(s) && Honest(s, k) && s.calls[0].Idle? && Inv(WorkerStep(s))
    ensures Honest(WorkerStep(s), k)
  {
    assert s.calls != [];
    hide Inv, Honest, ExecStep, DequeuesJob, DequeuesMarker;
    if s.worker.Loop? && s.stack.Frames? {
      ExecHonest(s, k);
    } else if s.worker.Loop? && !s.stopped && s.queue != [] {
      DequeueHonest(s, k);
    } else {
      WorkerIsClock(s);
      SameStackHonest(s, WorkerStep(s), k);
    }
  }

  lemma StepHonest(s: State, l: Label, k: nat)
    requires Inv(s) && Honest(s, k)
    ensures Honest(Next(s, l), k)
  {
    StepKeeps(s, l);
    assert s.calls != [];
    hide Inv, Honest;
    if l.Step? {
      ThreadNext(s, l.t);
      hide Next, WorkerStep, Perform, CallEffect, Blocked;
      if l.t == 0 && s.calls[0].Idle? {
        WorkerHonest(s, k);
      } else if l.t < |s.calls| && !Blocked(s, l.t) {
        CallHonest(s, l.t, k);
      }
    } else {
      OthersAside(s, l);
      hide Next;
      SameStackHonest(s, Next(s, l), k);
    }
  }

  lemma OthersAside(s: State, l: Label)
    requires !l.Step?
    ensures var s' := Next(s, l);
      && s'.stack == s.stack && s'.promises == s.promises && s'.book.inside == s.book.inside
      && s.book.jobs <= s'.book.jobs && s'.book.ends == s.book.ends
  {
    hide WorkerStep, CallStep, Entry;
    match l {
      case Begin(_, _) => case BeginJoin(_) => case Expire(_) => case StartFails => case Step(_) =>
    }
  }

  lemma {:induction false} RunHonest(s: State, ls: seq<Label>, k: nat)
    requires Inv(s) && Honest(s, k)
    ensures Honest(Exec(s, ls), k)
  {
    hide Inv, Next, Honest;
    if ls != [] {
      RunHonest(s, ls[..|ls| - 1], k);
      RunKeeps(s, ls[..|ls| - 1]);
      StepHonest(Exec(s, ls[..|ls| - 1]), ls[|ls| - 1], k);
    }
  }

  /** When a wrapper is over and has not been refused or dismissed, the task inside is over,
      and the promise has got exactly what that did: of PostSynchronously a value or the
      exception, of PostWithPromise the exception, or nothing if the task did not throw. A
      promise of a wrapper that did not run has got nothing. */
  lemma WrapperIsHonest(s: State, k: nat) returns (inner: nat)
    requires Reachable(s) && k < |s.book.jobs| && !s.book.jobs[k].Plain? && EndedAs(s, k) > 0
    ensures TotalLog(s.book.ends, NoPromise(k)) > 0 ==> Lookup(s.promises, k).Unset?
    ensures TotalLog(s.book.ends, NoPromise(k)) == 0 && !s.book.jobs[k].Resuming? ==>
      && InnerOf(s.book.inside, k) == Just(inner) && EndedAs(s, inner) == 1
      && Lookup(s.promises, k) ==
           (if TotalLog(s.book.ends, ThrewEnd(inner)) > 0 then Exception
            else if s.book.jobs[k].Sync? then Value else Unset)
  {
    var capacity: nat, clients: nat, ls: seq<Label> :| s == Exec(Init(capacity, clients), ls);
    InitInv(capacity, clients);
    assert Honest(Init(capacity, clients), k);
    RunHonest(Init(capacity, clients), ls, k);
    ReachableInv(s);
    LedgerAt(s, k);
    RanEndBound(s.book.ends, k);
    inner := if InnerOf(s.book.inside, k).Just? then InnerOf(s.book.inside, k).value else 0;
    if s.stack.Frames? {
      TopAlone(s);
    }
    hide Inv, Exec, Reachable, TotalLog, Mass, Ledger;
  }
}
