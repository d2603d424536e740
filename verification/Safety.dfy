/** The invariant holds in every state of every run, whatever the number of threads, the
    tasks they submit and the way their atomic operations interleave. */
module Safety {
  import opened Tasks
  import opened Machine
  import opened Counting
  import opened Invariant
  import opened LedgerSteps
  import opened AccountSteps
  import opened ControlSteps
  import opened OrderSteps
  import opened NestingSteps
  import opened PromiseSteps

  lemma LedgerAt(s: State, k: nat)
    requires Ledger(s)
    ensures Placed(s, k) && Traced(s, k) && Promising(s, k)
  {
    assert Placed(s, k) && Traced(s, k) && Promising(s, k);
  }

  // ----- the kinds of step -----

  lemma CallLedger(s: State, t: nat)
    requires t < |s.calls| && Ledger(s)
    ensures Ledger(Perform(s, t, CallEffect(s, t)))
  {
    var e := CallEffect(s, t);
    var s' := Perform(s, t, e);
    forall k: nat
      ensures Placed(s', k) && Traced(s', k) && Promising(s', k)
    {
      LedgerAt(s, k);
      CallEffectFair(s, t, k);
      PerformPlaced(s, t, e, k);
      PerformTraced(s, t, e, k);
      PerformPromising(s, t, e, k);
    }
    hide Placed, Traced, Promising, Perform, CallEffect, Fair;
  }

  lemma CallKeeps(s: State, t: nat)
    requires Inv(s) && t < |s.calls| && !Blocked(s, t)
    ensures Inv(Perform(s, t, CallEffect(s, t)))
  {
    var e := CallEffect(s, t);
    CallControl(s, t);
    CallHandsOn(s, t);
    PerformJobs(s, t, e);
    CallLedger(s, t);
    CallAccounts(s, t);
    CallNests(s, t);
    PerformOrder(s, t, e);
    CallAnnounced(s, t);
    PerformClosing(s, t, e);
    if Carrying(s.calls[t]) {
      LedgerAt(s, s.calls[t].job.id);
    }
    CallWaits(s, t);
    PerformOwned(s, t, e);
    hide Control, Ledger, Owned, Jobs, Accounts, Order, Closing, Nesting, Waits, Perform, CallEffect;
  }

  lemma CallNests(s: State, t: nat)
    requires Control(s) && t < |s.calls|
    ensures CallEffect(s, t).nest.Just? ==> s.stack.Frames? && CallEffect(s, t).nest.value.phase.Check?
    ensures CallEffect(s, t).nest.Just? ==> !CallEffect(s, t).nest.value.via.FromWrapper?
  {
    hide Ticked, Lookup, StackOk;
  }

  lemma EnterKeeps(s: State, t: nat, api: Api)
    requires Inv(s) && t < |s.calls| && s.calls[t].Idle? && s.started
    requires t == 0 ==> s.stack.Frames? && s.stack.top.phase.In? && s.stack.top.phase.rest.Do?
    ensures Inv(Enter(s, t, api))
  {
    var s' := Enter(s, t, api);
    EnterControl(s, t, api);
    EnterJobs(s, t, api);
    forall k: nat
      ensures Placed(s', k) && Traced(s', k) && Promising(s', k)
    {
      LedgerAt(s, k);
      EnterLedger(s, t, api, k);
    }
    EnterAccounts(s, t, api);
    EnterClosing(s, t, api);
    EnterWaits(s, t, api);
    EnterOwned(s, t, api);
    hide Owned, Control, Jobs, Accounts, Closing, Waits, Placed, Traced, Promising;
  }

  lemma StaysKeeps(s: State)
    requires Inv(s) && s.stack.Frames? && s.calls[0].Idle?
    requires ExecEffect(s.stack.top, s.closing, |s.book.jobs|).Stay?
    ensures Inv(Stays(s, ExecEffect(s.stack.top, s.closing, |s.book.jobs|)))
  {
    var e := ExecEffect(s.stack.top, s.closing, |s.book.jobs|);
    var s' := Stays(s, e);
    StaysControl(s);
    ExecEffectOk(s.stack.top, s.closing, |s.book.jobs|);
    StaysJobs(s, e);
    forall k: nat
      ensures Placed(s', k) && Traced(s', k) && Promising(s', k)
    {
      LedgerAt(s, k);
      StaysPlaced(s, e, k);
      StaysTraced(s, e, k);
      StaysPromising(s, e, k);
    }
    StaysAccounts(s, s.closing);
    StaysOrder(s);
    StaysNesting(s);
    StaysWaits(s);
    assert JobOk(s.stack.top.job, s.book.jobs);
    StaysOwned(s);
    hide Owned, Accounts, Order, Nesting, Waits, Placed, Traced, Promising, ExecEffect, Ticked;
  }

  lemma OverKeeps(s: State, fate: Fate, threw: bool)
    requires Inv(s) && s.stack.Frames? && s.calls[0].Idle?
    requires ExecEffect(s.stack.top, s.closing, |s.book.jobs|) == Over(fate, threw)
    ensures Inv(IsOver(s, fate, threw))
  {
    var s' := IsOver(s, fate, threw);
    assert OverOk(s.stack.top, fate) && (fate.Dismissed? ==> s.closing)
        && threw == (fate.Threw? && !s.stack.top.AutoCatch());
    OverControl(s, fate, threw);
    OverJobs(s, fate, threw);
    forall k: nat
      ensures Placed(s', k) && Traced(s', k) && Promising(s', k)
    {
      LedgerAt(s, k);
      OverPlaced(s, fate, threw, k);
      OverTraced(s, fate, threw, k);
      OverPromising(s, fate, threw, k);
    }
    LedgerAt(s, s.stack.top.job.id);
    OverAccounts(s, fate, threw);
    OverOrder(s, fate, threw);
    OverClosing(s, fate, threw);
    OverNesting(s, fate, threw);
    OverWaits(s, fate, threw);
    OverOwned(s, fate, threw);
    hide Owned, Control, Jobs, Accounts, Order, Closing, Nesting, Waits, Placed, Traced, Promising, IsOver;
  }

  lemma DequeueKeeps(s: State)
    requires Inv(s) && s.worker.Loop? && s.stack.Empty? && !s.stopped
    requires s.queue != [] && s.queue[0].Run?
    ensures Inv(DequeuesJob(s))
  {
    var s' := DequeuesJob(s);
    forall k: nat
      ensures Placed(s', k) && Traced(s', k) && Promising(s', k)
    {
      LedgerAt(s, k);
      DequeueLedger(s, k);
    }
    DequeueAccounts(s);
    hide Jobs, Accounts, Order, Placed, Traced, Promising;
  }

  lemma MarkerKeeps(s: State)
    requires Inv(s) && s.worker.Loop? && s.stack.Empty? && !s.stopped
    requires s.queue != [] && s.queue[0].Marker?
    ensures Inv(DequeuesMarker(s))
  {
    var s' := DequeuesMarker(s);
    MarkerControl(s);
    forall k: nat
      ensures Placed(s', k) && Traced(s', k) && Promising(s', k)
    {
      LedgerAt(s, k);
      MarkerMass(s, At(k));
      MarkerMass(s, Unsettled(k));
      hide Mass;
    }
    MarkerAccounts(s);
    MarkerOrder(s);
    OwnedLearns(s, s'.book);
    hide Control, Accounts, Order, Placed, Traced, Promising, AllOwned, StackOwned, Owns, StackJobs;
  }

  lemma FireKeeps(s: State, i: nat)
    requires Inv(s) && i < |s.armed|
    ensures Inv(Fires(s, i))
  {
    var s' := Fires(s, i);
    forall k: nat
      ensures Placed(s', k) && Traced(s', k) && Promising(s', k)
    {
      LedgerAt(s, k);
      FireLedger(s, i, k);
    }
    FireAccounts(s, i);
    FireOrder(s, i);
    FireClosing(s, i);
    FireWaits(s, i);
    OwnedLearns(s, s'.book);
    hide Waits, Jobs, Accounts, Order, Closing, Placed, Traced, Promising, AllOwned, StackOwned, Owns;
  }

  lemma JoinLedger(s: State, t: nat, k: nat)
    requires t < |s.calls| && s.calls[t].Idle? && Placed(s, k) && Traced(s, k) && Promising(s, k)
    ensures var s' := s.(calls := s.calls[t := Join]);
      Placed(s', k) && Traced(s', k) && Promising(s', k)
  {
    TotalSet(s.calls, t, Join, At(k).call);
    hide Total;
  }

  lemma JoinKeeps(s: State, t: nat)
    requires Inv(s) && Free(s, t)
    ensures Inv(s.(calls := s.calls[t := Join]))
  {
    var s' := s.(calls := s.calls[t := Join]);
    forall k: nat
      ensures Placed(s', k) && Traced(s', k) && Promising(s', k)
    {
      LedgerAt(s, k);
      JoinLedger(s, t, k);
    }
    JoinCounts(s, t);
    hide Placed, Traced, Promising, Waits, Accounts, Closing, Order, Nesting, Owned, StackOk, StackJobs;
  }

  lemma JoinCounts(s: State, t: nat)
    requires Accounts(s) && Closing(s) && Free(s, t)
    ensures Accounts(s.(calls := s.calls[t := Join])) && Closing(s.(calls := s.calls[t := Join]))
  {
    TotalSet(s.calls, t, Join, RESERVED.call);
    TotalSet(s.calls, t, Join, HELD.call);
    TotalSet(s.calls, t, Join, StoreCall);
    hide Total, TotalStack, TotalLog;
  }

  // ----- every step, every run -----

  lemma ExecKeeps(s: State)
    requires Inv(s) && s.stack.Frames? && s.calls[0].Idle?
    ensures Inv(ExecStep(s))
  {
    var f := s.stack.top;
    assert s.calls != [] && s.started;
    assert ExecEffect(f, s.closing, |s.book.jobs|).Call? ==> f.phase.In? && f.phase.rest.Do?;
    hide Inv, ExecEffect, Stays, IsOver, Enter;
    match ExecEffect(s.stack.top, s.closing, |s.book.jobs|)
    case Stay(_, _, _, _, _) => StaysKeeps(s);
    case Call(api) => EnterKeeps(s, 0, api);
    case Over(fate, threw) => OverKeeps(s, fate, threw);
    case Still =>
  }

  lemma WorkerKeeps(s: State)
    requires Inv(s) && s.calls[0].Idle?
    ensures Inv(WorkerStep(s))
  {
    if s.worker.Loop? && s.stack.Frames? {
      ExecKeeps(s);
    } else if s.worker.Loop? && !s.stopped && s.queue != [] {
      if s.queue[0].Run? {
        DequeueKeeps(s);
      } else {
        MarkerKeeps(s);
      }
    } else {
      ClockKeeps(s, WorkerStep(s));
    }
    hide Inv, ExecStep;
  }

  /** Only the worker's own life cycle is different. */
  predicate Clock(s: State, s': State) {
    && s'.calls == s.calls && s'.queue == s.queue && s'.armed == s.armed && s'.stack == s.stack
    && s'.count == s.count && s'.capacity == s.capacity && s'.closing == s.closing
    && s'.promises == s.promises && s'.book == s.book.(stops := s'.book.stops)
  }

  predicate Waking(s: State, s': State) {
    && s.calls != [] && s.calls[0].Idle?
    && !(s.worker.Loop? && (s.stack.Frames? || (!s.stopped && s.queue != [])))
    && (s' == WorkerStep(s) || (s.worker.Locked? && s' == s.(worker := Failed, waiter := false)))
  }

  lemma WakingIsClock(s: State, s': State)
    requires Waking(s, s')
    ensures Clock(s, s')
  {
    if s' == WorkerStep(s) {
      WorkerIsClock(s);
    }
    hide WorkerStep;
  }

  lemma WorkerIsClock(s: State)
    requires s.calls != [] && !(s.worker.Loop? && (s.stack.Frames? || (!s.stopped && s.queue != [])))
    ensures Clock(s, WorkerStep(s))
  {
    hide ExecStep, CallStep, DequeuesJob, DequeuesMarker, Enter, Fires, Perform, Free;
    match s.worker {
      case Spawned => case Locked => case Loop => case Shut => case Stopping => case Leaving =>
      case Exited => case Failed => case Escaped =>
    }
  }

  lemma WakingControl(s: State, s': State)
    requires Waking(s, s') && Control(s)
    ensures Control(s')
  {
    hide ExecStep, CallStep, DequeuesJob, DequeuesMarker, Enter, Fires, StackOk, TotalLog;
    match s.worker {
      case Spawned => case Locked => case Loop => case Shut => case Stopping => case Leaving =>
      case Exited => case Failed => case Escaped =>
    }
  }

  lemma ClockWaits(s: State, s': State)
    requires Clock(s, s') && Waits(s)
    ensures Waits(s')
  {
    forall u | 0 <= u < |s'.calls| && s'.calls[u].Await?
      ensures WaitOk(s', u)
    {
      assert WaitOk(s, u);
    }
  }

  lemma ClockLedger(s: State, s': State)
    requires Clock(s, s') && Ledger(s)
    ensures Ledger(s')
  {
    forall k: nat
      ensures Placed(s', k) && Traced(s', k) && Promising(s', k)
    {
      LedgerAt(s, k);
    }
    hide Total, TotalStack, TotalLog;
  }

  lemma ClockRest(s: State, s': State)
    requires Clock(s, s') && Jobs(s) && Accounts(s) && Order(s) && Closing(s) && Nesting(s) && Owned(s)
    ensures Jobs(s') && Accounts(s') && Order(s') && Closing(s') && Nesting(s') && Owned(s')
  {
    hide Total, TotalStack, TotalLog, StackJobs, StackOwned, AllOwned, Owns, Open, Pending;
    OwnedLearns(s, s'.book);
  }

  lemma ClockKeeps(s: State, s': State)
    requires Inv(s) && Waking(s, s')
    ensures Inv(s')
  {
    hide Control, Jobs, Ledger, Accounts, Order, Closing, Nesting, Waits, Owned, Waking, Clock;
    WakingControl(s, s');
    WakingIsClock(s, s');
    ClockWaits(s, s');
    ClockLedger(s, s');
    ClockRest(s, s');
  }

  lemma BeginKeeps(s: State, t: nat, api: Api)
    requires Inv(s)
    ensures Inv(Next(s, Begin(t, api)))
  {
    hide Inv, Enter;
    if Free(s, t) {
      EnterKeeps(s, t, api);
    }
  }

  lemma BeginJoinKeeps(s: State, t: nat)
    requires Inv(s)
    ensures Inv(Next(s, BeginJoin(t)))
  {
    hide Inv;
    if Free(s, t) {
      JoinKeeps(s, t);
    }
  }

  lemma ThreadNext(s: State, t: nat)
    requires s.calls != []
    ensures Next(s, Step(t))
         == if t == 0 && s.calls[0].Idle? then WorkerStep(s)
            else if t < |s.calls| then CallStep(s, t) else s
  {
    hide WorkerStep, CallStep;
  }

  lemma CallStepKeeps(s: State, t: nat)
    requires Inv(s) && t < |s.calls|
    ensures Inv(CallStep(s, t))
  {
    hide Inv, Perform, CallEffect, Blocked;
    if !Blocked(s, t) {
      CallKeeps(s, t);
    }
  }

  lemma ThreadKeeps(s: State, t: nat)
    requires Inv(s)
    ensures Inv(Next(s, Step(t)))
  {
    assert s.calls != [];
    hide Inv, Next, WorkerStep, CallStep;
    ThreadNext(s, t);
    if t == 0 && s.calls[0].Idle? {
      WorkerKeeps(s);
    } else if t < |s.calls| {
      CallStepKeeps(s, t);
    }
  }

  lemma ExpireKeeps(s: State, i: nat)
    requires Inv(s)
    ensures Inv(Next(s, Expire(i)))
  {
    hide Inv, Fires;
    if i < |s.armed| {
      FireKeeps(s, i);
    }
  }

  lemma StartFailsKeeps(s: State)
    requires Inv(s)
    ensures Inv(Next(s, StartFails))
  {
    if s.worker.Locked? {
      hide Inv, Waking;
      ClockKeeps(s, Next(s, StartFails));
    }
  }

  lemma StepKeeps(s: State, l: Label)
    requires Inv(s)
    ensures Inv(Next(s, l))
  {
    hide Inv, Next;
    match l
    case Begin(t, api) => BeginKeeps(s, t, api);
    case BeginJoin(t) => BeginJoinKeeps(s, t);
    case Step(t) => ThreadKeeps(s, t);
    case Expire(i) => ExpireKeeps(s, i);
    case StartFails => StartFailsKeeps(s);
  }

  lemma {:induction false} TotalZero<T>(s: seq<T>, f: T -> nat)
    requires forall i | 0 <= i < |s| :: f(s[i]) == 0
    ensures Total(s, f) == 0
  {
    if s != [] {
      TotalZero(s[..|s| - 1], f);
    }
  }

  lemma InitInv(capacity: nat, clients: nat)
    ensures Inv(Init(capacity, clients))
  {
    var s := Init(capacity, clients);
    forall k: nat
      ensures Placed(s, k) && Traced(s, k) && Promising(s, k)
    {
      TotalZero(s.calls, At(k).call);
    }
    TotalZero(s.calls, ReservedCall);
    TotalZero(s.calls, HeldCall);
    TotalZero(s.calls, StoreCall);
  }

  lemma {:induction false} RunKeeps(s: State, ls: seq<Label>)
    requires Inv(s)
    ensures Inv(Exec(s, ls))
  {
    if ls != [] {
      RunKeeps(s, ls[..|ls| - 1]);
      StepKeeps(Exec(s, ls[..|ls| - 1]), ls[|ls| - 1]);
    }
  }

  /** A state that some pipeline, with any capacity and any number of client threads, can
      be in. */
  ghost predicate Reachable(s: State) {
    exists capacity: nat, clients: nat, ls: seq<Label> :: s == Exec(Init(capacity, clients), ls)
  }

  lemma ReachableInv(s: State)
    requires Reachable(s)
    ensures Inv(s)
  {
    var capacity: nat, clients: nat, ls: seq<Label> :| s == Exec(Init(capacity, clients), ls);
    InitInv(capacity, clients);
    RunKeeps(Init(capacity, clients), ls);
  }

  lemma {:induction false} ExecConcat(s: State, a: seq<Label>, b: seq<Label>)
    ensures Exec(s, a + b) == Exec(Exec(s, a), b)
  {
    if b == [] {
      assert a + b == a;
    } else {
      assert (a + b)[..|a + b| - 1] == a + b[..|b| - 1];
      ExecConcat(s, a, b[..|b| - 1]);
    }
  }

  lemma ReachableLater(s: State, ls: seq<Label>)
    requires Reachable(s)
    ensures Reachable(Exec(s, ls))
  {
    var capacity: nat, clients: nat, before: seq<Label> :| s == Exec(Init(capacity, clients), before);
    ExecConcat(Init(capacity, clients), before, ls);
  }

  lemma StepReachable(s: State, l: Label)
    requires Reachable(s)
    ensures Reachable(Next(s, l))
  {
    ReachableLater(s, [l]);
    assert [l][..0] == [];
    assert Exec(s, [l]) == Next(Exec(s, []), l);
  }
}
