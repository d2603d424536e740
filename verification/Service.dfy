/** On an open pipeline every queued handler is reached, and a caller of PostSynchronously
    is served. */
module Service {
  import opened Tasks
  import opened Machine
  import opened Counting
  import opened Invariant
  import opened LedgerSteps
  import opened Growth
  import opened Conservation
  import opened Rendezvous
  import opened Dispatching
  import opened Progress
  import opened Drain
  import opened Doom
  import opened Safety

  // ----- how much work is in front of a handler -----

  /** The first k + 1 handlers are tasks. */
  predicate TasksUpTo(queue: seq<Handler>, k: nat) {
    k < |queue| && forall i | 0 <= i <= k :: queue[i].Run?
  }

  /** Operations that the first k + 1 handlers may take. */
  function Ahead(queue: seq<Handler>, k: nat): nat
    requires TasksUpTo(queue, k)
  {
    4 + WorkSize(queue[0].job.work) + (if k == 0 then 0 else Ahead(queue[1..], k - 1))
  }

  /** Operations that the handler being executed may take. */
  function Load(s: State): nat
    requires s.calls != []
  {
    StackSize(s.stack, !s.calls[0].Idle?) + CallSize(s.calls[0])
  }

  lemma {:induction false} AheadAppended(queue: seq<Handler>, x: Maybe<Handler>, k: nat)
    requires TasksUpTo(queue, k)
    ensures TasksUpTo(Appended(queue, x), k) && Ahead(Appended(queue, x), k) == Ahead(queue, k)
  {
    var more := Appended(queue, x);
    assert forall i | 0 <= i < |queue| :: more[i] == queue[i];
    if k > 0 {
      assert more[1..] == Appended(queue[1..], x);
      AheadAppended(queue[1..], x, k - 1);
    }
  }

  /** The worker's loop is running, and the queue has at most grown at its end. */
  ghost predicate Serving(s: State, s': State) {
    && s'.calls != [] && s'.worker.Loop? && !s'.stopped
    && exists x :: s'.queue == Appended(s.queue, x)
  }

  lemma CallServes(s: State)
    requires Control(s) && !s.calls[0].Idle? && s.worker.Loop? && !s.stopped
    ensures var s' := Perform(s, 0, CallEffect(s, 0)); Serving(s, s') && Load(s') < Load(s)
  {
    WorkerCallShrinks(s);
    assert Perform(s, 0, CallEffect(s, 0)).queue == Appended(s.queue, CallEffect(s, 0).enqueue);
    hide CallEffect, Ticked, Resume, StackOk, StackSize, CallSize, TotalLog;
  }

  lemma ExecServes(s: State)
    requires Control(s) && s.stack.Frames? && s.calls[0].Idle? && !s.stopped
    ensures var s' := ExecStep(s); Serving(s, s') && Load(s') < Load(s)
  {
    ExecShrinks(s);
    NoCall();
    assert ExecStep(s).queue == Appended(s.queue, Nothing);
    hide ExecStep, StackOk, StackSize, CallSize, TotalLog;
  }

  /** While a handler is being executed, each operation of a worker that is not stuck brings
      it nearer to its end. */
  lemma WorkerServes(s: State)
    requires Control(s) && s.worker.Loop? && !s.stopped && !Stuck(s) && s.stack.Frames?
    ensures var s' := Next(s, Step(0)); Serving(s, s') && Load(s') < Load(s)
  {
    assert !s.calls[0].Idle? ==> !Blocked(s, 0);
    ThreadNext(s, 0);
    hide Control, Next, Serving, Perform, CallEffect, ExecStep, Load, Blocked;
    if s.calls[0].Idle? {
      LoopExecutes(s);
      ExecServes(s);
    } else {
      CallServes(s);
    }
  }

  lemma LoopExecutes(s: State)
    requires s.calls != [] && s.worker.Loop? && s.stack.Frames?
    ensures WorkerStep(s) == ExecStep(s)
  {
    hide ExecStep;
  }

  /** Between handlers the worker takes the first one. */
  lemma WorkerTakes(s: State)
    requires Control(s) && s.worker.Loop? && !s.stopped && s.stack.Empty?
    requires s.queue != [] && s.queue[0].Run?
    ensures var s' := Next(s, Step(0));
      && s' == DequeuesJob(s) && s'.calls != [] && s'.worker.Loop? && !s'.stopped
      && Load(s') + 1 <= 4 + WorkSize(s.queue[0].job.work)
  {
    ThreadNext(s, 0);
    assert s.calls[0].Idle?;
    NoCall();
    hide Next, StackOk, WorkSize, TotalLog, CallSize;
  }

  lemma OthersServe(s: State, l: Label)
    requires Control(s) && s.worker.Loop? && !s.stopped && l != Step(0)
    ensures var s' := Next(s, l); Aside(s, s') && Serving(s, s')
  {
    OthersStandAside(s, l);
    hide Aside, CallEffect, StackOk, TotalLog, Blocked, Entry;
    match l {
      case Begin(_, _) => assert Next(s, l).queue == Appended(s.queue, Nothing);
      case BeginJoin(_) => assert Next(s, l).queue == Appended(s.queue, Nothing);
      case Expire(i) =>
        if i < |s.armed| {
          assert Next(s, l).queue == Appended(s.queue, Just(Run(s.armed[i], Timer)));
        } else {
          assert Next(s, l).queue == Appended(s.queue, Nothing);
        }
      case StartFails => assert Next(s, l).queue == Appended(s.queue, Nothing);
      case Step(t) =>
        if t < |s.calls| && !Blocked(s, t) {
          assert Next(s, l).queue == Appended(s.queue, CallEffect(s, t).enqueue);
        } else {
          assert Next(s, l).queue == Appended(s.queue, Nothing);
        }
    }
  }

  // ----- a submission that is being executed or over stays so -----

  function Reached(s: State, k: nat): nat {
    Active(s, k) + EndedAs(s, k)
  }

  lemma PerformReached(s: State, t: nat, e: Effect, k: nat)
    requires t < |s.calls|
    ensures Reached(s, k) <= Reached(Perform(s, t, e), k)
  {
    AtSteady(k);
    PerformStack(s, t, e, At(k).frame);
    hide Resume, Ticked, Steady, TotalStack;
  }

  lemma StaysReached(s: State, e: FrameEffect, k: nat)
    requires s.stack.Frames? && e.Stay?
    ensures Reached(s, k) <= Reached(Stays(s, e), k)
  {
    StaysStack(s, e, At(k).frame);
    hide Ticked, TotalStack;
  }

  lemma OverReached(s: State, fate: Fate, threw: bool, k: nat)
    requires s.stack.Frames? && s.calls != []
    ensures Reached(s, k) <= Reached(IsOver(s, fate, threw), k)
  {
    AtSteady(k);
    UnwindStack(s.stack, threw, At(k).frame);
    hide Unwind, Steady, TotalStack;
  }

  lemma ExecReached(s: State, k: nat)
    requires s.stack.Frames? && s.calls != []
    ensures Reached(s, k) <= Reached(ExecStep(s), k)
  {
    hide Reached, ExecEffect, Stays, IsOver;
    match ExecEffect(s.stack.top, s.closing, |s.book.jobs|)
    case Stay(_, _, _, _, _) => StaysReached(s, ExecEffect(s.stack.top, s.closing, |s.book.jobs|), k);
    case Call(api) => EnterReached(s, api, k);
    case Over(fate, threw) => OverReached(s, fate, threw, k);
    case Still =>
  }

  lemma EnterReached(s: State, api: Api, k: nat)
    requires s.calls != []
    ensures Reached(Enter(s, 0, api), k) == Reached(s, k)
  {
    hide Entry, TotalStack, TotalLog;
  }

  lemma ClockReached(s: State, s': State, k: nat)
    requires Clock(s, s')
    ensures Reached(s', k) == Reached(s, k)
  {
    hide TotalStack, TotalLog;
  }

  lemma DequeueReached(s: State, k: nat)
    requires s.queue != [] && s.stack.Empty?
    ensures s.queue[0].Run? ==> Reached(s, k) <= Reached(DequeuesJob(s), k)
    ensures s.queue[0].Run? ==> Reached(DequeuesJob(s), s.queue[0].job.id) > 0
    ensures s.queue[0].Marker? ==> Reached(s, k) <= Reached(DequeuesMarker(s), k)
  {
    hide TotalLog;
  }

  lemma WorkerReached(s: State, k: nat)
    requires s.calls != [] && s.calls[0].Idle?
    ensures Reached(s, k) <= Reached(WorkerStep(s), k)
  {
    hide Reached, ExecStep, DequeuesJob, DequeuesMarker, Clock;
    if s.worker.Loop? && s.stack.Frames? {
      ExecReached(s, k);
    } else if s.worker.Loop? && !s.stopped && s.queue != [] {
      DequeueReached(s, k);
    } else {
      WakingIsClock(s, WorkerStep(s));
      ClockReached(s, WorkerStep(s), k);
    }
  }

  lemma StepReached(s: State, l: Label, k: nat)
    requires s.calls != []
    ensures Reached(s, k) <= Reached(Next(s, l), k)
  {
    if l.Step? {
      ThreadNext(s, l.t);
      hide Next, Reached, Perform, CallEffect, WorkerStep, Blocked;
      if l.t == 0 && s.calls[0].Idle? {
        WorkerReached(s, k);
      } else if l.t < |s.calls| {
        PerformReached(s, l.t, CallEffect(s, l.t), k);
      }
    }
    hide TotalStack, TotalLog, Entry, WorkerStep, CallStep;
  }

  // ----- the handler at position k of the queue -----

  /** The handler of submission `id` is queued at position k behind tasks only, or, if k is
      Nothing, it has been reached; what the worker may still do before it is over. */
  predicate Coming(s: State, id: nat, k: Maybe<nat>) {
    && s.calls != [] && s.worker.Loop? && !s.stopped
    && match k
       case Just(i) => TasksUpTo(s.queue, i) && s.queue[i].job.id == id
       case Nothing => Reached(s, id) > 0
  }

  function Before(s: State, k: Maybe<nat>): nat
    requires s.calls != [] && (k.Just? ==> TasksUpTo(s.queue, k.value))
  {
    Load(s) + (if k.Just? then Ahead(s.queue, k.value) else 0)
  }

  lemma QueueStays(queue: seq<Handler>, more: seq<Handler>, k: nat, id: nat)
    requires TasksUpTo(queue, k) && queue[k].job.id == id
    requires exists x :: more == Appended(queue, x)
    ensures TasksUpTo(more, k) && more[k].job.id == id && Ahead(more, k) == Ahead(queue, k)
  {
    var x :| more == Appended(queue, x);
    AheadAppended(queue, x, k);
  }

  /** Some step before the last the submission was over, or the rest has become less. */
  lemma ComesNearer(s: State, l: Label, id: nat, k: Maybe<nat>) returns (k': Maybe<nat>)
    requires Reachable(s) && !s.closing && Coming(s, id, k)
    ensures var s' := Next(s, l);
      EndedAs(s, id) > 0
      || (Coming(s', id, k') && Before(s', k') + (if l == Step(0) then 1 else 0) <= Before(s, k))
  {
    ReachableInv(s);
    assert Control(s);
    hide Inv, Control, Next, Reachable, Reached, Load, DequeuesJob, Ahead, Serving, Aside, Coming, Before;
    if l == Step(0) && s.stack.Empty? {
      if k.Just? {
        k' := TakesOne(s, id, k.value);
      } else {
        k' := k;
        assert EndedAs(s, id) > 0;
      }
    } else {
      k' := k;
      if l != Step(0) {
        OthersServe(s, l);
      } else {
        if s.calls[0].Await? {
          WorkerNeverDeadlocks(s);
        }
        WorkerServes(s);
      }
      StaysComing(s, l, id, k);
    }
  }

  /** The queue has at most grown at its end. */
  lemma StaysComing(s: State, l: Label, id: nat, k: Maybe<nat>)
    requires Coming(s, id, k) && Serving(s, Next(s, l)) && Load(Next(s, l)) <= Load(s)
    ensures Coming(Next(s, l), id, k)
    ensures Before(Next(s, l), k) - Load(Next(s, l)) == Before(s, k) - Load(s)
  {
    StepReached(s, l, id);
    hide Next, Reached, Load, Ahead;
    if k.Just? {
      QueueStays(s.queue, Next(s, l).queue, k.value, id);
    }
  }

  /** The worker takes the first handler. */
  lemma TakesOne(s: State, id: nat, k: nat) returns (k': Maybe<nat>)
    requires Control(s) && s.stack.Empty? && Coming(s, id, Just(k))
    ensures Coming(Next(s, Step(0)), id, k') && Before(Next(s, Step(0)), k') + 1 <= Before(s, Just(k))
  {
    WorkerTakes(s);
    hide Control, Next, Reached, Load, DequeuesJob, Ahead;
    k' := if k == 0 then Nothing else Just(k - 1);
  }

  lemma {:induction false} IsReached(s: State, ls: seq<Label>, id: nat, k: Maybe<nat>)
    returns (k': Maybe<nat>)
    requires Reachable(s) && Coming(s, id, k) && !Exec(s, ls).closing
    ensures var s' := Exec(s, ls);
      EndedAs(s', id) > 0 || (Coming(s', id, k') && Before(s', k') + Turns(ls) <= Before(s, k))
  {
    k' := k;
    if ls != [] {
      var before, l := ls[..|ls| - 1], ls[|ls| - 1];
      var s1 := Exec(s, before);
      ReachableLater(s, before);
      ReachableInv(s1);
      StepGrows(s1, l);
      k' := IsReached(s, before, id, k);
      if EndedAs(s1, id) == 0 {
        k' := ComesNearer(s1, l, id, k');
      }
      EndedStays(s1, l, id);
    }
    hide Inv, Next, Coming, Before, Reachable;
  }

  lemma EndedStays(s: State, l: Label, id: nat)
    requires s.calls != []
    ensures EndedAs(s, id) <= EndedAs(Next(s, l), id)
  {
    StepGrows(s, l);
    hide Next;
  }

  lemma SomethingBefore(s: State, id: nat, k: Maybe<nat>)
    requires Coming(s, id, k) && EndedAs(s, id) == 0
    ensures Before(s, k) > 0
  {
    if s.stack.Frames? {
      RestIsPositive(s.stack.top);
    }
    hide TotalLog, WorkSize, FrameSize, RestSize, RestStack;
  }

  lemma RestIsPositive(f: Frame)
    ensures RestSize(f) > 0 && FrameSize(f) > 0
  {
    if f.phase.In? {
      if f.phase.rest.Do? {
      }
    }
  }

  /** A handler that is queued behind k tasks is over after so many operations of the worker
      as these tasks and its own may take, if the pipeline is not closed before that. */
  lemma HandlerIsReached(s: State, ls: seq<Label>, k: nat)
    requires Reachable(s) && s.calls != [] && s.worker.Loop? && !s.stopped && TasksUpTo(s.queue, k)
    requires !Exec(s, ls).closing && Turns(ls) >= Load(s) + Ahead(s.queue, k)
    ensures EndedAs(Exec(s, ls), s.queue[k].job.id) > 0
  {
    var id := s.queue[k].job.id;
    var k' := IsReached(s, ls, id, Just(k));
    if EndedAs(Exec(s, ls), id) == 0 {
      SomethingBefore(Exec(s, ls), id, k');
    }
    hide Exec, Reachable, Load;
  }

  // ----- a caller of PostSynchronously -----

  lemma {:induction false} RunUnposted(s: State, ls: seq<Label>, id: nat)
    requires s.calls != [] && Unposted(s, id)
    ensures Unposted(Exec(s, ls), id)
  {
    if ls != [] {
      var before := ls[..|ls| - 1];
      RunUnposted(s, before, id);
      RunGrows(s, before);
      StepDirect(Exec(s, before), ls[|ls| - 1], id);
    }
    hide Next, Unposted;
  }

  /** On an open pipeline a PostSynchronously that is over has settled its promise once. */
  lemma OverIsSettledOnce(s: State, id: nat)
    requires Reachable(s) && !s.closing && Unposted(s, id) && s.book.jobs[id].Sync?
    requires EndedAs(s, id) > 0
    ensures TotalLog(s.promises, SettledAs(id)) == 1 && !Lookup(s.promises, id).Unset?
  {
    ReachableInv(s);
    LedgerAt(s, id);
    UnsettledIsSomewhere(s, id);
    ClosedOutBound(s.book.ends, id);
    LookupCounts(s.promises, id);
    hide Mass, TotalLog, Control, Jobs, Order, Nesting, Waits, Owned, Ledger, Accounts;
  }

  /** A client in PostSynchronously whose wrapper is being executed or is queued behind tasks
      only gets its answer: once the worker has performed the operations that this may take,
      its promise has been settled exactly once, if the pipeline is not closed before that. */
  lemma CallerIsServed(s: State, ls: seq<Label>, t: nat, k: Maybe<nat>)
    requires Reachable(s) && t < |s.calls| && s.calls[t].Await? && Coming(s, s.calls[t].id, k)
    requires !Exec(s, ls).closing && Turns(ls) >= Before(s, k)
    ensures var s', id := Exec(s, ls), s.calls[t].id;
      && TotalLog(s'.promises, SettledAs(id)) == 1 && !Lookup(s'.promises, id).Unset?
      && (t < |s'.calls| && s'.calls[t] == Await(id) ==> !Blocked(s', t))
  {
    ReachableInv(s);
    var s', id := Exec(s, ls), s.calls[t].id;
    assert WaitOk(s, t);
    hide Ledger, Control, Jobs, Accounts, Order, Closing, Nesting, Owned, Waits, Exec, Reachable, Coming, Before;
    assert Unposted(s, id);
    RunUnposted(s, ls, id);
    ReachableLater(s, ls);
    RunGrows(s, ls);
    var k' := IsReached(s, ls, id, k);
    if EndedAs(s', id) == 0 {
      SomethingBefore(s', id, k');
    }
    OverIsSettledOnce(s', id);
  }

  // ----- runs that never close -----

  /** Operations that the handlers before the first marker may take. */
  function Everything(queue: seq<Handler>): nat {
    if queue == [] || queue[0].Marker? then 0
    else 4 + WorkSize(queue[0].job.work) + Everything(queue[1..])
  }

  lemma {:induction false} AheadWithin(queue: seq<Handler>, k: nat)
    requires TasksUpTo(queue, k)
    ensures Ahead(queue, k) <= Everything(queue)
  {
    if k > 0 {
      AheadWithin(queue[1..], k - 1);
    }
  }

  lemma OpenWorkerLoops(s: State)
    requires Reachable(s) && s.started && Marker !in s.book.hist
    ensures s.worker.Loop? && !s.stopped && Marker !in s.queue
  {
    ReachableInv(s);
    hide Ledger, Jobs, Accounts, Closing, Nesting, Waits, Owned, StackOk, TotalLog, Pending, Markers;
  }

  lemma AwaitedIsSomewhere(s: State, t: nat)
    requires Reachable(s) && t < |s.calls| && s.calls[t].Await?
    ensures Waiting(s, s.calls[t].id) + Reached(s, s.calls[t].id) == 1
  {
    ReachableInv(s);
    var id := s.calls[t].id;
    assert WaitOk(s, t);
    ExactlyOneFate(s, id);
    TotalZero(s.calls, At(id).call);
    TotalZero(s.armed, At(id).timer);
    hide Control, Order, Nesting, TotalLog, TotalStack, Mass, Ledger;
  }

  lemma FindHandler(s: State, id: nat) returns (i: nat)
    requires Waiting(s, id) > 0
    ensures i < |s.queue| && s.queue[i].Run? && s.queue[i].job.id == id
  {
    i := TotalPositive(s.queue, At(id).handler);
  }

  lemma AwaitedOnOpenLoop(s: State, t: nat)
    requires Reachable(s) && t < |s.calls| && s.calls[t].Await? && Marker !in s.book.hist
    ensures s.worker.Loop? && !s.stopped && Marker !in s.queue
    ensures Waiting(s, s.calls[t].id) + Reached(s, s.calls[t].id) == 1
  {
    ReachableInv(s);
    assert Control(s) && s.started;
    hide Inv, Reachable, Waiting, Reached;
    OpenWorkerLoops(s);
    AwaitedIsSomewhere(s, t);
  }

  lemma FindComing(s: State, t: nat) returns (k: Maybe<nat>)
    requires Reachable(s) && t < |s.calls| && s.calls[t].Await? && Marker !in s.book.hist
    ensures Coming(s, s.calls[t].id, k) && Before(s, k) <= Load(s) + Everything(s.queue)
  {
    hide Reachable, Load, Ahead, Reached, Waiting, Everything;
    AwaitedOnOpenLoop(s, t);
    k := Nothing;
    if Reached(s, s.calls[t].id) == 0 {
      var i := FindHandler(s, s.calls[t].id);
      assert TasksUpTo(s.queue, i);
      AheadWithin(s.queue, i);
      k := Just(i);
    }
  }

  /** In a run without a Close every client inside future.get() is served: after as many
      operations of the worker as everything queued may take, its promise has been settled
      exactly once, and future.get() returns what CallerGetsTheOutcome says. */
  lemma EveryCallerIsServed(s: State, ls: seq<Label>, t: nat)
    requires Reachable(s) && t < |s.calls| && s.calls[t].Await? && Marker !in s.book.hist
    requires !Exec(s, ls).closing && Turns(ls) >= Load(s) + Everything(s.queue)
    ensures var s', id := Exec(s, ls), s.calls[t].id;
      && TotalLog(s'.promises, SettledAs(id)) == 1 && !Lookup(s'.promises, id).Unset?
      && (t < |s'.calls| && s'.calls[t] == Await(id) ==> !Blocked(s', t))
  {
    hide Exec, Reachable, Load, Before, Coming, Everything;
    var k := FindComing(s, t);
    CallerIsServed(s, ls, t, k);
  }
}
