/** Closing ends the worker, and joining waits for exactly that. */
module Drain {
  import opened Tasks
  import opened Machine
  import opened Counting
  import opened Invariant
  import opened Growth
  import opened Conservation
  import opened Rendezvous
  import opened Shutdown
  import opened Progress
  import opened Safety

  // ----- the worker that waits for a promise nobody will settle -----

  /** The worker is stuck exactly when the PostSynchronously that a body is in was dismissed
      because the pipeline is closing. */
  lemma StuckMeansDismissed(s: State)
    requires Reachable(s) && s.calls != [] && s.calls[0].Await?
    ensures Stuck(s) <==> TotalLog(s.book.ends, ClosedOut(s.calls[0].id)) > 0
    ensures Stuck(s) ==> s.closing
  {
    ReachableInv(s);
    assert WaitOk(s, 0);
    OverIsSettledOrClosed(s, s.calls[0].id);
    hide Control, Ledger, Jobs, Order, Nesting, Mass, TotalLog;
  }

  lemma StuckStaysInCall(s: State, l: Label)
    requires Stuck(s)
    ensures Next(s, l).calls != [] && Next(s, l).calls[0] == s.calls[0]
  {
    hide CallEffect, WorkerStep, Entry, Ticked, Resume;
  }

  /** A stuck worker stays stuck in every continuation. */
  lemma {:induction false} StuckForever(s: State, ls: seq<Label>)
    requires Reachable(s) && Stuck(s)
    ensures Stuck(Exec(s, ls)) && Exec(s, ls).calls[0] == s.calls[0]
  {
    if ls != [] {
      StuckForever(s, ls[..|ls| - 1]);
      StuckStaysInCall(Exec(s, ls[..|ls| - 1]), ls[|ls| - 1]);
      var s', k := Exec(s, ls), s.calls[0].id;
      ReachableLater(s, ls);
      ReachableInv(s);
      assert WaitOk(s, 0);
      StuckMeansDismissed(s);
      ClosedOutBound(s.book.ends, k);
      EndsGrow(s, ls, NoPromise(k));
      RunGrows(s, ls);
      SettledAtMostOnce(s', k);
      hide Inv, Next, TotalLog, WaitOk, Reachable;
    }
  }

  // ----- draining -----

  /** How often the worker is scheduled. */
  function Turns(ls: seq<Label>): nat {
    if ls == [] then 0 else Turns(ls[..|ls| - 1]) + (if ls[|ls| - 1] == Step(0) then 1 else 0)
  }

  lemma {:induction false} Drains(s: State, ls: seq<Label>)
    requires Reachable(s) && s.calls != [] && MarkerComing(s)
    ensures Exec(s, ls).calls != [] && MarkerComing(Exec(s, ls))
    ensures Stuck(Exec(s, ls)) || Rank(Exec(s, ls)) == 0 || Rank(Exec(s, ls)) + Turns(ls) <= Rank(s)
  {
    if ls != [] {
      var before, l := ls[..|ls| - 1], ls[|ls| - 1];
      var s1 := Exec(s, before);
      Drains(s, before);
      ReachableLater(s, before);
      ReachableInv(s1);
      StepRank(s1, l);
      if Stuck(s1) {
        StuckForever(s1, [l]);
        assert [l][..0] == [];
        assert Exec(s1, [l]) == Next(s1, l);
      }
      hide Inv, Next, Rank, MarkerComing, Reachable;
    }
  }

  /** After so many of its own operations a closed pipeline's worker has ended or is stuck. */
  lemma ExitedUnlessStuck(s: State, ls: seq<Label>)
    requires Reachable(s) && s.calls != [] && s.closing && Turns(ls) >= Rank(s)
    ensures Exec(s, ls).worker.Exited? <==> !Stuck(Exec(s, ls))
  {
    FlagsFollowTheMarker(s);
    Drains(s, ls);
    ReachableLater(s, ls);
    ReachableInv(Exec(s, ls));
    ClosingIsPermanent(s, ls);
    RankZero(Exec(s, ls));
    hide Ledger, Jobs, Accounts, Order, Closing, Nesting, Waits, Owned, StackOk, Exec;
  }

  lemma RankZero(s: State)
    requires Control(s)
    ensures Rank(s) == 0 ==> s.worker.Exited? || s.worker.Failed?
    ensures s.worker.Exited? ==> !Stuck(s)
  {
  }

  // ----- bodies that do not call PostSynchronously -----

  predicate NoSync(task: Task) {
    match task
    case Return => true
    case Raise => true
    case Do(api, ok, ko) => NoSyncApi(api) && NoSync(ok) && NoSync(ko)
  }

  predicate NoSyncApi(api: Api) {
    match api
    case PostSynchronously(_) => false
    case Close => true
    case _ => NoSync(api.task)
  }

  /** A client may call PostSynchronously, but no body it submits does. */
  predicate TameLabel(l: Label) {
    l.Begin? && !l.api.Close? ==> NoSync(l.api.task)
  }

  predicate TameStack(stack: Stack) {
    match stack
    case Empty => true
    case Frames(f, below) =>
      (f.phase.In? ==> NoSync(f.phase.rest)) && (below.Frames? ==> !f.job.work.Sync?) && TameStack(below)
  }

  predicate Tame(s: State) {
    && s.calls != []
    && (forall k | 0 <= k < |s.book.jobs| :: NoSync(s.book.jobs[k].task))
    && TameStack(s.stack)
    && !s.calls[0].Await?
    && (Carrying(s.calls[0]) ==> !s.calls[0].job.work.Sync?)
  }

  lemma TameUnwind(stack: Stack, threw: bool)
    requires stack.Frames? && TameStack(stack)
    ensures TameStack(Unwind(stack, threw))
  {
    assert TameStack(stack.below);
  }

  lemma TamePerform(s: State, t: nat)
    requires Tame(s) && Control(s) && t < |s.calls|
    ensures Tame(Perform(s, t, CallEffect(s, t)))
  {
    var e := CallEffect(s, t);
    if t == 0 {
      assert !e.next.Await? && (Carrying(e.next) ==> !e.next.job.work.Sync?);
      assert e.nest.Just? ==> !e.nest.value.job.work.Sync? && e.nest.value.phase.Check?;
    }
    assert t != 0 ==> e.nest.Nothing?;
    hide CallEffect, Ticked, Resume, StackOk, NoSync;
  }

  lemma TameEnter(s: State, t: nat, api: Api)
    requires Tame(s) && t < |s.calls| && (t == 0 ==> NoSyncApi(api)) && TameLabel(Begin(t, api))
    ensures Tame(Enter(s, t, api))
  {
    assert t == 0 && !api.Close? ==> !Entry(api, |s.book.jobs|).job.work.Sync?;
    assert !Entry(api, |s.book.jobs|).Await?;
    assert !api.Close? ==> Entry(api, |s.book.jobs|).job.work.task == api.task;
    assert api.Close? ==> !Carrying(Entry(api, |s.book.jobs|));
    hide Entry, NoSync;
  }

  lemma TameStays(s: State)
    requires Tame(s) && Jobs(s) && s.stack.Frames?
    requires ExecEffect(s.stack.top, s.closing, |s.book.jobs|).Stay?
    ensures Tame(Stays(s, ExecEffect(s.stack.top, s.closing, |s.book.jobs|)))
  {
    var f := s.stack.top;
    var e := ExecEffect(f, s.closing, |s.book.jobs|);
    assert NoSync(f.job.work.task) by { assert JobOk(f.job, s.book.jobs); }
    TameStayEffect(f, s.closing, |s.book.jobs|);
    hide ExecEffect, Ticked, StackJobs, NoSync;
    if e.call.Just? {
      assert TameStack(Frames(e.call.value, SetPhase(s.stack, e.phase)));
    }
    hide TameStack, Jobs;
  }

  lemma TameStayEffect(f: Frame, closing: bool, id: nat)
    requires NoSync(f.job.work.task) && (f.phase.In? ==> NoSync(f.phase.rest))
    requires ExecEffect(f, closing, id).Stay?
    ensures var e := ExecEffect(f, closing, id);
      && (e.phase.In? ==> NoSync(e.phase.rest))
      && (e.call.Just? ==> e.call.value.job.work == Plain(f.job.work.task) && !e.call.value.phase.In?)
  {
    hide Ticked;
  }

  lemma TameOver(s: State, fate: Fate, threw: bool)
    requires Tame(s) && s.stack.Frames?
    ensures Tame(IsOver(s, fate, threw))
  {
    TameUnwind(s.stack, threw);
    hide Unwind, NoSync;
  }

  lemma TameExec(s: State)
    requires Tame(s) && Jobs(s) && s.stack.Frames?
    ensures Tame(ExecStep(s))
  {
    var f := s.stack.top;
    var e := ExecEffect(f, s.closing, |s.book.jobs|);
    assert e.Call? ==> f.phase.In? && f.phase.rest.Do? && f.phase.rest.api == e.api;
    assert e.Call? ==> NoSyncApi(e.api) && TameLabel(Begin(0, e.api));
    hide Tame, ExecEffect, Stays, IsOver, Enter;
    match e
    case Stay(_, _, _, _, _) => TameStays(s);
    case Call(api) => TameEnter(s, 0, api);
    case Over(fate, threw) => TameOver(s, fate, threw);
    case Still =>
  }

  lemma TameStep(s: State, l: Label)
    requires Inv(s) && Tame(s) && TameLabel(l)
    ensures Tame(Next(s, l))
  {
    assert Control(s) && Jobs(s);
    hide Inv;
    match l {
      case Begin(t, api) =>
        if Free(s, t) {
          TameEnter(s, t, api);
        }
      case BeginJoin(_) =>
      case Expire(_) =>
      case StartFails =>
      case Step(t) =>
        if t < |s.calls| {
          TamePerform(s, t);
          TameWorker(s);
        }
    }
    hide CallEffect, Perform, WorkerStep, Enter, StackOk, StackJobs, TameStack, NoSync;
  }

  lemma TameWorker(s: State)
    requires Tame(s) && Jobs(s) && StackOk(s.stack)
    ensures Tame(WorkerStep(s))
  {
    if s.stack.Frames? {
      TameExec(s);
    }
    hide ExecStep, StackJobs, NoSync;
    match s.worker {
      case Loop => case Spawned => case Locked => case Shut => case Stopping => case Leaving =>
      case Exited => case Failed => case Escaped =>
    }
  }

  lemma {:induction false} TameRun(s: State, ls: seq<Label>)
    requires Inv(s) && Tame(s) && forall i | 0 <= i < |ls| :: TameLabel(ls[i])
    ensures Tame(Exec(s, ls))
  {
    if ls != [] {
      TameRun(s, ls[..|ls| - 1]);
      RunKeeps(s, ls[..|ls| - 1]);
      TameStep(Exec(s, ls[..|ls| - 1]), ls[|ls| - 1]);
    }
  }

  // ----- joining -----

  /** WaitUntilClosed returns only after the worker has left its loop for good: waiter_ is
      held from before the constructor returns until then. */
  lemma JoinReturnsAfterExit(s: State, t: nat)
    requires Reachable(s) && t < |s.calls| && s.calls[t].Join?
    ensures Next(s, Step(t)).calls[t].Idle? <==> s.worker.Exited?
    ensures s.worker.Exited? ==> s.closed && s.stack.Empty?
  {
    ReachableInv(s);
    assert Control(s) && t > 0;
    ThreadNext(s, t);
    hide Inv, Next, StackOk, Ticked, Resume, TotalLog;
  }

  lemma {:induction false} ExitIsFinal(s: State, ls: seq<Label>)
    requires Reachable(s) && s.worker.Exited?
    ensures Exec(s, ls).worker.Exited? && !Exec(s, ls).waiter
    ensures Exec(s, ls).book.trace == s.book.trace && Exec(s, ls).promises == s.promises
  {
    ReachableInv(s);
    if ls != [] {
      var s1 := Exec(s, ls[..|ls| - 1]);
      ExitIsFinal(s, ls[..|ls| - 1]);
      ReachableLater(s, ls[..|ls| - 1]);
      ReachableInv(s1);
      ExitedStep(s1, ls[|ls| - 1]);
      hide Inv, Next;
    }
  }

  lemma ExitedStep(s: State, l: Label)
    requires Control(s) && s.worker.Exited?
    ensures Next(s, l).worker.Exited? && !Next(s, l).waiter
    ensures Next(s, l).book.trace == s.book.trace && Next(s, l).promises == s.promises
  {
    hide CallEffect, Ticked, Resume, ExecStep, Entry;
  }

  // ----- a caller of PostSynchronously when the worker is gone -----

  lemma ClosedOutIsAnEnd(s: State, k: nat)
    ensures TotalLog(s.book.ends, ClosedOut(k)) <= EndedAs(s, k)
  {
    RanEndBound(s.book.ends, k);
    ClosedOutBound(s.book.ends, k);
    hide TotalLog;
  }

  /** When the worker has ended, a client inside future.get() has been served unless its
      wrapper was refused or dismissed because of closing, or is stranded behind the marker. */
  lemma UnservedWhen(s: State, t: nat)
    requires Reachable(s) && s.worker.Exited? && t < |s.calls| && s.calls[t].Await?
    ensures var k := s.calls[t].id;
      Lookup(s.promises, k).Unset? <==> TotalLog(s.book.ends, ClosedOut(k)) > 0 || Waiting(s, k) == 1
  {
    ReachableInv(s);
    var k := s.calls[t].id;
    assert WaitOk(s, t);
    ExactlyOneFate(s, k);
    TotalZero(s.calls, At(k).call);
    TotalZero(s.armed, At(k).timer);
    ClosedOutIsAnEnd(s, k);
    LedgerAt(s, k);
    LookupCounts(s.promises, k);
    if EndedAs(s, k) == 1 {
      OverIsSettledOrClosed(s, k);
    }
    hide Ledger, Order, Nesting, TotalLog, TotalStack, Mass, Total, StackOk, StackJobs;
  }

  /** Such a client waits for ever, and no other does. */
  lemma {:induction false} UnservedForEver(s: State, t: nat, ls: seq<Label>)
    requires Reachable(s) && s.worker.Exited? && 0 < t < |s.calls| && s.calls[t].Await?
    requires Lookup(s.promises, s.calls[t].id).Unset?
    ensures |Exec(s, ls).calls| == |s.calls| && Exec(s, ls).calls[t] == s.calls[t]
  {
    ReachableInv(s);
    RunGrows(s, ls);
    if ls != [] {
      var before := ls[..|ls| - 1];
      UnservedForEver(s, t, before);
      ExitIsFinal(s, before);
      AwaitStays(Exec(s, before), ls[|ls| - 1], t);
    }
    hide Inv, Next;
  }

  lemma AwaitStays(s: State, l: Label, t: nat)
    requires s.worker.Exited? && 0 < t < |s.calls| && s.calls[t].Await?
    requires Lookup(s.promises, s.calls[t].id).Unset?
    ensures |Next(s, l).calls| == |s.calls| && Next(s, l).calls[t] == s.calls[t]
  {
    hide CallEffect, Ticked, Resume, ExecStep, Entry;
  }
}
