/** What tasks_run_ counts. */
module TasksRun {
  import opened Tasks
  import opened Machine
  import opened Counting
  import opened Invariant
  import opened Conservation
  import opened Rendezvous
  import opened Safety

  /** A wrapper catches what its task throws. */
  predicate Catches(s: State, k: nat) {
    (k < |s.book.jobs| ==> !s.book.jobs[k].Plain?) ==> TotalLog(s.book.ends, ThrewEnd(k)) == 0
  }

  lemma {:induction false} ThrewIsAnEnd(ends: Log<Ending>, k: nat)
    ensures TotalLog(ends, RanEnd(k)) == TotalLog(ends, FinishedEnd(k)) + TotalLog(ends, ThrewEnd(k))
    ensures TotalLog(ends, ThrewEnd(k)) <= TotalLog(ends, EndOf(k))
  {
    if ends.Add? {
      ThrewIsAnEnd(ends.earlier, k);
    }
  }

  /** A submission that has thrown is not a wrapper. */
  lemma OverCatches(s: State, fate: Fate, threw: bool, k: nat)
    requires s.calls != [] && s.stack.Frames? && FrameOk(s.stack.top, s.stack.below)
    requires JobOk(s.stack.top.job, s.book.jobs) && Catches(s, k)
    requires ExecEffect(s.stack.top, s.closing, |s.book.jobs|) == Over(fate, threw)
    ensures Catches(IsOver(s, fate, threw), k)
  {
    hide Unwind;
  }

  /** Submissions that are new have not ended. */
  lemma NewCatches(s: State, s': State, k: nat)
    requires Inv(s) && Catches(s, k) && s.book.jobs <= s'.book.jobs
    requires TotalLog(s'.book.ends, ThrewEnd(k)) == TotalLog(s.book.ends, ThrewEnd(k))
    ensures Catches(s', k)
  {
    LedgerAt(s, k);
    ThrewIsAnEnd(s.book.ends, k);
    hide Inv, TotalLog, Mass, Ledger;
  }

  lemma PerformThrowsNothing(s: State, t: nat, k: nat)
    requires t < |s.calls|
    ensures TotalLog(Perform(s, t, CallEffect(s, t)).book.ends, ThrewEnd(k))
         == TotalLog(s.book.ends, ThrewEnd(k))
  {
    var e := CallEffect(s, t);
    assert e.over.Just? ==> !e.over.value.fate.Threw?;
    hide CallEffect, Resume, Ticked;
  }

  lemma WorkerCatches(s: State, k: nat)
    requires Inv(s) && s.calls[0].Idle? && Catches(s, k)
    ensures Catches(WorkerStep(s), k)
  {
    if s.worker.Loop? && s.stack.Frames? {
      ExecCatches(s, k);
    } else if s.worker.Loop? && !s.stopped && s.queue != [] {
      assert WorkerStep(s).book.ends == s.book.ends && WorkerStep(s).book.jobs == s.book.jobs;
    } else {
      WakingIsClock(s, WorkerStep(s));
    }
    hide Inv, ExecStep, TotalLog;
  }

  lemma ExecCatches(s: State, k: nat)
    requires Inv(s) && s.calls[0].Idle? && s.stack.Frames? && Catches(s, k)
    ensures Catches(ExecStep(s), k)
  {
    assert FrameOk(s.stack.top, s.stack.below) && JobOk(s.stack.top.job, s.book.jobs);
    hide Inv, ExecEffect, IsOver, Catches, TotalLog, Ticked, Entry;
    var e := ExecEffect(s.stack.top, s.closing, |s.book.jobs|);
    match e
    case Stay(_, _, _, _, _) => NewCatches(s, Stays(s, e), k);
    case Call(api) => NewCatches(s, Enter(s, 0, api), k);
    case Over(fate, threw) => OverCatches(s, fate, threw, k);
    case Still =>
  }

  lemma StepCatches(s: State, l: Label, k: nat)
    requires Inv(s) && Catches(s, k)
    ensures Catches(Next(s, l), k)
  {
    assert s.calls != [];
    if l.Step? {
      ThreadNext(s, l.t);
      hide Inv, Next, WorkerStep, Perform, CallEffect, Blocked, Catches;
      if l.t == 0 && s.calls[0].Idle? {
        WorkerCatches(s, k);
      } else if l.t < |s.calls| {
        PerformThrowsNothing(s, l.t, k);
        assert s.book.jobs <= Perform(s, l.t, CallEffect(s, l.t)).book.jobs;
        NewCatches(s, Perform(s, l.t, CallEffect(s, l.t)), k);
      }
    } else {
      OthersThrowNothing(s, l);
      hide Inv, Next, Catches, TotalLog;
      NewCatches(s, Next(s, l), k);
    }
  }

  lemma OthersThrowNothing(s: State, l: Label)
    requires !l.Step?
    ensures s.book.jobs <= Next(s, l).book.jobs && Next(s, l).book.ends == s.book.ends
  {
    hide WorkerStep, CallStep, Entry;
  }

  lemma {:induction false} RunCatches(s: State, ls: seq<Label>, k: nat)
    requires Inv(s) && Catches(s, k)
    ensures Catches(Exec(s, ls), k)
  {
    if ls != [] {
      RunCatches(s, ls[..|ls| - 1], k);
      RunKeeps(s, ls[..|ls| - 1]);
      StepCatches(Exec(s, ls[..|ls| - 1]), ls[|ls| - 1], k);
    }
    hide Inv, Next, Catches;
  }

  lemma WrappersCatch(s: State, k: nat)
    requires Reachable(s)
    ensures Catches(s, k)
  {
    var capacity: nat, clients: nat, ls: seq<Label> :| s == Exec(Init(capacity, clients), ls);
    InitInv(capacity, clients);
    RunCatches(Init(capacity, clients), ls, k);
    hide Inv, Exec;
  }

  /** How much submission k has contributed to tasks_run_. */
  function Contributed(s: State, k: nat): nat {
    TotalLog(s.book.trace, NormalAs(k))
  }

  /** A PostSynchronously that is over on an open pipeline has added two to tasks_run_ if its
      task returned, one for the task and one for the wrapper, and one if its task threw. */
  lemma SynchronousAdds(s: State, k: nat) returns (inner: nat)
    requires Reachable(s) && !s.closing && k < |s.book.jobs| && s.book.jobs[k].Sync?
    requires EndedAs(s, k) > 0 && !Lookup(s.promises, k).Unset?
    ensures WrapperOf(s.book.inside, inner) == Just(k) && inner != k
    ensures Contributed(s, k) == 1
    ensures Contributed(s, inner) == (if Lookup(s.promises, k).Value? then 1 else 0)
  {
    ReachableInv(s);
    assert AllJudged(s.promises, s.book.ends) && AllOwned(s.promises, s.book);
    hide Inv, TotalLog, Reachable, AllJudged, AllOwned;
    inner := FindSettled(s.promises, k, s.book.ends, s.book);
    WrappersCatch(s, k);
    SettledNotRefused(s, k);
    Contributes(s, k);
    Contributes(s, inner);
  }

  lemma SettledNotRefused(s: State, k: nat)
    requires Reachable(s) && k < |s.book.jobs| && s.book.jobs[k].Sync? && !Lookup(s.promises, k).Unset?
    ensures TotalLog(s.book.ends, CapacityEnd(k)) == 0
  {
    SettledAtMostOnce(s, k);
    ClosedOutBound(s.book.ends, k);
    hide TotalLog, Reachable;
  }

  /** A submission that is over on an open pipeline, and not for lack of capacity, has
      contributed one unless it threw. */
  lemma Contributes(s: State, k: nat)
    requires Inv(s) && !s.closing
    ensures Contributed(s, k) + TotalLog(s.book.ends, ThrewEnd(k)) + TotalLog(s.book.ends, CapacityEnd(k))
         == EndedAs(s, k) <= 1
  {
    LedgerAt(s, k);
    ThrewIsAnEnd(s.book.ends, k);
    RanEndBound(s.book.ends, k);
    ClosedOutBound(s.book.ends, k);
    hide TotalLog, Ledger, Control, Jobs, Order, Nesting, Mass, Waits, Owned, Accounts;
  }
}
