/** No submission is lost, duplicated, or run after it was refused. */
module Conservation {
  import opened Tasks
  import opened Machine
  import opened Counting
  import opened Invariant
  import opened Growth
  import opened Safety

  function Inside(s: State, k: nat): nat { Total(s.calls, At(k).call) }
  function Waiting(s: State, k: nat): nat { Total(s.queue, At(k).handler) }
  function Armed(s: State, k: nat): nat { Total(s.armed, At(k).timer) }
  function Active(s: State, k: nat): nat { TotalStack(s.stack, At(k).frame) }
  function EndedAs(s: State, k: nat): nat { TotalLog(s.book.ends, EndOf(k)) }
  function TimesRun(s: State, k: nat): nat { TotalLog(s.book.trace, BeganAs(k)) }

  /** Every submission is, exactly once, either inside a method with its submitter, in the
      queue, behind a timer, being executed, or over; identities not yet given out are
      nowhere. */
  lemma ExactlyOneFate(s: State, k: nat)
    requires Reachable(s)
    ensures Inside(s, k) + Waiting(s, k) + Armed(s, k) + Active(s, k) + EndedAs(s, k)
         == (if k < |s.book.jobs| then 1 else 0)
  {
    ReachableInv(s);
    LedgerAt(s, k);
  }

  lemma {:induction false} RanEndBound(ends: Log<Ending>, k: nat)
    ensures TotalLog(ends, RanEnd(k)) + TotalLog(ends, NoPromise(k)) == TotalLog(ends, EndOf(k))
  {
    if ends.Add? {
      RanEndBound(ends.earlier, k);
    }
  }

  lemma {:induction false} BegunBound(stack: Stack, k: nat)
    ensures TotalStack(stack, BegunFrame(k)) <= TotalStack(stack, At(k).frame)
  {
    if stack.Frames? {
      BegunBound(stack.below, k);
    }
  }

  /** No body runs twice; the body of a submission that was refused or dismissed has not
      run; one that finished or threw ran exactly once. */
  lemma RunsAtMostOnce(s: State, k: nat)
    requires Reachable(s)
    ensures TimesRun(s, k) <= 1
    ensures TotalLog(s.book.ends, NoPromise(k)) > 0 ==> TimesRun(s, k) == 0
    ensures TotalLog(s.book.ends, RanEnd(k)) > 0 ==> TimesRun(s, k) == 1
    ensures Inside(s, k) + Waiting(s, k) + Armed(s, k) > 0 ==> TimesRun(s, k) == 0
  {
    ReachableInv(s);
    LedgerAt(s, k);
    RanEndBound(s.book.ends, k);
    BegunBound(s.stack, k);
    hide TotalLog, TotalStack, Total, Inv;
  }

  /** A refusal or a dismissal is final: the task never runs later. */
  lemma RefusedNeverRuns(s: State, ls: seq<Label>, k: nat)
    requires Reachable(s) && TotalLog(s.book.ends, NoPromise(k)) > 0
    ensures TimesRun(Exec(s, ls), k) == 0
  {
    ReachableInv(s);
    EndsGrow(s, ls, NoPromise(k));
    ReachableLater(s, ls);
    RunsAtMostOnce(Exec(s, ls), k);
  }

  /** tasks_run_ counts the activations of ExecTask_ whose body ended normally, wrappers
      and their inner tasks alike. */
  lemma TasksRunCountsNormalEnds(s: State)
    requires Reachable(s)
    ensures s.tasksRun == TotalLog(s.book.trace, NormalEnd)
  {
    ReachableInv(s);
  }

  /** No exception of a task leaves the worker loop: the worker ends only by way of the
      close marker, or before the constructor has returned. */
  lemma ExceptionsAreContained(s: State)
    requires Reachable(s)
    ensures !s.worker.Escaped?
    ensures s.worker.Leaving? || s.worker.Exited? ==> s.closed && s.stopped && s.book.shut == 1
    ensures s.worker.Failed? ==> !s.started
  {
    ReachableInv(s);
  }
}
