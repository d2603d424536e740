/** PostSynchronously: what the caller receives, and when it waits for ever. */
module Rendezvous {
  import opened Tasks
  import opened Machine
  import opened Counting
  import opened Invariant
  import opened Conservation
  import opened Safety

  lemma {:induction false} LookupCounts(promises: Log<Settled>, k: nat)
    ensures Lookup(promises, k).Unset? <==> TotalLog(promises, SettledAs(k)) == 0
  {
    if promises.Add? {
      LookupCounts(promises.earlier, k);
    }
  }

  /** The promise of a PostSynchronously is settled at most once, and never when the
      wrapper was refused or dismissed. */
  lemma SettledAtMostOnce(s: State, k: nat)
    requires Reachable(s) && k < |s.book.jobs| && s.book.jobs[k].Sync?
    ensures TotalLog(s.promises, SettledAs(k)) <= 1
    ensures TotalLog(s.book.ends, NoPromise(k)) > 0 ==> Lookup(s.promises, k).Unset?
  {
    ReachableInv(s);
    LedgerAt(s, k);
    LookupCounts(s.promises, k);
    hide Inv, Mass;
  }

  lemma {:induction false} FindSettled(promises: Log<Settled>, k: nat, ends: Log<Ending>, book: Book)
    returns (inner: nat)
    requires !Lookup(promises, k).Unset? && AllJudged(promises, ends) && AllOwned(promises, book)
    ensures Owns(k, inner, book) && Judged(inner, Lookup(promises, k).Value?, ends)
  {
    if promises.latest.id == k {
      inner := promises.latest.inner;
    } else {
      inner := FindSettled(promises.earlier, k, ends, book);
    }
  }

  /** Number of ends of submission k that are dismissals or refusals by closing. */
  function ClosedOut(k: nat): Ending -> nat { (e: Ending) => Bit(e.id == k && ByClosing(e) > 0) }

  lemma {:induction false} ClosedOutBound(ends: Log<Ending>, k: nat)
    ensures TotalLog(ends, ClosedOut(k)) <= TotalLog(ends, ByClosing)
    ensures TotalLog(ends, NoPromise(k)) == TotalLog(ends, ClosedOut(k)) + TotalLog(ends, CapacityEnd(k))
  {
    if ends.Add? {
      ClosedOutBound(ends.earlier, k);
    }
  }

  /** future.get() returns or throws what the task did: the activation that the caller's own
      wrapper called is over, it threw if and only if the caller gets an exception, and if
      the pipeline is not closing its body did run. */
  lemma CallerGetsTheOutcome(s: State, t: nat) returns (inner: nat)
    requires Reachable(s) && t < |s.calls| && s.calls[t].Await?
    requires !Lookup(s.promises, s.calls[t].id).Unset?
    ensures var k := s.calls[t].id;
      && k < |s.book.jobs| && inner < |s.book.jobs|
      && WrapperOf(s.book.inside, inner) == Just(k) && s.book.jobs[inner] == Plain(s.book.jobs[k].task)
      && EndedAs(s, inner) == 1
      && (Lookup(s.promises, k).Value? <==> TotalLog(s.book.ends, ThrewEnd(inner)) == 0)
      && (!s.closing ==> TotalLog(s.book.ends, RanEnd(inner)) == 1 && TimesRun(s, inner) == 1)
  {
    ReachableInv(s);
    inner := FindSettled(s.promises, s.calls[t].id, s.book.ends, s.book);
    RunsAtMostOnce(s, inner);
    RanEndBound(s.book.ends, inner);
    ClosedOutBound(s.book.ends, inner);
    hide TotalLog, Ledger, Control, Jobs, Order, Nesting, Mass;
  }

  /** Outside closing, the worker never waits in vain: when a body reaches future.get(),
      at any depth of Dispatch, its promise is already settled. */
  lemma WorkerNeverDeadlocks(s: State)
    requires Reachable(s) && s.calls != [] && s.calls[0].Await? && !s.closing
    ensures !Lookup(s.promises, s.calls[0].id).Unset? && !Blocked(s, 0)
  {
    ReachableInv(s);
    var k := s.calls[0].id;
    assert WaitOk(s, 0);
    OverIsSettledOrClosed(s, k);
    hide Ledger, Control, Jobs, Order, Nesting, Mass, TotalLog;
  }

  /** A submission of PostSynchronously that is over has settled its promise, unless it was
      refused or dismissed. */
  lemma OverIsSettledOrClosed(s: State, k: nat)
    requires Inv(s) && k < |s.book.jobs| && s.book.jobs[k].Sync?
    requires EndedAs(s, k) == 1 && TotalLog(s.book.ends, CapacityEnd(k)) == 0
    ensures Lookup(s.promises, k).Unset? <==> TotalLog(s.book.ends, ClosedOut(k)) > 0
    ensures TotalLog(s.book.ends, ClosedOut(k)) > 0 ==> s.closing
  {
    LedgerAt(s, k);
    LookupCounts(s.promises, k);
    ClosedOutBound(s.book.ends, k);
    UnsettledIsSomewhere(s, k);
    hide Mass, TotalLog, Control, Jobs, Order, Nesting, Waits;
  }

  lemma {:induction false} UnsettledStack(stack: Stack, k: nat)
    ensures TotalStack(stack, Unsettled(k).frame) <= TotalStack(stack, At(k).frame)
  {
    if stack.Frames? {
      UnsettledStack(stack.below, k);
    }
  }

  lemma UnsettledIsSomewhere(s: State, k: nat)
    ensures Mass(s, Unsettled(k)) <= Mass(s, At(k))
  {
    UnsettledStack(s.stack, k);
  }

  /** A client inside future.get() of an open pipeline whose promise is not settled yet has
      its wrapper queued or being executed. */
  lemma WrapperIsKept(s: State, t: nat)
    requires Reachable(s) && t < |s.calls| && s.calls[t].Await? && !s.closing
    requires Lookup(s.promises, s.calls[t].id).Unset?
    ensures Waiting(s, s.calls[t].id) + Active(s, s.calls[t].id) == 1
  {
    ReachableInv(s);
    var k := s.calls[t].id;
    assert WaitOk(s, t);
    ExactlyOneFate(s, k);
    if EndedAs(s, k) == 1 {
      OverIsSettledOrClosed(s, k);
    }
    TotalZero(s.calls, At(k).call);
    LedgerAt(s, k);
    TotalZero(s.armed, At(k).timer);
    hide Control, Order, Nesting, TotalLog, Mass, Total;
  }
}
