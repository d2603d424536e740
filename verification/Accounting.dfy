/** What `count_` means, and when a post is refused for lack of capacity. */
module Accounting {
  import opened Tasks
  import opened Machine
  import opened Counting
  import opened Invariant
  import opened AccountSteps
  import opened Alone
  import opened Safety

  /** Nobody is inside a method of the pipeline and no task is being executed. */
  predicate Quiescent(s: State) {
    s.stack.Empty? && forall t | 0 <= t < |s.calls| :: s.calls[t].Idle?
  }

  /** Entries of the queue that `Post` counted. */
  function Queued(s: State): nat {
    Total(s.queue, HeldHandler)
  }

  /** In every run, token handlers included, `count_` is the number of outstanding
      reservations minus the number of decrements that no reservation precedes, modulo the
      width of `std::size_t`. */
  lemma CounterEquation(s: State)
    requires Reachable(s)
    ensures s.count < SIZE_T
    ensures (s.count + s.book.uncompensated) % SIZE_T == Reserved(s) % SIZE_T
    ensures Reserved(s) == Held(s) + Rolling(s)
  {
    ReachableInv(s);
    ReservedSplit(s);
  }

  lemma CounterIs(s: State)
    requires Reachable(s)
    ensures s.count == (Held(s) + Rolling(s) - s.book.uncompensated) % SIZE_T
  {
    CounterEquation(s);
    var u: int := s.book.uncompensated;
    Shifted(s.count + u, Reserved(s), -u);
    hide Mass, Total;
  }

  /** `count_` is the number of admitted tasks that have not been dequeued and decremented
      yet, plus the producers about to take their refused increment back, minus the token
      handlers executed, modulo 2^64. As long as no token handler has executed it is exact,
      and the admitted tasks never exceed the capacity. */
  lemma CounterIsExact(s: State)
    requires Reachable(s)
    ensures s.count == (Held(s) + Rolling(s) - s.book.uncompensated) % SIZE_T
    ensures s.book.uncompensated == 0 && NoWrap(s) ==>
              s.count == Held(s) + Rolling(s) && Held(s) <= s.capacity
    ensures Queued(s) <= Held(s)
  {
    CounterIs(s);
    ReachableInv(s);
    if s.book.uncompensated == 0 && NoWrap(s) {
      CountIsExact(s);
    }
    hide Ledger, Order, Nesting, Control, Waits, Owned, Jobs, Closing;
  }

  lemma QuiescentReserved(s: State)
    requires Quiescent(s)
    ensures Reserved(s) == Queued(s)
  {
    TotalZero(s.calls, ReservedCall);
    ZeroTimers(s.armed);
  }

  lemma ZeroTimers(armed: seq<Job>)
    ensures Total(armed, NoTimer) == 0
  {
    TotalZero(armed, NoTimer);
  }

  /** `GetCount` is the number of tasks queued for processing exactly when the number of
      token handlers executed is a multiple of 2^64. */
  lemma GetCountAtQuiescence(s: State)
    requires Reachable(s) && Quiescent(s) && Queued(s) < SIZE_T
    ensures s.count == Queued(s) <==> s.book.uncompensated % SIZE_T == 0
  {
    CounterEquation(s);
    QuiescentReserved(s);
    hide Mass, Total;
  }

  /** Handlers behind the close marker are never dequeued; once the worker has ended and
      every producer is idle they are what `count_` still counts. */
  lemma CountAfterExit(s: State)
    requires Reachable(s) && s.worker.Exited?
    requires forall t | 0 <= t < |s.calls| :: s.calls[t].Idle?
    ensures s.count == (Queued(s) - s.book.uncompensated) % SIZE_T
    ensures s.book.uncompensated == 0 && Queued(s) < SIZE_T ==> s.count == Queued(s)
  {
    hide Mass, Total, Reachable, Reserved, Queued, Held, Rolling;
    assert Quiescent(s) by {
      ReachableInv(s);
      hide Ledger, Jobs, Accounts, Order, Closing, Nesting, Waits, Owned, StackOk;
    }
    hide Quiescent;
    QuiescentReserved(s);
    CounterEquation(s);
    CounterIs(s);
  }

  /** The comparison in `AddingTask` refuses exactly when the increment of what the counter
      stands for exceeds the capacity. So, no token handler having executed, it refuses
      exactly when the reservations held, plus the other producers that are taking a refused
      increment back, fill the capacity. */
  lemma RefusalIsJustified(s: State, t: nat)
    requires Reachable(s) && t < |s.calls| && s.calls[t].PostReserve?
    ensures var c := Next(s, Step(t)).calls[t];
      c == (if (Held(s) + Rolling(s) - s.book.uncompensated + 1) % SIZE_T > s.capacity
            then PostRollback(s.calls[t].job) else PostEnqueue(s.calls[t].job))
    ensures s.book.uncompensated == 0 && NoWrap(s) ==>
      (Next(s, Step(t)).calls[t].PostRollback? <==> Held(s) + Rolling(s) >= s.capacity)
    ensures s.book.uncompensated == 0 && NoWrap(s) && Rolling(s) == 0 ==>
      (Next(s, Step(t)).calls[t].PostRollback? <==> Held(s) == s.capacity)
  {
    CounterIsExact(s);
    RollingBound(s, t);
    var r := Held(s) + Rolling(s) - s.book.uncompensated;
    Shifted(r % SIZE_T, r, 1);
    hide Mass, Total, Next;
  }

  /** A refused post leaves the counter and the queue as they were; the task is over and
      its caller sees the exception. */
  lemma RefusedPostUndone(s: State, t: nat)
    requires Reachable(s) && 0 < t < |s.calls| && s.calls[t].PostReserve?
    requires Next(s, Step(t)).calls[t].PostRollback?
    ensures var s' := Next(Next(s, Step(t)), Step(t));
      && s'.count == s.count && s'.queue == s.queue && s'.book.hist == s.book.hist
      && s'.calls == s.calls[t := Idle] && s'.stack == s.stack
      && s'.book.ends == Add(s.book.ends, Ending(s.calls[t].job.id, RefusedCapacity))
  {
    CounterEquation(s);
    hide Mass, Total, Next, Ticked, Reachable;
    TickedIs(s.count);
    var job := s.calls[t].job;
    Reserves(s, t, job);
    RollsBack(Next(s, Step(t)), t, job);
  }

  /** A body whose post is refused gets the exception: it goes on where it catches it, or ends
      by it, on an untouched counter and queue. */
  lemma RefusedBodyCatches(s: State)
    requires Reachable(s) && s.calls != [] && s.calls[0].PostReserve?
    requires Next(s, Step(0)).calls[0].PostRollback?
    ensures s.stack.Frames? && s.stack.top.phase.In? && s.stack.top.phase.rest.Do?
    ensures var s' := Next(Next(s, Step(0)), Step(0));
      && s'.count == s.count && s'.queue == s.queue && s'.calls[0].Idle?
      && s'.stack == Frames(s.stack.top.(phase := In(s.stack.top.phase.rest.ko)), s.stack.below)
      && s'.book.ends == Add(s.book.ends, Ending(s.calls[0].job.id, RefusedCapacity))
  {
    ReachableInv(s);
    assert Control(s) && s.stack.Frames? && s.stack.top.phase.In? && s.stack.top.phase.rest.Do?;
    hide Inv, Control, Mass, Total, Next, Ticked, Reachable;
    CounterEquation(s);
    TickedIs(s.count);
    ThreadNext(s, 0);
    ThreadNext(Next(s, Step(0)), 0);
  }
}
