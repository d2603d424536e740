/** First in, first out, up to the first dismissal. */
module Fifo {
  import opened Tasks
  import opened Machine
  import opened Counting
  import opened Invariant
  import opened Safety

  /** At every moment the history of the queue is: the handlers whose body ran, the ones
      dismissed, the one being looked at, the marker if it was dequeued, and what is still
      queued, in this order. */
  lemma HistoryIsOrdered(s: State)
    requires Reachable(s)
    ensures s.book.hist
         == s.book.ran + s.book.dropped + Pending(s.stack) + Markers(s.book.shut) + s.queue
    ensures |Pending(s.stack)| <= 1 && s.book.shut <= 1
    ensures Marker !in s.book.ran && Marker !in s.book.dropped
  {
    ReachableInv(s);
    PendingShort(s.stack);
  }

  lemma PendingShort(stack: Stack)
    ensures |Pending(stack)| <= 1 && Marker !in Pending(stack)
  {
  }

  /** After the worker has ended: bodies ran in enqueue order, then every handler up to the
      first marker was dismissed, and everything behind that marker is stranded. */
  lemma AfterExit(s: State)
    requires Reachable(s) && s.worker.Exited?
    ensures s.book.hist == s.book.ran + s.book.dropped + [Marker] + s.queue
    ensures Marker !in s.book.ran && Marker !in s.book.dropped
    ensures |Tops(s.book.trace)| == |s.book.ran|
    ensures forall i | 0 <= i < |s.book.ran| ::
              s.book.ran[i].Run? && s.book.ran[i].job.id == Tops(s.book.trace)[i]
  {
    ReachableInv(s);
    HistoryIsOrdered(s);
    assert Pending(s.stack) == [];
  }

  /** The part of the book that execution writes. */
  lemma RanStepAfterDismissal(s: State, l: Label)
    requires Inv(s) && s.book.dropped != []
    ensures Next(s, l).book.ran == s.book.ran
    ensures |s.book.dropped| <= |Next(s, l).book.dropped|
  {
    if l == Step(0) && s.calls[0].Idle? && s.worker.Loop? && s.stack.Frames? {
      assert s.stack.top.phase.Passed? ==> s.stack.below.Frames?;
      assert s.stack.below.Frames? ==> Served(s.stack.top) == [];
      match ExecEffect(s.stack.top, s.closing, |s.book.jobs|) {
        case Stay(_, _, _, _, _) => case Call(_) => case Over(_, _) => case Still =>
      }
    }
    hide Inv, Ticked, CallEffect, ExecEffect, Unwind, Resume, Total;
  }

  /** Once a dequeued handler has been dismissed, no dequeued handler runs again. */
  lemma {:induction false} NothingRunsAfterDismissal(s: State, ls: seq<Label>)
    requires Reachable(s) && s.book.dropped != []
    ensures Exec(s, ls).book.ran == s.book.ran && Exec(s, ls).book.dropped != []
  {
    if ls != [] {
      var before := ls[..|ls| - 1];
      NothingRunsAfterDismissal(s, before);
      ReachableLater(s, before);
      ReachableInv(Exec(s, before));
      RanStepAfterDismissal(Exec(s, before), ls[|ls| - 1]);
    }
  }
}
