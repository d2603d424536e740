/** What Close announces, what it guarantees, and how far the worker still goes. */
module Shutdown {
  import opened Tasks
  import opened Machine
  import opened Counting
  import opened Invariant
  import opened Growth
  import opened Safety
  import opened Fifo
  import opened Conservation

  // ----- flags -----

  lemma {:induction false} NoMarkers(h: seq<Handler>)
    requires Marker !in h
    ensures Total(h, MarkerHandler) == 0
  {
    TotalZero(h, MarkerHandler);
  }

  lemma MarkersInHistory(s: State)
    requires Reachable(s)
    ensures Total(s.book.hist, MarkerHandler) == s.book.shut + Total(s.queue, MarkerHandler)
  {
    HistoryIsOrdered(s);
    var a, b, p, m := s.book.ran, s.book.dropped, Pending(s.stack), Markers(s.book.shut);
    PendingShort(s.stack);
    TotalConcat(a + b + p + m, s.queue, MarkerHandler);
    TotalConcat(a + b + p, m, MarkerHandler);
    TotalConcat(a + b, p, MarkerHandler);
    TotalConcat(a, b, MarkerHandler);
    NoMarkers(a);
    NoMarkers(b);
    NoMarkers(p);
    if s.book.shut == 1 {
    }
    hide Inv, Pending;
  }

  /** closing_ is stored only after a marker was posted: that marker is still queued, being
      executed, or has done its work. And closed_ is stored only by a marker whose poster
      has stored closing_ or is about to. */
  lemma FlagsFollowTheMarker(s: State)
    requires Reachable(s)
    ensures s.closing ==> s.closed || s.worker.Shut? || Marker in s.queue
    ensures s.closed || s.worker.Shut? || Marker in s.queue ==>
              s.closing || exists t :: 0 <= t < |s.calls| && s.calls[t].CloseStore?
    ensures s.book.stops <= 1
    ensures s.stopped ==> s.closed
  {
    ReachableInv(s);
    MarkersInHistory(s);
    if Total(s.queue, MarkerHandler) > 0 {
      var i := TotalPositive(s.queue, MarkerHandler);
      assert s.queue[i] == Marker;
    }
    if Marker in s.queue {
      var i :| 0 <= i < |s.queue| && s.queue[i] == Marker;
      TotalAtLeast(s.queue, i, MarkerHandler);
    }
    if Total(s.calls, StoreCall) > 0 {
      var t := TotalPositive(s.calls, StoreCall);
      assert s.calls[t].CloseStore?;
    }
    hide Total, Mass, Ledger, StackOk, StackJobs;
  }

  /** closing_ never reverts, and nothing that was enqueued is forgotten or reordered. */
  lemma ClosingIsPermanent(s: State, ls: seq<Label>)
    requires Reachable(s)
    ensures s.closing ==> Exec(s, ls).closing
    ensures s.book.hist <= Exec(s, ls).book.hist
  {
    ReachableInv(s);
    RunGrows(s, ls);
  }

  // ----- the number of handlers that are still dequeued -----

  /** Handlers dequeued so far, the marker included. */
  function Dequeued(s: State): nat {
    |s.book.ran| + |s.book.dropped| + |Pending(s.stack)| + s.book.shut
  }

  predicate FirstMarkerAt(queue: seq<Handler>, k: nat) {
    k < |queue| && queue[k] == Marker && forall i | 0 <= i < k :: queue[i] != Marker
  }

  lemma MarkerSplit(hist: seq<Handler>, p: seq<Handler>, shut: nat, queue: seq<Handler>, m: nat)
    requires hist == p + Markers(shut) + queue && shut <= 1
    requires Marker !in p && FirstMarkerAt(hist, m)
    ensures shut == 1 ==> m == |p|
    ensures shut == 0 ==> |p| <= m && FirstMarkerAt(queue, m - |p|)
  {
    assert forall i | 0 <= i < |p| :: hist[i] == p[i];
    if shut == 1 {
      assert hist[|p|] == Marker;
    } else {
      assert forall i | 0 <= i < |queue| :: queue[i] == hist[|p| + i];
    }
  }

  lemma CountdownSeqs(p: seq<Handler>, queue: seq<Handler>, k: nat,
                      p': seq<Handler>, shut': nat, queue': seq<Handler>)
    requires Marker !in p && FirstMarkerAt(queue, k) && Marker !in p' && shut' <= 1
    requires p + queue <= p' + Markers(shut') + queue'
    ensures |p'| + shut' <= |p| + k + 1
    ensures shut' == 1 ==> |p'| == |p| + k
  {
    var hist := p' + Markers(shut') + queue';
    var more := hist[|p + queue|..];
    assert hist == p + queue + more;
    MarkerSplit(hist, p', shut', queue', |p| + k);
  }

  /** The dequeued handlers but for the marker. */
  function Taken(s: State): seq<Handler> {
    s.book.ran + s.book.dropped + Pending(s.stack)
  }

  lemma TakenFree(s: State)
    requires Reachable(s)
    ensures Marker !in Taken(s) && s.book.shut <= 1 && Dequeued(s) == |Taken(s)| + s.book.shut
    ensures s.book.hist == Taken(s) + Markers(s.book.shut) + s.queue
  {
    HistoryIsOrdered(s);
    PendingShort(s.stack);
    hide Pending;
  }

  /** With the first marker at position k of the queue, the worker dequeues at most k + 1
      more handlers, whatever the other threads post, and exactly k + 1 when it ends. */
  lemma Countdown(s: State, ls: seq<Label>, k: nat)
    requires Reachable(s) && s.book.shut == 0 && FirstMarkerAt(s.queue, k)
    ensures Dequeued(Exec(s, ls)) <= Dequeued(s) + k + 1
    ensures Exec(s, ls).worker.Exited? ==> Dequeued(Exec(s, ls)) == Dequeued(s) + k + 1
  {
    var s' := Exec(s, ls);
    TakenFree(s);
    ClosingIsPermanent(s, ls);
    ReachableLater(s, ls);
    TakenFree(s');
    assert Taken(s) + Markers(0) == Taken(s);
    CountdownSeqs(Taken(s), s.queue, k, Taken(s'), s'.book.shut, s'.queue);
    ExceptionsAreContained(s');
    hide Taken, Dequeued, Exec, FirstMarkerAt, Reachable, Markers;
  }

  // ----- the number of bodies that still begin -----

  function BeganEvent(e: Event): nat { Bit(e.Began?) }

  function Begun(s: State): nat {
    TotalLog(s.book.trace, BeganEvent)
  }

  /** The one activation that may already have read closing_ == false. */
  function Passing(s: State): nat {
    if s.stack.Frames? && s.stack.top.phase.Passed? then 1 else 0
  }

  lemma PerformPassing(s: State, t: nat)
    requires t < |s.calls|
    ensures Begun(Perform(s, t, CallEffect(s, t))) == Begun(s)
    ensures Passing(Perform(s, t, CallEffect(s, t))) <= Passing(s)
  {
    var e := CallEffect(s, t);
    assert e.nest.Just? ==> e.nest.value.phase.Check?;
    hide CallEffect, Ticked;
  }

  lemma StaysPassing(s: State)
    requires s.stack.Frames? && s.closing
    requires ExecEffect(s.stack.top, true, |s.book.jobs|).Stay?
    ensures var s' := Stays(s, ExecEffect(s.stack.top, true, |s.book.jobs|));
      Begun(s') + Passing(s') <= Begun(s) + Passing(s)
  {
    var f, e := s.stack.top, ExecEffect(s.stack.top, true, |s.book.jobs|);
    assert !e.phase.Passed? && (e.began <==> f.phase.Passed?)
        && (e.call.Just? ==> !e.call.value.phase.Passed?);
    hide ExecEffect, Ticked;
  }

  lemma UnwindNotPassed(stack: Stack, threw: bool)
    requires StackOk(stack) && stack.Frames?
    ensures Unwind(stack, threw).Frames? ==> !Unwind(stack, threw).top.phase.Passed?
  {
    assert stack.below.Frames? ==> Suspended(stack.below.top.phase);
  }

  lemma OverPassing(s: State, fate: Fate, threw: bool)
    requires StackOk(s.stack) && s.stack.Frames? && s.calls != []
    ensures Begun(IsOver(s, fate, threw)) + Passing(IsOver(s, fate, threw)) <= Begun(s) + Passing(s)
  {
    UnwindNotPassed(s.stack, threw);
    hide StackOk, Unwind;
  }

  lemma ExecPassing(s: State)
    requires StackOk(s.stack) && s.stack.Frames? && s.calls != [] && s.closing
    ensures Begun(ExecStep(s)) + Passing(ExecStep(s)) <= Begun(s) + Passing(s)
  {
    hide ExecEffect, Stays, IsOver, StackOk, TotalLog;
    match ExecEffect(s.stack.top, s.closing, |s.book.jobs|)
    case Stay(_, _, _, _, _) => StaysPassing(s);
    case Call(api) =>
    case Over(fate, threw) => OverPassing(s, fate, threw);
    case Still =>
  }

  lemma WorkerPassing(s: State)
    requires StackOk(s.stack) && s.calls != [] && s.closing
    ensures Begun(WorkerStep(s)) + Passing(WorkerStep(s)) <= Begun(s) + Passing(s)
  {
    if s.worker.Loop? && s.stack.Frames? {
      ExecPassing(s);
    }
    hide ExecStep, StackOk, TotalLog;
  }

  lemma OthersPassing(s: State, l: Label)
    requires !l.Step?
    ensures Begun(Next(s, l)) == Begun(s) && Passing(Next(s, l)) == Passing(s)
  {
    hide TotalLog, Entry, WorkerStep, CallStep;
  }

  lemma ClosingStep(s: State, l: Label)
    requires Inv(s) && s.closing
    ensures Begun(Next(s, l)) + Passing(Next(s, l)) <= Begun(s) + Passing(s)
  {
    assert StackOk(s.stack) && s.calls != [];
    hide Inv, StackOk, Next, CallEffect, Perform, WorkerStep, Begun, Passing;
    if l.Step? {
      if l.t < |s.calls| {
        PerformPassing(s, l.t);
        WorkerPassing(s);
      }
    } else {
      OthersPassing(s, l);
    }
  }

  /** Once closing_ is set, at most one more body begins in the rest of the run, over all
      entry paths and nesting depths, and only if an activation had passed the test. */
  lemma {:induction false} AtMostOneMoreBody(s: State, ls: seq<Label>)
    requires Reachable(s) && s.closing
    ensures Begun(Exec(s, ls)) + Passing(Exec(s, ls)) <= Begun(s) + Passing(s) <= Begun(s) + 1
  {
    if ls != [] {
      var before := ls[..|ls| - 1];
      AtMostOneMoreBody(s, before);
      ReachableLater(s, before);
      ReachableInv(Exec(s, before));
      ClosingIsPermanent(s, before);
      ClosingStep(Exec(s, before), ls[|ls| - 1]);
    }
  }
}
