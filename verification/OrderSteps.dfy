/** The queue is first in, first out, and closing is announced by a marker: `Order` and
    `Closing` are kept by each kind of step. */
module OrderSteps {
  import opened Tasks
  import opened Machine
  import opened Counting
  import opened Invariant
  import opened LedgerSteps

  // ----- Order -----

  lemma PendingUnwind(stack: Stack, threw: bool)
    requires StackOk(stack) && stack.Frames?
    ensures !AtStart(Unwind(stack, threw))
    ensures stack.below.Frames? ==> Pending(Unwind(stack, threw)) == Pending(stack)
    ensures stack.below.Empty? ==> Unwind(stack, threw) == Empty
  {
  }

  lemma PerformOrder(s: State, t: nat, e: Effect)
    requires t < |s.calls| && Order(s)
    requires e.nest.Just? ==> s.stack.Frames?
    ensures Order(Perform(s, t, e))
  {
    if e.enqueue.Just? {
      var before := s.book.ran + s.book.dropped + Pending(s.stack) + Markers(s.book.shut);
      assert (before + s.queue) + [e.enqueue.value] == before + (s.queue + [e.enqueue.value]);
    }
    hide Resume, Ticked;
  }

  lemma StayFacts(f: Frame, closing: bool, id: nat)
    requires ExecEffect(f, closing, id).Stay?
    ensures var e := ExecEffect(f, closing, id);
      && (e.began <==> f.phase.Passed?) && (e.phase.Passed? <==> f.phase.Check?)
      && (f.(phase := e.phase).Begun() <==> f.Begun() || e.began)
      && (f.phase.Check? ==> !closing)
      && (e.call.Just? ==> e.call.value.via.FromWrapper?)
  {
    hide Ticked;
  }

  lemma {:induction false} PendingRuns(stack: Stack)
    ensures forall i | 0 <= i < |Pending(stack)| :: Pending(stack)[i].Run?
  {
    if stack.Frames? {
      PendingRuns(stack.below);
    }
  }

  /** The pending handler, if any, joins the ones that ran, or nothing changes. */
  lemma OrderMoves(s: State, s': State)
    requires Order(s) && s'.queue == s.queue && s'.closing == s.closing
    requires s'.book.hist == s.book.hist && s'.book.dropped == s.book.dropped
    requires s'.book.shut == s.book.shut && (AtStart(s'.stack) ==> !s.closing)
    requires
      if AtStart(s.stack) then Pending(s'.stack) == [] && s'.book.ran == s.book.ran + Pending(s.stack)
      else Pending(s'.stack) == Pending(s.stack) && s'.book.ran == s.book.ran
    ensures Order(s')
  {
    hide Pending, AtStart;
    PendingRuns(s.stack);
    if AtStart(s.stack) {
      var p, rest := Pending(s.stack), Markers(s.book.shut) + s.queue;
      assert s.book.hist == s.book.ran + [] + p + rest;
    }
  }

  lemma StaysOrder(s: State)
    requires Control(s) && s.stack.Frames? && Order(s)
    requires ExecEffect(s.stack.top, s.closing, |s.book.jobs|).Stay?
    ensures Order(Stays(s, ExecEffect(s.stack.top, s.closing, |s.book.jobs|)))
  {
    assert StackOk(s.stack);
    hide Ticked, Control, StackOk, ExecEffect, Pending, AtStart, Served, Order;
    StayFacts(s.stack.top, s.closing, |s.book.jobs|);
    OrderMoves(s, Stays(s, ExecEffect(s.stack.top, s.closing, |s.book.jobs|)));
  }

  lemma OverOrder(s: State, fate: Fate, threw: bool)
    requires Control(s) && s.stack.Frames? && Order(s)
    requires OverOk(s.stack.top, fate) && (fate.Dismissed? ==> s.closing)
    ensures Order(IsOver(s, fate, threw))
  {
    PendingUnwind(s.stack, threw);
    if s.stack.below.Frames? {
      assert Served(s.stack.top) == [];
    } else if fate.Dismissed? {
      var f := Served(s.stack.top);
      assert s.book.ran + s.book.dropped + f == s.book.ran + (s.book.dropped + f) + [];
    }
    hide Unwind;
  }

  lemma MarkerOrder(s: State)
    requires Control(s) && Order(s) && s.worker.Loop? && s.stack.Empty? && !s.stopped
    requires s.queue != [] && s.queue[0].Marker?
    ensures Order(DequeuesMarker(s))
  {
    assert s.queue == [Marker] + s.queue[1..];
  }

  lemma FireOrder(s: State, i: nat)
    requires Order(s) && i < |s.armed|
    ensures Order(Fires(s, i))
  {
    var h := Run(s.armed[i], Timer);
    var before := s.book.ran + s.book.dropped + Pending(s.stack) + Markers(s.book.shut);
    assert (before + s.queue) + [h] == before + (s.queue + [h]);
  }

  // ----- Closing -----

  /** Only Close posts a marker and stores the flag, in this order. */
  predicate Announced(c: Call, closing: bool, e: Effect) {
    && (e.next.CloseStore? <==> e.enqueue == Just(Marker))
    && (c.CloseStore? <==> e.close)
    && (e.over.Just? && ByClosing(e.over.value) > 0 ==> closing)
  }

  lemma CallAnnounced(s: State, t: nat)
    requires t < |s.calls|
    ensures Announced(s.calls[t], s.closing, CallEffect(s, t))
  {
    hide Ticked, Lookup;
    match s.calls[t] {
      case PostCheck(_) => case PostReserve(_) => case PostRollback(_) => case PostEnqueue(_) =>
      case DispatchCheck(_) => case Nest(_) => case TimerCheck(_) => case TimerArm(_) =>
      case TokenEnqueue(_) => case CloseCheck => case ClosePost => case CloseStore => case _ =>
    }
  }

  lemma PerformClosing(s: State, t: nat, e: Effect)
    requires t < |s.calls| && Closing(s) && Announced(s.calls[t], s.closing, e)
    ensures Closing(Perform(s, t, e))
  {
    TotalSet(s.calls, t, e.next, StoreCall);
    TotalAtLeast(s.calls, t, StoreCall);
    AppendedMass(s.book.hist, e.enqueue, MarkerHandler);
    hide Total, Resume, Ticked;
  }

  lemma EnterClosing(s: State, t: nat, api: Api)
    requires t < |s.calls| && s.calls[t].Idle? && Closing(s)
    ensures Closing(Enter(s, t, api))
  {
    TotalSet(s.calls, t, Entry(api, |s.book.jobs|), StoreCall);
    hide Total;
  }

  lemma OverClosing(s: State, fate: Fate, threw: bool)
    requires s.stack.Frames? && s.calls != [] && s.calls[0].Idle? && Closing(s)
    requires OverOk(s.stack.top, fate) && (fate.Dismissed? ==> s.closing)
    ensures Closing(IsOver(s, fate, threw))
  {
    TotalSet(s.calls, 0, IsOver(s, fate, threw).calls[0], StoreCall);
    hide Total, Unwind;
  }

  lemma FireClosing(s: State, i: nat)
    requires i < |s.armed| && Closing(s)
    ensures Closing(Fires(s, i))
  {
    AppendedMass(s.book.hist, Just(Run(s.armed[i], Timer)), MarkerHandler);
  }
}
