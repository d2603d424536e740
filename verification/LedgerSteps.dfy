/** Every atomic operation moves a submission from one place to another: the ledger of
    `Invariant` is kept by each kind of step. */
module LedgerSteps {
  import opened Tasks
  import opened Machine
  import opened Counting
  import opened Invariant

  // ----- Perform -----

  function JustAt<T>(x: Maybe<T>, f: T -> nat): nat {
    match x
    case Nothing => 0
    case Just(y) => f(y)
  }

  /** A body that goes on, and a wrapper whose inner call ends, keep their weight. */
  ghost predicate Steady(f: Frame -> nat) {
    && (forall x: Frame, r: Task :: x.phase.In? ==> f(x.(phase := In(r))) == f(x))
    && (forall x: Frame, i: nat, ok: bool ::
          x.phase.Wrapped? ==> f(x.(phase := Settle(i, ok))) == f(x))
  }

  lemma AtSteady(k: nat)
    ensures Steady(At(k).frame)
  {
  }

  lemma UnsettledSteady(k: nat)
    ensures Steady(Unsettled(k).frame)
  {
  }

  lemma BegunSteady(k: nat)
    ensures Steady(BegunFrame(k))
  {
  }

  lemma PerformStack(s: State, t: nat, e: Effect, f: Frame -> nat)
    requires t < |s.calls| && Steady(f)
    ensures TotalStack(Perform(s, t, e).stack, f) == TotalStack(s.stack, f) + JustAt(e.nest, f)
  {
  }

  lemma AppendedMass<T>(s: seq<T>, x: Maybe<T>, f: T -> nat)
    ensures Total(Appended(s, x), f) == Total(s, f) + JustAt(x, f)
  {
    if x.Just? {
      assert (s + [x.value])[..|s|] == s;
    }
  }

  lemma PerformMass(s: State, t: nat, e: Effect, w: Weights)
    requires t < |s.calls| && Steady(w.frame)
    ensures Mass(Perform(s, t, e), w)
         == Mass(s, w) - w.call(s.calls[t]) + w.call(e.next) + JustAt(e.enqueue, w.handler)
            + JustAt(e.arm, w.timer) + JustAt(e.nest, w.frame)
  {
    TotalSet(s.calls, t, e.next, w.call);
    AppendedMass(s.queue, e.enqueue, w.handler);
    AppendedMass(s.armed, e.arm, w.timer);
    PerformStack(s, t, e, w.frame);
  }

  function EnqueuedIn(k: nat, e: Effect): nat {
    if e.enqueue.Just? then InHandler(k, e.enqueue.value) else 0
  }

  function ElsewhereIn(k: nat, e: Effect): nat {
    (if e.arm.Just? then InJob(k, e.arm.value) else 0)
    + (if e.nest.Just? then InFrame(k, e.nest.value) else 0)
    + (if e.over.Just? then Ends(k, e.over.value) else 0)
  }

  /** The operation hands on what the thread was carrying and nothing else. */
  predicate Fair(c: Call, e: Effect, k: nat) {
    && InCall(k, c) == InCall(k, e.next) + EnqueuedIn(k, e) + ElsewhereIn(k, e)
    && (e.nest.Just? ==> e.nest.value.phase.Check?)
    && (e.over.Just? ==> e.over.value.fate.RefusedClosing? || e.over.value.fate.RefusedCapacity?)
  }

  lemma CallEffectFair(s: State, t: nat, k: nat)
    requires t < |s.calls|
    ensures Fair(s.calls[t], CallEffect(s, t), k)
  {
    hide Ticked, Lookup;
    match s.calls[t] {
      case PostCheck(_) => case PostReserve(_) => case PostRollback(_) => case PostEnqueue(_) =>
      case DispatchCheck(_) => case Nest(_) => case TimerCheck(_) => case TimerArm(_) =>
      case TokenEnqueue(_) => case _ =>
    }
  }

  lemma PerformPlaced(s: State, t: nat, e: Effect, k: nat)
    requires t < |s.calls| && Fair(s.calls[t], e, k) && Placed(s, k)
    ensures Placed(Perform(s, t, e), k)
  {
    AtSteady(k);
    PerformMass(s, t, e, At(k));
    hide Mass, Steady;
  }

  lemma PerformTraced(s: State, t: nat, e: Effect, k: nat)
    requires t < |s.calls| && Fair(s.calls[t], e, k) && Traced(s, k)
    ensures Traced(Perform(s, t, e), k)
  {
    BegunSteady(k);
    PerformStack(s, t, e, BegunFrame(k));
    hide TotalStack, Steady;
  }

  lemma PerformPromising(s: State, t: nat, e: Effect, k: nat)
    requires t < |s.calls| && Fair(s.calls[t], e, k) && Promising(s, k)
    ensures Promising(Perform(s, t, e), k)
  {
    UnsettledSteady(k);
    PerformMass(s, t, e, Unsettled(k));
    hide Mass, Steady;
  }

  // ----- Enter -----

  lemma EnterMass(s: State, t: nat, api: Api, w: Weights)
    requires t < |s.calls|
    ensures Mass(Enter(s, t, api), w)
         == Mass(s, w) - w.call(s.calls[t]) + w.call(Entry(api, |s.book.jobs|))
  {
    TotalSet(s.calls, t, Entry(api, |s.book.jobs|), w.call);
  }

  lemma EnterLedger(s: State, t: nat, api: Api, k: nat)
    requires t < |s.calls| && !Carrying(s.calls[t])
    requires Placed(s, k) && Traced(s, k) && Promising(s, k)
    ensures var s' := Enter(s, t, api); Placed(s', k) && Traced(s', k) && Promising(s', k)
  {
    hide Mass;
    EnterMass(s, t, api, At(k));
    EnterMass(s, t, api, Unsettled(k));
    assert InCall(k, Entry(api, |s.book.jobs|)) == Bit(!api.Close? && k == |s.book.jobs|);
  }

  // ----- Stays -----

  lemma StaysStack(s: State, e: FrameEffect, f: Frame -> nat)
    requires s.stack.Frames? && e.Stay?
    ensures TotalStack(Stays(s, e).stack, f)
         == TotalStack(s.stack, f) - f(s.stack.top) + f(s.stack.top.(phase := e.phase))
            + JustAt(e.call, f)
  {
    assert TotalStack(SetPhase(s.stack, e.phase), f)
        == TotalStack(s.stack, f) - f(s.stack.top) + f(s.stack.top.(phase := e.phase));
  }

  lemma StaysMass(s: State, e: FrameEffect, w: Weights)
    requires s.stack.Frames? && e.Stay?
    ensures Mass(Stays(s, e), w)
         == Mass(s, w) - w.frame(s.stack.top) + w.frame(s.stack.top.(phase := e.phase))
            + JustAt(e.call, w.frame)
  {
    StaysStack(s, e, w.frame);
  }

  /** What ExecTask_ can do next without ending. */
  predicate StayOk(f: Frame, e: FrameEffect, id: nat) {
    && e.Stay?
    && (e.began <==> !f.Begun() && f.(phase := e.phase).Begun())
    && (f.Begun() ==> f.(phase := e.phase).Begun())
    && (e.call.Just? ==> e.call.value.job.id == id && e.call.value.job.work.Plain?
                         && !e.call.value.Begun())
    && (f.job.work.Sync? ==> (e.settle.Just? <==> !f.phase.In? && e.phase.In?))
    && (e.settle.Just? ==> e.settle.value.id == f.job.id && !f.job.work.Plain?)
    && (f.phase.In? ==> e.phase.In?)
  }

  lemma ExecEffectOk(f: Frame, closing: bool, id: nat)
    requires ExecEffect(f, closing, id).Stay? && (f.phase.Settle? ==> !f.job.work.Plain?)
    ensures StayOk(f, ExecEffect(f, closing, id), id)
  {
  }

  lemma StaysPlaced(s: State, e: FrameEffect, k: nat)
    requires s.stack.Frames? && StayOk(s.stack.top, e, |s.book.jobs|) && Placed(s, k)
    ensures Placed(Stays(s, e), k)
  {
    StaysMass(s, e, At(k));
    hide Mass, Total, TotalStack;
  }

  lemma StaysTraced(s: State, e: FrameEffect, k: nat)
    requires s.stack.Frames? && StayOk(s.stack.top, e, |s.book.jobs|) && Traced(s, k)
    ensures Traced(Stays(s, e), k)
  {
    StaysStack(s, e, BegunFrame(k));
    hide TotalStack;
  }

  lemma StaysPromising(s: State, e: FrameEffect, k: nat)
    requires s.stack.Frames? && StayOk(s.stack.top, e, |s.book.jobs|) && Promising(s, k)
    requires JobOk(s.stack.top.job, s.book.jobs)
    ensures Promising(Stays(s, e), k)
  {
    StaysMass(s, e, Unsettled(k));
    hide Mass, Total, TotalStack;
  }

  // ----- IsOver -----

  lemma UnwindStack(stack: Stack, threw: bool, f: Frame -> nat)
    requires stack.Frames? && Steady(f)
    ensures TotalStack(Unwind(stack, threw), f) == TotalStack(stack, f) - f(stack.top)
  {
  }

  lemma OverMass(s: State, fate: Fate, threw: bool, w: Weights)
    requires s.stack.Frames? && s.calls != [] && Steady(w.frame)
    ensures Mass(IsOver(s, fate, threw), w)
         == Mass(s, w) - w.frame(s.stack.top) - w.call(s.calls[0])
            + w.call(IsOver(s, fate, threw).calls[0])
  {
    TotalSet(s.calls, 0, IsOver(s, fate, threw).calls[0], w.call);
    UnwindStack(s.stack, threw, w.frame);
  }

  predicate OverOk(f: Frame, fate: Fate) {
    if f.phase.In? then fate.Finished? || fate.Threw? else f.phase.Check? && fate.Dismissed?
  }

  lemma OverPlaced(s: State, fate: Fate, threw: bool, k: nat)
    requires s.stack.Frames? && s.calls != [] && s.calls[0].Idle? && Placed(s, k)
    ensures Placed(IsOver(s, fate, threw), k)
  {
    AtSteady(k);
    OverMass(s, fate, threw, At(k));
    hide Mass, Steady, Unwind;
  }

  lemma OverTraced(s: State, fate: Fate, threw: bool, k: nat)
    requires s.stack.Frames? && s.calls != [] && OverOk(s.stack.top, fate) && Traced(s, k)
    ensures Traced(IsOver(s, fate, threw), k)
  {
    BegunSteady(k);
    UnwindStack(s.stack, threw, BegunFrame(k));
    hide TotalStack, Steady, Unwind;
  }

  lemma OverPromising(s: State, fate: Fate, threw: bool, k: nat)
    requires s.stack.Frames? && s.calls != [] && s.calls[0].Idle?
    requires OverOk(s.stack.top, fate) && Promising(s, k)
    ensures Promising(IsOver(s, fate, threw), k)
  {
    UnsettledSteady(k);
    OverMass(s, fate, threw, Unsettled(k));
    hide Mass, Steady, Unwind;
  }

  // ----- the queue and the timers -----

  lemma DequeueMass(s: State, w: Weights)
    requires s.queue != [] && s.queue[0].Run?
    ensures Mass(DequeuesJob(s), w)
         == Mass(s, w) - w.handler(s.queue[0]) + w.frame(DequeuesJob(s).stack.top)
  {
    TotalTail(s.queue, w.handler);
  }

  lemma DequeueLedger(s: State, k: nat)
    requires s.queue != [] && s.queue[0].Run?
    requires Placed(s, k) && Traced(s, k) && Promising(s, k)
    ensures var s' := DequeuesJob(s); Placed(s', k) && Traced(s', k) && Promising(s', k)
  {
    hide Mass, Total;
    DequeueMass(s, At(k));
    DequeueMass(s, Unsettled(k));
  }

  lemma MarkerMass(s: State, w: Weights)
    requires s.queue != [] && s.queue[0].Marker?
    ensures Mass(DequeuesMarker(s), w) == Mass(s, w) - w.handler(Marker)
  {
    TotalTail(s.queue, w.handler);
  }

  lemma FireMass(s: State, i: nat, w: Weights)
    requires i < |s.armed|
    ensures Mass(Fires(s, i), w)
         == Mass(s, w) - w.timer(s.armed[i]) + w.handler(Run(s.armed[i], Timer))
  {
    TotalWithout(s.armed, i, w.timer);
    AppendedMass(s.queue, Just(Run(s.armed[i], Timer)), w.handler);
  }

  lemma FireLedger(s: State, i: nat, k: nat)
    requires i < |s.armed|
    requires Placed(s, k) && Traced(s, k) && Promising(s, k)
    ensures var s' := Fires(s, i); Placed(s', k) && Traced(s', k) && Promising(s', k)
  {
    hide Mass, Total;
    FireMass(s, i, At(k));
    FireMass(s, i, Unsettled(k));
  }
}
