/** Promises tell the truth and waiting threads wait for something: `Waits` is kept by
    each kind of step. */
module PromiseSteps {
  import opened Tasks
  import opened Machine
  import opened Counting
  import opened Invariant
  import opened LedgerSteps
  import opened ControlSteps

  lemma FullIsEnd(ends: Log<Ending>, k: nat)
    ensures TotalLog(ends, CapacityEnd(k)) <= TotalLog(ends, EndOf(k))
    ensures TotalLog(ends, ThrewEnd(k)) <= TotalLog(ends, EndOf(k))
    ensures TotalLog(ends, NoPromise(k)) <= TotalLog(ends, EndOf(k))
  {
  }

  lemma {:induction false} AllJudgedStable(promises: Log<Settled>, ends: Log<Ending>, x: Ending)
    requires TotalLog(ends, EndOf(x.id)) == 0 && AllJudged(promises, ends)
    ensures AllJudged(promises, Add(ends, x))
  {
    if promises.Add? {
      AllJudgedStable(promises.earlier, ends, x);
    }
  }

  // ----- who holds a submission -----

  /** A thread that carries k is the only place where k is. */
  lemma OnlyCarrier(s: State, t: nat, u: nat)
    requires t < |s.calls| && Carrying(s.calls[t]) && Placed(s, s.calls[t].job.id)
    requires u < |s.calls| && u != t
    ensures !(Carrying(s.calls[u]) && s.calls[u].job.id == s.calls[t].job.id)
    ensures TotalLog(s.book.ends, EndOf(s.calls[t].job.id)) == 0
  {
    var k := s.calls[t].job.id;
    TotalSplit(s.calls, t, At(k).call);
    if u < t {
      TotalAtLeast(s.calls[..t], u, At(k).call);
    } else {
      TotalAtLeast(s.calls[t + 1..], u - t - 1, At(k).call);
    }
  }

  lemma CarriedNotOver(s: State, t: nat)
    requires t < |s.calls| && Carrying(s.calls[t]) && Placed(s, s.calls[t].job.id)
    ensures TotalLog(s.book.ends, EndOf(s.calls[t].job.id)) == 0
    ensures Total(s.armed, At(s.calls[t].job.id).timer) == 0
  {
    TotalAtLeast(s.calls, t, At(s.calls[t].job.id).call);
  }

  lemma {:induction false} NotArmed(armed: seq<Job>, k: nat)
    requires Total(armed, At(k).timer) == 0
    ensures forall i | 0 <= i < |armed| :: armed[i].id != k
  {
    forall i | 0 <= i < |armed|
      ensures armed[i].id != k
    {
      TotalAtLeast(armed, i, At(k).timer);
    }
  }

  lemma RunningNotOver(s: State, u: nat)
    requires s.stack.Frames? && Placed(s, s.stack.top.job.id) && u < |s.calls|
    ensures TotalLog(s.book.ends, EndOf(s.stack.top.job.id)) == 0
    ensures Total(s.armed, At(s.stack.top.job.id).timer) == 0
    ensures !(Carrying(s.calls[u]) && s.calls[u].job.id == s.stack.top.job.id)
  {
    TotalAtLeast(s.calls, u, At(s.stack.top.job.id).call);
  }

  // ----- Perform -----

  predicate EndsOwn(c: Call, e: Effect) {
    && (e.over.Just? ==> Carrying(c) && e.over.value.id == c.job.id)
    && (e.next.Await? ==> Carrying(c) && !c.Nest? && e.arm.Nothing? && c.job.work.Sync? && e.next.id == c.job.id
                          && (e.over.Just? ==> e.over.value.fate.RefusedClosing?)
                          && (c.DispatchCheck? ==> e.over.Just?))
  }

  lemma PerformJudged(s: State, t: nat, e: Effect)
    requires t < |s.calls| && Waits(s) && Control(s) && EndsOwn(s.calls[t], e) && HandsOn(s.calls[t], e)
    requires Carrying(s.calls[t]) ==> Placed(s, s.calls[t].job.id)
    requires t == 0 ==> !s.calls[0].Idle?
    requires e.nest.Just? ==> e.nest.value.phase.Check?
    ensures var s' := Perform(s, t, e);
      && AllJudged(s'.promises, s'.book.ends)
      && (s'.stack.Frames? && s'.stack.top.phase.Settle? && !s'.stack.top.job.work.Resuming? ==>
            Judged(s'.stack.top.phase.inner, s'.stack.top.phase.ok, s'.book.ends))
  {
    if e.over.Just? {
      CarriedNotOver(s, t);
      AllJudgedStable(s.promises, s.book.ends, e.over.value);
      if s.stack.Frames? && s.stack.top.phase.Settle? && !s.stack.top.job.work.Resuming? {
      }
    }
    hide AllJudged, Judged, Ticked, StackOk, TotalLog;
  }

  lemma PerformOthersWait(s: State, t: nat, e: Effect, u: nat)
    requires t < |s.calls| && EndsOwn(s.calls[t], e) && HandsOn(s.calls[t], e)
    requires u < |s.calls| && u != t && s.calls[u].Await? && WaitOk(s, u)
    ensures WaitOk(Perform(s, t, e), u)
  {
    hide Resume, Ticked;
  }

  lemma PerformWaits(s: State, t: nat, e: Effect)
    requires t < |s.calls| && Control(s) && EndsOwn(s.calls[t], e) && HandsOn(s.calls[t], e)
    requires Carrying(s.calls[t]) ==> Placed(s, s.calls[t].job.id) && JobOk(s.calls[t].job, s.book.jobs)
    requires e.next.Await?
    ensures WaitOk(Perform(s, t, e), t)
  {
    var k := s.calls[t].job.id;
    CarriedNotOver(s, t);
    NotArmed(s.armed, k);
    FullIsEnd(s.book.ends, k);
    forall u | 0 <= u < |s.calls| && u != t
      ensures !(Carrying(s.calls[u]) && s.calls[u].job.id == k)
    {
      OnlyCarrier(s, t, u);
    }
    assert e.arm.Nothing?;
    hide Resume, Ticked, StackOk, Placed, Total;
  }

  lemma CallWaits(s: State, t: nat)
    requires t < |s.calls| && Waits(s) && Control(s) && Jobs(s) && !Blocked(s, t)
    requires Carrying(s.calls[t]) ==> Placed(s, s.calls[t].job.id)
    ensures Waits(Perform(s, t, CallEffect(s, t)))
  {
    var e := CallEffect(s, t);
    CallHandsOn(s, t);
    CallEffectFair(s, t, 0);
    PerformJudged(s, t, e);
    var s' := Perform(s, t, e);
    forall u | 0 <= u < |s'.calls| && s'.calls[u].Await?
      ensures WaitOk(s', u)
    {
      if u == t {
        PerformWaits(s, t, e);
      } else {
        PerformOthersWait(s, t, e, u);
      }
    }
    hide Perform, CallEffect, WaitOk, AllJudged, Judged, Control, Jobs;
  }

  // ----- the other steps -----

  lemma EnterWaits(s: State, t: nat, api: Api)
    requires t < |s.calls| && Waits(s) && s.calls[t].Idle?
    ensures Waits(Enter(s, t, api))
  {
    var s' := Enter(s, t, api);
    forall u | 0 <= u < |s'.calls| && s'.calls[u].Await?
      ensures WaitOk(s', u)
    {
      assert WaitOk(s, u);
    }
  }

  lemma FireWaits(s: State, i: nat)
    requires i < |s.armed| && Waits(s)
    ensures Waits(Fires(s, i))
  {
    var s' := Fires(s, i);
    forall u | 0 <= u < |s'.calls| && s'.calls[u].Await?
      ensures WaitOk(s', u)
    {
      assert WaitOk(s, u);
    }
  }

  lemma StaysWaits(s: State)
    requires Control(s) && s.stack.Frames? && Waits(s)
    requires ExecEffect(s.stack.top, s.closing, |s.book.jobs|).Stay?
    ensures Waits(Stays(s, ExecEffect(s.stack.top, s.closing, |s.book.jobs|)))
  {
    var e := ExecEffect(s.stack.top, s.closing, |s.book.jobs|);
    var s' := Stays(s, e);
    assert AllJudged(s'.promises, s'.book.ends);
    forall u | 0 <= u < |s'.calls| && s'.calls[u].Await?
      ensures WaitOk(s', u)
    {
      assert WaitOk(s, u);
    }
    hide Ticked, AllJudged, Judged, StackOk, TotalLog;
  }

  lemma OverJudged(s: State, fate: Fate, threw: bool)
    requires Control(s) && s.stack.Frames? && Waits(s) && Placed(s, s.stack.top.job.id)
    requires OverOk(s.stack.top, fate) && threw == (fate.Threw? && !s.stack.top.AutoCatch())
    ensures var s' := IsOver(s, fate, threw);
      && AllJudged(s'.promises, s'.book.ends)
      && (s'.stack.Frames? && s'.stack.top.phase.Settle? && !s'.stack.top.job.work.Resuming? ==>
            Judged(s'.stack.top.phase.inner, s'.stack.top.phase.ok, s'.book.ends))
  {
    var x := Ending(s.stack.top.job.id, fate);
    RunningNotOver(s, 0);
    AllJudgedStable(s.promises, s.book.ends, x);
    FullIsEnd(s.book.ends, x.id);
    hide AllJudged, Placed;
  }

  lemma OverOthersWait(s: State, fate: Fate, threw: bool, u: nat)
    requires s.stack.Frames? && 0 < u < |s.calls| && s.calls[u].Await? && WaitOk(s, u)
    requires !fate.RefusedCapacity?
    ensures WaitOk(IsOver(s, fate, threw), u)
  {
    hide Unwind;
  }

  lemma OverWorkerWaits(s: State, fate: Fate, threw: bool)
    requires Jobs(s) && s.calls != [] && s.stack.Frames? && Placed(s, s.stack.top.job.id)
    requires !fate.RefusedCapacity? && IsOver(s, fate, threw).calls[0].Await?
    ensures WaitOk(IsOver(s, fate, threw), 0)
  {
    var k := s.stack.top.job.id;
    FullIsEnd(s.book.ends, k);
    RunningNotOver(s, 0);
    NotArmed(s.armed, k);
    forall v | 0 <= v < |s.calls|
      ensures !(Carrying(s.calls[v]) && s.calls[v].job.id == k)
    {
      RunningNotOver(s, v);
    }
    hide Unwind, Placed, Total;
  }

  lemma OverWaits(s: State, fate: Fate, threw: bool)
    requires Control(s) && Jobs(s) && s.stack.Frames? && Waits(s) && Placed(s, s.stack.top.job.id)
    requires OverOk(s.stack.top, fate) && threw == (fate.Threw? && !s.stack.top.AutoCatch())
    ensures Waits(IsOver(s, fate, threw))
  {
    var s' := IsOver(s, fate, threw);
    OverJudged(s, fate, threw);
    forall u | 0 <= u < |s'.calls| && s'.calls[u].Await?
      ensures WaitOk(s', u)
    {
      if u == 0 {
        OverWorkerWaits(s, fate, threw);
      } else {
        OverOthersWait(s, fate, threw, u);
      }
    }
    hide WaitOk, AllJudged, Judged, StackOk, Jobs, Placed, Unwind;
  }

  // ----- whose outcome a promise reports -----

  /** The book knows more submissions, and perhaps which wrapper called the newest. */
  predicate Learns(book: Book, book': Book) {
    && book.jobs <= book'.jobs
    && (book'.inside == book.inside
        || (book'.inside.Add? && book'.inside.earlier == book.inside
            && book'.inside.latest.inner >= |book.jobs|))
  }

  lemma {:induction false} OwnedGrow(promises: Log<Settled>, book: Book, book': Book)
    requires AllOwned(promises, book) && Learns(book, book')
    ensures AllOwned(promises, book')
  {
    if promises.Add? {
      OwnedGrow(promises.earlier, book, book');
    }
  }

  lemma {:induction false} StackOwnedGrow(stack: Stack, book: Book, book': Book)
    requires StackOwned(stack, book) && Learns(book, book')
    ensures StackOwned(stack, book')
  {
    if stack.Frames? {
      if stack.top.via.FromWrapper? && stack.below.Frames? {
      }
      StackOwnedGrow(stack.below, book, book');
    }
  }

  lemma OwnedLearns(s: State, book: Book)
    requires Owned(s) && Learns(s.book, book)
    ensures Owned(s.(book := book))
  {
    OwnedGrow(s.promises, s.book, book);
    StackOwnedGrow(s.stack, s.book, book);
    if s.stack.Frames? && s.stack.top.phase.Settle? {
    }
    hide AllOwned, StackOwned, Owns, Learns;
  }

  lemma PerformOwned(s: State, t: nat, e: Effect)
    requires t < |s.calls| && Owned(s)
    requires e.nest.Just? ==> !e.nest.value.phase.Settle? && !e.nest.value.via.FromWrapper?
    ensures Owned(Perform(s, t, e))
  {
    hide AllOwned, Owns, Ticked;
    OwnedLearns(s, Perform(s, t, e).book);
    hide Owned;
  }

  lemma EnterOwned(s: State, t: nat, api: Api)
    requires t < |s.calls| && Owned(s)
    ensures Owned(Enter(s, t, api))
  {
    OwnedLearns(s, Enter(s, t, api).book);
    hide Owns, AllOwned, StackOwned, Entry;
  }

  lemma StaysOwned(s: State)
    requires s.stack.Frames? && Owned(s) && JobOk(s.stack.top.job, s.book.jobs)
    requires ExecEffect(s.stack.top, s.closing, |s.book.jobs|).Stay?
    ensures Owned(Stays(s, ExecEffect(s.stack.top, s.closing, |s.book.jobs|)))
  {
    var e := ExecEffect(s.stack.top, s.closing, |s.book.jobs|);
    var s' := Stays(s, e);
    OwnedLearns(s, s'.book);
    assert !e.phase.Settle?;
    assert e.call.Just? ==> e.call.value.job == Job(|s.book.jobs|, Plain(s.stack.top.job.work.task))
                            && !e.call.value.phase.Settle?;
    assert e.settle.Just? ==> s.stack.top.phase.Settle?;
    assert e.settle.Just? ==> e.settle.value.id == s.stack.top.job.id;
    assert e.settle.Just? ==> e.settle.value.inner == s.stack.top.phase.inner;
    assert StackOwned(SetPhase(s.stack, e.phase), s'.book);
    hide Ticked, ExecEffect;
  }

  lemma UnwindOwned(stack: Stack, threw: bool, book: Book)
    requires stack.Frames? && StackOwned(stack, book)
    ensures StackOwned(Unwind(stack, threw), book)
  {
    assert StackOwned(stack.below, book);
    hide Owns;
  }

  lemma OverOwned(s: State, fate: Fate, threw: bool)
    requires Control(s) && s.stack.Frames? && Owned(s)
    ensures Owned(IsOver(s, fate, threw))
  {
    if s.stack.below.Frames? {
      assert Suspended(s.stack.below.top.phase);
      assert s.stack.top.via.FromWrapper? <==> s.stack.below.top.phase.Wrapped?;
    }
    var s' := IsOver(s, fate, threw);
    OwnedLearns(s, s'.book);
    UnwindOwned(s.stack, threw, s'.book);
    hide AllOwned, Owns, StackOk;
  }
}
