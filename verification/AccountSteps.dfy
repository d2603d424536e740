/** The reservation counter follows the reservations: `Accounts` is kept by each kind
    of step. */
module AccountSteps {
  import opened Tasks
  import opened Machine
  import opened Counting
  import opened Invariant
  import opened LedgerSteps

  // ----- what the counter says -----

  lemma {:induction false} TotalSum<T>(s: seq<T>, f: T -> nat, g: T -> nat, h: T -> nat)
    requires forall i | 0 <= i < |s| :: h(s[i]) == f(s[i]) + g(s[i])
    ensures Total(s, h) == Total(s, f) + Total(s, g)
  {
    if s != [] {
      TotalSum(s[..|s| - 1], f, g, h);
    }
  }

  lemma ReservedSplit(s: State)
    ensures Reserved(s) == Held(s) + Rolling(s)
  {
    TotalSum(s.calls, HeldCall, RollingCall, ReservedCall);
  }

  lemma RollingBound(s: State, t: nat)
    requires t < |s.calls| && !s.calls[t].PostRollback?
    ensures Rolling(s) < |s.calls|
  {
    TotalSplit(s.calls, t, RollingCall);
    TotalBound(s.calls[..t], RollingCall);
    TotalBound(s.calls[t + 1..], RollingCall);
  }

  /** While no uncompensated decrement has been executed, the counter is exact. */
  lemma CountIsExact(s: State)
    requires Accounts(s) && s.book.uncompensated == 0 && NoWrap(s)
    ensures s.count == Reserved(s) == Held(s) + Rolling(s)
  {
    ReservedSplit(s);
    TotalBound(s.calls, RollingCall);
  }

  lemma AddMultiple(x: int, q: int)
    ensures (x + SIZE_T * q) % SIZE_T == x % SIZE_T
  {
    var y := x + SIZE_T * q;
    assert x == SIZE_T * (x / SIZE_T) + x % SIZE_T;
    assert y == SIZE_T * (y / SIZE_T) + y % SIZE_T;
    assert SIZE_T * (x / SIZE_T + q - y / SIZE_T) == y % SIZE_T - x % SIZE_T;
  }

  lemma Shifted(a: int, b: int, d: int)
    requires a % SIZE_T == b % SIZE_T
    ensures (a + d) % SIZE_T == (b + d) % SIZE_T
  {
    assert a == SIZE_T * (a / SIZE_T) + a % SIZE_T && b == SIZE_T * (b / SIZE_T) + b % SIZE_T;
    AddMultiple(b + d, a / SIZE_T - b / SIZE_T);
    assert a + d == b + d + SIZE_T * (a / SIZE_T - b / SIZE_T);
  }

  lemma TickedIs(n: nat)
    requires n < SIZE_T
    ensures Ticked(n, Keep) == n
    ensures Ticked(n, Up) == if n + 1 == SIZE_T then 0 else n + 1
    ensures Ticked(n, Down) == if n == 0 then SIZE_T - 1 else n - 1
    ensures Ticked(Ticked(n, Up), Down) == n
  {
  }

  lemma UpMod(count: nat, u: nat, r: nat)
    requires count < SIZE_T && (count + u) % SIZE_T == r % SIZE_T
    ensures Ticked(count, Up) < SIZE_T && (Ticked(count, Up) + u) % SIZE_T == (r + 1) % SIZE_T
  {
    TickedIs(count);
    Shifted(count + u, r, 1);
    AddMultiple(u, 1);
    hide Ticked;
  }

  lemma DownMod(count: nat, u: nat, r: nat)
    requires count < SIZE_T && (count + u) % SIZE_T == r % SIZE_T
    ensures Ticked(count, Down) < SIZE_T
    ensures r > 0 ==> (Ticked(count, Down) + u) % SIZE_T == (r - 1) % SIZE_T
    ensures (Ticked(count, Down) + u + 1) % SIZE_T == r % SIZE_T
  {
    TickedIs(count);
    Shifted(count + u, r, -1);
    AddMultiple(count + u - 1, 1);
    AddMultiple(u, 1);
    hide Ticked;
  }

  // ----- Perform -----

  function HeldEnqueued(e: Effect): nat {
    if e.enqueue.Just? then HeldHandler(e.enqueue.value) else 0
  }

  predicate Balanced(c: Call, e: Effect) {
    && (ReservedCall(e.next) + HeldEnqueued(e)) - ReservedCall(c)
       == (match e.count case Keep => 0 case Up => 1 case Down => -1)
    && (HeldCall(e.next) + HeldEnqueued(e)) - HeldCall(c)
       == (if c.PostReserve? && e.next.PostEnqueue? then 1 else 0)
    && (e.nest.Just? ==> HeldFrame(e.nest.value) == 0)
  }

  lemma CallEffectBalanced(s: State, t: nat)
    requires t < |s.calls|
    ensures Balanced(s.calls[t], CallEffect(s, t))
  {
    hide Ticked, Lookup;
    match s.calls[t] {
      case PostCheck(_) => case PostReserve(_) => case PostRollback(_) => case PostEnqueue(_) =>
      case DispatchCheck(_) => case Nest(_) => case TimerCheck(_) => case TimerArm(_) =>
      case TokenEnqueue(_) => case CloseCheck => case ClosePost => case CloseStore => case _ =>
    }
  }

  lemma HeldSteady()
    ensures Steady(HeldFrame)
  {
  }

  lemma PerformReserved(s: State, t: nat, e: Effect)
    requires t < |s.calls| && Balanced(s.calls[t], e)
    ensures Reserved(Perform(s, t, e))
         == Reserved(s) + (match e.count case Keep => 0 case Up => 1 case Down => -1)
    ensures Held(Perform(s, t, e))
         == Held(s) + (if s.calls[t].PostReserve? && e.next.PostEnqueue? then 1 else 0)
  {
    HeldSteady();
    PerformMass(s, t, e, RESERVED);
    PerformMass(s, t, e, HELD);
    hide Mass, Perform, Steady;
  }

  lemma AdmittedFits(s: State, t: nat)
    requires t < |s.calls| && s.calls[t].PostReserve? && CallEffect(s, t).next.PostEnqueue?
    ensures Ticked(s.count, Up) <= s.capacity
  {
    hide Ticked;
  }

  lemma CallAccounts(s: State, t: nat)
    requires t < |s.calls| && Accounts(s)
    ensures Accounts(Perform(s, t, CallEffect(s, t)))
  {
    hide Mass, Balanced, CallEffect, Ticked;
    var e := CallEffect(s, t);
    TickedIs(s.count);
    CallEffectBalanced(s, t);
    PerformReserved(s, t, e);
    UpMod(s.count, s.book.uncompensated, Reserved(s));
    DownMod(s.count, s.book.uncompensated, Reserved(s));
    if s.book.uncompensated == 0 && NoWrap(s) {
      CountIsExact(s);
      if s.calls[t].PostReserve? && e.next.PostEnqueue? {
        RollingBound(s, t);
        AdmittedFits(s, t);
      }
    }
  }

  // ----- the other steps -----

  lemma EnterAccounts(s: State, t: nat, api: Api)
    requires t < |s.calls| && s.calls[t].Idle? && Accounts(s)
    ensures Accounts(Enter(s, t, api))
  {
    EnterMass(s, t, api, RESERVED);
    EnterMass(s, t, api, HELD);
    hide Mass;
  }

  lemma StaysAccounts(s: State, closing: bool)
    requires s.stack.Frames? && Accounts(s)
    requires ExecEffect(s.stack.top, closing, |s.book.jobs|).Stay?
    ensures Accounts(Stays(s, ExecEffect(s.stack.top, closing, |s.book.jobs|)))
  {
    var e := ExecEffect(s.stack.top, closing, |s.book.jobs|);
    StaysMass(s, e, RESERVED);
    StaysMass(s, e, HELD);
    DownMod(s.count, s.book.uncompensated, Reserved(s));
    hide Mass;
  }

  lemma OverAccounts(s: State, fate: Fate, threw: bool)
    requires s.stack.Frames? && s.calls != [] && s.calls[0].Idle? && Accounts(s)
    requires OverOk(s.stack.top, fate)
    ensures Accounts(IsOver(s, fate, threw))
  {
    HeldSteady();
    OverMass(s, fate, threw, RESERVED);
    OverMass(s, fate, threw, HELD);
    hide Mass, Steady, Unwind;
  }

  lemma DequeueAccounts(s: State)
    requires s.queue != [] && s.queue[0].Run? && Accounts(s)
    ensures Accounts(DequeuesJob(s))
  {
    DequeueMass(s, RESERVED);
    DequeueMass(s, HELD);
    hide Mass;
  }

  lemma MarkerAccounts(s: State)
    requires s.queue != [] && s.queue[0].Marker? && Accounts(s)
    ensures Accounts(DequeuesMarker(s))
  {
    MarkerMass(s, RESERVED);
    MarkerMass(s, HELD);
    hide Mass;
  }

  lemma FireWraps(s: State, i: nat)
    requires i < |s.armed|
    ensures NoWrap(Fires(s, i)) == NoWrap(s)
  {
  }

  lemma FireAccounts(s: State, i: nat)
    requires i < |s.armed| && Accounts(s)
    ensures Accounts(Fires(s, i))
  {
    hide Mass, Total, NoWrap;
    FireMass(s, i, RESERVED);
    FireMass(s, i, HELD);
    assert NoWrap(Fires(s, i)) == NoWrap(s) by { FireWraps(s, i); }
  }
}
