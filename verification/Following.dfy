/** What becomes of a call that a client makes, whatever all other threads do meanwhile. */
module Following {
  import opened Tasks
  import opened Machine
  import opened Counting
  import opened Invariant
  import opened Growth
  import opened Rendezvous
  import opened Dispatching
  import opened Drain
  import opened Service
  import opened Safety

  /** What a call hands to ExecTask_. */
  function WorkOf(api: Api): Work
    requires !api.Close?
  {
    match api
    case PostWithPromise(task) => Promised(task)
    case PostSynchronously(task) => Sync(task)
    case PostTimerLegacy(task) => Resuming(task)
    case _ => Plain(api.task)
  }

  /** Inside Post. */
  predicate InPost(c: Call) {
    c.PostCheck? || c.PostReserve? || c.PostRollback? || c.PostEnqueue?
  }

  /** The client is inside `api` and has not handed over its task, which is submission k. */
  predicate StillIn(c: Call, api: Api, k: nat) {
    if api.Close? then c.CloseCheck? || c.ClosePost? || c.CloseStore?
    else
      Carrying(c) && c.job == Job(k, WorkOf(api)) &&
      match api
      case Post(_) => InPost(c)
      case PostWithPromise(_) => InPost(c)
      case PostSynchronously(_) => InPost(c) || c.DispatchCheck?
      case Dispatch(_) => InPost(c) || c.DispatchCheck?
      case PostToken(_) => c.TokenEnqueue?
      case PostWithTimer(_) => c.TimerCheck? || c.TimerArm?
      case PostTimerLegacy(_) => c.TimerCheck? || c.TimerArm?
      case PostTimerToken(_) => c.TimerArm?
  }

  function RefusedEnd(k: nat): Ending -> nat { (e: Ending) => Bit(e == Ending(k, RefusedClosing)) }

  /** Submission k was refused because the pipeline was closing, or for lack of capacity. */
  predicate Dismissed(s: State, k: nat) { TotalLog(s.book.ends, RefusedEnd(k)) > 0 }
  predicate Overflowed(s: State, k: nat) { TotalLog(s.book.ends, CapacityEnd(k)) > 0 }

  /** The task of submission k has been put at the end of the queue, in the given way. */
  predicate WasQueued(s: State, k: nat, work: Work, origin: Origin) {
    Run(Job(k, work), origin) in s.book.hist
  }

  /** A timer holds the task of submission k, or has expired and queued it. */
  predicate WasArmed(s: State, k: nat, work: Work) {
    Job(k, work) in s.armed || WasQueued(s, k, work, Timer)
  }

  /** What client t has achieved by `api` when it is no longer in it. A caller of
      PostSynchronously is in future.get() until its promise is settled, unless it got the
      exception for lack of capacity. */
  predicate Achieved(s: State, t: nat, api: Api, k: nat)
    requires t < |s.calls|
  {
    match api
    case Post(task) => WasQueued(s, k, Plain(task), Posted) || Dismissed(s, k) || Overflowed(s, k)
    case PostWithPromise(task) =>
      WasQueued(s, k, Promised(task), Posted) || Dismissed(s, k) || Overflowed(s, k)
    case Dispatch(task) => WasQueued(s, k, Plain(task), Posted) || Dismissed(s, k) || Overflowed(s, k)
    case PostSynchronously(task) =>
      || Overflowed(s, k)
      || ((WasQueued(s, k, Sync(task), Posted) || Dismissed(s, k))
          && (s.calls[t] == Await(k) || !Lookup(s.promises, k).Unset?))
    case PostToken(task) => WasQueued(s, k, Plain(task), Token)
    case PostWithTimer(task) => WasArmed(s, k, Plain(task)) || Dismissed(s, k)
    case PostTimerLegacy(task) => WasArmed(s, k, Resuming(task)) || Dismissed(s, k)
    case PostTimerToken(task) => WasArmed(s, k, Plain(task))
    case Close => s.closing
  }

  predicate Followed(s: State, t: nat, api: Api, k: nat) {
    0 < t < |s.calls| && (StillIn(s.calls[t], api, k) || Achieved(s, t, api, k))
  }

  lemma Enters(s: State, t: nat, api: Api)
    requires Free(s, t)
    ensures Followed(Next(s, Begin(t, api)), t, api, |s.book.jobs|)
  {
    hide TotalLog, WorkerStep, CallStep, Achieved;
  }

  // ----- the client's own operations -----

  /** What the client's next operation hands over, if it leaves the method. */
  predicate Hands(e: Effect, api: Api, k: nat) {
    var work := if api.Close? then Plain(Return) else WorkOf(api);
    var posted := e.enqueue == Just(Run(Job(k, work), Posted));
    var dismissed := e.over == Just(Ending(k, RefusedClosing));
    var overflowed := e.over == Just(Ending(k, RefusedCapacity));
    match api
    case Post(_) => posted || dismissed || overflowed
    case PostWithPromise(_) => posted || dismissed || overflowed
    case Dispatch(_) => posted || dismissed || overflowed
    case PostSynchronously(_) => overflowed || ((posted || dismissed) && e.next == Await(k))
    case PostToken(_) => e.enqueue == Just(Run(Job(k, work), Token))
    case PostWithTimer(_) => e.arm == Just(Job(k, work)) || dismissed
    case PostTimerLegacy(_) => e.arm == Just(Job(k, work)) || dismissed
    case PostTimerToken(_) => e.arm == Just(Job(k, work))
    case Close => e.close
  }

  lemma OwnEffect(s: State, t: nat, api: Api, k: nat)
    requires 0 < t < |s.calls| && StillIn(s.calls[t], api, k)
    ensures var e := CallEffect(s, t);
      StillIn(e.next, api, k) || Hands(e, api, k) || (api.Close? && s.closing)
  {
    hide Ticked, Lookup;
    match s.calls[t] {
      case PostCheck(_) => case PostReserve(_) => case PostRollback(_) => case PostEnqueue(_) =>
      case DispatchCheck(_) => case Nest(_) => case TimerCheck(_) => case TimerArm(_) =>
      case TokenEnqueue(_) => case CloseCheck => case ClosePost => case CloseStore =>
      case Await(_) => case Join => case Idle =>
    }
  }

  lemma LatestCounts(ends: Log<Ending>, x: Maybe<Ending>, k: nat)
    ensures x == Just(Ending(k, RefusedClosing)) ==> TotalLog(Recorded(ends, x), RefusedEnd(k)) > 0
    ensures x == Just(Ending(k, RefusedCapacity)) ==> TotalLog(Recorded(ends, x), CapacityEnd(k)) > 0
  {
  }

  lemma OwnStep(s: State, t: nat, api: Api, k: nat)
    requires 0 < t < |s.calls| && StillIn(s.calls[t], api, k)
    ensures Followed(Perform(s, t, CallEffect(s, t)), t, api, k)
  {
    hide CallEffect, Ticked, StillIn, Resume, TotalLog;
    var e := CallEffect(s, t);
    OwnEffect(s, t, api, k);
    LatestCounts(s.book.ends, e.over, k);
    assert e.enqueue.Just? ==> e.enqueue.value in Appended(s.book.hist, e.enqueue);
    assert e.arm.Just? ==> e.arm.value in Appended(s.armed, e.arm);
  }

  // ----- what has been achieved stays so -----

  /** Nothing that has been achieved is taken back. */
  predicate Retains(s: State, s': State) {
    && |s'.calls| == |s.calls|
    && s.book.hist <= s'.book.hist && LogGrows(s.book.ends, s'.book.ends)
    && LogGrows(s.promises, s'.promises) && (s.closing ==> s'.closing)
    && forall job | job in s.armed :: job in s'.armed || Run(job, Timer) in s'.book.hist
  }

  lemma AchievedStays(s: State, s': State, t: nat, api: Api, k: nat)
    requires Retains(s, s') && t < |s.calls| && Achieved(s, t, api, k)
    requires s.calls[t] == Await(k) && Lookup(s.promises, k).Unset? ==> s'.calls[t] == Await(k)
    ensures Achieved(s', t, api, k)
  {
    assert forall h | h in s.book.hist :: h in s'.book.hist;
  }

  lemma StaysRetains(s: State, e: FrameEffect)
    requires s.stack.Frames? && e.Stay?
    ensures Retains(s, Stays(s, e))
  {
    hide Ticked;
  }

  lemma OverRetains(s: State, fate: Fate, threw: bool)
    requires s.stack.Frames? && s.calls != []
    ensures Retains(s, IsOver(s, fate, threw))
  {
    hide Unwind;
  }

  lemma ExecRetains(s: State)
    requires s.stack.Frames? && s.calls != []
    ensures Retains(s, ExecStep(s))
  {
    var e := ExecEffect(s.stack.top, s.closing, |s.book.jobs|);
    hide ExecEffect, Stays, IsOver, Entry;
    match e
    case Stay(_, _, _, _, _) => StaysRetains(s, e);
    case Call(api) =>
    case Over(fate, threw) => OverRetains(s, fate, threw);
    case Still =>
  }

  lemma WorkerRetains(s: State)
    requires s.calls != []
    ensures Retains(s, WorkerStep(s))
  {
    hide ExecStep, Retains, Clock;
    if s.worker.Loop? && s.stack.Frames? {
      ExecRetains(s);
    } else if s.worker.Loop? && !s.stopped && s.queue != [] {
      DequeueRetains(s);
    } else {
      WorkerIsClock(s);
      ClockRetains(s, WorkerStep(s));
    }
  }

  lemma DequeueRetains(s: State)
    requires s.queue != []
    ensures s.queue[0].Run? ==> Retains(s, DequeuesJob(s))
    ensures s.queue[0].Marker? ==> Retains(s, DequeuesMarker(s))
  {
  }

  lemma ClockRetains(s: State, s': State)
    requires Clock(s, s')
    ensures Retains(s, s')
  {
  }

  lemma PerformRetains(s: State, t: nat, e: Effect)
    requires t < |s.calls|
    ensures Retains(s, Perform(s, t, e))
  {
    hide Ticked, Resume;
  }

  lemma FiresRetains(s: State, i: nat)
    requires i < |s.armed|
    ensures Retains(s, Fires(s, i))
  {
    var h := Run(s.armed[i], Timer);
    assert (s.book.hist + [h])[|s.book.hist|] == h;
    forall job | job in s.armed && job != s.armed[i]
      ensures job in s.armed[..i] + s.armed[i + 1..]
    {
      var j :| 0 <= j < |s.armed| && s.armed[j] == job;
      assert j < i || s.armed[i + 1..][j - i - 1] == job;
    }
  }

  lemma StepRetains(s: State, l: Label)
    requires s.calls != []
    ensures Retains(s, Next(s, l))
  {
    if l.Step? {
      ThreadNext(s, l.t);
      hide Next, WorkerStep, Perform, CallEffect, Blocked, Retains;
      if l.t == 0 && s.calls[0].Idle? {
        WorkerRetains(s);
      } else if l.t < |s.calls| {
        PerformRetains(s, l.t, CallEffect(s, l.t));
      }
      assert Retains(s, s) by { SelfRetains(s); }
    } else if l.Expire? && l.i < |s.armed| {
      FiresRetains(s, l.i);
    }
    hide Entry, Fires, WorkerStep, CallStep;
  }

  lemma SelfRetains(s: State)
    ensures Retains(s, s)
  {
  }

  /** Only its own operations move a client. */
  lemma OthersLeaveClient(s: State, l: Label, t: nat)
    requires 0 < t < |s.calls| && !s.calls[t].Idle? && l != Step(t)
    ensures |Next(s, l).calls| == |s.calls| && Next(s, l).calls[t] == s.calls[t]
  {
    if l.Step? {
      ThreadNext(s, l.t);
      hide Next, WorkerStep, CallEffect, Blocked;
      if l == Step(0) && s.calls[0].Idle? {
        WorkerLeaves(s, 0);
      }
    }
    hide WorkerStep, CallStep, Entry;
  }

  lemma StepFollows(s: State, l: Label, t: nat, api: Api, k: nat)
    requires Followed(s, t, api, k)
    ensures Followed(Next(s, l), t, api, k)
  {
    StepRetains(s, l);
    ThreadNext(s, t);
    hide Next, StillIn, Achieved, Retains, Perform, CallEffect, WorkerStep;
    if StillIn(s.calls[t], api, k) {
      StillBusy(s.calls[t], api, k);
      if l == Step(t) {
        OwnStep(s, t, api, k);
      } else {
        OthersLeaveClient(s, l, t);
      }
    } else {
      if s.calls[t] == Await(k) && l != Step(t) {
        OthersLeaveClient(s, l, t);
      }
      AchievedStays(s, Next(s, l), t, api, k);
    }
  }

  lemma StillBusy(c: Call, api: Api, k: nat)
    requires StillIn(c, api, k)
    ensures !c.Idle? && !c.Await? && !c.Join?
  {
  }

  lemma {:induction false} RunFollows(s: State, ls: seq<Label>, t: nat, api: Api, k: nat)
    requires Followed(s, t, api, k)
    ensures Followed(Exec(s, ls), t, api, k)
  {
    hide Next, Followed;
    if ls != [] {
      RunFollows(s, ls[..|ls| - 1], t, api, k);
      StepFollows(Exec(s, ls[..|ls| - 1]), ls[|ls| - 1], t, api, k);
    }
  }

  /** Whatever other threads do after client t has entered a method, it is still in it with
      its task, or the task has gone where the method promises: to the end of the queue, to a
      timer, or into a refusal that the method can make. In particular a caller of
      PostSynchronously comes back only when its promise is settled, or with the exception
      for lack of capacity, and a closer only when the pipeline is closing. */
  lemma CallIsFollowed(s: State, t: nat, api: Api, ls: seq<Label>)
    requires Free(s, t)
    ensures Followed(Exec(Next(s, Begin(t, api)), ls), t, api, |s.book.jobs|)
  {
    Enters(s, t, api);
    RunFollows(Next(s, Begin(t, api)), ls, t, api, |s.book.jobs|);
    hide Next, Followed;
  }

  // ----- no call takes more than four operations of the client's own -----

  /** Operations left until the task is handed over. */
  function Handing(c: Call): nat {
    match c
    case DispatchCheck(_) => 4
    case PostCheck(_) => 3
    case PostReserve(_) => 2
    case TimerCheck(_) => 2
    case CloseCheck => 3
    case ClosePost => 2
    case _ => 1
  }

  /** Operations of thread t. */
  function Own(ls: seq<Label>, t: nat): nat {
    if ls == [] then 0 else Own(ls[..|ls| - 1], t) + Bit(ls[|ls| - 1] == Step(t))
  }

  lemma OneToFour(c: Call)
    ensures 1 <= Handing(c) <= 4
  {
  }

  lemma OwnHands(s: State, t: nat, api: Api, k: nat)
    requires 0 < t < |s.calls| && StillIn(s.calls[t], api, k)
    ensures StillIn(CallEffect(s, t).next, api, k) ==> Handing(CallEffect(s, t).next) < Handing(s.calls[t])
  {
    hide Ticked, Lookup;
    match s.calls[t] {
      case PostCheck(_) => case PostReserve(_) => case PostRollback(_) => case PostEnqueue(_) =>
      case DispatchCheck(_) => case Nest(_) => case TimerCheck(_) => case TimerArm(_) =>
      case TokenEnqueue(_) => case CloseCheck => case ClosePost => case CloseStore =>
      case Await(_) => case Join => case Idle =>
    }
  }

  /** Either the task has been handed over or there is less left to do. */
  predicate HandsOver(s: State, t: nat, api: Api, k: nat, left: int) {
    && 0 < t < |s.calls|
    && (Achieved(s, t, api, k) || (StillIn(s.calls[t], api, k) && Handing(s.calls[t]) <= left))
  }

  lemma StepHandsOver(s: State, l: Label, t: nat, api: Api, k: nat, left: int)
    requires HandsOver(s, t, api, k, left)
    ensures HandsOver(Next(s, l), t, api, k, left - Bit(l == Step(t)))
  {
    StepFollows(s, l, t, api, k);
    ThreadNext(s, t);
    hide Next, StillIn, Achieved, CallEffect, WorkerStep, Handing;
    if Achieved(s, t, api, k) {
      AchievedGoesOn(s, l, t, api, k);
    } else {
      StillBusy(s.calls[t], api, k);
      if l == Step(t) {
        OwnHands(s, t, api, k);
      } else {
        OthersLeaveClient(s, l, t);
      }
    }
  }

  lemma AchievedGoesOn(s: State, l: Label, t: nat, api: Api, k: nat)
    requires 0 < t < |s.calls| && Achieved(s, t, api, k)
    ensures |Next(s, l).calls| == |s.calls| && Achieved(Next(s, l), t, api, k)
  {
    StepRetains(s, l);
    ThreadNext(s, t);
    if s.calls[t] == Await(k) && l != Step(t) {
      OthersLeaveClient(s, l, t);
    }
    hide Next, Achieved, CallEffect, WorkerStep, Perform;
    AchievedStays(s, Next(s, l), t, api, k);
  }

  lemma {:induction false} RunHandsOver(s: State, ls: seq<Label>, t: nat, api: Api, k: nat, left: int)
    requires HandsOver(s, t, api, k, left)
    ensures HandsOver(Exec(s, ls), t, api, k, left - Own(ls, t))
  {
    hide Next, HandsOver;
    if ls != [] {
      var before, l := ls[..|ls| - 1], ls[|ls| - 1];
      RunHandsOver(s, before, t, api, k, left);
      StepHandsOver(Exec(s, before), l, t, api, k, left - Own(before, t));
    }
  }

  /** A client that has performed four operations of its own since it entered a method has
      handed its task over, whatever the others did in between. */
  lemma CallIsOver(s: State, t: nat, api: Api, ls: seq<Label>)
    requires Free(s, t) && Own(ls, t) >= 4
    ensures t < |s.calls| == |Exec(Next(s, Begin(t, api)), ls).calls|
    ensures Achieved(Exec(Next(s, Begin(t, api)), ls), t, api, |s.book.jobs|)
  {
    hide Next, Achieved, StillIn, Handing, Exec;
    var s1, k := Next(s, Begin(t, api)), |s.book.jobs|;
    Enters(s, t, api);
    OneToFour(s1.calls[t]);
    RunHandsOver(s1, ls, t, api, k, 4);
    RunGrows(s1, ls);
    StepGrows(s, Begin(t, api));
    OneToFour(Exec(s1, ls).calls[t]);
  }

  // ----- PostSynchronously by a client -----

  lemma ServedOnce(s: State, k: nat)
    requires Reachable(s) && k < |s.book.jobs| && s.book.jobs[k].Sync? && !Lookup(s.promises, k).Unset?
    ensures TotalLog(s.promises, SettledAs(k)) == 1
  {
    SettledAtMostOnce(s, k);
    LookupCounts(s.promises, k);
  }

  lemma {:induction false} SettledStays(s: State, ls: seq<Label>, k: nat)
    requires s.calls != [] && !Lookup(s.promises, k).Unset?
    ensures !Lookup(Exec(s, ls).promises, k).Unset?
  {
    if ls != [] {
      SettledStays(s, ls[..|ls| - 1], k);
      RunGrows(s, ls[..|ls| - 1]);
      StepRetains(Exec(s, ls[..|ls| - 1]), ls[|ls| - 1]);
    }
    hide Next;
  }

  /** PostSynchronously in a run without a Close, from the moment a client calls it: once the
      client has performed four operations of its own and the worker those that everything
      then queued may take, the call has been refused for lack of capacity, or its promise has
      been settled exactly once and the client is past future.get() or free to go on. */
  lemma PostSynchronouslyIsServed(s: State, t: nat, task: Task, a: seq<Label>, b: seq<Label>)
    requires Reachable(s) && Free(s, t) && Own(a, t) >= 4
    requires var s1 := Exec(Next(s, Begin(t, PostSynchronously(task))), a);
      && s1.calls != [] && Marker !in s1.book.hist && !Exec(s1, b).closing
      && Turns(b) >= Load(s1) + Everything(s1.queue)
    ensures var s2 := Exec(Exec(Next(s, Begin(t, PostSynchronously(task))), a), b);
      var k := |s.book.jobs|;
      || Overflowed(s2, k)
      || (&& k < |s2.book.jobs| && s2.book.jobs[k] == Sync(task)
          && TotalLog(s2.promises, SettledAs(k)) == 1
          && t < |s2.calls| && (s2.calls[t] == Await(k) ==> !Blocked(s2, t)))
  {
    var api, k := PostSynchronously(task), |s.book.jobs|;
    var s0 := Next(s, Begin(t, api));
    var s1 := Exec(s0, a);
    var s2 := Exec(s1, b);
    CallIsOver(s, t, api, a);
    StepReachable(s, Begin(t, api));
    ReachableLater(s0, a);
    ReachableLater(s1, b);
    assert s0.book.jobs == s.book.jobs + [Sync(task)] && s0.calls != [];
    RunGrows(s0, a);
    RunGrows(s1, b);
    assert s2.book.jobs[k] == s0.book.jobs[k];
    hide Reachable, Exec, Next, Load, Everything;
    if Overflowed(s1, k) {
      EndsGrow(s1, b, CapacityEnd(k));
    } else if Lookup(s1.promises, k).Unset? {
      EveryCallerIsServed(s1, b, t);
    } else {
      SettledStays(s1, b, k);
      ServedOnce(s2, k);
    }
  }
}
