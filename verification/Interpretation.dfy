/** The worker, left alone, does with each handler what the interpreter says: the atomic
    operations, the phases of ExecTask_ and the stack of activations come to the same. */
module Interpretation {
  import opened Tasks
  import opened Machine
  import opened Invariant
  import opened Progress
  import opened Alone
  import opened Execution
  import opened Meaning
  import opened Safety

  function Reports(promises: Log<Settled>): seq<Report> {
    match promises
    case Start => []
    case Add(earlier, p) => Reports(earlier) + [Report(p.id, p.ok)]
  }

  /** What of a state a task can see or change. */
  function View(s: State): World {
    World(s.capacity, s.count, s.closing, s.queue, s.armed, s.tasksRun, |s.book.jobs|, Reports(s.promises))
  }

  predicate Known(w: World) {
    forall i | 0 <= i < |w.told| :: w.told[i].id < w.issued
  }

  /** The state s of a run in which only the worker moves, begun in s0: the worker has come to
      `stack` and is at `c`, and what can be seen is w. */
  predicate Is(s0: State, s: State, stack: Stack, c: Call, w: World) {
    && s0.calls != [] && s.calls == s0.calls[0 := c] && s.stack == stack && View(s) == w && Known(w)
    && s.worker.Loop? && s.started == s0.started && s.closed == s0.closed && s.stopped == s0.stopped
    && s.waiter == s0.waiter
  }

  // ----- runs of the worker alone -----

  /** n operations of the worker lead from s to s', and it is executing a handler before each. */
  predicate LeadsIn(s: State, s': State, n: nat)
    decreases n
  {
    if n == 0 then s == s' else s.stack.Frames? && LeadsIn(Next(s, Step(0)), s', n - 1)
  }

  ghost predicate Leads(s: State, s': State) {
    exists n: nat :: LeadsIn(s, s', n)
  }

  lemma {:induction false} LeadsInOn(a: State, b: State, c: State, n: nat, m: nat)
    requires LeadsIn(a, b, n) && LeadsIn(b, c, m)
    ensures LeadsIn(a, c, n + m)
    decreases n
  {
    hide Next;
    if n > 0 {
      LeadsInOn(Next(a, Step(0)), b, c, n - 1, m);
    }
  }

  lemma LeadsOn(a: State, b: State, c: State)
    requires Leads(a, b) && Leads(b, c)
    ensures Leads(a, c)
  {
    var n: nat :| LeadsIn(a, b, n);
    var m: nat :| LeadsIn(b, c, m);
    LeadsInOn(a, b, c, n, m);
  }

  lemma OneMove(s: State, s': State)
    requires s.stack.Frames? && s' == Next(s, Step(0))
    ensures Leads(s, s')
  {
    assert LeadsIn(s', s', 0);
    assert LeadsIn(s, s', 1);
    hide Next;
  }

  lemma NoMove(s: State)
    ensures Leads(s, s)
  {
    assert LeadsIn(s, s, 0);
  }

  // ----- single operations -----

  lemma StayMove(s0: State, s: State, f: Frame, below: Stack, w: World) returns (s': State)
    requires Is(s0, s, Frames(f, below), Idle, w) && ExecEffect(f, w.closing, w.issued).Stay?
    requires ExecEffect(f, w.closing, w.issued).settle.Just? ==> f.job.id < w.issued
    ensures Leads(s, s')
    ensures var e := ExecEffect(f, w.closing, w.issued);
      && s'.promises == Recorded(s.promises, e.settle)
      && Is(s0, s', if e.call.Just? then Frames(e.call.value, Frames(f.(phase := e.phase), below))
                    else Frames(f.(phase := e.phase), below), Idle,
            w.(count := Ticked(w.count, e.count),
               issued := w.issued + (if e.call.Just? then 1 else 0),
               told := w.told + (if e.settle.Just? then [Report(e.settle.value.id, e.settle.value.ok)] else [])))
  {
    assert ExecEffect(f, w.closing, w.issued).settle.Just? ==>
      ExecEffect(f, w.closing, w.issued).settle.value.id == f.job.id;
    hide ExecEffect, Ticked, Next;
    ExecutesNext(s);
    s' := ExecStep(s);
    OneMove(s, s');
  }

  lemma EnterMove(s0: State, s: State, f: Frame, below: Stack, w: World) returns (s': State)
    requires Is(s0, s, Frames(f, below), Idle, w) && f.phase.In? && f.phase.rest.Do?
    ensures Leads(s, s')
    ensures var api := f.phase.rest.api;
      Is(s0, s', Frames(f, below), Entry(api, w.issued), if api.Close? then w else Issue(w))
  {
    hide Next, Entry;
    ExecutesNext(s);
    s' := ExecStep(s);
    OneMove(s, s');
  }

  lemma OverMove(s0: State, s: State, f: Frame, below: Stack, w: World) returns (s': State)
    requires Is(s0, s, Frames(f, below), Idle, w) && ExecEffect(f, w.closing, w.issued).Over?
    requires ExecEffect(f, w.closing, w.issued).threw ==> below.Frames?
    ensures Leads(s, s') && s'.promises == s.promises
    ensures var e := ExecEffect(f, w.closing, w.issued);
      var waits := f.job.work.Sync? && !e.threw && below.Frames? && !below.top.phase.Wrapped?;
      Is(s0, s', Unwind(Frames(f, below), e.threw), if waits then Await(f.job.id) else Idle,
         w.(tasksRun := w.tasksRun + (if e.fate.Finished? then 1 else 0)))
  {
    hide ExecEffect, Unwind, Next;
    ExecutesNext(s);
    s' := ExecStep(s);
    OneMove(s, s');
  }

  lemma CallMove(s0: State, s: State, stack: Stack, c: Call, w: World) returns (s': State)
    requires Is(s0, s, stack, c, w) && stack.Frames? && !c.Idle? && !Blocked(s, 0)
    ensures Leads(s, s') && s'.promises == s.promises
    ensures var e := CallEffect(s, 0);
      Is(s0, s', if e.nest.Just? then Frames(e.nest.value, stack)
                 else if e.next.Idle? then Resume(stack, e.normal) else stack, e.next,
         w.(count := Ticked(w.count, e.count), closing := w.closing || e.close,
            queue := Appended(w.queue, e.enqueue), armed := Appended(w.armed, e.arm)))
  {
    hide CallEffect, Ticked, Resume, Next, Blocked;
    ThreadNext(s, 0);
    s' := Next(s, Step(0));
    OneMove(s, s');
  }

  lemma TickIs(n: nat)
    ensures Ticked(n, Keep) == n && Ticked(n, Up) == Increment(n) && Ticked(n, Down) == Decrement(n)
  {
    if n > 0 {
      assert n + SIZE_T - 1 == (n - 1) + SIZE_T;
    }
  }

  // ----- the calls of a body -----

  /** The body f goes on after its call. */
  function GoesOn(f: Frame, normal: bool): Frame
    requires f.phase.In? && f.phase.rest.Do?
  {
    f.(phase := In(if normal then f.phase.rest.ok else f.phase.rest.ko))
  }

  /** A call has come back with result r, or the worker waits in it for ever. */
  predicate CameBack(s0: State, s: State, f: Frame, below: Stack, r: Result)
    requires f.phase.In? && f.phase.rest.Do?
  {
    if r.outcome.Hanging? then Halted(s, r.world)
    else Is(s0, s, Frames(GoesOn(f, r.outcome.Returned?), below), Idle, r.world)
  }

  predicate Halted(s: State, w: World) {
    Stuck(s) && s.stack.Frames? && View(s) == w
  }

  lemma PostRuns(s0: State, s: State, f: Frame, below: Stack, w: World, work: Work) returns (s': State)
    requires f.phase.In? && f.phase.rest.Do? && !work.Sync?
    requires Is(s0, s, Frames(f, below), PostCheck(Job(w.issued, work)), Issue(w))
    ensures Leads(s, s') && CameBack(s0, s', f, below, PostMeans(work, w))
  {
    var stack, job := Frames(f, below), Job(w.issued, work);
    hide Leads, Next, Ticked, Increment, Decrement, Known;
    TickIs(w.count);
    TickIs(Increment(w.count));
    s' := CallMove(s0, s, stack, PostCheck(job), Issue(w));
    if !w.closing {
      assert Is(s0, s', stack, PostReserve(job), Issue(w));
      var s2 := CallMove(s0, s', stack, PostReserve(job), Issue(w));
      LeadsOn(s, s', s2);
      var c := if Increment(w.count) > w.capacity then PostRollback(job) else PostEnqueue(job);
      assert Is(s0, s2, stack, c, Issue(w).(count := Increment(w.count)));
      var s3 := CallMove(s0, s2, stack, c, Issue(w).(count := Increment(w.count)));
      LeadsOn(s, s2, s3);
      s' := s3;
    }
  }

  lemma TimerRuns(s0: State, s: State, f: Frame, below: Stack, w: World, work: Work) returns (s': State)
    requires f.phase.In? && f.phase.rest.Do?
    requires Is(s0, s, Frames(f, below), TimerCheck(Job(w.issued, work)), Issue(w))
    ensures Leads(s, s') && CameBack(s0, s', f, below, TimerMeans(work, w))
  {
    var stack, job := Frames(f, below), Job(w.issued, work);
    hide Leads, Next, Ticked, Known;
    TickIs(w.count);
    s' := CallMove(s0, s, stack, TimerCheck(job), Issue(w));
    if !w.closing {
      assert Is(s0, s', stack, TimerArm(job), Issue(w));
      var s2 := CallMove(s0, s', stack, TimerArm(job), Issue(w));
      LeadsOn(s, s', s2);
      s' := s2;
    }
  }

  lemma HandOverRuns(s0: State, s: State, f: Frame, below: Stack, w: World, task: Task, c: Call)
    returns (s': State)
    requires f.phase.In? && f.phase.rest.Do?
    requires c == TimerArm(Job(w.issued, Plain(task))) || c == TokenEnqueue(Job(w.issued, Plain(task)))
    requires Is(s0, s, Frames(f, below), c, Issue(w))
    ensures Leads(s, s')
    ensures CameBack(s0, s', f, below, CallMeans(if c.TimerArm? then PostTimerToken(task) else PostToken(task), w))
  {
    hide Leads, Next, Ticked, Known;
    TickIs(w.count);
    s' := CallMove(s0, s, Frames(f, below), c, Issue(w));
  }

  lemma CloseRuns(s0: State, s: State, f: Frame, below: Stack, w: World) returns (s': State)
    requires f.phase.In? && f.phase.rest.Do?
    requires Is(s0, s, Frames(f, below), CloseCheck, w)
    ensures Leads(s, s') && CameBack(s0, s', f, below, CallMeans(Close, w))
  {
    hide Leads, Next, Ticked, Known;
    TickIs(w.count);
    s' := CallMove(s0, s, Frames(f, below), CloseCheck, w);
    if !w.closing {
      assert Is(s0, s', Frames(f, below), ClosePost, w);
      var s3 := ClosePostRuns(s0, s', f, below, w);
      LeadsOn(s, s', s3);
      s' := s3;
    }
  }

  lemma ClosePostRuns(s0: State, s: State, f: Frame, below: Stack, w: World) returns (s': State)
    requires f.phase.In? && f.phase.rest.Do?
    requires Is(s0, s, Frames(f, below), ClosePost, w)
    ensures Leads(s, s')
    ensures Is(s0, s', Frames(GoesOn(f, true), below), Idle, w.(closing := true, queue := w.queue + [Marker]))
  {
    hide Leads, Next, Ticked, Known;
    TickIs(w.count);
    var s1 := CallMove(s0, s, Frames(f, below), ClosePost, w);
    var w1 := w.(queue := w.queue + [Marker]);
    assert Is(s0, s1, Frames(f, below), CloseStore, w1);
    s' := CallMove(s0, s1, Frames(f, below), CloseStore, w1);
    LeadsOn(s, s1, s');
  }

  // ----- tasks -----

  /** An activation is over with result r; `c` is where the worker then is. */
  predicate GotOver(s0: State, s: State, f: Frame, below: Stack, threw: bool, c: Call, r: Result) {
    if r.outcome.Hanging? then Halted(s, r.world)
    else Is(s0, s, Unwind(Frames(f, below), threw), c, r.world)
  }

  /** The two operations that begin a body. */
  lemma Starts(s0: State, s: State, f: Frame, below: Stack, w: World) returns (s': State)
    requires f.phase.Check? && !w.closing && Is(s0, s, Frames(f, below), Idle, w)
    ensures Leads(s, s')
    ensures f.job.work.Plain? ==> Is(s0, s', Frames(f.(phase := In(f.job.work.task)), below), Idle, w)
    ensures !f.job.work.Plain? ==>
      Is(s0, s', Frames(Inner(f.job.work, w.issued), Frames(f.(phase := Wrapped), below)), Idle, Issue(w))
  {
    hide Leads, Next, Ticked, Known, Inner;
    TickIs(w.count);
    s' := StayMove(s0, s, f, below, w);
    var f1 := f.(phase := Passed);
    assert w.told + [] == w.told;
    assert Is(s0, s', Frames(f1, below), Idle, w);
    var s2 := StayMove(s0, s', f1, below, w);
    LeadsOn(s, s', s2);
    s' := s2;
  }

  lemma TaskRuns(s0: State, s: State, f: Frame, below: Stack, w: World) returns (s': State)
    requires f.phase.Check? && f.job.work.Plain? && !w.closing && Is(s0, s, Frames(f, below), Idle, w)
    requires !f.AutoCatch() ==> below.Frames?
    ensures Leads(s, s')
    ensures var r := TaskMeans(f.job.work.task, w);
      GotOver(s0, s', f, below, r.outcome.Thrown? && !f.AutoCatch(), Idle, r)
    decreases f.job.work.task, 1
  {
    hide Leads, Next, Unwind, BodyMeans, View, Known;
    var f1 := f.(phase := In(f.job.work.task));
    var s1 := Starts(s0, s, f, below, w);
    s' := BodyRuns(s0, s1, f1, below, w, f.job.work.task);
    LeadsOn(s, s1, s');
    var r := BodyMeans(f.job.work.task, w);
    if !r.outcome.Hanging? {
      var f2 := f.(phase := In(if r.outcome.Returned? then Return else Raise));
      var s3 := OverMove(s0, s', f2, below, r.world);
      UnwindIgnoresPhase(f, f2, below, r.outcome.Thrown? && !f.AutoCatch());
      LeadsOn(s, s', s3);
      s' := s3;
    }
  }

  lemma UnwindIgnoresPhase(f: Frame, g: Frame, below: Stack, threw: bool)
    requires f.job == g.job
    ensures Unwind(Frames(f, below), threw) == Unwind(Frames(g, below), threw)
  {
  }

  lemma BodyRuns(s0: State, s: State, f: Frame, below: Stack, w: World, task: Task) returns (s': State)
    requires f.phase == In(task) && Is(s0, s, Frames(f, below), Idle, w)
    ensures Leads(s, s')
    ensures var r := BodyMeans(task, w);
      if r.outcome.Hanging? then Halted(s', r.world)
      else Is(s0, s', Frames(f.(phase := In(if r.outcome.Returned? then Return else Raise)), below), Idle, r.world)
    decreases task, 0
  {
    hide Leads, Next, CallMeans, Is, Halted;
    if task.Do? {
      var r := CallMeans(task.api, w);
      var s1 := CallRuns(s0, s, f, below, w, task.api);
      if r.outcome.Hanging? {
        s' := s1;
      } else {
        var rest := if r.outcome.Returned? then task.ok else task.ko;
        s' := BodyRuns(s0, s1, f.(phase := In(rest)), below, r.world, rest);
        LeadsOn(s, s1, s');
      }
    } else {
      s' := s;
      NoMove(s);
    }
  }

  lemma CallRuns(s0: State, s: State, f: Frame, below: Stack, w: World, api: Api) returns (s': State)
    requires f.phase.In? && f.phase.rest.Do? && f.phase.rest.api == api && Is(s0, s, Frames(f, below), Idle, w)
    ensures Leads(s, s') && CameBack(s0, s', f, below, CallMeans(api, w))
    decreases api, 0
  {
    assert Known(w);
    hide Leads, Next, CameBack, Is, Known;
    var s1 := EnterMove(s0, s, f, below, w);
    match api {
      case Post(task) => s' := PostRuns(s0, s1, f, below, w, Plain(task));
      case PostWithPromise(task) => s' := PostRuns(s0, s1, f, below, w, Promised(task));
      case PostToken(task) =>
        s' := HandOverRuns(s0, s1, f, below, w, task, TokenEnqueue(Job(w.issued, Plain(task))));
      case PostTimerToken(task) =>
        s' := HandOverRuns(s0, s1, f, below, w, task, TimerArm(Job(w.issued, Plain(task))));
      case PostWithTimer(task) => s' := TimerRuns(s0, s1, f, below, w, Plain(task));
      case PostTimerLegacy(task) => s' := TimerRuns(s0, s1, f, below, w, Resuming(task));
      case Dispatch(task) => s' := DispatchRuns(s0, s1, f, below, w, task);
      case PostSynchronously(task) => s' := SynchronousRuns(s0, s1, f, below, w, task);
      case Close => s' := CloseRuns(s0, s1, f, below, w);
    }
    LeadsOn(s, s1, s');
  }

  /** Up to the place where Dispatch on the worker calls ExecTask_. */
  lemma DispatchEnters(s0: State, s: State, f: Frame, below: Stack, w: World, work: Work) returns (s': State)
    requires f.phase.In? && f.phase.rest.Do?
    requires Is(s0, s, Frames(f, below), DispatchCheck(Job(w.issued, work)), Issue(w))
    ensures Leads(s, s')
    ensures w.closing && !work.Sync? ==> Is(s0, s', Frames(GoesOn(f, true), below), Idle, Issue(w))
    ensures w.closing && work.Sync? ==> Is(s0, s', Frames(f, below), Await(w.issued), Issue(w)) && s'.promises == s.promises
    ensures !w.closing ==>
      Is(s0, s', Frames(Frame(Job(w.issued, work), FromDispatch, Check), Frames(f, below)), Idle, Issue(w))
  {
    var stack, job := Frames(f, below), Job(w.issued, work);
    hide Leads, Next, Ticked, Known;
    TickIs(w.count);
    s' := CallMove(s0, s, stack, DispatchCheck(job), Issue(w));
    if !w.closing {
      assert Is(s0, s', stack, Nest(job), Issue(w));
      var s2 := CallMove(s0, s', stack, Nest(job), Issue(w));
      LeadsOn(s, s', s2);
      s' := s2;
    }
  }

  lemma DispatchRuns(s0: State, s: State, f: Frame, below: Stack, w: World, task: Task) returns (s': State)
    requires f.phase.In? && f.phase.rest.Do? && f.phase.rest.api == Dispatch(task)
    requires Is(s0, s, Frames(f, below), DispatchCheck(Job(w.issued, Plain(task))), Issue(w))
    ensures Leads(s, s') && CameBack(s0, s', f, below, CallMeans(Dispatch(task), w))
    decreases task, 2
  {
    hide Leads, Next, Is, TaskMeans;
    s' := DispatchEnters(s0, s, f, below, w, Plain(task));
    if !w.closing {
      var g := Frame(Job(w.issued, Plain(task)), FromDispatch, Check);
      var s2 := TaskRuns(s0, s', g, Frames(f, below), Issue(w));
      LeadsOn(s, s', s2);
      s' := s2;
    }
  }

  lemma {:induction false} UnknownIsUnset(promises: Log<Settled>, id: nat)
    requires forall i | 0 <= i < |Reports(promises)| :: Reports(promises)[i].id < id
    ensures Lookup(promises, id).Unset?
  {
    if promises.Add? {
      var earlier := Reports(promises.earlier);
      assert Reports(promises)[|earlier|].id == promises.latest.id;
      assert forall i | 0 <= i < |earlier| :: earlier[i] == Reports(promises)[i];
      UnknownIsUnset(promises.earlier, id);
    }
  }

  lemma SynchronousRuns(s0: State, s: State, f: Frame, below: Stack, w: World, task: Task) returns (s': State)
    requires f.phase.In? && f.phase.rest.Do? && f.phase.rest.api == PostSynchronously(task)
    requires Is(s0, s, Frames(f, below), DispatchCheck(Job(w.issued, Sync(task))), Issue(w))
    requires Known(w)
    ensures Leads(s, s') && CameBack(s0, s', f, below, CallMeans(PostSynchronously(task), w))
    decreases task, 3
  {
    hide Leads, Next, WrapperMeans;
    s' := DispatchEnters(s0, s, f, below, w, Sync(task));
    if w.closing {
      UnknownIsUnset(s'.promises, w.issued);
    } else {
      var g := Frame(Job(w.issued, Sync(task)), FromDispatch, Check);
      var s2 := WrapperRuns(s0, s', g, Frames(f, below), Issue(w));
      LeadsOn(s, s', s2);
      s' := s2;
      var r := WrapperMeans(Sync(task), w.issued, Issue(w));
      if !r.outcome.Hanging? {
        var s3 := AwaitMove(s0, s2, f, below, w.issued, r.world);
        LeadsOn(s, s2, s3);
        s' := s3;
      }
    }
  }

  lemma AwaitMove(s0: State, s: State, f: Frame, below: Stack, id: nat, w: World) returns (s': State)
    requires f.phase.In? && f.phase.rest.Do? && Is(s0, s, Frames(f, below), Await(id), w)
    requires !Lookup(s.promises, id).Unset?
    ensures Leads(s, s') && Is(s0, s', Frames(GoesOn(f, Lookup(s.promises, id).Value?), below), Idle, w)
  {
    hide Leads, Next, Ticked, Known, Lookup;
    TickIs(w.count);
    s' := CallMove(s0, s, Frames(f, below), Await(id), w);
  }

  /** The wrapper's own call of ExecTask_, up to its test of closing_. */
  lemma CountsIn(s0: State, s: State, f: Frame, below: Stack, w: World) returns (s': State)
    requires (f.phase.Count? || f.phase.Check?) && Is(s0, s, Frames(f, below), Idle, w)
    ensures Leads(s, s')
    ensures Is(s0, s', Frames(f.(phase := Check), below), Idle,
               w.(count := if f.phase.Count? then Decrement(w.count) else w.count))
  {
    hide Leads, Next, Ticked, Decrement, Known;
    TickIs(w.count);
    if f.phase.Count? {
      s' := StayMove(s0, s, f, below, w);
      assert w.told + [] == w.told;
    } else {
      s' := s;
      NoMove(s);
    }
  }

  /** A wrapper that knows how the task inside ended reports it and returns. */
  lemma Reporting(s0: State, s: State, f: Frame, below: Stack, w: World, inner: nat, ok: bool) returns (s': State)
    requires !f.job.work.Plain? && f.job.id < w.issued
    requires Is(s0, s, Frames(f.(phase := Settle(inner, ok)), below), Idle, w)
    ensures Leads(s, s')
    ensures var work := f.job.work;
      var told := if work.Sync? || (work.Promised? && !ok) then w.told + [Report(f.job.id, ok)] else w.told;
      var waits := work.Sync? && below.Frames? && !below.top.phase.Wrapped?;
      && Is(s0, s', Unwind(Frames(f, below), false), if waits then Await(f.job.id) else Idle,
            w.(tasksRun := w.tasksRun + 1, told := told))
      && (work.Sync? ==> Lookup(s'.promises, f.job.id) == if ok then Value else Exception)
  {
    hide Leads, Next, Ticked, Known, Unwind;
    TickIs(w.count);
    var f1, f2 := f.(phase := Settle(inner, ok)), f.(phase := In(Return));
    assert w.told + [] == w.told;
    var s1 := StayMove(s0, s, f1, below, w);
    var w1 := w.(told := if f.job.work.Sync? || (f.job.work.Promised? && !ok)
                         then w.told + [Report(f.job.id, ok)] else w.told);
    assert Is(s0, s1, Frames(f2, below), Idle, w1);
    s' := OverMove(s0, s1, f2, below, w1);
    UnwindIgnoresPhase(f, f2, below, false);
    LeadsOn(s, s1, s');
  }

  lemma UnwindWrapped(work: Work, id: nat, f: Frame, below: Stack)
    ensures forall threw ::
      Unwind(Frames(Inner(work, id).(phase := Check), Frames(f.(phase := Wrapped), below)), threw)
      == Frames(f.(phase := Settle(id, !threw)), below)
  {
  }

  lemma WrapperRuns(s0: State, s: State, f: Frame, below: Stack, w: World) returns (s': State)
    requires f.phase.Check? && !f.job.work.Plain? && !w.closing && Is(s0, s, Frames(f, below), Idle, w)
    requires f.job.id < w.issued
    ensures Leads(s, s')
    ensures var r := WrapperMeans(f.job.work, f.job.id, w);
      var waits := f.job.work.Sync? && below.Frames? && !below.top.phase.Wrapped?;
      && GotOver(s0, s', f, below, false, if waits then Await(f.job.id) else Idle, r)
      && (f.job.work.Sync? && !r.outcome.Hanging? ==>
            Lookup(s'.promises, f.job.id) == if r.outcome.Returned? then Value else Exception)
    decreases f.job.work.task, 2
  {
    var work := f.job.work;
    var caller := Frames(f.(phase := Wrapped), below);
    UnwindWrapped(work, w.issued, f, below);
    hide Leads, Next, TaskMeans, Known, Ticked, Unwind;
    var s1 := Starts(s0, s, f, below, w);
    var w1 := if work.Resuming? then Issue(w).(count := Decrement(w.count)) else Issue(w);
    var g := Inner(work, w.issued).(phase := Check);
    var s2 := CountsIn(s0, s1, Inner(work, w.issued), caller, Issue(w));
    LeadsOn(s, s1, s2);
    var s3 := TaskRuns(s0, s2, g, caller, w1);
    LeadsOn(s, s2, s3);
    var r := TaskMeans(work.task, w1);
    if r.outcome.Hanging? {
      s' := s3;
    } else {
      s' := Reporting(s0, s3, f, below, r.world, w.issued, r.outcome.Returned? || work.Resuming?);
      LeadsOn(s, s3, s');
    }
  }

  // ----- handlers -----

  lemma {:induction false} PromisesKnown(promises: Log<Settled>, book: Book)
    requires AllOwned(promises, book)
    ensures forall i | 0 <= i < |Reports(promises)| :: Reports(promises)[i].id < |book.jobs|
  {
    if promises.Add? {
      PromisesKnown(promises.earlier, book);
    }
  }

  /** Between handlers, with a task at the head of the queue. */
  predicate TakesTask(s: State) {
    && s.calls != [] && s.calls[0].Idle? && s.worker.Loop? && !s.stopped && s.stack.Empty?
    && s.queue != [] && s.queue[0].Run? && s.queue[0].job.id < |s.book.jobs| && Known(View(s))
  }

  lemma ReachableTakesTask(s: State)
    requires Reachable(s) && s.calls != [] && s.worker.Loop? && !s.stopped && s.stack.Empty?
    requires s.queue != [] && s.queue[0].Run?
    ensures TakesTask(s)
  {
    ReachableInv(s);
    PromisesKnown(s.promises, s.book);
    hide Ledger, Accounts, Order, Closing, Nesting, Waits, Owns;
  }

  lemma TaskTaken(s: State) returns (s1: State)
    requires TakesTask(s)
    ensures s1 == Next(s, Step(0))
    ensures var h := s.queue[0];
      Is(s, s1, Frames(Frame(h.job, FromQueue(h.origin), if h.origin.Timer? then Check else Count), Empty),
         Idle, View(s).(queue := s.queue[1..]))
  {
    ThreadNext(s, 0);
    hide Next, Reports;
    s1 := DequeuesJob(s);
    assert s.calls[0 := Idle] == s.calls;
  }

  /** The state to which the worker alone brings a handler that it has taken. */
  lemma HandlerRuns(s: State) returns (s': State)
    requires TakesTask(s)
    ensures Leads(Next(s, Step(0)), s')
    ensures var r := HandlerMeans(s.queue[0], View(s).(queue := s.queue[1..]));
      if r.outcome.Hanging? then Halted(s', r.world) else Is(s, s', Empty, Idle, r.world)
  {
    var h, w := s.queue[0], View(s).(queue := s.queue[1..]);
    assert h.Run? && h.job.id < w.issued && w.closing == s.closing;
    hide Leads, Next, TakesTask, Known, TaskMeans, WrapperMeans, Decrement, View;
    var f := Frame(h.job, FromQueue(h.origin), if h.origin.Timer? then Check else Count);
    var s1 := TaskTaken(s);
    var s2 := CountsIn(s, s1, f, Empty, w);
    var w2 := w.(count := if h.origin.Timer? then w.count else Decrement(w.count));
    var g := f.(phase := Check);
    if w.closing {
      s' := OverMove(s, s2, g, Empty, w2);
    } else if h.job.work.Plain? {
      s' := TaskRuns(s, s2, g, Empty, w2);
    } else {
      s' := WrapperRuns(s, s2, g, Empty, w2);
    }
    LeadsOn(s1, s2, s');
  }

  /** The same as a list of labels. */
  lemma {:induction false} LeadsByTurns(s: State, before: seq<Label>, a: State, b: State, n: nat)
    returns (turns: seq<Label>)
    requires a == Exec(s, before) && LeadsIn(a, b, n)
    requires forall i | 0 <= i < |before| :: before[i] == Step(0)
    ensures b == Exec(s, turns) && forall i | 0 <= i < |turns| :: turns[i] == Step(0)
    decreases n
  {
    hide Next, Exec;
    turns := before;
    if n > 0 {
      Then(s, before, Step(0));
      turns := LeadsByTurns(s, before + [Step(0)], Next(a, Step(0)), b, n - 1);
    }
  }

  /** The first handler of the queue, in any state that a pipeline can be in between handlers:
      when nobody but the worker acts, it ends with exactly the queue, the timers, the counter,
      the number of tasks run and the promises that the interpreter computes, between handlers
      again with nothing else changed; or it hangs as the interpreter says. */
  lemma HandlerIsMeant(s: State) returns (turns: seq<Label>)
    requires Reachable(s) && s.calls != [] && s.worker.Loop? && !s.stopped && s.stack.Empty?
    requires s.queue != [] && s.queue[0].Run?
    ensures forall i | 0 <= i < |turns| :: turns[i] == Step(0)
    ensures var r, s' := HandlerMeans(s.queue[0], View(s).(queue := s.queue[1..])), Exec(s, turns);
      && View(s') == r.world
      && (r.outcome.Hanging? <==> Stuck(s'))
      && (!r.outcome.Hanging? ==> s'.stack.Empty? && s'.calls == s.calls && s'.worker.Loop? && !s'.stopped)
  {
    ReachableTakesTask(s);
    assert s.calls[0].Idle? && s.calls[0 := Idle] == s.calls && Exec(s, []) == s;
    hide Next, Exec, HandlerMeans, TakesTask, View, Known, Reachable;
    var s' := HandlerRuns(s);
    Then(s, [], Step(0));
    assert [] + [Step(0)] == [Step(0)];
    var n: nat :| LeadsIn(Next(s, Step(0)), s', n);
    turns := LeadsByTurns(s, [Step(0)], Next(s, Step(0)), s', n);
  }

  // ----- stopping where the interpreter ends -----

  /** Where the first handler of the queue ends, and how many operations after the first. */
  lemma HandlerEnds(s: State) returns (end: State, k: nat)
    requires Reachable(s) && s.calls != [] && s.worker.Loop? && !s.stopped && s.stack.Empty?
    requires s.queue != [] && s.queue[0].Run?
    ensures LeadsIn(Next(s, Step(0)), end, k)
    ensures var r := HandlerMeans(s.queue[0], View(s).(queue := s.queue[1..]));
      && View(end) == r.world && (if r.outcome.Hanging? then Stuck(end) && end.stack.Frames? else end.stack.Empty?)
    ensures !s.closing && s.queue[0].job.work == Plain(Return) ==> end.tasksRun == s.tasksRun + 1
    ensures s.queue[0].job.work == Plain(Raise) ==> end.tasksRun == s.tasksRun
  {
    ReachableTakesTask(s);
    LeavesMean(s.queue[0], View(s).(queue := s.queue[1..]));
    hide Next, HandlerMeans, TakesTask, Known, Reachable;
    end := HandlerRuns(s);
    k :| LeadsIn(Next(s, Step(0)), end, k);
  }

  lemma LeavesMean(h: Handler, w: World)
    requires h.Run?
    ensures var r := HandlerMeans(h, w);
      && (!w.closing && h.job.work == Plain(Return) ==> r.world.tasksRun == w.tasksRun + 1)
      && (h.job.work == Plain(Raise) ==> r.world.tasksRun == w.tasksRun)
  {
  }

  lemma LeadsNext(s: State, end: State, k: nat) returns (k': nat)
    requires LeadsIn(s, end, k) && s.stack.Frames? && !Stuck(s) && (end.stack.Empty? || Stuck(end))
    ensures LeadsIn(Next(s, Step(0)), end, k')
  {
    hide Next;
    k' := k - 1;
  }

  lemma LeadsNowhere(s: State, end: State, k: nat)
    requires LeadsIn(s, end, k) && (s.stack.Empty? || Stuck(s))
    ensures s == end
  {
    if k > 0 {
      ThreadNext(s, 0);
      LeadsNowhere(s, end, k - 1);
    }
    hide Next;
  }
}
