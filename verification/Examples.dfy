/** Runs in which the pipeline does not do what its documentation promises. */
module Examples {
  import opened Tasks
  import opened Machine
  import opened Counting
  import opened Invariant
  import opened Accounting
  import opened Alone
  import opened Service
  import opened Execution
  import opened Progress
  import opened Drain
  import opened Safety

  /** A pipeline with two clients, ready for work. */
  function Ready(capacity: nat): State {
    Init(capacity, 2).(worker := Loop, waiter := true, started := true)
  }

  lemma StartUp(capacity: nat)
    ensures Exec(Init(capacity, 2), [Step(0), Step(0)]) == Ready(capacity)
    ensures Reachable(Ready(capacity))
  {
    Then(Init(capacity, 2), [], Step(0));
    Then(Init(capacity, 2), [Step(0)], Step(0));
    assert [] + [Step(0)] == [Step(0)] && [Step(0)] + [Step(0)] == [Step(0), Step(0)];
  }

  /** The worker is between handlers and nothing else is going on. */
  predicate Quiet(s: State) {
    && |s.calls| == 3 && (forall t | 0 <= t < 3 :: s.calls[t].Idle?)
    && s.worker.Loop? && s.started && !s.closing && !s.stopped && s.promises == Start
  }

  lemma WorkerTurn(s: State)
    requires s.calls != [] && s.calls[0].Idle? && s.worker.Loop?
    ensures Next(s, Step(0)) ==
      if s.stack.Frames? then ExecStep(s)
      else if s.stopped then s.(worker := Leaving)
      else if s.queue == [] then s
      else if s.queue[0].Run? then DequeuesJob(s)
      else DequeuesMarker(s)
  {
    hide ExecStep, DequeuesJob, DequeuesMarker;
  }

  /** The worker dequeues a task and enters its body. */
  lemma WorkerBegins(s: State, job: Job, origin: Origin) returns (s': State)
    requires Reachable(s) && Quiet(s) && s.stack.Empty? && job.work.Plain?
    requires s.queue == [Run(job, origin)] && !origin.Timer?
    ensures Reachable(s') && Quiet(s')
    ensures s'.stack == Frames(Frame(job, FromQueue(origin), In(job.work.task)), Empty)
    ensures s'.queue == [] && s'.book.jobs == s.book.jobs && s'.count == Ticked(s.count, Down)
    ensures s'.book.uncompensated == s.book.uncompensated + (if origin.Posted? then 0 else 1)
  {
    StepReachable(s, Step(0));
    WorkerTurn(s);
    var s1 := DequeuesJob(s);
    StepReachable(s1, Step(0));
    WorkerTurn(s1);
    var s2 := ExecStep(s1);
    StepReachable(s2, Step(0));
    WorkerTurn(s2);
    var s3 := ExecStep(s2);
    StepReachable(s3, Step(0));
    WorkerTurn(s3);
    s' := ExecStep(s3);
    hide Reachable, Next, Ticked;
  }

  /** A body that posts a task synchronously to its own pipeline. */
  const ASKING := Do(PostSynchronously(Return), Return, Return)

  /** A body enters PostSynchronously after another thread has closed the pipeline: the
      wrapper is dismissed and the promise will never be settled. */
  lemma AskingWhileClosing(s: State, job: Job, via: Via) returns (s': State)
    requires Reachable(s) && |s.calls| == 3 && s.calls[0].Idle? && s.worker.Loop? && s.closing
    requires s.stack == Frames(Frame(job, via, In(ASKING)), Empty) && s.promises == Start
    ensures Reachable(s') && Stuck(s') && s'.closing && s'.worker.Loop?
  {
    StepReachable(s, Step(0));
    WorkerTurn(s);
    var s1 := ExecStep(s);
    assert s1 == Enter(s, 0, PostSynchronously(Return));
    StepReachable(s1, Step(0));
    s' := Next(s1, Step(0));
    hide Reachable, Resume, Ticked;
  }

  /** Close followed by WaitUntilClosed need not return, although every body terminates when
      called: a body that calls PostSynchronously while another thread closes the pipeline
      keeps the worker for ever, whatever happens afterwards. */
  lemma CloseThenJoinCanHang() returns (s: State)
    ensures Reachable(s) && s.closing && Stuck(s)
    ensures forall more: seq<Label> :: !Exec(s, more).worker.Exited?
  {
    StartUp(1);
    var s0 := Ready(1);
    PostAloneRuns(s0, 1, ASKING);
    ReachableLater(s0, Call3(1, Post(ASKING)));
    var s1 := PostAlone(s0, ASKING);
    var job := Job(0, Plain(ASKING));
    assert s1.queue == [Run(job, Posted)];
    var s2 := WorkerBegins(s1, job, Posted);
    CloseAloneRuns(s2, 2);
    ReachableLater(s2, Call3(2, Close));
    s := AskingWhileClosing(CloseAlone(s2), job, FromQueue(Posted));
    forall more: seq<Label>
      ensures !Exec(s, more).worker.Exited?
    {
      StuckForever(s, more);
      ReachableLater(s, more);
      ReachableInv(Exec(s, more));
      RankZero(Exec(s, more));
      hide Inv, Exec, Reachable;
    }
    hide Reachable, Exec, Inv, Stuck;
  }

  lemma TokenPosted() returns (s: State, job: Job)
    ensures Reachable(s) && Quiet(s) && s.stack.Empty? && s.count == 0 && s.book.uncompensated == 0
    ensures job.work == Plain(Return) && s.queue == [Run(job, Token)]
  {
    StartUp(1);
    var s0 := Ready(1);
    job := Job(0, Plain(Return));
    TokenAloneRuns(s0, 1, Return);
    hide Reachable, Next, Exec;
    StepReachable(s0, Begin(1, PostToken(Return)));
    StepReachable(Next(s0, Begin(1, PostToken(Return))), Step(1));
    s := TokenAlone(s0, Return);
  }

  /** The token overload of Post never reserves, but its handler executes `--count_`: after
      a single such task on an empty pipeline GetCount is 2^64 - 1. */
  lemma TokenPostUndercounts() returns (s: State)
    ensures Reachable(s) && s.queue == [] && Queued(s) == 0
    ensures s.book.uncompensated == 1 && s.count == SIZE_T - 1
  {
    var s1, job := TokenPosted();
    s := WorkerBegins(s1, job, Token);
    hide Reachable;
  }

  // ----- a refusal while nothing is queued -----

  /** Client t has entered Post and passed both tests but for the comparison of the counter. */
  lemma PostsUpToReserve(s: State, t: nat, task: Task) returns (s': State, job: Job)
    requires Reachable(s) && Free(s, t) && !s.closing
    ensures Reachable(s') && job.work == Plain(task)
    ensures s' == Submit(s, task).(calls := s.calls[t := PostReserve(job)])
  {
    hide Reachable, Next;
    job := Job(|s.book.jobs|, Plain(task));
    PostBegins(s, t, task);
    StepReachable(s, Begin(t, Post(task)));
    var s1 := Submit(s, task).(calls := s.calls[t := PostCheck(job)]);
    Checks(s1, t, job);
    StepReachable(s1, Step(t));
    s' := Submit(s, task).(calls := s.calls[t := PostReserve(job)]);
    assert s1.calls[t := PostReserve(job)] == s'.calls;
  }

  /** One task is queued, and client 2 is about to take its refused increment back. */
  lemma OneQueuedOneRolling() returns (s: State, job: Job)
    ensures Reachable(s) && s.capacity == 1 && s.count == 2 && s.calls == [Idle, Idle, PostRollback(job)]
    ensures s.worker.Loop? && s.started && !s.closing && !s.stopped && s.stack.Empty? && s.armed == []
    ensures |s.queue| == 1 && s.queue[0].Run? && s.queue[0].origin.Posted?
    ensures s.book.uncompensated == 0
  {
    StartUp(1);
    var s0 := Ready(1);
    PostAloneRuns(s0, 1, Return);
    ReachableLater(s0, Call3(1, Post(Return)));
    var s1 := PostAlone(s0, Return);
    assert s1.count == 1 && s1.calls == [Idle, Idle, Idle];
    hide Reachable, Exec, Next, PostAlone;
    var s2;
    s2, job := PostsUpToReserve(s1, 2, Return);
    Reserves(s2, 2, job);
    StepReachable(s2, Step(2));
    s := Next(s2, Step(2));
  }

  /** A post can be refused while no task is queued and nothing else is admitted: the counter
      still holds the increment of another producer that is being refused. */
  lemma RefusedWhileEmpty() returns (s: State, job1: Job, job2: Job)
    ensures Reachable(s) && s.capacity == 1 && s.book.uncompensated == 0
    ensures s.calls == [Idle, PostReserve(job1), PostRollback(job2)]
    ensures s.queue == [] && Held(s) == 0 && Rolling(s) == 1
    ensures Next(s, Step(1)).calls == [Idle, PostRollback(job1), PostRollback(job2)]
  {
    var s1;
    s1, job2 := OneQueuedOneRolling();
    hide Reachable, Next, Held, Rolling;
    WorkerTakes(s1) by { ReachableInv(s1); }
    StepReachable(s1, Step(0));
    var s2 := DequeuesJob(s1);
    CountsDown(s2);
    StepReachable(s2, Step(0));
    var s3 := Next(s2, Step(0));
    assert s3.count == 1;
    s, job1 := PostsUpToReserve(s3, 1, Return);
    assert s.calls == [Idle, PostReserve(job1), PostRollback(job2)];
    Reserves(s, 1, job1);
    NothingHeld(s, job1, job2);
  }

  lemma NothingHeld(s: State, job1: Job, job2: Job)
    requires s.calls == [Idle, PostReserve(job1), PostRollback(job2)]
    requires s.queue == [] && s.armed == [] && s.stack.Frames? && s.stack.below.Empty?
    requires s.stack.top.phase.Check?
    ensures Held(s) == 0 && Rolling(s) == 1
  {
    TotalZero(s.calls, HeldCall);
    TotalSplit(s.calls, 2, RollingCall);
    assert s.calls[..2] == [Idle, PostReserve(job1)] && s.calls[3..] == [];
    TotalZero(s.calls[..2], RollingCall);
    assert TotalStack(s.stack, HeldFrame) == 0;
  }
}
