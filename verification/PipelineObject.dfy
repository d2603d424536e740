/** `war::Pipeline` as an object: the fields of the class, the queue and the stop flag of
    its io_context, and the worker's stack. Each method is tied to the operations of
    `Machine`, so that what is proved about the machine's runs holds of the object. */
module PipelineObject {
  import opened Tasks
  import opened Machine
  import opened Invariant
  import opened AccountSteps
  import opened Accounting
  import opened Alone
  import opened Shutdown
  import opened Progress
  import opened Drain
  import opened Doom
  import opened Service
  import opened Execution
  import opened Meaning
  import opened Interpretation
  import opened Growth
  import opened Safety

  datatype Answer = Accepted | DismissedClosing | CapacityExceeded

  class Pipeline {
    const capacity: nat
    var count: nat
    var closing: bool
    var closed: bool
    var stopped: bool
    var started: bool
    var waiter: bool
    var tasksRun: nat
    var worker: Worker
    var queue: seq<Handler>
    var armed: seq<Job>
    var calls: seq<Call>
    var stack: Stack
    var promises: Log<Settled>
    var book: Book

    /** The object as a state of the machine. */
    function Now(): State
      reads this
    {
      State(capacity, count, closing, closed, stopped, started, waiter, tasksRun, worker, queue,
            armed, calls, stack, promises, book)
    }

    ghost predicate Valid()
      reads this
    {
      Reachable(Now()) && calls != []
    }

    /** Client t is in none of the methods. */
    predicate Idles(t: nat)
      reads this
      ensures Idles(t) == Free(Now(), t)
    {
      started && 0 < t < |calls| && calls[t].Idle?
    }

    /** The constructor returns once the worker has locked waiter_ and released it. */
    constructor (capacity: nat, clients: nat)
      ensures Valid() && this.capacity == capacity && |calls| == clients + 1
      ensures count == 0 && queue == [] && !closing && started && waiter && worker.Loop?
      ensures book.uncompensated == 0
      ensures forall t | 0 <= t < |calls| :: calls[t].Idle?
    {
      this.capacity := capacity;
      count, tasksRun, closing, closed, stopped := 0, 0, false, false, false;
      queue, armed, stack, promises := [], [], Empty, Start;
      calls := seq(clients + 1, _ => Idle);
      book := Init(capacity, clients).book;
      // Run: lock waiter_, then release the constructor
      waiter, started, worker := true, true, Loop;
      new;
      var s := Init(capacity, clients);
      Then(s, [], Step(0));
      Then(s, [Step(0)], Step(0));
      assert [] + [Step(0)] == [Step(0)];
      assert Now() == Exec(s, [Step(0)] + [Step(0)]);
    }

    /** `++count_ > capacity_`, undone when it holds. */
    method AddingTask() returns (admitted: bool)
      requires count < SIZE_T
      modifies this`count
      ensures old(count) + 1 < SIZE_T ==> (admitted <==> old(count) + 1 <= capacity)
      ensures old(count) + 1 == SIZE_T ==> admitted
      ensures admitted ==> count <= capacity && count == Ticked(old(count), Up)
      ensures !admitted ==> count == old(count)
    {
      count := (count + 1) % SIZE_T;
      if count > capacity {
        count := (count + SIZE_T - 1) % SIZE_T;
        return false;
      }
      return true;
    }

    /** Post by an idle client that is not interrupted. The task is dismissed if and only if
        the pipeline is closing, refused if and only if the incremented counter exceeds the
        capacity, and otherwise counted and queued last. */
    method Post(t: nat, task: Task) returns (answer: Answer)
      requires Valid() && Idles(t)
      modifies this
      ensures Valid() && Now() == Exec(old(Now()), Call3(t, Tasks.Post(task)))
      ensures Now() == PostAlone(old(Now()), task)
      ensures answer.DismissedClosing? <==> old(closing)
      ensures answer.CapacityExceeded? <==> !old(closing) && Ticked(old(count), Up) > capacity
      ensures answer.Accepted? ==>
        && queue == old(queue) + [Run(Job(|old(book.jobs)|, Plain(task)), Posted)]
        && count == Ticked(old(count), Up)
      ensures !answer.Accepted? ==> queue == old(queue) && count == old(count)
      ensures calls == old(calls) && stack == old(stack) && worker == old(worker)
      ensures closing == old(closing) && started == old(started)
      ensures book.uncompensated == old(book.uncompensated)
    {
      hide Exec, Reachable, Ticked;
      ghost var s := Now();
      PostAloneRuns(s, t, task);
      ReachableLater(s, Call3(t, Tasks.Post(task)));
      CounterEquation(s);
      TickedIs(s.count);
      var id := |book.jobs|;
      book := book.(jobs := book.jobs + [Plain(task)]);
      if closing {
        book := book.(ends := Add(book.ends, Ending(id, RefusedClosing)));
        answer := DismissedClosing;
      } else {
        var admitted := AddingTask();
        if !admitted {
          book := book.(ends := Add(book.ends, Ending(id, RefusedCapacity)));
          answer := CapacityExceeded;
        } else {
          var h := Run(Job(id, Plain(task)), Posted);
          queue := queue + [h];
          book := book.(hist := book.hist + [h]);
          answer := Accepted;
        }
      }
      assert Now() == PostAlone(s, task);
    }

    /** Close by an idle client that is not interrupted: the first call posts the marker and
        sets the flag, later calls do nothing. */
    method Close(t: nat)
      requires Valid() && Idles(t)
      modifies this
      ensures Valid() && Now() == Exec(old(Now()), Call3(t, Tasks.Close))
      ensures Now() == CloseAlone(old(Now()))
      ensures closing && calls == old(calls) && worker == old(worker) && started == old(started)
      ensures queue == if old(closing) then old(queue) else old(queue) + [Marker]
    {
      ghost var s := Now();
      CloseAloneRuns(s, t);
      ReachableLater(s, Call3(t, Tasks.Close));
      if closing {
        return;
      }
      queue := queue + [Marker];
      book := book.(hist := book.hist + [Marker]);
      closing := true;
      assert Now() == CloseAlone(s);
      hide Exec, Reachable;
    }

    /** Dispatch by a client that is not interrupted is Post. */
    method Dispatch(t: nat, task: Task) returns (answer: Answer)
      requires Valid() && Idles(t)
      modifies this
      ensures Valid()
      ensures Now() == Exec(old(Now()), [Begin(t, Tasks.Dispatch(task)), Step(t)] + [Step(t), Step(t), Step(t)])
      ensures answer.Accepted? <==> !old(closing) && Ticked(old(count), Up) <= capacity
      ensures answer.Accepted? ==>
        queue == old(queue) + [Run(Job(|old(book.jobs)|, Plain(task)), Posted)]
      ensures !answer.Accepted? ==> queue == old(queue) && count == old(count)
    {
      DispatchFromClient(Now(), t, task);
      PostAloneRuns(Now(), t, task);
      if closing {
        answer := Post(t, task);
        return;
      }
      answer := Post(t, task);
      hide Exec, Reachable, Ticked;
    }

    /** PostWithTimer by an idle client that is not interrupted: a timer is armed with the task,
        and nothing is queued or counted; on a closing pipeline the task is dismissed. */
    method PostWithTimer(t: nat, task: Task) returns (answer: Answer)
      requires Valid() && Idles(t)
      modifies this
      ensures Valid() && Now() == TimerCalled(old(Now()), t, Tasks.PostWithTimer(task))
      ensures answer == if old(closing) then DismissedClosing else Accepted
      ensures armed == if old(closing) then old(armed) else old(armed) + [Job(|old(book.jobs)|, Plain(task))]
      ensures queue == old(queue) && count == old(count) && calls == old(calls) && closing == old(closing)
      ensures worker == old(worker) && started == old(started)
    {
      ghost var s := Now();
      hide Reachable, Next, TimerCalled;
      TimerAloneRuns(s, t, Tasks.PostWithTimer(task));
      TimerReachable(s, t, Tasks.PostWithTimer(task));
      var job := Job(|book.jobs|, Plain(task));
      book := book.(jobs := book.jobs + [job.work]);
      if closing {
        book := book.(ends := Add(book.ends, Ending(job.id, RefusedClosing)));
        return DismissedClosing;
      }
      armed := armed + [job];
      return Accepted;
    }

    /** The i-th armed timer expires while the worker runs: its task is queued, uncounted. */
    method Expire(i: nat)
      requires Valid() && i < |armed| && worker.Loop?
      modifies this
      ensures Valid() && Now() == Next(old(Now()), Label.Expire(i))
      ensures queue == old(queue) + [Run(old(armed)[i], Timer)] && count == old(count)
    {
      ghost var s := Now();
      StepReachable(s, Label.Expire(i));
      StepGrows(s, Label.Expire(i));
      var h := Run(armed[i], Timer);
      armed := armed[..i] + armed[i + 1..];
      queue := queue + [h];
      book := book.(hist := book.hist + [h]);
      assert Now() == Fires(s, i);
      hide Reachable;
    }

    // ----- ExecTask_ -----

    /** The book-keeping at the end of an activation; `++tasks_run_` after a normal body. */
    method RecordEnd(f: Frame, fate: Fate)
      modifies this`book, this`tasksRun
      ensures tasksRun == old(tasksRun) + (if fate.Finished? then 1 else 0)
      ensures book == old(book).(
        ends := Add(old(book).ends, Ending(f.job.id, fate)),
        trace := if fate.Dismissed? then old(book).trace
                 else Add(old(book).trace, Ended(f.job.id, fate.Finished?)),
        dropped := if fate.Dismissed? then old(book).dropped + Served(f) else old(book).dropped)
    {
      book := book.(ends := Add(book.ends, Ending(f.job.id, fate)));
      if fate.Dismissed? {
        book := book.(dropped := book.dropped + Served(f));
      } else {
        book := book.(trace := Add(book.trace, Ended(f.job.id, fate.Finished?)));
        if fate.Finished? {
          tasksRun := tasksRun + 1;
        }
      }
    }

    /** The caller of the innermost activation goes on; without a caller an exception leaves
        io_context::run. */
    method ReturnTo(caller: Stack, f: Frame, threw: bool)
      requires stack == Frames(f, caller) && calls != []
      modifies this`stack, this`calls, this`worker, this`waiter
      ensures stack == Unwind(old(stack), threw)
      ensures calls == old(calls)[0 :=
        if f.job.work.Sync? && !threw && caller.Frames? && !caller.top.phase.Wrapped?
        then Await(f.job.id) else Idle]
      ensures worker == if threw && caller.Empty? then Escaped else old(worker)
      ensures waiter <==> old(waiter) && !(threw && caller.Empty?)
    {
      calls := calls[0 := Idle];
      if caller.Empty? {
        stack := Empty;
        if threw {
          worker, waiter := Escaped, false;
        }
      } else if caller.top.phase.Wrapped? {
        stack := SetPhase(caller, Settle(f.job.id, !threw));
      } else if f.job.work.Sync? && !threw {
        stack := caller;
        calls := calls[0 := Await(f.job.id)];
      } else {
        stack := Resume(caller, !threw);
      }
    }

    /** The innermost activation returns to its caller, or an exception leaves it. */
    method Leave(fate: Fate, threw: bool)
      requires stack.Frames? && calls != []
      modifies this
      ensures Now() == IsOver(old(Now()), fate, threw)
    {
      var f := stack.top;
      RecordEnd(f, fate);
      ReturnTo(stack.below, f, threw);
      hide Unwind, Served;
    }

    /** The body begins; a wrapper's body calls ExecTask_ for the task inside. */
    method BeginBody()
      requires stack.Frames? && stack.top.phase.Passed?
      modifies this
      ensures Now() == Stays(old(Now()), ExecEffect(old(stack).top, old(closing), |old(book).jobs|))
    {
      var f := stack.top;
      book := book.(ran := book.ran + Served(f), trace := Add(book.trace, Began(f.job.id)));
      if f.job.work.Plain? {
        stack := SetPhase(stack, In(f.job.work.task));
      } else {
        var inner := Inner(f.job.work, |book.jobs|);
        stack := Frames(inner, SetPhase(stack, Wrapped));
        book := book.(jobs := book.jobs + [inner.job.work],
                      inside := Add(book.inside, Inside(inner.job.id, f.job.id)));
      }
    }

    /** `--count_` */
    method CountDown()
      requires stack.Frames? && stack.top.phase.Count?
      modifies this
      ensures Now() == Stays(old(Now()), ExecEffect(old(stack).top, old(closing), |old(book).jobs|))
    {
      if stack.top.via != FromQueue(Posted) {
        book := book.(uncompensated := book.uncompensated + 1);
      }
      count := (count + SIZE_T - 1) % SIZE_T;
      stack := SetPhase(stack, Check);
    }

    /** A wrapper reports the outcome of the task inside. */
    method Report()
      requires stack.Frames? && stack.top.phase.Settle?
      modifies this
      ensures Now() == Stays(old(Now()), ExecEffect(old(stack).top, old(closing), |old(book).jobs|))
    {
      var f := stack.top;
      if f.job.work.Sync? || (f.job.work.Promised? && !f.phase.ok) {
        promises := Add(promises, Settled(f.job.id, f.phase.ok, f.phase.inner));
      }
      stack := SetPhase(stack, In(Return));
    }

    /** One operation of the innermost activation. */
    method ExecTask()
      requires stack.Frames? && calls != []
      modifies this
      ensures Now() == ExecStep(old(Now()))
    {
      ghost var s := Now();
      hide Stays, IsOver, Enter;
      match stack.top.phase {
        case Count => CountDown();
        case Check =>
          if closing {
            Leave(Dismissed, false);
          } else {
            stack := SetPhase(stack, Passed);
            assert Now() == Stays(s, Stay(Passed)) by { Passes(s); }
          }
        case Passed => BeginBody();
        case In(Return) => Leave(Finished, false);
        case In(Raise) => Leave(Threw, !stack.top.AutoCatch());
        case In(Do(api, _, _)) => EnterMethod(0, api);
        case Wrapped =>
        case Settle(_, _) => Report();
      }
    }

    /** Thread t calls a method of the pipeline: a client, or the worker's innermost body. */
    method EnterMethod(t: nat, api: Api)
      requires t < |calls|
      modifies this
      ensures Now() == Enter(old(Now()), t, api)
    {
      var c := Entry(api, |book.jobs|);
      calls := calls[t := c];
      if !api.Close? {
        book := book.(jobs := book.jobs + [c.job.work]);
      }
    }

    /** Where thread t goes when it has performed `e`. */
    method GoOn(t: nat, e: Effect)
      requires t < |calls|
      modifies this`calls, this`stack
      ensures calls == old(calls)[t := e.next]
      ensures stack == if e.nest.Just? then Frames(e.nest.value, old(stack))
                       else if t == 0 && e.next.Idle? then Resume(old(stack), e.normal)
                       else old(stack)
    {
      calls := calls[t := e.next];
      if e.nest.Just? {
        stack := Frames(e.nest.value, stack);
      } else if t == 0 && e.next.Idle? {
        stack := Resume(stack, e.normal);
      }
    }

    /** What `e` does to the shared fields. */
    method Publish(e: Effect)
      modifies this`count, this`closing, this`queue, this`armed, this`book
      ensures count == Ticked(old(count), e.count) && closing == (old(closing) || e.close)
      ensures queue == Appended(old(queue), e.enqueue) && armed == Appended(old(armed), e.arm)
      ensures book == old(book).(hist := Appended(old(book).hist, e.enqueue),
                                 ends := Recorded(old(book).ends, e.over))
    {
      count, closing := Ticked(count, e.count), closing || e.close;
      queue, armed := Appended(queue, e.enqueue), Appended(armed, e.arm);
      book := book.(hist := Appended(book.hist, e.enqueue), ends := Recorded(book.ends, e.over));
    }

    method Perform(t: nat, e: Effect)
      requires t < |calls|
      modifies this
      ensures Now() == Machine.Perform(old(Now()), t, e)
    {
      GoOn(t, e);
      Publish(e);
      hide Resume, Ticked, Appended, Recorded;
    }

    /** Thread t goes on inside the method that it is in. */
    method CallTurn(t: nat)
      requires t < |calls|
      modifies this
      ensures Now() == CallStep(old(Now()), t)
    {
      hide CallEffect, Machine.Perform, Lookup;
      if calls[t].Idle? || (calls[t].Await? && Lookup(promises, calls[t].id).Unset?)
         || (calls[t].Join? && waiter) {
        return;
      }
      var e := CallEffect(Now(), t);
      Perform(t, e);
    }

    /** `Run`: start-up, the loop of io_context::run, the marker, and the end. */
    method LoopTurn()
      requires calls != []
      modifies this
      ensures Now() == WorkerStep(old(Now()))
    {
      hide ExecStep;
      match worker {
        case Spawned => worker, waiter := Locked, true;
        case Locked => worker, started := Loop, true;
        case Loop =>
          if stack.Frames? {
            ExecTask();
          } else if stopped {
            worker := Leaving;
          } else if queue != [] {
            Dequeue();
          }
        case Shut =>
          worker := if closed then Loop else Stopping;
          closed := true;
        case Stopping =>
          worker, stopped := Loop, true;
          book := book.(stops := book.stops + 1);
        case Leaving => worker, waiter := Exited, false;
        case Exited =>
        case Failed =>
        case Escaped =>
      }
    }

    /** The io_context hands its oldest handler to the worker. */
    method Dequeue()
      requires queue != []
      modifies this
      ensures old(queue)[0].Run? ==> Now() == DequeuesJob(old(Now()))
      ensures old(queue)[0].Marker? ==> Now() == DequeuesMarker(old(Now()))
    {
      var h := queue[0];
      queue := queue[1..];
      match h {
        case Run(job, origin) =>
          stack := Frames(Frame(job, FromQueue(origin), if origin.Timer? then Check else Count), stack);
        case Marker =>
          worker := Shut;
          book := book.(shut := book.shut + 1);
      }
    }

    /** One atomic operation of the worker. */
    method WorkerTurn()
      requires Valid()
      modifies this
      ensures Valid() && Now() == Next(old(Now()), Step(0))
    {
      Turn(0);
    }

    /** One atomic operation of thread t. */
    method Turn(t: nat)
      requires Valid()
      modifies this
      ensures Valid() && Now() == Next(old(Now()), Step(t))
    {
      ghost var s := Now();
      StepReachable(s, Step(t));
      StepGrows(s, Step(t));
      ThreadNext(s, t);
      hide Reachable, Next, WorkerStep, CallStep;
      if t == 0 && calls[0].Idle? {
        LoopTurn();
      } else if t < |calls| {
        CallTurn(t);
      }
    }

    /** Whatever may happen to a pipeline next. */
    method Take(l: Label)
      requires Valid()
      modifies this
      ensures Valid() && Now() == Next(old(Now()), l)
    {
      ghost var s := Now();
      StepReachable(s, l);
      StepGrows(s, l);
      hide Reachable, WorkerStep, CallStep, Enter, Fires;
      match l {
        case Begin(t, api) =>
          if Idles(t) {
            EnterMethod(t, api);
          }
        case BeginJoin(t) =>
          if Idles(t) {
            calls := calls[t := Join];
          }
        case Step(t) => Turn(t);
        case Expire(i) =>
          if i < |armed| && worker.Loop? {
            Expire(i);
          }
        case StartFails =>
          if worker.Locked? {
            worker, waiter := Failed, false;
          }
      }
    }

    /** The object goes through every run of the machine. */
    method Live(ls: seq<Label>)
      requires Valid()
      modifies this
      ensures Valid() && Now() == Exec(old(Now()), ls)
    {
      hide Reachable, Next;
      for i := 0 to |ls|
        invariant Valid() && Now() == Exec(old(Now()), ls[..i])
      {
        Take(ls[i]);
        Then(old(Now()), ls[..i], ls[i]);
        assert ls[..i + 1] == ls[..i] + [ls[i]];
      }
      assert ls[..|ls|] == ls;
    }

    /** One turn of a worker that runs alone. */
    method NextTurn(ghost s: State, ghost turns: seq<Label>) returns (ghost more: seq<Label>)
      requires Valid() && Now() == Exec(s, turns) && forall i | 0 <= i < |turns| :: turns[i] == Step(0)
      modifies this
      ensures Valid() && Now() == Next(old(Now()), Step(0)) && Now() == Exec(s, more)
      ensures forall i | 0 <= i < |more| :: more[i] == Step(0)
    {
      hide Reachable, Next, Exec;
      WorkerTurn();
      Then(s, turns, Step(0));
      more := turns + [Step(0)];
    }

    /** ExecTask_ for the first handler of the queue, the worker running alone: the handler is
        dismissed without a body if the pipeline is closing, and otherwise its body runs to
        its end, with everything that it dispatches and whatever it throws, before any other
        handler is taken; the one way not to end is a PostSynchronously while closing. What it
        leaves behind is what the interpreter computes. */
    method ExecHandler() returns (ghost turns: seq<Label>)
      requires Valid() && worker.Loop? && !stopped && stack.Empty? && queue != [] && queue[0].Run?
      modifies this
      ensures Valid() && worker.Loop? && Now() == Exec(old(Now()), turns)
      ensures stack.Empty? || (closing && Stuck(Now()))
      ensures var r := HandlerMeans(old(queue)[0], View(old(Now())).(queue := old(queue)[1..]));
        View(Now()) == r.world && (stack.Empty? <==> !r.outcome.Hanging?)
      ensures old(closing) ==>
        && stack.Empty? && book.dropped == old(book.dropped) + [old(queue)[0]]
        && book.ran == old(book.ran) && book.trace == old(book.trace) && tasksRun == old(tasksRun)
        && queue == old(queue)[1..]
        && count == (if old(queue)[0].origin.Timer? then old(count) else Ticked(old(count), Down))
      ensures !old(closing) ==>
        && book.ran == old(book.ran) + [old(queue)[0]] && book.dropped == old(book.dropped)
        && old(queue)[1..] <= queue
      ensures !old(closing) && old(queue)[0].job.work == Plain(Return) ==> tasksRun == old(tasksRun) + 1
      ensures old(queue)[0].job.work == Plain(Raise) ==> tasksRun == old(tasksRun)
    {
      hide Reachable, Exec, Next, Ticked, Load, View, HandlerMeans, LeadsIn;
      ghost var s := Now();
      InvHere(s);
      WorkerTakes(s);
      assert Exec(s, []) == s by { NoSteps(s); }
      ghost var end, k := HandlerEnds(s);
      turns := NextTurn(s, []);
      if stack.top.phase.Count? {
        CountsDown(Now());
        k := LeadsNext(Now(), end, k);
        turns := NextTurn(s, turns);
      }
      ghost var s1 := Now();
      if closing {
        Dismisses(s1);
        k := LeadsNext(s1, end, k);
        turns := NextTurn(s, turns);
        LeadsNowhere(Now(), end, k);
        return;
      }
      Begins(s1);
      k := LeadsNext(s1, end, k);
      turns := NextTurn(s, turns);
      k := LeadsNext(Now(), end, k);
      turns := NextTurn(s, turns);
      turns := RunOn(s, turns, end, k);
    }

    /** A body that has begun runs to its end. */
    method RunOn(ghost s: State, ghost before: seq<Label>, ghost end: State, ghost steps: nat)
      returns (ghost turns: seq<Label>)
      requires Valid() && worker.Loop? && !stopped && Pending(stack) == []
      requires Now() == Exec(s, before) && forall i | 0 <= i < |before| :: before[i] == Step(0)
      requires LeadsIn(Now(), end, steps) && (end.stack.Empty? || Stuck(end))
      modifies this
      ensures Valid() && worker.Loop? && Now() == Exec(s, turns) && Now() == end
      ensures stack.Empty? || (closing && Stuck(Now()))
      ensures book.ran == old(book.ran) && book.dropped == old(book.dropped) && old(queue) <= queue
    {
      hide Reachable, Exec, Next, Load, LeadsIn;
      turns := before;
      ghost var k := steps;
      while stack.Frames? && !(calls[0].Await? && Lookup(promises, calls[0].id).Unset?)
        invariant Valid() && Now() == Exec(s, turns) && forall i | 0 <= i < |turns| :: turns[i] == Step(0)
        invariant worker.Loop? && !stopped && old(queue) <= queue && Pending(stack) == []
        invariant book.ran == old(book.ran) && book.dropped == old(book.dropped)
        invariant LeadsIn(Now(), end, k)
        decreases Load(Now())
      {
        ghost var now := Now();
        InvHere(now);
        WorkerServes(now);
        OpenedKeeps(now);
        k := LeadsNext(now, end, k);
        turns := NextTurn(s, turns);
      }
      LeadsNowhere(Now(), end, k);
      StuckOnlyIfClosing(Now());
    }

    /** WaitUntilClosed on a pipeline that is closing, while only the worker runs: it returns
        when the worker has ended, after the handlers up to the first marker and no more. The
        wait is endless exactly when the state in which it begins dooms the worker: an open
        body goes on to call PostSynchronously, or waits for one that closing dismissed. */
    method WaitUntilClosed() returns (done: bool, ghost turns: seq<Label>)
      requires Valid() && closing
      modifies this
      ensures Valid() && closing && started && Now() == Exec(old(Now()), turns)
      ensures forall i | 0 <= i < |turns| :: turns[i] == Step(0)
      ensures done <==> worker.Exited?
      ensures done <==> !DoomedNow(old(Now()))
      ensures done <==> !Stuck(Now())
      ensures done ==> closed && !waiter && book.stops == 1
      ensures forall k: nat | done && old(book.shut) == 0 && FirstMarkerAt(old(queue), k) ::
                Dequeued(Now()) == Dequeued(old(Now())) + k + 1
    {
      ghost var s := Now();
      turns := [];
      FlagsFollowTheMarker(s);
      hide Reachable, Exec, Rank, MarkerComing, Dequeued, FirstMarkerAt, Doomed;
      assert MarkerComing(s) && Exec(s, []) == s;
      while !worker.Exited? && !(calls[0].Await? && Lookup(promises, calls[0].id).Unset?)
        invariant Valid() && closing && MarkerComing(Now()) && Now() == Exec(s, turns)
        invariant forall i | 0 <= i < |turns| :: turns[i] == Step(0)
        decreases Rank(Now())
      {
        ghost var before := Now();
        TurnRank(before);
        turns := NextTurn(s, turns);
      }
      done := worker.Exited?;
      WaitEnds(Now());
      WaitIsDoomed(s, turns);
      forall k: nat | done && s.book.shut == 0 && FirstMarkerAt(s.queue, k)
        ensures Dequeued(Now()) == Dequeued(s) + k + 1
      {
        Countdown(s, turns, k);
      }
    }
  }

  /** A turn of a worker that is neither done nor stuck gets it closer to its end. */
  lemma TurnRank(s: State)
    requires Reachable(s) && s.calls != [] && s.closing && MarkerComing(s)
    requires !s.worker.Exited? && !Stuck(s)
    ensures var s' := Next(s, Step(0));
      s'.closing && s'.calls != [] && MarkerComing(s') && Rank(s') < Rank(s)
  {
    ReachableInv(s);
    StepRank(s, Step(0));
    StepGrows(s, Step(0));
    RankZero(s);
    hide Next, Rank, MarkerComing, Ledger, Jobs, Accounts, Order, Closing, Nesting, Waits, Owned, StackOk;
  }

  /** Whether the worker that runs alone ends is settled beforehand. */
  lemma WaitIsDoomed(s: State, turns: seq<Label>)
    requires Reachable(s) && s.closing && s.calls != [] && forall i | 0 <= i < |turns| :: turns[i] == Step(0)
    requires Exec(s, turns).worker.Exited? || Stuck(Exec(s, turns))
    ensures Exec(s, turns).worker.Exited? <==> !DoomedNow(s)
  {
    ReachableInv(s);
    RunKeepsDoom(s, turns, Room(s, turns));
    StuckIsDoomed(Exec(s, turns), Room(s, turns));
    if turns == [] {
      assert !s.calls[0].PostReserve?;
      RoomSeldomMatters(s, true, Ticked(s.count, Up) <= s.capacity);
    } else {
      RoomFirst(s, turns);
    }
    hide Ledger, Jobs, Accounts, Order, Closing, Nesting, Waits, Owned, StackOk, DoomedAt, Ticked;
  }

  lemma {:induction false} RoomFirst(s: State, turns: seq<Label>)
    requires turns != [] && forall i | 0 <= i < |turns| :: turns[i] == Step(0)
    ensures Turns(turns) > 0 && Room(s, turns) == (Ticked(s.count, Up) <= s.capacity)
  {
    if |turns| > 1 {
      RoomFirst(s, turns[..|turns| - 1]);
    }
    hide Ticked, Next;
  }

  lemma WaitEnds(s: State)
    requires Reachable(s) && s.closing && s.calls != [] && (s.worker.Exited? || Stuck(s))
    ensures s.worker.Exited? <==> !Stuck(s)
    ensures s.worker.Exited? ==> s.closed && !s.waiter && s.book.stops == 1
    ensures s.started
  {
    ReachableInv(s);
    RankZero(s);
    hide Ledger, Jobs, Accounts, Order, Closing, Nesting, Waits, Owned, StackOk;
  }

  lemma InvHere(s: State)
    requires Reachable(s)
    ensures Control(s)
  {
    ReachableInv(s);
    hide Control;
  }

  lemma TimerReachable(s: State, t: nat, api: Api)
    requires Reachable(s)
    ensures Reachable(TimerCalled(s, t, api))
  {
    hide Reachable, Next;
    StepReachable(s, Begin(t, api));
    StepReachable(Next(s, Begin(t, api)), Step(t));
    StepReachable(Next(Next(s, Begin(t, api)), Step(t)), Step(t));
  }

  lemma NoSteps(s: State)
    ensures Exec(s, []) == s
  {
  }

  lemma StuckOnlyIfClosing(s: State)
    requires Reachable(s)
    ensures Stuck(s) ==> s.closing
  {
    if Stuck(s) {
      StuckMeansDismissed(s);
    }
    hide Reachable;
  }

  lemma Passes(s: State)
    requires s.stack.Frames?
    ensures Stays(s, Stay(Passed)) == s.(stack := SetPhase(s.stack, Passed))
  {
  }
}
