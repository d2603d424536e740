/** What a task means: a recursive interpreter that knows nothing of the worker's stack, of
    the phases of ExecTask_ or of atomic operations. It says what executing a task does when
    nobody else acts, and how the task ends. */
module Meaning {
  import opened Tasks
  import opened Machine

  /** A promise has been given a value, or an exception. */
  datatype Report = Report(id: nat, ok: bool)

  /** What a task can act on. */
  datatype World = World(
    capacity: nat,
    count: nat,
    closing: bool,
    queue: seq<Handler>,
    armed: seq<Job>,
    tasksRun: nat,
    issued: nat,          // submissions so far
    told: seq<Report>)

  /** The task returned, it threw, or it waits for ever. */
  datatype Outcome = Returned | Thrown | Hanging

  datatype Result = Result(world: World, outcome: Outcome)

  /** Nothing is taken back: what is queued, armed and told stays in place. */
  predicate Extends(w: World, w': World) {
    && w'.capacity == w.capacity && (w.closing ==> w'.closing)
    && w.queue <= w'.queue && w.armed <= w'.armed && w.told <= w'.told
    && w.tasksRun <= w'.tasksRun && w.issued <= w'.issued
  }

  /** A new submission. */
  function Issue(w: World): World {
    w.(issued := w.issued + 1)
  }

  function Increment(n: nat): nat { (n + 1) % SIZE_T }

  function Decrement(n: nat): nat { if n == 0 then SIZE_T - 1 else (n - 1) % SIZE_T }

  /** Post of a task, or of a lambda around one. */
  function PostMeans(work: Work, w: World): Result {
    if w.closing then Result(Issue(w), Returned)
    else if Increment(w.count) > w.capacity then
      Result(Issue(w).(count := Decrement(Increment(w.count))), Thrown)
    else
      Result(Issue(w).(count := Increment(w.count), queue := w.queue + [Run(Job(w.issued, work), Posted)]),
             Returned)
  }

  /** A timer is armed unless the pipeline is closing. */
  function TimerMeans(work: Work, w: World): Result {
    if w.closing then Result(Issue(w), Returned)
    else Result(Issue(w).(armed := w.armed + [Job(w.issued, work)]), Returned)
  }

  /** A call that a body makes. */
  function CallMeans(api: Api, w: World): (r: Result)
    ensures Extends(w, r.world)
    decreases api, 0
  {
    match api
    case Post(task) => PostMeans(Plain(task), w)
    case PostWithPromise(task) => PostMeans(Promised(task), w)
    case PostToken(task) =>
      Result(Issue(w).(queue := w.queue + [Run(Job(w.issued, Plain(task)), Token)]), Returned)
    case PostWithTimer(task) => TimerMeans(Plain(task), w)
    case PostTimerLegacy(task) => TimerMeans(Resuming(task), w)
    case PostTimerToken(task) =>
      Result(Issue(w).(armed := w.armed + [Job(w.issued, Plain(task))]), Returned)
    case Dispatch(task) =>
      if w.closing then Result(Issue(w), Returned) else Contained(TaskMeans(task, Issue(w)))
    case PostSynchronously(task) =>
      if w.closing then Result(Issue(w), Hanging) else WrapperMeans(Sync(task), w.issued, Issue(w))
    case Close =>
      Result(if w.closing then w else w.(closing := true, queue := w.queue + [Marker]), Returned)
  }

  function BodyMeans(task: Task, w: World): (r: Result)
    ensures Extends(w, r.world)
    decreases task, 0
  {
    match task
    case Return => Result(w, Returned)
    case Raise => Result(w, Thrown)
    case Do(api, ok, ko) =>
      var called := CallMeans(api, w);
      match called.outcome
      case Returned => BodyMeans(ok, called.world)
      case Thrown => BodyMeans(ko, called.world)
      case Hanging => called
  }

  /** The body of a task, and ++tasks_run_ if it returns. */
  function TaskMeans(task: Task, w: World): (r: Result)
    ensures Extends(w, r.world)
    decreases task, 1
  {
    var body := BodyMeans(task, w);
    if body.outcome.Returned? then body.(world := body.world.(tasksRun := body.world.tasksRun + 1)) else body
  }

  /** An exception is caught. */
  function Contained(r: Result): Result {
    if r.outcome.Thrown? then r.(outcome := Returned) else r
  }

  /** The lambda that the library puts around a task: it runs the task as a submission of its
      own, reports how that ended, and counts as a task that has been run. The outcome is that
      of the task inside. */
  function WrapperMeans(work: Work, id: nat, w: World): (r: Result)
    ensures Extends(w, r.world)
    decreases work.task, 2
  {
    var inner := TaskMeans(work.task, if work.Resuming? then Issue(w).(count := Decrement(w.count)) else Issue(w));
    if inner.outcome.Hanging? then inner
    else
      var told := if work.Sync? || (work.Promised? && inner.outcome.Thrown?)
                  then inner.world.told + [Report(id, inner.outcome.Returned?)] else inner.world.told;
      inner.(world := inner.world.(tasksRun := inner.world.tasksRun + 1, told := told))
  }

  /** A handler that the worker takes from the queue. */
  function HandlerMeans(h: Handler, w: World): Result
    requires h.Run?
  {
    var w1 := if h.origin.Timer? then w else w.(count := Decrement(w.count));
    if w.closing then Result(w1, Returned)
    else if h.job.work.Plain? then Contained(TaskMeans(h.job.work.task, w1))
    else Contained(WrapperMeans(h.job.work, h.job.id, w1))
  }

  // ----- about the interpreter -----

  /** A task waits for ever only in a pipeline that is closing. */
  lemma {:induction false} HangsOnlyWhenClosing(task: Task, w: World)
    ensures BodyMeans(task, w).outcome.Hanging? ==> BodyMeans(task, w).world.closing
    decreases task
  {
    if task.Do? {
      CallHangsOnlyWhenClosing(task.api, w);
      hide CallMeans;
      var called := CallMeans(task.api, w);
      HangsOnlyWhenClosing(task.ok, called.world);
      HangsOnlyWhenClosing(task.ko, called.world);
    }
  }

  lemma CallHangsOnlyWhenClosing(api: Api, w: World)
    ensures CallMeans(api, w).outcome.Hanging? ==> CallMeans(api, w).world.closing
    decreases api
  {
    hide BodyMeans, TaskMeans, WrapperMeans;
    if api.Dispatch? {
      HangsOnlyWhenClosing(api.task, Issue(w));
      TaskOfBody(api.task, Issue(w));
    } else if api.PostSynchronously? {
      HangsOnlyWhenClosing(api.task, Issue(Issue(w)));
      TaskOfBody(api.task, Issue(Issue(w)));
      SyncOfTask(api.task, w.issued, Issue(w));
    }
  }

  lemma TaskOfBody(task: Task, w: World)
    ensures var r, body := TaskMeans(task, w), BodyMeans(task, w);
      && r.outcome == body.outcome
      && r.world == (if r.outcome.Returned? then body.world.(tasksRun := body.world.tasksRun + 1) else body.world)
  {
    hide BodyMeans;
  }

  lemma SyncOfTask(task: Task, id: nat, w: World)
    ensures var r, inner := WrapperMeans(Sync(task), id, w), TaskMeans(task, Issue(w));
      && r.outcome == inner.outcome
      && r.world == (if r.outcome.Hanging? then inner.world
                     else inner.world.(tasksRun := inner.world.tasksRun + 1,
                                       told := inner.world.told + [Report(id, inner.outcome.Returned?)]))
  {
    hide TaskMeans;
  }

  /** The task calls nothing but Dispatch and PostSynchronously, and so do the tasks inside. */
  predicate InPlace(task: Task) {
    match task
    case Do(api, ok, ko) =>
      (api.Dispatch? || api.PostSynchronously?) && InPlace(api.task) && InPlace(ok) && InPlace(ko)
    case _ => true
  }

  /** How such a task ends, and how many bodies in it end normally, its own not included. */
  function Throws(task: Task): bool
    requires InPlace(task)
  {
    match task
    case Return => false
    case Raise => true
    case Do(api, ok, ko) => Throws(if api.PostSynchronously? && Throws(api.task) then ko else ok)
  }

  function Runs(task: Task): nat
    requires InPlace(task)
  {
    match task
    case Do(api, ok, ko) =>
      var inner := Runs(api.task) + (if Throws(api.task) then 0 else 1);
      inner + (if api.PostSynchronously? then 1 else 0)
      + Runs(if api.PostSynchronously? && Throws(api.task) then ko else ok)
    case _ => 0
  }

  /** Dispatch and PostSynchronously on the worker are function calls, at any depth: however
      full the queue is they are never refused, they touch neither counter nor queue, and
      only an exception of a task run synchronously reaches the caller. */
  lemma {:induction false} InPlaceMeans(task: Task, w: World)
    requires InPlace(task) && !w.closing
    ensures var r := BodyMeans(task, w);
      && r.outcome == (if Throws(task) then Thrown else Returned)
      && r.world.tasksRun == w.tasksRun + Runs(task)
      && r.world == w.(tasksRun := r.world.tasksRun, issued := r.world.issued, told := r.world.told)
    decreases task
  {
    if task.Do? {
      InPlaceCall(task.api, w);
      hide CallMeans;
      var called := CallMeans(task.api, w);
      if called.outcome.Returned? {
        InPlaceMeans(task.ok, called.world);
      } else {
        InPlaceMeans(task.ko, called.world);
      }
    }
  }

  lemma InPlaceCall(api: Api, w: World)
    requires (api.Dispatch? || api.PostSynchronously?) && InPlace(api.task) && !w.closing
    ensures var r := CallMeans(api, w);
      && r.outcome == (if api.PostSynchronously? && Throws(api.task) then Thrown else Returned)
      && r.world.tasksRun == w.tasksRun + Runs(api.task) + (if Throws(api.task) then 0 else 1)
                             + (if api.PostSynchronously? then 1 else 0)
      && r.world == w.(tasksRun := r.world.tasksRun, issued := r.world.issued, told := r.world.told)
    decreases api
  {
    hide BodyMeans, TaskMeans, WrapperMeans, Runs, Throws, InPlace;
    if api.Dispatch? {
      InPlaceMeans(api.task, Issue(w));
      TaskOfBody(api.task, Issue(w));
    } else {
      InPlaceMeans(api.task, Issue(Issue(w)));
      TaskOfBody(api.task, Issue(Issue(w)));
      SyncOfTask(api.task, w.issued, Issue(w));
    }
  }
}
