/** `war::Threadpool` as a state machine over its pipelines: posting, closing and joining by
    any number of client threads, interleaved with everything that happens inside the
    pipelines. Client t of the pool is client t of every pipeline. */
module Pool {
  import opened Tasks
  import opened Machine
  import opened RoundRobin

  /** Where a client stands inside the pool's methods. */
  datatype PoolCall =
    | Away            // in none of them
    | PostIn(i: nat)  // Post: inside Post of pipeline i
    | CloseTest       // Close reads closed_
    | CloseAt(i: nat) // Close: about to close pipeline i
    | CloseIn(i: nat) // Close: inside Close of pipeline i
    | CloseStored     // Close stores closed_
    | JoinLock        // JoinAll locks close_mutex_
    | JoinTest        // JoinAll reads finished_
    | JoinAt(i: nat)  // JoinAll: about to wait for pipeline i
    | JoinIn(i: nat)  // JoinAll: inside WaitUntilClosed of pipeline i
    | JoinStored      // JoinAll stores finished_
    | JoinUnlock      // JoinAll releases close_mutex_

  datatype Pool = Pool(
    pipes: seq<State>,
    next: nat,             // round_robin_next_thread_
    closed: bool,
    finished: bool,
    holder: Maybe<nat>,    // of close_mutex_
    threads: seq<PoolCall>)

  datatype PoolLabel =
    | Inner(p: nat, l: Label)       // something happens in pipeline p
    | CallPost(t: nat, task: Task)
    | CallClose(t: nat)
    | CallJoinAll(t: nat)           // also WaitUntilClosed
    | Go(t: nat)                    // client t takes its next step

  /** Client t is in no method of the pool or of one of its pipelines. */
  predicate Nowhere(s: Pool, t: nat) {
    && 0 < t < |s.threads| && s.threads[t].Away?
    && forall p | 0 <= p < |s.pipes| && t < |s.pipes[p].calls| :: s.pipes[p].calls[t].Idle?
  }

  /** A client enters a pipeline's method directly only if it is in no other method. */
  predicate Allowed(s: Pool, l: Label) {
    (l.Begin? || l.BeginJoin?) ==> Nowhere(s, l.t)
  }

  function SetPipe(s: Pool, p: nat, l: Label): Pool
    requires p < |s.pipes|
  {
    s.(pipes := s.pipes[p := Next(s.pipes[p], l)])
  }

  function SetThread(s: Pool, t: nat, c: PoolCall): Pool
    requires t < |s.threads|
  {
    s.(threads := s.threads[t := c])
  }

  predicate Returned(s: Pool, p: nat, t: nat) {
    p < |s.pipes| && t < |s.pipes[p].calls| && s.pipes[p].calls[t].Idle?
  }

  function GoStep(s: Pool, t: nat): Pool
    requires t < |s.threads|
  {
    match s.threads[t]
    case Away => s
    case PostIn(i) =>
      if Returned(s, i, t) then SetThread(s, t, Away)
      else if i < |s.pipes| then SetPipe(s, i, Step(t)) else s
    case CloseTest => SetThread(s, t, if s.closed then Away else CloseAt(0))
    case CloseAt(i) =>
      if i < |s.pipes| then SetThread(SetPipe(s, i, Begin(t, Close)), t, CloseIn(i))
      else SetThread(s, t, CloseStored)
    case CloseIn(i) =>
      if Returned(s, i, t) then SetThread(s, t, CloseAt(i + 1))
      else if i < |s.pipes| then SetPipe(s, i, Step(t)) else s
    case CloseStored => SetThread(s, t, Away).(closed := true)
    case JoinLock => if s.holder.Just? then s else SetThread(s, t, JoinTest).(holder := Just(t))
    case JoinTest => SetThread(s, t, if s.finished then JoinUnlock else JoinAt(0))
    case JoinAt(i) =>
      if i < |s.pipes| then SetThread(SetPipe(s, i, BeginJoin(t)), t, JoinIn(i))
      else SetThread(s, t, JoinStored)
    case JoinIn(i) =>
      if Returned(s, i, t) then SetThread(s, t, JoinAt(i + 1))
      else if i < |s.pipes| then SetPipe(s, i, Step(t)) else s
    case JoinStored => SetThread(s, t, JoinUnlock).(finished := true)
    case JoinUnlock => SetThread(s, t, Away).(holder := Nothing)
  }

  function PoolNext(s: Pool, l: PoolLabel): Pool {
    match l
    case Inner(p, l') => if p < |s.pipes| && Allowed(s, l') then SetPipe(s, p, l') else s
    case CallPost(t, task) =>
      if Nowhere(s, t) && s.pipes != [] then
        var i := Pick(s.next, |s.pipes|);
        SetThread(SetPipe(s, i, Begin(t, Post(task))), t, PostIn(i)).(next := Bump(s.next))
      else s
    case CallClose(t) => if Nowhere(s, t) then SetThread(s, t, CloseTest) else s
    case CallJoinAll(t) => if Nowhere(s, t) then SetThread(s, t, JoinLock) else s
    case Go(t) => if t < |s.threads| then GoStep(s, t) else s
  }

  function PoolExec(s: Pool, ls: seq<PoolLabel>): Pool {
    if ls == [] then s else PoolNext(PoolExec(s, ls[..|ls| - 1]), ls[|ls| - 1])
  }

  /** Every pipeline's constructor has returned before the pool's does. */
  function Fresh(capacity: nat, clients: nat): State {
    Init(capacity, clients).(worker := Loop, waiter := true, started := true)
  }

  /** The number of threads: as asked for, or max(2, cores - 1) in unsigned arithmetic, where
      `cores` is what hardware_concurrency() reports. */
  function PoolSize(asked: nat, cores: nat): nat
    requires cores < UINT
  {
    if asked > 0 then asked
    else if cores == 0 then UINT - 1
    else if cores <= 3 then 2
    else cores - 1
  }

  function NewPool(size: nat, capacity: nat, clients: nat): Pool {
    Pool(seq(size, _ => Fresh(capacity, clients)), 0, false, false, Nothing,
         seq(clients + 1, _ => Away))
  }
}
