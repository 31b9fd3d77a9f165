// One task control block as a state machine: every change the kernel makes to a task is one
// of a few actions. os_task.c.
module TaskSpec {
  import opened Types

  /** The saved resume point of a task (internal_state): at the top of its procedure, after
      the wait in OS_WAIT_SEM, after some other blocking macro, or inside the retry loop of a
      blocking post or receive. */
  datatype ResumePoint =
    | Top
    | After
    | AfterSem(sem: nat)
    | InPost(dest: nat, msg: Msg, delay: uint32, period: uint32)
    | InReceive(owner: nat)

  /** A task control block, W being how the event wait set is represented. */
  datatype Tcb<W> = Tcb(
    state: TaskState,
    savedState: TaskState,
    resume: ResumePoint,
    time: uint32,
    prio: uint8,
    semaphore: nat,
    msgQ: nat,
    msgChangeEvent: nat,
    msgResult: QueueResult,
    waitSingleEvent: bool,
    clockId: uint8,
    waits: W)

  type Task = Tcb<set<nat>>

  datatype Action =
    | Signal(e: nat)                                     // os_task_signal_event, on one task
    | Timer(clock: uint8, size: uint32)                  // task_tick, on one task
    | Grant                                              // hand-off in os_task_release_waiting_task
    | Suspend
    | Resume
    | Kill
    | WaitTime(clock: uint8, ticks: uint32)              // os_task_wait_time_set
    | WaitEvent(e: nat, timeout: uint32)                 // os_task_wait_event, single event
    | WaitMultiple(all: bool, es: seq<nat>)              // the body of os_wait_multiple
    | WaitSem(sem: nat)                                  // task_wait_sem_set
    | NoteEvent(e: nat)                                  // os_task_set_change_event
    | NoteResult(result: QueueResult)                    // os_task_set_msg_result
    | Yield(at: ResumePoint)                             // the store of OS_YIELD

  function ClearWaits(t: Task): Task {
    t.(waits := {}, waitSingleEvent := false)
  }

  function SetOf(es: seq<nat>): set<nat> {
    set e | e in es
  }

  /** os_task_wait_event. */
  function WaitOn(t: Task, e: nat, single: bool, timeout: uint32): Task {
    var w := t.(waits := t.waits + {e}, waitSingleEvent := single);
    if timeout != 0 then w.(clockId := 0, time := timeout, state := WAITING_EVENT_TIMEOUT)
    else w.(state := WAITING_EVENT)
  }

  function Do(t: Task, a: Action): Task {
    match a
    case Signal(e) =>
      if (t.state == WAITING_EVENT || t.state == WAITING_EVENT_TIMEOUT) && e in t.waits then
        if t.waitSingleEvent || t.waits == {e} then ClearWaits(t).(state := READY)
        else t.(waits := t.waits - {e})
      else t
    case Timer(clock, size) =>
      if t.state == WAITING_TIME || t.state == WAITING_EVENT_TIMEOUT then
        if t.clockId != clock then t
        else if t.time > size then t.(time := t.time - size)
        else if t.state == WAITING_TIME then t.(time := 0, state := READY)
        else ClearWaits(t).(time := 0, state := READY)
      else if t.state == WAITING_SEM then t.(time := (t.time + 1) % 0x1_0000_0000)
      else t
    case Grant => if t.state == WAITING_SEM then t.(state := READY) else t
    case Suspend =>
      if t.state == KILLED || t.state == SUSPENDED then t
      else if t.state == WAITING_SEM then t.(savedState := READY, resume := Top, state := SUSPENDED)
      else t.(savedState := t.state, state := SUSPENDED)
    case Resume => if t.state == SUSPENDED then t.(state := t.savedState) else t
    case Kill => t.(state := KILLED)
    case WaitTime(clock, ticks) => t.(clockId := clock, time := ticks, state := WAITING_TIME)
    case WaitEvent(e, timeout) => WaitOn(t, e, true, timeout)
    case WaitMultiple(all, es) =>
      t.(waits := SetOf(es), waitSingleEvent := !all, state := WAITING_EVENT)
    case WaitSem(sem) => t.(time := 0, state := WAITING_SEM, semaphore := sem)
    case NoteEvent(e) => t.(msgChangeEvent := e)
    case NoteResult(result) => t.(msgResult := result)
    case Yield(at) => t.(resume := at)
  }

  function DoAll(t: Task, acts: seq<Action>): Task
    decreases |acts|
  {
    if acts == [] then t else DoAll(Do(t, acts[0]), acts[1..])
  }

  lemma {:induction false} DoAllConcat(t: Task, a: seq<Action>, b: seq<Action>)
    ensures DoAll(t, a + b) == DoAll(DoAll(t, a), b)
    decreases |a|
  {
    if a == [] {
      assert a + b == b;
    } else {
      assert (a + b)[0] == a[0] && (a + b)[1..] == a[1..] + b;
      DoAllConcat(Do(t, a[0]), a[1..], b);
    }
  }

  /** The state a task is in, or was suspended from. */
  function EffectiveState(t: Task): TaskState {
    if t.state == SUSPENDED then t.savedState else t.state
  }

  predicate AwaitsEvent(s: TaskState) {
    s == WAITING_EVENT || s == WAITING_EVENT_TIMEOUT
  }

  predicate AwaitsTime(s: TaskState) {
    s == WAITING_TIME || s == WAITING_EVENT_TIMEOUT
  }

  /** Actions only the task itself takes, while it runs. */
  predicate OwnWait(a: Action) {
    a.WaitTime? || a.WaitEvent? || a.WaitMultiple? || a.WaitSem?
  }

  /** Actions that neither the task itself nor a suspend or kill aims at it. */
  predicate Passive(a: Action) {
    a.Signal? || a.Timer? || a.Grant? || a.Resume?
  }

  /** Actions that come from outside the task. */
  predicate Foreign(a: Action) {
    Passive(a) || a.Suspend? || a.Kill?
  }

  predicate AllForeign(acts: seq<Action>) {
    forall a | a in acts :: Foreign(a)
  }

  /** What a running task is: ready, or killed by itself in the middle of its slice. */
  predicate Awake(t: Task) {
    t.state == READY || (t.state == KILLED && t.waits == {})
  }

  /** Waits are issued by a running task, and never for no time or for no event. */
  predicate Allowed(t: Task, a: Action) {
    && (OwnWait(a) ==> Awake(t))
    && (a.WaitTime? ==> a.ticks > 0)
    && (a.WaitMultiple? ==> a.es != [])
  }

  predicate AllAllowed(t: Task, acts: seq<Action>)
    decreases |acts|
  {
    acts == [] || (Allowed(t, acts[0]) && AllAllowed(Do(t, acts[0]), acts[1..]))
  }

  lemma {:induction false} AllAllowedConcat(t: Task, a: seq<Action>, b: seq<Action>)
    ensures AllAllowed(t, a + b) <==> AllAllowed(t, a) && AllAllowed(DoAll(t, a), b)
    decreases |a|
  {
    if a == [] {
      assert a + b == b;
    } else {
      assert (a + b)[0] == a[0] && (a + b)[1..] == a[1..] + b;
      AllAllowedConcat(Do(t, a[0]), a[1..], b);
    }
  }

  lemma {:induction false} ForeignIsAllowed(t: Task, acts: seq<Action>)
    requires AllForeign(acts)
    ensures AllAllowed(t, acts)
    decreases |acts|
  {
    if acts != [] {
      assert Foreign(acts[0]) && forall a | a in acts[1..] :: a in acts;
      ForeignIsAllowed(Do(t, acts[0]), acts[1..]);
    }
  }

  lemma DoAllCons(t: Task, a: Action, rest: seq<Action>)
    ensures DoAll(t, [a] + rest) == DoAll(Do(t, a), rest)
    ensures AllAllowed(t, [a] + rest) <==> Allowed(t, a) && AllAllowed(Do(t, a), rest)
  {
    assert ([a] + rest)[1..] == rest;
  }
}
