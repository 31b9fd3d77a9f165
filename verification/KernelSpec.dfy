// The whole kernel as a value, and every kernel call as a function on it: os_task.c,
// os_event.c, os_sem.c, os_kernel.c and the blocking macros of os_event.h, os_sem.h and
// os_msgqueue.h.
module KernelSpec {
  import opened Types
  import opened TaskSpec
  import Q = QueueSpec

  datatype Sem = Sem(maxValue: uint8, value: uint8)

  /** The user configuration: table sizes and the scheduling policy. */
  datatype Config = Config(nTasks: nat, nQueues: nat, nTotalSemaphores: nat, nTotalEvents: nat, roundRobin: bool)

  datatype Kernel = Kernel(
    cfg: Config,
    tasks: seq<Task>,
    queues: seq<Q.Queue>,
    sems: seq<Sem>,
    nEvents: nat,
    signaledBy: seq<nat>,
    lastSignaledEvent: nat,
    lastRunningTask: nat,
    running: bool,
    runningTid: nat)

  /** Every stored index is in range. */
  ghost predicate Sized(k: Kernel) {
    && |k.tasks| < NO_TID && |k.queues| < NO_QUEUE
    && (k.runningTid == NO_TID || k.runningTid < |k.tasks|)
    && k.nEvents <= |k.signaledBy| == k.cfg.nTotalEvents <= NO_EVENT
    && (forall q | 0 <= q < |k.queues| :: k.queues[q].change < k.nEvents)
    && (forall i | 0 <= i < |k.tasks| :: k.tasks[i].msgQ == NO_QUEUE || k.tasks[i].msgQ < |k.queues|)
  }

  /** The parts fixed at creation. */
  ghost predicate SameShape(k: Kernel, r: Kernel) {
    && r.cfg == k.cfg && r.nEvents == k.nEvents && |r.signaledBy| == |k.signaledBy|
    && |r.tasks| == |k.tasks| && |r.queues| == |k.queues| && |r.sems| == |k.sems|
    && r.running == k.running
    && (forall i | 0 <= i < |k.tasks| :: r.tasks[i].msgQ == k.tasks[i].msgQ && r.tasks[i].prio == k.tasks[i].prio)
    && (forall q | 0 <= q < |k.queues| :: r.queues[q] == k.queues[q].(msgs := r.queues[q].msgs))
    && (forall s | 0 <= s < |k.sems| :: r.sems[s].maxValue == k.sems[s].maxValue)
  }

  // ----- Tasks -------------------------------------------------------------------------

  lemma {:induction false} DoAllKeepsIdentity(t: Task, acts: seq<Action>)
    ensures DoAll(t, acts).msgQ == t.msgQ && DoAll(t, acts).prio == t.prio
    decreases |acts|
  {
    if acts != [] {
      DoAllKeepsIdentity(Do(t, acts[0]), acts[1..]);
    }
  }

  /** Some actions on one task. */
  function On(k: Kernel, tid: nat, acts: seq<Action>): (r: Kernel)
    requires Sized(k) && tid < |k.tasks|
    ensures Sized(r) && SameShape(k, r)
  {
    DoAllKeepsIdentity(k.tasks[tid], acts);
    k.(tasks := k.tasks[tid := DoAll(k.tasks[tid], acts)])
  }

  /** Some actions of the running task, which then gives up the processor. */
  function OwnAndYield(k: Kernel, acts: seq<Action>, at: ResumePoint): (r: Kernel)
    requires Sized(k) && k.runningTid != NO_TID
    ensures Sized(r) && SameShape(k, r)
  {
    On(k, k.runningTid, acts + [Yield(at)]).(runningTid := NO_TID)
  }

  function SignalTasks(ts: seq<Task>, e: nat): (r: seq<Task>)
    ensures |r| == |ts|
    ensures forall i | 0 <= i < |ts| :: r[i] == Do(ts[i], Signal(e))
  {
    seq(|ts|, i requires 0 <= i < |ts| => Do(ts[i], Signal(e)))
  }

  /** os_signal_event followed by os_event_set_signaling_tid. */
  function SignalFrom(k: Kernel, e: nat, tid: nat): (r: Kernel)
    requires Sized(k) && e < |k.signaledBy|
    ensures Sized(r) && SameShape(k, r)
  {
    k.(tasks := SignalTasks(k.tasks, e), lastSignaledEvent := e, signaledBy := k.signaledBy[e := tid])
  }

  // ----- Ticks -------------------------------------------------------------------------

  /** os_msgQ_tick: every timer of the queue counts down, and the change event is signalled
      when one of them reaches zero. */
  function QueueTick(k: Kernel, q: nat): (r: Kernel)
    requires Sized(k) && q < |k.queues|
    ensures Sized(r) && SameShape(k, r)
  {
    var ticked := k.(queues := k.queues[q := Q.Step(k.queues[q], Q.Tick)]);
    if Q.Fires(k.queues[q].msgs) then SignalFrom(ticked, k.queues[q].change, ISR_TID) else ticked
  }

  /** One pass of the loop of task_tick. */
  function TickTask(k: Kernel, i: nat, clock: uint8, size: uint32): (r: Kernel)
    requires Sized(k) && i < |k.tasks|
    ensures Sized(r) && SameShape(k, r)
  {
    var timed := On(k, i, [Timer(clock, size)]);
    if clock == 0 && k.tasks[i].msgQ != NO_QUEUE then QueueTick(timed, k.tasks[i].msgQ) else timed
  }

  /** The first n passes. */
  function TickTasks(k: Kernel, clock: uint8, size: uint32, n: nat): (r: Kernel)
    requires Sized(k) && n <= |k.tasks|
    ensures Sized(r) && |r.tasks| == |k.tasks|
    ensures r.runningTid == k.runningTid && r.sems == k.sems && r.lastRunningTask == k.lastRunningTask
  {
    if n == 0 then k else TickTask(TickTasks(k, clock, size, n - 1), n - 1, clock, size)
  }

  lemma SameShapeTransitive(k: Kernel, m: Kernel, r: Kernel)
    requires SameShape(k, m) && SameShape(m, r)
    ensures SameShape(k, r)
  {
  }

  lemma {:induction false} TicksKeepShape(k: Kernel, clock: uint8, size: uint32, n: nat)
    requires Sized(k) && n <= |k.tasks|
    ensures SameShape(k, TickTasks(k, clock, size, n))
  {
    if n > 0 {
      var m := TickTasks(k, clock, size, n - 1);
      TicksKeepShape(k, clock, size, n - 1);
      SameShapeTransitive(k, m, TickTask(m, n - 1, clock, size));
    }
  }

  function TaskTick(k: Kernel, clock: uint8, size: uint32): (r: Kernel)
    requires Sized(k)
    ensures Sized(r) && SameShape(k, r)
  {
    TicksKeepShape(k, clock, size, |k.tasks|);
    TickTasks(k, clock, size, |k.tasks|)
  }

  // ----- Scheduling --------------------------------------------------------------------

  /** Which tasks a search is after. */
  datatype Wanted = Ready | WaitingFor(sem: nat)

  predicate Wants(w: Wanted, t: Task) {
    match w
    case Ready => t.state == READY
    case WaitingFor(s) => t.state == WAITING_SEM && t.semaphore == s
  }

  /** The wanted task with the least prio number below 255 among the first n. */
  function BestPrio(ts: seq<Task>, w: Wanted, n: nat): (r: nat)
    requires n <= |ts| < NO_TID
    ensures r == NO_TID || r < n
  {
    if n == 0 then NO_TID
    else
      var b := BestPrio(ts, w, n - 1);
      var limit := if b == NO_TID then 255 else ts[b].prio;
      if Wants(w, ts[n - 1]) && ts[n - 1].prio < limit then n - 1 else b
  }

  /** The place c steps after start, going round. */
  function Cyclic(start: nat, c: nat, n: nat): nat
    requires start < n && c < n
  {
    if start + c >= n then start + c - n else start + c
  }

  function ScanFrom(ts: seq<Task>, start: nat, c: nat): (r: nat)
    requires start < |ts| < NO_TID && c <= |ts|
    ensures r == NO_TID || r < |ts|
    decreases |ts| - c
  {
    if c == |ts| then NO_TID
    else if ts[Cyclic(start, c, |ts|)].state == READY then Cyclic(start, c, |ts|)
    else ScanFrom(ts, start, c + 1)
  }

  /** Where next_ready_task starts looking. */
  function ScanStart(n: nat, last: nat): (r: nat)
    requires n > 0
    ensures r < n
  {
    if last == NO_TID || last + 1 >= n then 0 else last + 1
  }

  function NextReady(ts: seq<Task>, last: nat): (r: nat)
    requires 0 < |ts| < NO_TID
    ensures r == NO_TID || r < |ts|
  {
    ScanFrom(ts, ScanStart(|ts|, last), 0)
  }

  function Select(k: Kernel): (r: nat)
    requires Sized(k) && (k.cfg.roundRobin ==> k.tasks != [])
    ensures r == NO_TID || r < |k.tasks|
  {
    if k.cfg.roundRobin then NextReady(k.tasks, k.lastRunningTask) else BestPrio(k.tasks, Ready, |k.tasks|)
  }

  // ----- Semaphores --------------------------------------------------------------------

  predicate Waiting(ts: seq<Task>, s: nat) {
    exists i | 0 <= i < |ts| :: Wants(WaitingFor(s), ts[i])
  }

  /** The waiter with the greatest positive waiting time among the first n, the first of equals. */
  function Longest(ts: seq<Task>, s: nat, n: nat): (r: nat)
    requires n <= |ts| < NO_TID
    ensures r == NO_TID || r < n
  {
    if n == 0 then NO_TID
    else
      var b := Longest(ts, s, n - 1);
      var limit := if b == NO_TID then 0 else ts[b].time;
      if Wants(WaitingFor(s), ts[n - 1]) && ts[n - 1].time > limit then n - 1 else b
  }

  function LastWaiting(ts: seq<Task>, s: nat, n: nat): (r: nat)
    requires n <= |ts| < NO_TID
    ensures r == NO_TID || r < n
  {
    if n == 0 then NO_TID
    else if Wants(WaitingFor(s), ts[n - 1]) then n - 1
    else LastWaiting(ts, s, n - 1)
  }

  function ReleaseTarget(k: Kernel, s: nat): (r: nat)
    requires Sized(k)
    ensures r == NO_TID || r < |k.tasks|
  {
    if k.cfg.roundRobin then
      var b := Longest(k.tasks, s, |k.tasks|);
      if b == NO_TID then LastWaiting(k.tasks, s, |k.tasks|) else b
    else BestPrio(k.tasks, WaitingFor(s), |k.tasks|)
  }

  function Release(k: Kernel, s: nat): (r: Kernel)
    requires Sized(k)
    ensures Sized(r) && SameShape(k, r)
  {
    var t := ReleaseTarget(k, s);
    if t == NO_TID then k else On(k, t, [Grant])
  }

  /** Saturating os_sem_increment. */
  function Increment(s: Sem): Sem {
    if s.value < s.maxValue then s.(value := s.value + 1) else s
  }

  /** OS_SIGNAL_SEM_NO_SCHEDULE. */
  function Give(k: Kernel, s: nat): (r: Kernel)
    requires Sized(k) && s < |k.sems|
    ensures Sized(r) && SameShape(k, r)
  {
    if Waiting(k.tasks, s) then Release(k, s) else k.(sems := k.sems[s := Increment(k.sems[s])])
  }

  /** OS_WAIT_SEM by the running task. */
  function Take(k: Kernel, s: nat): (r: Kernel)
    requires Sized(k) && s < |k.sems| && k.runningTid != NO_TID
    ensures Sized(r) && SameShape(k, r)
  {
    if k.sems[s].value > 0 then k.(sems := k.sems[s := k.sems[s].(value := k.sems[s].value - 1)])
    else OwnAndYield(k, [WaitSem(s)], AfterSem(s))
  }

  // ----- Events ------------------------------------------------------------------------

  /** The events a running task would start to wait for with os_wait_event. */
  function WaitActions(k: Kernel, e: nat, timeout: uint32): seq<Action> {
    if e < k.nEvents then [WaitEvent(e, timeout)] else []
  }

  /** os_wait_event forgets who signalled e last. */
  function Forget(k: Kernel, e: nat): (r: Kernel)
    requires Sized(k)
    ensures Sized(r) && SameShape(k, r)
  {
    if e < k.nEvents then k.(signaledBy := k.signaledBy[e := NO_TID]) else k
  }

  // ----- Queues ------------------------------------------------------------------------

  /** os_msgQ_find from position q on. */
  function FindFrom(qs: seq<Q.Queue>, owner: nat, q: nat): (r: nat)
    requires q <= |qs|
    ensures r == NO_QUEUE || (q <= r < |qs| && qs[r].owner == owner)
    decreases |qs| - q
  {
    if q == |qs| then NO_QUEUE else if qs[q].owner == owner then q else FindFrom(qs, owner, q + 1)
  }

  function Find(k: Kernel, owner: nat): (r: nat)
    ensures r == NO_QUEUE || (r < |k.queues| && k.queues[r].owner == owner)
  {
    FindFrom(k.queues, owner, 0)
  }

  /** os_msgQ_event_get. */
  function ChangeEvent(k: Kernel, q: nat): nat {
    if q < |k.queues| then k.queues[q].change else NO_EVENT
  }

  function Store(k: Kernel, q: nat, op: Q.QueueOp): (r: Kernel)
    requires Sized(k) && q < |k.queues|
    ensures Sized(r) && SameShape(k, r)
  {
    k.(queues := k.queues[q := Q.Step(k.queues[q], op)])
  }

  /** The macros' event_wait on the change event, recording the result that made them wait. */
  function Block(k: Kernel, event: nat, result: QueueResult, at: ResumePoint): (r: Kernel)
    requires Sized(k) && k.runningTid != NO_TID
    ensures Sized(r) && SameShape(k, r)
  {
    OwnAndYield(Forget(k, event), [NoteResult(result)] + WaitActions(k, event, 0), at)
  }

  /** os_msg_post writes the timers into the caller's message before it is stored. */
  function Stamped(m: Msg, delay: uint32, period: uint32): Msg {
    m.(delay := delay, reload := period)
  }

  /** One pass of the retry loop of OS_MSG_Q_POST. */
  function TryPost(k: Kernel, event: nat, dest: nat, m: Msg, delay: uint32, period: uint32, async: bool): (r: Kernel)
    requires Sized(k) && k.runningTid != NO_TID && (Find(k, dest) < |k.queues| ==> event < |k.signaledBy|)
    ensures Sized(r) && SameShape(k, r)
  {
    var q := Find(k, dest);
    if q >= |k.queues| then k
    else if Q.Full(k.queues[q]) then
      if async then k else Block(k, event, FULL, InPost(dest, Stamped(m, delay, period), delay, period))
    else SignalFrom(Store(k, q, Q.Post(Stamped(m, delay, period))), event, k.runningTid)
  }

  /** One pass of the retry loop of OS_MSG_Q_RECEIVE. */
  function TryReceive(k: Kernel, event: nat, owner: nat, async: bool): (r: Kernel)
    requires Sized(k) && k.runningTid != NO_TID && (Find(k, owner) < |k.queues| ==> event < |k.signaledBy|)
    ensures Sized(r) && SameShape(k, r)
  {
    var q := Find(k, owner);
    if q >= |k.queues| then k
    else if Q.AllDelayed(k.queues[q].msgs) then
      if async then k else Block(k, event, EMPTY, InReceive(owner))
    else SignalFrom(Store(k, q, Q.Receive), event, k.runningTid)
  }

  /** The task stopped inside the retry loop of a queue macro. */
  predicate Retrying(t: Task) {
    t.resume.InPost? || t.resume.InReceive?
  }

  /** What a resumed task does first: the retry its macro stopped in. The macros look at the
      result and the event they saved before waiting. */
  function Continue(k: Kernel): (r: Kernel)
    requires Sized(k) && k.runningTid != NO_TID
    requires Retrying(k.tasks[k.runningTid]) ==> k.tasks[k.runningTid].msgChangeEvent < |k.signaledBy|
    ensures Sized(r) && SameShape(k, r)
  {
    var t := k.tasks[k.runningTid];
    match t.resume
    case InPost(dest, m, delay, period) =>
      if t.msgResult == FULL then TryPost(k, t.msgChangeEvent, dest, m, delay, period, false)
      else if t.msgResult == POSTED then SignalFrom(k, t.msgChangeEvent, k.runningTid)
      else k
    case InReceive(owner) =>
      if t.msgResult == EMPTY then TryReceive(k, t.msgChangeEvent, owner, false)
      else if t.msgResult == RECEIVED then SignalFrom(k, t.msgChangeEvent, k.runningTid)
      else k
    case _ => k
  }
}
