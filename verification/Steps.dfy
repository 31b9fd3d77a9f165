// The kernel as a transition system: tasks run one kernel call at a time, interrupts tick and
// signal in between, and set-up calls come first.
module Steps {
  import opened Types
  import opened TaskSpec
  import opened KernelSpec
  import Q = QueueSpec

  datatype Op =
    // set-up
    | CreateEvent
    | CreateSem(max: uint8, initial: uint8)
    | CreateTask(prio: uint8, poolSize: uint8)
    | Start
    // the scheduler
    | Dispatch
    // calls of the running task
    | TaskWait(clock: uint8, ticks: uint32)
    | EventWait(e: nat, timeout: uint32)
    | EventWaitMultiple(all: bool, es: seq<nat>)
    | EventSignal(e: nat)
    | SemWait(s: nat)
    | SemSignal(s: nat)
    | MsgPost(dest: nat, msg: Msg, delay: uint32, period: uint32, async: bool)
    | MsgReceive(owner: nat, async: bool)
    | SuspendTask(tid: nat)
    | ResumeTask(tid: nat)
    | KillTask(tid: nat)
    | TaskClose
    // interrupts
    | Tick
    | SubTick(id: uint8, n: uint32)
    | IsrSignal(e: nat)
    | IsrSemSignal(s: nat)

  predicate SetUp(op: Op) {
    op.CreateEvent? || op.CreateSem? || op.CreateTask? || op.Start?
  }

  predicate ByRunningTask(op: Op) {
    || op.TaskWait? || op.EventWait? || op.EventWaitMultiple? || op.EventSignal? || op.SemWait? || op.SemSignal?
    || op.MsgPost? || op.MsgReceive? || op.SuspendTask? || op.ResumeTask? || op.KillTask? || op.TaskClose?
  }

  function Boot(cfg: Config): Kernel {
    Kernel(cfg, [], [], [], 0, seq(cfg.nTotalEvents, _ => 0), NO_EVENT, 0, false, NO_TID)
  }

  /** The configuration limits the source checks while compiling, and the event ids that fit
      its id type. */
  predicate ConfigOk(cfg: Config) {
    cfg.nTasks < NO_TID && cfg.nQueues < NO_QUEUE && cfg.nTotalEvents <= NO_EVENT
  }

  /** What the callers of the kernel must respect: the assertions of the source, ids of
      objects that exist, and no message pool of a single message. */
  predicate Legal(k: Kernel, op: Op) {
    && (ByRunningTask(op) ==> k.runningTid != NO_TID)
    && match op
       case CreateEvent => k.nEvents < k.cfg.nTotalEvents
       case CreateSem(_, _) => |k.sems| < k.cfg.nTotalSemaphores
       case CreateTask(prio, poolSize) =>
         && !k.running && |k.tasks| < k.cfg.nTasks
         && (forall i | 0 <= i < |k.tasks| :: k.tasks[i].prio != prio)
         && poolSize != 1
         && (poolSize > 0 ==> |k.queues| < k.cfg.nQueues && k.nEvents < k.cfg.nTotalEvents)
       case Start => true
       case Dispatch => k.running && k.runningTid == NO_TID && (k.cfg.roundRobin ==> k.tasks != [])
       case TaskWait(_, ticks) => ticks > 0
       case EventWait(_, _) => true
       case EventWaitMultiple(_, es) => 0 < |es| <= k.cfg.nTotalEvents + 1 && forall e | e in es :: e < k.cfg.nTotalEvents
       case EventSignal(e) => e < k.cfg.nTotalEvents
       case SemWait(s) => s < |k.sems|
       case SemSignal(s) => s < |k.sems|
       case MsgPost(_, _, _, _, _) => true
       case MsgReceive(_, _) => true
       case SuspendTask(tid) => tid < |k.tasks|
       case ResumeTask(tid) => tid < |k.tasks|
       case KillTask(tid) => tid < |k.tasks|
       case TaskClose => true
       case Tick => true
       case SubTick(_, _) => true
       case IsrSignal(e) => e < k.cfg.nTotalEvents
       case IsrSemSignal(s) => s < |k.sems|
  }

  /** os_task_create's new control block. */
  function NewTask(prio: uint8, msgQ: nat): Task {
    Tcb(READY, READY, Top, 0, prio, 0, msgQ, 0, UNDEF, false, 255, {})
  }

  function AddEvent(k: Kernel): (r: Kernel)
    requires k.nEvents < |k.signaledBy|
  {
    k.(nEvents := k.nEvents + 1, signaledBy := k.signaledBy[k.nEvents := NO_TID])
  }

  function AddTask(k: Kernel, prio: uint8, poolSize: uint8): Kernel
    requires poolSize > 0 ==> k.nEvents < |k.signaledBy|
  {
    var tid := |k.tasks|;
    if poolSize == 0 then k.(tasks := k.tasks + [NewTask(prio, NO_QUEUE)])
    else
      AddEvent(k).(
      queues := k.queues + [Q.Queue([], poolSize - 1, tid, k.nEvents)],
      tasks := k.tasks + [NewTask(prio, |k.queues|)])
  }

  function YieldTask(k: Kernel): (r: Kernel)
    requires Sized(k) && k.runningTid != NO_TID
  {
    On(k, k.runningTid, [Yield(After)]).(runningTid := NO_TID)
  }

  /** The dispatched task, or nobody, before it continues. */
  function Dispatched(k: Kernel): (r: Kernel)
    requires Sized(k) && (k.cfg.roundRobin ==> k.tasks != [])
    ensures Sized(r) && SameShape(k, r)
  {
    var t := Select(k);
    k.(runningTid := t, lastRunningTask := if k.cfg.roundRobin then t else k.lastRunningTask)
  }

  /** The macros note the queue's event before their first attempt. */
  function Noted(k: Kernel, owner: nat): (r: Kernel)
    requires Sized(k) && k.runningTid != NO_TID
    ensures Sized(r) && SameShape(k, r)
  {
    On(k, k.runningTid, [NoteEvent(ChangeEvent(k, Find(k, owner)))])
  }

  /** A parked task knows the event it waits for. */
  ghost predicate EventsKnown(k: Kernel) {
    forall i | 0 <= i < |k.tasks| && i != k.runningTid && k.tasks[i].state == READY && Retrying(k.tasks[i]) ::
      k.tasks[i].msgChangeEvent < |k.signaledBy|
  }

  lemma ReadyIsSelected(k: Kernel)
    requires Sized(k) && (k.cfg.roundRobin ==> k.tasks != [])
    ensures Select(k) != NO_TID ==> k.tasks[Select(k)].state == READY
  {
    if k.cfg.roundRobin {
      ScanFindsReady(k.tasks, ScanStart(|k.tasks|, k.lastRunningTask), 0);
    } else {
      BestPrioIsWanted(k.tasks, Ready, |k.tasks|);
    }
  }

  lemma {:induction false} ScanFindsReady(ts: seq<Task>, start: nat, c: nat)
    requires start < |ts| < NO_TID && c <= |ts|
    ensures ScanFrom(ts, start, c) != NO_TID ==> ts[ScanFrom(ts, start, c)].state == READY
    decreases |ts| - c
  {
    if c < |ts| && ts[Cyclic(start, c, |ts|)].state != READY {
      ScanFindsReady(ts, start, c + 1);
    }
  }

  lemma {:induction false} BestPrioIsWanted(ts: seq<Task>, w: Wanted, n: nat)
    requires n <= |ts| < NO_TID
    ensures BestPrio(ts, w, n) != NO_TID ==> Wants(w, ts[BestPrio(ts, w, n)])
  {
    if n > 0 {
      BestPrioIsWanted(ts, w, n - 1);
    }
  }

  /** One step of the kernel. */
  function Step(k: Kernel, op: Op): Kernel
    requires Sized(k) && EventsKnown(k) && Legal(k, op)
  {
    match op
    case CreateEvent => AddEvent(k)
    case CreateSem(max, initial) => k.(sems := k.sems + [Sem(max, initial)])
    case CreateTask(prio, poolSize) => AddTask(k, prio, poolSize)
    case Start => k.(running := true)
    case Dispatch =>
      ReadyIsSelected(k);
      if Select(k) == NO_TID then Dispatched(k) else Continue(Dispatched(k))
    case TaskWait(clock, ticks) => OwnAndYield(k, [WaitTime(clock, ticks)], After)
    case EventWait(e, timeout) => OwnAndYield(Forget(k, e), WaitActions(k, e, timeout), After)
    case EventWaitMultiple(all, es) => OwnAndYield(k, [WaitMultiple(all, es)], After)
    case EventSignal(e) => YieldTask(SignalFrom(k, e, k.runningTid))
    case SemWait(s) => Take(k, s)
    case SemSignal(s) => if Waiting(k.tasks, s) then YieldTask(Give(k, s)) else Give(k, s)
    case MsgPost(dest, m, delay, period, async) =>
      TryPost(Noted(k, dest), ChangeEvent(k, Find(k, dest)), dest, m, delay, period, async)
    case MsgReceive(owner, async) =>
      TryReceive(Noted(k, owner), ChangeEvent(k, Find(k, owner)), owner, async)
    case SuspendTask(tid) =>
      if tid == k.runningTid then YieldTask(On(k, tid, [Suspend])) else On(k, tid, [Suspend])
    case ResumeTask(tid) =>
      if tid == k.runningTid then YieldTask(On(k, tid, [Resume])) else On(k, tid, [Resume])
    case KillTask(tid) => On(k, tid, [Kill])
    case TaskClose => On(k, k.runningTid, [Kill]).(runningTid := NO_TID)
    case Tick => TaskTick(k, 0, 1)
    case SubTick(id, n) => if id != 0 then TaskTick(k, id, n) else k
    case IsrSignal(e) => SignalFrom(k, e, ISR_TID)
    case IsrSemSignal(s) => Give(k, s)
  }
}
