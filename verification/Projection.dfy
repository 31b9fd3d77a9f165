// What one step of the kernel is for a single task: a sequence of task actions. In particular
// a tick is exactly one timer action per task and one count-down per queue, although queues
// signal events, and so change other tasks, in the middle of it.
module Projection {
  import opened Types
  import opened TaskSpec
  import opened KernelSpec
  import opened Steps
  import Q = QueueSpec

  /** Each queue belongs to the one task that names it, and no two share a change event. */
  ghost predicate Owned(k: Kernel) {
    && (forall q | 0 <= q < |k.queues| ::
          k.queues[q].owner < |k.tasks| && k.tasks[k.queues[q].owner].msgQ == q)
    && (forall i | 0 <= i < |k.tasks| && k.tasks[i].msgQ != NO_QUEUE ::
          k.tasks[i].msgQ < |k.queues| && k.queues[k.tasks[i].msgQ].owner == i)
    && (forall p, q | 0 <= p < q < |k.queues| :: k.queues[p].change != k.queues[q].change)
  }

  lemma SameShapeOwned(k: Kernel, r: Kernel)
    requires Owned(k) && SameShape(k, r)
    ensures Owned(r)
  {
  }

  // ----- Ticks -------------------------------------------------------------------------

  /** The signal task i's queue raises in its pass of the tick, if any. */
  function QueueSignal(k: Kernel, clock: uint8, i: nat): seq<Action>
    requires Sized(k) && i < |k.tasks|
  {
    var q := k.tasks[i].msgQ;
    if clock == 0 && q != NO_QUEUE && Q.Fires(k.queues[q].msgs) then [Signal(k.queues[q].change)] else []
  }

  /** What task i's pass of a tick does to task j, */
  function PassActions(k: Kernel, clock: uint8, size: uint32, i: nat, j: nat): seq<Action>
    requires Sized(k) && i < |k.tasks|
  {
    (if j == i then [Timer(clock, size)] else []) + QueueSignal(k, clock, i)
  }

  /** and what the first n passes do. */
  function TickActions(k: Kernel, clock: uint8, size: uint32, n: nat, j: nat): seq<Action>
    requires Sized(k) && n <= |k.tasks|
  {
    if n == 0 then [] else TickActions(k, clock, size, n - 1, j) + PassActions(k, clock, size, n - 1, j)
  }

  lemma TickTaskQueues(k: Kernel, i: nat, clock: uint8, size: uint32, q: nat)
    requires Sized(k) && i < |k.tasks| && q < |k.queues|
    ensures TickTask(k, i, clock, size).queues[q] ==
            if clock == 0 && k.tasks[i].msgQ == q then Q.Step(k.queues[q], Q.Tick) else k.queues[q]
  {
  }

  /** Queue q in the middle of a tick, before pass i. */
  function MidTickQueue(k: Kernel, clock: uint8, i: nat, q: nat): Q.Queue
    requires q < |k.queues|
  {
    if clock == 0 && k.queues[q].owner < i then Q.Step(k.queues[q], Q.Tick) else k.queues[q]
  }

  /** In the middle of a tick of k, m still has its tables and task i its queue. */
  ghost predicate SameTables(k: Kernel, m: Kernel, i: nat) {
    && Sized(k) && Sized(m) && i < |k.tasks| == |m.tasks| && |k.queues| == |m.queues|
    && m.tasks[i].msgQ == k.tasks[i].msgQ
  }

  lemma TicksKeepTables(k: Kernel, clock: uint8, size: uint32, n: nat, i: nat)
    requires Sized(k) && n <= |k.tasks| && i < |k.tasks|
    ensures SameTables(k, TickTasks(k, clock, size, n), i)
  {
    TicksKeepShape(k, clock, size, n);
  }

  lemma PassQueues(k: Kernel, m: Kernel, clock: uint8, size: uint32, i: nat, q: nat)
    requires SameTables(k, m, i) && Owned(k) && q < |k.queues|
    requires m.queues[q] == MidTickQueue(k, clock, i, q)
    ensures TickTask(m, i, clock, size).queues[q] == MidTickQueue(k, clock, i + 1, q)
  {
    TickTaskQueues(m, i, clock, size, q);
    assert k.tasks[i].msgQ == q <==> k.queues[q].owner == i;
  }

  /** On the master clock every queue counts down exactly once, in its owner's pass. */
  lemma {:induction false} TickQueues(k: Kernel, clock: uint8, size: uint32, n: nat, q: nat)
    requires Sized(k) && Owned(k) && n <= |k.tasks| && q < |k.queues|
    ensures q < |TickTasks(k, clock, size, n).queues|
    ensures TickTasks(k, clock, size, n).queues[q] == MidTickQueue(k, clock, n, q)
  {
    hide TickTask;
    if n > 0 {
      TickQueues(k, clock, size, n - 1, q);
      TicksKeepTables(k, clock, size, n - 1, n - 1);
      PassQueues(k, TickTasks(k, clock, size, n - 1), clock, size, n - 1, q);
    }
  }

  lemma DoAllOne(t: Task, a: Action)
    ensures DoAll(t, [a]) == Do(t, a)
    ensures DoAll(t, []) == t
  {
    assert [a][1..] == [];
    assert DoAll(Do(t, a), []) == Do(t, a);
  }

  lemma TickTaskProjects(k: Kernel, i: nat, clock: uint8, size: uint32, j: nat)
    requires Sized(k) && i < |k.tasks| && j < |k.tasks|
    ensures TickTask(k, i, clock, size).tasks[j] ==
            DoAll(k.tasks[j], PassActions(k, clock, size, i, j))
  {
    var timed := On(k, i, [Timer(clock, size)]);
    var first := if j == i then [Timer(clock, size)] else [];
    DoAllOne(k.tasks[j], Timer(clock, size));
    assert timed.tasks[j] == DoAll(k.tasks[j], first);
    DoAllConcat(k.tasks[j], first, QueueSignal(k, clock, i));
    DoAllOne(timed.tasks[j], Signal(0));
    if QueueSignal(k, clock, i) != [] {
      DoAllOne(timed.tasks[j], QueueSignal(k, clock, i)[0]);
    }
  }

  lemma PassTasks(k: Kernel, m: Kernel, clock: uint8, size: uint32, i: nat, j: nat)
    requires SameTables(k, m, i) && j < |k.tasks|
    requires m.tasks[j] == DoAll(k.tasks[j], TickActions(k, clock, size, i, j))
    requires QueueSignal(m, clock, i) == QueueSignal(k, clock, i)
    ensures TickTask(m, i, clock, size).tasks[j] == DoAll(k.tasks[j], TickActions(k, clock, size, i + 1, j))
  {
    var before, now := TickActions(k, clock, size, i, j), PassActions(k, clock, size, i, j);
    assert PassActions(m, clock, size, i, j) == now;
    TickTaskProjects(m, i, clock, size, j);
    DoAllConcat(k.tasks[j], before, now);
    assert TickActions(k, clock, size, i + 1, j) == before + now;
  }

  /** Task i's queue raises the same signal in its pass as it would at the start of the tick. */
  lemma QueueSignalUnmoved(k: Kernel, clock: uint8, size: uint32, i: nat)
    requires Sized(k) && Owned(k) && i < |k.tasks|
    ensures QueueSignal(TickTasks(k, clock, size, i), clock, i) == QueueSignal(k, clock, i)
  {
    TicksKeepTables(k, clock, size, i, i);
    if k.tasks[i].msgQ != NO_QUEUE {
      TickQueues(k, clock, size, i, k.tasks[i].msgQ);
    }
  }

  /** A tick acts on each task by its TickActions. */
  lemma {:induction false} TickProjects(k: Kernel, clock: uint8, size: uint32, n: nat, j: nat)
    requires Sized(k) && Owned(k) && n <= |k.tasks| && j < |k.tasks|
    ensures TickTasks(k, clock, size, n).tasks[j] == DoAll(k.tasks[j], TickActions(k, clock, size, n, j))
  {
    hide TickTask, PassActions, QueueSignal;
    if n > 0 {
      TickProjects(k, clock, size, n - 1, j);
      NextPass(k, TickTasks(k, clock, size, n - 1), clock, size, n - 1, j);
    }
  }

  lemma NextPass(k: Kernel, m: Kernel, clock: uint8, size: uint32, i: nat, j: nat)
    requires Sized(k) && Owned(k) && i < |k.tasks| && j < |k.tasks|
    requires m == TickTasks(k, clock, size, i)
    requires m.tasks[j] == DoAll(k.tasks[j], TickActions(k, clock, size, i, j))
    ensures TickTask(m, i, clock, size).tasks[j] == DoAll(k.tasks[j], TickActions(k, clock, size, i + 1, j))
  {
    TicksKeepTables(k, clock, size, i, i);
    QueueSignalUnmoved(k, clock, size, i);
    PassTasks(k, m, clock, size, i, j);
  }

  /** How often a is among the actions. */
  function Times(acts: seq<Action>, a: Action): nat {
    multiset(acts)[a]
  }

  /** Signals only, but for n advances of one clock. */
  ghost predicate TimerTimes(acts: seq<Action>, clock: uint8, size: uint32, n: nat) {
    && (forall i | 0 <= i < |acts| :: acts[i].Signal? || acts[i] == Timer(clock, size))
    && Times(acts, Timer(clock, size)) == n
  }

  lemma TimerTimesConcat(a: seq<Action>, b: seq<Action>, clock: uint8, size: uint32, m: nat, n: nat)
    requires TimerTimes(a, clock, size, m) && TimerTimes(b, clock, size, n)
    ensures TimerTimes(a + b, clock, size, m + n)
  {
    assert multiset(a + b) == multiset(a) + multiset(b);
  }

  lemma PassActionsAre(k: Kernel, clock: uint8, size: uint32, i: nat, j: nat)
    requires Sized(k) && i < |k.tasks|
    ensures TimerTimes(PassActions(k, clock, size, i, j), clock, size, if j == i then 1 else 0)
  {
    var own := if j == i then [Timer(clock, size)] else [];
    TimerTimesConcat(own, QueueSignal(k, clock, i), clock, size, if j == i then 1 else 0, 0);
  }

  lemma PassAdds(k: Kernel, clock: uint8, size: uint32, i: nat, j: nat, before: seq<Action>)
    requires Sized(k) && i < |k.tasks|
    requires TimerTimes(before, clock, size, if j < i then 1 else 0)
    ensures TimerTimes(before + PassActions(k, clock, size, i, j), clock, size, if j < i + 1 then 1 else 0)
  {
    PassActionsAre(k, clock, size, i, j);
    TimerTimesConcat(before, PassActions(k, clock, size, i, j), clock, size, if j < i then 1 else 0, if j == i then 1 else 0);
  }

  /** One tick: every task's timer is advanced exactly once, all other actions on it being
      signals, although queues signal in the middle of the tick. */
  lemma {:induction false} TickActionsAre(k: Kernel, clock: uint8, size: uint32, n: nat, j: nat)
    requires Sized(k) && n <= |k.tasks| && j < |k.tasks|
    ensures TimerTimes(TickActions(k, clock, size, n, j), clock, size, if j < n then 1 else 0)
  {
    hide PassActions, QueueSignal;
    if n > 0 {
      TickActionsAre(k, clock, size, n - 1, j);
      PassAdds(k, clock, size, n - 1, j, TickActions(k, clock, size, n - 1, j));
    }
  }

  // ----- All steps ---------------------------------------------------------------------

  function TryPostActions(k: Kernel, event: nat, dest: nat, m: Msg, delay: uint32, period: uint32, async: bool, j: nat)
    : seq<Action>
  {
    var q := Find(k, dest);
    if q >= |k.queues| then []
    else if Q.Full(k.queues[q]) then
      if async || j != k.runningTid then []
      else [NoteResult(FULL)] + WaitActions(k, event, 0) + [Yield(InPost(dest, Stamped(m, delay, period), delay, period))]
    else [Signal(event)]
  }

  function TryReceiveActions(k: Kernel, event: nat, owner: nat, async: bool, j: nat): seq<Action> {
    var q := Find(k, owner);
    if q >= |k.queues| then []
    else if Q.AllDelayed(k.queues[q].msgs) then
      if async || j != k.runningTid then []
      else [NoteResult(EMPTY)] + WaitActions(k, event, 0) + [Yield(InReceive(owner))]
    else [Signal(event)]
  }

  function ContinueActions(k: Kernel, j: nat): seq<Action>
    requires k.runningTid < |k.tasks|
  {
    var t := k.tasks[k.runningTid];
    match t.resume
    case InPost(dest, m, delay, period) =>
      if t.msgResult == FULL then TryPostActions(k, t.msgChangeEvent, dest, m, delay, period, false, j)
      else if t.msgResult == POSTED then [Signal(t.msgChangeEvent)]
      else []
    case InReceive(owner) =>
      if t.msgResult == EMPTY then TryReceiveActions(k, t.msgChangeEvent, owner, false, j)
      else if t.msgResult == RECEIVED then [Signal(t.msgChangeEvent)]
      else []
    case _ => []
  }

  function GiveActions(k: Kernel, s: nat, j: nat): seq<Action>
    requires Sized(k)
  {
    if Waiting(k.tasks, s) && j == ReleaseTarget(k, s) then [Grant] else []
  }

  /** What a step does to task j. */
  function ActionsOf(k: Kernel, op: Op, j: nat): seq<Action>
    requires Sized(k) && Legal(k, op)
  {
    var own := j == k.runningTid;
    match op
    case Dispatch => if Select(k) == NO_TID then [] else ContinueActions(Dispatched(k), j)
    case TaskWait(clock, ticks) => if own then [WaitTime(clock, ticks), Yield(After)] else []
    case EventWait(e, timeout) => if own then WaitActions(k, e, timeout) + [Yield(After)] else []
    case EventWaitMultiple(all, es) => if own then [WaitMultiple(all, es), Yield(After)] else []
    case EventSignal(e) => [Signal(e)] + (if own then [Yield(After)] else [])
    case SemWait(s) => if own && k.sems[s].value == 0 then [WaitSem(s), Yield(AfterSem(s))] else []
    case SemSignal(s) => GiveActions(k, s, j) + (if own && Waiting(k.tasks, s) then [Yield(After)] else [])
    case MsgPost(dest, m, delay, period, async) =>
      var event := ChangeEvent(k, Find(k, dest));
      (if own then [NoteEvent(event)] else []) + TryPostActions(Noted(k, dest), event, dest, m, delay, period, async, j)
    case MsgReceive(owner, async) =>
      var event := ChangeEvent(k, Find(k, owner));
      (if own then [NoteEvent(event)] else []) + TryReceiveActions(Noted(k, owner), event, owner, async, j)
    case SuspendTask(tid) => if j != tid then [] else [Suspend] + (if own then [Yield(After)] else [])
    case ResumeTask(tid) => if j != tid then [] else [Resume] + (if own then [Yield(After)] else [])
    case KillTask(tid) => if j == tid then [Kill] else []
    case TaskClose => if own then [Kill] else []
    case Tick => TickActions(k, 0, 1, |k.tasks|, j)
    case SubTick(id, n) => if id != 0 then TickActions(k, id, n, |k.tasks|, j) else []
    case IsrSignal(e) => [Signal(e)]
    case IsrSemSignal(s) => GiveActions(k, s, j)
    case _ => []
  }

  lemma TryPostProjects(k: Kernel, event: nat, dest: nat, m: Msg, delay: uint32, period: uint32, async: bool, j: nat)
    requires Sized(k) && k.runningTid != NO_TID && (Find(k, dest) < |k.queues| ==> event < |k.signaledBy|)
    requires j < |k.tasks|
    ensures TryPost(k, event, dest, m, delay, period, async).tasks[j] ==
            DoAll(k.tasks[j], TryPostActions(k, event, dest, m, delay, period, async, j))
  {
    DoAllOne(k.tasks[j], Signal(event));
  }

  lemma TryReceiveProjects(k: Kernel, event: nat, owner: nat, async: bool, j: nat)
    requires Sized(k) && k.runningTid != NO_TID && (Find(k, owner) < |k.queues| ==> event < |k.signaledBy|)
    requires j < |k.tasks|
    ensures TryReceive(k, event, owner, async).tasks[j] ==
            DoAll(k.tasks[j], TryReceiveActions(k, event, owner, async, j))
  {
    DoAllOne(k.tasks[j], Signal(event));
  }

  lemma ContinueProjects(k: Kernel, j: nat)
    requires Sized(k) && k.runningTid != NO_TID
    requires Retrying(k.tasks[k.runningTid]) ==> k.tasks[k.runningTid].msgChangeEvent < |k.signaledBy|
    requires j < |k.tasks|
    ensures Continue(k).tasks[j] == DoAll(k.tasks[j], ContinueActions(k, j))
  {
    var t := k.tasks[k.runningTid];
    DoAllOne(k.tasks[j], Signal(t.msgChangeEvent));
    match t.resume
    case InPost(dest, m, delay, period) =>
      if t.msgResult == FULL {
        TryPostProjects(k, t.msgChangeEvent, dest, m, delay, period, false, j);
      }
    case InReceive(owner) =>
      if t.msgResult == EMPTY {
        TryReceiveProjects(k, t.msgChangeEvent, owner, false, j);
      }
    case _ =>
  }

  lemma GiveProjects(k: Kernel, s: nat, j: nat)
    requires Sized(k) && s < |k.sems| && j < |k.tasks|
    ensures Give(k, s).tasks[j] == DoAll(k.tasks[j], GiveActions(k, s, j))
  {
    DoAllOne(k.tasks[j], Grant);
  }

  lemma QueueCallProjects(k: Kernel, op: Op, j: nat)
    requires Sized(k) && EventsKnown(k) && Legal(k, op) && j < |k.tasks|
    requires op.MsgPost? || op.MsgReceive?
    ensures Step(k, op).tasks[j] == DoAll(k.tasks[j], ActionsOf(k, op, j))
  {
    var owner := if op.MsgPost? then op.dest else op.owner;
    var event := ChangeEvent(k, Find(k, owner));
    var n := Noted(k, owner);
    var first := if j == k.runningTid then [NoteEvent(event)] else [];
    DoAllOne(k.tasks[j], NoteEvent(event));
    assert n.tasks[j] == DoAll(k.tasks[j], first);
    if op.MsgPost? {
      TryPostProjects(n, event, op.dest, op.msg, op.delay, op.period, op.async, j);
      DoAllConcat(k.tasks[j], first, TryPostActions(n, event, op.dest, op.msg, op.delay, op.period, op.async, j));
    } else {
      TryReceiveProjects(n, event, op.owner, op.async, j);
      DoAllConcat(k.tasks[j], first, TryReceiveActions(n, event, op.owner, op.async, j));
    }
  }

  lemma YieldingCallProjects(k: Kernel, op: Op, j: nat)
    requires Sized(k) && EventsKnown(k) && Legal(k, op) && j < |k.tasks|
    requires op.EventSignal? || op.SuspendTask? || op.ResumeTask?
    ensures Step(k, op).tasks[j] == DoAll(k.tasks[j], ActionsOf(k, op, j))
  {
    var a := if op.EventSignal? then Signal(op.e) else if op.SuspendTask? then Suspend else Resume;
    DoAllOne(k.tasks[j], a);
    DoAllOne(Do(k.tasks[j], a), Yield(After));
    DoAllConcat(k.tasks[j], [a], [Yield(After)]);
    assert [a] + [] == [a];
  }

  lemma SemSignalProjects(k: Kernel, op: Op, j: nat)
    requires Sized(k) && EventsKnown(k) && Legal(k, op) && j < |k.tasks|
    requires op.SemSignal?
    ensures Step(k, op).tasks[j] == DoAll(k.tasks[j], ActionsOf(k, op, j))
  {
    var given := GiveActions(k, op.s, j);
    GiveProjects(k, op.s, j);
    DoAllOne(Give(k, op.s).tasks[j], Yield(After));
    DoAllConcat(k.tasks[j], given, [Yield(After)]);
    assert given + [] == given;
  }

  /** Every step acts on a task by the actions ActionsOf names, and by nothing else. */
  lemma StepProjects(k: Kernel, op: Op, j: nat)
    requires Sized(k) && Owned(k) && EventsKnown(k) && Legal(k, op) && j < |k.tasks|
    ensures j < |Step(k, op).tasks|
    ensures Step(k, op).tasks[j] == DoAll(k.tasks[j], ActionsOf(k, op, j))
  {
    if op.Dispatch? {
      ReadyIsSelected(k);
      if Select(k) != NO_TID {
        ContinueProjects(Dispatched(k), j);
      }
    } else if op.MsgPost? || op.MsgReceive? {
      QueueCallProjects(k, op, j);
    } else if op.EventSignal? || op.SuspendTask? || op.ResumeTask? {
      YieldingCallProjects(k, op, j);
    } else if op.SemSignal? {
      SemSignalProjects(k, op, j);
    } else if op.IsrSemSignal? {
      GiveProjects(k, op.s, j);
    } else if op.Tick? {
      TickProjects(k, 0, 1, |k.tasks|, j);
    } else if op.SubTick? {
      TickProjects(k, op.id, op.n, |k.tasks|, j);
    } else {
      PlainStepProjects(k, op, j);
    }
  }

  lemma PlainStepProjects(k: Kernel, op: Op, j: nat)
    requires Sized(k) && EventsKnown(k) && Legal(k, op) && j < |k.tasks|
    requires SetUp(op) || op.TaskWait? || op.EventWait? || op.EventWaitMultiple? || op.SemWait? || op.KillTask?
          || op.TaskClose? || op.IsrSignal?
    ensures j < |Step(k, op).tasks|
    ensures Step(k, op).tasks[j] == DoAll(k.tasks[j], ActionsOf(k, op, j))
  {
    DoAllOne(k.tasks[j], Kill);
    if op.IsrSignal? {
      DoAllOne(k.tasks[j], Signal(op.e));
    } else if op.TaskWait? {
      assert [WaitTime(op.clock, op.ticks)] + [Yield(After)] == [WaitTime(op.clock, op.ticks), Yield(After)];
    } else if op.EventWaitMultiple? {
      assert [WaitMultiple(op.all, op.es)] + [Yield(After)] == [WaitMultiple(op.all, op.es), Yield(After)];
    } else if op.SemWait? {
      assert [WaitSem(op.s)] + [Yield(AfterSem(op.s))] == [WaitSem(op.s), Yield(AfterSem(op.s))];
    }
  }
}
