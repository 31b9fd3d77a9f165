// What holds in every state that any run of the kernel can reach.
module Invariant {
  import opened Types
  import opened TaskSpec
  import opened TaskLife
  import opened KernelSpec
  import opened Steps
  import opened Projection
  import opened QueueProjection
  import Q = QueueSpec

  /** The task whose queue a retrying task waits for. */
  function Partner(t: Task): nat
    requires Retrying(t)
  {
    if t.resume.InPost? then t.resume.dest else t.resume.owner
  }

  /** A task that stopped in a queue macro remembers why and on which event, and while it is
      blocked it waits for that event alone. */
  ghost predicate Parked(k: Kernel, t: Task) {
    Retrying(t) && t.state != KILLED ==>
      && Find(k, Partner(t)) < |k.queues|
      && t.msgChangeEvent == k.queues[Find(k, Partner(t))].change
      && t.msgResult == (if t.resume.InPost? then FULL else EMPTY)
      && (EffectiveState(t) == READY || BlockedOn(t, t.msgChangeEvent))
  }

  /** A task waits for a semaphore at the resume point behind that wait, and gets past it only
      by being ready. */
  ghost predicate Gated(k: Kernel, t: Task) {
    t.state != KILLED ==>
      && (t.state == WAITING_SEM ==> t.resume == AfterSem(t.semaphore))
      && (t.resume.AfterSem? ==>
            && t.resume.sem < |k.sems|
            && (EffectiveState(t) == READY || (t.state == WAITING_SEM && t.semaphore == t.resume.sem)))
  }

  /** A task waits for a semaphore only while the semaphore's value is zero. */
  ghost predicate NoIdleWaiter(k: Kernel) {
    forall i | 0 <= i < |k.tasks| && k.tasks[i].state == WAITING_SEM ::
      k.tasks[i].semaphore < |k.sems| && k.sems[k.tasks[i].semaphore].value == 0
  }

  ghost predicate Tables(k: Kernel) {
    && Sized(k) && Owned(k)
    && |k.tasks| <= k.cfg.nTasks < NO_TID && |k.queues| <= k.cfg.nQueues < NO_QUEUE
    && (forall q | 0 <= q < |k.queues| :: |k.queues[q].msgs| <= k.queues[q].cap && k.queues[q].cap > 0)
  }

  ghost predicate TasksSound(k: Kernel) {
    forall i | 0 <= i < |k.tasks| :: Sound(k.tasks[i])
  }

  ghost predicate TasksParked(k: Kernel) {
    forall i | 0 <= i < |k.tasks| && i != k.runningTid :: Parked(k, k.tasks[i]) && Gated(k, k.tasks[i])
  }

  ghost predicate RunningAwake(k: Kernel) {
    k.runningTid != NO_TID ==> k.runningTid < |k.tasks| && Awake(k.tasks[k.runningTid])
  }

  ghost predicate Inv(k: Kernel) {
    Tables(k) && TasksSound(k) && TasksParked(k) && RunningAwake(k) && NoIdleWaiter(k)
  }

  lemma InvKnowsEvents(k: Kernel)
    requires Inv(k)
    ensures EventsKnown(k)
  {
    forall i | 0 <= i < |k.tasks| && i != k.runningTid && k.tasks[i].state == READY && Retrying(k.tasks[i])
      ensures k.tasks[i].msgChangeEvent < |k.signaledBy|
    {
      assert Parked(k, k.tasks[i]);
    }
  }

  lemma {:induction false} FindSame(qs: seq<Q.Queue>, rs: seq<Q.Queue>, owner: nat, q: nat)
    requires q <= |qs| == |rs| && forall p | 0 <= p < |qs| :: rs[p].owner == qs[p].owner
    ensures FindFrom(rs, owner, q) == FindFrom(qs, owner, q)
    decreases |qs| - q
  {
    if q < |qs| {
      FindSame(qs, rs, owner, q + 1);
    }
  }

  /** A task that keeps being parked does so whatever else happens to the kernel. */
  lemma ParkedSame(k: Kernel, r: Kernel, t: Task)
    requires SameShape(k, r) && Parked(k, t)
    ensures Parked(r, t)
  {
    if Retrying(t) {
      FindSame(k.queues, r.queues, Partner(t), 0);
    }
  }

  // ----- Structure ---------------------------------------------------------------------

  lemma QueueCallShape(k: Kernel, op: Op)
    requires Sized(k) && EventsKnown(k) && Legal(k, op) && (op.MsgPost? || op.MsgReceive?)
    ensures Sized(Step(k, op)) && SameShape(k, Step(k, op))
  {
    SameShapeTransitive(k, Noted(k, if op.MsgPost? then op.dest else op.owner), Step(k, op));
  }

  lemma DispatchShape(k: Kernel)
    requires Sized(k) && EventsKnown(k) && Legal(k, Dispatch)
    ensures Sized(Step(k, Dispatch)) && SameShape(k, Step(k, Dispatch))
  {
    ReadyIsSelected(k);
    if Select(k) != NO_TID {
      SameShapeTransitive(k, Dispatched(k), Continue(Dispatched(k)));
    }
  }

  lemma YieldingShape(k: Kernel, op: Op)
    requires Sized(k) && EventsKnown(k) && Legal(k, op)
    requires op.EventSignal? || op.SuspendTask? || op.ResumeTask? || op.SemSignal?
    ensures Sized(Step(k, op)) && SameShape(k, Step(k, op))
  {
    var m := if op.EventSignal? then SignalFrom(k, op.e, k.runningTid)
             else if op.SuspendTask? then On(k, op.tid, [Suspend])
             else if op.ResumeTask? then On(k, op.tid, [Resume])
             else Give(k, op.s);
    if m != Step(k, op) {
      var y := On(m, m.runningTid, [Yield(After)]);
      SameShapeTransitive(k, m, y);
    }
  }

  /** Running the kernel creates and deletes nothing. */
  lemma StepShape(k: Kernel, op: Op)
    requires Sized(k) && EventsKnown(k) && Legal(k, op) && !SetUp(op)
    ensures Sized(Step(k, op)) && SameShape(k, Step(k, op))
  {
    if op.Dispatch? {
      DispatchShape(k);
    } else if op.MsgPost? || op.MsgReceive? {
      QueueCallShape(k, op);
    } else if op.EventSignal? || op.SuspendTask? || op.ResumeTask? || op.SemSignal? {
      YieldingShape(k, op);
    }
  }

  // ----- Who runs, and what it does to itself ------------------------------------------

  /** The task a step runs. */
  function Runner(k: Kernel, op: Op): nat
    requires Sized(k) && Legal(k, op)
  {
    if op.Dispatch? then Select(k) else k.runningTid
  }

  lemma TickIsForeign(k: Kernel, clock: uint8, size: uint32, j: nat)
    requires Sized(k) && j < |k.tasks|
    ensures AllPassive(TickActions(k, clock, size, |k.tasks|, j))
  {
    TickActionsAre(k, clock, size, |k.tasks|, j);
  }

  lemma SignalIsForeign(e: nat)
    ensures AllPassive([Signal(e)]) && AllPassive([])
  {
  }

  lemma QueueCallIsForeign(k: Kernel, op: Op, j: nat)
    requires Sized(k) && Legal(k, op) && (op.MsgPost? || op.MsgReceive?) && j != k.runningTid
    ensures AllPassive(ActionsOf(k, op, j))
  {
    var event := ChangeEvent(k, Find(k, if op.MsgPost? then op.dest else op.owner));
    SignalIsForeign(event);
    assert [] + [Signal(event)] == [Signal(event)];
  }

  lemma DispatchIsForeign(k: Kernel, j: nat)
    requires Sized(k) && Legal(k, Dispatch) && j != Select(k)
    ensures AllPassive(ActionsOf(k, Dispatch, j))
  {
    var d := Dispatched(k);
    if Select(k) != NO_TID {
      SignalIsForeign(d.tasks[d.runningTid].msgChangeEvent);
    }
  }

  /** A step acts on every task but the one it runs from outside, and without a suspend or
      kill unless it is one for that task. */
  lemma OthersActForeign(k: Kernel, op: Op, j: nat)
    requires Sized(k) && EventsKnown(k) && Legal(k, op) && j < |k.tasks| && j != Runner(k, op)
    ensures AllForeign(ActionsOf(k, op, j))
    ensures op != SuspendTask(j) && op != KillTask(j) ==> AllPassive(ActionsOf(k, op, j))
  {
    if op.Tick? {
      TickIsForeign(k, 0, 1, j);
    } else if op.SubTick? && op.id != 0 {
      TickIsForeign(k, op.id, op.n, j);
    } else if op.Dispatch? {
      DispatchIsForeign(k, j);
    } else if op.MsgPost? || op.MsgReceive? {
      QueueCallIsForeign(k, op, j);
    }
  }

  // ----- The running task --------------------------------------------------------------

  /** What the runner of a step leaves behind: sound, and either still running and awake, or
      parked and gated. */
  ghost predicate LeftWell(r: Kernel, tid: nat) {
    && tid < |r.tasks| && Sound(r.tasks[tid])
    && (r.runningTid == tid || r.runningTid == NO_TID)
    && (if r.runningTid == tid then Awake(r.tasks[tid]) else Parked(r, r.tasks[tid]) && Gated(r, r.tasks[tid]))
  }

  /** Waiting for something by oneself, then leaving the processor. */
  lemma WaitAndYield(t: Task, a: Action, at: ResumePoint)
    requires Sound(t) && Allowed(t, a)
    ensures var u := DoAll(t, [a, Yield(at)]); Sound(u) && u == Do(t, a).(resume := at)
  {
    SoundNext(t, a);
    SoundNext(Do(t, a), Yield(at));
    assert [a, Yield(at)] == [a] + [Yield(at)];
    DoAllConcat(t, [a], [Yield(at)]);
    DoAllOne(t, a);
    DoAllOne(Do(t, a), Yield(at));
  }

  lemma YieldedWell(r: Kernel, tid: nat, t: Task)
    requires tid < |r.tasks| && tid != NO_TID && r.runningTid == NO_TID
    requires r.tasks[tid] == t && Sound(t) && t.resume == After && t.state != WAITING_SEM
    ensures LeftWell(r, tid)
  {
  }

  /** What the running task does to itself before it leaves the processor in a plain wait. */
  function SelfWait(k: Kernel, op: Op): seq<Action>
    requires Legal(k, op) && (op.TaskWait? || op.EventWait? || op.EventWaitMultiple? || op.SemWait?)
  {
    match op
    case TaskWait(clock, ticks) => [WaitTime(clock, ticks)]
    case EventWait(e, timeout) => WaitActions(k, e, timeout)
    case EventWaitMultiple(all, es) => [WaitMultiple(all, es)]
    case SemWait(s) => [WaitSem(s)]
  }

  /** Where it will resume. */
  function SelfResume(op: Op): ResumePoint {
    if op.SemWait? then AfterSem(op.s) else After
  }

  /** The task that takes these actions and then leaves the processor. */
  lemma SelfWaitTask(t: Task, acts: seq<Action>, at: ResumePoint)
    requires Sound(t) && |acts| <= 1 && (acts != [] ==> Allowed(t, acts[0]))
    ensures var u := DoAll(t, acts + [Yield(at)]);
            Sound(u) && u == (if acts == [] then t else Do(t, acts[0])).(resume := at)
  {
    if acts == [] {
      assert acts + [Yield(at)] == [Yield(at)];
      DoAllOne(t, Yield(at));
      SoundNext(t, Yield(at));
    } else {
      assert acts + [Yield(at)] == [acts[0], Yield(at)];
      WaitAndYield(t, acts[0], at);
    }
  }

  lemma SemWaitLeavesWell(k: Kernel, s: nat)
    requires Inv(k) && EventsKnown(k) && Legal(k, SemWait(s))
    ensures LeftWell(Step(k, SemWait(s)), k.runningTid)
  {
    var t := k.tasks[k.runningTid];
    assert Sound(t);
    SelfWaitTask(t, [WaitSem(s)], AfterSem(s));
  }

  lemma OwnWaitLeavesWell(m: Kernel, acts: seq<Action>)
    requires Sized(m) && m.runningTid < |m.tasks| && Sound(m.tasks[m.runningTid]) && Awake(m.tasks[m.runningTid])
    requires |acts| <= 1 && (acts != [] ==> Allowed(m.tasks[m.runningTid], acts[0]) && OwnWait(acts[0]) && !acts[0].WaitSem?)
    ensures LeftWell(OwnAndYield(m, acts, After), m.runningTid)
  {
    var t := m.tasks[m.runningTid];
    SelfWaitTask(t, acts, After);
    var u := DoAll(t, acts + [Yield(After)]);
    assert u.state != WAITING_SEM && u.resume == After;
    hide DoAll, Sound, SameShape, LeftWell, Awake, Allowed;
    YieldedWell(OwnAndYield(m, acts, After), m.runningTid, u);
  }

  lemma SelfWaitLeavesWell(k: Kernel, op: Op)
    requires Inv(k) && EventsKnown(k) && Legal(k, op)
    requires op.TaskWait? || op.EventWait? || op.EventWaitMultiple?
    ensures LeftWell(Step(k, op), k.runningTid)
  {
    var m := if op.EventWait? then Forget(k, op.e) else k;
    assert Sound(k.tasks[k.runningTid]) && Awake(k.tasks[k.runningTid]) && m.tasks == k.tasks;
    hide Inv, Sound, Awake, LeftWell, OwnAndYield, SameShape;
    OwnWaitLeavesWell(m, SelfWait(k, op));
  }

  /** The task blocked by Block. */
  function BlockedTask(t: Task, result: QueueResult, e: nat, at: ResumePoint): Task {
    Do(Do(Do(t, NoteResult(result)), WaitEvent(e, 0)), Yield(at))
  }

  lemma BlockIs(t: Task, k: Kernel, result: QueueResult, e: nat, at: ResumePoint)
    requires Awake(t) && Sound(t) && e < k.nEvents
    ensures DoAll(t, [NoteResult(result)] + WaitActions(k, e, 0) + [Yield(at)]) == BlockedTask(t, result, e, at)
    ensures Sound(BlockedTask(t, result, e, at)) && BlockedOn(BlockedTask(t, result, e, at), e)
  {
    var a, b := Do(t, NoteResult(result)), Do(Do(t, NoteResult(result)), WaitEvent(e, 0));
    assert t.waits == {};
    assert b.waits == {e};
    SoundNext(t, NoteResult(result));
    SoundNext(a, WaitEvent(e, 0));
    SoundNext(b, Yield(at));
    DoAllOne(t, NoteResult(result));
    DoAllOne(a, WaitEvent(e, 0));
    DoAllOne(b, Yield(at));
    DoAllConcat(t, [NoteResult(result)], WaitActions(k, e, 0));
    DoAllConcat(t, [NoteResult(result)] + WaitActions(k, e, 0), [Yield(at)]);
  }

  /** The blocking branch of either macro. */
  lemma BlockLeavesWell(k: Kernel, event: nat, result: QueueResult, owner: nat, at: ResumePoint)
    requires Sized(k) && k.runningTid != NO_TID
    requires Find(k, owner) < |k.queues| && event == k.queues[Find(k, owner)].change
    requires var t := k.tasks[k.runningTid]; Awake(t) && Sound(t) && t.msgChangeEvent == event
    requires (at.InPost? && at.dest == owner && result == FULL) || (at.InReceive? && at.owner == owner && result == EMPTY)
    ensures LeftWell(Block(k, event, result, at), k.runningTid)
  {
    var tid, t := k.runningTid, k.tasks[k.runningTid];
    var r := Block(k, event, result, at);
    BlockIs(t, k, result, event, at);
    assert r.tasks[tid] == BlockedTask(t, result, event, at);
    hide DoAll, Sound;
    FindSame(k.queues, r.queues, owner, 0);
  }

  lemma StillRunningWell(r: Kernel, tid: nat, t: Task)
    requires tid < |r.tasks| && Awake(t) && Sound(t) && r.runningTid == tid
    requires r.tasks[tid] == t || (exists e :: r.tasks[tid] == Do(t, Signal(e)))
    ensures LeftWell(r, tid)
  {
  }

  lemma TryPostLeavesWell(k: Kernel, event: nat, dest: nat, m: Msg, delay: uint32, period: uint32, async: bool)
    requires Sized(k) && k.runningTid != NO_TID
    requires Find(k, dest) < |k.queues| ==> event == k.queues[Find(k, dest)].change
    requires var t := k.tasks[k.runningTid]; Awake(t) && Sound(t) && t.msgChangeEvent == event
    ensures LeftWell(TryPost(k, event, dest, m, delay, period, async), k.runningTid)
  {
    var tid, q, t := k.runningTid, Find(k, dest), k.tasks[k.runningTid];
    if q < |k.queues| && Q.Full(k.queues[q]) && !async {
      BlockLeavesWell(k, event, FULL, dest, InPost(dest, Stamped(m, delay, period), delay, period));
    } else {
      var r := TryPost(k, event, dest, m, delay, period, async);
      assert r.tasks[tid] == t || r.tasks[tid] == Do(t, Signal(event));
      StillRunningWell(r, tid, t);
    }
  }

  lemma TryReceiveLeavesWell(k: Kernel, event: nat, owner: nat, async: bool)
    requires Sized(k) && k.runningTid != NO_TID
    requires Find(k, owner) < |k.queues| ==> event == k.queues[Find(k, owner)].change
    requires var t := k.tasks[k.runningTid]; Awake(t) && Sound(t) && t.msgChangeEvent == event
    ensures LeftWell(TryReceive(k, event, owner, async), k.runningTid)
  {
    var tid, q, t := k.runningTid, Find(k, owner), k.tasks[k.runningTid];
    if q < |k.queues| && Q.AllDelayed(k.queues[q].msgs) && !async {
      BlockLeavesWell(k, event, EMPTY, owner, InReceive(owner));
    } else {
      var r := TryReceive(k, event, owner, async);
      assert r.tasks[tid] == t || r.tasks[tid] == Do(t, Signal(event));
      StillRunningWell(r, tid, t);
    }
  }

  lemma NotedIsWell(k: Kernel, owner: nat)
    requires Inv(k) && k.runningTid != NO_TID
    ensures var n, t := Noted(k, owner), Noted(k, owner).tasks[k.runningTid];
            && Awake(t) && Sound(t) && t.msgChangeEvent == ChangeEvent(k, Find(k, owner))
            && Find(n, owner) == Find(k, owner)
            && (Find(n, owner) < |n.queues| ==> t.msgChangeEvent == n.queues[Find(n, owner)].change)
  {
    var event, t := ChangeEvent(k, Find(k, owner)), k.tasks[k.runningTid];
    DoAllOne(t, NoteEvent(event));
    SoundNext(t, NoteEvent(event));
    FindSame(k.queues, Noted(k, owner).queues, owner, 0);
  }

  lemma QueueCallLeavesWell(k: Kernel, op: Op)
    requires Inv(k) && EventsKnown(k) && Legal(k, op) && (op.MsgPost? || op.MsgReceive?)
    ensures LeftWell(Step(k, op), k.runningTid)
  {
    var owner := if op.MsgPost? then op.dest else op.owner;
    var n, event := Noted(k, owner), ChangeEvent(k, Find(k, owner));
    NotedIsWell(k, owner);
    assert n.runningTid == k.runningTid;
    hide Noted, Inv, LeftWell, TryPost, TryReceive, SameShape, Awake, Sound;
    if op.MsgPost? {
      TryPostLeavesWell(n, event, owner, op.msg, op.delay, op.period, op.async);
    } else {
      TryReceiveLeavesWell(n, event, owner, op.async);
    }
  }

  lemma DispatchLeavesWell(k: Kernel)
    requires Inv(k) && EventsKnown(k) && Legal(k, Dispatch) && Select(k) != NO_TID
    ensures LeftWell(Step(k, Dispatch), Select(k))
  {
    ReadyIsSelected(k);
    var d := Dispatched(k);
    var t := d.tasks[d.runningTid];
    assert Parked(k, t);
    if Retrying(t) {
      ParkedSame(k, d, t);
      FindSame(k.queues, d.queues, Partner(t), 0);
      match t.resume
      case InPost(dest, m, delay, period) => TryPostLeavesWell(d, t.msgChangeEvent, dest, m, delay, period, false);
      case InReceive(owner) => TryReceiveLeavesWell(d, t.msgChangeEvent, owner, false);
    }
  }

  /** The running task leaves the processor after a call that left it t. */
  lemma YieldTaskLeavesWell(m: Kernel, tid: nat, t: Task)
    requires Sized(m) && tid == m.runningTid < |m.tasks| && m.tasks[tid] == t && Sound(t) && t.state != WAITING_SEM
    ensures LeftWell(YieldTask(m), tid)
  {
    DoAllOne(t, Yield(After));
    SoundNext(t, Yield(After));
    YieldedWell(YieldTask(m), tid, Do(t, Yield(After)));
  }

  lemma EventSignalLeavesWell(k: Kernel, op: Op)
    requires Inv(k) && EventsKnown(k) && Legal(k, op) && op.EventSignal?
    ensures LeftWell(Step(k, op), k.runningTid)
  {
    var tid := k.runningTid;
    YieldTaskLeavesWell(SignalFrom(k, op.e, tid), tid, k.tasks[tid]);
  }

  lemma SemSignalLeavesWell(k: Kernel, op: Op)
    requires Inv(k) && EventsKnown(k) && Legal(k, op) && op.SemSignal?
    ensures LeftWell(Step(k, op), k.runningTid)
  {
    var tid, t := k.runningTid, k.tasks[k.runningTid];
    DoAllOne(t, Grant);
    assert Give(k, op.s).tasks[tid] == t;
    if Waiting(k.tasks, op.s) {
      YieldTaskLeavesWell(Give(k, op.s), tid, t);
    } else {
      StillRunningWell(Step(k, op), tid, t);
    }
  }

  lemma SuspendLeavesWell(k: Kernel, op: Op)
    requires Inv(k) && EventsKnown(k) && Legal(k, op) && (op.SuspendTask? || op.ResumeTask?)
    ensures LeftWell(Step(k, op), k.runningTid)
  {
    var tid, t := k.runningTid, k.tasks[k.runningTid];
    var a := if op.SuspendTask? then Suspend else Resume;
    if op.tid != tid {
      StillRunningWell(Step(k, op), tid, t);
    } else {
      DoAllOne(t, a);
      SoundNext(t, a);
      YieldTaskLeavesWell(On(k, tid, [a]), tid, Do(t, a));
    }
  }

  lemma KillLeavesWell(k: Kernel, op: Op)
    requires Inv(k) && EventsKnown(k) && Legal(k, op) && (op.KillTask? || op.TaskClose?)
    ensures LeftWell(Step(k, op), k.runningTid)
  {
    var t := k.tasks[k.runningTid];
    DoAllOne(t, Kill);
    SoundNext(t, Kill);
  }

  lemma InterruptLeavesWell(k: Kernel, op: Op)
    requires Inv(k) && EventsKnown(k) && Legal(k, op) && k.runningTid != NO_TID
    requires op.Tick? || op.SubTick? || op.IsrSignal? || op.IsrSemSignal?
    ensures LeftWell(Step(k, op), k.runningTid)
  {
    var tid, t := k.runningTid, k.tasks[k.runningTid];
    assert Sound(t);
    StepProjects(k, op, tid);
    if op.Tick? {
      TickIsForeign(k, 0, 1, tid);
    } else if op.SubTick? && op.id != 0 {
      TickIsForeign(k, op.id, op.n, tid);
    }
    PassiveLeavesAwake(t, ActionsOf(k, op, tid));
    StillRunningWell(Step(k, op), tid, t);
  }

  lemma RunnerLeavesWell(k: Kernel, op: Op)
    requires Inv(k) && EventsKnown(k) && Legal(k, op) && !SetUp(op) && Runner(k, op) != NO_TID
    ensures LeftWell(Step(k, op), Runner(k, op))
  {
    if op.Dispatch? {
      DispatchLeavesWell(k);
    } else if op.SemWait? {
      SemWaitLeavesWell(k, op.s);
    } else if op.TaskWait? || op.EventWait? || op.EventWaitMultiple? {
      SelfWaitLeavesWell(k, op);
    } else if op.MsgPost? || op.MsgReceive? {
      QueueCallLeavesWell(k, op);
    } else if op.EventSignal? {
      EventSignalLeavesWell(k, op);
    } else if op.SemSignal? {
      SemSignalLeavesWell(k, op);
    } else if op.SuspendTask? || op.ResumeTask? {
      SuspendLeavesWell(k, op);
    } else if op.KillTask? || op.TaskClose? {
      KillLeavesWell(k, op);
    } else {
      InterruptLeavesWell(k, op);
    }
  }

  // ----- The other tasks ---------------------------------------------------------------

  lemma ParkedNext(k: Kernel, t: Task, a: Action)
    requires Sound(t) && Parked(k, t) && Gated(k, t) && Foreign(a)
    ensures Parked(k, Do(t, a)) && Gated(k, Do(t, a))
  {
  }

  lemma {:induction false} ParkedAfter(k: Kernel, t: Task, acts: seq<Action>)
    requires Sound(t) && Parked(k, t) && Gated(k, t) && AllForeign(acts)
    ensures Parked(k, DoAll(t, acts)) && Gated(k, DoAll(t, acts))
    decreases |acts|
  {
    if acts != [] {
      assert Foreign(acts[0]) && forall a | a in acts[1..] :: a in acts;
      SoundNext(t, acts[0]);
      ParkedNext(k, t, acts[0]);
      ParkedAfter(k, Do(t, acts[0]), acts[1..]);
    }
  }

  lemma OtherStaysWell(k: Kernel, op: Op, j: nat)
    requires Inv(k) && EventsKnown(k) && Legal(k, op) && !SetUp(op)
    requires j < |k.tasks| && j != Runner(k, op)
    ensures j < |Step(k, op).tasks|
    ensures var u := Step(k, op).tasks[j]; Sound(u) && Parked(Step(k, op), u) && Gated(Step(k, op), u)
  {
    var t, acts := k.tasks[j], ActionsOf(k, op, j);
    StepProjects(k, op, j);
    OthersActForeign(k, op, j);
    ForeignIsAllowed(t, acts);
    SoundAfter(t, acts);
    StepShape(k, op);
    assert j != k.runningTid by {
      if op.Dispatch? {
        assert k.runningTid == NO_TID;
      }
    }
    assert Parked(k, t);
    ParkedAfter(k, t, acts);
    ParkedSame(k, Step(k, op), DoAll(t, acts));
  }

  lemma StepKeepsTasks(k: Kernel, op: Op)
    requires Inv(k) && EventsKnown(k) && Legal(k, op) && !SetUp(op)
    ensures var r := Step(k, op); TasksSound(r) && TasksParked(r) && RunningAwake(r)
  {
    var r, runner := Step(k, op), Runner(k, op);
    StepShape(k, op);
    if runner != NO_TID {
      RunnerLeavesWell(k, op);
    }
    forall j | 0 <= j < |r.tasks|
      ensures Sound(r.tasks[j]) && (j != r.runningTid ==> Parked(r, r.tasks[j]) && Gated(r, r.tasks[j]))
    {
      if j != runner {
        OtherStaysWell(k, op, j);
      }
    }
    if runner == NO_TID {
      IdleStaysIdle(k, op);
    }
  }

  lemma IdleStaysIdle(k: Kernel, op: Op)
    requires Inv(k) && EventsKnown(k) && Legal(k, op) && !SetUp(op) && Runner(k, op) == NO_TID
    ensures Step(k, op).runningTid == NO_TID
  {
  }

  // ----- Queues ------------------------------------------------------------------------

  lemma {:induction false} StepsWithinCapacity(s: Q.Queue, ops: seq<Q.QueueOp>)
    requires |s.msgs| <= s.cap
    ensures Q.Steps(s, ops) == s.(msgs := Q.Steps(s, ops).msgs) && |Q.Steps(s, ops).msgs| <= s.cap
    decreases |ops|
  {
    if ops != [] {
      StepsWithinCapacity(Q.Step(s, ops[0]), ops[1..]);
    }
  }

  lemma StepKeepsTables(k: Kernel, op: Op)
    requires Inv(k) && EventsKnown(k) && Legal(k, op) && !SetUp(op)
    ensures Tables(Step(k, op))
  {
    var r := Step(k, op);
    StepShape(k, op);
    SameShapeOwned(k, r);
    forall q | 0 <= q < |r.queues|
      ensures |r.queues[q].msgs| <= r.queues[q].cap && r.queues[q].cap > 0
    {
      QueueProjects(k, op, q);
      StepsWithinCapacity(k.queues[q], QueueOpsOf(k, op, q));
    }
  }

  // ----- Semaphores --------------------------------------------------------------------

  predicate NoSemWait(acts: seq<Action>) {
    forall a | a in acts :: !a.WaitSem?
  }

  /** Nothing but a semaphore wait of its own makes a task wait for a semaphore. */
  lemma {:induction false} OnlySemWaitWaits(t: Task, acts: seq<Action>)
    requires NoSemWait(acts) && (t.state == SUSPENDED ==> t.savedState != WAITING_SEM)
    ensures var u := DoAll(t, acts);
            u.state == WAITING_SEM ==> t.state == WAITING_SEM && u.semaphore == t.semaphore
    decreases |acts|
  {
    if acts != [] {
      assert !acts[0].WaitSem? && forall a | a in acts[1..] :: a in acts;
      OnlySemWaitWaits(Do(t, acts[0]), acts[1..]);
    }
  }

  /** No semaphore wait and no suspension. */
  predicate Plain(acts: seq<Action>) {
    forall a | a in acts :: !a.WaitSem? && !a.Suspend?
  }

  lemma PlainConcat(a: seq<Action>, b: seq<Action>)
    requires Plain(a) && Plain(b)
    ensures Plain(a + b)
  {
  }

  lemma BlockingIsPlain(k: Kernel, e: nat, result: QueueResult, at: ResumePoint)
    ensures Plain([NoteResult(result)] + WaitActions(k, e, 0) + [Yield(at)])
  {
  }

  lemma TryPostIsPlain(k: Kernel, event: nat, dest: nat, m: Msg, delay: uint32, period: uint32, async: bool, j: nat)
    ensures Plain(TryPostActions(k, event, dest, m, delay, period, async, j))
  {
    BlockingIsPlain(k, event, FULL, InPost(dest, Stamped(m, delay, period), delay, period));
  }

  lemma TryReceiveIsPlain(k: Kernel, event: nat, owner: nat, async: bool, j: nat)
    ensures Plain(TryReceiveActions(k, event, owner, async, j))
  {
    BlockingIsPlain(k, event, EMPTY, InReceive(owner));
  }

  lemma QueueActionsArePlain(k: Kernel, op: Op, j: nat)
    requires Sized(k) && Legal(k, op) && (op.MsgPost? || op.MsgReceive?)
    ensures Plain(ActionsOf(k, op, j))
  {
    var owner := if op.MsgPost? then op.dest else op.owner;
    var n, event := Noted(k, owner), ChangeEvent(k, Find(k, owner));
    var first := if j == k.runningTid then [NoteEvent(event)] else [];
    if op.MsgPost? {
      TryPostIsPlain(n, event, owner, op.msg, op.delay, op.period, op.async, j);
      PlainConcat(first, TryPostActions(n, event, owner, op.msg, op.delay, op.period, op.async, j));
    } else {
      TryReceiveIsPlain(n, event, owner, op.async, j);
      PlainConcat(first, TryReceiveActions(n, event, owner, op.async, j));
    }
  }

  lemma DispatchIsPlain(k: Kernel, j: nat)
    requires Sized(k) && Legal(k, Dispatch)
    ensures Plain(ActionsOf(k, Dispatch, j))
  {
    if Select(k) != NO_TID {
      var d := Dispatched(k);
      var t := d.tasks[d.runningTid];
      match t.resume
      case InPost(dest, m, delay, period) => TryPostIsPlain(d, t.msgChangeEvent, dest, m, delay, period, false, j);
      case InReceive(owner) => TryReceiveIsPlain(d, t.msgChangeEvent, owner, false, j);
      case _ =>
    }
  }

  lemma TickIsPlain(k: Kernel, clock: uint8, size: uint32, j: nat)
    requires Sized(k) && j < |k.tasks|
    ensures Plain(TickActions(k, clock, size, |k.tasks|, j))
  {
    TickActionsAre(k, clock, size, |k.tasks|, j);
  }

  lemma OtherCallIsPlain(k: Kernel, op: Op, j: nat)
    requires Sized(k) && EventsKnown(k) && Legal(k, op) && !op.SemWait? && !op.SuspendTask?
    requires !op.Tick? && !op.SubTick? && !op.Dispatch? && !op.MsgPost? && !op.MsgReceive?
    ensures Plain(ActionsOf(k, op, j))
  {
  }

  /** Only a semaphore wait waits for a semaphore, and only a suspend call suspends. */
  lemma StepIsPlain(k: Kernel, op: Op, j: nat)
    requires Sized(k) && EventsKnown(k) && Legal(k, op) && !op.SemWait? && !op.SuspendTask? && j < |k.tasks|
    ensures Plain(ActionsOf(k, op, j))
  {
    if op.Tick? {
      TickIsPlain(k, 0, 1, j);
    } else if op.SubTick? {
      if op.id != 0 {
        TickIsPlain(k, op.id, op.n, j);
      }
    } else if op.Dispatch? {
      DispatchIsPlain(k, j);
    } else if op.MsgPost? || op.MsgReceive? {
      QueueActionsArePlain(k, op, j);
    } else {
      OtherCallIsPlain(k, op, j);
    }
  }

  /** A step other than a semaphore wait adds no waiter, */
  lemma NoNewWaiter(k: Kernel, op: Op, j: nat)
    requires Inv(k) && EventsKnown(k) && Legal(k, op) && !op.SemWait? && j < |k.tasks|
    ensures j < |Step(k, op).tasks|
    ensures var u := Step(k, op).tasks[j];
            u.state == WAITING_SEM ==> k.tasks[j].state == WAITING_SEM && u.semaphore == k.tasks[j].semaphore
  {
    assert Sound(k.tasks[j]);
    StepProjects(k, op, j);
    if !op.SuspendTask? {
      StepIsPlain(k, op, j);
    }
    OnlySemWaitWaits(k.tasks[j], ActionsOf(k, op, j));
  }

  /** and only semaphore calls touch a semaphore. */
  lemma SemsUntouched(k: Kernel, op: Op)
    requires Sized(k) && EventsKnown(k) && Legal(k, op) && !SetUp(op)
    requires !op.SemWait? && !op.SemSignal? && !op.IsrSemSignal?
    ensures Step(k, op).sems == k.sems
  {
    if op.Dispatch? {
      DispatchLeavesSems(k);
    } else if op.MsgPost? || op.MsgReceive? {
      QueueCallLeavesSems(k, op);
    }
  }

  lemma DispatchLeavesSems(k: Kernel)
    requires Sized(k) && EventsKnown(k) && Legal(k, Dispatch)
    ensures Step(k, Dispatch).sems == k.sems
  {
    ReadyIsSelected(k);
  }

  lemma QueueCallLeavesSems(k: Kernel, op: Op)
    requires Sized(k) && EventsKnown(k) && Legal(k, op) && (op.MsgPost? || op.MsgReceive?)
    ensures Step(k, op).sems == k.sems
  {
  }

  /** The value of an awaited semaphore stays zero. */
  lemma AwaitedValueStaysZero(k: Kernel, op: Op, s: nat)
    requires Inv(k) && EventsKnown(k) && Legal(k, op) && !SetUp(op)
    requires s < |k.sems| && k.sems[s].value == 0 && Waiting(k.tasks, s)
    ensures s < |Step(k, op).sems| && Step(k, op).sems[s].value == 0
  {
    if op.SemWait? || op.SemSignal? || op.IsrSemSignal? {
      SemCallKeepsZero(k, op, s);
    } else {
      SemsUntouched(k, op);
    }
  }

  lemma SemCallKeepsZero(k: Kernel, op: Op, s: nat)
    requires Sized(k) && EventsKnown(k) && Legal(k, op) && (op.SemWait? || op.SemSignal? || op.IsrSemSignal?)
    requires s < |k.sems| && k.sems[s].value == 0 && Waiting(k.tasks, s)
    ensures s < |Step(k, op).sems| && Step(k, op).sems[s].value == 0
  {
  }

  lemma StepKeepsSems(k: Kernel, op: Op)
    requires Inv(k) && EventsKnown(k) && Legal(k, op) && !SetUp(op)
    ensures NoIdleWaiter(Step(k, op))
  {
    var r := Step(k, op);
    StepShape(k, op);
    forall i | 0 <= i < |r.tasks| && r.tasks[i].state == WAITING_SEM
      ensures r.tasks[i].semaphore < |r.sems| && r.sems[r.tasks[i].semaphore].value == 0
    {
      if op.SemWait? {
        SemWaitOnTask(k, op.s, i);
      } else {
        NoNewWaiter(k, op, i);
        assert Wants(WaitingFor(k.tasks[i].semaphore), k.tasks[i]);
        AwaitedValueStaysZero(k, op, k.tasks[i].semaphore);
      }
    }
  }

  lemma SemWaitOnTask(k: Kernel, s: nat, i: nat)
    requires Inv(k) && EventsKnown(k) && Legal(k, SemWait(s)) && i < |k.tasks|
    requires Take(k, s).tasks[i].state == WAITING_SEM
    ensures var u := Take(k, s).tasks[i];
            u.semaphore < |Take(k, s).sems| && Take(k, s).sems[u.semaphore].value == 0
  {
    var t := k.tasks[k.runningTid];
    assert [WaitSem(s)] + [Yield(AfterSem(s))] == [WaitSem(s), Yield(AfterSem(s))];
    DoAllConcat(t, [WaitSem(s)], [Yield(AfterSem(s))]);
    DoAllOne(t, WaitSem(s));
    DoAllOne(Do(t, WaitSem(s)), Yield(AfterSem(s)));
  }

  // ----- Set-up ------------------------------------------------------------------------

  lemma NewTaskIsSound(k: Kernel, prio: uint8, msgQ: nat)
    ensures Sound(NewTask(prio, msgQ)) && Parked(k, NewTask(prio, msgQ)) && Gated(k, NewTask(prio, msgQ))
  {
  }

  /** Parking does not depend on what is created later. */
  lemma ParkedGrows(k: Kernel, r: Kernel, t: Task)
    requires Parked(k, t) && Gated(k, t)
    requires |k.sems| <= |r.sems| && |k.queues| <= |r.queues| && |k.queues| < NO_QUEUE
    requires forall q | 0 <= q < |k.queues| :: r.queues[q] == k.queues[q]
    ensures Parked(r, t) && Gated(r, t)
  {
    if Retrying(t) && t.state != KILLED {
      FindGrows(k.queues, r.queues, Partner(t), 0);
    }
  }

  lemma {:induction false} FindGrows(qs: seq<Q.Queue>, rs: seq<Q.Queue>, owner: nat, q: nat)
    requires q <= |qs| <= |rs| && |qs| < NO_QUEUE && forall p | 0 <= p < |qs| :: rs[p] == qs[p]
    requires FindFrom(qs, owner, q) < |qs|
    ensures FindFrom(rs, owner, q) == FindFrom(qs, owner, q)
    decreases |qs| - q
  {
    if q < |qs| && qs[q].owner != owner {
      FindGrows(qs, rs, owner, q + 1);
    }
  }

  lemma NewTaskKeepsTables(k: Kernel, prio: uint8, poolSize: uint8)
    requires Inv(k) && Legal(k, CreateTask(prio, poolSize))
    ensures Tables(AddTask(k, prio, poolSize))
  {
  }

  lemma SetUpKeepsTables(k: Kernel, op: Op)
    requires Inv(k) && Legal(k, op) && SetUp(op)
    ensures Tables(Step(k, op))
  {
    if op.CreateTask? {
      NewTaskKeepsTables(k, op.prio, op.poolSize);
    }
  }

  lemma SetUpTaskIsWell(k: Kernel, op: Op, i: nat)
    requires Inv(k) && EventsKnown(k) && Legal(k, op) && SetUp(op) && i < |Step(k, op).tasks|
    ensures var r := Step(k, op);
            Sound(r.tasks[i]) && (i != r.runningTid ==> Parked(r, r.tasks[i]) && Gated(r, r.tasks[i]))
  {
    var r := Step(k, op);
    hide Sound;
    if i < |k.tasks| {
      assert r.tasks[i] == k.tasks[i];
      if i != k.runningTid {
        ParkedGrows(k, r, k.tasks[i]);
      }
    } else {
      NewTaskIsSound(r, r.tasks[i].prio, r.tasks[i].msgQ);
    }
  }

  lemma SetUpKeepsWaiters(k: Kernel, op: Op)
    requires Inv(k) && EventsKnown(k) && Legal(k, op) && SetUp(op)
    ensures NoIdleWaiter(Step(k, op)) && RunningAwake(Step(k, op))
  {
    hide Owned, TasksSound, TasksParked;
  }

  lemma SetUpKeepsInv(k: Kernel, op: Op)
    requires Inv(k) && EventsKnown(k) && Legal(k, op) && SetUp(op)
    ensures Inv(Step(k, op))
  {
    SetUpKeepsTables(k, op);
    SetUpKeepsWaiters(k, op);
    forall i | 0 <= i < |Step(k, op).tasks| {
      SetUpTaskIsWell(k, op, i);
    }
    hide Tables, Sound, Parked, Gated, Step, NoIdleWaiter, RunningAwake, Legal;
  }

  /** Every legal step keeps the invariant. */
  lemma InvStep(k: Kernel, op: Op)
    requires Inv(k) && EventsKnown(k) && Legal(k, op)
    ensures Inv(Step(k, op))
  {
    if SetUp(op) {
      SetUpKeepsInv(k, op);
    } else {
      StepKeepsTables(k, op);
      StepKeepsTasks(k, op);
      StepKeepsSems(k, op);
    }
  }
}
