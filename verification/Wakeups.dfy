// No lost wake-up: who is blocked in a message post or receive is blocked for a reason.
module Wakeups {
  import opened Types
  import opened TaskSpec
  import opened TaskLife
  import opened KernelSpec
  import opened Steps
  import opened Projection
  import opened QueueProjection
  import opened Invariant
  import opened Runs
  import Q = QueueSpec

  // ----- A queue that changes for its waiters says so ----------------------------------

  /** Waiting posters have something to hope for, or waiting receivers have. */
  predicate OpensUp(s: Q.Queue, r: Q.Queue) {
    (Q.Full(s) && !Q.Full(r)) || (Q.AllDelayed(s.msgs) && !Q.AllDelayed(r.msgs))
  }

  lemma PassSignals(k: Kernel, i: nat, j: nat)
    requires Sized(k) && i < |k.tasks| && k.tasks[i].msgQ != NO_QUEUE
    requires Q.Fires(k.queues[k.tasks[i].msgQ].msgs)
    ensures k.queues[k.tasks[i].msgQ].change in Signalled(PassActions(k, 0, 1, i, j))
  {
    var acts := PassActions(k, 0, 1, i, j);
    SignalIsSignalled(acts, k.queues[k.tasks[i].msgQ].change);
    assert acts[|acts| - 1] == Signal(k.queues[k.tasks[i].msgQ].change);
  }

  lemma {:induction false} PassIsInTick(k: Kernel, i: nat, n: nat, j: nat, e: nat)
    requires Sized(k) && i < n <= |k.tasks| && e in Signalled(PassActions(k, 0, 1, i, j))
    ensures e in Signalled(TickActions(k, 0, 1, n, j))
  {
    hide PassActions;
    SignalledConcat(TickActions(k, 0, 1, n - 1, j), PassActions(k, 0, 1, n - 1, j));
    if i < n - 1 {
      PassIsInTick(k, i, n - 1, j, e);
    }
  }

  lemma TickMakesReady(s: seq<Msg>)
    requires Q.AllDelayed(s) && !Q.AllDelayed(Q.TickMsgs(s))
    ensures Q.Fires(s)
  {
    var i :| 0 <= i < |s| && Q.TickMsgs(s)[i].delay == 0;
    assert s[i].delay == 1;
  }

  lemma TickOpensWithSignal(k: Kernel, q: nat)
    requires Inv(k) && q < |k.queues| && OpensUp(k.queues[q], Q.Step(k.queues[q], Q.Tick))
    ensures k.queues[q].change in Raises(k, Tick)
  {
    hide TickActions;
    TickMakesReady(k.queues[q].msgs);
    PassSignals(k, k.queues[q].owner, NO_TID);
    PassIsInTick(k, k.queues[q].owner, |k.tasks|, NO_TID, k.queues[q].change);
  }

  lemma PostOpensWithSignal(k: Kernel, event: nat, dest: nat, m: Msg, delay: uint32, period: uint32, async: bool, q: nat)
    requires q < |k.queues| && OpensUp(k.queues[q], Q.Steps(k.queues[q], PostOps(k, q, dest, m, delay, period)))
    ensures q == Find(k, dest) && event in Signalled(TryPostActions(k, event, dest, m, delay, period, async, NO_TID))
  {
    StepsOne(k.queues[q], Q.Post(Stamped(m, delay, period)));
    SignalledOne([Signal(event)]);
  }

  lemma ReceiveOpensWithSignal(k: Kernel, event: nat, owner: nat, async: bool, q: nat)
    requires q < |k.queues| && OpensUp(k.queues[q], Q.Steps(k.queues[q], ReceiveOps(k, q, owner)))
    ensures q == Find(k, owner) && event in Signalled(TryReceiveActions(k, event, owner, async, NO_TID))
  {
    StepsOne(k.queues[q], Q.Receive);
    if Q.AllDelayed(k.queues[q].msgs) {
      DelayedReceive(k.queues[q]);
    }
    SignalledOne([Signal(event)]);
  }

  lemma QueueCallOpensWithSignal(k: Kernel, op: Op, q: nat)
    requires Inv(k) && Legal(k, op) && (op.MsgPost? || op.MsgReceive?) && q < |k.queues|
    requires OpensUp(k.queues[q], Q.Steps(k.queues[q], QueueOpsOf(k, op, q)))
    ensures k.queues[q].change in Raises(k, op)
  {
    var owner := if op.MsgPost? then op.dest else op.owner;
    var n, event := Noted(k, owner), ChangeEvent(k, Find(k, owner));
    FindAfterNote(k, owner, owner);
    if op.MsgPost? {
      PostOpensWithSignal(n, event, owner, op.msg, op.delay, op.period, op.async, q);
      SignalledConcat([], TryPostActions(n, event, owner, op.msg, op.delay, op.period, op.async, NO_TID));
    } else {
      ReceiveOpensWithSignal(n, event, owner, op.async, q);
      SignalledConcat([], TryReceiveActions(n, event, owner, op.async, NO_TID));
    }
  }

  lemma DispatchOpensWithSignal(k: Kernel, q: nat)
    requires Inv(k) && Legal(k, Dispatch) && q < |k.queues|
    requires OpensUp(k.queues[q], Q.Steps(k.queues[q], QueueOpsOf(k, Dispatch, q)))
    ensures k.queues[q].change in Raises(k, Dispatch)
  {
    StepsOne(k.queues[q], Q.Tick);
    ReadyIsSelected(k);
    var d := Dispatched(k);
    var t := d.tasks[Select(k)];
    assert Parked(k, t);
    FindSame(k.queues, d.queues, Partner(t), 0);
    match t.resume
    case InPost(dest, m, delay, period) =>
      PostOpensWithSignal(d, t.msgChangeEvent, dest, m, delay, period, false, q);
    case InReceive(owner) =>
      ReceiveOpensWithSignal(d, t.msgChangeEvent, owner, false, q);
  }

  /** A step that makes room in a full queue, or an expired message in one that had none,
      signals the queue's change event. */
  lemma OpeningIsSignalled(k: Kernel, op: Op, q: nat)
    requires Inv(k) && Legal(k, op) && q < |k.queues|
    requires OpensUp(k.queues[q], Q.Steps(k.queues[q], QueueOpsOf(k, op, q)))
    ensures k.queues[q].change in Raises(k, op)
  {
    StepsOne(k.queues[q], Q.Tick);
    if op.Tick? {
      TickOpensWithSignal(k, q);
    } else if op.Dispatch? {
      DispatchOpensWithSignal(k, q);
    } else {
      QueueCallOpensWithSignal(k, op, q);
    }
  }

  // ----- The invariant -----------------------------------------------------------------

  /** The state, and for each task whether its present wait missed a signal while the task was
      suspended. */
  datatype Watched = Watched(k: Kernel, missed: seq<bool>)

  ghost predicate WatchedInv(w: Watched) {
    Inv(w.k) && |w.missed| == |w.k.tasks|
  }

  ghost function WatchedStep(w: Watched, op: Op): (r: Watched)
    requires WatchedInv(w) && Legal(w.k, op)
    ensures WatchedInv(r) && r.k == After1(w.k, op)
  {
    var k' := After1(w.k, op);
    Watched(k',
            seq(|k'.tasks|, j requires 0 <= j < |k'.tasks| =>
              j < |w.k.tasks| && Missed(w.k.tasks[j], w.missed[j], ActionsOf(w.k, op, j))))
  }

  /** Blocked in a post means the queue is full; blocked in a receive means it has no expired
      message. */
  ghost predicate Justified(k: Kernel, t: Task) {
    Retrying(t) && t.state != KILLED && EffectiveState(t) == WAITING_EVENT ==>
      var q := Find(k, Partner(t));
      q < |k.queues| && if t.resume.InPost? then Q.Full(k.queues[q]) else Q.AllDelayed(k.queues[q].msgs)
  }

  ghost predicate NoLostWakeUp(w: Watched)
    requires WatchedInv(w)
  {
    forall j | 0 <= j < |w.k.tasks| && j != w.k.runningTid && !w.missed[j] :: Justified(w.k, w.k.tasks[j])
  }

  /** Foreign actions leave the resume point of a waiting task alone. */
  lemma {:induction false} WaitKeepsResume(t: Task, acts: seq<Action>)
    requires Sound(t) && AllForeign(acts) && EffectiveState(DoAll(t, acts)) == WAITING_EVENT
    ensures EffectiveState(t) == WAITING_EVENT && DoAll(t, acts).resume == t.resume
    decreases |acts|
  {
    if acts != [] {
      assert Foreign(acts[0]) && forall a | a in acts[1..] :: a in acts;
      SoundNext(t, acts[0]);
      WaitKeepsResume(Do(t, acts[0]), acts[1..]);
    }
  }

  lemma FoundQueue(k: Kernel, r: Kernel, owner: nat)
    requires SameShape(k, r)
    ensures Find(r, owner) == Find(k, owner)
  {
    FindSame(k.queues, r.queues, owner, 0);
  }

  /** A task still blocked in a queue macro has heard no signal of its queue. */
  lemma StillBlockedHeardNothing(k: Kernel, t: Task, missed: bool, acts: seq<Action>)
    requires Sound(t) && Parked(k, t) && AllForeign(acts) && !Missed(t, missed, acts)
    requires var u := DoAll(t, acts); Retrying(u) && u.state != KILLED && EffectiveState(u) == WAITING_EVENT
    ensures !missed && Retrying(t) && t.state != KILLED && EffectiveState(t) == WAITING_EVENT
    ensures DoAll(t, acts).resume == t.resume && t.msgChangeEvent !in Signalled(acts)
  {
    var e := t.msgChangeEvent;
    WaitKeepsResume(t, acts);
    if missed {
      MissedStays(t, acts);
    }
    if t.state == KILLED {
      KilledIsAbsorbing(t, acts);
    }
    if e in Signalled(acts) {
      SignalIsSignalled(acts, e);
      SignalWakesOrIsMissed(t, missed, acts, e);
    }
  }

  lemma QueueStaysShut(k: Kernel, op: Op, q: nat)
    requires Inv(k) && Legal(k, op) && q < |k.queues| && k.queues[q].change !in Raises(k, op)
    ensures q < |After1(k, op).queues|
    ensures Q.Full(k.queues[q]) ==> Q.Full(After1(k, op).queues[q])
    ensures Q.AllDelayed(k.queues[q].msgs) ==> Q.AllDelayed(After1(k, op).queues[q].msgs)
  {
    QueueStays(k, op, q);
    if OpensUp(k.queues[q], After1(k, op).queues[q]) {
      OpeningIsSignalled(k, op, q);
    }
  }

  lemma OtherStaysJustified(k: Kernel, op: Op, j: nat, missed: bool)
    requires Inv(k) && Legal(k, op) && !SetUp(op) && j < |k.tasks| && j != Runner(k, op) && j != k.runningTid
    requires !missed ==> Justified(k, k.tasks[j])
    requires !Missed(k.tasks[j], missed, ActionsOf(k, op, j))
    ensures j < |After1(k, op).tasks| && Justified(After1(k, op), After1(k, op).tasks[j])
  {
    hide Step, ActionsOf;
    var t, acts := k.tasks[j], ActionsOf(k, op, j);
    InvKnowsEvents(k);
    TaskStays(k, op, j);
    StepShape(k, op);
    OthersActForeign(k, op, j);
    var r := After1(k, op);
    var u := r.tasks[j];
    if Retrying(u) && u.state != KILLED && EffectiveState(u) == WAITING_EVENT {
      assert Parked(k, t);
      StillBlockedHeardNothing(k, t, missed, acts);
      SignalsAreBroadcast(k, op, j);
      FoundQueue(k, r, Partner(t));
      QueueStaysShut(k, op, Find(k, Partner(t)));
    }
  }

  // ----- The task that just stopped ----------------------------------------------------

  lemma YieldSetsResume(k: Kernel, acts: seq<Action>, at: ResumePoint)
    requires Sized(k) && k.runningTid != NO_TID
    ensures OwnAndYield(k, acts, at).tasks[k.runningTid].resume == at
  {
    var t := k.tasks[k.runningTid];
    DoAllConcat(t, acts, [Yield(at)]);
    DoAllOne(DoAll(t, acts), Yield(at));
  }

  lemma TryPostStopsFull(k: Kernel, event: nat, dest: nat, m: Msg, delay: uint32, period: uint32, async: bool)
    requires Sized(k) && k.runningTid != NO_TID && (Find(k, dest) < |k.queues| ==> event < |k.signaledBy|)
    ensures var r := TryPost(k, event, dest, m, delay, period, async);
            r.runningTid != k.runningTid ==> Justified(r, r.tasks[k.runningTid]) && r.tasks[k.runningTid].resume.InPost?
  {
    var r := TryPost(k, event, dest, m, delay, period, async);
    if r.runningTid != k.runningTid {
      YieldSetsResume(Forget(k, event), [NoteResult(FULL)] + WaitActions(Forget(k, event), event, 0),
                      InPost(dest, Stamped(m, delay, period), delay, period));
      FoundQueue(k, r, dest);
    }
  }

  lemma TryReceiveStopsEmpty(k: Kernel, event: nat, owner: nat, async: bool)
    requires Sized(k) && k.runningTid != NO_TID && (Find(k, owner) < |k.queues| ==> event < |k.signaledBy|)
    ensures var r := TryReceive(k, event, owner, async);
            r.runningTid != k.runningTid ==> Justified(r, r.tasks[k.runningTid]) && r.tasks[k.runningTid].resume.InReceive?
  {
    var r := TryReceive(k, event, owner, async);
    if r.runningTid != k.runningTid {
      YieldSetsResume(Forget(k, event), [NoteResult(EMPTY)] + WaitActions(Forget(k, event), event, 0), InReceive(owner));
      FoundQueue(k, r, owner);
    }
  }

  lemma QueueCallStopsJustified(k: Kernel, op: Op)
    requires Inv(k) && EventsKnown(k) && Legal(k, op) && (op.MsgPost? || op.MsgReceive?)
    requires Step(k, op).runningTid != k.runningTid
    ensures k.runningTid < |Step(k, op).tasks| && Justified(Step(k, op), Step(k, op).tasks[k.runningTid])
    ensures Retrying(Step(k, op).tasks[k.runningTid])
  {
    var owner := if op.MsgPost? then op.dest else op.owner;
    var n, event := Noted(k, owner), ChangeEvent(k, Find(k, owner));
    FindAfterNote(k, owner, owner);
    if op.MsgPost? {
      TryPostStopsFull(n, event, owner, op.msg, op.delay, op.period, op.async);
    } else {
      TryReceiveStopsEmpty(n, event, owner, op.async);
    }
  }

  lemma DispatchStopsJustified(k: Kernel)
    requires Inv(k) && EventsKnown(k) && Legal(k, Dispatch) && Select(k) != NO_TID
    requires Step(k, Dispatch).runningTid != Select(k)
    ensures Justified(Step(k, Dispatch), Step(k, Dispatch).tasks[Select(k)])
    ensures Retrying(Step(k, Dispatch).tasks[Select(k)])
  {
    ReadyIsSelected(k);
    var d := Dispatched(k);
    var t := d.tasks[Select(k)];
    match t.resume
    case InPost(dest, m, delay, period) => TryPostStopsFull(d, t.msgChangeEvent, dest, m, delay, period, false);
    case InReceive(owner) => TryReceiveStopsEmpty(d, t.msgChangeEvent, owner, false);
    case _ =>
  }

  lemma SelfWaitStopIsNoRetry(k: Kernel, op: Op)
    requires Inv(k) && EventsKnown(k) && Legal(k, op)
    requires op.TaskWait? || op.EventWait? || op.EventWaitMultiple? || op.SemWait?
    requires Step(k, op).runningTid != k.runningTid
    ensures k.runningTid < |Step(k, op).tasks| && Step(k, op).tasks[k.runningTid].resume == SelfResume(op)
  {
    var m := if op.EventWait? then Forget(k, op.e) else k;
    YieldSetsResume(m, SelfWait(k, op), SelfResume(op));
  }

  lemma YieldTaskSetsResume(k: Kernel)
    requires Sized(k) && k.runningTid != NO_TID
    ensures k.runningTid < |YieldTask(k).tasks| && YieldTask(k).tasks[k.runningTid].resume == After
  {
    DoAllOne(k.tasks[k.runningTid], Yield(After));
  }

  lemma SignalStopIsNoRetry(k: Kernel, op: Op)
    requires Inv(k) && EventsKnown(k) && Legal(k, op) && (op.EventSignal? || op.SemSignal?)
    requires Step(k, op).runningTid != k.runningTid
    ensures k.runningTid < |Step(k, op).tasks| && Step(k, op).tasks[k.runningTid].resume == After
  {
    hide YieldTask, TasksSound, TasksParked;
    YieldTaskSetsResume(if op.EventSignal? then SignalFrom(k, op.e, k.runningTid) else Give(k, op.s));
  }

  lemma SuspendStopIsNoRetry(k: Kernel, op: Op)
    requires Inv(k) && EventsKnown(k) && Legal(k, op) && (op.SuspendTask? || op.ResumeTask?)
    requires Step(k, op).runningTid != k.runningTid
    ensures k.runningTid < |Step(k, op).tasks| && Step(k, op).tasks[k.runningTid].resume == After
  {
    YieldTaskSetsResume(On(k, op.tid, [if op.SuspendTask? then Suspend else Resume]));
  }

  /** Calls that are not about queues leave the caller running, killed, or resuming after them. */
  lemma PlainStopIsNoRetry(k: Kernel, op: Op)
    requires Inv(k) && EventsKnown(k) && Legal(k, op) && ByRunningTask(op) && !op.MsgPost? && !op.MsgReceive?
    requires Step(k, op).runningTid != k.runningTid
    ensures k.runningTid < |Step(k, op).tasks|
    ensures var u := Step(k, op).tasks[k.runningTid]; u.state == KILLED || u.resume == SelfResume(op)
  {
    if op.TaskWait? || op.EventWait? || op.EventWaitMultiple? || op.SemWait? {
      SelfWaitStopIsNoRetry(k, op);
    } else if op.TaskClose? || op.KillTask? {
      DoAllOne(k.tasks[k.runningTid], Kill);
    } else if op.EventSignal? || op.SemSignal? {
      SignalStopIsNoRetry(k, op);
    } else {
      SuspendStopIsNoRetry(k, op);
    }
  }

  lemma PlainStopIsJustified(k: Kernel, op: Op)
    requires Inv(k) && EventsKnown(k) && Legal(k, op) && ByRunningTask(op) && !op.MsgPost? && !op.MsgReceive?
    requires Step(k, op).runningTid != k.runningTid
    ensures k.runningTid < |Step(k, op).tasks| && Justified(Step(k, op), Step(k, op).tasks[k.runningTid])
  {
    PlainStopIsNoRetry(k, op);
    hide Step, Find;
  }

  lemma RunnerStopsJustified(k: Kernel, op: Op)
    requires Inv(k) && Legal(k, op) && !SetUp(op) && Runner(k, op) != NO_TID
    requires After1(k, op).runningTid != Runner(k, op)
    ensures Runner(k, op) < |After1(k, op).tasks|
    ensures Justified(After1(k, op), After1(k, op).tasks[Runner(k, op)])
  {
    hide Justified, TasksSound, TasksParked;
    InvKnowsEvents(k);
    if op.Dispatch? {
      DispatchStopsJustified(k);
    } else if op.MsgPost? || op.MsgReceive? {
      QueueCallStopsJustified(k, op);
    } else if ByRunningTask(op) {
      PlainStopIsJustified(k, op);
    }
  }

  // ----- All runs ----------------------------------------------------------------------

  lemma SetUpKeepsJustified(k: Kernel, op: Op, t: Task)
    requires Inv(k) && Legal(k, op) && SetUp(op) && Justified(k, t)
    ensures Justified(After1(k, op), t)
  {
    if Retrying(t) && t.state != KILLED && EffectiveState(t) == WAITING_EVENT {
      FindGrows(k.queues, After1(k, op).queues, Partner(t), 0);
    }
  }

  lemma SetUpKeepsOldTasks(k: Kernel, op: Op, j: nat)
    requires Inv(k) && Legal(k, op) && SetUp(op) && j < |After1(k, op).tasks|
    ensures After1(k, op).runningTid == k.runningTid
    ensures j < |k.tasks| ==> After1(k, op).tasks[j] == k.tasks[j] && ActionsOf(k, op, j) == []
    ensures j >= |k.tasks| ==> !Retrying(After1(k, op).tasks[j])
  {
  }

  lemma WatchedTaskStaysJustified(w: Watched, op: Op, j: nat)
    requires WatchedInv(w) && Legal(w.k, op) && NoLostWakeUp(w)
    requires var r := WatchedStep(w, op); j < |r.k.tasks| && j != r.k.runningTid && !r.missed[j]
    ensures Justified(WatchedStep(w, op).k, WatchedStep(w, op).k.tasks[j])
  {
    var r := WatchedStep(w, op);
    InvKnowsEvents(w.k);
    if SetUp(op) {
      SetUpKeepsOldTasks(w.k, op, j);
      if j < |w.k.tasks| {
        SetUpKeepsJustified(w.k, op, w.k.tasks[j]);
      }
    } else {
      StepShape(w.k, op);
      if j == Runner(w.k, op) {
        RunnerStopsJustified(w.k, op);
      } else {
        assert j != w.k.runningTid by {
          if op.Dispatch? {
            assert w.k.runningTid == NO_TID;
          }
        }
        OtherStaysJustified(w.k, op, j, w.missed[j]);
      }
    }
  }

  lemma NoLostWakeUpNext(w: Watched, op: Op)
    requires WatchedInv(w) && Legal(w.k, op) && NoLostWakeUp(w)
    ensures NoLostWakeUp(WatchedStep(w, op))
  {
    var r := WatchedStep(w, op);
    forall j | 0 <= j < |r.k.tasks| && j != r.k.runningTid && !r.missed[j]
      ensures Justified(r.k, r.k.tasks[j])
    {
      WatchedTaskStaysJustified(w, op, j);
    }
  }

  ghost function WatchedRun(w: Watched, ops: seq<Op>): (r: Watched)
    requires WatchedInv(w) && LegalRun(w.k, ops)
    ensures WatchedInv(r) && r.k == Run(w.k, ops)
    decreases |ops|
  {
    if ops == [] then w else WatchedRun(WatchedStep(w, ops[0]), ops[1..])
  }

  /** In every run, from every state where it holds: a task that is blocked in a message
      receive, and was not suspended while its queue called, has a queue without an expired
      message; one blocked in a message post has a full queue. */
  lemma {:induction false} NoRunLosesAWakeUp(w: Watched, ops: seq<Op>)
    requires WatchedInv(w) && LegalRun(w.k, ops) && NoLostWakeUp(w)
    ensures NoLostWakeUp(WatchedRun(w, ops))
    decreases |ops|
  {
    if ops != [] {
      NoLostWakeUpNext(w, ops[0]);
      NoRunLosesAWakeUp(WatchedStep(w, ops[0]), ops[1..]);
    }
  }

  /** In particular in every run from power-up. */
  lemma NoWakeUpIsLost(cfg: Config, ops: seq<Op>)
    requires ConfigOk(cfg) && Inv(Boot(cfg)) && LegalRun(Boot(cfg), ops)
    ensures NoLostWakeUp(WatchedRun(Watched(Boot(cfg), []), ops))
  {
    NoRunLosesAWakeUp(Watched(Boot(cfg), []), ops);
  }

  // ----- Only suspending a waiter can lose a wake-up -----------------------------------

  /** No task is suspended out of an event wait during the run. */
  ghost predicate SuspendsNoWaiter(k: Kernel, ops: seq<Op>)
    requires Inv(k) && LegalRun(k, ops)
    decreases |ops|
  {
    ops == [] ||
    ((ops[0].SuspendTask? ==> !AwaitsEvent(k.tasks[ops[0].tid].state)) && SuspendsNoWaiter(After1(k, ops[0]), ops[1..]))
  }

  ghost predicate NotSuspendedWaiting(t: Task) {
    t.state == SUSPENDED ==> t.waits == {} && !AwaitsEvent(t.savedState)
  }

  ghost predicate NoneMissed(w: Watched) {
    |w.missed| == |w.k.tasks| &&
    forall j | 0 <= j < |w.missed| :: !w.missed[j] && NotSuspendedWaiting(w.k.tasks[j])
  }

  lemma {:induction false} PlainMissesNothing(t: Task, acts: seq<Action>)
    requires NotSuspendedWaiting(t) && forall a | a in acts :: !a.Suspend?
    ensures NotSuspendedWaiting(DoAll(t, acts)) && !Missed(t, false, acts)
    decreases |acts|
  {
    if acts != [] {
      assert !acts[0].Suspend? && forall a | a in acts[1..] :: a in acts;
      PlainMissesNothing(Do(t, acts[0]), acts[1..]);
    }
  }

  lemma SuspendMissesNothing(t: Task, rest: seq<Action>)
    requires Sound(t) && NotSuspendedWaiting(t) && !AwaitsEvent(t.state) && forall a | a in rest :: !a.Suspend?
    ensures NotSuspendedWaiting(DoAll(t, [Suspend] + rest)) && !Missed(t, false, [Suspend] + rest)
  {
    DoAllCons(t, Suspend, rest);
    assert ([Suspend] + rest)[1..] == rest;
    PlainMissesNothing(Do(t, Suspend), rest);
  }

  lemma NoneMissedNext(w: Watched, op: Op)
    requires WatchedInv(w) && Legal(w.k, op) && NoneMissed(w)
    requires op.SuspendTask? ==> !AwaitsEvent(w.k.tasks[op.tid].state)
    ensures NoneMissed(WatchedStep(w, op))
  {
    hide Inv, Legal, NotSuspendedWaiting;
    var r := WatchedStep(w, op);
    forall j | 0 <= j < |r.missed|
      ensures !r.missed[j] && NotSuspendedWaiting(r.k.tasks[j])
    {
      if j < |w.k.tasks| {
        TaskMissesNothing(w.k, op, j);
      } else {
        NewTaskIsAwake(w.k, op, j);
      }
    }
  }

  lemma NewTaskIsAwake(k: Kernel, op: Op, j: nat)
    requires Inv(k) && Legal(k, op) && |k.tasks| <= j < |After1(k, op).tasks|
    ensures NotSuspendedWaiting(After1(k, op).tasks[j])
  {
    InvKnowsEvents(k);
    if !SetUp(op) {
      StepShape(k, op);
    }
  }

  lemma TaskMissesNothing(k: Kernel, op: Op, j: nat)
    requires Inv(k) && Legal(k, op) && j < |k.tasks| && NotSuspendedWaiting(k.tasks[j])
    requires op.SuspendTask? ==> !AwaitsEvent(k.tasks[op.tid].state)
    ensures j < |After1(k, op).tasks| && NotSuspendedWaiting(After1(k, op).tasks[j])
    ensures !Missed(k.tasks[j], false, ActionsOf(k, op, j))
  {
    var t, acts := k.tasks[j], ActionsOf(k, op, j);
    InvKnowsEvents(k);
    TaskStays(k, op, j);
    assert Sound(t);
    if op == SuspendTask(j) {
      SuspendMissesNothing(t, if j == k.runningTid then [Yield(After)] else []);
    } else {
      if !op.SemWait? && !op.SuspendTask? {
        StepIsPlain(k, op, j);
      }
      PlainMissesNothing(t, acts);
    }
  }

  lemma {:induction false} NoneMissedInRun(w: Watched, ops: seq<Op>)
    requires WatchedInv(w) && LegalRun(w.k, ops) && NoneMissed(w) && SuspendsNoWaiter(w.k, ops)
    ensures NoneMissed(WatchedRun(w, ops))
    decreases |ops|
  {
    hide After1;
    if ops != [] {
      NoneMissedNext(w, ops[0]);
      NoneMissedInRun(WatchedStep(w, ops[0]), ops[1..]);
    }
  }

  /** As long as no task is suspended out of an event wait, no run loses a wake-up at all. */
  lemma WithoutSuspendedWaiters(w: Watched, ops: seq<Op>)
    requires WatchedInv(w) && LegalRun(w.k, ops) && NoLostWakeUp(w) && NoneMissed(w)
    requires SuspendsNoWaiter(w.k, ops)
    ensures var r := Run(w.k, ops);
            forall j | 0 <= j < |r.tasks| && j != r.runningTid :: Justified(r, r.tasks[j])
  {
    NoRunLosesAWakeUp(w, ops);
    NoneMissedInRun(w, ops);
  }
}
