// Exactly which tasks blocked in a message post or receive can lose a wake-up: the suspended
// ones, except posters to a queue that nothing will ever leave.
module Suspension {
  import opened Types
  import opened TaskSpec
  import opened TaskLife
  import opened KernelSpec
  import opened Steps
  import opened Projection
  import opened QueueProjection
  import opened Invariant
  import opened Runs
  import opened Wakeups
  import opened Recovery
  import Q = QueueSpec

  /** Task j is left waiting for no reason. */
  ghost predicate LeftWaiting(k: Kernel, j: nat) {
    j < |k.tasks| && j != k.runningTid && k.tasks[j].state == WAITING_EVENT && !Justified(k, k.tasks[j])
  }

  /** Some continuation that suspends no waiter leaves task j waiting for no reason. */
  ghost predicate CanLose(k: Kernel, j: nat)
    requires Inv(k)
  {
    exists ops: seq<Op> :: LegalRun(k, ops) && SuspendsNoWaiter(k, ops) && LeftWaiting(Run(k, ops), j)
  }

  lemma LosesNow(k: Kernel, j: nat)
    requires Inv(k) && LeftWaiting(k, j)
    ensures CanLose(k, j)
  {
    hide LeftWaiting;
    assert LegalRun(k, []) && SuspendsNoWaiter(k, []) && Run(k, []) == k;
  }

  lemma LosesAfter(k: Kernel, op: Op, j: nat)
    requires Inv(k) && Legal(k, op) && !op.SuspendTask? && CanLose(After1(k, op), j)
    ensures CanLose(k, j)
  {
    hide After1, Legal, LeftWaiting;
    var r := After1(k, op);
    var rest: seq<Op> :| LegalRun(r, rest) && SuspendsNoWaiter(r, rest) && LeftWaiting(Run(r, rest), j);
    RunCons(k, op, rest);
    assert ([op] + rest)[0] == op && ([op] + rest)[1..] == rest;
    assert SuspendsNoWaiter(k, [op] + rest);
  }

  /** A task that was suspended while it was blocked on queue q, and another one running. */
  ghost predicate SuspendedWaiter(k: Kernel, j: nat, q: nat) {
    && j < |k.tasks| && k.tasks[j].state == SUSPENDED && k.tasks[j].savedState == WAITING_EVENT
    && Retrying(k.tasks[j]) && q == Find(k, Partner(k.tasks[j])) < |k.queues|
    && k.runningTid != NO_TID
  }

  /** What the task is waiting for has happened. */
  predicate Opened(t: Task, s: Q.Queue) {
    if t.resume.InPost? then !Q.Full(s) else !Q.AllDelayed(s.msgs)
  }

  lemma ResumedIsStillWaiting(k: Kernel, j: nat, q: nat)
    requires Inv(k) && SuspendedWaiter(k, j, q) && Opened(k.tasks[j], k.queues[q])
    ensures LeftWaiting(After1(k, ResumeTask(j)), j)
  {
    InvKnowsEvents(k);
    DoAllOne(k.tasks[j], Resume);
    YieldingShape(k, ResumeTask(j));
    FoundQueue(k, Step(k, ResumeTask(j)), Partner(k.tasks[j]));
  }

  lemma OpenedCanLose(k: Kernel, j: nat, q: nat)
    requires Inv(k) && SuspendedWaiter(k, j, q) && Opened(k.tasks[j], k.queues[q])
    ensures CanLose(k, j)
  {
    ResumedIsStillWaiting(k, j, q);
    hide After1, CanLose, LeftWaiting;
    LosesNow(After1(k, ResumeTask(j)), j);
    LosesAfter(k, ResumeTask(j), j);
  }

  // ----- What a suspended waiter sleeps through ----------------------------------------

  lemma {:induction false} SuspendedHearsNothing(t: Task, acts: seq<Action>)
    requires t.state == SUSPENDED && forall a | a in acts :: a.Signal? || a.Timer?
    ensures DoAll(t, acts) == t
    decreases |acts|
  {
    if acts != [] {
      assert acts[0] in acts && forall a | a in acts[1..] :: a in acts;
      SuspendedHearsNothing(t, acts[1..]);
    }
  }

  lemma TickOnlySignalsAndTimes(k: Kernel, j: nat)
    requires Sized(k) && j < |k.tasks|
    ensures forall a | a in ActionsOf(k, Tick, j) :: a.Signal? || a.Timer?
  {
    hide TickActions;
    TickActionsAre(k, 0, 1, |k.tasks|, j);
  }

  lemma QueueCallOnlySignals(k: Kernel, op: Op, j: nat)
    requires Sized(k) && Legal(k, op) && (op.MsgPost? || op.MsgReceive?) && j != k.runningTid
    ensures forall a | a in ActionsOf(k, op, j) :: a.Signal?
  {
  }

  /** A call that cannot block. */
  predicate Passes(k: Kernel, op: Op) {
    || op.Tick?
    || (op.MsgReceive? && op.async)
    || (op.MsgPost? && Find(k, op.dest) < |k.queues| && !Q.Full(k.queues[Find(k, op.dest)]))
  }

  lemma PassingKeepsRunner(k: Kernel, op: Op)
    requires Inv(k) && Legal(k, op) && Passes(k, op)
    ensures After1(k, op).runningTid == k.runningTid
  {
    InvKnowsEvents(k);
    if op.MsgPost? {
      FindAfterNote(k, op.dest, op.dest);
    }
  }

  lemma PassingLeavesSuspended(k: Kernel, op: Op, j: nat)
    requires Inv(k) && Legal(k, op) && Passes(k, op) && j < |k.tasks| && k.tasks[j].state == SUSPENDED
    ensures j < |After1(k, op).tasks| && After1(k, op).tasks[j] == k.tasks[j]
  {
    hide After1, ActionsOf;
    TaskStays(k, op, j);
    if op.Tick? {
      TickOnlySignalsAndTimes(k, j);
    } else {
      QueueCallOnlySignals(k, op, j);
    }
    SuspendedHearsNothing(k.tasks[j], ActionsOf(k, op, j));
  }

  lemma SleepsThrough(k: Kernel, op: Op, j: nat, q: nat)
    requires Inv(k) && Legal(k, op) && Passes(k, op) && SuspendedWaiter(k, j, q)
    ensures SuspendedWaiter(After1(k, op), j, q) && After1(k, op).tasks[j] == k.tasks[j]
    ensures After1(k, op).queues[q] == Q.Steps(k.queues[q], QueueOpsOf(k, op, q))
  {
    assert !SetUp(op);
    hide Find, Passes;
    InvKnowsEvents(k);
    PassingKeepsRunner(k, op);
    PassingLeavesSuspended(k, op, j);
    QueueStays(k, op, q);
    StepShape(k, op);
    FoundQueue(k, Step(k, op), Partner(k.tasks[j]));
  }

  // ----- Receivers ---------------------------------------------------------------------

  lemma {:induction false} WaiterLosesATick(k: Kernel, j: nat, q: nat, n: nat)
    requires Inv(k) && SuspendedWaiter(k, j, q) && k.tasks[j].resume.InReceive?
    requires k.queues[q].msgs != [] && n == MinDelay(k.queues[q].msgs)
    ensures CanLose(k, j)
    decreases n
  {
    hide After1, CanLose, MinDelay, Inv;
    if n == 0 {
      OpenedCanLose(k, j, q);
    } else {
      SleepsThrough(k, Tick, j, q);
      StepsOne(k.queues[q], Q.Tick);
      MinDelayTicks(k.queues[q].msgs);
      WaiterLosesATick(After1(k, Tick), j, q, n - 1);
      LosesAfter(k, Tick, j);
    }
  }

  lemma PostArrives(s: Q.Queue, m: Msg)
    requires !Q.Full(s) && m.delay == 0
    ensures !Q.AllDelayed(Q.Steps(s, [Q.Post(m)]).msgs)
  {
    StepsOne(s, Q.Post(m));
    assert Q.Step(s, Q.Post(m)).msgs[|s.msgs|] == m;
  }

  lemma WaiterLosesAPost(k: Kernel, j: nat, q: nat, m: Msg)
    requires Inv(k) && SuspendedWaiter(k, j, q) && k.tasks[j].resume.InReceive? && !Q.Full(k.queues[q])
    ensures var post := MsgPost(k.tasks[j].resume.owner, m, 0, 0, false);
            && Legal(k, post) && SuspendedWaiter(After1(k, post), j, q)
            && After1(k, post).tasks[j] == k.tasks[j] && !Q.AllDelayed(After1(k, post).queues[q].msgs)
  {
    hide After1, Inv;
    SleepsThrough(k, MsgPost(k.tasks[j].resume.owner, m, 0, 0, false), j, q);
    PostArrives(k.queues[q], Stamped(m, 0, 0));
  }

  /** A suspended receiver loses a wake-up: whenever somebody posts an immediate message to
      the queue it was blocked on, resuming it leaves it waiting although the queue holds an
      expired message. */
  lemma SuspendedReceiverLosesThePost(k: Kernel, j: nat, q: nat, m: Msg)
    requires Inv(k) && SuspendedWaiter(k, j, q) && k.tasks[j].resume.InReceive? && !Q.Full(k.queues[q])
    ensures var ops := [MsgPost(k.tasks[j].resume.owner, m, 0, 0, false), ResumeTask(j)];
            LegalRun(k, ops) && LeftWaiting(Run(k, ops), j)
  {
    hide After1, Inv, LeftWaiting;
    var post := MsgPost(k.tasks[j].resume.owner, m, 0, 0, false);
    WaiterLosesAPost(k, j, q, m);
    ResumedIsStillWaiting(After1(k, post), j, q);
    RunOfTwo(k, post, ResumeTask(j));
  }

  lemma SuspendedReceiverCanLose(k: Kernel, j: nat, q: nat)
    requires Inv(k) && SuspendedWaiter(k, j, q) && k.tasks[j].resume.InReceive?
    ensures CanLose(k, j)
  {
    if k.queues[q].msgs != [] {
      WaiterLosesATick(k, j, q, MinDelay(k.queues[q].msgs));
    } else {
      var m := Msg([0, 0, 0, 0], 0, 0, []);
      var post := MsgPost(k.tasks[j].resume.owner, m, 0, 0, false);
      WaiterLosesAPost(k, j, q, m);
      hide After1, CanLose;
      OpenedCanLose(After1(k, post), j, q);
      LosesAfter(k, post, j);
    }
  }

  // ----- Posters: a message that leaves makes room -------------------------------------

  /** What an asynchronous receive does while message i is expired and one-shot: it makes room,
      or it moves message i forward. */
  lemma ReceiveTowards(s: Q.Queue, i: nat)
    requires i < |s.msgs| <= s.cap && s.msgs[i].delay == 0 && s.msgs[i].reload == 0
    ensures var f, r := Q.FirstReady(s.msgs), Q.Steps(s, [Q.Receive]);
            && f <= i
            && if s.msgs[f].reload == 0 then !Q.Full(r)
               else f < i && i - f - 1 < |r.msgs| <= r.cap && r.msgs[i - f - 1] == s.msgs[i]
  {
    StepsOne(s, Q.Receive);
  }

  lemma ReceiveSleepsThrough(k: Kernel, j: nat, q: nat)
    requires Inv(k) && SuspendedWaiter(k, j, q) && k.tasks[j].resume.InPost?
    ensures var receive := MsgReceive(k.tasks[j].resume.dest, true);
            && Legal(k, receive) && SuspendedWaiter(After1(k, receive), j, q)
            && After1(k, receive).tasks[j] == k.tasks[j]
            && After1(k, receive).queues[q] == Q.Steps(k.queues[q], [Q.Receive])
  {
    hide After1, Inv;
    SleepsThrough(k, MsgReceive(k.tasks[j].resume.dest, true), j, q);
  }

  /** Ticks expire message i, receives then bring it to the front and out. */
  lemma {:induction false} PosterLosesAReceive(k: Kernel, j: nat, q: nat, i: nat)
    requires Inv(k) && SuspendedWaiter(k, j, q) && k.tasks[j].resume.InPost?
    requires i < |k.queues[q].msgs| <= k.queues[q].cap && k.queues[q].msgs[i].reload == 0
    ensures CanLose(k, j)
    decreases k.queues[q].msgs[i].delay, i
  {
    hide After1, CanLose, Inv;
    if k.queues[q].msgs[i].delay > 0 {
      SleepsThrough(k, Tick, j, q);
      StepsOne(k.queues[q], Q.Tick);
      PosterLosesAReceive(After1(k, Tick), j, q, i);
      LosesAfter(k, Tick, j);
    } else {
      var f, receive := Q.FirstReady(k.queues[q].msgs), MsgReceive(k.tasks[j].resume.dest, true);
      ReceiveTowards(k.queues[q], i);
      ReceiveSleepsThrough(k, j, q);
      if k.queues[q].msgs[f].reload == 0 {
        OpenedCanLose(After1(k, receive), j, q);
      } else {
        PosterLosesAReceive(After1(k, receive), j, q, i - f - 1);
      }
      LosesAfter(k, receive, j);
    }
  }

  // ----- Posters: a full queue of periodic messages stays full -------------------------

  predicate AllPeriodic(s: Q.Queue) {
    forall i | 0 <= i < |s.msgs| :: s.msgs[i].reload > 0
  }

  predicate Jammed(s: Q.Queue) {
    Q.Full(s) && AllPeriodic(s)
  }

  lemma JammedNext(s: Q.Queue, op: Q.QueueOp)
    requires Jammed(s)
    ensures Jammed(Q.Step(s, op))
  {
  }

  lemma {:induction false} JammedStays(s: Q.Queue, ops: seq<Q.QueueOp>)
    requires Jammed(s)
    ensures Jammed(Q.Steps(s, ops))
    decreases |ops|
  {
    if ops != [] {
      JammedNext(s, ops[0]);
      JammedStays(Q.Step(s, ops[0]), ops[1..]);
    }
  }

  /** A poster that will never get its message into queue q. */
  ghost predicate StuckPoster(k: Kernel, j: nat, q: nat) {
    && j < |k.tasks| && j != k.runningTid
    && k.tasks[j].resume.InPost? && q == Find(k, k.tasks[j].resume.dest) < |k.queues| && Jammed(k.queues[q])
  }

  lemma {:induction false} OthersKeepResume(k: Kernel, t: Task, acts: seq<Action>)
    requires Sound(t) && Parked(k, t) && Gated(k, t) && Retrying(t) && AllForeign(acts)
    ensures DoAll(t, acts).resume == t.resume
    decreases |acts|
  {
    if acts != [] {
      assert Foreign(acts[0]) && forall a | a in acts[1..] :: a in acts;
      SoundNext(t, acts[0]);
      ParkedNext(k, t, acts[0]);
      if t.state == KILLED || t.state != WAITING_SEM {
        OthersKeepResume(k, Do(t, acts[0]), acts[1..]);
      }
    }
  }

  lemma FullPostBlocks(k: Kernel, event: nat, dest: nat, m: Msg, delay: uint32, period: uint32)
    requires Sized(k) && k.runningTid != NO_TID && event < |k.signaledBy|
    requires Find(k, dest) < |k.queues| && Q.Full(k.queues[Find(k, dest)])
    ensures var r := TryPost(k, event, dest, m, delay, period, false);
            && r.runningTid == NO_TID && k.runningTid < |r.tasks|
            && r.tasks[k.runningTid].resume == InPost(dest, Stamped(m, delay, period), delay, period)
  {
    YieldSetsResume(Forget(k, event), [NoteResult(FULL)] + WaitActions(Forget(k, event), event, 0),
                    InPost(dest, Stamped(m, delay, period), delay, period));
  }

  /** A poster that is dispatched while its queue is full blocks again, for the same message. */
  lemma RetryBlocksAgain(k: Kernel, j: nat, q: nat)
    requires Inv(k) && Legal(k, Dispatch) && Select(k) == j < |k.tasks| && k.tasks[j].resume.InPost?
    requires q == Find(k, k.tasks[j].resume.dest) < |k.queues| && Q.Full(k.queues[q])
    ensures var r, at := After1(k, Dispatch), k.tasks[j].resume;
            && r.runningTid == NO_TID && j < |r.tasks|
            && r.tasks[j].resume == InPost(at.dest, Stamped(at.msg, at.delay, at.period), at.delay, at.period)
  {
    hide TryPost, Find, SameShape;
    InvKnowsEvents(k);
    ReadyIsSelected(k);
    var d, t := Dispatched(k), k.tasks[j];
    assert Parked(k, t);
    FoundQueue(k, d, t.resume.dest);
    FullPostBlocks(d, t.msgChangeEvent, t.resume.dest, t.resume.msg, t.resume.delay, t.resume.period);
  }

  lemma OtherStepKeepsResume(k: Kernel, op: Op, j: nat)
    requires Inv(k) && Legal(k, op) && j < |k.tasks| && j != k.runningTid && Runner(k, op) != j && Retrying(k.tasks[j])
    ensures var r := After1(k, op);
            j < |r.tasks| && j != r.runningTid && r.tasks[j].resume == k.tasks[j].resume
  {
    InvKnowsEvents(k);
    TaskStays(k, op, j);
    OthersActForeign(k, op, j);
    assert Sound(k.tasks[j]) && Parked(k, k.tasks[j]) && Gated(k, k.tasks[j]);
    OthersKeepResume(k, k.tasks[j], ActionsOf(k, op, j));
    RunnerOrNobody(k, op);
  }

  lemma StuckStaysStuck(k: Kernel, op: Op, j: nat, q: nat)
    requires Inv(k) && Legal(k, op) && StuckPoster(k, j, q)
    ensures StuckPoster(After1(k, op), j, q)
  {
    assert Q.Full(k.queues[q]);
    hide After1, Jammed;
    QueueStays(k, op, q);
    JammedStays(k.queues[q], QueueOpsOf(k, op, q));
    FindStays(k, op, k.tasks[j].resume.dest);
    if Runner(k, op) == j {
      RetryBlocksAgain(k, j, q);
    } else {
      OtherStepKeepsResume(k, op, j);
    }
  }

  lemma FindStays(k: Kernel, op: Op, owner: nat)
    requires Inv(k) && Legal(k, op) && Find(k, owner) < |k.queues|
    ensures Find(After1(k, op), owner) == Find(k, owner)
  {
    InvKnowsEvents(k);
    if SetUp(op) {
      FindGrows(k.queues, After1(k, op).queues, owner, 0);
    } else {
      StepShape(k, op);
      FoundQueue(k, Step(k, op), owner);
    }
  }

  lemma {:induction false} StuckPosterIsJustified(k: Kernel, ops: seq<Op>, j: nat, q: nat)
    requires Inv(k) && LegalRun(k, ops) && StuckPoster(k, j, q)
    ensures StuckPoster(Run(k, ops), j, q) && !LeftWaiting(Run(k, ops), j)
    decreases |ops|
  {
    hide After1;
    if ops != [] {
      StuckStaysStuck(k, ops[0], j, q);
      StuckPosterIsJustified(After1(k, ops[0]), ops[1..], j, q);
    }
  }

  // ----- Tasks that are not suspended --------------------------------------------------

  lemma {:induction false} AwakeTaskMissesNothing(w: Watched, ops: seq<Op>, j: nat)
    requires WatchedInv(w) && LegalRun(w.k, ops) && SuspendsNoWaiter(w.k, ops)
    requires j < |w.k.tasks| && !w.missed[j] && NotSuspendedWaiting(w.k.tasks[j])
    ensures j < |WatchedRun(w, ops).missed| && !WatchedRun(w, ops).missed[j]
    decreases |ops|
  {
    hide After1, NotSuspendedWaiting;
    if ops != [] {
      TaskMissesNothing(w.k, ops[0], j);
      AwakeTaskMissesNothing(WatchedStep(w, ops[0]), ops[1..], j);
    }
  }

  lemma AwakeTaskCannotLose(w: Watched, j: nat)
    requires WatchedInv(w) && NoLostWakeUp(w)
    requires j < |w.k.tasks| && !w.missed[j] && NotSuspendedWaiting(w.k.tasks[j])
    ensures !CanLose(w.k, j)
  {
    forall ops: seq<Op> | LegalRun(w.k, ops) && SuspendsNoWaiter(w.k, ops)
      ensures !LeftWaiting(Run(w.k, ops), j)
    {
      AwakeTaskMissesNothing(w, ops, j);
      NoRunLosesAWakeUp(w, ops);
    }
  }

  // ----- The exact conditions ----------------------------------------------------------

  /** Task j is blocked in a message post or receive on queue q, suspended or not, and has
      missed nothing so far; another task is running. */
  ghost predicate BlockedOnQueue(w: Watched, j: nat, q: nat)
    requires WatchedInv(w)
  {
    && j < |w.k.tasks| && j != w.k.runningTid && w.k.runningTid != NO_TID && !w.missed[j]
    && EffectiveState(w.k.tasks[j]) == WAITING_EVENT
    && Retrying(w.k.tasks[j]) && q == Find(w.k, Partner(w.k.tasks[j])) < |w.k.queues|
  }

  /** Some continuation leaves a blocked receiver waiting for no reason if and only if it is
      suspended now. */
  lemma ReceiverCanLoseIffSuspended(w: Watched, j: nat, q: nat)
    requires WatchedInv(w) && NoLostWakeUp(w) && BlockedOnQueue(w, j, q) && w.k.tasks[j].resume.InReceive?
    ensures CanLose(w.k, j) <==> w.k.tasks[j].state == SUSPENDED
  {
    hide CanLose, Inv, NoLostWakeUp;
    if w.k.tasks[j].state == SUSPENDED {
      SuspendedReceiverCanLose(w.k, j, q);
    } else {
      AwakeTaskCannotLose(w, j);
    }
  }

  /** Some continuation leaves a blocked poster waiting for no reason if and only if it is
      suspended now and its full queue holds a one-shot message. */
  lemma PosterCanLoseIff(w: Watched, j: nat, q: nat)
    requires WatchedInv(w) && NoLostWakeUp(w) && BlockedOnQueue(w, j, q) && w.k.tasks[j].resume.InPost?
    ensures CanLose(w.k, j) <==>
            && w.k.tasks[j].state == SUSPENDED
            && exists i | 0 <= i < |w.k.queues[q].msgs| :: w.k.queues[q].msgs[i].reload == 0
  {
    hide CanLose;
    var k := w.k;
    if k.tasks[j].state != SUSPENDED {
      AwakeTaskCannotLose(w, j);
    } else if i: nat :| i < |k.queues[q].msgs| && k.queues[q].msgs[i].reload == 0 {
      PosterLosesAReceive(k, j, q, i);
    } else {
      assert Justified(k, k.tasks[j]);
      JammedPosterCannotLose(k, j, q);
    }
  }

  lemma JammedPosterCannotLose(k: Kernel, j: nat, q: nat)
    requires Inv(k) && StuckPoster(k, j, q)
    ensures !CanLose(k, j)
  {
    forall ops: seq<Op> | LegalRun(k, ops) && SuspendsNoWaiter(k, ops)
      ensures !LeftWaiting(Run(k, ops), j)
    {
      StuckPosterIsJustified(k, ops, j, q);
    }
  }
}
