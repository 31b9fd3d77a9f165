// How long a wait lasts, from the call that begins it: task_wait, event_wait with and without a
// timeout, and task_suspend, each in terms of its own arguments.
module Waiting {
  import opened Types
  import opened TaskSpec
  import opened TaskLife
  import opened KernelSpec
  import opened Steps
  import opened Projection
  import opened Invariant
  import opened Runs
  import opened Suspension

  // ----- task_wait ---------------------------------------------------------------------

  lemma AfterTaskWait(k: Kernel, c: uint8, n: uint32)
    requires Inv(k) && Legal(k, TaskWait(c, n))
    ensures var r, j := After1(k, TaskWait(c, n)), k.runningTid;
            && j < |r.tasks| && r.runningTid == NO_TID
            && r.tasks[j].state == WAITING_TIME && r.tasks[j].clockId == c && r.tasks[j].time == n
            && r.tasks[j].resume == After
  {
    TaskStays(k, TaskWait(c, n), k.runningTid);
    WaitAndYield(k.tasks[k.runningTid], WaitTime(c, n), After);
  }

  /** task_wait_id(c, n): in any run that nobody suspends or kills the caller in, it sleeps with
      what clock c has not advanced yet left, and the step with which that clock reaches n makes
      it ready; no other clock matters. */
  lemma TaskWaitIsExact(k: Kernel, c: uint8, n: uint32, ops: seq<Op>)
    requires Inv(k) && Legal(k, TaskWait(c, n)) && LegalRun(After1(k, TaskWait(c, n)), ops)
    requires Undisturbed(ops, k.runningTid)
    requires ops != [] ==> ClockSum(ops[..|ops| - 1], c) < n
    ensures var r, j := Run(After1(k, TaskWait(c, n)), ops), k.runningTid;
            && j < |r.tasks| && r.tasks[j].resume == After
            && if ClockSum(ops, c) < n then r.tasks[j].state == WAITING_TIME && r.tasks[j].time == n - ClockSum(ops, c)
               else r.tasks[j].state == READY && r.tasks[j].time == 0
  {
    AfterTaskWait(k, c, n);
    hide After1, Inv;
    SleepIsExactInRuns(After1(k, TaskWait(c, n)), ops, k.runningTid);
  }

  // ----- event_wait and event_wait_timeout ---------------------------------------------

  lemma AfterEventWait(k: Kernel, e: nat, n: uint32)
    requires Inv(k) && Legal(k, EventWait(e, n)) && e < k.nEvents
    ensures var r, j := After1(k, EventWait(e, n)), k.runningTid;
            && j < |r.tasks| && r.runningTid == NO_TID
            && r.tasks[j].waits == {e} && r.tasks[j].waitSingleEvent && r.tasks[j].resume == After
            && (if n == 0 then r.tasks[j].state == WAITING_EVENT
                else r.tasks[j].state == WAITING_EVENT_TIMEOUT && r.tasks[j].clockId == 0 && r.tasks[j].time == n)
  {
    var t := k.tasks[k.runningTid];
    assert Sound(t) && t.waits == {};
    TaskStays(k, EventWait(e, n), k.runningTid);
    WaitAndYield(t, WaitEvent(e, n), After);
    assert {} + {e} == {e};
    assert WaitActions(k, e, n) + [Yield(After)] == [WaitEvent(e, n), Yield(After)];
  }

  /** Whatever happens to a task in a timed wait for the single event e from outside: it waits on
      with exactly the rest of its time while e is not signalled and its clock not run out, and
      is ready otherwise, without time left if e was not signalled, with some left if the clock
      did not run out. */
  lemma {:induction false} TimedEventWaitIsExact(t: Task, acts: seq<Action>, e: nat)
    requires t.state == WAITING_EVENT_TIMEOUT && t.waits == {e} && t.waitSingleEvent && t.clockId == 0 && t.time > 0
    requires AllPassive(acts)
    ensures var u, gone := DoAll(t, acts), Advance(acts, 0);
            if e !in Signalled(acts) && gone < t.time then u == t.(time := t.time - gone)
            else
              && u.state == READY && u.resume == t.resume && u.waits == {} && !u.waitSingleEvent
              && (e !in Signalled(acts) ==> u.time == 0) && (gone < t.time ==> u.time > 0)
    decreases |acts|
  {
    if acts != [] {
      assert Passive(acts[0]) && forall a | a in acts[1..] :: a in acts;
      var u := Do(t, acts[0]);
      if u.state == READY {
        PassiveLeavesAwake(u, acts[1..]);
      } else {
        TimedEventWaitIsExact(u, acts[1..], e);
      }
    }
  }

  lemma {:induction false} LeftAloneAdvances(k: Kernel, ops: seq<Op>, j: nat, c: uint8)
    requires Inv(k) && LegalRun(k, ops) && j < |k.tasks| && LeftAlone(k, ops, j)
    ensures Advance(ActionsIn(k, ops, j), c) == ClockSum(ops, c)
    decreases |ops|
  {
    hide After1, ActionsOf;
    if ops != [] {
      TaskStays(k, ops[0], j);
      StepAdvances(k, ops[0], j, c);
      LeftAloneAdvances(After1(k, ops[0]), ops[1..], j, c);
      AdvanceConcat(ActionsOf(k, ops[0], j), ActionsIn(After1(k, ops[0]), ops[1..], j), c);
    }
  }

  /** What a run does to a task it leaves alone. */
  lemma LeftAloneActions(k: Kernel, ops: seq<Op>, j: nat)
    requires Inv(k) && LegalRun(k, ops) && j < |k.tasks| && LeftAlone(k, ops, j)
    ensures j < |Run(k, ops).tasks| && Run(k, ops).tasks[j] == DoAll(k.tasks[j], ActionsIn(k, ops, j))
    ensures AllPassive(ActionsIn(k, ops, j)) && Signalled(ActionsIn(k, ops, j)) == RaisedIn(k, ops)
    ensures Advance(ActionsIn(k, ops, j), 0) == ClockSum(ops, 0)
  {
    RunProjects(k, ops, j);
    LeftAloneIsPassive(k, ops, j);
    RunBroadcasts(k, ops, j);
    LeftAloneAdvances(k, ops, j, 0);
  }

  /** The wait for event e with limit n, none if n is zero, is over. */
  predicate WaitIsOver(e: nat, n: nat, raised: set<nat>, gone: nat) {
    e in raised || (n > 0 && gone >= n)
  }

  /** How a task stands in that wait. */
  ghost predicate StandsInWait(u: Task, e: nat, n: nat, raised: set<nat>, gone: nat) {
    && u.resume == After
    && (u.state == READY <==> WaitIsOver(e, n, raised, gone))
    && (u.state == READY && n > 0 && e !in raised ==> u.time == 0)
    && (u.state == READY && n > 0 && gone < n ==> u.time > 0)
    && (u.state != READY && n == 0 ==> u.state == WAITING_EVENT)
    && (u.state != READY && n > 0 ==> u.state == WAITING_EVENT_TIMEOUT && gone < n && u.time == n - gone)
  }

  lemma StandsAfter(t: Task, acts: seq<Action>, e: nat, n: nat)
    requires t.waits == {e} && t.waitSingleEvent && t.resume == After && AllPassive(acts)
    requires if n == 0 then t.state == WAITING_EVENT
             else t.state == WAITING_EVENT_TIMEOUT && t.clockId == 0 && t.time == n
    ensures StandsInWait(DoAll(t, acts), e, n, Signalled(acts), Advance(acts, 0))
  {
    if n == 0 {
      WaitAnyMeansAny(t, acts);
      assert e in Signalled(acts) <==> e in {e} * Signalled(acts);
    } else {
      TimedEventWaitIsExact(t, acts, e);
    }
  }

  /** event_wait(e), which is n == 0, and event_wait_timeout(e, n): in any run, until the caller
      is dispatched again, it is ready if and only if e has been signalled, by a task, an
      interrupt or a queue, or the master clock has advanced by n. While it waits it has exactly
      the rest of n left. When it is ready, its remaining time is zero if e was not signalled and
      positive if the clock had not run out. */
  lemma EventWaitIsExact(k: Kernel, e: nat, n: uint32, ops: seq<Op>)
    requires Inv(k) && Legal(k, EventWait(e, n)) && e < k.nEvents
    requires LegalRun(After1(k, EventWait(e, n)), ops) && LeftAlone(After1(k, EventWait(e, n)), ops, k.runningTid)
    ensures var m, j := After1(k, EventWait(e, n)), k.runningTid;
            && j < |Run(m, ops).tasks|
            && StandsInWait(Run(m, ops).tasks[j], e, n, RaisedIn(m, ops), ClockSum(ops, 0))
  {
    AfterEventWait(k, e, n);
    var m, j := After1(k, EventWait(e, n)), k.runningTid;
    hide After1, Inv, StandsInWait;
    LeftAloneActions(m, ops, j);
    StandsAfter(m.tasks[j], ActionsIn(m, ops, j), e, n);
  }

  /** And from then on it keeps the time it became ready with, so that the first of the two to
      come decides what event_get_timeout says. */
  lemma ReadyTaskKeepsItsTime(k: Kernel, ops: seq<Op>, j: nat)
    requires Inv(k) && LegalRun(k, ops) && j < |k.tasks| && LeftAlone(k, ops, j) && k.tasks[j].state == READY
    ensures j < |Run(k, ops).tasks| && Run(k, ops).tasks[j] == k.tasks[j]
  {
    LeftAloneActions(k, ops, j);
    PassiveLeavesAwake(k.tasks[j], ActionsIn(k, ops, j));
  }

  /** A wait for an event that does not exist is no wait. */
  lemma UnknownEventIsNoWait(k: Kernel, e: nat, n: uint32)
    requires Inv(k) && Legal(k, EventWait(e, n)) && e >= k.nEvents
    ensures var r, j := After1(k, EventWait(e, n)), k.runningTid;
            && j < |r.tasks| && r.runningTid == NO_TID
            && r.tasks[j] == k.tasks[j].(resume := After)
  {
    TaskStays(k, EventWait(e, n), k.runningTid);
    DoAllOne(k.tasks[k.runningTid], Yield(After));
    assert WaitActions(k, e, n) + [Yield(After)] == [Yield(After)];
  }

  // ----- task_suspend and task_resume --------------------------------------------------

  lemma {:induction false} NothingReaches(t: Task, acts: seq<Action>)
    requires t.state == SUSPENDED && AllForeign(acts) && forall a | a in acts :: !a.Resume? && !a.Kill?
    ensures DoAll(t, acts) == t
    decreases |acts|
  {
    if acts != [] {
      assert Foreign(acts[0]) && acts[0] in acts && forall a | a in acts[1..] :: a in acts;
      NothingReaches(t, acts[1..]);
    }
  }

  lemma TickResumesNothing(k: Kernel, clock: uint8, size: uint32, j: nat)
    requires Sized(k) && j < |k.tasks|
    ensures forall a | a in TickActions(k, clock, size, |k.tasks|, j) :: !a.Resume? && !a.Kill?
  {
    hide TickActions;
    TickActionsAre(k, clock, size, |k.tasks|, j);
  }

  lemma CallResumesNothing(k: Kernel, op: Op, j: nat)
    requires Sized(k) && Legal(k, op) && j != k.runningTid && op != ResumeTask(j) && op != KillTask(j)
    requires !op.Tick? && !op.SubTick? && !op.Dispatch? && !op.MsgPost? && !op.MsgReceive?
    ensures forall a | a in ActionsOf(k, op, j) :: !a.Resume? && !a.Kill?
  {
  }

  /** Only a resume or kill of task j resumes or kills it. */
  lemma OthersResumeNothing(k: Kernel, op: Op, j: nat)
    requires Inv(k) && Legal(k, op) && j < |k.tasks| && j != Runner(k, op)
    requires op != ResumeTask(j) && op != KillTask(j)
    ensures forall a | a in ActionsOf(k, op, j) :: !a.Resume? && !a.Kill?
  {
    hide TickActions;
    if op.Tick? {
      TickResumesNothing(k, 0, 1, j);
    } else if op.SubTick? {
      TickResumesNothing(k, op.id, op.n, j);
    } else if op.Dispatch? {
      DispatchIsSignal(k, j);
    } else if op.MsgPost? || op.MsgReceive? {
      QueueCallOnlySignals(k, op, j);
    } else {
      CallResumesNothing(k, op, j);
    }
  }

  lemma SuspendedDoesNotRun(k: Kernel, op: Op, j: nat)
    requires Inv(k) && Legal(k, op) && j < |k.tasks| && k.tasks[j].state == SUSPENDED
    ensures Runner(k, op) != j && k.runningTid != j
  {
    if op.Dispatch? {
      ReadyIsSelected(k);
    }
  }

  lemma SuspendedStep(k: Kernel, op: Op, j: nat)
    requires Inv(k) && Legal(k, op) && j < |k.tasks| && k.tasks[j].state == SUSPENDED
    requires op != ResumeTask(j) && op != KillTask(j)
    ensures j < |After1(k, op).tasks| && After1(k, op).tasks[j] == k.tasks[j]
  {
    hide After1, ActionsOf;
    InvKnowsEvents(k);
    SuspendedDoesNotRun(k, op, j);
    TaskStays(k, op, j);
    OthersActForeign(k, op, j);
    OthersResumeNothing(k, op, j);
    NothingReaches(k.tasks[j], ActionsOf(k, op, j));
  }

  /** Nobody resumes or kills j. */
  predicate Unresumed(ops: seq<Op>, j: nat) {
    forall op | op in ops :: op != ResumeTask(j) && op != KillTask(j)
  }

  /** A suspended task is not run, and nothing at all changes about it, until it is resumed or
      killed. */
  lemma {:induction false} SuspendedIsUntouched(k: Kernel, ops: seq<Op>, j: nat)
    requires Inv(k) && LegalRun(k, ops) && j < |k.tasks| && k.tasks[j].state == SUSPENDED && Unresumed(ops, j)
    ensures NotRun(k, ops, j) && j < |Run(k, ops).tasks| && Run(k, ops).tasks[j] == k.tasks[j]
    decreases |ops|
  {
    hide After1;
    if ops != [] {
      assert ops[0] in ops && forall op | op in ops[1..] :: op in ops;
      SuspendedDoesNotRun(k, ops[0], j);
      SuspendedStep(k, ops[0], j);
      SuspendedIsUntouched(After1(k, ops[0]), ops[1..], j);
    }
  }

  /** The task u that was t when it was suspended, itself the running task or not, and has been
      resumed: in the same state as before, but ready if it waited for a semaphore, with the
      same time left and the same events awaited; it goes on behind the call if it suspended
      itself, starts over if it waited for a semaphore, and otherwise resumes where it was. */
  ghost predicate ComesBack(t: Task, u: Task, itself: bool) {
    && u.state == (if t.state == WAITING_SEM then READY else t.state)
    && u.time == t.time && u.clockId == t.clockId && u.waits == t.waits && u.waitSingleEvent == t.waitSingleEvent
    && u.resume == (if itself then After else if t.state == WAITING_SEM then Top else t.resume)
  }

  /** The control block of a task that has just been suspended. */
  lemma SuspendedTaskIs(t: Task, itself: bool)
    requires t.state != KILLED && t.state != SUSPENDED && (itself ==> t.state != WAITING_SEM)
    ensures var u := DoAll(t, [Suspend] + if itself then [Yield(After)] else []);
            u.state == SUSPENDED && ComesBack(t, u.(state := u.savedState), itself)
  {
    DoAllOne(t, Suspend);
    if itself {
      DoAllConcat(t, [Suspend], [Yield(After)]);
      DoAllOne(Do(t, Suspend), Yield(After));
    } else {
      assert [Suspend] + [] == [Suspend];
    }
  }

  lemma AfterSuspend(k: Kernel, j: nat)
    requires Inv(k) && Legal(k, SuspendTask(j)) && k.tasks[j].state != KILLED && k.tasks[j].state != SUSPENDED
    ensures var r, t := After1(k, SuspendTask(j)), k.tasks[j];
            && j < |r.tasks| && r.tasks[j].state == SUSPENDED
            && ComesBack(t, r.tasks[j].(state := r.tasks[j].savedState), j == k.runningTid)
  {
    TaskStays(k, SuspendTask(j), j);
    SuspendedTaskIs(k.tasks[j], j == k.runningTid);
    hide After1, ComesBack, DoAll, Tables, TasksSound, TasksParked;
  }

  lemma AfterResume(k: Kernel, j: nat)
    requires Inv(k) && Legal(k, ResumeTask(j)) && k.tasks[j].state == SUSPENDED
    ensures j < |After1(k, ResumeTask(j)).tasks|
    ensures After1(k, ResumeTask(j)).tasks[j] == k.tasks[j].(state := k.tasks[j].savedState)
  {
    SuspendedDoesNotRun(k, ResumeTask(j), j);
    TaskStays(k, ResumeTask(j), j);
    DoAllOne(k.tasks[j], Resume);
    assert [Resume] + [] == [Resume];
  }

  /** task_suspend in any run: a task that is neither killed nor suspended already is suspended
      by it, is not run and does not change until it is resumed or killed, and comes back by
      the resume as it was. */
  lemma SuspensionIsFaithful(k: Kernel, j: nat, ops: seq<Op>)
    requires Inv(k) && Legal(k, SuspendTask(j)) && k.tasks[j].state != KILLED && k.tasks[j].state != SUSPENDED
    requires LegalRun(After1(k, SuspendTask(j)), ops) && Unresumed(ops, j)
    ensures var m := After1(k, SuspendTask(j));
            var r := Run(m, ops);
            && NotRun(m, ops, j) && j < |r.tasks| && r.tasks[j].state == SUSPENDED && j != r.runningTid
            && (Legal(r, ResumeTask(j)) ==>
                  && j < |After1(r, ResumeTask(j)).tasks|
                  && ComesBack(k.tasks[j], After1(r, ResumeTask(j)).tasks[j], j == k.runningTid))
  {
    AfterSuspend(k, j);
    hide After1, ComesBack;
    var m := After1(k, SuspendTask(j));
    SuspendedIsUntouched(m, ops, j);
    var r := Run(m, ops);
    SuspendedDoesNotRun(r, Tick, j);
    if Legal(r, ResumeTask(j)) {
      AfterResume(r, j);
    }
  }

  // ----- task_kill ---------------------------------------------------------------------

  /** Whatever a task is waiting for, task_kill kills it, and it is not run again unless it is
      the one that runs. */
  lemma KillKills(k: Kernel, j: nat)
    requires Inv(k) && Legal(k, KillTask(j))
    ensures j < |After1(k, KillTask(j)).tasks| && After1(k, KillTask(j)).tasks[j].state == KILLED
    ensures After1(k, KillTask(j)).runningTid == k.runningTid
  {
    TaskStays(k, KillTask(j), j);
    DoAllOne(k.tasks[j], Kill);
  }

  /** So does the end of a task's procedure, which also frees the processor. */
  lemma CloseKills(k: Kernel)
    requires Inv(k) && Legal(k, TaskClose)
    ensures var r := After1(k, TaskClose);
            k.runningTid < |r.tasks| && r.tasks[k.runningTid].state == KILLED && r.runningTid == NO_TID
  {
    TaskStays(k, TaskClose, k.runningTid);
    DoAllOne(k.tasks[k.runningTid], Kill);
  }
}
