// Who runs next: least prio number first, or round robin, where no ready task waits longer
// than one round.
module Scheduling {
  import opened Types
  import opened TaskSpec
  import opened KernelSpec
  import opened Steps
  import opened Projection
  import opened Invariant
  import opened Runs

  // ----- Priorities --------------------------------------------------------------------

  /** The search finds nobody exactly when nobody wanted has a prio below 255; whom it finds
      has the least prio number, the first of equals. */
  lemma {:induction false} BestPrioMeaning(ts: seq<Task>, w: Wanted, n: nat)
    requires n <= |ts| < NO_TID
    ensures var b := BestPrio(ts, w, n);
            if b == NO_TID then forall i | 0 <= i < n && Wants(w, ts[i]) :: ts[i].prio == 255
            else
              && Wants(w, ts[b]) && ts[b].prio < 255
              && (forall i | 0 <= i < n && Wants(w, ts[i]) :: ts[b].prio <= ts[i].prio)
              && (forall i | 0 <= i < b && Wants(w, ts[i]) :: ts[b].prio < ts[i].prio)
  {
    if n > 0 {
      BestPrioMeaning(ts, w, n - 1);
    }
  }

  /** Under priority scheduling a ready task gets the processor exactly when some ready task
      has a prio below 255; the task manual allows 255 too. */
  lemma PriorityDispatch(k: Kernel)
    requires Sized(k) && !k.cfg.roundRobin
    ensures Select(k) != NO_TID <==> exists i | 0 <= i < |k.tasks| :: k.tasks[i].state == READY && k.tasks[i].prio < 255
    ensures Select(k) != NO_TID ==>
              && k.tasks[Select(k)].state == READY
              && forall i | 0 <= i < |k.tasks| && k.tasks[i].state == READY :: k.tasks[Select(k)].prio <= k.tasks[i].prio
  {
    BestPrioMeaning(k.tasks, Ready, |k.tasks|);
    if i :| 0 <= i < |k.tasks| && k.tasks[i].state == READY && k.tasks[i].prio < 255 {
      assert Wants(Ready, k.tasks[i]);
    }
  }

  // ----- Round robin -------------------------------------------------------------------

  /** How many places after start task j comes, going round. */
  function Distance(start: nat, j: nat, n: nat): nat
    requires start < n && j < n
  {
    if j >= start then j - start else j + n - start
  }

  /** How many tasks are looked at before j at the next dispatch. */
  function Rank(last: nat, j: nat, n: nat): (r: nat)
    requires j < n
    ensures r < n
  {
    Distance(ScanStart(n, last), j, n)
  }

  /** The scan stops at the first ready task, so not after j if j is ready. */
  lemma {:induction false} ScanStopsInTime(ts: seq<Task>, start: nat, c: nat, j: nat)
    requires start < |ts| < NO_TID && j < |ts| && ts[j].state == READY
    requires c <= Distance(start, j, |ts|)
    ensures var r := ScanFrom(ts, start, c);
            r != NO_TID && ts[r].state == READY && c <= Distance(start, r, |ts|) <= Distance(start, j, |ts|)
    decreases |ts| - c
  {
    var i := Cyclic(start, c, |ts|);
    assert Distance(start, i, |ts|) == c;
    if ts[i].state != READY {
      assert i != j;
      assert c != Distance(start, j, |ts|);
      ScanStopsInTime(ts, start, c + 1, j);
    }
  }

  /** next_ready_task finds a ready task if there is one, and every ready task it passes over
      moves up. */
  lemma PassedOverMovesUp(ts: seq<Task>, last: nat, j: nat)
    requires |ts| < NO_TID && j < |ts| && ts[j].state == READY
    ensures NextReady(ts, last) != NO_TID && ts[NextReady(ts, last)].state == READY
    ensures NextReady(ts, last) != j ==> Rank(NextReady(ts, last), j, |ts|) < Rank(last, j, |ts|)
  {
    ScanStopsInTime(ts, ScanStart(|ts|, last), 0, j);
  }

  /** The tasks dispatched during a run, in order. */
  ghost function Dispatches(k: Kernel, ops: seq<Op>): seq<nat>
    requires Inv(k) && LegalRun(k, ops)
    decreases |ops|
  {
    if ops == [] then []
    else (if ops[0].Dispatch? then [Select(k)] else []) + Dispatches(After1(k, ops[0]), ops[1..])
  }

  /** Task j is ready whenever the scheduler looks. */
  ghost predicate ReadyAtDispatches(k: Kernel, ops: seq<Op>, j: nat)
    requires Inv(k) && LegalRun(k, ops) && j < |k.tasks|
    decreases |ops|
  {
    ops == [] ||
    (TaskStays(k, ops[0], j);
     (ops[0].Dispatch? ==> k.tasks[j].state == READY) && ReadyAtDispatches(After1(k, ops[0]), ops[1..], j))
  }

  lemma ContinueStaysInRound(k: Kernel)
    requires Sized(k) && k.runningTid != NO_TID
    requires Retrying(k.tasks[k.runningTid]) ==> k.tasks[k.runningTid].msgChangeEvent < |k.signaledBy|
    ensures Continue(k).lastRunningTask == k.lastRunningTask
  {
  }

  lemma DispatchMovesOn(k: Kernel)
    requires Inv(k) && Legal(k, Dispatch)
    ensures var r := After1(k, Dispatch);
            |r.tasks| == |k.tasks| && r.running && r.cfg == k.cfg
            && r.lastRunningTask == if k.cfg.roundRobin then Select(k) else k.lastRunningTask
  {
    hide Continue;
    InvKnowsEvents(k);
    StepShape(k, Dispatch);
    ReadyIsSelected(k);
    if Select(k) != NO_TID {
      ContinueStaysInRound(Dispatched(k));
    }
  }

  lemma QueueCallStaysInRound(k: Kernel, op: Op)
    requires Sized(k) && EventsKnown(k) && Legal(k, op) && (op.MsgPost? || op.MsgReceive?)
    ensures Step(k, op).lastRunningTask == k.lastRunningTask
  {
  }

  lemma OtherCallStaysInRound(k: Kernel, op: Op)
    requires Sized(k) && EventsKnown(k) && Legal(k, op) && !op.Dispatch? && !op.MsgPost? && !op.MsgReceive?
    ensures Step(k, op).lastRunningTask == k.lastRunningTask
  {
  }

  /** Only a dispatch moves the round on, and a running kernel creates no tasks. */
  lemma RoundStays(k: Kernel, op: Op)
    requires Inv(k) && Legal(k, op) && k.running && !op.Dispatch?
    ensures var r := After1(k, op);
            |r.tasks| == |k.tasks| && r.running && r.cfg == k.cfg && r.lastRunningTask == k.lastRunningTask
  {
    InvKnowsEvents(k);
    if op.MsgPost? || op.MsgReceive? {
      QueueCallStaysInRound(k, op);
    } else {
      OtherCallStaysInRound(k, op);
    }
    hide Step;
    if !SetUp(op) {
      StepShape(k, op);
    } else {
      SetUpKeepsTasks(k, op);
    }
  }

  lemma SetUpKeepsTasks(k: Kernel, op: Op)
    requires Sized(k) && EventsKnown(k) && Legal(k, op) && k.running && SetUp(op)
    ensures Step(k, op).tasks == k.tasks && Step(k, op).running && Step(k, op).cfg == k.cfg
  {
  }

  /** Bounded waiting: however the other tasks, the interrupts and the queues behave, a task
      that is ready at every dispatch is passed over at most as often as there are tasks in
      front of it, so it is among any nTasks dispatches. */
  lemma {:induction false} RoundRobinIsFair(k: Kernel, ops: seq<Op>, j: nat)
    requires Inv(k) && LegalRun(k, ops) && k.running && k.cfg.roundRobin
    requires j < |k.tasks| && ReadyAtDispatches(k, ops, j)
    ensures j !in Dispatches(k, ops) ==> |Dispatches(k, ops)| <= Rank(k.lastRunningTask, j, |k.tasks|)
    ensures |Dispatches(k, ops)| >= |k.tasks| ==> j in Dispatches(k, ops)
    decreases |ops|
  {
    hide After1;
    if ops != [] {
      TaskStays(k, ops[0], j);
      if ops[0].Dispatch? {
        PassedOverMovesUp(k.tasks, k.lastRunningTask, j);
        DispatchMovesOn(k);
      } else {
        RoundStays(k, ops[0]);
      }
      RoundRobinIsFair(After1(k, ops[0]), ops[1..], j);
    }
  }
}
