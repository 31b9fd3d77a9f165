// Whole runs: any finite sequence of legal steps, in any order, from any reachable state.
module Runs {
  import opened Types
  import opened TaskSpec
  import opened TaskLife
  import opened KernelSpec
  import opened Steps
  import opened Projection
  import opened QueueProjection
  import opened Invariant
  import Q = QueueSpec
  import H = QueueHistory

  function After1(k: Kernel, op: Op): (r: Kernel)
    requires Inv(k) && Legal(k, op)
    ensures Inv(r)
  {
    InvKnowsEvents(k);
    InvStep(k, op);
    Step(k, op)
  }

  ghost predicate LegalRun(k: Kernel, ops: seq<Op>)
    requires Inv(k)
    decreases |ops|
  {
    ops == [] || (Legal(k, ops[0]) && LegalRun(After1(k, ops[0]), ops[1..]))
  }

  ghost function Run(k: Kernel, ops: seq<Op>): (r: Kernel)
    requires Inv(k) && LegalRun(k, ops)
    ensures Inv(r)
    decreases |ops|
  {
    if ops == [] then k else Run(After1(k, ops[0]), ops[1..])
  }

  lemma RunCons(k: Kernel, op: Op, rest: seq<Op>)
    requires Inv(k) && Legal(k, op) && LegalRun(After1(k, op), rest)
    ensures LegalRun(k, [op] + rest) && Run(k, [op] + rest) == Run(After1(k, op), rest)
  {
    hide After1, Legal;
    assert ([op] + rest)[0] == op && ([op] + rest)[1..] == rest;
  }

  lemma RunOfTwo(k: Kernel, a: Op, b: Op)
    requires Inv(k) && Legal(k, a) && Legal(After1(k, a), b)
    ensures LegalRun(k, [a, b]) && Run(k, [a, b]) == After1(After1(k, a), b)
  {
    hide After1, Legal;
    RunCons(After1(k, a), b, []);
    RunCons(k, a, [b]);
    assert [b] + [] == [b] && [a] + [b] == [a, b];
  }

  /** The invariant holds in every state any run reaches from power-up. */
  lemma EveryReachableStateIsSound(cfg: Config, ops: seq<Op>)
    requires ConfigOk(cfg)
    ensures Inv(Boot(cfg))
    ensures LegalRun(Boot(cfg), ops) ==> Inv(Run(Boot(cfg), ops))
  {
  }

  // ----- One task in a run -------------------------------------------------------------

  lemma TaskStays(k: Kernel, op: Op, j: nat)
    requires Inv(k) && Legal(k, op) && j < |k.tasks|
    ensures j < |After1(k, op).tasks|
    ensures After1(k, op).tasks[j] == DoAll(k.tasks[j], ActionsOf(k, op, j))
  {
    InvKnowsEvents(k);
    StepProjects(k, op, j);
  }

  /** Everything a run does to task j. */
  ghost function ActionsIn(k: Kernel, ops: seq<Op>, j: nat): seq<Action>
    requires Inv(k) && LegalRun(k, ops) && j < |k.tasks|
    decreases |ops|
  {
    if ops == [] then []
    else
      TaskStays(k, ops[0], j);
      ActionsOf(k, ops[0], j) + ActionsIn(After1(k, ops[0]), ops[1..], j)
  }

  /** A run acts on a task by these actions, one after the other. */
  lemma {:induction false} RunProjects(k: Kernel, ops: seq<Op>, j: nat)
    requires Inv(k) && LegalRun(k, ops) && j < |k.tasks|
    ensures j < |Run(k, ops).tasks|
    ensures Run(k, ops).tasks[j] == DoAll(k.tasks[j], ActionsIn(k, ops, j))
    decreases |ops|
  {
    if ops != [] {
      TaskStays(k, ops[0], j);
      RunProjects(After1(k, ops[0]), ops[1..], j);
      DoAllConcat(k.tasks[j], ActionsOf(k, ops[0], j), ActionsIn(After1(k, ops[0]), ops[1..], j));
    }
  }

  /** Task j is not dispatched, suspended or killed during the run. */
  ghost predicate LeftAlone(k: Kernel, ops: seq<Op>, j: nat)
    requires Inv(k) && LegalRun(k, ops)
    decreases |ops|
  {
    ops == [] ||
    (Runner(k, ops[0]) != j && ops[0] != SuspendTask(j) && ops[0] != KillTask(j) && LeftAlone(After1(k, ops[0]), ops[1..], j))
  }

  lemma {:induction false} LeftAloneIsPassive(k: Kernel, ops: seq<Op>, j: nat)
    requires Inv(k) && LegalRun(k, ops) && j < |k.tasks| && LeftAlone(k, ops, j)
    ensures AllPassive(ActionsIn(k, ops, j))
    decreases |ops|
  {
    if ops != [] {
      InvKnowsEvents(k);
      TaskStays(k, ops[0], j);
      OthersActForeign(k, ops[0], j);
      LeftAloneIsPassive(After1(k, ops[0]), ops[1..], j);
    }
  }

  /** Task j is neither dispatched nor killed during the run. */
  ghost predicate NotRunNorKilled(k: Kernel, ops: seq<Op>, j: nat)
    requires Inv(k) && LegalRun(k, ops)
    decreases |ops|
  {
    ops == [] ||
    (Runner(k, ops[0]) != j && ops[0] != KillTask(j) && NotRunNorKilled(After1(k, ops[0]), ops[1..], j))
  }

  lemma OnlyKillKills(k: Kernel, op: Op, j: nat)
    requires Inv(k) && Legal(k, op) && j < |k.tasks| && Runner(k, op) != j && op != KillTask(j)
    ensures forall a | a in ActionsOf(k, op, j) :: Outside(a)
  {
    InvKnowsEvents(k);
    OthersActForeign(k, op, j);
  }

  lemma {:induction false} NotRunIsOutside(k: Kernel, ops: seq<Op>, j: nat)
    requires Inv(k) && LegalRun(k, ops) && j < |k.tasks| && NotRunNorKilled(k, ops, j)
    ensures forall a | a in ActionsIn(k, ops, j) :: Outside(a)
    decreases |ops|
  {
    if ops != [] {
      TaskStays(k, ops[0], j);
      OnlyKillKills(k, ops[0], j);
      NotRunIsOutside(After1(k, ops[0]), ops[1..], j);
    }
  }

  /** In any run: when a task that waited for an event with a timeout next runs, its remaining
      time is zero if and only if a tick of the master clock ended the wait, and non-zero if
      and only if a signal of an awaited event did. */
  lemma TimeoutIsDistinguishable(k: Kernel, ops: seq<Op>, j: nat)
    requires Inv(k) && LegalRun(k, ops) && j < |k.tasks| && NotRunNorKilled(k, ops, j)
    requires EffectiveState(k.tasks[j]) == WAITING_EVENT_TIMEOUT
    ensures j < |Run(k, ops).tasks|
    ensures var t, w := Run(k, ops).tasks[j], WokenBy(k.tasks[j], ActionsIn(k, ops, j));
            t.state == READY ==>
              && w.Some?
              && (t.time == 0 <==> w.value.Timer? && w.value.clock == 0)
              && (t.time != 0 <==> w.value.Signal? && w.value.e in k.tasks[j].waits)
  {
    RunProjects(k, ops, j);
    NotRunIsOutside(k, ops, j);
    TimeTellsTimeout(k.tasks[j], ActionsIn(k, ops, j));
  }

  // ----- Killed tasks ------------------------------------------------------------------

  /** Whether a call makes its caller wait: the guards of the blocking branches. */
  predicate Waits(k: Kernel, op: Op) {
    match op
    case TaskWait(_, _) => true
    case EventWait(e, _) => e < k.nEvents
    case EventWaitMultiple(_, _) => true
    case SemWait(s) => s < |k.sems| && k.sems[s].value == 0
    case MsgPost(dest, _, _, _, async) =>
      !async && Find(k, dest) < |k.queues| && Q.Full(k.queues[Find(k, dest)])
    case MsgReceive(owner, async) =>
      !async && Find(k, owner) < |k.queues| && Q.AllDelayed(k.queues[Find(k, owner)].msgs)
    case _ => false
  }

  lemma QueueCallWaits(k: Kernel, op: Op)
    requires Sized(k) && Legal(k, op) && (op.MsgPost? || op.MsgReceive?)
    ensures (exists a | a in ActionsOf(k, op, k.runningTid) :: OwnWait(a)) <==> Waits(k, op)
    ensures forall a | a in ActionsOf(k, op, k.runningTid) :: !a.Kill? && !a.Resume?
  {
    var owner := if op.MsgPost? then op.dest else op.owner;
    var event := ChangeEvent(k, Find(k, owner));
    FindAfterNote(k, owner, owner);
    if Waits(k, op) {
      assert WaitEvent(event, 0) in WaitActions(Noted(k, owner), event, 0);
      assert WaitEvent(event, 0) in ActionsOf(k, op, k.runningTid);
    }
  }

  lemma PlainCallWaits(k: Kernel, op: Op)
    requires Sized(k) && Legal(k, op)
    requires op.TaskWait? || op.EventWait? || op.EventWaitMultiple? || op.SemWait?
    ensures (exists a | a in ActionsOf(k, op, k.runningTid) :: OwnWait(a)) <==> Waits(k, op)
    ensures forall a | a in ActionsOf(k, op, k.runningTid) :: !a.Kill? && !a.Resume?
  {
    if Waits(k, op) {
      assert ActionsOf(k, op, k.runningTid)[0] == SelfWait(k, op)[0];
      assert OwnWait(SelfWait(k, op)[0]);
    }
  }

  /** A killed task that is still running waits for something exactly by these calls. */
  lemma KilledTaskWaits(k: Kernel, op: Op, j: nat)
    requires Inv(k) && Legal(k, op) && j < |k.tasks| && k.tasks[j].state == KILLED
    ensures (exists a | a in ActionsOf(k, op, j) :: OwnWait(a)) <==> k.runningTid == j && Waits(k, op)
    ensures k.runningTid == j && Waits(k, op) ==> forall a | a in ActionsOf(k, op, j) :: !a.Kill? && !a.Resume?
  {
    InvKnowsEvents(k);
    if op.Dispatch? {
      ReadyIsSelected(k);
    }
    if j != Runner(k, op) {
      OthersActForeign(k, op, j);
    } else if op.MsgPost? || op.MsgReceive? {
      QueueCallWaits(k, op);
    } else if op.Tick? {
      TickIsForeign(k, 0, 1, j);
    } else if op.SubTick? && op.id != 0 {
      TickIsForeign(k, op.id, op.n, j);
    } else if op.TaskWait? || op.EventWait? || op.EventWaitMultiple? || op.SemWait? {
      PlainCallWaits(k, op);
    }
  }

  lemma {:induction false} WaitingIsAlive(t: Task, acts: seq<Action>)
    requires t.state != KILLED || exists a | a in acts :: OwnWait(a)
    requires forall a | a in acts :: !a.Kill? && !a.Resume?
    ensures DoAll(t, acts).state != KILLED
    decreases |acts|
  {
    if acts != [] {
      assert acts == [acts[0]] + acts[1..];
      WaitingIsAlive(Do(t, acts[0]), acts[1..]);
    }
  }

  /** One step revives a killed task if and only if it is a wait of that task. */
  lemma KilledStepIff(k: Kernel, op: Op, j: nat)
    requires Inv(k) && Legal(k, op) && j < |k.tasks| && k.tasks[j].state == KILLED
    ensures j < |After1(k, op).tasks|
    ensures After1(k, op).tasks[j].state == KILLED <==> !(k.runningTid == j && Waits(k, op))
  {
    hide After1, ActionsOf, Waits;
    TaskStays(k, op, j);
    KilledTaskWaits(k, op, j);
    if k.runningTid == j && Waits(k, op) {
      WaitingIsAlive(k.tasks[j], ActionsOf(k, op, j));
    } else {
      KilledIsAbsorbing(k.tasks[j], ActionsOf(k, op, j));
    }
  }

  /** Task j is killed after every step of the run. */
  ghost predicate StaysKilled(k: Kernel, ops: seq<Op>, j: nat)
    requires Inv(k) && LegalRun(k, ops)
    decreases |ops|
  {
    ops == [] ||
    (var r := After1(k, ops[0]); j < |r.tasks| && r.tasks[j].state == KILLED && StaysKilled(r, ops[1..], j))
  }

  /** Task j makes no call that makes it wait. */
  ghost predicate NeverWaits(k: Kernel, ops: seq<Op>, j: nat)
    requires Inv(k) && LegalRun(k, ops)
    decreases |ops|
  {
    ops == [] || (!(k.runningTid == j && Waits(k, ops[0])) && NeverWaits(After1(k, ops[0]), ops[1..], j))
  }

  /** A killed task stays killed through a run, whatever calls, ticks, signals and resumes it
      contains, if and only if it does not itself, still running, go on to wait. */
  lemma {:induction false} KilledStaysKilledIffItNeverWaits(k: Kernel, ops: seq<Op>, j: nat)
    requires Inv(k) && LegalRun(k, ops) && j < |k.tasks| && k.tasks[j].state == KILLED
    ensures StaysKilled(k, ops, j) <==> NeverWaits(k, ops, j)
    decreases |ops|
  {
    hide After1, Waits;
    if ops != [] {
      KilledStepIff(k, ops[0], j);
      if After1(k, ops[0]).tasks[j].state == KILLED {
        KilledStaysKilledIffItNeverWaits(After1(k, ops[0]), ops[1..], j);
      }
    }
  }

  /** A task killed by another, or at its end, does not run any more and so is killed for ever. */
  lemma {:induction false} KilledAndStoppedIsForEver(k: Kernel, ops: seq<Op>, j: nat)
    requires Inv(k) && LegalRun(k, ops) && j < |k.tasks| && k.tasks[j].state == KILLED && j != k.runningTid
    ensures StaysKilled(k, ops, j)
    decreases |ops|
  {
    if ops != [] {
      KilledStepIff(k, ops[0], j);
      KilledDoesNotRun(k, ops[0], j);
      hide After1;
      KilledAndStoppedIsForEver(After1(k, ops[0]), ops[1..], j);
    }
  }

  lemma KilledDoesNotRun(k: Kernel, op: Op, j: nat)
    requires Inv(k) && Legal(k, op) && j < |k.tasks| && k.tasks[j].state == KILLED && j != k.runningTid
    ensures After1(k, op).runningTid != j
  {
    if op.Dispatch? {
      ReadyIsSelected(k);
    }
    RunnerOrNobody(k, op);
  }

  /** After a step the task it ran is still running, or nobody is. */
  lemma RunnerOrNobody(k: Kernel, op: Op)
    requires Inv(k) && Legal(k, op)
    ensures After1(k, op).runningTid == Runner(k, op) || After1(k, op).runningTid == NO_TID
  {
    InvKnowsEvents(k);
    if !SetUp(op) {
      if Runner(k, op) != NO_TID {
        RunnerLeavesWell(k, op);
      } else {
        IdleStaysIdle(k, op);
      }
    }
  }

  // ----- Sleep -------------------------------------------------------------------------

  /** How far a step advances clock c. */
  function ClockStep(op: Op, c: uint8): nat {
    if op.Tick? && c == 0 then 1 else if op.SubTick? && op.id == c && c != 0 then op.n else 0
  }

  function ClockSum(ops: seq<Op>, c: uint8): nat
    decreases |ops|
  {
    if ops == [] then 0 else ClockStep(ops[0], c) + ClockSum(ops[1..], c)
  }

  lemma PassAdvances(k: Kernel, clock: uint8, size: uint32, i: nat, j: nat, c: uint8)
    requires Sized(k) && i < |k.tasks|
    ensures Advance(PassActions(k, clock, size, i, j), c) == if j == i && c == clock then size else 0
  {
    var own := if j == i then [Timer(clock, size)] else [];
    AdvanceConcat(own, QueueSignal(k, clock, i), c);
    AdvanceOne(own, c);
    AdvanceOne(QueueSignal(k, clock, i), c);
  }

  lemma {:induction false} TickAdvances(k: Kernel, clock: uint8, size: uint32, n: nat, j: nat, c: uint8)
    requires Sized(k) && n <= |k.tasks| && j < |k.tasks|
    ensures Advance(TickActions(k, clock, size, n, j), c) == if j < n && c == clock then size else 0
  {
    hide PassActions;
    if n > 0 {
      TickAdvances(k, clock, size, n - 1, j, c);
      PassAdvances(k, clock, size, n - 1, j, c);
      AdvanceConcat(TickActions(k, clock, size, n - 1, j), PassActions(k, clock, size, n - 1, j), c);
    }
  }

  lemma AdvanceOne(acts: seq<Action>, c: uint8)
    requires |acts| <= 1
    ensures Advance(acts, c) == if acts != [] && acts[0].Timer? && acts[0].clock == c then acts[0].size else 0
  {
    if acts != [] {
      assert acts[1..] == [];
    }
  }

  lemma {:induction false} NoTimerNoAdvance(acts: seq<Action>, c: uint8)
    requires forall a | a in acts :: !a.Timer?
    ensures Advance(acts, c) == 0
    decreases |acts|
  {
    if acts != [] {
      assert !acts[0].Timer? && forall a | a in acts[1..] :: a in acts;
      NoTimerNoAdvance(acts[1..], c);
    }
  }

  /** A step advances a task it does not run by as much as its clock, never twice. */
  lemma StepAdvances(k: Kernel, op: Op, j: nat, c: uint8)
    requires Inv(k) && Legal(k, op) && j < |k.tasks| && j != Runner(k, op)
    ensures Advance(ActionsOf(k, op, j), c) == ClockStep(op, c)
  {
    if op.Tick? {
      TickAdvances(k, 0, 1, |k.tasks|, j, c);
    } else if op.SubTick? && op.id != 0 {
      TickAdvances(k, op.id, op.n, |k.tasks|, j, c);
    } else if op.Dispatch? {
      DispatchIsSignal(k, j);
      NoTimerNoAdvance(ActionsOf(k, op, j), c);
    } else if op.MsgPost? || op.MsgReceive? {
      NoTimerNoAdvance(ActionsOf(k, op, j), c);
    } else {
      NoTimerNoAdvance(ActionsOf(k, op, j), c);
    }
  }

  lemma DispatchIsSignal(k: Kernel, j: nat)
    requires Inv(k) && Legal(k, Dispatch) && j < |k.tasks| && j != Select(k)
    ensures forall a | a in ActionsOf(k, Dispatch, j) :: a.Signal?
  {
  }

  lemma SleeperIsNotRun(k: Kernel, op: Op, j: nat)
    requires Inv(k) && Legal(k, op) && j < |k.tasks| && k.tasks[j].state == WAITING_TIME
    ensures Runner(k, op) != j
  {
    if op.Dispatch? {
      ReadyIsSelected(k);
    }
  }

  /** Nobody suspends or kills j. */
  predicate Undisturbed(ops: seq<Op>, j: nat) {
    forall op | op in ops :: op != SuspendTask(j) && op != KillTask(j)
  }

  lemma SleepStep(k: Kernel, op: Op, j: nat)
    requires Inv(k) && Legal(k, op) && j < |k.tasks| && op != SuspendTask(j) && op != KillTask(j)
    requires k.tasks[j].state == WAITING_TIME
    ensures j < |After1(k, op).tasks|
    ensures var t, gone := k.tasks[j], ClockStep(op, k.tasks[j].clockId);
            After1(k, op).tasks[j] ==
            if gone < t.time then t.(time := t.time - gone) else t.(time := 0, state := READY)
  {
    assert Sound(k.tasks[j]);
    InvKnowsEvents(k);
    SleeperIsNotRun(k, op, j);
    TaskStays(k, op, j);
    OthersActForeign(k, op, j);
    StepAdvances(k, op, j, k.tasks[j].clockId);
    SleepIsExact(k.tasks[j], ActionsOf(k, op, j));
  }

  /** In any run that nobody suspends or kills the sleeper in, whatever the other clocks do: as
      long as its clock has advanced less than its time it sleeps on with exactly the
      difference left, and the step with which the clock reaches its time makes it ready. */
  lemma {:induction false} SleepIsExactInRuns(k: Kernel, ops: seq<Op>, j: nat)
    requires Inv(k) && LegalRun(k, ops) && j < |k.tasks| && Undisturbed(ops, j)
    requires k.tasks[j].state == WAITING_TIME
    requires ops != [] ==> ClockSum(ops[..|ops| - 1], k.tasks[j].clockId) < k.tasks[j].time
    ensures j < |Run(k, ops).tasks|
    ensures var t, gone := k.tasks[j], ClockSum(ops, k.tasks[j].clockId);
            Run(k, ops).tasks[j] ==
            if gone < t.time then t.(time := t.time - gone) else t.(time := 0, state := READY)
    decreases |ops|
  {
    hide After1;
    assert Sound(k.tasks[j]);
    if ops != [] {
      var op, rest, c := ops[0], ops[1..], k.tasks[j].clockId;
      assert op in ops;
      SleepStep(k, op, j);
      if rest == [] {
        assert ClockSum(rest, c) == 0;
      } else {
        var front := ops[..|ops| - 1];
        assert front[0] == op && front[1..] == rest[..|rest| - 1];
        assert ClockSum(front, c) == ClockStep(op, c) + ClockSum(rest[..|rest| - 1], c);
        assert forall o | o in rest :: o in ops;
        SleepIsExactInRuns(After1(k, op), rest, j);
      }
    }
  }

  // ----- Events ------------------------------------------------------------------------

  /** The events a step signals: what it does to a bystander that is no task. */
  function Raises(k: Kernel, op: Op): set<nat>
    requires Sized(k) && Legal(k, op)
  {
    Signalled(ActionsOf(k, op, NO_TID))
  }

  lemma SignalledOne(acts: seq<Action>)
    requires |acts| <= 1
    ensures Signalled(acts) == if acts != [] && acts[0].Signal? then {acts[0].e} else {}
  {
    if acts != [] {
      assert acts[1..] == [];
    }
  }

  lemma {:induction false} NoSignalNothing(acts: seq<Action>)
    requires forall a | a in acts :: !a.Signal?
    ensures Signalled(acts) == {}
    decreases |acts|
  {
    if acts != [] {
      assert !acts[0].Signal? && forall a | a in acts[1..] :: a in acts;
      NoSignalNothing(acts[1..]);
    }
  }

  lemma {:induction false} SignalIsSignalled(acts: seq<Action>, e: nat)
    ensures e in Signalled(acts) <==> Signal(e) in acts
    decreases |acts|
  {
    if acts != [] {
      SignalIsSignalled(acts[1..], e);
      assert acts == [acts[0]] + acts[1..];
    }
  }

  lemma PassSignalsAll(k: Kernel, clock: uint8, size: uint32, n: nat, i: nat)
    requires Sized(k) && n < |k.tasks|
    ensures Signalled(PassActions(k, clock, size, n, i)) == Signalled(QueueSignal(k, clock, n))
  {
    var own := if i == n then [Timer(clock, size)] else [];
    SignalledConcat(own, QueueSignal(k, clock, n));
    SignalledOne(own);
  }

  lemma {:induction false} TickSignalsAll(k: Kernel, clock: uint8, size: uint32, n: nat, i: nat, j: nat)
    requires Sized(k) && n <= |k.tasks|
    ensures Signalled(TickActions(k, clock, size, n, i)) == Signalled(TickActions(k, clock, size, n, j))
  {
    hide PassActions, QueueSignal, Signalled;
    if n > 0 {
      TickSignalsAll(k, clock, size, n - 1, i, j);
      PassSignalsAll(k, clock, size, n - 1, i);
      PassSignalsAll(k, clock, size, n - 1, j);
      SignalledConcat(TickActions(k, clock, size, n - 1, i), PassActions(k, clock, size, n - 1, i));
      SignalledConcat(TickActions(k, clock, size, n - 1, j), PassActions(k, clock, size, n - 1, j));
    }
  }

  lemma TryPostSignalsAll(k: Kernel, event: nat, dest: nat, m: Msg, delay: uint32, period: uint32, async: bool, i: nat, j: nat)
    ensures Signalled(TryPostActions(k, event, dest, m, delay, period, async, i)) ==
            Signalled(TryPostActions(k, event, dest, m, delay, period, async, j))
  {
    var q := Find(k, dest);
    if q < |k.queues| && Q.Full(k.queues[q]) {
      NoSignalNothing(TryPostActions(k, event, dest, m, delay, period, async, i));
      NoSignalNothing(TryPostActions(k, event, dest, m, delay, period, async, j));
    }
  }

  lemma TryReceiveSignalsAll(k: Kernel, event: nat, owner: nat, async: bool, i: nat, j: nat)
    ensures Signalled(TryReceiveActions(k, event, owner, async, i)) ==
            Signalled(TryReceiveActions(k, event, owner, async, j))
  {
    var q := Find(k, owner);
    if q < |k.queues| && Q.AllDelayed(k.queues[q].msgs) {
      NoSignalNothing(TryReceiveActions(k, event, owner, async, i));
      NoSignalNothing(TryReceiveActions(k, event, owner, async, j));
    }
  }

  lemma QueueCallSignalsAll(k: Kernel, op: Op, j: nat)
    requires Sized(k) && Legal(k, op) && (op.MsgPost? || op.MsgReceive?)
    ensures Signalled(ActionsOf(k, op, j)) == Raises(k, op)
  {
    var owner := if op.MsgPost? then op.dest else op.owner;
    var n, event := Noted(k, owner), ChangeEvent(k, Find(k, owner));
    var first := if j == k.runningTid then [NoteEvent(event)] else [];
    SignalledOne(first);
    SignalledOne([]);
    if op.MsgPost? {
      TryPostSignalsAll(n, event, owner, op.msg, op.delay, op.period, op.async, j, NO_TID);
      SignalledConcat(first, TryPostActions(n, event, owner, op.msg, op.delay, op.period, op.async, j));
      SignalledConcat([], TryPostActions(n, event, owner, op.msg, op.delay, op.period, op.async, NO_TID));
    } else {
      TryReceiveSignalsAll(n, event, owner, op.async, j, NO_TID);
      SignalledConcat(first, TryReceiveActions(n, event, owner, op.async, j));
      SignalledConcat([], TryReceiveActions(n, event, owner, op.async, NO_TID));
    }
  }

  lemma DispatchSignalsAll(k: Kernel, j: nat)
    requires Sized(k) && Legal(k, Dispatch)
    ensures Signalled(ActionsOf(k, Dispatch, j)) == Raises(k, Dispatch)
  {
    if Select(k) != NO_TID {
      var d := Dispatched(k);
      var t := d.tasks[d.runningTid];
      match t.resume
      case InPost(dest, m, delay, period) =>
        TryPostSignalsAll(d, t.msgChangeEvent, dest, m, delay, period, false, j, NO_TID);
      case InReceive(owner) =>
        TryReceiveSignalsAll(d, t.msgChangeEvent, owner, false, j, NO_TID);
      case _ =>
    }
  }

  lemma EventSignalSignalsAll(k: Kernel, op: Op, j: nat)
    requires Sized(k) && Legal(k, op) && (op.EventSignal? || op.IsrSignal?)
    ensures Signalled(ActionsOf(k, op, j)) == Raises(k, op) == {op.e}
  {
    var tail := if op.EventSignal? && j == k.runningTid then [Yield(After)] else [];
    SignalledOne([Signal(op.e)]);
    SignalledOne(tail);
    SignalledConcat([Signal(op.e)], tail);
    assert [Signal(op.e)] + [] == [Signal(op.e)];
  }

  /** A signal reaches every task: each step signals the same events to all of them. */
  lemma SignalsAreBroadcast(k: Kernel, op: Op, j: nat)
    requires Sized(k) && EventsKnown(k) && Legal(k, op) && j < |k.tasks|
    ensures Signalled(ActionsOf(k, op, j)) == Raises(k, op)
  {
    if op.Tick? {
      TickSignalsAll(k, 0, 1, |k.tasks|, j, NO_TID);
    } else if op.SubTick? {
      if op.id != 0 {
        TickSignalsAll(k, op.id, op.n, |k.tasks|, j, NO_TID);
      }
    } else if op.Dispatch? {
      DispatchSignalsAll(k, j);
    } else if op.MsgPost? || op.MsgReceive? {
      QueueCallSignalsAll(k, op, j);
    } else if op.EventSignal? || op.IsrSignal? {
      EventSignalSignalsAll(k, op, j);
    } else {
      NoSignalNothing(ActionsOf(k, op, j));
      NoSignalNothing(ActionsOf(k, op, NO_TID));
    }
  }

  ghost function RaisedIn(k: Kernel, ops: seq<Op>): set<nat>
    requires Inv(k) && LegalRun(k, ops)
    decreases |ops|
  {
    if ops == [] then {} else Raises(k, ops[0]) + RaisedIn(After1(k, ops[0]), ops[1..])
  }

  lemma {:induction false} RunBroadcasts(k: Kernel, ops: seq<Op>, j: nat)
    requires Inv(k) && LegalRun(k, ops) && j < |k.tasks|
    ensures Signalled(ActionsIn(k, ops, j)) == RaisedIn(k, ops)
    decreases |ops|
  {
    if ops != [] {
      InvKnowsEvents(k);
      TaskStays(k, ops[0], j);
      SignalsAreBroadcast(k, ops[0], j);
      RunBroadcasts(After1(k, ops[0]), ops[1..], j);
      SignalledConcat(ActionsOf(k, ops[0], j), ActionsIn(After1(k, ops[0]), ops[1..], j));
    }
  }

  lemma AfterWaitMultiple(k: Kernel, all: bool, es: seq<nat>)
    requires Inv(k) && Legal(k, EventWaitMultiple(all, es))
    ensures var t := After1(k, EventWaitMultiple(all, es)).tasks[k.runningTid];
            t.state == WAITING_EVENT && t.waits == SetOf(es) && t.waitSingleEvent == !all
  {
    var t := k.tasks[k.runningTid];
    TaskStays(k, EventWaitMultiple(all, es), k.runningTid);
    assert [WaitMultiple(all, es)] + [Yield(After)] == [WaitMultiple(all, es), Yield(After)];
    DoAllConcat(t, [WaitMultiple(all, es)], [Yield(After)]);
    DoAllOne(t, WaitMultiple(all, es));
    DoAllOne(Do(t, WaitMultiple(all, es)), Yield(After));
  }

  /** event_wait_multiple in any run, until the task is dispatched again: waiting for all, it is
      ready if and only if every one of its events has been signalled by somebody, task, interrupt
      or message queue; waiting for any, if and only if one of them has. */
  lemma WaitMultipleMeansWhatItSays(k: Kernel, all: bool, es: seq<nat>, ops: seq<Op>)
    requires Inv(k) && Legal(k, EventWaitMultiple(all, es))
    requires LegalRun(After1(k, EventWaitMultiple(all, es)), ops)
    requires LeftAlone(After1(k, EventWaitMultiple(all, es)), ops, k.runningTid)
    ensures var m := After1(k, EventWaitMultiple(all, es));
            var r := Run(m, ops);
            && k.runningTid < |r.tasks|
            && (r.tasks[k.runningTid].state == READY <==>
                if all then SetOf(es) <= RaisedIn(m, ops) else SetOf(es) * RaisedIn(m, ops) != {})
  {
    var m, tid := After1(k, EventWaitMultiple(all, es)), k.runningTid;
    AfterWaitMultiple(k, all, es);
    TaskStays(k, EventWaitMultiple(all, es), tid);
    assert es[0] in SetOf(es);
    RunProjects(m, ops, tid);
    LeftAloneIsPassive(m, ops, tid);
    RunBroadcasts(m, ops, tid);
    if all {
      WaitAllMeansAll(m.tasks[tid], ActionsIn(m, ops, tid));
    } else {
      WaitAnyMeansAny(m.tasks[tid], ActionsIn(m, ops, tid));
    }
  }

  // ----- Queues ------------------------------------------------------------------------

  lemma QueueStays(k: Kernel, op: Op, q: nat)
    requires Inv(k) && Legal(k, op) && q < |k.queues|
    ensures q < |After1(k, op).queues|
    ensures After1(k, op).queues[q] == Q.Steps(k.queues[q], QueueOpsOf(k, op, q))
  {
    InvKnowsEvents(k);
    QueueProjects(k, op, q);
  }

  /** Everything a run does to queue q. */
  ghost function QueueOpsIn(k: Kernel, ops: seq<Op>, q: nat): seq<Q.QueueOp>
    requires Inv(k) && LegalRun(k, ops) && q < |k.queues|
    decreases |ops|
  {
    if ops == [] then []
    else
      QueueStays(k, ops[0], q);
      QueueOpsOf(k, ops[0], q) + QueueOpsIn(After1(k, ops[0]), ops[1..], q)
  }

  lemma {:induction false} RunQueueProjects(k: Kernel, ops: seq<Op>, q: nat)
    requires Inv(k) && LegalRun(k, ops) && q < |k.queues|
    ensures q < |Run(k, ops).queues|
    ensures Run(k, ops).queues[q] == Q.Steps(k.queues[q], QueueOpsIn(k, ops, q))
    decreases |ops|
  {
    if ops != [] {
      QueueStays(k, ops[0], q);
      RunQueueProjects(After1(k, ops[0]), ops[1..], q);
      Q.StepsConcat(k.queues[q], QueueOpsOf(k, ops[0], q), QueueOpsIn(After1(k, ops[0]), ops[1..], q));
    }
  }

  /** Any run of the whole kernel from an empty queue keeps conservation and timing of its
      messages: the queue it ends with is the one of an accounted history. */
  lemma KernelRunsAreAccounted(k: Kernel, ops: seq<Op>, q: nat)
    requires Inv(k) && LegalRun(k, ops) && q < |k.queues| && k.queues[q].msgs == []
    ensures q < |Run(k, ops).queues|
    ensures var h := H.Run(H.Start(k.queues[q]), QueueOpsIn(k, ops, q));
            H.Accounted(h) && h.q == Run(k, ops).queues[q]
  {
    RunQueueProjects(k, ops, q);
    H.EveryRunIsAccounted(k.queues[q], QueueOpsIn(k, ops, q));
  }

  /** Two messages of a queue that are both expired at some moment of any kernel run, as history
      h of that queue names them, are delivered in the order they then have. */
  lemma KernelRunsAreFifo(k: Kernel, ops: seq<Op>, q: nat, h: H.History, a: nat, b: nat)
    requires Inv(k) && LegalRun(k, ops) && q < |k.queues|
    requires H.Named(h) && h.q == k.queues[q] && H.ReadyBefore(h, a, b)
    ensures q < |Run(k, ops).queues|
    ensures var r := H.Run(h, QueueOpsIn(k, ops, q));
            && r.q == Run(k, ops).queues[q] && h.log <= r.log
            && ((exists i | |h.log| <= i < |r.log| :: r.log[i].id == b) ==> H.DeliveredFirst(r.log, |h.log|, a, b))
  {
    RunQueueProjects(k, ops, q);
    H.ReadyMessagesAreFifo(h, QueueOpsIn(k, ops, q), a, b);
  }

  /** A queue that gets nothing but immediate one-shot messages in a kernel run delivers every
      accepted message in posting order. */
  lemma PlainKernelRunsAreFifo(k: Kernel, ops: seq<Op>, q: nat)
    requires Inv(k) && LegalRun(k, ops) && q < |k.queues| && k.queues[q].msgs == []
    requires forall op | op in QueueOpsIn(k, ops, q) :: H.Plain(op)
    ensures q < |Run(k, ops).queues|
    ensures var r := H.Run(H.Start(k.queues[q]), QueueOpsIn(k, ops, q));
            r.q == Run(k, ops).queues[q] && H.LogIds(r.log) + r.ids == H.Iota(|r.posts|)
  {
    var h := H.Start(k.queues[q]);
    RunQueueProjects(k, ops, q);
    H.EveryRunIsAccounted(k.queues[q], []);
    assert H.Run(h, []) == h;
    assert H.LogIds(h.log) + h.ids == H.Iota(|h.posts|);
    H.PlainQueueIsFifo(h, QueueOpsIn(k, ops, q));
  }

  // ----- Waiting times -----------------------------------------------------------------

  /** How many ticks, of whatever clock and size, are among the actions. */
  function Timers(acts: seq<Action>): nat
    decreases |acts|
  {
    if acts == [] then 0 else (if acts[0].Timer? then 1 else 0) + Timers(acts[1..])
  }

  lemma {:induction false} TimersConcat(a: seq<Action>, b: seq<Action>)
    ensures Timers(a + b) == Timers(a) + Timers(b)
    decreases |a|
  {
    if a == [] {
      assert a + b == b;
    } else {
      assert (a + b)[0] == a[0] && (a + b)[1..] == a[1..] + b;
      TimersConcat(a[1..], b);
    }
  }

  lemma {:induction false} TimersAreTimes(acts: seq<Action>, clock: uint8, size: uint32, n: nat)
    requires TimerTimes(acts, clock, size, n)
    ensures Timers(acts) == n
    decreases |acts|
  {
    if acts != [] {
      assert acts == [acts[0]] + acts[1..];
      assert multiset(acts) == multiset{acts[0]} + multiset(acts[1..]);
      TimersAreTimes(acts[1..], clock, size, if acts[0].Timer? then n - 1 else n);
    }
  }

  lemma {:induction false} NoTimerNoTimers(acts: seq<Action>)
    requires forall a | a in acts :: !a.Timer?
    ensures Timers(acts) == 0
    decreases |acts|
  {
    if acts != [] {
      assert acts[0] in acts && forall a | a in acts[1..] :: a in acts;
      NoTimerNoTimers(acts[1..]);
    }
  }

  /** What a 32-bit counter shows after n. */
  function Wrapped(n: nat): uint32 {
    n % 0x1_0000_0000
  }

  /** A waiting time counts ticks, wrapping round at 2^32. */
  lemma {:induction false} WaitingTimeCounts(t: Task, acts: seq<Action>)
    requires Sound(t) && t.state == WAITING_SEM && AllForeign(acts) && DoAll(t, acts).state == WAITING_SEM
    ensures DoAll(t, acts).time == Wrapped(t.time + Timers(acts))
    decreases |acts|
  {
    if acts != [] {
      var u, rest := Do(t, acts[0]), acts[1..];
      assert Foreign(acts[0]) && forall a | a in rest :: a in acts;
      SoundNext(t, acts[0]);
      OnlySemWaitWaits(u, rest);
      WaitingTimeCounts(u, rest);
      WrapTwice(t.time, if acts[0].Timer? then 1 else 0, Timers(rest));
    }
  }

  lemma WrapTwice(a: nat, b: nat, c: nat)
    ensures Wrapped(Wrapped(a + b) + c) == Wrapped(a + (b + c))
  {
  }

  /** How often a step goes through the task table with a tick. */
  function TickPass(op: Op): nat {
    if op.Tick? || (op.SubTick? && op.id != 0) then 1 else 0
  }

  function TickPasses(ops: seq<Op>): nat
    decreases |ops|
  {
    if ops == [] then 0 else TickPass(ops[0]) + TickPasses(ops[1..])
  }

  lemma TickPassesOnce(k: Kernel, clock: uint8, size: uint32, j: nat)
    requires Sized(k) && j < |k.tasks|
    ensures Timers(TickActions(k, clock, size, |k.tasks|, j)) == 1
  {
    hide TickActions, TimerTimes;
    TickActionsAre(k, clock, size, |k.tasks|, j);
    TimersAreTimes(TickActions(k, clock, size, |k.tasks|, j), clock, size, 1);
  }

  lemma OtherStepsHaveNoTimer(k: Kernel, op: Op, j: nat)
    requires Inv(k) && Legal(k, op) && j < |k.tasks| && j != Runner(k, op) && TickPass(op) == 0
    ensures forall a | a in ActionsOf(k, op, j) :: !a.Timer?
  {
    if op.Dispatch? {
      DispatchIsSignal(k, j);
    }
  }

  lemma StepPasses(k: Kernel, op: Op, j: nat)
    requires Inv(k) && Legal(k, op) && j < |k.tasks| && j != Runner(k, op)
    ensures Timers(ActionsOf(k, op, j)) == TickPass(op)
  {
    if TickPass(op) == 0 {
      OtherStepsHaveNoTimer(k, op, j);
      NoTimerNoTimers(ActionsOf(k, op, j));
    } else if op.Tick? {
      TickPassesOnce(k, 0, 1, j);
    } else {
      TickPassesOnce(k, op.id, op.n, j);
    }
  }

  /** Task j is not run. */
  ghost predicate NotRun(k: Kernel, ops: seq<Op>, j: nat)
    requires Inv(k) && LegalRun(k, ops)
    decreases |ops|
  {
    ops == [] || (Runner(k, ops[0]) != j && NotRun(After1(k, ops[0]), ops[1..], j))
  }

  lemma {:induction false} RunPasses(k: Kernel, ops: seq<Op>, j: nat)
    requires Inv(k) && LegalRun(k, ops) && j < |k.tasks| && NotRun(k, ops, j)
    ensures AllForeign(ActionsIn(k, ops, j)) && Timers(ActionsIn(k, ops, j)) == TickPasses(ops)
    decreases |ops|
  {
    hide After1, ActionsOf;
    if ops != [] {
      InvKnowsEvents(k);
      TaskStays(k, ops[0], j);
      OthersActForeign(k, ops[0], j);
      StepPasses(k, ops[0], j);
      RunPasses(After1(k, ops[0]), ops[1..], j);
      TimersConcat(ActionsOf(k, ops[0], j), ActionsIn(After1(k, ops[0]), ops[1..], j));
    }
  }

  lemma AfterSemWait(k: Kernel, s: nat)
    requires Inv(k) && Legal(k, SemWait(s)) && k.sems[s].value == 0
    ensures var r := After1(k, SemWait(s));
            && k.runningTid < |r.tasks| && r.tasks[k.runningTid].state == WAITING_SEM
            && r.tasks[k.runningTid].semaphore == s && r.tasks[k.runningTid].time == 0
  {
    TaskStays(k, SemWait(s), k.runningTid);
    WaitAndYield(k.tasks[k.runningTid], WaitSem(s), AfterSem(s));
  }

  /** If u is t still waiting for its semaphore, then for n ticks longer. */
  predicate WaitsLonger(t: Task, u: Task, n: nat) {
    u.state == WAITING_SEM ==> u.semaphore == t.semaphore && u.time == Wrapped(t.time + n)
  }

  lemma StillWaitingCounts(t: Task, acts: seq<Action>)
    requires Sound(t) && t.state == WAITING_SEM && AllForeign(acts)
    ensures WaitsLonger(t, DoAll(t, acts), Timers(acts))
  {
    OnlySemWaitWaits(t, acts);
    if DoAll(t, acts).state == WAITING_SEM {
      WaitingTimeCounts(t, acts);
    }
  }

  lemma WaitingRunCounts(k: Kernel, ops: seq<Op>, j: nat)
    requires Inv(k) && LegalRun(k, ops) && j < |k.tasks| && NotRun(k, ops, j) && k.tasks[j].state == WAITING_SEM
    ensures j < |Run(k, ops).tasks|
    ensures WaitsLonger(k.tasks[j], Run(k, ops).tasks[j], TickPasses(ops))
  {
    assert Sound(k.tasks[j]);
    hide *;
    RunProjects(k, ops, j);
    RunPasses(k, ops, j);
    StillWaitingCounts(k.tasks[j], ActionsIn(k, ops, j));
  }

  /** In any run, the stored waiting time of a task that still waits for its semaphore is the
      number of ticks, of any clock, since it began to wait. */
  lemma WaitingTimeIsTicks(k: Kernel, s: nat, ops: seq<Op>)
    requires Inv(k) && Legal(k, SemWait(s)) && k.sems[s].value == 0
    requires LegalRun(After1(k, SemWait(s)), ops) && NotRun(After1(k, SemWait(s)), ops, k.runningTid)
    ensures var r, j := Run(After1(k, SemWait(s)), ops), k.runningTid;
            && j < |r.tasks|
            && (r.tasks[j].state == WAITING_SEM ==>
                  r.tasks[j].semaphore == s && r.tasks[j].time == Wrapped(TickPasses(ops)))
  {
    hide After1, LegalRun, Run, NotRun, Wrapped;
    AfterSemWait(k, s);
    WaitingRunCounts(After1(k, SemWait(s)), ops, k.runningTid);
  }
}
