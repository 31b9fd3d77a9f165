// Mutual exclusion by semaphores, in terms of what tasks do: who has returned from OS_WAIT_SEM
// and not signalled since. The books of Semaphores are shown to agree with that.
module Exclusion {
  import opened Types
  import opened TaskSpec
  import opened TaskLife
  import opened KernelSpec
  import opened Steps
  import opened Projection
  import opened Invariant
  import opened Runs
  import opened Scheduling
  import opened Semaphores
  import opened Suspension
  import opened Wakeups

  // ----- Sections ----------------------------------------------------------------------

  /** The step returns from OS_WAIT_SEM: it takes a unit at once, or dispatches a task at the
      resume point behind its wait. */
  predicate Enters(k: Kernel, op: Op, s: nat)
    requires Sized(k) && Legal(k, op)
  {
    || (op == SemWait(s) && k.sems[s].value > 0)
    || (op.Dispatch? && Select(k) != NO_TID && k.tasks[Select(k)].resume == AfterSem(s))
  }

  /** The tasks inside the sections guarded by s, once for each return from OS_WAIT_SEM that
      they have not made up for by a signal, after one more step. */
  function Inside1(k: Kernel, op: Op, s: nat, inside: multiset<nat>): multiset<nat>
    requires Sized(k) && Legal(k, op)
  {
    if Enters(k, op, s) then inside + multiset{Runner(k, op)}
    else if op == SemSignal(s) then inside - multiset{k.runningTid}
    else inside
  }

  /** And after a run. */
  ghost function Inside(k: Kernel, ops: seq<Op>, s: nat, inside: multiset<nat>): multiset<nat>
    requires Inv(k) && LegalRun(k, ops)
    decreases |ops|
  {
    if ops == [] then inside else Inside(After1(k, ops[0]), ops[1..], s, Inside1(k, ops[0], s, inside))
  }

  predicate InsiderSignals(k: Kernel, op: Op, s: nat, inside: multiset<nat>) {
    op != IsrSemSignal(s) && (op == SemSignal(s) ==> k.runningTid in inside)
  }

  /** Only tasks inside signal s, and no interrupt does. */
  ghost predicate OnlyInsidersSignal(k: Kernel, ops: seq<Op>, s: nat, inside: multiset<nat>)
    requires Inv(k) && LegalRun(k, ops)
    decreases |ops|
  {
    ops == [] ||
    (InsiderSignals(k, ops[0], s, inside)
     && OnlyInsidersSignal(After1(k, ops[0]), ops[1..], s, Inside1(k, ops[0], s, inside)))
  }

  // ----- Tasks that were handed a unit -------------------------------------------------

  /** Past its wait for s, whether suspended since or not. */
  predicate Past(t: Task, s: nat) {
    t.state != KILLED && EffectiveState(t) == READY && t.resume == AfterSem(s)
  }

  /** Task j has been handed a unit of s and has not run since. */
  function Granted(k: Kernel, j: nat, s: nat): nat {
    if j < |k.tasks| && j != k.runningTid && Past(k.tasks[j], s) then 1 else 0
  }

  /** Task j will never run again. */
  predicate Dead(k: Kernel, j: nat) {
    j < |k.tasks| && j != k.runningTid && k.tasks[j].state == KILLED
  }

  lemma {:induction false} OnlyGrantsPass(k: Kernel, t: Task, acts: seq<Action>, s: nat)
    requires Sound(t) && Parked(k, t) && Gated(k, t) && AllForeign(acts) && forall a | a in acts :: !a.Grant?
    ensures var u := DoAll(t, acts);
            && (Past(u, s) ==> Past(t, s))
            && (Past(t, s) && u.state != KILLED ==> Past(u, s))
            && (t.state == KILLED ==> u.state == KILLED)
    decreases |acts|
  {
    if acts != [] {
      assert Foreign(acts[0]) && !acts[0].Grant? && forall a | a in acts[1..] :: a in acts;
      SoundNext(t, acts[0]);
      ParkedNext(k, t, acts[0]);
      OnlyGrantsPass(k, Do(t, acts[0]), acts[1..], s);
    }
  }

  /** The step hands a unit of s to task j. */
  predicate HandedTo(k: Kernel, op: Op, j: nat, s: nat)
    requires Sized(k)
  {
    (op == SemSignal(s) || op == IsrSemSignal(s)) && Waiting(k.tasks, s) && j == ReleaseTarget(k, s)
  }

  lemma TargetWaits(k: Kernel, s: nat)
    requires Sized(k) && Waiting(k.tasks, s) && ReleaseTarget(k, s) != NO_TID
    ensures Wants(WaitingFor(s), k.tasks[ReleaseTarget(k, s)])
  {
    ReleaseMeaning(k, s);
  }

  lemma TickGrantsNothing(k: Kernel, clock: uint8, size: uint32, j: nat)
    requires Sized(k) && j < |k.tasks|
    ensures forall a | a in TickActions(k, clock, size, |k.tasks|, j) :: !a.Grant?
  {
    hide TickActions;
    TickActionsAre(k, clock, size, |k.tasks|, j);
  }

  lemma CallGrantsNothing(k: Kernel, op: Op, j: nat)
    requires Sized(k) && Legal(k, op) && j != k.runningTid
    requires !op.SemSignal? && !op.IsrSemSignal? && !op.Tick? && !op.SubTick? && !op.Dispatch?
    requires !op.MsgPost? && !op.MsgReceive?
    ensures forall a | a in ActionsOf(k, op, j) :: !a.Grant?
  {
  }

  lemma OthersGrantNothing(k: Kernel, op: Op, j: nat)
    requires Inv(k) && Legal(k, op) && j < |k.tasks| && j != Runner(k, op) && !op.SemSignal? && !op.IsrSemSignal?
    ensures forall a | a in ActionsOf(k, op, j) :: !a.Grant?
  {
    hide TickActions;
    if op.Tick? {
      TickGrantsNothing(k, 0, 1, j);
    } else if op.SubTick? {
      TickGrantsNothing(k, op.id, op.n, j);
    } else if op.Dispatch? {
      DispatchIsSignal(k, j);
    } else if op.MsgPost? || op.MsgReceive? {
      QueueCallOnlySignals(k, op, j);
    } else {
      CallGrantsNothing(k, op, j);
    }
  }

  lemma SignalActions(k: Kernel, op: Op, j: nat)
    requires Sized(k) && Legal(k, op) && j < |k.tasks| && j != Runner(k, op) && (op.SemSignal? || op.IsrSemSignal?)
    ensures ActionsOf(k, op, j) == GiveActions(k, op.s, j)
  {
  }

  /** A task the step does not run gets past its wait by being handed a unit, and in no other
      way; nothing but being killed takes it back. */
  ghost predicate MovesOnlyByGrant(t: Task, u: Task, handed: bool, s: nat) {
    && (handed ==> !Past(t, s) && Past(u, s) && t.state != KILLED)
    && (!handed ==> (Past(u, s) ==> Past(t, s)) && (Past(t, s) && u.state != KILLED ==> Past(u, s)))
    && (t.state == KILLED ==> u.state == KILLED)
  }

  lemma HandOff(k: Kernel, t: Task, given: nat, s: nat)
    requires Gated(k, t) && Wants(WaitingFor(given), t)
    ensures MovesOnlyByGrant(t, Do(t, Grant), given == s, s)
  {
  }

  lemma SignalMoves(k: Kernel, op: Op, j: nat, s: nat)
    requires Inv(k) && Legal(k, op) && j < |k.tasks| && j != Runner(k, op) && j != k.runningTid
    requires op.SemSignal? || op.IsrSemSignal?
    ensures MovesOnlyByGrant(k.tasks[j], DoAll(k.tasks[j], ActionsOf(k, op, j)), HandedTo(k, op, j, s), s)
  {
    var t := k.tasks[j];
    assert Gated(k, t);
    SignalActions(k, op, j);
    DoAllOne(t, Grant);
    if Waiting(k.tasks, op.s) && j == ReleaseTarget(k, op.s) {
      TargetWaits(k, op.s);
      HandOff(k, t, op.s, s);
    }
  }

  lemma PlainMoves(k: Kernel, op: Op, j: nat, s: nat)
    requires Inv(k) && Legal(k, op) && j < |k.tasks| && j != Runner(k, op) && j != k.runningTid
    requires !op.SemSignal? && !op.IsrSemSignal?
    ensures MovesOnlyByGrant(k.tasks[j], DoAll(k.tasks[j], ActionsOf(k, op, j)), HandedTo(k, op, j, s), s)
  {
    assert Sound(k.tasks[j]) && Parked(k, k.tasks[j]) && Gated(k, k.tasks[j]);
    InvKnowsEvents(k);
    hide Inv, ActionsOf, Past, Sound, Parked, Gated;
    OthersActForeign(k, op, j);
    OthersGrantNothing(k, op, j);
    OnlyGrantsPass(k, k.tasks[j], ActionsOf(k, op, j), s);
  }

  lemma OtherMoves(k: Kernel, op: Op, j: nat, s: nat)
    requires Inv(k) && Legal(k, op) && j < |k.tasks| && j != Runner(k, op) && j != k.runningTid
    ensures j < |After1(k, op).tasks| && j != After1(k, op).runningTid
    ensures MovesOnlyByGrant(k.tasks[j], After1(k, op).tasks[j], HandedTo(k, op, j, s), s)
  {
    TaskIsNobody(k, j);
    hide After1, ActionsOf, MovesOnlyByGrant, HandedTo, Inv;
    TaskStays(k, op, j);
    RunnerOrNobody(k, op);
    if op.SemSignal? || op.IsrSemSignal? {
      SignalMoves(k, op, j, s);
    } else {
      PlainMoves(k, op, j, s);
    }
  }

  lemma TaskIsNobody(k: Kernel, j: nat)
    requires Inv(k) && j < |k.tasks|
    ensures j != NO_TID
  {
  }

  /** The task a step stops is not past a wait: only OS_WAIT_SEM resumes there, and it leaves
      the task waiting. */
  lemma StoppedIsNotPast(k: Kernel, op: Op, s: nat)
    requires Inv(k) && Legal(k, op) && !SetUp(op) && Runner(k, op) != NO_TID
    requires After1(k, op).runningTid != Runner(k, op)
    ensures Runner(k, op) < |After1(k, op).tasks| && !Past(After1(k, op).tasks[Runner(k, op)], s)
  {
    InvKnowsEvents(k);
    if op.Dispatch? {
      DispatchStopsJustified(k);
    } else if op.MsgPost? || op.MsgReceive? {
      QueueCallStopsJustified(k, op);
    } else if ByRunningTask(op) {
      PlainStopIsNoRetry(k, op);
      if op.SemWait? {
        AfterSemWait(k, op.s);
      }
    }
  }

  // ----- The books agree with what tasks do --------------------------------------------

  /** Task j holds as many units as it is inside sections, plus the one it was handed; a dead
      task may hold one more, which it was handed before it was killed. */
  ghost predicate Agrees(k: Kernel, held: nat, inside: nat, j: nat, s: nat) {
    && held >= inside + Granted(k, j, s)
    && (!Dead(k, j) ==> held == inside + Granted(k, j, s))
  }

  ghost predicate Tracked(k: Kernel, held: multiset<nat>, inside: multiset<nat>, s: nat) {
    forall j: nat :: Agrees(k, held[j], inside[j], j, s)
  }

  function HeldAfter(k: Kernel, held: multiset<nat>, op: Op, s: nat): multiset<nat>
    requires Sized(k) && Legal(k, op)
  {
    if op == SemWait(s) && k.sems[s].value > 0 then held + multiset{k.runningTid}
    else if op == SemSignal(s) then Returned(held, Some(k.runningTid)) + HandedOut(k, s)
    else if op == IsrSemSignal(s) then Returned(held, None) + HandedOut(k, s)
    else held
  }

  lemma BookAfter(k: Kernel, accounts: seq<Account>, op: Op, s: nat)
    requires Sized(k) && Legal(k, op) && s < |accounts| == |k.sems|
    ensures s < |Book(k, accounts, op)|
    ensures var a, b := accounts[s], Book(k, accounts, op)[s];
            && b.held == HeldAfter(k, a.held, op, s) && b.initial == a.initial
            && (InsiderSignals(k, op, s, a.held) ==> b.extra == a.extra)
  {
    hide Returned, HandedOut, Drops, Sized;
  }

  lemma BooksAfter(l: Ledger, op: Op, s: nat)
    requires LedgerInv(l) && Legal(l.k, op) && s < |l.accounts|
    ensures s < |LedgerStep(l, op).accounts|
    ensures var a, b := l.accounts[s], LedgerStep(l, op).accounts[s];
            && b.held == HeldAfter(l.k, a.held, op, s) && b.initial == a.initial
            && (InsiderSignals(l.k, op, s, a.held) ==> b.extra == a.extra)
  {
    hide After1, Book, HeldAfter, InsiderSignals;
    BookAfter(l.k, l.accounts, op, s);
  }

  /** Before the step it runs in, the runner is inside as often as it holds a unit, but for the
      one it was handed. */
  lemma RunnerBefore(k: Kernel, op: Op, s: nat)
    requires Inv(k) && Legal(k, op) && !SetUp(op) && Runner(k, op) != NO_TID && s < |k.sems|
    ensures var j := Runner(k, op);
            !Dead(k, j) && Granted(k, j, s) == if op.Dispatch? && Enters(k, op, s) then 1 else 0
  {
    if op.Dispatch? {
      ReadyIsSelected(k);
    }
  }

  lemma RunnersUnits(k: Kernel, op: Op, held: multiset<nat>, inside: multiset<nat>, j: nat, s: nat)
    requires Sized(k) && Legal(k, op) && j == Runner(k, op) != NO_TID && s < |k.sems| && !HandedTo(k, op, j, s)
    requires held[j] == inside[j] + if op.Dispatch? && Enters(k, op, s) then 1 else 0
    ensures HeldAfter(k, held, op, s)[j] == Inside1(k, op, s, inside)[j]
  {
    hide Waiting, ReleaseTarget, Sized, Select;
  }

  lemma RunnerAgrees(k: Kernel, op: Op, held: multiset<nat>, inside: multiset<nat>, s: nat)
    requires Inv(k) && Legal(k, op) && !SetUp(op) && Runner(k, op) != NO_TID && s < |k.sems|
    requires Agrees(k, held[Runner(k, op)], inside[Runner(k, op)], Runner(k, op), s)
    ensures var j := Runner(k, op);
            Agrees(After1(k, op), HeldAfter(k, held, op, s)[j], Inside1(k, op, s, inside)[j], j, s)
  {
    var j, r := Runner(k, op), After1(k, op);
    RunnerBefore(k, op, s);
    RunnerIsNoTarget(k, op, s);
    RunnersUnits(k, op, held, inside, j, s);
    if r.runningTid != j {
      StoppedIsNotPast(k, op, s);
    }
    hide After1, HeldAfter, Inside1, Past, Inv, Legal, Runner, HandedTo, Dead;
    assert Granted(r, j, s) == 0;
  }

  lemma RunnerIsNoTarget(k: Kernel, op: Op, s: nat)
    requires Inv(k) && Legal(k, op) && !SetUp(op) && Runner(k, op) != NO_TID
    ensures !HandedTo(k, op, Runner(k, op), s)
  {
    if HandedTo(k, op, Runner(k, op), s) {
      TargetWaits(k, s);
    }
  }

  lemma HandedOutAt(k: Kernel, s: nat, j: nat)
    requires Sized(k)
    ensures HandedOut(k, s)[j] == if Waiting(k.tasks, s) && j == ReleaseTarget(k, s) && j != NO_TID then 1 else 0
  {
    hide Sized, Waiting, ReleaseTarget;
  }

  lemma ReturnedAt(held: multiset<nat>, giver: Option<nat>, j: nat)
    requires giver != Some(j) || held[j] == 0
    ensures Returned(held, giver)[j] == held[j]
  {
  }

  lemma OthersUnits(k: Kernel, op: Op, held: multiset<nat>, inside: multiset<nat>, j: nat, s: nat)
    requires Sized(k) && Legal(k, op) && s < |k.sems| && (j == NO_TID || (j != Runner(k, op) && j != k.runningTid))
    ensures HeldAfter(k, held, op, s)[j] == held[j] + if HandedTo(k, op, j, s) && j != NO_TID then 1 else 0
    ensures Inside1(k, op, s, inside)[j] == inside[j]
  {
    hide Sized, Waiting, ReleaseTarget, Select, HandedOut, Returned;
    if op == SemSignal(s) {
      HandedOutAt(k, s, j);
      ReturnedAt(held, Some(k.runningTid), j);
    } else if op == IsrSemSignal(s) {
      HandedOutAt(k, s, j);
      ReturnedAt(held, None, j);
    }
  }

  lemma OtherAgrees(k: Kernel, op: Op, held: multiset<nat>, inside: multiset<nat>, j: nat, s: nat)
    requires Inv(k) && Legal(k, op) && s < |k.sems| && j < |k.tasks| && j != Runner(k, op) && j != k.runningTid
    requires Agrees(k, held[j], inside[j], j, s)
    ensures Agrees(After1(k, op), HeldAfter(k, held, op, s)[j], Inside1(k, op, s, inside)[j], j, s)
  {
    OtherMoves(k, op, j, s);
    OthersUnits(k, op, held, inside, j, s);
    hide After1, HeldAfter, Inside1, HandedTo, Inv, Legal, Past;
  }

  lemma NobodysUnits(k: Kernel, op: Op, held: multiset<nat>, inside: multiset<nat>, j: nat, s: nat)
    requires Inv(k) && Legal(k, op) && s < |k.sems| && j >= |k.tasks|
    ensures HeldAfter(k, held, op, s)[j] == held[j] && Inside1(k, op, s, inside)[j] == inside[j]
  {
    assert j == NO_TID || (j != Runner(k, op) && j != k.runningTid);
    hide Inv, Legal, HeldAfter, Inside1, Waiting, ReleaseTarget, Select, Sized;
    OthersUnits(k, op, held, inside, j, s);
  }

  lemma NobodyAgrees(k: Kernel, op: Op, held: multiset<nat>, inside: multiset<nat>, j: nat, s: nat)
    requires Inv(k) && Legal(k, op) && !SetUp(op) && s < |k.sems| && j >= |k.tasks|
    requires Agrees(k, held[j], inside[j], j, s)
    ensures Agrees(After1(k, op), HeldAfter(k, held, op, s)[j], Inside1(k, op, s, inside)[j], j, s)
  {
    NobodysUnits(k, op, held, inside, j, s);
    hide HeldAfter, Inside1;
    InvKnowsEvents(k);
    StepShape(k, op);
  }

  lemma SetUpBooks(k: Kernel, op: Op, held: multiset<nat>, inside: multiset<nat>, s: nat)
    requires Sized(k) && Legal(k, op) && SetUp(op)
    ensures HeldAfter(k, held, op, s) == held && Inside1(k, op, s, inside) == inside
  {
  }

  lemma SetUpAgrees(k: Kernel, op: Op, held: multiset<nat>, inside: multiset<nat>, j: nat, s: nat)
    requires Inv(k) && Legal(k, op) && SetUp(op) && s < |k.sems| && Agrees(k, held[j], inside[j], j, s)
    ensures Agrees(After1(k, op), HeldAfter(k, held, op, s)[j], Inside1(k, op, s, inside)[j], j, s)
  {
    SetUpBooks(k, op, held, inside, s);
    hide HeldAfter, Inside1;
    if j < |After1(k, op).tasks| {
      SetUpKeepsOldTasks(k, op, j);
      if j >= |k.tasks| {
        NewTaskIsNotPast(k, op, j, s);
      }
    }
    KeepsItsTasks(k, op);
    hide After1, Past;
  }

  lemma NewTaskIsNotPast(k: Kernel, op: Op, j: nat, s: nat)
    requires Inv(k) && Legal(k, op) && SetUp(op) && |k.tasks| <= j < |After1(k, op).tasks|
    ensures !Past(After1(k, op).tasks[j], s) && After1(k, op).tasks[j].state != KILLED
  {
  }

  lemma KeepsItsTasks(k: Kernel, op: Op)
    requires Inv(k) && Legal(k, op) && SetUp(op)
    ensures |k.tasks| <= |After1(k, op).tasks| && After1(k, op).runningTid == k.runningTid
  {
  }

  lemma TrackedNext(k: Kernel, op: Op, held: multiset<nat>, inside: multiset<nat>, s: nat)
    requires Inv(k) && Legal(k, op) && s < |k.sems| && Tracked(k, held, inside, s)
    ensures Tracked(After1(k, op), HeldAfter(k, held, op, s), Inside1(k, op, s, inside), s)
  {
    hide After1, HeldAfter, Inside1, Agrees;
    forall j: nat
      ensures Agrees(After1(k, op), HeldAfter(k, held, op, s)[j], Inside1(k, op, s, inside)[j], j, s)
    {
      assert Agrees(k, held[j], inside[j], j, s);
      if SetUp(op) {
        SetUpAgrees(k, op, held, inside, j, s);
      } else if j >= |k.tasks| {
        NobodyAgrees(k, op, held, inside, j, s);
      } else if j == Runner(k, op) {
        RunnerAgrees(k, op, held, inside, s);
      } else {
        OtherAgrees(k, op, held, inside, j, s);
      }
    }
  }

  // ----- Runs --------------------------------------------------------------------------

  /** The books of semaphore s, which started with `initial` units and got none from outside,
      agree with who is inside. */
  ghost predicate InOrder(l: Ledger, inside: multiset<nat>, s: nat, initial: nat) {
    && LedgerInv(l) && s < |l.accounts|
    && l.accounts[s].initial == initial && l.accounts[s].extra == 0
    && Tracked(l.k, l.accounts[s].held, inside, s)
  }

  lemma InOrderNext(l: Ledger, op: Op, inside: multiset<nat>, s: nat, initial: nat)
    requires InOrder(l, inside, s, initial) && Legal(l.k, op) && InsiderSignals(l.k, op, s, inside)
    ensures InOrder(LedgerStep(l, op), Inside1(l.k, op, s, inside), s, initial)
  {
    hide After1, HeldAfter, Inside1;
    BooksAfter(l, op, s);
    TrackedNext(l.k, op, l.accounts[s].held, inside, s);
    assert Agrees(l.k, l.accounts[s].held[l.k.runningTid], inside[l.k.runningTid], l.k.runningTid, s);
  }

  lemma {:induction false} InOrderRun(l: Ledger, ops: seq<Op>, inside: multiset<nat>, s: nat, initial: nat)
    requires InOrder(l, inside, s, initial) && LegalRun(l.k, ops) && OnlyInsidersSignal(l.k, ops, s, inside)
    ensures InOrder(LedgerRun(l, ops), Inside(l.k, ops, s, inside), s, initial)
    decreases |ops|
  {
    assert LedgerInv(l);
    hide After1, InOrder, Inside1;
    if ops != [] {
      InOrderNext(l, ops[0], inside, s, initial);
      InOrderRun(LedgerStep(l, ops[0]), ops[1..], Inside1(l.k, ops[0], s, inside), s, initial);
    }
  }

  lemma SubMultisetIsSmaller(a: multiset<nat>, b: multiset<nat>)
    requires forall j: nat :: a[j] <= b[j]
    ensures |a| <= |b|
  {
    assert b == a + (b - a);
  }

  lemma InsideIsBounded(l: Ledger, inside: multiset<nat>, s: nat, initial: nat)
    requires InOrder(l, inside, s, initial)
    ensures |inside| <= initial
  {
    var a := l.accounts[s];
    assert Balanced(l.k, l.k.sems[s], a);
    forall j: nat
      ensures inside[j] <= a.held[j]
    {
      assert Agrees(l.k, a.held[j], inside[j], j, s);
    }
    SubMultisetIsSmaller(inside, a.held);
  }

  /** Books opened now: nobody holds anything yet. */
  ghost function OpenBooks(k: Kernel): (l: Ledger)
    requires Inv(k)
    ensures LedgerInv(l) && l.k == k && |l.accounts| == |k.sems|
  {
    Ledger(k, seq(|k.sems|, i requires 0 <= i < |k.sems| => Account(k.sems[i].value, multiset{}, 0, 0)))
  }

  /** Semaphore |k.sems| is created, and signalled by nobody but tasks inside its sections during
      the run that follows. */
  ghost predicate Guarding(k: Kernel, max: uint8, initial: uint8, ops: seq<Op>) {
    && Inv(k) && Legal(k, CreateSem(max, initial))
    && LegalRun(After1(k, CreateSem(max, initial)), ops)
    && OnlyInsidersSignal(After1(k, CreateSem(max, initial)), ops, |k.sems|, multiset{})
  }

  lemma NewSemIsInOrder(k: Kernel, max: uint8, initial: uint8)
    requires Inv(k) && Legal(k, CreateSem(max, initial))
    ensures InOrder(OpenBooks(After1(k, CreateSem(max, initial))), multiset{}, |k.sems|, initial)
  {
    var r, s := After1(k, CreateSem(max, initial)), |k.sems|;
    forall j: nat
      ensures Agrees(r, 0, 0, j, s)
    {
      if j < |r.tasks| && j != r.runningTid {
        assert Gated(k, k.tasks[j]);
      }
    }
  }

  /** At most as many tasks as the semaphore had units at creation are inside at any moment of
      any run, whoever is suspended, reset, resumed or killed. */
  lemma AtMostInitialInside(k: Kernel, max: uint8, initial: uint8, ops: seq<Op>)
    requires Guarding(k, max, initial, ops)
    ensures |Inside(After1(k, CreateSem(max, initial)), ops, |k.sems|, multiset{})| <= initial
  {
    hide After1, InOrder;
    var m := After1(k, CreateSem(max, initial));
    NewSemIsInOrder(k, max, initial);
    InOrderRun(OpenBooks(m), ops, multiset{}, |k.sems|, initial);
    InsideIsBounded(LedgerRun(OpenBooks(m), ops), Inside(m, ops, |k.sems|, multiset{}), |k.sems|, initial);
  }

  /** Mutual exclusion: from the return of task a from OS_WAIT_SEM on a binary semaphore created
      free until its signal, no task returns from OS_WAIT_SEM on it. */
  lemma BinarySemaphoreExcludes(k: Kernel, max: uint8, ops: seq<Op>, op: Op, a: nat)
    requires Guarding(k, max, 1, ops)
    requires a in Inside(After1(k, CreateSem(max, 1)), ops, |k.sems|, multiset{})
    requires Legal(Run(After1(k, CreateSem(max, 1)), ops), op)
    ensures !Enters(Run(After1(k, CreateSem(max, 1)), ops), op, |k.sems|)
  {
    hide After1, InOrder;
    var m, s := After1(k, CreateSem(max, 1)), |k.sems|;
    NewSemIsInOrder(k, max, 1);
    InOrderRun(OpenBooks(m), ops, multiset{}, s, 1);
    NobodyElseEnters(LedgerRun(OpenBooks(m), ops), op, Inside(m, ops, s, multiset{}), s, a);
  }

  lemma NobodyElseEnters(l: Ledger, op: Op, inside: multiset<nat>, s: nat, a: nat)
    requires InOrder(l, inside, s, 1) && Legal(l.k, op) && a in inside
    ensures !Enters(l.k, op, s)
  {
    TwoOrMore(inside, a, Runner(l.k, op));
    if Enters(l.k, op, s) {
      InOrderNext(l, op, inside, s, 1);
      InsideIsBounded(LedgerStep(l, op), Inside1(l.k, op, s, inside), s, 1);
    }
  }

  lemma TwoOrMore(m: multiset<nat>, a: nat, b: nat)
    requires a in m
    ensures |m + multiset{b}| >= 2
  {
    assert m == multiset{a} + (m - multiset{a});
  }

  lemma MaxStays(k: Kernel, op: Op, s: nat)
    requires Inv(k) && Legal(k, op) && s < |k.sems|
    ensures s < |After1(k, op).sems| && After1(k, op).sems[s].maxValue == k.sems[s].maxValue
  {
    InvKnowsEvents(k);
    if !SetUp(op) {
      StepShape(k, op);
    }
  }

  lemma {:induction false} MaxStaysInRuns(k: Kernel, ops: seq<Op>, s: nat)
    requires Inv(k) && LegalRun(k, ops) && s < |k.sems|
    ensures s < |Run(k, ops).sems| && Run(k, ops).sems[s].maxValue == k.sems[s].maxValue
    decreases |ops|
  {
    hide After1;
    if ops != [] {
      MaxStays(k, ops[0], s);
      MaxStaysInRuns(After1(k, ops[0]), ops[1..], s);
    }
  }

  lemma BooksAreExact(l: Ledger, inside: multiset<nat>, s: nat, initial: nat)
    requires InOrder(l, inside, s, initial) && initial <= l.k.sems[s].maxValue && PriosReachable(l.k)
    ensures l.k.sems[s].value + |l.accounts[s].held| == initial
  {
    assert Balanced(l.k, l.k.sems[s], l.accounts[s]);
  }

  /** Conservation: in every such run free and held units add up to what the semaphore was
      created with, where a task holds one unit for each section it is inside, and one it was
      handed and has not run with yet; a unit handed to a task that was killed before it ran is
      held by it for ever. */
  lemma HoldersAreConserved(k: Kernel, max: uint8, initial: uint8, ops: seq<Op>) returns (held: multiset<nat>)
    requires Guarding(k, max, initial, ops) && initial <= max
    requires PriosReachable(Run(After1(k, CreateSem(max, initial)), ops))
    ensures var m, s := After1(k, CreateSem(max, initial)), |k.sems|;
            var r := Run(m, ops);
            && s < |r.sems| && r.sems[s].value + |held| == initial
            && Tracked(r, held, Inside(m, ops, s, multiset{}), s)
  {
    var m, s := After1(k, CreateSem(max, initial)), |k.sems|;
    assert m.sems[s].maxValue == max;
    hide After1, PriosReachable;
    NewSemIsInOrder(k, max, initial);
    InOrderRun(OpenBooks(m), ops, multiset{}, s, initial);
    MaxStaysInRuns(m, ops, s);
    var l := LedgerRun(OpenBooks(m), ops);
    BooksAreExact(l, Inside(m, ops, s, multiset{}), s, initial);
    held := l.accounts[s].held;
  }
}
