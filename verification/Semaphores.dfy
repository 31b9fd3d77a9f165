// Semaphores: direct hand-off to one waiter, and the books of who was given units.
module Semaphores {
  import opened Types
  import opened TaskSpec
  import opened TaskLife
  import opened KernelSpec
  import opened Steps
  import opened Projection
  import opened Invariant
  import opened Runs
  import opened Scheduling

  // ----- One signal --------------------------------------------------------------------

  lemma {:induction false} LongestMeaning(ts: seq<Task>, s: nat, n: nat)
    requires n <= |ts| < NO_TID
    ensures var b := Longest(ts, s, n);
            if b == NO_TID then forall i | 0 <= i < n && Wants(WaitingFor(s), ts[i]) :: ts[i].time == 0
            else
              && Wants(WaitingFor(s), ts[b]) && ts[b].time > 0
              && (forall i | 0 <= i < n && Wants(WaitingFor(s), ts[i]) :: ts[i].time <= ts[b].time)
              && (forall i | 0 <= i < b && Wants(WaitingFor(s), ts[i]) :: ts[i].time < ts[b].time)
  {
    if n > 0 {
      LongestMeaning(ts, s, n - 1);
    }
  }

  lemma {:induction false} LastWaitingMeaning(ts: seq<Task>, s: nat, n: nat)
    requires n <= |ts| < NO_TID
    ensures var b := LastWaiting(ts, s, n);
            if b == NO_TID then forall i | 0 <= i < n :: !Wants(WaitingFor(s), ts[i])
            else Wants(WaitingFor(s), ts[b]) && forall i | b < i < n :: !Wants(WaitingFor(s), ts[i])
  {
    if n > 0 {
      LastWaitingMeaning(ts, s, n - 1);
    }
  }

  /** Priority 255 is out of reach of the searches unless they go round robin. */
  ghost predicate PriosReachable(k: Kernel) {
    k.cfg.roundRobin || forall i | 0 <= i < |k.tasks| :: k.tasks[i].prio < 255
  }

  /** The waiter a signal picks: the first with the least prio number, or under round robin the
      first with the greatest waiting time, but the last of all if nobody has waited a tick yet;
      nobody only if all waiters have prio 255. */
  lemma ReleaseMeaning(k: Kernel, s: nat)
    requires Sized(k) && Waiting(k.tasks, s)
    ensures var t := ReleaseTarget(k, s);
            if t == NO_TID then !PriosReachable(k)
            else
              && Wants(WaitingFor(s), k.tasks[t])
              && forall i | 0 <= i < |k.tasks| && Wants(WaitingFor(s), k.tasks[i]) ::
                   if !k.cfg.roundRobin then
                     k.tasks[t].prio <= k.tasks[i].prio && (i < t ==> k.tasks[t].prio < k.tasks[i].prio)
                   else if k.tasks[t].time > 0 then
                     k.tasks[i].time <= k.tasks[t].time && (i < t ==> k.tasks[i].time < k.tasks[t].time)
                   else k.tasks[i].time == 0 && i <= t
  {
    var i :| 0 <= i < |k.tasks| && Wants(WaitingFor(s), k.tasks[i]);
    BestPrioMeaning(k.tasks, WaitingFor(s), |k.tasks|);
    LongestMeaning(k.tasks, s, |k.tasks|);
    LastWaitingMeaning(k.tasks, s, |k.tasks|);
  }

  /** A signal either adds one unit to the semaphore, up to its maximum, and leaves all tasks
      alone, or leaves the value alone and makes exactly one waiter ready. */
  lemma SignalGivesOnce(k: Kernel, s: nat)
    requires Sized(k) && s < |k.sems| && PriosReachable(k)
    ensures var r := Give(k, s);
            if !Waiting(k.tasks, s) then
              && r.tasks == k.tasks
              && r.sems[s].value == (if k.sems[s].value < k.sems[s].maxValue then k.sems[s].value + 1 else k.sems[s].value)
            else
              && r.sems == k.sems
              && exists t | 0 <= t < |k.tasks| ::
                   && Wants(WaitingFor(s), k.tasks[t]) && r.tasks[t] == k.tasks[t].(state := READY)
                   && forall i | 0 <= i < |k.tasks| && i != t :: r.tasks[i] == k.tasks[i]
  {
    if Waiting(k.tasks, s) {
      ReleaseMeaning(k, s);
      var t := ReleaseTarget(k, s);
      DoAllOne(k.tasks[t], Grant);
      assert Wants(WaitingFor(s), k.tasks[t]) && Give(k, s).tasks[t] == k.tasks[t].(state := READY);
    }
  }

  /** With prio 255 allowed, a signal can get lost: if every waiter has it, neither the value
      nor any task changes. */
  lemma SignalLostOnPrio255(k: Kernel, s: nat)
    requires Sized(k) && s < |k.sems| && !k.cfg.roundRobin && Waiting(k.tasks, s)
    ensures Give(k, s) == k <==>
            forall i | 0 <= i < |k.tasks| && Wants(WaitingFor(s), k.tasks[i]) :: k.tasks[i].prio == 255
  {
    BestPrioMeaning(k.tasks, WaitingFor(s), |k.tasks|);
    var t := ReleaseTarget(k, s);
    if t != NO_TID {
      DoAllOne(k.tasks[t], Grant);
      assert Give(k, s).tasks[t] != k.tasks[t];
    }
  }

  // ----- Accounts ----------------------------------------------------------------------

  /** Who holds units of a semaphore: held has each task once per unit it took or was handed
      and has not given back; extra counts signals by interrupts and by tasks that held
      nothing; dropped counts units lost. */
  datatype Account = Account(initial: nat, held: multiset<nat>, extra: nat, dropped: nat)

  datatype Ledger = Ledger(k: Kernel, accounts: seq<Account>)

  /** What is held after `giver` gave a unit back, None being an interrupt. */
  function Returned(held: multiset<nat>, giver: Option<nat>): multiset<nat> {
    if giver.Some? then held - multiset{giver.value} else held
  }

  /** What a signal hands out. */
  function HandedOut(k: Kernel, s: nat): multiset<nat>
    requires Sized(k)
  {
    if Waiting(k.tasks, s) && ReleaseTarget(k, s) != NO_TID then multiset{ReleaseTarget(k, s)} else multiset{}
  }

  /** The signalled unit has nowhere to go. */
  predicate Drops(k: Kernel, s: nat)
    requires Sized(k) && s < |k.sems|
  {
    if Waiting(k.tasks, s) then ReleaseTarget(k, s) == NO_TID else k.sems[s].value >= k.sems[s].maxValue
  }

  /** The account of semaphore s after a signal by `giver`. */
  function Credit(k: Kernel, a: Account, s: nat, giver: Option<nat>): Account
    requires Sized(k) && s < |k.sems|
  {
    a.(held := Returned(a.held, giver) + HandedOut(k, s),
    extra := a.extra + if giver.Some? && giver.value in a.held then 0 else 1,
    dropped := a.dropped + if Drops(k, s) then 1 else 0)
  }

  function Book(k: Kernel, accounts: seq<Account>, op: Op): seq<Account>
    requires Sized(k) && Legal(k, op) && |accounts| == |k.sems|
  {
    match op
    case CreateSem(_, initial) => accounts + [Account(initial, multiset{}, 0, 0)]
    case SemWait(s) =>
      if k.sems[s].value > 0 then accounts[s := accounts[s].(held := accounts[s].held + multiset{k.runningTid})]
      else accounts
    case SemSignal(s) => accounts[s := Credit(k, accounts[s], s, Some(k.runningTid))]
    case IsrSemSignal(s) => accounts[s := Credit(k, accounts[s], s, None)]
    case _ => accounts
  }

  /** Units are conserved: what is free, held or lost is what there was plus what came from
      outside; nothing is lost unless more was given back than the semaphore can count. */
  ghost predicate Balanced(k: Kernel, s: Sem, a: Account) {
    && s.value + |a.held| + a.dropped == a.initial + a.extra
    && (a.extra == 0 && a.initial <= s.maxValue && PriosReachable(k) ==> a.dropped == 0)
  }

  ghost predicate LedgerInv(l: Ledger) {
    && Inv(l.k) && |l.accounts| == |l.k.sems|
    && forall s | 0 <= s < |l.accounts| :: Balanced(l.k, l.k.sems[s], l.accounts[s])
  }

  lemma ReturnedSize(held: multiset<nat>, giver: Option<nat>)
    ensures |Returned(held, giver)| + (if giver.Some? && giver.value in held then 1 else 0) == |held|
  {
    if giver.Some? {
      if giver.value in held {
        assert held == (held - multiset{giver.value}) + multiset{giver.value};
      } else {
        assert held - multiset{giver.value} == held;
      }
    }
  }

  lemma SignalBalances(k: Kernel, a: Account, s: nat, giver: Option<nat>)
    requires Sized(k) && s < |k.sems| && Balanced(k, k.sems[s], a)
    ensures Balanced(k, Give(k, s).sems[s], Credit(k, a, s, giver))
  {
    ReturnedSize(a.held, giver);
    hide Returned;
    if Waiting(k.tasks, s) {
      ReleaseMeaning(k, s);
    }
  }

  /** Set-up and running never turn an unreachable priority into a reachable one. */
  lemma PriosStay(k: Kernel, op: Op)
    requires Inv(k) && Legal(k, op)
    ensures PriosReachable(After1(k, op)) ==> PriosReachable(k)
  {
    InvKnowsEvents(k);
    if SetUp(op) {
      PriosStayInSetUp(k, op);
    } else {
      StepShape(k, op);
    }
  }

  lemma PriosStayInSetUp(k: Kernel, op: Op)
    requires Inv(k) && EventsKnown(k) && Legal(k, op) && SetUp(op)
    ensures PriosReachable(Step(k, op)) ==> PriosReachable(k)
  {
    assert forall i | 0 <= i < |k.tasks| :: Step(k, op).tasks[i] == k.tasks[i];
  }

  lemma SemsAfter(k: Kernel, op: Op)
    requires Inv(k) && Legal(k, op)
    ensures var r := After1(k, op).sems;
            match op
            case CreateSem(max, initial) => r == k.sems + [Sem(max, initial)]
            case SemWait(s) => r == Take(k, s).sems
            case SemSignal(s) => r == Give(k, s).sems
            case IsrSemSignal(s) => r == Give(k, s).sems
            case _ => r == k.sems
  {
    InvKnowsEvents(k);
    if !SetUp(op) && !op.SemWait? && !op.SemSignal? && !op.IsrSemSignal? {
      SemsUntouched(k, op);
    }
  }

  lemma GiveTouchesOne(k: Kernel, s: nat, i: nat)
    requires Sized(k) && s < |k.sems| && i < |k.sems| && i != s
    ensures Give(k, s).sems[i] == k.sems[i]
  {
  }

  ghost function LedgerStep(l: Ledger, op: Op): (r: Ledger)
    requires LedgerInv(l) && Legal(l.k, op)
    ensures LedgerInv(r) && r.k == After1(l.k, op)
  {
    LedgerStays(l, op);
    Ledger(After1(l.k, op), Book(l.k, l.accounts, op))
  }

  lemma LedgerStays(l: Ledger, op: Op)
    requires LedgerInv(l) && Legal(l.k, op)
    ensures LedgerInv(Ledger(After1(l.k, op), Book(l.k, l.accounts, op)))
  {
    hide After1;
    var k, r, books := l.k, After1(l.k, op), Book(l.k, l.accounts, op);
    SemsAfter(k, op);
    PriosStay(k, op);
    forall i | 0 <= i < |books|
      ensures i < |r.sems| && Balanced(r, r.sems[i], books[i])
    {
      AccountStays(l, op, i);
    }
  }

  /** A semaphore that no signal reaches keeps its balance; a wait moves a unit. */
  lemma OtherAccountStays(l: Ledger, op: Op, i: nat)
    requires LedgerInv(l) && Legal(l.k, op) && i < |Book(l.k, l.accounts, op)|
    requires !op.SemSignal? && !op.IsrSemSignal?
    ensures i < |After1(l.k, op).sems|
    ensures Balanced(After1(l.k, op), After1(l.k, op).sems[i], Book(l.k, l.accounts, op)[i])
  {
    hide After1, PriosReachable;
    SemsAfter(l.k, op);
    PriosStay(l.k, op);
    if i < |l.k.sems| {
      assert Balanced(l.k, l.k.sems[i], l.accounts[i]);
    }
  }

  lemma BalancedMoves(k: Kernel, r: Kernel, s: Sem, a: Account)
    requires Balanced(k, s, a) && (PriosReachable(r) ==> PriosReachable(k))
    ensures Balanced(r, s, a)
  {
  }

  lemma SignalAccountStays(l: Ledger, op: Op, i: nat)
    requires LedgerInv(l) && Legal(l.k, op) && i < |l.accounts| && (op.SemSignal? || op.IsrSemSignal?)
    ensures i < |After1(l.k, op).sems| && i < |Book(l.k, l.accounts, op)|
    ensures Balanced(After1(l.k, op), After1(l.k, op).sems[i], Book(l.k, l.accounts, op)[i])
  {
    assert Balanced(l.k, l.k.sems[i], l.accounts[i]);
    hide After1, Credit, Give, PriosReachable, Balanced;
    SemsAfter(l.k, op);
    PriosStay(l.k, op);
    if i == op.s {
      SignalBalances(l.k, l.accounts[i], i, if op.SemSignal? then Some(l.k.runningTid) else None);
    } else {
      GiveTouchesOne(l.k, op.s, i);
    }
    BalancedMoves(l.k, After1(l.k, op), After1(l.k, op).sems[i], Book(l.k, l.accounts, op)[i]);
  }

  lemma AccountStays(l: Ledger, op: Op, i: nat)
    requires LedgerInv(l) && Legal(l.k, op) && i < |Book(l.k, l.accounts, op)|
    ensures i < |After1(l.k, op).sems|
    ensures Balanced(After1(l.k, op), After1(l.k, op).sems[i], Book(l.k, l.accounts, op)[i])
  {
    if op.SemSignal? || op.IsrSemSignal? {
      SignalAccountStays(l, op, i);
    } else {
      OtherAccountStays(l, op, i);
    }
  }

  ghost function LedgerRun(l: Ledger, ops: seq<Op>): (r: Ledger)
    requires LedgerInv(l) && LegalRun(l.k, ops)
    ensures LedgerInv(r) && r.k == Run(l.k, ops)
    decreases |ops|
  {
    if ops == [] then l else LedgerRun(LedgerStep(l, ops[0]), ops[1..])
  }

  /** In every reachable state a task waits for a semaphore only while it is at zero. */
  lemma NobodyWaitsForAFreeSemaphore(cfg: Config, ops: seq<Op>, s: nat)
    requires ConfigOk(cfg) && Inv(Boot(cfg)) && LegalRun(Boot(cfg), ops)
    requires s < |Run(Boot(cfg), ops).sems| && Waiting(Run(Boot(cfg), ops).tasks, s)
    ensures Run(Boot(cfg), ops).sems[s].value == 0
  {
  }
}
