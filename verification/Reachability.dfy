// Runs from power-up: one that loses a wake-up, and one that revives a killed task.
module Reachability {
  import opened Types
  import opened TaskSpec
  import opened KernelSpec
  import opened Steps
  import opened Projection
  import opened Invariant
  import opened Runs
  import opened Wakeups
  import opened Suspension
  import Q = QueueSpec

  /** Two tasks, one queue with its change event, scheduling by priority. */
  const CONFIG := Config(2, 1, 1, 1, false)

  /** Task 0 owns a queue for one message, task 1 none. */
  const RECEIVER := NewTask(1, 0)
  const SENDER := NewTask(2, NO_QUEUE)
  const EMPTY_QUEUE := Q.Queue([], 1, 0, 0)

  const NOTED: Task := RECEIVER.(msgChangeEvent := 0)
  const BLOCKED: Task :=
    NOTED.(msgResult := EMPTY, waits := {0}, waitSingleEvent := true,
    state := WAITING_EVENT, resume := InReceive(0))

  const SUSPENDED_RECEIVER: Task := BLOCKED.(savedState := WAITING_EVENT, state := SUSPENDED)

  /** The kernel with these tasks: before it is started, and from then on. */
  function At(tasks: seq<Task>, running: bool, runningTid: nat): Kernel {
    Kernel(CONFIG, tasks, [EMPTY_QUEUE], [], 1, [NO_TID], NO_EVENT, 0, running, runningTid)
  }

  lemma CreatesReceiver()
    ensures var k := Boot(CONFIG);
            Inv(k) && Legal(k, CreateTask(1, 2)) && After1(k, CreateTask(1, 2)) == At([RECEIVER], false, NO_TID)
  {
  }

  lemma CreatesSender()
    requires Inv(At([RECEIVER], false, NO_TID))
    ensures var k := At([RECEIVER], false, NO_TID);
            Legal(k, CreateTask(2, 0)) && After1(k, CreateTask(2, 0)) == At([RECEIVER, SENDER], false, NO_TID)
  {
  }

  lemma Starts()
    requires Inv(At([RECEIVER, SENDER], false, NO_TID))
    ensures var k := At([RECEIVER, SENDER], false, NO_TID);
            Legal(k, Start) && After1(k, Start) == At([RECEIVER, SENDER], true, NO_TID)
  {
  }

  lemma DispatchesReceiver()
    requires Inv(At([RECEIVER, SENDER], true, NO_TID))
    ensures var k := At([RECEIVER, SENDER], true, NO_TID);
            Legal(k, Dispatch) && After1(k, Dispatch) == At([RECEIVER, SENDER], true, 0)
  {
    assert BestPrio([RECEIVER, SENDER], Ready, 1) == 0;
    assert BestPrio([RECEIVER, SENDER], Ready, 2) == 0;
  }

  lemma BlockingBlocks()
    requires Sized(At([NOTED, SENDER], true, 0))
    ensures Block(At([NOTED, SENDER], true, 0), 0, EMPTY, InReceive(0)) == At([BLOCKED, SENDER], true, NO_TID)
  {
    BlockIs(NOTED, At([NOTED, SENDER], true, 0), EMPTY, 0, InReceive(0));
  }

  lemma ReceiverBlocks()
    requires Inv(At([RECEIVER, SENDER], true, 0))
    ensures var k := At([RECEIVER, SENDER], true, 0);
            Legal(k, MsgReceive(0, false)) && After1(k, MsgReceive(0, false)) == At([BLOCKED, SENDER], true, NO_TID)
  {
    hide Block;
    DoAllOne(RECEIVER, NoteEvent(0));
    assert Noted(At([RECEIVER, SENDER], true, 0), 0) == At([NOTED, SENDER], true, 0);
    BlockingBlocks();
  }

  lemma DispatchesSender()
    requires Inv(At([BLOCKED, SENDER], true, NO_TID))
    ensures var k := At([BLOCKED, SENDER], true, NO_TID);
            Legal(k, Dispatch) && After1(k, Dispatch) == At([BLOCKED, SENDER], true, 1)
  {
    assert BestPrio([BLOCKED, SENDER], Ready, 1) == NO_TID;
    assert BestPrio([BLOCKED, SENDER], Ready, 2) == 1;
  }

  lemma SenderSuspends()
    requires Inv(At([BLOCKED, SENDER], true, 1))
    ensures var k := At([BLOCKED, SENDER], true, 1);
            && Legal(k, SuspendTask(0))
            && After1(k, SuspendTask(0)) == At([SUSPENDED_RECEIVER, SENDER], true, 1)
  {
    DoAllOne(BLOCKED, Suspend);
  }

  /** The receiver runs first and blocks; the sender suspends it, posts and resumes it. */
  function LosingRun(m: Msg): seq<Op> {
    [CreateTask(1, 2)] + ([CreateTask(2, 0)] + ([Start] + ([Dispatch] + ([MsgReceive(0, false)]
    + ([Dispatch] + ([SuspendTask(0)] + [MsgPost(0, m, 0, 0, false), ResumeTask(0)]))))))
  }

  lemma SenderLosesThePost(m: Msg)
    requires Inv(At([SUSPENDED_RECEIVER, SENDER], true, 1))
    ensures var k, ops := At([SUSPENDED_RECEIVER, SENDER], true, 1), [MsgPost(0, m, 0, 0, false), ResumeTask(0)];
            LegalRun(k, ops) && LeftWaiting(Run(k, ops), 0)
  {
    hide Inv;
    SuspendedReceiverLosesThePost(At([SUSPENDED_RECEIVER, SENDER], true, 1), 0, 0, m);
  }

  /** A lost wake-up is reachable from power-up, with any message. */
  lemma LostWakeUpIsReachable(m: Msg)
    ensures ConfigOk(CONFIG) && Inv(Boot(CONFIG)) && LegalRun(Boot(CONFIG), LosingRun(m))
    ensures LeftWaiting(Run(Boot(CONFIG), LosingRun(m)), 0)
  {
    hide After1, Legal, Inv, LegalRun, Run, LeftWaiting, At, Boot;
    CreatesReceiver();
    CreatesSender();
    Starts();
    DispatchesReceiver();
    ReceiverBlocks();
    DispatchesSender();
    SenderSuspends();
    SenderLosesThePost(m);
    var r7 := [MsgPost(0, m, 0, 0, false), ResumeTask(0)];
    RunCons(At([BLOCKED, SENDER], true, 1), SuspendTask(0), r7);
    var r6 := [SuspendTask(0)] + r7;
    RunCons(At([BLOCKED, SENDER], true, NO_TID), Dispatch, r6);
    var r5 := [Dispatch] + r6;
    RunCons(At([RECEIVER, SENDER], true, 0), MsgReceive(0, false), r5);
    var r4 := [MsgReceive(0, false)] + r5;
    RunCons(At([RECEIVER, SENDER], true, NO_TID), Dispatch, r4);
    var r3 := [Dispatch] + r4;
    RunCons(At([RECEIVER, SENDER], false, NO_TID), Start, r3);
    var r2 := [Start] + r3;
    RunCons(At([RECEIVER], false, NO_TID), CreateTask(2, 0), r2);
    RunCons(Boot(CONFIG), CreateTask(1, 2), [CreateTask(2, 0)] + r2);
  }

  // ----- A killed task that comes back -------------------------------------------------

  const ALONE := NewTask(1, NO_QUEUE)
  const KILLED_ALONE: Task := ALONE.(state := KILLED)
  const REVIVED: Task := ALONE.(clockId := 0, time := 1, state := WAITING_TIME, resume := After)

  function One(task: Task, running: bool, runningTid: nat): Kernel {
    Kernel(CONFIG, [task], [], [], 0, [0], NO_EVENT, 0, running, runningTid)
  }

  /** The only task kills itself, goes on, and waits for a tick. */
  const REVIVING: seq<Op> :=
    [CreateTask(1, 0)] + ([Start] + ([Dispatch] + ([KillTask(0)] + ([TaskWait(0, 1)] + [Tick]))))

  lemma CreatesAlone()
    ensures var k := Boot(CONFIG);
            Inv(k) && Legal(k, CreateTask(1, 0)) && After1(k, CreateTask(1, 0)) == One(ALONE, false, NO_TID)
  {
  }

  lemma StartsAlone()
    requires Inv(One(ALONE, false, NO_TID))
    ensures var k := One(ALONE, false, NO_TID); Legal(k, Start) && After1(k, Start) == One(ALONE, true, NO_TID)
  {
  }

  lemma DispatchesAlone()
    requires Inv(One(ALONE, true, NO_TID))
    ensures var k := One(ALONE, true, NO_TID); Legal(k, Dispatch) && After1(k, Dispatch) == One(ALONE, true, 0)
  {
    assert BestPrio([ALONE], Ready, 1) == 0;
  }

  lemma KillsItself()
    requires Inv(One(ALONE, true, 0))
    ensures var k := One(ALONE, true, 0); Legal(k, KillTask(0)) && After1(k, KillTask(0)) == One(KILLED_ALONE, true, 0)
  {
    DoAllOne(ALONE, Kill);
  }

  lemma WaitsThough()
    requires Inv(One(KILLED_ALONE, true, 0))
    ensures var k := One(KILLED_ALONE, true, 0);
            Legal(k, TaskWait(0, 1)) && After1(k, TaskWait(0, 1)) == One(REVIVED, true, NO_TID)
  {
    SelfWaitTask(KILLED_ALONE, [WaitTime(0, 1)], After);
  }

  lemma TickMakesItReady()
    requires Inv(One(REVIVED, true, NO_TID))
    ensures var k := One(REVIVED, true, NO_TID);
            Legal(k, Tick) && After1(k, Tick) == One(REVIVED.(time := 0, state := READY), true, NO_TID)
  {
    var k := One(REVIVED, true, NO_TID);
    DoAllOne(REVIVED, Timer(0, 1));
    assert TickTasks(k, 0, 1, 0) == k;
    assert TickTasks(k, 0, 1, 1) == TickTask(k, 0, 0, 1);
  }

  /** A run from power-up after whose fourth step task 0 is killed, and after whose last it is
      ready. */
  lemma KilledTaskRevives()
    ensures ConfigOk(CONFIG) && Inv(Boot(CONFIG)) && LegalRun(Boot(CONFIG), REVIVING)
    ensures LegalRun(Boot(CONFIG), REVIVING[..4]) && Run(Boot(CONFIG), REVIVING[..4]) == One(KILLED_ALONE, true, 0)
    ensures Run(Boot(CONFIG), REVIVING) == One(REVIVED.(time := 0, state := READY), true, NO_TID)
  {
    hide After1, Legal, Inv, LegalRun, Run, One, Boot;
    CreatesAlone();
    StartsAlone();
    DispatchesAlone();
    KillsItself();
    WaitsThough();
    TickMakesItReady();
    RunOfTwo(One(KILLED_ALONE, true, 0), TaskWait(0, 1), Tick);
    assert [TaskWait(0, 1)] + [Tick] == [TaskWait(0, 1), Tick];
    FourSteps([TaskWait(0, 1)] + [Tick]);
    NoMoreSteps(One(KILLED_ALONE, true, 0));
    FourSteps([]);
    assert REVIVING[..4] == [CreateTask(1, 0)] + ([Start] + ([Dispatch] + ([KillTask(0)] + [])));
  }

  lemma NoMoreSteps(k: Kernel)
    requires Inv(k)
    ensures LegalRun(k, []) && Run(k, []) == k
  {
  }

  lemma FourSteps(rest: seq<Op>)
    requires Inv(One(KILLED_ALONE, true, 0)) && LegalRun(One(KILLED_ALONE, true, 0), rest)
    ensures var ops := [CreateTask(1, 0)] + ([Start] + ([Dispatch] + ([KillTask(0)] + rest)));
            && Inv(Boot(CONFIG)) && LegalRun(Boot(CONFIG), ops)
            && Run(Boot(CONFIG), ops) == Run(One(KILLED_ALONE, true, 0), rest)
  {
    hide After1, Legal, Inv, LegalRun, Run, One, Boot;
    CreatesAlone();
    StartsAlone();
    DispatchesAlone();
    KillsItself();
    RunCons(One(ALONE, true, 0), KillTask(0), rest);
    RunCons(One(ALONE, true, NO_TID), Dispatch, [KillTask(0)] + rest);
    RunCons(One(ALONE, false, NO_TID), Start, [Dispatch] + ([KillTask(0)] + rest));
    RunCons(Boot(CONFIG), CreateTask(1, 0), [Start] + ([Dispatch] + ([KillTask(0)] + rest)));
  }
}
