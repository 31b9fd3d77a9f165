// The kernel as the source keeps it: tables of control blocks, events and semaphores updated
// in place by loops. Every method is proved to compute the function of KernelSpec it stands for.
module KernelObjects {
  import opened Types
  import opened EventBits
  import opened TaskSpec
  import opened KernelSpec
  import opened MsgQueues
  import opened Steps
  import opened Projection
  import opened QueueProjection
  import opened Scheduling
  import opened Semaphores
  import MB = MessageBytes
  import Q = QueueSpec

  /** A control block with its event wait set as bytes. */
  type TaskBlock = Tcb<seq<bv8>>

  function Abstract(c: TaskBlock): Task {
    Tcb(c.state, c.savedState, c.resume, c.time, c.prio, c.semaphore, c.msgQ, c.msgChangeEvent, c.msgResult,
        c.waitSingleEvent, c.clockId, EventsOf(c.waits))
  }

  class Cocoos {
    const cfg: Config
    // os_task.c
    const taskList: array<TaskBlock>
    var nTasks: nat
    var lastRunningTask: nat
    // os_event.c: eventList[e] is signaledByTid
    const eventList: array<nat>
    var nEvents: nat
    var lastSignaledEvent: nat
    // os_sem.c
    const semList: array<Sem>
    var nSemaphores: nat
    // os_msgqueue.c
    var msgQList: seq<MsgQueue>
    // os_kernel.c
    var running: bool
    var runningTid: nat

    ghost var k: Kernel

    ghost predicate TasksMatch(ts: seq<Task>)
      reads `nTasks, taskList
    {
      && |ts| == nTasks <= taskList.Length == cfg.nTasks < NO_TID
      && forall i | 0 <= i < nTasks ::
           |taskList[i].waits| == EventQueueSize(cfg.nTotalEvents) && Abstract(taskList[i]) == ts[i]
    }

    ghost predicate ScalarsMatch(m: Kernel)
      reads `nEvents, `lastSignaledEvent, `lastRunningTask, `running, `runningTid
    {
      && m.cfg == cfg && m.nEvents == nEvents && m.lastSignaledEvent == lastSignaledEvent
      && m.lastRunningTask == lastRunningTask && m.running == running && m.runningTid == runningTid
      && SizeFits(cfg.nTotalEvents)
    }

    ghost predicate TablesMatch(signaledBy: seq<nat>, sems: seq<Sem>)
      reads `nSemaphores, eventList, semList
    {
      && signaledBy == eventList[..]
      && |sems| == nSemaphores <= semList.Length == cfg.nTotalSemaphores
      && sems == semList[..nSemaphores]
    }

    ghost predicate QueuesMatch(qs: seq<Q.Queue>)
      reads `msgQList, msgQList, set q | q in msgQList :: q.list
    {
      && |qs| == |msgQList|
      && (forall i | 0 <= i < |msgQList| :: msgQList[i].Valid() && msgQList[i].View() == qs[i])
      && (forall i, j | 0 <= i < j < |msgQList| :: msgQList[i] != msgQList[j] && msgQList[i].list != msgQList[j].list)
    }

    ghost predicate Valid()
      reads this, taskList, eventList, semList, msgQList, set q | q in msgQList :: q.list
    {
      && Sized(k) && TasksMatch(k.tasks) && ScalarsMatch(k) && TablesMatch(k.signaledBy, k.sems)
      && QueuesMatch(k.queues)
    }

    lemma TaskFacts(i: nat)
      requires Valid() && i < nTasks
      ensures Sized(k) && |k.tasks| == nTasks && i < taskList.Length && Abstract(taskList[i]) == k.tasks[i]
      ensures |taskList[i].waits| == EventQueueSize(cfg.nTotalEvents) && SizeFits(cfg.nTotalEvents)
      ensures k.tasks[i].msgQ == NO_QUEUE || k.tasks[i].msgQ < |k.queues| == |msgQList|
    {
    }

    lemma QueueFacts(q: nat)
      requires Valid() && q < |msgQList|
      ensures Sized(k) && q < |k.queues| && k.queues[q] == msgQList[q].View() && msgQList[q].Valid()
      ensures |msgQList[q].contents| < msgQList[q].size && msgQList[q].tail < msgQList[q].size
    {
    }

    /** A store to one control block. */
    method Store(tid: nat, c: TaskBlock)
      requires Valid() && tid < nTasks
      requires |c.waits| == EventQueueSize(cfg.nTotalEvents) && c.msgQ == taskList[tid].msgQ
      modifies taskList, `k
      ensures Valid() && k == old(k).(tasks := old(k).tasks[tid := Abstract(c)])
      ensures taskList[tid] == c
      ensures forall i | 0 <= i < taskList.Length && i != tid :: taskList[i] == old(taskList[i])
    {
      taskList[tid] := c;
      k := k.(tasks := k.tasks[tid := Abstract(c)]);
    }

    // ----- os_task.c: event wait sets ----------------------------------------------------

    /** os_task_clear_wait_queue. */
    method ClearWaitQueue(tid: nat)
      requires Valid() && tid < nTasks
      modifies taskList, `k
      ensures Valid() && k == old(k).(tasks := old(k).tasks[tid := ClearWaits(old(k).tasks[tid])])
    {
      var task := taskList[tid].(waitSingleEvent := false);
      var event: nat := EventQueueSize(cfg.nTotalEvents);
      while event != 0
        invariant event <= |task.waits| == EventQueueSize(cfg.nTotalEvents)
        invariant forall b | event <= b < |task.waits| :: task.waits[b] == 0
        invariant task == taskList[tid].(waitSingleEvent := false, waits := task.waits)
      {
        event := event - 1;
        task := task.(waits := task.waits[event := 0]);
      }
      AllZeroIsEmpty(task.waits);
      assert Abstract(task) == ClearWaits(k.tasks[tid]);
      Store(tid, task);
    }

    /** os_task_wait_queue_empty. */
    method WaitQueueEmpty(tid: nat) returns (empty: bool)
      requires Valid() && tid < nTasks
      ensures empty <==> k.tasks[tid].waits == {}
    {
      var list := taskList[tid].waits;
      AllZeroIsEmpty(list);
      var event: nat := EventQueueSize(cfg.nTotalEvents);
      while event != 0
        invariant event <= |list|
        invariant forall b | event <= b < |list| :: list[b] == 0
      {
        event := event - 1;
        if list[event] != 0 {
          return false;
        }
      }
      return true;
    }

    // ----- os_task.c: single tasks -------------------------------------------------------

    /** task_ready_set. */
    method ReadySet(tid: nat)
      requires Valid() && tid < nTasks
      modifies taskList, `k
      ensures Valid() && k == old(k).(tasks := old(k).tasks[tid := old(k).tasks[tid].(state := READY)])
    {
      hide Valid;
      TaskFacts(tid);
      Store(tid, taskList[tid].(state := READY));
    }

    /** os_task_wait_time_set. */
    method WaitTimeSet(tid: nat, id: uint8, time: uint32)
      requires Valid() && tid < nTasks && time > 0
      modifies taskList, `k
      ensures Valid() && k == On(old(k), tid, [WaitTime(id, time)])
    {
      hide Valid;
      TaskFacts(tid);
      DoAllOne(k.tasks[tid], WaitTime(id, time));
      Store(tid, taskList[tid].(clockId := id, time := time, state := WAITING_TIME));
    }

    /** eventList[e / 8] |= 1 << (e & 7). */
    method SetWaitBit(tid: nat, e: nat, waitSingleEvent: bool)
      requires Valid() && tid < nTasks && e < cfg.nTotalEvents
      modifies taskList, `k
      ensures Valid()
      ensures k == old(k).(tasks := old(k).tasks[tid :=
        old(k).tasks[tid].(waits := old(k).tasks[tid].waits + {e}, waitSingleEvent := waitSingleEvent)])
    {
      hide Valid;
      TaskFacts(tid);
      SizingIsExact(cfg.nTotalEvents);
      SetBitIsUnion(taskList[tid].waits, e);
      Store(tid, taskList[tid].(waits := SetBit(taskList[tid].waits, e), waitSingleEvent := waitSingleEvent));
    }

    /** eventList[e / 8] &= ~(1 << (e & 7)). */
    method ClearWaitBit(tid: nat, e: nat)
      requires Valid() && tid < nTasks && e < cfg.nTotalEvents
      modifies taskList, `k
      ensures Valid()
      ensures k == old(k).(tasks := old(k).tasks[tid := old(k).tasks[tid].(waits := old(k).tasks[tid].waits - {e})])
    {
      hide Valid;
      TaskFacts(tid);
      SizingIsExact(cfg.nTotalEvents);
      ClearBitIsDifference(taskList[tid].waits, e);
      Store(tid, taskList[tid].(waits := ClearBit(taskList[tid].waits, e)));
    }

    /** eventList[e / 8] & (1 << (e & 7)). */
    method WaitsFor(tid: nat, e: nat) returns (b: bool)
      requires Valid() && tid < nTasks && e < cfg.nTotalEvents
      ensures b <==> e in k.tasks[tid].waits
    {
      hide Valid;
      TaskFacts(tid);
      SizingIsExact(cfg.nTotalEvents);
      b := Bit(taskList[tid].waits, e);
    }

    /** os_task_wait_event. */
    method TaskWaitEvent(tid: nat, e: nat, waitSingleEvent: bool, timeout: uint32)
      requires Valid() && tid < nTasks && e < cfg.nTotalEvents
      modifies taskList, `k
      ensures Valid()
      ensures k == old(k).(tasks := old(k).tasks[tid := WaitOn(old(k).tasks[tid], e, waitSingleEvent, timeout)])
    {
      hide Valid;
      ghost var ts := k.tasks;
      TaskFacts(tid);
      SetWaitBit(tid, e, waitSingleEvent);
      TaskFacts(tid);
      ghost var added := k.tasks[tid];
      if timeout != 0 {
        DoAllOne(added, WaitTime(0, timeout));
        WaitTimeSet(tid, 0, timeout);
        TaskFacts(tid);
        Overwrite(ts, tid, added, k.tasks[tid]);
        Overwrite(ts, tid, k.tasks[tid], WaitOn(ts[tid], e, waitSingleEvent, timeout));
        Store(tid, taskList[tid].(state := WAITING_EVENT_TIMEOUT));
      } else {
        Overwrite(ts, tid, added, WaitOn(ts[tid], e, waitSingleEvent, timeout));
        Store(tid, taskList[tid].(state := WAITING_EVENT));
      }
    }

    /** os_task_suspend. */
    method SuspendTask(tid: nat)
      requires Valid() && tid < nTasks
      modifies taskList, `k
      ensures Valid() && k == On(old(k), tid, [Suspend])
    {
      hide Valid;
      TaskFacts(tid);
      DoAllOne(k.tasks[tid], Suspend);
      var task := taskList[tid];
      var state := task.state;
      if state != KILLED && state != SUSPENDED {
        if state == WAITING_SEM {
          task := task.(savedState := READY, resume := Top);
        } else {
          task := task.(savedState := state);
        }
        Store(tid, task.(state := SUSPENDED));
      }
    }

    /** os_task_resume. */
    method ResumeTask(tid: nat)
      requires Valid() && tid < nTasks
      modifies taskList, `k
      ensures Valid() && k == On(old(k), tid, [Resume])
    {
      hide Valid;
      TaskFacts(tid);
      DoAllOne(k.tasks[tid], Resume);
      if taskList[tid].state == SUSPENDED {
        Store(tid, taskList[tid].(state := taskList[tid].savedState));
      }
    }

    /** os_task_kill. */
    method KillTask(tid: nat)
      requires Valid() && tid < nTasks
      modifies taskList, `k
      ensures Valid() && k == On(old(k), tid, [Kill])
    {
      hide Valid;
      TaskFacts(tid);
      DoAllOne(k.tasks[tid], Kill);
      Store(tid, taskList[tid].(state := KILLED));
    }

    // ----- Signals -----------------------------------------------------------------------

    /** The body of the loop of os_task_signal_event. */
    method SignalOne(i: nat, e: nat)
      requires Valid() && i < nTasks && e < cfg.nTotalEvents
      modifies taskList, `k
      ensures Valid() && k == old(k).(tasks := old(k).tasks[i := Do(old(k).tasks[i], Signal(e))])
    {
      hide Valid, ClearWaits;
      TaskFacts(i);
      ghost var ts := k.tasks;
      var taskWaitStateOK := taskList[i].state == WAITING_EVENT || taskList[i].state == WAITING_EVENT_TIMEOUT;
      var taskWaitingForEvent := WaitsFor(i, e);
      if taskWaitingForEvent && taskWaitStateOK {
        assert k.tasks[i].waits == {e} <==> k.tasks[i].waits - {e} == {};
        ClearWaitBit(i, e);
        TaskFacts(i);
        var empty := WaitQueueEmpty(i);
        if taskList[i].waitSingleEvent || empty {
          ClearingForgets(ts[i], e);
          Overwrite(ts, i, k.tasks[i], ClearWaits(k.tasks[i]));
          ClearWaitQueue(i);
          Overwrite(ts, i, k.tasks[i], k.tasks[i].(state := READY));
          ReadySet(i);
        }
      }
    }

    /** os_task_signal_event. */
    method TaskSignalEvent(e: nat)
      requires Valid() && e < cfg.nTotalEvents
      modifies taskList, `k
      ensures Valid() && k == old(k).(tasks := SignalTasks(old(k).tasks, e))
    {
      ghost var was := k;
      for i := 0 to nTasks
        invariant Valid() && k == was.(tasks := k.tasks)
        invariant forall j | 0 <= j < i :: k.tasks[j] == Do(was.tasks[j], Signal(e))
        invariant forall j | i <= j < nTasks :: k.tasks[j] == was.tasks[j]
      {
        SignalOne(i, e);
      }
      assert k.tasks == SignalTasks(was.tasks, e);
    }

    /** os_signal_event, then os_event_set_signaling_tid. */
    method SignalEvent(e: nat, tid: nat)
      requires Valid() && e < cfg.nTotalEvents
      modifies taskList, eventList, `k, `lastSignaledEvent
      ensures Valid() && k == SignalFrom(old(k), e, tid)
    {
      hide QueuesMatch, TasksMatch;
      lastSignaledEvent := e;
      k := k.(lastSignaledEvent := e);
      TaskSignalEvent(e);
      eventList[e] := tid;
      k := k.(signaledBy := k.signaledBy[e := tid]);
    }

    // ----- Ticks -------------------------------------------------------------------------

    /** Counting down the timer in one slot of queue q. */
    method TickSlot(q: nat, i: nat, ghost n: nat) returns (expired: bool)
      requires Valid() && q < |msgQList| && n < |msgQList[q].contents|
      requires i == At(msgQList[q].tail, n, msgQList[q].size)
      modifies `k, msgQList[q], msgQList[q].list
      ensures Valid() && k == WithMsgs(old(k), q, msgQList[q].contents)
      ensures msgQList[q].head == old(msgQList[q].head) && msgQList[q].tail == old(msgQList[q].tail)
      ensures msgQList[q].contents == old(msgQList[q].contents)[n := Q.TickMsg(old(msgQList[q].contents)[n])]
      ensures expired == (old(msgQList[q].contents)[n].delay == 1)
    {
      var mq := msgQList[q];
      expired := mq.CountDown(i, n);
      k := WithMsgs(k, q, mq.contents);
    }

    /** One pass of the loop of os_msgQ_tick: slot i holds the n-th of the messages s the queue
        had at the start. */
    method TickPass(q: nat, i: nat, ghost n: nat, ghost s: seq<Msg>, ghost was: Kernel)
      requires Valid() && q < |msgQList| && n < |s| && msgQList[q].contents == TickedTo(s, n)
      requires i == At(msgQList[q].tail, n, msgQList[q].size)
      requires Sized(was) && q < |was.queues| && k == Ticking(was, q, TickedTo(s, n), FiredTo(s, n))
      modifies taskList, eventList, `k, `lastSignaledEvent, msgQList[q], msgQList[q].list
      ensures Valid() && msgQList[q].contents == TickedTo(s, n + 1)
      ensures k == Ticking(was, q, TickedTo(s, n + 1), FiredTo(s, n + 1))
      ensures msgQList[q].head == old(msgQList[q].head) && msgQList[q].tail == old(msgQList[q].tail)
    {
      var expired := TickSlot(q, i, n);
      TickedToNext(s, n);
      TickingNext(was, q, TickedTo(s, n), TickedTo(s, n + 1), FiredTo(s, n));
      if expired {
        SignalAgain(was, q, TickedTo(s, n + 1), FiredTo(s, n));
        SignalEvent(msgQList[q].change, ISR_TID);
      }
    }

    /** os_msgQ_tick. */
    method MsgQTick(q: nat)
      requires Valid() && q < |msgQList|
      modifies taskList, eventList, `k, `lastSignaledEvent, msgQList[q], msgQList[q].list
      ensures Valid() && k == QueueTick(old(k), q)
    {
      hide Valid, Sized, SameShape, Ticking, QueueTick, TickedTo, FiredTo, Ring;
      QueueFacts(q);
      var mq := msgQList[q];
      ghost var was, s, n := k, mq.contents, 0;
      NextSlot(mq.slots, mq.head, mq.tail, mq.contents, 0);
      var nextMessage := Next(mq.tail, mq.size);
      var head := mq.head;
      TickedToEnd(s);
      TickingStart(was, q);
      while nextMessage != head
        invariant Valid() && head == mq.head
        invariant n <= |s| < mq.size && mq.tail < mq.size && nextMessage == At(mq.tail, n, mq.size)
        invariant mq.contents == TickedTo(s, n)
        invariant k == Ticking(was, q, TickedTo(s, n), FiredTo(s, n))
        decreases |s| - n
      {
        QueueFacts(q);
        NextSlot(mq.slots, mq.head, mq.tail, mq.contents, n);
        TickPass(q, nextMessage, n, s, was);
        nextMessage := Next(nextMessage, mq.size);
        n := n + 1;
      }
      QueueFacts(q);
      NextSlot(mq.slots, mq.head, mq.tail, mq.contents, n);
    }

    /** A timer that has run out: the task is ready, and no longer waits for its events. */
    method Expire(i: nat, state: TaskState)
      requires Valid() && i < nTasks && k.tasks[i].state == state
      modifies taskList, `k
      ensures Valid()
      ensures k == old(k).(tasks := old(k).tasks[i :=
        (if state == WAITING_EVENT_TIMEOUT then ClearWaits(old(k).tasks[i]) else old(k).tasks[i]).(time := 0, state := READY)])
    {
      hide Valid;
      TaskFacts(i);
      Store(i, taskList[i].(time := 0));
      if state == WAITING_EVENT_TIMEOUT {
        ClearWaitQueue(i);
      }
      ReadySet(i);
    }

    /** The timer part of one pass of the loop of task_tick. */
    method TickTimer(i: nat, clockId: uint8, tickSize: uint32)
      requires Valid() && i < nTasks
      modifies taskList, `k
      ensures Valid() && k == On(old(k), i, [Timer(clockId, tickSize)])
    {
      hide Valid;
      TaskFacts(i);
      DoAllOne(k.tasks[i], Timer(clockId, tickSize));
      var state := taskList[i].state;
      if state == WAITING_TIME || state == WAITING_EVENT_TIMEOUT {
        if taskList[i].clockId == clockId {
          if taskList[i].time <= tickSize {
            Expire(i, state);
          } else {
            Store(i, taskList[i].(time := taskList[i].time - tickSize));
          }
        }
      } else if state == WAITING_SEM {
        Store(i, taskList[i].(time := (taskList[i].time + 1) % 0x1_0000_0000));
      }
    }

    /** One pass of the loop of task_tick. */
    method TickPassOfTask(i: nat, clockId: uint8, tickSize: uint32)
      requires Valid() && i < nTasks
      modifies taskList, eventList, `k, `lastSignaledEvent, msgQList, set q | q in msgQList :: q.list
      ensures Valid() && k == TickTask(old(k), i, clockId, tickSize)
    {
      hide Valid, QueueTick;
      TaskFacts(i);
      TickTimer(i, clockId, tickSize);
      TaskFacts(i);
      if clockId == 0 {
        if taskList[i].msgQ != NO_QUEUE {
          MsgQTick(taskList[i].msgQ);
        }
      }
    }

    /** task_tick. */
    method TaskTickAll(clockId: uint8, tickSize: uint32)
      requires Valid()
      modifies taskList, eventList, `k, `lastSignaledEvent, msgQList, set q | q in msgQList :: q.list
      ensures Valid() && k == TaskTick(old(k), clockId, tickSize)
    {
      ghost var was := k;
      hide SameShape, TickTask;
      for i := 0 to nTasks
        invariant Valid() && nTasks == |was.tasks|
        invariant k == TickTasks(was, clockId, tickSize, i)
      {
        TickPassOfTask(i, clockId, tickSize);
      }
    }

    /** os_tick. */
    method OsTick()
      requires Valid()
      modifies taskList, eventList, `k, `lastSignaledEvent, msgQList, set q | q in msgQList :: q.list
      ensures Valid() && k == TaskTick(old(k), 0, 1)
    {
      TaskTickAll(0, 1);
    }

    /** os_sub_nTick, and os_sub_tick with nTicks == 1. */
    method OsSubNTick(id: uint8, nTicks: uint32)
      requires Valid()
      modifies taskList, eventList, `k, `lastSignaledEvent, msgQList, set q | q in msgQList :: q.list
      ensures Valid() && k == if id != 0 then TaskTick(old(k), id, nTicks) else old(k)
    {
      if id != 0 {
        TaskTickAll(id, nTicks);
      }
    }

    // ----- Scheduling --------------------------------------------------------------------

    /** highest_prio_ready_task. */
    method HighestPrioReadyTask() returns (highestPrioTask: nat)
      requires Valid()
      ensures highestPrioTask == BestPrio(k.tasks, Ready, |k.tasks|)
    {
      highestPrioTask := NO_TID;
      var highestPrio: nat := 255;
      for i := 0 to nTasks
        invariant highestPrioTask == BestPrio(k.tasks, Ready, i)
        invariant highestPrio == if highestPrioTask == NO_TID then 255 else k.tasks[highestPrioTask].prio
      {
        var prio := taskList[i].prio;
        if READY == taskList[i].state {
          if prio < highestPrio {
            highestPrio := prio;
            highestPrioTask := i;
          }
        }
      }
    }

    /** The scan of next_ready_task; with no task at all it would read past the task list. */
    method ScanForReady() returns (tid: nat)
      requires Valid() && nTasks > 0
      ensures tid == NextReady(k.tasks, lastRunningTask)
    {
      hide Valid;
      TaskFacts(0);
      ghost var start := ScanStart(nTasks, lastRunningTask);
      var index := 0;
      if NO_TID != lastRunningTask {
        index := lastRunningTask + 1;
        if index >= nTasks {
          index := 0;
        }
      }
      var nChecked := 0;
      while nChecked != nTasks
        invariant nChecked <= nTasks
        invariant index == Cyclic(start, if nChecked == nTasks then 0 else nChecked, nTasks)
        invariant NextReady(k.tasks, lastRunningTask) == ScanFrom(k.tasks, start, nChecked)
        decreases nTasks - nChecked
      {
        TaskFacts(index);
        if READY == taskList[index].state {
          return index;
        }
        index := index + 1;
        if index == nTasks {
          index := 0;
        }
        nChecked := nChecked + 1;
      }
      return NO_TID;
    }

    /** next_ready_task. */
    method NextReadyTask() returns (tid: nat)
      requires Valid() && nTasks > 0
      modifies `k, `lastRunningTask
      ensures Valid() && tid == NextReady(old(k).tasks, old(k).lastRunningTask)
      ensures k == old(k).(lastRunningTask := tid)
    {
      tid := ScanForReady();
      lastRunningTask := tid;
      k := k.(lastRunningTask := tid);
    }

    /** The store to running_tid. */
    method SetRunning(tid: nat)
      requires Valid() && (tid == NO_TID || tid < nTasks)
      modifies `k, `runningTid
      ensures Valid() && k == old(k).(runningTid := tid) && runningTid == tid
    {
      hide TasksMatch, QueuesMatch;
      TasksNumbered();
      runningTid := tid;
      k := k.(runningTid := tid);
    }

    lemma TasksNumbered()
      requires Valid()
      ensures Sized(k) && |k.tasks| == nTasks < NO_TID && cfg == k.cfg && runningTid == k.runningTid
      ensures lastRunningTask == k.lastRunningTask
    {
    }

    /** The choice os_schedule makes before it runs the task. */
    method SelectTask()
      requires Valid() && (cfg.roundRobin ==> nTasks > 0)
      modifies `k, `lastRunningTask, `runningTid
      ensures Valid() && k == Dispatched(old(k))
    {
      hide Valid;
      TasksNumbered();
      var tid: nat;
      if cfg.roundRobin {
        tid := NextReadyTask();
      } else {
        tid := HighestPrioReadyTask();
      }
      SetRunning(tid);
    }

    // ----- Leaving the processor ---------------------------------------------------------

    /** OS_YIELD. */
    method YieldAt(at: ResumePoint)
      requires Valid() && runningTid != NO_TID
      modifies taskList, `k, `runningTid
      ensures Valid() && k == On(old(k), old(k).runningTid, [Yield(at)]).(runningTid := NO_TID)
    {
      RunningFacts();
      DoAllOne(k.tasks[runningTid], Yield(at));
      hide Valid;
      TaskFacts(runningTid);
      Store(runningTid, taskList[runningTid].(resume := at));
      SetRunning(NO_TID);
    }

    lemma RunningFacts()
      requires Valid() && runningTid != NO_TID
      ensures runningTid == k.runningTid < nTasks == |k.tasks| && Sized(k)
    {
    }

    // ----- os_event.c --------------------------------------------------------------------

    /** os_wait_event for a single event. */
    method WaitEvent(tid: nat, e: nat, timeout: uint32)
      requires Valid() && tid < nTasks
      modifies taskList, eventList, `k
      ensures Valid() && k == On(Forget(old(k), e), tid, WaitActions(old(k), e, timeout))
    {
      DoAllOne(k.tasks[tid], TaskSpec.WaitEvent(e, timeout));
      if e < nEvents {
        eventList[e] := NO_TID;
        k := k.(signaledBy := k.signaledBy[e := NO_TID]);
        TaskWaitEvent(tid, e, true, timeout);
      }
    }

    /** OS_WAIT_SINGLE_EVENT. */
    method WaitSingleEvent(e: nat, timeout: uint32)
      requires Valid() && runningTid != NO_TID
      modifies taskList, eventList, `k, `runningTid
      ensures Valid() && k == OwnAndYield(Forget(old(k), e), WaitActions(old(k), e, timeout), After)
    {
      hide Valid;
      RunningFacts();
      DoAllConcat(k.tasks[runningTid], WaitActions(k, e, timeout), [Yield(After)]);
      WaitEvent(runningTid, e, timeout);
      YieldAt(After);
    }

    /** The scan with which os_wait_multiple checks that NO_EVENT ends its arguments. */
    method CheckTerminated(args: seq<nat>) returns (ok: bool)
      requires |args| > Terminator(args) || |args| >= cfg.nTotalEvents + 2
      ensures ok <==> Terminator(args) < |args| && Terminator(args) <= cfg.nTotalEvents + 1
    {
      var event := args[1];
      var count := 1;
      TerminatorIsFirst(args);
      while event != NO_EVENT && count <= cfg.nTotalEvents
        invariant 1 <= count <= cfg.nTotalEvents + 1 && count < |args| && event == args[count]
        invariant forall i | 1 <= i < count :: args[i] != NO_EVENT
        decreases cfg.nTotalEvents + 1 - count
      {
        count := count + 1;
        event := args[count];
      }
      ok := event == NO_EVENT;
    }

    /** os_wait_multiple: args are the variable arguments, events up to the first NO_EVENT. */
    method WaitMultiple(waitForAll: bool, args: seq<nat>) returns (ok: bool)
      requires Valid() && runningTid != NO_TID
      requires |args| > Terminator(args) || |args| >= cfg.nTotalEvents + 2
      requires forall i | 0 <= i < Terminator(args) && i < |args| :: args[i] < cfg.nTotalEvents
      modifies taskList, `k
      ensures Valid()
      ensures ok <==> Terminator(args) < |args| && Terminator(args) <= cfg.nTotalEvents + 1
      ensures k == if ok then On(old(k), runningTid, [TaskSpec.WaitMultiple(waitForAll, args[..Terminator(args)])]) else old(k)
    {
      hide Valid, Do, WaitOn, ClearWaits, SameShape;
      ok := CheckTerminated(args);
      if !ok {
        return;
      }
      RunningFacts();
      TerminatorIsFirst(args);
      ghost var was, t, n := k, k.tasks[runningTid], Terminator(args);
      ClearWaitQueue(runningTid);
      var event := args[0];
      TaskWaitEvent(runningTid, event, !waitForAll, 0);
      WaitingStarts(t, waitForAll, args);
      var i := 1;
      event := args[1];
      while event != NO_EVENT
        invariant Valid() && 1 <= i <= n && event == args[i] && runningTid == was.runningTid < nTasks == |was.tasks|
        invariant k == was.(tasks := was.tasks[runningTid := Do(t, TaskSpec.WaitMultiple(waitForAll, args[..i]))])
        decreases n - i
      {
        TaskWaitEvent(runningTid, event, !waitForAll, 0);
        WaitingGrows(t, waitForAll, args, i);
        i := i + 1;
        event := args[i];
      }
      DoAllOne(t, TaskSpec.WaitMultiple(waitForAll, args[..n]));
    }

    // ----- The other macros of a task ----------------------------------------------------

    /** OS_WAIT_TICKS. */
    method WaitTicks(ticks: uint32, id: uint8)
      requires Valid() && runningTid != NO_TID && ticks > 0
      modifies taskList, `k, `runningTid
      ensures Valid() && k == OwnAndYield(old(k), [WaitTime(id, ticks)], After)
    {
      hide Valid;
      RunningFacts();
      DoAllConcat(k.tasks[runningTid], [WaitTime(id, ticks)], [Yield(After)]);
      WaitTimeSet(runningTid, id, ticks);
      YieldAt(After);
    }

    /** OS_SIGNAL_EVENT. */
    method SignalEventAndYield(e: nat)
      requires Valid() && runningTid != NO_TID && e < cfg.nTotalEvents
      modifies taskList, eventList, `k, `lastSignaledEvent, `runningTid
      ensures Valid() && k == YieldTask(SignalFrom(old(k), e, old(k).runningTid))
    {
      hide Valid;
      RunningFacts();
      SignalEvent(e, runningTid);
      YieldAt(After);
    }

    /** OS_WAIT_MULTIPLE_EVENTS: the macro ends the arguments with NO_EVENT. */
    method WaitMultipleEvents(waitForAll: bool, es: seq<nat>)
      requires Valid() && runningTid != NO_TID
      requires 0 < |es| <= cfg.nTotalEvents + 1 && forall e | e in es :: e < cfg.nTotalEvents
      modifies taskList, `k, `runningTid
      ensures Valid() && k == OwnAndYield(old(k), [TaskSpec.WaitMultiple(waitForAll, es)], After)
    {
      RunningFacts();
      hide Valid;
      TerminatorAtEnd(es, 1);
      assert (es + [NO_EVENT])[..|es|] == es && forall i | 0 <= i < |es| :: es[i] in es;
      DoAllConcat(k.tasks[runningTid], [TaskSpec.WaitMultiple(waitForAll, es)], [Yield(After)]);
      var ok := WaitMultiple(waitForAll, es + [NO_EVENT]);
      YieldAt(After);
    }

    /** OS_SUSPEND_TASK: a task that suspends itself leaves the processor. */
    method SuspendAndYield(tid: nat)
      requires Valid() && tid < nTasks
      modifies taskList, `k, `runningTid
      ensures Valid()
      ensures k == if tid == old(k).runningTid then YieldTask(On(old(k), tid, [Suspend])) else On(old(k), tid, [Suspend])
    {
      hide Valid;
      TaskFacts(tid);
      SuspendTask(tid);
      TasksNumbered();
      if tid == runningTid {
        YieldAt(After);
      }
    }

    /** OS_RESUME_TASK. */
    method ResumeAndYield(tid: nat)
      requires Valid() && tid < nTasks
      modifies taskList, `k, `runningTid
      ensures Valid()
      ensures k == if tid == old(k).runningTid then YieldTask(On(old(k), tid, [Resume])) else On(old(k), tid, [Resume])
    {
      hide Valid;
      TaskFacts(tid);
      ResumeTask(tid);
      TasksNumbered();
      if tid == runningTid {
        YieldAt(After);
      }
    }

    /** OS_END: the end of a task procedure kills the task. */
    method CloseTask()
      requires Valid() && runningTid != NO_TID
      modifies taskList, `k, `runningTid
      ensures Valid() && k == On(old(k), old(k).runningTid, [Kill]).(runningTid := NO_TID)
    {
      RunningFacts();
      hide Valid;
      KillTask(runningTid);
      SetRunning(NO_TID);
    }

    // ----- Semaphores --------------------------------------------------------------------

    /** os_task_waiting_this_semaphore. */
    method WaitingThisSemaphore(sem: nat) returns (result: bool)
      requires Valid()
      ensures result <==> Waiting(k.tasks, sem)
    {
      for tid := 0 to nTasks
        invariant forall j | 0 <= j < tid :: !Wants(WaitingFor(sem), k.tasks[j])
      {
        if taskList[tid].state == WAITING_SEM && taskList[tid].semaphore == sem {
          assert Wants(WaitingFor(sem), k.tasks[tid]);
          return true;
        }
      }
      return false;
    }

    /** The scan of os_task_release_waiting_task by priority. */
    method FindBestWaiter(sem: nat) returns (foundTask: nat)
      requires Valid()
      ensures foundTask == BestPrio(k.tasks, WaitingFor(sem), |k.tasks|)
    {
      foundTask := NO_TID;
      var highestPrio: nat := 255;
      for tid := 0 to nTasks
        invariant foundTask == BestPrio(k.tasks, WaitingFor(sem), tid)
        invariant highestPrio == if foundTask == NO_TID then 255 else k.tasks[foundTask].prio
      {
        if taskList[tid].state == WAITING_SEM && taskList[tid].semaphore == sem {
          if taskList[tid].prio < highestPrio {
            highestPrio := taskList[tid].prio;
            foundTask := tid;
          }
        }
      }
    }

    /** The scan of os_task_release_waiting_task under ROUND_ROBIN. */
    method FindLongestWaiter(sem: nat) returns (foundTask: nat)
      requires Valid()
      ensures foundTask == var b := Longest(k.tasks, sem, |k.tasks|);
                           if b == NO_TID then LastWaiting(k.tasks, sem, |k.tasks|) else b
    {
      foundTask := NO_TID;
      var longestWaitTime: nat := 0;
      var lastCheckedTask := NO_TID;
      for tid := 0 to nTasks
        invariant foundTask == Longest(k.tasks, sem, tid) && lastCheckedTask == LastWaiting(k.tasks, sem, tid)
        invariant longestWaitTime == if foundTask == NO_TID then 0 else k.tasks[foundTask].time
        invariant longestWaitTime == 0 <==> foundTask == NO_TID
      {
        if taskList[tid].state == WAITING_SEM && taskList[tid].semaphore == sem {
          lastCheckedTask := tid;
          if taskList[tid].time > longestWaitTime {
            longestWaitTime := taskList[tid].time;
            foundTask := tid;
          }
        }
      }
      if longestWaitTime == 0 && lastCheckedTask != NO_TID {
        foundTask := lastCheckedTask;
      }
    }

    /** os_task_release_waiting_task. */
    method ReleaseWaitingTask(sem: nat)
      requires Valid()
      modifies taskList, `k
      ensures Valid() && k == Release(old(k), sem)
    {
      var foundTask: nat;
      if cfg.roundRobin {
        foundTask := FindLongestWaiter(sem);
        LongestMeaning(k.tasks, sem, |k.tasks|);
        LastWaitingMeaning(k.tasks, sem, |k.tasks|);
      } else {
        foundTask := FindBestWaiter(sem);
        BestPrioMeaning(k.tasks, WaitingFor(sem), |k.tasks|);
      }
      if foundTask != NO_TID {
        DoAllOne(k.tasks[foundTask], Grant);
        ReadySet(foundTask);
      }
    }

    /** os_sem_increment. */
    method SemIncrement(s: nat)
      requires Valid() && s < nSemaphores
      modifies semList, `k
      ensures Valid() && k == old(k).(sems := old(k).sems[s := Increment(old(k).sems[s])])
    {
      if semList[s].value < semList[s].maxValue {
        semList[s] := semList[s].(value := semList[s].value + 1);
      }
      k := k.(sems := k.sems[s := Increment(k.sems[s])]);
    }

    /** os_sem_decrement. */
    method SemDecrement(s: nat)
      requires Valid() && s < nSemaphores && k.sems[s].value > 0
      modifies semList, `k
      ensures Valid() && k == old(k).(sems := old(k).sems[s := old(k).sems[s].(value := old(k).sems[s].value - 1)])
    {
      if semList[s].value > 0 {
        semList[s] := semList[s].(value := semList[s].value - 1);
      }
      k := k.(sems := k.sems[s := k.sems[s].(value := k.sems[s].value - 1)]);
    }

    /** OS_SIGNAL_SEM_NO_SCHEDULE. */
    method SignalSemNoSchedule(s: nat) returns (handedOff: bool)
      requires Valid() && s < nSemaphores
      modifies taskList, semList, `k
      ensures Valid() && k == Give(old(k), s) && handedOff == Waiting(old(k).tasks, s)
    {
      handedOff := WaitingThisSemaphore(s);
      if !handedOff {
        SemIncrement(s);
      } else {
        ReleaseWaitingTask(s);
      }
    }

    /** OS_SIGNAL_SEM. */
    method SignalSem(s: nat)
      requires Valid() && s < nSemaphores && runningTid != NO_TID
      modifies taskList, semList, `k, `runningTid
      ensures Valid()
      ensures k == if Waiting(old(k).tasks, s) then YieldTask(Give(old(k), s)) else Give(old(k), s)
    {
      hide Valid;
      RunningFacts();
      var handedOff := SignalSemNoSchedule(s);
      if handedOff {
        YieldAt(After);
      }
    }

    /** OS_WAIT_SEM. */
    method WaitSem(s: nat)
      requires Valid() && s < nSemaphores && runningTid != NO_TID
      modifies taskList, semList, `k, `runningTid
      ensures Valid() && k == Take(old(k), s)
    {
      RunningFacts();
      if semList[s].value > 0 {
        SemDecrement(s);
      } else {
        DoAllConcat(k.tasks[runningTid], [TaskSpec.WaitSem(s)], [Yield(AfterSem(s))]);
        DoAllOne(k.tasks[runningTid], TaskSpec.WaitSem(s));
        Store(runningTid, taskList[runningTid].(time := 0, state := WAITING_SEM, semaphore := s));
        YieldAt(AfterSem(s));
      }
    }

    // ----- Set-up ------------------------------------------------------------------------

    /** event_create. */
    method EventCreate() returns (e: nat)
      requires Valid() && nEvents < cfg.nTotalEvents
      modifies eventList, `k, `nEvents
      ensures Valid() && e == old(nEvents) && k == AddEvent(old(k))
    {
      e := nEvents;
      eventList[nEvents] := NO_TID;
      nEvents := nEvents + 1;
      k := AddEvent(k);
    }

    /** os_sem_create. */
    method SemCreate(max: uint8, initial: uint8) returns (s: nat)
      requires Valid() && nSemaphores < cfg.nTotalSemaphores
      modifies semList, `k, `nSemaphores
      ensures Valid() && s == old(nSemaphores) && k == old(k).(sems := old(k).sems + [Sem(max, initial)])
    {
      s := nSemaphores;
      semList[nSemaphores] := Sem(max, initial);
      nSemaphores := nSemaphores + 1;
      k := k.(sems := k.sems + [Sem(max, initial)]);
    }

    /** Whether another task already has this prio, as os_task_create checks. */
    method PrioTaken(prio: uint8) returns (taken: bool)
      requires Valid()
      ensures taken <==> exists i | 0 <= i < |k.tasks| :: k.tasks[i].prio == prio
    {
      var taskId: nat := nTasks;
      while taskId != 0
        invariant taskId <= nTasks
        invariant forall i | taskId <= i < nTasks :: k.tasks[i].prio != prio
      {
        taskId := taskId - 1;
        if taskList[taskId].prio == prio {
          assert k.tasks[taskId].prio == prio;
          return true;
        }
      }
      return false;
    }

    /** The next entry of msgQList. */
    method AppendQueue(mq: MsgQueue)
      requires Valid() && |msgQList| + 1 < NO_QUEUE && mq.Valid() && mq.change < nEvents
      requires forall i | 0 <= i < |msgQList| :: msgQList[i] != mq && msgQList[i].list != mq.list
      modifies `k, `msgQList
      ensures Valid() && msgQList == old(msgQList) + [mq]
      ensures k == old(k).(queues := old(k).queues + [mq.View()])
    {
      hide TasksMatch;
      msgQList := msgQList + [mq];
      k := k.(queues := k.queues + [mq.View()]);
    }

    /** os_msgQ_create. */
    method MsgQCreate(buffer: array<uint8>, nMessages: uint8, msgSize: nat, taskId: nat) returns (q: nat)
      requires Valid() && |msgQList| < cfg.nQueues < NO_QUEUE && nEvents < cfg.nTotalEvents
      requires nMessages >= 2 && msgSize >= MB.HEADER_SIZE && buffer.Length == nMessages * msgSize
      requires forall i | 0 <= i < |msgQList| :: msgQList[i].list != buffer
      modifies eventList, `k, `nEvents, `msgQList
      ensures Valid() && q == old(|msgQList|) && |msgQList| == q + 1 && msgQList[..q] == old(msgQList)
      ensures k == AddEvent(old(k)).(queues := old(k).queues + [Q.Queue([], nMessages - 1, taskId, old(nEvents))])
    {
      hide TasksMatch, TablesMatch;
      q := |msgQList|;
      var change := EventCreate();
      var mq := new MsgQueue(buffer, nMessages, msgSize, taskId, change);
      AppendQueue(mq);
    }

    /** A zeroed event wait set. */
    method NoEvents() returns (list: seq<bv8>)
      ensures |list| == EventQueueSize(cfg.nTotalEvents) && EventsOf(list) == {}
    {
      list := seq(EventQueueSize(cfg.nTotalEvents), _ => 0);
      AllZeroIsEmpty(list);
    }

    /** The control block os_task_create fills in. */
    method AppendTask(prio: uint8, msgQ: nat)
      requires Valid() && nTasks < cfg.nTasks && (msgQ == NO_QUEUE || msgQ < |msgQList|)
      modifies taskList, `k, `nTasks
      ensures Valid() && k == old(k).(tasks := old(k).tasks + [NewTask(prio, msgQ)])
    {
      var list := NoEvents();
      taskList[nTasks] := Tcb(READY, READY, Top, 0, prio, 0, msgQ, 0, UNDEF, false, 255, list);
      nTasks := nTasks + 1;
      k := k.(tasks := k.tasks + [NewTask(prio, msgQ)]);
    }

    /** os_task_create: nothing happens when one of its assertions fails. */
    method TaskCreate(prio: uint8, msgPool: array<uint8>, poolSize: uint8, msgSize: nat) returns (tid: Option<nat>)
      requires Valid() && poolSize != 1
      requires poolSize > 0 ==>
                 && |msgQList| < cfg.nQueues < NO_QUEUE && nEvents < cfg.nTotalEvents
                 && msgSize >= MB.HEADER_SIZE && msgPool.Length == poolSize * msgSize
                 && forall i | 0 <= i < |msgQList| :: msgQList[i].list != msgPool
      modifies taskList, eventList, `k, `nTasks, `nEvents, `msgQList
      ensures Valid()
      ensures tid == None <==>
              running || old(nTasks) == cfg.nTasks || exists i | 0 <= i < old(nTasks) :: old(k).tasks[i].prio == prio
      ensures tid == None ==> k == old(k)
      ensures tid.Some? ==> tid.value == old(nTasks) && k == AddTask(old(k), prio, poolSize)
    {
      if running || !(nTasks < cfg.nTasks) {
        return None;
      }
      var taken := PrioTaken(prio);
      if taken {
        return None;
      }
      var msgQ := NO_QUEUE;
      if poolSize > 0 {
        msgQ := MsgQCreate(msgPool, poolSize, msgSize, nTasks);
      }
      AppendTask(prio, msgQ);
      return Some(nTasks - 1);
    }

    /** Power-up and os_init, for a configuration whose event bits fit. */
    constructor (config: Config)
      requires ConfigOk(config) && SizeFits(config.nTotalEvents)
      ensures Valid() && k == Boot(config) && cfg == config
      ensures fresh(taskList) && fresh(eventList) && fresh(semList) && msgQList == []
    {
      cfg := config;
      var blank := seq(EventQueueSize(config.nTotalEvents), _ => 0xff);
      taskList := new TaskBlock[config.nTasks](_ =>
        Tcb(SUSPENDED, SUSPENDED, Top, 0, 0, 255, 0, 0, UNDEF, false, 255, blank));
      nTasks, lastRunningTask := 0, 0;
      eventList := new nat[config.nTotalEvents](_ => 0);
      nEvents, lastSignaledEvent := 0, NO_EVENT;
      semList := new Sem[config.nTotalSemaphores](_ => Sem(0, 0));
      nSemaphores := 0;
      msgQList := [];
      running, runningTid := false, NO_TID;
      k := Boot(config);
    }

    // ----- Message queues: OS_MSG_Q_POST and OS_MSG_Q_RECEIVE ----------------------------

    /** os_msgQ_find. */
    method MsgQFind(owner: nat) returns (queue: nat)
      requires Valid()
      ensures queue == Find(k, owner)
    {
      queue := 0;
      while queue < |msgQList|
        invariant queue <= |msgQList| && Find(k, owner) == FindFrom(k.queues, owner, queue)
      {
        if msgQList[queue].taskId == owner {
          return queue;
        }
        queue := queue + 1;
      }
      return NO_QUEUE;
    }

    /** The caller's message memory: as long as the queue's messages and none of its buffers. */
    ghost predicate Fits(msg: array<uint8>, owner: nat)
      reads `k, `msgQList
    {
      && msg.Length >= MB.HEADER_SIZE
      && (forall i | 0 <= i < |msgQList| :: msgQList[i].list != msg)
      && (Find(k, owner) < |msgQList| ==> msg.Length == msgQList[Find(k, owner)].messageSize)
    }

    /** os_msg_post. */
    method OsMsgPost(msg: array<uint8>, q: nat, delay: uint32, period: uint32) returns (r: QueueResult)
      requires Valid() && q < |msgQList| && msg.Length == msgQList[q].messageSize >= MB.HEADER_SIZE
      requires forall i | 0 <= i < |msgQList| :: msgQList[i].list != msg
      modifies `k, msg, msgQList[q], msgQList[q].list
      ensures Valid() && MB.Decode(msg[..]) == old(MB.Decode(msg[..])).(delay := delay, reload := period)
      ensures k == KernelSpec.Store(old(k), q, Q.Post(MB.Decode(msg[..])))
      ensures r == if Q.Full(old(k).queues[q]) then FULL else POSTED
    {
      r := msgQList[q].Post(msg, delay, period);
      k := KernelSpec.Store(k, q, Q.Post(MB.Decode(msg[..])));
    }

    /** os_msg_receive. */
    method OsMsgReceive(msg: array<uint8>, q: nat) returns (r: QueueResult)
      requires Valid() && q < |msgQList| && msg.Length == msgQList[q].messageSize >= MB.HEADER_SIZE
      requires forall i | 0 <= i < |msgQList| :: msgQList[i].list != msg
      modifies `k, msg, msgQList[q], msgQList[q].list
      ensures Valid() && k == KernelSpec.Store(old(k), q, Q.Receive)
      ensures r == if Q.AllDelayed(old(k).queues[q].msgs) then EMPTY else RECEIVED
      ensures r == EMPTY ==> k == old(k) && msg[..] == old(msg[..])
      ensures r == RECEIVED ==>
                var s := old(k).queues[q].msgs;
                Q.FirstReady(s) < |s| && MB.Decode(msg[..]) == Q.Delivered(s[Q.FirstReady(s)])
    {
      ghost var steps;
      r, steps := msgQList[q].Receive(msg);
      k := KernelSpec.Store(k, q, Q.Receive);
    }

    /** os_task_set_msg_result. */
    method SetMsgResult(tid: nat, result: QueueResult)
      requires Valid() && tid < nTasks
      modifies taskList, `k
      ensures Valid() && k == On(old(k), tid, [NoteResult(result)])
    {
      hide Valid;
      TaskFacts(tid);
      DoAllOne(k.tasks[tid], NoteResult(result));
      Store(tid, taskList[tid].(msgResult := result));
    }

    /** os_task_set_change_event. */
    method SetChangeEvent(tid: nat, event: nat)
      requires Valid() && tid < nTasks
      modifies taskList, `k
      ensures Valid() && k == On(old(k), tid, [NoteEvent(event)])
    {
      hide Valid;
      TaskFacts(tid);
      DoAllOne(k.tasks[tid], NoteEvent(event));
      Store(tid, taskList[tid].(msgChangeEvent := event));
    }

    /** Noting the result, event_wait and OS_YIELD inside the macros. */
    method BlockOn(event: nat, result: QueueResult, at: ResumePoint)
      requires Valid() && runningTid != NO_TID
      modifies taskList, eventList, `k, `runningTid
      ensures Valid() && k == Block(old(k), event, result, at)
    {
      hide Valid, On, Forget, Block, WaitActions;
      RunningFacts();
      BlockInSteps(k, event, result, at);
      SetMsgResult(runningTid, result);
      WaitEvent(runningTid, event, 0);
      RunningFacts();
      YieldAt(at);
    }

    lemma FitsFacts(msg: array<uint8>, owner: nat)
      requires Valid() && Fits(msg, owner)
      ensures Sized(k) && |k.queues| == |msgQList|
      ensures Find(k, owner) < |msgQList| ==>
                && msg.Length == msgQList[Find(k, owner)].messageSize
                && ChangeEvent(k, Find(k, owner)) < cfg.nTotalEvents
    {
    }

    /** One pass of the retry loop of OS_MSG_Q_POST, and what follows it. */
    method TryPost(event: nat, dest: nat, msg: array<uint8>, delay: uint32, period: uint32, async: bool)
      requires Valid() && runningTid != NO_TID && Fits(msg, dest)
      requires Find(k, dest) < |k.queues| ==> event < cfg.nTotalEvents
      modifies taskList, eventList, `k, `runningTid, `lastSignaledEvent, msg
      modifies msgQList, set q | q in msgQList :: q.list
      ensures Valid() && k == KernelSpec.TryPost(old(k), event, dest, old(MB.Decode(msg[..])), delay, period, async)
      ensures MB.Decode(msg[..]) ==
              if Find(old(k), dest) < |old(k).queues| then old(MB.Decode(msg[..])).(delay := delay, reload := period)
              else old(MB.Decode(msg[..]))
    {
      hide Valid, SameShape;
      FitsFacts(msg, dest);
      RunningFacts();
      var posted := UNDEF;
      var queue := MsgQFind(dest);
      if queue < |msgQList| {
        posted := OsMsgPost(msg, queue, delay, period);
      }
      if posted == FULL {
        if !async {
          BlockOn(event, FULL, InPost(dest, MB.Decode(msg[..]), delay, period));
        }
      } else if posted == POSTED {
        SignalEvent(event, runningTid);
      }
    }

    /** One pass of the retry loop of OS_MSG_Q_RECEIVE, and what follows it. */
    method TryReceive(event: nat, owner: nat, msg: array<uint8>, async: bool)
      requires Valid() && runningTid != NO_TID && Fits(msg, owner)
      requires Find(k, owner) < |k.queues| ==> event < cfg.nTotalEvents
      modifies taskList, eventList, `k, `runningTid, `lastSignaledEvent, msg
      modifies msgQList, set q | q in msgQList :: q.list
      ensures Valid() && k == KernelSpec.TryReceive(old(k), event, owner, async)
      ensures var q := Find(old(k), owner);
              q < |old(k).queues| && !Q.AllDelayed(old(k).queues[q].msgs) ==>
                var s := old(k).queues[q].msgs;
                Q.FirstReady(s) < |s| && MB.Decode(msg[..]) == Q.Delivered(s[Q.FirstReady(s)])
      ensures var q := Find(old(k), owner);
              q >= |old(k).queues| || Q.AllDelayed(old(k).queues[q].msgs) ==>
                msg[..] == if q < |old(k).queues| && async then old(msg[..])[0 := NO_MSG_ID] else old(msg[..])
    {
      hide Valid, SameShape;
      FitsFacts(msg, owner);
      RunningFacts();
      var received := UNDEF;
      var queue := MsgQFind(owner);
      if queue < |msgQList| {
        received := OsMsgReceive(msg, queue);
      }
      if received == EMPTY {
        if !async {
          BlockOn(event, EMPTY, InReceive(owner));
        } else {
          msg[0] := NO_MSG_ID;
        }
      } else if received == RECEIVED {
        SignalEvent(event, runningTid);
      }
    }

    /** os_msgQ_event_get. */
    method MsgQEventGet(queue: nat) returns (e: nat)
      requires Valid()
      ensures e == ChangeEvent(k, queue)
    {
      if queue >= |msgQList| {
        return NO_EVENT;
      }
      return msgQList[queue].change;
    }

    /** OS_MSG_Q_POST. */
    method MsgPost(dest: nat, msg: array<uint8>, delay: uint32, period: uint32, async: bool)
      requires Valid() && runningTid != NO_TID && Fits(msg, dest)
      modifies taskList, eventList, `k, `runningTid, `lastSignaledEvent, msg
      modifies msgQList, set q | q in msgQList :: q.list
      ensures Valid()
      ensures k == KernelSpec.TryPost(Noted(old(k), dest), ChangeEvent(old(k), Find(old(k), dest)), dest,
                                      old(MB.Decode(msg[..])), delay, period, async)
      ensures MB.Decode(msg[..]) ==
              if Find(old(k), dest) < |old(k).queues| then old(MB.Decode(msg[..])).(delay := delay, reload := period)
              else old(MB.Decode(msg[..]))
    {
      hide Valid, SameShape, KernelSpec.TryPost;
      FitsFacts(msg, dest);
      RunningFacts();
      var queue := MsgQFind(dest);
      var event := MsgQEventGet(queue);
      FindAfterNote(k, dest, dest);
      SetChangeEvent(runningTid, event);
      TryPost(event, dest, msg, delay, period, async);
    }

    /** OS_MSG_Q_RECEIVE. */
    method MsgReceive(owner: nat, msg: array<uint8>, async: bool)
      requires Valid() && runningTid != NO_TID && Fits(msg, owner)
      modifies taskList, eventList, `k, `runningTid, `lastSignaledEvent, msg
      modifies msgQList, set q | q in msgQList :: q.list
      ensures Valid()
      ensures k == KernelSpec.TryReceive(Noted(old(k), owner), ChangeEvent(old(k), Find(old(k), owner)), owner, async)
      ensures var q := Find(old(k), owner);
              q < |old(k).queues| && !Q.AllDelayed(old(k).queues[q].msgs) ==>
                var s := old(k).queues[q].msgs;
                Q.FirstReady(s) < |s| && MB.Decode(msg[..]) == Q.Delivered(s[Q.FirstReady(s)])
      ensures var q := Find(old(k), owner);
              q >= |old(k).queues| || Q.AllDelayed(old(k).queues[q].msgs) ==>
                msg[..] == if q < |old(k).queues| && async then old(msg[..])[0 := NO_MSG_ID] else old(msg[..])
    {
      hide Valid, SameShape, KernelSpec.TryReceive;
      FitsFacts(msg, owner);
      RunningFacts();
      var queue := MsgQFind(owner);
      var event := MsgQEventGet(queue);
      FindAfterNote(k, owner, owner);
      SetChangeEvent(runningTid, event);
      TryReceive(event, owner, msg, async);
    }

    /** The retry of a dispatched task that stopped inside OS_MSG_Q_POST; its message memory
        still holds what it tried to post. */
    method ContinuePost(msg: array<uint8>)
      requires Valid() && runningTid != NO_TID
      requires var t := k.tasks[runningTid];
               && t.resume.InPost? && Fits(msg, t.resume.dest) && MB.Decode(msg[..]) == t.resume.msg
               && t.msgChangeEvent < cfg.nTotalEvents
      modifies taskList, eventList, `k, `runningTid, `lastSignaledEvent, msg
      modifies msgQList, set q | q in msgQList :: q.list
      ensures Valid() && k == Continue(old(k))
    {
      hide Valid, SameShape, KernelSpec.TryPost;
      RunningFacts();
      TaskFacts(runningTid);
      var task := taskList[runningTid];
      if task.msgResult == FULL {
        TryPost(task.msgChangeEvent, task.resume.dest, msg, task.resume.delay, task.resume.period, false);
      } else if task.msgResult == POSTED {
        SignalEvent(task.msgChangeEvent, runningTid);
      }
    }

    /** The retry of a dispatched task that stopped inside OS_MSG_Q_RECEIVE. */
    method ContinueReceive(msg: array<uint8>)
      requires Valid() && runningTid != NO_TID
      requires var t := k.tasks[runningTid];
               t.resume.InReceive? && Fits(msg, t.resume.owner) && t.msgChangeEvent < cfg.nTotalEvents
      modifies taskList, eventList, `k, `runningTid, `lastSignaledEvent, msg
      modifies msgQList, set q | q in msgQList :: q.list
      ensures Valid() && k == Continue(old(k))
    {
      hide Valid, SameShape, KernelSpec.TryReceive;
      RunningFacts();
      TaskFacts(runningTid);
      var task := taskList[runningTid];
      if task.msgResult == EMPTY {
        TryReceive(task.msgChangeEvent, task.resume.owner, msg, false);
      } else if task.msgResult == RECEIVED {
        SignalEvent(task.msgChangeEvent, runningTid);
      }
    }
  }

  /** The parts of Block in the order the macros perform them. */
  lemma BlockInSteps(k: Kernel, event: nat, result: QueueResult, at: ResumePoint)
    requires Sized(k) && k.runningTid != NO_TID
    ensures var tid := k.runningTid;
            var noted := On(k, tid, [NoteResult(result)]);
            var waiting := On(Forget(noted, event), tid, WaitActions(noted, event, 0));
            Block(k, event, result, at) == On(waiting, tid, [Yield(at)]).(runningTid := NO_TID)
  {
    var t := k.tasks[k.runningTid];
    DoAllConcat(t, [NoteResult(result)], WaitActions(k, event, 0));
    DoAllConcat(t, [NoteResult(result)] + WaitActions(k, event, 0), [Yield(at)]);
  }

  /** Where the argument list of os_wait_multiple ends: its first NO_EVENT after the first argument. */
  function Terminator(args: seq<nat>): (n: nat) {
    TerminatorFrom(args, 1)
  }

  function TerminatorFrom(args: seq<nat>, i: nat): (n: nat)
    ensures n >= i
    decreases |args| - i
  {
    if i >= |args| || args[i] == NO_EVENT then i else TerminatorFrom(args, i + 1)
  }

  lemma {:induction false} TerminatorFromIsFirst(args: seq<nat>, i: nat)
    ensures var n := TerminatorFrom(args, i);
            && (forall j | i <= j < n && j < |args| :: args[j] != NO_EVENT)
            && (n < |args| ==> args[n] == NO_EVENT)
    decreases |args| - i
  {
    if i < |args| && args[i] != NO_EVENT {
      TerminatorFromIsFirst(args, i + 1);
    }
  }

  lemma {:induction false} TerminatorAtEnd(es: seq<nat>, i: nat)
    requires i <= |es| && forall e | e in es :: e != NO_EVENT
    ensures TerminatorFrom(es + [NO_EVENT], i) == |es|
    decreases |es| - i
  {
    if i < |es| {
      assert (es + [NO_EVENT])[i] == es[i] && es[i] in es;
      TerminatorAtEnd(es, i + 1);
    }
  }

  lemma TerminatorIsFirst(args: seq<nat>)
    ensures forall j | 1 <= j < Terminator(args) && j < |args| :: args[j] != NO_EVENT
    ensures Terminator(args) < |args| ==> args[Terminator(args)] == NO_EVENT
  {
    TerminatorFromIsFirst(args, 1);
  }

  /** Waiting for several events is waiting for them one after the other. */
  lemma WaitingStarts(t: Task, all: bool, args: seq<nat>)
    requires args != []
    ensures WaitOn(ClearWaits(t), args[0], !all, 0) == Do(t, WaitMultiple(all, args[..1]))
  {
    assert {} + {args[0]} == {args[0]} == SetOf(args[..1]);
  }

  lemma WaitingGrows(t: Task, all: bool, args: seq<nat>, i: nat)
    requires i < |args|
    ensures WaitOn(Do(t, WaitMultiple(all, args[..i])), args[i], !all, 0) == Do(t, WaitMultiple(all, args[..i + 1]))
  {
    assert SetOf(args[..i + 1]) == SetOf(args[..i]) + {args[i]};
  }

  lemma ClearingForgets(t: Task, e: nat)
    ensures ClearWaits(t.(waits := t.waits - {e})) == ClearWaits(t)
  {
  }

  lemma Overwrite<T>(s: seq<T>, i: nat, a: T, b: T)
    requires i < |s|
    ensures s[i := a][i := b] == s[i := b]
  {
  }

  /** The kernel with other messages in queue q. */
  function WithMsgs(m: Kernel, q: nat, s: seq<Msg>): Kernel
    requires q < |m.queues|
  {
    m.(queues := m.queues[q := m.queues[q].(msgs := s)])
  }

  /** The first n messages counted down, and whether one of them has just expired. */
  function TickedTo(s: seq<Msg>, n: nat): (r: seq<Msg>)
    requires n <= |s|
    ensures |r| == |s|
  {
    Q.TickMsgs(s[..n]) + s[n..]
  }

  predicate FiredTo(s: seq<Msg>, n: nat)
    requires n <= |s|
  {
    Q.Fires(s[..n])
  }

  lemma TickedToNext(s: seq<Msg>, n: nat)
    requires n < |s|
    ensures TickedTo(s, n)[n] == s[n]
    ensures TickedTo(s, n + 1) == TickedTo(s, n)[n := Q.TickMsg(s[n])]
    ensures FiredTo(s, n + 1) <==> FiredTo(s, n) || s[n].delay == 1
  {
    if FiredTo(s, n) {
      var i :| 0 <= i < n && s[..n][i].delay == 1;
      assert s[..n + 1][i].delay == 1;
    }
    if s[n].delay == 1 {
      assert s[..n + 1][n].delay == 1;
    }
    if FiredTo(s, n + 1) && s[n].delay != 1 {
      var i :| 0 <= i < n + 1 && s[..n + 1][i].delay == 1;
      assert s[..n][i].delay == 1;
    }
  }

  lemma TickedToEnd(s: seq<Msg>)
    ensures TickedTo(s, |s|) == Q.TickMsgs(s)
    ensures FiredTo(s, |s|) <==> Q.Fires(s)
    ensures TickedTo(s, 0) == s && !FiredTo(s, 0)
  {
    assert s[..|s|] == s;
  }

  /** The kernel in the middle of counting down queue q: its messages are s so far, and its
      change event has been signalled or not. */
  function Ticking(was: Kernel, q: nat, s: seq<Msg>, fired: bool): (r: Kernel)
    requires Sized(was) && q < |was.queues|
    ensures Sized(r) && SameShape(was, r)
  {
    var m := WithMsgs(was, q, s);
    if fired then SignalFrom(m, was.queues[q].change, ISR_TID) else m
  }

  lemma TickingStart(was: Kernel, q: nat)
    requires Sized(was) && q < |was.queues|
    ensures Ticking(was, q, was.queues[q].msgs, false) == was
    ensures var s := was.queues[q].msgs; Ticking(was, q, Q.TickMsgs(s), Q.Fires(s)) == QueueTick(was, q)
  {
  }

  lemma TickingNext(was: Kernel, q: nat, s: seq<Msg>, t: seq<Msg>, fired: bool)
    requires Sized(was) && q < |was.queues|
    ensures WithMsgs(Ticking(was, q, s, fired), q, t) == Ticking(was, q, t, fired)
  {
  }

  /** Signalling an event twice in a row is signalling it once. */
  lemma SignalTwice(t: Task, e: nat)
    ensures Do(Do(t, Signal(e)), Signal(e)) == Do(t, Signal(e))
  {
  }

  lemma SignalAgain(was: Kernel, q: nat, s: seq<Msg>, fired: bool)
    requires Sized(was) && q < |was.queues|
    ensures SignalFrom(Ticking(was, q, s, fired), was.queues[q].change, ISR_TID) == Ticking(was, q, s, true)
  {
    var e := was.queues[q].change;
    forall i | 0 <= i < |was.tasks|
      ensures Do(Do(was.tasks[i], Signal(e)), Signal(e)) == Do(was.tasks[i], Signal(e))
    {
      SignalTwice(was.tasks[i], e);
    }
    assert SignalTasks(SignalTasks(was.tasks, e), e) == SignalTasks(was.tasks, e);
  }
}
