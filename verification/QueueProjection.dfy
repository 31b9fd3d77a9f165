// What one step of the kernel is for a single queue: at most one queue operation.
module QueueProjection {
  import opened Types
  import opened TaskSpec
  import opened KernelSpec
  import opened Steps
  import opened Projection
  import Q = QueueSpec

  function PostOps(k: Kernel, q: nat, dest: nat, m: Msg, delay: uint32, period: uint32): seq<Q.QueueOp> {
    if q == Find(k, dest) then [Q.Post(Stamped(m, delay, period))] else []
  }

  function ReceiveOps(k: Kernel, q: nat, owner: nat): seq<Q.QueueOp> {
    if q == Find(k, owner) then [Q.Receive] else []
  }

  function ContinueOps(k: Kernel, q: nat): seq<Q.QueueOp>
    requires k.runningTid < |k.tasks|
  {
    var t := k.tasks[k.runningTid];
    match t.resume
    case InPost(dest, m, delay, period) => if t.msgResult == FULL then PostOps(k, q, dest, m, delay, period) else []
    case InReceive(owner) => if t.msgResult == EMPTY then ReceiveOps(k, q, owner) else []
    case _ => []
  }

  /** The operation a step performs on queue q; a post on a full queue and a receive from one
      without an expired message count as attempts that change nothing. */
  function QueueOpsOf(k: Kernel, op: Op, q: nat): seq<Q.QueueOp>
    requires Sized(k) && Legal(k, op)
  {
    match op
    case Tick => [Q.Tick]
    case Dispatch => if Select(k) == NO_TID then [] else ContinueOps(Dispatched(k), q)
    case MsgPost(dest, m, delay, period, _) => PostOps(k, q, dest, m, delay, period)
    case MsgReceive(owner, _) => ReceiveOps(k, q, owner)
    case _ => []
  }

  lemma StepsOne(s: Q.Queue, op: Q.QueueOp)
    ensures Q.Steps(s, [op]) == Q.Step(s, op) && Q.Steps(s, []) == s
  {
    assert [op][1..] == [];
    assert Q.Steps(Q.Step(s, op), []) == Q.Step(s, op);
  }

  lemma TryPostOnQueue(k: Kernel, event: nat, dest: nat, m: Msg, delay: uint32, period: uint32, async: bool, q: nat)
    requires Sized(k) && k.runningTid != NO_TID && (Find(k, dest) < |k.queues| ==> event < |k.signaledBy|)
    requires q < |k.queues|
    ensures TryPost(k, event, dest, m, delay, period, async).queues[q] ==
            Q.Steps(k.queues[q], PostOps(k, q, dest, m, delay, period))
  {
    StepsOne(k.queues[q], Q.Post(Stamped(m, delay, period)));
  }

  lemma DelayedReceive(s: Q.Queue)
    requires Q.AllDelayed(s.msgs)
    ensures Q.Step(s, Q.Receive) == s
  {
    assert Q.FirstReady(s.msgs) == |s.msgs|;
  }

  lemma TryReceiveOnQueue(k: Kernel, event: nat, owner: nat, async: bool, q: nat)
    requires Sized(k) && k.runningTid != NO_TID && (Find(k, owner) < |k.queues| ==> event < |k.signaledBy|)
    requires q < |k.queues|
    ensures TryReceive(k, event, owner, async).queues[q] == Q.Steps(k.queues[q], ReceiveOps(k, q, owner))
  {
    StepsOne(k.queues[q], Q.Receive);
    if Q.AllDelayed(k.queues[q].msgs) {
      DelayedReceive(k.queues[q]);
    }
  }

  lemma FindAfterNote(k: Kernel, owner: nat, other: nat)
    requires Sized(k) && k.runningTid != NO_TID
    ensures Find(Noted(k, owner), other) == Find(k, other)
  {
  }

  lemma ContinueOnQueue(k: Kernel, q: nat)
    requires Sized(k) && k.runningTid != NO_TID && q < |k.queues|
    requires Retrying(k.tasks[k.runningTid]) ==> k.tasks[k.runningTid].msgChangeEvent < |k.signaledBy|
    ensures Continue(k).queues[q] == Q.Steps(k.queues[q], ContinueOps(k, q))
  {
    var t := k.tasks[k.runningTid];
    match t.resume
    case InPost(dest, m, delay, period) =>
      if t.msgResult == FULL {
        TryPostOnQueue(k, t.msgChangeEvent, dest, m, delay, period, false, q);
      }
    case InReceive(owner) =>
      if t.msgResult == EMPTY {
        TryReceiveOnQueue(k, t.msgChangeEvent, owner, false, q);
      }
    case _ =>
  }

  lemma TickOnQueues(k: Kernel, clock: uint8, size: uint32, q: nat)
    requires Sized(k) && Owned(k) && q < |k.queues|
    ensures TaskTick(k, clock, size).queues[q] == if clock == 0 then Q.Step(k.queues[q], Q.Tick) else k.queues[q]
  {
    TickQueues(k, clock, size, |k.tasks|, q);
  }

  lemma QueueCallOnQueue(k: Kernel, op: Op, q: nat)
    requires Sized(k) && EventsKnown(k) && Legal(k, op) && q < |k.queues| && (op.MsgPost? || op.MsgReceive?)
    ensures q < |Step(k, op).queues|
    ensures Step(k, op).queues[q] == Q.Steps(k.queues[q], QueueOpsOf(k, op, q))
  {
    var owner := if op.MsgPost? then op.dest else op.owner;
    var n, event := Noted(k, owner), ChangeEvent(k, Find(k, owner));
    FindAfterNote(k, owner, owner);
    if op.MsgPost? {
      TryPostOnQueue(n, event, owner, op.msg, op.delay, op.period, op.async, q);
    } else {
      TryReceiveOnQueue(n, event, owner, op.async, q);
    }
  }

  lemma DispatchOnQueue(k: Kernel, q: nat)
    requires Sized(k) && EventsKnown(k) && Legal(k, Dispatch) && q < |k.queues|
    ensures q < |Step(k, Dispatch).queues|
    ensures Step(k, Dispatch).queues[q] == Q.Steps(k.queues[q], QueueOpsOf(k, Dispatch, q))
  {
    ReadyIsSelected(k);
    StepsOne(k.queues[q], Q.Tick);
    if Select(k) != NO_TID {
      ContinueOnQueue(Dispatched(k), q);
    }
  }

  /** Calls about tasks, events and semaphores leave every queue alone. */
  lemma OtherCallOnQueue(k: Kernel, op: Op, q: nat)
    requires Sized(k) && EventsKnown(k) && Legal(k, op) && q < |k.queues|
    requires !op.MsgPost? && !op.MsgReceive? && !op.Dispatch? && !op.Tick? && !op.SubTick?
    ensures q < |Step(k, op).queues| && Step(k, op).queues[q] == k.queues[q]
  {
  }

  /** Every step acts on a queue by the operation QueueOpsOf names, and by nothing else. */
  lemma QueueProjects(k: Kernel, op: Op, q: nat)
    requires Sized(k) && Owned(k) && EventsKnown(k) && Legal(k, op) && q < |k.queues|
    ensures q < |Step(k, op).queues|
    ensures Step(k, op).queues[q] == Q.Steps(k.queues[q], QueueOpsOf(k, op, q))
  {
    StepsOne(k.queues[q], Q.Tick);
    if op.Dispatch? {
      DispatchOnQueue(k, q);
    } else if op.MsgPost? || op.MsgReceive? {
      QueueCallOnQueue(k, op, q);
    } else if op.Tick? {
      TickOnQueues(k, 0, 1, q);
    } else if op.SubTick? {
      if op.id != 0 {
        TickOnQueues(k, op.id, op.n, q);
      }
    } else {
      OtherCallOnQueue(k, op, q);
    }
  }
}
