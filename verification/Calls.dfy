// What the calls of the kernel do, each in terms of its own arguments and of the queue its task
// was created with.
module Calls {
  import opened Types
  import opened TaskSpec
  import opened TaskLife
  import opened KernelSpec
  import opened Steps
  import opened Projection
  import opened QueueProjection
  import opened Invariant
  import opened Recovery
  import opened Runs
  import opened Scheduling
  import opened Suspension
  import opened Wakeups
  import Q = QueueSpec

  // ----- Finding a queue ---------------------------------------------------------------

  lemma {:induction false} FindFromIsExact(qs: seq<Q.Queue>, owner: nat, q: nat)
    requires q <= |qs| < NO_QUEUE
    ensures var r := FindFrom(qs, owner, q);
            if r == NO_QUEUE then forall p | q <= p < |qs| :: qs[p].owner != owner
            else q <= r < |qs| && qs[r].owner == owner && forall p | q <= p < r :: qs[p].owner != owner
    decreases |qs| - q
  {
    if q < |qs| && qs[q].owner != owner {
      FindFromIsExact(qs, owner, q + 1);
    }
  }

  /** os_msgQ_find finds nothing if and only if no queue belongs to the task. */
  lemma FindIsExact(k: Kernel, owner: nat)
    requires Inv(k)
    ensures Find(k, owner) == NO_QUEUE <==> forall q | 0 <= q < |k.queues| :: k.queues[q].owner != owner
    ensures Find(k, owner) != NO_QUEUE ==> Find(k, owner) < |k.queues| && k.queues[Find(k, owner)].owner == owner
  {
    FindFromIsExact(k.queues, owner, 0);
  }

  /** It finds the queue a task was created with, for every task, and every queue. */
  lemma EachTaskFindsItsQueue(k: Kernel, j: nat)
    requires Inv(k)
    ensures j < |k.tasks| ==> Find(k, j) == k.tasks[j].msgQ
    ensures j >= |k.tasks| ==> Find(k, j) == NO_QUEUE
    ensures j < |k.queues| ==> Find(k, k.queues[j].owner) == j
  {
    FindIsExact(k, j);
    if j < |k.queues| {
      FindIsExact(k, k.queues[j].owner);
    }
  }

  /** Task j has a message queue, which is q. */
  predicate HasQueue(k: Kernel, j: nat, q: nat) {
    j < |k.tasks| && q == k.tasks[j].msgQ < |k.queues|
  }

  predicate HasNoQueue(k: Kernel, j: nat) {
    j < |k.tasks| ==> k.tasks[j].msgQ == NO_QUEUE
  }

  lemma FindsIt(k: Kernel, j: nat, q: nat)
    requires Inv(k) && HasQueue(k, j, q)
    ensures Find(k, j) == q && q != NO_QUEUE
  {
    EachTaskFindsItsQueue(k, j);
  }

  // ----- Posting -----------------------------------------------------------------------

  /** The step signals e and nothing else, and task tid is recorded as the signaller. */
  ghost predicate SignalsOnly(k: Kernel, op: Op, e: nat, tid: nat)
    requires Inv(k) && Legal(k, op)
  {
    var r := After1(k, op);
    && Raises(k, op) == {e} && r.lastSignaledEvent == e
    && e < |r.signaledBy| && r.signaledBy[e] == tid
  }

  lemma PostRaises(k: Kernel, dest: nat, m: Msg, delay: uint32, period: uint32, async: bool)
    requires Inv(k) && Legal(k, MsgPost(dest, m, delay, period, async))
    ensures Raises(k, MsgPost(dest, m, delay, period, async)) ==
            if Find(k, dest) < |k.queues| && |k.queues[Find(k, dest)].msgs| < k.queues[Find(k, dest)].cap then
              {k.queues[Find(k, dest)].change}
            else {}
  {
    var event := ChangeEvent(k, Find(k, dest));
    FindAfterNote(k, dest, dest);
    assert [] + TryPostActions(Noted(k, dest), event, dest, m, delay, period, async, NO_TID)
        == TryPostActions(Noted(k, dest), event, dest, m, delay, period, async, NO_TID);
    SignalledOne(TryPostActions(Noted(k, dest), event, dest, m, delay, period, async, NO_TID));
  }

  /** A post to a task whose queue has room appends exactly the message, with the delay and the
      period of the call, touches no other queue, signals the queue's change event, and lets the
      caller go on. */
  lemma PostStores(k: Kernel, dest: nat, m: Msg, delay: uint32, period: uint32, async: bool, q: nat)
    requires Inv(k) && Legal(k, MsgPost(dest, m, delay, period, async))
    requires HasQueue(k, dest, q) && |k.queues[q].msgs| < k.queues[q].cap
    ensures var op := MsgPost(dest, m, delay, period, async);
            var r := After1(k, op);
            && r.queues == k.queues[q := k.queues[q].(msgs := k.queues[q].msgs + [m.(delay := delay, reload := period)])]
            && r.runningTid == k.runningTid && SignalsOnly(k, op, k.queues[q].change, k.runningTid)
  {
    InvKnowsEvents(k);
    FindsIt(k, dest, q);
    FindAfterNote(k, dest, dest);
    PostRaises(k, dest, m, delay, period, async);
  }

  lemma BlockedTaskIs(k: Kernel, event: nat, result: QueueResult, at: ResumePoint)
    requires Sized(k) && k.runningTid < |k.tasks| && event < k.nEvents
    requires Awake(k.tasks[k.runningTid]) && Sound(k.tasks[k.runningTid])
    ensures var r, j := Block(k, event, result, at), k.runningTid;
            && r.queues == k.queues && r.runningTid == NO_TID && j < |r.tasks|
            && r.tasks[j].state == WAITING_EVENT && r.tasks[j].waits == {event} && r.tasks[j].resume == at
  {
    BlockIs(k.tasks[k.runningTid], k, result, event, at);
  }

  lemma FullPostIs(k: Kernel, dest: nat, m: Msg, delay: uint32, period: uint32, async: bool, q: nat)
    requires Inv(k) && Legal(k, MsgPost(dest, m, delay, period, async))
    requires HasQueue(k, dest, q) && |k.queues[q].msgs| == k.queues[q].cap
    ensures After1(k, MsgPost(dest, m, delay, period, async)) ==
            if async then Noted(k, dest)
            else Block(Noted(k, dest), k.queues[q].change, FULL,
                       InPost(dest, m.(delay := delay, reload := period), delay, period))
  {
    hide Block, Noted, SameShape;
    InvKnowsEvents(k);
    FindsIt(k, dest, q);
    NotedLeaves(k, dest);
  }

  lemma NotedLeaves(k: Kernel, owner: nat)
    requires Inv(k) && k.runningTid != NO_TID
    ensures var n, j := Noted(k, owner), k.runningTid;
            && n.queues == k.queues && n.runningTid == j < |n.tasks| && n.nEvents == k.nEvents
            && n.tasks[j].state == k.tasks[j].state
            && forall o :: Find(n, o) == Find(k, o)
  {
    DoAllOne(k.tasks[k.runningTid], NoteEvent(ChangeEvent(k, Find(k, owner))));
    forall o
      ensures Find(Noted(k, owner), o) == Find(k, o)
    {
      FindAfterNote(k, owner, o);
    }
  }

  /** A post to a full queue stores nothing and signals nothing; an asynchronous one returns, any
      other blocks its caller on the queue's change event. */
  lemma PostToFull(k: Kernel, dest: nat, m: Msg, delay: uint32, period: uint32, async: bool, q: nat)
    requires Inv(k) && Legal(k, MsgPost(dest, m, delay, period, async))
    requires HasQueue(k, dest, q) && |k.queues[q].msgs| == k.queues[q].cap
    ensures var op, j := MsgPost(dest, m, delay, period, async), k.runningTid;
            var r := After1(k, op);
            && r.queues == k.queues && Raises(k, op) == {} && j < |r.tasks|
            && if async then r.runningTid == j && r.tasks[j].state == k.tasks[j].state
               else
                 && r.runningTid == NO_TID && r.tasks[j].state == WAITING_EVENT && r.tasks[j].waits == {k.queues[q].change}
                 && r.tasks[j].resume == InPost(dest, m.(delay := delay, reload := period), delay, period)
  {
    FindsIt(k, dest, q);
    PostRaises(k, dest, m, delay, period, async);
    FullPostIs(k, dest, m, delay, period, async, q);
    NotedIsWell(k, dest);
    NotedLeaves(k, dest);
    hide After1, Noted, Block, Inv, SameShape;
    if !async {
      var at := InPost(dest, m.(delay := delay, reload := period), delay, period);
      BlockedTaskIs(Noted(k, dest), k.queues[q].change, FULL, at);
    }
  }

  /** A post to a task without a queue does nothing. */
  lemma PostToNobody(k: Kernel, dest: nat, m: Msg, delay: uint32, period: uint32, async: bool)
    requires Inv(k) && Legal(k, MsgPost(dest, m, delay, period, async)) && HasNoQueue(k, dest)
    ensures var op := MsgPost(dest, m, delay, period, async);
            && After1(k, op).queues == k.queues && After1(k, op).runningTid == k.runningTid && Raises(k, op) == {}
  {
    InvKnowsEvents(k);
    EachTaskFindsItsQueue(k, dest);
    FindAfterNote(k, dest, dest);
    PostRaises(k, dest, m, delay, period, async);
  }

  // ----- Receiving ---------------------------------------------------------------------

  /** Message i is the first expired one. */
  predicate FirstExpired(s: seq<Msg>, i: nat) {
    i < |s| && s[i].delay == 0 && forall j | 0 <= j < i :: s[j].delay > 0
  }

  /** What a receive of message i leaves: those behind it, those ahead of it, and itself with its
      period as its delay if it has one. */
  function WithoutFirst(s: seq<Msg>, i: nat): seq<Msg>
    requires i < |s|
  {
    s[i + 1..] + s[..i] + if s[i].reload > 0 then [s[i].(delay := s[i].reload)] else []
  }

  lemma ReceiveIs(s: seq<Msg>, i: nat)
    requires FirstExpired(s, i)
    ensures !Q.AllDelayed(s) && Q.FirstReady(s) == i && Q.ReceiveMsgs(s) == WithoutFirst(s, i)
  {
  }

  lemma ReceiveRaises(k: Kernel, owner: nat, async: bool)
    requires Inv(k) && Legal(k, MsgReceive(owner, async))
    ensures Raises(k, MsgReceive(owner, async)) ==
            if Find(k, owner) < |k.queues| && (exists i | 0 <= i < |k.queues[Find(k, owner)].msgs| ::
                                                 k.queues[Find(k, owner)].msgs[i].delay == 0) then
              {k.queues[Find(k, owner)].change}
            else {}
  {
    var event := ChangeEvent(k, Find(k, owner));
    FindAfterNote(k, owner, owner);
    assert [] + TryReceiveActions(Noted(k, owner), event, owner, async, NO_TID)
        == TryReceiveActions(Noted(k, owner), event, owner, async, NO_TID);
    SignalledOne(TryReceiveActions(Noted(k, owner), event, owner, async, NO_TID));
  }

  /** A receive from a queue with an expired message takes the first of them, touches no other
      queue, signals the change event, and lets the caller go on. */
  lemma ReceiveTakes(k: Kernel, owner: nat, async: bool, q: nat, i: nat)
    requires Inv(k) && Legal(k, MsgReceive(owner, async)) && HasQueue(k, owner, q) && FirstExpired(k.queues[q].msgs, i)
    ensures var op := MsgReceive(owner, async);
            var r := After1(k, op);
            && r.queues == k.queues[q := k.queues[q].(msgs := WithoutFirst(k.queues[q].msgs, i))]
            && r.runningTid == k.runningTid && SignalsOnly(k, op, k.queues[q].change, k.runningTid)
  {
    FindsIt(k, owner, q);
    FindAfterNote(k, owner, owner);
    NotedSigns(k, owner);
    ReceiveIs(k.queues[q].msgs, i);
    ReceiveRaises(k, owner, async);
    QueueCallIs(k, MsgReceive(owner, async));
    hide After1, Noted, Inv, Find, WithoutFirst, SameShape, Raises, Legal;
  }

  lemma EmptyReceiveIs(k: Kernel, owner: nat, async: bool, q: nat)
    requires Inv(k) && Legal(k, MsgReceive(owner, async)) && HasQueue(k, owner, q)
    requires forall i | 0 <= i < |k.queues[q].msgs| :: k.queues[q].msgs[i].delay > 0
    ensures After1(k, MsgReceive(owner, async)) ==
            if async then Noted(k, owner) else Block(Noted(k, owner), k.queues[q].change, EMPTY, InReceive(owner))
  {
    hide Block, Noted, SameShape;
    InvKnowsEvents(k);
    FindsIt(k, owner, q);
    NotedLeaves(k, owner);
  }

  /** A receive from a queue without an expired message takes nothing and signals nothing; an
      asynchronous one returns, any other blocks its caller on the queue's change event. */
  lemma ReceiveFromDelayed(k: Kernel, owner: nat, async: bool, q: nat)
    requires Inv(k) && Legal(k, MsgReceive(owner, async)) && HasQueue(k, owner, q)
    requires forall i | 0 <= i < |k.queues[q].msgs| :: k.queues[q].msgs[i].delay > 0
    ensures var op, j := MsgReceive(owner, async), k.runningTid;
            var r := After1(k, op);
            && r.queues == k.queues && Raises(k, op) == {} && j < |r.tasks|
            && if async then r.runningTid == j && r.tasks[j].state == k.tasks[j].state
               else
                 && r.runningTid == NO_TID && r.tasks[j].state == WAITING_EVENT && r.tasks[j].waits == {k.queues[q].change}
                 && r.tasks[j].resume == InReceive(owner)
  {
    FindsIt(k, owner, q);
    ReceiveRaises(k, owner, async);
    EmptyReceiveIs(k, owner, async, q);
    NotedIsWell(k, owner);
    NotedLeaves(k, owner);
    hide After1, Noted, Block, Inv, SameShape;
    if !async {
      BlockedTaskIs(Noted(k, owner), k.queues[q].change, EMPTY, InReceive(owner));
    }
  }

  // ----- The retries of a blocked post or receive --------------------------------------

  /** Task j is blocked at this resume point of a post or receive, whose queue is q. */
  ghost predicate BlockedAt(k: Kernel, j: nat, at: ResumePoint, q: nat) {
    && j < |k.tasks| && j != k.runningTid && k.tasks[j].resume == at
    && (at.InPost? || at.InReceive?) && HasQueue(k, if at.InPost? then at.dest else at.owner, q)
    && (at.InPost? ==> at.msg.delay == at.delay && at.msg.reload == at.period)
  }

  /** Nothing has happened yet that the task waits for. */
  predicate Shut(k: Kernel, at: ResumePoint, q: nat)
    requires at.InPost? || at.InReceive?
  {
    q < |k.queues| &&
    if at.InPost? then |k.queues[q].msgs| >= k.queues[q].cap
    else forall i | 0 <= i < |k.queues[q].msgs| :: k.queues[q].msgs[i].delay > 0
  }

  lemma EmptyReceiveBlocks(k: Kernel, event: nat, owner: nat)
    requires Sized(k) && k.runningTid != NO_TID && event < |k.signaledBy|
    requires Find(k, owner) < |k.queues| && Q.AllDelayed(k.queues[Find(k, owner)].msgs)
    ensures var r := TryReceive(k, event, owner, false);
            && r.runningTid == NO_TID && k.runningTid < |r.tasks|
            && r.tasks[k.runningTid].resume == InReceive(owner)
  {
    YieldSetsResume(Forget(k, event), [NoteResult(EMPTY)] + WaitActions(Forget(k, event), event, 0), InReceive(owner));
  }

  lemma ReceiveBlocksAgain(k: Kernel, j: nat, q: nat)
    requires Inv(k) && Legal(k, Dispatch) && Select(k) == j < |k.tasks| && k.tasks[j].resume.InReceive?
    requires q == Find(k, k.tasks[j].resume.owner) < |k.queues| && Q.AllDelayed(k.queues[q].msgs)
    ensures var r := After1(k, Dispatch);
            r.runningTid == NO_TID && j < |r.tasks| && r.tasks[j].resume == k.tasks[j].resume
  {
    hide TryReceive, Find, SameShape;
    InvKnowsEvents(k);
    ReadyIsSelected(k);
    var d, t := Dispatched(k), k.tasks[j];
    assert Parked(k, t);
    FoundQueue(k, d, t.resume.owner);
    EmptyReceiveBlocks(d, t.msgChangeEvent, t.resume.owner);
  }

  lemma QueueOfStays(k: Kernel, op: Op, j: nat, q: nat)
    requires Inv(k) && Legal(k, op) && HasQueue(k, j, q)
    ensures HasQueue(After1(k, op), j, q)
  {
    InvKnowsEvents(k);
    if !SetUp(op) {
      StepShape(k, op);
    }
  }

  lemma BlockedStays(k: Kernel, op: Op, j: nat, at: ResumePoint, q: nat)
    requires Inv(k) && Legal(k, op) && BlockedAt(k, j, at, q) && (Runner(k, op) == j ==> Shut(k, at, q))
    ensures BlockedAt(After1(k, op), j, at, q)
  {
    hide After1;
    var owner := if at.InPost? then at.dest else at.owner;
    QueueOfStays(k, op, owner, q);
    if Runner(k, op) != j {
      OtherStepKeepsResume(k, op, j);
    } else {
      FindsIt(k, owner, q);
      if at.InPost? {
        RetryBlocksAgain(k, j, q);
      } else {
        ReceiveBlocksAgain(k, j, q);
      }
    }
  }

  /** Whenever the run dispatches task j, the queue is still shut. */
  ghost predicate RetriesInVain(k: Kernel, ops: seq<Op>, j: nat, at: ResumePoint, q: nat)
    requires Inv(k) && LegalRun(k, ops) && (at.InPost? || at.InReceive?)
    decreases |ops|
  {
    ops == [] || ((Runner(k, ops[0]) == j ==> Shut(k, at, q)) && RetriesInVain(After1(k, ops[0]), ops[1..], j, at, q))
  }

  lemma {:induction false} BlockedThroughout(k: Kernel, ops: seq<Op>, j: nat, at: ResumePoint, q: nat)
    requires Inv(k) && LegalRun(k, ops) && BlockedAt(k, j, at, q) && RetriesInVain(k, ops, j, at, q)
    ensures BlockedAt(Run(k, ops), j, at, q)
    decreases |ops|
  {
    hide After1, Shut, BlockedAt;
    if ops != [] {
      BlockedStays(k, ops[0], j, at, q);
      BlockedThroughout(After1(k, ops[0]), ops[1..], j, at, q);
    }
  }

  /** What a dispatched task does that stopped in a queue macro. */
  lemma RetryIs(k: Kernel, j: nat)
    requires Inv(k) && Legal(k, Dispatch) && Select(k) == j < |k.tasks| && Retrying(k.tasks[j])
    ensures var d, at := Dispatched(k), k.tasks[j].resume;
            var e := k.tasks[j].msgChangeEvent;
            && d.runningTid == j && d.queues == k.queues && e < |d.signaledBy|
            && After1(k, Dispatch) ==
               if at.InPost? then TryPost(d, e, at.dest, at.msg, at.delay, at.period, false)
               else TryReceive(d, e, at.owner, false)
  {
    hide TryPost, TryReceive, SameShape;
    InvKnowsEvents(k);
    ReadyIsSelected(k);
    assert Parked(k, k.tasks[j]);
  }

  lemma RetryStores(k: Kernel, j: nat, at: ResumePoint, q: nat)
    requires Inv(k) && Legal(k, Dispatch) && Select(k) == j && BlockedAt(k, j, at, q) && at.InPost?
    requires |k.queues[q].msgs| < k.queues[q].cap
    ensures var r := After1(k, Dispatch);
            && r.queues == k.queues[q := k.queues[q].(msgs := k.queues[q].msgs + [at.msg])] && r.runningTid == j
  {
    RetryIs(k, j);
    FindsIt(k, at.dest, q);
    hide After1, Inv, SameShape;
  }

  lemma RetryTakes(k: Kernel, j: nat, at: ResumePoint, q: nat, i: nat)
    requires Inv(k) && Legal(k, Dispatch) && Select(k) == j && BlockedAt(k, j, at, q) && at.InReceive?
    requires FirstExpired(k.queues[q].msgs, i)
    ensures var r := After1(k, Dispatch);
            && r.queues == k.queues[q := k.queues[q].(msgs := WithoutFirst(k.queues[q].msgs, i))] && r.runningTid == j
  {
    RetryIs(k, j);
    FindsIt(k, at.owner, q);
    ReceiveIs(k.queues[q].msgs, i);
    hide After1, Inv, SameShape, WithoutFirst;
  }

  /** The blocked post of any run: however often its task is dispatched in vain before, the first
      dispatch that finds room stores the message with the delay and the period of the call. */
  lemma BlockedPostStores(k: Kernel, dest: nat, m: Msg, delay: uint32, period: uint32, ops: seq<Op>, q: nat)
    requires Inv(k) && Legal(k, MsgPost(dest, m, delay, period, false))
    requires HasQueue(k, dest, q) && |k.queues[q].msgs| == k.queues[q].cap
    requires var n, at := After1(k, MsgPost(dest, m, delay, period, false)),
                          InPost(dest, m.(delay := delay, reload := period), delay, period);
             LegalRun(n, ops) && RetriesInVain(n, ops, k.runningTid, at, q)
    ensures var r := Run(After1(k, MsgPost(dest, m, delay, period, false)), ops);
            && q < |r.queues|
            && (Legal(r, Dispatch) && Select(r) == k.runningTid && |r.queues[q].msgs| < r.queues[q].cap ==>
                  && After1(r, Dispatch).runningTid == k.runningTid
                  && After1(r, Dispatch).queues == r.queues[q :=
                       r.queues[q].(msgs := r.queues[q].msgs + [m.(delay := delay, reload := period)])])
  {
    var n, j := After1(k, MsgPost(dest, m, delay, period, false)), k.runningTid;
    var at := InPost(dest, m.(delay := delay, reload := period), delay, period);
    PostToFull(k, dest, m, delay, period, false, q);
    QueueOfStays(k, MsgPost(dest, m, delay, period, false), dest, q);
    hide After1, Inv;
    BlockedThroughout(n, ops, j, at, q);
    var r := Run(n, ops);
    if Legal(r, Dispatch) && Select(r) == j && |r.queues[q].msgs| < r.queues[q].cap {
      RetryStores(r, j, at, q);
    }
  }

  /** The blocked receive of any run likewise: the first dispatch that finds an expired message
      takes the first one. */
  lemma BlockedReceiveTakes(k: Kernel, owner: nat, ops: seq<Op>, q: nat, i: nat)
    requires Inv(k) && Legal(k, MsgReceive(owner, false)) && HasQueue(k, owner, q)
    requires forall p | 0 <= p < |k.queues[q].msgs| :: k.queues[q].msgs[p].delay > 0
    requires LegalRun(After1(k, MsgReceive(owner, false)), ops)
    requires RetriesInVain(After1(k, MsgReceive(owner, false)), ops, k.runningTid, InReceive(owner), q)
    ensures var r := Run(After1(k, MsgReceive(owner, false)), ops);
            && q < |r.queues|
            && (Legal(r, Dispatch) && Select(r) == k.runningTid && FirstExpired(r.queues[q].msgs, i) ==>
                  && After1(r, Dispatch).runningTid == k.runningTid
                  && After1(r, Dispatch).queues == r.queues[q :=
                       r.queues[q].(msgs := WithoutFirst(r.queues[q].msgs, i))])
  {
    var n, j := After1(k, MsgReceive(owner, false)), k.runningTid;
    ReceiveFromDelayed(k, owner, false, q);
    QueueOfStays(k, MsgReceive(owner, false), owner, q);
    hide After1, Inv;
    BlockedThroughout(n, ops, j, InReceive(owner), q);
    var r := Run(n, ops);
    if Legal(r, Dispatch) && Select(r) == j && FirstExpired(r.queues[q].msgs, i) {
      RetryTakes(r, j, InReceive(owner), q, i);
    }
  }

  // ----- Who has the processor ---------------------------------------------------------

  /** The call gives up the processor. */
  predicate GivesUp(k: Kernel, op: Op) {
    match op
    case TaskWait(_, _) => true
    case EventWait(_, _) => true
    case EventWaitMultiple(_, _) => true
    case EventSignal(_) => true
    case SemWait(s) => s < |k.sems| && k.sems[s].value == 0
    case SemSignal(s) => exists i | 0 <= i < |k.tasks| :: k.tasks[i].state == WAITING_SEM && k.tasks[i].semaphore == s
    case MsgPost(dest, _, _, _, async) =>
      !async && Find(k, dest) < |k.queues| && |k.queues[Find(k, dest)].msgs| >= k.queues[Find(k, dest)].cap
    case MsgReceive(owner, async) =>
      !async && Find(k, owner) < |k.queues|
      && forall i | 0 <= i < |k.queues[Find(k, owner)].msgs| :: k.queues[Find(k, owner)].msgs[i].delay > 0
    case SuspendTask(tid) => tid == k.runningTid
    case ResumeTask(tid) => tid == k.runningTid
    case TaskClose => true
    case _ => false
  }

  lemma TryPostGivesUp(k: Kernel, event: nat, dest: nat, m: Msg, delay: uint32, period: uint32, async: bool)
    requires Sized(k) && k.runningTid != NO_TID && (Find(k, dest) < |k.queues| ==> event < |k.signaledBy|)
    ensures var q := Find(k, dest);
            TryPost(k, event, dest, m, delay, period, async).runningTid ==
            if !async && q < |k.queues| && |k.queues[q].msgs| >= k.queues[q].cap then NO_TID else k.runningTid
  {
  }

  lemma TryReceiveGivesUp(k: Kernel, event: nat, owner: nat, async: bool)
    requires Sized(k) && k.runningTid != NO_TID && (Find(k, owner) < |k.queues| ==> event < |k.signaledBy|)
    ensures var q := Find(k, owner);
            TryReceive(k, event, owner, async).runningTid ==
            if !async && q < |k.queues| && (forall i | 0 <= i < |k.queues[q].msgs| :: k.queues[q].msgs[i].delay > 0) then NO_TID
            else k.runningTid
  {
  }

  lemma QueueCallGivesUp(k: Kernel, op: Op)
    requires Inv(k) && Legal(k, op) && (op.MsgPost? || op.MsgReceive?)
    ensures After1(k, op).runningTid == if GivesUp(k, op) then NO_TID else k.runningTid
  {
    var owner := if op.MsgPost? then op.dest else op.owner;
    var n, event := Noted(k, owner), ChangeEvent(k, Find(k, owner));
    QueueCallIs(k, op);
    NotedSigns(k, owner);
    FindAfterNote(k, owner, owner);
    hide After1, Inv, Legal, Noted, TryPost, TryReceive, SameShape, Find;
    if op.MsgPost? {
      TryPostGivesUp(n, event, owner, op.msg, op.delay, op.period, op.async);
    } else {
      TryReceiveGivesUp(n, event, owner, op.async);
    }
  }

  lemma SemSignalGivesUp(k: Kernel, s: nat)
    requires Inv(k) && Legal(k, SemSignal(s))
    ensures After1(k, SemSignal(s)).runningTid == if GivesUp(k, SemSignal(s)) then NO_TID else k.runningTid
  {
    InvKnowsEvents(k);
    assert Waiting(k.tasks, s) <==> GivesUp(k, SemSignal(s)) by {
      if i :| 0 <= i < |k.tasks| && k.tasks[i].state == WAITING_SEM && k.tasks[i].semaphore == s {
        assert Wants(WaitingFor(s), k.tasks[i]);
      }
    }
  }

  lemma PlainCallGivesUp(k: Kernel, op: Op)
    requires Inv(k) && Legal(k, op) && !op.Dispatch? && !op.MsgPost? && !op.MsgReceive? && !op.SemSignal?
    ensures After1(k, op).runningTid == if GivesUp(k, op) then NO_TID else k.runningTid
  {
    InvKnowsEvents(k);
  }

  /** A call, interrupt or tick takes the processor from the running task exactly when it blocks
      it, hands a unit over, signals an event, or is a suspend or resume of the task itself; and
      nothing but a dispatch gives the processor to anybody. */
  lemma WhoGivesUp(k: Kernel, op: Op)
    requires Inv(k) && Legal(k, op) && !op.Dispatch?
    ensures After1(k, op).runningTid == if GivesUp(k, op) then NO_TID else k.runningTid
  {
    if op.MsgPost? || op.MsgReceive? {
      QueueCallGivesUp(k, op);
    } else if op.SemSignal? {
      SemSignalGivesUp(k, op.s);
    } else {
      PlainCallGivesUp(k, op);
    }
  }

  /** A dispatch gives it to the selected task, unless that one finds the queue it retries on
      still shut. */
  lemma DispatchRuns(k: Kernel)
    requires Inv(k) && Legal(k, Dispatch)
    ensures var j := Select(k);
            After1(k, Dispatch).runningTid ==
            if j == NO_TID || (Retrying(k.tasks[j]) && Shut(k, k.tasks[j].resume, Find(k, Partner(k.tasks[j])))) then NO_TID
            else j
  {
    InvKnowsEvents(k);
    ReadyIsSelected(k);
    if Select(k) != NO_TID && Retrying(k.tasks[Select(k)]) {
      RetryIs(k, Select(k));
      FoundQueue(k, Dispatched(k), Partner(k.tasks[Select(k)]));
      RetryGivesUp(k, Select(k));
    }
  }

  lemma RetryGivesUp(k: Kernel, j: nat)
    requires Inv(k) && Legal(k, Dispatch) && Select(k) == j < |k.tasks| && Retrying(k.tasks[j])
    ensures After1(k, Dispatch).runningTid ==
            if Shut(k, k.tasks[j].resume, Find(k, Partner(k.tasks[j]))) then NO_TID else j
  {
    assert Parked(k, k.tasks[j]);
    RetryIs(k, j);
    FoundQueue(k, Dispatched(k), Partner(k.tasks[j]));
    hide After1, Inv, SameShape, Select, Block;
  }

  // ----- What is signalled -------------------------------------------------------------

  /** Some message of the queue expires at the next tick. */
  predicate AboutToExpire(s: Q.Queue) {
    exists i | 0 <= i < |s.msgs| :: s.msgs[i].delay == 1
  }

  /** The step signals e. */
  ghost predicate SignalsEvent(k: Kernel, op: Op, e: nat)
    requires Inv(k) && Legal(k, op)
  {
    match op
    case EventSignal(f) => e == f
    case IsrSignal(f) => e == f
    case Tick => exists q | 0 <= q < |k.queues| :: k.queues[q].change == e && AboutToExpire(k.queues[q])
    case MsgPost(dest, _, _, _, _) => QueueSignals(k, InPost(dest, op.msg, 0, 0), e)
    case MsgReceive(owner, _) => QueueSignals(k, InReceive(owner), e)
    case Dispatch => Select(k) != NO_TID && Retrying(k.tasks[Select(k)]) && QueueSignals(k, k.tasks[Select(k)].resume, e)
    case _ => false
  }

  /** The queue of a post or receive lets it through, and e is its change event. */
  predicate QueueSignals(k: Kernel, at: ResumePoint, e: nat)
    requires at.InPost? || at.InReceive?
  {
    var q := Find(k, if at.InPost? then at.dest else at.owner);
    q < |k.queues| && e == k.queues[q].change && !Shut(k, at, q)
  }

  lemma {:induction false} TickRaisesOnly(k: Kernel, n: nat, e: nat)
    requires Inv(k) && n <= |k.tasks| && e in Signalled(TickActions(k, 0, 1, n, NO_TID))
    ensures exists q | 0 <= q < |k.queues| :: k.queues[q].change == e && AboutToExpire(k.queues[q])
  {
    hide TickActions, PassActions;
    TickActionsGrow(k, n);
    if n > 0 {
      PassSignalsAll(k, 0, 1, n - 1, NO_TID);
      SignalledConcat(TickActions(k, 0, 1, n - 1, NO_TID), PassActions(k, 0, 1, n - 1, NO_TID));
      SignalledOne(QueueSignal(k, 0, n - 1));
      if e in Signalled(TickActions(k, 0, 1, n - 1, NO_TID)) {
        TickRaisesOnly(k, n - 1, e);
      } else {
        assert k.queues[k.tasks[n - 1].msgQ].change == e && AboutToExpire(k.queues[k.tasks[n - 1].msgQ]);
      }
    }
  }

  lemma TickActionsGrow(k: Kernel, n: nat)
    requires Inv(k) && n <= |k.tasks|
    ensures TickActions(k, 0, 1, n, NO_TID) ==
            if n == 0 then [] else TickActions(k, 0, 1, n - 1, NO_TID) + PassActions(k, 0, 1, n - 1, NO_TID)
  {
  }

  lemma TickRaises(k: Kernel, e: nat)
    requires Inv(k) && Legal(k, Tick)
    ensures e in Raises(k, Tick) <==> SignalsEvent(k, Tick, e)
  {
    if e in Raises(k, Tick) {
      TickRaisesOnly(k, |k.tasks|, e);
    }
    if q :| 0 <= q < |k.queues| && k.queues[q].change == e && AboutToExpire(k.queues[q]) {
      FiringTickIsSignalled(k, q);
    }
  }

  lemma SubTickRaisesNothing(k: Kernel, id: uint8, n: uint32)
    requires Inv(k) && Legal(k, SubTick(id, n))
    ensures Raises(k, SubTick(id, n)) == {}
  {
    if id != 0 {
      SubTickPasses(k, id, n, |k.tasks|);
    }
  }

  lemma {:induction false} SubTickPasses(k: Kernel, id: uint8, size: uint32, n: nat)
    requires Inv(k) && n <= |k.tasks| && id != 0
    ensures Signalled(TickActions(k, id, size, n, NO_TID)) == {}
  {
    hide PassActions;
    if n > 0 {
      SubTickPasses(k, id, size, n - 1);
      PassSignalsAll(k, id, size, n - 1, NO_TID);
      SignalledConcat(TickActions(k, id, size, n - 1, NO_TID), PassActions(k, id, size, n - 1, NO_TID));
    }
  }

  lemma DispatchRaises(k: Kernel, e: nat)
    requires Inv(k) && Legal(k, Dispatch)
    ensures e in Raises(k, Dispatch) <==> SignalsEvent(k, Dispatch, e)
  {
    ReadyIsSelected(k);
    SignalledOne(ActionsOf(k, Dispatch, NO_TID));
    if Select(k) != NO_TID {
      assert Parked(k, k.tasks[Select(k)]);
      if Retrying(k.tasks[Select(k)]) {
        FoundQueue(k, Dispatched(k), Partner(k.tasks[Select(k)]));
      }
    }
  }

  /** What Raises means: signals and interrupts signal their event, a post or receive that goes
      through its queue's change event, and a tick the change events of the queues in which a
      message expires with it. */
  lemma WhatIsRaised(k: Kernel, op: Op, e: nat)
    requires Inv(k) && Legal(k, op)
    ensures e in Raises(k, op) <==> SignalsEvent(k, op, e)
  {
    hide Raises, Inv;
    if op.Tick? {
      TickRaises(k, e);
    } else if op.SubTick? {
      SubTickRaisesNothing(k, op.id, op.n);
    } else if op.Dispatch? {
      DispatchRaises(k, e);
    } else if op.MsgPost? {
      PostRaises(k, op.dest, op.msg, op.delay, op.period, op.async);
    } else if op.MsgReceive? {
      ReceiveRaises(k, op.owner, op.async);
    } else if op.EventSignal? || op.IsrSignal? {
      SignalRaisesIt(k, op);
    } else {
      PlainCallRaisesNothing(k, op);
    }
  }

  lemma SignalRaisesIt(k: Kernel, op: Op)
    requires Inv(k) && Legal(k, op) && (op.EventSignal? || op.IsrSignal?)
    ensures Raises(k, op) == {op.e}
  {
    EventSignalSignalsAll(k, op, NO_TID);
  }

  // ----- Who signalled last ------------------------------------------------------------

  lemma PassSigns(m: Kernel, i: nat, clock: uint8, size: uint32, e: nat)
    requires Sized(m) && i < |m.tasks| && e < |m.signaledBy|
    ensures e < |TickTask(m, i, clock, size).signaledBy|
    ensures TickTask(m, i, clock, size).signaledBy[e] ==
            if QueueSignal(m, clock, i) == [Signal(e)] then ISR_TID else m.signaledBy[e]
  {
  }

  lemma TicksKeepEvents(k: Kernel, clock: uint8, size: uint32, n: nat)
    requires Sized(k) && n <= |k.tasks|
    ensures |TickTasks(k, clock, size, n).signaledBy| == |k.signaledBy|
  {
    TicksKeepShape(k, clock, size, n);
  }

  lemma {:induction false} TickSigns(k: Kernel, clock: uint8, size: uint32, n: nat, e: nat)
    requires Sized(k) && Owned(k) && n <= |k.tasks| && e < |k.signaledBy|
    ensures |TickTasks(k, clock, size, n).signaledBy| == |k.signaledBy|
    ensures TickTasks(k, clock, size, n).signaledBy[e] ==
            if e in Signalled(TickActions(k, clock, size, n, NO_TID)) then ISR_TID else k.signaledBy[e]
  {
    hide TickTask, PassActions, QueueSignal, Owned, Sized, SameShape;
    TicksKeepEvents(k, clock, size, n);
    if n > 0 {
      TickSigns(k, clock, size, n - 1, e);
      QueueSignalUnmoved(k, clock, size, n - 1);
      TicksKeepTables(k, clock, size, n - 1, n - 1);
      PassSigns(TickTasks(k, clock, size, n - 1), n - 1, clock, size, e);
      PassSignalsAll(k, clock, size, n - 1, NO_TID);
      SignalledConcat(TickActions(k, clock, size, n - 1, NO_TID), PassActions(k, clock, size, n - 1, NO_TID));
      SignalOfOne(k, clock, n - 1, e);
    }
  }

  lemma SignalOfOne(k: Kernel, clock: uint8, i: nat, e: nat)
    requires Sized(k) && i < |k.tasks|
    ensures e in Signalled(QueueSignal(k, clock, i)) <==> QueueSignal(k, clock, i) == [Signal(e)]
  {
    SignalledOne(QueueSignal(k, clock, i));
  }

  /** Who a step records as the signaller of the events it signals. */
  function Signaller(k: Kernel, op: Op): nat
    requires Sized(k) && Legal(k, op)
  {
    if op.Tick? || op.IsrSignal? then ISR_TID else Runner(k, op)
  }

  /** A step records its signaller for the events it signals, and otherwise leaves what
      event_signaling_taskId_get says about an event, or sets it back to nobody. */
  lemma SignallerIsRecorded(k: Kernel, op: Op, e: nat)
    requires Inv(k) && Legal(k, op) && e < |k.signaledBy|
    ensures e < |After1(k, op).signaledBy|
    ensures e in Raises(k, op) ==> After1(k, op).signaledBy[e] == Signaller(k, op)
    ensures e !in Raises(k, op) ==>
              After1(k, op).signaledBy[e] == k.signaledBy[e] || After1(k, op).signaledBy[e] == NO_TID
  {
    hide Raises, Inv;
    if op.Tick? {
      MasterTickSigns(k, e);
    } else if op.SubTick? {
      SubTickSigns(k, op.id, op.n, e);
    } else if op.Dispatch? {
      DispatchSigns(k, e);
    } else if op.MsgPost? {
      PostSigns(k, op, e);
    } else if op.MsgReceive? {
      ReceiveSigns(k, op, e);
    } else if op.EventSignal? || op.IsrSignal? {
      EventSignalSigns(k, op, e);
    } else {
      PlainCallSigns(k, op, e);
    }
  }

  lemma TickIs(k: Kernel)
    requires Inv(k) && Legal(k, Tick)
    ensures After1(k, Tick) == TickTasks(k, 0, 1, |k.tasks|)
  {
    InvKnowsEvents(k);
    TickStep(k);
    hide Inv, TickTasks, Step;
  }

  lemma TickStep(k: Kernel)
    requires Sized(k) && EventsKnown(k) && Legal(k, Tick)
    ensures Step(k, Tick) == TickTasks(k, 0, 1, |k.tasks|)
  {
    hide TickTasks;
  }

  lemma TickRaisesIts(k: Kernel)
    requires Sized(k) && Legal(k, Tick)
    ensures Raises(k, Tick) == Signalled(TickActions(k, 0, 1, |k.tasks|, NO_TID))
  {
    hide TickActions, Signalled;
  }

  lemma MasterTickSigns(k: Kernel, e: nat)
    requires Inv(k) && Legal(k, Tick) && e < |k.signaledBy|
    ensures e < |After1(k, Tick).signaledBy|
    ensures After1(k, Tick).signaledBy[e] == if e in Raises(k, Tick) then ISR_TID else k.signaledBy[e]
  {
    TickIs(k);
    TickRaisesIts(k);
    hide After1, Raises, TickTasks, TickActions, Signalled, SameShape;
    TickSigns(k, 0, 1, |k.tasks|, e);
  }

  lemma SubTickSigns(k: Kernel, id: uint8, n: uint32, e: nat)
    requires Inv(k) && Legal(k, SubTick(id, n)) && e < |k.signaledBy|
    ensures e < |After1(k, SubTick(id, n)).signaledBy|
    ensures After1(k, SubTick(id, n)).signaledBy[e] == k.signaledBy[e] && e !in Raises(k, SubTick(id, n))
  {
    SubTickRaisesNothing(k, id, n);
    if id != 0 {
      TickSigns(k, id, n, |k.tasks|, e);
    }
  }

  lemma EventSignalSigns(k: Kernel, op: Op, e: nat)
    requires Inv(k) && Legal(k, op) && e < |k.signaledBy| && (op.EventSignal? || op.IsrSignal?)
    ensures e < |After1(k, op).signaledBy| && (e in Raises(k, op) <==> e == op.e)
    ensures After1(k, op).signaledBy[e] == if e == op.e then Signaller(k, op) else k.signaledBy[e]
  {
    EventSignalSignalsAll(k, op, NO_TID);
    hide Inv, Owned, ActionsOf, SameShape;
  }

  lemma PlainCallRaisesNothing(k: Kernel, op: Op)
    requires Inv(k) && Legal(k, op) && !op.EventSignal? && !op.IsrSignal?
    requires !op.Tick? && !op.SubTick? && !op.Dispatch? && !op.MsgPost? && !op.MsgReceive?
    ensures Raises(k, op) == {}
  {
    NoSignalNothing(ActionsOf(k, op, NO_TID));
  }

  lemma PlainCallForgets(k: Kernel, op: Op, e: nat)
    requires Inv(k) && Legal(k, op) && e < |k.signaledBy| && !op.EventSignal? && !op.IsrSignal?
    requires !op.Tick? && !op.SubTick? && !op.Dispatch? && !op.MsgPost? && !op.MsgReceive?
    ensures e < |After1(k, op).signaledBy|
    ensures After1(k, op).signaledBy[e] == k.signaledBy[e] || After1(k, op).signaledBy[e] == NO_TID
  {
    hide Owned, TasksSound, TasksParked, Waiting;
  }

  lemma PlainCallSigns(k: Kernel, op: Op, e: nat)
    requires Inv(k) && Legal(k, op) && e < |k.signaledBy| && !op.EventSignal? && !op.IsrSignal?
    requires !op.Tick? && !op.SubTick? && !op.Dispatch? && !op.MsgPost? && !op.MsgReceive?
    ensures e < |After1(k, op).signaledBy| && e !in Raises(k, op)
    ensures After1(k, op).signaledBy[e] == k.signaledBy[e] || After1(k, op).signaledBy[e] == NO_TID
  {
    hide After1, Inv, Raises;
    PlainCallRaisesNothing(k, op);
    PlainCallForgets(k, op, e);
  }

  lemma QueueCallIs(k: Kernel, op: Op)
    requires Inv(k) && Legal(k, op) && (op.MsgPost? || op.MsgReceive?)
    ensures var owner := if op.MsgPost? then op.dest else op.owner;
            var n, event := Noted(k, owner), ChangeEvent(k, Find(k, owner));
            && (Find(n, owner) < |n.queues| ==> event < |n.signaledBy|)
            && After1(k, op) ==
               if op.MsgPost? then TryPost(n, event, owner, op.msg, op.delay, op.period, op.async)
               else TryReceive(n, event, owner, op.async)
  {
    FindAfterNote(k, if op.MsgPost? then op.dest else op.owner, if op.MsgPost? then op.dest else op.owner);
    hide TryPost, TryReceive, Noted, Find, SameShape;
  }

  lemma TryPostSigns(k: Kernel, event: nat, dest: nat, m: Msg, delay: uint32, period: uint32, async: bool, e: nat)
    requires Sized(k) && k.runningTid != NO_TID && (Find(k, dest) < |k.queues| ==> event < |k.signaledBy|)
    requires e < |k.signaledBy|
    ensures var q, r := Find(k, dest), TryPost(k, event, dest, m, delay, period, async);
            && e < |r.signaledBy|
            && if q < |k.queues| && !Q.Full(k.queues[q]) && e == event then r.signaledBy[e] == k.runningTid
               else r.signaledBy[e] == k.signaledBy[e] || r.signaledBy[e] == NO_TID
  {
  }

  lemma TryReceiveSigns(k: Kernel, event: nat, owner: nat, async: bool, e: nat)
    requires Sized(k) && k.runningTid != NO_TID && (Find(k, owner) < |k.queues| ==> event < |k.signaledBy|)
    requires e < |k.signaledBy|
    ensures var q, r := Find(k, owner), TryReceive(k, event, owner, async);
            && e < |r.signaledBy|
            && if q < |k.queues| && !Q.AllDelayed(k.queues[q].msgs) && e == event then r.signaledBy[e] == k.runningTid
               else r.signaledBy[e] == k.signaledBy[e] || r.signaledBy[e] == NO_TID
  {
  }

  lemma NotedSigns(k: Kernel, owner: nat)
    requires Sized(k) && k.runningTid != NO_TID
    ensures Noted(k, owner).signaledBy == k.signaledBy && Noted(k, owner).queues == k.queues
    ensures Noted(k, owner).runningTid == k.runningTid
  {
  }

  lemma PostSigns(k: Kernel, op: Op, e: nat)
    requires Inv(k) && Legal(k, op) && e < |k.signaledBy| && op.MsgPost?
    ensures e < |After1(k, op).signaledBy|
    ensures e in Raises(k, op) ==> After1(k, op).signaledBy[e] == k.runningTid
    ensures e !in Raises(k, op) ==>
              After1(k, op).signaledBy[e] == k.signaledBy[e] || After1(k, op).signaledBy[e] == NO_TID
  {
    PostRaises(k, op.dest, op.msg, op.delay, op.period, op.async);
    FindAfterNote(k, op.dest, op.dest);
    NotedSigns(k, op.dest);
    QueueCallIs(k, op);
    hide After1, Inv, Noted, TryPost, Raises, Find, SameShape, Legal;
    TryPostSigns(Noted(k, op.dest), ChangeEvent(k, Find(k, op.dest)), op.dest, op.msg, op.delay, op.period, op.async, e);
  }

  lemma ReceiveSigns(k: Kernel, op: Op, e: nat)
    requires Inv(k) && Legal(k, op) && e < |k.signaledBy| && op.MsgReceive?
    ensures e < |After1(k, op).signaledBy|
    ensures e in Raises(k, op) ==> After1(k, op).signaledBy[e] == k.runningTid
    ensures e !in Raises(k, op) ==>
              After1(k, op).signaledBy[e] == k.signaledBy[e] || After1(k, op).signaledBy[e] == NO_TID
  {
    ReceiveRaises(k, op.owner, op.async);
    FindAfterNote(k, op.owner, op.owner);
    NotedSigns(k, op.owner);
    QueueCallIs(k, op);
    hide After1, Inv, Noted, TryReceive, Raises, Find, SameShape, Legal;
    TryReceiveSigns(Noted(k, op.owner), ChangeEvent(k, Find(k, op.owner)), op.owner, op.async, e);
  }

  lemma DispatchSigns(k: Kernel, e: nat)
    requires Inv(k) && Legal(k, Dispatch) && e < |k.signaledBy|
    ensures e < |After1(k, Dispatch).signaledBy|
    ensures e in Raises(k, Dispatch) ==> After1(k, Dispatch).signaledBy[e] == Select(k)
    ensures e !in Raises(k, Dispatch) ==>
              After1(k, Dispatch).signaledBy[e] == k.signaledBy[e] || After1(k, Dispatch).signaledBy[e] == NO_TID
  {
    InvKnowsEvents(k);
    DispatchRaises(k, e);
    ReadyIsSelected(k);
    if Select(k) != NO_TID && Retrying(k.tasks[Select(k)]) {
      RetrySigns(k, Select(k), e);
    }
  }

  lemma ShutMeans(k: Kernel, at: ResumePoint, q: nat)
    requires at.InPost? || at.InReceive?
    ensures Shut(k, at, q) <==>
            q < |k.queues| && if at.InPost? then Q.Full(k.queues[q]) else Q.AllDelayed(k.queues[q].msgs)
  {
  }

  lemma RetrySigns(k: Kernel, j: nat, e: nat)
    requires Inv(k) && Legal(k, Dispatch) && Select(k) == j < |k.tasks| && Retrying(k.tasks[j]) && e < |k.signaledBy|
    ensures e < |After1(k, Dispatch).signaledBy|
    ensures if QueueSignals(k, k.tasks[j].resume, e) then After1(k, Dispatch).signaledBy[e] == j
            else After1(k, Dispatch).signaledBy[e] == k.signaledBy[e] || After1(k, Dispatch).signaledBy[e] == NO_TID
  {
    var d, t := Dispatched(k), k.tasks[j];
    ReadyIsSelected(k);
    assert Parked(k, t);
    RetryIs(k, j);
    FoundQueue(k, d, Partner(t));
    ShutMeans(k, t.resume, Find(k, Partner(t)));
    var event := t.msgChangeEvent;
    assert d.signaledBy == k.signaledBy;
    hide After1, Inv, SameShape, Select, TryPost, TryReceive, Find, Dispatched, Shut, Q.Full, Q.AllDelayed, Owned, Legal;
    if t.resume.InPost? {
      TryPostSigns(d, event, t.resume.dest, t.resume.msg, t.resume.delay, t.resume.period, false, e);
    } else {
      TryReceiveSigns(d, event, t.resume.owner, false, e);
    }
  }

  lemma {:induction false} NobodySigns(k: Kernel, ops: seq<Op>, e: nat)
    requires Inv(k) && LegalRun(k, ops) && e < |k.signaledBy| && e !in RaisedIn(k, ops) && k.signaledBy[e] == NO_TID
    ensures e < |Run(k, ops).signaledBy| && Run(k, ops).signaledBy[e] == NO_TID
    decreases |ops|
  {
    hide After1, Raises;
    if ops != [] {
      SignallerIsRecorded(k, ops[0], e);
      NobodySigns(After1(k, ops[0]), ops[1..], e);
    }
  }

  /** event_signaling_taskId_get after a wait for event e: nobody, as long as e has not been
      signalled since the wait began, in particular when the wait timed out first. */
  lemma TimeoutShowsNoSignaller(k: Kernel, e: nat, n: uint32, ops: seq<Op>)
    requires Inv(k) && Legal(k, EventWait(e, n)) && e < k.nEvents
    requires LegalRun(After1(k, EventWait(e, n)), ops) && e !in RaisedIn(After1(k, EventWait(e, n)), ops)
    ensures var r := Run(After1(k, EventWait(e, n)), ops);
            e < |r.signaledBy| && r.signaledBy[e] == NO_TID
  {
    InvKnowsEvents(k);
    NobodySigns(After1(k, EventWait(e, n)), ops, e);
  }

  // ----- Setting up --------------------------------------------------------------------

  /** A new task has the prio of the call and is ready to start at the top of its procedure; with
      a pool it gets a queue of its own for one message less than the pool holds, with a new
      change event, and os_msgQ_find finds it. */
  lemma TaskIsCreated(k: Kernel, prio: uint8, poolSize: uint8)
    requires Inv(k) && Legal(k, CreateTask(prio, poolSize))
    ensures var r, j := After1(k, CreateTask(prio, poolSize)), |k.tasks|;
            && |r.tasks| == j + 1 && r.tasks[..j] == k.tasks
            && r.tasks[j].prio == prio && r.tasks[j].state == READY && r.tasks[j].resume == Top && r.tasks[j].waits == {}
            && if poolSize == 0 then r.queues == k.queues && r.tasks[j].msgQ == NO_QUEUE && r.nEvents == k.nEvents
               else
                 && r.tasks[j].msgQ == |k.queues| == Find(r, j) && r.nEvents == k.nEvents + 1
                 && r.queues == k.queues + [Q.Queue([], poolSize - 1, j, k.nEvents)]
  {
    InvKnowsEvents(k);
    EachTaskFindsItsQueue(After1(k, CreateTask(prio, poolSize)), |k.tasks|);
  }
}
