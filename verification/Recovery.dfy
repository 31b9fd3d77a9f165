// A poster and a receiver blocked on the same queue do not block each other for ever.
module Recovery {
  import opened Types
  import opened TaskSpec
  import opened TaskLife
  import opened KernelSpec
  import opened Steps
  import opened Projection
  import opened QueueProjection
  import opened Invariant
  import opened Runs
  import opened Wakeups
  import Q = QueueSpec

  /** The shortest time until a message of s expires. */
  function MinDelay(s: seq<Msg>): (d: nat)
    requires s != []
    ensures forall i | 0 <= i < |s| :: d <= s[i].delay
    ensures exists i | 0 <= i < |s| :: s[i].delay == d
  {
    if |s| == 1 then s[0].delay
    else
      var d := MinDelay(s[1..]);
      assert forall i | 1 <= i < |s| :: s[i] == s[1..][i - 1];
      if s[0].delay < d then s[0].delay
      else
        var i :| 0 <= i < |s[1..]| && s[1..][i].delay == d;
        assert s[i + 1].delay == d;
        d
  }

  lemma MinDelayTicks(s: seq<Msg>)
    requires s != [] && Q.AllDelayed(s)
    ensures MinDelay(Q.TickMsgs(s)) == MinDelay(s) - 1
    ensures MinDelay(s) == 1 ==> Q.Fires(s)
    ensures MinDelay(s) > 1 ==> Q.AllDelayed(Q.TickMsgs(s))
  {
    var r := Q.TickMsgs(s);
    var i :| 0 <= i < |s| && s[i].delay == MinDelay(s);
    var j :| 0 <= j < |r| && r[j].delay == MinDelay(r);
    assert r[i].delay == s[i].delay - 1 && r[j].delay == s[j].delay - 1;
  }

  function Ticks(n: nat): seq<Op> {
    if n == 0 then [] else [Tick] + Ticks(n - 1)
  }

  /** Blocked on event e and able to hear it, or already ready. */
  ghost predicate ReadyOrListening(t: Task, e: nat) {
    t.state == READY || (t.state == WAITING_EVENT && BlockedOn(t, e))
  }

  lemma TickOnListener(k: Kernel, j: nat, e: nat)
    requires Inv(k) && j < |k.tasks| && ReadyOrListening(k.tasks[j], e)
    ensures j < |After1(k, Tick).tasks| && ReadyOrListening(After1(k, Tick).tasks[j], e)
    ensures e in Raises(k, Tick) ==> After1(k, Tick).tasks[j].state == READY
  {
    var t, acts := k.tasks[j], ActionsOf(k, Tick, j);
    InvKnowsEvents(k);
    TaskStays(k, Tick, j);
    TickIsForeign(k, 0, 1, j);
    SignalsAreBroadcast(k, Tick, j);
    if t.state == READY {
      PassiveLeavesAwake(t, acts);
    } else {
      WaitAnyMeansAny(t, acts);
      assert e in Raises(k, Tick) ==> e in t.waits * Signalled(acts);
    }
  }

  lemma FiringTickIsSignalled(k: Kernel, q: nat)
    requires Inv(k) && q < |k.queues| && Q.Fires(k.queues[q].msgs)
    ensures k.queues[q].change in Raises(k, Tick)
  {
    hide TickActions;
    PassSignals(k, k.queues[q].owner, NO_TID);
    PassIsInTick(k, k.queues[q].owner, |k.tasks|, NO_TID, k.queues[q].change);
  }

  lemma TickOnQueue(k: Kernel, q: nat)
    requires Inv(k) && q < |k.queues|
    ensures q < |After1(k, Tick).queues|
    ensures After1(k, Tick).queues[q] == k.queues[q].(msgs := Q.TickMsgs(k.queues[q].msgs))
  {
    QueueStays(k, Tick, q);
    StepsOne(k.queues[q], Q.Tick);
  }

  /** A task listening to a queue of unexpired messages is ready after as many ticks as the
      first of them needs. */
  lemma {:induction false} ListenerWakes(k: Kernel, j: nat, q: nat, n: nat)
    requires Inv(k) && j < |k.tasks| && q < |k.queues| && k.queues[q].msgs != [] && Q.AllDelayed(k.queues[q].msgs)
    requires ReadyOrListening(k.tasks[j], k.queues[q].change) && n == MinDelay(k.queues[q].msgs)
    ensures LegalRun(k, Ticks(n)) && j < |Run(k, Ticks(n)).tasks| && Run(k, Ticks(n)).tasks[j].state == READY
    decreases n
  {
    hide After1, MinDelay, BlockedOn;
    var e, m := k.queues[q].change, After1(k, Tick);
    TickOnListener(k, j, e);
    TickOnQueue(k, q);
    MinDelayTicks(k.queues[q].msgs);
    if n == 1 {
      FiringTickIsSignalled(k, q);
      RunCons(k, Tick, []);
      assert Ticks(1) == [Tick] + [];
    } else {
      ListenerWakes(m, j, q, n - 1);
      RunCons(k, Tick, Ticks(n - 1));
    }
  }

  /** A poster and a receiver that are both blocked on queue q, neither having missed a signal
      while suspended: the queue is full of unexpired messages, and as soon as the first of
      them expires, both are ready. */
  lemma BlockedSidesRecover(w: Watched, poster: nat, receiver: nat, q: nat)
    requires WatchedInv(w) && NoLostWakeUp(w)
    requires poster < |w.k.tasks| && receiver < |w.k.tasks| && !w.missed[poster] && !w.missed[receiver]
    requires w.k.tasks[poster].state == WAITING_EVENT && w.k.tasks[poster].resume.InPost?
    requires w.k.tasks[receiver].state == WAITING_EVENT && w.k.tasks[receiver].resume.InReceive?
    requires q == Find(w.k, w.k.tasks[poster].resume.dest) == Find(w.k, w.k.tasks[receiver].resume.owner)
    ensures q < |w.k.queues|
    ensures Q.Full(w.k.queues[q]) && w.k.queues[q].msgs != [] && Q.AllDelayed(w.k.queues[q].msgs)
    ensures var ticks := Ticks(MinDelay(w.k.queues[q].msgs));
            && LegalRun(w.k, ticks)
            && poster < |Run(w.k, ticks).tasks| && Run(w.k, ticks).tasks[poster].state == READY
            && receiver < |Run(w.k, ticks).tasks| && Run(w.k, ticks).tasks[receiver].state == READY
  {
    assert Justified(w.k, w.k.tasks[poster]) && Justified(w.k, w.k.tasks[receiver]);
    assert Parked(w.k, w.k.tasks[poster]) && Parked(w.k, w.k.tasks[receiver]);
    var n := MinDelay(w.k.queues[q].msgs);
    ListenerWakes(w.k, poster, q, n);
    ListenerWakes(w.k, receiver, q, n);
  }
}
