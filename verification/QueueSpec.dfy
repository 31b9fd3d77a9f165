// The message queue as a bounded sequence of messages, oldest slot first.
module QueueSpec {
  import opened Types

  datatype Queue = Queue(msgs: seq<Msg>, cap: nat, owner: nat, change: nat)

  predicate AllDelayed(s: seq<Msg>) {
    forall i | 0 <= i < |s| :: s[i].delay > 0
  }

  /** Index of the first expired message, |s| when there is none. */
  function FirstReady(s: seq<Msg>): (i: nat)
    ensures i <= |s|
    ensures forall j | 0 <= j < i :: s[j].delay > 0
    ensures i < |s| ==> s[i].delay == 0
    ensures i == |s| <==> AllDelayed(s)
  {
    if s == [] || s[0].delay == 0 then 0
    else
      assert forall j | 0 < j < |s| :: s[j] == s[1..][j - 1];
      1 + FirstReady(s[1..])
  }

  /** The expired message as the receiver sees it: a periodic one already re-armed. */
  function Delivered(m: Msg): Msg {
    if m.reload > 0 then m.(delay := m.reload) else m
  }

  /** What delivering m puts back: itself when periodic, nothing when one-shot. */
  function PutBack<T>(x: T, m: Msg): seq<T> {
    if m.reload > 0 then [x] else []
  }

  /** Position i leaves, what was behind it moves to the front, what was ahead to the back. */
  function Rotate<T>(s: seq<T>, i: nat, back: seq<T>): seq<T>
    requires i < |s|
  {
    s[i + 1..] + s[..i] + back
  }

  function ReceiveMsgs(s: seq<Msg>): seq<Msg> {
    var i := FirstReady(s);
    if i == |s| then s else Rotate(s, i, PutBack(Delivered(s[i]), s[i]))
  }

  function TickMsg(m: Msg): Msg {
    if m.delay > 0 then m.(delay := m.delay - 1) else m
  }

  function TickMsgs(s: seq<Msg>): (r: seq<Msg>)
    ensures |r| == |s|
    ensures forall i | 0 <= i < |s| :: r[i] == TickMsg(s[i])
  {
    seq(|s|, i requires 0 <= i < |s| => TickMsg(s[i]))
  }

  /** Some stored message expires at the next tick. */
  predicate Fires(s: seq<Msg>) {
    exists i | 0 <= i < |s| :: s[i].delay == 1
  }

  datatype QueueOp = Post(msg: Msg) | Tick | Receive

  predicate Full(q: Queue) {
    |q.msgs| >= q.cap
  }

  function Step(q: Queue, op: QueueOp): Queue {
    match op
    case Post(m) => if Full(q) then q else q.(msgs := q.msgs + [m])
    case Tick => q.(msgs := TickMsgs(q.msgs))
    case Receive => q.(msgs := ReceiveMsgs(q.msgs))
  }

  function Steps(q: Queue, ops: seq<QueueOp>): Queue
    decreases |ops|
  {
    if ops == [] then q else Steps(Step(q, ops[0]), ops[1..])
  }

  lemma {:induction false} StepsConcat(q: Queue, a: seq<QueueOp>, b: seq<QueueOp>)
    ensures Steps(q, a + b) == Steps(Steps(q, a), b)
    decreases |a|
  {
    if a == [] {
      assert a + b == b;
    } else {
      assert (a + b)[0] == a[0] && (a + b)[1..] == a[1..] + b;
      StepsConcat(Step(q, a[0]), a[1..], b);
    }
  }

  /** The expired messages, in queue order. */
  function Ready(s: seq<Msg>): seq<Msg> {
    if s == [] then []
    else (if s[0].delay == 0 then [s[0]] else []) + Ready(s[1..])
  }

  lemma {:induction false} ReadyConcat(a: seq<Msg>, b: seq<Msg>)
    ensures Ready(a + b) == Ready(a) + Ready(b)
  {
    if a == [] {
      assert a + b == b;
    } else {
      var (x, y) := (Ready(a[1..]), Ready(b));
      assert (a + b)[0] == a[0] && (a + b)[1..] == a[1..] + b;
      ReadyConcat(a[1..], b);
      assert ([a[0]] + x) + y == [a[0]] + (x + y) && ([] + x) + y == [] + (x + y);
    }
  }

  lemma {:induction false} ReadyOfDelayed(s: seq<Msg>)
    requires AllDelayed(s)
    ensures Ready(s) == []
  {
    if s != [] {
      ReadyOfDelayed(s[1..]);
    }
  }

  lemma ReadyAround(ahead: seq<Msg>, m: Msg, behind: seq<Msg>)
    requires AllDelayed(ahead) && m.delay == 0
    ensures Ready(ahead + [m] + behind) == [m] + Ready(behind)
  {
    ReadyOfDelayed(ahead);
    ReadyConcat(ahead, [m]);
    ReadyConcat(ahead + [m], behind);
    assert Ready([m]) == [m] + Ready([m][1..]) && [m][1..] == [];
  }

  lemma ReadyBehind(behind: seq<Msg>, ahead: seq<Msg>, back: seq<Msg>)
    requires AllDelayed(ahead) && AllDelayed(back)
    ensures Ready(behind + ahead + back) == Ready(behind)
  {
    ReadyOfDelayed(ahead);
    ReadyOfDelayed(back);
    ReadyConcat(behind, ahead);
    ReadyConcat(behind + ahead, back);
  }

  /** The messages before and after a receive of the expired message at position i, with what
      it puts back. */
  lemma ReceiveSplits(s: seq<Msg>)
    requires !AllDelayed(s)
    ensures var i := FirstReady(s);
            var back := PutBack(Delivered(s[i]), s[i]);
            && s == s[..i] + [s[i]] + s[i + 1..] && ReceiveMsgs(s) == s[i + 1..] + s[..i] + back
            && AllDelayed(s[..i]) && s[i].delay == 0 && AllDelayed(back)
  {
  }

  /** A receive takes the oldest expired message and nothing else: the expired
      subsequence loses exactly its head. */
  lemma ReceiveTakesFirstReady(s: seq<Msg>)
    requires !AllDelayed(s)
    ensures Ready(s) == [s[FirstReady(s)]] + Ready(ReceiveMsgs(s))
  {
    hide Ready, FirstReady, Delivered, ReceiveMsgs, PutBack, AllDelayed;
    ReceiveSplits(s);
    var i := FirstReady(s);
    var ahead, m, behind, back := s[..i], s[i], s[i + 1..], PutBack(Delivered(s[i]), s[i]);
    calc {
      Ready(s);
      Ready(ahead + [m] + behind);
      { ReadyAround(ahead, m, behind); }
      [m] + Ready(behind);
      { ReadyBehind(behind, ahead, back); }
      [m] + Ready(behind + ahead + back);
      [m] + Ready(ReceiveMsgs(s));
    }
  }
}
