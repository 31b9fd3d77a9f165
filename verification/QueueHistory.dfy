// Whole runs of one queue, with every accepted message named by the number of its post.
module QueueHistory {
  import opened Types
  import opened QueueSpec

  datatype PostRecord = PostRecord(msg: Msg, at: nat)
  datatype Delivery = Delivery(id: nat, at: nat)

  /** A queue together with what happened to it: ids[k] names msgs[k], now counts ticks,
      posts and log record every accepted post and every delivery. */
  datatype History = History(q: Queue, ids: seq<nat>, now: nat, posts: seq<PostRecord>, log: seq<Delivery>)

  function Start(q: Queue): History
    requires q.msgs == []
  {
    History(q, [], 0, [], [])
  }

  function Next(h: History, op: QueueOp): (r: History)
    requires |h.ids| == |h.q.msgs|
    ensures |r.ids| == |r.q.msgs|
    ensures r.q == Step(h.q, op)
  {
    var q' := Step(h.q, op);
    match op
    case Post(m) =>
      if Full(h.q) then h
      else h.(q := q', ids := h.ids + [|h.posts|], posts := h.posts + [PostRecord(m, h.now)])
    case Tick => h.(q := q', now := h.now + 1)
    case Receive =>
      var i := FirstReady(h.q.msgs);
      if i == |h.q.msgs| then h
      else
        h.(q := q',
        ids := Rotate(h.ids, i, PutBack(h.ids[i], h.q.msgs[i])),
        log := h.log + [Delivery(h.ids[i], h.now)])
  }

  function Run(h: History, ops: seq<QueueOp>): (r: History)
    requires |h.ids| == |h.q.msgs|
    ensures |r.ids| == |r.q.msgs|
    ensures r.q == Steps(h.q, ops)
    decreases |ops|
  {
    if ops == [] then h else Run(Next(h, ops[0]), ops[1..])
  }

  /** How often id was delivered. */
  function Deliveries(log: seq<Delivery>, id: nat): nat {
    if log == [] then 0 else Deliveries(log[..|log| - 1], id) + (if log[|log| - 1].id == id then 1 else 0)
  }

  /** When id was delivered last. */
  function LastDelivery(log: seq<Delivery>, id: nat): Option<nat> {
    if log == [] then None
    else if log[|log| - 1].id == id then Some(log[|log| - 1].at)
    else LastDelivery(log[..|log| - 1], id)
  }

  // ----- Conservation ------------------------------------------------------------------

  /** Ids name distinct accepted posts, and a stored message is the posted one up to its timer. */
  ghost predicate Named(h: History) {
    && |h.ids| == |h.q.msgs| <= h.q.cap
    && (forall i | 0 <= i < |h.ids| :: h.ids[i] < |h.posts|)
    && (forall i, j | 0 <= i < j < |h.ids| :: h.ids[i] != h.ids[j])
    && (forall i | 0 <= i < |h.ids| :: h.q.msgs[i] == h.posts[h.ids[i]].msg.(delay := h.q.msgs[i].delay))
    && (forall i | 0 <= i < |h.log| :: h.log[i].id < |h.posts|)
  }

  /** Every accepted one-shot message is stored or was delivered, exactly one of the two and
      exactly once; every accepted periodic message is stored. */
  ghost predicate Conserved(h: History) {
    forall id | 0 <= id < |h.posts| ::
      if h.posts[id].msg.reload > 0 then id in h.ids
      else Deliveries(h.log, id) == (if id in h.ids then 0 else 1)
  }

  lemma {:induction false} UndeliveredIds(log: seq<Delivery>, id: nat)
    requires forall i | 0 <= i < |log| :: log[i].id != id
    ensures Deliveries(log, id) == 0 && LastDelivery(log, id) == None
  {
    if log != [] {
      UndeliveredIds(log[..|log| - 1], id);
    }
  }

  lemma LogGrows(log: seq<Delivery>, d: Delivery, id: nat)
    ensures Deliveries(log + [d], id) == Deliveries(log, id) + (if d.id == id then 1 else 0)
    ensures LastDelivery(log + [d], id) == if d.id == id then Some(d.at) else LastDelivery(log, id)
  {
    assert (log + [d])[..|log|] == log;
  }

  /** Rotation changes no membership but that of the element it removes. */
  lemma RotateMembers(s: seq<nat>, i: nat, back: seq<nat>, x: nat)
    requires i < |s|
    requires forall a, b | 0 <= a < b < |s| :: s[a] != s[b]
    requires back == [] || back == [s[i]]
    ensures x != s[i] ==> (x in Rotate(s, i, back) <==> x in s)
    ensures s[i] in Rotate(s, i, back) <==> back != []
    ensures |Rotate(s, i, back)| == |s| - 1 + |back|
  {
    assert s == s[..i] + [s[i]] + s[i + 1..];
  }

  /** Where each position of the rotated sequence comes from. */
  function Origin(n: nat, i: nat, k: nat): nat
    requires i < n && k < n
  {
    if k < n - 1 - i then k + i + 1 else if k < n - 1 then k - (n - 1 - i) else i
  }

  lemma RotateAt<T>(s: seq<T>, i: nat, back: seq<T>, k: nat)
    requires i < |s| && |back| <= 1 && k < |s| - 1 + |back|
    ensures |Rotate(s, i, back)| == |s| - 1 + |back|
    ensures Rotate(s, i, back)[k] == if k < |s| - 1 then s[Origin(|s|, i, k)] else back[0]
  {
  }

  /** What a successful receive leaves at each position. */
  lemma ReceiveAt(h: History)
    requires |h.ids| == |h.q.msgs|
    requires !AllDelayed(h.q.msgs)
    ensures var r, n, i := Next(h, Receive), |h.ids|, FirstReady(h.q.msgs);
            && i < n && |r.ids| == (if h.q.msgs[i].reload > 0 then n else n - 1)
            && (forall k | 0 <= k < |r.ids| :: r.ids[k] == h.ids[Origin(n, i, k)])
            && (forall k | 0 <= k < |r.ids| ::
                  r.q.msgs[k] == if k < n - 1 then h.q.msgs[Origin(n, i, k)] else Delivered(h.q.msgs[i]))
  {
    var s, i := h.q.msgs, FirstReady(h.q.msgs);
    var backI, backM := PutBack(h.ids[i], s[i]), PutBack(Delivered(s[i]), s[i]);
    var r := Next(h, Receive);
    assert r.ids == Rotate(h.ids, i, backI) && r.q.msgs == Rotate(s, i, backM);
    forall k | 0 <= k < |r.ids|
      ensures r.ids[k] == h.ids[Origin(|s|, i, k)]
      ensures r.q.msgs[k] == if k < |s| - 1 then s[Origin(|s|, i, k)] else Delivered(s[i])
    {
      RotateAt(h.ids, i, backI, k);
      RotateAt(s, i, backM, k);
    }
  }

  lemma NamedNext(h: History, op: QueueOp)
    requires Named(h)
    ensures Named(Next(h, op))
  {
    if op.Receive? && !AllDelayed(h.q.msgs) {
      ReceiveNamed(h);
    }
  }

  lemma ReceiveKeepsNames(h: History)
    requires Named(h) && !AllDelayed(h.q.msgs)
    ensures var r := Next(h, Receive);
            forall k | 0 <= k < |r.ids| ::
              r.ids[k] < |r.posts| && r.q.msgs[k] == r.posts[r.ids[k]].msg.(delay := r.q.msgs[k].delay)
  {
    var r, n, i := Next(h, Receive), |h.ids|, FirstReady(h.q.msgs);
    ReceiveAt(h);
    forall k | 0 <= k < |r.ids|
      ensures r.ids[k] < |r.posts| && r.q.msgs[k] == r.posts[r.ids[k]].msg.(delay := r.q.msgs[k].delay)
    {
      var o := Origin(n, i, k);
      assert h.q.msgs[o] == h.posts[h.ids[o]].msg.(delay := h.q.msgs[o].delay);
    }
  }

  lemma ReceiveKeepsDistinct(h: History)
    requires Named(h) && !AllDelayed(h.q.msgs)
    ensures var r := Next(h, Receive); forall k, l | 0 <= k < l < |r.ids| :: r.ids[k] != r.ids[l]
  {
    var r, n, i := Next(h, Receive), |h.ids|, FirstReady(h.q.msgs);
    ReceiveAt(h);
    forall k, l | 0 <= k < l < |r.ids|
      ensures r.ids[k] != r.ids[l]
    {
      var o, p := Origin(n, i, k), Origin(n, i, l);
      assert o != p && h.ids[o] != h.ids[p];
    }
  }

  lemma ReceiveNamed(h: History)
    requires Named(h) && !AllDelayed(h.q.msgs)
    ensures Named(Next(h, Receive))
  {
    ReceiveAt(h);
    ReceiveKeepsNames(h);
    ReceiveKeepsDistinct(h);
  }

  lemma ConservedNext(h: History, op: QueueOp)
    requires Named(h) && Conserved(h)
    ensures Conserved(Next(h, op))
  {
    var r := Next(h, op);
    match op
    case Tick =>
    case Post(m) =>
      if !Full(h.q) {
        UndeliveredIds(h.log, |h.posts|);
        assert r.ids[|h.ids|] == |h.posts|;
        forall id | 0 <= id < |h.posts|
          ensures id in r.ids <==> id in h.ids
        {
        }
      }
    case Receive =>
      var i := FirstReady(h.q.msgs);
      if i < |h.q.msgs| {
        var d := Delivery(h.ids[i], h.now);
        forall id | 0 <= id < |r.posts|
          ensures if r.posts[id].msg.reload > 0 then id in r.ids
                  else Deliveries(r.log, id) == (if id in r.ids then 0 else 1)
        {
          RotateMembers(h.ids, i, PutBack(h.ids[i], h.q.msgs[i]), id);
          LogGrows(h.log, d, id);
        }
      }
  }

  // ----- Timing ------------------------------------------------------------------------

  function Remaining(total: nat, elapsed: int): nat {
    if elapsed >= total then 0 else if elapsed < 0 then total else total - elapsed
  }

  /** The timer a stored message must show: what is left of its posting delay until its first
      delivery, what is left of its period since its last one afterwards. */
  function DueIn(h: History, id: nat): nat
    requires id < |h.posts|
  {
    var p := h.posts[id];
    match LastDelivery(h.log, id)
    case None => Remaining(p.msg.delay, h.now - p.at)
    case Some(t) => Remaining(p.msg.reload, h.now - t)
  }

  ghost predicate OnTime(h: History) {
    && |h.ids| == |h.q.msgs|
    && (forall i | 0 <= i < |h.ids| :: h.ids[i] < |h.posts| ==> h.q.msgs[i].delay == DueIn(h, h.ids[i]))
    && (forall i | 0 <= i < |h.posts| :: h.posts[i].at <= h.now)
    && (forall i | 0 <= i < |h.log| :: h.log[i].at <= h.now)
  }

  /** No delivery before the posting delay has passed, and successive deliveries of one
      message at least its period apart. */
  ghost predicate NeverEarly(h: History) {
    && (forall i | 0 <= i < |h.log| && h.log[i].id < |h.posts| ::
          h.log[i].at >= h.posts[h.log[i].id].at + h.posts[h.log[i].id].msg.delay)
    && (forall i, j | 0 <= i < j < |h.log| && h.log[i].id == h.log[j].id && h.log[j].id < |h.posts| ::
          h.log[j].at >= h.log[i].at + h.posts[h.log[j].id].msg.reload)
  }

  lemma {:induction false} LastDeliveryIs(log: seq<Delivery>, id: nat, i: nat)
    requires i < |log| && log[i].id == id
    ensures LastDelivery(log, id).Some?
    ensures exists j | i <= j < |log| :: log[j].id == id && LastDelivery(log, id) == Some(log[j].at)
  {
    if log[|log| - 1].id != id {
      LastDeliveryIs(log[..|log| - 1], id, i);
      var j :| i <= j < |log| - 1 && log[..|log| - 1][j].id == id && LastDelivery(log, id) == Some(log[..|log| - 1][j].at);
      assert log[j].id == id;
    }
  }

  lemma {:induction false} LastDeliveryIn(log: seq<Delivery>, id: nat)
    requires LastDelivery(log, id).Some?
    ensures exists j | 0 <= j < |log| :: log[j].id == id && LastDelivery(log, id) == Some(log[j].at)
  {
    if log[|log| - 1].id != id {
      LastDeliveryIn(log[..|log| - 1], id);
      var j :| 0 <= j < |log| - 1 && log[..|log| - 1][j].id == id && LastDelivery(log, id) == Some(log[..|log| - 1][j].at);
      assert log[j].id == id;
    } else {
      assert log[|log| - 1].id == id;
    }
  }

  lemma TickOnTime(h: History)
    requires Named(h) && OnTime(h)
    ensures OnTime(Next(h, Tick))
  {
    var r := Next(h, Tick);
    forall i | 0 <= i < |r.ids|
      ensures r.q.msgs[i].delay == DueIn(r, r.ids[i])
    {
      var id := h.ids[i];
      assert h.q.msgs[i].delay == DueIn(h, id);
      if LastDelivery(h.log, id).Some? {
        LastDeliveryIn(h.log, id);
      }
    }
  }

  lemma ReceiveOnTimeAt(h: History, k: nat)
    requires Named(h) && OnTime(h) && !AllDelayed(h.q.msgs) && k < |Next(h, Receive).ids|
    ensures var r := Next(h, Receive); r.ids[k] < |r.posts| && r.q.msgs[k].delay == DueIn(r, r.ids[k])
  {
    var n, i := |h.ids|, FirstReady(h.q.msgs);
    ReceiveAt(h);
    var o := Origin(n, i, k);
    LogGrows(h.log, Delivery(h.ids[i], h.now), h.ids[o]);
    assert h.q.msgs[o].delay == DueIn(h, h.ids[o]);
    if o != i {
      assert h.ids[o] != h.ids[i];
    } else {
      assert k == n - 1;
    }
  }

  lemma ReceiveOnTime(h: History)
    requires Named(h) && OnTime(h) && !AllDelayed(h.q.msgs)
    ensures OnTime(Next(h, Receive))
  {
    forall k | 0 <= k < |Next(h, Receive).ids| {
      ReceiveOnTimeAt(h, k);
    }
  }

  lemma OnTimeNext(h: History, op: QueueOp)
    requires Named(h) && OnTime(h)
    ensures OnTime(Next(h, op))
  {
    match op
    case Tick =>
      TickOnTime(h);
    case Post(m) =>
      if !Full(h.q) {
        UndeliveredIds(h.log, |h.posts|);
      }
    case Receive =>
      if !AllDelayed(h.q.msgs) {
        ReceiveOnTime(h);
      }
  }

  lemma DueDeliveryIsNotEarly(h: History, id: nat, j: nat)
    requires id < |h.posts| && j < |h.log| && h.log[j].id == id
    requires OnTime(h) && NeverEarly(h) && DueIn(h, id) == 0
    ensures h.now >= h.log[j].at + h.posts[id].msg.reload
    ensures h.now >= h.posts[id].at + h.posts[id].msg.delay
  {
    LastDeliveryIs(h.log, id, j);
    var l :| j <= l < |h.log| && h.log[l].id == id && LastDelivery(h.log, id) == Some(h.log[l].at);
    assert h.log[l].at >= h.log[j].at;
  }

  lemma DueFirstDeliveryIsNotEarly(h: History, id: nat)
    requires id < |h.posts| && OnTime(h) && NeverEarly(h) && DueIn(h, id) == 0
    ensures h.now >= h.posts[id].at + h.posts[id].msg.delay
  {
    if LastDelivery(h.log, id).Some? {
      LastDeliveryIn(h.log, id);
      var j :| 0 <= j < |h.log| && h.log[j].id == id && LastDelivery(h.log, id) == Some(h.log[j].at);
      DueDeliveryIsNotEarly(h, id, j);
    }
  }

  lemma NeverEarlyNext(h: History, op: QueueOp)
    requires Named(h) && OnTime(h) && NeverEarly(h)
    ensures NeverEarly(Next(h, op))
  {
    var i := FirstReady(h.q.msgs);
    if op.Receive? && i < |h.q.msgs| {
      var id := h.ids[i];
      var r := Next(h, op);
      assert r.posts == h.posts && r.log == h.log + [Delivery(id, h.now)];
      assert DueIn(h, id) == 0;
      DueFirstDeliveryIsNotEarly(h, id);
      forall j | 0 <= j < |h.log| && h.log[j].id == id
        ensures h.now >= h.log[j].at + h.posts[id].msg.reload
      {
        DueDeliveryIsNotEarly(h, id, j);
      }
    }
  }

  /** Conservation and timing after every run of posts, ticks and receives on a new queue. */
  ghost predicate Accounted(h: History) {
    Named(h) && Conserved(h) && OnTime(h) && NeverEarly(h)
  }

  lemma {:induction false} RunAccounted(h: History, ops: seq<QueueOp>)
    requires Accounted(h)
    ensures Accounted(Run(h, ops))
    decreases |ops|
  {
    if ops != [] {
      NamedNext(h, ops[0]);
      ConservedNext(h, ops[0]);
      OnTimeNext(h, ops[0]);
      NeverEarlyNext(h, ops[0]);
      RunAccounted(Next(h, ops[0]), ops[1..]);
    }
  }

  /** A one-shot message is delivered at most once, a stored one only after its delay, and
      what is stored never exceeds the capacity. */
  lemma EveryRunIsAccounted(q: Queue, ops: seq<QueueOp>)
    requires q.msgs == []
    ensures Accounted(Run(Start(q), ops))
  {
    RunAccounted(Start(q), ops);
  }

  // ----- Order -------------------------------------------------------------------------

  /** Messages a and b are both stored and expired, a in front of b. */
  ghost predicate ReadyBefore(h: History, a: nat, b: nat) {
    exists i, j | 0 <= i < j < |h.ids| :: ReadyPair(h, i, j, a, b)
  }

  ghost predicate ReadyPair(h: History, i: nat, j: nat, a: nat, b: nat) {
    && i < j < |h.ids| == |h.q.msgs|
    && h.ids[i] == a && h.ids[j] == b && h.q.msgs[i].delay == 0 && h.q.msgs[j].delay == 0
  }

  /** One step either delivers a, or keeps the pair expired and in order without delivering b. */
  ghost predicate KeepsOrder(h: History, r: History, a: nat, b: nat) {
    || (|r.log| == |h.log| + 1 && r.log[|h.log|].id == a)
    || (ReadyBefore(r, a, b) && forall k | |h.log| <= k < |r.log| :: r.log[k].id != b)
  }

  lemma ReceiveKeepsOrder(h: History, i: nat, j: nat, a: nat, b: nat)
    requires Named(h) && ReadyPair(h, i, j, a, b)
    ensures KeepsOrder(h, Next(h, Receive), a, b)
  {
    var s, f, n := h.q.msgs, FirstReady(h.q.msgs), |h.ids|;
    assert f <= i;
    ReceiveAt(h);
    if f < i {
      var i', j' := i - (f + 1), j - (f + 1);
      assert Origin(n, f, i') == i && Origin(n, f, j') == j;
      assert ReadyPair(Next(h, Receive), i', j', a, b);
      assert h.ids[f] != h.ids[j];
    }
  }

  lemma ReadyBeforeNext(h: History, op: QueueOp, a: nat, b: nat)
    requires Named(h) && ReadyBefore(h, a, b)
    ensures a != b && h.log <= Next(h, op).log
    ensures KeepsOrder(h, Next(h, op), a, b)
  {
    var i, j :| 0 <= i < j < |h.ids| && ReadyPair(h, i, j, a, b);
    if op.Receive? {
      ReceiveKeepsOrder(h, i, j, a, b);
    } else {
      assert ReadyPair(Next(h, op), i, j, a, b);
    }
  }

  /** a is delivered in log[from..], and no b before it. */
  ghost predicate DeliveredFirst(log: seq<Delivery>, from: nat, a: nat, b: nat) {
    exists k | from <= k < |log| :: log[k].id == a && forall l | from <= l < k :: log[l].id != b
  }

  /** Two messages that are both expired at some moment are delivered in the order they then
      have, whatever posts, ticks and receives follow: if b is delivered at all, a is
      delivered before it. */
  lemma {:induction false} ReadyMessagesAreFifo(h: History, ops: seq<QueueOp>, a: nat, b: nat)
    requires Named(h) && ReadyBefore(h, a, b)
    ensures h.log <= Run(h, ops).log
    ensures (exists k | |h.log| <= k < |Run(h, ops).log| :: Run(h, ops).log[k].id == b)
              ==> DeliveredFirst(Run(h, ops).log, |h.log|, a, b)
    decreases |ops|
  {
    if ops != [] {
      var m := Next(h, ops[0]);
      ReadyBeforeNext(h, ops[0], a, b);
      NamedNext(h, ops[0]);
      LogOnlyGrows(m, ops[1..]);
      var log := Run(h, ops).log;
      if |m.log| == |h.log| + 1 && m.log[|h.log|].id == a {
        assert log[|h.log|].id == a;
      } else {
        ReadyMessagesAreFifo(m, ops[1..], a, b);
        assert forall k | 0 <= k < |m.log| :: log[k] == m.log[k];
      }
    }
  }

  lemma {:induction false} LogOnlyGrows(h: History, ops: seq<QueueOp>)
    requires |h.ids| == |h.q.msgs|
    ensures h.log <= Run(h, ops).log
    decreases |ops|
  {
    if ops != [] {
      LogOnlyGrows(Next(h, ops[0]), ops[1..]);
    }
  }

  function LogIds(log: seq<Delivery>): (r: seq<nat>)
    ensures |r| == |log|
    ensures forall i | 0 <= i < |log| :: r[i] == log[i].id
  {
    seq(|log|, i requires 0 <= i < |log| => log[i].id)
  }

  function Iota(n: nat): (r: seq<nat>)
    ensures |r| == n
    ensures forall i | 0 <= i < n :: r[i] == i
  {
    seq(n, i requires 0 <= i < n => i)
  }

  predicate Plain(op: QueueOp) {
    op.Post? ==> op.msg.delay == 0 && op.msg.reload == 0
  }

  /** With plain messages only, the queue is an exact bounded FIFO: what was delivered
      followed by what is stored is every accepted message in posting order. */
  lemma {:induction false} PlainQueueIsFifo(h: History, ops: seq<QueueOp>)
    requires Named(h) && forall i | 0 <= i < |h.q.msgs| :: h.q.msgs[i].delay == 0 && h.q.msgs[i].reload == 0
    requires forall op | op in ops :: Plain(op)
    requires LogIds(h.log) + h.ids == Iota(|h.posts|)
    ensures LogIds(Run(h, ops).log) + Run(h, ops).ids == Iota(|Run(h, ops).posts|)
    decreases |ops|
  {
    if ops != [] {
      var m := Next(h, ops[0]);
      NamedNext(h, ops[0]);
      assert Plain(ops[0]);
      if ops[0].Receive? && h.ids != [] {
        assert FirstReady(h.q.msgs) == 0;
        assert LogIds(m.log) + m.ids == LogIds(h.log) + h.ids;
      } else if ops[0].Post? && !Full(h.q) {
        assert LogIds(m.log) + m.ids == (LogIds(h.log) + h.ids) + [|h.posts|];
      }
      PlainQueueIsFifo(m, ops[1..]);
    }
  }
}
