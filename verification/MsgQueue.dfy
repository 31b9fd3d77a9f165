// os_msgqueue.c: one message queue, a circular buffer of fixed-size messages.
module MsgQueues {
  import opened Types
  import opened QueueSpec
  import opened MessageBytes

  /** x modulo size for the one lap an index can be ahead. */
  function Wrap(x: nat, size: nat): nat
    requires x < 2 * size
  {
    if x >= size then x - size else x
  }

  lemma ModuloIsWrap(x: nat, size: nat)
    requires x < 2 * size
    ensures x % size == Wrap(x, size)
  {
    if x >= size {
      assert x % size == (x - size) % size;
    }
  }

  /** The index after i in a buffer of size slots: (i + 1) % size. */
  method Next(i: nat, size: nat) returns (r: nat)
    requires i < size
    ensures r == Wrap(i + 1, size)
  {
    ModuloIsWrap(i + 1, size);
    r := (i + 1) % size;
  }

  /** The k-th occupied slot. */
  function At(tail: nat, k: nat, size: nat): nat
    requires tail < size && k < size
  {
    Wrap(tail + 1 + k, size)
  }

  /** Number of occupied slots: those after tail and before head; head == tail means full. */
  function Count(head: nat, tail: nat, size: nat): nat
    requires head < size && tail < size
  {
    if head > tail then head - tail - 1 else head + size - tail - 1
  }

  /** The occupied slots hold exactly these messages, oldest first. */
  ghost predicate Ring(slots: seq<Msg>, head: nat, tail: nat, contents: seq<Msg>) {
    && head < |slots| && tail < |slots|
    && |contents| == Count(head, tail, |slots|)
    && forall k | 0 <= k < |contents| :: slots[At(tail, k, |slots|)] == contents[k]
  }

  /** Walking the occupied slots: one step further is the next message, and head comes right
      after the last one. */
  lemma NextSlot(slots: seq<Msg>, head: nat, tail: nat, contents: seq<Msg>, n: nat)
    requires Ring(slots, head, tail, contents) && n <= |contents|
    ensures At(tail, n, |slots|) < |slots|
    ensures n < |contents| ==> Wrap(At(tail, n, |slots|) + 1, |slots|) == At(tail, n + 1, |slots|)
    ensures At(tail, n, |slots|) == head <==> n == |contents|
    ensures Wrap(tail + 1, |slots|) == At(tail, 0, |slots|)
  {
  }

  /** head and tail as os_msgQ_create leaves them are indices of an empty ring exactly from
      two messages up; os_task_create only asks for one. */
  lemma CreatedRingIsEmptyIffSizeAtLeastTwo(slots: seq<Msg>)
    ensures Ring(slots, 1, 0, []) <==> |slots| >= 2
  {
  }

  lemma RingPush(slots: seq<Msg>, head: nat, tail: nat, contents: seq<Msg>, m: Msg)
    requires Ring(slots, head, tail, contents) && head != tail
    ensures |contents| < |slots| - 1
    ensures Ring(slots[head := m], Wrap(head + 1, |slots|), tail, contents + [m])
  {
  }

  lemma RingPop(slots: seq<Msg>, head: nat, tail: nat, contents: seq<Msg>)
    requires Ring(slots, head, tail, contents) && contents != []
    ensures slots[Wrap(tail + 1, |slots|)] == contents[0]
    ensures head != Wrap(tail + 1, |slots|)
    ensures Ring(slots, head, Wrap(tail + 1, |slots|), contents[1..])
  {
    assert At(tail, 0, |slots|) == Wrap(tail + 1, |slots|);
  }

  lemma RingUpdate(slots: seq<Msg>, head: nat, tail: nat, contents: seq<Msg>, k: nat, m: Msg)
    requires Ring(slots, head, tail, contents) && k < |contents|
    ensures Ring(slots[At(tail, k, |slots|) := m], head, tail, contents[k := m])
  {
  }

  /** What one pass over message m puts back. */
  function AfterPass(m: Msg): seq<Msg> {
    if m.delay == 0 then PutBack(Delivered(m), m) else [m]
  }

  lemma TailOfRotation<T>(s: seq<T>, i: nat)
    requires i < |s|
    ensures (s[i..] + s[..i])[0] == s[i]
    ensures (s[i..] + s[..i])[1..] == s[i + 1..] + s[..i]
  {
  }

  /** After `steps` passes the unexpired messages met so far sit behind the others: the next
      pass moves one more of them, */
  lemma DelayedPass(s: seq<Msg>, steps: nat, current: seq<Msg>)
    requires steps < FirstReady(s) && current == s[steps..] + s[..steps]
    ensures current[0] == s[steps] && s[steps].delay > 0
    ensures current[1..] + AfterPass(s[steps]) == s[steps + 1..] + s[..steps + 1]
  {
    TailOfRotation(s, steps);
    var m, ahead, behind := s[steps], s[..steps], s[steps + 1..];
    assert ahead + [m] == s[..steps + 1];
    assert (behind + ahead) + [m] == behind + (ahead + [m]);
  }

  /** or completes the receive. */
  lemma LastPass(s: seq<Msg>, steps: nat, current: seq<Msg>)
    requires steps == FirstReady(s) < |s| && current == s[steps..] + s[..steps]
    ensures current[0] == s[steps] && s[steps].delay == 0
    ensures current[1..] + AfterPass(s[steps]) == ReceiveMsgs(s)
  {
    TailOfRotation(s, steps);
    assert ReceiveMsgs(s) == Rotate(s, steps, AfterPass(s[steps]));
  }

  class MsgQueue {
    const list: array<uint8>
    const messageSize: nat
    const size: nat
    const taskId: nat
    const change: nat
    var head: nat
    var tail: nat
    ghost var slots: seq<Msg>
    ghost var contents: seq<Msg>

    /** The flat buffer is an array of messages. */
    ghost predicate Stored()
      reads this, list
    {
      && HEADER_SIZE <= messageSize && 2 <= size <= 255
      && list.Length == size * messageSize
      && |slots| == size
      && forall i | 0 <= i < size :: slots[i] == Decode(Slot(list[..], size, messageSize, i))
    }

    ghost predicate Valid()
      reads this, list
    {
      Stored() && Ring(slots, head, tail, contents)
    }

    ghost function View(): Queue
      reads this
      requires size > 0
    {
      Queue(contents, size - 1, taskId, change)
    }

    /** os_msgQ_create's record for a buffer of nMessages messages. */
    constructor (buffer: array<uint8>, nMessages: nat, msgSize: nat, task: nat, event: nat)
      requires 2 <= nMessages <= 255 && HEADER_SIZE <= msgSize && buffer.Length == nMessages * msgSize
      ensures Valid() && list == buffer && messageSize == msgSize
      ensures View() == Queue([], nMessages - 1, task, event)
    {
      list := buffer;
      head, tail := 1, 0;
      size := nMessages;
      messageSize := msgSize;
      taskId := task;
      change := event;
      contents := [];
      slots := seq(nMessages, i requires 0 <= i < nMessages => Decode(Slot(old(buffer[..]), nMessages, msgSize, i)));
    }

    method CopyOut(i: nat, msg: array<uint8>)
      requires Stored() && i < size && msg.Length == messageSize && msg != list
      modifies msg
      ensures msg[..] == Slot(list[..], size, messageSize, i)
      ensures Decode(msg[..]) == slots[i]
    {
      SlotBounds(size, messageSize, i);
      CopyBytes(list, i * messageSize, msg, 0, messageSize);
      assert msg[..] == msg[0..0 + messageSize];
    }

    method CopyIn(i: nat, msg: array<uint8>)
      requires Stored() && i < size && msg.Length == messageSize && msg != list
      modifies list, `slots
      ensures Stored() && slots == old(slots)[i := Decode(msg[..])]
    {
      SlotBounds(size, messageSize, i);
      ghost var was := list[..];
      CopyBytes(msg, 0, list, i * messageSize, messageSize);
      slots := slots[i := Decode(msg[..])];
      assert Slot(list[..], size, messageSize, i) == msg[..];
      forall j | 0 <= j < size && j != i
        ensures Slot(list[..], size, messageSize, j) == Slot(was, size, messageSize, j)
      {
        OtherSlotsUntouched(was, list[..], size, messageSize, i, 0, messageSize, j);
      }
    }

    /** queue_push: the message goes to the free slot at head; head == tail is a full queue. */
    method Push(msg: array<uint8>) returns (r: QueueResult)
      requires Valid() && msg.Length == messageSize && msg != list
      modifies list, `head, `slots, `contents
      ensures Valid()
      ensures r == (if old(Full(View())) then FULL else POSTED)
      ensures View() == Step(old(View()), QueueSpec.Post(Decode(msg[..])))
    {
      if head == tail {
        return FULL;
      }
      RingPush(slots, head, tail, contents, Decode(msg[..]));
      CopyIn(head, msg);
      head := Next(head, size);
      contents := contents + [Decode(msg[..])];
      return POSTED;
    }

    /** os_msg_post on this queue: delay and period are written into the caller's message,
        which is then pushed. */
    method Post(msg: array<uint8>, delay: uint32, period: uint32) returns (r: QueueResult)
      requires Valid() && msg.Length == messageSize && msg != list
      modifies msg, list, `head, `slots, `contents
      ensures Valid()
      ensures Decode(msg[..]) == old(Decode(msg[..])).(delay := delay, reload := period)
      ensures r == (if old(Full(View())) then FULL else POSTED)
      ensures View() == Step(old(View()), QueueSpec.Post(old(Decode(msg[..])).(delay := delay, reload := period)))
    {
      assert msg[0..0 + messageSize] == msg[..];
      SetDelay(msg, 0, messageSize, delay);
      SetReload(msg, 0, messageSize, period);
      assert msg[0..0 + messageSize] == msg[..];
      r := Push(msg);
    }

    /** MsgQAllDelayed: 1 exactly when no stored message has expired. */
    method MsgQAllDelayed() returns (result: nat)
      requires Valid()
      ensures result == if AllDelayed(contents) then 1 else 0
    {
      var nextMessage := Next(tail, size);
      ghost var k := 0;
      while nextMessage != head
        invariant k <= |contents| && nextMessage == At(tail, k, size)
        invariant forall j | 0 <= j < k :: contents[j].delay > 0
        decreases |contents| - k
      {
        var delay := DelayAt(nextMessage);
        if delay == 0 {
          return 0;
        }
        nextMessage := Next(nextMessage, size);
        k := k + 1;
      }
      result := 1;
    }

    /** Reading pMsg->delay in place. */
    method DelayAt(i: nat) returns (delay: uint32)
      requires Stored() && i < size
      ensures delay == slots[i].delay
    {
      SlotBounds(size, messageSize, i);
      delay := Load32(list, i * messageSize + 4);
      assert Slot(list[..], size, messageSize, i)[4..8] == list[i * messageSize + 4..i * messageSize + 8];
    }

    /** Writing pMsg->delay in place. */
    method SetDelayAt(i: nat, delay: uint32)
      requires Stored() && i < size
      modifies list, `slots
      ensures Stored() && slots == old(slots)[i := old(slots)[i].(delay := delay)]
    {
      SlotBounds(size, messageSize, i);
      ghost var was := list[..];
      SetDelay(list, i * messageSize, messageSize, delay);
      slots := slots[i := slots[i].(delay := delay)];
      assert Slot(list[..], size, messageSize, i) == list[i * messageSize..i * messageSize + messageSize];
      forall j | 0 <= j < size && j != i
        ensures Slot(list[..], size, messageSize, j) == Slot(was, size, messageSize, j)
      {
        OtherSlotsUntouched(was, list[..], size, messageSize, i, 4, 4, j);
      }
    }

    /** One pass of os_msgQ_tick over occupied slot i, the n-th: counts its timer down and
        says whether it has just reached zero. */
    method CountDown(i: nat, ghost n: nat) returns (expired: bool)
      requires Valid() && n < |contents| && i == At(tail, n, size)
      modifies list, `slots, `contents
      ensures Valid() && contents == old(contents)[n := TickMsg(old(contents)[n])]
      ensures expired == (old(contents)[n].delay == 1)
    {
      var delay := DelayAt(i);
      RingUpdate(slots, head, tail, contents, n, TickMsg(contents[n]));
      expired := false;
      if delay > 0 {
        SetDelayAt(i, delay - 1);
        expired := delay - 1 == 0;
      }
      contents := contents[n := TickMsg(contents[n])];
    }

    /** os_msg_receive on this queue. Unexpired messages ahead of the first expired one are
        moved behind head one by one while the stored tail stays where it was; steps counts
        the passes of that loop. */
    method Receive(msg: array<uint8>) returns (r: QueueResult, ghost steps: nat)
      requires Valid() && msg.Length == messageSize && msg != list
      modifies msg, list, `head, `tail, `slots, `contents
      ensures Valid()
      ensures View() == Step(old(View()), QueueSpec.Receive)
      ensures r == if old(AllDelayed(contents)) then EMPTY else RECEIVED
      ensures r == EMPTY ==> steps == 0 && msg[..] == old(msg[..]) && list[..] == old(list[..])
      ensures r == RECEIVED ==> steps == FirstReady(old(contents)) + 1 && steps <= old(|contents|)
      ensures r == RECEIVED ==> Decode(msg[..]) == Delivered(old(contents)[FirstReady(old(contents))])
    {
      var first := Next(tail, size);
      if first == head {
        return EMPTY, 0;
      }
      var allDelayed := MsgQAllDelayed();
      if allDelayed == 1 {
        return EMPTY, 0;
      }
      steps := FindFirstReady(msg);
      return RECEIVED, steps;
    }

    /** The loop of os_msg_receive, reached when some stored message has expired. */
    method FindFirstReady(msg: array<uint8>) returns (ghost steps: nat)
      requires Valid() && msg.Length == messageSize && msg != list
      requires !AllDelayed(contents)
      modifies msg, list, `head, `tail, `slots, `contents
      ensures Valid() && contents == ReceiveMsgs(old(contents))
      ensures steps == FirstReady(old(contents)) + 1
      ensures Decode(msg[..]) == Delivered(old(contents)[FirstReady(old(contents))])
    {
      hide FirstReady, ReceiveMsgs, AfterPass;
      var last: nat := tail;
      ghost var s := contents;
      ghost var first := FirstReady(s);
      ghost var current := s;
      var found := false;
      steps := 0;
      while !found
        invariant Stored()
        invariant !found ==> steps <= first && current == s[steps..] + s[..steps]
        invariant found ==> steps == first + 1 && current == ReceiveMsgs(s)
        invariant found ==> Decode(msg[..]) == Delivered(s[first])
        invariant last < size && Ring(slots, head, last, current)
        decreases first + 1 - steps
      {
        if steps < first {
          DelayedPass(s, steps, current);
        } else {
          LastPass(s, steps, current);
        }
        last, found := Pass(msg, last, current);
        current := current[1..] + AfterPass(current[0]);
        steps := steps + 1;
      }
      tail := last;
      contents := current;
    }

    /** One pass of the receive loop: the next slot is copied out, then copied back behind
        head unless it is an expired one-shot message. */
    method Pass(msg: array<uint8>, last: nat, ghost current: seq<Msg>) returns (next: nat, found: bool)
      requires Stored() && msg.Length == messageSize && msg != list
      requires Ring(slots, head, last, current) && current != []
      modifies msg, list, `head, `slots
      ensures Stored() && next < size
      ensures found == (current[0].delay == 0)
      ensures Decode(msg[..]) == if found then Delivered(current[0]) else current[0]
      ensures Ring(slots, head, next, current[1..] + AfterPass(current[0]))
    {
      RingPop(slots, head, last, current);
      next := Next(last, size);
      CopyOut(next, msg);
      var messagePeriodic, messageTimedOut := PeriodicAndTimedOut(msg);
      found := messageTimedOut;
      if messageTimedOut && messagePeriodic {
        RearmMessage(msg);
      }
      if !messageTimedOut || (messagePeriodic && messageTimedOut) {
        PutBackAtHead(msg, next, current[1..]);
      } else {
        assert current[1..] + [] == current[1..];
      }
    }

    /** Copies the message behind the waiting ones and moves head on. */
    method PutBackAtHead(msg: array<uint8>, ghost last: nat, ghost rest: seq<Msg>)
      requires Stored() && msg.Length == messageSize && msg != list
      requires Ring(slots, head, last, rest) && head != last
      modifies list, `head, `slots
      ensures Stored() && Ring(slots, head, last, rest + [Decode(msg[..])])
    {
      RingPush(slots, head, last, rest, Decode(msg[..]));
      CopyIn(head, msg);
      head := Next(head, size);
    }

    /** The two tests on the caller's copy: reload > 0 and delay == 0. */
    static method PeriodicAndTimedOut(msg: array<uint8>) returns (periodic: bool, timedOut: bool)
      requires msg.Length >= HEADER_SIZE
      ensures periodic == (Decode(msg[..]).reload > 0) && timedOut == (Decode(msg[..]).delay == 0)
    {
      var reload := Load32(msg, 8);
      var delay := Load32(msg, 4);
      assert msg[..][4..8] == msg[4..4 + 4] && msg[..][8..12] == msg[8..8 + 4];
      periodic, timedOut := reload > 0, delay == 0;
    }

    /** msg->delay = msg->reload. */
    static method RearmMessage(msg: array<uint8>)
      requires msg.Length >= HEADER_SIZE
      modifies msg
      ensures Decode(msg[..]) == old(Decode(msg[..])).(delay := old(Decode(msg[..])).reload)
    {
      assert msg[0..0 + msg.Length] == msg[..];
      assert msg[..][8..12] == msg[8..8 + 4];
      var reload := Load32(msg, 8);
      SetDelay(msg, 0, msg.Length, reload);
      assert msg[0..0 + msg.Length] == msg[..];
    }
  }
}
