// The event wait set of a task: EVENT_QUEUE_SIZE bytes, bit e % 8 of byte e / 8 for event e.
module EventBits {

  /** EVENT_QUEUE_SIZE for a total of n events. */
  function EventQueueSize(n: nat): nat {
    n / 9 + 1
  }

  /** Every event id below n has its byte inside the array. */
  ghost predicate InRange(n: nat) {
    forall e: nat | e < n :: e / 8 < EventQueueSize(n)
  }

  /** The guard a configuration has to meet. */
  predicate SizeFits(n: nat) {
    n / 9 + n % 9 <= 8
  }

  /** The bytes hold n event bits exactly under SizeFits, and then they are the fewest that do. */
  lemma SizingIsExact(n: nat)
    ensures InRange(n) <==> SizeFits(n)
    ensures 8 * EventQueueSize(n) >= n <==> SizeFits(n)
    ensures n > 0 && SizeFits(n) ==> EventQueueSize(n) == (n + 7) / 8
  {
    if !SizeFits(n) {
      assert (n - 1) / 8 >= EventQueueSize(n);
    }
  }

  /** SizeFits in plain numbers: every n up to 16, not 17, no n from 73 on. */
  lemma WhereSizingFails(n: nat)
    ensures n <= 16 ==> SizeFits(n)
    ensures !SizeFits(17) && SizeFits(72)
    ensures n >= 73 ==> !SizeFits(n)
    ensures !InRange(17)
  {
    SizingIsExact(17);
  }

  /** Bit j of one byte, and that byte with the bit set or cleared. */
  predicate BitOf(b: bv8, j: nat)
    requires j < 8
  {
    b & (1 << j) != 0
  }

  function WithBit(b: bv8, j: nat): bv8
    requires j < 8
  {
    b | (1 << j)
  }

  function WithoutBit(b: bv8, j: nat): bv8
    requires j < 8
  {
    b & !(1 << j)
  }

  predicate Bit(list: seq<bv8>, e: nat)
    requires e / 8 < |list|
  {
    BitOf(list[e / 8], e % 8)
  }

  function SetBit(list: seq<bv8>, e: nat): seq<bv8>
    requires e / 8 < |list|
  {
    list[e / 8 := WithBit(list[e / 8], e % 8)]
  }

  function ClearBit(list: seq<bv8>, e: nat): seq<bv8>
    requires e / 8 < |list|
  {
    list[e / 8 := WithoutBit(list[e / 8], e % 8)]
  }

  /** The events whose bits are set. */
  function EventsOf(list: seq<bv8>): (s: set<nat>)
    ensures forall e: nat :: e in s <==> e / 8 < |list| && Bit(list, e)
  {
    set e: nat | e < 8 * |list| && Bit(list, e)
  }

  lemma BitAfterSet(b: bv8, i: nat, j: nat)
    requires i < 8 && j < 8
    ensures BitOf(WithBit(b, i), j) <==> i == j || BitOf(b, j)
  {
  }

  lemma BitAfterClear(b: bv8, i: nat, j: nat)
    requires i < 8 && j < 8
    ensures BitOf(WithoutBit(b, i), j) <==> i != j && BitOf(b, j)
  {
  }

  /** A non-zero byte has a bit set. */
  lemma SomeBit(b: bv8) returns (j: nat)
    requires b != 0
    ensures j < 8 && BitOf(b, j)
  {
    j := if b & 1 != 0 then 0 else if b & 2 != 0 then 1 else if b & 4 != 0 then 2
         else if b & 8 != 0 then 3 else if b & 16 != 0 then 4 else if b & 32 != 0 then 5
         else if b & 64 != 0 then 6 else 7;
  }

  lemma BitAfterUpdate(list: seq<bv8>, e: nat, f: nat)
    requires e / 8 < |list| && f / 8 < |list|
    ensures Bit(SetBit(list, e), f) <==> e == f || Bit(list, f)
    ensures Bit(ClearBit(list, e), f) <==> e != f && Bit(list, f)
  {
    var p, i, q, j := e / 8, e % 8, f / 8, f % 8;
    assert e == 8 * p + i && f == 8 * q + j;
    BitAfterSet(list[p], i, j);
    BitAfterClear(list[p], i, j);
  }

  /** Setting a bit adds exactly that event to the wait set. */
  lemma SetBitIsUnion(list: seq<bv8>, e: nat)
    requires e / 8 < |list|
    ensures EventsOf(SetBit(list, e)) == EventsOf(list) + {e}
  {
    forall f: nat | f / 8 < |list|
      ensures Bit(SetBit(list, e), f) <==> e == f || Bit(list, f)
    {
      BitAfterUpdate(list, e, f);
    }
    assert |SetBit(list, e)| == |list|;
  }

  /** Clearing a bit removes exactly that event. */
  lemma ClearBitIsDifference(list: seq<bv8>, e: nat)
    requires e / 8 < |list|
    ensures EventsOf(ClearBit(list, e)) == EventsOf(list) - {e}
  {
    forall f: nat | f / 8 < |list|
      ensures Bit(ClearBit(list, e), f) <==> e != f && Bit(list, f)
    {
      BitAfterUpdate(list, e, f);
    }
    assert |ClearBit(list, e)| == |list|;
  }

  predicate AllZero(list: seq<bv8>) {
    forall i | 0 <= i < |list| :: list[i] == 0
  }

  /** All bytes zero means waiting for nothing. */
  lemma AllZeroIsEmpty(list: seq<bv8>)
    ensures AllZero(list) <==> EventsOf(list) == {}
  {
    if i: nat :| i < |list| && list[i] != 0 {
      var j := SomeBit(list[i]);
      var e := 8 * i + j;
      assert e / 8 == i && e % 8 == j;
      assert e in EventsOf(list);
    }
  }
}
