// The storage layer: messages as messageSize bytes in one flat buffer, 32-bit fields in
// little-endian order.
module MessageBytes {
  import opened Types

  /** sizeof(Msg_t). */
  const HEADER_SIZE: nat := 12

  function Value32(b: seq<uint8>): uint32
    requires |b| == 4
  {
    var b0: int, b1: int, b2: int, b3: int := b[0], b[1], b[2], b[3];
    b0 + 0x100 * b1 + 0x1_0000 * b2 + 0x100_0000 * b3
  }

  function Bytes32(v: uint32): seq<uint8> {
    [v % 0x100, v / 0x100 % 0x100, v / 0x1_0000 % 0x100, v / 0x100_0000]
  }

  lemma WordRoundTrip(v: uint32)
    ensures Value32(Bytes32(v)) == v
  {
    var h, g := v / 0x100, v / 0x1_0000;
    assert v == v % 0x100 + 0x100 * h && h == h % 0x100 + 0x100 * g && g == g % 0x100 + 0x100 * (v / 0x100_0000);
  }

  lemma BytesRoundTrip(b: seq<uint8>)
    requires |b| == 4
    ensures Bytes32(Value32(b)) == b
  {
    var b0: int, b1: int, b2: int, b3: int := b[0], b[1], b[2], b[3];
    var g := b2 + 0x100 * b3;
    var h := b1 + 0x100 * g;
    var w := b0 + 0x100 * h;
    assert w / 0x100 == h && w / 0x1_0000 == g && w / 0x100_0000 == b3;
    assert w % 0x100 == b0 && h % 0x100 == b1 && g % 0x100 == b2;
  }

  function Decode(b: seq<uint8>): Msg
    requires |b| >= HEADER_SIZE
  {
    Msg(b[..4], Value32(b[4..8]), Value32(b[8..12]), b[12..])
  }

  function Encode(m: Msg): seq<uint8> {
    m.header + Bytes32(m.delay) + Bytes32(m.reload) + m.payload
  }

  /** The stored bytes determine the message and the message determines the bytes. */
  lemma MessageRoundTrip(m: Msg, b: seq<uint8>)
    requires |m.header| == 4 && |b| >= HEADER_SIZE
    ensures Decode(Encode(m)) == m
    ensures Encode(Decode(b)) == b
  {
    WordRoundTrip(m.delay);
    WordRoundTrip(m.reload);
    BytesRoundTrip(b[4..8]);
    BytesRoundTrip(b[8..12]);
    var e := Encode(m);
    assert e[..4] == m.header && e[4..8] == Bytes32(m.delay) && e[8..12] == Bytes32(m.reload) && e[12..] == m.payload;
    assert b == b[..4] + b[4..8] + b[8..12] + b[12..];
  }

  lemma SlotBounds(size: nat, sz: nat, i: nat)
    requires i < size
    ensures 0 <= i * sz <= i * sz + sz <= size * sz
  {
    assert i * sz + sz == (i + 1) * sz;
    assert (i + 1) * sz <= size * sz;
  }

  lemma SlotsApart(sz: nat, i: nat, j: nat)
    requires i < j
    ensures i * sz + sz <= j * sz
  {
    SlotBounds(j, sz, i);
  }

  /** Slot i of a flat buffer of size messages. */
  function Slot(list: seq<uint8>, size: nat, sz: nat, i: nat): (r: seq<uint8>)
    requires |list| == size * sz && i < size
    ensures |r| == sz
  {
    SlotBounds(size, sz, i);
    list[i * sz..i * sz + sz]
  }

  /** Rewriting n bytes at offset off of slot i leaves every other slot as it was. */
  lemma OtherSlotsUntouched(list: seq<uint8>, list': seq<uint8>, size: nat, sz: nat, i: nat, off: nat, n: nat, j: nat)
    requires |list| == |list'| == size * sz && i < size && j < size && i != j
    requires off + n <= sz
    requires forall k | 0 <= k < |list| && !(i * sz + off <= k < i * sz + off + n) :: list'[k] == list[k]
    ensures Slot(list', size, sz, j) == Slot(list, size, sz, j)
  {
    SlotBounds(size, sz, j);
    if i < j {
      SlotsApart(sz, i, j);
    } else {
      SlotsApart(sz, j, i);
    }
  }

  /** The source's byte loop `*dst++ = *src++`, n times. */
  method CopyBytes(src: array<uint8>, from: nat, dst: array<uint8>, to: nat, n: nat)
    requires src != dst && from + n <= src.Length && to + n <= dst.Length
    modifies dst
    ensures dst[to..to + n] == src[from..from + n]
    ensures forall k | 0 <= k < dst.Length && !(to <= k < to + n) :: dst[k] == old(dst[k])
  {
    var i := 0;
    while i < n
      invariant i <= n
      invariant forall k | to <= k < to + i :: dst[k] == src[k - to + from]
      invariant forall k | 0 <= k < dst.Length && !(to <= k < to + i) :: dst[k] == old(dst[k])
    {
      dst[to + i] := src[from + i];
      i := i + 1;
    }
  }

  method Load32(a: array<uint8>, at: nat) returns (v: uint32)
    requires at + 4 <= a.Length
    ensures v == Value32(a[at..at + 4])
  {
    v := Value32(a[at..at + 4]);
  }

  method Store32(a: array<uint8>, at: nat, v: uint32)
    requires at + 4 <= a.Length
    modifies a
    ensures Value32(a[at..at + 4]) == v
    ensures forall k | 0 <= k < a.Length && !(at <= k < at + 4) :: a[k] == old(a[k])
  {
    var b := Bytes32(v);
    a[at], a[at + 1], a[at + 2], a[at + 3] := b[0], b[1], b[2], b[3];
    assert a[at..at + 4] == b;
    WordRoundTrip(v);
  }

  /** msg->delay = v. */
  method SetDelay(a: array<uint8>, at: nat, n: nat, v: uint32)
    requires n >= HEADER_SIZE && at + n <= a.Length
    modifies a
    ensures Decode(a[at..at + n]) == old(Decode(a[at..at + n])).(delay := v)
    ensures forall k | 0 <= k < a.Length && !(at + 4 <= k < at + 8) :: a[k] == old(a[k])
  {
    ghost var was := a[at..at + n];
    Store32(a, at + 4, v);
    ghost var now := a[at..at + n];
    assert now[4..8] == a[at + 4..at + 8];
    assert forall k | 0 <= k < n && !(4 <= k < 8) :: now[k] == was[k];
    assert now[..4] == was[..4] && now[8..12] == was[8..12] && now[12..] == was[12..];
  }

  /** msg->reload = v. */
  method SetReload(a: array<uint8>, at: nat, n: nat, v: uint32)
    requires n >= HEADER_SIZE && at + n <= a.Length
    modifies a
    ensures Decode(a[at..at + n]) == old(Decode(a[at..at + n])).(reload := v)
    ensures forall k | 0 <= k < a.Length && !(at + 8 <= k < at + 12) :: a[k] == old(a[k])
  {
    ghost var was := a[at..at + n];
    Store32(a, at + 8, v);
    ghost var now := a[at..at + n];
    assert now[8..12] == a[at + 8..at + 12];
    assert forall k | 0 <= k < n && !(8 <= k < 12) :: now[k] == was[k];
    assert now[..4] == was[..4] && now[4..8] == was[4..8] && now[12..] == was[12..];
  }
}
