/**
  The circular buffer of a pipe, on positions. `begin` is the position of the sentinel
  element, `end` the first free position; the bytes in use start one element after begin.
 */
module Ring {

  type Byte = b: int | 0 <= b < 256

  /** wrap_ptr_if_necessary, for positions below twice the buffer length. */
  function Wrap(p: int, len: nat): int {
    if p >= len then p - len else p
  }

  /** bytes_in_use of a snapshot; begin >= end means the data wraps around. */
  function InUse(len: nat, begin: nat, end: nat, e: nat): int {
    (if begin >= end then end + (len - begin) else end - begin) - e
  }

  function Capacity(len: nat, e: nat): int { len - e }

  /** Both positions inside the buffer, at least the sentinel element between them. */
  predicate Sound(len: nat, begin: nat, end: nat, e: nat) {
    1 <= e && begin + e <= len && end < len && 0 <= InUse(len, begin, end, e)
  }

  /** The queued bytes, oldest first. */
  function Contents(buf: seq<Byte>, begin: nat, end: nat, e: nat): (c: seq<Byte>)
    requires Sound(|buf|, begin, end, e)
    ensures |c| == InUse(|buf|, begin, end, e)
  {
    seq(InUse(|buf|, begin, end, e), i requires 0 <= i < InUse(|buf|, begin, end, e) => buf[Wrap(begin + e + i, |buf|)])
  }

  /** The sentinel rule: the buffer is full exactly when begin and end meet. */
  lemma FullIff(len: nat, begin: nat, end: nat, e: nat)
    requires Sound(len, begin, end, e)
    ensures InUse(len, begin, end, e) <= Capacity(len, e)
    ensures begin == end <==> InUse(len, begin, end, e) == Capacity(len, e)
    ensures end == Wrap(begin + e + InUse(len, begin, end, e), len)
  {
  }

  /** How far position p lies after position `from`, going round. */
  function Ahead(from: nat, p: nat, len: nat): int {
    if p >= from then p - from else p - from + len
  }

  /** `buf2` is `buf` with `data` written from `end` on, going round. */
  ghost predicate Written(buf: seq<Byte>, buf2: seq<Byte>, end: nat, data: seq<Byte>) {
    && |buf2| == |buf|
    && end < |buf|
    && forall p :: 0 <= p < |buf| ==>
         if Ahead(end, p, |buf|) < |data| then buf2[p] == data[Ahead(end, p, |buf|)] else buf2[p] == buf[p]
  }

  /** Writing into the free part appends to the queue and disturbs nothing queued. */
  lemma PushAppends(buf: seq<Byte>, buf2: seq<Byte>, begin: nat, end: nat, e: nat, data: seq<Byte>)
    requires Sound(|buf|, begin, end, e) && Written(buf, buf2, end, data)
    requires InUse(|buf|, begin, end, e) + |data| <= Capacity(|buf|, e)
    ensures var end2 := Wrap(end + |data|, |buf|);
      && end2 < |buf|
      && Sound(|buf|, begin, end2, e)
      && Contents(buf2, begin, end2, e) == Contents(buf, begin, end, e) + data
  {
    var u := InUse(|buf|, begin, end, e);
    var end2 := Wrap(end + |data|, |buf|);
    var c2 := Contents(buf2, begin, end2, e);
    assert |c2| == u + |data|;
    forall i | 0 <= i < |c2|
      ensures c2[i] == (Contents(buf, begin, end, e) + data)[i]
    {
      var p := Wrap(begin + e + i, |buf|);
      if i < u {
        assert Ahead(end, p, |buf|) >= |data|;
      } else {
        assert Ahead(end, p, |buf|) == i - u;
      }
    }
  }

  /** Advancing begin drops exactly the oldest bytes. */
  lemma PopDrops(buf: seq<Byte>, begin: nat, end: nat, e: nat, n: nat)
    requires Sound(|buf|, begin, end, e) && n <= InUse(|buf|, begin, end, e)
    requires Wrap(begin + n, |buf|) + e <= |buf|
    ensures Sound(|buf|, Wrap(begin + n, |buf|), end, e)
    ensures Contents(buf, Wrap(begin + n, |buf|), end, e) == Contents(buf, begin, end, e)[n..]
  {
    var b2 := Wrap(begin + n, |buf|);
    var c2 := Contents(buf, b2, end, e);
    forall i | 0 <= i < |c2|
      ensures c2[i] == Contents(buf, begin, end, e)[n..][i]
    {
      assert Wrap(b2 + e + i, |buf|) == Wrap(begin + e + (n + i), |buf|);
    }
  }

  /** Copying sentinel and data to the front of a larger buffer keeps the queue. */
  lemma MoveKeeps(buf: seq<Byte>, begin: nat, end: nat, e: nat, buf2: seq<Byte>)
    requires Sound(|buf|, begin, end, e)
    requires var n := InUse(|buf|, begin, end, e) + e;
      n < |buf2| && forall i :: 0 <= i < n ==> buf2[i] == buf[Wrap(begin + i, |buf|)]
    ensures var n := InUse(|buf|, begin, end, e) + e;
      Sound(|buf2|, 0, n, e) && Contents(buf2, 0, n, e) == Contents(buf, begin, end, e)
  {
    var n := InUse(|buf|, begin, end, e) + e;
    var c2 := Contents(buf2, 0, n, e);
    forall i | 0 <= i < |c2|
      ensures c2[i] == Contents(buf, begin, end, e)[i]
    {
      assert Wrap(0 + e + i, |buf2|) == e + i;
      assert c2[i] == buf2[e + i];
      assert buf2[e + i] == buf[Wrap(begin + (e + i), |buf|)];
    }
  }

  /** The position of the j-th byte written from `end` on. */
  function Slot(end: nat, j: nat, len: nat): int { Wrap(end + j, len) }

  /** One byte written into the free part changes nothing that is queued. */
  lemma FreeWrite(buf: seq<Byte>, begin: nat, end: nat, e: nat, j: nat, v: Byte)
    requires Sound(|buf|, begin, end, e) && InUse(|buf|, begin, end, e) + j < Capacity(|buf|, e)
    ensures 0 <= Slot(end, j, |buf|) < |buf|
    ensures Contents(buf[Slot(end, j, |buf|) := v], begin, end, e) == Contents(buf, begin, end, e)
    ensures forall i: nat :: i < j ==> Slot(end, i, |buf|) != Slot(end, j, |buf|)
  {
    var p := Slot(end, j, |buf|);
    var c, c2 := Contents(buf, begin, end, e), Contents(buf[p := v], begin, end, e);
    forall i | 0 <= i < |c| ensures c2[i] == c[i] {
      assert Wrap(begin + e + i, |buf|) != p;
    }
    assert c2 == c;
  }

  /** Bytes already in place behind `end` join the queue when end moves past them. */
  lemma PublishAppends(buf: seq<Byte>, begin: nat, end: nat, e: nat, data: seq<Byte>)
    requires Sound(|buf|, begin, end, e) && InUse(|buf|, begin, end, e) + |data| <= Capacity(|buf|, e)
    requires forall j :: 0 <= j < |data| ==> buf[Slot(end, j, |buf|)] == data[j]
    ensures var end2 := Wrap(end + |data|, |buf|);
      && 0 <= end2 && Sound(|buf|, begin, end2, e)
      && Contents(buf, begin, end2, e) == Contents(buf, begin, end, e) + data
  {
    var u := InUse(|buf|, begin, end, e);
    var end2 := Wrap(end + |data|, |buf|);
    var c2 := Contents(buf, begin, end2, e);
    assert |c2| == u + |data|;
    forall i | 0 <= i < |c2|
      ensures c2[i] == (Contents(buf, begin, end, e) + data)[i]
    {
      if i >= u {
        assert Wrap(begin + e + i, |buf|) == Slot(end, i - u, |buf|);
        assert buf[Slot(end, i - u, |buf|)] == data[i - u];
      }
    }
  }
}
