/**
  The pipe under concurrency: one lock guards `begin`, another guards `end`. A pusher works
  from a snapshot whose begin may be stale, a popper from one whose end may be stale. Every
  shared access is a step of its own, and any number of pushers and poppers interleave; the
  locks leave at most one active holder on each side, which is what a state records.
 */
module TwoLockPipe {
  import opened Streams
  import opened NextPow2
  import opened Ring
  import opened Pipe

  /** What the holder of end_lock is doing. */
  datatype EndSide =
    | EFree
    | EPushing(data: seq<Byte>, snapBegin: nat)        // snapshot taken, size not yet checked
    | EWantBegin(data: seq<Byte>)                      // does not fit: waiting for begin_lock
    | EBoth(data: seq<Byte>)                           // pusher holding both locks
    | ECopy(data: seq<Byte>, snapBegin: nat, done: nat) // copying in, byte by byte
    | ETrimWant                                        // trimmer waiting for begin_lock
    | ETrimBoth                                        // trimmer holding both locks

  /** What the holder of begin_lock is doing. */
  datatype BeginSide =
    | BFree
    | BPop(n: nat, snapEnd: nat, got: seq<Byte>)       // copying out, byte by byte
    | BHeldByEnd                                       // taken by the end side as well

  datatype State = State(buf: seq<Byte>, begin: nat, end: nat, e: nat, ce: nat, es: EndSide, bs: BeginSide)

  datatype Op =
    | PushLock(data: seq<Byte>) | PushCheck | PushUpgrade | PushSettle(junk: seq<Byte>) | PushByte | PushPublish
    | PopLock(want: nat) | PopByte | PopPublish
    | TrimLock | TrimUpgrade | TrimSettle(junk: seq<Byte>)

  function Used(s: State): int { InUse(|s.buf|, s.begin, s.end, s.e) }

  function Cap(s: State): int { Capacity(|s.buf|, s.e) }

  // ----- resizing ------------------------------------------------------------------

  /** Sentinel and data moved to the front of a new buffer; the rest is whatever malloc gave. */
  function Rebuilt(s: State, ce: nat, junk: seq<Byte>): State
    requires Sound(|s.buf|, s.begin, s.end, s.e)
  {
    var n := Used(s) + s.e;
    s.(buf := seq(n, i requires 0 <= i < n => s.buf[Wrap(s.begin + i, |s.buf|)]) + junk,
       begin := 0, end := n, ce := ce)
  }

  function GrowTo(s: State, more: nat): nat
    requires s.e >= 1 && Used(s) >= 0
  {
    Ceil((Used(s) + more) / s.e + 1)
  }

  predicate MustGrow(s: State, more: nat) { Used(s) + more > Cap(s) }

  predicate MustTrim(s: State) {
    Used(s) <= Cap(s) / 4 && Cap(s) / 2 > Bytes(DEFAULT_MINCAP, s.e)
  }

  // ----- where the copies go ---------------------------------------------------------------

  /**
    Where process_push puts byte j, working from a snapshot: if the snapshot wraps around, straight
    on from end; otherwise first up to the end of the buffer, then from its start.
   */
  function PushPos(len: nat, snapBegin: nat, end: nat, j: nat): int {
    if snapBegin >= end || j < len - end then end + j else j - (len - end)
  }

  /** Where pop_without_locking takes byte j: after the sentinel, then from the start of the buffer. */
  function PopPos(len: nat, begin: nat, e: nat, j: nat): int {
    if j < len - begin - e then begin + e + j else j - (len - begin - e)
  }

  // ----- steps ------------------------------------------------------------------------

  ghost predicate Enabled(s: State, op: Op)
    requires Inv(s)
  {
    match op
    case PushLock(data) => s.es.EFree? && data != [] && Aligned(|data|, s.e)
    case PushCheck => s.es.EPushing?
    case PushUpgrade => s.es.EWantBegin? && s.bs.BFree?
    case PushSettle(junk) =>
      s.es.EBoth? && (MustGrow(s, |s.es.data|) ==> |junk| == Bytes(GrowTo(s, |s.es.data|), s.e) - Used(s))
    case PushByte => s.es.ECopy? && s.es.done < |s.es.data|
    case PushPublish => s.es.ECopy? && s.es.done == |s.es.data|
    case PopLock(want) => s.bs.BFree? && want > 0 && Aligned(want, s.e) && Used(s) > 0
    case PopByte => s.bs.BPop? && |s.bs.got| < s.bs.n
    case PopPublish => s.bs.BPop? && |s.bs.got| == s.bs.n
    case TrimLock => s.es.EFree?
    case TrimUpgrade => s.es.ETrimWant? && s.bs.BFree?
    case TrimSettle(junk) =>
      s.es.ETrimBoth? && (MustTrim(s) ==> |junk| == Cap(s) / 2 - Used(s))
  }

  ghost function Step(s: State, op: Op): State
    requires Inv(s) && Enabled(s, op)
  {
    match op
    case PushLock(data) => s.(es := EPushing(data, s.begin))
    case PushCheck =>
      if InUse(|s.buf|, s.es.snapBegin, s.end, s.e) + |s.es.data| > Cap(s) then s.(es := EWantBegin(s.es.data))
      else s.(es := ECopy(s.es.data, s.es.snapBegin, 0))
    case PushUpgrade => s.(es := EBoth(s.es.data), bs := BHeldByEnd)
    case PushSettle(junk) =>
      var d := s.es.data;
      var r := if MustGrow(s, |d|) then Rebuilt(s, GrowTo(s, |d|), junk) else s;
      r.(es := ECopy(d, r.begin, 0), bs := BFree)
    case PushByte =>
      StalePositions(s, s.es.done);
      s.(buf := s.buf[PushPos(|s.buf|, s.es.snapBegin, s.end, s.es.done) := s.es.data[s.es.done]],
         es := s.es.(done := s.es.done + 1))
    case PushPublish => s.(end := Wrap(s.end + |s.es.data|, |s.buf|), es := EFree)
    case PopLock(want) => s.(bs := BPop(Min(want, Used(s)), s.end, []))
    case PopByte => s.(bs := s.bs.(got := s.bs.got + [s.buf[PopPos(|s.buf|, s.begin, s.e, |s.bs.got|)]]))
    case PopPublish => s.(begin := Wrap(s.begin + s.bs.n, |s.buf|), bs := BFree)
    case TrimLock => s.(es := ETrimWant)
    case TrimUpgrade => s.(es := ETrimBoth, bs := BHeldByEnd)
    case TrimSettle(junk) =>
      var r := if MustTrim(s) then Rebuilt(s, s.ce / 2, junk) else s;
      r.(es := EFree, bs := BFree)
  }

  // ----- invariant ----------------------------------------------------------------------

  ghost predicate Shape(s: State) {
    && s.e >= 1 && CapOk(s.ce) && |s.buf| == Bytes(s.ce + 1, s.e)
    && Sound(|s.buf|, s.begin, s.end, s.e)
    && Aligned(s.begin, s.e) && Aligned(s.end, s.e)
  }

  /** A stale begin only underestimates the room; bytes copied so far are in place. */
  ghost predicate EndOk(s: State)
    requires Shape(s)
  {
    match s.es
    case EPushing(data, sb) =>
      data != [] && Aligned(|data|, s.e) && sb + s.e <= |s.buf| && Used(s) <= InUse(|s.buf|, sb, s.end, s.e)
    case EWantBegin(data) => data != [] && Aligned(|data|, s.e)
    case EBoth(data) => data != [] && Aligned(|data|, s.e)
    case ECopy(data, sb, done) =>
      && data != [] && Aligned(|data|, s.e) && done <= |data|
      && sb + s.e <= |s.buf| && Used(s) <= InUse(|s.buf|, sb, s.end, s.e)
      && InUse(|s.buf|, sb, s.end, s.e) + |data| <= Cap(s)
      && forall j :: 0 <= j < done ==> s.buf[Slot(s.end, j, |s.buf|)] == data[j]
    case _ => true
  }

  /** A stale end only underestimates what is queued; bytes handed out so far are the oldest. */
  ghost predicate BeginOk(s: State)
    requires Shape(s)
  {
    match s.bs
    case BPop(n, se, got) =>
      && Aligned(n, s.e) && |got| <= n
      && Sound(|s.buf|, s.begin, se, s.e) && n <= InUse(|s.buf|, s.begin, se, s.e) <= Used(s)
      && got == Contents(s.buf, s.begin, s.end, s.e)[..|got|]
    case _ => true
  }

  ghost predicate Inv(s: State) {
    Shape(s) && EndOk(s) && BeginOk(s) && (s.bs.BHeldByEnd? <==> s.es.EBoth? || s.es.ETrimBoth?)
  }

  /** The byte queue the state stands for. */
  ghost function Abs(s: State): seq<Byte>
    requires Shape(s)
  {
    Contents(s.buf, s.begin, s.end, s.e)
  }

  function Start(e: nat, junk: seq<Byte>): State {
    State(junk, 0, e, e, 31, EFree, BFree)
  }

  lemma StartInv(e: nat, junk: seq<Byte>)
    requires e >= 1 && |junk| == Bytes(32, e)
    ensures Inv(Start(e, junk)) && Abs(Start(e, junk)) == []
  {
    BytesAdd(31, 1, e);
    BytesOrder(1, 32, e);
    WholeBytes(0, e);
    WholeBytes(1, e);
    assert Aligned(0, e) && Aligned(e, e);
  }

  // ----- positions stay on element boundaries ------------------------------------------

  lemma AlignedAdd(a: nat, b: nat, e: nat)
    requires e >= 1 && Aligned(a, e) && Aligned(b, e)
    ensures Aligned(a + b, e)
  {
    WholeElements(a, e);
    WholeElements(b, e);
    BytesAdd(a / e, b / e, e);
    WholeBytes(a / e + b / e, e);
  }

  lemma AlignedWrap(a: nat, len: nat, e: nat)
    requires e >= 1 && Aligned(a, e) && Aligned(len, e) && a < 2 * len
    ensures Aligned(Wrap(a, len), e) && Wrap(a, len) + e <= len
  {
    if a >= len { AlignedSubtract(a, len, e); }
    AlignedRoom(Wrap(a, len), len, e);
  }

  lemma AlignedRoom(a: nat, len: nat, e: nat)
    requires e >= 1 && Aligned(a, e) && Aligned(len, e) && a < len
    ensures a + e <= len
  {
    WholeElements(a, e);
    WholeElements(len, e);
    BytesOrder(a / e, len / e, e);
  }

  lemma UsedAligned(s: State)
    requires Shape(s)
    ensures Aligned(Used(s), s.e)
  {
    WholeBytes(s.ce + 1, s.e);
    WholeBytes(1, s.e);
    assert Bytes(1, s.e) == s.e;
    hide Aligned, Bytes, CapOk;
    if s.begin >= s.end {
      AlignedSubtract(|s.buf|, s.begin, s.e);
      AlignedAdd(s.end, |s.buf| - s.begin, s.e);
      AlignedSubtract(s.end + (|s.buf| - s.begin), s.e, s.e);
    } else {
      AlignedSubtract(s.end, s.begin, s.e);
      AlignedSubtract(s.end - s.begin, s.e, s.e);
    }
  }

  // ----- no two sides ever touch the same byte -----------------------------------------------

  /** Although begin is stale, every byte goes to its slot in the free part, inside the buffer. */
  lemma StalePositions(s: State, j: nat)
    requires Inv(s) && s.es.ECopy? && j < |s.es.data|
    ensures PushPos(|s.buf|, s.es.snapBegin, s.end, j) == Slot(s.end, j, |s.buf|)
    ensures 0 <= Slot(s.end, j, |s.buf|) < |s.buf|
    ensures Used(s) + j < Cap(s)
  {
    hide CapOk, Bytes, Aligned, Contents;
  }

  /**
    A pusher copying by a stale begin and a popper copying by a stale end stay inside the buffer and
    never touch the same byte.
   */
  lemma NoOverlap(s: State, i: nat, j: nat)
    requires Inv(s) && s.es.ECopy? && s.bs.BPop?
    requires i < |s.es.data| && j < s.bs.n
    ensures var w, r := PushPos(|s.buf|, s.es.snapBegin, s.end, i), PopPos(|s.buf|, s.begin, s.e, j);
      w != r && 0 <= w < |s.buf| && 0 <= r < |s.buf|
    ensures j < InUse(|s.buf|, s.begin, s.bs.snapEnd, s.e)
  {
    hide CapOk, Bytes, Aligned, Contents;
  }

  /** A stale snapshot errs on the safe side: too little room for a pusher, too little data for a popper. */
  lemma StaleIsSafe(s: State)
    requires Inv(s)
    ensures s.es.ECopy? ==> Used(s) + |s.es.data| <= InUse(|s.buf|, s.es.snapBegin, s.end, s.e) + |s.es.data| <= Cap(s)
    ensures s.bs.BPop? ==> s.bs.n <= InUse(|s.buf|, s.begin, s.bs.snapEnd, s.e) <= Used(s)
  {
    hide CapOk, Bytes, Aligned, Contents;
  }

  /** process_push, run with its stale snapshot, writes exactly the bytes the steps write, and no other. */
  method PushFromSnapshot(buf: array<Byte>, snapBegin: nat, end: nat, data: seq<Byte>, ghost s: State)
    returns (newEnd: nat)
    requires Inv(s) && s.es == ECopy(data, snapBegin, 0) && s.end == end && buf[..] == s.buf
    modifies buf
    ensures forall j :: 0 <= j < |data| ==> buf[..][PushPos(|s.buf|, snapBegin, end, j)] == data[j]
    ensures forall p :: 0 <= p < |s.buf| ==>
              buf[p] == s.buf[p] || exists j: nat :: j < |data| && p == PushPos(|s.buf|, snapBegin, end, j)
    ensures newEnd == Wrap(end + |data|, |s.buf|)
  {
    hide CapOk, Bytes, Aligned, Contents;
    newEnd := ProcessPush(buf, snapBegin, end, data);
    forall j: nat | j < |data| ensures PushPos(|s.buf|, snapBegin, end, j) == Slot(end, j, |s.buf|) < |s.buf| {
      StalePositions(s, j);
    }
    forall p | 0 <= p < |s.buf| && buf[p] != s.buf[p]
      ensures exists j: nat :: j < |data| && p == PushPos(|s.buf|, snapBegin, end, j)
    {
      var j := Ahead(end, p, |s.buf|);
      assert 0 <= j < |data| && p == Slot(end, j, |s.buf|);
    }
  }

  /** pop_without_locking, run with its stale snapshot, returns the oldest bytes of the current queue. */
  method PopFromSnapshot(buf: array<Byte>, begin: nat, snapEnd: nat, e: nat, n: nat, ghost s: State)
    returns (target: seq<Byte>, newBegin: nat)
    requires Inv(s) && s.bs.BPop? && s.bs.n == n && s.bs.snapEnd == snapEnd
    requires s.begin == begin && s.e == e && buf[..] == s.buf
    ensures target == Abs(s)[..n] && newBegin == Wrap(begin + n, |s.buf|)
  {
    hide CapOk, Bytes, Aligned;
    target, newBegin := PopWithoutLocking(buf, begin, snapEnd, e, n);
    assert target == Abs(s)[..n] by {
      var c, d := Contents(s.buf, begin, snapEnd, e), Abs(s);
      assert forall i :: 0 <= i < n ==> c[i] == d[i];
    }
  }

  // ----- each step -------------------------------------------------------------------------

  /** What a step appends to and takes from the abstract queue. */
  ghost function Input(s: State, op: Op): seq<Byte> {
    if op.PushPublish? && s.es.ECopy? then s.es.data else []
  }

  ghost function Output(s: State, op: Op): seq<Byte> {
    if op.PopPublish? && s.bs.BPop? then s.bs.got else []
  }

  ghost predicate Refines(s: State, op: Op)
    requires Inv(s) && Enabled(s, op)
  {
    var r := Step(s, op);
    Inv(r) && r.e == s.e && Abs(s) + Input(s, op) == Output(s, op) + Abs(r)
  }

  lemma PushByteRefines(s: State)
    requires Inv(s) && Enabled(s, PushByte)
    ensures Refines(s, PushByte)
  {
    StalePositions(s, s.es.done);
    hide CapOk, Bytes, Aligned, Contents;
    FreeWrite(s.buf, s.begin, s.end, s.e, s.es.done, s.es.data[s.es.done]);
  }

  /** What a popper has copied out stays the oldest part of the queue when more is appended. */
  lemma PopUnaffected(s: State)
    requires Inv(s) && s.bs.BPop?
    ensures forall more: seq<Byte> :: (Abs(s) + more)[..|s.bs.got|] == s.bs.got
  {
    hide CapOk, Bytes, Aligned, Contents;
    forall more: seq<Byte> ensures (Abs(s) + more)[..|s.bs.got|] == s.bs.got {
      assert (Abs(s) + more)[..|s.bs.got|] == Abs(s)[..|s.bs.got|];
    }
  }

  lemma PushPublishRefines(s: State)
    requires Inv(s) && Enabled(s, PushPublish)
    ensures Refines(s, PushPublish)
  {
    WholeBytes(s.ce + 1, s.e);
    hide CapOk, Bytes, Aligned, Contents;
    PublishAppends(s.buf, s.begin, s.end, s.e, s.es.data);
    AlignedAdd(s.end, |s.es.data|, s.e);
    AlignedWrap(s.end + |s.es.data|, |s.buf|, s.e);
    if s.bs.BPop? { PopUnaffected(s); }
  }

  lemma PopLockRefines(s: State, want: nat)
    requires Inv(s) && Enabled(s, PopLock(want))
    ensures Refines(s, PopLock(want))
  {
    UsedAligned(s);
    hide CapOk, Bytes, Aligned, Contents;
  }

  lemma PopByteRefines(s: State)
    requires Inv(s) && Enabled(s, PopByte)
    ensures Refines(s, PopByte)
  {
    hide CapOk, Bytes, Aligned;
    var c := Contents(s.buf, s.begin, s.end, s.e);
    var k := |s.bs.got|;
    assert PopPos(|s.buf|, s.begin, s.e, k) == Wrap(s.begin + s.e + k, |s.buf|);
    assert s.buf[PopPos(|s.buf|, s.begin, s.e, k)] == c[k];
    assert c[..k + 1] == c[..k] + [c[k]];
  }

  lemma PopPublishRefines(s: State)
    requires Inv(s) && Enabled(s, PopPublish)
    ensures Refines(s, PopPublish)
  {
    WholeBytes(s.ce + 1, s.e);
    hide CapOk, Bytes, Aligned, Contents;
    AlignedAdd(s.begin, s.bs.n, s.e);
    AlignedWrap(s.begin + s.bs.n, |s.buf|, s.e);
    PopDrops(s.buf, s.begin, s.end, s.e, s.bs.n);
    var c := Abs(s);
    assert c == c[..s.bs.n] + c[s.bs.n..];
  }

  /** Rebuilding in a larger or smaller legal buffer keeps shape and contents. */
  lemma RebuiltKeeps(s: State, ce: nat, junk: seq<Byte>)
    requires Shape(s) && CapOk(ce) && Used(s) < Bytes(ce, s.e) && |junk| == Bytes(ce, s.e) - Used(s)
    ensures Shape(Rebuilt(s, ce, junk)) && Abs(Rebuilt(s, ce, junk)) == Abs(s)
    ensures Used(Rebuilt(s, ce, junk)) == Used(s) && Cap(Rebuilt(s, ce, junk)) == Bytes(ce, s.e)
  {
    UsedAligned(s);
    WholeBytes(1, s.e);
    WholeBytes(0, s.e);
    BytesAdd(ce, 1, s.e);
    hide CapOk, Bytes, Aligned, Contents;
    AlignedAdd(Used(s), s.e, s.e);
    MoveKeeps(s.buf, s.begin, s.end, s.e, Rebuilt(s, ce, junk).buf);
  }

  lemma PushSettleRefines(s: State, junk: seq<Byte>)
    requires Inv(s) && Enabled(s, PushSettle(junk))
    ensures Refines(s, PushSettle(junk))
  {
    if MustGrow(s, |s.es.data|) {
      GrowFits(s, |s.es.data|);
      RebuiltKeeps(s, GrowTo(s, |s.es.data|), junk);
    }
    hide CapOk, Bytes, Aligned, Contents, Ceil, Rebuilt;
  }

  lemma GrowFits(s: State, more: nat)
    requires Shape(s) && MustGrow(s, more) && Aligned(more, s.e)
    ensures CapOk(GrowTo(s, more)) && Used(s) + more < Bytes(GrowTo(s, more), s.e)
  {
    UsedAligned(s);
    hide CapOk, Bytes, Aligned, Ceil;
    BytesAdd(s.ce, 1, s.e);
    AlignedAdd(Used(s), more, s.e);
    var n := (Used(s) + more) / s.e;
    WholeElements(Used(s) + more, s.e);
    BytesOrder(s.ce, n, s.e);
    GrowSize(s.ce, n);
    BytesOrder(n, Ceil(n + 1), s.e);
  }

  lemma TrimSettleRefines(s: State, junk: seq<Byte>)
    requires Inv(s) && Enabled(s, TrimSettle(junk))
    ensures Refines(s, TrimSettle(junk))
  {
    if MustTrim(s) {
      TrimFits(s);
      RebuiltKeeps(s, s.ce / 2, junk);
    }
    hide CapOk, Bytes, Aligned, Contents, Rebuilt;
  }

  lemma TrimFits(s: State)
    requires Shape(s) && MustTrim(s)
    ensures CapOk(s.ce / 2) && Used(s) < Bytes(s.ce / 2, s.e) == Cap(s) / 2
  {
    UsedAligned(s);
    hide CapOk, Bytes, Aligned;
    BytesAdd(s.ce, 1, s.e);
    WholeElements(Used(s), s.e);
    TrimBytes(Used(s) / s.e, s.ce, s.e);
    BytesOrder(Used(s) / s.e, s.ce / 2, s.e);
  }

  /** Every step of every interleaving keeps the invariant and is a step of a byte queue. */
  lemma StepRefines(s: State, op: Op)
    requires Inv(s) && Enabled(s, op)
    ensures Refines(s, op)
  {
    match op
    case PushSettle(junk) => PushSettleRefines(s, junk);
    case PushByte => PushByteRefines(s);
    case PushPublish => PushPublishRefines(s);
    case PopLock(want) => PopLockRefines(s, want);
    case PopByte => PopByteRefines(s);
    case PopPublish => PopPublishRefines(s);
    case TrimSettle(junk) => TrimSettleRefines(s, junk);
    case _ => hide CapOk, Bytes, Aligned, Contents;
  }

  /** The buffer is replaced only by a holder of both locks, while nobody is copying. */
  lemma ResizeNeedsBothLocks(s: State, op: Op)
    requires Inv(s) && Enabled(s, op) && |Step(s, op).buf| != |s.buf|
    ensures s.bs.BHeldByEnd? && (s.es.EBoth? || s.es.ETrimBoth?)
  {
    hide CapOk, Bytes, Aligned, Contents;
  }

  /** When it is replaced, and by how much: too little room for a push, or at most a quarter used at a trim. */
  lemma ResizesIff(s: State, op: Op)
    requires Inv(s) && Enabled(s, op)
    ensures var r := Step(s, op);
      && Inv(r)
      && (Cap(r) > Cap(s) <==> op.PushSettle? && Used(s) + |s.es.data| > Cap(s))
      && (Cap(r) > Cap(s) ==> Cap(r) > Used(s) + |s.es.data|)
      && (Cap(r) < Cap(s) <==> op.TrimSettle? && 4 * Used(s) <= Cap(s) && Cap(s) / 2 > Bytes(DEFAULT_MINCAP, s.e))
      && (Cap(r) < Cap(s) ==> Cap(r) == Cap(s) / 2)
  {
    StepRefines(s, op);
    if op.PushSettle? {
      GrowsIff(s, op.junk);
    } else if op.TrimSettle? {
      TrimsIff(s, op.junk);
    } else {
      hide CapOk, Bytes, Aligned, Contents, Sound, InUse;
    }
    hide Inv;
  }

  lemma GrowsIff(s: State, junk: seq<Byte>)
    requires Inv(s) && Enabled(s, PushSettle(junk))
    ensures var r := Step(s, PushSettle(junk));
      && (Cap(r) > Cap(s) <==> Used(s) + |s.es.data| > Cap(s)) && Cap(r) >= Cap(s)
      && (Cap(r) > Cap(s) ==> Cap(r) > Used(s) + |s.es.data|)
  {
    if MustGrow(s, |s.es.data|) {
      GrowFits(s, |s.es.data|);
      RebuiltKeeps(s, GrowTo(s, |s.es.data|), junk);
    }
    hide CapOk, Bytes, Aligned, Contents, Ceil, Rebuilt, Sound, InUse;
  }

  lemma TrimsIff(s: State, junk: seq<Byte>)
    requires Inv(s) && Enabled(s, TrimSettle(junk))
    ensures var r := Step(s, TrimSettle(junk));
      && (Cap(r) < Cap(s) <==> 4 * Used(s) <= Cap(s) && Cap(s) / 2 > Bytes(DEFAULT_MINCAP, s.e)) && Cap(r) <= Cap(s)
      && (Cap(r) < Cap(s) ==> Cap(r) == Cap(s) / 2)
  {
    if MustTrim(s) {
      TrimFits(s);
      RebuiltKeeps(s, s.ce / 2, junk);
    }
    WholeBytes(DEFAULT_MINCAP, s.e);
    hide CapOk, Bytes, Aligned, Contents, Rebuilt, Sound, InUse;
  }

  /** The locks never deadlock: whatever is under way, some holder can take its next step. */
  lemma SomeHolderCanMove(s: State)
    requires Inv(s) && !(s.es.EFree? && s.bs.BFree?)
    ensures exists op: Op :: !op.PushLock? && !op.PopLock? && !op.TrimLock? && Enabled(s, op)
  {
    if s.bs.BPop? {
      assert Enabled(s, PopByte) || Enabled(s, PopPublish);
    } else if s.es.EBoth? {
      var more := if MustGrow(s, |s.es.data|) then Bytes(GrowTo(s, |s.es.data|), s.e) - Used(s) else 0;
      if MustGrow(s, |s.es.data|) { GrowFits(s, |s.es.data|); }
      assert Enabled(s, PushSettle(seq(more, _ => 0)));
    } else if s.es.ETrimBoth? {
      var more := if MustTrim(s) then Cap(s) / 2 - Used(s) else 0;
      if MustTrim(s) { TrimFits(s); }
      assert Enabled(s, TrimSettle(seq(more, _ => 0)));
    } else {
      assert Enabled(s, PushCheck) || Enabled(s, PushUpgrade) || Enabled(s, PushByte)
          || Enabled(s, PushPublish) || Enabled(s, TrimUpgrade);
    }
  }

  // ----- every run ------------------------------------------------------------------------------

  ghost predicate EnabledRun(s: State, ops: seq<Op>)
    requires Inv(s)
    decreases |ops|
  {
    ops == [] || (Enabled(s, ops[0]) && (StepRefines(s, ops[0]); EnabledRun(Step(s, ops[0]), ops[1..])))
  }

  ghost function Run(s: State, ops: seq<Op>): (r: State)
    requires Inv(s) && EnabledRun(s, ops)
    ensures Inv(r)
    decreases |ops|
  {
    if ops == [] then s else (StepRefines(s, ops[0]); Run(Step(s, ops[0]), ops[1..]))
  }

  /** All bytes published by pushers, in the order of their `end` updates. */
  ghost function Inputs(s: State, ops: seq<Op>): seq<Byte>
    requires Inv(s) && EnabledRun(s, ops)
    decreases |ops|
  {
    if ops == [] then [] else (StepRefines(s, ops[0]); Input(s, ops[0]) + Inputs(Step(s, ops[0]), ops[1..]))
  }

  /** All bytes handed out by poppers, in the order of their `begin` updates. */
  ghost function Outputs(s: State, ops: seq<Op>): seq<Byte>
    requires Inv(s) && EnabledRun(s, ops)
    decreases |ops|
  {
    if ops == [] then [] else (StepRefines(s, ops[0]); Output(s, ops[0]) + Outputs(Step(s, ops[0]), ops[1..]))
  }

  /** Linearizability: every interleaving is a first-in first-out byte queue. */
  lemma {:induction false} Linearizable(s: State, ops: seq<Op>)
    requires Inv(s) && EnabledRun(s, ops)
    ensures Abs(s) + Inputs(s, ops) == Outputs(s, ops) + Abs(Run(s, ops))
    decreases |ops|
  {
    hide Shape, EndOk, BeginOk, Abs, Step, Enabled;
    if ops != [] {
      StepRefines(s, ops[0]);
      var r := Step(s, ops[0]);
      Linearizable(r, ops[1..]);
      Compose(Abs(s), Input(s, ops[0]), Inputs(r, ops[1..]), Output(s, ops[0]), Abs(r), Outputs(r, ops[1..]), Abs(Run(s, ops)));
    }
  }

  // ----- the byte queue of the calls alone ---------------------------------------------------

  /**
    A byte queue driven by the operations and nothing else: the data of the push under way, the number
    of bytes the pop under way will take, the queue, and everything handed out so far.
   */
  datatype Ideal = Ideal(queue: seq<Byte>, pushing: seq<Byte>, popping: nat, out: seq<Byte>)

  /** A push takes effect when it publishes; a pop takes the oldest min(want, queued at its start) bytes. */
  function IdealStep(i: Ideal, op: Op): Ideal {
    match op
    case PushLock(data) => i.(pushing := data)
    case PushPublish => i.(queue := i.queue + i.pushing)
    case PopLock(want) => i.(popping := if want < |i.queue| then want else |i.queue|)
    case PopPublish =>
      var n := if i.popping < |i.queue| then i.popping else |i.queue|;
      i.(queue := i.queue[n..], out := i.out + i.queue[..n])
    case _ => i
  }

  function IdealRun(i: Ideal, ops: seq<Op>): Ideal
    decreases |ops|
  {
    if ops == [] then i else IdealRun(IdealStep(i, ops[0]), ops[1..])
  }

  /** The data the end side is working on, if any. */
  function InHand(s: State): seq<Byte> {
    match s.es
    case EPushing(data, _) => data
    case EWantBegin(data) => data
    case EBoth(data) => data
    case ECopy(data, _, _) => data
    case _ => []
  }

  predicate Pushing(s: State) { s.es.EPushing? || s.es.EWantBegin? || s.es.EBoth? || s.es.ECopy? }

  /** The pipe and the ideal queue agree, on what is queued and on the calls under way. */
  ghost predicate Mirrors(s: State, i: Ideal)
    requires Inv(s)
  {
    && Abs(s) == i.queue
    && (Pushing(s) ==> InHand(s) == i.pushing)
    && (s.bs.BPop? ==> s.bs.n == i.popping <= |i.queue|)
  }

  /** A step inside a call leaves the data and the size of the calls under way alone. */
  lemma HandsKept(s: State, op: Op)
    requires Inv(s) && Enabled(s, op)
    requires !op.PushLock? && !op.PushPublish? && !op.PopLock? && !op.PopPublish?
    ensures var r := Step(s, op);
      && (Pushing(r) ==> Pushing(s) && InHand(r) == InHand(s))
      && (r.bs.BPop? ==> s.bs.BPop? && r.bs.n == s.bs.n)
    ensures Input(s, op) == [] && Output(s, op) == []
  {
    hide CapOk, Bytes, Aligned, Contents, Sound, Ceil, Rebuilt, MustGrow, MustTrim, InUse;
  }

  lemma LocksTaken(s: State, op: Op)
    requires Inv(s) && Enabled(s, op) && (op.PushLock? || op.PopLock?)
    ensures var r := Step(s, op);
      && (op.PushLock? ==> Pushing(r) && InHand(r) == op.data && r.bs == s.bs)
      && (op.PopLock? ==> r.es == s.es && r.bs.BPop? && r.bs.n == if op.want < Used(s) then op.want else Used(s))
    ensures Input(s, op) == [] && Output(s, op) == []
  {
    hide CapOk, Bytes, Aligned, Contents, Sound;
  }

  lemma Published(s: State, op: Op)
    requires Inv(s) && Enabled(s, op) && (op.PushPublish? || op.PopPublish?)
    ensures var r := Step(s, op);
      && (op.PushPublish? ==> !Pushing(r) && r.bs == s.bs && Pushing(s) && Input(s, op) == InHand(s) && Output(s, op) == [])
      && (op.PopPublish? ==> r.es == s.es && !r.bs.BPop? && Input(s, op) == [])
  {
    hide CapOk, Bytes, Aligned, Contents, Sound;
  }

  lemma PlainSeq(a: seq<Byte>)
    ensures [] + a == a && a + [] == a
  {
  }

  lemma RefinesMeans(s: State, op: Op)
    requires Inv(s) && Enabled(s, op) && Refines(s, op)
    ensures Inv(Step(s, op)) && Abs(s) + Input(s, op) == Output(s, op) + Abs(Step(s, op))
  {
    hide Inv, Step, Enabled, Abs, Input, Output;
  }

  lemma SameAbs(s: State, op: Op)
    requires Inv(s) && Enabled(s, op)
    ensures Inv(Step(s, op)) && Abs(s) + Input(s, op) == Output(s, op) + Abs(Step(s, op))
    ensures Input(s, op) == [] && Output(s, op) == [] ==> Abs(Step(s, op)) == Abs(s)
    ensures Output(s, op) == [] ==> Abs(Step(s, op)) == Abs(s) + Input(s, op)
  {
    StepRefines(s, op);
    RefinesMeans(s, op);
    PlainSeq(Abs(s));
    PlainSeq(Abs(Step(s, op)));
    PlainSeq(Abs(s) + Input(s, op));
    hide *;
  }

  /** Every step of the pipe is a step of the ideal queue, and hands out what the ideal queue hands out. */
  lemma MirrorStep(s: State, op: Op, i: Ideal)
    requires Inv(s) && Enabled(s, op) && Mirrors(s, i)
    ensures Inv(Step(s, op)) && Mirrors(Step(s, op), IdealStep(i, op))
    ensures IdealStep(i, op).out == i.out + Output(s, op)
  {
    SameAbs(s, op);
    QueueLength(s);
    if op.PopPublish? {
      Published(s, op);
      PopHandsOut(s, i);
      PopsAlike(s, op, i);
    } else if op.PushPublish? {
      Published(s, op);
    } else if op.PushLock? || op.PopLock? {
      LocksTaken(s, op);
    } else {
      HandsKept(s, op);
    }
    hide Inv, Step, Abs, Enabled, Input, Output, Used, InHand, Pushing;
    assert i.out + [] == i.out;
  }

  lemma PopsAlike(s: State, op: Op, i: Ideal)
    requires Inv(s) && Enabled(s, op) && op.PopPublish? && Mirrors(s, i)
    requires Output(s, op) == i.queue[..i.popping] && Input(s, op) == []
    requires Inv(Step(s, op)) && Abs(s) + [] == Output(s, op) + Abs(Step(s, op)) && s.bs.BPop?
    ensures IdealStep(i, op).queue == Abs(Step(s, op)) && IdealStep(i, op).out == i.out + Output(s, op)
    ensures IdealStep(i, op).pushing == i.pushing
  {
    hide Inv, Step, Abs, Enabled, Input, Output;
    var q := i.queue;
    assert q + [] == q && q == q[..i.popping] + q[i.popping..];
  }

  lemma QueueLength(s: State)
    requires Inv(s)
    ensures |Abs(s)| == Used(s)
  {
    hide CapOk, Bytes, Aligned;
  }

  lemma PopHandsOut(s: State, i: Ideal)
    requires Inv(s) && Enabled(s, PopPublish) && Mirrors(s, i)
    ensures s.bs.got == i.queue[..i.popping] && Output(s, PopPublish) == s.bs.got
  {
    hide CapOk, Bytes, Aligned, Contents, Sound;
    assert s.bs.got == Abs(s)[..|s.bs.got|] && |s.bs.got| == s.bs.n;
  }

  lemma RunUnfolds(s: State, ops: seq<Op>)
    requires Inv(s) && EnabledRun(s, ops) && ops != []
    ensures Enabled(s, ops[0]) && Inv(Step(s, ops[0])) && EnabledRun(Step(s, ops[0]), ops[1..])
    ensures Run(s, ops) == Run(Step(s, ops[0]), ops[1..])
    ensures Outputs(s, ops) == Output(s, ops[0]) + Outputs(Step(s, ops[0]), ops[1..])
  {
    StepRefines(s, ops[0]);
    hide Inv, Enabled, Step, Output;
  }

  lemma IdealUnfolds(i: Ideal, ops: seq<Op>)
    requires ops != []
    ensures IdealRun(i, ops) == IdealRun(IdealStep(i, ops[0]), ops[1..])
  {
    hide IdealStep;
  }

  /**
    For every interleaving, from a pipe with no call under way: the pipe holds exactly the bytes, and the
    pops hand out exactly the bytes, that a queue driven by the calls alone holds and hands out.
   */
  lemma {:induction false} MirrorRun(s: State, ops: seq<Op>, i: Ideal)
    requires Inv(s) && EnabledRun(s, ops) && Mirrors(s, i)
    ensures Inv(Run(s, ops)) && Abs(Run(s, ops)) == IdealRun(i, ops).queue
    ensures IdealRun(i, ops).out == i.out + Outputs(s, ops)
    decreases |ops|
  {
    if ops == [] {
      assert i.out + [] == i.out;
      hide Inv, Abs;
    } else {
      MirrorStep(s, ops[0], i);
      RunUnfolds(s, ops);
      IdealUnfolds(i, ops);
      hide *;
      MirrorRun(Step(s, ops[0]), ops[1..], IdealStep(i, ops[0]));
    }
  }

  lemma CallsDecide(s: State, ops: seq<Op>)
    requires Inv(s) && EnabledRun(s, ops) && s.es.EFree? && s.bs.BFree?
    ensures var i := IdealRun(Ideal(Abs(s), [], 0, []), ops);
      Inv(Run(s, ops)) && Abs(Run(s, ops)) == i.queue && Outputs(s, ops) == i.out
  {
    MirrorRun(s, ops, Ideal(Abs(s), [], 0, []));
  }
}
