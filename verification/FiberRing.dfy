/**
  fiberq: the blocking queue over a ring of `size` slots; `head` is the slot the next push fills,
  `tail` the slot the next pop empties.
 */
module FiberRing {
  import opened Options
  import Ring
  import opened DeltaList
  import opened Scheduler
  import opened SchedulerInvariant
  import opened Kernel
  import opened BoundedQueue

  /** (p + 1) % size, for a slot number p. */
  lemma NextSlot(p: nat, size: nat)
    requires p < size
    ensures (p + 1) % size == if p + 1 == size then 0 else p + 1
  {
    if p + 1 == size {
      assert size % size == 0;
    }
  }

  class RingQueue {
    const size: nat
    const data: array<Item>
    var head: nat
    var tail: nat
    var ndat: nat

    ghost predicate Valid()
      reads this, data
    {
      && data.Length == size && ndat <= size
      && (size == 0 ==> head == 0 && tail == 0)
      && (size > 0 ==> head < size && tail < size && head == Ring.Slot(tail, ndat, size))
    }

    /** The queued items, oldest first. */
    ghost function Items(): (s: seq<Item>)
      reads this, data
      requires Valid()
      ensures |s| == ndat
    {
      ItemsOf(data[..], tail, ndat)
    }

    /** name_init */
    constructor (qsize: nat)
      ensures Valid() && Items() == [] && size == qsize && fresh(data)
    {
      size := qsize;
      data := new Item[qsize](_ => 0);
      head, tail, ndat := 0, 0, 0;
    }

    /** FIBERQ_PUSH below its wait loop. */
    method Put(x: Item)
      requires Valid() && ndat < size
      modifies this`head, this`ndat, data
      ensures Valid() && Items() == old(Items()) + [x]
    {
      NextSlot(head, size);
      ghost var d := data[..];
      data[head] := x;
      head := (head + 1) % size;
      ndat := ndat + 1;
      PutItem(d, data[..], tail, ndat - 1, x);
    }

    /** FIBERQ_POP below its wait loop. */
    method Take() returns (x: Item)
      requires Valid() && ndat > 0
      modifies this`tail, this`ndat
      ensures Valid() && old(Items()) == [x] + Items()
    {
      NextSlot(tail, size);
      TakeItem(data[..], tail, ndat);
      x := data[tail];
      tail := (tail + 1) % size;
      ndat := ndat - 1;
    }
  }

  ghost function ItemsOf(d: seq<Item>, tail: nat, n: nat): (s: seq<Item>)
    requires n <= |d| && (|d| > 0 ==> tail < |d|)
    ensures |s| == n && forall i :: 0 <= i < n ==> s[i] == d[Ring.Slot(tail, i, |d|)]
  {
    seq(n, i requires 0 <= i < n => d[Ring.Slot(tail, i, |d|)])
  }

  lemma PutItem(d: seq<Item>, d2: seq<Item>, tail: nat, n: nat, x: Item)
    requires n < |d| && tail < |d| && d2 == d[Ring.Slot(tail, n, |d|) := x]
    ensures ItemsOf(d2, tail, n + 1) == ItemsOf(d, tail, n) + [x]
  {
    forall i | 0 <= i < n ensures d2[Ring.Slot(tail, i, |d|)] == d[Ring.Slot(tail, i, |d|)] { }
  }

  lemma TakeItem(d: seq<Item>, tail: nat, n: nat)
    requires 0 < n <= |d| && tail < |d|
    ensures ItemsOf(d, tail, n) == [d[tail]] + ItemsOf(d, if tail + 1 == |d| then 0 else tail + 1, n - 1)
  {
    var t := if tail + 1 == |d| then 0 else tail + 1;
    var a, b := ItemsOf(d, tail, n), [d[tail]] + ItemsOf(d, t, n - 1);
    forall i | 0 <= i < n ensures a[i] == b[i] {
      if i > 0 { assert Ring.Slot(t, i - 1, |d|) == Ring.Slot(tail, i, |d|); }
    }
  }

  /** fiberq as an object on a service thread; each call is one turn, up to the next switch. */
  class FiberQueueObject {
    const rt: ServiceThread
    const ring: RingQueue
    const empt: nat
    const full: nat
    ghost var phase: map<Tid, Phase>

    ghost function View(): Monitor
      reads this, rt, ring, ring.data
      requires ring.Valid()
    {
      Monitor(rt.View(), ring.Items(), ring.size, empt, full, phase)
    }

    ghost predicate Valid()
      reads this, rt, ring, ring.data
    {
      ring.Valid() && MInv(View())
    }

    /** name_init */
    constructor (thread: ServiceThread, size: nat, e: nat, f: nat)
      requires thread.Valid() && e != f && CondQ(e) !in thread.queues && CondQ(f) !in thread.queues
      modifies thread
      ensures Valid() && rt == thread && fresh(ring) && Fresh(View()) && View().limit == size
    {
      rt, empt, full := thread, e, f;
      ring := new RingQueue(size);
      phase := map[];
      new;
      rt.CondInitCall(e);
      rt.CondInitCall(f);
      FreshInv(View());
    }

    /** FIBERQ_PUSH: true when the item is stored, false when the caller went to sleep. */
    method PushCall(x: Item) returns (done: bool)
      requires Valid() && CanAct(View(), Push(x))
      modifies this, rt, ring, ring.data
      ensures Valid() && View() == Next(old(View()), Push(x))
      ensures done <==> old(ring.ndat) < ring.size
    {
      hide Core, CondWait, CondSignal, Wired, Accounted, ItemsOf;
      NextInv(View(), Push(x));
      MonitorWired(View());
      if ring.ndat >= ring.size {
        phase := phase[rt.current := Pushing(x)];
        rt.CondWaitCall(full);
        return false;
      }
      phase := phase[rt.current := Outside];
      ring.Put(x);
      var _ := rt.CondSignalCall(empt);
      return true;
    }

    /** FIBERQ_POP */
    method PopCall() returns (x: Option<Item>)
      requires Valid() && CanAct(View(), Pop)
      modifies this, rt, ring
      ensures Valid() && View() == Next(old(View()), Pop)
      ensures x == if old(ring.Items()) == [] then None else Some(old(ring.Items())[0])
    {
      hide Core, CondWait, CondSignal, Wired, Accounted, ItemsOf;
      NextInv(View(), Pop);
      MonitorWired(View());
      if ring.ndat == 0 {
        phase := phase[rt.current := Popping];
        rt.CondWaitCall(empt);
        return None;
      }
      phase := phase[rt.current := Outside];
      var item := ring.Take();
      var _ := rt.CondSignalCall(full);
      return Some(item);
    }
  }
}
