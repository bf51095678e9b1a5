/**
  blockq: the blocking queue over a linked list. All nodes are allocated up front; a node is
  either on the queue or on the free list. Node pointers are indices, NULL is -1.
 */
module BlockQueue {
  import opened Options
  import opened DeltaList
  import opened Scheduler
  import opened SchedulerInvariant
  import opened Kernel
  import opened BoundedQueue

  const NULL := -1

  predicate Distinct(s: seq<int>) {
    forall i, j :: 0 <= i < j < |s| ==> s[i] != s[j]
  }

  /** `from` leads through exactly the nodes s and ends in NULL. */
  ghost predicate Linked(next: seq<int>, from: int, s: seq<int>)
    decreases |s|
  {
    if s == [] then from == NULL
    else from == s[0] && 0 <= from < |next| && Linked(next, next[from], s[1..])
  }

  lemma {:induction false} InRange(next: seq<int>, from: int, s: seq<int>)
    requires Linked(next, from, s)
    ensures forall i :: 0 <= i < |s| ==> 0 <= s[i] < |next|
    decreases |s|
  {
    if s != [] {
      InRange(next, next[from], s[1..]);
      forall i | 0 <= i < |s| ensures 0 <= s[i] < |next| {
        if i > 0 { assert s[i] == s[1..][i - 1]; }
      }
    }
  }

  lemma Unlink(next: seq<int>, from: int, s: seq<int>)
    requires Linked(next, from, s) && s != []
    ensures from == s[0] && 0 <= from < |next| && Linked(next, next[from], s[1..])
  {
  }

  lemma LinkOnly(next: seq<int>, n: int)
    requires 0 <= n < |next| && next[n] == NULL
    ensures Linked(next, n, [n])
  {
    assert [n][1..] == [];
  }

  lemma HeadOrNull(next: seq<int>, from: int, s: seq<int>)
    requires Linked(next, from, s)
    ensures from == NULL <==> s == []
  {
  }

  /** Writing nodes that are not on the list leaves the list alone. */
  lemma {:induction false} LinkedFrame(next: seq<int>, next2: seq<int>, from: int, s: seq<int>)
    requires Linked(next, from, s) && |next2| == |next|
    requires forall i :: 0 <= i < |s| && 0 <= s[i] < |next| ==> next2[s[i]] == next[s[i]]
    ensures Linked(next2, from, s)
    decreases |s|
  {
    if s != [] {
      forall i | 0 <= i < |s[1..]| && 0 <= s[1..][i] < |next| ensures next2[s[1..][i]] == next[s[1..][i]] {
        assert s[1..][i] == s[i + 1];
      }
      assert next2[s[0]] == next[s[0]];
      LinkedFrame(next, next2, next[from], s[1..]);
    }
  }

  lemma LinkFront(next: seq<int>, from: int, s: seq<int>, n: int)
    requires Linked(next, from, s) && 0 <= n < |next| && next[n] == from
    ensures Linked(next, n, [n] + s)
  {
    assert ([n] + s)[1..] == s;
  }

  lemma {:induction false} LinkBack(next: seq<int>, next2: seq<int>, from: int, s: seq<int>, n: int)
    requires Linked(next, from, s) && s != [] && Distinct(s) && n !in s
    requires 0 <= n < |next| && |next2| == |next| && next2[n] == NULL && 0 <= s[|s| - 1] < |next| && next2[s[|s| - 1]] == n
    requires forall i :: 0 <= i < |next| && i != n && i != s[|s| - 1] ==> next2[i] == next[i]
    ensures Linked(next2, from, s + [n])
    decreases |s|
  {
    assert (s + [n])[1..] == s[1..] + [n];
    if |s| == 1 {
      assert [n][1..] == [];
      assert Linked(next2, n, [n]);
      assert s[1..] + [n] == [n];
    } else {
      assert s[0] != s[|s| - 1] && s[0] in s;
      assert s[1..][|s| - 2] == s[|s| - 1];
      LinkBack(next, next2, next[from], s[1..], n);
    }
  }

  /** Moving the head of the queue to the free list keeps all nodes distinct. */
  lemma RotateDistinct(q: seq<int>, f: seq<int>)
    requires q != [] && Distinct(q + f)
    ensures Distinct(q[1..] + ([q[0]] + f)) && q[0] !in q[1..] && q[0] !in f && Distinct(q)
  {
    var a, b := q + f, q[1..] + ([q[0]] + f);
    forall i, j | 0 <= i < j < |b| ensures b[i] != b[j] {
      var ai := if i < |q| - 1 then i + 1 else if i == |q| - 1 then 0 else i;
      var aj := if j < |q| - 1 then j + 1 else if j == |q| - 1 then 0 else j;
      assert b[i] == a[ai] && b[j] == a[aj];
    }
    forall x | x in q[1..] ensures x != q[0] {
      var i :| 0 <= i < |q[1..]| && q[1..][i] == x;
      assert a[i + 1] == x && a[0] == q[0];
    }
    forall x | x in f ensures x != q[0] {
      var i :| 0 <= i < |f| && f[i] == x;
      assert a[|q| + i] == x && a[0] == q[0];
    }
    forall i, j | 0 <= i < j < |q| ensures q[i] != q[j] { assert a[i] == q[i] && a[j] == q[j]; }
  }

  ghost function ObjectsOf(payload: seq<Item>, nodes: seq<int>): (s: seq<Item>)
    requires forall i :: 0 <= i < |nodes| ==> 0 <= nodes[i] < |payload|
    ensures |s| == |nodes| && forall i :: 0 <= i < |s| ==> s[i] == payload[nodes[i]]
  {
    seq(|nodes|, i requires 0 <= i < |nodes| => payload[nodes[i]])
  }

  lemma PushedObject(p: seq<Item>, p2: seq<Item>, q: seq<int>, n: int, x: Item)
    requires (forall i :: 0 <= i < |q| ==> 0 <= q[i] < |p|) && n !in q && 0 <= n < |p| && p2 == p[n := x]
    ensures forall i :: 0 <= i < |q + [n]| ==> 0 <= (q + [n])[i] < |p2|
    ensures ObjectsOf(p2, q + [n]) == ObjectsOf(p, q) + [x]
  {
    forall i | 0 <= i < |q| ensures p2[q[i]] == p[q[i]] { assert q[i] in q; }
  }

  lemma PoppedObject(p: seq<Item>, q: seq<int>)
    requires (forall i :: 0 <= i < |q| ==> 0 <= q[i] < |p|) && q != []
    ensures forall i :: 0 <= i < |q[1..]| ==> 0 <= q[1..][i] < |p|
    ensures ObjectsOf(p, q) == [p[q[0]]] + ObjectsOf(p, q[1..])
  {
    var a, b := ObjectsOf(p, q), [p[q[0]]] + ObjectsOf(p, q[1..]);
    forall i | 0 <= i < |a| ensures a[i] == b[i] {
      if i > 0 { assert q[1..][i - 1] == q[i]; }
    }
  }

  class NodeQueue {
    const limit: nat
    const next: array<int>
    const payload: array<Item>
    var freelist: int
    var head: int
    var tail: int
    var count: nat
    ghost var queue: seq<int>
    ghost var free: seq<int>

    ghost predicate Valid()
      reads this, next, payload
    {
      && next != payload && next.Length == payload.Length == limit + 8
      && Linked(next[..], head, queue)
      && tail == (if queue == [] then NULL else queue[|queue| - 1])
      && Linked(next[..], freelist, free)
      && Distinct(queue + free) && |queue| + |free| == limit + 8
      && count == |queue|
    }

    /** The queued objects, oldest first. */
    ghost function Items(): seq<Item>
      reads this, next, payload
      requires Valid()
    {
      InRange(next[..], head, queue);
      ObjectsOf(payload[..], queue)
    }

    /** blockq_new: thread every block onto the free list. */
    constructor (size: nat)
      ensures Valid() && Items() == [] && limit == size && fresh(next) && fresh(payload)
    {
      limit := size;
      var blocks := new int[size + 8];
      var objects := new Item[size + 8];
      next, payload := blocks, objects;
      head, tail, count, queue := NULL, NULL, 0, [];
      var list := NULL;
      ghost var nodes: seq<int> := [];
      for i := 0 to size + 8
        invariant Linked(blocks[..], list, nodes) && |nodes| == i
        invariant forall j :: 0 <= j < |nodes| ==> nodes[j] == i - 1 - j
        invariant fresh(blocks) && fresh(objects)
      {
        ghost var old2 := blocks[..];
        blocks[i] := list;
        LinkedFrame(old2, blocks[..], list, nodes);
        LinkFront(blocks[..], list, nodes, i);
        list := i;
        nodes := [i] + nodes;
      }
      freelist, free := list, nodes;
      new;
      assert queue + free == free;
    }

    /** The body of blockq_push below its wait loop: there is always a free node. */
    method PushNode(x: Item)
      requires Valid() && count < limit
      modifies this`freelist, this`head, this`tail, this`count, this`queue, this`free, next, payload
      ensures Valid() && Items() == old(Items()) + [x]
    {
      hide Distinct, ObjectsOf, Linked;
      ghost var q, f := queue, free;
      InRange(next[..], head, q);
      InRange(next[..], freelist, f);
      Unlink(next[..], freelist, f);
      HeadOrNull(next[..], head, q);
      var node := freelist;
      freelist := next[node];
      ghost var n0, p0 := next[..], payload[..];
      payload[node] := x;
      assert payload[..] == p0[node := x];
      next[node] := NULL;
      assert q + [node] + f[1..] == q + f;
      DistinctParts(q, node, f[1..]);
      if tail != NULL {
        next[tail] := node;
        tail := node;
        LinkBack(n0, next[..], head, q, node);
      } else {
        head, tail := node, node;
        LinkOnly(next[..], node);
        assert q + [node] == [node];
      }
      LinkedFrame(n0, next[..], freelist, f[1..]);
      count := count + 1;
      queue, free := q + [node], f[1..];
      assert queue + free == q + f;
      InRange(next[..], head, queue);
      PushedObject(p0, payload[..], q, node, x);
    }

    /** The body of blockq_pop below its wait loop. */
    method PopNode() returns (x: Item)
      requires Valid() && count > 0
      modifies this`freelist, this`head, this`tail, this`count, this`queue, this`free, next
      ensures Valid() && old(Items()) == [x] + Items()
    {
      hide Distinct, ObjectsOf, Linked;
      ghost var q, f := queue, free;
      InRange(next[..], head, q);
      InRange(next[..], freelist, f);
      RotateDistinct(q, f);
      Unlink(next[..], head, q);
      var node := head;
      head := next[head];
      HeadOrNull(next[..], head, q[1..]);
      if head == NULL { tail := NULL; }
      x := payload[node];
      ghost var n0 := next[..];
      next[node] := freelist;
      LinkedFrame(n0, next[..], head, q[1..]);
      LinkedFrame(n0, next[..], freelist, f);
      LinkFront(next[..], freelist, f, node);
      freelist := node;
      count := count - 1;
      queue, free := q[1..], [node] + f;
      InRange(next[..], head, queue);
      PoppedObject(payload[..], q);
    }
  }

  lemma DistinctParts(q: seq<int>, n: int, f: seq<int>)
    requires Distinct(q + [n] + f)
    ensures n !in q && n !in f && Distinct(q) && (q != [] ==> q[|q| - 1] !in f)
  {
    var a := q + [n] + f;
    forall i | 0 <= i < |q| ensures q[i] != n { assert a[i] == q[i] && a[|q|] == n; }
    forall i | 0 <= i < |f| ensures f[i] != n { assert a[|q| + 1 + i] == f[i] && a[|q|] == n; }
    forall i, j | 0 <= i < j < |q| ensures q[i] != q[j] { assert a[i] == q[i] && a[j] == q[j]; }
    if q != [] {
      forall i | 0 <= i < |f| ensures f[i] != q[|q| - 1] {
        assert a[|q| + 1 + i] == f[i] && a[|q| - 1] == q[|q| - 1];
      }
    }
  }

  /** blockq as an object on a service thread; each call is one turn, up to the next switch. */
  class BlockQueueObject {
    const rt: ServiceThread
    const nodes: NodeQueue
    const empt: nat
    const full: nat
    ghost var phase: map<Tid, Phase>

    ghost predicate Valid()
      reads this, rt, nodes, nodes.next, nodes.payload
    {
      nodes.Valid() && MInv(View())
    }

    ghost function View(): Monitor
      reads this, rt, nodes, nodes.next, nodes.payload
      requires nodes.Valid()
    {
      Monitor(rt.View(), nodes.Items(), nodes.limit, empt, full, phase)
    }

    /** blockq_new */
    constructor (thread: ServiceThread, limit: nat, e: nat, f: nat)
      requires thread.Valid() && e != f && CondQ(e) !in thread.queues && CondQ(f) !in thread.queues
      modifies thread
      ensures Valid() && rt == thread && fresh(nodes) && Fresh(View()) && View().limit == limit
    {
      rt, empt, full := thread, e, f;
      nodes := new NodeQueue(limit);
      phase := map[];
      new;
      rt.CondInitCall(e);
      rt.CondInitCall(f);
      FreshInv(View());
    }

    method PushSleeps(x: Item)
      requires Valid() && CanAct(View(), Push(x)) && |View().items| >= View().limit
      modifies this`phase, rt
      ensures Valid() && View() == Next(old(View()), Push(x))
    {
      hide Core, CondWait, CondSignal, Wired, Accounted, ObjectsOf, Linked, Distinct;
      NextInv(View(), Push(x));
      MonitorWired(View());
      phase := phase[rt.current := Pushing(x)];
      rt.CondWaitCall(full);
    }

    method PushStores(x: Item)
      requires Valid() && CanAct(View(), Push(x)) && |View().items| < View().limit
      modifies this`phase, rt, nodes, nodes.next, nodes.payload
      ensures Valid() && View() == Next(old(View()), Push(x))
    {
      hide Core, CondWait, CondSignal, Wired, Accounted, ObjectsOf, Linked, Distinct;
      NextInv(View(), Push(x));
      MonitorWired(View());
      CountIsLength();
      phase := phase[rt.current := Outside];
      nodes.PushNode(x);
      var _ := rt.CondSignalCall(empt);
    }

    /** blockq_push: true when the object is queued, false when the caller went to sleep. */
    method PushCall(x: Item) returns (done: bool)
      requires Valid() && CanAct(View(), Push(x))
      modifies this, rt, nodes, nodes.next, nodes.payload
      ensures Valid() && View() == Next(old(View()), Push(x))
      ensures done <==> old(nodes.count) < nodes.limit
    {
      CountIsLength();
      if nodes.count >= nodes.limit {
        PushSleeps(x);
        return false;
      }
      PushStores(x);
      return true;
    }

    /** blockq_pop */
    method PopCall() returns (x: Option<Item>)
      requires Valid() && CanAct(View(), Pop)
      modifies this, rt, nodes, nodes.next
      ensures Valid() && View() == Next(old(View()), Pop)
      ensures x == if old(nodes.Items()) == [] then None else Some(old(nodes.Items())[0])
    {
      hide Core, CondWait, CondSignal, Wired, Accounted, ObjectsOf, Linked, Distinct;
      NextInv(View(), Pop);
      MonitorWired(View());
      CountIsLength();
      if nodes.count == 0 {
        phase := phase[rt.current := Popping];
        rt.CondWaitCall(empt);
        return None;
      }
      phase := phase[rt.current := Outside];
      var item := nodes.PopNode();
      var _ := rt.CondSignalCall(full);
      return Some(item);
    }

    lemma CountIsLength()
      requires nodes.Valid()
      ensures nodes.count == |nodes.Items()|
    {
      InRange(nodes.next[..], nodes.head, nodes.queue);
    }
  }
}
