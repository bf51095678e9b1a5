/**
  All the chains of a service thread in one memory. The `node` link of a control block is on at most
  one of the ready list and the wait queues, its `link` on at most the watchdog list; the chains share
  no word, so the macros, which name only a node, change exactly one of them.
 */
module NodeMemory {
  import opened DeltaList
  import opened Scheduler
  import opened SchedulerInvariant
  import Chain

  // ----- families of chains -------------------------------------------------------------

  /** Each key's chain is intact, and no two chains share a word. */
  ghost predicate Family<K(!new)>(mem: seq<nat>, head: map<K, nat>, cs: map<K, seq<nat>>) {
    && cs.Keys <= head.Keys
    && (forall k :: k in cs ==> Chain.IsChain(mem, head[k], cs[k]))
    && (forall j, k :: j in cs && k in cs && j != k ==> Chain.Disjoint(head[j], cs[j], head[k], cs[k]))
  }

  /** The two words of a node at n belong to no chain. */
  ghost predicate Unowned<K(!new)>(head: map<K, nat>, cs: map<K, seq<nat>>, n: nat) {
    cs.Keys <= head.Keys &&
    forall k :: k in cs ==> !Chain.Owns(head[k], cs[k], n) && !Chain.Owns(head[k], cs[k], n + 1)
  }

  lemma RemovedOwns(c: nat, s: seq<nat>, i: nat, a: nat)
    requires i < |s| && Chain.Separate(Chain.Path(c, s)) && Chain.Owns(c, s[..i] + s[i + 1..], a)
    ensures Chain.Owns(c, s, a) && a != s[i] && a != s[i] + 1
  {
    var p, q := Chain.Path(c, s), Chain.Path(c, s[..i] + s[i + 1..]);
    var j :| 0 <= j < |q| && (a == q[j] || a == q[j] + 1);
    var k := if j <= i then j else j + 1;
    assert q[j] == p[k] && p[i + 1] == s[i];
    Chain.OwnsNode(c, s, k);
    Chain.Apart(p, i + 1, k);
    Chain.Apart(p, k, i + 1);
  }

  lemma InsertedOwns(c: nat, s: seq<nat>, i: nat, n: nat, a: nat)
    requires i <= |s| && Chain.Owns(c, s[..i] + [n] + s[i..], a)
    ensures Chain.Owns(c, s, a) || a == n || a == n + 1
  {
    var p, q := Chain.Path(c, s), Chain.Path(c, s[..i] + [n] + s[i..]);
    var j :| 0 <= j < |q| && (a == q[j] || a == q[j] + 1);
    if j <= i {
      assert q[j] == p[j];
      Chain.OwnsNode(c, s, j);
    } else if j > i + 1 {
      assert q[j] == p[j - 1];
      Chain.OwnsNode(c, s, j - 1);
    }
  }

  lemma SeparateInserted(c: nat, s: seq<nat>, i: nat, n: nat)
    requires i <= |s| && Chain.Separate(Chain.Path(c, s)) && !Chain.Owns(c, s, n) && !Chain.Owns(c, s, n + 1)
    ensures Chain.Separate(Chain.Path(c, s[..i] + [n] + s[i..]))
  {
    var p, q := Chain.Path(c, s), Chain.Path(c, s[..i] + [n] + s[i..]);
    hide Chain.Separate, Chain.Owns;
    forall j, k | 0 <= j < |q| && 0 <= k < |q|
      ensures j < k ==> q[j] != q[k]
      ensures q[j] + 1 == q[k] ==> j == 0 && k == |q| - 1
    {
      var pj, pk := if j <= i then j else j - 1, if k <= i then k else k - 1;
      Chain.OwnsNode(c, s, pj); Chain.OwnsNode(c, s, pk);
      assert j != i + 1 ==> q[j] == p[pj];
      assert k != i + 1 ==> q[k] == p[pk];
      assert q[i + 1] == n;
      Chain.Apart(p, pj, pk);
    }
    Chain.SeparateIntro(q);
  }

  /** A chain of the family is kept by writes inside another one. */
  lemma OthersKept<K(!new)>(mem: seq<nat>, mem2: seq<nat>, head: map<K, nat>, cs: map<K, seq<nat>>, k: K, j: K, grown: seq<nat>)
    requires Family(mem, head, cs) && k in cs && j in cs && j != k && |mem2| == |mem|
    requires forall a: nat :: a < |mem| && !Chain.Owns(head[k], grown, a) ==> mem2[a] == mem[a]
    requires Chain.Disjoint(head[k], grown, head[j], cs[j])
    ensures Chain.IsChain(mem2, head[j], cs[j])
  {
    hide Chain.IsChain, Chain.Owns;
    assert Chain.IsChain(mem, head[j], cs[j]);
    Chain.ChainFrame(mem, mem2, head[j], cs[j]);
  }

  /** _CHAIN_REMOVE in a family: the named node leaves its chain, and nothing else changes. */
  method RemoveFrom<K(!new)>(mem: array<nat>, n: nat, ghost head: map<K, nat>, ghost cs: map<K, seq<nat>>, ghost k: K, ghost i: nat)
    requires Family(mem[..], head, cs) && k in cs && i < |cs[k]| && cs[k][i] == n
    modifies mem
    ensures var r := cs[k := cs[k][..i] + cs[k][i + 1..]];
      Family(mem[..], head, r) && Unowned(head, r, n)
  {
    ghost var m0 := mem[..];
    ghost var s, t := cs[k], cs[k][..i] + cs[k][i + 1..];
    ghost var r := cs[k := t];
    RemovedApart(m0, head, cs, k, i);
    Chain.Remove(mem, n, head[k], s, i);
    hide Chain.IsChain, Chain.Owns, Chain.Disjoint, Unowned;
    forall j | j in r ensures Chain.IsChain(mem[..], head[j], r[j]) {
      if j != k { OthersKept(m0, mem[..], head, cs, k, j, s); }
    }
  }

  lemma RemovedApart<K(!new)>(mem: seq<nat>, head: map<K, nat>, cs: map<K, seq<nat>>, k: K, i: nat)
    requires Family(mem, head, cs) && k in cs && i < |cs[k]|
    ensures var r := cs[k := cs[k][..i] + cs[k][i + 1..]];
      && Unowned(head, r, cs[k][i])
      && (forall a, b :: a in r && b in r && a != b ==> Chain.Disjoint(head[a], r[a], head[b], r[b]))
  {
    ChainSeparate(mem, head, cs, k);
    RemovedUnowned(mem, head, cs, k, i);
    hide Chain.IsChain, Chain.Separate, Unowned;
    var s, t := cs[k], cs[k][..i] + cs[k][i + 1..];
    var r := cs[k := t];
    forall j | j in r && j != k
      ensures Chain.Disjoint(head[k], t, head[j], r[j]) && Chain.Disjoint(head[j], r[j], head[k], t)
    {
      assert Chain.Disjoint(head[k], s, head[j], cs[j]);
      RemovedDisjoint(head[k], s, i, head[j], cs[j]);
    }
    hide Chain.Disjoint;
  }

  lemma RemovedDisjoint(c: nat, s: seq<nat>, i: nat, d: nat, u: seq<nat>)
    requires i < |s| && Chain.Separate(Chain.Path(c, s)) && Chain.Disjoint(c, s, d, u)
    ensures Chain.Disjoint(c, s[..i] + s[i + 1..], d, u) && Chain.Disjoint(d, u, c, s[..i] + s[i + 1..])
  {
    hide Chain.Owns, Chain.Separate;
    forall a: nat | Chain.Owns(c, s[..i] + s[i + 1..], a) ensures Chain.Owns(c, s, a) { RemovedOwns(c, s, i, a); }
  }

  lemma RemovedUnowned<K(!new)>(mem: seq<nat>, head: map<K, nat>, cs: map<K, seq<nat>>, k: K, i: nat)
    requires Family(mem, head, cs) && k in cs && i < |cs[k]|
    ensures Unowned(head, cs[k := cs[k][..i] + cs[k][i + 1..]], cs[k][i])
  {
    var s, t, n := cs[k], cs[k][..i] + cs[k][i + 1..], cs[k][i];
    ChainSeparate(mem, head, cs, k);
    NodeOwned(head[k], s, i);
    hide Chain.Owns, Chain.Separate, Chain.IsChain;
    forall j | j in cs[k := t]
      ensures !Chain.Owns(head[j], cs[k := t][j], n) && !Chain.Owns(head[j], cs[k := t][j], n + 1)
    {
      if j == k {
        if Chain.Owns(head[k], t, n) { RemovedOwns(head[k], s, i, n); }
        if Chain.Owns(head[k], t, n + 1) { RemovedOwns(head[k], s, i, n + 1); }
      } else {
        assert Chain.Disjoint(head[k], s, head[j], cs[j]);
      }
    }
  }

  lemma ChainSeparate<K(!new)>(mem: seq<nat>, head: map<K, nat>, cs: map<K, seq<nat>>, k: K)
    requires Family(mem, head, cs) && k in cs
    ensures Chain.Separate(Chain.Path(head[k], cs[k]))
  {
    assert Chain.IsChain(mem, head[k], cs[k]);
  }

  lemma NodeOwned(c: nat, s: seq<nat>, i: nat)
    requires i < |s|
    ensures Chain.Owns(c, s, s[i]) && Chain.Owns(c, s, s[i] + 1)
  {
    assert Chain.Path(c, s)[i + 1] == s[i];
    Chain.OwnsNode(c, s, i + 1);
  }

  /** Inserting a node nobody owns keeps the chains apart. */
  lemma InsertedApart<K(!new)>(mem: seq<nat>, head: map<K, nat>, cs: map<K, seq<nat>>, k: K, i: nat, n: nat)
    requires Family(mem, head, cs) && k in cs && i <= |cs[k]| && Unowned(head, cs, n)
    ensures var r := cs[k := cs[k][..i] + [n] + cs[k][i..]];
      && Chain.Separate(Chain.Path(head[k], r[k]))
      && (forall a, b :: a in r && b in r && a != b ==> Chain.Disjoint(head[a], r[a], head[b], r[b]))
  {
    var s, t := cs[k], cs[k][..i] + [n] + cs[k][i..];
    var r := cs[k := t];
    assert Chain.IsChain(mem, head[k], s);
    SeparateInserted(head[k], s, i, n);
    forall a: nat | Chain.Owns(head[k], t, a) ensures Chain.Owns(head[k], s, a) || a == n || a == n + 1 {
      InsertedOwns(head[k], s, i, n, a);
    }
    hide Chain.Owns, Chain.IsChain, Chain.Separate;
    forall j | j in r && j != k
      ensures Chain.Disjoint(head[k], t, head[j], r[j]) && Chain.Disjoint(head[j], r[j], head[k], t)
    {
      assert Chain.Disjoint(head[k], s, head[j], cs[j]);
    }
  }

  /** _CHAIN_INSERT_BEFORE in a family: a node nobody owns joins one chain, and nothing else changes. */
  method InsertInto<K(!new)>(mem: array<nat>, b: nat, n: nat, ghost head: map<K, nat>, ghost cs: map<K, seq<nat>>, ghost k: K, ghost i: nat)
    requires Family(mem[..], head, cs) && k in cs && i <= |cs[k]| && Chain.Path(head[k], cs[k])[i + 1] == b
    requires Unowned(head, cs, n) && 0 < n && n + 1 < mem.Length
    modifies mem
    ensures Family(mem[..], head, cs[k := cs[k][..i] + [n] + cs[k][i..]])
  {
    ghost var m0 := mem[..];
    ghost var s, t := cs[k], cs[k][..i] + [n] + cs[k][i..];
    ghost var r := cs[k := t];
    InsertedApart(m0, head, cs, k, i, n);
    Chain.InsertBefore(mem, b, n, head[k], s, i);
    hide Chain.IsChain, Chain.Owns, Chain.Disjoint, Chain.Separate, Unowned;
    forall j | j in r ensures Chain.IsChain(mem[..], head[j], r[j]) {
      if j != k { OthersKept(m0, mem[..], head, cs, k, j, t); }
    }
  }

  /** _CHAIN_INSERT_TAIL in a family. */
  method AppendTo<K(!new)>(mem: array<nat>, c: nat, n: nat, ghost head: map<K, nat>, ghost cs: map<K, seq<nat>>, ghost k: K)
    requires Family(mem[..], head, cs) && k in cs && head[k] == c
    requires Unowned(head, cs, n) && 0 < n && n + 1 < mem.Length
    modifies mem
    ensures Family(mem[..], head, cs[k := cs[k] + [n]])
  {
    ghost var m0 := mem[..];
    ghost var s, t := cs[k], cs[k] + [n];
    ghost var r := cs[k := t];
    assert s[..|s|] + [n] + s[|s|..] == t;
    InsertedApart(m0, head, cs, k, |s|, n);
    Chain.Append(mem, c, n, s);
    hide Chain.IsChain, Chain.Owns, Chain.Disjoint, Chain.Separate, Unowned;
    forall j | j in r ensures Chain.IsChain(mem[..], head[j], r[j]) {
      if j != k { OthersKept(m0, mem[..], head, cs, k, j, t); }
    }
  }

  // ----- the chains of a service thread -----------------------------------------------------

  /** The chains of a thread: one for each queue, threaded through `node`, and the watchdog list, through `link`. */
  datatype Key = Of(q: Qid) | Watchdog

  /** Where the headers and the two link pairs of every control block are. */
  datatype Layout = Layout(head: map<Key, nat>, node: map<Tid, nat>, link: map<Tid, nat>)

  function At(m: map<Tid, nat>, t: Tid): nat { if t in m then m[t] else 0 }

  function Nodes(m: map<Tid, nat>, q: seq<Tid>): (s: seq<nat>)
    ensures |s| == |q| && forall i :: 0 <= i < |q| ==> s[i] == At(m, q[i])
  {
    seq(|q|, i requires 0 <= i < |q| => At(m, q[i]))
  }

  function Links(m: map<Tid, nat>, l: seq<Entry>): (s: seq<nat>)
    ensures |s| == |l| && forall i :: 0 <= i < |l| ==> s[i] == At(m, l[i].task)
  {
    seq(|l|, i requires 0 <= i < |l| => At(m, l[i].task))
  }

  /** What the memory should hold for a state of the scheduler. */
  function ChainsOf(l: Layout, queues: map<Qid, seq<Tid>>, wadog: seq<Entry>): (cs: map<Key, seq<nat>>)
  {
    (map k: Key | k in l.head && k.Of? && k.q in queues :: Nodes(l.node, queues[k.q]))[Watchdog := Links(l.link, wadog)]
  }

  /** Two nodes, or a node and a header, that share no word. */
  predicate Far(a: nat, b: nat) { a + 1 < b || b + 1 < a }

  predicate Clear(c: nat, n: nat) { n + 1 < c || c + 2 < n }

  /** Every control block has its own words, apart from every header. */
  ghost predicate LaidOut(l: Layout, tasks: set<Tid>, size: nat) {
    && tasks <= l.node.Keys && Watchdog in l.head
    && (forall t :: t in tasks ==> 0 < l.node[t] && l.node[t] + 1 < size)
    && (forall t, u :: t in tasks && u in tasks && t != u ==> Far(l.node[t], l.node[u]))
    && (forall t, u :: t in tasks && u in l.link ==> Far(l.node[t], l.link[u]))
    && (forall k, t :: k in l.head && t in tasks ==> Clear(l.head[k], l.node[t]))
  }

  /** The memory holds these queues and this watchdog list. */
  ghost predicate Holds(mem: seq<nat>, l: Layout, tasks: set<Tid>, queues: map<Qid, seq<Tid>>, wadog: seq<Entry>) {
    && LaidOut(l, tasks, |mem|)
    && (forall q :: q in queues ==> Of(q) in l.head)
    && (forall i :: 0 <= i < |wadog| ==> wadog[i].task in l.link)
    && Family(mem, l.head, ChainsOf(l, queues, wadog))
  }

  /** The memory holds the queues of s, beside the watchdog list w. */
  ghost predicate Rep(mem: seq<nat>, l: Layout, s: State, w: seq<Entry>) { Holds(mem, l, s.tasks.Keys, s.queues, w) }

  /** No task is queued twice. */
  ghost predicate Once(tasks: set<Tid>, queues: map<Qid, seq<Tid>>) {
    && (forall q :: q in queues ==> NoDup(queues[q]))
    && (forall q, t :: q in queues && t in queues[q] ==> t in tasks)
    && (forall p, q, t :: p in queues && q in queues && t in queues[p] && t in queues[q] ==> p == q)
  }

  predicate Nowhere(queues: map<Qid, seq<Tid>>, t: Tid) { forall q :: q in queues ==> t !in queues[q] }

  lemma ChainsSet(l: Layout, queues: map<Qid, seq<Tid>>, wadog: seq<Entry>, q: Qid, x: seq<Tid>)
    requires Of(q) in l.head && q in queues
    ensures ChainsOf(l, queues[q := x], wadog) == ChainsOf(l, queues, wadog)[Of(q) := Nodes(l.node, x)]
    ensures Of(q) in ChainsOf(l, queues, wadog) && ChainsOf(l, queues, wadog)[Of(q)] == Nodes(l.node, queues[q])
  {
  }

  lemma {:induction false} WithoutIndex(q: seq<Tid>, t: Tid, i: nat)
    requires NoDup(q) && i < |q| && q[i] == t
    ensures Without(q, t) == q[..i] + q[i + 1..]
  {
    if i > 0 {
      assert q[i] in q[1..];
      WithoutIndex(q[1..], t, i - 1);
      assert q[..i] == [q[0]] + q[1..][..i - 1];
    }
  }

  lemma NodesWithout(m: map<Tid, nat>, q: seq<Tid>, t: Tid, i: nat)
    requires NoDup(q) && i < |q| && q[i] == t
    ensures Nodes(m, Without(q, t)) == Nodes(m, q)[..i] + Nodes(m, q)[i + 1..]
  {
    WithoutIndex(q, t, i);
  }

  lemma NodesBefore(m: map<Tid, nat>, q: seq<Tid>, x: Tid, t: Tid)
    requires NoDup(q) && q != [] && q[|q| - 1] == x && t !in q
    ensures Nodes(m, Before(q, x, t)) == Nodes(m, q)[..|q| - 1] + [At(m, t)] + Nodes(m, q)[|q| - 1..]
  {
    BeforeFacts(q, x, t);
  }

  lemma NodesAt(m: map<Tid, nat>, q: seq<Tid>, i: nat)
    requires i < |q|
    ensures |Nodes(m, q)| == |q| && Nodes(m, q)[i] == At(m, q[i])
  {
  }

  lemma NodesAppend(m: map<Tid, nat>, q: seq<Tid>, t: Tid)
    ensures Nodes(m, q + [t]) == Nodes(m, q) + [At(m, t)]
  {
  }

  lemma LastNode(c: nat, m: map<Tid, nat>, q: seq<Tid>)
    requires q != []
    ensures Chain.Path(c, Nodes(m, q))[|q|] == At(m, q[|q| - 1])
  {
  }

  /** The words of a queued node's owner: a chain owns exactly its header and its tasks' nodes. */
  lemma OwnedByQueue(c: nat, m: map<Tid, nat>, q: seq<Tid>, n: nat)
    requires Clear(c, n) && forall t :: t in q ==> Far(At(m, t), n)
    ensures !Chain.Owns(c, Nodes(m, q), n) && !Chain.Owns(c, Nodes(m, q), n + 1)
  {
    var s := Nodes(m, q);
    var p := Chain.Path(c, s);
    forall i | 0 <= i < |p| ensures n != p[i] && n != p[i] + 1 && n + 1 != p[i] {
      if 1 <= i <= |s| { assert p[i] == At(m, q[i - 1]) && q[i - 1] in q; }
    }
  }

  lemma OwnedByWatchdog(c: nat, m: map<Tid, nat>, w: seq<Entry>, n: nat)
    requires Clear(c, n) && forall i :: 0 <= i < |w| ==> Far(At(m, w[i].task), n)
    ensures !Chain.Owns(c, Links(m, w), n) && !Chain.Owns(c, Links(m, w), n + 1)
  {
    var s := Links(m, w);
    var p := Chain.Path(c, s);
    forall i | 0 <= i < |p| ensures n != p[i] && n != p[i] + 1 && n + 1 != p[i] {
      if 1 <= i <= |s| { assert p[i] == At(m, w[i - 1].task); }
    }
  }

  /** A task on no queue has a node that no chain owns. */
  lemma NowhereIsUnowned(mem: seq<nat>, l: Layout, tasks: set<Tid>, queues: map<Qid, seq<Tid>>, wadog: seq<Entry>, t: Tid)
    requires Holds(mem, l, tasks, queues, wadog) && Once(tasks, queues) && t in tasks && Nowhere(queues, t)
    ensures Unowned(l.head, ChainsOf(l, queues, wadog), l.node[t])
  {
    var cs, n := ChainsOf(l, queues, wadog), l.node[t];
    forall k | k in cs ensures !Chain.Owns(l.head[k], cs[k], n) && !Chain.Owns(l.head[k], cs[k], n + 1) {
      match k
      case Of(q) => OwnedByQueue(l.head[k], l.node, queues[q], n);
      case Watchdog => OwnedByWatchdog(l.head[k], l.link, wadog, n);
    }
  }

  // ----- the splices, on words, refine the splices on queues --------------------------------------

  /** Taking a task off whatever queue it is on; only its node is named. */
  method TakeOff(mem: array<nat>, n: nat,
                 ghost l: Layout, ghost tasks: set<Tid>, ghost queues: map<Qid, seq<Tid>>, ghost wadog: seq<Entry>,
                 ghost q: Qid, ghost t: Tid)
    requires Holds(mem[..], l, tasks, queues, wadog) && Once(tasks, queues)
    requires q in queues && t in queues[q] && l.node[t] == n
    modifies mem
    ensures Holds(mem[..], l, tasks, queues[q := Without(queues[q], t)], wadog)
  {
    ghost var i :| 0 <= i < |queues[q]| && queues[q][i] == t;
    ghost var m0, cs := mem[..], ChainsOf(l, queues, wadog);
    assert Family(m0, l.head, cs) && Of(q) in l.head && NoDup(queues[q]) && t in tasks;
    NodeAt(m0, l, tasks, queues, wadog, t);
    hide *;
    NodesWithout(l.node, queues[q], t, i);
    ChainsSet(l, queues, wadog, q, Without(queues[q], t));
    NodesAt(l.node, queues[q], i);
    RemoveFrom(mem, n, l.head, cs, Of(q), i);
    HoldsAgain(m0, mem[..], l, tasks, queues, wadog, q, Without(queues[q], t));
  }

  /** What an insertion before the last task means for the family. */
  lemma BeforeChains(l: Layout, queues: map<Qid, seq<Tid>>, wadog: seq<Entry>, q: Qid, x: Tid, t: Tid, cs: map<Key, seq<nat>>, d: seq<nat>)
    requires q in queues && NoDup(queues[q]) && queues[q] != [] && queues[q][|queues[q]| - 1] == x && t !in queues[q]
    requires Of(q) in l.head && cs == ChainsOf(l, queues, wadog) && d == Nodes(l.node, queues[q])
    ensures Of(q) in cs && cs[Of(q)] == d && |d| == |queues[q]|
    ensures Chain.Path(l.head[Of(q)], d)[|d|] == At(l.node, x)
    ensures cs[Of(q) := d[..|d| - 1] + [At(l.node, t)] + d[|d| - 1..]] == ChainsOf(l, queues[q := Before(queues[q], x, t)], wadog)
  {
    NodesBefore(l.node, queues[q], x, t);
    LastNode(l.head[Of(q)], l.node, queues[q]);
    ChainsSet(l, queues, wadog, q, Before(queues[q], x, t));
    hide *;
  }

  /** The address of a task of the thread. */
  lemma NodeAt(mem: seq<nat>, l: Layout, tasks: set<Tid>, queues: map<Qid, seq<Tid>>, wadog: seq<Entry>, t: Tid)
    requires Holds(mem, l, tasks, queues, wadog) && t in tasks
    ensures t in l.node && At(l.node, t) == l.node[t] && 0 < l.node[t] && l.node[t] + 1 < |mem|
  {
    hide Family;
  }

  /** Changing one queue and nothing else of the arrangement. */
  lemma HoldsAgain(mem: seq<nat>, mem2: seq<nat>, l: Layout, tasks: set<Tid>, queues: map<Qid, seq<Tid>>, wadog: seq<Entry>, q: Qid, x: seq<Tid>)
    requires Holds(mem, l, tasks, queues, wadog) && q in queues && |mem2| == |mem|
    requires Family(mem2, l.head, ChainsOf(l, queues[q := x], wadog))
    ensures Holds(mem2, l, tasks, queues[q := x], wadog)
  {
    hide Family, ChainsOf;
  }

  /** Putting a task that is on no queue before the last one of a queue. */
  method PutBefore(mem: array<nat>, b: nat, n: nat,
                   ghost l: Layout, ghost tasks: set<Tid>, ghost queues: map<Qid, seq<Tid>>, ghost wadog: seq<Entry>,
                   ghost q: Qid, ghost x: Tid, ghost t: Tid)
    requires Holds(mem[..], l, tasks, queues, wadog) && Once(tasks, queues) && q in queues
    requires queues[q] != [] && queues[q][|queues[q]| - 1] == x && x in tasks && l.node[x] == b
    requires t in tasks && Nowhere(queues, t) && l.node[t] == n
    modifies mem
    ensures Holds(mem[..], l, tasks, queues[q := Before(queues[q], x, t)], wadog)
  {
    ghost var m0, cs, d := mem[..], ChainsOf(l, queues, wadog), Nodes(l.node, queues[q]);
    assert Family(m0, l.head, cs) && Of(q) in l.head && NoDup(queues[q]) && t !in queues[q];
    NowhereIsUnowned(m0, l, tasks, queues, wadog, t);
    NodeAt(m0, l, tasks, queues, wadog, t);
    NodeAt(m0, l, tasks, queues, wadog, x);
    hide *;
    BeforeChains(l, queues, wadog, q, x, t, cs, d);
    InsertInto(mem, b, n, l.head, cs, Of(q), |d| - 1);
    HoldsAgain(m0, mem[..], l, tasks, queues, wadog, q, Before(queues[q], x, t));
  }

  /** Putting a task that is on no queue at the end of a queue. */
  method PutLast(mem: array<nat>, c: nat, n: nat,
                 ghost l: Layout, ghost tasks: set<Tid>, ghost queues: map<Qid, seq<Tid>>, ghost wadog: seq<Entry>,
                 ghost q: Qid, ghost t: Tid)
    requires Holds(mem[..], l, tasks, queues, wadog) && Once(tasks, queues) && q in queues
    requires Of(q) in l.head && l.head[Of(q)] == c
    requires t in tasks && Nowhere(queues, t) && l.node[t] == n
    modifies mem
    ensures Holds(mem[..], l, tasks, queues[q := queues[q] + [t]], wadog)
  {
    ghost var m0, cs, d := mem[..], ChainsOf(l, queues, wadog), Nodes(l.node, queues[q]);
    assert Family(m0, l.head, cs);
    NowhereIsUnowned(m0, l, tasks, queues, wadog, t);
    NodeAt(m0, l, tasks, queues, wadog, t);
    NodesAppend(l.node, queues[q], t);
    ChainsSet(l, queues, wadog, q, queues[q] + [t]);
    hide *;
    AppendTo(mem, c, n, l.head, cs, Of(q));
    HoldsAgain(m0, mem[..], l, tasks, queues, wadog, q, queues[q] + [t]);
  }

  // ----- the three movements every call is made of, on words --------------------------------------

  lemma OnceOf(s: State)
    requires Chains(s)
    ensures Once(s.tasks.Keys, s.queues)
  {
    forall p, q, t | p in s.queues && q in s.queues && t in s.queues[p] && t in s.queues[q] ensures p == q {
      assert s.tasks[t].place == On(p) && s.tasks[t].place == On(q);
    }
  }

  lemma AfterTakeOff(tasks: set<Tid>, queues: map<Qid, seq<Tid>>, q: Qid, t: Tid)
    requires Once(tasks, queues) && q in queues && t in queues[q]
    ensures var r := queues[q := Without(queues[q], t)]; Once(tasks, r) && Nowhere(r, t)
  {
    WithoutFacts(queues[q], t);
    hide NoDup, Without;
  }

  /** The first word of a chain's header is the node of its first task. */
  lemma FirstOf(mem: seq<nat>, l: Layout, tasks: set<Tid>, queues: map<Qid, seq<Tid>>, wadog: seq<Entry>, q: Qid)
    requires Holds(mem, l, tasks, queues, wadog) && Once(tasks, queues) && q in queues && queues[q] != []
    ensures Of(q) in l.head && l.head[Of(q)] < |mem| && queues[q][0] in tasks
    ensures mem[l.head[Of(q)]] == l.node[queues[q][0]]
    ensures forall t :: t in tasks ==> (l.node[t] == l.node[queues[q][0]] <==> t == queues[q][0])
  {
    var s := Nodes(l.node, queues[q]);
    assert queues[q][0] in queues[q];
    ChainsSet(l, queues, wadog, q, queues[q]);
    assert Chain.IsChain(mem, l.head[Of(q)], s);
    Chain.NextOfFirst(mem, l.head[Of(q)], s);
    assert (s + [l.head[Of(q)] + 1])[0] == s[0];
  }

  /**
    fiber_sched on words: the first node moves to the end of the ready list, before the maintask,
    unless it is the caller's own.
   */
  method SchedOnWords(mem: array<nat>, ready: nat, cur: nat, mainNode: nat, ghost l: Layout, ghost s: State, ghost w: seq<Entry>)
    returns (next: nat)
    requires Core(s) && s.current in s.tasks && Rep(mem[..], l, s, w)
    requires Of(Ready) in l.head && l.head[Of(Ready)] == ready
    requires At(l.node, s.current) == cur && At(l.node, s.main) == mainNode
    modifies mem
    ensures Rep(mem[..], l, Sched(s), w) && next == At(l.node, Sched(s).current)
  {
    hide *;
    ReadyShape(s);
    CoreOnce(s);
    RepHolds(mem[..], l, s, w);
    ghost var tasks, qs, r := s.tasks.Keys, s.queues, s.queues[Ready];
    FirstOf(mem[..], l, tasks, qs, w, Ready);
    NodeAt(mem[..], l, tasks, qs, w, s.current);
    NodeAt(mem[..], l, tasks, qs, w, s.main);
    NodeAt(mem[..], l, tasks, qs, w, r[0]);
    AfterTakeOff(tasks, qs, Ready, r[0]);
    SchedQueues(s);
    next := mem[ready];
    if next == cur { return; }
    TakeOff(mem, next, l, tasks, qs, w, Ready, r[0]);
    ghost var q1 := qs[Ready := Without(r, r[0])];
    if next != mainNode {
      PutBefore(mem, mainNode, next, l, tasks, q1, w, Ready, s.main, r[0]);
    } else {
      PutLast(mem, ready, next, l, tasks, q1, w, Ready, r[0]);
    }
    SchedRep(mem[..], l, s, w);
  }

  lemma CoreOnce(s: State)
    requires Core(s)
    ensures Once(s.tasks.Keys, s.queues)
  {
    OnceOf(s);
  }

  lemma ReadyShape(s: State)
    requires Core(s)
    ensures Ready in s.queues && s.queues[Ready] != [] && s.main in s.tasks && s.queues[Ready][0] in s.queues[Ready]
    ensures s.queues[Ready][0] in s.tasks
    ensures var q := Without(s.queues[Ready], s.queues[Ready][0]);
      s.queues[Ready][0] != s.main ==> q != [] && q[|q| - 1] == s.main
  {
    var r := s.queues[Ready];
    assert r[|r| - 1] in r && r[0] in r;
  }

  /** Sched, as two updates of the ready list. */
  lemma SchedQueues(s: State)
    requires Ready in s.queues && s.queues[Ready] != []
    ensures var r := s.queues[Ready];
            var q1 := s.queues[Ready := Without(r, r[0])];
      && Ready in q1 && q1[Ready] == Without(r, r[0])
      && (r[0] == s.current ==> Sched(s) == s)
      && (r[0] != s.current ==>
            && Sched(s) == s.(current := r[0], queues := Sched(s).queues)
            && Sched(s).queues == (if r[0] != s.main then q1[Ready := Before(q1[Ready], s.main, r[0])]
                                   else q1[Ready := q1[Ready] + [r[0]]]))
  {
    hide Before;
  }

  lemma SchedRep(mem: seq<nat>, l: Layout, s: State, w: seq<Entry>)
    requires Holds(mem, l, s.tasks.Keys, Sched(s).queues, w) && Sched(s).tasks == s.tasks
    ensures Rep(mem, l, Sched(s), w)
  {
    hide Sched, Holds;
  }

  /** Leaving the ready list for a wait queue, or for none: the queues of Scheduler.Parked. */
  method ParkOnWords(mem: array<nat>, cur: nat, joins: bool, header: nat,
                     ghost l: Layout, ghost s: State, ghost tcb: Tcb, ghost timer: Timer, ghost w: seq<Entry>)
    requires CanPark(s, tcb, timer) && Rep(mem[..], l, s, w) && At(l.node, s.current) == cur
    requires joins <==> tcb.place.On?
    requires joins ==> Of(tcb.place.q) in l.head && l.head[Of(tcb.place.q)] == header
    modifies mem
    ensures Holds(mem[..], l, s.tasks.Keys, Parked(s, tcb, timer).queues, w)
  {
    ghost var tasks, qs := s.tasks.Keys, s.queues;
    ParkingFrom(s, tcb, timer);
    ParkingOnce(s, tcb, timer);
    ParkedMap(s, tcb, timer);
    NodeAt(mem[..], l, tasks, qs, w, s.current);
    AfterTakeOff(tasks, qs, Ready, s.current);
    hide *;
    TakeOff(mem, cur, l, tasks, qs, w, Ready, s.current);
    if joins {
      ghost var q1 := qs[Ready := Without(qs[Ready], s.current)];
      PutLast(mem, header, cur, l, tasks, q1, w, tcb.place.q, s.current);
    }
  }

  lemma ParkingOnce(s: State, tcb: Tcb, timer: Timer)
    requires CanPark(s, tcb, timer)
    ensures Ready in s.queues && s.current in s.tasks && Once(s.tasks.Keys, s.queues)
  {
    OnceOf(s);
  }

  /** Leaving a wait queue, if on one, for the end of the ready list: the queues of Scheduler.Woken. */
  method WakeOnWords(mem: array<nat>, n: nat, mainNode: nat, queued: bool,
                     ghost l: Layout, ghost s: State, ghost t: Tid, ghost tcb: Tcb, ghost timers: seq<Entry>, ghost w: seq<Entry>)
    requires Core(s) && t in s.tasks && s.tasks[t].place != On(Ready) && Rep(mem[..], l, s, w)
    requires At(l.node, t) == n && At(l.node, s.main) == mainNode && (queued <==> s.tasks[t].place.On?)
    modifies mem
    ensures Holds(mem[..], l, s.tasks.Keys, Woken(s, t, tcb, timers).queues, w)
  {
    hide *;
    ghost var tasks, qs, q1 := s.tasks.Keys, s.queues, Vacated(s, t);
    RepHolds(mem[..], l, s, w);
    ReadyShape(s);
    WakingFrom(s, t);
    VacatedIs(s, t);
    VacatedOnce(s, t);
    VacatedReady(s, t, tcb, timers);
    NodeAt(mem[..], l, tasks, qs, w, t);
    NodeAt(mem[..], l, tasks, qs, w, s.main);
    if queued { TakeOff(mem, n, l, tasks, qs, w, s.tasks[t].place.q, t); }
    PutBefore(mem, mainNode, n, l, tasks, q1, w, Ready, s.main, t);
  }

  lemma RepHolds(mem: seq<nat>, l: Layout, s: State, w: seq<Entry>)
    ensures Rep(mem, l, s, w) <==> Holds(mem, l, s.tasks.Keys, s.queues, w)
  {
    hide Holds;
  }

  /** The queues once t has left its own. */
  function Vacated(s: State, t: Tid): map<Qid, seq<Tid>> {
    var p := Task(s, t).place;
    if p.On? && p.q in s.queues then s.queues[p.q := Without(s.queues[p.q], t)] else s.queues
  }

  lemma VacatedIs(s: State, t: Tid)
    requires t in s.tasks
    ensures s.tasks[t].place.On? && s.tasks[t].place.q in s.queues ==>
      Vacated(s, t) == s.queues[s.tasks[t].place.q := Without(s.queues[s.tasks[t].place.q], t)]
    ensures !s.tasks[t].place.On? ==> Vacated(s, t) == s.queues
  {
  }

  lemma VacatedOnce(s: State, t: Tid)
    requires Core(s) && t in s.tasks && s.tasks[t].place != On(Ready)
    ensures Once(s.tasks.Keys, Vacated(s, t)) && Nowhere(Vacated(s, t), t)
  {
    hide *;
    WakingFrom(s, t);
    VacatedIs(s, t);
    if s.tasks[t].place.On? { AfterTakeOff(s.tasks.Keys, s.queues, s.tasks[t].place.q, t); }
  }

  lemma VacatedReady(s: State, t: Tid, tcb: Tcb, w: seq<Entry>)
    requires t in s.tasks && Ready in s.queues && s.tasks[t].place != On(Ready)
    requires s.tasks[t].place.On? ==> s.tasks[t].place.q in s.queues
    ensures Ready in Vacated(s, t) && Vacated(s, t)[Ready] == s.queues[Ready]
    ensures Woken(s, t, tcb, w).queues == Vacated(s, t)[Ready := Before(s.queues[Ready], s.main, t)]
  {
    hide Without, Before;
  }

  lemma WakingFrom(s: State, t: Tid)
    requires Core(s) && t in s.tasks && s.tasks[t].place != On(Ready)
    ensures Once(s.tasks.Keys, s.queues) && s.queues[Ready][|s.queues[Ready]| - 1] == s.main
    ensures s.tasks[t].place.On? ==>
      s.tasks[t].place.q in s.queues && s.tasks[t].place.q != Ready && t in s.queues[s.tasks[t].place.q]
    ensures !s.tasks[t].place.On? ==> Nowhere(s.queues, t)
  {
    OnceOf(s);
  }
}
