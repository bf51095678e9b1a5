/**
  The intrusive chains at the level of memory words. A node at address a keeps `next` in word a
  and `previous` in word a+1. A chain header at c has the three words first, null_, last; read as
  a node at c it is the permanent head, read as a node at c+1 it is the permanent tail, and the
  two overlap in the word c+1, which stays NULL for ever. Every macro is proved to be the
  corresponding sequence operation, with no special case for the first or last element.
 */
module Chain {

  /** The permanent head, the nodes, the permanent tail. */
  function Path(c: nat, s: seq<nat>): (p: seq<nat>)
    ensures |p| == |s| + 2
  {
    [c] + s + [c + 1]
  }

  predicate InRange(mem: seq<nat>, p: seq<nat>) {
    forall i :: 0 <= i < |p| ==> 0 < p[i] && p[i] + 1 < |mem|
  }

  /** The i-th element and its successor point at each other. */
  predicate LinkAt(mem: seq<nat>, p: seq<nat>, i: nat)
    requires InRange(mem, p) && i + 1 < |p|
  {
    mem[p[i]] == p[i + 1] && mem[p[i + 1] + 1] == p[i]
  }

  ghost predicate Links(mem: seq<nat>, p: seq<nat>)
    requires InRange(mem, p)
  {
    forall i: nat :: i + 1 < |p| ==> LinkAt(mem, p, i)
  }

  /** No two nodes share a word, except that the header's two node views share null_. */
  ghost predicate Separate(p: seq<nat>) {
    && (forall i, j :: 0 <= i < j < |p| ==> p[i] != p[j])
    && (forall i, j :: 0 <= i < |p| && 0 <= j < |p| && p[i] + 1 == p[j] ==> i == 0 && j == |p| - 1)
  }

  /** The chain headed at c holds exactly the nodes s, in order. */
  ghost predicate IsChain(mem: seq<nat>, c: nat, s: seq<nat>) {
    var p := Path(c, s);
    && InRange(mem, p)
    && Separate(p)
    && c + 1 < |mem| && mem[c + 1] == 0
    && Links(mem, p)
  }

  /** The words a chain owns. */
  ghost predicate Owns(c: nat, s: seq<nat>, a: nat) {
    exists i :: 0 <= i < |Path(c, s)| && (a == Path(c, s)[i] || a == Path(c, s)[i] + 1)
  }

  /** A chain is untouched by writes outside its words. */
  lemma ChainFrame(mem: seq<nat>, mem2: seq<nat>, c: nat, s: seq<nat>)
    requires IsChain(mem, c, s) && |mem2| == |mem|
    requires forall a: nat :: a < |mem| && Owns(c, s, a) ==> mem2[a] == mem[a]
    ensures IsChain(mem2, c, s)
  {
    var p := Path(c, s);
    forall i | 0 <= i < |p| ensures mem2[p[i]] == mem[p[i]] && mem2[p[i] + 1] == mem[p[i] + 1] {
      assert Owns(c, s, p[i]) && Owns(c, s, p[i] + 1);
    }
    assert p[0] == c;
    forall i: nat | i + 1 < |p| ensures LinkAt(mem2, p, i) { assert LinkAt(mem, p, i); }
  }

  // ----- splicing on paths --------------------------------------------------------------

  /** Writing n between a and b, as the insert macros do. */
  function Insert4(mem: seq<nat>, a: nat, n: nat, b: nat): (m: seq<nat>)
    requires a < |mem| && n + 1 < |mem| && b + 1 < |mem|
    ensures |m| == |mem|
  {
    mem[n + 1 := a][a := n][n := b][b + 1 := n]
  }

  lemma Apart(p: seq<nat>, i: nat, j: nat)
    requires Separate(p) && i < |p| && j < |p|
    ensures i != j ==> p[i] != p[j]
    ensures p[i] + 1 == p[j] ==> i == 0 && j == |p| - 1
  {
  }

  lemma InsertLinkAt(mem: seq<nat>, p: seq<nat>, q: seq<nat>, k: nat, n: nat, i: nat)
    requires k + 1 < |p| && InRange(mem, p) && 0 < n && n + 1 < |mem| && Links(mem, p)
    requires q == p[..k + 1] + [n] + p[k + 1..] && InRange(mem, q) && Separate(q) && i + 1 < |q|
    ensures LinkAt(Insert4(mem, p[k], n, p[k + 1]), q, i)
  {
    hide Separate;
    assert q[k] == p[k] && q[k + 1] == n && q[k + 2] == p[k + 1];
    Apart(q, k + 1, i); Apart(q, k + 2, i); Apart(q, k, i);
    Apart(q, i + 1, k); Apart(q, i + 1, k + 1); Apart(q, i + 1, k + 2);
    Apart(q, k + 1, k); Apart(q, k + 2, k); Apart(q, k + 2, k + 1); Apart(q, k, k + 1);
    if i < k {
      assert q[i] == p[i] && q[i + 1] == p[i + 1];
      assert LinkAt(mem, p, i);
    } else if i > k + 1 {
      assert q[i] == p[i - 1] && q[i + 1] == p[i];
      assert LinkAt(mem, p, i - 1);
    }
  }

  lemma InsertLinks(mem: seq<nat>, p: seq<nat>, q: seq<nat>, k: nat, n: nat)
    requires k + 1 < |p| && InRange(mem, p) && 0 < n && n + 1 < |mem| && Links(mem, p)
    requires q == p[..k + 1] + [n] + p[k + 1..] && Separate(q)
    ensures InRange(mem, q) && Links(Insert4(mem, p[k], n, p[k + 1]), q)
  {
    forall i | 0 <= i < |q| ensures 0 < q[i] && q[i] + 1 < |mem| {
      if i <= k { assert q[i] == p[i]; } else if i > k + 1 { assert q[i] == p[i - 1]; }
    }
    var m := Insert4(mem, p[k], n, p[k + 1]);
    forall i: nat | i + 1 < |q| ensures LinkAt(m, q, i) {
      InsertLinkAt(mem, p, q, k, n, i);
    }
  }

  /** Unlinking between prev and next, as the remove macro does. */
  function Remove2(mem: seq<nat>, prev: nat, next: nat): (m: seq<nat>)
    requires prev < |mem| && next + 1 < |mem|
    ensures |m| == |mem|
  {
    mem[next + 1 := prev][prev := next]
  }

  lemma RemoveLinkAt(mem: seq<nat>, p: seq<nat>, q: seq<nat>, k: nat, i: nat)
    requires 0 < k < |p| - 1 && InRange(mem, p) && Links(mem, p) && Separate(p)
    requires q == p[..k] + p[k + 1..] && InRange(mem, q) && i + 1 < |q|
    ensures LinkAt(Remove2(mem, p[k - 1], p[k + 1]), q, i)
  {
    hide Separate;
    Apart(p, k + 1, k - 1);
    if i < k - 1 {
      assert q[i] == p[i] && q[i + 1] == p[i + 1];
      assert LinkAt(mem, p, i);
      Apart(p, k - 1, i); Apart(p, k + 1, i); Apart(p, i + 1, k - 1); Apart(p, i + 1, k + 1);
    } else if i == k - 1 {
      assert q[i] == p[k - 1] && q[i + 1] == p[k + 1];
    } else {
      assert q[i] == p[i + 1] && q[i + 1] == p[i + 2];
      assert LinkAt(mem, p, i + 1);
      Apart(p, k - 1, i + 1); Apart(p, k + 1, i + 1); Apart(p, i + 2, k - 1); Apart(p, i + 2, k + 1);
    }
  }

  lemma RemoveLinks(mem: seq<nat>, p: seq<nat>, q: seq<nat>, k: nat)
    requires 0 < k < |p| - 1 && InRange(mem, p) && Links(mem, p) && Separate(p)
    requires q == p[..k] + p[k + 1..]
    ensures InRange(mem, q) && Separate(q) && Links(Remove2(mem, p[k - 1], p[k + 1]), q)
  {
    forall i | 0 <= i < |q| ensures 0 < q[i] && q[i] + 1 < |mem| {
      if i < k { assert q[i] == p[i]; } else { assert q[i] == p[i + 1]; }
    }
    var m := Remove2(mem, p[k - 1], p[k + 1]);
    forall i: nat | i + 1 < |q| ensures LinkAt(m, q, i) {
      RemoveLinkAt(mem, p, q, k, i);
    }
    RemoveSeparate(p, q, k);
  }

  lemma RemoveSeparate(p: seq<nat>, q: seq<nat>, k: nat)
    requires 0 < k < |p| - 1 && Separate(p) && q == p[..k] + p[k + 1..]
    ensures Separate(q)
  {
    forall i, j | 0 <= i < |q| && 0 <= j < |q|
      ensures i < j ==> q[i] != q[j]
      ensures q[i] + 1 == q[j] ==> i == 0 && j == |q| - 1
    {
      var pi, pj := if i < k then i else i + 1, if j < k then j else j + 1;
      assert q[i] == p[pi] && q[j] == p[pj];
      Apart(p, pi, pj);
    }
  }

  // ----- chains as sequences -------------------------------------------------------------

  lemma OwnsNode(c: nat, s: seq<nat>, i: nat)
    requires i < |s| + 2
    ensures Owns(c, s, Path(c, s)[i]) && Owns(c, s, Path(c, s)[i] + 1)
  {
  }

  /** Insertion before position k of the sequence: same chain, one more node. */
  lemma ChainInsert(mem: seq<nat>, c: nat, s: seq<nat>, k: nat, n: nat)
    requires IsChain(mem, c, s) && k <= |s| && 0 < n && n + 1 < |mem|
    requires Separate(Path(c, s[..k] + [n] + s[k..]))
    ensures var p := Path(c, s);
            var t := s[..k] + [n] + s[k..];
            var m := Insert4(mem, p[k], n, p[k + 1]);
      && IsChain(m, c, t)
      && (forall a: nat :: a < |mem| && !Owns(c, t, a) ==> m[a] == mem[a])
  {
    var p := Path(c, s);
    var t := s[..k] + [n] + s[k..];
    PathInsert(c, s, k, n);
    assert IsChain(mem, c, s) ==> InRange(mem, p) && Links(mem, p) && mem[c + 1] == 0;
    InsertLinks(mem, p, Path(c, t), k, n);
    InsertFrame(mem, c, t, k);
    var m := Insert4(mem, p[k], n, p[k + 1]);
    assert InRange(m, Path(c, t));
    hide Separate, Links, LinkAt, Owns, InRange, Path, Insert4;
  }

  lemma PathInsert(c: nat, s: seq<nat>, k: nat, n: nat)
    requires k <= |s|
    ensures var p := Path(c, s);
            var q := Path(c, s[..k] + [n] + s[k..]);
      q == p[..k + 1] + [n] + p[k + 1..] && q[k] == p[k] && q[k + 1] == n && q[k + 2] == p[k + 1]
  {
  }

  /** The four writes stay inside the grown chain and miss the word null_. */
  lemma InsertFrame(mem: seq<nat>, c: nat, t: seq<nat>, k: nat)
    requires var q := Path(c, t); k + 2 < |q| && Separate(q) && InRange(mem, q)
    requires c + 1 < |mem|
    ensures var q := Path(c, t);
            var m := Insert4(mem, q[k], q[k + 1], q[k + 2]);
      && m[c + 1] == mem[c + 1]
      && (forall a: nat :: a < |mem| && !Owns(c, t, a) ==> m[a] == mem[a])
  {
    var q := Path(c, t);
    assert q[0] == c && q[|q| - 1] == c + 1;
    OwnsNode(c, t, k); OwnsNode(c, t, k + 1); OwnsNode(c, t, k + 2);
    NullWordFree(q, c, k);
    hide Separate, Owns, Path;
  }

  /** The word null_ is none of the words an insertion or removal writes. */
  lemma NullWordFree(q: seq<nat>, c: nat, k: nat)
    requires Separate(q) && |q| >= 3 && q[0] == c && q[|q| - 1] == c + 1 && k < |q| - 1
    ensures q[k] != c + 1 && (k + 1 < |q| - 1 ==> q[k + 1] != c + 1 && q[k + 1] + 1 != c + 1)
    ensures q[k + 1] + 1 != c + 1
    ensures k + 2 < |q| ==> q[k + 2] + 1 != c + 1
  {
    Apart(q, k, |q| - 1);
    Apart(q, k + 1, |q| - 1);
    if k + 2 < |q| { Apart(q, k + 2, |q| - 1); }
  }

  lemma ChainRemove(mem: seq<nat>, c: nat, s: seq<nat>, k: nat)
    requires IsChain(mem, c, s) && k < |s|
    ensures var p := Path(c, s);
            var m := Remove2(mem, p[k], p[k + 2]);
      && IsChain(m, c, s[..k] + s[k + 1..])
      && (forall a: nat :: a < |mem| && !Owns(c, s, a) ==> m[a] == mem[a])
      && p[k + 1] == s[k] && mem[p[k + 1]] == p[k + 2] && mem[p[k + 1] + 1] == p[k]
  {
    var p := Path(c, s);
    var q := Path(c, s[..k] + s[k + 1..]);
    assert q == p[..k + 1] + p[k + 2..];
    RemoveLinks(mem, p, q, k + 1);
    OwnsNode(c, s, k); OwnsNode(c, s, k + 2);
    assert LinkAt(mem, p, k) && LinkAt(mem, p, k + 1);
    NullWordFree(p, c, k);
    hide Separate, Links, LinkAt, Owns, InRange;
  }

  // ----- the macros ---------------------------------------------------------------------------

  /** _CHAIN_INIT_EMPTY */
  method InitEmpty(mem: array<nat>, c: nat)
    requires 0 < c && c + 2 < mem.Length
    modifies mem
    ensures IsChain(mem[..], c, [])
    ensures forall a: nat :: a < mem.Length && !(c <= a <= c + 2) ==> mem[a] == old(mem[a])
  {
    mem[c] := c + 1;
    mem[c + 2] := c;
    mem[c + 1] := 0;
    assert Path(c, []) == [c, c + 1];
    assert LinkAt(mem[..], Path(c, []), 0);
  }

  /** _CHAIN_INSERT_BEFORE: b is the k-th node of the chain, or its permanent tail. */
  method InsertBefore(mem: array<nat>, b: nat, n: nat, ghost c: nat, ghost s: seq<nat>, ghost k: nat)
    requires IsChain(mem[..], c, s) && k <= |s| && Path(c, s)[k + 1] == b && 0 < n && n + 1 < mem.Length
    requires Separate(Path(c, s[..k] + [n] + s[k..]))
    modifies mem
    ensures IsChain(mem[..], c, s[..k] + [n] + s[k..])
    ensures forall a: nat :: a < mem.Length && !Owns(c, s[..k] + [n] + s[k..], a) ==> mem[a] == old(mem[a])
  {
    ghost var m0 := mem[..];
    ghost var p := Path(c, s);
    assert p[k + 1] == b && LinkAt(m0, p, k);
    ChainInsert(m0, c, s, k, n);
    hide IsChain, Separate, Owns;
    var after := mem[b + 1];
    mem[n + 1] := after;
    mem[after] := n;
    mem[n] := b;
    mem[b + 1] := n;
    assert mem[..] == Insert4(m0, after, n, b);
  }

  /** _CHAIN_APPEND */
  method Append(mem: array<nat>, c: nat, n: nat, ghost s: seq<nat>)
    requires IsChain(mem[..], c, s) && 0 < n && n + 1 < mem.Length && Separate(Path(c, s + [n]))
    modifies mem
    ensures IsChain(mem[..], c, s + [n])
    ensures forall a: nat :: a < mem.Length && !Owns(c, s + [n], a) ==> mem[a] == old(mem[a])
  {
    ghost var m0 := mem[..];
    ghost var p := Path(c, s);
    assert p[|s| + 1] == c + 1 && LinkAt(m0, p, |s|);
    assert s[..|s|] + [n] + s[|s|..] == s + [n];
    ghost var q := Path(c, s + [n]);
    assert q[|s|] == p[|s|] && q[|s| + 1] == n && q[|s| + 2] == c + 1;
    Apart(q, |s|, |s| + 1); Apart(q, |s| + 1, |s|); Apart(q, |s| + 2, |s|); Apart(q, |s| + 2, |s| + 1);
    Apart(q, |s| + 1, |s| + 2);
    ChainInsert(m0, c, s, |s|, n);
    hide IsChain, Separate, Owns;
    mem[n] := c + 1;
    var oldLast := mem[c + 2];
    mem[c + 2] := n;
    mem[oldLast] := n;
    mem[n + 1] := oldLast;
    assert mem[..] == Insert4(m0, oldLast, n, c + 1);
  }

  /** _CHAIN_REMOVE: the chain is not named, the node's own links say where it is. */
  method Remove(mem: array<nat>, n: nat, ghost c: nat, ghost s: seq<nat>, ghost k: nat)
    requires IsChain(mem[..], c, s) && k < |s| && s[k] == n
    modifies mem
    ensures IsChain(mem[..], c, s[..k] + s[k + 1..])
    ensures forall a: nat :: a < mem.Length && !Owns(c, s, a) ==> mem[a] == old(mem[a])
  {
    ghost var m0 := mem[..];
    ChainRemove(m0, c, s, k);
    ghost var p := Path(c, s);
    assert p[k + 1] == n && p[k + 2] + 1 < mem.Length && p[k] < mem.Length;
    hide IsChain, Owns;
    var next := mem[n];
    var previous := mem[n + 1];
    mem[next + 1] := previous;
    mem[previous] := next;
    assert mem[..] == Remove2(m0, previous, next);
  }

  /** _CHAIN_EXTRACT_FIRST: NULL on an empty chain, else its first node. */
  method ExtractFirst(mem: array<nat>, c: nat, ghost s: seq<nat>) returns (n: nat)
    requires IsChain(mem[..], c, s)
    modifies mem
    ensures s == [] ==> n == 0 && mem[..] == old(mem[..])
    ensures s != [] ==> n == s[0] && IsChain(mem[..], c, s[1..])
    ensures forall a: nat :: a < mem.Length && !Owns(c, s, a) ==> mem[a] == old(mem[a])
  {
    ghost var p := Path(c, s);
    assert LinkAt(mem[..], p, 0);
    if mem[c] == c + 1 {
      Apart(p, 1, |p| - 1);
      assert p[|p| - 1] == c + 1;
      return 0;
    }
    n := mem[c];
    assert s != [] && n == s[0];
    Remove(mem, n, c, s, 0);
    assert s[..0] + s[1..] == s[1..];
  }

  // ----- safe iteration ------------------------------------------------------------------------

  /** Two chains that share no word. */
  ghost predicate Disjoint(c: nat, s: seq<nat>, d: nat, t: seq<nat>) {
    forall a: nat :: Owns(c, s, a) ==> !Owns(d, t, a)
  }

  lemma OwnsSub(c: nat, s: seq<nat>, a: nat)
    requires s != [] && Owns(c, s[1..], a)
    ensures Owns(c, s, a)
  {
    var p, q := Path(c, s), Path(c, s[1..]);
    var i :| 0 <= i < |q| && (a == q[i] || a == q[i] + 1);
    assert q[i] == p[if i == 0 then 0 else i + 1];
  }

  lemma OwnsAppended(d: nat, t: seq<nat>, n: nat, a: nat)
    requires Owns(d, t + [n], a)
    ensures Owns(d, t, a) || a == n || a == n + 1
  {
    var p, q := Path(d, t), Path(d, t + [n]);
    var i :| 0 <= i < |q| && (a == q[i] || a == q[i] + 1);
    if i <= |t| { assert q[i] == p[i]; OwnsNode(d, t, i); }
    else if i == |t| + 2 { assert q[i] == p[|t| + 1]; OwnsNode(d, t, |t| + 1); }
  }

  /** The first node shares no word with what remains of its chain. */
  lemma FirstIsApart(c: nat, s: seq<nat>, a: nat)
    requires s != [] && Separate(Path(c, s)) && Owns(c, s[1..], a)
    ensures a != s[0] && a != s[0] + 1
  {
    var p, q := Path(c, s), Path(c, s[1..]);
    var i :| 0 <= i < |q| && (a == q[i] || a == q[i] + 1);
    var j := if i == 0 then 0 else i + 1;
    assert q[i] == p[j] && p[1] == s[0];
    Apart(p, 1, j); Apart(p, j, 1);
  }

  lemma SeparateAppend(d: nat, t: seq<nat>, n: nat)
    requires Separate(Path(d, t)) && !Owns(d, t, n) && !Owns(d, t, n + 1)
    ensures Separate(Path(d, t + [n]))
  {
    var p, q := Path(d, t), Path(d, t + [n]);
    hide Separate, Owns;
    forall i, j | 0 <= i < |q| && 0 <= j < |q|
      ensures i < j ==> q[i] != q[j]
      ensures q[i] + 1 == q[j] ==> i == 0 && j == |q| - 1
    {
      var pi, pj := if i <= |t| then i else |t| + 1, if j <= |t| then j else |t| + 1;
      OwnsNode(d, t, pi); OwnsNode(d, t, pj);
      assert i != |t| + 1 ==> q[i] == p[pi];
      assert j != |t| + 1 ==> q[j] == p[pj];
      Apart(p, pi, pj);
    }
    SeparateIntro(q);
  }

  lemma SeparateIntro(q: seq<nat>)
    requires forall i, j :: 0 <= i < |q| && 0 <= j < |q| ==>
      (i < j ==> q[i] != q[j]) && (q[i] + 1 == q[j] ==> i == 0 && j == |q| - 1)
    ensures Separate(q)
  {
  }

  /** Moving the first node of one chain to the end of another keeps the two apart. */
  lemma MoveKeepsApart(c: nat, s: seq<nat>, d: nat, t: seq<nat>)
    requires s != [] && Separate(Path(c, s)) && Separate(Path(d, t)) && Disjoint(c, s, d, t)
    ensures Separate(Path(d, t + [s[0]])) && Disjoint(c, s[1..], d, t + [s[0]])
    ensures Disjoint(c, s[1..], d, t)
  {
    var n := s[0];
    assert Path(c, s)[1] == n;
    OwnsNode(c, s, 1);
    SeparateAppend(d, t, n);
    forall a: nat | Owns(c, s[1..], a) ensures !Owns(d, t + [n], a) && !Owns(d, t, a) {
      OwnsSub(c, s, a);
      FirstIsApart(c, s, a);
      if Owns(d, t + [n], a) { OwnsAppended(d, t, n, a); }
    }
  }

  /** Words outside both chains stay outside after a move. */
  lemma MoveKeepsOutside(c: nat, s: seq<nat>, d: nat, t: seq<nat>, a: nat)
    requires s != [] && !Owns(c, s, a) && !Owns(d, t, a)
    ensures !Owns(c, s[1..], a) && !Owns(d, t + [s[0]], a)
  {
    assert Path(c, s)[1] == s[0];
    OwnsNode(c, s, 1);
    if Owns(c, s[1..], a) { OwnsSub(c, s, a); }
    if Owns(d, t + [s[0]], a) { OwnsAppended(d, t, s[0], a); }
  }

  /** One round of the collecting loop: REMOVE from c, INSERT_TAIL on d. */
  method MoveFirst(mem: array<nat>, n: nat, d: nat, ghost c: nat, ghost s: seq<nat>, ghost t: seq<nat>)
    requires IsChain(mem[..], c, s) && IsChain(mem[..], d, t) && Disjoint(c, s, d, t)
    requires s != [] && s[0] == n
    modifies mem
    ensures IsChain(mem[..], c, s[1..]) && IsChain(mem[..], d, t + [n])
    ensures Disjoint(c, s[1..], d, t + [n])
    ensures forall a: nat :: a < mem.Length && !Owns(c, s, a) && !Owns(d, t, a) ==> mem[a] == old(mem[a])
  {
    MoveKeepsApart(c, s, d, t);
    ghost var m0 := mem[..];
    assert 0 < n && n + 1 < mem.Length by { assert Path(c, s)[1] == n; }
    hide IsChain, Separate, Owns, Path;
    Remove(mem, n, c, s, 0);
    assert s[..0] + s[1..] == s[1..];
    ghost var m1 := mem[..];
    ChainFrame(m0, m1, d, t);
    Append(mem, d, n, t);
    ChainFrame(m1, mem[..], c, s[1..]);
    forall a: nat | a < mem.Length && !Owns(c, s, a) && !Owns(d, t, a) ensures mem[a] == m0[a] {
      MoveKeepsOutside(c, s, d, t, a);
      assert m1[a] == m0[a];
    }
  }

  /** The successor link of the current position: NULL exactly at the permanent tail. */
  lemma NextOfFirst(mem: seq<nat>, c: nat, s: seq<nat>)
    requires IsChain(mem, c, s)
    ensures c < |mem| && mem[c] == (s + [c + 1])[0] && mem[c] < |mem|
    ensures mem[mem[c]] == (if s == [] then 0 else (s[1..] + [c + 1])[0])
    ensures mem[mem[c]] == 0 <==> s == []
  {
    var p := Path(c, s);
    assert p[0] == c && p[1] == (s + [c + 1])[0] && LinkAt(mem, p, 0);
    if s != [] { assert p[2] == (s[1..] + [c + 1])[0] && LinkAt(mem, p, 1); }
  }

  /**
    _CHAIN_FOREACH_SAFE around REMOVE + INSERT_TAIL, the collecting loop of a broadcast: the
    successor is read before the body unlinks the node, and the loop still visits every node
    once, in order, and stops at the tail.
   */
  method MoveAll(mem: array<nat>, c: nat, d: nat, ghost s: seq<nat>, ghost t: seq<nat>)
    requires IsChain(mem[..], c, s) && IsChain(mem[..], d, t) && Disjoint(c, s, d, t)
    modifies mem
    ensures IsChain(mem[..], c, []) && IsChain(mem[..], d, t + s) && Disjoint(c, [], d, t + s)
    ensures forall a: nat :: a < mem.Length && !Owns(c, s, a) && !Owns(d, t, a) ==> mem[a] == old(mem[a])
  {
    NextOfFirst(mem[..], c, s);
    hide IsChain, Separate, Owns, Path, Disjoint;
    var node := mem[c];
    var next := mem[node];
    ghost var rest: seq<nat>, moved: seq<nat> := s, t;
    while next != 0
      invariant IsChain(mem[..], c, rest) && IsChain(mem[..], d, moved) && Disjoint(c, rest, d, moved)
      invariant t + s == moved + rest
      invariant node == (rest + [c + 1])[0]
      invariant next == (if rest == [] then 0 else (rest[1..] + [c + 1])[0])
      invariant next == 0 <==> rest == []
      invariant forall a: nat :: a < mem.Length && !Owns(c, s, a) && !Owns(d, t, a) ==>
        mem[a] == old(mem[a]) && !Owns(c, rest, a) && !Owns(d, moved, a)
      decreases |rest|
    {
      ghost var m0 := mem[..];
      MoveFirst(mem, node, d, c, rest, moved);
      forall a: nat | a < mem.Length && !Owns(c, s, a) && !Owns(d, t, a)
        ensures mem[a] == m0[a] && !Owns(c, rest[1..], a) && !Owns(d, moved + [node], a)
      {
        MoveKeepsOutside(c, rest, d, moved, a);
      }
      rest, moved := rest[1..], moved + [node];
      NextOfFirst(mem[..], c, rest);
      node := next;
      next := mem[node];
    }
    assert moved == moved + rest;
  }
}
