/** A memoised digest of a hierarchy whose repeated children mappings are shared objects. */
module HierarchyDigest {
  import opened Wrappers

  type Bytes = string
  type Hash = Bytes -> Bytes

  // ---- The logical value: a tree ----

  /** A nested mapping, entry by entry in insertion order. */
  datatype Tree = End | Entry(name: string, node: Node, rest: Tree)

  /**
    What a name maps to: a value that is not a mapping, by its printed form, or an instance, by
    its encoded scalar fields and, when that is a mapping, its children.
   */
  datatype Node = Plain(repr: string) | Instance(scalars: string, children: Option<Tree>)

  const SEPARATOR: Bytes := ['\0']

  /** What the plain recursive digest feeds into the hash for a mapping. */
  function Feed(t: Tree, hash: Hash): Bytes
    decreases t, 0
  {
    match t
    case End => []
    case Entry(name, node, rest) => name + SEPARATOR + NodeFeed(node, hash) + Feed(rest, hash)
  }

  /** A value that is not a mapping gets no closing separator. */
  function NodeFeed(n: Node, hash: Hash): Bytes
    decreases n, 0
  {
    match n
    case Plain(repr) => repr
    case Instance(scalars, children) =>
      hash(scalars) + (if children.Some? then Digest(children.value, hash) else []) + SEPARATOR
  }

  function Digest(t: Tree, hash: Hash): Bytes
    decreases t, 1
  {
    hash(Feed(t, hash))
  }

  // ---- The heap of shared mappings ----

  type Ref = nat

  datatype Cell = PlainCell(repr: string) | InstanceCell(scalars: string, children: Option<Ref>)
  datatype Slot = Slot(name: string, cell: Cell)

  /** Children mappings by identity. */
  type Heap = map<Ref, seq<Slot>>

  ghost predicate SubBelow(heap: Heap, rank: Ref -> nat, r: Ref, cell: Cell) {
    cell.InstanceCell? && cell.children.Some? ==> cell.children.value in heap && rank(cell.children.value) < rank(r)
  }

  /** Every mapping refers to mappings of lower rank only: the sharing is acyclic. */
  ghost predicate Acyclic(heap: Heap, rank: Ref -> nat) {
    forall r, i | r in heap && 0 <= i < |heap[r]| :: SubBelow(heap, rank, r, heap[r][i].cell)
  }

  /** The value of a mapping from its `i`-th entry on, with all sharing expanded. */
  ghost function Unfold(heap: Heap, rank: Ref -> nat, r: Ref, i: nat): Tree
    requires Acyclic(heap, rank) && r in heap && i <= |heap[r]|
    decreases rank(r), |heap[r]| - i, 1
  {
    if i == |heap[r]| then End
    else Entry(heap[r][i].name, NodeAt(heap, rank, r, i), Unfold(heap, rank, r, i + 1))
  }

  ghost function NodeAt(heap: Heap, rank: Ref -> nat, r: Ref, i: nat): Node
    requires Acyclic(heap, rank) && r in heap && i < |heap[r]|
    decreases rank(r), |heap[r]| - i, 0
  {
    var cell := heap[r][i].cell;
    assert SubBelow(heap, rank, r, cell);
    match cell
    case PlainCell(repr) => Plain(repr)
    case InstanceCell(scalars, children) =>
      Instance(scalars, if children.Some? then Some(Unfold(heap, rank, children.value, 0)) else None)
  }

  /** The digest of a mapping without any memory. */
  ghost function PlainDigest(heap: Heap, rank: Ref -> nat, r: Ref, hash: Hash): Bytes
    requires Acyclic(heap, rank) && r in heap
  {
    Digest(Unfold(heap, rank, r, 0), hash)
  }

  datatype Top = Top(name: string, children: Option<Ref>)

  /** A top and its expanded children, where it has a children mapping. */
  datatype TopValue = TopValue(name: string, children: Option<Tree>)

  /** The component tree as a value, with all sharing expanded. */
  ghost function Values(heap: Heap, rank: Ref -> nat, tops: seq<Top>): seq<TopValue>
    requires Acyclic(heap, rank) && forall t | t in tops :: t.children.Some? ==> t.children.value in heap
  {
    if tops == [] then []
    else
      var t := tops[0];
      [TopValue(t.name, if t.children.Some? then Some(Unfold(heap, rank, t.children.value, 0)) else None)]
      + Values(heap, rank, tops[1..])
  }

  /** What the root hash is fed for a component tree, by the plain digest. */
  function RootFeed(values: seq<TopValue>, hash: Hash): Bytes {
    if values == [] then []
    else
      values[0].name + SEPARATOR + (if values[0].children.Some? then Digest(values[0].children.value, hash) else [])
      + SEPARATOR + RootFeed(values[1..], hash)
  }

  // ---- The memoised digest ----

  class Digester {
    const heap: Heap
    const hash: Hash
    ghost const rank: Ref -> nat
    var childrenCache: map<Ref, Bytes>
    var scalarCache: map<string, Bytes>
    /** The mappings hashed so far, in order. */
    ghost var hashed: seq<Ref>

    ghost predicate Valid()
      reads this
    {
      && Acyclic(heap, rank)
      && (forall r | r in childrenCache :: r in heap && childrenCache[r] == PlainDigest(heap, rank, r, hash))
      && (forall s | s in scalarCache :: scalarCache[s] == hash(s))
      && (forall i, j | 0 <= i < j < |hashed| :: hashed[i] != hashed[j])
      && (forall r :: r in hashed <==> r in childrenCache)
    }

    constructor (heap: Heap, hash: Hash, ghost rank: Ref -> nat)
      requires Acyclic(heap, rank)
      ensures Valid() && hashed == [] && this.heap == heap && this.hash == hash && this.rank == rank
    {
      this.heap, this.hash, this.rank := heap, hash, rank;
      childrenCache, scalarCache, hashed := map[], map[], [];
    }

    method ScalarDigest(scalars: string) returns (d: Bytes)
      requires Valid()
      modifies this`scalarCache
      ensures Valid() && d == hash(scalars)
    {
      if scalars in scalarCache {
        return scalarCache[scalars];
      }
      d := hash(scalars);
      scalarCache := scalarCache[scalars := d];
    }

    /** Calls only add digests, each of a mapping below `limit`. */
    twostate predicate Grew(limit: nat)
      reads this
    {
      && old(hashed) <= hashed
      && forall i | |old(hashed)| <= i < |hashed| :: rank(hashed[i]) < limit
    }

    /** The digest equals the plain one; no mapping is hashed a second time. */
    method ChildrenDigest(r: Ref) returns (d: Bytes)
      requires Valid() && r in heap
      modifies this
      ensures Valid() && d == PlainDigest(heap, rank, r, hash)
      ensures Grew(rank(r) + 1) && r in hashed
      decreases rank(r), 1
    {
      if r in childrenCache {
        return childrenCache[r];
      }
      var running: Bytes := [];
      var slots := heap[r];
      for n := 0 to |slots|
        invariant Valid() && Grew(rank(r)) && r !in hashed
        invariant running + Feed(Unfold(heap, rank, r, n), hash) == Feed(Unfold(heap, rank, r, 0), hash)
      {
        var node := NodeDigest(r, n);
        FeedOneMore(running, slots[n].name, Unfold(heap, rank, r, n));
        running := running + slots[n].name + SEPARATOR + node;
      }
      assert running + [] == running;
      d := hash(running);
      childrenCache := childrenCache[r := d];
      hashed := hashed + [r];
    }

    /** What one entry of a mapping contributes after its name. */
    method NodeDigest(r: Ref, n: nat) returns (node: Bytes)
      requires Valid() && r in heap && n < |heap[r]| && r !in hashed
      modifies this
      ensures Valid() && node == NodeFeed(NodeAt(heap, rank, r, n), hash)
      ensures Grew(rank(r)) && r !in hashed
      decreases rank(r), 0
    {
      var cell := heap[r][n].cell;
      assert SubBelow(heap, rank, r, cell);
      if cell.PlainCell? {
        return cell.repr;
      }
      node := ScalarDigest(cell.scalars);
      if cell.children.Some? {
        var sub := ChildrenDigest(cell.children.value);
        node := node + sub;
      } else {
        assert node + [] == node;
      }
      node := node + SEPARATOR;
    }

    lemma FeedOneMore(running: Bytes, name: string, t: Tree)
      requires t.Entry? && t.name == name
      ensures running + Feed(t, hash) == running + name + SEPARATOR + NodeFeed(t.node, hash) + Feed(t.rest, hash)
    {
    }

    /** `_semantic_digest`. */
    method SemanticDigest(tops: seq<Top>) returns (d: Bytes)
      requires Valid() && forall t | t in tops :: t.children.Some? ==> t.children.value in heap
      modifies this
      ensures Valid() && d == hash(RootFeed(Values(heap, rank, tops), hash))
      ensures old(hashed) <= hashed
    {
      var running: Bytes := [];
      for n := 0 to |tops|
        invariant Valid() && old(hashed) <= hashed
        invariant running + RootFeed(Values(heap, rank, tops[n..]), hash) == RootFeed(Values(heap, rank, tops), hash)
      {
        var t := tops[n];
        assert t in tops && tops[n..][0] == t && tops[n..][1..] == tops[n + 1..];
        ghost var before := running;
        running := running + t.name + SEPARATOR;
        if t.children.Some? {
          var sub := ChildrenDigest(t.children.value);
          running := running + sub;
        } else {
          assert running + [] == running;
        }
        running := running + SEPARATOR;
        RootFeedOneMore(before, tops[n..]);
      }
      assert running + [] == running;
      d := hash(running);
    }

    lemma RootFeedOneMore(running: Bytes, tops: seq<Top>)
      requires Acyclic(heap, rank) && tops != []
      requires forall t | t in tops :: t.children.Some? ==> t.children.value in heap
      ensures var t := tops[0];
        running + RootFeed(Values(heap, rank, tops), hash) ==
        running + t.name + SEPARATOR
          + (if t.children.Some? then PlainDigest(heap, rank, t.children.value, hash) else [])
        + SEPARATOR + RootFeed(Values(heap, rank, tops[1..]), hash)
    {
      var values, rest := Values(heap, rank, tops), Values(heap, rank, tops[1..]);
      assert values[1..] == rest;
      var sub := if values[0].children.Some? then Digest(values[0].children.value, hash) else [];
      assert RootFeed(values, hash) == values[0].name + SEPARATOR + sub + SEPARATOR + RootFeed(rest, hash);
      Regroup(running, values[0].name, sub, RootFeed(rest, hash));
    }
  }

  lemma Regroup(running: Bytes, name: string, sub: Bytes, rest: Bytes)
    ensures running + (name + SEPARATOR + sub + SEPARATOR + rest) == running + name + SEPARATOR + sub + SEPARATOR + rest
  {
  }

  // ---- Sharing does not matter ----

  function Renamed(cell: Cell, rename: Ref -> Ref): Cell {
    if cell.InstanceCell? && cell.children.Some? then cell.(children := Some(rename(cell.children.value))) else cell
  }

  /** One heap is another with some of its mappings identified with equal ones. */
  ghost predicate Folds(from: Heap, to: Heap, rename: Ref -> Ref) {
    forall r | r in from ::
      && rename(r) in to && |to[rename(r)]| == |from[r]|
      && forall i | 0 <= i < |from[r]| :: to[rename(r)][i] == Slot(from[r][i].name, Renamed(from[r][i].cell, rename))
  }

  /** Sharing equal mappings keeps the value: each mapping unfolds to the same tree. */
  lemma {:induction false} FoldKeepsValue(from: Heap, low: Ref -> nat, to: Heap, high: Ref -> nat, rename: Ref -> Ref,
                                          r: Ref, i: nat)
    requires Acyclic(from, low) && Acyclic(to, high) && Folds(from, to, rename)
    requires r in from && i <= |from[r]|
    ensures Unfold(from, low, r, i) == Unfold(to, high, rename(r), i)
    decreases low(r), |from[r]| - i
  {
    if i < |from[r]| {
      var cell := from[r][i].cell;
      assert SubBelow(from, low, r, cell);
      assert SubBelow(to, high, rename(r), to[rename(r)][i].cell);
      if cell.InstanceCell? && cell.children.Some? {
        FoldKeepsValue(from, low, to, high, rename, cell.children.value, 0);
      }
      FoldKeepsValue(from, low, to, high, rename, r, i + 1);
    }
  }

  /** So it keeps the value of the component tree, and with it the digest, whatever is shared. */
  lemma {:induction false} SharingKeepsValues(from: Heap, low: Ref -> nat, to: Heap, high: Ref -> nat,
                                              rename: Ref -> Ref, tops: seq<Top>)
    requires Acyclic(from, low) && Acyclic(to, high) && Folds(from, to, rename)
    requires forall t | t in tops :: t.children.Some? ==> t.children.value in from
    ensures forall t | t in RenamedTops(tops, rename) :: t.children.Some? ==> t.children.value in to
    ensures Values(from, low, tops) == Values(to, high, RenamedTops(tops, rename))
    decreases |tops|
  {
    if tops != [] {
      SharingKeepsValues(from, low, to, high, rename, tops[1..]);
      var t, rest := tops[0], RenamedTops(tops[1..], rename);
      if t.children.Some? {
        FoldKeepsValue(from, low, to, high, rename, t.children.value, 0);
      }
      assert RenamedTops(tops, rename)[1..] == rest;
    }
  }

  function RenamedTops(tops: seq<Top>, rename: Ref -> Ref): seq<Top> {
    if tops == [] then []
    else [if tops[0].children.Some? then tops[0].(children := Some(rename(tops[0].children.value))) else tops[0]]
         + RenamedTops(tops[1..], rename)
  }

  /**
    Two component trees with one expanded value get one digest, in whatever heaps they live and
    however much of each is shared.
   */
  method SharingIsInvisible(a: Digester, b: Digester, ours: seq<Top>, theirs: seq<Top>) returns (x: Bytes, y: Bytes)
    requires a != b && a.hash == b.hash && a.Valid() && b.Valid()
    requires forall t | t in ours :: t.children.Some? ==> t.children.value in a.heap
    requires forall t | t in theirs :: t.children.Some? ==> t.children.value in b.heap
    modifies a, b
    ensures Values(a.heap, a.rank, ours) == Values(b.heap, b.rank, theirs) ==> x == y
  {
    x := a.SemanticDigest(ours);
    y := b.SemanticDigest(theirs);
  }

  // ---- What one digest says about the value ----

  ghost predicate NoSeparator(s: string) {
    '\0' !in s
  }

  /** Every name maps to an instance, and no name contains the separator: what the hierarchy builder produces. */
  ghost predicate Instances(t: Tree) {
    t.Entry? ==>
      && NoSeparator(t.name) && t.node.Instance?
      && (t.node.children.Some? ==> Instances(t.node.children.value))
      && Instances(t.rest)
  }

  /** Everything that is hashed to digest a mapping, other than what the mapping itself feeds. */
  ghost function FedInside(t: Tree): set<Tree>
  {
    match t
    case End => {}
    case Entry(_, node, rest) =>
      (if node.Instance? && node.children.Some? then {node.children.value} + FedInside(node.children.value) else {})
      + FedInside(rest)
  }

  ghost function Scalars(t: Tree): set<string> {
    match t
    case End => {}
    case Entry(_, node, rest) =>
      (if node.Instance? then {node.scalars} + (if node.children.Some? then Scalars(node.children.value) else {})
       else {})
      + Scalars(rest)
  }

  /** The strings that are hashed inside a mapping. */
  ghost function Hashed(t: Tree, hash: Hash): set<Bytes> {
    Scalars(t) + set c | c in FedInside(t) :: Feed(c, hash)
  }

  /** On these strings the hash has no collision, and no digest begins with the separator. */
  ghost predicate TellsApart(strings: set<Bytes>, hash: Hash) {
    && (forall x, y | x in strings && y in strings && hash(x) == hash(y) :: x == y)
    && (forall x | x in strings :: hash(x) != [] && hash(x)[0] != '\0')
  }

  lemma FirstSeparator(s: Bytes, a: string, x: Bytes, i: nat)
    requires s == a + SEPARATOR + x && NoSeparator(a) && i < |s|
    ensures s[|a|] == '\0' && (s[i] == '\0' ==> |a| <= i)
  {
    assert i < |a| ==> s[i] == a[i];
  }

  lemma SplitAtSeparator(a: string, x: Bytes, b: string, y: Bytes)
    requires NoSeparator(a) && NoSeparator(b) && a + SEPARATOR + x == b + SEPARATOR + y
    ensures a == b && x == y
  {
    var s := a + SEPARATOR + x;
    FirstSeparator(s, a, x, |b|);
    FirstSeparator(s, b, y, |a|);
    assert a == s[..|a|] && b == s[..|b|];
    assert x == s[|a| + 1..] && y == s[|b| + 1..];
  }

  lemma SplitAtLength(a: Bytes, x: Bytes, b: Bytes, y: Bytes)
    requires |a| == |b| && a + x == b + y
    ensures a == b && x == y
  {
    assert a == (a + x)[..|a|] && b == (b + y)[..|b|];
    assert x == (a + x)[|a|..] && y == (b + y)[|b|..];
  }

  function ChildrenFeed(children: Option<Tree>, hash: Hash): Bytes {
    if children.Some? then Digest(children.value, hash) else []
  }

  /** One entry's bytes fall apart into name, scalar digest and the remainder in one way only. */
  lemma EntryParts(a: string, h: Bytes, c: Bytes, r: Bytes, b: string, k: Bytes, d: Bytes, s: Bytes)
    requires NoSeparator(a) && NoSeparator(b) && |h| == |k|
    requires a + SEPARATOR + (h + c + SEPARATOR) + r == b + SEPARATOR + (k + d + SEPARATOR) + s
    ensures a == b && h == k && c + (SEPARATOR + r) == d + (SEPARATOR + s)
  {
    var x, y := c + (SEPARATOR + r), d + (SEPARATOR + s);
    assert a + SEPARATOR + (h + c + SEPARATOR) + r == a + SEPARATOR + (h + x);
    assert b + SEPARATOR + (k + d + SEPARATOR) + s == b + SEPARATOR + (k + y);
    SplitAtSeparator(a, h + x, b, k + y);
    SplitAtLength(h, x, k, y);
  }

  /** Equal feeds come from equal values. */
  lemma {:induction false} FeedTellsApart(t: Tree, u: Tree, hash: Hash, size: nat)
    requires Instances(t) && Instances(u) && (forall x :: |hash(x)| == size)
    requires TellsApart(Hashed(t, hash) + Hashed(u, hash), hash) && Feed(t, hash) == Feed(u, hash)
    ensures t == u
    decreases t, 1
  {
    if t.Entry? && u.Entry? {
      var p, q := t.node, u.node;
      EntryParts(t.name, hash(p.scalars), ChildrenFeed(p.children, hash), Feed(t.rest, hash),
                 u.name, hash(q.scalars), ChildrenFeed(q.children, hash), Feed(u.rest, hash));
      assert p.scalars in Hashed(t, hash) && q.scalars in Hashed(u, hash);
      ChildrenTellApart(t, u, hash, size);
      InsideRest(t, hash);
      InsideRest(u, hash);
      FeedTellsApart(t.rest, u.rest, hash, size);
    }
  }

  lemma InsideRest(t: Tree, hash: Hash)
    requires t.Entry?
    ensures Hashed(t.rest, hash) <= Hashed(t, hash)
    ensures t.node.Instance? && t.node.children.Some? ==>
      Hashed(t.node.children.value, hash) <= Hashed(t, hash) && Feed(t.node.children.value, hash) in Hashed(t, hash)
  {
    assert FedInside(t.rest) <= FedInside(t) && Scalars(t.rest) <= Scalars(t);
    if t.node.Instance? && t.node.children.Some? {
      assert t.node.children.value in FedInside(t);
      assert FedInside(t.node.children.value) <= FedInside(t);
    }
  }

  /** After equal scalars, equal remainders have equal children and equal rests. */
  lemma {:induction false} ChildrenTellApart(t: Tree, u: Tree, hash: Hash, size: nat)
    requires Instances(t) && Instances(u) && (forall x :: |hash(x)| == size) && t.Entry? && u.Entry?
    requires TellsApart(Hashed(t, hash) + Hashed(u, hash), hash)
    requires ChildrenFeed(t.node.children, hash) + (SEPARATOR + Feed(t.rest, hash))
          == ChildrenFeed(u.node.children, hash) + (SEPARATOR + Feed(u.rest, hash))
    ensures t.node.children == u.node.children && Feed(t.rest, hash) == Feed(u.rest, hash)
    decreases t, 0
  {
    var p, q := t.node.children, u.node.children;
    var x, y := SEPARATOR + Feed(t.rest, hash), SEPARATOR + Feed(u.rest, hash);
    InsideRest(t, hash);
    InsideRest(u, hash);
    assert (ChildrenFeed(p, hash) + x)[0] == (ChildrenFeed(q, hash) + y)[0];
    assert p.Some? <==> q.Some?;
    SplitAtLength(ChildrenFeed(p, hash), x, ChildrenFeed(q, hash), y);
    assert Feed(t.rest, hash) == x[1..] && Feed(u.rest, hash) == y[1..];
    if p.Some? {
      FeedTellsApart(p.value, q.value, hash, size);
    }
  }

  /** A component tree as the builder produces it. */
  ghost predicate Component(values: seq<TopValue>) {
    forall i | 0 <= i < |values| ::
      NoSeparator(values[i].name) && values[i].children.Some? && Instances(values[i].children.value)
  }

  /** The strings that are hashed to digest a component tree, other than the root's own. */
  ghost function RootHashed(values: seq<TopValue>, hash: Hash): set<Bytes>
    requires Component(values)
  {
    if values == [] then {}
    else
      var t := values[0].children.value;
      Hashed(t, hash) + {Feed(t, hash)} + RootHashed(values[1..], hash)
  }

  lemma TopParts(a: string, h: Bytes, r: Bytes, b: string, k: Bytes, s: Bytes)
    requires NoSeparator(a) && NoSeparator(b) && |h| == |k|
    requires a + SEPARATOR + h + SEPARATOR + r == b + SEPARATOR + k + SEPARATOR + s
    ensures a == b && h == k && r == s
  {
    assert a + SEPARATOR + h + SEPARATOR + r == a + SEPARATOR + (h + (SEPARATOR + r));
    assert b + SEPARATOR + k + SEPARATOR + s == b + SEPARATOR + (k + (SEPARATOR + s));
    SplitAtSeparator(a, h + (SEPARATOR + r), b, k + (SEPARATOR + s));
    SplitAtLength(h, SEPARATOR + r, k, SEPARATOR + s);
    assert r == (SEPARATOR + r)[1..] && s == (SEPARATOR + s)[1..];
  }

  lemma {:induction false} RootTellsApart(ours: seq<TopValue>, theirs: seq<TopValue>, hash: Hash, size: nat)
    requires Component(ours) && Component(theirs) && (forall x :: |hash(x)| == size)
    requires TellsApart(RootHashed(ours, hash) + RootHashed(theirs, hash), hash)
    requires RootFeed(ours, hash) == RootFeed(theirs, hash)
    ensures ours == theirs
    decreases |ours|
  {
    if ours != [] && theirs != [] {
      var t, u := ours[0].children.value, theirs[0].children.value;
      TopParts(ours[0].name, Digest(t, hash), RootFeed(ours[1..], hash),
               theirs[0].name, Digest(u, hash), RootFeed(theirs[1..], hash));
      assert Feed(t, hash) in RootHashed(ours, hash) && Feed(u, hash) in RootHashed(theirs, hash);
      FeedTellsApart(t, u, hash, size);
      RootTellsApart(ours[1..], theirs[1..], hash, size);
      assert ours == [ours[0]] + ours[1..] && theirs == [theirs[0]] + theirs[1..];
    }
  }

  /**
    For the hierarchies the builder produces, the digest tells different values apart, as long
    as the hash does on the strings that are hashed.
   */
  lemma DigestDeterminesValue(ours: seq<TopValue>, theirs: seq<TopValue>, hash: Hash, size: nat)
    requires Component(ours) && Component(theirs) && (forall x :: |hash(x)| == size)
    requires TellsApart(RootHashed(ours, hash) + RootHashed(theirs, hash), hash)
    requires hash(RootFeed(ours, hash)) == hash(RootFeed(theirs, hash)) ==>
      RootFeed(ours, hash) == RootFeed(theirs, hash)
    ensures hash(RootFeed(ours, hash)) == hash(RootFeed(theirs, hash)) <==> ours == theirs
  {
    if hash(RootFeed(ours, hash)) == hash(RootFeed(theirs, hash)) {
      RootTellsApart(ours, theirs, hash, size);
    }
  }

  /**
    Only for those: a value that is not a mapping is not closed by a separator, so in a general
    mapping it can run into the next name, whatever the hash.
   */
  lemma PlainValuesRunTogether(hash: Hash)
    ensures var a := Entry("a", Plain("1"), Entry("1b", Plain("2"), End));
            var b := Entry("a", Plain("11"), Entry("b", Plain("2"), End));
            a != b && Digest(a, hash) == Digest(b, hash)
  {
    assert Feed(End, hash) == [];
    assert "2" + [] == "2";
    assert Feed(Entry("1b", Plain("2"), End), hash) == "1b" + SEPARATOR + "2";
    assert Feed(Entry("b", Plain("2"), End), hash) == "b" + SEPARATOR + "2";
    assert "1" + ("1b" + SEPARATOR + "2") == "11" + ("b" + SEPARATOR + "2");
    assert "a" + SEPARATOR + "1" + ("1b" + SEPARATOR + "2") == "a" + SEPARATOR + "11" + ("b" + SEPARATOR + "2");
  }
}
