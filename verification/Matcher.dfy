/** The prefix tree of topic filters: its updates act as a finite map from filters to values,
    and its search finds exactly the filters that match. */
module TopicTree {
  import opened Levels
  import opened Options
  import opened TopicMatch

  /** No filter is kept in vain: a path below the root is stored or leads further. */
  ghost predicate Tight(t: Tree) {
    forall p :: p in t.paths && p != [] ==> p in t.stored || exists k :: p + [k] in t.paths
  }

  ghost predicate LeadsToStored(t: Tree, p: Path) {
    exists f :: f in t.stored && Extends(f, p)
  }

  /** The paths kept are exactly the beginnings of the stored filters. */
  lemma {:induction false} PathsAreBeginnings(t: Tree, p: Path)
    requires TreeOk(t) && Tight(t) && p != []
    ensures p in t.paths <==> LeadsToStored(t, p)
    decreases |set q | q in t.paths && Extends(q, p)|
  {
    if p in t.stored {
      assert Extends(p, p);
    } else if p in t.paths {
      var k :| p + [k] in t.paths;
      var q := p + [k];
      var above, below := set x | x in t.paths && Extends(x, p), set x | x in t.paths && Extends(x, q);
      forall x | x in below ensures x in above {
        Step(x, p, k);
      }
      assert p in above && p !in below;
      Smaller(below, above, p);
      PathsAreBeginnings(t, q);
      var f :| f in t.stored && Extends(f, q);
      Step(f, p, k);
    }
    if LeadsToStored(t, p) {
      var f :| f in t.stored && Extends(f, p);
      PrefixIn(t, f, |p|);
    }
  }

  lemma BeginningIn(t: Tree, f: Path, p: Path, n: nat)
    requires TreeOk(t) && f in t.stored && Extends(f, p) && n <= |p|
    ensures p[..n] in t.paths
  {
    PrefixIn(t, f, n);
    assert p[..n] == f[..n];
  }

  lemma Dead(t: Tree, p: Path, n: nat)
    requires TreeOk(t) && n <= |p| && p[..n] !in t.paths
    ensures !LeadsToStored(t, p)
  {
    if LeadsToStored(t, p) {
      var f :| f in t.stored && Extends(f, p);
      BeginningIn(t, f, p, n);
    }
  }

  lemma Smaller<T>(a: set<T>, b: set<T>, x: T)
    requires a <= b && x in b && x !in a
    ensures |a| < |b|
  {
    assert a <= b - {x};
    CardinalityOf(a, b - {x});
  }

  lemma {:induction false} CardinalityOf<T>(a: set<T>, b: set<T>)
    requires a <= b
    ensures |a| <= |b|
    decreases |a|
  {
    if a != {} {
      var x :| x in a;
      CardinalityOf(a - {x}, b - {x});
    }
  }

  function ValuesAt<V>(fs: seq<Path>, contents: map<Path, V>): seq<V>
    requires forall f :: f in fs ==> f in contents
  {
    seq(|fs|, i requires 0 <= i < |fs| => contents[fs[i]])
  }

  lemma ValuesConcat<V>(a: seq<Path>, b: seq<Path>, contents: map<Path, V>)
    requires forall f :: f in a + b ==> f in contents
    ensures (forall f :: f in a ==> f in contents) && (forall f :: f in b ==> f in contents)
    ensures ValuesAt(a + b, contents) == ValuesAt(a, contents) + ValuesAt(b, contents)
  {
    assert forall f :: f in a ==> f in a + b;
    assert forall f :: f in b ==> f in a + b;
  }

  /** The value under the filter `key`. */
  function Find<V>(contents: map<Path, V>, key: string): Option<V> {
    var p := Split(key, '/');
    if p in contents then Some(contents[p]) else None
  }

  /** Storing and removing by levels is storing and removing by key: no other key is touched. */
  lemma FindLaws<V>(contents: map<Path, V>, key: string, value: V, other: string)
    ensures Find(contents[Split(key, '/') := value], other)
      == if other == key then Some(value) else Find(contents, other)
    ensures Find(contents - {Split(key, '/')}, other) == if other == key then None else Find(contents, other)
  {
    SplitInjective(other, key, '/');
  }

  class Node<V> {
    var children: map<string, Node<V>>
    var content: Option<V>

    constructor ()
      ensures children == map[] && content == None
    {
      children, content := map[], None;
    }
  }

  /** What a node holds at some moment. */
  datatype Entry<V> = Entry(node: Node<V>, children: map<string, Node<V>>, content: Option<V>)

  type View<V> = map<Path, Entry<V>>

  /** The nodes are distinct. */
  ghost predicate Apart<V>(v: View<V>) {
    forall p, q :: p in v && q in v && v[p].node == v[q].node ==> p == q
  }

  /** A node's children are the nodes one level further. */
  ghost predicate Chained<V>(v: View<V>) {
    && (forall p, k {:trigger p + [k] in v} :: p + [k] in v ==>
         p in v && k in v[p].children && v[p].children[k] == v[p + [k]].node)
    && (forall p, k {:trigger k in v[p].children} :: p in v && k in v[p].children ==> p + [k] in v)
  }

  /** The child maps describe the tree, without sharing. */
  ghost predicate Linked<V>(v: View<V>, root: Node<V>) {
    && [] in v && v[[]].node == root && v[[]].content == None
    && Apart(v) && Chained(v)
  }

  /** Every node below the root, except perhaps the one at `hole`, has a value or a child. */
  ghost predicate UsedBut<V>(v: View<V>, hole: Path) {
    forall p :: p in v && p != [] && p != hole ==> v[p].content.Some? || v[p].children != map[]
  }

  ghost function ContentsOf<V>(v: View<V>): map<Path, V> {
    map p | p in v && v[p].content.Some? :: v[p].content.value
  }

  ghost function ShapeOf<V>(v: View<V>): Tree {
    Tree(v.Keys, ContentsOf(v).Keys)
  }

  lemma ShapeOk<V>(v: View<V>, root: Node<V>)
    requires Linked(v, root) && UsedBut(v, [])
    ensures TreeOk(ShapeOf(v)) && Tight(ShapeOf(v)) && [] in ShapeOf(v).paths
  {
    forall p | p in v && p != [] && p !in ContentsOf(v) ensures exists k :: p + [k] in v {
      var k :| k in v[p].children;
      assert p + [k] in v;
    }
    forall p | p in v && p != [] ensures p[..|p| - 1] in v {
      assert p == p[..|p| - 1] + [p[|p| - 1]];
    }
  }

  lemma ChildAt<V>(v: View<V>, root: Node<V>, p: Path, k: string)
    requires Linked(v, root) && p in v
    ensures k in v[p].children <==> p + [k] in v
    ensures k in v[p].children ==> v[p].children[k] == v[p + [k]].node
  {
  }

  ghost function WithLeaf<V>(v: View<V>, p: Path, k: string, leaf: Node<V>): View<V>
    requires p in v
  {
    v[p := v[p].(children := v[p].children[k := leaf])][p + [k] := Entry(leaf, map[], None)]
  }

  lemma OneStep(p: Path, k: string, q: Path, l: string)
    ensures p + [k] == q + [l] ==> p == q && k == l
    ensures p + [k] != p
  {
    assert (p + [k])[..|p + [k]| - 1] == p && (p + [k])[|p + [k]| - 1] == k;
    assert (q + [l])[..|q + [l]| - 1] == q && (q + [l])[|q + [l]| - 1] == l;
  }

  lemma LeafFacts<V>(v: View<V>, p: Path, k: string, leaf: Node<V>)
    requires p in v
    ensures var w, c := WithLeaf(v, p, k, leaf), p + [k];
      && c != p && c in w && w[c] == Entry(leaf, map[], None)
      && p in w && w[p] == v[p].(children := v[p].children[k := leaf])
      && (forall q :: q != c && q != p ==> (q in w <==> q in v) && (q in v ==> w[q] == v[q]))
  {
    OneStep(p, k, p, k);
  }

  lemma LeafChained<V>(v: View<V>, p: Path, k: string, leaf: Node<V>)
    requires Chained(v) && p in v && p + [k] !in v
    ensures Chained(WithLeaf(v, p, k, leaf))
  {
    var w := WithLeaf(v, p, k, leaf);
    hide Chained, WithLeaf;
    forall q, l | q + [l] in w ensures q in w && l in w[q].children && w[q].children[l] == w[q + [l]].node {
      LeafParent(v, p, k, leaf, q, l);
    }
    forall q, l | q in w && l in w[q].children ensures q + [l] in w {
      LeafChild(v, p, k, leaf, q, l);
    }
    NowChained(w);
  }

  lemma NowChained<V>(v: View<V>)
    requires forall p, k {:trigger p + [k] in v} :: p + [k] in v ==>
      p in v && k in v[p].children && v[p].children[k] == v[p + [k]].node
    requires forall p, k {:trigger k in v[p].children} :: p in v && k in v[p].children ==> p + [k] in v
    ensures Chained(v)
  {
  }

  lemma LeafParent<V>(v: View<V>, p: Path, k: string, leaf: Node<V>, q: Path, l: string)
    requires Chained(v) && p in v && p + [k] !in v && q + [l] in WithLeaf(v, p, k, leaf)
    ensures var w := WithLeaf(v, p, k, leaf); q in w && l in w[q].children && w[q].children[l] == w[q + [l]].node
  {
    hide WithLeaf;
    LeafFacts(v, p, k, leaf);
    OneStep(p, k, q, l);
    OneStep(q, l, p, k);
    if q + [l] != p + [k] {
      assert q + [l] in v;
    }
  }

  lemma LeafChild<V>(v: View<V>, p: Path, k: string, leaf: Node<V>, q: Path, l: string)
    requires Chained(v) && p in v && p + [k] !in v
    requires q in WithLeaf(v, p, k, leaf) && l in WithLeaf(v, p, k, leaf)[q].children
    ensures q + [l] in WithLeaf(v, p, k, leaf)
  {
    hide WithLeaf;
    LeafFacts(v, p, k, leaf);
    if q != p || l != k {
      assert q in v && l in v[q].children;
    }
  }

  lemma LeafAdded<V>(v: View<V>, root: Node<V>, p: Path, k: string, leaf: Node<V>)
    requires Linked(v, root) && UsedBut(v, p) && p in v && p + [k] !in v
    requires forall q :: q in v ==> v[q].node != leaf
    ensures Linked(WithLeaf(v, p, k, leaf), root) && UsedBut(WithLeaf(v, p, k, leaf), p + [k])
    ensures ContentsOf(WithLeaf(v, p, k, leaf)) == ContentsOf(v)
  {
    hide Chained, WithLeaf, UsedBut, ContentsOf, Apart;
    LeafChained(v, p, k, leaf);
    LeafFacts(v, p, k, leaf);
    LeafApart(v, p, k, leaf);
    LeafUsed(v, p, k, leaf);
    SameContents(v, WithLeaf(v, p, k, leaf));
  }

  lemma LeafApart<V>(v: View<V>, p: Path, k: string, leaf: Node<V>)
    requires Apart(v) && p in v && p + [k] !in v && forall q :: q in v ==> v[q].node != leaf
    ensures Apart(WithLeaf(v, p, k, leaf))
  {
    hide WithLeaf;
    LeafFacts(v, p, k, leaf);
  }

  lemma LeafUsed<V>(v: View<V>, p: Path, k: string, leaf: Node<V>)
    requires UsedBut(v, p) && p in v && p + [k] !in v
    ensures UsedBut(WithLeaf(v, p, k, leaf), p + [k])
  {
    hide WithLeaf;
    LeafFacts(v, p, k, leaf);
    assert k in WithLeaf(v, p, k, leaf)[p].children;
  }

  lemma Narrow<V>(v: View<V>, p: Path, q: Path)
    requires UsedBut(v, p) && p in v && v[p].children != map[]
    ensures UsedBut(v, q)
  {
  }

  lemma Narrowed<V>(v: View<V>, q: Path)
    requires UsedBut(v, [])
    ensures UsedBut(v, q)
  {
  }

  lemma SameContents<V>(v: View<V>, w: View<V>)
    ensures (forall q :: (q in w && w[q].content.Some?) <==> (q in v && v[q].content.Some?))
      && (forall q :: q in v && q in w ==> w[q].content == v[q].content)
      ==> ContentsOf(w) == ContentsOf(v)
  {
  }

  lemma ValueSet<V>(v: View<V>, root: Node<V>, p: Path, content: Option<V>)
    requires Linked(v, root) && p in v && p != [] && UsedBut(v, p)
    ensures var w := v[p := v[p].(content := content)];
      && Linked(w, root)
      && (content.Some? ==> UsedBut(w, []))
      && UsedBut(w, p)
  {
    var w := v[p := v[p].(content := content)];
    assert forall q :: q in w ==> q in v && w[q].node == v[q].node && w[q].children == v[q].children;
  }

  lemma ValueStored<V>(v: View<V>, p: Path, content: Option<V>)
    requires p in v
    ensures ContentsOf(v[p := v[p].(content := content)])
         == if content.Some? then ContentsOf(v)[p := content.value] else ContentsOf(v) - {p}
  {
  }

  /** `v` without the node at `p + [k]`. */
  ghost function WithoutLeaf<V>(v: View<V>, p: Path, k: string): View<V>
    requires p in v
  {
    v[p := v[p].(children := v[p].children - {k})] - {p + [k]}
  }

  lemma WithoutFacts<V>(v: View<V>, p: Path, k: string)
    requires p in v
    ensures var w, c := WithoutLeaf(v, p, k), p + [k];
      && c != p && c !in w && p in w && w[p] == v[p].(children := v[p].children - {k})
      && (forall q :: q != c && q != p ==> (q in w <==> q in v) && (q in v ==> w[q] == v[q]))
  {
    OneStep(p, k, p, k);
  }

  lemma LeafUnchained<V>(v: View<V>, p: Path, k: string)
    requires Chained(v) && p in v && p + [k] in v && v[p + [k]].children == map[]
    ensures Chained(WithoutLeaf(v, p, k))
  {
    hide WithoutLeaf;
    var w := WithoutLeaf(v, p, k);
    WithoutFacts(v, p, k);
    forall q, l | q + [l] in w ensures q in w && l in w[q].children && w[q].children[l] == w[q + [l]].node {
      OneStep(p, k, q, l);
      assert q + [l] in v;
    }
    forall q, l | q in w && l in w[q].children ensures q + [l] in w {
      assert l in v[q].children;
      OneStep(p, k, q, l);
    }
  }

  lemma LeafRemoved<V>(v: View<V>, root: Node<V>, p: Path, k: string)
    requires Linked(v, root) && p in v && p + [k] in v && UsedBut(v, p + [k])
    requires v[p + [k]].content == None && v[p + [k]].children == map[]
    ensures Linked(WithoutLeaf(v, p, k), root) && UsedBut(WithoutLeaf(v, p, k), p)
    ensures ContentsOf(WithoutLeaf(v, p, k)) == ContentsOf(v)
  {
    LeafUnchained(v, p, k);
    WithoutFacts(v, p, k);
    hide Chained, WithoutLeaf;
    SameContents(v, WithoutLeaf(v, p, k));
  }

  class Matcher<V> {
    const root: Node<V>
    /** Every node by the path that leads to it. */
    ghost var nodes: map<Path, Node<V>>

    constructor ()
      ensures Valid() && Contents() == map[] && fresh(nodes.Values)
    {
      root := new Node();
      nodes := map[[] := root];
    }

    ghost function Now(): View<V>
      reads this, nodes.Values
    {
      map p | p in nodes :: Entry(nodes[p], nodes[p].children, nodes[p].content)
    }

    ghost predicate Valid()
      reads this, nodes.Values
    {
      Linked(Now(), root) && UsedBut(Now(), [])
    }

    /** The values by the levels of their filters. */
    ghost function Contents(): map<Path, V>
      reads this, nodes.Values
    {
      ContentsOf(Now())
    }

    method Set(key: string, value: V)
      requires Valid()
      modifies this`nodes, nodes.Values
      ensures Valid() && Contents() == old(Contents())[Split(key, '/') := value]
      ensures forall n :: n in nodes.Values ==> n in old(nodes.Values) || fresh(n)
    {
      hide Linked, UsedBut, ContentsOf, Split;
      var levels := Split(key, '/');
      var node := root;
      Root();
      for i := 0 to |levels|
        invariant Linked(Now(), root) && UsedBut(Now(), levels[..i])
        invariant levels[..i] in nodes && nodes[levels[..i]] == node
        invariant Contents() == old(Contents())
        invariant forall n :: n in nodes.Values ==> n in old(nodes.Values) || fresh(n)
      {
        assert levels[..i + 1] == levels[..i] + [levels[i]];
        node := Descend(node, levels[..i], levels[i]);
      }
      assert levels[..|levels|] == levels;
      ValueSet(Now(), root, levels, Some(value));
      ValueStored(Now(), levels, Some(value));
      SetContent(node, levels, Some(value));
    }

    lemma Root()
      requires Linked(Now(), root)
      ensures [] in nodes && nodes[[]] == root
    {
    }

    lemma Alone(p: Path)
      requires Linked(Now(), root) && p in nodes
      ensures p in Now() && Now()[p] == Entry(nodes[p], nodes[p].children, nodes[p].content)
      ensures forall q :: q in nodes && q != p ==> nodes[q] != nodes[p]
    {
      forall q | q in nodes && nodes[q] == nodes[p] ensures q == p {
        assert Now()[q].node == Now()[p].node;
      }
    }

    method SetContent(node: Node<V>, ghost p: Path, content: Option<V>)
      requires Linked(Now(), root) && p in nodes && nodes[p] == node && p != []
      modifies node`content
      ensures Now() == old(Now())[p := old(Now())[p].(content := content)]
    {
      Alone(p);
      hide Linked;
      node.content := content;
    }

    /** The child at `k`, made on the way if there is none. */
    method Descend(node: Node<V>, ghost p: Path, k: string) returns (child: Node<V>)
      requires Linked(Now(), root) && p in nodes && nodes[p] == node && UsedBut(Now(), p)
      modifies this`nodes, node`children
      ensures Linked(Now(), root) && p + [k] in nodes && nodes[p + [k]] == child
      ensures UsedBut(Now(), p + [k]) && Contents() == old(Contents())
      ensures forall n :: n in nodes.Values ==> n in old(nodes.Values) || fresh(n)
    {
      hide ContentsOf, Chained;
      var leaf := new Node<V>();
      Alone(p);
      ChildAt(Now(), root, p, k);
      assert Linked(Now(), root) && UsedBut(Now(), p);
      hide Linked, UsedBut;
      if k !in node.children {
        LeafAdded(Now(), root, p, k, leaf);
        AddChild(node, p, k, leaf);
      } else {
        Narrow(Now(), p, p + [k]);
      }
      child := node.children[k];
    }

    method AddChild(node: Node<V>, ghost p: Path, k: string, leaf: Node<V>)
      requires p in nodes && nodes[p] == node && leaf.children == map[] && leaf.content == None
      requires forall q :: q in nodes ==> nodes[q] != leaf && (q != p ==> nodes[q] != node)
      modifies this`nodes, node`children
      ensures nodes == old(nodes)[p + [k] := leaf]
      ensures node.children == old(node.children)[k := leaf]
      ensures Now() == WithLeaf(old(Now()), p, k, leaf)
    {
      LeafFacts(Now(), p, k, leaf);
      hide WithLeaf;
      node.children := node.children[k := leaf];
      nodes := nodes[p + [k] := leaf];
      var w := WithLeaf(old(Now()), p, k, leaf);
      assert Now().Keys == w.Keys;
      forall q | q in w ensures Now()[q] == w[q] {
        if q != p && q != p + [k] {
          assert q in old(nodes);
        }
      }
    }

    method Get(key: string) returns (r: Option<V>)
      requires Valid()
      ensures r == Find(Contents(), key)
    {
      hide Linked, UsedBut, ContentsOf, Split;
      var levels := Split(key, '/');
      var node := root;
      Root();
      for i := 0 to |levels|
        invariant levels[..i] in nodes && nodes[levels[..i]] == node
      {
        var more := Follow(node, levels, i);
        if more == None {
          return None;
        }
        node := more.value;
      }
      assert levels[..|levels|] == levels;
      Stored(levels);
      r := node.content;
    }

    lemma Stored(p: Path)
      requires p in nodes
      ensures p in Contents() <==> nodes[p].content.Some?
      ensures p in Contents() ==> Contents()[p] == nodes[p].content.value
    {
    }

    /** One step down a filter's levels; None when nothing is stored under the filter or beyond. */
    method Follow(node: Node<V>, levels: Path, i: nat) returns (child: Option<Node<V>>)
      requires Valid() && i < |levels| && levels[..i] in nodes && nodes[levels[..i]] == node
      ensures child == None ==> !LeadsToStored(ShapeOf(Now()), levels) && levels !in Contents()
      ensures child.Some? ==> levels[..i + 1] in nodes && nodes[levels[..i + 1]] == child.value
      ensures child.Some? ==> levels[i] in node.children && node.children[levels[i]] == child.value
    {
      assert levels[..i + 1] == levels[..i] + [levels[i]];
      ChildAt(Now(), root, levels[..i], levels[i]);
      ShapeOk(Now(), root);
      hide Linked, UsedBut, ContentsOf;
      if levels[i] in node.children {
        child := Some(node.children[levels[i]]);
      } else {
        child := None;
        Dead(ShapeOf(Now()), levels, i + 1);
      }
    }

    /** Where the filter's path exists nothing but its own value goes; where it does not,
        nothing changes at all. */
    method Delete(key: string) returns (ok: bool)
      requires Valid()
      modifies this`nodes, nodes.Values
      ensures ok <==> LeadsToStored(ShapeOf(old(Now())), Split(key, '/'))
      ensures Valid() && Contents() == if ok then old(Contents()) - {Split(key, '/')} else old(Contents())
      ensures !ok ==> Now() == old(Now())
      ensures nodes.Values <= old(nodes.Values)
    {
      hide Linked, UsedBut, ContentsOf, Split;
      var levels := Split(key, '/');
      var node := root;
      var trail: seq<(Node<V>, string, Node<V>)> := [];
      Root();
      for i := 0 to |levels|
        invariant levels[..i] in nodes && nodes[levels[..i]] == node
        modifies {}
        invariant |trail| == i && forall j :: 0 <= j < i ==> OnTrail(trail[j], levels, j)
      {
        var more := Follow(node, levels, i);
        if more == None {
          return false;
        }
        trail := trail + [(node, levels[i], more.value)];
        node := more.value;
      }
      assert levels[..|levels|] == levels;
      ok := true;
      ShapeOk(Now(), root);
      PathsAreBeginnings(ShapeOf(Now()), levels);
      Narrowed(Now(), levels);
      ValueSet(Now(), root, levels, None);
      ValueStored(Now(), levels, None);
      SetContent(node, levels, None);
      Prune(levels, trail);
    }

    ghost predicate OnTrail(entry: (Node<V>, string, Node<V>), levels: Path, j: nat)
      requires j < |levels|
      reads this
    {
      && levels[..j] in nodes && levels[..j + 1] in nodes
      && entry == (nodes[levels[..j]], levels[j], nodes[levels[..j + 1]])
    }

    /** Remove the nodes of the trail, last first, up to one that is still needed. */
    method Prune(levels: Path, trail: seq<(Node<V>, string, Node<V>)>)
      requires Linked(Now(), root) && UsedBut(Now(), levels) && |trail| == |levels|
      requires forall j :: 0 <= j < |trail| ==> OnTrail(trail[j], levels, j)
      modifies this`nodes, nodes.Values
      ensures Valid() && Contents() == old(Contents()) && nodes.Values <= old(nodes.Values)
    {
      hide Linked, UsedBut, ContentsOf;
      var i := |trail|;
      assert levels[..|levels|] == levels;
      while i > 0
        invariant 0 <= i <= |trail| && Linked(Now(), root) && UsedBut(Now(), levels[..i])
        invariant forall j :: 0 <= j < i ==> OnTrail(trail[j], levels, j)
        invariant Contents() == old(Contents()) && nodes.Values <= old(nodes.Values)
      {
        var (parent, k, node) := trail[i - 1];
        assert OnTrail(trail[i - 1], levels, i - 1);
        assert levels[..i] == levels[..i - 1] + [levels[i - 1]];
        if node.children != map[] || node.content != None {
          Kept(levels[..i]);
          return;
        }
        RemoveLeaf(parent, levels[..i - 1], k);
        i := i - 1;
        forall j | 0 <= j < i ensures OnTrail(trail[j], levels, j) {
          assert |levels[..j]| == j && |levels[..j + 1]| == j + 1;
        }
      }
    }

    lemma Kept(p: Path)
      requires UsedBut(Now(), p) && p in nodes && (nodes[p].children != map[] || nodes[p].content != None)
      ensures UsedBut(Now(), [])
    {
    }

    method RemoveLeaf(parent: Node<V>, ghost p: Path, k: string)
      requires Linked(Now(), root) && p in nodes && nodes[p] == parent && p + [k] in nodes
      requires UsedBut(Now(), p + [k]) && nodes[p + [k]].children == map[] && nodes[p + [k]].content == None
      modifies this`nodes, parent`children
      ensures Linked(Now(), root) && UsedBut(Now(), p) && Contents() == old(Contents())
      ensures nodes == old(nodes) - {p + [k]}
    {
      hide ContentsOf, Chained;
      Alone(p);
      LeafRemoved(Now(), root, p, k);
      hide Linked, UsedBut;
      RemoveChild(parent, p, k);
    }

    method RemoveChild(parent: Node<V>, ghost p: Path, k: string)
      requires p in nodes && nodes[p] == parent
      requires forall q :: q in nodes && q != p ==> nodes[q] != parent
      modifies this`nodes, parent`children
      ensures nodes == old(nodes) - {p + [k]}
      ensures Now() == WithoutLeaf(old(Now()), p, k)
    {
      OneStep(p, k, p, k);
      parent.children := parent.children - {k};
      nodes := nodes - {p + [k]};
    }

    /** The values found from a node on, where level `i` of the topic comes next. */
    function Rec(node: Node<V>, topic: Path, i: nat, normal: bool, ghost p: Path): seq<V>
      requires i <= |topic| && Linked(Now(), root) && p in nodes && nodes[p] == node
      reads this, nodes.Values
      decreases |topic| - i
    {
      (if i == |topic| then
         Yield(node.content)
       else
         (if topic[i] in node.children then
            ChildAt(Now(), root, p, topic[i]);
            Rec(node.children[topic[i]], topic, i + 1, normal, p + [topic[i]])
          else [])
         + (if "+" in node.children && (normal || i > 0) then
              ChildAt(Now(), root, p, "+");
              Rec(node.children["+"], topic, i + 1, normal, p + ["+"])
            else []))
      + (if "#" in node.children && (normal || i > 0) then
           ChildAt(Now(), root, p, "#");
           Yield(node.children["#"].content)
         else [])
    }

    /** The values of all filters that match the topic. */
    function IterMatch(topic: string): seq<V>
      requires Valid()
      reads this, nodes.Values
    {
      Root();
      Rec(root, Split(topic, '/'), 0, Normal(topic), [])
    }

    ghost function Branch(p: Path, topic: Path, i: nat, normal: bool, level: string): seq<V>
      requires i < |topic| && Linked(Now(), root) && p in nodes
      reads this, nodes.Values
    {
      if p + [level] in nodes then Rec(nodes[p + [level]], topic, i + 1, normal, p + [level]) else []
    }

    lemma RecParts(p: Path, topic: Path, i: nat, normal: bool)
      requires i <= |topic| && Linked(Now(), root) && p in nodes
      ensures Rec(nodes[p], topic, i, normal, p)
           == (if i == |topic| then Yield(nodes[p].content)
               else Branch(p, topic, i, normal, topic[i])
                    + if normal || i > 0 then Branch(p, topic, i, normal, "+") else [])
              + if p + ["#"] in nodes && (normal || i > 0) then Yield(nodes[p + ["#"]].content) else []
    {
      hide Linked;
      Root();
      ChildAt(Now(), root, p, "#");
      ChildAt(Now(), root, p, "+");
      if i < |topic| {
        ChildAt(Now(), root, p, topic[i]);
      }
    }

    lemma WalkEnd(t: Tree, p: Path, topic: Path, normal: bool) returns (here: seq<Path>, hash: seq<Path>)
      ensures here == if p in t.stored then [p] else []
      ensures hash == if p + ["#"] in t.stored && (normal || |topic| > 0) then [p + ["#"]] else []
      ensures Walk(t, p, topic, |topic|, normal) == here + hash
    {
      here := if p in t.stored then [p] else [];
      hash := if p + ["#"] in t.stored && (normal || |topic| > 0) then [p + ["#"]] else [];
    }

    /** The search yields the values of the filters the walk finds, in its order. */
    lemma {:induction false} RecIsWalk(p: Path, topic: Path, i: nat, normal: bool)
      requires i <= |topic| && Valid() && p in nodes
      ensures forall f :: f in Walk(ShapeOf(Now()), p, topic, i, normal) ==> f in Contents()
      ensures Rec(nodes[p], topic, i, normal, p) == ValuesAt(Walk(ShapeOf(Now()), p, topic, i, normal), Contents())
      decreases |topic| - i
    {
      hide Linked, UsedBut, ContentsOf, Walk, Rec, Yield, ValuesAt;
      var t := ShapeOf(Now());
      RecParts(p, topic, i, normal);
      YieldAt(p);
      YieldAt(p + ["#"]);
      if i == |topic| {
        var here, hash := WalkEnd(t, p, topic, normal);
        ValuesConcat(here, hash, Contents());
      } else {
        BranchIsWalk(p, topic, i, normal, topic[i]);
        BranchIsWalk(p, topic, i, normal, "+");
        var same, plus, hash := WalkConcat(t, p, topic, i, normal);
        ValuesConcat(same, plus, Contents());
        ValuesConcat(same + plus, hash, Contents());
      }
    }

    lemma BranchIsWalk(p: Path, topic: Path, i: nat, normal: bool, level: string)
      requires i < |topic| && Valid() && p in nodes
      ensures var fs := if p + [level] in nodes then Walk(ShapeOf(Now()), p + [level], topic, i + 1, normal) else [];
        && (forall f :: f in fs ==> f in Contents())
        && Branch(p, topic, i, normal, level) == ValuesAt(fs, Contents())
      decreases |topic| - i, 0
    {
      hide Linked, UsedBut, ContentsOf, Walk, Rec;
      if p + [level] in nodes {
        RecIsWalk(p + [level], topic, i + 1, normal);
      }
    }

    lemma YieldAt(p: Path)
      ensures p in Contents() ==> p in nodes
      ensures p in nodes ==> Yield(nodes[p].content) == if p in Contents() then ValuesAt([p], Contents()) else []
      ensures ValuesAt([], Contents()) == []
    {
    }

    /** For a topic name, the search yields the value of every stored filter that matches under
        sections 4.7.1 and 4.7.2 of MQTT 3.1.1 once, and nothing else. */
    lemma FindsMatches(topic: string) returns (fs: seq<Path>)
      requires Valid() && TopicName(Split(topic, '/'))
      ensures NoDup(fs)
      ensures forall f :: f in fs <==> f in Contents() && StandardMatch(f, Split(topic, '/'), Normal(topic))
      ensures IterMatch(topic) == ValuesAt(fs, Contents())
    {
      var levels := Split(topic, '/');
      fs := Walk(ShapeOf(Now()), [], levels, 0, Normal(topic));
      ShapeOk(Now(), root);
      RecIsWalk([], levels, 0, Normal(topic));
      WalkOnce(ShapeOf(Now()), [], levels, 0, Normal(topic));
      forall f ensures f in fs <==> f in Contents() && StandardMatch(f, levels, Normal(topic)) {
        WalkFinds(ShapeOf(Now()), [], levels, 0, Normal(topic), f);
        assert f[0..] == f && levels[0..] == levels;
        MatchesIsStandard(f, levels, Normal(topic));
      }
    }
  }

  function Yield<V>(content: Option<V>): seq<V> {
    match content
    case Some(v) => [v]
    case None => []
  }

  /** The topic does not start with '$'. */
  predicate Normal(topic: string) {
    !("$" <= topic)
  }

  /** One filter against one topic. */
  method TopicMatchesSub(sub: string, topic: string) returns (r: bool)
    ensures r <==> Matches(Split(sub, '/'), Split(topic, '/'), Normal(topic))
    ensures TopicName(Split(topic, '/')) ==> (r <==> StandardMatch(Split(sub, '/'), Split(topic, '/'), Normal(topic)))
  {
    var matcher := new Matcher<bool>();
    matcher.Set(sub, true);
    var found := matcher.IterMatch(topic);
    r := found != [];
    ghost var f, levels := Split(sub, '/'), Split(topic, '/');
    ghost var shape := ShapeOf(matcher.Now());
    hide Split;
    matcher.RecIsWalk([], levels, 0, Normal(topic));
    ShapeOk(matcher.Now(), matcher.root);
    ghost var fs := Walk(shape, [], levels, 0, Normal(topic));
    WalkFinds(shape, [], levels, 0, Normal(topic), f);
    assert f[0..] == f && levels[0..] == levels;
    if r {
      assert fs[0] in fs;
      assert fs[0] == f;
    }
    if TopicName(levels) {
      MatchesIsStandard(f, levels, Normal(topic));
    }
  }

  // ---------- a topic that is its own filter ----------

  /** A matcher that stores one filter has the tree of that filter. */
  lemma OnlyShape<V>(matcher: Matcher<V>, levels: Path, value: V)
    requires matcher.Valid() && matcher.Contents() == map[levels := value]
    ensures ShapeOf(matcher.Now()) == Only(levels)
  {
    var t := ShapeOf(matcher.Now());
    ShapeOk(matcher.Now(), matcher.root);
    OnlyOk(levels);
    hide Linked, UsedBut, ContentsOf, TreeOk, Tight, Only;
    assert t.stored == {levels};
    forall p ensures p in t.paths <==> p in Only(levels).paths {
      if p != [] {
        PathsAreBeginnings(t, p);
        Beginnings(levels, p);
      }
    }
    OnlyStored(levels);
  }

  lemma Beginnings(levels: Path, p: Path)
    ensures Extends(levels, p) <==> p in Only(levels).paths
    ensures forall t: Tree :: t.stored == {levels} ==> (LeadsToStored(t, p) <==> Extends(levels, p))
  {
  }

  lemma OnlyStored(levels: Path)
    ensures Only(levels).stored == {levels}
  {
  }

  lemma {:induction false} AllSame(fs: seq<Path>, f: Path)
    requires forall x :: x in fs ==> x == f
    ensures Times(fs, f) == |fs|
  {
    if fs != [] {
      assert fs[0] in fs && fs == [fs[0]] + fs[1..];
      assert forall x :: x in fs[1..] ==> x in fs;
      AllSame(fs[1..], f);
    }
  }

  /** A topic that starts with '$' does not start with a wildcard level. */
  lemma FirstLevel(topic: string)
    ensures Normal(topic) || !IsWild(Split(topic, '/')[0])
  {
    if !Normal(topic) {
      assert topic[0] == '$';
      assert Split(topic, '/')[0][0] == '$';
    }
  }

  /** What the walk finds of the one filter. */
  lemma OnlyFinds(levels: Path, normal: bool)
    requires levels != [] && (normal || !IsWild(levels[0]))
    ensures var fs := Walk(Only(levels), [], levels, 0, normal);
      && (forall f :: f in fs ==> f == levels) && (|fs| == 1 <==> OnceTopic(levels)) && |fs| >= 1
  {
    var t := Only(levels);
    OnlyOk(levels);
    OnlyStored(levels);
    hide Only, Walk, Times, Matches;
    var fs := Walk(t, [], levels, 0, normal);
    forall f | f in fs ensures f == levels {
      WalkFinds(t, [], levels, 0, normal, f);
    }
    WalkFinds(t, [], levels, 0, normal, levels);
    MatchesItself(levels, normal);
    assert levels[0..] == levels;
    AllSame(fs, levels);
    if OnceTopic(levels) {
      WalkOnce(t, [], levels, 0, normal);
      NoDupOnce(fs, levels);
    } else {
      assert levels[..0] == [];
      WalkTwice(levels, 0, normal);
    }
  }

  /** Store a value under a filter and search for the topic spelled like it: the search yields the value,
      and yields it once exactly when no level is "+" and the last is not "#". */
  method SearchItself<V>(topic: string, value: V) returns (matcher: Matcher<V>, values: seq<V>)
    ensures fresh(matcher) && matcher.Valid() && matcher.Contents() == map[Split(topic, '/') := value]
    ensures values == matcher.IterMatch(topic)
    ensures |values| >= 1 && forall i :: 0 <= i < |values| ==> values[i] == value
    ensures |values| == 1 <==> OnceTopic(Split(topic, '/'))
  {
    matcher := new Matcher<V>();
    matcher.Set(topic, value);
    values := matcher.IterMatch(topic);
    hide OnceTopic, Split;
    FindsItself(matcher, topic, value);
  }

  lemma FindsItself<V>(matcher: Matcher<V>, topic: string, value: V)
    requires matcher.Valid() && matcher.Contents() == map[Split(topic, '/') := value]
    ensures var values := matcher.IterMatch(topic);
      && |values| >= 1 && (forall i :: 0 <= i < |values| ==> values[i] == value)
      && (|values| == 1 <==> OnceTopic(Split(topic, '/')))
  {
    var levels := Split(topic, '/');
    FirstLevel(topic);
    hide Split, Walk, Only, Linked, UsedBut, ContentsOf, OnceTopic;
    OnlyShape(matcher, levels, value);
    OnlyFinds(levels, Normal(topic));
    matcher.Root();
    matcher.RecIsWalk([], levels, 0, Normal(topic));
  }
}
