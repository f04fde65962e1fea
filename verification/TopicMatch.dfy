/** Matching of topic names against topic filters, level by level: the reference of section 4.7
    of MQTT 3.1.1, the relation the client decides, and the walk that finds all matches. */
module TopicMatch {

  type Path = seq<string>

  /** `wild` tells whether a wildcard may match here: not on the first level of a topic that
      starts with '$'. */
  predicate Matches(filter: Path, topic: Path, wild: bool) {
    || (filter == [] && topic == [])
    || (wild && filter == ["#"])
    || (filter != [] && topic != []
        && (filter[0] == topic[0] || (wild && filter[0] == "+"))
        && Matches(filter[1..], topic[1..], true))
  }

  predicate IsWild(level: string) {
    level == "+" || level == "#"
  }

  ghost predicate TopicName(topic: Path) {
    forall i :: 0 <= i < |topic| ==> !IsWild(topic[i])
  }

  /** Sections 4.7.1 and 4.7.2: '+' stands for any one level, a final '#' for the parent and any
      number of further levels, and a leading wildcard matches no topic starting with '$'. */
  ghost predicate StandardMatch(filter: Path, topic: Path, wild: bool) {
    var hash := filter != [] && filter[|filter| - 1] == "#";
    var n := if hash then |filter| - 1 else |filter|;
    && (if hash then |topic| >= n else |topic| == n)
    && (forall i :: 0 <= i < n ==> filter[i] == "+" || filter[i] == topic[i])
    && (!wild ==> filter == [] || !IsWild(filter[0]))
  }

  /** On topic names, which hold no wildcard, the client decides the standard's relation. */
  lemma {:induction false} MatchesIsStandard(filter: Path, topic: Path, wild: bool)
    requires TopicName(topic)
    ensures Matches(filter, topic, wild) <==> StandardMatch(filter, topic, wild)
    decreases |filter|
  {
    if filter != [] && topic != [] && filter != ["#"] {
      MatchesIsStandard(filter[1..], topic[1..], true);
      var f, t := filter[1..], topic[1..];
      if f != [] {
        assert f[|f| - 1] == filter[|filter| - 1];
      }
      if StandardMatch(f, t, true) && (filter[0] == topic[0] || (wild && filter[0] == "+")) {
        forall i | 0 <= i < |filter| && (filter[|filter| - 1] == "#" ==> i < |filter| - 1)
          ensures filter[i] == "+" || filter[i] == topic[i]
        {
          if i > 0 {
            assert filter[i] == f[i - 1] && topic[i] == t[i - 1];
          }
        }
      }
      if StandardMatch(filter, topic, wild) {
        forall i | 0 <= i < |f| && (filter[|filter| - 1] == "#" ==> i < |f| - 1)
          ensures f[i] == "+" || f[i] == t[i]
        {
          assert f[i] == filter[i + 1] && t[i] == topic[i + 1];
        }
        assert filter[0] == "+" || filter[0] == topic[0];
      }
    }
  }

  // ---------- the walk ----------

  /** A prefix tree as the set of its paths; `stored` are those that hold a value. */
  datatype Tree = Tree(paths: set<Path>, stored: set<Path>)

  ghost predicate TreeOk(t: Tree) {
    && t.stored <= t.paths
    && (forall p :: p in t.paths && p != [] ==> p[..|p| - 1] in t.paths)
  }

  /** The filters found from path `p` on, where level `i` of the topic comes next. */
  function Walk(t: Tree, p: Path, topic: Path, i: nat, normal: bool): seq<Path>
    requires i <= |topic|
    decreases |topic| - i
  {
    (if i == |topic| then
       if p in t.stored then [p] else []
     else
       (if p + [topic[i]] in t.paths then Walk(t, p + [topic[i]], topic, i + 1, normal) else [])
       + (if p + ["+"] in t.paths && (normal || i > 0) then Walk(t, p + ["+"], topic, i + 1, normal) else []))
    + (if p + ["#"] in t.stored && (normal || i > 0) then [p + ["#"]] else [])
  }

  lemma {:induction false} PrefixIn(t: Tree, p: Path, n: nat)
    requires TreeOk(t) && p in t.paths && n <= |p|
    ensures p[..n] in t.paths
    decreases |p|
  {
    if n == |p| {
      assert p[..n] == p;
    } else {
      PrefixIn(t, p[..|p| - 1], n);
      assert p[..|p| - 1][..n] == p[..n];
    }
  }

  predicate Extends(f: Path, p: Path) {
    |p| <= |f| && f[..|p|] == p
  }

  lemma Step(f: Path, p: Path, level: string)
    ensures Extends(f, p + [level]) <==> Extends(f, p) && |f| > |p| && f[|p|] == level
    ensures Extends(f, p + [level]) ==> f[|p|..] == [level] + f[|p + [level]|..]
    ensures Extends(f, p) && f[|p|..] == [level] ==> f == p + [level]
  {
    if Extends(f, p + [level]) {
      assert f[..|p|] == (p + [level])[..|p|];
      assert f[|p|] == f[..|p| + 1][|p|];
    }
    if Extends(f, p) && |f| > |p| && f[|p|] == level {
      assert f[..|p| + 1] == f[..|p|] + [f[|p|]];
    }
    if Extends(f, p) {
      assert f == p + f[|p|..];
    }
  }

  lemma Rest(topic: Path, i: nat)
    requires i < |topic|
    ensures topic[i..] != [] && topic[i..][0] == topic[i] && topic[i..][1..] == topic[i + 1..]
  {
  }

  /** `f` is found beneath the child of `p` at `level`. */
  ghost predicate Beneath(t: Tree, p: Path, topic: Path, i: nat, normal: bool, f: Path, level: string)
    requires i < |topic|
  {
    p + [level] in t.paths && f in Walk(t, p + [level], topic, i + 1, normal)
  }

  lemma WalkParts(t: Tree, p: Path, topic: Path, i: nat, normal: bool, f: Path)
    requires i < |topic|
    ensures f in Walk(t, p, topic, i, normal)
       <==> || Beneath(t, p, topic, i, normal, f, topic[i])
            || ((normal || i > 0) && Beneath(t, p, topic, i, normal, f, "+"))
            || (p + ["#"] in t.stored && (normal || i > 0) && f == p + ["#"])
  {
    var same := if p + [topic[i]] in t.paths then Walk(t, p + [topic[i]], topic, i + 1, normal) else [];
    var plus := if p + ["+"] in t.paths && (normal || i > 0) then Walk(t, p + ["+"], topic, i + 1, normal) else [];
    var hash := if p + ["#"] in t.stored && (normal || i > 0) then [p + ["#"]] else [];
    assert Walk(t, p, topic, i, normal) == same + plus + hash;
  }

  lemma MatchParts(f: Path, p: Path, topic: Path, i: nat, wild: bool)
    requires i < |topic| && Extends(f, p)
    ensures Matches(f[|p|..], topic[i..], wild)
       <==> || (Extends(f, p + [topic[i]]) && Matches(f[|p + [topic[i]]|..], topic[i + 1..], true))
            || (wild && Extends(f, p + ["+"]) && Matches(f[|p + ["+"]|..], topic[i + 1..], true))
            || (wild && f == p + ["#"])
  {
    Step(f, p, "#");
    Step(f, p, "+");
    Step(f, p, topic[i]);
    Rest(topic, i);
    var g := f[|p|..];
    if g != [] {
      assert g[0] == f[|p|] && g[1..] == f[|p| + 1..];
    }
    assert (p + ["#"])[|p|..] == ["#"];
  }

  /** The walk finds exactly the stored filters that match. */
  lemma {:induction false} WalkFinds(t: Tree, p: Path, topic: Path, i: nat, normal: bool, f: Path)
    requires TreeOk(t) && i <= |topic| && p in t.paths
    ensures f in Walk(t, p, topic, i, normal)
       <==> f in t.stored && Extends(f, p) && Matches(f[|p|..], topic[i..], normal || i > 0)
    decreases |topic| - i
  {
    if i == |topic| {
      EndFinds(t, p, topic, normal, f);
    } else {
      hide Walk, Matches;
      WalkParts(t, p, topic, i, normal, f);
      BranchFinds(t, p, topic, i, normal, f, topic[i]);
      BranchFinds(t, p, topic, i, normal, f, "+");
      Step(f, p, topic[i]);
      Step(f, p, "+");
      Step(f, p, "#");
      if Extends(f, p) {
        MatchParts(f, p, topic, i, normal || i > 0);
      } else {
        assert Extends(p + ["#"], p);
      }
    }
  }

  lemma EndFinds(t: Tree, p: Path, topic: Path, normal: bool, f: Path)
    ensures f in Walk(t, p, topic, |topic|, normal)
       <==> f in t.stored && Extends(f, p) && Matches(f[|p|..], topic[|topic|..], normal || |topic| > 0)
  {
    var i := |topic|;
    assert topic[i..] == [];
    var here := if p in t.stored then [p] else [];
    var hash := if p + ["#"] in t.stored && (normal || i > 0) then [p + ["#"]] else [];
    assert Walk(t, p, topic, i, normal) == here + hash;
    assert (p + ["#"])[|p|..] == ["#"] && Extends(p + ["#"], p);
    assert Extends(p, p) && p[|p|..] == [];
    if Extends(f, p) {
      assert f == p + f[|p|..];
      assert f[|p|..] == [] ==> f == p;
    }
  }

  lemma BranchFinds(t: Tree, p: Path, topic: Path, i: nat, normal: bool, f: Path, level: string)
    requires TreeOk(t) && i < |topic| && p in t.paths
    ensures Beneath(t, p, topic, i, normal, f, level)
       <==> f in t.stored && Extends(f, p + [level]) && Matches(f[|p + [level]|..], topic[i + 1..], true)
    decreases |topic| - i, 0
  {
    if p + [level] in t.paths {
      WalkFinds(t, p + [level], topic, i + 1, normal, f);
    } else if f in t.stored && Extends(f, p + [level]) {
      PrefixIn(t, f, |p + [level]|);
    }
  }

  // ---------- how often ----------

  predicate NoDup(fs: seq<Path>) {
    forall a, b :: 0 <= a < b < |fs| ==> fs[a] != fs[b]
  }

  /** No level is "+" and the last is not "#". */
  ghost predicate OnceTopic(topic: Path) {
    && (forall i :: 0 <= i < |topic| ==> topic[i] != "+")
    && (topic != [] ==> topic[|topic| - 1] != "#")
  }

  lemma NoDupConcat(a: seq<Path>, b: seq<Path>)
    requires NoDup(a) && NoDup(b) && forall x :: x in a ==> x !in b
    ensures NoDup(a + b)
  {
    forall i, j | 0 <= i < j < |a + b| ensures (a + b)[i] != (a + b)[j] {
      if i < |a| {
        assert a[i] in a;
        if j >= |a| {
          assert b[j - |a|] in b;
        }
      }
    }
  }

  /** The three parts of a step of the walk. */
  lemma WalkConcat(t: Tree, p: Path, topic: Path, i: nat, normal: bool)
      returns (same: seq<Path>, plus: seq<Path>, hash: seq<Path>)
    requires i < |topic|
    ensures same == if p + [topic[i]] in t.paths then Walk(t, p + [topic[i]], topic, i + 1, normal) else []
    ensures plus == if p + ["+"] in t.paths && (normal || i > 0) then Walk(t, p + ["+"], topic, i + 1, normal) else []
    ensures hash == if p + ["#"] in t.stored && (normal || i > 0) then [p + ["#"]] else []
    ensures Walk(t, p, topic, i, normal) == same + plus + hash
  {
    same := if p + [topic[i]] in t.paths then Walk(t, p + [topic[i]], topic, i + 1, normal) else [];
    plus := if p + ["+"] in t.paths && (normal || i > 0) then Walk(t, p + ["+"], topic, i + 1, normal) else [];
    hash := if p + ["#"] in t.stored && (normal || i > 0) then [p + ["#"]] else [];
  }

  lemma FoundBelow(t: Tree, p: Path, topic: Path, i: nat, normal: bool, level: string, f: Path)
    requires TreeOk(t) && i < |topic| && p + [level] in t.paths
    requires f in Walk(t, p + [level], topic, i + 1, normal)
    ensures Extends(f, p + [level]) && |f| > |p| && f[|p|] == level
    ensures f == p + ["#"] ==> i == |topic| - 1 && level == "#"
  {
    hide Walk, Matches;
    WalkFinds(t, p + [level], topic, i + 1, normal, f);
    Step(f, p, level);
    if f == p + ["#"] {
      assert f[|p + [level]|..] == [];
      EmptyMatch(topic[i + 1..]);
    }
  }

  lemma EmptyMatch(topic: Path)
    ensures Matches([], topic, true) ==> topic == []
  {
  }

  /** On such topics, and so on every topic name, no filter is found twice. */
  lemma {:induction false} WalkOnce(t: Tree, p: Path, topic: Path, i: nat, normal: bool)
    requires TreeOk(t) && i <= |topic| && p in t.paths && OnceTopic(topic)
    ensures NoDup(Walk(t, p, topic, i, normal))
    decreases |topic| - i
  {
    hide Walk, NoDup, Matches;
    if i == |topic| {
      EndOnce(t, p, topic, normal);
    } else {
      var same, plus, hash := WalkConcat(t, p, topic, i, normal);
      NoDupShort(same);
      NoDupShort(plus);
      NoDupShort(hash);
      if p + [topic[i]] in t.paths {
        WalkOnce(t, p + [topic[i]], topic, i + 1, normal);
      }
      if p + ["+"] in t.paths {
        WalkOnce(t, p + ["+"], topic, i + 1, normal);
      }
      forall f | f in same ensures f !in plus && f !in hash {
        FoundBelow(t, p, topic, i, normal, topic[i], f);
        if f in plus {
          FoundBelow(t, p, topic, i, normal, "+", f);
        }
      }
      forall f | f in plus ensures f !in hash {
        FoundBelow(t, p, topic, i, normal, "+", f);
      }
      NoDupConcat(same, plus);
      NoDupConcat(same + plus, hash);
    }
  }

  lemma EndOnce(t: Tree, p: Path, topic: Path, normal: bool)
    ensures NoDup(Walk(t, p, topic, |topic|, normal))
  {
    var here := if p in t.stored then [p] else [];
    var hash := if p + ["#"] in t.stored && (normal || |topic| > 0) then [p + ["#"]] else [];
    assert Walk(t, p, topic, |topic|, normal) == here + hash;
  }

  lemma NoDupShort(fs: seq<Path>)
    ensures |fs| <= 1 ==> NoDup(fs)
  {
  }

  lemma {:induction false} MatchesItself(topic: Path, wild: bool)
    ensures Matches(topic, topic, wild)
    decreases |topic|
  {
    if topic != [] {
      MatchesItself(topic[1..], true);
    }
  }

  /** The tree that stores one filter. */
  function Only(topic: Path): Tree {
    Tree(set i | 0 <= i <= |topic| :: topic[..i], {topic})
  }

  lemma OnlyOk(topic: Path)
    ensures TreeOk(Only(topic)) && [] in Only(topic).paths
    ensures forall i :: 0 <= i <= |topic| ==> topic[..i] in Only(topic).paths
  {
    assert topic[..|topic|] == topic;
    assert topic[..0] == [];
    forall p | p in Only(topic).paths && p != [] ensures p[..|p| - 1] in Only(topic).paths {
      var i :| 0 <= i <= |topic| && p == topic[..i];
      assert p[..|p| - 1] == topic[..i - 1];
    }
  }

  function Times(fs: seq<Path>, f: Path): nat {
    multiset(fs)[f]
  }

  lemma {:induction false} NoDupOnce(fs: seq<Path>, f: Path)
    requires NoDup(fs)
    ensures Times(fs, f) <= 1
  {
    if fs != [] {
      var rest := fs[1..];
      NoDupOnce(rest, f);
      assert fs == [fs[0]] + rest;
      if f == fs[0] {
        assert f !in rest;
      }
    }
  }

  lemma TimesOf(a: seq<Path>, b: seq<Path>, f: Path)
    ensures Times(a + b, f) == Times(a, f) + Times(b, f)
    ensures f in a ==> Times(a, f) >= 1
  {
  }

  lemma WalkTimes(t: Tree, p: Path, topic: Path, i: nat, normal: bool, f: Path)
    requires i < |topic| && p + [topic[i]] in t.paths && f in Walk(t, p + [topic[i]], topic, i + 1, normal)
    ensures Times(Walk(t, p, topic, i, normal), f) >= Times(Walk(t, p + [topic[i]], topic, i + 1, normal), f) >= 1
    ensures topic[i] == "+" && (normal || i > 0) ==> Times(Walk(t, p, topic, i, normal), f) >= 2
    ensures topic[i] == "#" && (normal || i > 0) && f in t.stored && f == p + ["#"] ==>
      Times(Walk(t, p, topic, i, normal), f) >= 2
  {
    var same := Walk(t, p + [topic[i]], topic, i + 1, normal);
    var plus := if p + ["+"] in t.paths && (normal || i > 0) then Walk(t, p + ["+"], topic, i + 1, normal) else [];
    var hash := if p + ["#"] in t.stored && (normal || i > 0) then [p + ["#"]] else [];
    assert Walk(t, p, topic, i, normal) == same + plus + hash;
    hide Times, Walk;
    TimesOf(same, plus, f);
    TimesOf(plus, [], f);
    TimesOf(same + plus, hash, f);
    TimesOf(hash, [], f);
  }

  /** A topic with such a level finds the filter spelled like itself twice. */
  lemma {:induction false} WalkTwice(topic: Path, i: nat, normal: bool)
    requires i < |topic| && (normal || i > 0 || !IsWild(topic[0]))
    requires (exists j :: i <= j < |topic| && topic[j] == "+") || topic[|topic| - 1] == "#"
    ensures Times(Walk(Only(topic), topic[..i], topic, i, normal), topic) >= 2
    decreases |topic| - i
  {
    hide Times, Only, Walk;
    OnlyOk(topic);
    assert topic[..i] + [topic[i]] == topic[..i + 1];
    SameFinds(topic, i, normal);
    WalkTimes(Only(topic), topic[..i], topic, i, normal, topic);
    if topic[i] != "+" {
      if i == |topic| - 1 {
        assert topic[..i + 1] == topic;
        LastStored(topic);
      } else {
        WalkTwice(topic, i + 1, normal);
      }
    }
  }

  lemma LastStored(topic: Path)
    ensures topic in Only(topic).stored
  {
  }

  lemma SameFinds(topic: Path, i: nat, normal: bool)
    requires i < |topic|
    ensures topic in Walk(Only(topic), topic[..i + 1], topic, i + 1, normal)
  {
    OnlyOk(topic);
    WalkFinds(Only(topic), topic[..i + 1], topic, i + 1, normal, topic);
    MatchesItself(topic[i + 1..], true);
  }

  /** Every match is reported once, whatever filters are stored, exactly for the topics that
      have no "+" level and do not end in "#". */
  lemma EachOnceExactly(topic: Path, normal: bool)
    requires topic != [] && (normal || !IsWild(topic[0]))
    ensures (forall t :: TreeOk(t) && [] in t.paths ==> NoDup(Walk(t, [], topic, 0, normal))) <==> OnceTopic(topic)
  {
    if OnceTopic(topic) {
      forall t | TreeOk(t) && [] in t.paths ensures NoDup(Walk(t, [], topic, 0, normal)) {
        WalkOnce(t, [], topic, 0, normal);
      }
    } else {
      OnlyOk(topic);
      WalkTwice(topic, 0, normal);
      assert topic[..0] == [];
      if NoDup(Walk(Only(topic), [], topic, 0, normal)) {
        NoDupOnce(Walk(Only(topic), [], topic, 0, normal), topic);
      }
    }
  }
}
