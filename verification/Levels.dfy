/** Topic levels: splitting at '/', and the wildcard check on topic filters. */
module Levels {

  /** The pieces of `s` between separators; there is always at least one. */
  function Split<T(==)>(s: seq<T>, sep: T): (r: seq<seq<T>>)
    ensures |r| >= 1
  {
    if s == [] then [[]]
    else
      var rest := Split(s[1..], sep);
      if s[0] == sep then [[]] + rest else [[s[0]] + rest[0]] + rest[1..]
  }

  function Join<T>(pieces: seq<seq<T>>, sep: T): seq<T>
    requires |pieces| >= 1
  {
    if |pieces| == 1 then pieces[0] else pieces[0] + [sep] + Join(pieces[1..], sep)
  }

  lemma JoinLonger<T>(c: T, rest: seq<seq<T>>, sep: T)
    requires |rest| >= 1
    ensures Join([[c] + rest[0]] + rest[1..], sep) == [c] + Join(rest, sep)
  {
    var r := [[c] + rest[0]] + rest[1..];
    assert r[1..] == rest[1..];
    if |rest| > 1 {
      Prepended([c], rest[0], [sep], Join(rest[1..], sep));
    }
  }

  lemma Prepended<T>(a: seq<T>, b: seq<T>, c: seq<T>, d: seq<T>)
    ensures a + b + c + d == a + (b + c + d)
  {
  }

  lemma JoinShifted<T>(rest: seq<seq<T>>, sep: T)
    requires |rest| >= 1
    ensures Join([[]] + rest, sep) == [sep] + Join(rest, sep)
  {
    assert ([[]] + rest)[1..] == rest;
  }

  lemma {:induction false} JoinOfSplit<T>(s: seq<T>, sep: T)
    ensures Join(Split(s, sep), sep) == s
  {
    hide Join;
    if s == [] {
      JoinOne<T>([], sep);
    } else {
      JoinOfSplit(s[1..], sep);
      JoinShifted(Split(s[1..], sep), sep);
      JoinLonger(s[0], Split(s[1..], sep), sep);
      assert s == [s[0]] + s[1..];
    }
  }

  lemma JoinOne<T>(piece: seq<T>, sep: T)
    ensures Join([piece], sep) == piece
  {
  }

  /** Different keys have different levels. */
  lemma SplitInjective<T>(s: seq<T>, t: seq<T>, sep: T)
    ensures Split(s, sep) == Split(t, sep) ==> s == t
  {
    JoinOfSplit(s, sep);
    JoinOfSplit(t, sep);
  }

  lemma {:induction false} SplitHasNoSep<T>(s: seq<T>, sep: T)
    ensures forall p :: p in Split(s, sep) ==> sep !in p
  {
    if s != [] {
      SplitHasNoSep(s[1..], sep);
      var rest := Split(s[1..], sep);
      assert rest[0] in rest;
      assert forall p :: p in rest[1..] ==> p in rest;
    }
  }

  lemma {:induction false} SplitOfJoin<T>(pieces: seq<seq<T>>, sep: T)
    requires |pieces| >= 1 && forall p :: p in pieces ==> sep !in p
    ensures Split(Join(pieces, sep), sep) == pieces
    decreases |pieces|, |pieces[0]|
  {
    var s := Join(pieces, sep);
    if pieces[0] == [] {
      if |pieces| > 1 {
        assert s == [sep] + Join(pieces[1..], sep);
        SplitOfJoin(pieces[1..], sep);
        assert pieces == [[]] + pieces[1..];
      }
    } else {
      var shorter := [pieces[0][1..]] + pieces[1..];
      assert shorter[1..] == pieces[1..];
      assert s[0] == pieces[0][0];
      assert s[1..] == Join(shorter, sep);
      forall p | p in shorter ensures sep !in p {
        if p == pieces[0][1..] {
          assert pieces[0] in pieces && forall x :: x in p ==> x in pieces[0];
        }
      }
      SplitOfJoin(shorter, sep);
      assert pieces[0] == [s[0]] + shorter[0];
      assert s[0] in pieces[0] && pieces[0] in pieces;
      assert pieces == [[s[0]] + shorter[0]] + shorter[1..];
    }
  }

  /** Splitting reaches exactly the nonempty lists of levels that are free of the separator; with
      `SplitInjective` it is a bijection from the keys onto them. */
  lemma SplitOnto<T>(pieces: seq<seq<T>>, sep: T)
    ensures (exists s :: Split(s, sep) == pieces) <==> |pieces| >= 1 && forall p :: p in pieces ==> sep !in p
  {
    if s :| Split(s, sep) == pieces {
      SplitHasNoSep(s, sep);
    }
    if |pieces| >= 1 && forall p :: p in pieces ==> sep !in p {
      SplitOfJoin(pieces, sep);
      assert Split(Join(pieces, sep), sep) == pieces;
    }
  }

  // ---------- the check of subscribe() and unsubscribe() ----------

  predicate HasHashSlash(s: string) {
    exists i :: 0 <= i < |s| - 1 && s[i] == '#' && s[i + 1] == '/'
  }

  predicate HasWildcard(level: string) {
    '+' in level || '#' in level
  }

  /** True when the client accepts the topic filter. */
  predicate FilterAccepted(sub: string) {
    !(|sub| == 0 || |sub| > 65535
      || (exists p :: p in Split(sub, '/') && |p| > 1 && HasWildcard(p))
      || HasHashSlash(sub))
  }

  /** Section 4.7.1 of MQTT 3.1.1: a wildcard fills its level, and '#' is the last one. */
  ghost predicate FilterLevels(levels: seq<string>) {
    forall i :: 0 <= i < |levels| ==>
      !HasWildcard(levels[i]) || levels[i] == "+" || (levels[i] == "#" && i == |levels| - 1)
  }

  predicate EndsWithHash(level: string) {
    level != "" && level[|level| - 1] == '#'
  }

  ghost predicate InnerHash(levels: seq<string>) {
    exists j :: 0 <= j < |levels| - 1 && EndsWithHash(levels[j])
  }

  /** The byte pair "#/" marks a level that ends with '#' and is not the last. */
  lemma {:induction false} HashSlashMeans(s: string)
    ensures HasHashSlash(s) <==> InnerHash(Split(s, '/'))
  {
    if s == "" {
      assert |Split(s, '/')| == 1;
    } else {
      var rest, r := Split(s[1..], '/'), Split(s, '/');
      HashSlashMeans(s[1..]);
      assert HasHashSlash(s) <==> HasHashSlash(s[1..]) || (|s| > 1 && s[0] == '#' && s[1] == '/') by {
        if HasHashSlash(s[1..]) {
          var i :| 0 <= i < |s[1..]| - 1 && s[1..][i] == '#' && s[1..][i + 1] == '/';
          assert s[i + 1] == '#' && s[i + 2] == '/';
        }
        if HasHashSlash(s) {
          var i :| 0 <= i < |s| - 1 && s[i] == '#' && s[i + 1] == '/';
          if i > 0 {
            assert s[1..][i - 1] == '#' && s[1..][i] == '/';
          }
        }
      }
      if s[0] == '/' {
        ShiftedHash(rest, r);
      } else {
        LongerHash(s, rest, r);
      }
    }
  }

  lemma ShiftedHash(rest: seq<string>, r: seq<string>)
    requires |rest| >= 1 && r == [""] + rest
    ensures InnerHash(r) <==> InnerHash(rest)
  {
    if InnerHash(rest) {
      var j :| 0 <= j < |rest| - 1 && EndsWithHash(rest[j]);
      assert r[j + 1] == rest[j];
    }
    if InnerHash(r) {
      var j :| 0 <= j < |r| - 1 && EndsWithHash(r[j]);
      assert rest[j - 1] == r[j];
    }
  }

  /** The first level ends with '#' where the second begins, or its rest does. */
  lemma LongerHash(s: string, rest: seq<string>, r: seq<string>)
    requires s != "" && s[0] != '/' && rest == Split(s[1..], '/') && r == [[s[0]] + rest[0]] + rest[1..]
    ensures InnerHash(r) <==> InnerHash(rest) || (|s| > 1 && s[0] == '#' && s[1] == '/')
  {
    FirstLevel(s[1..]);
    assert |s| > 1 ==> s[1..][0] == s[1];
    hide Split;
    HashInLonger(s[0], rest, r);
  }

  lemma FirstLevel(s: string)
    ensures Split(s, '/')[0] == "" && |Split(s, '/')| > 1 <==> s != "" && s[0] == '/'
  {
  }

  lemma HashInLonger(c: char, rest: seq<string>, r: seq<string>)
    requires |rest| >= 1 && r == [[c] + rest[0]] + rest[1..]
    ensures InnerHash(r) <==> InnerHash(rest) || (c == '#' && rest[0] == "" && |rest| > 1)
  {
    assert forall j :: 0 < j < |rest| ==> r[j] == rest[j];
    assert EndsWithHash(r[0]) <==> EndsWithHash(rest[0]) || (c == '#' && rest[0] == "") by {
      if rest[0] == "" {
        assert r[0] == [c];
      } else {
        assert r[0][|r[0]| - 1] == rest[0][|rest[0]| - 1];
      }
    }
    hide EndsWithHash;
    if j :| 0 <= j < |rest| - 1 && EndsWithHash(rest[j]) {
      assert EndsWithHash(r[j]);
    }
    if j :| 0 <= j < |r| - 1 && EndsWithHash(r[j]) {
      assert j > 0 ==> EndsWithHash(rest[j]);
    }
    if c == '#' && rest[0] == "" && |rest| > 1 {
      assert EndsWithHash(r[0]);
    }
  }

  /** The check accepts exactly the filters the standard allows. */
  lemma FilterAcceptedExactly(sub: string)
    ensures FilterAccepted(sub) <==> 1 <= |sub| <= 65535 && FilterLevels(Split(sub, '/'))
  {
    var levels := Split(sub, '/');
    HashSlashMeans(sub);
    if FilterAccepted(sub) {
      forall i | 0 <= i < |levels|
        ensures !HasWildcard(levels[i]) || levels[i] == "+" || (levels[i] == "#" && i == |levels| - 1)
      {
        assert levels[i] in levels;
        if HasWildcard(levels[i]) {
          assert |levels[i]| == 1;
          assert levels[i] == [levels[i][0]];
        }
      }
    }
    if 1 <= |sub| <= 65535 && FilterLevels(levels) {
      forall j | 0 <= j < |levels| - 1 ensures !EndsWithHash(levels[j]) {
        assert '#' in levels[j] ==> HasWildcard(levels[j]);
      }
    }
  }
}
