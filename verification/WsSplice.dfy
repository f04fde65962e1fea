/** An answer written while a data frame is under way: exactly when the stream survives it. */
module WsSplice {
  import opened Bytes
  import opened Options
  import opened WsFrames
  import opened WsSending

  /** The bytes of a frame with a piece of an answer behind the first `i` of them. */
  function Spliced(frame: seq<Byte>, i: nat, piece: seq<Byte>): seq<Byte>
    requires i <= |frame|
  {
    frame[..i] + piece + frame[i..]
  }

  /** The other side finds complete frames with just the data, and can go on behind them. */
  ghost predicate Survives(stream: seq<Byte>, data: seq<Byte>) {
    Frames(stream).1 == [] && DataOf(Frames(stream).0) == data
  }

  // ---------- the bytes ----------

  /** The socket has the two frames whole, in one order or the other, exactly when the answer is taken
      whole and no byte, or every byte, of the frame under way was taken before; or else what is left
      of that frame commutes with the answer. */
  lemma WholeExactly(frame: seq<Byte>, i: nat, f: seq<Byte>, n: nat)
    requires 0 < n <= |f| && i <= |frame| && (frame != [] ==> frame[0] == 130) && IsAnswer(f)
    ensures Spliced(frame, i, f[..n]) in {frame + f, f + frame}
      <==> n == |f| && (i == 0 || frame[i..] == [] || f + frame[i..] == frame[i..] + f)
  {
    AnswerParses(f);
    hide IsAnswer, ParseFrame;
    if n == |f| {
      assert f[..n] == f;
      WholeAnswer(frame, i, f);
    } else {
      assert |Spliced(frame, i, f[..n])| < |frame + f|;
    }
  }

  lemma WholeAnswer(frame: seq<Byte>, i: nat, f: seq<Byte>)
    requires i <= |frame| && f != [] && (frame != [] ==> frame[0] != f[0])
    ensures Spliced(frame, i, f) in {frame + f, f + frame}
      <==> i == 0 || frame[i..] == [] || f + frame[i..] == frame[i..] + f
  {
    var first, rest := frame[..i], frame[i..];
    assert frame == first + rest;
    Regrouped(first, f, rest);
    SamePrefix(first, f + rest, rest + f);
    if i == 0 {
      assert Spliced(frame, i, f) == f + frame;
    } else {
      assert Spliced(frame, i, f)[0] == frame[0];
    }
    if rest == [] {
      assert f + rest == f == rest + f;
    }
  }

  lemma Regrouped(a: seq<Byte>, b: seq<Byte>, c: seq<Byte>)
    ensures a + b + c == a + (b + c) && a + c + b == a + (c + b)
  {
  }

  lemma SamePrefix(a: seq<Byte>, b: seq<Byte>, c: seq<Byte>)
    ensures a + b == a + c <==> b == c
  {
    assert (a + b)[|a|..] == b && (a + c)[|a|..] == c;
  }

  // ---------- what the other side finds ----------

  lemma NothingFound(s: seq<Byte>, data: seq<Byte>)
    requires ParseFrame(s) == None && s != []
    ensures !Survives(s, data)
  {
    hide ParseFrame;
  }

  /** The payload of the first frame comes first. */
  lemma FirstFound(s: seq<Byte>, f: Frame, k: nat, data: seq<Byte>)
    requires ParseFrame(s) == Some((f, k)) && CarriesData(f.opcode) && Survives(s, data)
    ensures Payload(f) <= data
  {
    hide ParseFrame, Payload;
    var more := Frames(s[k..]).0;
    assert Frames(s).0 == [f] + more;
    DataFirst(f, more);
  }

  lemma {:induction false} DataFirst(f: Frame, more: seq<Frame>)
    requires CarriesData(f.opcode)
    ensures Payload(f) <= DataOf([f] + more)
  {
    hide Payload;
    var fs := [f] + more;
    if more == [] {
      assert fs[..0] == [] && DataOf([]) == [];
    } else {
      DataFirst(f, more[..|more| - 1]);
      assert fs[..|fs| - 1] == [f] + more[..|more| - 1];
    }
  }

  /** A control frame, and a rest that is no frame and no place to go on from. */
  lemma OnlyControl(s: seq<Byte>, f: Frame, k: nat, data: seq<Byte>)
    requires ParseFrame(s) == Some((f, k)) && !CarriesData(f.opcode) && ParseFrame(s[k..]) == None && data != []
    ensures !Survives(s, data)
  {
    hide ParseFrame, Payload;
    assert Frames(s[k..]) == ([], s[k..]);
    assert Frames(s).0 == [f] + [] && Frames(s).1 == s[k..];
    assert [f][..0] == [] && DataOf([]) == [];
    assert DataOf([f]) == [];
  }

  // ---------- an answer taken whole at a frame's edge ----------

  lemma EdgeSurvives(data: seq<Byte>, key: seq<Byte>, f: seq<Byte>)
    requires |key| == 4 && |data| <= MAX_PAYLOAD && IsAnswer(f)
    ensures Survives(Spliced(DataFrame(data, key), 0, f), data)
  {
    var s := Sending([], [], 0, [], [], key, [], []);
    NothingSent(key);
    assert f[..|f|] == f && [] + f == f;
    hide Frames, DataOf, ParseFrame, IsAnswer, Survives, Underway, Whole, DataFrame;
    AnswerKeeps(s, f, |f|);
    SentSurvives(WithAnswer(s, f, |f|), data, key);
    assert Spliced(DataFrame(data, key), 0, f) == f + DataFrame(data, key);
  }

  lemma UntouchedSurvives(data: seq<Byte>, key: seq<Byte>, i: nat)
    requires |key| == 4 && |data| <= MAX_PAYLOAD && i <= |DataFrame(data, key)|
    ensures Survives(Spliced(DataFrame(data, key), i, []), data)
  {
    NothingSent(key);
    hide Survives, Underway, Whole, DataFrame;
    SentSurvives(Sending([], [], 0, [], [], key, [], []), data, key);
    var frame := DataFrame(data, key);
    assert Spliced(frame, i, []) == frame == [] + frame;
  }

  lemma NothingSent(key: seq<Byte>)
    ensures var s := Sending([], [], 0, [], [], key, [], []); Underway(s) && Whole(s)
  {
    FramesNothing();
    assert DataOf([]) == [];
  }

  /** The frame is sent behind what the socket has. */
  lemma SentSurvives(s: Sending, data: seq<Byte>, key: seq<Byte>)
    requires Underway(s) && Whole(s) && s.sendbuffer == [] && s.accepted == [] && |key| == 4 && |data| <= MAX_PAYLOAD
    ensures Survives(s.wire + DataFrame(data, key), data)
  {
    Trim(s.wire, s.done);
    hide CreateFrame, Frames, DataOf;
    Complete(s.done, data, key);
    assert [] + data == data;
  }

  // ---------- every other place breaks some data ----------

  lemma {:induction false} XorZeros(bits: nat)
    ensures XorBits(0, 0, bits) == 0
  {
    if bits > 0 {
      XorZeros(bits - 1);
    }
  }

  lemma XorNonzero(a: Byte)
    ensures Xor(0, 0) == 0 && (Xor(a, 0) == 0 ==> a == 0)
  {
    XorZeros(8);
    XorBack(a, 0);
    hide XorBits;
  }

  function Zeros(n: nat): (r: seq<Byte>)
    ensures |r| == n && forall i :: 0 <= i < n ==> r[i] == 0
  {
    seq(n, _ => 0)
  }

  /** Inside the payload: a byte of the answer takes the place of one of the data. */
  lemma BreaksPayload(f: seq<Byte>, i: nat, n: nat) returns (data: seq<Byte>, key: seq<Byte>)
    requires IsAnswer(f) && 0 < n <= |f| && 6 <= i <= MAX_PAYLOAD
    ensures |key| == 4 && 0 < |data| <= MAX_PAYLOAD && i < |DataFrame(data, key)|
    ensures !Survives(Spliced(DataFrame(data, key), i, f[..n]), data)
  {
    AnswerParses(f);
    hide Survives, IsAnswer, Answer, ParseFrame, Spliced, Payload, DataFrame;
    data, key := Zeros(i), Zeros(4);
    var head, raw := ZeroFrame(i);
    BehindHead(head, raw, i, f[..n]);
    FirstOfPiece(raw, i - |head|, f[..n]);
    StartsOther(head, Spliced(raw, i - |head|, f[..n]), i, i - |head|, data);
  }

  /** The frame of `i` zeros under a key of zeros. */
  lemma ZeroFrame(i: nat) returns (head: seq<Byte>, raw: seq<Byte>)
    requires 6 <= i <= MAX_PAYLOAD
    ensures |Zeros(i)| == i && |Zeros(4)| == 4 && DataFrame(Zeros(i), Zeros(4)) == head + raw
    ensures |raw| == i && 6 <= |head| <= i
    ensures ReadHeader(head + []) == Some(Header(OPCODE_BINARY, Some(Zeros(4)), i, |head|))
  {
    hide Masked, CreateFrame, ReadHeader;
    raw := Masked(Zeros(i), Some(Zeros(4)));
    head := CreatedHead(OPCODE_BINARY, Zeros(i), Some(Zeros(4)), []);
    HeadSize(Zeros(i), Zeros(4), head);
  }

  /** A frame announced by `head` whose payload starts with zeros but for one byte does not yield them. */
  lemma StartsOther(head: seq<Byte>, r: seq<Byte>, i: nat, j: nat, data: seq<Byte>)
    requires ReadHeader(head + []) == Some(Header(OPCODE_BINARY, Some(Zeros(4)), i, |head|))
    requires data == Zeros(i) && j < i <= |r| && r[j] != 0
    ensures !Survives(head + r, data)
  {
    hide Survives, ParseFrame, Payload, ReadHeader;
    var g := Frame(OPCODE_BINARY, Some(Zeros(4)), r[..i]);
    HeadParses(head, Zeros(4), i, r);
    NotZero(g, j);
    if Survives(head + r, data) {
      FirstFound(head + r, g, |head| + i, data);
    }
  }

  lemma NotZero(g: Frame, j: nat)
    requires g.key == Some(Zeros(4)) && j < |g.raw| && g.raw[j] != 0
    ensures |Payload(g)| == |g.raw| && Payload(g)[j] != 0
  {
    XorNonzero(g.raw[j]);
    hide Xor;
  }

  lemma FirstOfPiece(raw: seq<Byte>, j: nat, piece: seq<Byte>)
    requires j <= |raw| && piece != []
    ensures |Spliced(raw, j, piece)| == |raw| + |piece| && Spliced(raw, j, piece)[j] == piece[0]
  {
  }

  lemma BehindHead(head: seq<Byte>, raw: seq<Byte>, i: nat, piece: seq<Byte>)
    requires |head| <= i <= |head| + |raw|
    ensures Spliced(head + raw, i, piece) == head + Spliced(raw, i - |head|, piece)
  {
    assert (head + raw)[..i] == head + raw[..i - |head|];
    assert (head + raw)[i..] == raw[i - |head|..];
  }

  lemma HeadParses(head: seq<Byte>, key: seq<Byte>, length: nat, r: seq<Byte>)
    requires ReadHeader(head + []) == Some(Header(OPCODE_BINARY, Some(key), length, |head|)) && length <= |r|
    ensures ParseFrame(head + r) == Some((Frame(OPCODE_BINARY, Some(key), r[..length]), |head| + length))
  {
    HeaderMore(head + [], r);
    assert head + [] + r == head + r;
    hide ReadHeader;
    assert (head + r)[|head|..|head| + length] == r[..length];
  }

  lemma HeadSize(data: seq<Byte>, key: seq<Byte>, head: seq<Byte>)
    requires |key| == 4 && 6 <= |data| <= MAX_PAYLOAD
    requires CreateFrame(OPCODE_BINARY, data, Some(key)) == Some(head + Masked(data, Some(key)))
    ensures 6 <= |head| <= |data|
  {
    hide Masked;
    assert |CreateFrame(OPCODE_BINARY, data, Some(key)).value| == 6 + |ExtendedLength(|data|)| + |data|;
  }

  /** Inside the mask key or just before it: the one byte of payload is unmasked with other bytes. */
  lemma BreaksKey(f: seq<Byte>, i: nat, n: nat) returns (data: seq<Byte>, key: seq<Byte>)
    requires IsAnswer(f) && 0 < n <= |f| && 2 <= i < 6
    ensures |key| == 4 && 0 < |data| <= MAX_PAYLOAD && i < |DataFrame(data, key)|
    ensures !Survives(Spliced(DataFrame(data, key), i, f[..n]), data)
  {
    hide Survives, IsAnswer, Xor, DataFrame, Spliced;
    key := Zeros(4);
    Short([0], key);
    var s0 := Spliced(DataFrame([0], key), i, f[..n]);
    EarlierBytes(DataFrame([0], key), DataFrame([0], key), i, f[..n], 6);
    data := [if Xor(s0[6], s0[2]) == 0 then 1 else 0];
    Short(data, key);
    SameKey(data, key);
    var s := Spliced(DataFrame(data, key), i, f[..n]);
    EarlierBytes(DataFrame([0], key), DataFrame(data, key), i, f[..n], 6);
    assert s[2] == s0[2] && s[6] == s0[6];
    var frame := DataFrame(data, key);
    assert frame[0] == frame[..6][0] && frame[1] == frame[..6][1];
    OneByte(s);
    var g := Frame(OPCODE_BINARY, Some(s[2..6]), s[6..7]);
    assert Payload(g)[0] == Xor(s[6], s[2]);
    if Survives(s, data) {
      hide ParseFrame, Payload;
      FirstFound(s, g, 7, data);
    }
  }

  /** Frames that agree on their first `k` bytes agree on them and the piece when it lies among them. */
  lemma EarlierBytes(a: seq<Byte>, b: seq<Byte>, i: nat, piece: seq<Byte>, k: nat)
    requires i <= k <= |a| && |a| == |b| && a[..k] == b[..k]
    ensures |Spliced(a, i, piece)| == |Spliced(b, i, piece)| == |a| + |piece|
    ensures forall j :: 0 <= j < k + |piece| ==> Spliced(a, i, piece)[j] == Spliced(b, i, piece)[j]
    ensures forall j :: 0 <= j < i ==> Spliced(b, i, piece)[j] == b[j]
  {
    BeforePlace(a, i, piece, k);
    BeforePlace(b, i, piece, k);
    assert a[i..k] == a[..k][i..] && b[i..k] == b[..k][i..];
    assert a[..i] == a[..k][..i] && b[..i] == b[..k][..i];
  }

  lemma BeforePlace(a: seq<Byte>, i: nat, piece: seq<Byte>, k: nat)
    requires i <= k <= |a|
    ensures |Spliced(a, i, piece)| == |a| + |piece|
    ensures Spliced(a, i, piece)[..k + |piece|] == a[..i] + piece + a[i..k]
  {
    assert a[i..] == a[i..k] + a[k..];
    assert Spliced(a, i, piece) == (a[..i] + piece + a[i..k]) + a[k..];
  }

  lemma SameKey(data: seq<Byte>, key: seq<Byte>)
    requires |data| == 1 && |key| == 4
    ensures DataFrame([0], key)[..6] == DataFrame(data, key)[..6] == [130, 129] + key
  {
    hide DataFrame;
    Short([0], key);
    Short(data, key);
  }

  /** The frame of a single byte. */
  lemma Short(data: seq<Byte>, key: seq<Byte>)
    requires |data| == 1 && |key| == 4
    ensures DataFrame(data, key) == [130, 129] + key + Masked(data, Some(key)) && |DataFrame(data, key)| == 7
  {
  }

  lemma OneByte(s: seq<Byte>)
    requires |s| >= 7 && s[0] == 130 && s[1] == 129
    ensures ParseFrame(s) == Some((Frame(OPCODE_BINARY, Some(s[2..6]), s[6..7]), 7))
  {
  }

  /** Behind the first byte: the answer's own becomes the length. */
  lemma BreaksLength(f: seq<Byte>, n: nat) returns (data: seq<Byte>, key: seq<Byte>)
    requires IsAnswer(f) && 0 < n <= |f|
    ensures |key| == 4 && 0 < |data| <= MAX_PAYLOAD && 1 < |DataFrame(data, key)|
    ensures !Survives(Spliced(DataFrame(data, key), 1, f[..n]), data)
  {
    AnswerParses(f);
    hide Survives, IsAnswer;
    data, key := [0], Zeros(4);
    Short(data, key);
    var s := Spliced(DataFrame(data, key), 1, f[..n]);
    assert s[0] == 130 && s[1] == f[0];
    hide DataFrame, Spliced;
    LongPayload(s);
    hide ParseFrame;
    if ParseFrame(s) == None {
      NothingFound(s, data);
    } else if Survives(s, data) {
      FirstFound(s, ParseFrame(s).value.0, ParseFrame(s).value.1, data);
    }
  }

  lemma LongPayload(s: seq<Byte>)
    requires |s| >= 2 && s[0] == 130 && (s[1] == 136 || s[1] == 138)
    ensures ParseFrame(s).Some? ==>
      CarriesData(ParseFrame(s).value.0.opcode) && |Payload(ParseFrame(s).value.0)| == s[1] - 128
  {
  }

  // ---------- an answer taken in part ----------

  lemma AnswerHeader(f: seq<Byte>)
    requires IsAnswer(f)
    ensures |f| >= 2 && (f[0] == 138 || f[0] == 136) && f[1] < 128
    ensures ReadHeader(f).Some? && ReadHeader(f).value.size == 2 + LengthBytes(f[1])
    ensures !CarriesData(ReadHeader(f).value.opcode) && |f| == ReadHeader(f).value.size + ReadHeader(f).value.length
  {
    AnswerParses(f);
    var opcode: nat, payload: seq<Byte> :|
      (opcode == OPCODE_CONNCLOSE || opcode == OPCODE_PING) && Answer(opcode, payload) == Some(f);
    assert f[1] == SecondByte(|payload|, false);
    hide PayloadLength;
  }

  /** `n` bytes of an answer and then a frame of a single byte, all of it ones behind its header. */
  lemma BreaksPart(f: seq<Byte>, n: nat) returns (data: seq<Byte>, key: seq<Byte>)
    requires IsAnswer(f) && 0 < n < |f|
    ensures |key| == 4 && 0 < |data| <= MAX_PAYLOAD
    ensures !Survives(Spliced(DataFrame(data, key), 0, f[..n]), data)
  {
    hide Survives, IsAnswer, ParseFrame, DataFrame;
    data, key := Ones();
    var s := f[..n] + [130, 129, 255, 255, 255, 255, 255];
    assert Spliced([130, 129, 255, 255, 255, 255, 255], 0, f[..n]) == s;
    hide Spliced;
    PartThenOnes(f, n, s);
    if ParseFrame(s) == None {
      NothingFound(s, data);
    } else {
      OnlyControl(s, ParseFrame(s).value.0, ParseFrame(s).value.1, data);
    }
  }

  lemma PartThenOnes(f: seq<Byte>, n: nat, s: seq<Byte>)
    requires IsAnswer(f) && 0 < n < |f|
    requires s == f[..n] + [130, 129, 255, 255, 255, 255, 255]
    ensures ParseFrame(s).Some? ==>
      !CarriesData(ParseFrame(s).value.0.opcode) && ParseFrame(s[ParseFrame(s).value.1..]) == None
  {
    hide IsAnswer, ParseFrame, ReadHeader;
    AnswerHeader(f);
    if n == 1 {
      PartOne(s);
    } else if n < ReadHeader(f).value.size {
      PartOfLength(f, n, s);
    } else {
      PartOfPayload(f, n, s);
    }
  }

  lemma Ones() returns (data: seq<Byte>, key: seq<Byte>)
    ensures |data| == 1 && |key| == 4
    ensures DataFrame(data, key) == [130, 129, 255, 255, 255, 255, 255]
  {
    key := [255, 255, 255, 255];
    data := Masked([255], Some(key));
    MaskedTwice([255], Some(key));
    hide Masked;
    Short(data, key);
    hide DataFrame;
  }

  lemma PartOne(s: seq<Byte>)
    requires |s| == 8 && (s[0] == 138 || s[0] == 136) && s[1] == 130
    ensures ParseFrame(s).Some? && !CarriesData(ParseFrame(s).value.0.opcode)
    ensures ParseFrame(s[ParseFrame(s).value.1..]) == None
  {
  }

  /** A byte of the data frame's header stands in the answer's length, which is then too long. */
  lemma PartOfLength(f: seq<Byte>, n: nat, s: seq<Byte>)
    requires 2 <= n < |f| && f[1] < 128 && n < 2 + LengthBytes(f[1])
    requires s == f[..n] + [130, 129, 255, 255, 255, 255, 255]
    ensures ParseFrame(s) == None
  {
    var m := LengthBytes(f[1]);
    assert s[1] == f[1] && s[n] == 130 && |s| == n + 7;
    if |s| >= 2 + m {
      var b := s[2..2 + m];
      assert b[n - 2] == 130;
      if m == 2 {
        AtLeast16(b, n - 2);
      } else {
        AtLeast64(b, n - 2);
      }
      hide ReadU16, ReadU64;
    }
  }

  lemma AtLeast16(b: seq<Byte>, j: nat)
    requires |b| == 2 && j < 2
    ensures ReadU16(b).Some? && ReadU16(b).value >= b[j]
  {
  }

  lemma AtLeast32(b: seq<Byte>, j: nat)
    requires |b| == 4 && j < 4
    ensures ReadU32(b).Some? && ReadU32(b).value >= b[j]
  {
    AtLeast16(b[..2], if j < 2 then j else 0);
    AtLeast16(b[2..], if j < 2 then 0 else j - 2);
    hide ReadU16;
  }

  lemma AtLeast64(b: seq<Byte>, j: nat)
    requires |b| == 8 && j < 8
    ensures ReadU64(b).Some? && ReadU64(b).value >= b[j]
  {
    AtLeast32(b[..4], if j < 4 then j else 0);
    AtLeast32(b[4..], if j < 4 then 0 else j - 4);
    hide ReadU32;
  }

  /** Bytes of the data frame complete the answer's payload, or do not suffice to. */
  lemma PartOfPayload(f: seq<Byte>, n: nat, s: seq<Byte>)
    requires ReadHeader(f).Some? && ReadHeader(f).value.size <= n < |f|
    requires ReadHeader(f).value.size == 2 + LengthBytes(f[1]) && f[1] < 128
    requires !CarriesData(ReadHeader(f).value.opcode) && |f| == ReadHeader(f).value.size + ReadHeader(f).value.length
    requires s == f[..n] + [130, 129, 255, 255, 255, 255, 255]
    ensures ParseFrame(s).Some? ==>
      !CarriesData(ParseFrame(s).value.0.opcode) && ParseFrame(s[ParseFrame(s).value.1..]) == None
  {
    hide ReadHeader;
    var frame: seq<Byte> := [130, 129, 255, 255, 255, 255, 255];
    SameHeader(f, n);
    HeaderMore(f[..n], frame);
    assert ReadHeader(s) == ReadHeader(f);
    if |f| <= |s| {
      var m := |f| - n;
      assert s[|f|..] == frame[m..];
      OnesNoFrame(frame[m..]);
    }
  }

  lemma SameHeader(f: seq<Byte>, n: nat)
    requires ReadHeader(f).Some? && ReadHeader(f).value.size <= n <= |f|
    ensures ReadHeader(f[..n]) == ReadHeader(f)
  {
    assert f == f[..n] + f[n..];
    var b := f[..n];
    assert b[0] == f[0] && b[1] == f[1];
    assert ReadHeader(b).Some?;
    HeaderMore(b, f[n..]);
  }

  lemma OnesNoFrame(b: seq<Byte>)
    requires |b| < 7 && forall i :: 1 <= i < |b| ==> b[i] == 255
    ensures ParseFrame(b) == None
  {
  }

  // ---------- exactly ----------

  /** The place `i` in the frame under way, or 0 between frames, and the number of the answer's bytes
      that the socket takes decide: the stream survives whatever the data and the mask key are exactly
      when the answer is not taken at all, or is taken whole between frames. */
  lemma SurvivesExactly(f: seq<Byte>, i: nat, n: nat)
    requires IsAnswer(f) && n <= |f| && i <= MAX_PAYLOAD
    ensures (forall data: seq<Byte>, key: seq<Byte> ::
        |key| == 4 && 0 < |data| <= MAX_PAYLOAD && i < |DataFrame(data, key)|
        ==> Survives(Spliced(DataFrame(data, key), i, f[..n]), data))
      <==> n == 0 || (n == |f| && i == 0)
  {
    hide Survives, IsAnswer, Spliced, DataFrame;
    if n == 0 || (n == |f| && i == 0) {
      assert f[..0] == [] && f[..|f|] == f;
      forall data: seq<Byte>, key: seq<Byte> |
        |key| == 4 && 0 < |data| <= MAX_PAYLOAD && i < |DataFrame(data, key)|
        ensures Survives(Spliced(DataFrame(data, key), i, f[..n]), data)
      {
        if n == 0 {
          UntouchedSurvives(data, key, i);
        } else {
          EdgeSurvives(data, key, f);
        }
      }
    } else {
      var data, key;
      if i == 0 {
        data, key := BreaksPart(f, n);
      } else if i == 1 {
        data, key := BreaksLength(f, n);
      } else if i < 6 {
        data, key := BreaksKey(f, i, n);
      } else {
        data, key := BreaksPayload(f, i, n);
      }
      assert !Survives(Spliced(DataFrame(data, key), i, f[..n]), data);
      FrameFits(data, key);
      assert i == 0 ==> |DataFrame(data, key)| > 0 by {
        NonemptyFrame(data, key);
      }
    }
  }

  lemma NonemptyFrame(data: seq<Byte>, key: seq<Byte>)
    requires |key| == 4 && |data| <= MAX_PAYLOAD
    ensures |DataFrame(data, key)| > 0
  {
  }

  lemma {:induction false} XorZero(a: nat, bits: nat)
    requires a < Power2(bits)
    ensures XorBits(a, 0, bits) == a
  {
    if bits > 0 {
      XorZero(a / 2, bits - 1);
    }
  }

  lemma ZeroKey(data: seq<Byte>)
    ensures Masked(data, Some([0, 0, 0, 0])) == data
  {
    Eight();
    forall i | 0 <= i < |data| ensures Xor(data[i], 0) == data[i] {
      XorZero(data[i], 8);
    }
  }

  /** A ping answered when 7 bytes of the 9 of a frame are taken: the other side finds a data frame of
      the right length with other data, and then the last bytes of the data as the begin of a frame. */
  lemma PingInsideFrame()
    ensures Answer(OPCODE_PING, []) == Some([138, 0])
    ensures var key: seq<Byte> := [0, 0, 0, 0]; var s := Spliced(DataFrame([1, 2, 3], key), 7, [138, 0]);
      && |DataFrame([1, 2, 3], key)| == 9
      && Frames(s) == ([Frame(OPCODE_BINARY, Some(key), [1, 138, 0])], [2, 3])
      && DataOf(Frames(s).0) == [1, 138, 0]
  {
    Splices();
    FindsOther();
  }

  lemma Splices()
    ensures Answer(OPCODE_PING, []) == Some([138, 0])
    ensures var key: seq<Byte> := [0, 0, 0, 0];
      && |DataFrame([1, 2, 3], key)| == 9
      && Spliced(DataFrame([1, 2, 3], key), 7, [138, 0]) == [130, 131, 0, 0, 0, 0, 1, 138, 0, 2, 3]
  {
    ZeroKey([1, 2, 3]);
    hide Masked, Xor;
    assert DataFrame([1, 2, 3], [0, 0, 0, 0]) == [130, 131, 0, 0, 0, 0, 1, 2, 3];
    EmptyPong();
  }

  lemma EmptyPong()
    ensures Answer(OPCODE_PING, []) == Some([138, 0])
  {
    assert CreateFrame(OPCODE_PONG, [], None).value == [138, 0];
  }

  lemma FindsOther()
    ensures var s: seq<Byte> := [130, 131, 0, 0, 0, 0, 1, 138, 0, 2, 3];
      && Frames(s) == ([Frame(OPCODE_BINARY, Some([0, 0, 0, 0]), [1, 138, 0])], [2, 3])
      && DataOf(Frames(s).0) == [1, 138, 0]
  {
    hide ParseFrame, Masked, Xor;
    var g := Frame(OPCODE_BINARY, Some([0, 0, 0, 0]), [1, 138, 0]);
    ZeroKey([1, 138, 0]);
    var s: seq<Byte> := [130, 131, 0, 0, 0, 0, 1, 138, 0, 2, 3];
    NineOf(s);
    assert s[9..] == [2, 3];
    TwoAndThree();
    OneFrame(s, g, 9);
  }

  lemma OneFrame(s: seq<Byte>, g: Frame, k: nat)
    requires ParseFrame(s) == Some((g, k)) && k <= |s| && Frames(s[k..]) == ([], s[k..])
    ensures Frames(s) == ([g], s[k..]) && DataOf([g]) == if CarriesData(g.opcode) then Payload(g) else []
  {
    assert [g] + [] == [g];
    OnlyData(g);
  }

  lemma OnlyData(g: Frame)
    ensures DataOf([g]) == if CarriesData(g.opcode) then Payload(g) else []
  {
    var fs := [g];
    var last := if CarriesData(g.opcode) then Payload(g) else [];
    hide Payload;
    assert fs[..|fs| - 1] == [] && fs[|fs| - 1] == g;
    assert DataOf(fs) == DataOf([]) + last;
    assert DataOf([]) == [] && [] + last == last;
  }

  lemma NineOf(s: seq<Byte>)
    requires s == [130, 131, 0, 0, 0, 0, 1, 138, 0, 2, 3]
    ensures ParseFrame(s) == Some((Frame(OPCODE_BINARY, Some([0, 0, 0, 0]), [1, 138, 0]), 9))
  {
    assert s[2..6] == [0, 0, 0, 0] && s[6..9] == [1, 138, 0];
  }

  lemma TwoAndThree()
    ensures Frames([2, 3]) == ([], [2, 3])
  {
    assert ParseFrame([2, 3]) == None;
  }
}
