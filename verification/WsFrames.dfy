/** WebSocket frames (section 5.2 of RFC 6455): printing, parsing and masking. */
module WsFrames {
  import opened Bytes
  import opened Options

  const OPCODE_CONTINUATION := 0
  const OPCODE_BINARY := 2
  const OPCODE_CONNCLOSE := 8
  const OPCODE_PING := 9
  const OPCODE_PONG := 10

  // ---------- masking ----------

  function Power2(bits: nat): (r: nat)
    ensures r > 0
  {
    if bits == 0 then 1 else 2 * Power2(bits - 1)
  }

  /** Bitwise exclusive or of `bits` bits. */
  function XorBits(a: nat, b: nat, bits: nat): (r: nat)
    ensures r < Power2(bits)
  {
    if bits == 0 then 0 else (a % 2 + b % 2) % 2 + 2 * XorBits(a / 2, b / 2, bits - 1)
  }

  lemma XorUnfold(a: nat, b: nat, bits: nat)
    requires bits > 0
    ensures XorBits(a, b, bits) == (a % 2 + b % 2) % 2 + 2 * XorBits(a / 2, b / 2, bits - 1)
  {
  }

  lemma XorBit(a: nat, b: nat, x: nat)
    requires x < 2 && x == (a % 2 + b % 2) % 2
    ensures (x + b % 2) % 2 == a % 2
  {
  }

  lemma {:induction false} XorTwice(a: nat, b: nat, bits: nat)
    requires a < Power2(bits)
    ensures XorBits(XorBits(a, b, bits), b, bits) == a
  {
    if bits > 0 {
      XorTwice(a / 2, b / 2, bits - 1);
      hide XorBits, Power2;
      var x, y, low := XorBits(a, b, bits), XorBits(a / 2, b / 2, bits - 1), (a % 2 + b % 2) % 2;
      XorUnfold(a, b, bits);
      XorUnfold(x, b, bits);
      Halves(low, y);
      XorBit(a, b, low);
    }
  }

  lemma Halves(low: nat, y: nat)
    requires low < 2
    ensures (low + 2 * y) % 2 == low && (low + 2 * y) / 2 == y
  {
  }

  function Xor(a: Byte, b: Byte): Byte {
    assert Power2(8) == 256 by { Eight(); }
    XorBits(a, b, 8)
  }

  function BitOf(x: nat, k: nat): nat {
    if k == 0 then x % 2 else BitOf(x / 2, k - 1)
  }

  lemma {:induction false} XorBitwise(a: nat, b: nat, bits: nat, k: nat)
    requires k < bits
    ensures BitOf(XorBits(a, b, bits), k) == (BitOf(a, k) + BitOf(b, k)) % 2
  {
    XorUnfold(a, b, bits);
    Halves((a % 2 + b % 2) % 2, XorBits(a / 2, b / 2, bits - 1));
    hide XorBits;
    if k > 0 {
      XorBitwise(a / 2, b / 2, bits - 1, k - 1);
    }
  }

  /** Masking flips just the bits that the key byte has. */
  lemma MaskedBitwise(data: seq<Byte>, key: seq<Byte>, i: nat, k: nat)
    requires |key| == 4 && i < |data| && k < 8
    ensures BitOf(Masked(data, Some(key))[i], k) == (BitOf(data[i], k) + BitOf(key[i % 4], k)) % 2
  {
    Eight();
    XorBitwise(data[i], key[i % 4], 8, k);
    hide XorBits, BitOf;
  }

  lemma Eight()
    ensures Power2(8) == 256
  {
    assert Power2(4) == 16;
  }

  lemma XorBack(a: Byte, b: Byte)
    ensures Xor(Xor(a, b), b) == a
  {
    Eight();
    XorTwice(a, b, 8);
  }

  /** Each byte is masked with the key byte of its position. */
  function Masked(data: seq<Byte>, key: Option<seq<Byte>>): (r: seq<Byte>)
    requires key.Some? ==> |key.value| == 4
    ensures |r| == |data|
  {
    match key
    case None => data
    case Some(k) => seq(|data|, i requires 0 <= i < |data| => Xor(data[i], k[i % 4]))
  }

  lemma MaskedTwice(data: seq<Byte>, key: Option<seq<Byte>>)
    requires key.Some? ==> |key.value| == 4
    ensures Masked(Masked(data, key), key) == data
  {
    if key.Some? {
      forall i | 0 <= i < |data| ensures Masked(Masked(data, key), key)[i] == data[i] {
        XorBack(data[i], key.value[i % 4]);
      }
    }
  }

  lemma MaskedPrefix(data: seq<Byte>, key: Option<seq<Byte>>, n: nat)
    requires (key.Some? ==> |key.value| == 4) && n <= |data|
    ensures Masked(data[..n], key) == Masked(data, key)[..n]
  {
  }

  // ---------- headers and frames ----------

  datatype Header = Header(opcode: nat, key: Option<seq<Byte>>, length: nat, size: nat)

  /** The bytes of the extended length, from the second byte. */
  function LengthBytes(second: Byte): nat {
    if second % 128 == 126 then 2 else if second % 128 == 127 then 8 else 0
  }

  function KeyBytes(second: Byte): nat {
    if second >= 128 then 4 else 0
  }

  function PayloadLength(second: Byte, extended: seq<Byte>): nat
    requires |extended| == LengthBytes(second)
  {
    if second % 128 == 126 then ReadU16(extended).value
    else if second % 128 == 127 then ReadU64(extended).value
    else second % 128
  }

  function ReadHeader(b: seq<Byte>): (r: Option<Header>)
    ensures r.Some? ==> r.value.size <= |b| && (r.value.key.Some? ==> |r.value.key.value| == 4)
  {
    if |b| < 2 then None
    else
      var n, k := LengthBytes(b[1]), KeyBytes(b[1]);
      if |b| < 2 + n + k then None
      else Some(Header(b[0] % 16, if k == 4 then Some(b[2 + n..2 + n + 4]) else None,
                       PayloadLength(b[1], b[2..2 + n]), 2 + n + k))
  }

  /** A frame with its payload as it is on the wire. */
  datatype Frame = Frame(opcode: nat, key: Option<seq<Byte>>, raw: seq<Byte>)

  function ParseFrame(b: seq<Byte>): (r: Option<(Frame, nat)>)
    ensures r.Some? ==> 2 <= r.value.1 <= |b| && (r.value.0.key.Some? ==> |r.value.0.key.value| == 4)
  {
    match ReadHeader(b)
    case None => None
    case Some(h) =>
      if |b| < h.size + h.length then None
      else Some((Frame(h.opcode, h.key, b[h.size..h.size + h.length]), h.size + h.length))
  }

  /** The frames of a stream and the bytes behind the last of them. */
  function Frames(s: seq<Byte>): (seq<Frame>, seq<Byte>) {
    match ParseFrame(s)
    case None => ([], s)
    case Some((f, n)) =>
      var (more, rest) := Frames(s[n..]);
      ([f] + more, rest)
  }

  predicate CarriesData(opcode: nat) {
    opcode == OPCODE_BINARY || opcode == OPCODE_CONTINUATION
  }

  function Payload(f: Frame): seq<Byte> {
    if f.key.Some? && |f.key.value| != 4 then [] else Masked(f.raw, f.key)
  }

  /** The payloads of the data frames, in order. */
  function DataOf(fs: seq<Frame>): seq<Byte> {
    if fs == [] then []
    else
      var f := fs[|fs| - 1];
      DataOf(fs[..|fs| - 1]) + if CarriesData(f.opcode) then Payload(f) else []
  }

  // ---------- printing ----------

  const MAX_PAYLOAD := 0x8000000000000000

  function FirstByte(opcode: nat): Byte
    requires opcode < 16
  {
    128 + opcode
  }

  function SecondByte(length: nat, masked: bool): Byte {
    (if length < 126 then length else if length < 65536 then 126 else 127) + if masked then 128 else 0
  }

  function ExtendedLength(length: nat): seq<Byte>
    requires length <= MAX_PAYLOAD
  {
    if length < 126 then [] else if length < 65536 then U16(length) else U64(length)
  }

  function KeyOf(key: Option<seq<Byte>>): seq<Byte> {
    if key.Some? then key.value else []
  }

  /** `_create_frame` with its mask key, or None for none; refused when the payload is too long. */
  function CreateFrame(opcode: nat, data: seq<Byte>, key: Option<seq<Byte>>): Option<seq<Byte>>
    requires opcode < 16 && (key.Some? ==> |key.value| == 4)
  {
    if |data| > MAX_PAYLOAD then None
    else
      Some([FirstByte(opcode), SecondByte(|data|, key.Some?)] + ExtendedLength(|data|) + KeyOf(key)
           + Masked(data, key))
  }

  /** A frame begins with the final flag and its opcode; then come the masking flag and the length, in seven
      bits or else in two or eight bytes behind the marks 126 and 127, the key, and the data. */
  lemma CreatedBytes(opcode: nat, data: seq<Byte>, key: Option<seq<Byte>>)
    requires opcode < 16 && (key.Some? ==> |key.value| == 4) && |data| <= MAX_PAYLOAD
    ensures var b, n := CreateFrame(opcode, data, key).value, |data|;
      var size := if n < 126 then 2 else if n < 65536 then 4 else 10;
      var k := if key.Some? then 4 else 0;
      && |b| == size + k + n && b[0] == 128 + opcode && (b[1] >= 128 <==> key.Some?)
      && b[1] % 128 == (if size == 2 then n else if size == 4 then 126 else 127)
      && (size > 2 ==> BigEndian(b[2..size]) == n)
      && (key.Some? ==> b[size..size + 4] == key.value) && b[size + k..] == Masked(data, key)
  {
    hide BigEndian, Masked, U16, U32, U64;
    var e, k, m := ExtendedLength(|data|), KeyOf(key), Masked(data, key);
    InNetworkOrder(|data|);
    Laid([FirstByte(opcode), SecondByte(|data|, key.Some?)], e, k, m);
  }

  lemma Laid(a: seq<Byte>, b: seq<Byte>, c: seq<Byte>, d: seq<Byte>)
    ensures var s, n := a + b + c + d, |a| + |b|;
      && |s| == n + |c| + |d| && s[..|a|] == a && s[|a|..n] == b && s[n..n + |c|] == c && s[n + |c|..] == d
      && forall i :: 0 <= i < |a| ==> s[i] == a[i]
  {
    assert a + b + c + d == a + (b + (c + d));
  }

  /** The opcodes by their numbers in section 5.2 of RFC 6455. */
  lemma Opcodes(opcode: nat)
    ensures CarriesData(opcode) <==> opcode in {0, 2}
    ensures (opcode == OPCODE_CONNCLOSE <==> opcode == 8) && (opcode == OPCODE_PING <==> opcode == 9)
    ensures OPCODE_BINARY == 2 && OPCODE_PONG == 10
  {
  }

  lemma LengthBack(length: nat, masked: bool)
    requires length <= MAX_PAYLOAD
    ensures |ExtendedLength(length)| == LengthBytes(SecondByte(length, masked))
    ensures PayloadLength(SecondByte(length, masked), ExtendedLength(length)) == length
    ensures SecondByte(length, masked) >= 128 <==> masked
  {
    if length >= 65536 {
      U64Back(length, []);
      assert U64(length) + [] == U64(length);
    } else if length >= 126 {
      U16Back(length, []);
      assert U16(length) + [] == U16(length);
    }
  }

  lemma HeaderBack(opcode: nat, second: Byte, extended: seq<Byte>, key: Option<seq<Byte>>, rest: seq<Byte>)
    requires opcode < 16 && (key.Some? ==> |key.value| == 4)
    requires (second >= 128 <==> key.Some?) && |extended| == LengthBytes(second)
    ensures ReadHeader([FirstByte(opcode), second] + extended + KeyOf(key) + rest)
         == Some(Header(opcode, key, PayloadLength(second, extended), 2 + |extended| + |KeyOf(key)|))
  {
    var b := [FirstByte(opcode), second] + extended + KeyOf(key) + rest;
    var n := |extended|;
    assert b[0] % 16 == opcode && b[1] == second;
    assert b[2..2 + n] == extended;
    assert key.Some? ==> b[2 + n..2 + n + 4] == key.value;
    hide ReadU16, ReadU64, PayloadLength;
  }

  lemma CreatedHead(opcode: nat, data: seq<Byte>, key: Option<seq<Byte>>, rest: seq<Byte>) returns (head: seq<Byte>)
    requires opcode < 16 && (key.Some? ==> |key.value| == 4) && |data| <= MAX_PAYLOAD
    ensures CreateFrame(opcode, data, key) == Some(head + Masked(data, key))
    ensures ReadHeader(head + rest) == Some(Header(opcode, key, |data|, |head|))
  {
    hide Masked, ReadHeader, PayloadLength, SecondByte, ExtendedLength, LengthBytes, FirstByte, KeyOf;
    LengthBack(|data|, key.Some?);
    var second, extended := SecondByte(|data|, key.Some?), ExtendedLength(|data|);
    head := [FirstByte(opcode), second] + extended + KeyOf(key);
    HeaderBack(opcode, second, extended, key, rest);
  }

  /** A printed frame is parsed back, payload unmasked, whatever follows it. */
  lemma CreatedParses(opcode: nat, data: seq<Byte>, key: Option<seq<Byte>>, rest: seq<Byte>)
    requires opcode < 16 && (key.Some? ==> |key.value| == 4) && |data| <= MAX_PAYLOAD
    ensures var printed := CreateFrame(opcode, data, key).value;
      && ParseFrame(printed + rest) == Some((Frame(opcode, key, Masked(data, key)), |printed|))
      && Payload(Frame(opcode, key, Masked(data, key))) == data
  {
    MaskedTwice(data, key);
    var raw := Masked(data, key);
    hide Masked, ReadHeader, CreateFrame;
    var head := CreatedHead(opcode, data, key, raw + rest);
    Between(head, raw, rest);
  }

  lemma Between<T>(a: seq<T>, b: seq<T>, c: seq<T>)
    ensures a + b + c == a + (b + c) && (a + b + c)[|a|..|a| + |b|] == b
  {
  }

  // ---------- streams of frames ----------

  lemma HeaderMore(b: seq<Byte>, c: seq<Byte>)
    requires ReadHeader(b).Some?
    ensures ReadHeader(b + c) == ReadHeader(b)
  {
    var n, k := LengthBytes(b[1]), KeyBytes(b[1]);
    assert (b + c)[2..2 + n] == b[2..2 + n];
    assert k == 4 ==> (b + c)[2 + n..2 + n + 4] == b[2 + n..2 + n + 4];
  }

  lemma FrameMore(b: seq<Byte>, c: seq<Byte>)
    requires ParseFrame(b).Some?
    ensures ParseFrame(b + c) == ParseFrame(b)
  {
    HeaderMore(b, c);
    hide ReadHeader;
    var h := ReadHeader(b).value;
    assert (b + c)[h.size..h.size + h.length] == b[h.size..h.size + h.length];
  }

  lemma {:induction false} FramesConcat(s: seq<Byte>, t: seq<Byte>)
    requires Frames(s).1 == []
    ensures Frames(s + t) == (Frames(s).0 + Frames(t).0, Frames(t).1)
  {
    hide ParseFrame;
    match ParseFrame(s)
    case Some((f, n)) =>
      FrameMore(s, t);
      FramesConcat(s[n..], t);
      assert (s + t)[n..] == s[n..] + t;
      assert [f] + (Frames(s[n..]).0 + Frames(t).0) == [f] + Frames(s[n..]).0 + Frames(t).0;
    case None =>
      assert s + t == t;
      assert [] + Frames(t).0 == Frames(t).0;
  }

  lemma FramesNothing()
    ensures Frames([]) == ([], [])
  {
  }

  lemma FrameSingle(s: seq<Byte>)
    requires ParseFrame(s).Some? && ParseFrame(s).value.1 == |s|
    ensures Frames(s) == ([ParseFrame(s).value.0], [])
  {
    hide ParseFrame;
    assert s[|s|..] == [];
    FramesNothing();
    assert [ParseFrame(s).value.0] + [] == [ParseFrame(s).value.0];
  }

  lemma DataOfMore(fs: seq<Frame>, f: Frame)
    ensures DataOf(fs + [f]) == DataOf(fs) + if CarriesData(f.opcode) then Payload(f) else []
  {
    assert (fs + [f])[..|fs|] == fs;
  }
}
