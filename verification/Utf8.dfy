/** Strict UTF-8 on Unicode scalar values. */
module Utf8 {
  import opened Bytes
  import opened Options

  type Scalar = c: int | 0 <= c < 0xD800 || 0xE000 <= c < 0x110000

  type Text = seq<Scalar>

  function EncodeChar(c: Scalar): (r: seq<Byte>)
    ensures 1 <= |r| <= 4
  {
    if c < 0x80 then [c]
    else if c < 0x800 then [0xC0 + c / 64, 0x80 + c % 64]
    else if c < 0x10000 then [0xE0 + c / 4096, 0x80 + c / 64 % 64, 0x80 + c % 64]
    else [0xF0 + c / 262144, 0x80 + c / 4096 % 64, 0x80 + c / 64 % 64, 0x80 + c % 64]
  }

  predicate More(b: seq<Byte>, i: nat) {
    i < |b| && 0x80 <= b[i] < 0xC0
  }

  /** The payload bits of the byte at `i`, which starts with the bits of `mark`. */
  function Bits(b: seq<Byte>, i: nat, mark: int): int
    requires i < |b|
  {
    var value: int := b[i];
    value - mark
  }

  /** The first character and its length; overlong forms and surrogates are refused. */
  function DecodeChar(b: seq<Byte>): (r: Option<(Scalar, nat)>)
    ensures r.Some? ==> 1 <= r.value.1 <= |b|
  {
    if b == [] then None
    else if b[0] < 0x80 then Some((b[0], 1))
    else if 0xC2 <= b[0] < 0xE0 && More(b, 1) then Some((Bits(b, 0, 0xC0) * 64 + Bits(b, 1, 0x80), 2))
    else if 0xE0 <= b[0] < 0xF0 && More(b, 1) && More(b, 2) then
      var c := Bits(b, 0, 0xE0) * 4096 + Bits(b, 1, 0x80) * 64 + Bits(b, 2, 0x80);
      if 0x800 <= c && !(0xD800 <= c <= 0xDFFF) then Some((c, 3)) else None
    else if 0xF0 <= b[0] < 0xF5 && More(b, 1) && More(b, 2) && More(b, 3) then
      var c := Bits(b, 0, 0xF0) * 262144 + Bits(b, 1, 0x80) * 4096 + Bits(b, 2, 0x80) * 64 + Bits(b, 3, 0x80);
      if 0x10000 <= c < 0x110000 then Some((c, 4)) else None
    else None
  }

  function Encode(t: Text): seq<Byte> {
    if t == [] then [] else EncodeChar(t[0]) + Encode(t[1..])
  }

  function Decode(b: seq<Byte>): Option<Text> {
    if b == [] then Some([])
    else match DecodeChar(b)
      case None => None
      case Some((c, n)) =>
        match Decode(b[n..])
        case None => None
        case Some(t) => Some([c] + t)
  }

  lemma CharBack(c: Scalar, rest: seq<Byte>)
    ensures DecodeChar(EncodeChar(c) + rest) == Some((c, |EncodeChar(c)|))
  {
    var e, b := EncodeChar(c), EncodeChar(c) + rest;
    assert forall i :: 0 <= i < |e| ==> b[i] == e[i];
    Quotients(c);
  }

  /** The bytes of a character as section 3 of RFC 3629 has them: the first tells how many there are, the others
      carry six bits each, and the bits are those of the character, high ones first. */
  lemma CharBits(c: Scalar)
    ensures var e := EncodeChar(c);
      && (forall i :: 1 <= i < |e| ==> More(e, i))
      && (match |e|
          case 1 => c < 0x80 && e[0] == c
          case 2 => 0x80 <= c < 0x800 && 0xC0 <= e[0] < 0xE0 && c == Bits(e, 0, 0xC0) * 64 + Bits(e, 1, 0x80)
          case 3 => 0x800 <= c < 0x10000 && 0xE0 <= e[0] < 0xF0
                    && c == Bits(e, 0, 0xE0) * 4096 + Bits(e, 1, 0x80) * 64 + Bits(e, 2, 0x80)
          case _ => 0x10000 <= c && 0xF0 <= e[0] < 0xF8
                    && c == Bits(e, 0, 0xF0) * 262144 + Bits(e, 1, 0x80) * 4096 + Bits(e, 2, 0x80) * 64
                            + Bits(e, 3, 0x80))
  {
    Quotients(c);
  }

  lemma Quotients(c: nat)
    ensures c / 4096 == c / 64 / 64 && c / 262144 == c / 4096 / 64
  {
  }

  lemma Two(x: nat, y: nat)
    requires 2 <= x < 32 && y < 64
    ensures EncodeChar(x * 64 + y) == [0xC0 + x, 0x80 + y]
  {
  }

  lemma Three(x: nat, y: nat, z: nat)
    requires x < 16 && y < 64 && z < 64
    requires 0x800 <= x * 4096 + y * 64 + z && !(0xD800 <= x * 4096 + y * 64 + z <= 0xDFFF)
    ensures EncodeChar(x * 4096 + y * 64 + z) == [0xE0 + x, 0x80 + y, 0x80 + z]
  {
    Compose(x, y, z);
  }

  lemma Four(w: nat, x: nat, y: nat, z: nat)
    requires w < 5 && x < 64 && y < 64 && z < 64
    requires 0x10000 <= w * 262144 + x * 4096 + y * 64 + z < 0x110000
    ensures EncodeChar(w * 262144 + x * 4096 + y * 64 + z) == [0xF0 + w, 0x80 + x, 0x80 + y, 0x80 + z]
  {
    var c := w * 262144 + x * 4096 + y * 64 + z;
    Compose(w * 64 + x, y, z);
    Quotients(c);
    assert (w * 64 + x) % 64 == x && (w * 64 + x) / 64 == w;
  }

  lemma CharExact(b: seq<Byte>)
    requires DecodeChar(b).Some?
    ensures var (c, n) := DecodeChar(b).value; EncodeChar(c) == b[..n]
  {
    var (c, n) := DecodeChar(b).value;
    if b[0] >= 0x80 {
      hide EncodeChar;
      if n == 2 {
        Two(Bits(b, 0, 0xC0), Bits(b, 1, 0x80));
      } else if n == 3 {
        Three(Bits(b, 0, 0xE0), Bits(b, 1, 0x80), Bits(b, 2, 0x80));
      } else {
        Four(Bits(b, 0, 0xF0), Bits(b, 1, 0x80), Bits(b, 2, 0x80), Bits(b, 3, 0x80));
      }
    }
  }

  lemma Compose(x: nat, y: nat, z: nat)
    requires y < 64 && z < 64
    ensures var c := x * 4096 + y * 64 + z; c % 64 == z && c / 64 == x * 64 + y && c / 64 % 64 == y && c / 4096 == x
  {
  }

  lemma {:induction false} DecodeOfEncode(t: Text)
    ensures Decode(Encode(t)) == Some(t)
  {
    hide EncodeChar, DecodeChar;
    if t != [] {
      CharBack(t[0], Encode(t[1..]));
      DecodeOfEncode(t[1..]);
      assert Encode(t)[|EncodeChar(t[0])|..] == Encode(t[1..]);
      assert [t[0]] + t[1..] == t;
    }
  }

  /** A text has one encoding only. */
  lemma {:induction false} EncodeOfDecode(b: seq<Byte>)
    requires Decode(b).Some?
    ensures Encode(Decode(b).value) == b
  {
    hide EncodeChar, DecodeChar;
    if b != [] {
      CharExact(b);
      var (c, n) := DecodeChar(b).value;
      EncodeOfDecode(b[n..]);
      assert Decode(b).value[1..] == Decode(b[n..]).value;
      assert b == b[..n] + b[n..];
    }
  }
}
