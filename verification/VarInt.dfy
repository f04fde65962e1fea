/** Bytes, and the variable byte integer of section 1.5.5 of MQTT 5.0. */
module Bytes {
  import opened Options

  type Byte = b: int | 0 <= b < 256

  /** The number that a field of bytes stands for, high byte first. */
  function BigEndian(b: seq<Byte>): nat {
    if b == [] then 0 else BigEndian(b[..|b| - 1]) * 256 + b[|b| - 1]
  }

  /** Sixteen bits in network order. */
  function U16(n: nat): (r: seq<Byte>)
    requires n < 65536
    ensures |r| == 2
  {
    [n / 256, n % 256]
  }

  function ReadU16(b: seq<Byte>): (r: Option<nat>)
    ensures r.Some? ==> r.value < 65536 && |b| >= 2 && U16(r.value) == b[..2]
  {
    if |b| < 2 then None
    else
      var high: nat := b[0];
      Some(high * 256 + b[1])
  }

  function U32(n: nat): (r: seq<Byte>)
    requires n < 0x1_0000_0000
    ensures |r| == 4
  {
    U16(n / 65536) + U16(n % 65536)
  }

  function ReadU32(b: seq<Byte>): (r: Option<nat>)
    ensures r.Some? ==> r.value < 0x1_0000_0000
  {
    if |b| < 4 then None else Some(ReadU16(b[..2]).value * 65536 + ReadU16(b[2..]).value)
  }

  lemma U16Back(n: nat, rest: seq<Byte>)
    requires n < 65536
    ensures ReadU16(U16(n) + rest) == Some(n)
  {
    assert U16(n) + rest == [n / 256, n % 256] + rest;
  }

  lemma U32Back(n: nat, rest: seq<Byte>)
    requires n < 0x1_0000_0000
    ensures ReadU32(U32(n) + rest) == Some(n)
  {
    var b := U32(n) + rest;
    assert b[..2] == U16(n / 65536) + [];
    assert b[2..] == U16(n % 65536) + rest;
    U16Back(n / 65536, []);
    U16Back(n % 65536, rest);
  }

  function U64(n: nat): (r: seq<Byte>)
    requires n < 0x1_0000_0000_0000_0000
    ensures |r| == 8
  {
    U32(n / 0x1_0000_0000) + U32(n % 0x1_0000_0000)
  }

  function ReadU64(b: seq<Byte>): (r: Option<nat>)
    ensures r.Some? ==> r.value < 0x1_0000_0000_0000_0000
  {
    if |b| < 8 then None else Some(ReadU32(b[..4]).value * 0x1_0000_0000 + ReadU32(b[4..]).value)
  }

  lemma U64Back(n: nat, rest: seq<Byte>)
    requires n < 0x1_0000_0000_0000_0000
    ensures ReadU64(U64(n) + rest) == Some(n)
  {
    hide U32, ReadU32;
    var high, low := n / 0x1_0000_0000, n % 0x1_0000_0000;
    var b := U64(n) + rest;
    assert b[..4] == U32(high) + [];
    assert b[4..] == U32(low) + rest;
    U32Back(high, []);
    U32Back(low, rest);
  }

  lemma TwoMore(a: seq<Byte>, high: Byte, low: Byte)
    ensures BigEndian(a + [high, low]) == BigEndian(a) * 65536 + high * 256 + low
  {
    var b := a + [high, low];
    assert b[..|b| - 1] == a + [high] && (a + [high])[..|a|] == a;
  }

  /** The fields of two, four and eight bytes are in network order. */
  lemma InNetworkOrder(n: nat)
    ensures n < 65536 ==> BigEndian(U16(n)) == n
    ensures n < 0x1_0000_0000 ==> BigEndian(U32(n)) == n
    ensures n < 0x1_0000_0000_0000_0000 ==> BigEndian(U64(n)) == n
  {
    if n < 65536 {
      U16After([], n);
    }
    if n < 0x1_0000_0000 {
      U32After([], n);
    }
    if n < 0x1_0000_0000_0000_0000 {
      U32After([], n / 0x1_0000_0000);
      U32After(U32(n / 0x1_0000_0000), n % 0x1_0000_0000);
    }
    hide BigEndian, U16, U32;
    assert forall b: seq<Byte> :: [] + b == b;
  }

  lemma U16After(a: seq<Byte>, n: nat)
    requires n < 65536
    ensures BigEndian(a + U16(n)) == BigEndian(a) * 65536 + n
  {
    TwoMore(a, n / 256, n % 256);
  }

  lemma U32After(a: seq<Byte>, n: nat)
    requires n < 0x1_0000_0000
    ensures BigEndian(a + U32(n)) == BigEndian(a) * 0x1_0000_0000 + n
  {
    var high, low := U16(n / 65536), U16(n % 65536);
    U16After(a, n / 65536);
    U16After(a + high, n % 65536);
    hide BigEndian, U16;
    assert a + (high + low) == a + high + low;
  }

  /** A slice that stops at the end of the buffer. */
  function Slice(b: seq<Byte>, from: nat, to: nat): seq<Byte>
    requires from <= to
  {
    if |b| <= from then [] else if |b| <= to then b[from..] else b[from..to]
  }

  function Drop(b: seq<Byte>, n: nat): seq<Byte> {
    if |b| <= n then [] else b[n..]
  }
}

module VarInt {
  import opened Bytes
  import opened Options

  const MAX_VARINT := 268435455

  /** Seven bits a byte, low bits first, the top bit set on all but the last. */
  function Digits(x: nat): (r: seq<Byte>)
    ensures |r| >= 1
  {
    if x < 128 then [x] else [128 + x % 128] + Digits(x / 128)
  }

  /** The number without its lowest `7 * i` bits. */
  function Shifted(x: nat, i: nat): nat {
    if i == 0 then x else Shifted(x / 128, i - 1)
  }

  /** Byte `i` has the bits from `7 * i` on, and its top bit tells whether another byte follows. */
  lemma {:induction false} DigitAt(x: nat, i: nat)
    requires i < |Digits(x)|
    ensures Digits(x)[i] % 128 == Shifted(x, i) % 128
    ensures Digits(x)[i] >= 128 <==> i + 1 < |Digits(x)|
  {
    if i > 0 {
      DigitAt(x / 128, i - 1);
    }
  }

  /** The value at the front of a buffer and the bytes it takes; None when the buffer ends early. */
  function Undigits(b: seq<Byte>): (r: Option<(nat, nat)>)
    ensures r.Some? ==> 1 <= r.value.1 <= |b| && b[r.value.1 - 1] < 128
  {
    if b == [] then None
    else if b[0] < 128 then Some((b[0], 1))
    else match Undigits(b[1..])
      case None => None
      case Some((v, n)) => Some((b[0] - 128 + 128 * v, n + 1))
  }

  /** The loop shared by `VariableByteIntegers.encode` and `_pack_remaining_length`. */
  method AppendDigits(packet: seq<Byte>, value: nat) returns (r: seq<Byte>)
    ensures r == packet + Digits(value)
  {
    var x := value;
    r := packet;
    var done := false;
    while !done
      invariant !done ==> r + Digits(x) == packet + Digits(value)
      invariant done ==> r == packet + Digits(value)
      decreases !done, x
    {
      var digit := x % 128;
      var before := x;
      x := x / 128;
      if x > 0 {
        digit := digit + 128;
      }
      r := r + [digit];
      done := x == 0;
      assert Digits(before) == [digit] + if done then [] else Digits(x);
    }
  }

  method Encode(x: int) returns (r: Option<seq<Byte>>)
    ensures r == if 0 <= x <= MAX_VARINT then Some(Digits(x)) else None
  {
    if !(0 <= x <= MAX_VARINT) {
      return None;
    }
    var bytes := AppendDigits([], x);
    assert [] + Digits(x) == Digits(x);
    r := Some(bytes);
  }

  /** A decoding result seen from `bytes` bytes earlier, with `value` read so far. */
  function Resumed(r: Option<(nat, nat)>, multiplier: nat, value: nat, bytes: nat): Option<(nat, nat)> {
    match r
    case None => None
    case Some((v, n)) => Some((value + multiplier * v, bytes + n))
  }

  lemma Unfolded(buffer: seq<Byte>, d: nat)
    requires buffer != [] && d == if buffer[0] < 128 then buffer[0] else buffer[0] - 128
    ensures Undigits(buffer)
         == if buffer[0] < 128 then Some((d, 1))
            else match Undigits(buffer[1..]) case None => None case Some((v, n)) => Some((d + 128 * v, n + 1))
  {
  }

  lemma ResumedStep(buffer: seq<Byte>, m: nat, value: nat, bytes: nat, d: nat)
    requires buffer != [] && d == if buffer[0] < 128 then buffer[0] else buffer[0] - 128
    ensures Resumed(Undigits(buffer), m, value, bytes)
         == if buffer[0] < 128 then Some((value + d * m, bytes + 1))
            else Resumed(Undigits(buffer[1..]), m * 128, value + d * m, bytes + 1)
  {
    Unfolded(buffer, d);
    hide Undigits;
    if buffer[0] >= 128 && Undigits(buffer[1..]).Some? {
      Spread(m, d, Undigits(buffer[1..]).value.0);
    }
  }

  lemma Spread(m: int, d: int, v: int)
    ensures m * (d + 128 * v) == d * m + (m * 128) * v
  {
  }

  lemma NotNegative(m: nat, d: nat)
    ensures d * m >= 0
  {
  }

  lemma ResumedEnds(b: seq<Byte>)
    ensures Resumed(Undigits(b), 1, 0, 0) == Undigits(b) && Undigits([]) == None
  {
    hide Undigits;
    NothingRead();
  }

  lemma NothingRead()
    ensures Undigits([]) == None
  {
  }

  method Decode(b: seq<Byte>) returns (r: Option<(nat, nat)>)
    ensures r == Undigits(b)
  {
    hide Undigits;
    ResumedEnds(b);
    var multiplier, value, bytes, buffer := 1, 0, 0, b;
    while true
      invariant value >= 0 && bytes >= 0 && multiplier >= 0
      invariant Resumed(Undigits(buffer), multiplier, value, bytes) == Undigits(b)
      decreases |buffer|
    {
      bytes := bytes + 1;
      if buffer == [] {
        return None;
      }
      var digit: nat := buffer[0];
      ResumedStep(buffer, multiplier, value, bytes - 1, digit % 128);
      buffer := buffer[1..];
      NotNegative(multiplier, digit % 128);
      value := value + digit % 128 * multiplier;
      if digit < 128 {
        return Some((value, bytes));
      }
      multiplier := multiplier * 128;
    }
  }

  /** Decoding undoes encoding, whatever bytes follow. */
  lemma {:induction false} UndigitsOfDigits(x: nat, rest: seq<Byte>)
    ensures Undigits(Digits(x) + rest) == Some((x, |Digits(x)|))
  {
    if x >= 128 {
      UndigitsOfDigits(x / 128, rest);
      assert (Digits(x) + rest)[1..] == Digits(x / 128) + rest;
    }
  }

  /** No other encoding that decodes to the same value is shorter, and one is as short exactly
      when its last byte is not zero. */
  lemma {:induction false} DigitsMinimal(b: seq<Byte>)
    requires Undigits(b).Some?
    ensures var (x, n) := Undigits(b).value;
      && |Digits(x)| <= n
      && (b[..n] == Digits(x) <==> |Digits(x)| == n)
      && (|Digits(x)| == n <==> n == 1 || b[n - 1] != 0)
  {
    if b[0] >= 128 {
      DigitsMinimal(b[1..]);
      var (v, n) := Undigits(b[1..]).value;
      var x := b[0] - 128 + 128 * v;
      assert b[..n + 1] == [b[0]] + b[1..][..n];
      assert b[n] == b[1..][n - 1];
      if x >= 128 {
        assert x / 128 == v && x % 128 == b[0] - 128;
      } else {
        assert v == 0 && |Digits(0)| == 1;
      }
    }
  }

  /** No encoding is the beginning of another. */
  lemma DigitsPrefixFree(x: nat, y: nat, r: seq<Byte>, s: seq<Byte>)
    requires Digits(x) + r == Digits(y) + s
    ensures x == y && r == s
  {
    UndigitsOfDigits(x, r);
    UndigitsOfDigits(y, s);
    assert r == (Digits(x) + r)[|Digits(x)|..];
    assert s == (Digits(y) + s)[|Digits(y)|..];
  }

  /** One to four bytes, exactly up to the protocol's maximum. */
  lemma DigitsLength(x: nat)
    ensures |Digits(x)| == 1 <==> x < 128
    ensures |Digits(x)| <= 2 <==> x < 16384
    ensures |Digits(x)| <= 3 <==> x < 2097152
    ensures |Digits(x)| <= 4 <==> x <= MAX_VARINT
  {
    var a := x / 128;
    var b := a / 128;
    var c := b / 128;
    assert x >= 128 ==> |Digits(x)| == 1 + |Digits(a)|;
    assert a >= 128 ==> |Digits(a)| == 1 + |Digits(b)|;
    assert b >= 128 ==> |Digits(b)| == 1 + |Digits(c)|;
  }
}
