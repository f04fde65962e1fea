/** Packets in a byte stream: the one-shot reading of a whole stream. */
module PacketStream {
  import opened Bytes
  import opened Options
  import opened VarInt

  /** A control packet without its length field. */
  datatype Frame = Frame(command: Byte, body: seq<Byte>)

  datatype Length = Got(value: nat, bytes: nat) | Incomplete | TooLong

  /** The remaining length field at the front of `b`, of at most `budget` bytes. */
  function ReadLength(b: seq<Byte>, budget: nat): (r: Length)
    ensures r.Got? ==> 1 <= r.bytes <= |b|
  {
    if b == [] then Incomplete
    else if budget == 0 then TooLong
    else if b[0] < 128 then Got(b[0], 1)
    else match ReadLength(b[1..], budget - 1)
      case Got(v, n) => Got(b[0] - 128 + 128 * v, n + 1)
      case other => other
  }

  datatype Packet = Complete(frame: Frame, bytes: nat) | Partial | Malformed

  function ParseOne(s: seq<Byte>): (r: Packet)
    ensures r.Complete? ==> 2 <= r.bytes <= |s|
  {
    if s == [] then Partial
    else match ReadLength(s[1..], 4)
      case Incomplete => Partial
      case TooLong => Malformed
      case Got(len, n) =>
        if |s| < 1 + n + len then Partial
        else Complete(Frame(s[0], s[1 + n..1 + n + len]), 1 + n + len)
  }

  /** The packets of a stream and the bytes behind the last of them. */
  function Parse(s: seq<Byte>): (seq<Frame>, seq<Byte>) {
    match ParseOne(s)
    case Complete(frame, n) =>
      var (frames, rest) := Parse(s[n..]);
      ([frame] + frames, rest)
    case _ => ([], s)
  }

  /** The bytes of a packet. */
  function Print(f: Frame): seq<Byte> {
    [f.command] + Digits(|f.body|) + f.body
  }

  // ---------- the length field ----------

  /** The reader's length field is the variable byte integer, cut off after four bytes. */
  lemma {:induction false} ReadLengthIs(b: seq<Byte>, budget: nat)
    ensures ReadLength(b, budget).Got? <==> Undigits(b).Some? && Undigits(b).value.1 <= budget
    ensures ReadLength(b, budget).Got? ==>
      Undigits(b).value == (ReadLength(b, budget).value, ReadLength(b, budget).bytes)
    ensures ReadLength(b, budget).Incomplete? <==> |b| <= budget && Undigits(b) == None
  {
    if b != [] && b[0] >= 128 && budget > 0 {
      ReadLengthIs(b[1..], budget - 1);
    } else if b != [] && b[0] >= 128 {
      if Undigits(b).Some? {
        assert Undigits(b[1..]).Some?;
      }
    }
  }

  /** The reader accepts a written length exactly up to the protocol's maximum. */
  lemma WrittenLengthAccepted(x: nat, rest: seq<Byte>)
    ensures ReadLength(Digits(x) + rest, 4) == Got(x, |Digits(x)|) <==> x <= MAX_VARINT
    ensures x > MAX_VARINT ==> ReadLength(Digits(x) + rest, 4) == TooLong
  {
    UndigitsOfDigits(x, rest);
    DigitsLength(x);
    hide Digits, Undigits, ReadLength;
    ReadLengthIs(Digits(x) + rest, 4);
  }

  /** A printed packet is read back, whatever follows it. */
  lemma PrintedParses(f: Frame, rest: seq<Byte>)
    requires |f.body| <= MAX_VARINT
    ensures ParseOne(Print(f) + rest) == Complete(f, |Print(f)|)
  {
    var s, n := Print(f) + rest, |Digits(|f.body|)|;
    assert s[1..] == Digits(|f.body|) + (f.body + rest);
    hide Digits, ReadLength;
    WrittenLengthAccepted(|f.body|, f.body + rest);
    assert s[1 + n..1 + n + |f.body|] == f.body;
  }

  // ---------- concatenation ----------

  lemma {:induction false} ReadLengthMore(b: seq<Byte>, c: seq<Byte>, budget: nat)
    requires !ReadLength(b, budget).Incomplete?
    ensures ReadLength(b + c, budget) == ReadLength(b, budget)
  {
    if budget > 0 && b[0] >= 128 {
      ReadLengthMore(b[1..], c, budget - 1);
      assert (b + c)[1..] == b[1..] + c;
    }
  }

  lemma ParseOneMore(s: seq<Byte>, t: seq<Byte>)
    requires !ParseOne(s).Partial?
    ensures ParseOne(s + t) == ParseOne(s)
  {
    hide ReadLength;
    assert (s + t)[1..] == s[1..] + t;
    ReadLengthMore(s[1..], t, 4);
    match ReadLength(s[1..], 4)
    case Got(len, n) => assert (s + t)[1 + n..1 + n + len] == s[1 + n..1 + n + len];
    case _ =>
  }

  lemma ParseFirst(s: seq<Byte>, frame: Frame, n: nat)
    requires ParseOne(s) == Complete(frame, n)
    ensures Parse(s) == ([frame] + Parse(s[n..]).0, Parse(s[n..]).1)
  {
    hide ParseOne;
  }

  lemma Added<T>(a: seq<T>, b: seq<T>, c: seq<T>, whole: seq<T>)
    requires whole == a + b
    ensures a + (b + c) == whole + c
  {
  }

  /** A stream that ends with a packet can be read without what follows. */
  lemma {:induction false} ParseConcat(s: seq<Byte>, t: seq<Byte>)
    requires Parse(s).1 == []
    ensures Parse(s + t) == (Parse(s).0 + Parse(t).0, Parse(t).1)
  {
    hide ParseOne;
    if ParseOne(s).Complete? {
      var frame, n := ParseOne(s).frame, ParseOne(s).bytes;
      hide Parse;
      ParseFirst(s, frame, n);
      ParseOneMore(s, t);
      ParseFirst(s + t, frame, n);
      assert (s + t)[n..] == s[n..] + t;
      ParseConcat(s[n..], t);
      Added([frame], Parse(s[n..]).0, Parse(t).0, Parse(s).0);
    } else {
      assert Parse(s) == ([], s) && s + t == t;
      assert [] + Parse(t).0 == Parse(t).0;
    }
  }

  lemma ParseNothing()
    ensures Parse([]) == ([], [])
  {
  }

  lemma ParseSingle(s: seq<Byte>)
    requires ParseOne(s).Complete? && ParseOne(s).bytes == |s|
    ensures Parse(s) == ([ParseOne(s).frame], [])
  {
    hide ParseOne;
    assert s[|s|..] == [];
    ParseNothing();
    assert [ParseOne(s).frame] + [] == [ParseOne(s).frame];
  }
}
