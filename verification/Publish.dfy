/** PUBLISH packets: what is sent is what the reader and the handler on the other side find. */
module PublishPacket {
  import opened Bytes
  import opened Options
  import opened PacketTypes
  import opened VarInt
  import opened PacketStream
  import opened PropertyCodec
  import opened PropertyLaws

  /** `mid` is on the wire only for qos 1 and 2, `properties` only for MQTT 5. */
  datatype Publish = Publish(
    dup: bool, qos: nat, retain: bool, topic: seq<Byte>, mid: nat, properties: Attrs, payload: seq<Byte>)

  function Bit(b: bool): nat {
    if b then 1 else 0
  }

  function Command(m: Publish): Byte
    requires m.qos <= 2
  {
    PUBLISH + 8 * Bit(m.dup) + 2 * m.qos + Bit(m.retain)
  }

  function MidBytes(m: Publish): seq<Byte>
    requires m.mid < 65536
  {
    if m.qos > 0 then U16(m.mid) else []
  }

  function PropertyBytes(v5: bool, m: Publish): Option<seq<Byte>> {
    if v5 then Pack(m.properties) else Some([])
  }

  /** The fields that are sent fit their encoding. */
  predicate Sendable(v5: bool, m: Publish) {
    m.qos <= 2 && |m.topic| < 65536 && m.mid < 65536 && PropertyBytes(v5, m).Some?
  }

  /** The variable header and the payload. */
  function Body(v5: bool, m: Publish): seq<Byte>
    requires Sendable(v5, m)
  {
    U16(|m.topic|) + m.topic + MidBytes(m) + PropertyBytes(v5, m).value + m.payload
  }

  /** The topic with its length, the packet identifier, the properties and the payload, one behind the other. */
  predicate Fields(v5: bool, m: Publish, b: seq<Byte>) {
    var t := 2 + |m.topic|; var i := if m.qos > 0 then t + 2 else t;
    && i <= |b|
    && BigEndian(b[..2]) == |m.topic| && b[2..t] == m.topic
    && (m.qos > 0 ==> BigEndian(b[t..t + 2]) == m.mid)
    && Some(b[i..]) == if v5 then Join(Pack(m.properties), Some(m.payload)) else Some(m.payload)
  }

  /** A PUBLISH as section 3.3 of MQTT 5.0 lays it out: type and flags in the first byte, the number of all bytes
      that follow the length field, and behind that field just these. */
  predicate LaidOut(v5: bool, m: Publish, packet: seq<Byte>) {
    && packet != []
    && packet[0] == 48 + (if m.dup then 8 else 0) + 2 * m.qos + (if m.retain then 1 else 0)
    && match Undigits(packet[1..])
      case None => false
      case Some((length, n)) => length == |packet| - 1 - n && Fields(v5, m, packet[1 + n..])
  }

  lemma TwoBytes(n: nat)
    requires n < 65536
    ensures BigEndian(U16(n)) == n
  {
    InNetworkOrder(n);
    hide BigEndian, U16, U32, U64;
  }

  lemma BodyFields(v5: bool, m: Publish)
    requires Sendable(v5, m)
    ensures Fields(v5, m, Body(v5, m))
  {
    var u, i, p := U16(|m.topic|), MidBytes(m), PropertyBytes(v5, m).value;
    TwoBytes(|m.topic|);
    TwoBytes(m.mid);
    hide BigEndian, U16, Pack;
    Pieces(u, m.topic, i, p, m.payload);
    assert [] + m.payload == m.payload;
  }

  lemma Pieces(u: seq<Byte>, t: seq<Byte>, i: seq<Byte>, p: seq<Byte>, q: seq<Byte>)
    ensures var b, n := u + t + i + p + q, |u| + |t|;
      b[..|u|] == u && b[|u|..n] == t && b[n..n + |i|] == i && b[n + |i|..] == p + q
  {
    assert u + t + i + p + q == u + (t + (i + (p + q)));
  }

  lemma SentLaidOut(v5: bool, m: Publish)
    requires Sendable(v5, m)
    ensures LaidOut(v5, m, Print(Frame(Command(m), Body(v5, m))))
  {
    hide Fields, Body, Undigits, Digits;
    var b := Body(v5, m);
    BodyFields(v5, m);
    UndigitsOfDigits(|b|, b);
    Behind(Command(m), Digits(|b|), b);
  }

  lemma Behind(command: Byte, digits: seq<Byte>, b: seq<Byte>)
    ensures ([command] + digits + b)[1..] == digits + b && ([command] + digits + b)[1 + |digits|..] == b
  {
  }

  /** The length announced first is the number of bytes appended after it. */
  method SendPublish(v5: bool, m: Publish) returns (sent: Option<seq<Byte>>)
    requires m.qos <= 2 && m.mid < 65536
    ensures sent.Some? <==> Sendable(v5, m)
    ensures sent.Some? ==> LaidOut(v5, m, sent.value) && sent.value == Print(Frame(Command(m), Body(v5, m)))
  {
    hide Digits, Pack, LaidOut;
    var packet := [Command(m)];
    var remainingLength := 2 + |m.topic| + |m.payload|;
    if m.qos > 0 {
      remainingLength := remainingLength + 2;
    }
    var packedProperties: seq<Byte> := [];
    if v5 {
      var packed := Pack(m.properties);
      if packed == None {
        return None;
      }
      packedProperties := packed.value;
      remainingLength := remainingLength + |packedProperties|;
    }
    packet := AppendDigits(packet, remainingLength);
    if |m.topic| >= 65536 {
      return None;
    }
    packet := packet + U16(|m.topic|) + m.topic;
    if m.qos > 0 {
      packet := packet + U16(m.mid);
    }
    if v5 {
      packet := packet + packedProperties;
    }
    packet := packet + m.payload;
    assert PropertyBytes(v5, m) == Some(packedProperties);
    Appended(v5, m, packet, packedProperties, remainingLength);
    SentLaidOut(v5, m);
    sent := Some(packet);
  }

  lemma Appended(v5: bool, m: Publish, packet: seq<Byte>, properties: seq<Byte>, length: nat)
    requires Sendable(v5, m) && PropertyBytes(v5, m) == Some(properties) && length == |Body(v5, m)|
    requires packet == [Command(m)] + Digits(length) + U16(|m.topic|) + m.topic + MidBytes(m) + properties + m.payload
    ensures packet == Print(Frame(Command(m), Body(v5, m)))
  {
    hide Digits, Pack, U16;
    var head, u, t, i := [Command(m)] + Digits(length), U16(|m.topic|), m.topic, MidBytes(m);
    assert head + u + t + i + properties + m.payload == head + (u + t + i + properties + m.payload);
  }

  /** A message, the return code for a protocol error, an exception, or a packet of another type. */
  datatype Handling = Message(m: Publish) | ProtocolError | Raised | OtherType

  /** A packet goes to the handler of its type. */
  function PacketHandle(v5: bool, command: Byte, body: seq<Byte>): Handling {
    if Kind(command) == PUBLISH then HandlePublish(v5, command, body) else OtherType
  }

  function HandlePublish(v5: bool, command: Byte, body: seq<Byte>): Handling {
    match ReadU16(body)
    case None => Raised
    case Some(n) =>
      if |body| < 2 + n then Raised
      else if !v5 && n == 0 then ProtocolError
      else HandleRest(v5, command, body[2..2 + n], body[2 + n..])
  }

  /** Behind the topic. */
  function HandleRest(v5: bool, command: Byte, topic: seq<Byte>, b: seq<Byte>): Handling {
    if command / 2 % 4 == 0 then HandleEnd(v5, command, topic, 0, b)
    else match ReadU16(b)
      case None => Raised
      case Some(mid) => HandleEnd(v5, command, topic, mid, b[2..])
  }

  /** Behind the packet identifier. */
  function HandleEnd(v5: bool, command: Byte, topic: seq<Byte>, mid: nat, b: seq<Byte>): Handling {
    var (properties, used) := if v5 then Unpack(3, b) else (map[], Some(0));
    if used == None then Raised
    else if command / 2 % 4 == 3 then ProtocolError
    else Message(Publish(command / 8 % 2 == 1, command / 2 % 4, command % 2 == 1, topic, mid, properties,
                         Drop(b, used.value)))
  }

  /** The body has the fields of the message, under the flags of its first byte. */
  predicate Received(v5: bool, command: Byte, b: seq<Byte>, m: Publish) {
    var t := 2 + |m.topic|; var i := if m.qos > 0 then t + 2 else t;
    && m.qos == command / 2 % 4 && m.qos < 3 && m.dup == (command / 8 % 2 == 1) && m.retain == (command % 2 == 1)
    && i <= |b| && BigEndian(b[..2]) == |m.topic| && b[2..t] == m.topic && (v5 || m.topic != [])
    && m.mid == (if m.qos > 0 then BigEndian(b[t..t + 2]) else 0)
    && if v5 then Unpack(3, b[i..]).1.Some? && m.properties == Unpack(3, b[i..]).0
                  && m.payload == Drop(b[i..], Unpack(3, b[i..]).1.value)
       else m.properties == map[] && m.payload == b[i..]
  }

  lemma ReadsTwo(b: seq<Byte>)
    ensures |b| >= 2 ==> ReadU16(b) == Some(BigEndian(b[..2]))
    ensures |b| < 2 ==> ReadU16(b) == None
  {
    if |b| >= 2 {
      TwoMore([], b[0], b[1]);
      assert b[..2] == [] + [b[0], b[1]];
    }
  }

  /** Whatever arrives is handled as the message of which it has the fields, and as none when it has those of
      none. */
  lemma HandledExactly(v5: bool, command: Byte, b: seq<Byte>, m: Publish)
    ensures HandlePublish(v5, command, b) == Message(m) <==> Received(v5, command, b, m)
  {
    hide Unpack, ReadU16, BigEndian;
    ReadsTwo(b);
    if |b| >= 2 && |b| >= 2 + ReadU16(b).value {
      var n := ReadU16(b).value;
      var topic, rest := b[2..2 + n], b[2 + n..];
      ReadsTwo(rest);
      assert rest[..0] == [];
      if |rest| >= 2 {
        assert b[2 + n..2 + n + 2] == rest[..2] && b[2 + n + 2..] == rest[2..];
      }
    }
  }

  lemma CommandBits(m: Publish)
    requires m.qos <= 2
    ensures Command(m) / 8 % 2 == 1 <==> m.dup
    ensures Command(m) / 2 % 4 == m.qos
    ensures Command(m) % 2 == 1 <==> m.retain
    ensures Command(m) / 16 == 3 && Kind(Command(m)) == PUBLISH
  {
  }

  lemma PropertiesBack(v5: bool, m: Publish)
    requires v5 && Pack(m.properties).Some?
    ensures var p := Pack(m.properties).value;
      var (properties, used) := Unpack(3, p + m.payload);
      if ValidSet(3, m.properties) then properties == m.properties && used == Some(|p|) else properties != m.properties
    ensures Drop(Pack(m.properties).value + m.payload, |Pack(m.properties).value|) == m.payload
  {
    hide Pack, Unpack, ValidSet;
    RoundTripExactly(3, m.properties, m.payload);
    UnpackValid(3, Pack(m.properties).value + m.payload);
  }

  /** What is neither on the wire nor given back. */
  predicate Canonical(v5: bool, m: Publish) {
    m.qos <= 2 && (m.qos == 0 ==> m.mid == 0) && (!v5 ==> m.properties == map[])
  }

  lemma MidBack(m: Publish, rest: seq<Byte>)
    requires m.mid < 65536 && m.qos > 0
    ensures ReadU16(MidBytes(m) + rest) == Some(m.mid) && (MidBytes(m) + rest)[2..] == rest
  {
    U16Back(m.mid, rest);
  }

  lemma EndIs(v5: bool, m: Publish, b: seq<Byte>, n: nat)
    requires Canonical(v5, m) && Drop(b, n) == m.payload
    requires if v5 then Unpack(3, b) == (m.properties, Some(n)) else n == 0
    ensures HandleEnd(v5, Command(m), m.topic, m.mid, b) == Message(m)
  {
    CommandBits(m);
    hide Command, Unpack, Drop;
  }

  lemma EndIsNot(m: Publish, b: seq<Byte>)
    requires m.qos <= 2 && Unpack(3, b).0 != m.properties
    ensures HandleEnd(true, Command(m), m.topic, m.mid, b) != Message(m)
  {
    hide Command, Unpack, Drop;
  }

  lemma EndBack(v5: bool, m: Publish)
    requires Canonical(v5, m) && Sendable(v5, m)
    ensures HandleEnd(v5, Command(m), m.topic, m.mid, PropertyBytes(v5, m).value + m.payload) == Message(m)
       <==> (v5 ==> ValidSet(3, m.properties))
  {
    var p := PropertyBytes(v5, m).value;
    if v5 {
      PropertiesBack(v5, m);
    } else {
      assert Drop(p + m.payload, 0) == m.payload;
    }
    hide Pack, Unpack, ValidSet, Command, HandleEnd, Drop;
    if v5 ==> ValidSet(3, m.properties) {
      EndIs(v5, m, p + m.payload, |p|);
    } else {
      EndIsNot(m, p + m.payload);
    }
  }

  lemma RestIsEnd(v5: bool, m: Publish, tail: seq<Byte>)
    requires m.qos <= 2 && m.mid < 65536 && (m.qos == 0 ==> m.mid == 0)
    ensures HandleRest(v5, Command(m), m.topic, MidBytes(m) + tail) == HandleEnd(v5, Command(m), m.topic, m.mid, tail)
  {
    CommandBits(m);
    hide Command, HandleEnd, ReadU16;
    if m.qos > 0 {
      MidBack(m, tail);
      hide MidBytes;
    } else {
      assert MidBytes(m) + tail == tail;
    }
  }

  lemma RestBack(v5: bool, m: Publish)
    requires Canonical(v5, m) && Sendable(v5, m)
    ensures HandleRest(v5, Command(m), m.topic, MidBytes(m) + (PropertyBytes(v5, m).value + m.payload)) == Message(m)
       <==> (v5 ==> ValidSet(3, m.properties))
  {
    hide ValidSet, Command, HandleEnd, HandleRest, PropertyBytes, MidBytes;
    EndBack(v5, m);
    RestIsEnd(v5, m, PropertyBytes(v5, m).value + m.payload);
  }

  lemma BodyBack(v5: bool, m: Publish)
    requires Canonical(v5, m) && Sendable(v5, m)
    ensures HandlePublish(v5, Command(m), Body(v5, m))
         == if !v5 && m.topic == [] then ProtocolError
            else HandleRest(v5, Command(m), m.topic, MidBytes(m) + (PropertyBytes(v5, m).value + m.payload))
  {
    hide Pack, Command, HandleRest, MidBytes;
    var tail := MidBytes(m) + (PropertyBytes(v5, m).value + m.payload);
    assert Body(v5, m) == U16(|m.topic|) + (m.topic + tail);
    U16Back(|m.topic|, m.topic + tail);
    assert Body(v5, m)[2..] == m.topic + tail;
    assert Body(v5, m)[2..2 + |m.topic|] == m.topic;
    assert Body(v5, m)[2 + |m.topic|..] == tail;
  }

  /** A sent PUBLISH is read as one packet and handled as the message that was sent exactly when
      its length is within the protocol's maximum, the topic is not empty (before MQTT 5) and
      its properties are a valid set (MQTT 5). */
  lemma PublishRoundTripExactly(v5: bool, m: Publish, rest: seq<Byte>)
    requires Canonical(v5, m) && Sendable(v5, m)
    ensures var body := Body(v5, m);
      var packet := Print(Frame(Command(m), body));
      (&& ParseOne(packet + rest) == Complete(Frame(Command(m), body), |packet|)
       && PacketHandle(v5, Command(m), body) == Message(m))
      <==> |body| <= MAX_VARINT && (v5 || m.topic != []) && (v5 ==> ValidSet(3, m.properties))
  {
    LengthDecides(Frame(Command(m), Body(v5, m)), rest);
    CommandBits(m);
    BodyBack(v5, m);
    RestBack(v5, m);
    hide Print, ParseOne, Pack, ValidSet, Command, HandleRest, Body, HandlePublish, MidBytes, PropertyBytes;
  }

  lemma LengthDecides(f: Frame, rest: seq<Byte>)
    ensures ParseOne(Print(f) + rest) == Complete(f, |Print(f)|) <==> |f.body| <= MAX_VARINT
  {
    if |f.body| <= MAX_VARINT {
      PrintedParses(f, rest);
    } else {
      WrittenLengthAccepted(|f.body|, f.body + rest);
      hide ReadLength, Digits;
      assert (Print(f) + rest)[1..] == Digits(|f.body|) + (f.body + rest);
    }
  }
}
