/** The property table of MQTT 5.0 and the encoding of property sets. */
module PropertyCodec {
  import opened Bytes
  import opened Options
  import opened VarInt
  import Utf8

  type Text = Utf8.Text

  datatype PropertyType =
    | ByteInteger
    | TwoByteInteger
    | FourByteInteger
    | VariableByteInteger
    | BinaryData
    | Utf8String
    | Utf8StringPair

  /** The identifiers in the order in which they are packed. */
  function Ids(): seq<nat> {
    [1, 2, 3, 8, 9, 11, 17, 18, 19, 21, 22, 23, 24, 25, 26, 28, 31, 33, 34, 35, 36, 37, 38, 39, 40, 41, 42]
  }

  function TypeOf(id: nat): Option<PropertyType> {
    if id in {1, 23, 25, 36, 37, 40, 41, 42} then Some(ByteInteger)
    else if id in {19, 33, 34, 35} then Some(TwoByteInteger)
    else if id in {2, 17, 24, 39} then Some(FourByteInteger)
    else if id == 11 then Some(VariableByteInteger)
    else if id in {9, 22} then Some(BinaryData)
    else if id in {3, 8, 18, 21, 26, 28, 31} then Some(Utf8String)
    else if id == 38 then Some(Utf8StringPair)
    else None
  }

  const WILLMESSAGE := 99

  /** The packet types, by number, that may carry a property. */
  predicate Applies(id: nat, packetType: nat) {
    if id in {1, 2, 3, 8, 9} then packetType in {3, WILLMESSAGE}
    else if id == 11 then packetType in {3, 8}
    else if id == 17 then packetType in {1, 2, 14}
    else if id in {21, 22} then packetType in {1, 2, 15}
    else if id in {23, 25} then packetType == 1
    else if id == 24 then packetType == WILLMESSAGE
    else if id == 28 then packetType in {2, 14}
    else if id == 31 then packetType in {2, 4, 5, 6, 7, 9, 11, 14, 15}
    else if id in {33, 34, 39} then packetType in {1, 2}
    else if id == 35 then packetType == 3
    else if id == 38 then 1 <= packetType <= 11 || packetType in {14, 15, WILLMESSAGE}
    else id in {18, 19, 26, 36, 37, 40, 41, 42} && packetType == 2
  }

  predicate Multiple(id: nat) {
    id == 11 || id == 38
  }

  datatype Value = Num(n: int) | Bin(bytes: seq<Byte>) | Str(text: Text) | Pair(key: Text, text: Text)

  datatype Attr = One(v: Value) | Many(vs: seq<Value>)

  type Attrs = map<nat, Attr>

  /** The range checks on assignment. */
  predicate Checked(id: nat, v: Value) {
    if id in {33, 35} then v.Num? && 1 <= v.n <= 65535
    else if id == 34 then v.Num? && 0 <= v.n <= 65535
    else if id in {39, 11} then v.Num? && 1 <= v.n <= 268435455
    else if id in {25, 23, 1} then v.Num? && 0 <= v.n <= 1
    else true
  }

  function Held(attrs: Attrs, id: nat): seq<Value> {
    if id !in attrs then [] else match attrs[id] case One(v) => [v] case Many(vs) => vs
  }

  /** Assigning one value; None stands for the exceptions. */
  function Assign(packetType: nat, attrs: Attrs, id: nat, v: Value): Option<Attrs> {
    if TypeOf(id) == None || !Applies(id, packetType) || !Checked(id, v) then None
    else if Multiple(id) then AssignList(packetType, attrs, id, [v])
    else Some(attrs[id := One(v)])
  }

  /** Assigning a list checks no value. */
  function AssignList(packetType: nat, attrs: Attrs, id: nat, vs: seq<Value>): Option<Attrs> {
    if TypeOf(id) == None || !Applies(id, packetType) then None
    else if !Multiple(id) || id !in attrs then Some(attrs[id := Many(vs)])
    else match attrs[id] case One(_) => None case Many(before) => Some(attrs[id := Many(before + vs)])
  }

  // ---------- writing ----------

  function WriteText(t: Text): Option<seq<Byte>> {
    var b := Utf8.Encode(t);
    if |b| < 65536 then Some(U16(|b|) + b) else None
  }

  function WriteValue(t: PropertyType, v: Value): Option<seq<Byte>> {
    match (t, v)
    case (ByteInteger, Num(n)) => if 0 <= n < 256 then Some([n]) else None
    case (TwoByteInteger, Num(n)) => if 0 <= n < 65536 then Some(U16(n)) else None
    case (FourByteInteger, Num(n)) => if 0 <= n < 0x1_0000_0000 then Some(U32(n)) else None
    case (VariableByteInteger, Num(n)) => if 0 <= n <= MAX_VARINT then Some(Digits(n)) else None
    case (BinaryData, Bin(b)) => if |b| < 65536 then Some(U16(|b|) + b) else None
    case (Utf8String, Str(text)) => WriteText(text)
    case (Utf8StringPair, Pair(key, text)) =>
      var k, w := WriteText(key), WriteText(text);
      if k.Some? && w.Some? then Some(k.value + w.value) else None
    case (_, _) => None
  }

  function WriteProperty(id: nat, v: Value): Option<seq<Byte>> {
    match TypeOf(id)
    case None => None
    case Some(t) =>
      match WriteValue(t, v)
      case None => None
      case Some(b) => Some(Digits(id) + b)
  }

  function Join(a: Option<seq<Byte>>, b: Option<seq<Byte>>): Option<seq<Byte>> {
    if a.Some? && b.Some? then Some(a.value + b.value) else None
  }

  function WriteList(id: nat, vs: seq<Value>): Option<seq<Byte>> {
    if vs == [] then Some([]) else Join(WriteProperty(id, vs[0]), WriteList(id, vs[1..]))
  }

  function WriteAttr(id: nat, a: Attr): Option<seq<Byte>> {
    match a
    case One(v) => if Multiple(id) then None else WriteProperty(id, v)
    case Many(vs) => if Multiple(id) then WriteList(id, vs) else None
  }

  function WriteIds(attrs: Attrs, ids: seq<nat>): Option<seq<Byte>> {
    if ids == [] then Some([])
    else if ids[0] !in attrs then WriteIds(attrs, ids[1..])
    else Join(WriteAttr(ids[0], attrs[ids[0]]), WriteIds(attrs, ids[1..]))
  }

  function Counted(b: Option<seq<Byte>>): Option<seq<Byte>> {
    if b.Some? && |b.value| <= MAX_VARINT then Some(Digits(|b.value|) + b.value) else None
  }

  function Pack(attrs: Attrs): Option<seq<Byte>> {
    Counted(WriteIds(attrs, Ids()))
  }

  // ---------- reading ----------

  predicate Clean(t: Text) {
    forall i :: 0 <= i < |t| ==> t[i] != 0 && t[i] != 0xFEFF
  }

  /** A text and the bytes it takes, of at most `maxlen`. */
  function ReadText(b: seq<Byte>, maxlen: int): Option<(Text, nat)> {
    if maxlen < 2 then None
    else match ReadU16(b)
      case None => None
      case Some(n) =>
        if n > maxlen - 2 then None
        else match Utf8.Decode(Slice(b, 2, 2 + n))
          case None => None
          case Some(t) => if Clean(t) then Some((t, n + 2)) else None
  }

  function ReadValue(t: PropertyType, b: seq<Byte>, maxlen: int): Option<(Value, nat)> {
    match t
    case ByteInteger => if b == [] then None else Some((Num(b[0]), 1))
    case TwoByteInteger => (match ReadU16(b) case None => None case Some(n) => Some((Num(n), 2)))
    case FourByteInteger => (match ReadU32(b) case None => None case Some(n) => Some((Num(n), 4)))
    case VariableByteInteger => (match Undigits(b) case None => None case Some((n, used)) => Some((Num(n), used)))
    case BinaryData => (match ReadU16(b) case None => None case Some(n) => Some((Bin(Slice(b, 2, 2 + n)), n + 2)))
    case Utf8String => (match ReadText(b, maxlen) case None => None case Some((s, used)) => Some((Str(s), used)))
    case Utf8StringPair =>
      match ReadText(b, maxlen)
      case None => None
      case Some((key, used)) =>
        match ReadText(Drop(b, used), maxlen - used)
        case None => None
        case Some((s, more)) => Some((Pair(key, s), used + more))
  }

  /** The attributes held at the end, and whether the end was reached without an exception. */
  datatype Reading = Reading(attrs: Attrs, ok: bool)

  function ReadAll(packetType: nat, attrs: Attrs, b: seq<Byte>, left: int): Reading
    decreases left
  {
    if left <= 0 then Reading(attrs, true)
    else match ReadProperty(packetType, attrs, b, left)
      case None => Reading(attrs, false)
      case Some((after, used)) => ReadAll(packetType, after, Drop(b, used), left - used)
  }

  /** One turn of the loop: the attributes after it and the bytes it takes. */
  function ReadProperty(packetType: nat, attrs: Attrs, b: seq<Byte>, left: int): (r: Option<(Attrs, nat)>)
    ensures r.Some? ==> r.value.1 >= 1
  {
    match Undigits(b)
    case None => None
    case Some((id, n)) =>
      match TypeOf(id)
      case None => None
      case Some(t) =>
        match ReadValue(t, b[n..], left - n)
        case None => None
        case Some((v, used)) =>
          if !Multiple(id) && id in attrs then None
          else match Assign(packetType, attrs, id, v)
            case None => None
            case Some(after) => Some((after, n + used))
  }

  /** What unpacking leaves in the set, and the bytes it consumed unless it failed. */
  function Unpack(packetType: nat, b: seq<Byte>): (Attrs, Option<nat>) {
    match Undigits(b)
    case None => (map[], None)
    case Some((len, n)) =>
      var r := ReadAll(packetType, map[], b[n..], len);
      (r.attrs, if r.ok then Some(len + n) else None)
  }
}
