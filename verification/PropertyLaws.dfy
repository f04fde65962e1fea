/** Round trips of property sets: what is packed is unpacked, in any order of the properties. */
module PropertyLaws {
  import opened Bytes
  import opened Options
  import opened VarInt
  import opened PropertyCodec
  import Utf8

  predicate CleanValue(v: Value) {
    match v
    case Str(t) => Clean(t)
    case Pair(k, t) => Clean(k) && Clean(t)
    case _ => true
  }

  /** A value that the property's range, type and the forbidden characters allow. */
  predicate ValidValue(id: nat, v: Value) {
    Checked(id, v) && WriteProperty(id, v).Some? && CleanValue(v)
  }

  ghost predicate ValidAttr(packetType: nat, id: nat, a: Attr) {
    && TypeOf(id).Some? && Applies(id, packetType)
    && (a.Many? <==> Multiple(id))
    && (a.One? ==> ValidValue(id, a.v))
    && (a.Many? ==> a.vs != [] && forall i :: 0 <= i < |a.vs| ==> ValidValue(id, a.vs[i]))
  }

  /** Every property is known, belongs to the packet type, has the right arity, and holds valid
      values, at least one. */
  ghost predicate ValidSet(packetType: nat, attrs: Attrs) {
    forall id :: id in attrs ==> ValidAttr(packetType, id, attrs[id])
  }

  /** The properties of each packet as sections 3.1 to 3.15 of MQTT 5.0 list them; 99 stands for the will. */
  function PropertiesOf(packetType: nat): set<nat> {
    match packetType
    case 1 => {17, 21, 22, 23, 25, 33, 34, 38, 39}
    case 2 => {17, 18, 19, 21, 22, 26, 28, 31, 33, 34, 36, 37, 38, 39, 40, 41, 42}
    case 3 => {1, 2, 3, 8, 9, 11, 35, 38}
    case 8 => {11, 38}
    case 10 => {38}
    case 14 => {17, 28, 31, 38}
    case 15 => {21, 22, 31, 38}
    case 99 => {1, 2, 3, 8, 9, 24, 38}
    case _ => if packetType in {4, 5, 6, 7, 9, 11} then {31, 38} else {}
  }

  /** The table by properties agrees with the standard's lists by packets. */
  lemma TableAgrees(id: nat, packetType: nat)
    ensures Applies(id, packetType) <==> id in PropertiesOf(packetType)
    ensures Applies(id, packetType) ==> TypeOf(id).Some?
  {
  }

  /** The types in the order of table 2-4 of MQTT 5.0. */
  function StandardType(id: nat): Option<PropertyType> {
    match id
    case 1 => Some(ByteInteger)
    case 2 => Some(FourByteInteger)
    case 3 => Some(Utf8String)
    case 8 => Some(Utf8String)
    case 9 => Some(BinaryData)
    case 11 => Some(VariableByteInteger)
    case 17 => Some(FourByteInteger)
    case 18 => Some(Utf8String)
    case 19 => Some(TwoByteInteger)
    case 21 => Some(Utf8String)
    case 22 => Some(BinaryData)
    case 23 => Some(ByteInteger)
    case 24 => Some(FourByteInteger)
    case 25 => Some(ByteInteger)
    case 26 => Some(Utf8String)
    case 28 => Some(Utf8String)
    case 31 => Some(Utf8String)
    case 33 => Some(TwoByteInteger)
    case 34 => Some(TwoByteInteger)
    case 35 => Some(TwoByteInteger)
    case 36 => Some(ByteInteger)
    case 37 => Some(ByteInteger)
    case 38 => Some(Utf8StringPair)
    case 39 => Some(FourByteInteger)
    case 40 => Some(ByteInteger)
    case 41 => Some(ByteInteger)
    case 42 => Some(ByteInteger)
    case _ => None
  }

  /** The numbers that may be assigned to a property, which are fewer than its type can hold for some: flags,
      sizes and identifiers that must not be zero. */
  lemma TypesAgree(id: nat)
    ensures TypeOf(id) == StandardType(id)
    ensures Multiple(id) ==> TypeOf(id) in {Some(VariableByteInteger), Some(Utf8StringPair)}
    ensures forall n :: Checked(id, Num(n)) && id in {1, 23, 25} ==> n in {0, 1}
    ensures forall n :: Checked(id, Num(n)) && id in {11, 33, 35, 39} ==> n != 0
    ensures forall n :: 1 <= n <= 65535 && id in {11, 33, 34, 35, 39} ==> Checked(id, Num(n))
    ensures Checked(34, Num(0)) && Checked(1, Num(0)) && Checked(1, Num(1))
  {
  }

  // ---------- single values ----------

  /** A counted field: two bytes of length and as many bytes. */
  predicate CountedField(b: seq<Byte>, content: seq<Byte>) {
    |b| == 2 + |content| && BigEndian(b[..2]) == |content| && b[2..] == content
  }

  /** How the value of each type is written (section 1.5 of MQTT 5.0). */
  lemma ValueLaidOut(t: PropertyType, v: Value)
    requires WriteValue(t, v).Some?
    ensures var b := WriteValue(t, v).value;
      match (t, v)
      case (ByteInteger, Num(n)) => b == [n]
      case (TwoByteInteger, Num(n)) => |b| == 2 && BigEndian(b) == n
      case (FourByteInteger, Num(n)) => |b| == 4 && BigEndian(b) == n
      case (VariableByteInteger, Num(n)) => Undigits(b) == Some((n, |b|))
      case (BinaryData, Bin(c)) => CountedField(b, c)
      case (Utf8String, Str(s)) => CountedField(b, Utf8.Encode(s))
      case (Utf8StringPair, Pair(key, s)) =>
        var k := 2 + |Utf8.Encode(key)|;
        k <= |b| && CountedField(b[..k], Utf8.Encode(key)) && CountedField(b[k..], Utf8.Encode(s))
      case _ => false
  {
    hide BigEndian, U16, U32, Digits, Undigits, Utf8.Encode, CountedField;
    match (t, v)
    case (ByteInteger, Num(n)) =>
    case (TwoByteInteger, Num(n)) => InNetworkOrder(n);
    case (FourByteInteger, Num(n)) => InNetworkOrder(n);
    case (VariableByteInteger, Num(n)) =>
      UndigitsOfDigits(n, []);
      assert Digits(n) + [] == Digits(n);
    case (BinaryData, Bin(c)) => IsCounted(c);
    case (Utf8String, Str(s)) => IsCounted(Utf8.Encode(s));
    case (Utf8StringPair, Pair(key, s)) =>
      IsCounted(Utf8.Encode(key));
      IsCounted(Utf8.Encode(s));
      Halves(WriteText(key).value, WriteText(s).value);
  }

  lemma IsCounted(c: seq<Byte>)
    requires |c| < 65536
    ensures CountedField(U16(|c|) + c, c)
  {
    InNetworkOrder(|c|);
    hide BigEndian, U16, U32, U64;
    assert (U16(|c|) + c)[..2] == U16(|c|);
  }

  lemma Halves(a: seq<Byte>, b: seq<Byte>)
    ensures (a + b)[..|a|] == a && (a + b)[|a|..] == b
  {
  }

  lemma TextBack(t: Text, rest: seq<Byte>, maxlen: int)
    requires WriteText(t).Some? && Clean(t) && maxlen >= |WriteText(t).value|
    ensures ReadText(WriteText(t).value + rest, maxlen) == Some((t, |WriteText(t).value|))
  {
    hide Utf8.Encode, Utf8.Decode, Clean;
    var e := Utf8.Encode(t);
    var b := WriteText(t).value + rest;
    assert b == U16(|e|) + (e + rest);
    U16Back(|e|, e + rest);
    assert Slice(b, 2, 2 + |e|) == e;
    Utf8.DecodeOfEncode(t);
  }

  lemma ValueBack(t: PropertyType, v: Value, rest: seq<Byte>, maxlen: int)
    requires WriteValue(t, v).Some? && CleanValue(v) && maxlen >= |WriteValue(t, v).value|
    ensures ReadValue(t, WriteValue(t, v).value + rest, maxlen) == Some((v, |WriteValue(t, v).value|))
  {
    hide Digits, Undigits, ReadText, WriteText, U16, U32, ReadU16, ReadU32;
    var w := WriteValue(t, v).value;
    var b := w + rest;
    match (t, v)
    case (ByteInteger, Num(n)) =>
    case (TwoByteInteger, Num(n)) => U16Back(n, rest);
    case (FourByteInteger, Num(n)) => U32Back(n, rest);
    case (VariableByteInteger, Num(n)) => UndigitsOfDigits(n, rest);
    case (BinaryData, Bin(c)) =>
      assert b == U16(|c|) + (c + rest);
      U16Back(|c|, c + rest);
      assert Slice(b, 2, 2 + |c|) == c;
    case (Utf8String, Str(s)) => TextBack(s, rest, maxlen);
    case (Utf8StringPair, Pair(key, s)) =>
      var k, x := WriteText(key).value, WriteText(s).value;
      assert b == k + (x + rest);
      TextBack(key, x + rest, maxlen);
      assert Drop(b, |k|) == x + rest;
      TextBack(s, rest, maxlen - |k|);
  }

  lemma ReadTextValid(b: seq<Byte>, maxlen: int)
    requires ReadText(b, maxlen).Some?
    ensures WriteText(ReadText(b, maxlen).value.0).Some? && Clean(ReadText(b, maxlen).value.0)
  {
    hide Utf8.Encode, Utf8.Decode, U16, Clean;
    var n := ReadU16(b).value;
    Utf8.EncodeOfDecode(Slice(b, 2, 2 + n));
    assert |Slice(b, 2, 2 + n)| <= n;
  }

  lemma ReadValid(t: PropertyType, b: seq<Byte>, maxlen: int)
    requires ReadValue(t, b, maxlen).Some?
    ensures var v := ReadValue(t, b, maxlen).value.0;
      CleanValue(v) && (WriteValue(t, v).Some? || (t.VariableByteInteger? && v.Num? && v.n > MAX_VARINT))
  {
    hide ReadText, WriteText, Undigits, ReadU32;
    match t
    case Utf8String => ReadTextValid(b, maxlen);
    case Utf8StringPair =>
      ReadTextValid(b, maxlen);
      var used := ReadText(b, maxlen).value.1;
      ReadTextValid(Drop(b, used), maxlen - used);
    case _ =>
  }

  // ---------- one turn of the loop ----------

  lemma PropertyBack(packetType: nat, attrs: Attrs, id: nat, v: Value, rest: seq<Byte>, left: int)
    requires WriteProperty(id, v).Some? && CleanValue(v) && left >= |WriteProperty(id, v).value|
    ensures var w := WriteProperty(id, v).value;
      ReadProperty(packetType, attrs, w + rest, left)
      == if !Multiple(id) && id in attrs then None
         else match Assign(packetType, attrs, id, v) case None => None case Some(after) => Some((after, |w|))
  {
    hide Digits, Undigits, ReadValue, WriteValue, Assign, TypeOf;
    var w := WriteProperty(id, v).value;
    var t := TypeOf(id).value;
    var x := WriteValue(t, v).value;
    assert w + rest == Digits(id) + (x + rest);
    UndigitsOfDigits(id, x + rest);
    assert (w + rest)[|Digits(id)|..] == x + rest;
    ValueBack(t, v, rest, left - |Digits(id)|);
  }

  lemma AssignKeeps(packetType: nat, attrs: Attrs, id: nat, v: Value)
    requires ValidSet(packetType, attrs) && Assign(packetType, attrs, id, v).Some?
    requires WriteProperty(id, v).Some? && CleanValue(v)
    ensures ValidSet(packetType, Assign(packetType, attrs, id, v).value)
  {
    hide WriteProperty, Applies, TypeOf, Checked, CleanValue;
    var after := Assign(packetType, attrs, id, v).value;
    assert ValidValue(id, v);
    if id in attrs {
      assert ValidAttr(packetType, id, attrs[id]);
    }
    assert ValidAttr(packetType, id, after[id]);
    forall k | k in after ensures ValidAttr(packetType, k, after[k]) {
      if k != id {
        assert k in attrs && after[k] == attrs[k];
      }
    }
  }

  lemma ReadPropertyKeeps(packetType: nat, attrs: Attrs, b: seq<Byte>, left: int)
    requires ValidSet(packetType, attrs) && ReadProperty(packetType, attrs, b, left).Some?
    ensures ValidSet(packetType, ReadProperty(packetType, attrs, b, left).value.0)
  {
    hide Digits, Undigits, ReadValue, WriteValue, ValidSet, Applies;
    var (id, n) := Undigits(b).value;
    var t := TypeOf(id).value;
    var (v, used) := ReadValue(t, b[n..], left - n).value;
    ReadValid(t, b[n..], left - n);
    assert WriteProperty(id, v).Some?;
    hide WriteProperty, Assign;
    AssignKeeps(packetType, attrs, id, v);
  }

  /** Whatever unpacking leaves in the set is valid, even where it fails. */
  lemma {:induction false} ReadAllKeeps(packetType: nat, attrs: Attrs, b: seq<Byte>, left: int)
    requires ValidSet(packetType, attrs)
    ensures ValidSet(packetType, ReadAll(packetType, attrs, b, left).attrs)
    decreases left
  {
    hide ValidSet, ReadProperty;
    if left > 0 && ReadProperty(packetType, attrs, b, left).Some? {
      var (after, used) := ReadProperty(packetType, attrs, b, left).value;
      ReadPropertyKeeps(packetType, attrs, b, left);
      ReadAllKeeps(packetType, after, Drop(b, used), left - used);
    }
  }

  lemma UnpackValid(packetType: nat, b: seq<Byte>)
    ensures ValidSet(packetType, Unpack(packetType, b).0)
  {
    if Undigits(b).Some? {
      var (len, n) := Undigits(b).value;
      ReadAllKeeps(packetType, map[], b[n..], len);
    }
  }

  // ---------- sequences of properties ----------

  type Item = (nat, Value)

  ghost predicate ValidItems(packetType: nat, items: seq<Item>) {
    forall i :: 0 <= i < |items| ==> ValidItem(packetType, items[i])
  }

  ghost predicate ValidItem(packetType: nat, item: Item) {
    TypeOf(item.0).Some? && Applies(item.0, packetType) && ValidValue(item.0, item.1)
  }

  /** The properties one after the other, in any order. */
  function WriteItems(items: seq<Item>): Option<seq<Byte>> {
    if items == [] then Some([]) else Join(WriteProperty(items[0].0, items[0].1), WriteItems(items[1..]))
  }

  /** The values given for one property, in order. */
  function ValuesOf(items: seq<Item>, id: nat): seq<Value> {
    if items == [] then [] else (if items[0].0 == id then [items[0].1] else []) + ValuesOf(items[1..], id)
  }

  /** No property that allows one value has more. */
  ghost predicate Fits(attrs: Attrs, items: seq<Item>) {
    forall id :: !Multiple(id) ==> |Held(attrs, id)| + |ValuesOf(items, id)| <= 1
  }

  ghost predicate Extended(attrs: Attrs, items: seq<Item>, after: Attrs) {
    forall id :: Held(after, id) == Held(attrs, id) + ValuesOf(items, id)
  }

  lemma AssignAdds(packetType: nat, attrs: Attrs, item: Item)
    requires ValidSet(packetType, attrs) && ValidItem(packetType, item)
    requires !Multiple(item.0) ==> item.0 !in attrs
    ensures Assign(packetType, attrs, item.0, item.1).Some?
    ensures Extended(attrs, [item], Assign(packetType, attrs, item.0, item.1).value)
  {
    hide WriteProperty, Applies, TypeOf, Checked, CleanValue;
    if item.0 in attrs {
      assert ValidAttr(packetType, item.0, attrs[item.0]);
    }
    var after := Assign(packetType, attrs, item.0, item.1).value;
    forall id ensures Held(after, id) == Held(attrs, id) + ValuesOf([item], id) {
      assert ValuesOf([item][1..], id) == [];
    }
  }

  lemma HeldOnce(packetType: nat, attrs: Attrs, id: nat)
    requires ValidSet(packetType, attrs)
    ensures Held(attrs, id) == [] <==> id !in attrs
    ensures !Multiple(id) ==> |Held(attrs, id)| <= 1
  {
    if id in attrs {
      assert ValidAttr(packetType, id, attrs[id]);
    }
  }

  lemma ValuesOfOne(item: Item, id: nat)
    ensures ValuesOf([item], id) == if item.0 == id then [item.1] else []
  {
    assert ValuesOf([item][1..], id) == [];
  }

  lemma HeldAfter(attrs: Attrs, item: Item, after: Attrs, id: nat)
    requires Extended(attrs, [item], after)
    ensures Held(after, id) == Held(attrs, id) + ValuesOf([item], id)
  {
  }

  lemma StepAt(attrs: Attrs, items: seq<Item>, after: Attrs, id: nat)
    requires items != [] && Extended(attrs, [items[0]], after)
    ensures Held(after, id) + ValuesOf(items[1..], id) == Held(attrs, id) + ValuesOf(items, id)
    ensures |Held(after, id)| + |ValuesOf(items[1..], id)| == |Held(attrs, id)| + |ValuesOf(items, id)|
  {
    hide Held, Extended;
    assert ValuesOf(items, id) == (if items[0].0 == id then [items[0].1] else []) + ValuesOf(items[1..], id);
    hide ValuesOf;
    HeldAfter(attrs, items[0], after, id);
    ValuesOfOne(items[0], id);
    Regrouped(Held(attrs, id), ValuesOf([items[0]], id), ValuesOf(items[1..], id));
  }

  lemma Regrouped<T>(a: seq<T>, b: seq<T>, c: seq<T>)
    ensures a + b + c == a + (b + c)
  {
  }

  lemma ItemsStep(attrs: Attrs, items: seq<Item>, after: Attrs, end: Attrs)
    requires items != [] && Extended(attrs, [items[0]], after)
    ensures Fits(after, items[1..]) <==> Fits(attrs, items)
    ensures Extended(after, items[1..], end) ==> Extended(attrs, items, end)
  {
    hide Held, ValuesOf;
    forall id ensures Held(after, id) + ValuesOf(items[1..], id) == Held(attrs, id) + ValuesOf(items, id)
      ensures |Held(after, id)| + |ValuesOf(items[1..], id)| == |Held(attrs, id)| + |ValuesOf(items, id)|
    {
      StepAt(attrs, items, after, id);
    }
  }

  lemma ItemsNone(packetType: nat, attrs: Attrs)
    requires ValidSet(packetType, attrs)
    ensures Fits(attrs, []) && Extended(attrs, [], attrs)
  {
    hide ValidSet;
    forall id ensures |Held(attrs, id)| + |ValuesOf([], id)| <= 1 || Multiple(id) {
      HeldOnce(packetType, attrs, id);
    }
  }

  lemma Clash(packetType: nat, attrs: Attrs, items: seq<Item>)
    requires ValidSet(packetType, attrs) && items != [] && !Multiple(items[0].0) && items[0].0 in attrs
    ensures !Fits(attrs, items)
  {
    HeldOnce(packetType, attrs, items[0].0);
    assert |ValuesOf(items, items[0].0)| >= 1;
  }

  lemma FirstItem(packetType: nat, attrs: Attrs, items: seq<Item>, rest: seq<Byte>)
      returns (x: seq<Byte>, y: seq<Byte>)
    requires items != [] && ValidItem(packetType, items[0]) && WriteItems(items).Some?
    ensures x != [] && WriteItems(items[1..]) == Some(y) && WriteItems(items).value == x + y
    ensures !Multiple(items[0].0) && items[0].0 in attrs ==>
      ReadAll(packetType, attrs, x + y + rest, |x + y|) == Reading(attrs, false)
    ensures Multiple(items[0].0) || items[0].0 !in attrs ==> Assign(packetType, attrs, items[0].0, items[0].1).Some? ==>
      ReadAll(packetType, attrs, x + y + rest, |x + y|)
      == ReadAll(packetType, Assign(packetType, attrs, items[0].0, items[0].1).value, y + rest, |y|)
  {
    var (id, v) := items[0];
    Written(id, v);
    x, y := WriteProperty(id, v).value, WriteItems(items[1..]).value;
    hide Assign, ReadProperty, WriteProperty, ValidValue, ReadAll, TypeOf, Applies, CleanValue, WriteItems;
    Follows(x, y, rest);
    PropertyBack(packetType, attrs, id, v, y + rest, |x + y|);
    ReadAllStep(packetType, attrs, x + y + rest, |x + y|);
  }

  lemma Follows(x: seq<Byte>, y: seq<Byte>, rest: seq<Byte>)
    ensures x + y + rest == x + (y + rest) && Drop(x + y + rest, |x|) == y + rest
  {
  }

  lemma ReadAllStep(packetType: nat, attrs: Attrs, b: seq<Byte>, left: int)
    requires left > 0
    ensures ReadAll(packetType, attrs, b, left) == match ReadProperty(packetType, attrs, b, left)
      case None => Reading(attrs, false)
      case Some((after, used)) => ReadAll(packetType, after, Drop(b, used), left - used)
  {
  }

  lemma ItemsEnd(packetType: nat, attrs: Attrs, rest: seq<Byte>)
    requires ValidSet(packetType, attrs)
    ensures Fits(attrs, []) && Extended(attrs, [], attrs)
    ensures WriteItems([]) == Some([]) && ReadAll(packetType, attrs, [] + rest, 0) == Reading(attrs, true)
  {
    ItemsNone(packetType, attrs);
  }

  /** Reading back a sequence of properties fails exactly when one of them comes twice that may
      not, and otherwise adds each property's values in their order. */
  lemma {:induction false} ItemsBack(packetType: nat, attrs: Attrs, items: seq<Item>, rest: seq<Byte>)
    requires ValidSet(packetType, attrs) && ValidItems(packetType, items) && WriteItems(items).Some?
    ensures var r := ReadAll(packetType, attrs, WriteItems(items).value + rest, |WriteItems(items).value|);
      && (r.ok <==> Fits(attrs, items))
      && (r.ok ==> Extended(attrs, items, r.attrs))
    decreases |items|
  {
    hide ValidSet, Fits, Extended, Assign, WriteProperty, ValidValue, ReadAll, WriteItems;
    if items == [] {
      ItemsEnd(packetType, attrs, rest);
    } else {
      assert ValidItem(packetType, items[0]);
      var x, y := FirstItem(packetType, attrs, items, rest);
      if !Multiple(items[0].0) && items[0].0 in attrs {
        Clash(packetType, attrs, items);
      } else {
        Written(items[0].0, items[0].1);
        AssignAdds(packetType, attrs, items[0]);
        AssignKeeps(packetType, attrs, items[0].0, items[0].1);
        var after := Assign(packetType, attrs, items[0].0, items[0].1).value;
        ItemsBack(packetType, after, items[1..], rest);
        ItemsStep(attrs, items, after, ReadAll(packetType, after, y + rest, |y|).attrs);
      }
    }
  }

  lemma Written(id: nat, v: Value)
    requires ValidValue(id, v)
    ensures CleanValue(v) && WriteProperty(id, v).Some? && WriteProperty(id, v).value != []
  {
  }

  // ---------- a set as a sequence of properties ----------

  function ItemsOf(id: nat, vs: seq<Value>): seq<Item> {
    if vs == [] then [] else [(id, vs[0])] + ItemsOf(id, vs[1..])
  }

  function Flatten(attrs: Attrs, ids: seq<nat>): seq<Item> {
    if ids == [] then [] else ItemsOf(ids[0], Held(attrs, ids[0])) + Flatten(attrs, ids[1..])
  }

  lemma {:induction false} WriteConcat(a: seq<Item>, b: seq<Item>)
    ensures WriteItems(a + b) == Join(WriteItems(a), WriteItems(b))
  {
    hide WriteProperty;
    if a == [] {
      assert a + b == b;
      if WriteItems(b).Some? {
        assert [] + WriteItems(b).value == WriteItems(b).value;
      }
    } else {
      assert (a + b)[0] == a[0] && (a + b)[1..] == a[1..] + b;
      WriteConcat(a[1..], b);
      JoinJoin(WriteProperty(a[0].0, a[0].1), WriteItems(a[1..]), WriteItems(b));
    }
  }

  lemma JoinJoin(a: Option<seq<Byte>>, b: Option<seq<Byte>>, c: Option<seq<Byte>>)
    ensures Join(a, Join(b, c)) == Join(Join(a, b), c)
  {
    if a.Some? && b.Some? && c.Some? {
      assert a.value + (b.value + c.value) == (a.value + b.value) + c.value;
    }
  }

  lemma {:induction false} WriteItemsOf(id: nat, vs: seq<Value>)
    ensures WriteItems(ItemsOf(id, vs)) == WriteList(id, vs)
  {
    hide WriteProperty;
    if vs != [] {
      WriteItemsOf(id, vs[1..]);
      assert ItemsOf(id, vs)[1..] == ItemsOf(id, vs[1..]);
    }
  }

  lemma WriteOne(id: nat, v: Value)
    ensures WriteList(id, [v]) == WriteProperty(id, v)
  {
    hide WriteProperty;
    assert WriteList(id, [v][1..]) == Some([]);
    if WriteProperty(id, v).Some? {
      assert WriteProperty(id, v).value + [] == WriteProperty(id, v).value;
    }
  }

  lemma {:induction false} FlattenWrites(packetType: nat, attrs: Attrs, ids: seq<nat>)
    requires ValidSet(packetType, attrs)
    ensures WriteIds(attrs, ids) == WriteItems(Flatten(attrs, ids))
  {
    hide WriteProperty, ValidSet, WriteItems;
    if ids == [] {
      NothingWritten();
    } else {
      var id := ids[0];
      FlattenWrites(packetType, attrs, ids[1..]);
      WriteConcat(ItemsOf(id, Held(attrs, id)), Flatten(attrs, ids[1..]));
      WriteItemsOf(id, Held(attrs, id));
      if id in attrs {
        Arity(packetType, attrs, id);
        if attrs[id].One? {
          WriteOne(id, attrs[id].v);
        }
      } else if WriteItems(Flatten(attrs, ids[1..])).Some? {
        assert [] + WriteItems(Flatten(attrs, ids[1..])).value == WriteItems(Flatten(attrs, ids[1..])).value;
      }
    }
  }

  lemma NothingWritten()
    ensures WriteItems([]) == Some([])
  {
  }

  lemma Arity(packetType: nat, attrs: Attrs, id: nat)
    requires ValidSet(packetType, attrs) && id in attrs
    ensures attrs[id].Many? <==> Multiple(id)
    ensures TypeOf(id).Some?
  {
    assert ValidAttr(packetType, id, attrs[id]);
  }

  lemma ValuesOfFirst(items: seq<Item>, id: nat)
    requires items != []
    ensures ValuesOf(items, id) == (if items[0].0 == id then [items[0].1] else []) + ValuesOf(items[1..], id)
  {
  }

  lemma {:induction false} ValuesConcat(a: seq<Item>, b: seq<Item>, id: nat)
    ensures ValuesOf(a + b, id) == ValuesOf(a, id) + ValuesOf(b, id)
  {
    if a == [] {
      assert a + b == b;
    } else {
      hide ValuesOf;
      assert (a + b)[0] == a[0] && (a + b)[1..] == a[1..] + b;
      ValuesConcat(a[1..], b, id);
      ValuesOfFirst(a, id);
      ValuesOfFirst(a + b, id);
    }
  }

  lemma {:induction false} ValuesOfItems(id: nat, vs: seq<Value>, other: nat)
    ensures ValuesOf(ItemsOf(id, vs), other) == if id == other then vs else []
  {
    if vs != [] {
      ValuesOfItems(id, vs[1..], other);
      assert ItemsOf(id, vs)[1..] == ItemsOf(id, vs[1..]);
    }
  }

  ghost predicate Ascending(ids: seq<nat>) {
    forall i, j :: 0 <= i < j < |ids| ==> ids[i] < ids[j]
  }

  lemma {:induction false} FlattenValues(attrs: Attrs, ids: seq<nat>, id: nat)
    requires Ascending(ids)
    ensures ValuesOf(Flatten(attrs, ids), id) == if id in ids then Held(attrs, id) else []
  {
    hide Held, ValuesOf;
    if ids == [] {
      ValuesOfItems(id, [], id);
    } else {
      var more := Flatten(attrs, ids[1..]);
      ValuesConcat(ItemsOf(ids[0], Held(attrs, ids[0])), more, id);
      ValuesOfItems(ids[0], Held(attrs, ids[0]), id);
      FlattenValues(attrs, ids[1..], id);
      assert id in ids <==> id == ids[0] || id in ids[1..];
      assert ids[0] !in ids[1..];
    }
  }

  lemma IdAt(id: nat, k: nat)
    requires k < 27 && Ids()[k] == id
    ensures id in Ids()
  {
  }

  lemma KnownId(id: nat)
    requires TypeOf(id).Some?
    ensures id in Ids()
  {
    var k := if id <= 3 then id - 1 else if id <= 9 then id - 5 else if id == 11 then 5
             else if id <= 19 then id - 11 else if id <= 26 then id - 12 else if id == 28 then 15
             else if id == 31 then 16 else id - 16;
    IdAt(id, k);
  }

  lemma AllIds()
    ensures Ascending(Ids())
    ensures forall id :: TypeOf(id).Some? ==> id in Ids()
  {
    InOrder();
    hide TypeOf, Ids, Ascending;
    forall id | TypeOf(id).Some? ensures id in Ids() {
      KnownId(id);
    }
  }

  lemma InOrder()
    ensures Ascending(Ids())
  {
  }

  lemma {:induction false} ItemsOfValid(packetType: nat, id: nat, vs: seq<Value>)
    requires forall v :: v in vs ==> ValidItem(packetType, (id, v))
    ensures ValidItems(packetType, ItemsOf(id, vs))
  {
    if vs != [] {
      assert vs[0] in vs;
      ItemsOfValid(packetType, id, vs[1..]);
    }
  }

  lemma {:induction false} FlattenValid(packetType: nat, attrs: Attrs, ids: seq<nat>)
    requires ValidSet(packetType, attrs)
    ensures ValidItems(packetType, Flatten(attrs, ids))
  {
    if ids != [] {
      FlattenValid(packetType, attrs, ids[1..]);
      forall v | v in Held(attrs, ids[0]) ensures ValidItem(packetType, (ids[0], v)) {
        assert ValidAttr(packetType, ids[0], attrs[ids[0]]);
      }
      ItemsOfValid(packetType, ids[0], Held(attrs, ids[0]));
    }
  }

  /** A set holds its properties in canonical order. */
  lemma FlattenHeld(packetType: nat, attrs: Attrs)
    requires ValidSet(packetType, attrs)
    ensures forall id :: ValuesOf(Flatten(attrs, Ids()), id) == Held(attrs, id)
  {
    AllIds();
    hide Ids, ValidSet, TypeOf;
    forall id ensures ValuesOf(Flatten(attrs, Ids()), id) == Held(attrs, id) {
      FlattenValues(attrs, Ids(), id);
      if id in attrs {
        Arity(packetType, attrs, id);
      }
    }
  }

  lemma SameHeld(packetType: nat, a: Attrs, b: Attrs)
    requires ValidSet(packetType, a) && ValidSet(packetType, b)
    requires forall id :: Held(a, id) == Held(b, id)
    ensures a == b
  {
    hide Applies, TypeOf, ValidValue;
    forall id ensures id in a <==> id in b {
      HeldOnce(packetType, a, id);
      HeldOnce(packetType, b, id);
    }
    forall id | id in a ensures a[id] == b[id] {
      assert ValidAttr(packetType, id, a[id]) && ValidAttr(packetType, id, b[id]);
      assert Held(a, id) == Held(b, id);
    }
  }

  // ---------- the theorems ----------

  /** However the properties of a valid set are ordered in the buffer, and whatever follows them,
      unpacking gives the same set and consumes exactly the counted bytes. */
  lemma AnyOrder(packetType: nat, attrs: Attrs, items: seq<Item>, rest: seq<Byte>)
    requires ValidSet(packetType, attrs) && ValidItems(packetType, items)
    requires forall id :: ValuesOf(items, id) == Held(attrs, id)
    requires Counted(WriteItems(items)).Some?
    ensures var packed := Counted(WriteItems(items)).value;
      Unpack(packetType, packed + rest) == (attrs, Some(|packed|))
  {
    hide ValidSet, Digits, Undigits, ReadAll, WriteItems, ValuesOf;
    var w := WriteItems(items).value;
    var packed := Counted(WriteItems(items)).value;
    assert packed + rest == Digits(|w|) + (w + rest);
    UndigitsOfDigits(|w|, w + rest);
    assert (packed + rest)[|Digits(|w|)|..] == w + rest;
    EmptyValid(packetType);
    ItemsBack(packetType, map[], items, rest);
    OnceEach(packetType, attrs, items);
    var r := ReadAll(packetType, map[], w + rest, |w|);
    ReadAllKeeps(packetType, map[], w + rest, |w|);
    forall id ensures Held(r.attrs, id) == Held(attrs, id) {
      assert Held(map[], id) == [];
    }
    SameHeld(packetType, r.attrs, attrs);
  }

  lemma EmptyValid(packetType: nat)
    ensures ValidSet(packetType, map[])
  {
  }

  lemma OnceEach(packetType: nat, attrs: Attrs, items: seq<Item>)
    requires ValidSet(packetType, attrs) && forall id :: ValuesOf(items, id) == Held(attrs, id)
    ensures Fits(map[], items)
  {
    hide ValidSet, ValuesOf;
    forall id | !Multiple(id) ensures |Held(map[], id)| + |ValuesOf(items, id)| <= 1 {
      HeldOnce(packetType, attrs, id);
      assert Held(map[], id) == [];
    }
  }

  /** A set that can be packed is restored by unpacking, byte for byte and whatever follows,
      exactly when it is valid. */
  lemma RoundTripExactly(packetType: nat, attrs: Attrs, rest: seq<Byte>)
    requires Pack(attrs).Some?
    ensures Unpack(packetType, Pack(attrs).value + rest) == (attrs, Some(|Pack(attrs).value|))
       <==> ValidSet(packetType, attrs)
  {
    hide ValidSet, ValuesOf, ValidItems, Unpack, WriteItems, WriteIds, Ids;
    UnpackValid(packetType, Pack(attrs).value + rest);
    if ValidSet(packetType, attrs) {
      var items := Flatten(attrs, Ids());
      FlattenWrites(packetType, attrs, Ids());
      FlattenValid(packetType, attrs, Ids());
      FlattenHeld(packetType, attrs);
      AnyOrder(packetType, attrs, items, rest);
    }
  }

  // ---------- what unpacking leaves can be packed again ----------

  /** The bytes of a buffer that a reading of `used` bytes finds there. */
  function Present(b: seq<Byte>, used: nat): nat {
    |b| - |Drop(b, used)|
  }

  lemma TextSize(b: seq<Byte>, maxlen: int)
    requires ReadText(b, maxlen).Some? && WriteText(ReadText(b, maxlen).value.0).Some?
    ensures |WriteText(ReadText(b, maxlen).value.0).value| <= Present(b, ReadText(b, maxlen).value.1)
  {
    hide Utf8.Encode, Utf8.Decode, U16, Clean;
    var n := ReadU16(b).value;
    Utf8.EncodeOfDecode(Slice(b, 2, 2 + n));
  }

  lemma NumberSize(b: seq<Byte>)
    requires Undigits(b).Some?
    ensures |Digits(Undigits(b).value.0)| <= Undigits(b).value.1 <= |b|
  {
    DigitsMinimal(b);
    hide Digits, Undigits;
  }

  /** A value read is written with no more bytes than the buffer had for it. */
  lemma ValueSize(t: PropertyType, b: seq<Byte>, maxlen: int)
    requires ReadValue(t, b, maxlen).Some? && WriteValue(t, ReadValue(t, b, maxlen).value.0).Some?
    ensures |WriteValue(t, ReadValue(t, b, maxlen).value.0).value| <= Present(b, ReadValue(t, b, maxlen).value.1)
  {
    hide ReadText, WriteText, Digits, Undigits;
    match t
    case VariableByteInteger => NumberSize(b);
    case Utf8String => TextSize(b, maxlen);
    case Utf8StringPair =>
      var used := ReadText(b, maxlen).value.1;
      TextSize(b, maxlen);
      TextSize(Drop(b, used), maxlen - used);
      DropTwice(b, used, ReadText(Drop(b, used), maxlen - used).value.1);
    case _ =>
  }

  lemma DropTwice(b: seq<Byte>, m: nat, n: nat)
    ensures Drop(Drop(b, m), n) == Drop(b, m + n)
  {
  }

  lemma PropertySize(packetType: nat, attrs: Attrs, b: seq<Byte>, left: int) returns (id: nat, v: Value)
    requires ReadProperty(packetType, attrs, b, left).Some?
    ensures var (after, used) := ReadProperty(packetType, attrs, b, left).value;
      && (!Multiple(id) ==> id !in attrs) && Assign(packetType, attrs, id, v) == Some(after)
      && CleanValue(v) && WriteProperty(id, v).Some? && |WriteProperty(id, v).value| <= Present(b, used)
  {
    hide Digits, Undigits, ReadValue, WriteValue, Applies, CleanValue;
    var (i, n) := Undigits(b).value;
    var t := TypeOf(i).value;
    var (x, used) := ReadValue(t, b[n..], left - n).value;
    id, v := i, x;
    ReadValid(t, b[n..], left - n);
    NumberSize(b);
    assert WriteProperty(id, v).Some?;
    ValueSize(t, b[n..], left - n);
    assert Drop(b, n) == b[n..];
    DropTwice(b, n, used);
  }

  lemma {:induction false} ListSnoc(id: nat, vs: seq<Value>, v: Value)
    ensures WriteList(id, vs + [v]) == Join(WriteList(id, vs), WriteProperty(id, v))
  {
    hide WriteProperty;
    if vs == [] {
      assert vs + [v] == [v];
      WriteOne(id, v);
      if WriteProperty(id, v).Some? {
        assert [] + WriteProperty(id, v).value == WriteProperty(id, v).value;
      }
    } else {
      ListSnoc(id, vs[1..], v);
      assert (vs + [v])[1..] == vs[1..] + [v];
      JoinJoin(WriteProperty(id, vs[0]), WriteList(id, vs[1..]), WriteProperty(id, v));
    }
  }

  lemma AttrGrows(packetType: nat, attrs: Attrs, id: nat, v: Value, after: Attrs)
    requires ValidSet(packetType, attrs) && (!Multiple(id) ==> id !in attrs)
    requires Assign(packetType, attrs, id, v) == Some(after)
    ensures id in after && after == attrs[id := after[id]]
    ensures WriteAttr(id, after[id])
      == if id in attrs then Join(WriteAttr(id, attrs[id]), WriteProperty(id, v)) else WriteProperty(id, v)
  {
    hide WriteProperty, Applies, TypeOf, Checked;
    if id in attrs {
      Arity(packetType, attrs, id);
      ListSnoc(id, attrs[id].vs, v);
    } else if Multiple(id) {
      WriteOne(id, v);
    }
  }

  lemma {:induction false} SizeGrows(attrs: Attrs, id: nat, v: Value, after: Attrs, ids: seq<nat>)
    requires Ascending(ids) && id in after && after == attrs[id := after[id]] && WriteProperty(id, v).Some?
    requires WriteAttr(id, after[id])
      == if id in attrs then Join(WriteAttr(id, attrs[id]), WriteProperty(id, v)) else WriteProperty(id, v)
    requires WriteIds(attrs, ids).Some?
    ensures WriteIds(after, ids).Some?
    ensures |WriteIds(after, ids).value|
      == |WriteIds(attrs, ids).value| + if id in ids then |WriteProperty(id, v).value| else 0
  {
    hide WriteProperty, WriteAttr;
    if ids != [] {
      SizeGrows(attrs, id, v, after, ids[1..]);
      assert id in ids <==> id == ids[0] || id in ids[1..];
      assert ids[0] !in ids[1..];
    }
  }

  /** What is left in the set takes no more bytes than it had before and the buffer had besides. */
  lemma {:induction false} ReadAllSize(packetType: nat, attrs: Attrs, b: seq<Byte>, left: int)
    requires ValidSet(packetType, attrs) && WriteIds(attrs, Ids()).Some?
    ensures var after := ReadAll(packetType, attrs, b, left).attrs;
      WriteIds(after, Ids()).Some? && |WriteIds(after, Ids()).value| <= |WriteIds(attrs, Ids()).value| + |b|
    decreases left
  {
    hide ValidSet, ReadProperty, Ids, WriteIds, Assign, Ascending, WriteProperty, WriteAttr;
    if left > 0 && ReadProperty(packetType, attrs, b, left).Some? {
      var (after, used) := ReadProperty(packetType, attrs, b, left).value;
      var id, v := PropertySize(packetType, attrs, b, left);
      AttrGrows(packetType, attrs, id, v, after);
      InOrder();
      SizeGrows(attrs, id, v, after, Ids());
      ReadPropertyKeeps(packetType, attrs, b, left);
      ReadAllSize(packetType, after, Drop(b, used), left - used);
    }
  }

  lemma UnpackSize(packetType: nat, b: seq<Byte>)
    ensures var w := WriteIds(Unpack(packetType, b).0, Ids()); w.Some? && (w.value == [] || |w.value| < |b|)
  {
    hide Ids, ReadAll, Undigits;
    EmptyWrites(Ids());
    EmptyValid(packetType);
    if Undigits(b).Some? {
      var (len, n) := Undigits(b).value;
      NumberSize(b);
      ReadAllSize(packetType, map[], b[n..], len);
    }
  }

  lemma {:induction false} EmptyWrites(ids: seq<nat>)
    ensures WriteIds(map[], ids) == Some([])
  {
    if ids != [] {
      EmptyWrites(ids[1..]);
    }
  }

  /** Whatever buffer was unpacked, and even where that failed: what it left in the set packs again, to at
      most three bytes more than the buffer had, unless the buffer is longer than any property set; and
      the packed set is stable, it unpacks to the same set and packs to the same bytes again. */
  lemma PackNormalises(packetType: nat, b: seq<Byte>, rest: seq<Byte>)
    ensures var attrs := Unpack(packetType, b).0;
      && (|b| <= MAX_VARINT ==> Pack(attrs).Some? && |Pack(attrs).value| <= |b| + 3)
      && (Pack(attrs).Some? ==>
           var again := Unpack(packetType, Pack(attrs).value + rest);
           again == (attrs, Some(|Pack(attrs).value|)) && Pack(again.0) == Pack(attrs))
  {
    hide Unpack, WriteIds, Ids, Digits;
    var attrs := Unpack(packetType, b).0;
    UnpackSize(packetType, b);
    DigitsLength(|WriteIds(attrs, Ids()).value|);
    UnpackValid(packetType, b);
    if Pack(attrs).Some? {
      hide Pack;
      RoundTripExactly(packetType, attrs, rest);
    }
  }

  // ---------- lists assigned as a whole ----------

  /** A list assigned to an empty set, where no value is checked: it is restored exactly when it has a
      value and each of them is valid. */
  lemma ListRestoredExactly(packetType: nat, id: nat, vs: seq<Value>, rest: seq<Byte>)
    requires AssignList(packetType, map[], id, vs).Some? && Pack(AssignList(packetType, map[], id, vs).value).Some?
    ensures var attrs := AssignList(packetType, map[], id, vs).value;
      Unpack(packetType, Pack(attrs).value + rest) == (attrs, Some(|Pack(attrs).value|))
      <==> vs != [] && forall i :: 0 <= i < |vs| ==> ValidValue(id, vs[i])
  {
    hide Unpack, Pack, Applies, TypeOf, ValidValue;
    var attrs := AssignList(packetType, map[], id, vs).value;
    RoundTripExactly(packetType, attrs, rest);
    assert attrs == map[id := Many(vs)];
    PackedArity(attrs, id);
    assert ValidAttr(packetType, id, attrs[id]) <==> ValidSet(packetType, attrs);
  }

  lemma PackedArity(attrs: Attrs, id: nat)
    requires Pack(attrs).Some? && id in attrs && TypeOf(id).Some?
    ensures attrs[id].Many? <==> Multiple(id)
  {
    KnownId(id);
    hide Ids, TypeOf;
    WrittenAttr(attrs, Ids(), id);
  }

  lemma {:induction false} WrittenAttr(attrs: Attrs, ids: seq<nat>, id: nat)
    requires WriteIds(attrs, ids).Some? && id in ids && id in attrs
    ensures WriteAttr(id, attrs[id]).Some?
  {
    hide WriteAttr;
    if ids[0] != id {
      WrittenAttr(attrs, ids[1..], id);
    }
  }

  /** An empty list of user properties, and a subscription identifier of 0 in a list: both sets pack, and
      neither is restored. */
  lemma ListsLost(rest: seq<Byte>)
    ensures AssignList(8, map[], 38, []) == Some(map[38 := Many([])]) && Pack(map[38 := Many([])]).Some?
    ensures Unpack(8, Pack(map[38 := Many([])]).value + rest).0 != map[38 := Many([])]
    ensures AssignList(8, map[], 11, [Num(0)]) == Some(map[11 := Many([Num(0)])])
    ensures Pack(map[11 := Many([Num(0)])]).Some?
    ensures Unpack(8, Pack(map[11 := Many([Num(0)])]).value + rest).0 != map[11 := Many([Num(0)])]
  {
    ZeroWritten();
    NoneWritten();
    hide Unpack, WriteList, Pack, ValidSet;
    OnlyPacks(38, []);
    OnlyPacks(11, [Num(0)]);
    UnpackValid(8, Pack(map[38 := Many([])]).value + rest);
    UnpackValid(8, Pack(map[11 := Many([Num(0)])]).value + rest);
    NotValid(38, []);
    NotValid(11, [Num(0)]);
  }

  lemma NotValid(id: nat, vs: seq<Value>)
    requires vs == [] || !Checked(id, vs[0])
    ensures !ValidSet(8, map[id := Many(vs)])
  {
    hide Applies, TypeOf, Checked;
    var attrs: Attrs := map[id := Many(vs)];
    assert vs != [] ==> !ValidValue(id, attrs[id].vs[0]);
    assert !ValidAttr(8, id, attrs[id]);
  }

  lemma NoneWritten()
    ensures WriteList(38, []) == Some([])
  {
  }

  lemma ZeroWritten()
    ensures WriteList(11, [Num(0)]).Some? && |WriteList(11, [Num(0)]).value| <= 2
  {
    WriteOne(11, Num(0));
  }

  lemma OnlyPacks(id: nat, vs: seq<Value>)
    requires Multiple(id) && TypeOf(id).Some?
    requires WriteList(id, vs).Some? && |WriteList(id, vs).value| <= MAX_VARINT
    ensures Pack(map[id := Many(vs)]).Some?
  {
    AllIds();
    hide Ids, Ascending, TypeOf, WriteList;
    OnlyWrites(id, vs, Ids());
  }

  lemma {:induction false} OnlyWrites(id: nat, vs: seq<Value>, ids: seq<nat>)
    requires Multiple(id) && WriteList(id, vs).Some? && Ascending(ids)
    ensures WriteIds(map[id := Many(vs)], ids) == if id in ids then WriteList(id, vs) else Some([])
  {
    hide WriteList;
    if ids != [] {
      OnlyWrites(id, vs, ids[1..]);
      assert ids[0] !in ids[1..];
      if ids[0] == id {
        var w := WriteList(id, vs).value;
        assert w + [] == w;
      }
    }
  }

  /** A buffer that gives a single-valued property twice is refused. */
  lemma DuplicateRefused(packetType: nat, items: seq<Item>, rest: seq<Byte>, id: nat)
    requires ValidItems(packetType, items) && Counted(WriteItems(items)).Some?
    requires !Multiple(id) && |ValuesOf(items, id)| >= 2
    ensures Unpack(packetType, Counted(WriteItems(items)).value + rest).1 == None
  {
    hide ValidSet, Digits, Undigits, ReadAll, WriteItems, ValuesOf;
    var w := WriteItems(items).value;
    var packed := Counted(WriteItems(items)).value;
    assert packed + rest == Digits(|w|) + (w + rest);
    UndigitsOfDigits(|w|, w + rest);
    assert (packed + rest)[|Digits(|w|)|..] == w + rest;
    EmptyValid(packetType);
    ItemsBack(packetType, map[], items, rest);
  }
}
