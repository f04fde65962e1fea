/** The property set object: its attributes are assigned, packed and unpacked in place. */
module PropertySet {
  import opened Bytes
  import opened Options
  import opened PropertyCodec
  import opened PropertyLaws
  import VarInt

  class Properties {
    const packetType: nat
    var attrs: Attrs

    constructor (packetType: nat)
      ensures this.packetType == packetType && attrs == map[] && Valid()
    {
      this.packetType := packetType;
      attrs := map[];
    }

    /** Only known names are ever assigned. */
    ghost predicate Valid()
      reads this
    {
      forall id :: id in attrs ==> TypeOf(id).Some?
    }

    method Set(id: nat, v: Value) returns (ok: bool)
      requires Valid()
      modifies this
      ensures Valid() && ok == Assign(packetType, old(attrs), id, v).Some?
      ensures attrs == if ok then Assign(packetType, old(attrs), id, v).value else old(attrs)
    {
      if TypeOf(id) == None || !Applies(id, packetType) || !Checked(id, v) {
        return false;
      }
      if Multiple(id) {
        ok := Append(id, [v]);
      } else {
        attrs := attrs[id := One(v)];
        ok := true;
      }
    }

    method SetList(id: nat, vs: seq<Value>) returns (ok: bool)
      requires Valid()
      modifies this
      ensures Valid() && ok == AssignList(packetType, old(attrs), id, vs).Some?
      ensures attrs == if ok then AssignList(packetType, old(attrs), id, vs).value else old(attrs)
    {
      if TypeOf(id) == None || !Applies(id, packetType) {
        return false;
      }
      if Multiple(id) {
        ok := Append(id, vs);
      } else {
        attrs := attrs[id := Many(vs)];
        ok := true;
      }
    }

    /** New values go behind those already held. */
    method Append(id: nat, vs: seq<Value>) returns (ok: bool)
      requires Valid() && TypeOf(id).Some? && Applies(id, packetType) && Multiple(id)
      modifies this
      ensures Valid() && ok == AssignList(packetType, old(attrs), id, vs).Some?
      ensures attrs == if ok then AssignList(packetType, old(attrs), id, vs).value else old(attrs)
    {
      var value := vs;
      if id in attrs {
        if attrs[id].One? {
          return false;
        }
        value := attrs[id].vs + value;
      }
      attrs := attrs[id := Many(value)];
      ok := true;
    }

    method Clear()
      requires Valid()
      modifies this
      ensures attrs == map[] && Valid()
    {
      var ids := Ids();
      AllIds();
      hide Ids;
      for i := 0 to |ids|
        invariant forall id :: id in attrs ==> id in ids[i..]
        invariant Valid()
      {
        assert ids[i..] == [ids[i]] + ids[i + 1..];
        if ids[i] in attrs {
          attrs := attrs - {ids[i]};
        }
      }
    }

    method Pack() returns (r: Option<seq<Byte>>)
      ensures r == PropertyCodec.Pack(attrs)
    {
      hide WriteProperty, Ids;
      var buffer, ids := [], Ids();
      assert Join(Some([]), WriteIds(attrs, ids)) == WriteIds(attrs, ids) by {
        JoinEmpty(WriteIds(attrs, ids));
      }
      for i := 0 to |ids|
        invariant WriteIds(attrs, ids) == Join(Some(buffer), WriteIds(attrs, ids[i..]))
      {
        var id := ids[i];
        assert ids[i..][0] == id && ids[i..][1..] == ids[i + 1..];
        if id in attrs {
          var written := PackAttr(id, attrs[id]);
          JoinJoin(Some(buffer), written, WriteIds(attrs, ids[i + 1..]));
          if written == None {
            return None;
          }
          buffer := buffer + written.value;
        }
      }
      assert ids[|ids|..] == [];
      JoinEmpty(Some(buffer));
      if |buffer| > VarInt.MAX_VARINT {
        return None;
      }
      var count := VarInt.Encode(|buffer|);
      r := Some(count.value + buffer);
    }

    method PackAttr(id: nat, a: Attr) returns (r: Option<seq<Byte>>)
      ensures r == WriteAttr(id, a)
    {
      hide WriteProperty;
      match a
      case One(v) =>
        r := if Multiple(id) then None else WriteProperty(id, v);
      case Many(vs) =>
        if !Multiple(id) {
          return None;
        }
        var buffer := [];
        JoinEmpty(WriteList(id, vs));
        for i := 0 to |vs|
          invariant WriteList(id, vs) == Join(Some(buffer), WriteList(id, vs[i..]))
        {
          assert vs[i..][0] == vs[i] && vs[i..][1..] == vs[i + 1..];
          var w := WriteProperty(id, vs[i]);
          JoinJoin(Some(buffer), w, WriteList(id, vs[i + 1..]));
          if w == None {
            return None;
          }
          buffer := buffer + w.value;
        }
        assert vs[|vs|..] == [];
        JoinEmpty(Some(buffer));
        r := Some(buffer);
    }

    /** Read a property set from the front of a buffer: the bytes consumed, or None when the
        buffer is refused, which leaves the properties read so far. */
    method Unpack(b: seq<Byte>) returns (r: Option<nat>)
      requires Valid()
      modifies this
      ensures (attrs, r) == PropertyCodec.Unpack(packetType, b)
    {
      hide ReadAll, ReadProperty, VarInt.Undigits;
      Clear();
      var length := VarInt.Decode(b);
      if length == None {
        return None;
      }
      var (propsLen, lengthBytes) := length.value;
      var buffer, left: int := b[lengthBytes..], propsLen;
      while left > 0
        invariant Valid()
        invariant ReadAll(packetType, map[], b[lengthBytes..], propsLen) == ReadAll(packetType, attrs, buffer, left)
        decreases left
      {
        ReadAllStep(packetType, attrs, buffer, left);
        var used := Turn(buffer, left);
        if used == None {
          return None;
        }
        buffer, left := Drop(buffer, used.value), left - used.value;
      }
      ReadAllEnd(packetType, attrs, buffer, left);
      r := Some(propsLen + lengthBytes);
    }

    /** Read one property into the set: the bytes it takes, or None and nothing changes. */
    method Turn(b: seq<Byte>, left: int) returns (used: Option<nat>)
      requires Valid()
      modifies this
      ensures Valid()
      ensures match ReadProperty(packetType, old(attrs), b, left)
        case None => used == None && attrs == old(attrs)
        case Some((after, n)) => used == Some(n) && attrs == after
    {
      hide VarInt.Undigits, ReadValue, Assign, TypeOf;
      var first := VarInt.Decode(b);
      if first == None {
        return None;
      }
      var (id, n) := first.value;
      if TypeOf(id) == None {
        return None;
      }
      var value := ReadValue(TypeOf(id).value, b[n..], left - n);
      if value == None || (!Multiple(id) && id in attrs) {
        return None;
      }
      var ok := Set(id, value.value.0);
      if !ok {
        return None;
      }
      used := Some(n + value.value.1);
    }
  }

  lemma ReadAllEnd(packetType: nat, attrs: Attrs, b: seq<Byte>, left: int)
    requires left <= 0
    ensures ReadAll(packetType, attrs, b, left) == Reading(attrs, true)
  {
  }

  lemma JoinEmpty(b: Option<seq<Byte>>)
    ensures Join(Some([]), b) == b && Join(b, Some([])) == b
  {
    if b.Some? {
      assert [] + b.value == b.value && b.value + [] == b.value;
    }
  }
}
