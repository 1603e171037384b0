/** GenericeStructParser.kt: `GenericStructParser.unpack`, which reads the
    fields a schema lists from a `ByteBuffer`, in schema order, in the byte
    order the schema names, into a map from field name to value. */
module GenericStructParser {
  import opened Wrappers
  import opened Bytes
  import opened Text
  import opened Values

  /** One schema field; `fieldType` is the configuration's `type`. */
  datatype StructField = StructField(name: string, fieldType: string)

  datatype StructParserConfig = StructParserConfig(endianness: string, fields: seq<StructField>)

  /** `IllegalArgumentException` for an unknown type, and the `ByteBuffer`
      underflow a field cut short by the end of the input raises. */
  datatype UnpackError = UnsupportedType(fieldType: string, name: string) | BufferUnderflow

  /** Little-endian exactly when the schema says "LITTLE_ENDIAN" in any case. */
  function OrderOf(endianness: string): (r: ByteOrder)
    ensures r == LittleEndian <==> EqualsIgnoreCase(endianness, "LITTLE_ENDIAN")
  {
    if EqualsIgnoreCase(endianness, "LITTLE_ENDIAN") then LittleEndian else BigEndian
  }

  /** The types `unpack` knows, and any other type name. */
  datatype FieldKind = Byte | UShort | Short | Int | UInt | Long | Float | Double | Unsupported

  /** The type names of the `when (field.type)` dispatch, in its order. */
  const FIELD_TYPES: seq<(string, FieldKind)> := [
    ("byte", Byte), ("ushort", UShort), ("short", Short), ("int", Int),
    ("uint", UInt), ("long", Long), ("float", Float), ("double", Double)
  ]

  /** The `when (field.type)` dispatch: exact, case-sensitive names. */
  function KindOf(t: string): FieldKind {
    Lookup(t, FIELD_TYPES).GetOr(Unsupported)
  }

  predicate IsInteger(k: FieldKind) {
    k in {Byte, UShort, Short, Int, UInt, Long}
  }

  /** The bytes a `ByteBuffer` read of the type consumes. */
  function Width(k: FieldKind): (r: Option<nat>)
    ensures r.Some? <==> k != Unsupported
    ensures r.Some? ==> r.value in {1, 2, 4, 8}
  {
    match k
    case Byte => Some(1)
    case UShort | Short => Some(2)
    case Int | UInt | Float => Some(4)
    case Long | Double => Some(8)
    case Unsupported => None
  }

  /** The value of one field read from exactly its bytes: signed types by two's
      complement, `ushort`/`uint` by masking the signed read (`and 0xFFFF`,
      `and 0xFFFFFFFF`), floating-point types as their bit patterns. */
  function DecodeField(k: FieldKind, bs: seq<byte>, order: ByteOrder): (v: Value)
    requires Width(k) == Some(|bs|)
    ensures k == Byte ==> v.Num? && -0x80 <= v.n < 0x80
    ensures k == Short ==> v.Num? && -0x8000 <= v.n < 0x8000
    ensures k == UShort ==> v.Num? && 0 <= v.n < 0x1_0000
    ensures k == Int ==> v.Num? && -0x8000_0000 <= v.n < 0x8000_0000
    ensures k == UInt ==> v.Num? && 0 <= v.n < 0x1_0000_0000
    ensures k == Long ==> v.Num? && -0x8000_0000_0000_0000 <= v.n < 0x8000_0000_0000_0000
    ensures (k == UShort || k == UInt) ==> v == Num(UnsignedValue(bs, order))
    ensures k == Float ==> v.FloatBits?
    ensures k == Double ==> v.DoubleBits?
  {
    PowersOfByte();
    var u := UnsignedValue(bs, order);
    match k
    case Byte => Num(ToSigned(u, 1))
    case UShort => SignedResidue(u, 2); Num(ToSigned(u, 2) % 0x1_0000)
    case Short => Num(ToSigned(u, 2))
    case Int => Num(ToSigned(u, 4))
    case UInt => SignedResidue(u, 4); Num(ToSigned(u, 4) % 0x1_0000_0000)
    case Long => Num(ToSigned(u, 8))
    case Float => FloatBits(u)
    case Double => DoubleBits(u)
  }

  lemma PowersOfByte()
    ensures Pow256(1) == 0x100 && Pow256(2) == 0x1_0000 && Pow256(4) == 0x1_0000_0000
    ensures Pow256(8) == 0x1_0000_0000_0000_0000
  {
  }

  /** Where decoding stands after a prefix of the fields: the map so far and
      the buffer position. */
  datatype Progress = Progress(values: map<string, Value>, pos: nat)

  /** One turn of the loop: a field met with no bytes left is skipped (and
      every later one with it, as the position no longer moves); an unknown
      type met with bytes left fails, as does a field the remaining bytes
      cannot hold; otherwise the field is read and stored under its name. */
  function Step(done: Result<Progress, UnpackError>, f: StructField, bytes: seq<byte>, order: ByteOrder): (r: Result<Progress, UnpackError>)
    requires done.Ok? ==> done.value.pos <= |bytes|
    ensures r.Ok? ==> r.value.pos <= |bytes|
  {
    match done
    case Err(e) => Err(e)
    case Ok(p) =>
      if p.pos >= |bytes| then Ok(p)
      else
        var kind := KindOf(f.fieldType);
        match Width(kind)
        case None => Err(UnsupportedType(f.fieldType, f.name))
        case Some(w) =>
          if p.pos + w > |bytes| then Err(BufferUnderflow)
          else Ok(Progress(p.values[f.name := DecodeField(kind, bytes[p.pos..p.pos + w], order)], p.pos + w))
  }

  /** Decoding the fields in order, from an empty map at position 0. */
  function Run(fields: seq<StructField>, bytes: seq<byte>, order: ByteOrder): (r: Result<Progress, UnpackError>)
    ensures r.Ok? ==> r.value.pos <= |bytes|
    decreases |fields|
  {
    if fields == [] then Ok(Progress(map[], 0))
    else Step(Run(fields[..|fields| - 1], bytes, order), fields[|fields| - 1], bytes, order)
  }

  lemma RunSnoc(fields: seq<StructField>, f: StructField, bytes: seq<byte>, order: ByteOrder)
    ensures Run(fields + [f], bytes, order) == Step(Run(fields, bytes, order), f, bytes, order)
  {
    assert (fields + [f])[..|fields|] == fields;
  }

  /** `unpack` as a function of the schema and the bytes. */
  function UnpackSpec(schema: StructParserConfig, bytes: seq<byte>): Result<map<string, Value>, UnpackError> {
    match Run(schema.fields, bytes, OrderOf(schema.endianness))
    case Ok(p) => Ok(p.values)
    case Err(e) => Err(e)
  }

  /** `unpack`: the byte order, then the loop over the fields. */
  method Unpack(schema: StructParserConfig, bytes: seq<byte>) returns (r: Result<map<string, Value>, UnpackError>)
    ensures r == UnpackSpec(schema, bytes)
  {
    var order := OrderOf(schema.endianness);
    r := UnpackFields(schema.fields, bytes, order);
  }

  /** The loop of `unpack`, with the buffer position as a local. */
  method UnpackFields(fields: seq<StructField>, bytes: seq<byte>, order: ByteOrder) returns (r: Result<map<string, Value>, UnpackError>)
    ensures r == match Run(fields, bytes, order) case Ok(p) => Ok(p.values) case Err(e) => Err(e)
  {
    var result: map<string, Value> := map[];
    var pos: nat := 0;
    var i := 0;
    assert fields[..0] == [];
    while i < |fields|
      invariant i <= |fields|
      invariant Run(fields[..i], bytes, order) == Ok(Progress(result, pos))
    {
      if pos >= |bytes| {
        IgnoredFrom(fields, i, bytes, order);
        return Ok(result);
      }
      StepAt(fields, i, bytes, order);
      var next := ReadField(fields[i], bytes, order, result, pos);
      match next
      case Err(e) =>
        FailsFrom(fields, i + 1, bytes, order);
        return Err(e);
      case Ok(p) =>
        result, pos := p.values, p.pos;
      i := i + 1;
    }
    assert fields[..|fields|] == fields;
    return Ok(result);
  }

  /** The body of the loop for a field reached with bytes left: the `when`
      dispatch on its type, the length check of the `ByteBuffer` read, and
      the store under its name. */
  method ReadField(field: StructField, bytes: seq<byte>, order: ByteOrder, values: map<string, Value>, pos: nat) returns (r: Result<Progress, UnpackError>)
    requires pos < |bytes|
    ensures r == Step(Ok(Progress(values, pos)), field, bytes, order)
  {
    var kind := KindOf(field.fieldType);
    var width := Width(kind);
    if width.None? {
      return Err(UnsupportedType(field.fieldType, field.name));
    }
    if pos + width.value > |bytes| {
      return Err(BufferUnderflow);
    }
    var value := DecodeField(kind, bytes[pos..pos + width.value], order);
    return Ok(Progress(values[field.name := value], pos + width.value));
  }

  /** Once the bytes are used up, later fields (of any type, supported or not)
      add nothing and raise nothing. */
  lemma {:induction false} LaterFieldsIgnored(fields: seq<StructField>, extra: seq<StructField>, bytes: seq<byte>, order: ByteOrder)
    requires Run(fields, bytes, order).Ok? && Run(fields, bytes, order).value.pos >= |bytes|
    ensures Run(fields + extra, bytes, order) == Run(fields, bytes, order)
    decreases |extra|
  {
    if extra != [] {
      var init := extra[..|extra| - 1];
      LaterFieldsIgnored(fields, init, bytes, order);
      assert (fields + extra)[..|fields + extra| - 1] == fields + init;
    } else {
      assert fields + extra == fields;
    }
  }

  /** The loop's view of RunSnoc. */
  lemma StepAt(fields: seq<StructField>, i: nat, bytes: seq<byte>, order: ByteOrder)
    requires i < |fields|
    ensures Run(fields[..i + 1], bytes, order) == Step(Run(fields[..i], bytes, order), fields[i], bytes, order)
  {
    assert fields[..i + 1] == fields[..i] + [fields[i]];
    RunSnoc(fields[..i], fields[i], bytes, order);
  }

  /** The loop's view of LaterFieldsIgnored: the whole schema gives what its prefix gave. */
  lemma IgnoredFrom(fields: seq<StructField>, i: nat, bytes: seq<byte>, order: ByteOrder)
    requires i <= |fields|
    requires Run(fields[..i], bytes, order).Ok? && Run(fields[..i], bytes, order).value.pos >= |bytes|
    ensures Run(fields, bytes, order) == Run(fields[..i], bytes, order)
  {
    assert fields[..i] + fields[i..] == fields;
    LaterFieldsIgnored(fields[..i], fields[i..], bytes, order);
  }

  /** The loop's view of FailureIsFinal. */
  lemma FailsFrom(fields: seq<StructField>, i: nat, bytes: seq<byte>, order: ByteOrder)
    requires i <= |fields|
    requires Run(fields[..i], bytes, order).Err?
    ensures Run(fields, bytes, order) == Run(fields[..i], bytes, order)
  {
    assert fields[..i] + fields[i..] == fields;
    FailureIsFinal(fields[..i], fields[i..], bytes, order);
  }

  /** An error ends decoding: appending fields keeps the same error. */
  lemma {:induction false} FailureIsFinal(fields: seq<StructField>, extra: seq<StructField>, bytes: seq<byte>, order: ByteOrder)
    requires Run(fields, bytes, order).Err?
    ensures Run(fields + extra, bytes, order) == Run(fields, bytes, order)
    decreases |extra|
  {
    if extra != [] {
      var init := extra[..|extra| - 1];
      FailureIsFinal(fields, init, bytes, order);
      assert (fields + extra)[..|fields + extra| - 1] == fields + init;
    } else {
      assert fields + extra == fields;
    }
  }

  /** An unsupported type raises exactly when it is reached with bytes remaining. */
  lemma UnsupportedRaisesOnlyWithBytesLeft(fields: seq<StructField>, f: StructField, bytes: seq<byte>, order: ByteOrder)
    requires Run(fields, bytes, order).Ok? && KindOf(f.fieldType) == Unsupported
    ensures var p := Run(fields, bytes, order).value;
      Run(fields + [f], bytes, order) == if p.pos < |bytes| then Err(UnsupportedType(f.fieldType, f.name)) else Ok(p)
  {
    assert (fields + [f])[..|fields|] == fields;
  }

  /** A field reached with bytes left consumes its width and its value is
      stored under its name, replacing any earlier value there; every other
      name keeps its value. */
  lemma FieldConsumesWidth(fields: seq<StructField>, f: StructField, bytes: seq<byte>, order: ByteOrder)
    requires Run(fields, bytes, order).Ok?
    requires Run(fields, bytes, order).value.pos < |bytes| && KindOf(f.fieldType) != Unsupported
    requires Run(fields, bytes, order).value.pos + Width(KindOf(f.fieldType)).value <= |bytes|
    ensures var p := Run(fields, bytes, order).value;
      var w := Width(KindOf(f.fieldType)).value;
      && Run(fields + [f], bytes, order).Ok?
      && Run(fields + [f], bytes, order).value.pos == p.pos + w
      && Run(fields + [f], bytes, order).value.values[f.name] == DecodeField(KindOf(f.fieldType), bytes[p.pos..p.pos + w], order)
      && (forall k :: k != f.name && k in p.values ==> Run(fields + [f], bytes, order).value.values[k] == p.values[k])
      && Run(fields + [f], bytes, order).value.values.Keys == p.values.Keys + {f.name}
  {
    assert (fields + [f])[..|fields|] == fields;
  }

  /** The bytes the fields take when each is read in full. */
  function TotalWidth(fields: seq<StructField>): nat
    requires forall i :: 0 <= i < |fields| ==> KindOf(fields[i].fieldType) != Unsupported
  {
    if fields == [] then 0 else TotalWidth(fields[..|fields| - 1]) + Width(KindOf(fields[|fields| - 1].fieldType)).value
  }

  function Names(fields: seq<StructField>): set<string> {
    set i | 0 <= i < |fields| :: fields[i].name
  }

  /** With supported types and enough bytes every field is decoded: the
      position ends after all of them and every field name is a key. */
  lemma {:induction false} AllFieldsDecoded(fields: seq<StructField>, bytes: seq<byte>, order: ByteOrder)
    requires forall i :: 0 <= i < |fields| ==> KindOf(fields[i].fieldType) != Unsupported
    requires TotalWidth(fields) <= |bytes|
    ensures Run(fields, bytes, order).Ok?
    ensures Run(fields, bytes, order).value.pos == TotalWidth(fields)
    ensures Run(fields, bytes, order).value.values.Keys == Names(fields)
    decreases |fields|
  {
    if fields != [] {
      var init := fields[..|fields| - 1];
      var last := fields[|fields| - 1];
      AllFieldsDecoded(init, bytes, order);
      assert init + [last] == fields;
      FieldConsumesWidth(init, last, bytes, order);
      NamesSnoc(init, last);
    }
  }

  lemma NamesSnoc(init: seq<StructField>, last: StructField)
    ensures Names(init + [last]) == Names(init) + {last.name}
  {
    var fields := init + [last];
    assert fields[|fields| - 1] == last;
    forall k | k in Names(fields) ensures k in Names(init) + {last.name} {
      var i :| 0 <= i < |fields| && fields[i].name == k;
      if i < |fields| - 1 {
        assert init[i].name == k;
      }
    }
    forall k | k in Names(init) ensures k in Names(fields) {
      var i :| 0 <= i < |init| && init[i].name == k;
      assert fields[i].name == k;
    }
  }

  /** The bytes a sender writes for an integer field value (its two's
      complement bit pattern at the type's width). */
  function EncodeField(t: FieldKind, v: int, order: ByteOrder): (r: seq<byte>)
    requires IsInteger(t)
    ensures Width(t) == Some(|r|)
  {
    var w := Width(t).value;
    Encode(v % Pow256(w), w, order)
  }

  /** The value range of each integer type. */
  predicate InRange(t: FieldKind, v: int) {
    match t
    case Byte => -0x80 <= v < 0x80
    case Short => -0x8000 <= v < 0x8000
    case UShort => 0 <= v < 0x1_0000
    case Int => -0x8000_0000 <= v < 0x8000_0000
    case UInt => 0 <= v < 0x1_0000_0000
    case Long => -0x8000_0000_0000_0000 <= v < 0x8000_0000_0000_0000
    case _ => false
  }

  /** Reading back an encoded integer field gives its value, in either byte order. */
  lemma DecodeEncodeField(t: FieldKind, v: int, order: ByteOrder)
    requires InRange(t, v)
    ensures DecodeField(t, EncodeField(t, v, order), order) == Num(v)
  {
    PowersOfByte();
    var w := Width(t).value;
    var u := v % Pow256(w);
    DecodeEncode(u, w, order);
    if t == UShort || t == UInt {
      assert u == v;
    } else {
      ResidueSigned(v, w);
    }
  }
}
