/** ETW field-type descriptors of the plugin interface: the TraceLogging
    in-type and out-type enumerations, the `ETW_FIELD(in, out)` packing
    `in | 0x80 | out << 8`, and the table of named field types. Enumerators are
    the integer constants of the C enumerations; descriptors are 32-bit values
    (`bv32`) whose bit positions are those of the wire format. */
module EtwFields {
  import opened Words

  // ETW_IN_FIELD_TYPE: the wire representation of a field.
  const EtwInNull: bv32 := 0
  const EtwInUnicodeString: bv32 := 1
  const EtwInAnsiString: bv32 := 2
  const EtwInInt8: bv32 := 3
  const EtwInUInt8: bv32 := 4
  const EtwInInt16: bv32 := 5
  const EtwInUInt16: bv32 := 6
  const EtwInInt32: bv32 := 7
  const EtwInUInt32: bv32 := 8
  const EtwInInt64: bv32 := 9
  const EtwInUInt64: bv32 := 10
  const EtwInFloat: bv32 := 11
  const EtwInDouble: bv32 := 12
  const EtwInBool32: bv32 := 13
  const EtwInBinary: bv32 := 14
  const EtwInGuid: bv32 := 15
  const EtwInPointer: bv32 := 16
  const EtwInFiletime: bv32 := 17
  const EtwInSystemTime: bv32 := 18
  const EtwInSid: bv32 := 19
  const EtwInHexInt32: bv32 := 20
  const EtwInHexInt64: bv32 := 21
  const EtwInCountedString: bv32 := 22
  const EtwInCountedAnsiString: bv32 := 23

  /** The declared in-types are exactly the values 0 to 23. */
  predicate IsInType(v: bv32)
  {
    v <= EtwInCountedAnsiString
  }

  // ETW_OUT_FIELD_TYPE: how a viewer renders a field.
  const EtwOutNull: bv32 := 0
  const EtwOutNoPrint: bv32 := 1
  const EtwOutString: bv32 := 2
  const EtwOutBoolean: bv32 := 3
  const EtwOutHex: bv32 := 4
  const EtwOutPid: bv32 := 5
  const EtwOutTid: bv32 := 6
  const EtwOutPort: bv32 := 7
  const EtwOutIpV4: bv32 := 8
  const EtwOutIpV6: bv32 := 9
  const EtwOutSocketAddress: bv32 := 10
  const EtwOutXml: bv32 := 11
  const EtwOutJson: bv32 := 12
  const EtwOutWin32Error: bv32 := 13
  const EtwOutNtstatus: bv32 := 14
  const EtwOutHresult: bv32 := 15
  const EtwOutFiletime: bv32 := 16
  const EtwOutSigned: bv32 := 17
  const EtwOutUnsigned: bv32 := 18

  /** The declared out-types are exactly the values 0 to 18. */
  predicate IsOutType(v: bv32)
  {
    v <= EtwOutUnsigned
  }

  /** `ETW_FIELD(in, out)`: `in | 0x80 | out << 8`. Bit 7 (0x80) is the marker
      "an out-type follows". For an in-type below 0x80 the in-type is the low
      seven bits, the marker is always set, and for an out-type below 2^24 the
      out-type is everything from bit 8 up. */
  function EtwField(inType: bv32, outType: bv32): (d: bv32)
    ensures inType < 0x80 ==> d & 0x7F == inType
    ensures d & 0x80 == 0x80
    ensures inType < 0x100 && outType < 0x100_0000 ==> d >> 8 == outType
  {
    inType | 0x80 | (outType << 8)
  }

  /** The meaning of a descriptor: an in-type alone, or an in-type with an
      out-type hint. */
  datatype FieldDescriptor =
    | Plain(inType: bv32)
    | Composite(inType: bv32, outType: bv32)

  /** A descriptor built from declared enumerators only. */
  predicate Declared(x: FieldDescriptor)
  {
    IsInType(x.inType) && (x.Composite? ==> IsOutType(x.outType))
  }

  /** The wire value of a descriptor: a plain in-type is its own value; a
      composite is packed with `ETW_FIELD`. */
  function Encode(x: FieldDescriptor): bv32
  {
    match x
    case Plain(i) => i
    case Composite(i, o) => EtwField(i, o)
  }

  /** Reads a wire value back the way a trace consumer does: without the marker
      bit the value is the in-type; with it the low seven bits are the in-type
      and bits 8 and up are the out-type. Values naming no declared
      enumerator are rejected. */
  function Decode(d: bv32): (r: Option<FieldDescriptor>)
    ensures r.Some? ==> Declared(r.value)
    ensures r.Some? ==> (r.value.Composite? <==> d & 0x80 == 0x80)
  {
    if d & 0x80 == 0 then
      if IsInType(d) then Some(Plain(d)) else None
    else if IsInType(d & 0x7F) && IsOutType(d >> 8) then
      Some(Composite(d & 0x7F, d >> 8))
    else
      None
  }

  /** Every declared descriptor survives the trip to the wire and back. */
  lemma DecodeEncode(x: FieldDescriptor)
    requires Declared(x)
    ensures Decode(Encode(x)) == Some(x)
  {
    if x.Composite? {
      var d := EtwField(x.inType, x.outType);
      assert d & 0x7F == x.inType && d >> 8 == x.outType;
    }
  }

  /** Conversely, a wire value that decodes is exactly the encoding of what it
      decodes to, so no two wire values carry the same meaning. */
  lemma EncodeDecode(d: bv32)
    requires Decode(d).Some?
    ensures Encode(Decode(d).value) == d
  {
    if d & 0x80 != 0 {
      assert (d & 0x7F) | 0x80 | ((d >> 8) << 8) == d;
    }
  }

  // ETW_FIELD_TYPE: the named field types a plugin passes to the event API,
  // defined as the enumeration defines them.
  const EtwFieldInt8: bv32 := EtwInInt8
  const EtwFieldUInt8: bv32 := EtwInUInt8
  const EtwFieldInt16: bv32 := EtwInInt16
  const EtwFieldUInt16: bv32 := EtwInUInt16
  const EtwFieldInt32: bv32 := EtwInInt32
  const EtwFieldUInt32: bv32 := EtwInUInt32
  const EtwFieldInt64: bv32 := EtwInInt64
  const EtwFieldUInt64: bv32 := EtwInUInt64
  const EtwFieldFloat32: bv32 := EtwInFloat
  const EtwFieldFloat64: bv32 := EtwInDouble
  const EtwFieldBool: bv32 := EtwInBool32
  const EtwFieldGuid: bv32 := EtwInGuid
  const EtwFieldPointer: bv32 := EtwInPointer
  const EtwFieldFiletime: bv32 := EtwInFiletime
  const EtwFieldSystemTime: bv32 := EtwInSystemTime
  const EtwFieldHexInt8: bv32 := EtwField(EtwInUInt8, EtwOutHex)
  const EtwFieldHexUInt8: bv32 := EtwField(EtwInUInt8, EtwOutHex)
  const EtwFieldHexInt32: bv32 := EtwInHexInt32
  const EtwFieldHexUInt32: bv32 := EtwInHexInt32
  const EtwFieldHexInt64: bv32 := EtwInHexInt64
  const EtwFieldHexUInt64: bv32 := EtwInHexInt64
  const EtwFieldWChar: bv32 := EtwField(EtwInUInt16, EtwOutString)
  const EtwFieldChar: bv32 := EtwField(EtwInUInt8, EtwOutString)
  const EtwFieldBoolean: bv32 := EtwField(EtwInUInt8, EtwOutBoolean)
  const EtwFieldHexInt16: bv32 := EtwField(EtwInUInt16, EtwOutHex)
  const EtwFieldHexUInt16: bv32 := EtwField(EtwInUInt16, EtwOutHex)
  const EtwFieldPid: bv32 := EtwField(EtwInUInt32, EtwOutPid)
  const EtwFieldTid: bv32 := EtwField(EtwInUInt32, EtwOutTid)
  const EtwFieldPort: bv32 := EtwField(EtwInUInt16, EtwOutPort)
  const EtwFieldWinError: bv32 := EtwField(EtwInUInt32, EtwOutWin32Error)
  const EtwFieldNtstatus: bv32 := EtwField(EtwInUInt32, EtwOutNtstatus)
  const EtwFieldHresult: bv32 := EtwField(EtwInInt32, EtwOutHresult)
  const EtwFieldString: bv32 := EtwInAnsiString
  const EtwFieldWideString: bv32 := EtwInUnicodeString
  const EtwFieldCountedString: bv32 := EtwInCountedAnsiString
  const EtwFieldCountedWideString: bv32 := EtwFieldCountedString
  const EtwFieldAnsiString: bv32 := EtwInCountedAnsiString
  const EtwFieldUnicodeString: bv32 := EtwInCountedString
  const EtwFieldBinary: bv32 := EtwInBinary
  const EtwFieldSocketAddress: bv32 := EtwField(EtwInBinary, EtwOutSocketAddress)
  const EtwFieldSid: bv32 := EtwInSid

  /** The named field types written as a bare in-type. */
  const PlainFieldTypes: set<bv32> := {
    EtwFieldInt8, EtwFieldUInt8, EtwFieldInt16, EtwFieldUInt16, EtwFieldInt32,
    EtwFieldUInt32, EtwFieldInt64, EtwFieldUInt64, EtwFieldFloat32, EtwFieldFloat64,
    EtwFieldBool, EtwFieldGuid, EtwFieldPointer, EtwFieldFiletime, EtwFieldSystemTime,
    EtwFieldHexInt32, EtwFieldHexUInt32, EtwFieldHexInt64, EtwFieldHexUInt64,
    EtwFieldString, EtwFieldWideString, EtwFieldCountedString, EtwFieldCountedWideString,
    EtwFieldAnsiString, EtwFieldUnicodeString, EtwFieldBinary, EtwFieldSid}

  /** The named field types built with ETW_FIELD. */
  const CompositeFieldTypes: set<bv32> := {
    EtwFieldHexInt8, EtwFieldHexUInt8, EtwFieldWChar, EtwFieldChar, EtwFieldBoolean,
    EtwFieldHexInt16, EtwFieldHexUInt16, EtwFieldPid, EtwFieldTid, EtwFieldPort,
    EtwFieldWinError, EtwFieldNtstatus, EtwFieldHresult, EtwFieldSocketAddress}

  /** The composite entries of the table as integers: the values a trace
      consumer keys on. */
  lemma CompositeFieldTypeValues()
    ensures EtwFieldHexInt8 == 0x484 && EtwFieldHexUInt8 == 0x484
    ensures EtwFieldWChar == 0x286 && EtwFieldChar == 0x284 && EtwFieldBoolean == 0x384
    ensures EtwFieldHexInt16 == 0x486 && EtwFieldHexUInt16 == 0x486
    ensures EtwFieldPid == 0x588 && EtwFieldTid == 0x688 && EtwFieldPort == 0x786
    ensures EtwFieldWinError == 0xD88 && EtwFieldNtstatus == 0xE88
    ensures EtwFieldHresult == 0xF87 && EtwFieldSocketAddress == 0xA8E
  {
  }

  /** The plain entries of the table as integers. Four names share the counted
      ANSI string value 0x17, `EtwFieldCountedWideString` among them. */
  lemma PlainFieldTypeValues()
    ensures EtwFieldInt8 == 0x3 && EtwFieldUInt8 == 0x4 && EtwFieldInt16 == 0x5
    ensures EtwFieldUInt16 == 0x6 && EtwFieldInt32 == 0x7 && EtwFieldUInt32 == 0x8
    ensures EtwFieldInt64 == 0x9 && EtwFieldUInt64 == 0xA && EtwFieldFloat32 == 0xB
    ensures EtwFieldFloat64 == 0xC && EtwFieldBool == 0xD && EtwFieldGuid == 0xF
    ensures EtwFieldPointer == 0x10 && EtwFieldFiletime == 0x11 && EtwFieldSystemTime == 0x12
    ensures EtwFieldHexInt32 == 0x14 && EtwFieldHexUInt32 == 0x14
    ensures EtwFieldHexInt64 == 0x15 && EtwFieldHexUInt64 == 0x15
    ensures EtwFieldString == 0x2 && EtwFieldWideString == 0x1
    ensures EtwFieldCountedString == 0x17 && EtwFieldCountedWideString == 0x17
    ensures EtwFieldAnsiString == 0x17 && EtwFieldUnicodeString == 0x16
    ensures EtwFieldBinary == 0xE && EtwFieldSid == 0x13
  {
  }

  /** A value in the in-type range has no marker bit and decodes to itself. */
  lemma InTypeDecodes(d: bv32)
    requires IsInType(d)
    ensures d & 0x80 == 0 && Decode(d) == Some(Plain(d))
  {
    assert d & 0x80 == 0;
  }

  /** Every plain named field type is a declared descriptor without the
      marker bit, and decodes to its own in-type. */
  lemma PlainFieldTypesDecode()
    ensures forall d | d in PlainFieldTypes :: d & 0x80 == 0 && Decode(d) == Some(Plain(d))
  {
    PlainFieldTypeValues();
    forall d | d in PlainFieldTypes
      ensures d & 0x80 == 0 && Decode(d) == Some(Plain(d))
    {
      assert d <= 0x17;
      InTypeDecodes(d);
    }
  }

  /** Every composite named field type carries the marker bit and decodes to
      an (in-type, out-type) pair of declared enumerators. */
  lemma CompositeFieldTypesDecode()
    ensures forall d | d in CompositeFieldTypes ::
              d & 0x80 == 0x80 && Decode(d).Some? && Decode(d).value.Composite?
  {
    CompositeFieldTypeValues();
    assert CompositeFieldTypes == {0x484, 0x286, 0x284, 0x384, 0x486, 0x588, 0x688,
                                   0x786, 0xD88, 0xE88, 0xF87, 0xA8E};
  }
}
