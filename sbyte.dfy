/** `CSByte`, the converter to `sbyte`: a range-checked narrowing of every
    integral input, and for strings a decimal parse with a hexadecimal
    fallback. */
module SByteConvert {
  import opened Common

  /** The library parsers `CSByte` calls, which are not part of this model:
      `sbyte.TryParse(s)`, `CString.IsHexString(ref s)` (which also
      rewrites `s`, hence the returned string) and the `HexNumber` parse. */
  datatype Parsers = Parsers(
    tryParse: String16 -> Option<Int8>,
    isHexString: String16 -> Option<String16>,
    tryParseHex: String16 -> Option<Int8>)

  /** A converter's answer: the `out bool success` and the value returned. */
  datatype Converted = Converted(success: bool, value: Int8)

  const Failed := Converted(false, 0)

  /** The integer an integral or Boolean input stands for, as the `To…`
      methods of `IConvertible` read it; none for any other input. */
  function IntegerValue(input: ConvertibleInput): Option<int> {
    match input
    case BooleanValue(b) => Some(if b then 1 else 0)
    case CharValue(c) => Some(c as int)
    case SByteValue(a) => Some(a as int)
    case ByteValue(a) => Some(a as int)
    case Int16Value(a) => Some(a as int)
    case UInt16Value(a) => Some(a as int)
    case Int32Value(a) => Some(a as int)
    case UInt32Value(a) => Some(a as int)
    case Int64Value(a) => Some(a as int)
    case UInt64Value(a) => Some(a as int)
    case _ => None
  }

  predicate InSByteRange(v: int) {
    -0x80 <= v < 0x80
  }

  /** `ChangeType(context, string input, …)`: the decimal parse first; only
      when it fails, the hexadecimal parse of a hex string. */
  function ChangeString(p: Parsers, input: String16): (r: Converted)
    ensures p.tryParse(input).Some? ==> r == Converted(true, p.tryParse(input).value)
    ensures p.tryParse(input).None? && p.isHexString(input).Some? ==>
              var hex := p.tryParseHex(p.isHexString(input).value);
              r == if hex.Some? then Converted(true, hex.value) else Failed
    ensures p.tryParse(input).None? && p.isHexString(input).None? ==> r == Failed
  {
    match p.tryParse(input)
    case Some(result) => Converted(true, result)
    case None =>
      match p.isHexString(input)
      case Some(hex) =>
        (match p.tryParseHex(hex)
         case Some(result) => Converted(true, result)
         case None => Failed)
      case None => Failed
  }

  /** `ChangeTypeImpl(context, object input, …)`: the `switch` on the input's
      type code. */
  function ChangeTypeImpl(p: Parsers, input: ConvertibleInput): (r: Converted)
    // an integral input converts, to the same number, exactly when it fits
    ensures IntegerValue(input).Some? ==>
              var v := IntegerValue(input).value;
              (r.success <==> InSByteRange(v)) && (r.success ==> r.value as int == v)
    // a string goes to the string path
    ensures input.StringValue? ==> r == ChangeString(p, input.s)
    // every failure returns default(sbyte), and every other input fails
    ensures !r.success ==> r.value == 0
    ensures IntegerValue(input).None? && !input.StringValue? ==> r == Failed
  {
    match input
    case NotConvertible => Failed
    case BooleanValue(b) => Converted(true, if b then 1 else 0)
    case EmptyValue => Failed
    case DBNullValue => Failed
    case DateTimeValue => Failed
    case ByteValue(a) => if a > 127 then Failed else Converted(true, a as int as Int8)
    case CharValue(a) => if a > 127 then Failed else Converted(true, a as int as Int8)
    case Int16Value(a) => if a < -128 || a > 127 then Failed else Converted(true, a as int as Int8)
    case Int32Value(a) => if a < -128 || a > 127 then Failed else Converted(true, a as int as Int8)
    case Int64Value(a) => if a < -128 || a > 127 then Failed else Converted(true, a as int as Int8)
    case SByteValue(a) => Converted(true, a)
    case UInt16Value(a) => if a > 127 then Failed else Converted(true, a as int as Int8)
    case UInt32Value(a) => if a > 127 then Failed else Converted(true, a as int as Int8)
    case UInt64Value(a) => if a > 127 then Failed else Converted(true, a as int as Int8)
    case ObjectValue => Failed
    case StringValue(s) => ChangeString(p, s)
  }

  /** Converting an `sbyte` is the identity, and so is converting any
      successful result again. */
  lemma ChangeTypeIdempotent(p: Parsers, input: ConvertibleInput)
    requires ChangeTypeImpl(p, input).success
    ensures var r := ChangeTypeImpl(p, input);
            ChangeTypeImpl(p, SByteValue(r.value)) == r
  {
  }
}
