/** `CEnum<T>`, the converter to an enum type: parse or numeric
    conversion, then one acceptance rule shared by both paths. */
module EnumConvert {
  import opened Common

  /** What `CEnum<T>` asks of the enum type `T` and of the runtime, all of
      it library behaviour outside this model. Enum values are their
      underlying integers; `default(T)` is 0. */
  datatype EnumType = EnumType(
    defined: set<int>,                           // Enum.IsDefined(outputType, v)
    isFlags: bool,                               // Attribute.IsDefined(outputType, typeof(FlagsAttribute))
    rendersComposite: int -> bool,               // v.ToString().Contains(",")
    toObject: int -> int,                        // (T)Enum.ToObject(outputType, n)
    parse: String16 -> Result<int, String16>)    // (T)Enum.Parse(outputType, s, true), or the exception's message

  /** A converter's answer: the `out bool success`, the value returned,
      and the diagnostic it added to the context, if any. */
  datatype EnumOutcome = EnumOutcome(success: bool, value: int, diagnostic: Option<Diagnostic>)

  const Rejected := EnumOutcome(false, 0, None)

  /** The values `CEnum` accepts: `default(T)`, a defined member, or, for a
      `[Flags]` enum, a combination that renders as a composite. */
  predicate Valid(e: EnumType, v: int) {
    v == 0 || v in e.defined || (e.isFlags && e.rendersComposite(v))
  }

  /** The checks both paths run once they hold a value of `T`. */
  function Accept(e: EnumType, v: int): (r: EnumOutcome)
    ensures r.success <==> Valid(e, v)
    ensures r.success ==> r.value == v && r.diagnostic.None?
    ensures !r.success ==> r.value == 0 && r.diagnostic == Some(InvalidEnumValue(v))
  {
    if v == 0 then EnumOutcome(true, 0, None)
    else if v in e.defined then EnumOutcome(true, v, None)
    else if e.isFlags && e.rendersComposite(v) then EnumOutcome(true, v, None)
    else EnumOutcome(false, 0, Some(InvalidEnumValue(v)))
  }

  /** `ChangeType(context, string input, …)`. */
  function ChangeString(e: EnumType, input: Option<String16>): (r: EnumOutcome)
    // null, empty and white-space strings fail quietly
    ensures (input.None? || Trim(input.value) == []) ==> r == Rejected
    // a parse that throws fails with exactly that exception recorded
    ensures input.Some? && Trim(input.value) != [] && e.parse(input.value).Failure? ==>
              r == EnumOutcome(false, 0, Some(Exception(e.parse(input.value).error)))
    // a parsed value goes through the acceptance rule
    ensures input.Some? && Trim(input.value) != [] && e.parse(input.value).Success? ==>
              r == Accept(e, e.parse(input.value).value)
  {
    if input.None? || IsNullOrWhiteSpace(input.value) then Rejected
    else
      match e.parse(input.value)
      case Failure(message) => EnumOutcome(false, 0, Some(Exception(message)))
      case Success(result) => Accept(e, result)
  }

  /** `string.IsNullOrWhiteSpace` on a non-null string. */
  predicate IsNullOrWhiteSpace(s: String16) {
    forall i :: 0 <= i < |s| ==> IsWhiteSpace(s[i])
  }

  /** The number `ChangeTypeImpl` hands to `Enum.ToObject`: `ToInt64` for
      signed integers and `char`, `ToUInt64` for unsigned ones. */
  function NumericArgument(input: ConvertibleInput): Option<int> {
    match input
    case CharValue(c) => Some(c as int)
    case SByteValue(a) => Some(a as int)
    case Int16Value(a) => Some(a as int)
    case Int32Value(a) => Some(a as int)
    case Int64Value(a) => Some(a as int)
    case ByteValue(a) => Some(a as int)
    case UInt16Value(a) => Some(a as int)
    case UInt32Value(a) => Some(a as int)
    case UInt64Value(a) => Some(a as int)
    case _ => None
  }

  /** `ChangeTypeImpl(context, object input, …)`. */
  function ChangeTypeImpl(e: EnumType, input: ConvertibleInput): (r: EnumOutcome)
    ensures NumericArgument(input).Some? ==> r == Accept(e, e.toObject(NumericArgument(input).value))
    ensures input.StringValue? ==> r == ChangeString(e, Some(input.s))
    // Boolean, DateTime, Empty, DBNull, Object and non-IConvertible inputs fail quietly
    ensures NumericArgument(input).None? && !input.StringValue? ==> r == Rejected
  {
    match input
    case EmptyValue => Rejected
    case DBNullValue => Rejected
    case DateTimeValue => Rejected
    case BooleanValue(_) => Rejected
    case CharValue(c) => Accept(e, e.toObject(c as int))
    case Int16Value(a) => Accept(e, e.toObject(a as int))
    case Int32Value(a) => Accept(e, e.toObject(a as int))
    case Int64Value(a) => Accept(e, e.toObject(a as int))
    case SByteValue(a) => Accept(e, e.toObject(a as int))
    case ByteValue(a) => Accept(e, e.toObject(a as int))
    case UInt16Value(a) => Accept(e, e.toObject(a as int))
    case UInt32Value(a) => Accept(e, e.toObject(a as int))
    case UInt64Value(a) => Accept(e, e.toObject(a as int))
    case StringValue(s) => ChangeString(e, Some(s))
    case ObjectValue => Rejected
    case NotConvertible => Rejected
  }

  /** Whatever the path, a success yields a valid value with no
      diagnostic, and a failure yields `default(T)` with at most one. */
  lemma OutcomeShape(e: EnumType, input: ConvertibleInput)
    ensures var r := ChangeTypeImpl(e, input);
            (r.success ==> Valid(e, r.value) && r.diagnostic.None?)
            && (!r.success ==> r.value == 0)
  {
  }

  /** The string and the numeric path agree: a name that parses to the
      value a number maps to is accepted or refused, with the same value
      and diagnostic, exactly as that number is. */
  lemma PathsAgree(e: EnumType, s: String16, input: ConvertibleInput)
    requires Trim(s) != [] && e.parse(s).Success?
    requires NumericArgument(input).Some? && e.toObject(NumericArgument(input).value) == e.parse(s).value
    ensures ChangeTypeImpl(e, StringValue(s)) == ChangeTypeImpl(e, input)
  {
  }
}
