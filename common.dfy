/** Shared vocabulary of the model: optional values, the machine integer
    types of .NET, UTF-16 code units and the diagnostics a conversion
    context accumulates. */
module Common {

  datatype Option<+T> = None | Some(value: T) {
    function GetOr(default: T): T {
      match this
      case Some(v) => v
      case None => default
    }
  }

  datatype Result<+T, +E> = Success(value: T) | Failure(error: E)

  /** A .NET `char`: one UTF-16 code unit, surrogates included. */
  newtype Char16 = c: int | 0 <= c < 0x1_0000

  /** A .NET `string` is a sequence of UTF-16 code units. */
  type String16 = seq<Char16>

  newtype Int8 = x: int | -0x80 <= x < 0x80
  newtype UInt8 = x: int | 0 <= x < 0x100
  newtype Int16 = x: int | -0x8000 <= x < 0x8000
  newtype UInt16 = x: int | 0 <= x < 0x1_0000
  newtype Int32 = x: int | -0x8000_0000 <= x < 0x8000_0000
  newtype UInt32 = x: int | 0 <= x < 0x1_0000_0000
  newtype Int64 = x: int | -0x8000_0000_0000_0000 <= x < 0x8000_0000_0000_0000
  newtype UInt64 = x: int | 0 <= x < 0x1_0000_0000_0000_0000

  /** One entry of a conversion context's error list. `Exception` stands for
      an exception object caught and recorded; the other variants are the
      messages the converters compose themselves. */
  datatype Diagnostic =
    | Exception(message: String16)
    | InvalidEnumValue(value: int)          // "{value} 不是有效的枚举值"
    | AddToDictionaryFailed                 // "添加到字典{type}失败"
    | AddElementFailed                      // "向字典{type}中添加元素 {key} 失败"
    | AddElementRejected                    // the same, with the reason Dictionary.Add gave
    | ReaderClosed                          // "DataReader已经关闭"

  /** The per-call conversion context; only its error list is modelled. */
  class ConvertContext {
    var errors: seq<Diagnostic>

    constructor ()
      ensures errors == []
    {
      errors := [];
    }

    method AddException(d: Diagnostic)
      modifies this
      ensures errors == old(errors) + [d]
    {
      errors := errors + [d];
    }
  }

  /** An input object as the primitive converters see it: not
      `IConvertible`, or an `IConvertible` by its `GetTypeCode()` with the
      value its `To…` methods read. `Double`, `Single` and `Decimal` inputs
      are not part of this model. */
  datatype ConvertibleInput =
    | NotConvertible
    | EmptyValue                       // TypeCode.Empty
    | DBNullValue                      // TypeCode.DBNull
    | DateTimeValue                    // TypeCode.DateTime
    | BooleanValue(b: bool)
    | CharValue(c: Char16)
    | SByteValue(i8: Int8)
    | ByteValue(u8: UInt8)
    | Int16Value(i16: Int16)
    | UInt16Value(u16: UInt16)
    | Int32Value(i32: Int32)
    | UInt32Value(u32: UInt32)
    | Int64Value(i64: Int64)
    | UInt64Value(u64: UInt64)
    | StringValue(s: String16)         // TypeCode.String; ToString(null) is `s`
    | ObjectValue                      // TypeCode.Object

  /** The ambient `Error` list some converters report to instead of their
      context; only its entries are modelled. */
  class ErrorLog {
    var entries: seq<Diagnostic>

    constructor ()
      ensures entries == []
    {
      entries := [];
    }

    method Add(d: Diagnostic)
      modifies this
      ensures entries == old(entries) + [d]
    {
      entries := entries + [d];
    }
  }

  /** What a nested converter reports: the value (none when its `success`
      is false) and the diagnostics it added to the shared context. */
  datatype Conversion<T> = Conversion(value: Option<T>, diagnostics: seq<Diagnostic>)

  /** `char.IsWhiteSpace`: the Unicode space separators, line and paragraph
      separators, and the control characters U+0009..U+000D, U+0085. */
  predicate IsWhiteSpace(c: Char16) {
    (0x09 <= c <= 0x0D) || c == 0x20 || c == 0x85 || c == 0xA0 || c == 0x1680
    || (0x2000 <= c <= 0x200A) || c == 0x2028 || c == 0x2029 || c == 0x202F
    || c == 0x205F || c == 0x3000
  }

  function TrimStart(s: String16): (r: String16)
    ensures |r| <= |s| && r == s[|s| - |r|..]
    ensures r == [] || !IsWhiteSpace(r[0])
    ensures forall i :: 0 <= i < |s| - |r| ==> IsWhiteSpace(s[i])
  {
    if s == [] || !IsWhiteSpace(s[0]) then s else TrimStart(s[1..])
  }

  function TrimEnd(s: String16): (r: String16)
    ensures |r| <= |s| && r == s[..|r|]
    ensures r == [] || !IsWhiteSpace(r[|r| - 1])
    ensures forall i :: |r| <= i < |s| ==> IsWhiteSpace(s[i])
  {
    if s == [] || !IsWhiteSpace(s[|s| - 1]) then s else TrimEnd(s[..|s| - 1])
  }

  /** `string.Trim()`: removes leading and trailing white space. */
  function Trim(s: String16): (r: String16)
    ensures r == [] || (!IsWhiteSpace(r[0]) && !IsWhiteSpace(r[|r| - 1]))
    ensures r == [] <==> forall i :: 0 <= i < |s| ==> IsWhiteSpace(s[i])
  {
    var t := TrimStart(s);
    var r := TrimEnd(t);
    r
  }

  /** True when `s` has more than `minLength` code units and starts with
      '{' (U+007B) and ends with '}' (U+007D). */
  predicate BraceWrapped(s: String16, minLength: nat) {
    |s| > minLength && |s| > 0 && s[0] == 0x7B && s[|s| - 1] == 0x7D
  }
}
