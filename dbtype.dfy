/** The two lookup tables between .NET types and `System.Data.DbType`. */
module DbTypes {
  import opened Common

  /** `System.TypeCode`. */
  datatype TypeCode =
    | Empty | Object | DBNull | Boolean | Char | SByte | Byte
    | Int16 | UInt16 | Int32 | UInt32 | Int64 | UInt64
    | Single | Double | Decimal | DateTime | String

  /** Which type among those sharing a type code: `Itself` is the type
      the code names (`int` for `Int32`, `object` for `Object`); the three
      types `TypeToDbType` compares by identity have code `Object`; and
      `OtherClass` is any other type with that code (an enum with its
      underlying type's code, or, with `Object`, any other class, struct
      or `Nullable<T>`). */
  datatype Identity = Itself | GuidType | ByteArrayType | XmlDocumentType | OtherClass

  /** A .NET type, as far as the tables inspect it: its `Type.GetTypeCode`
      and which type of that code it is. */
  datatype ClrType = ClrType(code: TypeCode, identity: Identity)

  /** `System.Data.DbType`; `Undefined` is any other value of the
      underlying integer, which a cast can produce. */
  datatype DbType =
    | AnsiString | Binary | Byte | Boolean | Currency | Date | DateTime
    | Decimal | Double | Guid | Int16 | Int32 | Int64 | Object | SByte
    | Single | String | Time | UInt16 | UInt32 | UInt64 | VarNumeric
    | AnsiStringFixedLength | StringFixedLength | Xml | DateTime2
    | DateTimeOffset | Undefined(value: int)

  /** The exception `DbTypeToType` throws: "无效的DbType值:…". */
  datatype InvalidDbType = InvalidDbType(value: DbType)

  /** The types the tables name, as `typeof(…)`. */
  const TypeOfString := ClrType(TypeCode.String, Itself)
  const TypeOfByteArray := ClrType(TypeCode.Object, ByteArrayType)
  const TypeOfGuid := ClrType(TypeCode.Object, GuidType)
  const TypeOfXmlDocument := ClrType(TypeCode.Object, XmlDocumentType)
  const TypeOfObject := ClrType(TypeCode.Object, Itself)

  function OfCode(code: TypeCode): ClrType {
    ClrType(code, Itself)
  }

  /** The primitive type codes with a `DbType` of the same name. */
  predicate HasNamesake(code: TypeCode) {
    !(code.Empty? || code.Object? || code.DBNull? || code.Char?)
  }

  /** The `DbType` of the same name as a primitive type code. */
  function Namesake(code: TypeCode): DbType
    requires HasNamesake(code)
  {
    match code
    case Boolean => DbType.Boolean
    case Byte => DbType.Byte
    case DateTime => DbType.DateTime
    case Decimal => DbType.Decimal
    case Double => DbType.Double
    case Int16 => DbType.Int16
    case Int32 => DbType.Int32
    case Int64 => DbType.Int64
    case SByte => DbType.SByte
    case Single => DbType.Single
    case String => DbType.String
    case UInt16 => DbType.UInt16
    case UInt32 => DbType.UInt32
    case UInt64 => DbType.UInt64
  }

  /** `TypeToDbType(type)` as the source writes it: the `switch` on the
      type code, then the identity tests, then `DbType.Object`. It differs
      from the corrected table only for `char`, which it maps to
      `DbType.Boolean`. */
  function TypeToDbTypeAsWritten(t: ClrType): (d: DbType)
    ensures t.code != TypeCode.Char ==> d == TypeToDbType(t)
    ensures t.code == TypeCode.Char ==> d == DbType.Boolean && d != TypeToDbType(t)
  {
    match t.code
    case Char => DbType.Boolean
    case DBNull => DbType.Object
    case Empty => DbType.Object
    case Object => IdentityDbType(t.identity)
    case _ => Namesake(t.code)
  }

  /** The identity tests made for `TypeCode.Object`. */
  function IdentityDbType(id: Identity): DbType {
    match id
    case GuidType => DbType.Guid
    case ByteArrayType => DbType.Binary
    case XmlDocumentType => DbType.Xml
    case Itself | OtherClass => DbType.Object
  }

  /** `char` comes out as `DbType.Boolean`, so a `char` column read back
      through `DbTypeToType` is typed `bool`. */
  lemma CharMapsToBoolean()
    ensures TypeToDbTypeAsWritten(OfCode(TypeCode.Char)) == DbType.Boolean
    ensures DbTypeToType(TypeToDbTypeAsWritten(OfCode(TypeCode.Char))) == Success(OfCode(TypeCode.Boolean))
  {
  }

  /** `TypeToDbType(type)` with `char` mapped to `DbType.StringFixedLength`,
      the fixed-length character type: every primitive code maps to the
      `DbType` of its name, `object`-coded types by identity. */
  function TypeToDbType(t: ClrType): (d: DbType)
    ensures HasNamesake(t.code) ==> d == Namesake(t.code)
    ensures t.code == TypeCode.Char ==> d == DbType.StringFixedLength
  {
    match t.code
    case Char => DbType.StringFixedLength
    case DBNull => DbType.Object
    case Empty => DbType.Object
    case Object => IdentityDbType(t.identity)
    case _ => Namesake(t.code)
  }

  /** Only `bool` is a `DbType.Boolean`; with the source's `Char` case
      this fails for `char`. */
  lemma OnlyBoolIsBoolean(t: ClrType)
    ensures TypeToDbType(t) == DbType.Boolean <==> t.code == TypeCode.Boolean
  {
  }

  /** Every type the tables know maps to a defined `DbType`. */
  lemma TypeToDbTypeDefined(t: ClrType)
    ensures !TypeToDbType(t).Undefined?
    ensures TypeToDbType(t) == DbType.Object <==>
              t.code in {TypeCode.Empty, TypeCode.DBNull} || (t.code == TypeCode.Object && t.identity in {Itself, OtherClass})
  {
  }

  /** `DbTypeToType(dbtype)`: the .NET type for every defined `DbType`, the
      exception for any other value. */
  function DbTypeToType(d: DbType): (r: Result<ClrType, InvalidDbType>)
    ensures r.Failure? <==> d.Undefined?
  {
    match d
    case AnsiString | AnsiStringFixedLength | String | StringFixedLength => Success(TypeOfString)
    case Binary => Success(TypeOfByteArray)
    case Boolean => Success(OfCode(TypeCode.Boolean))
    case Byte => Success(OfCode(TypeCode.Byte))
    case Date | DateTime | DateTime2 | DateTimeOffset | Time => Success(OfCode(TypeCode.DateTime))
    case Decimal | VarNumeric | Currency => Success(OfCode(TypeCode.Decimal))
    case Double => Success(OfCode(TypeCode.Double))
    case Guid => Success(TypeOfGuid)
    case Int16 => Success(OfCode(TypeCode.Int16))
    case Int32 => Success(OfCode(TypeCode.Int32))
    case Int64 => Success(OfCode(TypeCode.Int64))
    case Object => Success(TypeOfObject)
    case SByte => Success(OfCode(TypeCode.SByte))
    case Single => Success(OfCode(TypeCode.Single))
    case UInt16 => Success(OfCode(TypeCode.UInt16))
    case UInt32 => Success(OfCode(TypeCode.UInt32))
    case UInt64 => Success(OfCode(TypeCode.UInt64))
    case Xml => Success(TypeOfXmlDocument)
    case Undefined(_) => Failure(InvalidDbType(d))
  }

  /** The representative of each group of `DbType`s that share a .NET type. */
  function Canonical(d: DbType): DbType {
    match d
    case AnsiString | AnsiStringFixedLength | StringFixedLength => DbType.String
    case Date | DateTime2 | DateTimeOffset | Time => DbType.DateTime
    case VarNumeric | Currency => DbType.Decimal
    case _ => d
  }

  /** Every primitive type with a namesake `DbType`, and `Guid`, `byte[]`,
      `XmlDocument` and `object` itself, survives the trip through both
      tables. */
  lemma TypeRoundTrip(t: ClrType)
    requires (HasNamesake(t.code) && t.identity == Itself)
             || (t.code == TypeCode.Object && !t.identity.OtherClass?)
    ensures DbTypeToType(TypeToDbType(t)) == Success(t)
  {
  }

  /** Any other type does not survive the trip: an enum comes back as
      its underlying primitive type, and any other `object`-coded type
      (a class, a struct, a `Nullable<T>`) as `object`. */
  lemma OtherClassComesBackAsItsCode(t: ClrType)
    requires t.identity == OtherClass && (HasNamesake(t.code) || t.code == TypeCode.Object)
    ensures DbTypeToType(TypeToDbType(t)) == Success(ClrType(t.code, Itself))
    ensures DbTypeToType(TypeToDbType(t)) != Success(t)
  {
  }

  /** Every defined `DbType` comes back from both tables as the
      representative of its group. */
  lemma DbTypeRoundTrip(d: DbType)
    requires !d.Undefined?
    ensures TypeToDbType(DbTypeToType(d).value) == Canonical(d)
  {
    if d.AnsiString? || d.AnsiStringFixedLength? || d.String? || d.StringFixedLength?
       || d.Xml? || d.Binary? || d.Guid? {
      TextRoundTrip(d);
    } else if d.Date? || d.DateTime? || d.DateTime2? || d.DateTimeOffset? || d.Time? {
      TemporalRoundTrip(d);
    } else if d.Byte? || d.SByte? || d.Int16? || d.Int32? || d.Int64? || d.UInt16? || d.UInt32? || d.UInt64? {
      IntegerRoundTrip(d);
    } else {
      OtherRoundTrip(d);
    }
  }

  lemma TextRoundTrip(d: DbType)
    requires d.AnsiString? || d.AnsiStringFixedLength? || d.String? || d.StringFixedLength?
             || d.Xml? || d.Binary? || d.Guid?
    ensures TypeToDbType(DbTypeToType(d).value) == Canonical(d)
  {
  }

  lemma TemporalRoundTrip(d: DbType)
    requires d.Date? || d.DateTime? || d.DateTime2? || d.DateTimeOffset? || d.Time?
    ensures TypeToDbType(DbTypeToType(d).value) == Canonical(d)
  {
  }

  lemma IntegerRoundTrip(d: DbType)
    requires d.Byte? || d.SByte? || d.Int16? || d.Int32? || d.Int64? || d.UInt16? || d.UInt32? || d.UInt64?
    ensures TypeToDbType(DbTypeToType(d).value) == Canonical(d)
  {
  }

  lemma OtherRoundTrip(d: DbType)
    requires d.Boolean? || d.Currency? || d.Decimal? || d.Double? || d.Object? || d.Single? || d.VarNumeric?
    ensures TypeToDbType(DbTypeToType(d).value) == Canonical(d)
  {
  }
}
