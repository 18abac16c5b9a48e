# blqw.Convert3 — a verified model of the converter core

blqw.Convert3 is a .NET library that converts any object to any type through
a cache of converters (`IConvertor<T>`), one per output type. This project
models, in Dafny:

- **The converter cache of `Convert3`** (`convert3.dfy`, with the pure
  rules in `registry.dfy` and the reflection facts in `typegraph.dfy`):
  - registration (`AddCache`), with its priority rule and the guard for
    generic converter definitions;
  - discovery at start-up, as a given sequence of registrations;
  - lookup (`GetCache`/`GetConvertor`). A miss specialises a generic
    factory, or synthesises a Liskov adapter over the nearest usable base
    class, else the first usable interface, else `object`;
  - the entry points `ChangeType`, `To`, `TryChangedType` and `TryTo`.
- **Helpers of `Convert3`**:
  - half-width/full-width conversion (`fullwidth.dfy`);
  - lower-case hexadecimal rendering of bytes (`hex.dfy`);
  - the `Type` ↔ `DbType` tables (`dbtype.dfy`).
- **Four converters**:
  - `CSByte`, integer narrowing to `sbyte` (`sbyte.dfy`);
  - `CEnum<T>`, the enum acceptance rule (`enum.dfy`);
  - `CIDictionary<K, V>` and its `DictionaryBuilder` (`dictionary.dfy`);
  - `CNameValueCollection` and its `NVCollectiontHelper` (`namevalue.dfy`).

Shared types are in `common.dfy`:
- the option and result types;
- UTF-16 code units (`Char16`) and strings of them;
- the fixed-width integers;
- the `ConvertContext` error list and the ambient `Error` list;
- `string.Trim`.

Types are abstract ids described by a table: base class, interfaces in
`GetInterfaces()` order, generic shape, and inheritance depth, which makes
the recursive lookup terminate. The static `_cache` is the `cache` field of
a `Convert3` object. Converter classes and factories are opaque values.
`GenericConvertorFactory.Create` and `LiskovConvertor<,>.MakeGenericType`
are functions given to that object.

Library calls are function parameters:
- `sbyte.TryParse`, `CString.IsHexString`;
- `Enum.Parse`, `Enum.IsDefined`, `Enum.ToObject` and `Enum.ToString`;
- the JSON reader `ComponentServices.ToJsonObject`;
- the nested converters obtained from the context.

A nested converter's answer is a `Conversion`: an optional value plus the
diagnostics it added to the context.

`AddCache` replaces an entry when `cache.Convertor.Priority <= conv.Priority`
(`Convert3.cs:112`), so of two converters with the same priority the one
registered later wins (`Registry.DiscoverKeepsHighestPriority`).

A .NET type, for the `DbType` tables, is its type code plus which type of
that code it is: the type the code names, one of `Guid`, `byte[]` and
`XmlDocument`, or any other type with that code (an enum shares its
underlying type's code; classes, structs and `Nullable<T>` share `Object`).

## Model

| member | source | states |
|---|---|---|
| Registry.Registered | blqw.Convert3/Convert3.cs:68-116 | only the registration key changes; a generic definition is stored as a factory under the output type's generic definition exactly when the four guard tests pass, otherwise nothing changes; any other class is stored unless an entry of strictly higher priority is present |
| Convert3Core.Convert3.AddCache | blqw.Convert3/Convert3.cs:68-116 | the new cache is `Registered` of the old one, and the cache invariant is kept |
| Registry.Discover | blqw.Convert3/Convert3.cs:23-61 | registering in order keeps every key equal to its item's output type |
| Registry.DiscoverSnoc | blqw.Convert3/Convert3.cs:26-49 | discovery of one more converter is one more `AddCache` on the cache so far |
| Registry.DiscoverKeepsHighestPriority | blqw.Convert3/Convert3.cs:108-115 | after discovery, a type nobody registers is absent, and otherwise holds the converter of highest priority, the last of those with that priority |
| Registry.WinnerFirst | blqw.Convert3/Convert3.cs:112 | the first registration for a type wins on an empty entry |
| Registry.WinnerKept | blqw.Convert3/Convert3.cs:112 | a later registration of strictly lower priority leaves the winner in place |
| Registry.WinnerReplaced | blqw.Convert3/Convert3.cs:112-114 | a later registration of equal or higher priority becomes the winner |
| Registry.RegisteredAt | blqw.Convert3/Convert3.cs:108-115 | the entry of one type after one registration, by the priority rule |
| Convert3Core.Convert3.InitCache | blqw.Convert3/Convert3.cs:23-61 | the cache is `Discover` of `CString` for `string` followed by the discovered converters, and the invariant holds |
| TypeGraph.ChainFromShape | blqw.Convert3/Convert3.cs:162-176 | the base-class walk visits known classes only, never `object`, an interface or a generic definition |
| TypeGraph.BaseChain | blqw.Convert3/Convert3.cs:162-176 | the classes the walk visits are all shallower than the starting type |
| TypeGraph.ChainStep | blqw.Convert3/Convert3.cs:175 | each step of the walk moves to `BaseType` |
| Registry.FirstUsable | blqw.Convert3/Convert3.cs:162-191 | the candidate found is one of the candidates and has a converter that is not IIgnoreInherit; when none is found, no candidate has one |
| Registry.FirstUsableAt | blqw.Convert3/Convert3.cs:162-191 | the search stops at the first usable candidate, in order |
| Registry.FirstUsableSkip | blqw.Convert3/Convert3.cs:176-179 | interfaces are only reached when every base class was skipped |
| Registry.FirstUsableAppend | blqw.Convert3/Convert3.cs:168-172 | a base class found ends the search before the interfaces |
| Registry.FirstUsableFrame | blqw.Convert3/Convert3.cs:165-181 | the search depends only on the entries of the candidates |
| Registry.FactoryFor | blqw.Convert3/Convert3.cs:139-151 | a factory applies only to a closed generic type whose definition holds a factory |
| Registry.NotOwnCandidate | blqw.Convert3/Convert3.cs:162-191 | a type is never its own base class or interface |
| Registry.AdapterSourceIgnoresOwnEntry | blqw.Convert3/Convert3.cs:194-196 | caching the adapter under the type does not change which ancestor it wraps |
| Registry.AdapterSourceIs | blqw.Convert3/Convert3.cs:162-191 | the adapter wraps the first usable candidate |
| Registry.AdapterSourceIsObject | blqw.Convert3/Convert3.cs:193-197 | with no usable candidate the adapter wraps `object` |
| Convert3Core.Convert3.SearchBaseClasses | blqw.Convert3/Convert3.cs:162-176 | the loop returns the first base class, nearest first, with a usable converter; it resolves, and so caches, every base class up to the one returned (all of them when none is), and only adds entries for shallower types |
| Convert3Core.Convert3.SearchInterfaces | blqw.Convert3/Convert3.cs:178-191 | the loop returns the first interface, in `GetInterfaces()` order, with a usable converter; every interface up to the one returned (all of them when none is) that can be resolved is cached on the way; only those interfaces enter the cache |
| Convert3Core.Convert3.GetCache | blqw.Convert3/Convert3.cs:130-198 | a hit returns the entry and changes nothing; existing entries never change; the result is non-null exactly for cached types, types with a factory, and classes that are not generic definitions; a factory's product or the adapter over the first usable ancestor is cached under the type itself, every candidate up to that ancestor having been resolved and cached first (`Registry.Walked`) |
| Convert3Core.Convert3.GetConvertor | blqw.Convert3/Convert3.cs:214-222 | the converter of `GetCache`'s item, null exactly when the type does not resolve |
| Convert3Core.Convert3.GetCacheOf | blqw.Convert3/Convert3.cs:200-208 | the same answer as `GetCache`, a hit changing nothing |
| Convert3Core.Convert3.TryChangedType | blqw.Convert3/Convert3.cs:307-311 | the answer of the resolved converter; the type must resolve, since the converter is used unchecked |
| Convert3Core.Convert3.ChangeType | blqw.Convert3/Convert3.cs:242-253 | the converted value, or the cast error when the converter fails |
| Convert3Core.Convert3.ChangeTypeOr | blqw.Convert3/Convert3.cs:260-268 | the converted value, or the default value when the converter fails |
| Convert3Core.Convert3.TryTo | blqw.Convert3/Convert3.cs:318-326 | the resolved converter's answer, or the fallback's when the type does not resolve |
| Convert3Core.Convert3.To | blqw.Convert3/Convert3.cs:274-285 | the converted value, or the cast error when the conversion fails |
| Convert3Core.Convert3.ToOr | blqw.Convert3/Convert3.cs:292-300 | the converted value, or the default value when the conversion fails |
| FullWidth.TryToSBC | blqw.Convert3/Convert3.cs:429-445 | changes a character exactly when it is the space or printable ASCII, into a full-width form; any other character is left as is |
| FullWidth.TryToDBC | blqw.Convert3/Convert3.cs:490-503 | changes a character exactly when it is the ideographic space or a full-width form, into printable ASCII or the space; any other is left as is |
| FullWidth.WidenThenNarrow | blqw.Convert3/Convert3.cs:423-503 | narrowing undoes every widening, so `ToDBC(ToSBC(c)) == c` for `c < 127` |
| FullWidth.NarrowThenWiden | blqw.Convert3/Convert3.cs:423-503 | widening undoes every narrowing |
| FullWidth.WidenAll | blqw.Convert3/Convert3.cs:394-414 | the string conversion keeps the length and widens each character |
| FullWidth.NarrowAll | blqw.Convert3/Convert3.cs:454-474 | the string conversion keeps the length and narrows each character |
| FullWidth.WidenAllThenNarrowAll | blqw.Convert3/Convert3.cs:394-474 | `ToDBC(ToSBC(s)) == s` for every string below U+007F |
| FullWidth.ToSBCString | blqw.Convert3/Convert3.cs:394-414 | the in-place loop over the character array yields `WidenAll` of the input |
| FullWidth.ToDBCString | blqw.Convert3/Convert3.cs:454-474 | the in-place loop over the character array yields `NarrowAll` of the input |
| Hex.NibbleToHex | blqw.Convert3/Convert3.cs:715-718 | a nibble below 10 becomes one of `0`-`9`, a larger one one of `a`-`f`, and the digit reads back as the nibble; a value of 16 or more gives no hex digit |
| Hex.HexOf | blqw.Convert3/Convert3.cs:699-713 | the text has two characters per byte |
| Hex.ParseHexOf | blqw.Convert3/Convert3.cs:699-718 | reading the text back as hexadecimal pairs gives the bytes |
| Hex.ByteToString | blqw.Convert3/Convert3.cs:699-713 | null for null data; an empty string for a count of 0, whatever the offset; otherwise the two-index loop yields `HexOf` of the bytes in the range |
| Hex.AllBytesToString | blqw.Convert3/Convert3.cs:694-697 | null for null data, else `HexOf` of all bytes |
| DbTypes.CharMapsToBoolean | blqw.Convert3/Convert3.cs:737-738 | `char` maps to `DbType.Boolean` and reads back as `bool` |
| DbTypes.TypeToDbTypeAsWritten | blqw.Convert3/Convert3.cs:729-784 | the table as written differs from the corrected one only on `char`, which it maps to `DbType.Boolean` |
| DbTypes.TypeToDbType | blqw.Convert3/Convert3.cs:729-784 | the corrected table: every primitive code maps to the `DbType` of its name, and `char` to `StringFixedLength` |
| DbTypes.OnlyBoolIsBoolean | blqw.Convert3/Convert3.cs:729-784 | only `bool` maps to `DbType.Boolean` |
| DbTypes.TypeToDbTypeDefined | blqw.Convert3/Convert3.cs:729-784 | every type maps to a defined `DbType`; `Object` exactly for `Empty`, `DBNull`, `object` itself and every other `Object`-coded type but `Guid`, `byte[]` and `XmlDocument` |
| DbTypes.DbTypeToType | blqw.Convert3/Convert3.cs:786-838 | fails exactly for an undefined `DbType` value |
| DbTypes.TypeRoundTrip | blqw.Convert3/Convert3.cs:729-838 | every primitive with a namesake, `Guid`, `byte[]`, `XmlDocument` and `object` itself comes back through both tables |
| DbTypes.OtherClassComesBackAsItsCode | blqw.Convert3/Convert3.cs:729-838 | any other type does not come back: an enum returns as its underlying primitive, any other `Object`-coded type as `object` |
| DbTypes.DbTypeRoundTrip | blqw.Convert3/Convert3.cs:729-838 | every defined `DbType` comes back as the representative of the group sharing its .NET type |
| SByteConvert.ChangeString | blqw.Convert3/Converts/Primitive/CSByte.cs:8-23 | the decimal parse wins; the hexadecimal parse is tried only after it fails |
| SByteConvert.ChangeTypeImpl | blqw.Convert3/Converts/Primitive/CSByte.cs:25-164 | an integral or Boolean input converts, to the same number, exactly when it fits in `sbyte`; strings take the string path; every failure gives 0; other inputs fail |
| SByteConvert.ChangeTypeIdempotent | blqw.Convert3/Converts/Primitive/CSByte.cs:90-93 | converting a result again gives the same result |
| EnumConvert.Accept | blqw.Convert3/Converts/Generic/CEnum.cs:110-128 | accepts exactly zero, a defined value, or a composite of a `[Flags]` enum; a refusal gives 0 and the invalid-value diagnostic |
| EnumConvert.ChangeString | blqw.Convert3/Converts/Generic/CEnum.cs:24-64 | a null or blank string fails quietly; a parse that throws fails with that exception; a parsed value goes through `Accept` |
| EnumConvert.ChangeTypeImpl | blqw.Convert3/Converts/Generic/CEnum.cs:73-132 | integral inputs go through `Enum.ToObject` and `Accept`; strings take the string path; other inputs fail quietly |
| EnumConvert.OutcomeShape | blqw.Convert3/Converts/Generic/CEnum.cs:24-132 | a success is a valid value with no diagnostic; a failure is 0 |
| EnumConvert.PathsAgree | blqw.Convert3/Converts/Generic/CEnum.cs:43-128 | a name and a number that denote the same value convert identically |
| DictionaryConvert.AddPair | blqw.Convert3/Converts/Generic/CIDictionary.cs:186-212 | adds exactly when key and value convert and the key is new; the key is converted first, and the value not at all when the key fails; the diagnostics are the nested converters' followed, on failure, by the one for the failed step (key, value, or a present key) |
| DictionaryConvert.AddPairsOk | blqw.Convert3/Converts/Generic/CIDictionary.cs:53-63 | the loop succeeds exactly when every pair converts to a new, distinct key |
| DictionaryConvert.AddPairsContent | blqw.Convert3/Converts/Generic/CIDictionary.cs:53-63 | on success the dictionary holds exactly the converted pairs |
| DictionaryConvert.AddPairsStop | blqw.Convert3/Converts/Generic/CIDictionary.cs:55-59 | after a failure no later pair is looked at |
| DictionaryConvert.AddPairsSnoc | blqw.Convert3/Converts/Generic/CIDictionary.cs:53-63 | one more iteration is one more `AddPair` |
| DictionaryConvert.DictionaryBuilder.TryCreateInstance | blqw.Convert3/Converts/Generic/CIDictionary.cs:164-181 | an interface gets an empty dictionary; otherwise a throwing constructor is recorded and fails |
| DictionaryConvert.DictionaryBuilder.Add | blqw.Convert3/Converts/Generic/CIDictionary.cs:186-212 | the instance and the context change as `AddPair` says |
| DictionaryConvert.DictionaryBuilder.AddEach | blqw.Convert3/Converts/Generic/CIDictionary.cs:53-63 | the loop changes the instance and the context as `AddPairs` says |
| DictionaryConvert.ImplOutcome | blqw.Convert3/Converts/Generic/CIDictionary.cs:25-64 | null succeeds with null; otherwise success comes with a dictionary and failure without |
| DictionaryConvert.ImplOutcomeSpec | blqw.Convert3/Converts/Generic/CIDictionary.cs:25-64 | a mapped input converts exactly when the instance can be created and every pair converts to a distinct key, and the result holds exactly those pairs |
| DictionaryConvert.ChangeTypeImpl | blqw.Convert3/Converts/Generic/CIDictionary.cs:25-64 | answers `ImplOutcome`; a mapper error is recorded and fails |
| DictionaryConvert.StringOutcome | blqw.Convert3/Converts/Generic/CIDictionary.cs:73-104 | a blank string gives an empty instance, or the recorded constructor failure; only brace-wrapped strings longer than 2 reach the JSON reader, whose map is returned or whose exception is recorded; the rest fail quietly |
| DictionaryConvert.ShortStringsFail | blqw.Convert3/Converts/Generic/CIDictionary.cs:86 | a non-blank string of at most two characters, `{}` included, fails |
| DictionaryConvert.ChangeString | blqw.Convert3/Converts/Generic/CIDictionary.cs:73-104 | answers `StringOutcome` |
| NameValueConvert.AppendEntry | blqw.Convert3/Converts/Primitive/CNameValueCollection.cs:157-208 | appends exactly when the name and the value convert to strings, reading the value does not throw and the collection accepts it; otherwise the collection is unchanged; an exception is logged exactly when, the name having converted, reading the value or `Collection.Add` threw |
| NameValueConvert.AppendAllSpec | blqw.Convert3/Converts/Primitive/CNameValueCollection.cs:30-101 | a loop succeeds exactly when every entry is appendable; the collection then ends with the converted pairs in input order |
| NameValueConvert.AppendAllSnoc | blqw.Convert3/Converts/Primitive/CNameValueCollection.cs:30-101 | one more iteration is one more `AppendEntry` |
| NameValueConvert.AppendAllStop | blqw.Convert3/Converts/Primitive/CNameValueCollection.cs:32-36 | after a failure no later entry is looked at |
| NameValueConvert.PropertyEntries | blqw.Convert3/Converts/Primitive/CNameValueCollection.cs:94-96 | the entries are exactly the properties that have a getter, each read through it |
| NameValueConvert.PropertyEntriesAppend | blqw.Convert3/Converts/Primitive/CNameValueCollection.cs:94-96 | the properties are read in their order |
| NameValueConvert.ImplOutcome | blqw.Convert3/Converts/Primitive/CNameValueCollection.cs:12-106 | null succeeds with null; a throwing constructor is recorded and fails; a closed reader is recorded and fails; success comes with a collection |
| NameValueConvert.ImplOutcomeSpec | blqw.Convert3/Converts/Primitive/CNameValueCollection.cs:20-105 | once the collection exists, the conversion succeeds exactly when the input has a usable shape, each of its entries converts and the collection accepts additions; the result holds the converted pairs in input order |
| NameValueConvert.FirstShapeWins | blqw.Convert3/Converts/Primitive/CNameValueCollection.cs:27-39 | a `NameValueCollection` input converts the same whatever other shapes it has |
| NameValueConvert.RowWins | blqw.Convert3/Converts/Primitive/CNameValueCollection.cs:41-54 | a row with a table that is no `NameValueCollection` converts the same whatever other shapes it has |
| NameValueConvert.ReaderWins | blqw.Convert3/Converts/Primitive/CNameValueCollection.cs:56-75 | a data reader that is neither of the above converts the same whatever other shapes it has |
| NameValueConvert.DictionaryWins | blqw.Convert3/Converts/Primitive/CNameValueCollection.cs:77-89 | a dictionary that is none of the above converts the same whatever its public properties |
| NameValueConvert.NoShapeFails | blqw.Convert3/Converts/Primitive/CNameValueCollection.cs:91-105 | an object with no shape and no public property fails quietly |
| NameValueConvert.UnreadablePropertiesGiveEmpty | blqw.Convert3/Converts/Primitive/CNameValueCollection.cs:91-103 | an object whose properties have no getter gives an empty collection |
| NameValueConvert.NVCollectionHelper.CreateInstance | blqw.Convert3/Converts/Primitive/CNameValueCollection.cs:143-155 | creates an empty collection, or records the constructor's exception and fails |
| NameValueConvert.NVCollectionHelper.Add | blqw.Convert3/Converts/Primitive/CNameValueCollection.cs:157-208 | the collection, the context and the error list change as `AppendEntry` says |
| NameValueConvert.NVCollectionHelper.AddEach | blqw.Convert3/Converts/Primitive/CNameValueCollection.cs:30-101 | the loop changes the collection, the context and the error list as `AppendAll` says |
| NameValueConvert.ChangeTypeImpl | blqw.Convert3/Converts/Primitive/CNameValueCollection.cs:12-106 | answers `ImplOutcome` |
| NameValueConvert.StringOutcome | blqw.Convert3/Converts/Primitive/CNameValueCollection.cs:108-127 | only trimmed brace-wrapped strings longer than 1 reach the JSON reader, whose failure is recorded; every other string, null included, fails quietly |
| NameValueConvert.BlankFailsBracesParse | blqw.Convert3/Converts/Primitive/CNameValueCollection.cs:108-127 | a blank string fails, unlike in `CIDictionary`, and `{}` does reach the JSON reader |

## Left out

- Assembly scanning and `Trace` output of `InitCache`: discovery is the given sequence of registrations.
- `_cache.Initialize()` at the end of `InitCache` (`Convert3.cs:59`): the `TypeCache` class is not part of this model, and the cache is usable as soon as discovery ends.
- `Convert3Core.Convert3.GetCache`: its non-null answer for every non-generic class rests on `ClosedConstructions`, an assumption on the two reflection functions given to `Convert3`: `GenericConvertorFactory.Create` and `MakeGenericType` on `LiskovConvertor<,>` never return a generic definition.
- Reflection: `Activator.CreateInstance` and `MakeGenericType`. The classes `LiskovConvertor`, `GenericConvertorFactory` and `CIDictionaryFactory` are opaque values and functions.
- Thread safety of the static cache: the model is sequential.
- The `ArgumentNullException` that `AddCache` throws for a null converter class: the model has no null classes.
- `_cache.Get<T>()` reads the same cache as `_cache.Get(typeof(T))`, so `GetCacheOf` probes `cache` directly.
- `ErrorContext.Callin` and the text of the `InvalidCastException` messages: a failed `ChangeType`/`To` is the error value `CastError`.
- The MD5 and SHA1 helpers: foreign cryptography and a random salt.
- `ToDynamic`, `GetDefaultValue` and `PropertyHandler.cs`: reflection and compiled expression trees.
- `CDouble`, `CSingle`, and the `Double`, `Single` and `Decimal` branches of `CSByte` and `CEnum`: floating-point and decimal rounding.
- `FullWidth.ToSBCString` and `FullWidth.ToDBCString`: a null string, on which the source throws (`input.ToCharArray()`), is not an input of the model.
- `Hex.ByteToString`: a negative count, and a positive count with a range outside the array, are excluded by the precondition. On these the source throws, or, when `offset + count` overflows `int`, skips the loop and returns `2 * count` NUL characters.
- `DictionaryConvert.DictionaryBuilder.Add`: the instance is a `Dictionary<K, V>` that refuses a present key. Other `IDictionary<K, V>` implementations are not modelled.
- `DictionaryConvert.AddPair`: a key that converts to null, on which `Dictionary.Add` throws `ArgumentNullException` (caught as a failed addition), is not modelled; every converted key is a value.
- `DbTypes.TypeRoundTrip`: types are told apart only by type code and by the three identities the table tests, so an enum and a class other than those are represented by their code alone.
- The mapper, the `DataRow` column list and the `IDataReader` fields are given as sequences of pairs.
- A `DataRow` without a table counts as no row.
- Nested converters are modelled only through their answer and the diagnostics they add.
- `NameValueConvert.NVCollectionHelper.Add`: `NameValueCollection.Add` merges repeated names into one entry. The model records the appended pairs in order.
- `NameValueConvert.NVCollectionHelper.Add`: an exception from a nested string converter is not modelled. Only a reader's `GetValue`, a property getter and `Collection.Add` throw; the values of a `NameValueCollection`, a row and a dictionary are read outside any `try`.
- The text of diagnostics: each is a constructor of `Diagnostic`, and the context's own exception wrapping is not modelled.

## Findings

| source | as written | input that shows it | evidently intended | confidence | as-written member | corrected member |
|---|---|---|---|---|---|---|
| blqw.Convert3/Convert3.cs:737-738 | `TypeCode.Char` maps to `DbType.Boolean` | `TypeToDbType(typeof(char))` gives `DbType.Boolean`, and `DbTypeToType` of that gives `typeof(bool)` | `char` maps to a character `DbType` (`StringFixedLength`), so that only `bool` maps to `DbType.Boolean` (`DbTypes.OnlyBoolIsBoolean`) | not executed | DbTypes.CharMapsToBoolean | DbTypes.TypeToDbType |
