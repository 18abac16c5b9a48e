/** `CNameValueCollection`, the converter to `NameValueCollection`, and its
    `NVCollectiontHelper`: create the collection, then convert each
    name/value pair of the input to strings and append it, stopping at the
    first failure. The input is read through the first shape it has, in a
    fixed order. */
module NameValueConvert {
  import opened Common

  /** One name/value pair of the input; reading the value may throw (a
      data reader's `GetValue(i)`, a property getter), in which case it is
      the exception's message. */
  datatype Entry<O> = Entry(name: O, value: Result<O, String16>)

  /** A `NameValueCollection`, as the list of pairs appended to it. */
  type Collection = seq<(String16, String16)>

  /** The outcome of appending one entry, or a run of entries. */
  datatype Appended = Appended(
    ok: bool,
    collection: Collection,
    contextDiagnostics: seq<Diagnostic>,   // added by the nested string converter
    logged: seq<Diagnostic>)               // added to the ambient `Error` list

  /** `Add<P>(key, getValue, param)` on a collection holding `c` (the plain
      `Add(key, value)` is the case of a value that does not throw): the
      name is converted first; then the value is read and converted; then
      `Collection.Add` runs, which throws `addError` if it has one. */
  function AppendEntry<O>(c: Collection, e: Entry<O>, toText: O -> Conversion<String16>,
                          addError: Option<String16>): (r: Appended)
    ensures r.ok <==> toText(e.name).value.Some? && e.value.Success?
                      && toText(e.value.value).value.Some? && addError.None?
    ensures r.ok ==> r.collection == c + [(toText(e.name).value.value, toText(e.value.value).value.value)]
    ensures !r.ok ==> r.collection == c
    // a diagnostic is logged exactly when, the name having converted,
    // reading the value or appending threw
    ensures |r.logged| <= 1
    ensures |r.logged| == 1 <==> toText(e.name).value.Some?
                                 && (e.value.Failure? || (toText(e.value.value).value.Some? && addError.Some?))
  {
    var k := toText(e.name);
    if k.value.None? then Appended(false, c, k.diagnostics, [])
    else
      match e.value
      case Failure(message) => Appended(false, c, k.diagnostics, [Exception(message)])
      case Success(value) =>
        var v := toText(value);
        if v.value.None? then Appended(false, c, k.diagnostics + v.diagnostics, [])
        else if addError.Some? then Appended(false, c, k.diagnostics + v.diagnostics, [Exception(addError.value)])
        else Appended(true, c + [(k.value.value, v.value.value)], k.diagnostics + v.diagnostics, [])
  }

  /** One of the loops of `ChangeTypeImpl`: append the entries in order and
      stop at the first one that fails. */
  function AppendAll<O>(c: Collection, entries: seq<Entry<O>>, toText: O -> Conversion<String16>,
                        addError: Option<String16>): Appended
    decreases |entries|
  {
    if entries == [] then Appended(true, c, [], [])
    else
      var first := AppendEntry(c, entries[0], toText, addError);
      if !first.ok then first
      else
        var rest := AppendAll(first.collection, entries[1..], toText, addError);
        Appended(rest.ok, rest.collection, first.contextDiagnostics + rest.contextDiagnostics,
                 first.logged + rest.logged)
  }

  /** Entry `e` converts to the string pair `(name, value)`. */
  predicate ConvertsTo<O>(e: Entry<O>, toText: O -> Conversion<String16>, pair: (String16, String16)) {
    && toText(e.name).value == Some(pair.0)
    && e.value.Success? && toText(e.value.value).value == Some(pair.1)
  }

  predicate Appendable<O>(e: Entry<O>, toText: O -> Conversion<String16>) {
    toText(e.name).value.Some? && e.value.Success? && toText(e.value.value).value.Some?
  }

  /** The loop succeeds exactly when every entry converts and the
      collection accepts additions; the collection then ends with one
      converted pair per entry, in input order, after what it held. */
  lemma {:induction false} AppendAllSpec<O>(c: Collection, entries: seq<Entry<O>>,
                                            toText: O -> Conversion<String16>, addError: Option<String16>)
    ensures var r := AppendAll(c, entries, toText, addError);
            && (r.ok <==> (entries == [] || addError.None?)
                          && forall i :: 0 <= i < |entries| ==> Appendable(entries[i], toText))
            && (r.ok ==> |r.collection| == |c| + |entries| && r.collection[..|c|] == c
                         && forall i :: 0 <= i < |entries| ==> ConvertsTo(entries[i], toText, r.collection[|c| + i]))
    decreases |entries|
  {
    if entries != [] {
      var first := AppendEntry(c, entries[0], toText, addError);
      var tail := entries[1..];
      if first.ok {
        AppendAllSpec(first.collection, tail, toText, addError);
        var r := AppendAll(first.collection, tail, toText, addError);
        assert forall i :: 0 <= i < |tail| ==> tail[i] == entries[i + 1];
        if r.ok {
          assert r.collection[..|c| + 1] == first.collection by {
            assert r.collection[..|c| + 1] == r.collection[..|first.collection|];
          }
          assert r.collection[..|c|] == first.collection[..|c|];
          forall i | 0 <= i < |entries|
            ensures ConvertsTo(entries[i], toText, r.collection[|c| + i])
          {
            if i == 0 {
              assert r.collection[|c|] == first.collection[|c|];
            } else {
              assert ConvertsTo(tail[i - 1], toText, r.collection[|first.collection| + (i - 1)]);
            }
          }
        }
      } else {
        assert !Appendable(entries[0], toText) || addError.Some?;
      }
    }
  }

  /** A data reader: closed or not, and its fields (`GetName(i)`,
      `GetValue(i)`). */
  datatype Reader<O> = Reader(isClosed: bool, fields: seq<Entry<O>>)

  /** A public property: its name, and its getter's result, if it has one. */
  datatype Property<O> = Property(name: O, getter: Option<Result<O, String16>>)

  /** The input of `ChangeTypeImpl`: `null` or `DBNull`, or the shapes an
      object can have, each when it has it. The values of a
      NameValueCollection, a DataRow and a dictionary are read before
      `Add(key, value)` is called, so they are plain values. */
  datatype NameValueInput<O> =
    | NullInput
    | Shapes(
        nameValues: Option<seq<(O, O)>>,    // a NameValueCollection: each name and nv[name]
        row: Option<seq<(O, O)>>,           // a DataRow or DataRowView with a Table: each column's name and value
        reader: Option<Reader<O>>,          // an IDataReader
        dictionary: Option<seq<(O, O)>>,    // an IDictionary: each entry
        properties: seq<Property<O>>)       // PublicPropertyCache.GetByType(input.GetType())

  /** Pairs whose values are already read, as entries for `Add(key, value)`. */
  function Plain<O>(pairs: seq<(O, O)>): (es: seq<Entry<O>>)
    ensures |es| == |pairs|
    ensures forall i :: 0 <= i < |es| ==> es[i].name == pairs[i].0 && es[i].value == Success(pairs[i].1)
  {
    seq(|pairs|, i requires 0 <= i < |pairs| => Entry(pairs[i].0, Success(pairs[i].1)))
  }

  /** The entries read from the properties that have a getter: exactly
      those, and (by `PropertyEntriesAppend`) in property order. */
  function PropertyEntries<O>(ps: seq<Property<O>>): (es: seq<Entry<O>>)
    ensures |es| <= |ps|
    ensures forall e :: e in es ==> exists p :: p in ps && p.getter.Some? && e == Entry(p.name, p.getter.value)
    ensures forall p :: p in ps && p.getter.Some? ==> Entry(p.name, p.getter.value) in es
  {
    if ps == [] then []
    else
      var rest := PropertyEntries(ps[1..]);
      match ps[0].getter
      case Some(value) => [Entry(ps[0].name, value)] + rest
      case None => rest
  }

  /** The entries `ChangeTypeImpl` appends for an input that is not null:
      from the first shape in the order NameValueCollection, DataRow,
      IDataReader (when open), IDictionary, public properties; none when
      the reader is closed or there is no shape at all. */
  function Selected<O>(input: NameValueInput<O>): Option<seq<Entry<O>>>
    requires input.Shapes?
  {
    if input.nameValues.Some? then Some(Plain(input.nameValues.value))
    else if input.row.Some? then Some(Plain(input.row.value))
    else if input.reader.Some? then
      if input.reader.value.isClosed then None else Some(input.reader.value.fields)
    else if input.dictionary.Some? then Some(Plain(input.dictionary.value))
    else if |input.properties| > 0 then Some(PropertyEntries(input.properties))
    else None
  }

  /** `ChangeTypeImpl`'s answer: `success`, the collection returned (none
      for `null`), the context's new diagnostics and the `Error` entries. */
  datatype Outcome = Outcome(success: bool, result: Option<Collection>,
                             contextDiagnostics: seq<Diagnostic>, logged: seq<Diagnostic>)

  /** What `ChangeTypeImpl` answers for `input`, the collection type's
      constructor throwing `creationError` if it has one. */
  function ImplOutcome<O>(input: NameValueInput<O>, creationError: Option<String16>,
                          toText: O -> Conversion<String16>, addError: Option<String16>): (r: Outcome)
    ensures input.NullInput? ==> r == Outcome(true, None, [], [])
    ensures input.Shapes? && creationError.Some? ==> r == Outcome(false, None, [], [Exception(creationError.value)])
    // a closed reader, met before any dictionary or property, fails with its diagnostic
    ensures (input.Shapes? && creationError.None? && input.nameValues.None? && input.row.None?
             && input.reader.Some? && input.reader.value.isClosed) ==> r == Outcome(false, None, [], [ReaderClosed])
    ensures r.success && input.Shapes? ==> r.result.Some?
    ensures !r.success ==> r.result.None?
  {
    if input.NullInput? then Outcome(true, None, [], [])
    else if creationError.Some? then Outcome(false, None, [], [Exception(creationError.value)])
    else if input.nameValues.None? && input.row.None? && input.reader.Some? && input.reader.value.isClosed then
      Outcome(false, None, [], [ReaderClosed])
    else
      match Selected(input)
      case None => Outcome(false, None, [], [])
      case Some(entries) =>
        var r := AppendAll([], entries, toText, addError);
        Outcome(r.ok, if r.ok then Some(r.collection) else None, r.contextDiagnostics, r.logged)
  }

  /** Once the collection exists, the conversion succeeds exactly when the
      input has a usable shape, every entry of it converts and (unless
      there is nothing to add) the collection accepts additions; the
      collection then holds one converted pair per entry, in input order. */
  lemma ImplOutcomeSpec<O>(input: NameValueInput<O>, creationError: Option<String16>,
                           toText: O -> Conversion<String16>, addError: Option<String16>)
    requires input.Shapes? && creationError.None?
    ensures var r := ImplOutcome(input, creationError, toText, addError);
            var selected := Selected(input);
            && (r.success <==> (&& selected.Some?
                                && (selected.value == [] || addError.None?)
                                && forall i :: 0 <= i < |selected.value| ==> Appendable(selected.value[i], toText)))
            && (r.success ==> && |r.result.value| == |selected.value|
                              && forall i :: 0 <= i < |selected.value| ==>
                                   ConvertsTo(selected.value[i], toText, r.result.value[i]))
  {
    var selected := Selected(input);
    if selected.Some? {
      AppendAllSpec([], selected.value, toText, addError);
    }
  }

  /** Only the first shape counts: an input that is a NameValueCollection
      converts the same whatever else it is. */
  lemma FirstShapeWins<O>(input: NameValueInput<O>, creationError: Option<String16>,
                          toText: O -> Conversion<String16>, addError: Option<String16>)
    requires input.Shapes? && input.nameValues.Some?
    ensures ImplOutcome(input, creationError, toText, addError)
            == ImplOutcome(Shapes(input.nameValues, None, None, None, []), creationError, toText, addError)
  {
  }

  /** A DataRow that is not a NameValueCollection is read as a row,
      whatever else it is. */
  lemma RowWins<O>(input: NameValueInput<O>, creationError: Option<String16>,
                   toText: O -> Conversion<String16>, addError: Option<String16>)
    requires input.Shapes? && input.nameValues.None? && input.row.Some?
    ensures ImplOutcome(input, creationError, toText, addError)
            == ImplOutcome(Shapes(None, input.row, None, None, []), creationError, toText, addError)
  {
  }

  /** A data reader that is neither of the above is read as a reader (or
      fails, when closed), whatever else it is. */
  lemma ReaderWins<O>(input: NameValueInput<O>, creationError: Option<String16>,
                      toText: O -> Conversion<String16>, addError: Option<String16>)
    requires input.Shapes? && input.nameValues.None? && input.row.None? && input.reader.Some?
    ensures ImplOutcome(input, creationError, toText, addError)
            == ImplOutcome(Shapes(None, None, input.reader, None, []), creationError, toText, addError)
  {
  }

  /** A dictionary that is none of the above is read as a dictionary,
      its public properties being ignored. */
  lemma DictionaryWins<O>(input: NameValueInput<O>, creationError: Option<String16>,
                          toText: O -> Conversion<String16>, addError: Option<String16>)
    requires input.Shapes? && input.nameValues.None? && input.row.None? && input.reader.None?
    requires input.dictionary.Some?
    ensures ImplOutcome(input, creationError, toText, addError)
            == ImplOutcome(Shapes(None, None, None, input.dictionary, []), creationError, toText, addError)
  {
  }

  /** An object with no shape and no public property fails quietly. */
  lemma NoShapeFails<O>(input: NameValueInput<O>, toText: O -> Conversion<String16>, addError: Option<String16>)
    requires input == Shapes(None, None, None, None, [])
    ensures ImplOutcome(input, None, toText, addError) == Outcome(false, None, [], [])
  {
  }

  /** An object with public properties, none of them readable, converts
      to an empty collection. */
  lemma UnreadablePropertiesGiveEmpty<O>(ps: seq<Property<O>>, toText: O -> Conversion<String16>,
                                         addError: Option<String16>)
    requires |ps| > 0 && forall i :: 0 <= i < |ps| ==> ps[i].getter.None?
    ensures ImplOutcome(Shapes(None, None, None, None, ps), None, toText, addError) == Outcome(true, Some([]), [], [])
  {
    NoGetters(ps);
  }

  /** Filtering the properties keeps their order: the entries of two runs
      of properties are those of the first run followed by those of the
      second. */
  lemma {:induction false} PropertyEntriesAppend<O>(ps: seq<Property<O>>, qs: seq<Property<O>>)
    ensures PropertyEntries(ps + qs) == PropertyEntries(ps) + PropertyEntries(qs)
    decreases |ps|
  {
    if ps == [] {
      assert ps + qs == qs;
    } else {
      assert (ps + qs)[0] == ps[0];
      assert (ps + qs)[1..] == ps[1..] + qs;
      PropertyEntriesAppend(ps[1..], qs);
    }
  }

  lemma {:induction false} NoGetters<O>(ps: seq<Property<O>>)
    requires forall i :: 0 <= i < |ps| ==> ps[i].getter.None?
    ensures PropertyEntries(ps) == []
  {
    if ps != [] {
      NoGetters(ps[1..]);
    }
  }

  /** The `NVCollectiontHelper`: the collection under construction, grown
      in place by `Add`. */
  class NVCollectionHelper<O> {
    const context: ConvertContext
    const errorLog: ErrorLog
    /** What `Activator.CreateInstance(_type)` throws, if it throws. */
    const creationError: Option<String16>
    /** What `Collection.Add` throws, if it throws (a read-only collection). */
    const addError: Option<String16>
    /** `_context.Get<string>()`. */
    const toText: O -> Conversion<String16>
    /** `Collection`, null until created. */
    var collection: Option<Collection>

    constructor (context: ConvertContext, errorLog: ErrorLog, creationError: Option<String16>,
                 addError: Option<String16>, toText: O -> Conversion<String16>)
      ensures this.context == context && this.errorLog == errorLog
      ensures this.creationError == creationError && this.addError == addError && this.toText == toText
      ensures collection == None
    {
      this.context := context;
      this.errorLog := errorLog;
      this.creationError := creationError;
      this.addError := addError;
      this.toText := toText;
      collection := None;
    }

    /** `CreateInstance()`. */
    method CreateInstance() returns (ok: bool)
      modifies this, errorLog
      ensures ok <==> creationError.None?
      ensures ok ==> collection == Some([]) && errorLog.entries == old(errorLog.entries)
      ensures !ok ==> collection == old(collection)
                      && errorLog.entries == old(errorLog.entries) + [Exception(creationError.value)]
    {
      if creationError.Some? {
        errorLog.Add(Exception(creationError.value));
        return false;
      }
      collection := Some([]);
      return true;
    }

    /** `Add<P>(key, getValue, param)`, and `Add(key, value)` for a value
        that is already read. */
    method Add(e: Entry<O>) returns (ok: bool)
      requires collection.Some?
      modifies this, context, errorLog
      ensures var r := AppendEntry(old(collection.value), e, toText, addError);
              && ok == r.ok && collection == Some(r.collection)
              && context.errors == old(context.errors) + r.contextDiagnostics
              && errorLog.entries == old(errorLog.entries) + r.logged
    {
      var skey := toText(e.name);
      context.errors := context.errors + skey.diagnostics;
      if skey.value.None? {
        return false;
      }
      if e.value.Failure? {
        errorLog.Add(Exception(e.value.error));
        return false;
      }
      var svalue := toText(e.value.value);
      context.errors := context.errors + svalue.diagnostics;
      if svalue.value.None? {
        return false;
      }
      if addError.Some? {
        errorLog.Add(Exception(addError.value));
        return false;
      }
      collection := Some(collection.value + [(skey.value.value, svalue.value.value)]);
      return true;
    }

    /** One of the `foreach`/`for` loops of `ChangeTypeImpl` over `entries`. */
    method AddEach(entries: seq<Entry<O>>) returns (ok: bool)
      requires collection.Some?
      modifies this, context, errorLog
      ensures var r := AppendAll(old(collection.value), entries, toText, addError);
              && ok == r.ok && (ok ==> collection == Some(r.collection))
              && context.errors == old(context.errors) + r.contextDiagnostics
              && errorLog.entries == old(errorLog.entries) + r.logged
    {
      ghost var start, errors0, entries0 := collection.value, context.errors, errorLog.entries;
      ghost var done := AppendAll(start, [], toText, addError);
      var i := 0;
      while i < |entries|
        invariant 0 <= i <= |entries| && collection.Some?
        invariant done == AppendAll(start, entries[..i], toText, addError)
        invariant done.ok && collection.value == done.collection
        invariant context.errors == errors0 + done.contextDiagnostics
        invariant errorLog.entries == entries0 + done.logged
      {
        ghost var step := AppendEntry(collection.value, entries[i], toText, addError);
        var added := Add(entries[i]);
        AppendAllSnoc(start, entries[..i], entries[i], toText, addError);
        assert entries[..i + 1] == entries[..i] + [entries[i]];
        done := Appended(step.ok, step.collection, done.contextDiagnostics + step.contextDiagnostics,
                         done.logged + step.logged);
        if !added {
          AppendAllStop(start, entries[..i + 1], entries[i + 1..], toText, addError);
          assert entries[..i + 1] + entries[i + 1..] == entries;
          return false;
        }
        i := i + 1;
      }
      assert entries[..i] == entries;
      return true;
    }
  }

  /** Appending one more entry after a successful run. */
  lemma {:induction false} AppendAllSnoc<O>(c: Collection, entries: seq<Entry<O>>, e: Entry<O>,
                                            toText: O -> Conversion<String16>, addError: Option<String16>)
    requires AppendAll(c, entries, toText, addError).ok
    ensures var done := AppendAll(c, entries, toText, addError);
            var step := AppendEntry(done.collection, e, toText, addError);
            AppendAll(c, entries + [e], toText, addError)
            == Appended(step.ok, step.collection, done.contextDiagnostics + step.contextDiagnostics,
                        done.logged + step.logged)
    decreases |entries|
  {
    if entries == [] {
      assert [] + [e] == [e];
      assert [e][1..] == [];
    } else {
      var first := AppendEntry(c, entries[0], toText, addError);
      var rest := AppendAll(first.collection, entries[1..], toText, addError);
      assert first.ok;
      assert (entries + [e])[0] == entries[0];
      assert (entries + [e])[1..] == entries[1..] + [e];
      AppendAllSnoc(first.collection, entries[1..], e, toText, addError);
    }
  }

  /** Once a run has failed, later entries are never looked at. */
  lemma {:induction false} AppendAllStop<O>(c: Collection, entries: seq<Entry<O>>, later: seq<Entry<O>>,
                                            toText: O -> Conversion<String16>, addError: Option<String16>)
    requires !AppendAll(c, entries, toText, addError).ok
    ensures AppendAll(c, entries + later, toText, addError) == AppendAll(c, entries, toText, addError)
    decreases |entries|
  {
    assert entries != [];
    var first := AppendEntry(c, entries[0], toText, addError);
    assert (entries + later)[0] == entries[0];
    if first.ok {
      assert (entries + later)[1..] == entries[1..] + later;
      AppendAllStop(first.collection, entries[1..], later, toText, addError);
    }
  }

  /** `ChangeTypeImpl(context, object input, …)`. */
  method ChangeTypeImpl<O>(context: ConvertContext, errorLog: ErrorLog, input: NameValueInput<O>,
                           creationError: Option<String16>, toText: O -> Conversion<String16>,
                           addError: Option<String16>)
    returns (success: bool, result: Option<Collection>)
    modifies context, errorLog
    ensures var r := ImplOutcome(input, creationError, toText, addError);
            && success == r.success && result == r.result
            && context.errors == old(context.errors) + r.contextDiagnostics
            && errorLog.entries == old(errorLog.entries) + r.logged
  {
    if input.NullInput? {
      return true, None;
    }
    var helper := new NVCollectionHelper(context, errorLog, creationError, addError, toText);
    var created := helper.CreateInstance();
    if !created {
      return false, None;
    }
    var entries: seq<Entry<O>>;
    if input.nameValues.Some? {
      entries := Plain(input.nameValues.value);
    } else if input.row.Some? {
      entries := Plain(input.row.value);
    } else if input.reader.Some? {
      if input.reader.value.isClosed {
        errorLog.Add(ReaderClosed);
        return false, None;
      }
      entries := input.reader.value.fields;
    } else if input.dictionary.Some? {
      entries := Plain(input.dictionary.value);
    } else if |input.properties| > 0 {
      entries := PropertyEntries(input.properties);
    } else {
      return false, None;
    }
    var ok := helper.AddEach(entries);
    if !ok {
      return false, None;
    }
    return true, helper.collection;
  }

  /** What `ChangeType(context, string input, …)` answers: the trimmed
      string goes to the JSON reader `toJson` (outside this model) when it
      is longer than 1 and between '{' and '}', a failure there being
      logged; every other string, the empty one included, fails quietly. */
  function StringOutcome(input: Option<String16>, toJson: String16 -> Result<Collection, String16>)
    : (r: Outcome)
    ensures input.None? || !BraceWrapped(Trim(input.value), 1) ==> r == Outcome(false, None, [], [])
    ensures input.Some? && BraceWrapped(Trim(input.value), 1) ==>
              var json := toJson(Trim(input.value));
              r == if json.Success? then Outcome(true, Some(json.value), [], [])
                   else Outcome(false, None, [], [Exception(json.error)])
  {
    if input.None? then Outcome(false, None, [], [])
    else
      var s := Trim(input.value);
      if |s| > 1 && s[0] == 0x7B && s[|s| - 1] == 0x7D then
        match toJson(s)
        case Success(c) => Outcome(true, Some(c), [], [])
        case Failure(message) => Outcome(false, None, [], [Exception(message)])
      else Outcome(false, None, [], [])
  }

  /** A blank string fails here, where the dictionary converter succeeds
      with an empty instance, and "{}" does reach the JSON reader. */
  lemma BlankFailsBracesParse(s: String16, toJson: String16 -> Result<Collection, String16>)
    requires Trim(s) == []
    ensures StringOutcome(Some(s), toJson) == Outcome(false, None, [], [])
    ensures StringOutcome(Some([0x7B, 0x7D]), toJson).success == toJson([0x7B, 0x7D]).Success?
  {
    assert Trim([0x7B, 0x7D]) == [0x7B, 0x7D];
  }
}
