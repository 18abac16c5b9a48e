/** `CIDictionary<K, V>`, the converter to `IDictionary<K, V>`, and its
    `DictionaryBuilder`: create the instance, then convert and add each
    key/value pair of the input, stopping at the first failure. */
module DictionaryConvert {
  import opened Common

  /** One key/value pair the input's `Mapper` enumerates. */
  datatype Pair<I> = Pair(key: I, value: I)

  /** The outcome of adding one pair, or a run of pairs, to an instance. */
  datatype Added<K, V> = Added(ok: bool, instance: map<K, V>, diagnostics: seq<Diagnostic>)

  /** `DictionaryBuilder.Add(key, value)` on an instance holding `m`: the key
      is converted first, the value only after it, and a key already present
      is refused (`Dictionary.Add` throws) rather than overwritten. */
  function AddPair<I, K, V>(m: map<K, V>, p: Pair<I>,
                            keyConvertor: I -> Conversion<K>, valueConvertor: I -> Conversion<V>)
    : (r: Added<K, V>)
    ensures r.ok <==> keyConvertor(p.key).value.Some? && valueConvertor(p.value).value.Some?
                      && keyConvertor(p.key).value.value !in m
    ensures r.ok ==> r.instance == m[keyConvertor(p.key).value.value := valueConvertor(p.value).value.value]
    ensures !r.ok ==> r.instance == m
    // the nested converters' diagnostics, key first, then one naming the failed step
    ensures keyConvertor(p.key).value.None? ==> r.diagnostics == keyConvertor(p.key).diagnostics + [AddToDictionaryFailed]
    ensures keyConvertor(p.key).value.Some? && valueConvertor(p.value).value.None? ==>
              r.diagnostics == keyConvertor(p.key).diagnostics + valueConvertor(p.value).diagnostics + [AddElementFailed]
    ensures keyConvertor(p.key).value.Some? && valueConvertor(p.value).value.Some? && !r.ok ==>
              r.diagnostics == keyConvertor(p.key).diagnostics + valueConvertor(p.value).diagnostics + [AddElementRejected]
    ensures r.ok ==> r.diagnostics == keyConvertor(p.key).diagnostics + valueConvertor(p.value).diagnostics
    ensures !r.ok ==> |r.diagnostics| > 0
                      && r.diagnostics[|r.diagnostics| - 1] in {AddToDictionaryFailed, AddElementFailed, AddElementRejected}
  {
    var k := keyConvertor(p.key);
    if k.value.None? then Added(false, m, k.diagnostics + [AddToDictionaryFailed])
    else
      var v := valueConvertor(p.value);
      if v.value.None? then Added(false, m, k.diagnostics + v.diagnostics + [AddElementFailed])
      else if k.value.value in m then Added(false, m, k.diagnostics + v.diagnostics + [AddElementRejected])
      else Added(true, m[k.value.value := v.value.value], k.diagnostics + v.diagnostics)
  }

  /** The `while (mapper.MoveNext())` loop: add the pairs in order and stop
      at the first one that fails. */
  function AddPairs<I, K, V>(m: map<K, V>, pairs: seq<Pair<I>>,
                             keyConvertor: I -> Conversion<K>, valueConvertor: I -> Conversion<V>)
    : Added<K, V>
    decreases |pairs|
  {
    if pairs == [] then Added(true, m, [])
    else
      var first := AddPair(m, pairs[0], keyConvertor, valueConvertor);
      if !first.ok then first
      else
        var rest := AddPairs(first.instance, pairs[1..], keyConvertor, valueConvertor);
        Added(rest.ok, rest.instance, first.diagnostics + rest.diagnostics)
  }

  /** The key pair `i` converts to, when it converts. */
  function KeyAt<I, K>(pairs: seq<Pair<I>>, i: int, keyConvertor: I -> Conversion<K>): Option<K>
    requires 0 <= i < |pairs|
  {
    keyConvertor(pairs[i].key).value
  }

  /** Every pair converts, and the converted keys are new and distinct. */
  predicate AllAddable<I, K, V>(m: map<K, V>, pairs: seq<Pair<I>>,
                                keyConvertor: I -> Conversion<K>, valueConvertor: I -> Conversion<V>)
  {
    && (forall i :: 0 <= i < |pairs| ==>
          KeyAt(pairs, i, keyConvertor).Some? && valueConvertor(pairs[i].value).value.Some?
          && KeyAt(pairs, i, keyConvertor).value !in m)
    && (forall i, j :: 0 <= i < j < |pairs| ==> KeyAt(pairs, i, keyConvertor) != KeyAt(pairs, j, keyConvertor))
  }

  /** The loop succeeds exactly when every pair converts to a new,
      distinct key. */
  lemma {:induction false} AddPairsOk<I, K, V>(m: map<K, V>, pairs: seq<Pair<I>>,
                                               keyConvertor: I -> Conversion<K>,
                                               valueConvertor: I -> Conversion<V>)
    ensures AddPairs(m, pairs, keyConvertor, valueConvertor).ok <==> AllAddable(m, pairs, keyConvertor, valueConvertor)
    decreases |pairs|
  {
    if pairs != [] {
      var first := AddPair(m, pairs[0], keyConvertor, valueConvertor);
      var tail := pairs[1..];
      assert forall i :: 0 <= i < |tail| ==> KeyAt(tail, i, keyConvertor) == KeyAt(pairs, i + 1, keyConvertor);
      if first.ok {
        var m1 := first.instance;
        AddPairsOk(m1, tail, keyConvertor, valueConvertor);
        if AllAddable(m, pairs, keyConvertor, valueConvertor) {
          assert AllAddable(m1, tail, keyConvertor, valueConvertor) by {
            forall i | 0 <= i < |tail|
              ensures KeyAt(tail, i, keyConvertor).Some? && valueConvertor(tail[i].value).value.Some?
                      && KeyAt(tail, i, keyConvertor).value !in m1
            {
              assert KeyAt(pairs, 0, keyConvertor) != KeyAt(pairs, i + 1, keyConvertor);
            }
          }
        }
        if AllAddable(m1, tail, keyConvertor, valueConvertor) {
          forall i, j | 0 <= i < j < |pairs|
            ensures KeyAt(pairs, i, keyConvertor) != KeyAt(pairs, j, keyConvertor)
          {
            if i > 0 {
              assert KeyAt(tail, i - 1, keyConvertor) != KeyAt(tail, j - 1, keyConvertor);
            } else {
              assert KeyAt(tail, j - 1, keyConvertor).value !in m1;
            }
          }
        }
      } else {
        assert 0 < |pairs|;
      }
    }
  }

  /** When every pair is addable, the loop leaves the original entries
      untouched and adds exactly the converted pairs. */
  lemma {:induction false} AddPairsContent<I, K, V>(m: map<K, V>, pairs: seq<Pair<I>>,
                                                    keyConvertor: I -> Conversion<K>,
                                                    valueConvertor: I -> Conversion<V>)
    requires AllAddable(m, pairs, keyConvertor, valueConvertor)
    ensures var r := AddPairs(m, pairs, keyConvertor, valueConvertor).instance;
            && (forall k :: k in r <==>
                  k in m || exists i :: 0 <= i < |pairs| && KeyAt(pairs, i, keyConvertor) == Some(k))
            && (forall k :: k in m ==> r[k] == m[k])
            && (forall i :: 0 <= i < |pairs| ==>
                  KeyAt(pairs, i, keyConvertor).value in r
                  && r[KeyAt(pairs, i, keyConvertor).value] == valueConvertor(pairs[i].value).value.value)
    decreases |pairs|
  {
    if pairs != [] {
      var tail := pairs[1..];
      var k0 := KeyAt(pairs, 0, keyConvertor).value;
      var m1 := AddPair(m, pairs[0], keyConvertor, valueConvertor).instance;
      assert forall i :: 0 <= i < |tail| ==> KeyAt(tail, i, keyConvertor) == KeyAt(pairs, i + 1, keyConvertor);
      assert AllAddable(m1, tail, keyConvertor, valueConvertor) by {
        forall i | 0 <= i < |tail|
          ensures KeyAt(tail, i, keyConvertor).value !in m1
        {
          assert KeyAt(pairs, 0, keyConvertor) != KeyAt(pairs, i + 1, keyConvertor);
        }
      }
      AddPairsContent(m1, tail, keyConvertor, valueConvertor);
      var r := AddPairs(m1, tail, keyConvertor, valueConvertor).instance;
      forall k ensures k in r <==> k in m || exists i :: 0 <= i < |pairs| && KeyAt(pairs, i, keyConvertor) == Some(k)
      {
        if k in r && k !in m && k != k0 {
          var i :| 0 <= i < |tail| && KeyAt(tail, i, keyConvertor) == Some(k);
          assert KeyAt(pairs, i + 1, keyConvertor) == Some(k);
        }
        if exists i :: 0 <= i < |pairs| && KeyAt(pairs, i, keyConvertor) == Some(k) {
          var i :| 0 <= i < |pairs| && KeyAt(pairs, i, keyConvertor) == Some(k);
          if i > 0 {
            assert KeyAt(tail, i - 1, keyConvertor) == Some(k);
          }
        }
      }
      forall i | 0 <= i < |pairs|
        ensures KeyAt(pairs, i, keyConvertor).value in r
                && r[KeyAt(pairs, i, keyConvertor).value] == valueConvertor(pairs[i].value).value.value
      {
        if i > 0 {
          assert KeyAt(tail, i - 1, keyConvertor) == KeyAt(pairs, i, keyConvertor);
        }
      }
    }
  }

  /** `ChangeTypeImpl`'s answer: `success`, the dictionary returned (none
      for `null`) and the diagnostics added along the way. */
  datatype Outcome<K, V> = Outcome(success: bool, result: Option<map<K, V>>, diagnostics: seq<Diagnostic>)

  /** The input of `ChangeTypeImpl`: `null` (or `DBNull`), or what `new
      Mapper(input)` makes of it: its pairs, or the message of its `Error`. */
  datatype DictionaryInput<I> = NullInput | Mapped(pairs: Result<seq<Pair<I>>, String16>)

  /** The `DictionaryBuilder`: the instance under construction, grown in
      place by `Add`. */
  class DictionaryBuilder<I, K(==), V> {
    const context: ConvertContext
    /** `_type.IsInterface`. */
    const isInterface: bool
    /** What `Activator.CreateInstance(_type)` throws, if it throws; when it
        does not, it makes an empty dictionary. */
    const creationError: Option<String16>
    const keyConvertor: I -> Conversion<K>
    const valueConvertor: I -> Conversion<V>
    /** `Instance`, null until created. */
    var instance: Option<map<K, V>>

    constructor (context: ConvertContext, isInterface: bool, creationError: Option<String16>,
                 keyConvertor: I -> Conversion<K>, valueConvertor: I -> Conversion<V>)
      ensures this.context == context && this.isInterface == isInterface
      ensures this.creationError == creationError
      ensures this.keyConvertor == keyConvertor && this.valueConvertor == valueConvertor
      ensures instance == None
    {
      this.context := context;
      this.isInterface := isInterface;
      this.creationError := creationError;
      this.keyConvertor := keyConvertor;
      this.valueConvertor := valueConvertor;
      instance := None;
    }

    /** Whether the instance can be created: always for an interface (a new
        `Dictionary<K, V>`), otherwise unless the constructor throws. */
    predicate CanCreate()
      reads this
    {
      isInterface || creationError.None?
    }

    /** `TryCreateInstance()`. */
    method TryCreateInstance() returns (ok: bool)
      modifies this, context
      ensures ok <==> CanCreate()
      ensures ok ==> instance == Some(map[]) && context.errors == old(context.errors)
      ensures !ok ==> instance == old(instance)
                      && context.errors == old(context.errors) + [Exception(creationError.value)]
    {
      if isInterface {
        instance := Some(map[]);
        return true;
      }
      if creationError.Some? {
        context.AddException(Exception(creationError.value));
        return false;
      }
      instance := Some(map[]);
      return true;
    }

    /** `Add(key, value)`. */
    method Add(key: I, value: I) returns (ok: bool)
      requires instance.Some?
      modifies this, context
      ensures var r := AddPair(old(instance.value), Pair(key, value), keyConvertor, valueConvertor);
              && ok == r.ok && instance == Some(r.instance)
              && context.errors == old(context.errors) + r.diagnostics
    {
      var k := keyConvertor(key);
      context.errors := context.errors + k.diagnostics;
      if k.value.None? {
        context.AddException(AddToDictionaryFailed);
        return false;
      }
      var v := valueConvertor(value);
      context.errors := context.errors + v.diagnostics;
      if v.value.None? {
        context.AddException(AddElementFailed);
        return false;
      }
      if k.value.value in instance.value {
        context.AddException(AddElementRejected);
        return false;
      }
      instance := Some(instance.value[k.value.value := v.value.value]);
      return true;
    }

    /** The `foreach` loop of `ChangeTypeImpl`: add the pairs in order and
        stop at the first that fails. */
    method AddEach(pairs: seq<Pair<I>>) returns (ok: bool)
      requires instance.Some?
      modifies this, context
      ensures var r := AddPairs(old(instance.value), pairs, keyConvertor, valueConvertor);
              && ok == r.ok && (ok ==> instance == Some(r.instance))
              && context.errors == old(context.errors) + r.diagnostics
    {
      ghost var start, errors0 := instance.value, context.errors;
      ghost var done := AddPairs(start, [], keyConvertor, valueConvertor);
      var i := 0;
      while i < |pairs|
        invariant 0 <= i <= |pairs| && instance.Some?
        invariant done == AddPairs(start, pairs[..i], keyConvertor, valueConvertor)
        invariant done.ok && instance.value == done.instance
        invariant context.errors == errors0 + done.diagnostics
      {
        ghost var step := AddPair(instance.value, pairs[i], keyConvertor, valueConvertor);
        var added := Add(pairs[i].key, pairs[i].value);
        AddPairsSnoc(start, pairs[..i], pairs[i], keyConvertor, valueConvertor);
        assert pairs[..i + 1] == pairs[..i] + [pairs[i]];
        done := Added(step.ok, if step.ok then step.instance else done.instance, done.diagnostics + step.diagnostics);
        if !added {
          AddPairsStop(start, pairs[..i + 1], pairs[i + 1..], keyConvertor, valueConvertor);
          assert pairs[..i + 1] + pairs[i + 1..] == pairs;
          return false;
        }
        i := i + 1;
      }
      assert pairs[..i] == pairs;
      return true;
    }
  }

  /** What `ChangeTypeImpl` answers for `input`. */
  function ImplOutcome<I, K, V>(input: DictionaryInput<I>, isInterface: bool, creationError: Option<String16>,
                                keyConvertor: I -> Conversion<K>, valueConvertor: I -> Conversion<V>)
    : (r: Outcome<K, V>)
    // null succeeds with null
    ensures input.NullInput? ==> r == Outcome(true, None, [])
    // a success always comes with a dictionary, otherwise null
    ensures !input.NullInput? ==> (r.success <==> r.result.Some?)
  {
    if input.NullInput? then Outcome(true, None, [])
    else if !isInterface && creationError.Some? then Outcome(false, None, [Exception(creationError.value)])
    else
      match input.pairs
      case Failure(message) => Outcome(false, None, [Exception(message)])
      case Success(pairs) =>
        var added := AddPairs(map[], pairs, keyConvertor, valueConvertor);
        Outcome(added.ok, if added.ok then Some(added.instance) else None, added.diagnostics)
  }

  /** A non-null input converts exactly when the instance can be created,
      the mapper has no error, and every pair converts to a distinct key;
      the dictionary then holds exactly the converted pairs. */
  lemma ImplOutcomeSpec<I, K, V>(pairs: seq<Pair<I>>, isInterface: bool, creationError: Option<String16>,
                                 keyConvertor: I -> Conversion<K>, valueConvertor: I -> Conversion<V>)
    ensures var r := ImplOutcome(Mapped(Success(pairs)), isInterface, creationError, keyConvertor, valueConvertor);
            && (r.success <==> (isInterface || creationError.None?)
                               && AllAddable(map[], pairs, keyConvertor, valueConvertor))
            && (r.success ==> (forall k :: k in r.result.value <==>
                                 exists i :: 0 <= i < |pairs| && KeyAt(pairs, i, keyConvertor) == Some(k))
                              && (forall i :: 0 <= i < |pairs| ==>
                                   r.result.value[KeyAt(pairs, i, keyConvertor).value]
                                   == valueConvertor(pairs[i].value).value.value))
  {
    AddPairsOk(map[], pairs, keyConvertor, valueConvertor);
    if AllAddable(map[], pairs, keyConvertor, valueConvertor) {
      AddPairsContent(map[], pairs, keyConvertor, valueConvertor);
    }
  }

  /** `ChangeTypeImpl(context, object input, …)`. */
  method ChangeTypeImpl<I, K(==), V>(context: ConvertContext, input: DictionaryInput<I>,
                                      isInterface: bool, creationError: Option<String16>,
                                      keyConvertor: I -> Conversion<K>, valueConvertor: I -> Conversion<V>)
    returns (success: bool, result: Option<map<K, V>>)
    modifies context
    ensures var r := ImplOutcome(input, isInterface, creationError, keyConvertor, valueConvertor);
            success == r.success && result == r.result && context.errors == old(context.errors) + r.diagnostics
  {
    if input.NullInput? {
      return true, None;
    }
    var builder := new DictionaryBuilder(context, isInterface, creationError, keyConvertor, valueConvertor);
    var created := builder.TryCreateInstance();
    if !created {
      return false, None;
    }
    if input.pairs.Failure? {
      context.AddException(Exception(input.pairs.error));
      return false, None;
    }
    var ok := builder.AddEach(input.pairs.value);
    if !ok {
      return false, None;
    }
    return true, builder.instance;
  }

  /** Once a run has failed, later pairs are never looked at. */
  lemma {:induction false} AddPairsStop<I, K, V>(m: map<K, V>, pairs: seq<Pair<I>>, later: seq<Pair<I>>,
                                                 keyConvertor: I -> Conversion<K>,
                                                 valueConvertor: I -> Conversion<V>)
    requires !AddPairs(m, pairs, keyConvertor, valueConvertor).ok
    ensures AddPairs(m, pairs + later, keyConvertor, valueConvertor) == AddPairs(m, pairs, keyConvertor, valueConvertor)
    decreases |pairs|
  {
    assert pairs != [];
    var first := AddPair(m, pairs[0], keyConvertor, valueConvertor);
    assert (pairs + later)[0] == pairs[0];
    if first.ok {
      assert (pairs + later)[1..] == pairs[1..] + later;
      AddPairsStop(first.instance, pairs[1..], later, keyConvertor, valueConvertor);
    }
  }

  /** Adding one more pair after a successful run. */
  lemma {:induction false} AddPairsSnoc<I, K, V>(m: map<K, V>, pairs: seq<Pair<I>>, p: Pair<I>,
                                                 keyConvertor: I -> Conversion<K>,
                                                 valueConvertor: I -> Conversion<V>)
    requires AddPairs(m, pairs, keyConvertor, valueConvertor).ok
    ensures var done := AddPairs(m, pairs, keyConvertor, valueConvertor);
            var step := AddPair(done.instance, p, keyConvertor, valueConvertor);
            AddPairs(m, pairs + [p], keyConvertor, valueConvertor)
            == Added(step.ok, if step.ok then step.instance else done.instance, done.diagnostics + step.diagnostics)
    decreases |pairs|
  {
    var done := AddPairs(m, pairs, keyConvertor, valueConvertor);
    var step := AddPair(done.instance, p, keyConvertor, valueConvertor);
    if pairs == [] {
      assert [] + [p] == [p];
      assert [p][1..] == [];
    } else {
      var first := AddPair(m, pairs[0], keyConvertor, valueConvertor);
      var rest := AddPairs(first.instance, pairs[1..], keyConvertor, valueConvertor);
      assert first.ok && done == Added(rest.ok, rest.instance, first.diagnostics + rest.diagnostics);
      assert (pairs + [p])[0] == pairs[0];
      assert (pairs + [p])[1..] == pairs[1..] + [p];
      AddPairsSnoc(first.instance, pairs[1..], p, keyConvertor, valueConvertor);
      var rest' := AddPairs(first.instance, pairs[1..] + [p], keyConvertor, valueConvertor);
      assert AddPairs(m, pairs + [p], keyConvertor, valueConvertor)
             == Added(rest'.ok, rest'.instance, first.diagnostics + rest'.diagnostics);
    }
  }

  /** What `ChangeType(context, string input, …)` answers: a string that
      trims to nothing gives a new empty instance; a trimmed string longer
      than 2 between '{' and '}' is read as JSON by `toJson` (the component
      service, outside this model), whose failure is recorded; anything
      else fails quietly. */
  function StringOutcome<K, V>(input: Option<String16>, isInterface: bool, creationError: Option<String16>,
                               toJson: String16 -> Result<map<K, V>, String16>)
    : (r: Outcome<K, V>)
    ensures var s := if input.Some? then Trim(input.value) else [];
            && (s == [] ==> r == if isInterface || creationError.None? then Outcome(true, Some(map[]), [])
                                 else Outcome(false, None, [Exception(creationError.value)]))
            && (s != [] && !BraceWrapped(s, 2) ==> r == Outcome(false, None, []))
            && (BraceWrapped(s, 2) && toJson(s).Success? ==> r == Outcome(true, Some(toJson(s).value), []))
            && (BraceWrapped(s, 2) && toJson(s).Failure? ==> r == Outcome(false, None, [Exception(toJson(s).error)]))
            && (r.success <==> r.result.Some?)
  {
    var s := if input.Some? then Trim(input.value) else [];
    if |s| == 0 then
      if isInterface || creationError.None? then Outcome(true, Some(map[]), [])
      else Outcome(false, None, [Exception(creationError.value)])
    else if |s| > 2 && s[0] == 0x7B && s[|s| - 1] == 0x7D then
      match toJson(s)
      case Success(m) => Outcome(true, Some(m), [])
      case Failure(message) => Outcome(false, None, [Exception(message)])
    else Outcome(false, None, [])
  }

  /** Only strings longer than "{}" reach the JSON reader: a non-blank
      string of at most two characters after trimming fails quietly. */
  lemma ShortStringsFail<K, V>(input: String16, isInterface: bool, creationError: Option<String16>,
                               toJson: String16 -> Result<map<K, V>, String16>)
    requires Trim(input) != [] && |Trim(input)| <= 2
    ensures StringOutcome(Some(input), isInterface, creationError, toJson) == Outcome(false, None, [])
  {
  }

  /** `ChangeType(context, string input, …)`. */
  method ChangeString<I, K(==), V>(context: ConvertContext, input: Option<String16>,
                                    isInterface: bool, creationError: Option<String16>,
                                    keyConvertor: I -> Conversion<K>, valueConvertor: I -> Conversion<V>,
                                    toJson: String16 -> Result<map<K, V>, String16>)
    returns (success: bool, result: Option<map<K, V>>)
    modifies context
    ensures var r := StringOutcome(input, isInterface, creationError, toJson);
            success == r.success && result == r.result && context.errors == old(context.errors) + r.diagnostics
  {
    var s := if input.Some? then Trim(input.value) else [];
    if |s| == 0 {
      var builder := new DictionaryBuilder(context, isInterface, creationError, keyConvertor, valueConvertor);
      success := builder.TryCreateInstance();
      result := if success then builder.instance else None;
      return;
    }
    if |s| > 2 {
      if s[0] == 0x7B && s[|s| - 1] == 0x7D {
        var json := toJson(s);
        if json.Success? {
          return true, Some(json.value);
        }
        context.AddException(Exception(json.error));
      }
    }
    return false, None;
  }
}
