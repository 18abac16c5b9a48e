/** The values the converter cache stores and the pure rules that decide
    what it stores: the registration rule of `AddCache`, discovery as a
    sequence of registrations, and the nearest-usable-ancestor search of
    `GetCache`. */
module Registry {
  import opened Common
  import opened TypeGraph

  /** The `T` of a converter class's `IConvertor<T>` interface, as far as
      `AddCache` inspects it. */
  datatype ResultShape = ResultShape(
    isGenericType: bool,
    isGenericDef: bool,
    hasGenericParameter: bool,   // GetGenericArguments().Any(it => it.IsGenericParameter)
    arity: nat)                  // GetGenericArguments().Length

  /** A converter class (the `convType` handed to `AddCache`). */
  datatype ConverterClass = ConverterClass(
    name: nat,
    isGenericDef: bool,
    result: ResultShape,
    instancePriority: int,        // Priority of Activator.CreateInstance(convType)
    instanceIgnoresInherit: bool) // whether that instance is IIgnoreInherit

  /** An `IConvertor` object held by the cache: an instance of a converter
      class, or a `GenericConvertorFactory` wrapping a generic definition. */
  datatype Converter = Converter(
    source: ConverterClass,
    priority: int,
    ignoresInherit: bool,
    isFactory: bool)

  /** Priority and IIgnoreInherit-ness of `GenericConvertorFactory`, whose
      class is not part of this model. */
  datatype FactoryTraits = FactoryTraits(priority: int, ignoresInherit: bool)

  /** `TypeCacheItem`: the output type and its converter. */
  datatype CacheItem = CacheItem(outputType: TypeId, convertor: Converter)

  type Cache = map<TypeId, CacheItem>

  /** `(IConvertor)Activator.CreateInstance(convType)`. */
  function Instantiate(c: ConverterClass): Converter
  {
    Converter(c, c.instancePriority, c.instanceIgnoresInherit, false)
  }

  /** `new GenericConvertorFactory(convType)`. */
  function FactoryOver(c: ConverterClass, traits: FactoryTraits): Converter
  {
    Converter(c, traits.priority, traits.ignoresInherit, true)
  }

  /** Every key is the output type of its item. */
  ghost predicate CacheValid(types: map<TypeId, TypeInfo>, cache: Cache) {
    forall k :: k in cache ==> k in types && cache[k].outputType == k
  }

  /** The four tests a generic converter definition must pass to be stored
      as a factory for `outputType`'s generic definition. */
  predicate GenericGuard(types: map<TypeId, TypeInfo>, outputType: TypeId, c: ConverterClass)
    requires outputType in types
  {
    && c.result.isGenericType
    && types[outputType].isGenericType
    && (c.result.hasGenericParameter || c.result.isGenericDef)
    && types[outputType].arity == c.result.arity
  }

  /** The only key `Registered` may change. */
  function RegistrationKey(types: map<TypeId, TypeInfo>, outputType: TypeId, c: ConverterClass): TypeId
    requires outputType in types
  {
    if c.isGenericDef then types[outputType].genericDef else outputType
  }

  /** The cache after `AddCache(outputType, convType)`. */
  function Registered(types: map<TypeId, TypeInfo>, traits: FactoryTraits, cache: Cache,
                      outputType: TypeId, c: ConverterClass): (m: Cache)
    requires TypesValid(types) && outputType in types
    // nothing but the registration key changes
    ensures forall k :: k != RegistrationKey(types, outputType, c) ==>
              (k in m <==> k in cache) && (k in cache ==> m[k] == cache[k])
    // a generic definition is stored, as a factory under the output type's
    // generic definition, exactly when it passes the guard
    ensures c.isGenericDef ==>
              var d := types[outputType].genericDef;
              if GenericGuard(types, outputType, c)
              then d in m && m[d] == CacheItem(d, FactoryOver(c, traits))
              else m == cache
    // any other class is stored unless a strictly higher priority is present
    ensures !c.isGenericDef ==>
              outputType in m &&
              if outputType in cache && cache[outputType].convertor.priority > c.instancePriority
              then m[outputType] == cache[outputType]
              else m[outputType] == CacheItem(outputType, Instantiate(c))
    ensures CacheValid(types, cache) ==> CacheValid(types, m)
  {
    assert TypeValid(types, outputType);
    if c.isGenericDef then
      if !c.result.isGenericType then cache
      else if !types[outputType].isGenericType then cache
      else if !c.result.hasGenericParameter && !c.result.isGenericDef then cache
      else if types[outputType].arity != c.result.arity then cache
      else
        var d := types[outputType].genericDef;
        cache[d := CacheItem(d, FactoryOver(c, traits))]
    else
      var conv := Instantiate(c);
      if outputType !in cache || cache[outputType].convertor.priority <= conv.priority
      then cache[outputType := CacheItem(outputType, conv)]
      else cache
  }

  /** One discovered `IConvertor<T>` implementation: `AddCache(T, convType)`. */
  datatype Registration = Registration(outputType: TypeId, converter: ConverterClass)

  ghost predicate RegistrationsValid(types: map<TypeId, TypeInfo>, regs: seq<Registration>) {
    forall i :: 0 <= i < |regs| ==> regs[i].outputType in types
  }

  /** The cache after registering `regs` in order. */
  function Discover(types: map<TypeId, TypeInfo>, traits: FactoryTraits, cache: Cache,
                    regs: seq<Registration>): (m: Cache)
    requires TypesValid(types) && RegistrationsValid(types, regs)
    ensures CacheValid(types, cache) ==> CacheValid(types, m)
  {
    if regs == [] then cache
    else
      var last := regs[|regs| - 1];
      Registered(types, traits, Discover(types, traits, cache, regs[..|regs| - 1]),
                 last.outputType, last.converter)
  }

  /** Discovery registers one more converter after the ones before it. */
  lemma DiscoverSnoc(types: map<TypeId, TypeInfo>, traits: FactoryTraits, cache: Cache,
                     regs: seq<Registration>, r: Registration)
    requires TypesValid(types) && RegistrationsValid(types, regs) && r.outputType in types
    ensures RegistrationsValid(types, regs + [r])
    ensures Discover(types, traits, cache, regs + [r])
            == Registered(types, traits, Discover(types, traits, cache, regs), r.outputType, r.converter)
  {
    assert (regs + [r])[..|regs|] == regs;
  }

  /** The first usable candidate of a prefix is the first of the whole. */
  lemma {:induction false} FirstUsableAppend(cache: Cache, front: seq<TypeId>, back: seq<TypeId>)
    requires FirstUsable(cache, front).Some?
    ensures FirstUsable(cache, front + back) == FirstUsable(cache, front)
  {
    assert (front + back)[0] == front[0];
    if !Usable(cache, front[0]) {
      assert (front + back)[1..] == front[1..] + back;
      FirstUsableAppend(cache, front[1..], back);
    }
  }

  /** Registration `r` offers a converter instance for `o`. */
  predicate Targets(r: Registration, o: TypeId) {
    r.outputType == o && !r.converter.isGenericDef
  }

  /** Registration `w` targets `o` with the highest priority among those
      that do, and no later one targeting `o` has that priority. */
  ghost predicate IsWinner(regs: seq<Registration>, o: TypeId, w: int) {
    && 0 <= w < |regs| && Targets(regs[w], o)
    && (forall i :: 0 <= i < |regs| && Targets(regs[i], o) ==>
          regs[i].converter.instancePriority <= regs[w].converter.instancePriority)
    && (forall i :: w < i < |regs| && Targets(regs[i], o) ==>
          regs[i].converter.instancePriority < regs[w].converter.instancePriority)
  }

  /** Whatever order discovery runs in, the converter cached for a type is
      one of those registered for it with the highest priority, and of
      those the one registered last; a type nobody registers stays absent. */
  lemma {:induction false} DiscoverKeepsHighestPriority(
    types: map<TypeId, TypeInfo>, traits: FactoryTraits, cache: Cache,
    regs: seq<Registration>, o: TypeId)
    requires TypesValid(types) && RegistrationsValid(types, regs)
    requires o !in cache
    // generic definitions registered along the way are filed under other keys
    requires forall i :: 0 <= i < |regs| && regs[i].converter.isGenericDef ==>
               RegistrationKey(types, regs[i].outputType, regs[i].converter) != o
    ensures (forall i :: 0 <= i < |regs| ==> !Targets(regs[i], o)) ==>
              o !in Discover(types, traits, cache, regs)
    ensures (exists i :: 0 <= i < |regs| && Targets(regs[i], o)) ==>
              var m := Discover(types, traits, cache, regs);
              o in m && exists w :: IsWinner(regs, o, w) && m[o] == CacheItem(o, Instantiate(regs[w].converter))
  {
    if regs != [] {
      var n := |regs| - 1;
      var prefix := regs[..n];
      var last := regs[n];
      assert RegistrationsValid(types, prefix);
      assert forall i :: 0 <= i < n ==> prefix[i] == regs[i];
      DiscoverKeepsHighestPriority(types, traits, cache, prefix, o);
      var before := Discover(types, traits, cache, prefix);
      var m := Registered(types, traits, before, last.outputType, last.converter);
      assert m == Discover(types, traits, cache, regs);
      RegisteredAt(types, traits, before, last, o);
      WinnerStep(regs, o, before, m);
    }
  }

  /** The induction step of DiscoverKeepsHighestPriority, on the entries for
      `o` before and after the last registration. */
  lemma WinnerStep(regs: seq<Registration>, o: TypeId, before: Cache, m: Cache)
    requires |regs| > 0
    requires (forall i :: 0 <= i < |regs| - 1 ==> !Targets(regs[i], o)) ==> o !in before
    requires (exists i :: 0 <= i < |regs| - 1 && Targets(regs[i], o)) ==>
               o in before && exists w :: IsWinner(regs[..|regs| - 1], o, w)
                                           && before[o] == CacheItem(o, Instantiate(regs[w].converter))
    requires var r := regs[|regs| - 1];
             if Targets(r, o)
             then o in m && m[o] == (if o in before && before[o].convertor.priority > r.converter.instancePriority
                                     then before[o] else CacheItem(o, Instantiate(r.converter)))
             else (o in m <==> o in before) && (o in before ==> m[o] == before[o])
    ensures (forall i :: 0 <= i < |regs| ==> !Targets(regs[i], o)) ==> o !in m
    ensures (exists i :: 0 <= i < |regs| && Targets(regs[i], o)) ==>
              o in m && exists w :: IsWinner(regs, o, w) && m[o] == CacheItem(o, Instantiate(regs[w].converter))
  {
    var n := |regs| - 1;
    var last := regs[n];
    if exists i :: 0 <= i < n && Targets(regs[i], o) {
      var w :| IsWinner(regs[..n], o, w) && before[o] == CacheItem(o, Instantiate(regs[w].converter));
      if Targets(last, o) && regs[w].converter.instancePriority <= last.converter.instancePriority {
        WinnerReplaced(regs, o, w);
        assert m[o] == CacheItem(o, Instantiate(regs[n].converter));
      } else {
        WinnerKept(regs, o, w);
        assert m[o] == CacheItem(o, Instantiate(regs[w].converter));
      }
    } else {
      assert o !in before;
      if Targets(last, o) {
        WinnerFirst(regs, o);
      }
    }
  }

  /** The first registration for `o` wins so far. */
  lemma WinnerFirst(regs: seq<Registration>, o: TypeId)
    requires |regs| > 0 && Targets(regs[|regs| - 1], o)
    requires forall i :: 0 <= i < |regs| - 1 ==> !Targets(regs[i], o)
    ensures IsWinner(regs, o, |regs| - 1)
  {
  }

  /** What one registration does to the entry for `o`. */
  lemma RegisteredAt(types: map<TypeId, TypeInfo>, traits: FactoryTraits, cache: Cache,
                     r: Registration, o: TypeId)
    requires TypesValid(types) && r.outputType in types
    requires r.converter.isGenericDef ==> RegistrationKey(types, r.outputType, r.converter) != o
    ensures var m := Registered(types, traits, cache, r.outputType, r.converter);
            if Targets(r, o)
            then o in m && m[o] == (if o in cache && cache[o].convertor.priority > r.converter.instancePriority
                                    then cache[o] else CacheItem(o, Instantiate(r.converter)))
            else (o in m <==> o in cache) && (o in cache ==> m[o] == cache[o])
  {
  }

  /** A last registration that does not outrank the winner so far leaves it
      the winner. */
  lemma WinnerKept(regs: seq<Registration>, o: TypeId, w: int)
    requires |regs| > 0 && IsWinner(regs[..|regs| - 1], o, w)
    requires Targets(regs[|regs| - 1], o) ==>
               regs[|regs| - 1].converter.instancePriority < regs[w].converter.instancePriority
    ensures IsWinner(regs, o, w)
  {
    assert forall i :: 0 <= i < |regs| - 1 ==> regs[..|regs| - 1][i] == regs[i];
  }

  /** A last registration at least as high as the winner so far wins. */
  lemma WinnerReplaced(regs: seq<Registration>, o: TypeId, w: int)
    requires |regs| > 0 && IsWinner(regs[..|regs| - 1], o, w)
    requires Targets(regs[|regs| - 1], o)
    requires regs[w].converter.instancePriority <= regs[|regs| - 1].converter.instancePriority
    ensures IsWinner(regs, o, |regs| - 1)
  {
    assert forall i :: 0 <= i < |regs| - 1 ==> regs[..|regs| - 1][i] == regs[i];
  }

  /** A cached converter a descendant type may fall back on: present and
      not `IIgnoreInherit`. */
  predicate Usable(cache: Cache, t: TypeId) {
    t in cache && !cache[t].convertor.ignoresInherit
  }

  /** The first candidate whose converter is usable, if any. */
  function FirstUsable(cache: Cache, candidates: seq<TypeId>): (r: Option<TypeId>)
    ensures r.Some? ==> r.value in candidates && Usable(cache, r.value)
    ensures r.None? ==> forall x :: x in candidates ==> !Usable(cache, x)
  {
    if candidates == [] then None
    else if Usable(cache, candidates[0]) then Some(candidates[0])
    else FirstUsable(cache, candidates[1..])
  }

  /** Candidates already found unusable can be skipped. */
  lemma {:induction false} FirstUsableSkip(cache: Cache, tried: seq<TypeId>, rest: seq<TypeId>)
    requires forall x :: x in tried ==> !Usable(cache, x)
    ensures FirstUsable(cache, tried + rest) == FirstUsable(cache, rest)
  {
    if tried != [] {
      var all := tried + rest;
      assert tried[0] in tried && all[0] == tried[0];
      assert !Usable(cache, all[0]);
      assert FirstUsable(cache, all) == FirstUsable(cache, all[1..]);
      assert forall x :: x in tried[1..] ==> x in tried;
      assert all[1..] == tried[1..] + rest;
      FirstUsableSkip(cache, tried[1..], rest);
    } else {
      assert tried + rest == rest;
    }
  }

  /** The search finds the candidate at index `i` when it is the first usable one. */
  lemma {:induction false} FirstUsableAt(cache: Cache, candidates: seq<TypeId>, i: nat)
    requires i <= |candidates|
    requires forall j :: 0 <= j < i ==> !Usable(cache, candidates[j])
    requires i < |candidates| ==> Usable(cache, candidates[i])
    ensures FirstUsable(cache, candidates) == if i < |candidates| then Some(candidates[i]) else None
  {
    if i > 0 {
      assert !Usable(cache, candidates[0]);
      FirstUsableAt(cache, candidates[1..], i - 1);
    }
  }

  /** The search only depends on which candidates are usable. */
  lemma {:induction false} FirstUsableFrame(c1: Cache, c2: Cache, candidates: seq<TypeId>)
    requires forall x :: x in candidates ==> Usable(c1, x) == Usable(c2, x)
    ensures FirstUsable(c1, candidates) == FirstUsable(c2, candidates)
  {
    if candidates != [] {
      assert candidates[0] in candidates;
      assert forall x :: x in candidates[1..] ==> x in candidates;
      FirstUsableFrame(c1, c2, candidates[1..]);
    }
  }

  /** The converter class `GetCache` specialises for a closed generic type:
      the one wrapped by the factory cached under its generic definition. */
  function FactoryFor(types: map<TypeId, TypeInfo>, cache: Cache, t: TypeId): (r: Option<ConverterClass>)
    requires t in types
    ensures r.Some? ==> types[t].isGenericType && !types[t].isGenericDef
                        && types[t].genericDef in cache
                        && cache[types[t].genericDef].convertor.isFactory
  {
    var info := types[t];
    if info.isGenericType && !info.isGenericDef && info.genericDef in cache
       && cache[info.genericDef].convertor.isFactory
    then Some(cache[info.genericDef].convertor.source)
    else None
  }

  /** The type whose converter the synthesised adapter for `t` wraps: the
      nearest usable base class, else the first usable interface, else
      `object`. */
  ghost function AdapterSource(types: map<TypeId, TypeInfo>, cache: Cache, t: TypeId): TypeId
    requires TypesValid(types) && t in types
  {
    FirstUsable(cache, Candidates(types, t)).GetOr(ObjectType)
  }

  /** Whether `GetCache(t)` yields a converter (its callers in the facade
      dereference the result without a null check). */
  ghost predicate Resolvable(types: map<TypeId, TypeInfo>, cache: Cache, t: TypeId)
    requires t in types
  {
    t in cache || FactoryFor(types, cache, t).Some? || (!types[t].isInterface && !types[t].isGenericDef)
  }

  /** `c2` keeps every entry of `c1` unchanged. */
  ghost predicate Grows(c1: Cache, c2: Cache) {
    forall k :: k in c1 ==> k in c2 && c2[k] == c1[k]
  }

  /** A later cache can resolve whatever an earlier one could. */
  lemma ResolvableGrows(types: map<TypeId, TypeInfo>, c1: Cache, c2: Cache, t: TypeId)
    requires t in types && Grows(c1, c2)
    ensures Resolvable(types, c1, t) ==> Resolvable(types, c2, t)
  {
    if t in c1 {
      assert t in c2;
    } else if FactoryFor(types, c1, t).Some? {
      assert types[t].genericDef in c1;
    }
  }

  /** The lookup walked `candidates` in order, resolving each as it went:
      every candidate up to the first usable one (all of them, when none
      is) that could be resolved from `before` is in `cache`. */
  ghost predicate Walked(types: map<TypeId, TypeInfo>, before: Cache, cache: Cache, candidates: seq<TypeId>) {
    forall j :: 0 <= j < |candidates| && candidates[j] in types && Resolvable(types, before, candidates[j])
                && (forall i :: 0 <= i < j ==> !Usable(cache, candidates[i]))
                ==> candidates[j] in cache
  }

  /** A walk that cached every resolvable candidate before index `n` and
      stopped there at a usable one, or ran out of candidates. */
  lemma WalkedUpTo(types: map<TypeId, TypeInfo>, before: Cache, cache: Cache, xs: seq<TypeId>, n: nat)
    requires n <= |xs|
    requires forall j :: 0 <= j < n && xs[j] in types && Resolvable(types, before, xs[j]) ==> xs[j] in cache
    requires n < |xs| ==> Usable(cache, xs[n])
    ensures Walked(types, before, cache, xs)
  {
  }

  /** A walk that stops in `xs`, or goes on through `ys`, walked `xs + ys`. */
  lemma WalkedAppend(types: map<TypeId, TypeInfo>, before: Cache, cache: Cache, xs: seq<TypeId>, ys: seq<TypeId>)
    requires Walked(types, before, cache, xs)
    requires FirstUsable(cache, xs).Some? || Walked(types, before, cache, ys)
    ensures Walked(types, before, cache, xs + ys)
  {
    var all := xs + ys;
    forall j | 0 <= j < |all| && all[j] in types && Resolvable(types, before, all[j])
               && (forall i :: 0 <= i < j ==> !Usable(cache, all[i]))
      ensures all[j] in cache
    {
      if j < |xs| {
        assert forall i :: 0 <= i < j ==> all[i] == xs[i];
        assert all[j] == xs[j];
      } else {
        assert forall i :: 0 <= i < |xs| ==> all[i] == xs[i];
        FirstUsableAt(cache, xs, |xs|);
        assert forall i :: 0 <= i < j - |xs| ==> ys[i] == all[i + |xs|];
        assert all[j] == ys[j - |xs|];
      }
    }
  }

  /** A walk stays a walk while the cache only gains entries for types
      that are not candidates, or for candidates it already holds. */
  lemma WalkedGrows(types: map<TypeId, TypeInfo>, before: Cache, c1: Cache, c2: Cache, xs: seq<TypeId>)
    requires Walked(types, before, c1, xs) && Grows(c1, c2)
    requires forall x :: x in xs && x in c2 ==> x in c1
    ensures Walked(types, before, c2, xs)
  {
    forall j | 0 <= j < |xs| && xs[j] in types && Resolvable(types, before, xs[j])
               && (forall i :: 0 <= i < j ==> !Usable(c2, xs[i]))
      ensures xs[j] in c2
    {
      forall i | 0 <= i < j ensures !Usable(c1, xs[i]) {
        assert !Usable(c2, xs[i]);
      }
    }
  }

  /** A walk from a later starting cache is a walk from an earlier one. */
  lemma WalkedFromEarlier(types: map<TypeId, TypeInfo>, b0: Cache, b1: Cache, cache: Cache, xs: seq<TypeId>)
    requires Walked(types, b1, cache, xs) && Grows(b0, b1)
    ensures Walked(types, b0, cache, xs)
  {
    forall j | 0 <= j < |xs| && xs[j] in types && Resolvable(types, b0, xs[j])
      ensures Resolvable(types, b1, xs[j])
    {
      ResolvableGrows(types, b0, b1, xs[j]);
    }
  }

  /** The type being resolved is never one of its own candidates. */
  lemma NotOwnCandidate(types: map<TypeId, TypeInfo>, t: TypeId)
    requires TypesValid(types) && t in types
    ensures forall x :: x in Candidates(types, t) ==> x in types && types[x].depth < types[t].depth
  {
    assert TypeValid(types, t);
    var ifaces := types[t].interfaces;
    forall x | x in Candidates(types, t) ensures x in types && types[x].depth < types[t].depth {
      if x !in BaseChain(types, t) {
        var i :| 0 <= i < |ifaces| && ifaces[i] == x;
      }
    }
  }

  /** Inserting `t`'s own entry does not change where its adapter comes from. */
  lemma AdapterSourceIgnoresOwnEntry(types: map<TypeId, TypeInfo>, cache: Cache, t: TypeId, item: CacheItem)
    requires TypesValid(types) && t in types
    ensures AdapterSource(types, cache[t := item], t) == AdapterSource(types, cache, t)
  {
    NotOwnCandidate(types, t);
    FirstUsableFrame(cache[t := item], cache, Candidates(types, t));
  }

  /** When every earlier candidate is unusable and `x` is usable, the
      adapter wraps `x`'s converter. */
  lemma AdapterSourceIs(types: map<TypeId, TypeInfo>, cache: Cache, t: TypeId,
                        tried: seq<TypeId>, x: TypeId, rest: seq<TypeId>)
    requires TypesValid(types) && t in types
    requires Candidates(types, t) == tried + [x] + rest
    requires forall y :: y in tried ==> !Usable(cache, y)
    requires Usable(cache, x)
    ensures AdapterSource(types, cache, t) == x
  {
    assert tried + [x] + rest == tried + ([x] + rest);
    FirstUsableSkip(cache, tried, [x] + rest);
  }

  /** When no candidate is usable, the adapter wraps `object`'s converter. */
  lemma AdapterSourceIsObject(types: map<TypeId, TypeInfo>, cache: Cache, t: TypeId)
    requires TypesValid(types) && t in types
    requires forall y :: y in Candidates(types, t) ==> !Usable(cache, y)
    ensures AdapterSource(types, cache, t) == ObjectType
  {
    assert Candidates(types, t) + [] == Candidates(types, t);
    FirstUsableSkip(cache, Candidates(types, t), []);
  }
}
