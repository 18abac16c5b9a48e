/** The converter cache of `Convert3` and the conversion entry points built
    on it. The static `_cache` becomes the `cache` field of a `Convert3`
    object; the reflection it relies on (the type table, the
    `GenericConvertorFactory.Create` and `LiskovConvertor<,>` constructions)
    is given to that object at construction. */
module Convert3Core {
  import opened Common
  import opened TypeGraph
  import opened Registry

  /** True when no constructed converter class is a generic definition:
      `MakeGenericType` and the factories always close their types. */
  ghost predicate ClosedConstructions(create: (ConverterClass, TypeId) -> ConverterClass,
                                      liskov: (TypeId, TypeId) -> ConverterClass) {
    && (forall c, t :: !create(c, t).isGenericDef)
    && (forall s, t :: !liskov(s, t).isGenericDef)
  }

  /** What `IConvertor.Try(input, outputType, out result)` reports: whether
      it succeeded, and the value it left in `result`. */
  datatype TryResult<V> = TryResult(ok: bool, value: V)

  /** The exception `ChangeType`/`To` throw when the conversion fails; its
      message (the context's errors, else "类型转换失败") is not modelled. */
  datatype CastError = InvalidCast(outputType: TypeId)

  class Convert3 {
    /** The reflection facts about every type involved. */
    const types: map<TypeId, TypeInfo>
    /** Priority and IIgnoreInherit-ness of GenericConvertorFactory. */
    const traits: FactoryTraits
    /** `factory.Create(type)` for the factory over a generic converter definition. */
    const create: (ConverterClass, TypeId) -> ConverterClass
    /** `typeof(LiskovConvertor<,>).MakeGenericType(source, type)`. */
    const liskov: (TypeId, TypeId) -> ConverterClass
    /** `_cache`: output type to cached converter. */
    var cache: Cache

    ghost predicate Valid()
      reads this
    {
      && TypesValid(types)
      && CacheValid(types, cache)
      && ClosedConstructions(create, liskov)
    }

    /** `InitCache`: registers CString for `string`, then every discovered
        converter in discovery order. */
    constructor InitCache(types: map<TypeId, TypeInfo>, traits: FactoryTraits,
                          create: (ConverterClass, TypeId) -> ConverterClass,
                          liskov: (TypeId, TypeId) -> ConverterClass,
                          stringType: TypeId, cString: ConverterClass,
                          discovered: seq<Registration>)
      requires TypesValid(types) && ClosedConstructions(create, liskov)
      requires stringType in types && RegistrationsValid(types, discovered)
      ensures Valid()
      ensures this.types == types && this.traits == traits
      ensures this.create == create && this.liskov == liskov
      ensures cache == Discover(types, traits, map[], [Registration(stringType, cString)] + discovered)
    {
      this.types := types;
      this.traits := traits;
      this.create := create;
      this.liskov := liskov;
      cache := map[];
      new;
      ghost var regs := [Registration(stringType, cString)] + discovered;
      DiscoverSnoc(types, traits, map[], [], Registration(stringType, cString));
      AddCache(stringType, cString);
      assert regs[..1] == [] + [Registration(stringType, cString)];
      var i := 0;
      while i < |discovered|
        invariant 0 <= i <= |discovered|
        invariant Valid()
        invariant this.types == types && this.traits == traits
        invariant this.create == create && this.liskov == liskov
        invariant RegistrationsValid(types, regs[..i + 1])
        invariant cache == Discover(types, traits, map[], regs[..i + 1])
      {
        assert regs[..i + 2] == regs[..i + 1] + [discovered[i]];
        DiscoverSnoc(types, traits, map[], regs[..i + 1], discovered[i]);
        AddCache(discovered[i].outputType, discovered[i].converter);
        i := i + 1;
      }
      assert regs[..i + 1] == regs;
    }

    /** `AddCache(outputType, convType)`. */
    method AddCache(outputType: TypeId, convType: ConverterClass)
      requires Valid() && outputType in types
      modifies this
      ensures Valid()
      ensures cache == Registered(types, traits, old(cache), outputType, convType)
    {
      assert TypeValid(types, outputType);
      if convType.isGenericDef {
        var resultT := convType.result;
        if !resultT.isGenericType {
          return;
        }
        if !types[outputType].isGenericType {
          return;
        }
        if !resultT.hasGenericParameter && !resultT.isGenericDef {
          return;
        }
        if types[outputType].arity != resultT.arity {
          return;
        }
        var definition := types[outputType].genericDef;
        cache := cache[definition := CacheItem(definition, FactoryOver(convType, traits))];
        return;
      }
      var conv := Instantiate(convType);
      if outputType !in cache || cache[outputType].convertor.priority <= conv.priority {
        cache := cache[outputType := CacheItem(outputType, conv)];
      }
    }

    /** `GetCache(type)`: the cached item for `t`, specialising a generic
        factory or synthesising a Liskov adapter on a miss. */
    method GetCache(t: TypeId) returns (r: Option<CacheItem>)
      requires Valid() && t in types
      modifies this
      decreases types[t].depth, 1
      ensures Valid()
      ensures Grows(old(cache), cache)
      // only `t` and shallower types are added; an interface adds only itself
      ensures forall k :: k in cache && k !in old(cache) ==>
                k in types && (k == t || types[k].depth < types[t].depth)
      ensures types[t].isInterface ==> forall k :: k in cache && k !in old(cache) ==> k == t
      ensures r.Some? <==> t in cache
      ensures r.Some? ==> r.value == cache[t]
      ensures r.Some? <==> Resolvable(types, old(cache), t)
      ensures r.None? ==> cache == old(cache)
      // a hit changes nothing
      ensures t in old(cache) ==> cache == old(cache)
      // a closed generic type is specialised by its definition's factory
      ensures t !in old(cache) && FactoryFor(types, old(cache), t).Some? ==>
                cache == old(cache)[t := CacheItem(t, Instantiate(create(FactoryFor(types, old(cache), t).value, t)))]
      // otherwise a class gets an adapter over its nearest usable ancestor
      ensures t !in old(cache) && FactoryFor(types, old(cache), t).None? && r.Some? ==>
                cache[t] == CacheItem(t, Instantiate(liskov(AdapterSource(types, cache, t), t)))
      // having resolved, and so cached, every candidate it passed on the way
      ensures t !in old(cache) && FactoryFor(types, old(cache), t).None? && r.Some? ==>
                Walked(types, old(cache), cache, Candidates(types, t))
    {
      if t in cache {
        return Some(cache[t]);
      }
      var info := types[t];
      assert TypeValid(types, t);
      if info.isGenericType && !info.isGenericDef {
        var definition := info.genericDef;
        if definition in cache {
          var item := cache[definition];
          if item.convertor.isFactory {
            var convType := create(item.convertor.source, t);
            AddCache(t, convType);
            return Some(cache[t]);
          }
        }
      }
      if info.isInterface || info.isGenericDef {
        return None;
      }

      var source: TypeId;
      ghost var start := cache;
      var found := SearchBaseClasses(t);
      if found.Some? {
        source := found.value;
        FirstUsableAppend(cache, BaseChain(types, t), info.interfaces);
        WalkedAppend(types, start, cache, BaseChain(types, t), info.interfaces);
      } else {
        ghost var afterBases := cache;
        found := SearchInterfaces(t);
        FirstUsableSkip(cache, BaseChain(types, t), info.interfaces);
        WalkedFromEarlier(types, start, afterBases, cache, info.interfaces);
        WalkedGrows(types, start, afterBases, cache, BaseChain(types, t));
        WalkedAppend(types, start, cache, BaseChain(types, t), info.interfaces);
        if found.Some? {
          source := found.value;
        } else {
          source := ObjectType;
        }
      }
      assert source == AdapterSource(types, cache, t);
      AdapterSourceIgnoresOwnEntry(types, cache, t, CacheItem(t, Instantiate(liskov(source, t))));
      ghost var searched := cache;
      var convType := liskov(source, t);
      AddCache(t, convType);
      NotOwnCandidate(types, t);
      WalkedGrows(types, start, searched, cache, Candidates(types, t));
      return Some(cache[t]);
    }

    /** The loop of `GetCache` over the base classes of `t`, nearest first
        and `object` excluded: the first whose converter is usable. */
    method SearchBaseClasses(t: TypeId) returns (found: Option<TypeId>)
      requires Valid() && t in types && t !in cache
      requires !types[t].isInterface && !types[t].isGenericDef
      modifies this
      decreases types[t].depth, 0
      ensures Valid() && Grows(old(cache), cache) && t !in cache
      ensures forall k :: k in cache && k !in old(cache) ==> k in types && types[k].depth < types[t].depth
      ensures found == FirstUsable(cache, BaseChain(types, t))
      // every base class passed on the way was resolved, and so cached
      ensures Walked(types, old(cache), cache, BaseChain(types, t))
      ensures found.None? ==> forall x :: x in BaseChain(types, t) ==> x in cache
    {
      ghost var chain := BaseChain(types, t);
      ghost var n := 0;
      assert TypeValid(types, t);
      var baseType := types[t].baseType;
      while baseType.Some? && baseType.value != ObjectType
        invariant Valid() && Grows(old(cache), cache) && t !in cache
        invariant forall k :: k in cache && k !in old(cache) ==> k in types && types[k].depth < types[t].depth
        invariant baseType.Some? ==> baseType.value in types
        invariant 0 <= n <= |chain| && chain[n..] == ChainFrom(types, baseType)
        invariant forall j :: 0 <= j < n ==> chain[j] in cache && cache[chain[j]].convertor.ignoresInherit
        decreases |chain| - n
      {
        var b := baseType.value;
        ChainStep(types, t, n, b);
        assert b in chain && TypeValid(types, b);
        var baseConv := GetConvertor(b);
        assert baseConv.Some?;
        if !baseConv.value.ignoresInherit {
          FirstUsableAt(cache, chain, n);
          WalkedUpTo(types, old(cache), cache, chain, n);
          return Some(b);
        }
        n := n + 1;
        baseType := types[b].baseType;
      }
      FirstUsableAt(cache, chain, n);
      WalkedUpTo(types, old(cache), cache, chain, n);
      return None;
    }

    /** The loop of `GetCache` over `t`'s interfaces in `GetInterfaces()`
        order: the first whose converter is usable. Only those interfaces
        enter the cache. */
    method SearchInterfaces(t: TypeId) returns (found: Option<TypeId>)
      requires Valid() && t in types && t !in cache && !types[t].isInterface
      modifies this
      decreases types[t].depth, 0
      ensures Valid() && Grows(old(cache), cache) && t !in cache
      ensures forall k :: k in cache && k !in old(cache) ==> k in types[t].interfaces
      ensures found == FirstUsable(cache, types[t].interfaces)
      // every interface passed on the way that resolves was cached
      ensures Walked(types, old(cache), cache, types[t].interfaces)
    {
      assert TypeValid(types, t);
      var interfaces := types[t].interfaces;
      var i := 0;
      while i < |interfaces|
        invariant 0 <= i <= |interfaces|
        invariant Valid() && Grows(old(cache), cache) && t !in cache
        invariant forall k :: k in cache && k !in old(cache) ==> k in interfaces
        invariant forall j :: 0 <= j < i ==> !Usable(cache, interfaces[j])
        invariant forall j :: 0 <= j < i && interfaces[j] in types && Resolvable(types, old(cache), interfaces[j])
                    ==> interfaces[j] in cache
      {
        var item := interfaces[i];
        ghost var before := cache;
        ResolvableGrows(types, old(cache), before, item);
        var baseConv := GetConvertor(item);
        assert forall j :: 0 <= j < i ==> interfaces[j] != item;
        assert forall j :: 0 <= j < i ==> Usable(cache, interfaces[j]) == Usable(before, interfaces[j]);
        if baseConv.Some? && !baseConv.value.ignoresInherit {
          FirstUsableAt(cache, interfaces, i);
          WalkedUpTo(types, old(cache), cache, interfaces, i);
          return Some(item);
        }
        i := i + 1;
      }
      FirstUsableAt(cache, interfaces, i);
      WalkedUpTo(types, old(cache), cache, interfaces, i);
      return None;
    }

    /** `GetConvertor(outputType)`: the converter of `GetCache`'s item, or null. */
    method GetConvertor(outputType: TypeId) returns (r: Option<Converter>)
      requires Valid() && outputType in types
      modifies this
      decreases types[outputType].depth, 2
      ensures Valid()
      ensures Grows(old(cache), cache)
      ensures forall k :: k in cache && k !in old(cache) ==>
                k in types && (k == outputType || types[k].depth < types[outputType].depth)
      ensures types[outputType].isInterface ==>
                forall k :: k in cache && k !in old(cache) ==> k == outputType
      ensures r.Some? <==> outputType in cache
      ensures r.Some? ==> r.value == cache[outputType].convertor
      ensures r.Some? <==> Resolvable(types, old(cache), outputType)
    {
      var item := GetCache(outputType);
      if item.None? {
        return None;
      }
      return Some(item.value.convertor);
    }

    /** `GetCache<T>()`: the same lookup, after a first probe of the cache. */
    method GetCacheOf(t: TypeId) returns (r: Option<CacheItem>)
      requires Valid() && t in types
      modifies this
      ensures Valid() && Grows(old(cache), cache)
      ensures r.Some? <==> Resolvable(types, old(cache), t)
      ensures r.Some? <==> t in cache
      ensures r.Some? ==> r.value == cache[t]
      ensures r.None? || t in old(cache) ==> cache == old(cache)
    {
      if t in cache {
        return Some(cache[t]);
      }
      r := GetCache(t);
    }

    /** `TryChangedType(input, outputType, out result)`: asks the converter
        `GetConvertor` yields. The source dereferences that converter without
        a null check, so the output type must resolve. */
    method TryChangedType<V>(input: V, outputType: TypeId,
                             attempt: (Converter, V, TypeId) -> TryResult<V>)
      returns (r: TryResult<V>)
      requires Valid() && outputType in types && Resolvable(types, cache, outputType)
      modifies this
      ensures Valid() && Grows(old(cache), cache) && outputType in cache
      ensures r == attempt(cache[outputType].convertor, input, outputType)
    {
      var conv := GetConvertor(outputType);
      r := attempt(conv.value, input, outputType);
    }

    /** `ChangeType(input, outputType)`: the converted value, or the
        `InvalidCastException` of `ThrowError`. */
    method ChangeType<V>(input: V, outputType: TypeId,
                         attempt: (Converter, V, TypeId) -> TryResult<V>)
      returns (r: Result<V, CastError>)
      requires Valid() && outputType in types && Resolvable(types, cache, outputType)
      modifies this
      ensures Valid() && Grows(old(cache), cache) && outputType in cache
      ensures var a := attempt(cache[outputType].convertor, input, outputType);
              r == if a.ok then Success(a.value) else Failure(InvalidCast(outputType))
    {
      var a := TryChangedType(input, outputType, attempt);
      if !a.ok {
        return Failure(InvalidCast(outputType));
      }
      return Success(a.value);
    }

    /** `ChangeType(input, outputType, defaultValue)`: the converted value,
        or `defaultValue` when the conversion fails. */
    method ChangeTypeOr<V>(input: V, outputType: TypeId, defaultValue: V,
                           attempt: (Converter, V, TypeId) -> TryResult<V>)
      returns (r: V)
      requires Valid() && outputType in types && Resolvable(types, cache, outputType)
      modifies this
      ensures Valid() && Grows(old(cache), cache) && outputType in cache
      ensures var a := attempt(cache[outputType].convertor, input, outputType);
              r == if a.ok then a.value else defaultValue
    {
      var a := TryChangedType(input, outputType, attempt);
      if !a.ok {
        return defaultValue;
      }
      return a.value;
    }

    /** `TryTo<T>(input, out result)`: the converter `GetConvertor<T>` yields,
        or `CObject.TryTo` (not part of this model, hence `fallback`) when
        there is none. */
    method TryTo<V>(input: V, t: TypeId,
                    attempt: (Converter, V, TypeId) -> TryResult<V>,
                    fallback: (V, TypeId) -> TryResult<V>)
      returns (r: TryResult<V>)
      requires Valid() && t in types
      modifies this
      ensures Valid() && Grows(old(cache), cache)
      ensures t in cache ==> r == attempt(cache[t].convertor, input, t)
      ensures t !in cache ==> r == fallback(input, t) && cache == old(cache)
      ensures t in cache <==> Resolvable(types, old(cache), t)
    {
      var item := GetCacheOf(t);
      if item.None? {
        return fallback(input, t);
      }
      r := attempt(item.value.convertor, input, t);
    }

    /** `To<T>(input)`: the converted value, or the `InvalidCastException`
        of `ThrowError`. */
    method To<V>(input: V, t: TypeId,
                 attempt: (Converter, V, TypeId) -> TryResult<V>,
                 fallback: (V, TypeId) -> TryResult<V>)
      returns (r: Result<V, CastError>)
      requires Valid() && t in types
      modifies this
      ensures Valid() && Grows(old(cache), cache)
      ensures var a := if t in cache then attempt(cache[t].convertor, input, t) else fallback(input, t);
              r == if a.ok then Success(a.value) else Failure(InvalidCast(t))
    {
      var a := TryTo(input, t, attempt, fallback);
      if !a.ok {
        return Failure(InvalidCast(t));
      }
      return Success(a.value);
    }

    /** `To<T>(input, defaultValue)`: the converted value, or `defaultValue`
        when the conversion fails. */
    method ToOr<V>(input: V, t: TypeId, defaultValue: V,
                   attempt: (Converter, V, TypeId) -> TryResult<V>,
                   fallback: (V, TypeId) -> TryResult<V>)
      returns (r: V)
      requires Valid() && t in types
      modifies this
      ensures Valid() && Grows(old(cache), cache)
      ensures var a := if t in cache then attempt(cache[t].convertor, input, t) else fallback(input, t);
              r == if a.ok then a.value else defaultValue
    {
      var a := TryTo(input, t, attempt, fallback);
      if !a.ok {
        return defaultValue;
      }
      return a.value;
    }
  }
}
