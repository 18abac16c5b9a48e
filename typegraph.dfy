/** The part of .NET reflection the converter cache consults: each type's
    base class, its interfaces in `GetInterfaces()` order, and its generic
    shape. Types are abstract ids; `depth` is the type's inheritance depth
    and strictly decreases towards base classes and implemented interfaces,
    which is what makes the cache's recursive lookup terminate. */
module TypeGraph {
  import opened Common

  type TypeId = nat

  /** `typeof(object)`, the root of every class hierarchy. */
  const ObjectType: TypeId := 0

  datatype TypeInfo = TypeInfo(
    baseType: Option<TypeId>,   // Type.BaseType (null for object and interfaces)
    interfaces: seq<TypeId>,    // Type.GetInterfaces(), in that order
    isInterface: bool,          // Type.IsInterface
    isGenericType: bool,        // Type.IsGenericType
    isGenericDef: bool,         // Type.IsGenericTypeDefinition
    genericDef: TypeId,         // Type.GetGenericTypeDefinition(), when generic
    arity: nat,                 // Type.GetGenericArguments().Length
    depth: nat)

  /** The shape .NET guarantees of a type table. */
  ghost predicate TypesValid(types: map<TypeId, TypeInfo>) {
    && ObjectType in types
    && types[ObjectType].baseType == None
    && !types[ObjectType].isInterface
    && !types[ObjectType].isGenericType
    && forall t {:trigger TypeValid(types, t)} :: t in types ==> TypeValid(types, t)
  }

  ghost predicate TypeValid(types: map<TypeId, TypeInfo>, t: TypeId)
    requires t in types
  {
    var info := types[t];
    && (info.isGenericDef ==> info.isGenericType && info.genericDef == t)
    && (info.isGenericType ==> info.genericDef in types && types[info.genericDef].isGenericDef
                               && types[info.genericDef].arity == info.arity)
    && (info.baseType.Some? ==>
          && info.baseType.value in types
          && types[info.baseType.value].depth < info.depth
          && !types[info.baseType.value].isInterface
          && !types[info.baseType.value].isGenericDef
          && !info.isInterface)
    && (forall i :: 0 <= i < |info.interfaces| ==>
          && info.interfaces[i] in types
          && types[info.interfaces[i]].isInterface
          && types[info.interfaces[i]].depth < info.depth)
    && (forall i, j :: 0 <= i < j < |info.interfaces| ==> info.interfaces[i] != info.interfaces[j])
  }

  /** The classes visited by the loop `while (baseType != null && baseType
      != typeof(object)) { ...; baseType = baseType.BaseType; }` when it
      starts at `b`: nearest first, `object` excluded. */
  ghost function ChainFrom(types: map<TypeId, TypeInfo>, b: Option<TypeId>): seq<TypeId>
    requires TypesValid(types)
    requires b.Some? ==> b.value in types
    decreases if b.Some? then types[b.value].depth + 1 else 0
  {
    if b.None? || b.value == ObjectType then []
    else
      assert TypeValid(types, b.value);
      [b.value] + ChainFrom(types, types[b.value].baseType)
  }

  /** Every class on the chain from a class `b` is a known class, not a
      generic definition, no deeper than `b`; `object` is not on it. */
  lemma {:induction false} ChainFromShape(types: map<TypeId, TypeInfo>, b: Option<TypeId>)
    requires TypesValid(types)
    requires b.Some? ==> b.value in types && !types[b.value].isInterface && !types[b.value].isGenericDef
    ensures forall x :: x in ChainFrom(types, b) ==>
              && b.Some? && x in types && types[x].depth <= types[b.value].depth
              && !types[x].isInterface && !types[x].isGenericDef && x != ObjectType
    decreases if b.Some? then types[b.value].depth + 1 else 0
  {
    if b.Some? && b.value != ObjectType {
      var next := types[b.value].baseType;
      assert TypeValid(types, b.value);
      ChainFromShape(types, next);
    }
  }

  /** One step of the base-class walk from `t`: after the first `n`
      classes comes `b`, then the walk from `b`'s base. */
  lemma ChainStep(types: map<TypeId, TypeInfo>, t: TypeId, n: nat, b: TypeId)
    requires TypesValid(types) && t in types && b in types && b != ObjectType
    requires n <= |BaseChain(types, t)| && BaseChain(types, t)[n..] == ChainFrom(types, Some(b))
    ensures n < |BaseChain(types, t)| && BaseChain(types, t)[n] == b
    ensures TypeValid(types, b)
    ensures BaseChain(types, t)[n + 1..] == ChainFrom(types, types[b].baseType)
  {
    assert TypeValid(types, b);
    assert ChainFrom(types, Some(b)) == [b] + ChainFrom(types, types[b].baseType);
  }

  /** The classes `GetCache(t)` tries, nearest first. */
  ghost function BaseChain(types: map<TypeId, TypeInfo>, t: TypeId): (chain: seq<TypeId>)
    requires TypesValid(types) && t in types
    ensures forall x :: x in chain ==>
              && x in types && types[x].depth < types[t].depth
              && !types[x].isInterface && !types[x].isGenericDef && x != ObjectType
  {
    assert TypeValid(types, t);
    ChainFromShape(types, types[t].baseType);
    ChainFrom(types, types[t].baseType)
  }

  /** Base classes first, then interfaces in `GetInterfaces()` order. */
  ghost function Candidates(types: map<TypeId, TypeInfo>, t: TypeId): seq<TypeId>
    requires TypesValid(types) && t in types
  {
    BaseChain(types, t) + types[t].interfaces
  }
}
