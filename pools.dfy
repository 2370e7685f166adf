/**
 * `Shader::create_descriptor_sets`: size one descriptor pool from the type maps of
 * a shader's set layouts, then allocate one descriptor set per layout from it.
 */
module DescriptorPools {
  import opened Wrappers
  import opened Vulkan
  import opened DescriptorLayouts

  /** How many bindings of one set's type map have descriptor type `t`. */
  function Occurrences(m: TypeMap, t: DescriptorType): nat
  {
    |BindingsOfType(m, t)|
  }

  /** The bindings of one set's type map that have descriptor type `t`. */
  function BindingsOfType(m: TypeMap, t: DescriptorType): set<nat>
  {
    set k | k in m && m[k] == t
  }

  /** How many bindings of all the sets have descriptor type `t`. */
  function TotalOccurrences(maps: seq<TypeMap>, t: DescriptorType): nat
  {
    if maps == [] then 0
    else TotalOccurrences(maps[..|maps| - 1], t) + Occurrences(maps[|maps| - 1], t)
  }

  /** `descriptor_pool_sizes.iter_mut().find(|item| item.ty == *ty)`: the first entry of type `t`. */
  function FindType(sizes: seq<PoolSize>, t: DescriptorType): (r: Option<nat>)
    ensures r.Some? ==> r.value < |sizes| && sizes[r.value].ty == t
    ensures r.Some? ==> forall i :: 0 <= i < r.value ==> sizes[i].ty != t
    ensures r.None? ==> forall i :: 0 <= i < |sizes| ==> sizes[i].ty != t
  {
    if sizes == [] then None
    else if sizes[0].ty == t then Some(0)
    else match FindType(sizes[1..], t)
      case None => None
      case Some(i) => Some(i + 1)
  }

  /** At most one entry per descriptor type, and no entry with a zero count. */
  ghost predicate WellSized(sizes: seq<PoolSize>)
  {
    && (forall i, j :: 0 <= i < j < |sizes| ==> sizes[i].ty != sizes[j].ty)
    && (forall i :: 0 <= i < |sizes| ==> sizes[i].descriptorCount > 0)
  }

  /** The number of descriptors of type `t` the pool sizes ask for. */
  function CountOf(sizes: seq<PoolSize>, t: DescriptorType): nat
  {
    match FindType(sizes, t)
    case None => 0
    case Some(i) => sizes[i].descriptorCount
  }

  /**
   * The pool sizes match the type maps: one entry per descriptor type that occurs,
   * none for a type that does not, and each entry counts every binding of its type
   * across all the sets.
   */
  ghost predicate SizedFor(sizes: seq<PoolSize>, maps: seq<TypeMap>)
  {
    WellSized(sizes) && forall t :: CountOf(sizes, t) == TotalOccurrences(maps, t)
  }

  /** One more descriptor of type `t`: its entry's count goes up by one, or a new entry of count 1 is appended. */
  function Bump(sizes: seq<PoolSize>, t: DescriptorType): (r: seq<PoolSize>)
    requires WellSized(sizes)
    ensures WellSized(r)
    ensures forall u :: CountOf(r, u) == CountOf(sizes, u) + (if u == t then 1 else 0)
  {
    match FindType(sizes, t)
    case Some(i) =>
      var r := sizes[i := PoolSize(t, sizes[i].descriptorCount + 1)];
      FindTypeSameTypes(sizes, r);
      r
    case None =>
      var r := sizes + [PoolSize(t, 1)];
      forall u ensures FindType(r, u) == if u == t then Some(|sizes|) else FindType(sizes, u) {
        FindTypeAppend(sizes, PoolSize(t, 1), u);
      }
      r
  }

  /** `FindType` looks only at the entries' types. */
  lemma FindTypeSameTypes(sizes: seq<PoolSize>, sizes': seq<PoolSize>)
    requires |sizes| == |sizes'| && forall i :: 0 <= i < |sizes| ==> sizes[i].ty == sizes'[i].ty
    ensures forall u :: FindType(sizes', u) == FindType(sizes, u)
  {
    forall u ensures FindType(sizes', u) == FindType(sizes, u) {
      match FindType(sizes, u)
      case None =>
      case Some(j) => assert sizes'[j].ty == u;
    }
  }

  /** Appending an entry changes what `FindType` finds only for a type not present before. */
  lemma {:induction false} FindTypeAppend(sizes: seq<PoolSize>, e: PoolSize, u: DescriptorType)
    ensures FindType(sizes + [e], u) ==
            if FindType(sizes, u).Some? then FindType(sizes, u)
            else if e.ty == u then Some(|sizes|) else None
  {
    if sizes != [] {
      assert (sizes + [e])[1..] == sizes[1..] + [e];
      FindTypeAppend(sizes[1..], e, u);
    }
  }

  /** Taking key `k` out of a type map removes exactly its own binding from the counts. */
  lemma OccurrencesRemove(m: TypeMap, k: nat, t: DescriptorType)
    requires k in m
    ensures Occurrences(m, t) == Occurrences(m - {k}, t) + (if m[k] == t then 1 else 0)
  {
    var rest := m - {k};
    assert rest.Keys == m.Keys - {k};
    var all, others := BindingsOfType(m, t), BindingsOfType(rest, t);
    assert k !in others;
    assert others == all - {k} by {
      forall j ensures j in others <==> j in all - {k} {
        if j in rest { assert rest[j] == m[j]; }
      }
    }
    if m[k] == t {
      assert all == others + {k};
    }
  }

  /**
   * The pool-size aggregation of `create_descriptor_sets`: visits every binding of
   * every type map (each map in an unspecified order, as a `HashMap` does) and
   * counts it under its descriptor type.
   */
  method PoolSizes(maps: seq<TypeMap>) returns (sizes: seq<PoolSize>)
    ensures SizedFor(sizes, maps)
  {
    sizes := [];
    var i := 0;
    while i < |maps|
      invariant i <= |maps|
      invariant WellSized(sizes)
      invariant forall t :: CountOf(sizes, t) == TotalOccurrences(maps[..i], t)
    {
      var bindings := maps[i];
      var rest := bindings;
      while rest != map[]
        invariant WellSized(sizes)
        invariant forall t :: CountOf(sizes, t) + Occurrences(rest, t)
                              == TotalOccurrences(maps[..i], t) + Occurrences(bindings, t)
        decreases rest.Keys
      {
        var k :| k in rest;
        var ty := rest[k];
        forall t ensures Occurrences(rest, t) == Occurrences(rest - {k}, t) + (if ty == t then 1 else 0) {
          OccurrencesRemove(rest, k, t);
        }
        sizes := Bump(sizes, ty);
        rest := rest - {k};
      }
      assert maps[..i + 1][..i] == maps[..i];
      assert forall t :: Occurrences(rest, t) == 0;
      i := i + 1;
    }
    assert maps[..i] == maps;
  }

  /** Types that occur in no binding get no pool entry; every entry is for a type that occurs. */
  lemma SizedForEntries(sizes: seq<PoolSize>, maps: seq<TypeMap>, t: DescriptorType)
    requires SizedFor(sizes, maps)
    ensures (exists i :: 0 <= i < |sizes| && sizes[i].ty == t) <==> TotalOccurrences(maps, t) > 0
  {
    assert CountOf(sizes, t) == TotalOccurrences(maps, t);
    if exists i :: 0 <= i < |sizes| && sizes[i].ty == t {
      var i :| 0 <= i < |sizes| && sizes[i].ty == t;
      assert FindType(sizes, t).Some?;
    }
  }

  /** The pool can serve an allocation of `setCount` sets whose bindings are `maps`. */
  ghost predicate CanServe(info: PoolCreateInfo, setCount: nat, maps: seq<TypeMap>)
  {
    setCount <= info.maxSets && forall t :: TotalOccurrences(maps, t) <= CountOf(info.poolSizes, t)
  }

  /** The pool as the code creates it: sized for every descriptor but for a single set. */
  function PoolInfoAsWritten(sizes: seq<PoolSize>): (info: PoolCreateInfo)
    ensures info.poolSizes == sizes && info.maxSets == 1
  {
    PoolCreateInfo(sizes, 1)
  }

  /**
   * A shader with two sets (set 0 holding two uniform buffers, set 1 one sampler)
   * needs two sets from a pool that admits only one.
   */
  lemma AsWrittenPoolRefusesTwoSets(sizes: seq<PoolSize>)
    requires SizedFor(sizes, [map[0 := UniformBuffer, 1 := UniformBuffer], map[0 := Sampler]])
    ensures !CanServe(PoolInfoAsWritten(sizes), 2, [map[0 := UniformBuffer, 1 := UniformBuffer], map[0 := Sampler]])
  {
  }

  /** The pool sized for the sets to be allocated from it: every descriptor, and one set per layout. */
  function PoolInfo(sizes: seq<PoolSize>, setCount: nat): (info: PoolCreateInfo)
    ensures info.poolSizes == sizes && info.maxSets == setCount
  {
    PoolCreateInfo(sizes, setCount)
  }

  /** A pool sized from the type maps, with one set per layout, serves the whole allocation. */
  lemma PoolInfoServes(sizes: seq<PoolSize>, setCount: nat, maps: seq<TypeMap>)
    requires SizedFor(sizes, maps)
    ensures CanServe(PoolInfo(sizes, setCount), setCount, maps)
  {
  }

  /**
   * `Shader::create_descriptor_sets`: creates one pool sized for every binding of
   * every set and for one set per layout, then allocates one descriptor set per
   * layout from it, in layout order.
   */
  method CreateDescriptorSets(gpu: Gpu, layouts: seq<Handle>, maps: seq<TypeMap>) returns (sets: seq<Handle>)
    modifies gpu
    ensures |sets| == |layouts|
    ensures |gpu.calls| == |old(gpu.calls)| + 2 && gpu.calls[..|old(gpu.calls)|] == old(gpu.calls)
    ensures var poolCall := gpu.calls[|old(gpu.calls)|];
      && poolCall.CreateDescriptorPool?
      && SizedFor(poolCall.poolInfo.poolSizes, maps)
      && poolCall.poolInfo.maxSets == |layouts|
      && CanServe(poolCall.poolInfo, |layouts|, maps)
      && poolCall.pool == old(gpu.next)
      && gpu.calls[|old(gpu.calls)| + 1] == Call.AllocateDescriptorSets(poolCall.pool, layouts, sets)
    ensures forall i :: 0 <= i < |sets| ==> sets[i] == old(gpu.next) + 1 + i
    ensures gpu.next == old(gpu.next) + 1 + |layouts|
  {
    var sizes := PoolSizes(maps);
    var info := PoolInfo(sizes, |layouts|);
    PoolInfoServes(sizes, |layouts|, maps);
    var pool := gpu.CreateDescriptorPool(info);
    sets := gpu.AllocateDescriptorSets(pool, layouts);
  }
}
