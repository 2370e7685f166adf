/**
 * `Shader::create_descriptor_set_layouts`: one descriptor-set layout and one
 * binding-type map per set index from 0 up to the largest reflected set index,
 * with empty placeholders for indices the shader does not use.
 */
module DescriptorLayouts {
  import opened Wrappers
  import opened Errors
  import opened Vulkan
  import opened BTree
  import opened Shaders

  /** `set_count`: one more than the largest set index, or 0 when there is none. */
  function SetCount<V>(m: seq<Entry<V>>): (n: nat)
    ensures forall i :: 0 <= i < |m| ==> m[i].key < n
    ensures n == 0 <==> m == []
    ensures m != [] ==> exists i :: 0 <= i < |m| && m[i].key + 1 == n
  {
    if m == [] then 0
    else
      var rest := SetCount(m[1..]);
      assert forall i :: 1 <= i < |m| ==> m[i] == m[1..][i - 1];
      if m[0].key + 1 > rest then m[0].key + 1 else rest
  }

  /** A set's binding index -> descriptor type map (a `HashMap<u32, vk::DescriptorType>`). */
  type TypeMap = map<nat, DescriptorType>

  /** What is produced for one set index: the layout's create info and its type map. */
  datatype SetOutput = SetOutput(info: LayoutCreateInfo, types: TypeMap)

  /** The values of `results` when every one is Ok; otherwise the error of the first that is not. */
  function AllOk<T, E>(results: seq<Result<T, E>>): (r: Result<seq<T>, E>)
    ensures r.Ok? <==> forall k :: 0 <= k < |results| ==> results[k].Ok?
    ensures r.Ok? ==> |r.value| == |results| && forall k :: 0 <= k < |results| ==> results[k] == Ok(r.value[k])
    ensures r.Err? ==> exists k :: && 0 <= k < |results|
                                  && results[k] == Err(r.error)
                                  && forall j :: 0 <= j < k ==> results[j].Ok?
  {
    if results == [] then Ok([])
    else
      var init := results[..|results| - 1];
      assert forall k :: 0 <= k < |init| ==> init[k] == results[k];
      match AllOk(init)
      case Err(e) => Err(e)
      case Ok(values) =>
        match results[|results| - 1]
        case Err(e) => Err(e)
        case Ok(v) => Ok(values + [v])
  }

  /**
   * The layout bindings of one reflected set, in ascending binding order. The set
   * is rejected with the error of its first binding that does not resolve.
   */
  function ResolveBindings(entries: SetBindings): (r: Result<seq<LayoutBinding>, Error>)
    ensures r.Ok? <==> forall k :: 0 <= k < |entries| ==> ResolveBinding(entries[k].key, entries[k].value).Ok?
    ensures r.Ok? ==> |r.value| == |entries|
    ensures r.Ok? ==> forall k :: 0 <= k < |entries| ==> ResolveBinding(entries[k].key, entries[k].value) == Ok(r.value[k])
    ensures r.Err? ==> exists k :: && 0 <= k < |entries|
                                  && ResolveBinding(entries[k].key, entries[k].value) == Err(r.error)
                                  && forall j :: 0 <= j < k ==> ResolveBinding(entries[j].key, entries[j].value).Ok?
  {
    var results := seq(|entries|, k requires 0 <= k < |entries| => ResolveBinding(entries[k].key, entries[k].value));
    assert forall k :: 0 <= k < |entries| ==> results[k] == ResolveBinding(entries[k].key, entries[k].value);
    AllOk(results)
  }

  /** `bindings.iter().map(|b| (b.binding, b.descriptor_type)).collect()`. */
  function TypeMapOf(bindings: seq<LayoutBinding>): (m: TypeMap)
    ensures m.Keys == set k | 0 <= k < |bindings| :: bindings[k].binding
  {
    if bindings == [] then map[]
    else
      var init := bindings[..|bindings| - 1];
      var last := bindings[|bindings| - 1];
      assert forall k :: 0 <= k < |init| ==> init[k] == bindings[k];
      TypeMapOf(init)[last.binding := last.descriptorType]
  }

  /** When binding indices ascend, the type map sends each binding to its own descriptor type. */
  lemma {:induction false} TypeMapOfAscending(bindings: seq<LayoutBinding>)
    requires forall j, k :: 0 <= j < k < |bindings| ==> bindings[j].binding < bindings[k].binding
    ensures forall k :: 0 <= k < |bindings| ==> TypeMapOf(bindings)[bindings[k].binding] == bindings[k].descriptorType
  {
    if bindings != [] {
      var init := bindings[..|bindings| - 1];
      var last := bindings[|bindings| - 1];
      forall j, k | 0 <= j < k < |init| ensures init[j].binding < init[k].binding {
        assert init[j] == bindings[j] && init[k] == bindings[k];
      }
      TypeMapOfAscending(init);
      var m := TypeMapOf(init);
      assert TypeMapOf(bindings) == m[last.binding := last.descriptorType];
      forall k | 0 <= k < |init|
        ensures TypeMapOf(bindings)[bindings[k].binding] == bindings[k].descriptorType
      {
        assert init[k] == bindings[k];
        assert bindings[k].binding < last.binding;
      }
    }
  }

  /** The binding flags of a set with `n` bindings: each one partially bound. */
  function PartiallyBound(n: nat): (flags: seq<bv32>)
    ensures |flags| == n && forall k :: 0 <= k < n ==> flags[k] == DESCRIPTOR_BINDING_PARTIALLY_BOUND
  {
    seq(n, _ => DESCRIPTOR_BINDING_PARTIALLY_BOUND)
  }

  /**
   * The output for set index `index`: an empty layout and an empty type map when no
   * set was reflected under that index; otherwise the resolved bindings, one
   * partially-bound flag per binding, and the type map of those bindings.
   */
  function SetLayout(sets: ReflectedSets, index: nat): (r: Result<SetOutput, Error>)
  {
    match Get(sets, index)
    case None => Ok(SetOutput(EMPTY_LAYOUT_INFO, map[]))
    case Some(entries) =>
      match ResolveBindings(entries)
      case Err(e) => Err(e)
      case Ok(bindings) =>
        Ok(SetOutput(LayoutCreateInfo(NO_LAYOUT_CREATE_FLAGS, bindings, Some(PartiallyBound(|entries|))),
                     TypeMapOf(bindings)))
  }

  /** The outputs for set indices 0 .. n-1, or the error of the first index that fails. */
  function Layouts(sets: ReflectedSets, n: nat): (r: Result<seq<SetOutput>, Error>)
    ensures r.Ok? ==> |r.value| == n
  {
    if n == 0 then Ok([])
    else
      match Layouts(sets, n - 1)
      case Err(e) => Err(e)
      case Ok(outs) =>
        match SetLayout(sets, n - 1)
        case Err(e) => Err(e)
        case Ok(o) => Ok(outs + [o])
  }

  /**
   * The outputs for indices below `n` succeed exactly when each index's output
   * does, and then come in index order; otherwise the error is that of the first
   * index that fails.
   */
  lemma {:induction false} LayoutsMeaning(sets: ReflectedSets, n: nat)
    ensures var r := Layouts(sets, n);
      && (r.Ok? <==> forall i :: 0 <= i < n ==> SetLayout(sets, i).Ok?)
      && (r.Ok? ==> forall i :: 0 <= i < n ==> SetLayout(sets, i) == Ok(r.value[i]))
      && (r.Err? ==> exists i :: && 0 <= i < n
                                 && SetLayout(sets, i) == Err(r.error)
                                 && forall j :: 0 <= j < i ==> SetLayout(sets, j).Ok?)
  {
    if n > 0 {
      LayoutsMeaning(sets, n - 1);
      var r := Layouts(sets, n);
      var prev := Layouts(sets, n - 1);
      if prev.Ok? && SetLayout(sets, n - 1).Ok? {
        assert r.value == prev.value + [SetLayout(sets, n - 1).value];
        assert forall i :: 0 <= i < n - 1 ==> r.value[i] == prev.value[i];
      }
    }
  }

  /** Everything `create_descriptor_set_layouts` derives from a shader's reflected sets. */
  function DeriveLayouts(sets: ReflectedSets): Result<seq<SetOutput>, Error>
  {
    Layouts(sets, SetCount(sets))
  }

  /** An index with no reflected set gets the default (empty) layout and an empty type map. */
  lemma AbsentSetIsEmpty(sets: ReflectedSets, index: nat)
    requires Get(sets, index).None?
    ensures SetLayout(sets, index) == Ok(SetOutput(EMPTY_LAYOUT_INFO, map[]))
  {
  }

  /**
   * For a reflected set: one layout binding per reflected binding, in the same
   * order and with the same binding index, each holding one descriptor, and one
   * partially-bound flag per binding.
   */
  lemma PresentSetBindings(sets: ReflectedSets, index: nat)
    requires Get(sets, index).Some?
    requires SetLayout(sets, index).Ok?
    ensures var entries, info := Get(sets, index).value, SetLayout(sets, index).value.info;
      && info.flags == NO_LAYOUT_CREATE_FLAGS
      && |info.bindings| == |entries|
      && info.bindingFlags == Some(PartiallyBound(|entries|))
      && forall k :: 0 <= k < |entries| ==>
           && info.bindings[k] == ResolveBinding(entries[k].key, entries[k].value).value
           && info.bindings[k].binding == entries[k].key
           && info.bindings[k].descriptorCount == 1
  {
    var entries := Get(sets, index).value;
    var bindings := ResolveBindings(entries).value;
    forall k | 0 <= k < |entries|
      ensures bindings[k] == ResolveBinding(entries[k].key, entries[k].value).value
      ensures bindings[k].binding == entries[k].key && bindings[k].descriptorCount == 1
    {
      assert ResolveBinding(entries[k].key, entries[k].value) == Ok(bindings[k]);
    }
  }

  /**
   * For a reflected set, the type map's keys are exactly the set's binding indices,
   * and it sends each to the descriptor type chosen for that binding.
   */
  lemma PresentSetTypes(sets: ReflectedSets, index: nat)
    requires WellFormed(sets)
    requires Get(sets, index).Some?
    requires SetLayout(sets, index).Ok?
    ensures var entries, out := Get(sets, index).value, SetLayout(sets, index).value;
      && out.types.Keys == Keys(entries)
      && forall k :: 0 <= k < |entries| ==>
           out.types[entries[k].key] == ResolveBinding(entries[k].key, entries[k].value).value.descriptorType
  {
    var entries := Get(sets, index).value;
    var j :| 0 <= j < |sets| && sets[j] == Entry(index, entries);
    assert Ascending(entries);
    var bindings := ResolveBindings(entries).value;
    forall k | 0 <= k < |entries| ensures bindings[k].binding == entries[k].key {
      assert ResolveBinding(entries[k].key, entries[k].value) == Ok(bindings[k]);
    }
    TypeMapOfAscending(bindings);
    assert (set k | 0 <= k < |bindings| :: bindings[k].binding) == Keys(entries);
  }

  /** One more successful set index extends the successful outputs by its output. */
  lemma LayoutsStep(sets: ReflectedSets, i: nat, outs: seq<SetOutput>, out: SetOutput)
    requires Layouts(sets, i) == Ok(outs) && SetLayout(sets, i) == Ok(out)
    ensures Layouts(sets, i + 1) == Ok(outs + [out])
  {
  }

  /** Once every index below `i` succeeded, the first failure at `i` is the failure of them all. */
  lemma LayoutsFailAt(sets: ReflectedSets, i: nat, n: nat)
    requires i < n
    requires Layouts(sets, i).Ok? && SetLayout(sets, i).Err?
    ensures Layouts(sets, n) == Err(SetLayout(sets, i).error)
  {
    LayoutsMeaning(sets, i);
    LayoutsMeaning(sets, n);
    var r := Layouts(sets, n);
    assert r.Err?;
    var i' :| 0 <= i' < n && SetLayout(sets, i') == Err(r.error) && forall j :: 0 <= j < i' ==> SetLayout(sets, j).Ok?;
    assert i' == i;
  }

  /** The layout of a reflected set succeeds exactly when each of its bindings resolves. */
  lemma ReflectedSetLayoutOk(sets: ReflectedSets, s: nat)
    requires WellFormed(sets) && s < |sets|
    ensures SetLayout(sets, sets[s].key).Ok? <==>
            forall k :: 0 <= k < |sets[s].value| ==> ResolveBinding(sets[s].value[k].key, sets[s].value[k].value).Ok?
  {
    GetAt(sets, s);
  }

  /**
   * The derivation succeeds exactly when every binding of every reflected set
   * resolves; then there is one output per set index below `SetCount`.
   */
  lemma DeriveLayoutsSucceeds(sets: ReflectedSets)
    requires WellFormed(sets)
    ensures DeriveLayouts(sets).Ok? <==>
            forall s, k :: 0 <= s < |sets| && 0 <= k < |sets[s].value| ==>
              ResolveBinding(sets[s].value[k].key, sets[s].value[k].value).Ok?
    ensures DeriveLayouts(sets).Ok? ==> |DeriveLayouts(sets).value| == SetCount(sets)
  {
    var n := SetCount(sets);
    LayoutsMeaning(sets, n);
    if DeriveLayouts(sets).Ok? {
      forall s, k | 0 <= s < |sets| && 0 <= k < |sets[s].value|
        ensures ResolveBinding(sets[s].value[k].key, sets[s].value[k].value).Ok?
      {
        ReflectedSetLayoutOk(sets, s);
      }
    } else {
      var i :| 0 <= i < n && SetLayout(sets, i).Err?;
      var s :| 0 <= s < |sets| && sets[s] == Entry(i, Get(sets, i).value);
      ReflectedSetLayoutOk(sets, s);
    }
  }

  /** The layout-creation calls for `outs`, the i-th handing back handle `first + i`. */
  function LayoutCalls(outs: seq<SetOutput>, first: Handle): (calls: seq<Call>)
    ensures |calls| == |outs|
  {
    seq(|outs|, i requires 0 <= i < |outs| => Call.CreateDescriptorSetLayout(outs[i].info, first + i))
  }

  /**
   * The loop over one set's bindings in `create_descriptor_set_layouts`: resolves
   * them in ascending binding order and stops at the first that does not resolve.
   */
  method ResolveSetBindings(entries: SetBindings) returns (r: Result<seq<LayoutBinding>, Error>)
    ensures r == ResolveBindings(entries)
  {
    var bindings: seq<LayoutBinding> := [];
    var k := 0;
    while k < |entries|
      invariant k <= |entries| && |bindings| == k
      invariant forall j :: 0 <= j < k ==> ResolveBinding(entries[j].key, entries[j].value) == Ok(bindings[j])
    {
      var b := ResolveBinding(entries[k].key, entries[k].value);
      if b.Err? {
        return Err(b.error);
      }
      bindings := bindings + [b.value];
      k := k + 1;
    }
    var expected := ResolveBindings(entries);
    assert expected.Ok?;
    assert forall j :: 0 <= j < k ==> expected.value[j] == bindings[j];
    assert expected.value == bindings;
    return Ok(bindings);
  }

  /** The handles `first`, `first + 1`, ..., `first + n - 1`. */
  function Consecutive(first: Handle, n: nat): (hs: seq<Handle>)
    ensures |hs| == n && forall i :: 0 <= i < n ==> hs[i] == first + i
  {
    seq(n, i => first + i)
  }

  /** The type maps of `outs`, in order. */
  function TypesOf(outs: seq<SetOutput>): (ts: seq<TypeMap>)
    ensures |ts| == |outs| && forall i :: 0 <= i < |outs| ==> ts[i] == outs[i].types
  {
    seq(|outs|, i requires 0 <= i < |outs| => outs[i].types)
  }

  lemma ConsecutiveAppend(first: Handle, n: nat)
    ensures Consecutive(first, n) + [first + n] == Consecutive(first, n + 1)
  {
  }

  lemma TypesOfAppend(outs: seq<SetOutput>, out: SetOutput)
    ensures TypesOf(outs) + [out.types] == TypesOf(outs + [out])
  {
  }

  /** Creating one more layout appends its call to the calls for the earlier ones. */
  lemma LayoutCallsAppend(outs: seq<SetOutput>, out: SetOutput, first: Handle)
    ensures LayoutCalls(outs + [out], first)
         == LayoutCalls(outs, first) + [Call.CreateDescriptorSetLayout(out.info, first + |outs|)]
  {
    var all := outs + [out];
    assert forall i :: 0 <= i < |outs| ==> all[i] == outs[i];
  }

  /**
   * The body of the loop over set indices in `create_descriptor_set_layouts`: the
   * create info and type map for set index `index`, or the error of its first
   * binding that does not resolve.
   */
  method BuildSetLayout(sets: ReflectedSets, index: nat) returns (r: Result<SetOutput, Error>)
    ensures r == SetLayout(sets, index)
  {
    var found: Option<SetBindings> := Get(sets, index);
    match found {
    case Some(entries) =>
      var resolved := ResolveSetBindings(entries);
      if resolved.Err? {
        return Err(resolved.error);
      }
      var bindings := resolved.value;
      var bindingFlags := PartiallyBound(|entries|);
      r := Ok(SetOutput(LayoutCreateInfo(NO_LAYOUT_CREATE_FLAGS, bindings, Some(bindingFlags)), TypeMapOf(bindings)));
    case None =>
      r := Ok(SetOutput(EMPTY_LAYOUT_INFO, map[]));
    }
  }

  /**
   * `Shader::create_descriptor_set_layouts`: creates the layout of every set index
   * in order and returns the layouts with their type maps. It fails exactly when the
   * derivation does, with the same error; otherwise it returns one layout and one
   * type map per set index, the layouts created in set order from the derived
   * create infos.
   */
  method CreateDescriptorSetLayouts(shader: Shader, gpu: Gpu) returns (r: Result<(seq<Handle>, seq<TypeMap>), Error>)
    modifies gpu
    ensures r.Err? <==> DeriveLayouts(shader.sets).Err?
    ensures r.Err? ==> r.error == DeriveLayouts(shader.sets).error
    ensures r.Err? ==>
      exists i :: && 0 <= i < SetCount(shader.sets)
                  && Layouts(shader.sets, i).Ok?
                  && SetLayout(shader.sets, i) == Err(r.error)
                  && gpu.calls == old(gpu.calls) + LayoutCalls(Layouts(shader.sets, i).value, old(gpu.next))
                  && gpu.next == old(gpu.next) + i
    ensures r.Ok? ==>
      var outs := DeriveLayouts(shader.sets).value;
      && r.value.0 == Consecutive(old(gpu.next), |outs|)
      && r.value.1 == TypesOf(outs)
      && gpu.calls == old(gpu.calls) + LayoutCalls(outs, old(gpu.next))
      && gpu.next == old(gpu.next) + |outs|
  {
    var sets: ReflectedSets := shader.sets;
    var setCount := SetCount(sets);
    var setLayouts: seq<Handle> := [];
    var setLayoutInfo: seq<TypeMap> := [];
    ghost var outs: seq<SetOutput> := [];
    var setIndex := 0;
    while setIndex < setCount
      invariant setIndex <= setCount
      invariant Layouts(sets, setIndex) == Ok(outs)
      invariant |outs| == setIndex
      invariant setLayouts == Consecutive(old(gpu.next), setIndex) && setLayoutInfo == TypesOf(outs)
      invariant gpu.calls == old(gpu.calls) + LayoutCalls(outs, old(gpu.next))
      invariant gpu.next == old(gpu.next) + setIndex
      decreases setCount - setIndex
    {
      var built := BuildSetLayout(sets, setIndex);
      if built.Err? {
        LayoutsFailAt(sets, setIndex, setCount);
        return Err(built.error);
      }
      var info, types := built.value.info, built.value.types;
      var layout := gpu.CreateDescriptorSetLayout(info);
      setLayouts := setLayouts + [layout];
      setLayoutInfo := setLayoutInfo + [types];
      LayoutCallsAppend(outs, built.value, old(gpu.next));
      LayoutsStep(sets, setIndex, outs, built.value);
      ConsecutiveAppend(old(gpu.next), setIndex);
      TypesOfAppend(outs, built.value);
      outs := outs + [built.value];
      setIndex := setIndex + 1;
    }
    assert DeriveLayouts(sets) == Ok(outs);
    r := Ok((setLayouts, setLayoutInfo));
  }

  /** Every binding of every derived layout is visible to the stage of the shader it came from. */
  lemma DerivedBindingsVisibleToStage(shader: Shader, i: nat, k: nat)
    requires DeriveLayouts(shader.sets).Ok?
    requires i < |DeriveLayouts(shader.sets).value|
    requires k < |DeriveLayouts(shader.sets).value[i].info.bindings|
    ensures var b := DeriveLayouts(shader.sets).value[i].info.bindings[k];
            b.stageFlags & StageFlag(shader.kind) == StageFlag(shader.kind)
  {
    LayoutsMeaning(shader.sets, SetCount(shader.sets));
    var entries := Get(shader.sets, i).value;
    var bindings := ResolveBindings(entries).value;
    assert ResolveBinding(entries[k].key, entries[k].value) == Ok(bindings[k]);
    BindingVisibleToStage(shader.kind, entries[k].key, entries[k].value);
  }
}
