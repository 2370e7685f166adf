/**
 * Shader kinds, the reflected descriptor metadata a shader carries, and how one
 * reflected binding becomes a descriptor-set-layout binding: the descriptor-type
 * mapping, the `_dyn` naming rule and the `sampler_<filter><mipmap><address>` name
 * grammar.
 */
module Shaders {
  import opened Wrappers
  import opened Errors
  import opened Vulkan
  import opened BTree

  datatype ShaderKind = Vertex | Fragment | Compute

  /** `ShaderKind::to_vk_shader_stage_flag`: the single stage bit of the kind. */
  function StageFlag(kind: ShaderKind): (f: bv32)
    ensures f != 0 && f & (f - 1) == 0
    ensures f & SHADER_STAGE_ALL == f
  {
    match kind
    case Vertex => SHADER_STAGE_VERTEX
    case Fragment => SHADER_STAGE_FRAGMENT
    case Compute => SHADER_STAGE_COMPUTE
  }

  /** Each kind has its own stage bit. */
  lemma StageFlagInjective(a: ShaderKind, b: ShaderKind)
    ensures StageFlag(a) == StageFlag(b) <==> a == b
  {
  }

  datatype Dimensionality = Single | Array(size: nat) | RuntimeArray

  /** What reflection reports about one binding. */
  datatype DescriptorInfo = DescriptorInfo(ty: DescriptorType, dimensionality: Dimensionality, name: string)

  /** The bindings of one set, by binding index. */
  type SetBindings = seq<Entry<DescriptorInfo>>

  /** The reflected layout of a shader, by set index. */
  type ReflectedSets = seq<Entry<SetBindings>>

  /**
   * A compiled shader with the descriptor layout reflection found in its code.
   * Reflection itself is not modelled: `sets` is its output.
   */
  datatype Shader = Shader(kind: ShaderKind, spirv: seq<bv8>, sets: ReflectedSets, entryPoint: string)

  /** Both levels of the reflected layout are ordered maps. */
  ghost predicate WellFormed(sets: ReflectedSets)
  {
    Ascending(sets) && forall i :: 0 <= i < |sets| ==> Ascending(sets[i].value)
  }

  /** `str::ends_with`. */
  predicate EndsWith(s: string, suffix: string)
  {
    |suffix| <= |s| && s[|s| - |suffix|..] == suffix
  }

  /** `str::strip_prefix`. */
  function StripPrefix(s: string, prefix: string): (r: Option<string>)
    ensures r.Some? <==> |prefix| <= |s| && s[..|prefix|] == prefix
    ensures r.Some? ==> s == prefix + r.value
  {
    if |prefix| <= |s| && s[..|prefix|] == prefix then
      assert s == s[..|prefix|] + s[|prefix|..];
      Some(s[|prefix|..])
    else None
  }

  // ---------------------------------------------------------------------------
  // The sampler-name grammar: "sampler_" <filter> <mipmap> <address>
  // ---------------------------------------------------------------------------

  const SAMPLER_PREFIX: string := "sampler_"

  function FilterCode(f: Filter): string
  {
    match f
    case FilterNearest => "n"
    case FilterLinear => "l"
  }

  function MipmapCode(m: SamplerMipmapMode): string
  {
    match m
    case MipmapNearest => "n"
    case MipmapLinear => "l"
  }

  function AddressCode(a: SamplerAddressMode): string
  {
    match a
    case Repeat => "r"
    case MirroredRepeat => "mr"
    case ClampToEdge => "c"
    case ClampToBorder => "cb"
  }

  /** The binding name that asks for the sampler `d`. */
  function SamplerName(d: SamplerDesc): string
  {
    SAMPLER_PREFIX + FilterCode(d.texelFilter) + MipmapCode(d.mipmapMode) + AddressCode(d.addressModes)
  }

  function ParseFilter(code: string): (r: Option<Filter>)
    ensures r.Some? <==> code == "n" || code == "l"
    ensures r.Some? ==> FilterCode(r.value) == code
  {
    if code == "n" then Some(FilterNearest)
    else if code == "l" then Some(FilterLinear)
    else None
  }

  function ParseMipmap(code: string): (r: Option<SamplerMipmapMode>)
    ensures r.Some? <==> code == "n" || code == "l"
    ensures r.Some? ==> MipmapCode(r.value) == code
  {
    if code == "n" then Some(MipmapNearest)
    else if code == "l" then Some(MipmapLinear)
    else None
  }

  function ParseAddress(code: string): (r: Option<SamplerAddressMode>)
    ensures r.Some? <==> code == "r" || code == "mr" || code == "c" || code == "cb"
    ensures r.Some? ==> AddressCode(r.value) == code
  {
    if code == "r" then Some(Repeat)
    else if code == "mr" then Some(MirroredRepeat)
    else if code == "c" then Some(ClampToEdge)
    else if code == "cb" then Some(ClampToBorder)
    else None
  }

  /**
   * The sampler a binding name asks for. The name must start with "sampler_"; the
   * next character is the filter, the one after it the mipmap mode, and the whole
   * rest the address mode. A missing prefix, a name too short to hold the one-letter
   * codes, or an unknown code is a malformed sampler spec. A name parses exactly
   * when it is `SamplerName` of the result.
   */
  function ParseSamplerName(name: string): (r: Result<SamplerDesc, Error>)
    ensures r.Ok? ==> SamplerName(r.value) == name
    ensures r.Err? ==> r.error == MalformedSamplerSpec(name)
  {
    match StripPrefix(name, SAMPLER_PREFIX)
    case None => Err(MalformedSamplerSpec(name))
    case Some(spec) =>
      if |spec| < 1 then Err(MalformedSamplerSpec(name))
      else match ParseFilter(spec[..1])
      case None => Err(MalformedSamplerSpec(name))
      case Some(texelFilter) =>
        var spec' := spec[1..];
        if |spec'| < 1 then Err(MalformedSamplerSpec(name))
        else match ParseMipmap(spec'[..1])
        case None => Err(MalformedSamplerSpec(name))
        case Some(mipmapMode) =>
          var spec'' := spec'[1..];
          match ParseAddress(spec'')
          case None => Err(MalformedSamplerSpec(name))
          case Some(addressModes) =>
            assert spec == spec[..1] + spec' && spec' == spec'[..1] + spec'';
            Ok(SamplerDesc(texelFilter, mipmapMode, addressModes))
  }

  /** Every sampler the grammar can name is recovered from its name. */
  lemma {:induction false} SamplerNameRoundTrip(d: SamplerDesc)
    ensures ParseSamplerName(SamplerName(d)) == Ok(d)
  {
    var name := SamplerName(d);
    var f, m, a := FilterCode(d.texelFilter), MipmapCode(d.mipmapMode), AddressCode(d.addressModes);
    assert ParseFilter(f) == Some(d.texelFilter) by { if d.texelFilter.FilterNearest? { } else { } }
    assert ParseMipmap(m) == Some(d.mipmapMode) by { if d.mipmapMode.MipmapNearest? { } else { } }
    assert ParseAddress(a) == Some(d.addressModes) by {
      match d.addressModes
      case Repeat =>
      case MirroredRepeat =>
      case ClampToEdge =>
      case ClampToBorder =>
    }
    var rest := m + a;
    var spec := f + rest;
    assert name == SAMPLER_PREFIX + spec;
    assert StripPrefix(name, SAMPLER_PREFIX) == Some(spec) by {
      assert name[..|SAMPLER_PREFIX|] == SAMPLER_PREFIX;
      assert name[|SAMPLER_PREFIX|..] == spec;
    }
    assert |f| == 1 && |m| == 1;
    assert spec[..1] == f && spec[1..] == rest;
    assert rest[..1] == m && rest[1..] == a;
  }

  /** Two samplers never share a name, so the registry key is determined by the name. */
  lemma SamplerNameInjective(d: SamplerDesc, e: SamplerDesc)
    ensures SamplerName(d) == SamplerName(e) <==> d == e
  {
    if SamplerName(d) == SamplerName(e) {
      SamplerNameRoundTrip(d);
      SamplerNameRoundTrip(e);
    }
  }

  /** The name "sampler_nlc" asks for a nearest filter, a linear mipmap and clamp-to-edge addressing. */
  lemma SamplerNameExample()
    ensures ParseSamplerName("sampler_nlc") == Ok(SamplerDesc(FilterNearest, MipmapLinear, ClampToEdge))
    ensures ParseSamplerName("sampler_lrX") == Err(MalformedSamplerSpec("sampler_lrX"))
    ensures ParseSamplerName("sampler_") == Err(MalformedSamplerSpec("sampler_"))
    ensures ParseSamplerName("nlc") == Err(MalformedSamplerSpec("nlc"))
  {
    SamplerNameRoundTrip(SamplerDesc(FilterNearest, MipmapLinear, ClampToEdge));
  }

  // ---------------------------------------------------------------------------
  // One reflected binding -> one layout binding
  // ---------------------------------------------------------------------------

  /** The reflected kinds the layout builder accepts. */
  predicate IsSupported(ty: DescriptorType)
  {
    ty in {UniformBuffer, UniformTexelBuffer, StorageImage, StorageBuffer, StorageBufferDynamic,
           SampledImage, Sampler, AccelerationStructureKhr}
  }

  /** The naming rule: a storage buffer whose name ends in "_dyn" is a dynamic storage buffer. */
  const DYNAMIC_SUFFIX: string := "_dyn"

  /**
   * The layout binding built for reflected binding `index`. Every kind passes
   * through unchanged except a storage buffer named "..._dyn", which becomes a
   * dynamic storage buffer; a sampler also carries the immutable sampler its name
   * asks for. Each binding holds one descriptor and is visible to all stages. A
   * kind outside the supported list (dynamic uniform buffers among them: the inner
   * match has an arm for them, but the outer match never reaches it) is rejected,
   * and so is a sampler with a malformed name.
   */
  function ResolveBinding(index: nat, info: DescriptorInfo): (r: Result<LayoutBinding, Error>)
    ensures r.Ok? <==> IsSupported(info.ty) && (info.ty == Sampler ==> ParseSamplerName(info.name).Ok?)
    ensures r.Err? ==> r.error == (if IsSupported(info.ty) then MalformedSamplerSpec(info.name)
                                   else UnsupportedDescriptorType(index, info.ty))
    ensures r.Ok? ==> && r.value.binding == index
                      && r.value.descriptorCount == 1
                      && r.value.stageFlags == SHADER_STAGE_ALL
    ensures r.Ok? ==> r.value.descriptorType ==
                      if info.ty == StorageBuffer && EndsWith(info.name, DYNAMIC_SUFFIX)
                      then StorageBufferDynamic else info.ty
    ensures r.Ok? ==> r.value.immutableSamplers ==
                      if info.ty == Sampler then [ParseSamplerName(info.name).value] else []
  {
    match info.ty
    case UniformBuffer => Ok(LayoutBinding(index, UniformBuffer, 1, SHADER_STAGE_ALL, []))
    case UniformTexelBuffer => Ok(LayoutBinding(index, UniformTexelBuffer, 1, SHADER_STAGE_ALL, []))
    case StorageImage => Ok(LayoutBinding(index, StorageImage, 1, SHADER_STAGE_ALL, []))
    case StorageBuffer =>
      var ty := if EndsWith(info.name, DYNAMIC_SUFFIX) then StorageBufferDynamic else StorageBuffer;
      Ok(LayoutBinding(index, ty, 1, SHADER_STAGE_ALL, []))
    case StorageBufferDynamic => Ok(LayoutBinding(index, StorageBufferDynamic, 1, SHADER_STAGE_ALL, []))
    case SampledImage => Ok(LayoutBinding(index, SampledImage, 1, SHADER_STAGE_ALL, []))
    case Sampler =>
      (match ParseSamplerName(info.name)
       case Ok(desc) => Ok(LayoutBinding(index, Sampler, 1, SHADER_STAGE_ALL, [desc]))
       case Err(e) => Err(e))
    case AccelerationStructureKhr =>
      Ok(LayoutBinding(index, AccelerationStructureKhr, 1, SHADER_STAGE_ALL, []))
    case _ => Err(UnsupportedDescriptorType(index, info.ty))
  }

  /** Whatever stage a shader runs in, every binding built for it is visible to that stage. */
  lemma BindingVisibleToStage(kind: ShaderKind, index: nat, info: DescriptorInfo)
    requires ResolveBinding(index, info).Ok?
    ensures ResolveBinding(index, info).value.stageFlags & StageFlag(kind) == StageFlag(kind)
  {
    var f := StageFlag(kind);
    assert SHADER_STAGE_ALL & f == f & SHADER_STAGE_ALL;
  }
}
