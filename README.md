# Shader descriptor layouts and GPU resources, modelled in Dafny

This project models two parts of a small Vulkan renderer:

- **Shader descriptor plumbing** (`src/render/shaders.rs`):
  - how a shader kind maps to its pipeline-stage flag;
  - how the descriptor sets found by SPIR-V reflection become Vulkan descriptor-set layouts, one per set index from 0 up to the highest reflected index. Each layout comes with a map from binding number to descriptor type.
  - how a descriptor pool is sized from those maps and one descriptor set is allocated per layout.
- **Resource lifetimes** (`src/buffer.rs`):
  - a `Buffer` and an `Image` each hold one memory allocation until `destroy` takes it;
  - a buffer's host-mapped memory can be written with `copy_from_slice`;
  - an image can be given a 2D colour view.

## Model structure

- **The device and the memory allocator** are one class, `Vulkan.Gpu`:
  - it hands out fresh handles from a counter;
  - it records every call made to it in a ghost, ordered call log;
  - the operations' contracts state exactly which calls they make, in which order, and how far the handle counter moves;
  - they give the create-info values exactly, except for the descriptor pool's sizes: the code collects those by walking a `HashMap`, whose order is unspecified, so the contract states what the sizes cover (one entry per descriptor type in use, with its exact total), not their order.
- **Panics** (`unwrap` on a missing allocation, `unimplemented!` on an unsupported descriptor type, `panic!` on a malformed sampler name) become `Err`/`Fail` values of `Errors.Error`.
- **Reflected sets**: the reflection's `BTreeMap<u32, _>` values are sequences of entries in ascending key order (`BTree`). That makes the iteration order the code relies on explicit.
- **Type maps**: the per-set `HashMap<u32, DescriptorType>` values are Dafny maps.
- **Pool sizing** walks each map in an unspecified order, as `HashMap::values` does. It is proved correct for every order.

Modules:

| file | module | contents |
|---|---|---|
| `wrappers.dfy` | `Wrappers` | `Option`, `Result`, `Outcome` |
| `vulkan.dfy` | `Vulkan` | Vulkan values and constants (flag bits as in the Vulkan headers), the external-call log, `Gpu` |
| `errors.dfy` | `Errors` | the failure cases of the code |
| `btree.dfy` | `BTree` | ordered maps as ascending entry sequences |
| `shaders.dfy` | `Shaders` | shader kinds, reflected data, the sampler-name grammar, resolution of one binding |
| `layouts.dfy` | `DescriptorLayouts` | `create_descriptor_set_layouts` as a specification and as a method |
| `pools.dfy` | `DescriptorPools` | pool sizing and `create_descriptor_sets` |
| `resources.dfy` | `Resources` | `Buffer` and `Image` |

### Notes on the code

- **Uniform-buffer-dynamic bindings are rejected.** A reflected uniform-buffer-dynamic binding is not in the outer list of handled kinds (`src/render/shaders.rs:146-150`). It reaches `unimplemented!` at line 268, so the model rejects it with `UnsupportedDescriptorType`. This happens even though the inner match (lines 159-161) has an arm for it.
- **`"sampler_lrX"` is rejected at its second code.** `r` is not a mipmap code.

## Model

| member | source | states |
|---|---|---|
| Shaders.StageFlag | src/render/shaders.rs:34-40 | each shader kind maps to exactly one stage bit, and that bit lies within SHADER_STAGE_ALL |
| Shaders.StageFlagInjective | src/render/shaders.rs:34-40 | distinct shader kinds get distinct stage flags |
| Shaders.StripPrefix | src/render/shaders.rs:216-217 | succeeds exactly when the name starts with the prefix, and then returns the rest of the name |
| Shaders.ParseFilter | src/render/shaders.rs:218-222 | only "n" and "l" are texel-filter codes, and each parses back to the filter it names |
| Shaders.ParseMipmap | src/render/shaders.rs:225-229 | only "n" and "l" are mipmap codes, and each parses back to the mode it names |
| Shaders.ParseAddress | src/render/shaders.rs:232-238 | only "r", "mr", "c" and "cb" are address codes, and each parses back to the mode it names |
| Shaders.ParseSamplerName | src/render/shaders.rs:215-258 | a name that parses is exactly `sampler_` followed by the codes of the parsed description; any other name fails with MalformedSamplerSpec carrying the name |
| Shaders.SamplerNameRoundTrip | src/render/shaders.rs:215-238 | every sampler description has a name that parses back to it |
| Shaders.SamplerNameInjective | src/render/shaders.rs:215-238 | distinct sampler descriptions have distinct names |
| Shaders.SamplerNameExample | src/render/shaders.rs:215-258 | "sampler_nlc" is nearest/linear/clamp-to-edge; "sampler_lrX", "sampler_" and "nlc" are malformed |
| Shaders.EndsWith | src/render/shaders.rs:169 | a name ends with a suffix when its last characters are that suffix, as `str::ends_with` |
| Shaders.IsSupported | src/render/shaders.rs:144-268 | the reflected kinds the outer match handles: uniform buffer, uniform texel buffer, storage image, storage buffer, dynamic storage buffer, sampled image, sampler, and acceleration structure |
| Shaders.ResolveBinding | src/render/shaders.rs:144-268 | a binding resolves exactly when its kind is handled and, for a sampler, its name parses. The result has the binding's own index, one descriptor and all stages. A storage buffer whose name ends in `_dyn` becomes STORAGE_BUFFER_DYNAMIC; every other kind keeps its type. Only a sampler gets an immutable sampler, the parsed one. The error names the unsupported kind or the malformed name. |
| Shaders.BindingVisibleToStage | src/render/shaders.rs:133 | every resolved binding is visible to the stage of any shader kind |
| BTree.Get | src/render/shaders.rs:134 | lookup in an ordered map finds a value exactly when the key is present, and the value found is that key's value |
| BTree.GetAt | src/render/shaders.rs:134 | in an ascending map, looking up an entry's key yields that entry's value |
| DescriptorLayouts.SetCount | src/render/shaders.rs:121-126 | the set count exceeds every reflected set index, equals one more than some index, and is zero exactly when nothing was reflected |
| DescriptorLayouts.ResolveBindings | src/render/shaders.rs:144-270 | a set's bindings resolve, in key order, exactly when each one does. The k-th layout binding is the k-th entry resolved. The first failing entry's error is the result. |
| DescriptorLayouts.TypeMapOf | src/render/shaders.rs:290-295 | the type map's keys are exactly the binding numbers of the layout bindings |
| DescriptorLayouts.TypeMapOfAscending | src/render/shaders.rs:290-295 | with distinct binding numbers, each binding number maps to that binding's descriptor type |
| DescriptorLayouts.PartiallyBound | src/render/shaders.rs:139-140 | one binding flag per binding, each PARTIALLY_BOUND |
| DescriptorLayouts.SetLayout | src/render/shaders.rs:133-309 | the output for one set index: an empty layout and type map when no set was reflected there; otherwise the resolved bindings with no create flags and one PARTIALLY_BOUND flag each, plus their type map, or the first failing binding's error (characterised by AbsentSetIsEmpty, PresentSetBindings, PresentSetTypes and ReflectedSetLayoutOk) |
| DescriptorLayouts.Layouts | src/render/shaders.rs:132-310 | when the layouts for set indices below n succeed, there is one per index |
| DescriptorLayouts.LayoutsMeaning | src/render/shaders.rs:132-310 | layouts for set indices below n succeed exactly when each set's layout does. They come in index order. The first failing set's error is the result. |
| DescriptorLayouts.DeriveLayouts | src/render/shaders.rs:121-313 | everything derived from a shader's reflected sets: the outputs for every set index below the set count (characterised by DeriveLayoutsSucceeds and LayoutsMeaning) |
| DescriptorLayouts.AbsentSetIsEmpty | src/render/shaders.rs:296-309 | a set index with no reflected set gets the default layout create info and an empty type map |
| DescriptorLayouts.PresentSetBindings | src/render/shaders.rs:136-287 | a reflected set's layout has no create flags, one PARTIALLY_BOUND flag per binding, and one binding per reflected binding, in key order. Each binding is its entry resolved, with the entry's index and one descriptor. |
| DescriptorLayouts.PresentSetTypes | src/render/shaders.rs:290-295 | a reflected set's type map has exactly the set's binding numbers as keys, each mapped to the type its binding resolved to |
| DescriptorLayouts.LayoutsFailAt | src/render/shaders.rs:132-310 | once a set fails, the whole derivation fails with that set's error |
| DescriptorLayouts.ReflectedSetLayoutOk | src/render/shaders.rs:136-287 | a reflected set's layout succeeds exactly when every one of its bindings resolves |
| DescriptorLayouts.DeriveLayoutsSucceeds | src/render/shaders.rs:121-313 | deriving the layouts succeeds exactly when every binding of every reflected set resolves, and then yields one layout per set index below the set count |
| DescriptorLayouts.DerivedBindingsVisibleToStage | src/render/shaders.rs:133 | every binding of every derived layout is visible to the shader's own stage |
| DescriptorLayouts.LayoutCalls | src/render/shaders.rs:276-305 | one layout-creation call per set, in set order, each with that set's create info and the next fresh handle |
| DescriptorLayouts.ResolveSetBindings | src/render/shaders.rs:144-270 | the loop over a set's bindings computes exactly the specified resolution, including the error of the first failing binding |
| DescriptorLayouts.BuildSetLayout | src/render/shaders.rs:133-309 | the work done for one set index computes exactly that index's specified layout, or the error of the set's first binding that does not resolve |
| DescriptorLayouts.CreateDescriptorSetLayouts | src/render/shaders.rs:113-313 | fails exactly when the derivation does, with the same error. Otherwise it returns one layout handle and one type map per set index. It creates the layouts on the device in index order, with the derived create infos, and nothing else. On failure it has already created the layouts of every set index before the failing one, in order, and nothing more. |
| DescriptorPools.FindType | src/render/shaders.rs:69 | finds the first pool size of the given type, and none exactly when no pool size has it |
| DescriptorPools.Bump | src/render/shaders.rs:69-77 | adding one descriptor of a type raises that type's count by one and leaves every other count alone; there is still at most one entry per type, each with a positive count |
| DescriptorPools.FindTypeSameTypes | src/render/shaders.rs:69-71 | raising a count does not move the entry where a type is found |
| DescriptorPools.FindTypeAppend | src/render/shaders.rs:69-77 | a new entry at the end is found only for a type that had no entry |
| DescriptorPools.OccurrencesRemove | src/render/shaders.rs:68 | removing one binding from a type map lowers the count of its type by one and leaves the others alone |
| DescriptorPools.PoolSizes | src/render/shaders.rs:66-79 | whatever order the maps are walked in, the pool sizes hold one entry per used descriptor type, with a positive count, and each count is the number of bindings of that type over all sets |
| DescriptorPools.SizedForEntries | src/render/shaders.rs:66-79 | a type gets a pool entry exactly when some binding has that type |
| DescriptorPools.PoolInfoAsWritten | src/render/shaders.rs:81-83 | the pool as the code creates it: the computed sizes, and at most one set |
| DescriptorPools.AsWrittenPoolRefusesTwoSets | src/render/shaders.rs:81-83 | that pool cannot serve a shader with two descriptor sets |
| DescriptorPools.PoolInfo | src/render/shaders.rs:81-83 | the corrected pool: the computed sizes, and as many sets as layouts |
| DescriptorPools.PoolInfoServes | src/render/shaders.rs:81-100 | the corrected pool serves the allocation of one set per layout |
| DescriptorPools.CreateDescriptorSets | src/render/shaders.rs:60-103 | the corrected routine: it creates one pool whose sizes cover every binding of every set, with max_sets equal to the number of layouts, so the pool can serve every set. It then allocates one descriptor set per layout from that pool, makes no other call, and returns the sets' handles, which follow the pool's handle. |
| Resources.WithDeviceAddress | src/buffer.rs:27-32 | the usage gains SHADER_DEVICE_ADDRESS and keeps every other bit |
| Resources.WithDeviceAddressIdempotent | src/buffer.rs:27-32 | adding the bit to usage that already has it changes nothing |
| Resources.WriteCheck | src/buffer.rs:79-85 | a write passes exactly when the buffer holds a mapped allocation and the bytes fit. Otherwise it fails as not allocated, out of bounds or not mapped, in that order. |
| Resources.WriteCheckAsWritten | src/buffer.rs:79-85 | the code's check: it passes exactly when the allocation is present and mapped, whatever the size |
| Resources.AsWrittenCheckAdmitsOverrun | src/buffer.rs:82 | the code's check lets a 4-byte write at offset 2 into a 4-byte buffer through |
| Resources.Overwrite | src/buffer.rs:84-89 | the written range holds the slice; every other byte is unchanged |
| Resources.OverwriteSame | src/buffer.rs:84-89 | writing back bytes already in place changes nothing |
| Resources.Buffer.constructor | src/buffer.rs:18-68 | creates the buffer with SHADER_DEVICE_ADDRESS usage, allocates linear memory named "buffer" at the given location, binds it and queries the device address, in that order. The new buffer holds its allocation, has the requested size and has not been written to. An allocation in host-visible memory (CpuToGpu or GpuToCpu) is mapped. |
| Resources.Buffer.Destroy | src/buffer.rs:70-73 | frees the allocation and then destroys the buffer. A second destroy fails with DoubleFree and calls nothing. The buffer never holds an allocation afterwards. |
| Resources.Buffer.CopyFromSlice | src/buffer.rs:75-91 | on a passing check, copies the slice into mapped memory at the offset and marks the buffer written. A failing check changes nothing. |
| Resources.ColorViewInfo | src/buffer.rs:136-158 | the view is 2D, in the image's own format, over one mip level and one layer of that image |
| Resources.Image.constructor | src/buffer.rs:102-133 | creates the image, allocates non-linear memory named "image" and binds it. The new image holds its allocation, has no view and keeps its format. |
| Resources.Image.CreateView | src/buffer.rs:135-162 | creates an identity-swizzled colour view of the image and stores it as the image's view; the view takes the next fresh handle |
| Resources.Image.Destroy | src/buffer.rs:164-170 | destroys the view if there is one, then frees the allocation and destroys the image. Without an allocation it fails with DoubleFree after releasing the view. The image ends with neither. |
| Resources.FreeCountAppend | src/buffer.rs:70-73 | the number of frees of one allocation in a call log adds up over concatenation |
| Resources.WriteToNewBuffer | src/buffer.rs:18-91 | a buffer created in host-visible memory is mapped, so writing a slice that fits passes and leaves the slice at the offset |
| Resources.BufferDestroyedTwice | src/buffer.rs:70-73 | destroying a buffer twice fails the second time, and its allocation is freed exactly once |
| Resources.ImageViewReleasedFirst | src/buffer.rs:164-170 | destroying an image with a view releases the view before freeing the memory, and frees the memory before destroying the image |
| Resources.HandlesNeverRepeat | src/buffer.rs:135-162 | an image, two views created from it in turn and a buffer created afterwards never share a handle with each other or with their allocations |

## Left out

- Failures of the device and of the allocator (every `unwrap` on a Vulkan or allocator result) are not modelled. `Gpu` calls always succeed and return fresh handles.
- Memory requirements (`get_buffer_memory_requirements`, `get_image_memory_requirements`) are not modelled. An allocation request records which resource it is for instead.
- `Shader::new` and the SPIR-V reflection behind it are not modelled. The model starts from the reflected sets, which are well formed when both levels are in ascending key order.
- `Shader::from_file` (shader compilation), `ShaderKind::to_shaderc_kind` and `Shader::ext_shader_create_info` are not modelled. They only hand values to the shader compiler or to the shader-object extension.
- The renderer's sampler cache (`get_sampler`) and the `TempList` that keeps sampler handles alive are not modelled. An immutable sampler is represented by the sampler description it was created from.
- The commented-out bindless handling of sampled-image arrays is not code and is not modelled. The reflected array size is carried but unused, as in the code.
- DescriptorLayouts.SetCount: integers are unbounded, so the model does not capture the 32-bit overflow of `set_index + 1` for a set index of 2^32 - 1.
- DescriptorPools.PoolSizes: counts are unbounded. The 32-bit descriptor count cannot overflow in practice, since it is bounded by the number of bindings.
- Resources.Buffer.CopyFromSlice: the slice is modelled as bytes, with its byte length standing for `size_of_val(slice)`. The code casts the mapped pointer plus `offset` to `*mut T`, and `from_raw_parts_mut` requires that pointer to be aligned for `T`. So for an element type with alignment above 1, an `offset` that is not a multiple of that alignment is undefined behaviour in the code. The byte model does not capture this requirement and accepts such writes.
- Resources.Buffer.CopyFromSlice: a write that passes the code's own check but runs past the end of the buffer is undefined behaviour. The model refuses it with OffsetOutOfBounds instead; see the findings below.
- DescriptorPools.CreateDescriptorSets: the pool gets max_sets equal to the number of layouts instead of the code's 1 (`src/render/shaders.rs:83`). The code's pool is `DescriptorPools.PoolInfoAsWritten`; see the findings below.
- Mapped memory starts with arbitrary contents. Every buffer carries `size` bytes of memory in the model. A write to a buffer whose memory is not host-mapped fails with BufferNotMapped.
- Aliasing between resources is not a concern: the code's values are owned, and each model object has its own fields.

## Findings

| source | as written | input that shows it | evidently intended | confidence | as-written member | corrected member |
|---|---|---|---|---|---|---|
| src/buffer.rs:82 | the bounds assertion in `copy_from_slice` is commented out, so the only checks are that the allocation is present and mapped | a 4-byte slice at offset 2 into a 4-byte mapped buffer passes, and the copy writes 2 bytes past the end of the buffer | reject a write whose byte length plus offset exceeds the buffer's `size` (the commented-out line reads `self.info.get_size()`, but `Buffer` has no `info` field, src/buffer.rs:9-15) | high; not executed | Resources.AsWrittenCheckAdmitsOverrun | Resources.WriteCheck |
| src/render/shaders.rs:81-83 | the descriptor pool is created with `max_sets(1)`, but one descriptor set is then allocated per layout | a shader with set 0 (two uniform buffers) and set 1 (one sampler) needs 2 sets from a pool that allows 1 | `max_sets` equal to the number of layouts | high; not executed | DescriptorPools.AsWrittenPoolRefusesTwoSets | DescriptorPools.PoolInfoServes |
