/**
 * The Vulkan values the subsystem builds and the device/allocator it calls.
 *
 * Handles are abstract: each is a natural number the `Gpu` hands out, never the
 * same one twice. Flag sets are 32-bit masks with Vulkan's own bit values. The
 * device and the memory allocator are external collaborators; `Gpu` stands for
 * both and records, in order, every call made into them, so the model can state
 * what a resource operation asked of them and in which order.
 */
module Vulkan {
  import opened Wrappers

  type Handle = nat

  // VkShaderStageFlagBits
  const SHADER_STAGE_VERTEX: bv32 := 0x0000_0001
  const SHADER_STAGE_FRAGMENT: bv32 := 0x0000_0010
  const SHADER_STAGE_COMPUTE: bv32 := 0x0000_0020
  const SHADER_STAGE_ALL: bv32 := 0x7FFF_FFFF

  // VkDescriptorBindingFlagBits
  const DESCRIPTOR_BINDING_PARTIALLY_BOUND: bv32 := 0x0000_0004

  // VkDescriptorSetLayoutCreateFlags with no bit set
  const NO_LAYOUT_CREATE_FLAGS: bv32 := 0

  // VkBufferUsageFlagBits
  const BUFFER_USAGE_SHADER_DEVICE_ADDRESS: bv32 := 0x0002_0000

  // VkImageAspectFlagBits
  const IMAGE_ASPECT_COLOR: bv32 := 0x0000_0001

  /** VkDescriptorType. The reflection library reports a binding's kind with the same codes. */
  datatype DescriptorType =
    | Sampler
    | CombinedImageSampler
    | SampledImage
    | StorageImage
    | UniformTexelBuffer
    | StorageTexelBuffer
    | UniformBuffer
    | StorageBuffer
    | UniformBufferDynamic
    | StorageBufferDynamic
    | InputAttachment
    | InlineUniformBlock
    | AccelerationStructureKhr
    | AccelerationStructureNv

  datatype Filter = FilterNearest | FilterLinear

  datatype SamplerMipmapMode = MipmapNearest | MipmapLinear

  datatype SamplerAddressMode = Repeat | MirroredRepeat | ClampToEdge | ClampToBorder

  /** The key under which the renderer's sampler registry caches an immutable sampler. */
  datatype SamplerDesc = SamplerDesc(
    texelFilter: Filter,
    mipmapMode: SamplerMipmapMode,
    addressModes: SamplerAddressMode)

  /**
   * VkDescriptorSetLayoutBinding. The immutable sampler the registry hands out for a
   * key is identified here by that key.
   */
  datatype LayoutBinding = LayoutBinding(
    binding: nat,
    descriptorType: DescriptorType,
    descriptorCount: nat,
    stageFlags: bv32,
    immutableSamplers: seq<SamplerDesc>)

  /**
   * VkDescriptorSetLayoutCreateInfo; `bindingFlags` is the chained
   * VkDescriptorSetLayoutBindingFlagsCreateInfo, `None` when nothing is chained.
   */
  datatype LayoutCreateInfo = LayoutCreateInfo(
    flags: bv32,
    bindings: seq<LayoutBinding>,
    bindingFlags: Option<seq<bv32>>)

  /** `VkDescriptorSetLayoutCreateInfo::default()`: no bindings, nothing chained. */
  const EMPTY_LAYOUT_INFO: LayoutCreateInfo := LayoutCreateInfo(NO_LAYOUT_CREATE_FLAGS, [], None)

  datatype PoolSize = PoolSize(ty: DescriptorType, descriptorCount: nat)

  datatype PoolCreateInfo = PoolCreateInfo(poolSizes: seq<PoolSize>, maxSets: nat)

  /** VkBufferCreateInfo; its other fields go to the device unchanged. */
  datatype BufferCreateInfo = BufferCreateInfo(size: nat, usage: bv32)

  datatype Format = Format(code: int)

  /** VkImageCreateInfo; its other fields go to the device unchanged. */
  datatype ImageCreateInfo = ImageCreateInfo(format: Format, usage: bv32)

  datatype ImageViewType = View1D | View2D | View3D | ViewCube | View1DArray | View2DArray | ViewCubeArray

  datatype ComponentSwizzle = SwizzleIdentity | SwizzleZero | SwizzleOne | SwizzleR | SwizzleG | SwizzleB | SwizzleA

  datatype ComponentMapping = ComponentMapping(r: ComponentSwizzle, g: ComponentSwizzle, b: ComponentSwizzle, a: ComponentSwizzle)

  datatype SubresourceRange = SubresourceRange(
    aspectMask: bv32,
    baseMipLevel: nat,
    levelCount: nat,
    baseArrayLayer: nat,
    layerCount: nat)

  datatype ImageViewCreateInfo = ImageViewCreateInfo(
    image: Handle,
    viewType: ImageViewType,
    format: Format,
    components: ComponentMapping,
    subresourceRange: SubresourceRange)

  /** gpu_allocator's MemoryLocation. */
  datatype MemoryLocation = Unknown | GpuOnly | CpuToGpu | GpuToCpu

  /**
   * AllocationCreateDesc: `requirementsOf` names the resource whose memory
   * requirements the device reported, and `linear` says whether the resource is laid
   * out linearly.
   */
  datatype AllocationDesc = AllocationDesc(
    name: string,
    requirementsOf: Handle,
    location: MemoryLocation,
    linear: bool)

  /** An allocation from the allocator; `mapped` says it exposes a host-mapped pointer. */
  datatype Allocation = Allocation(id: Handle, mapped: bool)

  /** One call into the device or the allocator. */
  datatype Call =
    | CreateBuffer(bufferInfo: BufferCreateInfo, buffer: Handle)
    | Allocate(desc: AllocationDesc, allocation: Allocation)
    | BindBufferMemory(buffer: Handle, memory: Handle)
    | GetBufferDeviceAddress(buffer: Handle, address: nat)
    | Free(memory: Handle)
    | DestroyBuffer(buffer: Handle)
    | CreateImage(imageInfo: ImageCreateInfo, image: Handle)
    | BindImageMemory(image: Handle, memory: Handle)
    | CreateImageView(viewInfo: ImageViewCreateInfo, view: Handle)
    | DestroyImageView(view: Handle)
    | DestroyImage(image: Handle)
    | CreateDescriptorSetLayout(layoutInfo: LayoutCreateInfo, layout: Handle)
    | CreateDescriptorPool(poolInfo: PoolCreateInfo, pool: Handle)
    | AllocateDescriptorSets(pool: Handle, setLayouts: seq<Handle>, sets: seq<Handle>)

  /**
   * The logical device together with the memory allocator. `next` is the next
   * handle to hand out; `calls` is the ghost record of every call made so far.
   */
  class Gpu {
    var next: Handle
    ghost var calls: seq<Call>

    constructor ()
      ensures next == 0 && calls == []
    {
      next := 0;
      calls := [];
    }

    method CreateBuffer(info: BufferCreateInfo) returns (buffer: Handle)
      modifies this
      ensures buffer == old(next) && next == old(next) + 1
      ensures calls == old(calls) + [Call.CreateBuffer(info, buffer)]
    {
      buffer, next := next, next + 1;
      calls := calls + [Call.CreateBuffer(info, buffer)];
    }

    /** Host-visible locations always come back mapped; for the others it is the allocator's choice. */
    method Allocate(desc: AllocationDesc) returns (a: Allocation)
      modifies this
      ensures a.id == old(next) && next == old(next) + 1
      ensures desc.location == CpuToGpu || desc.location == GpuToCpu ==> a.mapped
      ensures calls == old(calls) + [Call.Allocate(desc, a)]
    {
      a := Allocation(next, desc.location != GpuOnly);
      next := next + 1;
      calls := calls + [Call.Allocate(desc, a)];
    }

    method BindBufferMemory(buffer: Handle, memory: Handle)
      modifies this
      ensures next == old(next)
      ensures calls == old(calls) + [Call.BindBufferMemory(buffer, memory)]
    {
      calls := calls + [Call.BindBufferMemory(buffer, memory)];
    }

    method GetBufferDeviceAddress(buffer: Handle) returns (address: nat)
      modifies this
      ensures next == old(next)
      ensures calls == old(calls) + [Call.GetBufferDeviceAddress(buffer, address)]
    {
      address := buffer;
      calls := calls + [Call.GetBufferDeviceAddress(buffer, address)];
    }

    method Free(memory: Handle)
      modifies this
      ensures next == old(next)
      ensures calls == old(calls) + [Call.Free(memory)]
    {
      calls := calls + [Call.Free(memory)];
    }

    method DestroyBuffer(buffer: Handle)
      modifies this
      ensures next == old(next)
      ensures calls == old(calls) + [Call.DestroyBuffer(buffer)]
    {
      calls := calls + [Call.DestroyBuffer(buffer)];
    }

    method CreateImage(info: ImageCreateInfo) returns (image: Handle)
      modifies this
      ensures image == old(next) && next == old(next) + 1
      ensures calls == old(calls) + [Call.CreateImage(info, image)]
    {
      image, next := next, next + 1;
      calls := calls + [Call.CreateImage(info, image)];
    }

    method BindImageMemory(image: Handle, memory: Handle)
      modifies this
      ensures next == old(next)
      ensures calls == old(calls) + [Call.BindImageMemory(image, memory)]
    {
      calls := calls + [Call.BindImageMemory(image, memory)];
    }

    method CreateImageView(info: ImageViewCreateInfo) returns (view: Handle)
      modifies this
      ensures view == old(next) && next == old(next) + 1
      ensures calls == old(calls) + [Call.CreateImageView(info, view)]
    {
      view, next := next, next + 1;
      calls := calls + [Call.CreateImageView(info, view)];
    }

    method DestroyImageView(view: Handle)
      modifies this
      ensures next == old(next)
      ensures calls == old(calls) + [Call.DestroyImageView(view)]
    {
      calls := calls + [Call.DestroyImageView(view)];
    }

    method DestroyImage(image: Handle)
      modifies this
      ensures next == old(next)
      ensures calls == old(calls) + [Call.DestroyImage(image)]
    {
      calls := calls + [Call.DestroyImage(image)];
    }

    method CreateDescriptorSetLayout(info: LayoutCreateInfo) returns (layout: Handle)
      modifies this
      ensures layout == old(next) && next == old(next) + 1
      ensures calls == old(calls) + [Call.CreateDescriptorSetLayout(info, layout)]
    {
      layout, next := next, next + 1;
      calls := calls + [Call.CreateDescriptorSetLayout(info, layout)];
    }

    method CreateDescriptorPool(info: PoolCreateInfo) returns (pool: Handle)
      modifies this
      ensures pool == old(next) && next == old(next) + 1
      ensures calls == old(calls) + [Call.CreateDescriptorPool(info, pool)]
    {
      pool, next := next, next + 1;
      calls := calls + [Call.CreateDescriptorPool(info, pool)];
    }

    /** Allocates one set per layout, in the order of `layouts`. */
    method AllocateDescriptorSets(pool: Handle, layouts: seq<Handle>) returns (sets: seq<Handle>)
      modifies this
      ensures |sets| == |layouts|
      ensures forall i :: 0 <= i < |sets| ==> sets[i] == old(next) + i
      ensures next == old(next) + |layouts|
      ensures calls == old(calls) + [Call.AllocateDescriptorSets(pool, layouts, sets)]
    {
      var first := next;
      sets := seq(|layouts|, i => first + i);
      next := next + |layouts|;
      calls := calls + [Call.AllocateDescriptorSets(pool, layouts, sets)];
    }
  }
}
