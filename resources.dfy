/**
 * `Buffer` and `Image`: device resources that own one allocation from the memory
 * allocator. A resource holds its allocation from construction until `destroy`
 * takes it; a second `destroy` finds nothing to take and fails, so an allocation
 * is freed at most once. A buffer's host-mapped memory is the array `memory`.
 */
module Resources {
  import opened Wrappers
  import opened Errors
  import opened Vulkan

  /**
   * The usage flags a buffer is created with: the requested ones with
   * SHADER_DEVICE_ADDRESS added, so that every buffer can be asked for its device
   * address. No other bit is added or dropped.
   */
  function WithDeviceAddress(usage: bv32): (r: bv32)
    ensures r & BUFFER_USAGE_SHADER_DEVICE_ADDRESS == BUFFER_USAGE_SHADER_DEVICE_ADDRESS
    ensures r & !BUFFER_USAGE_SHADER_DEVICE_ADDRESS == usage & !BUFFER_USAGE_SHADER_DEVICE_ADDRESS
  {
    if usage & BUFFER_USAGE_SHADER_DEVICE_ADDRESS != BUFFER_USAGE_SHADER_DEVICE_ADDRESS
    then usage | BUFFER_USAGE_SHADER_DEVICE_ADDRESS
    else usage
  }

  /** Usage flags that already allow device-address queries are kept as they are. */
  lemma WithDeviceAddressIdempotent(usage: bv32)
    ensures WithDeviceAddress(WithDeviceAddress(usage)) == WithDeviceAddress(usage)
  {
  }

  /**
   * Whether `copy_from_slice` may write `len` bytes at `offset` into a buffer of
   * `size` bytes. The buffer must still hold its allocation, the range must lie in
   * the buffer, and the allocation must be host-mapped.
   */
  function WriteCheck(allocation: Option<Allocation>, size: nat, offset: nat, len: nat): (r: Outcome<Error>)
    ensures r.Pass? <==> allocation.Some? && offset + len <= size && allocation.value.mapped
    ensures allocation.None? ==> r == Fail(BufferNotAllocated)
    ensures allocation.Some? && offset + len > size ==> r == Fail(OffsetOutOfBounds)
    ensures allocation.Some? && offset + len <= size && !allocation.value.mapped ==> r == Fail(BufferNotMapped)
  {
    if allocation.None? then Fail(BufferNotAllocated)
    else if offset + len > size then Fail(OffsetOutOfBounds)
    else if !allocation.value.mapped then Fail(BufferNotMapped)
    else Pass
  }

  /** The check as the code performs it: the size comparison is commented out. */
  function WriteCheckAsWritten(allocation: Option<Allocation>, offset: nat, len: nat): (r: Outcome<Error>)
    ensures r.Pass? <==> allocation.Some? && allocation.value.mapped
  {
    if allocation.None? then Fail(BufferNotAllocated)
    else if !allocation.value.mapped then Fail(BufferNotMapped)
    else Pass
  }

  /** Writing 4 bytes at offset 2 of a 4-byte mapped buffer passes the code's check but runs 2 bytes past the end. */
  lemma AsWrittenCheckAdmitsOverrun()
    ensures var a := Some(Allocation(0, true));
      && WriteCheckAsWritten(a, 2, 4) == Pass
      && WriteCheck(a, 4, 2, 4) == Fail(OffsetOutOfBounds)
  {
  }

  /** The memory `mem` after `slice` is copied to position `offset`. */
  function Overwrite(mem: seq<bv8>, offset: nat, slice: seq<bv8>): (r: seq<bv8>)
    requires offset + |slice| <= |mem|
    ensures |r| == |mem|
    ensures forall i :: 0 <= i < |slice| ==> r[offset + i] == slice[i]
    ensures forall i :: 0 <= i < |mem| && !(offset <= i < offset + |slice|) ==> r[i] == mem[i]
  {
    mem[..offset] + slice + mem[offset + |slice|..]
  }

  /** Copying back the bytes already in place changes nothing. */
  lemma OverwriteSame(mem: seq<bv8>, offset: nat, len: nat)
    requires offset + len <= |mem|
    ensures Overwrite(mem, offset, mem[offset..offset + len]) == mem
  {
    var r := Overwrite(mem, offset, mem[offset..offset + len]);
    assert forall i :: 0 <= i < |mem| ==> r[i] == mem[i];
  }

  class Buffer {
    var buffer: Handle
    var allocation: Option<Allocation>
    var size: nat
    var deviceAddr: nat
    var hasBeenWrittenTo: bool
    /** The allocation's host-mapped memory: the buffer's `size` bytes. */
    var memory: array<bv8>

    ghost predicate Valid()
      reads this
    {
      memory.Length == size
    }

    /**
     * `Buffer::new`: creates the buffer with SHADER_DEVICE_ADDRESS added to its
     * usage, allocates linear memory for it at `location`, binds that memory and
     * queries the device address. The new buffer holds its allocation and has not
     * been written to.
     */
    constructor (gpu: Gpu, info: BufferCreateInfo, location: MemoryLocation)
      modifies gpu
      ensures Valid() && fresh(memory)
      ensures size == info.size && !hasBeenWrittenTo && allocation.Some?
      ensures location == CpuToGpu || location == GpuToCpu ==> allocation.value.mapped
      ensures buffer == old(gpu.next) && allocation.value.id == old(gpu.next) + 1 && gpu.next == old(gpu.next) + 2
      ensures gpu.calls == old(gpu.calls) + [
        Call.CreateBuffer(info.(usage := WithDeviceAddress(info.usage)), buffer),
        Call.Allocate(AllocationDesc("buffer", buffer, location, true), allocation.value),
        Call.BindBufferMemory(buffer, allocation.value.id),
        Call.GetBufferDeviceAddress(buffer, deviceAddr)]
    {
      var createInfo := info.(usage := WithDeviceAddress(info.usage));
      var b := gpu.CreateBuffer(createInfo);
      var a := gpu.Allocate(AllocationDesc("buffer", b, location, true));
      gpu.BindBufferMemory(b, a.id);
      var addr := gpu.GetBufferDeviceAddress(b);
      buffer := b;
      allocation := Some(a);
      size := info.size;
      deviceAddr := addr;
      hasBeenWrittenTo := false;
      memory := new bv8[info.size];
    }

    /**
     * `Buffer::destroy`: takes the allocation, frees it and destroys the buffer.
     * When the allocation was already taken it fails with DoubleFree and calls
     * nothing. Either way the buffer holds no allocation afterwards.
     */
    method Destroy(gpu: Gpu) returns (r: Outcome<Error>)
      modifies this`allocation, gpu
      ensures allocation.None?
      ensures r == if old(allocation).Some? then Pass else Fail(DoubleFree)
      ensures gpu.next == old(gpu.next)
      ensures gpu.calls == old(gpu.calls) +
        if old(allocation).Some? then [Call.Free(old(allocation).value.id), Call.DestroyBuffer(buffer)] else []
    {
      var taken := allocation;
      allocation := None;
      if taken.None? {
        return Fail(DoubleFree);
      }
      gpu.Free(taken.value.id);
      gpu.DestroyBuffer(buffer);
      r := Pass;
    }

    /**
     * `Buffer::copy_from_slice`: copies `slice` into mapped memory at `offset` and
     * marks the buffer written. It fails, writing nothing, when the buffer holds no
     * allocation, when the bytes would not fit in the buffer, or when the memory is
     * not host-mapped.
     */
    method CopyFromSlice(slice: seq<bv8>, offset: nat) returns (r: Outcome<Error>)
      requires Valid()
      modifies this`hasBeenWrittenTo, memory
      ensures Valid()
      ensures r == WriteCheck(allocation, size, offset, |slice|)
      ensures r.Pass? ==> memory[..] == Overwrite(old(memory[..]), offset, slice) && hasBeenWrittenTo
      ensures r.Fail? ==> memory[..] == old(memory[..]) && hasBeenWrittenTo == old(hasBeenWrittenTo)
    {
      r := WriteCheck(allocation, size, offset, |slice|);
      if r.Fail? {
        return;
      }
      var i := 0;
      while i < |slice|
        invariant i <= |slice|
        invariant forall k :: 0 <= k < i ==> memory[offset + k] == slice[k]
        invariant forall k :: 0 <= k < memory.Length && !(offset <= k < offset + i) ==> memory[k] == old(memory[k])
      {
        memory[offset + i] := slice[i];
        i := i + 1;
      }
      assert memory[..] == Overwrite(old(memory[..]), offset, slice);
      hasBeenWrittenTo := true;
    }
  }

  /** The view `Image::create_view` asks for: 2D, the image's format, identity swizzle, colour aspect, one mip level, one layer. */
  function ColorViewInfo(image: Handle, format: Format): (info: ImageViewCreateInfo)
    ensures info.image == image && info.format == format && info.viewType == View2D
    ensures info.subresourceRange.levelCount == 1 && info.subresourceRange.layerCount == 1
  {
    ImageViewCreateInfo(
      image, View2D, format,
      ComponentMapping(SwizzleR, SwizzleG, SwizzleB, SwizzleA),
      SubresourceRange(IMAGE_ASPECT_COLOR, 0, 1, 0, 1))
  }

  class Image {
    var image: Handle
    var allocation: Option<Allocation>
    var view: Option<Handle>
    var format: Format

    /**
     * `Image::new`: creates the image, allocates non-linear memory for it at
     * `location` and binds it. The new image holds its allocation, has no view,
     * and keeps the format it was created with.
     */
    constructor (gpu: Gpu, info: ImageCreateInfo, location: MemoryLocation)
      modifies gpu
      ensures allocation.Some? && view.None? && format == info.format
      ensures image == old(gpu.next) && allocation.value.id == old(gpu.next) + 1 && gpu.next == old(gpu.next) + 2
      ensures gpu.calls == old(gpu.calls) + [
        Call.CreateImage(info, image),
        Call.Allocate(AllocationDesc("image", image, location, false), allocation.value),
        Call.BindImageMemory(image, allocation.value.id)]
    {
      var img := gpu.CreateImage(info);
      var a := gpu.Allocate(AllocationDesc("image", img, location, false));
      gpu.BindImageMemory(img, a.id);
      image := img;
      allocation := Some(a);
      view := None;
      format := info.format;
    }

    /**
     * `Image::create_view`: creates a colour view of the image in its own format,
     * stores it as the image's view and returns it. A view stored earlier is
     * replaced without being destroyed.
     */
    method CreateView(gpu: Gpu) returns (v: Handle)
      modifies this`view, gpu
      ensures view == Some(v) && v == old(gpu.next) && gpu.next == old(gpu.next) + 1
      ensures gpu.calls == old(gpu.calls) + [Call.CreateImageView(ColorViewInfo(image, format), v)]
    {
      v := gpu.CreateImageView(ColorViewInfo(image, format));
      view := Some(v);
    }

    /**
     * `Image::destroy`: destroys the view, if there is one, then frees the
     * allocation and destroys the image, in that order. When the allocation was
     * already taken it fails with DoubleFree after releasing the view. Afterwards the
     * image holds neither a view nor an allocation.
     */
    method Destroy(gpu: Gpu) returns (r: Outcome<Error>)
      modifies this`view, this`allocation, gpu
      ensures view.None? && allocation.None?
      ensures r == if old(allocation).Some? then Pass else Fail(DoubleFree)
      ensures gpu.next == old(gpu.next)
      ensures gpu.calls == old(gpu.calls)
        + (if old(view).Some? then [Call.DestroyImageView(old(view).value)] else [])
        + (if old(allocation).Some? then [Call.Free(old(allocation).value.id), Call.DestroyImage(image)] else [])
    {
      var takenView := view;
      view := None;
      if takenView.Some? {
        gpu.DestroyImageView(takenView.value);
      }
      var taken := allocation;
      allocation := None;
      if taken.None? {
        return Fail(DoubleFree);
      }
      gpu.Free(taken.value.id);
      gpu.DestroyImage(image);
      r := Pass;
    }
  }

  /** How many times the calls free `memory`. */
  function FreeCount(calls: seq<Call>, memory: Handle): nat
  {
    if calls == [] then 0
    else (if calls[0] == Call.Free(memory) then 1 else 0) + FreeCount(calls[1..], memory)
  }

  lemma {:induction false} FreeCountAppend(calls: seq<Call>, more: seq<Call>, memory: Handle)
    ensures FreeCount(calls + more, memory) == FreeCount(calls, memory) + FreeCount(more, memory)
  {
    if calls == [] {
      assert calls + more == more;
    } else {
      assert (calls + more)[1..] == calls[1..] + more;
      FreeCountAppend(calls[1..], more, memory);
    }
  }

  /** Calls none of which frees `memory` free it zero times. */
  lemma {:induction false} FreeCountNone(calls: seq<Call>, memory: Handle)
    requires forall i :: 0 <= i < |calls| ==> calls[i] != Call.Free(memory)
    ensures FreeCount(calls, memory) == 0
  {
    if calls != [] {
      FreeCountNone(calls[1..], memory);
    }
  }

  /**
   * A buffer created and then destroyed twice: the second `destroy` fails with
   * DoubleFree, and its allocation is freed exactly once.
   */
  method BufferDestroyedTwice(gpu: Gpu, info: BufferCreateInfo, location: MemoryLocation)
    returns (first: Outcome<Error>, second: Outcome<Error>)
    modifies gpu
    ensures first == Pass && second == Fail(DoubleFree)
    ensures FreeCount(gpu.calls, old(gpu.next) + 1) == FreeCount(old(gpu.calls), old(gpu.next) + 1) + 1
  {
    ghost var before := gpu.calls;
    var b := new Buffer(gpu, info, location);
    ghost var id := b.allocation.value.id;
    ghost var created := gpu.calls[|before|..];
    FreeCountNone(created, id);
    first := b.Destroy(gpu);
    second := b.Destroy(gpu);
    ghost var freed := [Call.Free(id), Call.DestroyBuffer(b.buffer)];
    assert gpu.calls == before + (created + freed);
    FreeCountNone(freed[1..], id);
    FreeCountAppend(before, created + freed, id);
    FreeCountAppend(created, freed, id);
  }

  /**
   * An image given a view and then destroyed: the view is destroyed first, then the
   * memory is freed, then the image is destroyed.
   */
  method ImageViewReleasedFirst(gpu: Gpu, info: ImageCreateInfo, location: MemoryLocation) returns (r: Outcome<Error>)
    modifies gpu
    ensures r == Pass
    ensures var n := |gpu.calls|;
      && n >= 3
      && gpu.calls[n - 3] == Call.DestroyImageView(old(gpu.next) + 2)
      && gpu.calls[n - 2] == Call.Free(old(gpu.next) + 1)
      && gpu.calls[n - 1] == Call.DestroyImage(old(gpu.next))
  {
    var img := new Image(gpu, info, location);
    var v := img.CreateView(gpu);
    ghost var before := gpu.calls;
    ghost var id := img.allocation.value.id;
    r := img.Destroy(gpu);
    assert gpu.calls == before + [Call.DestroyImageView(v), Call.Free(id), Call.DestroyImage(img.image)];
  }

  /**
   * Handles are never reused: an image, two views created from it one after the
   * other, and a buffer created afterwards all get handles distinct from each other
   * and from the allocations.
   */
  method HandlesNeverRepeat(gpu: Gpu, imageInfo: ImageCreateInfo, bufferInfo: BufferCreateInfo, location: MemoryLocation)
    returns (handles: seq<Handle>)
    modifies gpu
    ensures |handles| == 6
    ensures forall i, j :: 0 <= i < j < |handles| ==> handles[i] != handles[j]
  {
    var img := new Image(gpu, imageInfo, location);
    var v1 := img.CreateView(gpu);
    var v2 := img.CreateView(gpu);
    var b := new Buffer(gpu, bufferInfo, location);
    handles := [img.image, img.allocation.value.id, v1, v2, b.buffer, b.allocation.value.id];
  }

  /**
   * A buffer created in host-visible memory is mapped, so a slice that fits is
   * written into it at the offset.
   */
  method WriteToNewBuffer(gpu: Gpu, info: BufferCreateInfo, slice: seq<bv8>, offset: nat) returns (r: Outcome<Error>, bytes: seq<bv8>)
    requires offset + |slice| <= info.size
    modifies gpu
    ensures r == Pass
    ensures |bytes| == info.size && bytes[offset..offset + |slice|] == slice
  {
    var b := new Buffer(gpu, info, CpuToGpu);
    r := b.CopyFromSlice(slice, offset);
    bytes := b.memory[..];
  }
}
