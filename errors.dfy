/**
 * The error taxonomy of the resource and descriptor-layout subsystem. In the Rust
 * code every one of these is a panic (`panic!`, `unimplemented!`, `unwrap` on
 * `None`, an out-of-range string slice); the model returns them as values.
 */
module Errors {
  import opened Vulkan

  datatype Error =
    /** A reflected descriptor kind the layout builder does not support. */
    | UnsupportedDescriptorType(binding: nat, kind: DescriptorType)
    /** A sampler binding whose name does not follow `sampler_<filter><mipmap><address>`. */
    | MalformedSamplerSpec(name: string)
    /** `destroy` on a resource whose allocation was already taken. */
    | DoubleFree
    /** A write to a buffer that no longer holds an allocation. */
    | BufferNotAllocated
    /** A write to a buffer whose allocation has no host-mapped pointer. */
    | BufferNotMapped
    /** A write whose byte range does not lie inside the buffer. */
    | OffsetOutOfBounds
}
