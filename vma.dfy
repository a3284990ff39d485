// Vocabulary shared by both copies of the buffer wrapper: what the Vulkan
// Memory Allocator hands back and is asked to do, and the checks `write`
// makes before it copies anything.

module Vma {
  import opened Common

  /** A VmaAllocator, compared by identity only. */
  type Allocator = nat

  /** vk::BufferUsageFlagBits the core uses. */
  datatype BufferUsage = TransferSrc | TransferDst | UniformBuffer | VertexBuffer | IndexBuffer | StorageBuffer

  /**
   * What one successful vmaCreateBuffer produced: the VkBuffer, the
   * VmaAllocation, and the (unspecified) bytes the new allocation holds.
   */
  datatype Allocation = Allocation(buffer: nat, allocation: nat, contents: seq<byte>)

  /** The VMA calls a buffer's destructor issues. */
  datatype VmaCall =
    | UnmapMemory(allocator: Allocator, allocation: Handle)
    | DestroyBuffer(allocator: Allocator, buffer: Handle, allocation: Handle)

  /** vmaMapMemory returned VK_SUCCESS and wrote a non-null pointer. */
  predicate MapSucceeded(mapping: MapOutcome)
  {
    mapping.result == Success && mapping.ptr.Address?
  }

  /**
   * Outcome of `Buffer::write` of `length` bytes into a buffer of `sizeBytes`
   * bytes when vmaMapMemory answers `mapping`: the size is checked first, then
   * the mapping result, then the pointer.
   */
  function WriteStatus(sizeBytes: nat, length: nat, mapping: MapOutcome): (s: Status)
    ensures s == Done <==> length == sizeBytes && MapSucceeded(mapping)
    ensures length != sizeBytes ==> s == Fatal(SizeMismatch)
    ensures length == sizeBytes && mapping.result != Success ==> s == Fatal(MapFailed)
  {
    if length != sizeBytes then Fatal(SizeMismatch)
    else if mapping.result != Success then Fatal(MapFailed)
    else if mapping.ptr.NullPtr? then Fatal(MappedNull)
    else Done
  }
}
