// src/render/vulkan/buffer.cpp: a VMA-backed byte buffer with a lazily
// mapped, cached host pointer, and a StagedBuffer that either writes through
// a host-visible staging buffer and copies it on the GPU, or writes the
// device-local buffer directly.
//
// `memory` is the content of the allocation. A recorded copy's effect on the
// destination is applied when the copy is recorded.

module VulkanBuffers {
  import opened Common
  import opened Commands
  import opened Vma
  import DeviceSelection

  class Buffer {
    var allocator: Allocator
    var buffer: Handle
    var allocation: Handle
    var usage: set<BufferUsage>
    var sizeBytes: nat
    var mappedPtr: Ptr
    /** The bytes of the allocation. */
    var memory: seq<byte>

    ghost predicate Valid()
      reads this
    {
      |memory| == sizeBytes
    }

    /** vmaCreateBuffer succeeded and produced `created`; nothing is mapped yet. */
    constructor (allocator: Allocator, sizeBytes: nat, usage: set<BufferUsage>, created: Allocation)
      requires |created.contents| == sizeBytes
      ensures Valid()
      ensures this.allocator == allocator && this.sizeBytes == sizeBytes && this.usage == usage
      ensures buffer == Live(created.buffer) && allocation == Live(created.allocation)
      ensures mappedPtr == NullPtr && memory == created.contents
    {
      this.allocator := allocator;
      this.sizeBytes := sizeBytes;
      this.usage := usage;
      buffer := Live(created.buffer);
      allocation := Live(created.allocation);
      mappedPtr := NullPtr;
      memory := created.contents;
    }

    /** Move constructor: takes every field of `other` and leaves it empty. */
    constructor MoveFrom(other: Buffer)
      requires other.Valid()
      modifies other
      ensures Valid() && other.Valid()
      ensures allocator == old(other.allocator) && buffer == old(other.buffer)
      ensures allocation == old(other.allocation) && usage == old(other.usage)
      ensures sizeBytes == old(other.sizeBytes) && mappedPtr == old(other.mappedPtr)
      ensures memory == old(other.memory)
      ensures other.buffer == Null && other.allocation == Null
      ensures other.sizeBytes == 0 && other.mappedPtr == NullPtr && other.memory == []
      ensures other.allocator == old(other.allocator) && other.usage == old(other.usage)
    {
      allocator := other.allocator;
      buffer := other.buffer;
      allocation := other.allocation;
      usage := other.usage;
      sizeBytes := other.sizeBytes;
      mappedPtr := other.mappedPtr;
      memory := other.memory;
      new;
      other.buffer := Null;
      other.allocation := Null;
      other.sizeBytes := 0;
      other.mappedPtr := NullPtr;
      other.memory := [];
    }

    /**
     * The destructor's VMA calls: an unmap only when a mapping is cached,
     * then always the destruction of the buffer and its allocation.
     */
    method Destroy() returns (calls: seq<VmaCall>)
      ensures |calls| == (if mappedPtr.Address? then 2 else 1)
      ensures calls[|calls| - 1] == DestroyBuffer(allocator, buffer, allocation)
      ensures UnmapMemory(allocator, allocation) in calls <==> mappedPtr.Address?
    {
      calls := [];
      if mappedPtr.Address? {
        calls := calls + [UnmapMemory(allocator, allocation)];
      }
      calls := calls + [DestroyBuffer(allocator, buffer, allocation)];
    }

    /**
     * Move assignment: fatal unless both buffers share the allocator. This
     * buffer's previous buffer and allocation are overwritten without being
     * destroyed; `other` is left empty (a self-move therefore empties this).
     */
    method MoveAssign(other: Buffer) returns (status: Status)
      requires Valid() && other.Valid()
      modifies this, other
      ensures Valid() && other.Valid()
      ensures status == Done <==> old(allocator) == old(other.allocator)
      ensures status.Fatal? ==> status.reason == AllocatorMismatch && unchanged(this) && unchanged(other)
      ensures status == Done && this != other ==>
        buffer == old(other.buffer) && allocation == old(other.allocation) &&
        usage == old(other.usage) && sizeBytes == old(other.sizeBytes) &&
        mappedPtr == old(other.mappedPtr) && memory == old(other.memory)
      ensures status == Done ==>
        other.buffer == Null && other.allocation == Null && other.sizeBytes == 0 &&
        other.mappedPtr == NullPtr && other.memory == []
      ensures allocator == old(allocator) && other.allocator == old(other.allocator)
      ensures status == Done && this != other ==> other.usage == old(other.usage)
    {
      if allocator != other.allocator {
        return Fatal(AllocatorMismatch);
      }
      buffer := other.buffer;
      allocation := other.allocation;
      usage := other.usage;
      sizeBytes := other.sizeBytes;
      mappedPtr := other.mappedPtr;
      memory := other.memory;

      other.buffer := Null;
      other.allocation := Null;
      other.sizeBytes := 0;
      other.mappedPtr := NullPtr;
      other.memory := [];
      status := Done;
    }

    /**
     * `get_mapped_ptr`: maps on first use and caches the pointer; later calls
     * return the cached pointer without calling vmaMapMemory (`mapping` is what
     * vmaMapMemory would answer).
     */
    method GetMappedPtr(mapping: MapOutcome) returns (status: Status, p: Ptr)
      modifies this`mappedPtr
      ensures old(mappedPtr).Address? ==> status == Done && p == old(mappedPtr) && mappedPtr == old(mappedPtr)
      ensures old(mappedPtr).NullPtr? ==>
        (status == Done <==> MapSucceeded(mapping)) &&
        (mapping.result != Success ==> status == Fatal(MapFailed)) &&
        (mapping.result == Success && mapping.ptr.NullPtr? ==> status == Fatal(MappedNull)) &&
        (status == Done ==> p == mapping.ptr && mappedPtr == mapping.ptr)
      ensures status != Done ==> mappedPtr == old(mappedPtr)
    {
      if mappedPtr.NullPtr? {
        if mapping.result != Success {
          return Fatal(MapFailed), NullPtr;
        }
        mappedPtr := mapping.ptr;
        if mappedPtr.NullPtr? {
          return Fatal(MappedNull), NullPtr;
        }
      }
      status, p := Done, mappedPtr;
    }

    /**
     * `write`: after the size check, maps, copies every byte of `data` over
     * the allocation, and unmaps.
     */
    method Write(data: seq<byte>, mapping: MapOutcome) returns (status: Status)
      requires Valid()
      modifies this`memory
      ensures Valid()
      ensures status == WriteStatus(sizeBytes, |data|, mapping)
      ensures memory == if status == Done then data else old(memory)
    {
      if |data| != sizeBytes {
        return Fatal(SizeMismatch);
      }
      if mapping.result != Success {
        return Fatal(MapFailed);
      }
      if mapping.ptr.NullPtr? {
        return Fatal(MappedNull);
      }
      memory := data;
      status := Done;
    }

    /**
     * `copyFrom`: fatal unless the sizes are equal and then unless the
     * allocators are the same; records a copy of the whole of `other` into
     * this buffer at offset 0.
     */
    method CopyFrom(other: Buffer, commandBuffer: CommandBuffer) returns (status: Status)
      requires Valid() && other.Valid()
      modifies this`memory, commandBuffer`recorded
      ensures Valid()
      ensures status == Done <==> sizeBytes == other.sizeBytes && allocator == other.allocator
      ensures sizeBytes != other.sizeBytes ==> status == Fatal(SizeMismatch)
      ensures sizeBytes == other.sizeBytes && allocator != other.allocator ==> status == Fatal(AllocatorMismatch)
      ensures status.Fatal? ==> memory == old(memory) && commandBuffer.recorded == old(commandBuffer.recorded)
      ensures status == Done ==>
        memory == old(other.memory) &&
        commandBuffer.recorded == old(commandBuffer.recorded) + [CopyBuffer(other.buffer, buffer, 0, 0, sizeBytes)]
    {
      if sizeBytes != other.sizeBytes {
        return Fatal(SizeMismatch);
      }
      if allocator != other.allocator {
        return Fatal(AllocatorMismatch);
      }
      commandBuffer.recorded := commandBuffer.recorded + [CopyBuffer(other.buffer, buffer, 0, 0, sizeBytes)];
      memory := other.memory;
      status := Done;
    }
  }

  /**
   * The allocating constructor with its check that vmaCreateBuffer returned
   * VK_SUCCESS: `result` is that return value, and `created` what it
   * produced when it succeeded. Any other result aborts.
   */
  method CreateBuffer(allocator: Allocator, sizeBytes: nat, usage: set<BufferUsage>,
                      result: VkResult, created: Allocation)
    returns (r: Result<Buffer>)
    requires result == Success ==> |created.contents| == sizeBytes
    ensures r.Ok? <==> result == Success
    ensures r.Err? ==> r.reason == AllocationFailed
    ensures r.Ok? ==> fresh(r.value) && r.value.Valid()
    ensures r.Ok? ==>
      r.value.allocator == allocator && r.value.sizeBytes == sizeBytes && r.value.usage == usage &&
      r.value.buffer == Live(created.buffer) && r.value.allocation == Live(created.allocation) &&
      r.value.memory == created.contents && r.value.mappedPtr == NullPtr
  {
    if result != Success {
      return Err(AllocationFailed);
    }
    var b := new Buffer(allocator, sizeBytes, usage, created);
    r := Ok(b);
  }

  class StagedBuffer {
    const stagingBuffer: Option<Buffer>
    const gpuLocalBuffer: Buffer
    const sizeBytes: nat

    ghost function Repr(): set<object>
    {
      {gpuLocalBuffer} + if stagingBuffer.Some? then {stagingBuffer.value} else {}
    }

    /** The buffer `write` goes to. */
    function Target(): Buffer
    {
      if stagingBuffer.Some? then stagingBuffer.value else gpuLocalBuffer
    }

    /** Both buffers have the staged size and allocator, so `stage`'s copy can never abort. */
    ghost predicate Valid()
      reads Repr()
    {
      gpuLocalBuffer.Valid() && gpuLocalBuffer.sizeBytes == sizeBytes &&
      (stagingBuffer.Some? ==>
        stagingBuffer.value != gpuLocalBuffer && stagingBuffer.value.Valid() &&
        stagingBuffer.value.sizeBytes == sizeBytes &&
        stagingBuffer.value.allocator == gpuLocalBuffer.allocator)
    }

    /**
     * A host-visible TransferSrc staging buffer exists exactly when the
     * device asks buffers to stage; the device-local buffer always exists,
     * with TransferDst added to the requested usage.
     */
    constructor (device: DeviceSelection.Device, allocator: Allocator, sizeBytes: nat, usage: set<BufferUsage>,
                 stagingCreated: Allocation, localCreated: Allocation)
      requires |stagingCreated.contents| == sizeBytes && |localCreated.contents| == sizeBytes
      ensures Valid() && fresh(Repr())
      ensures this.sizeBytes == sizeBytes
      ensures stagingBuffer.Some? <==> device.ShouldBuffersStage()
      ensures stagingBuffer.Some? ==>
        stagingBuffer.value.usage == {TransferSrc} && stagingBuffer.value.allocator == allocator &&
        stagingBuffer.value.mappedPtr == NullPtr
      ensures gpuLocalBuffer.usage == {TransferDst} + usage && gpuLocalBuffer.allocator == allocator
      ensures gpuLocalBuffer.mappedPtr == NullPtr
    {
      if device.ShouldBuffersStage() {
        var staging := new Buffer(allocator, sizeBytes, {TransferSrc}, stagingCreated);
        stagingBuffer := Some(staging);
      } else {
        stagingBuffer := None;
      }
      gpuLocalBuffer := new Buffer(allocator, sizeBytes, {TransferDst} + usage, localCreated);
      this.sizeBytes := sizeBytes;
    }

    /** `write`: writes the staging buffer when there is one, otherwise the device-local buffer. */
    method Write(data: seq<byte>, mapping: MapOutcome) returns (status: Status)
      requires Valid()
      modifies Target()`memory
      ensures Valid()
      ensures status == WriteStatus(sizeBytes, |data|, mapping)
      ensures Target().memory == if status == Done then data else old(Target().memory)
    {
      if stagingBuffer.Some? {
        status := stagingBuffer.value.Write(data, mapping);
      } else {
        status := gpuLocalBuffer.Write(data, mapping);
      }
    }

    /** `stage`: copies staging into device-local when staging exists, otherwise does nothing. */
    method Stage(commandBuffer: CommandBuffer)
      requires Valid()
      modifies gpuLocalBuffer`memory, commandBuffer`recorded
      ensures Valid()
      ensures stagingBuffer.None? ==>
        gpuLocalBuffer.memory == old(gpuLocalBuffer.memory) &&
        commandBuffer.recorded == old(commandBuffer.recorded)
      ensures stagingBuffer.Some? ==>
        gpuLocalBuffer.memory == stagingBuffer.value.memory &&
        commandBuffer.recorded == old(commandBuffer.recorded) +
          [CopyBuffer(stagingBuffer.value.buffer, gpuLocalBuffer.buffer, 0, 0, sizeBytes)]
    {
      if stagingBuffer.Some? {
        var status := gpuLocalBuffer.CopyFrom(stagingBuffer.value, commandBuffer);
        assert status == Done;
      }
    }
  }

  /**
   * Write followed by stage, on a freshly created StagedBuffer: whatever the
   * device's staging flag, the device-local buffer ends up holding exactly
   * the written bytes, and the write fails in the same way on both paths.
   * `write` maps through its own local pointer and unmaps it, so it never
   * leaves a mapping cached in the buffer it wrote.
   */
  method WriteThenStage(device: DeviceSelection.Device, allocator: Allocator, sizeBytes: nat, usage: set<BufferUsage>,
                        stagingCreated: Allocation, localCreated: Allocation, data: seq<byte>, mapping: MapOutcome)
    returns (status: Status, deviceLocal: seq<byte>, cached: Ptr)
    requires |stagingCreated.contents| == sizeBytes && |localCreated.contents| == sizeBytes
    ensures status == WriteStatus(sizeBytes, |data|, mapping)
    ensures status == Done ==> deviceLocal == data
    ensures cached == NullPtr
  {
    var staged := new StagedBuffer(device, allocator, sizeBytes, usage, stagingCreated, localCreated);
    var commandBuffer := new CommandBuffer();
    status := staged.Write(data, mapping);
    if status == Done {
      staged.Stage(commandBuffer);
    }
    deviceLocal := staged.gpuLocalBuffer.memory;
    cached := staged.Target().mappedPtr;
  }

  /**
   * The two upload paths agree: a device that stages and one that writes
   * directly leave identical device-local contents after write-then-stage.
   */
  method StagingEquivalence(stagingDevice: DeviceSelection.Device, directDevice: DeviceSelection.Device,
                            allocator: Allocator, sizeBytes: nat, usage: set<BufferUsage>,
                            stagingCreated: Allocation, localCreated: Allocation, data: seq<byte>, mapping: MapOutcome)
    returns (viaStaging: seq<byte>, direct: seq<byte>)
    requires stagingDevice.ShouldBuffersStage() && !directDevice.ShouldBuffersStage()
    requires |stagingCreated.contents| == sizeBytes && |localCreated.contents| == sizeBytes
    requires |data| == sizeBytes && MapSucceeded(mapping)
    ensures viaStaging == direct == data
  {
    var s1, s2, p1, p2;
    s1, viaStaging, p1 := WriteThenStage(stagingDevice, allocator, sizeBytes, usage, stagingCreated, localCreated, data, mapping);
    s2, direct, p2 := WriteThenStage(directDevice, allocator, sizeBytes, usage, stagingCreated, localCreated, data, mapping);
  }

  /**
   * Mapping is cached: once a first `get_mapped_ptr` succeeds, a second call
   * returns the same pointer whatever vmaMapMemory would answer now.
   */
  method MappingIsCached(allocator: Allocator, sizeBytes: nat, created: Allocation, first: MapOutcome, second: MapOutcome)
    returns (p1: Ptr, p2: Ptr, s2: Status)
    requires |created.contents| == sizeBytes && MapSucceeded(first)
    ensures p1 == first.ptr && p2 == p1 && s2 == Done
  {
    var b := new Buffer(allocator, sizeBytes, {}, created);
    var s1;
    s1, p1 := b.GetMappedPtr(first);
    s2, p2 := b.GetMappedPtr(second);
  }

  /**
   * A moved-from buffer's destructor releases nothing (it destroys null
   * handles and does not unmap); the buffer it moved into unmaps and destroys
   * the original allocation exactly once.
   */
  method MoveThenDestroy(allocator: Allocator, sizeBytes: nat, created: Allocation, mapping: MapOutcome)
    returns (movedFromCalls: seq<VmaCall>, movedToCalls: seq<VmaCall>)
    requires |created.contents| == sizeBytes && MapSucceeded(mapping)
    ensures movedFromCalls == [DestroyBuffer(allocator, Null, Null)]
    ensures movedToCalls == [UnmapMemory(allocator, Live(created.allocation)),
                             DestroyBuffer(allocator, Live(created.buffer), Live(created.allocation))]
  {
    var b := new Buffer(allocator, sizeBytes, {}, created);
    var s, p := b.GetMappedPtr(mapping);
    var c := new Buffer.MoveFrom(b);
    movedFromCalls := b.Destroy();
    movedToCalls := c.Destroy();
  }

  /**
   * Move assignment drops the target's previous allocation: after `a = std::move(b)`
   * neither destructor destroys `a`'s original buffer.
   */
  method MoveAssignDropsTarget(allocator: Allocator, sizeBytes: nat, createdA: Allocation, createdB: Allocation)
    returns (callsA: seq<VmaCall>, callsB: seq<VmaCall>)
    requires |createdA.contents| == sizeBytes && |createdB.contents| == sizeBytes
    requires createdA.buffer != createdB.buffer
    ensures forall call <- callsA + callsB :: !(call.DestroyBuffer? && call.buffer == Live(createdA.buffer))
    ensures DestroyBuffer(allocator, Live(createdB.buffer), Live(createdB.allocation)) in callsA
  {
    var a := new Buffer(allocator, sizeBytes, {}, createdA);
    var b := new Buffer(allocator, sizeBytes, {}, createdB);
    var status := a.MoveAssign(b);
    callsA := a.Destroy();
    callsB := b.Destroy();
  }
}
