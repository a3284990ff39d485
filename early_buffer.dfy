// src/render/buffer.cpp: the earlier copy of the buffer wrapper. It has no
// cached mapping: `write` maps, copies and unmaps, and the destructor always
// destroys the buffer and its allocation together.
//
// Its `write` tests the result of vmaMapMemory as a truth value, so it aborts
// exactly when the map succeeds. `WriteAsWritten` keeps that behaviour;
// `Write`, which the StagedBuffer uses, compares against VK_SUCCESS as the
// later copy does.

module EarlyBuffers {
  import opened Common
  import opened Commands
  import opened Vma
  import DeviceSelection

  /**
   * `write` as written: `seb::assertFatal(vmaMapMemory(...))` passes only
   * when the returned VkResult is non-zero, that is, when the map failed.
   */
  function WriteStatusAsWritten(sizeBytes: nat, length: nat, mapping: MapOutcome): (s: Status)
    ensures length != sizeBytes ==> s == Fatal(SizeMismatch)
    ensures s == Done <==> length == sizeBytes && Code(mapping.result) != 0 && mapping.ptr.Address?
  {
    if length != sizeBytes then Fatal(SizeMismatch)
    else if Code(mapping.result) == 0 then Fatal(MapFailed)
    else if mapping.ptr.NullPtr? then Fatal(MappedNull)
    else Done
  }

  /** The map result passes `write`'s check as written: a non-zero VkResult that wrote a pointer. */
  predicate MapPassesAsWritten(mapping: MapOutcome)
  {
    Code(mapping.result) != 0 && mapping.ptr.Address?
  }

  /** A write of the right size whose map succeeds aborts as written, and completes once corrected. */
  lemma SuccessfulMapAbortsAsWritten(sizeBytes: nat, mapping: MapOutcome)
    requires MapSucceeded(mapping)
    ensures WriteStatusAsWritten(sizeBytes, sizeBytes, mapping) == Fatal(MapFailed)
    ensures WriteStatus(sizeBytes, sizeBytes, mapping) == Done
  {
  }

  /**
   * The pointer starts as nullptr and vmaMapMemory sets it only on success, so
   * as written no write can ever complete.
   */
  lemma WriteAsWrittenNeverCompletes(sizeBytes: nat, length: nat, mapping: MapOutcome)
    requires mapping.result != Success ==> mapping.ptr.NullPtr?
    ensures WriteStatusAsWritten(sizeBytes, length, mapping) != Done
  {
  }

  class Buffer {
    var allocator: Allocator
    var buffer: Handle
    var allocation: Handle
    var usage: set<BufferUsage>
    var sizeBytes: nat
    /** The bytes of the allocation. */
    var memory: seq<byte>

    ghost predicate Valid()
      reads this
    {
      |memory| == sizeBytes
    }

    /** vmaCreateBuffer succeeded and produced `created`. */
    constructor (allocator: Allocator, sizeBytes: nat, usage: set<BufferUsage>, created: Allocation)
      requires |created.contents| == sizeBytes
      ensures Valid()
      ensures this.allocator == allocator && this.sizeBytes == sizeBytes && this.usage == usage
      ensures buffer == Live(created.buffer) && allocation == Live(created.allocation)
      ensures memory == created.contents
    {
      this.allocator := allocator;
      this.sizeBytes := sizeBytes;
      this.usage := usage;
      buffer := Live(created.buffer);
      allocation := Live(created.allocation);
      memory := created.contents;
    }

    /** Move constructor: takes the fields of `other`, nulls its handles and zeroes its size. */
    constructor MoveFrom(other: Buffer)
      requires other.Valid()
      modifies other
      ensures Valid() && other.Valid()
      ensures allocator == old(other.allocator) && buffer == old(other.buffer)
      ensures allocation == old(other.allocation) && usage == old(other.usage)
      ensures sizeBytes == old(other.sizeBytes) && memory == old(other.memory)
      ensures other.buffer == Null && other.allocation == Null
      ensures other.sizeBytes == 0 && other.memory == []
      ensures other.allocator == old(other.allocator) && other.usage == old(other.usage)
    {
      allocator := other.allocator;
      buffer := other.buffer;
      allocation := other.allocation;
      usage := other.usage;
      sizeBytes := other.sizeBytes;
      memory := other.memory;
      new;
      other.buffer := Null;
      other.allocation := Null;
      other.sizeBytes := 0;
      other.memory := [];
    }

    /** The destructor destroys the buffer and its allocation in one call, whatever their state. */
    method Destroy() returns (calls: seq<VmaCall>)
      ensures |calls| == 1 && calls[0].DestroyBuffer?
      ensures calls[0].buffer == buffer && calls[0].allocation == allocation && calls[0].allocator == allocator
    {
      calls := [DestroyBuffer(allocator, buffer, allocation)];
    }

    /** Move assignment: fatal unless the allocators match; takes `other`'s fields and empties it. */
    method MoveAssign(other: Buffer) returns (status: Status)
      requires Valid() && other.Valid()
      modifies this, other
      ensures Valid() && other.Valid()
      ensures status == Done <==> old(allocator) == old(other.allocator)
      ensures status.Fatal? ==> status.reason == AllocatorMismatch && unchanged(this) && unchanged(other)
      ensures status == Done && this != other ==>
        buffer == old(other.buffer) && allocation == old(other.allocation) &&
        usage == old(other.usage) && sizeBytes == old(other.sizeBytes) && memory == old(other.memory)
      ensures status == Done ==>
        other.buffer == Null && other.allocation == Null && other.sizeBytes == 0 && other.memory == []
      ensures allocator == old(allocator) && other.allocator == old(other.allocator)
      ensures status == Done && this != other ==> other.usage == old(other.usage)
    {
      if allocator != other.allocator {
        return Fatal(AllocatorMismatch);
      }
      buffer := other.buffer;
      allocation := other.allocation;
      usage := other.usage;
      sizeBytes := other.sizeBytes;
      memory := other.memory;

      other.buffer := Null;
      other.allocation := Null;
      other.sizeBytes := 0;
      other.memory := [];
      status := Done;
    }

    /** `write` exactly as the source tests the map result. */
    method WriteAsWritten(data: seq<byte>, mapping: MapOutcome) returns (status: Status)
      requires Valid()
      modifies this`memory
      ensures Valid()
      ensures status == WriteStatusAsWritten(sizeBytes, |data|, mapping)
      ensures memory == if status == Done then data else old(memory)
    {
      if |data| != sizeBytes {
        return Fatal(SizeMismatch);
      }
      if Code(mapping.result) == 0 {
        return Fatal(MapFailed);
      }
      if mapping.ptr.NullPtr? {
        return Fatal(MappedNull);
      }
      memory := data;
      status := Done;
    }

    /** `write` with the map result compared against VK_SUCCESS: size check, map, copy every byte, unmap. */
    method Write(data: seq<byte>, mapping: MapOutcome) returns (status: Status)
      requires Valid()
      modifies this`memory
      ensures Valid()
      ensures status == WriteStatus(sizeBytes, |data|, mapping)
      ensures memory == if status == Done then data else old(memory)
    {
      if |data| != sizeBytes {
        return Fatal(SizeMismatch);
      }
      if mapping.result != Success {
        return Fatal(MapFailed);
      }
      if mapping.ptr.NullPtr? {
        return Fatal(MappedNull);
      }
      memory := data;
      status := Done;
    }

    /** `copyFrom`: equal sizes, then the same allocator, else fatal; records a full copy at offset 0. */
    method CopyFrom(other: Buffer, commandBuffer: CommandBuffer) returns (status: Status)
      requires Valid() && other.Valid()
      modifies this`memory, commandBuffer`recorded
      ensures Valid()
      ensures status == Done <==> sizeBytes == other.sizeBytes && allocator == other.allocator
      ensures sizeBytes != other.sizeBytes ==> status == Fatal(SizeMismatch)
      ensures sizeBytes == other.sizeBytes && allocator != other.allocator ==> status == Fatal(AllocatorMismatch)
      ensures status.Fatal? ==> memory == old(memory) && commandBuffer.recorded == old(commandBuffer.recorded)
      ensures status == Done ==>
        memory == old(other.memory) &&
        commandBuffer.recorded == old(commandBuffer.recorded) + [CopyBuffer(other.buffer, buffer, 0, 0, sizeBytes)]
    {
      if sizeBytes != other.sizeBytes {
        return Fatal(SizeMismatch);
      }
      if allocator != other.allocator {
        return Fatal(AllocatorMismatch);
      }
      commandBuffer.recorded := commandBuffer.recorded + [CopyBuffer(other.buffer, buffer, 0, 0, sizeBytes)];
      memory := other.memory;
      status := Done;
    }
  }

  /**
   * The allocating constructor with its check that vmaCreateBuffer returned
   * VK_SUCCESS: `result` is that return value, and `created` what it
   * produced when it succeeded. Any other result aborts.
   */
  method CreateBuffer(allocator: Allocator, sizeBytes: nat, usage: set<BufferUsage>,
                      result: VkResult, created: Allocation)
    returns (r: Result<Buffer>)
    requires result == Success ==> |created.contents| == sizeBytes
    ensures r.Ok? <==> result == Success
    ensures r.Err? ==> r.reason == AllocationFailed
    ensures r.Ok? ==> fresh(r.value) && r.value.Valid()
    ensures r.Ok? ==>
      r.value.allocator == allocator && r.value.sizeBytes == sizeBytes && r.value.usage == usage &&
      r.value.buffer == Live(created.buffer) && r.value.allocation == Live(created.allocation) &&
      r.value.memory == created.contents
  {
    if result != Success {
      return Err(AllocationFailed);
    }
    var b := new Buffer(allocator, sizeBytes, usage, created);
    r := Ok(b);
  }

  class StagedBuffer {
    const stagingBuffer: Option<Buffer>
    const gpuLocalBuffer: Buffer
    const sizeBytes: nat

    ghost function Repr(): set<object>
    {
      {gpuLocalBuffer} + if stagingBuffer.Some? then {stagingBuffer.value} else {}
    }

    /** The buffer `write` goes to. */
    function Target(): Buffer
    {
      if stagingBuffer.Some? then stagingBuffer.value else gpuLocalBuffer
    }

    ghost predicate Valid()
      reads Repr()
    {
      gpuLocalBuffer.Valid() && gpuLocalBuffer.sizeBytes == sizeBytes &&
      (stagingBuffer.Some? ==>
        stagingBuffer.value != gpuLocalBuffer && stagingBuffer.value.Valid() &&
        stagingBuffer.value.sizeBytes == sizeBytes &&
        stagingBuffer.value.allocator == gpuLocalBuffer.allocator)
    }

    /** A TransferSrc staging buffer exists exactly when the device stages; the device-local one always. */
    constructor (device: DeviceSelection.Device, allocator: Allocator, sizeBytes: nat, usage: set<BufferUsage>,
                 stagingCreated: Allocation, localCreated: Allocation)
      requires |stagingCreated.contents| == sizeBytes && |localCreated.contents| == sizeBytes
      ensures Valid() && fresh(Repr())
      ensures this.sizeBytes == sizeBytes
      ensures stagingBuffer.Some? <==> device.ShouldBuffersStage()
      ensures stagingBuffer.Some? ==> stagingBuffer.value.usage == {TransferSrc} && stagingBuffer.value.allocator == allocator
      ensures gpuLocalBuffer.usage == {TransferDst} + usage && gpuLocalBuffer.allocator == allocator
    {
      if device.ShouldBuffersStage() {
        var staging := new Buffer(allocator, sizeBytes, {TransferSrc}, stagingCreated);
        stagingBuffer := Some(staging);
      } else {
        stagingBuffer := None;
      }
      gpuLocalBuffer := new Buffer(allocator, sizeBytes, {TransferDst} + usage, localCreated);
      this.sizeBytes := sizeBytes;
    }

    /** `write` routes to the staging buffer when there is one, otherwise to the device-local buffer. */
    method Write(data: seq<byte>, mapping: MapOutcome) returns (status: Status)
      requires Valid()
      modifies Target()`memory
      ensures Valid()
      ensures status == WriteStatus(sizeBytes, |data|, mapping)
      ensures Target().memory == if status == Done then data else old(Target().memory)
    {
      if stagingBuffer.Some? {
        status := stagingBuffer.value.Write(data, mapping);
      } else {
        status := gpuLocalBuffer.Write(data, mapping);
      }
    }

    /**
     * `write` as written: routed the same way, through the buffer's write as
     * written, so a correctly sized write whose map succeeds aborts.
     */
    method WriteAsWritten(data: seq<byte>, mapping: MapOutcome) returns (status: Status)
      requires Valid()
      modifies Target()`memory
      ensures Valid()
      ensures status == WriteStatusAsWritten(sizeBytes, |data|, mapping)
      ensures |data| == sizeBytes && MapSucceeded(mapping) ==> status == Fatal(MapFailed)
      ensures Target().memory == if status == Done then data else old(Target().memory)
    {
      if stagingBuffer.Some? {
        status := stagingBuffer.value.WriteAsWritten(data, mapping);
      } else {
        status := gpuLocalBuffer.WriteAsWritten(data, mapping);
      }
      if |data| == sizeBytes && MapSucceeded(mapping) {
        SuccessfulMapAbortsAsWritten(sizeBytes, mapping);
      }
    }

    /** `stage` copies staging into device-local only when staging exists. */
    method Stage(commandBuffer: CommandBuffer)
      requires Valid()
      modifies gpuLocalBuffer`memory, commandBuffer`recorded
      ensures Valid()
      ensures stagingBuffer.None? ==>
        gpuLocalBuffer.memory == old(gpuLocalBuffer.memory) &&
        commandBuffer.recorded == old(commandBuffer.recorded)
      ensures stagingBuffer.Some? ==>
        gpuLocalBuffer.memory == stagingBuffer.value.memory &&
        commandBuffer.recorded == old(commandBuffer.recorded) +
          [CopyBuffer(stagingBuffer.value.buffer, gpuLocalBuffer.buffer, 0, 0, sizeBytes)]
    {
      if stagingBuffer.Some? {
        var status := gpuLocalBuffer.CopyFrom(stagingBuffer.value, commandBuffer);
        assert status == Done;
      }
    }
  }

  /**
   * Write followed by stage on a fresh StagedBuffer leaves the written bytes
   * in the device-local buffer, whichever path the device selects.
   */
  method WriteThenStage(device: DeviceSelection.Device, allocator: Allocator, sizeBytes: nat, usage: set<BufferUsage>,
                        stagingCreated: Allocation, localCreated: Allocation, data: seq<byte>, mapping: MapOutcome)
    returns (status: Status, deviceLocal: seq<byte>)
    requires |stagingCreated.contents| == sizeBytes && |localCreated.contents| == sizeBytes
    ensures status == WriteStatus(sizeBytes, |data|, mapping)
    ensures status == Done ==> deviceLocal == data
  {
    var staged := new StagedBuffer(device, allocator, sizeBytes, usage, stagingCreated, localCreated);
    var commandBuffer := new CommandBuffer();
    status := staged.Write(data, mapping);
    if status == Done {
      staged.Stage(commandBuffer);
    }
    deviceLocal := staged.gpuLocalBuffer.memory;
  }

  /**
   * The same sequence with `write` as written: a correctly sized write whose
   * map succeeds aborts, so nothing reaches device-local memory.
   */
  method WriteThenStageAsWritten(device: DeviceSelection.Device, allocator: Allocator, sizeBytes: nat,
                                 usage: set<BufferUsage>, stagingCreated: Allocation, localCreated: Allocation,
                                 data: seq<byte>, mapping: MapOutcome)
    returns (status: Status, deviceLocal: seq<byte>)
    requires |stagingCreated.contents| == sizeBytes && |localCreated.contents| == sizeBytes
    ensures status == WriteStatusAsWritten(sizeBytes, |data|, mapping)
    ensures |data| == sizeBytes && MapSucceeded(mapping) ==> status == Fatal(MapFailed)
    ensures status == Done ==> deviceLocal == data
  {
    var staged := new StagedBuffer(device, allocator, sizeBytes, usage, stagingCreated, localCreated);
    var commandBuffer := new CommandBuffer();
    status := staged.WriteAsWritten(data, mapping);
    if status == Done {
      staged.Stage(commandBuffer);
    }
    deviceLocal := staged.gpuLocalBuffer.memory;
  }

  /** A moved-from buffer's destructor destroys only null handles. */
  method MoveThenDestroy(allocator: Allocator, sizeBytes: nat, created: Allocation)
    returns (movedFromCalls: seq<VmaCall>, movedToCalls: seq<VmaCall>)
    requires |created.contents| == sizeBytes
    ensures movedFromCalls == [DestroyBuffer(allocator, Null, Null)]
    ensures movedToCalls == [DestroyBuffer(allocator, Live(created.buffer), Live(created.allocation))]
  {
    var b := new Buffer(allocator, sizeBytes, {}, created);
    var c := new Buffer.MoveFrom(b);
    movedFromCalls := b.Destroy();
    movedToCalls := c.Destroy();
  }
}
