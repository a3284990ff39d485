// src/render/render_structs.cpp, `Object`: the vertex buffer and optional
// index buffer of a mesh, sized from the mesh, filled once by the
// constructor, and the bind and draw commands it records.
//
// The buffers are the early wrapper of src/render/buffer.cpp (the header
// render_structs.hpp includes that one). `Upload` uses its write corrected
// to test the map result against VK_SUCCESS; `UploadAsWritten` uses the
// write as the source has it.

module RenderObjects {
  import opened Common
  import opened GpuStructs
  import opened MemoryLayout
  import opened Vma
  import opened Commands
  import opened EarlyBuffers

  class Object {
    const vertices: seq<Vertex>
    const indices: Option<seq<u32>>
    const vertexBuffer: Buffer
    const indexBuffer: Option<Buffer>
    /** The VkBuffer handles `bind` records: those of the owned buffers, which no one moves out of them. */
    const vertexHandle: Handle
    const indexHandle: Option<Handle>

    /** The buffers this object owns. */
    ghost function Buffers(): set<Buffer>
    {
      {vertexBuffer} + if indexBuffer.Some? then {indexBuffer.value} else {}
    }

    /**
     * The vertex buffer holds `vertices.size() * sizeof(Vertex)` bytes; there
     * is an index buffer exactly when there are indices, holding
     * `indices.size() * sizeof(Index)` bytes; both come from one allocator.
     */
    ghost predicate Valid()
      reads Buffers()
    {
      vertexBuffer.Valid() && vertexBuffer.usage == {VertexBuffer} &&
      vertexBuffer.sizeBytes == SizeOfVertex * |vertices| &&
      (indexBuffer.Some? <==> indices.Some?) &&
      (indexBuffer.Some? ==>
        indexBuffer.value != vertexBuffer && indexBuffer.value.Valid() &&
        indexBuffer.value.usage == {IndexBuffer} &&
        indexBuffer.value.sizeBytes == SizeOfIndex * |indices.value| &&
        indexBuffer.value.allocator == vertexBuffer.allocator) &&
      vertexHandle == vertexBuffer.buffer &&
      (indexHandle.Some? <==> indexBuffer.Some?) &&
      (indexBuffer.Some? ==> indexHandle.value == indexBuffer.value.buffer)
    }

    /**
     * The member initialisers: the vertex buffer, and the index buffer when
     * indices are given, each created by `allocator` as the given allocation.
     */
    constructor (allocator: Allocator, vertices: seq<Vertex>, indices: Option<seq<u32>>,
                 vertexCreated: Allocation, indexCreated: Allocation)
      requires |vertexCreated.contents| == SizeOfVertex * |vertices|
      requires indices.Some? ==> |indexCreated.contents| == SizeOfIndex * |indices.value|
      ensures Valid() && fresh(Buffers())
      ensures this.vertices == vertices && this.indices == indices
      ensures vertexBuffer.allocator == allocator && vertexBuffer.buffer == Live(vertexCreated.buffer)
      ensures indexBuffer.Some? ==> indexBuffer.value.buffer == Live(indexCreated.buffer)
    {
      this.vertices := vertices;
      this.indices := indices;
      vertexBuffer := new Buffer(allocator, SizeOfVertex * |vertices|, {VertexBuffer}, vertexCreated);
      vertexHandle := Live(vertexCreated.buffer);
      if indices.Some? {
        var b := new Buffer(allocator, SizeOfIndex * |indices.value|, {IndexBuffer}, indexCreated);
        indexBuffer := Some(b);
        indexHandle := Some(Live(indexCreated.buffer));
      } else {
        indexBuffer := None;
        indexHandle := None;
      }
    }

    /**
     * The constructor body: write the vertex bytes, then the index bytes if
     * there is an index buffer. Every write has exactly its buffer's size,
     * so only a failed map can stop it, and a failed vertex write stops it
     * before the index buffer is touched.
     */
    method Upload(vertexMap: MapOutcome, indexMap: MapOutcome) returns (status: Status)
      requires Valid()
      modifies Buffers()`memory
      ensures Valid()
      ensures status == Done <==> MapSucceeded(vertexMap) && (indexBuffer.Some? ==> MapSucceeded(indexMap))
      ensures status != Fatal(SizeMismatch)
      ensures !MapSucceeded(vertexMap) ==> unchanged(Buffers())
      ensures status == Done ==> vertexBuffer.memory == VertexBytes(vertices)
      ensures status == Done ==> DecodeVertices(vertexBuffer.memory) == vertices
      ensures status == Done && indices.Some? ==>
        indexBuffer.value.memory == IndexBytes(indices.value) &&
        DecodeIndices(indexBuffer.value.memory) == indices.value
    {
      status := vertexBuffer.Write(VertexBytes(vertices), vertexMap);
      if status.Fatal? {
        return;
      }
      if indexBuffer.Some? {
        status := indexBuffer.value.Write(IndexBytes(indices.value), indexMap);
        IndexBytesRoundTrip(indices.value);
      }
      VertexBytesRoundTrip(vertices);
    }

    /**
     * The constructor body with the buffer's write as written: it completes
     * only when every map returns a non-zero VkResult that wrote a pointer, so
     * it aborts whenever the vertex map succeeds.
     */
    method UploadAsWritten(vertexMap: MapOutcome, indexMap: MapOutcome) returns (status: Status)
      requires Valid()
      modifies Buffers()`memory
      ensures Valid()
      ensures status == Done <==>
        MapPassesAsWritten(vertexMap) && (indexBuffer.Some? ==> MapPassesAsWritten(indexMap))
      ensures MapSucceeded(vertexMap) ==> status == Fatal(MapFailed)
      ensures status != Fatal(SizeMismatch)
      ensures status == Done ==> vertexBuffer.memory == VertexBytes(vertices)
    {
      status := vertexBuffer.WriteAsWritten(VertexBytes(vertices), vertexMap);
      if status.Fatal? {
        return;
      }
      if indexBuffer.Some? {
        status := indexBuffer.value.WriteAsWritten(IndexBytes(indices.value), indexMap);
      }
    }

    /** What `bind` records: the vertex buffer at binding 0, then the index buffer if there is one. */
    function BindCommands(): (cmds: seq<Command>)
    {
      [BindVertexBuffers(0, vertexHandle, 0)] +
      if indexHandle.Some? then [BindIndexBuffer(indexHandle.value, 0, IndexUint32)] else []
    }

    /** What `draw` records: an indexed draw over all indices if there is an index buffer, else a draw over all vertices. */
    function DrawCommand(): Command
    {
      if indexBuffer.Some? && indices.Some? then DrawIndexed(ToU32(|indices.value|), 1, 0, 0, 0)
      else Command.Draw(ToU32(|vertices|), 1, 0, 0)
    }

    method Bind(commandBuffer: CommandBuffer)
      modifies commandBuffer`recorded
      ensures commandBuffer.recorded == old(commandBuffer.recorded) + BindCommands()
      ensures Valid() ==>
        BindCommands()[0] == BindVertexBuffers(0, vertexBuffer.buffer, 0) &&
        |BindCommands()| == (if indexBuffer.Some? then 2 else 1) &&
        (indexBuffer.Some? ==> BindCommands()[1] == BindIndexBuffer(indexBuffer.value.buffer, 0, IndexUint32))
    {
      commandBuffer.recorded := commandBuffer.recorded + BindCommands();
    }

    method Draw(commandBuffer: CommandBuffer)
      modifies commandBuffer`recorded
      ensures commandBuffer.recorded == old(commandBuffer.recorded) + [DrawCommand()]
    {
      commandBuffer.recorded := commandBuffer.recorded + [DrawCommand()];
    }

    /**
     * `draw` matches `bind`: it draws indexed exactly when `bind` bound an
     * index buffer, and while the counts fit in 32 bits it draws exactly as
     * many indices (or vertices) as the bound buffer holds.
     */
    lemma DrawMatchesBind()
      requires Valid()
      ensures DrawCommand().DrawIndexed? <==> exists c | c in BindCommands() :: c.BindIndexBuffer?
      ensures DrawCommand().DrawIndexed? && |indices.value| <= U32Max ==>
        DrawCommand().indexCount as int * SizeOfIndex == indexBuffer.value.sizeBytes
      ensures DrawCommand().Draw? && |vertices| <= U32Max ==>
        DrawCommand().vertexCount as int * SizeOfVertex == vertexBuffer.sizeBytes
    {
      var cmds := BindCommands();
      if indexBuffer.Some? {
        assert cmds[1] in cmds;
      }
    }
  }
}
