# dynamo renderer core, modelled in Dafny

This project models the policy core of the dynamo Vulkan renderer and proves
what that core promises. It covers these parts:

- how a physical device, its queue family and its buffer-staging mode are chosen;
- the two copies of the byte-buffer wrapper, the current one
  (`src/render/vulkan/buffer.cpp`) and the earlier one (`src/render/buffer.cpp`),
  each with its `StagedBuffer`;
- the descriptor pool;
- the vertex hash;
- the mesh de-duplication loop;
- how an `Object` sizes, writes, binds and draws its buffers;
- the step sequence of `Recorder::render`;
- the renderer's frame loop (`drawFrame`), its `resize` teardown and its
  `initializeRenderer` build.

Each source file becomes one Dafny module:

| module | file |
|---|---|
| `DeviceSelection` | `device.dfy` |
| `VulkanBuffers` | `vulkan_buffer.dfy` |
| `EarlyBuffers` | `early_buffer.dfy` |
| `DescriptorPools` | `descriptor_pool.dfy` |
| `GpuStructs` | `gpu_structs.dfy` |
| `RenderStructs` and `RenderObjects` | `render_structs.dfy`, `render_object.dfy` |
| `Recorders` | `recorder.dfy` |
| `Renderers` and `DeferredWork` | `renderer.dfy`, `deferred.dfy` |

Shared vocabulary lives in three more modules:

- `Common`: fixed-width integers, result codes and fatal reasons;
- `Vma`: what the memory allocator hands back;
- `Commands`: the command buffer and the commands recorded into it.

The `MemoryLayout` module gives the byte images of vertices and indices that
the buffers hold.

Objects whose fields the C++ code updates in place are Dafny classes. These
are the buffers, the staged buffers, the command buffer, the deferred-command
queue, the recorder, the renderer and the object. Their methods name what they
modify and state the new state of what they modify. After a fatal outcome,
which aborts the process, mostly only the outcome is stated.

Pure policy is functions and lemmas: device rating, the memory-type scan,
hashing, vertex building and the result of `render`.

Everything the GPU or the driver decides is an input:

- the outcome of `vmaMapMemory` (`MapOutcome`);
- the replies of fence waits, acquire and present (`DriverReplies`);
- the freshly created swapchain, depth buffer and render pass (`Surface`);
- the buffer and allocation handles `vmaCreateBuffer` returns (`Allocation`).

A fatal `seb::assertFatal` / `seb::panic`, a `.at` lookup out of range, and
the few Vulkan results the code compares (fence waits, acquire, present,
`vmaCreateBuffer`) are modelled as a `Fatal` status or an `Err` result. Its
reason is named. The failing `vmaCreateBuffer` check is modelled once per
buffer class, in `CreateBuffer`; the members that build buffers on the way
take each creation as having succeeded. Other throwing Vulkan calls are
treated as succeeding (see "Left out").

A float is its 32-bit pattern, and `std::hash<float>` is a parameter.
Vertices are compared by those patterns, which is not IEEE `==`: the two
zeros compare equal and NaN compares unequal to itself. The model proves the
two agree on ordinary floats (neither NaN nor -0.0f) and proves where they
part; the de-duplication follows the bit-pattern comparison. `size_t`
arithmetic is written out modulo 2^64. A recorded copy command is treated as
having taken effect once the frame that recorded it runs: the destination's
contents are updated when the copy is recorded.

## Model

| member | source | states |
|---|---|---|
| DeviceSelection.DeviceRating | src/render/vulkan/device.cpp:32-42 | A device's score is the sum of its largest 2D and 3D image dimensions. |
| DeviceSelection.FindBestDevice | src/render/vulkan/device.cpp:44-54 | For a non-empty list, the chosen index has a maximal rating and every device before it rates strictly lower. It is the first maximum, as `std::max_element` with `<` picks. |
| DeviceSelection.FindQueueFamilyAsWritten | src/render/vulkan/device.cpp:5-30 | As written, the scan succeeds exactly when family 0 can present and some family has graphics and transfer. Whenever it succeeds it returns 0, and it panics otherwise. |
| DeviceSelection.QueueScanCounterexample | src/render/vulkan/device.cpp:7-26 | For a device whose family 0 lacks graphics but whose family 1 is suitable, the as-written scan returns 0, a family without graphics, and the corrected scan returns 1. |
| DeviceSelection.FindQueueFamily | src/render/vulkan/device.cpp:5-30 | The corrected scan returns the first family that has graphics and transfer and can present. It fails exactly when no family is suitable. |
| DeviceSelection.LastGpuMainMemory | src/render/vulkan/device.cpp:129-140 | Whenever a heap index is reported, it belongs to a memory type with all of DeviceLocal, HostVisible and HostCoherent. |
| DeviceSelection.CountGpuMainMemory | src/render/vulkan/device.cpp:129-140 | The number of matching memory types never exceeds the number of types. |
| DeviceSelection.ScanMemoryTypes | src/render/vulkan/device.cpp:129-140 | The loop ends holding the last matching type's heap, and it warns exactly when more than one type matches. |
| DeviceSelection.ScanStep | src/render/vulkan/device.cpp:131-139 | One more memory type makes itself the last match if it matches, and adds one to the count exactly then. |
| DeviceSelection.FoundIffCounted | src/render/vulkan/device.cpp:129-140 | A matching memory type is found exactly when at least one is counted. |
| DeviceSelection.LastIsLastMatch | src/render/vulkan/device.cpp:129-140 | The scan reports the heap of the last matching type. It reports nothing exactly when no type matches. |
| DeviceSelection.StagingSkippedIff | src/render/vulkan/device.cpp:142-149 | Staging is off exactly when the last matching type exists and its heap is strictly larger than 257 MiB. |
| DeviceSelection.ComputeStageBuffers | src/render/vulkan/device.cpp:105-150 | Copying the reported types and scanning them gives exactly the staging decision. It warns exactly when more than one type matches. |
| DeviceSelection.Device.ShouldBuffersStage | src/render/vulkan/device.cpp:158-161 | Returns the decision stored by the constructor. |
| DeviceSelection.NewDeviceAsWritten | src/render/vulkan/device.cpp:58-156 | As written, the device is built on the best-rated physical device and succeeds exactly when its family 0 can present and some family has graphics and transfer. It then always uses family 0: one queue is requested there, and the render queue is (0, 0). The stored staging decision is the one the memory scan gives. |
| DeviceSelection.DeviceCounterexample | src/render/vulkan/device.cpp:58-70 | On a device whose family 0 lacks graphics, the device as written renders on family 0, and the corrected device renders on family 1. |
| DeviceSelection.NewDevice | src/render/vulkan/device.cpp:58-156 | With the queue scan corrected, the device is built on the best-rated physical device. It succeeds exactly when that device has a suitable family. Exactly one queue is requested, on that family, and the render queue is (family, 0). The stored staging decision is the one the memory scan gives. |
| Vma.WriteStatus | src/render/vulkan/buffer.cpp:132-154 | A write completes exactly when the length equals the buffer size and the map succeeds. A size mismatch is fatal before any map, and a failed map is fatal. |
| VulkanBuffers.Buffer.constructor | src/render/vulkan/buffer.cpp:7-55 | A new buffer holds the created buffer and allocation, its size, usage and allocator, and no mapping. |
| VulkanBuffers.Buffer.MoveFrom | src/render/vulkan/buffer.cpp:66-78 | The new buffer takes every field. The source is left with null handles, size 0 and no mapping. |
| VulkanBuffers.Buffer.Destroy | src/render/vulkan/buffer.cpp:57-64 | The destructor unmaps exactly when a mapping exists, then destroys the buffer and its allocation. |
| VulkanBuffers.Buffer.MoveAssign | src/render/vulkan/buffer.cpp:80-99 | Move assignment is fatal exactly when the allocators differ, and then nothing changes. Otherwise it takes the source's fields without destroying its own, and empties the source's handles, mapping and contents while leaving its usage as it was. |
| VulkanBuffers.Buffer.GetMappedPtr | src/render/vulkan/buffer.cpp:111-130 | A cached pointer is returned unchanged. Otherwise the buffer is mapped: a failed map is fatal and leaves the buffer unmapped, and a successful one is cached and returned. |
| VulkanBuffers.Buffer.Write | src/render/vulkan/buffer.cpp:132-154 | The status is `Vma.WriteStatus`. After a completed write the whole buffer holds the data; otherwise the contents are unchanged. |
| VulkanBuffers.Buffer.CopyFrom | src/render/vulkan/buffer.cpp:156-176 | The copy is fatal on a size mismatch, then on an allocator mismatch. Otherwise a full-size copy at offset 0 is recorded and the contents become the source's. |
| VulkanBuffers.CreateBuffer | src/render/vulkan/buffer.cpp:7-55 | Buffer creation succeeds exactly when vmaCreateBuffer returns VK_SUCCESS, and is fatal otherwise. A created buffer holds the new handles, its size, usage and allocator and the allocation's bytes, and nothing is mapped. |
| VulkanBuffers.StagedBuffer.constructor | src/render/vulkan/buffer.cpp:178-200 | A TransferSrc staging buffer exists exactly when the device stages. The device-local buffer always exists, with TransferDst added to its usage. |
| VulkanBuffers.StagedBuffer.Write | src/render/vulkan/buffer.cpp:202-212 | The write goes to the staging buffer when there is one, otherwise to the device-local buffer, with `WriteStatus` semantics. |
| VulkanBuffers.StagedBuffer.Stage | src/render/vulkan/buffer.cpp:214-220 | Staging records a copy of the staging buffer into the device-local one when staging exists. Otherwise it does nothing. |
| VulkanBuffers.WriteThenStage | src/render/vulkan/buffer.cpp:132-220 | A completed write followed by a stage leaves the data in the device-local buffer, whether or not the device stages. Because `write` unmaps its own mapping, no mapping stays cached in the buffer written. |
| VulkanBuffers.StagingEquivalence | src/render/vulkan/buffer.cpp:178-220 | A staging device and a direct device end with the same device-local contents after write and stage. |
| VulkanBuffers.MappingIsCached | src/render/vulkan/buffer.cpp:111-130 | A second `get_mapped_ptr` returns the first pointer and succeeds, whatever the second map would answer. |
| VulkanBuffers.MoveThenDestroy | src/render/vulkan/buffer.cpp:57-78 | After a move, the moved-from destructor destroys only null handles. The moved-to destructor unmaps and then destroys the real handles. |
| VulkanBuffers.MoveAssignDropsTarget | src/render/vulkan/buffer.cpp:80-99 | After move assignment, no destructor ever destroys the target's original buffer; it leaks. |
| EarlyBuffers.WriteStatusAsWritten | src/render/buffer.cpp:94-116 | As written, a write of the wrong size is fatal. A write completes exactly when the size is right, the map result is non-zero and a pointer was written. |
| EarlyBuffers.SuccessfulMapAbortsAsWritten | src/render/buffer.cpp:104-110 | A correctly sized write whose map succeeds aborts as written, and completes under the corrected check. |
| EarlyBuffers.WriteAsWrittenNeverCompletes | src/render/buffer.cpp:104-110 | When a failed map writes no pointer, the as-written write never completes. |
| EarlyBuffers.Buffer.constructor | src/render/buffer.cpp:7-50 | A new buffer holds the created handles, size, usage and allocator. |
| EarlyBuffers.Buffer.MoveFrom | src/render/buffer.cpp:57-67 | The new buffer takes every field. The source is left with null handles and size 0. |
| EarlyBuffers.Buffer.Destroy | src/render/buffer.cpp:52-55 | The destructor issues one destroy of the buffer and allocation, whatever their state. |
| EarlyBuffers.Buffer.MoveAssign | src/render/buffer.cpp:69-82 | Move assignment is fatal exactly when the allocators differ. Otherwise it takes the source's fields and empties the source's handles, size and contents while leaving its usage as it was. |
| EarlyBuffers.Buffer.WriteAsWritten | src/render/buffer.cpp:94-116 | The status is `WriteStatusAsWritten`, and the buffer holds the data exactly when that status is Done. |
| EarlyBuffers.Buffer.Write | src/render/buffer.cpp:94-116 | With the map result compared against VK_SUCCESS, the status is `Vma.WriteStatus`. A completed write leaves the whole buffer holding the data. |
| EarlyBuffers.Buffer.CopyFrom | src/render/buffer.cpp:118-138 | The copy is fatal on a size mismatch, then on an allocator mismatch. Otherwise a full-size copy at offset 0 is recorded and the contents become the source's. |
| EarlyBuffers.CreateBuffer | src/render/buffer.cpp:7-50 | Buffer creation succeeds exactly when vmaCreateBuffer returns VK_SUCCESS, and is fatal otherwise. A created buffer holds the new handles, its size, usage and allocator and the allocation's bytes. |
| EarlyBuffers.StagedBuffer.constructor | src/render/buffer.cpp:140-162 | A staging buffer exists exactly when the device stages. The device-local buffer always exists, with TransferDst added to its usage. |
| EarlyBuffers.StagedBuffer.WriteAsWritten | src/render/buffer.cpp:164-174 | As written, the write goes to the staging buffer when there is one, otherwise to the device-local buffer, with `WriteStatusAsWritten` semantics: a correctly sized write whose map succeeds aborts. |
| EarlyBuffers.StagedBuffer.Write | src/render/buffer.cpp:164-174 | With the buffer's write corrected, the write goes to the staging buffer when there is one, otherwise to the device-local buffer. |
| EarlyBuffers.StagedBuffer.Stage | src/render/buffer.cpp:176-182 | Staging records a copy into the device-local buffer only when staging exists. |
| EarlyBuffers.WriteThenStageAsWritten | src/render/buffer.cpp:140-182 | As written, a correctly sized write whose map succeeds aborts before anything is staged; a write that does complete leaves the data in the device-local buffer. |
| EarlyBuffers.WriteThenStage | src/render/buffer.cpp:140-182 | With the buffer's write corrected, a completed write followed by a stage leaves the data in the device-local buffer. |
| EarlyBuffers.MoveThenDestroy | src/render/buffer.cpp:52-67 | After a move, the moved-from destructor destroys null handles and the moved-to one destroys the real handles. |
| DescriptorPools.NewDescriptorPool | src/render/vulkan/descriptor_pool.cpp:6-26 | `number_of_sets` is the number of pool-size entries. The pool is created with that many sets at most, with one entry per pool size, and with individually freeable sets. |
| DescriptorPools.Allocate | src/render/vulkan/descriptor_pool.cpp:28-43 | Allocation requests `number_of_sets` sets, every one with the stored layout. |
| DescriptorPools.SetCountIgnoresDescriptorCounts | src/render/vulkan/descriptor_pool.cpp:13 | Two pools built from equally many pool sizes allocate the same sets, whatever descriptor counts those sizes carry. |
| GpuStructs.Components | src/render/vulkan/gpu_structs.hpp:85-98 | The hash visits eleven floats, starting at position, color, normal and uv in that order. |
| GpuStructs.ComponentsDetermineVertex | src/render/vulkan/gpu_structs.hpp:35-50 | Two vertices are equal as bit patterns exactly when their eleven floats' bit patterns are. |
| GpuStructs.VertexEqIsEqualityOnOrdinary | src/render/vulkan/gpu_structs.hpp:49 | On vertices whose floats are neither NaN nor -0.0f, the defaulted IEEE `==` holds exactly when the bit patterns are equal. |
| GpuStructs.SignedZerosCompareEqual | src/render/vulkan/gpu_structs.hpp:49 | A vertex with uv.y = +0.0f and the same vertex with -0.0f there are IEEE-equal but have different bit patterns. |
| GpuStructs.NaNVertexUnequalToItself | src/render/vulkan/gpu_structs.hpp:49 | A vertex with a NaN component is not IEEE-equal to itself. |
| GpuStructs.HashCombine | src/render/vulkan/gpu_structs.hpp:79-83 | The statement-by-statement wrapping shifts, adds and xor of `hashCombine` compute one step of the `Combine` fold that the vertex hash is specified by. |
| GpuStructs.IncrementByShifts | src/render/vulkan/gpu_structs.hpp:81 | Adding `0x9e3779b9`, `seed << 6` and `seed >> 2` with size_t wrap-around after each add gives the increment taken once modulo 2^64. |
| GpuStructs.CombineInjective | src/render/vulkan/gpu_structs.hpp:79-83 | For a fixed seed, a combine step maps different hashes to different seeds. |
| GpuStructs.FoldAppend | src/render/vulkan/gpu_structs.hpp:85-98 | Folding one more hash is one more combine step on the folded seed. |
| GpuStructs.LastHashDistinguishes | src/render/vulkan/gpu_structs.hpp:85-98 | Hash sequences that differ only in the last entry fold to different values. |
| GpuStructs.HashVertex | src/render/vulkan/gpu_structs.hpp:73-101 | The hash starts from seed 0 and folds, in order, the float hash of each of the eleven components, so it depends on those hashes alone. |
| GpuStructs.HashSeparatesLastUv | src/render/vulkan/gpu_structs.hpp:73-101 | Vertices that differ only in uv.y, with different float hashes there, get different vertex hashes. |
| MemoryLayout.WordRoundTrip | src/render/render_structs.cpp:176-192 | A 32-bit word's four little-endian bytes decode back to the word. |
| MemoryLayout.VertexBytesRoundTrip | src/render/render_structs.cpp:176-182 | The `sizeof(Vertex)`-per-vertex byte image written to the vertex buffer decodes back to the vertices. |
| MemoryLayout.IndexBytesRoundTrip | src/render/render_structs.cpp:184-192 | The 4-byte-per-index image written to the index buffer decodes back to the indices. |
| RenderStructs.BuildVertex | src/render/render_structs.cpp:93-128 | A mesh index builds a vertex exactly when every non-negative attribute index is in range; otherwise `.at` throws. A negative vertex index gives position (0,0,0) and color (1,1,1). A negative normal index gives a zero normal, and a negative texcoord index gives a zero uv. |
| RenderStructs.UniqueSpec | src/render/render_structs.cpp:131-139 | The de-duplicated vertices are pairwise distinct and hold exactly the built vertices. |
| RenderStructs.UniqueFirstOccurrenceOrder | src/render/render_structs.cpp:131-139 | The de-duplicated vertices appear in order of first occurrence. |
| RenderStructs.FirstIndex | src/render/render_structs.cpp:134 | The position a vertex is recorded at is the first place it occurs. |
| RenderStructs.OutOfRangeSpoilsAll | src/render/render_structs.cpp:89-146 | One out-of-range mesh index anywhere makes the whole load fail. |
| RenderStructs.ReadVertices | src/render/render_structs.cpp:89-146 | The load succeeds exactly when every mesh index is in range. It returns the de-duplicated vertices and one index per mesh index, each the first position of its vertex. It warns exactly when there are too many vertices, and only warns. |
| RenderStructs.IndicesResolve | src/render/render_structs.cpp:134-144 | Every emitted index is below the vertex count, and looking it up gives back the vertex built from the matching mesh index. |
| RenderObjects.Object.constructor | src/render/render_structs.cpp:151-175 | The vertex buffer is sized `vertices.size() * sizeof(Vertex)`. An index buffer of `count * sizeof(Index)` bytes exists exactly when indices are given. |
| RenderObjects.Object.UploadAsWritten | src/render/render_structs.cpp:176-193 | As written, the writes never fail on size. They complete exactly when every map returns a non-zero result and writes a pointer, so a successful vertex map aborts. |
| RenderObjects.Object.Upload | src/render/render_structs.cpp:176-193 | With the buffer's write corrected, the writes never fail on size. They complete exactly when the maps succeed, and then each buffer holds the byte image of its data, which decodes back to it. |
| RenderObjects.Object.BindCommands | src/render/render_structs.cpp:196-209 | Binding binds the vertex buffer at offset 0, then the index buffer as uint32 only if there is one. |
| RenderObjects.Object.DrawCommand | src/render/render_structs.cpp:211-224 | Drawing draws indexed with the index count when there are indices, otherwise plainly with the vertex count. |
| RenderObjects.Object.DrawMatchesBind | src/render/render_structs.cpp:196-224 | An object draws indexed exactly when it binds an index buffer. The count it draws is its index count or its vertex count. |
| DeferredWork.TextureUploadChain | src/render/renderer.cpp:93-111 | The upload goes from Undefined to TransferDstOptimal, copies, then goes to ShaderReadOnlyOptimal. Each transition starts from the previous one's target. |
| DeferredWork.SlotWrites | src/render/renderer.cpp:359-410 | For each slot in order, the update writes the slot's uniform buffer at binding 0 and the texture at binding 1. |
| DeferredWork.DescriptorUpdateCoversSlots | src/render/renderer.cpp:359-410 | Every frame slot gets both bindings, and the texture is declared in the layout the upload leaves it in. |
| DeferredWork.DeferredQueue.Push | src/render/renderer.cpp:359 | Pushing appends the command at the back of the queue. |
| Recorders.WaitForFence | src/render/recorder.cpp:39-45 | A signalled fence returns Success at once, and a fence nothing will signal times out. |
| Recorders.RenderResults | src/render/recorder.cpp:30-218 | `render` returns only Success or eErrorOutOfDateKHR, and every other way out is fatal. It returns Success exactly when the wait passes, the acquire succeeds, the index has a framebuffer, the present succeeds and the last wait succeeds. |
| Recorders.SignalledFenceDoesNotBlock | src/render/recorder.cpp:18-27 | A recorder's fence starts signalled, so the first wait passes whatever the driver would answer. |
| Recorders.Recorder.constructor | src/render/recorder.cpp:8-28 | A new recorder owns its command buffer and its fence is signalled. |
| Recorders.Recorder.RecordObjects | src/render/recorder.cpp:115-155 | For each object in order, the recorder binds it, pushes constants, binds the descriptor set and draws it. |
| Recorders.Recorder.DrainQueue | src/render/recorder.cpp:70-75 | The queue is drained front to back until empty. Each deferred command is run once into this command buffer. |
| Recorders.Recorder.Render | src/render/recorder.cpp:30-218 | The result is `RenderOutcome`. Without a successful acquire, nothing is reset, recorded, drained or submitted. After one, the queue is drained first, then the render pass is recorded into the acquired image's framebuffer, then submit and present follow. |
| Recorders.DeferredDrawsNothing | src/render/recorder.cpp:70-75 | Deferred commands issue no draws. |
| Recorders.DrawListDraws | src/render/recorder.cpp:115-155 | The draws recorded for a list of objects are exactly one draw per object, in order. |
| Recorders.FrameDraws | src/render/recorder.cpp:56-158 | A recorded frame issues exactly one draw per object, in order. |
| Renderers.TeardownReversesBuild | src/render/renderer.cpp:234-248 | The teardown visits the nine members in exactly the reverse of the build order, each once. |
| Renderers.BuildRespectsSources | src/render/renderer.cpp:253-435 | Every member is built after the members it is made from. |
| Renderers.TeardownRespectsSources | src/render/renderer.cpp:234-248 | Every member is destroyed before the members it is made from. |
| Renderers.PoolGivesOneSetPerFrame | src/render/renderer.cpp:293-355 | The pool built from the two pool sizes allocates exactly MaxFramesInFlight sets, so the fatal check on the set count passes. |
| Renderers.SlotsAlternate | src/render/renderer.cpp:212 | The frame slot always moves to the other slot, and returns after two frames. |
| Renderers.Renderer.constructor | src/render/renderer.cpp:10-140 | The texture upload is queued before the first initialisation, which queues one descriptor update. The renderer ends valid at slot 0, with every member built in order and built from the surface, as `BuiltFrom` states: the pipeline is the surface's layout, and both recorders have signalled fences over distinct command buffers. |
| Renderers.Renderer.InitializeRenderer | src/render/renderer.cpp:253-435 | Members are built in build order, and every member is the one `BuiltFrom(surface)` describes. That is the surface's swapchain, depth buffer, render pass and pipeline layout, and a pool over that layout. It has one framebuffer per image view, pairing the view with the depth buffer at the swapchain extent. It has two new unmapped uniform buffers over the created allocations and the surface's two descriptor sets. It has two new recorders with distinct command buffers and signalled fences. One descriptor update is queued. |
| Renderers.Renderer.BuildFramebuffers | src/render/renderer.cpp:311-335 | One framebuffer per swapchain image view, pairing that view with the depth buffer at the swapchain extent, with one layer. |
| Renderers.Renderer.BuildUniformBuffers | src/render/renderer.cpp:337-346 | MaxFramesInFlight new uniform buffers, each `sizeof(UniformBuffer)` bytes with UniformBuffer usage. |
| Renderers.Renderer.BuildFrames | src/render/renderer.cpp:413-434 | MaxFramesInFlight new recorders, each owning its own newly allocated command buffer. |
| Renderers.Renderer.QueueDescriptorUpdate | src/render/renderer.cpp:357-410 | Appends exactly one descriptor update to the deferred queue. |
| Renderers.Renderer.Teardown | src/render/renderer.cpp:234-248 | The nine members are destroyed in teardown order, and the slot and deferred history are kept. |
| Renderers.Renderer.Resize | src/render/renderer.cpp:226-251 | Resizing tears down in teardown order, then rebuilds in build order on the new surface. It keeps the frame slot and queues one more descriptor update. Afterwards every member is built from the new surface (`BuiltFrom`), including the pipeline, new uniform buffers and new recorders whose fences are signalled. |
| Renderers.Renderer.WriteUniform | src/render/renderer.cpp:194-198 | The slot's uniform buffer receives the 32 light bytes exactly when its mapping is cached or the map succeeds, and then holds the cached or new mapping. Otherwise it is fatal, and the contents and mapping are unchanged. Its handles, allocator, usage and size never change. |
| Renderers.Renderer.RenderSlot | src/render/renderer.cpp:204-210 | The current slot's recorder renders the frame with the slot's descriptor set and the pending deferred commands. An acquired frame runs and empties the deferred queue, adding it to the history; otherwise the queue is untouched. A successful frame leaves the slot's fence signalled. |
| Renderers.FirstFramesPassFenceWait | src/render/renderer.cpp:428-434 | The first frame after construction, and the first after a resize, pass their fence wait whatever the driver would answer, because the recorders are rebuilt with signalled fences. |
| Renderers.Renderer.DrawFrame | src/render/renderer.cpp:179-224 | The light is written into the current slot's uniform buffer, which keeps its handles and holds the cached or new mapping, and that slot's recorder records the frame. A frame that completes advances the slot to the other one. Success leaves every member as it was: swapchain, depth buffer, render pass, pipeline, pool, framebuffers, uniform buffers, descriptor sets and recorders. The deferred queue is emptied and the slot's fence is signalled. eErrorOutOfDateKHR tears down and rebuilds every member on the new surface (`BuiltFrom`), with new recorders whose fences are signalled. The queue is then the pending commands, emptied if an image was acquired, plus one descriptor update. Any other result is fatal. |

## Left out

- Instance and debug-messenger setup, the window and its input, the allocator
  and command-pool wrappers, and pipeline and render-pass configuration: these
  are foreign Vulkan or OS calls with no policy of their own. The pipeline and
  render pass are opaque handles taken from the `Surface`.
- Shader loading and the tinyobj and stb_image parsers are file I/O and
  foreign libraries. The de-duplication loop takes tinyobj's attribute and
  index arrays as given sequences. The texture's pixels, and the sampler and
  image it is uploaded to, are not modelled; only the commands the upload
  records are.
- Camera, Transform, push-constant values and the animated light are glm
  float and trigonometric maths. `DrawFrame` takes the light's 32 bytes as a
  parameter, and push constants are recorded without their values.
- GPU execution, semaphore ordering and concurrency are not modelled. Fence
  and semaphore state, and what the driver replies to waits, acquire and
  present, are inputs. Submit and present are recorded as queue operations.
- `resize` blocks while the window is minimised and then waits for the device
  to go idle. Both are waits on external state and are not modelled. The
  renderer destructor's idle wait is left out for the same reason.
- Swapchain and image construction have no implementation in this source.
  The swapchain's image views and extent, the depth view, the render pass and
  the descriptor-set handles come from the `Surface`.
- Unfinished drafts are not modelled: `src/render/frame.cpp`,
  `src/render/device.cpp`, `src/render/swapchain.cpp`,
  `src/render/descriptor_pool.cpp`, `src/main.cpp` and the world setup.
- The signatures of `Recorder::render` in the header, the source and the
  call site differ. The model follows the body in `src/render/recorder.cpp`
  and the call in `src/render/renderer.cpp`.
- `src/render/renderer.cpp:195` calls `getMappedPtr`, which
  `src/render/vulkan/buffer.hpp:31` declares, but
  `src/render/vulkan/buffer.cpp:111` defines it as `get_mapped_ptr`.
- Both `src/render/buffer.hpp` and `src/render/vulkan/buffer.hpp` declare
  a `render::Buffer`. The renderer reaches both, through `render_structs.hpp`
  and through `vulkan/image.hpp`. The uniform buffers are modelled with the
  `src/render/vulkan/` copy, the only one with a mapped-pointer accessor,
  which the uniform write needs. The objects' buffers are modelled with the
  `src/render/buffer.hpp` copy that `render_structs.hpp` includes.
- If vulkan-hpp is built with exceptions, an out-of-date acquire throws
  before the result is compared. The model follows the branch as written and
  returns eErrorOutOfDateKHR.
- Staging is decided by a 257 MiB threshold (`257 * 1024 * 1024` bytes), as
  the code has it.
- The uniform buffer is `sizeof(UniformBuffer)` = 32 bytes: a vec3 light
  position, then a 16-byte-aligned vec4 light colour.
- VulkanBuffers.Buffer.constructor: the success half of the allocating
  constructor; the abort when vmaCreateBuffer fails is
  `VulkanBuffers.CreateBuffer`.
- EarlyBuffers.Buffer.constructor: the success half of the allocating
  constructor; the abort when vmaCreateBuffer fails is
  `EarlyBuffers.CreateBuffer`.
- VulkanBuffers.StagedBuffer.constructor, EarlyBuffers.StagedBuffer.constructor,
  RenderObjects.Object.constructor and Renderers.Renderer.BuildUniformBuffers
  take each vmaCreateBuffer they cause as having succeeded: a failure there
  aborts as `CreateBuffer` states, and is not threaded through these members.
- Renderers.Renderer.DrawFrame: the ghost record of deferred commands that
  have run is updated even when `render` ends fatally; nothing real depends
  on it.
- DeviceSelection.NewDevice: built on the corrected queue scan, so it
  renders on the first suitable family. The device as the code builds it,
  always on family 0, is `DeviceSelection.NewDeviceAsWritten`.
- EarlyBuffers.StagedBuffer.Write: routes to the corrected buffer write,
  which compares the map result with VK_SUCCESS. The routing over the write
  as the code has it is `EarlyBuffers.StagedBuffer.WriteAsWritten`.
- EarlyBuffers.WriteThenStage: composed from the corrected write. The same
  sequence over the write as written is `EarlyBuffers.WriteThenStageAsWritten`.
- RenderObjects.Object.Upload: uses the corrected buffer write, so it
  completes when the maps succeed. The upload as the code has it, which
  aborts on a successful vertex map, is `RenderObjects.Object.UploadAsWritten`.
- RenderStructs.ReadVertices: matches vertices by bit pattern, not by IEEE
  `==`. In the code, vertices differing only in +0.0f / -0.0f merge into one,
  and a vertex with a NaN component is never found in the map, so it is
  appended each time and its emitted index is the 0 that `uniqueVertices[vertex]`
  default-inserts at `src/render/render_structs.cpp:144`. The model agrees with
  the code on vertices of ordinary floats (neither NaN nor -0.0f).
- RenderStructs.IndicesResolve: stated for the bit-pattern matching; for a
  NaN vertex the code emits index 0, which need not resolve to that vertex.
- GpuStructs.ComponentsDetermineVertex: states bit-pattern equality. The
  defaulted `==` is IEEE equality, which differs on +0.0f / -0.0f and NaN;
  `GpuStructs.VertexEqIsEqualityOnOrdinary` relates the two.
- Vulkan calls whose failure throws and which the code never checks are
  treated as succeeding: `resetFences`, `reset`, `begin`, `end` and `submit`
  at `src/render/recorder.cpp:56`, `:58`, `:68`, `:158` and `:181`;
  `createFramebufferUnique` at `src/render/renderer.cpp:333` and
  `allocateCommandBuffersUnique` at `src/render/renderer.cpp:426`;
  `allocateDescriptorSetsUnique` at `src/render/vulkan/descriptor_pool.cpp:42`;
  `createDescriptorPoolUnique` at `src/render/vulkan/descriptor_pool.cpp:25`;
  `createDeviceUnique` at `src/render/vulkan/device.cpp:101`; and the two
  `createSemaphoreUnique` and the `createFenceUnique` at
  `src/render/recorder.cpp:25-27`.
- DeviceSelection.LastGpuMainMemory: its own contract only states that a
  reported heap belongs to a matching type. The full characterisation (the
  last match, and nothing exactly when no type matches) is the lemma
  `DeviceSelection.LastIsLastMatch`.
- DeviceSelection.CountGpuMainMemory: its own contract only bounds the
  count. That the count is positive exactly when a match is found is
  `DeviceSelection.FoundIffCounted`.
- Recorders.Recorder.Render: the recorded commands are stated when the
  acquired image index has a framebuffer. An index without one makes
  `framebuffers.at` throw, and the model reports only that fatal outcome.

## Findings

| source | as written | input that shows it | evidently intended | confidence | as-written member | corrected member |
|---|---|---|---|---|---|---|
| src/render/buffer.cpp:104-110 | `assertFatal(vmaMapMemory(...))` treats the VkResult as a truth value, so it aborts when the map returns VK_SUCCESS (0) | any correctly sized write whose map succeeds | abort unless the map returns VK_SUCCESS, as `src/render/vulkan/buffer.cpp` does | high, not executed | EarlyBuffers.SuccessfulMapAbortsAsWritten | EarlyBuffers.Buffer.Write |
| src/render/vulkan/device.cpp:7, 21, 26 | `idx` starts at 0 and is never incremented. Surface support is always asked of family 0, and the returned index is always 0 | family 0 with compute and transfer only, family 1 with graphics and transfer, both able to present | return the index of the first family that has graphics and transfer and can present | high, not executed | DeviceSelection.QueueScanCounterexample | DeviceSelection.FindQueueFamily |
