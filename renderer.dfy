// src/render/renderer.cpp: the Renderer's frame loop and the part of its
// state that is rebuilt when the swapchain goes out of date.
//
// Window, instance, surface, device, allocator and command-pool setup are
// not part of this model; the allocator is an identity. What the driver and
// the window hand back while `initializeRenderer` runs (swapchain images and
// extent, created handles, allocations) is an input, a `Surface`.

module Renderers {
  import opened Common
  import opened Commands
  import opened Vma
  import opened DeferredWork
  import opened Recorders
  import opened RenderObjects
  import DescriptorPools
  import VulkanBuffers

  /** The members `initializeRenderer` builds and `resize` destroys. */
  datatype Member =
    | Swapchain | DepthBuffer | RenderPass | Pipeline | DescriptorPool
    | Framebuffers | UniformBuffers | DescriptorSets | Frames

  datatype LifecycleEvent = Built(member: Member) | Destroyed(member: Member)

  /** The order in which `initializeRenderer` builds the members. */
  const BuildOrder: seq<Member> :=
    [Swapchain, DepthBuffer, RenderPass, Pipeline, DescriptorPool, Framebuffers, UniformBuffers, DescriptorSets, Frames]

  /** The order in which `resize` destroys them. */
  const TeardownOrder: seq<Member> :=
    [Frames, DescriptorSets, UniformBuffers, Framebuffers, DescriptorPool, Pipeline, RenderPass, DepthBuffer, Swapchain]

  function BuiltAll(ms: seq<Member>): (es: seq<LifecycleEvent>)
    ensures |es| == |ms| && forall i | 0 <= i < |ms| :: es[i] == Built(ms[i])
  {
    seq(|ms|, i requires 0 <= i < |ms| => Built(ms[i]))
  }

  function DestroyedAll(ms: seq<Member>): (es: seq<LifecycleEvent>)
    ensures |es| == |ms| && forall i | 0 <= i < |ms| :: es[i] == Destroyed(ms[i])
  {
    seq(|ms|, i requires 0 <= i < |ms| => Destroyed(ms[i]))
  }

  /**
   * `m` is created from `source`: it takes a handle or a property of it
   * (the depth buffer and pipeline take the swapchain extent, the render
   * pass the swapchain format and depth buffer, the descriptor pool the
   * pipeline's set layout, the framebuffers the image views, depth buffer
   * and render pass, the descriptor sets the pool).
   */
  predicate MadeFrom(m: Member, source: Member)
  {
    match m
    case DepthBuffer => source == Swapchain
    case RenderPass => source == Swapchain || source == DepthBuffer
    case Pipeline => source == RenderPass || source == Swapchain
    case DescriptorPool => source == Pipeline
    case Framebuffers => source == Swapchain || source == DepthBuffer || source == RenderPass
    case DescriptorSets => source == DescriptorPool
    case _ => false
  }

  /** Each order names every member exactly once, and teardown is the build order reversed. */
  lemma TeardownReversesBuild(m: Member)
    ensures m in BuildOrder && m in TeardownOrder
    ensures |BuildOrder| == |TeardownOrder| == 9
    ensures forall i, j | 0 <= i < j < 9 :: BuildOrder[i] != BuildOrder[j]
    ensures forall i | 0 <= i < 9 :: TeardownOrder[i] == BuildOrder[8 - i]
  {
  }

  /** The build events, one per member in build order. */
  lemma BuildEvents()
    ensures BuiltAll(BuildOrder) == [Built(Swapchain), Built(DepthBuffer), Built(RenderPass), Built(Pipeline),
      Built(DescriptorPool), Built(Framebuffers), Built(UniformBuffers), Built(DescriptorSets), Built(Frames)]
  {
  }

  /** The teardown events, one per member in teardown order. */
  lemma TeardownEvents()
    ensures DestroyedAll(TeardownOrder) == [Destroyed(Frames), Destroyed(DescriptorSets), Destroyed(UniformBuffers),
      Destroyed(Framebuffers), Destroyed(DescriptorPool), Destroyed(Pipeline), Destroyed(RenderPass),
      Destroyed(DepthBuffer), Destroyed(Swapchain)]
  {
  }

  /** Every member is built after everything it is made from. */
  lemma BuildRespectsSources()
    ensures forall i, j | 0 <= i < 9 && 0 <= j < 9 && MadeFrom(BuildOrder[j], BuildOrder[i]) :: i < j
  {
  }

  /** Every member is destroyed before anything it is made from. */
  lemma TeardownRespectsSources()
    ensures forall i, j | 0 <= i < 9 && 0 <= j < 9 && MadeFrom(TeardownOrder[i], TeardownOrder[j]) :: i < j
  {
  }

  /** The swapchain's image views and extent. */
  datatype SwapchainImages = SwapchainImages(imageViews: seq<nat>, extent: Extent)

  /** vk::FramebufferCreateInfo as filled for one image view, with the handle created from it. */
  datatype Framebuffer = Framebuffer(handle: nat, renderPass: nat, attachments: seq<nat>, width: u32, height: u32, layers: nat)

  /** What the window and driver answer while the renderer is (re)initialised. */
  datatype Surface = Surface(
    imageViews: seq<nat>, extent: Extent, depthView: nat, renderPass: nat, setLayout: DescriptorPools.Layout,
    framebufferHandles: seq<nat>, uniformCreated: seq<Allocation>, setHandle: nat -> nat)

  /** The driver created one framebuffer per image view and each uniform buffer allocation has the buffer's size. */
  predicate WellFormedSurface(surface: Surface)
  {
    |surface.framebufferHandles| == |surface.imageViews| &&
    |surface.uniformCreated| == MaxFramesInFlight &&
    forall i | 0 <= i < MaxFramesInFlight :: |surface.uniformCreated[i].contents| == UniformBufferSize
  }

  /**
   * The framebuffer for image view `i`: for the render pass, with that view
   * and the depth buffer as attachments, at the swapchain extent, one layer.
   */
  function FramebufferFor(surface: Surface, i: nat): Framebuffer
    requires WellFormedSurface(surface) && i < |surface.imageViews|
  {
    Framebuffer(surface.framebufferHandles[i], surface.renderPass, [surface.imageViews[i], surface.depthView],
                surface.extent.width, surface.extent.height, 1)
  }

  /** The pool sizes `initializeRenderer` asks for: MaxFramesInFlight uniform buffers and image samplers. */
  function PoolSizes(): seq<DescriptorPools.PoolSize>
  {
    [DescriptorPools.PoolSize(DescriptorPools.UniformBufferDescriptor, ToU32(MaxFramesInFlight)),
     DescriptorPools.PoolSize(DescriptorPools.CombinedImageSampler, ToU32(MaxFramesInFlight))]
  }

  /**
   * The pool built from those sizes hands out exactly MaxFramesInFlight
   * sets, because it was given MaxFramesInFlight pool sizes, so the
   * set-count check never fails.
   */
  lemma PoolGivesOneSetPerFrame(layout: DescriptorPools.Layout)
    ensures DescriptorPools.Allocate(DescriptorPools.NewDescriptorPool(layout, PoolSizes())).descriptorSetCount as int == MaxFramesInFlight
  {
  }

  /**
   * The deferred work queued so far, in queueing order: the texture upload
   * first, then one descriptor update per `initializeRenderer`, so every
   * descriptor update runs after the upload of the texture it binds.
   */
  predicate DeferredHistory(history: seq<DeferredCommand>, initializations: nat)
  {
    |history| == initializations + 1 &&
    history[0] == UploadTexture &&
    forall i | 1 <= i < |history| :: history[i] == UpdateDescriptorSets
  }

  /** Queueing one more descriptor update keeps the history well ordered. */
  lemma HistoryGrows(history: seq<DeferredCommand>, initializations: nat)
    requires DeferredHistory(history, initializations)
    ensures DeferredHistory(history + [UpdateDescriptorSets], initializations + 1)
  {
  }

  /** The next frame slot after `slot`. */
  function NextSlot(slot: nat): nat
  {
    (slot + 1) % MaxFramesInFlight
  }

  /** Consecutive frames use different slots, and every second frame comes back to the same one. */
  lemma SlotsAlternate(slot: nat)
    requires slot < MaxFramesInFlight
    ensures NextSlot(slot) < MaxFramesInFlight && NextSlot(slot) != slot && NextSlot(NextSlot(slot)) == slot
  {
  }

  class Renderer {
    const allocator: Allocator
    /** `extra_commands` */
    const extraCommands: DeferredQueue
    var renderIndex: nat
    var swapchain: Option<SwapchainImages>
    var depthBuffer: Option<nat>
    var renderPass: Option<nat>
    /** The pipeline, as the descriptor-set layout it exposes. */
    var pipeline: Option<DescriptorPools.Layout>
    var descriptorPool: Option<DescriptorPools.DescriptorPool>
    var framebuffers: seq<Framebuffer>
    /** std::array of MaxFramesInFlight owning pointers; null after a reset. */
    var uniformBuffers: seq<VulkanBuffers.Buffer?>
    var descriptorSets: seq<nat>
    /** std::array of MaxFramesInFlight owning pointers; null after a reset. */
    var frames: seq<Recorder?>
    /** Members built and destroyed, in order. */
    ghost var events: seq<LifecycleEvent>
    /** Deferred work the frames have already run, in order. */
    ghost var ran: seq<DeferredCommand>
    ghost var initializations: nat

    /** Everything `initializeRenderer` builds is there; `resize` leaves this state and comes back to it. */
    ghost predicate Valid()
      reads this, extraCommands, frames, uniformBuffers
    {
      renderIndex < MaxFramesInFlight &&
      swapchain.Some? && depthBuffer.Some? && renderPass.Some? && pipeline.Some? && descriptorPool.Some? &&
      |framebuffers| == |swapchain.value.imageViews| &&
      |uniformBuffers| == MaxFramesInFlight && |descriptorSets| == MaxFramesInFlight && |frames| == MaxFramesInFlight &&
      (forall i | 0 <= i < MaxFramesInFlight ::
        frames[i] != null && frames[i].Valid() &&
        uniformBuffers[i] != null && uniformBuffers[i].Valid() && uniformBuffers[i].sizeBytes == UniformBufferSize) &&
      DeferredHistory(ran + extraCommands.pending, initializations)
    }

    /** What `resize` leaves before it reinitialises: every member reset or cleared. */
    ghost predicate TornDown()
      reads this
    {
      swapchain.None? && depthBuffer.None? && renderPass.None? && pipeline.None? && descriptorPool.None? &&
      framebuffers == [] && descriptorSets == [] &&
      |uniformBuffers| == MaxFramesInFlight && |frames| == MaxFramesInFlight &&
      (forall i | 0 <= i < MaxFramesInFlight :: uniformBuffers[i] == null && frames[i] == null)
    }

    /**
     * Every member is the one `initializeRenderer` builds on `surface`: the
     * surface's swapchain, depth buffer, render pass and pipeline layout, a
     * pool over that layout, one framebuffer per image view, the surface's
     * descriptor sets, unmapped uniform buffers over the created allocations,
     * and recorders over distinct command buffers whose fences are signalled.
     */
    ghost predicate BuiltFrom(surface: Surface)
      reads this, frames, uniformBuffers
    {
      WellFormedSurface(surface) &&
      swapchain == Some(SwapchainImages(surface.imageViews, surface.extent)) &&
      depthBuffer == Some(surface.depthView) && renderPass == Some(surface.renderPass) &&
      pipeline == Some(surface.setLayout) &&
      descriptorPool == Some(DescriptorPools.NewDescriptorPool(surface.setLayout, PoolSizes())) &&
      |framebuffers| == |surface.imageViews| &&
      (forall i | 0 <= i < |framebuffers| :: framebuffers[i] == FramebufferFor(surface, i)) &&
      descriptorSets == [surface.setHandle(0), surface.setHandle(1)] &&
      |uniformBuffers| == MaxFramesInFlight && |frames| == MaxFramesInFlight &&
      (forall i | 0 <= i < MaxFramesInFlight ::
        uniformBuffers[i] != null && uniformBuffers[i].usage == {UniformBuffer} &&
        uniformBuffers[i].allocator == allocator && uniformBuffers[i].mappedPtr == NullPtr &&
        uniformBuffers[i].buffer == Live(surface.uniformCreated[i].buffer) &&
        uniformBuffers[i].allocation == Live(surface.uniformCreated[i].allocation)) &&
      (forall i | 0 <= i < MaxFramesInFlight :: frames[i] != null && frames[i].fence == Signalled) &&
      frames[0].commandBuffer != frames[1].commandBuffer
    }

    /** The framebuffer handles, indexed like the swapchain images. */
    function FramebufferHandles(): (hs: seq<nat>)
      reads this
      ensures |hs| == |framebuffers| && forall i | 0 <= i < |hs| :: hs[i] == framebuffers[i].handle
    {
      seq(|framebuffers|, i requires 0 <= i < |framebuffers| reads this => framebuffers[i].handle)
    }

    /**
     * The constructor, past window and device setup: queue the texture
     * upload, then initialise the renderer, which queues the first
     * descriptor update.
     */
    constructor (allocator: Allocator, surface: Surface)
      requires WellFormedSurface(surface)
      ensures Valid() && fresh(extraCommands)
      ensures renderIndex == 0
      ensures extraCommands.pending == [UploadTexture, UpdateDescriptorSets]
      ensures events == BuiltAll(BuildOrder)
      ensures BuiltFrom(surface)
    {
      this.allocator := allocator;
      extraCommands := new DeferredQueue();
      renderIndex := 0;
      swapchain, depthBuffer, renderPass, pipeline, descriptorPool := None, None, None, None, None;
      framebuffers, descriptorSets := [], [];
      uniformBuffers, frames := [null, null], [null, null];
      events, ran, initializations := [], [], 0;
      new;
      extraCommands.Push(UploadTexture);
      InitializeRenderer(surface);
    }

    /**
     * `initializeRenderer`: build the swapchain, depth buffer, render pass,
     * pipeline and descriptor pool; one framebuffer per image view;
     * MaxFramesInFlight uniform buffers; the descriptor sets, whose count
     * must be MaxFramesInFlight; queue the descriptor update; and one
     * Recorder per frame slot, each over its own new command buffer.
     */
    method InitializeRenderer(surface: Surface)
      requires TornDown() && WellFormedSurface(surface)
      requires renderIndex < MaxFramesInFlight
      requires DeferredHistory(ran + extraCommands.pending, initializations)
      modifies this, extraCommands
      ensures Valid()
      ensures renderIndex == old(renderIndex) && ran == old(ran) && initializations == old(initializations) + 1
      ensures extraCommands.pending == old(extraCommands.pending) + [UpdateDescriptorSets]
      ensures events == old(events) + BuiltAll(BuildOrder)
      ensures BuiltFrom(surface)
      ensures forall i | 0 <= i < MaxFramesInFlight ::
        fresh(uniformBuffers[i]) && fresh(frames[i]) && fresh(frames[i].commandBuffer)
    {
      BuildSurfaceResources(surface);
      BuildImageResources(surface);

      QueueDescriptorUpdate();
      BuildFrames();
      BuildEvents();
    }

    /** Queue the descriptor update that binds the new uniform buffers and the texture to the new sets. */
    method QueueDescriptorUpdate()
      requires DeferredHistory(ran + extraCommands.pending, initializations)
      modifies extraCommands, this`initializations
      ensures DeferredHistory(ran + extraCommands.pending, initializations)
      ensures extraCommands.pending == old(extraCommands.pending) + [UpdateDescriptorSets]
      ensures initializations == old(initializations) + 1
    {
      ghost var history := ran + extraCommands.pending;
      extraCommands.Push(UpdateDescriptorSets);
      HistoryGrows(history, initializations);
      assert ran + extraCommands.pending == history + [UpdateDescriptorSets];
      initializations := initializations + 1;
    }

    /** The first half of `initializeRenderer`: the swapchain and the members made from it, oldest first. */
    method BuildSurfaceResources(surface: Surface)
      modifies this`swapchain, this`depthBuffer, this`renderPass, this`pipeline, this`descriptorPool, this`events
      ensures swapchain == Some(SwapchainImages(surface.imageViews, surface.extent))
      ensures depthBuffer == Some(surface.depthView) && renderPass == Some(surface.renderPass)
      ensures pipeline == Some(surface.setLayout)
      ensures descriptorPool == Some(DescriptorPools.NewDescriptorPool(surface.setLayout, PoolSizes()))
      ensures events == old(events) +
        [Built(Swapchain), Built(DepthBuffer), Built(RenderPass), Built(Pipeline), Built(DescriptorPool)]
    {
      swapchain := Some(SwapchainImages(surface.imageViews, surface.extent));
      events := events + [Built(Swapchain)];
      depthBuffer := Some(surface.depthView);
      events := events + [Built(DepthBuffer)];
      renderPass := Some(surface.renderPass);
      events := events + [Built(RenderPass)];
      pipeline := Some(surface.setLayout);
      events := events + [Built(Pipeline)];
      descriptorPool := Some(DescriptorPools.NewDescriptorPool(pipeline.value, PoolSizes()));
      events := events + [Built(DescriptorPool)];
    }

    /**
     * The framebuffers, uniform buffers and descriptor sets, in that order;
     * the descriptor pool hands out MaxFramesInFlight sets, so the set-count
     * check passes.
     */
    method BuildImageResources(surface: Surface)
      requires WellFormedSurface(surface) && |uniformBuffers| == MaxFramesInFlight
      requires descriptorPool == Some(DescriptorPools.NewDescriptorPool(surface.setLayout, PoolSizes()))
      modifies this`framebuffers, this`uniformBuffers, this`descriptorSets, this`events
      ensures |framebuffers| == |surface.imageViews| &&
        forall i | 0 <= i < |framebuffers| :: framebuffers[i] == FramebufferFor(surface, i)
      ensures |uniformBuffers| == MaxFramesInFlight
      ensures forall i | 0 <= i < MaxFramesInFlight ::
        fresh(uniformBuffers[i]) && uniformBuffers[i].Valid() && uniformBuffers[i].sizeBytes == UniformBufferSize &&
        uniformBuffers[i].usage == {UniformBuffer} && uniformBuffers[i].allocator == allocator &&
        uniformBuffers[i].buffer == Live(surface.uniformCreated[i].buffer) &&
        uniformBuffers[i].allocation == Live(surface.uniformCreated[i].allocation) &&
        uniformBuffers[i].mappedPtr == NullPtr
      ensures descriptorSets == [surface.setHandle(0), surface.setHandle(1)]
      ensures events == old(events) + [Built(Framebuffers), Built(UniformBuffers), Built(DescriptorSets)]
    {
      BuildFramebuffers(surface);
      events := events + [Built(Framebuffers)];

      BuildUniformBuffers(surface);
      events := events + [Built(UniformBuffers)];

      var info := DescriptorPools.Allocate(descriptorPool.value);
      var count := info.descriptorSetCount as int;
      descriptorSets := seq(count, i requires 0 <= i < count => surface.setHandle(i));
      PoolGivesOneSetPerFrame(surface.setLayout);
      assert |descriptorSets| == MaxFramesInFlight;
      events := events + [Built(DescriptorSets)];
    }

    /** One framebuffer per swapchain image view, in order. */
    method BuildFramebuffers(surface: Surface)
      requires WellFormedSurface(surface)
      modifies this`framebuffers
      ensures |framebuffers| == |surface.imageViews| &&
        forall i | 0 <= i < |framebuffers| :: framebuffers[i] == FramebufferFor(surface, i)
    {
      framebuffers := [];
      for i := 0 to |surface.imageViews|
        invariant |framebuffers| == i
        invariant forall k | 0 <= k < i :: framebuffers[k] == FramebufferFor(surface, k)
      {
        framebuffers := framebuffers + [FramebufferFor(surface, i)];
      }
    }

    /** A new uniform buffer of sizeof(UniformBuffer) bytes in each frame slot. */
    method BuildUniformBuffers(surface: Surface)
      requires WellFormedSurface(surface) && |uniformBuffers| == MaxFramesInFlight
      modifies this`uniformBuffers
      ensures |uniformBuffers| == MaxFramesInFlight
      ensures forall i | 0 <= i < MaxFramesInFlight ::
        fresh(uniformBuffers[i]) && uniformBuffers[i].Valid() && uniformBuffers[i].sizeBytes == UniformBufferSize &&
        uniformBuffers[i].usage == {UniformBuffer} && uniformBuffers[i].allocator == allocator &&
        uniformBuffers[i].buffer == Live(surface.uniformCreated[i].buffer) &&
        uniformBuffers[i].allocation == Live(surface.uniformCreated[i].allocation) &&
        uniformBuffers[i].mappedPtr == NullPtr
    {
      for i := 0 to MaxFramesInFlight
        invariant |uniformBuffers| == MaxFramesInFlight
        invariant forall k | 0 <= k < i ::
          fresh(uniformBuffers[k]) && uniformBuffers[k].Valid() && uniformBuffers[k].sizeBytes == UniformBufferSize &&
          uniformBuffers[k].usage == {UniformBuffer} && uniformBuffers[k].allocator == allocator &&
          uniformBuffers[k].buffer == Live(surface.uniformCreated[k].buffer) &&
          uniformBuffers[k].allocation == Live(surface.uniformCreated[k].allocation) &&
          uniformBuffers[k].mappedPtr == NullPtr
      {
        var b := new VulkanBuffers.Buffer(allocator, UniformBufferSize, {UniformBuffer}, surface.uniformCreated[i]);
        uniformBuffers := uniformBuffers[i := b];
      }
    }

    /** MaxFramesInFlight new command buffers, and a Recorder over each in the matching slot. */
    method BuildFrames()
      requires |frames| == MaxFramesInFlight
      modifies this`frames, this`events
      ensures events == old(events) + [Built(Frames)]
      ensures |frames| == MaxFramesInFlight
      ensures forall i | 0 <= i < MaxFramesInFlight ::
        fresh(frames[i]) && fresh(frames[i].commandBuffer) && frames[i].fence == Signalled && frames[i].Valid()
      ensures frames[0].commandBuffer != frames[1].commandBuffer
    {
      var commandBuffers: seq<CommandBuffer> := [];
      for i := 0 to MaxFramesInFlight
        invariant |commandBuffers| == i
        invariant forall k | 0 <= k < i :: fresh(commandBuffers[k])
        invariant forall k, l | 0 <= k < l < i :: commandBuffers[k] != commandBuffers[l]
        modifies {}
      {
        var c := new CommandBuffer();
        commandBuffers := commandBuffers + [c];
      }
      for i := 0 to MaxFramesInFlight
        invariant |frames| == MaxFramesInFlight
        invariant forall k | 0 <= k < i ::
          fresh(frames[k]) && frames[k].commandBuffer == commandBuffers[k] && frames[k].fence == Signalled && frames[k].Valid()
        modifies this`frames
      {
        var r := new Recorder(commandBuffers[i]);
        frames := frames[i := r];
      }
      events := events + [Built(Frames)];
    }

    /**
     * The teardown in `resize`: reset the frames, clear the descriptor sets,
     * reset the uniform buffers, clear the framebuffers, then reset the
     * descriptor pool, pipeline, render pass, depth buffer and swapchain.
     */
    method Teardown()
      requires |frames| == MaxFramesInFlight && |uniformBuffers| == MaxFramesInFlight
      modifies this
      ensures TornDown()
      ensures events == old(events) + DestroyedAll(TeardownOrder)
      ensures renderIndex == old(renderIndex) && ran == old(ran) && initializations == old(initializations)
    {
      ReleaseFrameResources();
      ReleaseSurfaceResources();
      TeardownEvents();
    }

    /** The first half of the teardown: everything kept per frame slot or per swapchain image. */
    method ReleaseFrameResources()
      requires |frames| == MaxFramesInFlight && |uniformBuffers| == MaxFramesInFlight
      modifies this`frames, this`descriptorSets, this`uniformBuffers, this`framebuffers, this`events
      ensures |frames| == MaxFramesInFlight && |uniformBuffers| == MaxFramesInFlight
      ensures forall i | 0 <= i < MaxFramesInFlight :: uniformBuffers[i] == null && frames[i] == null
      ensures descriptorSets == [] && framebuffers == []
      ensures events == old(events) +
        [Destroyed(Frames), Destroyed(DescriptorSets), Destroyed(UniformBuffers), Destroyed(Framebuffers)]
    {
      for i := 0 to MaxFramesInFlight
        invariant |frames| == MaxFramesInFlight && forall k | 0 <= k < i :: frames[k] == null
        modifies this`frames
      {
        frames := frames[i := null];
      }
      events := events + [Destroyed(Frames)];
      descriptorSets := [];
      events := events + [Destroyed(DescriptorSets)];
      for i := 0 to MaxFramesInFlight
        invariant |uniformBuffers| == MaxFramesInFlight && forall k | 0 <= k < i :: uniformBuffers[k] == null
        modifies this`uniformBuffers
      {
        uniformBuffers := uniformBuffers[i := null];
      }
      events := events + [Destroyed(UniformBuffers)];
      framebuffers := [];
      events := events + [Destroyed(Framebuffers)];
    }

    /** The second half of the teardown: the members made from the swapchain, newest first. */
    method ReleaseSurfaceResources()
      modifies this`descriptorPool, this`pipeline, this`renderPass, this`depthBuffer, this`swapchain, this`events
      ensures swapchain.None? && depthBuffer.None? && renderPass.None? && pipeline.None? && descriptorPool.None?
      ensures events == old(events) +
        [Destroyed(DescriptorPool), Destroyed(Pipeline), Destroyed(RenderPass), Destroyed(DepthBuffer), Destroyed(Swapchain)]
    {
      descriptorPool := None;
      events := events + [Destroyed(DescriptorPool)];
      pipeline := None;
      events := events + [Destroyed(Pipeline)];
      renderPass := None;
      events := events + [Destroyed(RenderPass)];
      depthBuffer := None;
      events := events + [Destroyed(DepthBuffer)];
      swapchain := None;
      events := events + [Destroyed(Swapchain)];
    }

    /**
     * `resize`: after waiting out minimisation and for the device to go idle,
     * tear everything down and initialise again on the new surface.
     */
    method Resize(surface: Surface)
      requires Valid() && WellFormedSurface(surface)
      modifies this, extraCommands
      ensures Valid()
      ensures events == old(events) + DestroyedAll(TeardownOrder) + BuiltAll(BuildOrder)
      ensures extraCommands.pending == old(extraCommands.pending) + [UpdateDescriptorSets]
      ensures renderIndex == old(renderIndex) && ran == old(ran)
      ensures BuiltFrom(surface)
      ensures forall i | 0 <= i < MaxFramesInFlight ::
        fresh(uniformBuffers[i]) && fresh(frames[i]) && fresh(frames[i].commandBuffer)
    {
      Teardown();
      InitializeRenderer(surface);
    }

    /**
     * `drawFrame`: copy this frame's light data into the slot's uniform
     * buffer, render with the slot's Recorder and descriptor set, move to the
     * next slot, then return on eSuccess or resize on eErrorOutOfDateKHR.
     * `next` is what the surface answers if a resize happens.
     */
    method DrawFrame(objects: seq<Object>, light: seq<byte>, mapping: MapOutcome, replies: DriverReplies, next: Surface)
      returns (status: Status)
      requires Valid() && WellFormedSurface(next)
      requires |light| == UniformBufferSize
      modifies this, extraCommands, frames[renderIndex], frames[renderIndex].commandBuffer, uniformBuffers[renderIndex]
      ensures status == Done ==> Valid()
      ensures status == Done ==> renderIndex == NextSlot(old(renderIndex))
      ensures old(uniformBuffers[renderIndex].mappedPtr).Address? || MapSucceeded(mapping) ==>
        old(uniformBuffers[renderIndex]).memory == light &&
        old(uniformBuffers[renderIndex]).mappedPtr ==
          (if old(uniformBuffers[renderIndex].mappedPtr).Address? then old(uniformBuffers[renderIndex].mappedPtr)
           else mapping.ptr)
      ensures old(uniformBuffers[renderIndex]).buffer == old(uniformBuffers[renderIndex].buffer) &&
        old(uniformBuffers[renderIndex]).allocation == old(uniformBuffers[renderIndex].allocation) &&
        old(uniformBuffers[renderIndex]).sizeBytes == old(uniformBuffers[renderIndex].sizeBytes)
      ensures (old(uniformBuffers[renderIndex].mappedPtr).Address? || MapSucceeded(mapping)) &&
              Acquired(old(frames[renderIndex].fence), replies) && replies.imageIndex < |old(framebuffers)| ==>
          old(frames[renderIndex].commandBuffer).recorded ==
            FrameCommands(old(extraCommands.pending), old(framebuffers)[replies.imageIndex].handle,
                          old(swapchain).value.extent, objects, old(descriptorSets)[old(renderIndex)])
      ensures var outcome := RenderOutcome(old(frames[renderIndex].fence), replies, |old(framebuffers)|);
        (old(uniformBuffers[renderIndex].mappedPtr).Address? || MapSucceeded(mapping)) ==>
          (status == Done <==> outcome.Ok?) &&
          (outcome == Ok(Success) ==>
            events == old(events) && swapchain == old(swapchain) &&
            depthBuffer == old(depthBuffer) && renderPass == old(renderPass) && pipeline == old(pipeline) &&
            descriptorPool == old(descriptorPool) && framebuffers == old(framebuffers) &&
            uniformBuffers == old(uniformBuffers) && descriptorSets == old(descriptorSets) &&
            frames == old(frames) && frames[old(renderIndex)].fence == Signalled &&
            extraCommands.pending == [] && ran == old(ran) + old(extraCommands.pending)) &&
          (outcome == Ok(ErrorOutOfDateKHR) ==>
            events == old(events) + DestroyedAll(TeardownOrder) + BuiltAll(BuildOrder) &&
            BuiltFrom(next) &&
            (forall i | 0 <= i < MaxFramesInFlight ::
              fresh(uniformBuffers[i]) && fresh(frames[i]) && fresh(frames[i].commandBuffer)) &&
            extraCommands.pending ==
              (if Acquired(old(frames[renderIndex].fence), replies) then [] else old(extraCommands.pending)) +
              [UpdateDescriptorSets])
      ensures !old(uniformBuffers[renderIndex].mappedPtr).Address? && !MapSucceeded(mapping) ==> status.Fatal?
    {
      status := WriteUniform(light, mapping);
      if status.Fatal? {
        return;
      }
      var result := RenderSlot(objects, replies);
      if result.Err? {
        return Fatal(result.reason);
      }
      renderIndex := NextSlot(renderIndex);
      RenderResults(old(frames[renderIndex].fence), replies, |framebuffers|);
      if result.value == Success {
        return Done;
      }
      assert result.value == ErrorOutOfDateKHR;
      Resize(next);
      status := Done;
    }

    /** The memcpy of this frame's light data into the current slot's uniform buffer, through its mapped pointer. */
    method WriteUniform(light: seq<byte>, mapping: MapOutcome) returns (status: Status)
      requires Valid() && |light| == UniformBufferSize
      modifies uniformBuffers[renderIndex]
      ensures Valid()
      ensures status == Done <==> old(uniformBuffers[renderIndex].mappedPtr).Address? || MapSucceeded(mapping)
      ensures status == Done ==> uniformBuffers[renderIndex].memory == light
      ensures uniformBuffers[renderIndex].mappedPtr ==
        if status == Done && old(uniformBuffers[renderIndex].mappedPtr).NullPtr? then mapping.ptr
        else old(uniformBuffers[renderIndex].mappedPtr)
      ensures status != Done ==> uniformBuffers[renderIndex].memory == old(uniformBuffers[renderIndex].memory)
      ensures uniformBuffers[renderIndex].buffer == old(uniformBuffers[renderIndex].buffer) &&
        uniformBuffers[renderIndex].allocation == old(uniformBuffers[renderIndex].allocation) &&
        uniformBuffers[renderIndex].allocator == old(uniformBuffers[renderIndex].allocator) &&
        uniformBuffers[renderIndex].usage == old(uniformBuffers[renderIndex].usage) &&
        uniformBuffers[renderIndex].sizeBytes == old(uniformBuffers[renderIndex].sizeBytes)
    {
      var uniform := uniformBuffers[renderIndex];
      var pointer;
      status, pointer := uniform.GetMappedPtr(mapping);
      if status == Done {
        uniform.memory := light;
      }
    }

    /**
     * `render` on the current slot's Recorder, with every framebuffer, the
     * swapchain extent and the slot's descriptor set; the deferred work it
     * runs joins the history.
     */
    method RenderSlot(objects: seq<Object>, replies: DriverReplies) returns (result: Result<VkResult>)
      requires Valid()
      modifies this`ran, extraCommands, frames[renderIndex], frames[renderIndex].commandBuffer
      ensures result == RenderOutcome(old(frames[renderIndex].fence), replies, |framebuffers|)
      ensures result.Ok? ==> Valid()
      ensures Acquired(old(frames[renderIndex].fence), replies) ==>
        ran == old(ran) + old(extraCommands.pending) && extraCommands.pending == []
      ensures !Acquired(old(frames[renderIndex].fence), replies) ==>
        ran == old(ran) && extraCommands.pending == old(extraCommands.pending)
      ensures result == Ok(Success) ==> frames[renderIndex].fence == Signalled
      ensures Acquired(old(frames[renderIndex].fence), replies) && replies.imageIndex < |framebuffers| ==>
        frames[renderIndex].commandBuffer.recorded ==
          FrameCommands(old(extraCommands.pending), framebuffers[replies.imageIndex].handle,
                        swapchain.value.extent, objects, descriptorSets[renderIndex])
    {
      var frame := frames[renderIndex];
      ghost var history := ran + extraCommands.pending;
      var ranNow, ops;
      result, ranNow, ops := frame.Render(FramebufferHandles(), swapchain.value.extent, descriptorSets[renderIndex],
                                          objects, extraCommands, replies);
      ran := ran + ranNow;
      assert ran + extraCommands.pending == history;
    }
  }

  /**
   * The recorders are rebuilt with signalled fences, so the first frame after
   * construction, and the first after a resize, pass their fence wait
   * whatever the driver would answer.
   */
  method FirstFramesPassFenceWait(allocator: Allocator, surface: Surface, next: Surface, replies: DriverReplies)
    returns (constructed: bool, resized: bool)
    requires WellFormedSurface(surface) && WellFormedSurface(next)
    ensures constructed && resized
  {
    var r := new Renderer(allocator, surface);
    constructed := FirstWaitPasses(r.frames[r.renderIndex].fence, replies);
    r.Resize(next);
    resized := FirstWaitPasses(r.frames[r.renderIndex].fence, replies);
  }
}
