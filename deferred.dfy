// src/render/renderer.cpp: the work the renderer defers to the next
// recorded frame. Its `extra_commands` queue holds closures over a command
// buffer; there are two kinds. The constructor queues the texture upload
// (lines 53-136) and every `initializeRenderer` queues the descriptor-set
// update (lines 359-410).

module DeferredWork {
  import opened Common
  import opened Commands

  /** Renderer::MaxFramesInFlight */
  const MaxFramesInFlight: nat := 2

  /** sizeof(UniformBuffer): a vec3 light position, then a 16-byte aligned vec4 light color. */
  const UniformBufferSize: nat := 32

  datatype DeferredCommand = UploadTexture | UpdateDescriptorSets

  /**
   * The commands the texture upload records: move the texture from
   * Undefined to TransferDstOptimal, copy the staging buffer into it, then
   * move it to ShaderReadOnlyOptimal for the fragment shader.
   */
  function TextureUploadCommands(): seq<Command>
  {
    [TransitionLayout(TextureImage, Undefined, TransferDstOptimal, TopOfPipe, TransferStage, NoAccess, TransferWrite),
     CopyBufferToImage(TextureImage),
     TransitionLayout(TextureImage, TransferDstOptimal, ShaderReadOnlyOptimal, TransferStage, FragmentShader, TransferWrite, ShaderRead)]
  }

  /** What running a deferred command records into the command buffer it is given. */
  function CommandsOf(d: DeferredCommand): seq<Command>
  {
    match d
    case UploadTexture => TextureUploadCommands()
    case UpdateDescriptorSets => []
  }

  /** What running `ds` in order records. */
  function CommandsOfAll(ds: seq<DeferredCommand>): seq<Command>
    decreases |ds|
  {
    if ds == [] then [] else CommandsOfAll(ds[..|ds| - 1]) + CommandsOf(ds[|ds| - 1])
  }

  lemma CommandsOfAllAppend(ds: seq<DeferredCommand>, d: DeferredCommand)
    ensures CommandsOfAll(ds + [d]) == CommandsOfAll(ds) + CommandsOf(d)
  {
    assert (ds + [d])[..|ds|] == ds;
  }

  /** The layout a transition leaves the texture in, or `current` for any other command. */
  function LayoutAfter(current: ImageLayout, c: Command): ImageLayout
  {
    if c.TransitionLayout? && c.image == TextureImage then c.to else current
  }

  /**
   * The texture upload is a consistent layout chain: each transition starts
   * from the layout the previous one left, the copy runs while the texture
   * is a transfer destination, and it ends in ShaderReadOnlyOptimal.
   */
  lemma TextureUploadChain()
    ensures var cmds := TextureUploadCommands();
      cmds[0].TransitionLayout? && cmds[0].from == Undefined &&
      cmds[1].CopyBufferToImage? && LayoutAfter(Undefined, cmds[0]) == TransferDstOptimal &&
      cmds[2].TransitionLayout? && cmds[2].from == LayoutAfter(Undefined, cmds[0]) &&
      LayoutAfter(LayoutAfter(LayoutAfter(Undefined, cmds[0]), cmds[1]), cmds[2]) == ShaderReadOnlyOptimal
  {
  }

  /** One write of `vkUpdateDescriptorSets` into a descriptor set of one frame slot. */
  datatype DescriptorWrite =
    | UniformWrite(slot: nat, binding: nat, range: nat)
    | TextureWrite(slot: nat, binding: nat, layout: ImageLayout)

  /** The writes of the descriptor update for slots 0 .. n - 1 in order: the slot's uniform buffer at binding 0, the texture at binding 1. */
  function SlotWrites(n: nat): (ws: seq<DescriptorWrite>)
    ensures |ws| == 2 * n
    ensures forall i | 0 <= i < n ::
      ws[2 * i] == UniformWrite(i, 0, UniformBufferSize) && ws[2 * i + 1] == TextureWrite(i, 1, ShaderReadOnlyOptimal)
  {
    if n == 0 then [] else SlotWrites(n - 1) + [UniformWrite(n - 1, 0, UniformBufferSize), TextureWrite(n - 1, 1, ShaderReadOnlyOptimal)]
  }

  /** What running a deferred command writes into descriptor sets on the device. */
  function DescriptorWrites(d: DeferredCommand): seq<DescriptorWrite>
  {
    match d
    case UploadTexture => []
    case UpdateDescriptorSets => SlotWrites(MaxFramesInFlight)
  }

  /**
   * Every frame slot gets both bindings, and the texture is declared in the
   * layout the upload leaves it in.
   */
  lemma DescriptorUpdateCoversSlots()
    ensures forall slot | 0 <= slot < MaxFramesInFlight ::
      UniformWrite(slot, 0, UniformBufferSize) in DescriptorWrites(UpdateDescriptorSets) &&
      TextureWrite(slot, 1, ShaderReadOnlyOptimal) in DescriptorWrites(UpdateDescriptorSets)
    ensures forall w | w in DescriptorWrites(UpdateDescriptorSets) && w.TextureWrite? ::
      w.layout == TextureUploadCommands()[2].to
  {
    var ws := DescriptorWrites(UpdateDescriptorSets);
    forall slot | 0 <= slot < MaxFramesInFlight
      ensures UniformWrite(slot, 0, UniformBufferSize) in ws && TextureWrite(slot, 1, ShaderReadOnlyOptimal) in ws
    {
      assert ws[2 * slot] == UniformWrite(slot, 0, UniformBufferSize);
      assert ws[2 * slot + 1] == TextureWrite(slot, 1, ShaderReadOnlyOptimal);
    }
  }

  /** The renderer's `extra_commands` queue. */
  class DeferredQueue {
    var pending: seq<DeferredCommand>

    constructor ()
      ensures pending == []
    {
      pending := [];
    }

    /** std::queue::push */
    method Push(d: DeferredCommand)
      modifies this
      ensures pending == old(pending) + [d]
    {
      pending := pending + [d];
    }
  }
}
