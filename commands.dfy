// The commands the core records into a vk::CommandBuffer, and the command
// buffer itself as the list of what has been recorded into it.

module Commands {
  import opened Common

  datatype ImageLayout = Undefined | TransferDstOptimal | ShaderReadOnlyOptimal | DepthStencilAttachmentOptimal | PresentSrcKHR

  datatype PipelineStage = TopOfPipe | TransferStage | FragmentShader | ColorAttachmentOutput

  datatype AccessMask = NoAccess | TransferWrite | ShaderRead

  /** The images the core transitions or copies into. */
  datatype ImageRef = TextureImage | DepthImage

  datatype IndexType = IndexUint32

  /** Width and height of a surface, swapchain or framebuffer. */
  datatype Extent = Extent(width: u32, height: u32)

  datatype Command =
    | CopyBuffer(src: Handle, dst: Handle, srcOffset: nat, dstOffset: nat, size: nat)
    | TransitionLayout(image: ImageRef, from: ImageLayout, to: ImageLayout,
                       srcStage: PipelineStage, dstStage: PipelineStage,
                       srcAccess: AccessMask, dstAccess: AccessMask)
    | CopyBufferToImage(image: ImageRef)
    | BeginRenderPass(framebuffer: nat, extent: Extent)
    | BindPipeline
    | BindVertexBuffers(firstBinding: nat, buffer: Handle, offset: nat)
    | BindIndexBuffer(buffer: Handle, offset: nat, indexType: IndexType)
    | PushConstants(objectIndex: nat)
    | BindDescriptorSets(firstSet: nat, descriptorSet: nat)
    | DrawIndexed(indexCount: u32, instanceCount: nat, firstIndex: nat, vertexOffset: int, firstInstance: nat)
    | Draw(vertexCount: u32, instanceCount: nat, firstVertex: nat, firstInstance: nat)
    | EndRenderPass

  /** Lifecycle state of a command buffer as far as the recorder drives it. */
  datatype RecordingState = Initial | Recording | Executable

  /** A vk::CommandBuffer: its recording state and the commands recorded since the last reset. */
  class CommandBuffer {
    var state: RecordingState
    var recorded: seq<Command>

    constructor ()
      ensures state == Initial && recorded == []
    {
      state := Initial;
      recorded := [];
    }

    /** vkResetCommandBuffer: back to the initial state with nothing recorded. */
    method Reset()
      modifies this
      ensures state == Initial && recorded == []
    {
      state := Initial;
      recorded := [];
    }

    /** vkBeginCommandBuffer */
    method Begin()
      requires state == Initial
      modifies this`state
      ensures state == Recording
    {
      state := Recording;
    }

    /** vkEndCommandBuffer */
    method End()
      requires state == Recording
      modifies this`state
      ensures state == Executable
    {
      state := Executable;
    }
  }
}
