// src/render/recorder.cpp: one frame in flight. A Recorder owns a command
// buffer, two semaphores and a fence, and `render` runs one frame on them:
// wait for the fence, acquire a swapchain image, reset and re-record the
// command buffer, submit, present, and wait for the frame to finish.
//
// The driver's answers (fence waits, acquire, present) are inputs. A fence
// wait is decided by the fence state where Vulkan fixes the answer (a
// signalled fence returns at once). Semaphores appear only as the ones a
// submission or presentation waits on and signals.

module Recorders {
  import opened Common
  import opened Commands
  import opened RenderObjects
  import opened DeferredWork

  datatype FenceState =
    | Signalled
    | Unsignalled
    /** Unsignalled, with a submitted batch that will signal it. */
    | PendingSignal

  /**
   * vkWaitForFences with an unbounded timeout: a signalled fence returns
   * Success at once; for a fence a batch will signal, the driver's `reply`;
   * a fence nothing will signal waits until the timeout.
   */
  function WaitForFence(fence: FenceState, reply: VkResult): (r: VkResult)
    ensures fence == Signalled ==> r == Success
    ensures fence == Unsignalled ==> r == Timeout
  {
    match fence
    case Signalled => Success
    case PendingSignal => reply
    case Unsignalled => Timeout
  }

  datatype Semaphore = ImageAvailable | RenderFinished

  /** Work handed to the render queue. */
  datatype QueueOp =
    | Submit(wait: Semaphore, waitStage: PipelineStage, signal: Semaphore, signalsFence: bool)
    | Present(wait: Semaphore, imageIndex: nat)

  /** What the driver answers during one `render`. */
  datatype DriverReplies = DriverReplies(fenceWait: VkResult, acquire: VkResult, imageIndex: nat,
                                         present: VkResult, frameWait: VkResult)

  /** The first fence wait passes the fatal check. */
  predicate FirstWaitPasses(fence: FenceState, replies: DriverReplies)
  {
    var waited := WaitForFence(fence, replies.fenceWait);
    waited == Success || waited == Timeout
  }

  /** An image was acquired, so the frame is recorded and submitted. */
  predicate Acquired(fence: FenceState, replies: DriverReplies)
  {
    FirstWaitPasses(fence, replies) && replies.acquire == Success
  }

  /**
   * The result of `render`, step by step: a failed first wait is fatal; an
   * out-of-date or suboptimal acquire returns eErrorOutOfDateKHR; any other
   * failed acquire is fatal; an image index without a framebuffer throws;
   * an out-of-date present returns eErrorOutOfDateKHR and any other present
   * error is fatal; the last wait must succeed.
   */
  function RenderOutcome(fence: FenceState, replies: DriverReplies, framebufferCount: nat): Result<VkResult>
  {
    if !FirstWaitPasses(fence, replies) then Err(FenceWaitFailed)
    else if replies.acquire == ErrorOutOfDateKHR || replies.acquire == SuboptimalKHR then Ok(ErrorOutOfDateKHR)
    else if replies.acquire != Success then Err(AcquireFailed)
    else if replies.imageIndex >= framebufferCount then Err(IndexOutOfRange)
    else if replies.present == ErrorOutOfDateKHR then Ok(ErrorOutOfDateKHR)
    else if replies.present != Success && replies.present != SuboptimalKHR then Err(PresentFailed)
    else if WaitForFence(PendingSignal, replies.frameWait) != Success then Err(FenceWaitFailed)
    else Ok(Success)
  }

  /** `render` returns only eSuccess or eErrorOutOfDateKHR; every other way out is fatal. */
  lemma RenderResults(fence: FenceState, replies: DriverReplies, framebufferCount: nat)
    ensures var r := RenderOutcome(fence, replies, framebufferCount);
      r.Ok? ==> r.value == Success || r.value == ErrorOutOfDateKHR
    ensures RenderOutcome(fence, replies, framebufferCount) == Ok(Success) <==>
      Acquired(fence, replies) && replies.imageIndex < framebufferCount &&
      (replies.present == Success || replies.present == SuboptimalKHR) && replies.frameWait == Success
  {
  }

  /** On a signalled fence the first wait returns at once: what the driver would answer plays no part. */
  lemma SignalledFenceDoesNotBlock(replies: DriverReplies, reply: VkResult, framebufferCount: nat)
    ensures RenderOutcome(Signalled, replies, framebufferCount) ==
            RenderOutcome(Signalled, replies.(fenceWait := reply), framebufferCount)
    ensures FirstWaitPasses(Signalled, replies)
  {
  }

  /** The commands of one object: bind its buffers, push its constants, bind the descriptor set, draw. */
  function ObjectCommands(o: Object, k: nat, descriptorSet: nat): seq<Command>
  {
    o.BindCommands() + [PushConstants(k), BindDescriptorSets(0, descriptorSet)] + [o.DrawCommand()]
  }

  /** The commands of `objects` in order. */
  function DrawList(objects: seq<Object>, descriptorSet: nat): seq<Command>
    decreases |objects|
  {
    if objects == [] then []
    else
      var n := |objects| - 1;
      assert objects[..n] + [objects[n]] == objects;
      DrawList(objects[..n], descriptorSet) + ObjectCommands(objects[n], n, descriptorSet)
  }

  /** What one recorded frame holds: the deferred work, then the render pass over every object. */
  function FrameCommands(ran: seq<DeferredCommand>, framebuffer: nat, extent: Extent,
                         objects: seq<Object>, descriptorSet: nat): seq<Command>
  {
    CommandsOfAll(ran) + [BeginRenderPass(framebuffer, extent), BindPipeline] +
    DrawList(objects, descriptorSet) + [EndRenderPass]
  }

  class Recorder {
    const commandBuffer: CommandBuffer
    var fence: FenceState

    /** Between frames the fence is signalled or about to be: a wait on it never hangs. */
    ghost predicate Valid()
      reads this
    {
      fence != Unsignalled
    }

    /** Takes the command buffer; the fence is created signalled. */
    constructor (commandBuffer: CommandBuffer)
      ensures this.commandBuffer == commandBuffer && fence == Signalled
      ensures Valid()
    {
      this.commandBuffer := commandBuffer;
      fence := Signalled;
    }

    /** Bind, push constants, bind the descriptor set and draw, for one object. */
    method RecordObject(o: Object, k: nat, descriptorSet: nat)
      modifies commandBuffer`recorded
      ensures commandBuffer.recorded == old(commandBuffer.recorded) + ObjectCommands(o, k, descriptorSet)
    {
      o.Bind(commandBuffer);
      commandBuffer.recorded := commandBuffer.recorded + [PushConstants(k), BindDescriptorSets(0, descriptorSet)];
      o.Draw(commandBuffer);
    }

    /**
     * Records the draw commands of `objects`, in order, after what the
     * command buffer already holds.
     */
    method RecordObjects(objects: seq<Object>, descriptorSet: nat)
      modifies commandBuffer`recorded
      ensures commandBuffer.recorded == old(commandBuffer.recorded) + DrawList(objects, descriptorSet)
    {
      ghost var before := commandBuffer.recorded;
      for k := 0 to |objects|
        invariant commandBuffer.recorded == before + DrawList(objects[..k], descriptorSet)
      {
        assert objects[..k + 1][..k] == objects[..k];
        RecordObject(objects[k], k, descriptorSet);
      }
      assert objects[..|objects|] == objects;
    }

    /**
     * Runs every queued deferred command, front to back, on this command
     * buffer, popping each one; `ran` is what ran, in order.
     */
    method DrainQueue(queue: DeferredQueue) returns (ran: seq<DeferredCommand>)
      modifies queue, commandBuffer`recorded
      ensures ran == old(queue.pending) && queue.pending == []
      ensures commandBuffer.recorded == old(commandBuffer.recorded) + CommandsOfAll(ran)
    {
      ran := [];
      while |queue.pending| > 0
        invariant ran + queue.pending == old(queue.pending)
        invariant commandBuffer.recorded == old(commandBuffer.recorded) + CommandsOfAll(ran)
        decreases |queue.pending|
      {
        var d := queue.pending[0];
        commandBuffer.recorded := commandBuffer.recorded + CommandsOf(d);
        CommandsOfAllAppend(ran, d);
        ran := ran + [d];
        queue.pending := queue.pending[1..];
      }
    }

    /**
     * After a successful acquire: reset the command buffer, begin it and run
     * the deferred work into it.
     */
    method BeginFrame(queue: DeferredQueue) returns (ran: seq<DeferredCommand>)
      modifies commandBuffer, queue
      ensures ran == old(queue.pending) && queue.pending == []
      ensures commandBuffer.state == Recording && commandBuffer.recorded == CommandsOfAll(ran)
    {
      commandBuffer.Reset();
      commandBuffer.Begin();
      ran := DrainQueue(queue);
    }

    /** The render pass on `framebuffer` over every object, then the end of recording. */
    method RecordRenderPass(framebuffer: nat, extent: Extent, objects: seq<Object>, descriptorSet: nat)
      requires commandBuffer.state == Recording
      modifies commandBuffer
      ensures commandBuffer.state == Executable
      ensures commandBuffer.recorded == old(commandBuffer.recorded) +
        [BeginRenderPass(framebuffer, extent), BindPipeline] + DrawList(objects, descriptorSet) + [EndRenderPass]
    {
      commandBuffer.recorded := commandBuffer.recorded + [BeginRenderPass(framebuffer, extent), BindPipeline];
      RecordObjects(objects, descriptorSet);
      commandBuffer.recorded := commandBuffer.recorded + [EndRenderPass];
      commandBuffer.End();
    }

    /**
     * `render`: one frame. `ran` is the deferred work it drained and `ops`
     * what it handed to the render queue.
     */
    method Render(framebuffers: seq<nat>, extent: Extent, descriptorSet: nat, objects: seq<Object>,
                  queue: DeferredQueue, replies: DriverReplies)
      returns (result: Result<VkResult>, ran: seq<DeferredCommand>, ops: seq<QueueOp>)
      requires Valid()
      modifies this`fence, commandBuffer, queue
      ensures result == RenderOutcome(old(fence), replies, |framebuffers|)
      ensures result.Ok? ==> Valid()
      ensures result == Ok(Success) ==> fence == Signalled
      ensures !Acquired(old(fence), replies) ==>
        ran == [] && ops == [] && unchanged(commandBuffer, queue) &&
        fence == (if WaitForFence(old(fence), replies.fenceWait) == Success then Signalled else old(fence))
      ensures Acquired(old(fence), replies) ==> ran == old(queue.pending) && queue.pending == []
      ensures Acquired(old(fence), replies) && replies.imageIndex < |framebuffers| ==>
        commandBuffer.state == Executable &&
        commandBuffer.recorded == FrameCommands(ran, framebuffers[replies.imageIndex], extent, objects, descriptorSet) &&
        ops == [Submit(ImageAvailable, ColorAttachmentOutput, RenderFinished, true),
                Present(RenderFinished, replies.imageIndex)]
    {
      ran, ops := [], [];
      var waited := WaitForFence(fence, replies.fenceWait);
      if waited == Success {
        fence := Signalled;
      }
      if waited != Success && waited != Timeout {
        return Err(FenceWaitFailed), ran, ops;
      }

      if replies.acquire == ErrorOutOfDateKHR || replies.acquire == SuboptimalKHR {
        return Ok(ErrorOutOfDateKHR), ran, ops;
      }
      if replies.acquire != Success {
        return Err(AcquireFailed), ran, ops;
      }

      fence := Unsignalled;
      ran := BeginFrame(queue);
      if replies.imageIndex >= |framebuffers| {
        return Err(IndexOutOfRange), ran, ops;
      }
      RecordRenderPass(framebuffers[replies.imageIndex], extent, objects, descriptorSet);

      ops := [Submit(ImageAvailable, ColorAttachmentOutput, RenderFinished, true)];
      fence := PendingSignal;

      ops := ops + [Present(RenderFinished, replies.imageIndex)];
      if replies.present == ErrorOutOfDateKHR {
        return Ok(ErrorOutOfDateKHR), ran, ops;
      }
      if replies.present != Success && replies.present != SuboptimalKHR {
        return Err(PresentFailed), ran, ops;
      }

      if WaitForFence(fence, replies.frameWait) != Success {
        return Err(FenceWaitFailed), ran, ops;
      }
      fence := Signalled;
      result := Ok(Success);
    }
  }

  /** The draw commands among `cmds`, in order. */
  function Draws(cmds: seq<Command>): seq<Command>
    decreases |cmds|
  {
    if cmds == [] then []
    else Draws(cmds[..|cmds| - 1]) + if cmds[|cmds| - 1].Draw? || cmds[|cmds| - 1].DrawIndexed? then [cmds[|cmds| - 1]] else []
  }

  /** Commands that are not draws contribute no draws. */
  lemma {:induction false} NoDraws(cmds: seq<Command>)
    requires forall i | 0 <= i < |cmds| :: !cmds[i].Draw? && !cmds[i].DrawIndexed?
    ensures Draws(cmds) == []
    decreases |cmds|
  {
    if cmds != [] {
      NoDraws(cmds[..|cmds| - 1]);
    }
  }

  lemma {:induction false} DrawsAppend(a: seq<Command>, b: seq<Command>)
    ensures Draws(a + b) == Draws(a) + Draws(b)
    decreases |b|
  {
    if b != [] {
      var n := |b| - 1;
      assert (a + b)[..|a + b| - 1] == a + b[..n];
      DrawsAppend(a, b[..n]);
    } else {
      assert a + b == a;
    }
  }

  lemma {:induction false} DeferredDrawsNothing(ran: seq<DeferredCommand>)
    ensures Draws(CommandsOfAll(ran)) == []
    decreases |ran|
  {
    if ran != [] {
      var n := |ran| - 1;
      DeferredDrawsNothing(ran[..n]);
      DrawsAppend(CommandsOfAll(ran[..n]), CommandsOf(ran[n]));
      NoDraws(CommandsOf(ran[n]));
    }
  }

  /** The draw commands of `objects`, one per object, in order. */
  function DrawCommands(objects: seq<Object>): (cmds: seq<Command>)
    ensures |cmds| == |objects|
    ensures forall k | 0 <= k < |objects| :: cmds[k] == objects[k].DrawCommand()
  {
    seq(|objects|, k requires 0 <= k < |objects| => objects[k].DrawCommand())
  }

  lemma DrawCommandsLast(objects: seq<Object>)
    requires objects != []
    ensures DrawCommands(objects) == DrawCommands(objects[..|objects| - 1]) + [objects[|objects| - 1].DrawCommand()]
  {
    var n := |objects| - 1;
    var rhs := DrawCommands(objects[..n]) + [objects[n].DrawCommand()];
    forall k | 0 <= k < |objects|
      ensures DrawCommands(objects)[k] == rhs[k]
    {
      if k < n {
        assert objects[..n][k] == objects[k];
      }
    }
  }

  /** An object contributes exactly its own draw command. */
  lemma ObjectDrawsOnce(o: Object, k: nat, descriptorSet: nat)
    ensures Draws(ObjectCommands(o, k, descriptorSet)) == [o.DrawCommand()]
  {
    var front := o.BindCommands() + [PushConstants(k), BindDescriptorSets(0, descriptorSet)];
    DrawsAppend(front, [o.DrawCommand()]);
    NoDraws(front);
    assert [o.DrawCommand()][..0] == [];
  }

  /** The draws of a draw list are the objects' own draw commands, one per object, in order. */
  lemma {:induction false} DrawListDraws(objects: seq<Object>, descriptorSet: nat)
    ensures Draws(DrawList(objects, descriptorSet)) == DrawCommands(objects)
    decreases |objects|
  {
    if objects != [] {
      var n := |objects| - 1;
      DrawListDraws(objects[..n], descriptorSet);
      DrawsAppend(DrawList(objects[..n], descriptorSet), ObjectCommands(objects[n], n, descriptorSet));
      ObjectDrawsOnce(objects[n], n, descriptorSet);
      DrawCommandsLast(objects);
    }
  }

  /**
   * In a recorded frame the deferred work draws nothing, and each object is
   * drawn exactly once, in order.
   */
  lemma FrameDraws(ran: seq<DeferredCommand>, framebuffer: nat, extent: Extent,
                   objects: seq<Object>, descriptorSet: nat)
    ensures Draws(FrameCommands(ran, framebuffer, extent, objects, descriptorSet)) == DrawCommands(objects)
  {
    var pre := CommandsOfAll(ran) + [BeginRenderPass(framebuffer, extent), BindPipeline];
    var list := DrawList(objects, descriptorSet);
    DrawsAppend(pre + list, [EndRenderPass]);
    DrawsAppend(pre, list);
    DrawsAppend(CommandsOfAll(ran), [BeginRenderPass(framebuffer, extent), BindPipeline]);
    DeferredDrawsNothing(ran);
    DrawListDraws(objects, descriptorSet);
    NoDraws([BeginRenderPass(framebuffer, extent), BindPipeline]);
    NoDraws([EndRenderPass]);
  }
}
