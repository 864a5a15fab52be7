/**
 * The calls one frame of VulkanEngine::draw makes, and a checker for the
 * synchronisation rules those calls must respect: the render fence, the
 * present and render semaphores, and the command buffer's lifecycle. The
 * checker follows the usage rules of the Vulkan specification for the
 * objects of one engine: a fence can only be waited on if it is signalled
 * or about to be, and only reset once no submitted work still has to
 * signal it; a command buffer can only be reset or re-recorded once its
 * submission is no longer pending; a semaphore waited on must have a
 * signal pending, and one about to be signalled must not have one already.
 */
module FrameSync {
  import opened VkTypes

  /** The objects a frame uses. */
  datatype FrameObjects = FrameObjects(
    swapchain: Handle,
    queue: Handle,
    commandBuffer: Handle,
    renderPass: Handle,
    pipeline: Handle,
    renderFence: Handle,
    presentSemaphore: Handle,
    renderSemaphore: Handle,
    extent: Extent)

  /** Triangles drawn per frame: one, so three vertices. */
  const TRIANGLE_VERTICES: nat := 3

  /**
   * The calls of one frame that acquires image `imageIndex` and renders
   * into `framebuffer`: wait for and reset the fence, reset the command
   * buffer, acquire (signalling the present semaphore), record the render
   * pass, submit (waiting on the present semaphore at colour-attachment
   * output, signalling the render semaphore and the fence), present
   * (waiting on the render semaphore).
   */
  function FrameCalls(o: FrameObjects, imageIndex: nat, framebuffer: Handle): (calls: seq<Call>)
    ensures |calls| == 12
  {
    [ WaitForFence(o.renderFence),
      ResetFence(o.renderFence),
      ResetCommandBuffer(o.commandBuffer),
      AcquireNextImage(o.swapchain, o.presentSemaphore, imageIndex),
      BeginCommandBuffer(o.commandBuffer),
      BeginRenderPass(o.commandBuffer, o.renderPass, framebuffer, o.extent),
      BindPipeline(o.commandBuffer, o.pipeline),
      DrawVertices(o.commandBuffer, TRIANGLE_VERTICES),
      EndRenderPass(o.commandBuffer),
      EndCommandBuffer(o.commandBuffer),
      QueueSubmit(o.queue, o.commandBuffer, o.presentSemaphore, ColorAttachmentOutput, o.renderSemaphore, o.renderFence),
      QueuePresent(o.queue, o.swapchain, o.renderSemaphore, imageIndex) ]
  }

  /** Which of the frame's calls go through VK_CHECK; the command recordings return nothing. */
  predicate IsCheckedStep(k: nat) {
    k < 5 || 9 <= k
  }

  datatype FenceState = Signaled | Unsignaled | SignalPending

  datatype BufferState = Initial | Recording | Executable | Pending | Invalid

  /**
   * What the checker tracks: the fence, the command buffer, whether a render
   * pass is open, whether each semaphore has a signal pending, and the
   * swapchain image acquired and not yet presented.
   */
  datatype SyncState = SyncState(
    fence: FenceState,
    buffer: BufferState,
    inRenderPass: bool,
    presentPending: bool,
    renderPending: bool,
    acquired: Option<nat>)

  /**
   * One call's effect, or None when the call breaks a rule or touches an
   * object outside the frame. A wait on the fence completes the pending
   * submission; the buffer was recorded for one-time submission, so it
   * becomes invalid rather than executable.
   */
  function Step(o: FrameObjects, s: SyncState, c: Call): Option<SyncState> {
    match c
    case WaitForFence(f) =>
      if f != o.renderFence || s.fence == Unsignaled then None
      else Some(s.(fence := Signaled, buffer := if s.buffer == Pending then Invalid else s.buffer))
    case ResetFence(f) =>
      if f != o.renderFence || s.fence == SignalPending then None
      else Some(s.(fence := Unsignaled))
    case ResetCommandBuffer(b) =>
      if b != o.commandBuffer || s.buffer == Pending then None
      else Some(s.(buffer := Initial, inRenderPass := false))
    case AcquireNextImage(sc, sem, idx) =>
      if sc != o.swapchain || sem != o.presentSemaphore || s.presentPending then None
      else Some(s.(presentPending := true, acquired := Some(idx)))
    case BeginCommandBuffer(b) =>
      if b != o.commandBuffer || s.buffer != Initial then None
      else Some(s.(buffer := Recording))
    case BeginRenderPass(b, _, _, _) =>
      if b != o.commandBuffer || s.buffer != Recording || s.inRenderPass then None
      else Some(s.(inRenderPass := true))
    case BindPipeline(b, _) =>
      if b != o.commandBuffer || s.buffer != Recording then None
      else Some(s)
    case DrawVertices(b, _) =>
      if b != o.commandBuffer || s.buffer != Recording || !s.inRenderPass then None
      else Some(s)
    case EndRenderPass(b) =>
      if b != o.commandBuffer || s.buffer != Recording || !s.inRenderPass then None
      else Some(s.(inRenderPass := false))
    case EndCommandBuffer(b) =>
      if b != o.commandBuffer || s.buffer != Recording || s.inRenderPass then None
      else Some(s.(buffer := Executable))
    case QueueSubmit(_, b, wait, _, signal, f) =>
      if b != o.commandBuffer || wait != o.presentSemaphore || signal != o.renderSemaphore || f != o.renderFence
        || s.buffer != Executable || !s.presentPending || s.renderPending || s.fence != Unsignaled
      then None
      else Some(s.(buffer := Pending, presentPending := false, renderPending := true, fence := SignalPending))
    case QueuePresent(_, sc, wait, idx) =>
      if sc != o.swapchain || wait != o.renderSemaphore || !s.renderPending || s.acquired != Some(idx) then None
      else Some(s.(renderPending := false, acquired := None))
    case _ => None
  }

  /** The calls run one after another from `s`; None as soon as one breaks a rule. */
  function Run(o: FrameObjects, s: SyncState, calls: seq<Call>): Option<SyncState>
    decreases |calls|
  {
    if calls == [] then Some(s)
    else match Step(o, s, calls[0])
      case None => None
      case Some(s1) => Run(o, s1, calls[1..])
  }

  /** Running two call lists back to back is running the first, then the second from where it ended. */
  lemma {:induction false} RunAppend(o: FrameObjects, s: SyncState, a: seq<Call>, b: seq<Call>)
    ensures Run(o, s, a + b) == match Run(o, s, a) case None => None case Some(s1) => Run(o, s1, b)
    decreases |a|
  {
    if a == [] {
      assert a + b == b;
    } else {
      assert (a + b)[0] == a[0];
      assert (a + b)[1..] == a[1..] + b;
      match Step(o, s, a[0])
      case None =>
      case Some(s1) => RunAppend(o, s1, a[1..], b);
    }
  }

  /**
   * Between frames: no render pass open, no semaphore signal pending, no
   * image held, and either the fence is signalled with the buffer not in
   * flight, or the last submission is in flight and will signal the fence.
   */
  predicate ReadyForFrame(s: SyncState) {
    && !s.inRenderPass && !s.presentPending && !s.renderPending && s.acquired.None?
    && ((s.fence == Signaled && s.buffer != Pending) || (s.fence == SignalPending && s.buffer == Pending))
  }

  /** The state right after init_sync_structures: the fence created signalled, the buffer never recorded. */
  const AFTER_INIT := SyncState(Signaled, Initial, false, false, false, None)

  /** The state a frame leaves behind: its submission in flight. */
  const AFTER_FRAME := SyncState(SignalPending, Pending, false, false, false, None)

  /** One successful step, then the rest of the calls. */
  lemma RunStep(o: FrameObjects, s: SyncState, calls: seq<Call>, s1: SyncState)
    requires calls != [] && Step(o, s, calls[0]) == Some(s1)
    ensures Run(o, s, calls) == Run(o, s1, calls[1..])
  {
  }

  /** The first three calls of a frame bring any state between frames to the same one. */
  lemma FramePrologue(o: FrameObjects, s: SyncState, imageIndex: nat, framebuffer: Handle)
    requires ReadyForFrame(s)
    ensures Run(o, s, FrameCalls(o, imageIndex, framebuffer)[..3]) == Some(AFTER_INIT.(fence := Unsignaled))
  {
    var calls := FrameCalls(o, imageIndex, framebuffer);
    var t := calls[..3];
    var s1 := s.(fence := Signaled, buffer := if s.buffer == Pending then Invalid else s.buffer);
    var s2 := s1.(fence := Unsignaled);
    var s3 := AFTER_INIT.(fence := Unsignaled);
    assert t[0] == WaitForFence(o.renderFence);
    RunStep(o, s, t, s1);
    assert t[1..][0] == ResetFence(o.renderFence);
    RunStep(o, s1, t[1..], s2);
    assert t[1..][1..][0] == ResetCommandBuffer(o.commandBuffer);
    RunStep(o, s2, t[1..][1..], s3);
    assert t[1..][1..][1..] == [];
  }

  /** The state once the image is acquired and recording has started. */
  function Recorded(imageIndex: nat): SyncState {
    AFTER_INIT.(fence := Unsignaled, buffer := Recording, presentPending := true, acquired := Some(imageIndex))
  }

  /** Acquire and begin recording. */
  lemma FrameAcquire(o: FrameObjects, imageIndex: nat, framebuffer: Handle)
    ensures Run(o, AFTER_INIT.(fence := Unsignaled), FrameCalls(o, imageIndex, framebuffer)[3..5]) == Some(Recorded(imageIndex))
  {
    var t := FrameCalls(o, imageIndex, framebuffer)[3..5];
    var s3 := AFTER_INIT.(fence := Unsignaled);
    var s4 := s3.(presentPending := true, acquired := Some(imageIndex));
    RunStep(o, s3, t, s4);
    RunStep(o, s4, t[1..], Recorded(imageIndex));
    assert t[1..][1..] == [];
  }

  /** The render pass: begin, bind, draw, end. */
  lemma FrameRenderPass(o: FrameObjects, imageIndex: nat, framebuffer: Handle)
    ensures Run(o, Recorded(imageIndex), FrameCalls(o, imageIndex, framebuffer)[5..9]) == Some(Recorded(imageIndex))
  {
    var t := FrameCalls(o, imageIndex, framebuffer)[5..9];
    var s5 := Recorded(imageIndex);
    var s6 := s5.(inRenderPass := true);
    RunStep(o, s5, t, s6);
    RunStep(o, s6, t[1..], s6);
    RunStep(o, s6, t[1..][1..], s6);
    RunStep(o, s6, t[1..][1..][1..], s5);
    assert t[1..][1..][1..][1..] == [];
  }

  /** End recording, submit and present. */
  lemma FrameSubmit(o: FrameObjects, imageIndex: nat, framebuffer: Handle)
    ensures Run(o, Recorded(imageIndex), FrameCalls(o, imageIndex, framebuffer)[9..]) == Some(AFTER_FRAME)
  {
    var t := FrameCalls(o, imageIndex, framebuffer)[9..];
    var s10 := Recorded(imageIndex).(buffer := Executable);
    var s11 := s10.(buffer := Pending, presentPending := false, renderPending := true, fence := SignalPending);
    RunStep(o, Recorded(imageIndex), t, s10);
    RunStep(o, s10, t[1..], s11);
    RunStep(o, s11, t[1..][1..], AFTER_FRAME);
    assert t[1..][1..][1..] == [];
  }

  /** The rest of a frame, from there, ends with the submission in flight. */
  lemma FrameBody(o: FrameObjects, imageIndex: nat, framebuffer: Handle)
    ensures Run(o, AFTER_INIT.(fence := Unsignaled), FrameCalls(o, imageIndex, framebuffer)[3..]) == Some(AFTER_FRAME)
  {
    var calls := FrameCalls(o, imageIndex, framebuffer);
    FrameAcquire(o, imageIndex, framebuffer);
    FrameRenderPass(o, imageIndex, framebuffer);
    FrameSubmit(o, imageIndex, framebuffer);
    assert calls[3..] == calls[3..5] + (calls[5..9] + calls[9..]);
    RunAppend(o, Recorded(imageIndex), calls[5..9], calls[9..]);
    RunAppend(o, AFTER_INIT.(fence := Unsignaled), calls[3..5], calls[5..9] + calls[9..]);
  }

  /**
   * From any state between frames, a whole frame follows every rule and
   * leaves its submission in flight, ready for the next frame.
   */
  lemma FrameKeepsSync(o: FrameObjects, s: SyncState, imageIndex: nat, framebuffer: Handle)
    requires ReadyForFrame(s)
    ensures Run(o, s, FrameCalls(o, imageIndex, framebuffer)) == Some(AFTER_FRAME)
    ensures ReadyForFrame(AFTER_FRAME)
  {
    var calls := FrameCalls(o, imageIndex, framebuffer);
    FramePrologue(o, s, imageIndex, framebuffer);
    FrameBody(o, imageIndex, framebuffer);
    assert calls == calls[..3] + calls[3..];
    RunAppend(o, s, calls[..3], calls[3..]);
  }

  /** The calls of consecutive frames, each given by its image index and framebuffer. */
  function Frames(o: FrameObjects, frames: seq<(nat, Handle)>): (calls: seq<Call>)
    ensures |calls| == 12 * |frames|
  {
    if frames == [] then []
    else Frames(o, frames[..|frames| - 1]) + FrameCalls(o, frames[|frames| - 1].0, frames[|frames| - 1].1)
  }

  /**
   * Starting from the state init leaves, any number of frames in a row
   * follows every rule; after at least one frame the last submission is
   * in flight.
   */
  lemma {:induction false} FramesKeepSync(o: FrameObjects, frames: seq<(nat, Handle)>)
    ensures Run(o, AFTER_INIT, Frames(o, frames)) == Some(if frames == [] then AFTER_INIT else AFTER_FRAME)
  {
    if frames != [] {
      var init := frames[..|frames| - 1];
      var last := frames[|frames| - 1];
      FramesKeepSync(o, init);
      RunAppend(o, AFTER_INIT, Frames(o, init), FrameCalls(o, last.0, last.1));
      var before := if init == [] then AFTER_INIT else AFTER_FRAME;
      FrameKeepsSync(o, before, last.0, last.1);
    }
  }

  /**
   * The fence must be created signalled: an unsignalled fence makes the
   * very first frame's wait a wait that nothing will ever satisfy.
   */
  lemma UnsignaledFenceBlocksFirstFrame(o: FrameObjects, imageIndex: nat, framebuffer: Handle)
    ensures Run(o, AFTER_INIT.(fence := Unsignaled), FrameCalls(o, imageIndex, framebuffer)).None?
  {
  }

  /**
   * Without the initial wait, the next frame breaks the rules: the fence
   * would be reset while the previous submission still has to signal it.
   */
  lemma SkippingTheWaitBreaksSync(o: FrameObjects, imageIndex: nat, framebuffer: Handle)
    ensures Run(o, AFTER_FRAME, FrameCalls(o, imageIndex, framebuffer)[1..]).None?
  {
    var calls := FrameCalls(o, imageIndex, framebuffer)[1..];
    assert calls[0] == ResetFence(o.renderFence);
  }
}
