/**
 * VulkanEngine: window and device bring-up in a fixed order, one
 * framebuffer per swapchain image, the render fence and the two
 * semaphores, the triangle pipeline, the per-frame draw sequence and the
 * teardown. Every Vulkan, vk-bootstrap and GLFW call is an entry appended
 * to the host's trace (see VkTypes); a VK_CHECK failure ends the run.
 */
module Engine {
  import opened VkTypes
  import opened Paths
  import Shaders
  import opened FrameSync

  const TRIANGLE_FRAG: string := "res/shaders/triangle.frag"
  const TRIANGLE_VERT: string := "res/shaders/triangle.vert"

  /** The extension switch of the engine's own GLSL loader: ".vert" and ".frag" only. */
  function KindForExtension(ext: string): (kind: Option<ShaderKind>)
    ensures kind.Some? <==> ext == ".vert" || ext == ".frag"
  {
    if ext == ".vert" then Some(VertexShader)
    else if ext == ".frag" then Some(FragmentShader)
    else None
  }

  /**
   * It picks the same kind as the shader utilities' path loader, which goes
   * through a stage first.
   */
  lemma KindForExtensionAgreesWithShaders(ext: string)
    ensures KindForExtension(ext).Some? <==> Shaders.StageForExtension(ext).Some?
    ensures KindForExtension(ext).Some? ==>
      KindForExtension(ext) == Shaders.KindForStage(Shaders.StageForExtension(ext).value)
  {
  }

  /** The fragment shader file of the triangle has the extension ".frag". */
  lemma TriangleFragExtension()
    ensures Extension(TRIANGLE_FRAG) == ".frag"
  {
    assert TRIANGLE_FRAG == "res/shaders/triangle" + "." + "frag";
    ExtensionOfStemAndSuffix("res/shaders/triangle", "frag");
  }

  /** The vertex shader file of the triangle has the extension ".vert". */
  lemma TriangleVertExtension()
    ensures Extension(TRIANGLE_VERT) == ".vert"
  {
    assert TRIANGLE_VERT == "res/shaders/triangle" + "." + "vert";
    ExtensionOfStemAndSuffix("res/shaders/triangle", "vert");
  }

  /**
   * The engine's load_glsl_shader_module: an extension other than ".vert" or
   * ".frag" fails before the file is opened; otherwise the file is read
   * whole, compiled for that kind, and a compile error fails with nothing
   * created; compiled code goes to vkCreateShaderModule, and the output is
   * written only on VK_SUCCESS.
   */
  method LoadGlslShaderModule(host: Host, path: string, out0: Handle) returns (ok: bool, outModule: Handle)
    requires host.Valid()
    modifies host`trace, host`nextHandle
    ensures host.Valid()
    ensures KindForExtension(Extension(path)).None? ==> !ok && outModule == out0 && host.trace == old(host.trace)
    ensures KindForExtension(Extension(path)).Some? ==>
      Shaders.GlslLoaded(host, old(host.trace), old(host.nextHandle), path, KindForExtension(Extension(path)).value, out0, ok, outModule)
    ensures KindForExtension(Extension(path)).Some? ==> |old(host.trace)| < |host.trace| && host.trace[|old(host.trace)|] == OpenFile(path)
    ensures ok ==> KindForExtension(Extension(path)).Some? && Shaders.CompileFile(host, path, KindForExtension(Extension(path)).value).Compiled?
    ensures ShaderCallsAppended(old(host.trace), host.trace)
  {
    ok, outModule := false, out0;
    var kind := KindForExtension(Extension(path));
    if kind.None? {
      return;
    }
    var source := host.Open(path);
    if source.None? {
      return;
    }
    var compiled := host.glslc(source.value, kind.value);
    if compiled.None? {
      return;
    }
    ok, outModule := Shaders.CompileShaderModule(host, compiled.value, out0);
  }

  /**
   * The VkGraphicsPipelineCreateInfo of the engine's PipelineBuilder::build_pipeline:
   * its stages and vertex input, one static viewport and one static
   * scissor, no depth-stencil state, no dynamic state, subpass 0 of the
   * given render pass, and no dynamic-rendering formats.
   */
  function LegacyPipelineInfo(stages: seq<ShaderStageInfo>, vertexInput: VertexInputState, layout: Handle, pass: Handle): GraphicsPipelineInfo {
    GraphicsPipelineInfo(stages, vertexInput, 1, 1, None, [], layout, pass, 0, [], FORMAT_UNDEFINED)
  }

  /** build_pipeline: one vkCreateGraphicsPipelines call; the pipeline on success, the null handle otherwise. */
  method BuildLegacyPipeline(host: Host, info: GraphicsPipelineInfo) returns (pipeline: Handle)
    requires host.Valid()
    modifies host`trace, host`nextHandle
    ensures host.Valid() && host.nextHandle == old(host.nextHandle) + 1
    ensures host.trace == old(host.trace) + [CreateGraphicsPipeline(info, old(host.nextHandle))]
    ensures pipeline == if host.succeeds(|old(host.trace)|) then old(host.nextHandle) else NullHandle
  {
    var created := host.Fresh();
    var ok := host.Invoke(CreateGraphicsPipeline(info, created));
    pipeline := if ok then created else NullHandle;
  }

  /** The triangle: vertex stage first, then fragment, no vertex input. */
  function TrianglePipelineInfo(vertexShader: Handle, fragmentShader: Handle, layout: Handle, pass: Handle): GraphicsPipelineInfo {
    LegacyPipelineInfo(
      [ShaderStageInfo(STAGE_VERTEX, vertexShader), ShaderStageInfo(STAGE_FRAGMENT, fragmentShader)],
      VertexInputState([], []), layout, pass)
  }

  /** The calls init_pipelines can make. */
  predicate PipelineStepCall(c: Call) {
    c.OpenFile? || c.CreateShaderModule? || c.CreatePipelineLayout? || c.CreateGraphicsPipeline? || c.Abort?
  }

  /** Trace t is trace t0 followed by file opens and shader-module creations only. */
  ghost predicate ShaderCallsAppended(t0: seq<Call>, t: seq<Call>) {
    && |t0| <= |t| && t[..|t0|] == t0
    && forall i :: |t0| <= i < |t| ==> t[i].OpenFile? || t[i].CreateShaderModule?
  }

  /** Trace t is trace t0 followed by calls init_pipelines can make only. */
  ghost predicate PipelineCallsAppended(t0: seq<Call>, t: seq<Call>) {
    && |t0| <= |t| && t[..|t0|] == t0
    && forall i :: |t0| <= i < |t| ==> PipelineStepCall(t[i])
  }

  /** Two rounds of shader loading are shader loading, and keep the first call after t0. */
  lemma ShaderCallsAppendedTrans(t0: seq<Call>, t1: seq<Call>, t2: seq<Call>)
    requires ShaderCallsAppended(t0, t1) && ShaderCallsAppended(t1, t2)
    ensures ShaderCallsAppended(t0, t2)
    ensures |t0| < |t1| ==> t2[|t0|] == t1[|t0|]
  {
    forall i | |t0| <= i < |t2|
      ensures t2[i].OpenFile? || t2[i].CreateShaderModule?
    {
      if i < |t1| {
        assert t2[i] == t2[..|t1|][i];
      }
    }
    assert t2[..|t0|] == t2[..|t1|][..|t0|];
    if |t0| < |t1| {
      assert t2[|t0|] == t2[..|t1|][|t0|];
    }
  }

  /** Shader loading followed by further pipeline calls is pipeline calls only. */
  lemma PipelineCallsAppendedAfterShaders(t0: seq<Call>, t1: seq<Call>, t2: seq<Call>)
    requires ShaderCallsAppended(t0, t1) && PipelineCallsAppended(t1, t2)
    ensures PipelineCallsAppended(t0, t2)
  {
    forall i | |t0| <= i < |t2|
      ensures PipelineStepCall(t2[i])
    {
      if i < |t1| {
        assert t2[i] == t2[..|t1|][i];
      }
    }
    assert t2[..|t0|] == t2[..|t1|][..|t0|];
  }

  /** `n` fresh handles in a row. */
  method FreshHandles(host: Host, n: nat) returns (hs: seq<Handle>)
    requires host.Valid()
    modifies host`nextHandle
    ensures host.Valid() && host.nextHandle == old(host.nextHandle) + n
    ensures |hs| == n && forall i :: 0 <= i < n ==> hs[i] == old(host.nextHandle) + i
  {
    hs := [];
    while |hs| < n
      invariant host.Valid() && |hs| <= n && host.nextHandle == old(host.nextHandle) + |hs|
      invariant forall i :: 0 <= i < |hs| ==> hs[i] == old(host.nextHandle) + i
    {
      var h := host.Fresh();
      hs := hs + [h];
    }
  }

  /** One vkCreateFramebuffer per view, the i-th for view i, all on the same render pass and extent. */
  function FramebufferCalls(pass: Handle, views: seq<Handle>, extent: Extent, framebuffers: seq<Handle>): (calls: seq<Call>)
    requires |framebuffers| <= |views|
    ensures |calls| == |framebuffers|
  {
    if framebuffers == [] then []
    else
      var n := |framebuffers| - 1;
      FramebufferCalls(pass, views, extent, framebuffers[..n]) + [CreateFramebuffer(pass, views[n], extent, framebuffers[n])]
  }

  /** Framebuffer i destroyed, then view i, for every framebuffer. */
  function FramebufferDestroyCalls(framebuffers: seq<Handle>, views: seq<Handle>): (calls: seq<Call>)
    requires |framebuffers| <= |views|
    ensures |calls| == 2 * |framebuffers|
  {
    if framebuffers == [] then []
    else
      var n := |framebuffers| - 1;
      FramebufferDestroyCalls(framebuffers[..n], views) + [Destroy(FramebufferObject, framebuffers[n]), Destroy(ImageViewObject, views[n])]
  }

  /** The i-th framebuffer call creates framebuffer i on view i. */
  lemma {:induction false} FramebufferCallsAt(pass: Handle, views: seq<Handle>, extent: Extent, framebuffers: seq<Handle>, i: nat)
    requires |framebuffers| <= |views| && i < |framebuffers|
    ensures FramebufferCalls(pass, views, extent, framebuffers)[i] == CreateFramebuffer(pass, views[i], extent, framebuffers[i])
  {
    var n := |framebuffers| - 1;
    if i < n {
      FramebufferCallsAt(pass, views, extent, framebuffers[..n], i);
    }
  }

  /** Calls 2i and 2i + 1 of the teardown loop destroy framebuffer i and then view i. */
  lemma {:induction false} FramebufferDestroyCallsAt(framebuffers: seq<Handle>, views: seq<Handle>, i: nat)
    requires |framebuffers| <= |views| && i < |framebuffers|
    ensures FramebufferDestroyCalls(framebuffers, views)[2 * i] == Destroy(FramebufferObject, framebuffers[i])
    ensures FramebufferDestroyCalls(framebuffers, views)[2 * i + 1] == Destroy(ImageViewObject, views[i])
  {
    var n := |framebuffers| - 1;
    if i < n {
      FramebufferDestroyCallsAt(framebuffers[..n], views, i);
    }
  }

  /** Which of the engine's steps a call belongs to, in the order init runs them. */
  function InitStep(c: Call): nat {
    match c
    case CreateWindow(_, _) => 0
    case CreateInstance(_, _) => 1
    case CreateSurface(_, _, _) => 1
    case CreateDevice(_, _, _) => 1
    case CreateSwapchain(_, _, _, _, _) => 2
    case CreateCommandPool(_) => 3
    case AllocateCommandBuffer(_, _) => 3
    case CreateRenderPass(_) => 4
    case CreateFramebuffer(_, _, _, _) => 5
    case CreateFence(_, _) => 6
    case CreateSemaphore(_) => 6
    case _ => 7
  }

  /** The calls' steps never go backwards. */
  predicate StepsInOrder(t: seq<Call>) {
    forall i, j :: 0 <= i < j < |t| ==> InitStep(t[i]) <= InitStep(t[j])
  }

  /** Every call's step lies between lo and hi. */
  predicate StepsWithin(t: seq<Call>, lo: nat, hi: nat) {
    forall i :: 0 <= i < |t| ==> lo <= InitStep(t[i]) <= hi
  }

  lemma StepsInOrderAppend(a: seq<Call>, b: seq<Call>, lo: nat, mid: nat, hi: nat)
    requires lo <= mid <= hi
    requires StepsInOrder(a) && StepsWithin(a, lo, mid)
    requires StepsInOrder(b) && StepsWithin(b, mid, hi)
    ensures StepsInOrder(a + b) && StepsWithin(a + b, lo, hi)
  {
    forall i, j | 0 <= i < j < |a + b|
      ensures InitStep((a + b)[i]) <= InitStep((a + b)[j])
    {
      if j < |a| {
        assert (a + b)[i] == a[i] && (a + b)[j] == a[j];
      } else if i < |a| {
        assert (a + b)[i] == a[i] && (a + b)[j] == b[j - |a|];
      } else {
        assert (a + b)[i] == b[i - |a|] && (a + b)[j] == b[j - |a|];
      }
    }
    forall i | 0 <= i < |a + b|
      ensures lo <= InitStep((a + b)[i]) <= hi
    {
      if i < |a| {
        assert (a + b)[i] == a[i];
      } else {
        assert (a + b)[i] == b[i - |a|];
      }
    }
  }

  /** Every framebuffer call belongs to the framebuffer step. */
  lemma FramebufferCallsSteps(pass: Handle, views: seq<Handle>, extent: Extent, framebuffers: seq<Handle>)
    requires |framebuffers| <= |views|
    ensures StepsInOrder(FramebufferCalls(pass, views, extent, framebuffers))
    ensures StepsWithin(FramebufferCalls(pass, views, extent, framebuffers), 5, 5)
  {
    var calls := FramebufferCalls(pass, views, extent, framebuffers);
    forall i | 0 <= i < |calls|
      ensures InitStep(calls[i]) == 5
    {
      FramebufferCallsAt(pass, views, extent, framebuffers, i);
    }
  }

  /** The objects a call creates and that the renderer owns, as kind and handle. */
  function CreatedObjects(c: Call): set<(ObjectKind, Handle)> {
    match c
    case CreateWindow(_, window) => {(WindowObject, window)}
    case CreateInstance(instance, messenger) => {(InstanceObject, instance), (DebugMessengerObject, messenger)}
    case CreateSurface(_, _, surface) => {(SurfaceObject, surface)}
    case CreateDevice(_, device, _) => {(DeviceObject, device)}
    case CreateSwapchain(_, _, swapchain, _, views) => {(SwapchainObject, swapchain)} + set v | v in views :: (ImageViewObject, v)
    case CreateCommandPool(pool) => {(CommandPoolObject, pool)}
    case CreateRenderPass(pass) => {(RenderPassObject, pass)}
    case CreateFramebuffer(_, _, _, framebuffer) => {(FramebufferObject, framebuffer)}
    case CreateFence(_, fence) => {(FenceObject, fence)}
    case CreateSemaphore(semaphore) => {(SemaphoreObject, semaphore)}
    case CreatePipelineLayout(_, layout) => {(PipelineLayoutObject, layout)}
    case CreateShaderModule(_, shaderModule) => {(ShaderModuleObject, shaderModule)}
    case CreateGraphicsPipeline(_, pipeline) => {(PipelineObject, pipeline)}
    case _ => {}
  }

  /** The engine's fields; see the header for their declared defaults. */
  class VulkanEngine {
    var isInitialized: bool
    var frameNumber: int
    var windowExtent: Extent
    var window: Handle
    var instance: Handle
    var debugMessenger: Handle
    var surface: Handle
    var device: Handle
    var graphicsQueue: Handle
    var swapchain: Handle
    var swapchainImages: seq<Handle>
    var swapchainImageViews: seq<Handle>
    var commandPool: Handle
    var mainCommandBuffer: Handle
    var renderPass: Handle
    var frameBuffers: seq<Handle>
    var renderFence: Handle
    var presentSemaphore: Handle
    var renderSemaphore: Handle
    var trianglePipelineLayout: Handle
    var trianglePipeline: Handle

    /** A fresh engine: not initialised, frame 0, a 1600 x 900 window extent, no window yet. */
    constructor ()
      ensures !isInitialized && frameNumber == 0 && windowExtent == Extent(1600, 900)
      ensures window == NullHandle && trianglePipeline == NullHandle
      ensures swapchainImages == [] && swapchainImageViews == [] && frameBuffers == []
    {
      isInitialized := false;
      frameNumber := 0;
      windowExtent := Extent(1600, 900);
      window := NullHandle;
      instance, debugMessenger, surface, device, graphicsQueue, swapchain := NullHandle, NullHandle, NullHandle, NullHandle, NullHandle, NullHandle;
      swapchainImages, swapchainImageViews := [], [];
      commandPool, mainCommandBuffer, renderPass := NullHandle, NullHandle, NullHandle;
      frameBuffers := [];
      renderFence, presentSemaphore, renderSemaphore := NullHandle, NullHandle, NullHandle;
      trianglePipelineLayout, trianglePipeline := NullHandle, NullHandle;
    }

    /** Framebuffers, images and views correspond one to one, and the two semaphores differ. */
    predicate Consistent()
      reads this`frameBuffers, this`swapchainImages, this`swapchainImageViews, this`presentSemaphore, this`renderSemaphore
    {
      && |frameBuffers| == |swapchainImages| == |swapchainImageViews|
      && presentSemaphore != renderSemaphore
    }

    /** The calls init makes before init_pipelines, for the handles it stored. */
    function SetupCalls(): (calls: seq<Call>)
      reads this`windowExtent, this`window, this`instance, this`debugMessenger, this`surface, this`device, this`graphicsQueue, this`swapchain, this`swapchainImages, this`swapchainImageViews
      reads this`commandPool, this`mainCommandBuffer, this`renderPass, this`frameBuffers, this`renderFence, this`presentSemaphore, this`renderSemaphore
      requires |frameBuffers| <= |swapchainImageViews|
      ensures |calls| == 11 + |frameBuffers|
    {
      DeviceCalls() + RenderingCalls()
    }

    /** The window, init_vulkan and init_swapchain. */
    function DeviceCalls(): (calls: seq<Call>)
      reads this`windowExtent, this`window, this`instance, this`debugMessenger, this`surface, this`device, this`graphicsQueue, this`swapchain, this`swapchainImages, this`swapchainImageViews
    {
      [ CreateWindow(windowExtent, window),
        CreateInstance(instance, debugMessenger),
        CreateSurface(instance, window, surface),
        CreateDevice(surface, device, graphicsQueue),
        CreateSwapchain(surface, windowExtent, swapchain, swapchainImages, swapchainImageViews) ]
    }

    /** init_commands, init_default_renderpass, init_framebuffers and init_sync_structures. */
    function RenderingCalls(): (calls: seq<Call>)
      reads this`commandPool, this`mainCommandBuffer, this`renderPass, this`swapchainImageViews, this`windowExtent, this`frameBuffers, this`renderFence, this`presentSemaphore, this`renderSemaphore
      requires |frameBuffers| <= |swapchainImageViews|
    {
      [ CreateCommandPool(commandPool),
        AllocateCommandBuffer(commandPool, mainCommandBuffer),
        CreateRenderPass(renderPass) ]
      + FramebufferCalls(renderPass, swapchainImageViews, windowExtent, frameBuffers)
      + [ CreateFence(true, renderFence), CreateSemaphore(presentSemaphore), CreateSemaphore(renderSemaphore) ]
    }

    /**
     * A completed init, from trace t0 to t: the setup calls, then
     * init_pipelines, which starts by opening the fragment shader and makes
     * only pipeline-related calls.
     */
    ghost predicate InitTrace(t0: seq<Call>, t: seq<Call>)
      reads this`windowExtent, this`window, this`instance, this`debugMessenger, this`surface, this`device, this`graphicsQueue, this`swapchain, this`swapchainImages, this`swapchainImageViews
      reads this`commandPool, this`mainCommandBuffer, this`renderPass, this`frameBuffers, this`renderFence, this`presentSemaphore, this`renderSemaphore
      requires |frameBuffers| <= |swapchainImageViews|
    {
      var setup := t0 + SetupCalls();
      && PipelineCallsAppended(setup, t)
      && |setup| < |t| && t[|setup|] == OpenFile(TRIANGLE_FRAG)
    }

    /** init_vulkan: instance and debug messenger, the checked window surface, then device and graphics queue. */
    method InitVulkan(host: Host)
      requires host.Valid() && !host.aborted
      modifies this`instance, this`debugMessenger, this`surface, this`device, this`graphicsQueue
      modifies host`trace, host`nextHandle, host`aborted
      ensures host.Valid()
      ensures !host.aborted ==> host.trace == old(host.trace) + [
        CreateInstance(instance, debugMessenger), CreateSurface(instance, window, surface), CreateDevice(surface, device, graphicsQueue)]
      ensures host.aborted ==> host.trace == old(host.trace) + [CreateInstance(instance, debugMessenger), CreateSurface(instance, window, surface), Abort]
    {
      instance := host.Fresh();
      debugMessenger := host.Fresh();
      host.Record(CreateInstance(instance, debugMessenger));
      surface := host.Fresh();
      var ok := host.Checked(CreateSurface(instance, window, surface));
      if !ok {
        return;
      }
      device := host.Fresh();
      graphicsQueue := host.Fresh();
      host.Record(CreateDevice(surface, device, graphicsQueue));
    }

    /**
     * init_swapchain: vk-bootstrap builds the swapchain for the window
     * extent; `imageCount`, the number of images it gets, is the driver's
     * choice. One view per image.
     */
    method InitSwapchain(host: Host, imageCount: nat)
      requires host.Valid()
      modifies this`swapchain, this`swapchainImages, this`swapchainImageViews, host`trace, host`nextHandle
      ensures host.Valid()
      ensures |swapchainImages| == |swapchainImageViews| == imageCount
      ensures host.trace == old(host.trace) + [CreateSwapchain(surface, windowExtent, swapchain, swapchainImages, swapchainImageViews)]
    {
      swapchain := host.Fresh();
      swapchainImages := FreshHandles(host, imageCount);
      swapchainImageViews := FreshHandles(host, imageCount);
      host.Record(CreateSwapchain(surface, windowExtent, swapchain, swapchainImages, swapchainImageViews));
    }

    /** init_commands: the checked command pool, then the checked primary command buffer from it. */
    method InitCommands(host: Host)
      requires host.Valid() && !host.aborted
      modifies this`commandPool, this`mainCommandBuffer, host`trace, host`nextHandle, host`aborted
      ensures host.Valid()
      ensures !host.aborted ==> host.trace == old(host.trace) + [CreateCommandPool(commandPool), AllocateCommandBuffer(commandPool, mainCommandBuffer)]
    {
      commandPool := host.Fresh();
      var ok := host.Checked(CreateCommandPool(commandPool));
      if !ok {
        return;
      }
      mainCommandBuffer := host.Fresh();
      ok := host.Checked(AllocateCommandBuffer(commandPool, mainCommandBuffer));
    }

    /** init_default_renderpass: one checked render pass. */
    method InitDefaultRenderPass(host: Host)
      requires host.Valid() && !host.aborted
      modifies this`renderPass, host`trace, host`nextHandle, host`aborted
      ensures host.Valid()
      ensures !host.aborted ==> host.trace == old(host.trace) + [CreateRenderPass(renderPass)]
    {
      renderPass := host.Fresh();
      var ok := host.Checked(CreateRenderPass(renderPass));
    }

    /**
     * init_framebuffers: the framebuffer list sized to the image count, then
     * one checked framebuffer per image, the i-th on image view i.
     */
    method InitFramebuffers(host: Host)
      requires host.Valid() && !host.aborted
      requires |swapchainImageViews| == |swapchainImages|
      modifies this`frameBuffers, host`trace, host`nextHandle, host`aborted
      ensures host.Valid()
      ensures |frameBuffers| == |swapchainImages|
      ensures !host.aborted ==>
        host.trace == old(host.trace) + FramebufferCalls(renderPass, swapchainImageViews, windowExtent, frameBuffers)
    {
      var count := |swapchainImages|;
      frameBuffers := seq(count, _ => NullHandle);
      var i := 0;
      while i < count
        invariant 0 <= i <= count && |frameBuffers| == count
        invariant host.Valid() && !host.aborted
        invariant host.trace == old(host.trace) + FramebufferCalls(renderPass, swapchainImageViews, windowExtent, frameBuffers[..i])
      {
        var framebuffer := host.Fresh();
        var ok := host.Checked(CreateFramebuffer(renderPass, swapchainImageViews[i], windowExtent, framebuffer));
        if !ok {
          return;
        }
        frameBuffers := frameBuffers[i := framebuffer];
        assert frameBuffers[..i + 1][..i] == frameBuffers[..i];
        i := i + 1;
      }
      assert frameBuffers[..count] == frameBuffers;
    }

    /** init_sync_structures: the render fence, created signalled, then the present and render semaphores. */
    method InitSyncStructures(host: Host)
      requires host.Valid() && !host.aborted
      modifies this`renderFence, this`presentSemaphore, this`renderSemaphore, host`trace, host`nextHandle, host`aborted
      ensures host.Valid()
      ensures presentSemaphore != renderSemaphore
      ensures !host.aborted ==> host.trace == old(host.trace) + [
        CreateFence(true, renderFence), CreateSemaphore(presentSemaphore), CreateSemaphore(renderSemaphore)]
    {
      renderFence := host.Fresh();
      var ok := host.Checked(CreateFence(true, renderFence));
      presentSemaphore := host.Fresh();
      renderSemaphore := host.Fresh();
      if !ok {
        return;
      }
      ok := host.Checked(CreateSemaphore(presentSemaphore));
      if !ok {
        return;
      }
      ok := host.Checked(CreateSemaphore(renderSemaphore));
    }

    /**
     * init_pipelines: load the fragment shader, then the vertex shader,
     * giving up quietly when either fails; then the checked, empty pipeline
     * layout and the triangle pipeline built on it. The loaded modules are
     * reported through the ghost results (None when loading stopped before
     * or at that shader).
     */
    method InitPipelines(host: Host) returns (ghost fragmentShader: Option<Handle>, ghost vertexShader: Option<Handle>)
      requires host.Valid() && !host.aborted
      modifies this`trianglePipelineLayout, this`trianglePipeline, host`trace, host`nextHandle, host`aborted
      ensures host.Valid()
      ensures PipelineCallsAppended(old(host.trace), host.trace)
      ensures |old(host.trace)| < |host.trace| && host.trace[|old(host.trace)|] == OpenFile(TRIANGLE_FRAG)
      ensures vertexShader.Some? ==> fragmentShader.Some?
      ensures fragmentShader.Some? ==> Shaders.CompileFile(host, TRIANGLE_FRAG, FragmentShader).Compiled?
      ensures vertexShader.Some? ==> Shaders.CompileFile(host, TRIANGLE_VERT, VertexShader).Compiled?
      ensures vertexShader.None? ==> !host.aborted && trianglePipelineLayout == old(trianglePipelineLayout) && trianglePipeline == old(trianglePipeline)
      ensures vertexShader.Some? && !host.aborted ==>
        |host.trace| >= 2 && TriangleCreated(host, host.trace[..|host.trace| - 2], vertexShader.value, fragmentShader.value)
    {
      ghost var fragmentLoaded;
      var ok, triangleVertexShader, triangleFragShader;
      ok, triangleVertexShader, triangleFragShader, fragmentLoaded := LoadTriangleShaders(host);
      fragmentShader := if fragmentLoaded then Some(triangleFragShader) else None;
      vertexShader := if ok then Some(triangleVertexShader) else None;
      if !ok {
        PipelineCallsAppendedAfterShaders(old(host.trace), host.trace, host.trace);
        return;
      }
      ghost var t2 := host.trace;
      CreateTrianglePipeline(host, triangleVertexShader, triangleFragShader);
      PipelineCallsAppendedAfterShaders(old(host.trace), t2, host.trace);
      assert host.trace[|old(host.trace)|] == host.trace[..|t2|][|old(host.trace)|];
    }

    /**
     * init_pipelines, first part: the fragment shader, then, if that loaded,
     * the vertex shader. `ok` says both loaded; `fragmentLoaded` that the
     * first did.
     */
    method LoadTriangleShaders(host: Host) returns (ok: bool, vertexShader: Handle, fragmentShader: Handle, ghost fragmentLoaded: bool)
      requires host.Valid()
      modifies host`trace, host`nextHandle
      ensures host.Valid()
      ensures ShaderCallsAppended(old(host.trace), host.trace)
      ensures |old(host.trace)| < |host.trace| && host.trace[|old(host.trace)|] == OpenFile(TRIANGLE_FRAG)
      ensures ok ==> fragmentLoaded
      ensures fragmentLoaded ==> Shaders.CompileFile(host, TRIANGLE_FRAG, FragmentShader).Compiled?
      ensures ok ==> Shaders.CompileFile(host, TRIANGLE_VERT, VertexShader).Compiled?
    {
      vertexShader := NullHandle;
      ghost var t0 := host.trace;
      TriangleFragExtension();
      ok, fragmentShader := LoadGlslShaderModule(host, TRIANGLE_FRAG, NullHandle);
      fragmentLoaded := ok;
      if !ok {
        return;
      }
      ghost var t1 := host.trace;
      TriangleVertExtension();
      ok, vertexShader := LoadGlslShaderModule(host, TRIANGLE_VERT, NullHandle);
      ShaderCallsAppendedTrans(t0, t1, host.trace);
    }

    /**
     * After trace t0: the checked vkCreatePipelineLayout with no set layouts
     * and the triangle pipeline built on it, stored in the engine, or the
     * null handle when its creation failed.
     */
    ghost predicate TriangleCreated(host: Host, t0: seq<Call>, vertexShader: Handle, fragmentShader: Handle)
      reads this, host
    {
      && |host.trace| == |t0| + 2 && host.trace[..|t0|] == t0
      && host.trace[|t0|] == CreatePipelineLayout([], trianglePipelineLayout)
      && host.trace[|t0| + 1].CreateGraphicsPipeline?
      && host.trace[|t0| + 1].info == TrianglePipelineInfo(vertexShader, fragmentShader, trianglePipelineLayout, renderPass)
      && trianglePipeline == if host.succeeds(|t0| + 1) then host.trace[|t0| + 1].pipeline else NullHandle
    }

    /** init_pipelines, last part: the checked pipeline layout, then the triangle pipeline. */
    method CreateTrianglePipeline(host: Host, vertexShader: Handle, fragmentShader: Handle)
      requires host.Valid() && !host.aborted
      modifies this`trianglePipelineLayout, this`trianglePipeline, host`trace, host`nextHandle, host`aborted
      ensures host.Valid()
      ensures PipelineCallsAppended(old(host.trace), host.trace)
      ensures !host.aborted ==> TriangleCreated(host, old(host.trace), vertexShader, fragmentShader)
      ensures host.aborted ==> trianglePipelineLayout == old(trianglePipelineLayout) && trianglePipeline == old(trianglePipeline)
    {
      var layout := host.Fresh();
      var ok := host.Checked(CreatePipelineLayout([], layout));
      if !ok {
        return;
      }
      trianglePipelineLayout := layout;
      trianglePipeline := BuildLegacyPipeline(host, TrianglePipelineInfo(vertexShader, fragmentShader, layout, renderPass));
    }

    /**
     * init: the window, then init_vulkan, init_swapchain, init_commands,
     * init_default_renderpass, init_framebuffers, init_sync_structures and
     * init_pipelines, in that order; the engine counts as initialised only
     * when all of them ran, that is, when no VK_CHECK ended the run.
     * `imageCount` is the number of swapchain images the driver provides.
     */
    method Init(host: Host, imageCount: nat)
      requires host.Valid() && !host.aborted
      modifies this`isInitialized, this`window, this`instance, this`debugMessenger, this`surface, this`device, this`graphicsQueue
      modifies this`swapchain, this`swapchainImages, this`swapchainImageViews, this`commandPool, this`mainCommandBuffer
      modifies this`renderPass, this`frameBuffers, this`renderFence, this`presentSemaphore, this`renderSemaphore
      modifies this`trianglePipelineLayout, this`trianglePipeline, host`trace, host`nextHandle, host`aborted
      ensures host.Valid()
      ensures !host.aborted ==> isInitialized
      ensures host.aborted ==> isInitialized == old(isInitialized)
      ensures !host.aborted ==> Consistent() && |frameBuffers| == imageCount && InitTrace(old(host.trace), host.trace)
    {
      BringUp(host, imageCount);
      if !host.aborted {
        FinishInit(host, old(host.trace));
      }
    }

    /** init up to init_pipelines: every step that creates an object draw or cleanup uses. */
    method BringUp(host: Host, imageCount: nat)
      requires host.Valid() && !host.aborted
      modifies this`window, this`instance, this`debugMessenger, this`surface, this`device, this`graphicsQueue
      modifies this`swapchain, this`swapchainImages, this`swapchainImageViews, this`commandPool, this`mainCommandBuffer
      modifies this`renderPass, this`frameBuffers, this`renderFence, this`presentSemaphore, this`renderSemaphore
      modifies host`trace, host`nextHandle, host`aborted
      ensures host.Valid()
      ensures !host.aborted ==> Consistent() && |frameBuffers| == imageCount && host.trace == old(host.trace) + SetupCalls()
    {
      BringUpDevice(host, imageCount);
      if host.aborted {
        return;
      }
      ghost var device := DeviceCalls();
      BringUpRendering(host);
      if host.aborted {
        return;
      }
      assert DeviceCalls() == device;
    }

    /** init, last part: init_pipelines, then the engine is marked initialised unless a VK_CHECK ended the run. */
    method FinishInit(host: Host, ghost t0: seq<Call>)
      requires host.Valid() && !host.aborted
      requires |frameBuffers| <= |swapchainImageViews| && host.trace == t0 + SetupCalls()
      modifies this`isInitialized, this`trianglePipelineLayout, this`trianglePipeline, host`trace, host`nextHandle, host`aborted
      ensures host.Valid()
      ensures !host.aborted ==> isInitialized && InitTrace(t0, host.trace)
      ensures host.aborted ==> isInitialized == old(isInitialized)
    {
      ghost var fragmentShader, vertexShader := InitPipelines(host);
      if !host.aborted {
        isInitialized := true;
      }
    }

    /** init, first part: the window, init_vulkan and init_swapchain. */
    method BringUpDevice(host: Host, imageCount: nat)
      requires host.Valid() && !host.aborted
      modifies this`window, this`instance, this`debugMessenger, this`surface, this`device, this`graphicsQueue
      modifies this`swapchain, this`swapchainImages, this`swapchainImageViews
      modifies host`trace, host`nextHandle, host`aborted
      ensures host.Valid()
      ensures !host.aborted ==> |swapchainImages| == |swapchainImageViews| == imageCount
      ensures !host.aborted ==> host.trace == old(host.trace) + DeviceCalls()
    {
      window := host.Fresh();
      host.Record(CreateWindow(windowExtent, window));
      InitVulkan(host);
      if host.aborted {
        return;
      }
      InitSwapchain(host, imageCount);
    }

    /** init, second part: init_commands, init_default_renderpass, init_framebuffers and init_sync_structures. */
    method BringUpRendering(host: Host)
      requires host.Valid() && !host.aborted
      requires |swapchainImageViews| == |swapchainImages|
      modifies this`commandPool, this`mainCommandBuffer, this`renderPass, this`frameBuffers
      modifies this`renderFence, this`presentSemaphore, this`renderSemaphore
      modifies host`trace, host`nextHandle, host`aborted
      ensures host.Valid()
      ensures !host.aborted ==> Consistent() && host.trace == old(host.trace) + RenderingCalls()
    {
      InitCommands(host);
      if host.aborted {
        return;
      }
      InitDefaultRenderPass(host);
      if host.aborted {
        return;
      }
      InitFramebuffers(host);
      if host.aborted {
        return;
      }
      InitSyncStructures(host);
    }

    /** The objects draw uses. */
    function Objects(): FrameObjects
      reads this
    {
      FrameObjects(swapchain, graphicsQueue, mainCommandBuffer, renderPass, trianglePipeline,
        renderFence, presentSemaphore, renderSemaphore, windowExtent)
    }

    /**
     * draw: one frame, as FrameCalls lists it, rendering into the framebuffer
     * of the image the driver hands back (`imageIndex`, below the image
     * count); then the frame counter goes up by one. A VK_CHECK failure
     * ends the run right after the failing call, the counter unchanged.
     */
    method Draw(host: Host, imageIndex: nat)
      requires !host.aborted && imageIndex < |frameBuffers|
      modifies this`frameNumber, host`trace, host`aborted
      ensures !host.aborted ==>
        host.trace == old(host.trace) + old(FrameCalls(Objects(), imageIndex, frameBuffers[imageIndex]))
        && frameNumber == old(frameNumber) + 1
      ensures host.aborted ==>
        AbortedDuring(old(host.trace), old(FrameCalls(Objects(), imageIndex, frameBuffers[imageIndex])), host.trace)
        && frameNumber == old(frameNumber)
    {
      ghost var calls := FrameCalls(Objects(), imageIndex, frameBuffers[imageIndex]);
      ghost var t0 := host.trace;
      var ok := WaitForLastFrame(host, imageIndex, t0, calls);
      if !ok { return; }
      ok := AcquireAndBegin(host, imageIndex, t0, calls);
      if !ok { return; }
      ok := RecordRenderPass(host, imageIndex, t0, calls);
      if !ok { return; }
      ok := SubmitAndPresent(host, imageIndex, t0, calls);
      if !ok { return; }
      assert calls[..12] == calls;
      frameNumber := frameNumber + 1;
    }

    /** Draw, first part: wait for the render fence, reset it, reset the command buffer. */
    method WaitForLastFrame(host: Host, imageIndex: nat, ghost t0: seq<Call>, ghost calls: seq<Call>) returns (ok: bool)
      requires imageIndex < |frameBuffers| && calls == FrameCalls(Objects(), imageIndex, frameBuffers[imageIndex])
      requires !host.aborted && host.trace == t0
      modifies host`trace, host`aborted
      ensures ok <==> !host.aborted
      ensures ok ==> host.trace == t0 + calls[..3]
      ensures !ok ==> AbortedDuring(t0, calls, host.trace)
    {
      assert calls[..0] == [];
      ok := CheckedCall(host, WaitForFence(renderFence), t0, calls, 0);
      if !ok { return; }
      ok := CheckedCall(host, ResetFence(renderFence), t0, calls, 1);
      if !ok { return; }
      ok := CheckedCall(host, ResetCommandBuffer(mainCommandBuffer), t0, calls, 2);
    }

    /** Draw, second part: acquire the next image, signalling the present semaphore, and begin recording. */
    method AcquireAndBegin(host: Host, imageIndex: nat, ghost t0: seq<Call>, ghost calls: seq<Call>) returns (ok: bool)
      requires imageIndex < |frameBuffers| && calls == FrameCalls(Objects(), imageIndex, frameBuffers[imageIndex])
      requires !host.aborted && host.trace == t0 + calls[..3]
      modifies host`trace, host`aborted
      ensures ok <==> !host.aborted
      ensures ok ==> host.trace == t0 + calls[..5]
      ensures !ok ==> AbortedDuring(t0, calls, host.trace)
    {
      ok := CheckedCall(host, AcquireNextImage(swapchain, presentSemaphore, imageIndex), t0, calls, 3);
      if !ok { return; }
      ok := CheckedCall(host, BeginCommandBuffer(mainCommandBuffer), t0, calls, 4);
    }

    /** Draw, third part: the render pass on the acquired image's framebuffer, one triangle, end of recording. */
    method RecordRenderPass(host: Host, imageIndex: nat, ghost t0: seq<Call>, ghost calls: seq<Call>) returns (ok: bool)
      requires imageIndex < |frameBuffers| && calls == FrameCalls(Objects(), imageIndex, frameBuffers[imageIndex])
      requires !host.aborted && host.trace == t0 + calls[..5]
      modifies host`trace, host`aborted
      ensures ok <==> !host.aborted
      ensures ok ==> host.trace == t0 + calls[..10]
      ensures !ok ==> AbortedDuring(t0, calls, host.trace)
    {
      RecordedCall(host, BeginRenderPass(mainCommandBuffer, renderPass, frameBuffers[imageIndex], windowExtent), t0, calls, 5);
      RecordedCall(host, BindPipeline(mainCommandBuffer, trianglePipeline), t0, calls, 6);
      RecordedCall(host, DrawVertices(mainCommandBuffer, TRIANGLE_VERTICES), t0, calls, 7);
      RecordedCall(host, EndRenderPass(mainCommandBuffer), t0, calls, 8);
      ok := CheckedCall(host, EndCommandBuffer(mainCommandBuffer), t0, calls, 9);
    }

    /**
     * Draw, last part: submit, waiting on the present semaphore at
     * colour-attachment output and signalling the render semaphore and the
     * fence; then present the acquired image once the render semaphore is
     * signalled.
     */
    method SubmitAndPresent(host: Host, imageIndex: nat, ghost t0: seq<Call>, ghost calls: seq<Call>) returns (ok: bool)
      requires imageIndex < |frameBuffers| && calls == FrameCalls(Objects(), imageIndex, frameBuffers[imageIndex])
      requires !host.aborted && host.trace == t0 + calls[..10]
      modifies host`trace, host`aborted
      ensures ok <==> !host.aborted
      ensures ok ==> host.trace == t0 + calls[..12]
      ensures !ok ==> AbortedDuring(t0, calls, host.trace)
    {
      ok := CheckedCall(host, QueueSubmit(graphicsQueue, mainCommandBuffer, presentSemaphore, ColorAttachmentOutput, renderSemaphore, renderFence), t0, calls, 10);
      if !ok { return; }
      ok := CheckedCall(host, QueuePresent(graphicsQueue, swapchain, renderSemaphore, imageIndex), t0, calls, 11);
    }

    /**
     * cleanup: nothing unless initialised; otherwise wait for the device to
     * go idle, destroy the command pool, fence, semaphores, swapchain and
     * render pass, each framebuffer with its image view, then device,
     * surface, debug messenger, instance and window, and shut GLFW down.
     */
    method Cleanup(host: Host)
      requires |frameBuffers| <= |swapchainImageViews|
      modifies host`trace
      ensures !isInitialized ==> host.trace == old(host.trace)
      ensures isInitialized ==> host.trace == old(host.trace) + CleanupCalls()
    {
      if !isInitialized {
        return;
      }
      DestroyFrameObjects(host);
      DestroyFramebuffers(host);
      DestroyInstanceObjects(host);
    }

    /** Cleanup, first part: wait for the device to go idle, then destroy the per-frame objects, swapchain and render pass. */
    method DestroyFrameObjects(host: Host)
      modifies host`trace
      ensures host.trace == old(host.trace) + CleanupHead()
    {
      ghost var head := CleanupHead();
      ghost var t := host.trace;
      assert head[..0] == [];
      RecordedCall(host, DeviceWaitIdle(device), t, head, 0);
      RecordedCall(host, Destroy(CommandPoolObject, commandPool), t, head, 1);
      RecordedCall(host, Destroy(FenceObject, renderFence), t, head, 2);
      RecordedCall(host, Destroy(SemaphoreObject, renderSemaphore), t, head, 3);
      RecordedCall(host, Destroy(SemaphoreObject, presentSemaphore), t, head, 4);
      RecordedCall(host, Destroy(SwapchainObject, swapchain), t, head, 5);
      RecordedCall(host, Destroy(RenderPassObject, renderPass), t, head, 6);
      assert head[..7] == head;
    }

    /** Cleanup, second part: each framebuffer, then the image view at the same index. */
    method DestroyFramebuffers(host: Host)
      requires |frameBuffers| <= |swapchainImageViews|
      modifies host`trace
      ensures host.trace == old(host.trace) + FramebufferDestroyCalls(frameBuffers, swapchainImageViews)
    {
      ghost var t0 := host.trace;
      var i := 0;
      while i < |frameBuffers|
        invariant 0 <= i <= |frameBuffers|
        invariant host.trace == t0 + FramebufferDestroyCalls(frameBuffers[..i], swapchainImageViews)
      {
        host.Record(Destroy(FramebufferObject, frameBuffers[i]));
        host.Record(Destroy(ImageViewObject, swapchainImageViews[i]));
        assert frameBuffers[..i + 1][..i] == frameBuffers[..i];
        i := i + 1;
      }
      assert frameBuffers[..i] == frameBuffers;
    }

    /** Cleanup, last part: device, surface, debug messenger, instance and window, then GLFW shuts down. */
    method DestroyInstanceObjects(host: Host)
      modifies host`trace
      ensures host.trace == old(host.trace) + CleanupTail()
    {
      ghost var tail := CleanupTail();
      ghost var t1 := host.trace;
      assert tail[..0] == [];
      RecordedCall(host, Destroy(DeviceObject, device), t1, tail, 0);
      RecordedCall(host, Destroy(SurfaceObject, surface), t1, tail, 1);
      RecordedCall(host, Destroy(DebugMessengerObject, debugMessenger), t1, tail, 2);
      RecordedCall(host, Destroy(InstanceObject, instance), t1, tail, 3);
      RecordedCall(host, Destroy(WindowObject, window), t1, tail, 4);
      RecordedCall(host, TerminateWindowing, t1, tail, 5);
      assert tail[..6] == tail;
    }

    /** The calls cleanup makes on an initialised engine. */
    function CleanupCalls(): (calls: seq<Call>)
      reads this
      requires |frameBuffers| <= |swapchainImageViews|
      ensures |calls| == 13 + 2 * |frameBuffers|
    {
      CleanupHead() + FramebufferDestroyCalls(frameBuffers, swapchainImageViews) + CleanupTail()
    }

    /** Cleanup before the framebuffer loop: wait for idle, then the per-frame objects, swapchain and render pass. */
    function CleanupHead(): (calls: seq<Call>)
      reads this
    {
      [ DeviceWaitIdle(device),
        Destroy(CommandPoolObject, commandPool),
        Destroy(FenceObject, renderFence),
        Destroy(SemaphoreObject, renderSemaphore),
        Destroy(SemaphoreObject, presentSemaphore),
        Destroy(SwapchainObject, swapchain),
        Destroy(RenderPassObject, renderPass) ]
    }

    /** Cleanup after the framebuffer loop: device, surface, messenger, instance, window, GLFW. */
    function CleanupTail(): (calls: seq<Call>)
      reads this
    {
      [ Destroy(DeviceObject, device),
        Destroy(SurfaceObject, surface),
        Destroy(DebugMessengerObject, debugMessenger),
        Destroy(InstanceObject, instance),
        Destroy(WindowObject, window),
        TerminateWindowing ]
    }

    /**
     * init's setup calls run the steps in order: window, init_vulkan,
     * init_swapchain, init_commands, init_default_renderpass,
     * init_framebuffers, init_sync_structures.
     */
    lemma SetupStepsInOrder()
      requires |frameBuffers| <= |swapchainImageViews|
      ensures StepsInOrder(SetupCalls()) && StepsWithin(SetupCalls(), 0, 6)
    {
      var commands := [CreateCommandPool(commandPool), AllocateCommandBuffer(commandPool, mainCommandBuffer), CreateRenderPass(renderPass)];
      var framebuffers := FramebufferCalls(renderPass, swapchainImageViews, windowExtent, frameBuffers);
      var sync := [CreateFence(true, renderFence), CreateSemaphore(presentSemaphore), CreateSemaphore(renderSemaphore)];
      FramebufferCallsSteps(renderPass, swapchainImageViews, windowExtent, frameBuffers);
      StepsInOrderAppend(commands, framebuffers, 3, 4, 5);
      StepsInOrderAppend(commands + framebuffers, sync, 3, 5, 6);
      assert RenderingCalls() == commands + framebuffers + sync;
      StepsInOrderAppend(DeviceCalls(), RenderingCalls(), 0, 2, 6);
    }

    /**
     * A completed init runs its steps in order, init_pipelines last: the
     * step of its calls never goes backwards.
     */
    lemma InitRunsStepsInOrder(t0: seq<Call>, t: seq<Call>)
      requires |frameBuffers| <= |swapchainImageViews| && InitTrace(t0, t)
      ensures StepsInOrder(t[|t0|..]) && StepsWithin(t[|t0|..], 0, 7)
      ensures InitStep(t[|t0| + |SetupCalls()|]) == 7
    {
      var setup := SetupCalls();
      var n := |t0| + |setup|;
      SetupStepsInOrder();
      var rest := t[n..];
      forall i | 0 <= i < |rest|
        ensures InitStep(rest[i]) == 7
      {
        assert rest[i] == t[n + i];
        assert PipelineStepCall(t[n + i]);
      }
      StepsInOrderAppend(setup, rest, 0, 6, 7);
      assert t[|t0|..] == setup + rest by {
        assert t[..n] == t0 + setup;
        assert t == t[..n] + rest;
      }
    }

    /** init_framebuffers' i-th call creates framebuffer i on image view i. */
    lemma SetupCreatesFramebufferPerImage(i: nat)
      requires Consistent() && i < |frameBuffers|
      ensures SetupCalls()[8 + i] == CreateFramebuffer(renderPass, swapchainImageViews[i], windowExtent, frameBuffers[i])
    {
      FramebufferCallsAt(renderPass, swapchainImageViews, windowExtent, frameBuffers, i);
      var commands := DeviceCalls() + [CreateCommandPool(commandPool), AllocateCommandBuffer(commandPool, mainCommandBuffer), CreateRenderPass(renderPass)];
      var framebuffers := FramebufferCalls(renderPass, swapchainImageViews, windowExtent, frameBuffers);
      var sync := [CreateFence(true, renderFence), CreateSemaphore(presentSemaphore), CreateSemaphore(renderSemaphore)];
      assert SetupCalls() == commands + framebuffers + sync;
      assert (commands + framebuffers + sync)[8 + i] == framebuffers[i];
    }

    /**
     * cleanup first waits for the device to go idle, and destroys
     * framebuffer i immediately before image view i.
     */
    lemma CleanupPairsFramebuffersWithViews(i: nat)
      requires |frameBuffers| <= |swapchainImageViews| && i < |frameBuffers|
      ensures CleanupCalls()[0] == DeviceWaitIdle(device)
      ensures CleanupCalls()[7 + 2 * i] == Destroy(FramebufferObject, frameBuffers[i])
      ensures CleanupCalls()[8 + 2 * i] == Destroy(ImageViewObject, swapchainImageViews[i])
    {
      var loop := FramebufferDestroyCalls(frameBuffers, swapchainImageViews);
      FramebufferDestroyCallsAt(frameBuffers, swapchainImageViews, i);
      assert CleanupCalls() == CleanupHead() + loop + CleanupTail();
      assert (CleanupHead() + loop + CleanupTail())[7 + 2 * i] == loop[2 * i];
      assert (CleanupHead() + loop + CleanupTail())[8 + 2 * i] == loop[2 * i + 1];
    }

    /**
     * Every object init's setup creates is destroyed by cleanup, the
     * swapchain images (owned by the swapchain), the queue (owned by the
     * device) and the command buffer (freed with its pool) aside.
     */
    lemma SetupReleasedByCleanup(i: nat, obj: (ObjectKind, Handle))
      requires Consistent() && i < |SetupCalls()| && obj in CreatedObjects(SetupCalls()[i])
      ensures Destroy(obj.0, obj.1) in CleanupCalls()
    {
      if i < 5 {
        assert SetupCalls()[i] == DeviceCalls()[i];
        DeviceObjectsReleased(i, obj);
      } else {
        assert SetupCalls()[i] == RenderingCalls()[i - 5];
        RenderingObjectsReleased(i - 5, obj);
      }
    }

    /** Cleanup's calls are its head, the framebuffer loop and its tail, at fixed offsets. */
    lemma CleanupCallsAt()
      requires |frameBuffers| <= |swapchainImageViews|
      ensures forall k :: 0 <= k < 7 ==> CleanupCalls()[k] == CleanupHead()[k]
      ensures forall k :: 0 <= k < 6 ==> CleanupCalls()[7 + 2 * |frameBuffers| + k] == CleanupTail()[k]
    {
      var loop := FramebufferDestroyCalls(frameBuffers, swapchainImageViews);
      assert CleanupCalls() == CleanupHead() + loop + CleanupTail();
    }

    /** What the window, init_vulkan and init_swapchain create, cleanup destroys. */
    lemma DeviceObjectsReleased(k: nat, obj: (ObjectKind, Handle))
      requires Consistent() && k < 5 && obj in CreatedObjects(DeviceCalls()[k])
      ensures Destroy(obj.0, obj.1) in CleanupCalls()
    {
      var n := |frameBuffers|;
      var cleanup := CleanupCalls();
      CleanupCallsAt();
      if k == 4 && obj.0 == ImageViewObject {
        var j :| 0 <= j < n && swapchainImageViews[j] == obj.1;
        CleanupPairsFramebuffersWithViews(j);
        assert cleanup[8 + 2 * j] == Destroy(obj.0, obj.1);
      } else if k == 4 {
        assert cleanup[5] == Destroy(obj.0, obj.1);
      } else if k == 3 {
        assert cleanup[7 + 2 * n] == Destroy(obj.0, obj.1);
      } else if k == 2 {
        assert cleanup[7 + 2 * n + 1] == Destroy(obj.0, obj.1);
      } else if k == 1 && obj.0 == DebugMessengerObject {
        assert cleanup[7 + 2 * n + 2] == Destroy(obj.0, obj.1);
      } else if k == 1 {
        assert cleanup[7 + 2 * n + 3] == Destroy(obj.0, obj.1);
      } else {
        assert cleanup[7 + 2 * n + 4] == Destroy(obj.0, obj.1);
      }
    }

    /**
     * What init_commands, init_default_renderpass, init_framebuffers and
     * init_sync_structures create, cleanup destroys.
     */
    lemma RenderingObjectsReleased(k: nat, obj: (ObjectKind, Handle))
      requires Consistent() && k < |RenderingCalls()| && obj in CreatedObjects(RenderingCalls()[k])
      ensures Destroy(obj.0, obj.1) in CleanupCalls()
    {
      var n := |frameBuffers|;
      var cleanup := CleanupCalls();
      CleanupCallsAt();
      var commands := [CreateCommandPool(commandPool), AllocateCommandBuffer(commandPool, mainCommandBuffer), CreateRenderPass(renderPass)];
      var framebuffers := FramebufferCalls(renderPass, swapchainImageViews, windowExtent, frameBuffers);
      var sync := [CreateFence(true, renderFence), CreateSemaphore(presentSemaphore), CreateSemaphore(renderSemaphore)];
      assert RenderingCalls() == commands + framebuffers + sync;
      if k < 3 {
        assert RenderingCalls()[k] == commands[k];
        if k == 0 {
          assert cleanup[1] == Destroy(obj.0, obj.1);
        } else {
          assert cleanup[6] == Destroy(obj.0, obj.1);
        }
      } else if k < 3 + n {
        assert RenderingCalls()[k] == framebuffers[k - 3];
        FramebufferCallsAt(renderPass, swapchainImageViews, windowExtent, frameBuffers, k - 3);
        CleanupPairsFramebuffersWithViews(k - 3);
      } else {
        assert RenderingCalls()[k] == sync[k - 3 - n];
        if k == 3 + n {
          assert cleanup[2] == Destroy(obj.0, obj.1);
        } else if k == 4 + n {
          assert cleanup[4] == Destroy(obj.0, obj.1);
        } else {
          assert cleanup[3] == Destroy(obj.0, obj.1);
        }
      }
    }

    /**
     * cleanup destroys no pipeline, pipeline layout or shader module: the
     * triangle pipeline, its layout and the two shader modules init_pipelines
     * creates are never released.
     */
    lemma CleanupLeavesPipelineObjects(c: Call)
      requires |frameBuffers| <= |swapchainImageViews| && c in CleanupCalls() && c.Destroy?
      ensures c.kind != PipelineObject && c.kind != PipelineLayoutObject && c.kind != ShaderModuleObject
    {
      var loop := FramebufferDestroyCalls(frameBuffers, swapchainImageViews);
      assert CleanupCalls() == CleanupHead() + loop + CleanupTail();
      if c in loop {
        var k :| 0 <= k < |loop| && loop[k] == c;
        FramebufferDestroyCallsAt(frameBuffers, swapchainImageViews, k / 2);
        assert k == 2 * (k / 2) || k == 2 * (k / 2) + 1;
      }
    }
  }

  /** A call through VK_CHECK, as the k-th of a planned list of calls started from trace t0. */
  method CheckedCall(host: Host, c: Call, ghost t0: seq<Call>, ghost calls: seq<Call>, ghost k: nat) returns (ok: bool)
    requires !host.aborted && k < |calls| && calls[k] == c && host.trace == t0 + calls[..k]
    modifies host`trace, host`aborted
    ensures ok <==> !host.aborted
    ensures ok ==> host.trace == t0 + calls[..k + 1]
    ensures !ok ==> AbortedDuring(t0, calls, host.trace)
  {
    assert calls[..k + 1] == calls[..k] + [c];
    ok := host.Checked(c);
    if !ok {
      assert host.trace[..|host.trace| - 1] == t0 + calls[..k + 1];
    }
  }

  /** A call whose result is not checked, as the k-th of a planned list of calls started from trace t0. */
  method RecordedCall(host: Host, c: Call, ghost t0: seq<Call>, ghost calls: seq<Call>, ghost k: nat)
    requires k < |calls| && calls[k] == c && host.trace == t0 + calls[..k]
    modifies host`trace
    ensures host.trace == t0 + calls[..k + 1]
  {
    assert calls[..k + 1] == calls[..k] + [c];
    host.Record(c);
  }

  /**
   * The run ended through VK_CHECK in the middle of `calls`, started from
   * trace t0: some prefix of them, the failing call included, then the abort.
   */
  ghost predicate AbortedDuring(t0: seq<Call>, calls: seq<Call>, t: seq<Call>) {
    && |t0| + 1 < |t| <= |t0| + |calls| + 1
    && t[|t| - 1] == Abort
    && t[..|t| - 1] == t0 + calls[..|t| - 1 - |t0|]
  }
}
