/**
 * The slice of the Vulkan API that the renderer talks to, seen from the
 * renderer's side: opaque handles, the create-info structures it fills in,
 * and a Host object that stands for everything outside the program (the
 * Vulkan driver, the file system and the shader compiler).
 *
 * Every driver call the renderer makes is appended to Host.trace as a Call
 * value; object creation hands out fresh handles from a counter. The result
 * a call returns is not computed here: Host.succeeds says, for the call at a
 * given position of the trace, whether the driver answered VK_SUCCESS.
 */
module VkTypes {

  /** An opaque driver object handle; 0 plays the role of VK_NULL_HANDLE. */
  type Handle = nat

  const NullHandle: Handle := 0

  datatype Option<T> = None | Some(value: T)

  /** VkExtent2D. */
  datatype Extent = Extent(width: nat, height: nat)

  /** VkFormat, by its numeric code in the Vulkan registry. */
  type Format = nat

  const FORMAT_UNDEFINED: Format := 0
  const FORMAT_R32_SINT: Format := 99
  const FORMAT_R32_SFLOAT: Format := 100
  const FORMAT_R32G32_SINT: Format := 102
  const FORMAT_R32G32_SFLOAT: Format := 103
  const FORMAT_R32G32B32_SINT: Format := 105
  const FORMAT_R32G32B32_SFLOAT: Format := 106

  /** Raw file contents and SPIR-V code buffers. */
  type Bytes = seq<bv8>

  /** VkShaderStageFlagBits, by numeric value. */
  type StageBits = nat

  const STAGE_VERTEX: StageBits := 0x01
  const STAGE_TESSELLATION_CONTROL: StageBits := 0x02
  const STAGE_TESSELLATION_EVALUATION: StageBits := 0x04
  const STAGE_GEOMETRY: StageBits := 0x08
  const STAGE_FRAGMENT: StageBits := 0x10
  const STAGE_COMPUTE: StageBits := 0x20

  /** shaderc_shader_kind, restricted to the kinds the renderer selects. */
  datatype ShaderKind = VertexShader | FragmentShader | ComputeShader

  /** VkVertexInputRate. */
  datatype InputRate = PerVertex | PerInstance

  /** VkVertexInputBindingDescription. */
  datatype VertexBinding = VertexBinding(binding: nat, stride: nat, inputRate: InputRate)

  /** VkVertexInputAttributeDescription. */
  datatype VertexAttribute = VertexAttribute(location: nat, binding: nat, format: Format, offset: nat)

  /** VkPipelineVertexInputStateCreateInfo: the two arrays it points at. */
  datatype VertexInputState = VertexInputState(bindings: seq<VertexBinding>, attributes: seq<VertexAttribute>)

  /** VkPipelineShaderStageCreateInfo (entry point "main"). */
  datatype ShaderStageInfo = ShaderStageInfo(stage: StageBits, shaderModule: Handle)

  /** VkCompareOp. */
  datatype CompareOp = Never | Less | Equal | LessOrEqual | Greater | NotEqual | GreaterOrEqual | Always

  /** VkPipelineDepthStencilStateCreateInfo, the fields the renderer sets. */
  datatype DepthStencilState = DepthStencilState(depthTest: bool, depthWrite: bool, compareOp: CompareOp)

  /** VkDynamicState. */
  datatype DynamicState = DynamicViewport | DynamicScissor

  /** VkGraphicsPipelineCreateInfo together with the structures it chains. */
  datatype GraphicsPipelineInfo = GraphicsPipelineInfo(
    stages: seq<ShaderStageInfo>,
    vertexInput: VertexInputState,
    viewportCount: nat,
    scissorCount: nat,
    depthStencil: Option<DepthStencilState>,
    dynamicStates: seq<DynamicState>,
    layout: Handle,
    renderPass: Handle,
    subpass: nat,
    colorFormats: seq<Format>,
    depthFormat: Format)

  /** VkPipelineStageFlagBits used as a semaphore wait stage. */
  datatype WaitStage = ColorAttachmentOutput

  /** Kinds of object a vkDestroy* call (or glfwDestroyWindow) releases. */
  datatype ObjectKind =
    | WindowObject | InstanceObject | DebugMessengerObject | SurfaceObject | DeviceObject
    | SwapchainObject | ImageViewObject | CommandPoolObject | RenderPassObject
    | FramebufferObject | FenceObject | SemaphoreObject | PipelineLayoutObject
    | ShaderModuleObject | PipelineObject

  /** One call from the renderer to the outside world, as it appears in the trace. */
  datatype Call =
    | CreateWindow(extent: Extent, window: Handle)
    | CreateInstance(instance: Handle, messenger: Handle)
    | CreateSurface(instance: Handle, window: Handle, surface: Handle)
    | CreateDevice(surface: Handle, device: Handle, queue: Handle)
    | CreateSwapchain(surface: Handle, extent: Extent, swapchain: Handle, images: seq<Handle>, views: seq<Handle>)
    | CreateCommandPool(pool: Handle)
    | AllocateCommandBuffer(pool: Handle, buffer: Handle)
    | CreateRenderPass(pass: Handle)
    | CreateFramebuffer(pass: Handle, view: Handle, extent: Extent, framebuffer: Handle)
    | CreateFence(signaled: bool, fence: Handle)
    | CreateSemaphore(semaphore: Handle)
    | CreatePipelineLayout(setLayouts: seq<Handle>, layout: Handle)
    | CreateShaderModule(code: Bytes, shaderModule: Handle)
    | CreateGraphicsPipeline(info: GraphicsPipelineInfo, pipeline: Handle)
    | WaitForFence(fence: Handle)
    | ResetFence(fence: Handle)
    | ResetCommandBuffer(buffer: Handle)
    | AcquireNextImage(swapchain: Handle, signal: Handle, imageIndex: nat)
    | BeginCommandBuffer(buffer: Handle)
    | BeginRenderPass(buffer: Handle, pass: Handle, framebuffer: Handle, extent: Extent)
    | BindPipeline(buffer: Handle, pipeline: Handle)
    | DrawVertices(buffer: Handle, vertexCount: nat)
    | EndRenderPass(buffer: Handle)
    | EndCommandBuffer(buffer: Handle)
    | QueueSubmit(queue: Handle, buffer: Handle, wait: Handle, waitStage: WaitStage, signal: Handle, fence: Handle)
    | QueuePresent(queue: Handle, swapchain: Handle, wait: Handle, imageIndex: nat)
    | DeviceWaitIdle(device: Handle)
    | Destroy(kind: ObjectKind, handle: Handle)
    | TerminateWindowing
    | OpenFile(path: string)
    | Abort

  /**
   * The outside world. `trace` lists every call made so far, `nextHandle` is
   * the next fresh handle the driver will hand out, and `aborted` records that
   * the process has ended through abort(). `files` is the file system,
   * `succeeds` the driver's answer to the call at each trace position, and
   * `glslc` the GLSL-to-SPIR-V compiler (None for a compile error).
   */
  class Host {
    var trace: seq<Call>
    var nextHandle: Handle
    var aborted: bool
    const files: map<string, Bytes>
    const succeeds: nat -> bool
    const glslc: (Bytes, ShaderKind) -> Option<Bytes>

    ghost predicate Valid()
      reads this
    {
      nextHandle != NullHandle
    }

    constructor (files: map<string, Bytes>, succeeds: nat -> bool, glslc: (Bytes, ShaderKind) -> Option<Bytes>)
      ensures Valid()
      ensures trace == [] && nextHandle == 1 && !aborted
      ensures this.files == files && this.succeeds == succeeds && this.glslc == glslc
    {
      trace := [];
      nextHandle := 1;
      aborted := false;
      this.files := files;
      this.succeeds := succeeds;
      this.glslc := glslc;
    }

    /** The driver hands out a handle no earlier call has seen. */
    method Fresh() returns (h: Handle)
      requires Valid()
      modifies this`nextHandle
      ensures Valid()
      ensures h == old(nextHandle) && h != NullHandle && nextHandle == h + 1
    {
      h := nextHandle;
      nextHandle := nextHandle + 1;
    }

    /** Makes a call whose result the renderer ignores. */
    method Record(c: Call)
      modifies this`trace
      ensures trace == old(trace) + [c]
    {
      trace := trace + [c];
    }

    /** Makes a call and reports whether the driver answered VK_SUCCESS. */
    method Invoke(c: Call) returns (ok: bool)
      modifies this`trace
      ensures ok == succeeds(|old(trace)|)
      ensures trace == old(trace) + [c]
    {
      ok := succeeds(|trace|);
      trace := trace + [c];
    }

    /**
     * VK_CHECK around a call: any result other than VK_SUCCESS reports the
     * error and ends the process.
     */
    method Checked(c: Call) returns (ok: bool)
      requires !aborted
      modifies this`trace, this`aborted
      ensures ok == succeeds(|old(trace)|)
      ensures ok ==> trace == old(trace) + [c] && !aborted
      ensures !ok ==> trace == old(trace) + [c, Abort] && aborted
    {
      ok := Invoke(c);
      if !ok {
        trace := trace + [Abort];
        aborted := true;
      }
    }

    /** Opens a file: its contents, or None when it cannot be opened. */
    method Open(path: string) returns (contents: Option<Bytes>)
      modifies this`trace
      ensures trace == old(trace) + [OpenFile(path)]
      ensures contents == if path in files then Some(files[path]) else None
    {
      trace := trace + [OpenFile(path)];
      contents := if path in files then Some(files[path]) else None;
    }
  }
}
