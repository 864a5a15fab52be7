/**
 * The graphics-pipeline builder and the shader loaders of the pipeline
 * utilities. The builder accumulates shader stages, vertex input, render
 * pass, descriptor-set layouts, depth-stencil state and attachment formats
 * through setters, then `Build` obtains the pipeline layout from the layout
 * cache and asks the driver for the pipeline.
 */
module Pipelines {
  import opened VkTypes
  import opened Paths
  import opened PipelineLayouts
  import opened VertexInput
  import Shaders

  class PipelineBuilder {
    var device: Handle
    var renderPass: Handle
    var layoutCache: PipelineLayoutCache?
    var shaderStages: seq<ShaderStageInfo>
    var vertexInput: VertexInputState
    var descriptorSetLayouts: seq<Handle>
    var enableDepthStencil: bool
    var depthStencil: DepthStencilState
    var colorFormat: Format
    var depthFormat: Format

    /**
     * The constructor: the manager's device and layout cache; everything
     * else at its declared default (no render pass, no stages, empty vertex
     * input, no descriptor layouts, depth-stencil off and zeroed). The two
     * attachment formats start at whatever their declarations give,
     * `colorFormat0` and `depthFormat0`.
     */
    constructor (managerDevice: Handle, managerCache: PipelineLayoutCache, colorFormat0: Format, depthFormat0: Format)
      ensures device == managerDevice && layoutCache == managerCache
      ensures renderPass == NullHandle && shaderStages == [] && descriptorSetLayouts == []
      ensures vertexInput == VertexInputState([], [])
      ensures !enableDepthStencil && depthStencil == DepthStencilState(false, false, Never)
      ensures colorFormat == colorFormat0 && depthFormat == depthFormat0
    {
      device := managerDevice;
      renderPass := NullHandle;
      layoutCache := managerCache;
      shaderStages := [];
      vertexInput := VertexInputState([], []);
      descriptorSetLayouts := [];
      enableDepthStencil := false;
      depthStencil := DepthStencilState(false, false, Never);
      colorFormat := colorFormat0;
      depthFormat := depthFormat0;
    }

    /** set_color_format. */
    method SetColorFormat(format: Format)
      modifies this`colorFormat
      ensures colorFormat == format
    {
      colorFormat := format;
    }

    /** add_shader_module: one more stage at the end, entry point "main". */
    method AddShaderModule(shaderModule: Handle, stage: StageBits)
      modifies this`shaderStages
      ensures shaderStages == old(shaderStages) + [ShaderStageInfo(stage, shaderModule)]
    {
      shaderStages := shaderStages + [ShaderStageInfo(stage, shaderModule)];
    }

    /** set_renderpass. */
    method SetRenderPass(pass: Handle)
      modifies this`renderPass
      ensures renderPass == pass
    {
      renderPass := pass;
    }

    /** set_vertex_description from attribute and binding vectors: all of each. */
    method SetVertexDescription(attributes: seq<VertexAttribute>, bindings: seq<VertexBinding>)
      modifies this`vertexInput
      ensures vertexInput == VertexInputState(bindings, attributes)
    {
      vertexInput := VertexInputState(bindings, attributes);
    }

    /** set_vertex_description from a VertexInputDescription: its attributes and bindings. */
    method SetVertexDescriptionFrom(description: VertexInputDescription)
      modifies this`vertexInput
      ensures vertexInput == VertexInputState(description.bindings, description.attributes)
    {
      SetVertexDescription(description.attributes, description.bindings);
    }

    /** set_vertex_description from arrays and counts: the first `count` entries of each. */
    method SetVertexDescriptionCounted(attributes: seq<VertexAttribute>, attributeCount: nat, bindings: seq<VertexBinding>, bindingCount: nat)
      requires attributeCount <= |attributes| && bindingCount <= |bindings|
      modifies this`vertexInput
      ensures vertexInput == VertexInputState(bindings[..bindingCount], attributes[..attributeCount])
    {
      vertexInput := VertexInputState(bindings[..bindingCount], attributes[..attributeCount]);
    }

    /** set_depth_stencil: turns depth-stencil on with the given state and records the depth format. */
    method SetDepthStencil(depthTest: bool, depthWrite: bool, compareOp: CompareOp, format: Format)
      modifies this`enableDepthStencil, this`depthStencil, this`depthFormat
      ensures enableDepthStencil
      ensures depthStencil == DepthStencilState(depthTest, depthWrite, compareOp)
      ensures depthFormat == format
    {
      enableDepthStencil := true;
      depthStencil := DepthStencilState(depthTest, depthWrite, compareOp);
      depthFormat := format;
    }

    /** set_descriptor_layouts: replaces the list. */
    method SetDescriptorLayouts(layouts: seq<Handle>)
      modifies this`descriptorSetLayouts
      ensures descriptorSetLayouts == layouts
    {
      descriptorSetLayouts := layouts;
    }

    /**
     * The VkGraphicsPipelineCreateInfo build submits for a given layout:
     * the accumulated stages and vertex input, one viewport and one scissor
     * that are both dynamic, depth-stencil state only when enabled, subpass
     * 0 of the render pass, one colour attachment of the colour format and
     * the depth format.
     */
    function CreateInfo(layout: Handle): GraphicsPipelineInfo
      reads this
    {
      GraphicsPipelineInfo(
        shaderStages, vertexInput, 1, 1,
        if enableDepthStencil then Some(depthStencil) else None,
        [DynamicViewport, DynamicScissor],
        layout, renderPass, 0, [colorFormat], depthFormat)
    }

    /**
     * build: the layout for the current descriptor-set layouts comes from the
     * cache (created there on a miss) and is written out whatever happens
     * next; then one vkCreateGraphicsPipelines call, whose success is the
     * result. A failed creation leaves the null handle in the pipeline slot.
     */
    method Build(host: Host) returns (ok: bool, pipeline: Handle, pipelineLayout: Handle)
      requires layoutCache != null && layoutCache.device != NullHandle
      requires host.Valid() && layoutCache.Valid(host)
      modifies layoutCache`cache, host`trace, host`nextHandle
      ensures host.Valid() && layoutCache.Valid(host)
      ensures var key := PipelineLayoutInfo(descriptorSetLayouts);
        var hit := key in old(layoutCache.cache);
        var mid := if hit then old(host.trace) else old(host.trace) + [Call.CreatePipelineLayout(descriptorSetLayouts, pipelineLayout)];
        && (hit ==> pipelineLayout == old(layoutCache.cache)[key])
        && layoutCache.cache == old(layoutCache.cache)[key := pipelineLayout]
        && |host.trace| == |mid| + 1
        && host.trace[..|mid|] == mid
        && host.trace[|mid|].CreateGraphicsPipeline?
        && host.trace[|mid|].info == CreateInfo(pipelineLayout)
        && ok == host.succeeds(|mid|)
        && pipeline == (if ok then host.trace[|mid|].pipeline else NullHandle)
    {
      var layoutInfo := PipelineLayoutCreateInfo(|descriptorSetLayouts|, descriptorSetLayouts);
      assert descriptorSetLayouts[..|descriptorSetLayouts|] == descriptorSetLayouts;
      var layout := layoutCache.CreatePipelineLayout(host, layoutInfo);
      var info := CreateInfo(layout);
      pipelineLayout := layout;
      var created := host.Fresh();
      ok := host.Invoke(CreateGraphicsPipeline(info, created));
      pipeline := if ok then created else NullHandle;
    }

    /**
     * build(pipeline): build into a local layout that the caller never sees.
     * The ghost `pipelineLayout` names that local, so everything build
     * promises carries over.
     */
    method BuildPipeline(host: Host) returns (ok: bool, pipeline: Handle, ghost pipelineLayout: Handle)
      requires layoutCache != null && layoutCache.device != NullHandle
      requires host.Valid() && layoutCache.Valid(host)
      modifies layoutCache`cache, host`trace, host`nextHandle
      ensures host.Valid() && layoutCache.Valid(host)
      ensures var key := PipelineLayoutInfo(descriptorSetLayouts);
        var hit := key in old(layoutCache.cache);
        var mid := if hit then old(host.trace) else old(host.trace) + [Call.CreatePipelineLayout(descriptorSetLayouts, pipelineLayout)];
        && (hit ==> pipelineLayout == old(layoutCache.cache)[key])
        && layoutCache.cache == old(layoutCache.cache)[key := pipelineLayout]
        && |host.trace| == |mid| + 1
        && host.trace[..|mid|] == mid
        && host.trace[|mid|].CreateGraphicsPipeline?
        && host.trace[|mid|].info == CreateInfo(pipelineLayout)
        && ok == host.succeeds(|mid|)
        && pipeline == (if ok then host.trace[|mid|].pipeline else NullHandle)
    {
      ok, pipeline, pipelineLayout := Build(host);
    }
  }

  /** The stage switch of this loader family: vertex, fragment and compute. */
  function KindForStage(stage: StageBits): Option<ShaderKind> {
    if stage == STAGE_VERTEX then Some(VertexShader)
    else if stage == STAGE_FRAGMENT then Some(FragmentShader)
    else if stage == STAGE_COMPUTE then Some(ComputeShader)
    else None
  }

  /** The switch accepts exactly the stages of the three kinds and inverts StageOf. */
  lemma KindForStageInvertsStageOf(stage: StageBits, kind: ShaderKind)
    ensures KindForStage(stage) == Some(kind) <==> stage == Shaders.StageOf(kind)
  {
  }

  /** It agrees with the stage-typed loader of the shader utilities wherever that one accepts, and adds compute. */
  lemma KindForStageExtendsShaders(stage: StageBits)
    ensures Shaders.KindForStage(stage).Some? ==> KindForStage(stage) == Shaders.KindForStage(stage)
    ensures KindForStage(stage).Some? && Shaders.KindForStage(stage).None? <==> stage == STAGE_COMPUTE
  {
  }

  /** The extension switch of this loader family. */
  function StageForExtension(ext: string): (stage: Option<StageBits>)
    ensures stage.Some? <==> ext == ".vert" || ext == ".frag" || ext == ".comp"
  {
    if ext == ".vert" then Some(STAGE_VERTEX)
    else if ext == ".frag" then Some(STAGE_FRAGMENT)
    else if ext == ".comp" then Some(STAGE_COMPUTE)
    else None
  }

  /** Every extension the switch knows leads to an accepted stage, and it agrees with the shader utilities on ".vert" and ".frag". */
  lemma ExtensionThenStage(ext: string)
    ensures StageForExtension(ext).Some? ==> KindForStage(StageForExtension(ext).value).Some?
    ensures Shaders.StageForExtension(ext).Some? ==> StageForExtension(ext) == Shaders.StageForExtension(ext)
    ensures ext == ".comp" ==> KindForStage(StageForExtension(ext).value) == Some(ComputeShader)
  {
  }

  /**
   * compile_glsl_to_spirv: an unknown stage gives no code; otherwise the
   * compiler's output, which is empty when compilation fails (the failure
   * is only logged).
   */
  function CompileGlslToSpirv(host: Host, stage: StageBits, source: Bytes): Bytes {
    match KindForStage(stage)
    case None => []
    case Some(kind) =>
      match host.glslc(source, kind)
      case None => []
      case Some(spirv) => spirv
  }

  /**
   * The stage-typed load_glsl_shader_module as written: a stage outside the
   * switch fails before the file is opened; an unreadable file fails; any
   * other file goes through compile_glsl_to_spirv and then, even when that
   * produced no code, to compile_shader_module, whose outcome is the
   * loader's.
   */
  method LoadGlslShaderModuleAsWritten(host: Host, path: string, stage: StageBits, out0: Handle) returns (ok: bool, outModule: Handle)
    requires host.Valid()
    modifies host`trace, host`nextHandle
    ensures host.Valid()
    ensures KindForStage(stage).None? ==> !ok && outModule == out0 && host.trace == old(host.trace)
    ensures KindForStage(stage).Some? && path !in host.files ==>
      !ok && outModule == out0 && host.trace == old(host.trace) + [OpenFile(path)]
    ensures KindForStage(stage).Some? && path in host.files ==>
      Shaders.CreatedModule(host, old(host.trace) + [OpenFile(path)], old(host.nextHandle),
        CompileGlslToSpirv(host, stage, host.files[path]), out0, ok, outModule)
  {
    ok, outModule := false, out0;
    var kind := KindForStage(stage);
    if kind.None? {
      return;
    }
    var source := host.Open(path);
    if source.None? {
      return;
    }
    var buffer := CompileGlslToSpirv(host, stage, source.value);
    ok, outModule := Shaders.CompileShaderModule(host, buffer, out0);
  }

  /**
   * As written, a GLSL file that fails to compile still reaches
   * vkCreateShaderModule, with empty code, and the loader reports whatever
   * the driver answers, possibly success.
   */
  lemma CompileErrorStillCreatesModule(host: Host, t0: seq<Call>, h0: Handle, path: string, stage: StageBits, out0: Handle, ok: bool, outModule: Handle)
    requires KindForStage(stage).Some? && path in host.files
    requires host.glslc(host.files[path], KindForStage(stage).value).None?
    requires Shaders.CreatedModule(host, t0 + [OpenFile(path)], h0, CompileGlslToSpirv(host, stage, host.files[path]), out0, ok, outModule)
    ensures host.trace == t0 + [OpenFile(path), CreateShaderModule([], h0)]
    ensures ok == host.succeeds(|t0| + 1)
  {
  }

  /**
   * The stage-typed load_glsl_shader_module with the compile failure
   * reported, as the shader utilities' loader does: a stage outside the
   * three-way switch fails before the file is opened; then open, compile,
   * and create a module only from compiled code.
   */
  method LoadGlslShaderModuleForStage(host: Host, path: string, stage: StageBits, out0: Handle) returns (ok: bool, outModule: Handle)
    requires host.Valid()
    modifies host`trace, host`nextHandle
    ensures host.Valid()
    ensures KindForStage(stage).None? ==> !ok && outModule == out0 && host.trace == old(host.trace)
    ensures KindForStage(stage).Some? ==>
      Shaders.GlslLoaded(host, old(host.trace), old(host.nextHandle), path, KindForStage(stage).value, out0, ok, outModule)
  {
    ok, outModule := false, out0;
    var kind := KindForStage(stage);
    if kind.None? {
      return;
    }
    var source := host.Open(path);
    if source.None? {
      return;
    }
    var compiled := host.glslc(source.value, kind.value);
    if compiled.None? {
      return;
    }
    ok, outModule := Shaders.CompileShaderModule(host, compiled.value, out0);
  }

  /**
   * The outcome of the path-only load_glsl_shader_module, from trace `t0`
   * and next handle `h0`: an extension other than ".vert", ".frag" or
   * ".comp" fails before the file is opened; otherwise the stage-typed
   * loader as written runs for the extension's stage.
   */
  ghost predicate PathLoaded(host: Host, t0: seq<Call>, h0: Handle, path: string, out0: Handle, ok: bool, outModule: Handle)
    reads host
  {
    match StageForExtension(Extension(path))
    case None => !ok && outModule == out0 && host.trace == t0
    case Some(stage) =>
      if path !in host.files then !ok && outModule == out0 && host.trace == t0 + [OpenFile(path)]
      else Shaders.CreatedModule(host, t0 + [OpenFile(path)], h0, CompileGlslToSpirv(host, stage, host.files[path]), out0, ok, outModule)
  }

  /**
   * The path-only load_glsl_shader_module: ".vert", ".frag" or ".comp"
   * select the stage, and the stage-typed loader as written does the rest.
   */
  method LoadGlslShaderModule(host: Host, path: string, out0: Handle) returns (ok: bool, outModule: Handle)
    requires host.Valid()
    modifies host`trace, host`nextHandle
    ensures host.Valid()
    ensures PathLoaded(host, old(host.trace), old(host.nextHandle), path, out0, ok, outModule)
  {
    ok, outModule := false, out0;
    var stage := StageForExtension(Extension(path));
    if stage.None? {
      return;
    }
    ok, outModule := LoadGlslShaderModuleAsWritten(host, path, stage.value, out0);
  }

  /**
   * The path-only loader on a file of a known extension that fails to
   * compile: the file is opened and a shader module is created from empty
   * code, and the loader reports the driver's answer.
   */
  lemma PathLoaderCompileErrorCreatesModule(host: Host, t0: seq<Call>, h0: Handle, path: string, kind: ShaderKind, out0: Handle, ok: bool, outModule: Handle)
    requires StageForExtension(Extension(path)) == Some(Shaders.StageOf(kind))
    requires path in host.files && host.glslc(host.files[path], kind).None?
    requires PathLoaded(host, t0, h0, path, out0, ok, outModule)
    ensures host.trace == t0 + [OpenFile(path), CreateShaderModule([], h0)]
    ensures ok == host.succeeds(|t0| + 1)
  {
    KindForStageInvertsStageOf(Shaders.StageOf(kind), kind);
  }

  /**
   * For ".vert" and ".frag" files, the path-only loader behaves exactly as
   * the shader utilities' path loader, compile errors aside: an unreadable
   * file fails alike, and compiled code creates the same module.
   */
  lemma PathLoaderAgreesWithShaders(host: Host, t0: seq<Call>, h0: Handle, path: string, kind: ShaderKind, out0: Handle, ok: bool, outModule: Handle)
    requires Shaders.StageForExtension(Extension(path)) == Some(Shaders.StageOf(kind))
    requires !Shaders.CompileFile(host, path, kind).CompileFailed?
    requires PathLoaded(host, t0, h0, path, out0, ok, outModule)
    ensures Shaders.GlslLoaded(host, t0, h0, path, kind, out0, ok, outModule)
  {
    ExtensionThenStage(Extension(path));
    KindForStageInvertsStageOf(Shaders.StageOf(kind), kind);
  }

  /** With the check in place, a compile error creates nothing and fails. */
  lemma CompileErrorCreatesNothing(host: Host, t0: seq<Call>, h0: Handle, path: string, kind: ShaderKind, out0: Handle, ok: bool, outModule: Handle)
    requires path in host.files && host.glslc(host.files[path], kind).None?
    requires Shaders.GlslLoaded(host, t0, h0, path, kind, out0, ok, outModule)
    ensures !ok && outModule == out0
    ensures forall i :: |t0| <= i < |host.trace| ==> !host.trace[i].CreateShaderModule?
  {
  }
}
