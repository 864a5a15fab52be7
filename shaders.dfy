/**
 * Shader-module loading: picking the shader kind from a stage or from a
 * file extension, reading SPIR-V or GLSL files, compiling GLSL, and creating
 * the VkShaderModule. Every loader reports success as a boolean and writes
 * its output handle only when it succeeds; `out0` below is the value the
 * caller's output variable holds before the call, and `outModule` the value
 * it holds after.
 */
module Shaders {
  import opened VkTypes
  import opened Paths

  /** The stage bit each shader kind runs in. */
  function StageOf(kind: ShaderKind): StageBits {
    match kind
    case VertexShader => STAGE_VERTEX
    case FragmentShader => STAGE_FRAGMENT
    case ComputeShader => STAGE_COMPUTE
  }

  /** The stage switch of the stage-typed GLSL loader: vertex and fragment only. */
  function KindForStage(stage: StageBits): Option<ShaderKind> {
    if stage == STAGE_VERTEX then Some(VertexShader)
    else if stage == STAGE_FRAGMENT then Some(FragmentShader)
    else None
  }

  /** The stage switch accepts a stage exactly when it is a vertex or fragment kind's stage, and returns that kind. */
  lemma KindForStageExact(stage: StageBits, kind: ShaderKind)
    ensures KindForStage(stage) == Some(kind) <==> kind != ComputeShader && stage == StageOf(kind)
  {
  }

  /** The extension switch of the path-only GLSL loader. */
  function StageForExtension(ext: string): (stage: Option<StageBits>)
    ensures stage.Some? <==> ext == ".vert" || ext == ".frag"
  {
    if ext == ".vert" then Some(STAGE_VERTEX)
    else if ext == ".frag" then Some(STAGE_FRAGMENT)
    else None
  }

  /**
   * Every stage the extension switch picks is one the stage switch accepts,
   * and ".vert" / ".frag" end up as the vertex / fragment kinds.
   */
  lemma ExtensionThenStage(ext: string)
    ensures StageForExtension(ext).Some? ==> KindForStage(StageForExtension(ext).value).Some?
    ensures ext == ".vert" ==> KindForStage(StageForExtension(ext).value) == Some(VertexShader)
    ensures ext == ".frag" ==> KindForStage(StageForExtension(ext).value) == Some(FragmentShader)
  {
  }

  /** The code handed to the driver for a SPIR-V file: its bytes rounded down to whole 32-bit words. */
  function SpirvCode(contents: Bytes): (code: Bytes)
    ensures |code| % 4 == 0 && |code| <= |contents| < |code| + 4
    ensures code == contents[..|code|]
  {
    contents[..|contents| / 4 * 4]
  }

  /** What reading and compiling a GLSL file gives. */
  datatype GlslSource = Unreadable | CompileFailed | Compiled(code: Bytes)

  /** Open the file, then compile its whole contents for the given kind. */
  function CompileFile(host: Host, path: string, kind: ShaderKind): GlslSource {
    if path !in host.files then Unreadable
    else match host.glslc(host.files[path], kind)
      case None => CompileFailed
      case Some(code) => Compiled(code)
  }

  /**
   * The effect of compile_shader_module on trace and output, from a trace
   * `t0` and next handle `h0`: one vkCreateShaderModule for `code`; on
   * success the output is the new module, otherwise it keeps `out0`.
   */
  ghost predicate CreatedModule(host: Host, t0: seq<Call>, h0: Handle, code: Bytes, out0: Handle, ok: bool, outModule: Handle)
    reads host
  {
    && host.trace == t0 + [CreateShaderModule(code, h0)]
    && ok == host.succeeds(|t0|)
    && outModule == (if ok then h0 else out0)
  }

  /** compile_shader_module: creates the module and writes the output only on VK_SUCCESS. */
  method CompileShaderModule(host: Host, code: Bytes, out0: Handle) returns (ok: bool, outModule: Handle)
    requires host.Valid()
    modifies host`trace, host`nextHandle
    ensures host.Valid() && host.nextHandle == old(host.nextHandle) + 1
    ensures CreatedModule(host, old(host.trace), old(host.nextHandle), code, out0, ok, outModule)
  {
    outModule := out0;
    var shaderModule := host.Fresh();
    ok := host.Invoke(CreateShaderModule(code, shaderModule));
    if ok {
      outModule := shaderModule;
    }
  }

  /**
   * load_spirv_shader_module: a file that cannot be opened fails with no
   * driver call; otherwise its contents, cut to whole words, go to
   * compile_shader_module, whose outcome is the loader's.
   */
  method LoadSpirvShaderModule(host: Host, path: string, out0: Handle) returns (ok: bool, outModule: Handle)
    requires host.Valid()
    modifies host`trace, host`nextHandle
    ensures host.Valid()
    ensures path !in host.files ==> !ok && outModule == out0 && host.trace == old(host.trace) + [OpenFile(path)]
    ensures path in host.files ==>
      CreatedModule(host, old(host.trace) + [OpenFile(path)], old(host.nextHandle), SpirvCode(host.files[path]), out0, ok, outModule)
  {
    ok, outModule := false, out0;
    var contents := host.Open(path);
    if contents.None? {
      return;
    }
    var buffer := contents.value[..|contents.value| / 4 * 4];
    ok, outModule := CompileShaderModule(host, buffer, out0);
  }

  /**
   * The outcome of a GLSL loader once the kind is known: the file is opened;
   * an unreadable file or a compile error fails with nothing created; a
   * compiled module goes to compile_shader_module.
   */
  ghost predicate GlslLoaded(host: Host, t0: seq<Call>, h0: Handle, path: string, kind: ShaderKind, out0: Handle, ok: bool, outModule: Handle)
    reads host
  {
    match CompileFile(host, path, kind)
    case Compiled(code) => CreatedModule(host, t0 + [OpenFile(path)], h0, code, out0, ok, outModule)
    case _ => !ok && outModule == out0 && host.trace == t0 + [OpenFile(path)]
  }

  /**
   * The stage-typed load_glsl_shader_module: a stage other than vertex or
   * fragment fails before the file is opened; otherwise open, compile and
   * create as GlslLoaded says.
   */
  method LoadGlslShaderModuleForStage(host: Host, path: string, stage: StageBits, out0: Handle) returns (ok: bool, outModule: Handle)
    requires host.Valid()
    modifies host`trace, host`nextHandle
    ensures host.Valid()
    ensures KindForStage(stage).None? ==> !ok && outModule == out0 && host.trace == old(host.trace)
    ensures KindForStage(stage).Some? ==>
      GlslLoaded(host, old(host.trace), old(host.nextHandle), path, KindForStage(stage).value, out0, ok, outModule)
  {
    ok, outModule := false, out0;
    var kind := KindForStage(stage);
    if kind.None? {
      return;
    }
    var source := host.Open(path);
    if source.None? {
      return;
    }
    var compiled := host.glslc(source.value, kind.value);
    if compiled.None? {
      return;
    }
    ok, outModule := CompileShaderModule(host, compiled.value, out0);
  }

  /**
   * The path-only load_glsl_shader_module: an extension other than ".vert"
   * or ".frag" fails before the file is opened; otherwise it defers to the
   * stage-typed loader with the stage the extension names.
   */
  method LoadGlslShaderModule(host: Host, path: string, out0: Handle) returns (ok: bool, outModule: Handle)
    requires host.Valid()
    modifies host`trace, host`nextHandle
    ensures host.Valid()
    ensures StageForExtension(Extension(path)).None? ==> !ok && outModule == out0 && host.trace == old(host.trace)
    ensures Extension(path) == ".vert" ==> GlslLoaded(host, old(host.trace), old(host.nextHandle), path, VertexShader, out0, ok, outModule)
    ensures Extension(path) == ".frag" ==> GlslLoaded(host, old(host.trace), old(host.nextHandle), path, FragmentShader, out0, ok, outModule)
  {
    ok, outModule := false, out0;
    var ext := Extension(path);
    var stage := StageForExtension(ext);
    if stage.None? {
      return;
    }
    assert ext == ".vert" ==> KindForStage(stage.value) == Some(VertexShader);
    assert ext == ".frag" ==> KindForStage(stage.value) == Some(FragmentShader);
    ok, outModule := LoadGlslShaderModuleForStage(host, path, stage.value, out0);
  }

  /** Whatever a loader reports, a changed output means success and a fresh module. */
  lemma OutputOnlyOnSuccess(host: Host, t0: seq<Call>, h0: Handle, code: Bytes, out0: Handle, ok: bool, outModule: Handle)
    requires CreatedModule(host, t0, h0, code, out0, ok, outModule)
    ensures outModule != out0 ==> ok && outModule == h0 && host.trace[|t0|] == CreateShaderModule(code, outModule)
    ensures !ok ==> outModule == out0
  {
  }
}
