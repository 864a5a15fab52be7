# VulkanSandbox renderer core, modelled in Dafny

This project models the core of the VulkanSandbox renderer:

- the `VulkanEngine` bring-up, per-frame draw and teardown;
- the synchronisation discipline of one frame (render fence, present and
  render semaphores, one command buffer);
- the deferred-destruction `DeletionQueue`;
- the `PipelineLayoutCache` with its key equality and XOR hash;
- the fluent `PipelineBuilder`;
- the `VertexInputDescriptionBuilder` and the fixed `Vertex` description;
- the shader-module loaders (SPIR-V files, GLSL compiled through shaderc,
  dispatch on shader stage or file extension);
- the OBJ-to-triangle-list flattening of `load_mesh_from_obj`;
- the `Application` shell: layer stack, event queue, minimised-window gate,
  resize handlers and destructor.

Everything outside the program is one `Host` object (`vk_types.dfy`): the
Vulkan driver, vk-bootstrap, GLFW, the file system and the shaderc
compiler. Every call the renderer makes is appended to `Host.trace`, and
created objects get fresh handles from a counter. Whether the driver
answers `VK_SUCCESS` to the call at trace position `i` is the parameter
`Host.succeeds(i)`. `VK_CHECK` becomes `Host.Checked`: a failed call is
followed by an `Abort` entry, and the run counts as ended (`Host.aborted`).
`CORE_ASSERT` becomes a precondition.

The modules follow the source files:

| file | module | models |
|---|---|---|
| `vk_types.dfy` | `VkTypes` | Vulkan handles and create-info structures, the call trace, `VK_CHECK` |
| `paths.dfy` | `Paths` | `std::filesystem::path::filename` and `extension` |
| `deletion_queue.dfy` | `DeletionQueues` | `DeletionQueue` (`vk_engine.h`) |
| `size_t.dfy` | `SizeT` | 64-bit `size_t` words and bitwise XOR on them |
| `pipeline_layout_cache.dfy` | `PipelineLayouts` | `PipelineLayoutCache` (`vk_pipeline.cpp`) |
| `vertex_input.dfy` | `VertexInput` | vertex input descriptions (`vk_scene.h`, `vk_scene.cpp`, `vk_pipeline.cpp`) |
| `pipelines.dfy` | `Pipelines` | `PipelineBuilder` and the GLSL loaders of `vk_pipeline.cpp` |
| `shaders.dfy` | `Shaders` | the shader loaders of `vk_shader.cpp` |
| `obj_mesh.dfy` | `Meshes` | `load_mesh_from_obj` (`vk_scene.cpp`) |
| `frame_sync.dfy` | `FrameSync` | the calls of one frame of `draw` and the rules they must respect |
| `engine.dfy` | `Engine` | `VulkanEngine` and the engine's own loaders and `build_pipeline` (`vk_engine.cpp`) |
| `application.dfy` | `Applications` | `Application` (`application.cpp`) |

Where the code and the repository's own description disagree, the model
follows the code:

- **Builder setters and fields.** `vk_pipeline.cpp` defines
  `set_color_format` and a four-argument `set_depth_stencil`, and it uses
  colour and depth format fields that `vk_pipeline.h` does not declare.
  The model follows the `.cpp`. The initial values of the two formats are
  constructor parameters.
- **Engine fields.** `vk_engine.cpp` uses a single render fence, two
  semaphores, one command pool and one command buffer. The header's
  per-frame structure is not used by that code, and the model follows the
  `.cpp`.
- **The legacy pipeline builder.** `init_pipelines` builds the triangle
  with the older `PipelineBuilder::build_pipeline` that `vk_engine.cpp`
  defines itself. That function has static viewport and scissor and no
  depth-stencil state, and the model uses it there.
- **Compile errors.** Compile errors are described as surfacing as a
  failure. The stage-typed GLSL loader of `vk_pipeline.cpp`, and the
  path-only loader that calls it, do not do this (see Findings).

## Model

| member | source | states |
|---|---|---|
| VkTypes.Host.Checked | src/vk_engine.cpp:17-26 | VK_CHECK: the result is the driver's answer; success leaves just the call in the trace; failure appends the call and an abort and ends the run |
| VkTypes.Host.Open | src/vk_shader.cpp:59-63 | opening a file is recorded; it yields the file's contents exactly when the file exists |
| Paths.LastIndexOfIsLast | src/vk_shader.cpp:149 | the search for the last dot or separator returns -1 exactly when there is none, and no later position holds one |
| Paths.FileNameIsLastComponent | src/vk_shader.cpp:149 | `filename()` is a suffix of the path with no separator, preceded by a separator or the path start |
| Paths.ExtensionIsDotSuffix | src/vk_shader.cpp:149 | `extension()` is empty or a proper suffix of the file name that begins at its only dot; ".", ".." and dot-files have none |
| Paths.ExtensionOfStemAndSuffix | src/vk_shader.cpp:149 | a path ending in a stem, a dot and a suffix with neither dots nor separators has exactly "." plus that suffix as its extension |
| DeletionQueues.Reversed | src/vk_engine.h:62-68 | the flush order has as many entries as the queue |
| DeletionQueues.ReversedAt | src/vk_engine.h:62-68 | the k-th action flushed is the k-th registered counted from the back |
| DeletionQueues.ReversedIsPermutation | src/vk_engine.h:62-68 | a flush runs every registered action exactly as often as it was registered |
| DeletionQueues.ReversedSnoc | src/vk_engine.h:60-68 | the action registered last is run first |
| DeletionQueues.ReversedPrepend | src/vk_engine.h:62-68 | the action registered first is run last |
| DeletionQueues.DeletionQueue.constructor | src/vk_engine.h:56-58 | a new queue is empty |
| DeletionQueues.DeletionQueue.PushFunction | src/vk_engine.h:60 | push_function appends the action at the back and leaves earlier entries alone |
| DeletionQueues.DeletionQueue.Flush | src/vk_engine.h:62-68 | flush runs the registered actions in reverse order of registration, then empties the queue |
| DeletionQueues.RegisterThreeAndFlushTwice | src/vk_engine.h:60-68 | registering A, B, C and flushing runs C, B, A; a second flush runs nothing |
| PipelineLayouts.MatchFromIff | src/vk_pipeline.cpp:107-111 | the element loop of operator== succeeds from index i exactly when the two lists agree from i on |
| PipelineLayouts.EqualsIffSameList | src/vk_pipeline.cpp:103-112 | two keys compare equal exactly when they hold the same handles in the same order |
| PipelineLayouts.EqualsReflexive | src/vk_pipeline.cpp:103-112 | every key equals itself, so the map finds a key it stored |
| PipelineLayouts.EqualKeysHashEqually | src/vk_pipeline.cpp:103-125 | keys that compare equal hash equally, for any std::hash (the unordered_map requirement) |
| PipelineLayouts.XorAllAppend | src/vk_pipeline.cpp:118-122 | the XOR fold over two concatenated lists is the XOR of the two folds |
| PipelineLayouts.XorAllRemove | src/vk_pipeline.cpp:118-122 | removing one handle from the list removes its hash from the fold |
| PipelineLayouts.XorAllPermutation | src/vk_pipeline.cpp:118-122 | the fold depends only on the multiset of handles, not on their order |
| PipelineLayouts.ReorderedKeysCollide | src/vk_pipeline.cpp:103-125 | reorderings of the same handles hash alike but compare equal only when identical |
| PipelineLayouts.SwappedPairCollides | src/vk_pipeline.cpp:103-125 | [h1, h2] and [h2, h1] with h1 != h2 have the same hash and are different keys |
| PipelineLayouts.KeyOf | src/vk_pipeline.cpp:78-82 | the key holds exactly the first setLayoutCount set layouts, in order |
| PipelineLayouts.DestroyCalls | src/vk_pipeline.cpp:96-101 | one vkDestroyPipelineLayout per destroyed layout, in order |
| PipelineLayouts.PipelineLayoutCache.Default | src/vk_pipeline.h:15 | the defaulted cache has no device and an empty map |
| PipelineLayouts.PipelineLayoutCache.constructor | src/vk_pipeline.h:16-17 | the cache keeps the given device and starts empty |
| PipelineLayouts.PipelineLayoutCache.CreatePipelineLayout | src/vk_pipeline.cpp:74-94 | a hit returns the stored layout with no driver call; a miss creates one layout and caches it under the key; the map stays one-to-one |
| PipelineLayouts.PipelineLayoutCache.Cleanup | src/vk_pipeline.cpp:96-101 | every cached layout is destroyed exactly once, in some order; the map itself is not cleared |
| PipelineLayouts.SameListSameLayout | src/vk_pipeline.cpp:74-94 | asking twice for the same list returns the same layout and makes at most one driver call |
| PipelineLayouts.DifferentListsDifferentLayouts | src/vk_pipeline.cpp:74-94 | different layout lists never share a pipeline layout |
| VertexInput.VertexInputDescriptionBuilder.constructor | src/vk_pipeline.cpp:52-59 | the sized builder starts with one per-vertex binding 0 of the given stride, no attributes, location 0 |
| VertexInput.VertexInputDescriptionBuilder.PushAttrib | src/vk_pipeline.cpp:61-71 | push_attrib appends one attribute on binding 0 at the current location with the type's format and the offset, and advances the uint32 location counter (wrapping) |
| VertexInput.BuildDescription | src/vk_pipeline.cpp:52-71 | a sized builder plus n pushes yields binding 0 of that stride and n attributes, the k-th at location k with its own format and offset |
| VertexInput.VertexDescriptionShape | src/vk_scene.cpp:4-36 | the Vertex description has one binding of sizeof(Vertex) and float3 position, normal and colour at locations 0-2, non-overlapping and inside the stride |
| VertexInput.BuiltDescriptionWellFormed | src/vk_pipeline.cpp:52-71 | any description the builder makes from pushes that fit the stride has unique locations and attributes inside their binding |
| VertexInput.DescribeVertexWithBuilder | src/vk_scene.cpp:4-36 | the builder produces the same well-formed description as get_vertex_description |
| Pipelines.PipelineBuilder.constructor | src/vk_pipeline.cpp:127-132 | the builder takes the manager's device and layout cache; every other setting starts at its declared default |
| Pipelines.PipelineBuilder.SetColorFormat | src/vk_pipeline.cpp:134-138 | sets the colour attachment format, nothing else |
| Pipelines.PipelineBuilder.AddShaderModule | src/vk_pipeline.cpp:140-144 | appends one stage with entry point "main" after the earlier ones |
| Pipelines.PipelineBuilder.SetRenderPass | src/vk_pipeline.cpp:146-150 | sets the render pass, nothing else |
| Pipelines.PipelineBuilder.SetVertexDescription | src/vk_pipeline.cpp:152-160 | the vertex input holds all given bindings and attributes |
| Pipelines.PipelineBuilder.SetVertexDescriptionFrom | src/vk_pipeline.cpp:162-165 | the vertex input holds the description's bindings and attributes |
| Pipelines.PipelineBuilder.SetVertexDescriptionCounted | src/vk_pipeline.cpp:167-176 | the vertex input holds the first count entries of each array |
| Pipelines.PipelineBuilder.SetDepthStencil | src/vk_pipeline.cpp:178-184 | turns depth-stencil on with the given test, write and compare op, and records the depth format |
| Pipelines.PipelineBuilder.SetDescriptorLayouts | src/vk_pipeline.cpp:186-191 | replaces the descriptor-set layout list |
| Pipelines.PipelineBuilder.Build | src/vk_pipeline.cpp:193-265 | the layout comes from the cache for the current set layouts and is written out; one pipeline creation follows, with the builder's stages and vertex input, dynamic viewport and scissor, depth-stencil exactly when enabled, subpass 0 and the colour and depth formats; its success is the result; the pipeline slot is null on failure |
| Pipelines.PipelineBuilder.BuildPipeline | src/vk_pipeline.cpp:267-271 | everything Build promises, for a layout the caller does not receive: the cache update, at most one layout creation on a miss, then one pipeline creation with the builder's create info, its success as the result and a null pipeline on failure |
| Pipelines.KindForStageInvertsStageOf | src/vk_pipeline.cpp:403-418 | the stage switch accepts exactly the vertex, fragment and compute stages and maps each to its own kind |
| Pipelines.KindForStageExtendsShaders | src/vk_pipeline.cpp:403-418 | it agrees with the vk_shader.cpp switch wherever that one accepts, and adds compute only |
| Pipelines.StageForExtension | src/vk_pipeline.cpp:447-463 | a stage is chosen exactly for ".vert", ".frag" and ".comp" |
| Pipelines.ExtensionThenStage | src/vk_pipeline.cpp:447-465 | every stage the extension picks is accepted by the stage switch; it agrees with vk_shader.cpp on ".vert" and ".frag"; ".comp" gives the compute kind |
| Pipelines.LoadGlslShaderModuleAsWritten | src/vk_pipeline.cpp:399-445 | an unknown stage or an unreadable file fails; any other file, even one that failed to compile, goes to vkCreateShaderModule |
| Pipelines.CompileErrorStillCreatesModule | src/vk_pipeline.cpp:389-396 | as written, a compile error still creates a shader module from empty code, and the loader reports the driver's answer |
| Pipelines.LoadGlslShaderModuleForStage | src/vk_pipeline.cpp:399-445 | an unknown stage fails before the file is opened; otherwise open, compile, and create a module only from compiled code |
| Pipelines.CompileErrorCreatesNothing | src/vk_pipeline.cpp:399-445 | with the check, a compile error fails, leaves the output alone and creates no module |
| Pipelines.LoadGlslShaderModule | src/vk_pipeline.cpp:447-466 | an extension other than ".vert", ".frag" or ".comp" fails before the file is opened; otherwise the stage-typed load as written runs for that extension's stage, so a file that fails to compile still reaches vkCreateShaderModule |
| Pipelines.PathLoaderCompileErrorCreatesModule | src/vk_pipeline.cpp:389-466 | a known extension, a readable file and a compile error: the file is opened, a module is created from zero bytes of code, and the result is the driver's answer |
| Pipelines.PathLoaderAgreesWithShaders | src/vk_pipeline.cpp:447-466 | on ".vert" and ".frag" files that are unreadable or compile, the path loader ends exactly as the shader utilities' path loader does |
| Shaders.KindForStageExact | src/vk_shader.cpp:86-98 | the stage switch accepts exactly the vertex and fragment stages and returns their kinds |
| Shaders.StageForExtension | src/vk_shader.cpp:149-161 | a stage is chosen exactly for ".vert" and ".frag" |
| Shaders.ExtensionThenStage | src/vk_shader.cpp:146-164 | every extension-chosen stage is accepted, ".vert" as vertex and ".frag" as fragment |
| Shaders.SpirvCode | src/vk_shader.cpp:65-72 | the SPIR-V handed to the driver is the file's bytes cut to a whole number of 32-bit words, losing fewer than 4 bytes |
| Shaders.CompileShaderModule | src/vk_shader.cpp:35-54 | one vkCreateShaderModule for the code; the output is the new module on success and unchanged otherwise |
| Shaders.LoadSpirvShaderModule | src/vk_shader.cpp:56-79 | an unopenable file fails with no driver call; otherwise the word-aligned contents go to compile_shader_module |
| Shaders.LoadGlslShaderModuleForStage | src/vk_shader.cpp:81-144 | an unknown stage fails before opening; an unreadable file or compile error fails with nothing created; compiled code goes to compile_shader_module |
| Shaders.LoadGlslShaderModule | src/vk_shader.cpp:146-164 | an extension other than ".vert" or ".frag" fails before opening; otherwise the stage-typed load of the matching kind |
| Shaders.OutputOnlyOnSuccess | src/vk_shader.cpp:47-53 | the output changes only on success, and then to the module the recorded call created |
| Meshes.LoadMeshFromObj | src/vk_scene.cpp:37-103 | a non-empty error text gives no mesh; otherwise the mesh holds exactly the triangle-list vertices of all shapes in order |
| Meshes.AppendShapeVertices | src/vk_scene.cpp:62-99 | the face and corner loops append one shape's vertices, three per face in index order |
| Meshes.Corners | src/vk_scene.cpp:66-96 | one vertex per index entry read |
| Meshes.FlattenLength | src/vk_scene.cpp:63-69 | exactly three vertices per face, whatever the face's own corner count |
| Meshes.CornersAt | src/vk_scene.cpp:69-96 | the k-th vertex of a shape is built from its k-th index entry |
| Meshes.LastShapeCornerAt | src/vk_scene.cpp:60-99 | corner v of face f of the last shape sits at 3 * (earlier faces) + 3 * f + v and comes from index entry 3 * f + v |
| Meshes.ShapeCornerAt | src/vk_scene.cpp:60-99 | for every shape s, corner v of face f sits at 3 * (faces of shapes before s) + 3 * f + v and comes from index entry 3 * f + v of shape s |
| Meshes.ColorIsNormal | src/vk_scene.cpp:93-94 | every produced vertex has its normal as its colour |
| FrameSync.FrameCalls | src/vk_engine.cpp:227-298 | one frame is twelve calls |
| FrameSync.RunAppend | src/vk_engine.cpp:227-298 | checking two call lists in a row is checking the first, then the second from the state the first left |
| FrameSync.FramePrologue | src/vk_engine.cpp:229-233 | the fence wait and the two resets bring every between-frames state to the same idle one |
| FrameSync.FrameAcquire | src/vk_engine.cpp:236-244 | acquiring signals the present semaphore and recording starts |
| FrameSync.FrameRenderPass | src/vk_engine.cpp:251-264 | the render pass opens, draws and closes inside the recording |
| FrameSync.FrameSubmit | src/vk_engine.cpp:265-295 | ending, submitting and presenting consume both semaphore signals and leave the submission pending on the fence |
| FrameSync.FrameBody | src/vk_engine.cpp:236-295 | the frame after its prologue respects every rule and ends with its submission in flight |
| FrameSync.FrameKeepsSync | src/vk_engine.cpp:227-298 | from any state between frames, a frame respects every fence, semaphore and command-buffer rule and leaves a state between frames |
| FrameSync.Frames | src/vk_engine.cpp:300-307 | n frames are 12n calls |
| FrameSync.FramesKeepSync | src/vk_engine.cpp:300-307 | any number of consecutive frames, from the state init leaves, respects every rule |
| FrameSync.UnsignaledFenceBlocksFirstFrame | src/vk_engine.cpp:421-424 | the fence must be created signalled: otherwise the first frame's wait can never be satisfied |
| FrameSync.SkippingTheWaitBreaksSync | src/vk_engine.cpp:229-230 | without the fence wait, the next frame would reset a fence the previous submission still has to signal |
| Engine.KindForExtension | src/vk_engine.cpp:65-75 | the engine's loader accepts exactly ".vert" and ".frag" |
| Engine.KindForExtensionAgreesWithShaders | src/vk_engine.cpp:65-75 | it picks the same kind as the vk_shader.cpp path loader |
| Engine.TriangleFragExtension | src/vk_engine.cpp:436-437 | the triangle's fragment shader file has extension ".frag" |
| Engine.TriangleVertExtension | src/vk_engine.cpp:444-445 | the triangle's vertex shader file has extension ".vert" |
| Engine.LoadGlslShaderModule | src/vk_engine.cpp:61-127 | an unknown extension fails before opening; a compile error fails with nothing created; success means the file compiled and the output is the new module |
| Engine.BuildLegacyPipeline | src/vk_engine.cpp:166-174 | one vkCreateGraphicsPipelines call; the pipeline on success, the null handle otherwise |
| Engine.FramebufferCalls | src/vk_engine.cpp:414-418 | one framebuffer creation per framebuffer |
| Engine.FramebufferCallsAt | src/vk_engine.cpp:414-418 | the i-th creation makes framebuffer i on image view i with the render pass and window extent |
| Engine.FramebufferDestroyCalls | src/vk_engine.cpp:212-215 | two destructions per framebuffer |
| Engine.FramebufferDestroyCallsAt | src/vk_engine.cpp:212-215 | calls 2i and 2i+1 destroy framebuffer i, then image view i |
| Engine.VulkanEngine.constructor | src/vk_engine.h:75-80 | a new engine is uninitialised, at frame 0, with a 1600 x 900 window extent and no objects |
| Engine.VulkanEngine.SetupCalls | src/vk_engine.cpp:177-191 | init makes 11 calls plus one per framebuffer before init_pipelines |
| Engine.VulkanEngine.InitVulkan | src/vk_engine.cpp:309-340 | instance and messenger, the checked surface, then device and graphics queue; a surface failure aborts right there |
| Engine.VulkanEngine.InitSwapchain | src/vk_engine.cpp:342-357 | one swapchain for the window extent, with as many views as images |
| Engine.VulkanEngine.InitCommands | src/vk_engine.cpp:359-369 | the checked command pool, then the checked command buffer from it |
| Engine.VulkanEngine.InitDefaultRenderPass | src/vk_engine.cpp:371-404 | one checked render pass |
| Engine.VulkanEngine.InitFramebuffers | src/vk_engine.cpp:406-419 | one framebuffer per swapchain image, the i-th on view i |
| Engine.VulkanEngine.InitSyncStructures | src/vk_engine.cpp:421-431 | the fence, created signalled, then two distinct semaphores |
| Engine.VulkanEngine.InitPipelines | src/vk_engine.cpp:433-491 | fragment then vertex shader, stopping quietly when one fails to load; then the checked empty layout and the triangle pipeline |
| Engine.VulkanEngine.LoadTriangleShaders | src/vk_engine.cpp:435-451 | the fragment shader is opened first; the vertex shader is loaded only if the fragment shader loaded; a success means the file compiled |
| Engine.VulkanEngine.CreateTrianglePipeline | src/vk_engine.cpp:453-490 | the checked empty pipeline layout, then the triangle pipeline on it, vertex stage first |
| Engine.VulkanEngine.Init | src/vk_engine.cpp:177-195 | unless a VK_CHECK ends the run, init runs its steps in order, makes one framebuffer per image and sets isInitialized |
| Engine.VulkanEngine.BringUp | src/vk_engine.cpp:179-191 | the window and every init step before init_pipelines, with exactly the setup calls |
| Engine.VulkanEngine.BringUpDevice | src/vk_engine.cpp:179-187 | the window, init_vulkan and init_swapchain |
| Engine.VulkanEngine.BringUpRendering | src/vk_engine.cpp:188-191 | init_commands, init_default_renderpass, init_framebuffers and init_sync_structures |
| Engine.VulkanEngine.FinishInit | src/vk_engine.cpp:192-194 | init_pipelines; then isInitialized unless the run aborted |
| Engine.VulkanEngine.Draw | src/vk_engine.cpp:227-298 | one frame's twelve calls on the acquired image's framebuffer and the frame counter up by one; a failed check aborts right after the failing call with the counter unchanged |
| Engine.VulkanEngine.WaitForLastFrame | src/vk_engine.cpp:229-233 | fence wait, fence reset, command-buffer reset, each checked |
| Engine.VulkanEngine.AcquireAndBegin | src/vk_engine.cpp:236-244 | acquire signalling the present semaphore, then begin recording |
| Engine.VulkanEngine.RecordRenderPass | src/vk_engine.cpp:251-265 | the render pass on the acquired framebuffer, one triangle, end of recording |
| Engine.VulkanEngine.SubmitAndPresent | src/vk_engine.cpp:267-295 | submit waiting on the present semaphore and signalling the render semaphore and fence, then present waiting on the render semaphore |
| Engine.VulkanEngine.Cleanup | src/vk_engine.cpp:197-225 | nothing unless initialised; otherwise exactly the teardown calls |
| Engine.VulkanEngine.DestroyFrameObjects | src/vk_engine.cpp:200-210 | wait for idle, then the pool, fence, semaphores, swapchain and render pass |
| Engine.VulkanEngine.DestroyFramebuffers | src/vk_engine.cpp:212-215 | each framebuffer, then its image view |
| Engine.VulkanEngine.DestroyInstanceObjects | src/vk_engine.cpp:217-223 | device, surface, messenger, instance, window, GLFW shutdown |
| Engine.VulkanEngine.CleanupCalls | src/vk_engine.cpp:197-225 | teardown is 13 calls plus two per framebuffer |
| Engine.VulkanEngine.SetupStepsInOrder | src/vk_engine.cpp:177-191 | the setup calls belong to the init steps in order, never going back |
| Engine.VulkanEngine.InitRunsStepsInOrder | src/vk_engine.cpp:177-195 | a completed init runs its steps in order, with init_pipelines last |
| Engine.VulkanEngine.SetupCreatesFramebufferPerImage | src/vk_engine.cpp:406-419 | setup call 8 + i creates framebuffer i on image view i |
| Engine.VulkanEngine.CleanupPairsFramebuffersWithViews | src/vk_engine.cpp:197-215 | teardown waits for idle first and destroys framebuffer i just before view i |
| Engine.VulkanEngine.SetupReleasedByCleanup | src/vk_engine.cpp:177-225 | every object init's setup creates is destroyed by cleanup; swapchain images, queue and command buffer go with their owners |
| Engine.VulkanEngine.DeviceObjectsReleased | src/vk_engine.cpp:217-222 | the objects of the window, init_vulkan and init_swapchain are destroyed by cleanup |
| Engine.VulkanEngine.RenderingObjectsReleased | src/vk_engine.cpp:200-215 | the pool, render pass, framebuffers, fence and semaphores are destroyed by cleanup |
| Engine.VulkanEngine.CleanupLeavesPipelineObjects | src/vk_engine.cpp:197-225 | cleanup destroys no pipeline, pipeline layout or shader module |
| Engine.CheckedCall | src/vk_engine.cpp:17-26 | a checked call of a planned sequence either extends the trace by it or aborts right after it |
| Applications.LayerEvents | src/application.cpp:160-164 | one layer call per delivery |
| Applications.DeliveriesStopAtFirstHandler | src/application.cpp:160-164 | an event reaches a prefix of the stack and stops only at the first layer that handles it |
| Applications.UnhandledReachesEveryLayer | src/application.cpp:160-164 | an event no layer handles reaches every layer in stack order |
| Applications.DrainAppend | src/application.cpp:88-89 | draining two batches is draining the first, then the second from where it left off |
| Applications.DrainFollowsLastResize | src/application.cpp:88-89 | after draining, the minimised flag follows the last window resize and the viewport and targets follow the last viewport resize |
| Applications.FrameEffects | src/application.cpp:61-84 | a visible frame makes seven calls plus one ImGui call per layer |
| Applications.LayerImGuiCalls | src/application.cpp:74 | one on_imgui per layer |
| Applications.FrameOrder | src/application.cpp:63-83 | prepare_frame, the offscreen pass, the swapchain pass and end_frame come in this order for the same image |
| Applications.DrainRendersNothing | src/application.cpp:88-89 | handling events never prepares, submits or ends a frame |
| Applications.MinimizedIterationRendersNothing | src/application.cpp:61-89 | with the window minimised an iteration renders nothing |
| Applications.VisibleIterationRendersOneFrame | src/application.cpp:61-89 | with the window visible an iteration renders exactly one frame before the window update |
| Applications.InstanceSlot.constructor | src/application.cpp:9 | the instance slot starts empty |
| Applications.Application.constructor | src/application.cpp:11-31 | aborts if an instance exists; becomes the instance; 1600 x 900 viewport and targets; window, engine, ImGui and 2D renderer set up in order |
| Applications.Application.PushLayer | src/application.cpp:140-144 | the layer goes on top and is attached |
| Applications.Application.QueueEvent | src/application.cpp:146-149 | the event joins the back of the queue |
| Applications.Application.OnWindowResized | src/application.cpp:167-175 | minimised exactly when width or height is zero; the engine gets the size; unhandled |
| Applications.Application.OnViewportResized | src/application.cpp:177-188 | the new size, and both targets deleted and recreated at exactly that size; unhandled |
| Applications.Application.OnEvent | src/application.cpp:151-165 | the application's handlers, then the layers until one handles the event |
| Applications.Application.DispatchOwn | src/application.cpp:156-158 | the dispatcher runs the handler matching the event kind |
| Applications.Application.DeliverToLayers | src/application.cpp:160-164 | the layers in stack order until the event is handled |
| Applications.Application.DrainEvents | src/application.cpp:88-89 | every queued event handled in order, and the queue emptied |
| Applications.Application.LayersImGui | src/application.cpp:74 | every layer's on_imgui in stack order |
| Applications.Application.RunIteration | src/application.cpp:61-89 | one loop iteration: the frame unless minimised, the window update, then the queued events |
| Applications.Application.RenderFrame | src/application.cpp:61-84 | the frame body, queueing a viewport resize when the measured size differs |
| Applications.Application.RenderViewport | src/application.cpp:93-117 | shows the colour target; queues a viewport resize exactly when the measured size differs |
| Applications.Application.DestroyAsWritten | src/application.cpp:33-51 | as written, the destructor detaches and pops only the top ceil(n/2) layers, then deletes the targets, cleans up the engine and destroys the window |
| Applications.DestructorLeavesLayerAttached | src/application.cpp:39-43 | with two layers pushed, the destructor as written detaches layer 2 but never layer 1 |
| Applications.Application.Destroy | src/application.cpp:33-51 | the destructor with every layer detached, top first, and the stack left empty |
| Applications.DetachCalls | src/application.cpp:39-43 | one detach per layer |
| Applications.DetachCallsAt | src/application.cpp:39-43 | the j-th detach is for the j-th layer from the top |
| Applications.EveryLayerDetached | src/application.cpp:39-43 | a layer is detached exactly when it is on the stack |
| Applications.GetInstance | src/application.cpp:134-138 | returns the instance; it aborts when there is none |

## Left out

- Window, GLFW, ImGui, the 2D renderer, textures and layers are outside the model. Each appears only as an entry in a log of effects.
- The time step, clear colours, glm transforms and floating point are not modelled. The viewport size is compared on whole pixels (`render_viewport`, src/application.cpp:112-116).
- `Application::run` and `VulkanEngine::run` loop on GLFW's close flag. Only one iteration (`RunIteration`) and a given sequence of frames (`Frames`) are modelled.
- The image index returned by acquire and `prepare_frame`, the swapchain's image count and the size ImGui measures for the viewport come from the driver or the UI. They are parameters.
- vk-bootstrap's `.value()` is taken to succeed. Its failure paths are not modelled.
- The event dispatcher's body is not in the shown sources. Both own handlers report an event unhandled, so the dispatcher is modelled as leaving `handled` alone.
- application.h is not part of this model. The initial minimised flag is a constructor parameter.
- Layer handlers are opaque, except whether they handle an event. They cannot queue new events while the queue is drained.
- Window events polled during `m_Window->on_update()` (src/application.cpp:86) reach `on_event` at once, through the callback set at src/application.cpp:20. The window is not modelled, so such events are modelled as queued before the `RunIteration` in which they are polled. They are then handled after that frame and before the events the frame queues, which is the order of the source.
- The default `VertexInputDescriptionBuilder()` constructor (src/vk_scene.h:34) has no body in the shown sources. Only the sized constructor is modelled.
- The templated `push_attrib` (src/vk_scene.h:38-50) takes its offset from `offsetof`. It is modelled through the non-template push with that offset as a parameter.
- `compile_shader_module` and `load_spirv_shader_module` in src/vk_pipeline.cpp:303-346 are the same as those in src/vk_shader.cpp:35-79. They are modelled once, in `Shaders`.
- The engine's own `load_spirv_shader_module` (src/vk_engine.cpp:28-59) is also the same as the `Shaders` loader, so it is not repeated.
- `create_compute_shader`, `PipelineBuilder::build(Shader *)` and `reflect` (src/vk_pipeline.cpp:273-301, 468-486; src/vk_shader.cpp:10-33) work on shader reflection and compute pipelines. These are not part of the modelled core.
- The shaderc options, include handling and preprocessing are not modelled. The compiler is the function `Host.glslc`.
- `get_engine`, `get_window` and `dyn_renderpass` (src/application.cpp:124-132, 190-193) are accessors and a pass-through. They appear only as frame effects.
- `frameNumber` is an `int` in the source. Its overflow after 2^31 frames is not modelled.
- `set_vertex_description` keeps pointers into the caller's arrays. The model copies the arrays, so later changes to the caller's arrays are not seen.
- `std::hash<size_t>` is an uninterpreted function `hashOf`, so no claim depends on its values.
- The iteration order of `unordered_map` is unspecified. `PipelineLayouts.PipelineLayoutCache.Cleanup` therefore states only that each layout is destroyed once.
- The tinyobj parser is outside the model. Its output tables are the input of `LoadMeshFromObj`, and a warning text is only logged.
- Meshes.LoadMeshFromObj: requires every index entry read to be non-negative and in range, and three entries per face. tinyobj's -1 for a missing normal and shapes with fewer than 3 x faces entries are excluded. The source reads out of range there (src/vk_scene.cpp:71-80), and that behaviour is undefined.
- Shaders.SpirvCode: the source reads the whole file into a buffer of fileSize / 4 words, so a file whose size is not a multiple of 4 overflows it by up to 3 bytes (src/vk_shader.cpp:65-69; the same read is at src/vk_engine.cpp:37-41 and src/vk_pipeline.cpp:332-336). The model keeps only the whole words, which is what reaches vkCreateShaderModule. `compile_shader_module` takes its byte count as a `uint32_t` (src/vk_shader.cpp:35, src/vk_pipeline.cpp:303), and src/vk_pipeline.cpp:339, 438 cast the size to it, so code of 4 GiB or more would pass a wrapped size. The model's code length is unbounded and does not wrap.
- Paths.FileName and Paths.Extension: split on '/' only, as POSIX paths do. Windows separators and root names of `std::filesystem::path` are not modelled.
- The `Material` struct (src/vk_scene.h:77-82) is plain data that no modelled operation uses, so it is not modelled.

## Findings

| source | as written | input that shows it | evidently intended | confidence | as-written member | corrected member |
|---|---|---|---|---|---|---|
| src/vk_pipeline.cpp:389-396, 436-442 | a shaderc compile error is only logged; the empty result still goes to compile_shader_module | a `.frag` file with a syntax error: vkCreateShaderModule is called with zero bytes of code, and the loader returns whatever the driver answers | fail without creating a module, as src/vk_shader.cpp:128-130 and src/vk_engine.cpp:104-107 do | not executed | Pipelines.LoadGlslShaderModuleAsWritten, Pipelines.CompileErrorStillCreatesModule | Pipelines.LoadGlslShaderModuleForStage, Pipelines.CompileErrorCreatesNothing |
| src/application.cpp:39-43 | the loop counts i up from 0 while popping, and tests `i < m_LayerStack.size()` against the shrinking size, so only ceil(n/2) layers are detached | two layers pushed (1, then 2): layer 2 is detached and popped, then i = 1 is not below size 1, and layer 1 is never detached | detach every layer, top first, until the stack is empty | not executed | Applications.Application.DestroyAsWritten, Applications.DestructorLeavesLayerAttached | Applications.Application.Destroy, Applications.EveryLayerDetached |
