# NPRStudio render-graph engine, modelled in Dafny

NPRStudio applies non-photorealistic filters to an image on the GPU (WebGL2). This project
models the engine behind that:

- **Framebuffers and their pool.** A framebuffer owns a handle and its colour attachments.
  The pool hands out free framebuffers of the right size for reading and for writing. The
  write target never shares a texture with the pass inputs. Released targets are reused.
- **Shader passes.** `writeShader` binds the target, binds the input textures to units,
  sets the uniforms, issues one draw and unbinds. The render methods repeat three idioms
  for running one kernel over the pool; module `Passes` states each of them once.
- **Composite filters.** Gaussian blur, structure-tensor eigenvectors, edge tangent flow,
  anisotropic Kuwahara, XDoG, flow-based bilateral (FBL) and coherent line drawing. Each
  one chains single-kernel passes. It is specified by the draws it issues (which kernel,
  which uniforms, which inputs, which target) and by its accounting of the pool's in-use set.
- **Nodes.** Input, invert, luminance quantization, Gaussian blur, FBL, XDoG, coherent line
  drawing and anisotropic Kuwahara. Each node has sockets, a dependency resolver that gates
  `isNodeNeeded`, and sliders built from a configuration list. Their values feed the
  composite's uniforms.
- **The shader graph.** It adds and deletes nodes, connects and disconnects sockets through
  links, sorts the nodes topologically (Kahn's algorithm) and runs a render pass in that
  order. The render pass releases each producer's target once all its consumers have run.
- **The undo/redo history stack** of edited images, the **Gaussian kernel** computation with
  its cache, and the **slider builder**.

WebGL is modelled by `GpuModel.Gpu`. It hands out textures and framebuffer handles from
counters. It appends every GL call to `trace` and logs every draw as a `DrawRecord`.
Whether the context can still create framebuffers is the field `contextLost`. Classes keep
the source's mutable state as fields. Methods state the new state and the calls they issue.

## Model

| member | source | states |
|---|---|---|
| `Framebuffers.Consecutive` | src/engine/framebuffer_textures/framebuffer.ts:30-32 | the ids the attachment loop creates are n distinct textures numbered from the texture counter |
| `Framebuffers.ConsecutiveFresh` | src/engine/framebuffer_textures/framebuffer.ts:30-32 | every texture created by the loop is at or above the counter's value before the loop, so none was allocated earlier |
| `Framebuffers.AttachCallsAt` | src/engine/framebuffer_textures/framebuffer.ts:30-41 | the i-th attachment step is a texture creation followed by `framebufferTexture2D` on `COLOR_ATTACHMENT0 + i` |
| `Framebuffers.Framebuffer.Attach` | src/engine/framebuffer_textures/framebuffer.ts:17-43 | after the handle is created: the size and handle are stored; the bind is followed by max(count, 0) fresh textures, each attached at its index; `drawBuffers` covers them all |
| `Framebuffers.Framebuffer.Create` | src/engine/framebuffer_textures/framebuffer.ts:11-52 | a lost context fails with "Failed to create framebuffer" and touches nothing; no attachment fails the completeness check; otherwise a fresh framebuffer of that size with consecutive new textures, left unbound |
| `Framebuffers.Framebuffer.Bind` | src/engine/framebuffer_textures/framebuffer.ts:55-58 | binds the handle, then sets the viewport to the framebuffer's size |
| `Framebuffers.Framebuffer.Unbind` | src/engine/framebuffer_textures/framebuffer.ts:68-70 | binds the canvas (null) |
| `Framebuffers.Framebuffer.GetTextures` | src/engine/framebuffer_textures/framebuffer.ts:60-62 | the attachment list as it stands, in attachment order (a getter without a contract of its own: Attach and Create state the list it returns, Delete empties it, GetTextureCount is its length) |
| `Framebuffers.Framebuffer.GetTextureCount` | src/engine/framebuffer_textures/framebuffer.ts:64-66 | the count equals the length of `getTextures()` |
| `Framebuffers.Framebuffer.Delete` | src/engine/framebuffer_textures/framebuffer.ts:72-80 | a live handle is deleted and nulled, then every attachment is deleted in order and the list emptied; on an already deleted record it issues nothing |
| `Framebuffers.DeleteSilentIff` | src/engine/framebuffer_textures/framebuffer.ts:72-80 | delete issues no GL call if and only if the framebuffer object and every attachment are already gone, so a second delete is silent |
| `FramebufferPairs.Swapped` | src/engine/framebuffer_textures/framebufferPair.ts:9-11 | the swapped pair holds the read framebuffer in the write slot and the write framebuffer in the read slot |
| `FramebufferPairs.FramebufferPair.constructor` | src/engine/framebuffer_textures/framebufferPair.ts:5-7 | `write()` returns the first argument, `read()` the second |
| `FramebufferPairs.FramebufferPair.Swap` | src/engine/framebuffer_textures/framebufferPair.ts:9-19 | after a swap, `read()` is the old `write()` and `write()` the old `read()` |
| `FramebufferPairs.FramebufferPair.Read` | src/engine/framebuffer_textures/framebufferPair.ts:13-15 | returns the read slot, the second of the pair; after a swap it is the old write slot |
| `FramebufferPairs.FramebufferPair.Write` | src/engine/framebuffer_textures/framebufferPair.ts:17-19 | returns the write slot, the first of the pair; after a swap it is the old read slot |
| `FramebufferPools.FirstEligibleIsFirst` | src/engine/framebuffer_textures/framebufferPool.ts:12-23 | the pool scan's choice is eligible, and no framebuffer before it is |
| `FramebufferPools.FirstEligibleAt` | src/engine/framebuffer_textures/framebufferPool.ts:12-23 | a framebuffer that is eligible and has only ineligible ones before it is the scan's choice |
| `FramebufferPools.NoDuplicatesDistinct` | src/engine/framebuffer_textures/framebufferPool.ts:26-29 | the pool never holds one framebuffer twice |
| `FramebufferPools.DeleteEach` | src/engine/framebuffer_textures/framebufferPool.ts:65-70 | deleting the pooled framebuffers one after another issues each one's delete calls, in pool order |
| `FramebufferPools.FramebufferPool.constructor` | src/engine/framebuffer_textures/framebufferPool.ts:7-9 | empty pool, nothing in use |
| `FramebufferPools.FramebufferPool.AttachmentsAllocated` | src/engine/framebuffer_textures/framebufferPool.ts:26-29 | every attachment of a pooled framebuffer is an allocated texture |
| `FramebufferPools.FramebufferPool.GetRead` | src/engine/framebuffer_textures/framebufferPool.ts:11-30 | the first pooled framebuffer that is not in use and has the size and count is returned, and nothing is allocated; without one, a new framebuffer is appended; the result is then in use; failure only from the constructor's throws, with the pool unchanged |
| `FramebufferPools.FramebufferPool.GetWrite` | src/engine/framebuffer_textures/framebufferPool.ts:32-55 | as getRead, but a candidate that holds one of the input textures is skipped, so the result shares no texture with allocated inputs |
| `FramebufferPools.FramebufferPool.Release` | src/engine/framebuffer_textures/framebufferPool.ts:57-63 | the framebuffer leaves the in-use set and stays pooled |
| `FramebufferPools.FramebufferPool.Clear` | src/engine/framebuffer_textures/framebufferPool.ts:65-70 | every pooled framebuffer is deleted in order, then the pool and the in-use set are empty |
| `GpuModel.OutputTextureCount` | src/utils/ShaderCodes/postprocessingEffects/nonCompositeTextures/shaderEigenvector.ts:21 | every kernel renders one or two attachments, two exactly for the eigenvector and flow-field kernels |
| `GpuModel.Gpu.CreateFramebuffer` | src/engine/framebuffer_textures/framebuffer.ts:23-25 | `createFramebuffer` yields null on a lost context and a new handle otherwise |
| `GpuModel.Gpu.NewTexture` | src/engine/framebuffer_textures/texture.ts:80-85 | a framebuffer texture is a new id, and its creation is logged with its size |
| `GpuModel.Gpu.Draw` | src/utils/ShaderCodes/postprocessingEffects/webGLShaderPass.ts:44 | a draw call is logged in the trace and as a draw record |
| `ShaderPass.BindInputCallsAt` | src/utils/ShaderCodes/postprocessingEffects/webGLShaderPass.ts:33-36 | input i is bound by activating unit i and then binding the texture |
| `ShaderPass.PassCallsShape` | src/utils/ShaderCodes/postprocessingEffects/webGLShaderPass.ts:15-50 | a pass over n inputs issues 11 + 2n calls: bind, viewport, clear, program, vertex array, the input bindings, uniforms, draw, reset, unbind |
| `ShaderPass.PassDrawsOnce` | src/utils/ShaderCodes/postprocessingEffects/webGLShaderPass.ts:44 | a pass issues exactly one draw, at index 7 + 2n |
| `ShaderPass.WriteShader` | src/utils/ShaderCodes/postprocessingEffects/webGLShaderPass.ts:15-50 | the trace grows by exactly that call sequence, and the draw log by one record of the kernel, its uniforms, its inputs and the target's attachments |
| `Passes.WritePass` | src/engine/ShaderCodes/postprocessingEffects/compositeTextures/CompositeShaderETF.ts:38-49 | getWrite then one draw: the target is newly in use, is the draw's target and shares no texture with its inputs |
| `Passes.WriteReadPair` | src/utils/ShaderCodes/postprocessingEffects/compositeTextures/compositeShaderGaussianBlur.ts:46-47 | getWrite then getRead: two distinct framebuffers, neither in use before, both in use now |
| `Passes.SwapPass` | src/utils/ShaderCodes/postprocessingEffects/compositeTextures/compositeShaderGaussianBlur.ts:46-56 | getWrite, getRead, draw, swap, release: only the drawn target is added to the in-use set, and there is exactly one draw, into that target |
| `Passes.ReadWritePair` | src/utils/ShaderCodes/postprocessingEffects/compositeTextures/compositeShaderEigenvector.ts:39-40 | getRead then getWrite: two distinct framebuffers, newly in use |
| `Passes.ReadFirstSwapPass` | src/utils/ShaderCodes/postprocessingEffects/compositeTextures/compositeShaderEigenvector.ts:39-48 | the same idiom with getRead first |
| `DependencyResolvers.Min` | src/utils/ShaderCodes/postprocessingEffects/shaderNodes/dependencyResolver.ts:9-12 | the result is one of the two arguments and no larger than either |
| `DependencyResolvers.Resolve` | src/utils/ShaderCodes/postprocessingEffects/shaderNodes/dependencyResolver.ts:14-19 | the gate opens exactly when the incremented use count reaches the dependant count; it then resets to 0, otherwise it keeps the increment |
| `DependencyResolvers.ResolveKeepsCountNonNegative` | src/utils/ShaderCodes/postprocessingEffects/shaderNodes/dependencyResolver.ts:14-19 | the use count never goes negative, and with a non-negative total it never exceeds the total |
| `DependencyResolvers.NoDependantsAlwaysResolved` | src/utils/ShaderCodes/postprocessingEffects/shaderNodes/dependencyResolver.ts:14-19 | a node without dependants is needed at every call |
| `DependencyResolvers.CountsUpToResolve` | src/utils/ShaderCodes/postprocessingEffects/shaderNodes/dependencyResolver.ts:14-19 | from use count j, the next n - j - 1 calls answer false and the one after true |
| `DependencyResolvers.OutcomesAppend` | src/utils/ShaderCodes/postprocessingEffects/shaderNodes/dependencyResolver.ts:14-19 | the answers of two runs of calls are the answers of the joined run |
| `DependencyResolvers.ResolvedEveryNthCall` | src/utils/ShaderCodes/postprocessingEffects/shaderNodes/dependencyResolver.ts:14-19 | from a fresh resolver with n dependants, k rounds of n calls answer true exactly at every n-th call |
| `DependencyResolvers.DependencyResolver.constructor` | src/utils/ShaderCodes/postprocessingEffects/shaderNodes/dependencyResolver.ts:2-7 | both counts start at 0 |
| `DependencyResolvers.DependencyResolver.IncrementDependencyUseCount` | src/utils/ShaderCodes/postprocessingEffects/shaderNodes/dependencyResolver.ts:9-12 | the use count rises by one but never past the dependant count |
| `DependencyResolvers.DependencyResolver.IsResolved` | src/utils/ShaderCodes/postprocessingEffects/shaderNodes/dependencyResolver.ts:14-19 | answer and new count are those of `Resolve` |
| `Sockets.OutputSocket.constructor` | src/engine/ShaderCodes/postprocessingEffects/shaderNodes/socket.ts:24-28 | an output socket starts with no data and no connections |
| `Sockets.InputSocket.constructor` | src/engine/ShaderCodes/postprocessingEffects/shaderNodes/socket.ts:8-11 | an input socket starts with no source |
| `Sockets.InputSocket.GetValue` | src/engine/ShaderCodes/postprocessingEffects/shaderNodes/socket.ts:13-15 | with a source the value is exactly the source's data; without one it is none |
| `Sockets.Publish` | src/engine/ShaderCodes/postprocessingEffects/shaderNodes/nodeInvert.ts:75-77 | output socket i carries attachment i of the target |
| `Sockets.ImageFilterSockets` | src/engine/ShaderCodes/postprocessingEffects/shaderNodes/nodeInvert.ts:35-41 | a filter node gets one fresh image input and one fresh image output, owned by the node |
| `HistoryStacks.Top` | src/engine/Scene/webGLHistoryStack.ts:78-80 | the top is the last entry, and none on an empty stack |
| `HistoryStacks.UndoRedoKeepCount` | src/engine/Scene/webGLHistoryStack.ts:51-72 | undo and redo neither create nor lose an entry |
| `HistoryStacks.RedoUndoes` | src/engine/Scene/webGLHistoryStack.ts:51-72 | an undo that moved an entry is reversed by the next redo |
| `HistoryStacks.UndoRedoes` | src/engine/Scene/webGLHistoryStack.ts:51-72 | a redo onto a non-empty undo stack is reversed by the next undo |
| `HistoryStacks.UndoKeepsAnImage` | src/engine/Scene/webGLHistoryStack.ts:62-72 | undo never empties a non-empty undo stack |
| `HistoryStacks.UndoAllRedoAll` | src/engine/Scene/webGLHistoryStack.ts:51-72 | k undos followed by k redos restore the history while k is below the undo depth |
| `HistoryStacks.Exceeds` | src/engine/Scene/webGLHistoryStack.ts:44-48 | the size check holds only against a defined limit |
| `HistoryStacks.WebGLHistoryStack.constructor` | src/engine/Scene/webGLHistoryStack.ts:5-12 | both stacks start empty and the limit is undefined |
| `HistoryStacks.WebGLHistoryStack.Add` | src/engine/Scene/webGLHistoryStack.ts:14-49 | a fresh copy of the image is pushed; the redo stack is emptied, each entry deleted top first; past the limit the oldest entry is dropped and deleted; with the undefined limit the undo stack just gains the copy |
| `HistoryStacks.WebGLHistoryStack.Redo` | src/engine/Scene/webGLHistoryStack.ts:51-60 | the redo top moves onto the undo stack; the new undo top is returned |
| `HistoryStacks.WebGLHistoryStack.Undo` | src/engine/Scene/webGLHistoryStack.ts:62-72 | the undo top moves to the redo stack unless it is the only entry; the new top is returned |
| `HistoryStacks.WebGLHistoryStack.GetTexture` | src/engine/Scene/webGLHistoryStack.ts:74-76 | the current image is the undo top |
| `HistoryStacks.WebGLHistoryStack.GetUndoStackTop` | src/engine/Scene/webGLHistoryStack.ts:78-80 | the last undo entry, none when empty |
| `HistoryStacks.WebGLHistoryStack.IsUndoStackAlmostEmpty` | src/engine/Scene/webGLHistoryStack.ts:82-84 | true exactly when at most one undo entry is left |
| `HistoryStacks.WebGLHistoryStack.IsRedoStackEmpty` | src/engine/Scene/webGLHistoryStack.ts:86-88 | true exactly when there is no redo entry |
| `HistoryStacks.WebGLHistoryStack.GetRedoStackTop` | src/engine/Scene/webGLHistoryStack.ts:90-92 | the last redo entry, none when empty |
| `GaussianKernels.Ceil` | src/engine/math/gaussianCalculation.ts:42 | the least integer not below x |
| `GaussianKernels.ToInt32` | src/engine/math/gaussianCalculation.ts:43 | `x \| 0`: the value wrapped into the signed 32-bit range, equal to x when x already lies in it |
| `GaussianKernels.OrOne` | src/engine/math/gaussianCalculation.ts:43 | `\|\| 1`: 0 becomes 1, anything else is kept |
| `GaussianKernels.GetKernelSize` | src/engine/math/gaussianCalculation.ts:41-44 | the size is odd and at least 3; when c + 1, for c the ceiling of 3 sigma, lies in the signed 32-bit range, the size is c + 1 or c + 2, or 3 |
| `GaussianKernels.OddSize` | src/engine/math/gaussianCalculation.ts:16 | an even size is raised by one; the result is odd |
| `GaussianKernels.HalfSize` | src/engine/math/gaussianCalculation.ts:18 | the floor of half the size, so 2h + 1 is the odd size |
| `GaussianKernels.OffsetCount` | src/engine/math/gaussianCalculation.ts:23 | the loop runs over -h..h, 2h + 1 offsets |
| `GaussianKernels.Weights` | src/engine/math/gaussianCalculation.ts:23-27 | one weight per offset -h..h, in the loop's order, each the density of the offset's square |
| `GaussianKernels.Normalized` | src/engine/math/gaussianCalculation.ts:35-39 | each weight divided by their sum, the length kept |
| `GaussianKernels.KernelLength` | src/engine/math/gaussianCalculation.ts:9-33 | the kernel has 2h + 1 entries |
| `GaussianKernels.KernelOfKernelSize` | src/engine/math/gaussianCalculation.ts:16-18 | an odd size rounds to itself, so it is the kernel's length |
| `GaussianKernels.KernelSymmetric` | src/engine/math/gaussianCalculation.ts:23-27 | entry i equals entry 2h - i; the density sees only the offset's square |
| `GaussianKernels.SumScaled` | src/engine/math/gaussianCalculation.ts:35-39 | the sum of the entries divided by s is the sum divided by s |
| `GaussianKernels.KernelSumsToOne` | src/engine/math/gaussianCalculation.ts:30-39 | a normalized kernel sums to 1 |
| `GaussianKernels.GaussianCalculations.constructor` | src/engine/math/gaussianCalculation.ts:2 | the cache starts empty |
| `GaussianKernels.GaussianCalculations.NormalizeKernel` | src/engine/math/gaussianCalculation.ts:35-39 | the array is divided in place by its sum: its new contents are `Normalized` of the old ones |
| `GaussianKernels.GaussianCalculations.FillWeights` | src/engine/math/gaussianCalculation.ts:20-27 | the loop writes the density at offsets -h..h into a new array of 2h + 1 entries |
| `GaussianKernels.GaussianCalculations.Get1DGaussianKernel` | src/engine/math/gaussianCalculation.ts:9-33 | a cached key returns the cached kernel unchanged; otherwise the normalized kernel of the rounded size is returned and cached under the unrounded key, and only that key changes |
| `SliderBuilders.Slider.constructor` | src/utils/ShaderCodes/postprocessingEffects/shaderNodes/sliderBuilder.ts:3-15 | a named slider starts at min 0, max 100, step 1, value 0 |
| `SliderBuilders.NewSlider` | src/utils/ShaderCodes/postprocessingEffects/shaderNodes/sliderBuilder.ts:11-14 | fails with "Slider name is required" exactly on an empty name, and otherwise returns a fresh slider with the defaults |
| `SliderBuilders.SliderBuilder.constructor` | src/utils/ShaderCodes/postprocessingEffects/shaderNodes/sliderBuilder.ts:18-25 | a builder starts at min 0, max 1, step 0.1, value 0.5 |
| `SliderBuilders.SliderBuilder.Min` | src/utils/ShaderCodes/postprocessingEffects/shaderNodes/sliderBuilder.ts:27-30 | sets min alone and returns the builder |
| `SliderBuilders.SliderBuilder.Max` | src/utils/ShaderCodes/postprocessingEffects/shaderNodes/sliderBuilder.ts:31-34 | sets max alone and returns the builder |
| `SliderBuilders.SliderBuilder.Step` | src/utils/ShaderCodes/postprocessingEffects/shaderNodes/sliderBuilder.ts:35-38 | sets step alone and returns the builder |
| `SliderBuilders.SliderBuilder.Value` | src/utils/ShaderCodes/postprocessingEffects/shaderNodes/sliderBuilder.ts:39-42 | sets value alone and returns the builder |
| `SliderBuilders.SliderBuilder.Build` | src/utils/ShaderCodes/postprocessingEffects/shaderNodes/sliderBuilder.ts:44-51 | a fresh slider with the builder's name and four settings; fails exactly when the name is empty |
| `SliderBuilders.BuildSlider` | src/utils/ShaderCodes/postprocessingEffects/shaderNodes/nodeFBL.ts:61-65 | the builder chain of one configuration entry yields a slider with the entry's label and settings, failing only on an empty label |
| `SliderBuilders.HoldsPut` | src/utils/ShaderCodes/postprocessingEffects/shaderNodes/nodeFBL.ts:61-65 | storing entry i's slider under its distinct label extends what the map holds to entries 0..i |
| `SliderBuilders.FillSliderMap` | src/utils/ShaderCodes/postprocessingEffects/shaderNodes/nodeFBL.ts:60-65 | every entry's fresh slider is stored under its label with its settings, the keys grow by exactly the labels, and other keys keep their sliders |
| `NodeInputs.NodeInput.constructor` | src/engine/ShaderCodes/postprocessingEffects/shaderNodes/nodeInput.ts:15-21 | no input socket, one fresh image output, and the start texture stored |
| `NodeInputs.NodeInput.IsNodeNeeded` | src/engine/ShaderCodes/postprocessingEffects/shaderNodes/nodeInput.ts:23-25 | one call of the resolver gate |
| `NodeInputs.NodeInput.Render` | src/engine/ShaderCodes/postprocessingEffects/shaderNodes/nodeInput.ts:27-30 | publishes the start texture and returns it |
| `NodeInverts.NodeInvert.constructor` | src/engine/ShaderCodes/postprocessingEffects/shaderNodes/nodeInvert.ts:23-45 | image sockets, no framebuffer, a zeroed resolver |
| `NodeInverts.NodeInvert.IsNodeNeeded` | src/engine/ShaderCodes/postprocessingEffects/shaderNodes/nodeInvert.ts:47-49 | one call of the resolver gate |
| `NodeInverts.NodeInvert.Render` | src/engine/ShaderCodes/postprocessingEffects/shaderNodes/nodeInvert.ts:51-80 | one invert draw of the inputs into a newly held target that shares none of them; getRead's target is only swapped out and released; the attachments are published and the first one returned |
| `NodeLuminanceQuantizations.ShaderLuminanceQuantization.constructor` | src/utils/ShaderCodes/postprocessingEffects/nonCompositeTextures/shaderLuminanceQuantization.ts:18-29 | colour count 10, one output attachment |
| `NodeLuminanceQuantizations.ShaderLuminanceQuantization.SetUniformValues` | src/utils/ShaderCodes/postprocessingEffects/nonCompositeTextures/shaderLuminanceQuantization.ts:31-33 | stores the colour count |
| `NodeLuminanceQuantizations.NodeLuminanceQuantization.constructor` | src/engine/ShaderCodes/postprocessingEffects/shaderNodes/nodeLuminanceQuantization.ts:28-51 | image sockets, no framebuffer, a zeroed resolver, the configured slider, and the kernel's colour count follows it |
| `NodeLuminanceQuantizations.NodeLuminanceQuantization.IsNodeNeeded` | src/engine/ShaderCodes/postprocessingEffects/shaderNodes/nodeLuminanceQuantization.ts:53-55 | one call of the resolver gate |
| `NodeLuminanceQuantizations.NodeLuminanceQuantization.BuildSliders` | src/engine/ShaderCodes/postprocessingEffects/shaderNodes/nodeLuminanceQuantization.ts:57-65 | a fresh slider for the configured label with the configured settings |
| `NodeLuminanceQuantizations.NodeLuminanceQuantization.UpdateUniformValues` | src/engine/ShaderCodes/postprocessingEffects/shaderNodes/nodeLuminanceQuantization.ts:67-70 | the kernel's colour count becomes the slider's value |
| `NodeLuminanceQuantizations.NodeLuminanceQuantization.Render` | src/engine/ShaderCodes/postprocessingEffects/shaderNodes/nodeLuminanceQuantization.ts:72-101 | one quantization draw with the current colour count into a newly held target; publish and return its first attachment |
| `NodeGaussianBlurs.DefaultSliders` | src/utils/ShaderCodes/postprocessingEffects/shaderNodes/nodeGaussianBlur.ts:11 | the sliders built from the list carry its settings |
| `NodeGaussianBlurs.ConfigsWellFormed` | src/utils/ShaderCodes/postprocessingEffects/shaderNodes/nodeGaussianBlur.ts:11 | the configured labels are distinct and non-empty, so no build throws |
| `NodeGaussianBlurs.NodeGaussianBlur.constructor` | src/utils/ShaderCodes/postprocessingEffects/shaderNodes/nodeGaussianBlur.ts:26-44 | image sockets, no framebuffer, a zeroed resolver, the configured radius slider; the blur radius keeps its own default 1.6, since the constructor does not copy the slider's value |
| `NodeGaussianBlurs.NodeGaussianBlur.IsNodeNeeded` | src/utils/ShaderCodes/postprocessingEffects/shaderNodes/nodeGaussianBlur.ts:46-48 | one call of the resolver gate |
| `NodeGaussianBlurs.NodeGaussianBlur.BuildSliders` | src/utils/ShaderCodes/postprocessingEffects/shaderNodes/nodeGaussianBlur.ts:50-58 | the configured sliders are built; the blur's radius is left as it was |
| `NodeGaussianBlurs.NodeGaussianBlur.UpdateUniformValues` | src/utils/ShaderCodes/postprocessingEffects/shaderNodes/nodeGaussianBlur.ts:60-63 | the blur radius becomes the radius slider's value |
| `NodeGaussianBlurs.NodeGaussianBlur.KeepAndPublish` | src/utils/ShaderCodes/postprocessingEffects/shaderNodes/nodeGaussianBlur.ts:72-78 | the target is kept, attachment i is on output i, the first attachment is returned |
| `NodeGaussianBlurs.NodeGaussianBlur.Render` | src/utils/ShaderCodes/postprocessingEffects/shaderNodes/nodeGaussianBlur.ts:65-79 | the composite's two blur draws into a newly held target; publish and return its first attachment |
| `NodeFBLs.DefaultSliders` | src/utils/ShaderCodes/postprocessingEffects/shaderNodes/nodeFBL.ts:14-23 | the sliders built from the list carry its eight settings |
| `NodeFBLs.ConfigsWellFormed` | src/utils/ShaderCodes/postprocessingEffects/shaderNodes/nodeFBL.ts:14-23 | the configured labels are distinct and non-empty |
| `NodeFBLs.NodeFBL.constructor` | src/utils/ShaderCodes/postprocessingEffects/shaderNodes/nodeFBL.ts:38-54 | image sockets, no framebuffer, a zeroed resolver, configured sliders, and the composite's uniforms follow the sliders |
| `NodeFBLs.NodeFBL.DefaultUniforms` | src/utils/ShaderCodes/postprocessingEffects/shaderNodes/nodeFBL.ts:14-23 | at the configured slider values the composite runs 2 rounds over a 2-round edge tangent flow of size 3, with sigmas 1 and 10 colours |
| `NodeFBLs.NodeFBL.IsNodeNeeded` | src/utils/ShaderCodes/postprocessingEffects/shaderNodes/nodeFBL.ts:56-58 | one call of the resolver gate |
| `NodeFBLs.NodeFBL.FillSliders` | src/utils/ShaderCodes/postprocessingEffects/shaderNodes/nodeFBL.ts:61-65 | one fresh slider per configured label, with its settings |
| `NodeFBLs.NodeFBL.BuildSliders` | src/utils/ShaderCodes/postprocessingEffects/shaderNodes/nodeFBL.ts:60-68 | the configured sliders are built, then the uniforms follow them |
| `NodeFBLs.NodeFBL.UpdateUniformValues` | src/utils/ShaderCodes/postprocessingEffects/shaderNodes/nodeFBL.ts:70-81 | each uniform of the composite becomes the value of its slider |
| `NodeFBLs.NodeFBL.KeepAndPublish` | src/utils/ShaderCodes/postprocessingEffects/shaderNodes/nodeFBL.ts:90-96 | the target is kept, attachment i is on output i, the first attachment is returned |
| `NodeFBLs.NodeFBL.Render` | src/utils/ShaderCodes/postprocessingEffects/shaderNodes/nodeFBL.ts:83-97 | one FBL composite run over the inputs into a newly held target; publish and return its first attachment |
| `NodeXDoGs.DefaultSliders` | src/utils/ShaderCodes/postprocessingEffects/shaderNodes/nodeXDoG.ts:11-19 | the sliders built from the list carry its settings |
| `NodeXDoGs.ConfigsWellFormed` | src/utils/ShaderCodes/postprocessingEffects/shaderNodes/nodeXDoG.ts:11-19 | the configured labels are distinct and non-empty |
| `NodeXDoGs.NodeXDoG.constructor` | src/utils/ShaderCodes/postprocessingEffects/shaderNodes/nodeXDoG.ts:34-50 | image sockets, no framebuffer, a zeroed resolver, configured sliders, and the composite's uniforms follow the sliders |
| `NodeXDoGs.NodeXDoG.DefaultUniforms` | src/utils/ShaderCodes/postprocessingEffects/shaderNodes/nodeXDoG.ts:11-19 | the composite's uniforms at the configured slider values |
| `NodeXDoGs.NodeXDoG.IsNodeNeeded` | src/utils/ShaderCodes/postprocessingEffects/shaderNodes/nodeXDoG.ts:52-54 | one call of the resolver gate |
| `NodeXDoGs.NodeXDoG.FillSliders` | src/utils/ShaderCodes/postprocessingEffects/shaderNodes/nodeXDoG.ts:57-61 | one fresh slider per configured label, with its settings |
| `NodeXDoGs.NodeXDoG.BuildSliders` | src/utils/ShaderCodes/postprocessingEffects/shaderNodes/nodeXDoG.ts:56-64 | the configured sliders are built, then the uniforms follow them |
| `NodeXDoGs.NodeXDoG.UpdateUniformValues` | src/utils/ShaderCodes/postprocessingEffects/shaderNodes/nodeXDoG.ts:66-76 | each uniform of the composite becomes the value of its slider |
| `NodeXDoGs.NodeXDoG.KeepAndPublish` | src/utils/ShaderCodes/postprocessingEffects/shaderNodes/nodeXDoG.ts:85-91 | the target is kept, attachment i is on output i, the first attachment is returned |
| `NodeXDoGs.NodeXDoG.Render` | src/utils/ShaderCodes/postprocessingEffects/shaderNodes/nodeXDoG.ts:78-92 | one XDoG composite run into a newly held target; publish and return its first attachment |
| `NodeCoherentLineDrawings.DefaultSliders` | src/utils/ShaderCodes/postprocessingEffects/shaderNodes/nodeCoherentLineDrawing.ts:14-22 | the sliders built from the list carry its settings |
| `NodeCoherentLineDrawings.ConfigsWellFormed` | src/utils/ShaderCodes/postprocessingEffects/shaderNodes/nodeCoherentLineDrawing.ts:14-22 | the configured labels are distinct and non-empty |
| `NodeCoherentLineDrawings.NodeCoherentLineDrawing.constructor` | src/utils/ShaderCodes/postprocessingEffects/shaderNodes/nodeCoherentLineDrawing.ts:37-53 | image sockets, no framebuffer, a zeroed resolver, configured sliders, and the composite's uniforms follow the sliders through the corrected setter |
| `NodeCoherentLineDrawings.NodeCoherentLineDrawing.DefaultUniforms` | src/utils/ShaderCodes/postprocessingEffects/shaderNodes/nodeCoherentLineDrawing.ts:14-22 | the composite's uniforms at the configured slider values |
| `NodeCoherentLineDrawings.NodeCoherentLineDrawing.IsNodeNeeded` | src/utils/ShaderCodes/postprocessingEffects/shaderNodes/nodeCoherentLineDrawing.ts:55-57 | one call of the resolver gate |
| `NodeCoherentLineDrawings.NodeCoherentLineDrawing.FillSliders` | src/utils/ShaderCodes/postprocessingEffects/shaderNodes/nodeCoherentLineDrawing.ts:60-64 | one fresh slider per configured label, with its settings |
| `NodeCoherentLineDrawings.NodeCoherentLineDrawing.BuildSliders` | src/utils/ShaderCodes/postprocessingEffects/shaderNodes/nodeCoherentLineDrawing.ts:59-67 | the configured sliders are built, then the uniforms follow them through the corrected setter |
| `NodeCoherentLineDrawings.NodeCoherentLineDrawing.UpdateUniformValues` | src/utils/ShaderCodes/postprocessingEffects/shaderNodes/nodeCoherentLineDrawing.ts:69-79 | each uniform of the composite becomes the value of its slider, through the corrected setter, so sigmaC is the thickness |
| `NodeCoherentLineDrawings.NodeCoherentLineDrawing.KeepAndPublish` | src/utils/ShaderCodes/postprocessingEffects/shaderNodes/nodeCoherentLineDrawing.ts:88-94 | the target is kept, attachment i is on output i, the first attachment is returned |
| `NodeCoherentLineDrawings.NodeCoherentLineDrawing.Render` | src/utils/ShaderCodes/postprocessingEffects/shaderNodes/nodeCoherentLineDrawing.ts:81-95 | one line-drawing composite run into a newly held target; publish and return its first attachment |
| `NodeAnisotropicKuwaharas.DefaultSliders` | src/utils/ShaderCodes/postprocessingEffects/shaderNodes/nodeAnisotropicKuwahara.ts:11-19 | the sliders built from the list carry its settings |
| `NodeAnisotropicKuwaharas.ConfigsWellFormed` | src/utils/ShaderCodes/postprocessingEffects/shaderNodes/nodeAnisotropicKuwahara.ts:11-19 | the configured labels are distinct and non-empty |
| `NodeAnisotropicKuwaharas.NodeAnisotropicKuwahara.constructor` | src/utils/ShaderCodes/postprocessingEffects/shaderNodes/nodeAnisotropicKuwahara.ts:34-50 | image sockets, no framebuffer, a zeroed resolver, configured sliders, and the composite's uniforms follow the sliders |
| `NodeAnisotropicKuwaharas.NodeAnisotropicKuwahara.DefaultUniforms` | src/utils/ShaderCodes/postprocessingEffects/shaderNodes/nodeAnisotropicKuwahara.ts:11-19 | the composite's uniforms at the configured slider values |
| `NodeAnisotropicKuwaharas.NodeAnisotropicKuwahara.IsNodeNeeded` | src/utils/ShaderCodes/postprocessingEffects/shaderNodes/nodeAnisotropicKuwahara.ts:52-54 | one call of the resolver gate |
| `NodeAnisotropicKuwaharas.NodeAnisotropicKuwahara.FillSliders` | src/utils/ShaderCodes/postprocessingEffects/shaderNodes/nodeAnisotropicKuwahara.ts:57-61 | one fresh slider per configured label, with its settings |
| `NodeAnisotropicKuwaharas.NodeAnisotropicKuwahara.BuildSliders` | src/utils/ShaderCodes/postprocessingEffects/shaderNodes/nodeAnisotropicKuwahara.ts:56-64 | the configured sliders are built, then the uniforms follow them |
| `NodeAnisotropicKuwaharas.NodeAnisotropicKuwahara.UpdateUniformValues` | src/utils/ShaderCodes/postprocessingEffects/shaderNodes/nodeAnisotropicKuwahara.ts:66-76 | each uniform of the composite becomes the value of its slider |
| `NodeAnisotropicKuwaharas.NodeAnisotropicKuwahara.KeepAndPublish` | src/utils/ShaderCodes/postprocessingEffects/shaderNodes/nodeAnisotropicKuwahara.ts:85-91 | the target is kept, attachment i is on output i, the first attachment is returned |
| `NodeAnisotropicKuwaharas.NodeAnisotropicKuwahara.Render` | src/utils/ShaderCodes/postprocessingEffects/shaderNodes/nodeAnisotropicKuwahara.ts:78-92 | one Kuwahara composite run into a newly held target; publish and return its first attachment |
| `CompositeGaussianBlurs.CompositeShaderGaussianBlur.constructor` | src/utils/ShaderCodes/postprocessingEffects/compositeTextures/compositeShaderGaussianBlur.ts:15-30 | radius 1.6 and the blur pass's attachment count |
| `CompositeGaussianBlurs.CompositeShaderGaussianBlur.SetUniformValues` | src/utils/ShaderCodes/postprocessingEffects/compositeTextures/compositeShaderGaussianBlur.ts:32-34 | stores the radius |
| `CompositeGaussianBlurs.CompositeShaderGaussianBlur.Render` | src/utils/ShaderCodes/postprocessingEffects/compositeTextures/compositeShaderGaussianBlur.ts:37-76 | a horizontal draw from the inputs, then a vertical draw from its attachment into the result; the result is the only target left in use; no draw writes a texture it reads |
| `CompositeEigenvectors.CompositeShaderETFEigenvector.constructor` | src/utils/ShaderCodes/postprocessingEffects/compositeTextures/compositeShaderEigenvector.ts:16-25 | sigmaC 1.6 and output count 3, as declared |
| `CompositeEigenvectors.CompositeShaderETFEigenvector.SetUniformValues` | src/utils/ShaderCodes/postprocessingEffects/compositeTextures/compositeShaderEigenvector.ts:27-29 | stores sigmaC |
| `CompositeEigenvectors.CompositeShaderETFEigenvector.Render` | src/utils/ShaderCodes/postprocessingEffects/compositeTextures/compositeShaderEigenvector.ts:32-75 | structure tensor of the inputs, its Gaussian blur with radius sigmaC, and the eigenvector pass into a two-attachment result; the output count is set to the eigenvector's; every intermediate target is handed back |
| `CompositeEdgeTangentFlows.SmoothRoundsExtend` | src/engine/ShaderCodes/postprocessingEffects/compositeTextures/CompositeShaderETF.ts:98-113 | one more smoothing round extends a run of rounds |
| `CompositeEdgeTangentFlows.SmoothRoundsChain` | src/engine/ShaderCodes/postprocessingEffects/compositeTextures/CompositeShaderETF.ts:98-113 | after the first round, each round reads the magnitude and then the previous round's horizontal result |
| `CompositeEdgeTangentFlows.EdgeTangentFlowShape` | src/engine/ShaderCodes/postprocessingEffects/compositeTextures/CompositeShaderETF.ts:78-118 | grayscale then flow field; every later pass is a smoothing pass reading the flow magnitude first; the result has one attachment exactly when some round ran |
| `CompositeEdgeTangentFlows.CompositeShaderEdgeTangentFlow.constructor` | src/engine/ShaderCodes/postprocessingEffects/compositeTextures/CompositeShaderETF.ts:21-31 | kernel size 3, two iterations |
| `CompositeEdgeTangentFlows.CompositeShaderEdgeTangentFlow.SetUniformValues` | src/engine/ShaderCodes/postprocessingEffects/compositeTextures/CompositeShaderETF.ts:33-36 | stores both settings |
| `CompositeEdgeTangentFlows.CompositeShaderEdgeTangentFlow.FlowFieldStage` | src/engine/ShaderCodes/postprocessingEffects/compositeTextures/CompositeShaderETF.ts:86-92 | a grayscale draw and a flow-field draw from it; only the flow target stays in use |
| `CompositeEdgeTangentFlows.CompositeShaderEdgeTangentFlow.SmoothRound` | src/engine/ShaderCodes/postprocessingEffects/compositeTextures/CompositeShaderETF.ts:99-110 | a vertical and a horizontal smoothing draw; the vertical target is released, the horizontal one is held |
| `CompositeEdgeTangentFlows.CompositeShaderEdgeTangentFlow.SmoothStep` | src/engine/ShaderCodes/postprocessingEffects/compositeTextures/CompositeShaderETF.ts:99-112 | one loop iteration: after the first, the previous result is released before the round |
| `CompositeEdgeTangentFlows.CompositeShaderEdgeTangentFlow.SmoothLoop` | src/engine/ShaderCodes/postprocessingEffects/compositeTextures/CompositeShaderETF.ts:98-113 | etfIteration rounds chained on the flow magnitude; only the last result stays in use |
| `CompositeEdgeTangentFlows.CompositeShaderEdgeTangentFlow.Render` | src/engine/ShaderCodes/postprocessingEffects/compositeTextures/CompositeShaderETF.ts:78-118 | the composite's draws as the shape lemma states; with a round the result is newly held, without one the result is the flow-field target, already handed back |
| `CompositeAnisotropicKuwaharas.KuwaharaUniforms` | src/utils/ShaderCodes/postprocessingEffects/compositeTextures/compositeShaderAnisotropicKuwahara.ts:37-53 | the Kuwahara pass's uniforms in upload order |
| `CompositeAnisotropicKuwaharas.KuwaharaShape` | src/utils/ShaderCodes/postprocessingEffects/compositeTextures/compositeShaderAnisotropicKuwahara.ts:55-100 | the kernel order; the tensor reads the grayscale image; the Kuwahara pass reads every input, then the anisotropy, then the flow map, into one attachment |
| `CompositeAnisotropicKuwaharas.CompositeShaderAnisotropicKuwahara.constructor` | src/utils/ShaderCodes/postprocessingEffects/compositeTextures/compositeShaderAnisotropicKuwahara.ts:20-35 | the defaults: sigma 1.6, alpha 1, zero crossing 240, sharpness 18, zeta 2, radius 4, hardness 100 |
| `CompositeAnisotropicKuwaharas.CompositeShaderAnisotropicKuwahara.SetUniformValues` | src/utils/ShaderCodes/postprocessingEffects/compositeTextures/compositeShaderAnisotropicKuwahara.ts:37-53 | stores the settings, the zero crossing scaled by pi/8 |
| `CompositeAnisotropicKuwaharas.CompositeShaderAnisotropicKuwahara.FlowStage` | src/utils/ShaderCodes/postprocessingEffects/compositeTextures/compositeShaderAnisotropicKuwahara.ts:63-79 | grayscale draw and the eigenvector composite of it; only the eigenvector target stays in use |
| `CompositeAnisotropicKuwaharas.CompositeShaderAnisotropicKuwahara.Render` | src/utils/ShaderCodes/postprocessingEffects/compositeTextures/compositeShaderAnisotropicKuwahara.ts:55-100 | the composite's draws as the shape lemma states, into a newly held result; every intermediate target is handed back |
| `CompositeXDoGs.XDoGShape` | src/utils/ShaderCodes/postprocessingEffects/compositeTextures/compositeShaderXDoG.ts:159-202 | the eleven kernels in order; both edge blurs read the lightness and the flow map; the subtraction reads both blurs; both streamline blurs read the flow map last |
| `CompositeXDoGs.CompositeShaderXDoG.constructor` | src/utils/ShaderCodes/postprocessingEffects/compositeTextures/compositeShaderXDoG.ts:23-42 | the default settings and k |
| `CompositeXDoGs.CompositeShaderXDoG.SetUniformValues` | src/utils/ShaderCodes/postprocessingEffects/compositeTextures/compositeShaderXDoG.ts:44-55 | stores every setting |
| `CompositeXDoGs.CompositeShaderXDoG.DualEdgeBlurPass` | src/utils/ShaderCodes/postprocessingEffects/compositeTextures/compositeShaderXDoG.ts:80-102 | two edge blurs of the same inputs, with sigma e and k times sigma e, into two held targets |
| `CompositeXDoGs.CompositeShaderXDoG.FrontStage` | src/utils/ShaderCodes/postprocessingEffects/compositeTextures/compositeShaderXDoG.ts:166-171 | the Lab pass and the eigenvector composite of it; both results held |
| `CompositeXDoGs.CompositeShaderXDoG.DifferenceStage` | src/utils/ShaderCodes/postprocessingEffects/compositeTextures/compositeShaderXDoG.ts:174-183 | the two edge blurs and their weighted difference; the blur targets are handed back |
| `CompositeXDoGs.CompositeShaderXDoG.SubtractPass` | src/utils/ShaderCodes/postprocessingEffects/compositeTextures/compositeShaderXDoG.ts:104-116 | one subtraction draw with tau into a newly held target |
| `CompositeXDoGs.CompositeShaderXDoG.ThresholdStage` | src/utils/ShaderCodes/postprocessingEffects/compositeTextures/compositeShaderXDoG.ts:186-193 | streamline blur along the flow, then the threshold of it; the blur target is handed back |
| `CompositeXDoGs.CompositeShaderXDoG.BackStage` | src/utils/ShaderCodes/postprocessingEffects/compositeTextures/compositeShaderXDoG.ts:186-199 | the threshold stage and the antialiasing blur along the flow into a newly held result |
| `CompositeXDoGs.CompositeShaderXDoG.FlowGuidedStage` | src/utils/ShaderCodes/postprocessingEffects/compositeTextures/compositeShaderXDoG.ts:174-199 | the difference and back stages along one flow map |
| `CompositeXDoGs.CompositeShaderXDoG.Render` | src/utils/ShaderCodes/postprocessingEffects/compositeTextures/compositeShaderXDoG.ts:159-202 | the composite's draws as the shape lemma states, into a newly held result; every intermediate target is handed back |
| `CompositeFBLs.BilateralRoundsChain` | src/engine/ShaderCodes/postprocessingEffects/compositeTextures/compositeShaderFBL.ts:110-124 | each round's streamline pass reads the previous round's gradient result |
| `CompositeFBLs.BilateralRoundsExtend` | src/engine/ShaderCodes/postprocessingEffects/compositeTextures/compositeShaderFBL.ts:110-124 | one more round extends a run of rounds |
| `CompositeFBLs.BilateralRoundRecord` | src/engine/ShaderCodes/postprocessingEffects/compositeTextures/compositeShaderFBL.ts:110-124 | a streamline draw followed by a gradient draw reading its attachment form one round |
| `CompositeFBLs.FBLShape` | src/engine/ShaderCodes/postprocessingEffects/compositeTextures/compositeShaderFBL.ts:101-135 | every bilateral pass reads the flow attachment last; the quantization reads the last gradient image, or the inputs when no round runs |
| `CompositeFBLs.CompositeShaderFBL.constructor` | src/engine/ShaderCodes/postprocessingEffects/compositeTextures/compositeShaderFBL.ts:19-35 | the default settings |
| `CompositeFBLs.CompositeShaderFBL.SetUniformValues` | src/engine/ShaderCodes/postprocessingEffects/compositeTextures/compositeShaderFBL.ts:37-53 | stores every setting and forwards the two edge-tangent-flow settings |
| `CompositeFBLs.CompositeShaderFBL.StreamlineStep` | src/engine/ShaderCodes/postprocessingEffects/compositeTextures/compositeShaderFBL.ts:55-69 | one streamline bilateral draw into a newly held target |
| `CompositeFBLs.CompositeShaderFBL.GradientStep` | src/engine/ShaderCodes/postprocessingEffects/compositeTextures/compositeShaderFBL.ts:71-84 | one gradient-aligned bilateral draw into a newly held target |
| `CompositeFBLs.CompositeShaderFBL.BilateralRound` | src/engine/ShaderCodes/postprocessingEffects/compositeTextures/compositeShaderFBL.ts:111-123 | a streamline and a gradient draw; the streamline target is handed back |
| `CompositeFBLs.CompositeShaderFBL.BilateralLoop` | src/engine/ShaderCodes/postprocessingEffects/compositeTextures/compositeShaderFBL.ts:110-124 | `iteration` rounds chained on the previous image; only the last gradient target stays in use |
| `CompositeFBLs.CompositeShaderFBL.EdgeTangentFlowStage` | src/engine/ShaderCodes/postprocessingEffects/compositeTextures/compositeShaderFBL.ts:103-105 | the edge-tangent flow composite with this composite's two settings |
| `CompositeFBLs.CompositeShaderFBL.FlowStage` | src/engine/ShaderCodes/postprocessingEffects/compositeTextures/compositeShaderFBL.ts:103-126 | the flow and the rounds along it; the flow target is handed back |
| `CompositeFBLs.CompositeShaderFBL.QuantizeStage` | src/engine/ShaderCodes/postprocessingEffects/compositeTextures/compositeShaderFBL.ts:129-132 | the last gradient target is handed back and the quantization draw goes into a newly held result |
| `CompositeFBLs.CompositeShaderFBL.Render` | src/engine/ShaderCodes/postprocessingEffects/compositeTextures/compositeShaderFBL.ts:101-135 | the composite's draws as the shape lemma states, into a newly held result; every intermediate target is handed back |
| `CompositeCoherentLineDrawings.LoopShape` | src/utils/ShaderCodes/postprocessingEffects/compositeTextures/compositeShaderCoherentLineDrawing.ts:171-219 | every edge blur reads the texture id of the grayscale target and the flow; the result is the grayscale target with no round, otherwise the last threshold target, after 6 × iteration − 1 draws |
| `CompositeCoherentLineDrawings.CLDShape` | src/utils/ShaderCodes/postprocessingEffects/compositeTextures/compositeShaderCoherentLineDrawing.ts:158-226 | the grayscale pass comes first; every edge blur of every round reads the texture id of the first grayscale target and the flow attachment; every superimposition reads the first input |
| `CompositeCoherentLineDrawings.CompositeShaderCoherentLineDrawing.constructor` | src/utils/ShaderCodes/postprocessingEffects/compositeTextures/compositeShaderCoherentLineDrawing.ts:28-60 | the default settings, sigmaC 1.6 |
| `CompositeCoherentLineDrawings.CompositeShaderCoherentLineDrawing.SetUniformValuesAsWritten` | src/utils/ShaderCodes/postprocessingEffects/compositeTextures/compositeShaderCoherentLineDrawing.ts:62-75 | the settings as the source stores them: sigmaS follows the thickness, sigmaC is left as it was |
| `CompositeCoherentLineDrawings.CompositeShaderCoherentLineDrawing.SetUniformValues` | src/utils/ShaderCodes/postprocessingEffects/compositeTextures/compositeShaderCoherentLineDrawing.ts:62-75 | the corrected setter: sigmaC becomes the thickness too |
| `CompositeCoherentLineDrawings.CompositeShaderCoherentLineDrawing.EdgeBlurPair` | src/utils/ShaderCodes/postprocessingEffects/compositeTextures/compositeShaderCoherentLineDrawing.ts:173-182 | two edge blurs of the grayscale texture along the flow, with sigmaC and with sigmaS |
| `CompositeCoherentLineDrawings.CompositeShaderCoherentLineDrawing.DifferenceStage` | src/utils/ShaderCodes/postprocessingEffects/compositeTextures/compositeShaderCoherentLineDrawing.ts:173-192 | the blurs and their difference; the blur targets are handed back |
| `CompositeCoherentLineDrawings.CompositeShaderCoherentLineDrawing.ThresholdStage` | src/utils/ShaderCodes/postprocessingEffects/compositeTextures/compositeShaderCoherentLineDrawing.ts:195-206 | streamline blur, then the tanh threshold; the intermediate targets are handed back |
| `CompositeCoherentLineDrawings.CompositeShaderCoherentLineDrawing.LineStage` | src/utils/ShaderCodes/postprocessingEffects/compositeTextures/compositeShaderCoherentLineDrawing.ts:173-206 | one round's difference and threshold stages |
| `CompositeCoherentLineDrawings.CompositeShaderCoherentLineDrawing.Iteration` | src/utils/ShaderCodes/postprocessingEffects/compositeTextures/compositeShaderCoherentLineDrawing.ts:171-219 | one round, followed by the superimposition on the input when it is not the last round |
| `CompositeCoherentLineDrawings.CompositeShaderCoherentLineDrawing.LoopStep` | src/utils/ShaderCodes/postprocessingEffects/compositeTextures/compositeShaderCoherentLineDrawing.ts:171-219 | one loop iteration extends the loop's draws |
| `CompositeCoherentLineDrawings.CompositeShaderCoherentLineDrawing.Loop` | src/utils/ShaderCodes/postprocessingEffects/compositeTextures/compositeShaderCoherentLineDrawing.ts:171-219 | `iteration` rounds, each reading the texture id of the first grayscale target; only the result stays in use |
| `CompositeCoherentLineDrawings.CompositeShaderCoherentLineDrawing.FlowStage` | src/utils/ShaderCodes/postprocessingEffects/compositeTextures/compositeShaderCoherentLineDrawing.ts:162-164 | the edge-tangent flow composite with this composite's settings |
| `CompositeCoherentLineDrawings.CompositeShaderCoherentLineDrawing.FrontStage` | src/utils/ShaderCodes/postprocessingEffects/compositeTextures/compositeShaderCoherentLineDrawing.ts:159-164 | the grayscale pass and the flow; both held |
| `CompositeCoherentLineDrawings.CompositeShaderCoherentLineDrawing.BackStage` | src/utils/ShaderCodes/postprocessingEffects/compositeTextures/compositeShaderCoherentLineDrawing.ts:171-225 | the loop, then the flow target is handed back |
| `CompositeCoherentLineDrawings.CompositeShaderCoherentLineDrawing.Render` | src/utils/ShaderCodes/postprocessingEffects/compositeTextures/compositeShaderCoherentLineDrawing.ts:158-226 | the composite's draws as the shape lemma states, into a newly held single-attachment result; every intermediate target is handed back |
| `CompositeCoherentLineDrawings.ThicknessIgnoredAsWritten` | src/utils/ShaderCodes/postprocessingEffects/compositeTextures/compositeShaderCoherentLineDrawing.ts:62-75 | with the setter as written and thickness 5, the two blurs use 1.6 and 8.0 |
| `CompositeCoherentLineDrawings.ThicknessFollowed` | src/utils/ShaderCodes/postprocessingEffects/compositeTextures/compositeShaderCoherentLineDrawing.ts:62-75 | with the corrected setter both blurs scale with the thickness |
| `ShaderNodes.ShaderNode.ShapedSockets` | src/utils/ShaderCodes/postprocessingEffects/shaderNodes/shaderNode.ts:8-18 | every node has one output of its own; only the input node has no input |
| `ShaderNodes.ShaderNode.Render` | src/utils/ShaderCodes/postprocessingEffects/shaderNodes/shaderNode.ts:16 | every node publishes the texture it returns; the input node leaves the pool alone; every other node holds a newly used target of the requested size |
| `ShaderNodes.ShaderNode.IsNodeNeeded` | src/utils/ShaderCodes/postprocessingEffects/shaderNodes/shaderNode.ts:17 | one call of the node's resolver gate |
| `GraphOrders.Elems` | src/utils/ShaderCodes/postprocessingEffects/WebGLShaderGraph.ts:123-125 | the set of a sequence's members |
| `GraphOrders.Sources` | src/utils/ShaderCodes/postprocessingEffects/WebGLShaderGraph.ts:98-115 | the producers of the links |
| `GraphOrders.Targets` | src/utils/ShaderCodes/postprocessingEffects/WebGLShaderGraph.ts:128-133 | the consumers of the links |
| `GraphOrders.SuccSources` | src/utils/ShaderCodes/postprocessingEffects/WebGLShaderGraph.ts:98-115 | a node has successors exactly when it produces some link |
| `GraphOrders.InFromZero` | src/utils/ShaderCodes/postprocessingEffects/WebGLShaderGraph.ts:138-142 | a node with no incoming link from the remaining nodes has in-degree 0 |
| `GraphOrders.InFromPositive` | src/utils/ShaderCodes/postprocessingEffects/WebGLShaderGraph.ts:144-161 | an incoming link from a remaining node makes the in-degree positive |
| `GraphOrders.RespectedHasNoCycle` | src/utils/ShaderCodes/postprocessingEffects/WebGLShaderGraph.ts:163-165 | an order in which every producer precedes its consumers covers no cycle |
| `GraphOrders.AddEdge` | src/utils/ShaderCodes/postprocessingEffects/WebGLShaderGraph.ts:101-112 | one link is appended to its producer's list, creating it when absent |
| `GraphOrders.BuildAdjacencyMap` | src/utils/ShaderCodes/postprocessingEffects/WebGLShaderGraph.ts:98-115 | the keys are the producers, each mapped to its consumers in link order |
| `GraphOrders.InitDegrees` | src/utils/ShaderCodes/postprocessingEffects/WebGLShaderGraph.ts:123-125 | every node starts with in-degree 0 |
| `GraphOrders.CountList` | src/utils/ShaderCodes/postprocessingEffects/WebGLShaderGraph.ts:129-132 | one producer's consumers each gain one in-degree |
| `GraphOrders.InDegrees` | src/utils/ShaderCodes/postprocessingEffects/WebGLShaderGraph.ts:121-133 | each in-degree is the number of links into that node |
| `GraphOrders.ZeroQueue` | src/utils/ShaderCodes/postprocessingEffects/WebGLShaderGraph.ts:138-142 | the queue holds exactly the nodes of in-degree 0, in map order |
| `GraphOrders.Decrement` | src/utils/ShaderCodes/postprocessingEffects/WebGLShaderGraph.ts:149-159 | each consumer of the emitted node loses one in-degree |
| `GraphOrders.Relax` | src/utils/ShaderCodes/postprocessingEffects/WebGLShaderGraph.ts:149-159 | the consumers that reach 0 are enqueued |
| `GraphOrders.Drain` | src/utils/ShaderCodes/postprocessingEffects/WebGLShaderGraph.ts:144-161 | the queue loop emits each node once, every node after its producers, and a node left over waits on one not emitted |
| `GraphOrders.TopoSort` | src/utils/ShaderCodes/postprocessingEffects/WebGLShaderGraph.ts:117-168 | the only failure is "Graph contains a cycle"; a success lists each node once after its producers; on a graph whose links join its own nodes, failure happens exactly when a cycle exists, and a success is a permutation of the nodes |
| `GraphOrders.ClosedDomain` | src/utils/ShaderCodes/postprocessingEffects/WebGLShaderGraph.ts:121-133 | on such a graph the in-degree table covers exactly the nodes |
| `GraphOrders.AllEmittedAcyclic` | src/utils/ShaderCodes/postprocessingEffects/WebGLShaderGraph.ts:163-165 | an emitted order that covers every node rules out a cycle |
| `GraphOrders.StuckCyclic` | src/utils/ShaderCodes/postprocessingEffects/WebGLShaderGraph.ts:163-165 | the nodes left over when the queue runs dry form a cycle |
| `GraphOrders.ClosedOutcome` | src/utils/ShaderCodes/postprocessingEffects/WebGLShaderGraph.ts:163-167 | an order shorter than the node list happens exactly with a cycle |
| `ShaderGraphs.ShaderLink.constructor` | src/utils/ShaderCodes/postprocessingEffects/WebGLShaderGraph.ts:13-19 | a link stores its two sockets |
| `ShaderGraphs.ShaderLink.Connect` | src/utils/ShaderCodes/postprocessingEffects/WebGLShaderGraph.ts:21-27 | sockets of different types throw and change nothing; otherwise the input is added to the output's connections and takes it as its source |
| `ShaderGraphs.ShaderLink.Disconnect` | src/utils/ShaderCodes/postprocessingEffects/WebGLShaderGraph.ts:29-32 | the input leaves the output's connections and loses its source |
| `ShaderGraphs.FanoutIsSucc` | src/utils/ShaderCodes/postprocessingEffects/WebGLShaderGraph.ts:75-83 | the dependant count a registration keeps equals the node's number of out-links |
| `ShaderGraphs.CountsMiscount` | src/utils/ShaderCodes/postprocessingEffects/WebGLShaderGraph.ts:79-81 | raising a count without a link breaks the count invariant |
| `ShaderGraphs.UnfedNotSupplied` | src/utils/ShaderCodes/postprocessingEffects/WebGLShaderGraph.ts:170-184 | a node with an unconnected input has no input textures |
| `ShaderGraphs.WebGLShaderGraph.constructor` | src/utils/ShaderCodes/postprocessingEffects/WebGLShaderGraph.ts:43-48 | the graph holds only the input node under id 0, no link, and the next id is 1; the invariants hold |
| `ShaderGraphs.WebGLShaderGraph.GenerateId` | src/utils/ShaderCodes/postprocessingEffects/WebGLShaderGraph.ts:55-57 | returns the counter and increments it |
| `ShaderGraphs.WebGLShaderGraph.AddNode` | src/utils/ShaderCodes/postprocessingEffects/WebGLShaderGraph.ts:50-53 | the node is stored under its own id; a new id joins the end of the iteration order, an existing one keeps its place |
| `ShaderGraphs.WebGLShaderGraph.Connect` | src/utils/ShaderCodes/postprocessingEffects/WebGLShaderGraph.ts:75-83 | as written: the producer's count is raised before the type check, so a rejected connect leaves the counts off |
| `ShaderGraphs.WebGLShaderGraph.ConnectChecked` | src/utils/ShaderCodes/postprocessingEffects/WebGLShaderGraph.ts:75-83 | the corrected order: a rejected connect keeps the counts; a successful one registers the link and keeps the counts equal to the out-links |
| `ShaderGraphs.WebGLShaderGraph.LinksToRemove` | src/utils/ShaderCodes/postprocessingEffects/WebGLShaderGraph.ts:62-66 | collects exactly the links with an end on the node, in order |
| `ShaderGraphs.WebGLShaderGraph.DisconnectAll` | src/utils/ShaderCodes/postprocessingEffects/WebGLShaderGraph.ts:68-70 | each collected link is disconnected and unregistered |
| `ShaderGraphs.WebGLShaderGraph.DeleteNode` | src/utils/ShaderCodes/postprocessingEffects/WebGLShaderGraph.ts:59-73 | the node leaves the table and the order; the links touching it are cut and dropped, the others kept; the invariants hold |
| `ShaderGraphs.WebGLShaderGraph.Disconnect` | src/utils/ShaderCodes/postprocessingEffects/WebGLShaderGraph.ts:85-92 | the producer's count drops by one even when the pair was never linked; the sockets are unhooked |
| `ShaderGraphs.WebGLShaderGraph.GetNodeInputTextures` | src/utils/ShaderCodes/postprocessingEffects/WebGLShaderGraph.ts:170-184 | some textures exactly when every input socket has a value, in socket order |
| `ShaderGraphs.WebGLShaderGraph.ReleaseFramebuffer` | src/utils/ShaderCodes/postprocessingEffects/WebGLShaderGraph.ts:215-219 | the node's held framebuffer, if any, leaves the in-use set |
| `ShaderGraphs.WebGLShaderGraph.ReduceDependency` | src/utils/ShaderCodes/postprocessingEffects/WebGLShaderGraph.ts:224-233 | one producer's gate is asked once; a resolved gate releases its target |
| `ShaderGraphs.WebGLShaderGraph.ReduceDependencies` | src/utils/ShaderCodes/postprocessingEffects/WebGLShaderGraph.ts:221-235 | each input's producer is settled; the in-use set only shrinks |
| `ShaderGraphs.WebGLShaderGraph.VisitNode` | src/utils/ShaderCodes/postprocessingEffects/WebGLShaderGraph.ts:193-208 | a node yields a texture exactly when all its inputs had values, the input node its start texture; a node that renders has published that texture on its output socket; only the node's own output sockets change value, and only when it renders; no input socket is relinked; the last node hands its target back |
| `ShaderGraphs.WebGLShaderGraph.RenderSequence` | src/utils/ShaderCodes/postprocessingEffects/WebGLShaderGraph.ts:188-212 | one outcome per position of the order: the node there rendered exactly when it is in the table and each of its inputs is linked to an output that held a value before the loop or belongs to a node that rendered at an earlier position; the ids that rendered are exactly the entries at the positions of true outcomes, in order; the input nodes are among them; there is a result exactly when one rendered, and it is the texture the last of them published on its output socket; the last node of the order hands its target back |
| `ShaderGraphs.WebGLShaderGraph.RenderPass` | src/utils/ShaderCodes/postprocessingEffects/WebGLShaderGraph.ts:186-213 | a cycle fails before anything runs, issuing no GL call, drawing nothing and leaving the pool's in-use set alone; otherwise the nodes run in a topological order, and position by position a node renders exactly when it is in the table and each input is linked to an output that held a value when the pass began or to a node that rendered earlier in the order; the ids that rendered are the entries at the true outcomes, in order, and include the input nodes; the result is present exactly when one rendered and is the texture the last of them published (with PickedLast, the node at the last position whose visit produced a texture); the last node's target is handed back |
| `ShaderGraphs.WebGLShaderGraph.RenderSupplied` | src/utils/ShaderCodes/postprocessingEffects/WebGLShaderGraph.ts:193-200 | the node renders exactly when all its inputs had values, the input node yielding its start texture; a node that renders publishes that texture on its output sockets, one that does not leaves its objects as they were; no other output changes value and no input socket is relinked |
| `ShaderGraphs.WebGLShaderGraph.VisitId` | src/utils/ShaderCodes/postprocessingEffects/WebGLShaderGraph.ts:190-209 | looks the id up: an id not in the table yields nothing; a node found yields a texture exactly when its inputs had values, publishes it, and a turn that yields nothing leaves any given outputs' values as they were; the values of the linked outputs stay those that held a value or belong to a node that rendered so far; the last id's node hands its target back |
| `ShaderGraphs.WebGLShaderGraph.RenderStep` | src/utils/ShaderCodes/postprocessingEffects/WebGLShaderGraph.ts:190-209 | one turn of the loop: the node at the position renders exactly when it is in the table and FedThrough holds for its links against the outputs full at the start and the nodes rendered at earlier positions; input nodes always render; a rendering node publishes the texture, a turn that renders nothing leaves the given outputs' values as they were; the linked outputs' values stay as Filled describes; the links are untouched; at the last position the node hands its target back |
| `ShaderGraphs.WebGLShaderGraph.RenderLoop` | src/utils/ShaderCodes/postprocessingEffects/WebGLShaderGraph.ts:188-210 | the whole loop from an empty book: one outcome per position, decided as in RenderStep; the rendered ids are the entries at true outcomes, in order; the result is the texture the last of them published; the last node of the order hands its target back |
| `ShaderGraphs.PickedLast` | src/utils/ShaderCodes/postprocessingEffects/WebGLShaderGraph.ts:196-200 | the last id picked is the one at the last position whose outcome holds, so the pass result belongs to the last node whose visit produced a texture |
| `ShaderGraphs.PickedEmpty` | src/utils/ShaderCodes/postprocessingEffects/WebGLShaderGraph.ts:188-200 | nothing is picked exactly when no outcome holds, so the pass returns null exactly when no visit produced a texture |
| `ShaderGraphs.SuppliedIffFed` | src/utils/ShaderCodes/postprocessingEffects/WebGLShaderGraph.ts:170-184 | with the links snapshot and the outputs that held a value so far, a node's inputs all have values exactly when FedThrough holds for its links |
| `ShaderGraphs.FedThroughIsFed` | src/utils/ShaderCodes/postprocessingEffects/WebGLShaderGraph.ts:170-184 | against the links and values as they stand, FedThrough over the snapshot is the same as Fed over the sockets, for every node, order and earlier outcomes |

## Left out

- GLSL, per-pixel arithmetic and floating-point rounding are not modelled. A kernel is a name. Its uniform uploads are the `params` of its draw record, in upload order.
- webGLCore, the program and vertex-array caches and `Texture`'s upload helpers are not modelled beyond texture creation, copy and deletion.
- `MAX_COLOR_ATTACHMENTS` is not modelled. Texture and framebuffer ids are unbounded naturals.
- The status check of a new framebuffer is modelled as failing exactly when it has no colour attachment. The driver's other reasons are left out.
- `console.warn` and `console.error` are left out. Where one stands instead of a throw it becomes a `ConsoleError` call, or nothing.
- JavaScript `Map` and `Set` iteration order is kept explicitly: the graph's `nodeOrder` and `links` sequences, and the adjacency map's key list.
- The dead `degree === undefined` branch of topoSort is not modelled: every link target gets an in-degree entry before the queue runs. The `!getId` throw in buildAdjacencyMap is left out for the same reason: the list is created just before it is read.
- getNode (WebGLShaderGraph.ts:94-96) is a plain map lookup. The model reads `nodes[id]` directly.
- HistoryStacks.WebGLHistoryStack.Add: the temporary framebuffers and the blit of the copy become one texture creation and one copy call.
- `MAX_STACK_SIZE` is declared without a value, so it is `undefined` and the size check never fires. The model carries the limit as `None` and states the other branch as well.
- GaussianKernels.Weights: the Gaussian density is an abstract function `profile` of the squared offset and sigma. The lemmas need it positive. Its exponential is not modelled.
- GaussianKernels.GetKernelSize: the bounds on the size hold only where c + 1 lies in the signed 32-bit range. Beyond it, the `| 0` wrap is modelled and only oddness and the minimum of 3 are stated.
- GaussianKernels.GaussianCalculations.NormalizeKernel requires a non-zero sum. Every kernel it is called on has positive weights.
- Slider values are reals. Iteration counts are ints, because those sliders have step 1.
- The per-kind dispatch methods `ShaderNodes.RenderInvert` … `ShaderNodes.RenderKuwahara` only forward to the nodes' own render methods. They have no rows.
- ShaderGraphs.WebGLShaderGraph.ReduceDependencies states only that the in-use set shrinks. Which producers are released follows from `ReduceDependency`, call by call.
- ShaderGraphs.WebGLShaderGraph.RenderPass: the composites' draw logs are not carried through the graph, so the pass names its result by the output socket of the last node that rendered, not by the draws behind it.
- NodeFBLs.NodeFBL.Render requires an input texture when the composite runs a round. NodeCoherentLineDrawings.NodeCoherentLineDrawing.Render requires one when it runs two rounds. Without one, the source would pass `undefined` to a draw.
- CompositeFBLs.CompositeShaderFBL.Render and CompositeCoherentLineDrawings.CompositeShaderCoherentLineDrawing.Render have the same input requirement, for the same reason.
- ShaderGraphs.WebGLShaderGraph.Connect, as written, is only shown to break the count invariant on a rejected connect. The model's graph uses ConnectChecked.
- Passes.WritePass, Passes.WriteReadPair, Passes.SwapPass, Passes.ReadWritePair and Passes.ReadFirstSwapPass, the Render method and stage methods of every composite and node, ShaderNodes.ShaderNode.Render, and ShaderGraphs.WebGLShaderGraph.RenderSupplied, VisitNode, VisitId, RenderStep, RenderSequence and RenderPass all require a live context (`contextLost` false). On a lost context the pool still hands out pooled targets and throws only when it must create one. The model therefore leaves out three things: that throw part-way through a composite, the targets acquired before it that stay in the in-use set, and a pass that completes from a warm pool on a lost context. The pool's own FramebufferPools.FramebufferPool.GetRead and GetWrite do model the failure.
- NodeCoherentLineDrawings.NodeCoherentLineDrawing.constructor, BuildSliders and UpdateUniformValues call the corrected CompositeCoherentLineDrawings.CompositeShaderCoherentLineDrawing.SetUniformValues, so their UniformsFollowSliders makes sigmaC the thickness. The source node calls the setter as written, which leaves sigmaC at its previous value, 1.6 from the composite's constructor. SetUniformValuesAsWritten states what the node does as written (see Findings).
- CompositeCoherentLineDrawings.CompositeShaderCoherentLineDrawing.Loop and CompositeCoherentLineDrawings.CLDShape state which texture ids the edge blurs read, not what those textures hold. The first round hands the grayscale target back to the pool, so a later round may draw into that framebuffer, and the edge blurs of the rounds after it then read what that round drew. The model tracks no texture contents, so this reuse is not stated.
- Rendering to the canvas, React hooks, the camera, the image exporter and tone mapping lie outside the engine and are not part of this model.

## Findings

| source | as written | input that shows it | evidently intended | confidence | as-written member | corrected member |
|---|---|---|---|---|---|---|
| src/utils/ShaderCodes/postprocessingEffects/compositeTextures/compositeShaderCoherentLineDrawing.ts:62-75 | setUniformValues stores `sigmaS = thickness * SCALAR` but never assigns `sigmaC`, so the first edge blur keeps sigma 1.6 | thickness 5 on a fresh composite: the two edge blurs use 1.6 and 8.0 | both blurs follow the thickness slider | not executed | `CompositeCoherentLineDrawings.CompositeShaderCoherentLineDrawing.SetUniformValuesAsWritten` | `CompositeCoherentLineDrawings.CompositeShaderCoherentLineDrawing.SetUniformValues` |
| src/utils/ShaderCodes/postprocessingEffects/WebGLShaderGraph.ts:75-83 | connect raises the producer's dependant count before `link.connect` checks the socket types | connect an image output to a float input: the connect throws, but the producer's count has already been raised | the count rises only when the link is made | not executed | `ShaderGraphs.WebGLShaderGraph.Connect` | `ShaderGraphs.WebGLShaderGraph.ConnectChecked` |
