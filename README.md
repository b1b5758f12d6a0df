# A model of a small WebGPU engine's frame bookkeeping

The engine draws a scene graph through WebGPU. Each frame, the `Renderer` does four things:

- It resizes the canvas when needed.
- It updates the camera's matrices and uniform buffer.
- It runs the registered update callbacks.
- It walks the scene graph in pre-order. It recomputes dirty transforms, and for every `Mesh` it records a pipeline, bind groups, vertex and index buffers, and an indexed draw into the render pass.

Around that loop sit:

- the resource wrappers (buffers, uniform buffers, textures, render pipelines);
- five material classes with their shader-module caches, layout entries and bind groups;
- a WGSL preprocessor for `${NAME}` substitution and `#if NAME … #endif` blocks;
- the geometry generators (box, sphere, cube) and the vertex-normal computation;
- three light classes that pack themselves into small float buffers.

This project models that CPU-side bookkeeping in Dafny: what the engine decides to send to the GPU, in what order and how often. The GPU work and the floating-point numerics are not modelled.

## How the model is built

- **The GPU is a trace.** A `Gpu.Device` is an append-only list of calls, each either a created resource with its handle or an issued command (`writeBuffer` with its offset, `copyExternalImageToTexture`, `destroy`, `submit`, …). A `Gpu.PassEncoder` is the list of commands recorded into one render pass: `setPipeline`, `setBindGroup`, `setVertexBuffer`, `setIndexBuffer`, `drawIndexed` and `end`. Cache hits, draw order and "created exactly once" are statements about these traces.
- **Objects that change are classes.** Fields the engine mutates become class fields with `modifies` frames:
  - `SceneNode`, with its dirty flag, local and world matrices and children;
  - `Camera`, the buffer objects, `TextureObject`, the materials, `FrameController`, `Renderer` and the lights.
  
  Their methods state the whole new state.
- **Pure logic is functions.** Examples are the blend table, uniform offsets, vertex layouts, index generation, the light packing layout and the preprocessor's line transform. The loops that build these are methods proved against the functions.
- **Matrices are symbolic.** `Math3D.Mat` is a term: identity, `Local(position, rotation, scale)`, `Mul`, `LookAt`, `Perspective`, `Invert` and the 3×3 normal block. Whether a matrix is singular is a parameter of the camera update.
- **Trigonometry and square roots are parameters.** The sphere generator takes `cos`, `sin`, `sqrt` and π as a `Maths` value with the identities it needs. The normal computation takes the triangle area as a function.
- **Materials dispatch by kind.** The renderer holds a `MaterialRef`: one of Shader, Phong, Lambert, Physical or Skybox. The pipeline cache is a map from that reference to the pipeline built for it.
- **The scene graph is unfolded into a tree.** `add` does not keep the graph a tree: a node added under two parents stays in both children lists. The traversal proofs take a finite unfolding `Renderers.Tree` of the `children` lists as a precondition. Cycles therefore have no model, and a node shared by two parents is visited once under each.
- **Throws are results.** A JavaScript exception becomes `Thrown(error)` or `Err(error)`, with the error kind: `TypeError`, `RangeError` or a singular matrix.

## Behaviour reproduced as written

The model follows the code where it does something other than what it evidently means. The one exception is the last item, a module-loading failure the model does not reproduce:

- **`initData` and `data`.** `BufferObject` reads `props.initData`, but `VertexBuffer` and `IndexBuffer` hand their arrays over as `data`. As written:
  - every vertex and index buffer has no data and size 0;
  - the index format is always `"uint32"`;
  - `indexCount` throws a TypeError;
  - `computeVertexNormals`, reading the absent data, throws, so a `BufferGeometry` built without normals, and with it every `CubeGeometry`, throws from its constructor.
  
  The normal computation is still modelled and proved on the arrays it would read.
- **The Vector3 `z` setter.** It evaluates `this.onChange ?? this.onChange()`, which never calls the callback. Setting `z` of a node's position, rotation or scale leaves the node clean.
- **`#endif` in the preprocessor.** The line right after every `#endif` is dropped.
- **Preprocessor lines inside a block.** Block lines are taken from the original source, so `${…}` inside a block is never substituted.
- **Preprocessor substitution.** The directive regex is global with a greedy `.*`, so a name runs from the first `${` to the last `}` of the line. A missing value becomes `"undefined"`, and an empty `${}` is left in place.
- **Which copy is replaced.** `line.replace(match[0], value)` looks the matched text up again as a plain string. It replaces the first copy in the line, which may come before the match. In `${A}\r${B}\r${B}` with A = 1 and B = 2, the search finds the second `${B}`, the first is replaced, and the line ends as `1\r2\r${B}`.
- **A fractional drawing size.** The canvas's `width` and `height` are `unsigned long`s, so setting them to the CSS size times a fractional pixel ratio truncates. The resize test compares the canvas with the untruncated size, so with such a size every frame resizes again: it reconfigures the context, remakes the colour attachment and the depth texture, and marks the projection stale. A size that truncates to 2^31 or more (modulo 2^32, so also a negative one) is not kept at all: the canvas attribute falls back to its default of 300 by 150, and the frames resize again in the same way.
- **`attachLight`.** The test `!a !== b` compares a boolean with a number and is always true. Phong and Lambert therefore regenerate the shader whenever both old and new lights have direction lights, or both have point lights.
- **The depth texture on resize.** The forced `getTexture` creates one texture. `getView` then goes through `updateDescriptor`, which destroys that texture, and a second texture is created for the view.
- **`getView` and `getSampler`.** A cache miss in either destroys the current texture.
- **Uploads.** `destroy` keeps the loaded flag, so a texture rebuilt later is not re-uploaded. An `updateBuffer` on a texture not yet created creates it through `getTexture`, which calls `updateBuffer` again, so the images are uploaded twice.
- **No colour attachments.** `render()` before the first resize throws a TypeError: it sets the view of a colour attachment that does not exist.
- **The SceneNode cubemap usage.** The engine's own `GPUTextureUsage` table has no `TEXTURE_BINDING` and no `RENDER_ATTACHMENT`, so the usage is `2`. The renderer's cube texture uses the browser's flags: `4 | 2 | 16`.
- **`Mesh.add`.** It does not remove the child from its previous parent.
- **The colour buffer's name.** A geometry's colour buffer is named `"normal"`.
- **`PhysicalMaterial`.** It does not forward `blendMode`, which stays `"OPAQUE"`.
- **The renderer's pipeline cache.** Pipelines are cached per material. A later mesh with the same material reuses the pipeline even when its vertex layouts differ.
- **The transform constants (not reproduced).** src/objects/SceneNode.js:8 imports the named bindings `BuiltinsMatrix` and `BuiltinsUniform` from src/utils/constants.js. That file exports only a default object (src/utils/constants.js:33), so when the modules are linked as ES modules, SceneNode.js, and with it everything that imports it, fails to load with a SyntaxError. The model does not reproduce that failure. It takes the two tables' values as src/utils/constants.js:1-25 declares them (`Scene.TransformLayout`) and models the scene graph as it would run with the bindings exported.

## Model

| member | source | states |
|---|---|---|
| Frames.Ticks | src/core/FrameController.js:53-58 | each tick schedules its successor before it runs the callback, two events per tick |
| Frames.TicksCalls | src/core/FrameController.js:53-58 | k ticks run the callback exactly k times |
| Frames.CallsAppend | src/core/FrameController.js:56 | the callback runs of two stretches of events add up |
| Frames.FrameController.constructor | src/core/FrameController.js:10-23 | a new controller is inactive and has nothing scheduled |
| Frames.FrameController.Loop | src/core/FrameController.js:53-58 | while active: one more tick scheduled, then one callback run; inactive: nothing happens; the flag is not touched |
| Frames.FrameController.Start | src/core/FrameController.js:37-40 | sets the flag and runs one tick; there is no guard, so starting an active controller adds a second chain of ticks |
| Frames.FrameController.Pause | src/core/FrameController.js:45-47 | clears the flag only; ticks already scheduled stay scheduled |
| Frames.FrameController.NextFrame | src/core/FrameController.js:53-58 | every scheduled tick fires once: while active, n chains reschedule themselves and run the callback n times; after a pause they all end with nothing run |
| Scene.TransformLayout | src/utils/constants.js:1-25 | the transform uniform places ModelMatrix at 0, ModelViewMatrix at 64 and NormalMatrix at 128, 192 bytes in all |
| Scene.TransformOffsets | src/utils/constants.js:15-25 | each of the three matrix names is in the transform uniform's offset table with its offset |
| Scene.TransformWrites | src/objects/SceneNode.js:148-155 | updateUniform makes exactly three writes |
| Scene.TransformWritesFit | src/objects/SceneNode.js:148-155 | the three writes go to the three items' offsets in item order, each fits its 64-byte slot, and the last ends inside the buffer |
| Scene.WriteTransform | src/objects/SceneNode.js:149-154 | the model matrix (the world matrix), the model-view matrix (view times world) and its 3x3 normal block are written in that order through the uniform's `set` |
| Scene.OnlyReleasesTrans | src/objects/SceneNode.js:87-95 | two stretches of buffer releases make one |
| Scene.DestroyCallsRelease | src/buffer/BufferObject.js:45-48 | destroying a buffer object appends buffer releases and nothing else |
| Scene.SceneNode.constructor | src/objects/SceneNode.js:46-80 | the name defaults to ""; no parent, no children; position and rotation zero, scale one; identity matrices; dirty; a fresh 192-byte "TransformUniform" at binding 1; a fresh registered cube texture of size [1,1,6], rgba8unorm, usage 2 (the usage table lacks the other two flags), view dimension "cube" |
| Scene.SceneNode.SetComponent | src/math/Vector2.js:319-341 | setting x or y of the position, rotation or scale marks the node dirty; setting z (src/math/Vector3.js:280-284) changes the component and leaves the flag alone; the other vectors are unchanged |
| Scene.SceneNode.SetVector | src/math/Vector3.js:32-36 | `v.set(x, y, z)` replaces the whole vector and, through the x and y setters, marks the node dirty |
| Scene.SceneNode.SetParent | src/objects/SceneNode.js:114-117 | records the parent and marks the node dirty |
| Scene.SceneNode.Add | src/objects/SceneNode.js:103-107 | appends the node to the children, makes this node its parent, marks it dirty and returns it; a previous parent keeps it among its children |
| Scene.SceneNode.UpdateMatrix | src/objects/SceneNode.js:124-140 | a clean node without `force` changes nothing; otherwise the local matrix is translate-rotate(x,y,z)-scale of the transform, the world matrix the parent's world matrix (identity without a parent) times it, every direct child is marked dirty, and the node ends clean unless it is its own child |
| Scene.SceneNode.UpdateUniform | src/objects/SceneNode.js:148-155 | the transform uniform receives exactly TransformWrites of the world matrix and the camera's view matrix |
| Scene.SceneNode.Destroy | src/objects/SceneNode.js:87-95 | a plain node releases its uniform and, for each direct child that is a mesh, that child's uniform, geometry and material (src/objects/Mesh.js:36-39); a mesh releases only its geometry and material; only buffer releases are appended and no handle is created |
| Scene.SceneNode.DestroyNode | src/objects/SceneNode.js:87-95 | a plain node's own uniform and every direct mesh child end released; grandchildren are not reached |
| Scene.DestroyMesh | src/objects/Mesh.js:36-39 | the geometry's five buffers are released and the material's shader-module memos cleared |
| Scene.ChildInFrame | src/objects/SceneNode.js:89-94 | a child's buffers and material are among those its parent's destroy may touch |
| Scene.DestroyFiveRelease | src/geometry/BufferGeometry.js:98-104 | the geometry's five releases append buffer releases only |
| Scene.DestroyMeshChild | src/objects/SceneNode.js:89-94 | one loop step: the child ends released and the children handled before, and the parent's uniform, stay released |
| Scene.DestroyChild | src/objects/SceneNode.js:91-92 | one mesh child: its uniform, then Mesh.destroy; it ends released with only buffer releases appended |
| Cameras.CameraLayout | src/camera/Camera.js:71-80 | the camera uniform places ViewMatrix at 0, ProjectionMatrix at 64, CameraPos at 128 and ViewProjectionInverseMatrix at 144, 208 bytes in all |
| Cameras.CameraOffsets | src/camera/Camera.js:52-57 | each of the four uniform keys is in the offset table with its offset |
| Cameras.Camera.constructor | src/camera/Camera.js:63-81 | position defaults to (3,3,3), lookAt to the origin, up to Vector3.UP; both matrices start as the identity and both flags set; the uniform is "CameraUniform" at binding 0, 208 bytes, visible to vertex and fragment stages, with no device buffer |
| Cameras.Camera.RefreshView | src/camera/PerspectiveCamera.js:60-65 | the view matrix becomes lookAt(position, lookAt, up); the matrix is written at the ViewMatrix offset and the position's three floats at the CameraPos offset, in that order; nothing else changes |
| Cameras.Camera.RefreshProjection | src/camera/PerspectiveCamera.js:66-69 | the projection matrix is replaced and written at the ProjectionMatrix offset; nothing else changes |
| Cameras.Camera.Destroy | src/camera/Camera.js:83-85 | releases the uniform's device buffer, if any |
| Cameras.CameraWrites | src/camera/PerspectiveCamera.js:59-76 | how many uniform writes one update makes for each pair of flags: none when neither is stale, and the inverse of projection times view last whenever it is written |
| Cameras.FullUpdateCoversUniform | src/camera/PerspectiveCamera.js:59-76 | a full update writes four items at exactly the four offsets of the camera uniform, each matrix 64 bytes; the position write is 12 bytes, less than its 16-byte slot |
| Cameras.PerspectiveCamera.constructor | src/camera/PerspectiveCamera.js:43-53 | the base camera gets position, lookAt and up; fov defaults to 45, aspect to 0.75, near to 0.1, far to 1000 |
| Cameras.PerspectiveCamera.UpdateMatrix | src/camera/PerspectiveCamera.js:59-76 | stale matrices are recomputed (view by lookAt, projection by perspective with the field of view in radians); the uniform receives exactly the writes CameraWrites lists; a singular view-projection product throws after the earlier writes with both flags left as they were; otherwise both flags are cleared |
| Buffers.BufferObject.constructor | src/buffer/BufferObject.js:15-21 | label defaults to "", usage to VERTEX and COPY_DST, mappedAtCreation to "initData present"; the data is `initData`; the size is its byte length, else the given size, else 0; no device buffer yet |
| Buffers.BufferObject.GetBuffer | src/buffer/BufferObject.js:23-39 | the device buffer is created once, with the wrapper's descriptor, and its data copied into the mapped range and unmapped; later calls return the same handle and append nothing to the device trace |
| Buffers.BufferObject.WriteBuffer | src/buffer/BufferObject.js:41-43 | a queue write of the whole payload at the given offsets into the (lazily created) device buffer, after whatever `getBuffer` appends |
| Buffers.BufferObject.Destroy | src/buffer/BufferObject.js:45-48 | releases the device buffer when there is one, and forgets it; the device's handle counter is unchanged |
| VertexBuffers.ElementBytes | src/buffer/VertexBuffer.js:74 | the data's bytes per element: the typed array's element size, 4 otherwise |
| VertexBuffers.StrideSize | src/buffer/VertexBuffer.js:74 | the given stride size, else strideLength times the data's element size, 4 bytes per element without data |
| VertexBuffers.VertexBuffer.constructor | src/buffer/VertexBuffer.js:63-84 | the data is passed under `data`, which the wrapper ignores, so the buffer has no data, size 0 and is not mapped; label "[VERTEX_BUFFER] " + name, usage VERTEX; one attribute at offset 0 with the location and format; the layout's stride is the stride size |
| VertexBuffers.VertexBuffer.Attach | src/buffer/VertexBuffer.js:86-88 | the pass records `setVertexBuffer(location, buffer)` with the buffer `getBuffer` resolves, after its creation calls |
| IndexBuffers.IndexFormat | src/buffer/IndexBuffer.js:31 | "uint16" exactly for Uint16Array data, "uint32" for anything else (absent data included) |
| IndexBuffers.IndexBuffer.constructor | src/buffer/IndexBuffer.js:24-32 | label defaults to "[INDEX_BUFFER]", usage INDEX, mapped at creation; the data is passed under `data`, so the buffer has none, size 0, and the format is "uint32" |
| IndexBuffers.IndexBuffer.Attach | src/buffer/IndexBuffer.js:39-41 | the pass records `setIndexBuffer(buffer, format)` with the buffer `getBuffer` resolves |
| Uniforms.ReduceIsSizeBefore | src/buffer/UniformBuffer.js:25 | the buffer size (the left fold of the item sizes) is the sum of the sizes of all items, the offset the loop would give a virtual item after the last |
| Uniforms.RegionsDisjoint | src/buffer/UniformBuffer.js:25-37 | the items' regions lie in item order without overlapping, and all inside the buffer's size |
| Uniforms.OffsetsLookup | src/buffer/UniformBuffer.js:32-37 | a name is in the offset table iff some item has it, and its offset is the one of the last item with that name |
| Uniforms.AssignOffsets | src/buffer/UniformBuffer.js:32-37 | each item gets the previous item's offset plus its size (0 for the first), written back into the item and into the name table; the items keep everything else |
| Uniforms.UniformBuffer.constructor | src/buffer/UniformBuffer.js:20-45 | label "[UNIFORM_BUFFER] " + name, usage UNIFORM and COPY_DST, size the sum of the item sizes; visibility defaults to VERTEX and FRAGMENT; items placed and offset table built as above; layout entry a "uniform" buffer slot at the binding; no bind-group entry yet |
| Uniforms.UniformBuffer.GetBindGroupEntry | src/buffer/UniformBuffer.js:47-59 | the first call resolves the device buffer and binds it whole from offset 0; later calls return the memoised entry and touch neither the buffer nor the device |
| Uniforms.UniformBuffer.Set | src/buffer/UniformBuffer.js:61-65 | a known name becomes a queue write of the data at that name's offset; an unknown name changes nothing |
| Uniforms.SetNext | src/buffer/UniformBuffer.js:61-65 | a run of `set` calls leaves the device trace as: the buffer's creation calls once, then one queue write per call, in order |
| Uniforms.SetCallsSnoc | src/buffer/UniformBuffer.js:61-65 | one more `set` appends exactly that write's calls to the run's trace |
| Uniforms.AfterExtends | src/buffer/UniformBuffer.js:61-65 | a run of `set` calls only appends to the device trace |
| Uniforms.WriteCommands | src/buffer/BufferObject.js:41-43 | one queue write per `set`, in order, each of the whole payload at its offset |
| Textures.Assign | src/buffer/TextureObject.js:67-72 | `Object.assign(target ?? {}, source)` guarded by `source &&`: with a source, the result holds the keys of both, the source's values winning; without, the target is unchanged |
| Textures.Uploads | src/buffer/TextureObject.js:112-114 | one copy per image, image i into layer i of the texture, in image order |
| Textures.TextureRegistry.constructor | src/buffer/TextureObject.js:45 | the static registry of constructed textures starts empty |
| Textures.TextureObject.constructor | src/buffer/TextureObject.js:51-54 | stores the descriptor, has no texture, view, sampler or images, is not loaded, and is added to the registry |
| Textures.TextureObject.Destroy | src/buffer/TextureObject.js:170-176 | with a texture: one release on the device, texture and view forgotten; without: nothing; descriptor, images, sampler and flag unchanged |
| Textures.TextureObject.UpdateDescriptor | src/buffer/TextureObject.js:61-75 | always releases the texture first; a missing descriptor is replaced, an existing one merged part by part (texture, view, sampler) |
| Textures.TextureObject.SetImage | src/buffer/TextureObject.js:84-91 | once decoded, the single bitmap becomes the image list and the upload flag is cleared; the device objects are untouched |
| Textures.TextureObject.SetImages | src/buffer/TextureObject.js:98-103 | once decoded, the bitmaps become the image list in order and the upload flag is cleared |
| Textures.TextureObject.UpdateBuffer | src/buffer/TextureObject.js:109-117 | loaded or imageless: nothing changes; pending with a texture: one upload per image and the flag set; pending without one: the inner getTexture creates the texture and uploads once, then the loop uploads every image a second time |
| Textures.TextureObject.GetTexture | src/buffer/TextureObject.js:126-135 | a cached texture is returned without effect unless forced; otherwise the descriptor absorbs `desc`, the old texture is released, a new one created from the texture descriptor, the view forgotten and pending images uploaded |
| Textures.TextureObject.GetView | src/buffer/TextureObject.js:144-150 | a cached view is returned without effect unless forced; otherwise the descriptor update releases the texture, so a fresh texture is created (with uploads) before the view on it |
| Textures.TextureObject.GetSampler | src/buffer/TextureObject.js:159-165 | a cached sampler is returned unless forced; otherwise the descriptor update releases the texture and a sampler is created from the sampler descriptor |
| Pipelines.FormatOf | src/core/RenderPipeline.js:50 | the presentation format is the given one when present and the GPU's preferred format otherwise |
| Pipelines.FragmentStateOf | src/core/RenderPipeline.js:71-85 | a fragment state exists iff there is a fragment module and a truthy format; it has entry point "main" and one target of that format, carrying the blend state exactly when one is given |
| Pipelines.DescriptorOf | src/core/RenderPipeline.js:51-92 | the descriptor uses the pipeline layout (if made), a vertex state with entry point "main" and the given buffer layouts, the fragment state above, and the primitive and depth-stencil options or their defaults (triangle-list, back culling; depth write on, "less", depth24plus) |
| Pipelines.Handles | src/core/RenderPipeline.js:63 | the layouts made in order get consecutive handles from the first one on |
| Pipelines.LayoutCalls | src/core/RenderPipeline.js:63 | one bind-group layout creation per entry list, in list order, with consecutive handles |
| Pipelines.LayoutCallsNoPipeline | src/core/RenderPipeline.js:63 | creating the bind-group layouts creates no render pipeline |
| Pipelines.OnePipelinePerConstruction | src/core/RenderPipeline.js:61-92 | a construction creates exactly one render pipeline, and that creation is its last device call |
| Pipelines.CreateLayouts | src/core/RenderPipeline.js:63 | the loop creates one bind-group layout per entry list, in order, and returns their handles |
| Pipelines.RenderPipeline.constructor | src/core/RenderPipeline.js:43-93 | the device trace gains the layouts and the pipeline layout (only when bind-group layouts are given) and then the pipeline, created from the descriptor above; `pipeline` is that last handle |
| Materials.LightCount | src/material/PhongMaterial.js:127-128 | the light count written into the shader directives is the group's length when the group is present and 0 otherwise |
| Materials.RegeneratesIgnoresCounts | src/material/PhongMaterial.js:123-125 | since `!oldCount` is a boolean and `newCount` a number, the strict inequality always holds: the fragment shader is regenerated iff there is no shader or no lights yet, or both old and new lights have direction lights, or both have point lights, whatever the counts |
| Materials.BlendDefinedIffKnown | src/material/ShaderMaterial.js:170-253 | `getBlend` yields a blend state exactly for OPAQUE, ADD, MULTIPLY, ALPHA, BLEND, PREMULTIPLIED and SCREEN, and `undefined` for any other mode |
| Materials.BlendOperations | src/material/ShaderMaterial.js:170-253 | ALPHA and BLEND share one entry and are the only modes whose colour and alpha components carry no operation; every other known mode uses "add" |
| Materials.OpaqueBlends | src/material/ShaderMaterial.js:171-184 | the default OPAQUE mode still blends: colour is source alpha over one minus source alpha, alpha is source alpha plus one |
| Materials.ShaderCache.constructor | src/material/ShaderMaterial.js:67 | the shared module cache starts empty |
| Materials.ShaderCache.Clear | src/material/ShaderMaterial.js:73-75 | `clearCache` empties the shared cache |
| Materials.ShaderCache.ModuleFor | src/material/ShaderMaterial.js:107-114 | a cache hit returns the cached module and touches neither cache nor device; a miss creates exactly one shader module from that code and caches it under the code; every cached module was created by the device from its key |
| Materials.ShaderMaterial.constructor | src/material/ShaderMaterial.js:34-48 | name defaults to "ShaderMaterial", blend mode to OPAQUE, cull mode is "back", topology "triangle-list"; the shader texts are the given ones; no modules and no lights yet |
| Materials.ShaderMaterial.Destroy | src/material/ShaderMaterial.js:96-99 | the material forgets both module memos; shader text and lights stay, and the shared cache keeps its modules |
| Materials.ShaderMaterial.GetVertexShaderModule | src/material/ShaderMaterial.js:121-129 | the first call obtains the module through the shared cache and memoises it; later calls return the memo without touching cache or device, even if the text has changed |
| Materials.ShaderMaterial.GetFragmentShaderModule | src/material/ShaderMaterial.js:136-144 | the same for the fragment shader |
| Materials.ShaderMaterial.GetBindGroup | src/material/ShaderMaterial.js:150-164 | the base class creates a fresh bind group with no entries on every call |
| Materials.ShaderMaterial.AttachLight | src/material/ShaderMaterial.js:264-266 | the base class only stores the lights; shaders and module memos are unchanged |
| Phong.MaterialLayout | src/material/PhongMaterial.js:137-157 | the four material items lie at offsets 0, 16, 32 and 48 of a 64-byte uniform |
| Phong.PhongLayoutEntries | src/material/PhongMaterial.js:171-209 | two uniform entries seen by both stages at bindings 0 and 1; with an albedo map, a filtering sampler at 2 and a float texture at 3, both fragment-only |
| Phong.WriteMaterial | src/material/PhongMaterial.js:163-166 | the four `set` calls write ambient, diffuse and specular colours at offsets 0, 16, 32 (16 bytes each) and the shininess at 48 (4 bytes), after creating the buffer if it did not exist |
| Phong.PhongMaterial.constructor | src/material/PhongMaterial.js:79-111 | defaults: ambient intensity 0, specular reflection 0, diffuse reflection 1, shininess 0, white colours, no albedo map; both light counts start at 0; USE_ALBEDO_MAP is a condition directive exactly when an albedo map is given |
| Phong.PhongMaterial.AttachLight | src/material/PhongMaterial.js:122-132 | when the regeneration rule fires, both light counts are set, the fragment shader becomes the preprocessed fragment source and the lights are stored; otherwise nothing changes |
| Phong.PhongMaterial.MakeMaterialUniform | src/material/PhongMaterial.js:135-158 | the material uniform and the one-element shininess array are made on the first call only |
| Phong.PhongMaterial.GetMaterialBuffer | src/material/PhongMaterial.js:134-169 | each colour's alpha becomes its intensity or reflection factor, the shininess array holds the shininess, and the device trace gains the buffer creation (first call only) and the four writes of the new values; the material buffer handle is returned |
| Phong.PhongMaterial.GetLayoutEntries | src/material/PhongMaterial.js:171-209 | returns the layout table and keeps it on the material |
| Phong.PhongMaterial.MakeBindGroup | src/material/PhongMaterial.js:212-239 | writes the material buffer, then throws a TypeError without lights or their uniform buffer; otherwise creates the bind group from the material buffer, the lights' uniform entry and, with an albedo map, its sampler and view |
| Phong.PhongMaterial.GroupEntries | src/material/PhongMaterial.js:213-233 | the entries are the material buffer at 0, the lights' uniform entry, and with an albedo map its sampler at 2 and view at 3 |
| Phong.PhongMaterial.GetBindGroup | src/material/PhongMaterial.js:211-242 | the group is made once (a TypeError exactly when there is none yet and no lights' uniform buffer); every call rewrites the four material items and puts the material buffer back into entry 0 |
| Lambert.LambertLayoutEntries | src/material/LambertMaterial.js:69-86 | two uniform entries at bindings 0 and 1, visible to the vertex and fragment stages |
| Lambert.LayoutIsPhongWithoutMap | src/material/LambertMaterial.js:69-86 | the Lambert layout equals the Phong layout without an albedo map |
| Lambert.LambertMaterial.constructor | src/material/LambertMaterial.js:25-35 | the albedo defaults to white, both light counts start at 0, no shader modules, lights, buffer or bind group yet |
| Lambert.LambertMaterial.AttachLight | src/material/LambertMaterial.js:46-56 | the Phong regeneration rule, with no condition directives: when it fires, both counts are set, the fragment shader is re-preprocessed and the lights stored; otherwise nothing changes |
| Lambert.LambertMaterial.GetAlbedoColorBuffer | src/material/LambertMaterial.js:58-67 | the 16-byte uniform is created and written with the albedo on the first call only; later calls return the same buffer and leave the device untouched, even if the albedo changed |
| Lambert.LambertMaterial.GetBindGroup | src/material/LambertMaterial.js:88-106 | the group is made once from the albedo buffer and the lights' uniform entry; the first call throws a TypeError exactly when the lights or their uniform buffer are missing; later calls return the same group without device calls |
| Physical.PhysicalLayoutEntries | src/material/PhysicalMaterial.js:32-85 | seven fragment-only entries at bindings 0 to 6: a filtering sampler, a float cube texture, then five plain float textures |
| Physical.SamplerAndViews | src/material/PhysicalMaterial.js:92-121 | the sampler sits at binding 0 and the i-th view at binding i + 1, one entry per view |
| Physical.CurrentViews | src/material/PhysicalMaterial.js:99-119 | the views gathered are exactly the textures' current views, in order |
| Physical.ShowsCurrent | src/material/PhysicalMaterial.js:99-119 | views that match the textures one by one are the textures' current views |
| Physical.ShowView | src/material/PhysicalMaterial.js:99-119 | asking one more texture for its view keeps every earlier texture's view and the base texture's sampler |
| Physical.PhysicalMaterial.constructor | src/material/PhysicalMaterial.js:19-30 | name "PhysicalMaterial", both shader texts set, blend mode left at the default OPAQUE, the five textures as given, no bind group yet |
| Physical.PhysicalMaterial.Viewed | src/material/PhysicalMaterial.js:98-120 | the textures viewed are six, the cube map first and the base colour texture second |
| Physical.PhysicalMaterial.MapViews | src/material/PhysicalMaterial.js:106-120 | the normal, metallic-roughness, emissive and occlusion views are fetched in that order; a TypeError exactly when one of those textures is missing |
| Physical.PhysicalMaterial.GatherResources | src/material/PhysicalMaterial.js:89-120 | the base texture's sampler (asked for twice) and the views of the cube map and the five textures; a TypeError exactly when a texture or the cube map is missing |
| Physical.PhysicalMaterial.GetBindGroup | src/material/PhysicalMaterial.js:87-125 | the group is created once, as the last device call, from the base texture's sampler and the six current views at bindings 0 to 6; a TypeError exactly when there is none yet and a texture or the cube map is missing; later calls return it without device calls |
| Skybox.SkyboxLayoutEntries | src/material/SkyboxMaterial.js:42-60 | a float cube texture at binding 0 and a filtering sampler at binding 1, both fragment-only |
| Skybox.SkyboxMaterial.constructor | src/material/SkyboxMaterial.js:29-36 | name "SkyboxMaterial", both shader texts set, cull mode left at "back" (the "front" override is commented out), the texture as given, no bind group yet |
| Skybox.SkyboxMaterial.GetBindGroup | src/material/SkyboxMaterial.js:68-86 | the group is created once, as the last device call, from the texture's current view at 0 and its current sampler at 1; a TypeError, with no device call, exactly when there is no group yet and no texture; later calls return the group without device calls |
| MaterialKinds.EntriesOfShapes | src/core/Renderer.js:153 | the material's own bind-group layout has no entries for the base class, 2 or 4 for Phong (by albedo map), 2 for Lambert, 7 for the physical material and 2 for the skybox; the lit materials start with two uniform buffers |
| MaterialKinds.LayoutEntries | src/core/Renderer.js:153 | `material.getLayoutEntries()` yields the table of the material's class and leaves its bind-group memo and base part untouched |
| MaterialKinds.GetBindGroup | src/core/Renderer.js:170 | a memoising class returns the group it kept and keeps any group it makes; only a subclass can throw, and only a TypeError; the base class makes one new empty group per call; it changes only the material's own objects, the device, and the buffers, uniforms and textures its group binds (`GroupBuffers`, `GroupUniforms`, `GroupTextures`) |
| MaterialKinds.Destroy | src/objects/Mesh.js:38 | `material.destroy()` is the inherited base destroy: both module memos forgotten, shader text and lights kept |
| Wgsl.SplitJoin | src/core/WGSLPreprocessor.js:17 | splitting on a one-character separator and joining back gives the original text, and no piece contains the separator (also line 76) |
| Wgsl.SplitLines | src/core/WGSLPreprocessor.js:59 | a block built line by line with a newline after each line splits back into those lines plus one trailing empty line (also line 76) |
| Wgsl.RunEnd | src/core/WGSLPreprocessor.js:1 | `.*` stops at the first line terminator (or the end of the line) |
| Wgsl.LastClose | src/core/WGSLPreprocessor.js:1 | the greedy `.*` before `}` backtracks to the last `}` of the run |
| Wgsl.Exec | src/core/WGSLPreprocessor.js:24-31 | `exec` from `lastIndex` finds the leftmost match at or after it (at least three characters long), or reports that no position from there on matches (the regular expression is at line 1) |
| Wgsl.ValueText | src/core/WGSLPreprocessor.js:27-29 | a placeholder's replacement is the number's decimal digits, or "undefined" when the directive has no value; it never contains `$` |
| Wgsl.SubstituteLine | src/core/WGSLPreprocessor.js:23-33 | the substitution loop over one line ends (each replacement removes a `$` from the line, each skip moves `lastIndex` past one) and computes the substitution function: empty names skipped; for any other match, the first copy of the matched text in the line is replaced by the value; the search continues at the old match end in the new line |
| Wgsl.IndexOf | src/core/WGSLPreprocessor.js:29 | `replace` with a string pattern finds its first occurrence: the index found holds the pattern and no earlier index does |
| Wgsl.ReplacedProgress | src/core/WGSLPreprocessor.js:29 | a replacement leaves the line with fewer `$` characters, since the replaced text starts with one and the value has none |
| Wgsl.EarlierCopyReplaced | src/core/WGSLPreprocessor.js:24-31 | in `${A}\r${B}\r${B}` with A = 1 and B = 2, the first `${B}` is replaced although the search found the second, and the result is `1\r2\r${B}` |
| Wgsl.ExecFindsPlaceholder | src/core/WGSLPreprocessor.js:24 | in a line `pre${NAME}post` with no `$` before and no `}` after, the match is exactly the placeholder (the regular expression is at line 1) |
| Wgsl.SubstituteOne | src/core/WGSLPreprocessor.js:23-33 | such a line with a non-empty name becomes `pre` + the directive's value + `post` |
| Wgsl.EmptyPlaceholderKept | src/core/WGSLPreprocessor.js:28 | an empty placeholder `${}` is left in the line |
| Wgsl.BlockEnd | src/core/WGSLPreprocessor.js:57-64 | the block runs from its first line through the first line that starts with `#endif`, or to the end of the source |
| Wgsl.FirstEndif | src/core/WGSLPreprocessor.js:83-90 | the copy inside an enabled block stops at the first line that starts with `#endif` |
| Wgsl.GetDirectiveBlock | src/core/WGSLPreprocessor.js:54-66 | the loop returns the block's lines, each followed by a newline, and the index just past its `#endif` |
| Wgsl.CopyToEndif | src/core/WGSLPreprocessor.js:82-90 | the inner loop appends every line up to the first `#endif`, each with its newline, and stops on it |
| Wgsl.ProcessDirectiveBlock | src/core/WGSLPreprocessor.js:74-95 | the loop emits exactly the block output: for each `#if` line whose second space-separated word is an input directive, the lines up to the next `#endif`; nothing else |
| Wgsl.SimpleBlock | src/core/WGSLPreprocessor.js:74-95 | a block of one `#if NAME` line, plain body lines and an `#endif` keeps its body iff NAME is an input directive, and is empty otherwise |
| Wgsl.ProcessFromBlock | src/core/WGSLPreprocessor.js:35-39 | a line starting with `#if` after substitution emits its block's output and a newline, and processing resumes one line after the line following the `#endif` |
| Wgsl.ProcessFromLine | src/core/WGSLPreprocessor.js:41-43 | any other line is emitted after substitution, with a newline |
| Wgsl.ProcessLine | src/core/WGSLPreprocessor.js:20-43 | one iteration of the outer loop emits the next piece of the specified output and says where the loop resumes |
| Wgsl.ProcessLines | src/core/WGSLPreprocessor.js:16-45 | the outer loop over the lines produces exactly the specified output |
| Wgsl.Process | src/core/WGSLPreprocessor.js:15-46 | `process(source, inputDirectives, replaceDirectives)` computes the text transform `ProcessText` of the source split into lines, with each line's substitution replacing first copies as `SubstituteLine` states |
| Wgsl.LinesJoin | src/core/WGSLPreprocessor.js:17-42 | emitting every line with a newline gives the joined text plus one newline |
| Wgsl.PlainSourceUnchanged | src/core/WGSLPreprocessor.js:15-46 | a source without placeholders or `#if` lines comes back unchanged, plus a trailing newline |
| Wgsl.BlockOutputNoIf | src/core/WGSLPreprocessor.js:77-93 | lines after the last `#if` of a block emit nothing |
| Wgsl.SplitIfA | src/core/WGSLPreprocessor.js:80 | the directive of `#if A` is `A` |
| Wgsl.LineAfterEndifDropped | src/core/WGSLPreprocessor.js:39 | as written, the outer loop's `i++` after `i = continueLineIndex` drops the line right after every `#endif`: `#if A / x / #endif / dropped / y` with A enabled gives `x`, an empty line and `y` |
| Geometry.Corners | src/geometry/BufferGeometry.js:136-152 | each triangle contributes three weighted normals, one per corner, all with the triangle's area as weight |
| Geometry.CornersShareNormal | src/geometry/BufferGeometry.js:140-147 | the three cross products p01 x p02, p01 x p12 and p20 x p21 are the same vector, so every corner of a triangle gets the triangle's face normal with the same weight |
| Geometry.ContributionsCount | src/geometry/BufferGeometry.js:135-156 | a vertex collects exactly one contribution per occurrence of its index among the triangles' corners |
| Geometry.ContributionsStep | src/geometry/BufferGeometry.js:153-155 | one more triangle adds one contribution to a vertex per corner that names it |
| Geometry.OccurrencesStep | src/geometry/BufferGeometry.js:135-136 | three more indices add one occurrence of a vertex per index equal to it |
| Geometry.UnusedVertexIsZero | src/geometry/BufferGeometry.js:157-166 | a vertex no triangle uses gets the normal (0, 0, 0) |
| Geometry.SumContributions | src/geometry/BufferGeometry.js:158-163 | the inner loop yields the sum of the weighted normals and the sum of the weights of one vertex |
| Geometry.ComputeVertexNormals | src/geometry/BufferGeometry.js:131-169 | absent vertex data throws a TypeError; a vertex count not a multiple of 3 a RangeError; absent indices, an incomplete last triangle or an index past the last vertex a TypeError; otherwise exactly three numbers per vertex, each vertex's blended normal (the weighted sum over the total weight, or the plain sum when that is 0) |
| Geometry.PushTriangle | src/geometry/BufferGeometry.js:153-155 | the three corners are appended to the lists of the vertices they name, and every other list is unchanged |
| Geometry.GroupByVertex | src/geometry/BufferGeometry.js:134-156 | after the loop every vertex's list holds all its contributions, in triangle and corner order |
| Geometry.FlattenNormals | src/geometry/BufferGeometry.js:157-168 | the map and `flat()` give three numbers per vertex, its blended normal |
| Geometry.ElementCount | src/geometry/BufferGeometry.js:91-93 | a typed array's `length` is its number of elements |
| Geometry.BufferGeometry.constructor | src/geometry/BufferGeometry.js:47-85 | position at location 0 (stride 3, float32x3), uv at 1 (stride 2, float32x2, an empty array by default), normal at 2 and colour at 3 (stride 3, float32x3, the colour buffer also named "normal"); five distinct fresh buffers; the layouts in the order position, uv, normal, colour; the index buffer has no data and format uint32 |
| Geometry.BufferGeometry.IndexCount | src/geometry/BufferGeometry.js:91-93 | the index data's length when there is data, a TypeError otherwise |
| Geometry.IndexCountThrows | src/geometry/BufferGeometry.js:69-71 | because the index data is handed on under a key the buffer ignores, every constructed geometry's `indexCount` throws a TypeError |
| Geometry.BufferGeometry.AttachVertexBuffer | src/geometry/BufferGeometry.js:111-116 | the pass binds position, uv, normal and colour at slots 0 to 3, in that order, each buffer created on the device if it had none; the device trace only grows |
| Geometry.BufferGeometry.AttachIndexBuffer | src/geometry/BufferGeometry.js:123-125 | the pass binds the index buffer with its format, created on the device if it had none |
| Geometry.BufferGeometry.Destroy | src/geometry/BufferGeometry.js:98-104 | the five buffers are released in the order position, uv, normal, colour, index, and none is left |
| Geometry.NewBufferGeometry | src/geometry/BufferGeometry.js:47-85 | with normals given, a valid geometry whose normal layout has stride 3 elements of that data; without, `computeVertexNormals` reads the absent position data and the constructor throws a TypeError |
| BoxGeometries.PlaceForgets | src/geometry/BoxGeometry.js:56-67 | with three different axes, the shared vector's previous contents do not survive into the next vertex |
| BoxGeometries.PlaneVertex | src/geometry/BoxGeometry.js:60-67 | every vertex of a plane has its w coordinate at depth / 2 |
| BoxGeometries.PlaneNormal | src/geometry/BoxGeometry.js:73-75 | every normal of a plane points along its w axis, +1 for a positive depth and -1 otherwise |
| BoxGeometries.VertexIs | src/geometry/BoxGeometry.js:60-67 | the vertex at grid position (iy, ix) is x * udir, y * vdir and depth / 2 on the u, v and w axes |
| BoxGeometries.BuildPlane | src/geometry/BoxGeometry.js:43-104 | one plane appends its vertex grid, one normal per vertex, its uv grid and two triangles per cell, and advances the vertex counter by (gridX+1)(gridY+1) |
| BoxGeometries.PushVertices | src/geometry/BoxGeometry.js:59-88 | the vertex loop appends the grid of positions, uvs and normals row by row, and counts (gridX+1)(gridY+1) vertices |
| BoxGeometries.PushVertexRow | src/geometry/BoxGeometry.js:61-86 | one pass of the inner loop appends row iy, left to right |
| BoxGeometries.VertexStep | src/geometry/BoxGeometry.js:62-70 | one more vertex extends the row by that vertex |
| BoxGeometries.UvStep | src/geometry/BoxGeometry.js:81-82 | one more uv (ix / gridX, 1 - iy / gridY) extends the row by that uv |
| BoxGeometries.PushCells | src/geometry/BoxGeometry.js:90-102 | the index loop appends the triangles (a, b, d), (b, c, d) of every cell, row by row |
| BoxGeometries.PushCellRow | src/geometry/BoxGeometry.js:91-100 | one pass of the inner loop appends the cells of row iy, left to right |
| BoxGeometries.CellStep | src/geometry/BoxGeometry.js:92-99 | one cell's two triangles extend the row's index list by that cell |
| BoxGeometries.CellInPlane | src/geometry/BoxGeometry.js:92-95 | both triangles of a cell use only the plane's own vertices |
| BoxGeometries.PlaneShape | src/geometry/BoxGeometry.js:43-104 | a plane adds as many vertices, normals and uvs as grid points, six indices per cell, and indices within its own vertex range |
| BoxGeometries.CellsInPlane | src/geometry/BoxGeometry.js:90-102 | every index a plane pushes lies in its own vertex range |
| BoxGeometries.CellsLength | src/geometry/BoxGeometry.js:90-102 | a plane pushes six indices per cell |
| BoxGeometries.PlaneOnFace | src/geometry/BoxGeometry.js:59-70 | every vertex of a plane lies on its face, w = depth / 2 |
| BoxGeometries.PlaneUvsInUnitSquare | src/geometry/BoxGeometry.js:81-82 | with at least one segment each way, every uv of the plane lies in the unit square |
| BoxGeometries.BoxPlanes | src/geometry/BoxGeometry.js:35-40 | six planes, each over three different axes |
| BoxGeometries.BoxArrays | src/geometry/BoxGeometry.js:20-40 | the segment counts are floored and the six planes built in the order +x, -x, +y, -y, +z, -z with one shared vertex counter |
| BoxGeometries.PlaneInOrder | src/geometry/BoxGeometry.js:35-40 | the k-th buildPlane call, made after the planes before it, extends their arrays by its own and the counter by its vertices |
| BoxGeometries.BuildShape | src/geometry/BoxGeometry.js:26-104 | after any number of planes: as many normals and uvs as vertices, six indices per cell, and every index below the vertex count |
| BoxGeometries.SixTotals | src/geometry/BoxGeometry.js:35-40 | opposite faces have equal counts, so the box totals are twice those of three planes |
| BoxGeometries.PlaneCounts | src/geometry/BoxGeometry.js:52-53 | a plane of gx by gy segments has (gx+1)(gy+1) vertices and gx*gy cells |
| BoxGeometries.BoxCounts | src/geometry/BoxGeometry.js:7-111 | for segment counts w, h, d the box has 2[(d+1)(h+1) + (w+1)(d+1) + (w+1)(h+1)] vertices and 12(dh + wd + wh) indices |
| BoxGeometries.BoxIndicesInRange | src/geometry/BoxGeometry.js:92-99 | every index of the box names one of its vertices |
| BoxGeometries.BoxNormals | src/geometry/BoxGeometry.js:35-40 | with positive dimensions the normals are, block by block, +x, -x, +y, -y, +z and -z |
| BoxGeometries.UvsOfJoin | src/geometry/BoxGeometry.js:81-82 | two runs of uvs in the unit square make one |
| BoxGeometries.BuildUvsIs | src/geometry/BoxGeometry.js:81-82 | the uvs of the built planes are each plane's uv grid, independent of where its vertices are numbered |
| BoxGeometries.BuildUvsInUnitSquare | src/geometry/BoxGeometry.js:81-82 | with at least one segment each way, every uv of the built planes lies in the unit square |
| BoxGeometries.BoxUvsInUnitSquare | src/geometry/BoxGeometry.js:81-82 | with at least one segment along every edge, every uv of the box lies in the unit square |
| BoxGeometries.BoxArgs | src/geometry/BoxGeometry.js:7-22 | every argument left undefined is 1, the segment counts are floored, and the arrays are the box's |
| BoxGeometries.DefaultBox | src/geometry/BoxGeometry.js:7 | `new BoxGeometry()` is the unit cube with one quad per face: 24 vertices and 36 indices |
| BoxGeometries.NewBoxGeometry | src/geometry/BoxGeometry.js:7-113 | with each undefined argument at its default of 1, the geometry receives the box arrays as position, normal, uv and a Uint16Array of indices; normals are given, so none are computed, and the normal stride is 12 bytes |
| SphereGeometries.AtLeast | src/geometry/SphereGeometry.js:32-33 | `Math.max(least, Math.floor(x))` is at least both, and equal to one of them |
| SphereGeometries.Clamped | src/geometry/SphereGeometry.js:32-35 | at least three segments around and two from pole to pole; thetaEnd is thetaStart + thetaLength cut off at PI |
| SphereGeometries.Numbering | src/geometry/SphereGeometry.js:52-96 | the grid of vertex numbers has one row per vertex row |
| SphereGeometries.NumberingAt | src/geometry/SphereGeometry.js:92 | the running index gives the vertex in row iy, column ix the number iy(w+1) + ix |
| SphereGeometries.VertexLoop | src/geometry/SphereGeometry.js:50-98 | the vertex loop throws exactly when some vertex has length zero; otherwise it pushes every row's vertices, normals and uvs in row order and builds the number grid |
| SphereGeometries.VertexStep | src/geometry/SphereGeometry.js:52-96 | one outer pass throws exactly when its row has a vertex of length zero, and otherwise extends the arrays and the grid by that row |
| SphereGeometries.ClearStops | src/geometry/SphereGeometry.js:85 | once a row has a vertex of length zero, the construction cannot get past it |
| SphereGeometries.ClearNext | src/geometry/SphereGeometry.js:50-98 | a clear row extends the clear prefix of rows by one |
| SphereGeometries.VertexRow | src/geometry/SphereGeometry.js:71-94 | one inner pass throws exactly when a vertex of the row has length zero, otherwise pushes the row left to right and numbers its w+1 vertices |
| SphereGeometries.RowClearStops | src/geometry/SphereGeometry.js:85 | a vertex of length zero stops the rest of its row |
| SphereGeometries.PushVertex | src/geometry/SphereGeometry.js:77-90 | one vertex: the spherical point, its normal (throwing on length zero, src/math/Vector3.js:112-119) and its uv |
| SphereGeometries.NumberIs | src/geometry/SphereGeometry.js:92 | the running index at row iy, column ix is the vertex's number |
| SphereGeometries.IndexLoop | src/geometry/SphereGeometry.js:101-119 | the index loop pushes every cell's kept triangles, row by row |
| SphereGeometries.IndexRow | src/geometry/SphereGeometry.js:103-117 | one inner pass pushes the cells of row iy left to right |
| SphereGeometries.Corners | src/geometry/SphereGeometry.js:105-108 | the corners read from the number grid are inside it and are the vertices' numbers |
| SphereGeometries.IndexStep | src/geometry/SphereGeometry.js:110-115 | one cell pushes (a, b, d) unless it touches a closed start pole and (b, c, d) unless it touches a closed end pole |
| SphereGeometries.SphereShape | src/geometry/SphereGeometry.js:50-98 | (h+1)(w+1) vertices, normals and uvs |
| SphereGeometries.CellInGrid | src/geometry/SphereGeometry.js:105-108 | every corner of a cell is a vertex of the grid |
| SphereGeometries.SphereIndicesInRange | src/geometry/SphereGeometry.js:101-119 | every index names one of the sphere's vertices |
| SphereGeometries.RowIndexCount | src/geometry/SphereGeometry.js:103-117 | a row of cells pushes six indices per cell, three fewer per cell whose triangle a closed pole drops |
| SphereGeometries.IndexCountUpTo | src/geometry/SphereGeometry.js:101-119 | the index count of the first r rows of cells, row by row |
| SphereGeometries.SphereIndexCount | src/geometry/SphereGeometry.js:101-119 | 6wh indices, less 3w when thetaStart is not positive and less 3w when thetaEnd reaches PI |
| SphereGeometries.WholeSphereIndexCount | src/geometry/SphereGeometry.js:101-119 | a sphere from pole to pole has 6w(h-1) indices |
| SphereGeometries.SphereIndicesFit | src/geometry/SphereGeometry.js:125 | up to 65536 vertices, the Uint16Array holds every index unchanged |
| SphereGeometries.OnSphere | src/geometry/SphereGeometry.js:77-79 | with cos² + sin² = 1, every vertex's squared length is radius² |
| SphereGeometries.FlatIffZeroRadius | src/geometry/SphereGeometry.js:77-85 | with lawful maths a vertex has length zero exactly when the radius is zero |
| SphereGeometries.RowClearAll | src/geometry/SphereGeometry.js:71-94 | a row is clear exactly when none of its vertices has length zero |
| SphereGeometries.DegenerateIffZeroRadius | src/geometry/SphereGeometry.js:21-126 | with lawful maths, building a sphere throws exactly when the radius is zero |
| SphereGeometries.UnitNormals | src/geometry/SphereGeometry.js:85-86 | with a non-zero radius every normal has length one |
| SphereGeometries.UnitScale | src/math/Vector3.js:112-119 | scaling a vector by one over its length gives length one |
| SphereGeometries.SphereUvs | src/geometry/SphereGeometry.js:54-90 | v runs from 1 on the first row to 0 on the last, within [0, 1]; u is ix / w before the pole shift |
| SphereGeometries.SphereArgs | src/geometry/SphereGeometry.js:21-35 | each argument left undefined takes its default (radius 1, 32 by 16 segments, phi from 0 over 2π, theta from 0 over π), then the counts are clamped and thetaEnd computed |
| SphereGeometries.DefaultSphere | src/geometry/SphereGeometry.js:21 | `new SphereGeometry()` is a closed unit sphere of 32 by 16 segments |
| SphereGeometries.DefaultSphereSound | src/geometry/SphereGeometry.js:21-129 | with lawful maths the default sphere does not throw |
| SphereGeometries.DefaultSphereCounts | src/geometry/SphereGeometry.js:37-126 | the default sphere has 17 rows of 33 vertices (561) and 2880 indices |
| SphereGeometries.NewSphereGeometry | src/geometry/SphereGeometry.js:21-129 | with each undefined argument at its default, throws exactly when the clamped sphere has a vertex of length zero; otherwise a geometry built from the sphere's arrays with normals supplied |
| Grids.Count | src/geometry/BoxGeometry.js:59 | a `for (i = 0; i < n; i++)` loop runs n times for n ≥ 0 and never for a negative n (and the loop at line 90) |
| Grids.GridLength | src/geometry/BoxGeometry.js:59-61 | two nested loops of r and c steps visit r * c cells |
| Grids.RowAt | src/geometry/BoxGeometry.js:61 | cell k of a row is the one the inner loop computes at step k |
| Grids.Floats3At | src/geometry/BoxGeometry.js:107 | vector i of a Float32Array of vectors sits at 3i, 3i + 1 and 3i + 2 |
| Grids.Floats2At | src/geometry/BoxGeometry.js:109 | uv i of the uv Float32Array sits at 2i and 2i + 1 |
| Grids.Uint16Values | src/geometry/BoxGeometry.js:110 | `new Uint16Array(indices)` keeps the length and stores each index modulo 2^16 |
| Grids.NoWrapBelow | src/geometry/BoxGeometry.js:110 | when every index is below 2^16, the Uint16Array holds every index unchanged |
| Grids.PropsOf | src/geometry/BoxGeometry.js:106-111 | a generator hands position, normal and uv data and Uint16 indices, but no colour |
| CubeGeometries.Half | src/geometry/CubeGeometry.js:19 | the half extents are half the cube size on every axis |
| CubeGeometries.Face | src/geometry/CubeGeometry.js:31-36 | each face has four corners |
| CubeGeometries.UvFace | src/geometry/CubeGeometry.js:39-44 | each face has four uvs |
| CubeGeometries.IndexFace | src/geometry/CubeGeometry.js:47-52 | each face has six indices, two triangles |
| CubeGeometries.CubeFaces | src/geometry/CubeGeometry.js:30-37 | six faces of four corners |
| CubeGeometries.CubeUvFaces | src/geometry/CubeGeometry.js:38-45 | six faces of four uvs |
| CubeGeometries.CubeIndexFaces | src/geometry/CubeGeometry.js:46-53 | six faces of six indices |
| CubeGeometries.CubeVertices | src/geometry/CubeGeometry.js:30-37 | 24 vertices, four per face |
| CubeGeometries.CubeUvs | src/geometry/CubeGeometry.js:38-45 | 24 uvs, one per vertex |
| CubeGeometries.CubeIndices | src/geometry/CubeGeometry.js:46-53 | 36 indices, each naming one of the 24 vertices |
| CubeGeometries.CellsDistinct | src/geometry/CubeGeometry.js:39-44 | no two faces share a cell of the cross-shaped texture unwrap |
| CubeGeometries.CornersOnPlane | src/geometry/CubeGeometry.js:31-36 | every corner of a face lies on the face's plane at the half extent along its outward direction, each coordinate plus or minus the half extent |
| CubeGeometries.VerticesOnFaces | src/geometry/CubeGeometry.js:30-37 | vertex 4k + j of the position array is corner j of face k, on that face's plane |
| CubeGeometries.UvsOnCells | src/geometry/CubeGeometry.js:39-44 | a face's uvs go counter-clockwise round its cell, a quarter wide and a third high |
| CubeGeometries.UvsInUnitSquare | src/geometry/CubeGeometry.js:38-45 | every uv lies in the unit square |
| CubeGeometries.Corner | src/geometry/CubeGeometry.js:47 | each entry of a face's index line names one of its four corners |
| CubeGeometries.IndicesOfFace | src/geometry/CubeGeometry.js:47-52 | face k is drawn as (4k, 4k+2, 4k+1) and (4k, 4k+3, 4k+2), only from its own vertices |
| CubeGeometries.PointOfCorner | src/geometry/CubeGeometry.js:30-37 | the flat position array holds corner c of face k at vertex 4k + c |
| CubeGeometries.TrianglePoint | src/geometry/CubeGeometry.js:46-53 | the point an index of face k reads is the corner of face k it names |
| CubeGeometries.FirstTriangleWinding | src/geometry/CubeGeometry.js:47-52 | the first triangle of every face turns toward its outward direction |
| CubeGeometries.SecondTriangleWinding | src/geometry/CubeGeometry.js:47-52 | the second triangle of every face turns the same way |
| CubeGeometries.TrianglesReadable | src/geometry/CubeGeometry.js:29-54 | the index array names only vertices of the position array and holds twelve triangles |
| CubeGeometries.CubeCorners | src/geometry/BufferGeometry.js:136-152 | three corner contributions per cube triangle |
| CubeGeometries.FirstTriangleFacesOut | src/geometry/CubeGeometry.js:47-52 | the first triangle's corner cross products are the face's outward direction scaled by its span, with equal weights |
| CubeGeometries.SecondTriangleFacesOut | src/geometry/CubeGeometry.js:47-52 | the same for the second triangle |
| CubeGeometries.TrianglesFaceOut | src/geometry/CubeGeometry.js:29-54 | for every triangle, the cross products normal computation would form at its corners all point along its face's outward direction with the same weight |
| CubeGeometries.OutwardWithPositiveSize | src/geometry/CubeGeometry.js:18-19 | with a positive size, every face lies away from the centre and its cross products point outward |
| CubeGeometries.CubeProps | src/geometry/CubeGeometry.js:29-54 | the props carry positions, uvs and Uint16 indices, but neither normals nor colours |
| CubeGeometries.IndicesFitUint16 | src/geometry/CubeGeometry.js:46 | no cube index wraps in the Uint16Array |
| CubeGeometries.NewCubeGeometry | src/geometry/CubeGeometry.js:18-56 | the size defaults to (1, 1, 1); with no normals given, the base constructor computes them from data the buffers do not hold, so it always throws a TypeError and `cubeSize` is never stored |
| Math3D.Components | src/math/Vector3.js:243-248 | the vector's `array` holds x, y and z in that order |
| Colors.ColorArray | src/light/Light.js:48 | a color's array form holds red, green, blue and alpha in that order |
| Lights.SetAtSlots | src/light/Light.js:48 | `typedArray.set(values, offset)` keeps the length, puts value i at slot offset + i and leaves every other slot alone |
| Lights.CopyInto | src/light/DirectionLight.js:35-37 | copying values into the array in place leaves exactly the contents `set` describes |
| Lights.LightPacked | src/light/Light.js:44-51 | the base light's four floats: the color's red, green and blue, then the intensity over the alpha at slot 3 |
| Lights.DirectionPacked | src/light/DirectionLight.js:31-39 | eight floats: the color, the intensity over the alpha at slot 3, the direction at 4..6; slot 7 keeps its old value |
| Lights.PointPacked | src/light/PointLight.js:37-45 | eight floats: the color with its alpha, the position at 4..6, the radius at 7; the intensity is not in the buffer |
| Lights.Allocate | src/light/Light.js:46 | `new Float32Array(n)` is fresh, n long and zero-filled |
| Lights.Light.constructor | src/light/Light.js:39-42 | stores the intensity and the color, 1 and white when left undefined; no buffer yet |
| Lights.Light.GetBuffer | src/light/Light.js:44-51 | the 4-float buffer is allocated (zeroed) on the first call and the same array repacked on every later one; the light's fields are unchanged |
| Lights.DirectionLight.constructor | src/light/DirectionLight.js:26-29 | stores the direction, the intensity and the color, `Vector3.DOWN`, 1 and white when left undefined; no buffer yet |
| Lights.DirectionLight.GetBuffer | src/light/DirectionLight.js:31-39 | the 8-float buffer is allocated once and repacked in place as DirectionPacked says |
| Lights.PointLight.constructor | src/light/PointLight.js:30-34 | stores the position, the intensity, the radius and the color, `Vector3.ZERO`, 1, 10 and `Color.WHITE` when left undefined; no buffer yet |
| Lights.PointLight.GetBuffer | src/light/PointLight.js:37-45 | the 8-float buffer is allocated once and repacked in place as PointPacked says |
| Renderers.ChildrenInTree | src/core/Renderer.js:135-137 | the children the traversal loops over are nodes of the unfolded tree |
| Renderers.KidsWithin | src/core/Renderer.js:135-137 | every child's subtree unfolds the same children lists within the same node set |
| Renderers.PreOrderNodes | src/core/Renderer.js:130-138 | the pre-order visits every node of the tree and nothing else |
| Renderers.KidsOrderNodes | src/core/Renderer.js:135-137 | the pre-orders of the first i children visit exactly the nodes of those children's subtrees |
| Renderers.MeshesAppend | src/core/Renderer.js:132-134 | picking the meshes out of a concatenation picks them from each part, in order |
| Renderers.TreeMeshesPreOrder | src/core/Renderer.js:130-138 | the meshes in the order the traversal reaches them are the meshes of the pre-order, in order |
| Renderers.KidsMeshesOrder | src/core/Renderer.js:135-137 | the same for the first i children's subtrees |
| Renderers.DrawCommands | src/core/Renderer.js:171-176 | one mesh records the pipeline, bind group 0, bind group 1, one vertex buffer per slot from 0, the index buffer and the indexed draw, in that order |
| Renderers.DrawnNodes | src/core/Renderer.js:130-138 | the nodes of the draws, one per draw, in order |
| Renderers.ShaderModules | src/core/Renderer.js:155-156 | the vertex then the fragment shader module are fetched and memoised on the material; the device trace only grows |
| Renderers.BuildPipeline | src/core/Renderer.js:150-163 | a pipeline is built with a pipeline layout, from bind-group layouts [camera entry, transform entry] and the material's entries, the geometry's vertex layouts, the material's shader modules, the presentation format, its blend state and its primitive state `{cullMode, topology}`; the material's bind-group memo is untouched |
| Renderers.UniformGroup | src/core/Renderer.js:166-169 | bind group 0 is created last, on the pipeline's layout 0, from the camera uniform's entry then the transform uniform's entry |
| Renderers.Emit | src/core/Renderer.js:171-176 | the mesh's commands are recorded exactly as in DrawCommands; reading `indexCount` throws a TypeError exactly when the geometry's index data is absent |
| Renderers.DrawCommandsOfMesh | src/core/Renderer.js:171-176 | the nine commands recorded one by one for a four-buffer geometry are that mesh's command block |
| Renderers.Renderer.constructor | src/core/Renderer.js:23-85 | the controller, the cube texture (1x1x6 rgba8unorm, cube view) and the descriptor-less depth texture are made and registered; the scene defaults to a new empty node; the renderer waits for the device with format "bgra8unorm", no attachments, an empty pipeline cache and no callbacks |
| Renderers.Renderer.PipelineFor | src/core/Renderer.js:148-165 | a material already in the cache gets its cached pipeline with no device call; a new one gets a fresh pipeline built for it |
| Renderers.Renderer.MeshPipeline | src/core/Renderer.js:146-165 | the node's transform uniform is written first, then the pipeline is looked up or built |
| Renderers.Renderer.RenderMesh | src/core/Renderer.js:140-177 | the cache maps the material to the pipeline used, which is the cached one when there was one; a normal return adds one draw whose commands follow the pass's earlier commands; a missing index throws a TypeError, and otherwise only a subclass material can throw; it changes nothing but the cache, the draws, the device, the pass, the material's own objects and the mesh's footprint: the camera and node uniforms, the geometry's buffers, and what the material's group binds (`MeshBuffers`, `MeshUniforms`, `GroupTextures`) |
| Renderers.Renderer.RecordMesh | src/core/Renderer.js:166-176 | the bind groups and commands of one mesh, one more draw on a normal return, and the pipeline cached for its material; it changes only the mesh's footprint, as `RenderMesh` |
| Renderers.Renderer.DrawMesh | src/core/Renderer.js:133 | one mesh drawn: its node appended to the drawn nodes, the pass holding the draws' commands, the cache only growing, every draw on its material's cached pipeline |
| Renderers.Renderer.MeshStep | src/core/Renderer.js:132-134 | the same, with every node's children unchanged |
| Renderers.Renderer.RenderNode | src/core/Renderer.js:130-138 | the traversal draws exactly the tree's meshes in pre-order, each one's commands after the last, and every draw with one material uses the one pipeline cached for it; a throw ends it; every node of the tree ends clean, so each descendant of a dirty node is recomputed in the same traversal (src/objects/SceneNode.js:138), and no flag outside the tree changes |
| Renderers.Renderer.VisitNode | src/core/Renderer.js:132-137 | after `updateMatrix()`: a mesh's commands, then the children's subtrees; the children's subtrees end clean and no other flag changes |
| Renderers.Renderer.RenderKids | src/core/Renderer.js:135-137 | the loop over the children draws their subtrees' meshes one subtree after the other, and every node of those subtrees ends clean |
| Renderers.Renderer.RenderKid | src/core/Renderer.js:136 | one child's subtree is drawn after the subtrees of the children before it; those subtrees and this one end clean, and outside them every flag is as it was when the loop began |
| Renderers.Renderer.Start | src/core/Renderer.js:87-90 | the controller becomes active and schedules one frame |
| Renderers.Renderer.Stop | src/core/Renderer.js:92-95 | the controller pauses and schedules nothing |
| Renderers.Renderer.DeviceReady | src/core/Renderer.js:76-80 | a device arriving ends the wait, and the presentation format becomes the preferred one |
| Renderers.Renderer.DeviceFailed | src/core/Renderer.js:81-84 | a failed device request stops the renderer, which keeps waiting, so no frame renders |
| Renderers.Renderer.OnUpdate | src/core/Renderer.js:104-107 | the callback is appended to the update callbacks |
| Renderers.Renderer.Destroy | src/core/Renderer.js:97-102 | the shader-module cache is emptied; the scene ends destroyed as `scene.destroy()` leaves it (`SceneNode.Destroyed`: a mesh's geometry released and its module memos cleared, or a plain node's uniform and every direct mesh child released); the camera's buffer and the depth texture are released, the depth texture last; no handle is created and the trace only gains destroy calls |
| Renderers.DestroySceneAndCamera | src/core/Renderer.js:99-100 | after `scene.destroy()` and `camera.destroy()` the scene is destroyed and the camera's buffer released, even when the camera's buffer is one the scene already released; the trace gains releases only |
| Renderers.DestroyedKept | src/core/Renderer.js:100-101 | what `scene.destroy()` left stays so while later calls only release buffers and set no shader module |
| Renderers.CanvasDimension | src/core/Renderer.js:189-190 | what a canvas holds after its `width` or `height` is set to a size: the whole part of a size in [0, 2^31) |
| Renderers.CanvasDimensionWraps | src/core/Renderer.js:189-190 | any size, also a negative one or one of 2^31 or more, is truncated toward zero modulo 2^32; the canvas holds that value when it is below 2^31 and otherwise its default (300 for the width, 150 for the height) |
| Renderers.OversizeFallsBack | src/core/Renderer.js:189-190 | a size of 2^31, one just below 2^32, or -1 (which wraps to 2^32 - 1) leaves the canvas at its default |
| Renderers.ResizeRepeats | src/core/Renderer.js:185-190 | once the canvas takes a size, it compares equal to that size exactly when the size is a whole number below 2^31; a fractional or oversized size makes every later unforced resize to it happen again |
| Renderers.FractionalResize | src/core/Renderer.js:185-190 | a CSS width of 801 at pixel ratio 1.25: the canvas holds 1001 and still differs from the size 1001.25 |
| Renderers.Renderer.SetCanvasSize | src/core/Renderer.js:189-190 | on a resize the canvas takes the truncated drawing size; otherwise it is already at the drawing size, which is then a whole number, and keeps it |
| Renderers.Renderer.HandleResize | src/core/Renderer.js:179-224 | the drawing size is the CSS size (800 by 600 when unknown) times the pixel ratio; the canvas differs from it (compared before truncation) or the call is forced exactly when a resize happens; the canvas then holds the truncated size (its default when that is 2^31 or more), the context is configured, one colour attachment (clear to 0.1 grey, store) is made, the depth texture is made twice at that size (the view on the second), the camera's aspect is width over height and its projection marked stale, and the result says whether the size changed; otherwise nothing but the drawing size changes and the result is undefined |
| Renderers.Renderer.MeasureCanvas | src/core/Renderer.js:185-190 | the presentation size is set; a resize is needed exactly when the canvas differs from it in either dimension; the canvas then holds the truncated size (its default when that is 2^31 or more), and holds it already (unchanged) when no resize is needed or forced |
| Renderers.Renderer.ApplyResize | src/core/Renderer.js:191-221 | the resize branch: configure, colour attachment, the depth texture made twice with the depth attachment on the second view, and the camera's aspect and stale projection |
| Renderers.Renderer.Reconfigure | src/core/Renderer.js:189-217 | the configure call, the colour attachment and the depth texture remade, in that order |
| Renderers.Renderer.RemakeDepth | src/core/Renderer.js:203-212 | the depth texture is released, made at the drawing size, then released again and made anew by `getView`, whose view is the depth attachment's |
| Renderers.Renderer.BeginFrame | src/core/Renderer.js:122-124 | the current texture and its view, the encoder and the pass are created in that order; the colour attachment's view is the new view and the pass descriptor holds the attachments |
| Renderers.Renderer.Render | src/core/Renderer.js:109-128 | while the device is awaited nothing happens; otherwise the canvas holds the drawing size truncated to an `unsigned long`, a singular camera matrix throws before the callbacks run, the callbacks run in order, a renderer never resized, whose canvas already holds the drawing size exactly, throws a TypeError, and a normal frame draws the scene's meshes in pre-order, ends the pass and submits the encoder's command buffer last; every scene node then ends clean |
| Renderers.Renderer.RenderReady | src/core/Renderer.js:114-127 | the same, once the device is there |
| Renderers.Renderer.OpenAndDraw | src/core/Renderer.js:122-127 | with no colour attachments setting the view throws a TypeError; otherwise the frame is drawn |
| Renderers.Renderer.Prepare | src/core/Renderer.js:116-120 | resize (unforced; the canvas ends holding the drawing size truncated to an `unsigned long`, and a fractional drawing size resizes again on every frame), camera update (a singular matrix throws), then the update callbacks in order |
| Renderers.Renderer.UpdateCamera | src/core/Renderer.js:118 | the camera update throws only for a singular matrix and keeps the camera uniform laid out |
| Renderers.Renderer.PrepareScene | src/core/Renderer.js:116-120 | the same, with the scene graph and the materials unchanged |
| Renderers.Renderer.DrawFrame | src/core/Renderer.js:122-127 | the pass holds the commands of the scene's meshes in pre-order and an `end`, and the submit of the encoder's command buffer is the last device call, and every node of the scene ends clean |
| Renderers.EndAndSubmit | src/core/Renderer.js:126-127 | the pass is ended, the encoder finished into one command buffer and that buffer submitted |
| Renderers.UpdateNode | src/core/Renderer.js:131 | updating a node's matrix leaves the node clean (a node is never its own child in an unfolded graph) and changes only transforms and the dirty flags of the tree's nodes |
| Renderers.DepthDescriptor | src/core/Renderer.js:204-212 | the depth texture's descriptor gets the drawing size, depth24plus and RENDER_ATTACHMENT, and `getView` leaves it so |
| Renderers.FrameStart | src/core/Renderer.js:122-124 | opening a frame makes four device calls |
| Renderers.ReleasesDestroy | src/core/Renderer.js:101 | destroying the depth texture after the release calls keeps the trace to destroy calls |
| Renderers.KidsNoneDrawn | src/core/Renderer.js:135 | before the children's loop no child's mesh is drawn |
| Renderers.SamePipeline | src/core/Renderer.js:148-165 | two meshes drawn with the same material used one pipeline, whatever their geometries |
| Renderers.DrawsSnoc | src/core/Renderer.js:171-176 | one more draw puts its commands after the others' and its node after theirs |
| Renderers.KeptTrans | src/core/Renderer.js:164 | the pipeline cache never loses or changes an entry, across any number of meshes |
| Renderers.DrawStep | src/core/Renderer.js:171-176 | one more draw whose commands followed the others' keeps the pass equal to all draws' commands |
| Renderers.SharedStep | src/core/Renderer.js:148-165 | caching (or finding) the pipeline of a material and drawing with it keeps every draw on its material's cached pipeline |
| Renderers.ReadyKept | src/core/Renderer.js:140-177 | drawing one mesh leaves every other mesh's material ready |
| Renderers.WriteNodeUniform | src/core/Renderer.js:146 | `node.updateUniform` appends the writes of the world matrix and the camera's view matrix into the node's transform uniform |
| Renderers.MeshDrawnNames | src/core/Renderer.js:171-172 | a drawn mesh's record names its node, its pipeline and its group 0 |
| Renderers.PlainGroupExtends | src/core/Renderer.js:170 | the base material's empty group stays in the trace as the trace grows |
| Renderers.MeshGroups | src/core/Renderer.js:166-170 | bind group 0 on layout 0 from the two uniforms, then layout 1 and the material's group on it; a memoised group is reused, only a subclass throws (TypeError), and the base class makes an empty group; it changes only the device, the material's own objects and the mesh's footprint (`MeshBuffers`, `MeshUniforms`, `GroupTextures`) |
| Renderers.FinishMesh | src/core/Renderer.js:166-176 | the bind groups, then the mesh's commands; a missing index throws a TypeError, and otherwise only a subclass can throw; a memoised material group is the one recorded; it changes only the device, the pass, the material's own objects and the mesh's footprint |

## Left out

- Floating point: Float32Array rounding, NaN, Infinity and the sign of zero are not modelled. Numbers are `real`, and integer counts are `nat`.
- Matrix, vector and quaternion numerics (src/math/Matrix4.js, Matrix3.js, Vector*.js, Quaternion.js, and src/math/Matrix.js over gl-matrix) are symbolic terms. Their operations are not computed. Only the vector setters' change notification, which marks a node dirty, is modelled.
- Whether the camera's view-projection matrix is singular is a parameter, since `invert` is numeric.
- `cos`, `sin`, `sqrt`, π and the Heron triangle area are parameters. The sphere's pole tests against π use that parameter.
- The browser: `navigator.gpu` adapter and device acquisition is not modelled (src/core/GPUInstance.js is not part of this model). It is replaced by the renderer's `DeviceReady`/`DeviceFailed` outcomes. Canvas style writes, `console.warn`/`console.log`, `requestAnimationFrame` timing, and promise and image-decoding timing are left out. `clientWidth`/`clientHeight` and `devicePixelRatio` are parameters of the resize.
- What the update callbacks do is not modelled: the model records only that each registered callback ran, in order.
- Frame ticks are events in a list. The time between frames is not modelled.
- Cyclic scene graphs: the traversal is proved for graphs whose `children` lists unfold into a finite tree. `add` does not rule out cycles, on which the engine recurses forever.
- Renderers.Renderer.DrawMesh: its frame is every object that is neither a scene node nor the renderer (`Renderers.Loose`), not the drawn mesh's footprint. The call it makes, `Renderers.Renderer.RenderMesh`, is framed exactly. What it leaves unchanged among buffers, textures and materials outside that mesh is therefore not stated. Its scene-node flags and the renderer's fields are stated.
- Renderers.Renderer.MeshStep: the same frame as `Renderers.Renderer.DrawMesh` (see its line), over all the meshes it draws.
- Renderers.Renderer.RenderNode: the same frame as `Renderers.Renderer.DrawMesh` (see its line), over all the meshes it draws.
- Renderers.Renderer.VisitNode: the same frame as `Renderers.Renderer.DrawMesh` (see its line), over all the meshes it draws.
- Renderers.Renderer.RenderKids: the same frame as `Renderers.Renderer.DrawMesh` (see its line), over all the meshes it draws.
- Renderers.Renderer.RenderKid: the same frame as `Renderers.Renderer.DrawMesh` (see its line), over all the meshes it draws.
- Renderers.Renderer.OpenAndDraw: the same frame as `Renderers.Renderer.DrawMesh` (see its line), over all the meshes it draws.
- Renderers.Renderer.DrawFrame: the same frame as `Renderers.Renderer.DrawMesh` (see its line), over all the meshes it draws.
- Renderers.Renderer.RenderReady: the same frame as `Renderers.Renderer.DrawMesh` (see its line), over all the meshes it draws.
- Renderers.Renderer.Render: the same frame as `Renderers.Renderer.DrawMesh` (see its line), over all the meshes it draws.
- Renderers.Renderer.RenderNode: proves that every node of the tree ends clean and that a recomputed node marks its children before they are visited. It does not state which world matrix each node ends with after a whole traversal. That follows node by node from `Scene.SceneNode.UpdateMatrix` only when each node's `parent` is the node it is visited under, which `add` does not guarantee.
- src/camera/OrbitControl.js (DOM listeners and trigonometric camera placement) is not part of this model.
- The loaders (src/loaders/GLTFLoader.js, src/loaders/TextureLoader.js) are not part of this model: asynchronous I/O, image decoding and a foreign glTF library.
- src/geometry/CapsuleGeometry.js is not part of this model; it rests on LatheGeometry and Path, which are not available.
- Constructor-only classes are not modelled; they hold fixed data and no behaviour beyond their parents' defaults: src/objects/Skybox.js, src/material/NormalMaterial.js, src/material/WireFrameMaterial.js and src/light/AmbientLight.js.
- The constant tables src/utils/WebGPUTypes.js, src/utils/constants.js and src/buffer/bufferAttributes.js are used only for their values. The same holds for the build and wiring files. Module linking is not modelled. The named imports at src/objects/SceneNode.js:8, which src/utils/constants.js:33 does not export, are taken to resolve to the tables at src/utils/constants.js:1-25 (see "The transform constants" above).
- In the WGSL preprocessor, replacement values are natural numbers, written out in decimal, or missing, giving `"undefined"`. Other values are not modelled: strings (which could contain `${` for the global regex to find again, or JavaScript `$` patterns), negative or fractional numbers. The substitution loop, the regex's `lastIndex` and `replace` rewriting the first copy of the matched text in the line are modelled.
- Wgsl.ValueText: the replacement table is a map of the names it was given. A name the engine finds on `Object.prototype` instead (`constructor`, `toString`, `__proto__`, `hasOwnProperty` and the like) is treated as missing, giving `"undefined"`; the engine inserts that inherited value's engine-dependent text.
- Wgsl.SubstituteLine: inherits the gap above for inherited `Object.prototype` names.
- Wgsl.Process: inherits the gap above for inherited `Object.prototype` names.
- Colors.ColorArray: src/math/Color.js is not part of this model. A colour's `array`, `glArray` and `toArray()` are taken to be the same four floats: red, green, blue, then alpha.
- Phong.PhongMaterial.GetMaterialBuffer: colours are values, so the alpha writes are copied into the material's own fields. In the engine they write into shared `Color` objects. The defaults of all three colours are the one `Color.WHITE` object, so after the three writes each default slot holds the specular reflection as its alpha, and every other holder of `Color.WHITE` (a Lambert albedo, a point light) sees it too. That aliasing is not captured.
- Phong.PhongMaterial.constructor: the three default colours are copies of white, not one shared `Color.WHITE` object (see the line above).
- Lambert.LambertMaterial.GetAlbedoColorBuffer: the albedo is a value, so an alpha written into a shared `Color.WHITE` by a Phong material is not seen here.
- Lights.PointLight.GetBuffer: the colour is a value, so an alpha written into a shared `Color.WHITE` by a Phong material is not seen here.
- Uniforms.AssignOffsets: returns fresh items carrying their offsets. The engine writes `offset` into the caller's own item objects; that update in place of the caller's objects is not captured.
- Uniforms.UniformBuffer.constructor: keeps the placed items from `AssignOffsets`; the caller's item objects are not changed, as they are in the engine.
- Renderers.Renderer.constructor: the camera is a `PerspectiveCamera`, the only camera class in the engine with an `updateMatrix`. The engine stores whatever `props.camera` holds (src/core/Renderer.js:72). A base `Camera` or a missing camera is not modelled: with either, `render()` throws a TypeError when it calls `this.camera.updateMatrix(device)` (src/core/Renderer.js:118).
- Renderers.Renderer.HandleResize: always sets the camera's aspect and marks its projection stale, because the camera is a `PerspectiveCamera` (see the line above). The engine makes those writes only when `this.camera instanceof PerspectiveCamera` (src/core/Renderer.js:218), so for another camera it would skip them. That case is not modelled.
- Textures.TextureObject.GetSampler: takes its descriptor as an object. A caller passing a falsy one (`null`), for which the engine skips the descriptor update, is not modelled.
- The GPU's own behaviour (what a texture copy, a draw or a submit does on the device) is out of scope: only the sequence of calls is modelled.
