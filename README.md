# Gsw frame pipeline, modelled in Dafny

Gsw is a small Metal rendering engine written in Swift. This project models its bookkeeping. It does not model the GPU work itself.

**Per-object transforms.** A `PerObjectTransforms` store hands out matrix slots. Slot 0 is reserved for static objects. Each in-flight frame has its own buffer, and the store tracks which offset of that buffer holds which combined matrices.

**Transforms.** A `Transform` owns one slot. A `TRSTransform` keeps translation, rotation and scale, each with its own dirty flag. It rebuilds the model matrix only when one of them changed.

**Globals, cameras and frames.** `GlobalTransforms` holds the view and projection matrices behind two dirty flags. The camera feeds it. The `Renderer` limits the frames in flight with a counting semaphore and cycles through the frame slots.

**Render passes.** A `RenderPass` does four things:
- it resolves and caches one pipeline state per descriptor hash;
- it allocates its depth/stencil textures when the target size changes;
- it uploads every dirty transform into the current frame's buffer;
- it sorts its draw records and encodes them as a trace of encoder commands.

The on-screen and off-screen passes wrap it.

**Scene parts.** The rest covers:
- `Material` and its fragment shader options;
- the light set of at most two lights;
- the texturable quad's geometry and index buffers and its draws;
- the renderer factory;
- the rotating, scale and simulation-trace animators;
- the 2-D simulation trace reader;
- the PDB molecule reader with its element and residue tables.

**Modelling choices.**
- Metal objects (buffers, textures, pipeline states) are opaque handles minted by a `Device`.
- Matrices are uninterpreted constructors.
- Swift `Float` becomes `real`.
- A `fatalError` or trap becomes a `Stopped`/`Fatal` result, so every error path of the source is a case of the model.
- Subclassing becomes composition: a `TRSTransform` holds the `Transform` it maintains, and a screen pass holds its `RenderPass`.

**Where the design and the code disagree, the model follows the code.**
- The design says `GlobalTransforms.dirty` aggregates the view and projection flags. The code negates the projection flag (see Findings).
- The design says a rotation angle is given in degrees and converted once. The rotating animator converts it a second time.

Each such place appears under Findings, next to the corrected definition the rest of the model uses.

## Model

| member | source | states |
|---|---|---|
| Gpu.Device.MakeBuffer | Gsw/BufferSet.swift:29 | `makeBuffer(length:options:)`: a buffer with the requested length and options and a new id, unlabelled; the next object gets a later id |
| Gpu.Device.MakeTexture | Gsw/RenderPass.swift:465-476 | `makeTexture(descriptor:)`: a texture with the descriptor's format, size and sample count and a new id; the next object gets a later id |
| Gpu.Device.MakeRenderPipelineState | Gsw/RenderPass.swift:196 | `makeRenderPipelineState(descriptor:)`: a pipeline state for exactly the given configuration, with a new id |
| Gpu.Device.MakeDepthStencilState | Gsw/ForwardOnScreenRenderPass.swift:26 | `makeDepthStencilState(descriptor:)`: a depth/stencil state with the given compare function and write flag, with a new id |
| ShaderOptions.Insert | ShaderOptions.swift:28-36 | the OptionSet union contains both the member and everything the set had |
| ShaderOptions.Remove | ShaderOptions.swift:28-36 | the OptionSet difference shares no bit with the member and keeps only bits the set had |
| ShaderOptions.DiffuseTexturedIsBitZero | ShaderOptions.swift:35 | `diffuseTextured` is `1 << 0`, and the empty option set does not contain it |
| ShaderOptions.InsertRemoveTexturedFlag | ShaderOptions.swift:28-36 | inserting `diffuseTextured` sets the flag and removing it clears it; both leave every other bit alone, and each is the identity when the flag already has the wanted value |
| Materials.OptionsForTexture | Material.swift:83-102 | the same texture leaves the options alone; a new texture inserts `diffuseTextured` and a cleared texture removes it |
| Materials.OptionsTrackTexture | Material.swift:83-102 | when the flag matches "a texture is present" before a texture change, it still matches afterwards |
| Materials.RecordFor | Material.swift:116-126 | the stored record keeps emission, specular and shininess; ambient and diffuse are black when textured and the material's own otherwise |
| Materials.Material.constructor | Material.swift:46-57 | default colours, the given specular colour and power, no texture and empty options; the buffer is made (one new device id) and holds the current record; the flag invariant holds |
| Materials.Material.DiffuseAndAmbient | Material.swift:59-72 | as the plain initialiser, but ambient and diffuse are both the given colour |
| Materials.Material.Textured | Material.swift:74-81 | default colours, the texture set, the options exactly `diffuseTextured`; a single buffer holding the textured record (black ambient and diffuse) |
| Materials.Material.UpdateShaderOptions | Material.swift:83-102 | the new options are `OptionsForTexture` of the old options, the current texture and the new one; nothing else changes |
| Materials.Material.SetDiffuseTexture | Material.swift:38-41 | the `willSet` observer runs before the assignment: the texture is the new one, the options follow `OptionsForTexture`, and the flag invariant is kept |
| Materials.Material.Upload | Material.swift:108-127 | a buffer is allocated only when none exists (one new device id), and the buffer then holds the current record |
| Transforms.FirstFree | Gsw/PerObjectTransforms.swift:63-76 | the slot found is free and every lower slot is in use; nothing is found only when every slot is in use |
| Transforms.InUseCount | Gsw/PerObjectTransforms.swift:35 | the number of held slots never exceeds the capacity |
| Transforms.FullIffCountIsCapacity | Gsw/PerObjectTransforms.swift:63-76 | allocation fails exactly when the number of held slots equals the capacity |
| Transforms.InUseCountUpdate | Gsw/PerObjectTransforms.swift:70-83 | marking a free slot held adds one to the count; returning a held slot takes one away |
| Transforms.InitialCount | Gsw/PerObjectTransforms.swift:48-60 | after `init` exactly one slot (the static one) is held |
| Transforms.AllFreeCount | Gsw/PerObjectTransforms.swift:55 | the fresh flag array holds no slot |
| Transforms.PerObjectTransforms.constructor | Gsw/PerObjectTransforms.swift:48-60 | capacity is the object count plus one; slot 0 is held and every other slot free; every buffer of the set is `MATRICES_STRIDE * numTransforms` bytes with the given options |
| Transforms.PerObjectTransforms.AllocateIndex | Gsw/PerObjectTransforms.swift:63-76 | linear first-fit: the lowest free slot becomes held and is returned; with none free the flags are unchanged and `noMoreIndices` is thrown |
| Transforms.PerObjectTransforms.DeallocateIndex | Gsw/PerObjectTransforms.swift:79-84 | fatal exactly for the static slot, an index outside the flags or a slot not held, and then nothing changes; otherwise exactly that slot is freed |
| Transforms.PerObjectTransforms.GetBuffer | Gsw/PerObjectTransforms.swift:86-89 | the buffer of the set at that frame index |
| Transforms.PerObjectTransforms.CombineAndUploadAt | Gsw/PerObjectTransforms.swift:102-119 | one record, the combined matrices, lands at byte offset `MATRICES_STRIDE * objectIndex` of the chosen buffer; every other offset and every other buffer is unchanged |
| Transforms.PerObjectTransforms.UpdateStaticTransform | Gsw/PerObjectTransforms.swift:92-95 | slot 0 of the chosen buffer holds the identity model combined with the global matrices |
| Transforms.PerObjectTransforms.CombineAndUpload | Gsw/PerObjectTransforms.swift:97-100 | the transform's record, at its buffer offset, holds its model matrix combined with the global matrices |
| Transforms.FirstFreeIsLowest | Gsw/PerObjectTransforms.swift:66-72 | a free slot with every lower slot held is the one first-fit finds |
| Transforms.FirstFreeNoneWhenFull | Gsw/PerObjectTransforms.swift:75 | with every slot held first-fit finds nothing |
| Transforms.AllocationAvoidsHeldSlots | Gsw/PerObjectTransforms.swift:57-76 | while slot 0 is held, allocation never returns the static slot nor any slot already held |
| Transforms.VertexBufferOffsetCommand | Gsw/PerObjectTransforms.swift:38-46 | the offset command binds `PerObjectMatricesBufferBindIndex`, at 0 for a static object and at the transform's `index * MATRICES_STRIDE` otherwise |
| Transforms.Transform.BufferOffset | Gsw/Transform.swift:21-23 | the offset is a multiple of the stride whose quotient is the slot index |
| Transforms.Transform.Attach | Gsw/Transform.swift:25-29 | keeps the matrix, the store and the slot |
| Transforms.Transform.Create | Gsw/Transform.swift:25-35 | fatal exactly when the store is full, leaving the flags; otherwise a fresh transform holding first-fit's slot, which is now marked held |
| Transforms.Transform.CreateIdentity | Gsw/Transform.swift:38-41 | as `Create`, with the identity model matrix |
| Transforms.Transform.Release | Gsw/Transform.swift:43-46 | `deinit` returns exactly this transform's slot to the store, once |
| TrsTransforms.RotationFor | TRSTransform.swift:97-98 | a rotation about the given axis by the angle converted from degrees to radians |
| TrsTransforms.TRSTransform.Attach | TRSTransform.swift:25-36 | angle 0, axis (0, 1, 0), no translation, scale 1, three identity component matrices, nothing dirty |
| TrsTransforms.TRSTransform.Create | TRSTransform.swift:38-41 | an identity transform holding first-fit's slot of the store; a full store is fatal and leaves the flags |
| TrsTransforms.TRSTransform.SetRotation | TRSTransform.swift:44-48 | sets the angle and only the rotation flag; every matrix is untouched until `update` |
| TrsTransforms.TRSTransform.SetRotationDelta | TRSTransform.swift:51-55 | adds to the angle and sets only the rotation flag |
| TrsTransforms.TRSTransform.SetRotationAxis | TRSTransform.swift:58-62 | sets the axis and only the rotation flag |
| TrsTransforms.TRSTransform.SetTranslation | TRSTransform.swift:65-69 | sets the translation and only the translation flag |
| TrsTransforms.TRSTransform.SetTranslationDelta | TRSTransform.swift:72-76 | adds to the translation component-wise and sets only the translation flag |
| TrsTransforms.TRSTransform.SetScale | TRSTransform.swift:79-83 | sets the scale and only the scale flag |
| TrsTransforms.TRSTransform.SetScaleDelta | TRSTransform.swift:86-90 | adds to the scale and sets only the scale flag |
| TrsTransforms.TRSTransform.Update | TRSTransform.swift:93-115 | exactly the dirty components are rebuilt from their parameters, every flag is cleared, the model matrix is `(T * R) * S`; the parameters are kept, the clean matrices stay current, and an update with nothing dirty leaves the model matrix as it was |
| GlobalMatrices.AspectOf | Gsw/GlobalTransforms.swift:85 | for a non-zero height a non-negative ratio whose product with the height's magnitude is the width's magnitude; a zero height gives no finite ratio |
| GlobalMatrices.DirtyAsWrittenDisagreement | Gsw/GlobalTransforms.swift:25-28 | the `dirty` aggregate as written (`viewDirty \|\| !projectionDirty`) reports clean when only the projection is dirty and dirty when nothing is, and agrees when only the view is dirty |
| GlobalMatrices.GlobalTransforms.constructor | Gsw/GlobalTransforms.swift:60-74 | both flags dirty, no target size, fovea 60 degrees, near 0.1, far 100, identity matrices |
| GlobalMatrices.GlobalTransforms.SetFoveaDegrees | Gsw/GlobalTransforms.swift:30-34 | stores the angle and marks only the projection dirty; no matrix changes |
| GlobalMatrices.GlobalTransforms.SetNearZ | Gsw/GlobalTransforms.swift:36-40 | stores the near plane and marks only the projection dirty |
| GlobalMatrices.GlobalTransforms.SetFarZ | Gsw/GlobalTransforms.swift:42-46 | stores the far plane and marks only the projection dirty |
| GlobalMatrices.GlobalTransforms.SetViewMatrix | Gsw/GlobalTransforms.swift:48-52 | stores the view matrix and marks only the view dirty |
| GlobalMatrices.GlobalTransforms.SetTargetSize | Gsw/GlobalTransforms.swift:54-58 | stores the size and marks only the projection dirty |
| GlobalMatrices.GlobalTransforms.Update | Gsw/GlobalTransforms.swift:77-98 | fatal, changing nothing, exactly when the projection is dirty and no target size was set; otherwise the projection is rebuilt iff it was dirty, the product iff either flag was, both flags end clear, and the matrices are current for the parameters |
| GlobalMatrices.GlobalTransforms.CleanMeansCurrent | Gsw/GlobalTransforms.swift:77-98 | when nothing needs an update, the projection-view matrix is the projection for the present parameters times the view |
| GlobalMatrices.ProjectionFor | Gsw/GlobalTransforms.swift:82-87 | no contract of its own (matrices are uninterpreted): the left-handed perspective of the fovea in radians, the aspect of `AspectOf`, near and far; `GlobalTransforms.Update` states it is what a dirty projection is rebuilt to |
| BufferSets.DecimalString | Gsw/BufferSet.swift:32 | a non-empty string of decimal digits; a one-digit number is its own digit |
| BufferSets.IndexedLabel | Gsw/BufferSet.swift:30-33 | a label exists exactly when the set was given one, and is then `name[index]` |
| BufferSets.BufferSet.constructor | Gsw/BufferSet.swift:25-36 | `MAX_INFLIGHT_FRAMES` buffers made in index order, each of the requested length and options (consecutive device ids), labelled `name[i]` when a name is given |
| BufferSets.BufferSet.Get | Gsw/BufferSet.swift:38-43 | the buffer at that index of the set |
| Renderers.NextBufferIndex | Gsw/Common/Renderer.swift:79-82 | always a valid buffer index; it steps up by one and wraps to 0 exactly after the last index |
| Renderers.NextBufferIndexCycle | Gsw/Common/Renderer.swift:79-82 | three advances bring the index back to where it was |
| Renderers.Renderer.constructor | Gsw/Common/Renderer.swift:18-26 | the semaphore starts at `MAX_INFLIGHT_FRAMES`, the buffer index at 0, no frame is being prepared |
| Renderers.Renderer.AdvanceConstantBufferIndex | Gsw/Common/Renderer.swift:79-82 | the index becomes its successor modulo `MAX_INFLIGHT_FRAMES` |
| Renderers.Renderer.SignalFrameSemaphore | Gsw/Common/Renderer.swift:73-76 | one more unit is free |
| Renderers.Renderer.Update | Gsw/Common/Renderer.swift:98-105 | one unit is taken and one more frame is being prepared, then the camera is updated with the time step, in that order; the camera ends at the view `next` its motion gives, dirty exactly when it was already or that view differs |
| Renderers.Renderer.UpdateAndDraw | Gsw/Common/Renderer.swift:61-70 | a 1/60 s tick: slot acquired, camera updated to the view `next` (dirty exactly when it was already or the view differs), then the draw requested for the current buffer index |
| Renderers.Renderer.NoteFrameCommitted | Gsw/RenderPass.swift:559 | the frame being prepared is handed over: one fewer in preparation |
| Renderers.CommandQueue.Commit | Gsw/RenderPass.swift:559 | the command buffer joins the end of the in-flight queue |
| Renderers.CompleteOldestFrame | Gsw/RenderPass.swift:555-557 | the oldest command buffer leaves the queue and its completion handler frees one unit; the frame accounting is preserved |
| Renderers.PreparedFrameSlotIsIdle | Gsw/Common/Renderer.swift:98-101 | while a frame is prepared, the buffer index it writes is in use by no command buffer the GPU may still be reading |
| Renderers.SlotsOf | Gsw/RenderPass.swift:559 | the buffer index of each committed command buffer, in queue order |
| Renderers.FreeUnitMeansIdleSlot | Gsw/Common/Renderer.swift:15-21 | with fewer than `MAX_INFLIGHT_FRAMES` in flight just behind the index, the index itself is not among them |
| Renderers.CommitAndAdvanceKeepsSlotsBehind | Gsw/Common/Renderer.swift:79-82 | committing the current index and then advancing keeps the in-flight indices just behind the new index |
| Renderers.CompleteKeepsSlotsBehind | Gsw/RenderPass.swift:555-557 | removing the oldest in-flight index keeps the rest just behind the current one |
| Cameras.Camera.constructor | Gsw/OSX/ConcreteCameraOSX.swift:19-47 | a new camera starts dirty, with the given view matrix and no time step received |
| Cameras.Camera.Move | Gsw/OSX/ConcreteCameraOSX.swift:22-32 | setting a view-changing property marks the camera dirty exactly when the view changes, and a dirty camera stays dirty |
| Cameras.Camera.ReadViewMatrix | Gsw/OSX/ConcreteCameraOSX.swift:49-57 | the getter returns the view matrix and leaves the camera clean |
| Cameras.Camera.Update | Gsw/OSX/ConcreteCameraOSX.swift:115-150 | the camera moves to the view `next` its motion gives, becoming dirty exactly when it was already or that view differs, and records the time step |
| Utilities.DegreesToRadians | Gsw/Utilities.swift:26-29 | the radians times 180 equal the degrees times pi |
| Utilities.DegreesToRadiansAdditive | Gsw/Utilities.swift:26-29 | the conversion is linear: a sum or a scaled angle converts to the sum or scaled conversion |
| Utilities.TrimLeading | Gsw/Utilities.swift:33-36 | a suffix of the input that does not start with whitespace; everything dropped is whitespace |
| Utilities.TrimTrailing | Gsw/Utilities.swift:33-36 | a prefix of the input that does not end with whitespace; everything dropped is whitespace |
| Utilities.Trim | Gsw/Utilities.swift:33-36 | no longer than the input, and neither end of the result is whitespace |
| Utilities.TrimRemovesOnlyEnds | Gsw/Utilities.swift:33-36 | the trim is one contiguous slice of the input with only whitespace before and after it |
| Utilities.TrimIdempotent | Gsw/Utilities.swift:33-36 | trimming twice is trimming once |
| Utilities.TrimOfTrimmed | Gsw/Utilities.swift:33-36 | a string with non-blank ends is left as it is |
| Utilities.Substring | Gsw/Utilities.swift:38-44 | string positions `from` through `to` inclusive: `to - from + 1` of them, in order; forming an index outside the string traps, so the range must lie within it |
| Utilities.Clamp | Gsw/Utilities.swift:49-54 | the result lies within the range; a value inside is kept, one below gives the lower bound and one above the upper bound |
| Utilities.ClampIdempotent | Gsw/Utilities.swift:49-54 | clamping a clamped value changes nothing |
| PassEncoding.InsertByHash | Gsw/RenderPass.swift:206-210 | one insertion step of the ordering: the contents are the list's plus the new record |
| PassEncoding.InsertByHashBound | Gsw/RenderPass.swift:206-210 | inserting a record no smaller than a bound into a list no smaller than it keeps every record at or above the bound |
| PassEncoding.SortedCons | Gsw/RenderPass.swift:206-210 | a sorted list headed by a record no larger than any of its entries is sorted |
| PassEncoding.InsertByHashSorted | Gsw/RenderPass.swift:206-210 | inserting into a list sorted by pipeline hash keeps it sorted |
| PassEncoding.SortByHash | Gsw/RenderPass.swift:206-213 | the sorted sequence is a permutation of the records (same multiset) |
| PassEncoding.SortByHashSorted | Gsw/RenderPass.swift:205-213 | the records end in non-decreasing pipeline-hash order; no secondary key on the vertex buffer is promised |
| PassEncoding.EntryCommands | Gsw/RenderPass.swift:249-279 | the commands for one entry finish with exactly one draw of that subobject, and no draw comes before it |
| PassEncoding.Preamble | Gsw/RenderPass.swift:235-245 | the pass-wide commands before the first entry neither draw nor set a pipeline |
| PassEncoding.IntendedDraws | Gsw/RenderPass.swift:247-280 | one intended draw per entry, in list order |
| PassEncoding.PreambleBindings | Gsw/RenderPass.swift:235-245 | the preamble draws nothing and leaves the frame's matrices buffer bound at the per-object slot |
| PassEncoding.EntryReplay | Gsw/RenderPass.swift:249-279 | an entry (a transformable one, or any under the corrected encoding) draws exactly once with its own pipeline, geometry and matrices offset, and leaves its pipeline and the matrices buffer bound |
| PassEncoding.StaticEntryReplayAsWritten | Gsw/RenderPass.swift:252-277 | as written, a static object's entry sets no matrices offset: it draws with whatever the slot already holds, and leaves the slot so |
| PassEncoding.CorrectedTraceDrawsAsIntended | Gsw/RenderPass.swift:219-285 | with the static slot bound for static objects, encoding draws every entry, in order, with its own pipeline, its object's geometry and its own matrices slot |
| PassEncoding.EntriesStep | Gsw/RenderPass.swift:260-280 | the commands for `n` entries are those for `n - 1` followed by entry `n - 1`'s |
| PassEncoding.IntendedDrawsStep | Gsw/RenderPass.swift:260-280 | the intended draws for `n` entries extend those for `n - 1` by entry `n - 1`'s |
| PassEncoding.PrefixBindings | Gsw/RenderPass.swift:238-269 | after the preamble and `n` corrected entries the matrices buffer is still bound, and the last entry's pipeline is the bound one |
| PassEncoding.PrefixDrawsAsIntended | Gsw/RenderPass.swift:219-285 | the preamble and the first `n` corrected entries draw those entries as intended |
| PassEncoding.StaticObjectDrawsWithPreviousMatrices | Gsw/RenderPass.swift:252-277 | as written, a static object encoded after a transformable one draws with that object's matrices offset (304) instead of the static slot's 0 |
| PassEncoding.EachPipeBoundOnce | Gsw/RenderPass.swift:206-269 | once sorted, with equal hashes meaning equal pipelines, no pipeline is bound by two entries |
| PassEncoding.LastBinder | Gsw/RenderPass.swift:249-269 | every entry draws with a pipeline bound by the closest pipeline-setting entry at or before it |
| Encoders.Lookup | Gsw/RenderPass.swift:237-238 | a binding is found exactly when the slot has one, and it is that binding |
| Encoders.Step | Gsw/RenderPass.swift:235-279 | setting a pipeline replaces only the pipeline; setting a vertex buffer replaces that slot's buffer and offset; setting only an offset keeps the slot's buffer, which is how the per-object matrices buffer bound at line 238 is re-pointed |
| Encoders.ReplayAppend | Gsw/RenderPass.swift:219-285 | the draws and bindings of a concatenated trace are those of its halves, the second half starting from the first half's bindings |
| Encoders.ReplayNoDraws | Gsw/RenderPass.swift:232-245 | a trace without a subobject draw draws nothing |
| Encoders.AfterWithoutBinding | Gsw/RenderPass.swift:232-235 | a trace that binds neither a pipeline nor a vertex buffer leaves the bindings as they were |
| LightSets.RecordOf | Gsw/DirectionalLight.swift:33-39 | the stored record keeps the light's three colours; its type tag is "directional" exactly for a directional light and "disabled" otherwise |
| LightSets.SlotLight | Gsw/Lights.swift:53-57 | slot `i` uses the i-th added light when there is one and the disabled light otherwise |
| LightSets.Lights.constructor | Gsw/Lights.swift:30-33 | no buffer, no lights and nothing stored |
| LightSets.Lights.Count | Gsw/Lights.swift:18 | the number of added lights, never above two |
| LightSets.Lights.Get | Gsw/Lights.swift:16 | the light added at that position |
| LightSets.Lights.Add | Gsw/Lights.swift:35-40 | appends the light; fatal exactly for a third light, which leaves the list as it was; at most two lights are ever held |
| LightSets.Lights.Upload | Gsw/Lights.swift:42-61 | the buffer is made (two strides, shared storage) on the first call only; exactly two records are then written, at offsets 0 and one stride, padded with the disabled light |
| LightSets.UploadPadsWithDisabled | Gsw/Lights.swift:50-60 | a slot without an added light gets the disabled tag; a slot with one gets that light's record |
| PipelineSelection.VariantFor | Gsw/RenderPass.swift:312-345 | unlit shaders (textured or not) exactly when lighting is off; the one-directional-light pair exactly when lighting is on and the only light is directional; no pair exactly for a textured material under lighting |
| PipelineSelection.SelectShaderVariant | Gsw/RenderPass.swift:329-344 | the asserts on `!textured` make a textured lit material fatal, and only that; otherwise the selected pair |
| PipelineSelection.CacheLookup | Gsw/RenderPass.swift:290-309 | fatal exactly when the function is neither cached nor in the library; otherwise the function is cached afterwards, nothing else in the cache changes, and a hit returns the cache unchanged |
| PipelineSelection.CacheLookupFaithful | Gsw/RenderPass.swift:290-309 | over a cache holding only library functions, a lookup fails exactly when the library lacks the function, and the cache keeps holding only library functions |
| PipelineSelection.CacheLookupTwice | Gsw/RenderPass.swift:292-296 | a second lookup of the same function is a hit and changes nothing |
| PipelineSelection.AttachmentFormat | Gsw/RenderPass.swift:374-382 | an attachment format is set exactly when the pass has that attachment, and it is the renderer's combined depth/stencil format |
| PipelineSelection.DescriptorForMeets | Gsw/RenderPass.swift:357-383 | a descriptor exists exactly when a shader pair is selected and both functions load; it then carries that pair, the object's vertex descriptor, the pass's sample count and color format, blending exactly when opacity is below 1, and the depth/stencil formats for the attachments the pass has |
| PipelineSelection.DescriptorFor | Gsw/RenderPass.swift:357-383 | no contract of its own: `_renderPipeDescriptor` with its attachment formats; `DescriptorForMeets` states when it exists and every field it holds |
| Shaders.StagePrefixDistinct | Gsw/RenderPass.swift:323-343 | the "vertex_" and "fragment_" prefixes cannot produce the same name from different stages |
| Shaders.TexturePartDistinct | Gsw/RenderPass.swift:323-343 | the "Textured_" and "Untextured_" parts cannot produce the same name from different texturing |
| Shaders.LightingPartDistinct | Gsw/RenderPass.swift:323-343 | the lighting suffixes "Unlit", "Lit_1dir" and "Lit_General" are distinct |
| Shaders.ShaderNameInjective | Gsw/RenderPass.swift:323-343 | no two default shader functions share a library name, so a cache keyed by name never returns another stage's or variant's function |
| Shaders.ShaderName | Gsw/RenderPass.swift:323-343 | no contract of its own: stage prefix, texture part and lighting part joined; `ShaderNameInjective` states that distinct shader functions get distinct names |
| RenderPasses.PassDescriptor.constructor | Gsw/RenderPass.swift:93-99 | the descriptor records which attachments exist; no texture is attached yet |
| RenderPasses.DepthStencilSampleCount | Gsw/RenderPass.swift:398-430 | corrected: the sample counts that lines 430 and 471 together get wrong; the texture rendered into has the pass's sample count and the resolve texture a single sample |
| RenderPasses.DepthStencilSampleCountAsWritten | Gsw/RenderPass.swift:465-476 | as written the allocator ignores the requested count and always uses the pass's own |
| RenderPasses.ResolveTextureMultisampledAsWritten | Gsw/RenderPass.swift:430-471 | as written a 4x pass gets a 4x resolve texture, not the single-sample one intended |
| RenderPasses.ResizedFitsTarget | Gsw/RenderPass.swift:406-438 | after resizing a texture exists with the target's size in whole pixels; a new one (new id, the sample count asked for, the combined format) is made exactly when there was none or the size differed, and a fitting one is kept |
| RenderPasses.NeedsNewTexture | Gsw/RenderPass.swift:408-422 | no contract of its own: there is no texture yet or its size in whole pixels is not the target's; `ResizedFitsTarget` states that exactly then a new texture is made |
| RenderPasses.Resized | Gsw/RenderPass.swift:406-438 | no contract of its own: the current texture or a new one at the target's whole-pixel size; `ResizedFitsTarget` states its size, format and when it is new |
| RenderPasses.PipesCachedDeterminesPipe | Gsw/RenderPass.swift:178-200 | with every cache entry filed under its pipeline's hash and every record holding the pipeline cached under its hash, records share a hash exactly when they share a pipeline |
| RenderPasses.PermutationKeepsPipesCached | Gsw/RenderPass.swift:206-213 | reordering the records keeps them consistent with the pipeline cache |
| RenderPasses.SlotOffsetsNext | Gsw/RenderPass.swift:539-549 | the slots of the first `i + 1` objects are those of the first `i` plus object `i`'s, if it has a transform |
| RenderPasses.EncodeEntries | Gsw/RenderPass.swift:247-280 | the loop over the records emits exactly the per-entry commands, setting the pipeline for the first record and afterwards only when it differs from the previous record's |
| RenderPasses.RenderPass.constructor | Gsw/RenderPass.swift:103-125 | keeps the parameters; lighting is enabled exactly when a light set with at least one light is given; fresh global transforms with their defaults; no objects, records, pipelines or shaders; a resort pending; the unnamed pass name |
| RenderPasses.RenderPass.SetPerObjectTransforms | Gsw/RenderPass.swift:81 | the property holds the given store |
| RenderPasses.RenderPass.RenderPipeDescriptor | Gsw/RenderPass.swift:312-350 | succeeds exactly when `DescriptorFor` yields a descriptor, and returns it; the shader caches keep holding only library functions |
| RenderPasses.RenderPass.RenderPipeFor | Gsw/RenderPass.swift:178-200 | fatal exactly when no descriptor can be built, changing no pipeline; a pipeline cached under the descriptor's hash is reused without making one; otherwise exactly one new pipeline is made and cached under that hash; no existing entry changes |
| RenderPasses.RenderPass.AddSubobject | Gsw/RenderPass.swift:139-145 | one record is appended, carrying the subrenderable, the hash of its descriptor, the object's vertex buffer and its matrices offset (-1 when static); fatal exactly when no descriptor can be built |
| RenderPasses.RenderPass.AddSubobjects | Gsw/RenderPass.swift:139-145 | one record per subrenderable, in order, after the existing ones, which are kept; fatal exactly when some subrenderable has no descriptor |
| RenderPasses.RenderPass.Add | Gsw/RenderPass.swift:131-151 | records as above, then the object is appended and a resort is pending; the invariants are kept |
| RenderPasses.RenderPass.AddRecords | Gsw/RenderPass.swift:156-171 | for the objects in turn, subrenderable `k` of object `j` gets the record just after those of the objects before `j`; fatal exactly when some subrenderable of some object has no descriptor |
| RenderPasses.RenderPass.AddObjects | Gsw/RenderPass.swift:154-176 | `add(objects:)` is sequential `add`: the records as above, then all objects appended and a resort pending |
| RenderPasses.RenderPass.SortSubobjects | Gsw/RenderPass.swift:206-213 | the records end in non-decreasing hash order, are a permutation of the old ones, and no resort is pending |
| RenderPasses.RenderPass.SortedPassBindsEachPipeOnce | Gsw/RenderPass.swift:206-269 | once sorted, no pipeline is bound by two entries of the encoding |
| RenderPasses.RenderPass.EncodeWith | Gsw/RenderPass.swift:219-285 | nothing is encoded without records; fatal exactly when there are records but no depth/stencil state or no transform store; otherwise the preamble followed by the entries' commands |
| RenderPasses.RenderPass.EncodeAsWritten | Gsw/RenderPass.swift:219-285 | `_encode` as written: the same trace, with no matrices offset for static objects |
| RenderPasses.RenderPass.Encode | Gsw/RenderPass.swift:219-285 | with the static slot bound for static objects, every record is drawn, in order, with its own pipeline, its object's geometry and its own matrices |
| RenderPasses.RenderPass.ResizeDepthStencilTexture | Gsw/RenderPass.swift:406-463 | corrected: allocates with `DepthStencilSampleCount` (one sample for the resolve texture) where line 471 gives both textures the pass's count; the (resolve) texture is made the first time or when the size in whole pixels changed, and then attached to whichever of the depth and stencil attachments exist; otherwise nothing changes; the texture invariants are kept |
| RenderPasses.RenderPass.ResizeDepthStencilTextures | Gsw/RenderPass.swift:388-403 | corrected: the resolve texture gets one sample, where line 471 gives it the pass's count; nothing happens without depth and stencil attachments; otherwise the texture rendered into is sized to the target, and the resolve texture too when the pass is multisampled |
| RenderPasses.RenderPass.Update | Gsw/RenderPass.swift:519-550 | the global transforms are refreshed (with the intended aggregate), the static slot holds identity combined with the globals, each object's transform is clean and its slot holds its model matrix combined with the globals, and no other record changes; fatal when the projection needs a size never given or there is no store |
| RenderPasses.RenderPass.EndOfFrameActions | Gsw/RenderPass.swift:553-581 | the command buffer is committed with the current buffer index, the index advances, and the in-flight accounting is kept |
| RenderPasses.StaticSlotIsNoObjectSlot | Gsw/PerObjectTransforms.swift:28-59 | no transform's slot is the static slot |
| RenderPasses.SlotWriteStep | Gsw/RenderPass.swift:539-549 | writing object `i`'s slot extends what the first `i` objects wrote |
| RenderPasses.UploadObjectTransform | Gsw/RenderPass.swift:541-548 | a dirty transform is updated and a clean one left alone, then its model matrix combined with the globals is written to its slot only; a static object writes nothing |
| RenderPasses.OthersHoldOtherSlots | Gsw/PerObjectTransforms.swift:63-76 | transform `i`'s slot is held by no other transform of the objects |
| RenderPasses.SnapshotTransforms | Gsw/RenderPass.swift:539-549 | records every transform's flags and model matrix before the loop, with all of them still pending |
| RenderPasses.UploadNextObject | Gsw/RenderPass.swift:539-549 | one iteration: object `i` is uploaded, and what held of the objects before it holds of it too |
| RenderPasses.UploadObjectTransforms | Gsw/RenderPass.swift:539-549 | every transform ends clean with its slot holding its model matrix combined with the globals; the slots written are exactly the objects' slots, and nothing else in the buffer set changes |
| RenderPasses.RefreshGlobals | Gsw/RenderPass.swift:521-531 | a dirty camera hands over its view matrix and ends clean; the globals are recomputed exactly when the aggregate (as written or intended) says so, fatal exactly when that needs a size never given |
| RenderPasses.StaleProjectionAfterReshape | Gsw/GlobalTransforms.swift:27 | with the aggregate as written, a reshape from 800x600 to 600x800 without a camera move leaves the frame using the old size's projection |
| RenderPasses.FreshProjectionAfterReshape | Gsw/RenderPass.swift:528-531 | with the intended aggregate the same sequence uses the projection for the new size |
| ScreenPasses.TruncateWholeNumber | Gsw/RenderPass.swift:408-409 | a whole pixel count converted to a float and back is unchanged |
| ScreenPasses.OnScreenRenderPass.constructor | Gsw/OnScreenRenderPass.swift:20-25 | the base pass made with the given parameters, in its initial state |
| ScreenPasses.OnScreenRenderPass.Render | Gsw/OnScreenRenderPass.swift:31-41 | the drawable becomes colour target 0; the records are sorted if a resort was pending and left as they are otherwise; then they are encoded, every record drawn in order with its own pipeline, geometry and matrices (with the static slot bound for static objects) |
| ScreenPasses.OnScreenRenderPass.EndOfFrameActions | Gsw/OnScreenRenderPass.swift:44-49 | the frame's commands are committed together with the drawable they present; the base pass's end-of-frame accounting follows |
| ScreenPasses.OnScreenRenderPass.Reshape | Gsw/OnScreenRenderPass.swift:52-56 | corrected: resizes through the corrected sample counts (a one-sample resolve texture); the depth/stencil textures get the new size in whole pixels (the resolve texture too when multisampled), the global transforms get the size and their projection is dirty; the view is untouched |
| ScreenPasses.ForwardOnScreenRenderPass.constructor | Gsw/ForwardOnScreenRenderPass.swift:13-27 | an on-screen pass named "Forward Render Pass" with one new depth/stencil state comparing less-or-equal and writing depth |
| ScreenPasses.OffScreenRenderPass.constructor | Gsw/OffScreenRenderPass.swift:19-33 | corrected: the resolve texture has one sample, where Gsw/RenderPass.swift:471 gives it the target's count; colour format and sample count come from the target, which becomes colour target 0; the depth/stencil textures are made at the target's size (a single-sample resolve texture when multisampled) and the projection gets that size |
| ScreenPasses.OffScreenRenderPass.Render | Gsw/OffScreenRenderPass.swift:37-41 | always sorts (a permutation, in hash order), then encodes as the on-screen pass does; the store passed in is not used |
| BoundingBoxes.ExtentIsDimension | Gsw/BoundingBox.swift:11-26 | on each axis the bounds are exactly the box's dimension apart |
| BoundingBoxes.BoundsOrderedIffDimensionNonNegative | Gsw/BoundingBox.swift:21-26 | on each axis the lower bound is at most the upper one exactly when the dimension is not negative |
| BoundingBoxes.CentreIsMidpoint | Gsw/BoundingBox.swift:11-26 | (x, y, z) is the midpoint of the bounds on each axis |
| RendererFactories.CreateRenderer | Gsw/Common/RendererFactory.swift:19-37 | a renderer is made exactly when no name, "Simple" or "Sim1" is given; the sim renderer only for "Sim1"; any other name is fatal |
| RendererFactories.NameOf | Gsw/Common/RendererFactory.swift:29-32 | each renderer has a non-empty selection name |
| RendererFactories.CreateByName | Gsw/Common/RendererFactory.swift:19-37 | every renderer is made from its name, and a name that makes a renderer is that renderer's name (or no name, for the simple renderer) |
| RotatingAnimators.AngleDeltaAsWritten | Gsw/RotatingAnimator.swift:30-37 | the increment handed to the transform is the speed times the elapsed time times pi/180 |
| RotatingAnimators.AngleDelta | Gsw/RotatingAnimator.swift:35-39 | the intended increment: over one second it is the speed in degrees; it is non-negative for a non-negative speed and time |
| RotatingAnimators.RotationSlowedAsWritten | Gsw/RotatingAnimator.swift:30-37 | at 90 degrees per second the written increment over a second is pi/2, not 90 |
| RotatingAnimators.AsWrittenIsScaledIntended | Gsw/RotatingAnimator.swift:30-37 | the written increment is always the intended one scaled by pi/180 |
| RotatingAnimators.RotatingAnimator.Attach | Gsw/RotatingAnimator.swift:25-31 | the animator keeps the transform and the speed, converted to radians once |
| RotatingAnimators.RotatingAnimator.Create | Gsw/RotatingAnimator.swift:25-33 | no animator exactly when the object has no transform; otherwise the transform's rotation axis is set and marked dirty and nothing else of the transform changes |
| RotatingAnimators.RotatingAnimator.UpdateAsWritten | Gsw/RotatingAnimator.swift:35-39 | as written: the rotation angle grows by the written increment and is marked dirty; translation and scale are untouched |
| RotatingAnimators.RotatingAnimator.Update | Gsw/RotatingAnimator.swift:35-39 | corrected: the rotation angle grows by speed times elapsed time in degrees and is marked dirty; translation and scale are untouched |
| ScaleAnimators.NextScale | Gsw/ScaleAnimator.swift:39-52 | the new scale is within [min, max]; a move to or past the minimum turns upward at the minimum, one to or past the maximum turns downward at the maximum, one strictly inside keeps its value and direction |
| ScaleAnimators.PingPong | Gsw/ScaleAnimator.swift:39-52 | from inside the range, a step lands inside moving on, or on the limit it was heading for and turns back |
| ScaleAnimators.ScaleAnimator.Attach | Gsw/ScaleAnimator.swift:22-35 | the animator keeps transform, speed and limits, starts at scale 1 and growing |
| ScaleAnimators.ScaleAnimator.Create | Gsw/ScaleAnimator.swift:27-35 | no animator exactly when the object has no transform; the limits are not checked |
| ScaleAnimators.ScaleAnimator.Update | Gsw/ScaleAnimator.swift:37-56 | traps exactly when the minimum exceeds the maximum; otherwise scale and direction follow `NextScale` and the transform's uniform scale is set to the new scale and marked dirty, nothing else of it changing |
| MoleculeSpecs.ElementFromRawValue | Gsw/MolelculeSpec.swift:12-23 | an element found from a string has that string as its raw value |
| MoleculeSpecs.ElementRawValueRoundTrip | Gsw/MolelculeSpec.swift:12-23 | every element is found again from its raw value, so no two elements share one |
| MoleculeSpecs.UnlistedElementCode | Gsw/MolelculeSpec.swift:12-23 | a string finds no element exactly when it is no element's raw value |
| MoleculeSpecs.ResidueFromRawValue | Gsw/MolelculeSpec.swift:25-57 | a residue type found from a string has that string as its raw value |
| MoleculeSpecs.RnaFromCode | Gsw/MolelculeSpec.swift:32-35 | a one-letter RNA code found has that code as its raw value |
| MoleculeSpecs.DnaFromCode | Gsw/MolelculeSpec.swift:28-31 | a two-letter DNA code found has that code as its raw value |
| MoleculeSpecs.ThreeLetterAToC | Gsw/MolelculeSpec.swift:36-56 | a three-letter code from A to C found has that code as its raw value |
| MoleculeSpecs.ThreeLetterGToH | Gsw/MolelculeSpec.swift:36-56 | a three-letter code from G to H found has that code as its raw value |
| MoleculeSpecs.ThreeLetterIToM | Gsw/MolelculeSpec.swift:36-56 | a three-letter code from I to M found has that code as its raw value |
| MoleculeSpecs.ThreeLetterPToS | Gsw/MolelculeSpec.swift:36-56 | a three-letter code from P to S found has that code as its raw value |
| MoleculeSpecs.ThreeLetterTToV | Gsw/MolelculeSpec.swift:36-56 | a three-letter code from T to V found has that code as its raw value |
| MoleculeSpecs.ResidueRawValueRoundTrip | Gsw/MolelculeSpec.swift:25-57 | every residue type is found again from its raw value, so the codes are distinct |
| MoleculeSpecs.UnlistedResidueCode | Gsw/MolelculeSpec.swift:25-57 | a string finds no residue type exactly when it is no residue type's raw value |
| MoleculeSpecs.ResidueOrUnknown | Gsw/MolelculeSpec.swift:25-27 | a listed code gives the residue type with that raw value, an unlisted one `unknown` |
| MoleculeSpecs.ElementOrUnknown | Gsw/MolelculeSpec.swift:12-14 | a listed symbol gives the element with that raw value, an unlisted one `unknown` |
| MoleculeSpecs.MoleculeSpec.constructor | Gsw/MolelculeSpec.swift:66-78 | a new molecule has no atoms and no bonds |
| SimTraces.Split | Gsw/SimTrace.swift:74 | a line splits into at least one token, none holding the separator |
| SimTraces.JoinSplit | Gsw/SimTrace.swift:74 | splitting loses nothing: the tokens joined by the separator give back the line |
| SimTraces.SplitJoin | Gsw/SimTrace.swift:74 | parts without the separator, joined and split again, are the same parts |
| SimTraces.SplitPart | Gsw/SimTrace.swift:74 | a string without the separator is a single token |
| SimTraces.SplitPrefix | Gsw/SimTrace.swift:74 | a token followed by the separator comes first, before the tokens of the rest |
| SimTraces.FrameOf | Gsw/SimTrace.swift:96-113 | a parsed frame of `n` coordinate pairs holds `n` particles |
| SimTraces.FrameOfFailureStays | Gsw/SimTrace.swift:100-101 | a pair that does not parse spoils every longer frame |
| SimTraces.FrameOfParticles | Gsw/SimTrace.swift:96-113 | a frame parses exactly when all of its coordinates do, and particle k then sits at the k-th pair at z = 0 |
| SimTraces.FrameOfNext | Gsw/SimTrace.swift:100-112 | one more parsed pair appends one particle at that pair, at z = 0 |
| SimTraces.BoundsOfNext | Gsw/SimTrace.swift:103-107 | corrected: the bounds after one more point are the old bounds widened to that point, the maximum tracked against the old maximum |
| SimTraces.BoundsOfContains | Gsw/SimTrace.swift:103-107 | the tracked bounds only widen, and they hold every point of the frame |
| SimTraces.BoundsOfFramesContains | Gsw/SimTrace.swift:103-116 | the bounds tracked over all frames hold every point of every frame |
| SimTraces.MaximumLostAsWritten | Gsw/SimTrace.swift:106-107 | as written, the points (3, 0) then (1, 0) leave a maximum x of 1, so the first point is outside the bounds, where the box should be 2 wide |
| SimTraces.Track | Gsw/SimTrace.swift:103-107 | corrected: the smallest box holding the old bounds and the new point: it contains both, and each bound is either the old one or the point |
| SimTraces.TrackAsWritten | Gsw/SimTrace.swift:103-107 | as written, the minimum is the intended one but the maximum is always just the latest point |
| SimTraces.BoundsOf | Gsw/SimTrace.swift:103-107 | no contract of its own (recursive): `Track` folded over a frame; `BoundsOfNext` and `BoundsOfContains` state that it grows point by point and holds every point |
| SimTraces.BoundsOfAsWritten | Gsw/SimTrace.swift:103-107 | no contract of its own (recursive): `TrackAsWritten` folded over a frame; `MaximumLostAsWritten` shows it losing the maximum |
| SimTraces.FramesOf | Gsw/SimTrace.swift:73-119 | the accepted lines give one frame each |
| SimTraces.FramesOfNext | Gsw/SimTrace.swift:73-119 | one more accepted line appends its own frame |
| SimTraces.BoundsOfFramesNext | Gsw/SimTrace.swift:104-116 | the bounds over one more frame are the old bounds widened over that frame |
| SimTraces.FramesOfShape | Gsw/SimTrace.swift:82-92 | every frame read from accepted lines holds the agreed particle count |
| SimTraces.ScaledFrame | Gsw/SimTrace.swift:133-137 | the scaled frame has the same length and each particle is the original scaled by the factor |
| SimTraces.VizScale | Gsw/SimTrace.swift:130 | the factor maps the effective box's width and height onto the display box's and leaves z alone |
| SimTraces.ScalingACopyKeepsFrames | Gsw/SimTrace.swift:132-137 | scaling a particle really moves it; as written only a copy is scaled |
| SimTraces.SimTrace.constructor | Gsw/SimTrace.swift:32-53 | a new trace has no particles and no frames, a zero box, and bounds set to their empty extremes |
| SimTraces.SimTrace.ParsePairs | Gsw/SimTrace.swift:96-113 | corrected: widens with `Track`, the maximum against the running maximum (line 106-107 takes it against the minimum); succeeds exactly when every coordinate pair parses; the frame is then the line's frame and the bounds are widened over it |
| SimTraces.SimTrace.AddLine | Gsw/SimTrace.swift:74-116 | corrected: the bounds are widened with `Track`; a line is read without trapping exactly when its coordinate count is even, it carries the agreed particle count and every coordinate parses; its frame is then appended and the bounds widened over it |
| SimTraces.SimTrace.ReadLine | Gsw/SimTrace.swift:73-119 | corrected: the invariant carries the bounds of `Track`; one turn of the line loop keeps the invariant that every line so far was accepted, its frame appended and the bounds widened over it |
| SimTraces.SimTrace.Read2DFrom | Gsw/SimTrace.swift:57-123 | reading succeeds exactly when every line is accepted; the frames of all lines are then appended, the first line fixes the particle count, the bounds cover every coordinate and the box is their span |
| SimTraces.SimTrace.ScaleToVizBoxAsWritten | Gsw/SimTrace.swift:126-139 | as written, the stored frames are left as they were |
| SimTraces.SimTrace.ScaleToVizBox | Gsw/SimTrace.swift:126-139 | corrected: every particle of every frame is scaled by the display box over the effective box |
| SimTraces.SimTrace.NumSimFrames | Gsw/SimTrace.swift:141-144 | the number of frames stored |
| SimTraces.SimTrace.GetParticlePosition | Gsw/SimTrace.swift:146-149 | a position is returned exactly when both indices are in range, and it is the particle's stored position; otherwise it traps |
| SimTraces.ReadTraceShape | Gsw/SimTrace.swift:57-123 | a trace from accepted lines has one frame per line, each with the first line's particle count, and every stored position lies within the tracked bounds |
| SimTraceAnimators.FrameIndex | Gsw/SimTraceAnimator.swift:39-42 | the frame index traps exactly when the trace has no frames |
| SimTraceAnimators.FrameIndexInRange | Gsw/SimTraceAnimator.swift:39-42 | played forwards, the index always names a frame of the trace |
| SimTraceAnimators.FrameIndexWraps | Gsw/SimTraceAnimator.swift:41-42 | after a whole number k of frame periods the frame shown is k modulo the frame count, so playback starts over after the last frame |
| SimTraceAnimators.FrameIndexNegativeBackwards | Gsw/SimTraceAnimator.swift:42 | played backwards, Swift's remainder keeps the dividend's sign and the index falls before the first frame |
| SimTraceAnimators.SimObject.constructor | Gsw/SimObject.swift:19-22 | the object keeps its particle index, its trace and its transform |
| SimTraceAnimators.SimObject.NumSimFrames | Gsw/SimObject.swift:32-35 | the frame count of the trace it follows |
| SimTraceAnimators.SimObject.PositionForFrame | Gsw/SimObject.swift:37-40 | a position exactly when the frame exists and holds the object's particle, and then it is that particle's position; otherwise it traps |
| SimTraceAnimators.PlaybackFindsParticle | Gsw/SimTraceAnimator.swift:39-44 | in a non-empty trace whose every frame holds the particle, forward playback always yields a frame that holds it |
| SimTraceAnimators.SimTraceAnimator.constructor | Gsw/SimTraceAnimator.swift:25-32 | the animator keeps the object, the rate and the start index, records the trace's frame count and starts its clock at zero |
| SimTraceAnimators.SimTraceAnimator.Update | Gsw/SimTraceAnimator.swift:34-46 | the clock advances by the time step; the update completes exactly when the frame index and the particle's position in that frame exist, and the sphere then moves to that position with its translation marked dirty; rotation and scale are untouched |
| PdbReaders.Field | Gsw/Utilities.swift:38-44 | a column range is read exactly when the line reaches its last column, and then it is those columns |
| PdbReaders.RecordAsWritten | Gsw/PDBReader.swift:64-66 | as written, every line traps: the guard passes only lines too short for the columns read next |
| PdbReaders.RecordNamesUnpaddedAsWritten | Gsw/PDBReader.swift:66-72 | compared unpadded, a six-column record name can only ever match HETATM |
| PdbReaders.RecordOf | Gsw/PDBReader.swift:62-80 | corrected: a line traps exactly when it is shorter than the six-column record name; otherwise its record is the trimmed name's |
| PdbReaders.PaddedRecordNames | Gsw/PDBReader.swift:67-72 | the names "ATOM  ", "HETATM", "TER   " and "END   " as a file pads them give their own records |
| PdbReaders.TrimPadded | Gsw/Utilities.swift:33-36 | a word followed by spaces trims to the word |
| PdbReaders.TrimTrailingPadded | Gsw/Utilities.swift:33-36 | trailing spaces after a word are all dropped |
| PdbReaders.ParseAtomPosition | Gsw/PDBReader.swift:163-194 | the position is read exactly when the line holds columns 30-53 and x, y and z all parse, and then it is those three numbers |
| PdbReaders.ElementOfAsWritten | Gsw/PDBReader.swift:115-118 | as written, a symbol that is not looked up as it stands, padding included, gives `unknown` |
| PdbReaders.ElementOf | Gsw/PDBReader.swift:115-118 | corrected: the trimmed symbol gives the element with that raw value, an unlisted one `unknown` |
| PdbReaders.CarbonUnknownAsWritten | Gsw/PDBReader.swift:116-118 | a right-justified " C" gives `unknown` as written and carbon when trimmed |
| PdbReaders.TwoLetterElementsAgree | Gsw/PDBReader.swift:116-118 | for a two-letter symbol both readings agree |
| PdbReaders.AtomNameAsWritten | Gsw/PDBReader.swift:104 | as written, the atom name keeps its four columns, padding included |
| PdbReaders.AtomName | Gsw/PDBReader.swift:104 | corrected: the trimmed atom name has at most four characters |
| PdbReaders.ResidueName | Gsw/PDBReader.swift:98 | the trimmed residue name has at most three characters |
| PdbReaders.FieldsOf | Gsw/PDBReader.swift:86-116 | corrected: the atom name and element are trimmed, where lines 104, 116-118 and 148-150 use them padded; the serial number and the residue number are their columns as they stand; name, residue name and element are trimmed |
| PdbReaders.CommonPairs | Gsw/PDBReader.swift:205-253 | a residue type has common bonds exactly when it is neither unknown nor water |
| PdbReaders.TerminalAfter | Gsw/PDBReader.swift:233-250 | after a nucleotide the terminal atom is the one under the given 3' key, after an amino acid the carbonyl C, if present; other residues leave it as it was |
| PdbReaders.DnaChainBrokenAsWritten | Gsw/PDBReader.swift:233 | as written the key "O3" finds no atom in a nucleotide, so the next nucleotide is not linked; "O3'" finds it |
| PdbReaders.BondOf | Gsw/PDBReader.swift:196-201 | a bond is made exactly when both atoms are in the residue: a single bond between their positions |
| PdbReaders.PairBonds | Gsw/PDBReader.swift:196-201 | a table's bonds, when found, are one per pair |
| PdbReaders.PairBondsFound | Gsw/PDBReader.swift:196-201 | a table's bonds are found exactly when every atom it names is present, and then bond i joins the atoms of pair i |
| PdbReaders.PairBondsFatalStays | Gsw/PDBReader.swift:199 | a missing atom at any pair makes the whole table trap |
| PdbReaders.LinkBond | Gsw/PDBReader.swift:228-249 | with a previous terminal atom and a link target, one bond joins them, and it traps when the target is missing; otherwise no bond |
| PdbReaders.LinkAndOwnBonds | Gsw/PDBReader.swift:228-446 | succeeds exactly when the link and the own table succeed; the new terminal atom follows `TerminalAfter` |
| PdbReaders.BondsFrom | Gsw/PDBReader.swift:203-447 | succeeds exactly when the common table and then the link and own table succeed; the new terminal atom follows `TerminalAfter` |
| PdbReaders.LinkAndOwnBondsValue | Gsw/PDBReader.swift:228-446 | found exactly when both the link and the own bonds are; then the link comes first, then the residue's own bonds, with the new terminal atom |
| PdbReaders.BondsFromValue | Gsw/PDBReader.swift:203-447 | the common bonds come first, then the link and the own bonds |
| PdbReaders.BondsForShape | Gsw/PDBReader.swift:203-447 | a residue's bonds are found exactly when both tables name only present atoms and a needed link target is present; there is one bond per pair plus the link |
| PdbReaders.SpecificPairs | Gsw/PDBReader.swift:256-446 | no contract of its own: the base and side-chain tables of each residue type; `BondsForShape` and `PairBondsFound` state that each pair gives one bond exactly when both atoms exist |
| PdbReaders.BondsForWith | Gsw/PDBReader.swift:203-447 | no contract of its own: `_createBondsForResidue` with the terminal atom key as a parameter; `UntrimmedNamesFatalAsWritten` states its as-written behaviour |
| PdbReaders.BondsFor | Gsw/PDBReader.swift:203-447 | corrected: `BondsForWith` with the standard "O3'" key; `BondsForShape` states when it succeeds and how many bonds it gives |
| PdbReaders.NoBondsForUnknownOrWater | Gsw/PDBReader.swift:252-445 | unknown residues and water give no bonds and leave the chain as it was |
| PdbReaders.FirstNameShort | Gsw/PDBReader.swift:209-241 | each common table starts with an atom name of at most three letters |
| PdbReaders.UntrimmedNamesFatalAsWritten | Gsw/PDBReader.swift:104-105 | with every key four characters long, as written, the bonds of any known residue trap |
| PdbReaders.Flush | Gsw/PDBReader.swift:90-93 | corrected (DNA terminal key "O3'"): with no open residue nothing changes; otherwise it succeeds exactly when that residue's bonds are found, which are appended, and the terminal atom is updated |
| PdbReaders.WithCoordinates | Gsw/PDBReader.swift:108-113 | the coordinates hold the position under the serial number, created if absent, and otherwise keep the old entries |
| PdbReaders.CheckedAbbreviationAsWritten | Gsw/PDBReader.swift:121 | as written, the abbreviation checked for an atom that continues a residue is empty |
| PdbReaders.AtomStep | Gsw/PDBReader.swift:82-124 | an accepted ATOM record has every field and a readable position |
| PdbReaders.AtomStepShape | Gsw/PDBReader.swift:82-124 | an accepted ATOM record appends one atom of its element and position; a new residue number first emits the open residue's bonds and opens a residue with just this atom, typed by its name; a continuing one adds the atom to the open residue and emits nothing |
| PdbReaders.OpenResidueShape | Gsw/PDBReader.swift:86-101 | a new residue number emits the open residue's bonds and opens an empty residue of the line's type; the same number changes nothing |
| PdbReaders.OpenResidue | Gsw/PDBReader.swift:86-101 | corrected (DNA terminal key "O3'"): no contract of its own: the start of `_parseAtom`; `OpenResidueShape` states its effect |
| PdbReaders.StoreAtomShape | Gsw/PDBReader.swift:103-123 | corrected: the atom is stored under its trimmed name, and the line's own residue name is the one checked (line 121 checks an abbreviation left empty for a continuing residue); storing adds the atom to the residue under its name and to the coordinates under its serial number, and appends one atom typed by the residue |
| PdbReaders.StoreAtom | Gsw/PDBReader.swift:103-123 | corrected, no contract of its own: the rest of `_parseAtom` with the trimmed name and the line's own residue name; `StoreAtomShape` states its effect |
| PdbReaders.HetAtmStep | Gsw/PDBReader.swift:126-156 | an accepted HETATM record has every field and a readable position |
| PdbReaders.HetAtmStepShape | Gsw/PDBReader.swift:126-156 | an accepted HETATM record breaks the chain, emits the open residue's bonds and forgets its type, and appends one atom that is water exactly when the residue name is HOH |
| PdbReaders.CloseResidueShape | Gsw/PDBReader.swift:128-133 | closing emits the open residue's bonds and forgets its type, and touches nothing else |
| PdbReaders.CloseResidue | Gsw/PDBReader.swift:128-133 | corrected (DNA terminal key "O3'"): no contract of its own: the start of `_parseHetAtm`; `CloseResidueShape` states its effect |
| PdbReaders.StoreHetAtomShape | Gsw/PDBReader.swift:136-155 | storing a het atom appends exactly one atom of its element and position, water exactly when the name is HOH, and breaks the chain |
| PdbReaders.StoreHetAtom | Gsw/PDBReader.swift:136-155 | no contract of its own: the rest of `_parseHetAtm`; `StoreHetAtomShape` states its effect |
| PdbReaders.LineStep | Gsw/PDBReader.swift:62-80 | reading stops only at an END record |
| PdbReaders.LineStepDispatch | Gsw/PDBReader.swift:62-80 | corrected: dispatches on `RecordOf` (the guard at line 64 lets no line through); a line too short for a record name traps; END stops and TER and unrecognised records are skipped, all leaving the state unchanged; ATOM and HETATM succeed exactly when their own step does |
| PdbReaders.ReadWith | Gsw/PDBReader.swift:40-53 | running out of lines traps |
| PdbReaders.ReadWithStops | Gsw/PDBReader.swift:40-53 | a read succeeds only if some line told it to stop |
| PdbReaders.ReadWithIgnoresRest | Gsw/PDBReader.swift:44-47 | once a prefix reads up to its stop, the lines after it change nothing |
| PdbReaders.ReadLines | Gsw/PDBReader.swift:34-59 | a file with no lines traps |
| PdbReaders.ReadNeedsEnd | Gsw/PDBReader.swift:51-72 | a file is read only if it holds an END record |
| PdbReaders.ReadIgnoresRest | Gsw/PDBReader.swift:72 | nothing after END is read |
| PdbReaders.EndFirst | Gsw/PDBReader.swift:72 | a file that starts with END gives back the state the read started in |
| PdbReaders.PDBReader.constructor | Gsw/PDBReader.swift:19-32 | a new reader has an empty molecule, no open residue, residue number -1, unknown type, no coordinates and no terminal atom |
| PdbReaders.PDBReader.CreateBondInfo | Gsw/PDBReader.swift:196-201 | completes exactly when both atoms are present, and then appends their bond to the molecule |
| PdbReaders.PDBReader.CreatePairBonds | Gsw/PDBReader.swift:203-447 | completes exactly when a whole table's bonds are found, and then appends them in table order |
| PdbReaders.PDBReader.CreateLinkBond | Gsw/PDBReader.swift:228-249 | completes exactly when `LinkBond` does, and then appends its bonds |
| PdbReaders.PDBReader.CreateLinkAndOwnBonds | Gsw/PDBReader.swift:228-446 | completes exactly when `LinkAndOwnBonds` does, and then appends its bonds and updates the terminal atom |
| PdbReaders.PDBReader.CreateBondsFrom | Gsw/PDBReader.swift:203-447 | completes exactly when `BondsFrom` does, and then appends its bonds and updates the terminal atom |
| PdbReaders.PDBReader.CreateBondsForResidue | Gsw/PDBReader.swift:203-447 | corrected: through `BondsFor` with the DNA terminal key "O3'", it completes exactly when the residue's bonds are found, and then appends them and updates the terminal atom |
| PdbReaders.PDBReader.FlushResidue | Gsw/PDBReader.swift:90-93 | corrected (DNA terminal key "O3'"): the reader's state becomes that of `Flush` |
| PdbReaders.PDBReader.OpenAtomResidue | Gsw/PDBReader.swift:86-101 | corrected (DNA terminal key "O3'"): the reader's state follows the start of an ATOM record |
| PdbReaders.PDBReader.StoreAtomAt | Gsw/PDBReader.swift:103-123 | corrected: follows the corrected `StoreAtom`; the reader's state follows the storing of an atom |
| PdbReaders.PDBReader.ParseAtom | Gsw/PDBReader.swift:82-124 | corrected: follows the corrected `AtomStep` (line 121 traps on a residue's second atom); completes exactly when `AtomStep` succeeds, and then the reader's state is its result |
| PdbReaders.PDBReader.CloseOpenResidue | Gsw/PDBReader.swift:128-133 | corrected (DNA terminal key "O3'"): the reader's state follows the closing of the open residue |
| PdbReaders.PDBReader.StoreHetAtomAt | Gsw/PDBReader.swift:136-155 | the reader's state follows the storing of a het atom |
| PdbReaders.PDBReader.ParseHetAtm | Gsw/PDBReader.swift:126-156 | completes exactly when `HetAtmStep` succeeds, and then the reader's state is its result |
| PdbReaders.PDBReader.ParseLine | Gsw/PDBReader.swift:62-80 | corrected: follows the corrected `LineStep` (the guard at line 64 traps on every line); completes exactly when `LineStep` succeeds, and then whether to read on and the new state are its result |
| PdbReaders.PDBReader.ReadPDBFile | Gsw/PDBReader.swift:34-59 | corrected: reads through the corrected steps (as written the first line traps); returns the reader's own molecule; completes exactly when `ReadLines` succeeds, and then the reader's state is its result |
| TexturableQuads.VertexSizes | Gsw/TexturableQuadObject.swift:21-36 | a vertex is 24 bytes untextured and 32 textured |
| TexturableQuads.QuadData | Gsw/TexturableQuadObject.swift:40-60 | the vertex data holds six vertices of `stride` floats, float k being attribute k mod stride of vertex k div stride |
| TexturableQuads.QuadCorners | Gsw/TexturableQuadObject.swift:40-49 | every vertex lies at a corner of the square of half-width `size` in the z = 0 plane and faces -z; the two triangles share a diagonal |
| TexturableQuads.UntexturedLiteralIsQuad | Gsw/TexturableQuadObject.swift:40-49 | the untextured array is the quad of half-width 1, six floats per vertex |
| TexturableQuads.TexturedLiteralTexCoords | Gsw/TexturableQuadObject.swift:51-60 | the textured array holds each vertex's texture coordinates in its last two floats, eight floats per vertex |
| TexturableQuads.IndicesCoverVertices | Gsw/TexturableQuadObject.swift:62-64 | the index data draws every vertex exactly once, in order |
| TexturableQuads.QuadVertexDescriptor | Gsw/TexturableQuadObject.swift:134-167 | the layout has two attributes, or three when textured, and its stride is the vertex size |
| TexturableQuads.DescriptorPacksVertex | Gsw/TexturableQuadObject.swift:134-167 | the attributes are float3, float3 and then float2, all in buffer 0; each starts where the one before ends, and together they fill the stride exactly |
| TexturableQuads.TexturableQuadSubmesh.constructor | Gsw/TexturableQuadObject.swift:66-74 | corrected: a textured submesh is interleaved with the corrected `Interleave` (lines 106-107 trap); the submesh keeps its material and texture and ends up built: the geometry buffer holds the quad of the given size in the layout the descriptor describes, and the index buffer holds six 16-bit indices |
| TexturableQuads.TexturableQuadSubmesh.ScalePositions | Gsw/TexturableQuadObject.swift:78-83 | x and y of each of the six vertices are multiplied by the size; every other float stays |
| TexturableQuads.TexturableQuadSubmesh.InterleaveAsWritten | Gsw/TexturableQuadObject.swift:102-109 | as written, every textured quad traps: with the stride already 8, the read index runs past the 36-float untextured array |
| TexturableQuads.TexturableQuadSubmesh.Interleave | Gsw/TexturableQuadObject.swift:102-109 | corrected: each vertex's position and normal are read at stride 6 and written at stride 8, and the texture coordinates stay |
| TexturableQuads.TexturableQuadSubmesh.InitGeometryBuffer | Gsw/TexturableQuadObject.swift:76-126 | the texture fixes the texture-coordinate count; the buffer holds the quad of the given size at that stride and is sized for six vertices |
| TexturableQuads.TexturableQuadSubmesh.InitIndexBuffer | Gsw/TexturableQuadObject.swift:128-132 | the index buffer is new and sized for six 16-bit indices |
| TexturableQuads.TexturableQuadSubmesh.CreateVertexDescriptor | Gsw/TexturableQuadObject.swift:134-167 | the descriptor is the quad's layout for its texture |
| TexturableQuads.TexturableQuadSubmesh.EncodeCommands | Gsw/TexturableQuadObject.swift:169-180 | binds the texture first when there is one, then the material buffer, then draws the six indices as triangles |
| TexturableQuads.EncodeKeepsBindings | Gsw/TexturableQuadObject.swift:169-180 | the part's encoding binds no pipeline and no vertex buffer, so it draws with what the pass bound before it |
| TexturableQuads.TexturableQuadObject.constructor | Gsw/TexturableQuadObject.swift:211-215 | corrected: the textured submesh is built with the corrected `Interleave`; the object keeps its transform and owns a new, built submesh with the given material and texture |
| TexturableQuads.TexturableQuadObject.AsRenderable | Gsw/TexturableQuadObject.swift:183-207 | the pass sees one subrenderable, the submesh's layout, its geometry buffer at offset 0, the object's transform and no vertex shader options |
| TexturableQuads.TexturableQuadObject.SetMaterial | Gsw/TexturableQuadObject.swift:217-220 | the submesh draws with the new material from then on |
| Numerics.TruncateToInt | Gsw/SimTraceAnimator.swift:42 | `Int(x)` of a float rounds toward zero: the result has the sign of `x` and lies less than one away from it, on the side of zero |
| Numerics.SwiftRemainder | Gsw/SimTraceAnimator.swift:42 | for a positive divisor, Swift's `%` of a non-negative dividend lies in `[0, divisor)` and agrees with the Euclidean remainder, and that of a negative dividend lies in `(-divisor, 0]` and differs from it by a multiple of the divisor |

## Left out

- Metal calls are not executed. Buffers, textures, pipeline states and encoders are opaque handles, and an encoder is the trace of commands it was given. Byte layouts of the uploaded records are not modelled, only which record sits at which offset.
- The pipeline descriptor's hash is a function parameter `hashOf`. Its behaviour on distinct descriptors is not modelled.
- Shader functions are keyed by stage and variant rather than by their Metal names. `Shaders.ShaderNameInjective` justifies this keying. The text of error messages is not part of the contracts.
- Matrix arithmetic (translation, rotation, scale, perspective, products, inverse-transpose) is uninterpreted, so properties of the numbers in a matrix are not modelled.
- Float rounding, NaN and infinities are not modelled: `Float` is `real`. Where Swift's IEEE division would give infinity, the model either distinguishes the zero divisor (`GlobalMatrices.AspectOf`) or requires a non-zero one (`SimTraces.SimTrace.ScaleToVizBox` requires a box of non-zero extent).
- Swift `Int` overflow traps are not modelled: integers are unbounded. A `Float`-to-`Int` conversion of a value out of `Int` range would trap in Swift and is not modelled either.
- Randomness (`randomFloat`, `randomUnitVector`, `randomPointWithin`) and the Brownian animator are not modelled, because their results depend on a random source.
- The debug vertex shader path of the render pass is not modelled.
- The animator field of a renderable and the debug labels of geometry and of single buffers are not modelled, because nothing in the core reads them. A buffer set's per-frame labels are modelled (`BufferSets.IndexedLabel`).
- `PipelineSelection.SelectShaderVariant`: a textured lit material stops, as the debug build's `assert(!textured)` in `_selectShaders` does. A release build skips that assert and would ask the library for textured lit shaders that it does not hold.
- File I/O is not modelled. The trace and PDB readers take the file's lines, and number parsing (`Float(String)`, `Int(String)`) is passed in as a function parameter.
- Concurrency is not modelled. The frame semaphore is a counter, and GPU completion is an explicit step, `Renderers.CompleteOldestFrame`.
- `Renderers.Renderer.Update`, `Renderers.Renderer.UpdateAndDraw`: require a free frame slot. A wait on an exhausted semaphore blocks until another thread signals it, and that is concurrency.
- PDB reader:
  - A residue still open at the END record is never flushed, as written.
  - CONECT records fall into the ignored default case, as in the source. The atom-coordinate map kept for them is modelled (`PdbReaders.WithCoordinates`), although nothing reads it.
  - A TER record is a no-op.
  - The bond tables' serine `OB` and the RNA C2–O2 entries are kept as written.
- `SimTraceAnimators.SimTraceAnimator.constructor`: stores `initialSimFrameIndex`, but `update` never reads it.
- The off-screen pass's reshape does nothing, as in the source.
- User interface, camera controllers, platform view controllers and the scene-setting renderers are not part of this model.
- `Transforms.Transform.Create`, `TrsTransforms.TRSTransform.Create`: these model a Swift initializer that traps when the store has no free slot. They are static methods whose result is `Fatal` in that case, because a Dafny constructor cannot fail.
- `BufferSets.BufferSet.Get`, `LightSets.Lights.Get`, `Transforms.PerObjectTransforms.GetBuffer`: require an index in range. An out-of-range array index traps in Swift, and the core only passes a frame slot index below the number of frames in flight.
- `RenderPasses.DepthStencilSampleCount`, `RenderPasses.RenderPass.ResizeDepthStencilTexture`, `RenderPasses.RenderPass.ResizeDepthStencilTextures`, `ScreenPasses.OnScreenRenderPass.Reshape`, `ScreenPasses.OffScreenRenderPass.constructor`: allocate the depth/stencil textures with the corrected sample counts under Findings (Gsw/RenderPass.swift:430-471). The texture rendered into gets the pass's count and the resolve texture one sample. As written, both get the pass's count.
- `SimTraces.SimTrace.ParsePairs`, `SimTraces.SimTrace.AddLine`, `SimTraces.SimTrace.ReadLine`, `SimTraces.SimTrace.Read2DFrom`: widen the bounds with the corrected `SimTraces.Track` (Findings, Gsw/SimTrace.swift:106-107). As written, the maximum is always the latest point (`SimTraces.TrackAsWritten`).
- `PdbReaders.FieldsOf`, `PdbReaders.StoreAtom`, `PdbReaders.StoreAtomShape`, `PdbReaders.AtomStep`, `PdbReaders.HetAtmStep`, `PdbReaders.LineStep`, `PdbReaders.LineStepDispatch`, `PdbReaders.ReadLines`, `PdbReaders.PDBReader.StoreAtomAt`, `PdbReaders.PDBReader.ParseAtom`, `PdbReaders.PDBReader.ParseHetAtm`, `PdbReaders.PDBReader.ParseLine`, `PdbReaders.PDBReader.ReadPDBFile`: read through the corrected pieces under Findings. Records are dispatched by `RecordOf`, atom names and elements are trimmed, the residue check uses the line's own residue name, and the DNA terminal key is "O3'". As written, every line traps at the Gsw/PDBReader.swift:64 guard, so `readPDBFile` never returns.
- `TexturableQuads.TexturableQuadSubmesh.constructor`, `TexturableQuads.TexturableQuadObject.constructor`: build a textured quad with the corrected `Interleave` (Findings, Gsw/TexturableQuadObject.swift:106-107). As written, a textured quad traps there.
- `RenderPasses.RenderPass.Encode`, `ScreenPasses.OnScreenRenderPass.Render`, `ScreenPasses.OffScreenRenderPass.Render`: encode a static object with the slot-0 offset (the corrected encoding under Findings) rather than as written.
- `PdbReaders.Flush`, `PdbReaders.OpenResidue`, `PdbReaders.OpenResidueShape`, `PdbReaders.CloseResidue`, `PdbReaders.CloseResidueShape`, `PdbReaders.BondsForShape`, `PdbReaders.AtomStepShape`, `PdbReaders.HetAtmStepShape`, `PdbReaders.PDBReader.CreateLinkAndOwnBonds`, `PdbReaders.PDBReader.CreateBondsFrom`, `PdbReaders.PDBReader.CreateBondsForResidue`, `PdbReaders.PDBReader.FlushResidue`, `PdbReaders.PDBReader.OpenAtomResidue`, `PdbReaders.PDBReader.CloseOpenResidue`: emit a residue's bonds through `PdbReaders.BondsFor`, which takes a nucleotide's terminal atom under the standard name "O3'" (Findings, Gsw/PDBReader.swift:233). As written the key is "O3", so with standard atom names no nucleotide is linked to the next (`PdbReaders.BondsForWith` with `PdbReaders.DnaTerminalKeyAsWritten` gives that behaviour).
- `Cameras.Camera.Update`, `Renderers.Renderer.Update`, `Renderers.Renderer.UpdateAndDraw`: the concrete camera's motion (velocity from the pressed keys times the time step, turns from the mouse) depends on input state that is not modelled. Its result is the parameter `next`, the view the camera arrives at. The camera becomes dirty when that view differs. The source's observers compare each property rather than the view, so a property set to a new value that leaves the view unchanged, such as the re-normalised `direction` and `up`, marks the source's camera dirty but not the model's. `Cameras.Camera.Move` makes the same simplification.
- `Utilities.Substring`, `Utilities.TrimLeading`, `Utilities.TrimTrailing`, `Utilities.Trim`, `PdbReaders.Field`, `PdbReaders.RecordOf`, `SimTraces.Split`: strings are sequences of Unicode scalars, while Swift's `characters.count` and `index(_:offsetBy:)` count grapheme clusters. The two agree on the ASCII text of PDB and trace files, which the column readers assume. A line holding a combining mark would move every later PDB column, and the length guard, by one in Swift but not in the model.

## Findings

| source | as written | input that shows it | evidently intended | confidence | as-written member | corrected member |
|---|---|---|---|---|---|---|
| Gsw/RenderPass.swift:252-277 | a static object sets no per-object matrices offset | a static object encoded right after a dynamic one draws with the dynamic object's matrices | a static object draws with slot 0, the identity model | not executed | PassEncoding.StaticObjectDrawsWithPreviousMatrices, RenderPasses.RenderPass.EncodeAsWritten | RenderPasses.RenderPass.Encode, PassEncoding.CorrectedTraceDrawsAsIntended |
| Gsw/GlobalTransforms.swift:27 | `dirty` is `viewDirty \|\| !projectionDirty` | after a reshape only the projection is dirty, so `dirty` is false and the projection is not recomputed | `viewDirty \|\| projectionDirty` | not executed | GlobalMatrices.DirtyAsWrittenDisagreement, RenderPasses.StaleProjectionAfterReshape | RenderPasses.FreshProjectionAfterReshape, RenderPasses.RenderPass.Update |
| Gsw/RenderPass.swift:430-471 | line 430 requests the pass's sample count for the resolve texture and one sample for the texture rendered into, the reverse of what each needs; line 471 then ignores the request and gives both the pass's count | a 4x multisampled pass gets a 4x multisampled resolve texture | the texture rendered into has the pass's count and the resolve texture one sample | not executed | RenderPasses.DepthStencilSampleCountAsWritten, RenderPasses.ResolveTextureMultisampledAsWritten | RenderPasses.DepthStencilSampleCount |
| Gsw/RotatingAnimator.swift:30-37 | the speed is turned into radians, and the transform converts the angle from degrees again | an object asked to turn 90 degrees per second turns by about 1.57 degrees in one second | the angle is handed over in degrees | not executed | RotatingAnimators.RotationSlowedAsWritten, RotatingAnimators.RotatingAnimator.UpdateAsWritten | RotatingAnimators.AngleDelta, RotatingAnimators.RotatingAnimator.Update |
| Gsw/SimTrace.swift:106-107 | the new maximum is taken against the running minimum | the points (3, 0) then (1, 0) leave a maximum x of 1 | the maximum is taken against the running maximum | not executed | SimTraces.MaximumLostAsWritten | SimTraces.BoundsOfNext, SimTraces.SimTrace.Read2DFrom |
| Gsw/SimTrace.swift:132-137 | `scaleToVizBox` scales a local copy of each particle | any trace with a point away from the box's origin is left unscaled | the stored particles are scaled | not executed | SimTraces.SimTrace.ScaleToVizBoxAsWritten, SimTraces.ScalingACopyKeepsFrames | SimTraces.SimTrace.ScaleToVizBox |
| Gsw/PDBReader.swift:64-66 | the guard keeps only lines shorter than six characters, and the record names are compared without their padding | every line stops: one of six or more characters fails the guard, and a shorter one traps on the six-column substring | lines of at least six characters are dispatched on their trimmed record name | not executed | PdbReaders.RecordAsWritten, PdbReaders.RecordNamesUnpaddedAsWritten | PdbReaders.RecordOf, PdbReaders.PaddedRecordNames |
| Gsw/PDBReader.swift:121 | the check on the residue abbreviation traps when the current residue continues | the second ATOM line of any residue | the check applies only when a new residue starts | not executed | PdbReaders.CheckedAbbreviationAsWritten | PdbReaders.AtomStepShape |
| Gsw/PDBReader.swift:104 | the atom name is taken with its column padding | a padded name such as " N  " never matches the table's "N", so emitting the bonds of any residue of a known type traps | the name is trimmed | not executed | PdbReaders.AtomNameAsWritten, PdbReaders.UntrimmedNamesFatalAsWritten | PdbReaders.AtomName, PdbReaders.AtomStepShape, PdbReaders.BondsForShape |
| Gsw/PDBReader.swift:116-118 | the element symbol is looked up with its padding | " C" is not in the element table | the trimmed symbol is looked up | not executed | PdbReaders.ElementOfAsWritten, PdbReaders.CarbonUnknownAsWritten | PdbReaders.ElementOf |
| Gsw/PDBReader.swift:148-150 | `_parseHetAtm` repeats the element lookup with its padding | " C" is not in the element table | the trimmed symbol is looked up | not executed | PdbReaders.ElementOfAsWritten, PdbReaders.CarbonUnknownAsWritten | PdbReaders.ElementOf |
| Gsw/PDBReader.swift:233 | a nucleotide's terminal atom is looked up as "O3" | a file naming the atom with the standard "O3'" links no nucleotide to the next | the standard "O3'" | not executed | PdbReaders.DnaChainBrokenAsWritten | PdbReaders.TerminalAfter |
| Gsw/TexturableQuadObject.swift:106-107 | the textured interleave steps through the source with a stride of 8 | the textured quad's 36-float source is read past its end | the source is read with its own stride of 6 floats per vertex | not executed | TexturableQuads.TexturableQuadSubmesh.InterleaveAsWritten | TexturableQuads.TexturableQuadSubmesh.Interleave, TexturableQuads.TexturableQuadSubmesh.InitGeometryBuffer |
