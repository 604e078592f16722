# TryToRTSDx12 engine core in Dafny

A model of the logic that sits under the Direct3D 12, DXGI and Win32 calls of
the TryToRTSDx12 engine. The D3D and OS objects are opaque: each call whose
outcome the engine cannot decide becomes a parameter. These are the device's
create/map/copy results (`createOk`, `DeviceOutcome`, `heapOk`, `resizeOk`,
`PresentStatus`), the file bytes, the imported scene, the performance-counter
reading `now` and the Win32 message queue. A command list is the sequence of
commands recorded on it.

| file | module | what it models |
|---|---|---|
| types.dfy | `Types` | integer widths, 32-bit wrap and little-endian bytes, `Handle`, `BIT` |
| rhi.dfy | `Rhi` | `DX12RHIContext`: topology and format tables, the guarded `Set*`/`Draw*` recorders |
| buffers.dfy | `Buffers` | `ConstantBuffer<T>` (256-byte alignment, mapped update), `VertexBuffer<V>`, `IndexBuffer` |
| renderer.dfy | `Renderer` | `DX12Renderer`: the fence counter, the per-slot fence values, the frame index, init/shutdown, resize, RTV handles |
| texture.dfy | `Texture` | `Texture`: format tables, upload state, staging size, the file-load fallback, `Bind` guards |
| sampler.dfy | `Samplers` | `Sampler`: the filter decision table, address modes, presets, `Bind` guard |
| material.dfy | `Materials` | `Material`: the parameter union, the 16-byte layout, typed set/get, the name index, the dirty flag, the mapped parameter buffer, texture binding, the factories |
| mesh.dfy | `Meshes` | `Mesh`: cube geometry, triangle filtering after import, `CreateBuffers`/`Draw` guards |
| mesh_component.dfy | `MeshComponents` | `MeshComponent`: `Render` guards, pipeline choice and colour defaults, the transform cache |
| scene.dfy | `SceneGraph` | `Scene`, `Entity`, `Component`: entity vector plus id lookup, one component per type |
| texture_loader.dfy | `TextureLoader` | `TextureLoader`: BMP headers, validation, row padding, BGR(A) to RGBA, in-place flip, procedural images, dispatch |
| timer.dfy | `Timing` | `Timer`: integer pause accounting |
| window.dfy | `Windowing` | `Win32Window`: virtual keys, `HandleMessage`, `PollEvents`, one-time class registration |

The renderer's fence has one abstract `completed` value. It never decreases,
and it never passes the largest value signalled (`Renderer.Consistent`). Each
wait is a step after which `completed` is at least the target. The frame
protocol (BeginFrame, EndFrame, Present) is proved against the functions
`EndStep`, `PresentStep` and `WaitGpuStep` over the state `FenceState`.

Floats are kept as their IEEE-754 bit patterns (`u32`) wherever the engine
only stores or copies them: material values and colours. Exact float maths is
left out.

## Model

| member | source | states |
|---|---|---|
| Types.HandleEquals | Source/Core/Utilities/Types.h:59-61 | two handles are equal exactly when index and generation both agree |
| Types.HandleEqualityIsEquivalence | Source/Core/Utilities/Types.h:59-61 | handle equality is reflexive, symmetric and transitive |
| Types.DefaultHandleInvalid | Source/Core/Utilities/Types.h:54-58 | a default handle (index 0, generation 0) is invalid |
| Types.ValidityIgnoresGeneration | Source/Core/Utilities/Types.h:58 | validity is `index != 0` and does not depend on the generation |
| Types.Bit | Source/Core/Utilities/Types.h:93 | `BIT(x)` has exactly one set bit, and shifting it right by x gives 1 |
| Types.BitsAreDisjoint | Source/Core/Utilities/Types.h:93 | distinct bits share no set bit, so they combine into independent flags |
| Rhi.ConvertTopology | Source/Rendering/RHI/DX12RHIContext.cpp:154-165 | every topology maps to a defined (non-zero) D3D topology |
| Rhi.ConvertTopologyInjective | Source/Rendering/RHI/DX12RHIContext.cpp:154-165 | the five topologies map to five distinct D3D topologies |
| Rhi.ConvertFormat | Source/Rendering/RHI/DX12RHIContext.cpp:167-181 | the result is a known DXGI format exactly for the eight buffer formats; sRGB, BC and Unknown give DXGI_FORMAT_UNKNOWN |
| Rhi.ConvertFormatInjectiveOnBufferFormats | Source/Rendering/RHI/DX12RHIContext.cpp:167-181 | distinct buffer formats give distinct DXGI formats |
| Rhi.DescriptorTableFor | Source/Rendering/RHI/DX12RHIContext.cpp:65-93 | a handle-based texture bind records at most one table, and records one exactly when the handle is present and its ptr is non-zero |
| Rhi.DX12RHIContext.constructor | Source/Rendering/RHI/DX12RHIContext.cpp:3-6 | the context records into the list it was given |
| Rhi.DX12RHIContext.SetVertexBuffer | Source/Rendering/RHI/DX12RHIContext.cpp:8-18 | one vertex-buffer command with the view's location, size and stride unchanged |
| Rhi.DX12RHIContext.SetIndexBuffer | Source/Rendering/RHI/DX12RHIContext.cpp:20-30 | one index-buffer command with location and size unchanged and the format converted |
| Rhi.DX12RHIContext.SetConstantBuffer | Source/Rendering/RHI/DX12RHIContext.cpp:32-37 | one root CBV command at the given root index with the view's address |
| Rhi.DX12RHIContext.SetTexture | Source/Rendering/RHI/DX12RHIContext.cpp:45-53 | a view without an SRV binds nothing; otherwise one descriptor table at the slot |
| Rhi.DX12RHIContext.SetSampler | Source/Rendering/RHI/DX12RHIContext.cpp:55-63 | a view without a sampler binds nothing; otherwise one descriptor table at the slot |
| Rhi.DX12RHIContext.SetTextureHandle | Source/Rendering/RHI/DX12RHIContext.cpp:65-93 | a null command list, a null handle or a zero ptr records nothing; otherwise one table |
| Rhi.DX12RHIContext.SetSamplerHandle | Source/Rendering/RHI/DX12RHIContext.cpp:95-103 | a null handle records nothing; otherwise one table at the slot |
| Rhi.DX12RHIContext.SetPrimitiveTopology | Source/Rendering/RHI/DX12RHIContext.cpp:105-110 | one topology command with the converted topology |
| Rhi.DX12RHIContext.SetScissorRect | Source/Rendering/RHI/DX12RHIContext.cpp:127-138 | one scissor command with the rectangle |
| Rhi.DX12RHIContext.DrawIndexed | Source/Rendering/RHI/DX12RHIContext.cpp:140-145 | one indexed draw of exactly one instance |
| Rhi.DX12RHIContext.Draw | Source/Rendering/RHI/DX12RHIContext.cpp:147-152 | one draw of exactly one instance |
| Buffers.AlignedSize | Source/Rendering/Bindable/ConstantBuffer.h:65 | the allocated size is a multiple of 256, at least the size and less than 256 above it |
| Buffers.MaskedAlignment | Source/Rendering/Bindable/ConstantBuffer.h:65 | `(size + 255) & ~255` on 64-bit words is that same multiple of 256 |
| Buffers.AlignedSizeIsSmallest | Source/Rendering/Bindable/ConstantBuffer.h:65 | no smaller multiple of 256 holds the size |
| Buffers.ViewSize | Source/Rendering/Bindable/VertexBuffer.h:60 | the view size is count times stride whenever that fits 32 bits |
| Buffers.ViewSizeTruncates | Source/Rendering/Bindable/VertexBuffer.h:60 | a product past 2^32 is truncated to its low 32 bits |
| Buffers.ConstantBuffer.constructor | Source/Rendering/Bindable/ConstantBuffer.h:34-41 | valid exactly when creation succeeded; the view then spans the aligned size; nothing is written yet |
| Buffers.ConstantBuffer.IsValid | Source/Rendering/Bindable/ConstantBuffer.h:14 | valid exactly while the buffer resource exists (the constructor ties it to the creation outcome) |
| Buffers.ConstantBuffer.CreateBuffer | Source/Rendering/Bindable/ConstantBuffer.h:63-79 | success fills the view with the aligned size; a failed creation leaves view and mapping as they were |
| Buffers.ConstantBuffer.Update | Source/Rendering/Bindable/ConstantBuffer.h:53-61 | the mapped data becomes the argument when valid and mapped, and is untouched otherwise |
| Buffers.ConstantBuffer.Bind | Source/Rendering/Bindable/ConstantBuffer.h:43-51 | an invalid buffer binds nothing; a valid one binds one CBV at its configured root index |
| Buffers.VertexBuffer.constructor | Source/Rendering/Bindable/VertexBuffer.h:33-41 | the count GetVertexCount reports is the input length reduced to 32 bits, whatever the outcome; valid exactly when the list is non-empty and creation succeeded |
| Buffers.VertexBuffer.IsValid | Source/Rendering/Bindable/VertexBuffer.h:14 | valid exactly while the buffer resource exists (the constructor ties it to a non-empty list and the creation outcome) |
| Buffers.VertexBuffer.CreateBuffer | Source/Rendering/Bindable/VertexBuffer.h:53-79 | fails on an empty list or a failed creation, leaving the view as it was; otherwise size is count times stride and stride is the vertex size |
| Buffers.VertexBuffer.Bind | Source/Rendering/Bindable/VertexBuffer.h:43-51 | binds slot 0 with its view only when valid |
| Buffers.IndexBuffer.constructor | Source/Rendering/Bindable/IndexBuffer.cpp:3-10 | the count GetIndexCount reports is the input length reduced to 32 bits, whatever the outcome; valid exactly when non-empty and created |
| Buffers.IndexBuffer.IsValid | Source/Rendering/Bindable/IndexBuffer.h:12 | valid exactly while the buffer resource exists (the constructor ties it to a non-empty list and the creation outcome) |
| Buffers.IndexBuffer.CreateBuffer | Source/Rendering/Bindable/IndexBuffer.cpp:21-46 | fails on an empty list; otherwise size is count times 4 and the format is R32_Uint |
| Buffers.IndexBuffer.Bind | Source/Rendering/Bindable/IndexBuffer.cpp:12-19 | sets the index buffer only when valid |
| Buffers.IndexFormatReachesCommandList | Source/Rendering/Bindable/IndexBuffer.cpp:39-40 | the R32_Uint format reaches the command list as DXGI_FORMAT_R32_UINT |
| Renderer.Fresh | Source/Rendering/Dx12/DX12Renderer.cpp:543-563 | a new fence is consistent, counter 0, all slots 0, frame 0, and the current slot is ready |
| Renderer.WaitFor | Source/Rendering/Dx12/DX12Renderer.cpp:573-579 | after a wait `completed` is at least the target and never lower than before; an already reached target changes nothing |
| Renderer.Advance | Source/Rendering/Dx12/DX12Renderer.cpp:573-579 | the GPU's own progress never moves `completed` back or past the counter |
| Renderer.EndStepSignalsNewValue | Source/Rendering/Dx12/DX12Renderer.cpp:152-154 | EndFrame raises the counter by 1, records it in the current slot only, and it exceeds every recorded value |
| Renderer.PresentStepMovesAndWaits | Source/Rendering/Dx12/DX12Renderer.cpp:565-571 | the frame index moves to (i + 1) mod n and the new slot's value has completed |
| Renderer.WaitGpuDrains | Source/Rendering/Dx12/DX12Renderer.cpp:222-234 | WaitForGpu signals a new value and returns with `completed` at it, hence past every slot's value |
| Renderer.RunFrame | Source/Rendering/Dx12/DX12Renderer.cpp:95-176 | one Begin/End/Present frame keeps the fence consistent, raises the counter by 1 and leaves the next slot ready |
| Renderer.RunFrames | Source/Rendering/Dx12/DX12Renderer.cpp:95-176 | any number of frames keeps the fence consistent and the slot count unchanged |
| Renderer.ResetIsSafeAfterFrames | Source/Rendering/Dx12/DX12Renderer.cpp:99 | from a ready slot, after any frames the slot whose allocator BeginFrame resets has completed |
| Renderer.AllocatorResetSafe | Source/Rendering/Dx12/DX12Renderer.cpp:99 | from a freshly created fence the allocator reset is always safe |
| Renderer.CounterCountsFrames | Source/Rendering/Dx12/DX12Renderer.cpp:152-153 | after k frames the counter has risen by exactly k |
| Renderer.ResizeWithZeros | Source/Rendering/Dx12/DX12Renderer.cpp:553 | `std::vector::resize(n, 0)` keeps the existing values and pads with zeros |
| Renderer.ReinitializeAsWritten | Source/Rendering/Dx12/DX12Renderer.cpp:553-554 | re-creation as written: counter and fence back at 0, the slot values and the slot index kept |
| Renderer.ReinitializeWaitsForUnsignalledValue | Source/Rendering/Dx12/DX12Renderer.cpp:553-554 | after two frames and a re-initialise, the next Present waits for 2 while only 1 has been signalled |
| Renderer.TwoFramesOfThreeSlots | Source/Rendering/Dx12/DX12Renderer.cpp:131-176 | two idle frames on three slots record values 1 and 2 and leave the slot index at 2 |
| Renderer.ReinitializeKeepsStaleFrameIndex | Source/Rendering/Dx12/DX12Renderer.cpp:543-563 | after two frames on three buffers, re-creating with two keeps slot index 2, past the two slots |
| Renderer.ReinitializeCorrected | Source/Rendering/Dx12/DX12Renderer.cpp:553-554 | after the corrected re-creation on n slots, the next EndFrame keeps the fence consistent and Present waits only for a signalled value; after any frames the slot index is below n and its allocator has completed |
| Renderer.DescriptorHandles | Source/Rendering/Dx12/DX12Renderer.cpp:432-454 | back buffer i's RTV handle is heapStart + i * descriptor size |
| Renderer.DX12Renderer.constructor | Source/Rendering/Dx12/DX12Renderer.h:88-127 | not initialised, 0 x 0, two back buffers, frame, back-buffer index and counter 0 |
| Renderer.DX12Renderer.GetCurrentFrameIndex | Source/Rendering/Dx12/DX12Renderer.h:29 | once initialised the frame index is below the back-buffer count and the slot count |
| Renderer.DX12Renderer.Initialize | Source/Rendering/Dx12/DX12Renderer.cpp:18-61 | succeeds exactly with a window, a supported buffer count and successful creation; then one RTV, one allocator and one fence value per buffer, and a fresh fence |
| Renderer.DX12Renderer.CreateResources | Source/Rendering/Dx12/DX12Renderer.cpp:42-47 | after the creation steps, in order: the RTV heap start and increment are recorded, one target per back buffer is laid out, the depth buffer exists, one allocator per back buffer, and the fence is fresh |
| Renderer.DX12Renderer.CreateDescriptorHeaps | Source/Rendering/Dx12/DX12Renderer.cpp:393-415 | the RTV heap's first handle and descriptor increment are the ones the device reports |
| Renderer.DX12Renderer.CreateDepthStencil | Source/Rendering/Dx12/DX12Renderer.cpp:456-506 | the depth buffer and its view exist afterwards |
| Renderer.DX12Renderer.CreateCommandAllocators | Source/Rendering/Dx12/DX12Renderer.cpp:508-524 | one command allocator per back buffer |
| Renderer.DX12Renderer.CreateRenderTargets | Source/Rendering/Dx12/DX12Renderer.cpp:432-454 | one render target per back buffer at heapStart + i * descriptor size |
| Renderer.DX12Renderer.CreateSynchronization | Source/Rendering/Dx12/DX12Renderer.cpp:543-563 | the fence is fresh: counter 0 and every slot value 0 (the corrected behaviour) |
| Renderer.DX12Renderer.WaitForGpu | Source/Rendering/Dx12/DX12Renderer.cpp:222-234 | uninitialised: no effect; otherwise the counter rises by 1 and `completed` reaches it |
| Renderer.DX12Renderer.Shutdown | Source/Rendering/Dx12/DX12Renderer.cpp:63-93 | drains the GPU before releasing targets and allocators; a second call does nothing |
| Renderer.DX12Renderer.BeginFrame | Source/Rendering/Dx12/DX12Renderer.cpp:95-129 | records the swap chain's back-buffer index, targets its RTV, viewport is the window size, fence untouched |
| Renderer.DX12Renderer.Clear | Source/Rendering/Dx12/DX12Renderer.cpp:178-199 | clears the RTV at heapStart + backBufferIndex * descriptor size, the same handle as at creation |
| Renderer.DX12Renderer.EndFrame | Source/Rendering/Dx12/DX12Renderer.cpp:131-155 | the counter rises by 1 and only the current slot records the new value |
| Renderer.DX12Renderer.Present | Source/Rendering/Dx12/DX12Renderer.cpp:157-176 | sync interval 1 with vsync, else 0; only a successful present moves the frame index to (i + 1) mod n and waits for the new slot |
| Renderer.DX12Renderer.MoveToNextFrame | Source/Rendering/Dx12/DX12Renderer.cpp:565-571 | the frame index moves to (i + 1) mod n and the new slot's value has completed |
| Renderer.DX12Renderer.WaitForFrame | Source/Rendering/Dx12/DX12Renderer.cpp:573-579 | returns with `completed` at least the slot's value; no change when it was already reached |
| Renderer.DX12Renderer.Resize | Source/Rendering/Dx12/DX12Renderer.cpp:236-268 | no effect when uninitialised or the size is unchanged; otherwise drains the GPU first, then updates the size and recreates one target per buffer on success |
| Texture.ConvertToD3D12Format | Source/Rendering/Bindable/Texture.cpp:289-306 | only Unknown maps to DXGI_FORMAT_UNKNOWN |
| Texture.ConvertFromD3D12Format | Source/Rendering/Bindable/Texture.cpp:308-325 | any format other than Unknown it returns maps back to the same code |
| Texture.FormatRoundTrip | Source/Rendering/Bindable/Texture.cpp:289-325 | for every format except Unknown, converting to D3D and back gives the format |
| Texture.UnknownFormats | Source/Rendering/Bindable/Texture.cpp:304 | Unknown maps to DXGI_FORMAT_UNKNOWN, and a code outside the table maps back to Unknown |
| Texture.ContextFormatAgreesWithTextureFormat | Source/Rendering/RHI/DX12RHIContext.cpp:167-181 | the context's table agrees with the texture's table on buffer formats, and gives UNKNOWN elsewhere |
| Texture.StagingSize | Source/Rendering/Bindable/Texture.cpp:184-185 | width * height * 4 whatever the format, reduced to 32 bits |
| Texture.FallbackPixelAsWrittenIsYellow | Source/Rendering/Bindable/Texture.cpp:30 | 0xFF00FFFF stored as a little-endian RGBA pixel is the bytes 255, 255, 0, 255: yellow |
| Texture.FallbackPixelIsMagenta | Source/Rendering/Bindable/Texture.cpp:30 | the corrected colour 0xFFFF00FF stores as 255, 0, 255, 255: magenta |
| Texture.FallbackDesc | Source/Rendering/Bindable/Texture.cpp:23-31 | the fallback is 1 x 1, R8G8B8A8_Unorm, one mip, named with "_Fallback", and its pixel fills the staging size |
| Texture.Texture.constructor | Source/Rendering/Bindable/Texture.cpp:7-14 | valid exactly when the resource was created; no data means no pending upload |
| Texture.Texture.IsValid | Source/Rendering/Bindable/Texture.h:18 | valid exactly while the texture resource exists (the constructors tie it to the creation outcomes) |
| Texture.Texture.FromFile | Source/Rendering/Bindable/Texture.cpp:16-33 | a failed load falls back to the 1 x 1 description; valid when either creation succeeded; a fallback that maps its upload buffer stages the single magenta pixel and stays pending until the copy succeeds |
| Texture.Texture.LoadFromFile | Source/Rendering/Bindable/Texture.cpp:82-101 | a failed read changes nothing; success describes the image as R8G8B8A8_Unorm with mips requested by 0 levels |
| Texture.Texture.CreateTexture | Source/Rendering/Bindable/Texture.cpp:130-219 | no data: no upload pending; copy done: none pending; copy failed: pending; a failed upload buffer returns false |
| Texture.Texture.CreateShaderResourceView | Source/Rendering/Bindable/Texture.cpp:221-268 | success needs both the heap and the texture; the GPU handle is taken from the heap |
| Texture.Texture.UploadTextureData | Source/Rendering/Bindable/Texture.cpp:362-384 | the pending flag clears only after a successful copy with both buffers present |
| Texture.Texture.ForceUpload | Source/Rendering/Bindable/Texture.cpp:386-403 | nothing when no upload is pending or a buffer is missing; otherwise uploads the staging size |
| Texture.Texture.UpdateData | Source/Rendering/Bindable/Texture.cpp:107-128 | accepted exactly when valid, data present, mip 0 and at least width * height * 4 bytes |
| Texture.Texture.Cleanup | Source/Rendering/Bindable/Texture.cpp:270-275 | afterwards the texture is invalid and holds no heap, upload buffer or resource |
| Texture.Texture.SetSlot | Source/Rendering/Bindable/Texture.h:28 | the slot is the one given |
| Texture.Texture.Bind | Source/Rendering/Bindable/Texture.cpp:39-80 | records the bind commands chosen by the validity, heap and handle guards |
| Texture.BindGuards | Source/Rendering/Bindable/Texture.cpp:39-80 | a descriptor table is bound exactly when valid, with a heap and a non-zero handle, and then at the texture's slot |
| Samplers.ConvertFilter | Source/Rendering/Bindable/Sampler.cpp:77-110 | the comparison bit is set exactly for comparison samplers and the anisotropy bit exactly when min or mag is anisotropic |
| Samplers.ConvertFilterDecodes | Source/Rendering/Bindable/Sampler.cpp:93-105 | each row of the table yields a filter whose min, mag and mip fields are the requested ones; other combinations fall back to linear-linear-point |
| Samplers.AnisotropyIgnoresMip | Source/Rendering/Bindable/Sampler.cpp:97-98 | when min or mag is anisotropic the result is ANISOTROPIC (or its comparison form) whatever the mip filter |
| Samplers.ComparisonMirrorsRegular | Source/Rendering/Bindable/Sampler.cpp:80-90 | the comparison branch is the regular result plus 0x80, except point-point-linear, which falls back to COMPARISON_MIN_MAG_LINEAR_MIP_POINT |
| Samplers.ConvertAddressMode | Source/Rendering/Bindable/Sampler.cpp:112-120 | every mode maps into WRAP..BORDER |
| Samplers.ConvertAddressModeInjective | Source/Rendering/Bindable/Sampler.cpp:112-120 | the four modes map to four distinct D3D modes |
| Samplers.ToD3D12 | Source/Rendering/Bindable/Sampler.cpp:28-70 | sampler creation never requests a comparison filter, uses COMPARISON_FUNC_NEVER and keeps the anisotropy |
| Samplers.PresetDesc | Source/Rendering/Bindable/Sampler.cpp:123-200 | every preset uses one address mode on all three axes and the given name |
| Samplers.PresetsAsNamed | Source/Rendering/Bindable/Sampler.cpp:123-187 | each preset's filter and address mode are the ones its name says |
| Samplers.ShadowPresetIsNotComparison | Source/Rendering/Bindable/Sampler.cpp:189-200 | the shadow preset yields MIN_MAG_LINEAR_MIP_POINT, not a comparison filter, with Border addressing |
| Samplers.Sampler.constructor | Source/Rendering/Bindable/Sampler.cpp:6-13 | valid exactly when the heap was created; the created sampler is the converted description |
| Samplers.Sampler.IsValid | Source/Rendering/Bindable/Sampler.h:16 | valid exactly while the sampler resource exists (the constructor ties it to the heap creation) |
| Samplers.Sampler.CreateSampler | Source/Rendering/Bindable/Sampler.cpp:28-70 | a failed heap changes nothing else; success creates the converted description |
| Samplers.Sampler.Cleanup | Source/Rendering/Bindable/Sampler.cpp:72-75 | afterwards the sampler is invalid and holds no heap |
| Samplers.Sampler.SetSlot | Source/Rendering/Bindable/Sampler.h:23 | the slot is the one given |
| Samplers.Sampler.Bind | Source/Rendering/Bindable/Sampler.cpp:19-26 | binds one table at the slot only when valid with a non-zero handle |
| Materials.ValueBytes | Source/Rendering/Material.h:28-37 | a value occupies at most the 16 bytes of the union |
| Materials.Store | Source/Rendering/Material.cpp:98-144 | a setter writes the value's bytes at the union's start and keeps the rest |
| Materials.Read | Source/Rendering/Material.cpp:164-189 | a getter exists exactly for Float, Float3 and Float4 (the other types have none), and returns a value of that type |
| Materials.SetThenGet | Source/Rendering/Material.cpp:98-189 | a value set through its typed setter reads back unchanged through the getter of the same type |
| Materials.FloatParameter | Source/Rendering/Material.h:51-55 | a float parameter has type Float, size 4, and holds the value |
| Materials.Float3Parameter | Source/Rendering/Material.h:57-61 | a float3 parameter has type Float3, size 12, and holds the value |
| Materials.Float4Parameter | Source/Rendering/Material.h:63-67 | a float4 parameter has type Float4, size 16, and holds the value |
| Materials.Encoded | Source/Rendering/Material.cpp:218-253 | the bytes written for a parameter are as many as its type fixes (4/8/12/16), not its size field |
| Materials.EncodedAfterSet | Source/Rendering/Material.cpp:218-253 | after a set, a Bool is written as int32 1 or 0 and any other value as its own bytes |
| Materials.Align16 | Source/Rendering/Material.cpp:29 | the aligned offset is the multiple of 16 at or just above the end |
| Materials.Align16IsMask | Source/Rendering/Material.cpp:29 | `x & ~15` on 32-bit words rounds down to a multiple of 16 |
| Materials.Layout | Source/Rendering/Material.cpp:26-32 | the layout keeps one entry per parameter |
| Materials.ParameterBufferSize | Source/Rendering/Material.cpp:33 | the buffer size is a multiple of 16 that covers the last parameter's end |
| Materials.LayoutIsWellLaidOut | Source/Rendering/Material.cpp:26-33 | laying out changes only offsets; they are multiples of 16, increasing, non-overlapping and inside the buffer |
| Materials.CalculateParameterBufferSize | Source/Rendering/Material.cpp:271-277 | the sum of sizes rounded up to 16, a multiple of 16 |
| Materials.CalculatedSizeNeverExceedsLayout | Source/Rendering/Material.cpp:271-277 | that sum never exceeds the laid-out size, so it can only be too small |
| Materials.Names | Source/Rendering/Material.cpp:21-23 | the names of the parameters, in order |
| Materials.NameIndexFindsLastOccurrence | Source/Rendering/Material.cpp:21-23 | a name is in the index exactly when some parameter has it, and it points at the last one with that name |
| Materials.BuildNameIndex | Source/Rendering/Material.cpp:21-23 | the constructor's loop builds that index |
| Materials.ComputeLayout | Source/Rendering/Material.cpp:26-33 | the constructor's running-offset loop gives the layout and the buffer size |
| Materials.Overwrite | Source/Rendering/Material.cpp:243-248 | a copy at an offset changes only the bytes it covers |
| Materials.WriteAll | Source/Rendering/Material.cpp:230-250 | writing every parameter keeps the buffer's length |
| Materials.BufferHoldsEveryParameter | Source/Rendering/Material.cpp:218-253 | after the update every parameter's encoded bytes sit at its offset |
| Materials.OverwriteKeepsBefore | Source/Rendering/Material.cpp:243-248 | bytes before the copy's offset stay as they were |
| Materials.PrefixWellLaidOut | Source/Rendering/Material.cpp:26-33 | the first n parameters of a good layout are a good layout |
| Materials.CopiesOf | Source/Rendering/Material.cpp:222-248 | one copy per parameter, in order: its encoded value at its offset |
| Materials.CopiesDoNotOverlap | Source/Rendering/Material.cpp:26-33 | in a good layout each parameter's copy fits the buffer and every later copy starts at or after its end |
| Materials.CopyHeld | Source/Rendering/Material.cpp:222-250 | a copy's bytes survive every later copy that starts at or after its end |
| Materials.CopyNext | Source/Rendering/Material.cpp:223-248 | one pass of the loop applies the next copy on top of the earlier ones |
| Materials.TexturesBindAtTheirSlots | Source/Rendering/Material.cpp:71-87 | every descriptor table bound for the material is at the slot of one of its Texture2D parameters |
| Materials.Material.constructor | Source/Rendering/Material.cpp:7-50 | copies the description, lays out the parameters, creates the buffer only when its size is above 0, starts dirty |
| Materials.Material.IsValid | Source/Rendering/Material.cpp:92-96 | every material reports valid: as written the initialised flag is or-ed with true |
| Materials.Material.FindParameter | Source/Rendering/Material.cpp:255-269 | finds the last parameter with the name, or reports that none has it |
| Materials.Material.GetParameter | Source/Rendering/Material.cpp:164-189 | returns a value exactly when the name exists with the requested type |
| Materials.Material.SetParameter | Source/Rendering/Material.cpp:98-144 | with a known name and matching type the value changes and the dirty flag is set; otherwise nothing changes |
| Materials.Material.SetTexture | Source/Rendering/Material.cpp:146-162 | ignored unless the parameter is Texture2D; a texture without a sampler gets a linear-wrap sampler |
| Materials.Material.GetTexture | Source/Rendering/Material.cpp:191-194 | returns the texture set for the name, or none |
| Materials.Material.UpdateParameterBuffer | Source/Rendering/Material.cpp:218-253 | a mapped, non-empty buffer receives every parameter's bytes that lie inside it; otherwise it is untouched |
| Materials.Material.UpdateParameters | Source/Rendering/Material.cpp:196-201 | flushes only when dirty, then clears the dirty flag |
| Materials.Material.Bind | Source/Rendering/Material.cpp:59-90 | flushes when dirty, clears the flag, then binds each texture parameter; each texture ends at the slot of the last parameter that bound it, every other texture keeps its slot |
| Materials.BindTextures | Source/Rendering/Material.cpp:71-87 | records the texture binds of every parameter in order, as the textures' bind states were before; those states are kept; each texture ends at the slot of the last parameter that bound it, every other texture keeps its slot |
| Materials.BoundSlotIsLastBinding | Source/Rendering/Material.cpp:71-80 | a texture gets a slot exactly when some valid Texture2D parameter names it, and the slot is that of the last such parameter |
| Materials.BoundSlotStep | Source/Rendering/Material.cpp:71-80 | one more parameter either sets its texture's slot or leaves the slot as it was |
| Materials.BindNext | Source/Rendering/Material.cpp:71-87 | one pass of the loop appends one parameter's bind commands and sets its texture's slot on top of the earlier passes |
| Materials.BindParameterTexture | Source/Rendering/Material.cpp:73-86 | records the bind of one texture parameter and gives its valid texture the parameter's slot, every other texture keeping its slot; the bind states are kept |
| Materials.ZeroSizedIntOverrunsBuffer | Source/Rendering/Material.cpp:26-33 | an Int left at size 0 after a Float lays out at offset 16 of a 16-byte buffer, so its 4 copied bytes lie past the end |
| Materials.BindStates | Source/Rendering/Material.cpp:73-86 | one bind state per named texture, valid exactly when the texture has a resource |
| Materials.CopyBytes | Source/Rendering/Material.cpp:243-248 | the memcpy loop overwrites exactly the target bytes that lie inside the buffer |
| Materials.UnlitDesc | Source/Rendering/Material.cpp:290-298 | an unlit material uses the unlit shaders and has one Float4 parameter "Color" that reads back as the given colour |
| Materials.LitDesc | Source/Rendering/Material.cpp:300-310 | a lit material has "Albedo", "Metallic" and "Roughness" |
| Materials.TexturedDesc | Source/Rendering/Material.cpp:312-333 | a textured material has one "DiffuseTexture" Texture2D parameter at slot 3 with size 0 |
| Materials.DefaultDesc | Source/Rendering/Material.cpp:335-338 | the default material uses the unlit shaders and has one Float4 parameter "Color" that reads back as (1, 0, 1, 1), magenta |
| Materials.FactoryLayouts | Source/Rendering/Material.cpp:290-333 | unlit needs 16 bytes, lit puts its parameters at 0, 16, 32 in 48 bytes, textured needs none |
| Materials.LitLayout | Source/Rendering/Material.cpp:26-33 | a 16/4/4 parameter list lays out at 0, 16, 32, ends at 36 and takes 48 bytes |
| Materials.CalculatedSizeTooSmallForLit | Source/Rendering/Material.cpp:271-277 | for the lit factory the calculated size is 32 where the layout needs 48 |
| Meshes.QuadIndices | Source/Rendering/Mesh.cpp:166-179 | each face contributes six indices |
| Meshes.CubeQuad | Source/Rendering/Mesh.cpp:166-179 | face f's six indices are the triangles (4f, 4f+1, 4f+2) and (4f+2, 4f+3, 4f) |
| Meshes.CubeIndicesAreQuads | Source/Rendering/Mesh.cpp:127-179 | 24 vertices and 36 indices, a multiple of 3; face f uses only vertices 4f..4f+3 |
| Meshes.CubeVertexOnFace | Source/Rendering/Mesh.cpp:128-162 | each vertex carries its face's normal and lies on that face's plane |
| Meshes.CubeFacesAreFlat | Source/Rendering/Mesh.cpp:128-162 | the four vertices of a face share its normal, and the six normals differ |
| Meshes.Triangles | Source/Rendering/Mesh.cpp:91-100 | the kept faces all have three indices |
| Meshes.TriangleIndicesAreTriangles | Source/Rendering/Mesh.cpp:91-103 | the index count is 3 times the triangular faces, in face order |
| Meshes.TrianglesAreTheTriangularFaces | Source/Rendering/Mesh.cpp:91-100 | a face is kept exactly when it has three indices |
| Meshes.Mesh.constructor | Source/Rendering/Mesh.cpp:11-13 | a new mesh is empty, with no buffers and nothing to upload |
| Meshes.Mesh.CreateBuffers | Source/Rendering/Mesh.cpp:182-205 | fails exactly when the renderer is missing or the vertices or indices are empty |
| Meshes.Mesh.CreateCubeVertices | Source/Rendering/Mesh.cpp:125-180 | fills the 24 cube vertices and 36 indices |
| Meshes.Mesh.CreateCube | Source/Rendering/Mesh.cpp:109-123 | 24 vertices and 36 indices with matching counts; succeeds exactly with a renderer |
| Meshes.Mesh.LoadFromFile | Source/Rendering/Mesh.cpp:19-107 | a missing, incomplete or empty scene changes nothing; otherwise the first mesh's vertices and only its triangular faces, counts matching |
| Meshes.Mesh.Draw | Source/Rendering/Mesh.cpp:207-219 | records the draw commands for the mesh's buffers and index count |
| Meshes.Mesh.GetVertexCount | Source/Rendering/Mesh.h:44 | while the counts match the lists, the vertex count is the number of vertices reduced to 32 bits (exactly it below 2^32) |
| Meshes.Mesh.GetIndexCount | Source/Rendering/Mesh.h:45 | while the counts match the lists, the index count is the number of indices reduced to 32 bits (exactly it below 2^32) |
| Meshes.DrawIsOneIndexedDraw | Source/Rendering/Mesh.cpp:207-219 | nothing when the index count is 0; otherwise buffers and triangle-list topology, then exactly one indexed draw, last |
| MeshComponents.Occurrences | Source/Core/Entity/MeshComponent.cpp:38 | a count is 0 exactly when the call does not occur |
| MeshComponents.OccurrencesAppend | Source/Core/Entity/MeshComponent.cpp:38 | counts add over concatenation |
| MeshComponents.MeshComponent.constructor | Source/Core/Entity/MeshComponent.h:43-49 | no mesh or material, visible, casting shadows, white, nothing cached |
| MeshComponents.MeshComponent.GetTransformComponent | Source/Core/Entity/MeshComponent.cpp:239-251 | returns the owner's transform; a filled cache is kept, an empty one is filled |
| MeshComponents.MeshComponent.Render | Source/Core/Entity/MeshComponent.cpp:22-112 | the calls issued are the ones the guards, the pipeline choice and the colour rules select |
| MeshComponents.MeshComponent.RenderPipeline | Source/Core/Entity/MeshComponent.cpp:43-109 | the calls of the emissive, textured or basic branch, with the colour each writes, are those PipelineCalls selects |
| MeshComponents.MeshComponent.RenderWithContext | Source/Core/Entity/MeshComponent.cpp:114-133 | nothing when invisible, meshless or without a transform; otherwise bind material if any, bind mesh, one indexed draw |
| MeshComponents.MeshComponent.SetMesh | Source/Core/Entity/MeshComponent.cpp:135-138 | the mesh is the one given |
| MeshComponents.MeshComponent.SetMaterial | Source/Core/Entity/MeshComponent.cpp:197-200 | the material is the one given |
| MeshComponents.MeshComponent.CreateCube | Source/Core/Entity/MeshComponent.cpp:140-157 | without a renderer fails and keeps the mesh; on success a new cube mesh; on failure no mesh |
| MeshComponents.MeshComponent.LoadFromFile | Source/Core/Entity/MeshComponent.cpp:178-195 | without a renderer fails and keeps the mesh; a bad scene fails and leaves no mesh; success holds the triangles |
| MeshComponents.RenderSkipsExactlyOnGuards | Source/Core/Entity/MeshComponent.cpp:23-29 | Render issues nothing, allocating no index, exactly when invisible or a mesh, renderer, transform, owner or scene is missing |
| MeshComponents.RenderShape | Source/Core/Entity/MeshComponent.cpp:32-111 | upload if needed, allocate, model constants, then exactly one pipeline bind and one other step, then the draw |
| MeshComponents.OneObjectIndexPerRender | Source/Core/Entity/MeshComponent.cpp:38-41 | exactly one index is allocated, and the model constants go to it right after |
| MeshComponents.EmissivePath | Source/Core/Entity/MeshComponent.cpp:46-70 | the emissive pipeline is chosen exactly when the material's name contains "Light" or "Emissive" |
| MeshComponents.TexturedPath | Source/Core/Entity/MeshComponent.cpp:47-80 | the textured pipeline is chosen exactly when not emissive and a "DiffuseTexture" is set; it writes no material constants |
| MeshComponents.BasicPath | Source/Core/Entity/MeshComponent.cpp:81-109 | the basic pipeline is chosen exactly when neither of the others is |
| MeshComponents.MaterialColourDefaults | Source/Core/Entity/MeshComponent.cpp:55-107 | material constants go to the object's index; gray 0.7 without a material, else the material's "Color" (white when absent) |
| MeshComponents.UploadFirstDrawLast | Source/Core/Entity/MeshComponent.cpp:32-34 | a mesh needing upload is uploaded first, and the draw is the last and only draw |
| SceneGraph.Component.constructor | Source/Core/Entity/Component.h:30-31 | a new component has no owner and is active |
| SceneGraph.Component.SetOwner | Source/Core/Entity/Component.h:23 | the owner is the one given |
| SceneGraph.EntityIdCounter.constructor | Source/Core/Entity/Entity.cpp:7 | the process-wide counter starts at 1 |
| SceneGraph.Entity.constructor | Source/Core/Entity/Entity.cpp:5-11 | a non-zero id is kept; id 0 takes the counter's next value, which then rises by 1; active, no scene, no components |
| SceneGraph.Entity.GetComponent | Source/Core/Entity/Entity.h:92-98 | the stored component of the type, or null when none |
| SceneGraph.Entity.HasComponent | Source/Core/Entity/Entity.h:100-104 | true exactly when a component of the type is stored |
| SceneGraph.Entity.RegisterComponent | Source/Core/Entity/Entity.cpp:38-40 | replaces any entry for the type |
| SceneGraph.Entity.AddComponent | Source/Core/Entity/Entity.h:68-90 | an existing component of the type is returned and kept; otherwise a new active one owned by the entity is added |
| SceneGraph.Entity.RemoveComponent | Source/Core/Entity/Entity.h:107-120 | true exactly when one was present; afterwards the type is gone and others are untouched |
| SceneGraph.Entity.Visit | Source/Core/Entity/Entity.cpp:27-36 | an inactive entity or a missing renderer visits nothing; otherwise exactly the active components |
| SceneGraph.Scene.constructor | Source/Core/Scene/Scene.h:55-61 | named "Untitled Scene", active, empty, next id 1 |
| SceneGraph.Scene.GenerateEntityID | Source/Core/Scene/Scene.cpp:116-118 | returns the next id and raises it by 1 |
| SceneGraph.Scene.SpawnEntity | Source/Core/Scene/Scene.h:72-97 | appends one new entity with the fresh id, this scene, and a transform it owns; FindEntity then returns it |
| SceneGraph.Scene.RegisterEntity | Source/Core/Scene/Scene.cpp:120-124 | the lookup maps the entity's id to it |
| SceneGraph.Scene.UnregisterEntity | Source/Core/Scene/Scene.cpp:126-133 | the entity's id leaves the lookup |
| SceneGraph.Scene.FindEntity | Source/Core/Scene/Scene.cpp:45-48 | the registered entity for the id, or null |
| SceneGraph.Scene.FindEntityFindsMembers | Source/Core/Scene/Scene.cpp:45-48 | an id is found exactly when some entity of the scene has it, and the result is that entity |
| SceneGraph.Scene.IndexOf | Source/Core/Scene/Scene.cpp:23-26 | the first position of the entity, or the end |
| SceneGraph.Scene.DestroyEntity | Source/Core/Scene/Scene.cpp:19-43 | a member leaves both the vector and the lookup, the others keep their order, true; null or unknown: false, nothing changes |
| SceneGraph.Scene.DestroyEntityById | Source/Core/Scene/Scene.cpp:14-17 | true exactly for a registered id; the entity it maps to is then cut out of the list, the others keeping their order, and the id unregistered; otherwise nothing changes |
| SceneGraph.Scene.FindEntityByName | Source/Core/Scene/Scene.cpp:50-57 | the first entity with the name in spawn order, or null when none has it |
| SceneGraph.Scene.VisitActive | Source/Core/Scene/Scene.cpp:94-114 | an inactive scene or a missing renderer visits nothing; otherwise the active entities in order |
| SceneGraph.Scene.EndPlay | Source/Core/Scene/Scene.cpp:83-92 | visits every entity regardless of activity |
| SceneGraph.RemovedAt | Source/Core/Scene/Scene.cpp:37 | erasing position i shifts the later entities down by one |
| SceneGraph.RemovedKeeps | Source/Core/Scene/Scene.cpp:37 | every other entity survives an erase |
| SceneGraph.RemovalKeepsRegistered | Source/Core/Scene/Scene.cpp:19-43 | erasing an entity and its id keeps the vector and the lookup in agreement, and the entity is gone |
| SceneGraph.ActiveEntitiesAreTheActiveOnes | Source/Core/Scene/Scene.cpp:94-114 | the visited entities are exactly the scene's active ones |
| TextureLoader.EncodeFileHeader | Source/Core/Utilities/TextureLoader.h:7-15 | the packed file header is 14 bytes |
| TextureLoader.EncodeInfoHeader | Source/Core/Utilities/TextureLoader.h:17-29 | the packed info header is 40 bytes |
| TextureLoader.FileHeaderRoundTrip | Source/Core/Utilities/TextureLoader.h:7-15 | reading the 14 packed bytes gives every field back |
| TextureLoader.SignedFieldRoundTrip | Source/Core/Utilities/TextureLoader.h:17-29 | signed width and height survive their two's-complement bytes |
| TextureLoader.InfoHeaderRoundTrip | Source/Core/Utilities/TextureLoader.h:17-29 | reading the 40 packed bytes gives every field back |
| TextureLoader.SignatureIsBM | Source/Core/Utilities/TextureLoader.cpp:102 | the signature 0x4D42 is the characters 'B', 'M' in file order |
| TextureLoader.ValidationSeesTheFileFields | Source/Core/Utilities/TextureLoader.cpp:100-119 | headers read from a file are accepted exactly with signature 0x4D42, depth 24 or 32, and no compression |
| TextureLoader.ValidateBMPHeaders | Source/Core/Utilities/TextureLoader.cpp:100-119 | accepts exactly the 'BM' signature, 24 or 32 bits per pixel, and no compression |
| TextureLoader.PaddedRowBytes | Source/Core/Utilities/TextureLoader.cpp:50 | the padded row is a multiple of 4 bytes holding the row's bits with under 32 bits to spare |
| TextureLoader.RowStrideHoldsRow | Source/Core/Utilities/TextureLoader.cpp:50 | for 24 and 32 bits the stride is a multiple of 4, holds the pixels, and pads by under 4 bytes |
| TextureLoader.ConversionReadsInsideRow | Source/Core/Utilities/TextureLoader.cpp:121-148 | converting a pixel reads only its own row's pixel bytes, never padding |
| TextureLoader.RasterLength | Source/Core/Utilities/TextureLoader.cpp:166-232 | a generated image has 4 * w * h bytes |
| TextureLoader.RasterPixel | Source/Core/Utilities/TextureLoader.cpp:166-232 | pixel (x, y) of a generated image sits at (y * w + x) * 4 |
| TextureLoader.CheckerAlternates | Source/Core/Utilities/TextureLoader.cpp:166-186 | moving one cell flips the colour, alpha is 255, and the corner is white |
| TextureLoader.FallbackCellSizes | Source/Core/Utilities/TextureLoader.cpp:172 | the cell size is max(1, min(w, h) / 8): 8, 16 and 32 for the fallback sizes |
| TextureLoader.GradientRange | Source/Core/Utilities/TextureLoader.cpp:213-232 | a gradient channel is v * 255 / extent, from 0 and below 255 |
| TextureLoader.SolidRasterIsRepeat | Source/Core/Utilities/TextureLoader.cpp:195-211 | a solid image is w * h copies of the colour |
| TextureLoader.IsValid | Source/Core/Utilities/TextureLoader.h:38 | an image is valid exactly with pixels and a positive width and height |
| TextureLoader.GetDataSize | Source/Core/Utilities/TextureLoader.h:39 | width * height * channels when that fits 32 bits |
| TextureLoader.DataSize | Source/Core/Utilities/TextureLoader.h:39 | the exact byte count, 4 * w * h for RGBA |
| TextureLoader.GetDataSizeWraps | Source/Core/Utilities/TextureLoader.h:39 | a 65536 x 65536 RGBA image needs 2^34 bytes, yet the 32-bit product is 0 |
| TextureLoader.DefaultImageIsInvalid | Source/Core/Utilities/TextureLoader.h:33-38 | a default image is 0 x 0 without pixels, hence invalid |
| TextureLoader.ImageOf | Source/Core/Utilities/TextureLoader.h:38 | a generated image is valid exactly when both sides are positive |
| TextureLoader.FillRaster | Source/Core/Utilities/TextureLoader.cpp:166-232 | the nested loops write every pixel of the image in row order |
| TextureLoader.FillRow | Source/Core/Utilities/TextureLoader.cpp:176-190 | the inner loop writes one row and nothing else |
| TextureLoader.WritePixel | Source/Core/Utilities/TextureLoader.cpp:184-187 | four stores write one pixel and nothing else |
| TextureLoader.CreateSolidColor | Source/Core/Utilities/TextureLoader.cpp:195-211 | every pixel is the given colour |
| TextureLoader.FillSolid | Source/Core/Utilities/TextureLoader.cpp:203-208 | the flat loop writes the colour count times |
| TextureLoader.CreateTestPattern | Source/Core/Utilities/TextureLoader.cpp:166-193 | a checkerboard for "checkerboard", otherwise solid magenta |
| TextureLoader.CreateGradient | Source/Core/Utilities/TextureLoader.cpp:213-232 | red follows x, green follows y, blue 128, alpha 255 |
| TextureLoader.RowStartIsProduct | Source/Core/Utilities/TextureLoader.cpp:150-163 | row y starts at y * rowSize |
| TextureLoader.FlipRows | Source/Core/Utilities/TextureLoader.cpp:150-163 | the reversed rows have the rows' total length |
| TextureLoader.Flipped | Source/Core/Utilities/TextureLoader.cpp:150-163 | a flip keeps the buffer's length |
| TextureLoader.FlippedAt | Source/Core/Utilities/TextureLoader.cpp:150-163 | row y of the flipped image is row h - 1 - y of the original |
| TextureLoader.FlippedRows | Source/Core/Utilities/TextureLoader.cpp:150-163 | the flip moves every row to its mirror and keeps the bytes after the rows |
| TextureLoader.FlipTwiceIsIdentity | Source/Core/Utilities/TextureLoader.cpp:150-163 | flipping twice gives the image back |
| TextureLoader.MiddleRowStays | Source/Core/Utilities/TextureLoader.cpp:150-163 | in an odd-height image the middle row is untouched |
| TextureLoader.SwapBytes | Source/Core/Utilities/TextureLoader.cpp:157-161 | two row buffers are exchanged |
| TextureLoader.SwapRows | Source/Core/Utilities/TextureLoader.cpp:157-161 | rows i and j are exchanged, nothing else changes |
| TextureLoader.FlipImageVertically | Source/Core/Utilities/TextureLoader.cpp:150-163 | the in-place row swaps leave the flipped image |
| TextureLoader.ConvertToRGBA | Source/Core/Utilities/TextureLoader.cpp:121-148 | BGR(A) rows become RGBA with R and B swapped, alpha 255 for 24-bit and copied for 32-bit; other depths store nothing |
| TextureLoader.Abs32 | Source/Core/Utilities/TextureLoader.cpp:44-45 | the size is the absolute value of the signed field |
| TextureLoader.HeaderBytes | Source/Core/Utilities/TextureLoader.cpp:29-33 | the header bytes are the file's first 54 |
| TextureLoader.SourceData | Source/Core/Utilities/TextureLoader.cpp:51-55 | the pixel data is the file's bytes from the offset, zero past the end |
| TextureLoader.Decoded | Source/Core/Utilities/TextureLoader.cpp:57-62 | the converted image has 4 bytes per pixel |
| TextureLoader.BmpImage | Source/Core/Utilities/TextureLoader.cpp:21-73 | the loaded image is RGBA and its pixels fill its data size |
| TextureLoader.LoadBMP | Source/Core/Utilities/TextureLoader.cpp:21-73 | reads, validates, converts and, for positive heights, flips |
| TextureLoader.DecodePixels | Source/Core/Utilities/TextureLoader.cpp:51-62 | the read and conversion give the decoded rows in file order |
| TextureLoader.FlipRGBA | Source/Core/Utilities/TextureLoader.cpp:65-67 | the loaded image is flipped as RGBA rows |
| TextureLoader.BmpRejects | Source/Core/Utilities/TextureLoader.cpp:24-42 | an unreadable file or rejected headers give the invalid default image |
| TextureLoader.BmpPixel | Source/Core/Utilities/TextureLoader.cpp:44-67 | each loaded pixel comes from the file row h - 1 - y when biHeight > 0 and from row y otherwise |
| TextureLoader.OrientedPixel | Source/Core/Utilities/TextureLoader.cpp:44-67 | byte c of pixel (x, y) of the decoded image is channel c of the converted pixel from file row h - 1 - y when biHeight > 0, row y otherwise |
| TextureLoader.FlippedPixel | Source/Core/Utilities/TextureLoader.cpp:150-163 | pixel (x, y) of the flipped image is pixel (x, h - 1 - y) of the original |
| TextureLoader.EndsWithIffSuffix | Source/Core/Utilities/TextureLoader.cpp:8-13 | the extension test holds exactly when the name ends with the suffix |
| TextureLoader.ContainsIffOccurs | Source/Core/Utilities/TextureLoader.cpp:81-96 | the substring test holds exactly when the part occurs somewhere |
| TextureLoader.FormatIsCaseExact | Source/Core/Utilities/TextureLoader.cpp:6-19 | ".bmp"/".BMP" and ".dds"/".DDS" are recognised; mixed case and others are not |
| TextureLoader.LoadDDS | Source/Core/Utilities/TextureLoader.cpp:75-98 | picks its fallback image from "bricks" and "nmap" in the path |
| TextureLoader.LoadFromFile | Source/Core/Utilities/TextureLoader.cpp:6-19 | dispatches on the extension, or returns a 64 x 64 checkerboard |
| TextureLoader.OnlyBmpCanFail | Source/Core/Utilities/TextureLoader.cpp:6-19 | DDS and unsupported paths always give a valid square RGBA image |
| TextureLoader.NormalMapFallback | Source/Core/Utilities/TextureLoader.cpp:81-87 | a bricks normal map falls back to (128, 128, 255, 255) everywhere |
| TextureLoader.CheckerPixel | Source/Core/Utilities/TextureLoader.cpp:166-186 | a checkerboard pixel is white or black by the parity of its cell, opaque |
| TextureLoader.UnsupportedIsCheckerboard | Source/Core/Utilities/TextureLoader.cpp:16-18 | the unsupported fallback is 8 x 8 cells of 8 pixels |
| Timing.ResetAt | Source/Core/Application/Timer.cpp:32-43 | base and previous time are now, stop, paused and frame counts 0, running |
| Timing.StopIsIdempotent | Source/Core/Application/Timer.cpp:24-30 | a second stop changes nothing, so the first stop time is kept |
| Timing.StartOnRunningTimerChangesNothing | Source/Core/Application/Timer.cpp:13-22 | starting a running timer changes nothing |
| Timing.StartAfterStop | Source/Core/Application/Timer.cpp:13-30 | start after stop adds the stopped interval to the paused time and resumes from now |
| Timing.TickWhileStopped | Source/Core/Application/Timer.cpp:45-49 | a stopped tick zeroes the delta and keeps frame count, previous time and total |
| Timing.TickWhileRunning | Source/Core/Application/Timer.cpp:51-72 | a running tick counts one frame, moves the previous time to now, and its delta is never negative |
| Timing.ApplyKeepsAccounted | Source/Core/Application/Timer.cpp:13-73 | each operation keeps the paused-time accounting against an independent stopwatch |
| Timing.ReplayIsAccounted | Source/Core/Application/Timer.cpp:8-73 | over any chronological history the timer's accounting matches the stopwatch |
| Timing.TotalTimeExcludesPauses | Source/Core/Application/Timer.cpp:45-73 | the total a running tick reports is the running time since reset, pauses excluded |
| Timing.Timer.constructor | Source/Core/Application/Timer.cpp:8-11 | a new timer is the initial state reset at the first reading |
| Timing.Timer.Start | Source/Core/Application/Timer.cpp:13-22 | the new state is the start step of the old |
| Timing.Timer.Stop | Source/Core/Application/Timer.cpp:24-30 | the new state is the stop step of the old |
| Timing.Timer.Reset | Source/Core/Application/Timer.cpp:32-43 | the new state is the reset step of the old |
| Timing.Timer.Tick | Source/Core/Application/Timer.cpp:45-73 | the new state is the tick step of the old |
| Timing.Timer.IsRunning | Source/Core/Application/Timer.h:22 | running exactly when the timer's state is not stopped |
| Windowing.ButtonIndex | Source/Core/Window/Window.h:33-37 | each button has one of the three slots |
| Windowing.VirtualKeyToKeyCode | Source/Platform/Windows/Win32Window.cpp:288-323 | every key code indexes the 256 key states and is either the virtual key itself or Unknown |
| Windowing.KeyCodesAreVirtualKeys | Source/Platform/Windows/Win32Window.cpp:288-323 | a recognised virtual key maps to the key code of the same value, anything else to Unknown |
| Windowing.NamedKeys | Source/Platform/Windows/Win32Window.cpp:288-323 | Escape, Enter, F12, letters and digits map to their like-named keys |
| Windowing.SignedWord | Source/Platform/Windows/Win32Window.cpp:231-232 | a mouse coordinate is the 16-bit word read as signed |
| Windowing.Process | Source/Platform/Windows/Win32Window.cpp:161-263 | the input state stays well formed; exactly the handled messages return 0, and every other message goes to the default procedure and changes nothing |
| Windowing.Poll | Source/Platform/Windows/Win32Window.cpp:122-135 | the pump keeps the input state well formed |
| Windowing.CloseFlagIsSticky | Source/Platform/Windows/Win32Window.cpp:163-174 | WM_CLOSE and WM_DESTROY set the close flag and no message clears it |
| Windowing.PollCloseFlag | Source/Platform/Windows/Win32Window.cpp:122-135 | a WM_QUIT in the queue sets the close flag, and a set flag stays set |
| Windowing.PollStopsAtQuit | Source/Platform/Windows/Win32Window.cpp:122-135 | the pump stops at the first WM_QUIT and leaves the rest queued |
| Windowing.ResizeOnlyOnChange | Source/Platform/Windows/Win32Window.cpp:176-190 | the size is stored, and the callback fires only when it differs from the stored one |
| Windowing.KeyStates | Source/Platform/Windows/Win32Window.cpp:192-205 | key down/up sets only that key's state; unknown keys write slot 0 |
| Windowing.MouseButtonStates | Source/Platform/Windows/Win32Window.cpp:207-228 | R messages are Right, M messages Middle, others Left; pressed exactly on a DOWN message |
| Windowing.MouseMoveDelta | Source/Platform/Windows/Win32Window.cpp:230-247 | the delta is the new position minus the last, and the last becomes the new |
| Windowing.WindowClassRegistry.constructor | Source/Platform/Windows/Win32Window.cpp:6 | no class is registered at start |
| Windowing.WindowClassRegistry.Register | Source/Platform/Windows/Win32Window.cpp:265-286 | the window class is registered at most once per process |
| Windowing.Win32Window.constructor | Source/Platform/Windows/Win32Window.h:56-76 | no window, 0 x 0, not closing, no keys or buttons pressed, mouse at 0, no callbacks |
| Windowing.Win32Window.Create | Source/Platform/Windows/Win32Window.cpp:24-96 | succeeds exactly when the class is or gets registered and the window is created; then the size is the requested one; a failed creation after registration leaves no window handle |
| Windowing.Win32Window.Destroy | Source/Platform/Windows/Win32Window.cpp:98-103 | afterwards there is no window; a live window first goes through WM_DESTROY, as Process handles it (closing and posting quit); without one the close and quit flags are kept |
| Windowing.Win32Window.IsKeyPressed | Source/Platform/Windows/Win32Window.cpp:144-146 | the key's slot of the input state the messages set |
| Windowing.Win32Window.IsMouseButtonPressed | Source/Platform/Windows/Win32Window.cpp:148-150 | the button's slot of the input state the messages set |
| Windowing.Win32Window.HandleMessage | Source/Platform/Windows/Win32Window.cpp:161-263 | the new input state and the events fired are those of the message step |
| Windowing.Win32Window.HandleKey | Source/Platform/Windows/Win32Window.cpp:192-205 | a key message sets that key's state (pressed on WM_KEYDOWN) and fires one key event carrying the repeat bit |
| Windowing.Win32Window.HandleButton | Source/Platform/Windows/Win32Window.cpp:207-228 | a button message sets that button's state (pressed on a DOWN message) and fires one button event at the cursor |
| Windowing.Win32Window.PollEvents | Source/Platform/Windows/Win32Window.cpp:122-135 | the state, events and remaining queue are those of the pump over the queue |

## Left out

- Materials.Material.UpdateParameterBuffer: bytes a copy would put at or past the buffer's end are dropped. The engine's memcpy writes `sizeof(type)` bytes whatever the parameter's `size` says, so a parameter left at the default size 0 (an Int after a Float, ZeroSizedIntOverrunsBuffer) is written past the mapped buffer. That out-of-bounds write is not modelled.
- Materials.CopyBytes: for the same reason it skips indices at or past the array's length, where memcpy would write.
- Materials.ComputeLayout: offsets and the buffer size are unbounded naturals; the engine's uint32 `currentOffset` and `m_parameterBufferSize` wrap past 2^32, which is not modelled.
- Device, queue, swap chain, descriptor heaps, committed resources, the debug layer and the PSO/root signature are D3D12/DXGI calls. Their outcomes are parameters. Fence waits are steps after which `completed` reaches the target. GPU asynchrony (concurrency) is not modelled.
- `DX12RHIContext::SetViewport` converts floats to LONGs and is not modelled. `SetVertexShader`/`SetPixelShader` have empty bodies.
- `DX12Renderer::SetViewport`, `GetGpuMemoryUsage` and `CreateCommandAllocators` are not modelled beyond the allocator count.
- Renderer.DX12Renderer.CreateSynchronization: performs the corrected re-creation (every slot value 0, slot index 0); the engine keeps the old slot values with `resize(n, 0)` and never resets the slot index, which ReinitializeAsWritten models (see Findings).
- Renderer.DX12Renderer.Initialize: a second Initialize after Shutdown starts from the corrected fresh fence state, not the stale slot values and slot index the engine keeps (see Findings).
- Renderer.DX12Renderer.CreateResources: ends in the corrected CreateSynchronization, so its fence is fresh where the engine's may hold stale slot values and a stale slot index.
- Renderer.DX12Renderer.Resize: a failed swap-chain resize is an exception in the engine; here it is `ok == false` with the targets released.
- Renderer.DX12Renderer.Present: device-removed and other failures throw in the engine; here they return `false` with the fence untouched.
- Functions defined outside the core are abstract: `AllocateObjectIndex`, `UpdateMaterialConstants`, the `BindFor*Rendering` pipelines, `CreateBuffer`, `CopyUploadToTexture`, `ExecuteUploadCommands`, `Mesh::UploadData` and `Mesh::Bind`. `MeshComponent::Render` returns the calls it makes instead of performing them.
- MeshComponents.MeshComponent.Render: the material bind and the mesh draw are named calls; `Material::Bind` and `Mesh::Draw` are proved on their own.
- `MeshComponent::SetTexture` builds a material from a file path and is not modelled.
- `Mesh::CreateSphere` is float trigonometry and is not modelled. The Assimp import is a parameter (`AiScene`); the part after it is modelled.
- Floating-point values are bit patterns: material values, colours and the cube's coordinates (kept as reals). Camera, transform maths and `TextureLoader::CreateUVTest` are not modelled.
- Texture.Texture.FromFile: takes the already-resolved debug name (the engine uses the file path when the debug name is empty).
- Texture.Texture.FromFile: stages the corrected magenta pixel `0xFFFF00FF`, not the engine's `0xFF00FFFF`, whose bytes are yellow (see Findings: FallbackPixelAsWrittenIsYellow states what the engine stages).
- `Texture::CreateSolidColor`/`CreateCheckerboard` only wrap the loader's generators and the texture constructor, both modelled.
- TextureLoader.LoadBMP: `rowSize * height` and the pixel buffer sizes are exact here; the engine computes them in 32 bits (see GetDataSizeWraps). Bytes past the end of a short file read as 0. For the pixel data this matches the engine's zero-filled buffer; the engine's `BMPFileHeader` and `BMPInfoHeader` locals (TextureLoader.cpp:31, 35) are not initialised, so a file shorter than 54 bytes leaves header fields indeterminate there, while HeaderBytes reads them as 0.
- `ifstream` reads are a byte sequence given as a parameter (None when the file cannot be opened).
- Timing.Timer.Tick: delta and total are kept in counter ticks. The frequency division, `UpdateFPS`, FPS and the int64 counters' overflow are not modelled.
- SceneGraph.Scene.GenerateEntityID: ids are unbounded; the engine's `uint32` wraps after 2^32 spawns.
- `Entity::Update`/`Render` iterate an `unordered_map`, so the model states which components are visited and not the order. `Scene::Initialize` and the per-entity `BeginPlay`/`Update` hooks are abstract.
- Window plumbing is not modelled: `AdjustWindowRect`, centring, `Show`/`Hide`/`SetTitle`, `TranslateMessage`/`DispatchMessage` and `DefWindowProcW`. The wheel delta is the raw signed word. Callbacks are the events they would receive. Every `ASSERT` of the engine is modelled as in a release build, where it does nothing: the single-instance check of the window, the `default:` cases of `ConvertTopology` and `ConvertFormat`, and the checks in `ConstantBuffer::Update`/`Bind` and `VertexBuffer::Bind`.
- ShaderManager, Camera, TransformComponent, Application and WinMain are not part of this model.

## Findings

| source | as written | input that shows it | evidently intended | confidence | as-written member | corrected member |
|---|---|---|---|---|---|---|
| Source/Rendering/Dx12/DX12Renderer.cpp:553-554 | re-creation resizes `m_fenceValues` with `resize(n, 0)`, which keeps the old values, while the new fence and counter start at 0 | Initialize, two frames, Shutdown, Initialize, EndFrame: Present then waits for fence value 2 when only 1 has been signalled, and blocks forever | every slot value reset to 0 with the new fence | not executed | Renderer.ReinitializeWaitsForUnsignalledValue | Renderer.ReinitializeCorrected |
| Source/Rendering/Dx12/DX12Renderer.cpp:543-563 | re-creation never resets `m_currentFrameIndex`; only MoveToNextFrame writes it | Initialize with three back buffers, two frames, Shutdown, Initialize with two: BeginFrame resets `m_commandAllocators[2]` and EndFrame writes `m_fenceValues[2]`, both past the end | the slot index reset to 0 with the new fence | not executed | Renderer.ReinitializeKeepsStaleFrameIndex | Renderer.ReinitializeCorrected |
| Source/Rendering/Bindable/Texture.cpp:30 | the fallback pixel `0xFF00FFFF` is stored as a uint32 into an R8G8B8A8 texture, so its bytes are 255, 255, 0, 255 | any texture whose file fails to load | magenta (255, 0, 255, 255), the "pink" the code names | not executed | Texture.FallbackPixelAsWrittenIsYellow | Texture.FallbackPixelIsMagenta |
| Source/Rendering/Material.cpp:271-277 | `CalculateParameterBufferSize` sums the sizes without the 16-byte padding between parameters | the lit factory's Albedo/Metallic/Roughness: 32 bytes where the layout needs 48 (it has no caller at present) | the size the constructor's layout gives | not executed | Materials.CalculatedSizeTooSmallForLit | Materials.LayoutIsWellLaidOut |
| Source/Core/Utilities/TextureLoader.h:39 | `GetDataSize` multiplies width, height and channels in uint32 | a 65536 x 65536 RGBA image: 0 instead of 2^34 | the exact byte count | not executed | TextureLoader.GetDataSizeWraps | TextureLoader.DataSize |
