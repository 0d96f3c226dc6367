# Vulkan renderer core, modelled in Dafny

This project models the parts of the renderer that hold logic: it leaves out the calls that bring Vulkan up. They are:

- **`VulkanDynamicBuffer<T>`** (`DynamicBuffer.dfy`, `Alignment.dfy`): an array of `maxInstances` records packed into one uniform buffer.
  - The per-instance stride is computed with the bit trick `(s + m - 1) & ~(m - 1)` on `size_t`.
  - Instance `i` is written at byte `stride * i`.
- **`VulkanBuffer`** (`GpuBuffer.dfy`): a fixed-size host-visible allocation.
  - `map` and `unmap` are guarded flag flips.
  - `update` is map, copy, flush whole range, unmap.
  - Only the byte effect of `transferDataFrom` is modelled.
- **`ResourceManager`** (`Resources.dfy`): a cache from file path to a weak reference, plus a table from manifest type string to factory.
  - Shared and weak pointers are made explicit. Resources live in an arena (`ResourceHeap`) with strong counts.
  - A weak reference is a handle. It has expired when its count is zero.
- **`VulkanMeshRenderManager`** (`MeshRenderManager.dfy`): one dynamic buffer and one descriptor set per frame in flight.
  - The draw loop writes each element's MVP matrix into the current frame's buffer.
  - It then binds that frame's set at the dynamic offset `stride * index`, cast to `uint32_t`.
- **`VulkanRenderer`** (`Renderer.dfy`):
  - the validation-layer check;
  - physical-device selection;
  - one framebuffer per swapchain image, and one command buffer per framebuffer, each recorded against its framebuffer.

Common pieces:

- `Bytes.dfy` holds the byte type, the `uint32_t` cast (`ToU32`, reduction mod 2^32) and `Splice`, the contents of a byte range after a copy into it.
- `Wrappers.dfy` holds `Option`.
- Vulkan and allocator calls are recorded in order as abstract events (`MemoryCall`, `Command`, `RenderCommand`). They are not executed.

Stride preconditions:

- The stride formula is modelled with bitwise AND and NOT written out on unbounded integers. The proof shows that the formula is the least multiple of `m` that is at least `s`.
- This holds only because the Vulkan specification requires `minUniformBufferOffsetAlignment` to be a power of two. That, together with no `size_t` overflow in `s + m - 1`, is the precondition `AlignmentInputsOk`.

## Model

| member | source | states |
|---|---|---|
| Alignment.AlignUp | include/Engine/Renderer/Vulkan/VulkanDynamicBuffer.h:68-75 | With minimum 0 the stride is `sizeof(T)`. Otherwise it is a multiple of the minimum, is at least `sizeof(T)`, and is below `sizeof(T) + m`. |
| Alignment.AlignUpIsLeast | include/Engine/Renderer/Vulkan/VulkanDynamicBuffer.h:74 | Every multiple of `m` that is at least `s` is at least the stride, so the stride is the smallest such multiple. |
| Alignment.MaskIsRoundDown | include/Engine/Renderer/Vulkan/VulkanDynamicBuffer.h:74 | `x & ~(m - 1)` on 64 bits, for a power-of-two `m`, is `x` rounded down to a multiple of `m`. |
| Alignment.SmallRecordStrideIsAlignment | include/Engine/Renderer/Vulkan/VulkanDynamicBuffer.h:70-75 | A record no larger than a non-zero minimum alignment gets a stride equal to that alignment, so 64-byte matrices at a 256-byte minimum get a stride of 256. |
| GpuBuffer.VulkanBuffer.constructor | src/Engine/Renderer/Vulkan/VulkanBuffer.cpp:3-31 | The buffer keeps the requested size, has that many bytes, starts unmapped and has made no calls. |
| GpuBuffer.VulkanBuffer.Map | src/Engine/Renderer/Vulkan/VulkanBuffer.cpp:39-50 | Afterwards the buffer is mapped. The allocator's map is called only if it was not mapped before, so a second `map` does nothing. |
| GpuBuffer.VulkanBuffer.Unmap | src/Engine/Renderer/Vulkan/VulkanBuffer.cpp:52-58 | Afterwards the buffer is unmapped and its pointer is null. The allocator's unmap is called only if it was mapped. |
| GpuBuffer.VulkanBuffer.Flush | src/Engine/Renderer/Vulkan/VulkanBuffer.cpp:60-67 | The flushed range is always `[0, size)`. |
| GpuBuffer.VulkanBuffer.Update | src/Engine/Renderer/Vulkan/VulkanBuffer.cpp:69-75 | Bytes `[offset, offset + n)` become `data[0..n)` and every other byte is unchanged. The calls are map (if it was unmapped), flush, unmap. The buffer ends unmapped. |
| GpuBuffer.VulkanBuffer.TransferDataFrom | src/Engine/Renderer/Vulkan/VulkanBuffer.cpp:77-111 | The first `other.size` bytes become the other buffer's bytes and the rest are unchanged. One copy of `other.size` bytes is recorded. |
| GpuBuffer.VulkanBuffer.GetSize | src/Engine/Renderer/Vulkan/VulkanBuffer.cpp:115 | Returns the size fixed at construction. |
| GpuBuffer.VulkanBuffer.Destroy | src/Engine/Renderer/Vulkan/VulkanBuffer.cpp:33-37 | The allocation is released with one destroy call. |
| DynamicBuffer.SlotInBounds | include/Engine/Renderer/Vulkan/VulkanDynamicBuffer.h:47 | For an index below the capacity, the record's byte range lies inside the `stride * maxInstances` byte buffer. |
| DynamicBuffer.SlotsDisjoint | include/Engine/Renderer/Vulkan/VulkanDynamicBuffer.h:59 | Records of distinct instances occupy disjoint byte ranges. |
| DynamicBuffer.WriteThenRead | include/Engine/Renderer/Vulkan/VulkanDynamicBuffer.h:57-60 | After writing instance `i`, reading instance `i` gives the written record, and reading any other instance gives its old bytes. |
| DynamicBuffer.VulkanDynamicBuffer.constructor | include/Engine/Renderer/Vulkan/VulkanDynamicBuffer.h:41-48 | The stride is the aligned record size, and the fresh buffer holds exactly `stride * maxInstances` bytes. |
| DynamicBuffer.VulkanDynamicBuffer.Update | include/Engine/Renderer/Vulkan/VulkanDynamicBuffer.h:57-60 | Writes exactly the record's bytes at `stride * index`. Reading that slot back gives the value, every other slot is unchanged, and the buffer's map/flush/unmap calls are recorded. |
| DynamicBuffer.VulkanDynamicBuffer.GetDynamicAlignment | include/Engine/Renderer/Vulkan/VulkanDynamicBuffer.h:87-90 | Returns the stride fixed at construction: the aligned record size, at least `sizeof(T)` and a multiple of the minimum. |
| DynamicBuffer.VulkanDynamicBuffer.GetBuffer | include/Engine/Renderer/Vulkan/VulkanDynamicBuffer.h:80-84 | Returns the owned buffer. |
| DynamicBuffer.VulkanDynamicBuffer.Destroy | include/Engine/Renderer/Vulkan/VulkanDynamicBuffer.h:50-54 | The owned buffer is destroyed. |
| DynamicBuffer.AlignedRecordsScenario | include/Engine/Renderer/Vulkan/VulkanDynamicBuffer.h:41-90 | 64-byte records at a 256-byte alignment: the stride is 256, a write to instance 1 leaves instance 0's record intact, and instance 2 sits at offset 512. |
| Resources.Load | src/Engine/Resources/ResourceManager.cpp:30 | The factory builds one new resource from the path, of the factory's kind, held by one strong reference. |
| Resources.ResourceManager.constructor | src/Engine/Resources/ResourceManager.cpp:3-5 | A new manager has an empty path map and no factories. |
| Resources.ResourceManager.RegisterFactory | src/Engine/Resources/ResourceManager.cpp:7-9 | The factory replaces any earlier one for its type string, and every other type's factory is unchanged. |
| Resources.ResourceManager.LoadResource | src/Engine/Resources/ResourceManager.cpp:11-33 | Exactly one resource is built, by the factory registered for the manifest's type. Only then is the path's entry set to it; other paths' entries are untouched. |
| Resources.ResourceManager.GetResource | src/Engine/Resources/ResourceManager.cpp:35-44 | An unexpired entry is returned with one more strong reference, and nothing is loaded or changed. Otherwise the result is a fresh load recorded under the path. |
| Resources.AtMostOneLivePerPath | src/Engine/Resources/ResourceManager.cpp:36-43 | Under the cache invariant `UniqueLive` (every live resource is the one its path maps to), two live resources from the same path are the same resource. |
| Resources.NewCache | src/Engine/Resources/ResourceManager.cpp:3-5 | A new manager over an empty arena satisfies the invariant. |
| Resources.GetPreservesUniqueLive | src/Engine/Resources/ResourceManager.cpp:35-44 | From any state satisfying the invariant, `getResource` keeps it, and the returned resource is live and mapped under its path. |
| Resources.ReleasePreservesUniqueLive | include/Engine/Resources/ResourceManager.h:18 | A holder dropping its strong reference keeps the invariant. |
| Resources.RegisterPreservesUniqueLive | src/Engine/Resources/ResourceManager.cpp:7-9 | Registering a factory keeps the invariant. |
| Resources.SharedWhileHeld | src/Engine/Resources/ResourceManager.cpp:35-44 | Two requests for one path, with the first result still held, give the same resource, and the factory runs once. |
| Resources.ReloadAfterRelease | include/Engine/Resources/ResourceManager.h:18 | The cache holds only a weak reference: once the only holder releases, the resource has expired and the next request loads a new one. |
| Resources.LastRegistrationWins | src/Engine/Resources/ResourceManager.cpp:8 | After two registrations for one type string, loads are made by the factory registered last. |
| Resources.DistinctPathsDistinctResources | src/Engine/Resources/ResourceManager.cpp:31 | Two paths give two resources, and loading the second leaves the first path's entry alone. |
| MeshRenderManager.BoundOffsetIsWriteOffset | src/Engine/Renderer/Vulkan/VulkanMeshRenderManager.cpp:104-106 | When a frame's buffer fits in 32-bit offsets, the `uint32_t` dynamic offset bound equals the byte offset the record was written at. |
| MeshRenderManager.DrawCommandsLayout | src/Engine/Renderer/Vulkan/VulkanMeshRenderManager.cpp:92-113 | Draw-list element `k` contributes exactly four commands, at positions `4k..4k+4` in list order: set bind at its offset, vertex bind, index bind, indexed draw. |
| MeshRenderManager.WritesAppliedSlot | src/Engine/Renderer/Vulkan/VulkanMeshRenderManager.cpp:92-104 | After the loop, each instance holds the matrix of the last element drawn at it. An instance no element used keeps its bytes. |
| MeshRenderManager.LastWriteIsOwn | src/Engine/Renderer/Vulkan/VulkanMeshRenderManager.cpp:92-104 | An element with no later element at the same index is the last write to that instance. |
| MeshRenderManager.BoundOffsetAddressesDrawnMatrix | src/Engine/Renderer/Vulkan/VulkanMeshRenderManager.cpp:104-108 | For an element no later element overwrites, command `4k` binds the current set. Its dynamic offset addresses exactly that element's matrix in the buffer after the loop, when the buffer fits in 32-bit offsets. |
| MeshRenderManager.VulkanMeshRenderManager.constructor | src/Engine/Renderer/Vulkan/VulkanMeshRenderManager.cpp:3-11 | Buffers and descriptors are set up, so the manager's invariant holds. |
| MeshRenderManager.VulkanMeshRenderManager.InitBuffers | src/Engine/Renderer/Vulkan/VulkanMeshRenderManager.cpp:22-28 | Creates exactly `frameCount` fresh, pairwise distinct dynamic buffers of matrices, each with capacity `maxObjects`. |
| MeshRenderManager.VulkanMeshRenderManager.InitDescriptors | src/Engine/Renderer/Vulkan/VulkanMeshRenderManager.cpp:30-85 | The pool's descriptor count and set count, and the number of sets, all equal `frameCount`. Set `i` points at frame `i`'s buffer from offset 0 with the whole range. |
| MeshRenderManager.VulkanMeshRenderManager.Draw | src/Engine/Renderer/Vulkan/VulkanMeshRenderManager.cpp:87-114 | The pipeline is bound once, then each element's four commands follow in list order, always binding the current frame's set. The current frame's buffer receives every element's write in order. Every other frame's buffer is unchanged. |
| MeshRenderManager.VulkanMeshRenderManager.RecordItem | src/Engine/Renderer/Vulkan/VulkanMeshRenderManager.cpp:104-112 | One element: its matrix is written at `stride * index` in the frame's buffer, and its four commands are appended. |
| MeshRenderManager.VulkanMeshRenderManager.Destroy | src/Engine/Renderer/Vulkan/VulkanMeshRenderManager.cpp:13-20 | Every frame's buffer is destroyed, the vector is left empty and the pool is destroyed. |
| Renderer.CheckValidationLayerSupport | src/Engine/Renderer/Vulkan/VulkanRenderer.cpp:23-47 | True exactly when every requested layer name equals some available layer's name; false when some requested name has no match. |
| Renderer.LayerCheckIgnoresOrder | src/Engine/Renderer/Vulkan/VulkanRenderer.cpp:33-38 | The answer does not depend on the order in which the layers are listed. |
| Renderer.MissingLayerRejects | src/Engine/Renderer/Vulkan/VulkanRenderer.cpp:41-43 | One unmatched requested name makes the answer false, whatever names come before or after it. |
| Renderer.PickPhysicalDevice | src/Engine/Renderer/Vulkan/VulkanRenderer.cpp:185-216 | Only the first enumerated device is examined. It is selected exactly when it is suitable; otherwise, or with no devices, nothing is selected. |
| Renderer.FirstSuitableIsFirst | src/Engine/Renderer/Vulkan/VulkanRenderer.cpp:201-206 | The intended selection is a suitable device with no suitable device before it. Nothing is selected exactly when no device is suitable. |
| Renderer.PickFirstSuitable | src/Engine/Renderer/Vulkan/VulkanRenderer.cpp:201-206 | The corrected loop selects the first suitable device, and selects nothing exactly when none is suitable. |
| Renderer.SecondSuitableDeviceIsMissed | src/Engine/Renderer/Vulkan/VulkanRenderer.cpp:201-210 | With devices `[1, 2]` where only `2` is suitable, the loop as written selects nothing, while the first suitable device is `2`. |
| Renderer.SelectionsAgreeOnSuitableFirst | src/Engine/Renderer/Vulkan/VulkanRenderer.cpp:201-206 | When the first device is suitable, the loop as written and the intended selection agree. |
| Renderer.VulkanRenderer.constructor | src/Engine/Renderer/Vulkan/VulkanRenderer.cpp:3-6 | A renderer keeps its extent and starts with no framebuffers and no command buffers. |
| Renderer.VulkanRenderer.InitFramebuffers | src/Engine/Renderer/Vulkan/VulkanRenderer.cpp:260-281 | There is one framebuffer per swapchain image; framebuffer `i` is created over image view `i` at the window's extent. |
| Renderer.VulkanRenderer.InitCommandBuffers | src/Engine/Renderer/Vulkan/VulkanRenderer.cpp:296-310 | There is one newly allocated, empty command buffer per framebuffer. |
| Renderer.VulkanRenderer.BuildCommandBuffers | src/Engine/Renderer/Vulkan/VulkanRenderer.cpp:68-106 | Command buffer `i`, for every `i`, records a render pass over framebuffer `i`, the pipeline bind, a three-vertex draw and the end of the pass. |
| Renderer.RecordForSwapchain | src/Engine/Renderer/Vulkan/VulkanRenderer.cpp:62-65 | After bring-up and recording, `n` swapchain images give `n` framebuffers and `n` command buffers. Command buffer `i` renders into the framebuffer over image view `i` with the given pipeline. |

## Left out

**Sizes and integer widths**

- `GpuBuffer.VulkanBuffer.constructor`: the size is an unbounded integer. The 64-bit `VkDeviceSize` product `dynamicAlignment * maxInstances` is not reduced mod 2^64.
- `DynamicBuffer.VulkanDynamicBuffer.Update`: the source does not check `index`. `index < maxInstances` is a precondition here.
- `GpuBuffer.VulkanBuffer.Update`: the source does not check `offset + n <= size`. It is a precondition.
- `GpuBuffer.VulkanBuffer.TransferDataFrom`: the source does not check `other.size <= size`. It is a precondition.
- `MeshRenderManager.BoundOffsetIsWriteOffset`: the bound offset equals the write offset only when the frame's buffer fits in 32-bit offsets. Beyond that the model keeps the cast's wrap-around (`ToU32`) and proves nothing further.
- `MeshRenderManager.VulkanMeshRenderManager.Draw`: each element's draw is given its MVP matrix as 64 opaque bytes. The `glm` view/projection arithmetic is floating point and is not modelled.

**Failures and error paths**

- Failed Vulkan, allocator and SDL calls are only logged by the source. The model assumes they succeed. This covers allocation, mapping, pool and set creation, framebuffer creation and command-buffer begin and end.
- `VulkanBuffer`'s destructor checks for null handles; with allocation assumed to succeed, they never are.
- `Resources.ResourceManager.LoadResource`: an unregistered manifest type is not handled. `factoryMap[resourceType]` (`src/Engine/Resources/ResourceManager.cpp:30`) inserts an empty `unique_ptr`, and `->load` dereferences it. A registered factory is a precondition (`Loadable`), so the path map is never written for such a type.
- The code checks no ranges and no load failures; its unchecked ranges are preconditions.
- `Renderer.PickPhysicalDevice`: the source leaves the local `physicalDevice` uninitialised when nothing is assigned, and then asserts. The model returns no selection in that case.

**Abstracted or external**

- File reading and JSON parsing in `loadResource` are abstracted as a map from path to the manifest's `"type"` string. A readable manifest is part of the precondition, since the source only logs a failed open.
- Factories are records (type string, kind produced, identity). Their own `load` logic and the unique ownership of a factory object (freeing the replaced one) are not modelled, beyond the replaced factory no longer being reachable.
- `getResources` is declared without a body in the header. It is not modelled, and its unused result in `draw` is dropped.
- The singleton `getInstance` is replaced by an explicit manager object. The pipeline handles that the singleton would supply through `getResource` are parameters instead. This applies to the mesh render manager's constructor and to `buildCommandbuffers`, which fetches the pipeline through the cache on every iteration.
- `isDeviceSuitable` and the device enumeration are parameters of the selection.
- Device-property logging is not modelled.
- SDL, volk, instance, window, surface, swapchain, render-pass and command-pool creation are not modelled. The renderer's destructor is not modelled either. Swapchain image views and the render pass are parameters.
- `endFrame` has an empty body and is not modelled. `beginFrame` only calls `buildCommandbuffers`.
- The queue submit and wait, and the temporary command buffer, in `transferDataFrom` are device synchronisation. Only the resulting copy of bytes is modelled.
- Descriptor-set layouts and descriptor-set handles are not modelled. A set is represented by what it was last written to point at.

**Representation**

- `uniformBuffers` in `initBuffers` is built by appending to an empty sequence. The source resizes a vector and fills it; the result is the same for the constructor's only call.
- The stride is a constant of each dynamic buffer. `getDynamicAlignment` is shared by all frames' buffers because they are built with the same parameters.
- The `mapped` pointer is a flag (`mappedPointer`) tied to `mapped`; pointer arithmetic is not modelled.

## Findings

| source | as written | input that shows it | evidently intended | confidence | as-written member | corrected member |
|---|---|---|---|---|---|---|
| src/Engine/Renderer/Vulkan/VulkanRenderer.cpp:201-206 | The device loop ends every iteration with an unconditional `break`, so only the first enumerated device is ever tested. | Two devices where only the second is suitable: nothing is assigned, and line 208 then reads the uninitialised local `physicalDevice` (line 188). | Select the first suitable device in enumeration order. | high; not executed | Renderer.PickPhysicalDevice (shown by Renderer.SecondSuitableDeviceIsMissed) | Renderer.PickFirstSuitable (proved by Renderer.FirstSuitableIsFirst) |
