# Vulkan hello-triangle: presentation and frame-pacing core

This project models the presentation core of the Vulkan "hello triangle" program and proves properties of the model. The program is `sources/01_VulkanTutorial/01_helloTriangle/main.cpp`. Every `vk*` and `glfw*` call becomes an input to the model: a result code, a record the driver reports, or the window's framebuffer size.

The model has three parts.

- **Capability and selection policies.** These cover:
  - discovering queue families (`QueueFamilies`);
  - the extension and suitability tests, and first-match device picking (`DeviceSelection`);
  - the surface-format, present-mode, extent, image-count and image-sharing choices that go into the swap chain's create info (`SwapchainPolicy`).

  Each policy is a specification function. Where the program loops, a method does the same loop, with invariants, and is proved equal to its function.
- **Swap-chain build, teardown and rebuild.** The class `Application.HelloTriangleApplication` has the program's member fields:
  - the swap-chain handle, its create info, format and extent;
  - the image, image-view and framebuffer vectors;
  - the command buffers, the per-slot semaphores and fences;
  - `currentFrame` and `framebufferResized`.

  Its methods fill these vectors in loops, as `CreateImageViews`, `CreateFramebuffers`, `CreateSyncObjects` and `CleanupSwapChain` do. Handles come from a counter. Each destroy call appends to a `destroyed` trace (`SwapchainResources`).
- **The per-frame state machine.** `FramePacing.DrawFrameStep` states what one call of `DrawFrame` does to the slot, the resize flag, the fences and the framebuffer count. `FramePacing.RunFrames` chains those steps across the iterations of the main loop. The class's `DrawFrame` and `MainLoop` are proved to follow them exactly. A frame that rebuilds the swap chain appends the old chain's teardown to the destruction trace and builds a fresh chain from the frame's inputs; any other frame leaves the swap chain and the trace as they were. The lemmas about `RunFrames` prove the following:
  - over frames that proceed (`FramePacing.Proceeds`: a usable acquire, an index in range, successful recording and submission, a present that does not throw, and successful rebuilds), slots alternate;
  - over frames that proceed, fence waits trail by two frames;
  - over frames that proceed, a rebuild after presenting happens exactly when the present reports the swap chain stale or a resize is pending;
  - an OUT_OF_DATE acquire retries on the same slot.

  For any single frame, `FramePacing.DrawFrameStepSpec` states exactly when the swap chain is torn down: on an OUT_OF_DATE acquire, or after a submitted frame whose present is stale or whose resize is pending.

Fences are booleans (true means signalled). Waiting on a fence leaves it signalled; resetting it leaves it unsignalled. The program indexes command buffers by the acquired image index. They are allocated once, when the swap chain is first built, so "the index names a command buffer" is stated as an explicit condition (`FramePacing.IndexInRangeWhenBuffersCoverImages`). It is never assumed. When the condition fails, the model ends the program with the `.at()` range error, as the program does.

## Model

| member | source | states |
|---|---|---|
| QueueFamilies.QueueFamilyIndices.IsComplete | sources/01_VulkanTutorial/01_helloTriangle/main.cpp:38-41 | the indices are complete when both the graphics and the present index are set |
| QueueFamilies.QueueFamiliesOf | sources/01_VulkanTutorial/01_helloTriangle/main.cpp:351-385 | a graphics index, when set, is below the family count and names a family with the graphics bit; likewise a present index names a present-capable family |
| QueueFamilies.FindQueueFamilies | sources/01_VulkanTutorial/01_helloTriangle/main.cpp:351-385 | the loop, which overwrites each index on every match and stops once both are set, returns QueueFamiliesOf of the families |
| QueueFamilies.QueueFamiliesCompleteIff | sources/01_VulkanTutorial/01_helloTriangle/main.cpp:361-382 | the indices are complete if and only if the device has at least one graphics family and at least one present-capable family |
| QueueFamilies.ScanStopsAtFirstComplete | sources/01_VulkanTutorial/01_helloTriangle/main.cpp:378-381 | when complete, the larger index is the first family at which both kinds have been seen, and each index is the last family of its kind up to there |
| QueueFamilies.UniqueQueueFamilies | sources/01_VulkanTutorial/01_helloTriangle/main.cpp:393-408 | the queue requests are the set {graphics, present} in ascending order: 1 request when the two families are equal, 2 otherwise |
| QueueFamilies.ImageSharingFor | sources/01_VulkanTutorial/01_helloTriangle/main.cpp:626-644 | CONCURRENT across exactly [graphics, present] if and only if they differ; otherwise EXCLUSIVE with no family list |
| QueueFamilies.SharingMatchesQueueRequests | sources/01_VulkanTutorial/01_helloTriangle/main.cpp:630-644 | images are shared concurrently exactly when the device was given two queue families, and then across exactly those families |
| DeviceSelection.CheckDeviceExtensionSupported | sources/01_VulkanTutorial/01_helloTriangle/main.cpp:464-480 | erasing every reported name from the required set leaves it empty if and only if the required extensions are a subset of the reported ones |
| DeviceSelection.IsDeviceSuitable | sources/01_VulkanTutorial/01_helloTriangle/main.cpp:324-345 | true if and only if the indices are complete, the extensions are supported and the surface reports a format and a present mode |
| DeviceSelection.FirstSuitable | sources/01_VulkanTutorial/01_helloTriangle/main.cpp:306-313 | the index of a suitable device with no suitable device before it, or none exactly when no device is suitable |
| DeviceSelection.SuitableIsComplete | sources/01_VulkanTutorial/01_helloTriangle/main.cpp:344 | a suitable device has complete queue-family indices, hence a graphics and a present-capable family |
| SwapchainPolicy.ChooseSwapSurfaceFormat | sources/01_VulkanTutorial/01_helloTriangle/main.cpp:516-540 | a single UNDEFINED entry gives (B8G8R8A8_UNORM, SRGB_NONLINEAR); otherwise that pair if listed, else the first entry; the list must be non-empty |
| SwapchainPolicy.ChooseSwapPresentMode | sources/01_VulkanTutorial/01_helloTriangle/main.cpp:545-572 | MAILBOX if it occurs anywhere in the list; else IMMEDIATE if listed; else FIFO, also for an empty list |
| SwapchainPolicy.Clamp | sources/01_VulkanTutorial/01_helloTriangle/main.cpp:592-593 | std::clamp: the result lies in [lo, hi], equals v inside the bounds and the nearer bound outside them |
| SwapchainPolicy.ChooseSwapExtent | sources/01_VulkanTutorial/01_helloTriangle/main.cpp:577-597 | the current extent unless its width is UINT32_MAX; otherwise each framebuffer component clamped into [minImageExtent, maxImageExtent] |
| SwapchainPolicy.ImageCount | sources/01_VulkanTutorial/01_helloTriangle/main.cpp:609-613 | minImageCount + 1 when the maximum is 0 or allows it; otherwise maxImageCount; never above a non-zero maximum; never below the minimum when the bounds are consistent |
| SwapchainPolicy.ImageCountAsWritten | sources/01_VulkanTutorial/01_helloTriangle/main.cpp:609-613 | the program's uint32 computation: minImageCount + 1 when the maximum is 0 or allows it, never above a non-zero maximum, and 0 when minImageCount is UINT32_MAX |
| SwapchainPolicy.SwapchainCreateInfoFor | sources/01_VulkanTutorial/01_helloTriangle/main.cpp:600-658 | the create info's surface format is one the surface lists (or the default when it has no preference), its present mode is listed or FIFO, its extent is the current one or lies within the bounds, its image count respects a non-zero maximum, and sharing is concurrent exactly when the families differ |
| SwapchainPolicy.CreateInfoImageCountAsWritten | sources/01_VulkanTutorial/01_helloTriangle/main.cpp:609-618 | for every surface whose minImageCount is below UINT32_MAX, the create info's image count equals the program's uint32 computation |
| SwapchainPolicy.CreateInfoImageCountAtWrap | sources/01_VulkanTutorial/01_helloTriangle/main.cpp:609-613 | at minImageCount = UINT32_MAX the create info asks for maxImageCount images, or UINT32_MAX when the maximum is 0, while the program's wrapped sum asks for 0 |
| SwapchainPolicy.ImageCountAgreesWithoutWrap | sources/01_VulkanTutorial/01_helloTriangle/main.cpp:609-613 | for every minImageCount below UINT32_MAX, the program's uint32 computation equals the intended one |
| SwapchainPolicy.ImageCountAsWrittenWraps | sources/01_VulkanTutorial/01_helloTriangle/main.cpp:609 | for minImageCount = UINT32_MAX the program's uint32 addition wraps and it asks for 0 images |
| SwapchainResources.TeardownTrace | sources/01_VulkanTutorial/01_helloTriangle/main.cpp:1183-1196 | the teardown makes one destruction per framebuffer, one per image view and one for the swap chain |
| SwapchainResources.TeardownOrder | sources/01_VulkanTutorial/01_helloTriangle/main.cpp:1183-1196 | the teardown destroys each framebuffer, then each image view, then the swap chain, and never destroys an object of an earlier kind after one of a later kind |
| SwapchainResources.FramebuffersDestroyedBeforeTheirViews | sources/01_VulkanTutorial/01_helloTriangle/main.cpp:1185-1193 | when framebuffer i is attached to view i, every framebuffer is destroyed before the image view it uses |
| FramePacing.InitialState | sources/01_VulkanTutorial/01_helloTriangle/main.cpp:1144-1148 | after initialisation the slot is valid, there is one fence per slot and every fence starts signalled |
| FramePacing.DrawFrameStep | sources/01_VulkanTutorial/01_helloTriangle/main.cpp:1055-1132 | one frame keeps currentFrame below MAX_FRAMES_IN_FLIGHT and keeps one fence per slot |
| FramePacing.SubmitStep | sources/01_VulkanTutorial/01_helloTriangle/main.cpp:1082-1131 | the step after acquiring keeps currentFrame below MAX_FRAMES_IN_FLIGHT and one fence per slot |
| FramePacing.PresentStep | sources/01_VulkanTutorial/01_helloTriangle/main.cpp:1117-1131 | the step after submitting keeps currentFrame below MAX_FRAMES_IN_FLIGHT and one fence per slot |
| FramePacing.DrawFrameStepSpec | sources/01_VulkanTutorial/01_helloTriangle/main.cpp:1059-1131 | the slot's fence is reset only when acquire returns SUCCESS or SUBOPTIMAL, and no other fence changes; OUT_OF_DATE at acquire rebuilds without advancing the slot; any other acquire code is fatal; an index past the command buffers or framebuffers is fatal; a submitted frame is presented and rebuilt exactly when present reports OUT_OF_DATE/SUBOPTIMAL or a resize is pending; a presented frame advances the slot mod 2 and clears the flag; fatal and rebuilt-before-render frames keep the slot; the swap chain is torn down exactly on an OUT_OF_DATE acquire or after a submitted frame's stale present or pending resize; the framebuffer count changes only on a successful rebuild |
| FramePacing.IndexInRangeWhenBuffersCoverImages | sources/01_VulkanTutorial/01_helloTriangle/main.cpp:1083-1084 | the out-of-range failure cannot happen while the acquired index is below the image count and the image count is at most the command-buffer count |
| FramePacing.Polled | sources/01_VulkanTutorial/01_helloTriangle/main.cpp:1287-1291 | polling events raises the resize flag when the window was resized, and changes nothing else |
| FramePacing.RunFrames | sources/01_VulkanTutorial/01_helloTriangle/main.cpp:97-103 | the loop keeps the slot valid, makes at most one record per iteration, and every record's slot is below MAX_FRAMES_IN_FLIGHT |
| FramePacing.ProceedingFramesAlternateSlots | sources/01_VulkanTutorial/01_helloTriangle/main.cpp:1131 | over frames that proceed, every frame is recorded; each uses the slot after the previous frame's; the loop ends on the slot after the last |
| FramePacing.ProceedingFramesCycleSlots | sources/01_VulkanTutorial/01_helloTriangle/main.cpp:1131 | over n frames that proceed, frame k uses slot (start + k) mod 2 and the loop ends on slot (start + n) mod 2 |
| FramePacing.ProceedingFramesWaitTwoBehind | sources/01_VulkanTutorial/01_helloTriangle/main.cpp:1059-1102 | over frames that proceed, the first two fence waits see the fences as initialised; every later wait finds its fence unsignalled, reset two frames earlier |
| FramePacing.ProceedingFramesRebuildWhenStale | sources/01_VulkanTutorial/01_helloTriangle/main.cpp:1119-1124 | over frames that proceed, frame k is rebuilt after presenting exactly when its present reports OUT_OF_DATE or SUBOPTIMAL or a resize was signalled before it |
| FramePacing.FiveCleanFrames | sources/01_VulkanTutorial/01_helloTriangle/main.cpp:1055-1131 | five clean frames after initialisation use slots 0,1,0,1,0; only the first two fence waits find the fence signalled; all are presented without a rebuild |
| FramePacing.SuboptimalPresentRebuildsBeforeNextFrame | sources/01_VulkanTutorial/01_helloTriangle/main.cpp:1119-1124 | a SUBOPTIMAL present on the third frame rebuilds within that frame; the fourth frame is presented normally on slot 1 |
| FramePacing.OutOfDateAcquireRetriesSameSlot | sources/01_VulkanTutorial/01_helloTriangle/main.cpp:1071-1075 | after an OUT_OF_DATE acquire and a successful rebuild, the next frame uses the same slot and its fence is still signalled |
| Application.Resize | sources/01_VulkanTutorial/01_helloTriangle/main.cpp:668 | std::vector::resize: the new length, the kept prefix and the padding |
| Application.FillSwapchainCreateInfo | sources/01_VulkanTutorial/01_helloTriangle/main.cpp:600-658 | the create info the program fills in equals SwapchainCreateInfoFor the re-queried support, the device's queue families and the framebuffer size |
| Application.InitError | sources/01_VulkanTutorial/01_helloTriangle/main.cpp:80-95 | initialisation ends without error if and only if there is a suitable device and device creation, swap-chain creation, command-buffer allocation and every sync-object creation succeed |
| Application.HelloTriangleApplication.constructor | sources/01_VulkanTutorial/01_helloTriangle/main.cpp:1294-1317 | the member initialisers: null handles, empty vectors, slot 0, no resize pending |
| Application.HelloTriangleApplication.PickPhysicalDevice | sources/01_VulkanTutorial/01_helloTriangle/main.cpp:292-319 | zero devices gives an error; otherwise the picked device is the first suitable one in enumeration order, and there is an error when none is suitable |
| Application.HelloTriangleApplication.CreateLogicalDevice | sources/01_VulkanTutorial/01_helloTriangle/main.cpp:388-446 | one queue request (count 1) per distinct family, in set order; fails exactly when vkCreateDevice fails; queue 0 of the graphics and of the present family |
| Application.HelloTriangleApplication.CreateSwapChain | sources/01_VulkanTutorial/01_helloTriangle/main.cpp:600-673 | fails exactly when vkCreateSwapchainKHR fails; otherwise it records the chosen create info, format and extent, and the images the driver returns |
| Application.HelloTriangleApplication.GetSwapchainImages | sources/01_VulkanTutorial/01_helloTriangle/main.cpp:667-669 | the image vector is resized to the driver's count and filled with fresh images |
| Application.HelloTriangleApplication.CreateImageViews | sources/01_VulkanTutorial/01_helloTriangle/main.cpp:677-703 | one view per image, view i over image i in the swap chain's format |
| Application.HelloTriangleApplication.CreateFramebuffers | sources/01_VulkanTutorial/01_helloTriangle/main.cpp:924-944 | one framebuffer per view, framebuffer i attached to view i, of the swap chain's extent |
| Application.HelloTriangleApplication.CreateSwapChainResources | sources/01_VulkanTutorial/01_helloTriangle/main.cpp:1177-1179 | after a successful build the view count and the framebuffer count equal the image count, and all of them agree with the create info and are fresh |
| Application.HelloTriangleApplication.CreateCommandBuffers | sources/01_VulkanTutorial/01_helloTriangle/main.cpp:967-981 | one command buffer per framebuffer of the swap chain as it then is; fails exactly when allocation fails |
| Application.HelloTriangleApplication.CreateSyncObjects | sources/01_VulkanTutorial/01_helloTriangle/main.cpp:1135-1157 | MAX_FRAMES_IN_FLIGHT entries in each per-slot vector; fails exactly when some creation fails; on success every fence starts signalled |
| Application.HelloTriangleApplication.CleanupSwapChain | sources/01_VulkanTutorial/01_helloTriangle/main.cpp:1183-1196 | appends to the destruction trace every framebuffer, then every image view, then the swap chain |
| Application.HelloTriangleApplication.RecreateSwapChain | sources/01_VulkanTutorial/01_helloTriangle/main.cpp:1160-1180 | tears the old swap chain down in order and builds a new one; on success the new images, views and framebuffers are formed, fresh and equal in number; command buffers, slot and fences are unchanged |
| Application.HelloTriangleApplication.FramebufferResizeCallback | sources/01_VulkanTutorial/01_helloTriangle/main.cpp:1287-1291 | the resize callback sets framebufferResized |
| Application.HelloTriangleApplication.DrawFrame | sources/01_VulkanTutorial/01_helloTriangle/main.cpp:1055-1132 | the outcome and the new slot, flag, fences and framebuffer count are exactly DrawFrameStep's; a non-fatal frame keeps the object valid; a frame that rebuilds appends the old chain's teardown to the destruction trace and, on success, holds the create info chosen from the frame's inputs and fresh handles; every other frame leaves the swap chain, its vectors and the trace unchanged |
| Application.HelloTriangleApplication.RebuildOnAcquire | sources/01_VulkanTutorial/01_helloTriangle/main.cpp:1071-1075 | OUT_OF_DATE at acquire: the old chain is torn down in order; a successful rebuild holds the chosen create info and fresh handles, and of the frame state changes only the framebuffer count; a failed one is fatal |
| Application.HelloTriangleApplication.SubmitFrame | sources/01_VulkanTutorial/01_helloTriangle/main.cpp:1082-1105 | an index out of range, a failed begin, end or submit is fatal and leaves the swap chain and the trace unchanged; otherwise the frame is presented; the result is SubmitStep's |
| Application.HelloTriangleApplication.PresentFrame | sources/01_VulkanTutorial/01_helloTriangle/main.cpp:1117-1131 | the result and new state are PresentStep's: rebuild on OUT_OF_DATE, SUBOPTIMAL or a pending resize, clearing it, with the old chain's ordered teardown and a fresh chain; fatal on another failure; advance the slot; without a rebuild the swap chain and the trace are unchanged |
| Application.HelloTriangleApplication.RebuildOnPresent | sources/01_VulkanTutorial/01_helloTriangle/main.cpp:1119-1131 | the old chain is torn down in order; a successful rebuild after presenting holds the chosen create info and fresh handles, advances the slot and replaces the framebuffer count; a failed one is fatal with the frame state unchanged |
| Application.HelloTriangleApplication.SetSlotFence | sources/01_VulkanTutorial/01_helloTriangle/main.cpp:1059-1082 | waiting leaves the current slot's fence signalled, resetting leaves it unsignalled; no other fence changes |
| Application.HelloTriangleApplication.AdvanceFrame | sources/01_VulkanTutorial/01_helloTriangle/main.cpp:1131 | currentFrame becomes (currentFrame + 1) mod MAX_FRAMES_IN_FLIGHT and stays in range |
| Application.HelloTriangleApplication.MainLoop | sources/01_VulkanTutorial/01_helloTriangle/main.cpp:97-103 | the records and the final state are exactly RunFrames of the starting state over the iterations' inputs; when no frame was fatal the object is still valid |
| Application.HelloTriangleApplication.MainLoopIteration | sources/01_VulkanTutorial/01_helloTriangle/main.cpp:99-103 | polling and one frame produce RunFrames' first record, and the rest of the run continues from the new state; the swap chain and the trace change as DrawFrame's do |
| Application.HelloTriangleApplication.InitVulkan | sources/01_VulkanTutorial/01_helloTriangle/main.cpp:80-95 | returns InitError of the inputs; on success the object is valid, the device is the first suitable one, the create info is the chosen one, one command buffer per image, and the frame state is the initial one |
| Application.HelloTriangleApplication.CreateDeviceObjects | sources/01_VulkanTutorial/01_helloTriangle/main.cpp:86-94 | the steps after device picking fail with the first failing step's error; on success the same facts as InitVulkan |
| Application.HelloTriangleApplication.CreatePresentationObjects | sources/01_VulkanTutorial/01_helloTriangle/main.cpp:87-94 | the swap-chain, command-buffer and sync steps fail with the first failing step's error; on success the object is valid and in the initial frame state |
| Application.HelloTriangleApplication.CreatePerFrameObjects | sources/01_VulkanTutorial/01_helloTriangle/main.cpp:93-94 | command buffers then sync objects; on success one command buffer per framebuffer, two semaphores per slot and both fences signalled |

## Left out

- Instance creation, validation layers, the debug messenger and extension listing (lines 142-288, 1198-1266): these bootstrap the driver and print to stdout.
- The surface, the render pass, the graphics pipeline, shader modules, `ReadFile` and the command pool (lines 450-459, 707-921, 947-964, 1271-1285): these are fixed configuration and file I/O. They are assumed to succeed.
- `RecordCommandBuffer` (lines 984-1051): only the results of beginning and ending recording are modelled. The `vkCmd*` calls, the clear colour and the viewport are floating-point configuration.
- GLFW: window creation and `glfwWindowShouldClose`. The main loop runs over a finite sequence of per-iteration inputs, which includes whether the resize callback fired while events were polled.
- The zero-size wait loop at the start of `RecreateSwapChain` (lines 1162-1168): this is blocking window-system I/O. The framebuffer size the rebuild sees is an input.
- `vkDeviceWaitIdle` (lines 107, 1171), the GPU side of fences and semaphores, and queue submission: these are asynchronous device-timeline behaviour. A fence is a bool, and a wait returns with it signalled.
- `Cleanup` (lines 110-138): the final destruction of every object is foreign resource release.
- Handles: the driver's allocation is a counter. The model proves that a rebuilt swap chain uses only fresh handles. It does not carry a global invariant that destroyed handles never reappear in the live vectors.
- Application.HelloTriangleApplication.CreateImageViews: the failure of `vkCreateImageView` (lines 698-701) is not modelled; view creation always succeeds.
- Application.HelloTriangleApplication.CreateFramebuffers: the failure of `vkCreateFramebuffer` (lines 939-942) is not modelled; framebuffer creation always succeeds.
- Application.HelloTriangleApplication.CreateLogicalDevice: the float queue priority and the device features are not modelled.
- Application.HelloTriangleApplication.RecreateSwapChain: it requires that the re-queried surface support lists a format and has ordered extent bounds (`SupportUsable`). The program reads `front()` and calls `std::clamp`, which have undefined behaviour otherwise. `FillSwapchainCreateInfo`, `CreateSwapChain`, `CreateSwapChainResources`, `DrawFrame` and its helpers, `MainLoopIteration`, `MainLoop`, `InitVulkan`, `CreateDeviceObjects` and `CreatePresentationObjects` carry the same requirement for the support their rebuilds and builds see.
- Application.HelloTriangleApplication.DrawFrame: the model splits it into helper methods (`SubmitFrame`, `PresentFrame`, `RebuildOnAcquire`, `RebuildOnPresent`) with the same branches.
- Application.HelloTriangleApplication.DrawFrame: a resize callback that fires during a rebuild is not modelled. It follows from leaving out the zero-size wait loop: its `glfwWaitEvents` (line 1167) can run the callback after `DrawFrame` has cleared the flag (lines 1121-1123), and the program then rebuilds again after the next frame.
- Application.FillSwapchainCreateInfo: the create info's image count is the corrected `ImageCount`, not the program's wrapping uint32 sum; the two differ only when minImageCount is UINT32_MAX (`SwapchainPolicy.CreateInfoImageCountAsWritten`), the input of the finding below, where the create info asks for maxImageCount images (UINT32_MAX when the maximum is 0) and the program for none (`SwapchainPolicy.CreateInfoImageCountAtWrap`).
- Application.HelloTriangleApplication.CreateSwapChain: it records the create info with the corrected image count. For minImageCount = UINT32_MAX it requests `ImageCount(caps)` where the program requests 0: that is UINT32_MAX when maxImageCount is 0, and maxImageCount otherwise (`SwapchainPolicy.CreateInfoImageCountAtWrap`). Everywhere else the counts agree (`SwapchainPolicy.CreateInfoImageCountAsWritten`).
- Application.HelloTriangleApplication.CreateSyncObjects: semaphore handles are stated only by count. The fence result at line 1152 is tested as a truth value; this is the same as comparing with `VK_SUCCESS`, which is 0.

## Findings

| source | as written | input that shows it | evidently intended | confidence | as-written member | corrected member |
|---|---|---|---|---|---|---|
| sources/01_VulkanTutorial/01_helloTriangle/main.cpp:609 | `minImageCount + 1` is computed in `uint32_t` and wraps | a surface reporting `minImageCount = 0xFFFFFFFF`: the program asks for 0 images, fewer than the surface's minimum | one more than the minimum without overflow, capped by a non-zero maximum, and never below the minimum | low (no real surface reports such a minimum); not executed | SwapchainPolicy.ImageCountAsWrittenWraps | SwapchainPolicy.ImageCount |
