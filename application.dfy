/**
 * The application object: the member vectors that hold the swap chain's
 * images, views and framebuffers, the command buffers, the per-slot
 * synchronisation objects and the frame-pacing fields, and the methods that
 * build, tear down and rebuild them and draw frames.
 *
 * Handles are handed out by a counter (nextHandle) in place of the driver;
 * destroying an object appends it to the `destroyed` trace.
 */
module Application {
  import opened VkTypes
  import opened QueueFamilies
  import opened DeviceSelection
  import opened SwapchainPolicy
  import opened FramePacing
  import opened SwapchainResources

  datatype DeviceQueueCreateInfo = DeviceQueueCreateInfo(queueFamilyIndex: nat, queueCount: nat)

  /** The queue vkGetDeviceQueue returns: queue `queueIndex` of family `familyIndex`. */
  datatype DeviceQueue = DeviceQueue(familyIndex: nat, queueIndex: nat)

  datatype SyncObjectResults = SyncObjectResults(imageAvailable: VkResult, renderFinished: VkResult, inFlight: VkResult)

  predicate SyncObjectsCreated(r: SyncObjectResults) {
    r.imageAvailable == VK_SUCCESS && r.renderFinished == VK_SUCCESS && r.inFlight == VK_SUCCESS
  }

  /** std::vector::resize: keeps the first n elements and pads with value-initialised ones. */
  function Resize<T>(s: seq<T>, n: nat, filler: T): (r: seq<T>)
    ensures |r| == n
    ensures forall i :: 0 <= i < n && i < |s| ==> r[i] == s[i]
    ensures forall i :: |s| <= i < n ==> r[i] == filler
  {
    if n <= |s| then s[..n] else s + seq(n - |s|, _ => filler)
  }

  lemma AppendAssociative<T>(a: seq<T>, b: seq<T>, c: seq<T>)
    ensures (a + b) + c == a + (b + c)
  {
  }

  /**
   * The choices CreateSwapChain makes before creating the swap chain:
   * surface format, present mode, extent, image count and sharing.
   */
  method FillSwapchainCreateInfo(pd: PhysicalDevice, support: SwapChainSupportDetails, framebufferSize: Extent2D)
    returns (createInfo: SwapchainCreateInfo)
    requires SupportUsable(support) && QueueFamiliesOf(pd.queueFamilies).IsComplete()
    ensures createInfo == SwapchainCreateInfoFor(support, QueueFamiliesOf(pd.queueFamilies), framebufferSize)
  {
    var surfaceFormat := ChooseSwapSurfaceFormat(support.formats);
    var presentMode := ChooseSwapPresentMode(support.presentModes);
    var extent := ChooseSwapExtent(support.capabilities, framebufferSize);
    var imageCount := ImageCount(support.capabilities);
    var indices := FindQueueFamilies(pd.queueFamilies);
    createInfo := SwapchainCreateInfo(
      imageCount, surfaceFormat.format, surfaceFormat.colorSpace, extent, 1, VK_IMAGE_USAGE_COLOR_ATTACHMENT_BIT,
      ImageSharingFor(indices), support.capabilities.currentTransform, VK_COMPOSITE_ALPHA_OPAQUE_BIT_KHR,
      presentMode, true);
  }

  class HelloTriangleApplication {
    var physicalDevice: Option<PhysicalDevice>        // None is VK_NULL_HANDLE
    var device: Handle
    var deviceQueueCreateInfos: seq<DeviceQueueCreateInfo>   // what the logical device was created with
    var graphicsQueue: Option<DeviceQueue>
    var presentQueue: Option<DeviceQueue>
    var swapChain: Handle
    var swapChainCreateInfo: Option<SwapchainCreateInfo>     // what the current swap chain was created from
    var swapChainImages: seq<Handle>
    var swapChainImageFormat: Format
    var swapChainExtent: Extent2D
    var swapChainImageViews: seq<ImageView>
    var swapChainFramebuffers: seq<Framebuffer>
    var commandBuffers: seq<Handle>
    var imageAvailableSemaphores: seq<Handle>
    var renderFinishedSemaphores: seq<Handle>
    var inFlightFences: seq<bool>                        // true: signalled
    var currentFrame: nat
    var framebufferResized: bool
    var destroyed: seq<Destruction>
    var nextHandle: Handle

    /** The member initialisers: every handle null, every vector empty, slot 0, no resize pending. */
    predicate Fresh()
      reads this
    {
      && physicalDevice.None?
      && device == 0
      && deviceQueueCreateInfos == []
      && graphicsQueue.None? && presentQueue.None?
      && swapChain == 0 && swapChainCreateInfo.None?
      && swapChainImageFormat == VK_FORMAT_UNDEFINED && swapChainExtent == Extent2D(0, 0)
      && swapChainImages == [] && swapChainImageViews == [] && swapChainFramebuffers == []
      && commandBuffers == [] && imageAvailableSemaphores == [] && renderFinishedSemaphores == [] && inFlightFences == []
      && currentFrame == 0 && !framebufferResized
      && destroyed == []
      && 0 < nextHandle
    }

    constructor ()
      ensures Fresh()
    {
      physicalDevice := None;
      device := 0;
      deviceQueueCreateInfos := [];
      graphicsQueue, presentQueue := None, None;
      swapChain := 0;
      swapChainCreateInfo := None;
      swapChainImages, swapChainImageFormat, swapChainExtent := [], VK_FORMAT_UNDEFINED, Extent2D(0, 0);
      swapChainImageViews, swapChainFramebuffers := [], [];
      commandBuffers := [];
      imageAvailableSemaphores, renderFinishedSemaphores, inFlightFences := [], [], [];
      currentFrame, framebufferResized := 0, false;
      destroyed := [];
      nextHandle := 1;
    }

    /** A physical device was picked and the logical device created from it. */
    predicate DeviceReady()
      reads this`physicalDevice, this`device
    {
      physicalDevice.Some? && device != 0
    }

    /**
     * The picked device is pd, and pd is suitable. The methods that need the
     * device's queue families take pd as a ghost parameter and require this.
     */
    predicate PickedSuitable(pd: PhysicalDevice)
      reads this`physicalDevice
    {
      physicalDevice == Some(pd) && Suitable(pd)
    }

    /** The current swap chain's images, views and framebuffers agree with its create info. */
    predicate SwapchainFormed()
      reads this`swapChainCreateInfo, this`swapChainImageFormat, this`swapChainExtent, this`swapChainImages,
            this`swapChainImageViews, this`swapChainFramebuffers
    {
      Formed(swapChainCreateInfo, swapChainImageFormat, swapChainExtent, swapChainImages, swapChainImageViews,
             swapChainFramebuffers)
    }

    /** The swap chain and its images, views and framebuffers were all handed out at or after handle `start`. */
    predicate BuiltSince(start: nat)
      reads this`swapChain, this`nextHandle, this`swapChainImages, this`swapChainImageViews, this`swapChainFramebuffers
    {
      HandedOutBetween(start, nextHandle, swapChain, swapChainImages, swapChainImageViews, swapChainFramebuffers)
    }

    predicate SyncReady()
      reads this`imageAvailableSemaphores, this`renderFinishedSemaphores, this`inFlightFences, this`currentFrame
    {
      SlotsAllocated(|imageAvailableSemaphores|, |renderFinishedSemaphores|, |inFlightFences|, currentFrame)
    }

    /** The device exists and the current swap chain is formed and fresh: what a rebuild needs and restores. */
    ghost predicate SwapchainValid()
      reads this`physicalDevice, this`device, this`swapChainCreateInfo, this`swapChainImageFormat, this`swapChainExtent,
            this`swapChainImages, this`swapChainImageViews, this`swapChainFramebuffers
    {
      DeviceReady() && SwapchainFormed()
    }

    ghost predicate Valid()
      reads this`physicalDevice, this`device, this`swapChainCreateInfo, this`swapChainImageFormat, this`swapChainExtent,
            this`swapChainImages, this`swapChainImageViews, this`swapChainFramebuffers,
            this`imageAvailableSemaphores, this`renderFinishedSemaphores,
            this`inFlightFences, this`currentFrame
    {
      SwapchainValid() && SyncReady()
    }

    /** The fields DrawFrame reads and changes, as the frame-pacing state. */
    function State(): FrameState
      reads this`currentFrame, this`framebufferResized, this`inFlightFences, this`swapChainFramebuffers
    {
      FrameState(currentFrame, framebufferResized, inFlightFences, |swapChainFramebuffers|)
    }

    method NewHandle() returns (h: Handle)
      modifies this`nextHandle
      ensures h == old(nextHandle) && nextHandle == h + 1
    {
      h := nextHandle;
      nextHandle := nextHandle + 1;
    }

    /**
     * Fails when no device is enumerated; otherwise keeps the first suitable
     * device in enumeration order, and fails when there is none.
     */
    method PickPhysicalDevice(devices: seq<PhysicalDevice>) returns (err: Option<RuntimeError>)
      requires physicalDevice.None?
      modifies this`physicalDevice
      ensures |devices| == 0 ==> err == Some(NoVulkanDevice)
      ensures |devices| > 0 && FirstSuitable(devices, 0).None? ==> err == Some(NoSuitableDevice)
      ensures FirstSuitable(devices, 0).Some? ==> err.None? && physicalDevice == Some(devices[FirstSuitable(devices, 0).value])
      ensures err.Some? ==> physicalDevice.None?
    {
      if |devices| == 0 {
        return Some(NoVulkanDevice);
      }
      var i := 0;
      while i < |devices|
        invariant 0 <= i <= |devices|
        invariant physicalDevice.None?
        invariant FirstSuitable(devices, 0) == FirstSuitable(devices, i)
      {
        var suitable := IsDeviceSuitable(devices[i]);
        if suitable {
          physicalDevice := Some(devices[i]);
          break;
        }
        i := i + 1;
      }
      if physicalDevice.None? {
        return Some(NoSuitableDevice);
      }
      return None;
    }

    /**
     * Requests one queue from each distinct family among graphics and
     * present, creates the device and fetches queue 0 of each family.
     */
    method CreateLogicalDevice(ghost pd: PhysicalDevice, deviceResult: VkResult) returns (err: Option<RuntimeError>)
      requires PickedSuitable(pd) && 0 < nextHandle
      modifies this`device, this`deviceQueueCreateInfos, this`graphicsQueue, this`presentQueue, this`nextHandle
      ensures err.None? <==> deviceResult == VK_SUCCESS
      ensures err.Some? ==> err == Some(LogicalDeviceCreationFailed)
      ensures err.None? ==>
                var indices := QueueFamiliesOf(pd.queueFamilies);
                var families := UniqueQueueFamilies(indices);
                && DeviceReady()
                && |deviceQueueCreateInfos| == |families|
                && (forall k :: 0 <= k < |families| ==> deviceQueueCreateInfos[k] == DeviceQueueCreateInfo(families[k], 1))
                && graphicsQueue == Some(DeviceQueue(indices.graphicsFamily.value, 0))
                && presentQueue == Some(DeviceQueue(indices.presentFamily.value, 0))
                && old(nextHandle) <= device < nextHandle
    {
      var indices := FindQueueFamilies(physicalDevice.value.queueFamilies);
      var uniqueQueueFamilies := UniqueQueueFamilies(indices);
      var queueCreateInfos: seq<DeviceQueueCreateInfo> := [];
      for i := 0 to |uniqueQueueFamilies|
        invariant |queueCreateInfos| == i
        invariant forall k :: 0 <= k < i ==> queueCreateInfos[k] == DeviceQueueCreateInfo(uniqueQueueFamilies[k], 1)
      {
        queueCreateInfos := queueCreateInfos + [DeviceQueueCreateInfo(uniqueQueueFamilies[i], 1)];
      }
      if deviceResult != VK_SUCCESS {
        return Some(LogicalDeviceCreationFailed);
      }
      device := NewHandle();
      deviceQueueCreateInfos := queueCreateInfos;
      graphicsQueue := Some(DeviceQueue(indices.graphicsFamily.value, 0));
      presentQueue := Some(DeviceQueue(indices.presentFamily.value, 0));
      return None;
    }

    /**
     * Chooses format, present mode, extent, image count and sharing from the
     * re-queried surface support and the window's framebuffer size, creates
     * the swap chain and takes the images the driver returns for it.
     */
    method CreateSwapChain(ghost pd: PhysicalDevice, build: SwapchainBuild) returns (err: Option<RuntimeError>)
      requires PickedSuitable(pd) && SupportUsable(build.support)
      modifies this`swapChain, this`swapChainCreateInfo, this`swapChainImages, this`swapChainImageFormat,
               this`swapChainExtent, this`nextHandle
      ensures err.None? <==> build.createResult == VK_SUCCESS
      ensures err.Some? ==> err == Some(SwapchainCreationFailed) && nextHandle == old(nextHandle)
      ensures err.None? ==>
                swapChainCreateInfo == Some(SwapchainCreateInfoFor(build.support, QueueFamiliesOf(pd.queueFamilies), build.framebufferSize))
      ensures err.None? ==> swapChainImageFormat == swapChainCreateInfo.value.imageFormat
      ensures err.None? ==> swapChainExtent == swapChainCreateInfo.value.imageExtent
      ensures err.None? ==> swapChain == old(nextHandle)
      ensures err.None? ==> |swapChainImages| == build.imageCount && nextHandle == swapChain + 1 + build.imageCount
      ensures err.None? ==> forall k :: 0 <= k < |swapChainImages| ==> swapChainImages[k] == swapChain + 1 + k
    {
      var createInfo := FillSwapchainCreateInfo(physicalDevice.value, build.support, build.framebufferSize);
      if build.createResult != VK_SUCCESS {
        return Some(SwapchainCreationFailed);
      }
      swapChain := NewHandle();
      swapChainCreateInfo := Some(createInfo);
      GetSwapchainImages(build.imageCount);
      swapChainImageFormat := createInfo.imageFormat;
      swapChainExtent := createInfo.imageExtent;
      return None;
    }

    /** vkGetSwapchainImagesKHR: resizes the image vector to the driver's count and fills it with the images. */
    method GetSwapchainImages(count: nat)
      modifies this`swapChainImages, this`nextHandle
      ensures |swapChainImages| == count
      ensures nextHandle == old(nextHandle) + count
      ensures forall k :: 0 <= k < count ==> swapChainImages[k] == old(nextHandle) + k
    {
      swapChainImages := Resize(swapChainImages, count, 0);
      for i := 0 to count
        invariant |swapChainImages| == count
        invariant nextHandle == old(nextHandle) + i
        invariant forall k :: 0 <= k < i ==> swapChainImages[k] == old(nextHandle) + k
      {
        var h := NewHandle();
        swapChainImages := swapChainImages[i := h];
      }
    }

    /** One view per swap-chain image, over that image, in the swap chain's format. */
    method CreateImageViews()
      modifies this`swapChainImageViews, this`nextHandle
      ensures |swapChainImageViews| == |swapChainImages|
      ensures nextHandle == old(nextHandle) + |swapChainImages|
      ensures forall k :: 0 <= k < |swapChainImages| ==>
                swapChainImageViews[k] == ImageView(old(nextHandle) + k, swapChainImages[k], swapChainImageFormat)
    {
      swapChainImageViews := Resize(swapChainImageViews, |swapChainImages|, ImageView(0, 0, VK_FORMAT_UNDEFINED));
      for i := 0 to |swapChainImages|
        invariant |swapChainImageViews| == |swapChainImages|
        invariant nextHandle == old(nextHandle) + i
        invariant forall k :: 0 <= k < i ==>
                    swapChainImageViews[k] == ImageView(old(nextHandle) + k, swapChainImages[k], swapChainImageFormat)
      {
        var h := NewHandle();
        swapChainImageViews := swapChainImageViews[i := ImageView(h, swapChainImages[i], swapChainImageFormat)];
      }
    }

    /** One framebuffer per image view, attached to that view, of the swap chain's extent. */
    method CreateFramebuffers()
      modifies this`swapChainFramebuffers, this`nextHandle
      ensures |swapChainFramebuffers| == |swapChainImageViews|
      ensures nextHandle == old(nextHandle) + |swapChainImageViews|
      ensures forall k :: 0 <= k < |swapChainImageViews| ==>
                swapChainFramebuffers[k]
                  == Framebuffer(old(nextHandle) + k, swapChainImageViews[k].handle, swapChainExtent.width, swapChainExtent.height)
    {
      swapChainFramebuffers := Resize(swapChainFramebuffers, |swapChainImageViews|, Framebuffer(0, 0, 0, 0));
      for i := 0 to |swapChainImageViews|
        invariant |swapChainFramebuffers| == |swapChainImageViews|
        invariant nextHandle == old(nextHandle) + i
        invariant forall k :: 0 <= k < i ==>
                    swapChainFramebuffers[k]
                      == Framebuffer(old(nextHandle) + k, swapChainImageViews[k].handle, swapChainExtent.width, swapChainExtent.height)
      {
        var h := NewHandle();
        swapChainFramebuffers := swapChainFramebuffers[i := Framebuffer(h, swapChainImageViews[i].handle,
                                                                        swapChainExtent.width, swapChainExtent.height)];
      }
    }

    /**
     * The swap-chain steps InitVulkan and RecreateSwapChain both run, in this
     * order: the swap chain with its images, one view per image, one
     * framebuffer per view.
     */
    method CreateSwapChainResources(ghost pd: PhysicalDevice, build: SwapchainBuild) returns (err: Option<RuntimeError>)
      requires PickedSuitable(pd) && SupportUsable(build.support)
      modifies this`swapChain, this`swapChainCreateInfo, this`swapChainImages, this`swapChainImageFormat,
               this`swapChainExtent, this`swapChainImageViews, this`swapChainFramebuffers, this`nextHandle
      ensures err.None? <==> build.createResult == VK_SUCCESS
      ensures err.Some? ==> err == Some(SwapchainCreationFailed) && nextHandle == old(nextHandle)
      ensures err.Some? ==> swapChainFramebuffers == old(swapChainFramebuffers)
      ensures err.None? ==>
                swapChainCreateInfo == Some(SwapchainCreateInfoFor(build.support, QueueFamiliesOf(pd.queueFamilies), build.framebufferSize))
      ensures err.None? ==> SwapchainFormed() && BuiltSince(old(nextHandle))
      ensures err.None? ==> |swapChainImages| == |swapChainImageViews| == |swapChainFramebuffers| == build.imageCount
    {
      err := CreateSwapChain(pd, build);
      if err.Some? {
        return;
      }
      CreateImageViews();
      CreateFramebuffers();
    }

    /** One command buffer per framebuffer of the swap chain as it is now; never reallocated later. */
    method CreateCommandBuffers(allocResult: VkResult) returns (err: Option<RuntimeError>)
      modifies this`commandBuffers, this`nextHandle
      ensures |commandBuffers| == |swapChainFramebuffers|
      ensures err.None? <==> allocResult == VK_SUCCESS
      ensures err.Some? ==> err == Some(CommandBufferAllocationFailed)
      ensures err.None? ==> forall k :: 0 <= k < |commandBuffers| ==> old(nextHandle) <= commandBuffers[k] < nextHandle
    {
      commandBuffers := Resize(commandBuffers, |swapChainFramebuffers|, 0);
      if allocResult != VK_SUCCESS {
        return Some(CommandBufferAllocationFailed);
      }
      for i := 0 to |commandBuffers|
        invariant |commandBuffers| == |swapChainFramebuffers|
        invariant nextHandle == old(nextHandle) + i
        invariant forall k :: 0 <= k < i ==> commandBuffers[k] == old(nextHandle) + k
      {
        var h := NewHandle();
        commandBuffers := commandBuffers[i := h];
      }
      return None;
    }

    /**
     * For each frame slot: the image-available semaphore, the
     * render-finished semaphore and the in-flight fence, created signalled;
     * the first failing creation ends the loop.
     */
    method CreateSyncObjects(results: seq<SyncObjectResults>) returns (err: Option<RuntimeError>)
      requires |results| == MAX_FRAMES_IN_FLIGHT
      modifies this`imageAvailableSemaphores, this`renderFinishedSemaphores, this`inFlightFences, this`nextHandle
      ensures |imageAvailableSemaphores| == |renderFinishedSemaphores| == |inFlightFences| == MAX_FRAMES_IN_FLIGHT
      ensures err.None? <==> forall k :: 0 <= k < MAX_FRAMES_IN_FLIGHT ==> SyncObjectsCreated(results[k])
      ensures err.Some? ==> err == Some(SyncObjectCreationFailed)
      ensures err.None? ==> forall k :: 0 <= k < MAX_FRAMES_IN_FLIGHT ==> inFlightFences[k]
    {
      imageAvailableSemaphores := Resize(imageAvailableSemaphores, MAX_FRAMES_IN_FLIGHT, 0);
      renderFinishedSemaphores := Resize(renderFinishedSemaphores, MAX_FRAMES_IN_FLIGHT, 0);
      inFlightFences := Resize(inFlightFences, MAX_FRAMES_IN_FLIGHT, false);
      for i := 0 to MAX_FRAMES_IN_FLIGHT
        invariant |imageAvailableSemaphores| == |renderFinishedSemaphores| == |inFlightFences| == MAX_FRAMES_IN_FLIGHT
        invariant forall k :: 0 <= k < i ==> SyncObjectsCreated(results[k]) && inFlightFences[k]
      {
        if results[i].imageAvailable != VK_SUCCESS {
          return Some(SyncObjectCreationFailed);
        }
        var h := NewHandle();
        imageAvailableSemaphores := imageAvailableSemaphores[i := h];
        if results[i].renderFinished != VK_SUCCESS {
          return Some(SyncObjectCreationFailed);
        }
        h := NewHandle();
        renderFinishedSemaphores := renderFinishedSemaphores[i := h];
        // the fence's result is tested as a truth value: any non-zero code fails
        if results[i].inFlight != 0 {
          return Some(SyncObjectCreationFailed);
        }
        inFlightFences := inFlightFences[i := true];
      }
      return None;
    }

    /** Destroys every framebuffer, then every image view, then the swap chain; the vectors keep their entries. */
    method CleanupSwapChain()
      modifies this`destroyed
      ensures destroyed == old(destroyed) + TeardownTrace(swapChainFramebuffers, swapChainImageViews, swapChain)
    {
      for i := 0 to |swapChainFramebuffers|
        invariant destroyed == old(destroyed) + FramebufferTeardown(swapChainFramebuffers[..i])
      {
        assert swapChainFramebuffers[..i + 1][..i] == swapChainFramebuffers[..i];
        destroyed := destroyed + [Destruction(FramebufferObject, swapChainFramebuffers[i].handle)];
      }
      assert swapChainFramebuffers[..|swapChainFramebuffers|] == swapChainFramebuffers;
      ghost var afterFramebuffers := destroyed;
      for i := 0 to |swapChainImageViews|
        invariant destroyed == afterFramebuffers + ViewTeardown(swapChainImageViews[..i])
      {
        assert swapChainImageViews[..i + 1][..i] == swapChainImageViews[..i];
        destroyed := destroyed + [Destruction(ImageViewObject, swapChainImageViews[i].handle)];
      }
      assert swapChainImageViews[..|swapChainImageViews|] == swapChainImageViews;
      destroyed := destroyed + [Destruction(SwapchainObject, swapChain)];
    }

    /**
     * Tears the swap chain down and builds it again, with its views and
     * framebuffers, from what the driver and the window now report; the
     * command buffers and the frame-pacing fields are left as they are.
     */
    method RecreateSwapChain(ghost pd: PhysicalDevice, build: SwapchainBuild) returns (err: Option<RuntimeError>)
      requires SwapchainValid() && PickedSuitable(pd) && SupportUsable(build.support)
      modifies this`destroyed, this`swapChain, this`swapChainCreateInfo, this`swapChainImages, this`swapChainImageFormat,
               this`swapChainExtent, this`swapChainImageViews, this`swapChainFramebuffers, this`nextHandle
      ensures destroyed == old(destroyed) + TeardownTrace(old(swapChainFramebuffers), old(swapChainImageViews), old(swapChain))
      ensures err.None? <==> build.createResult == VK_SUCCESS
      ensures err.Some? ==> err == Some(SwapchainCreationFailed) && swapChainFramebuffers == old(swapChainFramebuffers)
      ensures err.None? ==>
                swapChainCreateInfo == Some(SwapchainCreateInfoFor(build.support, QueueFamiliesOf(pd.queueFamilies), build.framebufferSize))
      ensures err.None? ==> SwapchainValid() && BuiltSince(old(nextHandle))
      ensures err.None? ==> |swapChainImages| == |swapChainImageViews| == |swapChainFramebuffers| == build.imageCount
    {
      CleanupSwapChain();
      err := CreateSwapChainResources(pd, build);
    }

    /** The resize callback: records that the framebuffer size changed. */
    method FramebufferResizeCallback()
      modifies this`framebufferResized
      ensures framebufferResized
    {
      framebufferResized := true;
    }

    /**
     * One frame: wait for the slot's fence, acquire, record and submit the
     * acquired image's command buffer, present, rebuild when the swap chain
     * is stale or the window was resized, and advance the slot.
     */
    method DrawFrame(ghost pd: PhysicalDevice, f: FrameInputs) returns (outcome: FrameOutcome)
      requires Valid() && PickedSuitable(pd) && SupportUsable(f.rebuild.support)
      modifies this`inFlightFences, this`currentFrame, this`framebufferResized,
               this`destroyed, this`swapChain, this`swapChainCreateInfo, this`swapChainImages, this`swapChainImageFormat,
               this`swapChainExtent, this`swapChainImageViews, this`swapChainFramebuffers, this`nextHandle
      ensures var step := DrawFrameStep(old(State()), f, |commandBuffers|);
              outcome == step.outcome && State() == step.next
      ensures !outcome.Fatal? ==> Valid()
      ensures RebuildAttempted(outcome) ==>
                destroyed == old(destroyed) + TeardownTrace(old(swapChainFramebuffers), old(swapChainImageViews), old(swapChain))
      ensures RebuildAttempted(outcome) && !outcome.Fatal? ==>
                && swapChainCreateInfo
                     == Some(SwapchainCreateInfoFor(f.rebuild.support, QueueFamiliesOf(pd.queueFamilies), f.rebuild.framebufferSize))
                && BuiltSince(old(nextHandle))
      ensures !RebuildAttempted(outcome) ==>
                unchanged(this`swapChain, this`swapChainCreateInfo, this`swapChainImages, this`swapChainImageFormat,
                          this`swapChainExtent, this`swapChainImageViews, this`swapChainFramebuffers, this`destroyed,
                          this`nextHandle)
    {
      // vkWaitForFences returns once the slot's fence is signalled
      SetSlotFence(true);
      if f.acquireResult == VK_ERROR_OUT_OF_DATE_KHR {
        outcome := RebuildOnAcquire(pd, f.rebuild);
        return;
      } else if f.acquireResult != VK_SUCCESS && f.acquireResult != VK_SUBOPTIMAL_KHR {
        return Fatal(AcquireFailed);
      }
      SetSlotFence(false);
      outcome := SubmitFrame(pd, f);
    }

    /** The acquire reported the swap chain out of date: rebuild it and end the frame without rendering. */
    method RebuildOnAcquire(ghost pd: PhysicalDevice, build: SwapchainBuild) returns (outcome: FrameOutcome)
      requires Valid() && PickedSuitable(pd) && SupportUsable(build.support)
      modifies this`destroyed, this`swapChain, this`swapChainCreateInfo, this`swapChainImages, this`swapChainImageFormat,
               this`swapChainExtent, this`swapChainImageViews, this`swapChainFramebuffers, this`nextHandle
      ensures outcome == if build.createResult == VK_SUCCESS then RebuiltBeforeRender else Fatal(SwapchainCreationFailed)
      ensures State() == if build.createResult == VK_SUCCESS then old(State()).(framebufferCount := build.imageCount)
                         else old(State())
      ensures !outcome.Fatal? ==> Valid()
      ensures destroyed == old(destroyed) + TeardownTrace(old(swapChainFramebuffers), old(swapChainImageViews), old(swapChain))
      ensures build.createResult == VK_SUCCESS ==>
                && swapChainCreateInfo
                     == Some(SwapchainCreateInfoFor(build.support, QueueFamiliesOf(pd.queueFamilies), build.framebufferSize))
                && BuiltSince(old(nextHandle))
    {
      var err := RecreateSwapChain(pd, build);
      if err.Some? {
        return Fatal(err.value);
      }
      outcome := RebuiltBeforeRender;
    }

    /**
     * The middle of DrawFrame once an image is acquired: look up the
     * acquired image's command buffer and framebuffer, record the command
     * buffer, submit it, then present.
     */
    method SubmitFrame(ghost pd: PhysicalDevice, f: FrameInputs) returns (outcome: FrameOutcome)
      requires Valid() && PickedSuitable(pd) && SupportUsable(f.rebuild.support)
      modifies this`currentFrame, this`framebufferResized,
               this`destroyed, this`swapChain, this`swapChainCreateInfo, this`swapChainImages, this`swapChainImageFormat,
               this`swapChainExtent, this`swapChainImageViews, this`swapChainFramebuffers, this`nextHandle
      ensures var step := SubmitStep(old(State()), f, |commandBuffers|);
              outcome == step.outcome && State() == step.next
      ensures !outcome.Fatal? ==> Valid()
      ensures RebuildAttempted(outcome) ==>
                destroyed == old(destroyed) + TeardownTrace(old(swapChainFramebuffers), old(swapChainImageViews), old(swapChain))
      ensures RebuildAttempted(outcome) && !outcome.Fatal? ==>
                && swapChainCreateInfo
                     == Some(SwapchainCreateInfoFor(f.rebuild.support, QueueFamiliesOf(pd.queueFamilies), f.rebuild.framebufferSize))
                && BuiltSince(old(nextHandle))
      ensures !RebuildAttempted(outcome) ==>
                unchanged(this`swapChain, this`swapChainCreateInfo, this`swapChainImages, this`swapChainImageFormat,
                          this`swapChainExtent, this`swapChainImageViews, this`swapChainFramebuffers, this`destroyed,
                          this`nextHandle)
    {
      // the command buffer and the framebuffer are both looked up by the acquired index
      if |commandBuffers| <= f.imageIndex || |swapChainFramebuffers| <= f.imageIndex {
        return Fatal(ImageIndexOutOfRange);
      }
      // RecordCommandBuffer: only its begin and end results matter here
      if f.beginResult != VK_SUCCESS {
        return Fatal(BeginRecordingFailed);
      }
      if f.endResult != VK_SUCCESS {
        return Fatal(EndRecordingFailed);
      }
      if f.submitResult != VK_SUCCESS {
        return Fatal(SubmitFailed);
      }
      outcome := PresentFrame(pd, f);
    }

    /**
     * The end of DrawFrame once the frame is submitted: present, rebuild the
     * swap chain when the present reports it stale or a resize is pending,
     * and advance the slot.
     */
    method PresentFrame(ghost pd: PhysicalDevice, f: FrameInputs) returns (outcome: FrameOutcome)
      requires Valid() && PickedSuitable(pd) && SupportUsable(f.rebuild.support)
      modifies this`currentFrame, this`framebufferResized,
               this`destroyed, this`swapChain, this`swapChainCreateInfo, this`swapChainImages, this`swapChainImageFormat,
               this`swapChainExtent, this`swapChainImageViews, this`swapChainFramebuffers, this`nextHandle
      ensures var step := PresentStep(old(State()), f);
              outcome == step.outcome && State() == step.next
      ensures !outcome.Fatal? ==> Valid()
      ensures RebuildAttempted(outcome) ==>
                destroyed == old(destroyed) + TeardownTrace(old(swapChainFramebuffers), old(swapChainImageViews), old(swapChain))
      ensures RebuildAttempted(outcome) && !outcome.Fatal? ==>
                && swapChainCreateInfo
                     == Some(SwapchainCreateInfoFor(f.rebuild.support, QueueFamiliesOf(pd.queueFamilies), f.rebuild.framebufferSize))
                && BuiltSince(old(nextHandle))
      ensures !RebuildAttempted(outcome) ==>
                unchanged(this`swapChain, this`swapChainCreateInfo, this`swapChainImages, this`swapChainImageFormat,
                          this`swapChainExtent, this`swapChainImageViews, this`swapChainFramebuffers, this`destroyed,
                          this`nextHandle)
    {
      if f.presentResult == VK_ERROR_OUT_OF_DATE_KHR || f.presentResult == VK_SUBOPTIMAL_KHR || framebufferResized {
        framebufferResized := false;
        outcome := RebuildOnPresent(pd, f.rebuild);
        return;
      } else if f.presentResult != VK_SUCCESS {
        return Fatal(PresentFailed);
      }
      outcome := Presented;
      AdvanceFrame();
    }

    /** After a stale present or a resize: rebuild the swap chain, then advance the slot as every presented frame does. */
    method RebuildOnPresent(ghost pd: PhysicalDevice, build: SwapchainBuild) returns (outcome: FrameOutcome)
      requires Valid() && PickedSuitable(pd) && SupportUsable(build.support)
      modifies this`currentFrame,
               this`destroyed, this`swapChain, this`swapChainCreateInfo, this`swapChainImages, this`swapChainImageFormat,
               this`swapChainExtent, this`swapChainImageViews, this`swapChainFramebuffers, this`nextHandle
      ensures outcome == if build.createResult == VK_SUCCESS then PresentedAndRebuilt else Fatal(SwapchainCreationFailed)
      ensures State() == if build.createResult == VK_SUCCESS
                         then old(State()).(currentFrame := (old(currentFrame) + 1) % MAX_FRAMES_IN_FLIGHT,
                                            framebufferCount := build.imageCount)
                         else old(State())
      ensures !outcome.Fatal? ==> Valid()
      ensures destroyed == old(destroyed) + TeardownTrace(old(swapChainFramebuffers), old(swapChainImageViews), old(swapChain))
      ensures build.createResult == VK_SUCCESS ==>
                && swapChainCreateInfo
                     == Some(SwapchainCreateInfoFor(build.support, QueueFamiliesOf(pd.queueFamilies), build.framebufferSize))
                && BuiltSince(old(nextHandle))
    {
      var err := RecreateSwapChain(pd, build);
      if err.Some? {
        return Fatal(err.value);
      }
      outcome := PresentedAndRebuilt;
      AdvanceFrame();
    }

    /** vkWaitForFences (signalled) or vkResetFences (unsignalled) on the current slot's fence. */
    method SetSlotFence(signalled: bool)
      requires SyncReady()
      modifies this`inFlightFences
      ensures SyncReady() && inFlightFences == old(inFlightFences)[currentFrame := signalled]
    {
      inFlightFences := inFlightFences[currentFrame := signalled];
    }

    /** Moves to the next slot of the ring. */
    method AdvanceFrame()
      requires SyncReady()
      modifies this`currentFrame
      ensures SyncReady() && currentFrame == (old(currentFrame) + 1) % MAX_FRAMES_IN_FLIGHT
    {
      currentFrame := (currentFrame + 1) % MAX_FRAMES_IN_FLIGHT;
    }

    /**
     * The main loop over the iterations before the window closes: poll
     * events (the resize callback fires when the window was resized), then
     * draw a frame; a fatal error ends the loop.
     */
    method MainLoop(ghost pd: PhysicalDevice, frames: seq<FrameInputs>) returns (records: seq<FrameRecord>)
      requires Valid() && PickedSuitable(pd)
      requires forall k :: 0 <= k < |frames| ==> SupportUsable(frames[k].rebuild.support)
      modifies this`inFlightFences, this`currentFrame, this`framebufferResized,
               this`destroyed, this`swapChain, this`swapChainCreateInfo, this`swapChainImages, this`swapChainImageFormat,
               this`swapChainExtent, this`swapChainImageViews, this`swapChainFramebuffers, this`nextHandle
      ensures (State(), records) == RunFrames(old(State()), frames, |commandBuffers|)
      ensures (forall k :: 0 <= k < |records| ==> !records[k].outcome.Fatal?) ==> Valid()
    {
      records := [];
      ghost var start := State();
      var i := 0;
      assert frames[i..] == frames;
      assert records + RunFrames(start, frames, |commandBuffers|).1 == RunFrames(start, frames, |commandBuffers|).1;
      while i < |frames|
        invariant 0 <= i <= |frames|
        invariant Valid()
        invariant var rest := RunFrames(State(), frames[i..], |commandBuffers|);
                  RunFrames(start, frames, |commandBuffers|) == (rest.0, records + rest.1)
      {
        var record := MainLoopIteration(pd, frames, i);
        if record.outcome.Fatal? {
          records := records + [record];
          assert records[|records| - 1].outcome.Fatal?;
          return;
        }
        AppendAssociative(records, [record], RunFrames(State(), frames[i + 1..], |commandBuffers|).1);
        records := records + [record];
        i := i + 1;
      }
      assert records + [] == records;
    }

    /**
     * One iteration of the main loop, the first of `frames`: poll events,
     * then draw a frame. Its record is the first RunFrames makes, and when it
     * is not fatal the rest of the run starts from the new state.
     */
    method MainLoopIteration(ghost pd: PhysicalDevice, frames: seq<FrameInputs>, i: nat) returns (record: FrameRecord)
      requires Valid() && PickedSuitable(pd) && i < |frames| && SupportUsable(frames[i].rebuild.support)
      modifies this`inFlightFences, this`currentFrame, this`framebufferResized,
               this`destroyed, this`swapChain, this`swapChainCreateInfo, this`swapChainImages, this`swapChainImageFormat,
               this`swapChainExtent, this`swapChainImageViews, this`swapChainFramebuffers, this`nextHandle
      ensures record.outcome.Fatal? ==> RunFrames(old(State()), frames[i..], |commandBuffers|) == (State(), [record])
      ensures !record.outcome.Fatal? ==>
                && Valid()
                && var rest := RunFrames(State(), frames[i + 1..], |commandBuffers|);
                   RunFrames(old(State()), frames[i..], |commandBuffers|) == (rest.0, [record] + rest.1)
      ensures RebuildAttempted(record.outcome) ==>
                destroyed == old(destroyed) + TeardownTrace(old(swapChainFramebuffers), old(swapChainImageViews), old(swapChain))
      ensures RebuildAttempted(record.outcome) && !record.outcome.Fatal? ==>
                && swapChainCreateInfo
                     == Some(SwapchainCreateInfoFor(frames[i].rebuild.support, QueueFamiliesOf(pd.queueFamilies), frames[i].rebuild.framebufferSize))
                && BuiltSince(old(nextHandle))
      ensures !RebuildAttempted(record.outcome) ==>
                unchanged(this`swapChain, this`swapChainCreateInfo, this`swapChainImages, this`swapChainImageFormat,
                          this`swapChainExtent, this`swapChainImageViews, this`swapChainFramebuffers, this`destroyed,
                          this`nextHandle)
    {
      ghost var before := State();
      assert frames[i..][0] == frames[i] && frames[i..][1..] == frames[i + 1..];
      if frames[i].windowResized {
        FramebufferResizeCallback();
      }
      assert State() == Polled(before, frames[i]);
      var slot, fenceWasSignalled := currentFrame, inFlightFences[currentFrame];
      var outcome := DrawFrame(pd, frames[i]);
      record := FrameRecord(slot, fenceWasSignalled, outcome);
    }

    /**
     * The initialisation steps of the presentation core, in order; the first
     * failing step ends initialisation with its error.
     */
    method InitVulkan(devices: seq<PhysicalDevice>, deviceResult: VkResult, build: SwapchainBuild,
                      allocResult: VkResult, syncResults: seq<SyncObjectResults>) returns (err: Option<RuntimeError>)
      requires Fresh() && |syncResults| == MAX_FRAMES_IN_FLIGHT && SupportUsable(build.support)
      modifies this
      ensures err == InitError(devices, deviceResult, build, allocResult, syncResults)
      ensures err.None? ==>
                && Valid()
                && physicalDevice == Some(devices[FirstSuitable(devices, 0).value])
                && swapChainCreateInfo
                     == Some(SwapchainCreateInfoFor(build.support, QueueFamiliesOf(physicalDevice.value.queueFamilies), build.framebufferSize))
                && |commandBuffers| == |swapChainImages| == build.imageCount
                && State() == InitialState(build.imageCount)
    {
      err := PickPhysicalDevice(devices);
      if err.Some? {
        return;
      }
      ghost var pd := devices[FirstSuitable(devices, 0).value];
      err := CreateDeviceObjects(pd, deviceResult, build, allocResult, syncResults);
    }

    /**
     * The initialisation steps after the device is picked: the logical
     * device, the swap chain with its views and framebuffers, the command
     * buffers and the per-slot synchronisation objects.
     */
    method CreateDeviceObjects(ghost pd: PhysicalDevice, deviceResult: VkResult, build: SwapchainBuild,
                               allocResult: VkResult, syncResults: seq<SyncObjectResults>) returns (err: Option<RuntimeError>)
      requires PickedSuitable(pd) && 0 < nextHandle && currentFrame == 0 && !framebufferResized
      requires |syncResults| == MAX_FRAMES_IN_FLIGHT && SupportUsable(build.support)
      modifies this`device, this`deviceQueueCreateInfos, this`graphicsQueue, this`presentQueue,
               this`swapChain, this`swapChainCreateInfo, this`swapChainImages, this`swapChainImageFormat,
               this`swapChainExtent, this`swapChainImageViews, this`swapChainFramebuffers, this`commandBuffers,
               this`imageAvailableSemaphores, this`renderFinishedSemaphores, this`inFlightFences, this`nextHandle
      ensures err == DeviceObjectsError(deviceResult, build, allocResult, syncResults)
      ensures err.None? ==>
                && Valid()
                && swapChainCreateInfo
                     == Some(SwapchainCreateInfoFor(build.support, QueueFamiliesOf(pd.queueFamilies), build.framebufferSize))
                && |commandBuffers| == |swapChainImages| == build.imageCount
                && State() == InitialState(build.imageCount)
    {
      err := CreateLogicalDevice(pd, deviceResult);
      if err.Some? {
        return;
      }
      err := CreatePresentationObjects(pd, build, allocResult, syncResults);
    }

    /**
     * The initialisation steps after the logical device: the swap chain with
     * its views and framebuffers, then the command buffers and the per-slot
     * synchronisation objects.
     */
    method CreatePresentationObjects(ghost pd: PhysicalDevice, build: SwapchainBuild, allocResult: VkResult,
                                     syncResults: seq<SyncObjectResults>) returns (err: Option<RuntimeError>)
      requires PickedSuitable(pd) && DeviceReady() && currentFrame == 0 && !framebufferResized
      requires |syncResults| == MAX_FRAMES_IN_FLIGHT && SupportUsable(build.support)
      modifies this`swapChain, this`swapChainCreateInfo, this`swapChainImages, this`swapChainImageFormat,
               this`swapChainExtent, this`swapChainImageViews, this`swapChainFramebuffers, this`commandBuffers,
               this`imageAvailableSemaphores, this`renderFinishedSemaphores, this`inFlightFences, this`nextHandle
      ensures err == PresentationObjectsError(build, allocResult, syncResults)
      ensures err.None? ==>
                && Valid()
                && swapChainCreateInfo
                     == Some(SwapchainCreateInfoFor(build.support, QueueFamiliesOf(pd.queueFamilies), build.framebufferSize))
                && |commandBuffers| == |swapChainImages| == build.imageCount
                && State() == InitialState(build.imageCount)
    {
      err := CreateSwapChainResources(pd, build);
      if err.Some? {
        return;
      }
      err := CreatePerFrameObjects(allocResult, syncResults);
      if err.None? {
        assert State() == FrameState(0, false, [true, true], build.imageCount);
      }
    }

    /** The last two initialisation steps: a command buffer per framebuffer, then the per-slot synchronisation objects. */
    method CreatePerFrameObjects(allocResult: VkResult, syncResults: seq<SyncObjectResults>) returns (err: Option<RuntimeError>)
      requires |syncResults| == MAX_FRAMES_IN_FLIGHT
      modifies this`commandBuffers, this`imageAvailableSemaphores, this`renderFinishedSemaphores, this`inFlightFences,
               this`nextHandle
      ensures err == PerFrameObjectsError(allocResult, syncResults)
      ensures err.None? ==>
                && |commandBuffers| == |swapChainFramebuffers|
                && |imageAvailableSemaphores| == |renderFinishedSemaphores| == MAX_FRAMES_IN_FLIGHT
                && inFlightFences == [true, true]
    {
      err := CreateCommandBuffers(allocResult);
      if err.Some? {
        return;
      }
      err := CreateSyncObjects(syncResults);
      if err.None? {
        assert inFlightFences == [true, true];
      }
    }
  }

  /** The error the initialisation steps end with: the first step that fails, or none. */
  function InitError(devices: seq<PhysicalDevice>, deviceResult: VkResult, build: SwapchainBuild,
                     allocResult: VkResult, syncResults: seq<SyncObjectResults>): (r: Option<RuntimeError>)
    requires |syncResults| == MAX_FRAMES_IN_FLIGHT
    ensures r.None? <==>
              && FirstSuitable(devices, 0).Some?
              && deviceResult == VK_SUCCESS
              && build.createResult == VK_SUCCESS
              && allocResult == VK_SUCCESS
              && forall k :: 0 <= k < MAX_FRAMES_IN_FLIGHT ==> SyncObjectsCreated(syncResults[k])
  {
    if |devices| == 0 then Some(NoVulkanDevice)
    else if FirstSuitable(devices, 0).None? then Some(NoSuitableDevice)
    else DeviceObjectsError(deviceResult, build, allocResult, syncResults)
  }

  /** The error the steps after device picking end with: the first of them that fails, or none. */
  function DeviceObjectsError(deviceResult: VkResult, build: SwapchainBuild, allocResult: VkResult,
                              syncResults: seq<SyncObjectResults>): (r: Option<RuntimeError>)
    requires |syncResults| == MAX_FRAMES_IN_FLIGHT
  {
    if deviceResult != VK_SUCCESS then Some(LogicalDeviceCreationFailed)
    else PresentationObjectsError(build, allocResult, syncResults)
  }

  /** The error the swap-chain, command-buffer and synchronisation-object steps end with, or none. */
  function PresentationObjectsError(build: SwapchainBuild, allocResult: VkResult,
                                    syncResults: seq<SyncObjectResults>): (r: Option<RuntimeError>)
    requires |syncResults| == MAX_FRAMES_IN_FLIGHT
  {
    if build.createResult != VK_SUCCESS then Some(SwapchainCreationFailed)
    else PerFrameObjectsError(allocResult, syncResults)
  }

  /** The error the command-buffer and synchronisation-object steps end with, or none. */
  function PerFrameObjectsError(allocResult: VkResult, syncResults: seq<SyncObjectResults>): (r: Option<RuntimeError>)
    requires |syncResults| == MAX_FRAMES_IN_FLIGHT
  {
    if allocResult != VK_SUCCESS then Some(CommandBufferAllocationFailed)
    else if !(forall k :: 0 <= k < MAX_FRAMES_IN_FLIGHT ==> SyncObjectsCreated(syncResults[k])) then Some(SyncObjectCreationFailed)
    else None
  }
}
