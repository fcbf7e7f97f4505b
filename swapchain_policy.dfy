/**
 * The choices made each time the swap chain is (re)built: surface format,
 * present mode, image extent, image count and image sharing, gathered into
 * the VkSwapchainCreateInfoKHR fields the program fills in.
 */
module SwapchainPolicy {
  import opened VkTypes
  import opened QueueFamilies

  /** The format/colour-space pair the program prefers. */
  const PREFERRED_SURFACE_FORMAT: SurfaceFormat :=
    SurfaceFormat(VK_FORMAT_B8G8R8A8_UNORM, VK_COLOR_SPACE_SRGB_NONLINEAR_KHR)

  /** The surface has no preferred format: its only entry is VK_FORMAT_UNDEFINED. */
  predicate NoPreferredFormat(available: seq<SurfaceFormat>) {
    |available| == 1 && available[0].format == VK_FORMAT_UNDEFINED
  }

  function SurfaceFormatChoice(available: seq<SurfaceFormat>): SurfaceFormat
    requires |available| > 0
  {
    if NoPreferredFormat(available) then PREFERRED_SURFACE_FORMAT
    else if PREFERRED_SURFACE_FORMAT in available then PREFERRED_SURFACE_FORMAT
    else available[0]
  }

  /**
   * The default pair when the surface has no preference; otherwise the
   * default pair if the surface lists it, else the first listed format.
   */
  method ChooseSwapSurfaceFormat(available: seq<SurfaceFormat>) returns (r: SurfaceFormat)
    requires |available| > 0
    ensures NoPreferredFormat(available) ==> r == PREFERRED_SURFACE_FORMAT
    ensures !NoPreferredFormat(available) && PREFERRED_SURFACE_FORMAT in available ==> r == PREFERRED_SURFACE_FORMAT
    ensures !NoPreferredFormat(available) && PREFERRED_SURFACE_FORMAT !in available ==> r == available[0]
    ensures r in available || NoPreferredFormat(available)
    ensures r == SurfaceFormatChoice(available)
  {
    if |available| == 1 && available[0].format == VK_FORMAT_UNDEFINED {
      return PREFERRED_SURFACE_FORMAT;
    }
    for i := 0 to |available|
      invariant PREFERRED_SURFACE_FORMAT !in available[..i]
    {
      if VK_FORMAT_B8G8R8A8_UNORM == available[i].format && VK_COLOR_SPACE_SRGB_NONLINEAR_KHR == available[i].colorSpace {
        return available[i];
      }
    }
    assert available[..|available|] == available;
    return available[0];
  }

  function PresentModeChoice(modes: seq<PresentMode>): PresentMode {
    if VK_PRESENT_MODE_MAILBOX_KHR in modes then VK_PRESENT_MODE_MAILBOX_KHR
    else if VK_PRESENT_MODE_IMMEDIATE_KHR in modes then VK_PRESENT_MODE_IMMEDIATE_KHR
    else VK_PRESENT_MODE_FIFO_KHR
  }

  /**
   * MAILBOX wherever it occurs in the list; otherwise IMMEDIATE if listed;
   * otherwise FIFO, the one mode every surface supports.
   */
  method ChooseSwapPresentMode(modes: seq<PresentMode>) returns (r: PresentMode)
    ensures VK_PRESENT_MODE_MAILBOX_KHR in modes ==> r == VK_PRESENT_MODE_MAILBOX_KHR
    ensures VK_PRESENT_MODE_MAILBOX_KHR !in modes && VK_PRESENT_MODE_IMMEDIATE_KHR in modes
            ==> r == VK_PRESENT_MODE_IMMEDIATE_KHR
    ensures VK_PRESENT_MODE_MAILBOX_KHR !in modes && VK_PRESENT_MODE_IMMEDIATE_KHR !in modes
            ==> r == VK_PRESENT_MODE_FIFO_KHR
    ensures r in modes || r == VK_PRESENT_MODE_FIFO_KHR
    ensures r == PresentModeChoice(modes)
  {
    var bestMode := VK_PRESENT_MODE_FIFO_KHR;
    for i := 0 to |modes|
      invariant VK_PRESENT_MODE_MAILBOX_KHR !in modes[..i]
      invariant bestMode == if VK_PRESENT_MODE_IMMEDIATE_KHR in modes[..i]
                            then VK_PRESENT_MODE_IMMEDIATE_KHR else VK_PRESENT_MODE_FIFO_KHR
    {
      if VK_PRESENT_MODE_MAILBOX_KHR == modes[i] {
        return modes[i];
      } else if VK_PRESENT_MODE_IMMEDIATE_KHR == modes[i] {
        bestMode := modes[i];
      }
    }
    assert modes[..|modes|] == modes;
    return bestMode;
  }

  /** r is v clamped into [lo, hi]. */
  predicate ClampedInto(v: int, lo: int, hi: int, r: int) {
    && lo <= r <= hi
    && (lo <= v <= hi ==> r == v)
    && (v < lo ==> r == lo)
    && (hi < v ==> r == hi)
  }

  /** std::clamp, whose precondition is lo <= hi. */
  function Clamp(v: uint32, lo: uint32, hi: uint32): (r: uint32)
    requires lo <= hi
    ensures ClampedInto(v, lo, hi, r)
  {
    if v < lo then lo else if hi < v then hi else v
  }

  /** The surface lets the swap chain choose its extent (current width is UINT32_MAX). */
  predicate ExtentIsFree(caps: SurfaceCapabilities) {
    caps.currentExtent.width == UINT32_MAX
  }

  predicate ExtentBoundsOrdered(caps: SurfaceCapabilities) {
    caps.minImageExtent.width <= caps.maxImageExtent.width
    && caps.minImageExtent.height <= caps.maxImageExtent.height
  }

  /**
   * The surface's current extent unless its width is the sentinel; then the
   * window's framebuffer size with each component clamped into the surface's
   * [minImageExtent, maxImageExtent].
   */
  function ChooseSwapExtent(caps: SurfaceCapabilities, framebufferSize: Extent2D): (r: Extent2D)
    requires ExtentIsFree(caps) ==> ExtentBoundsOrdered(caps)
    ensures !ExtentIsFree(caps) ==> r == caps.currentExtent
    ensures ExtentIsFree(caps) ==>
              && ClampedInto(framebufferSize.width, caps.minImageExtent.width, caps.maxImageExtent.width, r.width)
              && ClampedInto(framebufferSize.height, caps.minImageExtent.height, caps.maxImageExtent.height, r.height)
  {
    if UINT32_MAX != caps.currentExtent.width then
      caps.currentExtent
    else
      Extent2D(Clamp(framebufferSize.width, caps.minImageExtent.width, caps.maxImageExtent.width),
               Clamp(framebufferSize.height, caps.minImageExtent.height, caps.maxImageExtent.height))
  }

  /**
   * The image count exactly as the program computes it: minImageCount + 1 in
   * uint32 arithmetic, lowered to maxImageCount when that is non-zero and
   * exceeded.
   */
  function ImageCountAsWritten(caps: SurfaceCapabilities): (r: uint32)
    ensures caps.maxImageCount > 0 ==> r <= caps.maxImageCount
    ensures caps.minImageCount < UINT32_MAX && (caps.maxImageCount == 0 || caps.minImageCount + 1 <= caps.maxImageCount)
            ==> r == caps.minImageCount + 1
    ensures caps.minImageCount == UINT32_MAX ==> r == 0
  {
    var imageCount: uint32 := (caps.minImageCount + 1) % 0x1_0000_0000;
    if caps.maxImageCount > 0 && imageCount > caps.maxImageCount then caps.maxImageCount else imageCount
  }

  /**
   * For a surface whose minImageCount is UINT32_MAX the addition wraps and
   * the program asks for zero images, fewer than the surface's minimum,
   * whatever the maximum is.
   */
  lemma ImageCountAsWrittenWraps(caps: SurfaceCapabilities)
    requires caps.minImageCount == UINT32_MAX
    ensures ImageCountAsWritten(caps) == 0 < caps.minImageCount
  {
  }

  /**
   * The intended image count: one more than the minimum (never past
   * UINT32_MAX), lowered to a non-zero maximum.
   */
  function ImageCount(caps: SurfaceCapabilities): (r: uint32)
    ensures caps.maxImageCount > 0 ==> r <= caps.maxImageCount
    ensures caps.maxImageCount == 0 || caps.minImageCount <= caps.maxImageCount ==> caps.minImageCount <= r
    ensures caps.minImageCount < UINT32_MAX && (caps.maxImageCount == 0 || caps.minImageCount + 1 <= caps.maxImageCount)
            ==> r == caps.minImageCount + 1
    ensures caps.maxImageCount > 0 && caps.minImageCount + 1 > caps.maxImageCount ==> r == caps.maxImageCount
  {
    var imageCount: uint32 := if caps.minImageCount < UINT32_MAX then caps.minImageCount + 1 else caps.minImageCount;
    if caps.maxImageCount > 0 && imageCount > caps.maxImageCount then caps.maxImageCount else imageCount
  }

  /** Wherever the addition does not wrap, the two computations agree. */
  lemma ImageCountAgreesWithoutWrap(caps: SurfaceCapabilities)
    requires caps.minImageCount < UINT32_MAX
    ensures ImageCountAsWritten(caps) == ImageCount(caps)
  {
  }

  /** The VkSwapchainCreateInfoKHR fields the program sets. */
  datatype SwapchainCreateInfo = SwapchainCreateInfo(
    minImageCount: uint32,
    imageFormat: Format,
    imageColorSpace: ColorSpace,
    imageExtent: Extent2D,
    imageArrayLayers: nat,
    imageUsage: bv32,
    sharing: ImageSharing,
    preTransform: bv32,
    compositeAlpha: bv32,
    presentMode: PresentMode,
    clipped: bool)

  /**
   * What the surface query must report for the program's choices to be
   * defined: at least one format (the first one may be read) and, when the
   * extent is free, ordered extent bounds (std::clamp's precondition).
   */
  predicate SupportUsable(support: SwapChainSupportDetails) {
    |support.formats| > 0
    && (ExtentIsFree(support.capabilities) ==> ExtentBoundsOrdered(support.capabilities))
  }

  /**
   * The create info CreateSwapChain fills in: every choice is one the surface
   * offers (or the fallback the program documents), the image count respects
   * a non-zero maximum, and the sharing follows the queue families.
   */
  function SwapchainCreateInfoFor(support: SwapChainSupportDetails, indices: QueueFamilyIndices,
                                  framebufferSize: Extent2D): (r: SwapchainCreateInfo)
    requires SupportUsable(support) && indices.IsComplete()
    ensures support.capabilities.maxImageCount > 0 ==> r.minImageCount <= support.capabilities.maxImageCount
    ensures SurfaceFormat(r.imageFormat, r.imageColorSpace) in support.formats || NoPreferredFormat(support.formats)
    ensures r.presentMode in support.presentModes || r.presentMode == VK_PRESENT_MODE_FIFO_KHR
    ensures !ExtentIsFree(support.capabilities) ==> r.imageExtent == support.capabilities.currentExtent
    ensures ExtentIsFree(support.capabilities) ==>
              && support.capabilities.minImageExtent.width <= r.imageExtent.width <= support.capabilities.maxImageExtent.width
              && support.capabilities.minImageExtent.height <= r.imageExtent.height <= support.capabilities.maxImageExtent.height
    ensures r.sharing.imageSharingMode == VK_SHARING_MODE_CONCURRENT <==> indices.graphicsFamily != indices.presentFamily
  {
    var surfaceFormat := SurfaceFormatChoice(support.formats);
    SwapchainCreateInfo(
      ImageCount(support.capabilities),
      surfaceFormat.format,
      surfaceFormat.colorSpace,
      ChooseSwapExtent(support.capabilities, framebufferSize),
      1,
      VK_IMAGE_USAGE_COLOR_ATTACHMENT_BIT,
      ImageSharingFor(indices),
      support.capabilities.currentTransform,
      VK_COMPOSITE_ALPHA_OPAQUE_BIT_KHR,
      PresentModeChoice(support.presentModes),
      true)
  }

  /**
   * The image count in the create info is the program's own uint32
   * computation for every surface whose minimum is below UINT32_MAX.
   */
  lemma CreateInfoImageCountAsWritten(support: SwapChainSupportDetails, indices: QueueFamilyIndices, framebufferSize: Extent2D)
    requires SupportUsable(support) && indices.IsComplete() && support.capabilities.minImageCount < UINT32_MAX
    ensures SwapchainCreateInfoFor(support, indices, framebufferSize).minImageCount == ImageCountAsWritten(support.capabilities)
  {
    ImageCountAgreesWithoutWrap(support.capabilities);
  }

  /**
   * At minImageCount = UINT32_MAX the create info asks for maxImageCount
   * images (UINT32_MAX when there is no maximum), where the program's wrapped
   * sum asks for none.
   */
  lemma CreateInfoImageCountAtWrap(support: SwapChainSupportDetails, indices: QueueFamilyIndices, framebufferSize: Extent2D)
    requires SupportUsable(support) && indices.IsComplete() && support.capabilities.minImageCount == UINT32_MAX
    ensures var count := SwapchainCreateInfoFor(support, indices, framebufferSize).minImageCount;
            && (support.capabilities.maxImageCount == 0 ==> count == UINT32_MAX)
            && (support.capabilities.maxImageCount > 0 ==> count == support.capabilities.maxImageCount)
            && ImageCountAsWritten(support.capabilities) == 0
  {
  }

  /**
   * What the driver and the window answer while one swap chain is built:
   * the re-queried surface support, the window's framebuffer size, the result
   * of vkCreateSwapchainKHR and how many images vkGetSwapchainImagesKHR
   * returns (the driver may return more than requested).
   */
  datatype SwapchainBuild = SwapchainBuild(
    support: SwapChainSupportDetails,
    framebufferSize: Extent2D,
    createResult: VkResult,
    imageCount: nat)
}
