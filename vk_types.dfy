/**
 * The plain data that the presentation core receives from the Vulkan driver
 * and from the window system: result codes, enumerants, surface capabilities,
 * queue-family descriptions and physical devices.
 *
 * Enumerant values are those of the Vulkan 1.0 headers (the Window System
 * Integration chapter for the VK_KHR_surface / VK_KHR_swapchain parts).
 */
module VkTypes {

  datatype Option<T> = None | Some(value: T)

  /** A C `uint32_t`. */
  const UINT32_MAX: int := 0xFFFF_FFFF
  type uint32 = x: int | 0 <= x <= 0xFFFF_FFFF

  /** Vulkan object handles; 0 is VK_NULL_HANDLE and is never handed out. */
  type Handle = nat

  // ----- VkResult -----
  type VkResult = int
  const VK_SUCCESS: VkResult := 0
  const VK_SUBOPTIMAL_KHR: VkResult := 1000001003
  const VK_ERROR_OUT_OF_DATE_KHR: VkResult := -1000001004

  // ----- VkFormat / VkColorSpaceKHR -----
  type Format = nat
  type ColorSpace = nat
  const VK_FORMAT_UNDEFINED: Format := 0
  const VK_FORMAT_B8G8R8A8_UNORM: Format := 44
  const VK_COLOR_SPACE_SRGB_NONLINEAR_KHR: ColorSpace := 0

  // ----- VkPresentModeKHR -----
  type PresentMode = nat
  const VK_PRESENT_MODE_IMMEDIATE_KHR: PresentMode := 0
  const VK_PRESENT_MODE_MAILBOX_KHR: PresentMode := 1
  const VK_PRESENT_MODE_FIFO_KHR: PresentMode := 2
  const VK_PRESENT_MODE_FIFO_RELAXED_KHR: PresentMode := 3

  // ----- VkSharingMode -----
  type SharingMode = nat
  const VK_SHARING_MODE_EXCLUSIVE: SharingMode := 0
  const VK_SHARING_MODE_CONCURRENT: SharingMode := 1

  // ----- flag bits used by the core -----
  const VK_QUEUE_GRAPHICS_BIT: bv32 := 0x1
  const VK_IMAGE_USAGE_COLOR_ATTACHMENT_BIT: bv32 := 0x10
  const VK_COMPOSITE_ALPHA_OPAQUE_BIT_KHR: bv32 := 0x1

  /** Why the program throws (std::runtime_error, or std::out_of_range from a vector's at()) and ends. */
  datatype RuntimeError =
    | NoVulkanDevice
    | NoSuitableDevice
    | LogicalDeviceCreationFailed
    | SwapchainCreationFailed
    | CommandBufferAllocationFailed
    | SyncObjectCreationFailed
    | AcquireFailed
    | ImageIndexOutOfRange
    | BeginRecordingFailed
    | EndRecordingFailed
    | SubmitFailed
    | PresentFailed

  const VK_KHR_SWAPCHAIN_EXTENSION_NAME: string := "VK_KHR_swapchain"

  datatype Extent2D = Extent2D(width: uint32, height: uint32)

  datatype SurfaceFormat = SurfaceFormat(format: Format, colorSpace: ColorSpace)

  /** VkSurfaceCapabilitiesKHR, the fields the core reads. */
  datatype SurfaceCapabilities = SurfaceCapabilities(
    minImageCount: uint32,
    maxImageCount: uint32,          // 0 means "no limit"
    currentExtent: Extent2D,        // width UINT32_MAX means "chosen by the swap chain"
    minImageExtent: Extent2D,
    maxImageExtent: Extent2D,
    currentTransform: bv32)

  /** What QuerySwapChainSupport reads back for one device and surface. */
  datatype SwapChainSupportDetails = SwapChainSupportDetails(
    capabilities: SurfaceCapabilities,
    formats: seq<SurfaceFormat>,
    presentModes: seq<PresentMode>)

  /**
   * One queue family: its VkQueueFamilyProperties::queueFlags and the answer
   * of vkGetPhysicalDeviceSurfaceSupportKHR for it and the window's surface.
   */
  datatype QueueFamily = QueueFamily(queueFlags: bv32, presentSupport: bool)

  /** Everything the selection policy queries about one physical device. */
  datatype PhysicalDevice = PhysicalDevice(
    queueFamilies: seq<QueueFamily>,
    extensionNames: seq<string>,
    support: SwapChainSupportDetails)
}
