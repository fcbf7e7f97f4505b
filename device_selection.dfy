/**
 * Physical-device selection: a device qualifies when it has both kinds of
 * queue family, offers the swap-chain extension and reports at least one
 * surface format and one present mode; the first qualifying device in
 * enumeration order is taken.
 */
module DeviceSelection {
  import opened VkTypes
  import opened QueueFamilies

  /** The device extensions the program enables (g_deviceExtensions). */
  const REQUIRED_DEVICE_EXTENSIONS: set<string> := {VK_KHR_SWAPCHAIN_EXTENSION_NAME}

  /**
   * Starts from the required set and erases every extension name the device
   * reports; the device qualifies when nothing is left.
   */
  method CheckDeviceExtensionSupported(device: PhysicalDevice) returns (supported: bool)
    ensures supported <==> forall e :: e in REQUIRED_DEVICE_EXTENSIONS ==> e in device.extensionNames
  {
    var available := device.extensionNames;
    var requiredExtensions := REQUIRED_DEVICE_EXTENSIONS;
    var i := 0;
    while i < |available|
      invariant 0 <= i <= |available|
      invariant requiredExtensions == REQUIRED_DEVICE_EXTENSIONS - set e | e in available[..i]
    {
      requiredExtensions := requiredExtensions - {available[i]};
      i := i + 1;
    }
    assert available[..i] == available;
    supported := requiredExtensions == {};
    if !supported {
      var missing :| missing in requiredExtensions;
      assert missing in REQUIRED_DEVICE_EXTENSIONS && missing !in available;
    } else {
      forall e | e in REQUIRED_DEVICE_EXTENSIONS
        ensures e in available
      {
        assert e !in requiredExtensions;
      }
    }
  }

  /** The suitability test, stated over the device's data. */
  predicate Suitable(device: PhysicalDevice) {
    && QueueFamiliesOf(device.queueFamilies).IsComplete()
    && (forall e :: e in REQUIRED_DEVICE_EXTENSIONS ==> e in device.extensionNames)
    && |device.support.formats| > 0
    && |device.support.presentModes| > 0
  }

  /**
   * Finds the queue families, checks the extensions and, only when those are
   * present, whether the surface reports any format and any present mode.
   */
  method IsDeviceSuitable(device: PhysicalDevice) returns (suitable: bool)
    ensures suitable <==> Suitable(device)
  {
    var indices := FindQueueFamilies(device.queueFamilies);
    var extensionsSupported := CheckDeviceExtensionSupported(device);
    var swapChainAdequate := false;
    if extensionsSupported {
      var swapChainSupport := device.support;
      swapChainAdequate := |swapChainSupport.formats| != 0 && |swapChainSupport.presentModes| != 0;
    }
    suitable := indices.IsComplete() && extensionsSupported && swapChainAdequate;
  }

  /** The index of the first suitable device, if any. */
  function FirstSuitable(devices: seq<PhysicalDevice>, from: nat): (r: Option<nat>)
    requires from <= |devices|
    ensures r.Some? ==> from <= r.value < |devices| && Suitable(devices[r.value])
    ensures r.Some? ==> forall k :: from <= k < r.value ==> !Suitable(devices[k])
    ensures r.None? <==> forall k :: from <= k < |devices| ==> !Suitable(devices[k])
    decreases |devices| - from
  {
    if from == |devices| then None
    else if Suitable(devices[from]) then Some(from)
    else FirstSuitable(devices, from + 1)
  }

  /** A suitable device always has complete queue-family indices. */
  lemma SuitableIsComplete(device: PhysicalDevice)
    requires Suitable(device)
    ensures QueueFamiliesOf(device.queueFamilies).IsComplete()
    ensures BothSeen(device.queueFamilies, |device.queueFamilies|)
  {
    QueueFamiliesCompleteIff(device.queueFamilies);
  }
}
