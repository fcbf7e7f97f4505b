/**
 * The objects that hang off a swap chain (its image views and the
 * framebuffers over them), what it means for them to agree with the swap
 * chain they were built for, and the order in which they are destroyed.
 */
module SwapchainResources {
  import opened VkTypes
  import opened SwapchainPolicy

  datatype ImageView = ImageView(handle: Handle, image: Handle, format: Format)

  /** A framebuffer with its single colour attachment (an image-view handle) and its size. */
  datatype Framebuffer = Framebuffer(handle: Handle, attachment: Handle, width: uint32, height: uint32)

  datatype ObjectKind = FramebufferObject | ImageViewObject | SwapchainObject

  /** One vkDestroy* call. */
  datatype Destruction = Destruction(kind: ObjectKind, handle: Handle)

  /**
   * One view per image, over that image, in the swap chain's format; one
   * framebuffer per view, attached to it, of the swap chain's extent; the
   * format and extent are the ones the swap chain was created with.
   */
  predicate Formed(info: Option<SwapchainCreateInfo>, format: Format, extent: Extent2D, images: seq<Handle>,
                   views: seq<ImageView>, fbs: seq<Framebuffer>)
  {
    && info.Some?
    && format == info.value.imageFormat
    && extent == info.value.imageExtent
    && |views| == |images|
    && |fbs| == |views|
    && (forall i :: 0 <= i < |views| ==> views[i].image == images[i] && views[i].format == format)
    && (forall i :: 0 <= i < |fbs| ==>
          fbs[i].attachment == views[i].handle && fbs[i].width == extent.width && fbs[i].height == extent.height)
  }

  /** The swap chain, its images, views and framebuffers all have handles in [start, end): none existed before start. */
  predicate HandedOutBetween(start: nat, end: nat, swapChain: Handle, images: seq<Handle>, views: seq<ImageView>,
                             fbs: seq<Framebuffer>)
  {
    && start <= swapChain < end
    && (forall i :: 0 <= i < |images| ==> start <= images[i] < end)
    && (forall i :: 0 <= i < |views| ==> start <= views[i].handle < end)
    && (forall i :: 0 <= i < |fbs| ==> start <= fbs[i].handle < end)
  }

  /** The destruction calls of the first loop of CleanupSwapChain, in order. */
  function FramebufferTeardown(fbs: seq<Framebuffer>): (r: seq<Destruction>)
    ensures |r| == |fbs|
    ensures forall i {:trigger r[i]} :: 0 <= i < |fbs| ==> r[i] == Destruction(FramebufferObject, fbs[i].handle)
  {
    seq(|fbs|, i requires 0 <= i < |fbs| => Destruction(FramebufferObject, fbs[i].handle))
  }

  /** The destruction calls of the second loop of CleanupSwapChain, in order. */
  function ViewTeardown(views: seq<ImageView>): (r: seq<Destruction>)
    ensures |r| == |views|
    ensures forall i {:trigger r[i]} :: 0 <= i < |views| ==> r[i] == Destruction(ImageViewObject, views[i].handle)
  {
    seq(|views|, i requires 0 <= i < |views| => Destruction(ImageViewObject, views[i].handle))
  }

  /** Everything CleanupSwapChain destroys: framebuffers, then image views, then the swap chain. */
  function TeardownTrace(fbs: seq<Framebuffer>, views: seq<ImageView>, swapChain: Handle): (r: seq<Destruction>)
    ensures |r| == |fbs| + |views| + 1
  {
    FramebufferTeardown(fbs) + ViewTeardown(views) + [Destruction(SwapchainObject, swapChain)]
  }

  function Rank(k: ObjectKind): nat {
    match k
    case FramebufferObject => 0
    case ImageViewObject => 1
    case SwapchainObject => 2
  }

  /**
   * The teardown destroys one object per framebuffer, per view and the swap
   * chain, and never destroys an object of an earlier kind after one of a
   * later kind: every framebuffer goes before every image view, and every
   * view before the swap chain that owns the images.
   */
  lemma TeardownOrder(fbs: seq<Framebuffer>, views: seq<ImageView>, swapChain: Handle)
    ensures var r := TeardownTrace(fbs, views, swapChain);
            && (forall i :: 0 <= i < |fbs| ==> r[i] == Destruction(FramebufferObject, fbs[i].handle))
            && (forall i :: 0 <= i < |views| ==> r[|fbs| + i] == Destruction(ImageViewObject, views[i].handle))
            && r[|r| - 1] == Destruction(SwapchainObject, swapChain)
            && (forall i, j :: 0 <= i < j < |r| ==> Rank(r[i].kind) <= Rank(r[j].kind))
  {
    var r := TeardownTrace(fbs, views, swapChain);
    forall i, j | 0 <= i < j < |r|
      ensures Rank(r[i].kind) <= Rank(r[j].kind)
    {
      if j < |fbs| {
      } else if j < |fbs| + |views| {
        assert r[j] == ViewTeardown(views)[j - |fbs|];
        if i >= |fbs| {
          assert r[i] == ViewTeardown(views)[i - |fbs|];
        }
      }
    }
  }

  /**
   * When framebuffer i is attached to view i, the teardown destroys each
   * framebuffer strictly before the image view it uses.
   */
  lemma FramebuffersDestroyedBeforeTheirViews(fbs: seq<Framebuffer>, views: seq<ImageView>, swapChain: Handle)
    requires |fbs| == |views|
    requires forall i :: 0 <= i < |fbs| ==> fbs[i].attachment == views[i].handle
    ensures var r := TeardownTrace(fbs, views, swapChain);
            forall i :: 0 <= i < |fbs| ==>
              && r[i] == Destruction(FramebufferObject, fbs[i].handle)
              && r[|fbs| + i] == Destruction(ImageViewObject, fbs[i].attachment)
  {
    var r := TeardownTrace(fbs, views, swapChain);
    forall i | 0 <= i < |fbs|
      ensures r[i] == Destruction(FramebufferObject, fbs[i].handle)
      ensures r[|fbs| + i] == Destruction(ImageViewObject, fbs[i].attachment)
    {
      assert r[i] == FramebufferTeardown(fbs)[i];
      assert r[|fbs| + i] == ViewTeardown(views)[i];
    }
  }
}
