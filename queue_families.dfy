/**
 * Queue-family discovery and the two decisions that depend on it: which
 * queue-create requests the logical device gets, and how swap-chain images
 * are shared between the graphics and the present family.
 */
module QueueFamilies {
  import opened VkTypes

  /** The graphics- and present-capable family indices found so far. */
  datatype QueueFamilyIndices = QueueFamilyIndices(graphicsFamily: Option<nat>, presentFamily: Option<nat>)
  {
    predicate IsComplete() {
      graphicsFamily.Some? && presentFamily.Some?
    }
  }

  predicate HasGraphics(f: QueueFamily) {
    f.queueFlags & VK_QUEUE_GRAPHICS_BIT != 0
  }

  predicate SupportsPresent(f: QueueFamily) {
    f.presentSupport
  }

  /** Some family among the first n satisfies p. */
  predicate SeenAmong(fs: seq<QueueFamily>, n: nat, p: QueueFamily -> bool)
    requires n <= |fs|
  {
    exists j :: 0 <= j < n && p(fs[j])
  }

  /** Both a graphics family and a present-capable family occur among the first n. */
  predicate BothSeen(fs: seq<QueueFamily>, n: nat)
    requires n <= |fs|
  {
    SeenAmong(fs, n, HasGraphics) && SeenAmong(fs, n, SupportsPresent)
  }

  /**
   * The last index below n whose family satisfies p: the value a variable
   * holds after a scan of fs[..n] that overwrites it on every match.
   */
  function LastMatching(fs: seq<QueueFamily>, n: nat, p: QueueFamily -> bool): (r: Option<nat>)
    requires n <= |fs|
    ensures r.Some? ==> r.value < n && p(fs[r.value])
    ensures r.Some? ==> forall k :: r.value < k < n ==> !p(fs[k])
    ensures r.None? <==> !SeenAmong(fs, n, p)
  {
    if n == 0 then None
    else if p(fs[n - 1]) then Some(n - 1)
    else LastMatching(fs, n - 1, p)
  }

  /** The indices after the loop body has run for families 0 .. n-1. */
  function IndicesAfter(fs: seq<QueueFamily>, n: nat): QueueFamilyIndices
    requires n <= |fs|
  {
    QueueFamilyIndices(LastMatching(fs, n, HasGraphics), LastMatching(fs, n, SupportsPresent))
  }

  /**
   * How many families the scan visits when it resumes after `from`: it stops
   * right after the first family at which the indices become complete.
   */
  function ScanEnd(fs: seq<QueueFamily>, from: nat): (n: nat)
    requires from <= |fs|
    ensures from <= n <= |fs|
    ensures from < |fs| ==> from < n
    ensures forall k :: from < k < n ==> !IndicesAfter(fs, k).IsComplete()
    ensures n < |fs| ==> IndicesAfter(fs, n).IsComplete()
    decreases |fs| - from
  {
    if from == |fs| then from
    else if IndicesAfter(fs, from + 1).IsComplete() then from + 1
    else ScanEnd(fs, from + 1)
  }

  /** One turn of the scan: family i overwrites each index whose kind it has. */
  function Visit(fs: seq<QueueFamily>, i: nat, indices: QueueFamilyIndices): QueueFamilyIndices
    requires i < |fs|
  {
    QueueFamilyIndices(
      if HasGraphics(fs[i]) then Some(i) else indices.graphicsFamily,
      if SupportsPresent(fs[i]) then Some(i) else indices.presentFamily)
  }

  /** The scan from family i on, holding `indices`: it stops as soon as they are complete. */
  function Scan(fs: seq<QueueFamily>, i: nat, indices: QueueFamilyIndices): QueueFamilyIndices
    requires i <= |fs|
    decreases |fs| - i
  {
    if i == |fs| then indices
    else if Visit(fs, i, indices).IsComplete() then Visit(fs, i, indices)
    else Scan(fs, i + 1, Visit(fs, i, indices))
  }

  /** Every index that is set names a family, below i, of its kind. */
  predicate IndicesValid(fs: seq<QueueFamily>, i: nat, indices: QueueFamilyIndices)
    requires i <= |fs|
  {
    && (indices.graphicsFamily.Some? ==> indices.graphicsFamily.value < i && HasGraphics(fs[indices.graphicsFamily.value]))
    && (indices.presentFamily.Some? ==> indices.presentFamily.value < i && SupportsPresent(fs[indices.presentFamily.value]))
  }

  lemma {:induction false} ScanKeepsIndicesValid(fs: seq<QueueFamily>, i: nat, indices: QueueFamilyIndices)
    requires i <= |fs| && IndicesValid(fs, i, indices)
    ensures IndicesValid(fs, |fs|, Scan(fs, i, indices))
    decreases |fs| - i
  {
    if i < |fs| && !Visit(fs, i, indices).IsComplete() {
      ScanKeepsIndicesValid(fs, i + 1, Visit(fs, i, indices));
    }
  }

  /** What FindQueueFamilies returns for a device with the families fs. */
  function QueueFamiliesOf(fs: seq<QueueFamily>): (r: QueueFamilyIndices)
    ensures r.graphicsFamily.Some? ==> r.graphicsFamily.value < |fs| && HasGraphics(fs[r.graphicsFamily.value])
    ensures r.presentFamily.Some? ==> r.presentFamily.value < |fs| && SupportsPresent(fs[r.presentFamily.value])
  {
    ScanKeepsIndicesValid(fs, 0, QueueFamilyIndices(None, None));
    Scan(fs, 0, QueueFamilyIndices(None, None))
  }

  /** Resumed after i families, the scan ends where the scan over the whole prefix description says. */
  lemma {:induction false} ScanMatchesIndicesAfter(fs: seq<QueueFamily>, i: nat)
    requires i <= |fs|
    ensures Scan(fs, i, IndicesAfter(fs, i)) == IndicesAfter(fs, ScanEnd(fs, i))
    decreases |fs| - i
  {
    if i < |fs| {
      assert Visit(fs, i, IndicesAfter(fs, i)) == IndicesAfter(fs, i + 1);
      if !IndicesAfter(fs, i + 1).IsComplete() {
        ScanMatchesIndicesAfter(fs, i + 1);
      }
    }
  }

  /** The scan's result is the indices after the families up to ScanEnd. */
  lemma QueueFamiliesOfStopsAtScanEnd(fs: seq<QueueFamily>)
    ensures QueueFamiliesOf(fs) == IndicesAfter(fs, ScanEnd(fs, 0))
  {
    assert IndicesAfter(fs, 0) == QueueFamilyIndices(None, None);
    ScanMatchesIndicesAfter(fs, 0);
  }

  /**
   * Scans the families in order, overwriting the graphics index on every
   * family with the graphics bit and the present index on every family with
   * present support, and stops as soon as both are set.
   */
  method FindQueueFamilies(fs: seq<QueueFamily>) returns (indices: QueueFamilyIndices)
    ensures indices == QueueFamiliesOf(fs)
  {
    indices := QueueFamilyIndices(None, None);
    var i := 0;
    while i < |fs|
      invariant 0 <= i <= |fs|
      invariant Scan(fs, i, indices) == QueueFamiliesOf(fs)
    {
      if fs[i].queueFlags & VK_QUEUE_GRAPHICS_BIT != 0 {
        indices := indices.(graphicsFamily := Some(i));
      }
      if fs[i].presentSupport {
        indices := indices.(presentFamily := Some(i));
      }
      if indices.IsComplete() {
        return;
      }
      i := i + 1;
    }
  }

  lemma CompleteIffBothSeen(fs: seq<QueueFamily>, n: nat)
    requires n <= |fs|
    ensures IndicesAfter(fs, n).IsComplete() <==> BothSeen(fs, n)
  {
  }

  /** The indices are complete exactly when the device has a graphics family and a present-capable family. */
  lemma {:induction false} QueueFamiliesCompleteIff(fs: seq<QueueFamily>)
    ensures QueueFamiliesOf(fs).IsComplete() <==> BothSeen(fs, |fs|)
  {
    QueueFamiliesOfStopsAtScanEnd(fs);
    var n := ScanEnd(fs, 0);
    CompleteIffBothSeen(fs, n);
    CompleteIffBothSeen(fs, |fs|);
    if n < |fs| {
      var r := QueueFamiliesOf(fs);
      assert HasGraphics(fs[r.graphicsFamily.value]);
      assert SupportsPresent(fs[r.presentFamily.value]);
    }
  }

  function Max(a: nat, b: nat): nat {
    if a < b then b else a
  }

  /**
   * When the scan succeeds, the larger of the two indices is the first family
   * at which both kinds have been seen; each index is the last family of its
   * kind up to that point.
   */
  lemma {:induction false} ScanStopsAtFirstComplete(fs: seq<QueueFamily>)
    requires QueueFamiliesOf(fs).IsComplete()
    ensures var r := QueueFamiliesOf(fs);
            var g, p := r.graphicsFamily.value, r.presentFamily.value;
            && Max(g, p) < |fs|
            && BothSeen(fs, Max(g, p) + 1)
            && !BothSeen(fs, Max(g, p))
            && (forall k :: g < k <= Max(g, p) ==> !HasGraphics(fs[k]))
            && (forall k :: p < k <= Max(g, p) ==> !SupportsPresent(fs[k]))
  {
    QueueFamiliesOfStopsAtScanEnd(fs);
    var n := ScanEnd(fs, 0);
    var r := QueueFamiliesOf(fs);
    var g, p := r.graphicsFamily.value, r.presentFamily.value;
    assert 0 < n;
    CompleteIffBothSeen(fs, n);
    CompleteIffBothSeen(fs, n - 1);
    assert !BothSeen(fs, n - 1) by {
      if n - 1 > 0 {
        assert !IndicesAfter(fs, n - 1).IsComplete();
      }
    }
    // family n-1 is of at least one kind, so that kind's last index is n-1
    assert g == n - 1 || p == n - 1;
    assert Max(g, p) == n - 1;
  }

  /**
   * The families the logical device asks queues from: the set
   * {graphics, present}, in the ascending order in which an ordered set
   * yields them.
   */
  function UniqueQueueFamilies(indices: QueueFamilyIndices): (r: seq<nat>)
    requires indices.IsComplete()
    ensures forall f :: f in r <==> f == indices.graphicsFamily.value || f == indices.presentFamily.value
    ensures forall i, j :: 0 <= i < j < |r| ==> r[i] < r[j]
    ensures |r| == if indices.graphicsFamily == indices.presentFamily then 1 else 2
  {
    var g, p := indices.graphicsFamily.value, indices.presentFamily.value;
    if g == p then [g] else if g < p then [g, p] else [p, g]
  }

  /** How swap-chain images are shared between the queue families. */
  datatype ImageSharing = ImageSharing(imageSharingMode: SharingMode, queueFamilyIndices: seq<nat>)

  /**
   * Concurrent sharing across exactly [graphics, present] when they differ;
   * otherwise exclusive ownership with no family list.
   */
  function ImageSharingFor(indices: QueueFamilyIndices): (r: ImageSharing)
    requires indices.IsComplete()
    ensures r.imageSharingMode == VK_SHARING_MODE_CONCURRENT <==> indices.graphicsFamily != indices.presentFamily
    ensures r.imageSharingMode == VK_SHARING_MODE_CONCURRENT
            ==> r.queueFamilyIndices == [indices.graphicsFamily.value, indices.presentFamily.value]
    ensures r.imageSharingMode != VK_SHARING_MODE_CONCURRENT
            ==> r.imageSharingMode == VK_SHARING_MODE_EXCLUSIVE && |r.queueFamilyIndices| == 0
  {
    if indices.graphicsFamily != indices.presentFamily then
      ImageSharing(VK_SHARING_MODE_CONCURRENT, [indices.graphicsFamily.value, indices.presentFamily.value])
    else
      ImageSharing(VK_SHARING_MODE_EXCLUSIVE, [])
  }

  /**
   * The device's queue requests and the images' sharing mode agree: images
   * are shared concurrently exactly when the device was given two queue
   * families, and then across exactly those families.
   */
  lemma SharingMatchesQueueRequests(indices: QueueFamilyIndices)
    requires indices.IsComplete()
    ensures var s, u := ImageSharingFor(indices), UniqueQueueFamilies(indices);
            && (s.imageSharingMode == VK_SHARING_MODE_CONCURRENT <==> |u| == 2)
            && (s.imageSharingMode == VK_SHARING_MODE_CONCURRENT ==> forall f :: f in s.queueFamilyIndices <==> f in u)
  {
  }
}
