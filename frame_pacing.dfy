/**
 * The per-frame state machine of DrawFrame, stated over the state it reads
 * and changes: the ring slot m_currentFrame, the resize flag, the signalled
 * state of each slot's in-flight fence and the number of framebuffers of the
 * current swap chain. The driver's answers for one frame (acquire,
 * recording, submit and present results, and what a rebuild would see) are
 * inputs.
 */
module FramePacing {
  import opened VkTypes
  import opened SwapchainPolicy

  /** The number of frames that may be in flight at once. */
  const MAX_FRAMES_IN_FLIGHT: nat := 2

  datatype FrameOutcome =
    | Presented                  // recorded, submitted and presented
    | PresentedAndRebuilt        // presented, then the swap chain was rebuilt
    | RebuiltBeforeRender        // acquire reported OUT_OF_DATE: rebuilt, nothing submitted
    | Fatal(error: RuntimeError)   // a runtime_error ends the program

  /**
   * m_currentFrame, m_framebufferResized, whether each in-flight fence is
   * signalled, and the size of m_swapChainFramebuffers.
   */
  datatype FrameState = FrameState(currentFrame: nat, framebufferResized: bool, inFlightFences: seq<bool>,
                                   framebufferCount: nat)

  /** Each per-slot vector (two semaphores and a fence per slot) has one entry per slot, and the slot is one of them. */
  predicate SlotsAllocated(imageAvailableCount: nat, renderFinishedCount: nat, fenceCount: nat, currentFrame: nat) {
    && imageAvailableCount == MAX_FRAMES_IN_FLIGHT
    && renderFinishedCount == MAX_FRAMES_IN_FLIGHT
    && fenceCount == MAX_FRAMES_IN_FLIGHT
    && currentFrame < MAX_FRAMES_IN_FLIGHT
  }

  predicate Ready(s: FrameState) {
    |s.inFlightFences| == MAX_FRAMES_IN_FLIGHT && s.currentFrame < MAX_FRAMES_IN_FLIGHT
  }

  /**
   * The state the member initialisers and CreateSyncObjects leave, for a
   * swap chain with the given number of framebuffers: slot 0, no resize, all
   * fences signalled.
   */
  function InitialState(framebufferCount: nat): (r: FrameState)
    ensures Ready(r) && forall i :: 0 <= i < MAX_FRAMES_IN_FLIGHT ==> r.inFlightFences[i]
  {
    FrameState(0, false, [true, true], framebufferCount)
  }

  /**
   * The driver's and the window's answers during one iteration of the main
   * loop: whether the resize callback fired while events were polled, the
   * acquire result and image index, the results of beginning and ending the
   * command buffer, of the submit and of the present, and what a swap-chain
   * rebuild would see.
   */
  datatype FrameInputs = FrameInputs(
    windowResized: bool,
    acquireResult: VkResult,
    imageIndex: nat,
    beginResult: VkResult,
    endResult: VkResult,
    submitResult: VkResult,
    presentResult: VkResult,
    rebuild: SwapchainBuild)

  /** The acquired image may be rendered to (SUCCESS or SUBOPTIMAL). */
  predicate ImageAcquired(f: FrameInputs) {
    f.acquireResult == VK_SUCCESS || f.acquireResult == VK_SUBOPTIMAL_KHR
  }

  /** The acquired index names both a command buffer and a framebuffer. */
  predicate IndexInRange(s: FrameState, f: FrameInputs, commandBufferCount: nat) {
    f.imageIndex < commandBufferCount && f.imageIndex < s.framebufferCount
  }

  /** The frame's command buffer was recorded and submitted. */
  predicate Submitted(s: FrameState, f: FrameInputs, commandBufferCount: nat) {
    && ImageAcquired(f)
    && IndexInRange(s, f, commandBufferCount)
    && f.beginResult == VK_SUCCESS
    && f.endResult == VK_SUCCESS
    && f.submitResult == VK_SUCCESS
  }

  /** After presenting, the swap chain is rebuilt. */
  predicate PresentNeedsRebuild(presentResult: VkResult, framebufferResized: bool) {
    presentResult == VK_ERROR_OUT_OF_DATE_KHR || presentResult == VK_SUBOPTIMAL_KHR || framebufferResized
  }

  datatype Step = Step(outcome: FrameOutcome, next: FrameState)

  /**
   * The frame tore the swap chain down to rebuild it: the rebuild succeeded,
   * or creating the new swap chain failed after the old one was destroyed.
   */
  predicate RebuildAttempted(outcome: FrameOutcome) {
    outcome.RebuiltBeforeRender? || outcome.PresentedAndRebuilt? || outcome == Fatal(SwapchainCreationFailed)
  }

  /**
   * One call of DrawFrame: wait for the slot's fence; acquire; on OUT_OF_DATE
   * rebuild and return; on any result other than SUCCESS or SUBOPTIMAL fail;
   * reset the fence; look up, record and submit the command buffer of the
   * acquired image; present; rebuild on OUT_OF_DATE, SUBOPTIMAL or a pending
   * resize, clearing the flag, and fail on any other non-success; advance
   * the slot.
   */
  function DrawFrameStep(s: FrameState, f: FrameInputs, commandBufferCount: nat): (r: Step)
    requires Ready(s)
    ensures Ready(r.next)
  {
    var slot := s.currentFrame;
    var waited := s.inFlightFences[slot := true];
    if f.acquireResult == VK_ERROR_OUT_OF_DATE_KHR then
      if f.rebuild.createResult == VK_SUCCESS then
        Step(RebuiltBeforeRender, s.(inFlightFences := waited, framebufferCount := f.rebuild.imageCount))
      else
        Step(Fatal(SwapchainCreationFailed), s.(inFlightFences := waited))
    else if f.acquireResult != VK_SUCCESS && f.acquireResult != VK_SUBOPTIMAL_KHR then
      Step(Fatal(AcquireFailed), s.(inFlightFences := waited))
    else
      SubmitStep(s.(inFlightFences := waited[slot := false]), f, commandBufferCount)
  }

  /**
   * The middle of DrawFrame, once an image is acquired and the slot's fence
   * reset: look up the acquired image's command buffer and framebuffer,
   * record and submit, then present.
   */
  function SubmitStep(s: FrameState, f: FrameInputs, commandBufferCount: nat): (r: Step)
    requires Ready(s)
    ensures Ready(r.next)
  {
    if commandBufferCount <= f.imageIndex || s.framebufferCount <= f.imageIndex then Step(Fatal(ImageIndexOutOfRange), s)
    else if f.beginResult != VK_SUCCESS then Step(Fatal(BeginRecordingFailed), s)
    else if f.endResult != VK_SUCCESS then Step(Fatal(EndRecordingFailed), s)
    else if f.submitResult != VK_SUCCESS then Step(Fatal(SubmitFailed), s)
    else PresentStep(s, f)
  }

  /**
   * The end of DrawFrame, once the frame was submitted: after presenting,
   * rebuild on OUT_OF_DATE, SUBOPTIMAL or a pending resize, clearing the
   * flag, fail on any other non-success, and advance the slot.
   */
  function PresentStep(s: FrameState, f: FrameInputs): (r: Step)
    requires Ready(s)
    ensures Ready(r.next)
  {
    if PresentNeedsRebuild(f.presentResult, s.framebufferResized) then
      if f.rebuild.createResult != VK_SUCCESS then
        Step(Fatal(SwapchainCreationFailed), s.(framebufferResized := false))
      else
        Step(PresentedAndRebuilt, s.(currentFrame := (s.currentFrame + 1) % MAX_FRAMES_IN_FLIGHT, framebufferResized := false,
                                     framebufferCount := f.rebuild.imageCount))
    else if f.presentResult != VK_SUCCESS then Step(Fatal(PresentFailed), s)
    else Step(Presented, s.(currentFrame := (s.currentFrame + 1) % MAX_FRAMES_IN_FLIGHT))
  }

  /**
   * What one DrawFrame step does, clause by clause: which fence is reset,
   * which driver answers lead to which outcome, and how the slot, the resize
   * flag and the framebuffer count move.
   */
  lemma DrawFrameStepSpec(s: FrameState, f: FrameInputs, commandBufferCount: nat)
    requires Ready(s)
    // the wait leaves the slot's fence signalled; it is reset only once an image is acquired
    ensures var r := DrawFrameStep(s, f, commandBufferCount);
            r.next.inFlightFences[s.currentFrame] == !ImageAcquired(f)
    ensures var r := DrawFrameStep(s, f, commandBufferCount);
            forall i :: 0 <= i < MAX_FRAMES_IN_FLIGHT && i != s.currentFrame
                        ==> r.next.inFlightFences[i] == s.inFlightFences[i]
    ensures var r := DrawFrameStep(s, f, commandBufferCount);
            f.acquireResult == VK_ERROR_OUT_OF_DATE_KHR ==>
              && r.outcome == (if f.rebuild.createResult == VK_SUCCESS then RebuiltBeforeRender
                               else Fatal(SwapchainCreationFailed))
              && r.next.currentFrame == s.currentFrame
              && r.next.framebufferResized == s.framebufferResized
    ensures var r := DrawFrameStep(s, f, commandBufferCount);
            !ImageAcquired(f) && f.acquireResult != VK_ERROR_OUT_OF_DATE_KHR ==> r.outcome == Fatal(AcquireFailed)
    ensures var r := DrawFrameStep(s, f, commandBufferCount);
            r.outcome == Fatal(ImageIndexOutOfRange) <==> ImageAcquired(f) && !IndexInRange(s, f, commandBufferCount)
    ensures var r := DrawFrameStep(s, f, commandBufferCount);
            r.outcome == PresentedAndRebuilt <==>
              && Submitted(s, f, commandBufferCount)
              && PresentNeedsRebuild(f.presentResult, s.framebufferResized)
              && f.rebuild.createResult == VK_SUCCESS
    ensures var r := DrawFrameStep(s, f, commandBufferCount);
            r.outcome == Presented <==>
              && Submitted(s, f, commandBufferCount)
              && !PresentNeedsRebuild(f.presentResult, s.framebufferResized)
              && f.presentResult == VK_SUCCESS
    ensures var r := DrawFrameStep(s, f, commandBufferCount);
            (Submitted(s, f, commandBufferCount) && !PresentNeedsRebuild(f.presentResult, s.framebufferResized)
             && f.presentResult != VK_SUCCESS) ==> r.outcome == Fatal(PresentFailed)
    ensures var r := DrawFrameStep(s, f, commandBufferCount);
            r.outcome.Presented? || r.outcome.PresentedAndRebuilt? ==>
              r.next.currentFrame == (s.currentFrame + 1) % MAX_FRAMES_IN_FLIGHT && !r.next.framebufferResized
    ensures var r := DrawFrameStep(s, f, commandBufferCount);
            r.outcome.Fatal? || r.outcome.RebuiltBeforeRender? ==> r.next.currentFrame == s.currentFrame
    // the swap chain is torn down exactly on an OUT_OF_DATE acquire, or after a submitted frame's stale present or pending resize
    ensures var r := DrawFrameStep(s, f, commandBufferCount);
            RebuildAttempted(r.outcome) <==>
              || f.acquireResult == VK_ERROR_OUT_OF_DATE_KHR
              || (Submitted(s, f, commandBufferCount) && PresentNeedsRebuild(f.presentResult, s.framebufferResized))
    // a successful rebuild replaces the framebuffers, one per new image; otherwise they stay
    ensures var r := DrawFrameStep(s, f, commandBufferCount);
            r.next.framebufferCount == if r.outcome.RebuiltBeforeRender? || r.outcome.PresentedAndRebuilt?
                                       then f.rebuild.imageCount else s.framebufferCount
  {
  }

  /**
   * The index-range failure is ruled out as long as the driver hands out an
   * index below the current image count and there are at least as many
   * command buffers as images: the command buffers are allocated once, so a
   * rebuild that returns more images than before breaks the second condition.
   */
  lemma IndexInRangeWhenBuffersCoverImages(s: FrameState, f: FrameInputs, commandBufferCount: nat)
    requires Ready(s)
    requires f.imageIndex < s.framebufferCount <= commandBufferCount
    ensures DrawFrameStep(s, f, commandBufferCount).outcome != Fatal(ImageIndexOutOfRange)
  {
  }

  /** The ring slot a frame used, whether its fence was already signalled when waited on, and the outcome. */
  datatype FrameRecord = FrameRecord(slot: nat, fenceWasSignalled: bool, outcome: FrameOutcome)

  /** The state after polling events for a frame: the resize callback may have raised the flag. */
  function Polled(s: FrameState, f: FrameInputs): (r: FrameState)
    ensures r.currentFrame == s.currentFrame && r.inFlightFences == s.inFlightFences
    ensures r.framebufferCount == s.framebufferCount
    ensures r.framebufferResized == (s.framebufferResized || f.windowResized)
  {
    if f.windowResized then s.(framebufferResized := true) else s
  }

  /**
   * Iterations of the main loop: events are polled (the resize callback may
   * raise the flag), then DrawFrame runs; a fatal outcome ends the loop.
   */
  function RunFrames(s: FrameState, frames: seq<FrameInputs>, commandBufferCount: nat): (r: (FrameState, seq<FrameRecord>))
    requires Ready(s)
    ensures Ready(r.0)
    ensures |r.1| <= |frames|
    ensures forall k :: 0 <= k < |r.1| ==> r.1[k].slot < MAX_FRAMES_IN_FLIGHT
    decreases |frames|
  {
    if |frames| == 0 then (s, [])
    else
      var step := DrawFrameStep(Polled(s, frames[0]), frames[0], commandBufferCount);
      var record := FrameRecord(s.currentFrame, s.inFlightFences[s.currentFrame], step.outcome);
      if step.outcome.Fatal? then (step.next, [record])
      else
        var rest := RunFrames(step.next, frames[1..], commandBufferCount);
        (rest.0, [record] + rest.1)
  }

  /**
   * The frame is rendered and presented and any rebuild it triggers succeeds;
   * its image index lies below imageRange and a rebuild keeps at least
   * imageRange images.
   */
  predicate Proceeds(f: FrameInputs, commandBufferCount: nat, imageRange: nat) {
    && ImageAcquired(f)
    && f.imageIndex < imageRange
    && f.imageIndex < commandBufferCount
    && f.beginResult == VK_SUCCESS
    && f.endResult == VK_SUCCESS
    && f.submitResult == VK_SUCCESS
    && (f.presentResult == VK_SUCCESS || f.presentResult == VK_SUBOPTIMAL_KHR || f.presentResult == VK_ERROR_OUT_OF_DATE_KHR)
    && f.rebuild.createResult == VK_SUCCESS
    && imageRange <= f.rebuild.imageCount
  }

  /** One proceeding frame advances the slot, resets its fence and clears the resize flag. */
  lemma ProceedingStep(s: FrameState, f: FrameInputs, commandBufferCount: nat, imageRange: nat)
    requires Ready(s) && Proceeds(f, commandBufferCount, imageRange) && imageRange <= s.framebufferCount
    ensures var step := DrawFrameStep(Polled(s, f), f, commandBufferCount);
            && step.outcome == (if PresentNeedsRebuild(f.presentResult, f.windowResized || s.framebufferResized)
                                then PresentedAndRebuilt else Presented)
            && step.next.currentFrame == 1 - s.currentFrame
            && !step.next.inFlightFences[s.currentFrame]
            && step.next.inFlightFences[1 - s.currentFrame] == s.inFlightFences[1 - s.currentFrame]
            && !step.next.framebufferResized
            && imageRange <= step.next.framebufferCount
  {
  }

  /**
   * A main loop whose first frame proceeds records that frame on the current
   * slot and carries on from a state on the other slot, with that slot's
   * fence reset, the resize flag cleared and at least imageRange framebuffers.
   */
  lemma ProceedingFrameThenRest(s: FrameState, frames: seq<FrameInputs>, commandBufferCount: nat, imageRange: nat)
    returns (next: FrameState)
    requires Ready(s) && |frames| > 0 && Proceeds(frames[0], commandBufferCount, imageRange)
    requires imageRange <= s.framebufferCount
    ensures Ready(next) && imageRange <= next.framebufferCount
    ensures next.currentFrame == 1 - s.currentFrame && !next.framebufferResized
    ensures !next.inFlightFences[s.currentFrame]
    ensures next.inFlightFences[1 - s.currentFrame] == s.inFlightFences[1 - s.currentFrame]
    ensures var outcome := if PresentNeedsRebuild(frames[0].presentResult, frames[0].windowResized || s.framebufferResized)
                           then PresentedAndRebuilt else Presented;
            var rest := RunFrames(next, frames[1..], commandBufferCount);
            RunFrames(s, frames, commandBufferCount)
              == (rest.0, [FrameRecord(s.currentFrame, s.inFlightFences[s.currentFrame], outcome)] + rest.1)
  {
    ProceedingStep(s, frames[0], commandBufferCount, imageRange);
    next := DrawFrameStep(Polled(s, frames[0]), frames[0], commandBufferCount).next;
  }

  /**
   * Over frames that all proceed, every frame is recorded, the first on the
   * starting slot, each on the other slot from the one before, and the loop
   * ends on the other slot from the last frame's.
   */
  lemma {:induction false} ProceedingFramesAlternateSlots(s: FrameState, frames: seq<FrameInputs>, commandBufferCount: nat,
                                                          imageRange: nat)
    requires Ready(s) && imageRange <= s.framebufferCount
    requires forall k :: 0 <= k < |frames| ==> Proceeds(frames[k], commandBufferCount, imageRange)
    ensures var r := RunFrames(s, frames, commandBufferCount);
            && |r.1| == |frames|
            && (|frames| == 0 ==> r.0.currentFrame == s.currentFrame)
            && (0 < |frames| ==> r.1[0].slot == s.currentFrame && r.0.currentFrame == 1 - r.1[|frames| - 1].slot)
            && (forall k :: 0 < k < |frames| ==> r.1[k].slot == 1 - r.1[k - 1].slot)
    decreases |frames|
  {
    if |frames| > 0 {
      var next := ProceedingFrameThenRest(s, frames, commandBufferCount, imageRange);
      var tail := frames[1..];
      assert forall k :: 0 <= k < |tail| ==> tail[k] == frames[k + 1];
      ProceedingFramesAlternateSlots(next, tail, commandBufferCount, imageRange);
      var rest := RunFrames(next, tail, commandBufferCount);
      var r := RunFrames(s, frames, commandBufferCount);
      forall k | 1 <= k < |frames|
        ensures r.1[k] == rest.1[k - 1]
      {
      }
    }
  }

  /** Counting one slot further lands on the other slot. */
  lemma NextSlot(n: nat)
    ensures (n + 1) % MAX_FRAMES_IN_FLIGHT == 1 - n % MAX_FRAMES_IN_FLIGHT
  {
  }

  /** Slots that start at c and alternate between the two slots count up from c modulo two. */
  lemma {:induction false} AlternatingSlotsCount(records: seq<FrameRecord>, c: nat, k: nat)
    requires c < MAX_FRAMES_IN_FLIGHT && k < |records| && records[0].slot == c
    requires forall j :: 0 < j < |records| ==> records[j].slot == 1 - records[j - 1].slot
    ensures records[k].slot == (c + k) % MAX_FRAMES_IN_FLIGHT
    decreases k
  {
    if k > 0 {
      AlternatingSlotsCount(records, c, k - 1);
      NextSlot(c + k - 1);
    }
  }

  /**
   * A run of n records whose slots start at c and alternate, ending on the
   * slot after the last record's, counts slots from c modulo two.
   */
  lemma AlternatingRunCounts(r: (FrameState, seq<FrameRecord>), c: nat, n: nat)
    requires c < MAX_FRAMES_IN_FLIGHT && |r.1| == n
    requires n == 0 ==> r.0.currentFrame == c
    requires 0 < n ==> r.1[0].slot == c && r.0.currentFrame == 1 - r.1[n - 1].slot
    requires forall k :: 0 < k < n ==> r.1[k].slot == 1 - r.1[k - 1].slot
    ensures r.0.currentFrame == (c + n) % MAX_FRAMES_IN_FLIGHT
    ensures forall k :: 0 <= k < n ==> r.1[k].slot == (c + k) % MAX_FRAMES_IN_FLIGHT
  {
    forall k | 0 <= k < n
      ensures r.1[k].slot == (c + k) % MAX_FRAMES_IN_FLIGHT
    {
      AlternatingSlotsCount(r.1, c, k);
    }
    if 0 < n {
      AlternatingSlotsCount(r.1, c, n - 1);
      NextSlot(c + n - 1);
    }
  }

  /**
   * Over frames that all proceed, every frame is recorded, frame k uses slot
   * (start + k) mod 2, and the loop ends on slot (start + n) mod 2.
   */
  lemma ProceedingFramesCycleSlots(s: FrameState, frames: seq<FrameInputs>, commandBufferCount: nat, imageRange: nat)
    requires Ready(s) && imageRange <= s.framebufferCount
    requires forall k :: 0 <= k < |frames| ==> Proceeds(frames[k], commandBufferCount, imageRange)
    ensures var r := RunFrames(s, frames, commandBufferCount);
            && |r.1| == |frames|
            && r.0.currentFrame == (s.currentFrame + |frames|) % MAX_FRAMES_IN_FLIGHT
            && (forall k :: 0 <= k < |frames| ==> r.1[k].slot == (s.currentFrame + k) % MAX_FRAMES_IN_FLIGHT)
  {
    ProceedingFramesAlternateSlots(s, frames, commandBufferCount, imageRange);
    AlternatingRunCounts(RunFrames(s, frames, commandBufferCount), s.currentFrame, |frames|);
  }

  /**
   * Over frames that all proceed, the fence waits of the first two frames
   * find the two fences as they were at the start; from the third frame on
   * the wait never finds its fence signalled: it waits for the GPU to finish
   * the frame two before it.
   */
  lemma {:induction false} ProceedingFramesWaitTwoBehind(s: FrameState, frames: seq<FrameInputs>, commandBufferCount: nat,
                                                         imageRange: nat)
    requires Ready(s) && imageRange <= s.framebufferCount
    requires forall k :: 0 <= k < |frames| ==> Proceeds(frames[k], commandBufferCount, imageRange)
    ensures var r := RunFrames(s, frames, commandBufferCount);
            && |r.1| == |frames|
            && (0 < |frames| ==> r.1[0].fenceWasSignalled == s.inFlightFences[s.currentFrame])
            && (1 < |frames| ==> r.1[1].fenceWasSignalled == s.inFlightFences[1 - s.currentFrame])
            && (forall k :: 2 <= k < |frames| ==> !r.1[k].fenceWasSignalled)
    decreases |frames|
  {
    if |frames| > 0 {
      var next := ProceedingFrameThenRest(s, frames, commandBufferCount, imageRange);
      var tail := frames[1..];
      assert forall k :: 0 <= k < |tail| ==> tail[k] == frames[k + 1];
      ProceedingFramesWaitTwoBehind(next, tail, commandBufferCount, imageRange);
      var rest := RunFrames(next, tail, commandBufferCount);
      var r := RunFrames(s, frames, commandBufferCount);
      forall k | 1 <= k < |frames|
        ensures r.1[k] == rest.1[k - 1]
      {
      }
    }
  }

  /**
   * Over frames that all proceed, a frame rebuilds the swap chain after
   * presenting exactly when its present reported OUT_OF_DATE or SUBOPTIMAL
   * or a resize was signalled before it (and not yet consumed).
   */
  lemma {:induction false} ProceedingFramesRebuildWhenStale(s: FrameState, frames: seq<FrameInputs>, commandBufferCount: nat,
                                                            imageRange: nat)
    requires Ready(s) && imageRange <= s.framebufferCount
    requires forall k :: 0 <= k < |frames| ==> Proceeds(frames[k], commandBufferCount, imageRange)
    ensures var r := RunFrames(s, frames, commandBufferCount);
            && |r.1| == |frames|
            && (forall k :: 0 <= k < |frames| ==>
                  r.1[k].outcome == if PresentNeedsRebuild(frames[k].presentResult, frames[k].windowResized || (k == 0 && s.framebufferResized))
                                    then PresentedAndRebuilt else Presented)
    decreases |frames|
  {
    if |frames| > 0 {
      var next := ProceedingFrameThenRest(s, frames, commandBufferCount, imageRange);
      var tail := frames[1..];
      assert forall k :: 0 <= k < |tail| ==> tail[k] == frames[k + 1];
      ProceedingFramesRebuildWhenStale(next, tail, commandBufferCount, imageRange);
      var rest := RunFrames(next, tail, commandBufferCount);
      var r := RunFrames(s, frames, commandBufferCount);
      forall k | 1 <= k < |frames|
        ensures r.1[k].outcome == if PresentNeedsRebuild(frames[k].presentResult, frames[k].windowResized)
                                  then PresentedAndRebuilt else Presented
      {
        assert r.1[k] == rest.1[k - 1];
      }
    }
  }

  /** Every frame of the scenarios below: presented, indices in range, rebuilds keep the image count. */
  predicate CleanFrame(f: FrameInputs, commandBufferCount: nat, imageCount: nat) {
    Proceeds(f, commandBufferCount, imageCount) && !f.windowResized
  }

  /**
   * Five frames with no staleness and no resize, from the state after
   * initialisation: the slots run 0, 1, 0, 1, 0; only the first two fence
   * waits find the fence already signalled; every frame is presented without
   * a rebuild.
   */
  lemma FiveCleanFrames(frames: seq<FrameInputs>, commandBufferCount: nat, imageCount: nat)
    requires |frames| == 5
    requires forall k :: 0 <= k < 5 ==>
               CleanFrame(frames[k], commandBufferCount, imageCount) && frames[k].presentResult == VK_SUCCESS
    ensures var records := RunFrames(InitialState(imageCount), frames, commandBufferCount).1;
            && |records| == 5
            && [records[0].slot, records[1].slot, records[2].slot, records[3].slot, records[4].slot] == [0, 1, 0, 1, 0]
            && (forall k :: 0 <= k < 5 ==> records[k].fenceWasSignalled == (k < 2))
            && (forall k :: 0 <= k < 5 ==> records[k].outcome == Presented)
  {
    var s := InitialState(imageCount);
    ProceedingFramesCycleSlots(s, frames, commandBufferCount, imageCount);
    ProceedingFramesWaitTwoBehind(s, frames, commandBufferCount, imageCount);
    ProceedingFramesRebuildWhenStale(s, frames, commandBufferCount, imageCount);
  }

  /**
   * A present that reports SUBOPTIMAL on the third frame triggers the rebuild
   * within that frame, before the fourth frame acquires; the fourth frame
   * then proceeds normally on the next slot.
   */
  lemma SuboptimalPresentRebuildsBeforeNextFrame(frames: seq<FrameInputs>, commandBufferCount: nat, imageCount: nat)
    requires |frames| == 4
    requires forall k :: 0 <= k < 4 ==> CleanFrame(frames[k], commandBufferCount, imageCount)
    requires frames[2].presentResult == VK_SUBOPTIMAL_KHR
    requires frames[0].presentResult == frames[1].presentResult == frames[3].presentResult == VK_SUCCESS
    ensures var records := RunFrames(InitialState(imageCount), frames, commandBufferCount).1;
            && |records| == 4
            && records[1].outcome == Presented
            && records[2].outcome == PresentedAndRebuilt
            && records[3].outcome == Presented
            && records[3].slot == 1
  {
    var s := InitialState(imageCount);
    ProceedingFramesCycleSlots(s, frames, commandBufferCount, imageCount);
    ProceedingFramesRebuildWhenStale(s, frames, commandBufferCount, imageCount);
  }

  /**
   * An OUT_OF_DATE acquire leaves the slot unchanged and its fence signalled,
   * so the retry in the next iteration uses the same slot and its fence wait
   * returns at once instead of waiting for work that was never submitted.
   */
  lemma OutOfDateAcquireRetriesSameSlot(s: FrameState, frames: seq<FrameInputs>, commandBufferCount: nat)
    requires Ready(s)
    requires |frames| >= 2
    requires frames[0].acquireResult == VK_ERROR_OUT_OF_DATE_KHR && frames[0].rebuild.createResult == VK_SUCCESS
    ensures var records := RunFrames(s, frames, commandBufferCount).1;
            && |records| >= 2
            && records[0].outcome == RebuiltBeforeRender
            && records[1].slot == records[0].slot
            && records[1].fenceWasSignalled
  {
    var step := DrawFrameStep(Polled(s, frames[0]), frames[0], commandBufferCount);
    var rest := RunFrames(step.next, frames[1..], commandBufferCount);
    assert frames[1..][0] == frames[1];
    assert |rest.1| >= 1;
  }
}
