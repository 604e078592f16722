/**
 * Frame-slot and fence bookkeeping of the Direct3D 12 renderer
 * (Source/Rendering/Dx12/DX12Renderer.cpp and DX12Renderer.h).
 *
 * The GPU fence is abstract: `completed` is the value the fence reports as
 * reached. It never decreases and never passes the largest value signalled,
 * which is the renderer's own counter. The GPU may advance it at any time
 * (`GpuReaches`); a blocking wait returns once it reaches the target.
 */
module Renderer {
  import opened Types

  /** The fence bookkeeping as a value: counter, per-slot values, slot index, fence progress. */
  datatype FenceState = FenceState(counter: nat, slots: seq<nat>, frame: nat, completed: nat)

  /**
   * The state every step keeps: a slot index in range, a fence that has not
   * passed the counter, and recorded slot values that were all signalled.
   */
  predicate Consistent(s: FenceState)
  {
    |s.slots| >= 1 && s.frame < |s.slots| && s.completed <= s.counter &&
    (forall i :: 0 <= i < |s.slots| ==> s.slots[i] <= s.counter)
  }

  /** The GPU has finished the work last recorded for the current slot. */
  predicate SlotReady(s: FenceState)
    requires s.frame < |s.slots|
  {
    s.completed >= s.slots[s.frame]
  }

  /** The state CreateSynchronization intends: a fence at 0 and every slot at 0. */
  function Fresh(n: nat): (s: FenceState)
    requires n >= 1
    ensures Consistent(s) && SlotReady(s)
    ensures |s.slots| == n && s.counter == 0 && s.frame == 0
  {
    FenceState(0, seq(n, _ => 0), 0, 0)
  }

  /** A blocking wait on the fence: returns once the fence has reached `target`. */
  function WaitFor(s: FenceState, target: nat): (r: FenceState)
    ensures r.completed >= target && r.completed >= s.completed
    ensures r.counter == s.counter && r.slots == s.slots && r.frame == s.frame
    ensures s.completed >= target ==> r == s
  {
    if s.completed < target then s.(completed := target) else s
  }

  /** EndFrame: raise the counter, signal it, record it for the current slot. */
  function EndStep(s: FenceState): (r: FenceState)
    requires s.frame < |s.slots|
  {
    var v := s.counter + 1;
    s.(counter := v, slots := s.slots[s.frame := v])
  }

  /** MoveToNextFrame: advance the slot index modulo the slot count, then wait for that slot. */
  function PresentStep(s: FenceState): (r: FenceState)
    requires |s.slots| >= 1
  {
    var next := (s.frame + 1) % |s.slots|;
    WaitFor(s.(frame := next), s.slots[next])
  }

  /** WaitForGpu: raise the counter, signal it, and wait for it. */
  function WaitGpuStep(s: FenceState): (r: FenceState)
  {
    var v := s.counter + 1;
    WaitFor(s.(counter := v), v)
  }

  /** The GPU advancing the fence by up to d, never past the last value signalled. */
  function Advance(s: FenceState, d: nat): (r: FenceState)
    requires s.completed <= s.counter
    ensures s.completed <= r.completed <= r.counter
    ensures r.counter == s.counter && r.slots == s.slots && r.frame == s.frame
  {
    s.(completed := Min(s.completed + d, s.counter))
  }

  lemma EndStepSignalsNewValue(s: FenceState)
    requires Consistent(s)
    ensures Consistent(EndStep(s))
    ensures EndStep(s).counter == s.counter + 1
    ensures EndStep(s).slots[s.frame] == s.counter + 1
    ensures forall i :: 0 <= i < |s.slots| && i != s.frame ==> EndStep(s).slots[i] == s.slots[i]
    ensures forall i :: 0 <= i < |s.slots| ==> s.slots[i] < EndStep(s).slots[s.frame]
    ensures EndStep(s).frame == s.frame && EndStep(s).completed == s.completed
  {
  }

  lemma PresentStepMovesAndWaits(s: FenceState)
    requires Consistent(s)
    ensures Consistent(PresentStep(s))
    ensures PresentStep(s).frame == (s.frame + 1) % |s.slots|
    ensures SlotReady(PresentStep(s))
    ensures PresentStep(s).counter == s.counter && PresentStep(s).slots == s.slots
  {
  }

  /** After WaitForGpu the GPU is idle: every recorded slot is finished. */
  lemma WaitGpuDrains(s: FenceState)
    requires Consistent(s)
    ensures Consistent(WaitGpuStep(s))
    ensures WaitGpuStep(s).counter == s.counter + 1
    ensures WaitGpuStep(s).completed == WaitGpuStep(s).counter
    ensures forall i :: 0 <= i < |s.slots| ==> WaitGpuStep(s).completed >= WaitGpuStep(s).slots[i]
  {
  }

  /** GPU progress observed during one iteration of the frame loop. */
  datatype FrameProgress = FrameProgress(beforeEnd: nat, beforePresent: nat)

  /**
   * One iteration of the application's frame loop (BeginFrame, Clear, render,
   * EndFrame, Present), with the GPU advancing in between. BeginFrame and
   * Clear leave the fence state alone.
   */
  function RunFrame(s: FenceState, p: FrameProgress): (r: FenceState)
    requires Consistent(s)
    ensures Consistent(r) && SlotReady(r) && |r.slots| == |s.slots|
    ensures r.counter == s.counter + 1
  {
    var a := Advance(s, p.beforeEnd);
    EndStepSignalsNewValue(a);
    var e := Advance(EndStep(a), p.beforePresent);
    PresentStepMovesAndWaits(e);
    PresentStep(e)
  }

  function RunFrames(s: FenceState, ps: seq<FrameProgress>): (r: FenceState)
    requires Consistent(s)
    ensures Consistent(r) && |r.slots| == |s.slots|
    decreases |ps|
  {
    if ps == [] then s else RunFrames(RunFrame(s, ps[0]), ps[1..])
  }

  /**
   * Allocator-reset safety: starting from a freshly initialised renderer,
   * whatever the GPU does, each BeginFrame resets an allocator whose last
   * recorded work has completed.
   */
  lemma {:induction false} ResetIsSafeAfterFrames(s: FenceState, ps: seq<FrameProgress>)
    requires Consistent(s) && SlotReady(s)
    ensures SlotReady(RunFrames(s, ps))
    decreases |ps|
  {
    if ps != [] {
      ResetIsSafeAfterFrames(RunFrame(s, ps[0]), ps[1..]);
    }
  }

  lemma AllocatorResetSafe(n: nat, ps: seq<FrameProgress>)
    requires n >= 1
    ensures SlotReady(RunFrames(Fresh(n), ps))
  {
    ResetIsSafeAfterFrames(Fresh(n), ps);
  }

  /** Each completed frame signals a value one higher than the previous frame. */
  lemma {:induction false} CounterCountsFrames(s: FenceState, ps: seq<FrameProgress>)
    requires Consistent(s)
    ensures RunFrames(s, ps).counter == s.counter + |ps|
    decreases |ps|
  {
    if ps != [] {
      CounterCountsFrames(RunFrame(s, ps[0]), ps[1..]);
    }
  }

  /**
   * std::vector::resize(n, 0) as used by CreateSynchronization: the first
   * min(n, |old|) values are kept and new slots are 0.
   */
  function ResizeWithZeros(current: seq<nat>, n: nat): (r: seq<nat>)
    ensures |r| == n
    ensures forall i :: 0 <= i < n && i < |current| ==> r[i] == current[i]
    ensures forall i :: |current| <= i < n ==> r[i] == 0
  {
    if n <= |current| then current[..n] else current + seq(n - |current|, _ => 0)
  }

  /**
   * The fence state Initialize leaves as written: a new fence at 0, the
   * counter at 0, but slot values and slot index kept from before.
   */
  function ReinitializeAsWritten(s: FenceState, n: nat): (r: FenceState)
    ensures |r.slots| == n && r.counter == 0 && r.completed == 0
    ensures r.frame == s.frame
    ensures forall i :: 0 <= i < n && i < |s.slots| ==> r.slots[i] == s.slots[i]
  {
    FenceState(0, ResizeWithZeros(s.slots, n), s.frame, 0)
  }

  /**
   * Shutdown followed by Initialize on the same renderer, as written: after
   * two frames and one more EndFrame, Present waits for fence value 2 while
   * only 1 has been signalled on the new fence, so the wait never returns.
   */
  lemma ReinitializeWaitsForUnsignalledValue()
    ensures var before := WaitGpuStep(RunFrames(Fresh(2), [FrameProgress(0, 0), FrameProgress(0, 0)]));
            var after := EndStep(ReinitializeAsWritten(before, 2));
            var next := (after.frame + 1) % 2;
            after.slots[next] == 2 && after.counter == 1 && !Consistent(after)
  {
    TwoFramesOfTwoSlots();
    var s2 := FenceState(2, [1, 2], 0, 1);
    assert WaitGpuStep(s2) == FenceState(3, [1, 2], 0, 3);
    var r := ReinitializeAsWritten(WaitGpuStep(s2), 2);
    assert r.slots == [1, 2];
  }

  /** Two frames on two slots with an idle GPU: values 1 and 2 recorded, back at slot 0, fence at 1. */
  lemma TwoFramesOfTwoSlots()
    ensures RunFrames(Fresh(2), [FrameProgress(0, 0), FrameProgress(0, 0)]) == FenceState(2, [1, 2], 0, 1)
  {
    var idle := FrameProgress(0, 0);
    var s1 := FenceState(1, [1, 0], 1, 0);
    assert RunFrame(Fresh(2), idle) == s1 by {
      assert Fresh(2).slots == [0, 0];
    }
    assert RunFrame(s1, idle) == FenceState(2, [1, 2], 0, 1);
    assert [idle, idle][1..] == [idle];
    assert [idle][1..] == [];
  }

  /** Two frames on three slots with an idle GPU: values 1 and 2 recorded, slot index at 2, fence at 0. */
  lemma TwoFramesOfThreeSlots()
    ensures RunFrames(Fresh(3), [FrameProgress(0, 0), FrameProgress(0, 0)]) == FenceState(2, [1, 2, 0], 2, 0)
  {
    var idle := FrameProgress(0, 0);
    var s1 := FenceState(1, [1, 0, 0], 1, 0);
    assert RunFrame(Fresh(3), idle) == s1 by {
      assert Fresh(3).slots == [0, 0, 0];
    }
    assert RunFrame(s1, idle) == FenceState(2, [1, 2, 0], 2, 0);
    assert [idle, idle][1..] == [idle];
    assert [idle][1..] == [];
  }

  /**
   * Re-creation as written never resets the slot index: after two frames on
   * three back buffers, Shutdown and Initialize with two back buffers leave
   * the index at 2, so BeginFrame resets allocator 2 of 2 and EndFrame
   * writes slot value 2 of 2, both past the end.
   */
  lemma ReinitializeKeepsStaleFrameIndex()
    ensures var before := WaitGpuStep(RunFrames(Fresh(3), [FrameProgress(0, 0), FrameProgress(0, 0)]));
            var after := ReinitializeAsWritten(before, 2);
            after.frame == 2 && |after.slots| == 2 && !Consistent(after)
  {
    TwoFramesOfThreeSlots();
    assert WaitGpuStep(FenceState(2, [1, 2, 0], 2, 0)) == FenceState(3, [1, 2, 0], 2, 3);
  }

  /**
   * The corrected re-creation, which the renderer class performs, starts
   * from Fresh(n) whatever the earlier frames left: the next EndFrame keeps
   * the fence consistent and Present then waits only for a value already
   * signalled, and after any frames the slot index stays below n and the
   * allocator BeginFrame resets has completed.
   */
  lemma ReinitializeCorrected(n: nat, ps: seq<FrameProgress>)
    requires n >= 1
    ensures var after := EndStep(Fresh(n));
            Consistent(after) && after.slots[(after.frame + 1) % n] <= after.counter
    ensures var r := RunFrames(Fresh(n), ps);
            r.frame < n && |r.slots| == n && SlotReady(r)
  {
    EndStepSignalsNewValue(Fresh(n));
    ResetIsSafeAfterFrames(Fresh(n), ps);
  }

  /** One back buffer and its render-target view descriptor address. */
  datatype RenderTarget = RenderTarget(buffer: nat, rtv: nat)

  /**
   * The descriptor loop of CreateRenderTargets: buffer i gets the descriptor
   * at heapStart + i * increment.
   */
  method DescriptorHandles(heapStart: nat, increment: nat, count: nat) returns (targets: seq<RenderTarget>)
    ensures |targets| == count
    ensures forall i :: 0 <= i < count ==> targets[i] == RenderTarget(i, heapStart + i * increment)
  {
    targets := [];
    var handle := heapStart;
    var i := 0;
    while i < count
      invariant i <= count && |targets| == i
      invariant handle == heapStart + i * increment
      invariant forall k :: 0 <= k < i ==> targets[k] == RenderTarget(k, heapStart + k * increment)
    {
      targets := targets + [RenderTarget(i, handle)];
      handle := handle + increment;
      i := i + 1;
    }
  }

  /** The outcome IDXGISwapChain::Present reports. */
  datatype PresentStatus = Presented | DeviceRemoved | DeviceReset | PresentFailed

  /** The parts of RendererConfig the renderer keeps. */
  datatype RendererConfig = RendererConfig(backBufferCount: u32, vsyncEnabled: bool)

  const DefaultRendererConfig: RendererConfig := RendererConfig(2, true)

  /** A flip-model swap chain accepts between 2 and 16 buffers. */
  const MinSwapChainBuffers: nat := 2
  const MaxSwapChainBuffers: nat := 16

  /** No targets, or one per back buffer with descriptor i at start + i * increment. */
  ghost predicate LaidOut(targets: seq<RenderTarget>, start: nat, increment: nat, count: nat)
  {
    |targets| == 0 ||
    (|targets| == count &&
     forall i :: 0 <= i < |targets| ==> targets[i] == RenderTarget(i, start + i * increment))
  }

  class DX12Renderer {
    var windowWidth: u32
    var windowHeight: u32
    var backBufferCount: nat
    var vsyncEnabled: bool
    var rtvHeapStart: nat
    var rtvDescriptorSize: nat
    var renderTargets: seq<RenderTarget>
    var hasDepthStencil: bool
    var allocatorCount: nat
    var fenceValues: seq<nat>
    var fenceCounter: nat
    var completed: nat
    var frameIndex: nat
    var backBufferIndex: nat
    var initialized: bool

    /** The fence bookkeeping of this renderer. */
    function Fence(): FenceState
      reads this
    {
      FenceState(fenceCounter, fenceValues, frameIndex, completed)
    }

    /** Render targets as CreateRenderTargets lays them out, or none after a failed resize. */
    ghost predicate TargetsLaidOut()
      reads this
    {
      LaidOut(renderTargets, rtvHeapStart, rtvDescriptorSize, backBufferCount)
    }

    ghost predicate Valid()
      reads this
    {
      completed <= fenceCounter &&
      (initialized ==>
        |fenceValues| == backBufferCount && allocatorCount == backBufferCount &&
        Consistent(Fence()) && TargetsLaidOut())
    }

    /** A new renderer: not initialised, 0x0, two back buffers, slot 0, counter 0. */
    constructor ()
      ensures Valid() && !initialized
      ensures windowWidth == 0 && windowHeight == 0
      ensures backBufferCount == 2 && frameIndex == 0 && backBufferIndex == 0
      ensures fenceCounter == 0 && fenceValues == [] && renderTargets == []
    {
      windowWidth, windowHeight := 0, 0;
      backBufferCount := 2;
      vsyncEnabled := true;
      rtvHeapStart, rtvDescriptorSize := 0, 0;
      renderTargets := [];
      hasDepthStencil := false;
      allocatorCount := 0;
      fenceValues := [];
      fenceCounter, completed := 0, 0;
      frameIndex, backBufferIndex := 0, 0;
      initialized := false;
    }

    /** GetCurrentFrameIndex: the slot index, in range once initialised. */
    function GetCurrentFrameIndex(): (r: nat)
      reads this
      requires Valid()
      ensures initialized ==> r < backBufferCount && r < |fenceValues|
    {
      frameIndex
    }

    /**
     * The GPU reaching fence value v (not an operation of the renderer: it
     * stands for asynchronous GPU progress between renderer calls).
     */
    method GpuReaches(v: nat)
      requires Valid() && completed <= v <= fenceCounter
      modifies this`completed
      ensures Valid() && completed == v
    {
      completed := v;
    }

    /**
     * Initialize: without a window nothing happens; otherwise the window size
     * and configuration are copied and the device objects are created.
     * `createOk` stands for the success of the D3D12/DXGI creation calls; the
     * swap chain itself also refuses a buffer count outside 2..16.
     * Fence values and slot index start from zero (see README, Findings).
     */
    method Initialize(hasWindow: bool, width: u32, height: u32, config: RendererConfig,
                      createOk: bool, heapStart: nat, rtvIncrement: nat) returns (ok: bool)
      requires Valid() && !initialized
      modifies this`windowWidth, this`windowHeight, this`backBufferCount, this`vsyncEnabled,
               this`rtvHeapStart, this`rtvDescriptorSize, this`renderTargets, this`hasDepthStencil,
               this`allocatorCount, this`fenceValues, this`fenceCounter, this`completed, this`frameIndex,
               this`initialized
      ensures Valid()
      ensures ok <==> hasWindow && createOk &&
                      MinSwapChainBuffers <= config.backBufferCount <= MaxSwapChainBuffers
      ensures initialized == ok
      ensures !hasWindow ==> unchanged(this)
      ensures hasWindow ==> windowWidth == width && windowHeight == height &&
                            backBufferCount == config.backBufferCount &&
                            vsyncEnabled == config.vsyncEnabled
      ensures !ok ==> Fence() == old(Fence())
      ensures ok ==> Fence() == Fresh(config.backBufferCount) && SlotReady(Fence())
      ensures ok ==> |renderTargets| == backBufferCount && hasDepthStencil &&
                     allocatorCount == backBufferCount &&
                     rtvHeapStart == heapStart && rtvDescriptorSize == rtvIncrement
    {
      if !hasWindow {
        return false;
      }
      windowWidth, windowHeight := width, height;
      backBufferCount := config.backBufferCount;
      vsyncEnabled := config.vsyncEnabled;
      if !createOk || backBufferCount < MinSwapChainBuffers || backBufferCount > MaxSwapChainBuffers {
        return false;
      }
      CreateResources(heapStart, rtvIncrement);
      initialized := true;
      ok := true;
    }

    /** Initialize's creation steps after the device and swap chain, in the source's order. */
    method CreateResources(heapStart: nat, rtvIncrement: nat)
      requires backBufferCount >= 1
      modifies this`rtvHeapStart, this`rtvDescriptorSize, this`renderTargets, this`hasDepthStencil,
               this`allocatorCount, this`fenceValues, this`fenceCounter, this`completed, this`frameIndex
      ensures rtvHeapStart == heapStart && rtvDescriptorSize == rtvIncrement
      ensures |renderTargets| == backBufferCount && TargetsLaidOut()
      ensures hasDepthStencil && allocatorCount == backBufferCount
      ensures Fence() == Fresh(backBufferCount)
    {
      CreateDescriptorHeaps(heapStart, rtvIncrement);
      CreateRenderTargets();
      CreateDepthStencil();
      CreateCommandAllocators();
      CreateSynchronization();
    }

    /** CreateRenderTargets: one target per back buffer, descriptors laid out from the heap start. */
    method CreateRenderTargets()
      modifies this`renderTargets
      ensures |renderTargets| == backBufferCount && TargetsLaidOut()
    {
      renderTargets := DescriptorHandles(rtvHeapStart, rtvDescriptorSize, backBufferCount);
    }

    /** CreateDescriptorHeaps: the RTV heap's first handle and descriptor increment. */
    method CreateDescriptorHeaps(heapStart: nat, rtvIncrement: nat)
      modifies this`rtvHeapStart, this`rtvDescriptorSize
      ensures rtvHeapStart == heapStart && rtvDescriptorSize == rtvIncrement
    {
      rtvHeapStart, rtvDescriptorSize := heapStart, rtvIncrement;
    }

    /** CreateDepthStencil: the window-sized depth buffer and its view. */
    method CreateDepthStencil()
      modifies this`hasDepthStencil
      ensures hasDepthStencil
    {
      hasDepthStencil := true;
    }

    /** CreateCommandAllocators: one allocator per back buffer. */
    method CreateCommandAllocators()
      modifies this`allocatorCount
      ensures allocatorCount == backBufferCount
    {
      allocatorCount := backBufferCount;
    }

    /**
     * CreateSynchronization, corrected: a new fence at 0, the counter at 0,
     * every slot value 0 and slot index 0 (the engine keeps the old slot
     * values and index; see ReinitializeAsWritten).
     */
    method CreateSynchronization()
      requires backBufferCount >= 1
      modifies this`fenceValues, this`fenceCounter, this`completed, this`frameIndex
      ensures Fence() == Fresh(backBufferCount)
    {
      fenceValues := seq(backBufferCount, _ => 0);
      fenceCounter, completed := 0, 0;
      frameIndex := 0;
    }

    /** WaitForGpu: nothing when uninitialised; otherwise signal a new value and wait for it. */
    method WaitForGpu()
      requires Valid()
      modifies this`fenceCounter, this`completed
      ensures Valid()
      ensures !old(initialized) ==> Fence() == old(Fence())
      ensures old(initialized) ==> Fence() == WaitGpuStep(old(Fence()))
      ensures old(initialized) ==> fenceCounter == old(fenceCounter) + 1 && completed == fenceCounter
    {
      if !initialized {
        return;
      }
      fenceCounter := fenceCounter + 1;
      if completed < fenceCounter {
        completed := fenceCounter;
      }
    }

    /** Shutdown: nothing when uninitialised; otherwise drain the GPU and release everything. */
    method Shutdown()
      requires Valid()
      modifies this
      ensures Valid() && !initialized
      ensures !old(initialized) ==> unchanged(this)
      ensures old(initialized) ==> Fence() == WaitGpuStep(old(Fence())) &&
                                   renderTargets == [] && !hasDepthStencil && allocatorCount == 0
      ensures windowWidth == old(windowWidth) && windowHeight == old(windowHeight)
      ensures backBufferCount == old(backBufferCount)
    {
      if !initialized {
        return;
      }
      WaitForGpu();
      renderTargets := [];
      allocatorCount := 0;
      hasDepthStencil := false;
      initialized := false;
    }

    /**
     * BeginFrame: reset the current slot's allocator, take the swap chain's
     * back buffer index, and target that buffer's descriptor and the
     * window-sized viewport. The fence bookkeeping is untouched.
     */
    method BeginFrame(swapChainIndex: nat) returns (rtv: nat, viewportWidth: u32, viewportHeight: u32)
      requires Valid() && initialized && swapChainIndex < |renderTargets|
      modifies this`backBufferIndex
      ensures Valid()
      ensures backBufferIndex == swapChainIndex
      ensures rtv == renderTargets[backBufferIndex].rtv
      ensures viewportWidth == windowWidth && viewportHeight == windowHeight
      ensures Fence() == old(Fence())
    {
      backBufferIndex := swapChainIndex;
      rtv := rtvHeapStart + backBufferIndex * rtvDescriptorSize;
      viewportWidth, viewportHeight := windowWidth, windowHeight;
    }

    /** Clear: the render-target descriptor it clears is the current back buffer's. */
    method Clear() returns (rtv: nat)
      requires Valid() && initialized && backBufferIndex < |renderTargets|
      ensures rtv == renderTargets[backBufferIndex].rtv
      ensures rtv == rtvHeapStart + backBufferIndex * rtvDescriptorSize
    {
      rtv := rtvHeapStart + backBufferIndex * rtvDescriptorSize;
    }

    /** EndFrame: signal a new fence value and record it for the current slot. */
    method EndFrame()
      requires Valid() && initialized && backBufferIndex < |renderTargets|
      modifies this`fenceCounter, this`fenceValues
      ensures Valid()
      ensures Fence() == EndStep(old(Fence()))
      ensures fenceCounter == old(fenceCounter) + 1
      ensures fenceValues == old(fenceValues)[frameIndex := fenceCounter]
    {
      fenceCounter := fenceCounter + 1;
      fenceValues := fenceValues[frameIndex := fenceCounter];
    }

    /**
     * Present: a device-removed, device-reset or other failed status throws
     * (ok == false) before the slot index moves; otherwise MoveToNextFrame.
     */
    method Present(status: PresentStatus) returns (ok: bool, syncInterval: nat)
      requires Valid() && initialized
      modifies this`frameIndex, this`completed
      ensures Valid()
      ensures syncInterval == if vsyncEnabled then 1 else 0
      ensures ok <==> status == Presented
      ensures !ok ==> Fence() == old(Fence())
      ensures ok ==> Fence() == PresentStep(old(Fence()))
      ensures ok ==> frameIndex == (old(frameIndex) + 1) % backBufferCount && SlotReady(Fence())
    {
      syncInterval := if vsyncEnabled then 1 else 0;
      if status == DeviceRemoved || status == DeviceReset {
        return false, syncInterval;
      }
      if status != Presented {
        return false, syncInterval;
      }
      MoveToNextFrame();
      ok := true;
    }

    /** MoveToNextFrame: advance the slot index and wait for that slot's fence value. */
    method MoveToNextFrame()
      requires Valid() && initialized
      modifies this`frameIndex, this`completed
      ensures Valid()
      ensures Fence() == PresentStep(old(Fence()))
      ensures frameIndex == (old(frameIndex) + 1) % backBufferCount
      ensures completed >= fenceValues[frameIndex]
    {
      frameIndex := (frameIndex + 1) % backBufferCount;
      WaitForFrame(frameIndex);
    }

    /** WaitForFrame: block only while the fence is behind the slot's value. */
    method WaitForFrame(slot: nat)
      requires Valid() && initialized && slot < |fenceValues|
      modifies this`completed
      ensures Valid()
      ensures Fence() == WaitFor(old(Fence()), fenceValues[slot])
      ensures completed >= fenceValues[slot]
      ensures old(completed) >= fenceValues[slot] ==> completed == old(completed)
    {
      if completed < fenceValues[slot] {
        completed := fenceValues[slot];
      }
    }

    /**
     * Resize: nothing when uninitialised or the size is unchanged. Otherwise
     * drain the GPU, release the render targets and depth buffer, resize the
     * swap chain (`resizeOk`; a failure throws and leaves the targets
     * released), then take the new size and recreate the targets.
     */
    method Resize(width: u32, height: u32, resizeOk: bool) returns (ok: bool)
      requires Valid()
      modifies this
      ensures Valid()
      ensures initialized == old(initialized)
      ensures backBufferCount == old(backBufferCount)
      ensures !old(initialized) || (width == old(windowWidth) && height == old(windowHeight)) ==>
                ok && unchanged(this)
      ensures old(initialized) && (width != old(windowWidth) || height != old(windowHeight)) ==>
                Fence() == WaitGpuStep(old(Fence())) && completed == fenceCounter &&
                ok == resizeOk &&
                (ok ==> windowWidth == width && windowHeight == height &&
                        |renderTargets| == backBufferCount && hasDepthStencil) &&
                (!ok ==> renderTargets == [] && !hasDepthStencil &&
                         windowWidth == old(windowWidth) && windowHeight == old(windowHeight))
    {
      if !initialized || (width == windowWidth && height == windowHeight) {
        return true;
      }
      WaitForGpu();
      renderTargets := [];
      hasDepthStencil := false;
      if !resizeOk {
        return false;
      }
      windowWidth, windowHeight := width, height;
      CreateRenderTargets();
      hasDepthStencil := true;
      ok := true;
    }
  }
}
