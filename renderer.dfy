/** Gsw/Common/Renderer.swift: the in-flight frame accounting. The semaphore is
    a counter; `Update` may only acquire it when a unit is free (the real wait
    would block), and a command buffer's completion is an explicit event
    (`CompleteOldestFrame`) that releases one unit. */
module Renderers {
  import opened Wrappers
  import opened Gpu
  import opened Cameras

  /** Renderer.MAX_INFLIGHT_FRAMES. */
  const MaxInflightFrames: nat := 3

  /** The renderer dictates the combined depth/stencil format to its clients. */
  const DesiredDepthStencilPixelFormat: PixelFormat := Depth32FloatStencil8

  /** The steps of a frame tick, in the order the renderer takes them. */
  datatype FrameStep = FrameSlotAcquired | CameraUpdated(timestep: real) | DrawRequested(constantBufferIndex: nat)

  /** The next buffer index after `i`. */
  function NextBufferIndex(i: nat): (r: nat)
    ensures r < MaxInflightFrames
    ensures i < MaxInflightFrames ==> (r == 0 <==> i == MaxInflightFrames - 1)
    ensures i < MaxInflightFrames - 1 ==> r == i + 1
  {
    (i + 1) % MaxInflightFrames
  }

  /** Advancing three times returns the index to where it was. */
  lemma NextBufferIndexCycle(i: nat)
    requires i < MaxInflightFrames
    ensures NextBufferIndex(NextBufferIndex(NextBufferIndex(i))) == i
  {
  }

  class Renderer {
    var frameSemaphore: nat
    var constantBufferIndex: nat
    var camera: Camera
    var steps: seq<FrameStep>
    /** Frames that acquired a unit and have not yet been committed. */
    ghost var framesInPreparation: nat

    constructor (camera: Camera)
      ensures frameSemaphore == MaxInflightFrames && constantBufferIndex == 0
      ensures this.camera == camera && steps == [] && framesInPreparation == 0
    {
      frameSemaphore := MaxInflightFrames;
      constantBufferIndex := 0;
      this.camera := camera;
      steps := [];
      framesInPreparation := 0;
    }

    method AdvanceConstantBufferIndex()
      modifies this`constantBufferIndex
      ensures constantBufferIndex == NextBufferIndex(old(constantBufferIndex))
    {
      constantBufferIndex := (constantBufferIndex + 1) % MaxInflightFrames;
    }

    method SignalFrameSemaphore()
      modifies this`frameSemaphore
      ensures frameSemaphore == old(frameSemaphore) + 1
    {
      frameSemaphore := frameSemaphore + 1;
    }

    /** `_update`: take a frame slot, then let the camera move, here to the
        view `next` its own motion gives. */
    method Update(timeDelta: real, next: Mat)
      requires frameSemaphore > 0
      modifies this`frameSemaphore, this`steps, this`framesInPreparation, camera
      ensures frameSemaphore == old(frameSemaphore) - 1
      ensures framesInPreparation == old(framesInPreparation) + 1
      ensures steps == old(steps) + [FrameSlotAcquired, CameraUpdated(timeDelta)]
      ensures camera.timesteps == old(camera.timesteps) + [timeDelta]
      ensures camera.viewMatrix == next
      ensures camera.dirty == (old(camera.dirty) || next != old(camera.viewMatrix))
    {
      frameSemaphore := frameSemaphore - 1;
      framesInPreparation := framesInPreparation + 1;
      steps := steps + [FrameSlotAcquired];
      camera.Update(timeDelta, next);
      steps := steps + [CameraUpdated(timeDelta)];
    }

    /** `updateAndDraw`: one tick of 1/60 s, the update strictly before the draw. */
    method UpdateAndDraw(next: Mat)
      requires frameSemaphore > 0
      modifies this`frameSemaphore, this`steps, this`framesInPreparation, camera
      ensures frameSemaphore == old(frameSemaphore) - 1
      ensures steps == old(steps) + [FrameSlotAcquired, CameraUpdated(1.0 / 60.0), DrawRequested(constantBufferIndex)]
      ensures framesInPreparation == old(framesInPreparation) + 1
      ensures constantBufferIndex == old(constantBufferIndex)
      ensures camera.viewMatrix == next
      ensures camera.dirty == (old(camera.dirty) || next != old(camera.viewMatrix))
    {
      var timeDelta: real := 1.0 / 60.0;
      Update(timeDelta, next);
      steps := steps + [DrawRequested(constantBufferIndex)];
    }

    /** The frame being prepared has been handed to the GPU. */
    method NoteFrameCommitted()
      requires framesInPreparation > 0
      modifies this`framesInPreparation
      ensures framesInPreparation == old(framesInPreparation) - 1
    {
      framesInPreparation := framesInPreparation - 1;
    }
  }

  /** A committed command buffer: the buffer index its frame used, its
      commands, and the drawable it presents, if any. */
  datatype Submission = Submission(constantBufferIndex: nat, commands: seq<Command>, presented: Option<GpuTexture>)

  /** The GPU's queue of committed, not yet completed command buffers (completed in order). */
  class CommandQueue {
    var inFlight: seq<Submission>

    constructor ()
      ensures inFlight == []
    {
      inFlight := [];
    }

    method Commit(s: Submission)
      modifies this
      ensures inFlight == old(inFlight) + [s]
    {
      inFlight := inFlight + [s];
    }
  }

  /** The oldest in-flight command buffer completes; its handler signals the semaphore. */
  method CompleteOldestFrame(queue: CommandQueue, renderer: Renderer)
    requires queue.inFlight != []
    modifies queue, renderer`frameSemaphore
    ensures queue.inFlight == old(queue.inFlight[1..])
    ensures renderer.frameSemaphore == old(renderer.frameSemaphore) + 1
    ensures old(FrameAccounting(renderer, queue)) ==> FrameAccounting(renderer, queue)
  {
    ghost var before := queue.inFlight;
    queue.inFlight := queue.inFlight[1..];
    renderer.SignalFrameSemaphore();
    SlotsOfTail(before);
    if SlotsBehind(renderer.constantBufferIndex, SlotsOf(before)) {
      CompleteKeepsSlotsBehind(renderer.constantBufferIndex, SlotsOf(before));
    }
  }

  /** While a frame is being prepared, the buffer index it writes is not
      used by any command buffer the GPU may still be reading. */
  lemma PreparedFrameSlotIsIdle(r: Renderer, q: CommandQueue)
    requires FrameAccounting(r, q) && r.framesInPreparation > 0
    ensures r.constantBufferIndex !in SlotsOf(q.inFlight)
  {
    FreeUnitMeansIdleSlot(r.constantBufferIndex, SlotsOf(q.inFlight));
  }

  function SlotsOf(s: seq<Submission>): (r: seq<nat>)
    ensures |r| == |s|
    ensures forall k :: 0 <= k < |s| ==> r[k] == s[k].constantBufferIndex
  {
    if s == [] then [] else [s[0].constantBufferIndex] + SlotsOf(s[1..])
  }

  /** The in-flight slots are the |slots| indices just behind `current`, oldest first. */
  ghost predicate SlotsBehind(current: nat, slots: seq<nat>) {
    |slots| <= MaxInflightFrames
    && forall k :: 0 <= k < |slots| ==> slots[k] == (current + MaxInflightFrames - |slots| + k) % MaxInflightFrames
  }

  /** What the semaphore protocol maintains between the renderer and the GPU. */
  ghost predicate FrameAccounting(r: Renderer, q: CommandQueue)
    reads r, q
  {
    r.constantBufferIndex < MaxInflightFrames
    && r.frameSemaphore + r.framesInPreparation + |q.inFlight| == MaxInflightFrames
    && SlotsBehind(r.constantBufferIndex, SlotsOf(q.inFlight))
  }

  /** With a unit free, the buffer index about to be written is used by no
      command buffer the GPU may still be reading. */
  lemma {:induction false} FreeUnitMeansIdleSlot(current: nat, slots: seq<nat>)
    requires current < MaxInflightFrames && |slots| < MaxInflightFrames
    requires SlotsBehind(current, slots)
    ensures current !in slots
  {
    forall k | 0 <= k < |slots| ensures slots[k] != current {
      var d := MaxInflightFrames - |slots| + k;
      assert 1 <= d < MaxInflightFrames;
      assert slots[k] == (current + d) % MaxInflightFrames;
    }
  }

  /** Committing the current slot and then advancing keeps the slots behind the index. */
  lemma {:induction false} CommitAndAdvanceKeepsSlotsBehind(current: nat, slots: seq<nat>)
    requires current < MaxInflightFrames && |slots| < MaxInflightFrames
    requires SlotsBehind(current, slots)
    ensures SlotsBehind(NextBufferIndex(current), slots + [current])
  {
    var n := |slots| + 1;
    var s' := slots + [current];
    forall k | 0 <= k < n
      ensures s'[k] == (NextBufferIndex(current) + MaxInflightFrames - n + k) % MaxInflightFrames
    {
      if k < |slots| {
        assert s'[k] == (current + MaxInflightFrames - |slots| + k) % MaxInflightFrames;
      }
    }
  }

  /** Completion removes the oldest slot and keeps the rest behind the index. */
  lemma {:induction false} CompleteKeepsSlotsBehind(current: nat, slots: seq<nat>)
    requires slots != [] && SlotsBehind(current, slots)
    ensures SlotsBehind(current, slots[1..])
  {
    var t := slots[1..];
    forall k | 0 <= k < |t|
      ensures t[k] == (current + MaxInflightFrames - |t| + k) % MaxInflightFrames
    {
      assert t[k] == slots[k + 1];
    }
  }

  lemma {:induction false} SlotsOfAppend(s: seq<Submission>, x: Submission)
    ensures SlotsOf(s + [x]) == SlotsOf(s) + [x.constantBufferIndex]
  {
  }

  lemma {:induction false} SlotsOfTail(s: seq<Submission>)
    requires s != []
    ensures SlotsOf(s[1..]) == SlotsOf(s)[1..]
  {
  }
}
