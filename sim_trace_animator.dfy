/** Gsw/SimObject.swift and Gsw/SimTraceAnimator.swift: a sphere that follows
    one particle of a simulation trace, played back at a fixed number of
    trace frames per second and wrapping around at the end of the trace. */
module SimTraceAnimators {
  import opened Wrappers
  import opened Gpu
  import opened Numerics
  import opened SimTraces
  import TrsTransforms

  /** The frame rate an animator plays a trace at unless told otherwise. */
  const DefaultSimFrameRate: real := 30.0

  /** The trace frame shown after `elapsed` seconds at `rate` frames per
      second in a trace of `count` frames: the elapsed frame count truncated
      to an integer and wrapped by Swift's `%`, which traps on a zero
      divisor. */
  function FrameIndex(elapsed: real, rate: real, count: int): (r: Result<int>)
    ensures r.Fatal? <==> count == 0
  {
    if count == 0 then Fatal("Division by zero in remainder operation")
    else Ok(SwiftRemainder(TruncateToInt(elapsed * rate), count))
  }

  /** Played forwards, the index always names a frame of the trace. */
  lemma FrameIndexInRange(elapsed: real, rate: real, count: int)
    requires elapsed * rate >= 0.0 && count > 0
    ensures FrameIndex(elapsed, rate, count).Ok?
    ensures 0 <= FrameIndex(elapsed, rate, count).value < count
  {
  }

  /** After a whole number `k` of frame periods the animator shows frame
      `k mod count`: playback starts again at the first frame once the last
      one was shown. */
  lemma FrameIndexWraps(elapsed: real, rate: real, count: int, k: nat)
    requires count > 0 && elapsed * rate == k as real
    ensures FrameIndex(elapsed, rate, count) == Ok(k % count)
  {
    assert TruncateToInt(k as real) == k;
  }

  /** Played backwards (a negative elapsed frame count), Swift's `%` keeps
      the dividend's sign, so the index falls before the first frame. */
  lemma FrameIndexNegativeBackwards()
    ensures FrameIndex(-1.0, DefaultSimFrameRate, 4) == Ok(-2)
  {
    assert TruncateToInt(-30.0) == -30;
  }

  /** The sphere drawn for one particle of a trace. */
  class SimObject {
    const trace: SimTrace
    const particleIndex: int
    const transform: TrsTransforms.TRSTransform

    constructor (particleIndex: int, trace: SimTrace, transform: TrsTransforms.TRSTransform)
      ensures this.particleIndex == particleIndex && this.trace == trace && this.transform == transform
    {
      this.particleIndex := particleIndex;
      this.trace := trace;
      this.transform := transform;
    }

    /** The number of frames of the trace it follows. */
    function NumSimFrames(): (n: nat)
      reads trace`frames
      ensures n == |trace.frames|
    {
      trace.NumSimFrames()
    }

    /** The position of its particle in frame `frameIndex`; an index out of
        range traps. */
    function PositionForFrame(frameIndex: int): (r: Result<Vec3>)
      reads trace`frames
      ensures r.Ok? <==> 0 <= frameIndex < |trace.frames| && 0 <= particleIndex < |trace.frames[frameIndex]|
      ensures r.Ok? ==> r.value == trace.frames[frameIndex][particleIndex].position
    {
      trace.GetParticlePosition(frameIndex, particleIndex)
    }
  }

  /** A trace whose every frame holds the particle and that is played
      forwards always yields a position; this is what `Update` needs not to
      trap. */
  lemma PlaybackFindsParticle(frames: seq<Frame>, p: int, elapsed: real, rate: real)
    requires |frames| > 0 && elapsed * rate >= 0.0
    requires forall f :: 0 <= f < |frames| ==> 0 <= p < |frames[f]|
    ensures FrameIndex(elapsed, rate, |frames|).Ok?
    ensures var i := FrameIndex(elapsed, rate, |frames|).value;
      0 <= i < |frames| && 0 <= p < |frames[i]|
  {
    FrameIndexInRange(elapsed, rate, |frames|);
    var i := FrameIndex(elapsed, rate, |frames|).value;
    assert 0 <= p < |frames[i]|;
  }

  class SimTraceAnimator {
    const simObject: SimObject
    const simFrameRate: real
    /** Stored by the initialiser and never read. */
    const initialSimFrameIndex: int
    /** The trace's frame count when the animator was made. */
    const maxNumSimFrames: int
    var absoluteTimeSinceStart: real

    constructor (simObject: SimObject, simFrameRate: real, initialSimFrameIndex: int)
      ensures this.simObject == simObject && this.simFrameRate == simFrameRate
      ensures this.initialSimFrameIndex == initialSimFrameIndex
      ensures maxNumSimFrames == |simObject.trace.frames|
      ensures absoluteTimeSinceStart == 0.0
    {
      this.simObject := simObject;
      this.simFrameRate := simFrameRate;
      this.initialSimFrameIndex := initialSimFrameIndex;
      maxNumSimFrames := simObject.NumSimFrames();
      absoluteTimeSinceStart := 0.0;
    }

    /** `update(timeDelta:)`: advance the clock, pick the frame it falls in
        and move the sphere to its particle's position there. Traps when the
        trace had no frames or the frame lacks the particle. */
    method Update(timeDelta: real) returns (status: Status)
      modifies this`absoluteTimeSinceStart, simObject.transform
      ensures absoluteTimeSinceStart == old(absoluteTimeSinceStart) + timeDelta
      ensures var idx := FrameIndex(absoluteTimeSinceStart, simFrameRate, maxNumSimFrames);
        && (status.Completed? <==> idx.Ok? && simObject.PositionForFrame(idx.value).Ok?)
        && (status.Completed? ==>
             && simObject.transform.translation == simObject.PositionForFrame(idx.value).value
             && simObject.transform.translationDirty)
      ensures simObject.transform.rotationAngle == old(simObject.transform.rotationAngle)
      ensures simObject.transform.rotationAxis == old(simObject.transform.rotationAxis)
      ensures simObject.transform.scale == old(simObject.transform.scale)
      ensures simObject.transform.rotationDirty == old(simObject.transform.rotationDirty)
      ensures simObject.transform.scaleDirty == old(simObject.transform.scaleDirty)
    {
      absoluteTimeSinceStart := absoluteTimeSinceStart + timeDelta;
      var idx := FrameIndex(absoluteTimeSinceStart, simFrameRate, maxNumSimFrames);
      if idx.Fatal? {
        return Stopped(idx.message);
      }
      var position := simObject.PositionForFrame(idx.value);
      if position.Fatal? {
        return Stopped(position.message);
      }
      simObject.transform.SetTranslation(position.value);
      status := Completed;
    }
  }
}
