/** Gsw/ScaleAnimator.swift: grows an object's uniform scale up to a maximum,
    shrinks it back to a minimum, and repeats. */
module ScaleAnimators {
  import opened Gpu
  import opened Wrappers
  import opened Utilities
  import opened Scene
  import TrsTransforms

  /** The scale and direction after one step of `step` units: move in the
      current direction, turn at a limit, then clamp into [min, max]. */
  function NextScale(scale: real, increasing: bool, step: real, min: real, max: real): (r: (real, bool))
    requires min <= max
    ensures min <= r.0 <= max
    ensures var moved := if increasing then scale + step else scale - step;
      && (moved <= min ==> r.1 && r.0 == min)
      && (min < moved < max ==> r.0 == moved && r.1 == increasing)
      && (moved >= max && moved > min ==> !r.1 && r.0 == max)
  {
    var moved := scale + step * (if increasing then 1.0 else -1.0);
    var dir := if moved <= min then true else if moved >= max then false else increasing;
    (Clamp(min, max, moved), dir)
  }

  /** Once inside the range, a step smaller than the range never skips a
      limit: it lands inside, or on the limit it was heading for, and turns. */
  lemma PingPong(scale: real, increasing: bool, step: real, min: real, max: real)
    requires min < max && min <= scale <= max && 0.0 <= step
    ensures var r := NextScale(scale, increasing, step, min, max);
      && (increasing && scale + step >= max ==> r == (max, false))
      && (!increasing && scale - step <= min ==> r == (min, true))
      && (increasing && scale + step < max ==> r == (scale + step, true))
      && (!increasing && scale - step > min ==> r == (scale - step, false))
  {
  }

  class ScaleAnimator {
    const transform: TrsTransforms.TRSTransform
    const speed: real
    const min: real
    const max: real
    var currentScale: real
    var increasing: bool

    constructor Attach(t: TrsTransforms.TRSTransform, speed: real, minScale: real, maxScale: real)
      ensures transform == t && this.speed == speed && min == minScale && max == maxScale
      ensures currentScale == 1.0 && increasing
    {
      transform := t;
      this.speed := speed;
      min := minScale;
      max := maxScale;
      currentScale := 1.0;
      increasing := true;
    }

    /** `init?(renderable:speed:minScale:maxScale:)`: no animator for an
        object without a transform. The limits are not checked here. */
    static method Create(renderable: Renderable, speed: real, minScale: real, maxScale: real) returns (r: Option<ScaleAnimator>)
      ensures r.None? <==> renderable.transform == null
      ensures r.Some? ==>
        && fresh(r.value) && r.value.transform == renderable.transform
        && r.value.speed == speed && r.value.min == minScale && r.value.max == maxScale
        && r.value.currentScale == 1.0 && r.value.increasing
    {
      if renderable.transform == null {
        return None;
      }
      var a := new ScaleAnimator.Attach(renderable.transform, speed, minScale, maxScale);
      r := Some(a);
    }

    /** `update(timeDelta:)`: one step of `speed * timeDelta`, and the
        transform's uniform scale follows. Forming the range traps when the
        minimum exceeds the maximum. */
    method Update(timeDelta: real) returns (status: Status)
      modifies this`currentScale, this`increasing, transform
      ensures status.Stopped? <==> min > max
      ensures status.Completed? ==>
        && (currentScale, increasing) == NextScale(old(currentScale), old(increasing), speed * timeDelta, min, max)
        && min <= currentScale <= max
        && transform.scale == currentScale && transform.scaleDirty
        && transform.rotationAngle == old(transform.rotationAngle)
        && transform.rotationAxis == old(transform.rotationAxis)
        && transform.translation == old(transform.translation)
        && transform.rotationDirty == old(transform.rotationDirty)
        && transform.translationDirty == old(transform.translationDirty)
    {
      var scaleDelta := speed * timeDelta;
      currentScale := currentScale + scaleDelta * (if increasing then 1.0 else -1.0);
      if currentScale <= min {
        increasing := true;
      } else if currentScale >= max {
        increasing := false;
      }
      if min > max {
        return Stopped("Range requires lowerBound <= upperBound");
      }
      currentScale := Clamp(min, max, currentScale);
      transform.SetScale(currentScale);
      status := Completed;
    }
  }
}
