/** Gsw/RotatingAnimator.swift: spins an object's transform about a fixed
    axis at a constant speed given in degrees per second. */
module RotatingAnimators {
  import opened Gpu
  import opened Wrappers
  import opened Utilities
  import opened Scene
  import TrsTransforms

  /** The angle increment `update` hands the transform as written: the speed
      is converted to radians once, but the transform reads the increment as
      degrees. */
  function AngleDeltaAsWritten(degreesPerSecond: real, timeDelta: real): (d: real)
    ensures d * 180.0 == degreesPerSecond * timeDelta * Pi
  {
    DegreesToRadians(degreesPerSecond) * timeDelta
  }

  /** The increment, in degrees, that turns the object at the given speed. */
  function AngleDelta(degreesPerSecond: real, timeDelta: real): (d: real)
    ensures timeDelta == 1.0 ==> d == degreesPerSecond
    ensures timeDelta >= 0.0 && degreesPerSecond >= 0.0 ==> d >= 0.0
  {
    degreesPerSecond * timeDelta
  }

  /** As written, an object asked to turn at 90 degrees per second turns by
      pi/2 (about 1.57) degrees in a second. */
  lemma RotationSlowedAsWritten()
    ensures AngleDelta(90.0, 1.0) == 90.0
    ensures AngleDeltaAsWritten(90.0, 1.0) == Pi / 2.0
    ensures AngleDeltaAsWritten(90.0, 1.0) != AngleDelta(90.0, 1.0)
  {
    assert DegreesToRadians(90.0) == Pi / 2.0;
  }

  /** The written increment is always the intended one scaled by pi/180. */
  lemma AsWrittenIsScaledIntended(degreesPerSecond: real, timeDelta: real)
    ensures AngleDeltaAsWritten(degreesPerSecond, timeDelta) * 180.0 == AngleDelta(degreesPerSecond, timeDelta) * Pi
  {
  }

  class RotatingAnimator {
    const transform: TrsTransforms.TRSTransform
    const degreesPerSecond: real
    /** The speed, converted once when the animator is made. */
    const radiansPerFrame: real := DegreesToRadians(degreesPerSecond)

    constructor Attach(t: TrsTransforms.TRSTransform, speed: real)
      ensures transform == t && degreesPerSecond == speed && radiansPerFrame == DegreesToRadians(speed)
    {
      transform := t;
      degreesPerSecond := speed;
    }

    /** `init?(renderable:speed:axis:)`: no animator for an object without a
        transform; otherwise the transform's rotation axis is set, which
        marks its rotation dirty. */
    static method Create(renderable: Renderable, speed: real, axis: Vec3) returns (r: Option<RotatingAnimator>)
      modifies renderable.transform
      ensures r.None? <==> renderable.transform == null
      ensures r.Some? ==>
        && fresh(r.value) && r.value.transform == renderable.transform
        && r.value.degreesPerSecond == speed && r.value.radiansPerFrame == DegreesToRadians(speed)
        && renderable.transform.rotationAxis == axis && renderable.transform.rotationDirty
        && renderable.transform.rotationAngle == old(renderable.transform.rotationAngle)
        && renderable.transform.translation == old(renderable.transform.translation)
        && renderable.transform.scale == old(renderable.transform.scale)
    {
      if renderable.transform == null {
        return None;
      }
      var a := new RotatingAnimator.Attach(renderable.transform, speed);
      renderable.transform.SetRotationAxis(axis);
      r := Some(a);
    }

    /** `update(timeDelta:)` as written. */
    method UpdateAsWritten(timeDelta: real)
      modifies transform
      ensures transform.rotationAngle == old(transform.rotationAngle) + AngleDeltaAsWritten(degreesPerSecond, timeDelta)
      ensures transform.rotationDirty
      ensures transform.rotationAxis == old(transform.rotationAxis)
      ensures transform.translation == old(transform.translation) && transform.scale == old(transform.scale)
      ensures transform.translationDirty == old(transform.translationDirty)
      ensures transform.scaleDirty == old(transform.scaleDirty)
    {
      transform.SetRotationDelta(radiansPerFrame * timeDelta);
    }

    /** `update(timeDelta:)` turning by the speed in the unit the transform
        reads: the angle grows by the speed times the elapsed time. Only the
        rotation changes. */
    method Update(timeDelta: real)
      modifies transform
      ensures transform.rotationAngle == old(transform.rotationAngle) + AngleDelta(degreesPerSecond, timeDelta)
      ensures transform.rotationDirty
      ensures transform.rotationAxis == old(transform.rotationAxis)
      ensures transform.translation == old(transform.translation) && transform.scale == old(transform.scale)
      ensures transform.translationDirty == old(transform.translationDirty)
      ensures transform.scaleDirty == old(transform.scaleDirty)
    {
      transform.SetRotationDelta(degreesPerSecond * timeDelta);
    }
  }
}
