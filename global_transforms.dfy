/** Gsw/GlobalTransforms.swift: the per-frame view, projection and
    projection-view matrices with their two dirty flags. */
module GlobalMatrices {
  import opened Wrappers
  import opened Gpu
  import Numerics
  import Utilities

  /** `abs(w / h)` in single precision: a zero height gives infinity or NaN. */
  function AspectOf(size: Vec2): (a: Aspect)
    ensures size.y != 0.0 ==> a.Finite? && a.ratio >= 0.0 && a.ratio * Numerics.Abs(size.y) == Numerics.Abs(size.x)
    ensures size.y == 0.0 ==> a.NonFinite?
  {
    if size.y == 0.0 then NonFinite else Finite(Numerics.Abs(size.x / size.y))
  }

  /** The projection `update()` builds for the given parameters. */
  function ProjectionFor(foveaDegrees: real, targetSize: Vec2, nearZ: real, farZ: real): Mat {
    PerspectiveFovLH(Utilities.DegreesToRadians(foveaDegrees), AspectOf(targetSize), nearZ, farZ)
  }

  /** The `dirty` aggregate as the source computes it. */
  function DirtyAsWritten(viewDirty: bool, projectionDirty: bool): bool {
    viewDirty || !projectionDirty
  }

  /** What `dirty` is meant to report: some derived matrix is out of date. */
  function NeedsUpdate(viewDirty: bool, projectionDirty: bool): bool {
    viewDirty || projectionDirty
  }

  /** With only the projection dirty (a reshape), the aggregate as written
      reports clean although an update is needed; with only the view dirty it
      agrees, and with nothing dirty it reports dirty. */
  lemma DirtyAsWrittenDisagreement()
    ensures !DirtyAsWritten(false, true) && NeedsUpdate(false, true)
    ensures DirtyAsWritten(false, false) && !NeedsUpdate(false, false)
    ensures DirtyAsWritten(true, false) == NeedsUpdate(true, false)
  {
  }

  class GlobalTransforms {
    var viewDirty: bool
    var projectionDirty: bool
    var viewMatrix: Mat
    var projectionMatrix: Mat
    var projectionViewMatrix: Mat
    var targetSize: Option<Vec2>
    var foveaDegrees: real
    var nearZ: real
    var farZ: real

    /** Whenever a flag is clear, the matrix it guards equals what `update()`
        would compute from the current parameters. */
    ghost predicate Current()
      reads this
    {
      (!projectionDirty ==>
         targetSize.Some? && projectionMatrix == ProjectionFor(foveaDegrees, targetSize.value, nearZ, farZ))
      && (!projectionDirty && !viewDirty ==> projectionViewMatrix == Product(projectionMatrix, viewMatrix))
    }

    constructor ()
      ensures viewDirty && projectionDirty && targetSize == None
      ensures foveaDegrees == 60.0 && nearZ == 0.1 && farZ == 100.0
      ensures viewMatrix == Identity && projectionMatrix == Identity && projectionViewMatrix == Identity
      ensures Current()
    {
      viewDirty := true;
      projectionDirty := true;
      viewMatrix := Identity;
      projectionMatrix := Identity;
      projectionViewMatrix := Identity;
      targetSize := None;
      foveaDegrees := 60.0;
      nearZ := 0.1;
      farZ := 100.0;
    }

    predicate Dirty()
      reads this
    {
      DirtyAsWritten(viewDirty, projectionDirty)
    }

    predicate DirtyIntended()
      reads this
    {
      NeedsUpdate(viewDirty, projectionDirty)
    }

    method SetFoveaDegrees(degrees: real)
      modifies this
      ensures foveaDegrees == degrees && projectionDirty
      ensures viewDirty == old(viewDirty) && nearZ == old(nearZ) && farZ == old(farZ) && targetSize == old(targetSize)
      ensures viewMatrix == old(viewMatrix) && projectionMatrix == old(projectionMatrix)
      ensures projectionViewMatrix == old(projectionViewMatrix)
      ensures old(Current()) ==> Current()
    {
      foveaDegrees := degrees;
      projectionDirty := true;
    }

    method SetNearZ(z: real)
      modifies this
      ensures nearZ == z && projectionDirty
      ensures viewDirty == old(viewDirty) && foveaDegrees == old(foveaDegrees) && farZ == old(farZ) && targetSize == old(targetSize)
      ensures viewMatrix == old(viewMatrix) && projectionMatrix == old(projectionMatrix)
      ensures projectionViewMatrix == old(projectionViewMatrix)
      ensures old(Current()) ==> Current()
    {
      nearZ := z;
      projectionDirty := true;
    }

    method SetFarZ(z: real)
      modifies this
      ensures farZ == z && projectionDirty
      ensures viewDirty == old(viewDirty) && foveaDegrees == old(foveaDegrees) && nearZ == old(nearZ) && targetSize == old(targetSize)
      ensures viewMatrix == old(viewMatrix) && projectionMatrix == old(projectionMatrix)
      ensures projectionViewMatrix == old(projectionViewMatrix)
      ensures old(Current()) ==> Current()
    {
      farZ := z;
      projectionDirty := true;
    }

    method SetViewMatrix(m: Mat)
      modifies this
      ensures viewMatrix == m && viewDirty
      ensures projectionDirty == old(projectionDirty) && foveaDegrees == old(foveaDegrees) && nearZ == old(nearZ)
      ensures farZ == old(farZ) && targetSize == old(targetSize)
      ensures projectionMatrix == old(projectionMatrix) && projectionViewMatrix == old(projectionViewMatrix)
      ensures old(Current()) ==> Current()
    {
      viewMatrix := m;
      viewDirty := true;
    }

    method SetTargetSize(size: Option<Vec2>)
      modifies this
      ensures targetSize == size && projectionDirty
      ensures viewDirty == old(viewDirty) && foveaDegrees == old(foveaDegrees) && nearZ == old(nearZ) && farZ == old(farZ)
      ensures viewMatrix == old(viewMatrix) && projectionMatrix == old(projectionMatrix)
      ensures projectionViewMatrix == old(projectionViewMatrix)
      ensures old(Current()) ==> Current()
    {
      targetSize := size;
      projectionDirty := true;
    }

    /** Recompute what is dirty. Stops when the projection is dirty and no
        target size was ever given. */
    method Update() returns (status: Status)
      modifies this
      ensures status.Stopped? <==> old(projectionDirty) && old(targetSize).None?
      ensures status.Stopped? ==> unchanged(this)
      ensures status.Completed? ==>
        && projectionMatrix == (if old(projectionDirty)
                                then ProjectionFor(foveaDegrees, old(targetSize).value, nearZ, farZ)
                                else old(projectionMatrix))
        && projectionViewMatrix == (if old(viewDirty) || old(projectionDirty)
                                    then Product(projectionMatrix, viewMatrix)
                                    else old(projectionViewMatrix))
        && !viewDirty && !projectionDirty && !DirtyIntended()
        && viewMatrix == old(viewMatrix) && targetSize == old(targetSize)
        && foveaDegrees == old(foveaDegrees) && nearZ == old(nearZ) && farZ == old(farZ)
      ensures status.Completed? && old(Current()) ==> Current()
    {
      if projectionDirty {
        if targetSize.None? {
          return Stopped("GlobalTransforms: targetSize used before specified");
        }
        projectionMatrix := ProjectionFor(foveaDegrees, targetSize.value, nearZ, farZ);
      }
      if viewDirty || projectionDirty {
        projectionViewMatrix := Product(projectionMatrix, viewMatrix);
      }
      projectionDirty := false;
      viewDirty := false;
      status := Completed;
    }

    /** When nothing needs an update, the projection-view matrix is the
        product of the projection for the current parameters and the view. */
    lemma CleanMeansCurrent()
      requires Current() && !DirtyIntended()
      ensures targetSize.Some?
      ensures projectionViewMatrix == Product(ProjectionFor(foveaDegrees, targetSize.value, nearZ, farZ), viewMatrix)
    {
    }
  }
}
