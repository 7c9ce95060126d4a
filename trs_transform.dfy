/** TRSTransform.swift: a transform driven by a rotation, a translation and a
    uniform scale, each with its own dirty flag. The Swift subclass becomes a
    model that holds the `Transform` whose model matrix it maintains. */
module TrsTransforms {
  import opened Wrappers
  import opened Gpu
  import Utilities
  import opened Transforms

  /** The rotation `update()` builds: the angle is taken in degrees. */
  function RotationFor(angleDegrees: real, axis: Vec3): (m: Mat)
    ensures m.Rotation? && m.axis == axis && m.radians * 180.0 == angleDegrees * Utilities.Pi
  {
    Rotation(Utilities.DegreesToRadians(angleDegrees), axis)
  }

  /** The scale `update()` builds: the same factor on all three axes. */
  function ScaleFor(s: real): Mat
  {
    Scaling(s, s, s)
  }

  /** Scale first, then rotate, then translate: `(T * R) * S`. */
  function ComposeModel(trans: Mat, rot: Mat, scale: Mat): Mat
  {
    Product(Product(trans, rot), scale)
  }

  const InitialAxis: Vec3 := Vec3(0.0, 1.0, 0.0)
  const ZeroVec: Vec3 := Vec3(0.0, 0.0, 0.0)

  class TRSTransform {
    const base: Transform
    var rotationAngle: real
    var rotationAxis: Vec3
    var translation: Vec3
    var scale: real
    var rotMatrix: Mat
    var transMatrix: Mat
    var scaleMatrix: Mat
    var rotationDirty: bool
    var translationDirty: bool
    var scaleDirty: bool

    predicate Dirty()
      reads this`rotationDirty, this`translationDirty, this`scaleDirty
    {
      rotationDirty || translationDirty || scaleDirty
    }

    /** A clean component's matrix is its builder applied to the current
        parameter, except that the identity stands in while a parameter still
        has its initial, identity-producing value. */
    ghost predicate ComponentsCurrent()
      reads this
    {
      && (!rotationDirty ==>
            (rotMatrix == RotationFor(rotationAngle, rotationAxis)
             || (rotMatrix == Identity && rotationAngle == 0.0 && rotationAxis == InitialAxis)))
      && (!translationDirty ==>
            (transMatrix == Translation(translation) || (transMatrix == Identity && translation == ZeroVec)))
      && (!scaleDirty ==> (scaleMatrix == ScaleFor(scale) || (scaleMatrix == Identity && scale == 1.0)))
    }

    constructor Attach(t: Transform)
      ensures base == t
      ensures rotationAngle == 0.0 && rotationAxis == InitialAxis && translation == ZeroVec && scale == 1.0
      ensures rotMatrix == Identity && transMatrix == Identity && scaleMatrix == Identity
      ensures !Dirty() && ComponentsCurrent()
    {
      base := t;
      rotationAngle := 0.0;
      rotationAxis := InitialAxis;
      translation := ZeroVec;
      scale := 1.0;
      rotMatrix := Identity;
      transMatrix := Identity;
      scaleMatrix := Identity;
      rotationDirty := false;
      translationDirty := false;
      scaleDirty := false;
    }

    /** `init`: an identity transform holding a fresh slot of the store; a full store is fatal. */
    static method Create(perObjectTransforms: PerObjectTransforms) returns (r: Result<TRSTransform>)
      modifies perObjectTransforms`inUseFlags
      ensures r.Fatal? <==> FirstFree(old(perObjectTransforms.inUseFlags)).None?
      ensures r.Fatal? ==> perObjectTransforms.inUseFlags == old(perObjectTransforms.inUseFlags)
      ensures r.Ok? ==>
        && fresh(r.value) && fresh(r.value.base)
        && var i := FirstFree(old(perObjectTransforms.inUseFlags)).value;
        && r.value.base.index == i && r.value.base.modelMatrix == Identity
        && r.value.base.store == perObjectTransforms && !r.value.base.released
        && perObjectTransforms.inUseFlags == old(perObjectTransforms.inUseFlags)[i := true]
        && r.value.rotationAngle == 0.0 && r.value.rotationAxis == InitialAxis
        && r.value.translation == ZeroVec && r.value.scale == 1.0
        && !r.value.Dirty() && r.value.ComponentsCurrent()
    {
      var t := Transform.Create(Identity, perObjectTransforms);
      if t.Fatal? {
        return Fatal(t.message);
      }
      var trs := new TRSTransform.Attach(t.value);
      r := Ok(trs);
    }

    method SetRotation(angle: real)
      modifies this
      ensures rotationAngle == angle && rotationDirty
      ensures rotationAxis == old(rotationAxis) && translation == old(translation) && scale == old(scale)
      ensures translationDirty == old(translationDirty) && scaleDirty == old(scaleDirty)
      ensures rotMatrix == old(rotMatrix) && transMatrix == old(transMatrix) && scaleMatrix == old(scaleMatrix)
      ensures old(ComponentsCurrent()) ==> ComponentsCurrent()
    {
      rotationAngle := angle;
      rotationDirty := true;
    }

    method SetRotationDelta(deltaAngle: real)
      modifies this
      ensures rotationAngle == old(rotationAngle) + deltaAngle && rotationDirty
      ensures rotationAxis == old(rotationAxis) && translation == old(translation) && scale == old(scale)
      ensures translationDirty == old(translationDirty) && scaleDirty == old(scaleDirty)
      ensures rotMatrix == old(rotMatrix) && transMatrix == old(transMatrix) && scaleMatrix == old(scaleMatrix)
      ensures old(ComponentsCurrent()) ==> ComponentsCurrent()
    {
      rotationAngle := rotationAngle + deltaAngle;
      rotationDirty := true;
    }

    method SetRotationAxis(axis: Vec3)
      modifies this
      ensures rotationAxis == axis && rotationDirty
      ensures rotationAngle == old(rotationAngle) && translation == old(translation) && scale == old(scale)
      ensures translationDirty == old(translationDirty) && scaleDirty == old(scaleDirty)
      ensures rotMatrix == old(rotMatrix) && transMatrix == old(transMatrix) && scaleMatrix == old(scaleMatrix)
      ensures old(ComponentsCurrent()) ==> ComponentsCurrent()
    {
      rotationAxis := axis;
      rotationDirty := true;
    }

    method SetTranslation(t: Vec3)
      modifies this
      ensures translation == t && translationDirty
      ensures rotationAngle == old(rotationAngle) && rotationAxis == old(rotationAxis) && scale == old(scale)
      ensures rotationDirty == old(rotationDirty) && scaleDirty == old(scaleDirty)
      ensures rotMatrix == old(rotMatrix) && transMatrix == old(transMatrix) && scaleMatrix == old(scaleMatrix)
      ensures old(ComponentsCurrent()) ==> ComponentsCurrent()
    {
      translation := t;
      translationDirty := true;
    }

    method SetTranslationDelta(delta: Vec3)
      modifies this
      ensures translation == AddVec3(old(translation), delta) && translationDirty
      ensures rotationAngle == old(rotationAngle) && rotationAxis == old(rotationAxis) && scale == old(scale)
      ensures rotationDirty == old(rotationDirty) && scaleDirty == old(scaleDirty)
      ensures rotMatrix == old(rotMatrix) && transMatrix == old(transMatrix) && scaleMatrix == old(scaleMatrix)
      ensures old(ComponentsCurrent()) ==> ComponentsCurrent()
    {
      translation := AddVec3(translation, delta);
      translationDirty := true;
    }

    method SetScale(s: real)
      modifies this
      ensures scale == s && scaleDirty
      ensures rotationAngle == old(rotationAngle) && rotationAxis == old(rotationAxis) && translation == old(translation)
      ensures rotationDirty == old(rotationDirty) && translationDirty == old(translationDirty)
      ensures rotMatrix == old(rotMatrix) && transMatrix == old(transMatrix) && scaleMatrix == old(scaleMatrix)
      ensures old(ComponentsCurrent()) ==> ComponentsCurrent()
    {
      scale := s;
      scaleDirty := true;
    }

    method SetScaleDelta(delta: real)
      modifies this
      ensures scale == old(scale) + delta && scaleDirty
      ensures rotationAngle == old(rotationAngle) && rotationAxis == old(rotationAxis) && translation == old(translation)
      ensures rotationDirty == old(rotationDirty) && translationDirty == old(translationDirty)
      ensures rotMatrix == old(rotMatrix) && transMatrix == old(transMatrix) && scaleMatrix == old(scaleMatrix)
      ensures old(ComponentsCurrent()) ==> ComponentsCurrent()
    {
      scale := scale + delta;
      scaleDirty := true;
    }

    /** Rebuilds exactly the dirty components, clears every flag and sets the
        model matrix to their composition. With nothing dirty the model
        matrix is the composition it already held, so a second call changes
        nothing. */
    method Update()
      modifies this, base`modelMatrix
      ensures rotMatrix == (if old(rotationDirty) then RotationFor(rotationAngle, rotationAxis) else old(rotMatrix))
      ensures transMatrix == (if old(translationDirty) then Translation(translation) else old(transMatrix))
      ensures scaleMatrix == (if old(scaleDirty) then ScaleFor(scale) else old(scaleMatrix))
      ensures base.modelMatrix == ComposeModel(transMatrix, rotMatrix, scaleMatrix)
      ensures !Dirty()
      ensures rotationAngle == old(rotationAngle) && rotationAxis == old(rotationAxis)
      ensures translation == old(translation) && scale == old(scale)
      ensures old(ComponentsCurrent()) ==> ComponentsCurrent()
      ensures !old(Dirty()) && old(base.modelMatrix) == old(ComposeModel(transMatrix, rotMatrix, scaleMatrix))
        ==> base.modelMatrix == old(base.modelMatrix)
    {
      if rotationDirty {
        rotMatrix := RotationFor(rotationAngle, rotationAxis);
        rotationDirty := false;
      }
      if translationDirty {
        transMatrix := Translation(translation);
        translationDirty := false;
      }
      if scaleDirty {
        scaleMatrix := ScaleFor(scale);
        scaleDirty := false;
      }
      base.modelMatrix := ComposeModel(transMatrix, rotMatrix, scaleMatrix);
    }
  }
}
