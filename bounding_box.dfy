/** Gsw/BoundingBox.swift: an axis-aligned box given by its centre and its
    dimensions, with the bounds on each axis derived from them. */
module BoundingBoxes {
  datatype BoundingBox = BoundingBox(x: real, y: real, z: real, width: real, height: real, depth: real)

  /** The low and high bound of an axis centred on `centre` with extent `size`. */
  function Low(centre: real, size: real): real { centre - size / 2.0 }
  function High(centre: real, size: real): real { centre + size / 2.0 }

  function MinX(b: BoundingBox): real { Low(b.x, b.width) }
  function MaxX(b: BoundingBox): real { High(b.x, b.width) }
  function MinY(b: BoundingBox): real { Low(b.y, b.height) }
  function MaxY(b: BoundingBox): real { High(b.y, b.height) }
  function MinZ(b: BoundingBox): real { Low(b.z, b.depth) }
  function MaxZ(b: BoundingBox): real { High(b.z, b.depth) }

  /** On each axis the bounds are the dimension apart. */
  lemma ExtentIsDimension(b: BoundingBox)
    ensures MaxX(b) - MinX(b) == b.width
    ensures MaxY(b) - MinY(b) == b.height
    ensures MaxZ(b) - MinZ(b) == b.depth
  {
  }

  /** The bounds are in order exactly when the dimension is not negative. */
  lemma BoundsOrderedIffDimensionNonNegative(b: BoundingBox)
    ensures MinX(b) <= MaxX(b) <==> b.width >= 0.0
    ensures MinY(b) <= MaxY(b) <==> b.height >= 0.0
    ensures MinZ(b) <= MaxZ(b) <==> b.depth >= 0.0
  {
  }

  /** The centre is the midpoint of the bounds on every axis. */
  lemma CentreIsMidpoint(b: BoundingBox)
    ensures (MinX(b) + MaxX(b)) / 2.0 == b.x
    ensures (MinY(b) + MaxY(b)) / 2.0 == b.y
    ensures (MinZ(b) + MaxZ(b)) / 2.0 == b.z
  {
  }
}
