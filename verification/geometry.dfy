/** Entities of the gallery: three-component vectors, the per-image
    configuration record and the plane (mesh) built from it. */
module Geometry {

  /** A position or an Euler rotation. The source stores JavaScript doubles;
      the model uses exact reals. */
  datatype Vec3 = Vec3(x: real, y: real, z: real)

  /** Rotation of a freshly created mesh (the scene-graph library's default). */
  const DefaultRotation := Vec3(0.0, 0.0, 0.0)

  /** One entry of the static image list: texture path, title and description. */
  datatype Image = Image(path: string, title: string, desc: string)

  /** The metadata a plane carries for the info panel (`userData`). */
  datatype Meta = Meta(title: string, desc: string)

  /** A textured plane of the gallery: its live transform and its metadata.
      The texture, material and geometry are not modelled. */
  datatype Plane = Plane(position: Vec3, rotation: Vec3, meta: Meta)

  /** `b` is `a` with, at most, different positions: same number of planes,
      and each plane keeps its rotation and its metadata. */
  ghost predicate SameButPositions(a: seq<Plane>, b: seq<Plane>)
  {
    && |a| == |b|
    && forall i :: 0 <= i < |a| ==> a[i].rotation == b[i].rotation && a[i].meta == b[i].meta
  }

  /** Two plane lists that agree everywhere except in positions, and also
      agree on positions, are equal. */
  lemma SameButPositionsEqual(a: seq<Plane>, b: seq<Plane>)
    requires SameButPositions(a, b)
    requires forall i :: 0 <= i < |a| ==> a[i].position == b[i].position
    ensures a == b
  {
    assert forall i :: 0 <= i < |a| ==> a[i] == b[i];
  }
}
