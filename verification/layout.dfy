/** The two layout buttons: `arrangeInCross` moves every plane to the grid
    cell of its index, `arrangeInCloud` scatters the planes. Both change
    positions only. */
module Layout {
  import opened Geometry
  import opened Grid

  /** `arrangeInCross`: plane `i` of the list moves to `CrossPosition(i)`. */
  function ArrangeInCross(ps: seq<Plane>): (r: seq<Plane>)
    ensures SameButPositions(ps, r)
    ensures forall i :: 0 <= i < |r| ==> r[i].position.z == 0.0
    ensures forall i :: 0 <= i < |r| ==> CellOf(r[i].position) == Some(i)
  {
    var r := seq(|ps|, i requires 0 <= i < |ps| => ps[i].(position := CrossPosition(i)));
    assert forall i :: 0 <= i < |r| ==> CellOf(r[i].position) == Some(i) by {
      forall i | 0 <= i < |r|
        ensures CellOf(r[i].position) == Some(i)
      {
        CellOfCross(i);
      }
    }
    r
  }

  /** Plane `i` after the cross layout is exactly at `CrossPosition(i)`, so
      its x is ((i mod 3) - 1) * 6 and its y is (floor(i / 3) - 1) * 6. */
  lemma CrossPlacesByIndex(ps: seq<Plane>, i: nat)
    requires i < |ps|
    ensures ArrangeInCross(ps)[i].position == CrossPosition(i)
    ensures ArrangeInCross(ps)[i].position.x == ((i % 3 - 1) * 6) as real
    ensures ArrangeInCross(ps)[i].position.y == ((i / 3 - 1) * 6) as real
  {
    var p := ArrangeInCross(ps)[i].position;
    CrossOfCell(p, i);
  }

  /** No two planes share a position after the cross layout. */
  lemma CrossPositionsDistinct(ps: seq<Plane>, i: nat, j: nat)
    requires i < |ps| && j < |ps| && i != j
    ensures ArrangeInCross(ps)[i].position != ArrangeInCross(ps)[j].position
  {
    var r := ArrangeInCross(ps);
    assert CellOf(r[i].position) == Some(i);
    assert CellOf(r[j].position) == Some(j);
  }

  /** The cross layout ignores where the planes were: two lists that differ
      only in positions are laid out identically. */
  lemma CrossForgetsPositions(ps: seq<Plane>, qs: seq<Plane>)
    requires SameButPositions(ps, qs)
    ensures ArrangeInCross(ps) == ArrangeInCross(qs)
  {
    var a := ArrangeInCross(ps);
    var b := ArrangeInCross(qs);
    forall i | 0 <= i < |a|
      ensures a[i].position == b[i].position
    {
      CrossOfCell(a[i].position, i);
      CrossOfCell(b[i].position, i);
    }
    SameButPositionsEqual(a, b);
  }

  /** Pressing the cross button twice is the same as pressing it once. */
  lemma CrossIdempotent(ps: seq<Plane>)
    ensures ArrangeInCross(ArrangeInCross(ps)) == ArrangeInCross(ps)
  {
    CrossForgetsPositions(ArrangeInCross(ps), ps);
  }

  /** `arrangeInCloud`, and the random start of construction: each plane
      moves to an arbitrary point `place(i)`, which stands for the three
      random draws of the source. */
  function ArrangeInCloud(ps: seq<Plane>, place: nat -> Vec3): (r: seq<Plane>)
    ensures SameButPositions(ps, r)
    ensures forall i :: 0 <= i < |r| ==> r[i].position == place(i)
  {
    seq(|ps|, i requires 0 <= i < |ps| => ps[i].(position := place(i)))
  }

  /** Whatever the cloud did, a following cross layout gives the same result
      as the cross layout of the planes before the cloud. */
  lemma CrossAfterCloud(ps: seq<Plane>, place: nat -> Vec3)
    ensures ArrangeInCross(ArrangeInCloud(ps, place)) == ArrangeInCross(ps)
  {
    CrossForgetsPositions(ArrangeInCloud(ps, place), ps);
  }
}
