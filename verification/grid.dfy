/** The "cross" grid: plane `i` goes to a cell of a three-column grid laid out
    row by row, recentred so that plane 4 sits at the origin. Neighbouring
    cells are 6 units apart in both directions. */
module Grid {
  import opened Geometry

  /** Result of a partial decoding: the decoded value, or nothing. */
  datatype Option<+T> = None | Some(value: T)

  /** Row of plane `i`: `floor(i / 3) - 1`. JavaScript's `Math.floor(i / 3)`
      and Dafny's `/` agree for a non-negative index. */
  function Row(i: nat): (row: int)
  {
    i / 3 - 1
  }

  /** Column of plane `i`: `(i mod 3) - 1`, one of -1, 0, 1. */
  function Col(i: nat): (col: int)
  {
    i % 3 - 1
  }

  /** Position the cross layout gives plane `i`. */
  function CrossPosition(i: nat): (p: Vec3)
    ensures p.z == 0.0
    ensures p.x == -6.0 || p.x == 0.0 || p.x == 6.0
    ensures p.y >= -6.0
    ensures p.x == -6.0 <==> i % 3 == 0
    ensures p.y < 0.0 <==> i < 3
  {
    Vec3((Col(i) * 6) as real, (Row(i) * 6) as real, 0.0)
  }

  /** The partial inverse of `CrossPosition`: the index of the plane the cross
      layout puts at `p`, if any. */
  function CellOf(p: Vec3): (r: Option<nat>)
  {
    var cx := p.x.Floor;
    var cy := p.y.Floor;
    if p.z != 0.0 || cx as real != p.x || cy as real != p.y then None
    else if cx % 6 != 0 || cy % 6 != 0 then None
    else
      var c := cx / 6 + 1;
      var r := cy / 6 + 1;
      if 0 <= c < 3 && 0 <= r then Some(r * 3 + c) else None
  }

  /** Decoding the position of plane `i` gives back `i`. */
  lemma CellOfCross(i: nat)
    ensures CellOf(CrossPosition(i)) == Some(i)
  {
    var p := CrossPosition(i);
    assert p.x.Floor == Col(i) * 6;
    assert p.y.Floor == Row(i) * 6;
  }

  /** Row-major numbering of a three-column grid can be read back. */
  lemma RowMajorDecode(r: int, c: int)
    requires 0 <= r && 0 <= c < 3
    ensures (r * 3 + c) / 3 == r && (r * 3 + c) % 3 == c
  {
  }

  /** Every point that decodes to an index is that index's cross position:
      `CellOf` recognises exactly the cells of the cross layout. */
  lemma CrossOfCell(p: Vec3, i: nat)
    requires CellOf(p) == Some(i)
    ensures CrossPosition(i) == p
  {
    var cx := p.x.Floor;
    var cy := p.y.Floor;
    var kx := cx / 6;
    var ky := cy / 6;
    assert cx == 6 * kx && cy == 6 * ky;
    RowMajorDecode(ky + 1, kx + 1);
    assert i == (ky + 1) * 3 + (kx + 1);
    assert Col(i) == kx && Row(i) == ky;
  }

  /** Distinct planes never share a cross position. */
  lemma CrossInjective(i: nat, j: nat)
    requires i != j
    ensures CrossPosition(i) != CrossPosition(j)
  {
    CellOfCross(i);
    CellOfCross(j);
  }

  /** An independent description of the cross layout: a raster scan that
      starts at the bottom-left cell (-6, -6, 0), steps right by 6,
      and after the third column returns to the left edge one row higher. */
  function RasterPosition(i: nat): (p: Vec3)
  {
    if i == 0 then Vec3(-6.0, -6.0, 0.0)
    else
      var prev := RasterPosition(i - 1);
      if prev.x == 6.0 then Vec3(-6.0, prev.y + 6.0, 0.0) else Vec3(prev.x + 6.0, prev.y, 0.0)
  }

  /** The closed-form cross layout is the raster scan. */
  lemma {:induction false} RasterIsCross(i: nat)
    ensures RasterPosition(i) == CrossPosition(i)
  {
    if i > 0 {
      RasterIsCross(i - 1);
      if (i - 1) % 3 == 2 {
        assert i % 3 == 0 && i / 3 == (i - 1) / 3 + 1;
      } else {
        assert i % 3 == (i - 1) % 3 + 1 && i / 3 == (i - 1) / 3;
      }
    }
  }

  /** The first two planes land at (-6, -6, 0) and (0, -6, 0). */
  lemma FirstCells()
    ensures CrossPosition(0) == Vec3(-6.0, -6.0, 0.0)
    ensures CrossPosition(1) == Vec3(0.0, -6.0, 0.0)
  {
  }

  /** Nine planes fill the rows -1, 0 and 1; a tenth starts a fourth row at
      y = 12, outside the 3 x 3 block. */
  lemma TenthPlaneLeavesBlock()
    ensures forall i: nat :: i < 9 ==> -6.0 <= CrossPosition(i).y <= 6.0
    ensures CrossPosition(9) == Vec3(-6.0, 12.0, 0.0)
  {
  }
}
