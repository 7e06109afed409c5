/** `Vector3.Distance` between two chunk positions on the plane y = 0,
    compared with an integer radius. For integer coordinates the comparison
    is exact without the square root: `sqrt(d2) < r` holds exactly when
    `r > 0 && d2 < r * r`, and `sqrt(d2) > r` exactly when
    `r < 0 || d2 > r * r`. */
module Distances {

  /** The squared distance of an offset (dx, dz). */
  function Dist2(dx: int, dz: int): int
  {
    dx * dx + dz * dz
  }

  /** The distance of squared distance `d2` is below `r`. */
  predicate Within(d2: int, r: int)
  {
    0 < r && d2 < r * r
  }

  /** The distance of squared distance `d2` is above `r`. */
  predicate Beyond(d2: int, r: int)
  {
    r < 0 || d2 > r * r
  }

  /** A coordinate within `r` of zero has a square of at most `r * r`. */
  lemma SquareBound(d: int, r: int)
    requires -r <= d <= r
    ensures 0 <= d * d <= r * r
  {
    if d >= 0 {
      assert d * d <= d * r <= r * r;
    } else {
      assert d * d <= (-d) * r <= r * r;
    }
  }

  /** Squares do not shrink away from zero. */
  lemma SquareMonotone(r: int, d: int)
    requires 0 <= r <= d
    ensures r * r <= d * d
  {
    assert r * d - r * r == r * (d - r);
    assert d * d - r * d == d * (d - r);
  }

  /** A distance below `r` keeps each coordinate strictly between -r and r. */
  lemma WithinAxes(dx: int, dz: int, r: int)
    requires Within(Dist2(dx, dz), r)
    ensures -r < dx < r && -r < dz < r
  {
    var ax, az := if dx < 0 then -dx else dx, if dz < 0 then -dz else dz;
    assert ax * ax == dx * dx && az * az == dz * dz;
    SquareMonotone(0, ax);
    SquareMonotone(0, az);
    if ax >= r {
      SquareMonotone(r, ax);
    }
    if az >= r {
      SquareMonotone(r, az);
    }
  }

  /** Every offset of the square of half-side `r` lies within distance
      r * sqrt(2), so never beyond `2 * r`. */
  lemma SquareNotBeyondDouble(dx: int, dz: int, r: int)
    requires -r <= dx <= r && -r <= dz <= r
    ensures !Beyond(Dist2(dx, dz), 2 * r)
  {
    SquareBound(dx, r);
    SquareBound(dz, r);
    assert (2 * r) * (2 * r) == 4 * (r * r);
  }

  /** A distance below `r` is not above it. */
  lemma WithinNotBeyond(d2: int, r: int)
    requires Within(d2, r)
    ensures !Beyond(d2, r)
  {
  }
}
