/** The arithmetic behind RAMReel's scroll snapping and centering.

    Offsets, insets and the item height are CGFloat values in the source; here
    they are exact reals. An offset `y` lies on the snap grid of a viewport with
    top inset `inset` and item height `h` when `y + inset` is a whole number of
    items, that is when `y == k * h - inset` for some integer item index `k`.
 */
module ScrollSnap {

  function Abs(r: real): real {
    if r < 0.0 then -r else r
  }

  /** Reference definition of rounding to nearest with halfway cases away from
      zero: `k` is no more than half a unit from `x`, and when it is exactly half
      a unit away, `k` is the neighbour farther from zero. */
  predicate NearestAwayFromZero(x: real, k: int) {
    var d := x - k as real;
    (-0.5 < d < 0.5) || (d == 0.5 && x < 0.0) || (d == -0.5 && x > 0.0)
  }

  /** Swift's `round` on a CGFloat: nearest integer, halfway cases away from zero. */
  function RoundHalfAway(x: real): (k: int)
    ensures NearestAwayFromZero(x, k)
  {
    if x >= 0.0 then (x + 0.5).Floor else -((0.5 - x).Floor)
  }

  /** The reference definition picks exactly one integer, so it determines RoundHalfAway. */
  lemma RoundHalfAwayUnique(x: real, k: int)
    requires NearestAwayFromZero(x, k)
    ensures k == RoundHalfAway(x)
  {
  }

  /** Rounding is symmetric about zero, which is what "away from zero" means for ties. */
  lemma RoundHalfAwayOdd(x: real)
    ensures RoundHalfAway(-x) == -RoundHalfAway(x)
  {
  }

  /** A whole number rounds to itself. */
  lemma RoundHalfAwayIntegral(k: int)
    ensures RoundHalfAway(k as real) == k
  {
  }

  /** No integer is nearer to `x` than its rounding. */
  lemma RoundHalfAwayNearest(x: real, j: int)
    ensures Abs(x - RoundHalfAway(x) as real) <= Abs(x - j as real)
  {
    var k := RoundHalfAway(x);
    if j < k {
      assert j as real <= k as real - 1.0;
    } else if j > k {
      assert j as real >= k as real + 1.0;
    }
  }

  /** The offset of item `k`'s grid position: `k * h - inset`. Its fractional
      item position `(offset + inset) / h` is exactly `k`. */
  function GridOffset(k: int, inset: real, h: real): (y: real)
    ensures h != 0.0 ==> (y + inset) / h == k as real
  {
    k as real * h - inset
  }

  /** `y` is the offset of some item index. */
  ghost predicate OnGrid(y: real, inset: real, h: real) {
    exists k: int :: y == GridOffset(k, inset, h)
  }

  /** The item index the snap rule selects for offset `y`:
      `round((y + inset) / h)`. */
  function SnapIndex(y: real, inset: real, h: real): (k: int)
    requires h > 0.0
    ensures NearestAwayFromZero((y + inset) / h, k)
  {
    RoundHalfAway((y + inset) / h)
  }

  /** The offset the snap rule moves the viewport to: the grid position of the
      item `SnapIndex` selects. */
  function SnapTarget(y: real, inset: real, h: real): (t: real)
    requires h > 0.0
    ensures (t + inset) / h == SnapIndex(y, inset, h) as real
  {
    GridOffset(SnapIndex(y, inset, h), inset, h)
  }

  /** Grid invariant: a snapped offset is always an item's grid position. */
  lemma SnapOnGrid(y: real, inset: real, h: real)
    requires h > 0.0
    ensures OnGrid(SnapTarget(y, inset, h), inset, h)
  {
  }

  /** An offset that is already on the grid is left where it is. */
  lemma SnapFixesGridPoints(y: real, inset: real, h: real)
    requires h > 0.0
    requires OnGrid(y, inset, h)
    ensures SnapTarget(y, inset, h) == y
  {
  }

  /** Idempotence: snapping a snapped offset changes nothing. */
  lemma SnapIdempotent(y: real, inset: real, h: real)
    requires h > 0.0
    ensures SnapTarget(SnapTarget(y, inset, h), inset, h) == SnapTarget(y, inset, h)
  {
    SnapOnGrid(y, inset, h);
    SnapFixesGridPoints(SnapTarget(y, inset, h), inset, h);
  }

  /** With `y + inset == x * h`, the distance from `y` to item `k`'s grid
      position is `h * |x - k|`. */
  lemma GridDistance(y: real, inset: real, h: real, x: real, k: int)
    requires h > 0.0 && y + inset == x * h
    ensures Abs(GridOffset(k, inset, h) - y) == h * Abs(x - k as real)
  {
  }

  /** `(y + inset) / h` is the fractional item position of offset `y`. */
  lemma ItemPosition(y: real, inset: real, h: real)
    requires h > 0.0
    ensures y + inset == ((y + inset) / h) * h
  {
  }

  /** The snap moves the viewport by at most half an item. */
  lemma SnapWithinHalfItem(y: real, inset: real, h: real)
    requires h > 0.0
    ensures Abs(SnapTarget(y, inset, h) - y) <= h / 2.0
  {
    var x := (y + inset) / h;
    var s := SnapIndex(y, inset, h);
    ItemPosition(y, inset, h);
    GridDistance(y, inset, h, x, s);
    ScaleMonotonic(Abs(x - s as real), 0.5, h);
  }

  lemma ScaleMonotonic(a: real, b: real, h: real)
    requires a <= b && h > 0.0
    ensures h * a <= h * b
  {
  }

  /** Nearest item: no grid position is closer to `y` than the snapped one. */
  lemma SnapIsNearest(y: real, inset: real, h: real, k: int)
    requires h > 0.0
    ensures Abs(SnapTarget(y, inset, h) - y) <= Abs(GridOffset(k, inset, h) - y)
  {
    var x := (y + inset) / h;
    var s := SnapIndex(y, inset, h);
    ItemPosition(y, inset, h);
    GridDistance(y, inset, h, x, s);
    GridDistance(y, inset, h, x, k);
    RoundHalfAwayNearest(x, k);
    assert Abs(x - s as real) <= Abs(x - k as real);
    ScaleMonotonic(Abs(x - s as real), Abs(x - k as real), h);
    assert Abs(GridOffset(s, inset, h) - y) <= Abs(GridOffset(k, inset, h) - y);
  }

  /** Ties: an offset exactly halfway between items `j` and `j + 1` goes to the
      item farther from zero, the higher index when `y + inset` is not negative. */
  lemma SnapTieAwayFromZero(y: real, inset: real, h: real, j: int)
    requires h > 0.0
    requires y + inset == (j as real + 0.5) * h
    ensures SnapIndex(y, inset, h) == if j >= 0 then j + 1 else j
  {
    var x := (y + inset) / h;
    assert x == ((j as real + 0.5) * h) / h;
    var k := if j >= 0 then j + 1 else j;
    assert NearestAwayFromZero(x, k);
    RoundHalfAwayUnique(x, k);
  }

  /** The row the control centres on: `count / 2`, with as many rows before it
      as after it, or one more before it when the count is even. */
  function MiddleIndex(count: nat): (m: nat)
    requires count > 0
    ensures m < count
    ensures m - (count - 1 - m) == 0 || m - (count - 1 - m) == 1
  {
    count / 2
  }

  /** The offset that centres the middle row: `(count / 2) * h - inset`. */
  function MiddleOffset(count: nat, inset: real, h: real): (y: real)
    requires count > 0
    ensures h != 0.0 ==> (y + inset) / h == (count / 2) as real
  {
    GridOffset(MiddleIndex(count), inset, h)
  }

  /** The corrective snap after centering leaves the viewport on the middle row. */
  lemma SnapKeepsMiddle(count: nat, inset: real, h: real)
    requires count > 0 && h > 0.0
    ensures SnapTarget(MiddleOffset(count, inset, h), inset, h) == MiddleOffset(count, inset, h)
    ensures SnapIndex(MiddleOffset(count, inset, h), inset, h) == count / 2
  {
  }

  /** Seven items of height 50 under an inset of 10 centre on row 3, at offset 140. */
  lemma MiddleOffsetOfSeven()
    ensures MiddleIndex(7) == 3
    ensures MiddleOffset(7, 10.0, 50.0) == 140.0
    ensures SnapTarget(140.0, 10.0, 50.0) == 140.0
  {
  }
}
