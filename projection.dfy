/**
 * The projection of the perspective grid: from a tile and the viewport centre
 * to the tile's depth, tilt, scale, opacity and stacking order.
 *
 * The two square roots of the source are parameters here: `distance` is the
 * Euclidean distance from the viewport centre to the tile centre, and
 * `maxDistance` the one from the viewport centre to a corner of the visible
 * grid, each pinned down by its square.
 */
module Projection {
  import opened GridGeometry
  import opened LatticeBuilder

  /** The structured form of a tile's CSS transform, opacity and z-index. */
  datatype ItemTransform = ItemTransform(
    translateX: real,
    translateY: real,
    translateZ: real,
    rotationX: real,
    rotationY: real,
    scale: real,
    opacity: real,
    zIndex: int)

  /** (6 * 200 / 2)^2 + (6 * 200 / 2)^2: the squared distance from the centre to a corner of the visible grid. */
  const MaxDistanceSquared: real := 720000.0

  /** `d` is the Euclidean length of the vector (dx, dy). */
  predicate IsDistance(d: real, dx: real, dy: real)
  {
    d >= 0.0 && d * d == dx * dx + dy * dy
  }

  /** `m` is the distance from the viewport centre to a corner of the visible grid. */
  predicate IsMaxDistance(m: real)
  {
    m > 0.0 && m * m == MaxDistanceSquared
  }

  /** The point the projection treats as undistorted: the middle of the visible grid, moved by the scroll offset. */
  function ViewportCenter(scroll: Point): (c: Point)
    ensures c.x - scroll.x == c.y - scroll.y == 600.0
  {
    Point((GridSize * CellSize) as real / 2.0 + scroll.x, (GridSize * CellSize) as real / 2.0 + scroll.y)
  }

  /** The centre of a tile in lattice pixels. */
  function TileCenter(item: GridItem): Point
  {
    Point(item.x as real * CellSize as real + CellSize as real / 2.0,
          item.y as real * CellSize as real + CellSize as real / 2.0)
  }

  /** JavaScript's `Math.round`: the nearest integer, halves rounded up. */
  function Round(v: real): (r: int)
    ensures v - 0.5 < r as real <= v + 0.5
  {
    (v + 0.5).Floor
  }

  /** JavaScript's `Math.min` of two reals. */
  function Min(a: real, b: real): real
  {
    if a <= b then a else b
  }

  /** JavaScript's `Math.max` of two reals. */
  function Max(a: real, b: real): real
  {
    if a >= b then a else b
  }

  /** Distance divided by the corner distance, capped at 1. */
  function NormalizedDistance(d: real, maxD: real): (nd: real)
    requires d >= 0.0 && maxD > 0.0
    ensures 0.0 <= nd <= 1.0
    ensures d <= maxD ==> nd * maxD == d
    ensures d >= maxD ==> nd == 1.0
  {
    RatioAgainstOne(d, maxD);
    Min(d / maxD, 1.0)
  }

  /** How a non-negative ratio compares with 1. */
  lemma RatioAgainstOne(d: real, m: real)
    requires d >= 0.0 && m > 0.0
    ensures d / m >= 0.0 && (d / m) * m == d
    ensures d <= m ==> d / m <= 1.0
    ensures d >= m ==> d / m >= 1.0
  {
    assert m / m == 1.0;
    if d <= m {
      DivideMonotone(d, m, m);
    } else {
      DivideMonotone(m, d, m);
    }
    DivideMonotone(0.0, d, m);
  }

  /**
   * The transform of one tile. Scale falls from 1 to 0.3 and depth from 0
   * to -80 as the tile moves from the centre to the corner of the visible
   * grid; opacity stays within [0.6, 1] and the stacking order within [0, 100].
   */
  function GetItemTransform(item: GridItem, center: Point, distance: real, maxDistance: real): (t: ItemTransform)
    requires IsDistance(distance, TileCenter(item).x - center.x, TileCenter(item).y - center.y)
    requires IsMaxDistance(maxDistance)
    ensures t.translateX == item.x as real * 200.0 && t.translateY == item.y as real * 200.0
    ensures 0.3 <= t.scale <= 1.0
    ensures -80.0 <= t.translateZ <= 0.0
    ensures 0.6 <= t.opacity <= 1.0
    ensures 0 <= t.zIndex <= 100
  {
    var deltaX := TileCenter(item).x - center.x;
    var deltaY := TileCenter(item).y - center.y;
    var normalizedDistance := NormalizedDistance(distance, maxDistance);
    var scale := 1.0 - normalizedDistance * (1.0 - ScaleFactor);
    var rotationX := (deltaY / maxDistance) * RotationFactor * PerspectiveStrength;
    var rotationY := -(deltaX / maxDistance) * RotationFactor * PerspectiveStrength;
    var translateZ := -normalizedDistance * 100.0 * PerspectiveStrength;
    var opacity := 1.0 - normalizedDistance * 0.4;
    ItemTransform(
      item.x as real * CellSize as real, item.y as real * CellSize as real, translateZ,
      rotationX, rotationY, scale, Max(opacity, 0.3), Round((1.0 - normalizedDistance) * 100.0))
  }

  /** A tile centred on the viewport is shown flat, full size, opaque and on top. */
  lemma CenteredTileIsUndistorted(item: GridItem, distance: real, maxDistance: real)
    requires IsDistance(distance, 0.0, 0.0) && IsMaxDistance(maxDistance)
    ensures var t := GetItemTransform(item, TileCenter(item), distance, maxDistance);
      && t.scale == 1.0 && t.rotationX == 0.0 && t.rotationY == 0.0
      && t.translateZ == 0.0 && t.opacity == 1.0 && t.zIndex == 100
  {
    assert distance == 0.0;
  }

  /**
   * Scrolling so that a tile sits in the middle of the visible grid makes the
   * viewport centre that tile's centre, so that tile is drawn undistorted.
   */
  lemma CenteredScrollIsUndistorted(item: GridItem, scroll: Point, distance: real, maxDistance: real)
    requires scroll == Point(200.0 * item.x as real - 500.0, 200.0 * item.y as real - 500.0)
    requires IsDistance(distance, 0.0, 0.0) && IsMaxDistance(maxDistance)
    ensures ViewportCenter(scroll) == TileCenter(item)
    ensures var t := GetItemTransform(item, ViewportCenter(scroll), distance, maxDistance);
      && t.scale == 1.0 && t.opacity == 1.0 && t.zIndex == 100
  {
    assert ViewportCenter(scroll) == TileCenter(item);
    CenteredTileIsUndistorted(item, distance, maxDistance);
  }

  /** Dividing by a positive number keeps the order. */
  lemma DivideMonotone(a: real, b: real, m: real)
    requires a <= b && m > 0.0
    ensures a / m <= b / m
  {
    assert b / m - a / m == (b - a) / m;
  }

  /** The capped ratio grows with the distance. */
  lemma NormalizedDistanceMonotone(d1: real, d2: real, maxD: real)
    requires 0.0 <= d1 <= d2 && maxD > 0.0
    ensures NormalizedDistance(d1, maxD) <= NormalizedDistance(d2, maxD)
  {
    DivideMonotone(d1, d2, maxD);
  }

  /**
   * A farther tile is never larger, more opaque, nearer in depth or higher in
   * the stacking order than a nearer one.
   */
  lemma FartherIsSmallerDeeperDimmer(
    item1: GridItem, center1: Point, d1: real,
    item2: GridItem, center2: Point, d2: real, maxDistance: real)
    requires IsDistance(d1, TileCenter(item1).x - center1.x, TileCenter(item1).y - center1.y)
    requires IsDistance(d2, TileCenter(item2).x - center2.x, TileCenter(item2).y - center2.y)
    requires IsMaxDistance(maxDistance) && d1 <= d2
    ensures var t1 := GetItemTransform(item1, center1, d1, maxDistance);
      var t2 := GetItemTransform(item2, center2, d2, maxDistance);
      && t2.scale <= t1.scale && t2.opacity <= t1.opacity
      && t2.translateZ <= t1.translateZ && t2.zIndex <= t1.zIndex
  {
    NormalizedDistanceMonotone(d1, d2, maxDistance);
  }

  /** The opacity floor of 0.3 never applies: opacity is always 1 - 0.4 * normalized distance. */
  lemma OpacityFloorNeverApplies(item: GridItem, center: Point, distance: real, maxDistance: real)
    requires IsDistance(distance, TileCenter(item).x - center.x, TileCenter(item).y - center.y)
    requires IsMaxDistance(maxDistance)
    ensures GetItemTransform(item, center, distance, maxDistance).opacity
      == 1.0 - NormalizedDistance(distance, maxDistance) * 0.4 > 0.3
  {
  }

  /** The sign of a quotient by a positive number is the sign of the dividend. */
  lemma QuotientSign(a: real, m: real)
    requires m > 0.0
    ensures (a / m > 0.0 <==> a > 0.0) && (a / m < 0.0 <==> a < 0.0) && (a / m == 0.0 <==> a == 0.0)
  {
    assert (a / m) * m == a;
  }

  /**
   * A tile below the centre tilts forward (positive rotation about x) and one
   * above tilts back; a tile right of the centre turns the other way about y.
   */
  lemma RotationFacesCenter(item: GridItem, center: Point, distance: real, maxDistance: real)
    requires IsDistance(distance, TileCenter(item).x - center.x, TileCenter(item).y - center.y)
    requires IsMaxDistance(maxDistance)
    ensures var t := GetItemTransform(item, center, distance, maxDistance);
      var dx := TileCenter(item).x - center.x;
      var dy := TileCenter(item).y - center.y;
      && (t.rotationX > 0.0 <==> dy > 0.0) && (t.rotationX < 0.0 <==> dy < 0.0)
      && (t.rotationY > 0.0 <==> dx < 0.0) && (t.rotationY < 0.0 <==> dx > 0.0)
  {
    QuotientSign(TileCenter(item).x - center.x, maxDistance);
    QuotientSign(TileCenter(item).y - center.y, maxDistance);
  }

  /** A leg of a right triangle is no longer than the hypotenuse. */
  lemma LegAtMostHypotenuse(d: real, dx: real, dy: real)
    requires IsDistance(d, dx, dy)
    ensures Abs(dx) <= d && Abs(dy) <= d
  {
    assert Abs(dx) * Abs(dx) <= d * d;
    assert Abs(dy) * Abs(dy) <= d * d;
    SquareRootMonotone(Abs(dx), d);
    SquareRootMonotone(Abs(dy), d);
  }

  /** For non-negative numbers, a smaller square means a smaller number. */
  lemma SquareRootMonotone(a: real, b: real)
    requires a >= 0.0 && b >= 0.0 && a * a <= b * b
    ensures a <= b
  {
    if a + b > 0.0 {
      assert (a - b) * (a + b) == a * a - b * b;
      assert a - b == (a * a - b * b) / (a + b);
    }
  }

  /** A tilt of 12 degrees per corner distance is bounded by the distance it comes from. */
  lemma TiltBound(delta: real, d: real, m: real)
    requires Abs(delta) <= d && m > 0.0
    ensures Abs((delta / m) * RotationFactor * PerspectiveStrength) <= 12.0 * (d / m)
    ensures Abs(-(delta / m) * RotationFactor * PerspectiveStrength) <= 12.0 * (d / m)
  {
    var q := delta / m;
    DivideMonotone(Abs(delta), d, m);
    assert Abs(q) == Abs(delta) / m;
    assert Abs(q * RotationFactor * PerspectiveStrength) == 12.0 * Abs(q);
    assert Abs(-q * RotationFactor * PerspectiveStrength) == 12.0 * Abs(q);
  }

  /**
   * Rotation is not capped like scale and depth: it grows with the distance,
   * at most 12 degrees per corner distance.
   */
  lemma RotationBoundedByDistance(item: GridItem, center: Point, distance: real, maxDistance: real)
    requires IsDistance(distance, TileCenter(item).x - center.x, TileCenter(item).y - center.y)
    requires IsMaxDistance(maxDistance)
    ensures var t := GetItemTransform(item, center, distance, maxDistance);
      Abs(t.rotationX) <= 12.0 * (distance / maxDistance) && Abs(t.rotationY) <= 12.0 * (distance / maxDistance)
  {
    var dx := TileCenter(item).x - center.x;
    var dy := TileCenter(item).y - center.y;
    LegAtMostHypotenuse(distance, dx, dy);
    TiltBound(dx, distance, maxDistance);
    TiltBound(dy, distance, maxDistance);
  }
}
