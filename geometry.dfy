/** The fixed layout of the pannable perspective grid and the points it works with. */
module GridGeometry {

  /** Tiles per axis of the visible grid. */
  const GridSize: nat := 6

  /** Width and height of one lattice cell, in pixels. */
  const CellSize: nat := 200

  /** Tiles per axis of the lattice built from the links. */
  const ExtendedSize: nat := 20

  /** How strongly rotation and depth follow the distance from the centre. */
  const PerspectiveStrength: real := 0.8

  /** The scale of a tile at (or beyond) the corner of the visible grid. */
  const ScaleFactor: real := 0.3

  /** The largest rotation, in degrees, before the perspective strength is applied. */
  const RotationFactor: real := 15.0

  /** A pair of pixel coordinates, or of pixel deltas. */
  datatype Point = Point(x: real, y: real)

  const Origin: Point := Point(0.0, 0.0)

  /** Absolute value of a real. */
  function Abs(r: real): (a: real)
    ensures a >= 0.0 && (a == r || a == -r)
  {
    if r < 0.0 then -r else r
  }
}
