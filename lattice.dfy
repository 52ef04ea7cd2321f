/**
 * The lattice builder of the perspective grid: it repeats the link list,
 * row by row, over a 20 x 20 lattice of tiles.
 */
module LatticeBuilder {
  import opened LinkTypes
  import opened Text
  import opened GridGeometry

  /** One tile of the lattice: a link placed at lattice column `x` and row `y`, with its render key `id`. */
  datatype GridItem = GridItem(link: Link, x: nat, y: nat, id: string)

  /** Number of tiles in a lattice built from a non-empty link list. */
  const TileCount: nat := ExtendedSize * ExtendedSize

  /** The render key of a tile: the link id, the column and the row, joined by dashes. */
  function TileKey(linkId: string, x: nat, y: nat): string
  {
    linkId + "-" + Decimal(x) + "-" + Decimal(y)
  }

  /** A tile key determines the link id and both coordinates, whatever characters the id holds. */
  lemma TileKeyInjective(id1: string, x1: nat, y1: nat, id2: string, x2: nat, y2: nat)
    requires TileKey(id1, x1, y1) == TileKey(id2, x2, y2)
    ensures id1 == id2 && x1 == x2 && y1 == y2
  {
    assert '-' !in Decimal(y1) && '-' !in Decimal(y2);
    assert '-' !in Decimal(x1) && '-' !in Decimal(x2);
    SplitAtLast(id1 + "-" + Decimal(x1), Decimal(y1), id2 + "-" + Decimal(x2), Decimal(y2), '-');
    SplitAtLast(id1, Decimal(x1), id2, Decimal(x2), '-');
    DecimalInjective(x1, x2);
    DecimalInjective(y1, y2);
  }

  /** The tile at column `x`, row `y`: it shows link number `(x + 20y) mod L`. */
  function TileAt(links: seq<Link>, x: nat, y: nat): GridItem
    requires |links| > 0
  {
    var linkIndex := (x + y * ExtendedSize) % |links|;
    GridItem(links[linkIndex], x, y, TileKey(links[linkIndex].id, x, y))
  }

  /**
   * The lattice in the order it is built: row by row, each row left to right.
   * An empty link list gives no tiles; otherwise tile k sits at column k mod 20,
   * row k div 20, and shows link number k mod L.
   */
  function Lattice(links: seq<Link>): (tiles: seq<GridItem>)
    ensures |links| == 0 ==> tiles == []
    ensures |links| > 0 ==> |tiles| == TileCount
    ensures forall k :: 0 <= k < |tiles| ==>
      && tiles[k].x == k % ExtendedSize < ExtendedSize
      && tiles[k].y == k / ExtendedSize < ExtendedSize
      && tiles[k].link == links[k % |links|]
  {
    if |links| == 0 then []
    else seq(TileCount, k requires 0 <= k < TileCount => TileAt(links, k % ExtendedSize, k / ExtendedSize))
  }

  /** Column `x`, row `y` is tile number `x + 20y`. */
  lemma RowMajorIndex(x: nat, y: nat)
    requires x < ExtendedSize
    ensures (y * ExtendedSize + x) % ExtendedSize == x
    ensures (y * ExtendedSize + x) / ExtendedSize == y
  {
  }

  /** Every lattice position holds exactly the tile at its row-major index. */
  lemma LatticeCoversGrid(links: seq<Link>, x: nat, y: nat)
    requires |links| > 0 && x < ExtendedSize && y < ExtendedSize
    ensures var tiles := Lattice(links); var k := y * ExtendedSize + x;
      k < |tiles| && tiles[k].x == x && tiles[k].y == y
  {
    RowMajorIndex(x, y);
  }

  /** No two tiles of the lattice share a position. */
  lemma LatticePositionsDistinct(links: seq<Link>, i: nat, j: nat)
    requires i < j < |Lattice(links)|
    ensures Lattice(links)[i].x != Lattice(links)[j].x || Lattice(links)[i].y != Lattice(links)[j].y
  {
    var tiles := Lattice(links);
    assert i == tiles[i].y * ExtendedSize + tiles[i].x;
    assert j == tiles[j].y * ExtendedSize + tiles[j].x;
  }

  /** No two tiles of the lattice share a render key, even when link ids repeat. */
  lemma LatticeKeysDistinct(links: seq<Link>, i: nat, j: nat)
    requires i < j < |Lattice(links)|
    ensures Lattice(links)[i].id != Lattice(links)[j].id
  {
    var tiles := Lattice(links);
    LatticePositionsDistinct(links, i, j);
    if tiles[i].id == tiles[j].id {
      TileKeyInjective(tiles[i].link.id, tiles[i].x, tiles[i].y, tiles[j].link.id, tiles[j].x, tiles[j].y);
    }
  }

  /**
   * Builds the lattice with the two nested loops of the grid component, one
   * tile per position, skipping every position when there are no links.
   */
  method BuildLattice(links: seq<Link>) returns (gridItems: seq<GridItem>)
    ensures gridItems == Lattice(links)
  {
    gridItems := [];
    var y := 0;
    while y < ExtendedSize
      invariant 0 <= y <= ExtendedSize
      invariant |gridItems| == if |links| == 0 then 0 else y * ExtendedSize
      invariant forall k :: 0 <= k < |gridItems| ==>
        |links| > 0 && gridItems[k] == TileAt(links, k % ExtendedSize, k / ExtendedSize)
    {
      var x := 0;
      while x < ExtendedSize
        invariant 0 <= x <= ExtendedSize
        invariant |gridItems| == if |links| == 0 then 0 else y * ExtendedSize + x
        invariant forall k :: 0 <= k < |gridItems| ==>
          |links| > 0 && gridItems[k] == TileAt(links, k % ExtendedSize, k / ExtendedSize)
      {
        // With no links the index is undefined and no tile is pushed.
        if |links| > 0 {
          var linkIndex := (x + y * ExtendedSize) % |links|;
          RowMajorIndex(x, y);
          gridItems := gridItems + [GridItem(links[linkIndex], x, y, TileKey(links[linkIndex].id, x, y))];
        }
        x := x + 1;
      }
      y := y + 1;
    }
  }

  /** Eight links fill all 400 tiles, and the first tile shows the first link. */
  lemma EightLinksScenario(links: seq<Link>)
    requires |links| == 8
    ensures |Lattice(links)| == 400
    ensures Lattice(links)[0].link == links[0] && Lattice(links)[0].x == 0 && Lattice(links)[0].y == 0
  {
  }
}
