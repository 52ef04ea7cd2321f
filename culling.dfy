/**
 * The culling of the perspective grid: only tiles whose top-left corner lies
 * strictly inside the visible grid, widened by two cells on every side, are
 * rendered.
 */
module Culling {
  import opened LinkTypes
  import opened GridGeometry
  import opened LatticeBuilder

  /** The margin around the visible grid, two cells wide. */
  const Padding: nat := CellSize * 2

  /** The tile's top-left corner lies strictly inside the padded window on both axes. */
  predicate IsVisible(item: GridItem, scroll: Point)
  {
    var itemX := (item.x * CellSize) as real;
    var itemY := (item.y * CellSize) as real;
    && itemX > scroll.x - Padding as real
    && itemX < scroll.x + (GridSize * CellSize) as real + Padding as real
    && itemY > scroll.y - Padding as real
    && itemY < scroll.y + (GridSize * CellSize) as real + Padding as real
  }

  /** The visible tiles, in lattice order. */
  function VisibleItems(items: seq<GridItem>, scroll: Point): (visible: seq<GridItem>)
    ensures IsSubsequence(visible, items)
    ensures forall t :: t in visible ==> IsVisible(t, scroll)
    ensures forall t :: multiset(visible)[t] == if IsVisible(t, scroll) then multiset(items)[t] else 0
  {
    if items == [] then []
    else
      var rest := VisibleItems(items[1..], scroll);
      assert items == [items[0]] + items[1..];
      if IsVisible(items[0], scroll) then
        assert ([items[0]] + rest)[1..] == rest;
        [items[0]] + rest
      else
        SubsequenceOfTail(rest, items);
        rest
  }

  /** A tile is kept exactly when it is in the lattice and visible. */
  lemma {:induction false} VisibleItemsMembership(items: seq<GridItem>, scroll: Point, t: GridItem)
    ensures t in VisibleItems(items, scroll) <==> t in items && IsVisible(t, scroll)
  {
    if items != [] {
      VisibleItemsMembership(items[1..], scroll, t);
      assert items == [items[0]] + items[1..];
    }
  }

  /** Culling an already culled list at the same scroll offset keeps all of it. */
  lemma {:induction false} VisibleItemsIdempotent(items: seq<GridItem>, scroll: Point)
    ensures VisibleItems(VisibleItems(items, scroll), scroll) == VisibleItems(items, scroll)
  {
    if items != [] {
      VisibleItemsIdempotent(items[1..], scroll);
      var rest := VisibleItems(items[1..], scroll);
      if IsVisible(items[0], scroll) {
        assert ([items[0]] + rest)[1..] == rest;
      }
    }
  }

  /** When no tile is visible, nothing is rendered. */
  lemma NothingVisible(items: seq<GridItem>, scroll: Point)
    requires forall t :: t in items ==> !IsVisible(t, scroll)
    ensures VisibleItems(items, scroll) == []
  {
    var visible := VisibleItems(items, scroll);
    if visible != [] {
      VisibleItemsMembership(items, scroll, visible[0]);
    }
  }

  /**
   * Scrolled 4200 pixels or more to the right or down, or 1600 pixels or more
   * to the left or up, the lattice leaves the window and nothing is rendered.
   */
  lemma FarScrollShowsNothing(links: seq<Link>, scroll: Point)
    requires scroll.x >= 4200.0 || scroll.x <= -1600.0 || scroll.y >= 4200.0 || scroll.y <= -1600.0
    ensures VisibleItems(Lattice(links), scroll) == []
  {
    var tiles := Lattice(links);
    forall t | t in tiles ensures !IsVisible(t, scroll) {
      var k :| 0 <= k < |tiles| && tiles[k] == t;
      assert t.x < ExtendedSize && t.y < ExtendedSize;
    }
    NothingVisible(tiles, scroll);
  }

  /** At the initial scroll offset a tile is visible exactly when it lies in the first 8 rows and columns. */
  lemma VisibleAtOrigin(t: GridItem)
    ensures IsVisible(t, Origin) <==> t.x <= 7 && t.y <= 7
  {
  }

  /** How many of the lattice tiles from index k on are visible at the initial scroll offset. */
  function OriginCount(k: nat): nat
  {
    var x, y := k % ExtendedSize, k / ExtendedSize;
    if y < 8 then (if x < 8 then 8 - x else 0) + 8 * (7 - y) else 0
  }

  /** Culling a non-empty list keeps its head exactly when the head is visible. */
  lemma VisibleItemsCount(items: seq<GridItem>, scroll: Point)
    requires items != []
    ensures |VisibleItems(items, scroll)| ==
      (if IsVisible(items[0], scroll) then 1 else 0) + |VisibleItems(items[1..], scroll)|
  {
  }

  /** At the initial offset, culling from the tile at lattice index k counts it exactly when it is in the first 8 rows and columns. */
  lemma OriginCountAt(tiles: seq<GridItem>, k: nat)
    requires k < |tiles| && tiles[k].x == k % ExtendedSize && tiles[k].y == k / ExtendedSize
    ensures |VisibleItems(tiles[k..], Origin)| ==
      (if k % ExtendedSize <= 7 && k / ExtendedSize <= 7 then 1 else 0) + |VisibleItems(tiles[k + 1..], Origin)|
  {
    assert tiles[k..][1..] == tiles[k + 1..];
    VisibleItemsCount(tiles[k..], Origin);
    VisibleAtOrigin(tiles[k]);
  }

  /** The closed form counts tile k exactly when it lies in the first 8 rows and columns. */
  lemma OriginCountStep(k: nat)
    requires k < TileCount
    ensures OriginCount(k) ==
      (if k % ExtendedSize <= 7 && k / ExtendedSize <= 7 then 1 else 0) + OriginCount(k + 1)
  {
    var x, y := k % ExtendedSize, k / ExtendedSize;
    assert k == y * ExtendedSize + x;
    if x < ExtendedSize - 1 {
      RowMajorIndex(x + 1, y);
      assert k + 1 == y * ExtendedSize + (x + 1);
    } else {
      RowMajorIndex(0, y + 1);
      assert k + 1 == (y + 1) * ExtendedSize + 0;
    }
  }

  /** Counting the visible tiles of a row-major lattice from index k on, one tile at a time. */
  lemma {:induction false} OriginCountFrom(tiles: seq<GridItem>, k: nat)
    requires |tiles| == TileCount && k <= TileCount
    requires forall j :: 0 <= j < |tiles| ==> tiles[j].x == j % ExtendedSize && tiles[j].y == j / ExtendedSize
    ensures |VisibleItems(tiles[k..], Origin)| == OriginCount(k)
    decreases TileCount - k
  {
    if k < TileCount {
      OriginCountFrom(tiles, k + 1);
      OriginCountAt(tiles, k);
      OriginCountStep(k);
    } else {
      assert tiles[k..] == [];
    }
  }

  /**
   * At the initial scroll offset, with at least one link, exactly the 64 tiles
   * of the first 8 rows and columns are rendered.
   */
  lemma SixtyFourTilesAtOrigin(links: seq<Link>)
    requires |links| > 0
    ensures |VisibleItems(Lattice(links), Origin)| == 64
    ensures forall t :: t in VisibleItems(Lattice(links), Origin) <==> t in Lattice(links) && t.x <= 7 && t.y <= 7
  {
    OriginCountFrom(Lattice(links), 0);
    assert Lattice(links)[0..] == Lattice(links);
    forall t ensures t in VisibleItems(Lattice(links), Origin) <==> t in Lattice(links) && t.x <= 7 && t.y <= 7 {
      VisibleItemsMembership(Lattice(links), Origin, t);
      VisibleAtOrigin(t);
    }
  }
}
