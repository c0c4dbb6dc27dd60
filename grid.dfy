/**
 The grid tiler: a lattice of dots, one per cell corner, whose first dot sits
 exactly at the quadrant's offset. Dots are added column by column (x outer,
 y inner), as `GridPaper::grid` does.
 */
module GridTiler {
  import opened Drawing

  /** The dot of lattice point (x, y). */
  function GridDot(gs: GridSettings, x: nat, y: nat): Drawable
  {
    Dot(gs.color, (x as real) * CELL_SIZE.0 + gs.offset.0, (y as real) * CELL_SIZE.1 + gs.offset.1)
  }

  /** Lattice column x, top to bottom. */
  function GridColumn(gs: GridSettings, x: nat): (column: seq<Drawable>)
    ensures |column| == gs.numCells.1
    ensures forall y :: 0 <= y < |column| ==> column[y] == GridDot(gs, x, y)
  {
    seq(gs.numCells.1, y requires 0 <= y => GridDot(gs, x, y))
  }

  /** The first n lattice columns, left to right. */
  function GridColumns(gs: GridSettings, n: nat): (dots: seq<Drawable>)
    ensures |dots| == n * gs.numCells.1
  {
    if n == 0 then [] else GridColumns(gs, n - 1) + GridColumn(gs, n - 1)
  }

  /** Everything `grid` appends to a document. */
  function GridDots(gs: GridSettings): seq<Drawable>
  {
    GridColumns(gs, gs.numCells.0)
  }

  /** Appends the lattice of gs to doc. */
  method Grid(doc: Document, gs: GridSettings) returns (newDoc: Document)
    ensures newDoc == doc + GridDots(gs)
  {
    newDoc := doc;
    for x := 0 to gs.numCells.0
      invariant newDoc == doc + GridColumns(gs, x)
    {
      newDoc := AddColumn(newDoc, gs, x);
    }
  }

  /** One pass of `grid`'s outer loop: the dots of column x, top to bottom. */
  method AddColumn(doc: Document, gs: GridSettings, x: nat) returns (newDoc: Document)
    ensures newDoc == doc + GridColumn(gs, x)
  {
    newDoc := doc;
    for y := 0 to gs.numCells.1
      invariant newDoc == doc + GridColumn(gs, x)[..y]
    {
      var loc := ((x as real) * CELL_SIZE.0 + gs.offset.0, (y as real) * CELL_SIZE.1 + gs.offset.1);
      AppendNext(doc, GridColumn(gs, x), y);
      newDoc := newDoc + [Dot(gs.color, loc.0, loc.1)];
    }
    AppendAll(doc, GridColumn(gs, x));
  }

  /** Lattice point (x, y) of the first n columns is element x * rows + y. */
  lemma {:induction false} GridColumnsAt(gs: GridSettings, n: nat, x: nat, y: nat)
    requires x < n && y < gs.numCells.1
    ensures x * gs.numCells.1 + y < |GridColumns(gs, n)|
    ensures GridColumns(gs, n)[x * gs.numCells.1 + y] == GridDot(gs, x, y)
  {
    var rows := gs.numCells.1;
    if x < n - 1 {
      GridColumnsAt(gs, n - 1, x, y);
    } else {
      assert x * rows + y == (n - 1) * rows + y;
    }
  }

  /**
   `grid` puts the dot of lattice point (x, y) at index x * rows + y, centred at
   offset + (x, y) cells, with radius 0.25mm and the quadrant's colour.
   */
  lemma GridDotAt(gs: GridSettings, x: nat, y: nat)
    requires x < gs.numCells.0 && y < gs.numCells.1
    ensures |GridDots(gs)| == gs.numCells.0 * gs.numCells.1
    ensures x * gs.numCells.1 + y < |GridDots(gs)|
    ensures GridDots(gs)[x * gs.numCells.1 + y]
         == Circle(gs.offset.0 + (x as real) * CELL_SIZE.0, gs.offset.1 + (y as real) * CELL_SIZE.1,
                   DOT_RADIUS, gs.color)
  {
    GridColumnsAt(gs, gs.numCells.0, x, y);
  }

  /** The first dot sits exactly at the quadrant's offset. */
  lemma GridFirstDot(gs: GridSettings)
    requires gs.numCells.0 > 0 && gs.numCells.1 > 0
    ensures GridDots(gs)[0].Circle?
    ensures (GridDots(gs)[0].cx, GridDots(gs)[0].cy) == gs.offset
  {
    GridDotAt(gs, 0, 0);
  }

  /**
   Every element of the first n columns is a dot of the quadrant's colour on a
   lattice point: it lies within the cols x rows lattice rectangle, widened by
   the dot radius.
   */
  lemma {:induction false} GridColumnsWithin(gs: GridSettings, n: nat)
    requires 0 < n <= gs.numCells.0 && 0 < gs.numCells.1
    ensures forall d :: d in GridColumns(gs, n) ==>
      && Within(d, gs.offset.0 - DOT_RADIUS, gs.offset.1 - DOT_RADIUS,
                gs.offset.0 + (gs.numCells.0 - 1) as real * CELL_SIZE.0 + DOT_RADIUS,
                gs.offset.1 + (gs.numCells.1 - 1) as real * CELL_SIZE.1 + DOT_RADIUS)
      && d.Circle? && d == Dot(gs.color, d.cx, d.cy)
  {
    if n > 1 {
      GridColumnsWithin(gs, n - 1);
    }
    assert GridColumns(gs, n) == GridColumns(gs, n - 1) + GridColumn(gs, n - 1);
  }

  /** Every element `grid` appends is a dot of the quadrant's colour inside the lattice rectangle. */
  lemma GridWithin(gs: GridSettings)
    requires 0 < gs.numCells.0 && 0 < gs.numCells.1
    ensures forall d :: d in GridDots(gs) ==>
      && Within(d, gs.offset.0 - DOT_RADIUS, gs.offset.1 - DOT_RADIUS,
                gs.offset.0 + (gs.numCells.0 - 1) as real * CELL_SIZE.0 + DOT_RADIUS,
                gs.offset.1 + (gs.numCells.1 - 1) as real * CELL_SIZE.1 + DOT_RADIUS)
      && d.Circle? && d == Dot(gs.color, d.cx, d.cy)
  {
    GridColumnsWithin(gs, gs.numCells.0);
  }

  /** The first n columns hold n * rows dots and nothing else. */
  lemma {:induction false} GridColumnsCount(gs: GridSettings, n: nat, k: Kind)
    ensures Count(GridColumns(gs, n), k) == if k == DotKind then n * gs.numCells.1 else 0
  {
    if n > 0 {
      var rows := gs.numCells.1;
      GridColumnsCount(gs, n - 1, k);
      ColumnCount(gs, n - 1, rows, k);
      assert GridColumn(gs, n - 1)[..rows] == GridColumn(gs, n - 1);
      CountAppend(GridColumns(gs, n - 1), GridColumn(gs, n - 1), k);
      assert (n - 1) * rows + rows == n * rows;
    }
  }

  /** The first m dots of column x are m dots and nothing else. */
  lemma {:induction false} ColumnCount(gs: GridSettings, x: nat, m: nat, k: Kind)
    requires m <= gs.numCells.1
    ensures Count(GridColumn(gs, x)[..m], k) == if k == DotKind then m else 0
  {
    if m > 0 {
      ColumnCount(gs, x, m - 1, k);
      assert GridColumn(gs, x)[..m][..m - 1] == GridColumn(gs, x)[..m - 1];
    }
  }

  /** `grid` appends exactly cols * rows elements, all of them dots. */
  lemma GridCount(gs: GridSettings)
    ensures |GridDots(gs)| == gs.numCells.0 * gs.numCells.1
    ensures Count(GridDots(gs), DotKind) == gs.numCells.0 * gs.numCells.1
    ensures Count(GridDots(gs), RectKind) == 0
    ensures Count(GridDots(gs), LineKind) == 0
    ensures Count(GridDots(gs), TextKind) == 0
  {
    forall k: Kind {
      GridColumnsCount(gs, gs.numCells.0, k);
    }
  }
}
