/**
 The header strip: three one-cell-high boxes along the top of a quadrant,
 a wide left box, a mid box of two cells and a right box of five cells,
 followed by one unboxed cell of margin.
 */
module HeaderLayout {
  import opened Drawing

  /** Widths of the right and mid boxes, in cells. */
  const RIGHT_BOX_WIDTH: real := 5.0
  const MID_BOX_WIDTH: real := 2.0

  /**
   Width of the left box in cells: the columns left over after the right box,
   the mid box and one cell of margin. It is a float in the program, so it goes
   negative for fewer than eight columns instead of failing.
   */
  function LeftBoxWidth(cols: nat): (w: real)
    ensures w >= 0.0 <==> cols >= 8
    ensures w + MID_BOX_WIDTH + RIGHT_BOX_WIDTH + 1.0 == cols as real
  {
    cols as real - RIGHT_BOX_WIDTH - MID_BOX_WIDTH - 1.0
  }

  /**
   Appends the left, mid and right header boxes. They sit on the quadrant's top
   edge, are one cell high, abut one another left to right from the offset, and
   together end at the lattice's last dot column, cols - 1 cells from the offset.
   */
  function Header(doc: Document, gs: GridSettings): (newDoc: Document)
    ensures |newDoc| == |doc| + 3 && newDoc[..|doc|] == doc
    ensures forall i :: |doc| <= i < |newDoc| ==>
      && newDoc[i].Rectangle?
      && newDoc[i].y == gs.offset.1
      && newDoc[i].height == CELL_SIZE.1
      && newDoc[i].stroke == gs.color
    ensures newDoc[|doc|].x == gs.offset.0
    ensures newDoc[|doc| + 1].x == newDoc[|doc|].x + newDoc[|doc|].width
    ensures newDoc[|doc| + 2].x == newDoc[|doc| + 1].x + newDoc[|doc| + 1].width
    ensures newDoc[|doc|].width == (gs.numCells.0 as real - 8.0) * CELL_SIZE.0
    ensures newDoc[|doc| + 1].width == 2.0 * CELL_SIZE.0
    ensures newDoc[|doc| + 2].width == 5.0 * CELL_SIZE.0
    ensures newDoc[|doc|].width + newDoc[|doc| + 1].width + newDoc[|doc| + 2].width
         == (gs.numCells.0 as real - 1.0) * CELL_SIZE.0
    ensures newDoc[|doc| + 2].x + newDoc[|doc| + 2].width
         == gs.offset.0 + (gs.numCells.0 as real - 1.0) * CELL_SIZE.0
    ensures newDoc[|doc|].width >= 0.0 <==> gs.numCells.0 >= 8
  {
    var left := LeftBoxWidth(gs.numCells.0);
    doc
    + [Rectangle(gs.offset.0, gs.offset.1,
                 CELL_SIZE.0 * left, CELL_SIZE.1, gs.color)]
    + [Rectangle(gs.offset.0 + CELL_SIZE.0 * left, gs.offset.1,
                 CELL_SIZE.0 * MID_BOX_WIDTH, CELL_SIZE.1, gs.color)]
    + [Rectangle(gs.offset.0 + CELL_SIZE.0 * (left + MID_BOX_WIDTH), gs.offset.1,
                 CELL_SIZE.0 * RIGHT_BOX_WIDTH, CELL_SIZE.1, gs.color)]
  }

  /** The header adds exactly three rectangles to what doc holds. */
  lemma HeaderCount(doc: Document, gs: GridSettings, k: Kind)
    ensures Count(Header(doc, gs), k) == Count(doc, k) + if k == RectKind then 3 else 0
  {
    var h := Header(doc, gs);
    CountAppend(doc, h[|doc|..], k);
    assert h == doc + h[|doc|..];
    assert h[|doc|..] == [h[|doc|]] + [h[|doc| + 1]] + [h[|doc| + 2]];
    CountAppend([h[|doc|]] + [h[|doc| + 1]], [h[|doc| + 2]], k);
    CountAppend([h[|doc|]], [h[|doc| + 1]], k);
    CountOne(h[|doc|], k);
    CountOne(h[|doc| + 1], k);
    CountOne(h[|doc| + 2], k);
  }

  /**
   With at least eight columns the three boxes have non-negative widths and lie
   in the top cell row, between the offset and the lattice's last dot column, cols - 1 cells from the offset.
   */
  lemma HeaderWithin(doc: Document, gs: GridSettings)
    requires gs.numCells.0 >= 8
    ensures forall i :: |doc| <= i < |Header(doc, gs)| ==>
      Within(Header(doc, gs)[i], gs.offset.0, gs.offset.1,
             gs.offset.0 + (gs.numCells.0 as real - 1.0) * CELL_SIZE.0, gs.offset.1 + CELL_SIZE.1)
  {
  }
}
