/**
 Page composition: a quadrant is a lattice with its header strip (a default
 page) or that plus the calendar table (a calendar page); a full page is four
 quadrants, one per corner of the paper, followed by the cut lines that
 separate them.
 */
module PageComposer {
  import opened Drawing
  import opened GridTiler
  import opened HeaderLayout
  import opened CalendarOverlay

  /**
   Cells of one quadrant along each axis: half the paper less the outer and the
   inner margin, in whole cells, rounded up.
   */
  function QuadrantCells(): (n: (nat, nat))
    ensures (n.0 as real - 1.0) * CELL_SIZE.0 < PAPER_SIZE.0 / 2.0 - OUTER_MARGINS.0 - INNER_MARGINS.0 <= n.0 as real * CELL_SIZE.0
    ensures (n.1 as real - 1.0) * CELL_SIZE.1 < PAPER_SIZE.1 / 2.0 - OUTER_MARGINS.1 - INNER_MARGINS.1 <= n.1 as real * CELL_SIZE.1
    ensures n == (19, 25)
  {
    (ToUsize(Ceil((PAPER_SIZE.0 / 2.0 - OUTER_MARGINS.0 - INNER_MARGINS.0) / CELL_SIZE.0)),
     ToUsize(Ceil((PAPER_SIZE.1 / 2.0 - OUTER_MARGINS.1 - INNER_MARGINS.1) / CELL_SIZE.1)))
  }

  /**
   The settings both page kinds lay a quadrant out with: 19 by 25 cells at the
   given offset and colour, wide enough for a non-negative header and for the
   calendar table, so `calendar`'s `usize` subtraction never underflows.
   */
  function QuadrantSettings(offset: (real, real), color: string): (gs: GridSettings)
    ensures gs.offset == offset && gs.color == color && gs.numCells == (19, 25)
    ensures LeftBoxWidth(gs.numCells.0) >= 0.0
    ensures Fits(gs, LABELS)
  {
    GridSettings(color, offset, QuadrantCells())
  }

  /** The labels fit the quadrant: 19 columns leave 4 before the 14 of the table and 1 after. */
  lemma QuadrantFits(offset: (real, real), color: string)
    ensures |LABELS.days| == 7 && |LABELS.rows| == 13
    ensures Fits(QuadrantSettings(offset, color), LABELS)
    ensures StartColumn(QuadrantCells().0, |LABELS.days|) == Some(4)
  {
  }

  /** A quadrant of grid paper: the lattice, then the header strip over it. */
  function DefaultPage(doc: Document, offset: (real, real), color: string): (newDoc: Document)
    ensures |newDoc| == |doc| + 19 * 25 + 3 && newDoc[..|doc|] == doc
  {
    var gs := QuadrantSettings(offset, color);
    Header(doc + GridDots(gs), gs)
  }

  /** A calendar quadrant: a default quadrant, then the calendar table over it. */
  function CalendarPage(doc: Document, offset: (real, real), color: string): (newDoc: Document)
    ensures |newDoc| == |doc| + 19 * 25 + 3 + 7 + 13 * 8
    ensures newDoc[..|doc| + 19 * 25 + 3] == DefaultPage(doc, offset, color)
  {
    var gs := QuadrantSettings(offset, color);
    QuadrantFits(offset, color);
    DefaultPage(doc, offset, color) + CalendarItems(gs, LABELS)
  }

  /** x of the left and of the right vertical cut line. */
  const LEFT_CUT: real := PAPER_SIZE.0 / 2.0 - 2.0
  const RIGHT_CUT: real := PAPER_SIZE.0 / 2.0 + 2.0

  /**
   Appends the cut lines: two vertical lines across the whole height, centred on
   the paper's middle and MID_SPLIT_WIDTH apart, and one horizontal line across
   the whole width at half height.
   */
  function CutLines(doc: Document, color: string): (newDoc: Document)
    ensures |newDoc| == |doc| + 3 && newDoc[..|doc|] == doc
    ensures forall i :: |doc| <= i < |newDoc| ==> newDoc[i].Line? && newDoc[i].stroke == color
    ensures var left, right := newDoc[|doc|], newDoc[|doc| + 1];
      && left.x1 == left.x2 && right.x1 == right.x2
      && left.y1 == right.y1 == 0.0 && left.y2 == right.y2 == PAPER_SIZE.1
      && right.x1 - left.x1 == MID_SPLIT_WIDTH
      && (left.x1 + right.x1) / 2.0 == PAPER_SIZE.0 / 2.0
    ensures var across := newDoc[|doc| + 2];
      across.y1 == across.y2 == PAPER_SIZE.1 / 2.0 && across.x1 == 0.0 && across.x2 == PAPER_SIZE.0
  {
    doc
    + [Line(LEFT_CUT, 0.0, LEFT_CUT, PAPER_SIZE.1, color)]
    + [Line(RIGHT_CUT, 0.0, RIGHT_CUT, PAPER_SIZE.1, color)]
    + [Line(0.0, PAPER_SIZE.1 / 2.0, PAPER_SIZE.0, PAPER_SIZE.1 / 2.0, color)]
  }

  /** The four quadrants of a full page, in the order they are drawn. */
  datatype Quadrant = TopLeft | TopRight | BottomLeft | BottomRight
  {
    predicate IsLeft() { this == TopLeft || this == BottomLeft }
    predicate IsTop() { this == TopLeft || this == TopRight }
  }

  /**
   Offset of quadrant q: left quadrants start at the outer margin, right ones
   past the middle, the inner margin and half the split; top quadrants at the
   outer margin, bottom ones that far below half the height.
   */
  function Corner(q: Quadrant): (c: (real, real))
    ensures q == TopLeft ==> c == (10.0, 10.0)
    ensures q == TopRight ==> c == (114.95, 10.0)
    ensures q == BottomLeft ==> c == (10.0, 149.7)
    ensures q == BottomRight ==> c == (114.95, 149.7)
  {
    var x := if q.IsLeft() then OUTER_MARGINS.0 else PAPER_SIZE.0 / 2.0 + INNER_MARGINS.0 + MID_SPLIT_WIDTH / 2.0;
    var y := if q.IsTop() then OUTER_MARGINS.1 else PAPER_SIZE.1 / 2.0 + OUTER_MARGINS.1;
    (x, y)
  }

  /** Four default quadrants, top left to bottom right, then the cut lines. */
  function FullDefaultPage(doc: Document, color: string): (newDoc: Document)
    ensures |newDoc| == |doc| + 4 * (19 * 25 + 3) + 3 && newDoc[..|doc|] == doc
  {
    var page := DefaultPage(DefaultPage(DefaultPage(DefaultPage(doc, Corner(TopLeft), color), Corner(TopRight), color), Corner(BottomLeft), color), Corner(BottomRight), color);
    CutLines(page, color)
  }

  /** Four calendar quadrants, top left to bottom right, then the cut lines. */
  function FullCalendarPage(doc: Document, color: string): (newDoc: Document)
    ensures |newDoc| == |doc| + 4 * (19 * 25 + 3 + 7 + 13 * 8) + 3 && newDoc[..|doc|] == doc
  {
    var page := CalendarPage(CalendarPage(CalendarPage(CalendarPage(doc, Corner(TopLeft), color), Corner(TopRight), color), Corner(BottomLeft), color), Corner(BottomRight), color);
    CutLines(page, color)
  }

  /** What a default quadrant draws does not depend on the document it is drawn onto. */
  lemma DefaultPageAppends(doc: Document, offset: (real, real), color: string)
    ensures DefaultPage(doc, offset, color) == doc + DefaultPage([], offset, color)
  {
    var gs := QuadrantSettings(offset, color);
    assert doc + GridDots(gs) == doc + ([] + GridDots(gs));
  }

  /** What a calendar quadrant draws does not depend on the document it is drawn onto. */
  lemma CalendarPageAppends(doc: Document, offset: (real, real), color: string)
    ensures CalendarPage(doc, offset, color) == doc + CalendarPage([], offset, color)
  {
    DefaultPageAppends(doc, offset, color);
  }

  /** The full default page is the four quadrants in corner order, then the three cut lines. */
  lemma FullDefaultPageLayout(doc: Document, color: string)
    ensures FullDefaultPage(doc, color)
         == doc + DefaultPage([], Corner(TopLeft), color) + DefaultPage([], Corner(TopRight), color)
                + DefaultPage([], Corner(BottomLeft), color) + DefaultPage([], Corner(BottomRight), color) + CutLines([], color)
  {
    var d0 := DefaultPage(doc, Corner(TopLeft), color);
    var d1 := DefaultPage(d0, Corner(TopRight), color);
    var d2 := DefaultPage(d1, Corner(BottomLeft), color);
    DefaultPageAppends(doc, Corner(TopLeft), color);
    DefaultPageAppends(d0, Corner(TopRight), color);
    DefaultPageAppends(d1, Corner(BottomLeft), color);
    DefaultPageAppends(d2, Corner(BottomRight), color);
  }

  /** The full calendar page is the four calendar quadrants in corner order, then the three cut lines. */
  lemma FullCalendarPageLayout(doc: Document, color: string)
    ensures FullCalendarPage(doc, color)
         == doc + CalendarPage([], Corner(TopLeft), color) + CalendarPage([], Corner(TopRight), color)
                + CalendarPage([], Corner(BottomLeft), color) + CalendarPage([], Corner(BottomRight), color) + CutLines([], color)
  {
    var d0 := CalendarPage(doc, Corner(TopLeft), color);
    var d1 := CalendarPage(d0, Corner(TopRight), color);
    var d2 := CalendarPage(d1, Corner(BottomLeft), color);
    CalendarPageAppends(doc, Corner(TopLeft), color);
    CalendarPageAppends(d0, Corner(TopRight), color);
    CalendarPageAppends(d1, Corner(BottomLeft), color);
    CalendarPageAppends(d2, Corner(BottomRight), color);
  }

  /** A default quadrant draws 475 dots and 3 rectangles. */
  lemma DefaultPageCount(offset: (real, real), color: string, k: Kind)
    ensures Count(DefaultPage([], offset, color), k)
         == if k == DotKind then 19 * 25 else if k == RectKind then 3 else 0
  {
    var gs := QuadrantSettings(offset, color);
    GridCount(gs);
    assert [] + GridDots(gs) == GridDots(gs);
    HeaderCount(GridDots(gs), gs, k);
  }

  /** A calendar quadrant adds 20 texts and 91 rectangles to a default quadrant. */
  lemma CalendarPageCount(offset: (real, real), color: string, k: Kind)
    ensures Count(CalendarPage([], offset, color), k)
         == if k == DotKind then 19 * 25 else if k == RectKind then 3 + 7 * 13
            else if k == TextKind then 7 + 13 else 0
  {
    var gs := QuadrantSettings(offset, color);
    QuadrantFits(offset, color);
    DefaultPageCount(offset, color, k);
    CalendarCount(gs, LABELS);
    CountAppend(DefaultPage([], offset, color), CalendarItems(gs, LABELS), k);
  }

  /** The cut lines are three lines and nothing else. */
  lemma CutLinesCount(color: string, k: Kind)
    ensures Count(CutLines([], color), k) == if k == LineKind then 3 else 0
  {
    var c := CutLines([], color);
    assert c == [c[0]] + [c[1]] + [c[2]];
    CountAppend([c[0]] + [c[1]], [c[2]], k);
    CountAppend([c[0]], [c[1]], k);
    CountOne(c[0], k);
    CountOne(c[1], k);
    CountOne(c[2], k);
  }

  /** Counting over the four quadrants and the cut lines of a full page. */
  lemma CountFull(q0: Document, q1: Document, q2: Document, q3: Document, cuts: Document, k: Kind)
    ensures Count(q0 + q1 + q2 + q3 + cuts, k)
         == Count(q0, k) + Count(q1, k) + Count(q2, k) + Count(q3, k) + Count(cuts, k)
  {
    CountAppend(q0 + q1 + q2 + q3, cuts, k);
    CountAppend(q0 + q1 + q2, q3, k);
    CountAppend(q0 + q1, q2, k);
    CountAppend(q0, q1, k);
  }

  /** A full default page: 4 * 475 dots, 4 * 3 header boxes and 3 cut lines. */
  lemma FullDefaultPageCount(color: string, k: Kind)
    ensures Count(FullDefaultPage([], color), k)
         == if k == DotKind then 4 * 19 * 25 else if k == RectKind then 4 * 3
            else if k == LineKind then 3 else 0
  {
    var q0, q1 := DefaultPage([], Corner(TopLeft), color), DefaultPage([], Corner(TopRight), color);
    var q2, q3 := DefaultPage([], Corner(BottomLeft), color), DefaultPage([], Corner(BottomRight), color);
    FullDefaultPageLayout([], color);
    assert [] + q0 == q0;
    CountFull(q0, q1, q2, q3, CutLines([], color), k);
    DefaultPageCount(Corner(TopLeft), color, k);
    DefaultPageCount(Corner(TopRight), color, k);
    DefaultPageCount(Corner(BottomLeft), color, k);
    DefaultPageCount(Corner(BottomRight), color, k);
    CutLinesCount(color, k);
  }

  /** A full calendar page: 4 * 475 dots, 4 * 94 boxes, 4 * 20 texts and 3 cut lines. */
  lemma FullCalendarPageCount(color: string, k: Kind)
    ensures Count(FullCalendarPage([], color), k)
         == if k == DotKind then 4 * 19 * 25 else if k == RectKind then 4 * (3 + 7 * 13)
            else if k == TextKind then 4 * (7 + 13) else 3
  {
    var q0, q1 := CalendarPage([], Corner(TopLeft), color), CalendarPage([], Corner(TopRight), color);
    var q2, q3 := CalendarPage([], Corner(BottomLeft), color), CalendarPage([], Corner(BottomRight), color);
    FullCalendarPageLayout([], color);
    assert [] + q0 == q0;
    CountFull(q0, q1, q2, q3, CutLines([], color), k);
    CalendarPageCount(Corner(TopLeft), color, k);
    CalendarPageCount(Corner(TopRight), color, k);
    CalendarPageCount(Corner(BottomLeft), color, k);
    CalendarPageCount(Corner(BottomRight), color, k);
    CutLinesCount(color, k);
  }

  /** The rectangle 18 by 24 cells from offset, widened by the dot radius. */
  ghost predicate InQuadrant(offset: (real, real), d: Drawable)
  {
    Within(d, offset.0 - DOT_RADIUS, offset.1 - DOT_RADIUS,
           offset.0 + 18.0 * CELL_SIZE.0 + DOT_RADIUS, offset.1 + 24.0 * CELL_SIZE.1 + DOT_RADIUS)
  }

  /** Everything a default quadrant draws, dots and header, lies within 18 by 24 cells from its offset. */
  lemma DefaultPageExtent(offset: (real, real), color: string)
    ensures forall d :: d in DefaultPage([], offset, color) ==> InQuadrant(offset, d)
  {
    var gs := QuadrantSettings(offset, color);
    var dots := GridDots(gs);
    var page := Header(dots, gs);
    GridWithin(gs);
    HeaderWithin(dots, gs);
    assert [] + dots == dots;
    forall d | d in page
      ensures InQuadrant(offset, d)
    {
      var i :| 0 <= i < |page| && page[i] == d;
      if i >= |dots| {
        WithinWider(d, offset.0, offset.1, offset.0 + 18.0 * CELL_SIZE.0, offset.1 + CELL_SIZE.1,
                    offset.0 - DOT_RADIUS, offset.1 - DOT_RADIUS,
                    offset.0 + 18.0 * CELL_SIZE.0 + DOT_RADIUS, offset.1 + 24.0 * CELL_SIZE.1 + DOT_RADIUS);
      } else {
        assert d in dots;
      }
    }
  }

  /**
   Everything a calendar quadrant draws lies within 18 by 24 cells from its
   offset: the calendar's table ends 16 cells down, above the lattice's bottom.
   */
  lemma QuadrantExtent(offset: (real, real), color: string)
    ensures forall d :: d in CalendarPage([], offset, color) ==> InQuadrant(offset, d)
  {
    var gs := QuadrantSettings(offset, color);
    QuadrantFits(offset, color);
    DefaultPageExtent(offset, color);
    CalendarWithin(gs, LABELS);
    forall d | d in CalendarItems(gs, LABELS)
      ensures InQuadrant(offset, d)
    {
      WithinWider(d, offset.0, offset.1, offset.0 + 18.0 * CELL_SIZE.0, offset.1 + 16.0 * CELL_SIZE.1,
                  offset.0 - DOT_RADIUS, offset.1 - DOT_RADIUS,
                  offset.0 + 18.0 * CELL_SIZE.0 + DOT_RADIUS, offset.1 + 24.0 * CELL_SIZE.1 + DOT_RADIUS);
    }
  }

  /** The quarter of the paper that quadrant q must stay in: bounded by the paper's edges and the cut lines. */
  function Region(q: Quadrant): (region: (real, real, real, real))
    ensures region.0 < region.2 && region.1 < region.3
  {
    var left := if q.IsLeft() then 0.0 else RIGHT_CUT;
    var right := if q.IsLeft() then LEFT_CUT else PAPER_SIZE.0;
    var top := if q.IsTop() then 0.0 else PAPER_SIZE.1 / 2.0;
    var bottom := if q.IsTop() then PAPER_SIZE.1 / 2.0 else PAPER_SIZE.1;
    (left, top, right, bottom)
  }

  /**
   No quadrant crosses a cut line or the paper's edge: every drawable of the
   quadrant placed at Corner(q) lies within Region(q).
   */
  lemma QuadrantsInCorners(q: Quadrant, color: string)
    ensures forall d :: d in DefaultPage([], Corner(q), color) ==>
      Within(d, Region(q).0, Region(q).1, Region(q).2, Region(q).3)
    ensures forall d :: d in CalendarPage([], Corner(q), color) ==>
      Within(d, Region(q).0, Region(q).1, Region(q).2, Region(q).3)
  {
    var offset, region := Corner(q), Region(q);
    QuadrantExtent(offset, color);
    DefaultPageExtent(offset, color);
    forall d | InQuadrant(offset, d)
      ensures Within(d, region.0, region.1, region.2, region.3)
    {
      WithinWider(d, offset.0 - DOT_RADIUS, offset.1 - DOT_RADIUS,
                  offset.0 + 18.0 * CELL_SIZE.0 + DOT_RADIUS, offset.1 + 24.0 * CELL_SIZE.1 + DOT_RADIUS,
                  region.0, region.1, region.2, region.3);
    }
  }

  /**
   In a calendar quadrant the header's right box and the last day's box of every
   row end at the same x, the lattice's last dot column, cols - 1 cells from the offset.
   */
  lemma HeaderMeetsCalendar(offset: (real, real), color: string, r: nat)
    requires r < 13
    ensures var page, w := CalendarPage([], offset, color), 19 * 25;
      var right, last := page[w + 2], page[w + 3 + 7 + r * 8 + 1 + 6];
      && right.Rectangle? && last.Rectangle?
      && right.x + right.width == last.x + last.width == offset.0 + 18.0 * CELL_SIZE.0
  {
    var gs := QuadrantSettings(offset, color);
    var dots := GridDots(gs);
    QuadrantFits(offset, color);
    assert [] + dots == dots;
    CellBoxAt(gs, LABELS, r, 6);
    CalendarRightEdge(gs, LABELS, r);
  }

  /**
   Landmarks of a default quadrant at any offset: the first dot on the offset,
   then header boxes of 55, 10 and 25mm along the top edge.
   */
  lemma DefaultPageLandmarks(offset: (real, real), color: string)
    ensures var page := DefaultPage([], offset, color);
      && page[0] == Circle(offset.0, offset.1, DOT_RADIUS, color)
      && page[475] == Rectangle(offset.0, offset.1, 55.0, 5.0, color)
      && page[476] == Rectangle(offset.0 + 55.0, offset.1, 10.0, 5.0, color)
      && page[477] == Rectangle(offset.0 + 65.0, offset.1, 25.0, 5.0, color)
  {
    var gs := QuadrantSettings(offset, color);
    var dots := GridDots(gs);
    assert [] + dots == dots;
    GridDotAt(gs, 0, 0);
  }

  /**
   Landmarks of a calendar quadrant's table at any offset: "Mon" 20mm right of
   and 14mm below the offset; the first row labelled "Art" at the left edge; the
   table's first box at (20mm, 15mm) and its last one at (80mm, 75mm) from the
   offset.
   */
  lemma CalendarPageLandmarks(offset: (real, real), color: string)
    ensures var page := CalendarPage([], offset, color);
      && page[478] == Text("Mon", offset.0 + 20.0, offset.1 + 14.0, color)
      && page[485] == Text("Art", offset.0, offset.1 + 19.0, color)
      && page[486] == Rectangle(offset.0 + 20.0, offset.1 + 15.0, 10.0, 5.0, color)
      && page[588] == Rectangle(offset.0 + 80.0, offset.1 + 75.0, 10.0, 5.0, color)
  {
    var gs := QuadrantSettings(offset, color);
    QuadrantFits(offset, color);
    DayLabelAt(gs, LABELS, 0);
    RowLabelAt(gs, LABELS, 0);
    CellBoxAt(gs, LABELS, 0, 0);
    CellBoxAt(gs, LABELS, 12, 6);
  }
}
