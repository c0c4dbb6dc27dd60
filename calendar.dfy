/**
 The calendar overlay: a table of day columns, each two cells wide, by
 labelled rows, anchored one cell in from the quadrant's right edge and three
 cells below its top. Day labels come first; then, row by row, the row's label
 followed by its boxes. The program draws seven days by thirteen rows (LABELS);
 the layout is stated for any label lists.
 */
module CalendarOverlay {
  import opened Drawing

  /** Width of one day column, in cells. */
  const BOX_WIDTH: real := 2.0

  /** The day names heading the columns and the labels of the rows, top to bottom. */
  datatype TableLabels = TableLabels(days: seq<string>, rows: seq<string>)

  /** The labels the program draws. */
  const DAYS: seq<string> := ["Mon", "Tue", "Wed", "Thu", "Fri", "Sat", "Sun"]
  const ROW_LABELS: seq<string> := [
    "Art", "Brush Teeth", "Chores", "Dread", "Entropy", "Flee",
    "Grand", "Immediate", "", "", "", "", ""
  ]
  const LABELS: TableLabels := TableLabels(DAYS, ROW_LABELS)

  /**
   The table's first column, counted in cells from the quadrant's left edge:
   `cols - 2 * days - 1` in `usize` arithmetic, which underflows (None) unless
   cols >= 2 * days + 1.
   */
  function StartColumn(cols: nat, dayCount: nat): (r: Option<nat>)
    ensures r.Some? <==> cols >= 2 * dayCount + 1
    ensures r.Some? ==> r.value + 2 * dayCount + 1 == cols
  {
    match UsizeSub(cols, 2 * dayCount)
    case None => None
    case Some(c) => UsizeSub(c, 1)
  }

  /** The table has room: the subtraction in StartColumn does not underflow. */
  predicate Fits(gs: GridSettings, t: TableLabels)
  {
    StartColumn(gs.numCells.0, |t.days|).Some?
  }

  /**
   Top-left corner of the table's first box: three cells below the quadrant's
   top, and far enough right that the day columns and one cell of margin end
   exactly cols cells from the offset.
   */
  function StartCell(gs: GridSettings, t: TableLabels): (cell: (real, real))
    requires Fits(gs, t)
    ensures cell.0 + (2 * |t.days| + 1) as real * CELL_SIZE.0 == gs.offset.0 + gs.numCells.0 as real * CELL_SIZE.0
    ensures cell.1 == gs.offset.1 + 3.0 * CELL_SIZE.1
  {
    (CELL_SIZE.0 * (StartColumn(gs.numCells.0, |t.days|).value as real) + gs.offset.0,
     CELL_SIZE.1 * 3.0 + gs.offset.1)
  }

  /** The name of day c, written just above its column. */
  function DayLabel(gs: GridSettings, t: TableLabels, c: nat): Drawable
    requires Fits(gs, t) && c < |t.days|
  {
    Text(t.days[c], StartCell(gs, t).0 + CELL_SIZE.0 * BOX_WIDTH * (c as real), StartCell(gs, t).1 - 1.0, gs.color)
  }

  /** The label of row r, at the quadrant's left edge just above the row's bottom. */
  function RowLabel(gs: GridSettings, t: TableLabels, r: nat): Drawable
    requires Fits(gs, t) && r < |t.rows|
  {
    Text(t.rows[r], gs.offset.0, StartCell(gs, t).1 + CELL_SIZE.1 * ((r + 1) as real) - 1.0, gs.color)
  }

  /** The box of row r, day c. */
  function CellBox(gs: GridSettings, t: TableLabels, r: nat, c: nat): Drawable
    requires Fits(gs, t)
  {
    Rectangle(StartCell(gs, t).0 + CELL_SIZE.0 * BOX_WIDTH * (c as real), StartCell(gs, t).1 + CELL_SIZE.1 * (r as real),
              BOX_WIDTH * CELL_SIZE.0, CELL_SIZE.1, gs.color)
  }

  function DayLabels(gs: GridSettings, t: TableLabels): (labels: seq<Drawable>)
    requires Fits(gs, t)
    ensures |labels| == |t.days|
    ensures forall c :: 0 <= c < |t.days| ==> labels[c] == DayLabel(gs, t, c)
  {
    seq(|t.days|, c requires 0 <= c < |t.days| => DayLabel(gs, t, c))
  }

  /** Row r of the table: its label, then its boxes from the first day to the last. */
  function TableRow(gs: GridSettings, t: TableLabels, r: nat): (row: seq<Drawable>)
    requires Fits(gs, t) && r < |t.rows|
    ensures |row| == |t.days| + 1
    ensures row[0] == RowLabel(gs, t, r)
  {
    [RowLabel(gs, t, r)] + seq(|t.days|, c requires 0 <= c => CellBox(gs, t, r, c))
  }

  /** The box of day c follows the row's label, in day order. */
  lemma RowBoxAt(gs: GridSettings, t: TableLabels, r: nat, c: nat)
    requires Fits(gs, t) && r < |t.rows| && c < |t.days|
    ensures TableRow(gs, t, r)[c + 1] == CellBox(gs, t, r, c)
  {
  }

  /** The first n rows of the table, top to bottom. */
  function TableRows(gs: GridSettings, t: TableLabels, n: nat): seq<Drawable>
    requires Fits(gs, t) && n <= |t.rows|
  {
    if n == 0 then [] else TableRows(gs, t, n - 1) + TableRow(gs, t, n - 1)
  }

  /** Each row is one label and one box per day. */
  lemma {:induction false} TableRowsLength(gs: GridSettings, t: TableLabels, n: nat)
    requires Fits(gs, t) && n <= |t.rows|
    ensures |TableRows(gs, t, n)| == n * (|t.days| + 1)
  {
    if n > 0 {
      TableRowsLength(gs, t, n - 1);
      assert (n - 1) * (|t.days| + 1) + |t.days| + 1 == n * (|t.days| + 1);
    }
  }

  /** Everything `calendar` appends to a document. */
  function CalendarItems(gs: GridSettings, t: TableLabels): (items: seq<Drawable>)
    requires Fits(gs, t)
    ensures |items| == |t.days| + |t.rows| * (|t.days| + 1)
  {
    TableRowsLength(gs, t, |t.rows|);
    DayLabels(gs, t) + TableRows(gs, t, |t.rows|)
  }

  /** Index of the label of row r among the calendar's items. */
  function RowStart(t: TableLabels, r: nat): nat
  {
    |t.days| + r * (|t.days| + 1)
  }

  /** Appends the calendar table of gs, labelled by t, to doc. */
  method Calendar(doc: Document, gs: GridSettings, t: TableLabels) returns (newDoc: Document)
    requires Fits(gs, t)
    ensures newDoc == doc + CalendarItems(gs, t)
  {
    var days, rows := t.days, t.rows;
    var startCell := StartCell(gs, t);
    newDoc := doc;
    for c := 0 to |days|
      invariant newDoc == doc + DayLabels(gs, t)[..c]
    {
      var dayLabel := Text(days[c], startCell.0 + CELL_SIZE.0 * BOX_WIDTH * (c as real), startCell.1 - 1.0, gs.color);
      AppendNext(doc, DayLabels(gs, t), c);
      newDoc := newDoc + [dayLabel];
    }
    AppendAll(doc, DayLabels(gs, t));
    ghost var labelled := newDoc;
    for r := 0 to |rows|
      invariant newDoc == labelled + TableRows(gs, t, r)
    {
      newDoc := AddTableRow(newDoc, gs, t, r);
    }
    AppendAssoc(doc, DayLabels(gs, t), TableRows(gs, t, |rows|));
  }

  /** One pass of `calendar`'s row loop: the label of row r, then its boxes day by day. */
  method AddTableRow(doc: Document, gs: GridSettings, t: TableLabels, r: nat) returns (newDoc: Document)
    requires Fits(gs, t) && r < |t.rows|
    ensures newDoc == doc + TableRow(gs, t, r)
  {
    var startCell := StartCell(gs, t);
    var rowLabel := Text(t.rows[r], gs.offset.0, startCell.1 + CELL_SIZE.1 * ((r + 1) as real) - 1.0, gs.color);
    AppendNext(doc, TableRow(gs, t, r), 0);
    newDoc := doc + [rowLabel];
    for c := 0 to |t.days|
      invariant newDoc == doc + TableRow(gs, t, r)[..c + 1]
    {
      var box := Rectangle(startCell.0 + CELL_SIZE.0 * BOX_WIDTH * (c as real), startCell.1 + CELL_SIZE.1 * (r as real),
                           BOX_WIDTH * CELL_SIZE.0, CELL_SIZE.1, gs.color);
      RowBoxAt(gs, t, r, c);
      AppendNext(doc, TableRow(gs, t, r), c + 1);
      newDoc := newDoc + [box];
    }
    AppendAll(doc, TableRow(gs, t, r));
  }

  /** Element m of row r sits at index r * (days + 1) + m of the first n rows. */
  lemma {:induction false} TableRowsAt(gs: GridSettings, t: TableLabels, n: nat, r: nat, m: nat)
    requires Fits(gs, t) && r < n <= |t.rows| && m <= |t.days|
    ensures r * (|t.days| + 1) + m < |TableRows(gs, t, n)|
    ensures TableRows(gs, t, n)[r * (|t.days| + 1) + m] == TableRow(gs, t, r)[m]
  {
    TableRowsLength(gs, t, n - 1);
    if r < n - 1 {
      TableRowsAt(gs, t, n - 1, r, m);
    }
  }

  /** Element m of row r is element RowStart(t, r) + m of the whole table. */
  lemma TableItemAt(gs: GridSettings, t: TableLabels, r: nat, m: nat)
    requires Fits(gs, t) && r < |t.rows| && m <= |t.days|
    ensures var items, i := CalendarItems(gs, t), RowStart(t, r) + m;
      i < |items| && items[i] == TableRow(gs, t, r)[m]
  {
    TableRowsAt(gs, t, |t.rows|, r, m);
  }

  /** Day label c is element c, at (start.x + 2c cells, start.y - 1mm). */
  lemma DayLabelAt(gs: GridSettings, t: TableLabels, c: nat)
    requires Fits(gs, t) && c < |t.days|
    ensures var items, start := CalendarItems(gs, t), StartCell(gs, t);
      items[c] == Text(t.days[c], start.0 + 2.0 * (c as real) * CELL_SIZE.0, start.1 - 1.0, gs.color)
  {
  }

  /**
   The label of row r is element days + r * (days + 1), at the quadrant's left
   edge, 1mm above the bottom of the row.
   */
  lemma RowLabelAt(gs: GridSettings, t: TableLabels, r: nat)
    requires Fits(gs, t) && r < |t.rows|
    ensures var items, start := CalendarItems(gs, t), StartCell(gs, t);
      var i := |t.days| + r * (|t.days| + 1);
      i < |items| && items[i] == Text(t.rows[r], gs.offset.0, start.1 + ((r + 1) as real) * CELL_SIZE.1 - 1.0, gs.color)
  {
    TableItemAt(gs, t, r, 0);
  }

  /**
   The box of row r, day c follows the row's label at index
   days + r * (days + 1) + 1 + c; it is two cells by one, at
   (start.x + 2c cells, start.y + r cells).
   */
  lemma CellBoxAt(gs: GridSettings, t: TableLabels, r: nat, c: nat)
    requires Fits(gs, t) && r < |t.rows| && c < |t.days|
    ensures var items, start := CalendarItems(gs, t), StartCell(gs, t);
      var i := |t.days| + r * (|t.days| + 1) + 1 + c;
      i < |items|
      && items[i] == Rectangle(start.0 + 2.0 * (c as real) * CELL_SIZE.0, start.1 + (r as real) * CELL_SIZE.1,
                               2.0 * CELL_SIZE.0, CELL_SIZE.1, gs.color)
  {
    TableItemAt(gs, t, r, c + 1);
    RowBoxAt(gs, t, r, c);
  }

  /**
   Neighbouring boxes share an edge: a box's right edge is the next day's left
   edge, and its bottom edge is the top edge of the box below.
   */
  lemma CalendarBoxesAbut(gs: GridSettings, t: TableLabels, r: nat, c: nat)
    requires Fits(gs, t) && r + 1 < |t.rows| && c + 1 < |t.days|
    ensures var items, w := CalendarItems(gs, t), |t.days| + 1;
      var i := |t.days| + r * w + 1 + c;
      && i + w < |items|
      && items[i].Rectangle? && items[i + 1].Rectangle? && items[i + w].Rectangle?
      && items[i].x + items[i].width == items[i + 1].x && items[i].y == items[i + 1].y
      && items[i].y + items[i].height == items[i + w].y && items[i].x == items[i + w].x
  {
    var w := |t.days| + 1;
    CellBoxAt(gs, t, r, c);
    CellBoxAt(gs, t, r, c + 1);
    CellBoxAt(gs, t, r + 1, c);
    assert |t.days| + (r + 1) * w + 1 + c == |t.days| + r * w + 1 + c + w;
  }

  /** How many drawables of kind k one table row holds: its label and one box per day. */
  function RowShare(t: TableLabels, k: Kind): nat
  {
    if k == TextKind then 1 else if k == RectKind then |t.days| else 0
  }

  /** The first n rows hold n labels and n boxes per day. */
  lemma {:induction false} TableRowsCount(gs: GridSettings, t: TableLabels, n: nat, k: Kind)
    requires Fits(gs, t) && n <= |t.rows|
    ensures Count(TableRows(gs, t, n), k) == n * RowShare(t, k)
  {
    if n > 0 {
      TableRowsCount(gs, t, n - 1, k);
      RowTotal(gs, t, n - 1, k);
      CountRows(TableRows(gs, t, n - 1), TableRow(gs, t, n - 1), k, n, RowShare(t, k));
    }
  }

  /** Appending a row of s elements of kind k to n - 1 such rows gives n of them. */
  lemma CountRows(front: Document, row: Document, k: Kind, n: nat, s: nat)
    requires 0 < n && Count(front, k) == (n - 1) * s && Count(row, k) == s
    ensures Count(front + row, k) == n * s
  {
    CountAppend(front, row, k);
    assert (n - 1) * s + s == n * s;
  }

  /** A whole row: one label and one box per day. */
  lemma RowTotal(gs: GridSettings, t: TableLabels, r: nat, k: Kind)
    requires Fits(gs, t) && r < |t.rows|
    ensures Count(TableRow(gs, t, r), k) == RowShare(t, k)
  {
    RowCount(gs, t, r, |t.days| + 1, k);
    assert TableRow(gs, t, r)[..|t.days| + 1] == TableRow(gs, t, r);
  }

  /** The first m elements of a row: its label and m - 1 boxes. */
  lemma {:induction false} RowCount(gs: GridSettings, t: TableLabels, r: nat, m: nat, k: Kind)
    requires Fits(gs, t) && r < |t.rows| && 0 < m <= |t.days| + 1
    ensures Count(TableRow(gs, t, r)[..m], k)
         == if k == TextKind then 1 else if k == RectKind then m - 1 else 0
  {
    if m > 1 {
      RowCount(gs, t, r, m - 1, k);
      RowBoxAt(gs, t, r, m - 2);
      assert TableRow(gs, t, r)[..m][..m - 1] == TableRow(gs, t, r)[..m - 1];
    } else {
      assert TableRow(gs, t, r)[..m][..0] == [];
    }
  }

  /** The first m day labels are m texts. */
  lemma {:induction false} DayLabelsCount(gs: GridSettings, t: TableLabels, m: nat, k: Kind)
    requires Fits(gs, t) && m <= |t.days|
    ensures Count(DayLabels(gs, t)[..m], k) == if k == TextKind then m else 0
  {
    if m > 0 {
      DayLabelsCount(gs, t, m - 1, k);
      assert DayLabels(gs, t)[..m][..m - 1] == DayLabels(gs, t)[..m - 1];
    }
  }

  /** How many of the calendar's drawables are of kind k. */
  lemma CalendarCountOf(gs: GridSettings, t: TableLabels, k: Kind)
    requires Fits(gs, t)
    ensures Count(CalendarItems(gs, t), k) == (if k == TextKind then |t.days| else 0) + |t.rows| * RowShare(t, k)
  {
    var labels, rows := DayLabels(gs, t), TableRows(gs, t, |t.rows|);
    DayLabelsCount(gs, t, |t.days|, k);
    assert labels[..|t.days|] == labels;
    TableRowsCount(gs, t, |t.rows|, k);
    CountAppend(labels, rows, k);
  }

  /**
   `calendar` appends days + rows texts (the day and row labels) and
   days * rows boxes, and nothing else.
   */
  lemma CalendarCount(gs: GridSettings, t: TableLabels)
    requires Fits(gs, t)
    ensures Count(CalendarItems(gs, t), TextKind) == |t.days| + |t.rows|
    ensures Count(CalendarItems(gs, t), RectKind) == |t.rows| * |t.days|
    ensures Count(CalendarItems(gs, t), DotKind) == 0
    ensures Count(CalendarItems(gs, t), LineKind) == 0
  {
    assert RowShare(t, RectKind) == |t.days|;
    CalendarCountOf(gs, t, TextKind);
    CalendarCountOf(gs, t, RectKind);
    CalendarCountOf(gs, t, DotKind);
    CalendarCountOf(gs, t, LineKind);
  }

  /**
   The last day's box of every row ends at the lattice's last dot column,
   cols - 1 cells from the offset: the table is right-aligned against the
   header's right box.
   */
  lemma CalendarRightEdge(gs: GridSettings, t: TableLabels, r: nat)
    requires Fits(gs, t) && r < |t.rows| && 0 < |t.days|
    ensures var box := CellBox(gs, t, r, |t.days| - 1);
      box.x + box.width == gs.offset.0 + (gs.numCells.0 as real - 1.0) * CELL_SIZE.0
  {
  }

  /** The rectangle the table occupies: from the quadrant's corner to the lattice's last dot column, down to the last row. */
  ghost predicate InTable(gs: GridSettings, t: TableLabels, d: Drawable)
  {
    Within(d, gs.offset.0, gs.offset.1,
           gs.offset.0 + (gs.numCells.0 as real - 1.0) * CELL_SIZE.0,
           gs.offset.1 + ((|t.rows| + 3) as real) * CELL_SIZE.1)
  }

  /** Every element of the first n rows lies inside the table's rectangle. */
  lemma {:induction false} TableRowsWithin(gs: GridSettings, t: TableLabels, n: nat)
    requires Fits(gs, t) && n <= |t.rows|
    ensures forall d :: d in TableRows(gs, t, n) ==> InTable(gs, t, d)
  {
    if n > 0 {
      TableRowsWithin(gs, t, n - 1);
      var r := n - 1;
      var sc := StartColumn(gs.numCells.0, |t.days|).value;
      forall c | 0 <= c < |t.days|
        ensures InTable(gs, t, CellBox(gs, t, r, c))
      {
        assert sc as real + 2.0 * (c as real) + 2.0 <= gs.numCells.0 as real - 1.0;
      }
      forall d | d in TableRow(gs, t, r)
        ensures InTable(gs, t, d)
      {
        var i :| 0 <= i < |t.days| + 1 && TableRow(gs, t, r)[i] == d;
        if i > 0 {
          RowBoxAt(gs, t, r, i - 1);
        }
      }
    }
  }

  /**
   Everything `calendar` draws lies between the quadrant's offset and its last
   lattice column, above the bottom of the table's last row; texts are judged by
   their anchor.
   */
  lemma CalendarWithin(gs: GridSettings, t: TableLabels)
    requires Fits(gs, t)
    ensures forall d :: d in CalendarItems(gs, t) ==> InTable(gs, t, d)
  {
    TableRowsWithin(gs, t, |t.rows|);
    var sc := StartColumn(gs.numCells.0, |t.days|).value;
    forall c | 0 <= c < |t.days|
      ensures InTable(gs, t, DayLabel(gs, t, c))
    {
      assert sc as real + 2.0 * (c as real) <= gs.numCells.0 as real - 1.0;
    }
  }
}
