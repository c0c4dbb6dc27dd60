# GridPaper layout engine, modelled in Dafny

GridPaper builds printable SVG sheets. A sheet is split into four quadrants.
Each quadrant holds a dot grid with a three-box header strip, optionally
overlaid by a weekly calendar / habit-tracker table. Guide lines for cutting the
sheet apart come last. This project models the layout engine of `src/main.rs`:
the layout constants, `dot`, `GridSettings`, and the `GridPaper` builder steps
`grid`, `header`, `calendar`, `default_page`, `calendar_page`, `cut_lines`,
`full_default_page` and `full_calendar_page`. Every step only appends
drawables, so it is modelled as `doc + appended`.

Modules:

- `Drawing` (`drawing.dfy`):
  - the constants;
  - `Drawable`: circle, rectangle, line and text, with the attributes that vary;
  - `Document` as a sequence of drawables;
  - `GridSettings`;
  - the `f32::ceil`, `as usize` and checked `usize` subtraction the layout relies on;
  - `Count`, the number of drawables of one kind;
  - `Within`, a bounding-box predicate.
- `GridTiler` (`grid.dfy`): `grid`. It is a method with the source's nested loops, proved to append `GridDots`, the lattice taken column by column.
- `HeaderLayout` (`header.dfy`): `header`. It is a function appending the three boxes.
- `CalendarOverlay` (`calendar.dfy`): `calendar`. It is a method with the source's day loop and row loop (the row body is `AddTableRow`), proved to append `CalendarItems`. The day names and row labels are a `TableLabels` value, and `LABELS` holds the program's own lists. Every layout fact is stated for any lists.
- `PageComposer` (`pages.dfy`):
  - the quadrant size;
  - `default_page` and `calendar_page`;
  - `cut_lines`;
  - the two full pages;
  - the quadrant offsets (`Quadrant`, `Corner`).

Lengths are exact millimetres (`real`). The program computes them in `f32`.

Facts about the code worth knowing when reading the model:

- The sheet is 215.9 by 279.4 mm (US Letter).
- The header's right box ends (cols - 1) cells from the offset, at the
  lattice's last dot column.
- Documents are created with no viewport.

## Model

| member | source | states |
|---|---|---|
| Drawing.Dot | src/main.rs:15-20 | a dot is a 0.25mm circle of the given colour centred on the given point, its outline inside the square of side 0.5mm around it |
| Drawing.Ceil | src/main.rs:96-99 | the result is the least integer not below x (`f32::ceil` on exact values) |
| GridTiler.Grid | src/main.rs:75-93 | the new document is the old one followed by the whole lattice `GridDots`, so the old document is an unchanged prefix |
| GridTiler.AddColumn | src/main.rs:79-89 | one pass of the outer loop appends lattice column x, top to bottom |
| GridTiler.GridColumnsAt | src/main.rs:78-88 | lattice point (x, y) of the first n columns is element x * rows + y |
| GridTiler.GridDotAt | src/main.rs:78-88 | `grid` appends cols * rows drawables; the one at index x * rows + y is a 0.25mm dot of the quadrant's colour centred at offset + (x, y) cells (the `dot` of src/main.rs:15-20) |
| GridTiler.GridFirstDot | src/main.rs:80-83 | the first dot sits exactly at the offset |
| GridTiler.GridColumnsWithin | src/main.rs:78-88 | every element of the first n columns is a dot of the quadrant's colour inside the lattice rectangle widened by the dot radius |
| GridTiler.GridWithin | src/main.rs:75-93 | every drawable `grid` appends is a dot of the quadrant's colour inside the lattice rectangle widened by the dot radius |
| GridTiler.GridColumnsCount | src/main.rs:78-90 | the first n columns hold n * rows dots and nothing else |
| GridTiler.ColumnCount | src/main.rs:79-89 | the first m dots of a column are m dots and nothing else |
| GridTiler.GridCount | src/main.rs:75-93 | `grid` appends exactly cols * rows drawables, all dots: no rectangle, line or text |
| HeaderLayout.LeftBoxWidth | src/main.rs:43 | the left box width is non-negative iff there are at least 8 columns; left + mid + right + one margin cell make up all columns |
| HeaderLayout.Header | src/main.rs:40-72 | three rectangles are appended to an unchanged prefix. They are one cell high on the quadrant's top edge and in its colour. The left one starts at the offset and each next one starts where the previous ends. Their widths are cols - 8, 2 and 5 cells, together (cols - 1) cells, so the right box ends at the lattice's last dot column, cols - 1 cells from the offset. The left width is non-negative iff cols >= 8 |
| HeaderLayout.HeaderCount | src/main.rs:45-72 | the header adds exactly three rectangles and nothing else |
| HeaderLayout.HeaderWithin | src/main.rs:40-72 | with at least 8 columns the three boxes lie in the top cell row between the offset and the lattice's last dot column, cols - 1 cells from the offset |
| CalendarOverlay.StartColumn | src/main.rs:115 | the table's first column `cols - 2 * days - 1` exists (no `usize` underflow) exactly when cols >= 2 * days + 1, and then the table plus one margin cell ends at cols |
| CalendarOverlay.StartCell | src/main.rs:114-117 | the table starts three cells below the top, and its days plus one margin cell end exactly cols cells from the offset |
| CalendarOverlay.RowBoxAt | src/main.rs:140-151 | the box of day c is element c + 1 of its row |
| CalendarOverlay.TableRowsLength | src/main.rs:133-152 | n rows are n * (days + 1) drawables |
| CalendarOverlay.CalendarItems | src/main.rs:123-152 | `calendar` appends days + rows * (days + 1) drawables |
| CalendarOverlay.Calendar | src/main.rs:109-155 | where the table fits, the new document is the old one followed by the day labels and then the rows, in the source's loop order |
| CalendarOverlay.AddTableRow | src/main.rs:133-151 | one pass of the row loop appends the row's label, then its boxes day by day |
| CalendarOverlay.TableRowsAt | src/main.rs:133-152 | element m of row r is element r * (days + 1) + m of the first n rows |
| CalendarOverlay.TableItemAt | src/main.rs:123-152 | element m of row r is element days + r * (days + 1) + m of the calendar |
| CalendarOverlay.DayLabelAt | src/main.rs:123-129 | day label c is element c, the day's name at (start.x + 2c cells, start.y - 1mm) |
| CalendarOverlay.RowLabelAt | src/main.rs:133-139 | the label of row r is element days + r * (days + 1), at the quadrant's left edge 1mm above the row's bottom |
| CalendarOverlay.CellBoxAt | src/main.rs:140-150 | box (r, c) is element days + r * (days + 1) + 1 + c, two cells by one at (start.x + 2c cells, start.y + r cells) in the quadrant's colour |
| CalendarOverlay.CalendarBoxesAbut | src/main.rs:140-150 | a box's right edge is the next day's left edge, and its bottom edge is the top of the box below |
| CalendarOverlay.TableRowsCount | src/main.rs:133-152 | n rows hold n labels (texts) and n * days boxes, and nothing else |
| CalendarOverlay.RowTotal | src/main.rs:133-151 | a whole row holds one text and days rectangles |
| CalendarOverlay.RowCount | src/main.rs:133-151 | the first m elements of a row are one text and m - 1 rectangles |
| CalendarOverlay.DayLabelsCount | src/main.rs:123-131 | the first m day labels are m texts |
| CalendarOverlay.CalendarCountOf | src/main.rs:109-155 | the calendar's count of each kind is its days' labels plus rows times a row's share |
| CalendarOverlay.CalendarCount | src/main.rs:109-155 | `calendar` appends days + rows texts and rows * days rectangles, and no dot or line (20 and 91 for the program's labels) |
| CalendarOverlay.CalendarRightEdge | src/main.rs:145 | the last day's box of every row ends at offset.x + (cols - 1) cells, the same x as the header's right box |
| CalendarOverlay.TableRowsWithin | src/main.rs:133-152 | every element of the first n rows lies between the offset and the lattice's last dot column, cols - 1 cells from the offset, above the bottom of the table's last row |
| CalendarOverlay.CalendarWithin | src/main.rs:109-155 | everything `calendar` draws lies between the offset and the lattice's last dot column, cols - 1 cells from the offset, above the bottom of its last row |
| PageComposer.QuadrantCells | src/main.rs:96-99 | a quadrant is the fewest whole cells covering half the paper less both margins, on each axis: 19 by 25 |
| PageComposer.QuadrantSettings | src/main.rs:101-103 | both page kinds lay a quadrant out at the given offset and colour with 19 by 25 cells, enough for a non-negative header width and for the calendar table without `usize` underflow |
| PageComposer.QuadrantFits | src/main.rs:158-161 | the program's 7 days and 13 rows fit a 19-column quadrant, with the table starting at column 4 |
| PageComposer.DefaultPage | src/main.rs:95-107 | a default quadrant appends 19 * 25 + 3 drawables to an unchanged prefix |
| PageComposer.CalendarPage | src/main.rs:157-170 | a calendar quadrant is a default quadrant followed by the 111 calendar drawables |
| PageComposer.CutLines | src/main.rs:172-198 | three lines in the page colour are appended to an unchanged prefix. Two are vertical, span the full height, lie MID_SPLIT_WIDTH apart and are centred on the paper's middle. The third is horizontal at half height and spans the full width |
| PageComposer.Corner | src/main.rs:200-214 | the four quadrant offsets are (10, 10), (114.95, 10), (10, 149.7) and (114.95, 149.7), top left to bottom right |
| PageComposer.FullDefaultPage | src/main.rs:208-214 | a full default page appends 4 * 478 + 3 drawables to an unchanged prefix |
| PageComposer.FullCalendarPage | src/main.rs:200-206 | a full calendar page appends 4 * 589 + 3 drawables to an unchanged prefix |
| PageComposer.DefaultPageAppends | src/main.rs:95-107 | what a default quadrant draws does not depend on the document it is drawn onto |
| PageComposer.CalendarPageAppends | src/main.rs:157-170 | what a calendar quadrant draws does not depend on the document it is drawn onto |
| PageComposer.FullDefaultPageLayout | src/main.rs:208-214 | a full default page is the quadrants top left, top right, bottom left, bottom right, then the cut lines |
| PageComposer.FullCalendarPageLayout | src/main.rs:200-206 | a full calendar page is the four calendar quadrants in the same order, then the cut lines |
| PageComposer.DefaultPageCount | src/main.rs:95-107 | a default quadrant is 475 dots and 3 rectangles |
| PageComposer.CalendarPageCount | src/main.rs:157-170 | a calendar quadrant is 475 dots, 94 rectangles and 20 texts |
| PageComposer.CutLinesCount | src/main.rs:172-198 | the cut lines are three lines and nothing else |
| PageComposer.FullDefaultPageCount | src/main.rs:208-214 | a full default page is 1900 dots, 12 rectangles and 3 lines |
| PageComposer.FullCalendarPageCount | src/main.rs:200-206 | a full calendar page is 1900 dots, 376 rectangles, 80 texts and 3 lines |
| PageComposer.DefaultPageExtent | src/main.rs:95-107 | a default quadrant stays within 18 by 24 cells of its offset, widened by the dot radius |
| PageComposer.QuadrantExtent | src/main.rs:157-170 | a calendar quadrant stays within the same rectangle: the table ends 16 cells down |
| PageComposer.Region | src/main.rs:172-198 | each quadrant's region is a non-empty rectangle bounded by the paper's edges and the cut lines |
| PageComposer.QuadrantsInCorners | src/main.rs:200-214 | no quadrant, default or calendar, crosses a cut line or the paper's edge at any of the four offsets |
| PageComposer.HeaderMeetsCalendar | src/main.rs:67 | in a calendar quadrant, the header's right box and every row's last box end at the same x, offset.x + 18 cells |
| PageComposer.DefaultPageLandmarks | src/main.rs:95-107 | in a default quadrant at any offset, the first dot is on the offset and the header boxes are 55, 10 and 25mm wide at offset.x, + 55 and + 65 |
| PageComposer.CalendarPageLandmarks | src/main.rs:157-170 | in a calendar quadrant, "Mon" is at offset + (20, 14)mm and "Art" at offset + (0, 19)mm; the first box is at offset + (20, 15)mm and the last at offset + (80, 75)mm, each 10 by 5mm |

## Left out

- `mm` formatting of numbers into `"<x>mm"` strings is not modelled. Coordinates are exact reals.
- The float-to-`usize` cast of the cell counts saturates into [0, `usize::MAX`] (64-bit) as in Rust; NaN, which the cast turns into 0, cannot arise from exact reals and is not modelled.
- `f32` rounding is not modelled. Every length is exact. For example, 215.9 / 2 - 2 is exactly 105.95 here.
- The `svg` crate is abstracted. `Document::add` becomes appending to a sequence. The element attribute maps become the `Drawable` constructors. Styling that never varies is not carried: stroke widths, `fill: none`, and the text style string apart from its colour.
- `main` is not modelled: the file names, `svg::save` and `.expect` are I/O.
- Document metadata is not modelled. The program creates its documents with `Document::new()` and sets no viewport.
- Text extents depend on the font, so `Within` judges a text by its anchor point only.
- Stroke widths (1 on dots, 0.25mm on boxes and lines) are not modelled. `Within` and the extent lemmas bound the outlines, and the stroke paints up to half its width outside them.
- CalendarOverlay.Calendar: a quadrant narrower than 2 * days + 1 columns makes the `usize` subtraction underflow. That panics in a debug build and wraps in a release build. The model requires the table to fit (`Fits`) and does not model the release-build wrap-around.
- The calendar's day names and row labels are a parameter (`TableLabels`). `LABELS` holds the program's own 7 days and 13 rows, and the page functions use it.
