/**
 The physical constants of the page, the drawable primitives the layout emits,
 and the settings record threaded through every layout step of one quadrant.

 Lengths are exact millimetres (`real`); the program computes them in `f32`.
 A document is the ordered sequence of drawables added to it so far: every
 layout step only appends.
 */
module Drawing {

  /** Paper size (US Letter, portrait). */
  const PAPER_SIZE: (real, real) := (215.9, 279.4)
  /** Margin between the paper edge and a quadrant. */
  const OUTER_MARGINS: (real, real) := (10.0, 10.0)
  /** Half of the gutter kept free between neighbouring quadrants. */
  const INNER_MARGINS: (real, real) := (5.0, 5.0)
  /** Size of one lattice cell. */
  const CELL_SIZE: (real, real) := (5.0, 5.0)
  /** Distance between the two vertical cut lines. */
  const MID_SPLIT_WIDTH: real := 4.0

  /** Radius of a lattice dot. */
  const DOT_RADIUS: real := 0.25

  datatype Option<T> = None | Some(value: T)

  /**
   The four kinds of SVG element the layout emits, with the attributes that
   vary. Fixed styling is not carried: dots have stroke width 1, rectangles are
   unfilled with a 0.25mm stroke, lines have a 0.25mm stroke, and texts use a
   lighter 14px font.
   */
  datatype Drawable =
    | Circle(cx: real, cy: real, r: real, fill: string)
    | Rectangle(x: real, y: real, width: real, height: real, stroke: string)
    | Line(x1: real, y1: real, x2: real, y2: real, stroke: string)
    | Text(content: string, x: real, y: real, fill: string)

  type Document = seq<Drawable>

  /** What one quadrant is laid out with: its colour, top-left corner and size in cells. */
  datatype GridSettings = GridSettings(color: string, offset: (real, real), numCells: (nat, nat))

  /**
   A lattice dot of the given colour centred at (cx, cy): a filled circle of
   radius DOT_RADIUS, whose outline lies in the square of side 2 * DOT_RADIUS
   around its centre.
   */
  function Dot(color: string, cx: real, cy: real): (d: Drawable)
    ensures KindOf(d) == DotKind && d.fill == color && (d.cx, d.cy) == (cx, cy)
    ensures d.r == DOT_RADIUS
    ensures Within(d, cx - DOT_RADIUS, cy - DOT_RADIUS, cx + DOT_RADIUS, cy + DOT_RADIUS)
  {
    Circle(cx, cy, DOT_RADIUS, color)
  }

  /** Smallest integer not below x, as `f32::ceil` computes it on exact values. */
  function Ceil(x: real): (n: int)
    ensures n as real - 1.0 < x <= n as real
  {
    if x.Floor as real == x then x.Floor else x.Floor + 1
  }

  /** Largest `usize` on a 64-bit target. */
  const USIZE_MAX: nat := 0xFFFF_FFFF_FFFF_FFFF

  /**
   A float-to-`usize` cast of an integral value: it saturates into
   [0, USIZE_MAX], so values in range are kept and others go to the nearest bound.
   */
  function ToUsize(n: int): (u: nat)
    ensures u <= USIZE_MAX
    ensures 0 <= n <= USIZE_MAX ==> u == n
    ensures n < 0 ==> u == 0
    ensures n > USIZE_MAX ==> u == USIZE_MAX
  {
    if n < 0 then 0 else if n > USIZE_MAX then USIZE_MAX else n
  }

  /** Subtraction on `usize`, which panics (None) instead of going below zero. */
  function UsizeSub(a: nat, b: nat): (r: Option<nat>)
    ensures r.Some? <==> b <= a
    ensures r.Some? ==> r.value + b == a
  {
    if b <= a then Some(a - b) else None
  }

  datatype Kind = DotKind | RectKind | LineKind | TextKind

  function KindOf(d: Drawable): Kind
  {
    match d
    case Circle(_, _, _, _) => DotKind
    case Rectangle(_, _, _, _, _) => RectKind
    case Line(_, _, _, _, _) => LineKind
    case Text(_, _, _, _) => TextKind
  }

  /** The number of drawables of kind k in doc. */
  function Count(doc: Document, k: Kind): nat
  {
    if doc == [] then 0
    else Count(doc[..|doc| - 1], k) + (if KindOf(doc[|doc| - 1]) == k then 1 else 0)
  }

  /** Counting distributes over appending one document to another. */
  lemma {:induction false} CountAppend(a: Document, b: Document, k: Kind)
    ensures Count(a + b, k) == Count(a, k) + Count(b, k)
  {
    if b != [] {
      var last := |b| - 1;
      assert (a + b)[..|a + b| - 1] == a + b[..last];
      assert (a + b)[|a + b| - 1] == b[last];
      CountAppend(a, b[..last], k);
    } else {
      assert a + b == a;
    }
  }

  /**
   The outline of d lies in the rectangle [left, right] x [top, bottom]; the
   stroke painted around the outline is not counted. A text is judged by its
   anchor point only: glyph extents depend on the font.
   */
  ghost predicate Within(d: Drawable, left: real, top: real, right: real, bottom: real)
  {
    match d
    case Circle(cx, cy, r, _) =>
      left <= cx - r && cx + r <= right && top <= cy - r && cy + r <= bottom
    case Rectangle(x, y, w, h, _) =>
      0.0 <= w && 0.0 <= h && left <= x && x + w <= right && top <= y && y + h <= bottom
    case Line(x1, y1, x2, y2, _) =>
      left <= x1 <= right && left <= x2 <= right && top <= y1 <= bottom && top <= y2 <= bottom
    case Text(_, x, y, _) =>
      left <= x <= right && top <= y <= bottom
  }

  /** Appending element i of s to d + s[..i] gives d + s[..i + 1]. */
  lemma AppendNext<T>(d: seq<T>, s: seq<T>, i: nat)
    requires i < |s|
    ensures d + s[..i] + [s[i]] == d + s[..i + 1]
  {
    assert s[..i + 1] == s[..i] + [s[i]];
  }

  /** The prefix of s as long as s is s itself. */
  lemma AppendAll<T>(d: seq<T>, s: seq<T>)
    ensures d + s[..|s|] == d + s
  {
    assert s[..|s|] == s;
  }

  lemma AppendAssoc<T>(a: seq<T>, b: seq<T>, c: seq<T>)
    ensures (a + b) + c == a + (b + c)
  {
  }

  /** A single drawable counts once, under its own kind. */
  lemma CountOne(d: Drawable, k: Kind)
    ensures Count([d], k) == if KindOf(d) == k then 1 else 0
  {
    assert [d][..0] == [];
  }

  /** A box inside a larger box: whatever is within the first is within the second. */
  lemma WithinWider(d: Drawable, left: real, top: real, right: real, bottom: real,
                    left': real, top': real, right': real, bottom': real)
    requires Within(d, left, top, right, bottom)
    requires left' <= left && top' <= top && right <= right' && bottom <= bottom'
    ensures Within(d, left', top', right', bottom')
  {
  }
}
