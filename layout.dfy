/**
 * Grid geometry of composeMontage: the canvas size and the top-left corner
 * of every thumbnail, placed row by row.
 */
module Layout {
  import opened GoInt

  datatype Grid = Grid(
    columns: int, rows: int,
    thumbWidth: int, thumbHeight: int,
    padding: int, margin: int, header: int)

  datatype Point = Point(x: int, y: int)

  function GridWidth(g: Grid): int {
    g.columns * g.thumbWidth + (g.columns - 1) * g.padding
  }

  function GridHeight(g: Grid): int {
    g.rows * g.thumbHeight + (g.rows - 1) * g.padding
  }

  /** totalWidth: the grid plus a margin on either side. */
  function CanvasWidth(g: Grid): int {
    GridWidth(g) + 2 * g.margin
  }

  /** totalHeight: the grid, a margin above and below, and the header band on top. */
  function CanvasHeight(g: Grid): int {
    GridHeight(g) + 2 * g.margin + g.header
  }

  /** The top-left corner of thumbnail `i`: row i / columns, column i % columns, in Go's arithmetic. */
  function CellOrigin(g: Grid, i: int): Point
    requires g.columns != 0
  {
    var row := Quo(i, g.columns);
    var col := Rem(i, g.columns);
    Point(g.margin + col * (g.thumbWidth + g.padding),
          g.header + g.margin + row * (g.thumbHeight + g.padding))
  }

  /** The configurations the geometry promises something for: a non-empty grid, no negative sizes. */
  predicate Sane(g: Grid) {
    g.columns > 0 && g.rows > 0 && g.thumbWidth >= 0 && g.thumbHeight >= 0 &&
    g.padding >= 0 && g.margin >= 0 && g.header >= 0
  }

  lemma MulLeq(a: int, b: int, c: int)
    requires a <= b && c >= 0
    ensures a * c <= b * c
  {
    assert b * c - a * c == (b - a) * c;
  }

  lemma MulCancelLt(a: int, b: int, c: int)
    requires c > 0 && a * c < b * c
    ensures a < b
  {
    assert (b - a) * c == b * c - a * c;
  }

  lemma DivBelow(i: int, c: int, r: int)
    requires c > 0 && 0 <= i < c * r
    ensures i / c < r
  {
    var q := i / c;
    assert q * c <= i;
    MulCancelLt(q, r, c);
  }

  /** One axis: slot k of n, each `size` long and `pad` apart, starts at or after 0 and ends within the n slots. */
  lemma AxisFits(k: int, n: int, size: int, pad: int)
    requires 0 <= k < n && size >= 0 && pad >= 0
    ensures 0 <= k * (size + pad)
    ensures k * (size + pad) + size <= n * size + (n - 1) * pad
  {
    MulLeq(k, n - 1, size + pad);
    MulLeq(0, k, size + pad);
    assert (n - 1) * (size + pad) + size == n * size + (n - 1) * pad;
  }

  /** Placement is row-major: cell i sits in row i / columns and column i % columns. */
  lemma RowMajor(g: Grid, i: int)
    requires g.columns > 0 && i >= 0
    ensures i == (i / g.columns) * g.columns + i % g.columns
    ensures 0 <= i / g.columns && 0 <= i % g.columns < g.columns
    ensures CellOrigin(g, i) == Point(
      g.margin + (i % g.columns) * (g.thumbWidth + g.padding),
      g.header + g.margin + (i / g.columns) * (g.thumbHeight + g.padding))
  {
  }

  /** Every one of the columns × rows thumbnails lies inside the canvas, clear of the margins and the header. */
  lemma CellInsideCanvas(g: Grid, i: int)
    requires Sane(g) && 0 <= i < g.columns * g.rows
    ensures var p := CellOrigin(g, i);
      g.margin <= p.x && p.x + g.thumbWidth <= CanvasWidth(g) - g.margin &&
      g.header + g.margin <= p.y && p.y + g.thumbHeight <= CanvasHeight(g) - g.margin
  {
    RowMajor(g, i);
    DivBelow(i, g.columns, g.rows);
    AxisFits(i % g.columns, g.columns, g.thumbWidth, g.padding);
    AxisFits(i / g.columns, g.rows, g.thumbHeight, g.padding);
  }

  /** Along one axis, a lower slot's span ends before a higher slot's span begins. */
  lemma SlotsApart(a: int, b: int, size: int, pad: int)
    requires 0 <= a < b && size >= 0 && pad >= 0
    ensures a * (size + pad) + size <= b * (size + pad)
  {
    MulLeq(a + 1, b, size + pad);
  }

  /** Two different (row, column) slots are apart along at least one axis. */
  lemma DistinctSlotsApart(ri: int, ci: int, rj: int, cj: int, w: int, h: int, pad: int)
    requires 0 <= ri && 0 <= ci && 0 <= rj && 0 <= cj && w >= 0 && h >= 0 && pad >= 0
    requires ri != rj || ci != cj
    ensures ci * (w + pad) + w <= cj * (w + pad) || cj * (w + pad) + w <= ci * (w + pad) ||
            ri * (h + pad) + h <= rj * (h + pad) || rj * (h + pad) + h <= ri * (h + pad)
  {
    if ci < cj {
      SlotsApart(ci, cj, w, pad);
    } else if cj < ci {
      SlotsApart(cj, ci, w, pad);
    } else if ri < rj {
      SlotsApart(ri, rj, h, pad);
    } else {
      SlotsApart(rj, ri, h, pad);
    }
  }

  lemma SlotsDiffer(i: int, j: int, c: int)
    requires c > 0 && 0 <= i && 0 <= j && i != j
    ensures i / c != j / c || i % c != j % c
  {
  }

  /** Two different thumbnails never overlap. */
  lemma CellsDisjoint(g: Grid, i: int, j: int)
    requires Sane(g) && 0 <= i && 0 <= j && i != j
    ensures var p, q := CellOrigin(g, i), CellOrigin(g, j);
      p.x + g.thumbWidth <= q.x || q.x + g.thumbWidth <= p.x ||
      p.y + g.thumbHeight <= q.y || q.y + g.thumbHeight <= p.y
  {
    var c := g.columns;
    RowMajor(g, i);
    RowMajor(g, j);
    var ri, ci, rj, cj := i / c, i % c, j / c, j % c;
    SlotsDiffer(i, j, c);
    var p, q := CellOrigin(g, i), CellOrigin(g, j);
    assert p.x == g.margin + ci * (g.thumbWidth + g.padding);
    assert q.x == g.margin + cj * (g.thumbWidth + g.padding);
    assert p.y == g.header + g.margin + ri * (g.thumbHeight + g.padding);
    assert q.y == g.header + g.margin + rj * (g.thumbHeight + g.padding);
    DistinctSlotsApart(ri, ci, rj, cj, g.thumbWidth, g.thumbHeight, g.padding);
  }

  /** Worked example, the reference sheet: 4 × 2 thumbnails of 640 × 360 with the default padding, margin and header. */
  lemma ReferenceCanvas()
    ensures CanvasWidth(Grid(4, 2, 640, 360, 5, 20, 150)) == 4 * 640 + 3 * 5 + 2 * 20
    ensures CanvasHeight(Grid(4, 2, 640, 360, 5, 20, 150)) == 2 * 360 + 1 * 5 + 2 * 20 + 150
  {
  }
}
