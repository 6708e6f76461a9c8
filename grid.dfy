/// Grid layout, cursor and viewport arithmetic shared by both browsers
/// (calculateColsAndRows, cursorAdd, cursorRowIx, rowsDisplayed,
/// isCursorDisplayed, addRowOffset, setOffsetToMiddleScreen). These are
/// functions of the fields the Go methods read; the classes in Surfer and Cds
/// store their results.
module Grid {
  import opened Misc

  /** Go's `/` on int, which truncates toward zero (Dafny's `/` is Euclidean). */
  function GoDiv(a: int, b: int): (q: int)
    requires b > 0
    ensures a >= 0 ==> q >= 0
    ensures a < 0 ==> q <= 0
  {
    if a >= 0 then a / b else -((-a) / b)
  }

  /** The quotient truncates toward zero: for a >= 0 it is the floor of a / b,
      for a < 0 the ceiling. */
  lemma GoDivBounds(a: int, b: int)
    requires b > 0
    ensures a >= 0 ==> 0 <= GoDiv(a, b) * b <= a < GoDiv(a, b) * b + b
    ensures a < 0 ==> a <= GoDiv(a, b) * b < a + b
  {
    if a >= 0 {
      DivBounds(a, b);
    } else {
      DivBounds(-a, b);
      var n := (-a) / b;
      assert -n * b == -(n * b);
    }
  }

  /** Euclidean division of a non-negative number, as bounds on the product. */
  lemma DivBounds(a: int, b: int)
    requires a >= 0 && b > 0
    ensures 0 <= (a / b) * b <= a < (a / b) * b + b
  {
    var q, r := a / b, a % b;
    assert a == q * b + r;
    assert q * b >= 0;
  }

  lemma MulLe(x: int, y: int, c: int)
    requires x <= y && c >= 0
    ensures x * c <= y * c
  {
    assert y * c - x * c == (y - x) * c;
  }

  /** Columns, column width and row count of the listing grid. */
  datatype Layout = Layout(cols: int, colSize: int, rows: int)

  /** The number of rows needed for `count` items in `cols` columns, as the
      source computes it: a quotient plus one row for a partial last row. */
  function RowsFor(count: nat, cols: int): nat
    requires cols >= 1
  {
    count / cols + (if count % cols > 0 then 1 else 0)
  }

  /** RowsFor is the ceiling of count / cols: enough rows, and no empty one. */
  lemma RowsForBounds(count: nat, cols: int)
    requires cols >= 1
    ensures RowsFor(count, cols) * cols >= count
    ensures RowsFor(count, cols) == 0 || (RowsFor(count, cols) - 1) * cols < count
  {
    DivBounds(count, cols);
    var q := count / cols;
    assert (q + 1) * cols == q * cols + cols;
    assert count % cols == count - q * cols;
  }

  /** calculateColsAndRows. `single` is "details shown, or search mode" (only
      "details shown" in the older browser); maxLen is the longest name and sep
      the configured separator width. The source divides by maxLen + sep, so that
      sum may be zero only when the single-column branch is taken. */
  function GridLayout(width: nat, maxLen: nat, sep: nat, single: bool, count: nat): (l: Layout)
    requires single || maxLen + sep >= width || maxLen + sep > 0
    ensures l.cols >= 1 && l.rows >= 0
    ensures single || maxLen + sep >= width ==> l == Layout(1, width, count)
  {
    if single || maxLen + sep >= width then
      Layout(1, width, count)
    else
      var colWidth := maxLen + sep;
      var cols := width / colWidth;
      ColSizeFits(width, colWidth, cols);
      Layout(cols, width / cols, RowsFor(count, cols))
  }

  /** The multi-column branch of calculateColsAndRows, with the source's
      division and remainder. */
  method MultiColumnLayout(width: nat, maxLen: nat, sep: nat, count: nat) returns (cols: nat, colSize: int, rows: int)
    requires 0 < maxLen + sep < width
    ensures Layout(cols, colSize, rows) == GridLayout(width, maxLen, sep, false, count)
  {
    var maxColSize := maxLen + sep;
    cols := width / maxColSize;
    ColSizeFits(width, maxColSize, cols);
    colSize := width / cols;
    rows := count / cols;
    if count % cols > 0 {
      rows := rows + 1;
    }
  }

  /** The grid holds every item with no empty row; in the multi-column case
      as many columns of the widest name plus separator as fit, each column an
      equal share of the width and at least that wide. */
  lemma GridLayoutBounds(width: nat, maxLen: nat, sep: nat, single: bool, count: nat)
    requires single || maxLen + sep >= width || maxLen + sep > 0
    ensures var l := GridLayout(width, maxLen, sep, single, count);
            && l.rows * l.cols >= count
            && (l.rows == 0 || (l.rows - 1) * l.cols < count)
            && (!single && maxLen + sep < width ==>
                  && l.cols == width / (maxLen + sep)
                  && l.colSize == width / l.cols
                  && l.cols * (maxLen + sep) <= width
                  && l.colSize >= maxLen + sep)
  {
    if !(single || maxLen + sep >= width) {
      var colWidth := maxLen + sep;
      var cols := width / colWidth;
      DivBounds(width, colWidth);
      ColSizeFits(width, colWidth, cols);
      RowsForBounds(count, cols);
    }
  }

  /** With w <= width, at least one column of width w fits, and sharing the
      width among those columns gives each at least w. */
  lemma ColSizeFits(width: nat, w: nat, cols: nat)
    requires 0 < w <= width && cols == width / w
    ensures cols >= 1 && width / cols >= w
  {
    DivBounds(width, w);
    if cols == 0 {
      assert false;
    }
    DivBounds(width, cols);
    var q := width / cols;
    if q < w {
      MulLe(q + 1, w, cols);
      assert false;
    }
  }

  /** rowsDisplayed: the rows left for the list once 5 lines of header and
      footer are taken, but never fewer than one. */
  function RowsDisplayed(height: int): (r: int)
    ensures r >= 1
    ensures height >= 6 ==> r == height - 5
    ensures height <= 6 ==> r == 1
  {
    Max(height - 5, 1)
  }

  /** cursorRowIx: the grid row of the cursor. */
  function CursorRow(cursorIx: int, cols: int): int
    requires cols >= 1
  {
    GoDiv(cursorIx, cols)
  }

  /** The cursor's row is the one whose cells hold its index; the empty
      listing's cursor -1 lies on row -1 in one column and on row 0 otherwise,
      since Go's division truncates. */
  lemma CursorRowBounds(cursorIx: int, cols: int)
    requires cols >= 1
    ensures cursorIx >= 0 ==> 0 <= CursorRow(cursorIx, cols) * cols <= cursorIx < CursorRow(cursorIx, cols) * cols + cols
    ensures cursorIx >= 0 ==> CursorRow(cursorIx, cols) >= 0
    ensures cursorIx == -1 ==> CursorRow(cursorIx, cols) == (if cols == 1 then -1 else 0)
  {
    GoDivBounds(cursorIx, cols);
    if cursorIx == -1 && cols > 1 {
      assert 1 / cols == 0;
    }
  }

  /** isCursorDisplayed: the cursor's row lies in the window of rowsDisplayed
      rows that starts at rowOffset. */
  predicate IsCursorDisplayed(cursorIx: int, cols: int, rowOffset: int, height: int)
    requires cols >= 1
  {
    var row := CursorRow(cursorIx, cols);
    row < rowOffset + RowsDisplayed(height) && row >= rowOffset
  }

  /** cursorAdd: the cursor moved by delta and clamped to the listing. */
  function CursorAdd(cursorIx: int, delta: int, count: nat): (c: int)
    ensures count > 0 ==> 0 <= c < count
    ensures count == 0 ==> c == -1
    ensures 0 <= cursorIx + delta < count ==> c == cursorIx + delta
    ensures count > 0 && cursorIx + delta < 0 ==> c == 0
    ensures cursorIx + delta >= count ==> c == count - 1
  {
    MinMax(cursorIx + delta, 0, count - 1)
  }

  /** addRowOffset: the offset moved by delta and clamped to [0, rows-1]
      (to -1 when there are no rows). */
  function AddRowOffset(rowOffset: int, delta: int, rows: int): (o: int)
    ensures rows > 0 ==> 0 <= o < rows
    ensures rows <= 0 ==> o == rows - 1
    ensures 0 <= rowOffset + delta < rows ==> o == rowOffset + delta
  {
    MinMax(rowOffset + delta, 0, rows - 1)
  }

  /** setOffsetToMiddleScreen: the offset that puts the cursor's row in the
      middle of the window, clamped to the grid. */
  function MiddleOffset(cursorIx: int, cols: int, height: int, rows: int): (o: int)
    requires cols >= 1
    ensures rows > 0 ==> 0 <= o < rows
    ensures o == MinMax(CursorRow(cursorIx, cols) - RowsDisplayed(height) / 2, 0, rows - 1)
  {
    AddRowOffset(0, CursorRow(cursorIx, cols) - RowsDisplayed(height) / 2, rows)
  }

  /** setOffsetToMiddleScreen's purpose: a cursor on the grid is on screen once
      the view is centred on it, half a window below the top unless that
      would scroll above the first row, where the window starts at row 0. */
  lemma MiddleOffsetShowsCursor(cursorIx: int, cols: int, height: int, rows: int)
    requires cols >= 1 && cursorIx >= 0 && CursorRow(cursorIx, cols) < rows
    ensures IsCursorDisplayed(cursorIx, cols, MiddleOffset(cursorIx, cols, height, rows), height)
    ensures var row := CursorRow(cursorIx, cols);
            var o := MiddleOffset(cursorIx, cols, height, rows);
            && (row >= RowsDisplayed(height) / 2 ==> row - o == RowsDisplayed(height) / 2)
            && (row < RowsDisplayed(height) / 2 ==> o == 0)
  {
    CursorRowBounds(cursorIx, cols);
  }

  /** A cursor on the listing lies on one of the grid's rows, and the last item
      lies on the last row: this is the row End scrolls to. */
  lemma {:induction false} CursorRowInGrid(width: nat, maxLen: nat, sep: nat, single: bool, count: nat, cursorIx: int)
    requires single || maxLen + sep >= width || maxLen + sep > 0
    requires 0 <= cursorIx < count
    ensures var l := GridLayout(width, maxLen, sep, single, count);
            0 <= CursorRow(cursorIx, l.cols) < l.rows
            && CursorRow(count - 1, l.cols) == l.rows - 1
  {
    var l := GridLayout(width, maxLen, sep, single, count);
    GridLayoutBounds(width, maxLen, sep, single, count);
    RowsOfGrid(cursorIx, l.cols, l.rows, count);
  }

  /** The row arithmetic behind CursorRowInGrid, for any rows = ceil(count / cols). */
  lemma RowsOfGrid(c: int, cols: int, rows: nat, count: nat)
    requires cols >= 1 && 0 <= c < count
    requires rows * cols >= count && (rows - 1) * cols < count
    ensures 0 <= CursorRow(c, cols) < rows
    ensures CursorRow(count - 1, cols) == rows - 1
  {
    RowBelowRows(c, cols, rows, count);
    RowBelowRows(count - 1, cols, rows, count);
    LastRowReached(cols, rows, count);
  }

  lemma RowBelowRows(c: int, cols: int, rows: nat, count: nat)
    requires cols >= 1 && 0 <= c < count
    requires rows * cols >= count
    ensures 0 <= CursorRow(c, cols) < rows
  {
    var row := CursorRow(c, cols);
    CursorRowBounds(c, cols);
    if row >= rows {
      MulLe(rows, row, cols);
      assert false;
    }
  }

  lemma LastRowReached(cols: int, rows: nat, count: nat)
    requires cols >= 1 && count > 0
    requires (rows - 1) * cols < count
    ensures CursorRow(count - 1, cols) >= rows - 1
  {
    var last := CursorRow(count - 1, cols);
    CursorRowBounds(count - 1, cols);
    if last < rows - 1 {
      MulLe(last + 1, rows - 1, cols);
      assert false;
    }
  }

  /** The cursor's row never decreases as the cursor moves forward. */
  lemma RowMonotone(a: int, b: int, cols: int)
    requires cols >= 1 && 0 <= a <= b
    ensures CursorRow(a, cols) <= CursorRow(b, cols)
  {
    var ra, rb := CursorRow(a, cols), CursorRow(b, cols);
    CursorRowBounds(a, cols);
    CursorRowBounds(b, cols);
    if rb < ra {
      MulLe(rb + 1, ra, cols);
      assert false;
    }
  }

  /** Moving forward by at most one row's worth of items moves at most one row. */
  lemma RowStep(a: int, b: int, cols: int)
    requires cols >= 1 && 0 <= a <= b <= a + cols
    ensures CursorRow(b, cols) <= CursorRow(a, cols) + 1
  {
    var ra, rb := CursorRow(a, cols), CursorRow(b, cols);
    CursorRowBounds(a, cols);
    CursorRowBounds(b, cols);
    if rb > ra + 1 {
      MulLe(ra + 2, rb, cols);
      assert false;
    }
  }

  /** The arrow keys keep a visible cursor visible: left and up move it back by
      one item or one row and scroll up a row when it leaves the window; right
      and down move it forward and scroll down. From a window at or below the
      top, the offset then moves by exactly that one row, never more. Here
      rows = ceil(count / cols), as the layout computes it. */
  lemma {:induction false} ArrowKeepsCursorVisible(c: int, count: nat, cols: int, rows: nat, offset: int, height: int,
                                                   delta: int, scroll: int)
    requires cols >= 1 && 0 <= c < count
    requires rows * cols >= count && (rows - 1) * cols < count
    requires IsCursorDisplayed(c, cols, offset, height)
    requires ((delta == -1 || delta == -cols) && scroll == -1) || ((delta == 1 || delta == cols) && scroll == 1)
    ensures var c2 := CursorAdd(c, delta, count);
            var offset2 := if IsCursorDisplayed(c2, cols, offset, height) then offset
                           else AddRowOffset(offset, scroll, rows);
            0 <= c2 < count && IsCursorDisplayed(c2, cols, offset2, height)
  ensures var c2 := CursorAdd(c, delta, count);
          var offset2 := if IsCursorDisplayed(c2, cols, offset, height) then offset
                         else AddRowOffset(offset, scroll, rows);
          offset >= 0 ==> offset2 == offset || offset2 == offset + scroll
  {
    var c2 := CursorAdd(c, delta, count);
    var row, row2 := CursorRow(c, cols), CursorRow(c2, cols);
    RowBelowRows(c2, cols, rows, count);
    CursorRowBounds(c, cols);
    CursorRowBounds(c2, cols);
    if scroll == 1 {
      RowMonotone(c, c2, cols);
      RowStep(c, c2, cols);
    } else {
      RowMonotone(c2, c, cols);
      RowStep(c2, c, cols);
    }
  }

  /** The two layouts checked by the older browser's unit test (width 20,
      separator 2): names "1", "12", "123/" give 3 columns of 6 in one row, and
      five 7-byte names give 2 columns of 10 in 3 rows. */
  lemma LayoutExamples()
    ensures GridLayout(20, 4, 2, false, 3) == Layout(3, 6, 1)
    ensures GridLayout(20, 7, 2, false, 5) == Layout(2, 10, 3)
  {
  }
}
