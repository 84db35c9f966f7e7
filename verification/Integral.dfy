/**
 Integral images and the recentring built on them
 (milan_profile9_prepare_contrast_source of drivers/goodix53x5/milan/core.c):
 four table entries stand for a whole window of masked samples.
 */
module Integral {
  import opened Common
  import opened Grid

  const MODULUS := 0x1_0000_0000
  const RADIUS := 5
  const OFFSET := 3000

  /** The sensor's planes have 9504 pixels; that is what the 32-bit tables are for. */
  const SENSOR_PIXELS := 9504

  predicate Plane(p: seq<nat>, rows: nat, columns: nat) {
    0 < rows && 0 < columns && rows * columns <= SENSOR_PIXELS && |p| == rows * columns
    && forall i | 0 <= i < |p| :: p[i] < 65536
  }

  function At(p: seq<nat>, rows: nat, columns: nat, r: nat, c: nat): (v: nat)
    requires Plane(p, rows, columns) && r < rows && c < columns
    ensures v < 65536
  {
    IndexInPlane(r, c, rows, columns);
    p[Index(r, c, columns)]
  }

  /** Columns lo..hi of one row. */
  function RowSum(p: seq<nat>, rows: nat, columns: nat, r: nat, lo: nat, hi: nat): (s: nat)
    requires Plane(p, rows, columns) && r < rows && lo <= hi <= columns
    decreases hi
  {
    if lo == hi then 0 else RowSum(p, rows, columns, r, lo, hi - 1) + At(p, rows, columns, r, hi - 1)
  }

  /** Rows top..bottom, columns lo..hi: the direct sum. */
  function Rect(p: seq<nat>, rows: nat, columns: nat, top: nat, bottom: nat, lo: nat, hi: nat): (s: nat)
    requires Plane(p, rows, columns) && top <= bottom <= rows && lo <= hi <= columns
    decreases bottom
  {
    if top == bottom then 0
    else Rect(p, rows, columns, top, bottom - 1, lo, hi) + RowSum(p, rows, columns, bottom - 1, lo, hi)
  }

  // ---------------------------------------------------- Sums of rectangles

  lemma {:induction false} RowSumSplits(p: seq<nat>, rows: nat, columns: nat, r: nat, lo: nat, mid: nat, hi: nat)
    requires Plane(p, rows, columns) && r < rows && lo <= mid <= hi <= columns
    ensures RowSum(p, rows, columns, r, lo, hi)
         == RowSum(p, rows, columns, r, lo, mid) + RowSum(p, rows, columns, r, mid, hi)
    decreases hi
  {
    if mid < hi { RowSumSplits(p, rows, columns, r, lo, mid, hi - 1); }
  }

  lemma {:induction false} ColumnsSplit(p: seq<nat>, rows: nat, columns: nat, top: nat, bottom: nat, lo: nat, mid: nat, hi: nat)
    requires Plane(p, rows, columns) && top <= bottom <= rows && lo <= mid <= hi <= columns
    ensures Rect(p, rows, columns, top, bottom, lo, hi)
         == Rect(p, rows, columns, top, bottom, lo, mid) + Rect(p, rows, columns, top, bottom, mid, hi)
    decreases bottom
  {
    if top < bottom {
      ColumnsSplit(p, rows, columns, top, bottom - 1, lo, mid, hi);
      RowSumSplits(p, rows, columns, bottom - 1, lo, mid, hi);
    }
  }

  lemma {:induction false} RowsSplit(p: seq<nat>, rows: nat, columns: nat, top: nat, middle: nat, bottom: nat, lo: nat, hi: nat)
    requires Plane(p, rows, columns) && top <= middle <= bottom <= rows && lo <= hi <= columns
    ensures Rect(p, rows, columns, top, bottom, lo, hi)
         == Rect(p, rows, columns, top, middle, lo, hi) + Rect(p, rows, columns, middle, bottom, lo, hi)
    decreases bottom
  {
    if middle < bottom { RowsSplit(p, rows, columns, top, middle, bottom - 1, lo, hi); }
  }

  lemma {:induction false} RowSumBounded(p: seq<nat>, rows: nat, columns: nat, r: nat, lo: nat, hi: nat)
    requires Plane(p, rows, columns) && r < rows && lo <= hi <= columns
    ensures RowSum(p, rows, columns, r, lo, hi) <= 65535 * (hi - lo)
    decreases hi
  {
    if lo < hi { RowSumBounded(p, rows, columns, r, lo, hi - 1); }
  }

  lemma {:induction false} RectBounded(p: seq<nat>, rows: nat, columns: nat, top: nat, bottom: nat, lo: nat, hi: nat)
    requires Plane(p, rows, columns) && top <= bottom <= rows && lo <= hi <= columns
    ensures Rect(p, rows, columns, top, bottom, lo, hi) <= 65535 * ((bottom - top) * (hi - lo))
    decreases bottom
  {
    if top < bottom {
      RectBounded(p, rows, columns, top, bottom - 1, lo, hi);
      RowSumBounded(p, rows, columns, bottom - 1, lo, hi);
      assert (bottom - top) * (hi - lo) == (bottom - 1 - top) * (hi - lo) + (hi - lo);
    }
  }

  /** No table entry, nor three of them together, reaches 2^32. */
  lemma CornerBounded(p: seq<nat>, rows: nat, columns: nat, bottom: nat, hi: nat)
    requires Plane(p, rows, columns) && bottom <= rows && hi <= columns
    ensures Rect(p, rows, columns, 0, bottom, 0, hi) <= 65535 * SENSOR_PIXELS
    ensures 3 * 65535 * SENSOR_PIXELS < MODULUS
  {
    hide Rect;
    RectBounded(p, rows, columns, 0, bottom, 0, hi);
    ProductGrows(bottom, hi, rows, columns);
  }

  lemma NothingBefore(p: seq<nat>, rows: nat, columns: nat, bottom: nat)
    requires Plane(p, rows, columns) && bottom <= rows
    ensures Rect(p, rows, columns, 0, bottom, 0, 0) == 0
  {
    RectBounded(p, rows, columns, 0, bottom, 0, 0);
  }

  lemma NothingAbove(p: seq<nat>, rows: nat, columns: nat, hi: nat)
    requires Plane(p, rows, columns) && hi <= columns
    ensures Rect(p, rows, columns, 0, 0, 0, hi) == 0
  {
  }

  /** The recurrence that fills the table. */
  lemma CornerGrows(p: seq<nat>, rows: nat, columns: nat, r: nat, c: nat)
    requires Plane(p, rows, columns) && r < rows && c < columns
    ensures Rect(p, rows, columns, 0, r + 1, 0, c + 1)
         == At(p, rows, columns, r, c) + Rect(p, rows, columns, 0, r + 1, 0, c)
          + Rect(p, rows, columns, 0, r, 0, c + 1) - Rect(p, rows, columns, 0, r, 0, c)
    ensures Rect(p, rows, columns, 0, r, 0, c) <= Rect(p, rows, columns, 0, r + 1, 0, c)
  {
  }

  /** Inclusion and exclusion of four corners. */
  lemma FourCorners(p: seq<nat>, rows: nat, columns: nat, top: nat, bottom: nat, lo: nat, hi: nat)
    requires Plane(p, rows, columns) && top <= bottom <= rows && lo <= hi <= columns
    ensures Rect(p, rows, columns, top, bottom, lo, hi)
         == Rect(p, rows, columns, 0, bottom, 0, hi) - Rect(p, rows, columns, 0, top, 0, hi)
          - Rect(p, rows, columns, 0, bottom, 0, lo) + Rect(p, rows, columns, 0, top, 0, lo)
  {
    RowsSplit(p, rows, columns, 0, top, bottom, 0, hi);
    RowsSplit(p, rows, columns, 0, top, bottom, 0, lo);
    ColumnsSplit(p, rows, columns, top, bottom, 0, lo, hi);
  }

  // ------------------------------------------------------------ The two planes

  predicate Input(source: seq<nat>, mask: seq<nat>, rows: nat, columns: nat) {
    Plane(source, rows, columns) && |mask| == |source|
  }

  /** Masked samples, zero elsewhere. */
  function Samples(source: seq<nat>, mask: seq<nat>): (p: seq<nat>)
    requires |mask| == |source|
    ensures |p| == |source|
  {
    seq(|source|, i requires 0 <= i < |source| && |mask| == |source| => if mask[i] != 0 then source[i] else 0)
  }

  /** One for every masked sample. */
  function Ones(mask: seq<nat>): (p: seq<nat>)
    ensures |p| == |mask|
  {
    seq(|mask|, i requires 0 <= i < |mask| => if mask[i] != 0 then 1 else 0)
  }

  lemma PlanesOk(source: seq<nat>, mask: seq<nat>, rows: nat, columns: nat)
    requires Input(source, mask, rows, columns)
    ensures Plane(Samples(source, mask), rows, columns) && Plane(Ones(mask), rows, columns)
  {
  }

  /** The table entry at pixel i: everything above and to the left, included. */
  function Corner(p: seq<nat>, rows: nat, columns: nat, i: nat): nat
    requires Plane(p, rows, columns) && i < |p|
  {
    RowIn(i, rows, columns);
    Rect(p, rows, columns, 0, i / columns + 1, 0, i % columns + 1)
  }

  lemma RowIn(i: nat, rows: nat, columns: nat)
    requires 0 < columns && i < rows * columns
    ensures i / columns < rows && i % columns < columns
  {
    MulGap(rows - 1, i / columns, columns);
  }

  /** One accumulation, in 32 bits as the source does it. */
  function Accumulated(value: nat, left: nat, above: nat, corner: nat): nat {
    ((value + left + above) % MODULUS + MODULUS - corner % MODULUS) % MODULUS
  }

  /** One table entry from the three before it. */
  method Entry(table: array<nat>, p: seq<nat>, rows: nat, columns: nat, row: nat, column: nat) returns (value: nat)
    requires Plane(p, rows, columns) && row < rows && column < columns && table.Length == |p|
    requires forall i | 0 <= i < Index(row, column, columns) && i < |p| :: table[i] == Corner(p, rows, columns, i)
    ensures Index(row, column, columns) < |p| && value == Corner(p, rows, columns, Index(row, column, columns))
  {
    hide Corner, Rect, Accumulated;
    IndexInPlane(row, column, rows, columns);
    var index := Index(row, column, columns);
    Neighbours(p, rows, columns, row, column);
    TableStep(p, rows, columns, row, column);
    var left := if column != 0 then table[index - 1] else 0;
    var above := if row != 0 then table[index - columns] else 0;
    var corner := if row != 0 && column != 0 then table[index - columns - 1] else 0;
    value := Accumulated(p[index], left, above, corner);
  }

  /** Fill one summed-area table. */
  method FillTable(p: seq<nat>, rows: nat, columns: nat) returns (table: array<nat>)
    requires Plane(p, rows, columns)
    ensures fresh(table) && table.Length == |p|
    ensures forall i | 0 <= i < |p| :: table[i] == Corner(p, rows, columns, i)
  {
    hide Corner;
    table := new nat[|p|];
    for row := 0 to rows
      invariant Index(row, 0, columns) <= |p|
      invariant forall i | 0 <= i < Index(row, 0, columns) :: table[i] == Corner(p, rows, columns, i)
    {
      NextRow(row, columns);
      for column := 0 to columns
        invariant Index(row, column, columns) <= |p|
        invariant forall i | 0 <= i < Index(row, column, columns) :: table[i] == Corner(p, rows, columns, i)
      {
        var value := Entry(table, p, rows, columns, row, column);
        table[Index(row, column, columns)] := value;
      }
    }
  }

  /** The entries to the left, above and diagonally above are the smaller corners. */
  lemma Neighbours(p: seq<nat>, rows: nat, columns: nat, row: nat, column: nat)
    requires Plane(p, rows, columns) && row < rows && column < columns
    ensures var i := Index(row, column, columns);
      && i < |p|
      && (column != 0 ==> Corner(p, rows, columns, i - 1) == Rect(p, rows, columns, 0, row + 1, 0, column))
      && (row != 0 ==> i >= columns && Corner(p, rows, columns, i - columns) == Rect(p, rows, columns, 0, row, 0, column + 1))
      && (row != 0 && column != 0 ==>
            i > columns && Corner(p, rows, columns, i - columns - 1) == Rect(p, rows, columns, 0, row, 0, column))
      && Corner(p, rows, columns, i) == Rect(p, rows, columns, 0, row + 1, 0, column + 1)
  {
    IndexInPlane(row, column, rows, columns);
    if column != 0 { IndexInPlane(row, column - 1, rows, columns); }
    if row != 0 {
      assert Index(row - 1, column, columns) == Index(row, column, columns) - columns;
      IndexInPlane(row - 1, column, rows, columns);
      if column != 0 { IndexInPlane(row - 1, column - 1, rows, columns); }
    }
  }

  lemma TableStep(p: seq<nat>, rows: nat, columns: nat, row: nat, column: nat)
    requires Plane(p, rows, columns) && row < rows && column < columns
    ensures Accumulated(At(p, rows, columns, row, column),
                        Rect(p, rows, columns, 0, row + 1, 0, column),
                        Rect(p, rows, columns, 0, row, 0, column + 1),
                        Rect(p, rows, columns, 0, row, 0, column))
         == Rect(p, rows, columns, 0, row + 1, 0, column + 1)
    ensures row == 0 ==> Rect(p, rows, columns, 0, row, 0, column + 1) == 0
    ensures row == 0 || column == 0 ==> Rect(p, rows, columns, 0, row, 0, column) == 0
    ensures column == 0 ==> Rect(p, rows, columns, 0, row + 1, 0, column) == 0
  {
    CornerGrows(p, rows, columns, row, column);
    CornerBounded(p, rows, columns, row + 1, column);
    CornerBounded(p, rows, columns, row, column + 1);
    CornerBounded(p, rows, columns, row + 1, column + 1);
    CornerBounded(p, rows, columns, row, column);
    if column == 0 {
      NothingBefore(p, rows, columns, row + 1);
      NothingBefore(p, rows, columns, row);
    }
    AccumulatedIs(At(p, rows, columns, row, column), Rect(p, rows, columns, 0, row + 1, 0, column),
                  Rect(p, rows, columns, 0, row, 0, column + 1), Rect(p, rows, columns, 0, row, 0, column));
    hide At, Accumulated;
  }

  lemma AccumulatedIs(value: nat, left: nat, above: nat, corner: nat)
    requires value + left + above < MODULUS && corner <= value + left + above
    ensures Accumulated(value, left, above, corner) == value + left + above - corner
  {
  }

  // -------------------------------------------------------------- Recentring

  function First(x: nat): nat {
    if x > RADIUS then x - RADIUS else 0
  }

  function Last(x: nat, n: nat): nat
    requires x < n
  {
    if x + RADIUS < n then x + RADIUS else n - 1
  }

  /** The samples of the clamped 11 x 11 window around a pixel. */
  function WindowSum(p: seq<nat>, rows: nat, columns: nat, row: nat, column: nat): nat
    requires Plane(p, rows, columns) && row < rows && column < columns
  {
    Rect(p, rows, columns, First(row), Last(row, rows) + 1, First(column), Last(column, columns) + 1)
  }

  /** Four table look-ups, in 32-bit arithmetic. */
  function FromTable(whole: nat, top: nat, left: nat, both: nat): nat {
    ((whole + MODULUS - top % MODULUS) % MODULUS + MODULUS - left % MODULUS + both) % MODULUS
  }

  /** Whatever wraps on the way, the look-ups give the window's own sum. */
  lemma LookUpIsWindow(p: seq<nat>, rows: nat, columns: nat, top: nat, bottom: nat, lo: nat, hi: nat)
    requires Plane(p, rows, columns) && top <= bottom <= rows && lo <= hi <= columns
    ensures FromTable(Rect(p, rows, columns, 0, bottom, 0, hi), Rect(p, rows, columns, 0, top, 0, hi),
                      Rect(p, rows, columns, 0, bottom, 0, lo), Rect(p, rows, columns, 0, top, 0, lo))
         == Rect(p, rows, columns, top, bottom, lo, hi)
  {
    FourCorners(p, rows, columns, top, bottom, lo, hi);
    CornerBounded(p, rows, columns, bottom, hi);
    CornerBounded(p, rows, columns, top, hi);
    CornerBounded(p, rows, columns, bottom, lo);
    CornerBounded(p, rows, columns, top, lo);
    CornerBounded(p, rows, columns, bottom, hi);
    FromTableIs(Rect(p, rows, columns, 0, bottom, 0, hi), Rect(p, rows, columns, 0, top, 0, hi),
                Rect(p, rows, columns, 0, bottom, 0, lo), Rect(p, rows, columns, 0, top, 0, lo),
                Rect(p, rows, columns, top, bottom, lo, hi));
  }

  lemma FromTableIs(whole: nat, top: nat, left: nat, both: nat, sum: nat)
    requires whole < MODULUS && top < MODULUS && left < MODULUS && both < MODULUS
    requires sum == whole - top - left + both && sum < MODULUS
    ensures FromTable(whole, top, left, both) == sum
  {
    var a: int := (whole as int) - (top as int);
    assert (whole + MODULUS - top % MODULUS) % MODULUS == if a >= 0 then a else a + MODULUS;
  }

  /** The nearest integer to sum / count, halves up. */
  function Rounded(sum: nat, count: nat): nat
    requires count > 0
  {
    (sum + count / 2) / count
  }

  lemma RoundedIsNearest(sum: nat, count: nat)
    requires count > 0
    ensures -(count as int) <= 2 * ((sum as int) - (Rounded(sum, count) * count) as int) <= count
  {
    var q, r := (sum + count / 2) / count, (sum + count / 2) % count;
    assert sum + count / 2 == q * count + r;
  }

  /** A pixel relative to the mean of its neighbourhood, as 16 bits. */
  function Expected(source: seq<nat>, mask: seq<nat>, rows: nat, columns: nat, i: nat): nat
    requires Input(source, mask, rows, columns) && i < |source|
  {
    if mask[i] == 0 then OFFSET
    else
      RowIn(i, rows, columns);
      PlanesOk(source, mask, rows, columns);
      var row, column := i / columns, i % columns;
      var count := WindowSum(Ones(mask), rows, columns, row, column);
      var mean := if count != 0 then Rounded(WindowSum(Samples(source, mask), rows, columns, row, column), count) else 0;
      Max((source[i] as int) - (mean as int) + OFFSET, 0) % 65536
  }

  /** A masked pixel is in its own window, so its mean exists. */
  lemma {:induction false} OwnWindowCounts(p: seq<nat>, rows: nat, columns: nat, row: nat, column: nat)
    requires Plane(p, rows, columns) && row < rows && column < columns
    ensures WindowSum(p, rows, columns, row, column) >= At(p, rows, columns, row, column)
  {
    var top, bottom, lo, hi := First(row), Last(row, rows) + 1, First(column), Last(column, columns) + 1;
    RowsSplit(p, rows, columns, top, row, bottom, lo, hi);
    RowsSplit(p, rows, columns, row, row + 1, bottom, lo, hi);
    RowSumSplits(p, rows, columns, row, lo, column, hi);
    RowSumSplits(p, rows, columns, row, column, column + 1, hi);
  }

  /** One window sum from its table. */
  method LookUp(table: array<nat>, p: seq<nat>, rows: nat, columns: nat, row: nat, column: nat) returns (sum: nat)
    requires Plane(p, rows, columns) && row < rows && column < columns && table.Length == |p|
    requires forall i | 0 <= i < |p| :: table[i] == Corner(p, rows, columns, i)
    ensures sum == WindowSum(p, rows, columns, row, column)
  {
    hide Corner, Rect, FromTable;
    var firstRow := if row > RADIUS then row - RADIUS else 0;
    var lastRow := if row + RADIUS < rows then row + RADIUS else rows - 1;
    var firstColumn := if column > RADIUS then column - RADIUS else 0;
    var lastColumn := if column + RADIUS < columns then column + RADIUS else columns - 1;
    Neighbours(p, rows, columns, lastRow, lastColumn);
    sum := table[Index(lastRow, lastColumn, columns)];
    var top, left, both := 0, 0, 0;
    if firstRow == 0 {
      NothingAbove(p, rows, columns, lastColumn + 1);
      NothingAbove(p, rows, columns, firstColumn);
    }
    if firstRow != 0 {
      Neighbours(p, rows, columns, firstRow - 1, lastColumn);
      top := table[Index(firstRow - 1, lastColumn, columns)];
    }
    if firstColumn != 0 {
      Neighbours(p, rows, columns, lastRow, firstColumn - 1);
      left := table[Index(lastRow, firstColumn - 1, columns)];
    } else {
      NothingBefore(p, rows, columns, lastRow + 1);
    }
    if firstRow != 0 && firstColumn != 0 {
      Neighbours(p, rows, columns, firstRow - 1, firstColumn - 1);
      both := table[Index(firstRow - 1, firstColumn - 1, columns)];
    } else {
      NothingBefore(p, rows, columns, firstRow);
    }
    LookUpIsWindow(p, rows, columns, firstRow, lastRow + 1, firstColumn, lastColumn + 1);
    sum := FromTable(sum, top, left, both);
  }

  /** milan_profile9_prepare_contrast_source up to its smoothing. */
  method Recentre(source: seq<nat>, mask: seq<nat>, rows: nat, columns: nat) returns (recentred: array<nat>)
    requires Input(source, mask, rows, columns)
    ensures fresh(recentred) && recentred.Length == |source|
    ensures forall i | 0 <= i < |source| :: recentred[i] == Expected(source, mask, rows, columns, i)
  {
    PlanesOk(source, mask, rows, columns);
    var samples, ones := Samples(source, mask), Ones(mask);
    var sums := FillTable(samples, rows, columns);
    var counts := FillTable(ones, rows, columns);
    recentred := new nat[|source|];
    hide Corner, WindowSum, Samples, Ones;
    for row := 0 to rows
      modifies recentred
      invariant Index(row, 0, columns) <= |source|
      invariant forall i | 0 <= i < Index(row, 0, columns) :: recentred[i] == Expected(source, mask, rows, columns, i)
    {
      NextRow(row, columns);
      for column := 0 to columns
        modifies recentred
        invariant Index(row, column, columns) <= |source|
        invariant forall i | 0 <= i < Index(row, column, columns) :: recentred[i] == Expected(source, mask, rows, columns, i)
      {
        IndexInPlane(row, column, rows, columns);
        var index := Index(row, column, columns);
        if mask[index] == 0 {
          recentred[index] := OFFSET;
        } else {
          var sum := LookUp(sums, samples, rows, columns, row, column);
          var valid := LookUp(counts, ones, rows, columns, row, column);
          var mean := if valid != 0 then Rounded(sum, valid) else 0;
          var value: int := (source[index] as int) - (mean as int) + OFFSET;
          recentred[index] := (if value > 0 then value else 0) % 65536;
        }
      }
    }
  }

  /** Every masked pixel has a mean: its own sample is one of those counted. */
  lemma MaskedPixelsHaveMeans(source: seq<nat>, mask: seq<nat>, rows: nat, columns: nat, i: nat)
    requires Input(source, mask, rows, columns) && i < |source| && mask[i] != 0
    ensures i / columns < rows && i % columns < columns && Plane(Ones(mask), rows, columns)
    ensures WindowSum(Ones(mask), rows, columns, i / columns, i % columns) > 0
  {
    hide WindowSum;
    RowIn(i, rows, columns);
    PlanesOk(source, mask, rows, columns);
    OwnWindowCounts(Ones(mask), rows, columns, i / columns, i % columns);
    assert Index(i / columns, i % columns, columns) == i;
  }
}
