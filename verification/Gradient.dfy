/**
 Reflected borders and the sliding gradient window
 (drivers/goodix53x5/milan/private.h and quality_threshold_gradient_window of core.c).
 */
module Gradient {
  import opened Common
  import opened Grid

  // ------------------------------------------------------ Reflect-101 borders

  /** r is a reflection of c in the period 2 * (n - 1), `k` periods away. */
  predicate ReflectsAt(c: int, n: nat, r: int, k: int) {
    0 <= r < n && (c == r + k * (2 * n - 2) || c == -r + k * (2 * n - 2))
  }

  /** The triangle wave over 0..n-1. */
  function Reflect(c: int, n: nat): (r: nat)
    requires n >= 2
    ensures r < n
  {
    var m := c % (2 * n - 2);
    if m < n then m else 2 * n - 2 - m
  }

  /** Each coordinate has exactly one reflection: the wave's value. */
  lemma ReflectionIsUnique(c: int, n: nat, r: int, k: int)
    requires n >= 2 && ReflectsAt(c, n, r, k)
    ensures Reflect(c, n) == r
  {
    var p := 2 * n - 2;
    if c == r + k * p {
      DivisionIs(c, p, k, r);
    } else {
      assert (k - 1) * p == k * p - p;
      DivisionIs(c, p, k - 1, p - r);
    }
  }

  lemma NextPeriod(c: int, p: int, x: int, s: int, k: int)
    requires (s == 1 || s == -1) && c == s * x + k * p
    ensures c == -s * (p - x) + (k + s) * p
  {
    assert (k + s) * p == k * p + s * p;
  }

  /** goodix_milan_reflect101_index: it ends, for every coordinate, on the wave. */
  method ReflectIndex(coordinate: int, length: nat) returns (index: nat)
    requires length >= 2
    ensures index == Reflect(coordinate, length)
  {
    var c := coordinate;
    ghost var s, k := 1, 0;
    while c < 0 || c >= length
      invariant (s == 1 || s == -1) && coordinate == s * c + k * (2 * length - 2)
      decreases if c < 0 then -c else c, if c < 0 then 1 else 0
    {
      if c < 0 {
        c := -c;
        s := -s;
      } else {
        var last := length - 1;
        NextPeriod(coordinate, 2 * length - 2, c, s, k);
        c := last - (c - last);
        s, k := -s, k + s;
      }
    }
    assert ReflectsAt(coordinate, length, c, k);
    ReflectionIsUnique(coordinate, length, c, k);
    index := c;
  }

  // -------------------------------------------------------- The 15 x 15 window

  const RADIUS := 7
  const RECIPROCAL := 291
  const Q16 := 65536
  const MAX_SUM := 225 * 65535

  newtype uint32 = x: int | 0 <= x < 0x1_0000_0000

  /** A plane of 16-bit gradients. */
  predicate Plane(g: seq<nat>, rows: nat, columns: nat) {
    rows >= 2 && columns >= 2 && |g| == rows * columns && forall i | 0 <= i < |g| :: g[i] < 65536
  }

  /** The pixel at any coordinates, borders reflected. */
  function Pixel(g: seq<nat>, rows: nat, columns: nat, y: int, x: int): (v: nat)
    requires Plane(g, rows, columns)
    ensures v < 65536
  {
    var r, c := Reflect(y, rows), Reflect(x, columns);
    IndexInPlane(r, c, rows, columns);
    g[Index(r, c, columns)]
  }

  /** Pixels of row y from column `lo` up to but not including `hi`. */
  function RowSum(g: seq<nat>, rows: nat, columns: nat, y: int, lo: int, hi: int): (s: nat)
    requires Plane(g, rows, columns) && lo <= hi
    ensures s <= (hi - lo) * 65535
    decreases hi - lo
  {
    if lo == hi then 0
    else RowSum(g, rows, columns, y, lo, hi - 1) + Pixel(g, rows, columns, y, hi - 1)
  }

  /** The fifteen pixels of row y around a column, with their multiplicities. */
  function RowWindow(g: seq<nat>, rows: nat, columns: nat, y: int, column: int): nat
    requires Plane(g, rows, columns)
  {
    RowSum(g, rows, columns, y, column - RADIUS, column + RADIUS + 1)
  }

  /** Row windows of rows `lo` up to but not including `hi`. */
  function Rows(g: seq<nat>, rows: nat, columns: nat, lo: int, hi: int, column: int): (s: nat)
    requires Plane(g, rows, columns) && lo <= hi
    ensures s <= (hi - lo) * 15 * 65535
    decreases hi - lo
  {
    if lo == hi then 0
    else Rows(g, rows, columns, lo, hi - 1, column) + RowWindow(g, rows, columns, hi - 1, column)
  }

  /** The direct 15 x 15 sum around a pixel, borders reflected. */
  function Window(g: seq<nat>, rows: nat, columns: nat, row: int, column: int): (s: nat)
    requires Plane(g, rows, columns)
    ensures s <= MAX_SUM
  {
    Rows(g, rows, columns, row - RADIUS, row + RADIUS + 1, column)
  }

  lemma {:induction false} RowSumFirst(g: seq<nat>, rows: nat, columns: nat, y: int, lo: int, hi: int)
    requires Plane(g, rows, columns) && lo < hi
    ensures RowSum(g, rows, columns, y, lo, hi)
         == Pixel(g, rows, columns, y, lo) + RowSum(g, rows, columns, y, lo + 1, hi)
    decreases hi - lo
  {
    if lo < hi - 1 {
      RowSumFirst(g, rows, columns, y, lo, hi - 1);
    }
  }

  /** One step to the right: a reflected pixel leaves, another enters. */
  lemma RowWindowSlides(g: seq<nat>, rows: nat, columns: nat, y: int, column: int)
    requires Plane(g, rows, columns)
    ensures Pixel(g, rows, columns, y, column - RADIUS) <= RowWindow(g, rows, columns, y, column)
    ensures RowWindow(g, rows, columns, y, column + 1)
         == RowWindow(g, rows, columns, y, column) - Pixel(g, rows, columns, y, column - RADIUS)
          + Pixel(g, rows, columns, y, column + RADIUS + 1)
  {
    RowSumFirst(g, rows, columns, y, column - RADIUS, column + RADIUS + 1);
  }

  /** The window with its first rows already moved one column to the right. */
  function Moving(g: seq<nat>, rows: nat, columns: nat, row: int, moved: int, column: int): nat
    requires Plane(g, rows, columns) && row - RADIUS <= moved <= row + RADIUS + 1
  {
    Rows(g, rows, columns, row - RADIUS, moved, column + 1) + Rows(g, rows, columns, moved, row + RADIUS + 1, column)
  }

  lemma {:induction false} RowsFirst(g: seq<nat>, rows: nat, columns: nat, lo: int, hi: int, column: int)
    requires Plane(g, rows, columns) && lo < hi
    ensures Rows(g, rows, columns, lo, hi, column)
         == RowWindow(g, rows, columns, lo, column) + Rows(g, rows, columns, lo + 1, hi, column)
    decreases hi - lo
  {
    if lo < hi - 1 {
      RowsFirst(g, rows, columns, lo, hi - 1, column);
    }
  }

  /** One more row moves; neither the subtraction nor the addition wraps. */
  lemma MovingStep(g: seq<nat>, rows: nat, columns: nat, row: int, y: int, column: int)
    requires Plane(g, rows, columns) && row - RADIUS <= y <= row + RADIUS
    ensures var leaving := Pixel(g, rows, columns, y, column - RADIUS);
      var entering := Pixel(g, rows, columns, y, column + RADIUS + 1);
      && leaving <= Moving(g, rows, columns, row, y, column)
      && Moving(g, rows, columns, row, y + 1, column) == Moving(g, rows, columns, row, y, column) - leaving + entering
    ensures Moving(g, rows, columns, row, y, column) <= 2 * MAX_SUM
  {
    hide RowWindow, Pixel;
    RowWindowSlides(g, rows, columns, y, column);
    RowsFirst(g, rows, columns, y, row + RADIUS + 1, column);
  }

  // ------------------------------------------------------------ Thresholding

  /** The Q16 reciprocal of 225 applied to a window sum. */
  function Average(sum: nat): nat {
    sum * RECIPROCAL / Q16
  }

  /** In 32 bits the product cannot wrap, nor the quotient exceed 16 bits. */
  lemma AverageFits(sum: nat)
    requires sum <= MAX_SUM
    ensures sum * RECIPROCAL < 0x1_0000_0000 && Average(sum) < 65536
    ensures Average(sum) <= sum / 225
  {
  }

  /** What thresholding makes of pixel i. */
  function Expected(g: seq<nat>, rows: nat, columns: nat, threshold: nat, value: nat, i: nat): nat
    requires Plane(g, rows, columns)
  {
    if Average(Window(g, rows, columns, i / columns, i % columns)) > threshold then value else 0
  }

  function Selected(mask: seq<nat>): nat {
    if mask == [] then 0 else Selected(mask[..|mask| - 1]) + if mask[|mask| - 1] != 0 then 1 else 0
  }

  /** The window sum of a row's first column, row by row. */
  method FirstWindow(g: seq<nat>, rows: nat, columns: nat, row: nat) returns (sum: uint32)
    requires Plane(g, rows, columns)
    ensures sum as int == Window(g, rows, columns, row, 0)
  {
    sum := 0;
    for yOffset := -RADIUS to RADIUS + 1
      invariant sum as int == Rows(g, rows, columns, row - RADIUS, row + yOffset, 0)
    {
      var y := ReflectIndex(row + yOffset, rows);
      ghost var before := sum;
      for xOffset := -RADIUS to RADIUS + 1
        invariant sum as int == before as int + RowSum(g, rows, columns, row + yOffset, -RADIUS, xOffset)
      {
        var x := ReflectIndex(xOffset, columns);
        IndexInPlane(y, x, rows, columns);
        sum := sum + g[y * columns + x] as uint32;
      }
    }
  }

  /** The window moves one column to the right, row by row. */
  method SlideWindow(g: seq<nat>, rows: nat, columns: nat, row: nat, column: nat, start: uint32) returns (sum: uint32)
    requires Plane(g, rows, columns) && start as int == Window(g, rows, columns, row, column)
    ensures sum as int == Window(g, rows, columns, row, column + 1)
  {
    var leaving := ReflectIndex(column - RADIUS, columns);
    var entering := ReflectIndex(column + RADIUS + 1, columns);
    sum := start;
    for yOffset := -RADIUS to RADIUS + 1
      invariant sum as int == Moving(g, rows, columns, row, row + yOffset, column)
    {
      var y := ReflectIndex(row + yOffset, rows);
      MovingStep(g, rows, columns, row, row + yOffset, column);
      IndexInPlane(y, leaving, rows, columns);
      IndexInPlane(y, entering, rows, columns);
      sum := sum - g[y * columns + leaving] as uint32;
      sum := sum + g[y * columns + entering] as uint32;
    }
  }

  /** quality_threshold_gradient_window: the sum is maintained, never recomputed
      within a row, yet every pixel is judged by its direct window. */
  method ThresholdWindow(g: seq<nat>, rows: nat, columns: nat, threshold: nat, value: nat)
    returns (mask: array<nat>, selected: nat)
    requires Plane(g, rows, columns)
    ensures fresh(mask) && mask.Length == rows * columns
    ensures forall i | 0 <= i < mask.Length :: mask[i] == Expected(g, rows, columns, threshold, value, i)
    ensures selected == Selected(mask[..])
  {
    hide Window, Selected;
    mask := new nat[rows * columns];
    selected := 0;
    NoneSelected(mask[..0]);
    for row := 0 to rows
      invariant Index(row, 0, columns) <= mask.Length
      invariant forall i | 0 <= i < Index(row, 0, columns) :: mask[i] == Expected(g, rows, columns, threshold, value, i)
      invariant selected == Selected(mask[..Index(row, 0, columns)])
    {
      var sum := FirstWindow(g, rows, columns, row);
      NextRow(row, columns);
      for column := 0 to columns
        invariant Index(row, column, columns) <= mask.Length
        invariant column < columns ==> sum as int == Window(g, rows, columns, row, column)
        invariant forall i | 0 <= i < Index(row, column, columns) :: mask[i] == Expected(g, rows, columns, threshold, value, i)
        invariant selected == Selected(mask[..Index(row, column, columns)])
      {
        IndexInPlane(row, column, rows, columns);
        var index := Index(row, column, columns);
        AverageFits(sum as int);
        var average := (sum * (RECIPROCAL as uint32)) / (Q16 as uint32);
        mask[index] := if average as int > threshold then value else 0;
        OneMoreSelected(mask[..index + 1]);
        assert mask[..index + 1][..index] == mask[..index];
        selected := selected + if mask[index] != 0 then 1 else 0;
        if column + 1 < columns {
          sum := SlideWindow(g, rows, columns, row, column, sum);
        }
      }
    }
    assert mask[..Index(rows, 0, columns)] == mask[..];
  }

  lemma NoneSelected(mask: seq<nat>)
    requires mask == []
    ensures Selected(mask) == 0
  {
  }

  lemma OneMoreSelected(mask: seq<nat>)
    requires mask != []
    ensures Selected(mask) == Selected(mask[..|mask| - 1]) + if mask[|mask| - 1] != 0 then 1 else 0
  {
  }
}
