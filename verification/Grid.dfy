/** Index arithmetic of row-major pixel planes. */
module Grid {
  function Index(row: nat, column: nat, columns: nat): nat {
    row * columns + column
  }

  lemma MulGap(a: int, b: int, d: nat)
    ensures a < b ==> a * d + d <= b * d
  {
    if a < b {
      assert (b - a - 1) * d >= 0;
      assert b * d == a * d + (b - a - 1) * d + d;
    }
  }

  /** The quotient and remainder of a division are the only ones that fit. */
  lemma DivisionIs(n: int, d: nat, q: int, r: int)
    requires 0 <= r < d && n == q * d + r
    ensures n / d == q && n % d == r
  {
    MulGap(n / d, q, d);
    MulGap(q, n / d, d);
  }

  lemma IndexInPlane(row: nat, column: nat, rows: nat, columns: nat)
    requires row < rows && column < columns
    ensures Index(row, column, columns) < rows * columns
    ensures Index(row, column, columns) / columns == row && Index(row, column, columns) % columns == column
  {
    MulGap(row, rows, columns);
    DivisionIs(Index(row, column, columns), columns, row, column);
  }

  lemma ProductGrows(a: nat, b: nat, c: nat, d: nat)
    requires a <= c && b <= d
    ensures a * b <= c * d
  {
    assert c * d == a * b + a * (d - b) + (c - a) * d;
    assert a * (d - b) >= 0 && (c - a) * d >= 0;
  }

  lemma NextRow(row: nat, columns: nat)
    ensures Index(row + 1, 0, columns) == Index(row, columns, columns)
  {
  }
}
