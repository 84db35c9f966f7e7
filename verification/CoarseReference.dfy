/**
 The half-resolution history reference of the Milan state file
 (drivers/goodix53x5/device/persistence.c): 2x2 blocks are averaged into signed
 words on the way out and interpolated back, with signed 16-bit and 32-bit
 wrap-around and the hand-written arithmetic shift spelled out.
 */
module CoarseReference {
  import Grid

  const ROWS := 88
  const COLUMNS := 108
  const PIXELS := 9504
  const COARSE_ROWS := 44
  const COARSE_COLUMNS := 54
  const COARSE_PIXELS := 2376

  const U16 := 0x1_0000
  const U32 := 0x1_0000_0000

  type Word = n: nat | n < 0x1_0000

  // ------------------------------------------------------------ Machine integers

  function Signed(w: Word): int {
    if w < 0x8000 then w else w - U16
  }

  function Unsigned(v: int): Word {
    v % U16
  }

  function Signed32(bits: int): int {
    if bits % U32 < 0x8000_0000 then bits % U32 else bits % U32 - U32
  }

  function Pow2(n: nat): (p: nat)
    ensures p > 0
  {
    if n == 0 then 1 else 2 * Pow2(n - 1)
  }

  /** Bitwise inclusive or. */
  function Or(a: nat, b: nat): nat {
    if a == 0 then b
    else 2 * Or(a / 2, b / 2) + if a % 2 == 1 || b % 2 == 1 then 1 else 0
  }

  function Quotient(n: nat, d: nat): nat
    requires d > 0
  {
    QuotientShrinks(n, d);
    n / d
  }

  /** A 32-bit word shifted right without a sign. */
  function Shifted(bits: nat, shift: nat): nat {
    Quotient(bits, Pow2(shift))
  }

  /** A 32-bit word of ones, shifted left. */
  function HighOnes(shift: nat): nat {
    (U32 - 1) * Pow2(shift) % U32
  }

  /** goodix_milan_shift_right: the shifted bits, for a negative value joined with
      ones shifted in from the left. */
  function ShiftRight(value: int, shift: nat): int
    requires 0 < shift < 32
  {
    var bits := value % U32;
    if value >= 0 then Signed32(Shifted(bits, shift))
    else Signed32(Or(Shifted(bits, shift), HighOnes(32 - shift)))
  }

  /** Numbers without a one in common are joined by adding them. */
  lemma {:induction false} OrIsSum(a: nat, b: nat, k: nat)
    requires a < Pow2(k)
    ensures Or(a, b * Pow2(k)) == a + b * Pow2(k)
  {
    if a != 0 {
      var half := b * Pow2(k - 1);
      assert b * Pow2(k) == 2 * half;
      OrIsSum(a / 2, b, k - 1);
    }
  }

  lemma {:induction false} PowSum(a: nat, b: nat)
    ensures Pow2(a) * Pow2(b) == Pow2(a + b)
  {
    if a == 0 {
    } else {
      PowSum(a - 1, b);
      assert Pow2(a) * Pow2(b) == 2 * (Pow2(a - 1) * Pow2(b));
    }
  }

  lemma {:induction false} PowGrows(a: nat, b: nat)
    requires a <= b
    ensures Pow2(a) <= Pow2(b)
  {
    if a < b {
      PowGrows(a, b - 1);
    }
  }

  lemma PowFacts()
    ensures Pow2(32) == U32 && Pow2(16) == U16 && Pow2(2) == 4
  {
    assert Pow2(4) == 16;
    PowSum(4, 4);
    PowSum(8, 8);
    PowSum(16, 16);
  }

  lemma Complements(shift: nat)
    requires shift <= 32
    ensures Pow2(shift) * Pow2(32 - shift) == U32
  {
    PowSum(shift, 32 - shift);
    PowFacts();
    hide Pow2;
  }

  /** The ones above the low bits, as a number. */
  lemma HighOnesAre(shift: nat)
    requires shift <= 32
    ensures HighOnes(shift) == (Pow2(32 - shift) - 1) * Pow2(shift) == U32 - Pow2(shift)
  {
    var p, q := Pow2(32 - shift), Pow2(shift);
    Complements(32 - shift);
    hide Pow2;
    assert (p - 1) * q == p * q - q;
    assert (U32 - 1) * q == (q - 1) * U32 + (U32 - q);
    Grid.MulGap(0, p, q);
    Grid.DivisionIs((U32 - 1) * q, U32, q - 1, U32 - q);
  }

  lemma ShiftedFits(bits: nat, shift: nat)
    requires bits < U32 && shift <= 32
    ensures Shifted(bits, shift) < Pow2(32 - shift)
  {
    var p, q := Pow2(shift), Pow2(32 - shift);
    Complements(shift);
    hide Pow2;
    if bits / p >= q { Grid.ProductGrows(q, p, bits / p, p); }
  }

  /** The ones shifted in and the shifted bits have no place in common. */
  lemma JoinedIsSum(bits: nat, shift: nat)
    requires bits < U32 && shift <= 32
    ensures Or(Shifted(bits, shift), HighOnes(32 - shift)) == Shifted(bits, shift) + U32 - Pow2(32 - shift)
  {
    HighOnesAre(32 - shift);
    ShiftedFits(bits, shift);
    hide Pow2, Shifted, HighOnes, Or;
    OrIsSum(Shifted(bits, shift), Pow2(shift) - 1, 32 - shift);
  }

  /** The shift is floor division by the power of two, for every 32-bit value. */
  lemma ShiftIsFloor(value: int, shift: nat)
    requires -0x8000_0000 <= value < 0x8000_0000 && 0 < shift < 32
    ensures ShiftRight(value, shift) == value / Pow2(shift)
  {
    hide Pow2, Signed32, HighOnes, Or;
    Complements(shift);
    if value >= 0 {
      PositiveShift(value, Pow2(shift));
    } else {
      JoinedIsSum(value % U32, shift);
      NegativeShift(value, Pow2(shift), Pow2(32 - shift));
    }
  }

  lemma PositiveShift(value: int, p: nat)
    requires 0 <= value < 0x8000_0000 && p >= 1
    ensures Signed32(value % U32 / p) == value / p
  {
    QuotientShrinks(value, p);
  }

  lemma NegativeShift(value: int, p: nat, q: nat)
    requires -0x8000_0000 <= value < 0 && p >= 1 && p * q == U32
    ensures Signed32(value % U32 / p + U32 - q) == value / p
  {
    var v, r := value / p, value % p;
    NegativeQuotient(value, p);
    assert value + U32 == (v + q) * p + r by {
      assert value == v * p + r;
    }
    Grid.DivisionIs(value + U32, p, v + q, r);
    assert value % U32 == value + U32;
  }

  lemma QuotientShrinks(value: nat, p: nat)
    requires p >= 1
    ensures 0 <= value / p <= value
  {
    assert value * p >= value;
    Grid.MulGap(value, value / p, p);
    Grid.MulGap(value / p, 0, p);
  }

  lemma NegativeQuotient(value: int, p: nat)
    requires p >= 1 && value < 0
    ensures value <= value / p < 0
  {
    assert -value * p >= -value;
    Grid.MulGap(value / p, value, p);
    Grid.MulGap(-1, value / p, p);
  }

  // ------------------------------------------------------------ Storing

  function Pixel(input: seq<Word>, row: nat, column: nat): int
    requires |input| == PIXELS && row < ROWS && column < COLUMNS
  {
    Grid.IndexInPlane(row, column, ROWS, COLUMNS);
    Signed(input[row * COLUMNS + column])
  }

  function BlockSum(input: seq<Word>, row: nat, column: nat): int
    requires |input| == PIXELS && row < COARSE_ROWS && column < COARSE_COLUMNS
  {
    Pixel(input, 2 * row, 2 * column) + Pixel(input, 2 * row, 2 * column + 1)
    + Pixel(input, 2 * row + 1, 2 * column) + Pixel(input, 2 * row + 1, 2 * column + 1)
  }

  function StoredAt(input: seq<Word>, row: nat, column: nat): Word
    requires |input| == PIXELS && row < COARSE_ROWS && column < COARSE_COLUMNS
  {
    Unsigned(ShiftRight(BlockSum(input, row, column), 2))
  }

  /** goodix_milan_store_reference, as the plane of words it packs. */
  function Stored(input: seq<Word>): (packed: seq<Word>)
    requires |input| == PIXELS
    ensures |packed| == COARSE_PIXELS
  {
    seq(COARSE_PIXELS, k requires 0 <= k < COARSE_PIXELS => StoredAt(input, k / COARSE_COLUMNS, k % COARSE_COLUMNS))
  }

  // ------------------------------------------------------------ Restoring

  function Sample(source: seq<Word>, y: nat, x: nat): int
    requires |source| == COARSE_PIXELS && y < COARSE_ROWS && x < COARSE_COLUMNS
  {
    Grid.IndexInPlane(y, x, COARSE_ROWS, COARSE_COLUMNS);
    Signed(source[y * COARSE_COLUMNS + x])
  }

  /** The one or two samples of a coarse row from a column on. */
  function RowPair(source: seq<Word>, y: nat, x: nat): seq<int>
    requires |source| == COARSE_PIXELS && y < COARSE_ROWS && x < COARSE_COLUMNS
  {
    if x + 1 < COARSE_COLUMNS then [Sample(source, y, x), Sample(source, y, x + 1)] else [Sample(source, y, x)]
  }

  /** The samples around a pixel that exist: four inside, two along the last
      coarse row or column, one in their corner. */
  function Neighbours(source: seq<Word>, row: nat, column: nat): (values: seq<int>)
    requires |source| == COARSE_PIXELS && row < ROWS && column < COLUMNS
    ensures |values| in {1, 2, 4}
  {
    var y, x := row / 2, column / 2;
    RowPair(source, y, x) + if y + 1 < COARSE_ROWS then RowPair(source, y + 1, x) else []
  }

  /** The weight of one neighbour, out of 65536. */
  function Share(fx: nat, fy: nat): nat {
    fx * fy
  }

  /** The 32-bit weighted sum, on unsigned operands as the code forms it. */
  function Weighted(a: int, b: int, c: int, d: int, fx: nat, fy: nat): int
    requires fx in {0, 128} && fy in {0, 128}
  {
    (a % U32 * Share(256 - fx, 256 - fy) + b % U32 * Share(fx, 256 - fy)
     + c % U32 * Share(256 - fx, fy) + d % U32 * Share(fx, fy) + 0x8000) % U32
  }

  function Half(coordinate: nat): (f: nat)
    ensures f in {0, 128}
  {
    if coordinate % 2 == 1 then 128 else 0
  }

  function Blend(values: seq<int>, row: nat, column: nat): int
    requires |values| == 4
  {
    ShiftRight(Signed32(Weighted(values[0], values[1], values[2], values[3], Half(column), Half(row))), 16)
  }

  function Sum(values: seq<int>): int {
    if values == [] then 0 else Sum(values[..|values| - 1]) + values[|values| - 1]
  }

  /** Division of the C language: toward zero. */
  function Truncated(a: int, n: nat): int
    requires n > 0
  {
    if a >= 0 then a / n else -(-a / n)
  }

  function Interpolated(values: seq<int>, row: nat, column: nat): int
    requires |values| > 0
  {
    if |values| == 4 then Blend(values, row, column) else Truncated(Sum(values), |values|)
  }

  function RestoredAt(source: seq<Word>, row: nat, column: nat): Word
    requires |source| == COARSE_PIXELS && row < ROWS && column < COLUMNS
  {
    Unsigned(Interpolated(Neighbours(source, row, column), row, column))
  }

  /** goodix_milan_restore_reference. */
  function Restored(source: seq<Word>): (plane: seq<Word>)
    requires |source| == COARSE_PIXELS
    ensures |plane| == PIXELS
  {
    seq(PIXELS, k requires 0 <= k < PIXELS => RestoredAt(source, k / COLUMNS, k % COLUMNS))
  }

  // ------------------------------------------------------------ Main results

  predicate Within(values: seq<int>, lo: int, hi: int) {
    forall v | v in values :: lo <= v <= hi
  }

  function Borrow(v: int): int {
    if v < 0 then 1 else 0
  }

  lemma Term(v: int, w: nat, lo: int, hi: int)
    requires -0x8000 <= lo <= v <= hi <= 0x7fff
    ensures v % U32 * w == v * w + Borrow(v) * w * U32
    ensures lo * w <= v * w <= hi * w
  {
    assert v % U32 == v + Borrow(v) * U32;
    assert (v - lo) * w >= 0 && (hi - v) * w >= 0;
  }

  lemma Rewrapped(exact: int, k: int)
    requires -0x8000_0000 <= exact < 0x8000_0000
    ensures Signed32((exact + k * U32) % U32) == exact
  {
    if exact >= 0 {
      Grid.DivisionIs(exact + k * U32, U32, k, exact);
    } else {
      Grid.DivisionIs(exact + k * U32, U32, k - 1, exact + U32);
    }
  }

  /** On signed words the unsigned 32-bit sum loses nothing, and is a weighted
      mean of its operands. */
  lemma MeanExact(a: int, b: int, c: int, d: int, wa: nat, wb: nat, wc: nat, wd: nat, lo: int, hi: int)
    requires wa + wb + wc + wd == U16
    requires Within([a, b, c, d], lo, hi) && -0x8000 <= lo <= hi <= 0x7fff
    ensures var mean := a * wa + b * wb + c * wc + d * wd;
      && lo * U16 <= mean <= hi * U16
      && Signed32((a % U32 * wa + b % U32 * wb + c % U32 * wc + d % U32 * wd + 0x8000) % U32) == mean + 0x8000
  {
    assert a in [a, b, c, d] && b in [a, b, c, d] && c in [a, b, c, d] && d in [a, b, c, d];
    Term(a, wa, lo, hi);
    Term(b, wb, lo, hi);
    Term(c, wc, lo, hi);
    Term(d, wd, lo, hi);
    Distributed(lo, wa, wb, wc, wd);
    Distributed(hi, wa, wb, wc, wd);
    hide Signed32, Within, Borrow;
    var mean := a * wa + b * wb + c * wc + d * wd;
    var k := Borrow(a) * wa + Borrow(b) * wb + Borrow(c) * wc + Borrow(d) * wd;
    Rewrapped(mean + 0x8000, k);
  }

  lemma Distributed(x: int, a: int, b: int, c: int, d: int)
    ensures x * a + x * b + x * c + x * d == x * (a + b + c + d)
  {
  }

  lemma Shares(fx: nat, fy: nat)
    requires fx in {0, 128} && fy in {0, 128}
    ensures Share(256 - fx, 256 - fy) + Share(fx, 256 - fy) + Share(256 - fx, fy) + Share(fx, fy) == U16
    ensures fx == 0 && fy == 0 ==> Share(256 - fx, 256 - fy) == U16
  {
  }

  lemma BlendWithin(values: seq<int>, row: nat, column: nat, lo: int, hi: int)
    requires |values| == 4 && Within(values, lo, hi) && -0x8000 <= lo <= hi <= 0x7fff
    ensures lo <= Blend(values, row, column) <= hi
    ensures row % 2 == 0 && column % 2 == 0 ==> Blend(values, row, column) == values[0]
  {
    var a, b, c, d := values[0], values[1], values[2], values[3];
    var fx, fy := Half(column), Half(row);
    var wa, wb, wc, wd := Share(256 - fx, 256 - fy), Share(fx, 256 - fy), Share(256 - fx, fy), Share(fx, fy);
    Shares(fx, fy);
    assert values == [a, b, c, d];
    MeanExact(a, b, c, d, wa, wb, wc, wd, lo, hi);
    var mean := a * wa + b * wb + c * wc + d * wd;
    ShiftIsFloor(mean + 0x8000, 16);
    PowFacts();
    hide Share, ShiftRight, Pow2, Signed32;
    Rounded(mean, lo, hi);
    if row % 2 == 0 && column % 2 == 0 {
      Alone(a, b, c, d, wa, wb, wc, wd);
    }
  }

  lemma Rounded(mean: int, lo: int, hi: int)
    requires lo * U16 <= mean <= hi * U16
    ensures lo <= (mean + 0x8000) / U16 <= hi
  {
  }

  lemma Alone(a: int, b: int, c: int, d: int, wa: nat, wb: nat, wc: nat, wd: nat)
    requires wa == U16 && wb == wc == wd == 0
    ensures (a * wa + b * wb + c * wc + d * wd + 0x8000) / U16 == a
  {
    assert b * wb == 0 && c * wc == 0 && d * wd == 0;
  }

  lemma TruncatedWithin(a: int, n: nat, lo: int, hi: int)
    requires n > 0 && n * lo <= a <= n * hi
    ensures lo <= Truncated(a, n) <= hi
  {
    if a >= 0 {
      QuotientWithin(a, n, lo, hi);
    } else {
      assert n * -hi <= -a <= n * -lo;
      QuotientWithin(-a, n, -hi, -lo);
    }
  }

  lemma QuotientWithin(a: nat, n: nat, lo: int, hi: int)
    requires n > 0 && n * lo <= a <= n * hi
    ensures lo <= a / n <= hi
  {
    Grid.MulGap(a / n, lo, n);
    Grid.MulGap(hi, a / n, n);
  }

  lemma {:induction false} SumWithin(values: seq<int>, lo: int, hi: int)
    requires Within(values, lo, hi)
    ensures |values| * lo <= Sum(values) <= |values| * hi
  {
    if values != [] {
      var n := |values| - 1;
      assert values[n] in values;
      assert forall v | v in values[..n] :: v in values;
      SumWithin(values[..n], lo, hi);
    }
  }

  /** Every interpolated value lies between the samples it is made from. */
  lemma InterpolationBetween(values: seq<int>, row: nat, column: nat, lo: int, hi: int)
    requires |values| in {1, 2, 4} && Within(values, lo, hi) && -0x8000 <= lo <= hi <= 0x7fff
    ensures lo <= Interpolated(values, row, column) <= hi
  {
    if |values| == 4 {
      BlendWithin(values, row, column, lo, hi);
    } else {
      SumWithin(values, lo, hi);
      TruncatedWithin(Sum(values), |values|, lo, hi);
    }
  }

  lemma NeighboursAreWords(source: seq<Word>, row: nat, column: nat)
    requires |source| == COARSE_PIXELS && row < ROWS && column < COLUMNS
    ensures Within(Neighbours(source, row, column), -0x8000, 0x7fff)
  {
  }

  /** Exactly the packed sample comes back at even coordinates off the last
      coarse row and column. */
  lemma EvenPixelsExact(source: seq<Word>, row: nat, column: nat)
    requires |source| == COARSE_PIXELS && row + 1 < COARSE_ROWS && column + 1 < COARSE_COLUMNS
    ensures RestoredAt(source, 2 * row, 2 * column) == source[row * COARSE_COLUMNS + column]
  {
    hide Blend, Neighbours, Truncated, Sum, Within;
    Grid.IndexInPlane(row, column, COARSE_ROWS, COARSE_COLUMNS);
    NeighboursAreWords(source, 2 * row, 2 * column);
    FirstNeighbour(source, row, column);
    BlendWithin(Neighbours(source, 2 * row, 2 * column), 2 * row, 2 * column, -0x8000, 0x7fff);
    SignedBack(source[row * COARSE_COLUMNS + column]);
  }

  lemma FirstNeighbour(source: seq<Word>, row: nat, column: nat)
    requires |source| == COARSE_PIXELS && row + 1 < COARSE_ROWS && column + 1 < COARSE_COLUMNS
    ensures var values := Neighbours(source, 2 * row, 2 * column); |values| == 4 && values[0] == Sample(source, row, column)
  {
    hide Sample;
  }

  lemma SignedBack(w: Word)
    ensures Unsigned(Signed(w)) == w
  {
  }

  lemma UnsignedBack(v: int)
    requires -0x8000 <= v <= 0x7fff
    ensures Signed(Unsigned(v)) == v
  {
  }

  /** Along the last coarse row an even pixel is the truncated mean of two
      samples instead. */
  lemma LastRowAverages(source: seq<Word>, column: nat)
    requires |source| == COARSE_PIXELS && column + 1 < COARSE_COLUMNS
    ensures var s := Sample(source, COARSE_ROWS - 1, column) + Sample(source, COARSE_ROWS - 1, column + 1);
      RestoredAt(source, ROWS - 2, 2 * column) == Unsigned(Truncated(s, 2))
  {
    var a, b := Sample(source, COARSE_ROWS - 1, column), Sample(source, COARSE_ROWS - 1, column + 1);
    assert Neighbours(source, ROWS - 2, 2 * column) == [a, b];
    assert [a, b][..1] == [a] && [a][..0] == [];
    assert Sum([a]) == a;
    assert Sum([a, b]) == a + b;
  }

  /** Restored pixels stay between the coarse samples around them, so the
      narrowing cast loses nothing. */
  lemma RestoredBetween(source: seq<Word>, row: nat, column: nat, lo: int, hi: int)
    requires |source| == COARSE_PIXELS && row < ROWS && column < COLUMNS
    requires Within(Neighbours(source, row, column), lo, hi) && -0x8000 <= lo <= hi <= 0x7fff
    ensures lo <= Signed(RestoredAt(source, row, column)) <= hi
    ensures Signed(RestoredAt(source, row, column)) == Interpolated(Neighbours(source, row, column), row, column)
  {
    InterpolationBetween(Neighbours(source, row, column), row, column, lo, hi);
    hide Interpolated, Neighbours;
    UnsignedBack(Interpolated(Neighbours(source, row, column), row, column));
  }

  /** A stored sample lies between the four pixels of its block. */
  lemma StoredBetween(input: seq<Word>, row: nat, column: nat, lo: int, hi: int)
    requires |input| == PIXELS && row < COARSE_ROWS && column < COARSE_COLUMNS
    requires -0x8000 <= lo <= hi <= 0x7fff
    requires forall r, c | 2 * row <= r < 2 * row + 2 && 2 * column <= c < 2 * column + 2 :: lo <= Pixel(input, r, c) <= hi
    ensures lo <= Signed(StoredAt(input, row, column)) <= hi
    ensures Signed(StoredAt(input, row, column)) == BlockSum(input, row, column) / 4
  {
    var s := BlockSum(input, row, column);
    assert 4 * lo <= s <= 4 * hi by { hide Pixel; }
    hide Pixel, BlockSum;
    ShiftIsFloor(s, 2);
    PowFacts();
    hide ShiftRight, Pow2;
    UnsignedBack(s / 4);
  }

  /** What a save and a restore do to a reference: it stays within whatever
      bounds it had; a flat one comes back exactly. */
  lemma SavedReferenceBounded(input: seq<Word>, lo: int, hi: int)
    requires |input| == PIXELS && -0x8000 <= lo <= hi <= 0x7fff
    requires forall i | 0 <= i < PIXELS :: lo <= Signed(input[i]) <= hi
    ensures forall i | 0 <= i < PIXELS :: lo <= Signed(Restored(Stored(input))[i]) <= hi
  {
    var packed := Stored(input);
    forall k | 0 <= k < COARSE_PIXELS ensures lo <= Signed(packed[k]) <= hi {
      StoredBetween(input, k / COARSE_COLUMNS, k % COARSE_COLUMNS, lo, hi);
      hide StoredAt;
    }
    hide Stored;
    forall i | 0 <= i < PIXELS ensures lo <= Signed(Restored(packed)[i]) <= hi {
      NeighboursWithin(packed, i / COLUMNS, i % COLUMNS, lo, hi);
      hide Neighbours;
      RestoredBetween(packed, i / COLUMNS, i % COLUMNS, lo, hi);
      hide RestoredAt;
    }
  }

  lemma NeighboursWithin(source: seq<Word>, row: nat, column: nat, lo: int, hi: int)
    requires |source| == COARSE_PIXELS && row < ROWS && column < COLUMNS
    requires forall i | 0 <= i < COARSE_PIXELS :: lo <= Signed(source[i]) <= hi
    ensures Within(Neighbours(source, row, column), lo, hi)
  {
    var y, x := row / 2, column / 2;
    forall y, x | 0 <= y < COARSE_ROWS && 0 <= x < COARSE_COLUMNS ensures lo <= Sample(source, y, x) <= hi {
      Grid.IndexInPlane(y, x, COARSE_ROWS, COARSE_COLUMNS);
    }
  }

  // ---------------------------------------------------- As persistence.c runs it

  /** One row of the bounded double loop over up to four samples. */
  method GatherRow(source: seq<Word>, y: nat, x0: nat) returns (values: seq<int>)
    requires |source| == COARSE_PIXELS && y < COARSE_ROWS && x0 < COARSE_COLUMNS
    ensures values == RowPair(source, y, x0)
  {
    values := [];
    var x := x0;
    while x < x0 + 2 && x < COARSE_COLUMNS
      invariant x0 <= x <= x0 + 2 && x <= COARSE_COLUMNS
      invariant values == RowPair(source, y, x0)[..x - x0]
    {
      values := values + [Sample(source, y, x)];
      x := x + 1;
    }
  }

  method Gather(source: seq<Word>, row: nat, column: nat) returns (values: seq<int>)
    requires |source| == COARSE_PIXELS && row < ROWS && column < COLUMNS
    ensures values == Neighbours(source, row, column)
  {
    hide RowPair;
    values := [];
    var y0, x0 := row / 2, column / 2;
    var y := y0;
    while y < y0 + 2 && y < COARSE_ROWS
      invariant y0 <= y <= y0 + 2 && y <= COARSE_ROWS
      invariant values == (if y > y0 then RowPair(source, y0, x0) else []) + (if y > y0 + 1 then RowPair(source, y0 + 1, x0) else [])
    {
      var more := GatherRow(source, y, x0);
      values := values + more;
      y := y + 1;
    }
  }

  /** The value of one pixel. */
  method InterpolatePixel(source: seq<Word>, row: nat, column: nat) returns (pixel: Word)
    requires |source| == COARSE_PIXELS && row < ROWS && column < COLUMNS
    ensures pixel == RestoredAt(source, row, column)
  {
    hide Neighbours, Blend, Sum, Truncated;
    var values := Gather(source, row, column);
    var value := 0;
    if |values| == 4 {
      value := Blend(values, row, column);
    } else {
      var sum := SumValues(values);
      value := Truncated(sum, |values|);
    }
    pixel := Unsigned(value);
  }

  lemma RestoredIndex(source: seq<Word>, row: nat, column: nat)
    requires |source| == COARSE_PIXELS && row < ROWS && column < COLUMNS
    ensures row * COLUMNS + column < PIXELS
    ensures Restored(source)[row * COLUMNS + column] == RestoredAt(source, row, column)
  {
    Grid.IndexInPlane(row, column, ROWS, COLUMNS);
  }

  /** The pixel loops of goodix_milan_restore_reference. */
  method RestoreReference(source: seq<Word>, output: array<Word>)
    requires |source| == COARSE_PIXELS && output.Length == PIXELS
    modifies output
    ensures output[..] == Restored(source)
  {
    hide RestoredAt, Restored;
    var row := 0;
    while row < ROWS
      invariant 0 <= row <= ROWS
      invariant forall k | 0 <= k < row * COLUMNS :: output[k] == Restored(source)[k]
    {
      var column := 0;
      while column < COLUMNS
        invariant 0 <= column <= COLUMNS
        invariant forall k | 0 <= k < row * COLUMNS + column :: output[k] == Restored(source)[k]
      {
        var pixel := InterpolatePixel(source, row, column);
        RestoredIndex(source, row, column);
        output[row * COLUMNS + column] := pixel;
        column := column + 1;
      }
      row := row + 1;
    }
  }

  method SumValues(values: seq<int>) returns (sum: int)
    ensures sum == Sum(values)
  {
    sum := 0;
    var i := 0;
    while i < |values|
      invariant 0 <= i <= |values|
      invariant sum == Sum(values[..i])
    {
      assert values[..i + 1][..i] == values[..i];
      sum := sum + values[i];
      i := i + 1;
    }
    assert values[..|values|] == values;
  }
}
