/** Bytes of eight bits and the numbers they carry, bit by bit. */
module Octets {
  function Weight(set_: bool, w: bv8): bv8 {
    if set_ then w else 0
  }

  function Amount(set_: bool): (a: nat)
    ensures a <= 1
  {
    if set_ then 1 else 0
  }

  function Sum(d0: nat, d1: nat, d2: nat, d3: nat, d4: nat, d5: nat, d6: nat, d7: nat): nat {
    d0 + 2 * d1 + 4 * d2 + 8 * d3 + 16 * d4 + 32 * d5 + 64 * d6 + 128 * d7
  }

  function Assemble(b0: bool, b1: bool, b2: bool, b3: bool, b4: bool, b5: bool, b6: bool, b7: bool): bv8 {
    Weight(b0, 1) | Weight(b1, 2) | Weight(b2, 4) | Weight(b3, 8)
    | Weight(b4, 16) | Weight(b5, 32) | Weight(b6, 64) | Weight(b7, 128)
  }

  function Total(b0: bool, b1: bool, b2: bool, b3: bool, b4: bool, b5: bool, b6: bool, b7: bool): nat {
    Sum(Amount(b0), Amount(b1), Amount(b2), Amount(b3), Amount(b4), Amount(b5), Amount(b6), Amount(b7))
  }

  /** The low eight bits of a number. */
  function Byte(n: nat): bv8 {
    var n1 := Half(n);
    var n2 := Half(n1);
    var n3 := Half(n2);
    var n4 := Half(n3);
    var n5 := Half(n4);
    var n6 := Half(n5);
    Assemble(Odd(n), Odd(n1), Odd(n2), Odd(n3), Odd(n4), Odd(n5), Odd(n6), Odd(Half(n6)))
  }

  /** The number a byte carries. */
  function Value(b: bv8): nat {
    Total(b & 1 != 0, b & 2 != 0, b & 4 != 0, b & 8 != 0, b & 16 != 0, b & 32 != 0, b & 64 != 0, b & 128 != 0)
  }

  lemma Assembled(b0: bool, b1: bool, b2: bool, b3: bool, b4: bool, b5: bool, b6: bool, b7: bool)
    ensures Value(Assemble(b0, b1, b2, b3, b4, b5, b6, b7)) == Total(b0, b1, b2, b3, b4, b5, b6, b7)
  {
    var b := Assemble(b0, b1, b2, b3, b4, b5, b6, b7);
    assert (b & 1 != 0) == b0 && (b & 2 != 0) == b1 && (b & 4 != 0) == b2 && (b & 8 != 0) == b3;
    assert (b & 16 != 0) == b4 && (b & 32 != 0) == b5 && (b & 64 != 0) == b6 && (b & 128 != 0) == b7;
  }

  lemma Remainder(n: nat, q: nat, r: nat)
    requires n == 256 * q + r && r < 256
    ensures n % 256 == r
  {
  }

  /** Eight halvings leave the quotient by 256 and the eight bits. */
  lemma Eighth(n: nat, n1: nat, n2: nat, n3: nat, n4: nat, n5: nat, n6: nat, n7: nat, n8: nat,
               d0: nat, d1: nat, d2: nat, d3: nat, d4: nat, d5: nat, d6: nat, d7: nat)
    requires n == 2 * n1 + d0 && n1 == 2 * n2 + d1 && n2 == 2 * n3 + d2 && n3 == 2 * n4 + d3
    requires n4 == 2 * n5 + d4 && n5 == 2 * n6 + d5 && n6 == 2 * n7 + d6 && n7 == 2 * n8 + d7
    requires d0 <= 1 && d1 <= 1 && d2 <= 1 && d3 <= 1 && d4 <= 1 && d5 <= 1 && d6 <= 1 && d7 <= 1
    ensures n % 256 == Sum(d0, d1, d2, d3, d4, d5, d6, d7)
  {
    Remainder(n, n8, Sum(d0, d1, d2, d3, d4, d5, d6, d7));
  }

  function Half(n: nat): nat {
    n / 2
  }

  predicate Odd(n: nat) {
    n % 2 == 1
  }

  lemma Halves(n: nat)
    ensures n == 2 * Half(n) + Amount(Odd(n))
  {
  }

  lemma ByteRead(n: nat)
    ensures Value(Byte(n)) == n % 256
  {
    hide Value, Assemble, Amount, Half, Odd, Sum;
    var n1 := Half(n);
    var n2 := Half(n1);
    var n3 := Half(n2);
    var n4 := Half(n3);
    var n5 := Half(n4);
    var n6 := Half(n5);
    var n7 := Half(n6);
    Assembled(Odd(n), Odd(n1), Odd(n2), Odd(n3), Odd(n4), Odd(n5), Odd(n6), Odd(n7));
    Halves(n);
    Halves(n1);
    Halves(n2);
    Halves(n3);
    Halves(n4);
    Halves(n5);
    Halves(n6);
    Halves(n7);
    Eighth(n, n1, n2, n3, n4, n5, n6, n7, Half(n7),
           Amount(Odd(n)), Amount(Odd(n1)), Amount(Odd(n2)), Amount(Odd(n3)),
           Amount(Odd(n4)), Amount(Odd(n5)), Amount(Odd(n6)), Amount(Odd(n7)));
  }
}
