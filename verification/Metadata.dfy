/**
 Metadata in the least significant bits of a rendered image
 (milan_profile9_encode_metadata of drivers/goodix53x5/milan/core.c), written
 in two passes over the same pixels.
 */
module Metadata {
  import opened Common

  // ----------------------------------------------------------- Specification

  function Bit(v: nat): nat {
    v % 2
  }

  function WithBit(v: nat, b: nat): (w: nat)
    requires b < 2
    ensures w / 2 == v / 2 && Bit(w) == b
  {
    v - v % 2 + b
  }

  /** Row 0 but its last eight pixels alternates, starting with 0. */
  predicate Preamble(image: seq<nat>, columns: nat)
    requires 8 <= columns <= |image|
  {
    forall c | 0 <= c < columns - 8 :: Bit(image[c]) == c % 2
  }

  /** The bit a mode puts `k` pixels before the end of row 0. */
  function ModeBit(mode: int, k: nat): Option<nat> {
    if 1 <= mode <= 4 then
      if k == 8 then Some(if mode <= 2 then 1 else 0)
      else if k == 7 then Some(if mode == 2 || mode == 3 then 1 else 0)
      else None
    else if k == 5 then Some(if mode == 5 || mode == 7 || mode == 9 then 1 else 0)
    else if k == 4 then Some(if mode == 6 || mode == 7 then 1 else 0)
    else if k == 3 then Some(if mode == 8 || mode == 9 then 1 else 0)
    else None
  }

  predicate Writes(image: seq<nat>, mask: seq<nat>, rows: nat, columns: nat, mode: int) {
    rows > 0 && columns >= 8 && mode != 0 && |image| == rows * columns && |mask| == |image|
  }

  /** The mask marker, unless this pass is the one that clears it. */
  predicate Marked(image: seq<nat>, columns: nat)
    requires 8 <= columns <= |image|
  {
    Preamble(image, columns) && Bit(image[columns - 6]) == 1
  }

  /** Pixel i after a pass. */
  function After(image: seq<nat>, mask: seq<nat>, columns: nat, mode: int, apply: bool, i: nat): nat
    requires 8 <= columns <= |image| && |mask| == |image| && i < |image|
  {
    var v1 :=
      if Preamble(image, columns) || i >= columns then image[i]
      else WithBit(image[i], if i < columns - 8 then i % 2 else 0);
    var v2 := if i < columns && ModeBit(mode, columns - i).Some? then WithBit(v1, ModeBit(mode, columns - i).value) else v1;
    if !apply then v2
    else if i == columns - 6 then WithBit(v2, 1)
    else if i < columns then v2
    else if !Marked(image, columns) then WithBit(v2, if mask[i] == 0 then 1 else 0)
    else if mask[i] != 0 then WithBit(v2, 0)
    else v2
  }

  function Encoded(image: seq<nat>, mask: seq<nat>, rows: nat, columns: nat, mode: int, apply: bool): (e: seq<nat>)
    requires |mask| == |image| && |image| == rows * columns
    ensures |e| == |image|
  {
    if !Writes(image, mask, rows, columns, mode) then image
    else
      RowInImage(rows, columns);
      seq(|image|, i requires 0 <= i < |image| && 8 <= columns <= |image| && |mask| == |image| =>
        After(image, mask, columns, mode, apply, i))
  }

  lemma RowInImage(rows: nat, columns: nat)
    requires rows > 0
    ensures columns <= rows * columns
  {
    assert (rows - 1) * columns >= 0;
  }

  // ------------------------------------------------------ Reading it back

  /** The first pass's mode, from pixels -8 and -7. */
  function FirstMode(image: seq<nat>, columns: nat): int
    requires 8 <= columns <= |image|
  {
    match (Bit(image[columns - 8]), Bit(image[columns - 7]))
    case (1, 0) => 1
    case (1, 1) => 2
    case (0, 1) => 3
    case _ => 4
  }

  /** The second pass's mode, from pixels -5, -4 and -3; 0 stands for any other. */
  function SecondMode(image: seq<nat>, columns: nat): int
    requires 8 <= columns <= |image|
  {
    match (Bit(image[columns - 5]), Bit(image[columns - 4]), Bit(image[columns - 3]))
    case (1, 0, 0) => 5
    case (0, 1, 0) => 6
    case (1, 1, 0) => 7
    case (0, 0, 1) => 8
    case (1, 0, 1) => 9
    case _ => 0
  }

  // ------------------------------------------------------------ Main results

  /** A pass changes nothing but least significant bits. */
  lemma OnlyLowBits(image: seq<nat>, mask: seq<nat>, rows: nat, columns: nat, mode: int, apply: bool, i: nat)
    requires |mask| == |image| && |image| == rows * columns && i < |image|
    ensures Encoded(image, mask, rows, columns, mode, apply)[i] / 2 == image[i] / 2
  {
  }

  /** Every pass that writes leaves a preamble for the next one to find. */
  lemma PreambleLeft(image: seq<nat>, mask: seq<nat>, rows: nat, columns: nat, mode: int, apply: bool)
    requires Writes(image, mask, rows, columns, mode)
    ensures columns <= |image| && Preamble(Encoded(image, mask, rows, columns, mode, apply), columns)
  {
    RowInImage(rows, columns);
  }

  /** Two passes: both modes can be read back, whatever the image was before. */
  lemma BothModesReadable(image: seq<nat>, m1: seq<nat>, m2: seq<nat>, rows: nat, columns: nat,
                          first: int, second: int, a1: bool, a2: bool)
    requires Writes(image, m1, rows, columns, first) && Writes(image, m2, rows, columns, second)
    requires 1 <= first <= 4 && second >= 5
    ensures columns <= |image|
    ensures var e := Encoded(Encoded(image, m1, rows, columns, first, a1), m2, rows, columns, second, a2);
      FirstMode(e, columns) == first && SecondMode(e, columns) == if second <= 9 then second else 0
  {
    RowInImage(rows, columns);
    PreambleLeft(image, m1, rows, columns, first, a1);
    var e1 := Encoded(image, m1, rows, columns, first, a1);
    var e := Encoded(e1, m2, rows, columns, second, a2);
    assert e[columns - 8] == e1[columns - 8] && e[columns - 7] == e1[columns - 7];
  }

  /** Two masking passes, below row 0: a pixel's bit is 0 exactly where a mask
      covers it, or where a marker left from before kept a 0 that was there. */
  lemma MasksUnite(image: seq<nat>, m1: seq<nat>, m2: seq<nat>, rows: nat, columns: nat, first: int, second: int, i: nat)
    requires Writes(image, m1, rows, columns, first) && Writes(image, m2, rows, columns, second)
    requires 1 <= first <= 4 && second >= 5 && columns <= i < |image|
    ensures var e := Encoded(Encoded(image, m1, rows, columns, first, true), m2, rows, columns, second, true);
      Bit(e[i]) == 0 <==> m1[i] != 0 || m2[i] != 0 || (Marked(image, columns) && Bit(image[i]) == 0)
  {
    PreambleLeft(image, m1, rows, columns, first, true);
    var e1 := Encoded(image, m1, rows, columns, first, true);
    assert Bit(e1[columns - 6]) == 1;
    assert Marked(e1, columns);
  }

  /** So an image without a preamble ends with exactly the union of both masks. */
  lemma UnionOfMasks(image: seq<nat>, m1: seq<nat>, m2: seq<nat>, rows: nat, columns: nat, first: int, second: int)
    requires Writes(image, m1, rows, columns, first) && Writes(image, m2, rows, columns, second)
    requires 1 <= first <= 4 && second >= 5
    requires columns <= |image| && !Preamble(image, columns)
    ensures var e := Encoded(Encoded(image, m1, rows, columns, first, true), m2, rows, columns, second, true);
      forall i | columns <= i < |image| :: Bit(e[i]) == 0 <==> m1[i] != 0 || m2[i] != 0
  {
    forall i | columns <= i < |image|
      ensures var e := Encoded(Encoded(image, m1, rows, columns, first, true), m2, rows, columns, second, true);
        Bit(e[i]) == 0 <==> m1[i] != 0 || m2[i] != 0
    {
      MasksUnite(image, m1, m2, rows, columns, first, second, i);
    }
  }

  /** An image of eight columns has no room for a preamble, so every image passes
      for one that has it: a stray marker bit then spoils the first mask. */
  lemma NarrowImagesKeepStrayBits()
    ensures var image := [0, 0, 1, 0, 0, 0, 0, 0, 0, 0, 0, 0, 0, 0, 0, 0];
      var none := seq(16, _ => 0);
      Bit(Encoded(Encoded(image, none, 2, 8, 1, true), none, 2, 8, 5, true)[9]) == 0
  {
    var image := [0, 0, 1, 0, 0, 0, 0, 0, 0, 0, 0, 0, 0, 0, 0, 0];
    assert Marked(image, 8);
    assert Bit(image[9]) == 0;
    hide Marked, Encoded, Bit;
    MasksUnite(image, seq(16, _ => 0), seq(16, _ => 0), 2, 8, 1, 5, 9);
  }

  // ----------------------------------------------------------- As core.c runs it

  /** milan_profile9_encode_metadata, in place. */
  method EncodeMetadata(image: array<nat>, mask: seq<nat>, rows: nat, columns: nat, mode: int, apply: bool)
    requires image.Length == rows * columns && |mask| == image.Length
    modifies image
    ensures image[..] == Encoded(old(image[..]), mask, rows, columns, mode, apply)
  {
    if rows == 0 || columns < 8 || mode == 0 { return; }
    RowInImage(rows, columns);
    WritePreamble(image, columns);
    WriteMode(image, columns, mode);
    if apply { WriteMask(image, mask, columns); }
  }

  method WritePreamble(image: array<nat>, columns: nat)
    requires 8 <= columns <= image.Length
    modifies image
    ensures forall i | 0 <= i < image.Length ::
      image[i] == (if old(Preamble(image[..], columns)) || i >= columns then old(image[i])
                   else WithBit(old(image[i]), if i < columns - 8 then i % 2 else 0))
  {
    var prefix := columns - 8;
    var ok := true;
    var c := 0;
    while c < prefix && ok
      invariant 0 <= c <= prefix
      invariant ok ==> forall k | 0 <= k < c :: Bit(image[k]) == k % 2
      invariant !ok ==> !Preamble(image[..], columns)
    {
      if image[c] % 2 != c % 2 {
        assert Bit(image[..][c]) != c % 2;
        ok := false;
      }
      c := c + 1;
    }
    if !ok {
      for k := prefix to columns
        invariant forall i | 0 <= i < image.Length ::
          image[i] == if prefix <= i < k then WithBit(old(image[i]), 0) else old(image[i])
      {
        image[k] := image[k] - image[k] % 2;
      }
      for k := 0 to prefix
        invariant forall i | 0 <= i < image.Length ::
          image[i] == (if prefix <= i < columns then WithBit(old(image[i]), 0)
                       else if i < k then WithBit(old(image[i]), i % 2) else old(image[i]))
      {
        image[k] := image[k] - image[k] % 2 + k % 2;
      }
    }
  }

  method SetBit(image: array<nat>, i: nat, b: nat)
    requires i < image.Length && b < 2
    modifies image
    ensures image[i] == WithBit(old(image[i]), b) && forall k | 0 <= k < image.Length && k != i :: image[k] == old(image[k])
  {
    image[i] := image[i] - image[i] % 2 + b;
  }

  method WriteMode(image: array<nat>, columns: nat, mode: int)
    requires 8 <= columns <= image.Length
    modifies image
    ensures forall i | 0 <= i < image.Length ::
      image[i] == (if i < columns && ModeBit(mode, columns - i).Some?
                   then WithBit(old(image[i]), ModeBit(mode, columns - i).value) else old(image[i]))
  {
    if mode == 1 {
      SetBit(image, columns - 8, 1);
      SetBit(image, columns - 7, 0);
    } else if mode == 2 {
      SetBit(image, columns - 8, 1);
      SetBit(image, columns - 7, 1);
    } else if mode == 3 {
      SetBit(image, columns - 8, 0);
      SetBit(image, columns - 7, 1);
    } else if mode == 4 {
      SetBit(image, columns - 8, 0);
      SetBit(image, columns - 7, 0);
    } else {
      SetBit(image, columns - 5, if mode == 5 || mode == 7 || mode == 9 then 1 else 0);
      SetBit(image, columns - 4, if mode == 6 || mode == 7 then 1 else 0);
      SetBit(image, columns - 3, if mode == 8 || mode == 9 then 1 else 0);
    }
  }

  method WriteMask(image: array<nat>, mask: seq<nat>, columns: nat)
    requires 8 <= columns <= image.Length && |mask| == image.Length
    modifies image
    ensures forall i | 0 <= i < image.Length ::
      image[i] == (if i == columns - 6 then WithBit(old(image[i]), 1)
                   else if i < columns then old(image[i])
                   else if Bit(old(image[columns - 6])) == 0 then WithBit(old(image[i]), if mask[i] == 0 then 1 else 0)
                   else if mask[i] != 0 then WithBit(old(image[i]), 0)
                   else old(image[i]))
  {
    var marked := image[columns - 6] % 2 != 0;
    SetBit(image, columns - 6, 1);
    for k := columns to image.Length
      invariant forall i | 0 <= i < image.Length ::
        image[i] == (if i == columns - 6 then WithBit(old(image[i]), 1)
                     else if i < columns || i >= k then old(image[i])
                     else if !marked then WithBit(old(image[i]), if mask[i] == 0 then 1 else 0)
                     else if mask[i] != 0 then WithBit(old(image[i]), 0)
                     else old(image[i]))
    {
      if !marked {
        image[k] := image[k] - image[k] % 2 + if mask[k] == 0 then 1 else 0;
      } else if mask[k] != 0 {
        image[k] := image[k] - image[k] % 2;
      }
    }
  }
}
