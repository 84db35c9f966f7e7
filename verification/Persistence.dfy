/**
 The Milan preprocessing state file of
 drivers/goodix53x5/device/persistence.c: what a save writes, what
 state_valid accepts and what a restore reads back.

 The digest is an arbitrary function from byte strings to 32 bytes. Only the
 state fields that the file format touches are modelled.
 */
module Persistence {
  import opened CoarseReference

  type Byte = n: nat | n < 0x100

  type Digest = s: seq<Byte> | |s| == 32 witness seq(32, _ => 0)

  const RING_PLANES := 27456
  const AGE_PLANE := 9504
  const HEADER_SIZE := 64
  const CALIBRATION := 64
  const RING_COUNT := 19072
  const COMPONENT_COUNT := 19073
  const REFERENCE_COUNT := 19074
  const PLANES := 19075
  const COMPONENT_AGES := 46531
  const SUPPORT_AGES := 56035
  const REFERENCE := 65539
  const DIGEST := 70291
  const FILE_SIZE := 70323
  const PAYLOAD_SIZE := 70227

  const MAGIC: seq<Byte> := [0x47, 0x35, 0x33, 0x50, 0x39, 0x50, 0x53, 0]

  // ------------------------------------------------------------ Data

  datatype Ring = Ring(count: nat, planes: seq<Byte>)

  datatype State = State(
    sampleCount: nat,
    calibration: seq<Word>,
    classification: Ring,
    persistence: Ring,
    updateCount: nat,
    historyCount: nat,
    maskThreshold: nat,
    maskAverage: nat,
    componentAges: seq<Byte>,
    referenceAges: seq<Byte>,
    reference: seq<Word>)

  datatype Device = Device(subtype: Word, identity: Digest)

  predicate Shaped(s: State) {
    && |s.calibration| == PIXELS && |s.reference| == PIXELS
    && |s.classification.planes| == RING_PLANES && |s.persistence.planes| == RING_PLANES
    && |s.componentAges| == AGE_PLANE && |s.referenceAges| == AGE_PLANE
    && s.sampleCount < U32
  }

  predicate AtMost(bytes: seq<Byte>, bound: nat) {
    forall i | 0 <= i < |bytes| :: bytes[i] <= bound
  }

  /** The refusals of goodix_milan_persistence_save. */
  predicate Saveable(s: State) {
    && s.sampleCount <= 400
    && s.persistence.count <= 3 && s.updateCount <= 5 && s.historyCount <= 50
    && AtMost(s.persistence.planes, 2)
    && AtMost(s.componentAges, 5) && AtMost(s.referenceAges, 50)
  }

  // ------------------------------------------------------------ Encoding

  function Bytes2(x: nat): (b: seq<Byte>)
    requires x < U16
    ensures |b| == 2
  {
    [x % 0x100, x / 0x100]
  }

  function Bytes4(x: nat): (b: seq<Byte>)
    requires x < U32
    ensures |b| == 4
  {
    [x % 0x100, x / 0x100 % 0x100, x / 0x100 / 0x100 % 0x100, x / 0x100 / 0x100 / 0x100]
  }

  /** A plane of little-endian words. */
  function Packed(words: seq<Word>): (b: seq<Byte>)
    ensures |b| == 2 * |words|
  {
    seq(2 * |words|, i requires 0 <= i < 2 * |words| =>
      if i % 2 == 0 then words[i / 2] % 0x100 else words[i / 2] / 0x100)
  }

  /** goodix_milan_state_header. */
  function Header(d: Device, sampleCount: nat): (b: seq<Byte>)
    requires sampleCount < U32
    ensures |b| == HEADER_SIZE
  {
    MAGIC + Bytes4(2) + Bytes4(HEADER_SIZE) + Bytes2(d.subtype) + Bytes2(ROWS) + Bytes2(COLUMNS) + Bytes2(2)
    + Bytes4(sampleCount) + Bytes4(PAYLOAD_SIZE) + d.identity
  }

  /** Everything the digest covers. */
  function Body(d: Device, s: State): (b: seq<Byte>)
    requires Shaped(s) && Saveable(s)
    ensures |b| == DIGEST
  {
    Header(d, s.sampleCount) + Packed(s.calibration)
    + [s.persistence.count, s.updateCount, s.historyCount]
    + s.persistence.planes + s.componentAges + s.referenceAges
    + Packed(Stored(s.reference))
  }

  /** The file goodix_milan_persistence_save writes. */
  function Encoded(d: Device, s: State, sha: seq<Byte> -> Digest): (file: seq<Byte>)
    requires Shaped(s) && Saveable(s)
    ensures |file| == FILE_SIZE
  {
    Body(d, s) + sha(Body(d, s))
  }

  // ------------------------------------------------------------ Decoding

  function Join(low: Byte, rest: nat): nat {
    low + 0x100 * rest
  }

  function Read2(file: seq<Byte>, offset: nat): Word
    requires offset + 2 <= |file|
  {
    Join(file[offset], file[offset + 1])
  }

  function Read4(file: seq<Byte>, offset: nat): nat
    requires offset + 4 <= |file|
  {
    Join(file[offset], Join(file[offset + 1], Join(file[offset + 2], file[offset + 3])))
  }

  function Words(file: seq<Byte>, offset: nat, count: nat): (w: seq<Word>)
    requires offset + 2 * count <= |file|
    ensures |w| == count
  {
    seq(count, i requires 0 <= i < count => Read2(file, offset + 2 * i))
  }

  predicate HeaderValid(file: seq<Byte>, d: Device)
    requires |file| == FILE_SIZE
  {
    && file[..8] == MAGIC
    && Read4(file, 8) == 2
    && Read4(file, 12) == HEADER_SIZE
    && Read2(file, 16) == d.subtype
    && Read2(file, 18) == ROWS
    && Read2(file, 20) == COLUMNS
    && Read2(file, 22) == 2
    && Read4(file, 24) <= 400
    && Read4(file, 28) == PAYLOAD_SIZE
    && file[32..64] == d.identity
  }

  predicate PayloadValid(file: seq<Byte>)
    requires |file| == FILE_SIZE
  {
    && file[RING_COUNT] <= 3 && file[COMPONENT_COUNT] <= 5 && file[REFERENCE_COUNT] <= 50
    && AtMost(file[PLANES..COMPONENT_AGES], 2)
    && AtMost(file[COMPONENT_AGES..SUPPORT_AGES], 5)
    && AtMost(file[SUPPORT_AGES..REFERENCE], 50)
  }

  /** goodix_milan_state_valid. */
  predicate Valid(file: seq<Byte>, d: Device, sha: seq<Byte> -> Digest) {
    && |file| == FILE_SIZE
    && HeaderValid(file, d)
    && PayloadValid(file)
    && file[DIGEST..] == sha(file[..DIGEST])
  }

  /** The fields goodix_milan_persistence_restore sets. */
  function Decoded(file: seq<Byte>): (s: State)
    requires |file| == FILE_SIZE
    ensures Shaped(s)
  {
    var ring := Ring(file[RING_COUNT], file[PLANES..COMPONENT_AGES]);
    State(Read4(file, 24), Words(file, CALIBRATION, PIXELS), ring, ring,
      file[COMPONENT_COUNT], file[REFERENCE_COUNT], 60, 60,
      file[COMPONENT_AGES..SUPPORT_AGES], file[SUPPORT_AGES..REFERENCE],
      Restored(Words(file, REFERENCE, COARSE_PIXELS)))
  }

  // ------------------------------------------------------------ Main results

  lemma Read2Of(file: seq<Byte>, offset: nat, x: nat)
    requires offset + 2 <= |file| && x < U16 && file[offset..offset + 2] == Bytes2(x)
    ensures Read2(file, offset) == x
  {
    assert file[offset] == file[offset..offset + 2][0] && file[offset + 1] == file[offset..offset + 2][1];
  }

  lemma Read4Of(file: seq<Byte>, offset: nat, x: nat)
    requires offset + 4 <= |file| && x < U32 && file[offset..offset + 4] == Bytes4(x)
    ensures Read4(file, offset) == x
  {
    var b := file[offset..offset + 4];
    assert file[offset] == b[0] && file[offset + 1] == b[1] && file[offset + 2] == b[2] && file[offset + 3] == b[3];
  }

  lemma WordsOf(file: seq<Byte>, offset: nat, words: seq<Word>)
    requires offset + 2 * |words| <= |file| && file[offset..offset + 2 * |words|] == Packed(words)
    ensures Words(file, offset, |words|) == words
  {
    var b := file[offset..offset + 2 * |words|];
    forall i | 0 <= i < |words| ensures Read2(file, offset + 2 * i) == words[i] {
      assert file[offset + 2 * i] == b[2 * i] && file[offset + 2 * i + 1] == b[2 * i + 1];
    }
  }

  /** Reading words and packing them again gives the bytes back. */
  lemma PackedWords(file: seq<Byte>, offset: nat, count: nat)
    requires offset + 2 * count <= |file|
    ensures Packed(Words(file, offset, count)) == file[offset..offset + 2 * count]
  {
    var words := Words(file, offset, count);
    forall i | 0 <= i < 2 * count ensures Packed(words)[i] == file[offset + i] {
      var low, high := file[offset + 2 * (i / 2)], file[offset + 2 * (i / 2) + 1];
      assert words[i / 2] == low + 0x100 * (high as int);
    }
  }

  /** Where each part of a header lies. */
  lemma HeaderParts(d: Device, n: nat)
    requires n < U32
    ensures var h := Header(d, n);
      && h[..8] == MAGIC && h[8..12] == Bytes4(2) && h[12..16] == Bytes4(HEADER_SIZE)
      && h[16..18] == Bytes2(d.subtype) && h[18..20] == Bytes2(ROWS) && h[20..22] == Bytes2(COLUMNS)
      && h[22..24] == Bytes2(2) && h[24..28] == Bytes4(n) && h[28..32] == Bytes4(PAYLOAD_SIZE) && h[32..64] == d.identity
  {
    hide Bytes4, Bytes2;
  }

  lemma Shifted(file: seq<Byte>, h: seq<Byte>, lo: nat, hi: nat)
    requires lo <= hi <= |h| <= |file| && file[..|h|] == h
    ensures file[lo..hi] == h[lo..hi]
  {
    forall i | lo <= i < hi ensures file[i] == h[i] {
      assert file[i] == file[..|h|][i];
    }
  }

  lemma HeaderAccepted(file: seq<Byte>, d: Device, n: nat)
    requires |file| == FILE_SIZE && n <= 400 && file[..HEADER_SIZE] == Header(d, n)
    ensures HeaderValid(file, d) && Read4(file, 24) == n
  {
    var h := Header(d, n);
    HeaderParts(d, n);
    hide Header;
    Shifted(file, h, 0, 8);
    Shifted(file, h, 8, 12);
    Shifted(file, h, 12, 16);
    Shifted(file, h, 16, 18);
    Shifted(file, h, 18, 20);
    Shifted(file, h, 20, 22);
    Shifted(file, h, 22, 24);
    Shifted(file, h, 24, 28);
    Shifted(file, h, 28, 32);
    Shifted(file, h, 32, 64);
    hide Read2, Read4, Bytes2, Bytes4;
    Read4Of(file, 8, 2);
    Read4Of(file, 12, HEADER_SIZE);
    Read2Of(file, 16, d.subtype);
    Read2Of(file, 18, ROWS);
    Read2Of(file, 20, COLUMNS);
    Read2Of(file, 22, 2);
    Read4Of(file, 24, n);
    Read4Of(file, 28, PAYLOAD_SIZE);
  }

  lemma BodyParts(d: Device, s: State)
    requires Shaped(s) && Saveable(s)
    ensures var b := Body(d, s);
      && b[..HEADER_SIZE] == Header(d, s.sampleCount)
      && b[CALIBRATION..RING_COUNT] == Packed(s.calibration)
      && b[RING_COUNT] == s.persistence.count && b[COMPONENT_COUNT] == s.updateCount && b[REFERENCE_COUNT] == s.historyCount
      && b[PLANES..COMPONENT_AGES] == s.persistence.planes
      && b[COMPONENT_AGES..SUPPORT_AGES] == s.componentAges
      && b[SUPPORT_AGES..REFERENCE] == s.referenceAges
      && b[REFERENCE..] == Packed(Stored(s.reference))
  {
    hide Header, Packed, Stored, Saveable;
    var b := Body(d, s);
    var tail := Packed(Stored(s.reference));
    assert |tail| == 4752;
  }

  /** What a save keeps: the classification ring becomes the entry snapshot, the
      two mask values their defaults, and the reference its half-resolution
      rendering; every other field comes back as it was. */
  function Projection(s: State): State
    requires Shaped(s)
  {
    s.(classification := s.persistence, maskThreshold := 60, maskAverage := 60, reference := Restored(Stored(s.reference)))
  }

  /** A save of any state that passes the checks is accepted for that device,
      and restores to the projection of the state. */
  lemma SaveRestore(d: Device, s: State, sha: seq<Byte> -> Digest)
    requires Shaped(s) && Saveable(s)
    ensures Valid(Encoded(d, s, sha), d, sha)
    ensures Decoded(Encoded(d, s, sha)) == Projection(s)
  {
    var body, file := Body(d, s), Encoded(d, s, sha);
    assert file[..DIGEST] == body && file[DIGEST..] == sha(body);
    BodyParts(d, s);
    hide Body, Encoded, Header, Packed, Stored, Restored;
    Shifted(file, body, 0, HEADER_SIZE);
    Shifted(file, body, CALIBRATION, RING_COUNT);
    Shifted(file, body, PLANES, COMPONENT_AGES);
    Shifted(file, body, COMPONENT_AGES, SUPPORT_AGES);
    Shifted(file, body, SUPPORT_AGES, REFERENCE);
    Shifted(file, body, REFERENCE, DIGEST);
    HeaderAccepted(file, d, s.sampleCount);
    WordsOf(file, CALIBRATION, s.calibration);
    WordsOf(file, REFERENCE, Stored(s.reference));
    hide HeaderValid, Words;
  }

  /** A file is accepted for the one device it was saved for only. */
  lemma OtherDeviceRefused(d: Device, e: Device, s: State, sha: seq<Byte> -> Digest)
    requires Shaped(s) && Saveable(s)
    ensures Valid(Encoded(d, s, sha), e, sha) <==> d == e
  {
    SaveRestore(d, s, sha);
    hide Encoded, PayloadValid;
  }

  /** Whatever state_valid accepts restores to a state a save accepts, and the
      new file agrees with the old one on every byte outside the reference and
      the digest. */
  lemma ValidStatesAreSaveable(file: seq<Byte>, d: Device, sha: seq<Byte> -> Digest)
    requires Valid(file, d, sha)
    ensures Saveable(Decoded(file))
    ensures Encoded(d, Decoded(file), sha)[..REFERENCE] == file[..REFERENCE]
  {
    var s := Decoded(file);
    assert Saveable(s) by {
      hide HeaderValid, Words, Restored;
      assert Read4(file, 24) <= 400 by { assert HeaderValid(file, d); }
    }
    HeaderRebuilt(file, d);
    PackedWords(file, CALIBRATION, PIXELS);
    SaveRestore(d, s, sha);
    var again := Encoded(d, s, sha);
    BodyParts(d, s);
    assert again[..DIGEST] == Body(d, s);
    Reassembled(file, again);
  }

  lemma Reassembled(file: seq<Byte>, again: seq<Byte>)
    requires |file| == |again| == FILE_SIZE
    requires file[..HEADER_SIZE] == again[..HEADER_SIZE]
    requires file[CALIBRATION..RING_COUNT] == again[CALIBRATION..RING_COUNT]
    requires file[RING_COUNT] == again[RING_COUNT] && file[COMPONENT_COUNT] == again[COMPONENT_COUNT]
    requires file[REFERENCE_COUNT] == again[REFERENCE_COUNT]
    requires file[PLANES..COMPONENT_AGES] == again[PLANES..COMPONENT_AGES]
    requires file[COMPONENT_AGES..SUPPORT_AGES] == again[COMPONENT_AGES..SUPPORT_AGES]
    requires file[SUPPORT_AGES..REFERENCE] == again[SUPPORT_AGES..REFERENCE]
    ensures file[..REFERENCE] == again[..REFERENCE]
  {
    forall i | 0 <= i < REFERENCE ensures file[i] == again[i] {
      if i < 64 {
        assert file[i] == file[..HEADER_SIZE][i] && again[i] == again[..HEADER_SIZE][i];
      } else if i < RING_COUNT {
        assert file[i] == file[CALIBRATION..RING_COUNT][i - CALIBRATION];
        assert again[i] == again[CALIBRATION..RING_COUNT][i - CALIBRATION];
      } else if i >= SUPPORT_AGES {
        assert file[i] == file[SUPPORT_AGES..REFERENCE][i - SUPPORT_AGES];
        assert again[i] == again[SUPPORT_AGES..REFERENCE][i - SUPPORT_AGES];
      } else if i >= COMPONENT_AGES {
        assert file[i] == file[COMPONENT_AGES..SUPPORT_AGES][i - COMPONENT_AGES];
        assert again[i] == again[COMPONENT_AGES..SUPPORT_AGES][i - COMPONENT_AGES];
      } else if i >= PLANES {
        assert file[i] == file[PLANES..COMPONENT_AGES][i - PLANES];
        assert again[i] == again[PLANES..COMPONENT_AGES][i - PLANES];
      }
    }
  }

  lemma Bytes4Read(file: seq<Byte>, offset: nat)
    requires offset + 4 <= |file|
    ensures Read4(file, offset) < U32 && Bytes4(Read4(file, offset)) == file[offset..offset + 4]
  {
    var b0, b1, b2, b3 := file[offset], file[offset + 1], file[offset + 2], file[offset + 3];
    var x2 := Join(b2, b3);
    var x1 := Join(b1, x2);
    Parted(b2, b3);
    Parted(b1, x2);
    Parted(b0, x1);
    assert Read4(file, offset) < U32;
    hide Join;
    assert file[offset..offset + 4] == [b0, b1, b2, b3];
  }

  lemma Parted(low: Byte, rest: nat)
    ensures Join(low, rest) % 0x100 == low && Join(low, rest) / 0x100 == rest
  {
  }

  lemma Bytes2Read(file: seq<Byte>, offset: nat)
    requires offset + 2 <= |file|
    ensures Bytes2(Read2(file, offset)) == file[offset..offset + 2]
  {
  }

  lemma HeaderRebuilt(file: seq<Byte>, d: Device)
    requires |file| == FILE_SIZE && HeaderValid(file, d)
    ensures Header(d, Read4(file, 24)) == file[..HEADER_SIZE]
  {
    Bytes4Read(file, 8);
    Bytes4Read(file, 12);
    Bytes2Read(file, 16);
    Bytes2Read(file, 18);
    Bytes2Read(file, 20);
    Bytes2Read(file, 22);
    Bytes4Read(file, 24);
    Bytes4Read(file, 28);
    hide Bytes2, Bytes4, Read2, Read4;
    Joined(file);
  }

  lemma Joined(file: seq<Byte>)
    requires |file| >= HEADER_SIZE
    ensures file[..HEADER_SIZE] == file[..8] + file[8..12] + file[12..16] + file[16..18] + file[18..20]
      + file[20..22] + file[22..24] + file[24..28] + file[28..32] + file[32..64]
  {
  }

  /** The state a missing or refused file leaves to the setup save. */
  function Fresh(): (s: State)
    ensures Shaped(s) && Saveable(s)
  {
    var ring := Ring(0, seq(RING_PLANES, _ => 0));
    State(0, seq(PIXELS, _ => 0x2000), ring, ring, 0, 0, 60, 60, seq(AGE_PLANE, _ => 0), seq(AGE_PLANE, _ => 0), seq(PIXELS, _ => 0))
  }

  /** The default file: a header, unit calibration, zeros and a digest. */
  function DefaultBody(d: Device): (b: seq<Byte>)
    ensures |b| == DIGEST
  {
    Header(d, 0) + Packed(seq(PIXELS, _ => 0x2000)) + seq(DIGEST - RING_COUNT, _ => 0)
  }

  lemma ZerosStored()
    ensures Packed(Stored(seq(PIXELS, _ => 0))) == seq(2 * COARSE_PIXELS, _ => 0)
  {
    var zeros: seq<Word> := seq(PIXELS, _ => 0);
    forall k | 0 <= k < COARSE_PIXELS ensures Stored(zeros)[k] == 0 {
      StoredBetween(zeros, k / COARSE_COLUMNS, k % COARSE_COLUMNS, 0, 0);
      hide StoredAt;
    }
    hide Stored;
  }

  /** The default file is the save of a fresh state, so the next start accepts
      it and restores the defaults. */
  lemma DefaultsAreFresh(d: Device, sha: seq<Byte> -> Digest)
    ensures DefaultBody(d) + sha(DefaultBody(d)) == Encoded(d, Fresh(), sha)
    ensures Valid(DefaultBody(d) + sha(DefaultBody(d)), d, sha)
  {
    var s := Fresh();
    ZerosStored();
    hide Header, Packed, Stored;
    assert Body(d, s) == DefaultBody(d);
    SaveRestore(d, s, sha);
  }

  // ------------------------------------------------------------ File names

  function Digit(n: nat): char
    requires n < 16
  {
    "0123456789abcdef"[n]
  }

  /** The file name's part that goodix_milan_state_path derives from an identity. */
  function Hex(bytes: seq<Byte>): (s: string)
    ensures |s| == 2 * |bytes|
  {
    seq(2 * |bytes|, i requires 0 <= i < 2 * |bytes| => Digit(if i % 2 == 0 then bytes[i / 2] / 16 else bytes[i / 2] % 16))
  }

  lemma DigitsDiffer(a: nat, b: nat)
    requires a < 16 && b < 16 && Digit(a) == Digit(b)
    ensures a == b
  {
  }

  /** Devices with different identities never share a state file. */
  lemma PathsDiffer(a: Digest, b: Digest)
    ensures Hex(a) == Hex(b) <==> a == b
  {
    if Hex(a) == Hex(b) {
      forall i | 0 <= i < 32 ensures a[i] == b[i] {
        assert Hex(a)[2 * i] == Hex(b)[2 * i] && Hex(a)[2 * i + 1] == Hex(b)[2 * i + 1];
        hide Digit;
        DigitsDiffer(a[i] / 16, b[i] / 16);
        DigitsDiffer(a[i] % 16, b[i] % 16);
      }
      assert a[..] == b[..];
    }
  }
}
