/**
 Encrypted sensor frames (drivers/goodix53x5/device/crypto.c): the decoder
 against the encoder it must undo, and the session key derivation.

 AES-128-CBC and HMAC-SHA256 are functions of the session about which only the
 stated laws are known.
 */
module SensorFrame {
  import opened Common
  import opened Checksums
  import opened Octets

  const FIRST_BLOCK := 0x3A7
  const BLOCK := 0x3F0
  const AUTHENTICATED := 0x400
  const DATA_TYPE := 0xAA01
  const ESTABLISHED := 5

  // -------------------------------------------------------- Key stream (GEA)

  /** One step of the key register. */
  function NextKey(key: bv32): bv32 {
    var adjacent := (key >> 1) ^ key;
    ((key ^ (((adjacent >> 0x14) ^ key) >> 10)) << 0x1F) | (key >> 1)
  }

  function StreamBits(key: bv32): bv32 {
    var adjacent := (key >> 1) ^ key;
    var e1 := ((key >> 0xF) & 0x2000) | (key & 0x1000000);
    var e2 := (e1 >> 1) | (key & 0x20000);
    var e3 := (e2 >> 2) | (key & 0x1000);
    var e4 := (e3 >> 3) | (((key >> 7) ^ key) & 0x80000);
    var e5 := (e4 >> 1) | (((key >> 0xF) ^ key) & 0x4000);
    var e6 := (e5 >> 2) | (key & 0x2000);
    var e7 := (e6 >> 2) | (adjacent & 0x40) | (key & 0x20);
    (e7 >> 1)
      | (((key >> 9) ^ (key << 8)) & 0x800)
      | (((key >> 0x14) ^ (key << 1)) & 4)
      | (((key << 3) ^ (key >> 0x10)) & 0x4000)
      | (((key >> 2) ^ (key >> 0x10)) & 0x80)
      | (((key << 6) ^ (key >> 7)) & 0x100)
      | ((key & 0x100) << 7)
  }

  /** The 16-bit word that key gives, modulo 2^16. */
  function StreamWord(key: bv32): bv16 {
    var bits := StreamBits(key);
    ((((bits >> 8) & 0xFFFF) + (((bits & 0xFF) | (key & 1)) << 8)) & 0xFFFF) as bv16
  }

  function Word(low: bv8, high: bv8): bv16 {
    (low as bv16) | ((high as bv16) << 8)
  }

  function LowByte(w: bv16): bv8 {
    (w & 0xFF) as bv8
  }

  function HighByte(w: bv16): bv8 {
    ((w >> 8) & 0xFF) as bv8
  }

  function Mask(w: bv16, stream: bv16): bv16 {
    w ^ stream
  }

  /** goodix_crypto_gea_decrypt: two bytes at a time; an odd last byte is copied. */
  function Gea(key: bv32, data: seq<bv8>): (masked: seq<bv8>)
    ensures |masked| == |data|
    decreases |data|
  {
    if |data| < 2 then data
    else
      var w := Mask(Word(data[0], data[1]), StreamWord(key));
      [LowByte(w), HighByte(w)] + Gea(NextKey(key), data[2..])
  }

  lemma WordBytes(w: bv16, stream: bv16, low: bv8, high: bv8)
    ensures Word(LowByte(w), HighByte(w)) == w
    ensures LowByte(Word(low, high)) == low && HighByte(Word(low, high)) == high
    ensures Mask(Mask(w, stream), stream) == w
  {
  }

  /** The key stream is its own inverse, odd tails included. */
  lemma {:induction false} GeaTwice(key: bv32, data: seq<bv8>)
    ensures Gea(key, Gea(key, data)) == data
    decreases |data|
  {
    hide StreamWord, NextKey, Word, LowByte, HighByte, Mask;
    if |data| >= 2 {
      GeaTwice(NextKey(key), data[2..]);
      var w := Word(data[0], data[1]);
      var m := Mask(w, StreamWord(key));
      WordBytes(m, StreamWord(key), data[0], data[1]);
      WordBytes(w, StreamWord(key), data[0], data[1]);
      var masked := Gea(key, data);
      assert masked[2..] == Gea(NextKey(key), data[2..]);
      assert data == [data[0], data[1]] + data[2..];
    }
  }

  lemma Regroup(a: seq<bv8>, b: seq<bv8>, c: seq<bv8>)
    ensures (a + b) + c == a + (b + c)
  {
  }

  /** The same over a buffer. */
  method GeaDecrypt(start: bv32, data: seq<bv8>) returns (out: array<bv8>)
    ensures fresh(out) && out[..] == Gea(start, data)
  {
    hide StreamWord, NextKey, Word, LowByte, HighByte, Mask;
    out := new bv8[|data|];
    var key := start;
    var i := 0;
    while i + 1 < |data|
      invariant 0 <= i <= |data| && i % 2 == 0
      invariant out[..i] + Gea(key, data[i..]) == Gea(start, data)
    {
      var plain := Mask(Word(data[i], data[i + 1]), StreamWord(key));
      assert data[i..][2..] == data[i + 2..];
      ghost var done := out[..i];
      out[i] := LowByte(plain);
      out[i + 1] := HighByte(plain);
      assert out[..i + 2] == done + [LowByte(plain), HighByte(plain)];
      Regroup(done, [LowByte(plain), HighByte(plain)], Gea(NextKey(key), data[i + 2..]));
      key := NextKey(key);
      i := i + 2;
    }
    if i < |data| {
      out[i] := data[i];
      assert data[i..] == [data[i]];
      assert out[..] == out[..i] + [data[i]];
    } else {
      assert data[i..] == [] && out[..] == out[..i];
    }
  }

  // ----------------------------------------------------------------- Session

  /** The primitives under one session's keys. */
  datatype Keys = Keys(
    encrypt: seq<bv8> -> seq<bv8>,
    decrypt: seq<bv8> -> seq<bv8>,
    hmac: seq<bv8> -> seq<bv8>,
    stream: bv32)

  /** AES-CBC without padding inverts and keeps lengths; a digest has 32 bytes. */
  ghost predicate Lawful(k: Keys) {
    && (forall m: seq<bv8> | |m| % 16 == 0 :: |k.encrypt(m)| == |m| && k.decrypt(k.encrypt(m)) == m)
    && (forall m: seq<bv8> | |m| % 16 == 0 :: |k.decrypt(m)| == |m|)
    && (forall m: seq<bv8> :: |k.hmac(m)| == 32)
  }

  datatype Session = Session(keys: Keys, state: int, counter: bv32)

  lemma CipherUndone(k: Keys, m: seq<bv8>)
    requires Lawful(k) && |m| % 16 == 0
    ensures |k.encrypt(m)| == |m| && k.decrypt(k.encrypt(m)) == m
  {
  }

  lemma DigestLength(k: Keys, m: seq<bv8>)
    requires Lawful(k)
    ensures |k.hmac(m)| == 32
  {
  }

  // ------------------------------------------------------ The fifteen blocks

  function BlockSize(block: nat, remaining: nat): nat {
    if block == 0 then Min(FIRST_BLOCK, remaining)
    else if block == 14 then remaining
    else Min(BLOCK, remaining)
  }

  /** Every enciphered block of a payload of this length is whole AES blocks. */
  predicate Aligned(length: nat, block: nat)
    requires block <= 15
    decreases 15 - block
  {
    block == 15
    || (var n := BlockSize(block, length); (block % 2 == 1 ==> n % 16 == 0) && Aligned(length - n, block + 1))
  }

  /** The encoder's side: odd blocks are enciphered, even ones passed through. */
  function Wrap(k: Keys, plain: seq<bv8>, block: nat): seq<bv8>
    requires block <= 15
    decreases 15 - block
  {
    if block == 15 then []
    else
      var n := BlockSize(block, |plain|);
      (if block % 2 == 1 then k.encrypt(plain[..n]) else plain[..n]) + Wrap(k, plain[n..], block + 1)
  }

  /** The decoder's side; an enciphered block that is not whole fails. */
  function Unwrap(k: Keys, data: seq<bv8>, block: nat): Option<seq<bv8>>
    requires block <= 15
    decreases 15 - block
  {
    if block == 15 then Some([])
    else
      var n := BlockSize(block, |data|);
      if block % 2 == 1 && n % 16 != 0 then None
      else
        var rest := Unwrap(k, data[n..], block + 1);
        if rest.None? then None
        else Some((if block % 2 == 1 then k.decrypt(data[..n]) else data[..n]) + rest.value)
  }

  lemma {:induction false} WrapUndone(k: Keys, plain: seq<bv8>, block: nat)
    requires Lawful(k) && block <= 15 && Aligned(|plain|, block) && (block == 15 ==> plain == [])
    ensures |Wrap(k, plain, block)| == |plain|
    ensures Unwrap(k, Wrap(k, plain, block), block) == Some(plain)
    decreases 15 - block
  {
    hide Lawful, Unwrap, Wrap, BlockSize;
    if block < 15 {
      var n := BlockSize(block, |plain|);
      SizeFits(block, |plain|);
      var rest := plain[n..];
      WrapUndone(k, rest, block + 1);
      if block % 2 == 1 { CipherUndone(k, plain[..n]); }
      var first := if block % 2 == 1 then k.encrypt(plain[..n]) else plain[..n];
      assert |first| == n && (if block % 2 == 1 then k.decrypt(first) else first) == plain[..n];
      WrapStep(k, plain, block);
      OneBlockUndone(k, first, Wrap(k, rest, block + 1), plain, block);
    } else {
      LastWrap(k);
    }
  }

  lemma SizeFits(block: nat, remaining: nat)
    ensures BlockSize(block, remaining) <= remaining && (block == 14 ==> BlockSize(block, remaining) == remaining)
  {
  }

  lemma WrapStep(k: Keys, plain: seq<bv8>, block: nat)
    requires block < 15
    ensures var n := BlockSize(block, |plain|);
      Wrap(k, plain, block) == (if block % 2 == 1 then k.encrypt(plain[..n]) else plain[..n]) + Wrap(k, plain[n..], block + 1)
  {
  }

  lemma LastWrap(k: Keys)
    ensures Wrap(k, [], 15) == [] && Unwrap(k, [], 15) == Some([])
  {
  }

  lemma OneBlockUndone(k: Keys, first: seq<bv8>, wrapped: seq<bv8>, plain: seq<bv8>, block: nat)
    requires block < 15 && |first| == BlockSize(block, |plain|) && |first| + |wrapped| == |plain|
    requires block % 2 == 1 ==> |first| % 16 == 0
    requires (if block % 2 == 1 then k.decrypt(first) else first) == plain[..|first|]
    requires Unwrap(k, wrapped, block + 1) == Some(plain[|first|..])
    ensures Unwrap(k, first + wrapped, block) == Some(plain)
  {
    hide BlockSize;
    var data := first + wrapped;
    assert |data| == |plain|;
    assert data[..|first|] == first && data[|first|..] == wrapped;
    assert plain == plain[..|first|] + plain[|first|..];
  }

  lemma DecryptLength(k: Keys, m: seq<bv8>)
    requires Lawful(k) && |m| % 16 == 0
    ensures |k.decrypt(m)| == |m|
  {
  }

  /** One block of the decoder. */
  lemma OneBlock(k: Keys, data: seq<bv8>, block: nat)
    requires block < 15 && BlockSize(block, |data|) <= |data|
    ensures var n := BlockSize(block, |data|);
      var rest := Unwrap(k, data[n..], block + 1);
      Unwrap(k, data, block) ==
        if (block % 2 == 1 && n % 16 != 0) || rest.None? then None
        else Some((if block % 2 == 1 then k.decrypt(data[..n]) else data[..n]) + rest.value)
  {
    hide BlockSize;
  }

  lemma AlignedStep(length: nat, n: nat, block: nat)
    requires block < 15 && n == BlockSize(block, length) && n <= length
    ensures Aligned(length, block) <==> (block % 2 == 1 ==> n % 16 == 0) && Aligned(length - n, block + 1)
  {
    hide BlockSize;
  }

  lemma {:induction false} UnwrapFailsUnaligned(k: Keys, data: seq<bv8>, block: nat)
    requires Lawful(k) && block <= 15
    ensures Unwrap(k, data, block).Some? <==> Aligned(|data|, block)
    ensures Unwrap(k, data, block).Some? && (block == 15 ==> data == []) ==> |Unwrap(k, data, block).value| == |data|
    decreases 15 - block
  {
    if block < 15 {
      var n := BlockSize(block, |data|);
      SizeFits(block, |data|);
      UnwrapFailsUnaligned(k, data[n..], block + 1);
      OneBlock(k, data, block);
      hide Unwrap, BlockSize;
      AlignedStep(|data|, n, block);
      hide Aligned;
      if block % 2 == 1 && n % 16 == 0 { DecryptLength(k, data[..n]); }
      hide Lawful;
      assert |data[n..]| == |data| - n;
    }
  }

  /** Payloads that reach the last block are always aligned. */
  lemma LongPayloadsAligned(length: nat)
    requires length >= FIRST_BLOCK + 13 * BLOCK
    ensures Aligned(length, 0)
  {
    AlignedFrom(length - FIRST_BLOCK, 1);
  }

  lemma {:induction false} AlignedFrom(length: nat, block: nat)
    requires 1 <= block <= 14 && length >= (14 - block) * BLOCK
    ensures Aligned(length, block)
    decreases 15 - block
  {
    if block < 14 {
      AlignedFrom(length - BLOCK, block + 1);
    } else {
      assert Aligned(0, 15);
    }
  }

  // ------------------------------------------------------------------ Framing

  function Low(n: nat): (r: nat)
    ensures r < 0x100
  {
    n % 0x100
  }

  function High(n: nat): nat {
    n / 0x100
  }

  /** Four bytes, least significant first, modulo 2^32. */
  function LittleEndian(n: nat): (b: seq<bv8>)
    ensures |b| == 4
  {
    [Byte(n), Byte(High(n)), Byte(High(High(n))), Byte(High(High(High(n))))]
  }

  function FromLittleEndian(b: seq<bv8>): nat
    requires |b| == 4
  {
    Value(b[0]) + 0x100 * Value(b[1]) + 0x10000 * Value(b[2]) + 0x1000000 * Value(b[3])
  }

  lemma Octet(n: nat)
    ensures Value(Byte(n)) == Low(n) && n == 0x100 * High(n) + Low(n)
  {
    ByteRead(n);
    hide Value, Byte;
  }

  lemma LittleEndianRead(n: nat)
    ensures FromLittleEndian(LittleEndian(n)) == n % 0x1_0000_0000
  {
    hide Byte, Value, Low, High;
    var a := High(n);
    var b := High(a);
    var c := High(b);
    Octet(n);
    Octet(a);
    Octet(b);
    Octet(c);
    Truncated(n, High(c), FromLittleEndian(LittleEndian(n)));
  }

  lemma Truncated(n: nat, q: nat, r: nat)
    requires n == q * 0x1_0000_0000 + r && r < 0x1_0000_0000
    ensures n % 0x1_0000_0000 == r
  {
  }

  /** The device's own order for the CRC: goodix_crypto_decode_u32. */
  function DecodeCrc(b: seq<bv8>): bv32
    requires |b| == 4
  {
    ((b[0] as bv32) << 8) + (b[1] as bv32) + ((b[2] as bv32) << 24) + ((b[3] as bv32) << 16)
  }

  function EncodeCrc(v: bv32): (b: seq<bv8>)
    ensures |b| == 4
  {
    [((v >> 8) & 0xFF) as bv8, (v & 0xFF) as bv8, (v >> 24) as bv8, ((v >> 16) & 0xFF) as bv8]
  }

  lemma CrcRead(v: bv32)
    ensures DecodeCrc(EncodeCrc(v)) == v
  {
  }

  function CounterBytes(c: bv32): seq<bv8> {
    [(c & 0xFF) as bv8, ((c >> 8) & 0xFF) as bv8, ((c >> 16) & 0xFF) as bv8, ((c >> 24) & 0xFF) as bv8]
  }

  /** What the frame's HMAC covers: the counter and the last kilobyte. */
  function Covered(c: bv32, payload: seq<bv8>): seq<bv8> {
    CounterBytes(c) + payload[|payload| - Min(AUTHENTICATED, |payload|)..]
  }

  /** The type is right and the length field agrees modulo 2^32. */
  predicate HeaderFits(kind: seq<bv8>, length: seq<bv8>, total: nat)
    requires |kind| == 4 && |length| == 4
  {
    FromLittleEndian(kind) == DATA_TYPE && FromLittleEndian(length) == total % 0x1_0000_0000
  }

  lemma HeaderMade(total: nat)
    ensures HeaderFits(LittleEndian(DATA_TYPE), LittleEndian(total), total)
  {
    hide LittleEndian, FromLittleEndian;
    LittleEndianRead(DATA_TYPE);
    LittleEndianRead(total);
  }

  /** The payload once the frame's header and blocks are undone. */
  function Payload(k: Keys, frame: seq<bv8>): Option<seq<bv8>> {
    if |frame| < 8 + 0x20 then None
    else if !HeaderFits(frame[0..4], frame[4..8], |frame|) then None
    else Unwrap(k, frame[8..|frame| - 0x20], 0)
  }

  predicate Authentic(s: Session, frame: seq<bv8>) {
    var p := Payload(s.keys, frame);
    p.Some? && s.keys.hmac(Covered(s.counter, p.value)) == frame[|frame| - 0x20..]
  }

  /** Five bytes of header, masked data, CRC: the plain data, if all agrees. */
  function Open(k: Keys, payload: seq<bv8>): Option<seq<bv8>> {
    if |payload| < 5 + 4 then None
    else
      var data := payload[5..|payload| - 4];
      if |data| % 2 != 0 || SerialCrc(data) != DecodeCrc(payload[|payload| - 4..]) then None
      else Some(Gea(k.stream, data))
  }

  /** goodix_crypto_gtls_decrypt_sensor_data. */
  function Decrypt(s: Session, frame: seq<bv8>): (Session, Option<seq<bv8>>) {
    if !Authentic(s, frame) then (s, None)
    else
      var s1 := s.(counter := s.counter + 1);
      if s.state != ESTABLISHED then (s1, None) else (s1, Open(s.keys, Payload(s.keys, frame).value))
  }

  // ----------------------------------------------------------------- Encoder

  function Seal(k: Keys, header: seq<bv8>, plain: seq<bv8>): seq<bv8> {
    var data := Gea(k.stream, plain);
    header + data + EncodeCrc(SerialCrc(data))
  }

  /** The frame a sensor sends for `plain`, under its five header bytes. */
  function Encrypt(s: Session, header: seq<bv8>, plain: seq<bv8>): seq<bv8> {
    var payload := Seal(s.keys, header, plain);
    LittleEndian(DATA_TYPE) + LittleEndian(8 + |payload| + 0x20) + Wrap(s.keys, payload, 0)
      + s.keys.hmac(Covered(s.counter, payload))
  }

  lemma SealOpens(k: Keys, header: seq<bv8>, plain: seq<bv8>)
    requires |header| == 5 && |plain| % 2 == 0
    ensures |Seal(k, header, plain)| == |plain| + 9 && Open(k, Seal(k, header, plain)) == Some(plain)
  {
    hide Gea, DecodeCrc, SerialCrc;
    var data := Gea(k.stream, plain);
    var sealed := Seal(k, header, plain);
    assert sealed[5..|sealed| - 4] == data;
    assert sealed[|sealed| - 4..] == EncodeCrc(SerialCrc(data));
    CrcRead(SerialCrc(data));
    GeaTwice(k.stream, plain);
  }

  /** The frame's fields, seen from the receiver. */
  lemma FrameRead(s: Session, header: seq<bv8>, plain: seq<bv8>)
    requires Lawful(s.keys) && |header| == 5 && Aligned(|plain| + 9, 0)
    ensures var frame := Encrypt(s, header, plain);
      Payload(s.keys, frame) == Some(Seal(s.keys, header, plain)) && Authentic(s, frame)
  {
    hide Gea, LittleEndian, Wrap, Unwrap, Covered, Seal, Lawful, Payload;
    var payload := Seal(s.keys, header, plain);
    SealLength(s.keys, header, plain);
    WrapUndone(s.keys, payload, 0);
    DigestLength(s.keys, Covered(s.counter, payload));
    HeaderRead(s.keys, Wrap(s.keys, payload, 0), s.keys.hmac(Covered(s.counter, payload)));
  }

  lemma HeaderRead(k: Keys, wrapped: seq<bv8>, digest: seq<bv8>)
    requires |digest| == 0x20
    ensures var frame := LittleEndian(DATA_TYPE) + LittleEndian(8 + |wrapped| + 0x20) + wrapped + digest;
      && |frame| == 8 + |wrapped| + 0x20 && frame[|frame| - 0x20..] == digest
      && Payload(k, frame) == Unwrap(k, wrapped, 0)
  {
    var total := 8 + |wrapped| + 0x20;
    hide LittleEndian, HeaderFits, Unwrap;
    HeaderMade(total);
    Parts(LittleEndian(DATA_TYPE), LittleEndian(total), wrapped, digest);
  }

  lemma SealLength(k: Keys, header: seq<bv8>, plain: seq<bv8>)
    ensures |Seal(k, header, plain)| == |header| + |plain| + 4
  {
  }

  lemma Parts(a: seq<bv8>, b: seq<bv8>, c: seq<bv8>, d: seq<bv8>)
    requires |a| == 4 && |b| == 4 && |d| == 0x20
    ensures var f := a + b + c + d;
      |f| == 8 + |c| + 0x20 && f[0..4] == a && f[4..8] == b && f[8..|f| - 0x20] == c && f[|f| - 0x20..] == d
  {
  }

  // ------------------------------------------------------------ Main results

  /** An established session recovers exactly the even-length data of every frame
      whose enciphered blocks are whole, and moves on to the next counter. */
  lemma DecryptInverts(s: Session, header: seq<bv8>, plain: seq<bv8>)
    requires Lawful(s.keys) && |header| == 5 && s.state == ESTABLISHED
    requires |plain| % 2 == 0 && Aligned(|plain| + 9, 0)
    ensures Decrypt(s, Encrypt(s, header, plain)) == (s.(counter := s.counter + 1), Some(plain))
  {
    hide Encrypt, Authentic, Payload, Seal, Open;
    FrameRead(s, header, plain);
    SealOpens(s.keys, header, plain);
  }

  /** In particular every frame that fills its first fourteen blocks. */
  lemma LongFramesDecrypt(s: Session, header: seq<bv8>, plain: seq<bv8>)
    requires Lawful(s.keys) && |header| == 5 && s.state == ESTABLISHED
    requires |plain| % 2 == 0 && |plain| + 9 >= FIRST_BLOCK + 13 * BLOCK
    ensures Decrypt(s, Encrypt(s, header, plain)) == (s.(counter := s.counter + 1), Some(plain))
  {
    hide Decrypt, Encrypt, Lawful;
    LongPayloadsAligned(|plain| + 9);
    DecryptInverts(s, header, plain);
  }

  /** The server counter moves, by one, exactly for authentic frames: session
      state, CRC and lengths decide about the data but not about the counter. */
  lemma CounterFollowsAuthenticity(s: Session, frame: seq<bv8>)
    ensures var (s1, data) := Decrypt(s, frame);
      && s1 == s.(counter := if Authentic(s, frame) then s.counter + 1 else s.counter)
      && (s1.counter != s.counter <==> Authentic(s, frame))
      && (data.Some? ==> s.state == ESTABLISHED && |data.value| % 2 == 0)
      && (data.Some? && Lawful(s.keys) ==> |data.value| + 9 == |frame| - 0x28)
  {
    hide Payload, Open, Covered, Lawful;
    CounterMoves(s.counter);
    if Payload(s.keys, frame).Some? {
      OpenedLength(s.keys, Payload(s.keys, frame).value);
      if Lawful(s.keys) { PayloadLength(s.keys, frame); }
    }
  }

  lemma OpenedLength(k: Keys, payload: seq<bv8>)
    ensures var data := Open(k, payload); data.Some? ==> |data.value| % 2 == 0 && |data.value| + 9 == |payload|
  {
    hide SerialCrc, DecodeCrc;
  }

  lemma PayloadLength(k: Keys, frame: seq<bv8>)
    requires Lawful(k) && Payload(k, frame).Some?
    ensures |Payload(k, frame).value| == |frame| - 0x28
  {
    hide Unwrap, HeaderFits, Lawful, Aligned;
    UnwrapFailsUnaligned(k, frame[8..|frame| - 0x20], 0);
  }

  lemma CounterMoves(c: bv32)
    ensures c + 1 != c
  {
  }

  /** Replaying a frame after it was accepted needs a digest that also fits the
      next counter. */
  lemma ReplayRejected(s: Session, header: seq<bv8>, plain: seq<bv8>)
    requires Lawful(s.keys) && |header| == 5 && s.state == ESTABLISHED
    requires |plain| % 2 == 0 && Aligned(|plain| + 9, 0)
    requires var p := Seal(s.keys, header, plain);
      s.keys.hmac(Covered(s.counter + 1, p)) != s.keys.hmac(Covered(s.counter, p))
    ensures var (s1, _) := Decrypt(s, Encrypt(s, header, plain));
      Decrypt(s1, Encrypt(s, header, plain)) == (s1, None)
  {
    DecryptInverts(s, header, plain);
    FrameRead(s, header, plain);
    hide Gea, SerialCrc, DecodeCrc, Covered, HeaderFits, Unwrap, Payload, Wrap, LittleEndian;
    var payload := Seal(s.keys, header, plain);
    WrapUndone(s.keys, payload, 0);
    var frame := Encrypt(s, header, plain);
    assert frame[|frame| - 0x20..] == s.keys.hmac(Covered(s.counter, payload));
  }

  // ------------------------------------------------------ As crypto.c runs it

  /** GoodixGtlsCtx, as far as received frames change it. */
  class Gtls {
    const keys: Keys
    var state: int
    var counter: bv32

    ghost function View(): Session
      reads this
    {
      Session(keys, state, counter)
    }

    constructor (keys: Keys, state: int, counter: bv32)
      ensures View() == Session(keys, state, counter)
    {
      this.keys, this.state, this.counter := keys, state, counter;
    }

    method DecryptSensorData(frame: seq<bv8>) returns (data: Option<seq<bv8>>)
      requires Lawful(keys)
      modifies this
      ensures View() == Decrypt(old(View()), frame).0
      ensures data == Decrypt(old(View()), frame).1
    {
      hide Covered, Lawful, Open, Payload;
      data := None;
      var payload := ReadPayload(keys, frame);
      if payload.Some? && keys.hmac(Covered(counter, payload.value)) == frame[|frame| - 0x20..] {
        counter := counter + 1;
        if state == ESTABLISHED {
          data := OpenPayload(keys, payload.value);
        }
      }
    }
  }

  /** Header checks and the block loop. */
  method ReadPayload(k: Keys, frame: seq<bv8>) returns (payload: Option<seq<bv8>>)
    requires Lawful(k)
    ensures payload == Payload(k, frame) && (payload.Some? ==> |frame| >= 8 + 0x20)
  {
    hide Lawful, HeaderFits, Unwrap;
    if |frame| < 8 + 0x20 { return None; }
    if !HeaderFits(frame[0..4], frame[4..8], |frame|) { return None; }
    payload := UnwrapBlocks(k, frame[8..|frame| - 0x20]);
  }

  /** What is known so far, in front of what is still to come. */
  function Before(done: seq<bv8>, rest: Option<seq<bv8>>): Option<seq<bv8>> {
    if rest.None? then None else Some(done + rest.value)
  }

  lemma BeforeBefore(done: seq<bv8>, piece: seq<bv8>, rest: Option<seq<bv8>>)
    ensures Before(done, Before(piece, rest)) == Before(done + piece, rest)
  {
    if rest.Some? { Regroup(done, piece, rest.value); }
  }

  lemma BeforeNothing(rest: Option<seq<bv8>>)
    ensures Before([], rest) == rest
  {
    if rest.Some? { assert [] + rest.value == rest.value; }
  }

  lemma UnwrapStep(k: Keys, body: seq<bv8>, used: nat, size: nat, block: nat)
    requires block < 15 && used + size <= |body| && size == BlockSize(block, |body| - used)
    ensures Unwrap(k, body[used..], block) ==
      if block % 2 == 1 && size % 16 != 0 then None
      else Before(if block % 2 == 1 then k.decrypt(body[used..used + size]) else body[used..used + size],
                  Unwrap(k, body[used + size..], block + 1))
  {
    hide Unwrap, BlockSize;
    var data := body[used..];
    assert data[..size] == body[used..used + size] && data[size..] == body[used + size..];
    OneBlock(k, data, block);
  }

  /** The block loop over one output buffer. */
  method UnwrapBlocks(k: Keys, body: seq<bv8>) returns (payload: Option<seq<bv8>>)
    requires Lawful(k)
    ensures payload == Unwrap(k, body, 0)
  {
    hide Lawful, Unwrap;
    var buffer := new bv8[|body|];
    var used := 0;
    var block := 0;
    assert body[0..] == body && buffer[..0] == [];
    BeforeNothing(Unwrap(k, body, 0));
    while block < 15
      invariant 0 <= block <= 15 && 0 <= used <= |body| && (block == 15 ==> used == |body|)
      invariant Unwrap(k, body, 0) == Before(buffer[..used], Unwrap(k, body[used..], block))
    {
      var remaining := |body| - used;
      var size :=
        if block % 2 == 0 then
          if block == 0 then Min(FIRST_BLOCK, remaining) else if block == 14 then remaining else Min(BLOCK, remaining)
        else Min(BLOCK, remaining);
      UnwrapStep(k, body, used, size, block);
      var piece := body[used..used + size];
      if block % 2 == 1 {
        if size % 16 != 0 { return None; }
        DecryptLength(k, piece);
        piece := k.decrypt(piece);
      }
      BeforeBefore(buffer[..used], piece, Unwrap(k, body[used + size..], block + 1));
      Fill(buffer, used, piece);
      used := used + size;
      block := block + 1;
    }
    assert body[used..] == [] && buffer[..used] == buffer[..];
    LastWrap(k);
    payload := Some(buffer[..]);
    assert buffer[..] + [] == buffer[..];
  }

  /** memcpy into the output buffer. */
  method Fill(buffer: array<bv8>, used: nat, piece: seq<bv8>)
    requires used + |piece| <= buffer.Length
    modifies buffer
    ensures buffer[..used + |piece|] == old(buffer[..used]) + piece
  {
    forall i | 0 <= i < |piece| {
      buffer[used + i] := piece[i];
    }
  }

  /** Strip, check, unmask. */
  method OpenPayload(k: Keys, payload: seq<bv8>) returns (data: Option<seq<bv8>>)
    ensures data == Open(k, payload)
  {
    hide SerialCrc, Gea, DecodeCrc;
    if |payload| < 5 + 4 { return None; }
    var masked := payload[5..|payload| - 4];
    if |masked| % 2 != 0 { return None; }
    var crc := ComputeCrc(masked);
    if crc != DecodeCrc(payload[|payload| - 4..]) { return None; }
    var plain := GeaDecrypt(k.stream, masked);
    data := Some(plain[..]);
  }

  // ----------------------------------------- Session keys (RFC 5246, section 5)

  type Prf = seq<bv8> -> seq<bv8>

  /** A(i) of P_hash. */
  function Chain(hmac: Prf, seed: seq<bv8>, i: nat): seq<bv8> {
    if i == 0 then seed else hmac(Chain(hmac, seed, i - 1))
  }

  /** HMAC(secret, A(i) + seed): the i-th block of P_hash's output. */
  function OutputBlock(hmac: Prf, seed: seq<bv8>, i: nat): seq<bv8> {
    hmac(Chain(hmac, seed, i) + seed)
  }

  /** goodix_crypto_derive_session_key: any number of bytes of P_hash. */
  method DeriveSessionKey(hmac: Prf, tag: seq<bv8>, random: seq<bv8>, length: nat) returns (key: array<bv8>)
    requires forall m: seq<bv8> :: |hmac(m)| == 32
    ensures fresh(key) && key.Length == length
    ensures forall j | 0 <= j < length :: key[j] == OutputBlock(hmac, tag + random, 1 + j / 32)[j % 32]
  {
    var seed := tag + random;
    key := new bv8[length];
    var chain := hmac(seed);
    var offset := 0;
    ghost var i := 1;
    while offset < length
      invariant 0 <= offset <= length && i >= 1
      invariant offset == 32 * (i - 1) || offset == length
      invariant chain == Chain(hmac, seed, i)
      invariant forall j | 0 <= j < offset :: key[j] == OutputBlock(hmac, seed, 1 + j / 32)[j % 32]
    {
      var output := hmac(chain + seed);
      var count := Min(32, length - offset);
      forall k | 0 <= k < count {
        key[offset + k] := output[k];
      }
      forall j | offset <= j < offset + count ensures key[j] == OutputBlock(hmac, seed, 1 + j / 32)[j % 32] {
        assert j / 32 == i - 1 && j % 32 == j - offset;
      }
      offset := offset + count;
      chain := hmac(chain);
      i := i + 1;
    }
  }
}
