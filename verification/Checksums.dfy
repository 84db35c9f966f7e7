/**
 The two table-driven checksums of the driver and their bit-serial forms: CRC-32/MPEG-2
 (drivers/goodix53x5/device/crypto.c against tools/milan-parity/milan_parity_validate.py)
 and the OTP hash (device/calibration.c against scripts/goodix53x5-detect.c).
 */
module Checksums {
  // ------------------------------------------------------------ CRC-32/MPEG-2

  const POLYNOMIAL: bv32 := 0x04C11DB7

  function Xor(a: bv32, b: bv32): bv32 {
    a ^ b
  }

  function Double(v: bv32): bv32 {
    v << 1
  }

  predicate Top(v: bv32) {
    v & 0x80000000 != 0
  }

  /** One step of the bit-serial form. */
  function Shift(v: bv32): bv32 {
    if Top(v) then Xor(Double(v), POLYNOMIAL) else Double(v)
  }

  function Shift8(v: bv32): bv32 {
    Shift(Shift(Shift(Shift(Shift(Shift(Shift(Shift(v))))))))
  }

  /** The bit-serial form: a byte enters at the top, then eight steps. */
  function SerialCrc(data: seq<bv8>): bv32 {
    if data == [] then 0xFFFFFFFF
    else SerialStep(SerialCrc(data[..|data| - 1]), data[|data| - 1])
  }

  function SerialStep(crc: bv32, b: bv8): bv32 {
    Shift8(Xor(crc, (b as bv32) << 24))
  }

  // crc32_mpeg2_table, sixteen entries a row.

  function CrcRow0(i: bv8): bv32 {
    if i == 0 then 0x00000000 else if i == 1 then 0x04C11DB7 else if i == 2 then 0x09823B6E else if i == 3 then 0x0D4326D9 else
    if i == 4 then 0x130476DC else if i == 5 then 0x17C56B6B else if i == 6 then 0x1A864DB2 else if i == 7 then 0x1E475005 else
    if i == 8 then 0x2608EDB8 else if i == 9 then 0x22C9F00F else if i == 10 then 0x2F8AD6D6 else if i == 11 then 0x2B4BCB61 else
    if i == 12 then 0x350C9B64 else if i == 13 then 0x31CD86D3 else if i == 14 then 0x3C8EA00A else 0x384FBDBD
  }

  function CrcRow1(i: bv8): bv32 {
    if i == 0 then 0x4C11DB70 else if i == 1 then 0x48D0C6C7 else if i == 2 then 0x4593E01E else if i == 3 then 0x4152FDA9 else
    if i == 4 then 0x5F15ADAC else if i == 5 then 0x5BD4B01B else if i == 6 then 0x569796C2 else if i == 7 then 0x52568B75 else
    if i == 8 then 0x6A1936C8 else if i == 9 then 0x6ED82B7F else if i == 10 then 0x639B0DA6 else if i == 11 then 0x675A1011 else
    if i == 12 then 0x791D4014 else if i == 13 then 0x7DDC5DA3 else if i == 14 then 0x709F7B7A else 0x745E66CD
  }

  function CrcRow2(i: bv8): bv32 {
    if i == 0 then 0x9823B6E0 else if i == 1 then 0x9CE2AB57 else if i == 2 then 0x91A18D8E else if i == 3 then 0x95609039 else
    if i == 4 then 0x8B27C03C else if i == 5 then 0x8FE6DD8B else if i == 6 then 0x82A5FB52 else if i == 7 then 0x8664E6E5 else
    if i == 8 then 0xBE2B5B58 else if i == 9 then 0xBAEA46EF else if i == 10 then 0xB7A96036 else if i == 11 then 0xB3687D81 else
    if i == 12 then 0xAD2F2D84 else if i == 13 then 0xA9EE3033 else if i == 14 then 0xA4AD16EA else 0xA06C0B5D
  }

  function CrcRow3(i: bv8): bv32 {
    if i == 0 then 0xD4326D90 else if i == 1 then 0xD0F37027 else if i == 2 then 0xDDB056FE else if i == 3 then 0xD9714B49 else
    if i == 4 then 0xC7361B4C else if i == 5 then 0xC3F706FB else if i == 6 then 0xCEB42022 else if i == 7 then 0xCA753D95 else
    if i == 8 then 0xF23A8028 else if i == 9 then 0xF6FB9D9F else if i == 10 then 0xFBB8BB46 else if i == 11 then 0xFF79A6F1 else
    if i == 12 then 0xE13EF6F4 else if i == 13 then 0xE5FFEB43 else if i == 14 then 0xE8BCCD9A else 0xEC7DD02D
  }

  function CrcRow4(i: bv8): bv32 {
    if i == 0 then 0x34867077 else if i == 1 then 0x30476DC0 else if i == 2 then 0x3D044B19 else if i == 3 then 0x39C556AE else
    if i == 4 then 0x278206AB else if i == 5 then 0x23431B1C else if i == 6 then 0x2E003DC5 else if i == 7 then 0x2AC12072 else
    if i == 8 then 0x128E9DCF else if i == 9 then 0x164F8078 else if i == 10 then 0x1B0CA6A1 else if i == 11 then 0x1FCDBB16 else
    if i == 12 then 0x018AEB13 else if i == 13 then 0x054BF6A4 else if i == 14 then 0x0808D07D else 0x0CC9CDCA
  }

  function CrcRow5(i: bv8): bv32 {
    if i == 0 then 0x7897AB07 else if i == 1 then 0x7C56B6B0 else if i == 2 then 0x71159069 else if i == 3 then 0x75D48DDE else
    if i == 4 then 0x6B93DDDB else if i == 5 then 0x6F52C06C else if i == 6 then 0x6211E6B5 else if i == 7 then 0x66D0FB02 else
    if i == 8 then 0x5E9F46BF else if i == 9 then 0x5A5E5B08 else if i == 10 then 0x571D7DD1 else if i == 11 then 0x53DC6066 else
    if i == 12 then 0x4D9B3063 else if i == 13 then 0x495A2DD4 else if i == 14 then 0x44190B0D else 0x40D816BA
  }

  function CrcRow6(i: bv8): bv32 {
    if i == 0 then 0xACA5C697 else if i == 1 then 0xA864DB20 else if i == 2 then 0xA527FDF9 else if i == 3 then 0xA1E6E04E else
    if i == 4 then 0xBFA1B04B else if i == 5 then 0xBB60ADFC else if i == 6 then 0xB6238B25 else if i == 7 then 0xB2E29692 else
    if i == 8 then 0x8AAD2B2F else if i == 9 then 0x8E6C3698 else if i == 10 then 0x832F1041 else if i == 11 then 0x87EE0DF6 else
    if i == 12 then 0x99A95DF3 else if i == 13 then 0x9D684044 else if i == 14 then 0x902B669D else 0x94EA7B2A
  }

  function CrcRow7(i: bv8): bv32 {
    if i == 0 then 0xE0B41DE7 else if i == 1 then 0xE4750050 else if i == 2 then 0xE9362689 else if i == 3 then 0xEDF73B3E else
    if i == 4 then 0xF3B06B3B else if i == 5 then 0xF771768C else if i == 6 then 0xFA325055 else if i == 7 then 0xFEF34DE2 else
    if i == 8 then 0xC6BCF05F else if i == 9 then 0xC27DEDE8 else if i == 10 then 0xCF3ECB31 else if i == 11 then 0xCBFFD686 else
    if i == 12 then 0xD5B88683 else if i == 13 then 0xD1799B34 else if i == 14 then 0xDC3ABDED else 0xD8FBA05A
  }

  function CrcRow8(i: bv8): bv32 {
    if i == 0 then 0x690CE0EE else if i == 1 then 0x6DCDFD59 else if i == 2 then 0x608EDB80 else if i == 3 then 0x644FC637 else
    if i == 4 then 0x7A089632 else if i == 5 then 0x7EC98B85 else if i == 6 then 0x738AAD5C else if i == 7 then 0x774BB0EB else
    if i == 8 then 0x4F040D56 else if i == 9 then 0x4BC510E1 else if i == 10 then 0x46863638 else if i == 11 then 0x42472B8F else
    if i == 12 then 0x5C007B8A else if i == 13 then 0x58C1663D else if i == 14 then 0x558240E4 else 0x51435D53
  }

  function CrcRow9(i: bv8): bv32 {
    if i == 0 then 0x251D3B9E else if i == 1 then 0x21DC2629 else if i == 2 then 0x2C9F00F0 else if i == 3 then 0x285E1D47 else
    if i == 4 then 0x36194D42 else if i == 5 then 0x32D850F5 else if i == 6 then 0x3F9B762C else if i == 7 then 0x3B5A6B9B else
    if i == 8 then 0x0315D626 else if i == 9 then 0x07D4CB91 else if i == 10 then 0x0A97ED48 else if i == 11 then 0x0E56F0FF else
    if i == 12 then 0x1011A0FA else if i == 13 then 0x14D0BD4D else if i == 14 then 0x19939B94 else 0x1D528623
  }

  function CrcRowA(i: bv8): bv32 {
    if i == 0 then 0xF12F560E else if i == 1 then 0xF5EE4BB9 else if i == 2 then 0xF8AD6D60 else if i == 3 then 0xFC6C70D7 else
    if i == 4 then 0xE22B20D2 else if i == 5 then 0xE6EA3D65 else if i == 6 then 0xEBA91BBC else if i == 7 then 0xEF68060B else
    if i == 8 then 0xD727BBB6 else if i == 9 then 0xD3E6A601 else if i == 10 then 0xDEA580D8 else if i == 11 then 0xDA649D6F else
    if i == 12 then 0xC423CD6A else if i == 13 then 0xC0E2D0DD else if i == 14 then 0xCDA1F604 else 0xC960EBB3
  }

  function CrcRowB(i: bv8): bv32 {
    if i == 0 then 0xBD3E8D7E else if i == 1 then 0xB9FF90C9 else if i == 2 then 0xB4BCB610 else if i == 3 then 0xB07DABA7 else
    if i == 4 then 0xAE3AFBA2 else if i == 5 then 0xAAFBE615 else if i == 6 then 0xA7B8C0CC else if i == 7 then 0xA379DD7B else
    if i == 8 then 0x9B3660C6 else if i == 9 then 0x9FF77D71 else if i == 10 then 0x92B45BA8 else if i == 11 then 0x9675461F else
    if i == 12 then 0x8832161A else if i == 13 then 0x8CF30BAD else if i == 14 then 0x81B02D74 else 0x857130C3
  }

  function CrcRowC(i: bv8): bv32 {
    if i == 0 then 0x5D8A9099 else if i == 1 then 0x594B8D2E else if i == 2 then 0x5408ABF7 else if i == 3 then 0x50C9B640 else
    if i == 4 then 0x4E8EE645 else if i == 5 then 0x4A4FFBF2 else if i == 6 then 0x470CDD2B else if i == 7 then 0x43CDC09C else
    if i == 8 then 0x7B827D21 else if i == 9 then 0x7F436096 else if i == 10 then 0x7200464F else if i == 11 then 0x76C15BF8 else
    if i == 12 then 0x68860BFD else if i == 13 then 0x6C47164A else if i == 14 then 0x61043093 else 0x65C52D24
  }

  function CrcRowD(i: bv8): bv32 {
    if i == 0 then 0x119B4BE9 else if i == 1 then 0x155A565E else if i == 2 then 0x18197087 else if i == 3 then 0x1CD86D30 else
    if i == 4 then 0x029F3D35 else if i == 5 then 0x065E2082 else if i == 6 then 0x0B1D065B else if i == 7 then 0x0FDC1BEC else
    if i == 8 then 0x3793A651 else if i == 9 then 0x3352BBE6 else if i == 10 then 0x3E119D3F else if i == 11 then 0x3AD08088 else
    if i == 12 then 0x2497D08D else if i == 13 then 0x2056CD3A else if i == 14 then 0x2D15EBE3 else 0x29D4F654
  }

  function CrcRowE(i: bv8): bv32 {
    if i == 0 then 0xC5A92679 else if i == 1 then 0xC1683BCE else if i == 2 then 0xCC2B1D17 else if i == 3 then 0xC8EA00A0 else
    if i == 4 then 0xD6AD50A5 else if i == 5 then 0xD26C4D12 else if i == 6 then 0xDF2F6BCB else if i == 7 then 0xDBEE767C else
    if i == 8 then 0xE3A1CBC1 else if i == 9 then 0xE760D676 else if i == 10 then 0xEA23F0AF else if i == 11 then 0xEEE2ED18 else
    if i == 12 then 0xF0A5BD1D else if i == 13 then 0xF464A0AA else if i == 14 then 0xF9278673 else 0xFDE69BC4
  }

  function CrcRowF(i: bv8): bv32 {
    if i == 0 then 0x89B8FD09 else if i == 1 then 0x8D79E0BE else if i == 2 then 0x803AC667 else if i == 3 then 0x84FBDBD0 else
    if i == 4 then 0x9ABC8BD5 else if i == 5 then 0x9E7D9662 else if i == 6 then 0x933EB0BB else if i == 7 then 0x97FFAD0C else
    if i == 8 then 0xAFB010B1 else if i == 9 then 0xAB710D06 else if i == 10 then 0xA6322BDF else if i == 11 then 0xA2F33668 else
    if i == 12 then 0xBCB4666D else if i == 13 then 0xB8757BDA else if i == 14 then 0xB5365D03 else 0xB1F740B4
  }

  function CrcTable(index: bv8): bv32 {
    var h, i := index >> 4, index & 0x0F;
    if h == 0 then CrcRow0(i) else if h == 1 then CrcRow1(i) else if h == 2 then CrcRow2(i) else if h == 3 then CrcRow3(i) else
    if h == 4 then CrcRow4(i) else if h == 5 then CrcRow5(i) else if h == 6 then CrcRow6(i) else if h == 7 then CrcRow7(i) else
    if h == 8 then CrcRow8(i) else if h == 9 then CrcRow9(i) else if h == 10 then CrcRowA(i) else if h == 11 then CrcRowB(i) else
    if h == 12 then CrcRowC(i) else if h == 13 then CrcRowD(i) else if h == 14 then CrcRowE(i) else CrcRowF(i)
  }

  /** The table-driven form: the top byte selects what the shift feeds back. */
  function TableCrc(data: seq<bv8>): bv32 {
    if data == [] then 0xFFFFFFFF
    else TableStep(TableCrc(data[..|data| - 1]), data[|data| - 1])
  }

  function TableStep(crc: bv32, b: bv8): bv32 {
    Xor(crc << 8, CrcTable(((crc >> 24) as bv8) ^ b))
  }

  /** goodix_crypto_crc32_mpeg2. */
  method ComputeCrc(data: seq<bv8>) returns (crc: bv32)
    ensures crc == SerialCrc(data)
  {
    hide Xor, CrcTable, TableCrc, SerialCrc;
    crc := 0xFFFFFFFF;
    TableStarts();
    for i := 0 to |data|
      invariant crc == TableCrc(data[..i])
    {
      TableGoesOn(data, i);
      crc := Xor(crc << 8, CrcTable(((crc >> 24) as bv8) ^ data[i]));
    }
    assert data[..|data|] == data;
    TableMatchesSerial(data);
  }

  lemma TableStarts()
    ensures TableCrc([]) == 0xFFFFFFFF
  {
  }

  lemma TableGoesOn(data: seq<bv8>, i: nat)
    requires i < |data|
    ensures TableCrc(data[..i + 1]) == TableStep(TableCrc(data[..i]), data[i])
  {
    assert data[..i + 1][..i] == data[..i];
    hide TableStep;
  }

  /** _crc32_mpeg2: the same, one bit at a time. */
  method ComputeCrcSerially(data: seq<bv8>) returns (crc: bv32)
    ensures crc == SerialCrc(data)
  {
    crc := 0xFFFFFFFF;
    for i := 0 to |data|
      invariant crc == SerialCrc(data[..i])
    {
      assert data[..i + 1][..i] == data[..i];
      crc := Xor(crc, (data[i] as bv32) << 24);
      ghost var start := crc;
      for bit := 0 to 8
        invariant crc == ShiftTimes(start, bit)
      {
        crc := Shift(crc);
      }
      EightShifts(start);
    }
    assert data[..|data|] == data;
  }

  function ShiftTimes(v: bv32, n: nat): bv32 {
    if n == 0 then v else Shift(ShiftTimes(v, n - 1))
  }

  lemma EightShifts(v: bv32)
    ensures ShiftTimes(v, 8) == Shift8(v)
  {
    hide Shift;
    assert ShiftTimes(v, 1) == Shift(v);
    assert ShiftTimes(v, 2) == Shift(Shift(v));
    assert ShiftTimes(v, 4) == Shift(Shift(ShiftTimes(v, 2)));
    assert ShiftTimes(v, 6) == Shift(Shift(ShiftTimes(v, 4)));
    assert ShiftTimes(v, 8) == Shift(Shift(ShiftTimes(v, 6)));
  }

  // The bit-serial step is linear over exclusive or.

  lemma TopXor(v: bv32, w: bv32)
    ensures Top(Xor(v, w)) <==> Top(v) != Top(w)
  {
  }

  lemma DoubleXor(v: bv32, w: bv32)
    ensures Double(Xor(v, w)) == Xor(Double(v), Double(w))
  {
  }

  lemma XorRules(a: bv32, b: bv32, p: bv32)
    ensures Xor(Xor(a, p), b) == Xor(Xor(a, b), p) == Xor(a, Xor(b, p)) && Xor(Xor(a, p), Xor(b, p)) == Xor(a, b)
  {
  }

  lemma ShiftXor(v: bv32, w: bv32)
    ensures Shift(Xor(v, w)) == Xor(Shift(v), Shift(w))
  {
    TopXor(v, w);
    DoubleXor(v, w);
    XorRules(Double(v), Double(w), POLYNOMIAL);
    hide Top, Xor, Double;
  }

  lemma Shift8Xor(v: bv32, w: bv32)
    ensures Shift8(Xor(v, w)) == Xor(Shift8(v), Shift8(w))
  {
    hide Shift, Xor;
    var v1, w1 := Shift(v), Shift(w);
    ShiftXor(v, w);
    var v2, w2 := Shift(v1), Shift(w1);
    ShiftXor(v1, w1);
    var v3, w3 := Shift(v2), Shift(w2);
    ShiftXor(v2, w2);
    var v4, w4 := Shift(v3), Shift(w3);
    ShiftXor(v3, w3);
    var v5, w5 := Shift(v4), Shift(w4);
    ShiftXor(v4, w4);
    var v6, w6 := Shift(v5), Shift(w5);
    ShiftXor(v5, w5);
    var v7, w7 := Shift(v6), Shift(w6);
    ShiftXor(v6, w6);
    ShiftXor(v7, w7);
  }

  /** Without its top byte a value shifts out nothing. */
  lemma Shift8Low(v: bv32)
    requires v & 0xFF000000 == 0
    ensures Shift8(v) == v << 8
  {
  }

  lemma SplitTop(crc: bv32, b: bv8)
    ensures Xor(crc, (b as bv32) << 24) == Xor((((crc >> 24) as bv8 ^ b) as bv32) << 24, crc & 0x00FFFFFF)
  {
  }

  lemma LowShifted(crc: bv32)
    ensures (crc & 0x00FFFFFF) << 8 == crc << 8 && (crc & 0x00FFFFFF) & 0xFF000000 == 0
  {
  }

  lemma XorCommutes(a: bv32, b: bv32)
    ensures Xor(a, b) == Xor(b, a)
  {
  }

  lemma CrcRow0Correct(i: bv8)
    requires i < 16
    ensures CrcRow0(i) == Shift8(((i) as bv32) << 24)
  {
  }

  lemma CrcRow1Correct(i: bv8)
    requires i < 16
    ensures CrcRow1(i) == Shift8(((i | 0x10) as bv32) << 24)
  {
  }

  lemma CrcRow2Correct(i: bv8)
    requires i < 16
    ensures CrcRow2(i) == Shift8(((i | 0x20) as bv32) << 24)
  {
  }

  lemma CrcRow3Correct(i: bv8)
    requires i < 16
    ensures CrcRow3(i) == Shift8(((i | 0x30) as bv32) << 24)
  {
  }

  lemma CrcRow4Correct(i: bv8)
    requires i < 16
    ensures CrcRow4(i) == Shift8(((i | 0x40) as bv32) << 24)
  {
  }

  lemma CrcRow5Correct(i: bv8)
    requires i < 16
    ensures CrcRow5(i) == Shift8(((i | 0x50) as bv32) << 24)
  {
  }

  lemma CrcRow6Correct(i: bv8)
    requires i < 16
    ensures CrcRow6(i) == Shift8(((i | 0x60) as bv32) << 24)
  {
  }

  lemma CrcRow7Correct(i: bv8)
    requires i < 16
    ensures CrcRow7(i) == Shift8(((i | 0x70) as bv32) << 24)
  {
  }

  lemma CrcRow8Correct(i: bv8)
    requires i < 16
    ensures CrcRow8(i) == Shift8(((i | 0x80) as bv32) << 24)
  {
  }

  lemma CrcRow9Correct(i: bv8)
    requires i < 16
    ensures CrcRow9(i) == Shift8(((i | 0x90) as bv32) << 24)
  {
  }

  lemma CrcRowACorrect(i: bv8)
    requires i < 16
    ensures CrcRowA(i) == Shift8(((i | 0xA0) as bv32) << 24)
  {
  }

  lemma CrcRowBCorrect(i: bv8)
    requires i < 16
    ensures CrcRowB(i) == Shift8(((i | 0xB0) as bv32) << 24)
  {
  }

  lemma CrcRowCCorrect(i: bv8)
    requires i < 16
    ensures CrcRowC(i) == Shift8(((i | 0xC0) as bv32) << 24)
  {
  }

  lemma CrcRowDCorrect(i: bv8)
    requires i < 16
    ensures CrcRowD(i) == Shift8(((i | 0xD0) as bv32) << 24)
  {
  }

  lemma CrcRowECorrect(i: bv8)
    requires i < 16
    ensures CrcRowE(i) == Shift8(((i | 0xE0) as bv32) << 24)
  {
  }

  lemma CrcRowFCorrect(i: bv8)
    requires i < 16
    ensures CrcRowF(i) == Shift8(((i | 0xF0) as bv32) << 24)
  {
  }

  /** Every entry is the contribution of its byte. */
  lemma CrcTableCorrect(index: bv8)
    ensures CrcTable(index) == Shift8((index as bv32) << 24)
  {
    hide CrcRow0, CrcRow1, CrcRow2, CrcRow3, CrcRow4, CrcRow5, CrcRow6, CrcRow7, CrcRow8, CrcRow9, CrcRowA, CrcRowB, CrcRowC, CrcRowD, CrcRowE, CrcRowF, Shift8;
    var h, i := index >> 4, index & 0x0F;
    Nibbles(index);
    if h == 0 { CrcRow0Correct(i); }
    else if h == 1 { CrcRow1Correct(i); }
    else if h == 2 { CrcRow2Correct(i); }
    else if h == 3 { CrcRow3Correct(i); }
    else if h == 4 { CrcRow4Correct(i); }
    else if h == 5 { CrcRow5Correct(i); }
    else if h == 6 { CrcRow6Correct(i); }
    else if h == 7 { CrcRow7Correct(i); }
    else if h == 8 { CrcRow8Correct(i); }
    else if h == 9 { CrcRow9Correct(i); }
    else if h == 10 { CrcRowACorrect(i); }
    else if h == 11 { CrcRowBCorrect(i); }
    else if h == 12 { CrcRowCCorrect(i); }
    else if h == 13 { CrcRowDCorrect(i); }
    else if h == 14 { CrcRowECorrect(i); }
    else { CrcRowFCorrect(i); }
  }

  lemma Nibbles(index: bv8)
    ensures index & 0x0F < 16 && index >> 4 < 16 && (index & 0x0F) | ((index >> 4) << 4) == index
  {
  }

  /** The table-driven CRC is the bit-serial one, on every byte string. */
  lemma {:induction false} TableMatchesSerial(data: seq<bv8>)
    ensures TableCrc(data) == SerialCrc(data)
  {
    hide TableStep, SerialStep;
    if data != [] {
      TableMatchesSerial(data[..|data| - 1]);
      StepMatches(SerialCrc(data[..|data| - 1]), data[|data| - 1]);
    }
  }

  lemma StepMatches(crc: bv32, b: bv8)
    ensures TableStep(crc, b) == SerialStep(crc, b)
  {
    hide Xor, Shift8, CrcTable;
    var top := (crc >> 24) as bv8 ^ b;
    SplitTop(crc, b);
    LowShifted(crc);
    Shift8Low(crc & 0x00FFFFFF);
    CrcTableCorrect(top);
    Shift8Xor((top as bv32) << 24, crc & 0x00FFFFFF);
    XorCommutes(crc << 8, CrcTable(top));
  }

  lemma ShiftInjective(v: bv32, w: bv32)
    requires v != w
    ensures Shift(v) != Shift(w)
  {
    ShiftUndone(v);
    ShiftUndone(w);
    hide Shift, Unshift;
  }

  /** The polynomial is odd, so the low bit tells whether it was fed back. */
  function Unshift(u: bv32): bv32 {
    if u & 1 != 0 then (Xor(u, POLYNOMIAL) >> 1) | 0x80000000 else u >> 1
  }

  lemma ShiftUndone(v: bv32)
    ensures Unshift(Shift(v)) == v
  {
    if Top(v) {
      FedBack(v);
    } else {
      NotFedBack(v);
    }
    hide Xor, Double;
  }

  lemma FedBack(v: bv32)
    requires Top(v)
    ensures Xor(Double(v), POLYNOMIAL) & 1 != 0
    ensures (Xor(Xor(Double(v), POLYNOMIAL), POLYNOMIAL) >> 1) | 0x80000000 == v
  {
  }

  lemma NotFedBack(v: bv32)
    requires !Top(v)
    ensures Double(v) & 1 == 0 && Double(v) >> 1 == v
  {
  }

  lemma SerialStepInjective(crc: bv32, dam: bv32, b: bv8)
    requires crc != dam
    ensures SerialStep(crc, b) != SerialStep(dam, b)
  {
    XorInjective(crc, dam, (b as bv32) << 24);
    hide Xor;
    Shift8Injective(Xor(crc, (b as bv32) << 24), Xor(dam, (b as bv32) << 24));
  }

  lemma XorInjective(a: bv32, b: bv32, p: bv32)
    requires a != b
    ensures Xor(a, p) != Xor(b, p)
  {
  }

  lemma Shift8Injective(v: bv32, w: bv32)
    requires v != w
    ensures Shift8(v) != Shift8(w)
  {
    hide Shift;
    var v1, w1 := Shift(v), Shift(w);
    ShiftInjective(v, w);
    var v2, w2 := Shift(v1), Shift(w1);
    ShiftInjective(v1, w1);
    var v3, w3 := Shift(v2), Shift(w2);
    ShiftInjective(v2, w2);
    var v4, w4 := Shift(v3), Shift(w3);
    ShiftInjective(v3, w3);
    var v5, w5 := Shift(v4), Shift(w4);
    ShiftInjective(v4, w4);
    var v6, w6 := Shift(v5), Shift(w5);
    ShiftInjective(v5, w5);
    var v7, w7 := Shift(v6), Shift(w6);
    ShiftInjective(v6, w6);
    ShiftInjective(v7, w7);
  }

  lemma ByteChangesStep(crc: bv32, a: bv8, b: bv8)
    requires a != b
    ensures SerialStep(crc, a) != SerialStep(crc, b)
  {
    ByteEnters(crc, a, b);
    hide Xor;
    Shift8Injective(Xor(crc, (a as bv32) << 24), Xor(crc, (b as bv32) << 24));
  }

  lemma ByteEnters(crc: bv32, a: bv8, b: bv8)
    requires a != b
    ensures Xor(crc, (a as bv32) << 24) != Xor(crc, (b as bv32) << 24)
  {
  }

  /** Damage to a single byte always changes the CRC. */
  lemma {:induction false} DamageDetected(data: seq<bv8>, dam: seq<bv8>, k: nat)
    requires |data| == |dam| && k < |data| && data[k] != dam[k]
    requires forall i | 0 <= i < |data| && i != k :: data[i] == dam[i]
    ensures SerialCrc(data) != SerialCrc(dam)
    decreases |data|
  {
    hide SerialStep;
    var n := |data| - 1;
    if k == n {
      assert data[..n] == dam[..n];
      ByteChangesStep(SerialCrc(data[..n]), data[n], dam[n]);
    } else {
      DamageDetected(data[..n], dam[..n], k);
      SerialStepInjective(SerialCrc(data[..n]), SerialCrc(dam[..n]), data[n]);
    }
  }

  // ------------------------------------------------------------------ OTP hash

  /** One step of otp_hash_step. */
  function HashBit(v: bv8): bv8 {
    if v & 0x80 != 0 then (v << 1) ^ 0x07 else v << 1
  }

  /** otp_hash_step: eight steps of the polynomial 0x07. */
  function HashByte(v: bv8): bv8 {
    HashBit(HashBit(HashBit(HashBit(HashBit(HashBit(HashBit(HashBit(v))))))))
  }

  // otp_hash_table, sixteen entries a row.

  function OtpRow0(i: bv8): bv8 {
    if i == 0 then 0x00 else if i == 1 then 0x07 else if i == 2 then 0x0e else if i == 3 then 0x09 else if i == 4 then 0x1c else
    if i == 5 then 0x1b else if i == 6 then 0x12 else if i == 7 then 0x15 else if i == 8 then 0x38 else if i == 9 then 0x3f else
    if i == 10 then 0x36 else if i == 11 then 0x31 else if i == 12 then 0x24 else if i == 13 then 0x23 else if i == 14 then 0x2a else 0x2d
  }

  function OtpRow1(i: bv8): bv8 {
    if i == 0 then 0x70 else if i == 1 then 0x77 else if i == 2 then 0x7e else if i == 3 then 0x79 else if i == 4 then 0x6c else
    if i == 5 then 0x6b else if i == 6 then 0x62 else if i == 7 then 0x65 else if i == 8 then 0x48 else if i == 9 then 0x4f else
    if i == 10 then 0x46 else if i == 11 then 0x41 else if i == 12 then 0x54 else if i == 13 then 0x53 else if i == 14 then 0x5a else 0x5d
  }

  function OtpRow2(i: bv8): bv8 {
    if i == 0 then 0xe0 else if i == 1 then 0xe7 else if i == 2 then 0xee else if i == 3 then 0xe9 else if i == 4 then 0xfc else
    if i == 5 then 0xfb else if i == 6 then 0xf2 else if i == 7 then 0xf5 else if i == 8 then 0xd8 else if i == 9 then 0xdf else
    if i == 10 then 0xd6 else if i == 11 then 0xd1 else if i == 12 then 0xc4 else if i == 13 then 0xc3 else if i == 14 then 0xca else 0xcd
  }

  function OtpRow3(i: bv8): bv8 {
    if i == 0 then 0x90 else if i == 1 then 0x97 else if i == 2 then 0x9e else if i == 3 then 0x99 else if i == 4 then 0x8c else
    if i == 5 then 0x8b else if i == 6 then 0x82 else if i == 7 then 0x85 else if i == 8 then 0xa8 else if i == 9 then 0xaf else
    if i == 10 then 0xa6 else if i == 11 then 0xa1 else if i == 12 then 0xb4 else if i == 13 then 0xb3 else if i == 14 then 0xba else 0xbd
  }

  function OtpRow4(i: bv8): bv8 {
    if i == 0 then 0xc7 else if i == 1 then 0xc0 else if i == 2 then 0xc9 else if i == 3 then 0xce else if i == 4 then 0xdb else
    if i == 5 then 0xdc else if i == 6 then 0xd5 else if i == 7 then 0xd2 else if i == 8 then 0xff else if i == 9 then 0xf8 else
    if i == 10 then 0xf1 else if i == 11 then 0xf6 else if i == 12 then 0xe3 else if i == 13 then 0xe4 else if i == 14 then 0xed else 0xea
  }

  function OtpRow5(i: bv8): bv8 {
    if i == 0 then 0xb7 else if i == 1 then 0xb0 else if i == 2 then 0xb9 else if i == 3 then 0xbe else if i == 4 then 0xab else
    if i == 5 then 0xac else if i == 6 then 0xa5 else if i == 7 then 0xa2 else if i == 8 then 0x8f else if i == 9 then 0x88 else
    if i == 10 then 0x81 else if i == 11 then 0x86 else if i == 12 then 0x93 else if i == 13 then 0x94 else if i == 14 then 0x9d else 0x9a
  }

  function OtpRow6(i: bv8): bv8 {
    if i == 0 then 0x27 else if i == 1 then 0x20 else if i == 2 then 0x29 else if i == 3 then 0x2e else if i == 4 then 0x3b else
    if i == 5 then 0x3c else if i == 6 then 0x35 else if i == 7 then 0x32 else if i == 8 then 0x1f else if i == 9 then 0x18 else
    if i == 10 then 0x11 else if i == 11 then 0x16 else if i == 12 then 0x03 else if i == 13 then 0x04 else if i == 14 then 0x0d else 0x0a
  }

  function OtpRow7(i: bv8): bv8 {
    if i == 0 then 0x57 else if i == 1 then 0x50 else if i == 2 then 0x59 else if i == 3 then 0x5e else if i == 4 then 0x4b else
    if i == 5 then 0x4c else if i == 6 then 0x45 else if i == 7 then 0x42 else if i == 8 then 0x6f else if i == 9 then 0x68 else
    if i == 10 then 0x61 else if i == 11 then 0x66 else if i == 12 then 0x73 else if i == 13 then 0x74 else if i == 14 then 0x7d else 0x7a
  }

  function OtpRow8(i: bv8): bv8 {
    if i == 0 then 0x89 else if i == 1 then 0x8e else if i == 2 then 0x87 else if i == 3 then 0x80 else if i == 4 then 0x95 else
    if i == 5 then 0x92 else if i == 6 then 0x9b else if i == 7 then 0x9c else if i == 8 then 0xb1 else if i == 9 then 0xb6 else
    if i == 10 then 0xbf else if i == 11 then 0xb8 else if i == 12 then 0xad else if i == 13 then 0xaa else if i == 14 then 0xa3 else 0xa4
  }

  function OtpRow9(i: bv8): bv8 {
    if i == 0 then 0xf9 else if i == 1 then 0xfe else if i == 2 then 0xf7 else if i == 3 then 0xf0 else if i == 4 then 0xe5 else
    if i == 5 then 0xe2 else if i == 6 then 0xeb else if i == 7 then 0xec else if i == 8 then 0xc1 else if i == 9 then 0xc6 else
    if i == 10 then 0xcf else if i == 11 then 0xc8 else if i == 12 then 0xdd else if i == 13 then 0xda else if i == 14 then 0xd3 else 0xd4
  }

  function OtpRowA(i: bv8): bv8 {
    if i == 0 then 0x69 else if i == 1 then 0x6e else if i == 2 then 0x67 else if i == 3 then 0x60 else if i == 4 then 0x75 else
    if i == 5 then 0x72 else if i == 6 then 0x7b else if i == 7 then 0x7c else if i == 8 then 0x51 else if i == 9 then 0x56 else
    if i == 10 then 0x5f else if i == 11 then 0x58 else if i == 12 then 0x4d else if i == 13 then 0x4a else if i == 14 then 0x43 else 0x44
  }

  function OtpRowB(i: bv8): bv8 {
    if i == 0 then 0x19 else if i == 1 then 0x1e else if i == 2 then 0x17 else if i == 3 then 0x10 else if i == 4 then 0x05 else
    if i == 5 then 0x02 else if i == 6 then 0x0b else if i == 7 then 0x0c else if i == 8 then 0x21 else if i == 9 then 0x26 else
    if i == 10 then 0x2f else if i == 11 then 0x28 else if i == 12 then 0x3d else if i == 13 then 0x3a else if i == 14 then 0x33 else 0x34
  }

  function OtpRowC(i: bv8): bv8 {
    if i == 0 then 0x4e else if i == 1 then 0x49 else if i == 2 then 0x40 else if i == 3 then 0x47 else if i == 4 then 0x52 else
    if i == 5 then 0x55 else if i == 6 then 0x5c else if i == 7 then 0x5b else if i == 8 then 0x76 else if i == 9 then 0x71 else
    if i == 10 then 0x78 else if i == 11 then 0x7f else if i == 12 then 0x6a else if i == 13 then 0x6d else if i == 14 then 0x64 else 0x63
  }

  function OtpRowD(i: bv8): bv8 {
    if i == 0 then 0x3e else if i == 1 then 0x39 else if i == 2 then 0x30 else if i == 3 then 0x37 else if i == 4 then 0x22 else
    if i == 5 then 0x25 else if i == 6 then 0x2c else if i == 7 then 0x2b else if i == 8 then 0x06 else if i == 9 then 0x01 else
    if i == 10 then 0x08 else if i == 11 then 0x0f else if i == 12 then 0x1a else if i == 13 then 0x1d else if i == 14 then 0x14 else 0x13
  }

  function OtpRowE(i: bv8): bv8 {
    if i == 0 then 0xae else if i == 1 then 0xa9 else if i == 2 then 0xa0 else if i == 3 then 0xa7 else if i == 4 then 0xb2 else
    if i == 5 then 0xb5 else if i == 6 then 0xbc else if i == 7 then 0xbb else if i == 8 then 0x96 else if i == 9 then 0x91 else
    if i == 10 then 0x98 else if i == 11 then 0x9f else if i == 12 then 0x8a else if i == 13 then 0x8d else if i == 14 then 0x84 else 0x83
  }

  function OtpRowF(i: bv8): bv8 {
    if i == 0 then 0xde else if i == 1 then 0xd9 else if i == 2 then 0xd0 else if i == 3 then 0xd7 else if i == 4 then 0xc2 else
    if i == 5 then 0xc5 else if i == 6 then 0xcc else if i == 7 then 0xcb else if i == 8 then 0xe6 else if i == 9 then 0xe1 else
    if i == 10 then 0xe8 else if i == 11 then 0xef else if i == 12 then 0xfa else if i == 13 then 0xfd else if i == 14 then 0xf4 else 0xf3
  }

  function HashTable(index: bv8): bv8 {
    var h, i := index >> 4, index & 0x0F;
    if h == 0 then OtpRow0(i) else if h == 1 then OtpRow1(i) else if h == 2 then OtpRow2(i) else if h == 3 then OtpRow3(i) else
    if h == 4 then OtpRow4(i) else if h == 5 then OtpRow5(i) else if h == 6 then OtpRow6(i) else if h == 7 then OtpRow7(i) else
    if h == 8 then OtpRow8(i) else if h == 9 then OtpRow9(i) else if h == 10 then OtpRowA(i) else if h == 11 then OtpRowB(i) else
    if h == 12 then OtpRowC(i) else if h == 13 then OtpRowD(i) else if h == 14 then OtpRowE(i) else OtpRowF(i)
  }

  lemma OtpRow0Correct(i: bv8)
    requires i < 16
    ensures OtpRow0(i) == HashByte(i)
  {
  }

  lemma OtpRow1Correct(i: bv8)
    requires i < 16
    ensures OtpRow1(i) == HashByte(i | 0x10)
  {
  }

  lemma OtpRow2Correct(i: bv8)
    requires i < 16
    ensures OtpRow2(i) == HashByte(i | 0x20)
  {
  }

  lemma OtpRow3Correct(i: bv8)
    requires i < 16
    ensures OtpRow3(i) == HashByte(i | 0x30)
  {
  }

  lemma OtpRow4Correct(i: bv8)
    requires i < 16
    ensures OtpRow4(i) == HashByte(i | 0x40)
  {
  }

  lemma OtpRow5Correct(i: bv8)
    requires i < 16
    ensures OtpRow5(i) == HashByte(i | 0x50)
  {
  }

  lemma OtpRow6Correct(i: bv8)
    requires i < 16
    ensures OtpRow6(i) == HashByte(i | 0x60)
  {
  }

  lemma OtpRow7Correct(i: bv8)
    requires i < 16
    ensures OtpRow7(i) == HashByte(i | 0x70)
  {
  }

  lemma OtpRow8Correct(i: bv8)
    requires i < 16
    ensures OtpRow8(i) == HashByte(i | 0x80)
  {
  }

  lemma OtpRow9Correct(i: bv8)
    requires i < 16
    ensures OtpRow9(i) == HashByte(i | 0x90)
  {
  }

  lemma OtpRowACorrect(i: bv8)
    requires i < 16
    ensures OtpRowA(i) == HashByte(i | 0xA0)
  {
  }

  lemma OtpRowBCorrect(i: bv8)
    requires i < 16
    ensures OtpRowB(i) == HashByte(i | 0xB0)
  {
  }

  lemma OtpRowCCorrect(i: bv8)
    requires i < 16
    ensures OtpRowC(i) == HashByte(i | 0xC0)
  {
  }

  lemma OtpRowDCorrect(i: bv8)
    requires i < 16
    ensures OtpRowD(i) == HashByte(i | 0xD0)
  {
  }

  lemma OtpRowECorrect(i: bv8)
    requires i < 16
    ensures OtpRowE(i) == HashByte(i | 0xE0)
  {
  }

  lemma OtpRowFCorrect(i: bv8)
    requires i < 16
    ensures OtpRowF(i) == HashByte(i | 0xF0)
  {
  }

  lemma HashTableCorrect(index: bv8)
    ensures HashTable(index) == HashByte(index)
  {
    hide OtpRow0, OtpRow1, OtpRow2, OtpRow3, OtpRow4, OtpRow5, OtpRow6, OtpRow7, OtpRow8, OtpRow9, OtpRowA, OtpRowB, OtpRowC, OtpRowD, OtpRowE, OtpRowF, HashByte;
    var h, i := index >> 4, index & 0x0F;
    Nibbles(index);
    if h == 0 { OtpRow0Correct(i); }
    else if h == 1 { OtpRow1Correct(i); }
    else if h == 2 { OtpRow2Correct(i); }
    else if h == 3 { OtpRow3Correct(i); }
    else if h == 4 { OtpRow4Correct(i); }
    else if h == 5 { OtpRow5Correct(i); }
    else if h == 6 { OtpRow6Correct(i); }
    else if h == 7 { OtpRow7Correct(i); }
    else if h == 8 { OtpRow8Correct(i); }
    else if h == 9 { OtpRow9Correct(i); }
    else if h == 10 { OtpRowACorrect(i); }
    else if h == 11 { OtpRowBCorrect(i); }
    else if h == 12 { OtpRowCCorrect(i); }
    else if h == 13 { OtpRowDCorrect(i); }
    else if h == 14 { OtpRowECorrect(i); }
    else { OtpRowFCorrect(i); }
  }

  function Mix(a: bv8, b: bv8): bv8 {
    a ^ b
  }

  /** The bit-serial hash of a byte string, before complement. */
  function SerialHash(data: seq<bv8>): bv8 {
    if data == [] then 0 else HashByte(Mix(SerialHash(data[..|data| - 1]), data[|data| - 1]))
  }

  /** What both programs accept: at least 27 bytes whose byte 25 is the
      complemented hash of all the others. */
  predicate OtpValid(otp: seq<bv8>) {
    |otp| >= 27 && otp[25] == !SerialHash(otp[..25] + otp[26..])
  }

  /** goodix_device_compute_otp_hash. */
  method ComputeOtpHash(data: seq<bv8>) returns (hash: bv8)
    ensures hash == !SerialHash(data)
  {
    var checksum: bv8 := 0;
    for i := 0 to |data|
      invariant checksum == SerialHash(data[..i])
    {
      assert data[..i + 1][..i] == data[..i];
      HashTableCorrect(checksum ^ data[i]);
      checksum := HashTable(checksum ^ data[i]);
    }
    assert data[..|data|] == data;
    hash := !checksum;
  }

  /** goodix_device_verify_otp: the table over a copy without byte 25. */
  method VerifyOtp(otp: seq<bv8>) returns (valid: bool)
    ensures valid <==> OtpValid(otp)
  {
    if |otp| < 27 { return false; }
    var hash := ComputeOtpHash(otp[..25] + otp[26..]);
    valid := otp[25] == hash;
  }

  /** otp_hash_step. */
  method HashStep(value: bv8) returns (hash: bv8)
    ensures hash == HashByte(value)
  {
    hash := value;
    for bit := 0 to 8
      invariant hash == HashTimes(value, bit)
    {
      hash := if hash & 0x80 != 0 then (hash << 1) ^ 0x07 else hash << 1;
    }
    EightHashes(value);
  }

  /** verify_otp of the detection tool: bit by bit, skipping byte 25. */
  method VerifyOtpSerially(otp: seq<bv8>) returns (valid: bool)
    ensures valid <==> OtpValid(otp)
  {
    hide HashByte, Mix;
    if |otp| < 27 { return false; }
    var checksum: bv8 := 0;
    for i := 0 to |otp|
      invariant checksum == SerialHash(WithoutHash(otp, i))
    {
      WithoutHashGrows(otp, i);
      if i != 25 {
        checksum := HashStep(Mix(checksum, otp[i]));
      }
    }
    assert WithoutHash(otp, |otp|) == otp[..25] + otp[26..];
    valid := otp[25] == !checksum;
  }

  /** The first n bytes with byte 25 left out. */
  function WithoutHash(otp: seq<bv8>, n: nat): seq<bv8>
    requires n <= |otp|
  {
    if n <= 25 then otp[..n] else otp[..25] + otp[26..n]
  }

  lemma WithoutHashGrows(otp: seq<bv8>, n: nat)
    requires n < |otp|
    ensures WithoutHash(otp, n + 1) == if n == 25 then WithoutHash(otp, n) else WithoutHash(otp, n) + [otp[n]]
    ensures n != 25 ==> SerialHash(WithoutHash(otp, n + 1)) == HashByte(Mix(SerialHash(WithoutHash(otp, n)), otp[n]))
  {
    if n != 25 {
      var before := WithoutHash(otp, n);
      assert WithoutHash(otp, n + 1) == before + [otp[n]];
      assert (before + [otp[n]])[..|before|] == before;
    }
  }

  function HashTimes(v: bv8, n: nat): bv8 {
    if n == 0 then v else HashBit(HashTimes(v, n - 1))
  }

  lemma EightHashes(v: bv8)
    ensures HashTimes(v, 8) == HashByte(v)
  {
    hide HashBit;
    assert HashTimes(v, 1) == HashBit(v);
    assert HashTimes(v, 2) == HashBit(HashBit(v));
    assert HashTimes(v, 4) == HashBit(HashBit(HashTimes(v, 2)));
    assert HashTimes(v, 6) == HashBit(HashBit(HashTimes(v, 4)));
    assert HashTimes(v, 8) == HashBit(HashBit(HashTimes(v, 6)));
  }
}
