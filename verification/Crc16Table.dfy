/** The checksum as it is computed: a byte at a time, through a table of 256 entries. */
module Crc16Table {
  import opened Crc16

  // The table of 256 entries, sixteen to a row.
  const ROW_0: seq<bv16> := [
    0x0000, 0x1021, 0x2042, 0x3063, 0x4084, 0x50a5, 0x60c6, 0x70e7,
    0x8108, 0x9129, 0xa14a, 0xb16b, 0xc18c, 0xd1ad, 0xe1ce, 0xf1ef]
  const ROW_1: seq<bv16> := [
    0x1231, 0x0210, 0x3273, 0x2252, 0x52b5, 0x4294, 0x72f7, 0x62d6,
    0x9339, 0x8318, 0xb37b, 0xa35a, 0xd3bd, 0xc39c, 0xf3ff, 0xe3de]
  const ROW_2: seq<bv16> := [
    0x2462, 0x3443, 0x0420, 0x1401, 0x64e6, 0x74c7, 0x44a4, 0x5485,
    0xa56a, 0xb54b, 0x8528, 0x9509, 0xe5ee, 0xf5cf, 0xc5ac, 0xd58d]
  const ROW_3: seq<bv16> := [
    0x3653, 0x2672, 0x1611, 0x0630, 0x76d7, 0x66f6, 0x5695, 0x46b4,
    0xb75b, 0xa77a, 0x9719, 0x8738, 0xf7df, 0xe7fe, 0xd79d, 0xc7bc]
  const ROW_4: seq<bv16> := [
    0x48c4, 0x58e5, 0x6886, 0x78a7, 0x0840, 0x1861, 0x2802, 0x3823,
    0xc9cc, 0xd9ed, 0xe98e, 0xf9af, 0x8948, 0x9969, 0xa90a, 0xb92b]
  const ROW_5: seq<bv16> := [
    0x5af5, 0x4ad4, 0x7ab7, 0x6a96, 0x1a71, 0x0a50, 0x3a33, 0x2a12,
    0xdbfd, 0xcbdc, 0xfbbf, 0xeb9e, 0x9b79, 0x8b58, 0xbb3b, 0xab1a]
  const ROW_6: seq<bv16> := [
    0x6ca6, 0x7c87, 0x4ce4, 0x5cc5, 0x2c22, 0x3c03, 0x0c60, 0x1c41,
    0xedae, 0xfd8f, 0xcdec, 0xddcd, 0xad2a, 0xbd0b, 0x8d68, 0x9d49]
  const ROW_7: seq<bv16> := [
    0x7e97, 0x6eb6, 0x5ed5, 0x4ef4, 0x3e13, 0x2e32, 0x1e51, 0x0e70,
    0xff9f, 0xefbe, 0xdfdd, 0xcffc, 0xbf1b, 0xaf3a, 0x9f59, 0x8f78]
  const ROW_8: seq<bv16> := [
    0x9188, 0x81a9, 0xb1ca, 0xa1eb, 0xd10c, 0xc12d, 0xf14e, 0xe16f,
    0x1080, 0x00a1, 0x30c2, 0x20e3, 0x5004, 0x4025, 0x7046, 0x6067]
  const ROW_9: seq<bv16> := [
    0x83b9, 0x9398, 0xa3fb, 0xb3da, 0xc33d, 0xd31c, 0xe37f, 0xf35e,
    0x02b1, 0x1290, 0x22f3, 0x32d2, 0x4235, 0x5214, 0x6277, 0x7256]
  const ROW_A: seq<bv16> := [
    0xb5ea, 0xa5cb, 0x95a8, 0x8589, 0xf56e, 0xe54f, 0xd52c, 0xc50d,
    0x34e2, 0x24c3, 0x14a0, 0x0481, 0x7466, 0x6447, 0x5424, 0x4405]
  const ROW_B: seq<bv16> := [
    0xa7db, 0xb7fa, 0x8799, 0x97b8, 0xe75f, 0xf77e, 0xc71d, 0xd73c,
    0x26d3, 0x36f2, 0x0691, 0x16b0, 0x6657, 0x7676, 0x4615, 0x5634]
  const ROW_C: seq<bv16> := [
    0xd94c, 0xc96d, 0xf90e, 0xe92f, 0x99c8, 0x89e9, 0xb98a, 0xa9ab,
    0x5844, 0x4865, 0x7806, 0x6827, 0x18c0, 0x08e1, 0x3882, 0x28a3]
  const ROW_D: seq<bv16> := [
    0xcb7d, 0xdb5c, 0xeb3f, 0xfb1e, 0x8bf9, 0x9bd8, 0xabbb, 0xbb9a,
    0x4a75, 0x5a54, 0x6a37, 0x7a16, 0x0af1, 0x1ad0, 0x2ab3, 0x3a92]
  const ROW_E: seq<bv16> := [
    0xfd2e, 0xed0f, 0xdd6c, 0xcd4d, 0xbdaa, 0xad8b, 0x9de8, 0x8dc9,
    0x7c26, 0x6c07, 0x5c64, 0x4c45, 0x3ca2, 0x2c83, 0x1ce0, 0x0cc1]
  const ROW_F: seq<bv16> := [
    0xef1f, 0xff3e, 0xcf5d, 0xdf7c, 0xaf9b, 0xbfba, 0x8fd9, 0x9ff8,
    0x6e17, 0x7e36, 0x4e55, 0x5e74, 0x2e93, 0x3eb2, 0x0ed1, 0x1ef0]
  const ROWS: seq<seq<bv16>> := [
    ROW_0, ROW_1, ROW_2, ROW_3, ROW_4, ROW_5, ROW_6, ROW_7,
    ROW_8, ROW_9, ROW_A, ROW_B, ROW_C, ROW_D, ROW_E, ROW_F]

  lemma RowsShape()
    ensures |ROWS| == 16 && forall i :: 0 <= i < 16 ==> |ROWS[i]| == 16
  {
  }

  /** Entry i of the table. */
  function Tab(i: nat): bv16
    requires i < 256
  {
    RowsShape();
    ROWS[i / 16][i % 16]
  }

  /** The table entry for the next byte. Only the lower eight bits of a character take part, so it does not
      matter whether the character is signed. */
  function Index(c: bv16, b: bv16): bv16 { ((c >> 8) ^ b) & 0x00FF }

  lemma IndexSmall(c: bv16, b: bv16)
    ensures Index(c, b) < 256
  {
  }

  /** The register after one more byte, as it is computed through the table. */
  function TableFeed(c: bv16, b: Byte): bv16 {
    var i := Index(c, b as bv16);
    IndexSmall(c, b as bv16);
    TabInRange(i);
    Plus(c << 8, Tab(i as nat))
  }

  lemma TabInRange(i: bv16)
    requires i < 256
    ensures i as nat < 256
  {
  }

  /** The table saves the division of a byte. */
  lemma TableFeedIs(c: bv16, b: Byte)
    ensures TableFeed(c, b) == Feed(c, b)
  {
    hide Tab, Shift8, Plus, Index;
    var i := Index(c, b as bv16);
    IndexSmall(c, b as bv16);
    TabIsDivision(i);
    Split(c, b as bv16);
  }

  /** The checksum of a buffer. */
  method Checksum(buf: seq<Byte>) returns (crc: bv16)
    ensures crc == Crc(buf)
  {
    hide Feed, TableFeed;
    crc := 0;
    for counter := 0 to |buf|
      invariant crc == Crc(buf[..counter])
    {
      TableFeedIs(crc, buf[counter]);
      crc := TableFeed(crc, buf[counter]);
      assert buf[..counter + 1][..counter] == buf[..counter];
    }
    assert buf[..|buf|] == buf;
  }

  /** A step of the division is linear. */
  lemma ShiftLinear(c: bv16, d: bv16)
    ensures Shift(Plus(c, d)) == Plus(Shift(c), Shift(d))
  {
    hide Plus, Left, Carry;
    LeftLinear(c, d);
    CarryLinear(c, d);
    Regroup(Left(c), Left(d), Carry(c), Carry(d));
  }

  lemma LeftLinear(c: bv16, d: bv16)
    ensures Left(Plus(c, d)) == Plus(Left(c), Left(d))
  {
  }

  lemma CarryLinear(c: bv16, d: bv16)
    ensures Carry(Plus(c, d)) == Plus(Carry(c), Carry(d))
  {
    assert c & 0x8000 == 0 || c & 0x8000 == 0x8000;
    assert d & 0x8000 == 0 || d & 0x8000 == 0x8000;
    assert (c ^ d) & 0x8000 == (c & 0x8000) ^ (d & 0x8000);
  }

  lemma Regroup(a: bv16, b: bv16, c: bv16, d: bv16)
    ensures Plus(Plus(a, b), Plus(c, d)) == Plus(Plus(a, c), Plus(b, d))
  {
    hide Plus;
    PlusAssoc(a, b, Plus(c, d));
    PlusAssoc(b, c, d);
    PlusComm(b, c);
    PlusAssoc(c, b, d);
    PlusAssoc(a, c, Plus(b, d));
  }

  lemma PlusComm(a: bv16, b: bv16)
    ensures Plus(a, b) == Plus(b, a)
  {
  }

  lemma PlusAssoc(a: bv16, b: bv16, c: bv16)
    ensures Plus(Plus(a, b), c) == Plus(a, Plus(b, c))
  {
  }

  lemma Shift8Linear(c: bv16, d: bv16)
    ensures Shift8(Plus(c, d)) == Plus(Shift8(c), Shift8(d))
  {
    hide Shift, Plus;
    var c2, d2 := Shift(Shift(c)), Shift(Shift(d));
    var c4, d4 := Shift(Shift(c2)), Shift(Shift(d2));
    var c6, d6 := Shift(Shift(c4)), Shift(Shift(d4));
    ShiftLinear(c, d);
    ShiftLinear(Shift(c), Shift(d));
    ShiftLinear(c2, d2);
    ShiftLinear(Shift(c2), Shift(d2));
    ShiftLinear(c4, d4);
    ShiftLinear(Shift(c4), Shift(d4));
    ShiftLinear(c6, d6);
    ShiftLinear(Shift(c6), Shift(d6));
  }

  /** The lower byte of the register is only moved up. */
  lemma LowerByte(c: bv16)
    ensures Shift8(c & 0x00FF) == c << 8
  {
  }

  lemma Halves(c: bv16, b: bv16)
    requires b < 256
    ensures Plus(c, b << 8) == Plus(c & 0x00FF, Index(c, b) << 8)
  {
  }

  /** Only the upper byte of the register takes part in the division of the next byte. */
  lemma Split(c: bv16, b: bv16)
    requires b < 256
    ensures Plus(c << 8, Shift8(Index(c, b) << 8)) == Shift8(Plus(c, b << 8))
  {
    hide Shift8, Plus, Index;
    Halves(c, b);
    LowerByte(c);
    Shift8Linear(c & 0x00FF, Index(c, b) << 8);
  }

  /** All 256 entries of the table are right. */
  lemma TabIsDivision(x: bv16)
    requires x < 256
    ensures x as nat < 256 && Tab(x as nat) == Shift8(x << 8)
  {
    hide Tab, Shift8;
    if x <= 0x0f {
      Row0(x);
    } else if x <= 0x1f {
      Row1(x);
    } else if x <= 0x2f {
      Row2(x);
    } else if x <= 0x3f {
      Row3(x);
    } else if x <= 0x4f {
      Row4(x);
    } else if x <= 0x5f {
      Row5(x);
    } else if x <= 0x6f {
      Row6(x);
    } else if x <= 0x7f {
      Row7(x);
    } else if x <= 0x8f {
      Row8(x);
    } else if x <= 0x9f {
      Row9(x);
    } else if x <= 0xaf {
      RowA(x);
    } else if x <= 0xbf {
      RowB(x);
    } else if x <= 0xcf {
      RowC(x);
    } else if x <= 0xdf {
      RowD(x);
    } else if x <= 0xef {
      RowE(x);
    } else if x <= 0xff {
      RowF(x);
    }
  }

  lemma Row0(x: bv16)
    requires 0x00 <= x <= 0x0f
    ensures x as nat < 256 && Tab(x as nat) == Shift8(x << 8)
  {
    assert x == 0x00 || x == 0x01 || x == 0x02 || x == 0x03 || x == 0x04 || x == 0x05 || x == 0x06 || x == 0x07
      || x == 0x08 || x == 0x09 || x == 0x0a || x == 0x0b || x == 0x0c || x == 0x0d || x == 0x0e || x == 0x0f;
  }

  lemma Row1(x: bv16)
    requires 0x10 <= x <= 0x1f
    ensures x as nat < 256 && Tab(x as nat) == Shift8(x << 8)
  {
    assert x == 0x10 || x == 0x11 || x == 0x12 || x == 0x13 || x == 0x14 || x == 0x15 || x == 0x16 || x == 0x17
      || x == 0x18 || x == 0x19 || x == 0x1a || x == 0x1b || x == 0x1c || x == 0x1d || x == 0x1e || x == 0x1f;
  }

  lemma Row2(x: bv16)
    requires 0x20 <= x <= 0x2f
    ensures x as nat < 256 && Tab(x as nat) == Shift8(x << 8)
  {
    assert x == 0x20 || x == 0x21 || x == 0x22 || x == 0x23 || x == 0x24 || x == 0x25 || x == 0x26 || x == 0x27
      || x == 0x28 || x == 0x29 || x == 0x2a || x == 0x2b || x == 0x2c || x == 0x2d || x == 0x2e || x == 0x2f;
  }

  lemma Row3(x: bv16)
    requires 0x30 <= x <= 0x3f
    ensures x as nat < 256 && Tab(x as nat) == Shift8(x << 8)
  {
    assert x == 0x30 || x == 0x31 || x == 0x32 || x == 0x33 || x == 0x34 || x == 0x35 || x == 0x36 || x == 0x37
      || x == 0x38 || x == 0x39 || x == 0x3a || x == 0x3b || x == 0x3c || x == 0x3d || x == 0x3e || x == 0x3f;
  }

  lemma Row4(x: bv16)
    requires 0x40 <= x <= 0x4f
    ensures x as nat < 256 && Tab(x as nat) == Shift8(x << 8)
  {
    assert x == 0x40 || x == 0x41 || x == 0x42 || x == 0x43 || x == 0x44 || x == 0x45 || x == 0x46 || x == 0x47
      || x == 0x48 || x == 0x49 || x == 0x4a || x == 0x4b || x == 0x4c || x == 0x4d || x == 0x4e || x == 0x4f;
  }

  lemma Row5(x: bv16)
    requires 0x50 <= x <= 0x5f
    ensures x as nat < 256 && Tab(x as nat) == Shift8(x << 8)
  {
    assert x == 0x50 || x == 0x51 || x == 0x52 || x == 0x53 || x == 0x54 || x == 0x55 || x == 0x56 || x == 0x57
      || x == 0x58 || x == 0x59 || x == 0x5a || x == 0x5b || x == 0x5c || x == 0x5d || x == 0x5e || x == 0x5f;
  }

  lemma Row6(x: bv16)
    requires 0x60 <= x <= 0x6f
    ensures x as nat < 256 && Tab(x as nat) == Shift8(x << 8)
  {
    assert x == 0x60 || x == 0x61 || x == 0x62 || x == 0x63 || x == 0x64 || x == 0x65 || x == 0x66 || x == 0x67
      || x == 0x68 || x == 0x69 || x == 0x6a || x == 0x6b || x == 0x6c || x == 0x6d || x == 0x6e || x == 0x6f;
  }

  lemma Row7(x: bv16)
    requires 0x70 <= x <= 0x7f
    ensures x as nat < 256 && Tab(x as nat) == Shift8(x << 8)
  {
    assert x == 0x70 || x == 0x71 || x == 0x72 || x == 0x73 || x == 0x74 || x == 0x75 || x == 0x76 || x == 0x77
      || x == 0x78 || x == 0x79 || x == 0x7a || x == 0x7b || x == 0x7c || x == 0x7d || x == 0x7e || x == 0x7f;
  }

  lemma Row8(x: bv16)
    requires 0x80 <= x <= 0x8f
    ensures x as nat < 256 && Tab(x as nat) == Shift8(x << 8)
  {
    assert x == 0x80 || x == 0x81 || x == 0x82 || x == 0x83 || x == 0x84 || x == 0x85 || x == 0x86 || x == 0x87
      || x == 0x88 || x == 0x89 || x == 0x8a || x == 0x8b || x == 0x8c || x == 0x8d || x == 0x8e || x == 0x8f;
  }

  lemma Row9(x: bv16)
    requires 0x90 <= x <= 0x9f
    ensures x as nat < 256 && Tab(x as nat) == Shift8(x << 8)
  {
    assert x == 0x90 || x == 0x91 || x == 0x92 || x == 0x93 || x == 0x94 || x == 0x95 || x == 0x96 || x == 0x97
      || x == 0x98 || x == 0x99 || x == 0x9a || x == 0x9b || x == 0x9c || x == 0x9d || x == 0x9e || x == 0x9f;
  }

  lemma RowA(x: bv16)
    requires 0xa0 <= x <= 0xaf
    ensures x as nat < 256 && Tab(x as nat) == Shift8(x << 8)
  {
    assert x == 0xa0 || x == 0xa1 || x == 0xa2 || x == 0xa3 || x == 0xa4 || x == 0xa5 || x == 0xa6 || x == 0xa7
      || x == 0xa8 || x == 0xa9 || x == 0xaa || x == 0xab || x == 0xac || x == 0xad || x == 0xae || x == 0xaf;
  }

  lemma RowB(x: bv16)
    requires 0xb0 <= x <= 0xbf
    ensures x as nat < 256 && Tab(x as nat) == Shift8(x << 8)
  {
    assert x == 0xb0 || x == 0xb1 || x == 0xb2 || x == 0xb3 || x == 0xb4 || x == 0xb5 || x == 0xb6 || x == 0xb7
      || x == 0xb8 || x == 0xb9 || x == 0xba || x == 0xbb || x == 0xbc || x == 0xbd || x == 0xbe || x == 0xbf;
  }

  lemma RowC(x: bv16)
    requires 0xc0 <= x <= 0xcf
    ensures x as nat < 256 && Tab(x as nat) == Shift8(x << 8)
  {
    assert x == 0xc0 || x == 0xc1 || x == 0xc2 || x == 0xc3 || x == 0xc4 || x == 0xc5 || x == 0xc6 || x == 0xc7
      || x == 0xc8 || x == 0xc9 || x == 0xca || x == 0xcb || x == 0xcc || x == 0xcd || x == 0xce || x == 0xcf;
  }

  lemma RowD(x: bv16)
    requires 0xd0 <= x <= 0xdf
    ensures x as nat < 256 && Tab(x as nat) == Shift8(x << 8)
  {
    assert x == 0xd0 || x == 0xd1 || x == 0xd2 || x == 0xd3 || x == 0xd4 || x == 0xd5 || x == 0xd6 || x == 0xd7
      || x == 0xd8 || x == 0xd9 || x == 0xda || x == 0xdb || x == 0xdc || x == 0xdd || x == 0xde || x == 0xdf;
  }

  lemma RowE(x: bv16)
    requires 0xe0 <= x <= 0xef
    ensures x as nat < 256 && Tab(x as nat) == Shift8(x << 8)
  {
    assert x == 0xe0 || x == 0xe1 || x == 0xe2 || x == 0xe3 || x == 0xe4 || x == 0xe5 || x == 0xe6 || x == 0xe7
      || x == 0xe8 || x == 0xe9 || x == 0xea || x == 0xeb || x == 0xec || x == 0xed || x == 0xee || x == 0xef;
  }

  lemma RowF(x: bv16)
    requires 0xf0 <= x <= 0xff
    ensures x as nat < 256 && Tab(x as nat) == Shift8(x << 8)
  {
    assert x == 0xf0 || x == 0xf1 || x == 0xf2 || x == 0xf3 || x == 0xf4 || x == 0xf5 || x == 0xf6 || x == 0xf7
      || x == 0xf8 || x == 0xf9 || x == 0xfa || x == 0xfb || x == 0xfc || x == 0xfd || x == 0xfe || x == 0xff;
  }
}
