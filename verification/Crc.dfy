/** The table-driven CRC-16 of src/common.c. */
module Crc {

  const CRC_INIT_VALUE: bv16 := 0xffff

  const POLYNOMIAL: bv16 := 0x1021

  function Xor(a: bv16, b: bv16): bv16 {
    a ^ b
  }

  predicate Leading(c: bv16) {
    c & 0x8000 != 0
  }

  function Double(c: bv16): bv16 {
    c << 1
  }

  /** One step of the division by x^16 + x^12 + x^5 + 1: the leading bit leaves the register. */
  function Shift(c: bv16): bv16 {
    if Leading(c) then Xor(Double(c), POLYNOMIAL) else Double(c)
  }

  function Shift8(c: bv16): bv16 {
    Shift(Shift(Shift(Shift(Shift(Shift(Shift(Shift(c))))))))
  }

  function TopBit(r: bv8): bv16 {
    if r & 0x80 != 0 then 0x8000 else 0
  }

  /** The byte in the top half of the register. */
  function Up(b: bv8): bv16 {
    (b as bv16) << 8
  }

  /** The reference: `n` message bits, taken from the top of `r`, divided in one at a time. */
  function DivideBits(c: bv16, r: bv8, n: nat): bv16
    decreases n
  {
    if n == 0 then c else DivideBits(Shift(Xor(c, TopBit(r))), r << 1, n - 1)
  }

  /** The remainder of a whole message. */
  function Divide(c: bv16, data: seq<bv8>): bv16 {
    if data == [] then c else DivideBits(Divide(c, data[..|data| - 1]), data[|data| - 1], 8)
  }

  /** crctable, entries 16h to 16h + 15. */
  function Row(h: bv8, l: bv8): bv16 {
    match h
    case 0 => (match l
      case 0 => 0x0000 case 1 => 0x1021 case 2 => 0x2042 case 3 => 0x3063 case 4 => 0x4084
      case 5 => 0x50a5 case 6 => 0x60c6 case 7 => 0x70e7
      case 8 => 0x8108 case 9 => 0x9129 case 10 => 0xa14a case 11 => 0xb16b case 12 => 0xc18c
      case 13 => 0xd1ad case 14 => 0xe1ce case _ => 0xf1ef)
    case 1 => (match l
      case 0 => 0x1231 case 1 => 0x0210 case 2 => 0x3273 case 3 => 0x2252 case 4 => 0x52b5
      case 5 => 0x4294 case 6 => 0x72f7 case 7 => 0x62d6
      case 8 => 0x9339 case 9 => 0x8318 case 10 => 0xb37b case 11 => 0xa35a case 12 => 0xd3bd
      case 13 => 0xc39c case 14 => 0xf3ff case _ => 0xe3de)
    case 2 => (match l
      case 0 => 0x2462 case 1 => 0x3443 case 2 => 0x0420 case 3 => 0x1401 case 4 => 0x64e6
      case 5 => 0x74c7 case 6 => 0x44a4 case 7 => 0x5485
      case 8 => 0xa56a case 9 => 0xb54b case 10 => 0x8528 case 11 => 0x9509 case 12 => 0xe5ee
      case 13 => 0xf5cf case 14 => 0xc5ac case _ => 0xd58d)
    case 3 => (match l
      case 0 => 0x3653 case 1 => 0x2672 case 2 => 0x1611 case 3 => 0x0630 case 4 => 0x76d7
      case 5 => 0x66f6 case 6 => 0x5695 case 7 => 0x46b4
      case 8 => 0xb75b case 9 => 0xa77a case 10 => 0x9719 case 11 => 0x8738 case 12 => 0xf7df
      case 13 => 0xe7fe case 14 => 0xd79d case _ => 0xc7bc)
    case 4 => (match l
      case 0 => 0x48c4 case 1 => 0x58e5 case 2 => 0x6886 case 3 => 0x78a7 case 4 => 0x0840
      case 5 => 0x1861 case 6 => 0x2802 case 7 => 0x3823
      case 8 => 0xc9cc case 9 => 0xd9ed case 10 => 0xe98e case 11 => 0xf9af case 12 => 0x8948
      case 13 => 0x9969 case 14 => 0xa90a case _ => 0xb92b)
    case 5 => (match l
      case 0 => 0x5af5 case 1 => 0x4ad4 case 2 => 0x7ab7 case 3 => 0x6a96 case 4 => 0x1a71
      case 5 => 0x0a50 case 6 => 0x3a33 case 7 => 0x2a12
      case 8 => 0xdbfd case 9 => 0xcbdc case 10 => 0xfbbf case 11 => 0xeb9e case 12 => 0x9b79
      case 13 => 0x8b58 case 14 => 0xbb3b case _ => 0xab1a)
    case 6 => (match l
      case 0 => 0x6ca6 case 1 => 0x7c87 case 2 => 0x4ce4 case 3 => 0x5cc5 case 4 => 0x2c22
      case 5 => 0x3c03 case 6 => 0x0c60 case 7 => 0x1c41
      case 8 => 0xedae case 9 => 0xfd8f case 10 => 0xcdec case 11 => 0xddcd case 12 => 0xad2a
      case 13 => 0xbd0b case 14 => 0x8d68 case _ => 0x9d49)
    case 7 => (match l
      case 0 => 0x7e97 case 1 => 0x6eb6 case 2 => 0x5ed5 case 3 => 0x4ef4 case 4 => 0x3e13
      case 5 => 0x2e32 case 6 => 0x1e51 case 7 => 0x0e70
      case 8 => 0xff9f case 9 => 0xefbe case 10 => 0xdfdd case 11 => 0xcffc case 12 => 0xbf1b
      case 13 => 0xaf3a case 14 => 0x9f59 case _ => 0x8f78)
    case 8 => (match l
      case 0 => 0x9188 case 1 => 0x81a9 case 2 => 0xb1ca case 3 => 0xa1eb case 4 => 0xd10c
      case 5 => 0xc12d case 6 => 0xf14e case 7 => 0xe16f
      case 8 => 0x1080 case 9 => 0x00a1 case 10 => 0x30c2 case 11 => 0x20e3 case 12 => 0x5004
      case 13 => 0x4025 case 14 => 0x7046 case _ => 0x6067)
    case 9 => (match l
      case 0 => 0x83b9 case 1 => 0x9398 case 2 => 0xa3fb case 3 => 0xb3da case 4 => 0xc33d
      case 5 => 0xd31c case 6 => 0xe37f case 7 => 0xf35e
      case 8 => 0x02b1 case 9 => 0x1290 case 10 => 0x22f3 case 11 => 0x32d2 case 12 => 0x4235
      case 13 => 0x5214 case 14 => 0x6277 case _ => 0x7256)
    case 10 => (match l
      case 0 => 0xb5ea case 1 => 0xa5cb case 2 => 0x95a8 case 3 => 0x8589 case 4 => 0xf56e
      case 5 => 0xe54f case 6 => 0xd52c case 7 => 0xc50d
      case 8 => 0x34e2 case 9 => 0x24c3 case 10 => 0x14a0 case 11 => 0x0481 case 12 => 0x7466
      case 13 => 0x6447 case 14 => 0x5424 case _ => 0x4405)
    case 11 => (match l
      case 0 => 0xa7db case 1 => 0xb7fa case 2 => 0x8799 case 3 => 0x97b8 case 4 => 0xe75f
      case 5 => 0xf77e case 6 => 0xc71d case 7 => 0xd73c
      case 8 => 0x26d3 case 9 => 0x36f2 case 10 => 0x0691 case 11 => 0x16b0 case 12 => 0x6657
      case 13 => 0x7676 case 14 => 0x4615 case _ => 0x5634)
    case 12 => (match l
      case 0 => 0xd94c case 1 => 0xc96d case 2 => 0xf90e case 3 => 0xe92f case 4 => 0x99c8
      case 5 => 0x89e9 case 6 => 0xb98a case 7 => 0xa9ab
      case 8 => 0x5844 case 9 => 0x4865 case 10 => 0x7806 case 11 => 0x6827 case 12 => 0x18c0
      case 13 => 0x08e1 case 14 => 0x3882 case _ => 0x28a3)
    case 13 => (match l
      case 0 => 0xcb7d case 1 => 0xdb5c case 2 => 0xeb3f case 3 => 0xfb1e case 4 => 0x8bf9
      case 5 => 0x9bd8 case 6 => 0xabbb case 7 => 0xbb9a
      case 8 => 0x4a75 case 9 => 0x5a54 case 10 => 0x6a37 case 11 => 0x7a16 case 12 => 0x0af1
      case 13 => 0x1ad0 case 14 => 0x2ab3 case _ => 0x3a92)
    case 14 => (match l
      case 0 => 0xfd2e case 1 => 0xed0f case 2 => 0xdd6c case 3 => 0xcd4d case 4 => 0xbdaa
      case 5 => 0xad8b case 6 => 0x9de8 case 7 => 0x8dc9
      case 8 => 0x7c26 case 9 => 0x6c07 case 10 => 0x5c64 case 11 => 0x4c45 case 12 => 0x3ca2
      case 13 => 0x2c83 case 14 => 0x1ce0 case _ => 0x0cc1)
    case _ => (match l
      case 0 => 0xef1f case 1 => 0xff3e case 2 => 0xcf5d case 3 => 0xdf7c case 4 => 0xaf9b
      case 5 => 0xbfba case 6 => 0x8fd9 case 7 => 0x9ff8
      case 8 => 0x6e17 case 9 => 0x7e36 case 10 => 0x4e55 case 11 => 0x5e74 case 12 => 0x2e93
      case 13 => 0x3eb2 case 14 => 0x0ed1 case _ => 0x1ef0)
  }

  /** crctable[i] */
  function Table(i: bv8): bv16 {
    Row(i >> 4, i & 15)
  }

  function HighByte(c: bv16): bv8 {
    (c >> 8) as bv8
  }

  /** `(crc << 8) ^ crctable[(crc >> 8) ^ b]` in unsigned short. */
  function ByteStep(c: bv16, b: bv8): bv16 {
    Xor(c << 8, Table(HighByte(c) ^ b))
  }

  function Crc(c: bv16, data: seq<bv8>): bv16 {
    if data == [] then c else ByteStep(Crc(c, data[..|data| - 1]), data[|data| - 1])
  }

  // ---- The table ----

  lemma Row1IsLinear(l: bv8) requires l < 16 ensures Row(1, l) == Xor(Row(1, 0), Row(0, l)) {}
  lemma Row2IsLinear(l: bv8) requires l < 16 ensures Row(2, l) == Xor(Row(2, 0), Row(0, l)) {}
  lemma Row3IsLinear(l: bv8) requires l < 16 ensures Row(3, l) == Xor(Row(3, 0), Row(0, l)) {}
  lemma Row4IsLinear(l: bv8) requires l < 16 ensures Row(4, l) == Xor(Row(4, 0), Row(0, l)) {}
  lemma Row5IsLinear(l: bv8) requires l < 16 ensures Row(5, l) == Xor(Row(5, 0), Row(0, l)) {}
  lemma Row6IsLinear(l: bv8) requires l < 16 ensures Row(6, l) == Xor(Row(6, 0), Row(0, l)) {}
  lemma Row7IsLinear(l: bv8) requires l < 16 ensures Row(7, l) == Xor(Row(7, 0), Row(0, l)) {}
  lemma Row8IsLinear(l: bv8) requires l < 16 ensures Row(8, l) == Xor(Row(8, 0), Row(0, l)) {}
  lemma Row9IsLinear(l: bv8) requires l < 16 ensures Row(9, l) == Xor(Row(9, 0), Row(0, l)) {}
  lemma Row10IsLinear(l: bv8) requires l < 16 ensures Row(10, l) == Xor(Row(10, 0), Row(0, l)) {}
  lemma Row11IsLinear(l: bv8) requires l < 16 ensures Row(11, l) == Xor(Row(11, 0), Row(0, l)) {}
  lemma Row12IsLinear(l: bv8) requires l < 16 ensures Row(12, l) == Xor(Row(12, 0), Row(0, l)) {}
  lemma Row13IsLinear(l: bv8) requires l < 16 ensures Row(13, l) == Xor(Row(13, 0), Row(0, l)) {}
  lemma Row14IsLinear(l: bv8) requires l < 16 ensures Row(14, l) == Xor(Row(14, 0), Row(0, l)) {}
  lemma Row15IsLinear(l: bv8) requires l < 16 ensures Row(15, l) == Xor(Row(15, 0), Row(0, l)) {}

  lemma RowsAreLinear(h: bv8, l: bv8)
    requires h < 16 && l < 16
    ensures Row(h, l) == Xor(Row(h, 0), Row(0, l))
  {
    hide Row;
    match h
    case 0 => FirstEntry();
    case 1 => Row1IsLinear(l);
    case 2 => Row2IsLinear(l);
    case 3 => Row3IsLinear(l);
    case 4 => Row4IsLinear(l);
    case 5 => Row5IsLinear(l);
    case 6 => Row6IsLinear(l);
    case 7 => Row7IsLinear(l);
    case 8 => Row8IsLinear(l);
    case 9 => Row9IsLinear(l);
    case 10 => Row10IsLinear(l);
    case 11 => Row11IsLinear(l);
    case 12 => Row12IsLinear(l);
    case 13 => Row13IsLinear(l);
    case 14 => Row14IsLinear(l);
    case _ => Row15IsLinear(l);
  }

  lemma FirstEntry()
    ensures Row(0, 0) == 0
  {
  }

  lemma RowHeads(h: bv8)
    requires h < 16
    ensures Row(h, 0) == Shift8(Up(h << 4))
  {
  }

  lemma FirstRow(l: bv8)
    requires l < 16
    ensures Row(0, l) == Shift8(Up(l))
  {
  }

  lemma DoubleOfXor(a: bv16, b: bv16)
    ensures Double(Xor(a, b)) == Xor(Double(a), Double(b))
  {
  }

  lemma LeadingOfXor(a: bv16, b: bv16)
    ensures Leading(Xor(a, b)) == (Leading(a) != Leading(b))
  {
  }

  lemma XorMoves(x: bv16, y: bv16, k: bv16)
    ensures Xor(Xor(x, k), y) == Xor(Xor(x, y), k) && Xor(x, Xor(y, k)) == Xor(Xor(x, y), k)
    ensures Xor(Xor(x, k), Xor(y, k)) == Xor(x, y)
  {
  }

  lemma ShiftIsLinear(a: bv16, b: bv16)
    ensures Shift(Xor(a, b)) == Xor(Shift(a), Shift(b))
  {
    hide Xor, Leading, Double;
    DoubleOfXor(a, b);
    LeadingOfXor(a, b);
    XorMoves(Double(a), Double(b), POLYNOMIAL);
  }

  lemma Shift8IsLinear(a: bv16, b: bv16)
    ensures Shift8(Xor(a, b)) == Xor(Shift8(a), Shift8(b))
  {
    hide Shift, Xor;
    var a1, b1 := Shift(a), Shift(b);
    var a2, b2 := Shift(a1), Shift(b1);
    var a3, b3 := Shift(a2), Shift(b2);
    var a4, b4 := Shift(a3), Shift(b3);
    var a5, b5 := Shift(a4), Shift(b4);
    var a6, b6 := Shift(a5), Shift(b5);
    var a7, b7 := Shift(a6), Shift(b6);
    ShiftIsLinear(a, b); ShiftIsLinear(a1, b1); ShiftIsLinear(a2, b2); ShiftIsLinear(a3, b3);
    ShiftIsLinear(a4, b4); ShiftIsLinear(a5, b5); ShiftIsLinear(a6, b6); ShiftIsLinear(a7, b7);
  }

  lemma SplitByte(i: bv8)
    ensures Up(i) == Xor(Up((i >> 4) << 4), Up(i & 15)) && i >> 4 < 16 && i & 15 < 16
  {
  }

  /** Every table entry is its index divided through. */
  lemma TableDivides(i: bv8)
    ensures Table(i) == Shift8(Up(i))
  {
    hide Row, Shift8, Xor, Up;
    SplitByte(i);
    RowsAreLinear(i >> 4, i & 15);
    RowHeads(i >> 4);
    FirstRow(i & 15);
    Shift8IsLinear(Up((i >> 4) << 4), Up(i & 15));
  }

  lemma LowByteShifts(a: bv16)
    ensures Shift8(a & 0xff) == a << 8
  {
  }

  lemma SplitRegister(c: bv16, b: bv8)
    ensures Xor(c, Up(b)) == Xor(c & 0xff, Up(HighByte(c) ^ b))
  {
  }

  /** One table step is eight single shifts of the register with the byte in its top half. */
  lemma ByteStepShifts(c: bv16, b: bv8)
    ensures ByteStep(c, b) == Shift8(Xor(c, Up(b)))
  {
    hide Table, Shift8, Xor, Up, HighByte;
    TableDivides(HighByte(c) ^ b);
    LowByteShifts(c);
    SplitRegister(c, b);
    Shift8IsLinear(c & 0xff, Up(HighByte(c) ^ b));
  }

  lemma XorRegroups(a: bv16, b: bv16, c: bv16)
    ensures Xor(Xor(a, b), c) == Xor(a, Xor(b, c)) && Xor(Xor(a, b), b) == a && Xor(a, 0) == a
  {
  }

  lemma BitAndRest(r: bv8)
    ensures Up(r) == Xor(TopBit(r), Up(r & 0x7f)) && Up(r & 0x7f) & 0x8000 == 0 && Up(r & 0x7f) << 1 == Up(r << 1)
  {
  }

  /** A waiting byte may be or-ed in at once or bit by bit. */
  lemma OneBitIn(c: bv16, r: bv8)
    ensures Shift(Xor(c, Up(r))) == Xor(Shift(Xor(c, TopBit(r))), Up(r << 1))
  {
    hide Xor, Up, TopBit;
    BitAndRest(r);
    XorRegroups(c, TopBit(r), Up(r & 0x7f));
    ShiftIsLinear(Xor(c, TopBit(r)), Up(r & 0x7f));
  }

  function ShiftBy(c: bv16, n: nat): bv16
    decreases n
  {
    if n == 0 then c else ShiftBy(Shift(c), n - 1)
  }

  function LeftBy(r: bv8, n: nat): bv8
    decreases n
  {
    if n == 0 then r else LeftBy(r << 1, n - 1)
  }

  lemma {:induction false} BitsInOneByOne(c: bv16, r: bv8, n: nat)
    ensures ShiftBy(Xor(c, Up(r)), n) == Xor(DivideBits(c, r, n), Up(LeftBy(r, n)))
    decreases n
  {
    hide Shift, Xor, Up, TopBit;
    if n > 0 {
      OneBitIn(c, r);
      BitsInOneByOne(Shift(Xor(c, TopBit(r))), r << 1, n - 1);
    }
  }

  lemma EightLefts(r: bv8)
    ensures Up(LeftBy(r, 8)) == 0
  {
  }

  lemma EightShifts(c: bv16)
    ensures ShiftBy(c, 8) == Shift8(c)
  {
    hide Shift;
  }

  /** One table step is eight steps of the bitwise division. */
  lemma ByteStepDivides(c: bv16, b: bv8)
    ensures ByteStep(c, b) == DivideBits(c, b, 8)
  {
    hide ByteStep, Shift8, DivideBits, ShiftBy, LeftBy, Xor, Up;
    ByteStepShifts(c, b);
    EightShifts(Xor(c, Up(b)));
    BitsInOneByOne(c, b, 8);
    EightLefts(b);
    XorRegroups(DivideBits(c, b, 8), 0, 0);
  }

  /** The table-driven checksum of any block is the bitwise remainder. */
  lemma {:induction false} CrcIsDivision(c: bv16, data: seq<bv8>)
    ensures Crc(c, data) == Divide(c, data)
    decreases |data|
  {
    hide ByteStep, DivideBits;
    if data != [] {
      CrcIsDivision(c, data[..|data| - 1]);
      ByteStepDivides(Divide(c, data[..|data| - 1]), data[|data| - 1]);
    }
  }

  /** CRC_Block */
  method CrcBlock(data: seq<bv8>) returns (crc: bv16)
    ensures crc == Divide(0xffff, data)
  {
    hide DivideBits, Xor, Table, HighByte;
    crc := CRC_INIT_VALUE;
    var i := 0;
    while i < |data|
      invariant i <= |data| && crc == Divide(CRC_INIT_VALUE, data[..i])
    {
      ByteStepDivides(crc, data[i]);
      assert data[..i + 1][..i] == data[..i];
      crc := Xor(crc << 8, Table(HighByte(crc) ^ data[i]));
      i := i + 1;
    }
    assert data[..i] == data;
  }

  // ---- Burst errors ----

  /** The inverse of a shift. */
  function Unshift(c: bv16): bv16 {
    if c & 1 != 0 then ((c ^ 0x1021) >> 1) | 0x8000 else c >> 1
  }

  function Unshift8(c: bv16): bv16 {
    Unshift(Unshift(Unshift(Unshift(Unshift(Unshift(Unshift(Unshift(c))))))))
  }

  lemma TopSetComesBack(c: bv16)
    requires c & 0x8000 != 0
    ensures ((c << 1) ^ 0x1021) & 1 != 0 && ((((c << 1) ^ 0x1021) ^ 0x1021) >> 1) | 0x8000 == c
  {
  }

  lemma TopClearComesBack(c: bv16)
    requires c & 0x8000 == 0
    ensures (c << 1) & 1 == 0 && (c << 1) >> 1 == c
  {
  }

  lemma LowSetComesBack(c: bv16)
    requires c & 1 != 0
    ensures var d := ((c ^ 0x1021) >> 1) | 0x8000; d & 0x8000 != 0 && (d << 1) ^ 0x1021 == c
  {
  }

  lemma LowClearComesBack(c: bv16)
    requires c & 1 == 0
    ensures (c >> 1) & 0x8000 == 0 && (c >> 1) << 1 == c
  {
  }

  lemma ShiftComesBack(c: bv16)
    ensures Unshift(Shift(c)) == c
  {
    if c & 0x8000 != 0 {
      TopSetComesBack(c);
      assert Shift(c) == (c << 1) ^ 0x1021;
    } else {
      TopClearComesBack(c);
      assert Shift(c) == c << 1;
    }
  }

  lemma UnshiftComesBack(c: bv16)
    ensures Shift(Unshift(c)) == c
  {
    if c & 1 != 0 {
      LowSetComesBack(c);
      assert Unshift(c) == ((c ^ 0x1021) >> 1) | 0x8000;
    } else {
      LowClearComesBack(c);
      assert Unshift(c) == c >> 1;
    }
  }

  lemma ShiftInverse(c: bv16)
    ensures Unshift(Shift(c)) == c && Shift(Unshift(c)) == c
  {
    hide Shift, Unshift;
    ShiftComesBack(c);
    UnshiftComesBack(c);
  }

  lemma Shift8Inverse(c: bv16)
    ensures Unshift8(Shift8(c)) == c && Shift8(Unshift8(c)) == c
  {
    hide Shift, Unshift;
    var c1 := Shift(c); var c2 := Shift(c1); var c3 := Shift(c2); var c4 := Shift(c3);
    var c5 := Shift(c4); var c6 := Shift(c5); var c7 := Shift(c6);
    ShiftInverse(c); ShiftInverse(c1); ShiftInverse(c2); ShiftInverse(c3);
    ShiftInverse(c4); ShiftInverse(c5); ShiftInverse(c6); ShiftInverse(c7);
    var d1 := Unshift(c); var d2 := Unshift(d1); var d3 := Unshift(d2); var d4 := Unshift(d3);
    var d5 := Unshift(d4); var d6 := Unshift(d5); var d7 := Unshift(d6);
    ShiftInverse(d1); ShiftInverse(d2); ShiftInverse(d3);
    ShiftInverse(d4); ShiftInverse(d5); ShiftInverse(d6); ShiftInverse(d7);
  }

  /** The register before a byte step, from the register after it. */
  function ByteUnstep(c: bv16, b: bv8): bv16 {
    Xor(Unshift8(c), Up(b))
  }

  /** For each byte the step is a bijection of the register. */
  lemma ByteStepBijective(c: bv16, b: bv8)
    ensures ByteUnstep(ByteStep(c, b), b) == c && ByteStep(ByteUnstep(c, b), b) == c
  {
    hide ByteStep, Shift8, Unshift8, Xor, Up;
    ByteStepShifts(c, b);
    Shift8Inverse(Xor(c, Up(b)));
    XorRegroups(c, Up(b), 0);
    ByteStepShifts(ByteUnstep(c, b), b);
    XorRegroups(Unshift8(c), Up(b), 0);
    Shift8Inverse(c);
  }

  lemma {:induction false} CrcConcat(c: bv16, a: seq<bv8>, b: seq<bv8>)
    ensures Crc(c, a + b) == Crc(Crc(c, a), b)
    decreases |b|
  {
    hide ByteStep;
    if b == [] {
      assert a + b == a;
    } else {
      assert (a + b)[..|a + b| - 1] == a + b[..|b| - 1];
      CrcConcat(c, a, b[..|b| - 1]);
    }
  }

  /** Different registers stay different over the same bytes. */
  lemma {:induction false} SameTailKeepsDifference(c: bv16, d: bv16, data: seq<bv8>)
    requires c != d
    ensures Crc(c, data) != Crc(d, data)
    decreases |data|
  {
    hide ByteStep, ByteUnstep;
    if data != [] {
      var (init, b) := (data[..|data| - 1], data[|data| - 1]);
      SameTailKeepsDifference(c, d, init);
      ByteStepBijective(Crc(c, init), b);
      ByteStepBijective(Crc(d, init), b);
    }
  }

  lemma ByteAlone(b: bv8)
    ensures (b as bv16) & 0xff == b as bv16 && (b as bv16) << 8 == Up(b)
  {
  }

  /** Two byte steps shift the register by sixteen with both bytes xor-ed into it. */
  lemma TwoByteSteps(c: bv16, b1: bv8, b2: bv8)
    ensures ByteStep(ByteStep(c, b1), b2) == Shift8(Shift8(Xor(Xor(c, Up(b1)), b2 as bv16)))
  {
    hide ByteStep, Shift8, Xor, Up;
    ByteStepShifts(c, b1);
    ByteStepShifts(ByteStep(c, b1), b2);
    Shift8IsLinear(Xor(c, Up(b1)), b2 as bv16);
    ByteAlone(b2);
    LowByteShifts(b2 as bv16);
  }

  lemma BothBytesMatter(c: bv16, b1: bv8, b2: bv8, d1: bv8, d2: bv8)
    requires Xor(Xor(c, Up(b1)), b2 as bv16) == Xor(Xor(c, Up(d1)), d2 as bv16)
    ensures b1 == d1 && b2 == d2
  {
  }

  lemma TwoByteStepsInjective(c: bv16, b1: bv8, b2: bv8, d1: bv8, d2: bv8)
    requires ByteStep(ByteStep(c, b1), b2) == ByteStep(ByteStep(c, d1), d2)
    ensures b1 == d1 && b2 == d2
  {
    hide ByteStep, Shift8, Unshift8, Xor, Up;
    TwoByteSteps(c, b1, b2);
    TwoByteSteps(c, d1, d2);
    var x, y := Xor(Xor(c, Up(b1)), b2 as bv16), Xor(Xor(c, Up(d1)), d2 as bv16);
    Shift8Inverse(Shift8(x));
    Shift8Inverse(Shift8(y));
    Shift8Inverse(x);
    Shift8Inverse(y);
    BothBytesMatter(c, b1, b2, d1, d2);
  }

  lemma CrcOfTwo(c: bv16, b1: bv8, b2: bv8)
    ensures Crc(c, [b1, b2]) == ByteStep(ByteStep(c, b1), b2)
  {
    hide ByteStep;
    var two, one := [b1, b2], [b1];
    assert two[..1] == one && one[..0] == [];
    assert Crc(c, one) == ByteStep(Crc(c, []), b1);
  }

  /** Two blocks of equal length that differ at most inside two adjacent bytes have the same
      checksum exactly when they are the same block. */
  lemma BurstDetected(x: seq<bv8>, y: seq<bv8>, k: nat)
    requires |x| == |y| && k + 2 <= |x|
    requires forall i | 0 <= i < |x| && i != k && i != k + 1 :: x[i] == y[i]
    ensures Divide(CRC_INIT_VALUE, x) == Divide(CRC_INIT_VALUE, y) <==> x == y
  {
    hide ByteStep, Crc, Divide;
    CrcIsDivision(CRC_INIT_VALUE, x);
    CrcIsDivision(CRC_INIT_VALUE, y);
    var head, tail := x[..k], x[k + 2..];
    var c := Crc(CRC_INIT_VALUE, head);
    BlockInThree(x, k);
    BlockInThree(y, k);
    assert y[..k] == head && y[k + 2..] == tail;
    var (s, t) := (ByteStep(ByteStep(c, x[k]), x[k + 1]), ByteStep(ByteStep(c, y[k]), y[k + 1]));
    if s == t {
      TwoByteStepsInjective(c, x[k], x[k + 1], y[k], y[k + 1]);
      assert x == y;
    } else {
      SameTailKeepsDifference(s, t, tail);
    }
  }

  lemma BlockInThree(x: seq<bv8>, k: nat)
    requires k + 2 <= |x|
    ensures Crc(CRC_INIT_VALUE, x)
            == Crc(ByteStep(ByteStep(Crc(CRC_INIT_VALUE, x[..k]), x[k]), x[k + 1]), x[k + 2..])
  {
    hide ByteStep, Crc;
    var c := Crc(CRC_INIT_VALUE, x[..k]);
    assert x == x[..k] + ([x[k], x[k + 1]] + x[k + 2..]);
    CrcConcat(CRC_INIT_VALUE, x[..k], [x[k], x[k + 1]] + x[k + 2..]);
    CrcConcat(c, [x[k], x[k + 1]], x[k + 2..]);
    CrcOfTwo(c, x[k], x[k + 1]);
  }
}
