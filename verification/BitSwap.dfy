/** The 256-entry table of src/bitswap.h, and what it holds: every byte with its bits reversed. */
module BitSwap {
  import opened Wire
  import opened Bits

  /** Entries 16h to 16h + 15. */
  function Row(h: nat): (r: seq<byte>)
    requires h < 16
    ensures |r| == 16
  {
    match h
    case 0 => [0x00, 0x80, 0x40, 0xc0, 0x20, 0xa0, 0x60, 0xe0, 0x10, 0x90, 0x50, 0xd0, 0x30, 0xb0, 0x70, 0xf0]
    case 1 => [0x08, 0x88, 0x48, 0xc8, 0x28, 0xa8, 0x68, 0xe8, 0x18, 0x98, 0x58, 0xd8, 0x38, 0xb8, 0x78, 0xf8]
    case 2 => [0x04, 0x84, 0x44, 0xc4, 0x24, 0xa4, 0x64, 0xe4, 0x14, 0x94, 0x54, 0xd4, 0x34, 0xb4, 0x74, 0xf4]
    case 3 => [0x0c, 0x8c, 0x4c, 0xcc, 0x2c, 0xac, 0x6c, 0xec, 0x1c, 0x9c, 0x5c, 0xdc, 0x3c, 0xbc, 0x7c, 0xfc]
    case 4 => [0x02, 0x82, 0x42, 0xc2, 0x22, 0xa2, 0x62, 0xe2, 0x12, 0x92, 0x52, 0xd2, 0x32, 0xb2, 0x72, 0xf2]
    case 5 => [0x0a, 0x8a, 0x4a, 0xca, 0x2a, 0xaa, 0x6a, 0xea, 0x1a, 0x9a, 0x5a, 0xda, 0x3a, 0xba, 0x7a, 0xfa]
    case 6 => [0x06, 0x86, 0x46, 0xc6, 0x26, 0xa6, 0x66, 0xe6, 0x16, 0x96, 0x56, 0xd6, 0x36, 0xb6, 0x76, 0xf6]
    case 7 => [0x0e, 0x8e, 0x4e, 0xce, 0x2e, 0xae, 0x6e, 0xee, 0x1e, 0x9e, 0x5e, 0xde, 0x3e, 0xbe, 0x7e, 0xfe]
    case 8 => [0x01, 0x81, 0x41, 0xc1, 0x21, 0xa1, 0x61, 0xe1, 0x11, 0x91, 0x51, 0xd1, 0x31, 0xb1, 0x71, 0xf1]
    case 9 => [0x09, 0x89, 0x49, 0xc9, 0x29, 0xa9, 0x69, 0xe9, 0x19, 0x99, 0x59, 0xd9, 0x39, 0xb9, 0x79, 0xf9]
    case 10 => [0x05, 0x85, 0x45, 0xc5, 0x25, 0xa5, 0x65, 0xe5, 0x15, 0x95, 0x55, 0xd5, 0x35, 0xb5, 0x75, 0xf5]
    case 11 => [0x0d, 0x8d, 0x4d, 0xcd, 0x2d, 0xad, 0x6d, 0xed, 0x1d, 0x9d, 0x5d, 0xdd, 0x3d, 0xbd, 0x7d, 0xfd]
    case 12 => [0x03, 0x83, 0x43, 0xc3, 0x23, 0xa3, 0x63, 0xe3, 0x13, 0x93, 0x53, 0xd3, 0x33, 0xb3, 0x73, 0xf3]
    case 13 => [0x0b, 0x8b, 0x4b, 0xcb, 0x2b, 0xab, 0x6b, 0xeb, 0x1b, 0x9b, 0x5b, 0xdb, 0x3b, 0xbb, 0x7b, 0xfb]
    case 14 => [0x07, 0x87, 0x47, 0xc7, 0x27, 0xa7, 0x67, 0xe7, 0x17, 0x97, 0x57, 0xd7, 0x37, 0xb7, 0x77, 0xf7]
    case _ => [0x0f, 0x8f, 0x4f, 0xcf, 0x2f, 0xaf, 0x6f, 0xef, 0x1f, 0x9f, 0x5f, 0xdf, 0x3f, 0xbf, 0x7f, 0xff]
  }

  /** bitswaptable[v] */
  function Swap(v: byte): byte {
    Row(v / 16)[v % 16]
  }

  /** A four-bit number reversed. */
  function Nibble(v: nat): nat
    requires v < 16
  {
    [0, 8, 4, 12, 2, 10, 6, 14, 1, 9, 5, 13, 3, 11, 7, 15][v]
  }

  lemma RowHeads(h: nat)
    requires h < 16
    ensures Row(h)[0] == Nibble(h)
  {
  }

  lemma FirstRow(l: nat)
    requires l < 16
    ensures Row(0)[l] == 16 * Nibble(l)
  {
  }

  lemma Rows0(h: nat, l: nat)
    requires h < 4 && l < 16
    ensures Row(h)[l] == Row(h)[0] + Row(0)[l]
  {
  }

  lemma Rows1(h: nat, l: nat)
    requires 4 <= h < 8 && l < 16
    ensures Row(h)[l] == Row(h)[0] + Row(0)[l]
  {
  }

  lemma Rows2(h: nat, l: nat)
    requires 8 <= h < 12 && l < 16
    ensures Row(h)[l] == Row(h)[0] + Row(0)[l]
  {
  }

  lemma Rows3(h: nat, l: nat)
    requires 12 <= h < 16 && l < 16
    ensures Row(h)[l] == Row(h)[0] + Row(0)[l]
  {
  }

  lemma FourBits(v: nat, a: nat, b: nat, c: nat, d: nat)
    requires a < 2 && b < 2 && c < 2 && d < 2 && v == a + 2 * b + 4 * c + 8 * d
    ensures Bit(v, 0) == (a == 1) && Bit(v, 1) == (b == 1) && Bit(v, 2) == (c == 1) && Bit(v, 3) == (d == 1)
  {
    var v1 := b + 2 * c + 4 * d;
    var v2 := c + 2 * d;
    assert v / 2 == v1 && v1 / 2 == v2 && v2 / 2 == d;
    assert Bit(v, 1) == Bit(v1, 0);
    assert Bit(v, 2) == Bit(v1, 1) == Bit(v2, 0);
    assert Bit(v, 3) == Bit(v1, 2) == Bit(v2, 1) == Bit(d, 0);
  }

  lemma NibbleDigits(v: nat, a: nat, b: nat, c: nat, d: nat)
    requires a < 2 && b < 2 && c < 2 && d < 2 && v == a + 2 * b + 4 * c + 8 * d
    ensures v < 16 && Nibble(v) == d + 2 * c + 4 * b + 8 * a
  {
  }

  lemma NibbleReverses(v: nat, i: nat)
    requires v < 16 && i < 4
    ensures Nibble(v) < 16 && Bit(Nibble(v), i) == Bit(v, 3 - i)
  {
    var a, b, c, d := v % 2, v / 2 % 2, v / 4 % 2, v / 8;
    NibbleDigits(v, a, b, c, d);
    FourBits(v, a, b, c, d);
    FourBits(Nibble(v), d, c, b, a);
  }

  /** The bits of `16 * h + l`. */
  lemma BitOfPair(h: nat, l: nat, i: nat)
    requires l < 16
    ensures Bit(16 * h + l, i) == if i < 4 then Bit(l, i) else Bit(h, i - 4)
  {
    var x := 16 * h + l;
    var x1, l1 := x / 2, l / 2;
    var x2, l2 := x1 / 2, l1 / 2;
    var x3, l3 := x2 / 2, l2 / 2;
    assert x1 == 8 * h + l1 && x2 == 4 * h + l2 && x3 == 2 * h + l3 && x3 / 2 == h;
    if i == 1 { assert Bit(x, 1) == Bit(x1, 0); }
    if i == 2 { assert Bit(x, 2) == Bit(x1, 1) == Bit(x2, 0); assert Bit(l, 2) == Bit(l1, 1) == Bit(l2, 0); }
    if i == 3 {
      assert Bit(x, 3) == Bit(x1, 2) == Bit(x2, 1) == Bit(x3, 0);
      assert Bit(l, 3) == Bit(l1, 2) == Bit(l2, 1) == Bit(l3, 0);
    }
    if i >= 4 { assert Bit(x, i) == Bit(x1, i - 1) == Bit(x2, i - 2) == Bit(x3, i - 3) == Bit(h, i - 4); }
  }

  lemma RowsOf(h: nat, l: nat)
    requires h < 16 && l < 16
    ensures Row(h)[l] == Row(h)[0] + Row(0)[l]
  {
    hide Row;
    if h < 4 { Rows0(h, l); } else if h < 8 { Rows1(h, l); } else if h < 12 { Rows2(h, l); } else { Rows3(h, l); }
  }

  lemma SwapIsPair(v: byte)
    ensures Swap(v) == 16 * Nibble(v % 16) + Nibble(v / 16)
  {
    hide Row, Nibble;
    RowHeads(v / 16);
    FirstRow(v % 16);
    RowsOf(v / 16, v % 16);
  }

  lemma NibbleEnds(v: nat, i: nat)
    requires v < 16 && i >= 4
    ensures Nibble(v) < 16 && !Bit(Nibble(v), i)
  {
    NibbleReverses(v, 0);
    hide Nibble;
    SmallPowers();
    HighBitsZero(Nibble(v), 4, i);
  }

  /** The table reverses every byte. */
  lemma SwapReverses(v: byte, i: nat)
    ensures Bit(Swap(v), i) == (i < 8 && Bit(v, 7 - i))
  {
    hide *;
    var h, l := v / 16, v % 16;
    SwapIsPair(v);
    NibbleEnds(h, 4);
    BitOfPair(Nibble(l), Nibble(h), i);
    if i < 4 {
      BitOfPair(h, l, 7 - i);
      NibbleReverses(h, i);
    } else if i < 8 {
      BitOfPair(h, l, 7 - i);
      NibbleReverses(l, i - 4);
    } else {
      NibbleEnds(l, i - 4);
    }
  }
}
