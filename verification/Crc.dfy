/** The checksum of runtime/c/map.c: a table-driven cyclic redundancy check with the generator of
    section 8.1.1.6.2 of ITU-T V.42, bit-reversed, preset to zero and without a complement. */
module Crc {

  /** A C string without its terminator.  `crc32` counts with 16 bits, so it returns for these
      lengths only. */
  type Text = s: seq<bv8> | |s| < 0x1_0000 && 0 !in s

  // the reference: one bit at a time

  const GENERATOR: bv32 := 0xedb88320

  /** One bit of polynomial division, low-order term in the high-order bit. */
  function Shift(x: bv32): bv32 {
    if x & 1 == 1 then (x >> 1) ^ GENERATOR else x >> 1
  }

  function Shift8(x: bv32): bv32 {
    Shift(Shift(Shift(Shift(Shift(Shift(Shift(Shift(x))))))))
  }

  /** `^`, which is addition of polynomials over two elements. */
  function Plus(x: bv32, y: bv32): bv32 {
    x ^ y
  }

  function Half(x: bv32): bv32 {
    x >> 1
  }

  /** The register takes in the `n` low-order bits of `b`, the lowest first. */
  function Feed(x: bv32, b: bv32, n: nat): bv32
    decreases n
  {
    if n == 0 then x else Feed(Shift(Plus(x, b & 1)), Half(b), n - 1)
  }

  /** The remainder of a message, bit by bit, with a zero preset. */
  function Remainder(s: seq<bv8>): bv32 {
    if s == [] then 0 else Feed(Remainder(s[..|s| - 1]), s[|s| - 1] as bv32, 8)
  }

  // the table

  const ROW_0: seq<bv32> := [
    0x00000000, 0x77073096, 0xee0e612c, 0x990951ba, 0x076dc419, 0x706af48f, 0xe963a535, 0x9e6495a3,
    0x0edb8832, 0x79dcb8a4, 0xe0d5e91e, 0x97d2d988, 0x09b64c2b, 0x7eb17cbd, 0xe7b82d07, 0x90bf1d91
  ]
  const ROW_1: seq<bv32> := [
    0x1db71064, 0x6ab020f2, 0xf3b97148, 0x84be41de, 0x1adad47d, 0x6ddde4eb, 0xf4d4b551, 0x83d385c7,
    0x136c9856, 0x646ba8c0, 0xfd62f97a, 0x8a65c9ec, 0x14015c4f, 0x63066cd9, 0xfa0f3d63, 0x8d080df5
  ]
  const ROW_2: seq<bv32> := [
    0x3b6e20c8, 0x4c69105e, 0xd56041e4, 0xa2677172, 0x3c03e4d1, 0x4b04d447, 0xd20d85fd, 0xa50ab56b,
    0x35b5a8fa, 0x42b2986c, 0xdbbbc9d6, 0xacbcf940, 0x32d86ce3, 0x45df5c75, 0xdcd60dcf, 0xabd13d59
  ]
  const ROW_3: seq<bv32> := [
    0x26d930ac, 0x51de003a, 0xc8d75180, 0xbfd06116, 0x21b4f4b5, 0x56b3c423, 0xcfba9599, 0xb8bda50f,
    0x2802b89e, 0x5f058808, 0xc60cd9b2, 0xb10be924, 0x2f6f7c87, 0x58684c11, 0xc1611dab, 0xb6662d3d
  ]
  const ROW_4: seq<bv32> := [
    0x76dc4190, 0x01db7106, 0x98d220bc, 0xefd5102a, 0x71b18589, 0x06b6b51f, 0x9fbfe4a5, 0xe8b8d433,
    0x7807c9a2, 0x0f00f934, 0x9609a88e, 0xe10e9818, 0x7f6a0dbb, 0x086d3d2d, 0x91646c97, 0xe6635c01
  ]
  const ROW_5: seq<bv32> := [
    0x6b6b51f4, 0x1c6c6162, 0x856530d8, 0xf262004e, 0x6c0695ed, 0x1b01a57b, 0x8208f4c1, 0xf50fc457,
    0x65b0d9c6, 0x12b7e950, 0x8bbeb8ea, 0xfcb9887c, 0x62dd1ddf, 0x15da2d49, 0x8cd37cf3, 0xfbd44c65
  ]
  const ROW_6: seq<bv32> := [
    0x4db26158, 0x3ab551ce, 0xa3bc0074, 0xd4bb30e2, 0x4adfa541, 0x3dd895d7, 0xa4d1c46d, 0xd3d6f4fb,
    0x4369e96a, 0x346ed9fc, 0xad678846, 0xda60b8d0, 0x44042d73, 0x33031de5, 0xaa0a4c5f, 0xdd0d7cc9
  ]
  const ROW_7: seq<bv32> := [
    0x5005713c, 0x270241aa, 0xbe0b1010, 0xc90c2086, 0x5768b525, 0x206f85b3, 0xb966d409, 0xce61e49f,
    0x5edef90e, 0x29d9c998, 0xb0d09822, 0xc7d7a8b4, 0x59b33d17, 0x2eb40d81, 0xb7bd5c3b, 0xc0ba6cad
  ]
  const ROW_8: seq<bv32> := [
    0xedb88320, 0x9abfb3b6, 0x03b6e20c, 0x74b1d29a, 0xead54739, 0x9dd277af, 0x04db2615, 0x73dc1683,
    0xe3630b12, 0x94643b84, 0x0d6d6a3e, 0x7a6a5aa8, 0xe40ecf0b, 0x9309ff9d, 0x0a00ae27, 0x7d079eb1
  ]
  const ROW_9: seq<bv32> := [
    0xf00f9344, 0x8708a3d2, 0x1e01f268, 0x6906c2fe, 0xf762575d, 0x806567cb, 0x196c3671, 0x6e6b06e7,
    0xfed41b76, 0x89d32be0, 0x10da7a5a, 0x67dd4acc, 0xf9b9df6f, 0x8ebeeff9, 0x17b7be43, 0x60b08ed5
  ]
  const ROW_10: seq<bv32> := [
    0xd6d6a3e8, 0xa1d1937e, 0x38d8c2c4, 0x4fdff252, 0xd1bb67f1, 0xa6bc5767, 0x3fb506dd, 0x48b2364b,
    0xd80d2bda, 0xaf0a1b4c, 0x36034af6, 0x41047a60, 0xdf60efc3, 0xa867df55, 0x316e8eef, 0x4669be79
  ]
  const ROW_11: seq<bv32> := [
    0xcb61b38c, 0xbc66831a, 0x256fd2a0, 0x5268e236, 0xcc0c7795, 0xbb0b4703, 0x220216b9, 0x5505262f,
    0xc5ba3bbe, 0xb2bd0b28, 0x2bb45a92, 0x5cb36a04, 0xc2d7ffa7, 0xb5d0cf31, 0x2cd99e8b, 0x5bdeae1d
  ]
  const ROW_12: seq<bv32> := [
    0x9b64c2b0, 0xec63f226, 0x756aa39c, 0x026d930a, 0x9c0906a9, 0xeb0e363f, 0x72076785, 0x05005713,
    0x95bf4a82, 0xe2b87a14, 0x7bb12bae, 0x0cb61b38, 0x92d28e9b, 0xe5d5be0d, 0x7cdcefb7, 0x0bdbdf21
  ]
  const ROW_13: seq<bv32> := [
    0x86d3d2d4, 0xf1d4e242, 0x68ddb3f8, 0x1fda836e, 0x81be16cd, 0xf6b9265b, 0x6fb077e1, 0x18b74777,
    0x88085ae6, 0xff0f6a70, 0x66063bca, 0x11010b5c, 0x8f659eff, 0xf862ae69, 0x616bffd3, 0x166ccf45
  ]
  const ROW_14: seq<bv32> := [
    0xa00ae278, 0xd70dd2ee, 0x4e048354, 0x3903b3c2, 0xa7672661, 0xd06016f7, 0x4969474d, 0x3e6e77db,
    0xaed16a4a, 0xd9d65adc, 0x40df0b66, 0x37d83bf0, 0xa9bcae53, 0xdebb9ec5, 0x47b2cf7f, 0x30b5ffe9
  ]
  const ROW_15: seq<bv32> := [
    0xbdbdf21c, 0xcabac28a, 0x53b39330, 0x24b4a3a6, 0xbad03605, 0xcdd70693, 0x54de5729, 0x23d967bf,
    0xb3667a2e, 0xc4614ab8, 0x5d681b02, 0x2a6f2b94, 0xb40bbe37, 0xc30c8ea1, 0x5a05df1b, 0x2d02ef8d
  ]

  const ROWS: seq<seq<bv32>> := [
    ROW_0, ROW_1, ROW_2, ROW_3, ROW_4, ROW_5, ROW_6, ROW_7,
    ROW_8, ROW_9, ROW_10, ROW_11, ROW_12, ROW_13, ROW_14, ROW_15
  ]

  function Flatten(rows: seq<seq<bv32>>): seq<bv32> {
    if rows == [] then [] else rows[0] + Flatten(rows[1..])
  }

  /** `crc32_tab`. */
  const CRC_TABLE: seq<bv32> := Flatten(ROWS)

  lemma {:induction false} FlattenAt(rows: seq<seq<bv32>>, r: nat, c: nat)
    requires forall row :: row in rows ==> |row| == 16
    requires r < |rows| && c < 16
    ensures |Flatten(rows)| == 16 * |rows|
    ensures Flatten(rows)[16 * r + c] == rows[r][c]
  {
    assert |rows[0]| == 16;
    if |rows| > 1 {
      assert forall row :: row in rows[1..] ==> row in rows;
      FlattenAt(rows[1..], if r > 0 then r - 1 else 0, c);
    } else {
      assert Flatten(rows[1..]) == [];
    }
  }

  function Sixteen(x: bv32): seq<bv32> {
    [Shift8(x + 0), Shift8(x + 1), Shift8(x + 2), Shift8(x + 3),
     Shift8(x + 4), Shift8(x + 5), Shift8(x + 6), Shift8(x + 7),
     Shift8(x + 8), Shift8(x + 9), Shift8(x + 10), Shift8(x + 11),
     Shift8(x + 12), Shift8(x + 13), Shift8(x + 14), Shift8(x + 15)]
  }

  lemma Row0()
    ensures ROW_0 == Sixteen(0x00)
  {
  }

  lemma Row1()
    ensures ROW_1 == Sixteen(0x10)
  {
  }

  lemma Row2()
    ensures ROW_2 == Sixteen(0x20)
  {
  }

  lemma Row3()
    ensures ROW_3 == Sixteen(0x30)
  {
  }

  lemma Row4()
    ensures ROW_4 == Sixteen(0x40)
  {
  }

  lemma Row5()
    ensures ROW_5 == Sixteen(0x50)
  {
  }

  lemma Row6()
    ensures ROW_6 == Sixteen(0x60)
  {
  }

  lemma Row7()
    ensures ROW_7 == Sixteen(0x70)
  {
  }

  lemma Row8()
    ensures ROW_8 == Sixteen(0x80)
  {
  }

  lemma Row9()
    ensures ROW_9 == Sixteen(0x90)
  {
  }

  lemma Row10()
    ensures ROW_10 == Sixteen(0xa0)
  {
  }

  lemma Row11()
    ensures ROW_11 == Sixteen(0xb0)
  {
  }

  lemma Row12()
    ensures ROW_12 == Sixteen(0xc0)
  {
  }

  lemma Row13()
    ensures ROW_13 == Sixteen(0xd0)
  {
  }

  lemma Row14()
    ensures ROW_14 == Sixteen(0xe0)
  {
  }

  lemma Row15()
    ensures ROW_15 == Sixteen(0xf0)
  {
  }

  /** Every row of the table is sixteen consecutive remainders. */
  lemma RowAt(r: bv32)
    requires r <= 15
    ensures |ROWS| == 16 && (r as nat) < 16 && ROWS[r as nat] == Sixteen(r << 4)
  {
    hide Sixteen;
    if r < 8 {
      if r < 4 {
        if r == 0 { Row0(); } else if r == 1 { Row1(); } else if r == 2 { Row2(); } else { Row3(); }
      } else {
        if r == 4 { Row4(); } else if r == 5 { Row5(); } else if r == 6 { Row6(); } else { Row7(); }
      }
    } else {
      if r < 12 {
        if r == 8 { Row8(); } else if r == 9 { Row9(); } else if r == 10 { Row10(); } else { Row11(); }
      } else {
        if r == 12 { Row12(); } else if r == 13 { Row13(); } else if r == 14 { Row14(); } else { Row15(); }
      }
    }
  }

  lemma SixteenAt(x: bv32, c: bv32)
    requires c <= 15
    ensures (c as nat) < 16 && Sixteen(x)[c as nat] == Shift8(x + c)
  {
    hide Shift8, Sixteen;
    if c < 4 {
      FirstFour(x, c);
    } else if c < 8 {
      NextFour(x, c);
    } else {
      LastEight(x, c);
    }
  }

  lemma FirstFour(x: bv32, c: bv32)
    requires c < 4
    ensures (c as nat) < 16 && Sixteen(x)[c as nat] == Shift8(x + c)
  {
    hide Shift8;
    if c == 0 {} else if c == 1 {} else if c == 2 {} else {}
  }

  lemma NextFour(x: bv32, c: bv32)
    requires 4 <= c <= 7
    ensures (c as nat) < 16 && Sixteen(x)[c as nat] == Shift8(x + c)
  {
    hide Shift8;
    if c == 4 {} else if c == 5 {} else if c == 6 {} else {}
  }

  lemma LastEight(x: bv32, c: bv32)
    requires 8 <= c <= 15
    ensures (c as nat) < 16 && Sixteen(x)[c as nat] == Shift8(x + c)
  {
    hide Shift8;
    if c < 12 {
      if c == 8 {} else if c == 9 {} else if c == 10 {} else {}
    } else {
      if c == 12 {} else if c == 13 {} else if c == 14 {} else {}
    }
  }

  lemma Nibbles(x: bv32)
    requires x <= 0xff
    ensures (x >> 4) <= 15 && (x & 0xf) <= 15 && (x >> 4 << 4) + (x & 0xf) == x
    ensures (x >> 4) as nat < 16 && (x & 0xf) as nat < 16
    ensures x as nat == 16 * ((x >> 4) as nat) + ((x & 0xf) as nat)
  {
  }

  /** Every entry of the table is eight shift/xor steps of its index. */
  lemma TableEntry(x: bv32)
    requires x <= 0xff
    ensures |CRC_TABLE| == 256 && x as nat < 256 && CRC_TABLE[x as nat] == Shift8(x)
  {
    TableIsFlat();
    hide *;
    Nibbles(x);
    RowAt(x >> 4);
    SixteenAt(x >> 4 << 4, x & 0xf);
    FlattenAt(ROWS, (x >> 4) as nat, (x & 0xf) as nat);
  }

  lemma TableIsFlat()
    ensures CRC_TABLE == Flatten(ROWS)
    ensures |ROWS| == 16 && forall row :: row in ROWS ==> |row| == 16
  {
    hide Flatten;
  }

  /** `crc32_tab[x & 0xff]`. */
  function Lookup(x: bv32): (entry: bv32)
    ensures entry == Shift8(x & 0xff)
  {
    ByteFits(x);
    TableEntry(x & 0xff);
    CRC_TABLE[(x & 0xff) as nat]
  }

  lemma ByteFits(x: bv32)
    ensures x & 0xff <= 0xff
  {
  }

  // eight bits at a time

  function High(x: bv32): bv32 {
    x >> 8
  }

  predicate Odd(x: bv32) {
    x & 1 == 1
  }

  lemma OddPlus(x: bv32, y: bv32)
    ensures Odd(Plus(x, y)) <==> Odd(x) != Odd(y)
  {
    assert (x ^ y) & 1 == (x & 1) ^ (y & 1);
    assert (x & 1 == 0 || x & 1 == 1) && (y & 1 == 0 || y & 1 == 1);
  }

  lemma HalfPlus(x: bv32, y: bv32)
    ensures Half(Plus(x, y)) == Plus(Half(x), Half(y))
  {
  }

  lemma ShiftIs(x: bv32)
    ensures Shift(x) == if Odd(x) then Plus(Half(x), GENERATOR) else Half(x)
  {
  }

  lemma PlusCommutative(x: bv32, y: bv32)
    ensures Plus(x, y) == Plus(y, x)
  {
  }

  lemma PlusTwice(x: bv32, y: bv32)
    ensures Plus(Plus(x, y), y) == x && Plus(x, 0) == x
  {
  }

  lemma PlusAssociative(x: bv32, y: bv32, z: bv32)
    ensures Plus(Plus(x, y), z) == Plus(x, Plus(y, z))
  {
  }

  lemma ShiftLinear(x: bv32, y: bv32)
    ensures Shift(Plus(x, y)) == Plus(Shift(x), Shift(y))
  {
    hide Shift, Plus, Odd, Half;
    var a, b, g := Half(x), Half(y), GENERATOR;
    OddPlus(x, y);
    HalfPlus(x, y);
    ShiftIs(x);
    ShiftIs(y);
    ShiftIs(Plus(x, y));
    PlusAssociative(a, g, b);
    PlusAssociative(a, b, g);
    PlusCommutative(g, b);
    PlusAssociative(Plus(a, g), b, g);
    PlusTwice(Plus(a, b), g);
  }

  function Shifts(x: bv32, n: nat): bv32
    decreases n
  {
    if n == 0 then x else Shifts(Shift(x), n - 1)
  }

  function Halves(x: bv32, n: nat): bv32
    decreases n
  {
    if n == 0 then x else Halves(Half(x), n - 1)
  }

  lemma EightShifts(x: bv32)
    ensures Shifts(x, 8) == Shift8(x)
  {
    hide Shift;
    var x2 := Shift(Shift(x));
    var x4 := Shift(Shift(x2));
    var x6 := Shift(Shift(x4));
    TwoShifts(x, 8);
    TwoShifts(x2, 6);
    TwoShifts(x4, 4);
    TwoShifts(x6, 2);
    assert Shifts(Shift(Shift(x6)), 0) == Shift(Shift(x6));
  }

  lemma TwoShifts(x: bv32, n: nat)
    requires n >= 2
    ensures Shifts(x, n) == Shifts(Shift(Shift(x)), n - 2)
    ensures Halves(x, n) == Halves(Half(Half(x)), n - 2)
  {
    hide Shift, Half;
    assert Shifts(x, n) == Shifts(Shift(x), n - 1);
    assert Halves(x, n) == Halves(Half(x), n - 1);
  }

  lemma {:induction false} ShiftsLinear(x: bv32, y: bv32, n: nat)
    ensures Shifts(Plus(x, y), n) == Plus(Shifts(x, n), Shifts(y, n))
    decreases n
  {
    hide Shift, Plus;
    if n > 0 {
      ShiftLinear(x, y);
      ShiftsLinear(Shift(x), Shift(y), n - 1);
    }
  }

  /** Adding bits and shifting takes them in one by one. */
  lemma {:induction false} ShiftsFeed(x: bv32, b: bv32, n: nat)
    ensures Shifts(Plus(x, b), n) == Plus(Feed(x, b, n), Halves(b, n))
    decreases n
  {
    hide Shift, Plus, Half;
    if n > 0 {
      FirstBit(x, b);
      ShiftsFeed(Shift(Plus(x, b & 1)), Half(b), n - 1);
    }
  }

  lemma FirstBit(x: bv32, b: bv32)
    ensures Shift(Plus(x, b)) == Plus(Shift(Plus(x, b & 1)), Half(b))
  {
    hide Shift, Plus, Half;
    SplitBit(b);
    PlusAssociative(x, b & 1, b & 0xfffffffe);
    ShiftLinear(Plus(x, b & 1), b & 0xfffffffe);
  }

  lemma SplitBit(b: bv32)
    ensures Plus(b & 1, b & 0xfffffffe) == b && Shift(b & 0xfffffffe) == Half(b)
  {
  }

  lemma OctetHalves(b: bv32)
    requires b <= 0xff
    ensures Halves(b, 8) == 0
  {
    EightHalved(b);
    hide Half;
    var b2 := Half(Half(b));
    var b4 := Half(Half(b2));
    var b6 := Half(Half(b4));
    TwoShifts(b, 8);
    TwoShifts(b2, 6);
    TwoShifts(b4, 4);
    TwoShifts(b6, 2);
    assert Halves(Half(Half(b6)), 0) == Half(Half(b6));
  }

  lemma EightHalved(b: bv32)
    requires b <= 0xff
    ensures Half(Half(Half(Half(Half(Half(Half(Half(b)))))))) == 0
  {
  }

  /** The high-order 24 bits only move. */
  lemma ShiftHigh(x: bv32)
    requires x & 0xff == 0
    ensures Shift8(x) == High(x)
  {
    FourHalves(x);
    hide Half, High, Shift;
    FourEven(x);
    FourEven(Half(Half(Half(Half(x)))));
  }

  /** Multiples of 16 are only halved by four shifts. */
  lemma FourEven(x: bv32)
    requires x & 0xf == 0
    ensures Shift(Shift(Shift(Shift(x)))) == Half(Half(Half(Half(x))))
  {
    EvenHalves(x);
    hide Half, Odd, Shift;
    ShiftIs(x);
    ShiftIs(Half(x));
    ShiftIs(Half(Half(x)));
    ShiftIs(Half(Half(Half(x))));
  }

  lemma EvenHalves(x: bv32)
    requires x & 0xf == 0
    ensures !Odd(x) && !Odd(Half(x)) && !Odd(Half(Half(x))) && !Odd(Half(Half(Half(x))))
  {
  }

  lemma FourHalves(x: bv32)
    requires x & 0xff == 0
    ensures x & 0xf == 0
    ensures var x4 := Half(Half(Half(Half(x)))); x4 & 0xf == 0 && Half(Half(Half(Half(x4)))) == High(x)
  {
  }

  lemma SplitWord(x: bv32)
    ensures Plus(x & 0xff, x & 0xffffff00) == x
    ensures (x & 0xffffff00) & 0xff == 0 && High(x & 0xffffff00) == High(x)
  {
  }

  /** One table step divides out eight bits. */
  lemma TableStep(x: bv32)
    ensures Plus(Lookup(x), High(x)) == Shifts(x, 8)
  {
    hide *;
    var low, high := x & 0xff, x & 0xffffff00;
    SplitWord(x);
    ShiftHigh(high);
    ShiftsLinear(low, high, 8);
    EightShifts(low);
    EightShifts(high);
  }

  /** One round of the loop of `crc32` takes in one byte. */
  lemma ByteStep(crc: bv32, b: bv8)
    ensures Plus(Lookup(Plus(crc, b as bv32)), High(crc)) == Feed(crc, b as bv32, 8)
  {
    hide *;
    var x := b as bv32;
    WideByte(b);
    HighBits(crc, x);
    TableStep(Plus(crc, x));
    ShiftsFeed(crc, x, 8);
    OctetHalves(x);
    PlusTwice(Feed(crc, x, 8), 0);
  }

  lemma WideByte(b: bv8)
    ensures b as bv32 <= 0xff
  {
  }

  lemma HighBits(x: bv32, b: bv32)
    requires b <= 0xff
    ensures High(Plus(x, b)) == High(x)
  {
  }

  /** `crc32`. */
  method Crc32(s: Text) returns (crc: bv32)
    ensures crc == Remainder(s)
  {
    hide Feed, Lookup, Plus, High;
    crc := 0;
    var i := 0;
    while i < |s|
      invariant 0 <= i <= |s| && crc == Remainder(s[..i])
    {
      assert s[..i + 1][..i] == s[..i];
      ByteStep(crc, s[i]);
      crc := Plus(Lookup(Plus(crc, s[i] as bv32)), High(crc));
      i := i + 1;
    }
    assert s[..i] == s;
  }
}
