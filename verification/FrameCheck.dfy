/** The frame check sequence of src/fcs.cc, the 16-bit CRC of RFC 1662 Appendix C.2.

    `Run` is the reference: it shifts the register one bit at a time.  `Fcs` and `CheckFcs` are the
    program's versions, which read a table a byte at a time.  Module Bursts says what the check
    is for: every burst error of up to 16 bits is caught, at any frame length. */
module FrameCheck {
  import opened Bytes
  import opened Folds

  const INITIAL: bv16 := 0xffff
  const GOOD: bv16 := 0xf0b8

  /** One clock of the shift register: the polynomial 0x8408 is fed back when a one falls out. */
  function Shift(s: bv16): bv16 {
    (s >> 1) ^ (0x8408 & (0 - (s & 1)))
  }

  function Shift2(s: bv16): bv16 {
    Shift(Shift(s))
  }

  function Shift4(s: bv16): bv16 {
    Shift2(Shift2(s))
  }

  function Shift8(s: bv16): bv16 {
    Shift4(Shift4(s))
  }

  function Xor(a: bv16, b: bv16): bv16 {
    a ^ b
  }

  function Update(crc: bv16, b: byte): bv16 {
    Shift8(Xor(crc, b as bv16))
  }

  /** The bit-by-bit CRC register after `data`. */
  function Run(crc: bv16, data: seq<byte>): bv16 {
    Fold(Update, crc, data)
  }

  /** The two check bytes that go behind `data`, low byte first. */
  function CheckBytes(data: seq<byte>): (byte, byte) {
    Octets(Run(INITIAL, data) ^ 0xffff)
  }

  function Octets(w: bv16): (byte, byte) {
    ((w & 0xff) as byte, (w >> 8) as byte)
  }

  predicate Accepts(frame: seq<byte>) {
    Run(INITIAL, frame) == GOOD
  }

  /** The check bytes of a frame as the integer that check_fcs reports on a little-endian host. */
  function Trailer(frame: seq<byte>): int
    requires |frame| >= 2
  {
    frame[|frame| - 1] as int * 256 + frame[|frame| - 2] as int
  }

  // ---------------------------------------------------------------------------------------------
  // The register is linear, and its upper octet falls through in eight clocks

  function Low(x: bv16): bv16 {
    x & 0xff
  }

  function High(x: bv16): bv16 {
    x >> 8
  }

  function Raised(x: bv16): bv16 {
    x << 8
  }

  lemma ShiftLinear(a: bv16, b: bv16)
    ensures Shift(Xor(a, b)) == Xor(Shift(a), Shift(b))
  {}

  lemma EightShifts(s: bv16)
    ensures Shift8(s) == Iterate(Shift, 8, s)
  {
    hide Shift;
    IterateEight(Shift, s);
  }

  lemma Shift8Linear(a: bv16, b: bv16)
    ensures Shift8(Xor(a, b)) == Xor(Shift8(a), Shift8(b))
  {
    hide Shift, Shift8, Xor;
    forall p: bv16, q: bv16 ensures Shift(Xor(p, q)) == Xor(Shift(p), Shift(q)) {
      ShiftLinear(p, q);
    }
    IterateLinear(Shift, Xor, 8, a, b);
    EightShifts(Xor(a, b));
    EightShifts(a);
    EightShifts(b);
  }

  lemma FallsThrough(x: bv16)
    requires x < 256
    ensures Shift8(Raised(x)) == x
  {}

  lemma Halves(x: bv16)
    ensures x == Xor(Raised(High(x)), Low(x)) && High(x) < 256
  {}

  lemma HighByte(x: bv16)
    ensures Shift8(x) == Xor(High(x), Shift8(Low(x)))
  {
    hide Shift8, Xor, Low, High, Raised;
    Halves(x);
    Shift8Linear(Raised(High(x)), Low(x));
    FallsThrough(High(x));
  }

  // The table, one row for each value of the high four bits.
  const ROW_0: seq<bv16> := [0x0000, 0x1189, 0x2312, 0x329b, 0x4624, 0x57ad, 0x6536, 0x74bf,
                                0x8c48, 0x9dc1, 0xaf5a, 0xbed3, 0xca6c, 0xdbe5, 0xe97e, 0xf8f7]
  const ROW_1: seq<bv16> := [0x1081, 0x0108, 0x3393, 0x221a, 0x56a5, 0x472c, 0x75b7, 0x643e,
                                0x9cc9, 0x8d40, 0xbfdb, 0xae52, 0xdaed, 0xcb64, 0xf9ff, 0xe876]
  const ROW_2: seq<bv16> := [0x2102, 0x308b, 0x0210, 0x1399, 0x6726, 0x76af, 0x4434, 0x55bd,
                                0xad4a, 0xbcc3, 0x8e58, 0x9fd1, 0xeb6e, 0xfae7, 0xc87c, 0xd9f5]
  const ROW_3: seq<bv16> := [0x3183, 0x200a, 0x1291, 0x0318, 0x77a7, 0x662e, 0x54b5, 0x453c,
                                0xbdcb, 0xac42, 0x9ed9, 0x8f50, 0xfbef, 0xea66, 0xd8fd, 0xc974]
  const ROW_4: seq<bv16> := [0x4204, 0x538d, 0x6116, 0x709f, 0x0420, 0x15a9, 0x2732, 0x36bb,
                                0xce4c, 0xdfc5, 0xed5e, 0xfcd7, 0x8868, 0x99e1, 0xab7a, 0xbaf3]
  const ROW_5: seq<bv16> := [0x5285, 0x430c, 0x7197, 0x601e, 0x14a1, 0x0528, 0x37b3, 0x263a,
                                0xdecd, 0xcf44, 0xfddf, 0xec56, 0x98e9, 0x8960, 0xbbfb, 0xaa72]
  const ROW_6: seq<bv16> := [0x6306, 0x728f, 0x4014, 0x519d, 0x2522, 0x34ab, 0x0630, 0x17b9,
                                0xef4e, 0xfec7, 0xcc5c, 0xddd5, 0xa96a, 0xb8e3, 0x8a78, 0x9bf1]
  const ROW_7: seq<bv16> := [0x7387, 0x620e, 0x5095, 0x411c, 0x35a3, 0x242a, 0x16b1, 0x0738,
                                0xffcf, 0xee46, 0xdcdd, 0xcd54, 0xb9eb, 0xa862, 0x9af9, 0x8b70]
  const ROW_8: seq<bv16> := [0x8408, 0x9581, 0xa71a, 0xb693, 0xc22c, 0xd3a5, 0xe13e, 0xf0b7,
                                0x0840, 0x19c9, 0x2b52, 0x3adb, 0x4e64, 0x5fed, 0x6d76, 0x7cff]
  const ROW_9: seq<bv16> := [0x9489, 0x8500, 0xb79b, 0xa612, 0xd2ad, 0xc324, 0xf1bf, 0xe036,
                                0x18c1, 0x0948, 0x3bd3, 0x2a5a, 0x5ee5, 0x4f6c, 0x7df7, 0x6c7e]
  const ROW_A: seq<bv16> := [0xa50a, 0xb483, 0x8618, 0x9791, 0xe32e, 0xf2a7, 0xc03c, 0xd1b5,
                                0x2942, 0x38cb, 0x0a50, 0x1bd9, 0x6f66, 0x7eef, 0x4c74, 0x5dfd]
  const ROW_B: seq<bv16> := [0xb58b, 0xa402, 0x9699, 0x8710, 0xf3af, 0xe226, 0xd0bd, 0xc134,
                                0x39c3, 0x284a, 0x1ad1, 0x0b58, 0x7fe7, 0x6e6e, 0x5cf5, 0x4d7c]
  const ROW_C: seq<bv16> := [0xc60c, 0xd785, 0xe51e, 0xf497, 0x8028, 0x91a1, 0xa33a, 0xb2b3,
                                0x4a44, 0x5bcd, 0x6956, 0x78df, 0x0c60, 0x1de9, 0x2f72, 0x3efb]
  const ROW_D: seq<bv16> := [0xd68d, 0xc704, 0xf59f, 0xe416, 0x90a9, 0x8120, 0xb3bb, 0xa232,
                                0x5ac5, 0x4b4c, 0x79d7, 0x685e, 0x1ce1, 0x0d68, 0x3ff3, 0x2e7a]
  const ROW_E: seq<bv16> := [0xe70e, 0xf687, 0xc41c, 0xd595, 0xa12a, 0xb0a3, 0x8238, 0x93b1,
                                0x6b46, 0x7acf, 0x4854, 0x59dd, 0x2d62, 0x3ceb, 0x0e70, 0x1ff9]
  const ROW_F: seq<bv16> := [0xf78f, 0xe606, 0xd49d, 0xc514, 0xb1ab, 0xa022, 0x92b9, 0x8330,
                                0x7bc7, 0x6a4e, 0x58d5, 0x495c, 0x3de3, 0x2c6a, 0x1ef1, 0x0f78]

  const FCSTAB: seq<seq<bv16>> :=
    [ROW_0, ROW_1, ROW_2, ROW_3, ROW_4, ROW_5, ROW_6, ROW_7,
     ROW_8, ROW_9, ROW_A, ROW_B, ROW_C, ROW_D, ROW_E, ROW_F]

  // ---------------------------------------------------------------------------------------------
  // The table: its first row and first column are the register's, and the rest are their sums

  /** The first row with c added to every entry. */
  function Plus(c: bv16): (row: seq<bv16>)
    ensures |row| == 16
  {
    [Xor(c, ROW_0[0]), Xor(c, ROW_0[1]), Xor(c, ROW_0[2]), Xor(c, ROW_0[3]),
     Xor(c, ROW_0[4]), Xor(c, ROW_0[5]), Xor(c, ROW_0[6]), Xor(c, ROW_0[7]),
     Xor(c, ROW_0[8]), Xor(c, ROW_0[9]), Xor(c, ROW_0[10]), Xor(c, ROW_0[11]),
     Xor(c, ROW_0[12]), Xor(c, ROW_0[13]), Xor(c, ROW_0[14]), Xor(c, ROW_0[15])]
  }

  lemma Sums()
    ensures ROW_0 == Plus(ROW_0[0]) && ROW_1 == Plus(ROW_1[0]) && ROW_2 == Plus(ROW_2[0]) && ROW_3 == Plus(ROW_3[0])
    ensures ROW_4 == Plus(ROW_4[0]) && ROW_5 == Plus(ROW_5[0]) && ROW_6 == Plus(ROW_6[0]) && ROW_7 == Plus(ROW_7[0])
    ensures ROW_8 == Plus(ROW_8[0]) && ROW_9 == Plus(ROW_9[0]) && ROW_A == Plus(ROW_A[0]) && ROW_B == Plus(ROW_B[0])
    ensures ROW_C == Plus(ROW_C[0]) && ROW_D == Plus(ROW_D[0]) && ROW_E == Plus(ROW_E[0]) && ROW_F == Plus(ROW_F[0])
  {}

  lemma RowIsSum(k: nat)
    requires k < 16
    ensures |FCSTAB[k]| == 16 && FCSTAB[k] == Plus(FCSTAB[k][0])
  {
    hide Plus;
    Sums();
    if k < 8 {
      if k == 0 { } else if k == 1 { } else if k == 2 { } else if k == 3 { }
      else if k == 4 { } else if k == 5 { } else if k == 6 { } else { assert k == 7; }
    } else {
      if k == 8 { } else if k == 9 { } else if k == 10 { } else if k == 11 { }
      else if k == 12 { } else if k == 13 { } else if k == 14 { } else { assert k == 15; }
    }
  }

  lemma FirstColumn(h: bv16)
    requires h < 16
    ensures (h as int) < 16 && |FCSTAB[h as int]| == 16 && FCSTAB[h as int][0] == Shift8(h << 4)
  {
    if h < 8 {
      if h == 0 { } else if h == 1 { } else if h == 2 { } else if h == 3 { }
      else if h == 4 { } else if h == 5 { } else if h == 6 { } else { assert h == 7; }
    } else {
      if h == 8 { } else if h == 9 { } else if h == 10 { } else if h == 11 { }
      else if h == 12 { } else if h == 13 { } else if h == 14 { } else { assert h == 15; }
    }
  }

  lemma FirstRow(j: bv16)
    requires j < 16
    ensures (j as int) < 16 && ROW_0[j as int] == Shift8(j)
  {
    if j < 8 {
      if j == 0 { } else if j == 1 { } else if j == 2 { } else if j == 3 { }
      else if j == 4 { } else if j == 5 { } else if j == 6 { } else { assert j == 7; }
    } else {
      if j == 8 { } else if j == 9 { } else if j == 10 { } else if j == 11 { }
      else if j == 12 { } else if j == 13 { } else if j == 14 { } else { assert j == 15; }
    }
  }

  lemma PlusAt(c: bv16, j: nat)
    requires j < 16
    ensures Plus(c)[j] == Xor(c, ROW_0[j])
  {
    hide Xor;
    if j < 8 {
      if j == 0 { } else if j == 1 { } else if j == 2 { } else if j == 3 { }
      else if j == 4 { } else if j == 5 { } else if j == 6 { } else { assert j == 7; }
    } else {
      if j == 8 { } else if j == 9 { } else if j == 10 { } else if j == 11 { }
      else if j == 12 { } else if j == 13 { } else if j == 14 { } else { assert j == 15; }
    }
  }

  lemma TableSum(h: bv16, j: bv16)
    requires h < 16 && j < 16
    ensures (h as int) < 16 && |FCSTAB[h as int]| == 16 && (j as int) < 16
    ensures FCSTAB[h as int][j as int] == Shift8(Xor(h << 4, j))
  {
    hide Shift8, Xor, Plus;
    FirstColumn(h);
    FirstRow(j);
    RowIsSum(h as int);
    Shift8Linear(h << 4, j);
    PlusAt(Shift8(h << 4), j as int);
  }

  lemma Digits(i: bv16)
    requires i < 256
    ensures i >> 4 < 16 && i & 15 < 16 && Xor((i >> 4) << 4, i & 15) == i
  {}

  /** Every entry of the table is eight clocks of the register. */
  lemma TableEntry(i: bv16)
    requires i < 256
    ensures |FCSTAB| == 16 && (i >> 4) as int < 16
    ensures |FCSTAB[(i >> 4) as int]| == 16 && (i & 15) as int < 16
    ensures FCSTAB[(i >> 4) as int][(i & 15) as int] == Shift8(i)
  {
    hide Shift8, Xor;
    Digits(i);
    TableSum(i >> 4, i & 15);
  }

  // ---------------------------------------------------------------------------------------------
  // The program

  lemma SameHighByte(crc: bv16, b: byte)
    ensures High(crc) == High(Xor(crc, b as bv16))
  {}

  /** The loop body of fcs: one octet by table. */
  method TableStep(crc: bv16, b: byte) returns (r: bv16)
    ensures r == Update(crc, b)
  {
    hide Shift8;
    SameHighByte(crc, b);
    var x := Xor(crc, b as bv16);
    var index := Low(x);
    LowBelow(x);
    TableEntry(index);
    HighByte(x);
    r := Xor(High(crc), FCSTAB[(index >> 4) as int][(index & 15) as int]);
  }

  lemma LowBelow(x: bv16)
    ensures Low(x) < 256
  {}

  /** The table-driven loop computes the bit-by-bit check bytes. */
  method Fcs(data: seq<byte>) returns (lo: byte, hi: byte)
    ensures (lo, hi) == CheckBytes(data)
  {
    var fcs := INITIAL;
    for i := 0 to |data|
      invariant fcs == Run(INITIAL, data[..i])
    {
      FoldSnoc(Update, INITIAL, data[..i], data[i]);
      assert data[..i + 1] == data[..i] + [data[i]];
      fcs := TableStep(fcs, data[i]);
    }
    assert data[..|data|] == data;
    fcs := fcs ^ 0xffff;
    lo, hi := (fcs & 0xff) as byte, (fcs >> 8) as byte;
  }

  /** The low check byte turns the low octet of the register into ones. */
  lemma FirstOctet(crc: bv16)
    ensures Xor(crc, Octets(crc ^ 0xffff).0 as bv16) == Xor(Raised(High(crc)), 0xff) && High(crc) < 256
  {}

  /** The high check byte cancels what the first octet has left of the register. */
  lemma SecondOctet(crc: bv16)
    ensures Xor(Xor(High(crc), 0x0f78), Octets(crc ^ 0xffff).1 as bv16) == 0x0f87
  {}

  lemma OnesRun()
    ensures Shift8(0xff) == 0x0f78 && Shift8(0x0f87) == 0xf0b8
  {}

  lemma OctetsAreGood(crc: bv16)
    ensures Update(Update(crc, Octets(crc ^ 0xffff).0), Octets(crc ^ 0xffff).1) == 0xf0b8
  {
    hide Shift8, Octets, Xor, High, Raised;
    OnesRun();
    FirstOctet(crc);
    Shift8Linear(Raised(High(crc)), 0xff);
    FallsThrough(High(crc));
    SecondOctet(crc);
  }

  lemma CheckBytesAccepted(data: seq<byte>)
    ensures Accepts(data + [CheckBytes(data).0, CheckBytes(data).1])
  {
    FoldTwo(Update, INITIAL, data, CheckBytes(data).0, CheckBytes(data).1);
    OctetsAreGood(Run(INITIAL, data));
  }

  // ---------------------------------------------------------------------------------------------
  // The register starts with ones

  /** Starting with ones comes to the same as starting with zeros and inverting the first two octets. */
  lemma OnesInvert(data: seq<byte>)
    requires |data| >= 2
    ensures CheckBytes(data) == Octets(Run(0, [data[0] ^ 0xff, data[1] ^ 0xff] + data[2..]) ^ 0xffff)
  {
    hide Run, Update, Octets, CheckBytes;
    assert data == [data[0], data[1]] + data[2..];
    TwoInverted(data[0], data[1]);
    SameFrom(data[0], data[1], data[0] ^ 0xff, data[1] ^ 0xff, data[2..]);
  }

  lemma SameFrom(a: byte, b: byte, c: byte, d: byte, rest: seq<byte>)
    requires Update(Update(0xffff, a), b) == Update(Update(0, c), d)
    ensures CheckBytes([a, b] + rest) == Octets(Run(0, [c, d] + rest) ^ 0xffff)
  {
    hide Run, Update, Octets;
    AfterTwo(INITIAL, a, b, rest);
    AfterTwo(0, c, d, rest);
  }

  lemma AfterTwo(r: bv16, a: byte, b: byte, rest: seq<byte>)
    ensures Run(r, [a, b] + rest) == Run(Update(Update(r, a), b), rest)
  {
    hide Update;
    FoldAppend(Update, r, [a, b], rest);
    FoldTwo(Update, r, [], a, b);
    assert [] + [a, b] == [a, b];
  }

  lemma TwoInverted(a: byte, b: byte)
    ensures Update(Update(0xffff, a), b) == Update(Update(0, a ^ 0xff), b ^ 0xff)
  {
    hide Shift8;
    InvertedOnes(a);
    Shift8Linear(Raised(0xff), Xor(0, (a ^ 0xff) as bv16));
    FallsThrough(0xff);
    InvertedNext(Shift8(Xor(0, (a ^ 0xff) as bv16)), b);
  }

  lemma InvertedOnes(a: byte)
    ensures Xor(0xffff, a as bv16) == Xor(Raised(0xff), Xor(0, (a ^ 0xff) as bv16))
  {}

  lemma InvertedNext(r: bv16, b: byte)
    ensures Xor(Xor(0xff, r), b as bv16) == Xor(r, (b ^ 0xff) as bv16)
  {}

  /** The check value of the CRC catalogue: 0x906e for the nine digits, low octet first. */
  lemma CheckValue()
    ensures CheckBytes([0x31, 0x32, 0x33, 0x34, 0x35, 0x36, 0x37, 0x38, 0x39]) == (0x6e, 0x90)
    ensures CheckBytes([]) == (0, 0)
  {
    var digits: seq<byte> := [0x31, 0x32, 0x33, 0x34, 0x35, 0x36, 0x37, 0x38, 0x39];
    assert digits == [0x31, 0x32, 0x33] + ([0x34, 0x35, 0x36] + [0x37, 0x38, 0x39]);
    FoldAppend(Update, INITIAL, [0x31, 0x32, 0x33], [0x34, 0x35, 0x36] + [0x37, 0x38, 0x39]);
    FoldAppend(Update, 0x634b, [0x34, 0x35, 0x36], [0x37, 0x38, 0x39]);
    hide Update;
    ThreeOctets(INITIAL, 0x31, 0x32, 0x33);
    ThreeOctets(0x634b, 0x34, 0x35, 0x36);
    ThreeOctets(0x198d, 0x37, 0x38, 0x39);
    NineOctets();
  }

  lemma ThreeOctets(r: bv16, a: byte, b: byte, c: byte)
    ensures Run(r, [a, b, c]) == Update(Update(Update(r, a), b), c)
  {
    hide Update;
    FoldTwo(Update, r, [a], b, c);
    FoldSnoc(Update, r, [], a);
    assert [a] + [b, c] == [a, b, c] && [] + [a] == [a];
  }

  lemma NineOctets()
    ensures Update(0xffff, 0x31) == 0x2f8d && Update(0x2f8d, 0x32) == 0x4d53 && Update(0x4d53, 0x33) == 0x634b
    ensures Update(0x634b, 0x34) == 0x8b13 && Update(0x8b13, 0x35) == 0x44bf && Update(0x44bf, 0x36) == 0x198d
    ensures Update(0x198d, 0x37) == 0x1ac8 && Update(0x1ac8, 0x38) == 0xf795 && Update(0xf795, 0x39) == 0x6f91
  {}
}
