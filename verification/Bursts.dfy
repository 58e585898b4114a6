/** What the frame check detects: the register of module FrameCheck, fed one transmitted bit at a time. */
module Bursts {
  import opened Bytes
  import opened Folds
  import opened FrameCheck

  function Bit(b: bool): bv16 {
    if b then 1 else 0
  }

  function BitStep(s: bv16, b: bool): bv16 {
    Shift(Xor(s, Bit(b)))
  }

  function RunBits(crc: bv16, bits: seq<bool>): bv16 {
    Fold(BitStep, crc, bits)
  }

  /** The bits of an octet in transmission order, low bit first. */
  function ByteBits(b: byte): (bits: seq<bool>)
    ensures |bits| == 8
  {
    [b & 1 != 0, b & 2 != 0, b & 4 != 0, b & 8 != 0, b & 16 != 0, b & 32 != 0, b & 64 != 0, b & 128 != 0]
  }

  function Bits(data: seq<byte>): (bits: seq<bool>)
    ensures |bits| == 8 * |data|
  {
    if data == [] then [] else ByteBits(data[0]) + Bits(data[1..])
  }

  // ---------------------------------------------------------------------------------------------
  // Up to sixteen bits act on the register as if they had been added to it beforehand

  function Doubled(x: bv16): bv16 {
    x << 1
  }

  function Cons(b: bool, x: bv16): bv16 {
    Xor(Bit(b), Doubled(x))
  }

  predicate Fits(x: bv16, n: nat) {
    n == 16 || (n < 16 && x < (1 << n))
  }

  function Pack(bits: seq<bool>): bv16 {
    FoldRight(Cons, 0, bits)
  }

  lemma DoubleBelow(b: bv16, x: bv16, n: nat)
    requires n < 15 && x < (1 << n) && b <= 1
    ensures Xor(b, Doubled(x)) < (1 << (n + 1))
  {}

  lemma FitsCons(b: bool, x: bv16, n: nat)
    requires n < 16 && Fits(x, n)
    ensures Fits(Cons(b, x), n + 1)
  {
    if n < 15 {
      DoubleBelow(Bit(b), x, n);
    }
  }

  lemma FitsBelow(x: bv16, n: nat)
    requires n < 16 && Fits(x, n)
    ensures x < 0x8000
  {
    assert (1 as bv16) << n <= 0x8000;
  }

  lemma XorAssociative(a: bv16, b: bv16, c: bv16)
    ensures Xor(a, Xor(b, c)) == Xor(Xor(a, b), c)
  {}

  lemma ShiftDoubled(x: bv16)
    requires x < 0x8000
    ensures Shift(Doubled(x)) == x
  {}

  lemma ShiftAdded(p: bv16, b: bool, x: bv16)
    requires x < 0x8000
    ensures Shift(Xor(p, Cons(b, x))) == Xor(BitStep(p, b), x)
  {
    hide Shift, Xor, Bit, Doubled;
    XorAssociative(p, Bit(b), Doubled(x));
    ShiftLinear(Xor(p, Bit(b)), Doubled(x));
    ShiftDoubled(x);
  }

  lemma ConsInjective(a: bool, x: bv16, b: bool, y: bv16, n: nat)
    requires n < 16 && Fits(x, n) && Fits(y, n) && Cons(a, x) == Cons(b, y)
    ensures a == b && x == y
  {
    FitsBelow(x, n);
    FitsBelow(y, n);
  }

  lemma ShiftInjective(a: bv16, b: bv16)
    requires Shift(a) == Shift(b)
    ensures a == b
  {}

  lemma RunBitsPacked(crc: bv16, bits: seq<bool>)
    requires |bits| <= 16
    ensures RunBits(crc, bits) == Iterate(Shift, |bits|, Xor(crc, Pack(bits)))
  {
    forall b, x, n: nat | n < 16 && Fits(x, n)
      ensures Fits(Cons(b, x), n + 1)
    {
      FitsCons(b, x, n);
    }
    forall p, b, x, n: nat | n < 16 && Fits(x, n)
      ensures Shift(Xor(p, Cons(b, x))) == Xor(BitStep(p, b), x)
    {
      FitsBelow(x, n);
      ShiftAdded(p, b, x);
    }
    FoldAddedInAdvance(BitStep, Shift, Xor, Cons, 0, Fits, crc, bits, 16);
  }

  lemma PackInjective(a: seq<bool>, b: seq<bool>)
    requires |a| == |b| <= 16 && Pack(a) == Pack(b)
    ensures a == b
  {
    forall b, x, n: nat | n < 16 && Fits(x, n)
      ensures Fits(Cons(b, x), n + 1)
    {
      FitsCons(b, x, n);
    }
    forall c, d, x, y, n: nat | n < 16 && Fits(x, n) && Fits(y, n) && Cons(c, x) == Cons(d, y)
      ensures c == d && x == y
    {
      ConsInjective(c, x, d, y, n);
    }
    FoldRightInjective(Cons, 0, Fits, a, b, 16);
  }

  lemma EightBits(b: byte)
    ensures Cons(b & 1 != 0, Cons(b & 2 != 0, Cons(b & 4 != 0, Cons(b & 8 != 0,
              Cons(b & 16 != 0, Cons(b & 32 != 0, Cons(b & 64 != 0, Cons(b & 128 != 0, 0)))))))) == b as bv16
  {}

  lemma PackByte(b: byte)
    ensures Pack(ByteBits(b)) == b as bv16
  {
    hide Cons;
    var c := ByteBits(b);
    FoldRightEight(Cons, 0, c[0], c[1], c[2], c[3], c[4], c[5], c[6], c[7]);
    EightBits(b);
  }

  lemma ByteIsBits(crc: bv16, b: byte)
    ensures RunBits(crc, ByteBits(b)) == Update(crc, b)
  {
    RunBitsPacked(crc, ByteBits(b));
    PackByte(b);
    var x := Xor(crc, b as bv16);
    assert Iterate(Shift, 8, x) == Iterate(Shift, 6, Shift2(x)) == Iterate(Shift, 4, Shift4(x));
    var y := Shift4(x);
    assert Iterate(Shift, 4, y) == Iterate(Shift, 2, Shift2(y)) == Iterate(Shift, 0, Shift4(y));
  }

  /** The octet-wise register is the bit-wise register over the transmitted bits. */
  lemma {:induction false} RunIsBits(crc: bv16, data: seq<byte>)
    ensures Run(crc, data) == RunBits(crc, Bits(data))
    decreases data
  {
    if data != [] {
      FoldAppend(BitStep, crc, ByteBits(data[0]), Bits(data[1..]));
      ByteIsBits(crc, data[0]);
      RunIsBits(Update(crc, data[0]), data[1..]);
    }
  }

  lemma StepInjective()
    ensures forall p: bv16, q: bv16, b: bool :: BitStep(p, b) == BitStep(q, b) ==> p == q
  {
    forall p: bv16, q: bv16, b: bool | BitStep(p, b) == BitStep(q, b)
      ensures p == q
    {
      ShiftInjective(p ^ Bit(b), q ^ Bit(b));
    }
  }

  lemma {:induction false} BitsInjective(f: seq<byte>, g: seq<byte>)
    requires Bits(f) == Bits(g)
    ensures f == g
  {
    hide ByteBits;
    if f != [] {
      assert |g| == |f|;
      assert ByteBits(f[0]) == Bits(f)[..8] && ByteBits(g[0]) == Bits(g)[..8];
      assert Bits(f[1..]) == Bits(f)[8..] && Bits(g[1..]) == Bits(g)[8..];
      PackByte(f[0]);
      PackByte(g[0]);
      BitsInjective(f[1..], g[1..]);
      assert f == [f[0]] + f[1..] && g == [g[0]] + g[1..];
    }
  }

  /** The two bit strings are the same outside the sixteen bits from `start` on. */
  predicate DifferInBurst(u: seq<bool>, v: seq<bool>, start: nat) {
    && |u| == |v|
    && forall i :: 0 <= i < |u| && !(start <= i < start + 16) ==> u[i] == v[i]
  }

  /** A change confined to sixteen consecutive bits changes the register for good. */
  lemma BurstChangesRegister(u: seq<bool>, v: seq<bool>, start: nat)
    requires DifferInBurst(u, v, start) && u != v
    ensures RunBits(INITIAL, u) != RunBits(INITIAL, v)
  {
    var lo := if start < |u| then start else |u|;
    var hi := if start + 16 < |u| then start + 16 else |u|;
    var w, x := u[lo..hi], v[lo..hi];
    assert w + u[hi..] == u[lo..] && x + v[hi..] == v[lo..];
    assert u == u[..lo] + (w + u[hi..]) && v == v[..lo] + (x + v[hi..]);
    assert u[..lo] == v[..lo] && u[hi..] == v[hi..];
    var s := RunBits(INITIAL, u[..lo]);
    FoldAppend(BitStep, INITIAL, u[..lo], w + u[hi..]);
    FoldAppend(BitStep, INITIAL, v[..lo], x + v[hi..]);
    FoldAppend(BitStep, s, w, u[hi..]);
    FoldAppend(BitStep, s, x, v[hi..]);
    if RunBits(INITIAL, u) == RunBits(INITIAL, v) {
      StepInjective();
      FoldInjective(BitStep, RunBits(s, w), RunBits(s, x), u[hi..]);
      WindowInjective(s, w, x);
      assert false;
    }
  }

  lemma WindowInjective(s: bv16, w: seq<bool>, x: seq<bool>)
    requires |w| == |x| <= 16 && RunBits(s, w) == RunBits(s, x)
    ensures w == x
  {
    RunBitsPacked(s, w);
    RunBitsPacked(s, x);
    forall p: bv16, q: bv16 | Shift(p) == Shift(q) ensures p == q {
      ShiftInjective(p, q);
    }
    IterateInjective(Shift, |w|, Xor(s, Pack(w)), Xor(s, Pack(x)));
    PackInjective(w, x);
  }

  /** The check at work: no error burst of up to sixteen bits, check bytes included, goes unseen. */
  lemma BurstDetected(f: seq<byte>, g: seq<byte>, start: nat)
    requires Accepts(f) && f != g
    requires DifferInBurst(Bits(f), Bits(g), start)
    ensures !Accepts(g)
  {
    if Bits(f) == Bits(g) {
      BitsInjective(f, g);
    }
    BurstChangesRegister(Bits(f), Bits(g), start);
    RunIsBits(INITIAL, f);
    RunIsBits(INITIAL, g);
  }

  lemma {:induction false} BitsAt(f: seq<byte>, k: nat, j: nat)
    requires k < |f| && j < 8
    ensures Bits(f)[8 * k + j] == ByteBits(f[k])[j]
  {
    hide ByteBits;
    if k > 0 {
      BitsAt(f[1..], k - 1, j);
      assert 8 * k + j - 8 == 8 * (k - 1) + j;
    }
  }

  lemma SameBitAt(f: seq<byte>, g: seq<byte>, k: nat, j: nat)
    requires k < |f| == |g| && j < 8 && f[k] == g[k]
    ensures Bits(f)[8 * k + j] == Bits(g)[8 * k + j]
  {
    BitsAt(f, k, j);
    BitsAt(g, k, j);
  }

  /** In particular any damage to one octet or to two neighbouring octets is seen. */
  lemma AdjacentOctetsDetected(f: seq<byte>, g: seq<byte>, k: nat)
    requires Accepts(f) && f != g && |f| == |g|
    requires forall i :: 0 <= i < |f| && i != k && i != k + 1 ==> f[i] == g[i]
    ensures !Accepts(g)
  {
    hide Bits, ByteBits;
    forall i | 0 <= i < 8 * |f| && !(8 * k <= i < 8 * k + 16)
      ensures Bits(f)[i] == Bits(g)[i]
    {
      SameBitAt(f, g, i / 8, i % 8);
    }
    BurstDetected(f, g, 8 * k);
  }

  /** A frame is good exactly when it ends in the check bytes of what precedes them. */
  lemma AcceptsIffCheckBytes(data: seq<byte>, lo: byte, hi: byte)
    ensures Accepts(data + [lo, hi]) <==> (lo, hi) == CheckBytes(data)
  {
    var (lo', hi') := CheckBytes(data);
    CheckBytesAccepted(data);
    var f, g := data + [lo, hi], data + [lo', hi'];
    if Accepts(f) && f != g {
      AdjacentOctetsDetected(f, g, |data|);
    }
    assert f[|data|..] == [lo, hi] && g[|data|..] == [lo', hi'];
  }

  /** check_fcs: the frame without its check bytes if they are right, the whole frame if not. */
  method CheckFcs(data: seq<byte>) returns (payload: seq<byte>, trailer: int, ok: bool)
    requires |data| >= 2
    ensures ok <==> Accepts(data)
    ensures payload == if ok then data[..|data| - 2] else data
    ensures trailer == Trailer(data)
  {
    var fcs1, fcs2 := data[|data| - 2], data[|data| - 1];
    var crc1, crc2 := Fcs(data[..|data| - 2]);
    trailer := fcs2 as int * 256 + fcs1 as int;
    assert data == data[..|data| - 2] + [fcs1, fcs2];
    AcceptsIffCheckBytes(data[..|data| - 2], fcs1, fcs2);
    if (fcs1, fcs2) != (crc1, crc2) {
      return data, trailer, false;
    }
    return data[..|data| - 2], trailer, true;
  }

  lemma UpdateInjective(p: bv16, q: bv16, b: byte)
    requires Update(p, b) == Update(q, b)
    ensures p == q
  {
    hide Shift, Shift8;
    forall r: bv16, s: bv16 | Shift(r) == Shift(s) ensures r == s {
      ShiftInjective(r, s);
    }
    EightShifts(Xor(p, b as bv16));
    EightShifts(Xor(q, b as bv16));
    IterateInjective(Shift, 8, Xor(p, b as bv16), Xor(q, b as bv16));
    XorInjective(p, q, b as bv16);
  }

  lemma XorInjective(p: bv16, q: bv16, x: bv16)
    requires Xor(p, x) == Xor(q, x)
    ensures p == q
  {}

  /** Zero octets in front of a frame do not go unseen. */
  lemma LeadingZeroSeen(data: seq<byte>)
    ensures CheckBytes([0] + data) != CheckBytes(data)
  {
    hide Update;
    FoldAppend(Update, INITIAL, [0], data);
    FoldSnoc(Update, INITIAL, [], 0);
    assert [] + [0] == [0];
    FirstZero();
    forall p: bv16, q: bv16, x: byte | Update(p, x) == Update(q, x) ensures p == q {
      UpdateInjective(p, q, x);
    }
    if Run(INITIAL, [0] + data) == Run(INITIAL, data) {
      FoldInjective(Update, Update(INITIAL, 0), INITIAL, data);
      assert false;
    }
    OctetsInjective(Run(INITIAL, [0] + data), Run(INITIAL, data));
  }

  lemma FirstZero()
    ensures Update(0xffff, 0) != 0xffff
  {}

  lemma OctetsInjective(v: bv16, w: bv16)
    requires v != w
    ensures Octets(v ^ 0xffff) != Octets(w ^ 0xffff)
  {}
}
