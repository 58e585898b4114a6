/** parse after serialize.

    `Normal` says, for every packet that serialize accepts, what parse makes of the octets.  The packet
    comes back unchanged exactly when it is `Canonical`. */
module RoundTrip {
  import opened Bytes
  import opened Packets
  import opened Calls
  import opened FrameCheck
  import opened Bursts
  import opened Serializer
  import opened Parser

  function NormalRepeaters(rs: seq<Repeater>, i: nat): seq<Repeater>
    requires i <= |rs| && RepeatersOk(rs)
    decreases |rs| - i
  {
    if i == |rs| then [] else
      [Repeater(NormalCall(rs[i].address), rs[i].hasBeenRepeated)] + NormalRepeaters(rs, i + 1)
  }

  /** The frame as parse sees it.  A modulo-128 S frame comes back as the one octet that parse reads of
      its two, and a frame type that serialize leaves out comes back as a missing control octet. */
  function NormalFrame(f: Frame, ext: bool): Result<Frame> {
    match f
    case Ui(pid, push, payload) => Ok(Ui(pid % 256, if push != 0 then 16 else 0, payload))
    case Sabm(_) => Ok(f)
    case Sabme(_) => Ok(f)
    case Disc(_) => Ok(f)
    case Dm(_) => Ok(f)
    case Ua(_) => Ok(f)
    case Rr(nr, poll) => Ok(if ext then Rr(0, false) else Rr(nr % 8, poll))
    case Rej(nr, poll) => Ok(if ext then Rej(0, false) else Rej(nr % 8, poll))
    case IFrame(nr, ns, poll, _, pid, payload) =>
      var m := if ext then 128 else 8;
      Ok(IFrame(nr % m, ns % m, poll, ext, pid % 256, payload))
    case _ => Err(OutOfRange)
  }

  function NormalPacket(p: Packet, fcs: int): Result<Packet>
    requires Serializable(p)
  {
    var frame := NormalFrame(p.frame, p.rrExtseq);
    if frame.Err? then Err(frame.error)
    else Ok(Packet(NormalCall(p.dst), NormalCall(p.src), NormalRepeaters(p.repeater, 0), fcs, frame.value,
                   p.rrExtseq, p.commandResponse, p.commandResponseLa, false))
  }

  function Normal(p: Packet, fcs: bool): Result<Packet>
    requires Serializable(p)
  {
    NormalPacket(p, CheckField(p, fcs))
  }

  function CheckField(p: Packet, fcs: bool): int
    requires Serializable(p)
  {
    if !fcs then 0 else CheckBytes(Body(p)).1 as int * 256 + CheckBytes(Body(p)).0 as int
  }

  // ---------------------------------------------------------------------------------------------
  // The control field

  lemma Remainder(x: int, m: int, q: int, r: int)
    requires m == 8 || m == 128
    requires x == m * q + r && 0 <= r < m
    ensures x % m == r
  {}

  lemma LowThree(b: byte)
    ensures Bits3(b) == b as int % 8
  {
    assert b as int == 8 * ((b >> 3) as int) + (b & 7) as int;
    Remainder(b as int, 8, (b >> 3) as int, (b & 7) as int);
  }

  lemma LowSeven(b: byte)
    ensures Bits7(b) == b as int % 128
  {
    assert b as int == 128 * ((b >> 7) as int) + (b & 0x7f) as int;
    Remainder(b as int, 128, (b >> 7) as int, (b & 0x7f) as int);
  }

  lemma LowBitsOfOctet(n: int)
    ensures n % 256 % 8 == n % 8 && n % 256 % 128 == n % 128
  {
    var q, r := n / 256, n % 256;
    Remainder(n, 8, 32 * q + r / 8, r % 8);
    Remainder(n, 128, 2 * q + r / 128, r % 128);
  }

  lemma Modulo8(n: int)
    ensures Bits3(ByteOf(n)) == n % 8
  {
    LowThree(ByteOf(n));
    LowBitsOfOctet(n);
  }

  lemma Modulo128(n: int)
    ensures Bits7(ByteOf(n)) == n % 128
  {
    LowSeven(ByteOf(n));
    LowBitsOfOctet(n);
  }

  lemma SControl(base: byte, n: byte, poll: bool)
    requires base == 0x01 || base == 0x09
    ensures var c := base | PfBit(poll) | ((n << 5) & 0xe0);
            && c & 3 == 1 && c & 0x0c == base & 0x0c && (c >> 5) & 7 == n & 7 && (c & 0x10 != 0) == poll
  {}

  lemma IControl(n: byte, s: byte, poll: bool)
    ensures var c := PfBit(poll) | (n << 5) | ((s << 1) & 0x0e);
            && c & 1 == 0 && (c >> 5) & 7 == n & 7 && (c >> 1) & 7 == s & 7 && (c & 0x10 != 0) == poll
  {}

  lemma IControlExtended(n: byte, s: byte, poll: bool)
    ensures var c := (s << 1) & 0xfe;
            c & 1 == 0 && (c >> 1) & 0x7f == s & 0x7f
    ensures var e := LowBit(poll) | (n << 1);
            (e >> 1) & 0x7f == n & 0x7f && (e & 1 != 0) == poll
  {}

  lemma UControl(base: byte, pf: bool)
    requires base & 3 == 3 && base & 0x10 == 0
    ensures var c := base | PfBit(pf);
            c & 3 == 3 && c & 0xef == base && (c & 0x10 != 0) == pf
  {}

  lemma Tail(data: seq<byte>, pos: nat, octets: seq<byte>, k: nat)
    requires pos <= |data| && data[pos..] == octets && k <= |octets|
    ensures |data| == pos + |octets| && data[pos + k..] == octets[k..]
    ensures forall i :: 0 <= i < |octets| ==> data[pos + i] == octets[i]
  {
    forall i | 0 <= i < |octets| ensures data[pos + i] == octets[i] {
      assert data[pos..][i] == data[pos + i];
    }
  }

  lemma SFrameReturns(data: seq<byte>, pos: nat, f: Frame, ext: bool)
    requires f.Rr? || f.Rej?
    requires pos <= |data| && data[pos..] == FrameOctets(f, ext)
    ensures ReadFrame(data, pos, ext) == NormalFrame(f, ext)
  {
    var base: byte := if f.Rr? then 0x01 else 0x09;
    Tail(data, pos, FrameOctets(f, ext), 1);
    if ext {
      assert data[pos] == base;
      SExtended(base);
    } else {
      assert data[pos] == base | PfBit(f.poll) | ((ByteOf(f.nr) << 5) & 0xe0);
      SControl(base, ByteOf(f.nr), f.poll);
      Modulo8(f.nr);
    }
  }

  lemma SExtended(base: byte)
    requires base == 0x01 || base == 0x09
    ensures base & 3 == 1 && base & 0x0c == base - 1 && Bits3(base >> 5) == 0 && base & 0x10 == 0
  {}

  lemma ISplit<T>(control: seq<T>, pid: T, payload: seq<T>, data: seq<T>, pos: nat)
    requires pos <= |data| && data[pos..] == control + [pid] + payload
    ensures |data| > pos + |control| && data[pos + |control|] == pid && data[pos + |control| + 1..] == payload
    ensures forall i :: 0 <= i < |control| ==> data[pos + i] == control[i]
  {
    var octets := control + [pid] + payload;
    var k := |control|;
    assert data[pos..][k] == data[pos + k] && data[pos..][k + 1..] == data[pos + k + 1..];
    forall i | 0 <= i < k ensures data[pos + i] == control[i] {
      assert data[pos..][i] == data[pos + i];
    }
  }

  /** The fields of the control octet of an I frame. */
  lemma IFields(nr: int, ns: int, poll: bool)
    ensures var c := IOctets(nr, ns, poll, false)[0];
            && c & 1 == 0 && Bits3(c >> 5) == nr % 8 && Bits3(c >> 1) == ns % 8 && (c & 0x10 != 0) == poll
  {
    IControl(ByteOf(nr), ByteOf(ns), poll);
    Modulo8(nr);
    Modulo8(ns);
  }

  lemma IFieldsExtended(nr: int, ns: int, poll: bool)
    ensures var c := IOctets(nr, ns, poll, true);
            && c[0] & 1 == 0 && Bits7(c[0] >> 1) == ns % 128
            && Bits7(c[1] >> 1) == nr % 128 && (c[1] & 1 != 0) == poll
  {
    IControlExtended(ByteOf(nr), ByteOf(ns), poll);
    Modulo128(nr);
    Modulo128(ns);
  }

  lemma IFrameReturns(data: seq<byte>, pos: nat, f: Frame, ext: bool)
    requires f.IFrame?
    requires pos <= |data| && data[pos..] == FrameOctets(f, ext)
    ensures ReadFrame(data, pos, ext) == NormalFrame(f, ext)
  {
    var control := IOctets(f.nr, f.ns, f.poll, ext);
    ISplit(control, ByteOf(f.pid), f.payload, data, pos);
    assert data[pos] == control[0];
    if ext {
      assert data[pos + 1] == control[1];
      IFieldsExtended(f.nr, f.ns, f.poll);
    } else {
      IFields(f.nr, f.ns, f.poll);
    }
  }

  lemma UiReturns(data: seq<byte>, pos: nat, f: Frame, ext: bool)
    requires f.Ui?
    requires pos <= |data| && data[pos..] == FrameOctets(f, ext)
    ensures ReadFrame(data, pos, ext) == NormalFrame(f, ext)
  {
    Tail(data, pos, FrameOctets(f, ext), 2);
    assert FrameOctets(f, ext)[2..] == f.payload;
    UControl(0x03, f.push != 0);
  }

  lemma UFrameReturns(data: seq<byte>, pos: nat, f: Frame, ext: bool)
    requires f.Sabm? || f.Sabme? || f.Disc? || f.Dm? || f.Ua?
    requires pos <= |data| && data[pos..] == FrameOctets(f, ext)
    ensures ReadFrame(data, pos, ext) == NormalFrame(f, ext)
  {
    Tail(data, pos, FrameOctets(f, ext), 1);
    match f
    case Sabm(poll) => UControl(0x2f, poll);
    case Sabme(poll) => UControl(0x6f, poll);
    case Disc(poll) => UControl(0x43, poll);
    case Dm(poll) => UControl(0x0f, poll);
    case Ua(poll) => UControl(0x63, poll);
  }

  lemma FrameReturns(data: seq<byte>, pos: nat, f: Frame, ext: bool)
    requires pos <= |data| && data[pos..] == FrameOctets(f, ext)
    ensures ReadFrame(data, pos, ext) == NormalFrame(f, ext)
  {
    match f
    case Rr(_, _) => SFrameReturns(data, pos, f, ext);
    case Rej(_, _) => SFrameReturns(data, pos, f, ext);
    case IFrame(_, _, _, _, _, _) => IFrameReturns(data, pos, f, ext);
    case Ui(_, _, _) => UiReturns(data, pos, f, ext);
    case Sabm(_) => UFrameReturns(data, pos, f, ext);
    case Sabme(_) => UFrameReturns(data, pos, f, ext);
    case Disc(_) => UFrameReturns(data, pos, f, ext);
    case Dm(_) => UFrameReturns(data, pos, f, ext);
    case Ua(_) => UFrameReturns(data, pos, f, ext);
    case _ => Tail(data, pos, FrameOctets(f, ext), 0);
  }

  // ---------------------------------------------------------------------------------------------
  // The addresses

  /** Seven octets written at pos read back whatever follows them. */
  lemma AddressReturns(data: seq<byte>, pos: nat, s: string, lowbit: bool, highbit: bool, ext: bool)
    requires CallOk(s) && pos + 7 <= |data|
    requires data[pos..pos + 7] == CallOctets(s, lowbit, highbit, ext, false)
    ensures ReadCall(Piece(data, pos)) == Ok(ParsedCall(NormalCall(s), highbit, !ext, true, lowbit))
  {
    CallReturns(s, lowbit, highbit, ext, false);
  }

  lemma {:induction false} RepeatersLength(rs: seq<Repeater>, i: nat)
    requires i <= |rs| && RepeatersOk(rs)
    ensures |RepeaterOctets(rs, i)| == 7 * (|rs| - i)
    decreases |rs| - i
  {
    hide CallOk;
    if i < |rs| {
      RepeatersLength(rs, i + 1);
    }
  }

  lemma {:induction false} RepeaterAt(rs: seq<Repeater>, i: nat, j: nat)
    requires RepeatersOk(rs) && i <= j < |rs|
    ensures |RepeaterOctets(rs, i)| == 7 * (|rs| - i)
    ensures RepeaterOctets(rs, i)[7 * (j - i)..7 * (j - i) + 7]
         == CallOctets(rs[j].address, j == |rs| - 1, rs[j].hasBeenRepeated, false, false)
    decreases j - i
  {
    hide CallOctets, CallOk;
    RepeatersLength(rs, i);
    if i < j {
      RepeaterAt(rs, i + 1, j);
      var k := 7 * (j - i);
      Behind(CallOctets(rs[i].address, i == |rs| - 1, rs[i].hasBeenRepeated, false, false), RepeaterOctets(rs, i + 1), k - 7);
    }
  }

  lemma Behind<T>(a: seq<T>, b: seq<T>, k: nat)
    requires |a| == 7 && k + 7 <= |b|
    ensures (a + b)[k + 7..k + 14] == b[k..k + 7]
  {}

  predicate RepeaterReads(read: seq<byte> -> Result<ParsedCall>, data: seq<byte>, rs: seq<Repeater>, j: nat)
    requires RepeatersOk(rs) && j < |rs| && 14 + 7 * |rs| <= |data|
  {
    read(Piece(data, 14 + 7 * j))
    == Ok(ParsedCall(NormalCall(rs[j].address), rs[j].hasBeenRepeated, true, true, j == |rs| - 1))
  }

  lemma {:induction false} PathReturns(read: seq<byte> -> Result<ParsedCall>, data: seq<byte>, rs: seq<Repeater>, i: nat)
    requires RepeatersOk(rs) && i < |rs| && 14 + 7 * |rs| <= |data|
    requires forall j :: i <= j < |rs| ==> RepeaterReads(read, data, rs, j)
    ensures ReadPath(read, data, 14 + 7 * i) == Ok(Path(NormalRepeaters(rs, i), 14 + 7 * |rs|))
    decreases |rs| - i
  {
    assert RepeaterReads(read, data, rs, i);
    if i + 1 < |rs| {
      PathReturns(read, data, rs, i + 1);
    }
  }

  lemma Parts<T>(a: seq<T>, b: seq<T>, c: seq<T>, d: seq<T>)
    requires |a| == |b| == 7
    ensures var s := a + b + c + d;
            && s[0..7] == a && s[7..14] == b && s[14..14 + |c|] == c && s[14 + |c|..] == d
  {}

  /** Reading the addresses and the frame is all there is to reading a packet. */
  lemma Assembled(data: seq<byte>, p: Packet, fcs: int, end: nat)
    requires Serializable(p) && end <= |data|
    requires ReadCall(Piece(data, 0)) == Ok(ParsedCall(NormalCall(p.dst), p.commandResponse, !p.rrDst1, true, false))
    requires 7 <= |data|
    requires ReadCall(Piece(data, 7))
          == Ok(ParsedCall(NormalCall(p.src), p.commandResponseLa, !p.rrExtseq, true, p.repeater == []))
    requires 14 <= |data|
    requires if p.repeater == [] then end == 14 else ReadPath(ReadCall, data, 14) == Ok(Path(NormalRepeaters(p.repeater, 0), end))
    requires ReadFrame(data, end, p.rrExtseq) == NormalFrame(p.frame, p.rrExtseq)
    ensures ReadPacket(data, fcs) == NormalPacket(p, fcs)
  {
    hide ReadCall, ReadFrame, NormalFrame;
  }

  lemma BodyParts(p: Packet)
    requires Serializable(p)
    ensures var data, end := Body(p), 14 + 7 * |p.repeater|;
            && end <= |data|
            && data[0..7] == CallOctets(p.dst, false, p.commandResponse, p.rrDst1, false)
            && data[7..14] == CallOctets(p.src, p.repeater == [], p.commandResponseLa, p.rrExtseq, false)
            && data[14..end] == RepeaterOctets(p.repeater, 0)
            && data[end..] == FrameOctets(p.frame, p.rrExtseq)
  {
    RepeatersLength(p.repeater, 0);
    Parts(CallOctets(p.dst, false, p.commandResponse, p.rrDst1, false),
          CallOctets(p.src, p.repeater == [], p.commandResponseLa, p.rrExtseq, false),
          RepeaterOctets(p.repeater, 0), FrameOctets(p.frame, p.rrExtseq));
  }

  lemma DstReturns(p: Packet)
    requires Serializable(p)
    ensures ReadCall(Piece(Body(p), 0)) == Ok(ParsedCall(NormalCall(p.dst), p.commandResponse, !p.rrDst1, true, false))
  {
    BodyParts(p);
    AddressReturns(Body(p), 0, p.dst, false, p.commandResponse, p.rrDst1);
  }

  lemma SrcReturns(p: Packet)
    requires Serializable(p)
    ensures 14 <= |Body(p)|
    ensures ReadCall(Piece(Body(p), 7))
         == Ok(ParsedCall(NormalCall(p.src), p.commandResponseLa, !p.rrExtseq, true, p.repeater == []))
  {
    BodyParts(p);
    AddressReturns(Body(p), 7, p.src, p.repeater == [], p.commandResponseLa, p.rrExtseq);
  }

  lemma SliceOfSlice<T>(s: seq<T>, a: nat, b: nat, i: nat, j: nat)
    requires a <= b <= |s| && i <= j <= b - a
    ensures s[a..b][i..j] == s[a + i..a + j]
  {
    assert |s[a..b][i..j]| == |s[a + i..a + j]|;
    forall k | 0 <= k < j - i ensures s[a..b][i..j][k] == s[a + i..a + j][k] {
      assert s[a..b][i..j][k] == s[a..b][i + k] == s[a + (i + k)];
    }
  }

  lemma RepeaterReturns(p: Packet, j: nat)
    requires Serializable(p) && j < |p.repeater|
    ensures 14 + 7 * |p.repeater| <= |Body(p)| && RepeaterReads(ReadCall, Body(p), p.repeater, j)
  {
    hide ReadCall, CallOctets, Body;
    var rs, data := p.repeater, Body(p);
    BodyParts(p);
    RepeaterAt(rs, 0, j);
    SliceOfSlice(data, 14, 14 + 7 * |rs|, 7 * j, 7 * j + 7);
    AddressReturns(data, 14 + 7 * j, rs[j].address, j == |rs| - 1, rs[j].hasBeenRepeated, false);
  }

  lemma PathReturnsAsWritten(p: Packet)
    requires Serializable(p) && p.repeater != []
    ensures 14 <= |Body(p)|
    ensures ReadPath(ReadCall, Body(p), 14) == Ok(Path(NormalRepeaters(p.repeater, 0), 14 + 7 * |p.repeater|))
  {
    hide ReadCall, Body;
    RepeaterReturns(p, 0);
    forall j | 0 <= j < |p.repeater|
      ensures 14 + 7 * |p.repeater| <= |Body(p)| && RepeaterReads(ReadCall, Body(p), p.repeater, j)
    {
      RepeaterReturns(p, j);
    }
    PathReturns(ReadCall, Body(p), p.repeater, 0);
  }

  lemma FrameReturnsAsWritten(p: Packet)
    requires Serializable(p)
    ensures 14 + 7 * |p.repeater| <= |Body(p)|
    ensures ReadFrame(Body(p), 14 + 7 * |p.repeater|, p.rrExtseq) == NormalFrame(p.frame, p.rrExtseq)
  {
    BodyParts(p);
    FrameReturns(Body(p), 14 + 7 * |p.repeater|, p.frame, p.rrExtseq);
  }

  lemma BodyReturns(p: Packet, fcs: int)
    requires Serializable(p)
    ensures ReadPacket(Body(p), fcs) == NormalPacket(p, fcs)
  {
    hide ReadCall, ReadFrame, NormalFrame, Body, ReadPath, ReadPacket, NormalPacket;
    DstReturns(p);
    SrcReturns(p);
    if p.repeater != [] {
      PathReturnsAsWritten(p);
    }
    FrameReturnsAsWritten(p);
    Assembled(Body(p), p, fcs, 14 + 7 * |p.repeater|);
  }

  lemma ShortBody(p: Packet)
    requires Serializable(p)
    ensures |Body(p)| >= 14
    ensures |Body(p)| < 15 ==> NormalFrame(p.frame, p.rrExtseq).Err?
  {
    BodyParts(p);
  }

  /** What parse makes of the octets of any packet that serialize accepts. */
  lemma ParseOfSerialize(p: Packet, fcs: bool)
    requires Serializable(p)
    ensures match Normal(p, fcs)
            case Ok(q) => Parsed(Encoded(p, fcs), fcs) == Ok(q)
            case Err(_) => Parsed(Encoded(p, fcs), fcs).Err?
  {
    hide ReadPacket, Body, CheckBytes, NormalFrame, NormalCall, NormalRepeaters;
    var body, data := Body(p), Encoded(p, fcs);
    BodyReturns(p, CheckField(p, fcs));
    ShortBody(p);
    if fcs {
      CheckBytesAccepted(body);
      assert data[..|data| - 2] == body;
    }
  }

  // ---------------------------------------------------------------------------------------------
  // When the packet comes back as it was

  predicate CanonicalRepeaters(rs: seq<Repeater>) {
    forall i :: 0 <= i < |rs| ==> CanonicalCall(rs[i].address)
  }

  /** Frames that survive: those that serialize writes and parse reads whole, with every field within
      its bits. */
  predicate CanonicalFrame(f: Frame, ext: bool) {
    match f
    case Ui(pid, push, _) => 0 <= pid < 256 && (push == 0 || push == 16)
    case Rr(nr, poll) => if ext then nr == 0 && !poll else 0 <= nr < 8
    case Rej(nr, poll) => if ext then nr == 0 && !poll else 0 <= nr < 8
    case IFrame(nr, ns, _, extended, pid, _) =>
      var m := if ext then 128 else 8;
      0 <= nr < m && 0 <= ns < m && extended == ext && 0 <= pid < 256
    case _ => f.Sabm? || f.Sabme? || f.Disc? || f.Dm? || f.Ua?
  }

  predicate Canonical(p: Packet) {
    && CanonicalCall(p.dst) && CanonicalCall(p.src) && CanonicalRepeaters(p.repeater)
    && CanonicalFrame(p.frame, p.rrExtseq) && !p.rrDst1
  }

  lemma {:induction false} NormalRepeatersIff(rs: seq<Repeater>, i: nat)
    requires i <= |rs| && RepeatersOk(rs)
    ensures NormalRepeaters(rs, i) == rs[i..] <==> forall j :: i <= j < |rs| ==> CanonicalCall(rs[j].address)
    decreases |rs| - i
  {
    hide NormalCall, CanonicalCall, CallOk;
    if i < |rs| {
      NormalRepeatersIff(rs, i + 1);
      NormalIffCanonical(rs[i].address);
      assert rs[i..] == [rs[i]] + rs[i + 1..];
      assert NormalRepeaters(rs, i)[0] == Repeater(NormalCall(rs[i].address), rs[i].hasBeenRepeated);
      assert NormalRepeaters(rs, i)[1..] == NormalRepeaters(rs, i + 1);
      assert rs[i..][0] == rs[i] && rs[i..][1..] == rs[i + 1..];
    }
  }

  lemma NormalFrameIff(f: Frame, ext: bool)
    ensures NormalFrame(f, ext) == Ok(f) <==> CanonicalFrame(f, ext)
  {}

  /** Main result: parse undoes serialize, but for the record of the check bytes, for exactly the
      canonical packets, with and without check bytes. */
  lemma RoundTripIffCanonical(p: Packet, fcs: bool)
    requires Serializable(p)
    ensures Parsed(Encoded(p, fcs), fcs) == Ok(p.(fcs := CheckField(p, fcs))) <==> Canonical(p)
  {
    hide Parsed, Encoded, NormalFrame, CanonicalFrame, NormalCall, CanonicalCall, CheckField;
    ParseOfSerialize(p, fcs);
    NormalIffCanonical(p.dst);
    NormalIffCanonical(p.src);
    NormalRepeatersIff(p.repeater, 0);
    assert p.repeater[0..] == p.repeater;
    NormalFrameIff(p.frame, p.rrExtseq);
  }

  lemma CanonicalIsSerializable(p: Packet)
    requires Canonical(p)
    ensures Serializable(p)
  {}

  /** No packet that suffered a burst of up to sixteen wrong bits on its way is taken for a packet. */
  lemma DamagedPacketRefused(p: Packet, received: seq<byte>, start: nat)
    requires Serializable(p)
    requires received != Encoded(p, true) && DifferInBurst(Bits(Encoded(p, true)), Bits(received), start)
    ensures Parsed(received, true) == Err(if |received| < 15 then PacketTooSmall else CrcError)
  {
    hide Body, CheckBytes;
    CheckBytesAccepted(Body(p));
    BurstDetected(Encoded(p, true), received, start);
  }
}
