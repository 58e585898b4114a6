/** The octets of a packet as numbers: where each field of src/serialize.cc and src/parse.cc sits and
    what it is worth, for every packet and for every string of octets. */
module Layouts {
  import opened Bytes
  import opened Packets
  import opened Calls
  import opened FrameCheck
  import opened Bursts
  import opened Serializer
  import opened Parser
  import opened RoundTrip

  function One(b: bool): nat {
    if b then 1 else 0
  }

  // ---------------------------------------------------------------------------------------------
  // Control fields

  predicate ULayout(o: seq<byte>, base: int, p: bool) {
    |o| == 1 && o[0] as int == base + 16 * One(p)
  }

  lemma ULayoutIs(base: byte, p: bool)
    requires base & 0x10 == 0
    ensures ULayout([base | PfBit(p)], base as int, p)
  {
    assert base | PfBit(p) == base + PfBit(p);
  }

  predicate UiLayout(o: seq<byte>, pid: int, push: bool, payload: seq<byte>) {
    |o| == 2 + |payload| && o[0] as int == 3 + 16 * One(push) && o[1] as int == pid % 256 && o[2..] == payload
  }

  lemma UiLayoutIs(pid: int, push: bool, payload: seq<byte>)
    ensures UiLayout([0x03 | PfBit(push), ByteOf(pid)] + payload, pid, push, payload)
  {
    hide ByteOf;
    assert 0x03 | PfBit(push) == 3 + PfBit(push);
  }

  /** Main result: the control octets of AX.25 section 4.3, the protocol identifier and the information
      field, for every frame and every number in it. */
  lemma FrameOctetsAre(f: Frame, ext: bool)
    ensures var o := FrameOctets(f, ext);
            match f
            case Sabm(p) => ULayout(o, 47, p)
            case Sabme(p) => ULayout(o, 111, p)
            case Disc(p) => ULayout(o, 67, p)
            case Dm(p) => ULayout(o, 15, p)
            case Ua(p) => ULayout(o, 99, p)
            case Ui(pid, push, payload) => UiLayout(o, pid, push != 0, payload)
            case Rr(nr, p) => SLayout(o, 1, nr, p, ext)
            case Rej(nr, p) => SLayout(o, 9, nr, p, ext)
            case IFrame(nr, ns, p, _, pid, payload) => ILayout(o, nr, ns, p, pid, payload, ext)
            case _ => o == []
  {
    hide PfBit, SOctets, IOctets, ULayout, UiLayout, SLayout, ILayout, ByteOf;
    match f
    case Sabm(p) => ULayoutIs(0x2f, p);
    case Sabme(p) => ULayoutIs(0x6f, p);
    case Disc(p) => ULayoutIs(0x43, p);
    case Dm(p) => ULayoutIs(0x0f, p);
    case Ua(p) => ULayoutIs(0x63, p);
    case Ui(pid, push, payload) => UiLayoutIs(pid, push != 0, payload);
    case Rr(nr, p) => SLayoutIs(0x01, nr, p, ext);
    case Rej(nr, p) => SLayoutIs(0x09, nr, p, ext);
    case IFrame(nr, ns, p, _, pid, payload) => ILayoutIs(nr, ns, p, pid, payload, ext);
    case _ =>
  }

  predicate SLayout(o: seq<byte>, base: int, nr: int, p: bool, ext: bool) {
    if ext then |o| == 2 && o[0] as int == base && o[1] as int == 2 * (nr % 128) + One(p)
    else |o| == 1 && o[0] as int == base + 16 * One(p) + 32 * (nr % 8)
  }

  predicate ILayout(o: seq<byte>, nr: int, ns: int, p: bool, pid: int, payload: seq<byte>, ext: bool) {
    if ext then
      && |o| == 3 + |payload| && o[0] as int == 2 * (ns % 128) && o[1] as int == 2 * (nr % 128) + One(p)
      && o[2] as int == pid % 256 && o[3..] == payload
    else
      && |o| == 2 + |payload| && o[0] as int == 2 * (ns % 8) + 16 * One(p) + 32 * (nr % 8)
      && o[1] as int == pid % 256 && o[2..] == payload
  }

  lemma SLayoutIs(base: byte, nr: int, p: bool, ext: bool)
    requires base == 1 || base == 9
    ensures SLayout(SOctets(base, nr, p, ext), base as int, nr, p, ext)
  {
    hide ByteOf;
    if ext {
      Modulo128(nr);
      SecondControl(ByteOf(nr), p);
    } else {
      Modulo8(nr);
      FirstControl(base, ByteOf(nr), p);
    }
  }

  lemma FirstControl(base: byte, n: byte, p: bool)
    requires base & 0xf0 == 0
    ensures (base | PfBit(p) | ((n << 5) & 0xe0)) as int == base as int + 16 * One(p) + 32 * Bits3(n)
  {
    assert base | PfBit(p) | ((n << 5) & 0xe0) == base + PfBit(p) + 32 * (n & 7);
    Times32(n & 7);
    assert base < 16;
    SumOctets(base, PfBit(p), 32 * (n & 7));
  }

  lemma Times32(b: byte)
    requires b < 8
    ensures (32 * b) as int == 32 * (b as int)
  {}

  lemma SumOctets(a: byte, b: byte, c: byte)
    requires a < 16 && (b == 0 || b == 16) && c & 31 == 0
    ensures (a + b + c) as int == a as int + b as int + c as int
  {}

  lemma SecondControl(n: byte, p: bool)
    ensures (LowBit(p) | ((n << 1) & 0xfe)) as int == 2 * Bits7(n) + One(p)
    ensures (LowBit(p) | (n << 1)) as int == 2 * Bits7(n) + One(p)
    ensures ((n << 1) & 0xfe) as int == 2 * Bits7(n)
  {
    var b := n & 0x7f;
    assert (n << 1) & 0xfe == b << 1 && n << 1 == b << 1;
    assert b < 128;
    Twice(b);
    assert LowBit(p) | (b << 1) == LowBit(p) + (b << 1);
    assert (LowBit(p) + (b << 1)) as int == LowBit(p) as int + (b << 1) as int;
  }

  lemma ILayoutIs(nr: int, ns: int, p: bool, pid: int, payload: seq<byte>, ext: bool)
    ensures ILayout(IOctets(nr, ns, p, ext) + [ByteOf(pid)] + payload, nr, ns, p, pid, payload, ext)
  {
    hide ByteOf;
    if ext {
      Modulo128(nr);
      Modulo128(ns);
      SecondControl(ByteOf(nr), p);
      SecondControl(ByteOf(ns), false);
    } else {
      Modulo8(nr);
      Modulo8(ns);
      IFirstControl(ByteOf(nr), ByteOf(ns), p);
    }
  }

  lemma IFirstControl(n: byte, s: byte, p: bool)
    ensures (PfBit(p) | (n << 5) | ((s << 1) & 0x0e)) as int == 2 * Bits3(s) + 16 * One(p) + 32 * Bits3(n)
  {
    var low := (s & 7) << 1;
    assert s & 7 < 128;
    Twice(s & 7);
    assert PfBit(p) | (n << 5) | ((s << 1) & 0x0e) == low | PfBit(p) | ((n << 5) & 0xe0);
    assert low & 0xf0 == 0;
    FirstControl(low, n, p);
  }

  // ---------------------------------------------------------------------------------------------
  // What the control octets say

  predicate SRead(f: Frame, kind: int, nr: int, p: bool) {
    match kind
    case 0 => f == Rr(nr, p)
    case 1 => f == Rnr(nr, p)
    case 2 => f == Rej(nr, p)
    case _ => f == Srej(nr, p)
  }

  /** The unnumbered frames by what is left of the control octet without the P bit. */
  predicate URead(r: Result<Frame>, kind: int, p: bool, rest: seq<byte>) {
    match kind
    case 3 => r == if rest == [] then Err(OutOfRange) else Ok(Ui(rest[0] as int, if p then 16 else 0, rest[1..]))
    case 15 => r == Ok(Dm(p))
    case 47 => r == Ok(Sabm(p))
    case 67 => r == Ok(Disc(p))
    case 99 => r == Ok(Ua(p))
    case 111 => r == Ok(Sabme(p))
    case 135 => r == Err(Unimplemented)
    case 175 => r == Err(Unimplemented)
    case 239 => r == Ok(Test(p, rest))
    case _ => r == Err(UnknownUFrame)
  }

  predicate IRead(r: Result<Frame>, c: int, rest: seq<byte>, ext: bool) {
    if |rest| < (if ext then 2 else 1) then r == Err(OutOfRange)
    else if ext then
      r == Ok(IFrame(rest[0] as int / 2, c / 2, rest[0] as int % 2 == 1, true, rest[1] as int, rest[2..]))
    else r == Ok(IFrame(c / 32, c / 2 % 8, c / 16 % 2 == 1, false, rest[0] as int, rest[1..]))
  }

  /** Main result: the frame that any octets from a control octet on stand for, or the error. */
  lemma ReadFrameIs(data: seq<byte>, pos: nat, ext: bool)
    requires pos <= |data|
    ensures var r := ReadFrame(data, pos, ext);
            if pos == |data| then r == Err(OutOfRange)
            else
              var c, rest := data[pos] as int, data[pos + 1..];
              if c % 2 == 0 then IRead(r, c, rest, ext)
              else if c % 4 == 1 then r.Ok? && SRead(r.value, c / 4 % 4, c / 32, c / 16 % 2 == 1)
              else URead(r, c - 16 * (c / 16 % 2), c / 16 % 2 == 1, rest)
  {
    hide ReadIFrame, ReadSFrame, ReadUFrame;
    if pos < |data| {
      LowBits(data[pos]);
      IReadIs(data[pos], data, pos + 1, ext);
      SReadIs(data[pos]);
      UReadIs(data[pos], data, pos + 1);
    }
  }

  lemma LowBits(b: byte)
    ensures (b & 1 == 0) == (b as int % 2 == 0) && (b & 3 == 1) == (b as int % 4 == 1)
  {
    assert b as int == 2 * ((b >> 1) as int) + (b & 1) as int;
    assert b as int == 4 * ((b >> 2) as int) + (b & 3) as int;
  }

  lemma PollBit(b: byte)
    ensures (b & 0x10 != 0) == (b as int / 16 % 2 == 1)
  {
    assert b as int == 16 * ((b >> 4) as int) + (b & 15) as int;
    assert (b >> 4) as int == 2 * ((b >> 5) as int) + ((b >> 4) & 1) as int;
    assert (b & 0x10 != 0) == ((b >> 4) & 1 == 1);
  }

  lemma TopThree(b: byte)
    ensures Bits3(b >> 5) == b as int / 32
  {
    assert b as int == 32 * ((b >> 5) as int) + (b & 31) as int;
    assert (b >> 5) & 7 == b >> 5;
  }

  lemma MiddleThree(b: byte)
    ensures Bits3(b >> 1) == b as int / 2 % 8
  {
    LowThree(b >> 1);
    assert b as int == 2 * ((b >> 1) as int) + (b & 1) as int;
  }

  lemma TopSeven(b: byte)
    ensures Bits7(b >> 1) == b as int / 2 && (b & 1 != 0) == (b as int % 2 == 1)
  {
    assert b as int == 2 * ((b >> 1) as int) + (b & 1) as int;
    assert (b >> 1) & 0x7f == b >> 1;
  }

  lemma IReadIs(control: byte, data: seq<byte>, pos: nat, ext: bool)
    requires pos <= |data|
    ensures IRead(ReadIFrame(control, data, pos, ext), control as int, data[pos..], ext)
  {
    if ext { IReadLong(control, data, pos); } else { IReadShort(control, data, pos); }
  }

  lemma IReadShort(control: byte, data: seq<byte>, pos: nat)
    requires pos <= |data|
    ensures IRead(ReadIFrame(control, data, pos, false), control as int, data[pos..], false)
  {
    hide Bits3, Bits7;
    assert pos < |data| ==> data[pos..][1..] == data[pos + 1..];
    TopThree(control);
    MiddleThree(control);
    PollBit(control);
  }

  lemma IReadLong(control: byte, data: seq<byte>, pos: nat)
    requires pos <= |data|
    ensures IRead(ReadIFrame(control, data, pos, true), control as int, data[pos..], true)
  {
    hide Bits3, Bits7;
    TopSeven(control);
    if pos + 2 <= |data| {
      assert data[pos..][2..] == data[pos + 2..];
      TopSeven(data[pos]);
    }
  }

  lemma SReadIs(control: byte)
    ensures SRead(ReadSFrame(control), control as int / 4 % 4, control as int / 32, control as int / 16 % 2 == 1)
  {
    hide Bits3;
    TopThree(control);
    PollBit(control);
    Kinds(control);
  }

  lemma Kinds(b: byte)
    ensures (b & 0x0c == 0) == (b as int / 4 % 4 == 0) && (b & 0x0c == 4) == (b as int / 4 % 4 == 1)
    ensures (b & 0x0c == 8) == (b as int / 4 % 4 == 2)
  {
    assert b as int == 4 * ((b >> 2) as int) + (b & 3) as int;
    assert (b >> 2) as int == 4 * ((b >> 4) as int) + ((b >> 2) & 3) as int;
    assert b & 0x0c == ((b >> 2) & 3) << 2;
  }

  lemma UReadIs(control: byte, data: seq<byte>, pos: nat)
    requires pos <= |data|
    ensures var c := control as int;
            URead(ReadUFrame(control, data, pos), c - 16 * (c / 16 % 2), c / 16 % 2 == 1, data[pos..])
  {
    var rest := data[pos..];
    assert |rest| >= 1 ==> rest[0] == data[pos] && rest[1..] == data[pos + 1..];
    PollBit(control);
    WithoutPoll(control);
  }

  lemma WithoutPoll(b: byte)
    ensures (b & 0xef) as int == b as int - 16 * (b as int / 16 % 2)
  {
    PollBit(b);
    assert b & 0xef == if b & 0x10 != 0 then b - 16 else b;
  }

  // ---------------------------------------------------------------------------------------------
  // Whole packets

  /** A callsign of which v is the SSID. */
  predicate HasSsid(s: string, v: nat) {
    v <= 15 && exists n | 0 <= n <= |s| :: Spells(s, n, v)
  }

  lemma LastOctet(s: string, v: nat, lowbit: bool, highbit: bool, rbitExt: bool)
    requires HasSsid(s, v)
    ensures CallOk(s)
    ensures CallOctets(s, lowbit, highbit, rbitExt, false)[6] as int
         == 128 * One(highbit) + 64 * One(!rbitExt) + 32 + 2 * v + One(lowbit)
  {
    hide CallOctets, Spells;
    var n: nat :| n <= |s| && Spells(s, n, v);
    CallOctetsAre(s, n, v, lowbit, highbit, rbitExt, false);
  }

  /** Main result: where the bits around the callsigns of a packet are. The C bits are the top bits of the
      two SSID octets, modulo 128 shows in the source address, and the end mark is on the last address. */
  lemma AddressBits(p: Packet, dst: nat, src: nat)
    requires Serializable(p) && HasSsid(p.dst, dst) && HasSsid(p.src, src)
    ensures var o := Encoded(p, false);
            && |o| == 14 + 7 * |p.repeater| + |FrameOctets(p.frame, p.rrExtseq)|
            && o[6] as int == 128 * One(p.commandResponse) + 64 * One(!p.rrDst1) + 32 + 2 * dst
            && o[13] as int == 128 * One(p.commandResponseLa) + 64 * One(!p.rrExtseq) + 32 + 2 * src + One(p.repeater == [])
            && o[14 + 7 * |p.repeater|..] == FrameOctets(p.frame, p.rrExtseq)
  {
    hide CallOctets, FrameOctets, Body, CheckBytes, HasSsid, CallOk;
    BodyParts(p);
    var o := Body(p);
    LastOctet(p.dst, dst, false, p.commandResponse, p.rrDst1);
    LastOctet(p.src, src, p.repeater == [], p.commandResponseLa, p.rrExtseq);
    assert o[6] == o[0..7][6] && o[13] == o[7..14][6];
  }

  /** The same for a digipeater, whose top bit says that it has repeated the packet. */
  lemma RepeaterBits(p: Packet, i: nat, v: nat)
    requires Serializable(p) && i < |p.repeater| && HasSsid(p.repeater[i].address, v)
    ensures |Encoded(p, false)| >= 21 + 7 * i
    ensures Encoded(p, false)[20 + 7 * i] as int
         == 128 * One(p.repeater[i].hasBeenRepeated) + 96 + 2 * v + One(i == |p.repeater| - 1)
  {
    hide CallOctets, Body, CheckBytes, HasSsid, CallOk;
    BodyParts(p);
    var o, rs := Body(p), p.repeater;
    RepeaterAt(rs, 0, i);
    LastOctet(rs[i].address, v, i == |rs| - 1, rs[i].hasBeenRepeated, false);
    var all := RepeaterOctets(rs, 0);
    assert all[7 * i + 6] == all[7 * i..7 * i + 7][6];
    assert o[14 + (7 * i + 6)] == o[14..14 + 7 * |rs|][7 * i + 6];
  }

  /** What parse makes of a packet without digipeaters, from its octets. */
  lemma ParsedIs(data: seq<byte>)
    requires |data| >= 15
    requires ReadCall(data[0..7]).Ok? && ReadCall(data[7..14]).Ok?
    requires data[13] as int % 2 == 1
    ensures var r, f := Parsed(data, false), ReadFrame(data, 14, data[13] as int / 64 % 2 == 0);
            if data[6] as int % 2 == 1 then r == Err(DstMarkedDone)
            else if f.Err? then r == Err(f.error)
            else
              r == Ok(Packet(ReadCall(data[0..7]).value.call, ReadCall(data[7..14]).value.call, [], 0, f.value,
                             data[13] as int / 64 % 2 == 0, data[6] as int >= 128, data[13] as int >= 128, false))
  {
    hide ReadCall, ReadFrame;
    ReadCallIs(data[0..7]);
    ReadCallIs(data[7..14]);
  }

  /** The order of the errors: length, check bytes, destination, its end mark, source. */
  lemma ParsedFails(data: seq<byte>, fcs: bool)
    ensures |data| < 15 ==> Parsed(data, fcs) == Err(PacketTooSmall)
    ensures |data| >= 15 && fcs ==>
              var body := data[..|data| - 2];
              if (data[|data| - 2], data[|data| - 1]) != CheckBytes(body) then Parsed(data, fcs) == Err(CrcError)
              else Parsed(data, fcs) == ReadPacket(body, data[|data| - 2] as int + 256 * data[|data| - 1] as int)
    ensures |data| >= 15 && !fcs ==>
              && (ReadCall(data[0..7]).Err? ==> Parsed(data, fcs) == Err(ReadCall(data[0..7]).error))
              && (ReadCall(data[0..7]).Ok? && data[6] as int % 2 == 1 ==> Parsed(data, fcs) == Err(DstMarkedDone))
              && (ReadCall(data[0..7]).Ok? && data[6] as int % 2 == 0 && ReadCall(data[7..14]).Err? ==>
                    Parsed(data, fcs) == Err(ReadCall(data[7..14]).error))
  {
    hide ReadCall, CheckBytes;
    if |data| >= 15 {
      ReadCallIs(data[0..7]);
      if fcs {
        hide ReadPacket, Accepts;
        var n := |data| - 2;
        assert data == data[..n] + [data[n], data[n + 1]];
        AcceptsIffCheckBytes(data[..n], data[n], data[n + 1]);
      }
    }
  }
}
