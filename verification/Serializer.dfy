/** Packets to octets: src/serialize.cc. */
module Serializer {
  import opened Bytes
  import opened Packets
  import opened Calls
  import opened FrameCheck

  /** serialize throws unless every address is a callsign with SSID 0 to 15. */
  predicate Serializable(p: Packet) {
    CallOk(p.dst) && CallOk(p.src) && RepeatersOk(p.repeater)
  }

  function PfBit(pf: bool): byte {
    if pf then 0x10 else 0
  }

  function LowBit(pf: bool): byte {
    if pf then 1 else 0
  }

  /** Addresses of digipeaters from number i on; the last one carries the end mark. */
  function RepeaterOctets(rs: seq<Repeater>, i: nat): seq<byte>
    requires i <= |rs| && RepeatersOk(rs)
    decreases |rs| - i
  {
    if i == |rs| then [] else
      CallOctets(rs[i].address, i == |rs| - 1, rs[i].hasBeenRepeated, false, false) + RepeaterOctets(rs, i + 1)
  }

  function AddressOctets(p: Packet): seq<byte>
    requires Serializable(p)
  {
    CallOctets(p.dst, false, p.commandResponse, p.rrDst1, false)
    + CallOctets(p.src, p.repeater == [], p.commandResponseLa, p.rrExtseq, false)
    + RepeaterOctets(p.repeater, 0)
  }

  function SOctets(base: byte, nr: int, poll: bool, ext: bool): seq<byte> {
    if !ext then [base | PfBit(poll) | ((ByteOf(nr) << 5) & 0xe0)]
    else [base, LowBit(poll) | ((ByteOf(nr) << 1) & 0xfe)]
  }

  function IOctets(nr: int, ns: int, poll: bool, ext: bool): seq<byte> {
    if !ext then [PfBit(poll) | (ByteOf(nr) << 5) | ((ByteOf(ns) << 1) & 0x0e)]
    else [(ByteOf(ns) << 1) & 0xfe, LowBit(poll) | (ByteOf(nr) << 1)]
  }

  /** Control field, protocol identifier and information field; nothing for a frame type that
      serialize does not know. */
  function FrameOctets(f: Frame, ext: bool): seq<byte> {
    match f
    case Ui(pid, push, payload) => [0x03 | PfBit(push != 0), ByteOf(pid)] + payload
    case Sabm(poll) => [0x2f | PfBit(poll)]
    case Sabme(poll) => [0x6f | PfBit(poll)]
    case Disc(poll) => [0x43 | PfBit(poll)]
    case Dm(poll) => [0x0f | PfBit(poll)]
    case Ua(poll) => [0x63 | PfBit(poll)]
    case Rr(nr, poll) => SOctets(0x01, nr, poll, ext)
    case Rej(nr, poll) => SOctets(0x09, nr, poll, ext)
    case IFrame(nr, ns, poll, _, pid, payload) => IOctets(nr, ns, poll, ext) + [ByteOf(pid)] + payload
    case _ => []
  }

  function Body(p: Packet): seq<byte>
    requires Serializable(p)
  {
    AddressOctets(p) + FrameOctets(p.frame, p.rrExtseq)
  }

  function Encoded(p: Packet, fcs: bool): seq<byte>
    requires Serializable(p)
  {
    if fcs then Body(p) + [CheckBytes(Body(p)).0, CheckBytes(Body(p)).1] else Body(p)
  }

  predicate RepeatersOk(rs: seq<Repeater>) {
    forall i :: 0 <= i < |rs| ==> CallOk(rs[i].address)
  }

  predicate RepeaterRefused(rs: seq<Repeater>, i: nat, e: Error) {
    i < |rs| && !CallOk(rs[i].address) && (forall j :: 0 <= j < i ==> CallOk(rs[j].address)) && e == CallError(rs[i].address)
  }

  /** The exception is about the first address, in the order they are written, that is no callsign. */
  predicate RefusedWith(p: Packet, e: Error) {
    if !CallOk(p.dst) then e == CallError(p.dst)
    else if !CallOk(p.src) then e == CallError(p.src)
    else exists i | 0 <= i < |p.repeater| :: RepeaterRefused(p.repeater, i, e)
  }

  method SerializeRepeaters(rs: seq<Repeater>) returns (r: Result<seq<byte>>)
    ensures r.Ok? ==> RepeatersOk(rs) && r.value == RepeaterOctets(rs, 0)
    ensures r.Err? ==> exists i | 0 <= i < |rs| :: RepeaterRefused(rs, i, r.error)
  {
    hide CallOctets, CallOk, CallError;
    var ret: seq<byte> := [];
    for i := 0 to |rs|
      invariant forall j :: 0 <= j < i ==> CallOk(rs[j].address)
      invariant RepeatersOk(rs) ==> RepeaterOctets(rs, 0) == ret + RepeaterOctets(rs, i)
    {
      var a := SerializeCall(rs[i].address, i == |rs| - 1, rs[i].hasBeenRepeated, false, false);
      if a.Err? {
        assert RepeaterRefused(rs, i, a.error);
        return a;
      }
      if RepeatersOk(rs) {
        assert ret + (a.value + RepeaterOctets(rs, i + 1)) == ret + a.value + RepeaterOctets(rs, i + 1);
      }
      ret := ret + a.value;
    }
    assert ret + [] == ret;
    return Ok(ret);
  }

  method SerializeAddresses(packet: Packet) returns (r: Result<seq<byte>>)
    ensures r.Ok? ==> Serializable(packet) && r.value == AddressOctets(packet)
    ensures r.Err? ==> RefusedWith(packet, r.error)
  {
    var a := SerializeCall(packet.dst, false, packet.commandResponse, packet.rrDst1, false);
    if a.Err? {
      return a;
    }
    var ret := a.value;
    a := SerializeCall(packet.src, packet.repeater == [], packet.commandResponseLa, packet.rrExtseq, false);
    if a.Err? {
      return a;
    }
    ret := ret + a.value;
    a := SerializeRepeaters(packet.repeater);
    if a.Err? {
      return a;
    }
    ret := ret + a.value;
    return Ok(ret);
  }

  method Serialize(packet: Packet, fcs: bool) returns (r: Result<seq<byte>>)
    ensures r.Ok? <==> Serializable(packet)
    ensures r.Ok? ==> r.value == Encoded(packet, fcs)
    ensures r.Err? ==> RefusedWith(packet, r.error)
  {
    r := SerializeAddresses(packet);
    if r.Err? {
      return;
    }
    var ret := r.value;
    var frame := SerializeFrame(packet.frame, packet.rrExtseq);
    ret := ret + frame;
    if fcs {
      var crc1, crc2 := Fcs(ret);
      assert ret + [crc1] + [crc2] == ret + [crc1, crc2];
      ret := ret + [crc1];
      ret := ret + [crc2];
    }
    return Ok(ret);
  }

  method SerializeS(base: byte, nr: int, poll: bool, ext: bool) returns (ret: seq<byte>)
    ensures ret == SOctets(base, nr, poll, ext)
  {
    if !ext {
      var control := base;
      control := control | PfBit(poll);
      control := control | ((ByteOf(nr) << 5) & 0xe0);
      ret := [control];
    } else {
      var control2 := LowBit(poll);
      control2 := control2 | ((ByteOf(nr) << 1) & 0xfe);
      ret := [base, control2];
    }
  }

  method SerializeI(nr: int, ns: int, poll: bool, ext: bool) returns (ret: seq<byte>)
    ensures ret == IOctets(nr, ns, poll, ext)
  {
    if !ext {
      var control := PfBit(poll);
      control := control | (ByteOf(nr) << 5);
      control := control | ((ByteOf(ns) << 1) & 0x0e);
      ret := [control];
    } else {
      var control1 := (ByteOf(ns) << 1) & 0xfe;
      var control2 := LowBit(poll);
      control2 := control2 | (ByteOf(nr) << 1);
      ret := [control1, control2];
    }
  }

  method SerializeFrame(f: Frame, ext: bool) returns (ret: seq<byte>)
    ensures ret == FrameOctets(f, ext)
  {
    ret := [];
    match f
    case Ui(pid, push, payload) =>
      var control: byte := 0x03;
      control := control | PfBit(push != 0);
      ret := [control];
      ret := ret + [ByteOf(pid)];
      ret := ret + payload;
    case Sabm(poll) =>
      ret := [0x2f | PfBit(poll)];
    case Sabme(poll) =>
      ret := [0x6f | PfBit(poll)];
    case Disc(poll) =>
      ret := [0x43 | PfBit(poll)];
    case Dm(poll) =>
      ret := [0x0f | PfBit(poll)];
    case Ua(poll) =>
      ret := [0x63 | PfBit(poll)];
    case Rr(nr, poll) =>
      ret := SerializeS(0x01, nr, poll, ext);
    case Rej(nr, poll) =>
      ret := SerializeS(0x09, nr, poll, ext);
    case IFrame(nr, ns, poll, _, pid, payload) =>
      ret := SerializeI(nr, ns, poll, ext);
      ret := ret + [ByteOf(pid)];
      ret := ret + payload;
    case _ =>
  }
}
