/** Octets to packets: parse of src/parse.cc.  Error statuses and exceptions are both results. */
module Parser {
  import opened Bytes
  import opened Packets
  import opened Calls
  import opened FrameCheck
  import opened Bursts

  function Piece(data: seq<byte>, pos: nat): seq<byte>
    requires pos <= |data|
  {
    if pos + 7 <= |data| then data[pos..pos + 7] else data[pos..]
  }

  datatype Path = Path(repeaters: seq<Repeater>, pos: nat)

  /** What the repeaters read so far and the rest of the path make together. */
  function Continued(seen: seq<Repeater>, r: Result<Path>): Result<Path> {
    if r.Err? then r else Ok(Path(seen + r.value.repeaters, r.value.pos))
  }

  lemma ContinuedNothing(r: Result<Path>)
    ensures Continued([], r) == r
  {
    if r.Ok? {
      assert [] + r.value.repeaters == r.value.repeaters;
    }
  }

  lemma ContinuedMore(seen: seq<Repeater>, x: Repeater, r: Result<Path>)
    ensures Continued(seen, Continued([x], r)) == Continued(seen + [x], r)
  {
    if r.Ok? {
      assert seen + ([x] + r.value.repeaters) == seen + [x] + r.value.repeaters;
    }
  }

  /** The addresses from pos on, up to the one that carries the end mark, each taken apart by `read`. */
  function ReadPath(read: seq<byte> -> Result<ParsedCall>, data: seq<byte>, pos: nat): (r: Result<Path>)
    requires pos <= |data|
    ensures r.Ok? ==> pos <= r.value.pos <= |data|
    decreases |data| - pos
  {
    var call := read(Piece(data, pos));
    if call.Err? then Err(call.error)
    else if pos + 7 > |data| then Err(OutOfRange)
    else
      Continued([Repeater(call.value.call, call.value.top)],
                if call.value.done then Ok(Path([], pos + 7)) else ReadPath(read, data, pos + 7))
  }

  function Bits3(b: byte): (n: nat)
    ensures n < 8
  {
    (b & 7) as int
  }

  function Bits7(b: byte): (n: nat)
    ensures n < 128
  {
    (b & 0x7f) as int
  }

  function ReadIFrame(control: byte, data: seq<byte>, pos: nat, ext: bool): Result<Frame>
    requires pos <= |data|
  {
    if !ext then
      if pos >= |data| then Err(OutOfRange)
      else Ok(IFrame(Bits3(control >> 5), Bits3(control >> 1), control & 0x10 != 0, false, data[pos] as int, data[pos + 1..]))
    else if pos + 1 >= |data| then Err(OutOfRange)
    else Ok(IFrame(Bits7(data[pos] >> 1), Bits7(control >> 1), data[pos] & 1 != 0, true, data[pos + 1] as int, data[pos + 2..]))
  }

  /** S frames are read as one control octet whatever the numbering. */
  function ReadSFrame(control: byte): Frame {
    var nr, poll := Bits3(control >> 5), control & 0x10 != 0;
    if control & 0x0c == 0 then Rr(nr, poll)
    else if control & 0x0c == 0x04 then Rnr(nr, poll)
    else if control & 0x0c == 0x08 then Rej(nr, poll)
    else Srej(nr, poll)
  }

  function ReadUFrame(control: byte, data: seq<byte>, pos: nat): Result<Frame>
    requires pos <= |data|
  {
    var pf := control & 0x10 != 0;
    var kind := control & 0xef;
    if kind == 0x03 then
      if pos >= |data| then Err(OutOfRange)
      else Ok(Ui(data[pos] as int, if pf then 16 else 0, data[pos + 1..]))
    else if kind == 0x6f then Ok(Sabme(pf))
    else if kind == 0x2f then Ok(Sabm(pf))
    else if kind == 0x43 then Ok(Disc(pf))
    else if kind == 0x0f then Ok(Dm(pf))
    else if kind == 0x63 then Ok(Ua(pf))
    else if kind == 0xef then Ok(Test(pf, data[pos..]))
    else if kind == 0x87 || kind == 0xaf then Err(Unimplemented)
    else Err(UnknownUFrame)
  }

  function ReadFrame(data: seq<byte>, pos: nat, ext: bool): Result<Frame>
    requires pos <= |data|
  {
    if pos >= |data| then Err(OutOfRange)
    else
      var control := data[pos];
      if control & 1 == 0 then ReadIFrame(control, data, pos + 1, ext)
      else if control & 3 == 1 then Ok(ReadSFrame(control))
      else ReadUFrame(control, data, pos + 1)
  }

  /** A packet without check bytes; `fcs` is what the packet records of them. */
  function ReadPacket(data: seq<byte>, fcs: int): Result<Packet> {
    var dst := ReadCall(Piece(data, 0));
    if dst.Err? then Err(dst.error)
    else if dst.value.done then Err(DstMarkedDone)
    else
      var src := ReadCall(Piece(data, 7));
      if src.Err? then Err(src.error)
      else
        var path := if src.value.done then Ok(Path([], 14)) else ReadPath(ReadCall, data, 14);
        if path.Err? then Err(path.error)
        else
          var frame := ReadFrame(data, path.value.pos, !src.value.rr1);
          if frame.Err? then Err(frame.error)
          else Ok(Packet(dst.value.call, src.value.call, path.value.repeaters, fcs, frame.value, !src.value.rr1,
                         dst.value.top, src.value.top, false))
  }

  function Parsed(fulldata: seq<byte>, fcs: bool): Result<Packet> {
    if |fulldata| < 15 then Err(PacketTooSmall)
    else if !fcs then ReadPacket(fulldata, 0)
    else if !Accepts(fulldata) then Err(CrcError)
    else ReadPacket(fulldata[..|fulldata| - 2], Trailer(fulldata))
  }

  method ParseFrame(data: seq<byte>, start: nat, ext: bool) returns (r: Result<Frame>)
    requires start <= |data|
    ensures r == ReadFrame(data, start, ext)
  {
    var pos := start;
    if pos >= |data| {
      return Err(OutOfRange);
    }
    var control := data[pos];
    pos := pos + 1;
    if control & 1 == 0 {
      var nr, ns, poll;
      if !ext {
        nr, poll, ns := Bits3(control >> 5), control & 0x10 != 0, Bits3(control >> 1);
      } else {
        if pos >= |data| {
          return Err(OutOfRange);
        }
        var econtrol := data[pos];
        pos := pos + 1;
        nr, poll, ns := Bits7(econtrol >> 1), econtrol & 1 != 0, Bits7(control >> 1);
      }
      if pos >= |data| {
        return Err(OutOfRange);
      }
      var pid := data[pos] as int;
      pos := pos + 1;
      return Ok(IFrame(nr, ns, poll, ext, pid, data[pos..]));
    }
    if control & 3 == 1 {
      return Ok(ReadSFrame(control));
    }
    r := ReadUFrame(control, data, pos);
  }

  method Parse(fulldata: seq<byte>, fcs: bool) returns (r: Result<Packet>)
    ensures r == Parsed(fulldata, fcs)
  {
    if |fulldata| < 15 {
      return Err(PacketTooSmall);
    }
    var data := fulldata;
    var recorded := 0;
    if fcs {
      var data2, crc16, crcok := CheckFcs(fulldata);
      if !crcok {
        return Err(CrcError);
      }
      data := data2;
      recorded := crc16;
    }
    var pos := 0;
    var dst := ParseCall(Piece(data, pos));
    if dst.Err? {
      return Err(dst.error);
    }
    pos := pos + 7;
    if dst.value.done {
      return Err(DstMarkedDone);
    }
    var src := ParseCall(Piece(data, pos));
    if src.Err? {
      return Err(src.error);
    }
    pos := pos + 7;
    var path := ParsePath(data, pos, src.value.done);
    if path.Err? {
      return Err(path.error);
    }
    var frame := ParseFrame(data, path.value.pos, !src.value.rr1);
    if frame.Err? {
      return Err(frame.error);
    }
    return Ok(Packet(dst.value.call, src.value.call, path.value.repeaters, recorded, frame.value, !src.value.rr1,
                     dst.value.top, src.value.top, false));
  }

  method ParsePath(data: seq<byte>, start: nat, already: bool) returns (r: Result<Path>)
    requires start <= |data|
    ensures r == if already then Ok(Path([], start)) else ReadPath(ReadCall, data, start)
  {
    var pos := start;
    var done := already;
    var repeaters: seq<Repeater> := [];
    ghost var whole := if already then Ok(Path([], start)) else ReadPath(ReadCall, data, start);
    ContinuedNothing(whole);
    while !done
      invariant start <= pos <= |data|
      invariant whole == Continued(repeaters, if done then Ok(Path([], pos)) else ReadPath(ReadCall, data, pos))
      decreases |data| - pos, !done
    {
      var digi := ParseCall(Piece(data, pos));
      if digi.Err? {
        return Err(digi.error);
      }
      done := digi.value.done;
      ghost var rest := if done then Ok(Path([], pos + 7)) else ReadPath(ReadCall, data, pos + 7);
      ContinuedMore(repeaters, Repeater(digi.value.call, digi.value.top), rest);
      repeaters := repeaters + [Repeater(digi.value.call, digi.value.top)];
      pos := pos + 7;
    }
    assert repeaters + [] == repeaters;
    return Ok(Path(repeaters, pos));
  }
}
