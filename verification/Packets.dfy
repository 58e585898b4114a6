/** The packet messages of proto/ax25.proto, and outcomes of operations that can fail. */
module Packets {
  import opened Bytes

  datatype Repeater = Repeater(address: string, hasBeenRepeated: bool)

  /** The frame_type of a packet; NoFrame when none is set. */
  datatype Frame =
    | NoFrame
    | Sabme(poll: bool)
    | Sabm(poll: bool)
    | Disc(poll: bool)
    | Dm(poll: bool)
    | Ua(poll: bool)
    | Frmr(poll: bool)
    | Ui(pid: int, push: int, payload: seq<byte>)
    | Xid(poll: bool)
    | Test(testPush: bool, info: seq<byte>)
    | IFrame(nr: int, ns: int, poll: bool, extended: bool, pid: int, payload: seq<byte>)
    | Rr(nr: int, poll: bool)
    | Rnr(nr: int, poll: bool)
    | Rej(nr: int, poll: bool)
    | Srej(nr: int, poll: bool)

  datatype Packet = Packet(
    dst: string,
    src: string,
    repeater: seq<Repeater>,
    fcs: int,
    frame: Frame,
    rrExtseq: bool,           // sequence numbers modulo 128
    commandResponse: bool,    // C bit of the destination address
    commandResponseLa: bool,  // C bit of the source address
    rrDst1: bool)

  /** Error statuses and exceptions of the codec. */
  datatype Error =
    | InvalidCall
    | SsidTooHigh
    | PacketTooSmall
    | CrcError
    | CallMsbSet
    | DstMarkedDone
    | OutOfRange
    | Unimplemented
    | UnknownUFrame

  datatype Result<+T> = Ok(value: T) | Err(error: Error)
}
