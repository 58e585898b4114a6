/** What each event does to a connection: the specification of the AX.25 connected-mode machine of
    src/seqpacket_con.cc.  Module Connections holds the machine itself.

    A `Conn` is the state of one Connection with everything it has sent and delivered so far.  An event
    is handled by the current state, and then the send queue is drained (`Step`). */
module Link {
  import opened Bytes
  import opened Packets
  import opened Modular

  datatype State = Disconnected | AwaitingConnection | AwaitingRelease | Connected | TimerRecovery

  datatype TimerView = TimerView(running: bool, ms: int)

  datatype Conn = Conn(
    st: State,
    src: string,
    dst: string,
    modulus: int,
    layer3Initiated: bool,
    peerReceiverBusy: bool,
    ownReceiverBusy: bool,
    rejectException: bool,
    acknowledgePending: bool,
    srt: real,                      // smoothed round-trip time, ms
    t1v: int,
    n1: nat,
    n2: int,
    t1: TimerView,                  // outstanding I frame or P bit
    t3: TimerView,                  // idle supervision
    rc: int,                        // retries
    k: int,                         // window
    vs: int,
    va: int,
    vr: int,
    srejEnabled: bool,
    srejectException: int,
    queue: seq<seq<byte>>,          // payloads not sent yet
    resend: seq<seq<byte>>,         // payloads not acknowledged yet, sent or not
    sent: seq<Packet>,              // what the send callback got
    delivered: seq<seq<byte>>)      // what the receive callback got

  /** The clock as an event finds it: T1's remaining time as its last stop measured it, and whether
      T1's deadline has passed. */
  datatype Clock = Clock(left: int, overdue: bool)

  datatype Event =
    | Receive(p: Packet)
    | DlConnect(dst: string, src: string)
    | DlData(payload: seq<byte>)
    | DlDisconnect
    | T1Expires
    | T3Expires

  predicate InData(c: Conn) {
    c.st == Connected || c.st == TimerRecovery
  }

  /** The number of I frames sent and not acknowledged. */
  function Outstanding(c: Conn): int {
    Dist(c.va, c.vs, c.modulus)
  }

  /** N(R) names a frame from V(A) up to V(S). */
  predicate InRange(va: int, nr: int, vs: int, m: int) {
    0 <= nr < m && Dist(va, nr, m) <= Dist(va, vs, m)
  }

  // ---------------------------------------------------------------------------------------------
  // Senders

  function Plain(frame: Frame, command: bool): Packet {
    Packet("", "", [], 0, frame, false, command, false, false)
  }

  function Addressed(c: Conn, p: Packet): Packet {
    p.(commandResponseLa := !p.commandResponse, src := c.src, dst := c.dst)
  }

  function Send(c: Conn, p: Packet): Conn {
    c.(sent := c.sent + [Addressed(c, p)])
  }

  /** An RR, or an RNR when this end is busy. */
  function SendStatus(c: Conn, pf: bool, command: bool): Conn {
    Send(c, if c.ownReceiverBusy then Plain(Rnr(c.vr, pf), true) else Plain(Rr(c.vr, pf), command))
  }

  // ---------------------------------------------------------------------------------------------
  // Subroutines

  function StartT1(c: Conn): Conn {
    c.(t1 := c.t1.(running := true))
  }

  function StopT1(c: Conn): Conn {
    c.(t1 := c.t1.(running := false))
  }

  function StartT3(c: Conn): Conn {
    c.(t3 := c.t3.(running := true))
  }

  function StopT3(c: Conn): Conn {
    c.(t3 := c.t3.(running := false))
  }

  function ClearQueues(c: Conn): Conn {
    c.(queue := [], resend := [])
  }

  function ClearExceptions(c: Conn): Conn {
    c.(peerReceiverBusy := false, rejectException := false, ownReceiverBusy := false, acknowledgePending := false)
  }

  function Establish(c: Conn): Conn {
    StartT1(StopT3(Send(ClearExceptions(c).(rc := 0), Plain(Sabm(true), false))))
  }

  /** Every failure in a data state asks for a new link without the layer above. */
  function Reestablish(c: Conn): Conn {
    Establish(c).(layer3Initiated := false, st := AwaitingConnection)
  }

  function TransmitEnquiry(c: Conn): Conn {
    StartT1(SendStatus(c, true, true).(acknowledgePending := false))
  }

  function EnquiryResponse(c: Conn, f: bool): Conn {
    SendStatus(c, f, false).(acknowledgePending := false)
  }

  /** All unacknowledged payloads are queued again, from the one that N(R) asks for. */
  function InvokeRetransmission(c: Conn, nr: int): Conn {
    c.(vs := nr, queue := c.resend)
  }

  function Drop<T>(s: seq<T>, n: nat): seq<T> {
    if n <= |s| then s[n..] else []
  }

  function UpdateAck(c: Conn, nr: int): Conn {
    c.(va := nr, resend := Drop(c.resend, if c.modulus > 0 then Dist(c.va, nr, c.modulus) else 0))
  }

  function Trunc(x: real): int {
    if x >= 0.0 then x.Floor else -((-x).Floor)
  }

  function Clamp(x: int): (r: int)
    ensures 100 <= r <= 10000
  {
    if x < 100 then 100 else if x > 10000 then 10000 else x
  }

  /** x doubled n times, the (2 << rc) * srt of the program for n = rc + 1. */
  function Doubled(n: nat, x: real): real {
    if n == 0 then x else Doubled(n - 1, 2.0 * x)
  }

  function Elapsed(c: Conn, clock: Clock): int {
    c.t1.ms - if clock.left > 0 then clock.left else 0
  }

  function NewSrt(c: Conn, clock: Clock): real {
    if c.rc == 0 then Clamp(Trunc(7.0 / 8.0 * c.srt + 1.0 / 8.0 * (Elapsed(c, clock) as real))) as real else c.srt
  }

  function NewPeriod(c: Conn, clock: Clock): int {
    if c.rc == 0 then Clamp(Trunc(NewSrt(c, clock) * 2.0))
    else if c.t1.running && clock.overdue then Clamp(Trunc(Doubled((if c.rc < 0 then 0 else c.rc) + 1, c.srt)))
    else c.t1.ms
  }

  function SelectT1(c: Conn, clock: Clock): Conn {
    c.(srt := NewSrt(c, clock), t1 := c.t1.(ms := NewPeriod(c, clock)))
  }

  function CheckIframeAcked(c: Conn, nr: int, clock: Clock): Conn {
    if c.peerReceiverBusy then StartT1(StartT3(UpdateAck(c, nr)))
    else if nr == c.vs then SelectT1(StartT3(StopT1(UpdateAck(c, nr))), clock)
    else if nr != c.va then StartT1(UpdateAck(c, nr))
    else c
  }

  // ---------------------------------------------------------------------------------------------
  // Draining the send queue

  /** The I frame that carries the i-th payload of the queue. */
  function NthFrame(c: Conn, i: nat): Packet
    requires i < |c.queue|
  {
    var ns := Mod(c.vs + i, c.modulus);
    Addressed(c, Plain(IFrame(c.vr, ns, ns == Mod(c.va + c.k + c.modulus - 1, c.modulus), false, 0xf0, c.queue[i]), true))
  }

  function Burst(c: Conn, n: nat): (frames: seq<Packet>)
    requires n <= |c.queue|
    ensures |frames| == n
    ensures forall i :: 0 <= i < n ==> frames[i] == NthFrame(c, i)
  {
    seq(n, i requires 0 <= i < n => NthFrame(c, i))
  }

  /** How many frames the window and a busy peer let out. */
  function PollCount(c: Conn): (n: nat)
    ensures n <= |c.queue|
  {
    var room := c.k - Outstanding(c);
    if c.peerReceiverBusy || room < 0 then 0 else if |c.queue| < room then |c.queue| else room
  }

  /** The connection after sending the first n queued payloads; T1 takes over from T3 if it has to. */
  function Sending(c: Conn, n: nat): Conn
    requires n <= |c.queue|
  {
    c.(queue := c.queue[n..],
       vs := if n == 0 then c.vs else Mod(c.vs + n, c.modulus),
       sent := c.sent + Burst(c, n),
       t1 := TimerView(c.t1.running || n > 0, c.t1.ms),
       t3 := TimerView(c.t3.running && (c.t1.running || n == 0), c.t3.ms))
  }

  function DataPoll(c: Conn): Conn {
    Sending(c, PollCount(c))
  }

  function Poll(c: Conn): Conn {
    if InData(c) then DataPoll(c) else c
  }

  // ---------------------------------------------------------------------------------------------
  // Packets

  function OnSabmDisconnected(c: Conn, p: Packet): Conn
    requires p.frame.Sabm? || p.frame.Sabme?
  {
    var ua := Send(c.(modulus := if p.frame.Sabm? then 8 else 128, n2 := 10, src := p.dst, dst := p.src),
                   Plain(Ua(p.frame.poll), false));
    StartT3(ClearExceptions(ua).(vs := 0, va := 0, vr := 0, srt := 3000.0, t1v := 6000, st := Connected))
  }

  function OnSabmConnected(c: Conn, p: Packet): Conn
    requires p.frame.Sabm? || p.frame.Sabme?
  {
    var ua := ClearExceptions(Send(c, Plain(Ua(p.frame.poll), false)));
    StartT3(StopT1((if c.vs != c.va then ClearQueues(ua) else ua).(vs := 0, va := 0, vr := 0)))
  }

  function OnSabm(c: Conn, p: Packet): Conn
    requires p.frame.Sabm? || p.frame.Sabme?
  {
    if c.st == Disconnected then OnSabmDisconnected(c, p)
    else if c.st == Connected && p.frame.Sabm? then OnSabmConnected(c, p)
    else c
  }

  function OnUi(c: Conn, p: Packet): Conn
    requires p.frame.Ui?
  {
    if p.frame.push == 0 then c
    else if c.st == Disconnected then Send(c, Plain(Dm(true), false))
    else if c.st == Connected then EnquiryResponse(c, true)
    else c
  }

  function OnUaAwaiting(c: Conn, clock: Clock): Conn {
    var kept := if !c.layer3Initiated && c.vs != c.va then ClearQueues(c) else c;
    SelectT1(StopT3(StopT1(kept)).(vs := 0, va := 0, vr := 0), clock).(st := Connected)
  }

  function OnUa(c: Conn, p: Packet, clock: Clock): Conn
    requires p.frame.Ua?
  {
    if c.st == AwaitingConnection && p.frame.poll then OnUaAwaiting(c, clock)
    else if InData(c) then Reestablish(c)
    else c
  }

  function OnDm(c: Conn): Conn {
    if InData(c) then StopT3(StopT1(ClearQueues(c))).(st := Disconnected) else c
  }

  function OnDisc(c: Conn, p: Packet): Conn
    requires p.frame.Disc?
  {
    if c.st == Disconnected then Send(c, Plain(Dm(p.frame.poll), false))
    else if InData(c) then StopT3(StopT1(Send(ClearQueues(c), Plain(Ua(p.frame.poll), false)))).(st := Disconnected)
    else c
  }

  function OnRrConnected(c: Conn, nr: int, poll: bool, command: bool, clock: Clock): Conn {
    var free := c.(peerReceiverBusy := false);
    var answered := if command && poll then EnquiryResponse(free, true) else free;
    if !InRange(c.va, nr, c.vs, c.modulus) then Reestablish(answered) else CheckIframeAcked(answered, nr, clock)
  }

  /** The answer with F=1 that timer recovery waits for. */
  function OnFinal(c: Conn, nr: int, clock: Clock): Conn {
    var measured := SelectT1(StopT1(c), clock);
    if !InRange(c.va, nr, c.vs, c.modulus) then Reestablish(measured)
    else
      var acked := UpdateAck(measured, nr);
      if acked.vs != acked.va then InvokeRetransmission(acked, nr) else StartT3(acked).(st := Connected)
  }

  function OnRrRecovery(c: Conn, nr: int, poll: bool, command: bool, clock: Clock): Conn {
    var free := c.(peerReceiverBusy := false);
    if !command && poll then OnFinal(free, nr, clock)
    else
      var answered := if command && poll then EnquiryResponse(free, true) else free;
      if !InRange(c.va, nr, c.vs, c.modulus) then Reestablish(answered) else UpdateAck(answered, nr)
  }

  function OnRr(c: Conn, p: Packet, clock: Clock): Conn
    requires p.frame.Rr?
  {
    if c.st == Connected then OnRrConnected(c, p.frame.nr, p.frame.poll, p.commandResponse, clock)
    else if c.st == TimerRecovery then OnRrRecovery(c, p.frame.nr, p.frame.poll, p.commandResponse, clock)
    else c
  }

  /** An I frame is taken when it is the next one and this end is not busy. */
  predicate Takes(c: Conn, ns: int) {
    !c.ownReceiverBusy && ns == c.vr
  }

  /** The S frame that answers an I frame's data half; NoFrame for none. */
  function Answer(c: Conn, ns: int, poll: bool): Frame {
    if c.ownReceiverBusy then (if poll then Rnr(c.vr, true) else NoFrame)
    else if ns == c.vr then (if poll then Rr(Mod(c.vr + 1, c.modulus), true) else NoFrame)
    else if c.rejectException then (if poll then Rr(c.vr, true) else NoFrame)
    else if !c.srejEnabled then Rej(c.vr, poll)
    else if c.srejectException > 0 then Srej(ns, false)
    else if ns != c.vr + 1 then Rej(c.vr, poll)
    else Srej(c.vr, false)
  }

  function Answers(c: Conn, f: Frame): seq<Packet> {
    if f.NoFrame? then [] else [Addressed(c, Plain(f, f.Rnr?))]
  }

  /** The data half of an I frame, after its N(R) has been used. */
  function AcceptIframe(c: Conn, ns: int, poll: bool, payload: seq<byte>): Conn {
    var f := Answer(c, ns, poll);
    c.(vr := if Takes(c, ns) then Mod(c.vr + 1, c.modulus) else c.vr,
       delivered := if Takes(c, ns) then c.delivered + [payload] else c.delivered,
       rejectException := c.rejectException || f.Rej?,
       srejectException := if f.Srej? then c.srejectException + 1 else c.srejectException,
       acknowledgePending := f.NoFrame? && (c.acknowledgePending || Takes(c, ns)),
       sent := c.sent + Answers(c, f))
  }

  function OnIframe(c: Conn, p: Packet, clock: Clock): Conn
    requires p.frame.IFrame?
  {
    var f := p.frame;
    if !InData(c) || !p.commandResponse then c
    else if |f.payload| > c.n1 then Reestablish(c)
    else if !InRange(c.va, f.nr, c.vs, c.modulus) then Reestablish(c)
    else
      var acked := if c.st == Connected then CheckIframeAcked(c, f.nr, clock) else UpdateAck(c, f.nr);
      AcceptIframe(acked, f.ns, f.poll, f.payload)
  }

  // ---------------------------------------------------------------------------------------------
  // Requests and timers

  function OnDlConnect(c: Conn, dst: string, src: string): Conn {
    if c.st == Disconnected then
      var start := c.(modulus := 8, src := src, dst := dst, srt := 3000.0, t1v := 6000, t1 := c.t1.(ms := 6000));
      Establish(start).(layer3Initiated := true, st := AwaitingConnection)
    else if c.st == Connected then
      Establish(ClearQueues(c.(src := src, dst := dst))).(layer3Initiated := true, st := AwaitingConnection)
    else c
  }

  function OnDlData(c: Conn, payload: seq<byte>): Conn {
    if InData(c) then c.(resend := c.resend + [payload], queue := c.queue + [payload]) else c
  }

  function OnDlDisconnect(c: Conn): Conn {
    if InData(c) then
      StartT1(StopT3(Send(ClearQueues(c).(rc := 0), Plain(Disc(true), false)))).(st := AwaitingRelease)
    else c
  }

  function OnT1Connected(c: Conn): Conn {
    TransmitEnquiry(c.(rc := 1)).(st := TimerRecovery)
  }

  function OnT1Recovery(c: Conn): Conn {
    if c.rc != c.n2 then TransmitEnquiry(c.(rc := c.rc + 1)) else c.(st := Disconnected)
  }

  function OnT1Awaiting(c: Conn, clock: Clock): Conn {
    if c.rc == c.n2 then ClearQueues(c).(st := Disconnected)
    else StartT1(SelectT1(Send(c.(rc := c.rc + 1), Plain(Sabm(true), false)), clock))
  }

  function OnT1(c: Conn, clock: Clock): Conn {
    match c.st
    case Connected => OnT1Connected(c)
    case TimerRecovery => OnT1Recovery(c)
    case AwaitingConnection => OnT1Awaiting(c, clock)
    case _ => c
  }

  /** A packet type without a handler in Connection is not an event. */
  predicate Handled(f: Frame) {
    f.Sabm? || f.Sabme? || f.Ui? || f.Ua? || f.Rr? || f.IFrame? || f.Dm? || f.Disc?
  }

  function OnPacket(c: Conn, p: Packet, clock: Clock): Conn
    requires Handled(p.frame)
  {
    match p.frame
    case Sabm(_) => OnSabm(c, p)
    case Sabme(_) => OnSabm(c, p)
    case Ui(_, _, _) => OnUi(c, p)
    case Ua(_) => OnUa(c, p, clock)
    case Rr(_, _) => OnRr(c, p, clock)
    case IFrame(_, _, _, _, _, _) => OnIframe(c, p, clock)
    case Dm(_) => OnDm(c)
    case Disc(_) => OnDisc(c, p)
  }

  /** A timer that has run out is stopped before its tick is handled; one that is not running does
      nothing. */
  predicate Enabled(c: Conn, e: Event) {
    match e
    case Receive(p) => Handled(p.frame)
    case T1Expires => c.t1.running
    case T3Expires => c.t3.running
    case _ => true
  }

  function Handle(c: Conn, e: Event, clock: Clock): Conn
    requires Enabled(c, e)
  {
    match e
    case Receive(p) => OnPacket(c, p, clock)
    case DlConnect(dst, src) => OnDlConnect(c, dst, src)
    case DlData(payload) => OnDlData(c, payload)
    case DlDisconnect => OnDlDisconnect(c)
    case T1Expires => OnT1(StopT1(c), clock)
    case T3Expires => StopT3(c)
  }

  function Step(c: Conn, e: Event, clock: Clock): Conn {
    if Enabled(c, e) then Poll(Handle(c, e, clock)) else c
  }

  const FRESH: Conn := Conn(
    Disconnected, "", "", 0, false, false, false, false, false, 0.0, 0, 65000, 3,
    TimerView(false, 3000), TimerView(false, 300000), 0, 7, 0, 0, 0, false, 0, [], [], [], [])

  datatype Input = Input(event: Event, clock: Clock)

  /** A whole run. */
  function Run(c: Conn, inputs: seq<Input>): Conn
    decreases |inputs|
  {
    if inputs == [] then c else Run(Step(c, inputs[0].event, inputs[0].clock), inputs[1..])
  }
}
