/** What one event does to the receiver: against any peer at all, payloads are delivered in sequence
    and V(R) counts them. */
module Receiving {
  import opened Bytes
  import opened Packets
  import opened Modular
  import opened Link
  import opened LinkInvariants
  import opened Discipline
  import opened Windows
  import opened Steps

  /** An I frame whose payload is delivered: a command, no longer than n1, with an N(R) in range and
      the N(S) that is next. */
  predicate Delivers(c: Conn, e: Event) {
    InData(c) && IsHeard(c, e) && e.p.frame.ns == c.vr
  }

  predicate SameNames(c: Conn, d: Conn) {
    d.src == c.src && d.dst == c.dst && d.modulus == c.modulus && d.n1 == c.n1
  }

  predicate SameReceiver(c: Conn, d: Conn) {
    d.delivered == c.delivered && d.vr == c.vr && SameNames(c, d)
  }

  /** The events that give a connection its addresses. */
  predicate Names(c: Conn, e: Event) {
    || (e.DlConnect? && (c.st == Disconnected || c.st == Connected))
    || (e.Receive? && (e.p.frame.Sabm? || e.p.frame.Sabme?) && c.st == Disconnected)
  }

  /** Source, destination and modulus after an event. */
  function Named(c: Conn, e: Event): (string, string, int) {
    if !Names(c, e) then (c.src, c.dst, c.modulus)
    else match e
      case DlConnect(dst, src) => (src, dst, if c.st == Disconnected then 8 else c.modulus)
      case Receive(p) => (p.dst, p.src, if p.frame.Sabm? then 8 else 128)
  }

  lemma SabmReceives(c: Conn, p: Packet)
    requires p.frame.Sabm? || p.frame.Sabme?
    ensures var d, e := OnSabm(c, p), Receive(p);
            && d.delivered == c.delivered && d.n1 == c.n1 && (d.src, d.dst, d.modulus) == Named(c, e)
            && d.vr == (if Resets(c, e) then 0 else c.vr)
            && (if Resets(c, e) then d.st == Connected && d.vs == d.va == 0 else d == c)
  {
    hide OnSabmDisconnected, OnSabmConnected;
    SabmBegins(c, p);
  }

  lemma SabmBegins(c: Conn, p: Packet)
    requires p.frame.Sabm? || p.frame.Sabme?
    ensures var d := OnSabmDisconnected(c, p);
            && d.delivered == c.delivered && d.n1 == c.n1 && d.vr == d.vs == d.va == 0 && d.st == Connected
            && d.src == p.dst && d.dst == p.src && d.modulus == (if p.frame.Sabm? then 8 else 128)
    ensures var d := OnSabmConnected(c, p);
            d.delivered == c.delivered && SameNames(c, d) && d.vr == d.vs == d.va == 0 && d.st == c.st
  {
    hide Send, ClearExceptions;
    KeepsReceiver(c.(modulus := if p.frame.Sabm? then 8 else 128, n2 := 10, src := p.dst, dst := p.src),
                  Plain(Ua(p.frame.poll), false));
    KeepsReceiver(c, Plain(Ua(p.frame.poll), false));
  }

  lemma KeepsReceiver(c: Conn, p: Packet)
    ensures SameReceiver(c, Send(c, p)) && Send(c, p).st == c.st
    ensures SameReceiver(c, ClearExceptions(Send(c, p))) && ClearExceptions(Send(c, p)).st == c.st
  {}

  lemma UaReceives(c: Conn, p: Packet, clock: Clock)
    requires p.frame.Ua?
    ensures var d, e := OnUa(c, p, clock), Receive(p);
            && d.delivered == c.delivered && SameNames(c, d) && d.vr == (if Resets(c, e) then 0 else c.vr)
            && (InData(d) ==> Resets(c, e))
            && (Resets(c, e) ==> d.st == Connected && d.vs == d.va == 0)
  {
    hide OnUaAwaiting, Reestablish;
    UaBegins(c, clock);
    ReestablishReceives(c);
    AckStays(c, 0, clock);
  }

  lemma UaBegins(c: Conn, clock: Clock)
    ensures var d := OnUaAwaiting(c, clock);
            d.delivered == c.delivered && SameNames(c, d) && d.vr == d.vs == d.va == 0 && d.st == Connected
  {
    hide NewSrt, NewPeriod;
  }

  lemma UiReceives(c: Conn, p: Packet)
    requires p.frame.Ui?
    ensures SameReceiver(c, OnUi(c, p)) && OnUi(c, p).st == c.st
  {
    hide Send, EnquiryResponse;
    KeepsReceiver(c, Plain(Dm(true), false));
    EnquiryReceives(c);
    EnquiryStays(c);
  }

  lemma EndReceives(c: Conn, p: Packet)
    ensures SameReceiver(c, OnDm(c)) && (InData(OnDm(c)) ==> InData(c))
    ensures p.frame.Disc? ==>
              SameReceiver(c, OnDisc(c, p)) && (InData(OnDisc(c, p)) ==> InData(c))
  {
    hide Send;
    if p.frame.Disc? {
      KeepsReceiver(c, Plain(Dm(p.frame.poll), false));
      KeepsReceiver(ClearQueues(c), Plain(Ua(p.frame.poll), false));
    }
  }

  lemma AckReceives(c: Conn, nr: int, clock: Clock)
    ensures SameReceiver(c, UpdateAck(c, nr)) && SameReceiver(c, CheckIframeAcked(c, nr, clock))
    ensures UpdateAck(c, nr).ownReceiverBusy == c.ownReceiverBusy
    ensures CheckIframeAcked(c, nr, clock).ownReceiverBusy == c.ownReceiverBusy
  {
    hide UpdateAck, SelectT1;
    UpdateReceives(c, nr);
    SelectReceives(StartT3(StopT1(UpdateAck(c, nr))), clock);
  }

  lemma UpdateReceives(c: Conn, nr: int)
    ensures SameReceiver(c, UpdateAck(c, nr)) && UpdateAck(c, nr).ownReceiverBusy == c.ownReceiverBusy
  {
    hide Drop, Dist;
  }

  lemma SelectReceives(c: Conn, clock: Clock)
    ensures SameReceiver(c, SelectT1(c, clock)) && SelectT1(c, clock).ownReceiverBusy == c.ownReceiverBusy
  {
    hide NewSrt, NewPeriod;
  }

  lemma ReestablishReceives(c: Conn)
    ensures SameReceiver(c, Reestablish(c))
  {}

  lemma RetransmissionReceives(c: Conn, nr: int)
    ensures SameReceiver(c, InvokeRetransmission(c, nr))
  {}

  lemma RrReceives(c: Conn, nr: int, poll: bool, command: bool, clock: Clock)
    ensures var d := OnRrConnected(c, nr, poll, command, clock); SameReceiver(c, d)
    ensures var d := OnRrRecovery(c, nr, poll, command, clock); SameReceiver(c, d)
  {
    hide InRange, UpdateAck, CheckIframeAcked, Reestablish, InvokeRetransmission, EnquiryResponse, OnFinal;
    var free := c.(peerReceiverBusy := false);
    EnquiryReceives(free);
    AckReceives(free, nr, clock);
    AckReceives(EnquiryResponse(free, true), nr, clock);
    ReestablishReceives(free);
    ReestablishReceives(EnquiryResponse(free, true));
    FinalReceives(free, nr, clock);
  }

  lemma EnquiryReceives(c: Conn)
    ensures SameReceiver(c, EnquiryResponse(c, true))
  {}

  lemma FinalReceives(c: Conn, nr: int, clock: Clock)
    ensures var d := OnFinal(c, nr, clock); SameReceiver(c, d)
  {
    hide InRange, UpdateAck, Reestablish, InvokeRetransmission, NewSrt, NewPeriod;
    var measured := SelectT1(StopT1(c), clock);
    AckReceives(measured, nr, clock);
    ReestablishReceives(measured);
    RetransmissionReceives(UpdateAck(measured, nr), nr);
  }

  lemma AcceptReceives(c: Conn, ns: int, poll: bool, payload: Payload)
    requires !c.ownReceiverBusy
    ensures var d := AcceptIframe(c, ns, poll, payload);
            && d.delivered == (if ns == c.vr then c.delivered + [payload] else c.delivered)
            && d.vr == (if ns == c.vr then Mod(c.vr + 1, c.modulus) else c.vr)
            && SameNames(c, d)
  {
    hide Answer, Answers, Mod;
  }

  lemma IframeReceives(c: Conn, p: Packet, clock: Clock)
    requires p.frame.IFrame? && !c.ownReceiverBusy
    ensures var d := OnIframe(c, p, clock);
            && d.delivered == (if Delivers(c, Receive(p)) then c.delivered + [p.frame.payload] else c.delivered)
            && d.vr == (if Delivers(c, Receive(p)) then Mod(c.vr + 1, c.modulus) else c.vr)
            && SameNames(c, d)
  {
    hide InRange, UpdateAck, CheckIframeAcked, Reestablish, AcceptIframe, Mod;
    var f := p.frame;
    AckReceives(c, f.nr, clock);
    ReestablishReceives(c);
    AcceptReceives(if c.st == Connected then CheckIframeAcked(c, f.nr, clock) else UpdateAck(c, f.nr), f.ns, f.poll, f.payload);
  }

  lemma ConnectReceives(c: Conn, dst: string, src: string)
    ensures var d := OnDlConnect(c, dst, src);
            && d.delivered == c.delivered && d.vr == c.vr && d.n1 == c.n1 && (InData(d) ==> d == c)
            && (d.src, d.dst, d.modulus) == Named(c, DlConnect(dst, src))
  {
    hide Establish;
    EstablishReceives(c.(modulus := 8, src := src, dst := dst, srt := 3000.0, t1v := 6000, t1 := c.t1.(ms := 6000)));
    EstablishReceives(ClearQueues(c.(src := src, dst := dst)));
  }

  lemma EstablishReceives(c: Conn)
    ensures SameReceiver(c, Establish(c))
  {}

  lemma DataReceives(c: Conn, payload: Payload)
    ensures var d := OnDlData(c, payload); SameReceiver(c, d) && d.st == c.st
  {}

  lemma DisconnectReceives(c: Conn)
    ensures var d := OnDlDisconnect(c); SameReceiver(c, d) && (InData(d) ==> InData(c))
  {}

  lemma T1Receives(c: Conn, clock: Clock)
    ensures var d := OnT1(StopT1(c), clock); SameReceiver(c, d) && (InData(d) ==> InData(c))
  {
    hide OnT1Connected, OnT1Recovery, OnT1Awaiting;
    T1AwaitingReceives(StopT1(c), clock);
    T1DataReceives(StopT1(c));
  }

  lemma T1AwaitingReceives(c: Conn, clock: Clock)
    ensures var d := OnT1Awaiting(c, clock);
            SameReceiver(c, d) && (c.st == AwaitingConnection ==> !InData(d))
  {
    hide NewSrt, NewPeriod, Send;
    KeepsReceiver(c.(rc := c.rc + 1), Plain(Sabm(true), false));
  }

  lemma T1DataReceives(c: Conn)
    ensures SameReceiver(c, OnT1Connected(c))
    ensures SameReceiver(c, OnT1Recovery(c))
  {
    hide TransmitEnquiry;
    TransmitReceives(c.(rc := 1));
    TransmitReceives(c.(rc := c.rc + 1));
  }

  lemma TransmitReceives(c: Conn)
    ensures SameReceiver(c, TransmitEnquiry(c))
  {}

  lemma PacketReceives(c: Conn, p: Packet, clock: Clock)
    requires Handled(p.frame) && !c.ownReceiverBusy
    ensures var d, e := OnPacket(c, p, clock), Receive(p);
            && d.delivered == (if Delivers(c, e) then c.delivered + [p.frame.payload] else c.delivered)
            && d.vr == (if Resets(c, e) then 0 else if Delivers(c, e) then Mod(c.vr + 1, c.modulus) else c.vr)
            && d.n1 == c.n1 && (d.src, d.dst, d.modulus) == Named(c, e)
            && (InData(d) && !Resets(c, e) ==> d.modulus == c.modulus && InData(c))
            && (Resets(c, e) ==> d.st == Connected && d.vs == d.va == 0)
  {
    hide OnSabm, OnUa, OnUi, OnDm, OnDisc, OnRrConnected, OnRrRecovery, OnIframe, Mod;
    match p.frame
    case Sabm(_) => SabmReceives(c, p);
    case Sabme(_) => SabmReceives(c, p);
    case Ui(_, _, _) => UiReceives(c, p);
    case Ua(_) => UaReceives(c, p, clock);
    case Rr(nr, poll) => RrReceives(c, nr, poll, p.commandResponse, clock);
    case IFrame(_, _, _, _, _, _) =>
      IframeReceives(c, p, clock);
      if !InData(c) { IframeNeedsData(c, p, clock); }
    case Dm(_) => EndReceives(c, p);
    case Disc(_) => EndReceives(c, p);
  }

  lemma IframeNeedsData(c: Conn, p: Packet, clock: Clock)
    requires p.frame.IFrame? && !InData(c)
    ensures OnIframe(c, p, clock) == c
  {}

  /** Main result for the receiver: a payload is delivered exactly for an I frame that is next in
      sequence, V(R) moves exactly then, only the three ways to begin a session lead into a data state,
      and only connecting changes the addresses and the modulus. */
  lemma StepReceives(c: Conn, e: Event, clock: Clock)
    requires !c.ownReceiverBusy
    ensures var d := Step(c, e, clock);
            && d.delivered == (if Delivers(c, e) then c.delivered + [e.p.frame.payload] else c.delivered)
            && d.vr == (if Resets(c, e) then 0 else if Delivers(c, e) then Mod(c.vr + 1, c.modulus) else c.vr)
            && d.n1 == c.n1 && (d.src, d.dst, d.modulus) == Named(c, e)
            && (InData(d) && !Resets(c, e) ==> d.modulus == c.modulus && InData(c))
            && (Resets(c, e) ==> d.st == Connected)
  {
    hide Poll, OnPacket, OnDlConnect, OnDlData, OnDlDisconnect, OnT1, Mod;
    if Enabled(c, e) {
      var mid := Handle(c, e, clock);
      PollReceives(mid);
      match e
      case Receive(p) => PacketReceives(c, p, clock);
      case DlConnect(dst, src) => ConnectReceives(c, dst, src);
      case DlData(payload) => DataReceives(c, payload);
      case DlDisconnect => DisconnectReceives(c);
      case T1Expires => T1Receives(c, clock);
      case T3Expires =>
    }
  }

  lemma PollReceives(c: Conn)
    ensures SameReceiver(c, Poll(c)) && Poll(c).st == c.st && Poll(c).resend == c.resend
  {
    hide Mod, Burst, PollCount;
  }
}
