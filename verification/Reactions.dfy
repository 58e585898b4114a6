/** The connection as a decision table.  For every state and event: which control frames go out, which
    state follows, and what becomes of retries and flags, without the handlers of module Link.
    `StepReacts` says that every event does just that. */
module Reactions {
  import opened Bytes
  import opened Packets
  import opened Modular
  import opened Link
  import opened LinkInvariants
  import opened Discipline
  import opened Windows
  import opened Steps

  // ---------------------------------------------------------------------------------------------
  // The table

  function Response(c: Conn, f: Frame): Packet {
    Packet(c.dst, c.src, [], 0, f, false, false, true, false)
  }

  function Command(c: Conn, f: Frame): Packet {
    Packet(c.dst, c.src, [], 0, f, false, true, false, false)
  }

  predicate Within(c: Conn, nr: int) {
    c.modulus > 0 && 0 <= nr < c.modulus && (nr - c.va) % c.modulus <= (c.vs - c.va) % c.modulus
  }

  /** An I frame that is used. */
  predicate Heard(c: Conn, p: Packet) {
    p.frame.IFrame? && p.commandResponse && |p.frame.payload| <= c.n1 && Within(c, p.frame.nr)
  }

  /** A packet that costs the session. */
  predicate Spoils(c: Conn, p: Packet) {
    match p.frame
    case Ua(_) => true
    case Rr(nr, _) => !Within(c, nr)
    case IFrame(_, _, _, _, _, _) => p.commandResponse && !Heard(c, p)
    case _ => false
  }

  /** The answer with F=1 to an enquiry. */
  predicate IsFinal(p: Packet) {
    p.frame.Rr? && p.frame.poll && !p.commandResponse
  }

  /** The control frames that an event makes a connection send. */
  function Replies(c: Conn, e: Event): seq<Packet> {
    match e
    case DlConnect(dst, src) =>
      if c.st == Disconnected || c.st == Connected then [Response(c.(dst := dst, src := src), Sabm(true))] else []
    case DlData(_) => []
    case DlDisconnect => if InData(c) then [Response(c, Disc(true))] else []
    case T3Expires => []
    case T1Expires =>
      if !c.t1.running then []
      else if c.st == Connected || (c.st == TimerRecovery && c.rc != c.n2) then [Command(c, Rr(c.vr, true))]
      else if c.st == AwaitingConnection && c.rc != c.n2 then [Response(c, Sabm(true))]
      else []
    case Receive(p) => PacketReplies(c, p)
  }

  function PacketReplies(c: Conn, p: Packet): seq<Packet> {
    if c.st == Disconnected then
      match p.frame {
        case Sabm(f) => [Response(c.(dst := p.src, src := p.dst), Ua(f))]
        case Sabme(f) => [Response(c.(dst := p.src, src := p.dst), Ua(f))]
        case Disc(f) => [Response(c, Dm(f))]
        case Ui(_, push, _) => if push != 0 then [Response(c, Dm(true))] else []
        case _ => []
      }
    else if !InData(c) then []
    else if Spoils(c, p) then
      (if p.frame.Rr? && p.frame.poll && p.commandResponse then [Response(c, Rr(c.vr, true))] else [])
      + [Response(c, Sabm(true))]
    else
      match p.frame {
        case Sabm(f) => if c.st == Connected then [Response(c, Ua(f))] else []
        case Disc(f) => [Response(c, Ua(f))]
        case Ui(_, push, _) => if push != 0 && c.st == Connected then [Response(c, Rr(c.vr, true))] else []
        case Rr(_, f) => if f && p.commandResponse then [Response(c, Rr(c.vr, true))] else []
        case IFrame(_, ns, f, _, _, _) =>
          if !p.commandResponse then []
          else if ns == c.vr then (if f then [Response(c, Rr((c.vr + 1) % c.modulus, true))] else [])
          else if c.rejectException then (if f then [Response(c, Rr(c.vr, true))] else [])
          else [Response(c, Rej(c.vr, f))]
        case _ => []
      }
  }

  /** What the table says of the state after an event, besides windows, queues and addresses. */
  datatype Mode = Mode(st: State, rc: int, n2: int, t1v: int, layer3: bool, reject: bool, pending: bool)

  function ModeOf(c: Conn): Mode {
    Mode(c.st, c.rc, c.n2, c.t1v, c.layer3Initiated, c.rejectException, c.acknowledgePending)
  }

  function Asking(m: Mode, layer3: bool): Mode {
    m.(st := AwaitingConnection, rc := 0, layer3 := layer3, reject := false, pending := false)
  }

  function After(c: Conn, e: Event): Mode {
    var m := ModeOf(c);
    match e
    case DlConnect(_, _) =>
      if c.st == Disconnected then Asking(m, true).(t1v := 6000)
      else if c.st == Connected then Asking(m, true) else m
    case DlData(_) => m
    case DlDisconnect => if InData(c) then m.(st := AwaitingRelease, rc := 0) else m
    case T3Expires => m
    case T1Expires =>
      if !c.t1.running then m
      else (match c.st {
        case Connected => m.(st := TimerRecovery, rc := 1, pending := false)
        case TimerRecovery => if c.rc == c.n2 then m.(st := Disconnected) else m.(rc := c.rc + 1, pending := false)
        case AwaitingConnection => if c.rc == c.n2 then m.(st := Disconnected) else m.(rc := c.rc + 1)
        case _ => m
      })
    case Receive(p) => AfterPacket(c, m, p)
  }

  function AfterPacket(c: Conn, m: Mode, p: Packet): Mode {
    if c.st == Disconnected then
      if p.frame.Sabm? || p.frame.Sabme? then
        m.(st := Connected, n2 := 10, t1v := 6000, reject := false, pending := false)
      else m
    else if c.st == AwaitingConnection then (if p.frame == Ua(true) then m.(st := Connected) else m)
    else if c.st == AwaitingRelease then m
    else if Spoils(c, p) then Asking(m, false)
    else
      match p.frame {
        case Sabm(_) => if c.st == Connected then m.(reject := false, pending := false) else m
        case Dm(_) => m.(st := Disconnected)
        case Disc(_) => m.(st := Disconnected)
        case Ui(_, push, _) => if push != 0 && c.st == Connected then m.(pending := false) else m
        case Rr(nr, f) =>
          if f && p.commandResponse then m.(pending := false)
          else if c.st == TimerRecovery && IsFinal(p) && nr == c.vs then m.(st := Connected)
          else m
        case IFrame(_, ns, f, _, _, _) =>
          if !p.commandResponse then m
          else if ns == c.vr then m.(pending := !f)
          else if c.rejectException then m.(pending := m.pending && !f)
          else m.(reject := true, pending := false)
        case _ => m
      }
  }

  /** From c to d exactly these control frames have been sent, and behind them only I frames. */
  predicate Utters(c: Conn, d: Conn, frames: seq<Packet>) {
    && |c.sent| + |frames| <= |d.sent| && d.sent[..|c.sent| + |frames|] == c.sent + frames
    && forall j :: |c.sent| + |frames| <= j < |d.sent| ==> d.sent[j].frame.IFrame?
  }

  // ---------------------------------------------------------------------------------------------
  // Handlers

  predicate Reacts(c: Conn, d: Conn, e: Event) {
    ModeOf(d) == After(c, e) && d.sent == c.sent + Replies(c, e)
  }

  lemma PollReacts(c: Conn, mid: Conn, e: Event)
    requires Reacts(c, mid, e)
    ensures var d := Poll(mid); ModeOf(d) == After(c, e) && Utters(c, d, Replies(c, e))
    ensures var d := Poll(mid); !InData(d) ==> d.sent == c.sent + Replies(c, e)
  {
    hide After, Replies, Poll;
    PollAdds(mid);
  }

  lemma PollAdds(c: Conn)
    ensures var d := Poll(c);
            && ModeOf(d) == ModeOf(c) && |c.sent| <= |d.sent| && d.sent[..|c.sent|] == c.sent
            && (!InData(d) ==> d.sent == c.sent)
            && forall j :: |c.sent| <= j < |d.sent| ==> d.sent[j].frame.IFrame?
  {
    hide NthFrame, PollCount;
    if InData(c) {
      AllIframes(c, PollCount(c));
    }
  }

  lemma AllIframes(c: Conn, n: nat)
    requires n <= |c.queue|
    ensures forall i :: 0 <= i < n ==> Burst(c, n)[i].frame.IFrame?
  {}

  lemma WithinIs(c: Conn, nr: int)
    requires Safe(c) && InData(c)
    ensures Within(c, nr) == InRange(c.va, nr, c.vs, c.modulus)
  {
    hide Mod;
    RemainderOf(nr - c.va, c.modulus);
    RemainderOf(c.vs - c.va, c.modulus);
  }

  /** Two connections with the same mode that have sent the same. */
  predicate Alike(c: Conn, d: Conn) {
    && ModeOf(c) == ModeOf(d) && c.sent == d.sent && c.src == d.src && c.dst == d.dst && c.vr == d.vr
    && c.ownReceiverBusy == d.ownReceiverBusy && c.srejEnabled == d.srejEnabled && c.modulus == d.modulus
  }

  lemma UpdateAlike(c: Conn, nr: int)
    ensures Alike(c, UpdateAck(c, nr))
  {}

  lemma SelectAlike(c: Conn, clock: Clock)
    ensures Alike(c, SelectT1(c, clock))
  {
    hide NewSrt, NewPeriod;
  }

  lemma CheckAlike(c: Conn, nr: int, clock: Clock)
    ensures Alike(c, CheckIframeAcked(c, nr, clock))
  {
    hide UpdateAck, SelectT1;
    UpdateAlike(c, nr);
    SelectAlike(StartT3(StopT1(UpdateAck(c, nr))), clock);
  }

  lemma SendSays(c: Conn, f: Frame)
    ensures var d := Send(c, Plain(f, false));
            d.sent == c.sent + [Response(c, f)] && ModeOf(d) == ModeOf(c) && d.src == c.src && d.dst == c.dst
  {}

  lemma NothingSent(c: Conn)
    ensures c.sent + [] == c.sent
  {}

  lemma AnswerSays(c: Conn)
    requires !c.ownReceiverBusy
    ensures var d := EnquiryResponse(c, true);
            && d.sent == c.sent + [Response(c, Rr(c.vr, true))] && ModeOf(d) == ModeOf(c).(pending := false)
            && d.src == c.src && d.dst == c.dst && d.vr == c.vr
  {}

  lemma EnquirySays(c: Conn)
    requires !c.ownReceiverBusy
    ensures var d := TransmitEnquiry(c);
            d.sent == c.sent + [Command(c, Rr(c.vr, true))] && ModeOf(d) == ModeOf(c).(pending := false)
  {}

  lemma EstablishSays(c: Conn)
    ensures var d := Establish(c);
            && d.sent == c.sent + [Response(c, Sabm(true))]
            && ModeOf(d) == Asking(ModeOf(c), c.layer3Initiated).(st := c.st)
  {}

  lemma ReestablishReacts(c: Conn)
    ensures var d := Reestablish(c);
            d.sent == c.sent + [Response(c, Sabm(true))] && ModeOf(d) == Asking(ModeOf(c), false)
  {
    hide Establish;
    EstablishSays(c);
  }

  lemma T1Reacts(c: Conn, clock: Clock)
    requires !c.ownReceiverBusy && c.t1.running
    ensures Reacts(c, OnT1(StopT1(c), clock), T1Expires)
  {
    hide OnT1Connected, OnT1Recovery, OnT1Awaiting;
    NothingSent(c);
    T1DataSays(StopT1(c));
    T1AwaitingSays(StopT1(c), clock);
  }

  lemma T1DataSays(c: Conn)
    requires !c.ownReceiverBusy
    ensures var d := OnT1Connected(c);
            && d.sent == c.sent + [Command(c, Rr(c.vr, true))]
            && ModeOf(d) == ModeOf(c).(st := TimerRecovery, rc := 1, pending := false)
    ensures var d := OnT1Recovery(c);
            if c.rc == c.n2 then d.sent == c.sent && ModeOf(d) == ModeOf(c).(st := Disconnected)
            else d.sent == c.sent + [Command(c, Rr(c.vr, true))] && ModeOf(d) == ModeOf(c).(rc := c.rc + 1, pending := false)
  {
    hide TransmitEnquiry;
    EnquirySays(c.(rc := 1));
    EnquirySays(c.(rc := c.rc + 1));
  }

  lemma T1AwaitingSays(c: Conn, clock: Clock)
    ensures var d := OnT1Awaiting(c, clock);
            if c.rc == c.n2 then d.sent == c.sent && ModeOf(d) == ModeOf(c).(st := Disconnected)
            else d.sent == c.sent + [Response(c, Sabm(true))] && ModeOf(d) == ModeOf(c).(rc := c.rc + 1)
  {
    hide SelectT1, Send, Plain;
    SendSays(c.(rc := c.rc + 1), Sabm(true));
    SelectAlike(Send(c.(rc := c.rc + 1), Plain(Sabm(true), false)), clock);
  }

  lemma ConnectReacts(c: Conn, dst: string, src: string)
    ensures Reacts(c, OnDlConnect(c, dst, src), DlConnect(dst, src))
  {
    hide Establish;
    EstablishSays(c.(modulus := 8, src := src, dst := dst, srt := 3000.0, t1v := 6000, t1 := c.t1.(ms := 6000)));
    EstablishSays(ClearQueues(c.(src := src, dst := dst)));
    assert c.sent + [] == c.sent;
  }

  lemma DisconnectReacts(c: Conn)
    ensures Reacts(c, OnDlDisconnect(c), DlDisconnect)
  {
    hide Send, Plain;
    NothingSent(c);
    SendSays(ClearQueues(c).(rc := 0), Disc(true));
  }

  lemma SabmReacts(c: Conn, p: Packet)
    requires p.frame.Sabm? || p.frame.Sabme?
    ensures Reacts(c, OnSabm(c, p), Receive(p))
  {
    hide OnSabmDisconnected, OnSabmConnected, Within;
    NothingSent(c);
    if c.st == Disconnected {
      SabmOpens(c, p);
    } else if c.st == Connected && p.frame.Sabm? {
      SabmResets(c, p);
    }
  }

  lemma SabmOpens(c: Conn, p: Packet)
    requires p.frame.Sabm? || p.frame.Sabme?
    ensures var d := OnSabmDisconnected(c, p);
            && d.sent == c.sent + [Response(c.(dst := p.src, src := p.dst), Ua(p.frame.poll))]
            && ModeOf(d) == ModeOf(c).(st := Connected, n2 := 10, t1v := 6000, reject := false, pending := false)
  {
    hide Send, Plain;
    SendSays(c.(modulus := if p.frame.Sabm? then 8 else 128, n2 := 10, src := p.dst, dst := p.src), Ua(p.frame.poll));
  }

  lemma SabmResets(c: Conn, p: Packet)
    requires p.frame.Sabm?
    ensures var d := OnSabmConnected(c, p);
            && d.sent == c.sent + [Response(c, Ua(p.frame.poll))]
            && ModeOf(d) == ModeOf(c).(reject := false, pending := false)
  {
    hide Send, Plain;
    SendSays(c, Ua(p.frame.poll));
  }

  lemma UiReacts(c: Conn, p: Packet)
    requires p.frame.Ui? && !c.ownReceiverBusy
    ensures Reacts(c, OnUi(c, p), Receive(p))
  {
    hide EnquiryResponse;
    AnswerSays(c);
    assert c.sent + [] == c.sent;
  }

  lemma UaReacts(c: Conn, p: Packet, clock: Clock)
    requires p.frame.Ua?
    ensures Reacts(c, OnUa(c, p, clock), Receive(p))
  {
    hide Reestablish, OnUaAwaiting, Within;
    NothingSent(c);
    if c.st == AwaitingConnection && p.frame.poll {
      UaOpens(c, clock);
    } else if InData(c) {
      ReestablishReacts(c);
      assert [] + [Response(c, Sabm(true))] == [Response(c, Sabm(true))];
    }
  }

  lemma UaOpens(c: Conn, clock: Clock)
    ensures var d := OnUaAwaiting(c, clock); d.sent == c.sent && ModeOf(d) == ModeOf(c).(st := Connected)
  {
    hide NewSrt, NewPeriod;
  }

  lemma DmReacts(c: Conn, p: Packet)
    requires p.frame.Dm?
    ensures Reacts(c, OnDm(c), Receive(p))
  {
    hide Replies, After;
    NothingSent(c);
    DmRow(c, p);
  }

  lemma DmRow(c: Conn, p: Packet)
    requires p.frame.Dm?
    ensures Replies(c, Receive(p)) == []
    ensures After(c, Receive(p)) == if InData(c) then ModeOf(c).(st := Disconnected) else ModeOf(c)
  {
    hide Within;
  }

  lemma DiscReacts(c: Conn, p: Packet)
    requires p.frame.Disc?
    ensures Reacts(c, OnDisc(c, p), Receive(p))
  {
    hide Send, Plain, Within;
    NothingSent(c);
    if c.st == Disconnected {
      SendSays(c, Dm(p.frame.poll));
    } else {
      SendSays(ClearQueues(c), Ua(p.frame.poll));
    }
  }

  lemma SpoiltAfterAnswer(c: Conn, answered: Conn, p: Packet)
    requires InData(c) && Spoils(c, p) && Alike(answered, c)
    requires !(p.frame.Rr? && p.frame.poll && p.commandResponse)
    ensures Reacts(c, Reestablish(answered), Receive(p))
  {
    hide Reestablish, Within;
    ReestablishReacts(answered);
    assert [] + [Response(c, Sabm(true))] == [Response(c, Sabm(true))];
  }

  lemma SpoiltCommand(c: Conn, p: Packet)
    requires InData(c) && Spoils(c, p) && p.frame.Rr? && p.frame.poll && p.commandResponse && !c.ownReceiverBusy
    ensures Reacts(c, Reestablish(EnquiryResponse(c.(peerReceiverBusy := false), true)), Receive(p))
  {
    hide Reestablish, Within, EnquiryResponse;
    var answered := EnquiryResponse(c.(peerReceiverBusy := false), true);
    AnswerSays(c.(peerReceiverBusy := false));
    ReestablishReacts(answered);
    assert c.sent + [Response(c, Rr(c.vr, true))] + [Response(c, Sabm(true))]
        == c.sent + ([Response(c, Rr(c.vr, true))] + [Response(c, Sabm(true))]);
  }

  /** The rows of the table for an RR with N(R) in range. */
  lemma RrRow(c: Conn, p: Packet)
    requires InData(c) && p.frame.Rr? && !Spoils(c, p)
    ensures var asked := p.commandResponse && p.frame.poll;
            && Replies(c, Receive(p)) == (if asked then [Response(c, Rr(c.vr, true))] else [])
            && After(c, Receive(p)) ==
                 if asked then ModeOf(c).(pending := false)
                 else if c.st == TimerRecovery && IsFinal(p) && p.frame.nr == c.vs then ModeOf(c).(st := Connected)
                 else ModeOf(c)
  {
    hide Within;
  }

  lemma RrConnectedReacts(c: Conn, p: Packet, clock: Clock)
    requires Safe(c) && c.st == Connected && p.frame.Rr? && !c.ownReceiverBusy
    ensures Reacts(c, OnRr(c, p, clock), Receive(p))
  {
    hide Safe, CheckIframeAcked, Reestablish, EnquiryResponse, InRange, Within, Replies, After;
    NothingSent(c);
    var f := p.frame;
    var free := c.(peerReceiverBusy := false);
    WithinIs(c, f.nr);
    AnswerSays(free);
    var asked := p.commandResponse && f.poll;
    if Spoils(c, p) {
      if asked { SpoiltCommand(c, p); } else { SpoiltAfterAnswer(c, free, p); }
    } else {
      RrRow(c, p);
      CheckAlike(if asked then EnquiryResponse(free, true) else free, f.nr, clock);
    }
  }

  lemma FinalSays(c: Conn, nr: int, clock: Clock)
    requires c.st == TimerRecovery && InRange(c.va, nr, c.vs, c.modulus)
    ensures var d := OnFinal(c, nr, clock);
            d.sent == c.sent && ModeOf(d) == if nr == c.vs then ModeOf(c).(st := Connected) else ModeOf(c)
  {
    hide SelectT1, InRange, UpdateAck, InvokeRetransmission;
    var measured := SelectT1(StopT1(c), clock);
    SelectAlike(StopT1(c), clock);
    SelectKeepsWindow(StopT1(c), clock);
    UpdateAlike(measured, nr);
    UpdateMoves(measured, nr);
    AgainAlike(UpdateAck(measured, nr), nr);
  }

  lemma FinalSpoilt(c: Conn, p: Packet, clock: Clock)
    requires InData(c) && IsFinal(p) && Spoils(c, p) && !InRange(c.va, p.frame.nr, c.vs, c.modulus)
    ensures Reacts(c, OnFinal(c.(peerReceiverBusy := false), p.frame.nr, clock), Receive(p))
  {
    hide Reestablish, SelectT1, InRange, Within, Reacts;
    var stopped := StopT1(c.(peerReceiverBusy := false));
    SelectAlike(stopped, clock);
    SpoiltAfterAnswer(c, SelectT1(stopped, clock), p);
  }

  lemma FinalReacts(c: Conn, p: Packet, clock: Clock)
    requires Safe(c) && c.st == TimerRecovery && IsFinal(p)
    ensures Reacts(c, OnFinal(c.(peerReceiverBusy := false), p.frame.nr, clock), Receive(p))
  {
    hide Safe, InRange, Within, Replies, After, OnFinal;
    var nr := p.frame.nr;
    var free := c.(peerReceiverBusy := false);
    WithinIs(c, nr);
    if Spoils(c, p) {
      FinalSpoilt(c, p, clock);
    } else {
      NothingSent(c);
      FinalSays(free, nr, clock);
      RrRow(c, p);
    }
  }

  lemma AgainAlike(c: Conn, nr: int)
    ensures var d := InvokeRetransmission(c, nr); Alike(c, d) && d.t1 == c.t1 && d.t3 == c.t3 && d.srt == c.srt
  {}

  lemma UpdateMoves(c: Conn, nr: int)
    ensures var d := UpdateAck(c, nr); d.vs == c.vs && d.va == nr
  {}

  lemma SelectKeepsWindow(c: Conn, clock: Clock)
    ensures var d := SelectT1(c, clock); d.vs == c.vs && d.va == c.va
  {
    hide NewSrt, NewPeriod;
  }

  lemma RrRecoveryReacts(c: Conn, p: Packet, clock: Clock)
    requires Safe(c) && c.st == TimerRecovery && p.frame.Rr? && !c.ownReceiverBusy
    ensures Reacts(c, OnRr(c, p, clock), Receive(p))
  {
    hide Safe, Reestablish, EnquiryResponse, InRange, Within, OnFinal, UpdateAck, Replies, After;
    NothingSent(c);
    var f := p.frame;
    var free := c.(peerReceiverBusy := false);
    WithinIs(c, f.nr);
    AnswerSays(free);
    var asked := p.commandResponse && f.poll;
    if IsFinal(p) {
      FinalReacts(c, p, clock);
    } else if Spoils(c, p) {
      if asked { SpoiltCommand(c, p); } else { SpoiltAfterAnswer(c, free, p); }
    } else {
      RrRow(c, p);
      UpdateAlike(if asked then EnquiryResponse(free, true) else free, f.nr);
    }
  }

  lemma IframeReacts(c: Conn, p: Packet, clock: Clock)
    requires Safe(c) && InData(c) && p.frame.IFrame? && !c.ownReceiverBusy && !c.srejEnabled
    ensures Reacts(c, OnIframe(c, p, clock), Receive(p))
  {
    hide Safe, CheckIframeAcked, UpdateAck, Reestablish, InRange, Within, AcceptIframe;
    var f := p.frame;
    WithinIs(c, f.nr);
    if !p.commandResponse {
      assert c.sent + [] == c.sent;
    } else if Spoils(c, p) {
      SpoiltAfterAnswer(c, c, p);
    } else {
      var acked := if c.st == Connected then CheckIframeAcked(c, f.nr, clock) else UpdateAck(c, f.nr);
      CheckAlike(c, f.nr, clock);
      UpdateAlike(c, f.nr);
      AcceptReacts(c, acked, p);
    }
  }

  lemma AcceptReacts(c: Conn, acked: Conn, p: Packet)
    requires Safe(c) && InData(c) && p.frame.IFrame? && p.commandResponse && Heard(c, p)
    requires !c.ownReceiverBusy && !c.srejEnabled && Alike(c, acked)
    ensures Reacts(c, AcceptIframe(acked, p.frame.ns, p.frame.poll, p.frame.payload), Receive(p))
  {
    hide Safe, Mod, Within;
    HasModulus(c);
    RemainderOf(c.vr + 1, c.modulus);
    assert c.sent + [] == c.sent;
  }

  lemma PacketReacts(c: Conn, p: Packet, clock: Clock)
    requires Safe(c) && PlainGoBackN(c) && Handled(p.frame)
    ensures Reacts(c, OnPacket(c, p, clock), Receive(p))
  {
    hide Safe, OnSabm, OnUi, OnUa, OnDm, OnDisc, Reacts;
    match p.frame
    case Sabm(_) => SabmReacts(c, p);
    case Sabme(_) => SabmReacts(c, p);
    case Ui(_, _, _) => UiReacts(c, p);
    case Ua(_) => UaReacts(c, p, clock);
    case Rr(_, _) => RrReacts(c, p, clock);
    case IFrame(_, _, _, _, _, _) =>
      if InData(c) { IframeReacts(c, p, clock); } else { NothingReacts(c, p, clock); }
    case Dm(_) => DmReacts(c, p);
    case Disc(_) => DiscReacts(c, p);
  }

  lemma RrReacts(c: Conn, p: Packet, clock: Clock)
    requires Safe(c) && PlainGoBackN(c) && p.frame.Rr?
    ensures Reacts(c, OnRr(c, p, clock), Receive(p))
  {
    hide Safe, Reacts, OnRr;
    if c.st == Connected {
      RrConnectedReacts(c, p, clock);
    } else if c.st == TimerRecovery {
      RrRecoveryReacts(c, p, clock);
    } else {
      NothingReacts(c, p, clock);
    }
  }

  lemma NothingReacts(c: Conn, p: Packet, clock: Clock)
    requires !InData(c) && (p.frame.Rr? || p.frame.IFrame?)
    ensures Reacts(c, if p.frame.Rr? then OnRr(c, p, clock) else OnIframe(c, p, clock), Receive(p))
  {
    assert c.sent + [] == c.sent;
  }

  lemma HandleReacts(c: Conn, e: Event, clock: Clock)
    requires Safe(c) && PlainGoBackN(c) && Enabled(c, e)
    ensures Reacts(c, Handle(c, e, clock), e)
  {
    hide Safe, Reacts, OnPacket, OnT1, OnDlConnect, OnDlDisconnect;
    match e
    case Receive(p) => PacketReacts(c, p, clock);
    case DlConnect(dst, src) => ConnectReacts(c, dst, src);
    case DlDisconnect => DisconnectReacts(c);
    case T1Expires => T1Reacts(c, clock);
    case DlData(payload) => DataReacts(c, payload);
    case T3Expires => DataReacts(c, []);
  }

  lemma DataReacts(c: Conn, payload: seq<byte>)
    ensures Reacts(c, OnDlData(c, payload), DlData(payload)) && Reacts(c, StopT3(c), T3Expires)
  {
    assert c.sent + [] == c.sent;
  }

  lemma DisabledReacts(c: Conn, e: Event)
    requires !Enabled(c, e)
    ensures After(c, e) == ModeOf(c) && Replies(c, e) == []
  {}

  /** Main result: every event makes a connection send exactly the control frames of the table, before
      any I frame, and leaves it in the mode of the table. */
  lemma StepReacts(c: Conn, e: Event, clock: Clock)
    requires Safe(c) && Regular(c)
    ensures var d := Step(c, e, clock); ModeOf(d) == After(c, e) && Utters(c, d, Replies(c, e))
    ensures var d := Step(c, e, clock); !InData(d) ==> d.sent == c.sent + Replies(c, e)
  {
    hide Safe, Reacts, After, Replies, Handle, Poll, Enabled;
    RegularIsPlain(c);
    if Enabled(c, e) {
      HandleReacts(c, e, clock);
      PollReacts(c, Handle(c, e, clock), e);
    } else {
      DisabledReacts(c, e);
      assert c.sent + [] == c.sent;
    }
  }
}
