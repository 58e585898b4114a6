/** What a connection says: which frames it can send at all, and that each of them acknowledges
    everything received so far. */
module Talk {
  import opened Bytes
  import opened Packets
  import opened Modular
  import opened Link
  import opened LinkInvariants
  import opened Discipline

  /** A frame that acknowledges does so up to V(R). */
  predicate Acknowledges(f: Frame, vr: int) {
    match f
    case IFrame(nr, _, _, _, _, _) => nr == vr
    case Rr(nr, _) => nr == vr
    case Rej(nr, _) => nr == vr
    case _ => true
  }

  predicate Control(f: Frame) {
    f.Sabm? || f.Ua? || f.Dm? || f.Disc? || f.Rr? || f.Rej?
  }

  predicate Spoken(f: Frame) {
    Control(f) || (f.IFrame? && f.pid == 0xf0 && !f.extended)
  }

  /** A packet as this connection sends it now. */
  predicate Proper(c: Conn, p: Packet) {
    && p == Packet(c.dst, c.src, [], 0, p.frame, false, p.commandResponse, !p.commandResponse, false)
    && Spoken(p.frame) && Acknowledges(p.frame, c.vr)
    && (p.frame.IFrame? ==> p.commandResponse && (c.modulus > 0 ==> 0 <= p.frame.ns < c.modulus))
  }

  /** From c to d only control frames have been sent. */
  predicate Answered(c: Conn, d: Conn) {
    && |c.sent| <= |d.sent| && d.sent[..|c.sent|] == c.sent
    && forall j :: |c.sent| <= j < |d.sent| ==> Proper(d, d.sent[j]) && Control(d.sent[j].frame)
  }

  /** A SABM and a DISC leave the connection waiting for the answer; `greeted` says that the event
      calls for an unnumbered answer. */
  predicate Fitting(d: Conn, f: Frame, greeted: bool) {
    && (f.Sabm? ==> d.st == AwaitingConnection)
    && (f.Disc? ==> d.st == AwaitingRelease)
    && (f.Ua? || f.Dm? ==> greeted)
  }

  /** The packets that are answered with UA or DM. */
  predicate Greets(e: Event) {
    e.Receive? && (e.p.frame.Sabm? || e.p.frame.Sabme? || e.p.frame.Disc? || e.p.frame.Ui?)
  }

  predicate AnsweredAs(c: Conn, d: Conn, greeted: bool) {
    && Answered(c, d)
    && forall j :: |c.sent| <= j < |d.sent| ==> Fitting(d, d.sent[j].frame, greeted)
  }

  /** From c to d proper frames have been sent. */
  predicate Talked(c: Conn, d: Conn, greeted: bool) {
    && |c.sent| <= |d.sent| && d.sent[..|c.sent|] == c.sent
    && forall j :: |c.sent| <= j < |d.sent| ==> Proper(d, d.sent[j]) && Fitting(d, d.sent[j].frame, greeted)
  }

  lemma Silent(c: Conn, d: Conn, greeted: bool)
    requires d.sent == c.sent
    ensures AnsweredAs(c, d, greeted)
  {}

  lemma OneFrame(c: Conn, d: Conn, p: Packet, greeted: bool)
    requires d.sent == c.sent + [Addressed(d, p)]
    requires p == Plain(p.frame, p.commandResponse) && Control(p.frame) && Acknowledges(p.frame, d.vr)
    requires Fitting(d, p.frame, greeted)
    ensures AnsweredAs(c, d, greeted)
  {}

  /** One frame, sent on the way from c to d. */
  lemma OneFrameAt(c: Conn, at: Conn, d: Conn, f: Frame, command: bool, greeted: bool)
    requires at.sent == c.sent && Control(f) && Acknowledges(f, at.vr) && Fitting(d, f, greeted)
    requires var s := Send(at, Plain(f, command)); d.sent == s.sent && d.src == s.src && d.dst == s.dst && (d.vr == s.vr || f.Ua?)
    ensures AnsweredAs(c, d, greeted)
  {
    OneFrame(c, d, Plain(f, command), greeted);
  }

  lemma TwoFrames(c: Conn, d: Conn, p: Packet, q: Packet)
    requires d.sent == c.sent + [Addressed(d, p)] + [Addressed(d, q)]
    requires p == Plain(p.frame, p.commandResponse) && Control(p.frame) && Acknowledges(p.frame, d.vr)
    requires Fitting(d, p.frame, false)
    requires q == Plain(q.frame, q.commandResponse) && Control(q.frame) && Acknowledges(q.frame, d.vr)
    requires Fitting(d, q.frame, false)
    ensures AnsweredAs(c, d, false)
  {}

  lemma SabmAnswers(c: Conn, p: Packet)
    requires p.frame.Sabm? || p.frame.Sabme?
    ensures AnsweredAs(c, OnSabm(c, p), true)
  {
    hide AnsweredAs, Control, Acknowledges, Send, Plain;
    var d := OnSabm(c, p);
    IsControl(Ua(p.frame.poll), c.vr);
    if c.st == Disconnected {
      OneFrameAt(c, c.(modulus := if p.frame.Sabm? then 8 else 128, n2 := 10, src := p.dst, dst := p.src), d,
                 Ua(p.frame.poll), false, true);
    } else if c.st == Connected && p.frame.Sabm? {
      OneFrameAt(c, c, d, Ua(p.frame.poll), false, true);
    } else {
      Silent(c, d, true);
    }
  }

  lemma IsControl(f: Frame, vr: int)
    requires f.Sabm? || f.Ua? || f.Dm? || f.Disc? || (f.Rr? && f.nr == vr) || (f.Rej? && f.nr == vr)
    ensures Control(f) && Acknowledges(f, vr)
  {}

  lemma UiAnswers(c: Conn, p: Packet)
    requires p.frame.Ui? && !c.ownReceiverBusy
    ensures AnsweredAs(c, OnUi(c, p), true)
  {
    hide AnsweredAs, Control;
    var d := OnUi(c, p);
    IsControl(Dm(true), d.vr);
    IsControl(Rr(c.vr, true), d.vr);
    if d.sent == c.sent {
      Silent(c, d, true);
    } else if c.st == Disconnected {
      OneFrame(c, d, Plain(Dm(true), false), true);
    } else {
      OneFrame(c, d, Plain(Rr(c.vr, true), false), true);
    }
  }

  /** The new link is asked for after at most one answer. */
  lemma ReestablishAnswers(c: Conn, answered: Conn, f: Frame)
    requires answered.src == c.src && answered.dst == c.dst && answered.vr == c.vr
    requires answered.sent == c.sent || (answered.sent == c.sent + [Addressed(c, Plain(f, false))] && f.Rr? && f.nr == c.vr)
    ensures AnsweredAs(c, Reestablish(answered), false)
  {
    hide AnsweredAs, Control;
    var d := Reestablish(answered);
    IsControl(Sabm(true), d.vr);
    if answered.sent == c.sent {
      OneFrame(c, d, Plain(Sabm(true), false), false);
    } else {
      TwoFrames(c, d, Plain(f, false), Plain(Sabm(true), false));
    }
  }

  lemma UaAnswers(c: Conn, p: Packet, clock: Clock)
    requires p.frame.Ua?
    ensures AnsweredAs(c, OnUa(c, p, clock), false)
  {
    hide AnsweredAs, NewSrt, NewPeriod, Reestablish;
    if c.st == AwaitingConnection && p.frame.poll {
      Silent(c, OnUaAwaiting(c, clock), false);
    } else if InData(c) {
      ReestablishAnswers(c, c, NoFrame);
    } else {
      Silent(c, c, false);
    }
  }

  lemma DmAnswers(c: Conn)
    ensures AnsweredAs(c, OnDm(c), false)
  {
    hide AnsweredAs;
    Silent(c, OnDm(c), false);
  }

  lemma DiscAnswers(c: Conn, p: Packet)
    requires p.frame.Disc?
    ensures AnsweredAs(c, OnDisc(c, p), true)
  {
    hide AnsweredAs, Control, Acknowledges, Send, Plain;
    var d := OnDisc(c, p);
    IsControl(Dm(p.frame.poll), d.vr);
    IsControl(Ua(p.frame.poll), d.vr);
    if c.st == Disconnected {
      OneFrameAt(c, c, d, Dm(p.frame.poll), false, true);
    } else if InData(c) {
      OneFrameAt(c, ClearQueues(c), d, Ua(p.frame.poll), false, true);
    } else {
      Silent(c, d, true);
    }
  }

  /** Two connections that differ in what this module does not speak of. */
  lemma SameTalk(c: Conn, d: Conn, e: Conn)
    requires AnsweredAs(c, d, false) && e.st == d.st && e.sent == d.sent && e.src == d.src && e.dst == d.dst && e.vr == d.vr
    ensures AnsweredAs(c, e, false)
  {}

  lemma AckQuiet(c: Conn, nr: int, clock: Clock)
    ensures var d := UpdateAck(c, nr); d.st == c.st && d.sent == c.sent && d.src == c.src && d.dst == c.dst && d.vr == c.vr
    ensures var d := CheckIframeAcked(c, nr, clock);
            d.st == c.st && d.sent == c.sent && d.src == c.src && d.dst == c.dst && d.vr == c.vr
  {
    hide UpdateAck, SelectT1;
    UpdateQuiet(c, nr);
    var u := UpdateAck(c, nr);
    SelectQuiet(StartT3(StopT1(u)), clock);
  }

  lemma UpdateQuiet(c: Conn, nr: int)
    ensures var d := UpdateAck(c, nr); d.st == c.st && d.sent == c.sent && d.src == c.src && d.dst == c.dst && d.vr == c.vr
  {
    hide Drop, Dist;
  }

  lemma SelectQuiet(c: Conn, clock: Clock)
    ensures var d := SelectT1(c, clock); d.st == c.st && d.sent == c.sent && d.src == c.src && d.dst == c.dst && d.vr == c.vr
  {
    hide NewSrt, NewPeriod;
  }

  lemma RrConnectedAnswers(c: Conn, nr: int, poll: bool, command: bool, clock: Clock)
    requires !c.ownReceiverBusy
    ensures AnsweredAs(c, OnRrConnected(c, nr, poll, command, clock), false)
  {
    hide AnsweredAs, Control, CheckIframeAcked, Reestablish, InRange;
    var free := c.(peerReceiverBusy := false);
    var answered := if command && poll then EnquiryResponse(free, true) else free;
    IsControl(Rr(c.vr, true), c.vr);
    FreeAnswers(c, command && poll);
    ReestablishAnswers(c, answered, Rr(c.vr, true));
    AckQuiet(answered, nr, clock);
    SameTalk(c, answered, CheckIframeAcked(answered, nr, clock));
  }

  lemma FreeAnswers(c: Conn, asked: bool)
    requires !c.ownReceiverBusy
    ensures var free := c.(peerReceiverBusy := false);
            var answered := if asked then EnquiryResponse(free, true) else free;
            && AnsweredAs(c, answered, false)
            && answered.sent == c.sent + (if asked then [Addressed(c, Plain(Rr(c.vr, true), false))] else [])
            && answered.src == c.src && answered.dst == c.dst && answered.vr == c.vr
  {
    hide AnsweredAs;
    var free := c.(peerReceiverBusy := false);
    if asked {
      var d := EnquiryResponse(free, true);
      OneFrame(c, d, Plain(Rr(c.vr, true), false), false);
    } else {
      Silent(c, free, false);
    }
  }

  lemma RetransmissionSilent(c: Conn, nr: int)
    ensures InvokeRetransmission(c, nr).sent == c.sent
  {}

  lemma FinalAnswers(c: Conn, nr: int, clock: Clock)
    ensures AnsweredAs(c, OnFinal(c, nr, clock), false)
  {
    hide AnsweredAs, Control, Reestablish, InRange, UpdateAck, InvokeRetransmission, SelectT1;
    var measured := SelectT1(StopT1(c), clock);
    SelectQuiet(StopT1(c), clock);
    ReestablishAnswers(c, measured, NoFrame);
    AckQuiet(measured, nr, clock);
    RetransmissionSilent(UpdateAck(measured, nr), nr);
    if InRange(c.va, nr, c.vs, c.modulus) {
      Silent(c, OnFinal(c, nr, clock), false);
    }
  }

  lemma RrRecoveryAnswers(c: Conn, nr: int, poll: bool, command: bool, clock: Clock)
    requires !c.ownReceiverBusy
    ensures AnsweredAs(c, OnRrRecovery(c, nr, poll, command, clock), false)
  {
    hide AnsweredAs, Control, UpdateAck, Reestablish, InRange, OnFinal, EnquiryResponse;
    var free := c.(peerReceiverBusy := false);
    if !command && poll {
      FinalAnswers(free, nr, clock);
      SameStart(free, c, OnFinal(free, nr, clock));
    } else {
      var answered := if command && poll then EnquiryResponse(free, true) else free;
      IsControl(Rr(c.vr, true), c.vr);
      FreeAnswers(c, command && poll);
      ReestablishAnswers(c, answered, Rr(c.vr, true));
      AckQuiet(answered, nr, clock);
      SameTalk(c, answered, UpdateAck(answered, nr));
    }
  }

  lemma SameStart(c: Conn, b: Conn, d: Conn)
    requires AnsweredAs(c, d, false) && b.sent == c.sent
    ensures AnsweredAs(b, d, false)
  {}

  lemma AcceptAnswers(c: Conn, ns: int, poll: bool, payload: seq<byte>)
    requires PlainGoBackN(c)
    ensures AnsweredAs(c, AcceptIframe(c, ns, poll, payload), false)
  {
    hide AnsweredAs, Control;
    var f := Answer(c, ns, poll);
    var d := AcceptIframe(c, ns, poll, payload);
    if f.NoFrame? {
      Silent(c, d, false);
    } else {
      IsControl(f, d.vr);
      OneFrame(c, d, Plain(f, false), false);
    }
  }

  lemma IframeAnswers(c: Conn, p: Packet, clock: Clock)
    requires p.frame.IFrame? && PlainGoBackN(c)
    ensures AnsweredAs(c, OnIframe(c, p, clock), false)
  {
    hide AnsweredAs, Reestablish, InRange, UpdateAck, CheckIframeAcked, AcceptIframe;
    var f := p.frame;
    ReestablishAnswers(c, c, NoFrame);
    Silent(c, c, false);
    if InData(c) && p.commandResponse && |f.payload| <= c.n1 && InRange(c.va, f.nr, c.vs, c.modulus) {
      var acked := if c.st == Connected then CheckIframeAcked(c, f.nr, clock) else UpdateAck(c, f.nr);
      AckQuiet(c, f.nr, clock);
      AckKeepsPlain(c, f.nr, clock);
      AcceptAnswers(acked, f.ns, f.poll, f.payload);
      SameStart(acked, c, OnIframe(c, p, clock));
    }
  }

  lemma AckKeepsPlain(c: Conn, nr: int, clock: Clock)
    requires PlainGoBackN(c)
    ensures PlainGoBackN(UpdateAck(c, nr)) && PlainGoBackN(CheckIframeAcked(c, nr, clock))
  {
    hide NewSrt, NewPeriod, Drop, Dist;
  }

  lemma ConnectAnswers(c: Conn, dst: string, src: string)
    ensures AnsweredAs(c, OnDlConnect(c, dst, src), false)
  {
    hide AnsweredAs, Control;
    IsControl(Sabm(true), c.vr);
    Silent(c, c, false);
    if c.st == Disconnected {
      AskAnswers(c, c.(modulus := 8, src := src, dst := dst, srt := 3000.0, t1v := 6000, t1 := c.t1.(ms := 6000)));
    } else if c.st == Connected {
      AskAnswers(c, ClearQueues(c.(src := src, dst := dst)));
    }
  }

  lemma AskAnswers(c: Conn, start: Conn)
    requires start.sent == c.sent
    ensures AnsweredAs(c, Establish(start).(layer3Initiated := true, st := AwaitingConnection), false)
  {
    hide AnsweredAs, Control, Acknowledges, Send, Plain;
    IsControl(Sabm(true), start.vr);
    OneFrameAt(c, ClearExceptions(start).(rc := 0),
               Establish(start).(layer3Initiated := true, st := AwaitingConnection), Sabm(true), false, false);
  }

  lemma DisconnectAnswers(c: Conn)
    ensures AnsweredAs(c, OnDlDisconnect(c), false)
  {
    hide AnsweredAs, Control;
    var d := OnDlDisconnect(c);
    IsControl(Disc(true), d.vr);
    if d.sent == c.sent {
      Silent(c, d, false);
    } else {
      OneFrame(c, d, Plain(Disc(true), false), false);
    }
  }

  lemma T1Answers(c: Conn, clock: Clock)
    requires !c.ownReceiverBusy
    ensures AnsweredAs(c, OnT1(c, clock), false)
  {
    hide AnsweredAs, Control, Acknowledges, OnT1Awaiting, TransmitEnquiry, Send, Plain;
    EnquiryOut(c.(rc := 1));
    EnquiryOut(c.(rc := c.rc + 1));
    var d := OnT1(c, clock);
    IsControl(Sabm(true), c.vr);
    IsControl(Rr(c.vr, true), c.vr);
    match c.st
    case Connected => OneFrameAt(c, c.(rc := 1), d, Rr(c.vr, true), true, false);
    case TimerRecovery =>
      if c.rc != c.n2 {
        OneFrameAt(c, c.(rc := c.rc + 1), d, Rr(c.vr, true), true, false);
      } else {
        Silent(c, d, false);
      }
    case AwaitingConnection => T1AskAnswers(c, clock);
    case _ => Silent(c, d, false);
  }

  lemma SendStays(c: Conn, p: Packet)
    ensures Send(c, p).st == c.st
  {}

  lemma EnquiryOut(c: Conn)
    requires !c.ownReceiverBusy
    ensures var s, d := Send(c, Plain(Rr(c.vr, true), true)), TransmitEnquiry(c);
            d.sent == s.sent && d.src == s.src && d.dst == s.dst && d.vr == s.vr && d.st == c.st
  {
    hide Plain, Addressed;
  }

  lemma EmptiedIs(c: Conn)
    ensures ClearQueues(c).sent == c.sent
  {}

  lemma AskingIs(c: Conn, clock: Clock)
    ensures var s := Send(c, Plain(Sabm(true), false));
            var d := StartT1(SelectT1(s, clock));
            d.sent == s.sent && d.src == s.src && d.dst == s.dst && d.vr == s.vr && d.st == s.st
  {
    hide NewSrt, NewPeriod, Send, Plain;
  }

  lemma T1AskAnswers(c: Conn, clock: Clock)
    requires c.st == AwaitingConnection
    ensures AnsweredAs(c, OnT1Awaiting(c, clock), false)
  {
    hide AnsweredAs, Control, Acknowledges, SelectT1, StartT1, Send, Plain, ClearQueues;
    var d := OnT1Awaiting(c, clock);
    IsControl(Sabm(true), c.vr);
    if c.rc == c.n2 {
      EmptiedIs(c);
      Silent(c, d, false);
    } else {
      var asking := c.(rc := c.rc + 1);
      SendStays(asking, Plain(Sabm(true), false));
      AskingIs(asking, clock);
      OneFrameAt(c, asking, d, Sabm(true), false, false);
    }
  }

  lemma PacketAnswers(c: Conn, p: Packet, clock: Clock)
    requires PlainGoBackN(c) && Handled(p.frame)
    ensures AnsweredAs(c, OnPacket(c, p, clock), Greets(Receive(p)))
  {
    hide AnsweredAs, OnSabm, OnUi, OnUa, OnDm, OnDisc, OnRrConnected, OnRrRecovery, OnIframe;
    Silent(c, c, false);
    match p.frame
    case Sabm(_) => SabmAnswers(c, p);
    case Sabme(_) => SabmAnswers(c, p);
    case Ui(_, _, _) => UiAnswers(c, p);
    case Ua(_) => UaAnswers(c, p, clock);
    case Rr(nr, poll) =>
      RrConnectedAnswers(c, nr, poll, p.commandResponse, clock);
      RrRecoveryAnswers(c, nr, poll, p.commandResponse, clock);
    case IFrame(_, _, _, _, _, _) => IframeAnswers(c, p, clock);
    case Dm(_) => DmAnswers(c);
    case Disc(_) => DiscAnswers(c, p);
  }

  /** Handling an event sends control frames only; I frames leave when the queue is drained. */
  lemma HandleAnswers(c: Conn, e: Event, clock: Clock)
    requires PlainGoBackN(c) && Enabled(c, e)
    ensures AnsweredAs(c, Handle(c, e, clock), Greets(e))
  {
    hide AnsweredAs, OnPacket, OnT1, OnDlConnect, OnDlDisconnect;
    match e
    case Receive(p) => PacketAnswers(c, p, clock);
    case DlConnect(dst, src) => ConnectAnswers(c, dst, src);
    case DlData(payload) => Silent(c, OnDlData(c, payload), false);
    case DlDisconnect => DisconnectAnswers(c);
    case T1Expires =>
      T1Answers(StopT1(c), clock);
      SameStart(StopT1(c), c, OnT1(StopT1(c), clock));
    case T3Expires => Silent(c, StopT3(c), false);
  }

  lemma PollTalks(c: Conn, mid: Conn, greeted: bool)
    requires AnsweredAs(c, mid, greeted)
    ensures Talked(c, Poll(mid), greeted)
  {
    hide Poll, PollCount, NthFrame;
    if InData(mid) {
      SendingTalks(c, mid, PollCount(mid), greeted);
    }
    PollIs(mid);
  }

  lemma PollIs(c: Conn)
    ensures Poll(c) == if InData(c) then Sending(c, PollCount(c)) else c
  {}

  lemma NthProper(c: Conn, i: nat, greeted: bool)
    requires i < |c.queue|
    ensures Proper(c, NthFrame(c, i)) && Fitting(c, NthFrame(c, i).frame, greeted)
  {
    hide Mod;
  }

  lemma SameProper(c: Conn, d: Conn, p: Packet, greeted: bool)
    requires d.st == c.st && d.modulus == c.modulus && d.src == c.src && d.dst == c.dst && d.vr == c.vr
    requires Proper(c, p) && Fitting(c, p.frame, greeted)
    ensures Proper(d, p) && Fitting(d, p.frame, greeted)
  {}

  lemma SendingTalks(c: Conn, mid: Conn, n: nat, greeted: bool)
    requires AnsweredAs(c, mid, greeted) && n <= |mid.queue|
    ensures Talked(c, Sending(mid, n), greeted)
  {
    hide Mod, NthFrame, Proper, Fitting;
    var d := Sending(mid, n);
    forall j | |c.sent| <= j < |d.sent| ensures Proper(d, d.sent[j]) && Fitting(d, d.sent[j].frame, greeted) {
      if j < |mid.sent| {
        assert d.sent[j] == mid.sent[j];
      } else {
        NthProper(mid, j - |mid.sent|, greeted);
        assert d.sent[j] == NthFrame(mid, j - |mid.sent|);
      }
      SameProper(mid, d, d.sent[j], greeted);
    }
  }

  /** Main result: whatever happens, every frame sent is of a kind that serialize writes, carries this
      end's addresses and acknowledges exactly what has been received. */
  lemma StepTalks(c: Conn, e: Event, clock: Clock)
    requires Regular(c)
    ensures Talked(c, Step(c, e, clock), Greets(e))
  {
    hide Talked, AnsweredAs, Handle, Poll;
    if Enabled(c, e) {
      HandleAnswers(c, e, clock);
      PollTalks(c, Handle(c, e, clock), Greets(e));
    } else {
      NothingSaid(c, Greets(e));
    }
  }

  lemma NothingSaid(c: Conn, greeted: bool)
    ensures Talked(c, c, greeted)
  {}
}
