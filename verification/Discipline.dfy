/** Timers, retries, round-trip times and work conservation in every reachable state. */
module Discipline {
  import opened Bytes
  import opened Packets
  import opened Modular
  import opened Link
  import opened LinkInvariants

  /** The busy and selective-reject branches of the program are never taken. */
  predicate PlainGoBackN(c: Conn) {
    !c.peerReceiverBusy && !c.ownReceiverBusy && !c.srejEnabled && c.srejectException == 0
  }

  /** T1 and T3 never both run; data that is outstanding always has T1 running, and so has a state
      that waits for an answer. */
  predicate TimersRight(c: Conn) {
    && !(c.t1.running && c.t3.running)
    && (c.st == Connected ==> (c.t1.running <==> c.vs != c.va))
    && (c.st == TimerRecovery || c.st == AwaitingConnection ==> c.t1.running)
    && (c.st == Disconnected ==> !c.t1.running)
  }

  predicate RetriesBounded(c: Conn) {
    && (c.n2 == 3 || c.n2 == 10) && 0 <= c.rc <= c.n2
    && (c.st == TimerRecovery ==> c.rc >= 1)
  }

  predicate PeriodsBounded(c: Conn) {
    && 100 <= c.t1.ms <= 10000
    && (c.st != Disconnected ==> 100.0 <= c.srt <= 10000.0 && c.srt == c.srt.Floor as real)
  }

  /** Nothing waits in the queue while the window has room. */
  predicate Conserving(c: Conn) {
    InData(c) ==> c.queue == [] || Outstanding(c) == c.k
  }

  predicate Regular(c: Conn) {
    PlainGoBackN(c) && TimersRight(c) && RetriesBounded(c) && PeriodsBounded(c) && Conserving(c)
  }

  predicate Waiting(c: Conn) {
    c.st == TimerRecovery || c.st == AwaitingConnection
  }

  lemma WaitingRuns(c: Conn)
    requires Regular(c) && Waiting(c)
    ensures c.t1.running
  {}

  /** What holds when an event has been handled and the queue not yet been drained. */
  predicate Pending(c: Conn) {
    && PlainGoBackN(c) && RetriesBounded(c) && PeriodsBounded(c)
    && if c.st == TimerRecovery && !c.t1.running then !c.t3.running && c.vs == c.va && c.queue != [] else TimersRight(c)
  }

  lemma RegularIsPending(c: Conn)
    requires Regular(c)
    ensures Pending(c)
  {}

  lemma PollRegular(c: Conn)
    requires Safe(c) && Pending(c)
    ensures Regular(Poll(c))
  {
    hide Burst, PeriodsBounded;
    if InData(c) {
      SendingSafe(c, PollCount(c));
      DistNear(c.va, c.vs, c.modulus);
      var d := Sending(c, PollCount(c));
      assert PeriodsBounded(d) by { SamePeriods(c, d); }
      assert Safe(d);
      DistNear(d.va, d.vs, d.modulus);
    }
  }

  lemma SamePeriods(c: Conn, d: Conn)
    requires PeriodsBounded(c) && d.t1.ms == c.t1.ms && d.srt == c.srt
    requires c.st == d.st || c.st != Disconnected || d.st == Disconnected
    ensures PeriodsBounded(d)
  {}

  /** The two states agree in everything that the discipline is about. */
  predicate SameControl(c: Conn, d: Conn) {
    && d.st == c.st && d.peerReceiverBusy == c.peerReceiverBusy && d.ownReceiverBusy == c.ownReceiverBusy
    && d.srejEnabled == c.srejEnabled && d.srejectException == c.srejectException
    && d.t1 == c.t1 && d.t3 == c.t3 && d.rc == c.rc && d.n2 == c.n2 && d.srt == c.srt
    && d.vs == c.vs && d.va == c.va && d.queue == c.queue
  }

  lemma SameControlPending(c: Conn, d: Conn)
    requires Pending(c) && SameControl(c, d)
    ensures Pending(d)
  {}

  lemma SelectT1Bounds(c: Conn, clock: Clock)
    ensures c.rc == 0 ==> 100.0 <= NewSrt(c, clock) <= 10000.0 && NewSrt(c, clock) == NewSrt(c, clock).Floor as real
    ensures c.rc != 0 ==> NewSrt(c, clock) == c.srt
    ensures 100 <= NewPeriod(c, clock) <= 10000 || NewPeriod(c, clock) == c.t1.ms
  {
    hide Trunc, Doubled;
  }

  lemma SabmDisconnectedPending(c: Conn, p: Packet)
    requires Regular(c) && c.st == Disconnected && (p.frame.Sabm? || p.frame.Sabme?)
    ensures Pending(OnSabmDisconnected(c, p))
  {}

  lemma SabmConnectedPending(c: Conn, p: Packet)
    requires Regular(c) && c.st == Connected && (p.frame.Sabm? || p.frame.Sabme?)
    ensures Pending(OnSabmConnected(c, p))
  {}

  lemma UaAwaitingPending(c: Conn, clock: Clock)
    requires Regular(c) && c.st == AwaitingConnection
    ensures Pending(OnUaAwaiting(c, clock))
  {
    hide NewSrt, NewPeriod;
    var kept := if !c.layer3Initiated && c.vs != c.va then ClearQueues(c) else c;
    SelectT1Bounds(StopT3(StopT1(kept)).(vs := 0, va := 0, vr := 0), clock);
  }

  lemma ReestablishPending(c: Conn)
    requires PlainGoBackN(c) && PeriodsBounded(c) && RetriesBounded(c) && c.st != Disconnected
    ensures Pending(Reestablish(c))
  {}

  lemma SendSameControl(c: Conn, p: Packet)
    ensures SameControl(c, Send(c, p))
  {}

  lemma EnquirySameControl(c: Conn)
    ensures SameControl(c, EnquiryResponse(c, true))
  {}

  lemma UiPending(c: Conn, p: Packet)
    requires Regular(c) && p.frame.Ui?
    ensures Pending(OnUi(c, p))
  {
    hide Regular, Pending, Send, EnquiryResponse;
    RegularIsPending(c);
    SendSameControl(c, Plain(Dm(true), false));
    EnquirySameControl(c);
    if p.frame.push != 0 && c.st == Disconnected {
      SameControlPending(c, Send(c, Plain(Dm(true), false)));
    } else if p.frame.push != 0 && c.st == Connected {
      SameControlPending(c, EnquiryResponse(c, true));
    }
  }

  lemma DmPending(c: Conn)
    requires Regular(c)
    ensures Pending(OnDm(c))
  {}

  lemma DiscPending(c: Conn, p: Packet)
    requires Regular(c) && p.frame.Disc?
    ensures Pending(OnDisc(c, p))
  {
    if !InData(c) && c.st == Disconnected {
      SameControlPending(c, Send(c, Plain(Dm(p.frame.poll), false)));
    }
  }

  lemma CheckAckPending(c: Conn, nr: int, clock: Clock)
    requires Safe(c) && Pending(c) && c.st == Connected && InRange(c.va, nr, c.vs, c.modulus)
    ensures Pending(CheckIframeAcked(c, nr, clock))
  {
    hide NewSrt, NewPeriod, Drop;
    DistNear(c.va, nr, c.modulus);
    DistNear(c.va, c.vs, c.modulus);
    SelectT1Bounds(StartT3(StopT1(UpdateAck(c, nr))), clock);
  }

  lemma RrConnectedPending(c: Conn, nr: int, poll: bool, command: bool, clock: Clock)
    requires Safe(c) && Regular(c) && c.st == Connected
    ensures Pending(OnRrConnected(c, nr, poll, command, clock))
  {
    hide Safe, Pending, InRange, CheckIframeAcked, Reestablish;
    var free := c.(peerReceiverBusy := false);
    var answered := if command && poll then EnquiryResponse(free, true) else free;
    RegularIsPending(c);
    SameControlPending(c, free);
    SameControlPending(c, answered);
    SameWindowSafe(c, answered);
    PendingParts(answered);
    if InRange(c.va, nr, c.vs, c.modulus) {
      CheckAckPending(answered, nr, clock);
    } else {
      ReestablishPending(answered);
    }
  }

  lemma PendingParts(c: Conn)
    requires Pending(c)
    ensures PlainGoBackN(c) && PeriodsBounded(c) && RetriesBounded(c)
  {}

  /** An F=1 answer that leaves frames unacknowledged stops T1, but always leaves something to send. */
  lemma RecoveredPending(c: Conn, nr: int)
    requires Safe(c) && c.st == TimerRecovery && InRange(c.va, nr, c.vs, c.modulus)
    requires PlainGoBackN(c) && RetriesBounded(c) && PeriodsBounded(c) && !c.t1.running && !c.t3.running
    ensures var acked := UpdateAck(c, nr);
            Pending(if acked.vs != acked.va then InvokeRetransmission(acked, nr) else StartT3(acked).(st := Connected))
  {
    AckSafe(c, nr);
    var acked := UpdateAck(c, nr);
    DistNear(acked.va, acked.vs, acked.modulus);
    if acked.vs != acked.va {
      var d := InvokeRetransmission(acked, nr);
      assert Outstanding(acked) > 0;
      assert d.queue == acked.resend && |acked.resend| > 0;
    }
  }

  lemma RrRecoveryPending(c: Conn, nr: int, poll: bool, command: bool, clock: Clock)
    requires Safe(c) && Regular(c) && c.st == TimerRecovery
    ensures Pending(OnRrRecovery(c, nr, poll, command, clock))
  {
    hide Safe, Pending, InRange, Reestablish, NewSrt, NewPeriod, Dist, InvokeRetransmission, UpdateAck;
    var free := c.(peerReceiverBusy := false);
    if !command && poll {
      var measured := SelectT1(StopT1(free), clock);
      SelectT1Bounds(StopT1(free), clock);
      SameWindowSafe(c, measured);
      if InRange(c.va, nr, c.vs, c.modulus) {
        RecoveredPending(measured, nr);
      } else {
        ReestablishPending(measured);
      }
    } else {
      var answered := if command && poll then EnquiryResponse(free, true) else free;
      RegularIsPending(c);
      SameControlPending(c, answered);
      PendingParts(answered);
      if InRange(c.va, nr, c.vs, c.modulus) {
        RecoveryAckPending(answered, nr);
      } else {
        ReestablishPending(answered);
      }
    }
  }

  lemma RecoveryAckPending(c: Conn, nr: int)
    requires Pending(c) && c.st == TimerRecovery && c.t1.running
    ensures Pending(UpdateAck(c, nr))
  {
    hide Drop, Dist;
  }

  lemma AcceptPending(c: Conn, ns: int, poll: bool, payload: seq<byte>)
    requires Pending(c)
    ensures Pending(AcceptIframe(c, ns, poll, payload))
  {
    hide Pending, Answers;
    PendingParts(c);
    SameControlPending(c, AcceptIframe(c, ns, poll, payload));
  }

  lemma IframePending(c: Conn, p: Packet, clock: Clock)
    requires Safe(c) && Regular(c) && p.frame.IFrame?
    ensures Pending(OnIframe(c, p, clock))
  {
    hide Safe, Pending, InRange, CheckIframeAcked, UpdateAck, AcceptIframe, Reestablish;
    RegularIsPending(c);
    var f := p.frame;
    if InData(c) && p.commandResponse {
      ReestablishPending(c);
      if InRange(c.va, f.nr, c.vs, c.modulus) {
        if c.st == Connected {
          CheckAckPending(c, f.nr, clock);
        } else {
          RecoveryAckPending(c, f.nr);
        }
        AcceptPending(if c.st == Connected then CheckIframeAcked(c, f.nr, clock) else UpdateAck(c, f.nr), f.ns, f.poll, f.payload);
      }
    }
  }

  lemma ConnectPending(c: Conn, dst: string, src: string)
    requires Regular(c)
    ensures Pending(OnDlConnect(c, dst, src))
  {
    hide Establish;
    RegularIsPending(c);
    if c.st == Disconnected {
      AskPending(c.(modulus := 8, src := src, dst := dst, srt := 3000.0, t1v := 6000, t1 := c.t1.(ms := 6000)));
    } else if c.st == Connected {
      AskPending(ClearQueues(c.(src := src, dst := dst)));
    }
  }

  lemma AskPending(c: Conn)
    requires PlainGoBackN(c) && RetriesBounded(c) && 100 <= c.t1.ms <= 10000
    requires 100.0 <= c.srt <= 10000.0 && c.srt == c.srt.Floor as real
    ensures Pending(Establish(c).(layer3Initiated := true, st := AwaitingConnection))
  {
    hide Addressed, Plain;
  }

  lemma DataPending(c: Conn, payload: seq<byte>)
    requires Regular(c)
    ensures Pending(OnDlData(c, payload))
  {}

  lemma DisconnectPending(c: Conn)
    requires Regular(c)
    ensures Pending(OnDlDisconnect(c))
  {
    RegularIsPending(c);
  }

  lemma T1ConnectedPending(c: Conn)
    requires Regular(c) && c.st == Connected && c.t1.running
    ensures Pending(OnT1Connected(StopT1(c)))
  {}

  lemma T1RecoveryPending(c: Conn)
    requires Regular(c) && c.st == TimerRecovery
    ensures Pending(OnT1Recovery(StopT1(c)))
  {
    if c.rc != c.n2 {
      var d := TransmitEnquiry(StopT1(c).(rc := c.rc + 1));
      assert Pending(d);
    }
  }

  lemma T1AwaitingPending(c: Conn, clock: Clock)
    requires Regular(c) && c.st == AwaitingConnection
    ensures Pending(OnT1Awaiting(StopT1(c), clock))
  {
    hide NewSrt, NewPeriod;
    SelectT1Bounds(Send(StopT1(c).(rc := c.rc + 1), Plain(Sabm(true), false)), clock);
  }

  lemma PacketPending(c: Conn, p: Packet, clock: Clock)
    requires Safe(c) && Regular(c) && Handled(p.frame)
    ensures Pending(OnPacket(c, p, clock))
  {
    hide Safe, Pending, OnSabmDisconnected, OnSabmConnected, OnUaAwaiting, Reestablish;
    hide OnRrConnected, OnRrRecovery, OnIframe, OnUi, OnDm, OnDisc;
    RegularIsPending(c);
    var f := p.frame;
    match f
    case Sabm(_) =>
      if c.st == Disconnected { SabmDisconnectedPending(c, p); } else if c.st == Connected { SabmConnectedPending(c, p); }
    case Sabme(_) => if c.st == Disconnected { SabmDisconnectedPending(c, p); }
    case Ua(_) =>
      if c.st == AwaitingConnection { UaAwaitingPending(c, clock); } else if InData(c) { ReestablishPending(c); }
    case Rr(_, _) =>
      if c.st == Connected {
        RrConnectedPending(c, f.nr, f.poll, p.commandResponse, clock);
      } else if c.st == TimerRecovery {
        RrRecoveryPending(c, f.nr, f.poll, p.commandResponse, clock);
      }
    case IFrame(_, _, _, _, _, _) => IframePending(c, p, clock);
    case Ui(_, _, _) => UiPending(c, p);
    case Dm(_) => DmPending(c);
    case Disc(_) => DiscPending(c, p);
  }

  lemma HandlePending(c: Conn, e: Event, clock: Clock)
    requires Safe(c) && Regular(c) && Enabled(c, e)
    ensures Pending(Handle(c, e, clock))
  {
    hide Safe, OnPacket, OnT1Connected, OnT1Recovery, OnT1Awaiting, OnDlConnect, OnDlDisconnect, OnDlData;
    match e
    case Receive(p) => PacketPending(c, p, clock);
    case DlConnect(dst, src) => ConnectPending(c, dst, src);
    case DlData(payload) => DataPending(c, payload);
    case DlDisconnect => DisconnectPending(c);
    case T1Expires =>
      match c.st {
        case Connected => T1ConnectedPending(c);
        case TimerRecovery => T1RecoveryPending(c);
        case AwaitingConnection => T1AwaitingPending(c, clock);
        case _ =>
      }
    case T3Expires =>
  }

  lemma StepRegular(c: Conn, e: Event, clock: Clock)
    requires Safe(c) && Regular(c)
    ensures Safe(Step(c, e, clock)) && Regular(Step(c, e, clock))
  {
    hide Safe, Regular, Pending, Handle, Poll;
    StepSafe(c, e, clock);
    if Enabled(c, e) {
      HandleSafe(c, e, clock);
      HandlePending(c, e, clock);
      PollRegular(Handle(c, e, clock));
    }
  }

  /** Main result: every state of every run of a new connection is safe and regular. */
  lemma {:induction false} EveryRunRegular(c: Conn, inputs: seq<Input>)
    requires Safe(c) && Regular(c)
    ensures Safe(Run(c, inputs)) && Regular(Run(c, inputs))
    decreases |inputs|
  {
    hide Safe, Regular, Step;
    if inputs != [] {
      StepRegular(c, inputs[0].event, inputs[0].clock);
      EveryRunRegular(Step(c, inputs[0].event, inputs[0].clock), inputs[1..]);
    }
  }

  lemma FreshRegular()
    ensures Safe(FRESH) && Regular(FRESH)
  {}
}
