/** Timers and round-trip times as a table: which events measure a round trip and what T1's period
    becomes, and which start and stop T1 and T3. */
module Periods {
  import opened Bytes
  import opened Packets
  import opened Link
  import opened LinkInvariants
  import opened Discipline
  import opened Steps
  import opened Timing
  import opened Reactions

  /** The events in which a round trip is measured, if no retry has been counted. */
  predicate Measures(c: Conn, e: Event) {
    e.Receive? &&
    match c.st
    case AwaitingConnection => e.p.frame == Ua(true)
    case Connected =>
      || (e.p.frame.Rr? && Within(c, e.p.frame.nr) && e.p.frame.nr == c.vs)
      || (Heard(c, e.p) && e.p.frame.nr == c.vs)
    case _ => false
  }

  predicate SamePeriod(c: Conn, d: Conn) {
    d.srt == c.srt && d.t1.ms == c.t1.ms
  }

  /** Seven eighths and one eighth of a measurement, twice as much for T1. */
  predicate Smooths(c: Conn, d: Conn, clock: Clock) {
    if c.rc == 0 then
      var srt := Smoothed(c.srt.Floor, Measured(c, clock));
      d.srt == srt as real && d.t1.ms == Twofold(srt)
    else SamePeriod(c, d)
  }

  lemma PollPeriod(c: Conn)
    ensures SamePeriod(c, Poll(c)) && Poll(c).st == c.st
  {
    hide NthFrame, PollCount, Burst;
  }

  lemma SelectPeriod(c: Conn, clock: Clock)
    requires Regular(c) || (100.0 <= c.srt && c.srt == c.srt.Floor as real)
    requires c.st != Disconnected && !c.t1.running
    ensures Smooths(c, SelectT1(c, clock), clock)
  {
    hide NewSrt, NewPeriod, Smoothed, Twofold, Measured;
    if c.rc == 0 {
      SmoothingInIntegers(c, clock);
    } else {
      KeepsPeriod(c, clock);
    }
  }

  lemma KeepsPeriod(c: Conn, clock: Clock)
    requires c.rc != 0 && !c.t1.running
    ensures NewSrt(c, clock) == c.srt && NewPeriod(c, clock) == c.t1.ms
  {}

  /** The events that start T3. */
  predicate StartsT3(c: Conn, e: Event) {
    e.Receive? &&
    match c.st
    case Disconnected => e.p.frame.Sabm? || e.p.frame.Sabme?
    case Connected => e.p.frame.Sabm? || Measures(c, e)
    case TimerRecovery => IsFinal(e.p) && Within(c, e.p.frame.nr) && e.p.frame.nr == c.vs
    case _ => false
  }

  /** T3 in the state that follows, if T1 does not run there. */
  predicate T3After(c: Conn, e: Event, next: State) {
    StartsT3(c, e) || (next == c.st && e != T3Expires && c.t3.running)
  }

  predicate PeriodAfter(c: Conn, d: Conn, e: Event, clock: Clock) {
    if c.st == Disconnected && e.DlConnect? then d.srt == 3000.0 && d.t1.ms == 6000
    else if c.st == Disconnected && e.Receive? && (e.p.frame.Sabm? || e.p.frame.Sabme?) then
      d.srt == 3000.0 && d.t1.ms == c.t1.ms
    else if Measures(c, e) then Smooths(c, d, clock)
    else SamePeriod(c, d)
  }

  predicate Timed(c: Conn, d: Conn, e: Event, clock: Clock) {
    && PeriodAfter(c, d, e, clock)
    && ((InData(d) && d.t1.running) || d.t3.running == T3After(c, e, d.st))
  }

  lemma ReestablishTimed(c: Conn, e: Event, clock: Clock, answered: Conn)
    requires InData(c) && !Measures(c, e) && !StartsT3(c, e) && SamePeriod(c, answered)
    ensures Timed(c, Reestablish(answered), e, clock)
  {}

  lemma SabmTimed(c: Conn, p: Packet, clock: Clock)
    requires p.frame.Sabm? || p.frame.Sabme?
    ensures Timed(c, OnSabm(c, p), Receive(p), clock)
  {
    hide Send, Plain;
    SendTimed(c, Plain(Ua(p.frame.poll), false));
    SendTimed(c.(modulus := if p.frame.Sabm? then 8 else 128, n2 := 10, src := p.dst, dst := p.src),
              Plain(Ua(p.frame.poll), false));
  }

  /** Two connections with the same timers in the same state. */
  predicate SameTimers(c: Conn, d: Conn) {
    d.t1 == c.t1 && d.t3 == c.t3 && d.srt == c.srt && d.st == c.st && d.rc == c.rc
  }

  lemma SendTimed(c: Conn, p: Packet)
    ensures SameTimers(c, Send(c, p))
  {}

  lemma AnswerTimed(c: Conn)
    ensures var d := EnquiryResponse(c, true);
            SameTimers(c, d) && d.vs == c.vs && d.va == c.va && d.peerReceiverBusy == c.peerReceiverBusy
  {}

  lemma SameTimed(c: Conn, d: Conn, e: Event, clock: Clock)
    requires SameTimers(c, d) && !Measures(c, e) && !StartsT3(c, e) && e != T3Expires
    requires c.st == Disconnected ==> !e.DlConnect? && (e.Receive? ==> !e.p.frame.Sabm? && !e.p.frame.Sabme?)
    ensures Timed(c, d, e, clock)
  {
    hide Measures, StartsT3;
  }

  lemma UaTimed(c: Conn, p: Packet, clock: Clock)
    requires Regular(c) && p.frame.Ua?
    ensures Timed(c, OnUa(c, p, clock), Receive(p), clock)
  {
    hide Reestablish, SelectT1;
    var e := Receive(p);
    if c.st == AwaitingConnection && p.frame.poll {
      var kept := if !c.layer3Initiated && c.vs != c.va then ClearQueues(c) else c;
      SelectPeriod(StopT3(StopT1(kept)).(vs := 0, va := 0, vr := 0), clock);
      SelectTimers(StopT3(StopT1(kept)).(vs := 0, va := 0, vr := 0), clock);
    } else if InData(c) {
      ReestablishTimed(c, e, clock, c);
    }
  }

  lemma SelectTimers(c: Conn, clock: Clock)
    ensures var d := SelectT1(c, clock);
            && d.t1.running == c.t1.running && d.t3 == c.t3 && d.st == c.st && d.rc == c.rc
  {
    hide NewSrt, NewPeriod;
  }

  lemma UpdateTimers(c: Conn, nr: int)
    ensures SameTimers(c, UpdateAck(c, nr))
  {}

  lemma CheckTimed(c: Conn, nr: int, clock: Clock)
    requires c.st == Connected && !c.peerReceiverBusy && 100.0 <= c.srt && c.srt == c.srt.Floor as real
    ensures var d := CheckIframeAcked(c, nr, clock);
            && d.st == c.st
            && (if nr == c.vs then Smooths(c, d, clock) && d.t3.running
                else SamePeriod(c, d) && d.t3 == c.t3)
  {
    hide UpdateAck, SelectT1, Smoothed, Twofold;
    UpdateTimers(c, nr);
    var s := StartT3(StopT1(UpdateAck(c, nr)));
    SelectTimers(s, clock);
    SelectPeriod(s, clock);
  }

  lemma WholeSrt(c: Conn)
    requires Regular(c) && c.st != Disconnected
    ensures 100.0 <= c.srt && c.srt == c.srt.Floor as real && !(c.t1.running && c.t3.running)
    ensures c.st == TimerRecovery ==> c.rc >= 1 && c.t1.running
  {}

  lemma RrConnectedTimed(c: Conn, p: Packet, clock: Clock)
    requires Safe(c) && Regular(c) && c.st == Connected && p.frame.Rr?
    ensures Timed(c, OnRr(c, p, clock), Receive(p), clock)
  {
    hide Safe, Regular, CheckIframeAcked, Reestablish, EnquiryResponse, InRange, Within, Smooths;
    var f, e := p.frame, Receive(p);
    var free := c.(peerReceiverBusy := false);
    WithinIs(c, f.nr);
    WholeSrt(c);
    AnswerTimed(free);
    var answered := if p.commandResponse && f.poll then EnquiryResponse(free, true) else free;
    if Within(c, f.nr) {
      CheckTimed(answered, f.nr, clock);
      SameSmooths(answered, c, CheckIframeAcked(answered, f.nr, clock), clock);
    } else {
      ReestablishTimed(c, e, clock, answered);
    }
  }

  lemma SameSmooths(b: Conn, c: Conn, d: Conn, clock: Clock)
    requires SameTimers(b, c)
    ensures Smooths(b, d, clock) == Smooths(c, d, clock)
  {
    hide Smoothed, Twofold;
  }

  lemma RrRecoveryTimed(c: Conn, p: Packet, clock: Clock)
    requires Safe(c) && Regular(c) && c.st == TimerRecovery && p.frame.Rr?
    ensures Timed(c, OnRr(c, p, clock), Receive(p), clock)
  {
    hide Safe, Regular, Reestablish, EnquiryResponse, InRange, Within, UpdateAck, OnFinal;
    var f, e := p.frame, Receive(p);
    var free := c.(peerReceiverBusy := false);
    WithinIs(c, f.nr);
    WholeSrt(c);
    AnswerTimed(free);
    if IsFinal(p) {
      FinalTimed(c, p, clock);
    } else {
      var answered := if p.commandResponse && f.poll then EnquiryResponse(free, true) else free;
      if Within(c, f.nr) {
        UpdateTimers(answered, f.nr);
        SameTimed(c, UpdateAck(answered, f.nr), e, clock);
      } else {
        ReestablishTimed(c, e, clock, answered);
      }
    }
  }

  lemma FinalTimed(c: Conn, p: Packet, clock: Clock)
    requires Safe(c) && Regular(c) && c.st == TimerRecovery && IsFinal(p)
    ensures Timed(c, OnFinal(c.(peerReceiverBusy := false), p.frame.nr, clock), Receive(p), clock)
  {
    hide Safe, Regular, Reestablish, SelectT1, InRange, Within, UpdateAck, InvokeRetransmission;
    var nr := p.frame.nr;
    var s := StopT1(c.(peerReceiverBusy := false));
    WithinIs(c, nr);
    WholeSrt(c);
    SelectPeriod(s, clock);
    SelectTimers(s, clock);
    SelectKeepsWindow(s, clock);
    var measured := SelectT1(s, clock);
    if Within(c, nr) {
      UpdateTimers(measured, nr);
      UpdateMoves(measured, nr);
      AgainAlike(UpdateAck(measured, nr), nr);
    } else {
      ReestablishTimed(c, Receive(p), clock, measured);
    }
  }

  lemma IframeTimed(c: Conn, p: Packet, clock: Clock)
    requires Safe(c) && Regular(c) && InData(c) && p.frame.IFrame?
    ensures Timed(c, OnIframe(c, p, clock), Receive(p), clock)
  {
    hide Safe, Regular, CheckIframeAcked, UpdateAck, Reestablish, InRange, Within, AcceptIframe, Smooths;
    var f, e := p.frame, Receive(p);
    WithinIs(c, f.nr);
    WholeSrt(c);
    RegularIsPlain(c);
    if !p.commandResponse {
      SameTimed(c, c, e, clock);
    } else if !Heard(c, p) {
      ReestablishTimed(c, e, clock, c);
    } else if c.st == Connected {
      CheckTimed(c, f.nr, clock);
      AcceptTimed(CheckIframeAcked(c, f.nr, clock), f.ns, f.poll, f.payload);
      SmoothsBoth(c, CheckIframeAcked(c, f.nr, clock), OnIframe(c, p, clock), clock);
    } else {
      UpdateTimers(c, f.nr);
      AcceptTimed(UpdateAck(c, f.nr), f.ns, f.poll, f.payload);
      SameTimed(c, OnIframe(c, p, clock), e, clock);
    }
  }

  lemma SmoothsBoth(c: Conn, d: Conn, e: Conn, clock: Clock)
    requires SameTimers(d, e)
    ensures Smooths(c, d, clock) == Smooths(c, e, clock)
  {
    hide Smoothed, Twofold;
  }

  lemma AcceptTimed(c: Conn, ns: int, poll: bool, payload: seq<byte>)
    ensures SameTimers(c, AcceptIframe(c, ns, poll, payload))
  {
    hide Answer, Answers;
  }

  lemma PacketTimed(c: Conn, p: Packet, clock: Clock)
    requires Safe(c) && Regular(c) && Handled(p.frame)
    ensures Timed(c, OnPacket(c, p, clock), Receive(p), clock)
  {
    hide Safe, Regular, OnSabm, OnUa, OnRr, OnIframe, EnquiryResponse, Send, Timed, Within;
    match p.frame
    case Sabm(_) => SabmTimed(c, p, clock);
    case Sabme(_) => SabmTimed(c, p, clock);
    case Ui(_, _, _) => AnswerTimed(c); SendTimed(c, Plain(Dm(true), false)); SameTimed(c, OnUi(c, p), Receive(p), clock);
    case Ua(_) => UaTimed(c, p, clock);
    case Rr(_, _) =>
      if c.st == Connected { RrConnectedTimed(c, p, clock); }
      else if c.st == TimerRecovery { RrRecoveryTimed(c, p, clock); }
      else { IdleTimed(c, p, clock); }
    case IFrame(_, _, _, _, _, _) =>
      if InData(c) { IframeTimed(c, p, clock); } else { IdleTimed(c, p, clock); }
    case Dm(_) => EndTimed(c, p, clock);
    case Disc(_) => EndTimed(c, p, clock);
  }

  lemma IdleTimed(c: Conn, p: Packet, clock: Clock)
    requires !InData(c) && (p.frame.Rr? || p.frame.IFrame?)
    ensures Timed(c, if p.frame.Rr? then OnRr(c, p, clock) else OnIframe(c, p, clock), Receive(p), clock)
  {}

  /** An event that ends a session stops both timers. */
  lemma EndedTimed(c: Conn, d: Conn, e: Event, clock: Clock)
    requires InData(c) && d.st == Disconnected && !d.t3.running && SamePeriod(c, d) && !Measures(c, e) && !StartsT3(c, e)
    ensures Timed(c, d, e, clock)
  {
    hide Measures, StartsT3;
  }

  lemma EndTimed(c: Conn, p: Packet, clock: Clock)
    requires p.frame.Dm? || p.frame.Disc?
    ensures p.frame.Dm? ==> Timed(c, OnDm(c), Receive(p), clock)
    ensures p.frame.Disc? ==> Timed(c, OnDisc(c, p), Receive(p), clock)
  {
    hide Send, Measures, StartsT3, Timed;
    var e := Receive(p);
    NoMeasureAtEnd(c, p);
    SendTimed(c, Plain(Dm(if p.frame.Disc? then p.frame.poll else true), false));
    SendTimed(ClearQueues(c), Plain(Ua(if p.frame.Disc? then p.frame.poll else true), false));
    var d := if p.frame.Dm? then OnDm(c) else OnDisc(c, p);
    if InData(c) {
      EndedTimed(c, d, e, clock);
    } else {
      SameTimed(c, d, e, clock);
    }
  }

  lemma NoMeasureAtEnd(c: Conn, p: Packet)
    requires p.frame.Dm? || p.frame.Disc?
    ensures !Measures(c, Receive(p)) && !StartsT3(c, Receive(p))
  {}

  lemma RequestTimed(c: Conn, e: Event, clock: Clock)
    requires Regular(c) && !e.Receive? && Enabled(c, e)
    ensures Timed(c, Handle(c, e, clock), e, clock)
  {
    hide Send, SendStatus, SelectT1;
    match e
    case DlConnect(dst, src) =>
      ConnectTimed(c, dst, src, clock);
    case DlDisconnect => SendTimed(ClearQueues(c).(rc := 0), Plain(Disc(true), false));
    case T1Expires => T1Timed(c, clock);
    case _ =>
  }

  lemma ConnectTimed(c: Conn, dst: string, src: string, clock: Clock)
    ensures Timed(c, OnDlConnect(c, dst, src), DlConnect(dst, src), clock)
  {
    hide Timed, Establish, ClearQueues, PeriodAfter, T3After;
    var e, d := DlConnect(dst, src), OnDlConnect(c, dst, src);
    if c.st == Disconnected {
      EstablishTimed(c.(modulus := 8, src := src, dst := dst, srt := 3000.0, t1v := 6000, t1 := c.t1.(ms := 6000)));
      AskedTimed(c, d, e, clock);
    } else if c.st == Connected {
      EmptyTimed(c.(src := src, dst := dst));
      EstablishTimed(ClearQueues(c.(src := src, dst := dst)));
      AskedTimed(c, d, e, clock);
    } else {
      SameTimed(c, d, e, clock) by { NoMeasure(c, e); }
    }
  }

  lemma NoMeasure(c: Conn, e: Event)
    requires !e.Receive?
    ensures !Measures(c, e) && !StartsT3(c, e)
  {}

  lemma EmptyTimed(c: Conn)
    ensures SameTimers(c, ClearQueues(c))
  {}

  lemma AskedTimed(c: Conn, d: Conn, e: Event, clock: Clock)
    requires e.DlConnect? && (c.st == Disconnected || c.st == Connected)
    requires d.st == AwaitingConnection && !d.t3.running
    requires if c.st == Disconnected then d.srt == 3000.0 && d.t1.ms == 6000 else SamePeriod(c, d)
    ensures Timed(c, d, e, clock)
  {}

  lemma EstablishTimed(c: Conn)
    ensures var d := Establish(c); SamePeriod(c, d) && !d.t3.running && d.t1.running
  {}

  lemma T1Timed(c: Conn, clock: Clock)
    requires Regular(c) && c.t1.running
    ensures Timed(c, OnT1(StopT1(c), clock), T1Expires, clock)
  {
    hide SelectT1, TransmitEnquiry;
    var s := StopT1(c);
    EnquiryTimed(s.(rc := 1));
    EnquiryTimed(s.(rc := c.rc + 1));
    if c.st == AwaitingConnection {
      var asking := Send(s.(rc := c.rc + 1), Plain(Sabm(true), false));
      SendTimed(s.(rc := c.rc + 1), Plain(Sabm(true), false));
      SelectTimers(asking, clock);
      SelectPeriod(asking, clock);
    }
  }

  lemma EnquiryTimed(c: Conn)
    ensures var d := TransmitEnquiry(c);
            d.t1.running && SamePeriod(c, d) && d.t3 == c.t3 && d.st == c.st
  {}

  lemma PollTimers(c: Conn)
    ensures var d := Poll(c);
            && d.st == c.st && SamePeriod(c, d)
            && (InData(c) && c.t1.running ==> d.t1.running)
            && (d.t1.running || !InData(c) || d.t3.running == c.t3.running)
            && (!InData(c) ==> d == c)
  {
    hide NthFrame, PollCount, Burst;
  }

  lemma HandleTimed(c: Conn, e: Event, clock: Clock)
    requires Safe(c) && Regular(c) && Enabled(c, e)
    ensures Timed(c, Handle(c, e, clock), e, clock)
  {
    hide Safe, Regular, Timed, OnPacket;
    if e.Receive? {
      PacketTimed(c, e.p, clock);
    } else {
      RequestTimed(c, e, clock);
    }
  }

  lemma DisabledTimed(c: Conn, e: Event, clock: Clock)
    requires !Enabled(c, e)
    ensures PeriodAfter(c, c, e, clock) && T3After(c, e, c.st) == c.t3.running
  {}

  lemma OnlyDisconnecting(c: Conn, e: Event)
    requires After(c, e).st == AwaitingRelease && c.st != AwaitingRelease
    ensures e == DlDisconnect && InData(c)
  {
    hide Within;
  }

  /** A connection that waits for the release does not react to anything. */
  lemma ReleasingStays(c: Conn, e: Event, clock: Clock)
    requires c.st == AwaitingRelease
    ensures Step(c, e, clock) == match e
                                 case T1Expires => StopT1(c)
                                 case T3Expires => StopT3(c)
                                 case _ => c
  {
    hide OnUaAwaiting, Reestablish, OnRrConnected, OnRrRecovery, DataPoll;
  }

  lemma DisconnectRuns(c: Conn, clock: Clock)
    requires InData(c)
    ensures Step(c, DlDisconnect, clock).t1.running
  {
    hide Send, DataPoll;
    SendTimed(ClearQueues(c).(rc := 0), Plain(Disc(true), false));
  }

  lemma NeverBoth(c: Conn)
    requires Regular(c)
    ensures !(c.t1.running && c.t3.running)
  {}

  /** Main result: in every reachable state, which events move the round-trip time and T1's period and to
      what, and which start and stop the timers. */
  lemma StepTimed(c: Conn, e: Event, clock: Clock)
    requires Safe(c) && Regular(c)
    ensures var d := Step(c, e, clock);
            && PeriodAfter(c, d, e, clock)
            && (InData(d) && d.t1.running ==> !d.t3.running)
            && (!InData(d) || !d.t1.running ==> d.t3.running == T3After(c, e, d.st))
  {
    hide Safe, Regular, PeriodAfter, T3After, Handle, Poll, Enabled, Smooths;
    StepRegular(c, e, clock);
    var d := Step(c, e, clock);
    NeverBoth(d);
    if Enabled(c, e) {
      var mid := Handle(c, e, clock);
      HandleTimed(c, e, clock);
      PollTimers(mid);
      SamePeriodAfter(c, mid, d, e, clock);
    } else {
      DisabledTimed(c, e, clock);
    }
  }

  /** T1 runs from the DISC on until it has run out once. */
  lemma ReleasingRuns(c: Conn, e: Event, clock: Clock)
    requires Safe(c) && Regular(c)
    ensures var d := Step(c, e, clock);
            d.st == AwaitingRelease ==> d.t1.running == (c.st != AwaitingRelease || (e != T1Expires && c.t1.running))
  {
    hide Safe, Regular, Step, Enabled, After;
    StepReacts(c, e, clock);
    var d := Step(c, e, clock);
    if c.st == AwaitingRelease {
      ReleasingStays(c, e, clock);
      NotEnabled(c, e);
    } else if d.st == AwaitingRelease {
      OnlyDisconnecting(c, e);
      DisconnectRuns(c, clock);
    }
  }

  lemma NotEnabled(c: Conn, e: Event)
    ensures e == T1Expires && !Enabled(c, e) ==> !c.t1.running
  {}

  lemma SamePeriodAfter(c: Conn, d: Conn, d2: Conn, e: Event, clock: Clock)
    requires PeriodAfter(c, d, e, clock) && SamePeriod(d, d2)
    ensures PeriodAfter(c, d2, e, clock)
  {
    hide Measures, Smoothed, Twofold;
  }
}
