/** What every event keeps, whatever packets arrive and in whatever order requests and timers come. */
module LinkInvariants {
  import opened Bytes
  import opened Packets
  import opened Modular
  import opened Link

  predicate IsSuffix<T(==)>(short: seq<T>, long: seq<T>) {
    |short| <= |long| && short == long[|long| - |short|..]
  }

  predicate Numbered(c: Conn) {
    c.modulus > 0 && 0 <= c.va < c.modulus && 0 <= c.vs < c.modulus && 0 <= c.vr < c.modulus
  }

  /** The queues stay in step, and no more frames are outstanding than the window and the resend queue
      allow: enough for every assertion in the program to hold and no remainder by zero to be taken. */
  predicate Safe(c: Conn) {
    && c.k == 7
    && (c.modulus == 0 || c.modulus == 8 || c.modulus == 128)
    && (c.st == AwaitingConnection ==> c.modulus > 0)
    && IsSuffix(c.queue, c.resend)
    && (InData(c) ==> Numbered(c) && Outstanding(c) <= c.k && Outstanding(c) <= |c.resend| - |c.queue|)
  }

  lemma SuffixDrop<T>(short: seq<T>, long: seq<T>, n: nat)
    requires IsSuffix(short, long) && n <= |long| - |short|
    ensures IsSuffix(short, long[n..])
  {}

  lemma SuffixOfSuffix<T>(short: seq<T>, long: seq<T>, n: nat)
    requires IsSuffix(short, long) && n <= |short|
    ensures IsSuffix(short[n..], long)
  {}

  lemma SuffixSnoc<T>(short: seq<T>, long: seq<T>, x: T)
    requires IsSuffix(short, long)
    ensures IsSuffix(short + [x], long + [x])
  {}

  /** An accepted N(R) takes exactly the frames before it off the resend queue. */
  lemma AckSafe(c: Conn, nr: int)
    requires Safe(c) && InData(c) && InRange(c.va, nr, c.vs, c.modulus)
    ensures var d := Dist(c.va, nr, c.modulus);
            && 0 <= d <= Outstanding(c) <= |c.resend|
            && UpdateAck(c, nr).resend == c.resend[d..]
            && Outstanding(UpdateAck(c, nr)) == Outstanding(c) - d
    ensures Safe(UpdateAck(c, nr))
  {
    DistNear(c.va, nr, c.modulus);
    DistNear(c.va, c.vs, c.modulus);
    DistNear(nr, c.vs, c.modulus);
    SuffixDrop(c.queue, c.resend, Dist(c.va, nr, c.modulus));
  }

  predicate SameWindow(c: Conn, d: Conn) {
    && d.modulus == c.modulus && d.k == c.k && d.va == c.va && d.vs == c.vs && d.vr == c.vr
    && d.queue == c.queue && d.resend == c.resend
  }

  /** Leaving the data states is always safe; other changes of state must not touch the window. */
  lemma SameWindowSafe(c: Conn, d: Conn)
    requires Safe(c) && SameWindow(c, d)
    requires d.st == c.st || (InData(c) && d.st != AwaitingConnection) || (d.st != AwaitingConnection && !InData(d))
          || (c.modulus > 0 && d.st == AwaitingConnection)
    ensures Safe(d)
  {}

  lemma EmptiedSafe(c: Conn, d: Conn)
    requires Safe(c) && d.modulus == c.modulus && d.k == c.k && d.queue == [] && d.resend == []
    requires d.st == Disconnected || d.st == AwaitingRelease || (d.st == AwaitingConnection && d.modulus > 0)
    ensures Safe(d)
  {}

  /** A new session begins with all numbers zero. */
  lemma ZeroedSafe(d: Conn)
    requires d.k == 7 && (d.modulus == 8 || d.modulus == 128) && d.va == d.vs == d.vr == 0
    requires IsSuffix(d.queue, d.resend) && InData(d)
    ensures Safe(d)
  {
    ZeroOutstanding(d);
  }

  lemma CheckAckSafe(c: Conn, nr: int, clock: Clock)
    requires Safe(c) && InData(c) && InRange(c.va, nr, c.vs, c.modulus)
    ensures Safe(CheckIframeAcked(c, nr, clock))
  {
    hide NewSrt, NewPeriod, Safe, InRange, UpdateAck;
    AckSafe(c, nr);
    var u := UpdateAck(c, nr);
    if c.peerReceiverBusy {
      SameWindowSafe(u, StartT1(StartT3(u)));
    } else if nr == c.vs {
      SameWindowSafe(u, SelectT1(StartT3(StopT1(u)), clock));
    } else if nr != c.va {
      SameWindowSafe(u, StartT1(u));
    }
  }

  lemma SendingSafe(c: Conn, n: nat)
    requires Safe(c) && InData(c) && n <= PollCount(c)
    ensures Safe(Sending(c, n)) && Outstanding(Sending(c, n)) == Outstanding(c) + n
  {
    hide Burst;
    SuffixOfSuffix(c.queue, c.resend, n);
    WindowAdvance(c.va, c.vs, n, c.modulus);
    var d := Sending(c, n);
    assert d.resend == c.resend && d.va == c.va && d.vr == c.vr && d.modulus == c.modulus && d.k == c.k && d.st == c.st;
    if n > 0 {
      assert d.queue == c.queue[n..] && d.vs == Mod(c.vs + n, c.modulus);
    }
  }

  lemma WindowAdvance(va: int, vs: int, n: nat, m: int)
    requires m == 8 || m == 128
    requires 0 <= va < m && 0 <= vs < m && Dist(va, vs, m) + n <= 7
    ensures Dist(va, Mod(vs + n, m), m) == Dist(va, vs, m) + n
  {
    DistNear(va, vs, m);
    ModNear(vs + n, m);
    DistNear(va, Mod(vs + n, m), m);
  }

  lemma PollSafe(c: Conn)
    requires Safe(c)
    ensures Safe(Poll(c))
  {
    hide Safe, Sending;
    if InData(c) {
      SendingSafe(c, PollCount(c));
    }
  }

  lemma PollIdle(c: Conn)
    requires !InData(c)
    ensures Poll(c) == c
  {}

  lemma ZeroOutstanding(c: Conn)
    requires c.modulus > 0 && c.va == c.vs && 0 <= c.va < c.modulus
    ensures Outstanding(c) == 0
  {
    DistNear(c.va, c.vs, c.modulus);
  }

  lemma SabmDisconnectedSafe(c: Conn, p: Packet)
    requires Safe(c) && (p.frame.Sabm? || p.frame.Sabme?)
    ensures Safe(OnSabmDisconnected(c, p))
  {
    var d := OnSabmDisconnected(c, p);
    assert d.queue == c.queue && d.resend == c.resend && d.k == c.k;
    ZeroedSafe(d);
  }

  lemma SabmConnectedSafe(c: Conn, p: Packet)
    requires Safe(c) && c.st == Connected && (p.frame.Sabm? || p.frame.Sabme?)
    ensures Safe(OnSabmConnected(c, p))
  {
    var d := OnSabmConnected(c, p);
    assert d.modulus == c.modulus && d.k == c.k && d.st == c.st;
    assert IsSuffix(d.queue, d.resend);
    ZeroedSafe(d);
  }

  lemma UaSafe(c: Conn, clock: Clock)
    requires Safe(c) && c.st == AwaitingConnection
    ensures Safe(OnUaAwaiting(c, clock))
  {
    hide NewSrt, NewPeriod;
    var d := OnUaAwaiting(c, clock);
    assert d.modulus == c.modulus && d.k == c.k;
    assert IsSuffix(d.queue, d.resend);
    ZeroedSafe(d);
  }

  lemma ReestablishSafe(c: Conn)
    requires Safe(c) && InData(c)
    ensures Safe(Reestablish(c))
  {
    SameWindowSafe(c, Reestablish(c));
  }

  lemma SendSameWindow(c: Conn, p: Packet)
    ensures SameWindow(c, Send(c, p)) && Send(c, p).st == c.st
  {}

  lemma EnquirySameWindow(c: Conn)
    ensures SameWindow(c, EnquiryResponse(c, true)) && EnquiryResponse(c, true).st == c.st
  {}

  lemma SelectSameWindow(c: Conn, clock: Clock)
    ensures SameWindow(c, SelectT1(c, clock)) && SelectT1(c, clock).st == c.st
  {
    hide NewSrt, NewPeriod;
  }

  /** What precedes the use of an N(R) leaves the window alone. */
  lemma AnsweredSafe(c: Conn, asked: bool)
    requires Safe(c)
    ensures var free := c.(peerReceiverBusy := false);
            var d := if asked then EnquiryResponse(free, true) else free;
            Safe(d) && SameWindow(c, d) && d.st == c.st
  {
    hide Safe, EnquiryResponse;
    var free := c.(peerReceiverBusy := false);
    EnquirySameWindow(free);
    SameWindowSafe(c, free);
    SameWindowSafe(c, EnquiryResponse(free, true));
  }

  lemma RrConnectedSafe(c: Conn, nr: int, poll: bool, command: bool, clock: Clock)
    requires Safe(c) && c.st == Connected
    ensures Safe(OnRrConnected(c, nr, poll, command, clock))
  {
    hide Safe, CheckIframeAcked, InRange, Reestablish, EnquiryResponse;
    AnsweredSafe(c, command && poll);
    var free := c.(peerReceiverBusy := false);
    var answered := if command && poll then EnquiryResponse(free, true) else free;
    if InRange(c.va, nr, c.vs, c.modulus) {
      CheckAckSafe(answered, nr, clock);
    } else {
      ReestablishSafe(answered);
    }
  }

  lemma FinalSafe(c: Conn, nr: int, clock: Clock)
    requires Safe(c) && c.st == TimerRecovery
    ensures Safe(OnFinal(c, nr, clock))
  {
    hide Safe, SelectT1, InRange, Reestablish, UpdateAck, InvokeRetransmission;
    var measured := SelectT1(StopT1(c), clock);
    SelectSameWindow(StopT1(c), clock);
    SameWindowSafe(c, measured);
    if InRange(c.va, nr, c.vs, c.modulus) {
      AckSafe(measured, nr);
      AckedAt(measured, nr);
      var acked := UpdateAck(measured, nr);
      RetransmissionSafe(acked, nr);
      SameWindowSafe(acked, StartT3(acked).(st := Connected));
    } else {
      ReestablishSafe(measured);
    }
  }

  lemma AckedAt(c: Conn, nr: int)
    ensures UpdateAck(c, nr).va == nr && UpdateAck(c, nr).st == c.st
  {}

  lemma RrRecoverySafe(c: Conn, nr: int, poll: bool, command: bool, clock: Clock)
    requires Safe(c) && c.st == TimerRecovery
    ensures Safe(OnRrRecovery(c, nr, poll, command, clock))
  {
    hide Safe, InRange, Reestablish, EnquiryResponse, OnFinal, UpdateAck;
    AnsweredSafe(c, command && poll);
    var free := c.(peerReceiverBusy := false);
    SameWindowSafe(c, free);
    if !command && poll {
      FinalSafe(free, nr, clock);
    } else {
      var answered := if command && poll then EnquiryResponse(free, true) else free;
      if InRange(c.va, nr, c.vs, c.modulus) {
        AckSafe(answered, nr);
      } else {
        ReestablishSafe(answered);
      }
    }
  }

  lemma RetransmissionSafe(c: Conn, nr: int)
    requires Safe(c) && InData(c) && nr == c.va
    ensures Safe(InvokeRetransmission(c, nr))
  {
    ZeroOutstanding(InvokeRetransmission(c, nr));
  }

  lemma AcceptSafe(c: Conn, ns: int, poll: bool, payload: seq<byte>)
    requires Safe(c) && InData(c)
    ensures Safe(AcceptIframe(c, ns, poll, payload))
  {
    hide Answer, Answers;
    var a := AcceptIframe(c, ns, poll, payload);
    assert a.st == c.st && a.va == c.va && a.vs == c.vs && a.modulus == c.modulus && a.k == c.k;
    assert a.queue == c.queue && a.resend == c.resend;
  }

  lemma IframeSafe(c: Conn, p: Packet, clock: Clock)
    requires Safe(c) && p.frame.IFrame?
    ensures Safe(OnIframe(c, p, clock))
  {
    hide Safe, UpdateAck, CheckIframeAcked, InRange, AcceptIframe, Reestablish;
    var f := p.frame;
    if InData(c) && p.commandResponse {
      ReestablishSafe(c);
      if InRange(c.va, f.nr, c.vs, c.modulus) {
        CheckAckSafe(c, f.nr, clock);
        AckSafe(c, f.nr);
        AckKeepsState(c, f.nr, clock);
        AcceptSafe(if c.st == Connected then CheckIframeAcked(c, f.nr, clock) else UpdateAck(c, f.nr), f.ns, f.poll, f.payload);
      }
    }
  }

  lemma AckKeepsState(c: Conn, nr: int, clock: Clock)
    ensures UpdateAck(c, nr).st == c.st && CheckIframeAcked(c, nr, clock).st == c.st
  {
    hide NewSrt, NewPeriod;
  }

  lemma T1ConnectedSafe(c: Conn)
    requires Safe(c) && c.st == Connected
    ensures Safe(OnT1Connected(c))
  {
    hide Safe;
    SameWindowSafe(c, OnT1Connected(c));
  }

  lemma T1RecoverySafe(c: Conn)
    requires Safe(c) && c.st == TimerRecovery
    ensures Safe(OnT1Recovery(c))
  {
    hide Safe;
    if c.rc != c.n2 {
      SameWindowSafe(c, TransmitEnquiry(c.(rc := c.rc + 1)));
    } else {
      SameWindowSafe(c, c.(st := Disconnected));
    }
  }

  lemma T1AwaitingSafe(c: Conn, clock: Clock)
    requires Safe(c) && c.st == AwaitingConnection
    ensures Safe(OnT1Awaiting(c, clock))
  {
    hide NewSrt, NewPeriod, Safe;
    if c.rc == c.n2 {
      EmptiedSafe(c, OnT1Awaiting(c, clock));
    } else {
      SameWindowSafe(c, OnT1Awaiting(c, clock));
    }
  }

  lemma T1Safe(c: Conn, clock: Clock)
    requires Safe(c)
    ensures Safe(OnT1(c, clock))
  {
    hide Safe, OnT1Connected, OnT1Recovery, OnT1Awaiting;
    match c.st
    case Connected => T1ConnectedSafe(c);
    case TimerRecovery => T1RecoverySafe(c);
    case AwaitingConnection => T1AwaitingSafe(c, clock);
    case _ =>
  }

  lemma DisconnectSafe(c: Conn)
    requires Safe(c)
    ensures Safe(OnDlDisconnect(c))
  {
    hide Safe;
    if InData(c) {
      EmptiedSafe(c, OnDlDisconnect(c));
    }
  }

  lemma ConnectSafe(c: Conn, dst: string, src: string)
    requires Safe(c)
    ensures Safe(OnDlConnect(c, dst, src))
  {
    var d := OnDlConnect(c, dst, src);
    if c.st == Disconnected {
      assert d.queue == c.queue && d.resend == c.resend && d.k == c.k && d.modulus == 8 && d.st == AwaitingConnection;
    } else if c.st == Connected {
      EmptiedSafe(c, d);
    }
  }

  lemma DataSafe(c: Conn, payload: seq<byte>)
    requires Safe(c)
    ensures Safe(OnDlData(c, payload))
  {
    SuffixSnoc(c.queue, c.resend, payload);
  }

  lemma UiSafe(c: Conn, p: Packet)
    requires Safe(c) && p.frame.Ui?
    ensures Safe(OnUi(c, p))
  {
    hide Safe, Send, EnquiryResponse;
    SendSameWindow(c, Plain(Dm(true), false));
    EnquirySameWindow(c);
    if p.frame.push != 0 && c.st == Disconnected {
      SameWindowSafe(c, Send(c, Plain(Dm(true), false)));
    } else if p.frame.push != 0 && c.st == Connected {
      SameWindowSafe(c, EnquiryResponse(c, true));
    }
  }

  lemma DmSafe(c: Conn)
    requires Safe(c)
    ensures Safe(OnDm(c))
  {
    hide Safe;
    if InData(c) {
      EmptiedSafe(c, OnDm(c));
    }
  }

  lemma DiscSafe(c: Conn, p: Packet)
    requires Safe(c) && p.frame.Disc?
    ensures Safe(OnDisc(c, p))
  {
    hide Safe;
    if InData(c) {
      EmptiedSafe(c, OnDisc(c, p));
    } else {
      SameWindowSafe(c, OnDisc(c, p));
    }
  }

  lemma PacketSafe(c: Conn, p: Packet, clock: Clock)
    requires Safe(c) && Handled(p.frame)
    ensures Safe(OnPacket(c, p, clock))
  {
    hide Safe, OnSabmDisconnected, OnSabmConnected, OnUaAwaiting, Reestablish;
    hide OnRrConnected, OnRrRecovery, OnIframe, OnUi, OnDm, OnDisc;
    var f := p.frame;
    if InData(c) { ReestablishSafe(c); }
    match f
    case Sabm(_) => if c.st == Disconnected { SabmDisconnectedSafe(c, p); } else if c.st == Connected { SabmConnectedSafe(c, p); }
    case Sabme(_) => if c.st == Disconnected { SabmDisconnectedSafe(c, p); }
    case Ua(_) => if c.st == AwaitingConnection { UaSafe(c, clock); }
    case Rr(_, _) =>
      if c.st == Connected {
        RrConnectedSafe(c, f.nr, f.poll, p.commandResponse, clock);
      } else if c.st == TimerRecovery {
        RrRecoverySafe(c, f.nr, f.poll, p.commandResponse, clock);
      }
    case IFrame(_, _, _, _, _, _) => IframeSafe(c, p, clock);
    case Ui(_, _, _) => UiSafe(c, p);
    case Dm(_) => DmSafe(c);
    case Disc(_) => DiscSafe(c, p);
  }

  lemma HandleSafe(c: Conn, e: Event, clock: Clock)
    requires Safe(c) && Enabled(c, e)
    ensures Safe(Handle(c, e, clock))
  {
    hide Safe, OnPacket, OnT1, OnDlConnect, OnDlDisconnect, OnDlData;
    match e
    case Receive(p) => PacketSafe(c, p, clock);
    case DlConnect(dst, src) => ConnectSafe(c, dst, src);
    case DlData(payload) => DataSafe(c, payload);
    case DlDisconnect => DisconnectSafe(c);
    case T1Expires =>
      SameWindowSafe(c, StopT1(c));
      T1Safe(StopT1(c), clock);
    case T3Expires => SameWindowSafe(c, StopT3(c));
  }

  lemma StepSafe(c: Conn, e: Event, clock: Clock)
    requires Safe(c)
    ensures Safe(Step(c, e, clock))
  {
    hide Safe, Handle, Poll;
    if Enabled(c, e) {
      HandleSafe(c, e, clock);
      PollSafe(Handle(c, e, clock));
    }
  }
}
