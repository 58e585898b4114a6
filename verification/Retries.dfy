/** The retry counter as a termination measure. */
module Retries {
  import opened Bytes
  import opened Packets
  import opened Modular
  import opened Link
  import opened LinkInvariants
  import opened Discipline

  /** Nothing that arrives gives a waiting connection more retries. */
  lemma RetriesNeverReturned(c: Conn, e: Event, clock: Clock)
    requires Safe(c) && Regular(c) && Waiting(c)
    ensures var d := Step(c, e, clock);
            && d.n2 == c.n2
            && (d.st == c.st ==> if e == T1Expires then d.rc == c.rc + 1 else d.rc == c.rc)
  {
    hide Safe, Poll, OnPacket, OnT1, OnDlConnect, OnDlDisconnect, OnDlData;
    if Enabled(c, e) {
      PollKeepsRetries(Handle(c, e, clock));
      match e
      case Receive(p) => PacketKeepsRetries(c, p, clock);
      case T1Expires => TickTakesRetry(StopT1(c), clock);
      case DlConnect(dst, src) => RequestKeepsRetries(c, dst, src, []);
      case DlData(payload) => RequestKeepsRetries(c, "", "", payload);
      case DlDisconnect => RequestKeepsRetries(c, "", "", []);
      case T3Expires =>
    }
  }

  lemma TickTakesRetry(c: Conn, clock: Clock)
    requires Waiting(c)
    ensures var d := OnT1(c, clock);
            d.n2 == c.n2 && (d.st == c.st ==> d.rc == c.rc + 1)
  {
    hide OnT1Awaiting, SendStatus;
    StatusRetries(c.(rc := c.rc + 1));
    AwaitingTakesRetry(c, clock);
  }

  lemma AwaitingTakesRetry(c: Conn, clock: Clock)
    ensures var d := OnT1Awaiting(c, clock);
            d.n2 == c.n2 && if c.rc == c.n2 then d.st == Disconnected else d.st == c.st && d.rc == c.rc + 1
  {
    hide NewSrt, NewPeriod, Send;
    StatusRetries(c.(rc := c.rc + 1));
  }

  lemma EnquiryTakesRetry(c: Conn)
    ensures SameRetries(c, TransmitEnquiry(c)) && TransmitEnquiry(c).st == c.st && TransmitEnquiry(c).t1.running
  {
    hide Addressed, Plain;
  }

  lemma StatusRetries(c: Conn)
    ensures SameRetries(c, SendStatus(c, true, true)) && SameRetries(c, Send(c, Plain(Sabm(true), false)))
            && Send(c, Plain(Sabm(true), false)).st == c.st
  {}

  lemma RequestKeepsRetries(c: Conn, dst: string, src: string, payload: seq<byte>)
    requires Waiting(c)
    ensures OnDlConnect(c, dst, src) == c
    ensures SameRetries(c, OnDlData(c, payload))
    ensures var d := OnDlDisconnect(c); d.n2 == c.n2 && (d == c || d.st == AwaitingRelease)
  {
    hide Establish, Send;
    SendRetries(ClearQueues(c).(rc := 0), Plain(Disc(true), false));
  }

  lemma SendRetries(c: Conn, p: Packet)
    ensures SameRetries(c, Send(c, p))
  {}

  lemma PollKeepsRetries(c: Conn)
    ensures Poll(c).rc == c.rc && Poll(c).n2 == c.n2 && Poll(c).st == c.st
  {}

  lemma PacketKeepsRetries(c: Conn, p: Packet, clock: Clock)
    requires Waiting(c) && Handled(p.frame)
    ensures var d := OnPacket(c, p, clock);
            d.n2 == c.n2 && (d.st == c.st ==> d.rc == c.rc)
  {
    hide OnRrConnected, OnRrRecovery, OnIframe, OnUa, OnSabmDisconnected, OnSabmConnected;
    hide OnUi, OnDm, OnDisc;
    match p.frame
    case Sabm(_) =>
    case Sabme(_) =>
    case Ua(_) => UaKeepsRetries(c, p, clock);
    case Rr(nr, poll) =>
      if c.st == TimerRecovery {
        RrKeepsRetries(c, nr, poll, p.commandResponse, clock);
      }
    case IFrame(_, _, _, _, _, _) => IframeKeepsRetries(c, p, clock);
    case Ui(_, _, _) => UiKeepsRetries(c, p);
    case Disc(_) => DiscKeepsRetries(c, p);
    case Dm(_) => DiscKeepsRetries(c, p);
  }

  lemma UiKeepsRetries(c: Conn, p: Packet)
    requires Waiting(c) && p.frame.Ui?
    ensures OnUi(c, p) == c
  {
    hide Send, EnquiryResponse;
  }

  lemma DiscKeepsRetries(c: Conn, p: Packet)
    requires Waiting(c)
    ensures OnDm(c).n2 == c.n2 && (OnDm(c) == c || OnDm(c).st == Disconnected)
    ensures p.frame.Disc? ==> OnDisc(c, p).n2 == c.n2 && (OnDisc(c, p) == c || OnDisc(c, p).st == Disconnected)
  {
    hide Send;
    if p.frame.Disc? {
      SendRetries(ClearQueues(c), Plain(Ua(p.frame.poll), false));
    }
  }

  predicate SameRetries(c: Conn, d: Conn) {
    d.n2 == c.n2 && d.rc == c.rc
  }

  lemma UaKeepsRetries(c: Conn, p: Packet, clock: Clock)
    requires Waiting(c) && p.frame.Ua?
    ensures var d := OnUa(c, p, clock);
            d.n2 == c.n2 && (d.st == c.st ==> d.rc == c.rc)
  {
    hide NewSrt, NewPeriod, Reestablish;
    ReestablishRetries(c);
  }

  lemma ReestablishRetries(c: Conn)
    ensures Reestablish(c).n2 == c.n2 && Reestablish(c).st == AwaitingConnection
  {}

  lemma AckRetries(c: Conn, nr: int)
    ensures SameRetries(c, UpdateAck(c, nr)) && SameRetries(c, InvokeRetransmission(c, nr))
  {
    hide Drop, Dist;
  }

  lemma EnquiryRetries(c: Conn)
    ensures SameRetries(c, EnquiryResponse(c, true))
  {}

  lemma RrKeepsRetries(c: Conn, nr: int, poll: bool, command: bool, clock: Clock)
    requires c.st == TimerRecovery
    ensures var d := OnRrRecovery(c, nr, poll, command, clock);
            d.n2 == c.n2 && (d.st == c.st ==> d.rc == c.rc)
  {
    hide Reestablish, EnquiryResponse, UpdateAck, InvokeRetransmission, InRange, NewSrt, NewPeriod;
    var free := c.(peerReceiverBusy := false);
    var measured := SelectT1(StopT1(free), clock);
    EnquiryRetries(free);
    AckRetries(free, nr);
    AckRetries(EnquiryResponse(free, true), nr);
    AckRetries(measured, nr);
    AckRetries(UpdateAck(measured, nr), nr);
    ReestablishRetries(free);
    ReestablishRetries(EnquiryResponse(free, true));
    ReestablishRetries(measured);
  }

  lemma IframeKeepsRetries(c: Conn, p: Packet, clock: Clock)
    requires Waiting(c) && p.frame.IFrame?
    ensures var d := OnIframe(c, p, clock);
            d.n2 == c.n2 && (d.st == c.st ==> d.rc == c.rc)
  {
    hide Reestablish, UpdateAck, InRange, CheckIframeAcked, AcceptIframe;
    AckRetries(c, p.frame.nr);
    ReestablishRetries(c);
    AcceptRetries(UpdateAck(c, p.frame.nr), p.frame.ns, p.frame.poll, p.frame.payload);
  }

  lemma AcceptRetries(c: Conn, ns: int, poll: bool, payload: seq<byte>)
    ensures SameRetries(c, AcceptIframe(c, ns, poll, payload))
  {
    hide Answer, Answers, Mod;
  }

  /** T1 running out again and again, with nothing else happening. */
  function Ticks(c: Conn, clocks: seq<Clock>): Conn
    decreases |clocks|
  {
    if clocks == [] then c else Ticks(Step(c, T1Expires, clocks[0]), clocks[1..])
  }

  /** How many times T1 has to run out before a waiting or sending connection gives up. */
  function TicksLeft(c: Conn): int {
    if c.st == Connected then c.n2 + 1 else c.n2 - c.rc + 1
  }

  lemma OneTick(c: Conn, clock: Clock)
    requires Safe(c) && Regular(c) && c.t1.running && (c.st == Connected || Waiting(c))
    ensures var d := Step(c, T1Expires, clock);
            && Safe(d) && Regular(d)
            && if TicksLeft(c) == 1 then d.st == Disconnected
               else d.t1.running && Waiting(d) && TicksLeft(d) == TicksLeft(c) - 1
  {
    hide Safe, Poll, OnT1Awaiting, TransmitEnquiry;
    StepRegular(c, T1Expires, clock);
    PollKeepsRetries(OnT1(StopT1(c), clock));
    AwaitingTakesRetry(StopT1(c), clock);
    EnquiryTakesRetry(StopT1(c).(rc := 1));
    EnquiryTakesRetry(StopT1(c).(rc := c.rc + 1));
  }

  /** Main result: with no answer the connection gives up after exactly TicksLeft expiries. */
  lemma {:induction false} SilenceEndsTheLink(c: Conn, clocks: seq<Clock>)
    requires Safe(c) && Regular(c) && c.t1.running && (c.st == Connected || Waiting(c))
    requires |clocks| <= TicksLeft(c)
    ensures Ticks(c, clocks).st == Disconnected <==> |clocks| == TicksLeft(c)
    decreases |clocks|
  {
    hide Safe, Regular, Step;
    TicksPositive(c);
    if clocks != [] {
      OneTick(c, clocks[0]);
      if TicksLeft(c) > 1 {
        SilenceEndsTheLink(Step(c, T1Expires, clocks[0]), clocks[1..]);
      } else {
        assert clocks[1..] == [];
      }
    }
  }

  lemma TicksPositive(c: Conn)
    requires Regular(c)
    ensures 1 <= TicksLeft(c) <= c.n2 + 1
  {}

  /** The SABM frame that asks for a link. */
  function SabmFrom(c: Conn): Packet {
    Addressed(c, Plain(Sabm(true), false))
  }

  function Copies(p: Packet, n: nat): seq<Packet> {
    if n == 0 then [] else [p] + Copies(p, n - 1)
  }

  lemma AwaitingTick(c: Conn, clock: Clock)
    requires c.st == AwaitingConnection && c.t1.running
    ensures var d := Step(c, T1Expires, clock);
            && d.n2 == c.n2 && d.src == c.src && d.dst == c.dst
            && if c.rc == c.n2 then d.sent == c.sent
               else d.st == AwaitingConnection && d.rc == c.rc + 1 && d.sent == c.sent + [SabmFrom(c)]
  {
    hide Poll, OnT1;
    T1Asks(StopT1(c), clock);
    PollIdle(OnT1(StopT1(c), clock));
  }

  lemma T1Asks(c: Conn, clock: Clock)
    requires c.st == AwaitingConnection
    ensures var d := OnT1(c, clock);
            && d.n2 == c.n2 && d.src == c.src && d.dst == c.dst && !InData(d)
            && if c.rc == c.n2 then d.sent == c.sent
               else d.st == AwaitingConnection && d.rc == c.rc + 1 && d.sent == c.sent + [SabmFrom(c)]
  {
    hide NewSrt, NewPeriod, Addressed;
    if c.rc != c.n2 {
      var asking := c.(rc := c.rc + 1);
      assert SabmFrom(asking) == SabmFrom(c) by { SameAddresses(asking, c, Plain(Sabm(true), false)); }
    }
  }

  lemma SameAddresses(c: Conn, d: Conn, p: Packet)
    requires c.src == d.src && c.dst == d.dst
    ensures Addressed(c, p) == Addressed(d, p)
  {}

  lemma {:induction false} SabmsWhileWaiting(c: Conn, clocks: seq<Clock>)
    requires Safe(c) && Regular(c) && c.st == AwaitingConnection && |clocks| == TicksLeft(c)
    ensures Ticks(c, clocks).sent == c.sent + Copies(SabmFrom(c), c.n2 - c.rc)
    ensures Ticks(c, clocks).st == Disconnected
    decreases |clocks|
  {
    hide Safe, Regular, Step;
    TicksPositive(c);
    WaitingRuns(c);
    SilenceEndsTheLink(c, clocks);
    var d := Step(c, T1Expires, clocks[0]);
    OneTick(c, clocks[0]);
    AwaitingTick(c, clocks[0]);
    if c.rc == c.n2 {
      assert clocks[1..] == [];
    } else {
      SabmsWhileWaiting(d, clocks[1..]);
      assert Ticks(c, clocks) == Ticks(d, clocks[1..]);
    }
  }

  lemma Asked(c: Conn, dst: string, src: string, clock: Clock)
    requires c.st == Disconnected
    ensures var d := Step(c, DlConnect(dst, src), clock);
            && d.st == AwaitingConnection && d.n2 == c.n2 && d.rc == 0 && d.src == src && d.dst == dst
            && d.sent == c.sent + [SabmFrom(c.(src := src, dst := dst))]
  {
    hide DataPoll;
  }

  /** Main result: an unanswered connect sends exactly n2 + 1 SABMs and then gives up. */
  lemma UnansweredConnect(c: Conn, dst: string, src: string, clock: Clock, clocks: seq<Clock>)
    requires Safe(c) && Regular(c) && c.st == Disconnected && |clocks| == c.n2 + 1
    ensures var asked := Step(c, DlConnect(dst, src), clock);
            && Ticks(asked, clocks).st == Disconnected
            && Ticks(asked, clocks).sent == c.sent + Copies(SabmFrom(c.(src := src, dst := dst)), c.n2 + 1)
  {
    hide Safe, Step;
    var asked := Step(c, DlConnect(dst, src), clock);
    Asked(c, dst, src, clock);
    StepRegular(c, DlConnect(dst, src), clock);
    SabmsWhileWaiting(asked, clocks);
    var p := SabmFrom(c.(src := src, dst := dst));
    assert c.sent + [p] + Copies(p, c.n2) == c.sent + Copies(p, c.n2 + 1);
  }
}
