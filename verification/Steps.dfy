/** What one event does to a session: to the numbers of its sender and to what its receiver
    delivers. */
module Steps {
  import opened Bytes
  import opened Packets
  import opened Modular
  import opened Link
  import opened LinkInvariants
  import opened Discipline
  import opened Talk
  import opened Windows

  /** The events that begin a session, zeroing all numbers. */
  predicate Resets(c: Conn, e: Event) {
    e.Receive? &&
    match c.st
    case Disconnected => e.p.frame.Sabm? || e.p.frame.Sabme?
    case Connected => e.p.frame.Sabm?
    case AwaitingConnection => e.p.frame.Ua? && e.p.frame.poll
    case _ => false
  }

  /** An I frame whose N(R) is used. */
  predicate IsHeard(c: Conn, e: Event) {
    e.Receive? && e.p.frame.IFrame? && e.p.commandResponse && Usable(c, e.p)
  }

  /** The events that a session in a data state survives. */
  predicate GoesOn(c: Conn, e: Event) {
    match e
    case DlConnect(_, _) => c.st == TimerRecovery
    case DlDisconnect => false
    case T1Expires => c.st == Connected || !c.t1.running || c.rc != c.n2
    case Receive(p) =>
      match p.frame {
        case Ua(_) => false
        case Dm(_) => false
        case Disc(_) => false
        case Rr(nr, _) => InRange(c.va, nr, c.vs, c.modulus)
        case IFrame(_, _, _, _, _, _) => !p.commandResponse || Usable(c, p)
        case _ => true
      }
    case _ => true
  }

  /** How many payloads an event acknowledges. */
  function AckedBy(c: Conn, e: Event): int {
    if e.Receive? && e.p.frame.Rr? then Dist(c.va, e.p.frame.nr, c.modulus)
    else if e.Receive? && e.p.frame.IFrame? && e.p.commandResponse then Dist(c.va, e.p.frame.nr, c.modulus)
    else 0
  }

  function Accepted(c: Conn, acc: seq<Payload>, e: Event): seq<Payload> {
    if e.DlData? && InData(c) then acc + [e.payload] else acc
  }

  /** The answer with F=1 that ends timer recovery and leaves payloads unacknowledged. */
  predicate Retransmits(c: Conn, e: Event) {
    && c.st == TimerRecovery && e.Receive? && e.p.frame.Rr? && e.p.frame.poll && !e.p.commandResponse
    && e.p.frame.nr != c.vs
  }

  /** The number of the first payload that an event may send. */
  function From(c: Conn, acc: seq<Payload>, e: Event): int {
    if Retransmits(c, e) then Acked(c, acc) + AckedBy(c, e) else Next(c, acc)
  }

  lemma PacketInStep(c: Conn, acc: seq<Payload>, p: Packet, clock: Clock)
    requires Safe(c) && InData(c) && InStep(c, acc) && Handled(p.frame) && !Resets(c, Receive(p))
    ensures var e, mid := Receive(p), OnPacket(c, p, clock);
            && InData(mid) == GoesOn(c, e)
            && (InData(mid) ==> Kept(c, mid, acc, AckedBy(c, e)) && Next(mid, acc) == From(c, acc, e))
  {
    hide Safe, InStep, InRange, Dist, OnSabmDisconnected, OnSabmConnected;
    hide OnRrConnected, OnRrRecovery, OnIframe, Reestablish, OnUi, OnDm, OnDisc;
    match p.frame
    case Ui(_, _, _) => UiStays(c, p); SameQueuesInStep(c, OnUi(c, p), acc);
    case Ua(_) => AckStays(c, 0, clock);
    case Rr(nr, poll) =>
      if c.st == Connected {
        RrConnectedInStep(c, acc, nr, poll, p.commandResponse, clock);
      } else {
        RrRecoveryInStep(c, acc, nr, poll, p.commandResponse, clock);
      }
    case IFrame(_, _, _, _, _, _) => IframeInStep(c, acc, p, clock);
    case Dm(_) => EndStays(c, p);
    case Disc(_) => EndStays(c, p);
    case _ =>
  }

  lemma UiStays(c: Conn, p: Packet)
    requires p.frame.Ui?
    requires InData(c)
    ensures SameQueues(c, OnUi(c, p)) && OnUi(c, p).st == c.st
  {
    hide EnquiryResponse;
    EnquiryStays(c);
  }

  lemma EndStays(c: Conn, p: Packet)
    requires InData(c) && (p.frame.Dm? || p.frame.Disc?)
    ensures p.frame.Dm? ==> !InData(OnDm(c))
    ensures p.frame.Disc? ==> !InData(OnDisc(c, p))
  {}

  lemma HandleInStep(c: Conn, acc: seq<Payload>, e: Event, clock: Clock)
    requires Safe(c) && InData(c) && InStep(c, acc) && Enabled(c, e) && !Resets(c, e)
    ensures var mid, more := Handle(c, e, clock), Accepted(c, acc, e);
            && InData(mid) == GoesOn(c, e)
            && (InData(mid) ==>
                  && InStep(mid, more) && Acked(mid, more) == Acked(c, acc) + AckedBy(c, e)
                  && Next(mid, more) == From(c, acc, e))
  {
    hide Safe, InStep, InRange, Dist, OnPacket, OnDlConnect, OnDlDisconnect, OnT1Connected, OnT1Recovery;
    match e
    case Receive(p) => PacketInStep(c, acc, p, clock);
    case DlConnect(dst, src) => ConnectLeaves(c, dst, src);
    case DlData(payload) => DataInStep(c, acc, payload);
    case DlDisconnect => ConnectLeaves(c, "", "");
    case T1Expires =>
      T1Stays(c);
      SameQueuesInStep(c, if c.st == Connected then OnT1Connected(StopT1(c)) else OnT1Recovery(StopT1(c)), acc);
    case T3Expires => SameQueuesInStep(c, StopT3(c), acc);
  }

  lemma ConnectLeaves(c: Conn, dst: string, src: string)
    requires InData(c)
    ensures if c.st == Connected then !InData(OnDlConnect(c, dst, src)) else OnDlConnect(c, dst, src) == c
    ensures !InData(OnDlDisconnect(c))
  {}

  lemma T1Stays(c: Conn)
    requires InData(c)
    ensures SameQueues(c, OnT1Connected(StopT1(c))) && OnT1Connected(StopT1(c)).st == TimerRecovery
    ensures var d := OnT1Recovery(StopT1(c)); SameQueues(c, d) && d.st == if c.rc != c.n2 then c.st else Disconnected
  {
    hide TransmitEnquiry;
    EnquiryGoes(StopT1(c).(rc := 1));
    EnquiryGoes(StopT1(c).(rc := c.rc + 1));
  }

  lemma EnquiryGoes(c: Conn)
    ensures SameQueues(c, TransmitEnquiry(c)) && TransmitEnquiry(c).st == c.st
  {
    hide Addressed, Plain;
  }

  lemma PollStays(c: Conn)
    ensures InData(Poll(c)) == InData(c)
  {}

  /** Main result for the sender: the numbers stay right through every event that a session
      survives, and every I frame that leaves carries its own number. */
  lemma StepLabelled(c: Conn, acc: seq<Payload>, e: Event, clock: Clock)
    requires Safe(c) && Regular(c) && InData(c) && Labelled(c, acc) && !Resets(c, e)
    ensures var d, more := Step(c, e, clock), Accepted(c, acc, e);
            && InData(d) == (!Enabled(c, e) || GoesOn(c, e))
            && (InData(d) ==>
                  && Labelled(d, more) && InSequence(c, d, more)
                  && Next(d, more) >= Next(c, acc) && Acked(d, more) >= Acked(c, acc))
            && (InData(d) && Enabled(c, e) ==> Acked(d, more) == Acked(c, acc) + AckedBy(c, e))
  {
    hide Safe, Regular, Pending, Handle, Poll, GoesOn, Dist, InSequence, InRange;
    if Enabled(c, e) {
      var mid, more := Handle(c, e, clock), Accepted(c, acc, e);
      HandleInStep(c, acc, e, clock);
      HandleSafe(c, e, clock);
      HandlePending(c, e, clock);
      PollStays(mid);
      if InData(mid) {
        RegularIsPlain(c);
        HandleAnswers(c, e, clock);
        PendingParts(mid);
        PollLabels(c, mid, more);
        AckedByPositive(c, e);
        PollSafe(mid);
        WindowSize(c);
        WindowSize(Poll(mid));
        PollGrows(c, acc, Poll(mid), more);
      }
    } else {
      NothingSent(c, acc);
    }
  }

  lemma RegularIsPlain(c: Conn)
    requires Regular(c)
    ensures PlainGoBackN(c) && Conserving(c)
  {}

  lemma NothingSent(c: Conn, acc: seq<Payload>)
    ensures InSequence(c, c, acc)
  {}

  lemma AckedByPositive(c: Conn, e: Event)
    requires Safe(c) && InData(c)
    ensures AckedBy(c, e) >= 0
  {}

  /** V(S) never goes back between events, though a retransmission takes it back within one. */
  lemma PollGrows(c: Conn, acc: seq<Payload>, d: Conn, more: seq<Payload>)
    requires Labelled(c, acc) && Labelled(d, more) && |acc| <= |more| && c.k == d.k && Acked(c, acc) <= Acked(d, more)
    ensures Next(c, acc) <= Next(d, more)
  {
    hide Mod;
  }

  /** Main result: a session sends as much as the window allows.  Exactly min(k, unacknowledged)
      frames are outstanding. */
  lemma WorkConserved(c: Conn, acc: seq<Payload>)
    requires Safe(c) && InData(c) && Labelled(c, acc)
    ensures Outstanding(c) == if |c.resend| < c.k then |c.resend| else c.k
  {
    OutstandingIs(c, acc);
  }

  /** Main result: of the I frames that an event sends, in any session, only the last one can have
      its P bit set, and it has exactly when the window is now full. */
  lemma StepPolls(c: Conn, e: Event, clock: Clock)
    requires Safe(c) && Regular(c)
    ensures var d := Step(c, e, clock);
            && |c.sent| <= |d.sent|
            && forall j :: |c.sent| <= j < |d.sent| && d.sent[j].frame.IFrame? ==>
                 (d.sent[j].frame.poll <==> j == |d.sent| - 1 && Outstanding(d) == d.k)
  {
    hide Safe, Regular, Handle, Poll, Dist, Mod, Answered;
    if Enabled(c, e) {
      RegularIsPlain(c);
      HandleAnswers(c, e, clock);
      HandleSafe(c, e, clock);
      PollPolls(c, Handle(c, e, clock));
    }
  }

  lemma PollPolls(c: Conn, mid: Conn)
    requires Safe(mid) && Answered(c, mid)
    ensures var d := Poll(mid);
            && |c.sent| <= |d.sent|
            && forall j :: |c.sent| <= j < |d.sent| && d.sent[j].frame.IFrame? ==>
                 (d.sent[j].frame.poll <==> j == |d.sent| - 1 && Outstanding(d) == d.k)
  {
    hide Safe, Dist, Mod, NthFrame, Addressed, PollCount;
    var d := Poll(mid);
    if InData(mid) {
      var n := PollCount(mid);
      SendingSafe(mid, n);
      PollFits(mid);
      forall j | |c.sent| <= j < |d.sent| && d.sent[j].frame.IFrame?
        ensures d.sent[j].frame.poll <==> j == |d.sent| - 1 && Outstanding(d) == d.k
      {
        if j >= |mid.sent| {
          NthPolls(mid, j - |mid.sent|);
          assert d.sent[j] == NthFrame(mid, j - |mid.sent|);
        }
      }
    }
  }

  /** The i-th frame of a retransmission from N(R). */
  predicate Resent(f: Frame, c: Conn, nr: int, unacked: seq<Payload>, i: int) {
    && f.IFrame? && f.ns == Mod(nr + i, c.modulus) && f.nr == c.vr
    && 0 <= i < |unacked| && f.payload == unacked[i]
    && (f.poll <==> i == c.k - 1)
  }

  /** Main result: an answer with F=1 that leaves payloads unacknowledged makes the event send exactly
      the first min(k, unacknowledged) of them, in order, numbered from N(R), in any session. */
  lemma RetransmissionExact(c: Conn, e: Event, clock: Clock)
    requires Safe(c) && Regular(c) && Retransmits(c, e) && InRange(c.va, e.p.frame.nr, c.vs, c.modulus)
    ensures var d, nr := Step(c, e, clock), e.p.frame.nr;
            var n := if |d.resend| < c.k then |d.resend| else c.k;
            && 0 <= AckedBy(c, e) <= |c.resend| && d.resend == c.resend[AckedBy(c, e)..] && d.resend != []
            && |d.sent| == |c.sent| + n && d.sent[..|c.sent|] == c.sent
            && forall j :: |c.sent| <= j < |d.sent| ==> Resent(d.sent[j].frame, c, nr, d.resend, j - |c.sent|)
  {
    hide Safe, Regular, Mod, Dist, InRange, OnFinal, Poll, Handled;
    var nr, free := e.p.frame.nr, c.(peerReceiverBusy := false);
    var mid := OnFinal(free, nr, clock);
    HasModulus(c);
    WindowSize(c);
    WaitingRuns(c);
    FinalHandled(c, e, clock);
    HandleSafe(c, e, clock);
    Unacknowledged(c, nr);
    FinalRewinds(free, nr, clock);
    RewoundPoll(mid);
  }

  lemma FinalHandled(c: Conn, e: Event, clock: Clock)
    requires Retransmits(c, e)
    ensures Enabled(c, e) && Handle(c, e, clock) == OnFinal(c.(peerReceiverBusy := false), e.p.frame.nr, clock)
  {
    hide OnFinal;
  }

  /** Draining the queue when nothing is outstanding. */
  lemma RewoundPoll(mid: Conn)
    requires Safe(mid) && InData(mid) && mid.va == mid.vs && mid.queue == mid.resend && !mid.peerReceiverBusy
    ensures var d := Poll(mid);
            var n := if |mid.resend| < mid.k then |mid.resend| else mid.k;
            && d.resend == mid.resend && d.k == mid.k
            && |d.sent| == |mid.sent| + n && d.sent[..|mid.sent|] == mid.sent
            && forall j :: |mid.sent| <= j < |d.sent| ==> Resent(d.sent[j].frame, mid, mid.va, d.resend, j - |mid.sent|)
  {
    hide Safe, Mod, Dist, NthFrame, PollCount;
    HasModulus(mid);
    WindowSize(mid);
    ZeroOutstanding(mid);
    PollCountIs(mid);
    var n := PollCount(mid);
    var d := Sending(mid, n);
    forall j | |mid.sent| <= j < |d.sent|
      ensures Resent(d.sent[j].frame, mid, mid.va, d.resend, j - |mid.sent|)
    {
      var i := j - |mid.sent|;
      NthIs(mid, i);
      NthPolls(mid, i);
      NthAcknowledges(mid, i);
      assert d.sent[j] == NthFrame(mid, i);
    }
  }

  lemma NthAcknowledges(c: Conn, i: nat)
    requires i < |c.queue|
    ensures Acknowledges(NthFrame(c, i).frame, c.vr)
  {
    hide Mod;
  }

  lemma Unacknowledged(c: Conn, nr: int)
    requires Safe(c) && c.st == TimerRecovery && InRange(c.va, nr, c.vs, c.modulus) && nr != c.vs
    ensures 0 <= Dist(c.va, nr, c.modulus) < |c.resend|
  {
    DistNear(c.va, nr, c.modulus);
    DistNear(c.va, c.vs, c.modulus);
  }

  /** The window is empty again, with everything unacknowledged waiting. */
  lemma FinalRewinds(c: Conn, nr: int, clock: Clock)
    requires InRange(c.va, nr, c.vs, c.modulus) && nr != c.vs && c.modulus > 0
    requires 0 <= Dist(c.va, nr, c.modulus) < |c.resend|
    ensures var mid := OnFinal(c, nr, clock);
            && mid.queue == mid.resend == c.resend[Dist(c.va, nr, c.modulus)..]
            && mid.vs == mid.va == nr && mid.sent == c.sent && mid.vr == c.vr && mid.k == c.k && mid.modulus == c.modulus
            && mid.peerReceiverBusy == c.peerReceiverBusy && mid.st == c.st
  {
    hide InRange, Mod, Dist, NewSrt, NewPeriod, Reestablish;
  }
}
