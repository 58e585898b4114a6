/** Sessions over whole runs: what a connection accepted, sent and delivered since its numbers were
    last zeroed. */
module Sessions {
  import opened Bytes
  import opened Packets
  import opened Modular
  import opened Link
  import opened LinkInvariants
  import opened Discipline
  import opened Talk
  import opened Windows
  import opened Steps
  import opened Receiving

  /** The history of the current session, or of the last one. */
  datatype Session = Session(
    count: nat,                // sessions begun so far
    modulus: int,
    accepted: seq<Payload>,    // payloads that dl_data has taken
    taken: seq<Packet>,        // I frames whose payloads were delivered
    base: nat,                 // |delivered| when it began
    mark: nat,                 // |sent| when it began
    numbers: seq<int>,         // for each frame sent, the number of its payload if it is an I frame
    clean: bool,               // it began with an empty resend queue
    abandoned: bool)           // in this run, timer recovery has once given up with payloads in the queue

  datatype Logged = Logged(c: Conn, h: Session)

  /** Numbers counted back from V(S), for the frames from position `from` on. */
  function NumbersFrom(c: Conn, acc: seq<Payload>, from: nat): (ns: seq<int>)
    ensures from <= |c.sent| ==> |ns| == |c.sent| - from
    ensures forall j :: 0 <= j < |ns| ==> ns[j] == Next(c, acc) - (|c.sent| - (from + j))
  {
    seq(if from <= |c.sent| then |c.sent| - from else 0, j => Next(c, acc) - (|c.sent| - (from + j)))
  }

  /** The time-out that ends a session without emptying its queues. */
  predicate Abandons(c: Conn, e: Event) {
    c.st == TimerRecovery && e == T1Expires && c.t1.running && c.rc == c.n2 && c.resend != []
  }

  function LogStep(l: Logged, i: Input): Logged {
    var d := Step(l.c, i.event, i.clock);
    if Resets(l.c, i.event) then
      Logged(d, Session(l.h.count + 1, d.modulus, [], [], |l.c.delivered|, |l.c.sent|, NumbersFrom(d, [], |l.c.sent|),
                        d.resend == [], l.h.abandoned))
    else
      var acc := Accepted(l.c, l.h.accepted, i.event);
      Logged(d, l.h.(accepted := acc,
                     taken := if Delivers(l.c, i.event) then l.h.taken + [i.event.p] else l.h.taken,
                     numbers := l.h.numbers + NumbersFrom(d, acc, |l.c.sent|),
                     abandoned := l.h.abandoned || Abandons(l.c, i.event)))
  }

  const START: Logged := Logged(FRESH, Session(0, 0, [], [], 0, 0, [], true, false))

  // ---------------------------------------------------------------------------------------------
  // What every run keeps

  /** Every I frame of the session carries the accepted payload whose number its N(S) is. */
  predicate LabelsRight(l: Logged) {
    && l.h.mark <= |l.c.sent| && |l.h.numbers| == |l.c.sent| - l.h.mark
    && forall j :: l.h.mark <= j < |l.c.sent| && l.c.sent[j].frame.IFrame? ==>
         Label(l.c.sent[j].frame, l.h.numbers[j - l.h.mark], l.h.accepted, l.h.modulus)
  }

  predicate Label(f: Frame, n: int, accepted: seq<Payload>, m: int)
    requires f.IFrame?
  {
    0 <= n < |accepted| && f.ns == Mod(n, m) && f.payload == accepted[n]
  }

  /** The delivered payloads came as commands no longer than n1, numbered 0, 1, 2, ... */
  predicate TakenInOrder(c: Conn, h: Session) {
    && h.base <= |c.delivered| && |h.taken| == |c.delivered| - h.base
    && (forall i :: 0 <= i < |h.taken| ==> InTurn(h.taken[i], i, c.delivered[h.base + i], c.n1, h.modulus))
    && (InData(c) ==> c.modulus == h.modulus && c.vr == Mod(|h.taken|, h.modulus))
  }

  predicate InTurn(p: Packet, i: nat, payload: Payload, n1: nat, m: int) {
    && p.frame.IFrame? && p.commandResponse && p.frame.ns == Mod(i, m)
    && p.frame.payload == payload && |payload| <= n1
  }

  predicate WellSent(l: Logged) {
    LabelsRight(l) && (InData(l.c) ==> Labelled(l.c, l.h.accepted))
  }

  /** A state in which the next session will begin with empty queues. */
  predicate Idle(c: Conn) {
    match c.st
    case Disconnected => c.resend == []
    case AwaitingRelease => c.resend == []
    case AwaitingConnection => c.resend == [] || (!c.layer3Initiated && c.vs != c.va)
    case _ => true
  }

  predicate Recorded(l: Logged) {
    && Safe(l.c) && Regular(l.c)
    && l.h.mark <= |l.c.sent| && TakenInOrder(l.c, l.h)
    && (l.h.clean ==> WellSent(l))
    && (!l.h.abandoned ==> l.h.clean && Idle(l.c))
  }

  // ---------------------------------------------------------------------------------------------
  // Outside data states

  lemma StepExtends(c: Conn, e: Event, clock: Clock)
    requires Regular(c)
    ensures var d := Step(c, e, clock); |c.sent| <= |d.sent| && d.sent[..|c.sent|] == c.sent
  {
    hide Step, Regular;
    StepTalks(c, e, clock);
  }

  /** Whatever leads out of the data states sends no I frame. */
  lemma OutsideSilent(c: Conn, e: Event, clock: Clock)
    requires Regular(c) && !InData(Step(c, e, clock))
    ensures var d := Step(c, e, clock);
            && |c.sent| <= |d.sent| && d.sent[..|c.sent|] == c.sent
            && forall j :: |c.sent| <= j < |d.sent| ==> !d.sent[j].frame.IFrame?
  {
    hide Handle, Poll, Regular;
    RegularIsPlain(c);
    if Enabled(c, e) {
      HandleAnswers(c, e, clock);
      PollStays(Handle(c, e, clock));
      PollIdle(Handle(c, e, clock));
    }
  }

  lemma IdleStays(c: Conn, e: Event, clock: Clock)
    requires Regular(c) && !InData(c) && Idle(c) && !Resets(c, e)
    ensures Idle(Step(c, e, clock))
  {
    hide Poll, Regular, OnT1Awaiting, OnSabm, OnUi, OnDisc, OnDlConnect, InRange;
    T1StaysIdle(StopT1(c), clock);
    if Enabled(c, e) {
      PollIdle(Handle(c, e, clock)) by { OutsideStays(c, e, clock); }
      if e.Receive? {
        PacketStaysIdle(c, e.p, clock);
      } else if e.DlConnect? {
        ConnectStaysIdle(c, e.dst, e.src);
      }
    }
  }

  lemma OutsideStays(c: Conn, e: Event, clock: Clock)
    requires Enabled(c, e) && !InData(c) && !Resets(c, e) && Regular(c)
    ensures !InData(Handle(c, e, clock))
  {
    hide Poll, Handle, Regular, Step;
    RegularIsPlain(c);
    StepReceives(c, e, clock);
    PollStays(Handle(c, e, clock));
    assert Step(c, e, clock) == Poll(Handle(c, e, clock)) by { StepIs(c, e, clock); }
  }

  lemma StepIs(c: Conn, e: Event, clock: Clock)
    requires Enabled(c, e)
    ensures Step(c, e, clock) == Poll(Handle(c, e, clock))
  {}

  lemma T1StaysIdle(c: Conn, clock: Clock)
    requires c.st == AwaitingConnection ==> Idle(c)
    ensures c.st == AwaitingConnection ==> Idle(OnT1Awaiting(c, clock))
  {
    hide OnT1Awaiting;
    AwaitingKeepsQueue(c, clock);
  }

  lemma AwaitingKeepsQueue(c: Conn, clock: Clock)
    ensures var d := OnT1Awaiting(c, clock);
            if c.rc == c.n2 then d.st == Disconnected && d.resend == [] && d.queue == []
            else
              && d.st == c.st && d.resend == c.resend && d.queue == c.queue && d.vs == c.vs && d.va == c.va
              && d.layer3Initiated == c.layer3Initiated
  {
    hide SelectT1, Send;
    var asking := Send(c.(rc := c.rc + 1), Plain(Sabm(true), false));
    KeepsQueue(c.(rc := c.rc + 1), Plain(Sabm(true), false));
    SelectKeepsQueue(asking, clock);
  }

  lemma SelectKeepsQueue(c: Conn, clock: Clock)
    ensures var d := SelectT1(c, clock);
            && d.resend == c.resend && d.queue == c.queue && d.vs == c.vs && d.va == c.va && d.st == c.st
            && d.layer3Initiated == c.layer3Initiated
  {
    hide NewSrt, NewPeriod;
  }

  lemma PacketStaysIdle(c: Conn, p: Packet, clock: Clock)
    requires !InData(c) && Idle(c) && !Resets(c, Receive(p)) && Handled(p.frame)
    ensures Idle(OnPacket(c, p, clock))
  {
    hide OnSabmDisconnected, OnSabmConnected, OnUaAwaiting, OnRrConnected, OnRrRecovery, Reestablish, Send;
    KeepsQueue(c, if p.frame.Disc? then Plain(Dm(p.frame.poll), false) else Plain(Dm(true), false));
  }

  lemma ConnectStaysIdle(c: Conn, dst: string, src: string)
    requires !InData(c) && Idle(c)
    ensures Idle(OnDlConnect(c, dst, src))
  {}

  /** With nothing outstanding a session has nothing unacknowledged. */
  lemma NothingWaits(c: Conn, acc: seq<Payload>)
    requires Safe(c) && InData(c) && Labelled(c, acc) && c.vs == c.va
    ensures c.resend == []
  {
    hide Safe, Labelled;
    WindowSize(c);
    HasModulus(c);
    ZeroOutstanding(c);
    WorkConserved(c, acc);
  }

  predicate Settled(c: Conn) {
    c.vs == c.va ==> c.resend == []
  }

  lemma ReestablishIdle(c: Conn, d: Conn)
    requires Settled(c) && d.vs == c.vs && d.va == c.va && d.resend == c.resend
    ensures Idle(Reestablish(d))
  {
    hide Send;
    KeepsQueue(ClearExceptions(d).(rc := 0), Plain(Sabm(true), false));
  }

  lemma KeepsQueue(c: Conn, p: Packet)
    ensures var d := Send(c, p);
            && d.resend == c.resend && d.queue == c.queue && d.vs == c.vs && d.va == c.va && d.st == c.st
            && d.layer3Initiated == c.layer3Initiated
  {}

  lemma RrLeavesIdle(c: Conn, nr: int, poll: bool, command: bool, clock: Clock)
    requires Settled(c) && InData(c) && !InRange(c.va, nr, c.vs, c.modulus)
    ensures Idle(OnRrConnected(c, nr, poll, command, clock)) && Idle(OnRrRecovery(c, nr, poll, command, clock))
  {
    hide Idle, Reestablish, InRange, NewSrt, NewPeriod, EnquiryResponse, Settled;
    var free := c.(peerReceiverBusy := false);
    EnquiryStays(free);
    ReestablishIdle(c, free);
    ReestablishIdle(c, EnquiryResponse(free, true));
    ReestablishIdle(c, SelectT1(StopT1(free), clock));
  }

  lemma DataPacketLeavesIdle(c: Conn, p: Packet, clock: Clock)
    requires Settled(c) && InData(c) && Handled(p.frame) && !Resets(c, Receive(p)) && !GoesOn(c, Receive(p))
    ensures Idle(OnPacket(c, p, clock))
  {
    hide Idle, Settled, Reestablish, InRange, OnRrConnected, OnRrRecovery;
    hide CheckIframeAcked, UpdateAck, AcceptIframe, OnDm, OnDisc;
    ReestablishIdle(c, c);
    match p.frame
    case Rr(nr, poll) => RrLeavesIdle(c, nr, poll, p.commandResponse, clock);
    case Dm(_) => EndIdle(c, p);
    case Disc(_) => EndIdle(c, p);
    case _ =>
  }

  lemma EndIdle(c: Conn, p: Packet)
    requires InData(c)
    ensures Idle(OnDm(c)) && (p.frame.Disc? ==> Idle(OnDisc(c, p)))
  {
    hide Addressed;
  }

  lemma RequestIdle(c: Conn, dst: string, src: string)
    requires InData(c)
    ensures c.st == Connected ==> Idle(OnDlConnect(c, dst, src))
    ensures Idle(OnDlDisconnect(c))
  {
    hide Addressed;
  }

  /** A session that ends leaves idle queues, unless timer recovery gave up on it. */
  lemma LeavesIdle(c: Conn, acc: seq<Payload>, e: Event, clock: Clock)
    requires Safe(c) && Regular(c) && InData(c) && Labelled(c, acc) && !Resets(c, e) && !InData(Step(c, e, clock))
    ensures Abandons(c, e) || Idle(Step(c, e, clock))
  {
    hide Safe, Regular, Labelled, OnPacket, OnDlConnect, OnDlDisconnect, Poll, OnT1Connected, InRange, TransmitEnquiry, Idle;
    if c.vs == c.va {
      NothingWaits(c, acc);
    }
    StepLabelled(c, acc, e, clock);
    PollStays(Handle(c, e, clock));
    PollIdle(Handle(c, e, clock));
    match e
    case Receive(p) => DataPacketLeavesIdle(c, p, clock);
    case DlConnect(dst, src) => RequestIdle(c, dst, src);
    case DlDisconnect => RequestIdle(c, "", "");
    case T1Expires => GivesUp(c);
    case _ =>
  }

  lemma GivesUp(c: Conn)
    requires c.st == TimerRecovery && c.rc == c.n2
    ensures Idle(OnT1Recovery(StopT1(c))) <==> c.resend == []
  {}

  // ---------------------------------------------------------------------------------------------
  // Beginning a session

  /** The resets that empty the queues. */
  predicate Empties(c: Conn) {
    c.vs != c.va && (c.st == Connected || (c.st == AwaitingConnection && !c.layer3Initiated))
  }

  /** The state in which a session begins, before the queue is drained. */
  lemma ResetHandled(c: Conn, e: Event, clock: Clock)
    requires Safe(c) && Regular(c) && Resets(c, e)
    ensures Enabled(c, e)
    ensures var mid := Handle(c, e, clock);
            && Safe(mid) && mid.st == Connected && mid.vs == mid.va == 0 && !mid.peerReceiverBusy
            && mid.resend == (if Empties(c) then [] else c.resend) && mid.queue == (if Empties(c) then [] else c.queue)
  {
    hide Safe, Regular, OnPacket;
    HandleSafe(c, e, clock);
    HandlePending(c, e, clock);
    PendingParts(Handle(c, e, clock));
    ResetPacket(c, e.p, clock);
  }

  lemma ResetPacket(c: Conn, p: Packet, clock: Clock)
    requires Resets(c, Receive(p))
    ensures var mid := OnPacket(c, p, clock);
            && mid.st == Connected && mid.vs == mid.va == 0
            && mid.resend == (if Empties(c) then [] else c.resend) && mid.queue == (if Empties(c) then [] else c.queue)
  {
    hide OnSabmDisconnected, OnSabmConnected, OnUaAwaiting;
    match c.st
    case Disconnected => SabmOpens(c, p);
    case Connected => SabmResets(c, p);
    case _ => UaOpens(c, clock);
  }

  lemma SabmOpens(c: Conn, p: Packet)
    requires p.frame.Sabm? || p.frame.Sabme?
    ensures var mid := OnSabmDisconnected(c, p);
            mid.st == Connected && mid.vs == mid.va == 0 && mid.resend == c.resend && mid.queue == c.queue
  {
    hide Addressed;
  }

  lemma SabmResets(c: Conn, p: Packet)
    requires c.st == Connected && (p.frame.Sabm? || p.frame.Sabme?)
    ensures var mid := OnSabmConnected(c, p);
            && mid.st == Connected && mid.vs == mid.va == 0
            && mid.resend == (if Empties(c) then [] else c.resend) && mid.queue == (if Empties(c) then [] else c.queue)
  {
    hide Addressed;
  }

  lemma UaOpens(c: Conn, clock: Clock)
    requires c.st == AwaitingConnection
    ensures var mid := OnUaAwaiting(c, clock);
            && mid.st == Connected && mid.vs == mid.va == 0
            && mid.resend == (if Empties(c) then [] else c.resend) && mid.queue == (if Empties(c) then [] else c.queue)
  {
    hide NewSrt, NewPeriod;
  }

  /** A session begins with empty queues, and then in step, exactly when they were empty or are
      emptied. */
  lemma ResetBegins(c: Conn, e: Event, clock: Clock)
    requires Safe(c) && Regular(c) && Resets(c, e)
    ensures var d := Step(c, e, clock);
            && InData(d) && d.resend == (if Empties(c) then [] else c.resend)
            && (d.resend == [] ==> Labelled(d, []) && InSequence(c, d, []))
  {
    hide Safe, Regular, Handle, Poll, Resets, InSequence, Labelled;
    ResetHandled(c, e, clock);
    var mid := Handle(c, e, clock);
    RegularIsPlain(c);
    HandleAnswers(c, e, clock);
    PollStays(mid);
    PollReceives(mid);
    if mid.resend == [] {
      QueueShorter(mid);
      PollLabels(c, mid, []);
    }
  }

  lemma QueueShorter(c: Conn)
    requires Safe(c)
    ensures |c.queue| <= |c.resend| && IsSuffix(c.queue, c.resend)
    ensures InData(c) ==> c.modulus > 0 && c.k == 7
  {}

  lemma IdleBegins(c: Conn, acc: seq<Payload>, e: Event)
    requires Safe(c) && Resets(c, e) && Idle(c) && (InData(c) ==> Labelled(c, acc))
    ensures Empties(c) || c.resend == []
  {
    hide Safe, Labelled;
    if InData(c) && c.vs == c.va {
      NothingWaits(c, acc);
    }
  }

  // ---------------------------------------------------------------------------------------------
  // Runs

  lemma SentGrows(c: Conn, e: Event, clock: Clock)
    requires Regular(c)
    ensures |c.sent| <= |Step(c, e, clock).sent|
  {
    hide Step, Regular;
    StepTalks(c, e, clock);
  }

  function LogRun(l: Logged, inputs: seq<Input>): Logged
    decreases |inputs|
  {
    if inputs == [] then l else LogRun(LogStep(l, inputs[0]), inputs[1..])
  }

  lemma ResetDeliversNothing(c: Conn, e: Event)
    requires Resets(c, e)
    ensures !Delivers(c, e)
  {}

  lemma ModZero(m: int)
    ensures Mod(0, m) == 0
  {}

  /** Receiving goes on in order. */
  lemma TakenStays(l: Logged, i: Input)
    requires Recorded(l)
    ensures var l2 := LogStep(l, i); TakenInOrder(l2.c, l2.h)
  {
    hide Safe, Regular, Step, WellSent, Idle, NumbersFrom, Resets, Labelled, Usable, Mod, InTurn;
    RegularIsPlain(l.c);
    StepReceives(l.c, i.event, i.clock);
    var c, h, e := l.c, l.h, i.event;
    var d, h2 := Step(c, e, i.clock), LogStep(l, i).h;
    if Resets(c, e) {
      ResetDeliversNothing(c, e);
      ModZero(h2.modulus);
    } else if Delivers(c, e) {
      ModModAdd(|h.taken|, 1, h.modulus) by { QueueShorter(c); }
      TakenMore(c, h, d, h2, e.p);
    } else {
      TakenSame(c, h, d, h2);
    }
  }

  lemma TakenMore(c: Conn, h: Session, d: Conn, h2: Session, p: Packet)
    requires TakenInOrder(c, h) && InData(c) && Delivers(c, Receive(p))
    requires h2.base == h.base && h2.modulus == h.modulus && h2.taken == h.taken + [p]
    requires d.delivered == c.delivered + [p.frame.payload] && d.n1 == c.n1
    requires InData(d) ==> d.modulus == c.modulus && d.vr == Mod(|h2.taken|, h2.modulus)
    ensures TakenInOrder(d, h2)
  {
    hide Mod, InRange;
    assert InTurn(p, |h.taken|, p.frame.payload, c.n1, h.modulus);
    forall k | 0 <= k < |h2.taken| ensures InTurn(h2.taken[k], k, d.delivered[h2.base + k], d.n1, h2.modulus) {
      if k < |h.taken| {
        assert InTurn(h.taken[k], k, c.delivered[h.base + k], c.n1, h.modulus);
      }
    }
  }

  lemma TakenSame(c: Conn, h: Session, d: Conn, h2: Session)
    requires TakenInOrder(c, h)
    requires h2.base == h.base && h2.modulus == h.modulus && h2.taken == h.taken
    requires d.delivered == c.delivered && d.n1 == c.n1
    requires InData(d) ==> InData(c) && d.modulus == c.modulus && d.vr == c.vr
    ensures TakenInOrder(d, h2)
  {}

  /** Labels stay right through an event that does not begin a session. */
  lemma LabelsStay(l: Logged, i: Input)
    requires Safe(l.c) && Regular(l.c) && l.h.mark <= |l.c.sent|
    requires WellSent(l) && (InData(l.c) ==> l.c.modulus == l.h.modulus) && !Resets(l.c, i.event)
    ensures WellSent(LogStep(l, i))
  {
    hide Safe, Regular, Step, Resets, Labelled, Delivers, Abandons, Label;
    var c, e, clock := l.c, i.event, i.clock;
    var d, acc, l2 := Step(c, e, clock), Accepted(c, l.h.accepted, e), LogStep(l, i);
    StepExtends(c, e, clock);
    RegularIsPlain(c);
    StepReceives(c, e, clock);
    if InData(d) {
      StepLabelled(c, l.h.accepted, e, clock);
    } else {
      OutsideSilent(c, e, clock);
    }
    forall j | l2.h.mark <= j < |d.sent| && d.sent[j].frame.IFrame?
      ensures Label(d.sent[j].frame, l2.h.numbers[j - l2.h.mark], acc, l2.h.modulus)
    {
      if j < |c.sent| {
        assert d.sent[j] == c.sent[j];
        LabelGrows(c.sent[j].frame, l.h.numbers[j - l.h.mark], l.h.accepted, acc, l.h.modulus);
      } else {
        IsLabel(c, d, acc, j);
      }
    }
  }

  lemma LabelGrows(f: Frame, n: int, acc: seq<Payload>, more: seq<Payload>, m: int)
    requires f.IFrame? && Label(f, n, acc, m) && acc <= more
    ensures Label(f, n, more, m)
  {}

  lemma IsLabel(c: Conn, d: Conn, acc: seq<Payload>, j: nat)
    requires InSequence(c, d, acc) && |c.sent| <= j < |d.sent| && d.sent[j].frame.IFrame?
    ensures Label(d.sent[j].frame, Next(d, acc) - (|d.sent| - j), acc, d.modulus)
  {
    hide Mod;
  }

  /** A session that begins with empty queues begins well. */
  lemma LabelsBegin(l: Logged, i: Input)
    requires Safe(l.c) && Regular(l.c) && Resets(l.c, i.event)
    requires Step(l.c, i.event, i.clock).resend == []
    ensures WellSent(LogStep(l, i))
  {
    hide Safe, Regular, Step, Resets, Labelled, Label;
    var c, d := l.c, Step(l.c, i.event, i.clock);
    ResetBegins(c, i.event, i.clock);
    SentGrows(c, i.event, i.clock);
    assert forall j :: |c.sent| <= j < |d.sent| ==> !d.sent[j].frame.IFrame?;
  }

  lemma LogStepRecorded(l: Logged, i: Input)
    requires Recorded(l)
    ensures Recorded(LogStep(l, i))
  {
    hide Safe, Regular, Step, Resets, Labelled, WellSent, Idle, Abandons, NumbersFrom, InTurn, Delivers, InRange, Mod;
    var c, e, clock := l.c, i.event, i.clock;
    SentGrows(c, e, clock);
    StepRegular(c, e, clock);
    TakenStays(l, i);
    var d := Step(c, e, clock);
    if Resets(c, e) {
      ResetBegins(c, e, clock);
      if d.resend == [] {
        LabelsBegin(l, i);
      }
      if !l.h.abandoned {
        BeginsIdle(l, e);
        InDataIdle(d);
      }
    } else {
      if l.h.clean {
        LabelsStay(l, i);
      }
      if !l.h.abandoned && !Abandons(c, e) {
        StaysIdle(l, i);
      }
    }
  }

  lemma InDataIdle(c: Conn)
    requires InData(c)
    ensures Idle(c)
  {}

  lemma BeginsIdle(l: Logged, e: Event)
    requires Recorded(l) && Resets(l.c, e) && !l.h.abandoned
    ensures Empties(l.c) || l.c.resend == []
  {
    hide Safe, Regular, Labelled, Idle, LabelsRight, InTurn;
    IdleBegins(l.c, l.h.accepted, e);
  }

  lemma StaysIdle(l: Logged, i: Input)
    requires Recorded(l) && !Resets(l.c, i.event) && !l.h.abandoned && !Abandons(l.c, i.event)
    ensures Idle(Step(l.c, i.event, i.clock))
  {
    hide Safe, Regular, Labelled, Idle, LabelsRight, InTurn, Step, Resets, Abandons;
    var d := Step(l.c, i.event, i.clock);
    if InData(d) {
      InDataIdle(d);
    } else if InData(l.c) {
      LeavesIdle(l.c, l.h.accepted, i.event, i.clock);
    } else {
      IdleStays(l.c, i.event, i.clock);
    }
  }

  /** Main result: in every run of a connection, received payloads are delivered in order, and a
      session that began with empty queues sends the payload it accepted as number i with N(S) equal
      to i, every time.  All sessions begin so unless timer recovery has once given up. */
  lemma {:induction false} EveryRunRecorded(l: Logged, inputs: seq<Input>)
    requires Recorded(l)
    ensures Recorded(LogRun(l, inputs))
    decreases |inputs|
  {
    hide Safe, Regular, LogStep, WellSent, TakenInOrder, Idle;
    if inputs != [] {
      LogStepRecorded(l, inputs[0]);
      EveryRunRecorded(LogStep(l, inputs[0]), inputs[1..]);
    }
  }

  lemma StartRecorded()
    ensures Recorded(START)
  {
    FreshRegular();
  }
}
