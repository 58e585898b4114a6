/** Sessions that begin with payloads of an earlier session in the queues: timer recovery gives up
    without emptying them, and the same connection is used again. */
module Leftovers {
  import opened Bytes
  import opened Packets
  import opened Modular
  import opened Link
  import opened LinkInvariants
  import opened Discipline
  import opened Talk
  import opened Windows
  import opened Steps
  import opened Receiving
  import opened Retries
  import opened Sessions

  const NOW: Clock := Clock(0, false)

  /** The peer's answer to the enquiry of timer recovery: nothing has arrived. */
  const NOTHING: Packet := Plain(Rr(0, true), false)

  /** A session that has just begun with something left over and nothing to send. */
  predicate Left(c: Conn) {
    c.st == Connected && c.vs == c.va == 0 && c.queue == [] && c.resend != []
  }

  lemma DataSent(c: Conn, x: Payload)
    requires Safe(c) && Regular(c) && c.st == Connected && c.vs == c.va == 0 && c.queue == []
    ensures var d := Step(c, DlData(x), NOW);
            && Safe(d) && Regular(d) && d.st == Connected && d.va == 0 && d.vs == 1 && d.t1.running
            && d.queue == [] && d.resend == c.resend + [x] && d.modulus == c.modulus
  {
    hide Safe, Regular, Burst;
    StepRegular(c, DlData(x), NOW);
    var d := Step(c, DlData(x), NOW);
    var mid := OnDlData(c, x);
    RegularIsPlain(c);
    QueueShorter(c);
    ZeroOutstanding(mid);
    PollCountIs(mid);
    assert PollCount(mid) == 1;
    ModulusIs(c);
  }

  lemma ModulusIs(c: Conn)
    requires Safe(c) && InData(c)
    ensures (c.modulus == 8 || c.modulus == 128) && Mod(1, c.modulus) == 1
  {}

  lemma EnquirySent(c: Conn)
    requires Safe(c) && Regular(c) && c.st == Connected && c.t1.running && c.queue == []
    ensures var d := Step(c, T1Expires, NOW);
            && Safe(d) && Regular(d) && d.st == TimerRecovery && d.va == c.va && d.vs == c.vs
            && d.queue == [] && d.resend == c.resend && d.modulus == c.modulus && d.vr == c.vr
  {
    hide Safe, Regular, Poll, SendStatus;
    StepRegular(c, T1Expires, NOW);
    EnquiryKeeps(StopT1(c).(rc := 1));
    EmptyPoll(OnT1Connected(StopT1(c)));
  }

  lemma EnquiryKeeps(c: Conn)
    ensures var d := TransmitEnquiry(c); SameQueues(c, d) && d.vr == c.vr
  {}

  /** One payload accepted, one time-out and one answer later, a leftover payload has gone out as
      number 0. */
  lemma LeftoverSent(l: Logged)
    requires Safe(l.c) && Regular(l.c) && Left(l.c) && l.h.accepted == [] && l.h.mark <= |l.c.sent|
    requires |l.h.numbers| == |l.c.sent| - l.h.mark
    ensures var inputs := [Input(DlData(l.c.resend[0] + [0]), NOW), Input(T1Expires, NOW), Input(Receive(NOTHING), NOW)];
            LogRun(l, inputs).h.count == l.h.count && !LabelsRight(LogRun(l, inputs))
  {
    hide Safe, Regular, Step, Resets, Delivers, Abandons, NumbersFrom, InRange, Mod;
    var x := l.c.resend[0] + [0];
    var i1, i2, i3 := Input(DlData(x), NOW), Input(T1Expires, NOW), Input(Receive(NOTHING), NOW);
    DataSent(l.c, x);
    NoReset(l.c, i1.event);
    SentGrows(l.c, i1.event, NOW);
    var l1 := LogStep(l, i1);
    EnquirySent(l1.c);
    NoReset(l1.c, i2.event);
    SentGrows(l1.c, i2.event, NOW);
    var l2 := LogStep(l1, i2);
    NoReset(l2.c, i3.event);
    SentGrows(l2.c, i3.event, NOW);
    var l3 := LogStep(l2, i3);
    assert LogRun(l, [i1, i2, i3]) == l3 by { RunThree(l, i1, i2, i3); }
    NothingArrived(l2.c);
    WindowSize(l2.c);
    RetransmissionExact(l2.c, i3.event, NOW);
    var j := |l2.c.sent|;
    assert Resent(l3.c.sent[j].frame, l2.c, 0, l3.c.resend, 0);
    assert l3.h.accepted == [x] && l3.c.resend[0] == l.c.resend[0];
    assert l3.c.sent[j].frame.payload != x;
    assert !Label(l3.c.sent[j].frame, l3.h.numbers[j - l3.h.mark], l3.h.accepted, l3.h.modulus);
  }

  lemma NothingArrived(c: Conn)
    requires Safe(c) && c.st == TimerRecovery && c.va == 0 && c.vs == 1
    ensures InRange(0, 0, c.vs, c.modulus) && AckedBy(c, Receive(NOTHING)) == 0
  {
    DistNear(0, 0, c.modulus);
    DistNear(0, 1, c.modulus);
  }

  lemma NoReset(c: Conn, e: Event)
    requires e == T1Expires || e.DlData? || e == Receive(NOTHING)
    ensures !Resets(c, e)
  {}

  lemma RunThree(l: Logged, i1: Input, i2: Input, i3: Input)
    ensures LogRun(l, [i1, i2, i3]) == LogStep(LogStep(LogStep(l, i1), i2), i3)
  {
    hide LogStep;
    var l1 := LogStep(l, i1);
    assert [i1, i2, i3][1..] == [i2, i3] && [i2, i3][1..] == [i3] && [i3][1..] == [];
    assert LogRun(l, [i1, i2, i3]) == LogRun(l1, [i2, i3]);
    var l2 := LogStep(l1, i2);
    assert LogRun(l1, [i2, i3]) == LogRun(l2, [i3]);
    assert LogRun(l2, [i3]) == LogRun(LogStep(l2, i3), []);
  }

  /** A session that begins with a waiting payload sends it before anything is accepted. */
  lemma WaitingSent(l: Logged, i: Input)
    requires Safe(l.c) && Regular(l.c) && Resets(l.c, i.event)
    requires !Empties(l.c) && l.c.queue != []
    ensures !LabelsRight(LogStep(l, i))
  {
    hide Safe, Regular, Handle, Poll, Resets, Empties, NthFrame, Mod, Answered;
    var c := l.c;
    ResetHandled(c, i.event, i.clock);
    SentGrows(c, i.event, i.clock);
    StepIs(c, i.event, i.clock);
    var mid := Handle(c, i.event, i.clock);
    HandleExtends(c, i.event, i.clock);
    PollSendsFirst(mid);
    var d := Step(c, i.event, i.clock);
    assert d.sent[|mid.sent|].frame.IFrame?;
    assert !Label(d.sent[|mid.sent|].frame, NumbersFrom(d, [], |c.sent|)[|mid.sent| - |c.sent|], [], d.modulus);
  }

  lemma HandleExtends(c: Conn, e: Event, clock: Clock)
    requires Regular(c) && Enabled(c, e)
    ensures |c.sent| <= |Handle(c, e, clock).sent|
  {
    hide Handle, Regular;
    RegularIsPlain(c);
    HandleAnswers(c, e, clock);
  }

  lemma PollSendsFirst(mid: Conn)
    requires Safe(mid) && InData(mid) && mid.vs == mid.va && mid.queue != [] && !mid.peerReceiverBusy
    ensures |Poll(mid).sent| > |mid.sent| && Poll(mid).sent[|mid.sent|].frame.IFrame?
  {
    hide Safe, Mod, NthFrame, PollCount;
    HasModulus(mid);
    WindowSize(mid);
    ZeroOutstanding(mid);
    PollCountIs(mid);
    NthIs(mid, 0);
  }

  /** Main result: the labels of a session stay right whatever happens in it if and only if it begins
      with an empty resend queue, that is, if the connection had one already or the event that begins
      the session empties it. */
  lemma LabelsRightIffEmpty(l: Logged, i: Input)
    requires Recorded(l) && Resets(l.c, i.event)
    ensures (l.c.resend == [] || Empties(l.c)) <==>
            (forall more: seq<Input> :: var start := LogStep(l, i);
               LogRun(start, more).h.count == start.h.count ==> LabelsRight(LogRun(start, more)))
  {
    hide Safe, Regular, LogStep, LogRun, Step, LabelsRight, Resets, Empties;
    var start := LogStep(l, i);
    if l.c.resend == [] || Empties(l.c) {
      LogStepRecorded(l, i);
      BeginsClean(l, i);
      forall more: seq<Input> | LogRun(start, more).h.count == start.h.count ensures LabelsRight(LogRun(start, more)) {
        CleanStays(start, more);
      }
    } else {
      LeftoverShows(l, i);
    }
  }

  lemma BeginsClean(l: Logged, i: Input)
    requires Safe(l.c) && Regular(l.c) && Resets(l.c, i.event) && (l.c.resend == [] || Empties(l.c))
    ensures LogStep(l, i).h.clean
  {
    hide Safe, Regular, Step, Resets, Empties;
    ResetBegins(l.c, i.event, i.clock);
  }

  lemma {:induction false} CleanStays(l: Logged, more: seq<Input>)
    requires Recorded(l)
    ensures Recorded(LogRun(l, more))
    ensures LogRun(l, more).h.count >= l.h.count
    ensures LogRun(l, more).h.count == l.h.count && l.h.clean ==> LogRun(l, more).h.clean && LabelsRight(LogRun(l, more))
    decreases |more|
  {
    hide Safe, Regular, Step, LabelsRight, TakenInOrder, Idle, Resets, Delivers, Abandons;
    EveryRunRecorded(l, more);
    if more != [] {
      LogStepRecorded(l, more[0]);
      CleanStays(LogStep(l, more[0]), more[1..]);
    }
  }

  lemma LeftoverShows(l: Logged, i: Input)
    requires Recorded(l) && Resets(l.c, i.event) && l.c.resend != [] && !Empties(l.c)
    ensures exists more: seq<Input> :: var start := LogStep(l, i);
              LogRun(start, more).h.count == start.h.count && !LabelsRight(LogRun(start, more))
  {
    hide Safe, Regular, LogRun, Step, LabelsRight, Resets, Empties, NumbersFrom;
    var start := LogStep(l, i);
    if l.c.queue != [] {
      WaitingSent(l, i);
      RunNothing(start);
      assert LogRun(start, []) == start;
    } else {
      BeginsLeft(l.c, i.event, i.clock);
      StepRegular(l.c, i.event, i.clock);
      SentGrows(l.c, i.event, i.clock);
      LeftoverSent(start);
    }
  }

  lemma RunNothing(l: Logged)
    ensures LogRun(l, []) == l
  {}

  lemma BeginsLeft(c: Conn, e: Event, clock: Clock)
    requires Safe(c) && Regular(c) && Resets(c, e) && !Empties(c) && c.queue == [] && c.resend != []
    ensures Left(Step(c, e, clock))
  {
    hide Safe, Regular, Resets, Empties, Handle, Poll;
    ResetHandled(c, e, clock);
    StepIs(c, e, clock);
    EmptyPoll(Handle(c, e, clock));
  }

  // ---------------------------------------------------------------------------------------------
  // The whole run, from a new connection on

  const ASK: Packet := Packet("M0ABC", "M0XYZ", [], 0, Sabm(true), false, true, false, false)

  function Expiries(n: nat): seq<Input> {
    if n == 0 then [] else [Input(T1Expires, NOW)] + Expiries(n - 1)
  }

  /** A link is accepted, a payload is sent and never answered; after eleven time-outs the same peer
      asks again, and the second session loses its first frame. */
  function LeftoverInputs(): seq<Input> {
    [Input(Receive(ASK), NOW), Input(DlData([1]), NOW)] + Expiries(11)
    + [Input(Receive(ASK), NOW)]
    + [Input(DlData([1, 0]), NOW), Input(T1Expires, NOW), Input(Receive(NOTHING), NOW)]
  }

  lemma {:induction false} LogRunAppend(l: Logged, first: seq<Input>, more: seq<Input>)
    ensures LogRun(l, first + more) == LogRun(LogRun(l, first), more)
    decreases |first|
  {
    hide LogStep;
    if first == [] {
      assert first + more == more;
    } else {
      assert (first + more)[0] == first[0] && (first + more)[1..] == first[1..] + more;
      LogRunAppend(LogStep(l, first[0]), first[1..], more);
    }
  }

  lemma LogRunOne(l: Logged, i: Input)
    ensures LogRun(l, [i]) == LogStep(l, i)
  {
    hide LogStep;
    assert [i][1..] == [];
  }

  /** Every expiry leaves the queues as they are, the last one too. */
  lemma {:induction false} ExpiriesKeep(l: Logged, n: nat)
    requires Recorded(l) && l.c.t1.running && (l.c.st == Connected || l.c.st == TimerRecovery) && n == TicksLeft(l.c)
    ensures var r := LogRun(l, Expiries(n));
            Recorded(r) && r.c.st == Disconnected && r.c.resend == l.c.resend && r.c.queue == l.c.queue
    decreases n
  {
    hide Recorded, Step, LogStep, TicksLeft;
    var i := Input(T1Expires, NOW);
    RecordedIs(l);
    TicksPositive(l.c);
    assert Expiries(n)[1..] == Expiries(n - 1);
    OneTick(l.c, NOW);
    LogStepRecorded(l, i);
    TickKeepsQueues(l, i);
    var l1 := LogStep(l, i);
    if n > 1 {
      ExpiriesKeep(l1, n - 1);
    }
  }

  lemma RecordedIs(l: Logged)
    requires Recorded(l)
    ensures Safe(l.c) && Regular(l.c)
  {
    hide Safe, Regular, WellSent, TakenInOrder, Idle;
  }

  lemma TickKeepsQueues(l: Logged, i: Input)
    requires Safe(l.c) && Regular(l.c) && InData(l.c) && l.c.t1.running && i == Input(T1Expires, NOW)
    ensures var d := LogStep(l, i).c;
            && d == Step(l.c, T1Expires, NOW) && d.resend == l.c.resend && d.queue == l.c.queue
            && (d.st == Disconnected || d.st == TimerRecovery)
  {
    hide Safe, Regular, Poll, OnT1Connected, OnT1Recovery, NumbersFrom;
    var c := l.c;
    T1Stays(c);
    RegularIsPlain(c);
    var mid := if c.st == Connected then OnT1Connected(StopT1(c)) else OnT1Recovery(StopT1(c));
    if InData(mid) {
      FullPoll(c, mid);
    } else {
      PollIdle(mid);
    }
  }

  /** A new connection accepts a link. */
  lemma AskAccepted()
    ensures var l := LogStep(START, Input(Receive(ASK), NOW));
            Recorded(l) && l.c.st == Connected && l.c.vs == l.c.va == 0 && l.c.queue == l.c.resend == [] && l.c.n2 == 10
  {
    hide Recorded, Poll, NumbersFrom;
    StartRecorded();
    LogStepRecorded(START, Input(Receive(ASK), NOW));
    EmptyPoll(OnSabmDisconnected(FRESH, ASK));
    AskHandled();
  }

  lemma AskHandled()
    ensures var d := Step(FRESH, Receive(ASK), NOW);
            d.st == Connected && d.vs == d.va == 0 && d.queue == d.resend == [] && d.n2 == 10
  {
    hide Poll;
    SabmOpens(FRESH, ASK);
    AskOpens(FRESH, ASK);
    EmptyPoll(OnSabmDisconnected(FRESH, ASK));
    StepIs(FRESH, Receive(ASK), NOW);
  }

  lemma AskOpens(c: Conn, p: Packet)
    requires p.frame.Sabm?
    ensures OnSabmDisconnected(c, p).n2 == 10
  {
    var ua := Send(c.(modulus := 8, n2 := 10, src := p.dst, dst := p.src), Plain(Ua(p.frame.poll), false));
    var begun := ClearExceptions(ua).(vs := 0, va := 0, vr := 0, srt := 3000.0, t1v := 6000, st := Connected);
    assert OnSabmDisconnected(c, p) == StartT3(begun);
  }

  lemma FirstSent(l: Logged, i: Input)
    requires Recorded(l) && l.c.st == Connected && l.c.vs == l.c.va == 0 && l.c.queue == l.c.resend == [] && l.c.n2 == 10
    requires i == Input(DlData([1]), NOW)
    ensures var r := LogStep(l, i);
            && Recorded(r) && r.c.st == Connected && r.c.t1.running && r.c.queue == [] && r.c.resend == [[1]] && TicksLeft(r.c) == 11
  {
    hide Recorded, Step, NumbersFrom;
    RecordedIs(l);
    DataSent(l.c, [1]);
    LogStepRecorded(l, i);
    NoReset(l.c, i.event);
    DataKeepsRetries(l.c, [1]);
    assert [] + [[1]] == [[1]];
  }

  lemma DataKeepsRetries(c: Conn, x: Payload)
    ensures Step(c, DlData(x), NOW).n2 == c.n2
  {
    hide Poll;
    PollKeepsRetries(OnDlData(c, x));
  }

  lemma AskedAgain(l: Logged, ask: Input)
    requires Recorded(l) && l.c.st == Disconnected && l.c.queue == [] && l.c.resend == [[1]] && ask == Input(Receive(ASK), NOW)
    ensures var r := LogStep(l, ask);
            && Safe(r.c) && Regular(r.c) && Left(r.c) && r.c.resend == [[1]]
            && r.h.accepted == [] && r.h.mark <= |r.c.sent| && |r.h.numbers| == |r.c.sent| - r.h.mark
  {
    hide Safe, Regular, Recorded, Step;
    RecordedIs(l);
    assert Resets(l.c, ask.event);
    SentGrows(l.c, ask.event, NOW);
    StepRegular(l.c, ask.event, NOW);
    ResetBegins(l.c, ask.event, NOW);
    BeginsLeft(l.c, ask.event, NOW);
  }

  /** Main result: sending a leftover under a number of the new session is something a new connection
      can come to.  The run is the one above. */
  lemma LeftoverReached()
    ensures !LabelsRight(LogRun(START, LeftoverInputs()))
  {
    hide LogRun, LogStep, LabelsRight, Recorded, Expiries;
    var ask := Input(Receive(ASK), NOW);
    var data := Input(DlData([1]), NOW);
    var last := [Input(DlData([1, 0]), NOW), Input(T1Expires, NOW), Input(Receive(NOTHING), NOW)];
    AskAccepted();
    var l1 := LogStep(START, ask);
    FirstSent(l1, data);
    var l2 := LogStep(l1, data);
    ExpiriesKeep(l2, 11);
    var l3 := LogRun(l2, Expiries(11));
    AskedAgain(l3, ask);
    var l4 := LogStep(l3, ask);
    assert l4.c.resend[0] + [0] == [1, 0];
    LeftoverSent(l4);
    assert LogRun(START, LeftoverInputs()) == LogRun(l4, last) by {
      LogRunOne(START, ask);
      LogRunOne(l1, data);
      LogRunOne(l3, ask);
      LogRunAppend(START, [ask], [data]);
      LogRunAppend(START, [ask] + [data], Expiries(11));
      LogRunAppend(START, [ask] + [data] + Expiries(11), [ask]);
      LogRunAppend(START, [ask] + [data] + Expiries(11) + [ask], last);
      assert LeftoverInputs() == [ask] + [data] + Expiries(11) + [ask] + last;
    }
  }
}
