/** How a session recovers when everything on its way has been lost. */
module Recovery {
  import opened Bytes
  import opened Packets
  import opened Modular
  import opened Link
  import opened LinkInvariants
  import opened Discipline
  import opened Retries
  import opened Talk
  import opened Windows
  import opened Steps
  import opened Receiving
  import opened Sessions
  import opened Ends
  import opened TwoEnds

  // ---------------------------------------------------------------------------------------------
  // One round of recovery

  /** x has payloads outstanding and retries left, y is there, and everything on its way is lost. */
  predicate Stuck(net: Net, m: int) {
    && Agreed(net, m) && net.xy == [] && net.yx == []
    && InData(net.x.c) && InData(net.y.c) && net.x.c.t1.running
    && (net.x.c.st == TimerRecovery ==> net.x.c.rc != net.x.c.n2)
  }

  /** How many enquiries x can still send in a row. */
  function Tries(c: Conn): int {
    if c.st == Connected then c.n2 else c.n2 - c.rc
  }

  predicate Enquiry(f: Flight) {
    f.p.frame.Rr? && f.p.frame.poll && f.p.commandResponse
  }

  predicate Response(f: Flight, y: End) {
    f.p.frame.Rr? && f.p.frame.poll && !f.p.commandResponse && f.ack == Received(y)
  }

  /** The expiry of T1 sends an enquiry and nothing else. */
  lemma TickAsks(x: End, clock: Clock, m: int)
    requires EndOk(x, m) && InData(x.c) && x.c.t1.running && (x.c.st == TimerRecovery ==> x.c.rc != x.c.n2)
    ensures var x2 := Advance(x, T1Expires, clock);
            && x2.c.st == TimerRecovery && |Emitted(x, x2)| == 1 && Enquiry(Emitted(x, x2)[0])
            && x2.c.t1.running && Received(x2) == Received(x) && x2.acc == x.acc
            && x2.c.n2 == x.c.n2 && x2.c.rc == if x.c.st == Connected then 1 else x.c.rc + 1
  {
    hide Safe, Regular, Labelled, Poll;
    var mid := Handle(x.c, T1Expires, clock);
    RegularIsPlain(x.c);
    TickHandled(x.c, clock);
    FullPoll(x.c, mid);
  }

  lemma TickHandled(c: Conn, clock: Clock)
    requires InData(c) && !c.ownReceiverBusy && (c.st == TimerRecovery ==> c.rc != c.n2)
    ensures var mid := OnT1(StopT1(c), clock);
            && mid.st == TimerRecovery && mid.t1.running && SameQueues(c, mid) && mid.delivered == c.delivered
            && mid.sent == c.sent + [Addressed(c, Plain(Rr(c.vr, true), true))]
            && mid.n2 == c.n2 && mid.rc == if c.st == Connected then 1 else c.rc + 1
  {}

  /** An enquiry is answered at once, before anything else is sent. */
  lemma EnquiryAnswered(y: End, f: Flight, clock: Clock, m: int)
    requires EndOk(y, m) && InData(y.c) && Enquiry(f) && Welcome(y, Receive(f.p))
    ensures var y2 := Advance(y, Receive(f.p), clock);
            && InData(y2.c) && Received(y2) == Received(y)
            && Emitted(y, y2) != [] && Response(Emitted(y, y2)[0], y2)
  {
    hide Safe, Regular, Labelled, Poll, InRange, Dist, Mod;
    var e, y2 := Receive(f.p), Advance(y, Receive(f.p), clock);
    RegularIsPlain(y.c);
    StepReceives(y.c, e, clock);
    NeverBegins(y, e);
    StepLabelled(y.c, y.acc, e, clock);
    AnswerFirst(y.c, f.p.frame.nr, clock);
    PollExtends(Handle(y.c, e, clock));
  }

  lemma AnswerFirst(c: Conn, nr: int, clock: Clock)
    requires !c.ownReceiverBusy && InRange(c.va, nr, c.vs, c.modulus)
    ensures OnRrConnected(c, nr, true, true, clock).sent == c.sent + [Addressed(c, Plain(Rr(c.vr, true), false))]
    ensures OnRrRecovery(c, nr, true, true, clock).sent == c.sent + [Addressed(c, Plain(Rr(c.vr, true), false))]
  {
    hide InRange, UpdateAck, CheckIframeAcked, Reestablish, EnquiryResponse;
    var free := c.(peerReceiverBusy := false);
    EnquirySends(free);
    AckQuiet(EnquiryResponse(free, true), nr, clock);
  }

  lemma EnquirySends(c: Conn)
    requires !c.ownReceiverBusy
    ensures EnquiryResponse(c, true).sent == c.sent + [Addressed(c, Plain(Rr(c.vr, true), false))]
  {}

  lemma PollExtends(c: Conn)
    ensures |c.sent| <= |Poll(c).sent| && Poll(c).sent[..|c.sent|] == c.sent
  {
    hide Mod;
  }

  /** Only I frames, each with the number after the one before, from number `from` on. */
  predicate Consecutive(fs: seq<Flight>, from: int) {
    forall j :: 0 <= j < |fs| ==> fs[j].p.frame.IFrame? && fs[j].n == from + j
  }

  /** The answer makes x send again from the first payload that y has not received, up to V(S). */
  lemma ResponseResends(x: End, y: End, f: Flight, clock: Clock, m: int)
    requires EndOk(x, m) && x.c.st == TimerRecovery && Response(f, y) && AckInFlight(f, x, Received(y), m)
    requires Received(y) <= x.next
    requires Welcome(x, Receive(f.p))
    ensures var x2 := Advance(x, Receive(f.p), clock);
            && InData(x2.c) && x2.acked == Received(y) <= x2.next
            && Consecutive(Emitted(x, x2), Received(y)) && |Emitted(x, x2)| == x2.next - Received(y)
            && (x2.next == |x.acc| || x2.next == x2.acked + 7)
            && x2.c.n2 == x.c.n2 && (x2.c.st == TimerRecovery ==> x2.c.rc == x.c.rc)
  {
    hide Safe, Regular, Labelled, Handle, Poll, InRange, Mod, Dist, PollCount;
    var e := Receive(f.p);
    var x2 := Advance(x, e, clock);
    LabelsAre(x.c, x.acc);
    DistOfAbsolute(x.acked, f.ack, m);
    WaitingRuns(x.c);
    NeverBegins(x, e);
    StepIs(x.c, e, clock);
    RegularIsPlain(x.c);
    HandleInStep(x.c, x.acc, e, clock) by { InStepOnly(x.c, x.acc); }
    HandleSafe(x.c, e, clock);
    HandlePending(x.c, e, clock);
    var mid := Handle(x.c, e, clock);
    PendingParts(mid);
    FinalSilent(x.c, e, clock);
    Silent(x.c, mid, false);
    PollLabels(x.c, mid, x.acc);
    PollStays(mid);
    PollSent(mid);
    WindowSize(x2.c) by { StepRegular(x.c, e, clock); }
    RetriesNeverReturned(x.c, e, clock);
    WindowFull(x2.c, x.acc);
    StartsThere(x, f, e, m);
  }

  lemma WindowFull(c: Conn, acc: seq<Payload>)
    requires Labelled(c, acc) && c.k == 7
    ensures Next(c, acc) == |acc| || Next(c, acc) == Acked(c, acc) + 7
  {}

  lemma InStepOnly(c: Conn, acc: seq<Payload>)
    requires Labelled(c, acc)
    ensures InStep(c, acc)
  {}

  lemma FinalSilent(c: Conn, e: Event, clock: Clock)
    requires c.st == TimerRecovery && e.Receive? && e.p.frame.Rr? && e.p.frame.poll && !e.p.commandResponse
    requires InRange(c.va, e.p.frame.nr, c.vs, c.modulus)
    ensures Enabled(c, e) && Handle(c, e, clock).sent == c.sent
  {
    hide InRange, UpdateAck, InvokeRetransmission, Reestablish, NewSrt, NewPeriod;
    var measured := SelectT1(StopT1(c.(peerReceiverBusy := false)), clock);
    AckQuiet(measured, e.p.frame.nr, clock);
    RetransmissionSilent(UpdateAck(measured, e.p.frame.nr), e.p.frame.nr);
  }

  lemma PollSent(mid: Conn)
    requires InData(mid)
    ensures |Poll(mid).sent| == |mid.sent| + PollCount(mid)
    ensures forall j :: |mid.sent| <= j < |Poll(mid).sent| ==> Poll(mid).sent[j].frame.IFrame?
  {
    hide Mod, PollCount;
  }

  /** Where retransmission starts, V(S) being the same as N(R) or not. */
  lemma StartsThere(x: End, f: Flight, e: Event, m: int)
    requires EndOk(x, m) && x.c.st == TimerRecovery && e == Receive(f.p)
    requires f.p.frame.Rr? && f.p.frame.poll && !f.p.commandResponse
    requires x.acked <= f.ack <= x.next && f.p.frame.nr == Mod(f.ack, m)
    ensures From(x.c, x.acc, e) == f.ack
  {
    hide Safe, Regular, Mod, Labelled;
    LabelsAre(x.c, x.acc);
    DistOfAbsolute(x.acked, f.ack, m);
    if Mod(f.ack, m) == x.c.vs {
      SameResidue(f.ack, x.next, m);
    }
  }

  /** The next n frames on their way arrive at y. */
  function Arrivals(n: nat, clocks: nat -> Clock): seq<Turn> {
    if n == 0 then [] else [Turn(false, Arrive(clocks(n)))] + Arrivals(n - 1, clocks)
  }

  /** The next payload arrives at y. */
  lemma NextArrives(net: Net, clock: Clock, m: int)
    requires Agreed(net, m) && InData(net.y.c) && net.xy != []
    requires net.xy[0].p.frame.IFrame? && net.xy[0].n == Received(net.y)
    ensures var r := Take(net, Turn(false, Arrive(clock)));
            Agreed(r, m) && r.x == net.x && InData(r.y.c) && Received(r.y) == Received(net.y) + 1 && r.xy == net.xy[1..]
  {
    hide Safe, Regular, Labelled, Step, InRange, Usable, Mod, Direction;
    var y, f := net.y, net.xy[0];
    var e := Receive(f.p);
    FlipAgrees(net, m);
    MoveAgrees(Flip(net), Arrive(clock), m);
    FlipAgrees(MoveX(Flip(net), Arrive(clock)), m);
    ArrivalWelcome(Flip(net), m);
    RegularIsPlain(y.c);
    NeverBegins(y, e);
    StepReceives(y.c, e, clock);
    StepLabelled(y.c, y.acc, e, clock);
    assert f.p.frame.ns == Mod(f.n, m) by { assert Direction(net.x, y, net.xy, net.yx, m); Labels(net, m); }
  }

  lemma Labels(net: Net, m: int)
    requires Direction(net.x, net.y, net.xy, net.yx, m) && net.xy != [] && net.xy[0].p.frame.IFrame?
    ensures net.xy[0].p.frame.ns == Mod(net.xy[0].n, m)
  {
    hide Mod;
    assert InFlight(net.xy[0], net.x, Received(net.y), m);
  }

  lemma {:induction false} Drain(net: Net, n: nat, clocks: nat -> Clock, m: int)
    requires Agreed(net, m) && InData(net.y.c)
    requires Consecutive(net.xy, Received(net.y)) && n == |net.xy| == net.x.next - Received(net.y)
    ensures var r := Play(net, Arrivals(n, clocks));
            Agreed(r, m) && r.x == net.x && InData(r.y.c) && Received(r.y) == net.x.next && r.xy == []
    decreases n
  {
    hide Agreed, Take;
    if n > 0 {
      var turns := Arrivals(n, clocks);
      assert turns[0] == Turn(false, Arrive(clocks(n))) && turns[1..] == Arrivals(n - 1, clocks);
      NextArrives(net, clocks(n), m);
      var r := Take(net, turns[0]);
      forall j | 0 <= j < |r.xy| ensures r.xy[j].p.frame.IFrame? && r.xy[j].n == Received(r.y) + j {
        assert r.xy[j] == net.xy[j + 1];
      }
      Drain(r, n - 1, clocks, m);
    }
  }

  /** The expiry of T1, the enquiry, and the answer. */
  function Exchange(net: Net, k1: Clock, k2: Clock, k3: Clock): Net {
    Take(Take(Take(net, Turn(true, Local(T1Expires, k1))), Turn(false, Arrive(k2))), Turn(true, Arrive(k3)))
  }

  lemma ExchangeResends(net: Net, k1: Clock, k2: Clock, k3: Clock, m: int)
    requires Stuck(net, m)
    ensures var r := Exchange(net, k1, k2, k3);
            && Agreed(r, m) && InData(r.x.c) && InData(r.y.c) && r.x.next >= net.x.next && r.x.acc == net.x.acc
            && r.x.acked == Received(net.y) && (r.x.next == |r.x.acc| || r.x.next == r.x.acked + 7)
            && Tries(r.x.c) >= Tries(net.x.c) - 1
            && Consecutive(r.xy, Received(r.y)) && |r.xy| == r.x.next - Received(r.y)
  {
    hide Safe, Regular, EndOk, Advance, Direction, Welcome, Consecutive, Enquiry, Response, Moved;
    var x, y := net.x, net.y;
    var x1 := Advance(x, T1Expires, k1);
    TickAsks(x, k1, m);
    MoveAgrees(net, Local(T1Expires, k1), m);
    var net1 := Take(net, Turn(true, Local(T1Expires, k1)));
    assert net1 == Net(x1, y, Emitted(x, x1), []);
    AdvanceNext(x, T1Expires, k1, m) by { WelcomeTick(x); }
    var f := net1.xy[0];

    FlipAgrees(net1, m);
    ArrivalWelcome(Flip(net1), m);
    EnquiryAnswered(y, f, k2, m);
    var y2 := Advance(y, Receive(f.p), k2);
    MoveAgrees(Flip(net1), Arrive(k2), m);
    FlipAgrees(MoveX(Flip(net1), Arrive(k2)), m);
    var net2 := Take(net1, Turn(false, Arrive(k2)));
    assert net2 == Net(x1, y2, [], Emitted(y, y2));
    var g := net2.yx[0];

    ArrivalWelcome(net2, m);
    FirstAck(net2, m);
    ResponseResends(x1, y2, g, k3, m);
    MoveAgrees(net2, Arrive(k3), m);
    AdvanceNext(x1, Receive(g.p), k3, m);
    var x2 := Advance(x1, Receive(g.p), k3);
    assert Exchange(net, k1, k2, k3) == Net(x2, y2, Emitted(x1, x2), net2.yx[1..]);
    AcceptedSame(x1, Receive(g.p), k3);
    RetriesPositive(x, m);
  }

  lemma RetriesPositive(x: End, m: int)
    requires EndOk(x, m)
    ensures 0 <= x.c.rc
  {}

  lemma WelcomeTick(x: End)
    ensures Welcome(x, T1Expires)
  {}

  lemma AcceptedSame(x: End, e: Event, clock: Clock)
    requires !e.DlData?
    ensures Advance(x, e, clock).acc == x.acc
  {
    hide Step;
  }

  lemma AdvanceNext(x: End, e: Event, clock: Clock, m: int)
    requires EndOk(x, m) && Welcome(x, e)
    ensures Advance(x, e, clock).next >= x.next
  {
    hide EndOk, Welcome, Advance, Sound, Delivers;
    AdvanceMoves(x, e, clock, m);
  }

  lemma FirstAck(net: Net, m: int)
    requires Agreed(net, m) && net.yx != []
    ensures AckInFlight(net.yx[0], net.x, Received(net.y), m) && Received(net.y) <= net.x.next
  {
    hide EndOk, AckInFlight;
  }

  /** One undisturbed round: T1 expires, the enquiry and its answer arrive, and then every I frame
      that was sent. */
  function Round(net: Net, k1: Clock, k2: Clock, k3: Clock, clocks: nat -> Clock): Net {
    var exchanged := Exchange(net, k1, k2, k3);
    Play(exchanged, Arrivals(|exchanged.xy|, clocks))
  }

  /** Main result: when everything on its way has been lost, one round brings y up to V(S) of x, and a
      window further than it was if that much has been accepted. */
  lemma RoundRecovers(net: Net, k1: Clock, k2: Clock, k3: Clock, clocks: nat -> Clock, m: int)
    requires Stuck(net, m)
    ensures var r := Round(net, k1, k2, k3, clocks);
            && Agreed(r, m) && InData(r.x.c) && InData(r.y.c) && r.xy == [] && r.x.acc == net.x.acc
            && net.x.next <= Received(r.y) == r.x.next <= |net.x.acc| && Got(r.y) == net.x.acc[..r.x.next]
            && (r.x.next == |net.x.acc| || r.x.next == Received(net.y) + 7)
            && Tries(r.x.c) >= Tries(net.x.c) - 1
  {
    hide Stuck, Exchange, Play, EndOk, Sent, Confirmed, Courteous;
    ExchangeResends(net, k1, k2, k3, m);
    var exchanged := Exchange(net, k1, k2, k3);
    Drain(exchanged, |exchanged.xy|, clocks, m);
  }

  // ---------------------------------------------------------------------------------------------
  // Round after round, with anything in between that the channels can do

  /** A frame arrives or is lost. */
  predicate Passive(turn: Turn) {
    turn.move.Arrive? || turn.move.Lose?
  }

  predicate AllPassive(turns: seq<Turn>) {
    forall i :: 0 <= i < |turns| ==> Passive(turns[i])
  }

  /** Both ends are in the session, x has lost neither payloads nor retries, and y nothing it had. */
  predicate NoWorse(net: Net, r: Net) {
    && InData(r.x.c) && InData(r.y.c) && r.x.acc == net.x.acc
    && Received(r.y) >= Received(net.y) && Tries(r.x.c) >= Tries(net.x.c)
  }

  /** In Connected what arrives in a session does not change the state. */
  lemma ConnectedStays(c: Conn, p: Packet, clock: Clock)
    requires c.st == Connected && (p.frame.Rr? || p.frame.IFrame? || p.frame.Rej?) && InData(Step(c, Receive(p), clock))
    ensures var d := Step(c, Receive(p), clock); d.st == Connected && d.n2 == c.n2
  {
    hide Poll, OnRrConnected, OnIframe;
    if !p.frame.Rej? {
      PollStays(Handle(c, Receive(p), clock));
      PollKeepsRetries(Handle(c, Receive(p), clock));
      if p.frame.Rr? {
        RrConnectedStays(c, p.frame.nr, p.frame.poll, p.commandResponse, clock);
      } else {
        IframeStays(c, p, clock);
      }
    }
  }

  lemma RrConnectedStays(c: Conn, nr: int, poll: bool, command: bool, clock: Clock)
    requires c.st == Connected && InData(OnRrConnected(c, nr, poll, command, clock))
    ensures var d := OnRrConnected(c, nr, poll, command, clock); d.st == Connected && d.n2 == c.n2
  {
    hide InRange, CheckIframeAcked, Reestablish, EnquiryResponse;
    var free := c.(peerReceiverBusy := false);
    var answered := if command && poll then EnquiryResponse(free, true) else free;
    EnquiryStays(free);
    EnquiryRetries(free);
    AckStays(answered, nr, clock);
    CheckRetries(answered, nr, clock);
  }

  lemma CheckRetries(c: Conn, nr: int, clock: Clock)
    ensures SameRetries(c, CheckIframeAcked(c, nr, clock))
  {
    hide UpdateAck, SelectT1;
    AckRetries(c, nr);
    SelectRetries(StartT3(StopT1(UpdateAck(c, nr))), clock);
  }

  lemma SelectRetries(c: Conn, clock: Clock)
    ensures SameRetries(c, SelectT1(c, clock))
  {
    hide NewSrt, NewPeriod;
  }

  lemma IframeStays(c: Conn, p: Packet, clock: Clock)
    requires c.st == Connected && p.frame.IFrame? && InData(OnIframe(c, p, clock))
    ensures var d := OnIframe(c, p, clock); d.st == Connected && d.n2 == c.n2
  {
    hide InRange, CheckIframeAcked, UpdateAck, Reestablish, AcceptIframe;
    var acked := CheckIframeAcked(c, p.frame.nr, clock);
    AckStays(c, p.frame.nr, clock);
    CheckRetries(c, p.frame.nr, clock);
    AcceptStays(acked, p.frame.ns, p.frame.poll, p.frame.payload);
    AcceptRetries(acked, p.frame.ns, p.frame.poll, p.frame.payload);
  }

  lemma TriesKept(c: Conn, p: Packet, clock: Clock)
    requires Safe(c) && Regular(c) && InData(c) && (p.frame.Rr? || p.frame.IFrame? || p.frame.Rej?)
    requires InData(Step(c, Receive(p), clock))
    ensures Tries(Step(c, Receive(p), clock)) >= Tries(c)
  {
    hide Safe, Step;
    if c.st == Connected {
      ConnectedStays(c, p, clock);
    } else {
      RetriesNeverReturned(c, Receive(p), clock);
    }
  }

  /** Between two ends in a session nothing that arrives ends it. */
  lemma ArriveStays(net: Net, clock: Clock, m: int)
    requires Agreed(net, m) && InData(net.x.c) && InData(net.y.c) && net.yx != []
    ensures var r := MoveX(net, Arrive(clock));
            && InData(r.x.c) && r.y == net.y && r.x.acc == net.x.acc
            && Received(r.x) >= Received(net.x) && Tries(r.x.c) >= Tries(net.x.c)
  {
    hide Safe, Regular, Labelled, Step, InRange, Usable, Delivered, Sent, Confirmed, Tries, Delivers;
    var x, f := net.x, net.yx[0];
    var e := Receive(f.p);
    assert Courteous(f, net.y, x);
    ArrivalWelcome(net, m);
    NeverBegins(x, e);
    RegularIsPlain(x.c);
    StepLabelled(x.c, x.acc, e, clock);
    StepReceives(x.c, e, clock);
    TriesKept(x.c, f.p, clock);
  }

  lemma PassiveTurn(net: Net, turn: Turn, m: int)
    requires Agreed(net, m) && InData(net.x.c) && InData(net.y.c) && Passive(turn)
    ensures Agreed(Take(net, turn), m) && NoWorse(net, Take(net, turn))
  {
    hide Agreed, Tries, Advance, Emitted, Without;
    FlipAgrees(net, m);
    MoveAgrees(net, turn.move, m);
    MoveAgrees(Flip(net), turn.move, m);
    FlipAgrees(MoveX(Flip(net), turn.move), m);
    if turn.move.Arrive? {
      if turn.atX {
        if net.yx != [] { ArriveStays(net, turn.move.clock, m); }
      } else {
        if net.xy != [] { ArriveStays(Flip(net), turn.move.clock, m); }
      }
    }
  }

  lemma {:induction false} PassivePlay(net: Net, turns: seq<Turn>, m: int)
    requires Agreed(net, m) && InData(net.x.c) && InData(net.y.c) && AllPassive(turns)
    ensures Agreed(Play(net, turns), m) && NoWorse(net, Play(net, turns))
    decreases |turns|
  {
    hide Agreed, Take, Tries;
    if turns != [] {
      PassiveTurn(net, turns[0], m);
      PassivePlay(Take(net, turns[0]), turns[1..], m);
    }
  }

  /** A round, and what happens on the channels before the next one begins. */
  datatype Episode = Episode(k1: Clock, k2: Clock, k3: Clock, clocks: nat -> Clock, between: seq<Turn>)

  function After(net: Net, e: Episode): Net {
    Play(Round(net, e.k1, e.k2, e.k3, e.clocks), e.between)
  }

  /** Round after round, as long as T1 runs, that is, as long as x knows of something unacknowledged. */
  function Rounds(net: Net, es: seq<Episode>): Net
    decreases |es|
  {
    if es == [] || !net.x.c.t1.running then net else Rounds(After(net, es[0]), es[1..])
  }

  /** Between rounds frames arrive and get lost until none is on its way. */
  predicate Clearing(net: Net, es: seq<Episode>)
    decreases |es|
  {
    es != [] && net.x.c.t1.running ==>
      var r := After(net, es[0]);
      AllPassive(es[0].between) && r.xy == r.yx == [] && Clearing(r, es[1..])
  }

  /** When T1 does not run in a session, everything accepted has been delivered. */
  lemma IdleIsDone(net: Net, m: int)
    requires Agreed(net, m) && InData(net.x.c) && !net.x.c.t1.running
    ensures Received(net.y) == |net.x.acc|
  {
    hide Safe, Labelled, Sent, Confirmed, Courteous;
    NothingRuns(net.x.c);
    NothingWaits(net.x.c, net.x.acc);
  }

  lemma NothingRuns(c: Conn)
    requires Regular(c) && InData(c) && !c.t1.running
    ensures c.vs == c.va
  {}

  lemma WithinAccepted(net: Net, m: int)
    requires Agreed(net, m)
    ensures Received(net.y) <= |net.x.acc|
  {
    hide EndOk, Sent, Confirmed, Courteous;
  }

  lemma EpisodeRecovers(net: Net, e: Episode, m: int)
    requires Stuck(net, m) && AllPassive(e.between)
    ensures var r := After(net, e);
            && Agreed(r, m) && InData(r.x.c) && InData(r.y.c) && r.x.acc == net.x.acc
            && (Received(r.y) == |net.x.acc| || Received(r.y) >= Received(net.y) + 7)
            && Tries(r.x.c) >= Tries(net.x.c) - 1
  {
    hide Stuck, Round, Play, Agreed, Got, Tries;
    RoundRecovers(net, e.k1, e.k2, e.k3, e.clocks, m);
    var r := Round(net, e.k1, e.k2, e.k3, e.clocks);
    PassivePlay(r, e.between, m);
    WithinAccepted(Play(r, e.between), m);
  }

  /** Main result: payloads get through whatever the channels do between the rounds.  After n rounds, n
      no more than the retries left, y has everything that x accepted or at least 7 n payloads more than
      before. */
  lemma {:induction false} RoundsDeliver(net: Net, es: seq<Episode>, m: int)
    requires Agreed(net, m) && InData(net.x.c) && InData(net.y.c) && net.xy == net.yx == []
    requires |es| <= Tries(net.x.c) && Clearing(net, es)
    ensures var r := Rounds(net, es);
            && Agreed(r, m) && r.x.acc == net.x.acc
            && Received(net.y) <= Received(r.y) <= |r.x.acc|
            && (Received(r.y) == |r.x.acc| || Received(r.y) >= Received(net.y) + 7 * |es|)
    decreases |es|
  {
    hide Agreed, After, AllPassive;
    WithinAccepted(net, m);
    if !net.x.c.t1.running {
      IdleIsDone(net, m);
    } else if es != [] {
      EpisodeRecovers(net, es[0], m);
      var r := After(net, es[0]);
      WithinAccepted(net, m);
      WithinAccepted(r, m);
      RoundsDeliver(r, es[1..], m);
    }
  }
}
