/** How a session begins: one new connection asks another for a link, over channels that lose frames and
    with T1 running. */
module Handshake {
  import opened Bytes
  import opened Packets
  import opened Modular
  import opened Link
  import opened LinkInvariants
  import opened Discipline
  import opened Retries
  import opened Talk
  import opened Windows
  import opened Steps
  import opened Receiving
  import opened Sessions
  import opened Leftovers
  import opened Ends
  import opened TwoEnds

  function NewEnd(c: Conn): End {
    End(c, [], 0, 0, |c.delivered|)
  }

  lemma Asking(dst: string, src: string, clock: Clock)
    ensures var a := Step(FRESH, DlConnect(dst, src), clock);
            && Safe(a) && Regular(a) && a.st == AwaitingConnection && a.layer3Initiated && a.modulus == 8
            && a.src == src && a.dst == dst && a.queue == a.resend == [] && a.vs == a.va == 0 && a.rc == 0 && a.n2 == 3
            && a.sent == [Addressed(a, Plain(Sabm(true), false))]
  {
    hide Safe, Regular;
    FreshRegular();
    StepRegular(FRESH, DlConnect(dst, src), clock);
    hide Poll;
    PollIdle(OnDlConnect(FRESH, dst, src));
  }

  /** A fresh connection accepts a SABM; the UA goes back to whoever sent it. */
  lemma Accepting(p: Packet, clock: Clock)
    requires p.frame == Sabm(true)
    ensures var b := Step(FRESH, Receive(p), clock);
            && Safe(b) && Regular(b) && Begun(NewEnd(b), 8) && b.src == p.dst && b.dst == p.src
            && b.sent == [Addressed(b, Plain(Ua(true), false))]
  {
    hide Safe, Regular, Poll;
    FreshRegular();
    StepRegular(FRESH, Receive(p), clock);
    AcceptingHandled(p);
    EmptyPoll(OnSabmDisconnected(FRESH, p));
  }

  lemma AcceptingHandled(p: Packet)
    requires p.frame == Sabm(true)
    ensures var b := OnSabmDisconnected(FRESH, p);
            && b.st == Connected && b.modulus == 8 && b.vs == b.va == b.vr == 0 && b.queue == b.resend == []
            && b.src == p.dst && b.dst == p.src && b.sent == [Addressed(b, Plain(Ua(true), false))]
  {}

  /** The UA opens the session that was asked for. */
  lemma AskedFor(a: Conn, p: Packet, clock: Clock)
    requires Safe(a) && Regular(a) && a.st == AwaitingConnection && p.frame == Ua(true)
    requires a.queue == a.resend == [] && a.modulus == 8
    ensures var d := Step(a, Receive(p), clock);
            Safe(d) && Regular(d) && Begun(NewEnd(d), 8) && d.src == a.src && d.dst == a.dst && d.sent == a.sent
  {
    hide Safe, Regular, Poll;
    StepRegular(a, Receive(p), clock);
    UaOpensEmpty(a, clock);
    EmptyPoll(OnUaAwaiting(a, clock));
  }

  lemma UaOpensEmpty(a: Conn, clock: Clock)
    requires a.queue == a.resend == []
    ensures var d := OnUaAwaiting(a, clock);
            && d.st == Connected && d.modulus == a.modulus && d.vs == d.va == d.vr == 0 && d.queue == d.resend == []
            && d.src == a.src && d.dst == a.dst && d.sent == a.sent
  {
    hide NewSrt, NewPeriod;
  }

  /** Main result: two new connections that exchange SABM and UA have an established session. */
  lemma HandshakeEstablishes(dst: string, src: string, k1: Clock, k2: Clock, k3: Clock)
    ensures var a := Step(FRESH, DlConnect(dst, src), k1);
            a.sent != [] &&
            var b := Step(FRESH, Receive(a.sent[0]), k2);
            b.sent != [] &&
            var a2 := Step(a, Receive(b.sent[0]), k3);
            && Established(Net(NewEnd(a2), NewEnd(b), [], []), 8)
            && a2.sent == a.sent && |a.sent| == |b.sent| == 1
            && a2.src == b.dst == src && a2.dst == b.src == dst
  {
    hide Safe, Regular, Step, Begun;
    Asking(dst, src, k1);
    var a := Step(FRESH, DlConnect(dst, src), k1);
    Accepting(a.sent[0], k2);
    var b := Step(FRESH, Receive(a.sent[0]), k2);
    AskedFor(a, b.sent[0], k3);
  }

  // ---------------------------------------------------------------------------------------------
  // One end while the link is being set up

  /** Waiting for the UA, with nothing to send. */
  predicate Asks(c: Conn) {
    Safe(c) && Regular(c) && c.st == AwaitingConnection && c.modulus == 8 && c.queue == [] && c.resend == []
  }

  /** At the beginning of a session. */
  predicate Opened(c: Conn) {
    Begun(NewEnd(c), 8)
  }

  /** Out of any session, with nothing to send. */
  predicate Gone(c: Conn) {
    Safe(c) && Regular(c) && c.st == Disconnected && c.queue == [] && c.resend == []
  }

  /** From c to d exactly these frames were sent, and the addresses are the same. */
  predicate Said(c: Conn, d: Conn, frames: seq<Packet>) {
    d.sent == c.sent + frames && d.src == c.src && d.dst == c.dst
  }

  function UaFrom(c: Conn): Packet {
    Addressed(c, Plain(Ua(true), false))
  }

  /** One more SABM, or no more. */
  lemma AsksTick(c: Conn, clock: Clock)
    requires Asks(c)
    ensures var d := Step(c, T1Expires, clock);
            && d.n2 == c.n2
            && if c.rc == c.n2 then Gone(d) && Said(c, d, [])
               else Asks(d) && d.rc == c.rc + 1 && Said(c, d, [SabmFrom(c)])
  {
    hide Safe, Regular, Step, SabmFrom;
    WaitingRuns(c);
    StepRegular(c, T1Expires, clock);
    AwaitingTick(c, clock);
    AsksTickState(c, clock);
    assert c.sent + [] == c.sent;
  }

  lemma AsksTickState(c: Conn, clock: Clock)
    requires c.st == AwaitingConnection && c.t1.running && c.queue == c.resend == []
    ensures var d := Step(c, T1Expires, clock);
            && d.queue == d.resend == [] && d.modulus == c.modulus
            && d.st == if c.rc == c.n2 then Disconnected else AwaitingConnection
  {
    hide Poll, OnT1Awaiting;
    var mid := OnT1Awaiting(StopT1(c), clock);
    T1AwaitingReceives(StopT1(c), clock);
    AwaitingKeepsQueue(StopT1(c), clock);
    AwaitingTakesRetry(StopT1(c), clock);
    PollIdle(mid);
  }

  lemma AsksUa(c: Conn, p: Packet, clock: Clock)
    requires Asks(c) && p.frame == Ua(true)
    ensures var d := Step(c, Receive(p), clock); Opened(d) && Said(c, d, [])
  {
    hide Safe, Regular, Step;
    AskedFor(c, p, clock);
    assert c.sent + [] == c.sent;
  }

  /** A UA too many. */
  lemma OpenedUa(c: Conn, p: Packet, clock: Clock)
    requires Opened(c) && p.frame == Ua(true)
    ensures var d := Step(c, Receive(p), clock); Asks(d) && d.rc == 0 && Said(c, d, [SabmFrom(c)])
  {
    hide Safe, Regular, Poll, Reestablish;
    StepRegular(c, Receive(p), clock);
    ReestablishSays(c);
    PollIdle(Reestablish(c));
  }

  lemma ReestablishSays(c: Conn)
    ensures var d := Reestablish(c);
            && d.st == AwaitingConnection && !d.layer3Initiated && d.modulus == c.modulus && d.rc == 0
            && d.queue == c.queue && d.resend == c.resend && d.vs == c.vs && d.va == c.va && Said(c, d, [SabmFrom(c)])
  {}

  lemma GoneUa(c: Conn, p: Packet, clock: Clock)
    requires c.st == Disconnected && p.frame == Ua(true)
    ensures Step(c, Receive(p), clock) == c
  {
    hide Reestablish, OnUaAwaiting, DataPoll;
  }

  lemma GoneSabm(c: Conn, p: Packet, clock: Clock)
    requires Gone(c) && p.frame == Sabm(true)
    ensures var d := Step(c, Receive(p), clock);
            Opened(d) && d.src == p.dst && d.dst == p.src && d.sent == c.sent + [UaFrom(d)]
  {
    hide Safe, Regular, Poll;
    StepRegular(c, Receive(p), clock);
    SabmOpensAs(c, p);
    EmptyPoll(OnSabmDisconnected(c, p));
  }

  lemma SabmOpensAs(c: Conn, p: Packet)
    requires p.frame == Sabm(true) && c.queue == c.resend == []
    ensures var d := OnSabmDisconnected(c, p);
            && d.st == Connected && d.modulus == 8 && d.vs == d.va == d.vr == 0 && d.queue == d.resend == []
            && d.src == p.dst && d.dst == p.src && d.sent == c.sent + [UaFrom(d)]
  {}

  /** A SABM too many resets the session and is answered as well. */
  lemma OpenedSabm(c: Conn, p: Packet, clock: Clock)
    requires Opened(c) && p.frame == Sabm(true)
    ensures var d := Step(c, Receive(p), clock); Opened(d) && Said(c, d, [UaFrom(c)])
  {
    hide Safe, Regular, Poll;
    StepRegular(c, Receive(p), clock);
    SabmResetsAs(c, p);
    EmptyPoll(OnSabmConnected(c, p));
  }

  lemma SabmResetsAs(c: Conn, p: Packet)
    requires p.frame == Sabm(true) && c.st == Connected && c.queue == c.resend == []
    ensures var d := OnSabmConnected(c, p);
            && d.st == Connected && d.modulus == c.modulus && d.vs == d.va == d.vr == 0 && d.queue == d.resend == []
            && Said(c, d, [UaFrom(c)])
  {}

  /** T1 does not run once the link is there or given up. */
  lemma NotTicking(c: Conn, clock: Clock)
    requires Opened(c) || Gone(c)
    ensures Step(c, T1Expires, clock) == c
  {
    hide Poll, OnT1;
    assert !c.t1.running;
  }

  /** T3 only stops. */
  lemma IdleStops(c: Conn, clock: Clock)
    requires c.queue == []
    ensures Step(c, T3Expires, clock) == if c.t3.running then StopT3(c) else c
  {
    hide Poll;
    EmptyPoll(StopT3(c));
  }

  lemma OnlyStops(c: Conn)
    ensures var d := StopT3(c);
            && d.st == c.st && d.modulus == c.modulus && d.queue == c.queue && d.resend == c.resend && d.sent == c.sent
            && d.vs == c.vs && d.va == c.va && d.vr == c.vr && d.src == c.src && d.dst == c.dst
  {}

  lemma IdleTimer(c: Conn, e: Event, clock: Clock)
    requires e == T3Expires || (e == T1Expires && (Opened(c) || Gone(c)))
    requires Asks(c) || Opened(c) || Gone(c)
    ensures var d := Step(c, e, clock);
            Said(c, d, []) && (Asks(c) ==> Asks(d)) && (Opened(c) ==> Opened(d)) && (Gone(c) ==> Gone(d))
  {
    hide Safe, Regular, Step, StopT3;
    assert c.sent + [] == c.sent;
    if e == T1Expires {
      NotTicking(c, clock);
    } else {
      StepRegular(c, e, clock);
      IdleStops(c, clock);
      OnlyStops(c);
    }
  }

  // ---------------------------------------------------------------------------------------------
  // Both ends and the frames on their way

  datatype Call = Call(a: Conn, b: Conn, ab: seq<Packet>, ba: seq<Packet>)

  /** A timer runs out at a or at b, the first frame on its way there arrives, or any frame is lost. */
  datatype Act =
    | Timer(atA: bool, t1: bool, clock: Clock)
    | Arrival(atA: bool, clock: Clock)
    | Loss(fromA: bool, i: nat)

  function NewFrames(c: Conn, d: Conn): seq<Packet> {
    if |c.sent| <= |d.sent| then d.sent[|c.sent|..] else []
  }

  function AtA(s: Call, e: Event, clock: Clock, ba: seq<Packet>): Call {
    var a := Step(s.a, e, clock);
    Call(a, s.b, s.ab + NewFrames(s.a, a), ba)
  }

  function AtB(s: Call, e: Event, clock: Clock, ab: seq<Packet>): Call {
    var b := Step(s.b, e, clock);
    Call(s.a, b, ab, s.ba + NewFrames(s.b, b))
  }

  function Do(s: Call, act: Act): Call {
    match act
    case Timer(atA, t1, clock) =>
      var e := if t1 then T1Expires else T3Expires;
      if atA then AtA(s, e, clock, s.ba) else AtB(s, e, clock, s.ab)
    case Arrival(atA, clock) =>
      if atA then (if s.ba == [] then s else AtA(s, Receive(s.ba[0]), clock, s.ba[1..]))
      else if s.ab == [] then s else AtB(s, Receive(s.ab[0]), clock, s.ab[1..])
    case Loss(fromA, i) =>
      if fromA then (if i < |s.ab| then s.(ab := Without(s.ab, i)) else s)
      else if i < |s.ba| then s.(ba := Without(s.ba, i)) else s
  }

  function DoAll(s: Call, acts: seq<Act>): Call
    decreases |acts|
  {
    if acts == [] then s else DoAll(Do(s, acts[0]), acts[1..])
  }

  /** After dl_connect on a new connection. */
  function Dialled(dst: string, src: string, clock: Clock): Call {
    var a := Step(FRESH, DlConnect(dst, src), clock);
    Call(a, FRESH, a.sent, [])
  }

  function SabmOf(dst: string, src: string): Packet {
    Packet(dst, src, [], 0, Sabm(true), false, false, true, false)
  }

  function UaOf(dst: string, src: string): Packet {
    Packet(dst, src, [], 0, Ua(true), false, false, true, false)
  }

  predicate Only(ps: seq<Packet>, p: Packet) {
    forall i :: 0 <= i < |ps| ==> ps[i] == p
  }

  /** What every state of the call keeps. */
  predicate Calling(s: Call, dst: string, src: string) {
    && s.a.src == src && s.a.dst == dst && (Asks(s.a) || Opened(s.a) || Gone(s.a))
    && (Gone(s.b) || (Opened(s.b) && s.b.src == dst && s.b.dst == src))
    && Only(s.ab, SabmOf(dst, src)) && Only(s.ba, UaOf(src, dst))
    && (Opened(s.a) || s.ba != [] ==> Opened(s.b))
  }

  /** Both ends at the beginning of the same session and nothing on its way. */
  predicate InSession(s: Call) {
    Established(Net(NewEnd(s.a), NewEnd(s.b), [], []), 8) && s.ab == [] && s.ba == []
  }

  lemma OnlyMore(ps: seq<Packet>, more: seq<Packet>, p: Packet)
    requires Only(ps, p) && Only(more, p)
    ensures Only(ps + more, p)
  {}

  lemma OnlyLess(ps: seq<Packet>, i: nat, p: Packet)
    requires Only(ps, p) && i < |ps|
    ensures Only(Without(ps, i), p) && Only(ps[1..], p) && ps[0] == p
  {
    var rest := Without(ps, i);
    forall j | 0 <= j < |rest| ensures rest[j] == p {
      assert rest[j] == ps[if j < i then j else j + 1];
    }
  }

  lemma NewAre(c: Conn, d: Conn, frames: seq<Packet>)
    requires d.sent == c.sent + frames
    ensures NewFrames(c, d) == frames
  {}

  lemma FromAre(c: Conn)
    ensures SabmFrom(c) == SabmOf(c.dst, c.src) && UaFrom(c) == UaOf(c.dst, c.src)
  {}

  /** Exactly one of three things holds of the end that asks. */
  lemma Exclusive(c: Conn)
    ensures Asks(c) ==> c.st == AwaitingConnection
    ensures Opened(c) ==> c.st == Connected
    ensures Gone(c) ==> c.st == Disconnected
  {}

  lemma TimerCalling(s: Call, act: Act, dst: string, src: string)
    requires Calling(s, dst, src) && act.Timer?
    ensures Calling(Do(s, act), dst, src)
  {
    hide Asks, Opened, Gone, Step, SabmOf, UaOf, SabmFrom, NewFrames;
    var e := if act.t1 then T1Expires else T3Expires;
    Exclusive(s.a);
    Exclusive(s.b);
    if act.atA {
      var d := Step(s.a, e, act.clock);
      if Asks(s.a) && act.t1 {
        AsksTick(s.a, act.clock);
        FromAre(s.a);
        if s.a.rc == s.a.n2 {
          NewAre(s.a, d, []);
        } else {
          NewAre(s.a, d, [SabmFrom(s.a)]);
          OnlyMore(s.ab, [SabmFrom(s.a)], SabmOf(dst, src));
        }
      } else {
        IdleTimer(s.a, e, act.clock);
        NewAre(s.a, d, []);
      }
      assert s.ab + [] == s.ab;
      Exclusive(d);
    } else {
      IdleTimer(s.b, e, act.clock);
      NewAre(s.b, Step(s.b, e, act.clock), []);
      assert s.ba + [] == s.ba;
    }
  }

  lemma ArrivalCalling(s: Call, act: Act, dst: string, src: string)
    requires Calling(s, dst, src) && act.Arrival?
    ensures Calling(Do(s, act), dst, src)
  {
    hide Asks, Opened, Gone, Step, SabmFrom, UaFrom, NewFrames;
    Exclusive(s.a);
    if act.atA {
      if s.ba != [] {
        OnlyLess(s.ba, 0, UaOf(src, dst));
        UaCalling(s, act.clock, dst, src);
      }
    } else if s.ab != [] {
      OnlyLess(s.ab, 0, SabmOf(dst, src));
      SabmCalling(s, act.clock, dst, src);
    }
  }

  /** The end that asks goes back and forth between waiting and having a link. */
  function AfterUa(st: State): State {
    match st
    case AwaitingConnection => Connected
    case Connected => AwaitingConnection
    case _ => st
  }

  lemma UaCalling(s: Call, clock: Clock, dst: string, src: string)
    requires Calling(s, dst, src) && s.ba != [] && s.ba[0] == UaOf(src, dst) && Only(s.ba[1..], UaOf(src, dst))
    ensures var t := AtA(s, Receive(s.ba[0]), clock, s.ba[1..]);
            && Calling(t, dst, src) && t.a.st == AfterUa(s.a.st)
            && |t.ab| == |s.ab| + (if s.a.st == Connected then 1 else 0)
  {
    hide Asks, Opened, Gone, Step, SabmFrom, NewFrames;
    var d := Step(s.a, Receive(s.ba[0]), clock);
    Exclusive(s.a);
    Exclusive(d);
    FromAre(s.a);
    if Asks(s.a) {
      AsksUa(s.a, s.ba[0], clock);
      NewAre(s.a, d, []);
    } else if Opened(s.a) {
      OpenedUa(s.a, s.ba[0], clock);
      NewAre(s.a, d, [SabmFrom(s.a)]);
      OnlyMore(s.ab, [SabmFrom(s.a)], SabmOf(dst, src));
    } else {
      GoneUa(s.a, s.ba[0], clock);
      assert s.a.sent + [] == s.a.sent;
      NewAre(s.a, d, []);
    }
    assert s.ab + [] == s.ab;
  }

  lemma SabmCalling(s: Call, clock: Clock, dst: string, src: string)
    requires Calling(s, dst, src) && s.ab != [] && s.ab[0] == SabmOf(dst, src) && Only(s.ab[1..], SabmOf(dst, src))
    ensures var t := AtB(s, Receive(s.ab[0]), clock, s.ab[1..]);
            Calling(t, dst, src) && |t.ba| == |s.ba| + 1
  {
    hide Asks, Opened, Gone, Step, UaFrom, NewFrames;
    var d := Step(s.b, Receive(s.ab[0]), clock);
    Exclusive(s.b);
    Exclusive(s.a);
    if Opened(s.b) {
      OpenedSabm(s.b, s.ab[0], clock);
      FromAre(s.b);
      NewAre(s.b, d, [UaFrom(s.b)]);
      OnlyMore(s.ba, [UaFrom(s.b)], UaOf(src, dst));
    } else {
      GoneSabm(s.b, s.ab[0], clock);
      FromAre(d);
      NewAre(s.b, d, [UaFrom(d)]);
      OnlyMore(s.ba, [UaFrom(d)], UaOf(src, dst));
    }
  }

  lemma DoCalling(s: Call, act: Act, dst: string, src: string)
    requires Calling(s, dst, src)
    ensures Calling(Do(s, act), dst, src)
  {
    hide Calling, AtA, AtB;
    match act
    case Timer(_, _, _) => TimerCalling(s, act, dst, src);
    case Arrival(_, _) => ArrivalCalling(s, act, dst, src);
    case Loss(fromA, i) => LossCalling(s, act, dst, src);
  }

  lemma LossCalling(s: Call, act: Act, dst: string, src: string)
    requires Calling(s, dst, src) && act.Loss?
    ensures Calling(Do(s, act), dst, src)
  {
    hide Asks, Opened, Gone, SabmOf, UaOf;
    if act.fromA {
      if act.i < |s.ab| { OnlyLess(s.ab, act.i, SabmOf(dst, src)); }
    } else {
      if act.i < |s.ba| { OnlyLess(s.ba, act.i, UaOf(src, dst)); }
    }
  }

  lemma DialledCalling(dst: string, src: string, clock: Clock)
    ensures var s := Dialled(dst, src, clock);
            Calling(s, dst, src) && Asks(s.a) && s.a.rc == 0 && s.a.n2 == 3 && |s.ab| == 1 && s.ba == []
  {
    hide Safe, Regular, Step;
    Asking(dst, src, clock);
    FreshRegular();
  }

  lemma {:induction false} DoAllCalling(s: Call, acts: seq<Act>, dst: string, src: string)
    requires Calling(s, dst, src)
    ensures Calling(DoAll(s, acts), dst, src)
    decreases |acts|
  {
    hide Calling, Do;
    if acts != [] {
      DoCalling(s, acts[0], dst, src);
      DoAllCalling(Do(s, acts[0]), acts[1..], dst, src);
    }
  }

  /** Main result: whatever is lost and however early T1 runs out, the end that asks is waiting, has a
      link, or has given up; and the session is established exactly when it has a link and no SABM or UA
      is on its way any more. */
  lemma EstablishedWhen(dst: string, src: string, clock: Clock, acts: seq<Act>)
    ensures var s := DoAll(Dialled(dst, src, clock), acts);
            && (s.a.st == AwaitingConnection || s.a.st == Connected || s.a.st == Disconnected)
            && (InSession(s) <==> s.a.st == Connected && s.ab == [] && s.ba == [])
            && (InSession(s) ==> s.a.src == s.b.dst == src && s.a.dst == s.b.src == dst)
  {
    hide Dialled, DoAll, Safe, Regular;
    DialledCalling(dst, src, clock);
    DoAllCalling(Dialled(dst, src, clock), acts, dst, src);
    var s := DoAll(Dialled(dst, src, clock), acts);
    Exclusive(s.a);
    Exclusive(s.b);
  }

  // ---------------------------------------------------------------------------------------------
  // When the session begins

  function OnTheWay(s: Call): nat {
    |s.ab| + |s.ba|
  }

  /** A frame is there to arrive. */
  predicate Delivers(s: Call, act: Act) {
    act.Arrival? && if act.atA then s.ba != [] else s.ab != []
  }

  predicate Delivering(s: Call, acts: seq<Act>)
    decreases |acts|
  {
    acts == [] || (Delivers(s, acts[0]) && Delivering(Do(s, acts[0]), acts[1..]))
  }

  /** How many arrivals are left: a SABM on its way costs its own and its UA's, and every UA but the one
      that is waited for costs a SABM and a UA more. */
  function Remaining(s: Call): int {
    4 * |s.ab| + 3 * |s.ba| - if s.a.st == AwaitingConnection then 2 else 0
  }

  /** The end that asks has a link, or something is on its way that will give it one. */
  predicate Hopeful(s: Call) {
    s.a.st == Connected || (s.a.st == AwaitingConnection && OnTheWay(s) > 0)
  }

  lemma DeliveryCounts(s: Call, act: Act, dst: string, src: string)
    requires Calling(s, dst, src) && Delivers(s, act)
    ensures var t := Do(s, act);
            && Calling(t, dst, src)
            && (s.a.st == Disconnected ==> t.a.st == Disconnected)
            && (s.a.st != Disconnected ==> Hopeful(t) && Remaining(t) == Remaining(s) - 1)
  {
    hide Asks, Opened, Gone, Step, SabmOf, UaOf, NewFrames;
    Exclusive(s.a);
    if act.atA {
      OnlyLess(s.ba, 0, UaOf(src, dst));
      UaCalling(s, act.clock, dst, src);
    } else {
      OnlyLess(s.ab, 0, SabmOf(dst, src));
      SabmCalling(s, act.clock, dst, src);
    }
  }

  lemma {:induction false} DeliveriesCount(s: Call, acts: seq<Act>, dst: string, src: string)
    requires Calling(s, dst, src) && Delivering(s, acts)
    ensures var t := DoAll(s, acts);
            && Calling(t, dst, src)
            && (s.a.st == Disconnected ==> t.a.st == Disconnected)
            && (Hopeful(s) ==> Hopeful(t) && Remaining(t) == Remaining(s) - |acts|)
            && (acts == [] || s.a.st == Disconnected || Hopeful(s))
    decreases |acts|
  {
    hide Calling, Do;
    if acts != [] {
      assert s.a.st == AwaitingConnection || s.a.st == Connected || s.a.st == Disconnected by { StateIs(s, dst, src); }
      DeliveryCounts(s, acts[0], dst, src);
      DeliveriesCount(Do(s, acts[0]), acts[1..], dst, src);
    }
  }

  lemma StateIs(s: Call, dst: string, src: string)
    requires Calling(s, dst, src)
    ensures s.a.st == AwaitingConnection || s.a.st == Connected || s.a.st == Disconnected
    ensures InSession(s) <==> s.a.st == Connected && OnTheWay(s) == 0
  {
    hide Safe, Regular, SabmOf, UaOf;
    Exclusive(s.a);
    Exclusive(s.b);
  }

  /** Main result: after any run of losses and early expiries, when what is on its way has arrived and T1
      has not run out again, the session is established exactly if the end that asks has a link already, or
      is still waiting and something was on its way; and that takes exactly Remaining arrivals. */
  lemma SettlesWhen(dst: string, src: string, clock: Clock, acts: seq<Act>, more: seq<Act>)
    requires Delivering(DoAll(Dialled(dst, src, clock), acts), more)
    ensures var s := DoAll(Dialled(dst, src, clock), acts);
            var t := DoAll(s, more);
            && (InSession(t) <==> Hopeful(s) && |more| == Remaining(s))
            && (OnTheWay(t) == 0 ==> (InSession(t) <==> Hopeful(s)))
  {
    hide Dialled, DoAll, Delivering, Calling, InSession;
    DialledCalling(dst, src, clock);
    DoAllCalling(Dialled(dst, src, clock), acts, dst, src);
    var s := DoAll(Dialled(dst, src, clock), acts);
    DeliveriesCount(s, more, dst, src);
    StateIs(s, dst, src);
    StateIs(DoAll(s, more), dst, src);
    if more == [] { NothingDone(s); }
  }

  lemma NothingDone(s: Call)
    ensures DoAll(s, []) == s
  {}

  /** When everything was lost, T1 is running, and its expiry puts a SABM on its way again that needs two
      arrivals, unless all retries have been used up. */
  lemma AsksAgain(s: Call, dst: string, src: string, clock: Clock)
    requires Calling(s, dst, src) && s.a.st == AwaitingConnection && OnTheWay(s) == 0
    ensures var t := Do(s, Timer(true, true, clock));
            && s.a.t1.running && Calling(t, dst, src)
            && if s.a.rc == s.a.n2 then t.a.st == Disconnected && OnTheWay(t) == 0 else Hopeful(t) && Remaining(t) == 2
  {
    hide Asks, Opened, Gone, Step, SabmFrom, SabmOf, UaOf, NewFrames;
    var act := Timer(true, true, clock);
    TimerCalling(s, act, dst, src);
    Exclusive(s.a);
    AskingRuns(s.a);
    AsksTick(s.a, clock);
    var d := Step(s.a, T1Expires, clock);
    Exclusive(d);
    NewAre(s.a, d, if s.a.rc == s.a.n2 then [] else [SabmFrom(s.a)]);
  }

  lemma AskingRuns(c: Conn)
    requires Asks(c)
    ensures c.t1.running
  {
    WaitingRuns(c);
  }

  // ---------------------------------------------------------------------------------------------
  // What a second UA does to data

  /** Main result: an end with a link that gets two UAs keeps its payloads exactly if no I frame of its
      own is unacknowledged; if one is, it forgets every payload, those that were never sent too. */
  lemma SecondUaKeepsIff(c: Conn, p: Packet, q: Packet, k1: Clock, k2: Clock)
    requires Safe(c) && Regular(c) && InData(c) && p.frame.Ua? && q.frame == Ua(true)
    ensures var d := Step(Step(c, Receive(p), k1), Receive(q), k2);
            && d.st == Connected && d.resend == (if c.vs == c.va then c.resend else [])
            && (d.resend == c.resend <==> c.vs == c.va)
  {
    hide Safe, Regular, Poll, Reestablish, OnUaAwaiting;
    ReestablishSays(c);
    PollIdle(Reestablish(c));
    var mid := Step(c, Receive(p), k1);
    assert mid == Reestablish(c);
    AwaitingUaQueues(mid, k2);
    PollResend(OnUaAwaiting(mid, k2));
    UnacknowledgedIsQueued(c);
  }

  lemma AwaitingUaQueues(c: Conn, clock: Clock)
    requires !c.layer3Initiated
    ensures var d := OnUaAwaiting(c, clock); d.st == Connected && d.resend == if c.vs == c.va then c.resend else []
  {
    hide NewSrt, NewPeriod;
  }

  lemma PollResend(c: Conn)
    ensures Poll(c).resend == c.resend && Poll(c).st == c.st
  {
    hide PollCount, Burst;
  }

  lemma UnacknowledgedIsQueued(c: Conn)
    requires Safe(c) && InData(c)
    ensures c.vs != c.va ==> c.resend != []
  {
    hide Mod;
    DistNear(c.va, c.vs, c.modulus);
  }

  /** T1 runs out before the answer to the SABM is there; both SABMs and one UA arrive. */
  const EARLY: seq<Act> := [Timer(true, true, NOW), Arrival(false, NOW), Arrival(false, NOW), Arrival(true, NOW)]

  /** A run that ends so: the payload that is sent on the new link is forgotten, and the end that asked
      believes the link to be in order. */
  lemma LateUaForgets(dst: string, src: string, x: seq<byte>)
    ensures var s := DoAll(Dialled(dst, src, NOW), EARLY);
            && Opened(s.a) && s.ba == [UaOf(src, dst)] && s.ab == []
            && var c := Step(s.a, DlData(x), NOW);
               var d := Step(Step(c, Receive(s.ba[0]), NOW), Receive(UaOf(src, dst)), NOW);
               c.resend == [x] && d.st == Connected && d.resend == []
  {
    hide Safe, Regular, Step, Calling, Dialled, DoAll;
    var s := EarlyUa(dst, src);
    DataSent(s.a, x);
    var c := Step(s.a, DlData(x), NOW);
    SecondUaKeepsIff(c, s.ba[0], UaOf(src, dst), NOW, NOW);
  }

  lemma EarlyUa(dst: string, src: string) returns (s: Call)
    ensures s == DoAll(Dialled(dst, src, NOW), EARLY)
    ensures Opened(s.a) && s.ba == [UaOf(src, dst)] && s.ab == []
  {
    hide Asks, Opened, Gone, Step, SabmOf, UaOf, Do, Calling;
    var s0 := Dialled(dst, src, NOW);
    DialledCalling(dst, src, NOW);
    var s1 := Do(s0, EARLY[0]);
    FirstRetry(s0, dst, src);
    var s2 := Do(s1, EARLY[1]);
    SabmArrives(s1, EARLY[1], dst, src);
    var s3 := Do(s2, EARLY[2]);
    SabmArrives(s2, EARLY[2], dst, src);
    s := Do(s3, EARLY[3]);
    UaArrives(s3, EARLY[3], dst, src);
    DoFour(s0, EARLY);
  }

  lemma DoFour(s: Call, acts: seq<Act>)
    requires |acts| == 4
    ensures DoAll(s, acts) == Do(Do(Do(Do(s, acts[0]), acts[1]), acts[2]), acts[3])
  {
    hide Do;
    var s1 := Do(s, acts[0]);
    assert acts[1..][1..] == acts[2..] && acts[2..][1..] == acts[3..] && acts[3..][1..] == [];
    assert DoAll(s, acts) == DoAll(s1, acts[1..]);
    assert DoAll(s1, acts[1..]) == DoAll(Do(s1, acts[1]), acts[2..]);
    var s2 := Do(s1, acts[1]);
    assert DoAll(s2, acts[2..]) == DoAll(Do(s2, acts[2]), acts[3..]);
    var s3 := Do(s2, acts[2]);
    assert DoAll(s3, acts[3..]) == DoAll(Do(s3, acts[3]), []);
  }

  lemma FirstRetry(s: Call, dst: string, src: string)
    requires Calling(s, dst, src) && Asks(s.a) && s.a.rc != s.a.n2
    ensures var t := Do(s, Timer(true, true, NOW));
            Calling(t, dst, src) && t.a.st == AwaitingConnection && |t.ab| == |s.ab| + 1 && t.ba == s.ba
  {
    hide Asks, Opened, Gone, Step, SabmFrom, SabmOf, UaOf, NewFrames;
    TimerCalling(s, Timer(true, true, NOW), dst, src);
    AsksTick(s.a, NOW);
    var d := Step(s.a, T1Expires, NOW);
    Exclusive(d);
    NewAre(s.a, d, [SabmFrom(s.a)]);
  }

  lemma SabmArrives(s: Call, act: Act, dst: string, src: string)
    requires Calling(s, dst, src) && act.Arrival? && !act.atA && s.ab != []
    ensures var t := Do(s, act); Calling(t, dst, src) && t.a == s.a && |t.ab| == |s.ab| - 1 && |t.ba| == |s.ba| + 1
  {
    hide Asks, Opened, Gone, Step, SabmOf, UaOf, NewFrames;
    OnlyLess(s.ab, 0, SabmOf(dst, src));
    SabmCalling(s, act.clock, dst, src);
  }

  /** The UA that is waited for. */
  lemma UaArrives(s: Call, act: Act, dst: string, src: string)
    requires Calling(s, dst, src) && s.a.st == AwaitingConnection && |s.ba| == 2 && s.ab == []
    requires act.Arrival? && act.atA
    ensures var t := Do(s, act); Opened(t.a) && t.ba == [UaOf(src, dst)] && t.ab == []
  {
    hide Asks, Opened, Gone, Step, SabmOf, UaOf, NewFrames;
    OnlyLess(s.ba, 0, UaOf(src, dst));
    UaCalling(s, act.clock, dst, src);
    var t := Do(s, act);
    Exclusive(t.a);
    assert t.ba == [UaOf(src, dst)];
  }
}
