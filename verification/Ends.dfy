/** One end of an established session, with the absolute numbers of what it has sent and received. */
module Ends {
  import opened Bytes
  import opened Packets
  import opened Modular
  import opened Link
  import opened LinkInvariants
  import opened Discipline
  import opened Talk
  import opened Windows
  import opened Steps
  import opened Receiving
  import opened Sessions

  /** `acked` and `next` follow the window while the end is in a data state and then stay. */
  datatype End = End(c: Conn, acc: seq<Payload>, acked: int, next: int, base: nat)

  /** A frame on its way: the number of its payload if it is an I frame, and how many payloads its
      sender had received. */
  datatype Flight = Flight(p: Packet, n: int, ack: int)

  function Received(x: End): int {
    |x.c.delivered| - x.base
  }

  function Advance(x: End, e: Event, clock: Clock): End {
    var d, acc := Step(x.c, e, clock), Accepted(x.c, x.acc, e);
    End(d, acc, if InData(d) then Acked(d, acc) else x.acked, if InData(d) then Next(d, acc) else x.next, x.base)
  }

  /** What x has sent to become x2. */
  function Emitted(x: End, x2: End): (fs: seq<Flight>)
    ensures |fs| == if |x.c.sent| <= |x2.c.sent| then |x2.c.sent| - |x.c.sent| else 0
    ensures forall j :: 0 <= j < |fs| ==> fs[j] == Flight(x2.c.sent[|x.c.sent| + j], x2.next - (|fs| - j), Received(x2))
  {
    var n := if |x.c.sent| <= |x2.c.sent| then |x2.c.sent| - |x.c.sent| else 0;
    seq(n, j requires 0 <= j < n => Flight(x2.c.sent[|x.c.sent| + j], x2.next - (n - j), Received(x2)))
  }

  predicate EndOk(x: End, m: int) {
    && Safe(x.c) && Regular(x.c) && x.c.st != AwaitingConnection && (m == 8 || m == 128)
    && x.base <= |x.c.delivered| && 0 <= x.acked <= x.next <= x.acked + 7 && x.next <= |x.acc|
    && (InData(x.c) ==>
          && x.c.modulus == m && Labelled(x.c, x.acc) && x.acked == Acked(x.c, x.acc) && x.next == Next(x.c, x.acc)
          && x.c.vr == Mod(Received(x), m))
  }

  /** The events of an established session: no one asks for a new link, what arrives comes from a
      session in order, and UA and DM only answer a DISC. */
  predicate Welcome(x: End, e: Event) {
    match e
    case DlConnect(_, _) => false
    case Receive(p) =>
      && Arriving(p.frame)
      && ((p.frame.Ua? || p.frame.Dm?) ==> x.c.st == AwaitingRelease)
      && (InData(x.c) && p.frame.Rr? ==> InRange(x.c.va, p.frame.nr, x.c.vs, x.c.modulus))
      && (InData(x.c) && p.frame.IFrame? ==> p.commandResponse && Usable(x.c, p))
    case _ => true
  }

  predicate Arriving(f: Frame) {
    f.Rr? || f.Rej? || f.IFrame? || f.Disc? || f.Ua? || f.Dm?
  }

  /** A frame as x has just sent it. */
  predicate Sound(f: Flight, x: End, m: int) {
    && Arriving(f.p.frame) && f.ack == Received(x) && Acknowledges(f.p.frame, Mod(f.ack, m))
    && (f.p.frame.Disc? ==> x.c.st == AwaitingRelease)
    && (f.p.frame.IFrame? ==>
          && f.p.commandResponse && 0 <= x.acked <= f.n < x.next <= |x.acc|
          && f.p.frame.ns == Mod(f.n, m) && f.p.frame.payload == x.acc[f.n])
  }

  lemma NeverBegins(x: End, e: Event)
    requires EndOk(x, 8) || EndOk(x, 128)
    requires Welcome(x, e)
    ensures !Resets(x.c, e)
  {}

  /** An end that has left the session stays where it is, answers DISC with DM and delivers nothing. */
  lemma DeadEnd(x: End, e: Event, clock: Clock, m: int)
    requires EndOk(x, m) && Welcome(x, e) && !InData(x.c)
    ensures var d := Step(x.c, e, clock);
            && d.st == x.c.st && d.delivered == x.c.delivered
            && |x.c.sent| <= |d.sent| && d.sent[..|x.c.sent|] == x.c.sent
            && forall j :: |x.c.sent| <= j < |d.sent| ==> d.sent[j].frame.Dm? && e.Receive? && e.p.frame.Disc?
  {
    hide Safe, Regular, Poll, InRange, Usable;
    RegularIsPlain(x.c);
    StepReceives(x.c, e, clock);
    NeverBegins(x, e);
    if Enabled(x.c, e) {
      PollIdle(Handle(x.c, e, clock)) by { OutsideStays(x.c, e, clock); }
      DeadHandled(x.c, e, clock);
    }
  }

  lemma DeadHandled(c: Conn, e: Event, clock: Clock)
    requires !InData(c) && c.st != AwaitingConnection && !e.DlConnect? && Enabled(c, e)
    requires e.Receive? ==> Arriving(e.p.frame)
    ensures var d := Handle(c, e, clock);
            && d.st == c.st
            && (d.sent == c.sent ||
                (e.Receive? && e.p.frame.Disc? && d.sent == c.sent + [Addressed(c, Plain(Dm(e.p.frame.poll), false))]))
  {
    hide OnPacket, OnT1Awaiting, Addressed, Plain, OnT1Connected, OnT1Recovery;
    if e.Receive? {
      DeadPacket(c, e.p, clock);
    }
  }

  lemma DeadPacket(c: Conn, p: Packet, clock: Clock)
    requires !InData(c) && c.st != AwaitingConnection && Arriving(p.frame) && Handled(p.frame)
    ensures OnPacket(c, p, clock) == if p.frame.Disc? && c.st == Disconnected then Send(c, Plain(Dm(p.frame.poll), false)) else c
  {
    hide Send, ClearQueues, OnUaAwaiting, Reestablish, OnRrConnected, OnRrRecovery;
  }

  /** A live end leaves the session for one of two states. */
  lemma LeavesFor(x: End, e: Event, clock: Clock, m: int)
    requires EndOk(x, m) && Welcome(x, e) && InData(x.c) && !InData(Step(x.c, e, clock))
    ensures var d := Step(x.c, e, clock); d.st == Disconnected || d.st == AwaitingRelease
  {
    hide Safe, Regular, Poll, InRange, Usable, OnT1Connected, Labelled, OnDlDisconnect, OnDisc;
    NeverBegins(x, e);
    StepLabelled(x.c, x.acc, e, clock);
    RegularIsPlain(x.c);
    PollIdle(Handle(x.c, e, clock)) by { PollStays(Handle(x.c, e, clock)); }
    LeavingStates(x.c, if e.Receive? then e.p else Plain(Disc(false), false));
  }

  lemma LeavingStates(c: Conn, p: Packet)
    requires InData(c)
    ensures OnDlDisconnect(c).st == AwaitingRelease
    ensures p.frame.Disc? ==> OnDisc(c, p).st == Disconnected
    ensures c.st == TimerRecovery ==> OnT1Recovery(StopT1(c)).st == if c.rc != c.n2 then TimerRecovery else Disconnected
  {
    hide Send, TransmitEnquiry;
    SendStays(ClearQueues(c).(rc := 0), Plain(Disc(true), false));
    EnquiryGoes(StopT1(c).(rc := c.rc + 1));
  }

  lemma DeadSound(x: End, x2: End, e: Event, m: int)
    requires |x.c.sent| <= |x2.c.sent|
    requires forall j :: |x.c.sent| <= j < |x2.c.sent| ==> x2.c.sent[j].frame.Dm?
    ensures forall j :: 0 <= j < |Emitted(x, x2)| ==> Sound(Emitted(x, x2)[j], x2, m)
  {
    hide Mod;
  }

  /** V(R) keeps counting what has been received. */
  lemma NumbersMove(x: End, e: Event, d: Conn, m: int)
    requires EndOk(x, m) && InData(x.c)
    requires d.delivered == (if Delivers(x.c, e) then x.c.delivered + [e.p.frame.payload] else x.c.delivered)
    requires d.vr == if Delivers(x.c, e) then Mod(x.c.vr + 1, x.c.modulus) else x.c.vr
    ensures d.vr == Mod(|d.delivered| - x.base, m)
  {
    hide Mod, Safe, Regular, Labelled, InRange;
    ModModAdd(Received(x), 1, m);
  }

  lemma InStepBounds(c: Conn, acc: seq<Payload>)
    requires Labelled(c, acc) && c.k == 7
    ensures 0 <= Acked(c, acc) <= Next(c, acc) <= Acked(c, acc) + 7 && Next(c, acc) <= |acc|
  {
    hide Mod;
  }

  lemma IdleStep(c: Conn, e: Event, clock: Clock)
    requires !Enabled(c, e)
    ensures Step(c, e, clock) == c && !e.DlData?
  {}

  lemma LiveSound(x: End, x2: End, e: Event, m: int)
    requires |x.c.sent| <= |x2.c.sent| && Talked(x.c, x2.c, Greets(e)) && x2.c.vr == Mod(Received(x2), m)
    requires x2.c.st != AwaitingConnection && Welcome(x, e)
    requires if InData(x2.c)
             then InSequence(x.c, x2.c, x2.acc) && x2.c.modulus == m
                  && x2.acked == Acked(x2.c, x2.acc) && x2.next == Next(x2.c, x2.acc)
             else forall j :: |x.c.sent| <= j < |x2.c.sent| ==> !x2.c.sent[j].frame.IFrame?
    ensures var fs := Emitted(x, x2);
            && (forall j :: 0 <= j < |fs| ==> Sound(fs[j], x2, m))
            && (forall j :: 0 <= j < |fs| && (fs[j].p.frame.Ua? || fs[j].p.frame.Dm?) ==> e.Receive? && e.p.frame.Disc?)
  {
    hide Mod, Proper, Fitting, Greets, Carries, Welcome, Sound;
    var fs := Emitted(x, x2);
    forall j | 0 <= j < |fs|
      ensures Sound(fs[j], x2, m) && (fs[j].p.frame.Ua? || fs[j].p.frame.Dm? ==> e.Receive? && e.p.frame.Disc?)
    {
      var p := x2.c.sent[|x.c.sent| + j];
      assert Proper(x2.c, p) && Fitting(x2.c, p.frame, Greets(e));
      if p.frame.IFrame? {
        assert InData(x2.c) && Carries(p, x2.c, x2.acc, fs[j].n);
      }
      FrameSound(x, x2, e, fs[j], m);
    }
  }

  lemma FrameSound(x: End, x2: End, e: Event, f: Flight, m: int)
    requires Proper(x2.c, f.p) && Fitting(x2.c, f.p.frame, Greets(e)) && Welcome(x, e)
    requires x2.c.vr == Mod(Received(x2), m) && f.ack == Received(x2) && x2.c.st != AwaitingConnection
    requires f.p.frame.IFrame? ==>
               && Carries(f.p, x2.c, x2.acc, f.n) && x2.c.modulus == m && f.n < x2.next <= |x2.acc|
               && x2.acked == Acked(x2.c, x2.acc)
    ensures Sound(f, x2, m) && (f.p.frame.Ua? || f.p.frame.Dm? ==> e.Receive? && e.p.frame.Disc?)
  {
    hide Mod, InRange, Usable;
  }

  /** What one event does to an end. */
  predicate Moved(x: End, x2: End, e: Event, m: int) {
    && EndOk(x2, m) && x2.base == x.base && x2.c.n1 == x.c.n1
    && x.acc <= x2.acc && (forall i :: |x.acc| <= i < |x2.acc| ==> e.DlData? && x2.acc[i] == e.payload)
    && x.acked <= x2.acked && x.next <= x2.next
    && (x2.acked == x.acked || (InData(x.c) && e.Receive? && x2.acked == x.acked + AckedBy(x.c, e)))
    && x2.c.delivered == (if Delivers(x.c, e) then x.c.delivered + [e.p.frame.payload] else x.c.delivered)
    && (x.c.st == AwaitingRelease ==> x2.c.st == AwaitingRelease)
    && (forall j :: 0 <= j < |Emitted(x, x2)| ==> Sound(Emitted(x, x2)[j], x2, m))
    && (forall j :: 0 <= j < |Emitted(x, x2)| && (Emitted(x, x2)[j].p.frame.Ua? || Emitted(x, x2)[j].p.frame.Dm?) ==>
          e.Receive? && e.p.frame.Disc?)
  }

  lemma DeadMoves(x: End, e: Event, clock: Clock, m: int)
    requires EndOk(x, m) && Welcome(x, e) && !InData(x.c)
    ensures Moved(x, Advance(x, e, clock), e, m)
  {
    hide Safe, Regular, Step, Resets, Sound, Labelled, InRange, Usable, Welcome;
    RegularIsPlain(x.c);
    StepRegular(x.c, e, clock);
    StepReceives(x.c, e, clock);
    DeadEnd(x, e, clock, m);
    DeadSound(x, Advance(x, e, clock), e, m);
  }

  /** The numbers of a live end, whether the session goes on or not. */
  lemma LiveNumbers(x: End, e: Event, clock: Clock, m: int)
    requires EndOk(x, m) && Welcome(x, e) && InData(x.c)
    ensures var x2 := Advance(x, e, clock);
            && 0 <= x2.acked <= x2.next <= x2.acked + 7 && x2.next <= |x2.acc|
            && x.acked <= x2.acked && x.next <= x2.next
            && (x2.acked == x.acked || (e.Receive? && x2.acked == x.acked + AckedBy(x.c, e)))
            && (InData(x2.c) ==> Labelled(x2.c, x2.acc) && InSequence(x.c, x2.c, x2.acc))
  {
    hide Safe, Regular, Step, Resets, Labelled, InSequence, GoesOn, Dist, Usable, InRange, Welcome;
    NeverBegins(x, e);
    StepRegular(x.c, e, clock);
    StepLabelled(x.c, x.acc, e, clock);
    var x2 := Advance(x, e, clock);
    WindowSize(x2.c);
    if InData(x2.c) {
      InStepBounds(x2.c, x2.acc);
      if !Enabled(x.c, e) {
        IdleStep(x.c, e, clock);
      }
    }
  }

  lemma LiveMoves(x: End, e: Event, clock: Clock, m: int)
    requires EndOk(x, m) && Welcome(x, e) && InData(x.c)
    ensures Moved(x, Advance(x, e, clock), e, m)
  {
    hide Safe, Regular, Step, Resets, Sound, Labelled, InSequence, Delivers, InRange, Usable, Welcome, AckedBy, Talked;
    NeverBegins(x, e);
    RegularIsPlain(x.c);
    StepRegular(x.c, e, clock);
    StepReceives(x.c, e, clock);
    StepTalks(x.c, e, clock);
    StepExtends(x.c, e, clock);
    LiveNumbers(x, e, clock, m);
    var x2 := Advance(x, e, clock);
    NumbersMove(x, e, x2.c, m);
    if !InData(x2.c) {
      OutsideSilent(x.c, e, clock);
      LeavesFor(x, e, clock, m);
    }
    LiveSound(x, x2, e, m);
  }

  lemma AdvanceMoves(x: End, e: Event, clock: Clock, m: int)
    requires EndOk(x, m) && Welcome(x, e)
    ensures Moved(x, Advance(x, e, clock), e, m)
  {
    hide EndOk, Moved, Advance, Welcome;
    if InData(x.c) {
      LiveMoves(x, e, clock, m);
    } else {
      DeadMoves(x, e, clock, m);
    }
  }
}
