/** What follows from the tables of modules Reactions and Periods, for one event, for a whole session and
    for a new connection. */
module Consequences {
  import opened Bytes
  import opened Packets
  import opened Modular
  import opened Link
  import opened LinkInvariants
  import opened Discipline
  import opened Windows
  import opened Steps
  import opened Receiving
  import opened Reactions
  import opened Periods
  import Handshake

  // ---------------------------------------------------------------------------------------------
  // One event

  /** A packet that asks for an answer with F=1 and has the form that gets one. */
  predicate Polls(c: Conn, p: Packet) {
    InData(c) && p.commandResponse &&
    match p.frame
    case Rr(_, f) => f
    case IFrame(_, _, f, _, _, _) => f && Heard(c, p)
    case _ => false
  }

  predicate FBit(f: Frame) {
    match f
    case Ua(p) => p
    case Dm(p) => p
    case Rr(_, p) => p
    case Rej(_, p) => p
    case _ => false
  }

  /** The rows of the table for RR and I frames, as far as they concern P and F. */
  lemma PollRow(c: Conn, p: Packet)
    requires InData(c) && (p.frame.Rr? || p.frame.IFrame?)
    ensures var r := Replies(c, Receive(p));
            && |r| <= 2 && (|r| == 2 ==> r[1].frame == Sabm(true))
            && if Polls(c, p) then
                 && |r| >= 1 && FBit(r[0].frame) && !r[0].commandResponse && (r[0].frame.Rr? || r[0].frame.Rej?)
                 && r[0].frame.nr == if p.frame.IFrame? && p.frame.ns == c.vr then (c.vr + 1) % c.modulus else c.vr
               else forall j :: 0 <= j < |r| ==> !FBit(r[j].frame)
  {
    hide Within;
    if p.frame.Rr? && Spoils(c, p) && p.frame.poll && p.commandResponse {
      assert Replies(c, Receive(p)) == [Response(c, Rr(c.vr, true)), Response(c, Sabm(true))];
    }
  }

  lemma HeardDelivers(c: Conn, p: Packet)
    requires Safe(c) && InData(c) && (p.frame.Rr? || (p.frame.IFrame? && Heard(c, p)))
    ensures Delivers(c, Receive(p)) <==> p.frame.IFrame? && p.frame.ns == c.vr
    ensures !Resets(c, Receive(p)) && Mod(c.vr + 1, c.modulus) == (c.vr + 1) % c.modulus
  {
    hide Safe, Mod;
    HasModulus(c);
    RemainderOf(c.vr + 1, c.modulus);
    if p.frame.IFrame? {
      WithinIs(c, p.frame.nr);
    }
  }

  /** Main result: in a session, an RR or I frame with P, sent as a command and used, is answered with
      exactly one response with F, which acknowledges everything received so far; without P no RR or I
      frame ever is. */
  lemma PollAnswered(c: Conn, p: Packet, clock: Clock)
    requires Safe(c) && Regular(c) && InData(c) && (p.frame.Rr? || p.frame.IFrame?)
    ensures var d, n := Step(c, Receive(p), clock), |c.sent|;
            if Polls(c, p) then
              && |d.sent| > n && FBit(d.sent[n].frame) && !d.sent[n].commandResponse
              && (forall j :: n < j < |d.sent| ==> !FBit(d.sent[j].frame))
              && (d.sent[n].frame.Rr? || d.sent[n].frame.Rej?) && d.sent[n].frame.nr == d.vr
            else forall j :: n <= j < |d.sent| ==> !FBit(d.sent[j].frame)
  {
    hide Safe, Regular, Step, Within, Heard, Named, Replies, After, Delivers, Resets, Mod;
    var e := Receive(p);
    StepReacts(c, e, clock);
    PollRow(c, p);
    var d, n := Step(c, e, clock), |c.sent|;
    var frames := Replies(c, e);
    forall j | n <= j < n + |frames| ensures d.sent[j] == frames[j - n] {
      assert d.sent[j] == d.sent[..n + |frames|][j] == (c.sent + frames)[j];
    }
    if Polls(c, p) {
      RegularIsPlain(c);
      StepReceives(c, e, clock);
      HeardDelivers(c, p);
    }
  }

  /** Main result: dl_disconnect in a session sends one DISC with P and waits for the release. */
  lemma DisconnectSends(c: Conn, clock: Clock)
    requires Safe(c) && Regular(c) && InData(c)
    ensures var d := Step(c, DlDisconnect, clock);
            && d.sent == c.sent + [Packet(c.dst, c.src, [], 0, Disc(true), false, false, true, false)]
            && d.st == AwaitingRelease && d.t1.running && d.rc == 0
  {
    hide Safe, Regular, Step;
    StepReacts(c, DlDisconnect, clock);
    ReleasingRuns(c, DlDisconnect, clock);
  }

  /** Main result: the first I frame out of sequence is answered with a REJ that asks for V(R); while the
      reject is outstanding the next ones are answered only if they have P, with an RR. */
  lemma OutOfSequence(c: Conn, p: Packet, clock: Clock)
    requires Safe(c) && Regular(c) && InData(c) && Heard(c, p) && p.frame.ns != c.vr
    ensures var d, n := Step(c, Receive(p), clock), |c.sent|;
            && d.rejectException && d.vr == c.vr && d.delivered == c.delivered
            && if !c.rejectException then
                 && |d.sent| > n && (forall j :: n < j < |d.sent| ==> d.sent[j].frame.IFrame?)
                 && d.sent[n] == Packet(c.dst, c.src, [], 0, Rej(c.vr, p.frame.poll), false, false, true, false)
               else if p.frame.poll then
                 && |d.sent| > n && (forall j :: n < j < |d.sent| ==> d.sent[j].frame.IFrame?)
                 && d.sent[n] == Packet(c.dst, c.src, [], 0, Rr(c.vr, true), false, false, true, false)
               else forall j :: n <= j < |d.sent| ==> d.sent[j].frame.IFrame?
  {
    hide Safe, Regular, Step, Within, Named;
    var e := Receive(p);
    StepReacts(c, e, clock);
    RegularIsPlain(c);
    StepReceives(c, e, clock);
    var d, n := Step(c, e, clock), |c.sent|;
    var frames := Replies(c, e);
    if frames != [] {
      assert d.sent[n] == d.sent[..n + |frames|][n] == frames[0];
    }
  }

  // ---------------------------------------------------------------------------------------------
  // Over a whole session

  /** The session goes on through all inputs, without a new beginning. */
  predicate Continues(c: Conn, inputs: seq<Input>)
    decreases |inputs|
  {
    inputs != [] ==>
      var d := Step(c, inputs[0].event, inputs[0].clock);
      !Resets(c, inputs[0].event) && InData(d) && Continues(d, inputs[1..])
  }

  predicate RejectedFrom(d: Conn, n: nat, j: int) {
    n <= j < |d.sent| && d.sent[j].frame.Rej?
  }

  /** The table on rejects and retries. */
  lemma SessionRows(c: Conn, e: Event)
    requires InData(c) && !Resets(c, e) && (After(c, e).st == Connected || After(c, e).st == TimerRecovery)
    ensures |Replies(c, e)| <= 1
    ensures Replies(c, e) != [] && Replies(c, e)[0].frame.Rej? ==> !c.rejectException && After(c, e).reject
    ensures c.rejectException ==> After(c, e).reject
    ensures c.rc > 0 ==> After(c, e).rc > 0
  {
    hide Within, Heard, PacketReplies, AfterPacket;
    if e.Receive? {
      PacketRows(c, e.p);
    }
  }

  lemma PacketRows(c: Conn, p: Packet)
    requires InData(c) && !Resets(c, Receive(p))
    requires var st := AfterPacket(c, ModeOf(c), p).st; st == Connected || st == TimerRecovery
    ensures var r, m := PacketReplies(c, p), AfterPacket(c, ModeOf(c), p);
            && |r| <= 1 && (r != [] && r[0].frame.Rej? ==> !c.rejectException && m.reject)
            && (c.rejectException ==> m.reject) && m.rc == c.rc
  {
    hide Spoils, PacketReplies, AfterPacket;
    if Spoils(c, p) {
      SpoiltRow(c, p);
    } else if p.frame.IFrame? {
      IframeRows(c, p);
    } else {
      OtherRows(c, p);
    }
  }

  lemma SpoiltRow(c: Conn, p: Packet)
    requires InData(c) && Spoils(c, p)
    ensures AfterPacket(c, ModeOf(c), p).st == AwaitingConnection
  {
    hide Spoils;
  }

  lemma OtherRows(c: Conn, p: Packet)
    requires InData(c) && !Spoils(c, p) && !p.frame.IFrame? && !Resets(c, Receive(p))
    ensures var r, m := PacketReplies(c, p), AfterPacket(c, ModeOf(c), p);
            && |r| <= 1 && (r != [] ==> !r[0].frame.Rej?) && m.reject == c.rejectException && m.rc == c.rc
  {
    hide Spoils;
  }

  lemma IframeRows(c: Conn, p: Packet)
    requires InData(c) && p.frame.IFrame? && !Spoils(c, p)
    ensures var r, m := PacketReplies(c, p), AfterPacket(c, ModeOf(c), p);
            && |r| <= 1 && (r != [] && r[0].frame.Rej? ==> !c.rejectException && m.reject)
            && (c.rejectException ==> m.reject) && m.rc == c.rc
  {
    hide Spoils;
  }

  /** What one event of a session does to rejects and retries. */
  lemma SessionStep(c: Conn, e: Event, clock: Clock)
    requires Safe(c) && Regular(c) && InData(c) && !Resets(c, e) && InData(Step(c, e, clock))
    ensures var d := Step(c, e, clock);
            && Safe(d) && Regular(d) && |c.sent| <= |d.sent| && d.sent[..|c.sent|] == c.sent
            && (c.rejectException ==> d.rejectException && forall j :: !RejectedFrom(d, |c.sent|, j))
            && (forall j :: RejectedFrom(d, |c.sent|, j) ==> j == |c.sent| && d.rejectException)
            && (c.rc > 0 ==> d.rc > 0 && SamePeriod(c, d))
  {
    hide Safe, Regular, Step, Replies, After, Measures, Resets;
    StepRegular(c, e, clock);
    StepReacts(c, e, clock);
    StepTimed(c, e, clock);
    SessionRows(c, e);
    var d, n := Step(c, e, clock), |c.sent|;
    var frames := Replies(c, e);
    assert d.sent[..n] == d.sent[..n + |frames|][..n] == c.sent;
    if frames != [] {
      assert d.sent[n] == d.sent[..n + |frames|][n] == frames[0];
    }
  }

  /** Main result: in one session at most one REJ is sent, because a reject, once outstanding, is never
      cleared. */
  lemma {:induction false} RejectsOnce(c: Conn, inputs: seq<Input>)
    requires Safe(c) && Regular(c) && InData(c) && Continues(c, inputs)
    ensures var r, n := Run(c, inputs), |c.sent|;
            && n <= |r.sent| && r.sent[..n] == c.sent
            && (c.rejectException ==> forall j :: !RejectedFrom(r, n, j))
            && (forall i, j :: RejectedFrom(r, n, i) && RejectedFrom(r, n, j) ==> i == j)
    decreases |inputs|
  {
    hide Safe, Regular, Step, Resets;
    if inputs != [] {
      SessionStep(c, inputs[0].event, inputs[0].clock);
      var d := Step(c, inputs[0].event, inputs[0].clock);
      RejectsOnce(d, inputs[1..]);
      var r := Run(d, inputs[1..]);
      assert r.sent[..|c.sent|] == r.sent[..|d.sent|][..|c.sent|];
      forall j | RejectedFrom(r, |c.sent|, j)
        ensures RejectedFrom(r, |d.sent|, j) || (RejectedFrom(d, |c.sent|, j) && r.sent[j] == d.sent[j])
      {
        if j < |d.sent| {
          assert r.sent[j] == r.sent[..|d.sent|][j];
        }
      }
    }
  }

  /** Main result: once a retry has been counted, no round trip is measured again in that session, and
      T1 keeps its period, because nothing returns the retries but a new link. */
  lemma {:induction false} MeasuresNoMore(c: Conn, inputs: seq<Input>)
    requires Safe(c) && Regular(c) && InData(c) && c.rc > 0 && Continues(c, inputs)
    ensures var r := Run(c, inputs); r.rc > 0 && r.srt == c.srt && r.t1.ms == c.t1.ms
    decreases |inputs|
  {
    hide Safe, Regular, Step, Resets;
    if inputs != [] {
      SessionStep(c, inputs[0].event, inputs[0].clock);
      MeasuresNoMore(Step(c, inputs[0].event, inputs[0].clock), inputs[1..]);
    }
  }

  /** Main result: a connection that has asked for the release waits for ever, and is deaf and dumb. */
  lemma {:induction false} NeverReleased(c: Conn, inputs: seq<Input>)
    requires c.st == AwaitingRelease
    ensures var r := Run(c, inputs); r.st == AwaitingRelease && r.sent == c.sent && r.delivered == c.delivered
    decreases |inputs|
  {
    hide Step;
    if inputs != [] {
      ReleasingStays(c, inputs[0].event, inputs[0].clock);
      NeverReleased(Step(c, inputs[0].event, inputs[0].clock), inputs[1..]);
    }
  }

  // ---------------------------------------------------------------------------------------------
  // A new connection

  /** What dl_connect makes of a new connection. */
  lemma FirstAsk(dst: string, src: string, k: Clock)
    ensures var a := Step(FRESH, DlConnect(dst, src), k);
            && a.sent == [Packet(dst, src, [], 0, Sabm(true), false, false, true, false)]
            && a.srt == 3000.0 && a.t1 == TimerView(true, 6000) && !a.t3.running
            && a.rc == 0 && a.n2 == 3 && a.modulus == 8 && a.n1 == 65000 && a.layer3Initiated
  {
    hide Safe, Regular, Step;
    Handshake.Asking(dst, src, k);
    FreshRegular();
    var e := DlConnect(dst, src);
    StepReacts(FRESH, e, k);
    StepTimed(FRESH, e, k);
    StepReceives(FRESH, e, k);
    WaitingRuns(Step(FRESH, e, k));
  }

  /** And of the UA that comes back after one second. */
  lemma FirstLink(dst: string, src: string, k: Clock)
    ensures var a := Step(FRESH, DlConnect(dst, src), k);
            var b := Step(a, Receive(Packet(src, dst, [], 0, Ua(true), false, false, true, false)), Clock(5000, false));
            b.st == Connected && b.srt == 2750.0 && b.t1 == TimerView(false, 5500) && b.sent == a.sent
  {
    hide Safe, Regular, Step;
    FirstAsk(dst, src, k);
    Handshake.Asking(dst, src, k);
    var a, p := Step(FRESH, DlConnect(dst, src), k), Packet(src, dst, [], 0, Ua(true), false, false, true, false);
    Handshake.AskedFor(a, p, Clock(5000, false));
    StepTimed(a, Receive(p), Clock(5000, false));
    assert a.srt.Floor == 3000;
    NothingOutstanding(Step(a, Receive(p), Clock(5000, false)));
  }

  lemma NothingOutstanding(c: Conn)
    requires Regular(c) && c.st == Connected && c.vs == c.va
    ensures !c.t1.running
  {}

  /** What a SABM makes of a new connection. */
  lemma FirstAccept(p: Packet, k: Clock)
    requires p.frame == Sabm(true)
    ensures var b := Step(FRESH, Receive(p), k);
            && b.sent == [Packet(p.src, p.dst, [], 0, Ua(true), false, false, true, false)]
            && b.st == Connected && b.srt == 3000.0 && b.t1 == TimerView(false, 3000) && b.t3 == TimerView(true, 300000)
            && b.n2 == 10 && b.n1 == 65000 && b.modulus == 8
  {
    hide Poll;
    AcceptedNew(p);
    EmptyPoll(OnSabmDisconnected(FRESH, p));
  }

  lemma AcceptedNew(p: Packet)
    requires p.frame == Sabm(true)
    ensures var b := OnSabmDisconnected(FRESH, p);
            && b.sent == [Packet(p.src, p.dst, [], 0, Ua(true), false, false, true, false)]
            && b.st == Connected && b.srt == 3000.0 && b.t1 == TimerView(false, 3000) && b.t3 == TimerView(true, 300000)
            && b.n2 == 10 && b.n1 == 65000 && b.modulus == 8 && b.queue == []
  {}
}
