/** Two short exchanges between two ends of a session: a payload, and the release of the link. */
module Exchanges {
  import opened Bytes
  import opened Packets
  import opened Modular
  import opened Link
  import opened LinkInvariants
  import opened Discipline
  import opened Windows
  import opened Steps
  import opened Receiving
  import opened Ends
  import opened TwoEnds
  import opened Reactions
  import opened Periods
  import opened Consequences

  // ---------------------------------------------------------------------------------------------
  // A payload

  /** At the beginning of a session a payload goes out at once, as number 0. */
  lemma FirstPayload(c: Conn, payload: seq<byte>, clock: Clock)
    requires Safe(c) && Regular(c) && c.st == Connected && c.vs == c.va == c.vr == 0 && c.queue == [] && c.modulus > 0
    ensures var d := Step(c, DlData(payload), clock);
            d.sent == c.sent + [Command(c, IFrame(0, 0, false, false, 0xf0, payload))]
  {
    hide Safe, Regular, Mod;
    RegularIsPlain(c);
    var mid := OnDlData(c, payload);
    HasModulus(c);
    WindowSize(c);
    ZeroOutstanding(mid);
    PollCountIs(mid);
    assert Burst(mid, 1) == [NthFrame(mid, 0)];
    FirstNumbers(c);
  }

  lemma FirstNumbers(c: Conn)
    requires c.k == 7 && 8 <= c.modulus
    ensures Mod(0 + 0, c.modulus) == 0 && Mod(0 + c.k + c.modulus - 1, c.modulus) == 6
  {}

  /** Main result: in a new session a payload that is accepted at one end and carried to the other is
      delivered there. */
  lemma PayloadArrives(net: Net, payload: seq<byte>, k1: Clock, k2: Clock, m: int)
    requires Established(net, m) && |payload| <= net.y.c.n1
    ensures var r1 := MoveX(net, Local(DlData(payload), k1));
            var r2 := Flip(MoveX(Flip(r1), Arrive(k2)));
            r2.x.acc == [payload] && Got(r2.y) == [payload] && |r1.xy| == 1 && r2.xy == []
  {
    hide Safe, Regular, Step, Agreed, Mod, Acked, Next;
    var e := DlData(payload);
    EstablishedAgrees(net, m);
    LocalAgrees(net, e, k1, m);
    FirstPayload(net.x.c, payload, k1);
    var r1 := MoveX(net, Local(e, k1));
    assert r1.xy == Emitted(net.x, r1.x) && |r1.xy| == 1;
    FirstArrives(r1, payload, k2, m);
  }

  lemma FirstArrives(net: Net, payload: seq<byte>, clock: Clock, m: int)
    requires Agreed(net, m) && |net.xy| == 1 && |payload| <= net.y.c.n1
    requires var f := net.xy[0].p; f.frame == IFrame(0, 0, false, false, 0xf0, payload) && f.commandResponse
    requires net.y.c.st == Connected && net.y.c.vr == 0 && net.y.base == |net.y.c.delivered|
    ensures var r := Flip(MoveX(Flip(net), Arrive(clock)));
            Got(r.y) == [payload] && r.xy == [] && r.x == net.x
  {
    hide Safe, Regular, Step, Agreed, Mod, Acked, Next, InRange;
    var f, c := net.xy[0].p, net.y.c;
    FlipAgrees(net, m);
    ArrivalWelcome(Flip(net), m);
    PlainEnds(net, m);
    StepReceives(c, Receive(f), clock);
    assert (c.delivered + [payload])[|c.delivered|..] == [payload];
  }

  lemma PlainEnds(net: Net, m: int)
    requires Agreed(net, m)
    ensures Safe(net.x.c) && Regular(net.x.c) && !net.x.c.ownReceiverBusy
    ensures Safe(net.y.c) && Regular(net.y.c) && !net.y.c.ownReceiverBusy
  {
    hide Safe, Direction, Labelled;
  }

  // ---------------------------------------------------------------------------------------------
  // The release

  /** One frame in answer to an event that ends the session at x. */
  lemma OneEmitted(x: End, e: Event, clock: Clock, p: Packet)
    requires var d := Step(x.c, e, clock); d.sent == x.c.sent + [p]
    ensures var fs := Emitted(x, Advance(x, e, clock)); |fs| == 1 && fs[0].p == p
  {
    hide Step, Acked, Next;
  }

  lemma NoneEmitted(x: End, e: Event, clock: Clock)
    requires Step(x.c, e, clock).sent == x.c.sent
    ensures Emitted(x, Advance(x, e, clock)) == []
  {
    hide Step, Acked, Next;
  }

  /** Main result: dl_disconnect at one end and the arrival of its DISC take the other end out of the
      session, with one UA back; that UA changes nothing at the end that asked, which goes on waiting. */
  lemma ReleaseArrives(net: Net, k1: Clock, k2: Clock, k3: Clock, m: int)
    requires Agreed(net, m) && InData(net.x.c) && InData(net.y.c) && net.xy == net.yx == []
    ensures var r1 := MoveX(net, Local(DlDisconnect, k1));
            var r2 := Flip(MoveX(Flip(r1), Arrive(k2)));
            var r3 := MoveX(r2, Arrive(k3));
            && |r1.xy| == 1 && r1.xy[0].p == Response(net.x.c, Disc(true)) && r1.x.c.st == AwaitingRelease
            && r2.xy == [] && |r2.yx| == 1 && r2.yx[0].p == Response(net.y.c, Ua(true)) && r2.y.c.st == Disconnected
            && r3.x.c == r1.x.c && r3.y == r2.y && r3.xy == r3.yx == []
            && r3.y.c.delivered == net.y.c.delivered
  {
    hide Safe, Regular, Step, Agreed, Advance, Emitted, Names;
    PlainEnds(net, m);
    DisconnectSends(net.x.c, k1);
    OneEmitted(net.x, DlDisconnect, k1, Response(net.x.c, Disc(true)));
    var r1 := MoveX(net, Local(DlDisconnect, k1));
    AdvanceIs(net.x, DlDisconnect, k1);
    var e := Receive(r1.xy[0].p);
    StepReacts(net.y.c, e, k2);
    StepReceives(net.y.c, e, k2);
    assert [] + [Response(net.y.c, Ua(true))] == [Response(net.y.c, Ua(true))];
    OneEmitted(net.y, e, k2, Response(net.y.c, Ua(true)));
    AdvanceIs(net.y, e, k2);
    var r2 := Flip(MoveX(Flip(r1), Arrive(k2)));
    ReleasingStays(r1.x.c, Receive(r2.yx[0].p), k3);
    NoneEmitted(r1.x, Receive(r2.yx[0].p), k3);
    AdvanceIs(r1.x, Receive(r2.yx[0].p), k3);
  }

  lemma AdvanceIs(x: End, e: Event, clock: Clock)
    ensures Advance(x, e, clock).c == Step(x.c, e, clock)
  {
    hide Step;
  }
}
