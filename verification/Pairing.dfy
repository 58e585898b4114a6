/** Two stations of a session name each other in every frame, so that the daemon's look-up never gets in
    the way: what arrives undamaged is taken. */
module Pairing {
  import opened Bytes
  import opened Packets
  import opened Serializer
  import opened Parser
  import opened RoundTrip
  import Kiss
  import opened Link
  import opened LinkInvariants
  import opened Discipline
  import opened Talk
  import opened Windows
  import opened Steps
  import opened Receiving
  import opened Ends
  import opened TwoEnds
  import opened Wire
  import opened Radio
  import Periods
  import Handshake

  /** Every frame carries the addresses of the connection that sent it. */
  predicate Signed(ws: seq<Wave>, c: Conn) {
    forall i :: 0 <= i < |ws| ==> ws[i].f.p.src == c.src && ws[i].f.p.dst == c.dst
  }

  predicate Paired(s: Air) {
    var x, y := s.x.end.c, s.y.end.c;
    && x.src == y.dst && x.dst == y.src
    && Signed(s.xy, x) && Signed(s.y.heard, x) && Signed(s.yx, y) && Signed(s.x.heard, y)
  }

  /** An end of a session keeps its addresses and signs what it sends. */
  lemma SteppedPaired(s: Air, e: Event, clock: Clock)
    requires Wired(s.x.end.c) && Paired(s) && !Names(s.x.end.c, e)
    ensures Paired(Stepped(s, e, clock))
  {
    hide Step, Acked, Next, Names, Resets, Safe, Regular;
    var c := s.x.end.c;
    WiredIs(c);
    StepReceives(c, e, clock);
    StepTalks(c, e, clock);
    var x2 := Advance(s.x.end, e, clock);
    var fs := Emitted(s.x.end, x2);
    forall i | 0 <= i < |fs| ensures fs[i].p.src == x2.c.src && fs[i].p.dst == x2.c.dst {
      assert Proper(x2.c, x2.c.sent[|c.sent| + i]);
    }
  }

  lemma WiredIs(c: Conn)
    requires Wired(c)
    ensures Safe(c) && Regular(c) && !c.ownReceiverBusy
  {
    hide Safe;
  }

  lemma NoNames(c: Conn, e: Event)
    requires !e.DlConnect? && (e.Receive? ==> !e.p.frame.Sabm? && !e.p.frame.Sabme?)
    ensures !Names(c, e)
  {}

  lemma CallbackPaired(s: Air, clock: Clock)
    requires Radio.Sound(s) && Paired(s) && s.x.heard != []
    ensures Paired(Callback(s, s.x.heard[0].octets, clock))
  {
    hide Airborne, Stepped, Parsed, Serializable, CheckField, Intact, Agreed, Wired, Canonical, Image;
    var w := s.x.heard[0];
    assert Airborne(w) by { HeardAirborne(s); }
    WaveParses(w);
    var s1 := s.(x := s.x.(heard := s.x.heard[1..]));
    assert Paired(s1);
    if Intact(w) {
      var e := Receive(w.f.p.(fcs := CheckField(w.f.p, true)));
      FirstIsGood(s);
      ArrivalFamiliar(Image(s));
      NoNames(s1.x.end.c, e);
      SteppedPaired(s1, e, clock);
    }
  }

  lemma {:induction false} CallbacksPaired(s: Air, frames: seq<seq<byte>>, clocks: seq<Clock>)
    requires Radio.Sound(s) && Paired(s) && |frames| <= |s.x.heard| && frames == Octs(s.x.heard[..|frames|])
    ensures Paired(Callbacks(s, frames, clocks))
    decreases |frames|
  {
    hide Radio.Sound, Parsed, Dispatched, Advance, Paired;
    if frames != [] {
      var clock := if clocks == [] then Clock(0, false) else clocks[0];
      assert frames[0] == s.x.heard[0].octets;
      CallbackSound(s, clock);
      CallbackPaired(s, clock);
      var s1 := Callback(s, frames[0], clock);
      assert s1.x.heard == s.x.heard[1..];
      assert s.x.heard[..|frames|][1..] == s1.x.heard[..|frames[1..]|];
      assert frames[1..] == Octs(s1.x.heard[..|frames[1..]|]);
      CallbacksPaired(s1, frames[1..], if clocks == [] then [] else clocks[1..]);
    }
  }

  lemma SignedLess(ws: seq<Wave>, i: nat, c: Conn)
    requires Signed(ws, c) && i < |ws|
    ensures Signed(Without(ws, i), c) && Signed(ws[1..], c) && ws[i].f.p.src == c.src && ws[i].f.p.dst == c.dst
  {
    var rest := Without(ws, i);
    forall j | 0 <= j < |rest| ensures rest[j].f.p.src == c.src && rest[j].f.p.dst == c.dst {
      assert rest[j] == ws[if j < i then j else j + 1];
    }
  }

  lemma ReadPaired(s: Air, n: nat, clocks: seq<Clock>)
    requires OnAir(s) && Paired(s)
    ensures Paired(DoX(s, Read(n, clocks)))
  {
    hide Readable, Radio.Sound, Callbacks, ReadLine, Radio.NewFrames;
    var st := ReadLine(s.x, n);
    var frames := Radio.NewFrames(s.x.reader, st.reader);
    ReadReadable(s.x, n);
    SameHeard(s, n);
    ReadKeeps(s.x, n);
    CallbacksPaired(s.(x := st), frames, clocks);
  }

  lemma ReadKeeps(st: Station, n: nat)
    ensures ReadLine(st, n).end == st.end && ReadLine(st, n).heard == st.heard
  {
    hide Kiss.Feed;
  }

  lemma DoXPaired(s: Air, act: Act)
    requires OnAir(s) && Paired(s)
    ensures Paired(DoX(s, act))
  {
    hide Readable, Agreed, Wired, AllAirborne, Written, NearlySame, Stepped, Image;
    match act
    case Request(e, clock) =>
      if Allowed(Image(s), e) {
        NoNames(s.x.end.c, e);
        SteppedPaired(s, e, clock);
      }
    case Hear => if s.yx != [] { SignedLess(s.yx, 0, s.y.end.c); }
    case Read(n, clocks) => ReadPaired(s, n, clocks);
    case Fade(i) => if i < |s.xy| { SignedLess(s.xy, i, s.x.end.c); }
    case Damage(_, _) =>
  }

  /** Main result: the two stations stay paired whatever happens. */
  lemma {:induction false} BroadcastPaired(s: Air, deeds: seq<Deed>)
    requires OnAir(s) && Paired(s)
    ensures OnAir(Broadcast(s, deeds)) && Paired(Broadcast(s, deeds))
    decreases |deeds|
  {
    hide OnAir, DoX;
    if deeds != [] {
      TurnedOnAir(s);
      DoXOnAir(s, deeds[0].act);
      DoXOnAir(Turned(s), deeds[0].act);
      TurnedOnAir(DoX(Turned(s), deeds[0].act));
      DoXPaired(s, deeds[0].act);
      DoXPaired(Turned(s), deeds[0].act);
      BroadcastPaired(DoDeed(s, deeds[0]), deeds[1..]);
    }
  }

  // ---------------------------------------------------------------------------------------------
  // What arrives

  /** A frame that the daemon does not pass on would have changed nothing. */
  lemma NotDispatchedIdle(s: Air, p: Packet, clock: Clock)
    requires Agreed(Image(s), 8) && Paired(s) && Image(s).yx != [] && p == Image(s).yx[0].p
    requires p.src == s.y.end.c.src && p.dst == s.y.end.c.dst && !Dispatched(s.x.end.c, p)
    ensures Advance(s.x.end, Receive(p), clock) == s.x.end
  {
    hide Agreed, Step, Image, Paired, Acked, Next, InRange, Usable;
    ArrivalWelcome(Image(s), 8);
    EndIs(s);
    var c := s.x.end.c;
    assert c.src == p.dst && c.dst == p.src by { Addresses(s); }
    assert Step(c, Receive(p), clock) == c by {
      if p.frame.Dm? {
        Periods.ReleasingStays(c, Receive(p), clock);
      } else {
        UnhandledStays(c, p, clock);
      }
    }
  }

  lemma Addresses(s: Air)
    requires Paired(s)
    ensures s.x.end.c.src == s.y.end.c.dst && s.x.end.c.dst == s.y.end.c.src
  {}

  lemma UnhandledStays(c: Conn, p: Packet, clock: Clock)
    requires p.frame.Rej?
    ensures Step(c, Receive(p), clock) == c
  {}

  lemma EndIs(s: Air)
    requires Agreed(Image(s), 8)
    ensures Image(s).x == s.x.end
    ensures var x := s.x.end; InData(x.c) ==> x.acked == Acked(x.c, x.acc) && x.next == Next(x.c, x.acc)
  {
    hide Safe, Regular, Labelled, Direction;
  }

  /** Main result: every frame that arrives undamaged at a paired station does there what it does in a
      session without octets, whatever frame it is. */
  lemma EveryFrameArrives(s: Air, clock: Clock)
    requires OnAir(s) && Paired(s) && s.x.line == [] && s.yx != [] && Intact(s.yx[0])
    ensures var s1 := DoX(s, Hear);
            Image(DoX(s1, Read(|s1.x.line|, [clock]))) == MoveX(Image(s), Arrive(clock))
  {
    hide OnAir, Intact, Dispatched, Image, DoX, MoveX;
    if Dispatched(s.x.end.c, s.yx[0].f.p) {
      WholeFrameArrives(s, clock);
    } else {
      RefusedFrameArrives(s, clock);
    }
  }

  lemma RefusedFrameArrives(s: Air, clock: Clock)
    requires OnAir(s) && Paired(s) && s.x.line == [] && s.yx != [] && Intact(s.yx[0])
    requires !Dispatched(s.x.end.c, s.yx[0].f.p)
    ensures var s1 := DoX(s, Hear);
            Image(DoX(s1, Read(|s1.x.line|, [clock]))) == MoveX(Image(s), Arrive(clock))
  {
    hide Image, Radio.Sound, Readable, Airborne, Dispatched, Advance, Intact, Callbacks, ReadLine, Radio.NewFrames, Paired;
    var w, s1 := s.yx[0], DoX(s, Hear);
    HearOnAir(s);
    HearImage(s);
    EmptyLine(s.x);
    assert s1.x.heard == [w];
    WholeLineRead(s1.x);
    var st := ReadLine(s1.x, |s1.x.line|);
    assert Octs([w]) == [w.octets];
    SameImage(s1, st);
    var s2 := s1.(x := st);
    assert Airborne(w) by { FirstAirborne(s); }
    RefusedCallback(s2, clock);
    FirstIsGood(s2);
    SoundIs(s);
    SignedFirst(s);
    NotDispatchedIdle(s, w.f.p, clock);
    NothingEmitted(s.x.end);
    assert Image(s).xy + [] == Image(s).xy;
  }

  lemma SoundIs(s: Air)
    requires Radio.Sound(s)
    ensures Agreed(Image(s), 8)
  {
    hide Agreed, Wired, AllAirborne, Image;
  }

  lemma SignedFirst(s: Air)
    requires Paired(s) && s.yx != []
    ensures s.yx[0].f.p.src == s.y.end.c.src && s.yx[0].f.p.dst == s.y.end.c.dst
  {}

  lemma NothingEmitted(x: End)
    ensures Emitted(x, x) == []
  {}

  lemma RefusedCallback(s: Air, clock: Clock)
    requires s.x.heard != [] && Airborne(s.x.heard[0]) && Intact(s.x.heard[0])
    requires !Dispatched(s.x.end.c, s.x.heard[0].f.p)
    ensures Callbacks(s, [s.x.heard[0].octets], [clock]) == s.(x := s.x.(heard := s.x.heard[1..]))
  {
    hide Parsed, Serializable, CheckField, Intact, Airborne, Stepped;
    var frame := s.x.heard[0].octets;
    WaveParses(s.x.heard[0]);
    assert Callbacks(s, [frame], [clock]) == Callback(s, frame, clock);
  }

  /** Every established call begins with two paired stations. */
  lemma CallPaired(dst: string, src: string, clock: Clock, acts: seq<Handshake.Act>)
    requires Handshake.InSession(Handshake.DoAll(Handshake.Dialled(dst, src, clock), acts))
    ensures var s := Handshake.DoAll(Handshake.Dialled(dst, src, clock), acts);
            Paired(Radio.Silent(Handshake.NewEnd(s.a), Handshake.NewEnd(s.b)))
  {
    hide Handshake.DoAll, Handshake.Dialled, Begun;
    Handshake.EstablishedWhen(dst, src, clock, acts);
  }
}
