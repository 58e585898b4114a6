/** An established session over the air: two ends that send octets with check bytes over channels that
    lose and damage frames, and that read them from a serial line with KISS framing. */
module Radio {
  import opened Bytes
  import opened Packets
  import opened Bursts
  import opened Serializer
  import opened Parser
  import opened RoundTrip
  import Kiss
  import opened Link
  import opened LinkInvariants
  import opened Discipline
  import opened Ends
  import opened TwoEnds
  import opened Wire
  import Calls
  import Handshake

  /** What serialize writes with check bytes, and nothing where it throws. */
  function Written(p: Packet): seq<byte> {
    if Serializable(p) then Encoded(p, true) else []
  }

  /** A frame on its way: as it was sent, and the octets that are left of it. */
  datatype Wave = Wave(f: Flight, octets: seq<byte>)

  predicate Intact(w: Wave) {
    w.octets == Written(w.f.p)
  }

  /** The octets differ from others in no more than sixteen consecutive bits. */
  predicate NearlySame(octets: seq<byte>, others: seq<byte>) {
    exists start | 0 <= start <= 8 * |octets| :: DifferInBurst(Bits(octets), Bits(others), start)
  }

  /** One end at its host: the reader of the serial line, the octets on the line that it has not read,
      and which frames these are. */
  datatype Station = Station(end: End, reader: Kiss.Reader, line: seq<byte>, heard: seq<Wave>)

  datatype Air = Air(x: Station, y: Station, xy: seq<Wave>, yx: seq<Wave>)

  /** What can happen at a station: a request or a timer, the modem passes on the first frame on its way
      there, the host reads some octets of the line, a frame that it has sent fades away, or is damaged. */
  datatype Act =
    | Request(e: Event, clock: Clock)
    | Hear
    | Read(n: nat, clocks: seq<Clock>)
    | Fade(i: nat)
    | Damage(i: nat, octets: seq<byte>)

  datatype Deed = Deed(atX: bool, act: Act)

  function Launch(fs: seq<Flight>): (ws: seq<Wave>)
    ensures |ws| == |fs|
    ensures forall i :: 0 <= i < |fs| ==> ws[i] == Wave(fs[i], Written(fs[i].p))
  {
    seq(|fs|, i requires 0 <= i < |fs| => Wave(fs[i], Written(fs[i].p)))
  }

  /** The packets that the daemon passes on to the connection it looks up by their addresses. */
  predicate Dispatched(c: Conn, p: Packet) {
    && (p.frame.Ua? || p.frame.IFrame? || p.frame.Rr? || p.frame.Disc? || p.frame.Sabm?)
    && p.dst == c.src && (p.src == c.dst || p.frame.Sabm?)
  }

  function Stepped(s: Air, e: Event, clock: Clock): Air {
    var x2 := Advance(s.x.end, e, clock);
    s.(x := s.x.(end := x2), xy := s.xy + Launch(Emitted(s.x.end, x2)))
  }

  /** packet_callback with one frame from the line. */
  function Callback(s: Air, frame: seq<byte>, clock: Clock): Air {
    var s1 := s.(x := s.x.(heard := if s.x.heard == [] then [] else s.x.heard[1..]));
    match Parsed(frame, true)
    case Ok(p) => if Dispatched(s.x.end.c, p) then Stepped(s1, Receive(p), clock) else s1
    case Err(_) => s1
  }

  function Callbacks(s: Air, frames: seq<seq<byte>>, clocks: seq<Clock>): Air
    decreases |frames|
  {
    if frames == [] then s
    else
      var clock := if clocks == [] then Clock(0, false) else clocks[0];
      Callbacks(Callback(s, frames[0], clock), frames[1..], if clocks == [] then [] else clocks[1..])
  }

  function ReadLine(st: Station, n: nat): Station {
    var k := if n < |st.line| then n else |st.line|;
    st.(reader := Kiss.Feed(st.reader, st.line[..k]), line := st.line[k..])
  }

  /** The frames that the reader has passed on since. */
  function NewFrames(before: Kiss.Reader, after: Kiss.Reader): seq<seq<byte>> {
    if |before.injected| <= |after.injected| then after.injected[|before.injected|..] else []
  }

  function DoX(s: Air, act: Act): Air {
    match act
    case Request(e, clock) => if Allowed(Image(s), e) then Stepped(s, e, clock) else s
    case Hear =>
      if s.yx == [] then s
      else
        var w := s.yx[0];
        s.(x := s.x.(line := s.x.line + Kiss.Framed(w.octets), heard := s.x.heard + [w]), yx := s.yx[1..])
    case Read(n, clocks) =>
      var st := ReadLine(s.x, n);
      Callbacks(s.(x := st), NewFrames(s.x.reader, st.reader), clocks)
    case Fade(i) => if i < |s.xy| then s.(xy := Without(s.xy, i)) else s
    case Damage(i, octets) =>
      if i < |s.xy| && octets != Written(s.xy[i].f.p) && NearlySame(Written(s.xy[i].f.p), octets) then
        s.(xy := s.xy[i := s.xy[i].(octets := octets)])
      else s
  }

  function Turned(s: Air): Air {
    Air(s.y, s.x, s.yx, s.xy)
  }

  function DoDeed(s: Air, d: Deed): Air {
    if d.atX then DoX(s, d.act) else Turned(DoX(Turned(s), d.act))
  }

  function Broadcast(s: Air, deeds: seq<Deed>): Air
    decreases |deeds|
  {
    if deeds == [] then s else Broadcast(DoDeed(s, deeds[0]), deeds[1..])
  }

  // ---------------------------------------------------------------------------------------------
  // The session behind the octets

  /** The frames that nothing has happened to. */
  function Good(ws: seq<Wave>): seq<Flight> {
    if ws == [] then [] else (if Intact(ws[0]) then [ws[0].f] else []) + Good(ws[1..])
  }

  /** The two ends and the undamaged frames between them, in the air or on a line. */
  function Image(s: Air): Net {
    Net(s.x.end, s.y.end, Good(s.y.heard) + Good(s.xy), Good(s.x.heard) + Good(s.yx))
  }

  predicate Airborne(w: Wave) {
    Canonical(w.f.p) && NearlySame(Written(w.f.p), w.octets)
  }

  predicate AllAirborne(ws: seq<Wave>) {
    forall i :: 0 <= i < |ws| ==> Airborne(ws[i])
  }

  predicate Sound(s: Air) {
    && Agreed(Image(s), 8) && Wired(s.x.end.c) && Wired(s.y.end.c)
    && AllAirborne(s.xy) && AllAirborne(s.yx) && AllAirborne(s.x.heard) && AllAirborne(s.y.heard)
  }

  function Octs(ws: seq<Wave>): (r: seq<seq<byte>>)
    ensures |r| == |ws|
    ensures forall i :: 0 <= i < |ws| ==> r[i] == ws[i].octets
  {
    seq(|ws|, i requires 0 <= i < |ws| => ws[i].octets)
  }

  /** The rest of the line holds the frames heard and nothing else. */
  predicate Readable(st: Station) {
    var after := Kiss.Feed(st.reader, st.line);
    Kiss.Undisturbed(st.reader, st.line) && Kiss.Ready(after) && after.injected == st.reader.injected + Octs(st.heard)
  }

  predicate OnAir(s: Air) {
    Sound(s) && Readable(s.x) && Readable(s.y)
  }

  // ---------------------------------------------------------------------------------------------
  // Good frames

  lemma {:induction false} GoodAppend(a: seq<Wave>, b: seq<Wave>)
    ensures Good(a + b) == Good(a) + Good(b)
    decreases |a|
  {
    hide Intact;
    if a == [] {
      assert a + b == b;
    } else {
      assert (a + b)[0] == a[0] && (a + b)[1..] == a[1..] + b;
      GoodAppend(a[1..], b);
    }
  }

  lemma GoodSplit(ws: seq<Wave>, i: nat)
    requires i < |ws|
    ensures Good(ws) == Good(ws[..i]) + (if Intact(ws[i]) then [ws[i].f] else []) + Good(ws[i + 1..])
  {
    hide Intact, Good;
    var before, x, behind := ws[..i], [ws[i]], ws[i + 1..];
    assert ws == before + (x + behind);
    GoodAppend(before, x + behind);
    GoodAppend(x, behind);
    GoodOne(ws[i]);
    Associative(Good(before), Good(x), Good(behind));
  }

  lemma GoodOne(w: Wave)
    ensures Good([w]) == if Intact(w) then [w.f] else []
  {
    hide Intact;
    assert [w][1..] == [];
  }

  lemma Associative<T>(a: seq<T>, b: seq<T>, c: seq<T>)
    ensures a + (b + c) == a + b + c
  {}

  lemma GoodRest(ws: seq<Wave>)
    requires ws != []
    ensures Good(ws) == (if Intact(ws[0]) then [ws[0].f] else []) + Good(ws[1..])
  {
    hide Intact;
  }

  lemma TakenOut<T>(before: seq<T>, a: seq<T>, x: T, b: seq<T>)
    ensures var all, k := before + (a + [x] + b), |before| + |a|;
            k < |all| && Without(all, k) == before + (a + b)
  {}

  /** What is left of the good frames when a frame is taken away or damaged. */
  lemma GoodLeft(ws: seq<Wave>, i: nat, less: seq<Wave>)
    requires i < |ws|
    requires less == Without(ws, i) || (|less| == |ws| && !Intact(less[i]) && less == ws[i := less[i]])
    ensures Good(less) == Good(ws[..i]) + Good(ws[i + 1..])
  {
    hide Intact;
    if less == Without(ws, i) {
      GoodAppend(ws[..i], ws[i + 1..]);
    } else {
      GoodSplit(less, i);
      assert less[..i] == ws[..i] && less[i + 1..] == ws[i + 1..];
      assert Good(ws[..i]) + [] == Good(ws[..i]);
    }
  }

  /** Taking a frame away, or damaging it, takes at most that frame out of the good ones. */
  lemma GoodLess(ws: seq<Wave>, i: nat, less: seq<Wave>, before: seq<Flight>)
    requires i < |ws|
    requires less == Without(ws, i) || (|less| == |ws| && !Intact(less[i]) && less == ws[i := less[i]])
    ensures var k := |before| + |Good(ws[..i])|;
            if Intact(ws[i]) then k < |before + Good(ws)| && before + Good(less) == Without(before + Good(ws), k)
            else Good(less) == Good(ws)
  {
    hide Intact, Good, Without;
    GoodLeft(ws, i, less);
    GoodSplit(ws, i);
    if Intact(ws[i]) {
      TakenOut(before, Good(ws[..i]), ws[i].f, Good(ws[i + 1..]));
    } else {
      assert Good(ws[..i]) + [] == Good(ws[..i]);
    }
  }

  lemma {:induction false} GoodLaunch(fs: seq<Flight>)
    ensures Good(Launch(fs)) == fs
    decreases |fs|
  {
    hide Written;
    if fs != [] {
      assert Launch(fs)[1..] == Launch(fs[1..]);
      GoodLaunch(fs[1..]);
      assert fs == [fs[0]] + fs[1..];
    }
  }

  lemma SameIsNear(octets: seq<byte>)
    ensures NearlySame(octets, octets)
  {
    assert DifferInBurst(Bits(octets), Bits(octets), 0);
  }

  /** An undamaged frame is parsed as it was sent, a damaged one is refused. */
  lemma WaveParses(w: Wave)
    requires Airborne(w)
    ensures Serializable(w.f.p)
    ensures if Intact(w) then Parsed(w.octets, true) == Ok(w.f.p.(fcs := CheckField(w.f.p, true)))
            else Parsed(w.octets, true).Err?
  {
    hide Canonical, Serializable, Parsed, Encoded, CheckField, Bits, DifferInBurst;
    CanonicalIsSerializable(w.f.p);
    if Intact(w) {
      RoundTripIffCanonical(w.f.p, true);
    } else {
      var start :| 0 <= start <= 8 * |Written(w.f.p)| && DifferInBurst(Bits(Written(w.f.p)), Bits(w.octets), start);
      DamagedPacketRefused(w.f.p, w.octets, start);
    }
  }

  // ---------------------------------------------------------------------------------------------
  // Steps of the ends

  lemma LaunchAirborne(fs: seq<Flight>)
    requires forall i :: 0 <= i < |fs| ==> Canonical(fs[i].p)
    ensures AllAirborne(Launch(fs))
  {
    hide Canonical, Written, NearlySame;
    forall i | 0 <= i < |fs| ensures Airborne(Launch(fs)[i]) {
      SameIsNear(Written(fs[i].p));
    }
  }

  lemma EmittedCanonical(x: End, e: Event, clock: Clock)
    requires Wired(x.c) && Familiar(e)
    ensures var x2 := Advance(x, e, clock);
            Wired(x2.c) && AllAirborne(Launch(Emitted(x, x2)))
  {
    hide Wired, Familiar, Step, Canonical, Airborne;
    StepWired(x.c, e, clock);
    LaunchAirborne(Emitted(x, Advance(x, e, clock)));
  }

  lemma AirborneMore(a: seq<Wave>, b: seq<Wave>)
    requires AllAirborne(a) && AllAirborne(b)
    ensures AllAirborne(a + b)
  {
    hide Airborne;
  }

  lemma AirborneLess(ws: seq<Wave>, i: nat)
    requires AllAirborne(ws) && i < |ws|
    ensures AllAirborne(Without(ws, i)) && AllAirborne(ws[1..]) && AllAirborne([ws[i]])
  {
    hide Airborne;
    var rest := Without(ws, i);
    forall j | 0 <= j < |rest| ensures Airborne(rest[j]) {
      assert rest[j] == ws[if j < i then j else j + 1];
    }
  }

  /** What an end sends is added to the good frames behind those that are there. */
  lemma StepImage(s: Air, e: Event, clock: Clock)
    ensures var x2 := Advance(s.x.end, e, clock);
            Image(Stepped(s, e, clock)) == Image(s).(x := x2, xy := Image(s).xy + Emitted(s.x.end, x2))
  {
    hide Advance, Emitted, Good;
    var fs := Emitted(s.x.end, Advance(s.x.end, e, clock));
    GoodAppend(s.xy, Launch(fs));
    GoodLaunch(fs);
    Associative(Good(s.y.heard), Good(s.xy), fs);
  }

  lemma StepSound(s: Air, e: Event, clock: Clock)
    requires Wired(s.x.end.c) && Wired(s.y.end.c) && Familiar(e)
    requires AllAirborne(s.xy) && AllAirborne(s.yx) && AllAirborne(s.x.heard) && AllAirborne(s.y.heard)
    requires Agreed(Image(Stepped(s, e, clock)), 8)
    ensures Sound(Stepped(s, e, clock))
  {
    hide Wired, Familiar, Advance, AllAirborne, Agreed, Image;
    EmittedCanonical(s.x.end, e, clock);
    AirborneMore(s.xy, Launch(Emitted(s.x.end, Advance(s.x.end, e, clock))));
  }

  lemma RequestSound(s: Air, e: Event, clock: Clock)
    requires Sound(s) && Allowed(Image(s), e)
    ensures Sound(Stepped(s, e, clock))
  {
    hide Wired, Advance, AllAirborne, Agreed;
    LocalAgrees(Image(s), e, clock, 8);
    StepImage(s, e, clock);
    StepSound(s, e, clock);
  }

  /** The first good frame on its way arrives whole. */
  lemma IntactArrives(s: Air, clock: Clock)
    requires Sound(s) && s.x.heard != [] && Intact(s.x.heard[0])
    ensures Serializable(s.x.heard[0].f.p)
    ensures var p := s.x.heard[0].f.p;
            var s1 := s.(x := s.x.(heard := s.x.heard[1..]));
            Sound(Stepped(s1, Receive(p.(fcs := CheckField(p, true))), clock))
  {
    hide Wired, AllAirborne, Agreed, Airborne, Advance, Intact, Serializable, Canonical, CheckField, Image, Stepped;
    var w := s.x.heard[0];
    WaveParses(w) by { AirborneAt(s.x.heard, 0); }
    var s1 := s.(x := s.x.(heard := s.x.heard[1..]));
    FirstIsGood(s);
    ArriveAgrees(Image(s), clock, 8);
    SameAdvance(s.x.end, w.f.p, CheckField(w.f.p, true), clock);
    var e := Receive(w.f.p.(fcs := CheckField(w.f.p, true)));
    StepImage(s1, e, clock);
    ArrivalFamiliar(Image(s));
    AirborneLess(s.x.heard, 0);
    StepSound(s1, e, clock);
  }

  /** The first good frame heard is the first frame of the session on its way. */
  lemma FirstIsGood(s: Air)
    requires s.x.heard != [] && Intact(s.x.heard[0])
    ensures var net, s1 := Image(s), s.(x := s.x.(heard := s.x.heard[1..]));
            && net.yx != [] && net.yx[0] == s.x.heard[0].f && Image(s1) == net.(yx := net.yx[1..])
            && net.x == s.x.end
  {
    hide Intact, Good;
    GoodRest(s.x.heard);
  }

  lemma SameAdvance(x: End, p: Packet, fcs: int, clock: Clock)
    ensures Advance(x, Receive(p.(fcs := fcs)), clock) == Advance(x, Receive(p), clock)
  {
    hide Step;
    CheckFieldIgnored(x.c, p, fcs, clock);
  }

  lemma AirborneAt(ws: seq<Wave>, i: nat)
    requires AllAirborne(ws) && i < |ws|
    ensures Airborne(ws[i])
  {
    hide Airborne;
  }

  lemma ArrivalFamiliar(net: Net)
    requires Agreed(net, 8) && net.yx != []
    ensures var f := net.yx[0].p.frame; !f.Sabm? && !f.Sabme?
  {
    hide Agreed;
    ArrivalWelcome(net, 8);
  }

  /** A frame that is damaged, or that the daemon does not pass on, might as well have been lost. */
  lemma ForgottenSound(s: Air)
    requires Sound(s) && s.x.heard != []
    ensures Sound(s.(x := s.x.(heard := s.x.heard[1..])))
  {
    hide Wired, AllAirborne, Agreed, Intact;
    var ws := s.x.heard;
    assert Without(ws, 0) == ws[1..] && [] + Good(ws) == Good(ws) && [] + Good(ws[1..]) == Good(ws[1..]);
    AirborneLess(ws, 0);
    GoodLess(ws, 0, ws[1..], []);
    if Intact(ws[0]) {
      LosesFirst(s);
    }
  }

  lemma LosesFirst(s: Air)
    requires Agreed(Image(s), 8) && s.x.heard != [] && Intact(s.x.heard[0])
    ensures Agreed(Image(s.(x := s.x.(heard := s.x.heard[1..]))), 8)
  {
    hide Agreed, Intact;
    GoodSplit(s.x.heard, 0);
    var net, s1 := Image(s), s.(x := s.x.(heard := s.x.heard[1..]));
    assert Without(net.yx, 0) == Image(s1).yx;
    FlipAgrees(net, 8);
    LoseAgrees(Flip(net), 0, 8);
    FlipAgrees(Flip(Image(s1)), 8);
  }

  lemma CallbackSound(s: Air, clock: Clock)
    requires Sound(s) && s.x.heard != []
    ensures Sound(Callback(s, s.x.heard[0].octets, clock))
  {
    hide Sound, Airborne, Stepped, Parsed, Serializable, CheckField, Intact;
    assert Airborne(s.x.heard[0]) by { HeardAirborne(s); }
    WaveParses(s.x.heard[0]);
    ForgottenSound(s);
    if Intact(s.x.heard[0]) {
      IntactArrives(s, clock);
    }
  }

  lemma HeardAirborne(s: Air)
    requires Sound(s) && s.x.heard != []
    ensures Airborne(s.x.heard[0])
  {
    hide Airborne, Agreed, Wired;
  }

  lemma {:induction false} CallbacksSound(s: Air, frames: seq<seq<byte>>, clocks: seq<Clock>)
    requires Sound(s) && |frames| <= |s.x.heard| && frames == Octs(s.x.heard[..|frames|])
    ensures var r := Callbacks(s, frames, clocks);
            && Sound(r) && r.x.heard == s.x.heard[|frames|..]
            && r.x.reader == s.x.reader && r.x.line == s.x.line && r.y == s.y && r.yx == s.yx
    decreases |frames|
  {
    hide Sound, Parsed, Dispatched, Advance;
    if frames != [] {
      var clock := if clocks == [] then Clock(0, false) else clocks[0];
      assert frames[0] == s.x.heard[0].octets;
      CallbackSound(s, clock);
      var s1 := Callback(s, frames[0], clock);
      assert s1.x.heard == s.x.heard[1..];
      assert s.x.heard[..|frames|][1..] == s1.x.heard[..|frames[1..]|];
      assert frames[1..] == Octs(s1.x.heard[..|frames[1..]|]);
      CallbacksSound(s1, frames[1..], if clocks == [] then [] else clocks[1..]);
    }
  }

  // ---------------------------------------------------------------------------------------------
  // The line

  lemma {:induction false} FeedExtends(r: Kiss.Reader, chunk: seq<byte>)
    ensures r.injected <= Kiss.Feed(r, chunk).injected
    decreases |chunk|
  {
    hide Kiss.Decode;
    if chunk != [] {
      if chunk[0] != Kiss.FEND {
        FeedExtends(r.(buf := r.buf + [chunk[0]]), chunk[1..]);
      } else if !Kiss.Throws(r) {
        FeedExtends(Kiss.AtFend(r), chunk[1..]);
      }
    }
  }

  lemma {:induction false} UndisturbedAppend(r: Kiss.Reader, a: seq<byte>, b: seq<byte>)
    requires Kiss.Undisturbed(r, a) && Kiss.Undisturbed(Kiss.Feed(r, a), b)
    ensures Kiss.Undisturbed(r, a + b)
    decreases |a|
  {
    hide Kiss.Decode;
    if a == [] {
      assert a + b == b;
    } else {
      assert (a + b)[0] == a[0] && (a + b)[1..] == a[1..] + b;
      if a[0] != Kiss.FEND {
        UndisturbedAppend(r.(buf := r.buf + [a[0]]), a[1..], b);
      } else {
        UndisturbedAppend(Kiss.AtFend(r), a[1..], b);
      }
    }
  }

  lemma UndisturbedNothing(r: Kiss.Reader)
    ensures Kiss.Undisturbed(r, []) && Kiss.Feed(r, []) == r
  {}

  /** One more frame comes out of the modem. */
  lemma HearReadable(st: Station, w: Wave)
    requires Readable(st)
    ensures Readable(st.(line := st.line + Kiss.Framed(w.octets), heard := st.heard + [w]))
  {
    hide Kiss.Feed, Kiss.Undisturbed, Kiss.Framed;
    var r, text := Kiss.Feed(st.reader, st.line), Kiss.Framed(w.octets);
    var r2 := Kiss.Reader([], true, r.injected + [w.octets]);
    Kiss.FrameArrives(r, w.octets, []);
    assert text + [] == text;
    UndisturbedNothing(r2);
    UndisturbedAppend(st.reader, st.line, text);
    Kiss.FeedAppend(st.reader, st.line, text);
    assert st.reader.injected + Octs(st.heard) + [w.octets] == st.reader.injected + Octs(st.heard + [w]);
  }

  /** However much of the line is read, what the reader passes on is the next frames whole. */
  lemma ReadReadable(st: Station, n: nat)
    requires Readable(st)
    ensures var st2 := ReadLine(st, n);
            var frames := NewFrames(st.reader, st2.reader);
            && |frames| <= |st.heard| && frames == Octs(st.heard[..|frames|])
            && Readable(st2.(heard := st.heard[|frames|..]))
  {
    hide Kiss.Feed, Kiss.Undisturbed, Kiss.Ready;
    var k := if n < |st.line| then n else |st.line|;
    var st2 := ReadLine(st, n);
    assert st.line == st.line[..k] + st.line[k..];
    Kiss.FeedAppend(st.reader, st.line[..k], st.line[k..]);
    FeedExtends(st.reader, st.line[..k]);
    FeedExtends(st2.reader, st2.line);
    var after := Kiss.Feed(st.reader, st.line);
    var frames := NewFrames(st.reader, st2.reader);
    var done, all := |st.reader.injected|, Octs(st.heard);
    assert after.injected[done..] == all;
    assert frames == after.injected[done..][..|frames|] == all[..|frames|];
    assert after.injected == st2.reader.injected + all[|frames|..];
    assert all[|frames|..] == Octs(st.heard[|frames|..]) && all[..|frames|] == Octs(st.heard[..|frames|]);
  }

  // ---------------------------------------------------------------------------------------------
  // Every deed

  lemma HearOnAir(s: Air)
    requires OnAir(s) && s.yx != []
    ensures OnAir(DoX(s, Hear))
  {
    hide Readable, Agreed, Wired, AllAirborne, Intact, Image;
    HearReadable(s.x, s.yx[0]);
    AirborneLess(s.yx, 0);
    AirborneMore(s.x.heard, [s.yx[0]]);
    HearImage(s);
  }

  lemma HearImage(s: Air)
    requires s.yx != []
    ensures Image(DoX(s, Hear)) == Image(s)
  {
    hide Good;
    var first := [s.yx[0]];
    assert s.yx == first + s.yx[1..];
    GoodAppend(s.x.heard, first);
    GoodAppend(first, s.yx[1..]);
    Associative(Good(s.x.heard), Good(first), Good(s.yx[1..]));
  }

  lemma ReadOnAir(s: Air, n: nat, clocks: seq<Clock>)
    requires OnAir(s)
    ensures OnAir(DoX(s, Read(n, clocks)))
  {
    hide Readable, Sound, Callbacks, ReadLine, NewFrames;
    var st := ReadLine(s.x, n);
    var frames := NewFrames(s.x.reader, st.reader);
    ReadReadable(s.x, n);
    var s1 := s.(x := st);
    SameHeard(s, n);
    CallbacksSound(s1, frames, clocks);
    var r := Callbacks(s1, frames, clocks);
    SameLine(st.(heard := s.x.heard[|frames|..]), r.x);
  }

  lemma SameHeard(s: Air, n: nat)
    requires Sound(s)
    ensures Sound(s.(x := ReadLine(s.x, n))) && ReadLine(s.x, n).heard == s.x.heard
  {
    hide Agreed, Wired, AllAirborne, Good;
  }

  lemma SameLine(a: Station, b: Station)
    requires Readable(a) && a.reader == b.reader && a.line == b.line && a.heard == b.heard
    ensures Readable(b)
  {}

  lemma FadeOnAir(s: Air, i: nat, less: seq<Wave>)
    requires OnAir(s) && i < |s.xy| && AllAirborne(less)
    requires less == Without(s.xy, i) || (|less| == |s.xy| && !Intact(less[i]) && less == s.xy[i := less[i]])
    ensures OnAir(s.(xy := less))
  {
    hide Readable, Agreed, Wired, AllAirborne, Intact;
    GoodLess(s.xy, i, less, Good(s.y.heard));
    if Intact(s.xy[i]) {
      LoseAgrees(Image(s), |Good(s.y.heard)| + |Good(s.xy[..i])|, 8);
    }
  }

  lemma DoXOnAir(s: Air, act: Act)
    requires OnAir(s)
    ensures OnAir(DoX(s, act))
  {
    hide Sound, Readable, Written, NearlySame, AllAirborne, Allowed, Canonical;
    match act
    case Request(e, clock) => if Allowed(Image(s), e) { RequestSound(s, e, clock); RequestLine(s, e, clock); }
    case Hear => if s.yx != [] { HearOnAir(s); }
    case Read(n, clocks) => ReadOnAir(s, n, clocks);
    case Fade(i) => if i < |s.xy| { AirIsAirborne(s); AirborneLess(s.xy, i); FadeOnAir(s, i, Without(s.xy, i)); }
    case Damage(i, octets) =>
      if i < |s.xy| && octets != Written(s.xy[i].f.p) && NearlySame(Written(s.xy[i].f.p), octets) {
        AirIsAirborne(s);
        DamageAirborne(s.xy, i, octets);
        FadeOnAir(s, i, s.xy[i := s.xy[i].(octets := octets)]);
      }
  }

  lemma RequestLine(s: Air, e: Event, clock: Clock)
    requires Readable(s.x)
    ensures Readable(Stepped(s, e, clock).x) && Stepped(s, e, clock).y == s.y
  {
    hide Kiss.Feed, Kiss.Undisturbed, Advance;
  }

  lemma AirIsAirborne(s: Air)
    requires Sound(s)
    ensures AllAirborne(s.xy)
  {
    hide AllAirborne, Agreed, Wired;
  }

  lemma DamageAirborne(ws: seq<Wave>, i: nat, octets: seq<byte>)
    requires AllAirborne(ws) && i < |ws| && NearlySame(Written(ws[i].f.p), octets)
    ensures AllAirborne(ws[i := ws[i].(octets := octets)])
  {
    hide NearlySame, Canonical, Written;
    assert Airborne(ws[i]);
  }

  lemma TurnedOnAir(s: Air)
    requires OnAir(s)
    ensures OnAir(Turned(s))
  {
    hide Agreed, Readable, Wired, AllAirborne, Good;
    FlipAgrees(Image(s), 8);
  }

  lemma {:induction false} BroadcastOnAir(s: Air, deeds: seq<Deed>)
    requires OnAir(s)
    ensures OnAir(Broadcast(s, deeds))
    decreases |deeds|
  {
    hide OnAir, DoX;
    if deeds != [] {
      TurnedOnAir(s);
      DoXOnAir(s, deeds[0].act);
      DoXOnAir(Turned(s), deeds[0].act);
      TurnedOnAir(DoX(Turned(s), deeds[0].act));
      BroadcastOnAir(DoDeed(s, deeds[0]), deeds[1..]);
    }
  }

  // ---------------------------------------------------------------------------------------------
  // The session

  lemma EmptyLine(st: Station)
    requires Readable(st) && st.line == []
    ensures st.heard == []
  {
    UndisturbedNothing(st.reader);
    assert |Octs(st.heard)| == 0;
  }

  lemma WholeLineRead(st: Station)
    requires Readable(st)
    ensures var r := ReadLine(st, |st.line|);
            r.end == st.end && r.heard == st.heard && NewFrames(st.reader, r.reader) == Octs(st.heard)
  {
    hide Kiss.Feed, Kiss.Undisturbed, Kiss.Ready;
    assert st.line[..|st.line|] == st.line;
  }

  lemma IntactCallback(s: Air, clock: Clock)
    requires s.x.heard != [] && Airborne(s.x.heard[0]) && Intact(s.x.heard[0])
    requires Dispatched(s.x.end.c, s.x.heard[0].f.p)
    ensures Serializable(s.x.heard[0].f.p)
    ensures var p, s1 := s.x.heard[0].f.p, s.(x := s.x.(heard := s.x.heard[1..]));
            var e := Receive(p.(fcs := CheckField(p, true)));
            Callbacks(s, [s.x.heard[0].octets], [clock]) == Stepped(s1, e, clock)
  {
    hide Parsed, Serializable, CheckField, Intact, Airborne, Stepped;
    var frame := s.x.heard[0].octets;
    WaveParses(s.x.heard[0]);
    assert Callbacks(s, [frame], [clock]) == Callback(s, frame, clock);
  }

  lemma SameImage(s: Air, st: Station)
    requires st.end == s.x.end && st.heard == s.x.heard
    ensures Image(s.(x := st)) == Image(s)
  {}

  /** A frame that nothing happens to arrives as in a session without octets. */
  lemma WholeFrameArrives(s: Air, clock: Clock)
    requires OnAir(s) && s.x.line == [] && s.yx != [] && Intact(s.yx[0]) && Dispatched(s.x.end.c, s.yx[0].f.p)
    ensures var s1 := DoX(s, Hear);
            Image(DoX(s1, Read(|s1.x.line|, [clock]))) == MoveX(Image(s), Arrive(clock))
  {
    hide Image, Sound, Readable, Airborne, Dispatched, Serializable, CheckField, Advance, Intact, Callbacks;
    hide ReadLine, NewFrames, Stepped;
    var w, s1 := s.yx[0], DoX(s, Hear);
    HearOnAir(s);
    HearImage(s);
    EmptyLine(s.x);
    assert s1.x.heard == [w];
    WholeLineRead(s1.x);
    var st := ReadLine(s1.x, |s1.x.line|);
    assert Octs([w]) == [w.octets];
    SameImage(s1, st);
    var s2 := s1.(x := st);
    assert Airborne(w) by { FirstAirborne(s); }
    IntactCallback(s2, clock);
    FirstIsGood(s2);
    SameAdvance(s.x.end, w.f.p, CheckField(w.f.p, true), clock);
    StepImage(s2.(x := s2.x.(heard := s2.x.heard[1..])), Receive(w.f.p.(fcs := CheckField(w.f.p, true))), clock);
  }

  lemma FirstAirborne(s: Air)
    requires Sound(s) && s.yx != []
    ensures Airborne(s.yx[0])
  {
    hide Airborne, Agreed, Wired;
  }

  /** A session modulo 8 has just begun between two stations with canonical callsigns; the readers are
      between frames or have not seen any. */
  predicate Begins(s: Air) {
    && Established(Net(s.x.end, s.y.end, [], []), 8) && Wired(s.x.end.c) && Wired(s.y.end.c)
    && s.xy == s.yx == s.x.heard == s.y.heard == [] && s.x.line == s.y.line == []
    && Kiss.Ready(s.x.reader) && Kiss.Ready(s.y.reader)
  }

  lemma BeginsOnAir(s: Air)
    requires Begins(s)
    ensures OnAir(s)
  {
    hide Wired, Agreed;
    EstablishedAgrees(Image(s), 8);
    UndisturbedNothing(s.x.reader);
    UndisturbedNothing(s.y.reader);
  }

  /** Main result: the two ends of a session keep their promises over the air. Whatever is requested,
      whenever timers run out, whichever frames fade and whichever are damaged in up to sixteen
      consecutive bits, and however the lines are cut into reads: each end has been given an exact prefix
      of what the other end accepted, and never loses track of the numbers. */
  lemma EndToEndOnAir(s: Air, deeds: seq<Deed>)
    requires Begins(s)
    ensures var r := Broadcast(s, deeds); var x, y := r.x.end, r.y.end;
            && Got(y) <= x.acc && Got(x) <= y.acc && x.acked <= |Got(y)| && y.acked <= |Got(x)|
            && x.c.st != AwaitingConnection && y.c.st != AwaitingConnection
  {
    hide Begins, Broadcast, OnAir;
    BeginsOnAir(s);
    BroadcastOnAir(s, deeds);
    PrefixesOnAir(Broadcast(s, deeds));
  }

  lemma PrefixesOnAir(r: Air)
    requires OnAir(r)
    ensures var x, y := r.x.end, r.y.end;
            && Got(y) <= x.acc && Got(x) <= y.acc && x.acked <= |Got(y)| && y.acked <= |Got(x)|
            && x.c.st != AwaitingConnection && y.c.st != AwaitingConnection
  {
    hide Wired, Safe, Regular, AllAirborne, Readable, Sent, Confirmed, Courteous, Good;
  }

  /** Two ends and nothing between them, with readers that have not read anything. */
  function Silent(x: End, y: End): Air {
    Air(Station(x, Kiss.START, [], []), Station(y, Kiss.START, [], []), [], [])
  }

  /** Main result: from two new connections on. One asks the other for a link over channels that lose
      frames and with T1 running, and once the session is established all its data goes over the air. */
  lemma CallOnAir(dst: string, src: string, clock: Clock, acts: seq<Handshake.Act>, deeds: seq<Deed>)
    requires Calls.CanonicalCall(dst) && Calls.CanonicalCall(src)
    requires Handshake.InSession(Handshake.DoAll(Handshake.Dialled(dst, src, clock), acts))
    ensures var s := Handshake.DoAll(Handshake.Dialled(dst, src, clock), acts);
            var r := Broadcast(Silent(Handshake.NewEnd(s.a), Handshake.NewEnd(s.b)), deeds);
            Got(r.y.end) <= r.x.end.acc && Got(r.x.end) <= r.y.end.acc
  {
    hide Broadcast, Calls.CanonicalCall, Handshake.DoAll, Handshake.Dialled, Begun;
    Handshake.EstablishedWhen(dst, src, clock, acts);
    var s := Handshake.DoAll(Handshake.Dialled(dst, src, clock), acts);
    BegunWired(Handshake.NewEnd(s.a));
    BegunWired(Handshake.NewEnd(s.b));
    EndToEndOnAir(Silent(Handshake.NewEnd(s.a), Handshake.NewEnd(s.b)), deeds);
  }

  lemma BegunWired(x: End)
    requires Begun(x, 8) && Calls.CanonicalCall(x.c.src) && Calls.CanonicalCall(x.c.dst)
    ensures Wired(x.c)
  {
    hide Safe, Regular, Calls.CanonicalCall;
  }
}
