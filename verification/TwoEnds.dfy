/** Two ends of an established session joined by two channels that lose frames but keep their order. */
module TwoEnds {
  import opened Bytes
  import opened Packets
  import opened Modular
  import opened Link
  import opened LinkInvariants
  import opened Discipline
  import opened Talk
  import opened Windows
  import opened Steps
  import opened Receiving
  import opened Ends

  datatype Net = Net(x: End, y: End, xy: seq<Flight>, yx: seq<Flight>)

  /** A move at one end: a request or a timer, the arrival of the first frame on its way there, or the
      loss of any frame that it has sent. */
  datatype Move =
    | Local(e: Event, clock: Clock)
    | Arrive(clock: Clock)
    | Lose(i: nat)

  datatype Turn = Turn(atX: bool, move: Move)

  function Flip(net: Net): Net {
    Net(net.y, net.x, net.yx, net.xy)
  }

  /** Neither end asks for a new link, and no payload is longer than the other end takes. */
  predicate Allowed(net: Net, e: Event) {
    match e
    case DlConnect(_, _) => false
    case Receive(_) => false
    case DlData(payload) => |payload| <= net.y.c.n1
    case _ => true
  }

  function Without<T>(s: seq<T>, i: nat): seq<T>
    requires i < |s|
  {
    s[..i] + s[i + 1..]
  }

  function MoveX(net: Net, move: Move): Net {
    match move
    case Local(e, clock) =>
      if !Allowed(net, e) then net
      else
        var x2 := Advance(net.x, e, clock);
        Net(x2, net.y, net.xy + Emitted(net.x, x2), net.yx)
    case Arrive(clock) =>
      if net.yx == [] then net
      else
        var x2 := Advance(net.x, Receive(net.yx[0].p), clock);
        Net(x2, net.y, net.xy + Emitted(net.x, x2), net.yx[1..])
    case Lose(i) =>
      if i < |net.xy| then net.(xy := Without(net.xy, i)) else net
  }

  function Take(net: Net, turn: Turn): Net {
    if turn.atX then MoveX(net, turn.move) else Flip(MoveX(Flip(net), turn.move))
  }

  function Play(net: Net, turns: seq<Turn>): Net
    decreases |turns|
  {
    if turns == [] then net else Play(Take(net, turns[0]), turns[1..])
  }

  // ---------------------------------------------------------------------------------------------
  // The invariant of one direction

  /** An I frame on its way from x, when the other end has received r payloads. */
  predicate InFlight(f: Flight, x: End, r: int, m: int) {
    f.p.frame.IFrame? ==>
      && f.p.commandResponse && r - 7 <= f.n < x.next <= |x.acc| && 0 <= f.n <= x.acked + 6
      && f.p.frame.ns == Mod(f.n, m) && f.p.frame.payload == x.acc[f.n]
  }

  /** A frame that follows another was never sent more than a window before it. */
  predicate Follows(f: Flight, g: Flight) {
    f.p.frame.IFrame? && g.p.frame.IFrame? ==> g.n >= f.n - 6
  }

  predicate Sent(x: End, y: End, xy: seq<Flight>, m: int) {
    && (forall i :: 0 <= i < |xy| ==> InFlight(xy[i], x, Received(y), m))
    && (forall i, j :: 0 <= i < j < |xy| ==> Follows(xy[i], xy[j]))
  }

  /** An acknowledgement on its way to x, from an end that has received r payloads. */
  predicate AckInFlight(f: Flight, x: End, r: int, m: int) {
    x.acked <= f.ack <= r && Acknowledges(f.p.frame, Mod(f.ack, m))
  }

  predicate Confirmed(x: End, y: End, yx: seq<Flight>, m: int) {
    && (forall i :: 0 <= i < |yx| ==> AckInFlight(yx[i], x, Received(y), m))
    && (forall i, j :: 0 <= i < j < |yx| ==> yx[i].ack <= yx[j].ack)
  }

  /** What the frames from x say about the end of the session. */
  predicate Courteous(f: Flight, x: End, y: End) {
    && Arriving(f.p.frame)
    && (f.p.frame.Disc? ==> x.c.st == AwaitingRelease)
    && (f.p.frame.Ua? || f.p.frame.Dm? ==> y.c.st == AwaitingRelease)
  }

  /** x has sent, y has received: y has exactly the first payloads that x accepted, and x takes for
      acknowledged only what y has received. */
  predicate Delivered(x: End, y: End) {
    && 0 <= x.acked <= Received(y) <= x.next <= |x.acc|
    && y.base <= |y.c.delivered| && y.c.delivered[y.base..] == x.acc[..Received(y)]
    && forall i :: 0 <= i < |x.acc| ==> |x.acc[i]| <= y.c.n1
  }

  predicate Direction(x: End, y: End, xy: seq<Flight>, yx: seq<Flight>, m: int) {
    Delivered(x, y) && Sent(x, y, xy, m) && Confirmed(x, y, yx, m) && forall i :: 0 <= i < |xy| ==> Courteous(xy[i], x, y)
  }

  predicate Agreed(net: Net, m: int) {
    && EndOk(net.x, m) && EndOk(net.y, m)
    && Direction(net.x, net.y, net.xy, net.yx, m)
    && Direction(net.y, net.x, net.yx, net.xy, m)
  }

  // ---------------------------------------------------------------------------------------------
  // Arrivals

  /** In an agreed state whatever arrives is welcome: no N(R) is ever out of range. */
  lemma ArrivalWelcome(net: Net, m: int)
    requires Agreed(net, m) && net.yx != []
    ensures Welcome(net.x, Receive(net.yx[0].p))
    ensures var d := AckedBy(net.x.c, Receive(net.yx[0].p));
            InData(net.x.c) ==> d == 0 || d == net.yx[0].ack - net.x.acked
  {
    hide Safe, Regular, Mod, Dist, Labelled;
    var f, x := net.yx[0], net.x;
    assert AckInFlight(f, x, Received(net.y), m) && Courteous(f, net.y, x) && InFlight(f, net.y, Received(x), m);
    if InData(x.c) {
      LabelsAre(x.c, x.acc);
      DistOfAbsolute(x.acked, f.ack, m);
      DistOfAbsolute(x.acked, x.next, m);
    }
  }

  lemma LabelsAre(c: Conn, acc: seq<Payload>)
    requires Labelled(c, acc)
    ensures c.va == Mod(Acked(c, acc), c.modulus) && c.vs == Mod(Next(c, acc), c.modulus)
  {}

  /** N(S) equal to V(R) means that the payload is the next one. */
  lemma ArrivalIsNext(net: Net, m: int)
    requires Agreed(net, m) && net.yx != [] && Delivers(net.x.c, Receive(net.yx[0].p))
    ensures net.yx[0].n == Received(net.x) < net.y.next && net.yx[0].p.frame.payload == net.y.acc[Received(net.x)]
  {
    hide Safe, Regular, Mod, Dist, Labelled, InRange, Usable;
    var f, x := net.yx[0], net.x;
    assert InFlight(f, net.y, Received(x), m);
    SameResidue(f.n, Received(x), m);
  }

  // ---------------------------------------------------------------------------------------------
  // One direction through a step of the sender

  lemma FlightsGrow(x: End, x2: End, y: End, xy: seq<Flight>, e: Event, m: int)
    requires EndOk(x, m) && Moved(x, x2, e, m) && Sent(x, y, xy, m) && 0 <= x.acked <= Received(y) <= x.next <= x.acked + 7
    ensures Sent(x2, y, xy + Emitted(x, x2), m)
  {
    hide Mod, EndOk, Arriving, Acknowledges;
    var out := Emitted(x, x2);
    var all := xy + out;
    EndBounds(x2, m);
    forall i | 0 <= i < |all| ensures InFlight(all[i], x2, Received(y), m) {
      if i < |xy| {
        assert InFlight(xy[i], x, Received(y), m);
      } else {
        assert Sound(out[i - |xy|], x2, m);
      }
    }
    forall i, j | 0 <= i < j < |all| ensures Follows(all[i], all[j]) {
      if j < |xy| {
        assert Follows(xy[i], xy[j]);
      } else {
        assert Sound(out[j - |xy|], x2, m);
        if i < |xy| {
          assert InFlight(xy[i], x, Received(y), m);
        }
      }
    }
  }

  lemma EndBounds(x: End, m: int)
    requires EndOk(x, m)
    ensures 0 <= x.acked <= x.next <= x.acked + 7 && x.next <= |x.acc|
  {}

  lemma SenderMoves(x: End, x2: End, y: End, yx: seq<Flight>, rest: seq<Flight>, e: Event, m: int)
    requires EndOk(x, m) && Moved(x, x2, e, m) && Delivered(x, y) && Confirmed(x, y, yx, m)
    requires e.DlData? ==> |e.payload| <= y.c.n1
    requires rest == yx || (yx != [] && rest == yx[1..])
    requires x2.acked == x.acked || (yx != [] && rest == yx[1..] && x2.acked == yx[0].ack)
    ensures Delivered(x2, y) && Confirmed(x2, y, rest, m)
  {
    hide Mod, EndOk, Sound, Acknowledges, Delivers;
    EndBounds(x2, m);
    if x2.acked != x.acked {
      assert AckInFlight(yx[0], x, Received(y), m);
    }
    forall i | 0 <= i < |rest| ensures AckInFlight(rest[i], x2, Received(y), m) {
      if rest == yx {
        assert AckInFlight(yx[i], x, Received(y), m);
      } else {
        assert AckInFlight(yx[i + 1], x, Received(y), m);
        assert yx[0].ack <= yx[i + 1].ack;
      }
    }
    forall i, j | 0 <= i < j < |rest| ensures rest[i].ack <= rest[j].ack {
      if rest != yx {
        assert yx[i + 1].ack <= yx[j + 1].ack;
      }
    }
    forall i | 0 <= i < |x2.acc| ensures |x2.acc[i]| <= y.c.n1 {
      if i < |x.acc| {
        assert x2.acc[i] == x.acc[i];
      }
    }
    assert x2.acc[..Received(y)] == x.acc[..Received(y)];
  }

  // ---------------------------------------------------------------------------------------------
  // The other direction through the same step, in which its receiver moves

  lemma ReceiverDelivers(y: End, x: End, x2: End, yx: seq<Flight>, rest: seq<Flight>, e: Event, m: int)
    requires Moved(x, x2, e, m) && Delivered(y, x) && Sent(y, x, yx, m) && y.next <= y.acked + 7
    requires rest == yx || (yx != [] && rest == yx[1..])
    requires Delivers(x.c, e) ==>
               && yx != [] && rest == yx[1..] && yx[0].p == e.p && yx[0].n == Received(x) < y.next
               && e.p.frame.payload == y.acc[Received(x)]
    ensures Delivered(y, x2) && Sent(y, x2, rest, m)
  {
    hide Mod, EndOk, Sound, Acknowledges, InRange, Usable;
    if Delivers(x.c, e) {
      assert x2.c.delivered[x2.base..] == x.c.delivered[x.base..] + [e.p.frame.payload];
      assert y.acc[..Received(x) + 1] == y.acc[..Received(x)] + [y.acc[Received(x)]];
    }
    forall i | 0 <= i < |rest| ensures InFlight(rest[i], y, Received(x2), m) {
      if rest == yx {
        assert InFlight(yx[i], y, Received(x), m);
      } else {
        assert InFlight(yx[i + 1], y, Received(x), m);
        assert Follows(yx[0], yx[i + 1]);
      }
    }
    forall i, j | 0 <= i < j < |rest| ensures Follows(rest[i], rest[j]) {
      if rest != yx {
        assert Follows(yx[i + 1], yx[j + 1]);
      }
    }
  }

  lemma ConfirmedGrows(y: End, x: End, x2: End, xy: seq<Flight>, e: Event, m: int)
    requires Moved(x, x2, e, m) && Confirmed(y, x, xy, m) && y.acked <= Received(x)
    ensures Confirmed(y, x2, xy + Emitted(x, x2), m)
  {
    hide Mod, EndOk, Acknowledges, Arriving, Delivers;
    var out := Emitted(x, x2);
    var all := xy + out;
    forall i | 0 <= i < |all| ensures AckInFlight(all[i], y, Received(x2), m) {
      if i < |xy| {
        assert AckInFlight(xy[i], y, Received(x), m);
      } else {
        assert Sound(out[i - |xy|], x2, m);
      }
    }
    forall i, j | 0 <= i < j < |all| ensures all[i].ack <= all[j].ack {
      if i < |xy| {
        assert AckInFlight(xy[i], y, Received(x), m);
      } else {
        assert Sound(out[i - |xy|], x2, m);
      }
      if j >= |xy| {
        assert Sound(out[j - |xy|], x2, m);
      }
    }
  }

  lemma CourtesyKept(x: End, x2: End, y: End, xy: seq<Flight>, yx: seq<Flight>, rest: seq<Flight>, e: Event, m: int)
    requires Moved(x, x2, e, m)
    requires forall i :: 0 <= i < |xy| ==> Courteous(xy[i], x, y)
    requires forall i :: 0 <= i < |yx| ==> Courteous(yx[i], y, x)
    requires rest == yx || (yx != [] && rest == yx[1..])
    requires e.Receive? ==> yx != [] && e.p == yx[0].p
    ensures var all := xy + Emitted(x, x2); forall i :: 0 <= i < |all| ==> Courteous(all[i], x2, y)
    ensures forall i :: 0 <= i < |rest| ==> Courteous(rest[i], y, x2)
  {
    hide Mod, EndOk, Acknowledges, Arriving, Delivers;
    var out := Emitted(x, x2);
    var all := xy + out;
    forall i | 0 <= i < |all| ensures Courteous(all[i], x2, y) {
      if i < |xy| {
        assert Courteous(xy[i], x, y);
      } else {
        assert Sound(out[i - |xy|], x2, m);
        if out[i - |xy|].p.frame.Ua? || out[i - |xy|].p.frame.Dm? {
          assert Courteous(yx[0], y, x);
        }
      }
    }
    forall i | 0 <= i < |rest| ensures Courteous(rest[i], y, x2) {
      assert rest[i] == if rest == yx then yx[i] else yx[i + 1];
    }
  }

  // ---------------------------------------------------------------------------------------------
  // Moves

  lemma LocalAgrees(net: Net, e: Event, clock: Clock, m: int)
    requires Agreed(net, m) && Allowed(net, e)
    ensures Agreed(MoveX(net, Local(e, clock)), m)
  {
    hide EndOk, Moved, Delivered, Sent, Confirmed, Courteous, Advance;
    var x2 := Advance(net.x, e, clock);
    AdvanceMoves(net.x, e, clock, m);
    EventAgrees(net, x2, e, net.yx, m);
  }

  lemma ArriveAgrees(net: Net, clock: Clock, m: int)
    requires Agreed(net, m) && net.yx != []
    ensures Agreed(MoveX(net, Arrive(clock)), m)
  {
    hide EndOk, Moved, Delivered, Sent, Confirmed, Courteous, Advance, Welcome, Delivers;
    var e := Receive(net.yx[0].p);
    var x2 := Advance(net.x, e, clock);
    ArrivalWelcome(net, m);
    AdvanceMoves(net.x, e, clock, m);
    if Delivers(net.x.c, e) {
      ArrivalIsNext(net, m);
    }
    EventAgrees(net, x2, e, net.yx[1..], m);
  }

  lemma EventAgrees(net: Net, x2: End, e: Event, rest: seq<Flight>, m: int)
    requires Agreed(net, m) && Moved(net.x, x2, e, m)
    requires rest == net.yx || (net.yx != [] && rest == net.yx[1..])
    requires e.DlData? ==> |e.payload| <= net.y.c.n1
    requires e.Receive? ==> net.yx != [] && rest == net.yx[1..] && e.p == net.yx[0].p
    requires e.Receive? && InData(net.x.c) ==> AckedBy(net.x.c, e) == 0 || AckedBy(net.x.c, e) == net.yx[0].ack - net.x.acked
    requires Delivers(net.x.c, e) ==>
               net.yx[0].n == Received(net.x) < net.y.next && e.p.frame.payload == net.y.acc[Received(net.x)]
    ensures Agreed(Net(x2, net.y, net.xy + Emitted(net.x, x2), rest), m)
  {
    hide Sent, Confirmed, Courteous, Sound, Delivers, AckedBy;
    var x, y := net.x, net.y;
    EndBounds(x, m);
    EndBounds(y, m);
    assert EndOk(x2, m) && x2.c.n1 == x.c.n1 by { hide EndOk; }
    assert Direction(x2, y, net.xy + Emitted(x, x2), rest, m) by {
      hide EndOk, Moved;
      MovedAcks(x, x2, e, m);
      FlightsGrow(x, x2, y, net.xy, e, m);
      SenderMoves(x, x2, y, net.yx, rest, e, m);
      CourtesyKept(x, x2, y, net.xy, net.yx, rest, e, m);
    }
    assert Direction(y, x2, rest, net.xy + Emitted(x, x2), m) by {
      hide EndOk, Moved;
      if Delivers(x.c, e) {
        OnlyReceived(x.c, e);
      }
      ReceiverDelivers(y, x, x2, net.yx, rest, e, m);
      ConfirmedGrows(y, x, x2, net.xy, e, m);
      CourtesyKept(x, x2, y, net.xy, net.yx, rest, e, m);
    }
  }

  lemma OnlyReceived(c: Conn, e: Event)
    requires Delivers(c, e)
    ensures e.Receive?
  {}

  lemma MovedAcks(x: End, x2: End, e: Event, m: int)
    requires Moved(x, x2, e, m)
    ensures x2.acked == x.acked || (InData(x.c) && e.Receive? && x2.acked == x.acked + AckedBy(x.c, e))
  {}

  lemma LoseSent(x: End, y: End, xy: seq<Flight>, i: nat, m: int)
    requires i < |xy| && Sent(x, y, xy, m)
    ensures Sent(x, y, Without(xy, i), m)
  {
    hide InFlight, Follows;
    var rest := Without(xy, i);
    forall j | 0 <= j < |rest| ensures InFlight(rest[j], x, Received(y), m) {
      assert rest[j] == xy[if j < i then j else j + 1];
    }
    forall j, k | 0 <= j < k < |rest| ensures Follows(rest[j], rest[k]) {
      assert rest[j] == xy[if j < i then j else j + 1] && rest[k] == xy[if k < i then k else k + 1];
    }
  }

  lemma LoseConfirmed(y: End, x: End, xy: seq<Flight>, i: nat, m: int)
    requires i < |xy| && Confirmed(y, x, xy, m)
    ensures Confirmed(y, x, Without(xy, i), m)
  {
    hide AckInFlight;
    var rest := Without(xy, i);
    forall j | 0 <= j < |rest| ensures AckInFlight(rest[j], y, Received(x), m) {
      assert rest[j] == xy[if j < i then j else j + 1];
    }
    forall j, k | 0 <= j < k < |rest| ensures rest[j].ack <= rest[k].ack {
      assert rest[j] == xy[if j < i then j else j + 1] && rest[k] == xy[if k < i then k else k + 1];
    }
  }

  lemma LoseAgrees(net: Net, i: nat, m: int)
    requires Agreed(net, m) && i < |net.xy|
    ensures Agreed(net.(xy := Without(net.xy, i)), m)
  {
    hide EndOk, Delivered, Sent, Confirmed, Courteous;
    LoseSent(net.x, net.y, net.xy, i, m);
    LoseConfirmed(net.y, net.x, net.xy, i, m);
    var rest := Without(net.xy, i);
    forall j | 0 <= j < |rest| ensures Courteous(rest[j], net.x, net.y) {
      assert rest[j] == net.xy[if j < i then j else j + 1];
    }
  }

  lemma MoveAgrees(net: Net, move: Move, m: int)
    requires Agreed(net, m)
    ensures Agreed(MoveX(net, move), m)
  {
    hide Agreed, Advance, Emitted, Without, Allowed;
    match move
    case Local(e, clock) => if Allowed(net, e) { LocalAgrees(net, e, clock, m); }
    case Arrive(clock) => if net.yx != [] { ArriveAgrees(net, clock, m); }
    case Lose(i) => if i < |net.xy| { LoseAgrees(net, i, m); }
  }

  lemma FlipAgrees(net: Net, m: int)
    requires Agreed(net, m)
    ensures Agreed(Flip(net), m)
  {
    hide EndOk, Direction;
  }

  lemma {:induction false} PlayAgrees(net: Net, turns: seq<Turn>, m: int)
    requires Agreed(net, m)
    ensures Agreed(Play(net, turns), m)
    decreases |turns|
  {
    hide Agreed, MoveX;
    if turns != [] {
      FlipAgrees(net, m);
      MoveAgrees(net, turns[0].move, m);
      MoveAgrees(Flip(net), turns[0].move, m);
      FlipAgrees(MoveX(Flip(net), turns[0].move), m);
      PlayAgrees(Take(net, turns[0]), turns[1..], m);
    }
  }

  // ---------------------------------------------------------------------------------------------
  // Established sessions

  /** An end that has just begun a session with empty queues. */
  predicate Begun(x: End, m: int) {
    && Safe(x.c) && Regular(x.c) && x.c.st == Connected && x.c.modulus == m
    && x.c.vs == x.c.va == x.c.vr == 0 && x.c.queue == [] && x.c.resend == []
    && x.acc == [] && x.acked == 0 && x.next == 0 && x.base == |x.c.delivered|
  }

  predicate Established(net: Net, m: int) {
    (m == 8 || m == 128) && Begun(net.x, m) && Begun(net.y, m) && net.xy == [] && net.yx == []
  }

  lemma EstablishedAgrees(net: Net, m: int)
    requires Established(net, m)
    ensures Agreed(net, m)
  {
    hide Safe, Regular;
    BegunOk(net.x, m);
    BegunOk(net.y, m);
  }

  lemma BegunOk(x: End, m: int)
    requires Begun(x, m) && (m == 8 || m == 128)
    ensures EndOk(x, m)
  {
    hide Regular;
  }

  function Got(x: End): seq<Payload> {
    if 0 <= x.base <= |x.c.delivered| then x.c.delivered[x.base..] else []
  }

  /** Main result: in every state that an established session can reach, each end has been given an
      exact prefix of what the other end accepted, only what was delivered counts as acknowledged, and
      neither end has lost track of the numbers and asked for a new link. */
  lemma EndToEnd(net: Net, turns: seq<Turn>, m: int)
    requires Established(net, m)
    ensures var r := Play(net, turns);
            && Got(r.y) <= r.x.acc && Got(r.x) <= r.y.acc
            && r.x.acked <= |Got(r.y)| && r.y.acked <= |Got(r.x)|
            && r.x.c.st != AwaitingConnection && r.y.c.st != AwaitingConnection
  {
    hide Safe, Regular, Play, Established, Sent, Confirmed, Courteous, Labelled;
    EstablishedAgrees(net, m);
    PlayAgrees(net, turns, m);
  }
}
