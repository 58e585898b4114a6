/** The arithmetic behind T1's period. */
module Timing {
  import opened Packets
  import opened Link
  import opened Discipline
  import opened Connections

  /** The time from T1's start to its stop. */
  function Measured(c: Conn, clock: Clock): int {
    if clock.left > 0 then c.t1.ms - clock.left else c.t1.ms
  }

  /** An eighth of the new and seven eighths of the old, within 100 to 10000 ms, in whole milliseconds. */
  function Smoothed(srt: int, x: int): int {
    var t := 7 * srt + x;
    if t < 800 then 100 else if t > 80000 then 10000 else t / 8
  }

  function Twofold(srt: int): int {
    if srt > 5000 then 10000 else 2 * srt
  }

  /** Smoothing in eighths is smoothing in whole milliseconds. */
  lemma SmoothingInIntegers(c: Conn, clock: Clock)
    requires c.rc == 0 && c.srt == c.srt.Floor as real
    ensures NewSrt(c, clock) == Smoothed(c.srt.Floor, Measured(c, clock)) as real
    ensures NewPeriod(c, clock) == Twofold(Smoothed(c.srt.Floor, Measured(c, clock)))
  {
    SmoothingClamped(c, clock);
  }

  lemma SmoothingClamped(c: Conn, clock: Clock)
    requires c.rc == 0 && c.srt == c.srt.Floor as real
    ensures NewSrt(c, clock) == Clamp((7 * c.srt.Floor + Elapsed(c, clock)) / 8) as real
    ensures NewPeriod(c, clock) == Clamp(2 * NewSrt(c, clock).Floor)
  {
    hide Elapsed;
    var s, x := c.srt.Floor, Elapsed(c, clock);
    Eighths(7 * s + x);
    var y := 7.0 / 8.0 * c.srt + 1.0 / 8.0 * (x as real);
    assert y == (7 * s + x) as real / 8.0;
    assert Clamp(Trunc(y)) == Clamp((7 * s + x) / 8);
    Whole(Clamp((7 * s + x) / 8));
  }

  lemma Eighths(n: int)
    ensures Clamp(Trunc(n as real / 8.0)) == Clamp(n / 8)
  {
    var q, r := n / 8, n % 8;
    assert n == 8 * q + r;
    assert n as real / 8.0 == q as real + r as real / 8.0;
    assert (n as real / 8.0).Floor == q;
  }

  lemma Whole(n: nat)
    ensures (n as real).Floor == n && Trunc(n as real * 2.0) == 2 * n
  {
    assert n as real * 2.0 == (2 * n) as real;
  }

  function Power(n: nat): nat {
    if n == 0 then 1 else 2 * Power(n - 1)
  }

  lemma {:induction false} DoubledIs(n: nat, x: nat)
    ensures Doubled(n, x as real) == (Power(n) * x) as real
  {
    if n > 0 {
      DoubledIs(n - 1, 2 * x);
      assert 2.0 * x as real == (2 * x) as real;
      assert Power(n - 1) * (2 * x) == Power(n) * x;
    }
  }

  /** The back-off that the program describes, were it reached: the round-trip time doubled once more than
      there were retries. */
  lemma BackOffIs(c: Conn, clock: Clock)
    requires c.rc > 0 && c.t1.running && clock.overdue && 100.0 <= c.srt && c.srt == c.srt.Floor as real
    ensures NewPeriod(c, clock) ==
              if Power(c.rc + 1) * c.srt.Floor > 10000 then 10000 else Power(c.rc + 1) * c.srt.Floor
  {
    var s := c.srt.Floor;
    DoubledIs(c.rc + 1, s);
    PowerGrows(c.rc + 1);
    var x := Power(c.rc + 1) * s;
    assert x >= 1 * s by { Larger(Power(c.rc + 1), s); }
    assert (x as real).Floor == x;
  }

  lemma Larger(a: nat, s: nat)
    requires a >= 1
    ensures a * s >= s
  {}

  lemma {:induction false} PowerGrows(n: nat)
    ensures Power(n) >= 1
  {
    if n > 0 {
      PowerGrows(n - 1);
    }
  }

  /** A whole number of eighths with a numerator below 2^53, which an IEEE 754 double holds exactly. */
  predicate ExactDouble(v: real) {
    exists n: int :: -0x20_0000_0000_0000 < n < 0x20_0000_0000_0000 && IsEighths(v, n)
  }

  predicate IsEighths(v: real, n: int) {
    v == n as real / 8.0
  }

  /** Every value that the estimate passes through is exact, so that no rounding takes place. */
  lemma SmoothingIsExact(c: Conn, clock: Clock)
    requires Regular(c) && c.st != Disconnected && -0x8000_0000 <= clock.left < 0x8000_0000
    ensures ExactDouble(7.0 / 8.0) && ExactDouble(1.0 / 8.0) && ExactDouble(c.srt) && ExactDouble(Elapsed(c, clock) as real)
    ensures ExactDouble(7.0 / 8.0 * c.srt) && ExactDouble(1.0 / 8.0 * (Elapsed(c, clock) as real))
    ensures ExactDouble(7.0 / 8.0 * c.srt + 1.0 / 8.0 * (Elapsed(c, clock) as real))
    ensures ExactDouble(NewSrt(c, clock) * 2.0)
  {
    var s, x := c.srt.Floor, Elapsed(c, clock);
    NewSrtWhole(c, clock);
    var t := NewSrt(c, clock).Floor;
    assert IsEighths(7.0 / 8.0, 7) && IsEighths(1.0 / 8.0, 1);
    assert IsEighths(c.srt, 8 * s) && IsEighths(x as real, 8 * x);
    assert IsEighths(7.0 / 8.0 * c.srt, 7 * s) && IsEighths(1.0 / 8.0 * (x as real), x);
    assert IsEighths(7.0 / 8.0 * c.srt + 1.0 / 8.0 * (x as real), 7 * s + x);
    assert IsEighths(NewSrt(c, clock) * 2.0, 16 * t);
  }

  lemma NewSrtWhole(c: Conn, clock: Clock)
    requires Regular(c) && c.st != Disconnected
    ensures 100 <= NewSrt(c, clock).Floor <= 10000 && NewSrt(c, clock) == NewSrt(c, clock).Floor as real
  {
    hide Trunc;
    SelectT1Bounds(c, clock);
  }

  /** Shifting by the retry count stays far below the range of int. */
  lemma BackOffFits(c: Conn)
    requires Regular(c) && c.st != Disconnected
    ensures 0 <= ShiftTwo(c.rc) * c.srt.Floor < 0x8000_0000
    ensures ShiftTwo(c.rc) as real * c.srt == (ShiftTwo(c.rc) * c.srt.Floor) as real
  {
    ShiftGrows(c.rc);
    Product(ShiftTwo(c.rc), c.srt.Floor);
  }

  lemma Product(f: nat, s: nat)
    requires f <= 2048 && s <= 10000
    ensures f * s < 0x8000_0000 && f as real * s as real == (f * s) as real
  {
    assert f * s <= 2048 * s;
  }

  lemma {:induction false} ShiftGrows(rc: nat)
    requires rc <= 10
    ensures 2 <= ShiftTwo(rc) <= 2048
    ensures rc < 10 ==> ShiftTwo(rc) <= 1024
    ensures rc < 9 ==> ShiftTwo(rc) <= 512
  {
    assert ShiftTwo(10) == 2 * ShiftTwo(9) == 4 * ShiftTwo(8) == 8 * ShiftTwo(7) == 16 * ShiftTwo(6) == 32 * ShiftTwo(5);
    assert ShiftTwo(5) == 64;
  }

  /** T1 has always been stopped when its period is chosen. */
  lemma StoppedHasNoDeadline(c: Conn, clock: Clock, overdue: bool)
    requires !c.t1.running
    ensures SelectT1(c, clock) == SelectT1(c, clock.(overdue := overdue))
  {}

  /** Main result: the exponential back-off of select_t1_value is never reached, because whether T1
      is overdue makes no difference to any event. */
  lemma BackOffIsDead(c: Conn, e: Event, clock: Clock, overdue: bool)
    ensures Step(c, e, clock) == Step(c, e, clock.(overdue := overdue))
  {
    hide Poll, SelectT1, InRange, UpdateAck, InvokeRetransmission, AcceptIframe, Reestablish;
    if Enabled(c, e) {
      match e
      case Receive(p) => PacketIgnoresDeadline(c, p, clock, overdue);
      case T1Expires => T1IgnoresDeadline(c, clock, overdue);
      case _ =>
    }
  }

  lemma T1IgnoresDeadline(c: Conn, clock: Clock, overdue: bool)
    ensures OnT1(StopT1(c), clock) == OnT1(StopT1(c), clock.(overdue := overdue))
  {
    hide SelectT1;
    var d := StopT1(c);
    StoppedHasNoDeadline(Send(d.(rc := d.rc + 1), Plain(Sabm(true), false)), clock, overdue);
  }

  lemma PacketIgnoresDeadline(c: Conn, p: Packet, clock: Clock, overdue: bool)
    requires Handled(p.frame)
    ensures OnPacket(c, p, clock) == OnPacket(c, p, clock.(overdue := overdue))
  {
    hide SelectT1, CheckIframeAcked, OnRrConnected, OnFinal, Reestablish, UpdateAck, InRange, AcceptIframe, OnUaAwaiting;
    match p.frame
    case Ua(_) => UaIgnoresDeadline(c, clock, overdue);
    case Rr(nr, poll) =>
      RrIgnoresDeadline(c, nr, poll, p.commandResponse, clock, overdue);
      FinalIgnoresDeadline(c.(peerReceiverBusy := false), nr, clock, overdue);
    case IFrame(nr, _, _, _, _, _) => AckIgnoresDeadline(c, nr, clock, overdue);
    case _ =>
  }

  lemma UaIgnoresDeadline(c: Conn, clock: Clock, overdue: bool)
    ensures OnUaAwaiting(c, clock) == OnUaAwaiting(c, clock.(overdue := overdue))
  {
    hide SelectT1;
    var kept := if !c.layer3Initiated && c.vs != c.va then ClearQueues(c) else c;
    StoppedHasNoDeadline(StopT3(StopT1(kept)).(vs := 0, va := 0, vr := 0), clock, overdue);
  }

  lemma AckIgnoresDeadline(c: Conn, nr: int, clock: Clock, overdue: bool)
    ensures CheckIframeAcked(c, nr, clock) == CheckIframeAcked(c, nr, clock.(overdue := overdue))
  {
    hide SelectT1, UpdateAck;
    StoppedHasNoDeadline(StartT3(StopT1(UpdateAck(c, nr))), clock, overdue);
  }

  lemma RrIgnoresDeadline(c: Conn, nr: int, poll: bool, command: bool, clock: Clock, overdue: bool)
    ensures OnRrConnected(c, nr, poll, command, clock) == OnRrConnected(c, nr, poll, command, clock.(overdue := overdue))
  {
    hide CheckIframeAcked, Reestablish, InRange, EnquiryResponse;
    var free := c.(peerReceiverBusy := false);
    var answered := if command && poll then EnquiryResponse(free, true) else free;
    AckIgnoresDeadline(answered, nr, clock, overdue);
  }

  lemma FinalIgnoresDeadline(c: Conn, nr: int, clock: Clock, overdue: bool)
    ensures OnFinal(c, nr, clock) == OnFinal(c, nr, clock.(overdue := overdue))
  {
    hide SelectT1, Reestablish, InRange, UpdateAck, InvokeRetransmission;
    StoppedHasNoDeadline(StopT1(c), clock, overdue);
  }
}
