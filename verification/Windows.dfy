/** The sending window in absolute numbers: the i-th payload that a session accepts is number i, and
    every I frame carries its payload's number modulo the modulus. */
module Windows {
  import opened Bytes
  import opened Packets
  import opened Modular
  import opened Link
  import opened LinkInvariants
  import opened Discipline
  import opened Talk

  type Payload = seq<byte>

  /** How many of the accepted payloads are acknowledged. */
  function Acked(c: Conn, acc: seq<Payload>): int {
    |acc| - |c.resend|
  }

  /** The number of the next payload to send. */
  function Next(c: Conn, acc: seq<Payload>): int {
    |acc| - |c.queue|
  }

  /** The queues are the unacknowledged and the unsent part of what was accepted, and the state
      variables are where they begin. */
  predicate InStep(c: Conn, acc: seq<Payload>) {
    && |c.queue| <= |c.resend| <= |acc|
    && c.resend == acc[Acked(c, acc)..] && c.queue == acc[Next(c, acc)..]
    && c.va == Mod(Acked(c, acc), c.modulus) && c.vs == Mod(Next(c, acc), c.modulus)
    && Next(c, acc) - Acked(c, acc) <= c.k
  }

  /** Between events, moreover, the window is full or nothing waits. */
  predicate Labelled(c: Conn, acc: seq<Payload>) {
    InStep(c, acc) && (c.queue == [] || Next(c, acc) - Acked(c, acc) == c.k)
  }

  /** An I frame with payload number n. */
  predicate Carries(p: Packet, c: Conn, acc: seq<Payload>, n: int) {
    && 0 <= Acked(c, acc) <= n < |acc|
    && p.frame.IFrame? && p.frame.ns == Mod(n, c.modulus) && p.frame.payload == acc[n]
  }

  /** The last frames since c are consecutive I frames that end just before V(S); before them there
      are only control frames. */
  predicate InSequence(c: Conn, d: Conn, acc: seq<Payload>) {
    |c.sent| <= |d.sent| &&
    forall j :: |c.sent| <= j < |d.sent| && d.sent[j].frame.IFrame? ==>
      Carries(d.sent[j], d, acc, Next(d, acc) - (|d.sent| - j))
  }

  lemma OutstandingIs(c: Conn, acc: seq<Payload>)
    requires Safe(c) && InData(c) && InStep(c, acc)
    ensures Outstanding(c) == Next(c, acc) - Acked(c, acc)
  {
    hide Mod, Dist;
    DistOfAbsolute(Acked(c, acc), Next(c, acc), c.modulus);
  }

  lemma NthCarries(mid: Conn, acc: seq<Payload>, i: nat)
    requires Safe(mid) && InData(mid) && InStep(mid, acc) && i < PollCount(mid)
    ensures var n := Next(mid, acc) + i;
            && 0 <= Acked(mid, acc) <= n < |acc|
            && NthFrame(mid, i).frame.IFrame?
            && NthFrame(mid, i).frame.ns == Mod(n, mid.modulus) && NthFrame(mid, i).frame.payload == acc[n]
  {
    hide Mod, Dist, Addressed;
    ModModAdd(Next(mid, acc), i, mid.modulus);
    NthIs(mid, i);
  }

  /** The frame that leaves no room in the window is the one that asks for an answer. */
  lemma NthPolls(mid: Conn, i: nat)
    requires Safe(mid) && InData(mid) && i < PollCount(mid)
    ensures NthFrame(mid, i).frame.IFrame?
    ensures NthFrame(mid, i).frame.poll <==> Outstanding(mid) + i + 1 == mid.k
  {
    hide Mod, Dist, NthFrame, Safe;
    NthIs(mid, i);
    HasModulus(mid);
    WindowSize(mid);
    var o, m := Outstanding(mid), mid.modulus;
    PollFits(mid);
    StepsLead(mid.va, mid.vs, m);
    ModModAdd(mid.va + o, i, m);
    ModTurn(mid.va + mid.k - 1, m);
    assert mid.va + mid.k + m - 1 == mid.va + mid.k - 1 + m;
    if Mod(mid.va + o + i, m) == Mod(mid.va + mid.k - 1, m) {
      SameResidue(mid.va + o + i, mid.va + mid.k - 1, m);
    }
  }

  lemma PollFits(c: Conn)
    requires Safe(c) && InData(c)
    ensures 0 <= Outstanding(c) && Outstanding(c) + PollCount(c) <= c.k
  {}

  lemma NthIs(c: Conn, i: nat)
    requires i < |c.queue|
    ensures var f := NthFrame(c, i).frame;
            && f.IFrame? && f.ns == Mod(c.vs + i, c.modulus) && f.payload == c.queue[i]
            && f.poll == (f.ns == Mod(c.va + c.k + c.modulus - 1, c.modulus))
  {
    hide Mod;
  }

  /** Draining the queue sends the next payloads in order and leaves the window full or nothing to
      send. */
  lemma PollLabels(c: Conn, mid: Conn, acc: seq<Payload>)
    requires Safe(mid) && InData(mid) && InStep(mid, acc) && !mid.peerReceiverBusy && Answered(c, mid)
    ensures Labelled(Poll(mid), acc) && InSequence(c, Poll(mid), acc)
    ensures Acked(Poll(mid), acc) == Acked(mid, acc) && Next(Poll(mid), acc) == Next(mid, acc) + PollCount(mid)
  {
    hide Mod, Dist, NthFrame, Safe;
    var n := PollCount(mid);
    var d := Sending(mid, n);
    OutstandingIs(mid, acc);
    PollCountIs(mid);
    ModModAdd(Next(mid, acc), n, mid.modulus) by { HasModulus(mid); }
    assert d.queue == acc[Next(mid, acc) + n..];
    forall j | |c.sent| <= j < |d.sent| && d.sent[j].frame.IFrame?
      ensures Carries(d.sent[j], d, acc, Next(d, acc) - (|d.sent| - j))
    {
      if j >= |mid.sent| {
        NthCarries(mid, acc, j - |mid.sent|);
        assert d.sent[j] == NthFrame(mid, j - |mid.sent|);
      }
    }
  }

  lemma HasModulus(c: Conn)
    requires Safe(c) && InData(c)
    ensures c.modulus > 0 && 0 <= c.va < c.modulus && 0 <= c.vs < c.modulus && c.k < c.modulus
  {}

  lemma PollCountIs(c: Conn)
    requires !c.peerReceiverBusy && Outstanding(c) <= c.k
    ensures PollCount(c) == if |c.queue| < c.k - Outstanding(c) then |c.queue| else c.k - Outstanding(c)
  {}

  lemma EmptyPoll(c: Conn)
    requires c.queue == []
    ensures Poll(c) == c
  {
    hide Mod;
    assert PollCount(c) == 0;
    assert c.queue[0..] == [] && c.sent + Burst(c, 0) == c.sent;
  }

  /** Where the queue was drained already, draining it again changes nothing. */
  lemma FullPoll(c: Conn, mid: Conn)
    requires Conserving(c) && InData(c) && SameQueues(c, mid)
    ensures Poll(mid) == mid
  {
    hide Mod, Dist;
    assert PollCount(mid) == 0;
    assert mid.queue[0..] == mid.queue && mid.sent + Burst(mid, 0) == mid.sent;
  }

  // ---------------------------------------------------------------------------------------------
  // Handlers

  predicate SameQueues(c: Conn, d: Conn) {
    && d.queue == c.queue && d.resend == c.resend && d.va == c.va && d.vs == c.vs
    && d.modulus == c.modulus && d.k == c.k
  }

  lemma SameQueuesInStep(c: Conn, d: Conn, acc: seq<Payload>)
    requires InStep(c, acc) && SameQueues(c, d)
    ensures InStep(d, acc) && Acked(d, acc) == Acked(c, acc) && Next(d, acc) == Next(c, acc)
  {}

  /** An accepted N(R) acknowledges exactly the payloads before it. */
  lemma AckInStep(c: Conn, acc: seq<Payload>, nr: int)
    requires Safe(c) && InData(c) && InStep(c, acc) && InRange(c.va, nr, c.vs, c.modulus)
    ensures var d := UpdateAck(c, nr);
            && InStep(d, acc) && Acked(d, acc) == Acked(c, acc) + Dist(c.va, nr, c.modulus) && Next(d, acc) == Next(c, acc)
  {
    hide Mod, Safe, Dist;
    AckSafe(c, nr);
    OutstandingIs(c, acc);
    HasModulus(c);
    var d, a := Dist(c.va, nr, c.modulus), Acked(c, acc);
    assert nr == Mod(a + d, c.modulus) by {
      StepsLead(c.va, nr, c.modulus);
      ModModAdd(a, d, c.modulus);
    }
    assert c.resend[d..] == acc[a + d..];
  }

  /** Dist(a, b) steps from a do lead to b. */
  lemma StepsLead(a: int, b: int, m: int)
    requires 0 <= a < m && 0 <= b < m
    ensures Mod(a + Dist(a, b, m), m) == b
  {
    DistNear(a, b, m);
    ModNear(a + Dist(a, b, m), m);
  }

  lemma RetransmissionInStep(c: Conn, acc: seq<Payload>, nr: int)
    requires InStep(c, acc) && nr == c.va && c.k >= 0
    ensures var d := InvokeRetransmission(c, nr);
            InStep(d, acc) && Acked(d, acc) == Acked(c, acc) && Next(d, acc) == Acked(c, acc)
  {}

  lemma CheckAckInStep(c: Conn, acc: seq<Payload>, nr: int, clock: Clock)
    requires Safe(c) && InData(c) && InStep(c, acc) && InRange(c.va, nr, c.vs, c.modulus)
    ensures var d := CheckIframeAcked(c, nr, clock);
            && InStep(d, acc) && Acked(d, acc) == Acked(c, acc) + Dist(c.va, nr, c.modulus) && Next(d, acc) == Next(c, acc)
  {
    hide Safe, InStep, InRange, NewSrt, NewPeriod, UpdateAck, Mod, Dist;
    AckInStep(c, acc, nr);
    var u := UpdateAck(c, nr);
    if nr == c.va {
      DistSelf(c);
    }
    if c.peerReceiverBusy {
      SameQueuesInStep(u, StartT1(StartT3(u)), acc);
    } else if nr == c.vs {
      SameQueuesInStep(u, SelectT1(StartT3(StopT1(u)), clock), acc);
    } else if nr != c.va {
      SameQueuesInStep(u, StartT1(u), acc);
    }
  }

  lemma DistSelf(c: Conn)
    requires Safe(c) && InData(c)
    ensures Dist(c.va, c.va, c.modulus) == 0
  {
    DistNear(c.va, c.va, c.modulus);
  }

  /** What handling an event does to the window of a session that goes on. */
  predicate Kept(c: Conn, mid: Conn, acc: seq<Payload>, acked: int) {
    InStep(mid, acc) && Acked(mid, acc) == Acked(c, acc) + acked
  }

  lemma RrConnectedInStep(c: Conn, acc: seq<Payload>, nr: int, poll: bool, command: bool, clock: Clock)
    requires Safe(c) && c.st == Connected && InStep(c, acc)
    ensures var mid := OnRrConnected(c, nr, poll, command, clock);
            && InData(mid) == InRange(c.va, nr, c.vs, c.modulus)
            && (InData(mid) ==> Kept(c, mid, acc, Dist(c.va, nr, c.modulus)) && Next(mid, acc) == Next(c, acc))
  {
    hide Safe, InStep, InRange, CheckIframeAcked, Dist, Mod, Reestablish, EnquiryResponse;
    var free := c.(peerReceiverBusy := false);
    EnquiryStays(free);
    var answered := if command && poll then EnquiryResponse(free, true) else free;
    SameQueuesInStep(c, answered, acc);
    SameWindowSafe(c, answered);
    AckStays(answered, nr, clock);
    if InRange(c.va, nr, c.vs, c.modulus) {
      CheckAckInStep(answered, acc, nr, clock);
    }
  }

  lemma EnquiryStays(c: Conn)
    ensures SameQueues(c, EnquiryResponse(c, true)) && SameWindow(c, EnquiryResponse(c, true))
    ensures EnquiryResponse(c, true).st == c.st
  {}

  lemma AckStays(c: Conn, nr: int, clock: Clock)
    ensures UpdateAck(c, nr).st == c.st && CheckIframeAcked(c, nr, clock).st == c.st
    ensures UpdateAck(c, nr).vs == c.vs && UpdateAck(c, nr).va == nr
    ensures !InData(Reestablish(c))
  {
    hide NewSrt, NewPeriod, Drop, Dist;
  }

  /** An answer with F=1 makes the session go back to the first unacknowledged payload. */
  lemma FinalInStep(c: Conn, acc: seq<Payload>, nr: int, clock: Clock)
    requires Safe(c) && c.st == TimerRecovery && InStep(c, acc)
    ensures var mid := OnFinal(c, nr, clock);
            && InData(mid) == InRange(c.va, nr, c.vs, c.modulus)
            && (InData(mid) ==>
                  && Kept(c, mid, acc, Dist(c.va, nr, c.modulus))
                  && Next(mid, acc) == if nr != c.vs then Acked(mid, acc) else Next(c, acc))
  {
    hide Safe, InStep, InRange, Dist, Mod, Reestablish, NewSrt, NewPeriod, UpdateAck, InvokeRetransmission;
    var measured := SelectT1(StopT1(c), clock);
    SameQueuesInStep(c, measured, acc);
    SameWindowSafe(c, measured);
    AckStays(measured, nr, clock);
    if InRange(c.va, nr, c.vs, c.modulus) {
      AckInStep(measured, acc, nr);
      var acked := UpdateAck(measured, nr);
      AckSafe(measured, nr);
      HasModulus(acked);
      WindowSize(acked);
      RetransmissionInStep(acked, acc, nr);
      RetransmissionStays(acked, nr);
      SameQueuesInStep(acked, StartT3(acked).(st := Connected), acc);
    }
  }

  lemma WindowSize(c: Conn)
    requires Safe(c)
    ensures c.k == 7
  {}

  lemma RetransmissionStays(c: Conn, nr: int)
    ensures InvokeRetransmission(c, nr).st == c.st
  {}

  lemma RrRecoveryInStep(c: Conn, acc: seq<Payload>, nr: int, poll: bool, command: bool, clock: Clock)
    requires Safe(c) && c.st == TimerRecovery && InStep(c, acc)
    ensures var mid := OnRrRecovery(c, nr, poll, command, clock);
            && InData(mid) == InRange(c.va, nr, c.vs, c.modulus)
            && (InData(mid) ==>
                  && Kept(c, mid, acc, Dist(c.va, nr, c.modulus))
                  && Next(mid, acc) == if !command && poll && nr != c.vs then Acked(mid, acc) else Next(c, acc))
  {
    hide Safe, InStep, InRange, UpdateAck, Dist, Mod, Reestablish, OnFinal, EnquiryResponse;
    var free := c.(peerReceiverBusy := false);
    EnquiryStays(free);
    SameQueuesInStep(c, free, acc);
    SameWindowSafe(c, free);
    if !command && poll {
      FinalInStep(free, acc, nr, clock);
    } else {
      var answered := if command && poll then EnquiryResponse(free, true) else free;
      SameQueuesInStep(c, answered, acc);
      SameWindowSafe(c, answered);
      AckStays(answered, nr, clock);
      if InRange(c.va, nr, c.vs, c.modulus) {
        AckInStep(answered, acc, nr);
      }
    }
  }

  /** A frame too long or an N(R) out of range ends the session; a response is ignored. */
  predicate Usable(c: Conn, p: Packet)
    requires p.frame.IFrame?
  {
    |p.frame.payload| <= c.n1 && InRange(c.va, p.frame.nr, c.vs, c.modulus)
  }

  lemma IframeInStep(c: Conn, acc: seq<Payload>, p: Packet, clock: Clock)
    requires Safe(c) && InData(c) && InStep(c, acc) && p.frame.IFrame?
    ensures var mid := OnIframe(c, p, clock);
            && InData(mid) == (!p.commandResponse || Usable(c, p))
            && (InData(mid) ==>
                  && Kept(c, mid, acc, if p.commandResponse then Dist(c.va, p.frame.nr, c.modulus) else 0)
                  && Next(mid, acc) == Next(c, acc))
  {
    hide Safe, InStep, InRange, CheckIframeAcked, UpdateAck, AcceptIframe, Reestablish, Mod, Dist;
    var f := p.frame;
    AckStays(c, f.nr, clock);
    if p.commandResponse && Usable(c, p) {
      var acked := if c.st == Connected then CheckIframeAcked(c, f.nr, clock) else UpdateAck(c, f.nr);
      CheckAckInStep(c, acc, f.nr, clock);
      AckInStep(c, acc, f.nr);
      AcceptStays(acked, f.ns, f.poll, f.payload);
      SameQueuesInStep(acked, AcceptIframe(acked, f.ns, f.poll, f.payload), acc);
    }
  }

  lemma AcceptStays(c: Conn, ns: int, poll: bool, payload: Payload)
    ensures var d := AcceptIframe(c, ns, poll, payload); SameQueues(c, d) && d.st == c.st
  {
    hide Answer, Answers, Mod;
  }

  lemma DataInStep(c: Conn, acc: seq<Payload>, payload: Payload)
    requires InData(c) && InStep(c, acc)
    ensures var mid := OnDlData(c, payload);
            && InStep(mid, acc + [payload])
            && Acked(mid, acc + [payload]) == Acked(c, acc) && Next(mid, acc + [payload]) == Next(c, acc)
  {
    hide Mod;
    var more := acc + [payload];
    assert c.resend + [payload] == more[Acked(c, acc)..];
    assert c.queue + [payload] == more[Next(c, acc)..];
  }
}
