/** From one connection to another over a serial line: everything the state machine sends survives
    serialize, the check bytes, KISS framing and parse. */
module Wire {
  import opened Bytes
  import opened Packets
  import opened Modular
  import opened Calls
  import opened Serializer
  import opened Parser
  import opened RoundTrip
  import Kiss
  import opened Link
  import opened LinkInvariants
  import opened Discipline
  import opened Talk
  import opened Steps
  import opened Receiving
  import opened Sessions

  // ---------------------------------------------------------------------------------------------
  // The line

  /** What serialize writes for each packet, nothing for one that it refuses. */
  function Octets(packets: seq<Packet>, fcs: bool): (all: seq<seq<byte>>)
    ensures |all| == |packets|
    ensures forall i :: 0 <= i < |all| && Serializable(packets[i]) ==> all[i] == Encoded(packets[i], fcs)
  {
    seq(|packets|, i requires 0 <= i < |packets| => if Serializable(packets[i]) then Encoded(packets[i], fcs) else [])
  }

  predicate AllCanonical(packets: seq<Packet>) {
    forall j :: 0 <= j < |packets| ==> Canonical(packets[j])
  }

  /** The packets that arrived are those that were sent, each with its check bytes on record. */
  predicate SameArrived(arrived: seq<seq<byte>>, packets: seq<Packet>, fcs: bool) {
    && |arrived| == |packets|
    && forall i :: 0 <= i < |packets| ==>
         Serializable(packets[i]) && Parsed(arrived[i], fcs) == Ok(packets[i].(fcs := CheckField(packets[i], fcs)))
  }

  /** Main result: canonical packets that are serialized and written to the line one after the other,
      however the line is cut into reads and whatever without a FEND precedes them, are parsed as
      exactly these packets in this order. */
  lemma PacketsArrive(packets: seq<Packet>, fcs: bool, noise: seq<byte>, chunks: seq<seq<byte>>)
    requires AllCanonical(packets) && Kiss.FEND !in noise
    requires Kiss.Flatten(chunks) == noise + Kiss.Line(Octets(packets, fcs))
    ensures SameArrived(Kiss.FeedAll(Kiss.START, chunks).injected, packets, fcs)
  {
    hide Canonical, Serializable, Parsed, Encoded, CheckField;
    Kiss.StreamDecodes(noise, Octets(packets, fcs), chunks);
    forall i | 0 <= i < |packets|
      ensures Serializable(packets[i])
      ensures Parsed(Octets(packets, fcs)[i], fcs) == Ok(packets[i].(fcs := CheckField(packets[i], fcs)))
    {
      CanonicalIsSerializable(packets[i]);
      RoundTripIffCanonical(packets[i], fcs);
    }
  }

  /** The record of the check bytes, the one field that does not come back, means nothing to the
      connection that receives the packet. */
  lemma CheckFieldIgnored(c: Conn, p: Packet, fcs: int, clock: Clock)
    ensures Step(c, Receive(p.(fcs := fcs)), clock) == Step(c, Receive(p), clock)
  {
    hide Poll, OnRr, OnUa, OnUi, OnDisc;
    if Handled(p.frame) {
      PacketCheckIgnored(c, p, fcs, clock);
    }
  }

  lemma PacketCheckIgnored(c: Conn, p: Packet, fcs: int, clock: Clock)
    requires Handled(p.frame)
    ensures OnPacket(c, p.(fcs := fcs), clock) == OnPacket(c, p, clock)
  {
    hide Reestablish, CheckIframeAcked, UpdateAck, AcceptIframe, InRange, OnRrConnected, OnRrRecovery, Send, ClearExceptions;
    hide EnquiryResponse, OnUaAwaiting;
  }

  // ---------------------------------------------------------------------------------------------
  // Runs

  /** Whoever asks for a link names both stations by canonical callsigns, and no one asks for sequence
      numbers modulo 128. */
  predicate Familiar(e: Event) {
    match e
    case DlConnect(dst, src) => CanonicalCall(dst) && CanonicalCall(src)
    case Receive(p) => !p.frame.Sabme? && (p.frame.Sabm? ==> CanonicalCall(p.dst) && CanonicalCall(p.src))
    case _ => true
  }

  /** A connection that knows both stations and numbers modulo 8. */
  predicate Wired(c: Conn) {
    && Safe(c) && Regular(c) && CanonicalCall(c.src) && CanonicalCall(c.dst)
    && (c.modulus == 0 || c.modulus == 8) && 0 <= c.vr < 8
  }

  lemma StepWired(c: Conn, e: Event, clock: Clock)
    requires Wired(c) && Familiar(e)
    ensures Wired(Step(c, e, clock))
    ensures var d := Step(c, e, clock);
            && |c.sent| <= |d.sent| && d.sent[..|c.sent|] == c.sent
            && forall j :: |c.sent| <= j < |d.sent| ==> Canonical(d.sent[j])
  {
    hide Safe, Regular, Step, CanonicalCall, Mod, IsHeard, Resets;
    StepRegular(c, e, clock);
    RegularIsPlain(c);
    QueueShorter(c);
    StepReceives(c, e, clock);
    StepTalks(c, e, clock);
    var d := Step(c, e, clock);
    forall j | |c.sent| <= j < |d.sent| ensures Canonical(d.sent[j]) {
      IframesInData(c, e, clock, j);
      ProperIsCanonical(d, d.sent[j]);
    }
  }

  /** I frames are numbered modulo a modulus that has been chosen. */
  lemma IframesInData(c: Conn, e: Event, clock: Clock, j: nat)
    requires Safe(c) && Regular(c) && |c.sent| <= j < |Step(c, e, clock).sent|
    ensures Step(c, e, clock).sent[j].frame.IFrame? ==> Step(c, e, clock).modulus > 0
  {
    hide Step, Regular;
    StepRegular(c, e, clock);
    if !InData(Step(c, e, clock)) {
      OutsideSilent(c, e, clock);
    }
  }

  lemma ProperIsCanonical(d: Conn, p: Packet)
    requires Proper(d, p) && CanonicalCall(d.src) && CanonicalCall(d.dst) && 0 <= d.vr < 8
    requires p.frame.IFrame? ==> d.modulus == 8
    ensures Canonical(p)
  {
    hide CanonicalCall;
  }

  predicate AllSerializable(packets: seq<Packet>) {
    forall j :: 0 <= j < |packets| ==> Serializable(packets[j])
  }

  predicate AllFamiliar(inputs: seq<Input>) {
    forall i :: 0 <= i < |inputs| ==> Familiar(inputs[i].event)
  }

  lemma {:induction false} WiredRun(c: Conn, inputs: seq<Input>)
    requires Wired(c) && AllFamiliar(inputs) && AllCanonical(c.sent)
    ensures Wired(Run(c, inputs)) && AllCanonical(Run(c, inputs).sent)
    decreases |inputs|
  {
    hide Wired, Familiar, Step, Canonical;
    if inputs != [] {
      StepWired(c, inputs[0].event, inputs[0].clock);
      var d := Step(c, inputs[0].event, inputs[0].clock);
      forall j | 0 <= j < |d.sent| ensures Canonical(d.sent[j]) {
        if j < |c.sent| {
          assert d.sent[j] == c.sent[j];
        }
      }
      WiredRun(d, inputs[1..]);
    }
  }

  // ---------------------------------------------------------------------------------------------
  // From the very beginning

  /** A connection that has not been told any address. */
  predicate Blank(c: Conn) {
    Safe(c) && Regular(c) && c.st == Disconnected && c.src == c.dst == "" && 0 <= c.vr < 8 && (c.modulus == 0 || c.modulus == 8)
  }

  predicate Introduces(e: Event) {
    e.DlConnect? || (e.Receive? && e.p.frame.Sabm?)
  }

  /** A packet that a disconnected connection answers with DM. */
  predicate Stranger(e: Event) {
    e.Receive? && (e.p.frame.Disc? || (e.p.frame.Ui? && e.p.frame.push != 0))
  }

  /** Addresses come before the first packet that has to be answered with DM. */
  predicate IntroducedFirst(inputs: seq<Input>)
    decreases |inputs|
  {
    inputs != [] ==>
      !Stranger(inputs[0].event) && (Introduces(inputs[0].event) || IntroducedFirst(inputs[1..]))
  }

  lemma IntroducedWired(c: Conn, e: Event, clock: Clock)
    requires Blank(c) && Familiar(e) && Introduces(e) && AllCanonical(c.sent)
    ensures Wired(Step(c, e, clock)) && AllCanonical(Step(c, e, clock).sent)
  {
    hide Safe, Regular, Step, CanonicalCall, Mod;
    StepRegular(c, e, clock);
    RegularIsPlain(c);
    StepReceives(c, e, clock);
    StepTalks(c, e, clock);
    var d := Step(c, e, clock);
    forall j | 0 <= j < |d.sent| ensures Canonical(d.sent[j]) {
      if j < |c.sent| {
        assert d.sent[j] == c.sent[j];
      } else {
        IframesInData(c, e, clock, j);
        ProperIsCanonical(d, d.sent[j]);
      }
    }
  }

  lemma BlankAnswers(c: Conn, e: Event, clock: Clock)
    requires Blank(c) && !Introduces(e) && Familiar(e)
    ensures Blank(Step(c, e, clock))
    ensures Stranger(e) ==> exists j :: 0 <= j < |Step(c, e, clock).sent| && !Serializable(Step(c, e, clock).sent[j])
    ensures !Stranger(e) ==> Step(c, e, clock).sent == c.sent
  {
    hide Safe, Regular, Poll, OnDlData, OnT1;
    StepRegular(c, e, clock);
    NotRunning(c);
    BlankIs(c, e, clock);
    var d := Step(c, e, clock);
    if Stranger(e) {
      NamelessRefused(d.sent[|c.sent|]);
    }
  }

  lemma NotRunning(c: Conn)
    requires Regular(c) && c.st == Disconnected
    ensures !c.t1.running
  {}

  /** serialize throws for a packet without a destination. */
  lemma NamelessRefused(p: Packet)
    requires p.dst == ""
    ensures !Serializable(p) && !Canonical(p)
  {}

  lemma BlankIs(c: Conn, e: Event, clock: Clock)
    requires c.st == Disconnected && !c.t1.running && !Introduces(e) && (e.Receive? ==> !e.p.frame.Sabme?)
    ensures var d := Step(c, e, clock);
            && d.st == c.st && d.src == c.src && d.dst == c.dst && d.vr == c.vr && d.modulus == c.modulus
            && if Stranger(e) then |d.sent| == |c.sent| + 1 && d.sent[|c.sent|].dst == c.dst else d.sent == c.sent
  {
    hide Poll, OnPacket, OnDlData, OnDlDisconnect, OnT1, Send;
    IdleRequests(c, e);
    if Enabled(c, e) {
      if e.Receive? {
        BlankPacket(c, e.p, clock);
        SendIs(c, Plain(Dm(if e.p.frame.Disc? then e.p.frame.poll else true), false));
      }
      PollIdle(Handle(c, e, clock));
    }
  }

  lemma SendIs(c: Conn, p: Packet)
    ensures var d := Send(c, p);
            && SameReceiver(c, d) && d.st == c.st
            && |d.sent| == |c.sent| + 1 && d.sent[|c.sent|].dst == c.dst
  {}

  lemma IdleRequests(c: Conn, e: Event)
    requires c.st == Disconnected
    ensures OnDlDisconnect(c) == c && (e.DlData? ==> OnDlData(c, e.payload) == c)
  {}

  lemma BlankPacket(c: Conn, p: Packet, clock: Clock)
    requires c.st == Disconnected && Handled(p.frame) && !p.frame.Sabm? && !p.frame.Sabme?
    ensures var d := OnPacket(c, p, clock);
            if Stranger(Receive(p)) then d == Send(c, Plain(Dm(if p.frame.Disc? then p.frame.poll else true), false)) else d == c
  {
    hide OnUaAwaiting, Reestablish, OnRrConnected, OnRrRecovery, Send, SendStatus, ClearQueues;
  }

  lemma SentStays(c: Conn, inputs: seq<Input>, j: nat)
    requires Safe(c) && Regular(c) && j < |c.sent|
    ensures j < |Run(c, inputs).sent| && Run(c, inputs).sent[j] == c.sent[j]
    decreases |inputs|
  {
    hide Safe, Regular, Step;
    if inputs != [] {
      var e, clock := inputs[0].event, inputs[0].clock;
      StepRegular(c, e, clock);
      StepExtends(c, e, clock);
      assert Step(c, e, clock).sent[j] == c.sent[j];
      SentStays(Step(c, e, clock), inputs[1..], j);
    }
  }

  /** Main result: where links are asked for with canonical callsigns and modulo 8, everything that a new
      connection sends survives the codec, if no packet has to be answered with DM before the connection
      knows its addresses; and if one has, serialize throws for something that it sends. */
  lemma {:induction false} RunIsCanonical(c: Conn, inputs: seq<Input>)
    requires Blank(c) && AllCanonical(c.sent) && AllFamiliar(inputs)
    ensures IntroducedFirst(inputs) ==> AllCanonical(Run(c, inputs).sent)
    ensures !IntroducedFirst(inputs) ==> !AllSerializable(Run(c, inputs).sent)
    decreases |inputs|
  {
    hide Blank, Wired, Familiar, Step, Canonical, Serializable, Introduces, Stranger;
    if inputs != [] {
      var e, clock := inputs[0].event, inputs[0].clock;
      var d := Step(c, e, clock);
      assert Familiar(e);
      if Introduces(e) {
        IntroducedWired(c, e, clock);
        WiredRun(d, inputs[1..]);
        NotBoth(e);
      } else {
        BlankAnswers(c, e, clock);
        if Stranger(e) {
          var j :| 0 <= j < |d.sent| && !Serializable(d.sent[j]);
          BlankRegular(d);
          SentStays(d, inputs[1..], j);
        } else {
          RunIsCanonical(d, inputs[1..]);
        }
      }
    }
  }

  lemma NotBoth(e: Event)
    requires Introduces(e)
    ensures !Stranger(e)
  {}

  lemma BlankRegular(c: Conn)
    requires Blank(c)
    ensures Safe(c) && Regular(c)
  {}

  lemma FreshIsBlank()
    ensures Blank(FRESH) && AllCanonical(FRESH.sent)
  {}

  /** Main result: the other end of the line gets back every packet of such a run. */
  lemma RunArrives(inputs: seq<Input>, fcs: bool, noise: seq<byte>, chunks: seq<seq<byte>>)
    requires AllFamiliar(inputs) && IntroducedFirst(inputs) && Kiss.FEND !in noise
    requires Kiss.Flatten(chunks) == noise + Kiss.Line(Octets(Run(FRESH, inputs).sent, fcs))
    ensures SameArrived(Kiss.FeedAll(Kiss.START, chunks).injected, Run(FRESH, inputs).sent, fcs)
  {
    hide Blank, Run, Canonical, AllCanonical, AllSerializable, IntroducedFirst, SameArrived;
    FreshIsBlank();
    RunIsCanonical(FRESH, inputs);
    PacketsArrive(Run(FRESH, inputs).sent, fcs, noise, chunks);
  }
}
