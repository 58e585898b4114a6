/** The connection of src/seqpacket_con.h and src/seqpacket_con.cc as the program writes it: fields
    changed in place, one handler per state and event, loops over the queues.

    Every event method is proved to take the connection from one `View` to the next as module Link's
    `Step` says, and to keep `Valid`. */
module Connections {
  import opened Bytes
  import opened Packets
  import opened Modular
  import opened Link
  import opened LinkInvariants

  class Timer {
    var running: bool
    var ms: int

    constructor (ms: int)
      ensures View() == TimerView(false, ms)
    {
      this.ms := ms;
      running := false;
    }

    function View(): TimerView
      reads this
    {
      TimerView(running, ms)
    }

    method Set(ms: int)
      modifies this
      ensures View() == old(View()).(ms := ms)
    {
      this.ms := ms;
    }

    method Start()
      modifies this
      ensures View() == old(View()).(running := true)
    {
      running := true;
    }

    method Stop()
      modifies this
      ensures View() == old(View()).(running := false)
    {
      running := false;
    }

    method Restart()
      modifies this
      ensures View() == old(View()).(running := true)
    {
      Stop();
      Start();
    }
  }

  /** in_range: walk the circle from V(A) until N(R) or V(S) comes up. */
  method WalkRange(va: int, nr: int, vs: int, mod: int) returns (found: bool)
    requires 0 <= va < mod && 0 <= vs < mod
    ensures found <==> InRange(va, nr, vs, mod)
  {
    var t := va;
    DistNear(va, va, mod);
    while true
      invariant 0 <= t < mod && Dist(va, t, mod) <= Dist(va, vs, mod)
      invariant 0 <= nr < mod ==> Dist(va, t, mod) <= Dist(va, nr, mod)
      decreases Dist(va, vs, mod) - Dist(va, t, mod)
    {
      DistNear(va, t, mod);
      DistNear(va, vs, mod);
      if 0 <= nr < mod {
        DistNear(va, nr, mod);
      }
      if t == nr {
        return true;
      }
      if t == vs {
        return false;
      }
      RemainderOf(t + 1, mod);
      ModNear(t + 1, mod);
      t := (t + 1) % mod;
      DistNear(va, t, mod);
    }
  }

  /** (2 << rc) * srt */
  method BackOff(rc: nat, srt: real) returns (ms: real)
    ensures ms == Doubled(rc + 1, srt)
  {
    DoubledIsShift(rc, srt);
    ms := ShiftTwo(rc) as real * srt;
  }

  class Connection {
    var st: State
    var src: string
    var dst: string
    var modulus: int
    var layer3Initiated: bool
    var peerReceiverBusy: bool
    var ownReceiverBusy: bool
    var rejectException: bool
    var acknowledgePending: bool
    var srt: real
    var t1v: int
    var n1: nat
    var n2: int
    const t1: Timer
    const t3: Timer
    var rc: int
    var k: int
    var vs: int
    var va: int
    var vr: int
    var srejEnabled: bool
    var srejectException: int
    var queue: seq<seq<byte>>
    var resend: seq<seq<byte>>
    var sent: seq<Packet>
    var delivered: seq<seq<byte>>

    function View(): Conn
      reads this, t1, t3
    {
      Conn(st, src, dst, modulus, layer3Initiated, peerReceiverBusy, ownReceiverBusy, rejectException,
           acknowledgePending, srt, t1v, n1, n2, t1.View(), t3.View(), rc, k, vs, va, vr, srejEnabled,
           srejectException, queue, resend, sent, delivered)
    }

    ghost predicate Valid()
      reads this, t1, t3
    {
      t1 != t3 && Safe(View())
    }

    constructor ()
      ensures Valid() && fresh(t1) && fresh(t3)
      ensures View() == FRESH
    {
      st, src, dst, modulus := Disconnected, "", "", 0;
      layer3Initiated, peerReceiverBusy, ownReceiverBusy := false, false, false;
      rejectException, acknowledgePending := false, false;
      srt, t1v, n1, n2, rc, k := 0.0, 0, 65000, 3, 0, 7;
      vs, va, vr := 0, 0, 0;
      srejEnabled, srejectException := false, 0;
      queue, resend, sent, delivered := [], [], [], [];
      t1 := new Timer(3000);
      t3 := new Timer(300 * 1000);
    }

    // -------------------------------------------------------------------------------------------
    // Single assignments, as changes of the view

    method Enter(state: State)
      modifies this`st
      ensures View() == old(View()).(st := state)
    {
      st := state;
    }

    method SetRetries(n: int)
      modifies this`rc
      ensures View() == old(View()).(rc := n)
    {
      rc := n;
    }

    method ForgetPending()
      modifies this`acknowledgePending
      ensures View() == old(View()).(acknowledgePending := false)
    {
      acknowledgePending := false;
    }

    method ForgetPeerBusy()
      modifies this`peerReceiverBusy
      ensures View() == old(View()).(peerReceiverBusy := false)
    {
      peerReceiverBusy := false;
    }

    method ResetRoundTrip()
      modifies this`srt, this`t1v
      ensures View() == old(View()).(srt := 3000.0, t1v := 6000)
    {
      srt := 3000.0;
      t1v := 2 * 3000;
    }

    method StartTimer1()
      requires t1 != t3
      modifies t1
      ensures View() == StartT1(old(View()))
    {
      t1.Start();
    }

    method StopTimer1()
      requires t1 != t3
      modifies t1
      ensures View() == StopT1(old(View()))
    {
      t1.Stop();
    }

    method StartTimer3()
      requires t1 != t3
      modifies t3
      ensures View() == StartT3(old(View()))
    {
      t3.Start();
    }

    method StopTimer3()
      requires t1 != t3
      modifies t3
      ensures View() == StopT3(old(View()))
    {
      t3.Stop();
    }

    // -------------------------------------------------------------------------------------------
    // Senders and subroutines

    method SendPacket(packet: Packet)
      modifies this`sent
      ensures View() == Send(old(View()), packet)
    {
      var p := packet;
      p := p.(commandResponseLa := !p.commandResponse);
      p := p.(src := src);
      p := p.(dst := dst);
      sent := sent + [p];
    }

    method SendStatusFrame(pf: bool, command: bool)
      modifies this`sent
      ensures View() == SendStatus(old(View()), pf, command)
    {
      if ownReceiverBusy {
        SendPacket(Plain(Rnr(vr, pf), true));
      } else {
        SendPacket(Plain(Rr(vr, pf), command));
      }
    }

    method ClearBusy()
      modifies this`peerReceiverBusy, this`ownReceiverBusy
      ensures View() == old(View()).(peerReceiverBusy := false, ownReceiverBusy := false)
    {
      ForgetPeerBusy();
      ownReceiverBusy := false;
    }

    method ClearExceptionConditions()
      modifies this`peerReceiverBusy, this`rejectException, this`ownReceiverBusy, this`acknowledgePending
      ensures View() == ClearExceptions(old(View()))
    {
      ClearBusy();
      rejectException := false;
      acknowledgePending := false;
    }

    method ClearIframeQueue()
      modifies this`queue, this`resend
      ensures View() == ClearQueues(old(View()))
    {
      queue := [];
      resend := [];
    }

    method EstablishDataLink()
      requires t1 != t3
      modifies this, t1, t3
      ensures View() == Establish(old(View()))
    {
      hide Send, Plain, ClearExceptions;
      ClearExceptionConditions();
      SetRetries(0);
      SendPacket(Plain(Sabm(true), false));
      StopTimer3();
      StopTimer1();
      StartTimer1();
    }

    /** nr_error_recovery, and every other failure that leads to AwaitingConnection. */
    method AskForNewLink()
      requires t1 != t3
      modifies this, t1, t3
      ensures View() == Reestablish(old(View()))
    {
      hide Establish;
      EstablishDataLink();
      layer3Initiated := false;
      Enter(AwaitingConnection);
    }

    method SendEnquiry()
      requires t1 != t3
      modifies this`sent, this`acknowledgePending, t1
      ensures View() == TransmitEnquiry(old(View()))
    {
      hide SendStatus;
      SendStatusFrame(true, true);
      ForgetPending();
      StartTimer1();
    }

    method AnswerEnquiry(f: bool)
      modifies this`sent, this`acknowledgePending
      ensures View() == EnquiryResponse(old(View()), f)
    {
      hide SendStatus;
      SendStatusFrame(f, false);
      ForgetPending();
    }

    method AckUpTo(nr: int)
      requires modulus > 0 && 0 <= va < modulus && 0 <= nr < modulus
      requires Dist(va, nr, modulus) <= |resend|
      modifies this`va, this`resend
      ensures View() == UpdateAck(old(View()), nr)
    {
      ghost var n := 0;
      ghost var d := Dist(va, nr, modulus);
      assert resend[0..] == resend;
      while va != nr
        invariant 0 <= va < modulus
        invariant 0 <= n <= d && n + Dist(va, nr, modulus) == d <= |old(resend)|
        invariant resend == old(resend)[n..]
        decreases Dist(va, nr, modulus)
      {
        DistNear(va, nr, modulus);
        assert resend != [];
        resend := resend[1..];
        RemainderOf(va + 1, modulus);
        ModNear(va + 1, modulus);
        va := (va + 1) % modulus;
        DistNear(va, nr, modulus);
        n := n + 1;
      }
      DistNear(va, nr, modulus);
    }

    /** The loop builds a queue that the last line overwrites; what matters is that its assertion
        holds. */
    method Retransmit(nr: int)
      requires modulus > 0 && 0 <= nr < modulus && 0 <= vs < modulus
      requires Dist(nr, vs, modulus) <= |resend|
      modifies this`vs, this`queue
      ensures View() == InvokeRetransmission(old(View()), nr)
    {
      hide Mod;
      var x := vs;
      vs := nr;
      var itr := 0;
      var i := nr;
      while i != x
        invariant 0 <= i < modulus && vs == nr
        invariant 0 <= itr && itr + Dist(i, x, modulus) <= |resend|
        decreases Dist(i, x, modulus)
      {
        DistNear(i, x, modulus);
        assert itr < |resend|;
        queue := [resend[|resend| - 1 - itr]] + queue;
        itr := itr + 1;
        RemainderOf(i + 1, modulus);
        ModNear(i + 1, modulus);
        i := (i + 1) % modulus;
        DistNear(i, x, modulus);
      }
      queue := resend;
    }

    method SelectT1Value(clock: Clock)
      modifies this`srt, t1
      requires t1 != t3
      ensures View() == SelectT1(old(View()), clock)
    {
      hide Clamp, Trunc;
      if rc == 0 {
        var left := if clock.left > 0 then clock.left else 0;
        srt := Clamp(Trunc(7.0 / 8.0 * srt + 1.0 / 8.0 * ((t1.ms - left) as real))) as real;
        t1.Set(Clamp(Trunc(srt * 2.0)));
      } else if t1.running && clock.overdue {
        var backedOff := BackOff(if rc < 0 then 0 else rc, srt);
        t1.Set(Clamp(Trunc(backedOff)));
      }
    }

    method CheckIframeAck(nr: int, clock: Clock)
      requires t1 != t3 && modulus > 0 && 0 <= va < modulus && 0 <= nr < modulus
      requires Dist(va, nr, modulus) <= |resend|
      modifies this, t1, t3
      ensures View() == CheckIframeAcked(old(View()), nr, clock)
    {
      hide UpdateAck, SelectT1;
      if peerReceiverBusy {
        AckUpTo(nr);
        StartTimer3();
        if !t1.running {
          StartTimer1();
        }
        return;
      }
      if nr == vs {
        AckUpTo(nr);
        StopTimer1();
        StartTimer3();
        SelectT1Value(clock);
        return;
      }
      if nr != va {
        AckUpTo(nr);
        StopTimer1();
        StartTimer1();
      }
    }

    // -------------------------------------------------------------------------------------------
    // Draining the send queue

    method DataPollLoop()
      requires Valid() && InData(View())
      modifies this`queue, this`vs, this`sent, t1, t3
      ensures View() == DataPoll(old(View()))
    {
      hide Safe, Sending, PollCount, Mod;
      ghost var c := View();
      ghost var n := 0;
      SendingNone(c);
      SendingBounds(c, n);
      while queue != []
        invariant t1 != t3 && 0 <= n <= PollCount(c) && View() == Sending(c, n)
        decreases |queue|
      {
        SendingBounds(c, n);
        RemainderOf(va + k, modulus);
        if peerReceiverBusy {
          break;
        }
        if vs == (va + k) % modulus {
          break;
        }
        SendingOneMore(c, n);
        SendOne();
        n := n + 1;
      }
      SendingBounds(c, n);
    }

    /** One turn of the loop of dl_data_poll. */
    method SendOne()
      requires t1 != t3 && modulus > 0 && queue != []
      modifies this`queue, this`vs, this`sent, t1, t3
      ensures View() == SendFirst(old(View()))
    {
      hide Mod;
      SendFront();
      RemainderOf(vs + 1, modulus);
      vs := (vs + 1) % modulus;
      LetT1Run();
    }

    /** The frame at the front of the queue goes out as N(S) = V(S); the last one that the window
        lets through asks for an answer. */
    method SendFront()
      requires modulus > 0 && queue != []
      modifies this`queue, this`sent
      ensures View() == old(View()).(queue := SendFirst(old(View())).queue, sent := SendFirst(old(View())).sent)
    {
      hide Mod;
      var ns := vs;
      var nr := vr;
      var payload := queue[0];
      queue := queue[1..];
      var poll := false;
      RemainderOf(va + k + modulus - 1, modulus);
      if vs == (va + k + modulus - 1) % modulus {
        poll := true;
      }
      SendPacket(Plain(IFrame(nr, ns, poll, false, 0xf0, payload), true));
    }

    method LetT1Run()
      requires t1 != t3
      modifies t1, t3
      ensures t1.View() == old(t1.View()).(running := true)
      ensures t3.View() == old(t3.View()).(running := old(t3.running && t1.running))
    {
      if !t1.running {
        t1.Start();
        t3.Stop();
      }
    }

    /** The end of maybe_change_state: the state that an event has led to polls the queue. */
    method PollQueue()
      requires Valid()
      modifies this`queue, this`vs, this`sent, t1, t3
      ensures Valid() && View() == Poll(old(View()))
    {
      hide Safe, DataPoll;
      PollSafe(View());
      if InData(View()) {
        DataPollLoop();
      }
    }

    // -------------------------------------------------------------------------------------------
    // Handlers of the states, before the poll

    method ResetNumbers()
      modifies this`vs, this`va, this`vr
      ensures View() == old(View()).(vs := 0, va := 0, vr := 0)
    {
      ResetWindow();
      vr := 0;
    }

    method ResetWindow()
      modifies this`vs, this`va
      ensures View() == old(View()).(vs := 0, va := 0)
    {
      vs := 0;
      va := 0;
    }

    method StopBoth()
      requires t1 != t3
      modifies t1, t3
      ensures View() == StopT3(StopT1(old(View())))
    {
      StopTimer1();
      StopTimer3();
    }

    method SetVersion(p: Packet)
      requires p.frame.Sabm? || p.frame.Sabme?
      modifies this`modulus, this`n2
      ensures View() == old(View()).(modulus := if p.frame.Sabm? then 8 else 128, n2 := 10)
    {
      modulus := if p.frame.Sabm? then 8 else 128;
      n2 := 10;
    }

    method SetAddresses(dst: string, src: string)
      modifies this`dst, this`src
      ensures View() == old(View()).(dst := dst, src := src)
    {
      this.src := src;
      this.dst := dst;
    }

    method DisconnectedSabm(p: Packet)
      requires t1 != t3 && (p.frame.Sabm? || p.frame.Sabme?)
      modifies this, t1, t3
      ensures View() == OnSabmDisconnected(old(View()), p)
    {
      hide Send, Plain, ClearExceptions, StartT3;
      AcceptLink(p);
      ClearExceptionConditions();
      ResetNumbers();
      BeginSession();
    }

    method AcceptLink(p: Packet)
      requires p.frame.Sabm? || p.frame.Sabme?
      modifies this`modulus, this`n2, this`src, this`dst, this`sent
      ensures View() == Send(old(View()).(modulus := if p.frame.Sabm? then 8 else 128, n2 := 10, src := p.dst, dst := p.src),
                             Plain(Ua(p.frame.poll), false))
    {
      hide Send, Plain;
      SetVersion(p);
      SetAddresses(p.src, p.dst);
      SendPacket(Plain(Ua(p.frame.poll), false));
    }

    method BeginSession()
      modifies this`srt, this`t1v, this`st, t3
      requires t1 != t3
      ensures View() == StartT3(old(View()).(srt := 3000.0, t1v := 6000, st := Connected))
    {
      ResetRoundTrip();
      StartTimer3();
      Enter(Connected);
    }

    method ConnectedSabm(p: Packet)
      requires t1 != t3 && (p.frame.Sabm? || p.frame.Sabme?)
      modifies this, t1, t3
      ensures View() == OnSabmConnected(old(View()), p)
    {
      hide Send, Plain;
      SendPacket(Plain(Ua(p.frame.poll), false));
      ClearExceptionConditions();
      if vs != va {
        ClearIframeQueue();
      }
      StopTimer1();
      StartTimer3();
      ResetNumbers();
    }

    method AwaitingConnectionUa(clock: Clock)
      requires t1 != t3
      modifies this, t1, t3
      ensures View() == OnUaAwaiting(old(View()), clock)
    {
      hide NewSrt, NewPeriod;
      if !layer3Initiated {
        if vs != va {
          ClearIframeQueue();
        }
      }
      StopBoth();
      ResetNumbers();
      SelectT1Value(clock);
      Enter(Connected);
    }

    method DataDm()
      requires t1 != t3
      modifies this, t1, t3
      ensures View() == StopT3(StopT1(ClearQueues(old(View())))).(st := Disconnected)
    {
      ClearIframeQueue();
      StopBoth();
      Enter(Disconnected);
    }

    method DataDisc(f: bool)
      requires t1 != t3
      modifies this, t1, t3
      ensures View() == StopT3(StopT1(Send(ClearQueues(old(View())), Plain(Ua(f), false)))).(st := Disconnected)
    {
      hide Send, Plain, ClearQueues;
      ClearIframeQueue();
      SendPacket(Plain(Ua(f), false));
      StopBoth();
      Enter(Disconnected);
    }

    method ConnectedRr(nr: int, poll: bool, command: bool, clock: Clock)
      requires Valid() && st == Connected
      modifies this, t1, t3
      ensures View() == OnRrConnected(old(View()), nr, poll, command, clock)
    {
      hide CheckIframeAcked, Reestablish, EnquiryResponse, InRange, Dist;
      assert modulus > 0 && 0 <= va < modulus && 0 <= vs < modulus;
      if InRange(va, nr, vs, modulus) {
        InRangeMeans(View(), nr);
      }
      ForgetPeerBusy();
      if command && poll {
        AnswerEnquiry(true);
      }
      CheckOrLeave(nr, clock);
    }

    method CheckOrLeave(nr: int, clock: Clock)
      requires t1 != t3 && modulus > 0 && 0 <= va < modulus && 0 <= vs < modulus
      requires InRange(va, nr, vs, modulus) ==> AckIsCovered(View(), nr)
      modifies this, t1, t3
      ensures !InRange(old(va), nr, old(vs), old(modulus)) ==> View() == Reestablish(old(View()))
      ensures InRange(old(va), nr, old(vs), old(modulus)) ==> View() == CheckIframeAcked(old(View()), nr, clock)
    {
      hide CheckIframeAcked, Reestablish, InRange, Dist;
      var ok := WalkRange(va, nr, vs, modulus);
      if !ok {
        AskForNewLink();
        return;
      }
      CheckIframeAck(nr, clock);
    }

    method TimerRecoveryRr(nr: int, poll: bool, command: bool, clock: Clock)
      requires Valid() && st == TimerRecovery
      modifies this, t1, t3
      ensures View() == OnRrRecovery(old(View()), nr, poll, command, clock)
    {
      hide Reestablish, EnquiryResponse, InRange, Dist, UpdateAck, OnFinal;
      assert modulus > 0 && 0 <= va < modulus && 0 <= vs < modulus;
      if InRange(va, nr, vs, modulus) {
        InRangeMeans(View(), nr);
      }
      ForgetPeerBusy();
      if !command && poll {
        TimerRecoveryFinal(nr, clock);
        return;
      }
      if command && poll {
        AnswerEnquiry(true);
      }
      AckOrLeave(nr);
    }

    method AckOrLeave(nr: int)
      requires t1 != t3 && modulus > 0 && 0 <= va < modulus && 0 <= vs < modulus
      requires InRange(va, nr, vs, modulus) ==> AckIsCovered(View(), nr)
      modifies this, t1, t3
      ensures !InRange(old(va), nr, old(vs), old(modulus)) ==> View() == Reestablish(old(View()))
      ensures InRange(old(va), nr, old(vs), old(modulus)) ==> View() == UpdateAck(old(View()), nr)
    {
      hide Reestablish, InRange, Dist, UpdateAck;
      var ok := WalkRange(va, nr, vs, modulus);
      if !ok {
        AskForNewLink();
        return;
      }
      AckUpTo(nr);
    }

    /** The answer with F=1 that timer recovery waits for. */
    method TimerRecoveryFinal(nr: int, clock: Clock)
      requires t1 != t3 && modulus > 0 && 0 <= va < modulus && 0 <= vs < modulus
      requires InRange(va, nr, vs, modulus) ==> AckIsCovered(View(), nr)
      modifies this, t1, t3
      ensures View() == OnFinal(old(View()), nr, clock)
    {
      hide Reestablish, InRange, Dist, InvokeRetransmission, NewSrt, NewPeriod;
      StopTimer1();
      SelectT1Value(clock);
      var ok := WalkRange(va, nr, vs, modulus);
      if !ok {
        AskForNewLink();
        return;
      }
      AckUpTo(nr);
      if vs != va {
        Retransmit(nr);
        return;
      }
      StartTimer3();
      Enter(Connected);
    }

    method DataIframe(p: Packet, clock: Clock)
      requires Valid() && InData(View()) && p.frame.IFrame?
      modifies this, t1, t3
      ensures View() == OnIframe(old(View()), p, clock)
    {
      hide Reestablish, InRange, Dist, CheckIframeAcked, UpdateAck, AcceptIframe;
      var f := p.frame;
      assert modulus > 0 && 0 <= va < modulus && 0 <= vs < modulus;
      if !p.commandResponse {
        return;
      }
      if |f.payload| > n1 {
        AskForNewLink();
        return;
      }
      if InRange(va, f.nr, vs, modulus) {
        InRangeMeans(View(), f.nr);
      }
      var ok := WalkRange(va, f.nr, vs, modulus);
      if !ok {
        AskForNewLink();
        return;
      }
      AckIframe(f.nr, clock);
      TakeIframe(f.ns, f.poll, f.payload);
    }

    method AckIframe(nr: int, clock: Clock)
      requires t1 != t3 && modulus > 0 && 0 <= va < modulus && AckIsCovered(View(), nr)
      modifies this, t1, t3
      ensures View() == (if old(st) == Connected then CheckIframeAcked(old(View()), nr, clock) else UpdateAck(old(View()), nr))
      ensures modulus > 0
    {
      hide CheckIframeAcked, UpdateAck;
      AckKeepsModulus(View(), nr, clock);
      if st == Connected {
        CheckIframeAck(nr, clock);
      } else {
        AckUpTo(nr);
      }
    }

    method TakeIframe(ns: int, poll: bool, payload: seq<byte>)
      requires modulus > 0
      modifies this`vr, this`delivered, this`rejectException, this`srejectException, this`acknowledgePending, this`sent
      ensures View() == AcceptIframe(old(View()), ns, poll, payload)
    {
      hide AcceptIframe, Send, Plain, Mod;
      if Takes(View(), ns) {
        AcceptTaken(View(), ns, poll, payload);
      } else if Answer(View(), ns, poll).NoFrame? {
        AcceptIgnored(View(), ns, poll, payload);
      } else if Answer(View(), ns, poll).Rr? || Answer(View(), ns, poll).Rnr? {
        AcceptStatus(View(), ns, poll, payload);
      }
      if ownReceiverBusy {
        if poll {
          AnswerWith(Rnr(vr, true));
        }
        return;
      }
      if ns == vr {
        Deliver(payload);
        if poll {
          AnswerWith(Rr(vr, true));
          return;
        }
        acknowledgePending := true;
        return;
      }
      if rejectException {
        if poll {
          AnswerWith(Rr(vr, true));
        }
        return;
      }
      AskAgain(ns, poll, payload);
    }

    method Deliver(payload: seq<byte>)
      requires modulus > 0
      modifies this`vr, this`delivered
      ensures View() == old(View()).(vr := Mod(old(vr) + 1, modulus), delivered := old(delivered) + [payload])
    {
      hide Mod;
      RemainderOf(vr + 1, modulus);
      vr := (vr + 1) % modulus;
      delivered := delivered + [payload];
    }

    /** The tail of iframe: a frame out of order with no reject outstanding. */
    method AskAgain(ns: int, poll: bool, ghost payload: seq<byte>)
      requires !ownReceiverBusy && ns != vr && !rejectException
      modifies this`rejectException, this`srejectException, this`acknowledgePending, this`sent
      ensures View() == AcceptIframe(old(View()), ns, poll, payload)
    {
      hide AcceptIframe, Send, Plain, Mod;
      if Answer(View(), ns, poll).Rej? {
        AcceptRejected(View(), ns, poll, payload);
      } else {
        AcceptSelective(View(), ns, poll, payload);
      }
      if !srejEnabled {
        MarkReject();
        AnswerWith(Rej(vr, poll));
        return;
      }
      if srejectException > 0 {
        CountSrej();
        AnswerWith(Srej(ns, false));
        return;
      }
      if ns != vr + 1 {
        MarkReject();
        AnswerWith(Rej(vr, poll));
        return;
      }
      CountSrej();
      AnswerWith(Srej(vr, false));
    }

    method MarkReject()
      modifies this`rejectException
      ensures View() == old(View()).(rejectException := true)
    {
      rejectException := true;
    }

    method CountSrej()
      modifies this`srejectException
      ensures View() == old(View()).(srejectException := old(srejectException) + 1)
    {
      srejectException := srejectException + 1;
    }

    method AnswerWith(f: Frame)
      modifies this`sent, this`acknowledgePending
      ensures View() == Send(old(View()), Plain(f, f.Rnr?)).(acknowledgePending := false)
    {
      hide Send, Plain;
      SendPacket(Plain(f, f.Rnr?));
      ForgetPending();
    }

    method DisconnectedConnect(dst: string, src: string)
      requires t1 != t3 && st == Disconnected
      modifies this, t1, t3
      ensures View() == OnDlConnect(old(View()), dst, src)
    {
      modulus := 8;
      SetAddresses(dst, src);
      StartMeasuring();
      Connect();
    }

    method Connect()
      requires t1 != t3
      modifies this, t1, t3
      ensures View() == Establish(old(View())).(layer3Initiated := true, st := AwaitingConnection)
    {
      hide Establish;
      EstablishDataLink();
      layer3Initiated := true;
      Enter(AwaitingConnection);
    }

    method StartMeasuring()
      modifies this`srt, this`t1v, t1
      requires t1 != t3
      ensures View() == old(View()).(srt := 3000.0, t1v := 6000, t1 := old(t1.View()).(ms := 6000))
    {
      ResetRoundTrip();
      t1.Set(t1v);
    }

    method ConnectedConnect(dst: string, src: string)
      requires t1 != t3 && st == Connected
      modifies this, t1, t3
      ensures View() == OnDlConnect(old(View()), dst, src)
    {
      SetAddresses(dst, src);
      ClearIframeQueue();
      Connect();
    }

    method DataDisconnect()
      requires t1 != t3 && InData(View())
      modifies this, t1, t3
      ensures View() == OnDlDisconnect(old(View()))
    {
      hide Send, Plain, ClearQueues;
      ClearIframeQueue();
      SetRetries(0);
      SendPacket(Plain(Disc(true), false));
      LeaveOnT1();
    }

    method LeaveOnT1()
      requires t1 != t3
      modifies this`st, t1, t3
      ensures View() == StartT1(StopT3(old(View()))).(st := AwaitingRelease)
    {
      StopTimer3();
      StartTimer1();
      Enter(AwaitingRelease);
    }

    method Enqueue(payload: seq<byte>)
      modifies this`resend, this`queue
      ensures View() == old(View()).(resend := old(resend) + [payload], queue := old(queue) + [payload])
    {
      resend := resend + [payload];
      queue := queue + [payload];
    }

    method ConnectedT1()
      requires t1 != t3
      modifies this, t1
      ensures View() == OnT1Connected(old(View()))
    {
      hide TransmitEnquiry;
      SetRetries(1);
      EnterRecovery();
    }

    method EnterRecovery()
      requires t1 != t3
      modifies this`st, this`sent, this`acknowledgePending, t1
      ensures View() == TransmitEnquiry(old(View())).(st := TimerRecovery)
    {
      hide TransmitEnquiry;
      SendEnquiry();
      Enter(TimerRecovery);
    }

    method TimerRecoveryT1()
      requires t1 != t3
      modifies this, t1
      ensures View() == OnT1Recovery(old(View()))
    {
      hide TransmitEnquiry;
      if rc != n2 {
        SetRetries(rc + 1);
        SendEnquiry();
        return;
      }
      Enter(Disconnected);
    }

    method AwaitingConnectionT1(clock: Clock)
      requires t1 != t3
      modifies this, t1
      ensures View() == OnT1Awaiting(old(View()), clock)
    {
      hide SelectT1, Send, Plain, ClearQueues;
      if rc == n2 {
        ClearIframeQueue();
        Enter(Disconnected);
        return;
      }
      SetRetries(rc + 1);
      AskAnew(clock);
    }

    method AskAnew(clock: Clock)
      requires t1 != t3
      modifies this`sent, this`srt, t1
      ensures View() == StartT1(SelectT1(Send(old(View()), Plain(Sabm(true), false)), clock))
    {
      hide SelectT1, Send, Plain;
      SendPacket(Plain(Sabm(true), false));
      SelectT1Value(clock);
      StartTimer1();
    }

    // -------------------------------------------------------------------------------------------
    // Events

    method ReceiveSabm(p: Packet, clock: Clock)
      requires Valid() && p.frame.Sabm?
      modifies this, t1, t3
      ensures Valid() && View() == Step(old(View()), Receive(p), clock)
    {
      hide Safe, Poll, OnSabmConnected, OnSabmDisconnected;
      PacketSafe(View(), p, clock);
      if st == Disconnected {
        DisconnectedSabm(p);
      } else if st == Connected {
        ConnectedSabm(p);
      }
      PollQueue();
    }

    method ReceiveSabme(p: Packet, clock: Clock)
      requires Valid() && p.frame.Sabme?
      modifies this, t1, t3
      ensures Valid() && View() == Step(old(View()), Receive(p), clock)
    {
      hide Safe, Poll, OnSabmConnected, OnSabmDisconnected;
      PacketSafe(View(), p, clock);
      if st == Disconnected {
        DisconnectedSabm(p);
      }
      PollQueue();
    }

    method ReceiveUi(p: Packet, clock: Clock)
      requires Valid() && p.frame.Ui?
      modifies this, t1, t3
      ensures Valid() && View() == Step(old(View()), Receive(p), clock)
    {
      hide Safe, Poll, SendStatus;
      PacketSafe(View(), p, clock);
      if p.frame.push != 0 {
        if st == Disconnected {
          SendPacket(Plain(Dm(true), false));
        } else if st == Connected {
          AnswerEnquiry(true);
        }
      }
      PollQueue();
    }

    method ReceiveUa(p: Packet, clock: Clock)
      requires Valid() && p.frame.Ua?
      modifies this, t1, t3
      ensures Valid() && View() == Step(old(View()), Receive(p), clock)
    {
      hide Safe, Poll, OnUaAwaiting, Reestablish;
      PacketSafe(View(), p, clock);
      if st == AwaitingConnection {
        if p.frame.poll {
          AwaitingConnectionUa(clock);
        }
      } else if st == Connected || st == TimerRecovery {
        AskForNewLink();
      }
      PollQueue();
    }

    method ReceiveRr(p: Packet, clock: Clock)
      requires Valid() && p.frame.Rr?
      modifies this, t1, t3
      ensures Valid() && View() == Step(old(View()), Receive(p), clock)
    {
      hide Safe, Poll, OnRrConnected, OnRrRecovery;
      PacketSafe(View(), p, clock);
      if st == Connected {
        ConnectedRr(p.frame.nr, p.frame.poll, p.commandResponse, clock);
      } else if st == TimerRecovery {
        TimerRecoveryRr(p.frame.nr, p.frame.poll, p.commandResponse, clock);
      }
      PollQueue();
    }

    method ReceiveIframe(p: Packet, clock: Clock)
      requires Valid() && p.frame.IFrame?
      modifies this, t1, t3
      ensures Valid() && View() == Step(old(View()), Receive(p), clock)
    {
      hide Safe, Poll, OnIframe;
      PacketSafe(View(), p, clock);
      if st == Connected || st == TimerRecovery {
        DataIframe(p, clock);
      } else {
        NoIframe(View(), p, clock);
      }
      PollQueue();
    }

    method ReceiveDm(p: Packet, clock: Clock)
      requires Valid() && p.frame.Dm?
      modifies this, t1, t3
      ensures Valid() && View() == Step(old(View()), Receive(p), clock)
    {
      hide Safe, Poll, ClearQueues, StopT1, StopT3;
      PacketSafe(View(), p, clock);
      if st == Connected || st == TimerRecovery {
        DataDm();
      }
      PollQueue();
    }

    method ReceiveDisc(p: Packet, clock: Clock)
      requires Valid() && p.frame.Disc?
      modifies this, t1, t3
      ensures Valid() && View() == Step(old(View()), Receive(p), clock)
    {
      hide Safe, Poll, ClearQueues, StopT1, StopT3, Send, Plain;
      PacketSafe(View(), p, clock);
      if st == Disconnected {
        SendPacket(Plain(Dm(p.frame.poll), false));
      } else if st == Connected || st == TimerRecovery {
        DataDisc(p.frame.poll);
      }
      PollQueue();
    }

    method ConnectRequest(dst: string, src: string, clock: Clock)
      requires Valid()
      modifies this, t1, t3
      ensures Valid() && View() == Step(old(View()), DlConnect(dst, src), clock)
    {
      hide Safe, Poll, OnDlConnect;
      ConnectSafe(View(), dst, src);
      if st == Disconnected {
        DisconnectedConnect(dst, src);
      } else if st == Connected {
        ConnectedConnect(dst, src);
      } else {
        NoConnect(View(), dst, src);
      }
      PollQueue();
    }

    method DataRequest(payload: seq<byte>, clock: Clock)
      requires Valid()
      modifies this, t1, t3
      ensures Valid() && View() == Step(old(View()), DlData(payload), clock)
    {
      hide Safe, Poll;
      DataSafe(View(), payload);
      if st == Connected || st == TimerRecovery {
        Enqueue(payload);
      }
      PollQueue();
    }

    method DisconnectRequest(clock: Clock)
      requires Valid()
      modifies this, t1, t3
      ensures Valid() && View() == Step(old(View()), DlDisconnect, clock)
    {
      hide Safe, Poll;
      DisconnectSafe(View());
      if st == Connected || st == TimerRecovery {
        DataDisconnect();
      }
      PollQueue();
    }

    /** trigger_timers when T1's deadline has passed: a running timer is stopped, then ticks. */
    method TriggerT1(clock: Clock)
      requires Valid()
      modifies this, t1, t3
      ensures Valid() && View() == Step(old(View()), T1Expires, clock)
    {
      hide Safe, Poll, OnT1Connected, OnT1Recovery, OnT1Awaiting;
      if t1.running {
        SameWindowSafe(View(), StopT1(View()));
        T1Safe(StopT1(View()), clock);
        t1.Stop();
        match st {
          case Connected => ConnectedT1();
          case TimerRecovery => TimerRecoveryT1();
          case AwaitingConnection => AwaitingConnectionT1(clock);
          case _ =>
        }
        PollQueue();
      }
    }

    /** No state has a handler for T3; all that happens is that the timer stops. */
    method TriggerT3(clock: Clock)
      requires Valid()
      modifies this, t1, t3
      ensures Valid() && View() == Step(old(View()), T3Expires, clock)
    {
      hide Safe, Poll;
      if t3.running {
        SameWindowSafe(View(), StopT3(View()));
        t3.Stop();
        PollQueue();
      }
    }

    /** trigger_timers: T1 ticks first, and the state that it leads to decides whether T3 still runs. */
    method TriggerTimers(late1: bool, late3: bool, clock: Clock)
      requires Valid()
      modifies this, t1, t3
      ensures Valid()
      ensures var c := if late1 then Step(old(View()), T1Expires, clock) else old(View());
              View() == if late3 then Step(c, T3Expires, clock) else c
    {
      hide Safe, Step;
      if late1 {
        TriggerT1(clock);
      }
      if late3 {
        TriggerT3(clock);
      }
    }

    /** next_timer, given the deadlines of the two timers: the earliest deadline of a running timer. */
    method NextTimer(deadline1: int, deadline3: int) returns (deadline: int, some: bool)
      ensures some <==> t1.running || t3.running
      ensures some ==> (t1.running && deadline == deadline1) || (t3.running && deadline == deadline3)
      ensures some ==> (t1.running ==> deadline <= deadline1) && (t3.running ==> deadline <= deadline3)
    {
      if !t1.running && t3.running {
        return deadline3, true;
      }
      if t1.running && !t3.running {
        return deadline1, true;
      }
      if !t1.running && !t3.running {
        return 0, false;
      }
      return if deadline3 < deadline1 then deadline3 else deadline1, true;
    }
  }

  lemma AckKeepsModulus(c: Conn, nr: int, clock: Clock)
    ensures UpdateAck(c, nr).modulus == c.modulus && CheckIframeAcked(c, nr, clock).modulus == c.modulus
  {
    hide NewSrt, NewPeriod;
  }

  /** An I frame in sequence: taken first, then answered if asked. */
  lemma AcceptTaken(c: Conn, ns: int, poll: bool, payload: seq<byte>)
    requires Takes(c, ns)
    ensures var taken := c.(vr := Mod(c.vr + 1, c.modulus), delivered := c.delivered + [payload]);
            && (poll ==> AcceptIframe(c, ns, poll, payload) == Send(taken, Plain(Rr(taken.vr, true), false)).(acknowledgePending := false))
            && (!poll ==> AcceptIframe(c, ns, poll, payload) == taken.(acknowledgePending := true))
  {
    hide Mod;
    assert c.sent + [] == c.sent;
  }

  /** An I frame that is not taken: ignored, answered, or asked for again. */
  lemma AcceptIgnored(c: Conn, ns: int, poll: bool, payload: seq<byte>)
    requires !Takes(c, ns) && Answer(c, ns, poll).NoFrame?
    ensures AcceptIframe(c, ns, poll, payload) == c
  {
    hide Mod, Answer;
    assert c.sent + [] == c.sent;
  }

  lemma AcceptStatus(c: Conn, ns: int, poll: bool, payload: seq<byte>)
    requires !Takes(c, ns) && (Answer(c, ns, poll).Rr? || Answer(c, ns, poll).Rnr?)
    ensures var f := Answer(c, ns, poll);
            AcceptIframe(c, ns, poll, payload) == Send(c, Plain(f, f.Rnr?)).(acknowledgePending := false)
  {
    hide Mod, Answer, Addressed;
  }

  lemma AcceptRejected(c: Conn, ns: int, poll: bool, payload: seq<byte>)
    requires !Takes(c, ns) && Answer(c, ns, poll).Rej?
    ensures var f := Answer(c, ns, poll);
            AcceptIframe(c, ns, poll, payload) == Send(c.(rejectException := true), Plain(f, false)).(acknowledgePending := false)
  {
    hide Mod, Answer, Plain;
  }

  lemma AcceptSelective(c: Conn, ns: int, poll: bool, payload: seq<byte>)
    requires !Takes(c, ns) && Answer(c, ns, poll).Srej?
    ensures var f, counted := Answer(c, ns, poll), c.(srejectException := c.srejectException + 1);
            AcceptIframe(c, ns, poll, payload) == Send(counted, Plain(f, false)).(acknowledgePending := false)
  {
    hide Mod, Answer, Plain;
  }

  lemma NoIframe(c: Conn, p: Packet, clock: Clock)
    requires !InData(c) && p.frame.IFrame?
    ensures OnIframe(c, p, clock) == c
  {}

  lemma NoConnect(c: Conn, dst: string, src: string)
    requires c.st != Disconnected && c.st != Connected
    ensures OnDlConnect(c, dst, src) == c
  {}

  /** 2 << rc */
  function ShiftTwo(rc: nat): nat {
    if rc == 0 then 2 else 2 * ShiftTwo(rc - 1)
  }

  lemma {:induction false} DoubledIsShift(rc: nat, x: real)
    ensures Doubled(rc + 1, x) == ShiftTwo(rc) as real * x
  {
    if rc > 0 {
      DoubledIsShift(rc - 1, 2.0 * x);
      assert ShiftTwo(rc) as real == 2.0 * (ShiftTwo(rc - 1) as real);
    } else {
      assert Doubled(1, x) == Doubled(0, 2.0 * x);
    }
  }

  /** What the two loops over the resend queue need: it holds every frame from V(A) to V(S). */
  predicate AckIsCovered(c: Conn, nr: int) {
    0 <= nr < c.modulus && Dist(c.va, nr, c.modulus) + Dist(nr, c.vs, c.modulus) <= |c.resend|
  }

  lemma InRangeMeans(c: Conn, nr: int)
    requires Safe(c) && InData(c) && InRange(c.va, nr, c.vs, c.modulus)
    ensures AckIsCovered(c, nr)
  {
    DistNear(c.va, nr, c.modulus);
    DistNear(c.va, c.vs, c.modulus);
    DistNear(nr, c.vs, c.modulus);
  }

  function SendFirst(c: Conn): Conn
    requires c.queue != []
  {
    c.(queue := c.queue[1..],
       vs := Mod(c.vs + 1, c.modulus),
       sent := c.sent + [Addressed(c, Plain(IFrame(c.vr, c.vs, c.vs == Mod(c.va + c.k + c.modulus - 1, c.modulus),
                                                   false, 0xf0, c.queue[0]), true))],
       t1 := TimerView(true, c.t1.ms),
       t3 := TimerView(c.t3.running && c.t1.running, c.t3.ms))
  }

  lemma SendingNone(c: Conn)
    ensures Sending(c, 0) == c
  {
    assert c.queue[0..] == c.queue && c.sent + [] == c.sent;
  }

  /** The loop of dl_data_poll stops exactly when PollCount frames are out. */
  lemma SendingBounds(c: Conn, n: nat)
    requires Safe(c) && InData(c) && n <= PollCount(c)
    ensures var d := Sending(c, n);
            && d.modulus > 0
            && (n == PollCount(c) <==> d.queue == [] || d.peerReceiverBusy || d.vs == Mod(d.va + d.k, d.modulus))
  {
    hide Burst;
    SendingSafe(c, n);
    var d := Sending(c, n);
    DistNear(d.va, d.vs, d.modulus);
    ModNear(d.va + d.k, d.modulus);
    DistNear(d.va, Mod(d.va + d.k, d.modulus), d.modulus);
  }

  lemma BurstOneMore(c: Conn, n: nat)
    requires n < |c.queue|
    ensures Burst(c, n + 1) == Burst(c, n) + [NthFrame(c, n)]
  {}

  lemma SendingOneMore(c: Conn, n: nat)
    requires Safe(c) && InData(c) && n < PollCount(c)
    ensures Sending(c, n).queue != []
    ensures Sending(c, n + 1) == SendFirst(Sending(c, n))
  {
    hide Burst, Mod, Safe;
    var d := Sending(c, n);
    BurstOneMore(c, n);
    assert d.queue == c.queue[n..] && d.queue[0] == c.queue[n] && d.queue[1..] == c.queue[n + 1..];
    assert d.vs == Mod(c.vs + n, c.modulus) && d.modulus > 0 by { InWindow(c); }
    ModModAdd(c.vs + n, 1, c.modulus) by { InWindow(c); }
    assert c.sent + Burst(c, n + 1) == d.sent + [NthFrame(c, n)];
  }

  lemma InWindow(c: Conn)
    requires Safe(c) && InData(c)
    ensures c.modulus > 0 && Mod(c.vs, c.modulus) == c.vs
  {}
}
