# Verification of the AX.25 link layer of ax25ms

A Dafny model, with proofs, of the part of ax25ms that has to be right for data to arrive: the connected-mode
state machine (`src/seqpacket_con.cc`, `src/seqpacket_con.h`), the frame check sequence (`src/fcs.cc`), the packet
codec (`src/serialize.cc`, `src/parse.cc`) and KISS framing (`src/serial.cc`).  `dafny verify dfyconfig.toml` checks
all of it.

## How it is organised

* **The machine.**  `Connections.dfy` holds the connection as the program writes it: a class with the program's
  fields, one method per event, handlers that change fields, loops over the queues.  `Link.dfy` says on values what
  each event does (`Step`); every event method is proved to take the connection's `View` from one value to the next
  as `Step` says and to keep `Valid`.  Everything below is about `Step`, hence about the class.
* **One connection, any peer.**  `LinkInvariants.dfy` (queues and window), `Discipline.dfy` (timers, retries, periods,
  work conservation), `Retries.dfy` (the retry counter as a termination measure), `Timing.dfy` (arithmetic of T1's
  period), `Talk.dfy` (which frames can be sent at all), `Windows.dfy` and `Steps.dfy` (the sender in absolute
  numbers), `Receiving.dfy` (the receiver), `Reactions.dfy` and `Periods.dfy` (control frames, states, flags, timers and
  round-trip times as decision tables that do not use the handlers), `Consequences.dfy` (what follows from the tables),
  `Sessions.dfy` (histories over whole runs), `Leftovers.dfy` (the one way in
  which labels can go wrong, and exactly when).
* **Two connections.**  `Ends.dfy` and `TwoEnds.dfy` (two ends, two channels that lose frames and keep their order),
  `Handshake.dfy` (how a session begins, over channels that lose frames), `Recovery.dfy` (progress after everything in
  flight was lost), `Exchanges.dfy` (a payload, and the release of the link).
* **The codecs.**  `FrameCheck.dfy`, `Bursts.dfy`, `Calls.dfy`, `Serializer.dfy`, `Parser.dfy`, `RoundTrip.dfy`,
  `Kiss.dfy`, and `Wire.dfy`, which composes them under the machine.  `Radio.dfy` puts a session of two connections on
  top: a program started with `-f both` at either end, octets that fade or are damaged in between; `Pairing.dfy`: nothing that
  arrives undamaged is lost in the daemon's look-up.  `Layouts.dfy` gives the octets of packets as numbers.
* `Bytes.dfy`, `Packets.dfy`, `Modular.dfy`, `Folds.dfy`: octets, the messages of `proto/ax25.proto`, sequence-number
  arithmetic, folds.

## How the program's things appear

* A packet is a value of `Packets.Packet`; what the send and receive callbacks are given accumulates in `sent` and
  `delivered`.
* The two deques hold payloads.  In the program they hold packets, but every such packet is built by `dl_data` from
  its payload alone; N(S), N(R) and the P bit are set on the copy that is sent and never on the copies that are kept.
* Clock readings are inputs: a `Clock` gives, for each event, the remaining time that T1's last stop measured and
  whether T1's deadline has passed.  All results hold for all readings.
* A tick is `trigger_timers`' stop followed by the tick handler, as one step.
* `srt` is a real number.  Between events it is whole milliseconds, and every value on the way is one that a double
  holds exactly (`Timing.SmoothingIsExact`).
* An exception of the codec is an error result.  An exception in the serial reader restarts it, with the rest of the
  chunk lost, as `read_main` does.
* `htons` on the check bytes is that of a little-endian machine; the value is recorded, never used.

## Where the code and its comments differ

The model follows the code.

* A comment puts the window at 127 modulo 128; the program's k is 7 always.
* `select_t1_value` describes an exponential back-off; it is never reached (`Timing.BackOffIsDead`), because T1 is
  stopped whenever the period is chosen and a stopped timer is not expired.
* TimerRecovery gives up at n2 without emptying the queues, unlike AwaitingConnection.  If the same connection begins
  another session, payloads of the old one are sent under numbers of the new one (`Leftovers.LabelsRightIffEmpty` says
  exactly when).  The service avoids this by discarding the connection.
* A connection that has not been told any address answers DISC, and UI with P, with a DM that serialize refuses
  (`Wire.RunIsCanonical` says exactly when).
* A connection that gets a UA too many, because T1 ran out before the first UA came, asks for a new link; the UA that
  answers empties its queues if an I frame was unacknowledged (`Handshake.SecondUaKeepsIff`).
* AwaitingRelease has no handlers: the UA that answers the DISC is ignored, and the connection stays there
  (`Consequences.NeverReleased`).
* The comment where an I frame is taken says that the reject exception is cleared; it is not, so that a session sends
  at most one REJ (`Consequences.RejectsOnce`).
* The retry count is not cleared when timer recovery ends well, so that no round trip is measured after that
  (`Consequences.MeasuresNoMore`).
* An S frame with `rr_extseq` is written in two octets and read from one, so it comes back only if N(R) is 0 and P is
  not set (`RoundTrip.RoundTripIffCanonical`).
* The control octet that parse takes for TEST is 0xEF; AX.25 v2.2 section 4.3.3 gives 0xE3.

## Model

| member | source | states |
|---|---|---|
| TwoEnds.EndToEnd | src/seqpacket_con.cc:479-513 | In every state that an established session can reach, with frames lost anywhere and timers and requests in any order, what each end was given is an exact prefix of what the other accepted, what counts as acknowledged was delivered, and neither end has asked for a new link because of an N(R) out of range |
| TwoEnds.PlayAgrees | src/seqpacket_con.cc:661-767 | The invariant of both directions (numbers in flight within a window of V(R), acknowledgements in order and never ahead, contents equal to the accepted payloads) survives every sequence of moves |
| TwoEnds.ArrivalWelcome | src/seqpacket_con.cc:37-47 | Whatever reaches an end of such a session carries an N(R) in range, and acknowledges exactly the payloads its sender had received |
| TwoEnds.ArrivalIsNext | src/seqpacket_con.cc:698-703 | N(S) equal to V(R) modulo the modulus means that the frame carries the very next payload |
| TwoEnds.EstablishedAgrees | src/seqpacket_con.cc:573-598 | Two ends that have just begun a session satisfy the invariant |
| Ends.AdvanceMoves | src/seqpacket_con.h:276-303 | What one event of a session does to one end: which numbers move and how far, what is delivered, what each frame sent carries, and that DISC, UA and DM end the session for good |
| Ends.DeadEnd | src/seqpacket_con.cc:471-476 | An end that has left the session stays out, answers DISC with DM, sends and delivers nothing else |
| Handshake.EstablishedWhen | src/seqpacket_con.cc:867-880 | Two new connections, one of which asks for a link, over channels that lose frames and with T1 running out at any time: the asking end is waiting, has a link or has given up, and the session is established (both ends at the beginning of the same session, addresses matching) if and only if the asking end has a link and no SABM or UA is on its way |
| Handshake.SettlesWhen | src/seqpacket_con.cc:601-607 | From any such state, when what is on its way arrives in any order and T1 does not run out meanwhile, the session is established if and only if the asking end had a link already or was waiting with something on its way, and after exactly 4 arrivals for each SABM and 3 for each UA on its way, less 2 if it was waiting: every UA too many makes the asking end ask again |
| Handshake.AsksAgain | src/seqpacket_con.cc:867-880 | When everything is lost while the asking end waits, T1 is running, and its expiry puts a SABM on its way that needs two arrivals, unless rc is n2; then the end gives up |
| Handshake.SecondUaKeepsIff | src/seqpacket_con.cc:573-598 | An end in a session that gets two UAs ends up in Connected with its payloads if and only if none of its I frames was unacknowledged; otherwise all of them are gone, sent or not |
| Handshake.LateUaForgets | src/seqpacket_con.cc:601-607 | A run of two new connections that comes to this: T1 runs out before the UA is there, and the payload sent on the new link is forgotten |
| Handshake.HandshakeEstablishes | src/seqpacket_con.cc:810-822 | Two new connections that exchange SABM and UA have an established session, with the addresses swapped and one frame sent each |
| Recovery.RoundRecovers | src/seqpacket_con.cc:837-853 | When everything on its way is lost and a retry is left, one undisturbed round (T1, enquiry, F=1 answer, the frames sent again) brings the receiver up to V(S) of the sender, and a window further than it was if that much was accepted; the sender stays in its session and has spent at most one retry |
| Recovery.RoundsDeliver | src/seqpacket_con.cc:837-864 | Payloads get through whatever arrives and whatever is lost between the rounds, with clock readings of its own in every round, as long as the channels are empty when T1 runs out again: after n rounds, n no more than the retries left, the receiver has everything that the sender accepted or at least 7 n payloads more than before |
| Recovery.ExchangeResends | src/seqpacket_con.cc:479-502 | After enquiry and answer the frames on their way to the receiver are I frames numbered consecutively from what it has received up to V(S) |
| Sessions.EveryRunRecorded | src/seqpacket_con.cc:883-942 | Over every run of a connection, with any packets from any peer: the payloads delivered in a session came in commands no longer than n1 numbered 0, 1, 2, ...; in a session that began with empty queues the payload accepted as number i is sent with N(S) = i modulo the modulus every time; and all sessions begin so unless timer recovery has given up with unacknowledged payloads |
| Sessions.StartRecorded | src/seqpacket_con.cc:1040-1053 | A new connection satisfies what every run keeps |
| Sessions.ResetBegins | src/seqpacket_con.cc:538-598 | A session begins with an empty resend queue exactly if the connection had one or the event empties it, and then with all numbers in step |
| Sessions.LeavesIdle | src/seqpacket_con.cc:855-863 | Every way out of a session leaves queues that are empty or will be emptied, except the time-out of timer recovery with payloads unacknowledged |
| Leftovers.LabelsRightIffEmpty | src/seqpacket_con.cc:855-863 | The labels of a session stay right whatever happens in it if and only if it begins with an empty resend queue |
| Leftovers.LeftoverSent | src/seqpacket_con.cc:239-256 | From any session begun with a leftover: one dl_data, one time-out and one answer send the leftover as number 0 of that session |
| Leftovers.LeftoverReached | src/seqpacket_con.cc:855-863 | A run from a new connection on that does it: a link is accepted, a payload is never acknowledged, timer recovery gives up, and the next session sends that payload under a number of its own |
| Steps.StepLabelled | src/seqpacket_con.cc:883-929 | An event that a session survives keeps queues and state variables in step with the accepted payloads, acknowledges exactly (N(R) - V(A)) mod m of them, never takes V(S) back, and sends only I frames that carry their own number; and exactly which events a session survives |
| Steps.WorkConserved | src/seqpacket_con.cc:885-901 | Between events exactly min(k, unacknowledged) frames are outstanding |
| Steps.StepPolls | src/seqpacket_con.cc:912-916 | In any session, among the I frames that an event sends only the last can have its P bit set, and it has exactly when the window is then full |
| Steps.RetransmissionExact | src/seqpacket_con.cc:239-256 | An F=1 response in TimerRecovery that leaves payloads unacknowledged makes the event send exactly the first min(k, unacknowledged) of them, in order, numbered from N(R), and nothing else |
| Windows.AckInStep | src/seqpacket_con.cc:258-266 | An accepted N(R) acknowledges exactly the payloads before it |
| Windows.PollLabels | src/seqpacket_con.cc:883-929 | Draining the queue sends the next payloads in order under their own numbers and leaves the window full or the queue empty |
| Receiving.StepReceives | src/seqpacket_con.cc:661-767 | Against any peer: a payload is delivered exactly for a command I frame in sequence, in range and no longer than n1; V(R) moves exactly then; only the three session-opening events lead into a data state; only connecting changes addresses and modulus |
| Talk.StepTalks | src/seqpacket_con.cc:962-1038 | Whatever happens, every frame sent is one that serialize writes (RNR, SREJ and SABME never are), carries this end's addresses and opposite C bits, and every N(R) equals V(R) |
| Reactions.StepReacts | src/seqpacket_con.cc:479-960 | In every reachable state every event makes a connection send exactly the control frames of a decision table written without the handlers, before any I frame, and leaves it in the state, retry count and flags of that table |
| Periods.StepTimed | src/seqpacket_con.cc:338-369 | The events that measure a round trip are exactly the UA that opens a link and an acknowledgement of everything in Connected, and only while no retry has been counted; what the estimate and T1's period become in whole milliseconds; which events start and stop T3 |
| Consequences.PollAnswered | src/seqpacket_con.cc:661-748 | In a session an RR or I frame with P that is a command and is used gets exactly one response with F, which acknowledges everything received so far, and no other RR or I frame gets one |
| Consequences.OutOfSequence | src/seqpacket_con.cc:724-743 | The first I frame out of sequence is answered with one REJ response for V(R) whose F is the frame's P, and sets the reject exception; while it is set, with an RR response if the frame has P and not at all otherwise; nothing is delivered |
| Consequences.RejectsOnce | src/seqpacket_con.cc:689-743 | Over every run in which a session goes on, at most one REJ is sent, because nothing clears the reject exception |
| Consequences.MeasuresNoMore | src/seqpacket_con.cc:338-361 | Once a retry has been counted, the round-trip estimate and T1's period stay as they are for the rest of the session |
| Consequences.DisconnectSends | src/seqpacket_con.cc:945-953 | dl_disconnect in a session sends exactly one DISC with P and this end's addresses, and waits for the release with T1 running |
| Consequences.NeverReleased | src/seqpacket_con.cc:471-476 | A connection that has asked for the release stays in AwaitingRelease over every run, sends nothing and delivers nothing |
| Consequences.FirstAsk | src/seqpacket_con.cc:810-822 | What dl_connect makes of a new connection: one SABM with P, T1 running with 6000 ms, estimate 3000 ms, three retries, n1 65000 |
| Consequences.FirstAccept | src/seqpacket_con.cc:538-570 | What a SABM makes of a new connection: one UA with F to its sender, T1's period 3000 ms, T3 running with 300000 ms, estimate 3000 ms, ten retries, n1 65000 |
| Consequences.FirstLink | src/seqpacket_con.cc:573-598 | A UA one second after that SABM makes the estimate 2750 ms and T1's period 5500 ms |
| Exchanges.PayloadArrives | src/seqpacket_con.cc:883-942 | In a new session a payload accepted at one end goes out at once in one frame and is delivered when that frame arrives |
| Exchanges.ReleaseArrives | src/seqpacket_con.cc:770-779 | dl_disconnect at one end and the arrival of its DISC take the other end to Disconnected with one UA with F back; the UA changes nothing at the end that asked |
| LinkInvariants.StepSafe | src/seqpacket_con.cc:239-266 | Every event keeps the queue a suffix of the resend queue, the numbers below the modulus and at most min(k, sent and kept) frames outstanding |
| LinkInvariants.AckSafe | src/seqpacket_con.cc:258-266 | An accepted N(R) drops exactly (N(R) - V(A)) mod m payloads, no more than there are |
| LinkInvariants.SendingSafe | src/seqpacket_con.cc:883-929 | Sending n frames that fit the window makes exactly n more outstanding |
| Discipline.EveryRunRegular | src/seqpacket_con.cc:185-216 | In every reachable state: T1 and T3 never both run; in Connected T1 runs if and only if frames are outstanding, in TimerRecovery and AwaitingConnection always; rc <= n2; T1's period and the round-trip time within 100 to 10000 ms; the queue empty or the window full; the busy and selective-reject branches unreachable |
| Discipline.StepRegular | src/seqpacket_con.cc:1077-1094 | One event keeps all of that |
| Discipline.FreshRegular | src/seqpacket_con.h:81-154 | A new connection has all of that |
| Discipline.RecoveredPending | src/seqpacket_con.cc:486-502 | The F=1 answer that stops T1 always leaves something to send, or returns to Connected with nothing outstanding |
| Retries.RetriesNeverReturned | src/seqpacket_con.cc:846-880 | While a connection stays in TimerRecovery or AwaitingConnection nothing that arrives lowers rc, and each expiry of T1 raises it by one |
| Retries.SilenceEndsTheLink | src/seqpacket_con.cc:837-880 | With no answer the connection is Disconnected after exactly n2 + 1 expiries from Connected and n2 - rc + 1 from a waiting state, not before |
| Retries.UnansweredConnect | src/seqpacket_con.cc:867-880 | An unanswered connect sends exactly n2 + 1 SABMs, then gives up |
| Timing.SmoothingInIntegers | src/seqpacket_con.cc:354-361 | In exact arithmetic, with t = 7 srt + x for the measurement x, negative ones included: the new estimate is 100 for t < 800, 10000 for t > 80000 and t / 8 between, and the new period twice that or 10000 |
| Timing.SmoothingIsExact | src/seqpacket_con.cc:354-361 | For every remaining time that fits an int, every constant, product and sum of the estimate is a multiple of 1/8 with a numerator below 2^53, so that the program's doubles hold it exactly |
| Timing.BackOffIs | src/seqpacket_con.cc:362-367 | What the back-off would be, were it reached: 2^(rc + 1) times the estimate, at most 10000 |
| Timing.BackOffFits | src/seqpacket_con.cc:362-367 | (2 << rc) * srt stays below 2^31 |
| Timing.BackOffIsDead | src/seqpacket_con.cc:362-368 | The exponential back-off is never reached: whether T1 is overdue makes no difference to any event |
| Modular.RemainderOf | src/seqpacket_con.cc:44 | Mod, which is written with differences, is the remainder of the program's % on nonnegative operands |
| Connections.WalkRange | src/seqpacket_con.cc:37-47 | in_range ends and is true exactly if 0 <= N(R) < m and (N(R) - V(A)) mod m <= (V(S) - V(A)) mod m, for any N(R) whatever |
| Connections.BackOff | src/seqpacket_con.cc:366 | (2 << rc) * srt by doubling |
| Connections.Timer.constructor | src/seqpacket_con.h:40-41 | A new timer is stopped and has the given period |
| Connections.Timer.Start | src/seqpacket_con.h:44-50 | Starting runs the timer and keeps its period |
| Connections.Timer.Stop | src/seqpacket_con.h:51-58 | Stopping keeps the period |
| Connections.Timer.Restart | src/seqpacket_con.h:60-64 | Restarting leaves the timer running whatever it was |
| Connections.Timer.Set | src/seqpacket_con.h:41 | Setting the period does not start or stop the timer |
| Connections.Connection.constructor | src/seqpacket_con.cc:1040-1053 | A new connection is in the initial state, which satisfies the invariant |
| Connections.Connection.ReceiveSabm | src/seqpacket_con.cc:538-570 | SABM: a new session modulo 8 from Disconnected, a reset in Connected (queues emptied only if frames are outstanding), nothing elsewhere; then the queue is drained |
| Connections.Connection.ReceiveSabme | src/seqpacket_con.cc:538-570 | SABME: a new session modulo 128 from Disconnected, nothing elsewhere |
| Connections.Connection.ReceiveUi | src/seqpacket_con.cc:648-658 | UI with P: DM from Disconnected, an F=1 status from Connected |
| Connections.Connection.ReceiveUa | src/seqpacket_con.cc:573-607 | UA: opens the session in AwaitingConnection if F=1, asks for a new link in a data state |
| Connections.Connection.ReceiveRr | src/seqpacket_con.cc:610-624 | RR: the new state is the one that the specification of Connected and TimerRecovery gives, for any N(R) |
| Connections.Connection.ReceiveIframe | src/seqpacket_con.cc:661-767 | I frame: the new state is the one specified, and no assertion of the program fails |
| Connections.Connection.ReceiveDm | src/seqpacket_con.cc:627-636 | DM: ends a session with empty queues and stopped timers |
| Connections.Connection.ReceiveDisc | src/seqpacket_con.cc:770-779 | DISC: ends a session and answers UA, or answers DM from Disconnected |
| Connections.Connection.ConnectRequest | src/seqpacket_con.cc:810-834 | dl_connect from Disconnected and from Connected; nothing elsewhere |
| Connections.Connection.DataRequest | src/seqpacket_con.cc:932-942 | dl_data queues the payload in both queues of a data state, drops it elsewhere, and sends what fits |
| Connections.Connection.DisconnectRequest | src/seqpacket_con.cc:945-953 | dl_disconnect sends DISC and waits for release |
| Connections.Connection.TriggerT1 | src/seqpacket.cc:270-275 | T1 is stopped and then ticks, as one step, in whichever state |
| Connections.Connection.TriggerT3 | src/seqpacket.cc:276-279 | T3 is stopped; no state handles its tick |
| Connections.Connection.TriggerTimers | src/seqpacket.cc:270-280 | Both timers in the program's order equal the two steps one after the other |
| Connections.Connection.NextTimer | src/seqpacket.cc:254-268 | The earliest deadline of a running timer, if any runs |
| Connections.Connection.SendPacket | src/seqpacket_con.cc:1068-1075 | Exactly one packet is added to what was sent, with the C bits opposite and this end's addresses |
| Connections.Connection.SendEnquiry | src/seqpacket_con.cc:204-216 | The enquiry asks with P, clears the pending acknowledgement and leaves T1 running |
| Connections.Connection.AnswerEnquiry | src/seqpacket_con.cc:219-228 | The answer carries F and V(R) |
| Connections.Connection.EstablishDataLink | src/seqpacket_con.cc:185-192 | SABM out, retries zero, T1 running instead of T3 |
| Connections.Connection.AskForNewLink | src/seqpacket_con.cc:177-182 | Every failure in a data state leads to AwaitingConnection without the layer above |
| Connections.Connection.AckUpTo | src/seqpacket_con.cc:258-266 | The popping loop ends with V(A) = N(R) and exactly (N(R) - V(A)) mod m payloads gone; its assertion never fails |
| Connections.Connection.Retransmit | src/seqpacket_con.cc:239-256 | The assertion in the loop never fails, and the queue ends as the whole resend queue |
| Connections.Connection.SelectT1Value | src/seqpacket_con.cc:338-369 | New round-trip estimate and period from a zero retry count, back-off otherwise |
| Connections.Connection.CheckIframeAck | src/seqpacket_con.cc:269-294 | What an N(R) does in Connected to window and timers, in each of the four cases |
| Connections.Connection.DataPollLoop | src/seqpacket_con.cc:883-929 | The loop sends exactly as many frames as window and queue allow, each with the next number, and hands T3 over to T1 |
| Connections.Connection.PollQueue | src/seqpacket_con.cc:1077-1094 | After every event the queue is drained in data states only |
| Connections.Connection.DisconnectedSabm | src/seqpacket_con.cc:538-570 | The state in which an accepted session starts |
| Connections.Connection.ConnectedSabm | src/seqpacket_con.cc:782-807 | The state after a reset |
| Connections.Connection.AwaitingConnectionUa | src/seqpacket_con.cc:573-598 | The state in which a session that was asked for starts |
| Connections.Connection.ConnectedRr | src/seqpacket_con.cc:610-624 | Answer, range check and acknowledgement in this order |
| Connections.Connection.TimerRecoveryRr | src/seqpacket_con.cc:479-513 | The three cases of RR in TimerRecovery |
| Connections.Connection.TimerRecoveryFinal | src/seqpacket_con.cc:486-502 | F=1: measure, then retransmit or return to Connected |
| Connections.Connection.DataIframe | src/seqpacket_con.cc:661-688 | Responses ignored, long frames and wrong N(R) end the session, the rest is acknowledged and passed on |
| Connections.Connection.TakeIframe | src/seqpacket_con.cc:689-732 | Delivery in sequence, RR on P, REJ once for a gap |
| Connections.Connection.AskAgain | src/seqpacket_con.cc:734-767 | The frame out of order is rejected |
| Connections.Connection.DataDm | src/seqpacket_con.cc:627-636 | State after DM |
| Connections.Connection.DataDisc | src/seqpacket_con.cc:770-779 | State after DISC |
| Connections.Connection.DisconnectedConnect | src/seqpacket_con.cc:810-822 | State after dl_connect from Disconnected |
| Connections.Connection.ConnectedConnect | src/seqpacket_con.cc:825-834 | State after dl_connect from Connected: queues emptied |
| Connections.Connection.DataDisconnect | src/seqpacket_con.cc:945-953 | State after dl_disconnect |
| Connections.Connection.ConnectedT1 | src/seqpacket_con.cc:837-843 | State after the first expiry |
| Connections.Connection.TimerRecoveryT1 | src/seqpacket_con.cc:846-864 | One more enquiry, or Disconnected at n2 with the queues as they are |
| Connections.Connection.AwaitingConnectionT1 | src/seqpacket_con.cc:867-880 | One more SABM, or Disconnected at n2 with empty queues |
| FrameCheck.TableEntry | src/fcs.cc:12-39 | Each of the 256 table entries is eight clocks of the bit-wise register (polynomial 0x8408) |
| FrameCheck.Fcs | src/fcs.cc:44-52 | The table-driven loop computes the check bytes of the bit-wise CRC of RFC 1662 Appendix C.2 on every byte string |
| FrameCheck.OnesInvert | src/fcs.cc:46 | The register starts with ones: the check bytes are those of a register that starts with zeros after the first two octets have been inverted |
| FrameCheck.CheckValue | src/fcs.cc:44-52 | The nine digits get the check bytes 0x6e 0x90, the empty string gets 0 0 |
| FrameCheck.CheckBytesAccepted | src/fcs.cc:44-52 | A frame followed by its check bytes leaves the register at 0xf0b8 |
| FrameCheck.HighByte | src/fcs.cc:47-49 | The upper octet of the register falls through eight clocks unchanged, which is what makes the table step right |
| Bursts.LeadingZeroSeen | src/fcs.cc:46 | A zero octet in front of any data changes the check bytes |
| Bursts.RunIsBits | src/fcs.cc:44-52 | The octet-wise register is the bit-serial one over the bits as transmitted |
| Bursts.BurstDetected | src/fcs.cc:54-65 | A frame that is accepted is refused after any change confined to sixteen consecutive bits, check bytes included, at any length |
| Bursts.AdjacentOctetsDetected | src/fcs.cc:54-65 | In particular after any change to one octet or two neighbouring octets |
| Bursts.AcceptsIffCheckBytes | src/fcs.cc:54-65 | The register ends in 0xf0b8 if and only if the frame ends in the check bytes of what precedes them |
| Bursts.CheckFcs | src/fcs.cc:54-65 | check_fcs accepts exactly these frames, strips the check bytes only then, and returns their value |
| Calls.SerializeCall | src/serialize.cc:40-73 | Seven octets for exactly the callsigns with SSID up to 15, the right exception otherwise |
| Calls.ParseCall | src/parse.cc:53-90 | The callsign and bits that seven octets hold, or the error for a set low bit or missing octets |
| Calls.CallOkIff | src/serialize.cc:43-61 | A string is taken for a callsign if and only if it is two to six characters with codes 48 to 57 or 65 to 90, alone or followed by a dash and one or two digits of value at most 15; a greater value gives one exception, everything else the other |
| Calls.CallOctetsAre | src/serialize.cc:63-72 | The seven octets as numbers: codes doubled and padded with blanks, then C bit, R bits, SSID and end mark with their weights |
| Calls.ReadCallIs | src/parse.cc:53-78 | parse_call succeeds on exactly the strings of seven octets or more of which the first six are even; which error comes first otherwise; the bits of the seventh |
| Calls.ReadTextIs | src/parse.cc:56-87 | The text is the halved octets before the blanks, and a dash and the SSID if that is not 0 |
| Calls.CallReturns | src/serialize.cc:40-73 | What parse_call makes of every callsign that serialize_call accepts |
| Calls.NormalIffCanonical | src/parse.cc:79-87 | A callsign comes back unchanged if and only if its SSID is absent or written 1 to 15 without a leading zero |
| Serializer.Serialize | src/serialize.cc:76-199 | Succeeds exactly if every address is a callsign, with the octets specified and check bytes on request; fails with the error of the first bad address |
| Serializer.SerializeAddresses | src/serialize.cc:80-96 | The address field, or the error of the first bad address |
| Serializer.SerializeRepeaters | src/serialize.cc:90-96 | Any number of digipeaters, the end mark on the last |
| Serializer.SerializeFrame | src/serialize.cc:101-190 | Control, protocol identifier and information octets of each frame type |
| Parser.Parse | src/parse.cc:134-291 | The packet that any byte string holds, or which error: too small, check bytes, addresses, unknown or missing control octets |
| Parser.ParsePath | src/parse.cc:182-192 | The digipeater loop ends and collects the path up to the end mark |
| Parser.ParseFrame | src/parse.cc:193-290 | Frame type and fields from the control octets |
| Layouts.FrameOctetsAre | src/serialize.cc:101-190 | The control octets as numbers for every frame type and every N(R), N(S), P and modulus, protocol identifier and information field behind them |
| Layouts.ReadFrameIs | src/parse.cc:193-290 | The frame or error that any control octet and what follows it stand for, by arithmetic on the octet |
| Layouts.AddressBits | src/serialize.cc:80-100 | Where C bits, R bits, SSIDs and the end mark sit in the octets of a packet, and that the frame follows the addresses |
| Layouts.RepeaterBits | src/serialize.cc:90-96 | The same for every digipeater |
| Layouts.ParsedIs | src/parse.cc:151-180 | What parse makes of any octets that hold two addresses and no digipeater |
| Layouts.ParsedFails | src/parse.cc:134-172 | The order of the errors for any octets, and that a packet with check bytes fails exactly if the last two octets are not those of the rest |
| RoundTrip.ParseOfSerialize | src/parse.cc:134-291 | What parse makes of the octets of every packet that serialize accepts, canonical or not |
| RoundTrip.RoundTripIffCanonical | src/serialize.cc:76-199 | parse undoes serialize, apart from the fcs field, if and only if the packet is canonical: callsigns as parse_call writes them, a frame type that serialize writes, fields within their bits, extended = rr_extseq, rr_dst1 false |
| RoundTrip.CanonicalIsSerializable | src/serialize.cc:44-61 | serialize accepts every canonical packet |
| RoundTrip.DamagedPacketRefused | src/parse.cc:142-149 | No packet with check bytes that suffers a burst of up to sixteen wrong bits is taken for a packet |
| Kiss.KissEscape | src/serial.cc:74-93 | The escaping loop computes the escaped text |
| Kiss.KissUnescape | src/serial.cc:96-136 | The unescaping loop computes what a text stands for, nothing for a stray FEND or FESC, an exception for a wrong escape |
| Kiss.DecodeEscaped | src/serial.cc:74-136 | Unescaping undoes escaping on every byte string |
| Kiss.EscapedOctet | src/serial.cc:74-93 | 0xC0 is written 0xDB 0xDC, 0xDB is written 0xDB 0xDD, every other octet as it is |
| Kiss.FramedIs | src/serial.cc:277-283 | A frame is 0xC0, 0, the escaped payload, 0xC0 |
| Kiss.DecodeIff | src/serial.cc:96-136 | A text stands for octets if and only if it is their escaped form |
| Kiss.InvalidIff | src/serial.cc:96-136 | kiss_unescape throws if and only if a good beginning of the text ends in a broken escape |
| Kiss.FendDecides | src/serial.cc:192-241 | What a FEND does on a line that carries anything: the first brings the reader into step; after that a text is injected exactly if it is the escaped form of a zero and a payload; a broken escape loses the rest of the chunk and the step |
| Kiss.EscapedHasNoFend | src/serial.cc:74-93 | Escaped text contains no FEND |
| Kiss.Send | src/serial.cc:277-283 | The octets written for a frame |
| Kiss.SerialReader.constructor | src/serial.cc:185-190 | The reader starts out of step with an empty buffer |
| Kiss.SerialReader.Read | src/serial.cc:192-241 | One read and the buffer loop do what the octet-by-octet reader does, whatever the buffer held |
| Kiss.CutsDoNotMatter | src/serial.cc:196-224 | Where no escape is broken, the frames found do not depend on how the line is cut into reads |
| Kiss.StreamDecodes | src/serial.cc:183-242 | Any list of frames sent, after any garbage without FEND and cut in any way, is injected as exactly that list in order |
| Wire.PacketsArrive | src/serial.cc:183-242 | Canonical packets through serialize, check bytes, KISS, any cuts, and parse come back as the same packets in the same order |
| Wire.CheckFieldIgnored | src/parse.cc:148 | The one field that differs after the round trip makes no difference to the connection that receives the packet |
| Wire.RunIsCanonical | src/seqpacket_con.cc:1068-1075 | If links are asked for with canonical callsigns and modulo 8, everything that a new connection sends is canonical if no DISC, or UI with P, arrives before it knows its addresses, and serialize throws for something that it sends if one does |
| Wire.RunArrives | src/seqpacket_con.cc:962-1038 | Every packet of such a run reaches the other end of the line unchanged |
| Radio.EndToEndOnAir | src/seqpacket.cc:286-320 | An established session modulo 8 over octets: whatever is serialized with check bytes, whichever frames fade away or are damaged within sixteen consecutive bits, however KISS lines are cut into reads, and with packet_callback dropping what it cannot parse or look up, each end has been given an exact prefix of what the other accepted, and neither asks for a new link |
| Radio.CallOnAir | src/seqpacket_con.cc:573-598 | The same from two new connections on, for every call that ends in an established session |
| Radio.WholeFrameArrives | src/serial.cc:183-242 | An undamaged frame for a connection that the daemon looks up does at the far end exactly what its packet does without the octets |
| Pairing.BroadcastPaired | src/seqpacket.cc:294-304 | Whatever happens, the two stations of a session keep each other's addresses and sign every frame with them |
| Pairing.EveryFrameArrives | src/seqpacket.cc:286-320 | At a paired station every undamaged frame, whatever its type, does exactly what its packet does without the octets, although packet_callback passes on only some types |
| Pairing.CallPaired | src/seqpacket.cc:294-304 | Every call that ends in an established session begins with two paired stations |
| Radio.BroadcastOnAir | src/serial.cc:183-242 | What makes it so survives every sequence of deeds: the two ends with the undamaged frames, in the air or on a line, are a session as in TwoEnds, and each line decodes to exactly the frames heard and not yet read |
| Radio.ReadReadable | src/serial.cc:196-224 | However few or many octets a read takes off the line, the frames passed on are the next ones whole, and the rest of the line holds the rest |

## Left out

- gRPC services, threads, locks and waiting in `src/seqpacket.cc`: events of one connection are atomic and come one at a time, which is what its lock provides.
- `ConnEntry::apply` and the discarding of connections after use: not modelled; sessions on a reused connection are covered by `Leftovers`. In `Radio` the daemon's look-up is a test of the packet's addresses and type.
- T2, `connection_id`, `selective_reject_exception` and `establish_extended_data_link`: set or defined, never used.
- `frmr`: Connected has a handler but Connection has no event for it, so it cannot be reached.
- `Connection::dl_data_poll`: its template passes an argument that the state's method does not take, so it cannot be called; the drain that follows every event is modelled.
- Logging, `dl_error` texts and `state_change_` callbacks.
- REJ, RNR, SREJ, FRMR, XID, TEST and NoFrame packets as events: Connection has no method for them, so receiving one changes nothing.
- A failing send callback: its status is ignored by the program, so loss is a matter of the channel.
- Regular expressions: `Calls.MatchesCall` says which strings match.
- Characters outside ASCII in callsigns that serialize refuses: strings are sequences of characters.
- `normalize_call`, `trim`, `reflect`: not used by the link layer.
- Opening and reopening the serial port, end of file, partial writes.
- `src/scheduler.cc`, `src/preload.cc`, `src/router_hub.cc`, `src/aprs.cc`, `src/mic-e.cc` and the command-line tools: not part of the protocol.
- Connections.Timer.Start: does not compute the deadline; whether T1 is overdue and when timers run out are inputs.
- Connections.Timer.Stop: does not compute the remaining time; it is an input of the event that reads it.
- Connections.Timer.Restart: deadline and remaining time are inputs, as for Start and Stop.
- Handshake.EstablishedWhen: no data and no further dl_connect or dl_disconnect until the link is there; what a late UA does to data is `Handshake.SecondUaKeepsIff`.
- Radio.EndToEndOnAir: no damage beyond sixteen consecutive bits, which sixteen check bits cannot always show, and no frames of other stations; the modem between serial line and radio passes frames on unchanged.
- TwoEnds.EndToEnd: does not allow payloads longer than the receiver's n1, because such a payload ends the session (`Connections.Connection.DataIframe`), nor dl_connect, which begins another session; frames are neither reordered nor duplicated by a channel.
- Recovery.RoundRecovers: does not say that a channel ever leaves a round undisturbed; it starts from both ends in a data state with both channels empty.
