# Walkie-talkie relay: verified model

A Dafny model of the control logic of a walkie-talkie system: the relay's jitter buffers, channel arbitration,
lock protocol, membership and end-of-transmission tail; the client library's transmit pipeline and datagram
codec; and three small pieces of the desktop and Android clients. `dafny verify dfyconfig.toml` verifies it.

The parts, from the wire inwards:

| files | part |
|---|---|
| Packets, UdpCodec | octets, 32-bit numbers, the nine-byte datagram header, the kinds of datagram |
| TxModel, TxTheory, TxProgress, TxSession | the client's transmit queue: reframing, padding, numbering, end markers, and when it sends |
| JitterModel, JitterOrder, JitterLedger, JitterInOrder, JitterHead, JitterTraps, JitterBuffer | the relay's buffer of one speaker: as a priority queue, as a ledger, as a first-in-first-out queue, and as an object |
| SpeakerModel, SpeakerFlow, SpeakerDrain, SpeakerLosses, SpeakerTiming, SpeakerDepth, SpeakerGap, SpeakerMark, SpeakerStream | a speaker in the mixer loop: packets, markers, ticks, draining, what is lost, concealment, the end mark, adaptive depth |
| RelayPath, EndToEnd | client queue, wire, the mixer's two queues, relay speaker: what is played against what was sent |
| BusyArbiter, TxGate, GateNotices, StoppedTalker | busy mode with hangover and parallel talk; the transmit timeout with its notices; a stopped talker and the clean-up |
| RelayModel, RelaySafety, RelayMessages, RelayRuns, RelayAudience, RelayBursts, RelayInboxes, LoneTalker, RelayTraps | the whole relay and all its clients as one transition system |
| ChannelMixer, RelayHubs | mixer and hub as objects, with the loops over the clients |
| ClientSession | the client library's session state |
| EndOfTx, TailMixer, NoiseWindow, Circles | module chain, squelch, silence tail, the noise filter's window |
| PcmRing | the Android playback ring |
| Base64Url, Base64Bits, ConnectLink | connection links on the desktop (section 5 of RFC 4648) |
| ReleaseGuard | the desktop's guard against quick releases |

In each part a method over mutable fields is proved against a function on values, and the lemmas speak of
that function, mostly over whole runs.

## Assumptions

- The clock is monotone and counts integer nanoseconds (milliseconds in ReleaseGuard); zero is the unset time.
- A lock section together with the messages it sends is one atomic step, and joining a channel together with
  the catch-up frame and the session messages is one step. The order of messages to one client is kept.
- Session numbers are fresh and not zero; channel names are normalised, and a client binds once to a name
  that is not empty (`backend/cmd/relay/ws_server.go:90-117`).
- Opus is an abstract function. The theorems on conservation and numbers in the transmit pipeline take an encoder that
  succeeds on every frame with a payload that is not empty, TxProgress.RunSendsWhatIsAsked any;
  a decoder's answer is an input of the tick.
- 32-bit numbers wrap in the jitter buffer and in the sequence counter. Theorems that need room below the
  wrap say so.
- Audio gains and the noise filter are computed in exact arithmetic over the reals.
- In RelayPath datagrams come in order of sending. One may be lost on the way, refused by the transmit timeout or
  by busy mode, or dropped from a full queue at any moment; the theorems on completeness say that no audio was.
  Who talks alone and for less than the timeout is never refused (LoneTalker.HeardIffYoung).
- The theorems on completeness take a mixer that ticks in time (SpeakerLosses.Attended), which a ticker never late
  by a packet time does (SpeakerLosses.PunctualIsAttended), and nothing that is trimmed (SpeakerLosses.Untrimmed).
- In SpeakerTiming the ticker asks for a tick every packet time, and each comes when it is due or later.
- In StoppedTalker packets and markers reach the stream at once, without the queues.

## What the code does that one might not expect

- `pop` may go backwards when a late packet is resident, and may answer nothing while packets wait;
  JitterTraps.PopGoesBackIff and JitterLedger.StallIff say exactly when, and JitterTraps reaches both.
- The clean-up of silent streams forgets a stopped talker and so re-arms the transmit timeout, even for one who
  never stops sending, since refused packets do not count as a sign of life (StoppedTalker.StopLapsesIff).
- The restart after a mixer panic forgets the lock without telling the clients; RelaySafety.PanicAgreesIff
  says when that does no harm, and RelayTraps.PanicMisleads reaches a case where it does. The theorems on runs are about runs without a panic.
- A lost connection ends the receiving at the client but keeps the lock flag (ClientSession.LostStartsFreshIff,
  RelayTraps.LostStaysLocked), and a disconnection or a protocol error keeps both (EndedStartsFreshIff); the lock
  agreement is about the messages of one connection.
- Packets can get lost that nobody trimmed: a packet after a long gap throws away the leftovers of a buffer that
  has not started, and the clean-up forgets the packets of a speaker who has left or is silent. SpeakerLosses.KeepsAllIff
  says exactly when, and SpeakerLosses.NeglectLoses is an instance without a tick between two packets.
- An end marker for a speaker whose stream is already gone stays, and the next transmission is marked until a
  long gap or a clean-up, without concealment (SpeakerMark.StaleMarkerSurvivesIff, StaleMarkerMutes).
- The decoder's flush that an end marker arms outlasts the mark: if the next transmission begins within five packet times
  of the marker, a gap of it after them is not concealed unless packets wait (SpeakerGap.MarkerMutesLater).
- While the silence after a hiss is due, speech is not mixed (EndOfTx.SilenceSwallowsSpeech).
- `switchChannel` to the empty name puts a client into the default channel's set without binding it there
  (RelaySafety.SwitchKeepsMembersIff); the server never calls it so.
- The base64 reader takes both alphabets and padding inside a text (Base64Url.AcceptedIff).

## Model

| member | source | states |
|---|---|---|
| `JitterModel.TrimKeepsNewest` | backend/cmd/relay/jitter.go:107-116 | the trim loop keeps exactly the newest maxKeep packets, unchanged, and moves nothing but the head |
| `JitterBuffer.SpeakerJitterBuffer.MinSeq` | backend/cmd/relay/jitter.go:63-76 | the pass over the map finds the least resident number, or says that there is none |
| `JitterBuffer.SpeakerJitterBuffer.MaxSeq` | backend/cmd/relay/jitter.go:78-91 | the pass over the map finds the greatest resident number, or says that there is none |
| `JitterBuffer.SpeakerJitterBuffer.DropExcess` | backend/cmd/relay/jitter.go:107-116 | the loop that deletes the least number while the buffer is too full has the effect of the trimming function of which TrimKeepsNewest speaks |
| `JitterBuffer.SpeakerJitterBuffer.Push` | backend/cmd/relay/jitter.go:93-117 | the method takes the buffer to the state of the push function, duplicates, start and trimming included |
| `JitterBuffer.SpeakerJitterBuffer.Pop` | backend/cmd/relay/jitter.go:119-167 | the method gives the answer and the new state of the pop function in every branch, with the 32-bit wrap of the head |
| `JitterBuffer.SpeakerJitterBuffer.ForceStartFromMinSeq` | backend/cmd/relay/jitter.go:183-193 | a forced start puts the head at the least resident number |
| `JitterBuffer.SpeakerJitterBuffer.SetMinStartClamped` | backend/cmd/relay/jitter.go:196-224 | the depth is clamped, the capacity becomes max(32, 8 n), and the excess is trimmed |
| `JitterBuffer.SpeakerJitterBuffer.ResetBuffer` | backend/cmd/relay/jitter.go:57-61 | the reset empties and stops the buffer |
| `JitterOrder.StepWellFormed` | backend/cmd/relay/jitter.go:93-224 | every operation keeps maxKeep = max(32, 8 minStart) and the occupancy within it |
| `JitterOrder.RunRefinesQueue` | backend/cmd/relay/jitter.go:93-224 | on every run without a push behind the head the buffer is a priority queue with hold-off: same outputs, content and readiness, and nothing resident lies behind the head |
| `JitterOrder.PopReturnsLeastIff` | backend/cmd/relay/jitter.go:119-167 | a started, non-empty buffer returns the least resident packet if and only if nothing resident lies behind the head, or the head is missing and the newest packet is more than half a capacity ahead |
| `JitterTraps.PopGoesBackIff` | backend/cmd/relay/jitter.go:138-166 | a started, non-empty buffer answers with a packet behind the head if and only if something resident is behind the head, the head is missing and the newest packet is more than half a capacity ahead |
| `JitterTraps.GoesBack` | backend/cmd/relay/jitter.go:158-164 | a reachable buffer that goes back: after 100 was played, the late 50 comes out once 118 or later has come |
| `JitterTraps.Stalls` | backend/cmd/relay/jitter.go:138-166 | a reachable buffer that stalls: with a newest packet up to 117 it answers nothing although two packets wait |
| `JitterOrder.EpochIncreases` | backend/cmd/relay/jitter.go:119-167 | while the buffer stays started and no push is late, packets leave in strictly increasing order |
| `JitterLedger.ForcedStartDrains` | backend/cmd/relay/jitter.go:119-193 | whatever came before, a forced start and as many pops as there are residents return every resident once, sorted, and empty the buffer |
| `JitterLedger.StallIff` | backend/cmd/relay/jitter.go:138-166 | a started, non-empty buffer answers nil if and only if the head is missing, some resident is behind it and none is further ahead than half a capacity; then at most maxKeep/2 residents are ahead of it and nothing changes |
| `JitterLedger.RunBalances` | backend/cmd/relay/jitter.go:93-224 | on every run, late pushes included, pushed and initial packets equal popped, lost and resident ones, with multiplicity |
| `JitterLedger.NothingInvented` | backend/cmd/relay/jitter.go:119-167 | no packet comes out of an empty buffer more often than it went in |
| `JitterLedger.NothingPoppedTwice` | backend/cmd/relay/jitter.go:119-167 | a packet that went in at most once comes out at most once |
| `JitterInOrder.LosslessRunIsFifo` | backend/cmd/relay/jitter.go:93-224 | with in-order arrivals and nothing lost, popped packets followed by the sorted residents are exactly what was there and what arrived |
| `JitterInOrder.LossyRunKeepsOrder` | backend/cmd/relay/jitter.go:93-224 | with in-order arrivals the output increases even if packets are trimmed or thrown away |
| `JitterHead.TrimMovesHead` | backend/cmd/relay/jitter.go:107-116 | trimming never moves the head back: a started head ends just behind the newest dropped packet that it was not past, an unstarted one stays |
| `JitterHead.HeadGoesBackIff` | backend/cmd/relay/jitter.go:93-224 | while a buffer stays started its head goes back if and only if a pop answers with a packet more than one behind it, or a forced start finds a late packet; no push and no resize moves it back, whatever it trims |
| `JitterHead.CapacityHolds` | backend/cmd/relay/jitter.go:196-224 | on every run from an empty buffer, resized as may be, the capacity is 32 or eight times the depth, and no more packets are resident |
| `JitterHead.RoomKeepsAll` | backend/cmd/relay/jitter.go:93-117 | a push that finds room adds its packet, however late, and drops none |
| `SpeakerStream.SpeakerStreamState.Receive` | backend/cmd/relay/mixer.go:529-561 | a packet from the input queue: leftovers of an unstarted burst are dropped after a gap, the packet is pushed, and the end mark survives trailing packets |
| `SpeakerStream.SpeakerStreamState.EndMarker` | backend/cmd/relay/mixer.go:562-572 | an end marker forces the start and arms the decoder flush |
| `SpeakerStream.SpeakerStreamState.MaybeFlushDecoder` | backend/cmd/relay/mixer.go:145-161 | the last frame and the count of misses are dropped only after the drain and five quiet packet times |
| `SpeakerStream.SpeakerStreamState.AdaptJitterOnTick` | backend/cmd/relay/jitter.go:226-258 | four concealed ticks in a row raise the depth, eighty played ones lower it, and the bounds are put in order |
| `SpeakerStream.SpeakerStreamState.Prime` | backend/cmd/relay/mixer.go:720-724 | before the pop, a stuck short burst is started |
| `SpeakerStream.SpeakerStreamState.ConcealGain` | backend/cmd/relay/mixer.go:790-801 | the gain of a concealed frame is the clamped power of the decay, faded faster after the hangover |
| `SpeakerStream.SpeakerStreamState.FadeFrame` | backend/cmd/relay/mixer.go:802-805 | the concealed frame is the last frame scaled and truncated sample by sample |
| `SpeakerStream.SpeakerStreamState.PlayOrConceal` | backend/cmd/relay/mixer.go:725-810 | a popped packet is played, a gap is concealed within the time limit, and a longer silence marks the end |
| `SpeakerStream.SpeakerStreamState.MixSpeaker` | backend/cmd/relay/mixer.go:707-814 | a speaker's part of one tick as a whole |
| `SpeakerFlow.SpeakerIsJitterRun` | backend/cmd/relay/mixer.go:529-580 | every run of packets, markers and ticks of a speaker is a run of the jitter buffer, with the packets popped for playing as its output |
| `SpeakerFlow.PlayedIsOrderedAnyway` | backend/cmd/relay/mixer.go:529-580 | with losses the packets played still increase and none is played more often than it arrived |
| `SpeakerFlow.TickUnsticks` | backend/cmd/relay/mixer.go:720-724 | a tick more than a packet time after the last packet leaves nothing waiting in an unstarted buffer |
| `SpeakerLosses.KeepsAllIff` | backend/cmd/relay/mixer.go:529-580 | with in-order arrivals and nothing trimmed, what was played followed by what waits is what arrived if and only if no packet came upon leftovers and no clean-up forgot a packet that waited |
| `SpeakerLosses.AttendedLosesNothing` | backend/cmd/relay/mixer.go:529-580 | neither happens, and nothing is lost, if ticks decode while the speaker stays and between two packets more than three packet times apart one comes more than a packet time after the earlier |
| `SpeakerLosses.PunctualIsAttended` | backend/cmd/relay/mixer.go:519-526 | a ticker whose ticks are never more than two packet times apart ticks so |
| `SpeakerLosses.PlayedIsPrefixOfArrived` | backend/cmd/relay/mixer.go:529-580 | so with such ticks and nothing trimmed, what was played followed by what waits is what arrived, in order |
| `SpeakerLosses.MarkerAndTicksPlayAll` | backend/cmd/relay/mixer.go:562-578 | and after an end marker at least as many good ticks as packets wait have played exactly what arrived |
| `SpeakerLosses.EnoughTicksPlayAll` | backend/cmd/relay/mixer.go:720-724 | with no marker too, if the buffer has started or the ticks begin more than a packet time after the last packet |
| `SpeakerLosses.NeglectLoses` | backend/cmd/relay/mixer.go:540-548 | an instance: of two packets at 100 and 200 with no tick between them the first is lost although nothing is trimmed, and what is played is not what was sent first |
| `SpeakerTiming.GainFalls` | backend/cmd/relay/mixer.go:790-801 | the gain never rises with another miss or with the end of the hangover, and lies between 0 and 1 |
| `SpeakerTiming.ConcealmentFades` | backend/cmd/relay/mixer.go:788-810 | in a gap the concealed frames are pointwise non-increasing in magnitude and never louder than the last frame |
| `SpeakerTiming.ConcealmentIsBounded` | backend/cmd/relay/mixer.go:788-810 | at most (eofTimeout + late) / packetDur + 1 frames are concealed in a gap whose first tick was due late or less before the last packet: eofTimeout / packetDur + 1 if it was due after it; ticks may come late |
| `SpeakerTiming.ConcealmentEnds` | backend/cmd/relay/mixer.go:788-810 | the n-th concealed frame of a gap comes no later than the end-of-transmission timeout |
| `SpeakerGap.ConcealedExactly` | backend/cmd/relay/mixer.go:790-806 | how loud a gap is: its n-th concealed frame is the last played one times decay^n, and times 0.8^n too once the hangover is over, cut towards zero sample by sample |
| `SpeakerGap.GapConcealsIff` | backend/cmd/relay/mixer.go:788-789 | which ticks conceal: in a gap without packets exactly those within the timeout after the last packet and before the decoder is due to be flushed |
| `SpeakerGap.ConcealsLastHeard` | backend/cmd/relay/mixer.go:725-810 | on every run of any packets, markers and ticks: what a tick conceals is the frame played last, at the volume for its place among the concealed ticks since then and for the time since the last packet |
| `SpeakerGap.NothingBeforeFirst` | backend/cmd/relay/mixer.go:788-789 | before its first frame is played a speaker makes no sound |
| `SpeakerGap.LeftoversAreSilent` | backend/cmd/relay/mixer.go:540-548 | a packet upon leftovers takes the last frame with them: nothing is concealed until the next one is played |
| `SpeakerGap.MarkerMutesLater` | backend/cmd/relay/mixer.go:145-161 | the flush that a marker arms outlasts the mark: a gap of a transmission that has taken the mark away is concealed only while packets wait or five packet times after the marker are not over |
| `SpeakerMark.MarkGoesIff` | backend/cmd/relay/mixer.go:552-561 | an event takes the mark away if and only if it is a packet after a gap of more than three packet times, or a tick whose clean-up forgets the speaker |
| `SpeakerMark.StaysMarkedIff` | backend/cmd/relay/mixer.go:552-561 | on every run a mark stands throughout if and only if no such event comes |
| `SpeakerMark.NothingConcealedAfterEof` | backend/cmd/relay/mixer.go:788-789 | once the end is marked nothing is concealed, while the waiting packets drain, while more trail in, and after them, until a packet comes after a long gap or a forgotten speaker begins anew |
| `SpeakerMark.StaleMarkerSurvivesIff` | backend/cmd/relay/mixer.go:562-563 | an end marker for a speaker without a stream is kept, and the next transmission is marked from its first packet on, exactly until such an event; none of its gaps is concealed up to then |
| `SpeakerMark.StaleMarkerMutes` | backend/cmd/relay/mixer.go:562-563 | an instance: the same packet and ticks conceal one frame without, and none with, a marker before them |
| `SpeakerMark.TickSeesMarkerIff` | backend/cmd/relay/mixer.go:714-719 | a tick sees the end of a speaker's transmission if and only if a marker has come since the tick before, and once |
| `SpeakerTiming.DepthAdaptsSlowly` | backend/cmd/relay/jitter.go:196-258 | on every run the depth stays between floor and ceil and the occupancy within maxKeep, 4 raises <= concealed ticks and 80 lowerings <= played ticks |
| `SpeakerDepth.DepthMovesIff` | backend/cmd/relay/jitter.go:226-258 | on every run of a speaker that stays unmarked: an event raises the depth, by one, if and only if it is a concealed tick whose place among those since the last played one is a multiple of four, and the depth is below the ceiling; it lowers it if and only if it is a played tick whose place among those since the last concealed one is a multiple of eighty, and the depth is above the floor |
| `SpeakerDepth.LossDeepens` | backend/cmd/relay/jitter.go:234-244 | so n concealed ticks with no played one between them raise the depth by exactly min(n / 4, ceil - depth) |
| `SpeakerDepth.CalmFlattens` | backend/cmd/relay/jitter.go:246-256 | and n played ticks with no concealed one between them lower it by exactly min(n / 80, depth - floor) |
| `SpeakerDepth.UnadaptedStays` | backend/cmd/relay/mixer.go:812-814 | without adaptation, and while the end is marked, nothing moves the depth |
| `UdpCodec.UnpackPack` | owalkie-core/src/udp.cpp:5-36 | unpack(pack(p)) = p for every payload of at most 65535 bytes |
| `UdpCodec.PackUnpack` | owalkie-core/src/udp.cpp:5-36 | packing what was unpacked gives the datagram back |
| `UdpCodec.FieldsInPlace` | owalkie-core/src/udp.cpp:5-23 | session and number stand in the first eight octets, most significant first, then the signal, then the payload |
| `UdpCodec.ParsersAgree` | backend/cmd/relay/audio_packet.go:28-44 | the parser of the relay reads every datagram as the client library does |
| `UdpCodec.KindsAgree` | owalkie-core/src/udp.cpp:38-70 | keepalive, acknowledgement, end marker and audio exclude each other, and the client's tests and the relay's routing agree on every datagram |
| `UdpCodec.PackInto` | owalkie-core/src/udp.cpp:5-23 | the packer that fills the buffer byte by byte refuses exactly the long payloads and otherwise leaves the packed datagram |
| `TxSession.Session.SendOpusFrame` | owalkie-core/src/session.cpp:1081-1094 | one audio datagram with the next number, nothing for an empty frame; too long a payload uses up its number |
| `TxSession.Session.FlushTxPcmBuffer` | owalkie-core/src/session.cpp:1658-1687 | the flush loop pads, encodes and sends until the buffer is empty; a failing encoder empties it |
| `TxSession.Session.FeedTxPcm` | owalkie-core/src/session.cpp:1718-1752 | samples are appended, and a whole frame is sent as soon as there is one |
| `TxSession.Session.BeginTx` | owalkie-core/src/session.cpp:1689-1700 | a start needs a connection and a session, and empties the buffer |
| `TxSession.Session.EndTx` | owalkie-core/src/session.cpp:1702-1716 | an end flushes, closes and sends the burst of markers |
| `TxSession.Session.SendUdpTxEof` | owalkie-core/src/session.cpp:1114-1130 | an end marker carries the next number; without a socket or a session it uses none up |
| `TxSession.Session.SendTxEofBurst` | owalkie-core/src/session.cpp:1768-1788 | three end markers, fewer when the session is told to stop |
| `TxSession.Session.AbortTx` | owalkie-core/src/session.cpp:690-704 | an abort empties the queue and the buffer and closes without sending |
| `TxSession.Session.ProcessTxItem` | owalkie-core/src/session.cpp:757-801 | the dispatch on one queue item has the effect of the item's function, and the log grows by what it sends |
| `TxSession.Session.TakeTxItem` | owalkie-core/src/session.cpp:829-837 | the worker takes the oldest item, and after an abort nothing submitted before it is left |
| `TxTheory.PadUpAddsZeros` | owalkie-core/src/session.cpp:1668-1670 | padding appends zeros only, fewer than a frame |
| `TxTheory.PadUpLength` | owalkie-core/src/session.cpp:1668-1670 | a padded segment fills a whole number of frames |
| `TxTheory.FramesForRoundsUp` | owalkie-core/src/session.cpp:1668-1670 | that number is the length over the frame size, rounded up |
| `TxTheory.BodyConserves` | owalkie-core/src/session.cpp:757-788 | between open and close, frames sent followed by the residual buffer are the submitted samples, zero-padded only at voice ends |
| `TxTheory.TransmissionConserves` | owalkie-core/src/session.cpp:757-801 | a whole transmission sends the submitted samples, zero-padded at voice ends and at the close; its frame count is the sum of the rounded-up segments |
| `TxTheory.EndSends` | owalkie-core/src/session.cpp:1702-1716 | an end sends the rest of the audio, then the markers, and nothing else |
| `TxTheory.EndNumbers` | owalkie-core/src/session.cpp:1702-1716 | the rest of the audio and the markers carry consecutive numbers, the markers last |
| `TxTheory.RunNumbers` | owalkie-core/src/session.cpp:1081-1130 | on every run of the queue audio and markers together carry consecutive numbers |
| `TxTheory.RunEncodes` | owalkie-core/src/session.cpp:1658-1752 | on every run each frame on the wire is one whole frame of samples, encoded |
| `TxProgress.FrameGoesIff` | owalkie-core/src/session.cpp:1741-1749 | an item of samples sends a frame if and only if it completes one, and leaves less than a frame if and only if it does not complete two |
| `TxProgress.FramesKeepUp` | owalkie-core/src/session.cpp:1718-1752 | from items of at most a frame, as many frames have gone out after each as are complete, the quotient of the samples in hand and submitted, and less than a frame is in hand |
| `TxProgress.RunSendsWhatIsAsked` | owalkie-core/src/session.cpp:757-801 | on every run of the queue exactly what its items ask for is sent, in order: frames as they are completed, padded ones at voice ends and ends, encoded payloads, end markers; nothing outside a transmission, and nothing of the samples in hand when the encoder fails on them |
| `TxProgress.EndsDiffer` | owalkie-core/src/session.cpp:757-801 | whatever was submitted before, an abort sends nothing more, and a close, the watchdog and a new opening end the transmission alike |
| `TxProgress.OpensIff` | owalkie-core/src/session.cpp:1689-1716 | a transmission is open after an opening if and only if there is a connection with a session, or it was open before and no connection is there with which it could end |
| `TxProgress.ActiveWhileOpen` | owalkie-core/src/session.cpp:1132-1186 | on every run, connected or not, the application is told that it transmits exactly while a transmission is open |
| `TxProgress.NothingWithoutLink` | owalkie-core/src/session.cpp:1067-1079 | without a connection, a session or a socket no run of the queue sends anything |
| `RelayPath.WireIsFaithful` | backend/cmd/relay/audio_packet.go:28-44 | what the client packs the relay reads back, and it tells audio from end markers |
| `RelayPath.PathConserves` | backend/cmd/relay/mixer.go:430-470 | whatever the mixer takes from its two queues and when, packets that arrived followed by those on the way are those that were on the way, as long as no audio is lost, refused or dropped |
| `RelayPath.PathInOrder` | backend/cmd/relay/mixer.go:430-470 | with any of that, packets still arrive in the order in which they were on the way, and no others do |
| `RelayPath.MarkersBalance` | backend/cmd/relay/mixer.go:430-470 | every end marker that was on the way reaches the speaker, is still on the way or was missed, and a forced start adds one |
| `EndToEnd.PlayedIsPrefixOfSent` | backend/cmd/relay/mixer.go:527-582 | any number of transmissions, markers in a queue of their own that may overtake packets, ticks, and forced starts at any moment: if no audio is missed on the way, the ticks come in time and nothing is trimmed, the packets played are a prefix of the audio sent |
| `EndToEnd.SentIsAccountedForIff` | backend/cmd/relay/mixer.go:527-582 | without a word about the ticks: played, waiting and still coming packets are the audio sent, in order, if and only if no packet came upon leftovers and no clean-up forgot a packet that waited |
| `EndToEnd.AllSentIsPlayed` | backend/cmd/relay/mixer.go:562-578 | once everything has arrived under the same conditions, a forced start and at least as many good ticks as packets wait complete it: the packets played are exactly the audio sent |
| `EndToEnd.TicksAloneComplete` | backend/cmd/relay/mixer.go:720-724 | no marker is needed when the ticks begin more than a packet time after the last packet or the buffer has started |
| `EndToEnd.OwnMarkersComplete` | owalkie-core/src/session.cpp:1702-1716 | for a closed transmission in a session that is not stopping, the client's own markers suffice when none overtakes a packet |
| `EndToEnd.PlayedKeepsOrderAnyway` | backend/cmd/relay/mixer.go:527-582 | with packets lost, refused, dropped or trimmed anywhere, what is played is some of the audio sent, in sending order |
| `BusyArbiter.RunKeepsHoldInvariant` | backend/cmd/relay/mixer.go:234-317 | on every run a holder has a start time no later than its last packet, and parallel talk has a holder and an elapsed busy timeout |
| `BusyArbiter.QuietKeepsHold` | backend/cmd/relay/mixer.go:287-317 | while nothing is accepted a hold changes only by its holder's end marker or departure |
| `BusyArbiter.Exclusion` | backend/cmd/relay/mixer.go:234-317 | the channel changes hands if and only if the holder left, or was silent for more than the hangover, or had ended more than a packet time ago; another session gets in this way or in parallel |
| `BusyArbiter.ParallelNeedsTimeout` | backend/cmd/relay/mixer.go:258-270 | parallel talk implies a holder and lastPacketAt >= startedAt + busyTimeout |
| `BusyArbiter.ParallelFromTimeout` | backend/cmd/relay/mixer.go:258-285 | as long as a hold lasts a packet gets in if and only if it is the holder's or comes at least the busy timeout after the hold began; from then on all may talk |
| `TxGate.StoppedAlwaysStarted` | backend/cmd/relay/mixer.go:163-215 | on every run a force-stopped session, or one that was told so, has a start time |
| `TxGate.StopNoticesAreSpaced` | backend/cmd/relay/mixer.go:208-215 | stop notices to a session are at least a second apart on every run, across markers, departures and clean-ups |
| `TxGate.TransmissionIsBounded` | backend/cmd/relay/mixer.go:169-191 | until the gate forgets a session, all its packets that pass are younger than the timeout and at most one countdown notice goes out, not earlier than five seconds before the end |
| `TxGate.RefusalLatches` | backend/cmd/relay/mixer.go:174-181 | after the first refusal nothing passes until the gate forgets the session |
| `TxGate.RearmedIff` | backend/cmd/relay/mixer.go:163-191 | after a refusal, and a stretch in which none of the session's packets passes, its next packet passes if and only if something in between made the gate forget the session |
| `TxGate.SweepRearms` | backend/cmd/relay/mixer.go:613-643 | so the clean-up of silent streams re-arms the timeout: a stopped talker who was swept passes again without an end marker |
| `GateNotices.OneTransmission` | backend/cmd/relay/mixer.go:163-191 | one transmission until the gate forgets it: exactly the packets younger than the timeout pass, exactly the first of them in the last five seconds brings the countdown, and of the refused ones exactly the first and each a second or more after the last notice bring a stop notice |
| `GateNotices.StoppedIsThinned` | backend/cmd/relay/mixer.go:174-181 | the same of a session that is stopped already |
| `GateNotices.EndsLeaveNothing` | backend/cmd/relay/mixer.go:449-456 | where no stream is swept, the gate keeps nothing of sessions whose transmission has ended |
| `StoppedTalker.StepIsGateRun` | backend/cmd/relay/mixer.go:163-215 | gate and stream of a session together: the gate goes through the steps of the transmit-timeout gate, and is swept exactly by the tick whose clean-up forgets the stream |
| `StoppedTalker.StreamIsSpeakerRun` | backend/cmd/relay/mixer.go:529-580 | and the stream goes through the steps of a speaker whose packets are those that got in |
| `StoppedTalker.StoppedPassesIff` | backend/cmd/relay/mixer.go:613-643 | a stopped talker, who may go on sending, passes again if and only if an end marker, a departure or the clean-up of the stream came in between |
| `StoppedTalker.StopLapsesIff` | backend/cmd/relay/mixer.go:634-639 | one who goes on sending and is not played passes again if and only if a tick has come more than the timeout after the last packet that was taken or played: refused packets do not put the clean-up off |
| `StoppedTalker.InsistingHelps` | backend/cmd/relay/mixer.go:634-639 | an instance: refused at 160, heard again after the tick at 165 |
| `RelaySafety.RunIsSafe` | backend/cmd/relay/mixer_ws_broadcast.go:17-102 | every run of clients connecting, binding, talking and going and of mixer ticks keeps the invariant from which the rows on clients, locks, members and echo follow |
| `RelaySafety.ClientsAgree` | backend/cmd/relay/mixer_ws_broadcast.go:17-102 | on every run a client that believes the channel locked or the receive session open is right, and everyone but the speaker left out at the burst's start believes exactly what the server holds, the display seconds included |
| `RelaySafety.JoinedIsSafe` | backend/cmd/relay/mixer_ws_broadcast.go:89-102 | a client that joins late is told what is going on, and is not the one left out |
| `RelaySafety.LocksArePaired` | backend/cmd/relay/mixer_ws_broadcast.go:17-87 | the server holds a lock only in busy mode and during a receive session; locks and unlocks strictly alternate, and at the end of a burst they are paired |
| `RelayMessages.InboxLocksArePaired` | backend/cmd/relay/mixer_ws_broadcast.go:17-102 | message by message, on every run: what a step sends a client is appended to its inbox; no lock finds it locked; and an unlock finds it unlocked if and only if the burst that ends, or whose lock is lifted, has left it out as the speaker |
| `RelayBursts.SessionOpenIff` | backend/cmd/relay/mixer_ws_broadcast.go:46-58 | on every run, after a tick of a channel its receive session is open if and only if a frame has gone out there less than the timeout ago |
| `RelayBursts.SilenceEndsBurst` | backend/cmd/relay/mixer_ws_broadcast.go:46-87 | so after any tick at least the timeout past the last frame session and lock are over, and every client bound there believes so |
| `RelayBursts.AiringIsKnown` | backend/cmd/relay/mixer_ws_broadcast.go:17-44 | and while frames go out everybody bound but the one left out knows that it receives |
| `RelayBursts.LockMovesIff` | backend/cmd/relay/mixer_ws_broadcast.go:17-87 | in every step a channel is locked if and only if in busy mode its receive session opens, and unlocked if and only if the session ends or parallel talk becomes allowed |
| `RelayBursts.ParallelTalkUnlocks` | backend/cmd/relay/mixer.go:319-342 | from the step on that allows parallel talk nobody bound to the channel believes it locked |
| `RelayInboxes.WhatIsTold` | backend/cmd/relay/mixer_ws_broadcast.go:17-102 | on every run, exactly what each event tells each client, message by message with its values: starts and locks to those who get the frame, ends and unlocks to all bound, what is in force to a joiner, and notices to the sender alone |
| `RelaySafety.ParticipantsAreBound` | backend/cmd/relay/hub.go:62-114 | on every run the participants of a channel are the connected clients bound to it, so both unlock fan-outs reach the same clients |
| `RelaySafety.NobodyHearsHimself` | backend/cmd/relay/mixer.go:913-930 | on every run no client is sent a frame mixed from it alone, by broadcast or as a catch-up |
| `RelaySafety.TailSkipsItsSpeaker` | backend/cmd/relay/mixer.go:916-927 | frames of a tail, mixed from nobody, are kept from the last lone speaker while the grace time lasts |
| `RelayAudience.WhatIsHeard` | backend/cmd/relay/hub.go:194-221 | on every run, from the events alone, exactly what each client hears: a mixed frame if it is bound, known by a datagram, no repeater, not the only speaker, and in a tail not the last one within the grace time; on joining or a hello the channel's last frame if that is recent and was not kept from it; nothing else |
| `RelayAudience.ClientStands` | backend/cmd/relay/hub.go:151-179 | on every run a client is bound, known and repeating as the events since it connected say |
| `RelayAudience.DatagramIs` | backend/cmd/relay/hub.go:151-179 | only the keepalive makes the relay send the last frame, only the end marker ends a transmission, only what is longer than a header is voice, and every datagram makes the address known |
| `RelaySafety.PanicAgreesIff` | backend/cmd/relay/mixer.go:585-611 | the restart after a mixer panic keeps the agreement if and only if no receive session was open or every client bound was the one left out |
| `RelayTraps.PanicMisleads` | backend/cmd/relay/mixer.go:585-611 | a reachable relay in which a panic leaves a client believing in a lock that the server no longer holds |
| `RelaySafety.SwitchKeepsMembersIff` | backend/cmd/relay/hub.go:98-114 | a channel switch keeps membership equal to binding if and only if the new name is not empty or the old one was |
| `RelaySafety.SwitchMoves` | backend/cmd/relay/hub.go:98-114 | whatever the relay, a switch to a named channel binds the client there and takes it into that set, also if it was bound there before, and out of the one that it leaves; everybody else stays where they are |
| `RelayRuns.RunIsArenaRun` | backend/cmd/relay/mixer.go:234-317 | on every run of the relay a channel's hold and members go through exactly the steps of the busy arbiter |
| `RelayRuns.RunIsGateRun` | backend/cmd/relay/mixer.go:163-215 | on every run of the relay a channel's gate goes through exactly the steps of the transmit-timeout gate |
| `RelayRuns.TurnsAreTaken` | backend/cmd/relay/mixer.go:234-317 | on every run of the relay: when the next packet accepted after one session's is another's, the holder left, or was silent for more than the hangover, or had ended more than a packet time ago, or parallel talk was due |
| `RelayRuns.ParallelTalkIsLate` | backend/cmd/relay/mixer.go:258-270 | on every run of the relay parallel talk has a holder and an elapsed busy timeout |
| `RelayRuns.StoppedHaveStarted` | backend/cmd/relay/mixer.go:174-181 | on every run of the relay a stopped session has a start time |
| `LoneTalker.HeardIffYoung` | backend/cmd/relay/mixer.go:163-317 | on every run of the relay in which nobody else talks in the channel, all packets of a session that is not stopped are accepted if and only if each comes less than the timeout after the start of its transmission |
| `ChannelMixers.RelayHub.WriteTo` | backend/cmd/relay/mixer.go:217-232 | one message reaches one client, if it is connected, and nobody else |
| `ChannelMixers.RelayHub.BroadcastExcept` | backend/cmd/relay/hub.go:244-260 | the loop over the clients tells exactly the bound ones but the excepted session |
| `ChannelMixers.RelayHub.BroadcastMixed` | backend/cmd/relay/hub.go:194-221 | the loop sends the frame to exactly the bound clients with an address that do not repeat and are not excluded |
| `ChannelMixers.ChannelMixer.RuleTxPacket` | backend/cmd/relay/mixer.go:163-192 | the gate's ruling, its notices and its new state |
| `ChannelMixers.ChannelMixer.ShouldNotifyTxStop` | backend/cmd/relay/mixer.go:208-215 | a stop notice is due unless one went out within a second; it is then noted |
| `ChannelMixers.ChannelMixer.TryAcceptPacket` | backend/cmd/relay/mixer.go:234-285 | busy mode's answer, its new hold, and whether the lock is to be lifted |
| `ChannelMixers.ChannelMixer.BusyWindowExpired` | backend/cmd/relay/mixer.go:300-309 | whether the hold is over, with the shorter window after an explicit end |
| `ChannelMixers.ChannelMixer.MarkBusyEof` | backend/cmd/relay/mixer.go:287-298 | only the holder's marker counts, and only in busy mode |
| `ChannelMixers.ChannelMixer.NotifyBusyTimeoutElapsed` | backend/cmd/relay/mixer.go:319-342 | the lock is lifted once, and the loop tells exactly the participants |
| `ChannelMixers.ChannelMixer.NoteOutboundMixedUdp` | backend/cmd/relay/mixer_ws_broadcast.go:17-44 | the first frame of a burst opens the session and, in busy mode, locks; both messages go to the same clients |
| `ChannelMixers.ChannelMixer.FinishRxBroadcastIdle` | backend/cmd/relay/mixer_ws_broadcast.go:60-87 | the end of a burst clears session and lock and tells everybody bound |
| `ChannelMixers.ChannelMixer.ProbeRxBroadcastIdle` | backend/cmd/relay/mixer_ws_broadcast.go:46-58 | the burst ends exactly after the timeout without a mixed frame |
| `ChannelMixers.ChannelMixer.SyncSessionStateTo` | backend/cmd/relay/mixer_ws_broadcast.go:89-102 | a joining client gets the start and the lock that are in force |
| `ChannelMixers.ChannelMixer.CanAcceptTxPacket` | backend/cmd/relay/mixer.go:163-206 | a packet is accepted if and only if gate and busy mode let it pass; notices and lifted locks go out on the way |
| `ChannelMixers.ChannelMixer.MarkEof` | backend/cmd/relay/mixer.go:449-456 | an end marker forgets the transmission and marks the hold |
| `ChannelMixers.ChannelMixer.Remove` | backend/cmd/relay/mixer.go:358-381 | a departure leaves the participants, the gate and the hold |
| `ChannelMixers.ChannelMixer.CleanupStreams` | backend/cmd/relay/mixer.go:613-643 | the loop over the dropped streams forgets their transmissions but not the countdown marks |
| `ChannelMixers.ChannelMixer.SendLatestTo` | backend/cmd/relay/mixer.go:402-428 | the latest frame goes to a client only while it is recent and was not kept from it |
| `ChannelMixers.ChannelMixer.Emit` | backend/cmd/relay/mixer.go:913-930 | a mixed frame is remembered with its exclusion, broadcast and noted |
| `ChannelMixers.ChannelMixer.Tick` | backend/cmd/relay/mixer.go:577-580 | the control part of a tick: speakers, frame, clean-up, probe |
| `RelayHubs.Hub.RoutePacket` | backend/cmd/relay/hub.go:151-179 | a datagram of any kind is one step of the relay |
| `RelayHubs.Hub.AddClient` | backend/cmd/relay/hub.go:62-66 | a client is entered under its session, and nothing else changes |
| `RelayHubs.Hub.Route` | backend/cmd/relay/hub.go:173-178 | a voice packet reaches the mixer of its channel, which is made if need be |
| `RelayHubs.Hub.SendLatestFrame` | backend/cmd/relay/hub.go:165-170 | the latest frame of the channel goes to a client whose address has become known |
| `RelayHubs.Hub.SwitchChannel` | backend/cmd/relay/hub.go:98-114 | leaving the old channel, rebinding and entering the new one |
| `RelayHubs.Hub.RemoveClient` | backend/cmd/relay/hub.go:68-90 | a departure deletes the client and takes it out of every channel, one by one |
| `RelayHubs.Hub.GetOrCreateChannel` | backend/cmd/relay/hub.go:116-137 | the mixer of a name is found or made, and nothing else changes |
| `RelayHubs.Hub.MarkTxEof` | backend/cmd/relay/hub.go:139-149 | an end marker of a connected session goes to the mixer of the client's channel, any other changes nothing |
| `RelayHubs.Hub.SyncChannelWsSessionToClient` | backend/cmd/relay/hub.go:263-278 | the session state of the client's channel goes to the client |
| `ClientSession.SessionState.ApplyEventState` | owalkie-core/src/session.cpp:302-360 | each event updates the fields of the session state |
| `ClientSession.FlagsAreLastSaid` | owalkie-core/src/session.cpp:302-360 | however events interleave, each flag of the transport shows the last thing said about it |
| `ClientSession.ReadyWhileConnected` | owalkie-core/src/session.cpp:302-360 | so the datagram transport is shown as ready only while connected, as long as no notice of it comes outside a connection |
| `ClientSession.StateIsFold` | owalkie-core/src/session.cpp:324-343 | without a lost connection, receiving, lock and display seconds are the fold of the messages received, however the client's own events interleave |
| `ClientSession.LibraryAgrees` | owalkie-core/src/session.cpp:324-343 | on every run of the relay the library shows a lock or a receiving only if the server holds it, and, unless it was left out as the speaker, exactly if |
| `ClientSession.LostStartsFreshIff` | owalkie-core/src/session.cpp:350-355 | after a lost connection the state is a fresh client's if and only if the lock was not set |
| `ClientSession.EndedStartsFreshIff` | owalkie-core/src/session.cpp:307-311 | after a disconnection or a protocol error the view is a fresh client's if and only if neither receiving nor the lock was set |
| `ClientSession.ReconnectStartsFreshIff` | owalkie-core/src/session.cpp:1545-1552 | however the connection has ended, a reconnection starts from a fresh client's view if and only if the lock was not set |
| `ClientSession.SessionState.ReconnectTeardown` | owalkie-core/src/session.cpp:1545-1552 | the teardown before a reconnection clears receiving, transmitting and the transport flags, and not the lock |
| `RelayTraps.LostStaysLocked` | owalkie-core/src/session.cpp:350-355 | a reachable client that comes back from a lost connection connected, not receiving, and still locked |
| `EndOfTx.QuietChain` | backend/cmd/relay/module_pipeline.go:55-63 | while nobody speaks the chain does what its one squelch does, whatever stages stand before it |
| `EndOfTx.SynthesizedBurstSilenceTicks` | backend/cmd/relay/mixer.go:646-655 | a configured number above zero is taken; otherwise the greater of four and jitterMin + 2 |
| `EndOfTx.ConfiguredTail` | backend/cmd/relay/mixer.go:646-655 | the silence after a hiss is the configured number of frames, and otherwise the greater of four and jitterMin + 2 |
| `EndOfTx.TransmissionEndsExactly` | backend/cmd/relay/dsp_noise_squelch.go:153-189 | after the last speech, with no hiss or silence left over, exactly ceil(D / frame) hiss frames, then the queued silence, then nothing; markers arriving meanwhile start nothing |
| `EndOfTx.TailFollows` | backend/cmd/relay/dsp_noise_squelch.go:153-189 | a hiss that already runs is finished, with its remaining duration, instead of a new one |
| `EndOfTx.DueTailFollows` | backend/cmd/relay/mixer.go:837-890 | from any settled mixer exactly the frames still due follow |
| `EndOfTx.SecondTailIff` | backend/cmd/relay/dsp_noise_squelch.go:155-162 | from idle, a tick without a speaker sends a frame if and only if it consumes a marker and draws a tail |
| `EndOfTx.SilenceSwallowsSpeech` | backend/cmd/relay/mixer.go:856-860 | while silence is due nothing else is sent, even if somebody speaks |
| `EndOfTx.RunKeepsOneAtATime` | backend/cmd/relay/mixer.go:856-890 | hiss and silence never run at the same time, on any run |
| `EndOfTx.EveryRunEndsSo` | backend/cmd/relay/mixer.go:837-890 | after any run from a fresh mixer that has settled, exactly the due frames follow |
| `EndOfTx.SilenceBalances` | backend/cmd/relay/mixer.go:885-887 | on every run the silent frames sent and still owed are the queued number for each hiss that ended |
| `EndOfTx.WeakLineIsGated` | backend/cmd/relay/dsp_noise_squelch.go:190-227 | a line that stays weak is hissed for the drawn burst, in frames rounded up but without the last, and then gated |
| `EndOfTx.StrongLineOpens` | backend/cmd/relay/dsp_noise_squelch.go:229-230 | a strong line is always let through and opens the gate |
| `EndOfTx.GateOutlivesTail` | backend/cmd/relay/dsp_noise_squelch.go:155-189 | a gate that a weak line has closed stays closed through hiss and silence, and opens with the first idle tick |
| `EndOfTx.SpeechIsNoticed` | backend/cmd/relay/mixer.go:837-860 | on every run the mixer knows who spoke at the last tick, silence or not, and the squelch knows it of the last tick that was not spent on silence |
| `EndOfTx.PopsSoundIff` | backend/cmd/relay/dsp_clicks_pops.go:192-211 | without a squelch no tail follows: while nobody speaks only a chain with pops sends, one frame when the speaker has just stopped and one for each marker |
| `TailMixers.SquelchDspModule.Process` | backend/cmd/relay/dsp_noise_squelch.go:153-231 | the squelch updates its fields and the shared flags as its function says, talking or not |
| `TailMixers.TailMixer.SilenceTicks` | backend/cmd/relay/mixer.go:646-655 | the steps of the method compute that number |
| `TailMixers.TailMixer.ProcessModuleChain` | backend/cmd/relay/module_pipeline.go:55-63 | the loop over the stages stops at the first that drops the frame, and leaves the later ones alone |
| `TailMixers.TailMixer.MixAndBroadcast` | backend/cmd/relay/mixer.go:837-890 | the end of a tick: due silence first, otherwise what the chain lets through |
| `NoiseWindow.WhiteNoise.Next` | backend/cmd/relay/dsp_noise_squelch.go:63-80 | the answer is the mean of the last min(n, win) raw samples; the sum stays the total of the stored window |
| `NoiseWindow.WhiteNoise.constructor` | backend/cmd/relay/dsp_noise_squelch.go:21-40 | the window is as long as a period of the cut-off in samples, and at least two; none without a cut-off |
| `NoiseWindow.MeanBounded` | backend/cmd/relay/dsp_noise_squelch.go:63-80 | smoothing never makes the noise louder than its raw samples |
| `PcmRing.RxPcmJitterBuffer.Offer` | android/app/src/main/java/ru/outsidepro_arts/owalkie/RxPcmJitterBuffer.kt:65-82 | after an offer the content is the last min(capacity, n) samples of the old content and the new ones |
| `PcmRing.RxPcmJitterBuffer.EnsureRingCapacity` | android/app/src/main/java/ru/outsidepro_arts/owalkie/RxPcmJitterBuffer.kt:84-108 | growth keeps content and order |
| `PcmRing.RxPcmJitterBuffer.ReadFrame` | android/app/src/main/java/ru/outsidepro_arts/owalkie/RxPcmJitterBuffer.kt:133-144 | a read takes exactly the oldest frame, in order, or nothing |
| `PcmRing.RxPcmJitterBuffer.ResetCodec` | android/app/src/main/java/ru/outsidepro_arts/owalkie/RxPcmJitterBuffer.kt:54-63 | a reset empties the ring |
| `PcmRing.PlayedInOrder` | android/app/src/main/java/ru/outsidepro_arts/owalkie/RxPcmJitterBuffer.kt:65-144 | on every run of offers, reads and resets the played frames are pieces of the offered samples, in order and without overlap, and the buffer is the end of them |
| `PcmRing.FittingRunConserves` | android/app/src/main/java/ru/outsidepro_arts/owalkie/RxPcmJitterBuffer.kt:65-144 | without overflow and reset, played frames and buffer are exactly what came in |
| `PcmRing.ReadsDrain` | android/app/src/main/java/ru/outsidepro_arts/owalkie/RxPcmJitterBuffer.kt:133-144 | n reads in a row play min(n, size / frame) frames and leave the rest |
| `PcmRing.OfferKeepsAll` | android/app/src/main/java/ru/outsidepro_arts/owalkie/RxPcmJitterBuffer.kt:65-108 | an offer loses nothing as long as all fits into the asked number of frames, or four, and the capacity never shrinks by it |
| `Base64Url.RoundTrip` | windows-client-cpp/src/MainFrame.cpp:135-209 | decode(encode(b)) = b for every byte string |
| `Base64Url.AcceptedIff` | windows-client-cpp/src/MainFrame.cpp:173-209 | a text is accepted if and only if its length is not one more than a multiple of four and each character is of one of the two alphabets, or padding in the third or fourth place of a group |
| `Base64Url.EncodedAlphabet` | windows-client-cpp/src/MainFrame.cpp:135-171 | only letters, digits, minus and underline are written, and some for every non-empty input |
| `Base64Bits.EncodesBits` | windows-client-cpp/src/MainFrame.cpp:135-171 | the text for n octets has 4 n / 3 characters, rounded up, and its i-th one is the character of table 2 of RFC 4648 for the i-th six bits, with zeros for those missing at the end |
| `Base64Url.Base64UrlEncode` | windows-client-cpp/src/MainFrame.cpp:135-171 | group loop, tail, replacement and stripping write the encoding of which RoundTrip speaks |
| `Base64Url.Base64UrlDecode` | windows-client-cpp/src/MainFrame.cpp:173-209 | replacement, padding and group loop accept and decode as AcceptedIff and RoundTrip say |
| `ConnectLink.LinkSurvives` | windows-client-cpp/src/MainFrame.cpp:3134-3148 | a link of one octet or more, after marker-free text, before any run of the stripped punctuation and then white space or the end, still gives the same bytes |
| `ConnectLink.LinkInSentence` | windows-client-cpp/src/MainFrame.cpp:3240-3258 | so with any of the signs . , ; : ! ? ) ] } behind it, then a space, a tab, a new line or the end |
| `ConnectLink.FirstMarker` | windows-client-cpp/src/MainFrame.cpp:3135-3136 | behind marker-free text the first marker is the one put there, since the marker cannot overlap itself |
| `ConnectLink.FindLink` | windows-client-cpp/src/MainFrame.cpp:3134-3148 | the link runs from the first marker to the next white space |
| `ConnectLink.PayloadOf` | windows-client-cpp/src/MainFrame.cpp:3235-3256 | what follows the marker, without trailing white space and then punctuation; an empty payload is invalid |
| `ConnectLink.ImportConnectionLink` | windows-client-cpp/src/MainFrame.cpp:3134-3152 | a pasted text is refused or turned into the bytes of its link |
| `ReleaseGuard.PttReleaseGuard.RecordPttReleaseBurst` | windows-client-cpp/src/MainFrame.cpp:3498-3504 | a release counts, blocks at three, and arms a timer with the new ticket |
| `ReleaseGuard.PttReleaseGuard.BeginPttTx` | windows-client-cpp/src/MainFrame.cpp:3385-3390 | a press is refused exactly while blocked, and then extends the block |
| `ReleaseGuard.PttReleaseGuard.OnTimer` | windows-client-cpp/src/MainFrame.cpp:3479-3484 | a timer acts only if its ticket is the current one |
| `ReleaseGuard.PttReleaseGuard.ResetPttReleaseBurstGuard` | windows-client-cpp/src/MainFrame.cpp:3466-3470 | a reset makes all timers idle |
| `ReleaseGuard.BlockedIffThree` | windows-client-cpp/src/MainFrame.cpp:3466-3511 | in every reachable state, in whatever order timers fire, blocked if and only if count >= 3 |
| `ReleaseGuard.QuickReleasesBlock` | windows-client-cpp/src/MainFrame.cpp:3385-3504 | releases that follow each other within a second are all counted, whatever timers fire and presses come between them, and the button is blocked and refuses the next press exactly from the third on |
| `ReleaseGuard.TimerClearsIff` | windows-client-cpp/src/MainFrame.cpp:3476-3491 | a timer clears the guard if and only if no release, refused press or reset came after it was armed; otherwise its firing changes nothing |
| `ReleaseGuard.NoBlockIsPermanent` | windows-client-cpp/src/MainFrame.cpp:3476-3504 | whenever releases are counted a sleeping timer with the current ticket is due a second after the last disturbance and clears the guard |
| `ReleaseGuard.ClearsAfterQuietSecond` | windows-client-cpp/src/MainFrame.cpp:3476-3491 | a count is forgotten by a timer only after a quiet second |

## Left out

- RelayModel: `leftOut` and `lockLog` in the mixer's record are not fields of the source; they record whom the burst excluded and the channel-wide lock messages.
- RelayPath: the capacities of the mixer's queues (256 packets, 64 markers), which other sessions share, are not modelled; a queue may drop its oldest entry at any moment.
- RelayModel: the choice of speakers and the frame of a tick are inputs; their computation is in the Speaker and EndOfTx modules, one speaker or one channel at a time.
- RelayRuns: only the arbitration of a channel is related to the relay's runs; the jitter buffers are related to a speaker's events in SpeakerFlow.
- SpeakerStream.SpeakerStreamState.MaybeFlushDecoder: does not model the decoder that it drops, nor does Receive; what a decoder makes of a packet is an input of the tick.
- TxSession: submission to the queue (its capacity, the wait for room, and the clearing by a new start), pacing and the thread of the worker are not part of this model.
- ClientSession: of the teardown before a reconnection only the session state is modelled.
- SpeakerStream.SpeakerStreamState.MixSpeaker: does not model repeater capture, a decoder that cannot be made, or the sum into the mix, because they do not touch the speaker's state.
- ChannelMixers.ChannelMixer.CleanupStreams: takes the streams to drop as an input; StoppedTalker says for one session when it is dropped.
- ChannelMixers.ChannelMixer.Tick: takes speakers, emission and dropped streams as inputs, which the Speaker and EndOfTx modules and StoppedTalker compute.
- RelayHubs.Hub.RoutePacket: does not model the keepalive acknowledgement, the activity mark and the input queue, which RelayPath models.
- TailMixers.TailMixer.MixAndBroadcast: does not model generators and a failing encoder.
- EndOfTx: generators (squelch shots) are absent, and the stages of a chain are distinct objects, while a chain that names a stage twice shares one in the source.
- EndOfTx: the theorems on the tail are for chains with one squelch and no pops stage behind it, as both shipped configurations have it; a pops stage behind the squelch sounds at every end marker.
- EndOfTx: the encoder is taken to succeed on every frame of the tail.
- NoiseWindow: rounding of floating-point sums is not modelled.
- PcmRing: capacities are unbounded integers; the product of frame length and frame count does not overflow.
- ReleaseGuard: tickets do not wrap at 2^64, and the callbacks are one at a time on the window's thread.
- ReleaseGuard.PttReleaseGuard.BeginPttTx: does not model the other reasons for which a press is ignored (no session, server lock, signal playing), because they do not touch the guard.
- ConnectLink: the JSON behind a link and the validation of host, port and channel are not part of this model.
- Repeater capture and replay, relay discovery, WebSocket keepalive, keepalive acknowledgements and channel activity.
- Sockets, threads, teardown, Opus, audio devices and user interface.
- Values of the DSP stages (filters, compressor, distortion, dispersion, clicks, pops, edge impulses): only their control flags matter here.
- Configuration defaults, migration and validation.
