# Transport and recovery of a game-streaming link

This project models the state machines that carry a Sunburst stream and repair
it, and proves what they keep over whole runs: under 16-bit sequence wrap, loss,
duplication, reordering, restarts and thread interleaving. Each component is one
module. Its transitions are functions on plain values; where the program updates
an object in place, a class makes the same transitions in place and each of its
methods is proved equal to the function. The theorems are about the functions,
over every run.

| module | what it models |
|---|---|
| `Basics`, `Seq`, `Cursors` | words and bytes; wrapping sequence numbers; cursors that wrap with the machine word |
| `Wire`, `Reliable`, `Channel`, `Timing`, `Endpoint`, `Progress` | the reliable control channel: frame layout, one end, two ends and a network, when messages and acks go on the wire, client restarts and the send queue, and that everything queued can arrive |
| `PacketRing`, `PcmRing` | the two lock-free rings, one step per atomic access, per byte or sample copied and per slot length |
| `AudioReorder`, `AudioStream` | the audio reorder buffer and its whole output |
| `RefState`, `KeyframeGate`, `KeyframeAccount` | what the server predicts from after a loss; what the client feeds its decoder, and what it reports of the rest |
| `Governor`, `Resampling` | the capture governor; when it resamples on a grid and which frame each slot takes |
| `RateControl`, `LossWindows`, `Pacing` | the bitrate controller, what its loss windows count, the send pacer |
| `RetransmitCache`, `Batching`, `CursorShape` | the retransmit index against a plain log; datagram batches and their split; cursor bitmaps in chunks |

In the stateful modules an unbounded counter stands behind every wrapping one:
message, frame or packet `n` has the number `Wrap(base + n)` on the wire, and the
invariants say which counters a 16-bit comparison can still tell apart.

## Assumptions the theorems carry

- **Reliable channel.** A frame is delivered only while it is young enough, with one
  bound for each thing it carries (`Channel.Deliverable`). Its payload: the receiver
  has delivered at most `SPAN - WINDOW` messages from that one on. Its ack: the
  receiver has sent fewer than `HALF` messages past those acked.
  `Channel.PayloadIsTaken` and `Channel.AckTells` say at every age what a payload and
  an ack do. One message beyond either bound, a payload is held for a message one lap
  on and an ack retires a message that was not delivered
  (`Channel.OneOlderPayloadIsHeldForAnother`,
  `Channel.OneOlderAckRetiresTheUndelivered`). A tick that finds the peer gone ends
  the run. Incarnations have increasing epochs, and each has a network of its own
  towards the server and back, because a restart keeps the server's epoch
  (`Endpoint.OneChannelWouldMixIncarnations`). For the times of frames (`Timing`) each
  end's clock does not run back.
- **Rings.** One producer, one consumer, and sequential consistency: an acquire
  load sees the latest release store. The capacity is at most half the word.
- **Reference recovery.** Ids consecutive; a report names an encoded frame fewer
  than 2^15 ago, with fewer than 2^15 frames since the last recovery; for the run
  theorem, reports come oldest first and never name a keyframe. A forced keyframe
  is the next frame encoded. The encoder keeps the newest frame not invalidated and
  predicts from it, however far back it is; `RefState.FallbackIsInTheDpb` says when
  it is within the depth, `RefState.ChainedRecoveriesLeaveTheDpb` that it need not be.
  `RefState.CoveredIsExact` says exactly when a report out of that order is still
  answered rightly.
- **Keyframe gate.** Losses close the gate; releases are consecutive except where the
  jitter buffer names the frame it stepped over; ids within 2^15 of the build's
  first; the released frame's bytes are still held. Without the first a two-release
  run feeds on a gap (`UngatedLossFeedsOnAGap`), without the last a three-release run
  (`UncopiedFrameFeedsOnAGap`). `AdmissionIsExact` says which numbers an open gate
  takes however far on, `RefusalIsSilent` that a refusal closes and reports nothing,
  and `ALapOnTheBuildFeedsOnAGap` is the run of one lap that then feeds a P-frame on
  a gap.
- **Governor.** Times do not run back and stay far enough from the end of the
  64-bit word that no slot saturates; a flush comes at the deadline or later. The
  arithmetic itself is modelled with its saturation. Which mode the governor is in
  (`Resampling`) is told for frames less than the idle gap apart.
- **Rate control.** Floats are reals; the truncations to 32 bits are kept. The
  bounds do not invert (`SessionBitrate` gives such bounds). On the ideal link the
  gradient fits its 32-bit field. The client's counters do not fall and grow by less
  than 2^32 from one report to the next (`LossWindows`).
- **Pacer.** For the upper bounds the sender waits out `Wait` before each send and
  times do not run back; when the wire is free is told without that. The rate may
  change between sends.

## Where the code and its comments differ

The model follows the code.

- `sunburst-net/src/spsc.rs:108` speaks of a free slot kept in reserve; the test
  above it lets all slots fill, and the model's ring holds `capacity` packets.
- `sunburst-net/src/reliable.rs:78` counts eight retransmissions; the eighth
  attempt is the one that gives up, so a message goes out at most eight times in
  all (`Channel.EveryRunKeepsItsWindows`).
- `sunburst-net/src/refinval.rs:64-65` calls every report at or before the last
  recovery old news. That is so exactly for the reports `Covered` describes.
- `sunburst-net/src/refinval.rs:121-123` takes the frame before the abandoned one for
  the reference the next frame falls back to. That is so exactly when it is newer
  than the last recovery or is the last keyframe
  (`RefState.FirstRecoveryFallsBackOne`); the depth test bounds no other fallback.
- `sunburst-core/src/proto/control.rs:446-447` says a chunk of a completed shape is
  ignored; the reassembler starts over on its first chunk. `EveryShapeArrives`
  holds for repeated ids for that reason.

## Model

| member | source | states |
|---|---|---|
| Seq.ModularOrder | sunburst-core/src/proto/seq.rs:18-50 | counters less than half the space apart compare and subtract on the wire as they do unbounded |
| Seq.AntipodeIsUnordered | sunburst-core/src/proto/seq.rs:18-50 | at exactly half the space neither number is newer |
| Wire.FrameLayout | sunburst-net/src/reliable.rs:366-382 | where each field lies: two little-endian words, the flag, eight bytes of epoch, then the payload to the end |
| Wire.DecodeEncode | sunburst-net/src/reliable.rs:257-259 | what is built is what is read, every field, with or without a payload |
| Reliable.Reliable.WithEpoch | sunburst-net/src/reliable.rs:169-180 | a new end has sent and received nothing |
| Reliable.Reliable.RestartFor | sunburst-net/src/reliable.rs:201-208 | a restart is a fresh end that knows the peer's new epoch and keeps its own |
| Reliable.Reliable.TakeAck | sunburst-net/src/reliable.rs:213-219 | the bare ack owed is taken once |
| Reliable.Reliable.Send | sunburst-net/src/reliable.rs:222-244 | oversized and full-window sends change nothing; otherwise the frame built is the one kept for resending |
| Reliable.Reliable.Receive | sunburst-net/src/reliable.rs:251-295 | in place, the transition `OnFrame` of the decoded frame, and nothing for a runt |
| Reliable.Reliable.DrainInOrder | sunburst-net/src/reliable.rs:340-357 | the loop drains exactly the contiguous run |
| Reliable.Reliable.Tick | sunburst-net/src/reliable.rs:298-324 | in place, without an exhausted entry the due frames rebuilt in key order or one owed bare ack; with one, peer gone and the table as it stopped; `Timing.EveryRunIsTimed` says when that is |
| Reliable.ResentAreTheDue | sunburst-net/src/reliable.rs:301-317 | a frame is resent exactly when its entry is due, with the current ack |
| Channel.SendKeepsTable | sunburst-net/src/reliable.rs:230-242 | a send adds the newest message to the run of outstanding ones |
| Channel.SendKeeps | sunburst-net/src/reliable.rs:222-244 | a send keeps the two ends linked, at either end |
| Channel.RetireKeepsTable | sunburst-net/src/reliable.rs:263-264 | an ack retires exactly the run it covers, whatever the wrap |
| Channel.DrainDelivers | sunburst-net/src/reliable.rs:340-357 | draining delivers the next messages of what was sent, in order, and leaves the rest held |
| Channel.ReceiveKeeps | sunburst-net/src/reliable.rs:251-295 | a frame received, however late, repeated or out of order within the bounds, keeps the two ends linked |
| Channel.TickKeeps | sunburst-net/src/reliable.rs:298-324 | a tick that does not give up keeps the two ends linked |
| Channel.TakeAckKeeps | sunburst-net/src/reliable.rs:213-219 | taking the ack keeps the two ends linked |
| Channel.ActKeeps | sunburst-net/src/reliable.rs:210-357 | every send, tick, ack and received frame keeps the two ends linked |
| Channel.EveryRunIsFifo | sunburst-net/src/reliable.rs:222-295 | over every run of two ends and a network that drops, duplicates and reorders, delivered is at all times a prefix of sent, each way |
| Channel.EveryRunKeepsItsWindows | sunburst-net/src/reliable.rs:222-324 | the send table is the contiguous run of at most WINDOW newest messages and lacks only what the peer delivered; early frames lie strictly inside the receive window; nothing goes out more than MAX_ATTEMPTS times |
| Channel.TransmissionsAreCounted | sunburst-net/src/reliable.rs:222-324 | the counter the bound speaks of grows, whatever an end does, by the number of frames put on the wire that carry the message, and those frames are what the network gains |
| Channel.HoldingAreaIsBounded | sunburst-net/src/reliable.rs:284-291 | once something was received, the holding area stays inside the window whatever frames come |
| Channel.FirstDeliveryTrustsThePeer | sunburst-net/src/reliable.rs:288-291 | before that, a sequence just behind zero is held |
| Channel.PayloadIsTaken | sunburst-net/src/reliable.rs:275-291 | at any age a payload is taken if and only if its number is fewer than WINDOW past what was delivered, the laps aside, and not held; before anything was delivered also from the half space behind zero |
| Channel.AckTells | sunburst-net/src/reliable.rs:263-264 | at any age an ack of some messages leaves message i if and only if i is fewer than HALF - 1 past them, the laps aside |
| Channel.OneOlderPayloadIsHeldForAnother | sunburst-net/src/reliable.rs:275-294 | past the payload bound, up to one lap, an old payload is held as the message a lap on |
| Channel.OneOlderAckRetiresTheUndelivered | sunburst-net/src/reliable.rs:263-264 | one message past the ack bound an ack retires a message that was not delivered |
| Channel.OneOlderAckLosesAMessage | sunburst-net/src/reliable.rs:263-264 | between two linked ends, a bare ack one message past the bound takes the newest message out of the table although it was not delivered |
| Channel.BeyondTheLifetimeAFrameIsDeliveredAgain | sunburst-net/src/reliable.rs:275-294 | a frame exactly one lap old is delivered as the message now due |
| Timing.TickCarries | sunburst-net/src/reliable.rs:301-317 | a tick puts a message on the wire, once, exactly when its entry is due |
| Timing.ActWatches | sunburst-net/src/reliable.rs:210-324 | every send, tick, ack and received frame keeps each entry's time that of its last transmission, its count that of its transmissions, and the ack owed exactly while a payload came since the last message or bare ack |
| Timing.EveryRunIsTimed | sunburst-net/src/reliable.rs:222-324 | over every run, told from the times frames went on the wire: a message goes out at most MAX_ATTEMPTS times and never twice within RETRANSMIT_MS; a tick sends an unacknowledged message exactly when its last time is that long past, finds the peer gone exactly when such a one went out MAX_ATTEMPTS times, and sends a bare ack, numbered next, exactly when nothing else goes out and one is owed; all it sends acknowledges everything delivered |
| Timing.NobodyIsGivenUpEarly | sunburst-net/src/reliable.rs:301-308 | a peer is found gone no sooner than MAX_ATTEMPTS times RETRANSMIT_MS after some message was first sent |
| Endpoint.Session.FlushControl | sunburst-net/src/endpoint.rs:677-701 | the loop sends from the front of the queue while the window allows and drops what cannot be sent |
| Endpoint.Session.SendToClient | sunburst-net/src/endpoint.rs:667-672 | a message is queued behind the others and the queue flushed |
| Endpoint.Session.Control | sunburst-net/src/endpoint.rs:392-417 | a newer incarnation restarts the channel and clears the queue before its frame is taken |
| Endpoint.FlushIsFifo | sunburst-net/src/endpoint.rs:677-701 | what is sent and what stays queued are together the sendable messages in order, so a burst past the window loses and repeats nothing |
| Endpoint.FlushEnds | sunburst-net/src/endpoint.rs:685-701 | a flush stops only with the queue empty or the window full |
| Endpoint.FlushedAreTheSent | sunburst-net/src/endpoint.rs:685-704 | the frames a flush returns carry exactly the messages it sent, in order, numbered on from what was sent before |
| Endpoint.FlushTransmits | sunburst-net/src/endpoint.rs:702-704 | every frame a flush returns is on the network |
| Endpoint.StaleIsInert | sunburst-net/src/reliable.rs:251-256 | a frame of an older incarnation changes nothing at the server |
| Endpoint.HearingIsOnControl | sunburst-net/src/endpoint.rs:392-417 | the server's side of every step is the one end's `OnControl` |
| Endpoint.StepKeeps | sunburst-net/src/endpoint.rs:386-417 | every step of any client, any network and the server keeps every incarnation linked and the followed one the newest heard |
| Endpoint.EveryRunDeliversPrefixes | sunburst-net/src/endpoint.rs:386-417 | across any number of restarts, each way and for each incarnation, delivered is a prefix of sent, and what the server sent interleaves, each in order, a prefix of what it was asked to queue and all it offered past the queue, the rest of the queue still waiting |
| Endpoint.OldIncarnationsAreFrozen | sunburst-net/src/reliable.rs:188-208 | once a newer incarnation is followed, in every continuation nothing is delivered from, sent to or retired by an older one |
| Endpoint.FollowingStartsFromNothing | sunburst-net/src/endpoint.rs:397-404 | on a restart nothing sent to or queued for the old incarnation remains |
| Endpoint.OneChannelWouldMixIncarnations | sunburst-net/src/reliable.rs:198-208 | on a shared channel a new incarnation would deliver a message built for the old one |
| Endpoint.OfferKeeps | sunburst-net/src/endpoint.rs:629-645 | a message sent past the queue, or dropped when it cannot go, keeps every incarnation linked and the queue accounted for |
| Progress.EverythingQueuedCanArrive | sunburst-net/src/endpoint.rs:667-705 | from every state with the outstanding frames still on their way, some run empties a queue of any length window by window, delivers all that was asked for and offered, and has all of it acknowledged |
| Progress.AfterATickEverythingCanArrive | sunburst-net/src/reliable.rs:298-324 | a tick that does not give up and finds every outstanding entry due leads to such a state, whatever was lost before |
| Progress.TickGoesOut | sunburst-net/src/reliable.rs:301-317 | such a tick puts a deliverable frame of every outstanding message on the network |
| Progress.AckEmptiesTheTable | sunburst-net/src/reliable.rs:213-219 | with everything delivered, the owed bare ack empties the sender's table |
| Cursors.CapacityDividesTheWord | sunburst-net/src/spsc.rs:74 | the ring is the least power of two that holds the capacity, and divides the word |
| Cursors.SlotSurvivesTheWord | sunburst-net/src/spsc.rs:112 | a cursor wrapped by the word still names its slot |
| PacketRing.StepKeeps | sunburst-net/src/spsc.rs:100-157 | every atomic access, byte copied and length stored by either thread keeps the ring's invariant |
| PacketRing.NeitherThreadSticks | sunburst-net/src/spsc.rs:100-157 | inside a call a thread always has a step whose index is in range |
| PacketRing.EveryInterleavingIsFifo | sunburst-net/src/spsc.rs:100-157 | in every interleaving popped is a prefix of accepted, occupancy is at most the capacity, no slot is written while read, and every finished push was accepted or counted dropped |
| PacketRing.LooksAreExact | sunburst-net/src/spsc.rs:100-157 | a push goes on exactly when a slot is free at its look, a pop exactly when a packet waits |
| PacketRing.EveryPushEndsOnce | sunburst-net/src/spsc.rs:100-125 | among any steps of the consumer, a push that returned published its own packet, once and whole, or counted one drop, and a packet too long is dropped |
| PacketRing.Packets.Push | sunburst-net/src/spsc.rs:100-125 | accepts exactly when the packet fits a slot and the ring has one free, and otherwise counts a drop |
| PacketRing.Packets.PopWith | sunburst-net/src/spsc.rs:137-157 | hands out the oldest packet whole, or nothing when empty |
| PcmRing.StepKeeps | sunburst-android/src/audio_ring.rs:68-123 | every atomic access and sample copied by either thread keeps the ring's invariant |
| PcmRing.NeitherThreadSticks | sunburst-android/src/audio_ring.rs:68-123 | inside a call a thread always has a step whose index is in range |
| PcmRing.EveryInterleavingIsFifo | sunburst-android/src/audio_ring.rs:68-123 | in every interleaving popped is a prefix of accepted, occupancy is at most the capacity, the slot being written is none being read, and `available` never tells the consumer of more than there is nor the producer of less, through any wrap of the cursors |
| PcmRing.LooksAreExact | sunburst-android/src/audio_ring.rs:68-123 | a push takes as many samples as are free at its look, a pop as many as wait, or all it was asked for |
| PcmRing.EveryPushTakesAPrefix | sunburst-android/src/audio_ring.rs:68-84 | among any steps of the consumer, a push that returned published a prefix of its own samples behind all before them |
| PcmRing.Pcm.Push | sunburst-android/src/audio_ring.rs:68-84 | as many samples as fit are appended and counted |
| PcmRing.Pcm.Pop | sunburst-android/src/audio_ring.rs:109-123 | the oldest samples are copied out, as many as asked for or held, and the rest of the destination is untouched |
| PcmRing.CountedCanBePopped | sunburst-android/src/audio_ring.rs:96-105 | along every interleaving from the answer of `available` to the look of the next pop, that pop takes as many samples as were answered, or all it has room for |
| PcmRing.Pcm.Available | sunburst-android/src/audio_ring.rs:87-105 | with the other thread idle the wrapped difference is exactly the number of samples held |
| AudioReorder.Reorder.Push | sunburst-android/src/plc.rs:81-131 | in place over slots `id % 8`, exactly `Take` on unbounded numbers |
| AudioReorder.Reorder.PlayHeld | sunburst-android/src/plc.rs:138-143 | emits the held packet and frees its slot alone |
| AudioReorder.Reorder.CountMissing | sunburst-android/src/plc.rs:147-155 | counts the numbers missing before the next one held or the one arrived |
| AudioReorder.Reorder.GiveUpFor | sunburst-android/src/plc.rs:102-114 | the hole loop gives up exactly until the arrival is inside the window, and ends |
| AudioReorder.TakeRenders | sunburst-android/src/plc.rs:87-130 | what an arrival emits is the one rendering of what it plays, from where playing stood to where it stands |
| AudioReorder.TakeIsHeard | sunburst-android/src/plc.rs:102-114 | what an arrival emits decodes exactly what it plays, and from one decode to the next there are as many conceals as numbers missing, if at most MAX_CONCEALED, and otherwise none |
| AudioReorder.RenderIsHeard | sunburst-android/src/plc.rs:106-112 | the same of any list of packets played in increasing order |
| AudioReorder.GiveUpStopsAtTheBoundary | sunburst-android/src/plc.rs:99-114 | giving up, where it has to, stops just past the number WINDOW behind the arrival if that one is held, and otherwise past the whole hole it lies in |
| AudioReorder.TakeIsExact | sunburst-android/src/plc.rs:99-130 | an arrival plays exactly what is present below its new position, keeps exactly what is above, and moves no further than it must |
| AudioStream.StepKeeps | sunburst-android/src/plc.rs:81-131 | every arrival keeps the account: what came first for each number is decoded, held or fell to a resync |
| AudioStream.EveryRunIsRendered | sunburst-android/src/plc.rs:81-155 | for any arrivals: decoded numbers strictly increase, each with the payload that came first for it; the output decodes exactly those, with g conceals for g numbers missing between two decodes if g is at most MAX_CONCEALED and none beyond; held numbers lie strictly inside the window; and every packet in time was decoded, is held or fell to a resync |
| AudioStream.ArrivalByNumber | sunburst-android/src/plc.rs:87-98 | by its true number, a packet up to half the space behind is ignored, one RESYNC_AHEAD or more ahead is decoded at once and drops what was held, and one between is taken at its number |
| AudioStream.ReorderingIsUndone | sunburst-android/src/plc.rs:81-131 | arrivals that permute consecutive numbers inside the window come out sorted, each once with its own payload (or what a slot keeps of it), with no conceals and nothing held |
| RefState.Tracker.OnEncoded | sunburst-net/src/refinval.rs:79-92 | in place, the transition `Encode` of the window |
| RefState.Tracker.Timestamp | sunburst-net/src/refinval.rs:94-99 | the first valid entry with the id answers |
| RefState.Tracker.OnAbandoned | sunburst-net/src/refinval.rs:104-131 | in place, the transition `Abandon` with the codec's depth |
| RefState.TimestampIsOwn | sunburst-net/src/refinval.rs:94-99 | one of the last TRACK frames has its own timestamp on record, an older one none |
| RefState.AnswerIsExact | sunburst-net/src/refinval.rs:104-131 | the answer by frame number: nothing at or before the last recovery, a keyframe for what left the memory or the DPB, else the range through the newest |
| RefState.DepthByCodec | sunburst-net/src/refinval.rs:134-228 | without a keyframe AV1 recovers from losses up to seven frames back, HEVC and H.264 up to one fewer than their depth, and every codec from the newest |
| RefState.RangeHasItsTimestamps | sunburst-net/src/refinval.rs:94-130 | every frame of a returned range has its own recorded timestamp |
| RefState.CoveredIsExact | sunburst-net/src/refinval.rs:108-112 | after a report the encoder predicts from nothing abandoned if and only if the frame was invalidated, superseded, newer than the last recovery, or a keyframe is on its way |
| RefState.StepKeeps | sunburst-net/src/refinval.rs:79-131 | every encode and every legal report keeps the frames that may be predicted from free of loss, and every legal report is covered |
| RefState.EveryRunPredictsFromTheDecodable | sunburst-net/src/refinval.rs:79-131 | with reports oldest first that never name a keyframe, every frame encoded is a keyframe or predicts from one decodable back to a keyframe, and every frame that is not lies in a returned range |
| RefState.FallbackIsInTheDpb | sunburst-net/src/refinval.rs:119-126 | after an invalidation the fallback is the newest frame below the abandoned one not taken out before, and it is among the last `depth` if and only if earlier recoveries left one of those below the abandoned frame |
| RefState.FirstRecoveryFallsBackOne | sunburst-net/src/refinval.rs:119-126 | the fallback is the frame before the abandoned one if and only if that frame is newer than the last recovery or is the last keyframe, and then it is among the last `depth` |
| RefState.ChainedRecoveriesLeaveTheDpb | sunburst-net/src/refinval.rs:104-131 | at every depth, losing each of `depth` frames after a keyframe is answered by invalidations alone, and the next frame predicts from the keyframe, further back than the depth |
| RefState.NewestFirstIsMissed | sunburst-net/src/refinval.rs:108-112 | reported newest first, the older loss gets no answer and the next frame predicts from it |
| KeyframeGate.Gate.Shut | sunburst-android/src/reconfig.rs:122-127 | a new build closes the gate and asks at once when its keyframe was spent, else later |
| KeyframeGate.Gate.Admit | sunburst-android/src/reconfig.rs:131-137 | the previous build's frames and, while closed, all but keyframes are refused |
| KeyframeGate.Gate.Fed | sunburst-android/src/reconfig.rs:140-144 | a queued keyframe, and nothing else, opens the gate |
| KeyframeGate.Gate.Loss | sunburst-android/src/reconfig.rs:151-156 | a loss closes an open gate and leaves a closed one's deadline |
| KeyframeGate.Gate.Tick | sunburst-android/src/reconfig.rs:159-165 | asks exactly when closed and due |
| KeyframeGate.ReleaseLoop.Release | sunburst-android/src/client.rs:495-543 | in place, one release: the gap reported and discarded, the frame refused, fed or reported |
| KeyframeGate.ReleaseLoop.Discard | sunburst-android/src/client.rs:500-504 | the walk over ids ends and discards exactly that walk |
| KeyframeGate.ReleaseLoop.Reconfigure | sunburst-android/src/client.rs:437-451 | a changed build resets the decoder and closes the gate |
| KeyframeGate.ReleaseLoop.DrainAbandoned | sunburst-android/src/client.rs:556-562 | drained losses are reported and close the gate |
| KeyframeGate.StepKeeps | sunburst-android/src/client.rs:494-562 | every release, rebuild, drain and tick keeps the decoder anchored, and an open gate means the last release was fed |
| KeyframeGate.EverySessionIsAnchored | sunburst-android/src/client.rs:494-562 | gating on loss, through rebuilds, losses and refused feeds, every P-frame in the decoder follows its predecessor there, back to a keyframe of the current build; a closed gate asks within IDR_RETRY_MS |
| KeyframeGate.LossIsReportedAndGated | sunburst-android/src/client.rs:497-562 | gating on loss, an open gate closes short of a rebuild only with a report to the server, and after a report it is open only if a keyframe was queued in the same step |
| KeyframeGate.SteppingDiscardsTheGap | sunburst-android/src/client.rs:497-504 | a release that steps over a gap discards exactly the gap's ids |
| KeyframeGate.UngatedLossFeedsOnAGap | sunburst-android/src/client.rs:505-507 | without gating on loss a P-frame is fed after a gap |
| KeyframeGate.UncopiedFrameFeedsOnAGap | sunburst-android/src/client.rs:514-516 | a released frame whose bytes are gone is lost unreported and the next is fed on the gap |
| KeyframeGate.AdmissionIsExact | sunburst-android/src/reconfig.rs:131-137 | the gate admits a number if and only if, the laps aside, it is at most half the space past the build's first, and it is open or the frame is a keyframe |
| KeyframeGate.RefusalIsSilent | sunburst-android/src/client.rs:509-515 | a consecutive frame further on is refused, and gate, decoder and reports stay as they were |
| KeyframeGate.ALapOnTheBuildFeedsOnAGap | sunburst-android/src/client.rs:494-543 | after one lap of consecutive frames of one build, losses gated and none reported, a P-frame is fed on a gap of half the space |
| KeyframeGate.RebuildAsksExactlyWhenSpent | sunburst-android/src/reconfig.rs:125-126 | a rebuild asks at once exactly when the newest frame fed is at or past its first |
| KeyframeGate.RequestsAreSpaced | sunburst-android/src/reconfig.rs:159-165 | keyframe requests are IDR_RETRY_MS apart over every run in which no rebuild found its keyframe spent |
| KeyframeAccount.ReportsAreExact | sunburst-android/src/client.rs:497-562 | by frame number, a step reports the first frame stepped over, the frame itself if it was admissible, there and not taken, what was drained in order, and nothing else; it feeds exactly what was admissible, there and taken, and discards nothing but in stepping over |
| KeyframeAccount.EveryFrameIsFedRefusedOrReported | sunburst-android/src/client.rs:494-562 | over every legal session, gating on loss or not, each frame from the first released to the last was fed, refused by the gate, or a report carries its id or that of the first frame of a stretch up to it none of which was fed; and the loop remembers the newest frame fed |
| KeyframeAccount.SessionAsksAtOnce | sunburst-android/src/reconfig.rs:108-116 | a session asks for its first keyframe at its first tick |
| Governor.FrameGovernor.FrameArrived | sunburst-net/src/governor.rs:157-200 | in place, the transition `OnFrame` |
| Governor.FrameGovernor.Flushed | sunburst-net/src/governor.rs:208-216 | in place, the transition `OnFlush` |
| Governor.FrameGovernor.CatchesUp | sunburst-net/src/governor.rs:220-227 | in place, whole slots stepped over |
| Governor.FrameGovernor.Reset | sunburst-net/src/governor.rs:231-233 | a reset is a new governor |
| Governor.Averaged | sunburst-net/src/governor.rs:158-163 | the averaged gap lies between what it was and what came in |
| Governor.GridKeepsItsPhase | sunburst-net/src/governor.rs:177-185 | resampling, the slot moves by whole intervals only, and a frame whose slot came is taken |
| Governor.FrameAnswers | sunburst-net/src/governor.rs:157-200 | for any frame: an encode is at most 17/40 interval before its slot and moves it on; a held frame's deadline is not before its arrival or the slot, nor later than max(57/40 interval, 2 gap + 1 ms) |
| Governor.HeldUntilOverdue | sunburst-net/src/governor.rs:190-199 | a held frame's deadline is exactly the latest of its slot, one interval on, and twice the cadence and a millisecond on |
| Governor.StepKeeps | sunburst-net/src/governor.rs:157-243 | every arrival and flush keeps the slot as many intervals past each encode as encodes followed it |
| Governor.EveryRunIsSpaced | sunburst-net/src/governor.rs:157-243 | encodes i to j span at least j - i - 1 - 17/40 intervals, through every change of mode |
| Governor.EveryFrameIsAccountedFor | sunburst-net/src/governor.rs:190-205 | flushing at deadlines, every arrival is encoded within the bound, superseded by the next before its deadline, or newest and held; the averaged gap stays between the extremes |
| Governor.SteadyContentIsAdmittedAsBefore | sunburst-net/src/governor.rs:309-348 | for content at or below the client's rate the governor never resamples, never flushes, and encodes exactly what the legacy rule encodes; a gap may equal the wait if a tie goes to the arrival and must be shorter if it goes to the flush |
| Resampling.AverageMovesAFifth | sunburst-net/src/governor.rs:158-163 | the average takes a fifth of each gap, to less than a nanosecond |
| Resampling.CadenceSettles | sunburst-net/src/governor.rs:158-163 | over any run, n frames lo to hi apart leave (4/5)^n of the average's distance from either bound |
| Resampling.FastContentIsResampled | sunburst-net/src/governor.rs:171-176 | over any run, once enough frames came clearly below 7/10 of the interval apart, counted from the old average, the governor is on the grid and stays there |
| Resampling.SlowContentIsNotResampled | sunburst-net/src/governor.rs:171-176 | over any run, once enough frames came clearly above 17/20 of the interval apart it is off the grid and stays off |
| Resampling.SixFramesOfDoubleRate | sunburst-net/src/governor.rs:171-176 | a new governor resamples content at twice the client's rate from the sixth frame on |
| Resampling.EachSlotTakesTheNearest | sunburst-net/src/governor.rs:177-189 | on the grid, short of a stall, the frame a slot takes is the nearest to it, and a declined frame is followed by one no farther, up to how far the gap differs from the cadence; the slot moves by one interval on an encode and else stays |
| Resampling.EverySlotIsFilled | sunburst-net/src/governor.rs:177-189 | on the grid and while frames keep coming, the k-th frame encoded is that of the k-th slot, exactly k intervals on, under half an interval early and under one gap late |
| Resampling.FlushTakesItsSlot | sunburst-net/src/governor.rs:208-216 | a flush moves the governor as a frame that came just then out of idle time would, in both modes |
| RateControl.SessionStaysInItsCaps | sunburst-net/src/rate.rs:69-87 | the range never inverts; it starts at the largest rate up to the target that passes no cap, tops out at the largest up to the ceiling asked for, bottoms at the one configured as far as the start allows, and only the session floor lifts it above a cap |
| RateControl.RateController.Report | sunburst-net/src/rate.rs:172-201 | in place, the transition `OnFeedback`; a target is returned when it changed, and every fall counts as a decrease, every rise as an increase |
| RateControl.RateController.LossyWindow | sunburst-net/src/rate.rs:206-230 | in place, counts the report and judges the window when it closes; `LossWindows.EveryVerdictIsTheWindows` says what it counted |
| RateControl.RateController.IncreaseIfDue | sunburst-net/src/rate.rs:232-271 | in place, the transition `MaybeIncreased` |
| RateControl.RateController.Set | sunburst-net/src/rate.rs:273-286 | the clamped target is noted as a decrease or an increase only when it moves |
| RateControl.ReportMoves | sunburst-net/src/rate.rs:172-286 | one report keeps the bounds, raises by at most five percent and only when no hold, loss or recent raise forbids it |
| RateControl.RiseIsExact | sunburst-net/src/rate.rs:232-271 | a flat report raises the target to 21/20 of it, in whole numbers and within the top, exactly when the last raise and the first report are half a second past, the last decrease and lossy window a second, and the step keeps under 19/20 of the learned ceiling or a probe is due |
| RateControl.UnsureHolds | sunburst-net/src/rate.rs:185-198 | a gradient between flat and overload, without a loss, moves neither target nor ceiling |
| RateControl.OverloadIsExact | sunburst-net/src/rate.rs:185-191 | on an overload of g millionths the ceiling learned is t / (1 + g) and the target falls to nine tenths of that, in whole numbers and above the bottom |
| RateControl.CeilingIsExact | sunburst-net/src/rate.rs:185-271 | short of an overload a ceiling is learned exactly by a lossy report, at the target, and forgotten exactly by a probe that is due and would pass 19/20 of it |
| RateControl.LossIsExact | sunburst-net/src/rate.rs:192-230 | a window is lossy exactly when a twentieth of its frames were lost, and then the target falls to 17/20 of it, in whole numbers and above the bottom |
| RateControl.StepKeeps | sunburst-net/src/rate.rs:172-286 | every report keeps the history of changes, losses and probes spaced |
| RateControl.EverySessionIsSteady | sunburst-net/src/rate.rs:172-286 | over every session the target stays in bounds, raises are 500 ms apart and after the first report and none within a second of a decrease or a lossy window, lossy windows a second apart, tries above a learned ceiling five |
| LossWindows.WindowCounts | sunburst-net/src/rate.rs:206-230 | after any reports the window holds what the client's own counters grew by since the report that closed the one before, whatever wraps |
| LossWindows.EveryVerdictIsTheWindows | sunburst-net/src/rate.rs:206-230 | over every session, from the reports alone, a report is a loss exactly when it comes a window's length after the one that closed the window before and one frame in twenty was lost between the two |
| LossWindows.NoDropsNoLoss | sunburst-net/src/rate.rs:206-230 | a window in which the count of lost frames stood still is no loss |
| RateControl.EstimateIsCapacity | sunburst-net/src/rate.rs:185-191 | the truncated overload ratio gives the capacity back to a millionth |
| RateControl.TheBandIsKept | sunburst-net/src/rate.rs:185-201 | on an ideal link one overload report puts the target in [0.9 C - 1, 1.052 C] and it never leaves |
| Pacing.Pacer.Record | sunburst-net/src/send.rs:96-103 | the wire is free a packet's cost after it was, or after the burst allows; having waited, the wait left is at most that cost |
| Pacing.Pacer.Wait | sunburst-net/src/send.rs:91-93 | in place, the time until the wire is free |
| Pacing.WaitIsExact | sunburst-net/src/send.rs:91-93 | the wire is free after a wait exactly when it is at least the one told |
| Pacing.CostIsTheTime | sunburst-net/src/send.rs:101 | a packet costs the time its bits take at the rate, short by less than a nanosecond |
| Pacing.PaceIsKept | sunburst-net/src/send.rs:91-103 | over any stretch of sends that waited, bits times 10^9 are at most the top rate times the time, the burst and a nanosecond a send |
| Pacing.WaitIsOwnCost | sunburst-net/src/send.rs:96-103 | right after any send of a stream that waited, the wait left is at most that packet's cost |
| Pacing.WireIsFreeWhen | sunburst-net/src/send.rs:96-103 | at any rates, the wire is free when the latest of these says: the start and all costs, or any send's time less the burst and the costs from it on; so idle time up to the burst is forgiven and no more |
| Pacing.BurstGoesAtOnce | sunburst-net/src/send.rs:96-103 | after the burst's worth of idle time, packets worth up to the burst go out at once |
| Pacing.PaceNeverBelowTheStart | sunburst-net/src/send.rs:52-54 | the pace is twice the live target or the start, whichever is more, and never nothing |
| RetransmitCache.Retransmits.StorePacket | sunburst-net/src/retransmit.rs:78-104 | in place, the transition `Store`; what is not video or too long changes nothing |
| RetransmitCache.Retransmits.Fetch | sunburst-net/src/retransmit.rs:107-126 | in place, `Lookup`, counted as a hit or a miss |
| RetransmitCache.StoreKeeps | sunburst-net/src/retransmit.rs:78-104 | storing the packetizer's next packet keeps table and ring those of the log |
| RetransmitCache.LookupIsFind | sunburst-net/src/retransmit.rs:107-126 | the table and ring answer exactly what the plain log answers |
| RetransmitCache.EveryLookupIsTheLogs | sunburst-net/src/retransmit.rs:78-126 | for packetizer-shaped traffic a packet is found exactly when among the last slots stored and its frame among the newest 64, with its own bytes |
| RetransmitCache.EveryLookupIsCounted | sunburst-net/src/retransmit.rs:101-131 | for packetizer-shaped traffic the hits are exactly the lookups whose packet the log still had, the misses the others, the stored the video packets sent |
| RetransmitCache.FindByNumber | sunburst-net/src/retransmit.rs:107-126 | the log's answer read by frame number |
| RetransmitCache.EveryHitIsWhatWasAsked | sunburst-net/src/retransmit.rs:107-126 | whatever was stored, a hit is a stored packet whose own bytes say video and the frame and index asked for, and hits and misses count every lookup |
| Batching.Batch.TryAdd | sunburst-net/src/send.rs:158-175 | a packet is added or refused without change; what is in fits the buffer and splits back |
| Batching.Batch.Clear | sunburst-net/src/send.rs:183-188 | an emptied batch is a new one |
| Batching.SendBatch | sunburst-net/src/send.rs:221-227 | one datagram for each segment of the buffer |
| Batching.SplitUndoesConcat | sunburst-net/src/send.rs:221-227 | splitting at the segment size gives back the packets |
| Batching.PackedFits | sunburst-net/src/send.rs:158-175 | a batch never outgrows its buffer |
| Batching.RefusalIsExact | sunburst-net/src/send.rs:158-175 | a packet is refused exactly when the batch with it would not split back into its packets or would exceed its limits |
| Batching.OnlyARefusalFlushes | sunburst-server/src/pipeline.rs:808-811 | queueing a packet sends nothing exactly when the batch is empty or has room, ends in a full-size packet and the packet is legal and no longer than the others |
| Batching.SendThread.Queue | sunburst-server/src/pipeline.rs:808-811 | a refused packet is retried on a flushed batch |
| Batching.SendThread.Flush | sunburst-server/src/pipeline.rs:832-850 | an empty batch sends nothing; otherwise it goes out split and is cleared |
| Batching.EveryPacketGoesOutWhole | sunburst-net/src/send.rs:158-227 | over every run, flushed, the wire has had exactly the packets of legal size, whole and in order, and no batch exceeds its limits |
| CursorShape.ChunkShape | sunburst-server/src/cursor.rs:126-150 | the loop yields the chunks from offset zero on |
| CursorShape.ChunksAreTheBitmap | sunburst-server/src/cursor.rs:132-148 | the k-th chunk carries the bitmap from k times the chunk size, and never more than that size |
| CursorShape.CursorReassembler.Accept | sunburst-android/src/client.rs:161-187 | in place, the transition `Push`: begin over on a new id or offset zero, fill, complete |
| CursorShape.ShapeRoundTrips | sunburst-android/src/client.rs:161-187 | from any earlier state a shape's chunks give nothing until the last, then exactly the shape |
| CursorShape.EveryShapeArrives | sunburst-android/src/client.rs:161-187 | any sequence of shapes, ids repeated or not, comes out as it went in |
| CursorShape.NoShapeIsMixed | sunburst-android/src/client.rs:162-170 | from a chunk of another shape or a first chunk on, nothing depends on what came before |
| CursorShape.NothingCompletesTwice | sunburst-android/src/client.rs:177-186 | a completed shape is not completed again by a later chunk of it |
| CursorShape.PastTheEndIsCut | sunburst-android/src/client.rs:174-177 | a chunk that reaches past the end counts as the part inside |

## Left out

- Capture, encoding, audio and display devices, input, USB and the user interface:
  foreign calls with nothing to prove behind them.
- Sockets, threads and clocks: times are arguments and the network is a relation.
- Authentication, pairing and session keys: only authenticated datagrams reach
  `Endpoint`, as an assumption.
- The packetizer, the frame reassembler, the jitter buffer and the control-message
  codecs: only what the modelled code needs of them is assumed, as above.
- The handler calls of `on_control` and the forgetting of idle clients.
- `fresh_epoch`: epochs are given, increasing over incarnations.
- The periodic intra-refresh schedule, `classify`, the client's interval and frame-rate
  arithmetic, the ring's copying `pop`: each says what its one line says.
- Weak memory: the rings are shown under sequential consistency only.
- DPB contents beyond the count of frames: `FallbackIsInTheDpb` says when the fallback is
  among the last `depth` frames, not which of them the encoder chose to keep.
- Delivery under every schedule: a network may drop everything, and then nothing is
  delivered. `Progress` shows that some run delivers all, not that every run does.
- What `try_offer_session` derives beside its send, and the pairing channel's own sends.
- 64-bit overflow in the pacer, of the gate's deadlines and of the statistics
  counters: these are unbounded numbers here.
- Rounding of floating point in `RateControl`.
- Channel.EveryRunIsFifo: assumes the two age bounds above, past which the counterexamples
  stand, and ends at a tick that finds the peer gone.
- PacketRing.EveryInterleavingIsFifo: assumes sequential consistency.
- PcmRing.EveryInterleavingIsFifo: assumes sequential consistency.
- RefState.EveryRunPredictsFromTheDecodable: assumes reports oldest first that never name a
  keyframe, without which it is false (`NewestFirstIsMissed`).
- KeyframeGate.EverySessionIsAnchored: assumes gating on loss, bytes still held and ids within
  2^15 of the build's first; for each a run that ends unanchored without it is given.
- Governor.EveryRunIsSpaced: speaks of a run between two resets, far from the end of the
  64-bit word.
- RateControl.TheBandIsKept: assumes the overload ratio fits the gradient's 32 bits.
- Reliable.Reliable.Receive: the frame kept for resending is held parsed, not as bytes;
  `Wire.DecodeEncode` is what makes that the same.
- Reliable.Reliable.Tick: the table is walked in key order over the whole 16-bit key
  space, where the source walks the sorted map's entries.
- AudioReorder.Reorder.Push: its loops are methods of their own, and the events are
  returned where the source hands them to a callback.
- RetransmitCache.Retransmits.StorePacket: a slot is its packet's bytes, without the
  stale bytes past its length, which no lookup reads.
- KeyframeGate.ReleaseLoop.Release: whether the frame's bytes were there and whether the
  decoder took them are arguments; presentation times and the drop counter are left out.
- Pacing.Pacer.Record: the cost is computed without the 64-bit product's overflow.
- CursorShape.ChunkShape: the chunk's constant pixel format is left out.
