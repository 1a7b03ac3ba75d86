# Verified models of the LiveKit server SDK

Dafny 4.11 models of the stateful cores of the LiveKit Go SDK, with proofs of what they promise.
`dafny verify dfyconfig.toml` checks the whole project. Each component has its behaviour as functions
on values, properties of those functions over every input, run or interleaving, and, where the SDK
updates state in place, methods proved to do exactly what the functions say.

| component | files |
|---|---|
| RTP sample builder: the reorder buffer, its `check()` invariant, delivery order, losses, the circular array | `SampleWindow`, `SampleInvariant`, `SampleDelivery`, `SampleOrder`, `SampleNumbers`, `SampleRuns`, `SampleLosses`, `SampleRing`, `SampleBounds`, `SampleDrained`, `SamplePops`, `SampleDropping`, `SampleBorders`, `SampleLateness` |
| Encrypted video: NAL unit scanning, RBSP escaping, round trips, key lookup and rotation | `VideoFraming`, `VideoEncryption`, `VideoSealing`, `KeyRotation` |
| Data track packets: packetizer and depacketizer | `DataTrackPackets`, `DataTrackReassembly`, `DataTrackDepacketizer`, `DataTrackRoundTrip`, `DataTrackLongFrames`, `DataTrackDrops` |
| Remote data tracks: one track's sections, the routing table under interleaving, the frame stream and its readers | `RemoteTrack`, `RemoteTrackStreams`, `RemoteTrackAnswers`, `RemoteTrackObject`, `RemoteManager`, `RemoteRouting`, `RemoteOutcomes`, `RemoteManagerObject`, `FrameStream`, `StreamReaders` |
| Local data tracks: publishing | `LocalPublishing`, `LocalRepublishing`, `LocalManagerObject` |
| Connection recovery | `ConnectionState`, `Recovery`, `RecoveryOutcomes`, `RecoveryWorker` |
| Ogg pages and their checksum | `OggChecksum`, `OggCorruption`, `OggBursts`, `OggPages`, `OggTruncation`, `OggReader`, `OggStream` |
| RTP to NTP mapping | `NtpRegression`, `NtpLine`, `NtpFit`, `NtpOutliers`, `NtpEstimator` |
| H.265 access units | `H265Assembly`, `H265Samples`, `H265Reader` |
| Start gate | `StartGating`, `StartGateOpening`, `StartGate` |

`Machine` has the fixed-width integers, `Circular` the index arithmetic of ring buffers.

Concurrency is modelled by steps: what a lock protects is one step, and runs are arbitrary sequences of
enabled steps. A step that takes a second lock while holding a first is split, the first lock's holder
being part of the state (`RemoteManager.Holder`), so that sections of other tracks interleave with it.
Clocks, randomness, signalling results and parser verdicts are parameters.

## Where the code and its promises part

- Draining: a packet so far ahead that no buffered frame fits beside its gap empties the sample builder
  and is stored with an empty slot at the tail, against `check()`.
  `SampleInvariant.Drains` is the exact condition, `SampleLosses.DrainExample` an instance. The next pop
  reads the packet missing there, and so do the pushes `SampleDrained.AfterDrain` names exactly.
- A second copy of the newest buffered RTP packet is taken for one 65535 ahead and empties the sample
  builder. `SampleLosses.DuplicateIsHarmlessIff` says exactly which second copies are harmless.
- For maxLate above 0x4000 the future index wraps, and so does the test of the loop that makes room
  (`SampleRing.FutureIndexInRange`, reached in `SampleBounds.FutureIndexGoesWrong`).
- For maxLate above 0x2000, and only there, 16-bit serial order misleads the builder: the packet after the
  newest may reset the stream, and the floor may move back in serial order (`SampleLosses.NextIsTimely`,
  `SampleLosses.BeyondSerial`). Delivery order does not suffer (`SampleRuns.DeliveryInOrder`).
- A forced pop need not leave the sample builder empty, whether it returns nothing
  (`SampleBounds.ForcedPopLeavesPacket`) or a frame (`SampleBounds.ForcedPopLeavesFrame`):
  `SampleDelivery.ForcedPopEmptiesIff` says exactly when the promise is kept.
- After a stream reset a flag may be left whose packet is forgotten, and a frame be cut there
  (`SampleBorders.BorderLeftExample`, with the exact condition in `PushKeepsMarkedIff`).
- A frame without a slice passes through encryption, but decrypting it looks a key up by its last byte
  (`VideoEncryption.FrameRoundTrip`).
- The frame encryptor notices a new key index, not a new key at the same index
  (`KeyRotation.RefreshedKeyIsMissed`, with the exact condition in `SealedUnderHeldKeyIff`).
- A data track frame of more than 128 packets never comes out (`DataTrackLongFrames.LongFramesAreShort`),
  but a wrong, shorter one may, exactly when it has more than 65536 and its last number lies fewer than 128
  after its first (`DataTrackLongFrames.LongFrameTruncatesIff`).
- A packet may be dropped although a track is active on its handle (`RemoteRouting.PacketMissesNewHolder`).
- With two readers and a buffer of two, and only then, a call of `Next` may be left waiting beside a
  buffered frame (`StreamReaders.ReadersGetStuckIff`).
- An SFU that exchanges the handles of two active tracks costs one its route
  (`RemoteRouting.ExchangeLosesRoute`, reached in `ExchangeIsReached`).
- A publish request whose send fails after the answer arrived leaves an active track nobody holds
  (`LocalPublishing.FailedSendLeavesTrack`, with its condition in `FailedSendLeavesTrackIff`).
- The comment that a worker runs if and only if the state requires recovery is not literally true: after
  giving up the state still does (`Recovery.GivenUpStaysDue`, `Recovery.TenFailuresGiveUp`). `Recovery.WorkerProtocol` gives the exact
  exceptions. A reconnect asked for during a restart is absorbed by its success
  (`Recovery.ReconnectDuringRestartIsLost`).
- An Ogg page without segments, and nothing else, makes `ReadPacket` index an empty table
  (`OggStream.NoSegmentsIff`, `OggStream.EmptyPageFails`).
- An Ogg stream cut off right behind a page header or a segment table ends as if it were complete
  (`OggTruncation.CutOffFails`).
- The comment that the NTP estimator is ready after two sender reports is not what the code does: it takes
  four (`NtpOutliers.FewReports`).
- The start gate's test for packets that come too fast never decides (`StartGateOpening.InPaceIff`).

## Model

| member | source | states |
|---|---|---|
| `SampleInvariant.PushKeepsValid` | pkg/samplebuilder/samplebuilder.go:106-158 | From a state that passes check(), every push - empty, next, ahead, behind, duplicate, late, reset, or pushed again after everything was released - leaves one that passes check() if and only if the packet does not drain the buffer |
| `SampleInvariant.MakeSpaceDrains` | pkg/samplebuilder/samplebuilder.go:334-341 | The make-space loop empties the buffer exactly when no buffered frame starts close enough to the head for the gap to fit behind it |
| `SampleInvariant.DropCutsAtFrameStart` | pkg/samplebuilder/samplebuilder.go:232-254 | Dropping removes exactly the slots before the next frame start: a slot marked as a start, or one whose timestamp is new |
| `SampleInvariant.PopKeepsValid` | pkg/samplebuilder/samplebuilder.go:424-473 | Every pop, forced or not, with all the frames it gives up on, leaves a state that passes check() |
| `SampleInvariant.InsertAheadKeepsValid` | pkg/samplebuilder/samplebuilder.go:326-351 | A packet ahead of the newest keeps check() unless the loop that makes room drained the buffer |
| `SampleInvariant.FillKeepsValid` | pkg/samplebuilder/samplebuilder.go:353-421 | A packet behind the newest fills a hole, or extends the window to the left with its gap, with all flags of check() right |
| `SampleInvariant.SettleInside` | pkg/samplebuilder/samplebuilder.go:388-421 | Filling a hole sets its own flags and those of both neighbours so that a frame border is marked wherever timestamps differ |
| `SampleInvariant.AppendToKeepsValid` | pkg/samplebuilder/samplebuilder.go:305-323 | The next packet ends the newest frame when its timestamp differs, and keeps every clause of check() |
| `SampleInvariant.DropKeepsValid` | pkg/samplebuilder/samplebuilder.go:232-254 | Dropping a frame keeps check(), and the newest packet unless the buffer is left empty |
| `SampleDelivery.PopDeliversFrame` | pkg/samplebuilder/samplebuilder.go:424-473 | A pop that returns packets returns one whole frame: one timestamp, consecutive sequence numbers, from a start flag to the first end flag, strictly after the floor, which moves to its last packet; without force it follows the floor immediately |
| `SamplePops.UnforcedPopIff` | pkg/samplebuilder/samplebuilder.go:424-473 | An unforced pop delivers if and only if some frame is due - whole, nothing missing before it, no frame start before it, and any pieces of frames that lie there more than maxLate behind the newest packet - and then it delivers exactly that frame |
| `SamplePops.ForcedPopIff` | pkg/samplebuilder/samplebuilder.go:424-473 | A forced pop delivers the first whole frame in the buffer, wherever it lies, and nothing if and only if there is none |
| `SampleBorders.PushKeepsMarkedIff` | pkg/samplebuilder/samplebuilder.go:305-421 | A push that does not drain leaves every start and end flag saying what the packets say - an end, a start, or a change of timestamp between two consecutive packets, only the tail starting a frame for a packet that is gone - if and only if it is not a reset by a packet placed before such a tail or too old |
| `SampleBorders.DeliveryIsFrameByPackets` | pkg/samplebuilder/samplebuilder.go:260-473 | In any run from a new builder without a drain or such a reset what a pop delivers is a frame by its packets alone: no end, start or change of timestamp inside, and one at each end, the packet before it delivered or given up |
| `SampleBorders.BorderLeftExample` | pkg/samplebuilder/samplebuilder.go:262-281 | Such a reset with maxLate 2: after it a pop delivers alone a packet that is no end and has the timestamp of the next, which is no start |
| `SampleDropping.DropCut` | pkg/samplebuilder/samplebuilder.go:232-254 | A drop gives up exactly the first frame: its packets reported in order, one frame counted, its timestamp noted if it is the first given up, the floor at its last packet |
| `SampleDropping.PushGivesUp` | pkg/samplebuilder/samplebuilder.go:299-350 | A packet accepted after the newest one costs whole frames at the tail, as few as make room for it and its gap; every other packet stays where it is |
| `SampleDropping.DropAllGivesUp` | pkg/samplebuilder/samplebuilder.go:335-341 | A packet that needs the whole buffer as its gap costs every frame, in order |
| `SampleDropping.SettledGivesUp` | pkg/samplebuilder/samplebuilder.go:424-458 | What a pop gives up before it delivers or waits are whole frames at the tail |
| `SampleLateness.IgnoredIff` | pkg/samplebuilder/samplebuilder.go:260-358 | A push discards its packet if and only if the packet lies at most maxLate behind the floor, is the newest one again, lies exactly the capacity ahead of it, or at least the capacity less one behind it; it resets the stream if and only if the packet is more than maxLate behind the floor |
| `SampleLateness.FloorFollows` | pkg/samplebuilder/samplebuilder.go:269-279 | The floor follows a packet ahead of it at a distance of maxLate, but no further than to just before the oldest packet buffered |
| `SampleDelivery.ForcedPopEmptiesIff` | pkg/samplebuilder/samplebuilder.go:528-553 | The promise of an empty buffer after a forced pop, whatever it returns, is kept if and only if the buffer held no frame still open - a start after which nothing is missing and nothing ends - and no whole frame but one that ends with the newest packet |
| `SampleBounds.ForcedPopLeavesPacket` | pkg/samplebuilder/samplebuilder.go:528-553 | One push of a packet that starts a frame and does not end it: a forced pop returns nothing and leaves it buffered |
| `SampleBounds.ForcedPopLeavesFrame` | pkg/samplebuilder/samplebuilder.go:528-553 | Two pushes of frames of one packet each: a forced pop returns the first and leaves the second buffered |
| `SampleOrder.PushKeepsInv` | pkg/samplebuilder/samplebuilder.go:260-281 | A push that drains nothing keeps the oldest buffered packet within the capacity of the floor |
| `SampleOrder.PushClimbs` | pkg/samplebuilder/samplebuilder.go:260-281 | For maxLate up to 0x2000 - exactly that far, see SampleLosses.BeyondSerial - no push between stream resets moves lastSeqno backwards in 16-bit serial order |
| `SampleOrder.PopClimbs` | pkg/samplebuilder/samplebuilder.go:424-473 | For maxLate up to 0x2000, again exactly that far, no pop moves lastSeqno backwards in 16-bit serial order |
| `SampleOrder.ReleaseAllFloor` | pkg/samplebuilder/samplebuilder.go:224-228 | Releasing everything leaves the floor at the newest packet |
| `SampleNumbers.PushRises` | pkg/samplebuilder/samplebuilder.go:260-422 | For every maxLate up to 0x4000: give each accepted packet the extended number of its push, the highest so far plus the signed 16-bit distance to it; after a push the buffer holds each packet in the slot of its number, nothing new but the packet pushed, and the number of lastSeqno has not fallen |
| `SampleRuns.DeliveryInOrder` | pkg/samplebuilder/samplebuilder.go:260-473 | For every maxLate up to 0x4000, beyond which ring indices wrap, in every run of pushes and pops without a drain or a reset: the packets delivered, each with a number it was given when it was pushed, come in strictly increasing order of these numbers, all above the floor the run began with: in order, and none twice |
| `SampleRuns.DeliveryFromEmpty` | pkg/samplebuilder/samplebuilder.go:260-473 | From a new builder: every packet delivered is in the log of accepted pushes at its number, and the numbers strictly increase |
| `SampleLosses.PushConserves` | pkg/samplebuilder/samplebuilder.go:260-422 | Counting copies of any packet, buffered or reported released: a push adds one of its own, unless it is one of the exactly named ignored ones, and neither loses nor copies any other |
| `SampleLosses.PopConserves` | pkg/samplebuilder/samplebuilder.go:424-473 | What a pop delivers leaves the buffer; everything else it removes is reported released |
| `SampleLosses.RunConserves` | pkg/samplebuilder/samplebuilder.go:260-473 | Over every run that drains nothing, stream resets included, every accepted packet is delivered, reported released or still buffered, exactly once for each time it was accepted |
| `SampleLosses.DeliveredAsAccepted` | pkg/samplebuilder/samplebuilder.go:260-473 | So, from a new builder and even across stream resets, no packet is delivered more often than it was accepted |
| `SampleLosses.DuplicateOfNewestEmptiesBuffer` | pkg/samplebuilder/samplebuilder.go:326-333 | A second copy of the newest buffered packet that is not refused as late lies 65535 ahead by the arithmetic of the code: it empties the whole buffer and is lost itself |
| `SampleLosses.DuplicateIsHarmlessIff` | pkg/samplebuilder/samplebuilder.go:260-386 | A second copy of a buffered packet leaves the buffer as it is if and only if it is not one of the newest packet or is refused as late; up to maxLate 0x2000 none is refused |
| `SampleLosses.DrainExample` | pkg/samplebuilder/samplebuilder.go:334-350 | With maxLate 2, pushing 10 and then 13 leaves an empty slot at the tail, which check() rejects |
| `SampleLosses.NextIsTimely` | pkg/samplebuilder/samplebuilder.go:260-281 | For maxLate up to 0x2000 the packet after the newest is never refused and never taken for a stream reset |
| `SampleLosses.BeyondSerial` | pkg/samplebuilder/samplebuilder.go:260-281 | For every larger maxLate three pushes into a new builder reach a state in which the next packet resets the stream, a second copy of the newest packet moves lastSeqno backwards, and so does a forced pop if the two buffered packets start no frame |
| `SampleRing.FutureIndexInRange` | pkg/samplebuilder/samplebuilder.go:342 | The 16-bit sum of head and count selects the right slot for every head and count a push can reach if and only if maxLate is at most 0x4000 |
| `SampleRing.MustDropIs` | pkg/samplebuilder/samplebuilder.go:335 | Up to maxLate 0x4000 the test of the loop that makes room, a sum in 16 bits, is the one on unbounded numbers |
| `SampleBounds.FutureIndexGoesWrong` | pkg/samplebuilder/samplebuilder.go:326-350 | For every larger maxLate the constructor allows, after four pushes into a new builder, none released, both sums of the fifth wrap: the loop that makes room drops nothing and the packet is stored over the first one in slot 0, the other three being left outside the buffer, against check() |
| `SampleDrained.AfterDrain` | pkg/samplebuilder/samplebuilder.go:260-473 | After a drain every pop reads the packet missing at the tail, and a push does exactly for these: packets from maxLate to half the circle after the floor, another copy of the newest, and packets so late that they reset the stream and count as ahead of the newest |
| `SampleRing.Builder.Push` | pkg/samplebuilder/samplebuilder.go:260-293 | In place on the circular array, a push does what the function on the window does, and the builder stays sound exactly when the buffer is not drained |
| `SampleRing.Builder.InsertAhead` | pkg/samplebuilder/samplebuilder.go:326-351 | In place: makes room frame by frame and stores the packet count slots past the head |
| `SampleRing.Builder.Fill` | pkg/samplebuilder/samplebuilder.go:353-421 | In place: extends the tail when needed, releases a duplicate, or settles the packet with both neighbours |
| `SampleRing.Builder.AppendTo` | pkg/samplebuilder/samplebuilder.go:305-323 | In place: closes the newest frame when the packet starts another, and stores the packet at the head |
| `SampleRing.Builder.Release` | pkg/samplebuilder/samplebuilder.go:202-221 | In place: clears the tail slot, moves the tail to the next held slot or to the empty form, and the floor to the packet released |
| `SampleRing.Builder.Drop` | pkg/samplebuilder/samplebuilder.go:232-254 | In place: removes a frame, counting it, and seeds the sample clock with the first timestamp dropped |
| `SampleRing.Builder.Scan` | pkg/samplebuilder/samplebuilder.go:446-461 | The loop over the array finds the first end flag, a hole before it, or neither |
| `SampleRing.Builder.PopRtpPackets` | pkg/samplebuilder/samplebuilder.go:424-473 | The retry loop on the array delivers what the function on the window delivers, with its timestamp, and stays sound |
| `VideoFraming.UnescapeInverts` | e2ee/codec_video.go:214-245 | Unescaping the escaped form gives back every byte string |
| `VideoFraming.EscapedIsStartCodeFree` | e2ee/codec_video.go:214-230 | No 00 00 00, 00 00 01 or 00 00 02 is left in an escaped string (section 7.4.1 of ITU-T H.264) |
| `VideoFraming.NothingToUnescape` | e2ee/codec_video.go:247-255 | When no escape is found, leaving out the unescape changes nothing |
| `VideoFraming.UnescapesFirst` | e2ee/codec_video.go:233-245 | Unescaping removes the third byte of the first 00 00 03, whatever follows it, and goes on behind it |
| `VideoFraming.UnescapesNothing` | e2ee/codec_video.go:233-245 | Bytes without such a place are left as they are |
| `VideoFraming.NothingToEscape` | e2ee/codec_video.go:214-230 | Bytes without two zeros followed by a byte of at most 3 are left as they are |
| `VideoFraming.LastByteSurvives` | e2ee/codec_video.go:214-230 | The last byte of a string is the last byte of its escaped form |
| `VideoFraming.WriteRBSP` | e2ee/codec_video.go:214-230 | The loop over the bytes produces the escaped form, which unescaping inverts |
| `VideoFraming.ParseRBSP` | e2ee/codec_video.go:233-245 | The loop over the bytes removes the emulation prevention bytes |
| `VideoFraming.NeedsRBSPUnescaping` | e2ee/codec_video.go:248-255 | True exactly when some 00 00 03 occurs |
| `VideoFraming.FindNALUIndices` | e2ee/codec_video.go:152-169 | The skipping scan lists, in order, exactly the positions that follow a three-byte or four-byte start code |
| `VideoFraming.FindUnencryptedBytes` | e2ee/codec_video.go:174-202 | The end of the second byte of the first slice unit, or -1 |
| `VideoFraming.FindH264UnencryptedBytes` | e2ee/codec_video.go:174-185 | For H.264: slice units are those of type 1 or 5 |
| `VideoFraming.FindH265UnencryptedBytes` | e2ee/codec_video.go:191-210 | For H.265: slice units are those of types 0 to 9 and 16 to 21 |
| `VideoFraming.HeaderFoundAgain` | e2ee/codec_video.go:174-202 | Whatever follows the clear header, a scan finds the header where it was |
| `VideoEncryption.EncryptVideoSample` | e2ee/codec_video.go:47-90 | The encrypted sample is the clear header followed by the escaped ciphertext, nonce and trailer, with every error and pass-through case |
| `VideoEncryption.DecryptVideoSample` | e2ee/codec_video.go:93-147 | The decryption of a sample, with the dropped, short, slice-less and malformed cases |
| `VideoEncryption.EncryptionKeepsHeader` | e2ee/codec_video.go:55-89 | The scan finds the same header length in the encrypted sample; what follows unescapes to what was sealed; the last byte is the key id |
| `VideoEncryption.SampleRoundTrip` | e2ee/codec_video.go:47-147 | Decrypting an encrypted H.264 or H.265 sample returns it, pass-through samples included, unless its end matches the injected-frame trailer |
| `VideoSealing.SealsSlices` | e2ee/codec_video.go:47-90 | A sample is sealed if and only if it has a slice unit of more than two bytes: all of it but what comes up to the second byte of the first such unit; every other sample passes through |
| `VideoSealing.OpensSlices` | e2ee/codec_video.go:93-147 | So is what is opened, unless the sample ends with the trailer of an injected frame, which is dropped |
| `VideoSealing.TrailerTellsNonce` | e2ee/codec_video.go:118-147 | Opening finds text and nonce by the length in the trailer, whatever it is: an empty nonce or a text that is not authentic is an error, and a portion too short to have been sealed gives the sample back |
| `VideoSealing.TrailerTooLong` | e2ee/codec_video.go:118-126 | A length in the trailer beyond the portion is the one other error |
| `VideoSealing.FrameOutcomes` | e2ee/frameencryptor.go:136-160 | A frame is too short, dropped for its trailer, or without a key exactly in these cases: a trailer that is not empty counts before the key id, an empty one after it |
| `VideoSealing.H264SliceTypes` | e2ee/codec_video.go:174-185 | The slice types are 1 and 5, whatever the three bits before them |
| `VideoSealing.H265SliceTypes` | e2ee/codec_video.go:191-210 | The slice types are 0 to 9 and 16 to 21, whatever the bits around them |
| `VideoEncryption.FrameEncryptor.EncryptFrame` | e2ee/frameencryptor.go:76-90 | Encrypts under the cached cipher while the key index stays; when it moved, after whatever other callers did to the cache before this one has the lock, under the cipher of the index read first; an index out of range is an error |
| `VideoEncryption.FrameEncryptor.RotateAndEncrypt` | e2ee/frameencryptor.go:92-112 | Under the lock: a second look, the cipher another caller has put there in the meantime or that of the key fetched now, which replaces the cached one; a missing key is an error that leaves the cache alone |
| `KeyRotation.SealedUnderItsIndex` | e2ee/frameencryptor.go:76-112 | Over every interleaving of callers and key changes a frame is sealed under a key the provider has held at the index the frame carries - the one it holds now where no index is given a second key - and a key is fetched, under the lock, only when the cache holds another index |
| `KeyRotation.SealedUnderHeldKeyIff` | e2ee/frameencryptor.go:76-112 | After any interleaving, between calls: the next frame, uninterrupted, is sealed under the key held at the current index if and only if the cache holds another index or that very key |
| `KeyRotation.RefreshedKeyIsMissed` | e2ee/frameencryptor.go:83-86 | A key replaced at the current index is not noticed, the cache going by the index: the next frame is sealed under the old key |
| `VideoEncryption.FrameDecryptor.DecryptFrame` | e2ee/frameencryptor.go:136-160 | The key is looked up by the last byte of the encrypted frame; the cache never answers for a key that has changed |
| `VideoEncryption.FrameDecryptor.CachedBlock` | e2ee/frameencryptor.go:162-182 | The cipher returned is that of the key held now, and only this key id's cache entry changes |
| `VideoEncryption.FrameRoundTrip` | e2ee/frameencryptor.go:136-160 | A sealed frame decrypts to itself through the key lookup; a passed-through frame does exactly when a key happens to be held at the index equal to its last byte |
| `DataTrackPackets.ChunksRejoin` | internal/datatrack/packetizer.go:81-89 | The chunks of a payload, none empty and none too long, join to the payload |
| `DataTrackPackets.ChunkCount` | internal/datatrack/packetizer.go:81-89 | There are as many chunks as the length of the payload over their size, rounded up |
| `DataTrackPackets.ChunkPayload` | internal/datatrack/packetizer.go:81-89 | The loop over the shrinking payload yields those chunks |
| `DataTrackPackets.Packetizer.Packetize` | internal/datatrack/packetizer.go:38-65 | One packet for each chunk with its marker, consecutive 16-bit sequence numbers and the frame number; an extension that cannot be marshalled or an MTU without room is an error that moves neither counter |
| `DataTrackDrops.PacketsCarryHeader` | internal/datatrack/packetizer.go:38-65 | Every packet of a frame has its handle, timestamp, frame number and extensions; the first alone starts the frame, the last alone ends it, and their numbers follow one another around the circle |
| `DataTrackReassembly.PushKeepsValid` | internal/datatrack/depacketizer.go:95-176 | After every packet order lists the keys of partials once each, and partial frames are within the buffer; after a Start at most maxPartialFrames remain |
| `DataTrackReassembly.MakeRoomKeepsValid` | internal/datatrack/depacketizer.go:134-144 | The eviction loop ends below the limit, or with nothing left to evict |
| `DataTrackDrops.StartCosts` | internal/datatrack/depacketizer.go:134-155 | A packet that starts a frame costs the oldest partial frames, as many as are over the limit and no more; the first of them is reported, and the new frame is last in order unless it had begun before |
| `DataTrackDrops.SingleCosts` | internal/datatrack/depacketizer.go:106-116 | A packet that is a frame comes out at once; if the partial frames are at their limit it costs the oldest, reported as interrupted |
| `DataTrackDrops.LaterCosts` | internal/datatrack/depacketizer.go:157-212 | Any other packet touches its own frame alone: unknown, full and incomplete frames are reported as such, the last with its counts, and a final packet ends its frame either way |
| `DataTrackDepacketizer.Depacketizer.Push` | internal/datatrack/depacketizer.go:95-104 | In place on the map and the list, a packet has the effect and the result of the function on both |
| `DataTrackDepacketizer.Depacketizer.BeginPartial` | internal/datatrack/depacketizer.go:134-155 | In place: evicts the oldest frames first, reports the first one, and restarts a frame already begun without listing it twice |
| `DataTrackDepacketizer.Depacketizer.PushToPartial` | internal/datatrack/depacketizer.go:157-176 | In place: the unknown, full, stored and final cases |
| `DataTrackDepacketizer.FinalizeFrame` | internal/datatrack/depacketizer.go:178-212 | The loop from the first sequence number to the last, with its wrap, joins the stored payloads or reports the frame incomplete |
| `DataTrackRoundTrip.FinalizeExact` | internal/datatrack/depacketizer.go:178-212 | A frame is emitted if and only if the sequence numbers stored are exactly those from its first to its last, and is then their payloads in order |
| `DataTrackRoundTrip.FrameRoundTrip` | internal/datatrack/depacketizer.go:95-212 | The packets of a payload arrive, first one first, last one last, inner ones in any order with any repetition, and in between any packets of other frames - fewer than maxPartialFrames of them beginning or being a frame, counting frames already begun since: for every starting sequence number the payload is emitted, once, if and only if every inner packet arrived; a frame of more than 128 packets emits nothing if they all arrive, or unless its numbers wrap short |
| `DataTrackLongFrames.LongFrameTruncatesIff` | internal/datatrack/depacketizer.go:134-212 | For a payload of n > 128 packets, from any state: some arrival of its packets makes a wrong, shorter frame come out if and only if n > 65536 and (n - 1) mod 65536 < 128 |
| `DataTrackLongFrames.TruncatedComesOut` | internal/datatrack/depacketizer.go:178-212 | The arrival that does it: the first packets up to the number of the last, and the last, come out as a frame of their chunks alone |
| `DataTrackLongFrames.LongFrameEmitsNothing` | internal/datatrack/depacketizer.go:157-212 | In every other case, whatever arrives in between, and whenever every inner packet arrives, a frame of more than 128 packets emits nothing |
| `DataTrackLongFrames.LongFramesAreShort` | internal/datatrack/depacketizer.go:157-212 | Whatever frame an arrival of the packets of such a payload emits, it is shorter than the payload: the payload itself never comes out |
| `DataTrackRoundTrip.FewOthersIfFresh` | internal/datatrack/depacketizer.go:134-155 | For a frame number not in progress that bound is: fewer than maxPartialFrames other packets begin or are a frame |
| `DataTrackRoundTrip.ShortFrameRoundTrip` | internal/datatrack/depacketizer.go:106-116 | A payload of one chunk comes back from its single packet; an empty payload makes none |
| `RemoteTrack.RunKeepsInv` | internal/datatrack/remote.go:420-494 | Every lock-held section keeps: pending iff someone waits; active iff a stream is open iff the packet channel is open; unpublished tracks have no subscription; no waiter answered twice, no channel closed twice; the last update queued tells whether a published track is subscribed |
| `RemoteTrack.RunsKeepInv` | internal/datatrack/remote.go:420-684 | Over every interleaving of Subscribe, cancel, activate, end, stream close, resend and failed requests the invariant holds, unpublished is final, and updates reach the wire in the order of the changes |
| `RemoteTrack.ChangesGrow` | internal/datatrack/remote.go:535-544 | A section queues at most one update, after all earlier ones, and it tells the subscription the section leaves |
| `RemoteTrack.WireTellsSubscription` | internal/datatrack/remote.go:456-493 | At rest, if no send failed, the last update sent says "subscribe" if and only if the track is subscribed |
| `RemoteTrack.GrantAllSafe` | internal/datatrack/remote.go:578-581 | Activation answers each waiter once, uses fresh numbers, and leaves the subscription with streams if anyone waited |
| `RemoteTrack.GrantAllGrants` | internal/datatrack/remote.go:578-581 | The stream each waiter is granted is its own and open |
| `RemoteTrack.DeliveryIsOpen` | internal/datatrack/remote.go:587-600 | A packet is passed on exactly when the active subscription has its handle, and never to a closed channel |
| `RemoteTrackStreams.CancelledStreamsClose` | internal/datatrack/remote.go:471-488 | Over every interleaving: a stream granted to a Subscribe call that was cancelled, the answer having come first, is closed or about to be closed by that call; once no call owes a close, no such stream is open |
| `RemoteTrackAnswers.StreamsHandedAreOpen` | internal/datatrack/remote.go:434-684 | Over every interleaving the open streams are exactly those handed to calls that joined or waited and not closed since, the end of the track closing all |
| `RemoteTrackAnswers.JoinedIsNew` | internal/datatrack/remote.go:444-448 | A call joins only an active subscription, with a stream that no other call has |
| `RemoteTrackAnswers.AnswersTell` | internal/datatrack/remote.go:456-658 | A section answers all calls that wait or none: a stream of its own to each on activation, the error on the end of the track, the failed send |
| `RemoteTrackAnswers.WaitersAreAnswered` | internal/datatrack/remote.go:449-494 | Over every interleaving a call that came to wait and was not cancelled is on the list, the subscription pending, or has been answered, exactly once |
| `RemoteTrackAnswers.EncryptedNeedsDecryptor` | internal/datatrack/remote.go:439-442 | Without a decryptor an encrypted track is never subscribed to, nor asked for |
| `RemoteTrackAnswers.SizeIsOfOpener` | internal/datatrack/remote.go:420-456 | The size of the streams granted is what the call that opened the subscription asked for, at least one |
| `RemoteTrackAnswers.FailuresAreCounted` | internal/datatrack/remote.go:456-467 | Every request of a Subscribe call that could not be sent is acted on once |
| `RemoteTrackAnswers.ResubscribesUnderNewSid` | internal/datatrack/remote.go:508-530 | A track republished under another SID asks for its subscription again under that SID |
| `RemoteTrackObject.Track.Subscribe` | internal/datatrack/remote.go:434-456 | In place: refusals, joining an active subscription, or waiting, the first to wait queueing the request |
| `RemoteTrackObject.Track.Cancel` | internal/datatrack/remote.go:472-480 | In place: the waiter leaves the list and the last to leave a pending subscription withdraws it |
| `RemoteTrackObject.Track.RemoveWaiter` | internal/datatrack/remote.go:496-503 | The loop takes out the first entry equal to the waiter and keeps the order of the others |
| `RemoteTrackObject.Track.Activate` | internal/datatrack/remote.go:557-583 | In place: opens a pending subscription and grants every waiter a stream, or moves an active one and names the handle replaced |
| `RemoteTrackObject.Track.End` | internal/datatrack/remote.go:641-658 | In place: refuses waiters, closes streams and channel, and names the handle if the subscription was active |
| `RemoteTrackObject.Track.RemoveStream` | internal/datatrack/remote.go:662-684 | In place: the last stream to leave ends the subscription and names the handle to release |
| `RemoteTrackObject.Track.FailRequest` | internal/datatrack/remote.go:456-467 | In place: a request that could not be sent fails the waiters of the pending subscription, if there still is one |
| `RemoteRouting.StepKeepsInv` | internal/datatrack/remote.go:235-316 | Every step of the manager and of the tracks, the manager's lock held across both halves of an activation or an end, keeps: the directory lists the published tracks under their SIDs; active tracks have distinct handles and routes; every route is in use or its removal is due |
| `RemoteRouting.PacketReachesItsTrack` | internal/datatrack/remote.go:273-289 | Over every interleaving with an SFU that assigns no handle another active track holds, a packet being looked up under one lock and delivered later under another: the lookup finds the track active on its handle if there is one; the packet is delivered if and only if the track found is active on the handle when it arrives, its channel not being full, and then on that open channel |
| `RemoteRouting.HandedIff` | internal/datatrack/remote.go:585-602 | In every state that keeps the invariants of the tracks a packet in flight is handed on if and only if its track is active on the handle and has room, to its open channel; while the SFU keeps its promise no other track is active on the handle |
| `RemoteRouting.HandedWhateverTheSFU` | internal/datatrack/remote.go:273-316 | Over every interleaving, whatever handles the SFU assigns: a packet in flight is handed on if and only if the track looked up is active on the handle when it arrives, its channel not being full, and then on the open channel of that track |
| `RemoteRouting.PacketMissesNewHolder` | internal/datatrack/remote.go:281-288 | A run in which a packet is dropped although another track is active on its handle when it arrives: the track found left in between |
| `RemoteRouting.RunsKnowIds` | internal/datatrack/remote.go:281-288 | In every run, whatever the SFU assigns, a packet in flight can be delivered: whatever the tables and pending calls name is a track |
| `RemoteRouting.NoRouteLeaks` | internal/datatrack/remote.go:264-270 | With an SFU that keeps that promise: when no release is on its way the table holds the active tracks' routes and nothing else |
| `RemoteRouting.AssignmentKeepsRoutesIff` | internal/datatrack/remote.go:250-258 | An assignment keeps every active track routable if and only if no other active track holds the handle |
| `RemoteRouting.ExchangeLosesRoute` | internal/datatrack/remote.go:255-258 | Exchanging the handles of two active tracks one after the other leaves the first without a route, though in the end no two tracks share a handle |
| `RemoteRouting.ExchangeIsReached` | internal/datatrack/remote.go:232-258 | A run from the start, for any two handles, to a state in which the exchange does that |
| `RemoteRouting.LocalOnlyEnds` | internal/datatrack/remote.go:662-684 | Outside activation no section of a track opens a subscription or moves its handle, and the one that closes it leaves a release of that handle |
| `RemoteOutcomes.PacketsArriveOnce` | internal/datatrack/remote.go:273-289 | In every run each lookup that finds a track is followed by one arrival at it, or the packet is in flight still |
| `RemoteOutcomes.EndsTellWhy` | internal/datatrack/remote.go:172-183 | Unpublishing refuses the calls waiting for that track as unpublished, a shutdown as disconnected; no other step of the manager or of a track ends one |
| `RemoteManagerObject.Manager.HandleSubscriberHandles` | internal/datatrack/remote.go:235-260 | The loop over the message assigns each handle in turn, skipping unknown and unsubscribed tracks |
| `RemoteManagerObject.Manager.ReleaseHandle` | internal/datatrack/remote.go:264-270 | The route goes only if it is still this track's and the track is not active on it again |
| `RemoteManagerObject.Manager.LookUp` | internal/datatrack/remote.go:280-283 | In place: the section under the lock of the manager finds the track by the handle and leaves the packet in flight |
| `RemoteManagerObject.Manager.PassOn` | internal/datatrack/remote.go:288 | In place: the later section under the lock of the track hands the packet to its channel, or drops it, because the subscription ended or moved or the channel is full |
| `RemoteManagerObject.Manager.Unpublish` | internal/datatrack/remote.go:172-183 | The track ends and leaves the directory, and the route of its active subscription goes |
| `FrameStream.HoldsNewest` | internal/datatrack/remote.go:729-746 | Whatever the reader does, a stream holds the newest frames accepted, in order, at most its capacity |
| `FrameStream.ReturnedInOrder` | internal/datatrack/remote.go:699-721 | Frames come out in the order they were accepted, none twice |
| `FrameStream.FramesAreAccepted` | internal/datatrack/remote.go:699-746 | Every frame returned is the accepted frame of its place |
| `FrameStream.FramesAreConserved` | internal/datatrack/remote.go:699-746 | Every frame accepted is held still, was returned, or was the oldest in a full buffer when another came |
| `FrameStream.PollIff` | internal/datatrack/remote.go:700-714 | A call finds a frame if and only if one is held, then the oldest, and the end if and only if none is and the stream is closed |
| `FrameStream.Stream.Push` | internal/datatrack/remote.go:729-746 | In place on the ring: a full buffer loses its oldest frame, a closed one takes none, and the ready channel has its token unless closed |
| `FrameStream.Stream.Next` | internal/datatrack/remote.go:700-714 | In place on the ring, one look under the lock: the oldest frame, the end after a close once the buffer is empty, or nothing yet, on which the call waits |
| `FrameStream.Stream.Wake` | internal/datatrack/remote.go:715-719 | A waiting call goes on if and only if the ready channel has its token, which it takes, or is closed |
| `StreamReaders.LoneReaderIsNeverStuck` | internal/datatrack/remote.go:699-721 | Over every interleaving with pushes and the close, a lone reader never waits beside a buffered frame without a token or a look under way |
| `StreamReaders.ReadersGetStuckIff` | internal/datatrack/remote.go:699-746 | Some interleaving leaves a reader waiting beside a buffered frame, with no token and no call about to look, if and only if there are two readers and the buffer has two places; a push hands its token straight to a reader blocked in the receive, so the readers must be between the unlock and the receive |
| `StreamReaders.StuckLasts` | internal/datatrack/remote.go:699-721 | Such a state lasts: no step of the readers ends it, short of giving up or another call |
| `StreamReaders.TwoReadersCanBeStuck` | internal/datatrack/remote.go:699-746 | The run for every capacity of at least two: both readers find nothing and give up the lock, two pushes leave one token, the reader that receives it takes one frame, and the other blocks beside the second |
| `LocalPublishing.StepKeepsSafe` | internal/datatrack/local.go:128-339 | Every section keeps, for every handle: pending and active are disjoint; a pending call has no answer yet and its caller is there; a call that may still receive has exactly one answer; an active track is not unpublished; a channel is closed at most once |
| `LocalPublishing.RunsKeepInv` | internal/datatrack/local.go:128-452 | Over every interleaving of Publish, cancel, answers, unpublish, republish and shutdown; no answer is taken back, no call ends twice, no unpublished track is revived or closed again |
| `LocalPublishing.NothingBlocks` | internal/datatrack/local.go:169-183 | In every run the receive after a lost cancel finds its answer, an answer finds its channel empty, and once the tracks taken off the table are marked the active ones are exactly those not unpublished |
| `LocalPublishing.HandlesAreFresh` | internal/datatrack/handle.go:41-52 | A handle given out was never given out before and belongs to no call or track |
| `LocalPublishing.WhoOwnsActive` | internal/datatrack/local.go:128-183 | Every active track was accepted, and its Publish call is still under way, returned it, or failed to send |
| `LocalPublishing.AcceptedIsKeptOrWithdrawn` | internal/datatrack/local.go:206-279 | In every run, once no unpublish request is owed: the publications the SFU accepted on a handle are as many as the unpublish requests sent for it, plus one if its track is active, plus one, at most, if the SFU or a shutdown took it off; the track of a cancelled call is not active, so each acceptance of it was answered by a request or taken off |
| `LocalPublishing.RunConserves` | internal/datatrack/local.go:206-279 | The same account kept over any run from any state, owed requests included |
| `LocalPublishing.FailedSendLeavesTrack` | internal/datatrack/local.go:160-167 | That last case happens: an answer that arrives before the send fails leaves an active track nobody holds |
| `LocalPublishing.FailedSendLeavesTrackIff` | internal/datatrack/local.go:160-167 | A failed send leaves an active track if and only if the track is active as the send returns; otherwise the handle is never active again |
| `LocalRepublishing.RepublishingIff` | internal/datatrack/local.go:284-310 | In every run an active track is being republished if and only if a republication found it active and no answer has completed it since; otherwise it is published, under the SID of the answer that completed its last republication, or of its acceptance |
| `LocalRepublishing.AnswerIsOfItsStep` | internal/datatrack/local.go:206-342 | In every run a Publish call is answered at most once, by the first step that answers it and with its reason: accepted, rejected, unpublished or disconnected |
| `LocalManagerObject.Manager.Resolve` | internal/datatrack/local.go:206-239 | In place: answers a pending call, making the track it accepts; later answers complete or drop a republished track, or are owed an unpublish request |
| `LocalManagerObject.Manager.HandleUnpublishResponse` | internal/datatrack/local.go:242-261 | In place: fails a pending call and takes the track off the table |
| `LocalManagerObject.Manager.Leave` | internal/datatrack/local.go:170-181 | In place: the section of a cancelled call takes it off the table and tells whether its answer is still to be received |
| `LocalManagerObject.Manager.FailSend` | internal/datatrack/local.go:160-165 | In place: the section of a call whose request could not be sent takes it off the table |
| `LocalManagerObject.Manager.RepublishTracks` | internal/datatrack/local.go:284-312 | In place, by two loops: every pending call fails, every active track waits to be published again, and no other changes |
| `LocalManagerObject.Manager.Shutdown` | internal/datatrack/local.go:323-342 | In place: every pending call fails and every active track is taken off the table to be marked |
| `LocalManagerObject.Manager.Get` | internal/datatrack/handle.go:46-52 | In place: the next handle, pending, or none after 65535 |
| `LocalManagerObject.LocalTrack.MarkUnpublished` | internal/datatrack/local.go:425-433 | In place: the channel closes the first time only |
| `LocalManagerObject.LocalTrack.CompleteRepublish` | internal/datatrack/local.go:443-452 | In place: only a track being republished is published again |
| `Recovery.StepKeepsInv` | connection_manager.go:318-358 | Every step of disconnects, workers, the first join and closing keeps the slot, coverage, region settings and attempt bounds |
| `Recovery.WorkerProtocol` | connection_manager.go:118-123 | In every run the slot is taken exactly while one worker lives; while recovery is due a worker lives if and only if the last one did not give up; while it is not due a worker lives only if its attempt has just succeeded or the connection is closed; region settings are kept only while resuming or reconnecting |
| `Recovery.GivenUpStaysDue` | connection_manager.go:118-123 | A run of five steps, the engine closing, that leaves recovery due and no worker |
| `Recovery.TenFailuresGiveUp` | engine.go:995-1048 | The same on an open engine: after ten failed restarts, each wait within the limit, the worker gives up, recovery still due |
| `Recovery.RunsKeepInv` | connection_manager.go:186-374 | Over every interleaving the invariant holds, and a closed connection stays closed |
| `Recovery.AttemptsAreBounded` | engine.go:995-1048 | Between successes at most one resume and ten restarts, whatever disconnects arrive - a second resume only on an engine that is closing - and the delay never reaches its limit |
| `Recovery.SecondResumeOnClosing` | engine.go:995-1048 | A run in which that second resume is made: the engine closes between the test of the loop and its choice |
| `Recovery.WorkerEnds` | engine.go:995-1054 | A worker that never succeeds ends: each of its steps decreases a rank of at most 286 that no other step changes |
| `Recovery.ReconnectSurvives` | connection_manager.go:205-226 | A reconnect asked for while no restart is under way, during a resume for one, stays due until a restart has been attempted or the engine closes |
| `Recovery.ReconnectDuringRestartIsLost` | connection_manager.go:186-203 | Asked for during a restart it does not: the restart's success takes it for its own and the worker ends |
| `Recovery.RegionsSurvive` | connection_manager.go:235-298 | Regions sent with a request for a full reconnect are kept for it through any later requests without regions, requests to resume and failed resumes |
| `Recovery.DisconnectRearms` | connection_manager.go:318-333 | After a worker gave up, the next disconnect starts a new one |
| `RecoveryOutcomes.SuccessSettles` | engine.go:1003-1035 | A restart or resume that succeeds with nothing else asked for ends the recovery: connected to the region it reached, no region settings held, the slot free |
| `RecoveryOutcomes.ResumeYieldsToReconnect` | connection_manager.go:205-226 | A resume that succeeds after a full reconnect was asked for does not: the reconnect is still due, with the regions it was given, and the worker goes on to it |
| `RecoveryOutcomes.DisconnectAsks` | connection_manager.go:235-333 | A disconnect of an open connection asks for what it says, a reconnect outlasting requests to resume, and the regions it brings are held; before the first join and after closing it changes nothing |
| `RecoveryOutcomes.WaitsAreBounded` | engine.go:1044-1052 | Whatever disconnects arrive, a worker that has failed n restarts since its count was reset has waited 300 ms times the squares below n, and 61.2 seconds after the tenth, the last |
| `RecoveryWorker.Engine.Work` | engine.go:995-1055 | The loop, with disconnects and the closing of the engine arriving before, between and after any of its sections, takes only steps of the protocol and ends with the slot free |
| `RecoveryWorker.Engine.Try` | engine.go:997-1048 | One round: settles or goes on after a success, escalates after a failed resume, counts a failed restart |
| `ConnectionState.ConnectionManager.RequestRecovery` | connection_manager.go:318-333 | In place: the transition and the claim of the slot together |
| `ConnectionState.ConnectionManager.SetResumed` | connection_manager.go:209-226 | In place: connected only if still resuming |
| `ConnectionState.ConnectionManager.SetReconnecting` | connection_manager.go:270-298 | In place: never out of closed or initial, and without regions no change to a reconnect already asked for |
| `ConnectionState.ConnectionManager.SetResuming` | connection_manager.go:235-261 | In place: only from connected; while resuming, only regions that were sent replace those held |
| `ConnectionState.ConnectionManager.SetConnected` | connection_manager.go:186-203 | In place: connected to the region with no region settings left, unless closed |
| `OggChecksum.TableMatchesBits` | pkg/oggreader/oggreader.go:174-176 | Looking a byte up in the table changes the register as shifting its eight bits in does, by the definition of RFC 3533, section 6 |
| `OggChecksum.ByteInIsStep` | pkg/oggreader/oggreader.go:174-176 | For any linear step of the register that shifts while no bit leaves, the table form equals the step with the byte mixed in at the top |
| `OggChecksum.BitStepLinear` | pkg/oggreader/oggreader.go:252-257 | One step of the register is linear over exclusive or |
| `OggChecksum.ByteStepLinear` | pkg/oggreader/oggreader.go:250-259 | So are eight, which are also one-to-one |
| `OggCorruption.CorruptionTells` | pkg/oggreader/oggreader.go:172-197 | Changing any four consecutive bytes of a message changes its checksum |
| `OggCorruption.CrcKeepsDifference` | pkg/oggreader/oggreader.go:172-176 | Different registers stay different over the same bytes |
| `OggPages.CorruptPayloadIsRejected` | pkg/oggreader/oggreader.go:172-197 | A page that was read is rejected once one to four consecutive bytes of its payload have changed |
| `OggPages.CorruptHeaderIsRejected` | pkg/oggreader/oggreader.go:172-197 | So is one with such a change to the 22 header bytes before the checksum, or with another checksum |
| `OggBursts.BitBurstTells` | pkg/oggreader/oggreader.go:172-197 | Messages that differ only within 32 consecutive bits, wherever in a byte these start, have different checksums |
| `OggBursts.BurstTells` | pkg/oggreader/oggreader.go:172-176 | From one register, different bits of up to 32 lead to different registers |
| `OggBursts.BurstIsRejected` | pkg/oggreader/oggreader.go:172-197 | A page that was read is rejected once its payload has suffered a burst of up to 32 bits |
| `OggBursts.HeaderBurstIsRejected` | pkg/oggreader/oggreader.go:172-197 | So is one with such a burst in the 22 header bytes before the checksum |
| `OggPages.ReadsParts` | pkg/oggreader/oggreader.go:136-203 | A page whose parts are there is read into them, and the rest of the stream left, unless its checksum is wrong |
| `OggTruncation.UncheckedReadsParts` | pkg/oggreader/oggreader.go:136-203 | Without the checksum test every page whose parts are there is read into them |
| `OggTruncation.CutOffFails` | pkg/oggreader/oggreader.go:136-165 | A page cut off anywhere is not read: an unexpected end, or, cut at the border of header, segment table and payload, the plain end of the stream |
| `OggPages.PageRoundTrip` | pkg/oggreader/oggreader.go:136-203 | Every page laid out as section 6 of RFC 3533 says, with its checksum, is read back whole and the rest of the stream left |
| `OggPages.PacketsRejoin` | pkg/oggreader/oggreader.go:207-244 | The packets of a page, joined, are its payload |
| `OggPages.PacketIsOneRun` | pkg/oggreader/oggreader.go:221-236 | Every segment of a packet but the last is full, and the last is short unless the page ends there |
| `OggReader.GenerateChecksumTable` | pkg/oggreader/oggreader.go:246-262 | The nested loops fill the table with eight register steps of every byte |
| `OggReader.OggReader.ReadPage` | pkg/oggreader/oggreader.go:136-203 | Reads header, segment table and payload, and accepts the page exactly if its checksum is the bit-serial one with the checksum field zeroed; every short read is an error |
| `OggReader.OggReader.HeaderChecksum` | pkg/oggreader/oggreader.go:178-186 | The loop counts bytes 22 to 25 as zero |
| `OggReader.OggReader.ReadPacket` | pkg/oggreader/oggreader.go:207-244 | One packet of the current page, the next page being read when it is used up; a page without segments is the indexing failure it is |
| `OggReader.CutsArePackets` | pkg/oggreader/oggreader.go:221-243 | Successive reads return the packets of the page in order and give it up at its end |
| `OggStream.PagesAreRead` | pkg/oggreader/oggreader.go:207-243 | Reading a stream of written pages to its end returns their packets in order up to the first page without segments, and ends with the empty-table failure if there is such a page, with the end of the stream if not |
| `OggStream.NoSegmentsIff` | pkg/oggreader/oggreader.go:209-226 | A call indexes an empty table if and only if the page at hand, or the one it reads when there is none, has no segments |
| `OggStream.EmptyPageFails` | pkg/oggreader/oggreader.go:209-226 | The input that does it: any written page without segments, its checksum right |
| `NtpRegression.UnwrapMovesByDifference` | pkg/synchronizer/ntpestimator.go:343-379 | Each report, and each query, is unwrapped to exactly the signed 32-bit difference from the last |
| `NtpRegression.UnwrapIsExact` | pkg/synchronizer/ntpestimator.go:366-379 | A timestamp within 2^31 ticks of the last is unwrapped to itself |
| `NtpRegression.NtpToNanosIsFloor` | pkg/synchronizer/ntpestimator.go:383-388 | The conversion is the exact time rounded down to a nanosecond |
| `NtpRegression.RoundIsNearest` | pkg/synchronizer/ntpestimator.go:257-259 | Times are rounded to the nearest nanosecond, half way to the one further from zero |
| `NtpLine.FitOfLine` | pkg/synchronizer/ntpestimator.go:277-326 | Least squares over points on a line, their RTP timestamps not all equal, is that line with no deviation |
| `NtpLine.SteadySenderIsNeverRejected` | pkg/synchronizer/ntpestimator.go:156-229 | Reports on one line, each less than 2^31 ticks after the one before, are all accepted: none is an outlier or a duplicate |
| `NtpLine.SteadySenderIsMappedExactly` | pkg/synchronizer/ntpestimator.go:250-260 | After four of them a timestamp within 2^31 ticks of the last is mapped to its time on the line, rounded to the nanosecond, the line and the fit being over real numbers |
| `NtpFit.LeastSquares` | pkg/synchronizer/ntpestimator.go:277-326 | Over any window no line has smaller squared residuals than the fitted one, and its variance is theirs over the number of reports less two |
| `NtpOutliers.SteadyThenAny` | pkg/synchronizer/ntpestimator.go:163-199 | After four reports or more from a sender at one pace: the last one over again is a duplicate, and any other is rejected if and only if it lies more than 300 microseconds off the line |
| `NtpOutliers.OutlyingIff` | pkg/synchronizer/ntpestimator.go:181-189 | Against any fit, judging squares against the variance is judging the residual against three standard deviations, each of at least 100 microseconds |
| `NtpOutliers.NearIsNeverRejected` | pkg/synchronizer/ntpestimator.go:181-189 | Whatever the window, a report within 300 microseconds of its prediction is not rejected |
| `NtpOutliers.FewReports` | pkg/synchronizer/ntpestimator.go:217-219 | Before the fourth report nothing is rejected and nothing mapped |
| `NtpOutliers.OutliersAreCounted` | pkg/synchronizer/ntpestimator.go:186-199 | The count of outliers is that of the rejections in a row, repeated reports aside, and the fifth is the one that rebuilds |
| `NtpOutliers.NoFitIff` | pkg/synchronizer/ntpestimator.go:285-301 | A window gives no line if and only if its RTP timestamps are all the same |
| `NtpLine.WindowIsNewestAccepted` | pkg/synchronizer/ntpestimator.go:201-210 | Whatever the reports, the window is the newest twenty of those accepted since the last rebuild, oldest first |
| `NtpLine.RejectionsEnd` | pkg/synchronizer/ntpestimator.go:186-199 | Of five reports in a row at least one is not turned away as an outlier |
| `NtpLine.StepIsFollowed` | pkg/synchronizer/ntpestimator.go:186-199 | A clock that steps is followed: when five reports in a row are rejected the fifth rebuilds the estimator, and if it and those after it are from a sender at one pace, from the fourth of them on timestamps are mapped to the new line, to the nanosecond over real numbers |
| `NtpLine.RejectedChangesNothing` | pkg/synchronizer/ntpestimator.go:163-199 | A rejected or repeated report changes neither window nor line; the fifth outlier starts over from that report alone |
| `NtpEstimator.Estimator.OnSenderReport` | pkg/synchronizer/ntpestimator.go:156-229 | In place: unwrapping, the duplicate, outlier and rebuild cases, the ring and the regression |
| `NtpEstimator.Estimator.ComputeRegression` | pkg/synchronizer/ntpestimator.go:277-326 | In place, by passes over the ring: the fit of the window, or false with the fit kept when all RTP timestamps are equal |
| `NtpEstimator.Estimator.Write` | pkg/synchronizer/ntpestimator.go:201-210 | In place: the ring holds the window with the report added and the oldest gone when it was full |
| `NtpEstimator.Estimator.UnwrapRTP` | pkg/synchronizer/ntpestimator.go:343-362 | In place: the offset moves by 2^32 exactly when the difference crosses the boundary |
| `H265Assembly.ReadReturns` | readersampleprovider.go:418-516 | A read takes a prefix of the stream and returns its units but the SEI in order; a timed sample is parameter sets and then one picture, and the next slice starts another unless a slice at a time is asked for; an untimed one has no slice |
| `H265Assembly.StreamIsKept` | readersampleprovider.go:425-505 | Reading to the end passes on every unit but the SEI, once and in order; only parameter sets with no picture after them stay behind |
| `H265Assembly.TimedSamplesArePictures` | readersampleprovider.go:435-455 | In no timed sample does a slice after the first start a picture (section 7.4.2.4.4 of ITU-T H.265) |
| `H265Assembly.ReadTakesMetadata` | readersampleprovider.go:457-470 | A picture carries the metadata of the last prefix SEI before it, and uses it up |
| `H265Samples.SampleShapes` | readersampleprovider.go:425-505 | A read at a SEI unit returns an empty sample and takes that unit alone; any other that does not fail returns a picture, one slice of it if a slice at a time is asked for, or, untimed, one other unit after parameter sets |
| `H265Samples.TypicalPicture` | readersampleprovider.go:481-499 | The three parameter sets and the slice behind them are one timed picture |
| `H265Samples.SeiStandsAlone` | readersampleprovider.go:457-479 | A SEI unit read first, prefix or suffix, leaves an empty sample; only a prefix one may give metadata |
| `H265Reader.SampleProvider.NextSample` | readersampleprovider.go:418-516 | The loop with its unit put back returns that outcome, its bytes laid out |
| `H265Reader.LayoutIsFramed` | readersampleprovider.go:822-846 | The units are laid out first to last, each behind a start code (annex B of ITU-T H.265); only a lone raw unit has none |
| `H265Reader.AccessUnitBuilder.Append` | readersampleprovider.go:822-833 | A lone unit is kept as it is; once another joins it all are in Annex B form |
| `H265Reader.AccessUnitBuilder.Bytes` | readersampleprovider.go:841-846 | The bytes are the Annex B join of the units, but for a lone raw one |
| `StartGating.WaitingIsAccounted` | pkg/synchronizer/start_gate.go:85-198 | While the gate waits, packets pushed are buffered or were reported dropped, and the buffer is the newest stretch, within its limit, of the packets accepted in serial timestamp order |
| `StartGating.PushKeepsInv` | pkg/synchronizer/start_gate.go:85-198 | Every push keeps that, and the last score timestamp advances all in pace |
| `StartGating.CompletionAccountsForAll` | pkg/synchronizer/start_gate.go:96-102 | On completion every packet pushed was handed over or counted as dropped |
| `StartGating.CompletionIsEarned` | pkg/synchronizer/start_gate.go:177-195 | Before the timeout: the last five advances each arrived within three tenths of their RTP spacing and not in less than a fifth of it, or the buffer spans a second |
| `StartGateOpening.CompletesIff` | pkg/synchronizer/start_gate.go:85-198 | A push completes a waiting gate if and only if the time is out, or its packet comes in pace, finds a place in the buffer, and reaches the target or spans a second; everything buffered is handed over with it |
| `StartGateOpening.TargetOpens` | pkg/synchronizer/start_gate.go:177-195 | As many pushes in pace, one after the other, as the target asks for open the gate, whatever it has buffered |
| `StartGateOpening.InPaceIff` | pkg/synchronizer/start_gate.go:150-171 | Being in pace is arriving within three tenths of the RTP spacing: the test for arrivals in less than a fifth of it never decides |
| `StartGate.Gate.Push` | pkg/synchronizer/start_gate.go:85-198 | In place: the timeout, first, late, same-timestamp and advancing cases |
| `StartGate.Gate.EnforceWindow` | pkg/synchronizer/start_gate.go:207-216 | In place: the oldest packets over the limit go, and the score with them |

## Left out

- Builder: `popSample`, `Pop` and `ForcePop`, because joining payloads and computing a duration from floats adds only easy members.
- SampleOrder.PushClimbs: serial order is stated for maxLate up to 0x2000, because `SampleLosses.BeyondSerial` refutes it for every larger one.
- SampleOrder.PopClimbs: as for pushes; the run that refutes it ends in a forced pop of packets that start no frame.
- SampleRing.Builder.Push: takes a builder that passes `check()`, as after a drain the next call may dereference a nil packet; indices are proved for maxLate up to 0x4000.
- SampleRuns.DeliveryInOrder: between stream resets and drains only; a reset lets numbers be delivered again by design.
- SampleDelivery.PopDeliversFrame: the depacketizer's start and end verdicts are arbitrary predicates of the packet.
- VideoEncryption.SampleRoundTrip: AES-GCM is any pair in which Open inverts Seal; a nonce of the wrong length or a failing Open is an error without a reason.
- VideoFraming.EscapedIsStartCodeFree: says nothing about the border between the clear header and the escaped bytes, where a start code can form.
- DataTrackPackets.Packetizer.Packetize: the header's size, whether its extensions can be marshalled, and the clock's timestamp are parameters.
- RemoteTrack: schema, end-to-end decryption and the pipeline's goroutine; channels and waiters are numbers.
- RemoteManagerObject.Manager.PassOn: whether the packet channel is full is a parameter, the worker that empties it not being modelled.
- FrameStream.Stream.Push: leaves the token on the channel; the hand-over to a reader already blocked in the receive is in `StreamReaders`.
- RemoteRouting: which republished track an SID is reassigned to is left open, so publisher identities and publish handles are not modelled.
- LocalPublishing: frames pushed to a track, validation of schemas, and the order of publish and unpublish requests on the wire.
- Recovery: the connection attempts are successes or failures at any time, and their plans, back-off waits and token handling are not modelled.
- OggPages.CorruptHeaderIsRejected: not the segment count or table, a change of which moves the page's end, nor changes that straddle the checksum's border; `OggBursts.HeaderBurstIsRejected` likewise.
- OggReader: the identification header and duration scanning.
- NtpLine.SteadySenderIsMappedExactly: exact over real numbers; 64-bit floats of present NTP times in nanoseconds are 256 ns apart.
- NtpLine.StepIsFollowed: over real numbers too, with the same 256 ns between floats.
- NtpEstimator.Estimator.ComputeRegression: real numbers for floats, and the variance in place of its square root, outliers being judged by squares.
- NtpEstimator.Estimator.OnSenderReport: the propagation delay estimator fed by accepted reports, and 64-bit overflow after 2^31 wraps.
- H265Reader.SampleProvider.NextSample: units arrive parsed, and the trailer's bytes are the metadata they encode; H.264, IVF, Ogg and WAV samples are not modelled.
- StartGating.InPace: factors 0.2 and 0.3 are the exact fractions, without float rounding.
- `SyncEngine`, `Synchronizer`, NACK generation, signalling, WebRTC negotiation, HTTP clients, callbacks and logging are not part of this model.
