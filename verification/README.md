# Panaudia core: a verified model

A Dafny model of the parts of the Panaudia audio server whose correctness depends on interleavings, ring arithmetic
or the order of messages, with proofs of what they promise. `dafny verify dfyconfig.toml` checks all of it. The files
follow the program's components:

| component | files |
|---|---|
| jitter buffer | `JitterReader` (geometry, plan of a Read, controller), `JitterBuffer` (the class over its ring), `JitterRace` (one Read against the producer), `JitterBalanced` (steady state) |
| circular buffer | `CircularBuffer`, `CircularRuns` (which configurations ever snap back) |
| state cache | `StoreModel`, `StoreRuns` (laws over runs), `CompactRace` (writes during a compaction), `StateStore` (the class), `Wire` (the envelope codec) |
| key scoping and commands | `Scope`, `Commands`, `CommandEffects` (what a dispatched command does to the space) |
| sessions and departures | `Sessions` (registry, admission), `Departure` (bouncer, client, DepartNode, dispatcher), `Protocol` with `ProtocolOrder`, `ProtocolSafety`, `ProtocolRest` (the transition system and its laws), `DepartureRuns` (a departure run through), `BackendRefines` (the routine on the objects is the system's departure), `Quiesce` (what goes on by itself comes to rest) |
| reconciler | `Reconciler` (the sweep on maps, per uuid), `Convergence` (departures and dispatch as the sweep sees them), `Passes` (passes over reachable states), `Mixing` (passes and the mixer's queue) |
| space | `SpaceModel`, `SpaceQueue` (op coalescing), `RoleEffects`, `Slots`, `BaseSpace` (the class) |
| shared | `Common` (Option, Result, modular arithmetic, storage in a ring by stream position) |

Code that changes fields, maps or arrays is a class whose methods are proved against a function of the old state; the
laws are lemmas about those functions. Code that runs concurrently (the jitter buffer's two threads; sessions,
dispatcher, mixer and departures) is a transition system over its atomic steps, and its laws hold in every
reachable state of every interleaving.

Uuids are naturals with the nil uuid as 0. How a uuid prints and which strings parse is a parameter (`Scope.Codec`);
laws that need it assume that parsing inverts printing and that text that parses has no dot (`Canonical`). The second is
false of one form, the 38-character one, whose first and last characters the parser does not examine; a key split at its
first dot never shows it such a text, but derivedUuids parses whole keys, and such keys are not covered. The parser
accepts several texts per uuid; laws that need the printed one ask it of the keys they are about (`PrintedText`), and
the protocol proves it of every marker it lets into a record. Samples, gains and attenuations are reals. Clocks,
timeouts and what other goroutines do during a wait are parameters.

## Where the code does less than its comments say

- The jitter buffer's constructor accepts negative sample rates: with negative durations its frame counts pass the
  checks (`JitterReader.NegativeRateIsAccepted`). What it accepts is usable exactly when the rate is above -500
  (`JitterReader.AcceptedConfigIsWellFormed`).
- The circular buffer accepts a target above its maximum, and then the overrun snap sets the reader back to before what
  it has played or before the stream (`CircularBuffer.TargetAboveMaximumSnapsBack`); and a minimum below one sample, and
  then an empty buffer repeats a frame it does not have (`CircularBuffer.NoMinimumRepeatsNothing`).
  `CircularBuffer.SnapsForwardExactly` and `CircularBuffer.RepeatsFramesExactly` give the exact conditions per fill,
  `CircularRuns.SnapsBackExactly` the one over whole runs.
- The state cache loses writes. Slots written into a head segment after a compaction covered part of it are read only
  while that segment stays the head, and the next compaction starts behind it. `StoreRuns.CompactedHeadLosesAWrite` is a
  concrete run; `StoreRuns.WriteIsAssignmentExactly` gives the exact condition per write and
  `StoreRuns.CacheIsLastWriteWinsExactly` for whole runs.
- A compaction scans the head up to its cursor and later records the cursor it finds then. A write in between that still
  fits the scanned head is in neither (`CompactRace.OneWriteInBetween`); `CompactRace.NothingIsMissedExactly` gives the
  exact condition for any number of writes.
- The cache's composite key joins topic and key with a colon, so two topics collide exactly when one continues the other
  with a colon (`StoreModel.TopicsCollideExactly`).
- A value of 2^32 bytes or more encodes without an error and decodes truncated (`Wire.DecodeOfEncode`).
- `FreeSource` looks the registry up by uuid: a removal the mixer processes late departs the successor session
  (`ProtocolRest.FreeSourceDepartsTheSuccessor`); `ProtocolRest.MixerEndsExactly` says exactly when, and
  `ProtocolRest.RemovalsFirstSparesSuccessors` that it never happens if admissions wait for the mixer. It can undo what
  the reconciler reached (`Mixing.LateRemovalUnsettles`); `Mixing.MixingDryRestsExactly` says exactly when not.
- A reconcile pass cannot remove a cached existence marker that no map tracks; such a marker stays forever
  (`Reconciler.StrandedForever`). Reachable states at rest have none (`Convergence.NeverStranded`), and every reachable
  state comes to rest (`Quiesce.ReachesRest`).
- Coalescing ops per key differs from applying them one by one when a malformed value follows a good one for the same
  key; `SpaceQueue.CoalescingIsExact` gives the exact condition.
- An op for a node that is not there yet does not wait for it, as base_space_mutators.go:11-14 says: the drain that skips
  it has emptied the queue, and nothing sends it again (`SpaceModel.EarlyGainIsLost`). Exactly the ops whose node is
  present at the drain take effect; `SpaceModel.EarlyDrainIsHarmlessExactly` says when that goes unnoticed.
- A role gain that is zero or negative does not silence: the multiplier becomes 1, whatever the encoder's other
  roles say (`RoleEffects.MultiplierExactly`). A negative configured gain is not clamped until the gain is next set or a
  role refresh recomputes the factor.
- A node with the nil uuid gives its slot away to the next node (`Slots.OnlyNilIsOverwritten`), and at ambisonic order 0
  the reverb slice of the last slot is out of range (`Slots.ReverbSlicesAreInRange`).

## Model

| member | source | states |
|---|---|---|
| `JitterReader.AcceptedConfigIsWellFormed` | core/buffers/jitter_buffer.go:141-228 | every configuration the constructor accepts has its allowances in bounds, and its geometry is well formed if and only if the sample rate is above -500 |
| `JitterReader.NegativeRateIsAccepted` | core/buffers/jitter_buffer.go:141-228 | such a configuration exists: a rate of -48000 with every duration negative is accepted and its geometry is not well formed |
| `JitterReader.DefaultGeometry` | core/buffers/jitter_buffer.go:141-228 | the default configuration in frames: floor 288, write frame 960, allowances 240 and 960, ring 14976; drop line 2448, overrun line 3408 |
| `JitterReader.LevelsAreOrdered` | core/buffers/jitter_buffer.go:170-243 | floor < snapTarget <= dropLine < overrunAt < capacity for every allowance the controller can reach |
| `JitterReader.PlanIsSafe` | core/buffers/jitter_buffer.go:275-386 | a Read touches only published frames that are less than one ring old, moves the reader only forward and never past the writer, and a Read that snaps does not also splice |
| `JitterReader.SnapsExactly` | core/buffers/jitter_buffer.go:285-322 | waiting, lap and overrun happen exactly at the stated fills, and every snap leaves exactly floor + L + W |
| `JitterReader.CorrectionGoesToTheBand` | core/buffers/jitter_buffer.go:323-382 | with enough to play, a Read of n takes n + 1 frames exactly above the drop line, n - 1 exactly below the floor and n between; with too little it is silent and takes none |
| `JitterReader.OneFrameReads` | core/buffers/jitter_buffer.go:339-345 | a Read of one frame takes two exactly above the drop line with two there, and is never stretched |
| `JitterReader.FillReachesTheBand` | core/buffers/jitter_buffer.go:323-382 | under balanced traffic with the allowances held, a fill outside the band comes one frame nearer with every Read until it reaches it, and stays |
| `JitterReader.ReadStepKeepsReader` | core/buffers/jitter_buffer.go:275-441 | every Read keeps the allowances in bounds and the window counters consistent |
| `JitterReader.DecideNeedsBothSides` | core/buffers/jitter_buffer.go:417-441 | the controller raises an allowance only after a window with both counts at the threshold, narrows by exactly one step on a side without corrections, and never leaves the bounds |
| `JitterReader.DecideMovesExactly` | core/buffers/jitter_buffer.go:413-441 | both sides at the threshold: each allowance up one widening step to its bound; otherwise each calm side down one narrowing step, the other unmoved |
| `JitterReader.WindowClosesExactly` | core/buffers/jitter_buffer.go:388-411 | the windowReads-th read publishes the window's counts, clears them and moves the allowances; no other read does |
| `JitterReader.StatisticsCount` | core/buffers/jitter_buffer.go:285-386 | underruns, laps, drops and inserts count exactly the Reads that run dry, find a lapped reader, take n + 1 or take n - 1 |
| `JitterReader.FramesAreConserved` | core/buffers/jitter_buffer.go:249-386 | over any run readPos is monotone, never exceeds writePos, and equals frames played + dropped - inserted + skipped by snaps |
| `JitterReader.DriftNeverWidens` | core/buffers/jitter_buffer.go:388-441 | no run without a two-sided window ends with a larger L or H than it began with |
| `JitterReader.CalmLowSideNarrows` | core/buffers/jitter_buffer.go:388-441 | k insert-free windows bring L to exactly max(lMin, L - k * narrowStep), whatever the other side does |
| `JitterReader.CalmHighSideNarrows` | core/buffers/jitter_buffer.go:388-441 | the same for H and drop-free windows |
| `JitterReader.ElapsedIsDivMod` | core/buffers/jitter_buffer.go:391-411 | counting reads up to the window size and starting over is division with remainder |
| `JitterBalanced.BalancedStaysClean` | core/buffers/jitter_buffer.go:275-441 | a balanced stream with L + j * R <= lMin + hMin at its start is never spliced, snapped or silenced afterwards, while the controller narrows |
| `JitterBalanced.NoRoomMeansACorrection` | core/buffers/jitter_buffer.go:275-441 | with L + j * R above the least room (lMin + hMin when a narrowing step is at least a frame; with a step of zero, the allowances in force when the first write comes due) some later Read is not clean |
| `JitterBalanced.BalancedIsCleanForever` | core/buffers/jitter_buffer.go:275-441 | a balanced stream is clean forever if and only if L + j * R is at most that least room, whatever the narrowing step |
| `JitterBalanced.BalancedPlaysTheStream` | core/buffers/jitter_buffer.go:275-386 | what such a listener hears is the stream itself, without gap, repeat or blend |
| `JitterBuffer.JitterBuffer.constructor` | core/buffers/jitter_buffer.go:141-228 | for every accepted configuration an empty stream, zero heads and the warm-start allowances; the invariant holds if and only if the rate is above -500 |
| `JitterBuffer.JitterBuffer.Write` | core/buffers/jitter_buffer.go:249-273 | appends the newest capacity frames of the argument to the stream the ring refines and touches nothing of the reader |
| `JitterBuffer.JitterBuffer.Read` | core/buffers/jitter_buffer.go:275-386 | emits exactly what the plan says about the stream (slice, drop splice, insert splice or silence) and moves the reader as specified |
| `JitterBuffer.SoundFollowsTheStream` | core/buffers/jitter_buffer.go:336-382 | every frame heard is the stream's at that position, but for the last of a splice, each channel of which is the midpoint of the two frames at the cut |
| `JitterBuffer.SilenceIsZero` | core/buffers/jitter_buffer.go:289-334 | a Read that waits or runs dry is zero on every channel |
| `JitterBuffer.JitterBuffer.Reposition` | core/buffers/jitter_buffer.go:285-322 | warm start, lap and overrun snaps leave the head where the plan starts |
| `JitterBuffer.JitterBuffer.DropSplice` | core/buffers/jitter_buffer.go:347-362 | plays n frames of n + 1 consumed, the last one averaged with the one skipped |
| `JitterBuffer.JitterBuffer.InsertSplice` | core/buffers/jitter_buffer.go:363-379 | plays n frames of n - 1 consumed, the last one averaged from the last two |
| `JitterBuffer.JitterBuffer.Adapt` | core/buffers/jitter_buffer.go:388-411 | closes a window every windowReads reads and hands its counts to the controller |
| `JitterBuffer.JitterBuffer.Decide` | core/buffers/jitter_buffer.go:413-441 | the two allowances move as the controller's specification says |
| `JitterBuffer.JitterBuffer.WriteToRing` | core/buffers/jitter_buffer.go:445-457 | the one or two copies leave each frame in the slot of its position |
| `JitterBuffer.JitterBuffer.ReadFromRing` | core/buffers/jitter_buffer.go:459-471 | the one or two copies fetch the frames at the given positions |
| `RingStorage.LaidAppends` | core/buffers/jitter_buffer.go:445-457 | a wrapped write of at most one ring refines appending to the stream |
| `RingStorage.FetchedSlices` | core/buffers/jitter_buffer.go:459-471 | a wrapped read inside the held range refines slicing the stream |
| `JitterRace.HeldExactly` | core/buffers/jitter_buffer.go:249-273 | a published sample is in its slot if and only if the sample one ring later has not been stored |
| `JitterRace.LoadIsRightExactly` | core/buffers/jitter_buffer.go:249-386 | in every interleaving a load of a Read yields the sample appended at its position if and only if it comes before the store one ring later |
| `JitterRace.NoReadIsTorn` | core/buffers/jitter_buffer.go:249-386 | in every interleaving whose loads all come before that store, each sample a Read has loaded, the splice's included, is the one appended at its position |
| `JitterRace.SlackIsEnough` | core/buffers/jitter_buffer.go:205-206 | a producer at most capacity - overrunAt(lMax, hMax) frames past the write position each Read loaded keeps every load in time |
| `JitterRace.PastTheSlackSpoilsALoad` | core/buffers/jitter_buffer.go:205-206 | with both allowances at their maximum and the fill at overrunAt, one sample stored past that slack makes the Read's first load wrong |
| `JitterRace.FinishedReadHasItsSlice` | core/buffers/jitter_buffer.go:275-386 | a Read that ends with its loads in time has loaded the whole slice of its plan, the splice's extra frame included |
| `JitterRace.TouchedSampleIsHeld` | core/buffers/jitter_buffer.go:249-386 | what a plan touches is published, and while the producer is inside the slack no later sample has taken its slot |
| `CircularBuffer.SaneConfig` | core/buffers/circular_buffer.go:128-165 | with positive rates and a ring of at least one sample a configuration is usable if and only if the snap and insert guards hold; a target not above the maximum and a minimum of at least one sample give them |
| `CircularBuffer.DefaultLevels` | core/buffers/circular_buffer.go:128-165 | the default configuration in samples: ring 48000, window 960 to 2880 around 1920, minimum 480, maximum 9600, a correction every 2 reads |
| `CircularBuffer.SnapsForwardExactly` | core/buffers/circular_buffer.go:229-237 | no fill the ring can hold makes the overrun snap move the reader back or past the writer, if and only if the target is between 0 and maximum + 1 or the ring cannot exceed the maximum |
| `CircularBuffer.RepeatsFramesExactly` | core/buffers/circular_buffer.go:240-315 | every insert correction finds a buffered frame to repeat, for every fill and pacing, if and only if the minimum is at least one sample or the low target is not positive |
| `CircularRuns.SnapsBackExactly` | core/buffers/circular_buffer.go:169-331 | some run of whole-frame writes and reads snaps back if and only if the snap guard fails, the low target fits the ring, and it is not the case that every snap leaves the buffer below its minimum |
| `CircularBuffer.TargetAboveMaximumSnapsBack` | core/buffers/circular_buffer.go:128-237 | a target of 300 ms with the other defaults: at 13440 samples the buffer starts and the snap sets the reader 960 samples before the stream |
| `CircularBuffer.NoMinimumRepeatsNothing` | core/buffers/circular_buffer.go:128-315 | a minimum of -10 ms with the other defaults: an empty playing buffer passes the underrun check and inserts, showing no float and repeating one |
| `CircularBuffer.CopyFitsExactly` | core/buffers/circular_buffer.go:262-331 | whatever is buffered and whatever the correction, the copy fits the destination if and only if that holds at least one frame |
| `CircularBuffer.WriteKeepsTheNewest` | core/buffers/circular_buffer.go:169-199 | after a Write the queue is the newest capacity floats of queue plus input |
| `CircularBuffer.ReadTakesTheHead` | core/buffers/circular_buffer.go:203-331 | a Read of whole frames leaves a tail of the queue |
| `CircularBuffer.ReadShowsTheHead` | core/buffers/circular_buffer.go:203-331 | what an audible Read plays is a prefix of the queue, or of its newest targetCentre frames after a snap |
| `CircularBuffer.ReadStaysInside` | core/buffers/circular_buffer.go:203-331 | a Read shows unread floats only, consumes at least what it shows and at most one frame more, and never passes the end |
| `CircularBuffer.AudibleExactly` | core/buffers/circular_buffer.go:211-248 | audible if and only if playing or filled to the target, and not below the minimum after a possible snap |
| `CircularBuffer.CorrectionGoesToTheWindow` | core/buffers/circular_buffer.go:250-331 | with enough buffered, a paced Read above the target window takes a frame more than it plays, below it a frame less and repeats the last, and in it exactly what it plays |
| `CircularBuffer.CorrectionsArePaced` | core/buffers/circular_buffer.go:257-264 | over any number of reads there is at most one correction every interval reads |
| `CircularBuffer.SoundExactly` | core/buffers/circular_buffer.go:266-328 | float by float: the piece shown, then its last frame over and over for an insert, or zeros |
| `CircularBuffer.StatisticsCount` | core/buffers/circular_buffer.go:229-248 | overruns and underruns count exactly the snaps and the refusals of a buffer that plays or starts |
| `CircularBuffer.SnapMovesForward` | core/buffers/circular_buffer.go:229-237 | the overrun snap fires exactly above the maximum, never moves back under those guards, and leaves exactly the target level |
| `CircularBuffer.ReadIsAligned` | core/buffers/circular_buffer.go:203-331 | whole frames in, whole frames out: start, shown and consumed stay multiples of the channel count |
| `CircularBuffer.EveryFloatKeepsItsChannel` | core/buffers/circular_buffer.go:266-328 | every float of an audible Read is silence or a float of its own channel out of the piece shown, repeated frames included |
| `CircularBuffer.RunAll` | core/buffers/circular_buffer.go:169-331 | over any run of whole-frame events the queue fits the ring, the heads stay aligned and position = floats shown + floats skipped |
| `CircularBuffer.CircularBuffer.Write` | core/buffers/circular_buffer.go:169-199 | the array implementation is the bounded queue's write |
| `CircularBuffer.CircularBuffer.Read` | core/buffers/circular_buffer.go:203-331 | for every destination the copy fits, the array implementation emits and consumes exactly what the queue's read step says |
| `CircularBuffer.CircularBuffer.CopyFromRing` | core/buffers/circular_buffer.go:335-343 | the wrapped copy is the slice of the stream at the reader |
| `StoreModel.CompositeKeyIsInjective` | core/statecache/store.go:128-130 | (topic, key) pairs stay distinct among topics without a colon |
| `StoreModel.TopicsCollideExactly` | core/statecache/store.go:128-130 | two different topics have keys that collide if and only if the longer one starts with the shorter one and a colon |
| `StoreModel.SameTopicSameKey` | core/statecache/store.go:128-130 | within one topic composite keys are equal if and only if the keys are |
| `StoreModel.MergeIsLastWins` | core/statecache/store.go:216-279 | with increasing ids, keeping the highest id per key is keeping the last op |
| `StoreModel.MergeKeepsTheFirstGreatest` | core/statecache/store.go:319-331 | whatever the ids, the merge keeps for each key the first op among those with the greatest id |
| `StoreModel.CompactPreservesView` | core/statecache/store.go:293-356 | in every state a compaction leaves the deduplicated view unchanged except for expired tombstones, and leaves nothing uncompacted |
| `StoreModel.CompactRemovesExactly` | core/statecache/store.go:333-342 | a key leaves the view through a compaction if and only if the head was not covered, there is a time to live, and its op is a tombstone stamped longer ago than that; every other key keeps its op |
| `StoreModel.LiveValuesStay` | core/statecache/store.go:333-342 | an op that is not a tombstone outlives every compaction |
| `StoreRuns.WriteIsAssignmentExactly` | core/statecache/store.go:166-193 | a write with a fresh id is an assignment to its key in the view if and only if no op it hides was still another key's latest |
| `StoreRuns.FullHeadsAndRoomLoseNothing` | core/statecache/store.go:166-193 | compacting only full heads, before the ring comes round, hides nothing |
| `StoreRuns.CacheIsLastWriteWins` | core/statecache/store.go:166-356 | over every allowed run the view is the last-write-wins map of all ops written, minus expired tombstones |
| `StoreRuns.CacheIsLastWriteWinsExactly` | core/statecache/store.go:166-356 | for runs with ids that increase per key, the view is the last-write-wins map at every point of the run if and only if no write of the run hides another key's latest op |
| `StoreRuns.FullHeadScheduleIsLastWriteWins` | core/statecache/store.go:166-356 | if every compaction with work to do finds a full head and no uncompacted segment is reused, the run is allowed and the view is the last-write-wins map |
| `StoreRuns.TombstoneIsFinal` | core/statecache/store.go:166-356 | a tombstoned key never shows an older value again |
| `StoreRuns.ValuesStayUntilRewritten` | core/statecache/store.go:166-356 | over any allowed run an op that is not a tombstone stays in the view until its key is written again |
| `StoreRuns.CompactedHeadLosesAWrite` | core/statecache/store.go:239-256 | compact a half-filled head, write twice: the first write is gone |
| `StoreRuns.HalfFilledIsReachable` | core/statecache/store.go:166-193 | that run starts from an empty store |
| `StoreRuns.HalfCompactedIsReachable` | core/statecache/store.go:293-356 | and passes through its compaction |
| `CompactRace.InterruptedCompaction` | core/statecache/store.go:311-355 | whatever is written between a compaction's scan and its publication, readers see the scan followed by exactly the writes that no longer fitted the scanned head |
| `CompactRace.NothingIsMissedExactly` | core/statecache/store.go:311-355 | such a compaction shows every write if and only if each write that fitted the scanned head is followed by one for its key that did not |
| `CompactRace.OneWriteInBetween` | core/statecache/store.go:326-349 | a single write in between is shown if and only if the scanned head was full |
| `StateStore.StateStore.constructor` | core/statecache/store.go:77-120 | an empty store; sizes and TTL that are not positive fall back to their defaults |
| `StateStore.StateStore.WriteOp` | core/statecache/store.go:166-193 | cursor, epoch, head and slots change as the value model's write says |
| `StateStore.StateStore.ReadOps` | core/statecache/store.go:216-279 | the ops returned, deduplicated, are the view filtered by id |
| `StateStore.StateStore.Snapshot` | core/statecache/store.go:207-209 | what a caller keeps of it is exactly the view |
| `StateStore.StateStore.Since` | core/statecache/store.go:212-214 | exactly the keys of the view whose op has a greater id, everything for 0 |
| `StateStore.StateStore.Compact` | core/statecache/store.go:293-356 | the loops over segments and the map install the value model's compacted snapshot |
| `StateStore.StateStore.ScanSegments` | core/statecache/store.go:304-342 | the merged and purged map is the value model's scan |
| `StateStore.StateStore.Publish` | core/statecache/store.go:344-355 | installs a scan of segments up to h with the cursor segment h has by now, whatever has been written since |
| `StateStore.MergeNewer` | core/statecache/store.go:216-279 | filtering by id and then deduplicating is deduplicating and then filtering |
| `Wire.Encode` | core/statecache/wire.go:42-87 | fails exactly for a topic over 255 or a key over 65535 bytes, otherwise writes the envelope layout |
| `Wire.LayoutExactly` | core/statecache/wire.go:42-87 | version, flag, id, node, topic, key and value stand at their offsets, each length in front of its field |
| `Wire.BigEndianAt` | core/statecache/wire.go:60-84 | numbers are written most significant byte first |
| `Wire.Decode` | core/statecache/wire.go:90-152 | accepts exactly the framed inputs, returns their fields, indexes inside every input, and names the field that overruns |
| `Wire.FramesDetermines` | core/statecache/wire.go:90-152 | the grammar is unambiguous: data determines op, flags and tail |
| `Wire.AcceptedIffFramed` | core/statecache/wire.go:90-152 | accepted if and only if some op, flags and tail frame it |
| `Wire.DecodeOfEncode` | core/statecache/wire.go:42-152 | Decode(Encode(op)) = op if and only if the value is shorter than 2^32 bytes |
| `Wire.EncodeOfDecode` | core/statecache/wire.go:42-152 | Encode(Decode(d)) = d if and only if d has no trailing bytes and no flag but the tombstone bit |
| `Wire.RoundTrip` | core/statecache/wire.go:42-152 | the two methods in a row return the op exactly when its length field can count its value |
| `Scope.AnnouncedKeysAreOwned` | core/space/bouncer_client.go:303-414 | every key a client announces about itself is connection-scoped with itself as subject, and its marker is in printed text |
| `Scope.AnnouncedKeysSpelledOut` | core/space/bouncer_client.go:303-414 | the announced keys are the bare uuid, its subspaces and named roles; name, and ticket and connection where configured |
| `Scope.KeptIsExactlyThePermitted` | direct/backend.go:177-190 | the j-th survivor is the op at the j-th permitted position with its own raw bytes: every permitted op, no other, in order and as often as it came |
| `Scope.NothingDroppedNothingChanged` | direct/backend.go:193-203 | a batch that loses no op is the batch as it came, so its bytes need no rebuilding |
| `Scope.FilterInPlace` | direct/backend.go:177-211 | the in-place loop over both slices computes exactly those pairs |
| `Scope.FieldKeySplits` | core/commands/scope.go:78-86 | a printed uuid with field and rest splits back into subject and field |
| `Scope.PolicyKeysExactly` | core/commands/scope.go:40-76 | of a uuid's entity fields exactly muted, kicked, gain and attenuation are policy; all others, its marker and its attributes are tied to its connection |
| `Scope.SpaceTopicIsPolicy` | core/commands/scope.go:57-60 | every key of the space topic is policy and has no subject |
| `Scope.PermittedExactly` | direct/backend.go:180-189 | refused is exactly another subject's connection-scoped key from a per-client source |
| `Commands.DispatchedOpPassesTheFilter` | core/commands/defs.go:117-508 | every op Dispatch builds, for any arguments and roles, is policy-scoped or the issuer's own, passes the write filter for the issuer, and is never an existence marker |
| `Commands.DispatchSucceedsExactly` | core/commands/spec.go:240-260 | success if and only if the command is known, everyone or one of the roles grants it, and the arguments decode and validate |
| `Commands.DispatchFailsExactly` | core/commands/spec.go:240-260 | and which error: unknown before not granted before invalid arguments |
| `Commands.NamesSpelledOut` | core/commands/defs.go:117-508 | the twenty commands |
| `CommandEffects.SpaceEntityCommands` | core/commands/defs.go:119-236 | mute, unmute, gain and attenuation leave exactly that in the entity's cell and nothing else changed; kicks do not touch the mixer |
| `CommandEffects.SpaceRoleCommands` | core/commands/defs.go:238-392 | likewise for the role rules, set and unset |
| `CommandEffects.PersonalEntityCommands` | core/commands/defs.go:398-470 | mutes and solos change the issuer's own lists only |
| `CommandEffects.PersonalRoleCommands` | core/commands/defs.go:472-508 | likewise for muted roles |
| `CommandEffects.EntityKickCommands` | core/commands/defs.go:155-193 | the entity's kick key with the deadline in milliseconds, 0 for none; unkick tombstones it |
| `CommandEffects.RoleKickCommands` | core/commands/defs.go:275-313 | likewise for a role |
| `Commands.CheckAllowed` | core/commands/spec.go:120-157 | the loop over the roles is the union of their grants |
| `Sessions.Entry.TryBeginDeparture` | core/sessions/registry.go:80-82 | exactly the caller that finds the entry live wins and moves it on |
| `Sessions.Registry.Register` | core/sessions/registry.go:114-136 | installs a live entry with a new generation and returns the one displaced |
| `Sessions.Registry.RegisterOrphan` | core/sessions/registry.go:145-162 | installs a synthetic entry if and only if the uuid has none |
| `Sessions.Registry.Unregister` | core/sessions/registry.go:167-184 | removes the entry if and only if it is still the current one |
| `Sessions.Registry.Admit` | core/sessions/admit.go:51-89 | evicts exactly a live entry, and refuses exactly when a departure claimed elsewhere is unfinished after both waits; otherwise the uuid is clear |
| `Sessions.FurtherIsTheLater` | core/sessions/registry.go:40-60 | of two lifecycle positions the one nearer departure |
| `Departure.SweepTopicOrder` | direct/depart.go:239-253 | each topic once; attributes comes first if at all, and nothing but attributes comes before entity |
| `Departure.SweepIsInOrder` | direct/depart.go:172-190 | the same of the batches of every sweep |
| `Departure.Backend.AnnounceDeparture` | direct/depart.go:143-194 | appends one tombstone batch per topic in sweep order, covering exactly the tracked and the sent keys, and one Gone datagram |
| `Departure.Backend.DepartNode` | direct/depart.go:47-126 | only the winner of the entry acts: transport closed, sweep last in the queue, Gone sent, one removal for the mixer, bouncer and tracked keys released, entry unregistered if current; its own handler is released, another undeparted entry's is left alone |
| `Departure.Backend.HandleStringMessage` | direct/backend.go:158-258 | filter, then store and track op by op: cache and tracked keys end up as the per-op functions of the protocol say |
| `Departure.FilteringFirst` | direct/backend.go:177-229 | filtering the batch first equals skipping refused ops on the way |
| `Departure.Backend.TrackConnKey` | direct/backend.go:292-310 | adds connection-scoped keys with a subject to that subject's set and nothing else |
| `Departure.Backend.UntrackConnKey` | direct/backend.go:313-325 | removes a tombstoned key from its subject's set and keeps the set |
| `Departure.Backend.NewConnectionHandler` | direct/backend.go:529-651 | refuses exactly for a failed admission, a registered entry, an unwaited existing node or a full server, and otherwise installs entry, handler, bouncer and node-add together |
| `BackendRefines.LateSendIsDropped` | direct/bouncer.go:99-127 | whatever a sender that still holds the bouncer tries after DepartNode, the sweep stays last in the queue |
| `Departure.EntityOps` | core/space/bouncer_client.go:366-414 | the entity record's ops cover exactly the marker, the subspaces and the named roles |
| `Departure.BouncerClient.SendEntity` | core/space/bouncer_client.go:366-414 | every key of the record is recorded for the sweep |
| `Departure.BouncerClient.SendAttributes` | core/space/bouncer_client.go:303-348 | likewise the attribute keys |
| `Departure.BouncerClient.TakeSentKeys` | core/space/bouncer_client.go:169-181 | hands over everything recorded and leaves nothing |
| `Departure.Bouncer.Stop` | direct/bouncer.go:99-112 | quit closed, barrier set, receive sender detached |
| `Protocol.NextKeepsOwnership` | direct/depart.go:47-126 | every step of every session keeps registry, handler map and bouncer map owned by the sessions that have not released them |
| `Protocol.CapturesItsOwn` | direct/depart.go:55-84 | a departure captures its own handler and bouncer, an orphan's departure none |
| `Protocol.OnlyItsOwnDepartureEndsASession` | direct/depart.go:47-54 | no step but one that begins its own departure ends a live session |
| `ProtocolOrder.NextKeepsInv` | direct/depart.go:47-194 | every step keeps the queue's order, the ownership of keys and the completeness of every sweep under way |
| `ProtocolOrder.EmittedComesLast` | direct/bouncer.go:99-127 | a message enters the queue only from the newest session of its uuid and never after that session's sweep began |
| `ProtocolOrder.AnnounceKeepsSweep` | direct/depart.go:172-190 | each batch sent moves its keys from owed to swept and the topics stay in order |
| `ProtocolOrder.TrackKeepsConn` | direct/backend.go:292-325 | whatever is dispatched, a subject's tracked keys are its own connection-scoped keys |
| `ProtocolOrder.TrackedExactly` | direct/backend.go:292-325 | a subject's own key is tracked after a message exactly as the last op on it says, or as before if there is none |
| `ProtocolSafety.LiveSessionsOwnTheirUuid` | core/sessions/registry.go:80-184 | in every reachable state at most one entry per uuid is live, it is the registered one, and handler and bouncer are its own |
| `ProtocolSafety.OnlyItsOwnDepartureTakesTheMaps` | direct/depart.go:47-126 | whatever step comes next, a live session keeps all three unless the step begins its own departure |
| `ProtocolSafety.QueueOrder` | direct/bouncer.go:99-127 | in every interleaving a session's messages precede its tombstones, which precede every message of a successor; of its tombstones no topic comes twice, attributes never after another, and entity after attributes only |
| `ProtocolSafety.CacheNamesTheLastWriter` | direct/backend.go:220-229 | the dispatcher's cache holds for each key the origin of the last message that writes it and whether its last op on the key was a tombstone |
| `ProtocolSafety.LastWord` | direct/depart.go:143-194 | after a departure enqueued its removal, the last write of every key that session announced is its tombstone or a later session's write |
| `ProtocolSafety.AfterTheTombstone` | direct/depart.go:47-194 | behind its own tombstone of a key only the departure itself and later sessions write that key |
| `ProtocolSafety.PolicySurvives` | core/commands/scope.go:57-76 | in every run the cache agrees on every policy-scoped key with the same run without any departure message |
| `ProtocolRest.NoGhostsAtRest` | direct/reconciler.go:127-173 | at rest a standing existence marker belongs to a registered live session that has it in its sent record |
| `ProtocolRest.HoldersAreLiveAtRest` | direct/reconciler.go:127-148 | at rest a handler or bouncer belongs to a registered live session |
| `ProtocolRest.MixerEndsExactly` | direct/backend.go:747-753 | a mixer step ends a live session if and only if it processes a removal of that uuid while the node is there |
| `ProtocolRest.RemovalsFirstSparesSuccessors` | direct/backend.go:747-753 | if admissions find no removal of their uuid queued, the mixer never ends a live session |
| `ProtocolRest.FreeSourceDepartsTheSuccessor` | direct/backend.go:736-753 | a reachable state where a late removal begins the departure of a successor nobody asked to depart |
| `Quiesce.WorkLowers` | direct/depart.go:47-126 | every step of a departure, of a send under way, of the dispatcher or of the mixer lowers a measure: phases remaining, then messages and changes still to go |
| `Quiesce.WorkEnds` | direct/depart.go:47-126 | so without admissions, triggers and client events every run is finite |
| `Quiesce.WorkRemains` | direct/depart.go:47-126 | and where no such step is possible the system is at rest: no departure hangs |
| `Quiesce.ReachesRest` | direct/depart.go:47-126 | from every reachable state such steps lead to a reachable state at rest |
| `Quiesce.SweepExists` | direct/depart.go:143-194 | whatever keys are doomed, there is a sweep of them with one batch per topic in order |
| `DepartureRuns.UninterruptedDeparture` | direct/depart.go:47-126 | a live session's departure run without interruption is a run of the system that ends with the sweep at the end of the queue, one removal for the mixer and nothing of the uuid left in any map |
| `BackendRefines.DepartNodeRefines` | direct/depart.go:47-126 | on objects that represent a state of the system, DepartNode is that departure: the objects afterwards represent the state it leads to |
| `Reconciler.TwoSweepsSettle` | direct/reconciler.go:57-110 | two sufficiently aged passes settle a uuid if and only if its marker is not stranded and no departure of its entry hangs |
| `Reconciler.SettledStays` | direct/reconciler.go:57-110 | a settled uuid stays settled through any further passes, and its session keeps everything |
| `Reconciler.StrandedForever` | direct/reconciler.go:81-105 | a stranded marker is never swept |
| `Reconciler.YoungIsLeftAlone` | direct/reconciler.go:60-99 | nothing younger than the minimum age is departed |
| `Reconciler.PassDepartsExactly` | direct/reconciler.go:57-110 | a pass departs a uuid exactly if its entry is Live, dead and old enough, or it has none, is derived and was sighted long enough ago |
| `Reconciler.PassSightsExactly` | direct/reconciler.go:81-110 | and remembers a first sighting of exactly what is derived without an entry and not yet due |
| `Reconciler.StandingMarkers` | direct/reconciler.go:149-171 | the marker loop finds exactly the uuids whose deduplicated marker is not a tombstone |
| `Reconciler.Sweeper.DerivedUuids` | direct/reconciler.go:134-173 | exactly the uuids with a handler, a bouncer, tracked keys or a standing marker |
| `Reconciler.Sweeper.ReconcilePass` | direct/reconciler.go:57-110 | the three loops act on every uuid exactly as the per-uuid pass says |
| `Reconciler.Sweeper.DepartDead` | direct/reconciler.go:66-79 | departs exactly the Live, aged sessions whose transport is dead; entries already departing are left alone |
| `Reconciler.Sweeper.SweepOrphans` | direct/reconciler.go:86-105 | sights, ages and departs exactly the derived uuids without an entry |
| `Convergence.NeverStranded` | direct/reconciler.go:57-173 | no reachable state at rest has a stranded marker, a hanging departure or anything derived for the nil uuid |
| `Convergence.StandingAtRest` | direct/reconciler.go:149-171 | at rest a standing marker is in printed text and in the sent record of its registered live session |
| `Convergence.OrphanIsAnEntry` | core/sessions/registry.go:145-162 | a synthetic entry changes nothing a pass sees but the entry |
| `Convergence.DrainOne` | direct/backend.go:158-258 | dispatching one message of a departure settles what it owed and leaves every uuid's drained view as it was |
| `Passes.PassIsSwept` | direct/reconciler.go:57-110 | a pass over the protocol (departures of the dead, synthetic entries and departures of the orphaned, in any order, and the queue drained) does to every uuid exactly what the per-uuid sweep says |
| `Passes.PassExists` | direct/reconciler.go:57-110 | from every reachable state at rest a pass can run to its end |
| `Passes.TwoPassesConverge` | direct/reconciler.go:57-173 | two aged passes from a reachable state at rest end in a reachable state at rest where every derived uuid, in whatever text, has a registered Live session whose transport is alive |
| `Passes.ConvergedStays` | direct/reconciler.go:57-173 | every further pass keeps that and touches no living session |
| `Passes.ConvergedForever` | direct/reconciler.go:57-173 | and so does any sequence of passes |
| `Mixing.MixerKeepsRestExactly` | direct/backend.go:747-753 | from a reachable state at rest a mixer step leaves the system at rest, and converged if it was, if and only if it ends no session |
| `Mixing.MixingDryRestsExactly` | direct/backend.go:747-753 | the mixer works its whole queue off and leaves the system at rest, and converged if it was, if and only if no removal finds its node there and its uuid registered when its turn comes |
| `Mixing.LateRemovalUnsettles` | direct/backend.go:736-753 | a reachable converged state at rest that mixing takes out of rest |
| `Mixing.ConvergedWhileMixing` | direct/reconciler.go:57-173 | once converged with no removal of a registered uuid waiting, passes and mixer steps in any order keep it so |
| `Passes.EveryStateConverges` | direct/reconciler.go:11-20 | from every reachable state, what goes on by itself and then two passes lead there |
| `Convergence.DepartureIsDeparts` | direct/depart.go:47-126 | what a pass sees of a departure is exactly the protocol's departure, and no other uuid's view changes, whatever is still queued |
| `Convergence.TombstonesUntrack` | direct/backend.go:313-325 | dispatching a departure's batch removes exactly its keys from its subject's set and adds none |
| `SpaceModel.KeyIsDetermined` | core/space/base_space_ops.go:66-243 | distinct op keys in printed text name distinct cells of the space |
| `SpaceModel.ApplyReads` | core/space/base_space_mutators.go:16-192 | an op changes exactly the cell its key names, to the value it carries or the default it restores |
| `SpaceModel.AllReads` | core/space/base_space_ops.go:89-243 | one by one, a cell ends up with what the last op that acts on it intends |
| `SpaceModel.CellsAreAll` | core/space/base_space_mutators.go:16-192 | spaces over the same nodes that agree on every cell are equal |
| `CommandEffects.CellsAreTheFields` | core/space/base_space_mutators.go:16-192 | what a cell reads is the node's own field or the rule of that name |
| `SpaceModel.OpsForAbsentNodesAreLost` | core/space/base_space_ops.go:46-64 | a drain leaves no trace on a node that is not there; once added it is as configured |
| `SpaceModel.EarlyDrainIsHarmlessExactly` | core/space/base_space_ops.go:46-64 | draining before a node joins equals draining after it if and only if the last op that acts on each of its cells says what its configuration says |
| `SpaceModel.EarlyGainIsLost` | core/space/base_space_mutators.go:11-14 | a gain sent before its node joins: the node keeps the configured gain |
| `CommandEffects.AnnouncedRolesAreHeld` | core/space/base_space_ops.go:139-152 | an announced role is held until its key is tombstoned |
| `CommandEffects.TombstonesRestore` | core/space/base_space_mutators.go:31-52 | a tombstoned gain or attenuation goes back to the node's configuration |
| `CommandEffects.MalformedIsIgnored` | core/space/base_space_ops.go:108-131 | a gain or attenuation without a number changes nothing |
| `SpaceQueue.QueueHoldsTheLast` | core/space/base_space_ops.go:33-40 | with ids that never decrease the queue holds the last op of each key |
| `SpaceQueue.QueueHoldsTheLastGreatest` | core/space/base_space_ops.go:31-40 | whatever the ids, the queue holds of each key's ops with the greatest id the one that came last |
| `SpaceQueue.DrainedActing` | core/space/base_space_ops.go:52-64 | in any drain order at most one op acts on a cell |
| `SpaceQueue.AnyOrderIsArrivalOrder` | core/space/base_space_ops.go:33-64 | coalescing and draining in any order leaves the state of applying every op in arrival order |
| `SpaceQueue.IncompleteGoesWrong` | core/space/base_space_ops.go:103-125 | when a malformed value is last after one that counted, some space shows the difference in every drain order |
| `SpaceQueue.CoalescingIsExact` | core/space/base_space_ops.go:33-64 | coalescing is invisible on every space and in every order if and only if the last op of each key that was ever effective is effective |
| `RoleEffects.MultiplierExactly` | core/ambisonic/encoder.go:190-196 | the multiplier is positive, is 1 if no applicable gain exists or one is not positive, and otherwise is the least applicable gain |
| `RoleEffects.CurrentMeans` | core/space/base_space_ops.go:260-304 | cached effects are current only if the mute flag is set exactly for a held muted role, the override is the least attenuation of a held role, the exponent half of what is in effect, and the factor the gain times the multiplier |
| `RoleEffects.OtherRolesDoNotMatter` | core/space/base_space_ops.go:306-320 | a rule on a role an encoder does not hold leaves its cached effects current |
| `RoleEffects.LeastOf` | core/space/base_space_ops.go:275-302 | the loop over the roles finds the least value any of them has |
| `RoleEffects.RefreshEncoderRoleEffects` | core/space/base_space_ops.go:266-304 | mute flag, multiplier, override, gain factor and exponent become what a computation from scratch gives; the flag is set exactly if some held role is muted |
| `RoleEffects.Encoder.constructor` | core/ambisonic/encoder.go:64-117 | a new encoder is current under any rules, its gain factor exactly for a gain that is not negative |
| `RoleEffects.Encoder.SetGain` | core/ambisonic/encoder.go:154-157 | replaces the gain and keeps the multiplier composed in |
| `RoleEffects.Encoder.SetAttenuation` | core/ambisonic/encoder.go:162-165 | replaces the attenuation; an override stays in effect |
| `BaseSpace.BaseSpace.RefreshEncodersWithRole` | core/space/base_space_ops.go:311-320 | recomputes exactly the holders of the role |
| `BaseSpace.BaseSpace.EveryEncoderFollowsTheRules` | core/space/base_space_ops.go:260-320 | at every point of the space's life each encoder's mute flag and override follow its roles and the rules |
| `BaseSpace.BaseSpace.AssignRoleGain` | core/space/base_space_mutators.go:162-176 | the rule changes, and every encoder's cached effects are current again, early return included |
| `BaseSpace.BaseSpace.AssignRoleMuted` | core/space/base_space_mutators.go:146-160 | likewise for role mutes |
| `BaseSpace.BaseSpace.AssignRoleAttenuation` | core/space/base_space_mutators.go:178-192 | likewise for role attenuations |
| `BaseSpace.BaseSpace.ApplyEntityOp` | core/space/base_space_ops.go:89-190 | the space changes as the op's meaning says and stays current |
| `BaseSpace.BaseSpace.ApplySpaceOp` | core/space/base_space_ops.go:194-243 | likewise for the role rules |
| `BaseSpace.BaseSpace.EnqueueOp` | core/space/base_space_ops.go:33-40 | keeps the queued op only against an older id |
| `BaseSpace.BaseSpace.ProcessOpChanges` | core/space/base_space_ops.go:46-64 | empties the queue, applying each queued op once in some order; every encoder ends current |
| `BaseSpace.BaseSpace.DoAddNode` | core/space/base_space.go:392-417 | adds node and slot together, refuses when closed or present, and keeps every encoder current |
| `BaseSpace.BaseSpace.DoRemoveNode` | core/space/base_space.go:552-575 | removes node and slot together, refuses when closed or absent |
| `BaseSpace.BaseSpace.AddNodeToSlots` | core/space/base_space.go:179-195 | first fit, else a new slot at the end |
| `Slots.RunsKeepTheTable` | core/space/base_space.go:179-199 | after any run with proper uuids the slot table and the node map are inverse and the table is as long as the most nodes there ever were at once |
| `Slots.SlotsAreDistinct` | core/space/base_space.go:179-199 | live nodes have distinct slots |
| `Slots.OnlyNilIsOverwritten` | core/space/base_space.go:179-195 | of two nodes added in a row the second gets the first one's slot if and only if the first has the nil uuid |
| `Slots.PeakIsTheMost` | core/space/base_space.go:392-417 | the peak recorded is the maximum over all prefixes of the run |
| `Slots.WeightSlicesAreInRange` | core/ambisonic/encoder.go:299-302 | while there were never more than MaxNodes nodes, every live node's weight slice is in range |
| `Slots.ReverbSlicesAreInRange` | core/ambisonic/encoder.go:304-308 | the reverb slices of all slots are in range if and only if the ambisonic order is at least 1 |

## Left out

- JitterBuffer.JitterBuffer.Write: the sequential ring stores whole frames, so the interleaving of channels inside a frame is only in `JitterRace`, where the ring stores samples; int64 overflow of the heads is not modelled.
- JitterBuffer.JitterBuffer.Read: asks for the invariant, which a configuration with a rate of -500 or below does not give.
- CircularBuffer.CircularBuffer.constructor: Write and Read ask for the invariant it gives exactly for usable configurations; what the arrays hold after a snap to before the stream or an insert without a frame is not followed.
- CircularBuffer.CircularBuffer.Read: an insert correction into a destination shorter than one frame indexes past it; what is left then is not followed.
- StateStore.StateStore.WriteOp: writers are taken one at a time; a writer stalled for a whole ring pass, Pressure and the compaction goroutine's timing are not modelled.
- CompactRace.InterruptedCompaction: the scan is one step, and the ring does not come round between it and the publication.
- Commands.DispatchedOpPassesTheFilter: JSON decoding is a parameter (arguments decode or do not); NaN gains, the overflow of a kick duration and duplicate registrations in NewRegistry are not modelled.
- Protocol.NextKeepsOwnership: admission's recheck and registration are one step, which also serialises orphan registration against it; of the two channels only the string channel's order is modelled; every topic is taken as cached.
- ProtocolSafety.LastWord: covers the keys of sendEntity and sendAttributes; command-authored keys still queued when a departure copies the tracked keys are not claimed to be tombstoned.
- ProtocolRest.NoGhostsAtRest: states at rest; `Quiesce.ReachesRest` leads there from every reachable state.
- Departure.Backend.DepartNode: one goroutine; interleavings are in `Protocol`. The encoder's release through pendingFree is only the hand-over.
- Departure.Backend.HandleStringMessage: the broadcast of the envelope and the tees to the space and the kick gate are not modelled.
- Departure.Bouncer.Stop: the waits for in-flight senders and for the dispatch goroutine are the `Barrier` step of `Protocol`, not part of the method.
- Departure.BouncerClient.TakeSentKeys: the older Depart and AnnounceDisappearance, which tombstone through the bouncer itself, are not used by this backend and not modelled.
- Sessions.Registry.Admit: what other goroutines do to the old entry during each wait is a parameter; forcing is DepartNode's effect on registry and entry only.
- Reconciler.Sweeper.ReconcilePass: works on the maps as values; the log-only third check is left out.
- Passes.PassIsSwept: the departures of a pass run without interruption and the queue is drained after it; which transports report dead and when sessions were admitted are fixed over the passes.
- RoleEffects.Encoder.SetGain: the gain factor stands for the effective gain under the square root; math.Pow, float32 rounding and NaN are not modelled.
- BaseSpace.BaseSpace.DoRemoveNode: the release through BeforeDestroy and FreeSource is left out (FreeSource's effect on sessions is in `ProtocolRest`); the node's slot index is in range as a precondition, which the slot laws provide for proper uuids.
- shouldIncludePeer, the mixing loop of EncodePeers, spherical harmonics, reverb, compressor, Opus: floating-point signal processing.
- CircularBufferA: resets its head at the wrap, so it has no queue refinement.
- KickGate, backfill, pre-attach buffering, statistics, NotifyStaleNode's single-flight escalation and Shutdown's deadlines: they trigger departures that the protocol already allows at any time.
- Transports and signalling (core/moq, core/roc, core/panaudia_server, directroc, unified): network I/O; a transport is only alive or closed here.
