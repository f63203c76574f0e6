# OSCMidi: a verified model of its MIDI core

OSCMidi routes MIDI in real time: messages arrive from networks, players and files,
pass through bounded queues, and reach a plug-in inside an audio callback. The project
models the parts of it where a mistake is audible or loses data, and proves what they
are for.

* **Late-event replay** (`MidiPlayback.dfy`, `PlaybackLimits.dfy`, `PlaybackSeams.dfy`,
  `PlaybackGaps.dfy`, `CallbackMidi.dfy`, `CallbackRuns.dfy`, `RackMessages.dfy`). The clock
  that maps source timestamps to sample offsets and replays a backlog at no more than double
  speed, exactly where that ends, the two loops that hand events to a plug-in that may be full
  or refuse, whole runs with admission and resets, and the messages the plug-in is told.
* **Release-safe admission** (`Midi.dfy`, `MidiIngress.dfy`, `MidiSounding.dfy`,
  `MidiQueue.dfy`, `SourceMidiState.dfy`, `ActiveNotes.dfy`). What a message presses and
  releases, the ring that falls back to a new reset generation, what is heard of the messages
  sent, the queue that reserves slots for releases, and the books on who holds what.
* **Reliable playback** (`Framing.dfy`, `Playback.dfy`, `Stamps.dfy`, `InputProfile.dfy`,
  `Connection.dfy`, `ConnectionRuns.dfy`). Length-prefixed frames over a chunked stream, session
  validation and scheduling, the stamps of deadlines, the input profile a message passes, and a
  connection that plays its session and whose resets come after everything the session queued.
* **Callback gate** (`CallbackGate.dfy`). One atomic word that admits audio callbacks
  and lets maintenance shut them out.
* **Buffers and tables** (`ConvertSamples.dfy`, `HeapProfile.dfy`, `HeapRuns.dfy`).
  In-place sample width conversion, and a bounded-probe table of live heap blocks.
* **Transactions and caches** (`ConfigCommit.dfy`, `ConfigPersistence.dfy`,
  `PluginScan.dfy`, `PluginLists.dfy`, `PluginRepeats.dfy`). Configuration changes with
  rollback, the serialized save queue, the plug-in scan cache, and the architecture lists a
  scan computes.

Objects that the program updates in place are classes whose methods are proved against
functions of their old state; the properties are lemmas about those functions. Threads
are state machines: a datatype of actions, one per atomic operation, `Enabled` and
`Apply` for one step, and `IsRun` for every interleaving. Main results speak of every
reachable state. Clocks, reads, locks, allocation results and failures of foreign calls
are parameters or scripted outcomes over which the results quantify; a loop that waits for
the world takes a finite script, and running out of it is an outcome of its own
(`StillReading`, `StillRunning`), excluded once the script is long enough.

`dafny verify dfyconfig.toml` checks the whole project.

## Where the code differs from what it promises

* Late notes keep their spacing over runs of blocks that are on time: after a block that left
  no cursor, the next one comes within a period, or its oldest event is from before that block's
  end (`MidiPlayback.ReplayIsAtMostDoubleSpeed`). Otherwise there is a gap in source time. In
  any run of blocks, on time or not, all events keep the spacing if and only if, for every two
  of its blocks and any frames at the end of the one and the start of the other, the time
  between the blocks and that of these frames fits into these frames and those between at
  double speed (`PlaybackGaps.SpacingAcrossGaps`). Gaps that are harmless one by one can add up
  (`PlaybackGaps.HarmlessGapsAddUp`).
* How long a single gap may be depends on both blocks (`PlaybackSeams.SpacingAcrossASeam`):
  between live blocks of 480 frames at 48 kHz 43 microseconds, 21 if one of the two is a
  recovery block of two periods, and none at all if both are (`PlaybackSeams.TypicalGaps`,
  `PlaybackSeams.LateStartAfterRecovery`).
* Events that arrive late after a live block are replayed with their spacing
  (`PlaybackLimits.LateArrivalsAreCovered`). Events behind the cursor, and events out of order
  in one block, are not: they share a frame (`PlaybackLimits.BehindTheCursor`,
  `PlaybackLimits.OutOfOrder`).
* Offsets track source time for every block of a size if and only if a block of two periods
  reaches its last frame without saturating (`PlaybackLimits.TrackingIsExact`, with
  `MidiPlayback.Exact` as the condition; every size up to a million frames meets it). For
  every other size one replayed block breaks the spacing
  (`PlaybackLimits.SpacingNeedsExactness`).
* Stamps of a session's groups follow the order of their deadlines, however late the groups
  are, if and only if the first deadline with the delay of taking its stamp, rounded up to a
  tick, is not after the second with its own, rounded down (`Stamps.InOrderExactly`); a thread
  held up between two looks at the clock reverses them (`Stamps.HeldUpBetweenTheLooks`).
* A frame is read back exactly when its payload is at most 16 MiB. The writer does not
  check the limit, and it truncates longer lengths to 32 bits
  (`Framing.RoundTripExactlyWithinTheLimit`). What becomes of the others is
  `Framing.OversizedFrame`; one byte more is refused (`Framing.OneByteTooMany`).
* A cached scan finds the same entries as an uncached one, but may list a group's
  architectures in another order. The list is the same under every cache that an earlier scan
  can have left if and only if no two of the files hold entries of the group for different
  architectures besides x64 (`PluginLists.CachedListsAgreeExactlyWithOneOther`; a cache that
  changes it is `PluginLists.SomeCacheReorders`).
* A list names an architecture twice unless equal ones besides x64 come together
  (`PluginLists.ListNamesTheGroup`). Over the files: without a cache it does if and only if a
  file of another kind lies between two of one kind, none of them 32-bit
  (`PluginRepeats.UncachedListsNameOnceExactly`); with the result of some earlier scan as the
  cache, if and only if there are two files of one kind and one of another, and if the two are
  32-bit, one of them can be a hit and comes before the third
  (`PluginRepeats.CachedListsNameOnceExactly`).
* A rollback restores a pending request for audio exactly when the previous
  configuration enabled audio: the last clause of `ConfigCommit.Change.Commit`. Otherwise a
  failing disk is enough to lose it (`ConfigCommit.RollbackLosesTheRequest`).

## Model

| member | source | states |
|---|---|---|
| MidiPlayback.MidiBlockTiming.constructor | src-tauri/src/audio/midi_playback.rs:47-57 | a live block ends now and spans the time its frames take; what that time is for every size and rate is `MidiPlayback.LiveBlockCoversItsFrames` |
| MidiPlayback.MidiBlockTiming.Offset | src-tauri/src/audio/midi_playback.rs:63-73 | the offset is the scaled source time with every saturation, never below the block's previous offset |
| MidiPlayback.MidiPlaybackClock.BeginBlock | src-tauri/src/audio/midi_playback.rs:10-25 | a block behind live time starts at the cursor, or the oldest event, and spans at most two live blocks; otherwise it is live; the clock does not change |
| MidiPlayback.MidiPlaybackClock.Commit | src-tauri/src/audio/midi_playback.rs:27-31 | the cursor stops at the first event left waiting, and disappears once the block reaches now |
| MidiPlayback.BeginShape | src-tauri/src/audio/midi_playback.rs:10-25 | no block starts after the cursor, ends after now, or spans more than two periods |
| MidiPlayback.LiveBlockCoversItsFrames | src-tauri/src/audio/midi_playback.rs:47-57 | for every size and rate: a live block of t microseconds satisfies t * rate <= frames * 1_000_000 < (t + 1) * rate, capped where the product saturates; it covers one microsecond if that is less, and never starts before zero |
| MidiPlayback.CadenceGaps | src-tauri/src/audio/midi_playback.rs:10-57 | live blocks called at the device's own cadence leave out less than a microsecond of source time each, over any number of blocks, and none if a block is a whole number of microseconds |
| MidiPlayback.RealisticBlocksAreExact | src-tauri/src/audio/midi_playback.rs:63-73 | every block of up to a million frames at any rate meets the exact condition for tracking |
| MidiPlayback.OffsetTracksSourceTime | src-tauri/src/audio/midi_playback.rs:63-73 | under that condition an offset is within one frame of the event's source time, below the block's length, for every block and event |
| MidiPlayback.OffsetsAreOrdered | src-tauri/src/audio/midi_playback.rs:63-73 | the offsets of one block never decrease and stay below its length, even for regressing timestamps |
| MidiPlayback.ReplayIsAtMostDoubleSpeed | src-tauri/src/audio/midi_playback.rs:10-73 | over any run of on-time blocks of one size and rate, live or recovering, each delivering events in order and none from before its start: events d microseconds apart are rendered at least d * frames / (2 * period) - 1 frames apart, across blocks, spills and late arrivals |
| PlaybackLimits.TrackingIsExact | src-tauri/src/audio/midi_playback.rs:63-73 | every block of a size and rate tracks source time for every event if and only if the size is exact |
| PlaybackLimits.SpacingNeedsExactness | src-tauri/src/audio/midi_playback.rs:63-73 | for every size that saturates, a replayed block whose first and last event are too close |
| PlaybackLimits.LateArrivalsAreCovered | src-tauri/src/audio/midi_playback.rs:18-24 | an event made before a live block's end, even before an event it played, is delivered in order by any later block, and such runs are on time |
| PlaybackLimits.BehindTheCursor | src-tauri/src/audio/midi_playback.rs:10-24 | an event from before the cursor lands on the block's first frame, and keeps the spacing exactly if its distance to the cursor is worth one frame |
| PlaybackLimits.OutOfOrder | src-tauri/src/audio/midi_playback.rs:63-73 | an event delivered after a later one shares its frame, and keeps the spacing exactly if the two are worth one frame |
| PlaybackSeams.SpacingAcrossASeam | src-tauri/src/audio/midi_playback.rs:10-73 | for any two consecutive blocks of which the first catches up without a cursor: all events of these two blocks, in every run of them, keep the spacing if and only if the gap fits for every number of frames before and after it |
| PlaybackGaps.SpacingAcrossGaps | src-tauri/src/audio/midi_playback.rs:10-73 | for the blocks of any run, of any number, on time or not: in every run of these blocks all events keep the spacing if and only if every two of the blocks keep apart |
| PlaybackGaps.HarmlessGapsAddUp | src-tauri/src/audio/midi_playback.rs:10-31 | three blocks with two gaps that are each kept and together not, for every size whose frames divide two periods |
| PlaybackSeams.NoGapKeepsSeam | src-tauri/src/audio/midi_playback.rs:10-31 | blocks that leave no gap keep the condition, whatever their spans |
| PlaybackSeams.SpacingAcrossAStall | src-tauri/src/audio/midi_playback.rs:10-31 | the exact gap between two live blocks, for every size, rate and stall |
| PlaybackSeams.LateStartAfterAStall | src-tauri/src/audio/midi_playback.rs:10-31 | the exact gap between a live block and a block of two periods that starts at a late event |
| PlaybackSeams.StallAfterRecovery | src-tauri/src/audio/midi_playback.rs:10-31 | the exact gap between a recovery block of two periods and a live block |
| PlaybackSeams.LateStartAfterRecovery | src-tauri/src/audio/midi_playback.rs:10-31 | between two recovery blocks of two periods no gap keeps the spacing |
| MidiPlayback.CatchUpStep | src-tauri/src/audio/midi_playback.rs:10-31 | one block of catching up, also the one a late event starts, takes exactly one period off the lag |
| MidiPlayback.CatchUpTerminates | src-tauri/src/audio/midi_playback.rs:10-31 | from a cursor or from a late first event, the clock is live again after ceil(lag / period) blocks, no earlier, and stays live for on-time events |
| CallbackMidi.ReleaseMeansCritical | src-tauri/src/audio/runtime_state.rs:502-519 | on validated bytes the packet's release tests agree with the message's |
| CallbackMidi.AudioCallbackState.EnqueueMidi | src-tauri/src/audio/runtime_state.rs:727-773 | which packet is queued, dropped or evicted, when the queue is given up for a reset, and how many are counted as lost |
| CallbackMidi.AdmissionKeepsReleases | src-tauri/src/audio/runtime_state.rs:727-773 | admission loses no release and keeps their order unless it gives the queue up for a reset; every packet is kept or counted, within the bound |
| CallbackMidi.AdmissionRules | src-tauri/src/audio/runtime_state.rs:727-773 | in numbers: releases are taken up to the bound, others up to an eighth of it or 256 below; a release that finds the queue full replaces the first Note-On, else the first packet that releases nothing, else everything |
| CallbackMidi.AudioCallbackState.DropOldestNoteOn | src-tauri/src/audio/runtime_state.rs:775-783 | removes the first Note-On, if any, and keeps the order of the rest |
| CallbackMidi.AudioCallbackState.DropOldestNonCritical | src-tauri/src/audio/runtime_state.rs:785-796 | removes the first packet that releases nothing, if any, and keeps the order of the rest |
| CallbackMidi.AudioCallbackState.PreparePendingVst2Midi | src-tauri/src/audio/callback_midi.rs:93-133 | the pop loop delivers the due prefix that fits and commits the clock |
| CallbackMidi.AudioCallbackState.PopDue | src-tauri/src/audio/callback_midi.rs:101-125 | the loop itself, against the recursive specification |
| CallbackMidi.PopTakesThePrefix | src-tauri/src/audio/callback_midi.rs:101-125 | a VST2 batch is the longest due prefix that fits, every packet's bytes as they are, placed by the block's clock |
| CallbackMidi.AudioCallbackState.SubmitPendingVst3MidiAt | src-tauri/src/audio/callback_midi.rs:156-213 | a rejected batch changes neither queue nor clock; an accepted one consumes what was scanned; what its events say is `RackMessages.BatchSaysTheMessages` |
| CallbackMidi.AudioCallbackState.ScanDue | src-tauri/src/audio/callback_midi.rs:169-185 | the scan loop, against the recursive specification |
| CallbackMidi.ScanTakesAPrefix | src-tauri/src/audio/callback_midi.rs:169-185 | a batch is the convertible part of a prefix of the queue, placed by the block's clock, and fits the backend |
| CallbackMidi.ScanStopsOnlyWhenItMust | src-tauri/src/audio/callback_midi.rs:173-185 | the scan ends only at its bound, at an event that is not due, or with no room for a convertible one |
| CallbackMidi.BatchesAreOrdered | src-tauri/src/audio/callback_midi.rs:163-185 | a batch has nondecreasing offsets below the block's length, for any timestamps |
| RackMessages.EventSaysTheMessage | src-tauri/src/audio/callback_midi.rs:19-71 | a round trip: a well-formed packet becomes an event if and only if it is a channel message, and the event written back as MIDI bytes is the message in canonical form, a pitch bend in its low and high seven bits |
| RackMessages.EventDoesWhatTheMessageDoes | src-tauri/src/audio/callback_midi.rs:19-71 | what an event presses or releases, by its fields, is for every key and pedal what the packet's message does |
| RackMessages.BatchSaysTheMessages | src-tauri/src/audio/callback_midi.rs:169-185 | the events of every batch, written back, are the channel messages of the packets it takes, in order |
| RackMessages.NoteOnsPressKeys | src-tauri/src/audio/runtime_state.rs:502-513 | the packets evicted first are exactly those that press a key |
| CallbackRuns.DeliveryIsExactlyOnce | src-tauri/src/audio/runtime_state.rs:715-773 | over any run of admissions, resets, blocks, capacities and verdicts: since the last reset, taken and pending packets are the enqueued ones in order, once each, except those counted as dropped, and all releases are among them; what the plug-in received is what was taken |
| CallbackRuns.NothingDroppedMeansNothingMissing | src-tauri/src/audio/runtime_state.rs:727-773 | while the drop counter has not moved since the last reset, received and pending events are exactly those enqueued, in order |
| RackMessages.PluginHearsTheMessages | src-tauri/src/audio/callback_midi.rs:156-213 | over any run of admissions, resets, blocks, capacities and verdicts: what the plug-in was told, as bytes, is the channel messages of the packets taken, and with nothing dropped, followed by the pending ones, all those enqueued |
| CallbackRuns.SubmitTakesAPrefix | src-tauri/src/audio/callback_midi.rs:156-213 | a submission takes a due prefix, places its events by the block's clock and commits, or is rejected and changes nothing |
| CallbackRuns.RunKeepsPace | src-tauri/src/audio/callback_midi.rs:156-213 | every timely run of the submit loop, whatever arrives and whenever, is a run of paced blocks whose recorded timestamps are those of the submitted events |
| CallbackRuns.SubmittedEventsKeepTheSpacing | src-tauri/src/audio/callback_midi.rs:156-213 | over any timely run with admission, rejections, spills and late arrivals, two submitted events made d microseconds apart are submitted at least d * frames / (2 * period) - 1 frames apart |
| CallbackRuns.LateArrivalIsTimely | src-tauri/src/audio/callback_midi.rs:156-213 | a packet made before the end of the last block, queued after it and rendered at any later time, is within a timely run |
| CallbackMidi.BothBackendsAgree | src-tauri/src/audio/callback_midi.rs:93-213 | on convertible packets both loops deliver the same events at the same offsets and leave the same queue and clock |
| Midi.NormalizeMessage | src-tauri/src/midi.rs:346-368 | exactly the well-formed messages are accepted; a Note-On of velocity zero becomes a Note-Off and nothing else changes |
| Midi.AcceptedMessages | src-tauri/src/midi.rs:346-368 | the well-formed messages, length by length and status by status |
| Midi.CanonicalForms | src-tauri/src/midi.rs:346-368 | on each channel a Note-On of velocity zero is respelled as a Note-Off, and nothing else is respelled |
| Midi.CanonicalIsStable | src-tauri/src/midi.rs:346-368 | normalising twice is normalising once, and keeps what a message presses and releases |
| Midi.CriticalMeansReleasing | src-tauri/src/midi.rs:330-343 | the critical channel messages are exactly those that release some key or pedal |
| Midi.EffectsOfBytes | src-tauri/src/midi.rs:32-48 | which bytes press and which release a key or pedal, and that nothing else does |
| Midi.ParsedNotes | src-tauri/src/midi.rs:285-315 | notes count channels from one and the keys of a piano from its lowest A |
| MidiIngress.StepKeepsInv | src-tauri/src/audio/engine.rs:60-84 | every atomic step of producers, resets and the callback keeps the invariant: each release owed to a sounding or queued note is queued behind it or overtaken |
| MidiIngress.RunKeepsInv | src-tauri/src/audio/engine.rs:60-84 | so does every interleaving |
| MidiIngress.NoStuckNotes | src-tauri/src/audio/engine.rs:60-84 | once the callback has drained and honoured the generation, no held key or pedal has a release that was issued after its press returned |
| MidiIngress.SequentialSendersAgreeWithTheirMessages | src-tauri/src/audio/engine.rs:271-278 | for messages sent one after another, whatever pushes fail: what still sounds is left pressed by the messages; the converse is `MidiSounding.SequentialSendersAreHeard` |
| MidiSounding.UncontendedSendReachesTheRing | src-tauri/src/audio/engine.rs:60-73 | from any state, an uncontended send of any message can go through if and only if the message is well formed, a slot is free, and, unless it is a release, more than an eighth of the slots or more than 256 are; it then ends as sent, with its packet last in the ring |
| MidiSounding.FailedSend | src-tauri/src/audio/engine.rs:74-84 | a send whose push fails leaves the ring alone, asks for a reset if and only if the message was a release, and says so |
| MidiSounding.CallsKnowWhoReturned | src-tauri/src/audio/engine.rs:271-278 | a call knows of exactly the calls that had returned when it began |
| MidiSounding.NoteOnsPressKeys | src-tauri/src/audio/runtime_state.rs:502-513 | the packets a full queue evicts first are exactly those that press a key, and no release is among them |
| MidiSounding.JudgeTakes | src-tauri/src/audio/runtime_state.rs:683-691 | a roomy pending queue takes every packet of the generation in force, at its end |
| MidiSounding.RunSounds | src-tauri/src/audio/runtime_state.rs:665-773 | over any interleaving without a reset and with room in the pending queue: what sounds in the end is what sounded at first, changed by each message pushed, in the order of the pushes, and by nothing else |
| MidiSounding.UncontendedSendSounds | src-tauri/src/audio/engine.rs:60-73 | after an uncontended send, once the callback is quiet, every key or pedal the message presses is held by that very call, and every one it releases is not held, whatever other messages came in between that are not about it |
| MidiSounding.CallbackCanDrain | src-tauri/src/audio/runtime_state.rs:665-706 | from every reachable state the callback alone can become quiet, without ever running out of room |
| MidiSounding.PressSoundsAfterADrain | src-tauri/src/audio/engine.rs:60-73 | with room in the ring a press can be sent, the callback can drain, and however it drains, the press is held |
| MidiSounding.ResetSilencesEverything | src-tauri/src/audio/runtime_state.rs:665-706 | in every reachable state a reset can be asked for, by producers or the callback, and once the callback has drained nothing is held |
| MidiSounding.SequentialSendersAreHeard | src-tauri/src/audio/engine.rs:271-278 | for messages issued one after another and all sent, without a reset and with room: what sounds is exactly what the messages leave pressed |
| MidiIngress.AdmitCases | src-tauri/src/audio/runtime_state.rs:727-773 | admission appends, drops or evicts only what releases nothing, or starts afresh with a reset |
| SourceMidiState.SourceMidiState.Observe | src-tauri/src/midi.rs:21-54 | a frame changes its own source's keys and pedals as the message says, a system reset clears all, and no idle source is kept |
| SourceMidiState.SourceMidiState.ReleaseSource | src-tauri/src/midi.rs:56-84 | the source is forgotten, its releases are returned, and a source that holds nothing yields none |
| SourceMidiState.ReleaseAll | src-tauri/src/midi.rs:60-82 | the channel loop collects every channel's releases in order |
| SourceMidiState.ReleaseNotes | src-tauri/src/midi.rs:61-70 | the bit loop emits the source's exclusive notes of a channel, lowest first |
| SourceMidiState.ReleasePedals | src-tauri/src/midi.rs:71-81 | the pedal loop emits the pedals nobody else holds |
| SourceMidiState.TrackFollowsEffects | src-tauri/src/midi.rs:32-48 | updating the masks matches the MIDI meaning of the message for every key and pedal |
| SourceMidiState.ReleasesAreExact | src-tauri/src/midi.rs:56-84 | releases are emitted for exactly the keys and pedals that only this source holds, each once, in ascending order |
| SourceMidiState.ReplayLeavesTheRest | src-tauri/src/midi.rs:56-84 | replaying the releases on everything held leaves exactly what the other sources hold |
| ActiveNotes.ActiveNotes.Observe | src-tauri/src/midi.rs:377-391 | a key is noted after a message exactly as the parsed note, a reset or an all-notes-off says |
| ActiveNotes.ActiveNotes.ReleaseAll | src-tauri/src/midi.rs:393-401 | sends a Note-Off for each noted key, by channel and pitch, and forgets them |
| ActiveNotes.NoPressedKeyIsForgotten | src-tauri/src/midi.rs:377-391 | between resets every key left pressed by the messages is noted |
| ActiveNotes.ClosingSilences | src-tauri/src/midi.rs:377-401 | any messages followed by the releases leave no key down |
| MidiQueue.StepKeepsAccounts | src-tauri/src/midi_queue.rs:244-282 | every step keeps the permit count equal to the permits queued, in flight and on their way back, and within the limit |
| MidiQueue.PermitsAndOrder | src-tauri/src/midi_queue.rs:157-330 | in every interleaving: permit accounting, the reserve, first-in first-out, and each admitted value received at most once |
| MidiQueue.NoPermitLeaks | src-tauri/src/midi_queue.rs:161-166 | with nothing queued or under way every permit is available |
| MidiQueue.FullMeansReleasesFillTheReserve | src-tauri/src/midi_queue.rs:244-282 | a connected queue refuses an offer as full only when critical entries fill the reserve; one with a permit, only when they exceed it |
| MidiQueue.PermitRefusedExactlyWhenAllAreOut | src-tauri/src/midi_queue.rs:249-265 | a permit is refused exactly when as many as the limit are queued or under way |
| MidiQueue.UndisturbedSend | src-tauri/src/midi_queue.rs:244-302 | what an undisturbed call does, in numbers: sent at the end of the queue, with a permit or without, or nothing changed and the reason reported, or tried again |
| MidiQueue.UndisturbedReceive | src-tauri/src/midi_queue.rs:312-330 | the receiver takes the oldest value and its permit comes back |
| MidiQueue.NewQueueCarries | src-tauri/src/midi_queue.rs:244-330 | a new queue of any capacity carries a value of either kind to the receiver and is then as new |
| GenerationOrder.OnlyOvertakenEventsAreDiscarded | src-tauri/src/midi_queue.rs:16-28 | over any run, events are disposed of in order, delivered only after their reset was handled, discarded only if a reset overtook them |
| GenerationOrder.NothingStaysDeferred | src-tauri/src/midi_queue.rs:16-28 | once the reset in force is handled, taking drains the queue |
| GenerationOrder.HandlingDrainsTheQueue | src-tauri/src/midi_queue.rs:16-28 | from every reachable state, handling the reset and then taking disposes of all that waits |
| GenerationOrder.ResetsOvertake | src-tauri/src/midi_queue.rs:16-28 | after a reset of either kind, what waited before can only be discarded, whatever is handled then |
| CallbackGate.StepKeepsInv | src-tauri/src/audio/callback_gate.rs:18-60 | every atomic operation keeps the word equal to the closed bit plus the live admissions |
| CallbackGate.WordCountsAdmissions | src-tauri/src/audio/callback_gate.rs:18-60 | in every interleaving the low bits are the live admissions and the top bit says closed |
| CallbackGate.ClosedOnlyDrains | src-tauri/src/audio/callback_gate.rs:36-49 | until a reopen, a closed gate stays closed and its count never rises |
| CallbackGate.ClosingExcludesCallbacks | src-tauri/src/audio/callback_gate.rs:37-49 | from a true answer until a reopen nobody is inside or can be admitted; a close that timed out still admits nobody |
| CallbackGate.ExcludedExactlyWhenEmpty | src-tauri/src/audio/callback_gate.rs:40-43 | the waiting thread can be told true exactly when nobody is inside |
| CallbackGate.OpenGateAdmits | src-tauri/src/audio/callback_gate.rs:18-34 | an open gate admits an entrant that meets no interference |
| CallbackGate.ClosedGateRefuses | src-tauri/src/audio/callback_gate.rs:18-23 | a closed gate refuses an entrant at its first look and is left as it is |
| CallbackGate.GateCanBeClosed | src-tauri/src/audio/callback_gate.rs:36-54 | in every reachable state the gate can be closed, and is answered for with true once whoever is inside has left; and it can be reopened, with the same callbacks inside |
| Framing.Stream.ReadExact | src-tauri/src/reliable_playback.rs:665-720 | how a read ends for every script of chunks, timeouts, stops and deadlines; what has arrived is kept |
| Framing.Stream.ReadFrame | src-tauri/src/reliable_playback.rs:637-663 | a header, the size limit and a payload, against the specification of one frame |
| Framing.Stream.ReadFrames | src-tauri/src/reliable_playback.rs:343-392 | the connection's loop ignores timeouts and ends at anything else unusual |
| Framing.BigEndianRoundTrip | src-tauri/src/reliable_playback.rs:654-729 | the length written is the length read |
| Framing.QuietFrame | src-tauri/src/reliable_playback.rs:637-720 | a frame at the front of the stream comes whole or not yet, whatever follows it |
| Framing.FramesRoundTrip | src-tauri/src/reliable_playback.rs:637-731 | for every split into reads with timeouts in between, the payloads read are those written, in order, and all of them once enough has arrived |
| Framing.RoundTripExactlyWithinTheLimit | src-tauri/src/reliable_playback.rs:654-731 | a frame that arrives whole is read back if and only if its payload is within the limit |
| Framing.OversizedFrame | src-tauri/src/reliable_playback.rs:654-731 | what comes of every payload above the limit: refused, or cut off when its truncated length is within the limit |
| Framing.OneByteTooMany | src-tauri/src/reliable_playback.rs:654-731 | a written payload of 16 MiB and one byte, arriving whole, is refused |
| Framing.IdleTakesNothing | src-tauri/src/reliable_playback.rs:699-713 | an idle timeout takes no byte from the stream |
| Framing.TroubleEndsTheRead | src-tauri/src/reliable_playback.rs:665-720 | after any rounds that left a read unfinished: what the next round's flags and event end it with, in the order they are checked, and that what has arrived stays taken |
| Playback.ValidatePrepare | src-tauri/src/reliable_playback.rs:435-502 | exactly the acceptable sessions are accepted, with their messages normalised in place; otherwise the first fault is reported |
| Playback.CheckEvent | src-tauri/src/reliable_playback.rs:456-495 | the checks of one event, in order |
| Playback.AcceptableSessions | src-tauri/src/reliable_playback.rs:435-502 | validation passes exactly the events that are numbered from zero, sorted, due within a day, and well-formed messages of at most 1024 bytes |
| Playback.FaultIsTheFirst | src-tauri/src/reliable_playback.rs:456-495 | the fault reported is there, and none that is checked before it is |
| Playback.ValidSessionsAreAccepted | src-tauri/src/reliable_playback.rs:435-502 | an accepted session is numbered, sorted and canonical, and would be accepted again unchanged |
| Playback.WaitUntil | src-tauri/src/reliable_playback.rs:581-598 | the wait ends at the target or a stop, within one more look once the target has come |
| Playback.AwaitGroup | src-tauri/src/reliable_playback.rs:526-544 | a group's lateness is taken only at or after its deadline and unstopped, and its stamp is that of its deadline from two looks at the clock |
| Playback.PlayGroup | src-tauri/src/reliable_playback.rs:546-571 | events due together are offered in order under one stamp, each counted once, none after a stop is seen |
| Playback.RunSchedule | src-tauri/src/reliable_playback.rs:510-579 | attempts are in order, one stamp per deadline, at most one after a stop, and timed as `Playback.PlainlyTimed` says in nanoseconds: none before the start, the start delay of at most a minute and its due time; lateness the whole microseconds past that instant at a look at the clock; the stamp within a tick of that instant and the delay of taking it; on completion processed, dropped and filtered add up; it ends when time advances |
| Playback.StampsFollowDeadlines | src-tauri/src/reliable_playback.rs:539-552 | along a session a stamp is its deadline's, later by the delay of taking it and within a tick, whatever the lateness; stamps are in order unless a delay exceeds the next by the time between the deadlines |
| Playback.TimedPlainly | src-tauri/src/reliable_playback.rs:518-544 | every orderly list of attempts is timed so, with the arithmetic written out |
| Playback.StampsApart | src-tauri/src/reliable_playback.rs:530-544 | the stamps of any two attempts are as far apart as their due times and the difference of their delays, within a tick each, in both directions |
| Stamps.StampIsTheTarget | src-tauri/src/vst_worker/protocol.rs:406-411 | a stamp shows the target, late by the delay between the readings and rounded to a tick, and not the lateness |
| Stamps.InOrderExactly | src-tauri/src/vst_worker/protocol.rs:406-411 | two stamps are in order for every lateness if and only if the first target and delay, rounded up to a tick, are not after the second, rounded down |
| Stamps.HeldUpBetweenTheLooks | src-tauri/src/vst_worker/protocol.rs:406-411 | a delay between the two clock readings that reverses the stamps of two deadlines |
| Connection.StepKeepsInv | src-tauri/src/reliable_playback.rs:261-433 | every step of the connection, its scheduler and the rest of the world keeps the connection's invariant |
| Connection.EventsThenResets | src-tauri/src/reliable_playback.rs:394-421 | in every interleaving, the connection's queued frames are, in order, the prepared messages of a subsequence of the session's events, followed by resets in order |
| Connection.RunQueuesResets | src-tauri/src/reliable_playback.rs:600-615 | with resets admitted, each one offered so far is in the queue |
| Connection.StoppingSilencesTheSource | src-tauri/src/reliable_playback.rs:394-421 | after Stop or a broken connection, observing the queue leaves the source holding no key and no pedal, from any prior state and among any other sources |
| ConnectionRuns.EveryEventIsQueued | src-tauri/src/reliable_playback.rs:546-571 | if the queue took every event offered, then once the scheduler is through each event of the session is queued, under its name and as prepared, in every interleaving |
| ConnectionRuns.UndisturbedSessionPlays | src-tauri/src/reliable_playback.rs:261-433 | any session of well-formed messages can be played: exactly its messages are queued, in order and canonical, and the reply says completed |
| ConnectionRuns.EndingIsReleased | src-tauri/src/reliable_playback.rs:350-421 | from every reachable state that waits for a frame: a Stop can be answered as stopped, and a broken connection or a frame out of place of a started session can end, with the 64 resets queued last, a release of each pedal and of all notes of each channel |
| ConnectionRuns.RepliesAreTrue | src-tauri/src/reliable_playback.rs:394-433 | in every interleaving a session is called completed only if it was played to the end undisturbed, and stopped only if that was asked for and everything was released |
| ConnectionRuns.LostQueueIsNotCompletion | src-tauri/src/reliable_playback.rs:556-562 | in every interleaving, a session that found its queue gone is never called completed |
| InputProfile.PreparationKeepsTheKind | src-tauri/src/bridge/pipeline.rs:517-568 | preparation keeps length, status and every byte but a controller's or program's number |
| InputProfile.PressAndReleasePassAlike | src-tauri/src/bridge/pipeline.rs:517-568 | messages about one key or one controller of a channel are both let through or both filtered out, and still concern one key or controller |
| InputProfile.WhatIsAdmitted | src-tauri/src/bridge/pipeline.rs:517-568 | message by message: none on a channel filtered out, no note outside the range, a controller's or program's number looked up in its own map, all else as it is |
| InputProfile.WhatIsAdmittedOtherwise | src-tauri/src/bridge/pipeline.rs:517-568 | before anything is published all is admitted, after it is withdrawn nothing, and system messages pass every filter |
| HeapProfile.Profile.Take | tools/diagnostics/heap-profile.js:17-26 | the probe loop removes the first slot with the key within 128 probes and its size from its group |
| HeapProfile.Profile.Put | tools/diagnostics/heap-profile.js:27-34 | the probe loop fills the first free slot within 128 probes, or counts a loss |
| HeapProfile.Profile.Add | tools/diagnostics/heap-profile.js:35-44 | blocks of at least 8192 bytes are charged to their caller's group, or counted as lost |
| HeapProfile.BasesSpread | tools/diagnostics/heap-profile.js:20 | two keys share their first slot if and only if their sixteenths differ by a multiple of 65536 |
| HeapProfile.LostExactlyWhenFull | tools/diagnostics/heap-profile.js:27-44 | a block of at least 8192 bytes is lost if and only if all 128 groups belong to other callers or the 128 slots from its base on are taken; a smaller one is never tracked |
| HeapProfile.Profile.AllocLeave | tools/diagnostics/heap-profile.js:52-58 | an outermost allocation is added; a nested one changes nothing |
| HeapProfile.Profile.FreeEnter | tools/diagnostics/heap-profile.js:59-65 | an outermost free takes the block before the heap sees it |
| HeapProfile.Profile.FreeLeave | tools/diagnostics/heap-profile.js:66-74 | a failed free puts the block back |
| HeapProfile.Profile.ReallocEnter | tools/diagnostics/heap-profile.js:75-80 | an outermost reallocation takes the old block and remembers its request |
| HeapProfile.Profile.ReallocLeave | tools/diagnostics/heap-profile.js:81-90 | the new block is added, or the old one put back |
| HeapRuns.TakenStaysSound | tools/diagnostics/heap-profile.js:17-26 | taking keeps the sums and the probe distances |
| HeapRuns.PutInStaysSound | tools/diagnostics/heap-profile.js:27-34 | putting keeps the sums and the probe distances |
| HeapRuns.CountersMatchTheTable | tools/diagnostics/heap-profile.js:17-90 | after any sequence of hook calls, whatever the heap returns, live addresses included, whatever is given up and whatever is lost: each group's live counter is the sum of its slots modulo 2^64 and every key is within 128 probes of its base |
| HeapRuns.StepStaysWellFormed | tools/diagnostics/heap-profile.js:45-90 | what an interrupted operation would put back always names an existing group |
| HeapRuns.StepKeepsAgreement | tools/diagnostics/heap-profile.js:45-90 | while nothing is lost, each disciplined hook and act of the heap keeps table and operations under way equal to what is live |
| HeapRuns.TableMatchesTheHeap | tools/diagnostics/heap-profile.js:17-90 | while nothing is lost, and program and heap keep their discipline, the live blocks are exactly those in the table or in hand, each once, with size and caller, also after failed frees and reallocations |
| HeapRuns.CallersAreChargedExactly | tools/diagnostics/heap-profile.js:35-44 | after any sequence of hook calls with named callers, whatever is lost: no two groups have one caller, and a caller is charged exactly the bytes and calls of the tracked blocks allocated for it, modulo 2^64, unless all groups belong to others, and then its blocks are counted as lost |
| HeapRuns.NamelessChargesArePassedOn | tools/diagnostics/heap-profile.js:35-44 | what is charged to a caller without a return address is taken over by the next caller that opens a group |
| HeapRuns.AtRestTheTableIsTheHeap | tools/diagnostics/heap-profile.js:17-90 | under the same discipline, with no operation under way the table is exactly the live blocks |
| HeapRuns.UndisturbedAlloc | tools/diagnostics/heap-profile.js:45-58 | in every state an allocation can be hooked: what it returns is added to the table, and is live from 8192 bytes on |
| HeapRuns.UndisturbedFree | tools/diagnostics/heap-profile.js:59-74 | so can a free: the block is taken, and given back if the heap did not free it |
| HeapRuns.UndisturbedRealloc | tools/diagnostics/heap-profile.js:75-90 | so can a reallocation, to a new address or the same one: the old block is taken, and the new one added or the old one given back |
| ConvertSamples.Int16To24InPlace | ASIOSDK/host/ASIOConvertSamples.cpp:789-809 | the backward loop gives the out-of-place result despite the overlap, for any frame count |
| ConvertSamples.Int24To32InPlace | ASIOSDK/host/ASIOConvertSamples.cpp:811-839 | the same, with the long assembled from sign-extended chars |
| ConvertSamples.Int16To32InPlace | ASIOSDK/host/ASIOConvertSamples.cpp:841-849 | the same, with a sign-extended short shifted up |
| ConvertSamples.Int24To16InPlace | ASIOSDK/host/ASIOConvertSamples.cpp:745-761 | the forward loop keeps each sample's most significant bytes and leaves the rest of the buffer |
| ConvertSamples.Int32To24InPlace | ASIOSDK/host/ASIOConvertSamples.cpp:763-787 | the same, by arithmetic shifts of a long |
| ConvertSamples.Int32To16InPlace | ASIOSDK/host/ASIOConvertSamples.cpp:731-743 | the same, by copying the upper short |
| ConvertSamples.NarrowingUndoesWidening | ASIOSDK/host/ASIOConvertSamples.cpp:731-849 | widening and then narrowing is the identity for 16-24, 24-32 and 16-32 |
| ConvertSamples.WideningUndoesNarrowing | ASIOSDK/host/ASIOConvertSamples.cpp:731-849 | the other order is the identity if and only if the dropped bytes were zero |
| ConvertSamples.WideningComposes | ASIOSDK/host/ASIOConvertSamples.cpp:789-849 | 16 to 24 to 32 equals 16 to 32 |
| ConvertSamples.AmplitudesScale | ASIOSDK/host/ASIOConvertSamples.cpp:731-849 | as numbers in two's complement: widening multiplies every sample by 256 a byte, narrowing divides it and rounds down |
| ConvertSamples.OneResult | ASIOSDK/host/ASIOConvertSamples.cpp:731-849 | input and frame count determine the whole buffer |
| ConvertSamples.ReverseEndian | ASIOSDK/host/ASIOConvertSamples.cpp:689-727 | the bytes of each sample of width 2, 3 or 4 are reversed; any other width does nothing |
| ConvertSamples.ReversedBytes | ASIOSDK/host/ASIOConvertSamples.cpp:689-727 | byte by byte: where each byte of a whole sample of two, three or four bytes ends up, and that no other byte moves |
| ConvertSamples.ReversingTwice | ASIOSDK/host/ASIOConvertSamples.cpp:689-727 | reversing is its own inverse for every width and count |
| ConfigCommit.Change.ApplyControls | src-tauri/src/application/service_config.rs:194-228 | the tracked controls stay equal to the live ones at every failure |
| ConfigCommit.Change.ApplyBridge | src-tauri/src/application/service_config.rs:89-104 | on success bridge, network session and running game mode are at the configuration |
| ConfigCommit.Change.Apply | src-tauri/src/application/service_config.rs:88-175 | which of restart, stop and live control is attempted, and what holds after each, in terms of whether audio is wanted; what that comes to is stated by `ConfigCommit.Change.Commit` |
| ConfigCommit.Change.Commit | src-tauri/src/application/service_config.rs:36-184 | for every pattern of failures: committed on disk and live, with audio stopped if it is switched off, as it was if it is not switched, and running if and only if it or the bridge ran if it is switched on, playing with the new gain, limiter and equalizer; or disk unchanged and, if the rollback succeeds, bridge, network session, request, controls and game mode as before; with no failure but the disk's, which of the two |
| ConfigCommit.RollbackLosesTheRequest | src-tauri/src/application/service_config.rs:36-59 | whenever audio was switched off and only the disk fails, the change is rolled back and a pending request is lost |
| ConfigPersistence.OneAtATimeInCallOrder | src/config-persistence.ts:8-12 | operations run one at a time, in call order, whether earlier ones succeed or fail |
| ConfigPersistence.CommittedReplacementsSilenceAutosaves | src/config-persistence.ts:23-31 | after a replacement commits, no automatic save queued before that ever writes |
| ConfigPersistence.RejectedSnapshotsAreNotRetried | src/config-persistence.ts:42-64 | after a snapshot is rejected, no queued automatic save of it ever writes |
| ConfigPersistence.UncancelledSavesOperate | src/config-persistence.ts:50-54 | nothing else cancels an automatic save |
| ConfigPersistence.OperationsAreCarriedOut | src/config-persistence.ts:8-40 | every call is queued last, an explicit operation is never skipped, its result is that of the operation, and the generation counts exactly the committed replacements |
| ConfigPersistence.EveryCallSettles | src/config-persistence.ts:8-12 | while a call is unsettled exactly one job can move, and each move brings the queue closer to settled |
| PluginScan.IndexCache | src-tauri/src/plugin_probe.rs:126-132 | the index holds each path's cached entries in order |
| PluginScan.Classify | src-tauri/src/plugin_probe.rs:136-181 | hits and lane work are those of the distinct candidates, in their order |
| PluginScan.SelectedAreTheFirsts | src-tauri/src/plugin_probe.rs:136-139 | the paths scanned are exactly the candidates whose file no earlier candidate is, in their order |
| PluginScan.Scan | src-tauri/src/plugin_probe.rs:118-221 | the listed entries are the hits, then the x86 lane's, then the other lane's, each in candidate order and with the architectures of its group |
| PluginScan.ScanAddsUp | src-tauri/src/plugin_probe.rs:118-206 | as a multiset the entries are what the distinct candidates contribute, each from the cache or from its lanes |
| PluginScan.HitsAreFresh | src-tauri/src/plugin_probe.rs:145-163 | a hit contributes exactly what probing the file now would find |
| PluginScan.ReusedExactlyWhenFound | src-tauri/src/plugin_probe.rs:143-163 | after any scan: a changed file is probed again, and an unchanged one is taken from the cache if and only if probing found something for each architecture it names |
| PluginScan.CacheIsTransparent | src-tauri/src/plugin_probe.rs:118-234 | with any earlier scan's result as cache, after any file changes, a scan finds what one without a cache would, and can itself serve as cache |
| PluginScan.UncachedScansAreFaithful | src-tauri/src/plugin_probe.rs:118-234 | an empty cache is as good as a forced retest |
| PluginLists.ListNamesTheGroup | src-tauri/src/plugin_probe.rs:206-221 | a list names exactly the group's architectures, x64 first, and each once if and only if equal ones besides x64 come together |
| PluginLists.ListIsStableExactlyWithOneOther | src-tauri/src/plugin_probe.rs:218-219 | the list function alone: it gives one list for every order of a group's entries if and only if there is at most one architecture besides x64 |
| PluginLists.CachedListsAgree | src-tauri/src/plugin_probe.rs:206-221 | cached and uncached scans list the same architectures for every entry, and in the same order under that condition |
| PluginLists.CachedListsAgreeExactlyWithOneOther | src-tauri/src/plugin_probe.rs:118-221 | a group's list is the uncached one under every cache an earlier scan of any files can have left, if and only if no two selected files hold probed entries of the group for different architectures besides x64 |
| PluginLists.SomeCacheReorders | src-tauri/src/plugin_probe.rs:118-221 | for any files and any group with two, an earlier scan of one of these files whose result, as cache, changes the list |
| PluginRepeats.ScanInOrder | src-tauri/src/plugin_probe.rs:134-204 | hits come first, then the x86 lane, then the other lane, each in the order of the paths |
| PluginRepeats.CachedListsNameOnceExactly | src-tauri/src/plugin_probe.rs:118-221 | a group's list names each architecture once under every cache an earlier scan of any files can have left, if and only if no two selected files hold one architecture where a third of another can come between |
| PluginRepeats.UncachedListsNameOnceExactly | src-tauri/src/plugin_probe.rs:118-221 | without a cache a group's list names each architecture once if and only if no file of another kind lies between two of one kind, none of them 32-bit |
| PluginRepeats.SomeCacheRepeats | src-tauri/src/plugin_probe.rs:118-221 | for any files that can come between, an earlier scan of one or two of them whose result, as cache, makes the list name an architecture twice |

## Left out

- Memory ordering: atomic operations interleave one at a time; weaker orders are not modelled.
- Generation counters and the profile's loss counter are unbounded; their wrap at 2^64 is not
  modelled.
- Telemetry, traces, metrics and drop counters other than the callback's own.
- MidiIngress: the plug-in's own handling of a system reset byte, route replacement while a
  send is under way, and SysEx, which never becomes a packet.
- MidiSounding.RunSounds: supposes that no reset comes and that the pending queue has room. What
  holds without that is `MidiIngress.NoStuckNotes`, and what a full queue gives up is
  `CallbackMidi.AdmissionRules`.
- MidiSounding.CallbackCanDrain: that the callback is called again and again is not claimed.
- MidiQueue: a capacity of zero, where the channel is a rendezvous; the asynchronous variant,
  whose semaphore plays the part of the permit count.
- SourceMidiState: 128-bit masks are sets of note numbers; the map's iteration order is arbitrary.
- CallbackGate.OpenGateAdmits: fairness under contention is not claimed; a weak exchange may
  fail for ever.
- Framing: JSON parsing of the payload; payloads are byte sequences.
- Playback.RunSchedule: instants and the performance counter are taken to be one clock with one
  origin, read at different moments; counter values stay below 2^64.
- CallbackRuns: what is rendered between two resets is a run of one block size; a change of block
  size or sample rate ends the claim about spacing.
- CallbackRuns.SubmittedEventsKeepTheSpacing: at each block the waiting packets are in order and
  not from before the block's start; what happens to others is `PlaybackLimits.BehindTheCursor`
  and `PlaybackLimits.OutOfOrder`.
- InputProfile: how configurations become profiles and which source has which; a profile may
  change at any event.
- Connection: a second connection playing a song of the same name shares its source; the theorem
  is about sources of different names. The server-wide shutdown reset uses a name of its own and
  releases nothing of a session's source.
- Connection: the handshake before the loop, which queues nothing, and the text of the replies.
- ConnectionRuns.EndingIsReleased: the threads can go on; that they are scheduled is not claimed.
- Connection.StoppingSilencesTheSource: assumes the 64 resets are admitted; one that is refused
  twice requests a global reset instead, which is not modelled here.
- HeapProfile: the mutex, by taking each hook as one step; the snapshot and its formatting.
- HeapRuns.TableMatchesTheHeap: assumes a program that gives up only what it was given, once,
  and a heap that hands out no live address. Frees that the hooks do not see break this; the
  counters and charges do not depend on it.
- HeapRuns.CallersAreChargedExactly: return addresses are not zero; what happens otherwise is
  `HeapRuns.NamelessChargesArePassedOn`.
- ConvertSamples: the big-endian branches, 64-bit longs, and the float conversions.
- ConfigCommit: gains and equalizer settings are opaque, and stand for the values after clamping;
  a stop that fails is only logged, so what is claimed of the running engine supposes that none did.
- ConfigCommit: the worker does not crash or recover on its own while a change is applied.
- ConfigPersistence: signatures stand for serialized snapshots; the set of accepted replacements.
- PluginScan: timeouts, probe panics, the walk over roots, and the final sort by name, which
  permutes the entries after their lists are made; names are compared after folding.
- PluginLists.CachedListsAgreeExactlyWithOneOther, and the conditions on repeated names: the
  order of candidates is the same in both scans; files offer x64 and x86 together or one
  architecture, as the detection returns them.
- PluginScan.CacheIsTransparent: supposes that a probe depends only on path, architecture and
  fingerprint, and labels what it finds with them.
- User interface, sockets, audio devices, plug-in loading and floating-point signal processing.
