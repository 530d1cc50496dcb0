# libultra: the compact MIDI sequencer, sound banks, archives and object files

This project models parts of the libultra sources and proves properties of the model.

**The compact MIDI sequencer** (`src/audio`). A timed event queue keeps its items in an intrusive
doubly linked list in which each item stores only its delay after the item before. A reader turns a
compressed MIDI file, with back-references, running status and loop counters inside the data, into
events, merging up to sixteen tracks by a table of deltas. A player takes one event after the other
from the queue, turns ticks into microseconds, schedules note-offs, and on a tempo change pulls every
note-off out of the live queue, rescales it and puts it back. The main results are that a song is
played on time and that no tempo change loses a tick.

**The sound bank loader** (`src/audio/bnkf.c`) turns the offsets of a shared graph of objects into
addresses, in place, each exactly once.

**The archive and object-file tools** (`tools`). An archive writer with an index that is filled in
afterwards, the reader for it, an in-place patcher that walks what it edits, and an ELF file taken
apart, put together again and laid over the bytes of another file.

## How it is built

Code that changes things in place is a class or a method here, with loops and heap nodes or buffers
as in the source, and each method is proved equal to a function on values. What the source promises is
then proved about those functions, for all inputs and for whole runs.

| files | what they hold |
|---|---|
| `Machine`, `AudioEvents` | integer widths, the events of the audio library |
| `DeltaList`, `Retiming`, `VoiceEvents`, `Views` | the queue as a list of delays, its edits, and what they mean in absolute time |
| `ItemLists`, `QueueSteps`, `EventQueue` | the queue on heap nodes |
| `TrackReader`, `Decompression`, `TrackFrames`, `TrackRuns` | one track: bytes, quantities, events, and what reading them depends on |
| `Loops`, `LoopTermination` | loops with their counters in the data |
| `Sequencer`, `Merge`, `MergeRuns`, `Markers`, `WholeSongs`, `MarkerData`, `CompactSequence` | a whole sequence, on values and as a class |
| `Player`, `VoiceStates`, `QuietSteps`, `PlayerInvariant`, `OnTime`, `Frames`, `NoDrift`, `NoteTiming`, `EndToEnd` | the player as a state machine, and what holds over its runs |
| `CompactPlayer` | the player as a class over a queue and a sequence |
| `BankFile` | the bank loader |
| `ArText`, `ArImage`, `ArRoundTrip`, `ArIndex`, `Archive`, `ArPatch` | archives |
| `ElfFormat`, `ElfImage`, `ElfOverlay`, `ElfFile` | ELF files |

Memory is a sequence or an array of bytes and a pointer an index into it. The widths of the C integers
are subset types, and every store into one is a proof that the value fits. Where the C code would read
outside its memory, fail an assertion or leave the range of its integers, a function yields `None`;
where the Python code raises an exception, too.

What the player gets from its surroundings while it handles an event is a parameter (`Player.Answer`):
the sound found for a note, the delays of the oscillators, the microseconds per tick of a tempo, and
the sequence that a sequence event refers to. A run (`Player.RunPlayer`) interleaves rounds of the
handler with calls from the application in any order.

## What the proofs turned up

- A tempo change keeps a note-off at its tick exactly when the delay is a multiple of the old
  microseconds per tick. Tempo events of the sequence come at ticks, so they are always exact; a tempo
  set from outside is exact if and only if every pending note-off is a whole number of ticks away
  (`NoteTiming.TempoIsExactOnBeat`, `NoteTiming.OffBeatExample`).
- `alCSeqSetLoc` does not restore the delta flag. With the wrong flag the next event, and every run, is
  the captured one if and only if the last delta was 0 (`Markers.ReplaysIff`, `Markers.RunReplaysIff`,
  `MarkerData.FlagExample`).
- `alCSeqNewMarker` reads on the data of the sequence itself, loop counters included. For tracks as they
  were composed it leaves them as they were if and only if no track, read as far as the ticks (and one
  event further where the search stops), stands in a later pass of any loop than its first
  (`MarkerData.MarkerKeepsDataIff`, `Loops.TrackKeepsIff`): outside loops it always does, and inside
  one it need not (`MarkerData.LoopExample`).
- The sequencer reads one more delta behind the end of the last track. With a readable one behind the
  track that ends last, every song whose tracks end can be played to its end (`WholeSongs.SongEnds`).
- A tempo set from outside does not move the sequence reference that is queued: the next event of the
  sequence still comes at the tempo in force when it was posted (`NoDrift.NeverDrifts`).
- A back-reference with length 0 stands for 256 bytes, because the length is an unsigned byte that is
  decremented before it is tested again (`Decompression.ReaderExpands`).
- A stop posted at the end of the queue is last only while the queue spans no more than
  `AL_EVTQ_END` (`DeltaList.PlaceLastOnlyIf`); the player's delays keep to that
  (`PlayerInvariant.RunsAreSane`).
- The frame event is pending in a reachable state if and only if an item was free whenever it was
  handled (`Frames.FramePendingIff`), and as long as it is, no round finds the queue empty
  (`Frames.QueueNeverEmpty`). If not, it is gone for good, and the handler's loop can come to a state
  that it does not leave (`Frames.FilledRunsOut`), as a comment at src/audio/event.c:60-64 fears.
- The null tests of the bank loader on array entries come after the addition, so they do not see null
  entries (`BankFiles.NullTestIsLate`), and a second load moves the bank array twice
  (`BankFiles.LoadedOnce`).
- A section of an object file that runs past the end of the file has the size in its header corrected,
  and no other section has (`ElfOverlay.HeaderIsKeptIff`); nothing else of a compiled file is lost
  (`ElfOverlay.OverlayIs`).
- An archive member whose name is empty, begins with a slash or a blank, or is long and holds a line
  break does not come back; every other does (`ArRoundTrip.MemberComesBack`). One such name spoils the
  whole archive, since a member with the name of an index is taken for one (`ArRoundTrip.ImageComesBack`).

## Model

| member | source | states |
|---|---|---|
| `ItemLists.Link` | src/audio/sl.c:45-52 | writes exactly the links that insertion behind an item needs, in the items' memory |
| `ItemLists.Unlink` | src/audio/sl.c:54-60 | writes exactly the links that removal of an item needs |
| `ItemLists.LinkingInserts` | src/audio/sl.c:45-52 | linking into a doubly linked list gives the doubly linked list with the item behind the given one |
| `ItemLists.UnlinkingDeletes` | src/audio/sl.c:54-60 | unlinking gives the list without the item, still linked both ways |
| `EventQueues.EventQueue.constructor` | src/audio/event.c:26-39 | the queue is empty and every given item is free |
| `EventQueues.EventQueue.NextEvent` | src/audio/event.c:41-72 | hands out the first event and its delay and frees its item; an empty queue hands out the type -1 with no delay |
| `EventQueues.EventQueue.PostEvent` | src/audio/event.c:74-125 | on the heap: the contents become those of the delta list with the event placed; without a free item nothing changes |
| `EventQueues.EventQueue.Flush` | src/audio/event.c:127-144 | empties the queue and frees every item |
| `EventQueues.EventQueue.FlushType` | src/audio/event.c:150-176 | removes the events of one type and hands their delays on, on the heap |
| `EventQueues.EventQueue.ItemsAreSharedOut` | src/audio/event.c:26-176 | in every valid state each item is on exactly one of the free and allocated lists, once |
| `DeltaList.AbsSorted` | src/audio/event.c:74-125 | delays relative to the item before always describe times in order, up to the sum of the delays |
| `DeltaList.AbsInjective` | src/audio/event.c:74-125 | the absolute times determine the stored delays: the two views carry the same information |
| `DeltaList.InsertIsStable` | src/audio/event.c:99-121 | insertion in absolute time puts an event behind all events due no later and before all later ones; equal times stay first in, first out |
| `DeltaList.PlaceRefines` | src/audio/event.c:99-121 | the walk with its local delta edits is stable insertion in absolute time |
| `DeltaList.PlaceLast` | src/audio/event.c:96-106 | an event posted with AL_EVTQ_END lands last, at the time of the event that was last, if the queue spans no more than that delay |
| `DeltaList.PlaceLastOnlyIf` | src/audio/event.c:110-116 | and if the queue spans more, AL_EVTQ_END is an ordinary delay |
| `DeltaList.RemoveRefines` | src/audio/event.c:160-173 | removing events, adjacent ones included, moves no survivor in absolute time and keeps the order |
| `DeltaList.KeepIsFilter` | src/audio/event.c:165-171 | exactly the matching events go; every other stays as often as it was there |
| `EventQueues.EventQueue.RetimeNoteOffs` | src/audio/csplayer.c:794-830 | the two loops of a tempo change, in place on the live list, compute the retimed delta list and lose no item |
| `EventQueues.EventQueue.RepostEvent` | src/audio/csplayer.c:835-863 | an item in hand is linked back in at its delay, on the heap |
| `Retiming.RetimeKeepsOthers` | src/audio/csplayer.c:794-830 | across a tempo change every event that is not a note-off keeps its absolute time and its order |
| `Retiming.RetimeMovesNoteOffs` | src/audio/csplayer.c:822-830 | the note-offs afterwards are the note-offs before, each at (delay / old) * new: none lost, none twice |
| `QuietSteps.RetimeConserves` | src/audio/csplayer.c:794-830 | a tempo change keeps the number of queued items and the bound on the delays |
| `NoteTiming.TempoIsExactOnBeat` | src/audio/csplayer.c:794-830 | a tempo set from outside moves all pending note-offs to the times of their ticks if and only if each is a whole number of ticks away |
| `NoteTiming.OffBeatExample` | src/audio/csplayer.c:826-827 | a player with a note-off 2.9 ticks away, and the frame event behind it, for which a tempo change leaves it 2 ticks away |
| `CompactSequence.CSeq.GetTrackByte` | src/audio/cseq.c:333-381 | reads the byte that the value function gives, and changes only its own track's position |
| `CompactSequence.CSeq.ReadVarLen` | src/audio/cseq.c:383-399 | reads the quantity that the value function gives; its loop ends |
| `CompactSequence.CSeq.GetTrackEvent` | src/audio/cseq.c:136-244 | reads the event, changes the loop counter in the data, and toggles the track's valid bit at its end |
| `Decompression.ReaderExpands` | src/audio/cseq.c:333-381 | successive byte reads deliver exactly the whole expansion of the compressed bytes and end behind them with no section left over |
| `Decompression.ReaderExpandsPrefix` | src/audio/cseq.c:333-381 | any shorter read delivers the beginning of the expansion |
| `Decompression.ReadVarLenDecodes` | src/audio/cseq.c:383-399 | an encoded quantity below 2^32, however its bytes are stored, is read as that quantity, and no byte more is taken |
| `TrackFrames.GetEventFrame` | src/audio/cseq.c:136-244 | reading an event depends only on the bytes of the track's area, and writes only loop counters in it |
| `Loops.LoopRuns` | src/audio/cseq.c:177-200 | a loop with current count c below 0xFF plays its body c + 1 times, after which the counter holds the stored count again |
| `Loops.LoopRunsForever` | src/audio/cseq.c:187-197 | a loop with current count 0xFF plays its body as often as one reads on |
| `Loops.TrackPlays` | src/audio/cseq.c:170-200 | a track of nested loops plays its unrolled events, inner loops in full on each outer pass, and leaves every counter as it was |
| `Loops.TrackKeepsIff` | src/audio/cseq.c:177-200 | a composed track read up to any of its events has left its data as they were if and only if it stands outside all its loops, or in the first pass of each loop it is in, before the end of that pass |
| `LoopTermination.PassFurther` | src/audio/cseq.c:136-244 | with finite counts, every event lowers a measure over the loop counters ahead and the bytes ahead, whatever the bytes are |
| `LoopTermination.RunsAreFinite` | src/audio/cseq.c:136-244 | so every run of such a track is a beginning of one finite list of events |
| `LoopTermination.AllItemsIsARun` | src/audio/cseq.c:136-244 | and that list itself is a run |
| `CompactSequence.CSeq.constructor` | src/audio/cseq.c:31-61 | builds the sequence that the file header describes, each used track behind its first delta |
| `CompactSequence.CSeq.NextEvent` | src/audio/cseq.c:63-100 | one call changes the whole sequence state, its data included, as the value function says and returns its event |
| `CompactSequence.CSeq.NextDelta` | src/audio/cseq.c:108-133 | answers the ticks to the next event, bringing the table up to date |
| `Sequencer.PickIsFirst` | src/audio/cseq.c:77-89 | the scan finds the least entry, and among equal ones the lowest track |
| `Sequencer.NextDeltaPredicts` | src/audio/cseq.c:108-133 | asking for the next delta, any number of times, leaves the next event as it is and gives its ticks |
| `Merge.TableShowsDue` | src/audio/cseq.c:77-89 | after the lazy subtraction each entry is how far away that track's next event is |
| `Merge.MergeStep` | src/audio/cseq.c:63-100 | each call delivers the next event of the merge of the tracks by absolute tick, ties to the lower track, at no earlier tick than the last |
| `MergeRuns.RunMerges` | src/audio/cseq.c:31-100 | over any run from the start, what is delivered is a beginning of the merge, and lastTicks is its absolute tick |
| `MergeRuns.TableStaysInRange` | src/audio/cseq.c:81-97 | the u32 subtraction never goes below zero, and entries stay small enough for the next sum |
| `MergeRuns.EndsAreCounted` | src/audio/cseq.c:158-169 | k tracks give k - 1 track ends and one sequence end, which is last |
| `WholeSongs.NextCanBeRead` | src/audio/cseq.c:63-100 | while a track is left the next event can be read, if behind the end of the last track a delta can |
| `WholeSongs.LastLeft` | src/audio/cseq.c:158-169 | the track that is left when all others have ended is the one whose end has the greatest tick, of equal ones the highest number |
| `WholeSongs.SongEnds` | src/audio/cseq.c:63-100 | with a delta behind the end of the track that ends last: some run delivers every event of every track, each at its own tick, in the order of the merge, and the sequence end as its last event and only there |
| `WholeSongs.FiniteSongEnds` | src/audio/cseq.c:170-200 | a song whose loops have finite counts is such a song: each of its tracks ends |
| `CompactSequence.CSeq.NewMarker` | src/audio/cseq.c:264-294 | returns the marker that the search on the value finds, and leaves the shared data as that search does |
| `WholeSongs.MarkerCanBeMade` | src/audio/cseq.c:271-292 | in a song that ends the search ends, for any ticks, and a larger bound finds the same marker |
| `MarkerData.SearchReads` | src/audio/cseq.c:271-292 | the search reads of each track the events before the ticks, and on the track that comes first in the merge one event more |
| `MarkerData.MarkerKeepsDataIff` | src/audio/cseq.c:264-294 | making a marker leaves the shared data of a composed song as they were if and only if each track, read that far, stands outside its loops or in their first passes; all told from the composition and the ticks |
| `MarkerData.LoopExample` | src/audio/cseq.c:170-200 | a file with a loop, and a marker in it, whose making lowers the loop counter |
| `CompactSequence.CSeq.SetLoc` | src/audio/cseq.c:296-312 | sets every field of the marker and leaves the delta flag and the data alone |
| `CompactSequence.CSeq.GetLoc` | src/audio/cseq.c:314-330 | copies every field of the place |
| `Markers.SearchFinds` | src/audio/cseq.c:271-292 | a marker is the state just before the first event at or after the ticks asked for, or before the sequence end |
| `Markers.SearchReaches` | src/audio/cseq.c:271-292 | if there is such an event, the search finds it |
| `Markers.ReplaysSame` | src/audio/cseq.c:296-312 | with the delta flag as at the capture, setting a marker reproduces every run from there |
| `Markers.ReplaysIff` | src/audio/cseq.c:296-312 | with the other delta flag, the next event after setting a marker is the captured one, with all it leaves behind, if and only if the last delta at the capture was 0 |
| `Markers.RunReplaysIff` | src/audio/cseq.c:296-312 | and so is every longer run |
| `MarkerData.FlagExample` | src/audio/cseq.c:108-133 | a file, played for two events, on which asking for the next delta and setting a marker brings the next event one tick early |
| `Markers.MarkerReplays` | src/audio/cseq.c:264-312 | with no loop end up to the place found, a marker set on a sequence that stands behind an event goes on exactly as a fresh sequence does from there: every run of every length, the sequence end included |
| `CompactPlayer.CSPlayer.constructor` | src/audio/csplayer.c:59-121 | a stopped player with all items and voices free and the frame event in hand |
| `CompactPlayer.CSPlayer.Iterate` | src/audio/csplayer.c:137-334 | one round of the handler, on the real queue and the real sequence, does what the value function says to the whole state |
| `CompactPlayer.CSPlayer.Dispatch` | src/audio/csplayer.c:138-325 | every case of the switch, the assertions included |
| `CompactPlayer.CSPlayer.Advance` | src/audio/csplayer.c:326-335 | takes the next event and moves the clock by its delay |
| `CompactPlayer.CSPlayer.PostNextSeqEvent` | src/audio/csplayer.c:348-363 | posts a sequence reference at the ticks to the next event times the microseconds per tick, while playing |
| `CompactPlayer.CSPlayer.HandleNextSeqEvent` | src/audio/csplayer.c:373-417 | reads one event of the sequence, handles it and posts the next reference, or begins to stop at the end |
| `CompactPlayer.CSPlayer.HandleMidi` | src/audio/csplayer.c:419-773 | MIDI messages as far as they concern voices, pedals and the queue |
| `CompactPlayer.CSPlayer.StartNote` | src/audio/csplayer.c:466-577 | maps a voice and posts its oscillators, envelope and note-off, in that order |
| `CompactPlayer.CSPlayer.EndNote` | src/audio/csplayer.c:588-602 | a sustained note waits for the pedal, any other is released |
| `VoiceStates.PedalStates` | src/audio/csplayer.c:665-697 | a pedal holds each sounding voice of its channel, or stops holding it, or lets it go if its note has ended, and touches no other voice |
| `OnTime.PedalReleases` | src/audio/csplayer.c:683-695 | a voice that waits for the pedal gets one note end, after its release time, and no other voice gets any |
| `CompactPlayer.CSPlayer.SetTempo` | src/audio/csplayer.c:786-831 | sets the microseconds per tick and retimes the live queue |
| `CompactPlayer.CSPlayer.BeginStopping` | src/audio/csplayer.c:255-286 | flushes three types, kills the voices and posts the stop at the end of the queue |
| `CompactPlayer.CSPlayer.StopVoices` | src/audio/csplayer.c:231-241 | stops and unmaps voices until none is allocated |
| `VoiceStates.MapVoiceTakes` | src/audio/seqplayer.c:804-828 | a note takes the first free voice, which goes to the end of the allocated list with the key, the channel and the release time of the note, held if the pedal is down; no other voice changes |
| `CompactPlayer.CSPlayer.UnmapVoice` | src/audio/seqplayer.c:830-862 | moves a voice from the allocated to the front of the free list |
| `VoiceStates.LookupFindsFirst` | src/audio/seqplayer.c:864-875 | the search finds the first voice of the list that sounds with that key and channel, and nothing exactly if there is none |
| `CompactPlayer.CSPlayer.ReleaseVoice` | src/audio/seqplayer.c:991-1035 | drops the pending envelope of a voice in its attack and posts its note end |
| `CompactPlayer.CSPlayer.KillVoice` | src/audio/seqplayer.c:1055-1103 | a voice whose note end is due within the kill time is left alone, any other gets one then |
| `CompactPlayer.CSPlayer.StopOscillators` | src/audio/seqplayer.c:1182-1212 | takes out a voice's oscillator events, and stops looking when no flag is left |
| `VoiceEvents.StopOscStopsAll` | src/audio/seqplayer.c:1182-1212 | the early end leaves no oscillator event behind when each flagged oscillator has at most one queued |
| `VoiceEvents.UnlinkedRefines` | src/audio/seqplayer.c:1080-1086 | taking out one event moves no other in absolute time |
| `CompactPlayer.CSPlayer.SendMidi` | src/audio/cspsendmidi.c:23-39 | posts a MIDI message without duration after the given ticks |
| `CompactPlayer.CSPlayer.ChangeTempo` | src/audio/cspsettempo.c:23-35 | posts a tempo message with the three bytes of the tempo |
| `PlayerInvariant.RunsAreSane` | src/audio/csplayer.c:137-417 | in every reachable state: at most one sequence reference is pending and none unless playing; a stopped player has no voice allocated; no event of the types that the handler asserts never to see arrives (a sequence set while playing, or a bank unless stopped, may arrive and ends the run modelled); items and voices are conserved |
| `PlayerInvariant.DispatchSettled` | src/audio/csplayer.c:138-325 | dealing with any event in hand keeps that invariant |
| `PlayerInvariant.BeginStoppingSettled` | src/audio/csplayer.c:255-286 | so does stopping, after which no sequence reference is queued |
| `OnTime.PostedPending` | src/audio/event.c:74-125 | a post adds the event once, for its delay from now or for the time of the last event if posted at the end, and leaves every other event as often as it was |
| `OnTime.DispatchGrows` | src/audio/csplayer.c:138-325 | no handler takes out or moves any event, of any kind and any multiplicity, unless the state before says so: a flush when a playing player is stopped, a released or stopped voice for its own events, a new tempo for note-offs |
| `OnTime.DispatchedOnTime` | src/audio/csplayer.c:326-335 | over any run that does not disturb it so, every event whose time has passed was taken in hand at exactly that time, equal events as often as they were pending |
| `OnTime.PostedIsDispatched` | src/audio/csplayer.c:326-335 | an event of any kind posted with delay d at time t is dispatched at t + d, unless flushed, retimed, or ended with its voice |
| `Frames.FrameEventComesBack` | src/audio/csplayer.c:144-147 | the frame event is pending again one frame later if an item is free when it is handled |
| `Frames.FramePendingIff` | src/audio/csplayer.c:137-335 | in every reachable state the frame event is pending, once, if and only if an item was free whenever it was handled |
| `Frames.QueueNeverEmpty` | src/audio/csplayer.c:326-335 | so no round of a run finds the queue empty, unless it loses the frame event itself |
| `Frames.FilledRunsOut` | src/audio/event.c:60-64 | with any number of items, as many calls before the first round use them up, the frame event is lost, and the rounds lead to a state that no round leaves |
| `NoDrift.OthersKeepDue` | src/audio/csplayer.c:138-325 | while playing, no other event or call, a tempo set from outside included, changes when the next sequence event is due |
| `NoDrift.SequenceStep` | src/audio/csplayer.c:373-417 | after a sequence event, the next one is due its ticks later at the tempo then in force |
| `NoDrift.MidiLeavesRoom` | src/audio/csplayer.c:419-773 | a note-on takes at most four items, a note end one, a pedal one for each allocated voice, and any other message none; so one is left for the next reference where there is room |
| `NoDrift.NeverDrifts` | src/audio/csplayer.c:137-417 | for any sequence and any interleaving of other events and calls: the sequence events are handled in order, each its ticks times the microseconds per tick that the one before left in force; a tempo set from outside in between counts from the next event on |
| `NoDrift.NextIsOnTime` | src/audio/csplayer.c:373-417 | the event about to be handled comes on time too, the sequence end included |
| `NoDrift.TimesAreSums` | src/audio/csplayer.c:348-363 | the same as one sum from the play event on |
| `EndToEnd.SongIsPlayedOnTime` | src/audio/csplayer.c:348-417 | from a sequence file to the player: what is handled is a beginning of the merge of the file's tracks, each event at the sum of its ticks at the tempos in force |
| `EndToEnd.SongEndsOnTime` | src/audio/csplayer.c:373-417 | the sequence end is handled at the time of all ticks up to it, and with it every track has been delivered in full |
| `EndToEnd.ClockCountsTicks` | src/audio/csplayer.c:373-417 | the ticks the player's clock counts are the absolute ticks of that merge |
| `NoteTiming.RetimeMoves` | src/audio/csplayer.c:794-830 | a tempo change maps the pending note-offs, as a multiset of times, to the rescaled ones |
| `NoteTiming.NewTempoKeepsTick` | src/audio/csplayer.c:822-830 | on the beat, a rescaled note-off sits at the new time of the same tick |
| `NoteTiming.SequenceNotes` | src/audio/csplayer.c:373-417 | one sequence event keeps every pending note-off at its tick, and adds the new note's at its tick plus its duration |
| `NoteTiming.NoTickIsLost` | src/audio/csplayer.c:564-577 | for any sequence and any interleaving without a tempo from outside, the note-offs dispatched and pending are those of the notes started, each at exactly the tick of its note-on plus its duration, across any number of tempo changes |
| `NoteTiming.PendingEndsOnBeat` | src/audio/csplayer.c:201-204 | a note-off pending behind such a run is due at the time of a tick, and whatever comes next that does not disturb it, the sequence end included, dispatches it at that time |
| `NoteTiming.EveryNoteEnds` | src/audio/csplayer.c:201-204 | so every note started ends at the tick of its note-on plus its duration, in the run or behind it |
| `NoteTiming.EndsOnTheTick` | src/audio/csplayer.c:201-204 | a note-off in hand comes at the time of its tick by the clock of the last sequence event, and no sequence event was due before |
| `BankFiles.BankFile.PatchWaveTable` | src/audio/bnkf.c:122-143 | an unmarked wavetable moves, its base by the table offset and its book and loop by the file offset; a marked one stays |
| `BankFiles.BankFile.PatchSound` | src/audio/bnkf.c:108-120 | an unmarked sound and its wavetable move; a marked one leads nowhere |
| `BankFiles.BankFile.PatchInst` | src/audio/bnkf.c:91-106 | an instrument and all its sounds and wavetables move, each once, however often it is listed |
| `BankFiles.BankFile.PatchBank` | src/audio/bnkf.c:69-89 | a bank, its percussion and its instruments move with all below them, whatever they share |
| `BankFiles.BankFile.Load` | src/audio/bnkf.c:47-67 | for any sharing and any marks: exactly the unmarked objects reached from the bank array move, once, and are marked, and everything else stays; another revision changes nothing |
| `BankFiles.WavesOfRest` | src/audio/bnkf.c:108-120 | what is loaded already leads nowhere a second time |
| `BankFiles.LoadedTwice` | src/audio/bnkf.c:91-143 | loading a set of instruments in two parts is loading it at once |
| `BankFiles.ReferencesArrive` | src/audio/bnkf.c:47-120 | every reference that a load moves arrives at an object that is there and marked: from the array of banks, the banks, the instruments and the sounds |
| `BankFiles.LoadedOnce` | src/audio/bnkf.c:47-67 | a second load moves no marked object again, but moves the entries of the bank array again unless the offset is 0 |
| `BankFiles.NullTestIsLate` | src/audio/bnkf.c:63-65 | the null test on an array entry passes every null entry and stops only the one that wraps around to 0 |
| `ArText.NumberOfDigits` | tools/ar.py:70-88 | a number written in decimal or octal is read back |
| `ArText.FieldIsStripped` | tools/ar.py:70-75 | a text that fits its field comes back when the field is stripped |
| `ArRoundTrip.HeaderIsRead` | tools/ar.py:81-88 | a header that fits its fields is read back field by field |
| `ArRoundTrip.LongNameIsFound` | tools/ar.py:137-149 | a long name is found in the string table at the place its header gives, the extra entry notwithstanding, if and as far as it holds no line break |
| `ArRoundTrip.MemberComesBack` | tools/ar.py:246-255 | a member that fits its fields comes back as it was if and only if its name is a good one: short and not empty, not beginning with a slash or a blank, or long and without a line break |
| `ArRoundTrip.ImageComesBack` | tools/ar.py:65-261 | for any members that fit their fields, reading the image that is built gives back all of them, with names, times, owners, modes, sizes and data, if and only if every name is a good one |
| `ArIndex.IndexIsRead` | tools/ar.py:115-121 | slots and names of the index line up |
| `ArIndex.SlotFindsOwner` | tools/ar.py:157-169 | for any files: every slot, read from the bytes of the image, is the even position of the header of the member that defines its symbol, and the data of that member follow |
| `ArIndex.IndexInImage` | tools/ar.py:104-128 | if no name holds a zero, all slots with their names are read from the image, in line |
| `ArIndex.SlotIsReadAsOwner` | tools/ar.py:178-202 | if the fields of the owner fit, what is read at the slot is its header |
| `Archives.Archive.BuildImage` | tools/ar.py:65-171 | the growing buffer, patched as it goes, ends as the specified image; a name or a position that cannot be encoded is refused |
| `Archives.Archive.FillSlots` | tools/ar.py:166-169 | patching the slots of one member gives the image with those slots |
| `Archives.Archive.FromImage` | tools/ar.py:179-261 | the walk reads what the specification reads, and refuses what it refuses |
| `Archives.BuiltPatched` | tools/ar.py:167-168 | writing four bytes into the buffer is writing one slot of the index |
| `ArPatch.PatchInPlace` | tools/patch_ar_meta.py:8-65 | the buffer, overwritten while it is walked, ends as the specified image |
| `ArPatch.PatchKeeps` | tools/patch_ar_meta.py:47-65 | length, positions, name fields, sizes and contents stay, and nothing but the times of the index and the owners and modes of members changes |
| `ArPatch.PatchedArchiveIsRead` | tools/patch_ar_meta.py:26-65 | a patched archive is read as the same members in the same order with the new metadata, if the new fields are numeric, the two times agree and the index comes first |
| `ElfFormat.PackedFields` | tools/libelf.py:498-511 | packing what was unpacked gives the same bytes, for any layout |
| `ElfFormat.UnpackedFields` | tools/libelf.py:498-511 | unpacking what was packed gives the same values, if they fit their fields |
| `ElfFormat.HeaderComesBack` | tools/libelf.py:498-511 | an ELF header that parses is written back byte for byte |
| `ElfFormat.ProgramHeaderComesBack` | tools/libelf.py:597-611 | and a program header |
| `ElfFormat.SectionHeaderComesBack` | tools/libelf.py:783-814 | and a section header |
| `ElfFormat.SymbolComesBack` | tools/libelf.py:654-675 | and a symbol, whose info byte is taken apart and joined |
| `ElfFormat.RelocationComesBack` | tools/libelf.py:708-727 | and a relocation of either kind, whose info word is taken apart and joined |
| `ElfOverlay.SymbolsComeBack` | tools/libelf.py:879-893 | a symbol table rebuilt from its entries is the section's data |
| `ElfOverlay.RelocationsComeBack` | tools/libelf.py:962-977 | relocations rebuilt from their entries are the section's data |
| `ElfOverlay.CutComesBack` | tools/libelf.py:879-977 | and of a section that runs past the end what is left of its data, tables included, if it can be read |
| `ElfOverlay.SectionComesBack` | tools/libelf.py:810-814 | a section that lies in its file keeps its header and its data |
| `ElfOverlay.HeaderIsKeptIff` | tools/libelf.py:810-814 | the header written for a section is that of the file if and only if the section does not run past the end of it |
| `ElfFiles.Load` | tools/libelf.py:1055-1111 | the loops of the constructor yield the parsed file, or fail where it fails |
| `ElfFiles.Fix` | tools/fix_objfile.py:15-42 | the loops over the result buffer yield the specified overlay |
| `ElfOverlay.OverlayIs` | tools/fix_objfile.py:15-42 | for any compiled file that parses: the result is as long as it, is the compiled file on all headers and sections, overlapping or not, but for the header sizes of sections that run past its end, and the original, or zero where that is shorter, everywhere else |

## Left out

- Floating point: tempo to microseconds per tick (the `qnpt` product), ticks to seconds and back, cents to ratios and pitch bends; the microseconds per tick of a tempo are a parameter.
- Synthesiser calls, volumes, pans, effects, envelope gains and the values of oscillators; only what these events do to the queue and to voice states is modelled.
- The instrument and sound lookup (`__lookupSoundQuick`) is a parameter, and of the channel states only the sustain pedals are kept; the percussion case of `__initFromBank` (src/audio/seqplayer.c) resets one channel past the last and is not modelled.
- Interrupt masking: each queue operation and each round of the handler is one step.
- The handler as a whole: its loop over rounds need not end, so single rounds and runs of any number of them are modelled.
- The voice lists are sequences of voice numbers and the voice states a map, not linked nodes; aliasing among voices is not captured.
- An application that changes a playing sequence behind the player's back (for example by setting a marker) is not part of a run.
- Meta events other than tempo, end of track, loop start and loop end leave the caller's event as it was; reading one is undefined here. Fields of an event that the source leaves unset are 0.
- A tempo that leaves 0 microseconds per tick: the next tempo change would divide by zero, and is undefined here.
- NoDrift.NeverDrifts: assumes at least five free items, and one more than there are allocated voices, when a sequence event is handled, because a post without a free item is dropped; and no delay equal to `AL_EVTQ_END`, which asks for the end of the queue.
- NoteTiming.NoTickIsLost: assumes the same, and that no tempo is set from outside and the note-offs already pending when playing starts are on the beat.
- MergeRuns.RunMerges: assumes deltas below 2^31, since a sum of two larger ones leaves 32 bits.
- Markers.SearchFinds: bounds the number of events the search reads, since a loop without end and without ticks would keep it busy; `WholeSongs.MarkerCanBeMade` says when there is such a bound.
- CompactSequence.CSeq.NewMarker: is given that bound, for the same reason.
- MarkerData.MarkerKeepsDataIff: is about tracks made of events and of loops with finite counts, nested in any way, with fewer than 2^32 ticks in all; a loop that goes on for ever can only be the last of its track.
- BankFiles.BankFile.Load: needs every address reached to be in the file, so that null entries in arrays are excluded.
- `alSeqFileNew`, the bump heap, getters and setters, the driver list, and calls that only post a control change (they are `SendMidi` with no ticks).
- Archives.Archive.FromImage: numbers with signs or underscores, which Python's integer parser accepts, are read as errors.
- ArPatch.PatchInPlace: the same for sizes.
- CompactPlayer.CSPlayer.HandleMidi: volumes, pans, pressures, effects, programs and bends have no effect, since they reach only the synthesiser and the choice of sounds.
- ElfFiles.Load: the contents of a `.mdebug` section are not parsed, so a file that is rejected for them is accepted here.
- The list of global symbols of an archive member is a function of its bytes; names that are not ASCII are refused as the encoder does, and symbol names are taken as bytes.
- File reading and writing, command lines, printing, and the flag of tools/fix_objfile.py that changes section flags.
