// Whole runs of the sequencer of src/audio/cseq.c.
module MergeRuns {
  import opened Machine
  import opened TrackReader
  import opened TrackFrames
  import opened TrackRuns
  import opened Sequencer
  import opened Merge

  // n calls of alCSeqNextEvent.
  datatype Run = Run(steps: seq<SeqStep>, last: Sequence)

  function RunOf(s: Sequence, n: nat): (r: Option<Run>)
    requires s.WellFormed()
    ensures r.Some? ==> r.value.last.WellFormed() && |r.value.steps| == n
    decreases n
  {
    if n == 0 then Some(Run([], s))
    else
      var before :- RunOf(s, n - 1);
      var step :- NextEvent(before.last);
      Some(Run(before.steps + [step], step.next))
  }

  // The absolute tick of the last event.
  function Now(steps: seq<SeqStep>): nat {
    if steps == [] then 0 else Now(steps[..|steps| - 1]) + steps[|steps| - 1].ticks
  }

  // Every event with its absolute tick and the track it came from.
  function LogOf(steps: seq<SeqStep>): seq<Logged> {
    if steps == [] then []
    else
      var last := steps[|steps| - 1];
      LogOf(steps[..|steps| - 1]) + [Logged(Now(steps), last.track, last.item)]
  }

  // The song is the sequence file at `base`, track by track.
  ghost predicate Starts(song: Song, base: nat)
    requires song.WellFormed()
  {
    forall i :: 0 <= i < TRACKS ==>
      var offset := ReadWord(song.mem, base + 4 * i);
      && offset.Some? && (i in song.used <==> offset.value != 0)
      && song.starts[i] == Track(base + offset.value, 0, 0, 0, 0)
  }

  lemma {:induction false} NewTrackAt(mem: Bytes, base: nat, n: nat, i: nat)
    requires i < n && NewTracks(mem, base, n).Some?
    ensures NewTrack(mem, base, i).Some?
    ensures var (valid, tracks) := NewTracks(mem, base, n).value;
      NewTrack(mem, base, i) == Some((i in valid, tracks[i]))
    decreases n
  {
    if i < n - 1 {
      NewTrackAt(mem, base, n - 1, i);
    }
  }

  // alCSeqNew stands at the beginning of the merge.
  lemma NewIsMerged(song: Song, base: nat, s: Sequence) returns (counts: seq<nat>)
    requires Proper(song) && Starts(song, base) && New(song.mem, base) == Some(s)
    ensures s.valid == song.used && |counts| == TRACKS && Merged(song, s, [], counts, 0)
  {
    hide ReadVarLen, GetEvent, NewTracks, Playable, ReadWord;
    counts := seq(TRACKS, _ => 0);
    forall i: nat | i < TRACKS
      ensures i in s.valid <==> i in song.used
      ensures i in s.valid ==> UnderWay(song, s, i, 0, 0)
      ensures song.Alone(i, 0) == Some(Reading([], song.mem, song.starts[i]))
    {
      NewTrackAt(song.mem, base, TRACKS, i);
      if i in song.used {
        FirstDelta(song, i, s.tracks[i], s);
      }
    }
  }

  lemma FirstDelta(song: Song, i: nat, t: Track, s: Sequence)
    requires song.WellFormed() && i < TRACKS && Playable(song, i) && s.WellFormed() && s.mem == song.mem
    requires s.tracks[i] == t
    requires s.flag && s.lastDelta == 0
    requires var d := ReadVarLen(song.mem, Everywhere, song.starts[i]);
      d.Some? && t == d.value.1.(delta := d.value.0)
    ensures UnderWay(song, s, i, 0, 0)
  {
    hide ReadVarLen, GetEvent, Playable;
    assert song.Alone(i, 0) == Some(Reading([], song.mem, song.starts[i]));
    AloneNext(song, i, 0);
    ReadVarLenFrame(song.mem, song.areas[i], song.starts[i], song.mem, Everywhere, song.starts[i]);
    SumAppend([], song.Alone(i, 1).value.items[0]);
  }

  // Any run of the sequencer delivers a beginning of the merge of its tracks.
  lemma {:induction false} RunMerges(song: Song, base: nat, s: Sequence, n: nat) returns (counts: seq<nat>)
    requires Proper(song) && Starts(song, base) && New(song.mem, base) == Some(s) && RunOf(s, n).Some?
    ensures var r := RunOf(s, n).value;
      && |counts| == TRACKS && Merged(song, r.last, LogOf(r.steps), counts, Now(r.steps))
      && r.last.lastTicks == Now(r.steps) % U32_LIMIT
    decreases n
  {
    hide NextEvent, New, Merged, NewTracks, Due, Now, LogOf, Proper, Starts;
    if n == 0 {
      counts := NewIsMerged(song, base, s);
      NewTicks(song.mem, base, s);
      NothingLogged();
    } else {
      var before := RunOf(s, n - 1).value;
      var step := NextEvent(before.last).value;
      var earlier := RunMerges(song, base, s, n - 1);
      MergeStep(song, before.last, LogOf(before.steps), earlier, Now(before.steps), step);
      NextTicks(before.last, step);
      LogGrowsBy(before.steps, step);
      counts := earlier[step.track := earlier[step.track] + 1];
    }
  }

  lemma NothingLogged()
    ensures LogOf([]) == [] && Now([]) == 0
  {
  }

  lemma {:induction false} LogGrowsBy(steps: seq<SeqStep>, step: SeqStep)
    ensures Now(steps + [step]) == Now(steps) + step.ticks
    ensures LogOf(steps + [step]) == LogOf(steps) + [Logged(Now(steps) + step.ticks, step.track, step.item)]
  {
    assert (steps + [step])[..|steps|] == steps;
  }

  lemma NewTicks(mem: Bytes, base: nat, s: Sequence)
    requires New(mem, base) == Some(s)
    ensures s.lastTicks == 0
  {
  }

  lemma NextTicks(s: Sequence, r: SeqStep)
    requires s.WellFormed() && NextEvent(s) == Some(r)
    ensures r.next.lastTicks == (s.lastTicks + r.ticks) % U32_LIMIT
  {
    hide GetEvent, Subtracted, Pick, AddDelta;
  }

  // The subtraction of the last event's ticks never goes below zero, and the addition of a
  // delta to the least entry never leaves 32 bits.
  lemma TableStaysInRange(song: Song, s: Sequence, log: seq<Logged>, counts: seq<nat>, now: nat, i: nat)
    requires Merged(song, s, log, counts, now) && i in s.valid
    ensures s.flag ==> s.lastDelta <= s.tracks[i].delta
    ensures Subtracted(s).tracks[i].delta < DELTA_LIMIT && DELTA_LIMIT + DELTA_LIMIT <= U32_LIMIT
  {
    hide Due, InStep, Ended;
    assert UnderWay(song, s, i, counts[i], now);
    TableShowsDue(song, s, log, counts, now);
  }

  // ---- the ends of the tracks ----

  function CountTrackEnds(steps: seq<SeqStep>): nat {
    if steps == [] then 0
    else CountTrackEnds(steps[..|steps| - 1]) + if steps[|steps| - 1].event.TrackEnd? then 1 else 0
  }

  // k tracks give k - 1 track ends; the sequence end comes when none is left, and is last.
  lemma {:induction false} EndsAreCounted(s: Sequence, n: nat)
    requires s.WellFormed() && s.valid != {} && RunOf(s, n).Some?
    ensures var r := RunOf(s, n).value;
      && r.last.valid <= s.valid
      && (forall i :: 0 <= i < n ==> (r.steps[i].event.SeqEnd? <==> i == n - 1 && r.last.valid == {}))
      && CountTrackEnds(r.steps) + |r.last.valid| == if r.last.valid == {} then |s.valid| - 1 else |s.valid|
    decreases n
  {
    hide NextEvent;
    if n > 0 {
      var r, before := RunOf(s, n).value, RunOf(s, n - 1).value;
      var step := NextEvent(before.last).value;
      EndsAreCounted(s, n - 1);
      EndOfStep(before.last, step);
      assert r.steps[..n - 1] == before.steps && r.steps[n - 1] == step;
      assert forall i :: 0 <= i < n - 1 ==> r.steps[i] == before.steps[i];
    }
  }

  lemma EndOfStep(s: Sequence, r: SeqStep)
    requires s.WellFormed() && NextEvent(s) == Some(r)
    ensures s.valid != {} && r.track in s.valid
    ensures r.event.SeqEnd? <==> r.next.valid == {}
    ensures r.next.valid == if r.event.SeqEnd? || r.event.TrackEnd? then s.valid - {r.track} else s.valid
  {
    hide GetEvent, Pick, AddDelta;
  }
}
