// What is left of the data of a sequence when a marker is made: alCSeqNewMarker of
// src/audio/cseq.c reads on the data itself, loop counters included.
module MarkerData {
  import opened Machine
  import opened AudioEvents
  import opened TrackReader
  import opened TrackFrames
  import opened TrackRuns
  import opened Loops
  import opened Sequencer
  import opened Merge
  import opened MergeRuns
  import opened Markers
  import opened WholeSongs

  // ---- what is left of the data ----

  // The data behind `counts` events of each track: the counters of a track are as it leaves
  // them on its own, and nothing else has changed.
  ghost predicate Kept(song: Song, mem: Bytes, counts: seq<nat>)
    requires song.WellFormed()
  {
    && |mem| == |song.mem| && |counts| == TRACKS
    && (forall i <- song.used :: song.Alone(i, counts[i]).Some? && |song.Alone(i, counts[i]).value.mem| == |mem|)
    && (forall i, x :: i in song.used && 0 <= x < |mem| && song.areas[i].Writes(x) ==>
        mem[x] == song.Alone(i, counts[i]).value.mem[x])
    && (forall x :: 0 <= x < |mem| && NobodyWrites(song, x) ==> mem[x] == song.mem[x])
  }

  ghost predicate NobodyWrites(song: Song, x: int)
    requires song.WellFormed()
  {
    forall i <- song.used :: !song.areas[i].Writes(x)
  }

  lemma KeptStep(song: Song, s: Sequence, log: seq<Logged>, counts: seq<nat>, now: nat, r: SeqStep)
    requires Merged(song, s, log, counts, now) && NextEvent(s) == Some(r) && Kept(song, s.mem, counts)
    ensures r.track in s.valid && Kept(song, r.next.mem, counts[r.track := counts[r.track] + 1])
  {
    hide NextEvent, GetEvent, ReadVarLen, Subtracted, Pick, Passes, Due, InStep, Playable, UnderWay, OnTrack, Timeline;
    NextEventIs(song, s, log, counts, now, r);
    var k := r.track;
    var t := Subtracted(s).tracks[k];
    ValidIsUnderWay(song, s, log, counts, now, k);
    UnderWayInStep(song, s, k, counts[k], now);
    InStepAlike(song, k, counts[k], s.mem, s.tracks[k], t);
    NextOfTrack(song, k, counts[k], s.mem, t);
    var e, q := GetEvent(s.mem, Everywhere, t).value, song.Alone(k, counts[k] + 1).value;
    var after := counts[k := counts[k] + 1];
    assert Overlaid(e.mem, s.mem, q.mem, song.areas[k]);
    forall i, x | i in song.used && 0 <= x < |e.mem| && song.areas[i].Writes(x)
      ensures e.mem[x] == song.Alone(i, after[i]).value.mem[x]
    {
      if i != k {
        assert !song.areas[k].Writes(x);
      }
    }
  }

  lemma UnderWayInStep(song: Song, s: Sequence, i: nat, n: nat, now: nat)
    requires song.WellFormed() && s.WellFormed() && i < TRACKS && Playable(song, i) && UnderWay(song, s, i, n, now)
    ensures InStep(song, i, n, s.mem, s.tracks[i])
  {
    hide InStep, Playable;
  }

  lemma NewKept(song: Song, base: nat, s: Standing, counts: seq<nat>)
    requires Merged(song, s, [], counts, 0) && New(song.mem, base) == Some(s)
    ensures song.WellFormed() && Kept(song, s.mem, counts)
  {
    hide NewTracks, Pass, UnderWay, Ended, InOrder, Separate, Playable;
    forall i <- song.used ensures counts[i] == 0 {
      assert OnTrack([], i) == [];
      PassesLength(song.mem, song.areas[i], song.starts[i], counts[i]);
    }
  }

  // So the data are as they were if and only if each track, read alone up to where it stands,
  // leaves them so. A track that stands behind whole loops does.
  lemma DataKeptIff(song: Song, mem: Bytes, counts: seq<nat>)
    requires song.WellFormed() && Kept(song, mem, counts)
    ensures mem == song.mem <==> forall i <- song.used :: song.Alone(i, counts[i]).value.mem == song.mem
  {
    hide Passes;
    forall i <- song.used
      ensures forall x :: 0 <= x < |mem| && !song.areas[i].Writes(x) ==>
        song.Alone(i, counts[i]).value.mem[x] == song.mem[x]
    {
      PassesWrites(song.mem, song.areas[i], song.starts[i], counts[i]);
    }
    if forall i <- song.used :: song.Alone(i, counts[i]).value.mem == song.mem {
      forall x | 0 <= x < |mem| ensures mem[x] == song.mem[x] {
        if !NobodyWrites(song, x) {
          var i :| i in song.used && song.areas[i].Writes(x);
        }
      }
    }
  }

  // ---- tracks as they were composed ----

  datatype Composition = Composition(data: set<int>, parts: seq<Part>) {
    function Items(): seq<Item> { UnrollAll(parts) }
  }

  // The track lies in the file as it was composed, and the end of the track is its last event.
  predicate Composed(song: Song, i: nat, c: Composition)
    requires i < |song.starts| && i < |song.areas|
  {
    var from := Place(song.starts[i].curLoc, song.starts[i].lastStatus);
    && song.areas[i] == Only(c.data, CellsAll(c.parts)) && c.data !! CellsAll(c.parts)
    && StandsAt(song.starts[i], from) && LiesAll(song.mem, c.data, from, c.parts)
    && c.Items() != [] && c.Items()[|c.Items()| - 1].evt == EndEvent && NoEnd(c.Items()[..|c.Items()| - 1])
  }

  // Read alone, it delivers its unrolled events one by one, and has kept its data as long as it
  // is in the first pass of its loops.
  lemma {:induction false} ComposedAlone(song: Song, i: nat, c: Composition, n: nat)
    requires song.WellFormed() && i < TRACKS && Composed(song, i, c) && n <= |c.Items()|
    ensures song.Alone(i, n).Some? && song.Alone(i, n).value.items == c.Items()[..n]
    ensures song.Alone(i, n).value.mem == song.mem <==> FirstPassAll(c.parts, n)
    ensures Ended(song, i, |c.Items()|)
  {
    hide Passes, Lies, LiesAll, FirstPassAll;
    var a, t, from := song.areas[i], song.starts[i], Place(song.starts[i].curLoc, song.starts[i].lastStatus);
    TrackPlays(song.mem, c.data, from, c.parts, t);
    TrackKeepsIff(song.mem, c.data, from, c.parts, t, n);
    PassesPrefix(song.mem, a, t, n, |c.Items()|);
    PassesLength(song.mem, a, t, n);
  }

  // ---- how far the search reads ----

  // How many of the events come before a tick.
  function Early(items: seq<Item>, ticks: nat, from: nat): nat {
    if items == [] || from + items[0].delta >= ticks then 0 else 1 + Early(items[1..], ticks, from + items[0].delta)
  }

  lemma {:induction false} EarlyIs(items: seq<Item>, ticks: nat, from: nat, n: nat)
    requires n <= |items| && (n > 0 ==> from + Sum(items[..n]) < ticks)
    requires n < |items| ==> from + Sum(items[..n + 1]) >= ticks
    ensures Early(items, ticks, from) == n
  {
    if n > 0 {
      assert items[..n][1..] == items[1..][..n - 1] && (n < |items| ==> items[..n + 1][1..] == items[1..][..n]);
      EarlyIs(items[1..], ticks, from + items[0].delta, n - 1);
    } else if items != [] {
      assert items[..1][1..] == [];
    }
  }

  // The tick of the first event at or after a tick.
  function NextTick(items: seq<Item>, ticks: nat): nat
    requires Early(items, ticks, 0) < |items|
  {
    Sum(items[..Early(items, ticks, 0) + 1])
  }

  // The event that stops the search is on this track: of all first events at or after the ticks
  // it comes first in the merge.
  predicate StopsOn(comps: seq<Composition>, used: set<nat>, ticks: nat, i: nat)
    requires i < |comps|
  {
    && Early(comps[i].Items(), ticks, 0) < |comps[i].Items()|
    && forall j <- used :: j < |comps| && j != i && Early(comps[j].Items(), ticks, 0) < |comps[j].Items()| ==>
      || NextTick(comps[i].Items(), ticks) < NextTick(comps[j].Items(), ticks)
      || (NextTick(comps[i].Items(), ticks) == NextTick(comps[j].Items(), ticks) && i < j)
  }

  // How many events of a track the search reads: those before the ticks, and the one that stops it.
  function ReadOf(comps: seq<Composition>, used: set<nat>, ticks: nat, i: nat): nat
    requires i < |comps|
  {
    Early(comps[i].Items(), ticks, 0) + if StopsOn(comps, used, ticks, i) then 1 else 0
  }

  // No event of a run is later than its last one.
  lemma {:induction false} LogTicks(steps: seq<SeqStep>)
    ensures forall x <- LogOf(steps) :: x.tick <= Now(steps)
  {
    if steps != [] {
      LogTicks(steps[..|steps| - 1]);
    }
  }

  // ---- the state of a composed song ----

  ghost predicate AllComposed(song: Song, comps: seq<Composition>) {
    && song.WellFormed() && |comps| == TRACKS
    && forall i <- song.used :: Composed(song, i, comps[i]) && Sum(comps[i].Items()) < U32_LIMIT
  }

  lemma ComposedOne(song: Song, comps: seq<Composition>, i: nat)
    requires AllComposed(song, comps) && i in song.used
    ensures i < TRACKS && Composed(song, i, comps[i]) && Sum(comps[i].Items()) < U32_LIMIT
  {
  }

  // Where a track of it is.
  lemma {:induction false} TrackIsAt(
    song: Song, s: Sequence, log: seq<Logged>, counts: seq<nat>, now: nat, comps: seq<Composition>, i: nat)
    requires Merged(song, s, log, counts, now) && AllComposed(song, comps) && i in song.used
    ensures i < TRACKS == |counts| && counts[i] <= |comps[i].Items()|
    ensures OnTrack(log, i) == Timeline(comps[i].Items()[..counts[i]], 0)
    ensures i in s.valid ==> counts[i] < |comps[i].Items()| && song.Alone(i, counts[i] + 1).Some?
    ensures i in s.valid ==> Due(song, i, counts[i]) == Sum(comps[i].Items()[..counts[i] + 1])
    ensures i !in s.valid ==> counts[i] == |comps[i].Items()|
  {
    hide Passes, Composed, Timeline, OnTrack, Ended, UnderWay, InOrder, Proper, FirstPassAll;
    ComposedOne(song, comps, i);
    ComposedAlone(song, i, comps[i], 0);
    if i in s.valid {
      MergedTracks(song, s, log, counts, now, i);
      NotYet(song, i, counts[i], |comps[i].Items()|);
      ComposedAlone(song, i, comps[i], counts[i] + 1);
    } else {
      EndIsUnique(song, i, counts[i], |comps[i].Items()|);
    }
    ComposedAlone(song, i, comps[i], counts[i]);
  }

  lemma StepInTime(
    song: Song, s: Sequence, log: seq<Logged>, counts: seq<nat>, now: nat, comps: seq<Composition>, r: SeqStep)
    requires Merged(song, s, log, counts, now) && AllComposed(song, comps) && NextEvent(s) == Some(r)
    ensures r.track in s.valid && s.valid <= song.used && r.track < TRACKS == |counts|
    ensures counts[r.track] < |comps[r.track].Items()|
    ensures now + r.ticks == Sum(comps[r.track].Items()[..counts[r.track] + 1]) < U32_LIMIT
  {
    hide NextEvent, Composed, Timeline, OnTrack, Ended, UnderWay, InOrder, Proper, Due;
    MergeStep(song, s, log, counts, now, r);
    TrackIsAt(song, s, log, counts, now, comps, r.track);
    ComposedOne(song, comps, r.track);
    SumOfPrefix(comps[r.track].Items(), counts[r.track] + 1);
  }

  lemma {:induction false} RunReads(
    song: Song, base: nat, s: Standing, comps: seq<Composition>, n: nat) returns (counts: seq<nat>)
    requires Merge.Proper(song) && Starts(song, base) && New(song.mem, base) == Some(s) && RunOf(s, n).Some?
    requires AllComposed(song, comps)
    ensures var r := RunOf(s, n).value;
      && Merged(song, r.last, LogOf(r.steps), counts, Now(r.steps)) && |counts| == TRACKS
      && song.WellFormed() && Kept(song, r.last.mem, counts) && Now(r.steps) < U32_LIMIT
    decreases n
  {
    hide NextEvent, New, Merged, NewTracks, Due, Now, LogOf, Proper, Starts, Kept;
    if n == 0 {
      counts := NewIsMerged(song, base, s);
      NothingLogged();
      NewKept(song, base, s, counts);
    } else {
      var before := RunOf(s, n - 1).value;
      var step := NextEvent(before.last).value;
      var earlier := RunReads(song, base, s, comps, n - 1);
      KeptStep(song, before.last, LogOf(before.steps), earlier, Now(before.steps), step);
      MergeStep(song, before.last, LogOf(before.steps), earlier, Now(before.steps), step);
      StepInTime(song, before.last, LogOf(before.steps), earlier, Now(before.steps), comps, step);
      LogGrowsBy(before.steps, step);
      counts := earlier[step.track := earlier[step.track] + 1];
    }
  }

  // What has been read came early, if the last event did.
  lemma {:induction false} ReadEarly(
    song: Song, s: Sequence, steps: seq<SeqStep>, counts: seq<nat>, comps: seq<Composition>, ticks: nat, i: nat)
    requires Merged(song, s, LogOf(steps), counts, Now(steps)) && AllComposed(song, comps) && i in song.used
    requires steps != [] ==> Now(steps) < ticks
    ensures i < TRACKS == |counts| && counts[i] <= |comps[i].Items()|
    ensures counts[i] > 0 ==> Sum(comps[i].Items()[..counts[i]]) < ticks
  {
    hide Merged, Timeline, OnTrack, Now, LogOf, Sum;
    TrackIsAt(song, s, LogOf(steps), counts, Now(steps), comps, i);
    var items := comps[i].Items()[..counts[i]];
    if counts[i] > 0 {
      TimelineTicks(items, 0);
      var x := Timeline(items, 0)[|items| - 1];
      OnTrackFrom(LogOf(steps), i, x);
      LogTicks(steps);
      NothingLogged();
    }
  }

  // What has not been read is not before the last event.
  lemma RestIsLater(
    song: Song, s: Sequence, log: seq<Logged>, counts: seq<nat>, comps: seq<Composition>, x: Logged, i: nat)
    requires Merged(song, s, log + [x], counts, x.tick) && AllComposed(song, comps) && i in song.used
    ensures i < TRACKS == |counts| && counts[i] <= |comps[i].Items()|
    ensures counts[i] < |comps[i].Items()| ==> NotAfter(x, Sum(comps[i].Items()[..counts[i] + 1]), i)
    ensures s.valid == {} ==> counts[i] == |comps[i].Items()|
  {
    hide Timeline, OnTrack, Sum, Ended, InOrder, Proper, Due;
    TrackIsAt(song, s, log + [x], counts, x.tick, comps, i);
    if i in s.valid {
      assert (log + [x])[|log|] == x;
      assert AllNotAfter(log + [x], Due(song, i, counts[i]), i);
    }
  }

  // So each track has been read as far as the ticks, and one event further where the search stops.
  lemma ReadAsFar(comps: seq<Composition>, used: set<nat>, ticks: nat, before: seq<nat>, t: nat, i: nat)
    requires |comps| == |before| == TRACKS && (forall j <- used :: j < TRACKS) && t in used && i in used
    requires forall j <- used :: before[j] <= |comps[j].Items()|
    requires forall j <- used :: before[j] > 0 ==> Sum(comps[j].Items()[..before[j]]) < ticks
    requires before[t] < |comps[t].Items()|
    requires var now := Sum(comps[t].Items()[..before[t] + 1]);
      if now >= ticks then
        forall j <- used :: j != t && before[j] < |comps[j].Items()| ==>
          || now < Sum(comps[j].Items()[..before[j] + 1])
          || (now == Sum(comps[j].Items()[..before[j] + 1]) && t < j)
      else forall j <- used :: before[t := before[t] + 1][j] == |comps[j].Items()|
    ensures before[t := before[t] + 1][i] == ReadOf(comps, used, ticks, i)
  {
    hide Sum, Early, UnrollAll;
    var now, after := Sum(comps[t].Items()[..before[t] + 1]), before[t := before[t] + 1];
    if now >= ticks {
      forall j <- used ensures Early(comps[j].Items(), ticks, 0) == before[j] {
        EarlyIs(comps[j].Items(), ticks, 0, before[j]);
      }
    } else {
      forall j <- used ensures Early(comps[j].Items(), ticks, 0) == after[j] == |comps[j].Items()| {
        EarlyIs(comps[j].Items(), ticks, 0, after[j]);
      }
    }
  }

  lemma SearchReads(
    song: Song, base: nat, s: Standing, comps: seq<Composition>, ticks: u32, k: nat) returns (counts: seq<nat>)
    requires Merge.Proper(song) && Starts(song, base) && New(song.mem, base) == Some(s) && StopsAt(s, ticks, k)
    requires AllComposed(song, comps)
    ensures song.WellFormed() && RunOf(s, k + 1).Some? && Kept(song, RunOf(s, k + 1).value.last.mem, counts)
    ensures |counts| == |comps| == TRACKS
    ensures forall i <- song.used :: i < TRACKS && counts[i] == ReadOf(comps, song.used, ticks, i)
    ensures forall i <- song.used :: counts[i] <= |comps[i].Items()|
  {
    hide Merge.Proper, Starts, New, NextEvent, Merged, Kept, ReadOf, Sum, Now, LogOf, NotAfter;
    hide Composed, UnrollAll, Early, Due;
    ProperSong(song);
    RunFewer(s, k);
    var before := RunReads(song, base, s, comps, k);
    var run := RunOf(s, k).value;
    var z := NextEvent(run.last).value;
    var t, now := z.track, Now(run.steps) + z.ticks;
    MergeStep(song, run.last, LogOf(run.steps), before, Now(run.steps), z);
    KeptStep(song, run.last, LogOf(run.steps), before, Now(run.steps), z);
    StepInTime(song, run.last, LogOf(run.steps), before, Now(run.steps), comps, z);
    var x := Logged(now, t, z.item);
    counts := before[t := before[t] + 1];
    EndOfStep(run.last, z);
    StopTicks(song, base, s, ticks, k);
    forall j <- song.used
      ensures j < TRACKS && before[j] <= |comps[j].Items()| && counts[j] <= |comps[j].Items()|
      ensures before[j] > 0 ==> Sum(comps[j].Items()[..before[j]]) < ticks
      ensures counts[j] < |comps[j].Items()| ==> NotAfter(x, Sum(comps[j].Items()[..counts[j] + 1]), j)
      ensures z.next.valid == {} ==> counts[j] == |comps[j].Items()|
    {
      ReadEarly(song, run.last, run.steps, before, comps, ticks, j);
      RestIsLater(song, z.next, LogOf(run.steps), counts, comps, x, j);
    }
    OthersLater(comps, song.used, before, x);
    forall i <- song.used ensures counts[i] == ReadOf(comps, song.used, ticks, i) {
      ReadAsFar(comps, song.used, ticks, before, t, i);
    }
  }

  lemma OthersLater(comps: seq<Composition>, used: set<nat>, before: seq<nat>, x: Logged)
    requires |comps| == |before| == TRACKS && x.track < TRACKS
    requires forall j <- used :: j < TRACKS && before[j] <= |comps[j].Items()|
    requires forall j <- used :: j != x.track && before[j] < |comps[j].Items()| ==>
      NotAfter(x, Sum(comps[j].Items()[..before[j] + 1]), j)
    ensures forall j <- used :: j != x.track && before[j] < |comps[j].Items()| ==>
      || x.tick < Sum(comps[j].Items()[..before[j] + 1])
      || (x.tick == Sum(comps[j].Items()[..before[j] + 1]) && x.track < j)
  {
    hide Sum, UnrollAll;
  }

  // The ticks of the event that stops the search, and of those before it.
  lemma {:induction false} StopTicks(song: Song, base: nat, s: Standing, ticks: u32, k: nat)
    requires Merge.Proper(song) && Starts(song, base) && New(song.mem, base) == Some(s) && StopsAt(s, ticks, k)
    requires RunOf(s, k).Some? && NextEvent(RunOf(s, k).value.last).Some?
    requires var run := RunOf(s, k).value;
      Now(run.steps) < U32_LIMIT && Now(run.steps) + NextEvent(run.last).value.ticks < U32_LIMIT
    ensures var run := RunOf(s, k).value;
      && (run.steps != [] ==> Now(run.steps) < ticks)
      && (NextEvent(run.last).value.event.SeqEnd? || Now(run.steps) + NextEvent(run.last).value.ticks >= ticks)
  {
    hide NextEvent, New, Merged, Proper, Starts, Now, LogOf;
    var run := RunOf(s, k).value;
    var z := NextEvent(run.last).value;
    var all := RunOf(s, k + 1).value.steps;
    assert all == run.steps + [z];
    var c0 := RunMerges(song, base, s, k);
    NextTicks(run.last, z);
    if k > 0 {
      var last := RunOf(s, k - 1).value;
      assert run.steps[k - 1].next == run.last;
      assert all[k - 1] == run.steps[k - 1];
    }
  }

  // alCSeqNewMarker leaves the data of a composed song as they were if and only if no track, read
  // up to the ticks (and, where the search stops, one event further), is in a later pass of a
  // loop with a count.
  lemma MarkerKeepsDataIff(song: Song, base: nat, s: Standing, ticks: u32, fuel: nat, comps: seq<Composition>)
    requires Merge.Proper(song) && Starts(song, base) && New(song.mem, base) == Some(s) && AllComposed(song, comps)
    requires NewMarker(song.mem, base, ticks, fuel).Some?
    ensures |comps| == TRACKS && forall i <- song.used :: i < TRACKS
    ensures NewMarker(song.mem, base, ticks, fuel).value.mem == song.mem <==>
      forall i <- song.used :: FirstPassAll(comps[i].parts, ReadOf(comps, song.used, ticks, i))
  {
    hide Merge.Proper, Starts, New, RunOf, Search, StopsAt, Kept, ReadOf, FirstPassAll;
    var k := SearchFinds(s, ticks, fuel);
    var counts := SearchReads(song, base, s, comps, ticks, k);
    DataKeptIff(song, RunOf(s, k + 1).value.last.mem, counts);
    forall i <- song.used
      ensures song.Alone(i, counts[i]).Some?
      ensures song.Alone(i, counts[i]).value.mem == song.mem <==> FirstPassAll(comps[i].parts, counts[i])
    {
      ComposedOne(song, comps, i);
      ComposedAlone(song, i, comps[i], counts[i]);
    }
  }

  // ---- a marker that changes the data ----

  // A file with one track: a loop of one tick, its body empty, that goes on once more.
  function LoopFile(): (m: Bytes)
    ensures IsLoopFile(m)
  {
    [0, 0, 0, 68] + seq(60, _ => 0) + [0, 0, 0, 1]
    + [0x00, 0xFF, 0x2E, 0x00, 0xFF] + [0x01, 0xFF, 0x2D, 0x01, 0x01, 0x00, 0x00, 0x00, 0x09] + [0x00, 0xFF, 0x2F, 0x00]
  }

  // The first word leads to the track; at 68 is a loop start at tick 0; at 73 a loop end a tick
  // later, with its count, its counter (at 77) and the way back; at 82 the end of the track, and
  // a delta behind it.
  predicate IsLoopFile(m: Bytes) {
    && |m| == 86 && m[..4] == [0, 0, 0, 68] && (forall i :: 4 <= i < 64 ==> m[i] == 0)
    && m[68..73] == [0x00, 0xFF, 0x2E, 0x00, 0xFF]
    && m[73..82] == [0x01, 0xFF, 0x2D, 0x01, 0x01, 0x00, 0x00, 0x00, 0x09]
    && m[82..] == [0x00, 0xFF, 0x2F, 0x00]
  }

  // The track of the file at `curLoc`, `delta` ticks before its next event.
  predicate LoopState(s: Sequence, curLoc: int, delta: u32) {
    && s.WellFormed() && s.mem == LoopFile() && s.valid == {0} && s.tracks[0] == Track(curLoc, 0, 0, 0, delta)
    && s.lastTicks == 0 && s.lastDelta == 0
  }

  // A marker at tick 1 stands before the loop end, but the search has read it: the counter of
  // the loop, which the playing sequence shares, has gone down.
  lemma LoopExample()
    ensures var r := NewMarker(LoopFile(), 0, 1, 2);
      r.Some? && r.value.mem == LoopFile()[77 := 0] && r.value.mem != LoopFile()
  {
    hide New, NextEvent, LoopFile;
    LoopStarts();
    var s := New(LoopFile(), 0).value;
    LoopIsEntered(s);
    var r := NextEvent(s).value;
    LoopIsLeft(r.next);
    assert Search(r.next, 1, 1).Some?;
    assert LoopFile()[73..82][4] == LoopFile()[77];
  }

  lemma LoopStarts()
    ensures New(LoopFile(), 0).Some? && LoopState(New(LoopFile(), 0).value, 69, 0)
  {
    hide NewTracks, LoopFile;
    LoopTracks(TRACKS);
  }

  lemma {:induction false} LoopTracks(n: nat)
    requires 0 < n <= TRACKS
    ensures var r := NewTracks(LoopFile(), 0, n); r.Some? && r.value.0 == {0} && r.value.1[0] == Track(69, 0, 0, 0, 0)
  {
    hide LoopFile, NewTrack;
    var m := LoopFile();
    if n == 1 {
      FirstLoopTrack(m);
      assert NewTracks(m, 0, 0) == Some(({}, []));
    } else {
      LoopTracks(n - 1);
      UnusedTrack(m, n - 1);
    }
  }

  lemma FirstLoopTrack(m: Bytes)
    requires IsLoopFile(m)
    ensures NewTrack(m, 0, 0) == Some((true, Track(69, 0, 0, 0, 0)))
  {
    assert m[..4][0] == m[0] && m[..4][1] == m[1] && m[..4][2] == m[2] && m[..4][3] == m[3];
    assert m[68..73][0] == m[68];
  }

  lemma UnusedTrack(m: Bytes, i: nat)
    requires IsLoopFile(m) && 0 < i < TRACKS
    ensures NewTrack(m, 0, i) == Some((false, Track(0, 0, 0, 0, 0)))
  {
  }

  lemma LoopStartIsRead(m: Bytes)
    requires IsLoopFile(m)
    ensures GetEvent(m, Everywhere, Track(69, 0, 0, 0, 0)) == Some(Step(m, Track(73, 0, 0, 0, 0), LoopStartEvent))
    ensures AddDelta(m, Track(73, 0, 0, 0, 0)) == Some(Track(74, 0, 0, 0, 1))
  {
    assert m[68..73][1] == m[69] && m[68..73][2] == m[70] && m[68..73][3] == m[71] && m[68..73][4] == m[72];
    assert m[73..82][0] == m[73];
  }

  lemma LoopEndIsRead(m: Bytes)
    requires IsLoopFile(m)
    ensures GetEvent(m, Everywhere, Track(74, 0, 0, 0, 1)) ==
      Some(Step(m[77 := 0], Track(73, 0, 0, 0, 1), LoopEndEvent))
  {
    assert m[73..82][1] == m[74] && m[73..82][2] == m[75] && m[73..82][3] == m[76] && m[73..82][4] == m[77];
    assert m[73..82][5] == m[78] && m[73..82][6] == m[79] && m[73..82][7] == m[80] && m[73..82][8] == m[81];
  }

  lemma LoopGoesOn(m: Bytes)
    requires IsLoopFile(m)
    ensures AddDelta(m[77 := 0], Track(73, 0, 0, 0, 1)) == Some(Track(74, 0, 0, 0, 2))
  {
    assert m[73..82][0] == m[73];
  }

  lemma LoopIsEntered(s: Sequence)
    requires LoopState(s, 69, 0)
    ensures NextEvent(s).Some?
    ensures var r := NextEvent(s).value; !r.event.SeqEnd? && LoopState(r.next, 74, 1)
  {
    hide Pick, LoopFile, GetEvent, AddDelta;
    OnlyTrack(Subtracted(s), TRACKS);
    LoopStartIsRead(s.mem);
  }

  lemma LoopIsLeft(s: Sequence)
    requires LoopState(s, 74, 1)
    ensures NextEvent(s).Some?
    ensures var r := NextEvent(s).value.next;
      && r.lastTicks == 1 && r.mem == LoopFile()[77 := 0] && r.valid == {0} && r.tracks[0] == Track(74, 0, 0, 0, 2)
      && r.flag && r.lastDelta == 1
  {
    hide Pick, LoopFile, GetEvent, AddDelta;
    OnlyTrack(Subtracted(s), TRACKS);
    LoopEndIsRead(s.mem);
    LoopGoesOn(s.mem);
  }

  // ---- a marker that misses the delta flag ----

  // Played on to behind the first loop end, the sequence has a table that says 2 and a last delta
  // of 1. After alCSeqNextDelta the table says 1 and the flag is clear; set on the sequence with
  // its flag still set, the marker of that place has 1 subtracted once more.
  lemma FlagExample()
    ensures New(LoopFile(), 0).Some? && RunOf(New(LoopFile(), 0).value, 2).Some?
    ensures var s := RunOf(New(LoopFile(), 0).value, 2).value.last;
      var c := NextDelta(s).0;
      && c.mem == s.mem && c.flag != s.flag
      && NextEvent(c).Some? && NextEvent(c).value.event == LoopEnd(1)
      && var q := SetLoc(s, GetLoc(c));
      && q.WellFormed() && NextEvent(q).Some? && NextEvent(q).value.event == LoopEnd(0)
  {
    hide New, NextEvent, LoopFile, Subtracted;
    LoopStarts();
    var first := New(LoopFile(), 0).value;
    RunNone(first);
    LoopIsEntered(first);
    LoopIsLeft(NextEvent(first).value.next);
    var s := NextEvent(NextEvent(first).value.next).value.next;
    assert RunOf(first, 1).value.last == NextEvent(first).value.next;
    assert RunOf(first, 2).value.last == s;
    SubtractedIs(s);
    SubtractedAt(s, 0);
    var c := NextDelta(s).0;
    SubtractedAt(c, 0);
    LoopEndsIn(c, 1);
    SubtractedAt(SetLoc(s, GetLoc(c)), 0);
    LoopEndsIn(SetLoc(s, GetLoc(c)), 0);
  }

  lemma LoopEndsIn(s: Sequence, delta: u32)
    requires s.WellFormed() && s.mem == LoopFile()[77 := 0] && s.valid == {0}
    requires Subtracted(s).tracks[0] == Track(74, 0, 0, 0, delta) && delta < 2
    ensures NextEvent(s).Some? && NextEvent(s).value.event == LoopEnd(delta)
  {
    hide Pick, LoopFile, GetEvent, AddDelta;
    OnlyTrack(Subtracted(s), TRACKS);
    LastLoopEndIsRead(LoopFile(), delta);
  }

  lemma LastLoopEndIsRead(m: Bytes, delta: u32)
    requires IsLoopFile(m) && delta < 2
    ensures GetEvent(m[77 := 0], Everywhere, Track(74, 0, 0, 0, delta)) ==
      Some(Step(m, Track(82, 0, 0, 0, delta), LoopEndEvent))
    ensures AddDelta(m, Track(82, 0, 0, 0, delta)) == Some(Track(83, 0, 0, 0, delta))
  {
    assert m[73..82][1] == m[74] && m[73..82][2] == m[75] && m[73..82][3] == m[76] && m[73..82][4] == m[77];
    assert m[77 := 0][77 := 1] == m;
    assert m[82..][0] == m[82];
  }
}
