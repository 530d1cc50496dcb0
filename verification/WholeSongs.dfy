// A song from its first event to its last.
module WholeSongs {
  import opened Machine
  import opened TrackReader
  import opened TrackFrames
  import opened TrackRuns
  import opened LoopTermination
  import opened Sequencer
  import opened Merge
  import opened MergeRuns
  import opened Markers

  // ---- there is a next event ----

  // Behind the end of a track, one more delta can be read: the sequencer reads it when the
  // track is the last one (src/audio/cseq.c:96-97).
  ghost predicate DeltaBehind(song: Song, i: nat, n: nat)
    requires song.WellFormed() && i < TRACKS
  {
    Ended(song, i, n) ==>
      var r := song.Alone(i, n).value;
      ReadVarLen(r.mem, song.areas[i], r.track).Some?
  }

  // While a track is left, the next event can be read; the last one only with a delta behind
  // its end.
  lemma NextCanBeRead(song: Song, s: Sequence, log: seq<Logged>, counts: seq<nat>, now: nat)
    requires Merged(song, s, log, counts, now) && s.valid != {}
    requires forall i <- s.valid :: s.valid == {i} ==> DeltaBehind(song, i, counts[i] + 1)
    ensures NextEvent(s).Some?
  {
    hide GetEvent, ReadVarLen, Subtracted, Pick, Passes, Due, InStep, Ended, Playable, DeltaBehind;
    PickIsNext(song, s, log, counts, now);
    TableShowsDue(song, s, log, counts, now);
    SubtractedKeeps(s);
    var k := Pick(Subtracted(s), TRACKS).value;
    var t := Subtracted(s).tracks[k];
    ValidIsUnderWay(song, s, log, counts, now, k);
    InStepAlike(song, k, counts[k], s.mem, s.tracks[k], t);
    NextOfTrack(song, k, counts[k], s.mem, t);
    var e := GetEvent(s.mem, Everywhere, t).value;
    if e.evt != EndEvent {
      DeltaOfTrack(song, k, counts[k], s.mem, t, e);
    } else if s.valid == {k} {
      MergedTracks(song, s, log, counts, now, k);
      EndIsRead(song, k, counts[k], e);
    }
    NextFromParts(s, k, e);
  }

  lemma SubtractedKeeps(s: Sequence)
    requires s.WellFormed()
    ensures Subtracted(s).valid == s.valid && Subtracted(s).mem == s.mem
  {
  }

  lemma EndIsRead(song: Song, i: nat, n: nat, e: Step)
    requires song.WellFormed() && i < TRACKS && DeltaBehind(song, i, n + 1)
    requires song.Alone(i, n).Some? && NoEnd(song.Alone(i, n).value.items) && song.Alone(i, n + 1).Some?
    requires var r := song.Alone(i, n + 1).value;
      && r.items == song.Alone(i, n).value.items + [Item(LastDelta(r.items), EndEvent)]
      && Agree(r.mem, e.mem, song.areas[i]) && Alike(r.track, e.track)
    ensures ReadVarLen(e.mem, Everywhere, e.track).Some?
  {
    hide ReadVarLen, Passes;
    var before, r := song.Alone(i, n).value, song.Alone(i, n + 1).value;
    assert r.items[..|r.items| - 1] == before.items;
    ReadVarLenFrame(r.mem, song.areas[i], r.track, e.mem, Everywhere, e.track);
  }

  lemma NextFromParts(s: Sequence, k: nat, e: Step)
    requires s.WellFormed() && Pick(Subtracted(s), TRACKS) == Some(k) && k < TRACKS
    requires GetEvent(s.mem, Everywhere, Subtracted(s).tracks[k]) == Some(e)
    requires (e.evt == EndEvent && s.valid != {k}) || ReadVarLen(e.mem, Everywhere, e.track).Some?
    ensures NextEvent(s).Some?
  {
    hide GetEvent, ReadVarLen, Subtracted, Pick;
    SubtractedKeeps(s);
  }

  // ---- every track comes to its end ----

  lemma {:induction false} AllItemsEndLast(m: Bytes, data: set<int>, counters: set<int>, t: Track)
    requires AllFinite(m, counters)
    ensures EndsLast(AllItems(m, data, counters, t))
    decreases Weight(m, counters, t.curLoc, 0), |m| - t.curLoc, t.buLen
  {
    hide AllFinite, Pass;
    var a := Only(data, counters);
    if Pass(m, a, t).Some? {
      var r := Pass(m, a, t).value;
      PassFurther(m, data, counters, t);
      if r.items[0].evt != EndEvent {
        AllItemsEndLast(r.mem, data, counters, r.track);
        var all, rest := AllItems(m, data, counters, t), AllItems(r.mem, data, counters, r.track);
        assert all == r.items + rest;
        assert forall i :: 0 < i < |all| ==> all[i] == rest[i - 1];
      }
    }
  }

  // A playable track whose loops have finite counts ends after some number of events.
  lemma TrackEnds(song: Song, i: nat) returns (n: nat)
    requires song.WellFormed() && i < TRACKS && Playable(song, i)
    requires song.areas[i].Only? && AllFinite(song.mem, song.areas[i].counters)
    ensures Ended(song, i, n)
  {
    hide Passes, AllFinite, AllItems;
    var a, t := song.areas[i], song.starts[i];
    var all := AllItems(song.mem, a.data, a.counters, t);
    n := |all|;
    AllItemsIsARun(song.mem, a.data, a.counters, t);
    AllItemsEndLast(song.mem, a.data, a.counters, t);
    if NoEnd(all) {
      assert GoesOn(song, i, n);
      AloneNext(song, i, n);
      RunsAreFinite(song.mem, a.data, a.counters, t, n + 1);
      assert false;
    }
  }

  // ---- the whole song ----

  // How many events each track delivers on its own.
  ghost predicate Lasts(song: Song, ends: seq<nat>)
    requires song.WellFormed()
  {
    && |ends| == TRACKS
    && forall i <- song.used :: Ended(song, i, ends[i])
  }

  // At what tick a track ends.
  function EndTick(song: Song, i: nat, end: nat): nat
    requires i < |song.starts| && i < |song.areas|
  {
    if song.Alone(i, end).Some? then Sum(song.Alone(i, end).value.items) else 0
  }

  // The end of this track is the last event of the merge.
  ghost predicate LastToEnd(song: Song, ends: seq<nat>, k: nat)
    requires song.WellFormed() && |ends| == TRACKS
  {
    && k in song.used
    && forall j <- song.used :: j != k ==>
      || EndTick(song, j, ends[j]) < EndTick(song, k, ends[k])
      || (EndTick(song, j, ends[j]) == EndTick(song, k, ends[k]) && j < k)
  }

  // How many events each track delivers on its own; behind the end of the track that ends last
  // one more delta can be read.
  ghost predicate Ends(song: Song, ends: seq<nat>)
    requires song.WellFormed()
  {
    Lasts(song, ends) && forall k <- song.used :: LastToEnd(song, ends, k) ==> DeltaBehind(song, k, ends[k])
  }

  // What the tracks that are left have still to deliver.
  function Left(n: nat, valid: set<nat>, counts: seq<nat>, ends: seq<nat>): nat
    requires n <= |counts| && n <= |ends|
  {
    if n == 0 then 0
    else
      var i := n - 1;
      Left(i, valid, counts, ends) + if i in valid && counts[i] < ends[i] then ends[i] - counts[i] else 0
  }

  // A track that has not ended has delivered fewer.
  lemma NotYet(song: Song, i: nat, n: nat, end: nat)
    requires song.WellFormed() && i < TRACKS && Ended(song, i, end)
    requires song.Alone(i, n).Some? && NoEnd(song.Alone(i, n).value.items)
    ensures n < end
  {
    hide Pass;
    if end <= n {
      PassesPrefix(song.mem, song.areas[i], song.starts[i], end, n);
    }
  }

  // A track ends once.
  lemma EndIsUnique(song: Song, i: nat, n: nat, end: nat)
    requires song.WellFormed() && i < TRACKS && Ended(song, i, end) && Ended(song, i, n)
    ensures n == end
  {
    hide Passes;
    var a, t := song.areas[i], song.starts[i];
    PassesLength(song.mem, a, t, n);
    PassesLength(song.mem, a, t, end);
    PassesPrefix(song.mem, a, t, if n < end then n else end, if n < end then end else n);
  }

  lemma {:induction false} LeftFalls(n: nat, valid: set<nat>, counts: seq<nat>, ends: seq<nat>, k: nat, after: set<nat>)
    requires n <= |counts| && n <= |ends| && k < |counts| && after <= valid && k in valid
    requires k < n ==> counts[k] < ends[k]
    ensures Left(n, after, counts[k := counts[k] + 1], ends) <= Left(n, valid, counts, ends) - if k < n then 1 else 0
  {
    if n > 0 {
      LeftFalls(n - 1, valid, counts, ends, k, after);
    }
  }

  lemma MergedTracks(song: Song, s: Sequence, log: seq<Logged>, counts: seq<nat>, now: nat, k: nat)
    requires Merged(song, s, log, counts, now) && k in s.valid
    ensures k in song.used && k < TRACKS == |counts| && song.WellFormed() && s.valid <= song.used
    ensures song.Alone(k, counts[k]).Some? && NoEnd(song.Alone(k, counts[k]).value.items)
  {
    hide Passes, ReadVarLen;
    ValidIsUnderWay(song, s, log, counts, now, k);
  }

  // When one track is left, it is the one that ends last: the others have ended, and nothing of
  // it that is still to come is before their ends.
  lemma LastLeft(
    song: Song, s: Sequence, log: seq<Logged>, counts: seq<nat>, now: nat, ends: seq<nat>, k: nat)
    requires Merged(song, s, log, counts, now) && s.valid == {k} && song.WellFormed() && Lasts(song, ends)
    ensures LastToEnd(song, ends, k)
  {
    hide Passes, UnderWay, Ended, OnTrack, Timeline, InOrder, Playable, Sum, EndTick;
    MergedTracks(song, s, log, counts, now, k);
    DueBeforeEnd(song, s, log, counts, now, ends, k);
    forall j <- song.used | j != k
      ensures EndTick(song, j, ends[j]) < EndTick(song, k, ends[k])
        || (EndTick(song, j, ends[j]) == EndTick(song, k, ends[k]) && j < k)
    {
      EndIsUnique(song, j, counts[j], ends[j]);
      EndIsLogged(song, log, j, ends[j]);
    }
  }

  // The end of a track is in the log, at its tick.
  lemma {:induction false} EndIsLogged(song: Song, log: seq<Logged>, j: nat, end: nat)
    requires song.WellFormed() && j < TRACKS && Ended(song, j, end)
    requires OnTrack(log, j) == Timeline(song.Alone(j, end).value.items, 0)
    ensures Logged(EndTick(song, j, end), j, EndEvent) in log
  {
    hide Passes;
    var items := song.Alone(j, end).value.items;
    TimelineTicks(items, 0);
    OnTrackFrom(log, j, Timeline(items, 0)[|items| - 1]);
  }

  lemma DueBeforeEnd(
    song: Song, s: Sequence, log: seq<Logged>, counts: seq<nat>, now: nat, ends: seq<nat>, k: nat)
    requires Merged(song, s, log, counts, now) && k in s.valid && song.WellFormed() && Lasts(song, ends)
    ensures k < TRACKS && song.Alone(k, counts[k] + 1).Some?
    ensures Due(song, k, counts[k]) <= EndTick(song, k, ends[k]) && AllNotAfter(log, Due(song, k, counts[k]), k)
  {
    hide Passes, OnTrack, Timeline, InOrder, Playable, Sum;
    MergedTracks(song, s, log, counts, now, k);
    NotYet(song, k, counts[k], ends[k]);
    PassesPrefix(song.mem, song.areas[k], song.starts[k], counts[k] + 1, ends[k]);
    PassesLength(song.mem, song.areas[k], song.starts[k], counts[k] + 1);
    var items, all := song.Alone(k, counts[k] + 1).value.items, song.Alone(k, ends[k]).value.items;
    assert items == all[..counts[k] + 1];
    SumOfPrefix(all, counts[k] + 1);
  }

  lemma LeftIsReadable(song: Song, s: Sequence, log: seq<Logged>, counts: seq<nat>, now: nat, ends: seq<nat>, k: nat)
    requires Merged(song, s, log, counts, now) && s.valid == {k} && song.WellFormed() && Ends(song, ends)
    ensures k < TRACKS == |counts| && DeltaBehind(song, k, counts[k] + 1)
  {
    hide Merged, LastToEnd, ReadVarLen, Passes, Ended;
    MergedTracks(song, s, log, counts, now, k);
    LastLeft(song, s, log, counts, now, ends, k);
    if Ended(song, k, counts[k] + 1) {
      EndIsUnique(song, k, counts[k] + 1, ends[k]);
    }
  }

  // From any state of the merge, some run leads to the end, if every track has one.
  lemma {:induction false} RunsToTheEnd(
    song: Song, s: Standing, n: nat, counts: seq<nat>, ends: seq<nat>) returns (m: nat)
    requires RunOf(s, n).Some?
    requires var r := RunOf(s, n).value; Merged(song, r.last, LogOf(r.steps), counts, Now(r.steps))
    requires song.WellFormed() && Ends(song, ends)
    ensures m >= n && RunOf(s, m).Some? && RunOf(s, m).value.last.valid == {}
    decreases Left(TRACKS, RunOf(s, n).value.last.valid, counts, ends)
  {
    hide NextEvent, Merged, Due, Now, LogOf, Proper, DeltaBehind, Ended, Left, Passes, LastToEnd;
    m := n;
    var r := RunOf(s, n).value;
    if r.last.valid != {} {
      var some :| some in r.last.valid;
      MergedTracks(song, r.last, LogOf(r.steps), counts, Now(r.steps), some);
      if r.last.valid == {some} {
        LeftIsReadable(song, r.last, LogOf(r.steps), counts, Now(r.steps), ends, some);
      }
      NextCanBeRead(song, r.last, LogOf(r.steps), counts, Now(r.steps));
      var step := NextEvent(r.last).value;
      var k := step.track;
      MergeStep(song, r.last, LogOf(r.steps), counts, Now(r.steps), step);
      LogGrowsBy(r.steps, step);
      EndOfStep(r.last, step);
      MergedTracks(song, r.last, LogOf(r.steps), counts, Now(r.steps), k);
      NotYet(song, k, counts[k], ends[k]);
      LeftFalls(TRACKS, r.last.valid, counts, ends, k, step.next.valid);
      m := RunsToTheEnd(song, s, n + 1, counts[k := counts[k] + 1], ends);
    }
  }

  // The log holds every event of the track, each at its absolute tick.
  predicate DeliveredInFull(song: Song, log: seq<Logged>, i: nat, end: nat)
    requires song.WellFormed() && i < TRACKS
  {
    song.Alone(i, end).Some? && OnTrack(log, i) == Timeline(song.Alone(i, end).value.items, 0)
  }

  lemma ProperSong(song: Song)
    requires Merge.Proper(song)
    ensures song.WellFormed()
  {
  }

  // A song can be played to its end: some run delivers every event of every track, each at its
  // absolute tick, in the order of the merge; the sequence end is its last event and no other.
  lemma SongEnds(song: Song, base: nat, s: Standing, ends: seq<nat>) returns (m: nat)
    requires Merge.Proper(song) && Starts(song, base) && New(song.mem, base) == Some(s) && s.valid != {}
    requires Ends(song, ends)
    ensures m > 0 && RunOf(s, m).Some?
    ensures var r := RunOf(s, m).value;
      && r.last.valid == {} && InOrder(LogOf(r.steps))
      && (forall i :: 0 <= i < m ==> (r.steps[i].event.SeqEnd? <==> i == m - 1))
      && (forall i <- song.used :: DeliveredInFull(song, LogOf(r.steps), i, ends[i]))
  {
    hide NextEvent, New, Due, Now, LogOf, Merge.Proper, Starts, DeltaBehind, Ended, Passes, UnderWay, OnTrack;
    hide LastToEnd, Timeline, InOrder;
    ProperSong(song);
    var counts := RunMerges(song, base, s, 0);
    m := RunsToTheEnd(song, s, 0, counts, ends);
    var r := RunOf(s, m).value;
    EndsAreCounted(s, m);
    var after := RunMerges(song, base, s, m);
    forall i <- song.used ensures DeliveredInFull(song, LogOf(r.steps), i, ends[i]) {
      EndIsUnique(song, i, after[i], ends[i]);
    }
  }

  // And a song whose loops all have finite counts is such a song.
  lemma FiniteSongEnds(song: Song) returns (ends: seq<nat>)
    requires Merge.Proper(song)
    requires forall i <- song.used :: song.areas[i].Only? && AllFinite(song.mem, song.areas[i].counters)
    ensures Lasts(song, ends)
  {
    hide Playable, AllFinite, Ended;
    ends := [];
    while |ends| < TRACKS
      invariant |ends| <= TRACKS && forall i <- song.used :: i < |ends| ==> Ended(song, i, ends[i])
    {
      var end := 0;
      if |ends| in song.used {
        end := TrackEnds(song, |ends|);
      }
      ends := ends + [end];
    }
  }

  // ---- a marker can always be made ----

  // Within a run that ends the sequence, the search of alCSeqNewMarker stops.
  lemma {:induction false} SearchStops(s: Sequence, ticks: u32, n: nat)
    requires s.WellFormed() && n > 0 && RunOf(s, n).Some? && RunOf(s, n).value.steps[n - 1].event.SeqEnd?
    ensures Search(s, ticks, n).Some?
    decreases n
  {
    hide NextEvent, RunOf;
    RunHead(s, n);
    var r := NextEvent(s).value;
    RunFirst(s, r, n - 1);
    if !r.event.SeqEnd? && r.next.lastTicks < ticks {
      assert RunOf(s, n).value.steps == [r] + RunOf(r.next, n - 1).value.steps;
      SearchStops(r.next, ticks, n - 1);
    }
  }

  // A bound on the events it reads is only a bound: with enough of them the search of a song
  // that ends finds its place, and with more of them the same one.
  lemma {:induction false} MoreReachesTheSame(s: Sequence, ticks: u32, n: nat, m: nat)
    requires s.WellFormed() && Search(s, ticks, n).Some? && n <= m
    ensures Search(s, ticks, m) == Search(s, ticks, n)
    decreases n
  {
    hide NextEvent;
    var r := NextEvent(s).value;
    if !r.event.SeqEnd? && r.next.lastTicks < ticks {
      MoreReachesTheSame(r.next, ticks, n - 1, m - 1);
    }
  }

  lemma MarkerCanBeMade(song: Song, base: nat, s: Standing, ends: seq<nat>, ticks: u32) returns (fuel: nat)
    requires Merge.Proper(song) && Starts(song, base) && New(song.mem, base) == Some(s) && s.valid != {}
    requires Ends(song, ends)
    ensures forall more: nat :: more >= fuel ==>
      && NewMarker(song.mem, base, ticks, more).Some?
      && NewMarker(song.mem, base, ticks, more) == NewMarker(song.mem, base, ticks, fuel)
  {
    hide Merge.Proper, Starts, New, Ends, RunOf, Search, Timeline, InOrder;
    fuel := SongEnds(song, base, s, ends);
    SearchStops(s, ticks, fuel);
    forall more: nat | more >= fuel
      ensures NewMarker(song.mem, base, ticks, more).Some?
      ensures NewMarker(song.mem, base, ticks, more) == NewMarker(song.mem, base, ticks, fuel)
    {
      MoreReachesTheSame(s, ticks, fuel, more);
    }
  }
}
