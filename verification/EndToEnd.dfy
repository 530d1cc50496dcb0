// The whole pipeline: what the player handles, when, and where it stands in the song.
module EndToEnd {
  import opened Machine
  import opened DeltaList
  import opened Sequencer
  import opened Merge
  import opened MergeRuns
  import opened Player
  import opened PlayerInvariant
  import opened NoDrift
  import opened NoteTiming

  function Steps(played: seq<Played>): (r: seq<SeqStep>)
    ensures |r| == |played|
  {
    seq(|played|, k requires 0 <= k < |played| => played[k].step)
  }

  // The player plays the song: while it goes on playing a sequence that starts at the
  // beginning of a file, what it handles is a beginning of the merge of the file's tracks by
  // absolute tick, each event at the time of the play event plus, for all events up to it,
  // their ticks times the microseconds per tick then in force.
  lemma SongIsPlayedOnTime(
    song: Song, base: nat, s: Standing, p: Player, a: Answer, acts: seq<Act>) returns (counts: seq<nat>)
    requires Merge.Proper(song) && Starts(song, base) && New(song.mem, base) == Some(s)
    requires Sane(p) && p.state != Playing && p.next.PlayEvent? && p.target == Some(s) && s.valid != {} && p.free > 0
    requires Step(p, a).Some? && NextDelay(Step(p, a).value) < AL_EVTQ_END
    requires Steady(Step(p, a).value, acts)
    ensures var played := PlayedIn(Step(p, a).value, acts);
      && LastTime(played, p.now) == p.now + Elapsed(played, p.uspt)
      && var run := MergeRuns.RunOf(s, |played|);
      && run.Some? && Steps(played) == run.value.steps
      && |counts| == TRACKS && Merge.Merged(song, run.value.last, LogOf(Steps(played)), counts, Now(Steps(played)))
  {
    hide Step, Merge.Merged, Merge.Proper, Starts, New, MergeRuns.RunOf, NextDelay, PlayedIn, Sane, Now, LogOf, Elapsed;
    var played := PlayedIn(Step(p, a).value, acts);
    NeverDrifts(p, a, s, acts);
    TimesAreSums(played, p.now, p.uspt);
    var run := MergeRuns.RunOf(s, |played|).value;
    assert Steps(played) == run.steps;
    counts := RunMerges(song, base, s, |played|);
  }

  // And it ends on time: the sequence end is handled at the time of all ticks before it and its
  // own, and with it every track has been delivered in full.
  lemma SongEndsOnTime(
    song: Song, base: nat, s: Standing, p: Player, a: Answer, acts: seq<Act>) returns (counts: seq<nat>)
    requires Merge.Proper(song) && Starts(song, base) && New(song.mem, base) == Some(s)
    requires Sane(p) && p.state != Playing && p.next.PlayEvent? && p.target == Some(s) && s.valid != {} && p.free > 0
    requires Step(p, a).Some? && NextDelay(Step(p, a).value) < AL_EVTQ_END
    requires Steady(Step(p, a).value, acts)
    requires var r := RunPlayer(Step(p, a).value, acts).value;
      r.next.SeqRef? && r.target.Some? && NextEvent(r.target.value).Some?
        && NextEvent(r.target.value).value.event.SeqEnd?
    ensures var played, r := PlayedIn(Step(p, a).value, acts), RunPlayer(Step(p, a).value, acts).value;
      var last := NextEvent(r.target.value).value;
      var steps := Steps(played) + [last];
      && r.now == p.now + Elapsed(played, p.uspt) + last.ticks * LastUspt(played, p.uspt)
      && MergeRuns.RunOf(s, |steps|) == Some(Run(steps, last.next)) && last.next.valid == {}
      && |counts| == TRACKS && Merge.Merged(song, last.next, LogOf(steps), counts, Now(steps))
      && song.WellFormed() && forall i <- song.used :: Ended(song, i, counts[i])
  {
    hide Step, Merge.Proper, Starts, New, NextDelay, PlayedIn, Sane, Now, LogOf, Elapsed, NextEvent, RunPlayer;
    hide Merge.Merged, Ended, LastTime;
    var played, r := PlayedIn(Step(p, a).value, acts), RunPlayer(Step(p, a).value, acts).value;
    var last := NextEvent(r.target.value).value;
    counts := SongIsPlayedOnTime(song, base, s, p, a, acts);
    NextIsOnTime(p, a, s, acts);
    var run := MergeRuns.RunOf(s, |played|).value;
    EndOfStep(run.last, last);
    assert MergeRuns.RunOf(s, |played| + 1) == Some(Run(run.steps + [last], last.next));
    counts := RunMerges(song, base, s, |played| + 1);
    EndedTracks(song, last.next, LogOf(run.steps + [last]), counts, Now(run.steps + [last]));
  }

  lemma EndedTracks(song: Song, s: Sequence, log: seq<Logged>, counts: seq<nat>, now: nat)
    requires Merge.Merged(song, s, log, counts, now) && s.valid == {}
    ensures song.WellFormed() && |counts| == TRACKS && forall i <- song.used :: i < TRACKS && Ended(song, i, counts[i])
  {
    hide UnderWay, Ended, OnTrack, Timeline, InOrder, Separate, Playable;
  }

  // The ticks by which the player's clock counts are the absolute ticks of the merge.
  lemma {:induction false} ClockCountsTicks(p: Player, acts: seq<Act>, c: Clock)
    requires RunPlayer(p, acts).Some?
    ensures ScoreOf(p, acts, c).clock.tick == c.tick + Now(Steps(PlayedIn(p, acts)))
    decreases |acts|
  {
    hide Do, NextEvent, EndedBy, StruckBy;
    if acts == [] {
      assert Steps([]) == [];
    } else {
      var n := |acts| - 1;
      ClockCountsTicks(p, acts[..n], c);
      var q, before := RunPlayer(p, acts[..n]).value, PlayedIn(p, acts[..n]);
      if HandlesSequence(q, acts[n]) && q.target.Some? && NextEvent(q.target.value).Some? {
        var x := Played(q.now, NextEvent(q.target.value).value, RunPlayer(p, acts).value.uspt);
        assert Steps(before + [x]) == Steps(before) + [x.step];
        LogGrowsBy(Steps(before), x.step);
      }
    }
  }
}
