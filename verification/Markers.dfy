// Markers of src/audio/cseq.c: saved places of a sequence.
module Markers {
  import opened Machine
  import opened TrackReader
  import opened Sequencer
  import opened MergeRuns

  // ALCSeqMarker
  datatype Marker = Marker(valid: set<nat>, lastTicks: u32, lastDelta: u32, tracks: seq<Track>)

  // alCSeqGetLoc
  function GetLoc(s: Sequence): Marker {
    Marker(s.valid, s.lastTicks, s.lastDelta, s.tracks)
  }

  // alCSeqSetLoc. The delta flag and the data of the sequence are not part of a marker.
  function SetLoc(s: Sequence, m: Marker): Sequence {
    s.(valid := m.valid, lastTicks := m.lastTicks, lastDelta := m.lastDelta, tracks := m.tracks)
  }

  // The loop of alCSeqNewMarker on its own copy of the sequence; `fuel` bounds the number of
  // events read, since an endless loop of no duration would keep it busy for ever.
  function Search(s: Sequence, ticks: u32, fuel: nat): Option<Found>
    requires s.WellFormed()
    decreases fuel
  {
    if fuel == 0 then None
    else
      var r :- NextEvent(s);
      if r.event.SeqEnd? || r.next.lastTicks >= ticks then Some(Found(GetLoc(s), r.next.mem))
      else Search(r.next, ticks, fuel - 1)
  }

  // The copy shares its data, and so its loop counters, with the sequence.
  datatype Found = Found(marker: Marker, mem: Bytes)

  // alCSeqNewMarker
  function NewMarker(mem: Bytes, base: nat, ticks: u32, fuel: nat): Option<Found> {
    var s :- New(mem, base);
    Search(s, ticks, fuel)
  }

  // The place a marker is made for: the event after the first k is the first one that is due
  // at or after `ticks`, or ends the sequence.
  predicate StopsAt(s: Sequence, ticks: u32, k: nat)
    requires s.WellFormed()
  {
    var r := RunOf(s, k + 1);
    && r.Some?
    && (forall i :: 0 <= i < k ==> !r.value.steps[i].event.SeqEnd? && r.value.steps[i].next.lastTicks < ticks)
    && (r.value.steps[k].event.SeqEnd? || r.value.steps[k].next.lastTicks >= ticks)
  }

  lemma {:induction false} RunFirst(s: Sequence, r: SeqStep, n: nat)
    requires s.WellFormed() && NextEvent(s) == Some(r)
    ensures RunOf(s, n + 1) == match RunOf(r.next, n)
      case None => None
      case Some(q) => Some(Run([r] + q.steps, q.last))
    decreases n
  {
    hide NextEvent;
    if n == 0 {
      assert RunOf(s, 0) == Some(Run([], s)) && [] + [r] == [r] + [];
    } else {
      RunFirst(s, r, n - 1);
      var q := RunOf(r.next, n - 1);
      if q.Some? && NextEvent(q.value.last).Some? {
        var step := NextEvent(q.value.last).value;
        assert [r] + q.value.steps + [step] == [r] + (q.value.steps + [step]);
      }
    }
  }

  // The search finds that place: the marker is the state just before that event.
  lemma {:induction false} SearchFinds(s: Sequence, ticks: u32, fuel: nat) returns (k: nat)
    requires s.WellFormed() && Search(s, ticks, fuel).Some?
    ensures k < fuel && StopsAt(s, ticks, k)
    ensures Search(s, ticks, fuel) == Some(Found(GetLoc(RunOf(s, k).value.last), RunOf(s, k + 1).value.last.mem))
    decreases fuel
  {
    hide NextEvent;
    var r := NextEvent(s).value;
    if r.event.SeqEnd? || r.next.lastTicks >= ticks {
      k := 0;
      RunFirst(s, r, 0);
    } else {
      var j := SearchFinds(r.next, ticks, fuel - 1);
      k := j + 1;
      RunFirst(s, r, j + 1);
      RunFirst(s, r, j);
    }
  }

  // And when there is such a place within reach, it is found.
  lemma {:induction false} SearchReaches(s: Sequence, ticks: u32, k: nat, fuel: nat)
    requires s.WellFormed() && StopsAt(s, ticks, k) && k < fuel
    ensures Search(s, ticks, fuel) == Some(Found(GetLoc(RunOf(s, k).value.last), RunOf(s, k + 1).value.last.mem))
    decreases k
  {
    hide NextEvent, StopsAt;
    StopsStart(s, ticks, k);
    if k > 0 {
      SearchReaches(NextEvent(s).value.next, ticks, k - 1, fuel - 1);
    }
  }

  lemma {:induction false} RunFewer(s: Sequence, k: nat)
    requires s.WellFormed() && RunOf(s, k + 1).Some?
    ensures RunOf(s, k).Some? && RunOf(s, k + 1).value.steps[..k] == RunOf(s, k).value.steps
  {
    hide NextEvent;
  }

  lemma StopsStart(s: Sequence, ticks: u32, k: nat)
    requires s.WellFormed() && StopsAt(s, ticks, k)
    ensures NextEvent(s).Some?
    ensures var r := NextEvent(s).value;
      && RunOf(s, 1).Some? && RunOf(s, 1).value.last == r.next
      && if k == 0 then r.event.SeqEnd? || r.next.lastTicks >= ticks
         else !r.event.SeqEnd? && r.next.lastTicks < ticks && StopsAt(r.next, ticks, k - 1)
    ensures k > 0 ==> RunOf(s, k).Some? && RunOf(s, k).value.last == RunOf(NextEvent(s).value.next, k - 1).value.last
    ensures k > 0 ==> RunOf(s, k + 1).value.last == RunOf(NextEvent(s).value.next, k).value.last
    ensures RunOf(s, 0) == Some(Run([], s))
  {
    hide NextEvent, RunOf;
    RunHead(s, k + 1);
    RunNone(s);
    var r := NextEvent(s).value;
    RunNone(r.next);
    RunFirst(s, r, k);
    RunFirst(s, r, 0);
    var all := RunOf(s, k + 1).value.steps;
    assert all[0] == r;
    if k > 0 {
      RunFirst(s, r, k - 1);
      RunFewer(r.next, k - 1);
      assert forall i :: 0 <= i < k ==> RunOf(r.next, k).value.steps[i] == all[i + 1];
    }
  }

  lemma {:induction false} RunNone(s: Sequence)
    requires s.WellFormed()
    ensures RunOf(s, 0) == Some(Run([], s))
  {
  }

  lemma {:induction false} RunHead(s: Sequence, n: nat)
    requires s.WellFormed() && n > 0 && RunOf(s, n).Some?
    ensures NextEvent(s).Some?
  {
    if n > 1 {
      RunHead(s, n - 1);
    }
  }

  // ---- replaying from a marker ----

  // A sequence over the same data whose flag is the one at the capture is, after alCSeqSetLoc,
  // in the captured state: every run from there is the same.
  lemma {:induction false} ReplaysSame(s: Sequence, c: Sequence, n: nat)
    requires s.WellFormed() && c.WellFormed() && s.mem == c.mem && s.flag == c.flag
    ensures SetLoc(s, GetLoc(c)).WellFormed() && RunOf(SetLoc(s, GetLoc(c)), n) == RunOf(c, n)
  {
    assert SetLoc(s, GetLoc(c)) == c;
  }

  // The flag itself is not restored. With another flag than at the capture, the next event is
  // the same exactly if there is nothing to subtract.
  lemma ReplaysIff(s: Sequence, c: Sequence)
    requires s.WellFormed() && c.WellFormed() && s.mem == c.mem && s.flag != c.flag && NextEvent(c).Some?
    ensures SetLoc(s, GetLoc(c)).WellFormed()
    ensures c.lastDelta == 0 <==> NextEvent(SetLoc(s, GetLoc(c))) == NextEvent(c)
  {
    hide NextEvent;
    if c.lastDelta == 0 {
      NothingSubtracted(c, SetLoc(s, GetLoc(c)));
    } else {
      SubtractedOnce(c, SetLoc(s, GetLoc(c)));
    }
  }

  lemma NothingSubtracted(c: Sequence, q: Sequence)
    requires c.WellFormed() && q == c.(flag := !c.flag) && c.lastDelta == 0
    ensures NextEvent(q) == NextEvent(c)
  {
    hide GetEvent, AddDelta, Pick;
    assert Subtracted(c).tracks == c.tracks && Subtracted(q).tracks == c.tracks;
    PickIgnoresFlag(Subtracted(c), Subtracted(q), TRACKS);
  }

  lemma SubtractedOnce(c: Sequence, q: Sequence)
    requires c.WellFormed() && q == c.(flag := !c.flag) && c.lastDelta != 0 && NextEvent(c).Some?
    ensures NextEvent(q) != NextEvent(c)
  {
    hide GetEvent, AddDelta, Pick;
    var k := NextEvent(c).value.track;
    var plain, less := c.tracks[k].delta, Minus(c.tracks[k].delta, c.lastDelta);
    assert plain != less;
  }

  // And so is every longer run.
  lemma {:induction false} RunReplaysIff(s: Sequence, c: Sequence, n: nat)
    requires s.WellFormed() && c.WellFormed() && s.mem == c.mem && s.flag != c.flag && n > 0 && RunOf(c, n).Some?
    ensures SetLoc(s, GetLoc(c)).WellFormed()
    ensures c.lastDelta == 0 <==> RunOf(SetLoc(s, GetLoc(c)), n) == RunOf(c, n)
  {
    hide NextEvent, RunOf;
    var q := SetLoc(s, GetLoc(c));
    RunHead(c, n);
    ReplaysIff(s, c);
    RunFirst(c, NextEvent(c).value, n - 1);
    if RunOf(q, n).Some? {
      RunHead(q, n);
      RunFirst(q, NextEvent(q).value, n - 1);
      assert RunOf(c, n).value.steps[0] == NextEvent(c).value && RunOf(q, n).value.steps[0] == NextEvent(q).value;
    } else if c.lastDelta == 0 {
      RunFirst(q, NextEvent(q).value, n - 1);
    }
  }

  lemma {:induction false} OnlyTrack(s: Sequence, n: nat)
    requires s.WellFormed() && s.valid == {0} && s.tracks[0].delta < NO_TIME && 0 < n <= TRACKS
    ensures Pick(s, n) == Some(0)
  {
    if n > 1 {
      OnlyTrack(s, n - 1);
    }
  }

  // Loop-free data is not changed by reading.
  predicate LoopFree(steps: seq<SeqStep>) {
    forall i :: 0 <= i < |steps| ==> steps[i].item != LoopEndEvent
  }

  lemma FewerLoopFree(steps: seq<SeqStep>, k: nat)
    requires k <= |steps| && LoopFree(steps)
    ensures LoopFree(steps[..k])
  {
  }

  lemma {:induction false} LoopFreeKeepsData(s: Sequence, n: nat)
    requires s.WellFormed() && RunOf(s, n).Some? && LoopFree(RunOf(s, n).value.steps)
    ensures RunOf(s, n).value.last.mem == s.mem
    decreases n
  {
    hide NextEvent;
    if n > 0 {
      var before := RunOf(s, n - 1).value;
      var step := NextEvent(before.last).value;
      assert RunOf(s, n).value.steps[n - 1] == step;
      assert forall i :: 0 <= i < n - 1 ==> RunOf(s, n).value.steps[i] == before.steps[i];
      LoopFreeKeepsData(s, n - 1);
      StepKeepsData(before.last, step);
    }
  }

  lemma StepKeepsData(s: Sequence, r: SeqStep)
    requires s.WellFormed() && NextEvent(s) == Some(r) && r.item != LoopEndEvent
    ensures r.next.mem == s.mem && r.next.flag
  {
    hide AddDelta, Pick, ReadVarLen;
  }

  // A run can be cut in two anywhere.
  lemma {:induction false} RunJoins(s: Sequence, k: nat, n: nat)
    requires s.WellFormed() && RunOf(s, k).Some?
    ensures RunOf(s, k + n) == match RunOf(RunOf(s, k).value.last, n)
      case None => None
      case Some(q) => Some(Run(RunOf(s, k).value.steps + q.steps, q.last))
    decreases n
  {
    hide NextEvent;
    var head := RunOf(s, k).value;
    if n == 0 {
      assert head.steps + [] == head.steps;
    } else {
      RunJoins(s, k, n - 1);
      var tail := RunOf(head.last, n - 1);
      if tail.Some? && NextEvent(tail.value.last).Some? {
        var step := NextEvent(tail.value.last).value;
        assert head.steps + (tail.value.steps + [step]) == head.steps + tail.value.steps + [step];
      }
    }
  }

  // Let the search stop before the event after the first k, with no loop end up to that event.
  // Then its marker, set on any sequence over the same data that stands behind an event, goes
  // on exactly as a fresh sequence does behind its first k events: every run from there is the
  // same, to the end of the sequence and beyond it.
  lemma MarkerReplays(mem: Bytes, base: nat, ticks: u32, fuel: nat, k: nat, s: Sequence, n: nat)
    requires NewMarker(mem, base, ticks, fuel).Some? && StopsAt(New(mem, base).value, ticks, k) && k < fuel
    requires LoopFree(RunOf(New(mem, base).value, k + 1).value.steps)
    requires s.WellFormed() && s.flag && s.mem == NewMarker(mem, base, ticks, fuel).value.mem
    ensures s.mem == mem && RunOf(New(mem, base).value, k).Some?
    ensures var head := RunOf(New(mem, base).value, k).value;
      var replay := SetLoc(s, NewMarker(mem, base, ticks, fuel).value.marker);
      && replay.WellFormed()
      && RunOf(replay, n) == RunOf(head.last, n)
      && RunOf(New(mem, base).value, k + n) == match RunOf(replay, n)
        case None => None
        case Some(q) => Some(Run(head.steps + q.steps, q.last))
  {
    hide NextEvent, New, Search, RunOf, LoopFree;
    var start := New(mem, base).value;
    SearchReaches(start, ticks, k, fuel);
    LoopFreeKeepsData(start, k + 1);
    RunFewer(start, k);
    FewerLoopFree(RunOf(start, k + 1).value.steps, k);
    LoopFreeKeepsData(start, k);
    FlagAfterRun(mem, base, start, k);
    ReplaysSame(s, RunOf(start, k).value.last, n);
    RunJoins(start, k, n);
  }

  lemma {:induction false} FlagAfterRun(mem: Bytes, base: nat, s: Sequence, k: nat)
    requires New(mem, base) == Some(s) && RunOf(s, k).Some?
    ensures RunOf(s, k).value.last.flag && s.mem == mem
    decreases k
  {
    hide NextEvent, NewTracks;
    if k > 0 {
      FlagAfterRun(mem, base, s, k - 1);
      FlagAfterStep(RunOf(s, k - 1).value.last, RunOf(s, k).value.steps[k - 1]);
    }
  }

  lemma FlagAfterStep(s: Sequence, r: SeqStep)
    requires s.WellFormed() && NextEvent(s) == Some(r)
    ensures r.next.flag
  {
  }
}
