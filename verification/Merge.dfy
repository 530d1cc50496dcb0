// The sequencer of src/audio/cseq.c delivers the merge of its tracks: their events in the
// order of absolute ticks, and at the same tick in the order of track numbers.
module Merge {
  import opened Machine
  import opened TrackReader
  import opened TrackFrames
  import opened TrackRuns
  import opened Sequencer

  // A delta this large would let a u32 sum of two of them overflow. A quantity of the
  // standard's four bytes is far smaller.
  const DELTA_LIMIT := 0x8000_0000

  // A sequence file as it is started: its bytes, the tracks in use, where each begins, and the
  // part of the file each may use.
  datatype Song = Song(mem: Bytes, used: set<nat>, starts: seq<Track>, areas: seq<Area>) {
    ghost predicate WellFormed() {
      |starts| == |areas| == TRACKS && forall i <- used :: i < TRACKS
    }

    // What track i delivers on its own, reading its first n events.
    function Alone(i: nat, n: nat): Option<Reading>
      requires i < |starts| && i < |areas|
    {
      Passes(mem, areas[i], starts[i], n)
    }
  }

  predicate NoEnd(items: seq<Item>) {
    forall i :: 0 <= i < |items| ==> items[i].evt != EndEvent
  }

  // Alone, the track can be read on behind its n-th event unless that was its end, and the delta
  // of the next one is in bounds.
  ghost predicate GoesOn(song: Song, i: nat, n: nat)
    requires song.WellFormed() && i < TRACKS
  {
    song.Alone(i, n).Some? && NoEnd(song.Alone(i, n).value.items) ==>
      song.Alone(i, n + 1).Some? && LastDelta(song.Alone(i, n + 1).value.items) < DELTA_LIMIT
  }

  ghost predicate Playable(song: Song, i: nat)
    requires song.WellFormed() && i < TRACKS
  {
    forall n: nat :: GoesOn(song, i, n)
  }

  function LastDelta(items: seq<Item>): nat {
    if items == [] then 0 else items[|items| - 1].delta
  }

  // No track uses the loop counters of another.
  ghost predicate Separate(song: Song)
    requires song.WellFormed()
  {
    forall i, j, x :: i in song.used && j in song.used && i != j && song.areas[j].Writes(x) ==>
      !song.areas[i].Reads(x) && !song.areas[i].Writes(x)
  }

  ghost predicate Proper(song: Song) {
    song.WellFormed() && Separate(song) && forall i <- song.used :: Playable(song, i)
  }

  // ---- one track within the merge ----

  // Track i has delivered n events and not ended; the sequencer, at t, stands behind the delta
  // of the next one.
  ghost predicate InStep(song: Song, i: nat, n: nat, mem: Bytes, t: Track)
    requires song.WellFormed() && i < TRACKS
  {
    && song.Alone(i, n).Some? && NoEnd(song.Alone(i, n).value.items)
    && var r := song.Alone(i, n).value;
    && Agree(r.mem, mem, song.areas[i])
    && var d := ReadVarLen(r.mem, song.areas[i], r.track);
    && d.Some? && Alike(d.value.1, t)
  }

  lemma AloneNext(song: Song, i: nat, n: nat)
    requires song.WellFormed() && i < TRACKS && Playable(song, i)
    requires song.Alone(i, n).Some? && NoEnd(song.Alone(i, n).value.items)
    ensures var r := song.Alone(i, n).value;
      var q := song.Alone(i, n + 1);
      q.Some? && var d := ReadVarLen(r.mem, song.areas[i], r.track);
      d.Some? && var e := GetEvent(r.mem, song.areas[i], d.value.1);
      && e.Some? && q.value == Reading(r.items + [Item(d.value.0, e.value.evt)], e.value.mem, e.value.track)
      && d.value.0 < DELTA_LIMIT
  {
    hide GetEvent, ReadVarLen;
    assert GoesOn(song, i, n);
    PassesLast(song.mem, song.areas[i], song.starts[i], n);
    assert LastDelta(song.Alone(i, n + 1).value.items) < DELTA_LIMIT;
  }

  // The event the sequencer reads is the track's next one, and the memory it leaves behind
  // differs only in this track's counters.
  lemma NextOfTrack(song: Song, i: nat, n: nat, mem: Bytes, t: Track)
    requires song.WellFormed() && i < TRACKS && Playable(song, i) && InStep(song, i, n, mem, t)
    ensures song.Alone(i, n + 1).Some? && GetEvent(mem, Everywhere, t).Some?
    ensures var e, q := GetEvent(mem, Everywhere, t).value, song.Alone(i, n + 1).value;
      && q.items == song.Alone(i, n).value.items + [Item(LastDelta(q.items), e.evt)]
      && LastDelta(q.items) < DELTA_LIMIT
      && Overlaid(e.mem, mem, q.mem, song.areas[i]) && Agree(q.mem, e.mem, song.areas[i]) && Alike(q.track, e.track)
  {
    hide GetEvent, ReadVarLen, Passes;
    AloneNext(song, i, n);
    var r, a := song.Alone(i, n).value, song.areas[i];
    var t1 := ReadVarLen(r.mem, a, r.track).value.1;
    GetEventFrame(r.mem, a, t1, mem, Everywhere, t);
    GetEventWrites(r.mem, a, t1);
  }

  // And the delta it reads behind the event is the one of the track's event after that.
  lemma DeltaOfTrack(song: Song, i: nat, n: nat, mem: Bytes, t: Track, e: Step)
    requires song.WellFormed() && i < TRACKS && Playable(song, i) && InStep(song, i, n, mem, t)
    requires GetEvent(mem, Everywhere, t) == Some(e) && e.evt != EndEvent
    ensures ReadVarLen(e.mem, Everywhere, e.track).Some?
    ensures InStep(song, i, n + 1, e.mem, ReadVarLen(e.mem, Everywhere, e.track).value.1)
    ensures song.Alone(i, n + 2).Some?
    ensures ReadVarLen(e.mem, Everywhere, e.track).value.0 == LastDelta(song.Alone(i, n + 2).value.items) < DELTA_LIMIT
    ensures song.Alone(i, n + 1).Some?
    ensures Due(song, i, n + 1) == Due(song, i, n) + ReadVarLen(e.mem, Everywhere, e.track).value.0
  {
    hide GetEvent, ReadVarLen, Passes;
    NextOfTrack(song, i, n, mem, t);
    var r, a := song.Alone(i, n + 1).value, song.areas[i];
    assert NoEnd(r.items);
    AloneNext(song, i, n + 1);
    ReadVarLenFrame(r.mem, a, r.track, e.mem, Everywhere, e.track);
    SumAppend(r.items, song.Alone(i, n + 2).value.items[|r.items|]);
  }

  // ---- the log of a run ----

  datatype Stamp = Stamp(tick: nat, evt: TrackEvent)

  datatype Logged = Logged(tick: nat, track: nat, evt: TrackEvent)

  function Sum(items: seq<Item>): nat {
    if items == [] then 0 else items[0].delta + Sum(items[1..])
  }

  // The events with their absolute ticks, counted from `from`.
  function Timeline(items: seq<Item>, from: nat): seq<Stamp> {
    if items == [] then []
    else [Stamp(from + items[0].delta, items[0].evt)] + Timeline(items[1..], from + items[0].delta)
  }

  function OnTrack(log: seq<Logged>, i: nat): seq<Stamp> {
    if log == [] then []
    else if log[0].track == i then [Stamp(log[0].tick, log[0].evt)] + OnTrack(log[1..], i)
    else OnTrack(log[1..], i)
  }

  // The order of the merge: ticks first, track numbers second.
  predicate NotAfter(a: Logged, tick: nat, track: nat) {
    a.tick < tick || (a.tick == tick && a.track <= track)
  }

  predicate InOrder(log: seq<Logged>) {
    forall p, q :: 0 <= p < q < |log| ==> NotAfter(log[p], log[q].tick, log[q].track)
  }

  predicate AllNotAfter(log: seq<Logged>, tick: nat, track: nat) {
    forall p :: 0 <= p < |log| ==> NotAfter(log[p], tick, track)
  }

  // The tick of the track's event number n.
  function Due(song: Song, i: nat, n: nat): nat
    requires i < |song.starts| && i < |song.areas| && song.Alone(i, n + 1).Some?
  {
    Sum(song.Alone(i, n + 1).value.items)
  }

  lemma {:induction false} SumAppend(items: seq<Item>, x: Item)
    ensures Sum(items + [x]) == Sum(items) + x.delta
  {
    if items == [] {
      assert ([] + [x])[1..] == [];
    } else {
      assert (items + [x])[1..] == items[1..] + [x];
      SumAppend(items[1..], x);
    }
  }

  lemma {:induction false} TimelineAppend(items: seq<Item>, x: Item, from: nat)
    ensures Timeline(items + [x], from) == Timeline(items, from) + [Stamp(from + Sum(items) + x.delta, x.evt)]
  {
    if items == [] {
      assert ([] + [x])[1..] == [];
    } else {
      assert (items + [x])[1..] == items[1..] + [x];
      TimelineAppend(items[1..], x, from + items[0].delta);
      var first, rest := Stamp(from + items[0].delta, items[0].evt), Timeline(items[1..], from + items[0].delta);
      var last := Stamp(from + Sum(items) + x.delta, x.evt);
      assert [first] + (rest + [last]) == ([first] + rest) + [last];
    }
  }

  lemma {:induction false} OnTrackAppend(log: seq<Logged>, x: Logged, i: nat)
    ensures OnTrack(log + [x], i) == OnTrack(log, i) + if x.track == i then [Stamp(x.tick, x.evt)] else []
  {
    if log == [] {
      assert ([] + [x])[1..] == [];
    } else {
      assert (log + [x])[1..] == log[1..] + [x];
      OnTrackAppend(log[1..], x, i);
    }
  }

  lemma {:induction false} OnTrackFrom(log: seq<Logged>, i: nat, x: Stamp)
    requires x in OnTrack(log, i)
    ensures Logged(x.tick, i, x.evt) in log
  {
    if log[0].track != i || x != Stamp(log[0].tick, log[0].evt) {
      OnTrackFrom(log[1..], i, x);
    }
  }

  lemma {:induction false} TimelineTicks(items: seq<Item>, from: nat)
    ensures |Timeline(items, from)| == |items|
    ensures items != [] ==> Timeline(items, from)[|items| - 1] == Stamp(from + Sum(items), items[|items| - 1].evt)
  {
    if items != [] {
      TimelineTicks(items[1..], from + items[0].delta);
      if |items| > 1 {
        assert Timeline(items, from)[|items| - 1] == Timeline(items[1..], from + items[0].delta)[|items| - 2];
      }
    }
  }

  lemma {:induction false} SumOfPrefix(items: seq<Item>, n: nat)
    requires n <= |items|
    ensures Sum(items[..n]) <= Sum(items)
  {
    if n > 0 {
      assert items[..n][1..] == items[1..][..n - 1];
      SumOfPrefix(items[1..], n - 1);
    }
  }

  // ---- the run ----

  // Track i is under way: its next event is its event number n, due at its own tick.
  ghost predicate UnderWay(song: Song, s: Sequence, i: nat, n: nat, now: nat)
    requires song.WellFormed() && s.WellFormed() && i < TRACKS && Playable(song, i)
  {
    && InStep(song, i, n, s.mem, s.tracks[i])
    && song.Alone(i, n + 1).Some?
    && now <= Due(song, i, n) < now + DELTA_LIMIT
    && s.tracks[i].delta == Due(song, i, n) - now + if s.flag then s.lastDelta else 0
  }

  // Track i has ended: it has delivered all its n events.
  predicate Ended(song: Song, i: nat, n: nat)
    requires song.WellFormed() && i < TRACKS
  {
    && song.Alone(i, n).Some?
    && var items := song.Alone(i, n).value.items;
    && items != [] && items[|items| - 1].evt == EndEvent && NoEnd(items[..|items| - 1])
  }

  // The sequencer s after `log`, the last event of which was at tick `now`: track i has
  // delivered its first counts[i] events, each at its own absolute tick; the log is in order;
  // and nothing still to come belongs before its last entry.
  ghost predicate Merged(song: Song, s: Sequence, log: seq<Logged>, counts: seq<nat>, now: nat) {
    && Proper(song) && s.WellFormed() && s.valid <= song.used && |counts| == TRACKS && s.lastDelta < DELTA_LIMIT
    && (forall i <- s.valid :: UnderWay(song, s, i, counts[i], now) && AllNotAfter(log, Due(song, i, counts[i]), i))
    && (forall i <- song.used - s.valid :: Ended(song, i, counts[i]))
    && (forall i <- song.used :: song.Alone(i, counts[i]).Some?
          && OnTrack(log, i) == Timeline(song.Alone(i, counts[i]).value.items, 0))
    && InOrder(log)
  }

  // After the subtraction the table says how far away each track's next event is.
  lemma TableShowsDue(song: Song, s: Sequence, log: seq<Logged>, counts: seq<nat>, now: nat)
    requires Merged(song, s, log, counts, now)
    ensures forall i <- s.valid :: Subtracted(s).tracks[i].delta == Due(song, i, counts[i]) - now
    ensures forall i <- s.valid :: Alike(s.tracks[i], Subtracted(s).tracks[i])
  {
    hide InStep, Due, Ended, Playable, Subtracted;
    forall i <- s.valid
      ensures Subtracted(s).tracks[i].delta == Due(song, i, counts[i]) - now
      ensures Alike(s.tracks[i], Subtracted(s).tracks[i])
    {
      ValidIsUnderWay(song, s, log, counts, now, i);
      EntryShowsDue(song, s, i, counts[i], now);
    }
  }

  lemma ValidIsUnderWay(song: Song, s: Sequence, log: seq<Logged>, counts: seq<nat>, now: nat, i: nat)
    requires Merged(song, s, log, counts, now) && i in s.valid
    ensures UnderWay(song, s, i, counts[i], now) && s.lastDelta < DELTA_LIMIT
  {
    hide UnderWay, Ended, Proper, Due;
  }

  lemma EntryShowsDue(song: Song, s: Sequence, i: nat, n: nat, now: nat)
    requires song.WellFormed() && s.WellFormed() && i in s.valid && Playable(song, i) && s.lastDelta < DELTA_LIMIT
    requires UnderWay(song, s, i, n, now)
    ensures Subtracted(s).tracks[i].delta == Due(song, i, n) - now && Alike(s.tracks[i], Subtracted(s).tracks[i])
  {
    hide InStep, Due, Playable, Subtracted;
    SubtractedAt(s, i);
  }

  // So the track picked is the one whose next event comes first in the merge.
  lemma PickIsNext(song: Song, s: Sequence, log: seq<Logged>, counts: seq<nat>, now: nat)
    requires Merged(song, s, log, counts, now) && s.valid != {}
    ensures var p := Pick(Subtracted(s), TRACKS);
      p.Some? && forall i <- s.valid :: i != p.value ==>
        NotAfter(Logged(Due(song, p.value, counts[p.value]), p.value, EndEvent), Due(song, i, counts[i]), i)
  {
    hide InStep, Due, Ended, Playable;
    TableShowsDue(song, s, log, counts, now);
    PickIsFirst(Subtracted(s), TRACKS);
    var some :| some in s.valid;
    assert UnderWay(song, s, some, counts[some], now);
  }

  // What the next event of the sequencer is, in terms of the track it comes from.
  lemma NextEventIs(song: Song, s: Sequence, log: seq<Logged>, counts: seq<nat>, now: nat, r: SeqStep)
    requires Merged(song, s, log, counts, now) && NextEvent(s) == Some(r)
    ensures var k, q := r.track, Subtracted(s);
      && k in s.valid && Pick(q, TRACKS) == Some(k) && q.mem == s.mem && q.valid == s.valid
      && Alike(s.tracks[k], q.tracks[k]) && r.ticks == q.tracks[k].delta == Due(song, k, counts[k]) - now
      && var e := GetEvent(s.mem, Everywhere, q.tracks[k]);
      && e.Some? && e.value.evt == r.item && r.next.mem == e.value.mem
      && r.next.valid == (if r.item == EndEvent then s.valid - {k} else s.valid)
      && r.next.lastDelta == r.ticks && r.next.flag
      && (forall i <- s.valid :: i != k ==> r.next.tracks[i] == q.tracks[i])
      && (r.item != EndEvent ==>
        AddDelta(e.value.mem, e.value.track) == Some(r.next.tracks[k]) && e.value.track.delta == r.ticks)
  {
    hide InStep, Due, Ended, Playable, Pick;
    PickIsNext(song, s, log, counts, now);
    TableShowsDue(song, s, log, counts, now);
    GetEventKeepsDelta(s.mem, Subtracted(s).tracks[r.track]);
  }

  lemma GetEventKeepsDelta(mem: Bytes, t: Track)
    requires GetEvent(mem, Everywhere, t).Some?
    ensures GetEvent(mem, Everywhere, t).value.track.delta == t.delta
  {
    hide GetMidiRest;
    var (status, t1) := GetByte(mem, Everywhere, t).value;
    if status != META {
      if status >= 0x80 {
        var (b1, t2) := GetByte(mem, Everywhere, t1).value;
        GetMidiRestKeepsDelta(mem, t2.(lastStatus := status), status, b1);
      } else {
        GetMidiRestKeepsDelta(mem, t1, t1.lastStatus, status);
      }
    }
  }

  lemma GetMidiRestKeepsDelta(mem: Bytes, t: Track, status: u8, byte1: u8)
    requires GetMidiRest(mem, Everywhere, t, status, byte1).Some?
    ensures GetMidiRest(mem, Everywhere, t, status, byte1).value.track.delta == t.delta
  {
    if status / 0x10 == 0x9 {
      ReadVarLenKeepsDelta(mem, GetByte(mem, Everywhere, t).value.1);
    }
  }

  lemma ReadVarLenKeepsDelta(mem: Bytes, t: Track)
    requires ReadVarLen(mem, Everywhere, t).Some?
    ensures ReadVarLen(mem, Everywhere, t).value.1.delta == t.delta
  {
    var (c, t1) := GetByte(mem, Everywhere, t).value;
    if c >= 0x80 {
      VarLenRestKeepsDelta(mem, t1, c % 0x80);
    }
  }

  lemma {:induction false} VarLenRestKeepsDelta(mem: Bytes, t: Track, v: u32)
    requires VarLenRest(mem, Everywhere, t, v).Some?
    ensures VarLenRest(mem, Everywhere, t, v).value.1.delta == t.delta
    decreases |mem| - t.curLoc, t.buLen
  {
    var (c, t1) := GetByte(mem, Everywhere, t).value;
    if c >= 0x80 {
      VarLenRestKeepsDelta(mem, t1, (v * 0x80 + c % 0x80) % U32_LIMIT);
    }
  }

  // The track the event came from goes on.
  lemma PickedGoesOn(song: Song, s: Sequence, log: seq<Logged>, counts: seq<nat>, now: nat, r: SeqStep)
    requires Merged(song, s, log, counts, now) && NextEvent(s) == Some(r) && r.item != EndEvent
    ensures var k := r.track;
      k in s.valid && UnderWay(song, r.next, k, counts[k] + 1, Due(song, k, counts[k]))
  {
    hide NextEvent, GetEvent, ReadVarLen, Subtracted, Pick, Passes, Due, InStep, Ended, Playable;
    NextEventIs(song, s, log, counts, now, r);
    var k, t := r.track, Subtracted(s).tracks[r.track];
    var e := GetEvent(s.mem, Everywhere, t).value;
    InStepAlike(song, k, counts[k], s.mem, s.tracks[k], t);
    NextOfTrack(song, k, counts[k], s.mem, t);
    DeltaOfTrack(song, k, counts[k], s.mem, t, e);
    var d := ReadVarLen(e.mem, Everywhere, e.track).value;
    InStepAlike(song, k, counts[k] + 1, e.mem, d.1, r.next.tracks[k]);
  }

  lemma InStepAlike(song: Song, i: nat, n: nat, mem: Bytes, t: Track, u: Track)
    requires song.WellFormed() && i < TRACKS && InStep(song, i, n, mem, t) && Alike(t, u)
    ensures InStep(song, i, n, mem, u)
  {
    hide ReadVarLen, Passes;
  }

  // The others stay where they were.
  lemma OtherStays(song: Song, s: Sequence, log: seq<Logged>, counts: seq<nat>, now: nat, r: SeqStep, i: nat)
    requires Merged(song, s, log, counts, now) && NextEvent(s) == Some(r) && i in s.valid && i != r.track
    ensures r.track in s.valid && UnderWay(song, r.next, i, counts[i], Due(song, r.track, counts[r.track]))
  {
    hide NextEvent, GetEvent, ReadVarLen, Subtracted, Pick, Passes, Due, Ended, Playable;
    NextEventIs(song, s, log, counts, now, r);
    PickIsNext(song, s, log, counts, now);
    TableShowsDue(song, s, log, counts, now);
    var k, t := r.track, Subtracted(s).tracks[r.track];
    InStepAlike(song, k, counts[k], s.mem, s.tracks[k], t);
    NextOfTrack(song, k, counts[k], s.mem, t);
    assert UnderWay(song, s, i, counts[i], now) && UnderWay(song, s, k, counts[k], now);
    var e, q := GetEvent(s.mem, Everywhere, t).value, song.Alone(k, counts[k] + 1).value;
    var own := song.Alone(i, counts[i]).value;
    assert Agree(own.mem, e.mem, song.areas[i]);
    InStepAlike(song, i, counts[i], s.mem, s.tracks[i], r.next.tracks[i]);
  }

  // The log of one more event, track by track.
  lemma {:induction false} LogGrows(
    song: Song, s: Sequence, log: seq<Logged>, counts: seq<nat>, now: nat, r: SeqStep, i: nat)
    requires Merged(song, s, log, counts, now) && NextEvent(s) == Some(r) && i in song.used
    ensures r.track in s.valid && song.Alone(i, counts[r.track := counts[r.track] + 1][i]).Some?
    ensures OnTrack(log + [Logged(Due(song, r.track, counts[r.track]), r.track, r.item)], i)
         == Timeline(song.Alone(i, counts[r.track := counts[r.track] + 1][i]).value.items, 0)
  {
    hide NextEvent, GetEvent, ReadVarLen, Subtracted, Pick, Passes, Ended, Playable;
    NextEventIs(song, s, log, counts, now, r);
    var k, t := r.track, Subtracted(s).tracks[r.track];
    OnTrackAppend(log, Logged(Due(song, k, counts[k]), k, r.item), i);
    if i == k {
      InStepAlike(song, k, counts[k], s.mem, s.tracks[k], t);
      NextOfTrack(song, k, counts[k], s.mem, t);
      var before, after := song.Alone(k, counts[k]).value.items, song.Alone(k, counts[k] + 1).value.items;
      TimelineAppend(before, Item(LastDelta(after), r.item), 0);
      SumAppend(before, Item(LastDelta(after), r.item));
    }
  }

  lemma PickedEnds(song: Song, s: Sequence, log: seq<Logged>, counts: seq<nat>, now: nat, r: SeqStep)
    requires Merged(song, s, log, counts, now) && NextEvent(s) == Some(r) && r.item == EndEvent
    ensures r.track in s.valid && Ended(song, r.track, counts[r.track] + 1)
  {
    hide NextEvent, GetEvent, ReadVarLen, Subtracted, Pick, Passes, Due, Playable;
    NextEventIs(song, s, log, counts, now, r);
    var k, t := r.track, Subtracted(s).tracks[r.track];
    InStepAlike(song, k, counts[k], s.mem, s.tracks[k], t);
    NextOfTrack(song, k, counts[k], s.mem, t);
  }

  lemma OrderGrows(log: seq<Logged>, x: Logged)
    requires InOrder(log) && AllNotAfter(log, x.tick, x.track)
    ensures InOrder(log + [x])
  {
  }

  lemma BoundGrows(log: seq<Logged>, x: Logged, tick: nat, track: nat)
    requires AllNotAfter(log, x.tick, x.track) && NotAfter(x, tick, track)
    ensures AllNotAfter(log + [x], tick, track)
  {
  }

  // One call of alCSeqNextEvent keeps the merge going.
  lemma MergeStep(song: Song, s: Sequence, log: seq<Logged>, counts: seq<nat>, now: nat, r: SeqStep)
    requires Merged(song, s, log, counts, now) && NextEvent(s) == Some(r)
    ensures r.track in s.valid && now <= Due(song, r.track, counts[r.track]) == now + r.ticks
    ensures Merged(song, r.next, log + [Logged(Due(song, r.track, counts[r.track]), r.track, r.item)],
      counts[r.track := counts[r.track] + 1], Due(song, r.track, counts[r.track]))
  {
    hide NextEvent, GetEvent, ReadVarLen, Subtracted, Pick, Passes, Due, InStep, Playable, Timeline, OnTrack, InOrder;
    hide AllNotAfter;
    NextEventIs(song, s, log, counts, now, r);
    var k := r.track;
    var tick := Due(song, k, counts[k]);
    var x, after := Logged(tick, k, r.item), counts[k := counts[k] + 1];
    assert UnderWay(song, s, k, counts[k], now);
    PickIsNext(song, s, log, counts, now);
    OrderGrows(log, x);
    forall i <- r.next.valid
      ensures UnderWay(song, r.next, i, after[i], tick) && AllNotAfter(log + [x], Due(song, i, after[i]), i)
    {
      if i == k {
        PickedGoesOn(song, s, log, counts, now, r);
      } else {
        OtherStays(song, s, log, counts, now, r, i);
      }
      BoundGrows(log, x, Due(song, i, after[i]), i);
    }
    forall i <- song.used
      ensures song.Alone(i, after[i]).Some? && OnTrack(log + [x], i) == Timeline(song.Alone(i, after[i]).value.items, 0)
    {
      LogGrows(song, s, log, counts, now, r, i);
    }
    if r.item == EndEvent {
      PickedEnds(song, s, log, counts, now, r);
    }
  }
}
