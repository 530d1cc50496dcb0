// src/audio/cseq.c on values: an ALCSeq, which merges up to sixteen tracks by a table of
// deltas that is brought up to date only when the next event is asked for.
module Sequencer {
  import opened Machine
  import opened AudioEvents
  import opened TrackReader

  const TRACKS := 16
  const NO_TIME: u32 := 0xFFFF_FFFF

  // `valid` is the set of set bits of validTracks; `flag` is deltaFlag: the ticks of the last
  // event have not been subtracted from the table yet.
  datatype Sequence = Sequence(
    mem: Bytes, valid: set<nat>, tracks: seq<Track>, lastTicks: u32, lastDelta: u32, flag: bool)
  {
    predicate WellFormed() {
      |tracks| == TRACKS && forall i <- valid :: i < TRACKS
    }
  }

  type Standing = s: Sequence | s.WellFormed()
    witness Sequence([], {}, seq(TRACKS, _ => Track(0, 0, 0, 0, 0)), 0, 0, true)

  // ---- alCSeqNew ----

  function ReadWord(mem: Bytes, a: int): Option<nat> {
    var b0 :- Fetch(mem, Everywhere, a);
    var b1 :- Fetch(mem, Everywhere, a + 1);
    var b2 :- Fetch(mem, Everywhere, a + 2);
    var b3 :- Fetch(mem, Everywhere, a + 3);
    Some(BigEndian(b0, b1, b2, b3))
  }

  function NewTrack(mem: Bytes, base: nat, i: nat): Option<(bool, Track)> {
    var offset :- ReadWord(mem, base + 4 * i);
    if offset == 0 then Some((false, Track(0, 0, 0, 0, 0)))
    else
      var (delta, t) :- ReadVarLen(mem, Everywhere, Track(base + offset, 0, 0, 0, 0));
      Some((true, t.(delta := delta)))
  }

  function NewTracks(mem: Bytes, base: nat, n: nat): (r: Option<(set<nat>, seq<Track>)>)
    ensures r.Some? ==> |r.value.1| == n && forall i <- r.value.0 :: i < n
  {
    if n == 0 then Some(({}, []))
    else
      var (valid, tracks) :- NewTracks(mem, base, n - 1);
      var (used, t) :- NewTrack(mem, base, n - 1);
      Some((if used then valid + {n - 1} else valid, tracks + [t]))
  }

  function New(mem: Bytes, base: nat): (r: Option<Sequence>)
    ensures r.Some? ==> r.value.WellFormed()
  {
    var (valid, tracks) :- NewTracks(mem, base, TRACKS);
    Some(Sequence(mem, valid, tracks, 0, 0, true))
  }

  // ---- the table of deltas ----

  // u32 subtraction.
  function Minus(a: u32, b: u32): u32 { (a - b) % U32_LIMIT }

  function Subtracted(s: Sequence): (r: Sequence)
    requires s.WellFormed()
    ensures r.WellFormed()
  {
    if s.flag then
      s.(tracks := seq(TRACKS, i requires 0 <= i < TRACKS =>
        if i in s.valid then s.tracks[i].(delta := Minus(s.tracks[i].delta, s.lastDelta)) else s.tracks[i]))
    else s
  }

  // The scan for the first track among the first n: the least delta, the lowest track number.
  function Pick(s: Sequence, n: nat): (r: Option<nat>)
    requires s.WellFormed() && n <= TRACKS
    ensures r.Some? ==> r.value in s.valid && r.value < n
  {
    if n == 0 then None
    else
      var p := Pick(s, n - 1);
      var first := if p.Some? then s.tracks[p.value].delta else NO_TIME;
      if n - 1 in s.valid && s.tracks[n - 1].delta < first then Some(n - 1) else p
  }

  lemma {:induction false} PickIsFirst(s: Sequence, n: nat)
    requires s.WellFormed() && n <= TRACKS
    ensures var p := Pick(s, n);
      if p.Some? then
        && s.tracks[p.value].delta < NO_TIME
        && (forall i <- s.valid :: i < n ==> s.tracks[p.value].delta <= s.tracks[i].delta)
        && (forall i <- s.valid :: i < p.value ==> s.tracks[p.value].delta < s.tracks[i].delta)
      else forall i <- s.valid :: i < n ==> s.tracks[i].delta == NO_TIME
  {
    if n > 0 {
      PickIsFirst(s, n - 1);
    }
  }

  // ---- alCSeqNextEvent ----

  datatype SeqStep = SeqStep(next: Sequence, track: nat, item: TrackEvent, ticks: u32, event: Event)

  // validTracks ^ (1 << track)
  function Toggle(valid: set<nat>, track: nat): set<nat> {
    if track in valid then valid - {track} else valid + {track}
  }

  function ToEvent(e: TrackEvent, last: bool, ticks: u32): Event {
    match e
    case MidiEvent(status, byte1, byte2, duration) => SeqMidi(status, byte1, byte2, duration, ticks)
    case TempoEvent(byte1, byte2, byte3) => Tempo(META, META_TEMPO, byte1, byte2, byte3, ticks)
    case EndEvent => if last then SeqEnd(ticks) else TrackEnd(ticks)
    case LoopStartEvent => LoopStart(ticks)
    case LoopEndEvent => LoopEnd(ticks)
  }

  function NextEvent(s: Sequence): (r: Option<SeqStep>)
    requires s.WellFormed()
    ensures r.Some? ==> r.value.next.WellFormed() && r.value.track in s.valid
  {
    var q := Subtracted(s);
    var k :- Pick(q, TRACKS);
    var ticks := q.tracks[k].delta;
    var step :- GetEvent(q.mem, Everywhere, q.tracks[k]);
    var valid := if step.evt == EndEvent then Toggle(q.valid, k) else q.valid;
    var event := ToEvent(step.evt, valid == {}, ticks);
    // Only the end of a track that is not the last one is not followed by a delta.
    var track :- if event.TrackEnd? then Some(step.track) else AddDelta(step.mem, step.track);
    Some(SeqStep(
      Sequence(step.mem, valid, q.tracks[k := track], (s.lastTicks + ticks) % U32_LIMIT, ticks, true),
      k, step.evt, ticks, event))
  }

  function AddDelta(mem: Bytes, t: Track): Option<Track> {
    var (d, t1) :- ReadVarLen(mem, Everywhere, t);
    Some(t1.(delta := (t.delta + d) % U32_LIMIT))
  }

  // ---- __alCSeqNextDelta ----

  function NextDelta(s: Sequence): (r: (Sequence, Option<u32>))
    requires s.WellFormed()
    ensures r.0.WellFormed()
  {
    if s.valid == {} then (s, None)
    else
      var q := Subtracted(s).(flag := false);
      var p := Pick(q, TRACKS);
      (q, Some(if p.Some? then q.tracks[p.value].delta else NO_TIME))
  }

  // Asking for the next delta, however often, leaves the schedule alone: the next event is
  // the same, and its ticks are what was answered.
  lemma NextDeltaPredicts(s: Sequence)
    requires s.WellFormed()
    ensures NextEvent(NextDelta(s).0) == NextEvent(s)
    ensures NextDelta(NextDelta(s).0) == NextDelta(s)
    ensures NextEvent(s).Some? ==> NextDelta(s).1 == Some(NextEvent(s).value.ticks)
  {
    hide GetEvent, AddDelta;
    var q := NextDelta(s).0;
    if s.valid != {} {
      assert Subtracted(q) == q;
      PickIgnoresFlag(Subtracted(s), q, TRACKS);
    }
  }

  lemma {:induction false} PickIgnoresFlag(s: Sequence, r: Sequence, n: nat)
    requires s.WellFormed() && r == s.(flag := r.flag) && n <= TRACKS
    ensures Pick(r, n) == Pick(s, n)
  {
    if n > 0 {
      PickIgnoresFlag(s, r, n - 1);
    }
  }

  // ---- steps of the loops ----

  lemma {:induction false} NewTracksPrefix(mem: Bytes, base: nat, k: nat, n: nat)
    requires k <= n && NewTracks(mem, base, n).Some?
    ensures NewTracks(mem, base, k).Some?
    ensures k > 0 ==> NewTrack(mem, base, k - 1).Some?
  {
    hide NewTrack;
    if k < n {
      NewTracksPrefix(mem, base, k, n - 1);
    }
  }

  lemma {:induction false} PickStart(s: Sequence)
    requires s.WellFormed()
    ensures Pick(s, 0) == None
  {
  }

  lemma {:induction false} PickStep(s: Sequence, n: nat)
    requires s.WellFormed() && n < TRACKS
    ensures var p := Pick(s, n);
      Pick(s, n + 1) ==
        if n in s.valid && s.tracks[n].delta < (if p.Some? then s.tracks[p.value].delta else NO_TIME) then Some(n)
        else p
  {
  }

  lemma SubtractedAt(s: Sequence, i: nat)
    requires s.WellFormed() && i < TRACKS
    ensures Subtracted(s).valid == s.valid
    ensures Subtracted(s).tracks[i] ==
      if s.flag && i in s.valid then s.tracks[i].(delta := Minus(s.tracks[i].delta, s.lastDelta)) else s.tracks[i]
  {
  }

  lemma SubtractedIs(s: Sequence)
    requires s.WellFormed()
    ensures Subtracted(s) == s.(tracks := Subtracted(s).tracks)
  {
  }

  lemma NextEventParts(s: Sequence)
    requires s.WellFormed() && NextEvent(s).Some?
    ensures var q, r := Subtracted(s), NextEvent(s).value;
      && Pick(q, TRACKS) == Some(r.track)
      && r.ticks == q.tracks[r.track].delta
      && var step := GetEvent(q.mem, Everywhere, q.tracks[r.track]);
      && step.Some? && r.item == step.value.evt
      && r.next.mem == step.value.mem
      && r.next.valid == (if r.item == EndEvent then Toggle(q.valid, r.track) else q.valid)
      && r.event == ToEvent(r.item, r.next.valid == {}, r.ticks)
      && r.next.lastTicks == (s.lastTicks + r.ticks) % U32_LIMIT && r.next.lastDelta == r.ticks && r.next.flag
      && (if r.event.TrackEnd? then r.next.tracks == q.tracks[r.track := step.value.track]
          else var t := AddDelta(step.value.mem, step.value.track);
            t.Some? && r.next.tracks == q.tracks[r.track := t.value])
  {
    hide Subtracted, Pick, GetEvent, AddDelta;
  }
}
