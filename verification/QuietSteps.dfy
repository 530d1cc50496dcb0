// What the handlers of the player leave alone. A handler is quiet in a view of the queue if
// it shows nothing there, and changes neither the state of the player nor its sequence.
module QuietSteps {
  import opened Machine
  import opened AudioEvents
  import opened DeltaList
  import opened Retiming
  import opened VoiceEvents
  import opened Views
  import opened Player

  predicate ConcernsVoice(e: Event) {
    e.NoteEnd? || e.Envelope? || e.Tremolo? || e.Vibrato?
  }

  ghost predicate HidesVoices(drop: Event -> bool) {
    forall e :: ConcernsVoice(e) ==> drop(e)
  }

  function Seen(p: Player, drop: Event -> bool): seq<Timed> {
    View(p.queue, p.now, drop)
  }

  // The delays in the queue stay below the delay that stands for its end.
  predicate Fits(q: seq<Entry>) {
    Total(q) <= AL_EVTQ_END
  }

  // The items of the queue, and the voices, are conserved; no voice starts unless the player
  // is playing.
  predicate Conserves(p: Player, r: Player) {
    && |r.queue| + r.free == |p.queue| + p.free
    && multiset(r.alloc) + multiset(r.idle) == multiset(p.alloc) + multiset(p.idle)
    && (p.state != Playing ==> |r.alloc| <= |p.alloc|)
    && (Fits(p.queue) ==> Fits(r.queue))
  }

  predicate SameCourse(p: Player, r: Player) {
    r.state == p.state && r.target == p.target && r.now == p.now && r.uspt == p.uspt && r.next == p.next
  }

  predicate Quiet(p: Player, r: Player, drop: Event -> bool) {
    SameCourse(p, r) && Conserves(p, r) && Seen(r, drop) == Seen(p, drop)
  }

  // ---- delays ----

  lemma {:induction false} TotalPlace(q: seq<Entry>, evt: Event, delay: nat, last: bool)
    ensures Total(Place(q, evt, delay, last)) <= if delay <= Total(q) then Total(q) else delay
  {
    if q != [] {
      if delay < q[0].delta {
        var tail := [q[0].(delta := q[0].delta - delay)] + q[1..];
        assert tail[1..] == q[1..] && Place(q, evt, delay, last) == [Entry(delay, evt)] + tail;
      } else {
        TotalPlace(q[1..], evt, delay - q[0].delta, last);
      }
    }
  }

  lemma {:induction false} TotalRemove(q: seq<Entry>, drop: Event -> bool, carry: nat)
    ensures Total(Remove(q, drop, carry)) <= carry + Total(q)
  {
    if q != [] {
      if drop(q[0].evt) {
        TotalRemove(q[1..], drop, carry + q[0].delta);
      } else {
        TotalRemove(q[1..], drop, 0);
      }
    }
  }

  lemma {:induction false} TotalStopOsc(q: seq<Entry>, v: VoiceId, flags: Flags, carry: nat)
    ensures Total(StopOsc(q, v, flags, carry).0) <= carry + Total(q)
  {
    if q != [] {
      if Oscillates(q[0].evt, v) {
        if flags.Less(q[0].evt).Any() {
          TotalStopOsc(q[1..], v, flags.Less(q[0].evt), carry + q[0].delta);
        }
      } else {
        TotalStopOsc(q[1..], v, flags, 0);
      }
    }
  }

  lemma {:induction false} TotalRepost(q: seq<Entry>, temp: seq<Entry>, f: nat -> nat)
    requires Fits(q) && forall x <- temp :: f(x.delta) < S32_LIMIT
    ensures Fits(Repost(q, temp, f)) && |Repost(q, temp, f)| == |q| + |temp|
    decreases |temp|
  {
    if temp != [] {
      TotalPlace(q, temp[0].evt, f(temp[0].delta), false);
      TotalRepost(Place(q, temp[0].evt, f(temp[0].delta), false), temp[1..], f);
    }
  }

  lemma {:induction false} RemovedAndCollected(q: seq<Entry>, carry: nat, before: nat)
    ensures |Remove(q, IsNoteOff, carry)| + |NoteOffs(q, before)| == |q|
  {
    if q != [] {
      if IsNoteOff(q[0].evt) {
        RemovedAndCollected(q[1..], carry + q[0].delta, before + q[0].delta);
      } else {
        RemovedAndCollected(q[1..], 0, before + q[0].delta);
      }
    }
  }

  // No item is lost or duplicated by a tempo change.
  lemma {:induction false} RetimeConserves(q: seq<Entry>, f: nat -> nat)
    requires Fits(q) && forall x <- NoteOffs(q, 0) :: f(x.delta) < S32_LIMIT
    ensures Fits(Retime(q, f)) && |Retime(q, f)| == |q|
  {
    TotalRemove(q, IsNoteOff, 0);
    PushAllKeepsBound(q, f, S32_LIMIT);
    TotalRepost(Remove(q, IsNoteOff, 0), PushAll([], NoteOffs(q, 0)), f);
    RemovedAndCollected(q, 0, 0);
    PushAllPermutes([], NoteOffs(q, 0));
    assert |multiset(PushAll([], NoteOffs(q, 0)))| == |multiset(NoteOffs(q, 0))|;
  }

  // ---- voices ----

  lemma PostedQuiet(p: Player, evt: Event, delay: Micros, drop: Event -> bool)
    requires drop(evt)
    ensures Quiet(p, Posted(p, evt, delay), drop)
  {
    if p.free > 0 {
      PostUnseen(p.queue, evt, delay, p.now, drop);
      TotalPlace(p.queue, evt, delay, delay == AL_EVTQ_END);
    }
  }

  lemma {:induction false} EditedQuiet(p: Player, q: seq<Entry>, drop: Event -> bool)
    requires |q| <= |p.queue| && Total(q) <= Total(p.queue) && View(q, p.now, drop) == View(p.queue, p.now, drop)
    ensures Quiet(p, p.Edited(q), drop)
  {
  }

  lemma WithQuiet(p: Player, v: VoiceId, s: Voice, drop: Event -> bool)
    ensures Quiet(p, p.With(v, s), drop)
  {
  }

  lemma QuietTogether(p: Player, q: Player, r: Player, drop: Event -> bool)
    requires Quiet(p, q, drop) && Quiet(q, r, drop)
    ensures Quiet(p, r, drop)
  {
  }

  lemma UnmapQuiet(p: Player, v: VoiceId, drop: Event -> bool)
    ensures Quiet(p, UnmapVoice(p, v), drop)
    ensures v in p.alloc ==> |UnmapVoice(p, v).alloc| == |p.alloc| - 1
  {
    hide Without, Fits;
    if v in p.alloc {
      WithoutIs(p.alloc, v);
    }
  }

  lemma MapQuiet(p: Player, chan: u8, key: u8, sound: NoteSound, flags: Flags, drop: Event -> bool)
    requires chan < |p.sustain| && p.idle != [] && p.state == Playing
    ensures Quiet(p, MapVoice(p, p.idle[0], chan, key, sound, flags), drop)
    ensures MapVoice(p, p.idle[0], chan, key, sound, flags).free == p.free
  {
    hide Fits;
    assert p.idle == [p.idle[0]] + p.idle[1..];
  }

  lemma DropEnvelopesQuiet(p: Player, v: VoiceId, drop: Event -> bool)
    requires drop(Envelope(v))
    ensures Quiet(p, p.Edited(Remove(p.queue, EnvelopesOf(v), 0)), drop)
  {
    hide Quiet, Remove;
    RemoveUnseen(p.queue, EnvelopesOf(v), p.now, drop);
    TotalRemove(p.queue, EnvelopesOf(v), 0);
    EditedQuiet(p, Remove(p.queue, EnvelopesOf(v), 0), drop);
  }

  lemma FadedQuiet(p: Player, v: VoiceId, drop: Event -> bool)
    requires drop(Envelope(v))
    ensures Quiet(p, Faded(p, v), drop)
  {
    hide Quiet, Remove;
    var s := p.VoiceAt(v).(envPhase := Release);
    if p.VoiceAt(v).envPhase == Attack {
      DropEnvelopesQuiet(p, v, drop);
      var p1 := p.Edited(Remove(p.queue, EnvelopesOf(v), 0));
      WithQuiet(p1, v, s, drop);
      QuietTogether(p, p1, p1.With(v, s), drop);
    } else {
      WithQuiet(p, v, s, drop);
    }
  }

  lemma ReleaseVoiceQuiet(p: Player, v: VoiceId, delay: Micros, drop: Event -> bool)
    requires HidesVoices(drop)
    ensures Quiet(p, ReleaseVoice(p, v, delay), drop)
  {
    hide Quiet, Faded, Posted;
    FadedQuiet(p, v, drop);
    PostedQuiet(Faded(p, v), NoteEnd(v), delay, drop);
    QuietTogether(p, Faded(p, v), ReleaseVoice(p, v, delay), drop);
  }

  lemma {:induction false} WithoutIs(s: seq<VoiceId>, v: VoiceId)
    requires v in s
    ensures multiset(Without(s, v)) + multiset{v} == multiset(s)
  {
    assert s == [s[0]] + s[1..];
    if s[0] != v {
      WithoutIs(s[1..], v);
    }
  }

  lemma StopVoiceQuiet(p: Player, v: VoiceId, drop: Event -> bool)
    requires forall e :: Oscillates(e, v) ==> drop(e)
    ensures Quiet(p, StopVoice(p, v), drop)
    ensures v in p.alloc ==> |StopVoice(p, v).alloc| == |p.alloc| - 1
  {
    hide Quiet, StopOsc, UnmapVoice;
    var p1 := StopOscillators(p, v);
    StopOscillatorsQuiet(p, v, drop);
    UnmapQuiet(p1, v, drop);
    QuietTogether(p, p1, StopVoice(p, v), drop);
  }

  lemma StopOscillatorsQuiet(p: Player, v: VoiceId, drop: Event -> bool)
    requires forall e :: Oscillates(e, v) ==> drop(e)
    ensures Quiet(p, StopOscillators(p, v), drop) && StopOscillators(p, v).alloc == p.alloc
  {
    hide StopOsc;
    var s := p.VoiceAt(v);
    if s.flags.Any() {
      var (q, left) := StopOsc(p.queue, v, s.flags, 0);
      StopOscUnseen(p.queue, v, s.flags, 0, p.now, drop);
      TotalStopOsc(p.queue, v, s.flags, 0);
      EditedQuiet(p, q, drop);
      WithQuiet(p.Edited(q), v, s.(flags := left), drop);
    } else {
      assert StopOscillators(p, v) == p;
    }
  }

  lemma {:induction false} StopVoicesQuiet(p: Player, drop: Event -> bool)
    requires HidesVoices(drop)
    ensures Quiet(p, StopVoices(p), drop) && StopVoices(p).alloc == []
    decreases |p.alloc|
  {
    hide StopVoice, Fits, Seen;
    if p.alloc != [] {
      StopVoiceQuiet(p, p.alloc[0], drop);
      StopVoicesQuiet(StopVoice(p, p.alloc[0]), drop);
    }
  }

  lemma KillVoiceQuiet(p: Player, v: VoiceId, drop: Event -> bool)
    requires HidesVoices(drop)
    ensures Quiet(p, KillVoice(p, v), drop) && KillVoice(p, v).alloc == p.alloc
  {
    hide ReleaseVoice, NeedsNoteKill, Quiet;
    var q := NeedsNoteKill(p.queue, v, KILL_TIME).1;
    NoteKillUnseen(p.queue, v, KILL_TIME, p.now, drop);
    NoteKillTotal(p.queue, v, KILL_TIME);
    EditedQuiet(p, q, drop);
    ReleaseVoiceQuiet(p.Edited(q), v, KILL_TIME, drop);
    ReleaseKeepsAlloc(p.Edited(q), v, KILL_TIME);
    QuietTogether(p, p.Edited(q), ReleaseVoice(p.Edited(q), v, KILL_TIME), drop);
  }

  lemma ReleaseKeepsAlloc(p: Player, v: VoiceId, delay: Micros)
    ensures ReleaseVoice(p, v, delay).alloc == p.alloc && ReleaseVoice(p, v, delay).idle == p.idle
  {
  }

  lemma {:induction false} NoteKillTotal(q: seq<Entry>, v: VoiceId, limit: nat)
    ensures Total(NeedsNoteKill(q, v, limit).1) <= Total(q)
  {
    hide Unlinked;
    if EndAt(q, v) < |q| {
      RemoveStep(q, EndAt(q, v), e => true);
    }
  }

  lemma {:induction false} KillVoicesQuiet(p: Player, k: nat, drop: Event -> bool)
    requires HidesVoices(drop)
    ensures Quiet(p, KillVoices(p, k), drop) && KillVoices(p, k).alloc == p.alloc
    decreases |p.alloc| - k
  {
    hide KillVoice, Fits, Seen;
    if k < |p.alloc| {
      KillVoiceQuiet(p, p.alloc[k], drop);
      KillVoicesQuiet(KillVoice(p, p.alloc[k]), k + 1, drop);
    }
  }

  // ---- MIDI messages ----

  lemma EndNoteQuiet(p: Player, chan: u8, key: u8, drop: Event -> bool)
    requires HidesVoices(drop)
    ensures Quiet(p, EndNote(p, chan, key), drop)
  {
    hide ReleaseVoice, LookupVoice, Fits;
    var v := LookupVoice(p, p.alloc, key, chan);
    if v.Some? {
      var s := p.VoiceAt(v.value);
      ReleaseVoiceQuiet(p.With(v.value, s.(phase := ReleasePhase)), v.value, s.releaseTime, drop);
    }
  }

  lemma PedalVoiceQuiet(p: Player, v: VoiceId, down: bool, drop: Event -> bool)
    requires HidesVoices(drop)
    ensures Quiet(p, PedalVoice(p, v, down), drop) && PedalVoice(p, v, down).alloc == p.alloc
  {
    hide ReleaseVoice, Fits;
    var s := p.VoiceAt(v);
    ReleaseVoiceQuiet(p.With(v, s.(phase := ReleasePhase)), v, s.releaseTime, drop);
    ReleaseKeepsAlloc(p.With(v, s.(phase := ReleasePhase)), v, s.releaseTime);
  }

  lemma {:induction false} PedalQuiet(p: Player, chan: u8, down: bool, k: nat, drop: Event -> bool)
    requires HidesVoices(drop)
    ensures Quiet(p, Pedal(p, chan, down, k), drop)
    decreases |p.alloc| - k
  {
    hide PedalVoice, Fits, Seen;
    if k < |p.alloc| {
      PedalVoiceQuiet(p, p.alloc[k], down, drop);
      var p1 := if p.VoiceAt(p.alloc[k]).channel == chan then PedalVoice(p, p.alloc[k], down) else p;
      PedalQuiet(p1, chan, down, k + 1, drop);
    }
  }

  // The start of a note up to its envelope.
  function Struck(p: Player, v: VoiceId, chan: u8, key: u8, sound: NoteSound, tremolo: Micros, vibrato: Micros): Player
    requires chan < |p.sustain| && p.idle != []
  {
    var p1 := MapVoice(p, v, chan, key, sound, Flags(tremolo != 0, vibrato != 0));
    var p2 := if tremolo != 0 then Posted(p1, Tremolo(v), tremolo) else p1;
    var p3 := if vibrato != 0 then Posted(p2, Vibrato(v, chan), vibrato) else p2;
    Posted(p3, Envelope(v), sound.attackTime)
  }

  lemma StruckQuiet(
    p: Player, chan: u8, key: u8, sound: NoteSound, tremolo: Micros, vibrato: Micros, drop: Event -> bool)
    requires HidesVoices(drop) && chan < |p.sustain| && p.idle != [] && p.state == Playing
    ensures Quiet(p, Struck(p, p.idle[0], chan, key, sound, tremolo, vibrato), drop)
    ensures Struck(p, p.idle[0], chan, key, sound, tremolo, vibrato).free >= p.free - 3
  {
    hide Quiet, MapVoice;
    var v := p.idle[0];
    var p1 := MapVoice(p, v, chan, key, sound, Flags(tremolo != 0, vibrato != 0));
    MapQuiet(p, chan, key, sound, Flags(tremolo != 0, vibrato != 0), drop);
    var p2 := if tremolo != 0 then Posted(p1, Tremolo(v), tremolo) else p1;
    PostedQuiet(p1, Tremolo(v), tremolo, drop);
    QuietTogether(p, p1, Posted(p1, Tremolo(v), tremolo), drop);
    var p3 := if vibrato != 0 then Posted(p2, Vibrato(v, chan), vibrato) else p2;
    PostedQuiet(p2, Vibrato(v, chan), vibrato, drop);
    QuietTogether(p, p2, Posted(p2, Vibrato(v, chan), vibrato), drop);
    PostedQuiet(p3, Envelope(v), sound.attackTime, drop);
    QuietTogether(p, p3, Posted(p3, Envelope(v), sound.attackTime), drop);
  }

  // A note that starts, and what it posts: its note-off, if it has a duration.
  lemma StartNoteIs(p: Player, chan: u8, key: u8, duration: u32, sound: NoteSound, tremolo: Micros, vibrato: Micros)
    requires chan < |p.sustain| && chan < 0x10 && p.idle != []
    ensures var p4 := Struck(p, p.idle[0], chan, key, sound, tremolo, vibrato);
      StartNote(p, p.idle[0], chan, key, duration, sound, tremolo, vibrato) ==
        if duration != 0 then PostedTicks(p4, NoteOff(0x80 + chan, key, 0), duration) else Some(p4)
  {
  }

  lemma NoteOnQuiet(p: Player, chan: u8, key: u8, duration: u32, a: Answer, drop: Event -> bool)
    requires HidesVoices(drop) && (forall e :: IsNoteOff(e) ==> drop(e)) && chan < 0x10
    requires NoteOn(p, chan, key, duration, a).Some?
    ensures Quiet(p, NoteOn(p, chan, key, duration, a).value, drop)
    ensures NoteOn(p, chan, key, duration, a).value.free >= p.free - 4
  {
    hide StartNote, Struck, Fits;
    if p.state == Playing && a.sound.Some? && p.idle != [] {
      StartNoteIs(p, chan, key, duration, a.sound.value, a.tremolo, a.vibrato);
      StruckQuiet(p, chan, key, a.sound.value, a.tremolo, a.vibrato, drop);
      var p4 := Struck(p, p.idle[0], chan, key, a.sound.value, a.tremolo, a.vibrato);
      if duration != 0 && duration * p4.uspt < S32_LIMIT {
        PostedQuiet(p4, NoteOff(0x80 + chan, key, 0), duration * p4.uspt, drop);
      }
    }
  }

  // A message that starts no note is quiet for note-offs too.
  predicate StartsNote(status: u8, byte2: u8) {
    status / 0x10 == 0x9 && byte2 != 0
  }

  lemma OtherMidiQuiet(p: Player, status: u8, byte1: u8, byte2: u8, duration: u32, a: Answer, drop: Event -> bool)
    requires HidesVoices(drop) && !StartsNote(status, byte2) && HandleMidi(p, status, byte1, byte2, duration, a).Some?
    ensures Quiet(p, HandleMidi(p, status, byte1, byte2, duration, a).value, drop)
  {
    hide EndNote, Pedal, Fits;
    var chan := status % 0x10;
    EndNoteQuiet(p, chan, byte1, drop);
    if chan < |p.sustain| {
      var p1 := p.(sustain := p.sustain[chan := byte2]);
      PedalQuiet(p1, chan, byte2 > AL_SUSTAIN, 0, drop);
    }
  }

  lemma MidiQuiet(p: Player, status: u8, byte1: u8, byte2: u8, duration: u32, a: Answer, drop: Event -> bool)
    requires HidesVoices(drop) && (forall e :: IsNoteOff(e) ==> drop(e))
    requires HandleMidi(p, status, byte1, byte2, duration, a).Some?
    ensures Quiet(p, HandleMidi(p, status, byte1, byte2, duration, a).value, drop)
  {
    hide NoteOn, Quiet;
    if StartsNote(status, byte2) {
      NoteOnQuiet(p, status % 0x10, byte1, duration, a, drop);
    } else {
      OtherMidiQuiet(p, status, byte1, byte2, duration, a, drop);
    }
  }

  lemma SetTempoQuiet(p: Player, uspt: Micros, drop: Event -> bool)
    requires (forall e :: IsNoteOff(e) ==> drop(e)) && Fits(p.queue) && SetTempo(p, uspt).Some?
    ensures Quiet(p, SetTempo(p, uspt).value.(uspt := p.uspt), drop) && SetTempo(p, uspt).value.uspt == uspt
    ensures SetTempo(p, uspt).value.free == p.free
  {
    hide Retime;
    RetimeUnseen(p.queue, Rescale(p.uspt, uspt), p.now, drop);
    RetimeConserves(p.queue, Rescale(p.uspt, uspt));
  }
}
