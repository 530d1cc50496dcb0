// An event is dispatched exactly when it was posted for, unless something takes it out of the
// queue or moves it in it.
module OnTime {
  import opened Machine
  import opened AudioEvents
  import opened DeltaList
  import opened VoiceEvents
  import TrackReader
  import opened Views
  import opened Player
  import opened QuietSteps
  import opened VoiceStates

  // The view that shows one event only.
  function Other(e: Event): Event -> bool {
    (x: Event) => x != e
  }

  // The event in hand and the queue, in absolute time.
  function Pending(p: Player, drop: Event -> bool): seq<Timed> {
    (if drop(p.next) then [] else [Timed(p.now, p.next)]) + Seen(p, drop)
  }

  // ---- what takes an event out of the queue, or moves it ----

  // A message releases the voice v: the note it belongs to ends, or the pedal that holds the
  // ended note goes up.
  predicate Releases(p: Player, status: u8, byte1: u8, byte2: u8, v: VoiceId) {
    var chan, kind := status % 0x10, status / 0x10;
    if kind == 0x8 || (kind == 0x9 && byte2 == 0) then
      LookupVoice(p, p.alloc, byte1, chan) == Some(v) && p.VoiceAt(v).phase != SustainPhase
    else
      && kind == 0xB && byte1 == AL_MIDI_SUSTAIN_CTRL
      && v in p.alloc && LetGo(p.VoiceAt(v), chan, byte2 > AL_SUSTAIN)
  }

  // A released voice loses its envelope, and a new tempo moves the note-offs.
  predicate MidiDisturbs(p: Player, status: u8, byte1: u8, byte2: u8, e: Event) {
    e.Envelope? && Releases(p, status, byte1, byte2, e.voice)
  }

  predicate TempoDisturbs(status: u8, kind: u8, e: Event) {
    e.NoteOff? && status == TrackReader.META && kind == TrackReader.META_TEMPO
  }

  // Whether dealing with the event in hand may concern events equal to e in the queue. It is
  // told from the state before.
  predicate Disturbs(p: Player, e: Event) {
    match p.next
    case SeqRef =>
      && p.target.Some? && Sequencer.NextEvent(p.target.value).Some?
      && SeqDisturbs(p, Sequencer.NextEvent(p.target.value).value.event, e)
    case Midi(status, byte1, byte2) => MidiDisturbs(p, status, byte1, byte2, e)
    case NoteOff(status, byte1, byte2) => MidiDisturbs(p, status, byte1, byte2, e)
    case Meta(status, kind, _, _, _) => TempoDisturbs(status, kind, e)
    // A voice that stops loses its oscillators.
    case NoteEnd(v) => Oscillates(e, v)
    case StopEvent => p.state == Stopping && (e.Tremolo? || e.Vibrato?) && e.voice in p.alloc
    // What belongs to the sequence is flushed, and the allocated voices are released.
    case StoppingEvent =>
      && p.state == Playing
      && (e.SeqRef? || e.NoteOff? || e.Midi? || ((e.NoteEnd? || e.Envelope?) && e.voice in p.alloc))
    case _ => false
  }

  predicate SeqDisturbs(p: Player, evt: Event, e: Event) {
    match evt
    case SeqMidi(status, byte1, byte2, _, _) => MidiDisturbs(p, status, byte1, byte2, e)
    case Tempo(status, kind, _, _, _, _) => TempoDisturbs(status, kind, e)
    case _ => false
  }

  // ---- posting ----

  // When an event posted now is due: after its delay, or with the last event of the queue.
  function PostedFor(p: Player, delay: Micros): int {
    p.now + if delay == AL_EVTQ_END then Total(p.queue) else delay
  }

  // What is posted is pending, once more, for that time, and every other event as often as
  // before.
  lemma PostedPending(p: Player, evt: Event, delay: Micros, e: Event)
    requires Fits(p.queue)
    ensures multiset(Seen(Posted(p, evt, delay), Other(e))) ==
      multiset(Seen(p, Other(e)))
        + if p.free > 0 && evt == e then multiset{Timed(PostedFor(p, delay), e)} else multiset{}
    ensures Fits(Posted(p, evt, delay).queue)
  {
    hide Post, View, Total, Fits, Other;
    if p.free > 0 {
      PostFits(p, evt, delay);
      PostAdds(p.queue, evt, delay, p.now, e);
    }
  }

  lemma {:induction false} PostAdds(q: seq<Entry>, evt: Event, delay: Micros, now: int, e: Event)
    requires Fits(q)
    ensures multiset(View(Post(q, evt, delay), now, Other(e))) == multiset(View(q, now, Other(e)))
      + if evt == e then multiset{Timed(now + if delay == AL_EVTQ_END then Total(q) else delay, e)} else multiset{}
  {
    hide Post, View, Total;
    if evt == e {
      PostShows(q, delay, now, e);
    } else {
      PostUnseen(q, evt, delay, now, Other(e));
    }
  }

  lemma {:induction false} PostShows(q: seq<Entry>, delay: Micros, now: int, e: Event)
    requires Fits(q)
    ensures multiset(View(Post(q, e, delay), now, Other(e))) == multiset(View(q, now, Other(e)))
      + multiset{Timed(now + if delay == AL_EVTQ_END then Total(q) else delay, e)}
  {
    hide Post, View, Total, Fits;
    if delay == AL_EVTQ_END {
      LastShows(q, now, e, Other(e));
    } else {
      EarlierShows(q, delay, now, e, Other(e));
    }
  }

  lemma {:induction false} LastShows(q: seq<Entry>, now: int, e: Event, drop: Event -> bool)
    requires Fits(q) && !drop(e)
    ensures multiset(View(Post(q, e, AL_EVTQ_END), now, drop)) ==
      multiset(View(q, now, drop)) + multiset{Timed(now + Total(q), e)}
  {
    hide Post, View, Total;
    FitsTotal(q);
    PostLastSeen(q, e, now, drop);
  }

  lemma {:induction false} EarlierShows(q: seq<Entry>, delay: Micros, now: int, e: Event, drop: Event -> bool)
    requires delay < AL_EVTQ_END && !drop(e)
    ensures multiset(View(Post(q, e, delay), now, drop)) ==
      multiset(View(q, now, drop)) + multiset{Timed(now + delay, e)}
  {
    hide Post, View, Insert;
    PostSeen(q, e, delay, now, drop);
    InsertAdds(View(q, now, drop), Timed(now + delay, e));
  }

  lemma {:induction false} FitsTotal(q: seq<Entry>)
    requires Fits(q)
    ensures Total(q) <= AL_EVTQ_END
  {
  }

  lemma PostFits(p: Player, evt: Event, delay: Micros)
    requires Fits(p.queue)
    ensures Fits(Posted(p, evt, delay).queue)
  {
    TotalPlace(p.queue, evt, delay, delay == AL_EVTQ_END);
  }

  // ---- what keeps every event equal to e, as often as it is queued ----

  predicate Grows(p: Player, r: Player, e: Event) {
    multiset(Seen(p, Other(e))) <= multiset(Seen(r, Other(e))) && Fits(r.queue) && r.now == p.now
  }

  lemma QuietGrows(p: Player, r: Player, e: Event)
    requires Quiet(p, r, Other(e)) && Fits(p.queue)
    ensures Grows(p, r, e)
  {
  }

  lemma GrowsTogether(p: Player, q: Player, r: Player, e: Event)
    requires Grows(p, q, e) && Grows(q, r, e)
    ensures Grows(p, r, e)
  {
  }

  lemma GrowsFits(p: Player, r: Player, e: Event)
    requires Grows(p, r, e)
    ensures Fits(r.queue)
  {
  }

  lemma SameQueueGrows(p: Player, r: Player, e: Event)
    requires Fits(p.queue) && r.queue == p.queue && r.now == p.now
    ensures Grows(p, r, e)
  {
  }

  lemma PostedGrows(p: Player, evt: Event, delay: Micros, e: Event)
    requires Fits(p.queue)
    ensures Grows(p, Posted(p, evt, delay), e)
  {
    hide Post;
    PostedPending(p, evt, delay, e);
  }

  lemma PostedTicksGrows(p: Player, evt: Event, ticks: nat, e: Event)
    requires Fits(p.queue) && PostedTicks(p, evt, ticks).Some?
    ensures Grows(p, PostedTicks(p, evt, ticks).value, e)
  {
    hide Posted;
    PostedGrows(p, evt, ticks * p.uspt, e);
  }

  lemma PostNextGrows(p: Player, e: Event)
    requires Fits(p.queue) && PostNextSeqEvent(p).Some?
    ensures Grows(p, PostNextSeqEvent(p).value, e)
  {
    hide Sequencer.NextDelta, PostedTicks, Seen;
    SameQueueGrows(p, p, e);
    if p.state == Playing && p.target.Some? {
      var (s, ticks) := Sequencer.NextDelta(p.target.value);
      var p1 := p.(target := Some(s));
      SameQueueGrows(p, p1, e);
      if ticks.Some? {
        PostedTicksGrows(p1, SeqRef, ticks.value, e);
      }
    }
  }

  lemma FlushGrows(p: Player, tag: EventType, e: Event)
    requires Fits(p.queue) && e.Type() != tag
    ensures Grows(p, Flushed(p, tag), e)
  {
    hide Remove, View;
    RemoveUnseen(p.queue, HasType(tag), p.now, Other(e));
    TotalRemove(p.queue, HasType(tag), 0);
  }

  // ---- voices ----

  lemma ReleaseGrows(p: Player, v: VoiceId, delay: Micros, e: Event)
    requires Fits(p.queue) && e != Envelope(v)
    ensures Grows(p, ReleaseVoice(p, v, delay), e)
  {
    hide Quiet, Grows, Faded, Posted;
    FadedQuiet(p, v, Other(e));
    QuietGrows(p, Faded(p, v), e);
    GrowsFits(p, Faded(p, v), e);
    PostedGrows(Faded(p, v), NoteEnd(v), delay, e);
    GrowsTogether(p, Faded(p, v), ReleaseVoice(p, v, delay), e);
  }

  lemma {:induction false} EndNoteGrows(p: Player, chan: u8, key: u8, e: Event)
    requires Fits(p.queue)
    requires e.Envelope? && LookupVoice(p, p.alloc, key, chan) == Some(e.voice) ==>
      p.VoiceAt(e.voice).phase == SustainPhase
    ensures Grows(p, EndNote(p, chan, key), e)
  {
    hide ReleaseVoice, LookupVoice, Grows;
    var v := LookupVoice(p, p.alloc, key, chan);
    SameQueueGrows(p, p, e);
    if v.Some? {
      var s := p.VoiceAt(v.value);
      SameQueueGrows(p, p.With(v.value, s.(phase := SustainReleasePhase)), e);
      var p1 := p.With(v.value, s.(phase := ReleasePhase));
      SameQueueGrows(p, p1, e);
      if s.phase != SustainPhase {
        ReleaseGrows(p1, v.value, s.releaseTime, e);
        GrowsTogether(p, p1, EndNote(p, chan, key), e);
      }
    }
  }

  lemma PedalVoiceGrows(p: Player, v: VoiceId, down: bool, e: Event)
    requires Fits(p.queue) && (e == Envelope(v) && !down ==> p.VoiceAt(v).phase != SustainReleasePhase)
    ensures Grows(p, PedalVoice(p, v, down), e) && PedalVoice(p, v, down).alloc == p.alloc
  {
    hide ReleaseVoice, Grows;
    var s := p.VoiceAt(v);
    var p1 := p.With(v, s.(phase := ReleasePhase));
    SameQueueGrows(p, p1, e);
    SameQueueGrows(p, p, e);
    SameQueueGrows(p, p.With(v, s.(phase := SustainPhase)), e);
    SameQueueGrows(p, p.With(v, s.(phase := NoteOnPhase)), e);
    ReleaseKeepsAlloc(p1, v, s.releaseTime);
    if e != Envelope(v) {
      ReleaseGrows(p1, v, s.releaseTime, e);
      GrowsTogether(p, p1, ReleaseVoice(p1, v, s.releaseTime), e);
    }
  }

  predicate PedalSpares(p: Player, chan: u8, down: bool, e: Event) {
    e.Envelope? && e.voice in p.alloc ==> !LetGo(p.VoiceAt(e.voice), chan, down)
  }

  lemma {:induction false} PedalGrows(p: Player, chan: u8, down: bool, k: nat, e: Event)
    requires Fits(p.queue) && PedalSpares(p, chan, down, e)
    ensures Grows(p, Pedal(p, chan, down, k), e)
    decreases |p.alloc| - k
  {
    hide PedalVoice, Grows;
    if k >= |p.alloc| {
      SameQueueGrows(p, p, e);
    } else if p.VoiceAt(p.alloc[k]).channel == chan {
      var p1 := PedalVoice(p, p.alloc[k], down);
      PedalVoiceGrows(p, p.alloc[k], down, e);
      GrowsFits(p, p1, e);
      if e.Envelope? {
        PedalVoiceIs(p, p.alloc[k], chan, down, e.voice);
      }
      PedalGrows(p1, chan, down, k + 1, e);
      GrowsTogether(p, p1, Pedal(p1, chan, down, k + 1), e);
    } else {
      PedalGrows(p, chan, down, k + 1, e);
    }
  }

  lemma StruckGrows(p: Player, chan: u8, key: u8, sound: NoteSound, tremolo: Micros, vibrato: Micros, e: Event)
    requires Fits(p.queue) && chan < |p.sustain| && p.idle != []
    ensures Grows(p, Struck(p, p.idle[0], chan, key, sound, tremolo, vibrato), e)
  {
    hide Grows, Posted;
    var v := p.idle[0];
    var p1 := MapVoice(p, v, chan, key, sound, Flags(tremolo != 0, vibrato != 0));
    SameQueueGrows(p, p1, e);
    var p2 := if tremolo != 0 then Posted(p1, Tremolo(v), tremolo) else p1;
    PostedGrows(p1, Tremolo(v), tremolo, e);
    GrowsTogether(p, p1, Posted(p1, Tremolo(v), tremolo), e);
    GrowsFits(p, p2, e);
    var p3 := if vibrato != 0 then Posted(p2, Vibrato(v, chan), vibrato) else p2;
    PostedGrows(p2, Vibrato(v, chan), vibrato, e);
    GrowsTogether(p, p2, Posted(p2, Vibrato(v, chan), vibrato), e);
    GrowsFits(p, p3, e);
    PostedGrows(p3, Envelope(v), sound.attackTime, e);
    GrowsTogether(p, p3, Posted(p3, Envelope(v), sound.attackTime), e);
  }

  lemma NoteOnGrows(p: Player, chan: u8, key: u8, duration: u32, a: Answer, e: Event)
    requires Fits(p.queue) && chan < 0x10 && NoteOn(p, chan, key, duration, a).Some?
    ensures Grows(p, NoteOn(p, chan, key, duration, a).value, e)
  {
    hide StartNote, Struck, Grows, PostedTicks;
    SameQueueGrows(p, p, e);
    if p.state == Playing && a.sound.Some? && p.idle != [] {
      StartNoteIs(p, chan, key, duration, a.sound.value, a.tremolo, a.vibrato);
      StruckGrows(p, chan, key, a.sound.value, a.tremolo, a.vibrato, e);
      var p4 := Struck(p, p.idle[0], chan, key, a.sound.value, a.tremolo, a.vibrato);
      GrowsFits(p, p4, e);
      if duration != 0 {
        PostedTicksGrows(p4, NoteOff(0x80 + chan, key, 0), duration, e);
        GrowsTogether(p, p4, NoteOn(p, chan, key, duration, a).value, e);
      }
    }
  }

  lemma MidiGrows(p: Player, status: u8, byte1: u8, byte2: u8, duration: u32, a: Answer, e: Event)
    requires Fits(p.queue) && HandleMidi(p, status, byte1, byte2, duration, a).Some?
    requires !MidiDisturbs(p, status, byte1, byte2, e)
    ensures Grows(p, HandleMidi(p, status, byte1, byte2, duration, a).value, e)
  {
    hide NoteOn, EndNote, Pedal, Grows, LookupVoice;
    var chan, kind := status % 0x10, status / 0x10;
    SameQueueGrows(p, p, e);
    if kind == 0x9 && byte2 != 0 {
      NoteOnGrows(p, chan, byte1, duration, a, e);
    } else if kind == 0x9 || kind == 0x8 {
      EndNoteGrows(p, chan, byte1, e);
    } else if kind == 0xB && byte1 == AL_MIDI_SUSTAIN_CTRL {
      var p1 := p.(sustain := p.sustain[chan := byte2]);
      SameQueueGrows(p, p1, e);
      PedalGrows(p1, chan, byte2 > AL_SUSTAIN, 0, e);
      GrowsTogether(p, p1, Pedal(p1, chan, byte2 > AL_SUSTAIN, 0), e);
    }
  }

  lemma MetaGrows(p: Player, status: u8, kind: u8, a: Answer, e: Event)
    requires Fits(p.queue) && HandleMeta(p, status, kind, a).Some? && !TempoDisturbs(status, kind, e)
    ensures Grows(p, HandleMeta(p, status, kind, a).value, e)
  {
    hide SetTempo, Grows;
    SameQueueGrows(p, p, e);
    if SetTempo(p, UsptFromTempo(p.target, a)).Some? && !e.NoteOff? {
      var r := SetTempo(p, UsptFromTempo(p.target, a)).value;
      SetTempoQuiet(p, UsptFromTempo(p.target, a), Other(e));
      QuietGrows(p, r.(uspt := p.uspt), e);
      GrowsFits(p, r.(uspt := p.uspt), e);
      SameQueueGrows(r.(uspt := p.uspt), r, e);
      GrowsTogether(p, r.(uspt := p.uspt), r, e);
    }
  }

  lemma SeqEventGrows(p: Player, evt: Event, a: Answer, e: Event)
    requires Fits(p.queue) && HandleSeqEvent(p, evt, a).Some? && !SeqDisturbs(p, evt, e)
    ensures Grows(p, HandleSeqEvent(p, evt, a).value, e)
  {
    hide HandleMidi, HandleMeta, PostNextSeqEvent, Posted, Grows, MidiDisturbs, TempoDisturbs;
    match evt
    case SeqMidi(status, byte1, byte2, duration, _) =>
      var r := HandleMidi(p, status, byte1, byte2, duration, a).value;
      MidiGrows(p, status, byte1, byte2, duration, a, e);
      GrowsFits(p, r, e);
      PostNextGrows(r, e);
      GrowsTogether(p, r, HandleSeqEvent(p, evt, a).value, e);
    case Tempo(status, kind, _, _, _, _) =>
      var r := HandleMeta(p, status, kind, a).value;
      MetaGrows(p, status, kind, a, e);
      GrowsFits(p, r, e);
      PostNextGrows(r, e);
      GrowsTogether(p, r, HandleSeqEvent(p, evt, a).value, e);
    case SeqEnd(_) =>
      SameQueueGrows(p, p.(state := Stopping), e);
      PostedGrows(p.(state := Stopping), StopEvent, AL_EVTQ_END, e);
      GrowsTogether(p, p.(state := Stopping), HandleSeqEvent(p, evt, a).value, e);
    case _ => PostNextGrows(p, e);
  }

  // ---- stopping ----

  lemma NoteKillGrows(p: Player, v: VoiceId, e: Event)
    requires Fits(p.queue) && e != NoteEnd(v)
    ensures Grows(p, p.Edited(NeedsNoteKill(p.queue, v, KILL_TIME).1), e)
  {
    hide NeedsNoteKill, Quiet, Grows;
    var q := NeedsNoteKill(p.queue, v, KILL_TIME).1;
    NoteKillUnseen(p.queue, v, KILL_TIME, p.now, Other(e));
    NoteKillTotal(p.queue, v, KILL_TIME);
    EditedQuiet(p, q, Other(e));
    QuietGrows(p, p.Edited(q), e);
  }

  lemma KillVoiceGrows(p: Player, v: VoiceId, e: Event)
    requires Fits(p.queue) && e != NoteEnd(v) && e != Envelope(v)
    ensures Grows(p, KillVoice(p, v), e) && KillVoice(p, v).alloc == p.alloc
  {
    hide ReleaseVoice, NeedsNoteKill, Quiet, Grows;
    var q := NeedsNoteKill(p.queue, v, KILL_TIME).1;
    NoteKillGrows(p, v, e);
    GrowsFits(p, p.Edited(q), e);
    ReleaseGrows(p.Edited(q), v, KILL_TIME, e);
    ReleaseKeepsAlloc(p.Edited(q), v, KILL_TIME);
    GrowsTogether(p, p.Edited(q), ReleaseVoice(p.Edited(q), v, KILL_TIME), e);
  }

  lemma {:induction false} KillVoicesGrows(p: Player, k: nat, e: Event)
    requires Fits(p.queue) && ((e.NoteEnd? || e.Envelope?) ==> e.voice !in p.alloc)
    ensures Grows(p, KillVoices(p, k), e)
    decreases |p.alloc| - k
  {
    hide KillVoice, Grows;
    if k >= |p.alloc| {
      SameQueueGrows(p, p, e);
    } else {
      var p1 := KillVoice(p, p.alloc[k]);
      KillVoiceGrows(p, p.alloc[k], e);
      GrowsFits(p, p1, e);
      KillVoicesGrows(p1, k + 1, e);
      GrowsTogether(p, p1, KillVoices(p1, k + 1), e);
    }
  }

  lemma BeginStoppingGrows(p: Player, e: Event)
    requires Fits(p.queue) && !e.SeqRef? && !e.NoteOff? && !e.Midi?
    requires (e.NoteEnd? || e.Envelope?) ==> e.voice !in p.alloc
    ensures Grows(p, BeginStopping(p), e)
  {
    hide Remove, KillVoices, Posted, Grows;
    var p1 := Flushed(p, SeqRefType);
    var p2 := Flushed(p1, NoteOffType);
    var p3 := Flushed(p2, SeqpMidiType);
    FlushGrows(p, SeqRefType, e);
    GrowsFits(p, p1, e);
    FlushGrows(p1, NoteOffType, e);
    GrowsTogether(p, p1, p2, e);
    GrowsFits(p, p2, e);
    FlushGrows(p2, SeqpMidiType, e);
    GrowsTogether(p, p2, p3, e);
    GrowsFits(p, p3, e);
    KillVoicesGrows(p3, 0, e);
    var p4 := KillVoices(p3, 0);
    GrowsTogether(p, p3, p4, e);
    GrowsFits(p, p4, e);
    SameQueueGrows(p4, p4.(state := Stopping), e);
    GrowsTogether(p, p4, p4.(state := Stopping), e);
    PostedGrows(p4.(state := Stopping), StopEvent, AL_EVTQ_END, e);
    GrowsTogether(p, p4.(state := Stopping), BeginStopping(p), e);
  }

  lemma StopVoiceGrows(p: Player, v: VoiceId, e: Event)
    requires Fits(p.queue) && !Oscillates(e, v)
    ensures Grows(p, StopVoice(p, v), e)
  {
    hide Quiet, StopVoice;
    StopVoiceQuiet(p, v, Other(e));
    QuietGrows(p, StopVoice(p, v), e);
  }

  lemma StopFirst(p: Player)
    requires p.alloc != []
    ensures StopVoice(p, p.alloc[0]).alloc == p.alloc[1..]
  {
    hide StopOsc;
  }

  lemma {:induction false} StopVoicesGrows(p: Player, e: Event)
    requires Fits(p.queue) && ((e.Tremolo? || e.Vibrato?) ==> e.voice !in p.alloc)
    ensures Grows(p, StopVoices(p), e)
    decreases |p.alloc|
  {
    hide StopVoice, Grows;
    if p.alloc == [] {
      SameQueueGrows(p, p, e);
    } else {
      var p1 := StopVoice(p, p.alloc[0]);
      StopVoiceGrows(p, p.alloc[0], e);
      StopFirst(p);
      GrowsFits(p, p1, e);
      StopVoicesGrows(p1, e);
      GrowsTogether(p, p1, StopVoices(p1), e);
    }
  }

  // ---- whatever is in hand ----

  lemma DispatchGrows(p: Player, a: Answer, e: Event)
    requires Fits(p.queue) && Dispatch(p, a).Some? && !Disturbs(p, e)
    ensures Grows(p, Dispatch(p, a).value, e)
  {
    hide HandleMidi, HandleMeta, HandleSeqEvent, PostNextSeqEvent, Posted, StopVoice, StopVoices, BeginStopping;
    hide ResetChannels;
    hide Grows, Sequencer.NextEvent, MidiDisturbs, TempoDisturbs;
    SameQueueGrows(p, p, e);
    match p.next
    case SeqRef =>
      if p.target.Some? {
        var r := Sequencer.NextEvent(p.target.value).value;
        var p1 := p.(target := Some(r.next));
        SameQueueGrows(p, p1, e);
        SeqSame(p, p1, r.event, e);
        SeqEventGrows(p1, r.event, a, e);
        GrowsTogether(p, p1, Dispatch(p, a).value, e);
      }
    case Api => PostedGrows(p, Api, AL_USEC_PER_FRAME, e);
    case NoteEnd(v) => StopVoiceGrows(p, v, e);
    case Tremolo(v) => PostedGrows(p, Tremolo(v), a.tremolo, e);
    case Vibrato(v, chan) => PostedGrows(p, Vibrato(v, chan), a.vibrato, e);
    case Midi(status, byte1, byte2) => MidiGrows(p, status, byte1, byte2, 0, a, e);
    case NoteOff(status, byte1, byte2) => MidiGrows(p, status, byte1, byte2, 0, a, e);
    case Meta(status, kind, _, _, _) => MetaGrows(p, status, kind, a, e);
    case PlayEvent =>
      if p.state != Playing {
        SameQueueGrows(p, p.(state := Playing), e);
        PostNextGrows(p.(state := Playing), e);
        GrowsTogether(p, p.(state := Playing), Dispatch(p, a).value, e);
      }
    case StopEvent =>
      if p.state == Stopping {
        StopVoicesGrows(p, e);
        GrowsFits(p, StopVoices(p), e);
        SameQueueGrows(StopVoices(p), StopVoices(p).(state := Stopped), e);
        GrowsTogether(p, StopVoices(p), Dispatch(p, a).value, e);
      }
    case StoppingEvent =>
      if p.state == Playing {
        BeginStoppingGrows(p, e);
      }
    case _ => OtherGrows(p, a, e);
  }

  // Disturbance is about the voices, not about the sequence.
  lemma SeqSame(p: Player, r: Player, evt: Event, e: Event)
    requires r.alloc == p.alloc && r.voices == p.voices
    ensures SeqDisturbs(r, evt, e) == SeqDisturbs(p, evt, e)
  {
    hide LookupVoice;
    if evt.SeqMidi? {
      LookupSame(p, r, p.alloc, evt.byte1, evt.status % 0x10);
    }
  }

  lemma {:induction false} LookupSame(p: Player, r: Player, among: seq<VoiceId>, key: u8, channel: u8)
    requires r.voices == p.voices
    ensures LookupVoice(r, among, key, channel) == LookupVoice(p, among, key, channel)
  {
    if among != [] {
      LookupSame(p, r, among[1..], key, channel);
    }
  }

  lemma OtherGrows(p: Player, a: Answer, e: Event)
    requires Fits(p.queue) && Dispatch(p, a).Some?
    requires p.next.Envelope? || p.next.Volume? || p.next.Priority? || p.next.SetSeq? || p.next.SetBank?
      || p.next.TrackEnd? || p.next.LoopStart? || p.next.LoopEnd? || p.next.Empty?
    ensures Grows(p, Dispatch(p, a).value, e)
  {
    hide Seen;
    SameQueueGrows(p, Dispatch(p, a).value, e);
  }

  // The frame event is never disturbed, so any dispatch keeps to the time and the bound.
  lemma DispatchFits(p: Player, a: Answer)
    requires Fits(p.queue) && Dispatch(p, a).Some?
    ensures Dispatch(p, a).value.now == p.now && Fits(Dispatch(p, a).value.queue)
  {
    hide Dispatch, Seen, Fits;
    FrameUndisturbed(p);
    DispatchGrows(p, a, Api);
  }

  lemma FrameUndisturbed(p: Player)
    ensures !Disturbs(p, Api)
  {
    hide Sequencer.NextEvent, Releases;
  }

  // The next event is the earliest, and time moves on to it.
  lemma AdvanceKeeps(p: Player, e: Event)
    requires Fits(p.queue) && Advance(p).Some?
    ensures var r := Advance(p).value;
      && multiset(Seen(p, Other(e))) <= multiset(Pending(r, Other(e))) && Fits(r.queue) && r.now >= p.now
  {
    hide Advance, Seen, Pending, Fits;
    AdvanceShows(p, e);
    if Seen(p, Other(e)) != [] {
      assert Seen(p, Other(e)) == Pending(Advance(p).value, Other(e));
    }
  }

  lemma AdvanceShows(p: Player, e: Event)
    requires Fits(p.queue) && Advance(p).Some?
    ensures Seen(p, Other(e)) == [] || Seen(p, Other(e)) == Pending(Advance(p).value, Other(e))
    ensures Fits(Advance(p).value.queue) && Advance(p).value.now >= p.now
  {
    hide View, Fits, Other;
    if p.queue == [] {
      EmptyView(p.now, Other(e));
    } else {
      FirstFits(p.queue);
      FirstPending(p.queue, p.now, Other(e));
    }
  }

  lemma FirstPending(q: seq<Entry>, now: int, drop: Event -> bool)
    requires q != []
    ensures var first := if drop(q[0].evt) then [] else [Timed(now + q[0].delta, q[0].evt)];
      View(q, now, drop) == first + View(q[1..], now + q[0].delta, drop)
  {
    hide View;
    TakeFirstView(q, now, drop);
  }

  lemma EmptyView(now: int, drop: Event -> bool)
    ensures View([], now, drop) == []
  {
  }

  lemma FirstFits(q: seq<Entry>)
    requires q != [] && Fits(q)
    ensures Fits(q[1..])
  {
  }

  // Nothing pending is due before now.
  lemma PendingLater(r: Player, drop: Event -> bool)
    ensures forall x <- Pending(r, drop) :: x.time >= r.now
  {
    AbsSorted(r.queue, r.now);
    KeepSorted(Abs(r.queue, r.now), drop);
  }

  // ---- runs ----

  // What an act takes in hand.
  function TakenBy(p: Player, act: Act): seq<Timed> {
    if act.Iterate? then [Timed(p.now, p.next)] else []
  }

  function InHand(p: Player, acts: seq<Act>): seq<Timed>
    requires RunPlayer(p, acts).Some?
    decreases |acts|
  {
    if acts == [] then []
    else
      var n := |acts| - 1;
      InHand(p, acts[..n]) + TakenBy(RunPlayer(p, acts[..n]).value, acts[n])
  }

  // No event in hand during the run disturbs those equal to e.
  predicate Undisturbed(p: Player, acts: seq<Act>, e: Event)
    requires RunPlayer(p, acts).Some?
    decreases |acts|
  {
    acts == [] ||
    var n := |acts| - 1;
    Undisturbed(p, acts[..n], e) && (acts[n].Iterate? ==> !Disturbs(RunPlayer(p, acts[..n]).value, e))
  }

  lemma DoKeeps(p: Player, act: Act, e: Event)
    requires Fits(p.queue) && Do(p, act).Some? && (act.Iterate? ==> !Disturbs(p, e))
    ensures multiset(Pending(p, Other(e))) <= multiset(TakenBy(p, act)) + multiset(Pending(Do(p, act).value, Other(e)))
  {
    hide Dispatch, Advance, Called, Disturbs, Seen;
    match act
    case Iterate(a) =>
      DispatchGrows(p, a, e);
      GrowsFits(p, Dispatch(p, a).value, e);
      AdvanceKeeps(Dispatch(p, a).value, e);
    case Calls(c) => CallKeeps(p, c, e);
  }

  lemma CallKeeps(p: Player, c: Call, e: Event)
    requires Fits(p.queue) && Called(p, c).Some?
    ensures Grows(p, Called(p, c).value, e) && Called(p, c).value.next == p.next
  {
    hide Grows, TempoMessage, Post;
    match c
    case PlayCall => PostedGrows(p, PlayEvent, 0, e);
    case StopCall => PostedGrows(p, StoppingEvent, 0, e);
    case SendMidiCall(ticks, status, byte1, byte2) => PostedTicksGrows(p, Midi(status, byte1, byte2), ticks, e);
    case SetTempoCall(tempo) => PostedGrows(p, TempoMessage(tempo), 0, e);
    case SetSeqCall => PostedGrows(p, SetSeq, 0, e);
    case SetBankCall => PostedGrows(p, SetBank, 0, e);
    case SetVolCall(vol) => PostedGrows(p, Volume(vol), 0, e);
    case SetPriorityCall(channel, priority) => PostedGrows(p, Priority(channel, priority), 0, e);
  }

  lemma DoFits(p: Player, act: Act)
    requires Fits(p.queue) && Do(p, act).Some?
    ensures Fits(Do(p, act).value.queue)
  {
    hide Dispatch, Called, Fits, Seen;
    match act
    case Iterate(a) =>
      DispatchFits(p, a);
      AdvanceKeeps(Dispatch(p, a).value, Api);
    case Calls(c) =>
      CallKeeps(p, c, Api);
      GrowsFits(p, Called(p, c).value, Api);
  }

  lemma {:induction false} RunFits(p: Player, acts: seq<Act>)
    requires Fits(p.queue) && RunPlayer(p, acts).Some?
    ensures Fits(RunPlayer(p, acts).value.queue)
    decreases |acts|
  {
    hide Do, Fits;
    if acts != [] {
      var n := |acts| - 1;
      RunFits(p, acts[..n]);
      DoFits(RunPlayer(p, acts[..n]).value, acts[n]);
    }
  }

  // Over any run: the events that were pending still are, or were taken in hand at exactly
  // their times, each as often as it was there.
  lemma {:induction false} StaysOrTaken(p: Player, acts: seq<Act>, e: Event)
    requires Fits(p.queue) && RunPlayer(p, acts).Some? && Undisturbed(p, acts, e)
    ensures multiset(Pending(p, Other(e))) <= multiset(InHand(p, acts))
      + multiset(Pending(RunPlayer(p, acts).value, Other(e)))
    decreases |acts|
  {
    hide Do, Disturbs, Fits, Pending, TakenBy;
    if acts != [] {
      var n := |acts| - 1;
      StaysOrTaken(p, acts[..n], e);
      RunFits(p, acts[..n]);
      DoKeeps(RunPlayer(p, acts[..n]).value, acts[n], e);
    }
  }

  // A run that has gone past the time of a pending event, of any kind, and has not disturbed
  // it, took it in hand at exactly that time; events that are equal, as many of them.
  lemma {:induction false} DispatchedOnTime(p: Player, acts: seq<Act>, x: Timed)
    requires Fits(p.queue) && RunPlayer(p, acts).Some? && Undisturbed(p, acts, x.evt)
    requires RunPlayer(p, acts).value.now > x.time
    ensures multiset(InHand(p, acts))[x] >= multiset(Pending(p, Other(x.evt)))[x]
  {
    hide RunPlayer, Undisturbed, Fits, Pending, InHand;
    StaysOrTaken(p, acts, x.evt);
    PendingLater(RunPlayer(p, acts).value, Other(x.evt));
    assert x !in Pending(RunPlayer(p, acts).value, Other(x.evt));
  }

  // So an event posted with a delay d at the time t is dispatched at t + d.
  lemma {:induction false} PostedIsDispatched(p: Player, evt: Event, delay: Micros, acts: seq<Act>)
    requires Fits(p.queue) && p.free > 0
    requires RunPlayer(Posted(p, evt, delay), acts).Some? && Undisturbed(Posted(p, evt, delay), acts, evt)
    requires RunPlayer(Posted(p, evt, delay), acts).value.now > PostedFor(p, delay)
    ensures var x := Timed(PostedFor(p, delay), evt);
      multiset(InHand(Posted(p, evt, delay), acts))[x] >= multiset(Pending(p, Other(evt)))[x] + 1
  {
    hide RunPlayer, Undisturbed, Fits, InHand, Post, Seen;
    PostedPending(p, evt, delay, evt);
    DispatchedOnTime(Posted(p, evt, delay), acts, Timed(PostedFor(p, delay), evt));
  }

  // ---- the pedal lets each waiting voice go once ----

  lemma ReleasePosts(p: Player, v: VoiceId, delay: Micros, w: VoiceId)
    requires Fits(p.queue) && p.free > 0 && delay < AL_EVTQ_END
    ensures var r := ReleaseVoice(p, v, delay);
      && Ends(r, w) == Ends(p, w) + (if w == v then multiset{Timed(p.now + delay, NoteEnd(w))} else multiset{})
      && Fits(r.queue) && r.now == p.now && r.free >= p.free - 1
  {
    hide Posted, Faded, Fits, View, Total, Other;
    EnvelopeIsOther(v, w);
    FadedQuiet(p, v, Other(NoteEnd(w)));
    FadedOpen(p, Faded(p, v), Other(NoteEnd(w)));
    FadedFrees(p, v);
    PostedPending(Faded(p, v), NoteEnd(v), delay, NoteEnd(w));
    PostedTakesOne(Faded(p, v), NoteEnd(v), delay);
  }

  lemma EnvelopeIsOther(v: VoiceId, w: VoiceId)
    ensures Other(NoteEnd(w))(Envelope(v))
  {
  }

  lemma FadedOpen(p: Player, r: Player, drop: Event -> bool)
    requires Quiet(p, r, drop) && Fits(p.queue)
    ensures Seen(r, drop) == Seen(p, drop) && r.now == p.now && Fits(r.queue)
  {
  }

  lemma FadedFrees(p: Player, v: VoiceId)
    ensures Faded(p, v).free >= p.free
  {
    hide Remove;
  }

  lemma PostedTakesOne(p: Player, evt: Event, delay: Micros)
    ensures Posted(p, evt, delay).free >= p.free - 1 && Posted(p, evt, delay).now == p.now
  {
    hide Post;
  }

  // The ends of the voice w that are queued, and the one that letting it go adds.
  function Ends(p: Player, w: VoiceId): multiset<Timed> {
    multiset(Seen(p, Other(NoteEnd(w))))
  }

  function EndAdded(now: Micros, s: Voice, w: VoiceId, letGo: bool): multiset<Timed> {
    if letGo then multiset{Timed(now + s.releaseTime, NoteEnd(w))} else multiset{}
  }

  // With an item free for each allocated voice, a pedal going up ends every voice that waits
  // for it, once, after its release time, and no other.
  lemma {:induction false} PedalReleases(p: Player, chan: u8, down: bool, k: nat, w: VoiceId)
    requires Fits(p.queue) && k <= |p.alloc| && p.free >= |p.alloc| - k
    requires forall v <- p.alloc :: p.VoiceAt(v).releaseTime < AL_EVTQ_END
    ensures Ends(Pedal(p, chan, down, k), w) == Ends(p, w)
      + EndAdded(p.now, p.VoiceAt(w), w, w in p.alloc[k..] && LetGo(p.VoiceAt(w), chan, down))
    decreases |p.alloc| - k
  {
    hide PedalVoice, Ends, Fits, Pedaled, LetGo;
    if k < |p.alloc| {
      var v := p.alloc[k];
      assert p.alloc[k..] == [v] + p.alloc[k + 1..];
      if p.VoiceAt(v).channel == chan {
        PedalVoiceReleases(p, v, chan, down, w);
        PedalVoiceIs(p, v, chan, down, w);
        PedaledOnce(p.VoiceAt(v), chan, down);
        PedalVoiceTimes(p, v, chan, down);
        PedalReleases(PedalVoice(p, v, down), chan, down, k + 1, w);
      } else {
        LetGoOnChannel(p.VoiceAt(v), chan, down);
        PedalReleases(p, chan, down, k + 1, w);
      }
    }
  }

  lemma PedaledOnce(s: Voice, chan: u8, down: bool)
    ensures !LetGo(Pedaled(s, chan, down), chan, down) && Pedaled(s, chan, down).releaseTime == s.releaseTime
  {
  }

  lemma LetGoOnChannel(s: Voice, chan: u8, down: bool)
    ensures LetGo(s, chan, down) ==> s.channel == chan
  {
  }

  lemma PedalVoiceTimes(p: Player, v: VoiceId, chan: u8, down: bool)
    requires p.VoiceAt(v).channel == chan && forall u <- p.alloc :: p.VoiceAt(u).releaseTime < AL_EVTQ_END
    ensures var r := PedalVoice(p, v, down); forall u <- r.alloc :: r.VoiceAt(u).releaseTime < AL_EVTQ_END
  {
    hide PedalVoice, Pedaled;
    PedalVoiceIs(p, v, chan, down, v);
    forall u <- p.alloc ensures PedalVoice(p, v, down).VoiceAt(u).releaseTime < AL_EVTQ_END {
      PedalVoiceIs(p, v, chan, down, u);
      PedaledOnce(p.VoiceAt(v), chan, down);
    }
  }

  lemma PedalVoiceReleases(p: Player, v: VoiceId, chan: u8, down: bool, w: VoiceId)
    requires Fits(p.queue) && p.free > 0 && p.VoiceAt(v).channel == chan && p.VoiceAt(v).releaseTime < AL_EVTQ_END
    ensures var r := PedalVoice(p, v, down);
      && Ends(r, w) == Ends(p, w) + EndAdded(p.now, p.VoiceAt(w), w, w == v && LetGo(p.VoiceAt(v), chan, down))
      && Fits(r.queue) && r.now == p.now && r.free >= p.free - 1
  {
    hide ReleaseVoice, Ends, Fits;
    var s := p.VoiceAt(v);
    var p1 := p.With(v, s.(phase := ReleasePhase));
    EndsSame(p, p1, w);
    EndsSame(p, p.With(v, s.(phase := SustainPhase)), w);
    EndsSame(p, p.With(v, s.(phase := NoteOnPhase)), w);
    ReleasePosts(p1, v, s.releaseTime, w);
  }

  lemma EndsSame(p: Player, r: Player, w: VoiceId)
    requires r.queue == p.queue && r.now == p.now
    ensures Ends(r, w) == Ends(p, w)
  {
  }
}
