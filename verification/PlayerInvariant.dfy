// What holds in every reachable state of the compact sequence player.
module PlayerInvariant {
  import opened Machine
  import opened AudioEvents
  import opened DeltaList
  import opened Retiming
  import opened Views
  import opened Sequencer
  import opened Player
  import opened QuietSteps

  predicate NotSeqRef(e: Event) { !e.SeqRef? }

  // The events of a sequence are handled where they are read, and never queued.
  predicate OnlyRead(e: Event) { e.SeqMidi? || e.Tempo? || e.SeqEnd? }

  predicate NotOnlyRead(e: Event) { !OnlyRead(e) }

  // How many sequence references are pending, the event in hand included.
  function SeqRefs(p: Player): nat {
    |Seen(p, NotSeqRef)| + if p.next.SeqRef? then 1 else 0
  }

  // At most one sequence reference is pending, and none unless the player is playing; a
  // stopped player has no voice allocated; no event that the handler asserts against arrives.
  predicate Sane(p: Player) {
    && SeqRefs(p) <= 1
    && (p.state != Playing ==> SeqRefs(p) == 0)
    && (p.state == Stopped ==> p.alloc == [])
    && Seen(p, NotOnlyRead) == [] && !OnlyRead(p.next)
    && Fits(p.queue)
  }

  // The same once the event in hand is dealt with.
  predicate Settled(p: Player) {
    && |Seen(p, NotSeqRef)| <= 1
    && (p.state != Playing ==> Seen(p, NotSeqRef) == [])
    && (p.state == Stopped ==> p.alloc == [])
    && Seen(p, NotOnlyRead) == []
    && Fits(p.queue)
  }

  predicate SameStock(p: Player, r: Player) {
    && |r.queue| + r.free == |p.queue| + p.free
    && multiset(r.alloc) + multiset(r.idle) == multiset(p.alloc) + multiset(p.idle)
  }

  lemma Hides()
    ensures HidesVoices(NotSeqRef) && HidesVoices(NotOnlyRead)
    ensures forall e :: IsNoteOff(e) ==> NotSeqRef(e) && NotOnlyRead(e)
  {
  }

  // A quiet handler.
  predicate Still(p: Player, r: Player) {
    Quiet(p, r, NotSeqRef) && Quiet(p, r, NotOnlyRead)
  }

  lemma StillSettled(p: Player, r: Player)
    requires Still(p, r) && Settled(p)
    ensures Settled(r) && SameStock(p, r)
  {
  }

  lemma PostedStill(p: Player, evt: Event, delay: Micros)
    requires !evt.SeqRef? && !OnlyRead(evt)
    ensures Still(p, Posted(p, evt, delay))
  {
    PostedQuiet(p, evt, delay, NotSeqRef);
    PostedQuiet(p, evt, delay, NotOnlyRead);
  }

  lemma MidiStill(p: Player, status: u8, byte1: u8, byte2: u8, duration: u32, a: Answer)
    requires HandleMidi(p, status, byte1, byte2, duration, a).Some?
    ensures Still(p, HandleMidi(p, status, byte1, byte2, duration, a).value)
  {
    Hides();
    MidiQuiet(p, status, byte1, byte2, duration, a, NotSeqRef);
    MidiQuiet(p, status, byte1, byte2, duration, a, NotOnlyRead);
  }

  lemma MetaSettled(p: Player, status: u8, kind: u8, a: Answer)
    requires Settled(p) && HandleMeta(p, status, kind, a).Some?
    ensures var r := HandleMeta(p, status, kind, a).value;
      Settled(r) && SameStock(p, r) && r.state == p.state && Seen(r, NotSeqRef) == Seen(p, NotSeqRef)
  {
    hide SetTempo;
    Hides();
    if SetTempo(p, UsptFromTempo(p.target, a)).Some? {
      SetTempoQuiet(p, UsptFromTempo(p.target, a), NotSeqRef);
      SetTempoQuiet(p, UsptFromTempo(p.target, a), NotOnlyRead);
    }
  }

  lemma PostGrows(p: Player, evt: Event, delay: Micros, drop: Event -> bool)
    requires Fits(p.queue)
    ensures |Seen(Posted(p, evt, delay), drop)| <= |Seen(p, drop)| + 1
    ensures Fits(Posted(p, evt, delay).queue)
  {
    if p.free > 0 {
      TotalPlace(p.queue, evt, delay, delay == AL_EVTQ_END);
      if drop(evt) {
        PostUnseen(p.queue, evt, delay, p.now, drop);
      } else if delay == AL_EVTQ_END {
        PostLastSeen(p.queue, evt, p.now, drop);
      } else {
        PostSeen(p.queue, evt, delay, p.now, drop);
      }
    }
  }

  lemma PostNextSettled(p: Player)
    requires Settled(p) && Seen(p, NotSeqRef) == [] && PostNextSeqEvent(p).Some?
    ensures var r := PostNextSeqEvent(p).value; Settled(r) && SameStock(p, r)
  {
    hide NextDelta;
    if p.state == Playing && p.target.Some? && NextDelta(p.target.value).1.Some? {
      var (s, ticks) := NextDelta(p.target.value);
      var p1 := p.(target := Some(s));
      PostGrows(p1, SeqRef, ticks.value * p.uspt, NotSeqRef);
      PostedQuiet(p1, SeqRef, ticks.value * p.uspt, NotOnlyRead);
    }
  }

  lemma SeqEventSettled(p: Player, evt: Event, a: Answer)
    requires Settled(p) && Seen(p, NotSeqRef) == [] && p.state == Playing && HandleSeqEvent(p, evt, a).Some?
    ensures var r := HandleSeqEvent(p, evt, a).value; Settled(r) && SameStock(p, r)
  {
    hide HandleMidi, HandleMeta, PostNextSeqEvent, Posted;
    match evt
    case SeqMidi(status, byte1, byte2, duration, _) =>
      MidiStill(p, status, byte1, byte2, duration, a);
      PostNextSettled(HandleMidi(p, status, byte1, byte2, duration, a).value);
    case Tempo(status, kind, _, _, _, _) =>
      MetaSettled(p, status, kind, a);
      PostNextSettled(HandleMeta(p, status, kind, a).value);
    case SeqEnd(_) => PostedStill(p.(state := Stopping), StopEvent, AL_EVTQ_END);
    case _ => PostNextSettled(p);
  }

  lemma FlushedSettled(p: Player, tag: EventType)
    requires Settled(p)
    ensures Settled(Flushed(p, tag)) && SameStock(p, Flushed(p, tag))
    ensures |Seen(Flushed(p, tag), NotSeqRef)| <= |Seen(p, NotSeqRef)|
    ensures tag == SeqRefType ==> Seen(Flushed(p, tag), NotSeqRef) == []
    ensures SameCourse(p, Flushed(p, tag))
  {
    hide Remove, HasType, Fits;
    FlushedView(p, tag);
    FlushedFits(p, tag);
    KeepShrinks(Abs(p.queue, p.now), HasType(tag), NotSeqRef);
    KeepShrinks(Abs(p.queue, p.now), HasType(tag), NotOnlyRead);
    if tag == SeqRefType {
      SeqRefsTyped();
      KeepNothing(Abs(p.queue, p.now), HasType(tag), NotSeqRef);
    }
  }

  lemma SeqRefsTyped()
    ensures forall e :: HasType(SeqRefType)(e) || NotSeqRef(e)
  {
  }

  // A flush leaves the events of other types where they are, in absolute time.
  lemma FlushedView(p: Player, tag: EventType)
    ensures Abs(Flushed(p, tag).queue, p.now) == Keep(Abs(p.queue, p.now), HasType(tag))
    ensures SameCourse(p, Flushed(p, tag)) && SameStock(p, Flushed(p, tag)) && Flushed(p, tag).alloc == p.alloc
  {
    hide HasType, Remove, Abs, Keep;
    RemoveRefines(p.queue, HasType(tag), 0, p.now);
  }

  lemma FlushedFits(p: Player, tag: EventType)
    requires Fits(p.queue)
    ensures Fits(Flushed(p, tag).queue)
  {
    TotalRemove(p.queue, HasType(tag), 0);
  }

  lemma {:induction false} KeepShrinks(a: seq<Timed>, gone: Event -> bool, drop: Event -> bool)
    ensures |Keep(Keep(a, gone), drop)| <= |Keep(a, drop)|
  {
    if a != [] {
      KeepShrinks(a[1..], gone, drop);
      if !gone(a[0].evt) {
        assert Keep(a, gone)[1..] == Keep(a[1..], gone);
      }
    }
  }

  lemma {:induction false} KeepNothing(a: seq<Timed>, gone: Event -> bool, drop: Event -> bool)
    requires forall e :: gone(e) || drop(e)
    ensures Keep(Keep(a, gone), drop) == []
  {
    if a != [] {
      KeepNothing(a[1..], gone, drop);
      if !gone(a[0].evt) {
        assert Keep(a, gone)[1..] == Keep(a[1..], gone);
      }
    }
  }

  lemma BeginStoppingSettled(p: Player)
    requires Settled(p)
    ensures Settled(BeginStopping(p)) && SameStock(p, BeginStopping(p))
  {
    hide Flushed, KillVoices, Posted;
    var p1 := Flushed(p, SeqRefType);
    var p2 := Flushed(p1, NoteOffType);
    var p3 := Flushed(p2, SeqpMidiType);
    FlushedSettled(p, SeqRefType);
    FlushedSettled(p1, NoteOffType);
    FlushedSettled(p2, SeqpMidiType);
    Hides();
    KillVoicesQuiet(p3, 0, NotSeqRef);
    KillVoicesQuiet(p3, 0, NotOnlyRead);
    PostedStill(KillVoices(p3, 0).(state := Stopping), StopEvent, AL_EVTQ_END);
  }

  lemma {:induction false} StopSettled(p: Player)
    requires Settled(p) && p.state == Stopping
    ensures var r := StopVoices(p).(state := Stopped); Settled(r) && SameStock(p, r)
  {
    hide StopVoices;
    Hides();
    StopVoicesQuiet(p, NotSeqRef);
    StopVoicesQuiet(p, NotOnlyRead);
  }

  // Whatever the event in hand is, dealing with it keeps the invariant.
  lemma DispatchSettled(p: Player, a: Answer)
    requires Sane(p) && Dispatch(p, a).Some?
    ensures Settled(Dispatch(p, a).value) && SameStock(p, Dispatch(p, a).value)
  {
    hide HandleMidi, HandleMeta, HandleSeqEvent, PostNextSeqEvent, Posted, StopVoice, StopVoices, BeginStopping;
    hide ResetChannels, Quiet;
    assert Settled(p);
    match p.next
    case SeqRef => SeqRefSettled(p, a);
    case Api => PostedKeeps(p, Api, AL_USEC_PER_FRAME);
    case NoteEnd(v) => StopVoiceSettled(p, v);
    case Tremolo(v) => PostedKeeps(p, Tremolo(v), a.tremolo);
    case Vibrato(v, chan) => PostedKeeps(p, Vibrato(v, chan), a.vibrato);
    case Midi(status, byte1, byte2) =>
      MidiStill(p, status, byte1, byte2, 0, a);
      StillSettled(p, HandleMidi(p, status, byte1, byte2, 0, a).value);
    case NoteOff(status, byte1, byte2) =>
      MidiStill(p, status, byte1, byte2, 0, a);
      StillSettled(p, HandleMidi(p, status, byte1, byte2, 0, a).value);
    case Meta(status, kind, _, _, _) => MetaSettled(p, status, kind, a);
    case PlayEvent =>
      if p.state != Playing {
        PostNextSettled(p.(state := Playing));
      }
    case StopEvent =>
      if p.state == Stopping {
        StopSettled(p);
      }
    case StoppingEvent => BeginStoppingSettled(p);
    case _ => OtherSettled(p, a);
  }

  lemma StopVoiceSettled(p: Player, v: VoiceId)
    requires Settled(p)
    ensures Settled(StopVoice(p, v)) && SameStock(p, StopVoice(p, v))
  {
    hide StopVoice, Quiet;
    Hides();
    StopVoiceQuiet(p, v, NotSeqRef);
    StopVoiceQuiet(p, v, NotOnlyRead);
    StillSettled(p, StopVoice(p, v));
  }

  lemma PostedKeeps(p: Player, evt: Event, delay: Micros)
    requires Settled(p) && !evt.SeqRef? && !OnlyRead(evt)
    ensures Settled(Posted(p, evt, delay)) && SameStock(p, Posted(p, evt, delay))
  {
    PostedStill(p, evt, delay);
    StillSettled(p, Posted(p, evt, delay));
  }

  lemma SeqRefSettled(p: Player, a: Answer)
    requires Sane(p) && p.next.SeqRef? && HandleNextSeqEvent(p, a).Some?
    ensures var r := HandleNextSeqEvent(p, a).value; Settled(r) && SameStock(p, r)
  {
    hide NextEvent, HandleSeqEvent;
    if p.target.Some? {
      var r := NextEvent(p.target.value).value;
      SeqEventSettled(p.(target := Some(r.next)), r.event, a);
    }
  }

  // The events that touch neither the queue nor the state.
  lemma OtherSettled(p: Player, a: Answer)
    requires Settled(p) && Dispatch(p, a).Some?
    requires p.next.Envelope? || p.next.Volume? || p.next.Priority? || p.next.SetSeq? || p.next.SetBank?
      || p.next.TrackEnd? || p.next.LoopStart? || p.next.LoopEnd? || p.next.Empty?
    ensures Settled(Dispatch(p, a).value) && SameStock(p, Dispatch(p, a).value)
  {
    hide Settled;
    SettledSame(p, Dispatch(p, a).value);
  }

  lemma SettledSame(p: Player, r: Player)
    requires Settled(p) && r.queue == p.queue && r.now == p.now && r.state == p.state && r.alloc == p.alloc
    ensures Settled(r)
  {
  }

  lemma AdvanceSane(p: Player)
    requires Settled(p) && Advance(p).Some?
    ensures Sane(Advance(p).value) && SameStock(p, Advance(p).value)
  {
    if p.queue == [] {
      assert Abs(p.queue, p.now) == [];
    } else {
      TakeFirstView(p.queue, p.now, NotSeqRef);
      TakeFirstView(p.queue, p.now, NotOnlyRead);
    }
  }

  lemma CallSane(p: Player, c: Call)
    requires Sane(p) && Called(p, c).Some?
    ensures Sane(Called(p, c).value) && SameStock(p, Called(p, c).value)
  {
    hide Posted, Quiet, PostedTicks;
    match c
    case PlayCall => PostedSane(p, PlayEvent, 0);
    case StopCall => PostedSane(p, StoppingEvent, 0);
    case SendMidiCall(ticks, status, byte1, byte2) => PostedTicksSane(p, Midi(status, byte1, byte2), ticks);
    case SetTempoCall(tempo) => PostedSane(p, TempoMessage(tempo), 0);
    case SetSeqCall => PostedSane(p, SetSeq, 0);
    case SetBankCall => PostedSane(p, SetBank, 0);
    case SetVolCall(vol) => PostedSane(p, Volume(vol), 0);
    case SetPriorityCall(channel, priority) => PostedSane(p, Priority(channel, priority), 0);
  }

  lemma PostedSane(p: Player, evt: Event, delay: Micros)
    requires Sane(p) && !evt.SeqRef? && !OnlyRead(evt)
    ensures Sane(Posted(p, evt, delay)) && SameStock(p, Posted(p, evt, delay))
  {
    PostedStill(p, evt, delay);
  }

  lemma PostedTicksSane(p: Player, evt: Event, ticks: nat)
    requires Sane(p) && !evt.SeqRef? && !OnlyRead(evt) && PostedTicks(p, evt, ticks).Some?
    ensures Sane(PostedTicks(p, evt, ticks).value) && SameStock(p, PostedTicks(p, evt, ticks).value)
  {
    PostedSane(p, evt, ticks * p.uspt);
  }

  lemma DoSane(p: Player, act: Act)
    requires Sane(p) && Do(p, act).Some?
    ensures Sane(Do(p, act).value) && SameStock(p, Do(p, act).value)
  {
    hide Sane, Settled, Dispatch, Advance, Called;
    match act
    case Iterate(a) =>
      DispatchSettled(p, a);
      AdvanceSane(Dispatch(p, a).value);
    case Calls(c) => CallSane(p, c);
  }

  // Every reachable state: the invariant holds, the event items are all free or queued, and
  // every voice is in one of the two voice lists, once.
  lemma {:induction false} RunsAreSane(voices: nat, events: nat, channels: nat, acts: seq<Act>)
    requires RunPlayer(NewPlayer(voices, events, channels), acts).Some?
    ensures var p := RunPlayer(NewPlayer(voices, events, channels), acts).value;
      && Sane(p)
      && |p.queue| + p.free == events
      && multiset(p.alloc) + multiset(p.idle) == multiset(Descending(voices))
    decreases |acts|
  {
    hide Do, Sane, Descending;
    if acts == [] {
      NewSane(voices, events, channels);
    } else {
      RunsAreSane(voices, events, channels, acts[..|acts| - 1]);
      DoSane(RunPlayer(NewPlayer(voices, events, channels), acts[..|acts| - 1]).value, acts[|acts| - 1]);
    }
  }

  lemma NewSane(voices: nat, events: nat, channels: nat)
    ensures Sane(NewPlayer(voices, events, channels))
  {
    hide Descending;
    assert Abs([], 0) == [];
  }
}
