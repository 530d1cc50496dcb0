// No drift: while a sequence plays, each of its events is handled exactly when its ticks have
// gone by, at the tempo in force when the event before it was handled.
module NoDrift {
  import opened Machine
  import opened AudioEvents
  import opened DeltaList
  import opened Views
  import opened Sequencer
  import opened MergeRuns
  import opened Player
  import opened QuietSteps
  import opened PlayerInvariant

  // When the next event of the sequence is due.
  function DueAt(p: Player): Option<int> {
    if p.next.SeqRef? then Some(p.now)
    else if Seen(p, NotSeqRef) != [] then Some(Seen(p, NotSeqRef)[0].time)
    else None
  }

  // A handled event of the sequence: the time, what the sequence delivered, and the
  // microseconds per tick from then on.
  datatype Played = Played(time: int, step: SeqStep, uspt: Micros)

  // ---- iterations that are not about the sequence ----

  lemma PlainMidiQuiet(p: Player, status: u8, byte1: u8, byte2: u8, a: Answer, drop: Event -> bool)
    requires HidesVoices(drop) && HandleMidi(p, status, byte1, byte2, 0, a).Some?
    ensures Quiet(p, HandleMidi(p, status, byte1, byte2, 0, a).value, drop)
  {
    hide Quiet, Struck, StartNote;
    if StartsNote(status, byte2) {
      var chan := status % 0x10;
      WithQuiet(p, 0, p.VoiceAt(0), drop);
      if p.state == Playing && a.sound.Some? && p.idle != [] {
        StartNoteIs(p, chan, byte1, 0, a.sound.value, a.tremolo, a.vibrato);
        StruckQuiet(p, chan, byte1, a.sound.value, a.tremolo, a.vibrato, drop);
      } else {
        StaysQuiet(p, drop);
      }
    } else {
      OtherMidiQuiet(p, status, byte1, byte2, 0, a, drop);
    }
  }

  lemma StaysQuiet(p: Player, drop: Event -> bool)
    ensures Quiet(p, p, drop)
  {
  }

  predicate ConcernsSequence(e: Event) {
    e.SeqRef? || e.Meta?
  }

  // While the player is playing and goes on playing, every other event leaves the sequence,
  // the tempo and what is queued for them alone.
  lemma OtherDispatchQuiet(p: Player, a: Answer, drop: Event -> bool)
    requires HidesVoices(drop) && drop(Api) && p.state == Playing && !ConcernsSequence(p.next)
    requires Dispatch(p, a).Some? && Dispatch(p, a).value.state == Playing
    ensures Quiet(p, Dispatch(p, a).value, drop)
  {
    hide HandleMidi, Posted, StopVoice, BeginStopping, ResetChannels, Quiet;
    StaysQuiet(p, drop);
    match p.next
    case Api => PostedQuiet(p, Api, AL_USEC_PER_FRAME, drop);
    case NoteEnd(v) => StopVoiceQuiet(p, v, drop);
    case Envelope(v) => WithQuiet(p, v, p.VoiceAt(v).(envPhase := Decay), drop);
    case Tremolo(v) => PostedQuiet(p, Tremolo(v), a.tremolo, drop);
    case Vibrato(v, chan) => PostedQuiet(p, Vibrato(v, chan), a.vibrato, drop);
    case Midi(status, byte1, byte2) => PlainMidiQuiet(p, status, byte1, byte2, a, drop);
    case NoteOff(status, byte1, byte2) => PlainMidiQuiet(p, status, byte1, byte2, a, drop);
    case StoppingEvent => StoppingStops(p);
    case _ =>
  }

  lemma StoppingStops(p: Player)
    ensures BeginStopping(p).state == Stopping
  {
    hide KillVoices, Flushed;
  }

  // The sequence's own iterations come from these; all others leave it alone.
  predicate HandlesSequence(p: Player, act: Act) {
    act.Iterate? && p.next.SeqRef?
  }

  predicate HandlesTempo(p: Player, act: Act) {
    act.Iterate? && p.next.Meta?
  }

  // A tempo set from outside too leaves the queued reference where it is.
  lemma OthersKeepDue(p: Player, act: Act)
    requires Sane(p) && p.state == Playing && !HandlesSequence(p, act)
    requires Do(p, act).Some? && Do(p, act).value.state == Playing
    ensures var r := Do(p, act).value;
      DueAt(r) == DueAt(p) && r.target == p.target && (!HandlesTempo(p, act) ==> r.uspt == p.uspt)
  {
    hide Dispatch, Called, Seen, Sane, Advance, DueAt;
    match act
    case Iterate(a) =>
      var q := Dispatch(p, a).value;
      AdvanceKeepsDelay(q);
      if p.next.Meta? {
        TempoKeepsDue(p, a);
      } else {
        OtherDispatchQuiet(p, a, NotSeqRef);
      }
      AdvanceShows(q);
      DueIs(p);
    case Calls(c) =>
      CallQuiet(p, c, NotSeqRef);
      DueStays(p, Called(p, c).value);
  }

  lemma DueStays(p: Player, r: Player)
    requires Quiet(p, r, NotSeqRef)
    ensures DueAt(r) == DueAt(p)
  {
  }

  lemma TempoKeepsDue(p: Player, a: Answer)
    requires Sane(p) && p.next.Meta? && Dispatch(p, a).Some?
    ensures var q := Dispatch(p, a).value;
      q.target == p.target && q.now == p.now && Seen(q, NotSeqRef) == Seen(p, NotSeqRef)
  {
    hide HandleMeta, Seen;
    SeqTempoKeeps(p, p.next.metaStatus, p.next.metaType, a);
  }

  // When the event in hand is another, the next one of the sequence is the first reference in
  // the queue; so it is after the next event has been taken.
  lemma DueIs(p: Player)
    requires !p.next.SeqRef?
    ensures DueAt(p) == if Seen(p, NotSeqRef) == [] then None else Some(Seen(p, NotSeqRef)[0].time)
  {
    hide Seen;
  }

  lemma AdvanceShows(q: Player)
    requires Advance(q).Some?
    ensures DueAt(Advance(q).value) == if Seen(q, NotSeqRef) == [] then None else Some(Seen(q, NotSeqRef)[0].time)
  {
    if q.queue == [] {
      assert Abs(q.queue, q.now) == [];
    } else {
      TakeFirstView(q.queue, q.now, NotSeqRef);
    }
  }

  lemma CallQuiet(p: Player, c: Call, drop: Event -> bool)
    requires drop(PlayEvent) && drop(StoppingEvent) && drop(SetSeq) && drop(SetBank)
    requires forall e: Event :: e.Midi? || e.Meta? || e.Volume? || e.Priority? ==> drop(e)
    requires Called(p, c).Some?
    ensures Quiet(p, Called(p, c).value, drop)
  {
    hide Quiet, Posted, TempoMessage;
    match c
    case PlayCall => PostedQuiet(p, PlayEvent, 0, drop);
    case StopCall => PostedQuiet(p, StoppingEvent, 0, drop);
    case SendMidiCall(ticks, status, byte1, byte2) => PostedQuiet(p, Midi(status, byte1, byte2), ticks * p.uspt, drop);
    case SetTempoCall(tempo) => TempoIsMeta(tempo); PostedQuiet(p, TempoMessage(tempo), 0, drop);
    case SetSeqCall => PostedQuiet(p, SetSeq, 0, drop);
    case SetBankCall => PostedQuiet(p, SetBank, 0, drop);
    case SetVolCall(vol) => PostedQuiet(p, Volume(vol), 0, drop);
    case SetPriorityCall(channel, priority) => PostedQuiet(p, Priority(channel, priority), 0, drop);
  }

  lemma TempoIsMeta(tempo: s32)
    ensures TempoMessage(tempo).Meta?
  {
  }

  // ---- the sequence's own iterations ----

  // A reference is posted, and due after the ticks up to the next event.
  lemma PostNextDue(p: Player)
    requires Seen(p, NotSeqRef) == [] && p.free > 0 && p.state == Playing && p.target.Some?
    requires p.target.value.valid != {}
    requires PostNextSeqEvent(p).Some?
    requires var d := NextDelta(p.target.value).1; d.Some? ==> d.value * p.uspt < AL_EVTQ_END
    ensures var d := NextDelta(p.target.value).1;
      && d.Some?
      && var r := PostNextSeqEvent(p).value;
      && Seen(r, NotSeqRef) == [Timed(p.now + d.value * p.uspt, SeqRef)]
      && r.target == Some(NextDelta(p.target.value).0)
      && SameButQueue(p, r)
  {
    hide Subtracted, Pick;
    var d := NextDelta(p.target.value).1;
    PostSeen(p.queue, SeqRef, d.value * p.uspt, p.now, NotSeqRef);
  }

  predicate SameButQueue(p: Player, r: Player) {
    r.state == p.state && r.now == p.now && r.uspt == p.uspt
  }

  // Room for what one event of a sequence may post: two oscillators, an envelope and a
  // note-off, or the note ends of all the voices that a pedal releases; and the next reference.
  predicate HasRoom(p: Player) {
    p.free > 4 && p.free > |p.alloc|
  }

  // What handling one sequence event does before the next reference is posted.
  lemma SeqMidiKeeps(p: Player, status: u8, byte1: u8, byte2: u8, duration: u32, a: Answer)
    requires HandleMidi(p, status, byte1, byte2, duration, a).Some? && HasRoom(p)
    ensures var r := HandleMidi(p, status, byte1, byte2, duration, a).value;
      r.free > 0 && SameCourse(p, r) && Seen(r, NotSeqRef) == Seen(p, NotSeqRef)
  {
    hide HandleMidi, Seen;
    Hides();
    MidiQuiet(p, status, byte1, byte2, duration, a, NotSeqRef);
    MidiLeavesRoom(p, status, byte1, byte2, duration, a);
  }

  // How many items a message may take.
  function MidiTakes(p: Player, status: u8, byte1: u8, byte2: u8): nat {
    var kind := status / 0x10;
    if StartsNote(status, byte2) then 4
    else if kind == 0x8 || kind == 0x9 then 1
    else if kind == 0xB && byte1 == AL_MIDI_SUSTAIN_CTRL then |p.alloc|
    else 0
  }

  lemma MidiLeavesRoom(p: Player, status: u8, byte1: u8, byte2: u8, duration: u32, a: Answer)
    requires HandleMidi(p, status, byte1, byte2, duration, a).Some?
    ensures HandleMidi(p, status, byte1, byte2, duration, a).value.free >= p.free - MidiTakes(p, status, byte1, byte2)
    ensures HasRoom(p) ==> HandleMidi(p, status, byte1, byte2, duration, a).value.free > 0
  {
    hide NoteOn, EndNote, Pedal, Quiet;
    var chan := status % 0x10;
    EndNoteTakesOne(p, chan, byte1);
    if StartsNote(status, byte2) {
      Hides();
      NoteOnQuiet(p, chan, byte1, duration, a, NotSeqRef);
    } else if chan < |p.sustain| {
      PedalTakesFew(p.(sustain := p.sustain[chan := byte2]), chan, byte2 > AL_SUSTAIN, 0);
    }
  }

  lemma ReleaseTakesOne(p: Player, v: VoiceId, delay: Micros)
    ensures ReleaseVoice(p, v, delay).free >= p.free - 1
  {
  }

  lemma EndNoteTakesOne(p: Player, chan: u8, key: u8)
    ensures EndNote(p, chan, key).free >= p.free - 1
  {
    hide ReleaseVoice, LookupVoice;
    var v := LookupVoice(p, p.alloc, key, chan);
    if v.Some? {
      var s := p.VoiceAt(v.value);
      ReleaseTakesOne(p.With(v.value, s.(phase := ReleasePhase)), v.value, s.releaseTime);
    }
  }

  lemma {:induction false} PedalTakesFew(p: Player, chan: u8, down: bool, k: nat)
    requires k <= |p.alloc|
    ensures Pedal(p, chan, down, k).free >= p.free - (|p.alloc| - k)
    decreases |p.alloc| - k
  {
    hide PedalVoice;
    if k < |p.alloc| {
      PedalTakesOne(p, p.alloc[k], down);
      var p1 := if p.VoiceAt(p.alloc[k]).channel == chan then PedalVoice(p, p.alloc[k], down) else p;
      PedalTakesFew(p1, chan, down, k + 1);
    }
  }

  lemma PedalTakesOne(p: Player, v: VoiceId, down: bool)
    ensures PedalVoice(p, v, down).free >= p.free - 1 && PedalVoice(p, v, down).alloc == p.alloc
  {
    hide ReleaseVoice;
    var s := p.VoiceAt(v);
    ReleaseTakesOne(p.With(v, s.(phase := ReleasePhase)), v, s.releaseTime);
    ReleaseKeepsAlloc(p.With(v, s.(phase := ReleasePhase)), v, s.releaseTime);
  }

  lemma SeqTempoKeeps(p: Player, status: u8, kind: u8, a: Answer)
    requires HandleMeta(p, status, kind, a).Some? && Fits(p.queue)
    ensures var r := HandleMeta(p, status, kind, a).value;
      && r.free == p.free && r.state == p.state && r.target == p.target && r.now == p.now
      && Seen(r, NotSeqRef) == Seen(p, NotSeqRef)
  {
    hide SetTempo, Fits, View;
    Hides();
    if SetTempo(p, UsptFromTempo(p.target, a)).Some? {
      SetTempoQuiet(p, UsptFromTempo(p.target, a), NotSeqRef);
    }
  }

  // The delay of the reference that was posted last.
  function NextDelay(p: Player): nat {
    if p.target.None? || NextDelta(p.target.value).1.None? then 0 else NextDelta(p.target.value).1.value * p.uspt
  }

  lemma SeqEventDue(p: Player, r: SeqStep, a: Answer)
    requires Fits(p.queue) && Seen(p, NotSeqRef) == [] && HasRoom(p) && p.state == Playing && p.target == Some(r.next)
    requires r.event.SeqEnd? <==> r.next.valid == {}
    requires var q := HandleSeqEvent(p, r.event, a);
      q.Some? && q.value.state == Playing && NextDelay(q.value) < AL_EVTQ_END
    ensures var q := HandleSeqEvent(p, r.event, a).value;
      && q.now == p.now && q.target == Some(NextDelta(r.next).0) && NextDelta(r.next).1.Some?
      && Seen(q, NotSeqRef) == [Timed(p.now + NextDelta(r.next).1.value * q.uspt, SeqRef)]
      && (!r.event.Tempo? ==> q.uspt == p.uspt)
  {
    hide HandleMidi, HandleMeta, PostNextSeqEvent, NextDelta, Seen, Posted;
    NextDeltaTwice(r.next);
    match r.event
    case SeqMidi(status, byte1, byte2, duration, _) =>
      SeqMidiKeeps(p, status, byte1, byte2, duration, a);
      ReferenceDue(HandleMidi(p, status, byte1, byte2, duration, a).value);
    case Tempo(status, kind, _, _, _, _) =>
      SeqTempoKeeps(p, status, kind, a);
      ReferenceDue(HandleMeta(p, status, kind, a).value);
    case SeqEnd(_) => PostedState(p.(state := Stopping), StopEvent, AL_EVTQ_END);
    case _ => ReferenceDue(p);
  }

  lemma PostedState(p: Player, evt: Event, delay: Micros)
    ensures Posted(p, evt, delay).state == p.state
  {
  }

  lemma NextDeltaTwice(s: Standing)
    ensures NextDelta(NextDelta(s).0) == NextDelta(s) && (s.valid != {} ==> NextDelta(s).1.Some?)
  {
    NextDeltaPredicts(s);
  }

  lemma ReferenceDue(p: Player)
    requires Seen(p, NotSeqRef) == [] && p.free > 0 && p.state == Playing && p.target.Some?
    requires p.target.value.valid != {}
    requires PostNextSeqEvent(p).Some? && NextDelay(PostNextSeqEvent(p).value) < AL_EVTQ_END
    ensures var d, r := NextDelta(p.target.value).1, PostNextSeqEvent(p).value;
      && d.Some?
      && Seen(r, NotSeqRef) == [Timed(p.now + d.value * p.uspt, SeqRef)]
      && r.target == Some(NextDelta(p.target.value).0)
      && SameButQueue(p, r)
  {
    hide NextDelta;
    NextDeltaTwice(p.target.value);
    ReferencePosted(p);
    PostNextDue(p);
  }

  lemma ReferencePosted(p: Player)
    requires p.state == Playing && p.target.Some? && PostNextSeqEvent(p).Some?
    ensures var r := PostNextSeqEvent(p).value; r.target == Some(NextDelta(p.target.value).0) && r.uspt == p.uspt
  {
    hide NextDelta, Post;
  }

  // The sequence's own iteration: its event is handled now, and the next one is due after its
  // ticks, at the tempo that is in force then.
  lemma SequenceStep(p: Player, a: Answer, s: Standing)
    requires Sane(p) && p.state == Playing && p.next.SeqRef? && p.target == Some(s) && HasRoom(p)
    requires Step(p, a).Some? && Step(p, a).value.state == Playing && NextDelay(Step(p, a).value) < AL_EVTQ_END
    ensures NextEvent(s).Some?
    ensures var r, next := Step(p, a).value, NextEvent(s).value.next;
      && r.target == Some(NextDelta(next).0) && NextDelta(next).1.Some?
      && DueAt(r) == Some(p.now + NextDelta(next).1.value * r.uspt)
      && (!NextEvent(s).value.event.Tempo? ==> r.uspt == p.uspt)
  {
    hide HandleSeqEvent, NextEvent, NextDelta;
    var r := NextEvent(s).value;
    var p1 := p.(target := Some(r.next));
    EndOfStep(s, r);
    AdvanceKeepsDelay(HandleSeqEvent(p1, r.event, a).value);
    SeqEventDue(p1, r, a);
    AdvanceKeepsDue(HandleSeqEvent(p1, r.event, a).value);
  }

  lemma AdvanceKeepsDelay(p: Player)
    requires Advance(p).Some?
    ensures var r := Advance(p).value; r.state == p.state && r.target == p.target && r.uspt == p.uspt
    ensures NextDelay(Advance(p).value) == NextDelay(p)
  {
  }

  lemma AdvanceKeepsDue(p: Player)
    requires Advance(p).Some? && Seen(p, NotSeqRef) != []
    ensures DueAt(Advance(p).value) == Some(Seen(p, NotSeqRef)[0].time)
  {
    if p.queue != [] {
      TakeFirstView(p.queue, p.now, NotSeqRef);
    }
  }

  // The first reference, when the player starts playing.
  lemma PlayStep(p: Player, a: Answer, s: Standing)
    requires Sane(p) && p.state != Playing && p.next.PlayEvent? && p.target == Some(s) && s.valid != {} && p.free > 0
    requires Step(p, a).Some? && NextDelay(Step(p, a).value) < AL_EVTQ_END
    ensures var r := Step(p, a).value;
      && r.state == Playing && r.uspt == p.uspt
      && r.target == Some(NextDelta(s).0) && NextDelta(s).1.Some?
      && DueAt(r) == Some(p.now + NextDelta(s).1.value * p.uspt)
  {
    hide PostNextSeqEvent, NextDelta, Seen;
    var p1 := p.(state := Playing);
    SameView(p, p1);
    AdvanceKeepsDelay(PostNextSeqEvent(p1).value);
    ReferenceDue(p1);
    AdvanceKeepsDue(PostNextSeqEvent(p1).value);
  }

  lemma SameView(p: Player, r: Player)
    requires r.queue == p.queue && r.now == p.now
    ensures Seen(r, NotSeqRef) == Seen(p, NotSeqRef)
  {
  }

  // ---- whole runs ----

  // The events of the sequence that a run handles.
  function PlayedIn(p: Player, acts: seq<Act>): seq<Played>
    requires RunPlayer(p, acts).Some?
    decreases |acts|
  {
    if acts == [] then []
    else
      var n := |acts| - 1;
      var q := RunPlayer(p, acts[..n]).value;
      if HandlesSequence(q, acts[n]) && q.target.Some? && NextEvent(q.target.value).Some? then
        PlayedIn(p, acts[..n]) + [Played(q.now, NextEvent(q.target.value).value, RunPlayer(p, acts).value.uspt)]
      else PlayedIn(p, acts[..n])
  }

  // The player goes on playing, with free items when an event of the sequence comes, and with
  // delays short of the one that stands for the queue's end.
  predicate Steady(p: Player, acts: seq<Act>)
    decreases |acts|
  {
    && RunPlayer(p, acts).Some? && RunPlayer(p, acts).value.state == Playing
    && (acts != [] ==>
      var n := |acts| - 1;
      && Steady(p, acts[..n])
      && var q := RunPlayer(p, acts[..n]).value;
        HandlesSequence(q, acts[n]) ==> HasRoom(q) && NextDelay(RunPlayer(p, acts).value) < AL_EVTQ_END)
  }

  // No tempo is set from outside.
  predicate OwnTempo(p: Player, acts: seq<Act>)
    requires RunPlayer(p, acts).Some?
    decreases |acts|
  {
    acts == [] ||
    var n := |acts| - 1;
    OwnTempo(p, acts[..n]) && !HandlesTempo(RunPlayer(p, acts[..n]).value, acts[n])
  }

  function LastTime(played: seq<Played>, start: int): int {
    if played == [] then start else played[|played| - 1].time
  }

  function LastUspt(played: seq<Played>, uspt: Micros): Micros {
    if played == [] then uspt else played[|played| - 1].uspt
  }

  // Every event comes its ticks after the event before it, at the tempo that event left in force.
  predicate NoneDrifts(played: seq<Played>, start: int, uspt: Micros) {
    forall k :: 0 <= k < |played| ==>
      played[k].time == LastTime(played[..k], start) + played[k].step.ticks * LastUspt(played[..k], uspt)
  }

  // The handled events are those that the sequence delivers by itself, one after the other.
  predicate IsRunOf(played: seq<Played>, s: Standing) {
    var run := MergeRuns.RunOf(s, |played|);
    run.Some? && forall k :: 0 <= k < |played| ==> played[k].step == run.value.steps[k]
  }

  // The player stands behind the events it has handled.
  predicate InTime(p: Player, s: Standing, start: int, uspt: Micros, played: seq<Played>) {
    && Sane(p) && p.state == Playing && NoneDrifts(played, start, uspt) && IsRunOf(played, s)
    && var here := MergeRuns.RunOf(s, |played|).value.last;
    && p.target == Some(NextDelta(here).0) && NextDelta(here).1.Some?
    && DueAt(p) == Some(LastTime(played, start) + NextDelta(here).1.value * LastUspt(played, uspt))
  }

  lemma {:induction false} PlayedGrows(played: seq<Played>, x: Played, s: Standing, start: int, uspt: Micros)
    requires NoneDrifts(played, start, uspt) && IsRunOf(played, s)
    requires NextEvent(MergeRuns.RunOf(s, |played|).value.last) == Some(x.step)
    requires x.time == LastTime(played, start) + x.step.ticks * LastUspt(played, uspt)
    ensures NoneDrifts(played + [x], start, uspt) && IsRunOf(played + [x], s)
    ensures MergeRuns.RunOf(s, |played + [x]|).value.last == x.step.next
    ensures LastTime(played + [x], start) == x.time && LastUspt(played + [x], uspt) == x.uspt
  {
    hide NextEvent;
    var all := played + [x];
    assert all[..|played|] == played;
    forall k | 0 <= k < |all|
      ensures all[k].time == LastTime(all[..k], start) + all[k].step.ticks * LastUspt(all[..k], uspt)
    {
      if k < |played| {
        assert all[..k] == played[..k];
      }
    }
  }

  lemma InTimeStep(p: Player, act: Act, s: Standing, start: int, uspt: Micros, played: seq<Played>)
    requires InTime(p, s, start, uspt, played) && Do(p, act).Some? && Do(p, act).value.state == Playing
    requires HandlesSequence(p, act) ==> HasRoom(p) && NextDelay(Do(p, act).value) < AL_EVTQ_END
    ensures HandlesSequence(p, act) ==> p.target.Some? && NextEvent(p.target.value).Some?
    ensures InTime(Do(p, act).value, s, start, uspt,
      if HandlesSequence(p, act) then played + [Played(p.now, NextEvent(p.target.value).value, Do(p, act).value.uspt)]
      else played)
  {
    hide Sane, NextEvent, NextDelta, Do, MergeRuns.RunOf, NoneDrifts, DueAt;
    DoSane(p, act);
    if HandlesSequence(p, act) {
      var here := MergeRuns.RunOf(s, |played|).value.last;
      var t := p.target.value;
      NextDeltaPredicts(here);
      DoIsStep(p, act);
      SequenceStep(p, act.answer, t);
      DueNow(p);
      PlayedGrows(played, Played(p.now, NextEvent(t).value, Do(p, act).value.uspt), s, start, uspt);
    } else {
      OthersKeepDue(p, act);
    }
  }

  lemma DoIsStep(p: Player, act: Act)
    requires act.Iterate?
    ensures Do(p, act) == Step(p, act.answer)
  {
  }

  lemma DueNow(p: Player)
    requires p.next.SeqRef?
    ensures DueAt(p) == Some(p.now)
  {
  }

  // For any sequence, and any interleaving with other events and calls, a tempo set from outside
  // included: while the player goes on playing, the events handled are those of the sequence, in
  // order, and each is handled its ticks after the event before it, at the tempo in force behind
  // that one; the first one counts from when the play event was handled. A tempo set in between
  // counts from the next event on.
  lemma {:induction false} NeverDrifts(p: Player, a: Answer, s: Standing, acts: seq<Act>)
    requires Sane(p) && p.state != Playing && p.next.PlayEvent? && p.target == Some(s) && s.valid != {} && p.free > 0
    requires Step(p, a).Some? && NextDelay(Step(p, a).value) < AL_EVTQ_END
    requires Steady(Step(p, a).value, acts)
    ensures var start := Step(p, a).value;
      InTime(RunPlayer(start, acts).value, s, p.now, p.uspt, PlayedIn(start, acts))
    decreases |acts|
  {
    hide Step, Do, InTime, HandlesSequence, NextEvent, NextDelay, Sane;
    var start := Step(p, a).value;
    if acts == [] {
      InTimeFirst(p, a, s);
    } else {
      var n := |acts| - 1;
      NeverDrifts(p, a, s, acts[..n]);
      InTimeStep(RunPlayer(start, acts[..n]).value, acts[n], s, p.now, p.uspt, PlayedIn(start, acts[..n]));
    }
  }

  // With no tempo from outside, that tempo is still the one in force.
  lemma {:induction false} TempoIsLast(p: Player, acts: seq<Act>)
    requires Sane(p) && Steady(p, acts) && OwnTempo(p, acts)
    ensures RunPlayer(p, acts).value.uspt == LastUspt(PlayedIn(p, acts), p.uspt)
    ensures Sane(RunPlayer(p, acts).value)
    decreases |acts|
  {
    hide Do, HandlesSequence, HandlesTempo, NextEvent, NextDelay, Sane, HasRoom;
    if acts != [] {
      var n := |acts| - 1;
      TempoIsLast(p, acts[..n]);
      var q := RunPlayer(p, acts[..n]).value;
      DoSane(q, acts[n]);
      if HandlesSequence(q, acts[n]) {
        SequenceIsRead(q, acts[n]);
      } else {
        OthersKeepDue(q, acts[n]);
      }
    }
  }

  lemma SequenceIsRead(p: Player, act: Act)
    requires HandlesSequence(p, act) && Do(p, act).Some?
    ensures (p.target.Some? && NextEvent(p.target.value).Some?) || Do(p, act).value.uspt == p.uspt
  {
    hide HandleSeqEvent, NextEvent;
  }

  // The event that is about to be handled comes on time too, the sequence end included, whose
  // handling ends the playing.
  lemma {:induction false} NextIsOnTime(p: Player, a: Answer, s: Standing, acts: seq<Act>)
    requires Sane(p) && p.state != Playing && p.next.PlayEvent? && p.target == Some(s) && s.valid != {} && p.free > 0
    requires Step(p, a).Some? && NextDelay(Step(p, a).value) < AL_EVTQ_END
    requires Steady(Step(p, a).value, acts) && RunPlayer(Step(p, a).value, acts).value.next.SeqRef?
    ensures var played, r := PlayedIn(Step(p, a).value, acts), RunPlayer(Step(p, a).value, acts).value;
      var run := MergeRuns.RunOf(s, |played|);
      && run.Some? && r.target.Some? && NextEvent(r.target.value) == NextEvent(run.value.last)
      && (NextEvent(r.target.value).Some? ==>
        r.now == LastTime(played, p.now) + NextEvent(r.target.value).value.ticks * LastUspt(played, p.uspt))
  {
    hide Step, Sane, NextEvent, NextDelta, NoneDrifts, DueAt, NextDelay;
    var played, r := PlayedIn(Step(p, a).value, acts), RunPlayer(Step(p, a).value, acts).value;
    NeverDrifts(p, a, s, acts);
    var here := MergeRuns.RunOf(s, |played|).value.last;
    NextDeltaPredicts(here);
    DueNow(r);
  }

  lemma InTimeFirst(p: Player, a: Answer, s: Standing)
    requires Sane(p) && p.state != Playing && p.next.PlayEvent? && p.target == Some(s) && s.valid != {} && p.free > 0
    requires Step(p, a).Some? && NextDelay(Step(p, a).value) < AL_EVTQ_END
    ensures InTime(Step(p, a).value, s, p.now, p.uspt, [])
  {
    hide Step, Sane, NextDelta, NextDelay, DueAt;
    PlayStep(p, a, s);
    DoIsStep(p, Iterate(a));
    DoSane(p, Iterate(a));
    assert MergeRuns.RunOf(s, 0) == Some(Run([], s));
  }

  // The same as a sum: the time of an event is that of the play event and, for every event up
  // to it, its ticks times the microseconds per tick then in force.
  function Elapsed(played: seq<Played>, uspt: Micros): nat {
    if played == [] then 0
    else
      var n := |played| - 1;
      Elapsed(played[..n], uspt) + played[n].step.ticks * LastUspt(played[..n], uspt)
  }

  lemma {:induction false} TimesAreSums(played: seq<Played>, start: int, uspt: Micros)
    requires NoneDrifts(played, start, uspt)
    ensures LastTime(played, start) == start + Elapsed(played, uspt)
    decreases |played|
  {
    if played != [] {
      var n := |played| - 1;
      forall k | 0 <= k < n
        ensures played[..n][k].time ==
          LastTime(played[..n][..k], start) + played[..n][k].step.ticks * LastUspt(played[..n][..k], uspt)
      {
        assert played[..n][..k] == played[..k];
      }
      TimesAreSums(played[..n], start, uspt);
    }
  }
}
