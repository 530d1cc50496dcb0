// src/audio/csplayer.c: the compact sequence player, with what it uses of
// src/audio/seqplayer.c. Every method is proved to do what the function of the same name in
// module Player says, on the player's own event queue and sequence.
module CompactPlayer {
  import opened Machine
  import opened AudioEvents
  import opened DeltaList
  import opened Retiming
  import opened VoiceEvents
  import opened ItemLists
  import opened EventQueues
  import opened CompactSequence
  import opened QuietSteps
  import OnTime
  import TrackReader
  import Sequencer
  import Spec = Player

  // ALCSPlayer. The voices are those of the two voice lists; `sustain` stands for chanState.
  class CSPlayer {
    const evtq: EventQueue
    var nextEvent: Event
    var nextDelta: s32
    var curTime: Micros
    var uspt: Micros
    var state: Spec.PlayState
    var target: CSeq?
    var hasBank: bool
    var sustain: seq<u8>
    var vAlloc: seq<VoiceId>
    var vFree: seq<VoiceId>
    var voices: map<VoiceId, Spec.Voice>

    ghost predicate Valid()
      reads this, evtq, evtq.nodes, target
    {
      evtq.Valid() && Fits(evtq.contents) && (target != null ==> target.Valid())
    }

    ghost function State(): Spec.Player
      requires Valid()
      reads this, evtq, evtq.nodes, target
      reads if target == null then {} else target.Repr()
    {
      Spec.Player(
        evtq.contents, evtq.Free(), nextEvent, curTime, uspt, state, Target(), hasBank, sustain, vAlloc, vFree, voices)
    }

    ghost function Target(): Option<Sequencer.Standing>
      requires target != null ==> target.Valid()
      reads this, target
      reads if target == null then {} else target.Repr()
    {
      if target == null then None else Some(target.State())
    }

    // alCSPNew
    constructor (maxVoices: nat, items: seq<Item>, ghost all: set<Item>, maxChannels: nat)
      requires forall i, j :: 0 <= i < j < |items| ==> items[i] != items[j]
      requires SetOf(items, all)
      modifies all
      ensures Valid() && State() == Spec.NewPlayer(maxVoices, |items|, maxChannels)
      ensures fresh(evtq) && fresh(evtq.nodes - all)
    {
      hide EventQueue.Consistent, EventQueue.Stocked, CSeq.Tracks, CSeq.State, SetOf;
      evtq := new EventQueue(items, all);
      nextEvent, nextDelta, curTime := Api, 0, 0;
      uspt, state, target, hasBank := Spec.DEFAULT_USPT, Spec.Stopped, null, false;
      sustain := seq(maxChannels, _ => 0);
      vAlloc, vFree, voices := [], [], map[];
      new;
      LinkVoices(maxVoices);
    }

    // Its loop over the voices.
    method LinkVoices(maxVoices: nat)
      requires Valid() && vFree == []
      modifies `vFree
      ensures Valid() && State() == old(State()).(idle := Spec.Descending(maxVoices))
    {
      hide EventQueue.Consistent, CSeq.Tracks, CSeq.State;
      for i := 0 to maxVoices
        invariant Valid() && State() == old(State()).(idle := Spec.Descending(i))
      {
        vFree := [i] + vFree;
      }
    }

    // alEvtqPostEvent
    method PostEvent(evt: Event, delay: Micros)
      requires Valid()
      modifies evtq.Repr()
      ensures Valid() && State() == Spec.Posted(old(State()), evt, delay)
    {
      hide EventQueue.Consistent, CSeq.Tracks, CSeq.State, Place;
      evtq.FreeItems();
      TotalPlace(evtq.contents, evt, delay, delay == AL_EVTQ_END);
      evtq.PostEvent(evt, delay);
    }

    // ---- voices ----

    // __unmapVoice
    method UnmapVoice(v: VoiceId)
      requires Valid()
      modifies `vAlloc, `vFree
      ensures Valid() && State() == Spec.UnmapVoice(old(State()), v)
    {
      hide EventQueue.Consistent, CSeq.Tracks, CSeq.State, Spec.Without;
      var i := FindVoice(v);
      if i < |vAlloc| {
        vAlloc, vFree := vAlloc[..i] + vAlloc[i + 1..], [v] + vFree;
      }
    }

    // Its walk along the list.
    method FindVoice(v: VoiceId) returns (i: nat)
      ensures i <= |vAlloc| && (i < |vAlloc| <==> v in vAlloc)
      ensures v in vAlloc ==> Spec.Without(vAlloc, v) == vAlloc[..i] + vAlloc[i + 1..]
    {
      i := 0;
      while i < |vAlloc|
        invariant i <= |vAlloc| && v !in vAlloc[..i]
      {
        if vAlloc[i] == v {
          WithoutAt(vAlloc, i);
          return;
        }
        i := i + 1;
      }
    }

    static lemma {:induction false} WithoutAt(s: seq<VoiceId>, i: nat)
      requires i < |s| && s[i] !in s[..i]
      ensures Spec.Without(s, s[i]) == s[..i] + s[i + 1..]
    {
      if i > 0 {
        var rest := s[1..];
        assert s[..i] == [s[0]] + rest[..i - 1] && s[i + 1..] == rest[i..] && rest[i - 1] == s[i];
        WithoutAt(rest, i - 1);
        assert [s[0]] + (rest[..i - 1] + rest[i..]) == ([s[0]] + rest[..i - 1]) + rest[i..];
      }
    }

    // __lookupVoice
    method LookupVoice(key: u8, channel: u8) returns (v: Option<VoiceId>)
      requires Valid()
      ensures v == Spec.LookupVoice(State(), vAlloc, key, channel)
    {
      var i := 0;
      assert vAlloc[0..] == vAlloc;
      while i < |vAlloc|
        invariant i <= |vAlloc|
        invariant Spec.LookupVoice(State(), vAlloc, key, channel) ==
          Spec.LookupVoice(State(), vAlloc[i..], key, channel)
      {
        var vs := VoiceAt(vAlloc[i]);
        assert vAlloc[i..][1..] == vAlloc[i + 1..];
        if vs.key == key && vs.channel == channel && vs.phase != Spec.ReleasePhase
          && vs.phase != Spec.SustainReleasePhase
        {
          return Some(vAlloc[i]);
        }
        i := i + 1;
      }
      v := None;
    }

    function VoiceAt(v: VoiceId): Spec.Voice
      reads this
    {
      if v in voices then voices[v] else Spec.UNUSED_VOICE
    }

    // __seqpStopOsc, if the voice has a flag set
    method StopOscillators(v: VoiceId)
      requires Valid()
      modifies `voices, evtq.Repr()
      ensures Valid() && State() == Spec.StopOscillators(old(State()), v)
    {
      hide EventQueue.Consistent, CSeq.Tracks, CSeq.State, StopOsc;
      evtq.FreeItems();
      var vs := VoiceAt(v);
      if vs.flags.Any() {
        TotalStopOsc(evtq.contents, v, vs.flags, 0);
        var left := evtq.StopOscillators(v, vs.flags);
        voices := voices[v := vs.(flags := left)];
      }
    }

    method StopVoice(v: VoiceId)
      requires Valid()
      modifies `voices, `vAlloc, `vFree, evtq.Repr()
      ensures Valid() && State() == Spec.StopVoice(old(State()), v)
    {
      hide EventQueue.Consistent, CSeq.Tracks, CSeq.State, Spec.StopOscillators, Spec.UnmapVoice;
      StopOscillators(v);
      UnmapVoice(v);
    }

    // The loop of AL_SEQP_STOP_EVT.
    method StopVoices()
      requires Valid()
      modifies `voices, `vAlloc, `vFree, evtq.Repr()
      ensures Valid() && State() == Spec.StopVoices(old(State()))
    {
      hide EventQueue.Consistent, CSeq.Tracks, CSeq.State, Spec.StopVoice;
      while vAlloc != []
        invariant Valid() && Spec.StopVoices(State()) == old(Spec.StopVoices(State()))
        decreases |vAlloc|
      {
        StopShrinks(State(), vAlloc[0]);
        StopVoice(vAlloc[0]);
      }
    }

    lemma StopShrinks(p: Spec.Player, v: VoiceId)
      requires v in p.alloc
      ensures |Spec.StopVoice(p, v).alloc| < |p.alloc|
    {
      StopVoiceQuiet(p, v, e => true);
    }

    // __seqpReleaseVoice
    method ReleaseVoice(v: VoiceId, delay: Micros)
      requires Valid()
      modifies `voices, evtq.Repr()
      ensures Valid() && State() == Spec.ReleaseVoice(old(State()), v, delay)
    {
      hide EventQueue.Consistent, CSeq.Tracks, CSeq.State, Spec.Posted, Spec.Faded;
      Fade(v);
      PostEvent(NoteEnd(v), delay);
    }

    method Fade(v: VoiceId)
      requires Valid()
      modifies `voices, evtq.Repr()
      ensures Valid() && State() == Spec.Faded(old(State()), v)
    {
      hide EventQueue.Consistent, CSeq.Tracks, CSeq.State, Remove, EnvelopesOf;
      var vs := VoiceAt(v);
      if vs.envPhase == Spec.Attack {
        DropEnvelopes(v);
      }
      SetVoice(v, vs.(envPhase := Spec.Release));
    }

    method DropEnvelopes(v: VoiceId)
      requires Valid()
      modifies evtq.Repr()
      ensures Valid() && State() == old(var p := State(); p.Edited(Remove(p.queue, EnvelopesOf(v), 0)))
    {
      hide EventQueue.Consistent, CSeq.Tracks, CSeq.State, Remove, EnvelopesOf;
      evtq.FreeItems();
      TotalRemove(evtq.contents, EnvelopesOf(v), 0);
      evtq.RemoveMatching(EnvelopesOf(v));
    }

    // __voiceNeedsNoteKill and the release that follows it.
    method KillVoice(v: VoiceId)
      requires Valid()
      modifies `voices, evtq.Repr()
      ensures Valid() && State() == Spec.KillVoice(old(State()), v)
    {
      hide EventQueue.Consistent, CSeq.Tracks, CSeq.State, Spec.ReleaseVoice, NeedsNoteKill;
      evtq.FreeItems();
      NoteKillTotal(evtq.contents, v, Spec.KILL_TIME);
      var needsKill := evtq.VoiceNeedsNoteKill(v, Spec.KILL_TIME);
      if needsKill {
        ReleaseVoice(v, Spec.KILL_TIME);
      }
    }

    // The loop of AL_SEQP_STOPPING_EVT.
    method KillVoices()
      requires Valid()
      modifies `voices, evtq.Repr()
      ensures Valid() && State() == Spec.KillVoices(old(State()), 0)
    {
      hide EventQueue.Consistent, CSeq.Tracks, CSeq.State, Spec.KillVoice;
      var k := 0;
      while k < |vAlloc|
        invariant Valid() && k <= |vAlloc|
        invariant Spec.KillVoices(State(), k) == old(Spec.KillVoices(State(), 0))
      {
        KillVoice(vAlloc[k]);
        k := k + 1;
      }
    }

    // ---- MIDI messages ----

    // __CSPHandleMIDIMsg
    method HandleMidi(status: u8, byte1: u8, byte2: u8, duration: u32, a: Spec.Answer)
      requires Valid() && Spec.HandleMidi(State(), status, byte1, byte2, duration, a).Some?
      modifies `voices, `vAlloc, `vFree, `sustain, evtq.Repr()
      ensures Valid() && Some(State()) == old(Spec.HandleMidi(State(), status, byte1, byte2, duration, a))
    {
      hide EventQueue.Consistent, CSeq.Tracks, CSeq.State, Spec.NoteOn, Spec.EndNote, Spec.ControlChange;
      var chan := status % 0x10;
      var kind := status / 0x10;
      if kind == 0x9 && byte2 != 0 {
        NoteOn(chan, byte1, duration, a);
      } else if kind == 0x9 || kind == 0x8 {
        EndNote(chan, byte1);
      } else if kind == 0xB {
        ControlChange(chan, byte1, byte2);
      }
    }

    method NoteOn(chan: u8, key: u8, duration: u32, a: Spec.Answer)
      requires Valid() && chan < 0x10 && Spec.NoteOn(State(), chan, key, duration, a).Some?
      modifies `voices, `vAlloc, `vFree, evtq.Repr()
      ensures Valid() && Some(State()) == old(Spec.NoteOn(State(), chan, key, duration, a))
    {
      hide EventQueue.Consistent, CSeq.Tracks, CSeq.State, Spec.StartNote;
      if state == Spec.Playing && a.sound.Some? && vFree != [] {
        StartNote(chan, key, duration, a.sound.value, a.tremolo, a.vibrato);
      }
    }

    method StartNote(chan: u8, key: u8, duration: u32, sound: Spec.NoteSound, tremolo: Micros, vibrato: Micros)
      requires Valid() && chan < 0x10 && chan < |sustain| && vFree != []
      requires Spec.StartNote(State(), vFree[0], chan, key, duration, sound, tremolo, vibrato).Some?
      modifies `voices, `vAlloc, `vFree, evtq.Repr()
      ensures Valid()
      ensures Some(State()) == old(Spec.StartNote(State(), vFree[0], chan, key, duration, sound, tremolo, vibrato))
    {
      hide EventQueue.Consistent, CSeq.Tracks, CSeq.State, Spec.Posted, Spec.PostedTicks, Spec.MapVoice;
      var v := vFree[0];
      MapVoice(v, chan, key, sound, Flags(tremolo != 0, vibrato != 0));
      if tremolo != 0 {
        PostEvent(Tremolo(v), tremolo);
      }
      if vibrato != 0 {
        PostEvent(Vibrato(v, chan), vibrato);
      }
      PostEvent(Envelope(v), sound.attackTime);
      if duration != 0 {
        PostTicks(NoteOff(0x80 + chan, key, 0), duration);
      }
    }

    // __mapVoice, and the state of the new voice.
    method MapVoice(v: VoiceId, chan: u8, key: u8, sound: Spec.NoteSound, flags: Flags)
      requires Valid() && chan < |sustain| && vFree != [] && v == vFree[0]
      modifies `voices, `vAlloc, `vFree
      ensures Valid() && State() == old(Spec.MapVoice(State(), v, chan, key, sound, flags))
    {
      hide EventQueue.Consistent, CSeq.Tracks, CSeq.State;
      vFree := vFree[1..];
      vAlloc := vAlloc + [v];
      var phase := if sustain[chan] > Spec.AL_SUSTAIN then Spec.SustainPhase else Spec.NoteOnPhase;
      voices := voices[v := Spec.Voice(chan, key, phase, Spec.Attack, flags, sound.releaseTime)];
    }

    method PostTicks(evt: Event, ticks: nat)
      requires Valid() && Spec.PostedTicks(State(), evt, ticks).Some?
      modifies evtq.Repr()
      ensures Valid() && Some(State()) == old(Spec.PostedTicks(State(), evt, ticks))
    {
      hide EventQueue.Consistent, CSeq.Tracks, CSeq.State, Spec.Posted;
      PostEvent(evt, ticks * uspt);
    }

    method EndNote(chan: u8, key: u8)
      requires Valid()
      modifies `voices, evtq.Repr()
      ensures Valid() && State() == Spec.EndNote(old(State()), chan, key)
    {
      hide EventQueue.Consistent, CSeq.Tracks, CSeq.State, Spec.ReleaseVoice, Spec.LookupVoice;
      var v := LookupVoice(key, chan);
      if v.Some? {
        var vs := VoiceAt(v.value);
        if vs.phase == Spec.SustainPhase {
          SetVoice(v.value, vs.(phase := Spec.SustainReleasePhase));
        } else {
          SetVoice(v.value, vs.(phase := Spec.ReleasePhase));
          ReleaseVoice(v.value, vs.releaseTime);
        }
      }
    }

    method SetVoice(v: VoiceId, vs: Spec.Voice)
      requires Valid()
      modifies `voices
      ensures Valid() && State() == old(State()).With(v, vs)
    {
      hide EventQueue.Consistent, CSeq.Tracks, CSeq.State;
      voices := voices[v := vs];
    }

    method ControlChange(chan: u8, control: u8, value: u8)
      requires Valid() && Spec.ControlChange(State(), chan, control, value).Some?
      modifies `voices, `sustain, evtq.Repr()
      ensures Valid() && Some(State()) == old(Spec.ControlChange(State(), chan, control, value))
    {
      hide EventQueue.Consistent, CSeq.Tracks, CSeq.State, Spec.Pedal;
      if control == Spec.AL_MIDI_SUSTAIN_CTRL {
        SetSustain(sustain[chan := value]);
        Pedal(chan, value > Spec.AL_SUSTAIN);
      }
    }

    method SetSustain(pedals: seq<u8>)
      requires Valid()
      modifies `sustain
      ensures Valid() && State() == old(State()).(sustain := pedals)
    {
      hide EventQueue.Consistent, CSeq.Tracks, CSeq.State;
      sustain := pedals;
    }

    method Pedal(chan: u8, down: bool)
      requires Valid()
      modifies `voices, evtq.Repr()
      ensures Valid() && State() == Spec.Pedal(old(State()), chan, down, 0)
    {
      hide EventQueue.Consistent, CSeq.Tracks, CSeq.State, Spec.PedalVoice;
      var k := 0;
      while k < |vAlloc|
        invariant Valid() && k <= |vAlloc|
        invariant Spec.Pedal(State(), chan, down, k) == old(Spec.Pedal(State(), chan, down, 0))
      {
        var vs := VoiceAt(vAlloc[k]);
        if vs.channel == chan {
          PedalVoice(vAlloc[k], down);
        }
        k := k + 1;
      }
    }

    method PedalVoice(v: VoiceId, down: bool)
      requires Valid()
      modifies `voices, evtq.Repr()
      ensures Valid() && State() == Spec.PedalVoice(old(State()), v, down)
    {
      hide EventQueue.Consistent, CSeq.Tracks, CSeq.State, Spec.ReleaseVoice;
      var vs := VoiceAt(v);
      if down {
        if vs.phase == Spec.NoteOnPhase {
          SetVoice(v, vs.(phase := Spec.SustainPhase));
        }
      } else if vs.phase == Spec.SustainPhase {
        SetVoice(v, vs.(phase := Spec.NoteOnPhase));
      } else if vs.phase == Spec.SustainReleasePhase {
        SetVoice(v, vs.(phase := Spec.ReleasePhase));
        ReleaseVoice(v, vs.releaseTime);
      }
    }

    // ---- tempo ----

    // __CSPHandleMetaMsg
    method HandleMeta(status: u8, kind: u8, a: Spec.Answer)
      requires Valid() && Spec.HandleMeta(State(), status, kind, a).Some?
      modifies `uspt, evtq.Repr()
      ensures Valid() && Some(State()) == old(Spec.HandleMeta(State(), status, kind, a))
    {
      hide EventQueue.Consistent, CSeq.Tracks, CSeq.State, Spec.SetTempo;
      if status == TrackReader.META && kind == TrackReader.META_TEMPO {
        SetTempo(if target != null then a.uspt else Spec.DEFAULT_USPT);
      }
    }

    method SetTempo(newUspt: Micros)
      requires Valid() && Spec.SetTempo(State(), newUspt).Some?
      modifies `uspt, evtq.Repr()
      ensures Valid() && Some(State()) == old(Spec.SetTempo(State(), newUspt))
    {
      hide EventQueue.Consistent, CSeq.Tracks, CSeq.State, Retime, NoteOffs, Rescale;
      evtq.FreeItems();
      RetimeConserves(evtq.contents, Rescale(uspt, newUspt));
      var oldUspt := uspt;
      uspt := newUspt;
      evtq.RetimeNoteOffs(oldUspt, newUspt);
    }

    // ---- the sequence ----

    ghost function TargetRepr(): set<object>
      reads this
    {
      if target == null then {} else target.Repr()
    }

    // __CSPPostNextSeqEvent
    method PostNextSeqEvent()
      requires Valid() && Spec.PostNextSeqEvent(State()).Some?
      modifies evtq.Repr(), TargetRepr()
      ensures Valid() && Some(State()) == old(Spec.PostNextSeqEvent(State()))
    {
      hide EventQueue.Consistent, CSeq.Tracks, CSeq.State, Spec.PostedTicks, Sequencer.NextDelta;
      if state == Spec.Playing && target != null {
        var found, deltaTicks := AskNextDelta();
        if found {
          PostTicks(SeqRef, deltaTicks);
        }
      }
    }

    method AskNextDelta() returns (found: bool, deltaTicks: u32)
      requires Valid() && target != null
      modifies TargetRepr()
      ensures Valid() && State() == old(State().(target := Some(Sequencer.NextDelta(State().target.value).0)))
      ensures var d := old(Sequencer.NextDelta(State().target.value).1);
        found == d.Some? && (found ==> deltaTicks == d.value)
    {
      hide EventQueue.Consistent, CSeq.Tracks, CSeq.State, Sequencer.NextDelta;
      found, deltaTicks := target.NextDelta();
    }

    method ReadNextEvent() returns (evt: Event)
      requires Valid() && target != null && Sequencer.NextEvent(State().target.value).Some?
      modifies TargetRepr()
      ensures Valid()
      ensures var r := old(Sequencer.NextEvent(State().target.value)).value;
        State() == old(State()).(target := Some(r.next)) && evt == r.event
    {
      hide EventQueue.Consistent, CSeq.Tracks, CSeq.State, Sequencer.NextEvent;
      evt := target.NextEvent();
    }

    // __CSPHandleNextSeqEvent
    method HandleNextSeqEvent(a: Spec.Answer)
      requires Valid() && Spec.HandleNextSeqEvent(State(), a).Some?
      modifies `voices, `vAlloc, `vFree, `sustain, `uspt, `state, evtq.Repr(), TargetRepr()
      ensures Valid() && Some(State()) == old(Spec.HandleNextSeqEvent(State(), a))
    {
      hide EventQueue.Consistent, CSeq.Tracks, CSeq.State, Spec.HandleSeqEvent, Sequencer.NextEvent;
      if target != null {
        var evt := ReadNextEvent();
        HandleSeqEvent(evt, a);
      }
    }

    method HandleSeqEvent(evt: Event, a: Spec.Answer)
      requires Valid() && Spec.HandleSeqEvent(State(), evt, a).Some?
      modifies `voices, `vAlloc, `vFree, `sustain, `uspt, `state, evtq.Repr(), TargetRepr()
      ensures Valid() && Some(State()) == old(Spec.HandleSeqEvent(State(), evt, a))
    {
      hide EventQueue.Consistent, CSeq.Tracks, CSeq.State, Spec.HandleMidi, Spec.HandleMeta, Spec.PostNextSeqEvent;
      hide Spec.Posted;
      match evt
      case SeqMidi(status, byte1, byte2, duration, _) =>
        HandleMidi(status, byte1, byte2, duration, a);
        PostNextSeqEvent();
      case Tempo(status, kind, _, _, _, _) =>
        HandleMeta(status, kind, a);
        PostNextSeqEvent();
      case SeqEnd(_) =>
        SetState(Spec.Stopping);
        PostEvent(StopEvent, AL_EVTQ_END);
      case _ => PostNextSeqEvent();
    }

    method SetState(s: Spec.PlayState)
      requires Valid()
      modifies `state
      ensures Valid() && State() == old(State()).(state := s)
    {
      hide EventQueue.Consistent, CSeq.Tracks, CSeq.State;
      state := s;
    }

    // ---- the voice handler ----

    lemma Shows()
      requires Valid()
      ensures State().next == nextEvent && State().state == state
    {
    }

    // The switch of __CSPVoiceHandler; `passed` is the sequence that an AL_SEQP_SEQ_EVT holds.
    method Dispatch(a: Spec.Answer, passed: CSeq?)
      requires Valid() && Spec.Dispatch(State(), a).Some?
      requires passed != null ==> passed.Valid()
      requires a.sequence == if passed == null then None else Some(passed.State())
      modifies `voices, `vAlloc, `vFree, `sustain, `uspt, `state, `target, `hasBank, evtq.Repr(), TargetRepr()
      ensures Valid() && Some(State()) == old(Spec.Dispatch(State(), a))
    {
      hide EventQueue.Consistent, CSeq.Tracks, CSeq.State, Spec.HandleMidi, Spec.HandleMeta, Spec.PostNextSeqEvent;
      hide Spec.Posted;
      hide Spec.HandleNextSeqEvent, Spec.StopVoice, Spec.StopVoices, Spec.BeginStopping, Spec.ResetChannels;
      hide State, Valid;
      Shows();
      match nextEvent
      case SeqRef => HandleNextSeqEvent(a);
      case Api => PostEvent(Api, Spec.AL_USEC_PER_FRAME);
      case NoteEnd(v) => StopVoice(v);
      case Envelope(v) => StartDecay(v);
      case Tremolo(v) => PostEvent(Tremolo(v), a.tremolo);
      case Vibrato(v, chan) => PostEvent(Vibrato(v, chan), a.vibrato);
      case Midi(status, byte1, byte2) => HandleMidi(status, byte1, byte2, 0, a);
      case NoteOff(status, byte1, byte2) => HandleMidi(status, byte1, byte2, 0, a);
      case Meta(status, kind, _, _, _) => HandleMeta(status, kind, a);
      case PlayEvent => StartPlaying();
      case StopEvent => EndStopping();
      case StoppingEvent =>
        if state == Spec.Playing {
          BeginStopping();
        }
      case SetSeq => SetSequence(a, passed);
      case SetBank =>
        SetHasBank();
        ResetChannels();
      case _ =>
    }

    method StartDecay(v: VoiceId)
      requires Valid()
      modifies `voices
      ensures Valid()
      ensures State() == old(var p := State(); var s := p.VoiceAt(v);
        if s.envPhase == Spec.Attack then p.With(v, s.(envPhase := Spec.Decay)) else p)
    {
      hide EventQueue.Consistent, CSeq.Tracks, CSeq.State;
      var vs := VoiceAt(v);
      if vs.envPhase == Spec.Attack {
        SetVoice(v, vs.(envPhase := Spec.Decay));
      }
    }

    // AL_SEQP_PLAY_EVT
    method StartPlaying()
      requires Valid()
      requires State().state != Spec.Playing ==> Spec.PostNextSeqEvent(State().(state := Spec.Playing)).Some?
      modifies `state, evtq.Repr(), TargetRepr()
      ensures Valid()
      ensures State() == old(var p := State();
        if p.state != Spec.Playing then Spec.PostNextSeqEvent(p.(state := Spec.Playing)).value else p)
    {
      hide EventQueue.Consistent, CSeq.Tracks, CSeq.State, Spec.PostNextSeqEvent;
      if state != Spec.Playing {
        SetState(Spec.Playing);
        PostNextSeqEvent();
      }
    }

    // AL_SEQP_STOP_EVT
    method EndStopping()
      requires Valid()
      modifies `voices, `vAlloc, `vFree, `state, evtq.Repr()
      ensures Valid()
      ensures State() == old(var p := State();
        if p.state == Spec.Stopping then Spec.StopVoices(p).(state := Spec.Stopped) else p)
    {
      hide EventQueue.Consistent, CSeq.Tracks, CSeq.State, Spec.StopVoices;
      if state == Spec.Stopping {
        StopVoices();
        SetState(Spec.Stopped);
      }
    }

    // AL_SEQP_STOPPING_EVT
    method BeginStopping()
      requires Valid()
      modifies `voices, `state, evtq.Repr()
      ensures Valid() && State() == Spec.BeginStopping(old(State()))
    {
      hide EventQueue.Consistent, CSeq.Tracks, CSeq.State, Spec.Flushed, Spec.KillVoices, Spec.Posted;
      FlushType(SeqRefType);
      FlushType(NoteOffType);
      FlushType(SeqpMidiType);
      KillVoices();
      SetState(Spec.Stopping);
      PostEvent(StopEvent, AL_EVTQ_END);
    }

    // alEvtqFlushType
    method FlushType(tag: EventType)
      requires Valid()
      modifies evtq.Repr()
      ensures Valid() && State() == Spec.Flushed(old(State()), tag)
    {
      hide EventQueue.Consistent, CSeq.Tracks, CSeq.State, Remove, HasType;
      evtq.FreeItems();
      TotalRemove(evtq.contents, HasType(tag), 0);
      evtq.FlushType(tag);
    }

    // AL_SEQP_SEQ_EVT
    method SetSequence(a: Spec.Answer, passed: CSeq?)
      requires Valid() && (passed != null ==> passed.Valid())
      requires a.sequence == if passed == null then None else Some(passed.State())
      modifies `target, `uspt, `sustain
      ensures Valid()
      ensures State() == old(var p1 := State().(target := a.sequence, uspt := Spec.UsptFromTempo(a.sequence, a));
        if p1.hasBank then Spec.ResetChannels(p1) else p1)
    {
      hide EventQueue.Consistent, CSeq.Tracks, CSeq.State;
      target := passed;
      uspt := if target != null then a.uspt else Spec.DEFAULT_USPT;
      if hasBank {
        ResetChannels();
      }
    }

    method SetHasBank()
      requires Valid()
      modifies `hasBank
      ensures Valid() && State() == old(State()).(hasBank := true)
    {
      hide EventQueue.Consistent, CSeq.Tracks, CSeq.State;
      hasBank := true;
    }

    // __initFromBank
    method ResetChannels()
      requires Valid()
      modifies `sustain
      ensures Valid() && State() == Spec.ResetChannels(old(State()))
    {
      hide EventQueue.Consistent, CSeq.Tracks, CSeq.State;
      sustain := seq(|sustain|, _ => 0);
    }

    // One iteration of the loop of __CSPVoiceHandler, which ends when `nextDelta` is not 0.
    method Iterate(a: Spec.Answer, passed: CSeq?)
      requires Valid() && Spec.Step(State(), a).Some?
      requires passed != null ==> passed.Valid()
      requires a.sequence == if passed == null then None else Some(passed.State())
      modifies `voices, `vAlloc, `vFree, `sustain, `uspt, `state, `target, `hasBank, `nextEvent, `nextDelta, `curTime
      modifies evtq.Repr(), TargetRepr()
      ensures Valid() && Some(State()) == old(Spec.Step(State(), a)) && nextDelta == curTime - old(curTime)
    {
      hide EventQueue.Consistent, CSeq.Tracks, CSeq.State, Spec.Dispatch, Spec.Advance;
      DispatchKeepsTime(State(), a);
      Dispatch(a, passed);
      Advance();
    }

    lemma DispatchKeepsTime(p: Spec.Player, a: Spec.Answer)
      requires Spec.Dispatch(p, a).Some? && Fits(p.queue)
      ensures Spec.Dispatch(p, a).value.now == p.now
    {
      OnTime.DispatchFits(p, a);
    }

    // alEvtqNextEvent, and the clock.
    method Advance()
      requires Valid() && Spec.Advance(State()).Some?
      modifies `nextEvent, `nextDelta, `curTime, evtq.Repr()
      ensures Valid() && Some(State()) == old(Spec.Advance(State())) && nextDelta == curTime - old(curTime)
    {
      hide EventQueue.Consistent, CSeq.Tracks, CSeq.State, Fits;
      var evt, delta := TakeEvent();
      SetNext(evt, delta);
    }

    method SetNext(evt: Event, delta: s32)
      requires Valid() && 0 <= curTime + delta < S32_LIMIT
      modifies `nextEvent, `nextDelta, `curTime
      ensures Valid() && State() == old(State()).(next := evt, now := old(curTime) + delta) && nextDelta == delta
    {
      hide EventQueue.Consistent, CSeq.Tracks, CSeq.State, Fits;
      nextEvent, nextDelta, curTime := evt, delta, curTime + delta;
    }

    method TakeEvent() returns (evt: Event, delta: s32)
      requires Valid()
      modifies evtq.Repr()
      ensures Valid()
      ensures var p := old(State());
        if p.queue == [] then State() == p && evt == Empty && delta == 0
        else (State(), evt, delta) == (p.(queue := p.queue[1..], free := p.free + 1), p.queue[0].evt, p.queue[0].delta)
    {
      hide EventQueue.Consistent, CSeq.Tracks, CSeq.State, Fits;
      evtq.FreeItems();
      if evtq.contents != [] {
        OnTime.FirstFits(evtq.contents);
      }
      evt, delta := evtq.NextEvent();
    }

    // ---- the application's calls ----

    // alCSPPlay
    method Play()
      requires Valid()
      modifies evtq.Repr()
      ensures Valid() && Some(State()) == old(Spec.Called(State(), Spec.PlayCall))
    {
      hide EventQueue.Consistent, CSeq.Tracks, CSeq.State, Spec.Posted;
      PostEvent(PlayEvent, 0);
    }

    // alCSPStop
    method Stop()
      requires Valid()
      modifies evtq.Repr()
      ensures Valid() && Some(State()) == old(Spec.Called(State(), Spec.StopCall))
    {
      hide EventQueue.Consistent, CSeq.Tracks, CSeq.State, Spec.Posted;
      PostEvent(StoppingEvent, 0);
    }

    // alCSPSendMidi
    method SendMidi(ticks: nat, status: u8, byte1: u8, byte2: u8)
      requires Valid() && Spec.Called(State(), Spec.SendMidiCall(ticks, status, byte1, byte2)).Some?
      modifies evtq.Repr()
      ensures Valid() && Some(State()) == old(Spec.Called(State(), Spec.SendMidiCall(ticks, status, byte1, byte2)))
    {
      hide EventQueue.Consistent, CSeq.Tracks, CSeq.State, Spec.PostedTicks;
      PostTicks(Midi(status, byte1, byte2), ticks);
    }

    // alCSPSetTempo
    method ChangeTempo(tempo: s32)
      requires Valid()
      modifies evtq.Repr()
      ensures Valid() && Some(State()) == old(Spec.Called(State(), Spec.SetTempoCall(tempo)))
    {
      hide EventQueue.Consistent, CSeq.Tracks, CSeq.State, Spec.Posted, Spec.TempoMessage;
      PostEvent(Spec.TempoMessage(tempo), 0);
    }

    // alCSPSetSeq; the sequence itself comes with the event when it is handled.
    method SetSeq()
      requires Valid()
      modifies evtq.Repr()
      ensures Valid() && Some(State()) == old(Spec.Called(State(), Spec.SetSeqCall))
    {
      hide EventQueue.Consistent, CSeq.Tracks, CSeq.State, Spec.Posted;
      PostEvent(Event.SetSeq, 0);
    }

    // alCSPSetBank
    method SetBank()
      requires Valid()
      modifies evtq.Repr()
      ensures Valid() && Some(State()) == old(Spec.Called(State(), Spec.SetBankCall))
    {
      hide EventQueue.Consistent, CSeq.Tracks, CSeq.State, Spec.Posted;
      PostEvent(Event.SetBank, 0);
    }

    // alCSPSetVol
    method SetVol(vol: int)
      requires Valid()
      modifies evtq.Repr()
      ensures Valid() && Some(State()) == old(Spec.Called(State(), Spec.SetVolCall(vol)))
    {
      hide EventQueue.Consistent, CSeq.Tracks, CSeq.State, Spec.Posted;
      PostEvent(Volume(vol), 0);
    }

    // alCSPSetChlPriority
    method SetChlPriority(channel: u8, priority: u8)
      requires Valid()
      modifies evtq.Repr()
      ensures Valid() && Some(State()) == old(Spec.Called(State(), Spec.SetPriorityCall(channel, priority)))
    {
      hide EventQueue.Consistent, CSeq.Tracks, CSeq.State, Spec.Posted;
      PostEvent(Priority(channel, priority), 0);
    }
  }
}
