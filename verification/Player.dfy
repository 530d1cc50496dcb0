// src/audio/csplayer.c on values: the compact sequence player, a state machine that takes one
// event after the other from its queue. A function yields None where the C code runs into an
// assertion, reads a sequence that cannot be read, or leaves the range of its integers.
module Player {
  import opened Machine
  import opened AudioEvents
  import opened DeltaList
  import opened Retiming
  import opened VoiceEvents
  import opened TrackReader
  import opened Sequencer

  const AL_USEC_PER_FRAME: Micros := 16000
  const KILL_TIME: Micros := 50000
  const DEFAULT_USPT: Micros := 488
  const AL_SUSTAIN := 63
  const AL_MIDI_SUSTAIN_CTRL := 64

  // AL_STOPPED, AL_PLAYING, AL_STOPPING
  datatype PlayState = Stopped | Playing | Stopping

  // The AL_PHASE constants of a note and of its envelope.
  datatype Phase = NoteOnPhase | SustainPhase | SustainReleasePhase | ReleasePhase
  datatype EnvelopePhase = Attack | Decay | Release

  // ALVoiceState, with the release time of its sound.
  datatype Voice = Voice(
    channel: u8, key: u8, phase: Phase, envPhase: EnvelopePhase, flags: Flags, releaseTime: Micros)

  const UNUSED_VOICE := Voice(0, 0, NoteOnPhase, Attack, Flags(false, false), 0)

  // ALCSPlayer. `queue` and `free` are the event queue, `target` the sequence, `sustain` the
  // sustain pedals of the channels, `alloc` and `idle` the two lists of voices.
  datatype Player = Player(
    queue: seq<Entry>, free: nat, next: Event, now: Micros, uspt: Micros, state: PlayState,
    target: Option<Standing>, hasBank: bool, sustain: seq<u8>,
    alloc: seq<VoiceId>, idle: seq<VoiceId>, voices: map<VoiceId, Voice>)
  {
    function VoiceAt(v: VoiceId): Voice {
      if v in voices then voices[v] else UNUSED_VOICE
    }

    function With(v: VoiceId, s: Voice): Player {
      this.(voices := voices[v := s])
    }

    // The queue after items were taken out of it.
    function Edited(q: seq<Entry>): Player
      requires |q| <= |queue|
    {
      this.(queue := q, free := free + |queue| - |q|)
    }
  }

  // What the surroundings answer while one event is handled: the sound of a note, the delays
  // its oscillators ask for (0 for none), the microseconds per tick of a tempo, the sequence
  // that the application passed.
  datatype NoteSound = NoteSound(attackTime: Micros, releaseTime: Micros)
  datatype Answer = Answer(
    sound: Option<NoteSound>, tremolo: Micros, vibrato: Micros, uspt: Micros, sequence: Option<Standing>)

  // alCSPNew
  function NewPlayer(voices: nat, events: nat, channels: nat): Player {
    Player([], events, Api, 0, DEFAULT_USPT, Stopped, None, false, seq(channels, _ => 0), [], Descending(voices), map[])
  }

  function Descending(n: nat): seq<VoiceId> {
    if n == 0 then [] else [n - 1] + Descending(n - 1)
  }

  // ---- posting ----

  // alEvtqPostEvent
  function Posted(p: Player, evt: Event, delay: Micros): Player {
    if p.free == 0 then p else p.(queue := Post(p.queue, evt, delay), free := p.free - 1)
  }

  function PostedTicks(p: Player, evt: Event, ticks: nat): Option<Player> {
    if ticks * p.uspt < S32_LIMIT then Some(Posted(p, evt, ticks * p.uspt)) else None
  }

  // __CSPPostNextSeqEvent
  function PostNextSeqEvent(p: Player): Option<Player> {
    if p.state != Playing || p.target.None? then Some(p)
    else
      var (s, ticks) := NextDelta(p.target.value);
      var p1 := p.(target := Some(s));
      if ticks.None? then Some(p1) else PostedTicks(p1, SeqRef, ticks.value)
  }

  // ---- voices ----

  function Without(s: seq<VoiceId>, v: VoiceId): (r: seq<VoiceId>)
    requires v in s
    ensures |r| == |s| - 1
  {
    if s[0] == v then s[1..] else [s[0]] + Without(s[1..], v)
  }

  // __unmapVoice
  function UnmapVoice(p: Player, v: VoiceId): Player {
    if v in p.alloc then p.(alloc := Without(p.alloc, v), idle := [v] + p.idle) else p
  }

  // __lookupVoice
  function LookupVoice(p: Player, among: seq<VoiceId>, key: u8, channel: u8): Option<VoiceId> {
    if among == [] then None
    else
      var s := p.VoiceAt(among[0]);
      if s.key == key && s.channel == channel && s.phase != ReleasePhase && s.phase != SustainReleasePhase
      then Some(among[0])
      else LookupVoice(p, among[1..], key, channel)
  }

  // __seqpStopOsc, if the voice has a flag set
  function StopOscillators(p: Player, v: VoiceId): Player {
    var flags := p.VoiceAt(v).flags;
    if flags.Any() then
      var (q, left) := StopOsc(p.queue, v, flags, 0);
      p.Edited(q).With(v, p.VoiceAt(v).(flags := left))
    else p
  }

  // __seqpReleaseVoice
  function ReleaseVoice(p: Player, v: VoiceId, delay: Micros): Player {
    Posted(Faded(p, v), NoteEnd(v), delay)
  }

  // A voice still in its attack has its envelope events taken out.
  function Faded(p: Player, v: VoiceId): Player {
    var p1 := if p.VoiceAt(v).envPhase == Attack then p.Edited(Remove(p.queue, EnvelopesOf(v), 0)) else p;
    p1.With(v, p.VoiceAt(v).(envPhase := Release))
  }

  // A voice that stops at once.
  function StopVoice(p: Player, v: VoiceId): Player {
    UnmapVoice(StopOscillators(p, v), v)
  }

  // The loop of AL_SEQP_STOP_EVT.
  function StopVoices(p: Player): Player
    decreases |p.alloc|
  {
    if p.alloc == [] then p else StopVoices(StopVoice(p, p.alloc[0]))
  }

  // The loop of AL_SEQP_STOPPING_EVT over the voices from the k-th.
  function KillVoices(p: Player, k: nat): Player
    decreases |p.alloc| - k
  {
    if k >= |p.alloc| then p else KillVoices(KillVoice(p, p.alloc[k]), k + 1)
  }

  function KillVoice(p: Player, v: VoiceId): Player {
    var (needsKill, q) := NeedsNoteKill(p.queue, v, KILL_TIME);
    var p1 := p.Edited(q);
    if needsKill then ReleaseVoice(p1, v, KILL_TIME) else p1
  }

  // ---- MIDI messages ----

  // __CSPHandleMIDIMsg
  function HandleMidi(p: Player, status: u8, byte1: u8, byte2: u8, duration: u32, a: Answer): Option<Player> {
    var chan := status % 0x10;
    var kind := status / 0x10;
    if kind == 0x9 && byte2 != 0 then NoteOn(p, chan, byte1, duration, a)
    else if kind == 0x9 || kind == 0x8 then Some(EndNote(p, chan, byte1))
    else if kind == 0xB then ControlChange(p, chan, byte1, byte2)
    else if kind == 0xC then if p.hasBank && chan < |p.sustain| then Some(p) else None
    else if kind == 0xE then if chan < |p.sustain| then Some(p) else None
    // The pressures change the loudness only, and other messages nothing.
    else Some(p)
  }

  function NoteOn(p: Player, chan: u8, key: u8, duration: u32, a: Answer): Option<Player>
    requires chan < 0x10
  {
    if p.state != Playing then Some(p)
    else if chan >= |p.sustain| then None
    else if a.sound.None? || p.idle == [] then Some(p)
    else StartNote(p, p.idle[0], chan, key, duration, a.sound.value, a.tremolo, a.vibrato)
  }

  // __mapVoice, and the state of the new voice
  function MapVoice(p: Player, v: VoiceId, chan: u8, key: u8, sound: NoteSound, flags: Flags): Player
    requires chan < |p.sustain| && p.idle != []
  {
    var phase := if p.sustain[chan] > AL_SUSTAIN then SustainPhase else NoteOnPhase;
    p.(alloc := p.alloc + [v], idle := p.idle[1..]).With(v, Voice(chan, key, phase, Attack, flags, sound.releaseTime))
  }

  function StartNote(
    p: Player, v: VoiceId, chan: u8, key: u8, duration: u32, sound: NoteSound, tremolo: Micros, vibrato: Micros)
    : Option<Player>
    requires chan < |p.sustain| && chan < 0x10 && p.idle != []
  {
    var p1 := MapVoice(p, v, chan, key, sound, Flags(tremolo != 0, vibrato != 0));
    var p2 := if tremolo != 0 then Posted(p1, Tremolo(v), tremolo) else p1;
    var p3 := if vibrato != 0 then Posted(p2, Vibrato(v, chan), vibrato) else p2;
    var p4 := Posted(p3, Envelope(v), sound.attackTime);
    if duration != 0 then PostedTicks(p4, NoteOff(0x80 + chan, key, 0), duration) else Some(p4)
  }

  // A note-off, or a note-on without velocity.
  function EndNote(p: Player, chan: u8, key: u8): Player {
    var v := LookupVoice(p, p.alloc, key, chan);
    if v.None? then p
    else
      var s := p.VoiceAt(v.value);
      if s.phase == SustainPhase then p.With(v.value, s.(phase := SustainReleasePhase))
      else ReleaseVoice(p.With(v.value, s.(phase := ReleasePhase)), v.value, s.releaseTime)
  }

  function ControlChange(p: Player, chan: u8, control: u8, value: u8): Option<Player> {
    if control == AL_MIDI_SUSTAIN_CTRL then
      if chan < |p.sustain| then Some(Pedal(p.(sustain := p.sustain[chan := value]), chan, value > AL_SUSTAIN, 0))
      else None
    else if control in {7, 10, 16, 91} && chan >= |p.sustain| then None
    else Some(p)
  }

  // The sustain pedal of a channel goes down or up: the voices from the k-th.
  function Pedal(p: Player, chan: u8, down: bool, k: nat): Player
    decreases |p.alloc| - k
  {
    if k >= |p.alloc| then p
    else Pedal(if p.VoiceAt(p.alloc[k]).channel == chan then PedalVoice(p, p.alloc[k], down) else p, chan, down, k + 1)
  }

  function PedalVoice(p: Player, v: VoiceId, down: bool): Player {
    var s := p.VoiceAt(v);
    if down && s.phase == NoteOnPhase then p.With(v, s.(phase := SustainPhase))
    else if !down && s.phase == SustainPhase then p.With(v, s.(phase := NoteOnPhase))
    else if !down && s.phase == SustainReleasePhase then
      ReleaseVoice(p.With(v, s.(phase := ReleasePhase)), v, s.releaseTime)
    else p
  }

  // ---- tempo ----

  // __setUsptFromTempo
  function UsptFromTempo(target: Option<Standing>, a: Answer): Micros {
    if target.Some? then a.uspt else DEFAULT_USPT
  }

  // __CSPHandleMetaMsg
  function HandleMeta(p: Player, status: u8, kind: u8, a: Answer): Option<Player> {
    if status == META && kind == META_TEMPO then SetTempo(p, UsptFromTempo(p.target, a)) else Some(p)
  }

  function SetTempo(p: Player, uspt: Micros): Option<Player> {
    if p.uspt == 0 then None
    else if forall x <- NoteOffs(p.queue, 0) :: Rescale(p.uspt, uspt)(x.delta) < S32_LIMIT then
      Some(p.(queue := Retime(p.queue, Rescale(p.uspt, uspt)), uspt := uspt))
    else None
  }

  // ---- the sequence ----

  // __CSPHandleNextSeqEvent
  function HandleNextSeqEvent(p: Player, a: Answer): Option<Player> {
    if p.target.None? then Some(p)
    else
      var r :- NextEvent(p.target.value);
      HandleSeqEvent(p.(target := Some(r.next)), r.event, a)
  }

  function HandleSeqEvent(p: Player, evt: Event, a: Answer): Option<Player> {
    match evt
    case SeqMidi(status, byte1, byte2, duration, _) =>
      var p1 :- HandleMidi(p, status, byte1, byte2, duration, a);
      PostNextSeqEvent(p1)
    case Tempo(status, kind, _, _, _, _) =>
      var p1 :- HandleMeta(p, status, kind, a);
      PostNextSeqEvent(p1)
    case SeqEnd(_) => Some(Posted(p.(state := Stopping), StopEvent, AL_EVTQ_END))
    case _ => PostNextSeqEvent(p)
  }

  // ---- the voice handler ----

  // The switch of __CSPVoiceHandler.
  function Dispatch(p: Player, a: Answer): Option<Player> {
    match p.next
    case SeqRef => HandleNextSeqEvent(p, a)
    case Api => Some(Posted(p, Api, AL_USEC_PER_FRAME))
    case NoteEnd(v) => Some(StopVoice(p, v))
    case Envelope(v) =>
      var s := p.VoiceAt(v);
      Some(if s.envPhase == Attack then p.With(v, s.(envPhase := Decay)) else p)
    case Tremolo(v) => Some(Posted(p, Tremolo(v), a.tremolo))
    case Vibrato(v, chan) => if chan < |p.sustain| then Some(Posted(p, Vibrato(v, chan), a.vibrato)) else None
    case Midi(status, byte1, byte2) => HandleMidi(p, status, byte1, byte2, 0, a)
    case NoteOff(status, byte1, byte2) => HandleMidi(p, status, byte1, byte2, 0, a)
    case Meta(status, kind, _, _, _) => HandleMeta(p, status, kind, a)
    case PlayEvent => if p.state != Playing then PostNextSeqEvent(p.(state := Playing)) else Some(p)
    case StopEvent => Some(if p.state == Stopping then StopVoices(p).(state := Stopped) else p)
    case StoppingEvent => Some(if p.state == Playing then BeginStopping(p) else p)
    case Volume(_) => Some(p)
    case Priority(chan, _) => if chan < |p.sustain| then Some(p) else None
    case SetSeq =>
      if p.state == Playing then None
      else
        var p1 := p.(target := a.sequence, uspt := UsptFromTempo(a.sequence, a));
        Some(if p.hasBank then ResetChannels(p1) else p1)
    case SetBank => if p.state == Stopped then Some(ResetChannels(p.(hasBank := true))) else None
    case SeqEnd(_) => None
    case Tempo(_, _, _, _, _, _) => None
    case SeqMidi(_, _, _, _, _) => None
    case _ => Some(p)
  }

  // AL_SEQP_STOPPING_EVT: what belongs to the sequence is flushed, the voices are released,
  // and the stop comes last.
  function BeginStopping(p: Player): Player {
    var p1 := Flushed(Flushed(Flushed(p, SeqRefType), NoteOffType), SeqpMidiType);
    Posted(KillVoices(p1, 0).(state := Stopping), StopEvent, AL_EVTQ_END)
  }

  // alEvtqFlushType
  function Flushed(p: Player, tag: EventType): Player {
    p.Edited(Remove(p.queue, HasType(tag), 0))
  }

  // __initFromBank, as far as the pedals go
  function ResetChannels(p: Player): Player {
    p.(sustain := seq(|p.sustain|, _ => 0))
  }

  // alEvtqNextEvent, and the clock.
  function Advance(p: Player): Option<Player> {
    if p.queue == [] then Some(p.(next := Empty))
    else if p.now + p.queue[0].delta < S32_LIMIT then
      Some(p.(queue := p.queue[1..], free := p.free + 1, next := p.queue[0].evt, now := p.now + p.queue[0].delta))
    else None
  }

  // One iteration of the loop of __CSPVoiceHandler.
  function Step(p: Player, a: Answer): Option<Player> {
    var p1 :- Dispatch(p, a);
    Advance(p1)
  }

  // ---- what the application may do meanwhile ----

  // alCSPPlay, alCSPStop, alCSPSendMidi, alCSPSetTempo, alCSPSetSeq, alCSPSetBank, alCSPSetVol
  // and alCSPSetChlPriority.
  datatype Call =
    | PlayCall
    | StopCall
    | SendMidiCall(ticks: nat, status: u8, byte1: u8, byte2: u8)
    | SetTempoCall(tempo: s32)
    | SetSeqCall
    | SetBankCall
    | SetVolCall(vol: int)
    | SetPriorityCall(channel: u8, priority: u8)

  function Called(p: Player, c: Call): Option<Player> {
    match c
    case PlayCall => Some(Posted(p, PlayEvent, 0))
    case StopCall => Some(Posted(p, StoppingEvent, 0))
    case SendMidiCall(ticks, status, byte1, byte2) => PostedTicks(p, Midi(status, byte1, byte2), ticks)
    case SetTempoCall(tempo) => Some(Posted(p, TempoMessage(tempo), 0))
    case SetSeqCall => Some(Posted(p, SetSeq, 0))
    case SetBankCall => Some(Posted(p, SetBank, 0))
    case SetVolCall(vol) => Some(Posted(p, Volume(vol), 0))
    case SetPriorityCall(channel, priority) => Some(Posted(p, Priority(channel, priority), 0))
  }

  function TempoMessage(tempo: s32): Event {
    Meta(META, META_TEMPO, tempo / 0x10000 % 0x100, tempo / 0x100 % 0x100, tempo % 0x100)
  }

  // A run interleaves iterations of the handler with calls.
  datatype Act = Iterate(answer: Answer) | Calls(call: Call)

  function Do(p: Player, act: Act): Option<Player> {
    match act
    case Iterate(a) => Step(p, a)
    case Calls(c) => Called(p, c)
  }

  function RunPlayer(p: Player, acts: seq<Act>): Option<Player>
    decreases |acts|
  {
    if acts == [] then Some(p)
    else
      var before :- RunPlayer(p, acts[..|acts| - 1]);
      Do(before, acts[|acts| - 1])
  }
}
