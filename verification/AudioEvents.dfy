// The events of the audio library (include/PR/libaudio.h), one constructor for each type
// that the compact sequence player posts or dispatches.
module AudioEvents {
  import opened Machine

  type VoiceId = nat

  // The type tags (enum ALMsg).
  datatype EventType =
    | SeqRefType | SeqMidiType | SeqpMidiType | TempoType | SeqEndType | NoteEndType | EnvType | MetaType
    | ApiType | VolumeType | PriorityType | SetSeqType | SetBankType | PlayType | StopType | StoppingType
    | TrackEndType | LoopStartType | LoopEndType | NoteOffType | TremoloType | VibratoType | EmptyType

  datatype Event =
    // From the sequence reader.
    | SeqRef
    | SeqMidi(status: u8, byte1: u8, byte2: u8, duration: u32, ticks: u32)
    | Tempo(metaStatus: u8, metaType: u8, tempo1: u8, tempo2: u8, tempo3: u8, ticks: u32)
    | TrackEnd(ticks: u32)
    | LoopStart(ticks: u32)
    | LoopEnd(ticks: u32)
    | SeqEnd(ticks: u32)
    // Posted by the player itself.
    | NoteOff(status: u8, byte1: u8, byte2: u8)
    | NoteEnd(voice: VoiceId)
    | Envelope(voice: VoiceId)
    | Tremolo(voice: VoiceId)
    | Vibrato(voice: VoiceId, channel: u8)
    | Api
    | StopEvent
    // Posted by the application.
    | PlayEvent
    | StoppingEvent
    | Midi(status: u8, byte1: u8, byte2: u8)
    | Meta(metaStatus: u8, metaType: u8, tempo1: u8, tempo2: u8, tempo3: u8)
    | Volume(vol: int)
    | Priority(channel: u8, priority: u8)
    | SetSeq
    | SetBank
    // What an empty queue hands out (type -1).
    | Empty
  {
    function Type(): EventType {
      match this
      case SeqRef => SeqRefType
      case SeqMidi(_, _, _, _, _) => SeqMidiType
      case Tempo(_, _, _, _, _, _) => TempoType
      case TrackEnd(_) => TrackEndType
      case LoopStart(_) => LoopStartType
      case LoopEnd(_) => LoopEndType
      case SeqEnd(_) => SeqEndType
      case NoteOff(_, _, _) => NoteOffType
      case NoteEnd(_) => NoteEndType
      case Envelope(_) => EnvType
      case Tremolo(_) => TremoloType
      case Vibrato(_, _) => VibratoType
      case Api => ApiType
      case StopEvent => StopType
      case PlayEvent => PlayType
      case StoppingEvent => StoppingType
      case Midi(_, _, _) => SeqpMidiType
      case Meta(_, _, _, _, _) => MetaType
      case Volume(_) => VolumeType
      case Priority(_, _) => PriorityType
      case SetSeq => SetSeqType
      case SetBank => SetBankType
      case Empty => EmptyType
    }
  }

  function HasType(tag: EventType): Event -> bool {
    (e: Event) => e.Type() == tag
  }
}
