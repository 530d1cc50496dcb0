// src/audio/cseq.c on values: how one track of a compact MIDI sequence is read. Memory is a
// sequence of bytes, a pointer an index into it. A function yields None exactly where the C
// code would touch a byte outside the memory, or outside the part the track may use.
module TrackReader {
  import opened Machine

  const BLOCK_CODE: u8 := 0xFE
  const META: u8 := 0xFF
  const META_TEMPO: u8 := 0x51
  const META_EOT: u8 := 0x2F
  const LOOP_START_CODE: u8 := 0x2E
  const LOOP_END_CODE: u8 := 0x2D
  const LOOP_FOREVER: u8 := 0xFF

  type Bytes = seq<u8>

  // The bytes a track may read as data, and the loop counters it may read and write.
  datatype Area = Everywhere | Only(data: set<int>, counters: set<int>) {
    predicate Reads(a: int) { Everywhere? || a in data }

    predicate Writes(a: int) { Everywhere? || a in counters }
  }

  // The part of an ALCSeq that belongs to one track.
  datatype Track = Track(curLoc: int, buPtr: int, buLen: u8, lastStatus: u8, delta: u32)

  function Fetch(mem: Bytes, area: Area, a: int): Option<u8> {
    if 0 <= a < |mem| && area.Reads(a) then Some(mem[a]) else None
  }

  function FetchCounter(mem: Bytes, area: Area, a: int): Option<u8> {
    if 0 <= a < |mem| && area.Writes(a) then Some(mem[a]) else None
  }

  // __getTrackByte
  function GetByte(mem: Bytes, area: Area, t: Track): (r: Option<(u8, Track)>)
    ensures r.Some? ==> Progress(mem, t, r.value.1)
  {
    if t.buLen != 0 then
      var b :- Fetch(mem, area, t.buPtr);
      Some((b, t.(buPtr := t.buPtr + 1, buLen := t.buLen - 1)))
    else
      var b :- Fetch(mem, area, t.curLoc);
      if b != BLOCK_CODE then Some((b, t.(curLoc := t.curLoc + 1)))
      else
        var hi :- Fetch(mem, area, t.curLoc + 1);
        if hi == BLOCK_CODE then Some((b, t.(curLoc := t.curLoc + 2)))
        else
          var lo :- Fetch(mem, area, t.curLoc + 2);
          var len :- Fetch(mem, area, t.curLoc + 3);
          var from := t.curLoc + 4 - (hi * 0x100 + lo + 4);
          var first :- Fetch(mem, area, from);
          // The u8 length wraps: a code with length 0 stands for 0x100 bytes.
          Some((first, t.(curLoc := t.curLoc + 4, buPtr := from + 1, buLen := (len + 0xFF) % 0x100)))
  }

  // Reading goes forward: in the data, or else in the section being repeated.
  predicate Progress(mem: Bytes, t: Track, r: Track) {
    && r.lastStatus == t.lastStatus && r.delta == t.delta
    && ((t.curLoc < r.curLoc && 0 <= t.curLoc < |mem|) || (r.curLoc == t.curLoc && r.buLen < t.buLen))
  }

  // __readVarLen after a byte with its high bit set; u32 arithmetic.
  function VarLenRest(mem: Bytes, area: Area, t: Track, value: u32): (r: Option<(u32, Track)>)
    decreases |mem| - t.curLoc, t.buLen
  {
    var (c, t1) :- GetByte(mem, area, t);
    var v := (value * 0x80 + c % 0x80) % U32_LIMIT;
    if c >= 0x80 then VarLenRest(mem, area, t1, v) else Some((v, t1))
  }

  // __readVarLen
  function ReadVarLen(mem: Bytes, area: Area, t: Track): Option<(u32, Track)> {
    var (c, t1) :- GetByte(mem, area, t);
    if c >= 0x80 then VarLenRest(mem, area, t1, c % 0x80) else Some((c, t1))
  }

  // What one track delivers; the sequence turns an end into AL_TRACK_END or AL_SEQ_END_EVT.
  datatype TrackEvent =
    | MidiEvent(status: u8, byte1: u8, byte2: u8, duration: u32)
    | TempoEvent(byte1: u8, byte2: u8, byte3: u8)
    | EndEvent
    | LoopStartEvent
    | LoopEndEvent

  // The memory and the track afterwards, and the event.
  datatype Step = Step(mem: Bytes, track: Track, evt: TrackEvent)

  // __alCSeqGetTrackEvent
  function GetEvent(mem: Bytes, area: Area, t: Track): Option<Step> {
    var (status, t1) :- GetByte(mem, area, t);
    if status == META then
      var (kind, t2) :- GetByte(mem, area, t1);
      if kind == META_TEMPO then GetTempo(mem, area, t2)
      else if kind == META_EOT then Some(Step(mem, t2, EndEvent))
      else if kind == LOOP_START_CODE then GetLoopStart(mem, area, t2)
      else if kind == LOOP_END_CODE then GetLoopEnd(mem, area, t2)
      // Any other kind leaves the caller's event as it was: not modelled.
      else None
    else GetMidi(mem, area, t1, status)
  }

  function GetTempo(mem: Bytes, area: Area, t: Track): Option<Step> {
    var (b1, t1) :- GetByte(mem, area, t);
    var (b2, t2) :- GetByte(mem, area, t1);
    var (b3, t3) :- GetByte(mem, area, t2);
    Some(Step(mem, t3.(lastStatus := 0), TempoEvent(b1, b2, b3)))
  }

  function GetLoopStart(mem: Bytes, area: Area, t: Track): Option<Step> {
    var (_, t1) :- GetByte(mem, area, t);
    var (_, t2) :- GetByte(mem, area, t1);
    Some(Step(mem, t2.(lastStatus := 0), LoopStartEvent))
  }

  // The loop end reads and writes through curLoc itself: the loop count, the current count
  // and the offset of the jump, which counts back from the end of the event.
  function GetLoopEnd(mem: Bytes, area: Area, t: Track): Option<Step> {
    var count :- Fetch(mem, area, t.curLoc);
    var current :- FetchCounter(mem, area, t.curLoc + 1);
    if current == 0 then
      Some(Step(mem[t.curLoc + 1 := count], t.(curLoc := t.curLoc + 6, lastStatus := 0), LoopEndEvent))
    else
      var m := if current != LOOP_FOREVER then mem[t.curLoc + 1 := current - 1] else mem;
      var offset :- FetchOffset(m, area, t.curLoc + 2);
      Some(Step(m, t.(curLoc := t.curLoc + 6 - offset, lastStatus := 0), LoopEndEvent))
  }

  function FetchOffset(mem: Bytes, area: Area, a: int): Option<int> {
    var b0 :- Fetch(mem, area, a);
    var b1 :- Fetch(mem, area, a + 1);
    var b2 :- Fetch(mem, area, a + 2);
    var b3 :- Fetch(mem, area, a + 3);
    Some(BigEndian(b0, b1, b2, b3))
  }

  function BigEndian(b0: int, b1: int, b2: int, b3: int): int {
    ((b0 * 0x100 + b1) * 0x100 + b2) * 0x100 + b3
  }

  function GetMidi(mem: Bytes, area: Area, t: Track, status: u8): Option<Step> {
    if status >= 0x80 then
      var (b1, t1) :- GetByte(mem, area, t);
      GetMidiRest(mem, area, t1.(lastStatus := status), status, b1)
    else GetMidiRest(mem, area, t, t.lastStatus, status)
  }

  // The duration is set by note-ons only; 0 stands for what is left unset.
  function GetMidiRest(mem: Bytes, area: Area, t: Track, status: u8, byte1: u8): Option<Step> {
    if status / 0x10 != 0xC && status / 0x10 != 0xD then
      var (b2, t1) :- GetByte(mem, area, t);
      if status / 0x10 == 0x9 then
        var (d, t2) :- ReadVarLen(mem, area, t1);
        Some(Step(mem, t2, MidiEvent(status, byte1, b2, d)))
      else Some(Step(mem, t1, MidiEvent(status, byte1, b2, 0)))
    else Some(Step(mem, t, MidiEvent(status, byte1, 0, 0)))
  }

  // n bytes one after the other.
  function ReadBytes(mem: Bytes, area: Area, t: Track, n: nat): Option<(Bytes, Track)>
    decreases n
  {
    if n == 0 then Some(([], t))
    else
      var (b, t1) :- GetByte(mem, area, t);
      var (bs, t2) :- ReadBytes(mem, area, t1, n - 1);
      Some(([b] + bs, t2))
  }
}
