// What reading a track depends on: the bytes its area allows, and of the reader's state only
// what is still in use. What it changes: loop counters in its area.
module TrackFrames {
  import opened Machine
  import opened TrackReader

  // The same reading position: the section pointer matters only while a section is being
  // repeated, and the pending delta not at all.
  predicate Alike(s: Track, t: Track) {
    s.curLoc == t.curLoc && s.buLen == t.buLen && s.lastStatus == t.lastStatus && (s.buLen != 0 ==> s.buPtr == t.buPtr)
  }

  ghost predicate Within(a: Area, b: Area) {
    forall x :: (a.Reads(x) ==> b.Reads(x)) && (a.Writes(x) ==> b.Writes(x))
  }

  // Two memories that hold the same bytes wherever the area allows a look.
  predicate Agree(m: Bytes, n: Bytes, a: Area) {
    |m| == |n| && forall i :: 0 <= i < |m| && (a.Reads(i) || a.Writes(i)) ==> m[i] == n[i]
  }

  // r is n with the counters of the area as in m.
  predicate Overlaid(r: Bytes, n: Bytes, m: Bytes, a: Area) {
    |r| == |n| == |m| && forall i :: 0 <= i < |n| ==> r[i] == if a.Writes(i) then m[i] else n[i]
  }

  lemma GetByteFrame(m: Bytes, a: Area, s: Track, n: Bytes, b: Area, t: Track)
    requires Agree(m, n, a) && Within(a, b) && Alike(s, t) && GetByte(m, a, s).Some?
    ensures var r, q := GetByte(m, a, s), GetByte(n, b, t);
      q.Some? && q.value.0 == r.value.0 && Alike(r.value.1, q.value.1)
  {
  }

  lemma {:induction false} VarLenRestFrame(m: Bytes, a: Area, s: Track, n: Bytes, b: Area, t: Track, v: u32)
    requires Agree(m, n, a) && Within(a, b) && Alike(s, t) && VarLenRest(m, a, s, v).Some?
    ensures var r, q := VarLenRest(m, a, s, v), VarLenRest(n, b, t, v);
      q.Some? && q.value.0 == r.value.0 && Alike(r.value.1, q.value.1)
    decreases |m| - s.curLoc, s.buLen
  {
    GetByteFrame(m, a, s, n, b, t);
    var (c, s1) := GetByte(m, a, s).value;
    var (d, t1) := GetByte(n, b, t).value;
    if c >= 0x80 {
      VarLenRestFrame(m, a, s1, n, b, t1, (v * 0x80 + c % 0x80) % U32_LIMIT);
    }
  }

  lemma ReadVarLenFrame(m: Bytes, a: Area, s: Track, n: Bytes, b: Area, t: Track)
    requires Agree(m, n, a) && Within(a, b) && Alike(s, t) && ReadVarLen(m, a, s).Some?
    ensures var r, q := ReadVarLen(m, a, s), ReadVarLen(n, b, t);
      q.Some? && q.value.0 == r.value.0 && Alike(r.value.1, q.value.1)
  {
    GetByteFrame(m, a, s, n, b, t);
    var (c, s1) := GetByte(m, a, s).value;
    if c >= 0x80 {
      VarLenRestFrame(m, a, s1, n, b, GetByte(n, b, t).value.1, c % 0x80);
    }
  }

  // The steps of two readers that see the same.
  predicate SameStep(r: Step, n: Bytes, q: Step, a: Area) {
    q.evt == r.evt && Alike(r.track, q.track) && Overlaid(q.mem, n, r.mem, a)
  }

  lemma GetMidiRestFrame(m: Bytes, a: Area, s: Track, n: Bytes, b: Area, t: Track, status: u8, byte1: u8)
    requires Agree(m, n, a) && Within(a, b) && Alike(s, t) && GetMidiRest(m, a, s, status, byte1).Some?
    ensures GetMidiRest(n, b, t, status, byte1).Some?
    ensures SameStep(GetMidiRest(m, a, s, status, byte1).value, n, GetMidiRest(n, b, t, status, byte1).value, a)
  {
    if status / 0x10 != 0xC && status / 0x10 != 0xD {
      GetByteFrame(m, a, s, n, b, t);
      if status / 0x10 == 0x9 {
        ReadVarLenFrame(m, a, GetByte(m, a, s).value.1, n, b, GetByte(n, b, t).value.1);
      }
    }
  }

  lemma GetMidiFrame(m: Bytes, a: Area, s: Track, n: Bytes, b: Area, t: Track, status: u8)
    requires Agree(m, n, a) && Within(a, b) && Alike(s, t) && GetMidi(m, a, s, status).Some?
    ensures GetMidi(n, b, t, status).Some?
    ensures SameStep(GetMidi(m, a, s, status).value, n, GetMidi(n, b, t, status).value, a)
  {
    if status >= 0x80 {
      GetByteFrame(m, a, s, n, b, t);
      var (b1, s1) := GetByte(m, a, s).value;
      var (_, t1) := GetByte(n, b, t).value;
      GetMidiRestFrame(m, a, s1.(lastStatus := status), n, b, t1.(lastStatus := status), status, b1);
    } else {
      GetMidiRestFrame(m, a, s, n, b, t, s.lastStatus, status);
    }
  }

  lemma GetTempoFrame(m: Bytes, a: Area, s: Track, n: Bytes, b: Area, t: Track)
    requires Agree(m, n, a) && Within(a, b) && Alike(s, t) && GetTempo(m, a, s).Some?
    ensures GetTempo(n, b, t).Some? && SameStep(GetTempo(m, a, s).value, n, GetTempo(n, b, t).value, a)
  {
    GetByteFrame(m, a, s, n, b, t);
    var s1, t1 := GetByte(m, a, s).value.1, GetByte(n, b, t).value.1;
    GetByteFrame(m, a, s1, n, b, t1);
    GetByteFrame(m, a, GetByte(m, a, s1).value.1, n, b, GetByte(n, b, t1).value.1);
  }

  lemma GetLoopStartFrame(m: Bytes, a: Area, s: Track, n: Bytes, b: Area, t: Track)
    requires Agree(m, n, a) && Within(a, b) && Alike(s, t) && GetLoopStart(m, a, s).Some?
    ensures GetLoopStart(n, b, t).Some? && SameStep(GetLoopStart(m, a, s).value, n, GetLoopStart(n, b, t).value, a)
  {
    GetByteFrame(m, a, s, n, b, t);
    GetByteFrame(m, a, GetByte(m, a, s).value.1, n, b, GetByte(n, b, t).value.1);
  }

  lemma GetLoopEndFrame(m: Bytes, a: Area, s: Track, n: Bytes, b: Area, t: Track)
    requires Agree(m, n, a) && Within(a, b) && Alike(s, t) && GetLoopEnd(m, a, s).Some?
    ensures GetLoopEnd(n, b, t).Some? && SameStep(GetLoopEnd(m, a, s).value, n, GetLoopEnd(n, b, t).value, a)
  {
    hide FetchOffset;
    var at := s.curLoc;
    var current := FetchCounter(m, a, at + 1).value;
    if current != 0 && current != LOOP_FOREVER {
      FetchOffsetFrame(m[at + 1 := current - 1], a, n[at + 1 := current - 1], b, at + 2);
    } else {
      FetchOffsetFrame(m, a, n, b, at + 2);
    }
  }

  lemma FetchOffsetFrame(m: Bytes, a: Area, n: Bytes, b: Area, at: int)
    requires Agree(m, n, a) && Within(a, b)
    ensures FetchOffset(m, a, at).Some? ==> FetchOffset(n, b, at) == FetchOffset(m, a, at)
  {
  }

  // One event read in a larger area, from a memory that looks the same: the same event, the
  // same position, the same counters written, and nothing else changed.
  lemma GetEventFrame(m: Bytes, a: Area, s: Track, n: Bytes, b: Area, t: Track)
    requires Agree(m, n, a) && Within(a, b) && Alike(s, t) && GetEvent(m, a, s).Some?
    ensures GetEvent(n, b, t).Some? && SameStep(GetEvent(m, a, s).value, n, GetEvent(n, b, t).value, a)
  {
    GetByteFrame(m, a, s, n, b, t);
    var (status, s1) := GetByte(m, a, s).value;
    var (_, t1) := GetByte(n, b, t).value;
    if status == META {
      GetByteFrame(m, a, s1, n, b, t1);
      var (kind, s2) := GetByte(m, a, s1).value;
      var (_, t2) := GetByte(n, b, t1).value;
      if kind == META_TEMPO {
        GetTempoFrame(m, a, s2, n, b, t2);
      } else if kind == LOOP_START_CODE {
        GetLoopStartFrame(m, a, s2, n, b, t2);
      } else if kind == LOOP_END_CODE {
        GetLoopEndFrame(m, a, s2, n, b, t2);
      }
    } else {
      GetMidiFrame(m, a, s1, n, b, t1, status);
    }
  }

  // What an event changes at all.
  lemma GetEventWrites(m: Bytes, a: Area, t: Track)
    requires GetEvent(m, a, t).Some?
    ensures |GetEvent(m, a, t).value.mem| == |m|
    ensures forall i :: 0 <= i < |m| && !a.Writes(i) ==> GetEvent(m, a, t).value.mem[i] == m[i]
  {
    hide GetByte, GetMidi, GetTempo, GetLoopStart, FetchOffset;
    OthersWriteNothing(m, a);
  }

  lemma OthersWriteNothing(m: Bytes, a: Area)
    ensures forall t, status :: GetMidi(m, a, t, status).Some? ==> GetMidi(m, a, t, status).value.mem == m
    ensures forall t :: GetTempo(m, a, t).Some? ==> GetTempo(m, a, t).value.mem == m
    ensures forall t :: GetLoopStart(m, a, t).Some? ==> GetLoopStart(m, a, t).value.mem == m
  {
    hide GetByte, ReadVarLen;
  }
}
