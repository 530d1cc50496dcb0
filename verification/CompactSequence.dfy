// src/audio/cseq.c: the reader of compact MIDI sequences. Every method is proved to do what
// the function of the same name in TrackReader, Sequencer or Markers says.
module CompactSequence {
  import opened Machine
  import opened AudioEvents
  import opened TrackReader
  import opened Sequencer
  import opened Markers

  // ALCSeq. `data` is the memory the sequence lies in, and pointers are indices into it.
  class CSeq {
    const data: array<u8>
    const base: nat
    var validTracks: set<nat>
    var lastTicks: u32
    var lastDeltaTicks: u32
    var deltaFlag: bool
    const curLoc: array<int>
    const curBUPtr: array<int>
    const curBULen: array<u8>
    const lastStatus: array<u8>
    const evtDeltaTicks: array<u32>

    ghost function Repr(): set<object> {
      {this, data, curLoc, curBUPtr, curBULen, lastStatus, evtDeltaTicks}
    }

    ghost predicate Shape() {
      && curLoc.Length == curBUPtr.Length == curBULen.Length == lastStatus.Length == evtDeltaTicks.Length == TRACKS
      && curLoc != curBUPtr && curBULen != lastStatus && data != curBULen && data != lastStatus
    }

    ghost predicate Valid()
      reads this
    {
      Shape() && forall i <- validTracks :: i < TRACKS
    }

    ghost function TrackOf(i: nat): Track
      requires Shape() && i < TRACKS
      reads curLoc, curBUPtr, curBULen, lastStatus, evtDeltaTicks
    {
      Track(curLoc[i], curBUPtr[i], curBULen[i], lastStatus[i], evtDeltaTicks[i])
    }

    ghost function Tracks(): (r: seq<Track>)
      requires Shape()
      reads curLoc, curBUPtr, curBULen, lastStatus, evtDeltaTicks
      ensures |r| == TRACKS && forall i :: 0 <= i < TRACKS ==> r[i] == TrackOf(i)
    {
      seq(TRACKS, i requires 0 <= i < TRACKS reads curLoc, curBUPtr, curBULen, lastStatus, evtDeltaTicks => TrackOf(i))
    }

    ghost function State(): Sequence
      requires Shape()
      reads this, data, curLoc, curBUPtr, curBULen, lastStatus, evtDeltaTicks
    {
      Sequence(data[..], validTracks, Tracks(), lastTicks, lastDeltaTicks, deltaFlag)
    }

    // __getTrackByte
    method GetTrackByte(track: nat) returns (theByte: u8)
      requires Shape() && track < TRACKS && GetByte(data[..], Everywhere, TrackOf(track)).Some?
      modifies curLoc, curBUPtr, curBULen
      ensures Some((theByte, TrackOf(track))) == old(GetByte(data[..], Everywhere, TrackOf(track)))
      ensures Tracks() == old(Tracks())[track := TrackOf(track)]
    {
      if curBULen[track] != 0 {
        theByte := data[curBUPtr[track]];
        curBUPtr[track] := curBUPtr[track] + 1;
        curBULen[track] := curBULen[track] - 1;
      } else {
        theByte := data[curLoc[track]];
        curLoc[track] := curLoc[track] + 1;
        if theByte == BLOCK_CODE {
          var nextByte := data[curLoc[track]];
          curLoc[track] := curLoc[track] + 1;
          if nextByte != BLOCK_CODE {
            var hiBackUp := nextByte;
            var loBackUp := data[curLoc[track]];
            curLoc[track] := curLoc[track] + 1;
            var theLen := data[curLoc[track]];
            curLoc[track] := curLoc[track] + 1;
            var backup: int := hiBackUp;
            backup := backup * 0x100;
            backup := backup + loBackUp;
            curBUPtr[track] := curLoc[track] - (backup + 4);
            curBULen[track] := theLen;
            theByte := data[curBUPtr[track]];
            curBUPtr[track] := curBUPtr[track] + 1;
            curBULen[track] := (theLen as int + 0xFF) % 0x100;
          }
        }
      }
    }

    // __readVarLen
    method ReadVarLen(track: nat) returns (value: u32)
      requires Shape() && track < TRACKS && TrackReader.ReadVarLen(data[..], Everywhere, TrackOf(track)).Some?
      modifies curLoc, curBUPtr, curBULen
      ensures Some((value, TrackOf(track))) == old(TrackReader.ReadVarLen(data[..], Everywhere, TrackOf(track)))
      ensures Tracks() == old(Tracks())[track := TrackOf(track)]
    {
      hide GetByte;
      var first := GetTrackByte(track);
      value := first;
      if first >= 0x80 {
        value := value % 0x80;
        var c: u8 := 0x80;
        while c >= 0x80
          invariant data[..] == old(data[..]) && Tracks() == old(Tracks())[track := TrackOf(track)]
          invariant c >= 0x80 ==>
            VarLenRest(data[..], Everywhere, TrackOf(track), value)
              == old(TrackReader.ReadVarLen(data[..], Everywhere, TrackOf(track)))
          invariant c < 0x80 ==>
            Some((value, TrackOf(track))) == old(TrackReader.ReadVarLen(data[..], Everywhere, TrackOf(track)))
          decreases if c >= 0x80 then 1 else 0, data.Length - curLoc[track], curBULen[track]
        {
          c := GetTrackByte(track);
          value := (value * 0x80 + c % 0x80) % U32_LIMIT;
        }
      }
    }

    method SetStatus(track: nat, status: u8)
      requires Shape() && track < TRACKS
      modifies lastStatus
      ensures TrackOf(track) == old(TrackOf(track)).(lastStatus := status)
      ensures Tracks() == old(Tracks())[track := TrackOf(track)]
    {
      lastStatus[track] := status;
    }

    // __alCSeqGetTrackEvent
    method GetTrackEvent(track: nat) returns (event: TrackEvent)
      requires Shape() && track < TRACKS && GetEvent(data[..], Everywhere, TrackOf(track)).Some?
      modifies `validTracks, data, curLoc, curBUPtr, curBULen, lastStatus
      ensures Some(Step(data[..], TrackOf(track), event)) == old(GetEvent(data[..], Everywhere, TrackOf(track)))
      ensures Tracks() == old(Tracks())[track := TrackOf(track)]
      ensures validTracks == if event == EndEvent then Toggle(old(validTracks), track) else old(validTracks)
    {
      hide GetByte, GetTempo, GetLoopStart, GetLoopEnd, GetMidi;
      var status := GetTrackByte(track);
      if status == META {
        var kind := GetTrackByte(track);
        if kind == META_TEMPO {
          event := ReadTempo(track);
        } else if kind == META_EOT {
          validTracks := if track in validTracks then validTracks - {track} else validTracks + {track};
          event := EndEvent;
        } else if kind == LOOP_START_CODE {
          event := ReadLoopStart(track);
        } else {
          event := ReadLoopEnd(track);
        }
      } else {
        event := ReadMidi(track, status);
      }
    }

    method ReadTempo(track: nat) returns (event: TrackEvent)
      requires Shape() && track < TRACKS && GetTempo(data[..], Everywhere, TrackOf(track)).Some?
      modifies curLoc, curBUPtr, curBULen, lastStatus
      ensures Some(Step(data[..], TrackOf(track), event)) == old(GetTempo(data[..], Everywhere, TrackOf(track)))
      ensures Tracks() == old(Tracks())[track := TrackOf(track)]
      ensures event.TempoEvent?
    {
      hide GetByte;
      var byte1 := GetTrackByte(track);
      var byte2 := GetTrackByte(track);
      var byte3 := GetTrackByte(track);
      SetStatus(track, 0);
      event := TempoEvent(byte1, byte2, byte3);
    }

    method ReadLoopStart(track: nat) returns (event: TrackEvent)
      requires Shape() && track < TRACKS && GetLoopStart(data[..], Everywhere, TrackOf(track)).Some?
      modifies curLoc, curBUPtr, curBULen, lastStatus
      ensures Some(Step(data[..], TrackOf(track), event)) == old(GetLoopStart(data[..], Everywhere, TrackOf(track)))
      ensures Tracks() == old(Tracks())[track := TrackOf(track)]
      ensures event.LoopStartEvent?
    {
      hide GetByte;
      var ignored := GetTrackByte(track);
      ignored := GetTrackByte(track);
      SetStatus(track, 0);
      event := LoopStartEvent;
    }

    method ReadLoopEnd(track: nat) returns (event: TrackEvent)
      requires Shape() && track < TRACKS && GetLoopEnd(data[..], Everywhere, TrackOf(track)).Some?
      modifies data, curLoc, lastStatus
      ensures Some(Step(data[..], TrackOf(track), event)) == old(GetLoopEnd(data[..], Everywhere, TrackOf(track)))
      ensures Tracks() == old(Tracks())[track := TrackOf(track)]
      ensures event.LoopEndEvent?
    {
      var tmpPtr := curLoc[track];
      var loopCt := data[tmpPtr];
      tmpPtr := tmpPtr + 1;
      var curLpCt := data[tmpPtr];
      if curLpCt == 0 {
        data[tmpPtr] := loopCt;
        curLoc[track] := tmpPtr + 5;
      } else {
        if curLpCt != LOOP_FOREVER {
          data[tmpPtr] := curLpCt - 1;
        }
        tmpPtr := tmpPtr + 1;
        var offset: int := data[tmpPtr] as int * 0x1000000;
        offset := offset + data[tmpPtr + 1] as int * 0x10000;
        offset := offset + data[tmpPtr + 2] as int * 0x100;
        offset := offset + data[tmpPtr + 3];
        tmpPtr := tmpPtr + 4;
        curLoc[track] := tmpPtr - offset;
      }
      lastStatus[track] := 0;
      event := LoopEndEvent;
    }

    method ReadMidi(track: nat, status: u8) returns (event: TrackEvent)
      requires Shape() && track < TRACKS && GetMidi(data[..], Everywhere, TrackOf(track), status).Some?
      modifies curLoc, curBUPtr, curBULen, lastStatus
      ensures Some(Step(data[..], TrackOf(track), event)) == old(GetMidi(data[..], Everywhere, TrackOf(track), status))
      ensures Tracks() == old(Tracks())[track := TrackOf(track)]
      ensures event.MidiEvent?
    {
      hide GetByte, TrackReader.ReadVarLen;
      var evtStatus, byte1, byte2: u8, duration: u32 := status, status, 0, 0;
      if status >= 0x80 {
        byte1 := GetTrackByte(track);
        SetStatus(track, status);
      } else {
        evtStatus := lastStatus[track];
      }
      if evtStatus / 0x10 != 0xC && evtStatus / 0x10 != 0xD {
        byte2 := GetTrackByte(track);
        if evtStatus / 0x10 == 0x9 {
          duration := ReadVarLen(track);
        }
      }
      event := MidiEvent(evtStatus, byte1, byte2, duration);
    }

    // ---- alCSeqNew ----

    constructor (data: array<u8>, base: nat)
      requires New(data[..], base).Some?
      ensures Valid() && this.data == data && this.base == base && Some(State()) == New(data[..], base)
      ensures fresh(curLoc) && fresh(curBUPtr) && fresh(curBULen) && fresh(lastStatus) && fresh(evtDeltaTicks)
    {
      this.data, this.base := data, base;
      validTracks, lastDeltaTicks, lastTicks, deltaFlag := {}, 0, 0, true;
      var ints := new int[TRACKS];
      var more := new int[TRACKS];
      curLoc, curBUPtr := ints, more;
      var bytes := new u8[TRACKS];
      var others := new u8[TRACKS];
      curBULen, lastStatus := bytes, others;
      evtDeltaTicks := new u32[TRACKS];
      new;
      assert Tracks()[..0] == [];
      StartTracks();
    }

    // Its loop.
    method StartTracks()
      requires Shape() && New(data[..], base).Some? && validTracks == {}
      requires lastTicks == 0 && lastDeltaTicks == 0 && deltaFlag
      modifies `validTracks, curLoc, curBUPtr, curBULen, lastStatus, evtDeltaTicks
      ensures Valid() && Some(State()) == New(data[..], base)
    {
      hide NewTrack, TrackReader.ReadVarLen;
      for i := 0 to TRACKS
        invariant Shape() && data[..] == old(data[..]) && lastTicks == 0 && lastDeltaTicks == 0 && deltaFlag
        invariant NewTracks(data[..], base, i) == Some((validTracks, Tracks()[..i]))
      {
        NewTracksPrefix(data[..], base, i + 1, TRACKS);
        ghost var tracks := Tracks();
        StartTrack(i);
        assert Tracks()[..i + 1] == tracks[..i] + [TrackOf(i)];
      }
      assert Tracks()[..TRACKS] == Tracks();
    }

    method StartTrack(i: nat)
      requires Shape() && i < TRACKS && NewTrack(data[..], base, i).Some?
      modifies `validTracks, curLoc, curBUPtr, curBULen, lastStatus, evtDeltaTicks
      ensures Tracks() == old(Tracks())[i := TrackOf(i)]
      ensures var used := NewTrack(data[..], base, i).value.0;
        && NewTrack(data[..], base, i).value == (used, TrackOf(i))
        && validTracks == if used then old(validTracks) + {i} else old(validTracks)
    {
      hide TrackReader.ReadVarLen;
      var at := base + 4 * i;
      var offset := data[at] as int * 0x1000000 + data[at + 1] as int * 0x10000 + data[at + 2] as int * 0x100
        + data[at + 3];
      if offset != 0 {
        validTracks := validTracks + {i};
        Clear(i, base + offset);
        var delta := ReadVarLen(i);
        SetDelta(i, delta);
      } else {
        Clear(i, 0);
      }
    }

    method Clear(i: nat, loc: int)
      requires Shape() && i < TRACKS
      modifies curLoc, curBUPtr, curBULen, lastStatus, evtDeltaTicks
      ensures TrackOf(i) == Track(loc, 0, 0, 0, 0) && Tracks() == old(Tracks())[i := TrackOf(i)]
    {
      lastStatus[i], curBUPtr[i], curBULen[i], curLoc[i], evtDeltaTicks[i] := 0, 0, 0, loc, 0;
    }

    method SetDelta(track: nat, delta: u32)
      requires Shape() && track < TRACKS
      modifies evtDeltaTicks
      ensures TrackOf(track) == old(TrackOf(track)).(delta := delta)
      ensures Tracks() == old(Tracks())[track := TrackOf(track)]
    {
      evtDeltaTicks[track] := delta;
    }

    // ---- alCSeqNextEvent ----

    // Its loop, which is that of __alCSeqNextDelta too: the table is brought up to date if
    // need be, and the first event is looked for.
    method Scan() returns (firstTime: u32, firstTrack: nat)
      requires Valid()
      modifies evtDeltaTicks
      ensures Tracks() == old(Subtracted(State())).tracks
      ensures var p := Pick(old(Subtracted(State())), TRACKS);
        if p.Some? then firstTrack == p.value && firstTime == TrackOf(p.value).delta else firstTime == NO_TIME
    {
      hide Pick, Subtracted;
      ghost var s, q := State(), Subtracted(State());
      SubtractedAt(s, 0);
      firstTime, firstTrack := NO_TIME, 0;
      PickStart(q);
      for i := 0 to TRACKS
        invariant forall j :: 0 <= j < i ==> TrackOf(j) == q.tracks[j]
        invariant forall j :: i <= j < TRACKS ==> TrackOf(j) == s.tracks[j]
        invariant var p := Pick(q, i);
          if p.Some? then firstTrack == p.value && firstTime == q.tracks[p.value].delta else firstTime == NO_TIME
      {
        PickStep(q, i);
        SubtractedAt(s, i);
        if i in validTracks {
          if deltaFlag {
            evtDeltaTicks[i] := (evtDeltaTicks[i] - lastDeltaTicks) % U32_LIMIT;
          }
          if evtDeltaTicks[i] < firstTime {
            firstTime, firstTrack := evtDeltaTicks[i], i;
          }
        }
      }
    }

    method NextEvent() returns (evt: Event)
      requires Valid() && Sequencer.NextEvent(State()).Some?
      modifies `validTracks, `lastTicks, `lastDeltaTicks, `deltaFlag
      modifies data, curLoc, curBUPtr, curBULen, lastStatus, evtDeltaTicks
      ensures Valid()
      ensures var r := old(Sequencer.NextEvent(State())).value; State() == r.next && evt == r.event
    {
      hide Subtracted, Pick, GetEvent, Sequencer.NextEvent, AddDelta, ToEvent, Toggle;
      ghost var s := State();
      SubtractedIs(s);
      NextEventParts(s);
      var firstTime, firstTrack := Scan();
      var event := GetTrackEvent(firstTrack);
      evt := ToEvent(event, validTracks == {}, firstTime);
      lastTicks := (lastTicks + firstTime) % U32_LIMIT;
      lastDeltaTicks := firstTime;
      if !evt.TrackEnd? {
        AddNextDelta(firstTrack);
      }
      deltaFlag := true;
    }

    method AddNextDelta(track: nat)
      requires Shape() && track < TRACKS && AddDelta(data[..], TrackOf(track)).Some?
      modifies curLoc, curBUPtr, curBULen, evtDeltaTicks
      ensures Some(TrackOf(track)) == old(AddDelta(data[..], TrackOf(track)))
      ensures Tracks() == old(Tracks())[track := TrackOf(track)]
    {
      hide TrackReader.ReadVarLen;
      var delta := ReadVarLen(track);
      SetDelta(track, (evtDeltaTicks[track] + delta) % U32_LIMIT);
    }

    // __alCSeqNextDelta
    method NextDelta() returns (found: bool, deltaTicks: u32)
      requires Valid()
      modifies `deltaFlag, evtDeltaTicks
      ensures Valid()
      ensures var (s, r) := old(Sequencer.NextDelta(State()));
        State() == s && found == r.Some? && (found ==> deltaTicks == r.value)
    {
      hide Subtracted, Pick;
      found, deltaTicks := false, 0;
      if validTracks != {} {
        SubtractedIs(State());
        var firstTrack;
        ghost var q := Subtracted(State());
        deltaTicks, firstTrack := Scan();
        PickIgnoresFlag(q, q.(flag := false), TRACKS);
        found, deltaFlag := true, false;
      }
    }

    // ---- markers ----

    // alCSeqGetLoc, which copies every field of a marker.
    method GetLoc() returns (m: Marker)
      requires Valid()
      ensures m == Markers.GetLoc(State())
    {
      var tracks: seq<Track> := [];
      for i := 0 to TRACKS
        invariant tracks == Tracks()[..i]
      {
        tracks := tracks + [Track(curLoc[i], curBUPtr[i], curBULen[i], lastStatus[i], evtDeltaTicks[i])];
      }
      m := Marker(validTracks, lastTicks, lastDeltaTicks, tracks);
    }

    // alCSeqSetLoc
    method SetLoc(m: Marker)
      requires Valid() && |m.tracks| == TRACKS && forall i <- m.valid :: i < TRACKS
      modifies `validTracks, `lastTicks, `lastDeltaTicks, curLoc, curBUPtr, curBULen, lastStatus, evtDeltaTicks
      ensures Valid() && State() == Markers.SetLoc(old(State()), m)
    {
      validTracks, lastTicks, lastDeltaTicks := m.valid, m.lastTicks, m.lastDelta;
      for i := 0 to TRACKS
        invariant validTracks == m.valid && lastTicks == m.lastTicks && lastDeltaTicks == m.lastDelta
        invariant data[..] == old(data[..]) && deltaFlag == old(deltaFlag)
        invariant forall j :: 0 <= j < i ==> TrackOf(j) == m.tracks[j]
      {
        curLoc[i], curBUPtr[i], curBULen[i] := m.tracks[i].curLoc, m.tracks[i].buPtr, m.tracks[i].buLen;
        lastStatus[i], evtDeltaTicks[i] := m.tracks[i].lastStatus, m.tracks[i].delta;
      }
      assert Tracks() == m.tracks;
    }

    // alCSeqNewMarker
    method NewMarker(ticks: u32, ghost fuel: nat) returns (m: Marker)
      requires Valid() && Markers.NewMarker(data[..], base, ticks, fuel).Some?
      modifies data
      ensures Some(Found(m, data[..])) == old(Markers.NewMarker(data[..], base, ticks, fuel))
    {
      hide New, Sequencer.NextEvent, Markers.GetLoc;
      var tempSeq := new CSeq(data, base);
      ghost var left := fuel;
      var going := true;
      m := tempSeq.GetLoc();
      while going
        invariant tempSeq.Valid() && tempSeq.data == data && fresh(tempSeq) && fresh(tempSeq.curLoc)
        invariant fresh(tempSeq.curBUPtr) && fresh(tempSeq.curBULen) && fresh(tempSeq.lastStatus)
          && fresh(tempSeq.evtDeltaTicks)
        invariant going ==> Search(tempSeq.State(), ticks, left) == old(Markers.NewMarker(data[..], base, ticks, fuel))
        invariant !going ==> Some(Found(m, data[..])) == old(Markers.NewMarker(data[..], base, ticks, fuel))
        decreases going, left
      {
        m := tempSeq.GetLoc();
        var evt := tempSeq.NextEvent();
        going := !evt.SeqEnd? && tempSeq.lastTicks < ticks;
        left := left - 1;
      }
    }
  }
}
