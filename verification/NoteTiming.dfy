// Tempo changes lose no ticks: a note-off comes exactly when its tick comes, however often the
// tempo changes between the note-on and the note-off.
module NoteTiming {
  import opened Machine
  import opened AudioEvents
  import opened DeltaList
  import opened Retiming
  import opened Views
  import TrackReader
  import opened Sequencer
  import opened Player
  import opened QuietSteps
  import opened PlayerInvariant
  import opened OnTime
  import opened NoDrift

  predicate NotNoteOff(e: Event) { !e.NoteOff? }

  // When the last event of the sequence was handled, its tick, and the microseconds per tick
  // since then.
  datatype Clock = Clock(time: int, tick: nat, uspt: Micros)

  // A time is on the beat if it is that of a tick.
  predicate OnBeat(c: Clock, time: int) {
    c.uspt > 0 && c.time <= time && (time - c.time) % c.uspt == 0
  }

  // A note-off and its tick.
  datatype Deadline = Deadline(tick: int, evt: Event)

  function TickAt(c: Clock, time: int): int {
    if c.uspt > 0 then c.tick + (time - c.time) / c.uspt else c.tick
  }

  function DeadlineOf(c: Clock): Timed -> Deadline {
    (x: Timed) => Deadline(TickAt(c, x.time), x.evt)
  }

  function Map<A, B>(f: A -> B, s: seq<A>): (r: seq<B>)
    ensures |r| == |s|
  {
    if s == [] then [] else [f(s[0])] + Map(f, s[1..])
  }

  function Deadlines(c: Clock, a: seq<Timed>): multiset<Deadline> {
    multiset(Map(DeadlineOf(c), a))
  }

  predicate AllOnBeat(c: Clock, a: seq<Timed>) {
    forall x <- a :: OnBeat(c, x.time)
  }

  // ---- order does not matter ----

  lemma {:induction false} MapAppend<A, B>(f: A -> B, s: seq<A>, t: seq<A>)
    ensures Map(f, s + t) == Map(f, s) + Map(f, t)
  {
    if s == [] {
      assert s + t == t;
    } else {
      assert (s + t)[1..] == s[1..] + t;
      MapAppend(f, s[1..], t);
    }
  }

  lemma {:induction false} OneLess<A>(t: seq<A>, i: nat)
    requires i < |t|
    ensures multiset(t[..i] + t[i + 1..]) == multiset(t) - multiset{t[i]}
  {
    assert t == t[..i] + ([t[i]] + t[i + 1..]);
  }

  lemma {:induction false} RestPermutes<A>(s: seq<A>, t: seq<A>, i: nat)
    requires multiset(s) == multiset(t) && s != [] && i < |t| && t[i] == s[0]
    ensures multiset(s[1..]) == multiset(t[..i] + t[i + 1..])
  {
    OneLess(s, 0);
    OneLess(t, i);
    assert s[..0] + s[1..] == s[1..];
  }

  lemma {:induction false} MapPermutes<A, B>(f: A -> B, s: seq<A>, t: seq<A>)
    requires multiset(s) == multiset(t)
    ensures multiset(Map(f, s)) == multiset(Map(f, t))
  {
    if s == [] {
      assert |multiset(t)| == 0;
    } else {
      assert s[0] in multiset(t);
      var i :| 0 <= i < |t| && t[i] == s[0];
      var rest := t[..i] + t[i + 1..];
      assert t == t[..i] + ([t[i]] + t[i + 1..]);
      RestPermutes(s, t, i);
      MapPermutes(f, s[1..], rest);
      MapAppend(f, t[..i], t[i + 1..]);
      MapAppend(f, t[..i], [t[i]] + t[i + 1..]);
      assert ([t[i]] + t[i + 1..])[1..] == t[i + 1..];
    }
  }

  lemma {:induction false} MapSame<A, B>(f: A -> B, g: A -> B, s: seq<A>)
    requires forall x <- s :: f(x) == g(x)
    ensures Map(f, s) == Map(g, s)
  {
    if s != [] {
      MapSame(f, g, s[1..]);
    }
  }

  lemma {:induction false} MapTwice<A, B, C>(f: A -> B, g: B -> C, h: A -> C, s: seq<A>)
    requires forall x <- s :: g(f(x)) == h(x)
    ensures Map(g, Map(f, s)) == Map(h, s)
  {
    if s != [] {
      MapTwice(f, g, h, s[1..]);
      assert Map(f, s)[1..] == Map(f, s[1..]);
    }
  }

  lemma {:induction false} InMap<A, B>(f: A -> B, s: seq<A>, y: B)
    requires y in Map(f, s)
    ensures exists x <- s :: y == f(x)
  {
    if y != f(s[0]) {
      InMap(f, s[1..], y);
    }
  }

  // ---- the note-offs of a queue ----

  function TimedFrom(base: int): Entry -> Timed {
    (e: Entry) => Timed(base + e.delta, e.evt)
  }

  lemma {:induction false} ViewNoteOffs(q: seq<Entry>, now: int, before: nat)
    ensures View(q, now, NotNoteOff) == Map(TimedFrom(now - before), NoteOffs(q, before))
  {
    if q != [] {
      var a := Abs(q, now);
      assert a[1..] == Abs(q[1..], now + q[0].delta);
      ViewNoteOffs(q[1..], now + q[0].delta, before + q[0].delta);
      if IsNoteOff(q[0].evt) {
        assert NoteOffs(q, before)[1..] == NoteOffs(q[1..], before + q[0].delta);
      }
    }
  }

  function Moved(now: int, f: nat -> nat): Timed -> Timed {
    (x: Timed) => if x.time < now then x else Timed(now + f(x.time - now), x.evt)
  }

  // A tempo change moves every pending note-off to its rescaled delay, and adds and loses none.
  lemma RetimeMoves(q: seq<Entry>, f: nat -> nat, now: int)
    ensures multiset(View(Retime(q, f), now, NotNoteOff)) == multiset(Map(Moved(now, f), View(q, now, NotNoteOff)))
  {
    hide Retime, View, Map, NoteOffs, Scaled;
    var offs := NoteOffs(q, 0);
    RetimeMovesNoteOffs(q, f);
    ViewNoteOffs(Retime(q, f), now, 0);
    ViewNoteOffs(q, now, 0);
    MapPermutes(TimedFrom(now), NoteOffs(Retime(q, f), 0), Scaled(offs, f));
    ScaledMoves(offs, f, now);
  }

  lemma {:induction false} ScaledMoves(offs: seq<Entry>, f: nat -> nat, now: int)
    ensures Map(TimedFrom(now), Scaled(offs, f)) == Map(Moved(now, f), Map(TimedFrom(now), offs))
  {
    if offs != [] {
      ScaledMoves(offs[1..], f, now);
      assert Scaled(offs, f)[1..] == Scaled(offs[1..], f);
      assert Map(TimedFrom(now), offs)[1..] == Map(TimedFrom(now), offs[1..]);
    }
  }

  // ---- ticks ----

  lemma Quotient(d: int, u: int, k: int)
    requires u > 0 && d == k * u
    ensures d / u == k && d % u == 0
  {
    var x := k - d / u;
    assert x * u == k * u - d / u * u;
    if x >= 1 {
      Product(1, x, u);
    } else if x <= -1 {
      Product(x, -1, u);
    }
  }

  lemma Product(a: int, b: int, u: int)
    requires a <= b && u > 0
    ensures a * u <= b * u
  {
  }

  lemma BeatIs(c: Clock, time: int) returns (k: nat)
    requires OnBeat(c, time)
    ensures time == c.time + k * c.uspt && TickAt(c, time) == c.tick + k
  {
    k := (time - c.time) / c.uspt;
    assert time - c.time == k * c.uspt + (time - c.time) % c.uspt;
  }

  lemma IsBeat(c: Clock, k: nat)
    requires c.uspt > 0
    ensures OnBeat(c, c.time + k * c.uspt) && TickAt(c, c.time + k * c.uspt) == c.tick + k
  {
    Quotient(k * c.uspt, c.uspt, k);
  }

  // The clock may be read from a later event of the sequence: what is due after it keeps its
  // tick.
  lemma LaterClock(c: Clock, ticks: nat, time: int)
    requires OnBeat(c, time) && time >= c.time + ticks * c.uspt
    ensures var d := Clock(c.time + ticks * c.uspt, c.tick + ticks, c.uspt);
      OnBeat(d, time) && TickAt(d, time) == TickAt(c, time)
  {
    var k := BeatIs(c, time);
    var d := Clock(c.time + ticks * c.uspt, c.tick + ticks, c.uspt);
    if k < ticks {
      Product(k, ticks - 1, c.uspt);
    }
    assert time == d.time + (k - ticks) * d.uspt;
    IsBeat(d, k - ticks);
  }

  // The division by the old tempo is exact, so the new time is that of the same tick.
  lemma NewTempoKeepsTick(c: Clock, uspt: Micros, x: Timed)
    requires OnBeat(c, x.time) && uspt > 0
    ensures var y, d := Moved(c.time, Rescale(c.uspt, uspt))(x), c.(uspt := uspt);
      OnBeat(d, y.time) && DeadlineOf(d)(y) == DeadlineOf(c)(x)
  {
    var k := BeatIs(c, x.time);
    Quotient(k * c.uspt, c.uspt, k);
    IsBeat(c.(uspt := uspt), k);
  }

  // It is exact only on the beat: off it, a tempo change takes a note-off out of its place.
  lemma RescaleIsExactOnBeat(delay: nat, oldUspt: Micros, newUspt: Micros)
    requires oldUspt > 0 && newUspt > 0
    ensures Rescale(oldUspt, newUspt)(delay) * oldUspt == delay * newUspt <==> delay % oldUspt == 0
  {
    var k, r := delay / oldUspt, delay % oldUspt;
    assert delay == k * oldUspt + r;
    calc {
      delay * newUspt;
      (k * oldUspt + r) * newUspt;
      (k * newUspt) * oldUspt + r * newUspt;
    }
    if r != 0 {
      assert r * newUspt > 0;
    }
  }

  // So a tempo set from outside moves the pending note-offs to the times of their ticks if and
  // only if each of them is a whole number of ticks away.
  lemma TempoIsExactOnBeat(p: Player, a: Answer)
    requires p.next.Meta? && p.next.metaStatus == TrackReader.META && p.next.metaType == TrackReader.META_TEMPO
    requires Dispatch(p, a).Some? && UsptFromTempo(p.target, a) > 0
    ensures var r, f := Dispatch(p, a).value, Rescale(p.uspt, UsptFromTempo(p.target, a));
      && r.uspt == UsptFromTempo(p.target, a)
      && multiset(NoteOffs(r.queue, 0)) == multiset(Scaled(NoteOffs(p.queue, 0), f))
      && ((forall x <- NoteOffs(p.queue, 0) :: f(x.delta) * p.uspt == x.delta * r.uspt) <==>
        (forall x <- NoteOffs(p.queue, 0) :: x.delta % p.uspt == 0))
  {
    hide Retime, Rescale, NoteOffs, Scaled;
    var uspt := UsptFromTempo(p.target, a);
    RetimeMovesNoteOffs(p.queue, Rescale(p.uspt, uspt));
    forall x <- NoteOffs(p.queue, 0)
      ensures Rescale(p.uspt, uspt)(x.delta) * p.uspt == x.delta * uspt <==> x.delta % p.uspt == 0
    {
      RescaleIsExactOnBeat(x.delta, p.uspt, uspt);
    }
  }

  // For example: a note-off 29 microseconds away at 10 a tick, with the frame event 100 behind
  // it, is 2.9 ticks away, which are 58 microseconds at 20 a tick. The new tempo leaves 40.
  lemma OffBeatExample(p: Player, a: Answer, off: Event)
    requires p.uspt == 10 && p.queue == [Entry(29, off), Entry(100, Api)] && off.NoteOff?
    requires p.next.Meta? && p.next.metaStatus == TrackReader.META && p.next.metaType == TrackReader.META_TEMPO
    requires p.target.Some? && a.uspt == 20
    ensures Dispatch(p, a) == Some(p.(queue := [Entry(40, off), Entry(89, Api)], uspt := 20)) && 29 * 20 == 58 * 10
  {
    hide Retime, NoteOffs;
    OffBeatQueue(off);
    OffBeatParts(off);
  }

  lemma OffBeatQueue(off: Event)
    requires off.NoteOff?
    ensures Retime([Entry(29, off), Entry(100, Api)], Rescale(10, 20)) == [Entry(40, off), Entry(89, Api)]
  {
    hide Remove, NoteOffs, Place;
    var rest := [Entry(129, Api)];
    OffBeatParts(off);
    assert PushAll([], [Entry(29, off)]) == PushAll([Entry(29, off)], []);
    assert Repost(rest, [Entry(29, off)], Rescale(10, 20))
      == Repost([Entry(40, off), Entry(89, Api)], [], Rescale(10, 20));
  }

  lemma {:induction false} OffBeatParts(off: Event)
    requires off.NoteOff?
    ensures NoteOffs([Entry(29, off), Entry(100, Api)], 0) == [Entry(29, off)]
    ensures Remove([Entry(29, off), Entry(100, Api)], IsNoteOff, 0) == [Entry(129, Api)]
    ensures Place([Entry(129, Api)], off, 40, false) == [Entry(40, off), Entry(89, Api)]
  {
    var q, rest := [Entry(29, off), Entry(100, Api)], [Entry(100, Api)];
    assert q[1..] == rest && rest[1..] == [];
    assert NoteOffs(rest[1..], 129) == [] && NoteOffs(rest, 29) == [];
    assert Remove(rest, IsNoteOff, 29) == [Entry(129, Api)];
  }

  // ---- steps of the player ----

  lemma AdvancePending(p: Player, drop: Event -> bool)
    requires Advance(p).Some? && drop(Empty)
    ensures Pending(Advance(p).value, drop) == Seen(p, drop)
  {
    if p.queue == [] {
      assert Abs(p.queue, p.now) == [];
    } else {
      TakeFirstView(p.queue, p.now, drop);
    }
  }

  // The note that an event of the sequence starts: its duration and its note-off.
  datatype Note = Note(duration: u32, off: Event)

  function NewNote(p: Player, e: Event, a: Answer): Option<Note> {
    if e.SeqMidi? && StartsNote(e.status, e.byte2) && a.sound.Some? && p.idle != [] && e.duration != 0
    then Some(Note(e.duration, NoteOff(0x80 + e.status % 0x10, e.byte1, 0)))
    else None
  }

  lemma MidiNotes(p: Player, status: u8, byte1: u8, byte2: u8, duration: u32, ticks: u32, a: Answer)
    requires HandleMidi(p, status, byte1, byte2, duration, a).Some? && HasRoom(p) && p.state == Playing
    requires var n := NewNote(p, SeqMidi(status, byte1, byte2, duration, ticks), a);
      n.Some? ==> n.value.duration * p.uspt < AL_EVTQ_END
    ensures var r, n := HandleMidi(p, status, byte1, byte2, duration, a).value,
        NewNote(p, SeqMidi(status, byte1, byte2, duration, ticks), a);
      && r.now == p.now
      && Seen(r, NotNoteOff) ==
        if n.Some? then Insert(Seen(p, NotNoteOff), Timed(p.now + n.value.duration * p.uspt, n.value.off))
        else Seen(p, NotNoteOff)
  {
    hide StartNote, Struck, Seen, Insert;
    if !StartsNote(status, byte2) {
      OtherMidiQuiet(p, status, byte1, byte2, duration, a, NotNoteOff);
    } else if a.sound.Some? && p.idle != [] {
      var chan := status % 0x10;
      StartNoteIs(p, chan, byte1, duration, a.sound.value, a.tremolo, a.vibrato);
      StruckQuiet(p, chan, byte1, a.sound.value, a.tremolo, a.vibrato, NotNoteOff);
      if duration != 0 {
        NoteOffSeen(Struck(p, p.idle[0], chan, byte1, a.sound.value, a.tremolo, a.vibrato), chan, byte1, duration);
      }
    }
  }

  lemma NoteOffSeen(p: Player, chan: u8, key: u8, duration: u32)
    requires p.free > 0 && chan < 0x10 && duration * p.uspt < AL_EVTQ_END
    ensures var r := PostedTicks(p, NoteOff(0x80 + chan, key, 0), duration);
      && r.Some? && r.value.now == p.now
      && Seen(r.value, NotNoteOff) ==
        Insert(Seen(p, NotNoteOff), Timed(p.now + duration * p.uspt, NoteOff(0x80 + chan, key, 0)))
  {
    hide Insert, View;
    PostSeen(p.queue, NoteOff(0x80 + chan, key, 0), duration * p.uspt, p.now, NotNoteOff);
  }

  lemma TempoNotes(p: Player, uspt: Micros)
    requires SetTempo(p, uspt).Some?
    ensures var r := SetTempo(p, uspt).value;
      && r.now == p.now && r.uspt == uspt && p.uspt > 0
      && multiset(Seen(r, NotNoteOff)) == multiset(Map(Moved(p.now, Rescale(p.uspt, uspt)), Seen(p, NotNoteOff)))
  {
    hide Retime, View;
    RetimeMoves(p.queue, Rescale(p.uspt, uspt), p.now);
  }

  lemma PostNextNotes(p: Player)
    requires PostNextSeqEvent(p).Some?
    ensures var r := PostNextSeqEvent(p).value;
      r.now == p.now && r.uspt == p.uspt && Seen(r, NotNoteOff) == Seen(p, NotNoteOff)
  {
    hide NextDelta, Quiet;
    if p.state == Playing && p.target.Some? && NextDelta(p.target.value).1.Some? {
      var (s, ticks) := NextDelta(p.target.value);
      ReferenceUnseen(p.(target := Some(s)), ticks.value * p.uspt);
      SameNotes(p, p.(target := Some(s)));
    }
  }

  lemma ReferenceUnseen(p: Player, delay: Micros)
    ensures var r := Posted(p, SeqRef, delay);
      r.now == p.now && r.uspt == p.uspt && Seen(r, NotNoteOff) == Seen(p, NotNoteOff)
  {
    PostedQuiet(p, SeqRef, delay, NotNoteOff);
  }

  lemma SameNotes(p: Player, r: Player)
    requires r.queue == p.queue && r.now == p.now
    ensures Seen(r, NotNoteOff) == Seen(p, NotNoteOff)
  {
  }

  // What an event of the sequence does to the pending note-offs.
  predicate NotesAfter(
    before: seq<Timed>, after: seq<Timed>, now: int, oldUspt: Micros, newUspt: Micros, note: Option<Note>, tempo: bool)
  {
    if tempo then
      oldUspt > 0 && multiset(after) == multiset(Map(Moved(now, Rescale(oldUspt, newUspt)), before))
    else
      && newUspt == oldUspt
      && multiset(after) == multiset(before)
        + if note.Some? then multiset{Timed(now + note.value.duration * oldUspt, note.value.off)} else multiset{}
  }

  lemma SeqEventNotes(p: Player, e: Event, a: Answer)
    requires HandleSeqEvent(p, e, a).Some? && HasRoom(p) && p.state == Playing && !e.SeqEnd?
    requires e.Tempo? ==> e.metaStatus == TrackReader.META && e.metaType == TrackReader.META_TEMPO
    requires var n := NewNote(p, e, a); n.Some? ==> n.value.duration * p.uspt < AL_EVTQ_END
    ensures var r := HandleSeqEvent(p, e, a).value;
      && r.now == p.now
      && NotesAfter(Seen(p, NotNoteOff), Seen(r, NotNoteOff), p.now, p.uspt, r.uspt, NewNote(p, e, a), e.Tempo?)
  {
    hide HandleMidi, SetTempo, PostNextSeqEvent, Seen, Insert, Map, Moved, Rescale;
    match e
    case SeqMidi(status, byte1, byte2, duration, ticks) =>
      var p1 := HandleMidi(p, status, byte1, byte2, duration, a).value;
      MidiNotes(p, status, byte1, byte2, duration, ticks, a);
      MidiKeepsUspt(p, status, byte1, byte2, duration, a);
      PostNextNotes(p1);
      var n := NewNote(p, e, a);
      if n.Some? {
        InsertAdds(Seen(p, NotNoteOff), Timed(p.now + n.value.duration * p.uspt, n.value.off));
      }
    case Tempo(status, kind, _, _, _, _) =>
      TempoNotes(p, UsptFromTempo(p.target, a));
      PostNextNotes(HandleMeta(p, status, kind, a).value);
    case _ => PostNextNotes(p);
  }

  lemma MidiKeepsUspt(p: Player, status: u8, byte1: u8, byte2: u8, duration: u32, a: Answer)
    requires HandleMidi(p, status, byte1, byte2, duration, a).Some?
    ensures HandleMidi(p, status, byte1, byte2, duration, a).value.uspt == p.uspt
  {
    hide HandleMidi;
    Hides();
    MidiQuiet(p, status, byte1, byte2, duration, a, NotSeqRef);
  }

  // ---- one step of a run, in ticks ----

  // The clock after one act.
  function NextClock(p: Player, act: Act, c: Clock): Clock {
    if HandlesSequence(p, act) && p.target.Some? && NextEvent(p.target.value).Some? && Do(p, act).Some? then
      Clock(p.now, c.tick + NextEvent(p.target.value).value.ticks, Do(p, act).value.uspt)
    else c
  }

  // The note-off that an act dispatches, and the one that it schedules, by tick.
  function EndedBy(p: Player, act: Act, c: Clock): multiset<Deadline> {
    if act.Iterate? && p.next.NoteOff? then multiset{Deadline(TickAt(c, p.now), p.next)} else multiset{}
  }

  function NoteOf(p: Player, act: Act): Option<Note> {
    if HandlesSequence(p, act) && p.target.Some? && NextEvent(p.target.value).Some? then
      NewNote(p, NextEvent(p.target.value).value.event, act.answer)
    else None
  }

  function StruckBy(p: Player, act: Act, c: Clock): multiset<Deadline> {
    var n := NoteOf(p, act);
    if n.Some? then multiset{Deadline(NextClock(p, act, c).tick + n.value.duration, n.value.off)} else multiset{}
  }

  // Every pending note-off is on the beat.
  predicate InBeat(p: Player, c: Clock) {
    c.uspt == p.uspt > 0 && AllOnBeat(c, Pending(p, NotNoteOff))
  }

  lemma {:induction false} RestOnBeat(c: Clock, x: Timed, rest: seq<Timed>)
    ensures Map(DeadlineOf(c), [x] + rest) == [DeadlineOf(c)(x)] + Map(DeadlineOf(c), rest)
  {
    assert ([x] + rest)[1..] == rest;
  }

  // Other acts leave the clock and the note-offs alone, and dispatch at most one.
  lemma OtherNotes(p: Player, act: Act, c: Clock)
    requires InBeat(p, c) && p.state == Playing && !HandlesSequence(p, act) && !HandlesTempo(p, act)
    requires Do(p, act).Some? && Do(p, act).value.state == Playing
    ensures var r := Do(p, act).value;
      && InBeat(r, c)
      && Deadlines(c, Pending(r, NotNoteOff)) + EndedBy(p, act, c) == Deadlines(c, Pending(p, NotNoteOff))
  {
    hide Dispatch, Advance, Called, Seen, Quiet, Pending, Deadlines, TickAt, OnBeat;
    PendingNotes(p, c);
    match act
    case Iterate(a) =>
      var q := Dispatch(p, a).value;
      AdvanceKeepsDelay(q);
      OtherDispatchQuiet(p, a, NotNoteOff);
      OpenQuiet(p, q, NotNoteOff);
      AdvancePending(q, NotNoteOff);
    case Calls(call) =>
      CallQuiet(p, call, NotNoteOff);
      OpenQuiet(p, Called(p, call).value, NotNoteOff);
      PendingNotes(Called(p, call).value, c);
  }

  // The event in hand and the queue.
  lemma PendingNotes(p: Player, c: Clock)
    ensures Deadlines(c, Pending(p, NotNoteOff)) ==
      Deadlines(c, Seen(p, NotNoteOff))
        + if p.next.NoteOff? then multiset{Deadline(TickAt(c, p.now), p.next)} else multiset{}
    ensures AllOnBeat(c, Pending(p, NotNoteOff)) <==>
      AllOnBeat(c, Seen(p, NotNoteOff)) && (p.next.NoteOff? ==> OnBeat(c, p.now))
  {
    hide Seen, OnBeat, TickAt;
    var rest := Seen(p, NotNoteOff);
    if p.next.NoteOff? {
      RestOnBeat(c, Timed(p.now, p.next), rest);
      assert Pending(p, NotNoteOff) == [Timed(p.now, p.next)] + rest;
    } else {
      assert Pending(p, NotNoteOff) == rest;
    }
  }

  lemma OpenQuiet(p: Player, r: Player, drop: Event -> bool)
    requires Quiet(p, r, drop)
    ensures Seen(r, drop) == Seen(p, drop) && r.uspt == p.uspt && r.now == p.now && r.next == p.next
  {
  }

  // The note-offs after an event of the sequence are on the beat of the new clock, at the same
  // ticks; a new one is its duration after the event.
  lemma DeadlinesAfter(
    c: Clock, ticks: nat, before: seq<Timed>, after: seq<Timed>, newUspt: Micros, note: Option<Note>, tempo: bool)
    requires c.uspt > 0 && newUspt > 0 && AllOnBeat(c, before)
    requires forall x <- before :: x.time >= c.time + ticks * c.uspt
    requires NotesAfter(before, after, c.time + ticks * c.uspt, c.uspt, newUspt, note, tempo) && (tempo ==> note.None?)
    ensures var d := Clock(c.time + ticks * c.uspt, c.tick + ticks, newUspt);
      && AllOnBeat(d, after)
      && Deadlines(d, after) == Deadlines(c, before)
        + if note.Some? then multiset{Deadline(d.tick + note.value.duration, note.value.off)} else multiset{}
  {
    hide NotesAfter, OnBeat, TickAt, DeadlineOf, Moved;
    var now := c.time + ticks * c.uspt;
    var m := Clock(now, c.tick + ticks, c.uspt);
    forall x <- before ensures OnBeat(m, x.time) && DeadlineOf(m)(x) == DeadlineOf(c)(x) {
      LaterClock(c, ticks, x.time);
      SameDeadline(c, m, x);
    }
    MapSame(DeadlineOf(c), DeadlineOf(m), before);
    if tempo {
      TempoDeadlines(m, before, after, newUspt, note);
    } else {
      NoteDeadlines(m, before, after, newUspt, note);
    }
  }

  lemma SameDeadline(c: Clock, d: Clock, x: Timed)
    requires TickAt(d, x.time) == TickAt(c, x.time)
    ensures DeadlineOf(d)(x) == DeadlineOf(c)(x)
  {
  }

  lemma TempoDeadlines(m: Clock, before: seq<Timed>, after: seq<Timed>, newUspt: Micros, note: Option<Note>)
    requires newUspt > 0 && AllOnBeat(m, before) && NotesAfter(before, after, m.time, m.uspt, newUspt, note, true)
    ensures AllOnBeat(m.(uspt := newUspt), after) && Deadlines(m.(uspt := newUspt), after) == Deadlines(m, before)
  {
    hide OnBeat, DeadlineOf, Moved, Rescale;
    var d, f := m.(uspt := newUspt), Moved(m.time, Rescale(m.uspt, newUspt));
    var moved := Map(f, before);
    forall x <- before ensures OnBeat(d, f(x).time) && DeadlineOf(d)(f(x)) == DeadlineOf(m)(x) {
      NewTempoKeepsTick(m, newUspt, x);
    }
    MapTwice(f, DeadlineOf(d), DeadlineOf(m), before);
    MapPermutes(DeadlineOf(d), after, moved);
    forall y <- after ensures OnBeat(d, y.time) {
      assert y in multiset(moved);
      InMap(f, before, y);
    }
  }

  lemma NoteDeadlines(m: Clock, before: seq<Timed>, after: seq<Timed>, newUspt: Micros, note: Option<Note>)
    requires newUspt > 0 && AllOnBeat(m, before) && NotesAfter(before, after, m.time, m.uspt, newUspt, note, false)
    ensures newUspt == m.uspt && AllOnBeat(m, after)
    ensures Deadlines(m, after) == Deadlines(m, before)
      + if note.Some? then multiset{Deadline(m.tick + note.value.duration, note.value.off)} else multiset{}
  {
    hide OnBeat, TickAt, AllOnBeat, Map;
    if note.Some? {
      var x := Timed(m.time + note.value.duration * m.uspt, note.value.off);
      IsBeat(m, note.value.duration);
      MapPermutes(DeadlineOf(m), after, [x] + before);
      RestOnBeat(m, x, before);
      OneMoreOnBeat(m, x, before);
      BeatPermutes(m, after, [x] + before);
    } else {
      MapPermutes(DeadlineOf(m), after, before);
      BeatPermutes(m, after, before);
    }
  }

  lemma OneMoreOnBeat(c: Clock, x: Timed, a: seq<Timed>)
    requires OnBeat(c, x.time) && AllOnBeat(c, a)
    ensures AllOnBeat(c, [x] + a)
  {
  }

  lemma BeatPermutes(c: Clock, a: seq<Timed>, b: seq<Timed>)
    requires multiset(a) == multiset(b) && AllOnBeat(c, b)
    ensures AllOnBeat(c, a)
  {
    hide OnBeat;
    forall x <- a ensures OnBeat(c, x.time) {
      assert x in multiset(b);
    }
  }

  lemma SequenceNotes(p: Player, act: Act, c: Clock, s: Standing)
    requires InBeat(p, c) && Sane(p) && p.state == Playing && HandlesSequence(p, act) && p.target == Some(s)
    requires HasRoom(p)
    requires Do(p, act).Some? && Do(p, act).value.state == Playing && Do(p, act).value.uspt > 0
    requires NextEvent(s).Some? && p.now == c.time + NextEvent(s).value.ticks * c.uspt
    requires var n := NoteOf(p, act); n.Some? ==> n.value.duration * p.uspt < AL_EVTQ_END
    ensures var r, d := Do(p, act).value, NextClock(p, act, c);
      && InBeat(r, d)
      && Deadlines(d, Pending(r, NotNoteOff)) == Deadlines(c, Pending(p, NotNoteOff)) + StruckBy(p, act, c)
  {
    hide HandleSeqEvent, NextEvent, Advance, NotesAfter, OnBeat, Seen, NewNote, Deadlines, Pending, NoteOf, AllOnBeat;
    hide HasRoom, Sane;
    var e := NextEvent(s).value;
    var p1 := p.(target := Some(e.next));
    var q := HandleSeqEvent(p1, e.event, act.answer).value;
    NotEnding(p, act, s);
    SequenceHandled(p, act, s);
    AdvancePending(q, NotNoteOff);
    AdvanceKeepsDelay(q);
    SeenLater(p);
    PendingNotes(p, c);
    BeatUspt(p, c);
    DeadlinesAfter(c, e.ticks, Seen(p, NotNoteOff), Seen(q, NotNoteOff), q.uspt, NoteOf(p, act), e.event.Tempo?);
  }

  lemma SequenceHandled(p: Player, act: Act, s: Standing)
    requires HandlesSequence(p, act) && p.target == Some(s) && p.state == Playing && HasRoom(p)
    requires NextEvent(s).Some? && !NextEvent(s).value.event.SeqEnd?
    requires var e := NextEvent(s).value; HandleSeqEvent(p.(target := Some(e.next)), e.event, act.answer).Some?
    requires var n := NoteOf(p, act); n.Some? ==> n.value.duration * p.uspt < AL_EVTQ_END
    ensures var e := NextEvent(s).value;
      var q := HandleSeqEvent(p.(target := Some(e.next)), e.event, act.answer).value;
      && q.now == p.now
      && NotesAfter(Seen(p, NotNoteOff), Seen(q, NotNoteOff), p.now, p.uspt, q.uspt, NoteOf(p, act), e.event.Tempo?)
      && (e.event.Tempo? ==> NoteOf(p, act).None?)
  {
    hide HandleSeqEvent, NextEvent, NotesAfter, Seen, NewNote;
    var e := NextEvent(s).value;
    var p1 := p.(target := Some(e.next));
    SameNotes(p, p1);
    NewNoteSame(p, p1, e.event, act.answer);
    EventIsTempo(s);
    SeqEventNotes(p1, e.event, act.answer);
    NoteIsNoTempo(p1, e.event, act.answer);
  }

  lemma NewNoteSame(p: Player, r: Player, e: Event, a: Answer)
    requires r.idle == p.idle
    ensures NewNote(r, e, a) == NewNote(p, e, a)
  {
  }

  lemma NoteIsNoTempo(p: Player, e: Event, a: Answer)
    ensures e.Tempo? ==> NewNote(p, e, a).None?
  {
  }

  lemma EventIsTempo(s: Standing)
    requires NextEvent(s).Some?
    ensures var e := NextEvent(s).value.event;
      e.Tempo? ==> e.metaStatus == TrackReader.META && e.metaType == TrackReader.META_TEMPO
  {
    hide NextEvent;
    NextEventParts(s);
  }

  lemma NotEnding(p: Player, act: Act, s: Standing)
    requires HandlesSequence(p, act) && p.target == Some(s) && NextEvent(s).Some?
    requires Do(p, act).Some? && Do(p, act).value.state == Playing
    ensures !NextEvent(s).value.event.SeqEnd?
  {
    hide NextEvent, HandleMidi, HandleMeta, PostNextSeqEvent, Posted;
    var e := NextEvent(s).value;
    if e.event.SeqEnd? {
      var p1 := p.(target := Some(e.next));
      PostedState(p1.(state := Stopping), StopEvent, AL_EVTQ_END);
    }
  }

  lemma SeenLater(p: Player)
    ensures forall x <- Seen(p, NotNoteOff) :: x.time >= p.now
  {
    AbsSorted(p.queue, p.now);
    KeepSorted(Abs(p.queue, p.now), NotNoteOff);
  }

  // ---- whole runs ----

  // The note-offs of the notes that a run starts from its sequence, each at the tick of its
  // note-on plus its duration; the note-offs it dispatches, each at the tick of its time; and
  // the clock.
  datatype Score = Score(clock: Clock, struck: multiset<Deadline>, ended: multiset<Deadline>)

  function ScoreOf(p: Player, acts: seq<Act>, c: Clock): Score
    requires RunPlayer(p, acts).Some?
    decreases |acts|
  {
    if acts == [] then Score(c, multiset{}, multiset{})
    else
      var n := |acts| - 1;
      var q, before := RunPlayer(p, acts[..n]).value, ScoreOf(p, acts[..n], c);
      Score(
        NextClock(q, acts[n], before.clock),
        before.struck + StruckBy(q, acts[n], before.clock),
        before.ended + EndedBy(q, acts[n], before.clock))
  }

  // No tempo is as fast as to leave no microsecond per tick, and no note as long as to be put
  // off to the end of the queue.
  predicate Audible(p: Player, acts: seq<Act>)
    requires RunPlayer(p, acts).Some?
    decreases |acts|
  {
    && RunPlayer(p, acts).value.uspt > 0
    && (acts != [] ==>
      var n := |acts| - 1;
      && Audible(p, acts[..n])
      && var q := RunPlayer(p, acts[..n]).value;
        NoteOf(q, acts[n]).Some? ==> NoteOf(q, acts[n]).value.duration * q.uspt < AL_EVTQ_END)
  }

  lemma ScoreStep(p: Player, act: Act, c: Clock, s: Standing, start: int, uspt: Micros, played: seq<Played>)
    requires InTime(p, s, start, uspt, played) && InBeat(p, c) && c.time == LastTime(played, start)
    requires p.uspt == LastUspt(played, uspt)
    requires Do(p, act).Some? && Do(p, act).value.state == Playing && !HandlesTempo(p, act)
    requires HandlesSequence(p, act) ==>
      HasRoom(p) && NextDelay(Do(p, act).value) < AL_EVTQ_END && Do(p, act).value.uspt > 0
    requires NoteOf(p, act).Some? ==> NoteOf(p, act).value.duration * p.uspt < AL_EVTQ_END
    ensures var r, d := Do(p, act).value, NextClock(p, act, c);
      && InBeat(r, d)
      && Deadlines(d, Pending(r, NotNoteOff)) + EndedBy(p, act, c) ==
        Deadlines(c, Pending(p, NotNoteOff)) + StruckBy(p, act, c)
      && d.time == if HandlesSequence(p, act) then p.now else c.time
  {
    hide Do, InBeat, Deadlines, NextEvent, Sane, DueAt, NextDelta, MergeRuns.RunOf, NoneDrifts, Pending, NextDelay;
    hide HasRoom;
    if HandlesSequence(p, act) {
      var here := MergeRuns.RunOf(s, |played|).value.last;
      InTimeStep(p, act, s, start, uspt, played);
      NextDeltaPredicts(here);
      DueNow(p);
      BeatUspt(p, c);
      SequenceNotes(p, act, c, p.target.value);
    } else {
      OtherNotes(p, act, c);
    }
  }

  lemma BeatUspt(p: Player, c: Clock)
    requires InBeat(p, c)
    ensures c.uspt == p.uspt
  {
  }

  // For any sequence and any interleaving: the note-offs dispatched and those still pending
  // are those of the notes started (and those pending at the start), each at exactly the tick
  // of its note-on plus its duration, whatever tempo changes come in between.
  lemma {:induction false} NoTickIsLost(p: Player, a: Answer, s: Standing, acts: seq<Act>, c: Clock)
    requires Sane(p) && p.state != Playing && p.next.PlayEvent? && p.target == Some(s) && s.valid != {} && p.free > 0
    requires Step(p, a).Some? && NextDelay(Step(p, a).value) < AL_EVTQ_END
    requires Steady(Step(p, a).value, acts) && Audible(Step(p, a).value, acts) && OwnTempo(Step(p, a).value, acts)
    requires c == Clock(p.now, 0, p.uspt) && InBeat(Step(p, a).value, c)
    ensures var start := Step(p, a).value;
      var r, score := RunPlayer(start, acts).value, ScoreOf(start, acts, c);
      && InBeat(r, score.clock) && score.clock.time == LastTime(PlayedIn(start, acts), p.now)
      && Deadlines(score.clock, Pending(r, NotNoteOff)) + score.ended ==
        Deadlines(c, Pending(start, NotNoteOff)) + score.struck
    decreases |acts|
  {
    hide Step, Do, InBeat, InTime, HandlesSequence, HandlesTempo, NextEvent, NextDelay, Sane, HasRoom;
    hide NextClock, StruckBy, EndedBy, NoteOf, Deadlines, Pending;
    var start := Step(p, a).value;
    if acts != [] {
      var n := |acts| - 1;
      var q, before := RunPlayer(start, acts[..n]).value, ScoreOf(start, acts[..n], c);
      NoTickIsLost(p, a, s, acts[..n], c);
      NeverDrifts(p, a, s, acts[..n]);
      PlayKeepsTempo(p, a, s);
      TempoIsLast(start, acts[..n]);
      ScoreStep(q, acts[n], before.clock, s, p.now, p.uspt, PlayedIn(start, acts[..n]));
      PlayedNext(start, acts, q, s, p.now, p.uspt, PlayedIn(start, acts[..n]));
      Balance(Deadlines(c, Pending(start, NotNoteOff)), Deadlines(before.clock, Pending(q, NotNoteOff)),
        Deadlines(NextClock(q, acts[n], before.clock), Pending(RunPlayer(start, acts).value, NotNoteOff)),
        before.struck, before.ended, StruckBy(q, acts[n], before.clock), EndedBy(q, acts[n], before.clock));
    }
  }

  lemma PlayKeepsTempo(p: Player, a: Answer, s: Standing)
    requires Sane(p) && p.state != Playing && p.next.PlayEvent? && p.target == Some(s) && s.valid != {} && p.free > 0
    requires Step(p, a).Some? && NextDelay(Step(p, a).value) < AL_EVTQ_END
    ensures Step(p, a).value.uspt == p.uspt && Sane(Step(p, a).value)
  {
    hide Step, Sane, NextDelta, NextDelay;
    PlayStep(p, a, s);
    DoIsStep(p, Iterate(a));
    DoSane(p, Iterate(a));
  }

  lemma Balance<T>(
    first: multiset<T>, before: multiset<T>, after: multiset<T>,
    struck: multiset<T>, ended: multiset<T>, more: multiset<T>, fewer: multiset<T>)
    requires before + ended == first + struck && after + fewer == before + more
    ensures after + (ended + fewer) == first + (struck + more)
  {
    assert after + (ended + fewer) == (after + fewer) + ended;
    assert before + more + ended == (before + ended) + more;
  }

  lemma {:induction false} PlayedNext(
    start: Player, acts: seq<Act>, q: Player, s: Standing, time: int, uspt: Micros, played: seq<Played>)
    requires acts != [] && RunPlayer(start, acts).Some? && RunPlayer(start, acts[..|acts| - 1]) == Some(q)
    requires played == PlayedIn(start, acts[..|acts| - 1])
    requires InTime(q, s, time, uspt, played) && RunPlayer(start, acts).value.state == Playing
    requires var act := acts[|acts| - 1];
      HandlesSequence(q, act) ==> HasRoom(q) && NextDelay(RunPlayer(start, acts).value) < AL_EVTQ_END
    ensures LastTime(PlayedIn(start, acts), time) ==
      if HandlesSequence(q, acts[|acts| - 1]) then q.now else LastTime(played, time)
  {
    hide Do, InTime, HandlesSequence, NextEvent, NextDelay, HasRoom;
    InTimeStep(q, acts[|acts| - 1], s, time, uspt, played);
  }

  // ---- notes that outlast the run ----

  lemma {:induction false} PendingOff(r: Player, x: Timed)
    requires x.evt.NoteOff?
    ensures multiset(Pending(r, Other(x.evt)))[x] == multiset(Pending(r, NotNoteOff))[x]
  {
    hide Seen;
    SeenOff(r, x);
    var inHand := if r.next.NoteOff? then [Timed(r.now, r.next)] else [];
    var mine := if r.next == x.evt then [Timed(r.now, r.next)] else [];
    assert Pending(r, NotNoteOff) == inHand + Seen(r, NotNoteOff);
    assert Pending(r, Other(x.evt)) == mine + Seen(r, Other(x.evt));
    assert multiset(inHand)[x] == multiset(mine)[x];
  }

  lemma {:induction false} SeenOff(r: Player, x: Timed)
    requires x.evt.NoteOff?
    ensures multiset(Seen(r, Other(x.evt)))[x] == multiset(Seen(r, NotNoteOff))[x]
  {
    KeepIsFilter(Abs(r.queue, r.now), Other(x.evt), x);
    KeepIsFilter(Abs(r.queue, r.now), NotNoteOff, x);
  }

  lemma PendingIsOff(r: Player, x: Timed)
    requires x in Pending(r, NotNoteOff)
    ensures x.evt.NoteOff?
  {
    if x.evt != r.next || x.time != r.now || !r.next.NoteOff? {
      KeepIsFilter(Abs(r.queue, r.now), NotNoteOff, x);
      assert x in multiset(Seen(r, NotNoteOff));
    }
  }

  // A note-off that is pending behind a steady run is on the beat, and whatever comes next that
  // does not disturb it, the end of the sequence included, takes it in hand at its time; equal
  // ones, as many of them.
  lemma {:induction false} PendingEndsOnBeat(r: Player, c: Clock, tail: seq<Act>, x: Timed)
    requires Fits(r.queue) && InBeat(r, c) && x in Pending(r, NotNoteOff)
    requires RunPlayer(r, tail).Some? && Undisturbed(r, tail, x.evt) && RunPlayer(r, tail).value.now > x.time
    ensures OnBeat(c, x.time) && x in InHand(r, tail)
    ensures multiset(InHand(r, tail))[x] >= multiset(Pending(r, NotNoteOff))[x]
  {
    hide RunPlayer, Undisturbed, Fits, Pending, InHand, OnBeat, Other;
    PendingIsOff(r, x);
    PendingOff(r, x);
    DispatchedOnTime(r, tail, x);
    assert x in multiset(Pending(r, NotNoteOff)) && x in multiset(InHand(r, tail));
  }

  lemma {:induction false} MapMore<A, B>(f: A -> B, s: seq<A>, t: seq<A>)
    requires multiset(s) <= multiset(t)
    ensures multiset(Map(f, s)) <= multiset(Map(f, t))
  {
    if s != [] {
      assert s[0] in multiset(t);
      var i :| 0 <= i < |t| && t[i] == s[0];
      var rest := t[..i] + t[i + 1..];
      assert t == t[..i] + ([t[i]] + t[i + 1..]);
      RestIsMore(s, t, i);
      MapMore(f, s[1..], rest);
      MapAppend(f, t[..i], t[i + 1..]);
      MapAppend(f, t[..i], [t[i]] + t[i + 1..]);
      assert ([t[i]] + t[i + 1..])[1..] == t[i + 1..];
    }
  }

  lemma {:induction false} RestIsMore<A>(s: seq<A>, t: seq<A>, i: nat)
    requires multiset(s) <= multiset(t) && s != [] && i < |t| && t[i] == s[0]
    ensures multiset(s[1..]) <= multiset(t[..i] + t[i + 1..])
  {
    OneLess(s, 0);
    OneLess(t, i);
    assert s[..0] + s[1..] == s[1..];
  }

  // So every note of a song ends on its tick: during the run, or behind it while the sequence
  // comes to its end.
  lemma {:induction false} EveryNoteEnds(p: Player, a: Answer, s: Standing, acts: seq<Act>, c: Clock, tail: seq<Act>)
    requires Sane(p) && p.state != Playing && p.next.PlayEvent? && p.target == Some(s) && s.valid != {} && p.free > 0
    requires Step(p, a).Some? && NextDelay(Step(p, a).value) < AL_EVTQ_END
    requires Steady(Step(p, a).value, acts) && Audible(Step(p, a).value, acts) && OwnTempo(Step(p, a).value, acts)
    requires c == Clock(p.now, 0, p.uspt) && InBeat(Step(p, a).value, c)
    requires var r := RunPlayer(Step(p, a).value, acts).value;
      RunPlayer(r, tail).Some? && forall x <- Pending(r, NotNoteOff) ::
        Undisturbed(r, tail, x.evt) && RunPlayer(r, tail).value.now > x.time
    ensures var start := Step(p, a).value;
      var r, score := RunPlayer(start, acts).value, ScoreOf(start, acts, c);
      && (forall x <- Pending(r, NotNoteOff) :: OnBeat(score.clock, x.time) && x in InHand(r, tail))
      && Deadlines(c, Pending(start, NotNoteOff)) + score.struck <=
        score.ended + Deadlines(score.clock, InHand(r, tail))
  {
    hide Step, RunPlayer, InBeat, NextDelay, Sane, Pending, Undisturbed, OnBeat, InHand, Map, Audible, OwnTempo;
    hide ScoreOf, Other, HandlesSequence, HasRoom;
    var start := Step(p, a).value;
    var r, score := RunPlayer(start, acts).value, ScoreOf(start, acts, c);
    NoTickIsLost(p, a, s, acts, c);
    PlayKeepsTempo(p, a, s);
    TempoIsLast(start, acts);
    SaneFits(r);
    forall x <- Pending(r, NotNoteOff)
      ensures OnBeat(score.clock, x.time) && x in InHand(r, tail)
      ensures multiset(InHand(r, tail))[x] >= multiset(Pending(r, NotNoteOff))[x]
    {
      PendingEndsOnBeat(r, score.clock, tail, x);
    }
    AllInHand(Pending(r, NotNoteOff), InHand(r, tail));
    MapMore(DeadlineOf(score.clock), Pending(r, NotNoteOff), InHand(r, tail));
  }

  lemma SaneFits(p: Player)
    requires Sane(p)
    ensures Fits(p.queue)
  {
  }

  lemma AllInHand(s: seq<Timed>, t: seq<Timed>)
    requires forall x <- s :: multiset(t)[x] >= multiset(s)[x]
    ensures multiset(s) <= multiset(t)
  {
    forall x ensures multiset(s)[x] <= multiset(t)[x] {
      if x in multiset(s) {
        assert x in s;
      }
    }
  }

  // What a dispatched note-off's tick means: its time is that of the tick, by the clock of the
  // last event of the sequence, and the next event of the sequence is not due before it.
  lemma EndsOnTheTick(p: Player, c: Clock)
    requires InBeat(p, c) && p.next.NoteOff?
    ensures p.now == c.time + (TickAt(c, p.now) - c.tick) * c.uspt
    ensures DueAt(p).Some? ==> p.now <= DueAt(p).value
  {
    hide Seen;
    assert Pending(p, NotNoteOff) == [Timed(p.now, p.next)] + Seen(p, NotNoteOff);
    assert Pending(p, NotNoteOff)[0] == Timed(p.now, p.next);
    var k := BeatIs(c, p.now);
    SeqRefLater(p);
  }

  lemma SeqRefLater(p: Player)
    ensures forall x <- Seen(p, NotSeqRef) :: x.time >= p.now
  {
    AbsSorted(p.queue, p.now);
    KeepSorted(Abs(p.queue, p.now), NotSeqRef);
  }
}
