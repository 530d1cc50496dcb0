// Loops in a compact MIDI track (src/audio/cseq.c). A loop end stores its loop count and the
// current count in the track's own data and jumps back while the current count lasts.
module Loops {
  import opened Machine
  import opened TrackReader
  import opened TrackFrames
  import opened TrackRuns

  // A place between two events, with no section being repeated.
  datatype Place = Place(loc: int, status: u8)

  predicate StandsAt(t: Track, p: Place) {
    t.curLoc == p.loc && t.buLen == 0 && t.lastStatus == p.status
  }

  function TrackAt(p: Place): Track { Track(p.loc, 0, 0, p.status, 0) }

  // A track as it was composed: stretches of events without loops, and loops. A loop has the
  // delta of its start event, the place `head` behind that event, the body, and the delta of
  // its end event with the address of the stored loop count.
  datatype Part =
    | Plain(items: seq<Item>, to: Place)
    | Loop(first: u32, head: int, body: seq<Part>, last: u32, cell: int, count: u8)

  function End(p: Part): Place {
    match p
    case Plain(_, to) => to
    case Loop(_, _, _, _, cell, _) => Place(cell + 6, 0)
  }

  function EndAll(from: Place, parts: seq<Part>): Place
    decreases parts
  {
    if parts == [] then from else EndAll(End(parts[0]), parts[1..])
  }

  // Where the current counts of the loops are.
  function Cells(p: Part): set<int> {
    match p
    case Plain(_, _) => {}
    case Loop(_, _, body, _, cell, _) => {cell + 1} + CellsAll(body)
  }

  function CellsAll(parts: seq<Part>): set<int> {
    if parts == [] then {} else Cells(parts[0]) + CellsAll(parts[1..])
  }

  // What a listener should hear: the body of a loop with count c, and its end event, c + 1
  // times over, on every pass through the loop.
  function Unroll(p: Part): seq<Item> {
    match p
    case Plain(items, _) => items
    case Loop(first, _, body, last, _, count) =>
      [Item(first, LoopStartEvent)] + Repeat(UnrollAll(body) + [Item(last, LoopEndEvent)], count as nat + 1)
  }

  function UnrollAll(parts: seq<Part>): seq<Item> {
    if parts == [] then [] else Unroll(parts[0]) + UnrollAll(parts[1..])
  }

  function Repeat<T>(s: seq<T>, n: nat): seq<T>
    decreases n
  {
    if n == 0 then [] else s + Repeat(s, n - 1)
  }

  // The loop end event lies at `tail`, with its counts at `cell` and a jump to `head`.
  predicate EndLies(m: Bytes, data: set<int>, tail: Place, last: u32, cell: int, head: int) {
    && 0 <= cell && cell + 6 <= |m|
    && {cell, cell + 2, cell + 3, cell + 4, cell + 5} <= data
    && BigEndian(m[cell + 2], m[cell + 3], m[cell + 4], m[cell + 5]) == cell + 6 - head
    && var d := ReadVarLen(m, Only(data, {}), TrackAt(tail));
    && d.Some? && d.value.0 == last
    && var b := GetByte(m, Only(data, {}), d.value.1);
    && b.Some? && b.value.0 == META
    && var c := GetByte(m, Only(data, {}), b.value.1);
    && c.Some? && c.value.0 == LOOP_END_CODE && c.value.1.curLoc == cell && c.value.1.buLen == 0
  }

  predicate Reads(m: Bytes, data: set<int>, from: Place, items: seq<Item>, to: Place) {
    var r := Passes(m, Only(data, {}), TrackAt(from), |items|);
    r.Some? && r.value.items == items && StandsAt(r.value.track, to)
  }

  // The part lies in memory from this place on. The bytes in `data` are never changed, and
  // the loop counters are not among them.
  predicate Lies(m: Bytes, data: set<int>, from: Place, p: Part)
    decreases p
  {
    match p
    case Plain(items, to) => Reads(m, data, from, items, to)
    case Loop(first, head, body, last, cell, count) =>
      && Reads(m, data, from, [Item(first, LoopStartEvent)], Place(head, 0))
      && LiesAll(m, data, Place(head, 0), body)
      && EndLies(m, data, EndAll(Place(head, 0), body), last, cell, head)
      && m[cell] == m[cell + 1] == count < LOOP_FOREVER
      && cell + 1 !in CellsAll(body)
  }

  predicate LiesAll(m: Bytes, data: set<int>, from: Place, parts: seq<Part>)
    decreases parts
  {
    parts != [] ==> Lies(m, data, from, parts[0]) && LiesAll(m, data, End(parts[0]), parts[1..])
  }

  // Reading a part or a sequence of parts from t plays `items`, ends at `to`, and leaves the
  // memory as it was, every counter included.
  ghost predicate Plays(m: Bytes, a: Area, t: Track, items: seq<Item>, r: Bytes, to: Place) {
    var q := Passes(m, a, t, |items|);
    q.Some? && q.value.items == items && q.value.mem == r && StandsAt(q.value.track, to)
  }

  lemma {:induction false} PlaysJoin(
    m: Bytes, a: Area, t: Track, items: seq<Item>, r: Bytes, more: seq<Item>, q: Bytes, to: Place)
    requires Passes(m, a, t, |items|).Some? && Passes(m, a, t, |items|).value.items == items
    requires Passes(m, a, t, |items|).value.mem == r
    requires Plays(r, a, Passes(m, a, t, |items|).value.track, more, q, to)
    ensures Plays(m, a, t, items + more, q, to)
  {
    hide Pass;
    var x := Passes(m, a, t, |items|).value;
    PassesJoin(m, a, t, |items|, |more|, x, Passes(r, a, x.track, |more|).value);
  }

  // Reading does not depend on other loops' counters, nor on stale section pointers.
  lemma PlaysFrame(m: Bytes, a: Area, items: seq<Item>, from: Place, to: Place, n: Bytes, b: Area, t: Track)
    requires Plays(m, a, TrackAt(from), items, m, to)
    requires Agree(m, n, a) && Within(a, b) && StandsAt(t, from)
    ensures Plays(n, b, t, items, n, to)
  {
    hide Pass;
    PassesFrame(m, a, TrackAt(from), n, b, t, |items|);
    var q := Passes(n, b, t, |items|).value;
    assert q.mem == n;
  }

  lemma ReadsPlays(m: Bytes, data: set<int>, from: Place, items: seq<Item>, to: Place, b: Area, t: Track)
    requires Reads(m, data, from, items, to) && Within(Only(data, {}), b) && StandsAt(t, from)
    ensures Plays(m, b, t, items, m, to)
  {
    hide Pass;
    var a := Only(data, {});
    PassesWrites(m, a, TrackAt(from), |items|);
    assert Passes(m, a, TrackAt(from), |items|).value.mem == m;
    PlaysFrame(m, a, items, from, to, m, b, t);
  }

  // ---- the loop end event ----

  function Counted(m: Bytes, cell: int, c: int): Bytes
    requires 0 <= cell && cell + 1 < |m| && 0 <= c < 0x100
  {
    m[cell + 1 := c]
  }

  lemma EndInBounds(m: Bytes, data: set<int>, tail: Place, last: u32, cell: int, head: int)
    requires EndLies(m, data, tail, last, cell, head)
    ensures 0 <= cell && cell + 6 <= |m|
  {
    hide GetByte, ReadVarLen;
  }

  // One pass over the loop end with current count c.
  lemma LoopEndPass(m: Bytes, data: set<int>, b: Area, tail: Place, last: u32, cell: int, head: int, c: u8, t: Track)
    requires EndLies(m, data, tail, last, cell, head) && cell + 1 !in data && c < LOOP_FOREVER
    requires Within(Only(data, {cell + 1}), b) && StandsAt(t, tail)
    ensures Plays(Counted(m, cell, c), b, t, [Item(last, LoopEndEvent)],
      Counted(m, cell, if c == 0 then m[cell] else c - 1), Place(if c == 0 then cell + 6 else head, 0))
  {
    hide ReadVarLen, GetByte;
    var n, a, s := Counted(m, cell, c), Only(data, {}), TrackAt(tail);
    ReadVarLenFrame(m, a, s, n, b, t);
    var s1, t1 := ReadVarLen(m, a, s).value.1, ReadVarLen(n, b, t).value.1;
    GetByteFrame(m, a, s1, n, b, t1);
    var s2, t2 := GetByte(m, a, s1).value.1, GetByte(n, b, t1).value.1;
    GetByteFrame(m, a, s2, n, b, t2);
    var t3 := GetByte(n, b, t2).value.1;
    LoopEndJump(m, b, cell, head, c, t3);
    var step := GetLoopEnd(n, b, t3).value;
    assert GetEvent(n, b, t1) == Some(step);
    assert Pass(n, b, t) == Some(Reading([Item(last, LoopEndEvent)], step.mem, step.track));
    assert Passes(step.mem, b, step.track, 0) == Some(Reading([], step.mem, step.track));
  }

  // And with the current count that stands for a loop without end.
  lemma LoopEndAgain(m: Bytes, data: set<int>, b: Area, tail: Place, last: u32, cell: int, head: int, t: Track)
    requires EndLies(m, data, tail, last, cell, head) && cell + 1 !in data && m[cell + 1] == LOOP_FOREVER
    requires Within(Only(data, {cell + 1}), b) && StandsAt(t, tail)
    ensures Plays(m, b, t, [Item(last, LoopEndEvent)], m, Place(head, 0))
  {
    hide ReadVarLen, GetByte;
    var a, s := Only(data, {}), TrackAt(tail);
    ReadVarLenFrame(m, a, s, m, b, t);
    var s1, t1 := ReadVarLen(m, a, s).value.1, ReadVarLen(m, b, t).value.1;
    GetByteFrame(m, a, s1, m, b, t1);
    var s2, t2 := GetByte(m, a, s1).value.1, GetByte(m, b, t1).value.1;
    GetByteFrame(m, a, s2, m, b, t2);
    var t3 := GetByte(m, b, t2).value.1;
    LoopEndJumpsOn(m, b, cell, head, t3);
    var step := GetLoopEnd(m, b, t3).value;
    assert GetEvent(m, b, t1) == Some(step);
    assert Pass(m, b, t) == Some(Reading([Item(last, LoopEndEvent)], step.mem, step.track));
    assert Passes(step.mem, b, step.track, 0) == Some(Reading([], step.mem, step.track));
  }

  lemma LoopEndJumpsOn(m: Bytes, b: Area, cell: int, head: int, t: Track)
    requires 0 <= cell && cell + 6 <= |m| && m[cell + 1] == LOOP_FOREVER && b.Writes(cell + 1)
    requires b.Reads(cell) && b.Reads(cell + 2) && b.Reads(cell + 3) && b.Reads(cell + 4) && b.Reads(cell + 5)
    requires BigEndian(m[cell + 2], m[cell + 3], m[cell + 4], m[cell + 5]) == cell + 6 - head
    requires t.curLoc == cell && t.buLen == 0
    ensures var r := GetLoopEnd(m, b, t);
      r.Some? && r.value.evt == LoopEndEvent && r.value.mem == m && StandsAt(r.value.track, Place(head, 0))
  {
  }

  lemma LoopEndJump(m: Bytes, b: Area, cell: int, head: int, c: u8, t: Track)
    requires 0 <= cell && cell + 6 <= |m| && c < LOOP_FOREVER && b.Writes(cell + 1)
    requires b.Reads(cell) && b.Reads(cell + 2) && b.Reads(cell + 3) && b.Reads(cell + 4) && b.Reads(cell + 5)
    requires BigEndian(m[cell + 2], m[cell + 3], m[cell + 4], m[cell + 5]) == cell + 6 - head
    requires t.curLoc == cell && t.buLen == 0
    ensures var r := GetLoopEnd(Counted(m, cell, c), b, t);
      && r.Some? && r.value.evt == LoopEndEvent
      && r.value.mem == Counted(m, cell, if c == 0 then m[cell] else c - 1)
      && StandsAt(r.value.track, Place(if c == 0 then cell + 6 else head, 0))
  {
    hide FetchOffset, BigEndian;
    if c > 0 {
      CountedOffset(m, b, cell, head, c - 1);
      assert Counted(m, cell, c)[cell + 1 := c - 1] == Counted(m, cell, c - 1);
    } else {
      assert Counted(m, cell, c)[cell + 1 := m[cell]] == Counted(m, cell, m[cell]);
    }
  }

  lemma CountedOffset(m: Bytes, b: Area, cell: int, head: int, c: u8)
    requires 0 <= cell && cell + 6 <= |m| && b.Reads(cell + 2) && b.Reads(cell + 3) && b.Reads(cell + 4)
    requires b.Reads(cell + 5)
    requires BigEndian(m[cell + 2], m[cell + 3], m[cell + 4], m[cell + 5]) == cell + 6 - head
    ensures FetchOffset(Counted(m, cell, c), b, cell + 2) == Some(cell + 6 - head)
  {
    hide BigEndian;
  }

  // ---- whole loops ----

  function Round(body: seq<Item>, last: u32): seq<Item> { body + [Item(last, LoopEndEvent)] }

  // One round with current count c.
  lemma RoundPlays(
    m: Bytes, data: set<int>, inner: set<int>, body: seq<Item>, last: u32, cell: int, head: int,
    tail: Place, c: u8, t: Track)
    requires Plays(m, Only(data, inner), TrackAt(Place(head, 0)), body, m, tail)
    requires EndLies(m, data, tail, last, cell, head) && cell + 1 !in data && cell + 1 !in inner && c < LOOP_FOREVER
    requires StandsAt(t, Place(head, 0))
    ensures 0 <= cell && cell + 1 < |m|
    ensures Plays(Counted(m, cell, c), Only(data, {cell + 1} + inner), t, Round(body, last),
      Counted(m, cell, if c == 0 then m[cell] else c - 1), Place(if c == 0 then cell + 6 else head, 0))
  {
    hide Pass, Passes, EndLies, GetByte, ReadVarLen;
    EndInBounds(m, data, tail, last, cell, head);
    var n, b := Counted(m, cell, c), Only(data, {cell + 1} + inner);
    PlaysFrame(m, Only(data, inner), body, Place(head, 0), tail, n, b, t);
    LoopEndPass(m, data, b, tail, last, cell, head, c, Passes(n, b, t, |body|).value.track);
    var r := Counted(m, cell, if c == 0 then m[cell] else c - 1);
    PlaysJoin(n, b, t, body, n, [Item(last, LoopEndEvent)], r, Place(if c == 0 then cell + 6 else head, 0));
  }

  // With current count c at the head of the loop, the body runs c + 1 times; then the reader
  // is behind the loop and the stored count is the current one again.
  lemma {:induction false} LoopRuns(
    m: Bytes, data: set<int>, inner: set<int>, body: seq<Item>, last: u32, cell: int, head: int,
    tail: Place, c: u8, t: Track)
    requires Plays(m, Only(data, inner), TrackAt(Place(head, 0)), body, m, tail)
    requires EndLies(m, data, tail, last, cell, head) && cell + 1 !in data && cell + 1 !in inner && c < LOOP_FOREVER
    requires StandsAt(t, Place(head, 0))
    ensures Plays(Counted(m, cell, c), Only(data, {cell + 1} + inner), t, Repeat(Round(body, last), c as nat + 1),
      Counted(m, cell, m[cell]), Place(cell + 6, 0))
    decreases c
  {
    hide Pass, EndLies, GetByte, ReadVarLen;
    RoundPlays(m, data, inner, body, last, cell, head, tail, c, t);
    var n, b := Counted(m, cell, c), Only(data, {cell + 1} + inner);
    var r := Counted(m, cell, if c == 0 then m[cell] else c - 1);
    if c == 0 {
      assert Repeat(Round(body, last), 1) == Round(body, last) + Repeat(Round(body, last), 0) == Round(body, last);
    } else {
      var t2 := Passes(n, b, t, |Round(body, last)|).value.track;
      LoopRuns(m, data, inner, body, last, cell, head, tail, c - 1, t2);
      PlaysJoin(n, b, t, Round(body, last), r, Repeat(Round(body, last), c as nat), Counted(m, cell, m[cell]),
        Place(cell + 6, 0));
    }
  }

  // A loop whose current count is 0xFF never ends: the body runs as often as one reads on.
  lemma {:induction false} LoopRunsForever(
    m: Bytes, data: set<int>, inner: set<int>, body: seq<Item>, last: u32, cell: int,
    head: int, tail: Place, n: nat, t: Track)
    requires Plays(m, Only(data, inner), TrackAt(Place(head, 0)), body, m, tail)
    requires EndLies(m, data, tail, last, cell, head) && cell + 1 !in data && cell + 1 !in inner
    requires m[cell + 1] == LOOP_FOREVER
    requires StandsAt(t, Place(head, 0))
    ensures Plays(m, Only(data, {cell + 1} + inner), t, Repeat(Round(body, last), n), m, Place(head, 0))
    decreases n
  {
    hide Pass, EndLies, GetByte, ReadVarLen;
    if n > 0 {
      var b := Only(data, {cell + 1} + inner);
      PlaysFrame(m, Only(data, inner), body, Place(head, 0), tail, m, b, t);
      LoopEndAgain(m, data, b, tail, last, cell, head, Passes(m, b, t, |body|).value.track);
      PlaysJoin(m, b, t, body, m, [Item(last, LoopEndEvent)], m, Place(head, 0));
      var t2 := Passes(m, b, t, |Round(body, last)|).value.track;
      LoopRunsForever(m, data, inner, body, last, cell, head, tail, n - 1, t2);
      PlaysJoin(m, b, t, Round(body, last), m, Repeat(Round(body, last), n - 1), m, Place(head, 0));
    }
  }

  // A composed track plays its unrolled events, nested loops in full on every pass, and leaves
  // every counter as it found it.
  lemma {:induction false} TrackPlays(m: Bytes, data: set<int>, from: Place, parts: seq<Part>, t: Track)
    requires LiesAll(m, data, from, parts) && data !! CellsAll(parts) && StandsAt(t, from)
    ensures Plays(m, Only(data, CellsAll(parts)), t, UnrollAll(parts), m, EndAll(from, parts))
    decreases parts
  {
    hide Pass;
    if parts != [] {
      var p, rest, a := parts[0], parts[1..], Only(data, CellsAll(parts));
      PartPlays(m, data, from, p);
      PlaysFrame(m, Only(data, Cells(p)), Unroll(p), from, End(p), m, a, t);
      var t1 := Passes(m, a, t, |Unroll(p)|).value.track;
      TrackPlays(m, data, End(p), rest, TrackAt(End(p)));
      PlaysFrame(m, Only(data, CellsAll(rest)), UnrollAll(rest), End(p), EndAll(End(p), rest), m, a, t1);
      PlaysJoin(m, a, t, Unroll(p), m, UnrollAll(rest), m, EndAll(from, parts));
    }
  }

  lemma {:induction false} PartPlays(m: Bytes, data: set<int>, from: Place, p: Part)
    requires Lies(m, data, from, p) && data !! Cells(p)
    ensures Plays(m, Only(data, Cells(p)), TrackAt(from), Unroll(p), m, End(p))
    decreases p
  {
    hide Pass, EndLies, GetByte, ReadVarLen;
    var a := Only(data, Cells(p));
    match p
    case Plain(items, to) =>
      ReadsPlays(m, data, from, items, to, a, TrackAt(from));
    case Loop(first, head, body, last, cell, count) =>
      var start, tail := [Item(first, LoopStartEvent)], EndAll(Place(head, 0), body);
      ReadsPlays(m, data, from, start, Place(head, 0), a, TrackAt(from));
      var t1 := Passes(m, a, TrackAt(from), |start|).value.track;
      TrackPlays(m, data, Place(head, 0), body, TrackAt(Place(head, 0)));
      EndInBounds(m, data, tail, last, cell, head);
      LoopRuns(m, data, CellsAll(body), UnrollAll(body), last, cell, head, tail, count, t1);
      assert Counted(m, cell, count) == m;
      PlaysJoin(m, a, TrackAt(from), start, m, Repeat(Round(UnrollAll(body), last), count as nat + 1), m, End(p));
  }

  // ---- the data in the middle of a track ----

  // After n events of a part its counters are as they were if the reader stands outside every
  // loop with a count, or in its first pass, before the loop end of that pass.
  predicate FirstPass(p: Part, n: nat)
    decreases p
  {
    match p
    case Plain(_, _) => true
    case Loop(_, _, body, _, _, _) =>
      n == 0 || n == |Unroll(p)| || (n <= |UnrollAll(body)| + 1 && FirstPassAll(body, n - 1))
  }

  predicate FirstPassAll(parts: seq<Part>, n: nat)
    decreases parts
  {
    parts == [] ||
    var k := |Unroll(parts[0])|;
    if n <= k then FirstPass(parts[0], n) else FirstPassAll(parts[1..], n - k)
  }

  // Reading a few events in a larger area leaves the same memory.
  lemma {:induction false} KeepFrame(m: Bytes, a: Area, s: Track, b: Area, t: Track, n: nat)
    requires Within(a, b) && Alike(s, t) && Passes(m, a, s, n).Some?
    ensures Passes(m, b, t, n).Some? && Passes(m, b, t, n).value.mem == Passes(m, a, s, n).value.mem
  {
    hide Passes;
    PassesFrame(m, a, s, m, b, t, n);
    PassesWrites(m, a, s, n);
  }

  // A run of n events that begins with k events that leave the memory as it is.
  lemma KeepJoin(m: Bytes, a: Area, t: Track, items: seq<Item>, to: Place, n: nat, t1: Track)
    requires Plays(m, a, t, items, m, to) && t1 == Passes(m, a, t, |items|).value.track && n >= |items|
    requires Passes(m, a, t1, n - |items|).Some?
    ensures Passes(m, a, t, n).Some? && Passes(m, a, t, n).value.mem == Passes(m, a, t1, n - |items|).value.mem
  {
    hide Passes;
    PassesJoin(m, a, t, |items|, n - |items|, Passes(m, a, t, |items|).value, Passes(m, a, t1, n - |items|).value);
  }

  lemma {:induction false} RepeatLength<T>(s: seq<T>, n: nat)
    ensures n > 0 ==> |Repeat(s, n)| == |s| + |Repeat(s, n - 1)|
  {
  }

  // From current count c the counter stays at most c until the loop is over, and is less behind
  // the first loop end.
  lemma {:induction false} CounterStays(
    m: Bytes, data: set<int>, inner: set<int>, body: seq<Item>, last: u32, cell: int, head: int,
    tail: Place, c: u8, t: Track, n: nat)
    requires Plays(m, Only(data, inner), TrackAt(Place(head, 0)), body, m, tail)
    requires EndLies(m, data, tail, last, cell, head) && cell + 1 !in data && cell + 1 !in inner && c < LOOP_FOREVER
    requires StandsAt(t, Place(head, 0)) && n < |Repeat(Round(body, last), c as nat + 1)|
    ensures 0 <= cell && cell + 1 < |m|
    ensures var r := Passes(Counted(m, cell, c), Only(data, {cell + 1} + inner), t, n);
      && r.Some? && |r.value.mem| == |m| && r.value.mem[cell + 1] <= c
      && (n > |body| ==> r.value.mem[cell + 1] < c)
    decreases c
  {
    hide Pass, Passes, EndLies, GetByte, ReadVarLen;
    EndInBounds(m, data, tail, last, cell, head);
    var w, b := Counted(m, cell, c), Only(data, {cell + 1} + inner);
    RepeatLength(Round(body, last), c as nat + 1);
    assert c == 0 ==> Repeat(Round(body, last), c as nat) == [];
    if n <= |body| {
      BodyKeepsCounter(m, data, inner, body, cell, head, tail, c, t, n);
    } else {
      RoundPlays(m, data, inner, body, last, cell, head, tail, c, t);
      var k := |Round(body, last)|;
      var r := Passes(w, b, t, k).value;
      CounterStays(m, data, inner, body, last, cell, head, tail, c - 1, r.track, n - k);
      PassesJoin(w, b, t, k, n - k, r, Passes(r.mem, b, r.track, n - k).value);
    }
  }

  lemma BodyKeepsCounter(
    m: Bytes, data: set<int>, inner: set<int>, body: seq<Item>, cell: int, head: int,
    tail: Place, c: u8, t: Track, n: nat)
    requires Plays(m, Only(data, inner), TrackAt(Place(head, 0)), body, m, tail)
    requires 0 <= cell && cell + 1 < |m| && cell + 1 !in data && cell + 1 !in inner
    requires StandsAt(t, Place(head, 0)) && n <= |body|
    ensures var r := Passes(Counted(m, cell, c), Only(data, {cell + 1} + inner), t, n);
      r.Some? && |r.value.mem| == |m| && r.value.mem[cell + 1] == c
  {
    hide Pass, Passes;
    var a := Only(data, inner);
    PassesPrefix(m, a, TrackAt(Place(head, 0)), n, |body|);
    PassesFrame(m, a, TrackAt(Place(head, 0)), Counted(m, cell, c), Only(data, {cell + 1} + inner), t, n);
  }

  // A track read up to its n-th event has left its data as they were if and only if it stands
  // in no later pass of any loop.
  lemma {:induction false} TrackKeepsIff(m: Bytes, data: set<int>, from: Place, parts: seq<Part>, t: Track, n: nat)
    requires LiesAll(m, data, from, parts) && data !! CellsAll(parts) && StandsAt(t, from) && n <= |UnrollAll(parts)|
    ensures Passes(m, Only(data, CellsAll(parts)), t, n).Some?
    ensures Passes(m, Only(data, CellsAll(parts)), t, n).value.mem == m <==> FirstPassAll(parts, n)
    decreases parts
  {
    hide Pass, Passes, FirstPass;
    if parts == [] {
      NothingRead(m, Only(data, {}), t);
    } else {
      var p, rest, a := parts[0], parts[1..], Only(data, CellsAll(parts));
      var k := |Unroll(p)|;
      if n <= k {
        PartKeepsIff(m, data, from, p, n);
        KeepFrame(m, Only(data, Cells(p)), TrackAt(from), a, t, n);
      } else {
        PartPlays(m, data, from, p);
        PlaysFrame(m, Only(data, Cells(p)), Unroll(p), from, End(p), m, a, t);
        var t1 := Passes(m, a, t, k).value.track;
        TrackKeepsIff(m, data, End(p), rest, TrackAt(End(p)), n - k);
        KeepFrame(m, Only(data, CellsAll(rest)), TrackAt(End(p)), a, t1, n - k);
        KeepJoin(m, a, t, Unroll(p), End(p), n, t1);
      }
    }
  }

  lemma {:induction false} NothingRead(m: Bytes, a: Area, t: Track)
    ensures Passes(m, a, t, 0) == Some(Reading([], m, t))
  {
  }

  lemma {:induction false} PartKeepsIff(m: Bytes, data: set<int>, from: Place, p: Part, n: nat)
    requires Lies(m, data, from, p) && data !! Cells(p) && n <= |Unroll(p)|
    ensures Passes(m, Only(data, Cells(p)), TrackAt(from), n).Some?
    ensures Passes(m, Only(data, Cells(p)), TrackAt(from), n).value.mem == m <==> FirstPass(p, n)
    decreases p
  {
    hide Pass, Passes, EndLies;
    var a := Only(data, Cells(p));
    PartPlays(m, data, from, p);
    if n == 0 {
      NothingRead(m, a, TrackAt(from));
    } else if n < |Unroll(p)| {
      match p
      case Plain(items, to) =>
        PassesPrefix(m, a, TrackAt(from), n, |items|);
        PassesWrites(m, a, TrackAt(from), n);
        assert Passes(m, a, TrackAt(from), n).value.mem == m;
      case Loop(first, head, body, last, cell, count) =>
        LoopKeepsIff(m, data, from, p, n);
    }
  }

  // Inside a loop, behind its start and before its last end.
  lemma {:induction false} LoopKeepsIff(m: Bytes, data: set<int>, from: Place, p: Part, n: nat)
    requires p.Loop? && Lies(m, data, from, p) && data !! Cells(p) && 0 < n < |Unroll(p)|
    ensures Passes(m, Only(data, Cells(p)), TrackAt(from), n).Some?
    ensures Passes(m, Only(data, Cells(p)), TrackAt(from), n).value.mem == m <==> FirstPass(p, n)
    decreases p, 0
  {
    hide Pass, Passes, EndLies, FirstPassAll;
    var Loop(first, head, body, last, cell, count) := p;
    var a, inner, items := Only(data, Cells(p)), CellsAll(body), UnrollAll(body);
    var start, tail := [Item(first, LoopStartEvent)], EndAll(Place(head, 0), body);
    ReadsPlays(m, data, from, start, Place(head, 0), a, TrackAt(from));
    var t1 := Passes(m, a, TrackAt(from), 1).value.track;
    if n - 1 <= |items| {
      TrackKeepsIff(m, data, Place(head, 0), body, TrackAt(Place(head, 0)), n - 1);
      KeepFrame(m, Only(data, inner), TrackAt(Place(head, 0)), a, t1, n - 1);
    } else {
      TrackPlays(m, data, Place(head, 0), body, TrackAt(Place(head, 0)));
      EndInBounds(m, data, tail, last, cell, head);
      assert Counted(m, cell, count) == m;
      CounterStays(m, data, inner, items, last, cell, head, tail, count, t1, n - 1);
    }
    KeepJoin(m, a, TrackAt(from), start, Place(head, 0), n, t1);
  }
}
