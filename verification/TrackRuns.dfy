// A track read event by event: each event of a track is preceded by its delta time.
module TrackRuns {
  import opened Machine
  import opened TrackReader
  import opened TrackFrames

  datatype Item = Item(delta: u32, evt: TrackEvent)

  datatype Reading = Reading(items: seq<Item>, mem: Bytes, track: Track)

  // One delta and the event behind it.
  function Pass(mem: Bytes, area: Area, t: Track): (r: Option<Reading>)
    ensures r.Some? ==> |r.value.items| == 1
  {
    var (d, t1) :- ReadVarLen(mem, area, t);
    var s :- GetEvent(mem, area, t1);
    Some(Reading([Item(d, s.evt)], s.mem, s.track))
  }

  function Passes(mem: Bytes, area: Area, t: Track, n: nat): Option<Reading>
    decreases n
  {
    if n == 0 then Some(Reading([], mem, t))
    else
      var r :- Pass(mem, area, t);
      var q :- Passes(r.mem, area, r.track, n - 1);
      Some(Reading(r.items + q.items, q.mem, q.track))
  }

  lemma {:induction false} PassesLength(mem: Bytes, area: Area, t: Track, n: nat)
    ensures Passes(mem, area, t, n).Some? ==> |Passes(mem, area, t, n).value.items| == n
    decreases n
  {
    hide Pass;
    if n > 0 && Pass(mem, area, t).Some? {
      var r := Pass(mem, area, t).value;
      PassesLength(r.mem, area, r.track, n - 1);
    }
  }

  lemma {:induction false} PassesJoin(mem: Bytes, area: Area, t: Track, n: nat, k: nat, r: Reading, q: Reading)
    requires Passes(mem, area, t, n) == Some(r) && Passes(r.mem, area, r.track, k) == Some(q)
    ensures Passes(mem, area, t, n + k) == Some(Reading(r.items + q.items, q.mem, q.track))
    decreases n
  {
    hide Pass;
    if n == 0 {
      assert [] + q.items == q.items;
    } else {
      var first := Pass(mem, area, t).value;
      var rest := Passes(first.mem, area, first.track, n - 1).value;
      PassesJoin(first.mem, area, first.track, n - 1, k, rest, q);
      assert first.items + (rest.items + q.items) == first.items + rest.items + q.items;
    }
  }

  // The last pass of a longer run.
  lemma {:induction false} PassesLast(mem: Bytes, area: Area, t: Track, n: nat)
    requires Passes(mem, area, t, n + 1).Some?
    ensures var r := Passes(mem, area, t, n);
      r.Some? && var q := Pass(r.value.mem, area, r.value.track);
      q.Some? && Passes(mem, area, t, n + 1) == Some(Reading(r.value.items + q.value.items, q.value.mem, q.value.track))
    decreases n
  {
    hide Pass;
    var first := Pass(mem, area, t).value;
    if n == 0 {
      assert Passes(first.mem, area, first.track, 0) == Some(Reading([], first.mem, first.track));
      assert first.items + [] == first.items == [] + first.items;
    } else {
      PassesLast(first.mem, area, first.track, n - 1);
      var rest := Passes(first.mem, area, first.track, n - 1).value;
      var last := Pass(rest.mem, area, rest.track).value;
      assert first.items + (rest.items + last.items) == first.items + rest.items + last.items;
    }
  }

  lemma {:induction false} PassesPrefix(m: Bytes, a: Area, t: Track, k: nat, n: nat)
    requires k <= n && Passes(m, a, t, n).Some?
    ensures Passes(m, a, t, k).Some? && Passes(m, a, t, k).value.items <= Passes(m, a, t, n).value.items
    decreases n
  {
    hide Pass;
    if k < n {
      PassesLast(m, a, t, n - 1);
      PassesPrefix(m, a, t, k, n - 1);
    }
  }

  // ---- the same reading from another memory, area or section pointer ----

  predicate SameReading(r: Reading, n: Bytes, q: Reading, a: Area) {
    q.items == r.items && Alike(r.track, q.track) && Overlaid(q.mem, n, r.mem, a)
  }

  lemma PassFrame(m: Bytes, a: Area, s: Track, n: Bytes, b: Area, t: Track)
    requires Agree(m, n, a) && Within(a, b) && Alike(s, t) && Pass(m, a, s).Some?
    ensures Pass(n, b, t).Some? && SameReading(Pass(m, a, s).value, n, Pass(n, b, t).value, a)
  {
    hide ReadVarLen, GetEvent;
    ReadVarLenFrame(m, a, s, n, b, t);
    GetEventFrame(m, a, ReadVarLen(m, a, s).value.1, n, b, ReadVarLen(n, b, t).value.1);
  }

  lemma PassWrites(m: Bytes, a: Area, t: Track)
    requires Pass(m, a, t).Some?
    ensures |Pass(m, a, t).value.mem| == |m|
    ensures forall i :: 0 <= i < |m| && !a.Writes(i) ==> Pass(m, a, t).value.mem[i] == m[i]
  {
    hide ReadVarLen, GetEvent;
    GetEventWrites(m, a, ReadVarLen(m, a, t).value.1);
  }

  lemma {:induction false} PassesFrame(m: Bytes, a: Area, s: Track, n: Bytes, b: Area, t: Track, k: nat)
    requires Agree(m, n, a) && Within(a, b) && Alike(s, t) && Passes(m, a, s, k).Some?
    ensures Passes(n, b, t, k).Some? && SameReading(Passes(m, a, s, k).value, n, Passes(n, b, t, k).value, a)
    decreases k
  {
    hide Pass;
    if k > 0 {
      PassFrame(m, a, s, n, b, t);
      PassWrites(m, a, s);
      var r, q := Pass(m, a, s).value, Pass(n, b, t).value;
      PassesFrame(r.mem, a, r.track, q.mem, b, q.track, k - 1);
    }
  }

  lemma {:induction false} PassesWrites(m: Bytes, a: Area, t: Track, k: nat)
    requires Passes(m, a, t, k).Some?
    ensures |Passes(m, a, t, k).value.mem| == |m|
    ensures forall i :: 0 <= i < |m| && !a.Writes(i) ==> Passes(m, a, t, k).value.mem[i] == m[i]
    decreases k
  {
    hide Pass;
    if k > 0 {
      PassWrites(m, a, t);
      var r := Pass(m, a, t).value;
      PassesWrites(r.mem, a, r.track, k - 1);
    }
  }
}
