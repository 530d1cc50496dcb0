// A track whose loops all have finite counts delivers finitely many events, whatever its
// bytes say: on every event a measure over the loop counters and the bytes ahead goes down.
module LoopTermination {
  import opened Machine
  import opened TrackReader
  import opened TrackRuns

  // The measure as one number: a digit to base 0x101 for every counter ahead of the reader,
  // the last counter in memory the most significant.
  function Digit(m: Bytes, counters: set<int>, loc: int, p: nat): nat
    requires p < |m|
    ensures Digit(m, counters, loc, p) <= 0x100
  {
    if p in counters && loc <= p then m[p] as int + 1 else 0
  }

  function Weight(m: Bytes, counters: set<int>, loc: int, i: nat): nat
    requires i <= |m|
    decreases |m| - i
  {
    if i == |m| then 0 else Digit(m, counters, loc, i) + 0x101 * Weight(m, counters, loc, i + 1)
  }

  lemma {:induction false} WeightFalls(m: Bytes, loc: int, n: Bytes, to: int, counters: set<int>, i: nat)
    requires |n| == |m| && i <= |m|
    requires forall p :: i <= p < |m| ==> Digit(n, counters, to, p) <= Digit(m, counters, loc, p)
    ensures Weight(n, counters, to, i) <= Weight(m, counters, loc, i)
    decreases |m| - i
  {
    if i < |m| {
      WeightFalls(m, loc, n, to, counters, i + 1);
    }
  }

  lemma {:induction false} WeightDrops(m: Bytes, loc: int, n: Bytes, to: int, counters: set<int>, i: nat, k: nat)
    requires |n| == |m| && i <= k < |m|
    requires forall p :: k < p < |m| ==> Digit(n, counters, to, p) <= Digit(m, counters, loc, p)
    requires Digit(n, counters, to, k) < Digit(m, counters, loc, k)
    ensures Weight(n, counters, to, i) < Weight(m, counters, loc, i)
    decreases k - i
  {
    if i == k {
      WeightFalls(m, loc, n, to, counters, k + 1);
    } else {
      WeightDrops(m, loc, n, to, counters, i + 1, k);
    }
  }

  // No loop is endless: neither the counts stored nor the current ones.
  predicate AllFinite(m: Bytes, counters: set<int>) {
    forall p <- counters :: 1 <= p < |m| && p - 1 !in counters && m[p] != LOOP_FOREVER && m[p - 1] != LOOP_FOREVER
  }

  // The reader at t with memory n is further on than the one at s with memory m.
  predicate Further(m: Bytes, s: Track, n: Bytes, t: Track, counters: set<int>) {
    && |n| == |m|
    && (Weight(n, counters, t.curLoc, 0) < Weight(m, counters, s.curLoc, 0)
        || (Weight(n, counters, t.curLoc, 0) == Weight(m, counters, s.curLoc, 0) && Ahead(m, s, t)))
  }

  predicate Ahead(m: Bytes, s: Track, t: Track) {
    (s.curLoc < t.curLoc && s.curLoc < |m|) || (s.curLoc == t.curLoc && t.buLen < s.buLen)
  }

  lemma AheadIsFurther(m: Bytes, s: Track, t: Track, counters: set<int>)
    requires Ahead(m, s, t)
    ensures Further(m, s, m, t, counters)
  {
    WeightFalls(m, s.curLoc, m, t.curLoc, counters, 0);
  }

  lemma FurtherJoins(m: Bytes, s: Track, t: Track, n: Bytes, u: Track, counters: set<int>)
    requires Ahead(m, s, t) && (Further(m, t, n, u, counters) || (n == m && u.curLoc == t.curLoc && u.buLen == t.buLen))
    ensures Further(m, s, n, u, counters)
  {
    WeightFalls(m, s.curLoc, m, t.curLoc, counters, 0);
  }

  lemma {:induction false} VarLenRestAhead(m: Bytes, a: Area, t: Track, v: u32)
    requires VarLenRest(m, a, t, v).Some?
    ensures Ahead(m, t, VarLenRest(m, a, t, v).value.1)
    decreases |m| - t.curLoc, t.buLen
  {
    var (c, t1) := GetByte(m, a, t).value;
    if c >= 0x80 {
      VarLenRestAhead(m, a, t1, (v * 0x80 + c % 0x80) % U32_LIMIT);
    }
  }

  lemma ReadVarLenAhead(m: Bytes, a: Area, t: Track)
    requires ReadVarLen(m, a, t).Some?
    ensures Ahead(m, t, ReadVarLen(m, a, t).value.1)
  {
    var (c, t1) := GetByte(m, a, t).value;
    if c >= 0x80 {
      VarLenRestAhead(m, a, t1, c % 0x80);
    }
  }

  lemma LoopEndFurther(m: Bytes, data: set<int>, counters: set<int>, t: Track)
    requires AllFinite(m, counters) && GetLoopEnd(m, Only(data, counters), t).Some?
    ensures var r := GetLoopEnd(m, Only(data, counters), t).value;
      Further(m, t, r.mem, r.track, counters) && AllFinite(r.mem, counters)
  {
    var r := GetLoopEnd(m, Only(data, counters), t).value;
    var p := t.curLoc + 1;
    assert forall q :: 0 <= q < |m| && q != p ==> r.mem[q] == m[q];
    assert r.track.curLoc <= p + 5;
    forall q | p < q < |m|
      ensures Digit(r.mem, counters, r.track.curLoc, q) <= Digit(m, counters, t.curLoc, q)
    {
    }
    WeightDrops(m, t.curLoc, r.mem, r.track.curLoc, counters, 0, p);
  }

  lemma GetMidiRestAhead(m: Bytes, a: Area, t: Track, status: u8, byte1: u8)
    requires GetMidiRest(m, a, t, status, byte1).Some?
    ensures var r := GetMidiRest(m, a, t, status, byte1).value;
      r.mem == m && (Ahead(m, t, r.track) || r.track == t)
  {
    if status / 0x10 == 0x9 {
      ReadVarLenAhead(m, a, GetByte(m, a, t).value.1);
    }
  }

  lemma GetEventFurther(m: Bytes, data: set<int>, counters: set<int>, t: Track)
    requires AllFinite(m, counters) && GetEvent(m, Only(data, counters), t).Some?
    ensures var r := GetEvent(m, Only(data, counters), t).value;
      Further(m, t, r.mem, r.track, counters) && AllFinite(r.mem, counters)
  {
    hide GetMidiRest, GetLoopEnd, Weight, Further, AllFinite;
    var a := Only(data, counters);
    var (status, t1) := GetByte(m, a, t).value;
    var r := GetEvent(m, a, t).value;
    if status == META {
      var (kind, t2) := GetByte(m, a, t1).value;
      if kind == LOOP_END_CODE {
        LoopEndFurther(m, data, counters, t2);
        FurtherJoins(m, t, t2, r.mem, r.track, counters);
      } else {
        AheadIsFurther(m, t, r.track, counters);
      }
    } else if status >= 0x80 {
      var (b1, t2) := GetByte(m, a, t1).value;
      GetMidiRestAhead(m, a, t2.(lastStatus := status), status, b1);
      AheadIsFurther(m, t, r.track, counters);
    } else {
      GetMidiRestAhead(m, a, t1, t1.lastStatus, status);
      AheadIsFurther(m, t, r.track, counters);
    }
  }

  // Every delta and event takes the reader further.
  lemma PassFurther(m: Bytes, data: set<int>, counters: set<int>, t: Track)
    requires AllFinite(m, counters) && Pass(m, Only(data, counters), t).Some?
    ensures var r := Pass(m, Only(data, counters), t).value;
      Further(m, t, r.mem, r.track, counters) && AllFinite(r.mem, counters)
  {
    hide GetEvent, ReadVarLen, Weight, Further, AllFinite;
    var a := Only(data, counters);
    ReadVarLenAhead(m, a, t);
    var t1 := ReadVarLen(m, a, t).value.1;
    GetEventFurther(m, data, counters, t1);
    var r := Pass(m, a, t).value;
    FurtherJoins(m, t, t1, r.mem, r.track, counters);
  }

  // All events of the track up to its end event, or up to where its data can no longer be read.
  function AllItems(m: Bytes, data: set<int>, counters: set<int>, t: Track): seq<Item>
    requires AllFinite(m, counters)
    decreases Weight(m, counters, t.curLoc, 0), |m| - t.curLoc, t.buLen
  {
    var pass := Pass(m, Only(data, counters), t);
    if pass.None? then []
    else
      var r := pass.value;
      PassFurther(m, data, counters, t);
      if r.items[0].evt == EndEvent then r.items else r.items + AllItems(r.mem, data, counters, r.track)
  }

  // An end event is the last of the items, if there is one.
  predicate EndsLast(items: seq<Item>) {
    forall i :: 0 <= i < |items| - 1 ==> items[i].evt != EndEvent
  }

  // So no run of the track is longer, and every run delivers the beginning of this list.
  lemma {:induction false} RunsAreFinite(m: Bytes, data: set<int>, counters: set<int>, t: Track, n: nat)
    requires AllFinite(m, counters) && Passes(m, Only(data, counters), t, n).Some?
    requires EndsLast(Passes(m, Only(data, counters), t, n).value.items)
    ensures n <= |AllItems(m, data, counters, t)|
    ensures Passes(m, Only(data, counters), t, n).value.items == AllItems(m, data, counters, t)[..n]
    decreases n
  {
    hide Pass, AllFinite, Weight, Further;
    if n > 0 {
      var a := Only(data, counters);
      var r := Pass(m, a, t).value;
      PassFurther(m, data, counters, t);
      var all, rest := Passes(m, a, t, n).value.items, Passes(r.mem, a, r.track, n - 1).value.items;
      PassesLength(r.mem, a, r.track, n - 1);
      assert all == r.items + rest;
      assert forall i :: 0 <= i < n - 1 ==> rest[i] == all[i + 1];
      if n == 1 {
        assert rest == [];
      } else {
        assert all[0] == r.items[0];
        RunsAreFinite(r.mem, data, counters, r.track, n - 1);
      }
    }
  }

  // The list itself is one of these runs.
  lemma {:induction false} AllItemsIsARun(m: Bytes, data: set<int>, counters: set<int>, t: Track)
    requires AllFinite(m, counters)
    ensures Passes(m, Only(data, counters), t, |AllItems(m, data, counters, t)|).Some?
    ensures Passes(m, Only(data, counters), t, |AllItems(m, data, counters, t)|).value.items ==
      AllItems(m, data, counters, t)
    decreases Weight(m, counters, t.curLoc, 0), |m| - t.curLoc, t.buLen
  {
    hide AllFinite;
    var a := Only(data, counters);
    if Pass(m, a, t).Some? {
      var r := Pass(m, a, t).value;
      PassFurther(m, data, counters, t);
      HaveReading(m, a, t, r);
      if r.items[0].evt != EndEvent {
        AllItemsIsARun(r.mem, data, counters, r.track);
        var rest := AllItems(r.mem, data, counters, r.track);
        PassesJoin(m, a, t, 1, |rest|, r, Passes(r.mem, a, r.track, |rest|).value);
      }
    }
  }

  lemma {:induction false} HaveReading(m: Bytes, a: Area, t: Track, r: Reading)
    requires Pass(m, a, t) == Some(r)
    ensures Passes(m, a, t, 1) == Some(r) && |r.items| == 1
  {
    hide Pass;
    assert Passes(r.mem, a, r.track, 0) == Some(Reading([], r.mem, r.track));
    assert r.items + [] == r.items;
  }
}
