// The value a queue of src/audio/event.c holds: a list of events in which each entry
// carries only its delay after the entry before it. The operations here edit that list
// locally, as the C code does; `Abs` gives every entry its absolute time, and the lemmas
// show that each local edit is the expected operation on the absolute times.
module DeltaList {
  import opened AudioEvents

  // A post with this delay asks for the end of the queue (include/PR/libaudio.h).
  const AL_EVTQ_END := 0x7fff_ffff

  datatype Entry = Entry(delta: nat, evt: Event)
  datatype Timed = Timed(time: int, evt: Event)

  // The delay of the last entry: no partial sum of delays is larger.
  function Total(q: seq<Entry>): nat {
    if q == [] then 0 else q[0].delta + Total(q[1..])
  }

  // The absolute view of q when its first delay counts from `base`.
  function Abs(q: seq<Entry>, base: int): (a: seq<Timed>)
    ensures |a| == |q|
  {
    if q == [] then [] else [Timed(base + q[0].delta, q[0].evt)] + Abs(q[1..], base + q[0].delta)
  }

  // A new entry, walked in from the front; `last` asks for the end of the list.
  function Place(q: seq<Entry>, evt: Event, delta: nat, last: bool): (r: seq<Entry>)
    ensures |r| == |q| + 1
  {
    if q == [] then [Entry(if last then 0 else delta, evt)]
    else if delta < q[0].delta then [Entry(delta, evt), q[0].(delta := q[0].delta - delta)] + q[1..]
    else [q[0]] + Place(q[1..], evt, delta - q[0].delta, last)
  }

  // alEvtqPostEvent on a queue that has a free item.
  function Post(q: seq<Entry>, evt: Event, delta: nat): seq<Entry> {
    Place(q, evt, delta, delta == AL_EVTQ_END)
  }

  // The entries that stay when those matching `drop` are unlinked: a removed entry leaves
  // its delay to its successor, and `carry` is what removed predecessors have left.
  function Remove(q: seq<Entry>, drop: Event -> bool, carry: nat): (r: seq<Entry>)
    ensures |r| <= |q|
  {
    if q == [] then []
    else if drop(q[0].evt) then Remove(q[1..], drop, carry + q[0].delta)
    else [q[0].(delta := carry + q[0].delta)] + Remove(q[1..], drop, 0)
  }

  // ---- the absolute-time queue the list stands for ----

  predicate Sorted(a: seq<Timed>) {
    forall i, j :: 0 <= i < j < |a| ==> a[i].time <= a[j].time
  }

  // Insertion behind everything due no later than x.
  function Insert(a: seq<Timed>, x: Timed): (r: seq<Timed>)
    ensures |r| == |a| + 1
  {
    if a == [] || x.time < a[0].time then [x] + a else [a[0]] + Insert(a[1..], x)
  }

  lemma SortedBehind(x: Timed, a: seq<Timed>)
    requires Sorted(a) && forall i :: 0 <= i < |a| ==> x.time <= a[i].time
    ensures Sorted([x] + a)
  {
  }

  lemma {:induction false} InsertNotBefore(a: seq<Timed>, x: Timed, time: int)
    requires time <= x.time && forall i :: 0 <= i < |a| ==> time <= a[i].time
    ensures forall i :: 0 <= i < |Insert(a, x)| ==> time <= Insert(a, x)[i].time
  {
    if a != [] && a[0].time <= x.time {
      InsertNotBefore(a[1..], x, time);
    }
  }

  // What that means: x is in a place between the entries due no later, which keep their order
  // in front of it, and the later ones, which keep theirs behind it. Equal times stay first
  // in, first out.
  lemma {:induction false} InsertIsStable(a: seq<Timed>, x: Timed) returns (k: nat)
    requires Sorted(a)
    ensures k <= |a| && Insert(a, x) == a[..k] + [x] + a[k..]
    ensures forall i :: 0 <= i < |a| ==> (i < k <==> a[i].time <= x.time)
    ensures Sorted(Insert(a, x))
  {
    if a == [] || x.time < a[0].time {
      k := 0;
      SortedBehind(x, a);
    } else {
      var rest := a[1..];
      var j := InsertIsStable(rest, x);
      k := j + 1;
      assert [a[0]] + (rest[..j] + [x] + rest[j..]) == a[..k] + [x] + a[k..];
      forall i | 0 <= i < |a| ensures i < k <==> a[i].time <= x.time {
        assert i > 0 ==> a[i] == rest[i - 1];
      }
      InsertNotBefore(rest, x, a[0].time);
      SortedBehind(a[0], Insert(rest, x));
    }
  }

  function Keep(a: seq<Timed>, drop: Event -> bool): seq<Timed> {
    if a == [] then []
    else if drop(a[0].evt) then Keep(a[1..], drop)
    else [a[0]] + Keep(a[1..], drop)
  }

  // ---- the delta list refines it ----

  lemma {:induction false} AbsSorted(q: seq<Entry>, base: int)
    ensures Sorted(Abs(q, base))
    ensures forall i :: 0 <= i < |q| ==> base <= Abs(q, base)[i].time <= base + Total(q)
    ensures q != [] ==> Abs(q, base)[|q| - 1].time == base + Total(q)
  {
    if q != [] {
      var first, rest := Timed(base + q[0].delta, q[0].evt), Abs(q[1..], base + q[0].delta);
      AbsSorted(q[1..], base + q[0].delta);
      assert Abs(q, base) == [first] + rest;
      SortedBehind(first, rest);
    }
  }

  // The relative view is determined by the absolute one: nothing is lost by storing delays.
  lemma {:induction false} AbsInjective(q: seq<Entry>, r: seq<Entry>, base: int)
    requires Abs(q, base) == Abs(r, base)
    ensures q == r
  {
    if q != [] {
      var a, b := Abs(q, base), Abs(r, base);
      assert a[0] == b[0];
      assert a[1..] == Abs(q[1..], base + q[0].delta) && b[1..] == Abs(r[1..], base + r[0].delta);
      AbsInjective(q[1..], r[1..], base + q[0].delta);
    }
  }

  lemma {:induction false} PlaceRefines(q: seq<Entry>, evt: Event, delta: nat, base: int)
    ensures Abs(Place(q, evt, delta, false), base) == Insert(Abs(q, base), Timed(base + delta, evt))
  {
    if q != [] {
      var a := Abs(q, base);
      assert a[1..] == Abs(q[1..], a[0].time);
      if delta < q[0].delta {
        var tail := [q[0].(delta := q[0].delta - delta)] + q[1..];
        assert tail[1..] == q[1..];
        assert Abs(tail, base + delta) == a;
        assert Place(q, evt, delta, false) == [Entry(delta, evt)] + tail;
      } else {
        PlaceRefines(q[1..], evt, delta - q[0].delta, a[0].time);
      }
    }
  }

  // One step of the walk: an entry due no later is passed.
  lemma PlacePasses(q: seq<Entry>, k: nat, delta: nat)
    requires k < |q| && q[k].delta <= delta
    ensures forall evt, last ::
      q[..k] + Place(q[k..], evt, delta, last) == q[..k + 1] + Place(q[k + 1..], evt, delta - q[k].delta, last)
  {
    assert q[k..][0] == q[k] && q[k..][1..] == q[k + 1..];
    assert q[..k + 1] == q[..k] + [q[k]];
  }

  // At the end of the list `last` drops the rest of the delay.
  lemma {:induction false} PlaceEnds(q: seq<Entry>, evt: Event, delta: nat)
    requires q == []
    ensures Place(q, evt, delta, true) == Place(q, evt, 0, true)
  {
  }

  // Its end: the new list entry by entry.
  lemma {:induction false} PlaceAtSlot(q: seq<Entry>, k: nat, evt: Event, delta: nat, last: bool)
    requires k <= |q| && (k < |q| ==> delta < q[k].delta) && (k == |q| && last ==> delta == 0)
    ensures var r := q[..k] + Place(q[k..], evt, delta, last);
      && |r| == |q| + 1
      && r[k] == Entry(delta, evt)
      && (forall i :: 0 <= i < k ==> r[i] == q[i])
      && (k < |q| ==> r[k + 1] == q[k].(delta := q[k].delta - delta))
      && (forall i :: k + 1 < i <= |q| ==> r[i] == q[i - 1])
  {
    if k < |q| {
      assert q[k..][0] == q[k] && q[k..][1..] == q[k + 1..];
    }
  }

  // An entry asking for the end lands there, due together with the entry that was last, as
  // long as the queue spans no more than AL_EVTQ_END.
  lemma {:induction false} PlaceLast(q: seq<Entry>, evt: Event, delta: nat)
    requires Total(q) <= delta
    ensures Place(q, evt, delta, true) == q + [Entry(0, evt)]
  {
    if q != [] {
      PlaceLast(q[1..], evt, delta - q[0].delta);
    }
  }

  // The bound is exact: past it the new entry is not last.
  lemma {:induction false} PlaceLastOnlyIf(q: seq<Entry>, evt: Event, delta: nat)
    requires delta < Total(q)
    ensures Place(q, evt, delta, true) == Place(q, evt, delta, false)
  {
    if delta >= q[0].delta {
      PlaceLastOnlyIf(q[1..], evt, delta - q[0].delta);
    }
  }

  // Removing entries moves no survivor in time, however many neighbours go with it.
  lemma {:induction false} RemoveRefines(q: seq<Entry>, drop: Event -> bool, carry: nat, base: int)
    ensures Abs(Remove(q, drop, carry), base) == Keep(Abs(q, base + carry), drop)
  {
    if q != [] {
      var a := Abs(q, base + carry);
      assert a[1..] == Abs(q[1..], base + carry + q[0].delta);
      if drop(q[0].evt) {
        RemoveRefines(q[1..], drop, carry + q[0].delta, base);
      } else {
        RemoveRefines(q[1..], drop, 0, base + carry + q[0].delta);
      }
    }
  }

  // Keep is the filter: an entry stays, as often as it was there, unless it matches.
  lemma {:induction false} KeepIsFilter(a: seq<Timed>, drop: Event -> bool, x: Timed)
    ensures multiset(Keep(a, drop))[x] == if drop(x.evt) then 0 else multiset(a)[x]
  {
    if a != [] {
      assert a == [a[0]] + a[1..];
      KeepIsFilter(a[1..], drop, x);
    }
  }

  // One removal: the k-th entry is gone and its delay is its successor's.
  function Unlinked(q: seq<Entry>, k: nat): (r: seq<Entry>)
    requires k < |q|
    ensures |r| == |q| - 1
  {
    if k + 1 == |q| then q[..k]
    else q[..k] + [q[k + 1].(delta := q[k + 1].delta + q[k].delta)] + q[k + 2..]
  }

  function Grown(q: seq<Entry>, k: nat, extra: nat): seq<Entry>
    requires k < |q|
  {
    q[k := Entry(q[k].delta + extra, q[k].evt)]
  }

  // The same in two steps, in either order: the successor takes the delay, the entry goes.
  lemma UnlinkedIs(q: seq<Entry>, k: nat)
    requires k < |q|
    ensures k + 1 == |q| ==> Unlinked(q, k) == q[..k] + q[k + 1..]
    ensures k + 1 < |q| ==> Unlinked(q, k) == Grown(q, k + 1, q[k].delta)[..k] + Grown(q, k + 1, q[k].delta)[k + 1..]
    ensures k + 1 < |q| ==> (q[..k] + q[k + 1..])[k] == q[k + 1]
    ensures k + 1 < |q| ==> Unlinked(q, k) == Grown(q[..k] + q[k + 1..], k, q[k].delta)
  {
  }

  lemma {:induction false} RemoveStep(q: seq<Entry>, k: nat, drop: Event -> bool)
    requires k < |q| && drop(q[k].evt)
    ensures Unlinked(q, k)[..k] == q[..k]
    ensures Remove(Unlinked(q, k)[k..], drop, 0) == Remove(q[k..], drop, 0)
    ensures Total(Unlinked(q, k)) <= Total(q)
    ensures k + 1 < |q| ==> q[k].delta + q[k + 1].delta <= Total(q)
  {
    var tail := q[k..];
    assert tail[1..] == q[k + 1..];
    TotalSplit(q, k);
    TotalSplit(Unlinked(q, k), k);
    if k + 1 < |q| {
      assert q[k + 1..][1..] == q[k + 2..];
      assert Unlinked(q, k)[k..][1..] == q[k + 2..];
    }
  }

  lemma KeepStep(q: seq<Entry>, k: nat, drop: Event -> bool)
    requires k < |q| && !drop(q[k].evt)
    ensures q[..k] + Remove(q[k..], drop, 0) == q[..k + 1] + Remove(q[k + 1..], drop, 0)
  {
    assert q[k..][1..] == q[k + 1..] && q[..k + 1] == q[..k] + [q[k]];
    assert q[k..][0].(delta := 0 + q[k].delta) == q[k];
  }

  lemma {:induction false} TotalSplit(q: seq<Entry>, k: nat)
    requires k <= |q|
    ensures Total(q) == Total(q[..k]) + Total(q[k..])
  {
    if k > 0 {
      TotalSplit(q[1..], k - 1);
      assert q[..k][1..] == q[1..][..k - 1] && q[1..][k - 1..] == q[k..];
    } else {
      assert q[0..] == q;
    }
  }

  lemma RemoveNone(drop: Event -> bool)
    ensures Remove([], drop, 0) == []
  {
  }

  lemma TotalFirst(q: seq<Entry>, k: nat)
    requires k < |q|
    ensures q[k].delta <= Total(q[k..])
  {
  }
}
