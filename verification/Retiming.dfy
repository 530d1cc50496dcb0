// The tempo change of __CSPHandleMetaMsg (src/audio/csplayer.c) on the value of the queue:
// every pending note-off is taken out, its delay is rescaled from the old to the new
// microseconds per tick, and it is queued again.
module Retiming {
  import opened AudioEvents
  import opened DeltaList

  predicate IsNoteOff(e: Event) { e.NoteOff? }

  // The pending note-offs in queue order, each with its whole delay from now; `before` is the
  // delay of what is in front of q.
  function NoteOffs(q: seq<Entry>, before: nat): seq<Entry> {
    if q == [] then []
    else if IsNoteOff(q[0].evt) then [Entry(before + q[0].delta, q[0].evt)] + NoteOffs(q[1..], before + q[0].delta)
    else NoteOffs(q[1..], before + q[0].delta)
  }

  // The temporary list: the first item stays in front, a later one goes directly behind it.
  function Push(temp: seq<Entry>, x: Entry): seq<Entry> {
    if temp == [] then [x] else [temp[0], x] + temp[1..]
  }

  function PushAll(temp: seq<Entry>, offs: seq<Entry>): seq<Entry>
    decreases |offs|
  {
    if offs == [] then temp else PushAll(Push(temp, offs[0]), offs[1..])
  }

  // The new delay of a note-off.
  function Rescale(oldUspt: nat, newUspt: nat): nat -> nat
    requires oldUspt > 0
  {
    delay => delay / oldUspt * newUspt
  }

  function Repost(q: seq<Entry>, temp: seq<Entry>, f: nat -> nat): seq<Entry>
    decreases |temp|
  {
    if temp == [] then q else Repost(Place(q, temp[0].evt, f(temp[0].delta), false), temp[1..], f)
  }

  function Retime(q: seq<Entry>, f: nat -> nat): seq<Entry> {
    Repost(Remove(q, IsNoteOff, 0), PushAll([], NoteOffs(q, 0)), f)
  }

  // ---- what a tempo change does ----

  function Scaled(offs: seq<Entry>, f: nat -> nat): seq<Entry> {
    seq(|offs|, i requires 0 <= i < |offs| => offs[i].(delta := f(offs[i].delta)))
  }

  // Everything but the note-offs keeps its absolute time and its order.
  lemma {:induction false} RetimeKeepsOthers(q: seq<Entry>, f: nat -> nat, now: int)
    ensures Keep(Abs(Retime(q, f), now), IsNoteOff) == Keep(Abs(q, now), IsNoteOff)
  {
    RemoveRefines(q, IsNoteOff, 0, now);
    KeepTwice(Abs(q, now), IsNoteOff);
    NoteOffsOnly(q, 0);
    PushAllPermutes([], NoteOffs(q, 0));
    var temp := PushAll([], NoteOffs(q, 0));
    assert forall x :: x in temp ==> x in multiset(temp);
    RepostOthers(Remove(q, IsNoteOff, 0), temp, f, now);
  }

  // The note-offs are the old ones, each at its rescaled delay: none lost, none twice.
  lemma {:induction false} RetimeMovesNoteOffs(q: seq<Entry>, f: nat -> nat)
    ensures multiset(NoteOffs(Retime(q, f), 0)) == multiset(Scaled(NoteOffs(q, 0), f))
  {
    var offs := NoteOffs(q, 0);
    NoteOffsRemoved(q, 0, 0);
    NoteOffsOnly(q, 0);
    PushAllPermutes([], offs);
    var temp := PushAll([], offs);
    assert forall x :: x in temp ==> x in multiset(temp);
    RepostNoteOffs(Remove(q, IsNoteOff, 0), temp, f);
    PushAllScaled([], offs, f);
    PushAllPermutes([], Scaled(offs, f));
    assert Scaled([], f) == [];
  }

  lemma {:induction false} NoteOffsOnly(q: seq<Entry>, before: nat)
    ensures forall x :: x in NoteOffs(q, before) ==> IsNoteOff(x.evt)
  {
    if q != [] {
      NoteOffsOnly(q[1..], before + q[0].delta);
    }
  }

  lemma {:induction false} NoteOffsRemoved(q: seq<Entry>, carry: nat, before: nat)
    ensures NoteOffs(Remove(q, IsNoteOff, carry), before) == []
  {
    if q != [] {
      if IsNoteOff(q[0].evt) {
        NoteOffsRemoved(q[1..], carry + q[0].delta, before);
      } else {
        NoteOffsRemoved(q[1..], 0, before + carry + q[0].delta);
      }
    }
  }

  lemma {:induction false} PushAllPermutes(temp: seq<Entry>, offs: seq<Entry>)
    ensures multiset(PushAll(temp, offs)) == multiset(temp) + multiset(offs)
    decreases |offs|
  {
    if offs != [] {
      assert offs == [offs[0]] + offs[1..];
      assert temp != [] ==> temp == [temp[0]] + temp[1..];
      PushAllPermutes(Push(temp, offs[0]), offs[1..]);
    }
  }

  lemma {:induction false} PushAllScaled(temp: seq<Entry>, offs: seq<Entry>, f: nat -> nat)
    ensures Scaled(PushAll(temp, offs), f) == PushAll(Scaled(temp, f), Scaled(offs, f))
    decreases |offs|
  {
    if offs == [] {
      assert Scaled(offs, f) == [];
    } else {
      assert Scaled(Push(temp, offs[0]), f) == Push(Scaled(temp, f), Scaled(offs, f)[0]);
      assert Scaled(offs[1..], f) == Scaled(offs, f)[1..];
      PushAllScaled(Push(temp, offs[0]), offs[1..], f);
    }
  }

  lemma {:induction false} RepostOthers(q: seq<Entry>, temp: seq<Entry>, f: nat -> nat, now: int)
    requires forall x :: x in temp ==> IsNoteOff(x.evt)
    ensures Keep(Abs(Repost(q, temp, f), now), IsNoteOff) == Keep(Abs(q, now), IsNoteOff)
    decreases |temp|
  {
    if temp != [] {
      var d := f(temp[0].delta);
      PlaceRefines(q, temp[0].evt, d, now);
      KeepInsertDropped(Abs(q, now), Timed(now + d, temp[0].evt), IsNoteOff);
      RepostOthers(Place(q, temp[0].evt, d, false), temp[1..], f, now);
    }
  }

  lemma {:induction false} RepostNoteOffs(q: seq<Entry>, temp: seq<Entry>, f: nat -> nat)
    requires forall x :: x in temp ==> IsNoteOff(x.evt)
    ensures multiset(NoteOffs(Repost(q, temp, f), 0)) == multiset(NoteOffs(q, 0)) + multiset(Scaled(temp, f))
    decreases |temp|
  {
    if temp == [] {
      assert Scaled(temp, f) == [];
    } else {
      var x := Entry(f(temp[0].delta), temp[0].evt);
      PlaceAddsNoteOff(q, x);
      RepostNoteOffs(Place(q, x.evt, x.delta, false), temp[1..], f);
      ScaledCons(temp, f, x);
    }
  }

  lemma ScaledCons(temp: seq<Entry>, f: nat -> nat, x: Entry)
    requires temp != [] && x == Entry(f(temp[0].delta), temp[0].evt)
    ensures multiset(Scaled(temp, f)) == multiset{x} + multiset(Scaled(temp[1..], f))
  {
    assert Scaled(temp, f) == [x] + Scaled(temp[1..], f);
  }

  lemma {:induction false} PlaceAddsNoteOff(q: seq<Entry>, x: Entry)
    requires IsNoteOff(x.evt)
    ensures multiset(NoteOffs(Place(q, x.evt, x.delta, false), 0)) == multiset(NoteOffs(q, 0)) + multiset{x}
  {
    var offs := NoteOffs(q, 0);
    var i := PlaceNoteOff(q, x, 0, x);
    assert offs == offs[..i] + offs[i..];
  }

  lemma {:induction false} PlaceNoteOff(q: seq<Entry>, x: Entry, before: nat, y: Entry) returns (i: nat)
    requires IsNoteOff(x.evt) && y == Entry(before + x.delta, x.evt)
    ensures i <= |NoteOffs(q, before)|
    ensures NoteOffs(Place(q, x.evt, x.delta, false), before) ==
      NoteOffs(q, before)[..i] + [y] + NoteOffs(q, before)[i..]
  {
    i := 0;
    if q != [] {
      if x.delta < q[0].delta {
        var tail := [q[0].(delta := q[0].delta - x.delta)] + q[1..];
        assert tail[1..] == q[1..] && Place(q, x.evt, x.delta, false) == [x] + tail;
      } else {
        i := PlaceNoteOff(q[1..], x.(delta := x.delta - q[0].delta), before + q[0].delta, y);
        i := if IsNoteOff(q[0].evt) then i + 1 else i;
      }
    }
  }

  lemma {:induction false} KeepInsertDropped(a: seq<Timed>, x: Timed, drop: Event -> bool)
    requires drop(x.evt)
    ensures Keep(Insert(a, x), drop) == Keep(a, drop)
  {
    if a == [] || x.time < a[0].time {
      assert ([x] + a)[1..] == a;
    } else {
      assert Insert(a, x)[1..] == Insert(a[1..], x);
      KeepInsertDropped(a[1..], x, drop);
    }
  }

  lemma {:induction false} KeepTwice(a: seq<Timed>, drop: Event -> bool)
    ensures Keep(Keep(a, drop), drop) == Keep(a, drop)
  {
    if a != [] {
      KeepTwice(a[1..], drop);
      assert !drop(a[0].evt) ==> Keep(a, drop)[1..] == Keep(a[1..], drop);
    }
  }

  // ---- one step of the collecting loop, at position k with `cur` the delay of what is passed ----

  lemma {:induction false} CollectTake(q: seq<Entry>, k: nat, cur: nat)
    requires k < |q| && IsNoteOff(q[k].evt)
    ensures NoteOffs(q[k..], cur) == [Entry(cur + q[k].delta, q[k].evt)] + NoteOffs(Unlinked(q, k)[k..], cur)
    ensures k + 1 < |q| ==> Total(Unlinked(q, k)[k..]) == Total(q[k..])
    ensures k + 1 == |q| ==> Total(Unlinked(q, k)[k..]) == 0 && Total(q[k..]) == q[k].delta
    ensures k + 1 == |q| ==> forall c: nat :: NoteOffs(Unlinked(q, k)[k..], c) == []
    ensures q[k].delta <= Total(q[k..]) && (k + 1 < |q| ==> q[k].delta + q[k + 1].delta <= Total(q[k..]))
  {
    assert q[k..][1..] == q[k + 1..];
    if k + 1 < |q| {
      assert q[k + 1..][1..] == q[k + 2..];
      assert Unlinked(q, k)[k..] == [q[k + 1].(delta := q[k + 1].delta + q[k].delta)] + q[k + 2..];
    }
  }

  lemma {:induction false} CollectPass(q: seq<Entry>, k: nat, cur: nat)
    requires k < |q| && !IsNoteOff(q[k].evt)
    ensures NoteOffs(q[k..], cur) == NoteOffs(q[k + 1..], cur + q[k].delta)
    ensures Total(q[k..]) == q[k].delta + Total(q[k + 1..])
  {
    assert q[k..][1..] == q[k + 1..];
  }

  lemma {:induction false} PushFirst(temp: seq<Entry>, x: Entry, offs: seq<Entry>)
    ensures PushAll(temp, [x] + offs) == PushAll(Push(temp, x), offs)
  {
    assert ([x] + offs)[1..] == offs;
  }

  lemma {:induction false} PushNone(temp: seq<Entry>, before: nat)
    ensures PushAll(temp, NoteOffs([], before)) == temp
  {
  }

  lemma {:induction false} RepostFirst(q: seq<Entry>, temp: seq<Entry>, f: nat -> nat)
    requires temp != []
    ensures Repost(q, temp, f) == Repost(Place(q, temp[0].evt, f(temp[0].delta), false), temp[1..], f)
  {
  }

  lemma {:induction false} PushAllKeepsBound(q: seq<Entry>, f: nat -> nat, bound: nat)
    requires forall x <- NoteOffs(q, 0) :: f(x.delta) < bound
    ensures forall x <- PushAll([], NoteOffs(q, 0)) :: f(x.delta) < bound
  {
    PushAllPermutes([], NoteOffs(q, 0));
    forall x <- PushAll([], NoteOffs(q, 0)) ensures f(x.delta) < bound {
      assert x in multiset(PushAll([], NoteOffs(q, 0)));
      assert x in multiset(NoteOffs(q, 0));
    }
  }

  lemma {:induction false} RepostNone(q: seq<Entry>, f: nat -> nat)
    ensures Repost(q, [], f) == q
  {
  }
}
