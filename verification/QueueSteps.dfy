// What each step of the queue code in src/audio/event.c does to the items in memory and to
// the contents they stand for.
module QueueSteps {
  import opened AudioEvents
  import opened DeltaList
  import opened Retiming
  import opened ItemLists

  // Consecutive items of f, from position `first` on, store q.
  ghost predicate Stores(m: Memory, f: seq<Item>, first: nat, q: seq<Entry>) {
    && |f| == |q| + first
    && (forall i :: 0 <= i < |f| ==> f[i] in m)
    && forall i :: 0 <= i < |q| ==> m[f[i + first]].delta == q[i].delta && m[f[i + first]].evt == q[i].evt
  }

  // The queue holds q and the temporary list t.
  ghost predicate Holds(m: Memory, s: Shape, q: seq<Entry>, t: seq<Entry>) {
    Shaped(m, s) && Stores(m, s.queue, 1, q) && Stores(m, s.temp, 0, t)
  }

  // Two heads alone.
  lemma HeadsHold(m: Memory, f: Item, a: Item)
    requires f in m && a in m && f != a && m[f].next == null && m[a].next == null
    ensures Holds(m, Shape([f], [a], []), [], [])
  {
  }

  ghost predicate SameLinks(m: Memory, r: Memory) {
    r.Keys == m.Keys && forall x <- m :: r[x].next == m[x].next && r[x].prev == m[x].prev
  }

  ghost predicate SameData(m: Memory, r: Memory) {
    r.Keys == m.Keys && forall x <- m :: r[x].delta == m[x].delta && r[x].evt == m[x].evt
  }

  lemma ShapedBySameLinks(m: Memory, r: Memory, s: Shape)
    requires Shaped(m, s) && SameLinks(m, r)
    ensures Shaped(r, s)
  {
  }

  lemma StoresBySameData(m: Memory, r: Memory, f: seq<Item>, first: nat, q: seq<Entry>)
    requires Stores(m, f, first, q) && SameData(m, r)
    ensures Stores(r, f, first, q)
  {
  }

  ghost function SetDelta(m: Memory, x: Item, delta: int): Memory
    requires x in m
  {
    m[x := m[x].(delta := delta)]
  }

  // What a walk along the queue sees at position k.
  lemma QueueAt(m: Memory, s: Shape, q: seq<Entry>, t: seq<Entry>, k: nat)
    requires Holds(m, s, q, t) && k <= |q|
    ensures |s.queue| == |q| + 1 && s.queue[k] in m && |s.temp| == |t|
    ensures m[s.queue[k]].next == if k < |q| then s.queue[k + 1] else null
    ensures k < |q| ==>
      s.queue[k + 1] in m && m[s.queue[k + 1]].delta == q[k].delta && m[s.queue[k + 1]].evt == q[k].evt
  {
  }

  // And at the head of the free list.
  lemma FreeAt(m: Memory, s: Shape, q: seq<Entry>, t: seq<Entry>)
    requires Holds(m, s, q, t)
    ensures |s.free| > 0 && s.free[0] in m
    ensures m[s.free[0]].next == if 1 < |s.free| then s.free[1] else null
    ensures 1 < |s.free| ==> s.free[1] in m
  {
  }

  ghost function SetEvent(m: Memory, x: Item, evt: Event): Memory
    requires x in m
  {
    m[x := m[x].(evt := evt)]
  }

  // Items off the lists may change.
  lemma StoresElsewhere(m: Memory, f: seq<Item>, first: nat, q: seq<Entry>, x: Item, c: Cell)
    requires Stores(m, f, first, q) && x !in f && x in m
    ensures Stores(m[x := c], f, first, q)
  {
  }

  lemma StoresWithout(m: Memory, f: seq<Item>, q: seq<Entry>, k: nat)
    requires Stores(m, f, 1, q) && k < |q|
    ensures Stores(m, f[..k + 1] + f[k + 2..], 1, q[..k] + q[k + 1..])
  {
    var g, r := f[..k + 1] + f[k + 2..], q[..k] + q[k + 1..];
    forall i | 0 <= i < |r|
      ensures m[g[i + 1]].delta == r[i].delta && m[g[i + 1]].evt == r[i].evt
    {
      assert g[i + 1] == if i < k then f[i + 1] else f[i + 2];
    }
  }

  // ---- giving items to the free list ----

  ghost function Given(s: Shape, x: Item): Shape
    requires |s.free| > 0
  {
    s.(free := s.free[..1] + [x] + s.free[1..])
  }

  lemma GiveStep(m: Memory, s: Shape, q: seq<Entry>, t: seq<Entry>, x: Item)
    requires Holds(m, s, q, t) && x in m && s.Without(x)
    ensures |s.free| > 0 && CanLink(m, x, s.free[0])
    ensures Holds(Linking(m, x, s.free[0]), Given(s, x), q, t)
  {
    assert m[s.free[0]].next == if 1 < |s.free| then s.free[1] else null;
    var r := Linking(m, x, s.free[0]);
    FreePut(m, s, x, Given(s, x));
    StoresBySameData(m, r, s.queue, 1, q);
    StoresBySameData(m, r, s.temp, 0, t);
  }

  ghost function Taken(s: Shape, k: nat): Shape
    requires k + 1 < |s.queue|
  {
    s.(queue := s.queue[..k + 1] + s.queue[k + 2..])
  }

  // The k-th queued item is unlinked.
  lemma TakeStep(m: Memory, s: Shape, q: seq<Entry>, t: seq<Entry>, k: nat)
    requires Holds(m, s, q, t) && k < |q|
    ensures |s.queue| == |q| + 1 && s.queue[k + 1] in m && CanUnlink(m, s.queue[k + 1])
    ensures Taken(s, k).Without(s.queue[k + 1]) && s.queue[k + 1] in Unlinking(m, s.queue[k + 1])
    ensures Holds(Unlinking(m, s.queue[k + 1]), Taken(s, k), q[..k] + q[k + 1..], t)
    ensures Unlinking(m, s.queue[k + 1])[s.queue[k + 1]].evt == q[k].evt
  {
    var x := s.queue[k + 1];
    var r := Unlinking(m, x);
    assert m[x].next == if k + 2 < |s.queue| then s.queue[k + 2] else null;
    assert m[x].prev == s.queue[k];
    QueueTaken(m, s, k + 1, Taken(s, k));
    StoresBySameData(m, r, s.queue, 1, q);
    StoresWithout(r, s.queue, q, k);
    StoresBySameData(m, r, s.temp, 0, t);
  }

  // ---- posting ----

  ghost function Dropped(s: Shape): Shape
    requires |s.free| > 1
  {
    s.(free := s.free[..1] + s.free[2..])
  }

  // The first free item is unlinked and gets the event.
  lemma TakeFreeStep(m: Memory, s: Shape, q: seq<Entry>, t: seq<Entry>, x: Item, evt: Event)
    requires Holds(m, s, q, t) && |s.free| > 1 && x == s.free[1]
    ensures x in m && CanUnlink(m, x) && Dropped(s).Without(x)
    ensures Holds(SetEvent(Unlinking(m, x), x, evt), Dropped(s), q, t)
  {
    var m1 := Unlinking(m, x);
    assert m[x].next == if 2 < |s.free| then s.free[2] else null;
    assert m[x].prev == s.free[0];
    FreeTaken(m, s, Dropped(s));
    StoresBySameData(m, m1, s.queue, 1, q);
    StoresBySameData(m, m1, s.temp, 0, t);
    SetEventStep(m1, Dropped(s), q, t, x, evt);
  }

  lemma SetEventStep(m: Memory, s: Shape, q: seq<Entry>, t: seq<Entry>, x: Item, evt: Event)
    requires Holds(m, s, q, t) && x in m && s.Without(x)
    ensures Holds(SetEvent(m, x, evt), s, q, t)
  {
    var r := SetEvent(m, x, evt);
    ShapedBySameLinks(m, r, s);
    StoresElsewhere(m, s.queue, 1, q, x, r[x]);
    StoresElsewhere(m, s.temp, 0, t, x, r[x]);
  }

  ghost function Inserted(s: Shape, k: nat, x: Item): Shape
    requires k < |s.queue|
  {
    s.(queue := s.queue[..k + 1] + [x] + s.queue[k + 1..])
  }

  // The item x in hand gets its delay, and the item after the slot gives up as much.
  ghost function Charging(m: Memory, x: Item, next: Item?, delta: int): Memory
    requires x in m
  {
    var m1 := SetDelta(m, x, delta);
    if next in m then SetDelta(m1, next, m1[next].delta - delta) else m1
  }

  // Then x goes in behind `node`.
  ghost function Inserting(m: Memory, x: Item, node: Item, delta: int): Memory
    requires x in m && node in m
  {
    Linking(Charging(m, x, m[node].next, delta), x, node)
  }

  lemma {:induction false} InsertStep(
    m: Memory, s: Shape, q: seq<Entry>, t: seq<Entry>, k: nat, x: Item, delta: nat, last: bool)
    requires Holds(m, s, q, t) && k <= |q| && x in m && s.Without(x)
    requires (k < |q| ==> delta < q[k].delta) && (k == |q| && last ==> delta == 0)
    ensures |s.queue| == |q| + 1 && s.queue[k] in m && CanLink(Charging(m, x, m[s.queue[k]].next, delta), x, s.queue[k])
    ensures Holds(Inserting(m, x, s.queue[k], delta), Inserted(s, k, x),
      q[..k] + Place(q[k..], m[x].evt, delta, last), t)
  {
    InsertedShape(m, s, k, x, delta);
    InsertedStores(m, s, q, k, x, delta, last, Inserting(m, x, s.queue[k], delta));
    InsertedTemp(m, s, t, k, x, delta);
  }

  lemma InsertedShape(m: Memory, s: Shape, k: nat, x: Item, delta: int)
    requires Shaped(m, s) && k < |s.queue| && x in m && s.Without(x)
    ensures CanLink(Charging(m, x, m[s.queue[k]].next, delta), x, s.queue[k])
    ensures Shaped(Inserting(m, x, s.queue[k], delta), Inserted(s, k, x))
  {
    var r := Charging(m, x, m[s.queue[k]].next, delta);
    assert m[s.queue[k]].next == if k + 1 < |s.queue| then s.queue[k + 1] else null;
    ShapedBySameLinks(m, r, s);
    QueuePut(r, s, k, x, Inserted(s, k, x));
  }

  lemma InsertedTemp(m: Memory, s: Shape, t: seq<Entry>, k: nat, x: Item, delta: int)
    requires Shaped(m, s) && k < |s.queue| && x in m && s.Without(x) && Stores(m, s.temp, 0, t)
    ensures Stores(Inserting(m, x, s.queue[k], delta), s.temp, 0, t)
  {
    var r := Inserting(m, x, s.queue[k], delta);
    assert m[s.queue[k]].next == if k + 1 < |s.queue| then s.queue[k + 1] else null;
    forall i | 0 <= i < |t|
      ensures r[s.temp[i + 0]].delta == t[i].delta && r[s.temp[i + 0]].evt == t[i].evt
    {
    }
  }

  lemma {:induction false} InsertedStores(
    m: Memory, s: Shape, q: seq<Entry>, k: nat, x: Item, delta: nat, last: bool, r: Memory)
    requires Stores(m, s.queue, 1, q) && Linked(m, s.queue) && k <= |q| && x in m && x !in s.queue && r.Keys == m.Keys
    requires (k < |q| ==> delta < q[k].delta) && (k == |q| && last ==> delta == 0)
    requires forall y <- m :: r[y].evt == m[y].evt
    requires r[x].delta == delta
    requires k + 1 < |s.queue| ==> r[s.queue[k + 1]].delta == m[s.queue[k + 1]].delta - delta
    requires forall y <- m :: y != x && (k + 1 < |s.queue| ==> y != s.queue[k + 1]) ==> r[y].delta == m[y].delta
    ensures Stores(r, Inserted(s, k, x).queue, 1, q[..k] + Place(q[k..], m[x].evt, delta, last))
  {
    var f, g := s.queue, Inserted(s, k, x).queue;
    var p := q[..k] + Place(q[k..], m[x].evt, delta, last);
    PlaceAtSlot(q, k, m[x].evt, delta, last);
    forall i | 0 <= i < |p|
      ensures r[g[i + 1]].delta == p[i].delta && r[g[i + 1]].evt == p[i].evt
    {
      assert g[i + 1] == if i < k then f[i + 1] else if i == k then x else f[i];
    }
  }

  // ---- removing from the middle ----

  // The k-th queued item's delay grows.
  lemma GrowStep(m: Memory, s: Shape, q: seq<Entry>, t: seq<Entry>, k: nat, x: Item, extra: nat)
    requires Holds(m, s, q, t) && k < |q| && k + 1 < |s.queue| && x == s.queue[k + 1]
    ensures x in m && m[x].delta == q[k].delta
    ensures Holds(SetDelta(m, x, m[x].delta + extra), s, Grown(q, k, extra), t)
  {
    var r, p := SetDelta(m, x, m[x].delta + extra), Grown(q, k, extra);
    ShapedBySameLinks(m, r, s);
    forall i | 0 <= i < |p|
      ensures r[s.queue[i + 1]].delta == p[i].delta && r[s.queue[i + 1]].evt == p[i].evt
    {
    }
    StoresElsewhere(m, s.temp, 0, t, x, r[x]);
  }

  // ---- the temporary list of a tempo change ----

  // A note-off in hand starts the temporary list, or goes behind its first item.
  ghost function TempLinking(m: Memory, x: Item, first: Item?): Memory
    requires x in m && (first == null || first in m)
  {
    if first == null then m[x := m[x].(next := null, prev := null)] else Linking(m, x, first)
  }

  ghost function First(s: Shape): Item? {
    if s.temp == [] then null else s.temp[0]
  }

  ghost function Joined(s: Shape, x: Item): Shape {
    s.(temp := if s.temp == [] then [x] else s.temp[..1] + [x] + s.temp[1..])
  }

  lemma JoinStep(m: Memory, s: Shape, q: seq<Entry>, t: seq<Entry>, x: Item)
    requires Holds(m, s, q, t) && x in m && s.Without(x) && m[x].delta >= 0
    ensures First(s) == null || (First(s) in m && CanLink(m, x, First(s)))
    ensures Holds(TempLinking(m, x, First(s)), Joined(s, x), q, Push(t, Entry(m[x].delta, m[x].evt)))
  {
    assert s.temp != [] ==> m[s.temp[0]].next == if 1 < |s.temp| then s.temp[1] else null;
    var r := TempLinking(m, x, First(s));
    JoinedShape(m, s, x);
    StoresBySameData(m, r, s.queue, 1, q);
    StoresBySameData(m, r, s.temp, 0, t);
    PushStored(r, s.temp, t, x, Entry(m[x].delta, m[x].evt));
  }

  lemma JoinedShape(m: Memory, s: Shape, x: Item)
    requires Shaped(m, s) && x in m && s.Without(x)
    ensures Shaped(TempLinking(m, x, First(s)), Joined(s, x))
  {
    if s.temp != [] {
      TempPut(m, s, x, Joined(s, x));
    }
  }

  lemma PushStored(m: Memory, f: seq<Item>, t: seq<Entry>, x: Item, e: Entry)
    requires Stores(m, f, 0, t) && x in m && m[x].delta == e.delta && m[x].evt == e.evt
    ensures Stores(m, if f == [] then [x] else f[..1] + [x] + f[1..], 0, Push(t, e))
  {
    var g, r := if f == [] then [x] else f[..1] + [x] + f[1..], Push(t, e);
    forall i | 0 <= i < |r|
      ensures m[g[i + 0]].delta == r[i].delta && m[g[i + 0]].evt == r[i].evt
    {
      if i > 1 {
        assert g[i] == f[i - 1 + 0] && r[i] == t[i - 1];
      } else if i == 0 && f != [] {
        assert g[0] == f[0 + 0];
      }
    }
  }

  // The item that joined last gets its whole delay.
  lemma SetJoinedStep(m: Memory, s: Shape, x: Item, q: seq<Entry>, t: seq<Entry>, e: Entry, delta: nat)
    requires Holds(m, Joined(s, x), q, Push(t, e)) && |s.temp| == |t|
    ensures x in m && Holds(SetDelta(m, x, delta), Joined(s, x), q, Push(t, Entry(delta, e.evt)))
  {
    var g, p := Joined(s, x).temp, Push(t, Entry(delta, e.evt));
    var at := if t == [] then 0 else 1;
    assert g[at] == x && g[at + 0] in m;
    var r := SetDelta(m, x, delta);
    ShapedBySameLinks(m, r, Joined(s, x));
    StoresElsewhere(m, s.queue, 1, q, x, r[x]);
    forall i | 0 <= i < |p|
      ensures r[g[i + 0]].delta == p[i].delta && r[g[i + 0]].evt == p[i].evt
    {
      assert i != at ==> g[i] != g[at] && p[i] == Push(t, e)[i];
      assert m[g[i + 0]].evt == Push(t, e)[i].evt;
    }
  }

  // The first temporary item is taken in hand: the code only moves on to its successor.
  lemma PopTempStep(m: Memory, s: Shape, q: seq<Entry>, t: seq<Entry>, r: Shape)
    requires Holds(m, s, q, t) && s.temp != [] && r == s.(temp := s.temp[1..])
    ensures t != [] && s.temp[0] in m && m[s.temp[0]].delta == t[0].delta && m[s.temp[0]].evt == t[0].evt
    ensures m[s.temp[0]].next == First(r)
    ensures Holds(m, r, q, t[1..]) && r.Without(s.temp[0])
  {
    assert m[s.temp[0 + 0]].delta == t[0].delta;
    forall i | 0 <= i < |t| - 1
      ensures m[r.temp[i + 0]].delta == t[1..][i].delta && m[r.temp[i + 0]].evt == t[1..][i].evt
    {
      assert r.temp[i] == s.temp[i + 1 + 0];
    }
  }

  lemma HandDeltaStep(m: Memory, s: Shape, q: seq<Entry>, t: seq<Entry>, x: Item, delta: int)
    requires Holds(m, s, q, t) && x in m && s.Without(x)
    ensures Holds(SetDelta(m, x, delta), s, q, t)
  {
    var r := SetDelta(m, x, delta);
    ShapedBySameLinks(m, r, s);
    StoresElsewhere(m, s.queue, 1, q, x, r[x]);
    StoresElsewhere(m, s.temp, 0, t, x, r[x]);
  }
}
