// The intrusive lists of src/audio/sl.c. alLink and alUnlink change the links of up to three
// items in memory; `Snap` reads the items as a value, on which the lists are defined and the
// list lemmas are proved.
module ItemLists {
  import opened Machine
  import opened AudioEvents

  // ALEventListItem; a list head is an item too, of which only the links are used.
  class Item {
    var next: Item?
    var prev: Item?
    var delta: s32
    var evt: Event

    constructor ()
      ensures next == null && prev == null
    {
      next, prev, delta, evt := null, null, 0, Empty;
    }
  }

  datatype Cell = Cell(next: Item?, prev: Item?, delta: int, evt: Event)

  type Memory = map<Item, Cell>

  ghost function Snap(items: set<Item>): (m: Memory)
    reads items
  {
    map x | x in items :: Cell(x.next, x.prev, x.delta, x.evt)
  }

  lemma SnapKeys(items: set<Item>)
    ensures Snap(items).Keys == items
  {
  }

  lemma SnapAt(items: set<Item>, x: Item)
    requires x in items
    ensures x in Snap(items) && Snap(items)[x] == Cell(x.next, x.prev, x.delta, x.evt)
  {
  }

  ghost function Linking(m: Memory, ln: Item, to: Item): (r: Memory)
    requires ln in m && to in m
    ensures r.Keys == m.Keys
    ensures forall x <- m :: r[x].delta == m[x].delta && r[x].evt == m[x].evt
  {
    var next := m[to].next;
    var m1 := m[ln := m[ln].(next := next, prev := to)];
    var m2 := if next in m then m1[next := m1[next].(prev := ln)] else m1;
    m2[to := m2[to].(next := ln)]
  }

  ghost function Unlinking(m: Memory, ln: Item): (r: Memory)
    requires ln in m
    ensures r.Keys == m.Keys
    ensures forall x <- m :: r[x].delta == m[x].delta && r[x].evt == m[x].evt
  {
    var next, prev := m[ln].next, m[ln].prev;
    var m1 := if next in m then m[next := m[next].(prev := prev)] else m;
    if prev in m then m1[prev := m1[prev].(next := m1[ln].next)] else m1
  }

  ghost predicate CanLink(m: Memory, ln: Item, to: Item) {
    ln in m && to in m && (m[to].next == null || m[to].next in m)
  }

  ghost predicate CanUnlink(m: Memory, ln: Item) {
    ln in m && (m[ln].next == null || m[ln].next in m) && (m[ln].prev == null || m[ln].prev in m)
  }

  // alLink
  method Link(ln: Item, to: Item, ghost items: set<Item>)
    requires CanLink(Snap(items), ln, to)
    modifies items`next, items`prev
    ensures Snap(items) == Linking(old(Snap(items)), ln, to)
  {
    ghost var m := Snap(items);
    ln.next := to.next;
    ln.prev := to;
    assert Snap(items) == m[ln := m[ln].(next := m[to].next, prev := to)];
    if to.next != null {
      to.next.prev := ln;
    }
    to.next := ln;
  }

  // alUnlink
  method Unlink(ln: Item, ghost items: set<Item>)
    requires CanUnlink(Snap(items), ln)
    modifies items`next, items`prev
    ensures Snap(items) == Unlinking(old(Snap(items)), ln)
  {
    if ln.next != null {
      ln.next.prev := ln.prev;
    }
    if ln.prev != null {
      ln.prev.next := ln.next;
    }
  }

  // ---- lists in a memory ----

  // f is a list, linked both ways, with no item twice.
  ghost predicate Linked(m: Memory, f: seq<Item>) {
    && |f| > 0
    && (forall i :: 0 <= i < |f| ==> f[i] in m)
    && (forall i, j :: 0 <= i < j < |f| ==> f[i] != f[j])
    && (forall i :: 0 <= i < |f| - 1 ==> m[f[i]].next == f[i + 1])
    && (forall i :: 0 < i < |f| ==> m[f[i]].prev == f[i - 1])
    && m[f[|f| - 1]].next == null
  }

  ghost predicate Apart(f: seq<Item>, g: seq<Item>) {
    forall i, j :: 0 <= i < |f| && 0 <= j < |g| ==> f[i] != g[j]
  }

  lemma LinkingInserts(m: Memory, f: seq<Item>, k: nat, ln: Item)
    requires Linked(m, f) && k < |f| && ln in m && ln !in f
    ensures Linked(Linking(m, ln, f[k]), f[..k + 1] + [ln] + f[k + 1..])
  {
    hide Linking;
    assert m[f[k]].next == if k + 1 < |f| then f[k + 1] else null;
    LinkingCells(m, ln, f[k]);
    var r, g := Linking(m, ln, f[k]), f[..k + 1] + [ln] + f[k + 1..];
    forall i | 0 <= i < |g|
      ensures g[i] in m && (i < |g| - 1 ==> r[g[i]].next == g[i + 1]) && (i > 0 ==> r[g[i]].prev == g[i - 1])
    {
      if i > k + 1 {
        assert g[i] == f[i - 1];
      }
    }
  }

  // Only the links of the three items involved change.
  lemma LinkingCells(m: Memory, ln: Item, to: Item)
    requires ln in m && to in m && ln != to && m[to].next != to && m[to].next != ln
    ensures var r, next := Linking(m, ln, to), m[to].next;
      && r[to].next == ln && r[to].prev == m[to].prev
      && r[ln].next == next && r[ln].prev == to
      && (next in m ==> r[next].prev == ln && r[next].next == m[next].next)
      && (forall x <- m :: x != to && x != ln && x != next ==> r[x] == m[x])
  {
  }

  lemma LinkingElsewhere(m: Memory, f: seq<Item>, k: nat, ln: Item, g: seq<Item>)
    requires Linked(m, f) && k < |f| && ln in m
    requires Linked(m, g) && Apart(f, g) && ln !in g
    ensures Linked(Linking(m, ln, f[k]), g)
  {
    assert m[f[k]].next == if k + 1 < |f| then f[k + 1] else null;
  }

  lemma UnlinkingDeletes(m: Memory, f: seq<Item>, k: nat)
    requires Linked(m, f) && 0 < k < |f|
    ensures Linked(Unlinking(m, f[k]), f[..k] + f[k + 1..])
  {
    assert m[f[k]].next == if k + 1 < |f| then f[k + 1] else null;
    assert m[f[k]].prev == f[k - 1];
  }

  lemma UnlinkingElsewhere(m: Memory, f: seq<Item>, k: nat, g: seq<Item>)
    requires Linked(m, f) && 0 < k < |f|
    requires Linked(m, g) && Apart(f, g)
    ensures Linked(Unlinking(m, f[k]), g)
  {
    assert m[f[k]].next == if k + 1 < |f| then f[k + 1] else null;
    assert m[f[k]].prev == f[k - 1];
  }

  // ---- the three lists of a queue ----

  // The free list, the queue, both with their heads, and the temporary list of a tempo
  // change, which has none.
  datatype Shape = Shape(free: seq<Item>, queue: seq<Item>, temp: seq<Item>) {
    ghost predicate Without(x: Item) {
      x !in free && x !in queue && x !in temp
    }
  }

  ghost predicate Shaped(m: Memory, s: Shape) {
    && Linked(m, s.free) && Linked(m, s.queue) && (s.temp != [] ==> Linked(m, s.temp))
    && Apart(s.free, s.queue) && Apart(s.free, s.temp) && Apart(s.queue, s.temp)
  }

  lemma FreeTaken(m: Memory, s: Shape, r: Shape)
    requires Shaped(m, s) && |s.free| > 1 && r == s.(free := s.free[..1] + s.free[2..])
    ensures Shaped(Unlinking(m, s.free[1]), r) && r.Without(s.free[1])
  {
    UnlinkingDeletes(m, s.free, 1);
    UnlinkingElsewhere(m, s.free, 1, s.queue);
    if s.temp != [] {
      UnlinkingElsewhere(m, s.free, 1, s.temp);
    }
  }

  lemma QueueTaken(m: Memory, s: Shape, k: nat, r: Shape)
    requires Shaped(m, s) && 0 < k < |s.queue| && r == s.(queue := s.queue[..k] + s.queue[k + 1..])
    ensures Shaped(Unlinking(m, s.queue[k]), r) && r.Without(s.queue[k])
  {
    UnlinkingDeletes(m, s.queue, k);
    UnlinkingElsewhere(m, s.queue, k, s.free);
    if s.temp != [] {
      UnlinkingElsewhere(m, s.queue, k, s.temp);
    }
  }

  lemma FreePut(m: Memory, s: Shape, x: Item, r: Shape)
    requires Shaped(m, s) && x in m && s.Without(x) && r == s.(free := s.free[..1] + [x] + s.free[1..])
    ensures Shaped(Linking(m, x, s.free[0]), r)
  {
    LinkingInserts(m, s.free, 0, x);
    LinkingElsewhere(m, s.free, 0, x, s.queue);
    if s.temp != [] {
      LinkingElsewhere(m, s.free, 0, x, s.temp);
    }
  }

  lemma QueuePut(m: Memory, s: Shape, k: nat, x: Item, r: Shape)
    requires Shaped(m, s) && k < |s.queue| && x in m && s.Without(x)
    requires r == s.(queue := s.queue[..k + 1] + [x] + s.queue[k + 1..])
    ensures Shaped(Linking(m, x, s.queue[k]), r)
  {
    LinkingInserts(m, s.queue, k, x);
    LinkingElsewhere(m, s.queue, k, x, s.free);
    if s.temp != [] {
      LinkingElsewhere(m, s.queue, k, x, s.temp);
    }
  }

  lemma TempPut(m: Memory, s: Shape, x: Item, r: Shape)
    requires Shaped(m, s) && s.temp != [] && x in m && s.Without(x)
    requires r == s.(temp := s.temp[..1] + [x] + s.temp[1..])
    ensures Shaped(Linking(m, x, s.temp[0]), r)
  {
    LinkingInserts(m, s.temp, 0, x);
    LinkingElsewhere(m, s.temp, 0, x, s.free);
    LinkingElsewhere(m, s.temp, 0, x, s.queue);
  }
}
