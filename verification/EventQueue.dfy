// src/audio/event.c: the timed event queue, an intrusive doubly linked list of items that
// each store their delay after the item before, and a list of free items. The tempo change
// of src/audio/csplayer.c, which edits the same list in place, is here too.
module EventQueues {
  import opened Machine
  import opened AudioEvents
  import opened DeltaList
  import opened Retiming
  import opened VoiceEvents
  import opened ItemLists
  import opened QueueSteps

  lemma {:induction false} FillsUp(f: seq<Item>, s: set<Item>)
    requires forall i, j :: 0 <= i < j < |f| ==> f[i] != f[j]
    requires (forall x <- f :: x in s) && |s| <= |f|
    ensures forall x <- s :: x in f
    decreases |f|
  {
    if f == [] {
      assert s == {};
    } else {
      FillsUp(f[1..], s - {f[0]});
      assert f == [f[0]] + f[1..];
    }
  }

  // `items` is the set of the items given.
  ghost predicate SetOf(given: seq<Item>, items: set<Item>) {
    items == set x | x in given
  }

  lemma {:induction false} AtMostGiven(given: seq<Item>, items: set<Item>)
    requires SetOf(given, items)
    ensures |items| <= |given|
  {
    if given == [] {
      assert items == {};
    } else {
      var rest := set x | x in given[1..];
      AtMostGiven(given[1..], rest);
      assert given == [given[0]] + given[1..];
      assert items == {given[0]} + rest;
    }
  }

  lemma GivenFits(given: seq<Item>, items: set<Item>, f: Item, a: Item)
    requires SetOf(given, items)
    ensures |items + {f, a}| <= |given| + 2 && forall i :: 0 <= i < |given| ==> given[i] in items
  {
    AtMostGiven(given, items);
    AtMostTwoMore(items, f, a);
  }

  lemma AtMostTwoMore(items: set<Item>, f: Item, a: Item)
    ensures |items + {f, a}| <= |items| + 2
  {
    assert items + {f, a} == items + {f} + {a};
    assert {f} - items <= {f} && |items + {f}| <= |items| + 1;
  }

  // ALEventQueue
  class EventQueue {
    const freeList: Item
    const allocList: Item
    var eventCount: s32

    // The lists, and what the queue and the temporary list of a tempo change store.
    ghost var shape: Shape
    ghost var contents: seq<Entry>
    ghost var temp: seq<Entry>
    // The two heads and the items given to the constructor, and how many that is.
    ghost const nodes: set<Item>
    ghost const total: nat

    ghost function Repr(): set<object> {
      {this} + nodes
    }

    // How many items are free.
    ghost function Free(): int
      reads this
    {
      |shape.free| - 1
    }

    // The lists hold every item but those in hand.
    ghost predicate Consistent(inHand: nat)
      reads this, nodes
    {
      && Holds(Snap(nodes), shape, contents, temp)
      && |shape.free| > 0 && shape.free[0] == freeList
      && |shape.queue| > 0 && shape.queue[0] == allocList
      && |shape.free| + |shape.queue| + |shape.temp| + inHand == total
    }

    ghost predicate Valid()
      reads this, nodes
    {
      Consistent(0) && temp == [] && Stocked()
    }

    // There are no more items than the lists hold.
    ghost predicate Stocked() {
      |nodes| <= total
    }

    // The free list and the queue share out the items: none is lost, and none is on both lists
    // or twice on one.
    lemma ItemsAreSharedOut()
      requires Valid()
      ensures forall x <- nodes :: (x in shape.free) != (x in shape.queue)
      ensures forall i, j :: 0 <= i < j < |shape.free| ==> shape.free[i] != shape.free[j]
      ensures forall i, j :: 0 <= i < j < |shape.queue| ==> shape.queue[i] != shape.queue[j]
    {
      hide Stores;
      QueuedAt(0, 0);
      FillsUp(shape.free + shape.queue, nodes);
    }

    lemma FreeItems()
      requires Valid()
      ensures Free() >= 0
    {
    }

    // What the code sees at the k-th item.
    lemma QueuedAt(k: nat, inHand: nat)
      requires Consistent(inHand) && k <= |contents|
      ensures |shape.queue| == |contents| + 1 && shape.queue[k] in nodes && |shape.temp| == |temp|
      ensures shape.queue[k].next == if k < |contents| then shape.queue[k + 1] else null
      ensures k < |contents| ==> shape.queue[k + 1] in nodes
      ensures k < |contents| ==>
        shape.queue[k + 1].delta == contents[k].delta && shape.queue[k + 1].evt == contents[k].evt
    {
      QueueAt(Snap(nodes), shape, contents, temp, k);
    }

    // alEvtqNew
    constructor (given: seq<Item>, ghost items: set<Item>)
      requires forall i, j :: 0 <= i < j < |given| ==> given[i] != given[j]
      requires SetOf(given, items)
      modifies items
      ensures Valid() && contents == [] && Free() == |given|
      ensures fresh(freeList) && fresh(allocList) && nodes == items + {freeList, allocList} && total == |given| + 2
    {
      var f := new Item();
      var a := new Item();
      freeList, allocList := f, a;
      eventCount := 0;
      contents, temp := [], [];
      shape := Shape([f], [a], []);
      nodes, total := items + {f, a}, |given| + 2;
      new;
      hide SetOf, Holds, Snap;
      GivenFits(given, items, f, a);
      SnapAt(nodes, f);
      SnapAt(nodes, a);
      HeadsHold(Snap(nodes), f, a);
      GiveAll(given);
    }

    // The loop of alEvtqNew: every item goes to the front of the free list.
    method GiveAll(given: seq<Item>)
      requires Consistent(|given|) && contents == [] && temp == [] && |shape.free| == 1
      requires forall i, j :: 0 <= i < j < |given| ==> given[i] != given[j]
      requires forall i :: 0 <= i < |given| ==> given[i] in nodes && shape.Without(given[i])
      modifies `shape, nodes`next, nodes`prev
      ensures Consistent(0) && |shape.free| == |given| + 1
    {
      for i := 0 to |given|
        invariant Consistent(|given| - i) && |shape.free| == i + 1
        invariant forall j :: i <= j < |given| ==> shape.Without(given[j])
      {
        PutFree(given[i], |given| - i - 1);
      }
    }

    // alLink to the free list.
    method PutFree(ln: Item, ghost inHand: nat)
      requires Consistent(inHand + 1) && ln in nodes && shape.Without(ln)
      modifies `shape, nodes`next, nodes`prev
      ensures Consistent(inHand) && shape == Given(old(shape), ln)
    {
      hide Holds, Snap, Linking, Unlinking, CanLink;
      SnapKeys(nodes);
      GiveStep(Snap(nodes), shape, contents, temp, ln);
      Link(ln, freeList, nodes);
      shape := Given(shape, ln);
    }

    // alUnlink of the k-th queued item.
    method TakeQueued(ln: Item, ghost k: nat, ghost inHand: nat)
      requires Consistent(inHand) && k < |contents| && k + 1 < |shape.queue| && ln == shape.queue[k + 1]
      modifies `shape, `contents, nodes`next, nodes`prev
      ensures Consistent(inHand + 1) && shape == Taken(old(shape), k) && shape.Without(ln)
      ensures contents == old(contents)[..k] + old(contents)[k + 1..]
    {
      hide Holds, Snap, Linking, Unlinking, CanUnlink;
      TakeStep(Snap(nodes), shape, contents, temp, k);
      Unlink(ln, nodes);
      shape, contents := Taken(shape, k), contents[..k] + contents[k + 1..];
    }

    // alEvtqNextEvent. An empty queue hands out the type -1 with no delay.
    method NextEvent() returns (evt: Event, delta: s32)
      requires Valid()
      modifies Repr()
      ensures Valid()
      ensures old(contents) == [] ==> evt == Empty && delta == 0 && contents == []
      ensures old(contents) != [] ==>
        evt == old(contents)[0].evt && delta == old(contents)[0].delta && contents == old(contents)[1..]
      ensures Free() == old(Free()) + old(|contents|) - |contents|
    {
      hide Holds, Snap;
      QueuedAt(0, 0);
      var item := allocList.next;
      if item != null {
        TakeQueued(item, 0, 0);
        evt := item.evt;
        PutFree(item, 0);
        delta := item.delta;
      } else {
        evt, delta := Empty, 0;
      }
    }

    // The walk of alEvtqPostEvent and __CSPRepostEvent: the item `node` at position k behind
    // which an event due in `delay` goes, and its delay after that item.
    method FindSlot(delay: s32, ghost inHand: nat) returns (node: Item, delta: s32, ghost k: nat)
      requires Consistent(inHand) && delay >= 0
      ensures k <= |contents| && k < |shape.queue| && node == shape.queue[k] && 0 <= delta <= delay
      ensures k < |contents| ==> delta < contents[k].delta
      ensures forall evt, last ::
        Place(contents, evt, delay, last) == contents[..k] + Place(contents[k..], evt, delta, last)
    {
      hide Holds, Snap, Place;
      node, delta, k := allocList, delay, 0;
      assert contents[0..] == contents && contents[..0] == [];
      QueuedAt(0, inHand);
      while node.next != null
        invariant k <= |contents| && k < |shape.queue| && node == shape.queue[k] && 0 <= delta <= delay
        invariant node.next == if k < |contents| then shape.queue[k + 1] else null
        invariant forall evt, last ::
          Place(contents, evt, delay, last) == contents[..k] + Place(contents[k..], evt, delta, last)
        decreases |contents| - k
      {
        var nextItem := node.next;
        QueuedAt(k, inHand);
        if delta < nextItem.delta {
          break;
        }
        PlacePasses(contents, k, delta);
        delta := delta - nextItem.delta;
        node := nextItem;
        k := k + 1;
        QueuedAt(k, inHand);
      }
    }

    // The link step of both: the item in hand goes behind `node`, and its delay comes off the
    // item after it.
    method InsertAt(item: Item, node: Item, delta: s32, last: bool, ghost k: nat, ghost inHand: nat)
      requires Consistent(inHand + 1) && item in nodes && shape.Without(item)
      requires k <= |contents| && k < |shape.queue| && node == shape.queue[k] && 0 <= delta
      requires (k < |contents| ==> delta < contents[k].delta) && (k == |contents| && last ==> delta == 0)
      modifies `shape, `contents, nodes`next, nodes`prev, nodes`delta
      ensures Consistent(inHand) && shape == Inserted(old(shape), k, item)
      ensures contents == old(contents)[..k] + Place(old(contents)[k..], item.evt, delta, last)
    {
      hide Holds, Snap, Linking, CanLink, Charging, Place;
      QueuedAt(k, inHand + 1);
      SnapKeys(nodes);
      SnapAt(nodes, node);
      SnapAt(nodes, item);
      InsertStep(Snap(nodes), shape, contents, temp, k, item, delta, last);
      Charge(item, node.next, delta);
      Link(item, node, nodes);
      contents := contents[..k] + Place(contents[k..], item.evt, delta, last);
      shape := Inserted(shape, k, item);
    }

    method Charge(item: Item, next: Item?, delta: s32)
      requires item in nodes && (next == null || next in nodes) && next != item && 0 <= delta
      requires next != null ==> delta <= next.delta
      modifies nodes`delta
      ensures Snap(nodes) == Charging(old(Snap(nodes)), item, next, delta)
      ensures item.evt == old(item.evt)
    {
      item.delta := delta;
      if next != null {
        next.delta := next.delta - delta;
      }
    }

    // Both together: the item in hand is queued `delay` from now, or with `last` at the end
    // when the walk gets that far.
    method Insert(item: Item, delay: s32, last: bool, ghost inHand: nat)
      requires Consistent(inHand + 1) && item in nodes && shape.Without(item) && delay >= 0
      modifies `shape, `contents, nodes`next, nodes`prev, nodes`delta
      ensures Consistent(inHand) && shape.free == old(shape.free) && shape.temp == old(shape.temp)
      ensures contents == Place(old(contents), item.evt, delay, last)
    {
      hide Holds, Snap, Place;
      var node, delta, k := FindSlot(delay, inHand + 1);
      QueuedAt(k, inHand + 1);
      if node.next == null && last {
        PlaceEnds(contents[k..], item.evt, delta);
        delta := 0;
      }
      InsertAt(item, node, delta, last, k, inHand);
    }

    // alEvtqPostEvent. Without a free item the event is dropped.
    method PostEvent(evt: Event, delay: s32)
      requires Valid() && delay >= 0
      modifies Repr()
      ensures Valid()
      ensures old(Free()) == 0 ==> contents == old(contents) && Free() == 0
      ensures old(Free()) > 0 ==> contents == Post(old(contents), evt, delay) && Free() == old(Free()) - 1
    {
      hide Holds, Snap, Place;
      FirstFree(0);
      var item := freeList.next;
      if item != null {
        TakeFree(item, evt, 0);
        Insert(item, delay, delay == AL_EVTQ_END, 0);
      }
    }

    lemma FirstFree(inHand: nat)
      requires Consistent(inHand)
      ensures freeList.next == if |shape.free| > 1 then shape.free[1] else null
      ensures |shape.free| > 1 ==> shape.free[1] in nodes
    {
      FreeAt(Snap(nodes), shape, contents, temp);
    }

    // alUnlink of the first free item, which gets the event.
    method TakeFree(item: Item, evt: Event, ghost inHand: nat)
      requires Consistent(inHand) && |shape.free| > 1 && item == shape.free[1]
      modifies `shape, nodes`next, nodes`prev, item`evt
      ensures Consistent(inHand + 1) && shape.Without(item) && item in nodes && item.evt == evt
      ensures shape == Dropped(old(shape))
    {
      hide Holds, Snap, Unlinking, CanUnlink;
      SnapKeys(nodes);
      TakeFreeStep(Snap(nodes), shape, contents, temp, item, evt);
      Unlink(item, nodes);
      StoreEvent(item, evt);
      shape := Dropped(shape);
    }

    method StoreEvent(item: Item, evt: Event)
      requires item in nodes
      modifies item`evt
      ensures Snap(nodes) == SetEvent(old(Snap(nodes)), item, evt) && item.evt == evt
    {
      item.evt := evt;
    }

    // alEvtqFlush
    method Flush()
      requires Valid()
      modifies Repr()
      ensures Valid() && contents == [] && Free() == old(Free()) + old(|contents|)
    {
      hide Holds, Snap;
      QueuedAt(0, 0);
      var thisNode := allocList.next;
      while thisNode != null
        invariant Valid() && |shape.queue| == |contents| + 1
        invariant thisNode == if contents == [] then null else shape.queue[1]
        invariant Free() + |contents| == old(Free()) + old(|contents|)
        decreases |contents|
      {
        QueuedAt(0, 0);
        QueuedAt(1, 0);
        var nextNode := thisNode.next;
        TakeQueued(thisNode, 0, 0);
        PutFree(thisNode, 0);
        thisNode := nextNode;
      }
    }

    // A queued item's delay grows.
    method AddDelay(item: Item, extra: s32, ghost k: nat, ghost inHand: nat)
      requires Consistent(inHand) && k < |contents| && k + 1 < |shape.queue| && item == shape.queue[k + 1]
      requires extra >= 0 && contents[k].delta + extra < S32_LIMIT
      modifies `contents, nodes`delta
      ensures Consistent(inHand) && contents == Grown(old(contents), k, extra)
      ensures forall x <- nodes :: x != item ==> x.delta == old(x.delta)
    {
      hide Holds, Snap, SetDelta;
      QueuedAt(k, inHand);
      SnapAt(nodes, item);
      GrowStep(Snap(nodes), shape, contents, temp, k, item, extra);
      StoreDelta(item, item.delta + extra);
      contents := Grown(contents, k, extra);
    }

    method StoreDelta(item: Item, delta: s32)
      requires item in nodes
      modifies item`delta
      ensures Snap(nodes) == SetDelta(old(Snap(nodes)), item, delta)
      ensures item.delta == delta
    {
      item.delta := delta;
    }

    // The body of the loops that take out single items: the k-th item goes to the free list
    // and its successor takes over its delay.
    method TakeOut(thisNode: Item, nextNode: Item?, ghost k: nat)
      requires Valid() && Total(contents) < S32_LIMIT && k < |contents| && |shape.queue| == |contents| + 1
      requires thisNode == shape.queue[k + 1] && nextNode == if k + 1 < |contents| then shape.queue[k + 2] else null
      modifies Repr()
      ensures Valid() && contents == Unlinked(old(contents), k) && Free() == old(Free()) + 1
      ensures |shape.queue| == |contents| + 1 && Total(contents) < S32_LIMIT
      ensures nextNode == if k < |contents| then shape.queue[k + 1] else null
    {
      hide Holds, Snap;
      QueuedAt(k, 0);
      RemoveStep(contents, k, e => true);
      UnlinkedIs(contents, k);
      if nextNode != null {
        AddDelay(nextNode, thisNode.delta, k + 1, 0);
      }
      TakeQueued(thisNode, k, 0);
      PutFree(thisNode, 0);
    }

    // The loop that alEvtqFlushType runs over the queued items, and __seqpReleaseVoice
    // (seqplayer.c) as well, each with its own test.
    method RemoveMatching(drop: Event -> bool)
      requires Valid() && Total(contents) < S32_LIMIT
      modifies Repr()
      ensures Valid() && contents == Remove(old(contents), drop, 0)
      ensures Free() == old(Free()) + old(|contents|) - |contents|
    {
      hide Holds, Snap, Remove;
      assert contents[0..] == contents && contents[..0] == [];
      QueuedAt(0, 0);
      var thisNode := allocList.next;
      ghost var k := 0;
      while thisNode != null
        invariant Valid() && k <= |contents| && |shape.queue| == |contents| + 1
        invariant thisNode == if k < |contents| then shape.queue[k + 1] else null
        invariant Total(contents) < S32_LIMIT
        invariant Remove(old(contents), drop, 0) == contents[..k] + Remove(contents[k..], drop, 0)
        invariant Free() + |contents| == old(Free()) + old(|contents|)
        decreases |contents| - k
      {
        QueuedAt(k, 0);
        QueuedAt(k + 1, 0);
        var nextNode := thisNode.next;
        if drop(thisNode.evt) {
          RemoveStep(contents, k, drop);
          TakeOut(thisNode, nextNode, k);
        } else {
          KeepStep(contents, k, drop);
          k := k + 1;
        }
        thisNode := nextNode;
      }
      assert contents[k..] == [] && contents[..k] == contents;
      RemoveNone(drop);
    }

    // alEvtqFlushType
    method FlushType(tag: EventType)
      requires Valid() && Total(contents) < S32_LIMIT
      modifies Repr()
      ensures Valid() && contents == Remove(old(contents), HasType(tag), 0)
      ensures Free() == old(Free()) + old(|contents|) - |contents|
    {
      RemoveMatching(HasType(tag));
    }

    // ---- the edits of seqplayer.c ----

    // __seqpStopOsc
    method StopOscillators(voice: VoiceId, flags: Flags) returns (left: Flags)
      requires Valid() && Total(contents) < S32_LIMIT && flags.Any()
      modifies Repr()
      ensures Valid() && (contents, left) == StopOsc(old(contents), voice, flags, 0)
      ensures Free() == old(Free()) + old(|contents|) - |contents|
    {
      hide Holds, Snap, StopOsc, Behind, Unlinked, Total;
      assert contents[0..] == contents && contents[..0] == [];
      StopOscNone(voice, flags);
      QueuedAt(0, 0);
      var thisNode := allocList.next;
      left := flags;
      ghost var k := 0;
      while thisNode != null
        invariant Valid() && k <= |contents| && |shape.queue| == |contents| + 1 && Total(contents) < S32_LIMIT
        invariant thisNode == if k < |contents| then shape.queue[k + 1] else null
        invariant StopOsc(old(contents), voice, flags, 0) ==
          Behind(contents[..k], StopOsc(contents[k..], voice, left, 0))
        invariant Free() + |contents| == old(Free()) + old(|contents|)
        decreases |contents| - k
      {
        QueuedAt(k, 0);
        QueuedAt(k + 1, 0);
        var nextNode := thisNode.next;
        if Oscillates(thisNode.evt, voice) {
          StopOscTaken(contents, k, voice, left);
          left := left.Less(thisNode.evt);
          TakeOut(thisNode, nextNode, k);
          if !left.Any() {
            return;
          }
        } else {
          StopOscPass(contents, k, voice, left);
          k := k + 1;
        }
        thisNode := nextNode;
      }
      assert contents[k..] == [] && contents[..k] == contents;
      StopOscEnd(contents, voice, left);
    }

    // __voiceNeedsNoteKill
    method VoiceNeedsNoteKill(voice: VoiceId, killTime: s32) returns (needsNoteKill: bool)
      requires Valid() && Total(contents) < S32_LIMIT && killTime >= 0
      modifies Repr()
      ensures Valid() && (needsNoteKill, contents) == NeedsNoteKill(old(contents), voice, killTime)
      ensures Free() == old(Free()) + old(|contents|) - |contents|
    {
      hide Holds, Snap, EndAt, Total;
      assert contents[0..] == contents && contents[..0] == [];
      NoDelay();
      QueuedAt(0, 0);
      var thisNode := allocList.next;
      var itemTime: s32 := 0;
      ghost var k := 0;
      while thisNode != null
        invariant Valid() && k <= |contents| && |shape.queue| == |contents| + 1 && contents == old(contents)
        invariant thisNode == if k < |contents| then shape.queue[k + 1] else null
        invariant Free() == old(Free()) && itemTime == Total(contents[..k])
        invariant EndAt(contents, voice) == k + EndAt(contents[k..], voice)
        decreases |contents| - k
      {
        QueuedAt(k, 0);
        QueuedAt(k + 1, 0);
        var nextNode := thisNode.next;
        EndFound(contents, k, voice);
        TotalNext(contents, k);
        itemTime := itemTime + thisNode.delta;
        if thisNode.evt == NoteEnd(voice) {
          if itemTime > killTime {
            TakeOut(thisNode, nextNode, k);
            return true;
          }
          return false;
        }
        k := k + 1;
        thisNode := nextNode;
      }
      EndFound(contents, k, voice);
      needsNoteKill := true;
    }

    lemma NoDelay()
      ensures Total([]) == 0
    {
    }

    // ---- the tempo change of __CSPHandleMetaMsg ----

    // A note-off in hand joins the temporary list: the first one starts it, a later one is
    // linked behind the first.
    method LinkTemp(item: Item, first: Item?, ghost inHand: nat)
      requires Consistent(inHand + 1) && item in nodes && shape.Without(item) && item.delta >= 0
      requires first == First(shape)
      modifies `shape, `temp, nodes`next, nodes`prev
      ensures Consistent(inHand) && shape == Joined(old(shape), item)
      ensures temp == Push(old(temp), Entry(item.delta, item.evt))
    {
      hide Holds, Snap, Linking, CanLink, Push;
      SnapKeys(nodes);
      SnapAt(nodes, item);
      JoinStep(Snap(nodes), shape, contents, temp, item);
      if first != null {
        Link(item, first, nodes);
      } else {
        ClearLinks(item);
      }
      temp := Push(temp, Entry(item.delta, item.evt));
      shape := Joined(shape, item);
    }

    method ClearLinks(item: Item)
      requires item in nodes
      modifies item`next, item`prev
      ensures Snap(nodes) == TempLinking(old(Snap(nodes)), item, null)
    {
      item.next := null;
      item.prev := null;
    }

    // Its first loop: every note-off goes to the temporary list, with its whole delay.
    method CollectNoteOffs() returns (first: Item?)
      requires Valid() && Total(contents) < S32_LIMIT && shape.temp == []
      modifies Repr()
      ensures Consistent(0) && first == First(shape) && Free() == old(Free())
      ensures contents == Remove(old(contents), IsNoteOff, 0)
      ensures temp == PushAll([], NoteOffs(old(contents), 0))
    {
      hide Holds, Snap, Remove, Push, PushAll, NoteOffs, Total;
      assert contents[0..] == contents && contents[..0] == [];
      QueuedAt(0, 0);
      var thisNode := allocList.next;
      var curDelta: s32 := 0;
      first := null;
      ghost var k := 0;
      while thisNode != null
        invariant Consistent(0) && first == First(shape) && k <= |contents| && |shape.queue| == |contents| + 1
        invariant thisNode == if k < |contents| then shape.queue[k + 1] else null
        invariant curDelta >= 0 && curDelta + Total(contents[k..]) < S32_LIMIT
        invariant Remove(old(contents), IsNoteOff, 0) == contents[..k] + Remove(contents[k..], IsNoteOff, 0)
        invariant PushAll([], NoteOffs(old(contents), 0)) == PushAll(temp, NoteOffs(contents[k..], curDelta))
        invariant Free() == old(Free())
        decreases |contents| - k
      {
        QueuedAt(k, 0);
        QueuedAt(k + 1, 0);
        ghost var q := contents;
        TotalFirst(q, k);
        var nextNode := thisNode.next;
        if thisNode.evt.NoteOff? {
          CollectTake(q, k, curDelta);
          RemoveStep(q, k, IsNoteOff);
          UnlinkedIs(q, k);
          PushFirst(temp, Entry(curDelta + thisNode.delta, thisNode.evt), NoteOffs(Unlinked(q, k)[k..], curDelta));
          first, curDelta := MoveToTemp(thisNode, nextNode, first, curDelta, k);
        } else {
          CollectPass(q, k, curDelta);
          KeepStep(q, k, IsNoteOff);
          curDelta := curDelta + thisNode.delta;
          k := k + 1;
        }
        thisNode := nextNode;
      }
      assert contents[k..] == [] && contents[..k] == contents;
      RemoveNone(IsNoteOff);
      PushNone(temp, curDelta);
    }

    // The body of that loop for a note-off.
    method MoveToTemp(thisNode: Item, nextNode: Item?, first: Item?, passed: s32, ghost k: nat)
      returns (newFirst: Item, curDelta: s32)
      requires Consistent(0) && first == First(shape) && k < |contents| && |shape.queue| == |contents| + 1
      requires thisNode == shape.queue[k + 1] && nextNode == if k + 1 < |contents| then shape.queue[k + 2] else null
      requires passed >= 0 && passed + contents[k].delta < S32_LIMIT
      requires k + 1 < |contents| ==> contents[k].delta + contents[k + 1].delta < S32_LIMIT
      modifies Repr()
      ensures Consistent(0) && newFirst == First(shape) && contents == Unlinked(old(contents), k)
      ensures shape.queue == old(shape.queue[..k + 1] + shape.queue[k + 2..]) && shape.free == old(shape.free)
      ensures temp == Push(old(temp), Entry(passed + old(contents)[k].delta, old(contents)[k].evt))
      ensures curDelta == if nextNode == null then passed + old(contents)[k].delta else passed
    {
      hide Holds, Snap, Push;
      QueuedAt(k, 0);
      ghost var s, q, t := shape, contents, temp;
      UnlinkedIs(q, k);
      curDelta := passed + thisNode.delta;
      TakeQueued(thisNode, k, 0);
      LinkTemp(thisNode, first, 0);
      newFirst := if first != null then first else thisNode;
      var tempDelta := curDelta;
      if nextNode != null {
        curDelta := curDelta - thisNode.delta;
        AddDelay(nextNode, thisNode.delta, k, 0);
      }
      SetTempDelta(thisNode, tempDelta, Taken(s, k), t, q[k]);
    }

    method SetTempDelta(item: Item, delta: s32, ghost s: Shape, ghost t: seq<Entry>, ghost e: Entry)
      requires Consistent(0) && shape == Joined(s, item) && |s.temp| == |t| && temp == Push(t, e) && delta >= 0
      modifies item`delta, `temp
      ensures Consistent(0) && temp == Push(t, Entry(delta, e.evt))
    {
      hide Holds, Snap, SetDelta, Push;
      SnapKeys(nodes);
      SetJoinedStep(Snap(nodes), s, item, contents, t, e, delta);
      StoreDelta(item, delta);
      temp := Push(t, Entry(delta, e.evt));
    }

    // Its second loop: every collected note-off is rescaled and goes back into the queue.
    method RepostNoteOffs(first: Item?, oldUspt: s32, newUspt: s32)
      requires Consistent(0) && Stocked() && first == First(shape) && oldUspt > 0 && newUspt >= 0
      requires forall x <- temp :: Rescale(oldUspt, newUspt)(x.delta) < S32_LIMIT
      modifies Repr()
      ensures Valid() && shape.temp == [] && Free() == old(Free())
      ensures contents == Repost(old(contents), old(temp), Rescale(oldUspt, newUspt))
    {
      hide Holds, Snap, Repost, Place;
      var thisNode := first;
      QueuedAt(0, 0);
      while thisNode != null
        invariant Consistent(0) && thisNode == First(shape) && Free() == old(Free()) && |shape.temp| == |temp|
        invariant forall x <- temp :: Rescale(oldUspt, newUspt)(x.delta) < S32_LIMIT
        invariant Repost(contents, temp, Rescale(oldUspt, newUspt)) ==
          Repost(old(contents), old(temp), Rescale(oldUspt, newUspt))
        decreases |temp|
      {
        var nextNode := thisNode.next;
        RepostFirst(contents, temp, Rescale(oldUspt, newUspt));
        PopTemp(thisNode);
        var ticks := thisNode.delta / oldUspt;
        RepostEvent(thisNode, ticks * newUspt);
        thisNode := nextNode;
        QueuedAt(0, 0);
      }
      RepostNone(contents, Rescale(oldUspt, newUspt));
    }

    ghost method PopTemp(item: Item)
      requires Consistent(0) && First(shape) == item && temp != []
      modifies `shape, `temp
      ensures Consistent(1) && item in nodes && shape.Without(item) && item.next == First(shape)
      ensures item.delta == old(temp)[0].delta && item.evt == old(temp)[0].evt
      ensures temp == old(temp)[1..] && shape == old(shape).(temp := old(shape).temp[1..])
    {
      hide Holds, Snap;
      SnapKeys(nodes);
      PopTempStep(Snap(nodes), shape, contents, temp, shape.(temp := shape.temp[1..]));
      SnapAt(nodes, item);
      temp, shape := temp[1..], shape.(temp := shape.temp[1..]);
    }

    // __CSPRepostEvent, with the new delay stored in the item before.
    method RepostEvent(item: Item, delay: s32)
      requires Consistent(1) && item in nodes && shape.Without(item) && delay >= 0
      modifies `shape, `contents, nodes`next, nodes`prev, nodes`delta
      ensures Consistent(0) && shape.free == old(shape.free) && shape.temp == old(shape.temp)
      ensures contents == Place(old(contents), item.evt, delay, false)
    {
      hide Holds, Snap, SetDelta, Place;
      SnapKeys(nodes);
      HandDeltaStep(Snap(nodes), shape, contents, temp, item, delay);
      StoreDelta(item, delay);
      Insert(item, delay, false, 0);
    }

    // The tempo change as a whole.
    method RetimeNoteOffs(oldUspt: s32, newUspt: s32)
      requires Valid() && Total(contents) < S32_LIMIT && oldUspt > 0 && newUspt >= 0
      requires forall x <- NoteOffs(contents, 0) :: Rescale(oldUspt, newUspt)(x.delta) < S32_LIMIT
      modifies Repr()
      ensures Valid() && contents == Retime(old(contents), Rescale(oldUspt, newUspt)) && Free() == old(Free())
    {
      hide Holds, Snap, Repost, PushAll, NoteOffs, Remove, Total;
      QueuedAt(0, 0);
      PushAllKeepsBound(contents, Rescale(oldUspt, newUspt), S32_LIMIT);
      var first := CollectNoteOffs();
      RepostNoteOffs(first, oldUspt, newUspt);
    }
  }
}
