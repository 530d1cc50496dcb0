// What is left of a queue when only some kinds of events are looked at, in absolute time:
// most edits of the queue do not show in most views.
module Views {
  import opened AudioEvents
  import opened DeltaList
  import opened Retiming
  import opened VoiceEvents

  // The queue without the events that `drop` matches.
  function View(q: seq<Entry>, now: int, drop: Event -> bool): seq<Timed> {
    Keep(Abs(q, now), drop)
  }

  lemma {:induction false} InsertAdds(a: seq<Timed>, x: Timed)
    ensures multiset(Insert(a, x)) == multiset(a) + multiset{x}
  {
    if a != [] && x.time >= a[0].time {
      assert a == [a[0]] + a[1..];
      InsertAdds(a[1..], x);
    }
  }

  lemma {:induction false} KeepSorted(a: seq<Timed>, drop: Event -> bool)
    requires Sorted(a)
    ensures Sorted(Keep(a, drop))
    ensures forall x <- Keep(a, drop) :: x in a && !drop(x.evt)
  {
    if a != [] {
      assert a == [a[0]] + a[1..];
      KeepSorted(a[1..], drop);
    }
  }

  lemma {:induction false} KeepInsert(a: seq<Timed>, x: Timed, drop: Event -> bool)
    requires Sorted(a) && !drop(x.evt)
    ensures Keep(Insert(a, x), drop) == Insert(Keep(a, drop), x)
  {
    if a == [] || x.time < a[0].time {
      assert ([x] + a)[1..] == a;
      KeepSorted(a, drop);
      if Keep(a, drop) != [] {
        assert Keep(a, drop)[0] in a;
      }
    } else {
      assert Insert(a, x)[1..] == Insert(a[1..], x);
      KeepInsert(a[1..], x, drop);
      assert ([a[0]] + Keep(a[1..], drop))[1..] == Keep(a[1..], drop);
    }
  }

  lemma {:induction false} KeepAppend(a: seq<Timed>, b: seq<Timed>, drop: Event -> bool)
    ensures Keep(a + b, drop) == Keep(a, drop) + Keep(b, drop)
  {
    if a == [] {
      assert a + b == b;
    } else {
      assert (a + b)[1..] == a[1..] + b;
      KeepAppend(a[1..], b, drop);
    }
  }

  lemma {:induction false} KeepKept(a: seq<Timed>, gone: Event -> bool, drop: Event -> bool)
    requires forall e :: gone(e) ==> drop(e)
    ensures Keep(Keep(a, gone), drop) == Keep(a, drop)
  {
    if a != [] {
      KeepKept(a[1..], gone, drop);
      if !gone(a[0].evt) {
        assert Keep(a, gone)[1..] == Keep(a[1..], gone);
      }
    }
  }

  // ---- posting ----

  lemma PostUnseen(q: seq<Entry>, evt: Event, delay: nat, now: int, drop: Event -> bool)
    requires drop(evt)
    ensures View(Post(q, evt, delay), now, drop) == View(q, now, drop)
  {
    if delay == AL_EVTQ_END && Total(q) <= delay {
      PlaceLast(q, evt, delay);
      AbsAppend(q, Entry(0, evt), now);
      KeepAppend(Abs(q, now), [Timed(now + Total(q), evt)], drop);
      assert Keep([Timed(now + Total(q), evt)], drop) == [];
    } else {
      if delay == AL_EVTQ_END {
        PlaceLastOnlyIf(q, evt, delay);
      }
      PlaceRefines(q, evt, delay, now);
      KeepInsertDropped(Abs(q, now), Timed(now + delay, evt), drop);
    }
  }

  lemma {:induction false} PostSeen(q: seq<Entry>, evt: Event, delay: nat, now: int, drop: Event -> bool)
    requires !drop(evt) && delay < AL_EVTQ_END
    ensures View(Post(q, evt, delay), now, drop) == Insert(View(q, now, drop), Timed(now + delay, evt))
  {
    PlaceRefines(q, evt, delay, now);
    AbsSorted(q, now);
    KeepInsert(Abs(q, now), Timed(now + delay, evt), drop);
  }

  // At the end of the queue: behind everything, at the time of what was last.
  lemma {:induction false} PostLastSeen(q: seq<Entry>, evt: Event, now: int, drop: Event -> bool)
    requires !drop(evt) && Total(q) <= AL_EVTQ_END
    ensures View(Post(q, evt, AL_EVTQ_END), now, drop) == View(q, now, drop) + [Timed(now + Total(q), evt)]
  {
    PlaceLast(q, evt, AL_EVTQ_END);
    AbsAppend(q, Entry(0, evt), now);
    KeepAppend(Abs(q, now), [Timed(now + Total(q), evt)], drop);
    assert Keep([Timed(now + Total(q), evt)], drop) == [Timed(now + Total(q), evt)];
  }

  lemma {:induction false} AbsAppend(q: seq<Entry>, x: Entry, now: int)
    ensures Abs(q + [x], now) == Abs(q, now) + [Timed(now + Total(q) + x.delta, x.evt)]
  {
    if q == [] {
      assert q + [x] == [x];
    } else {
      assert (q + [x])[1..] == q[1..] + [x];
      AbsAppend(q[1..], x, now + q[0].delta);
    }
  }

  // ---- removing ----

  lemma {:induction false} RemoveUnseen(q: seq<Entry>, gone: Event -> bool, now: int, drop: Event -> bool)
    requires forall e :: gone(e) ==> drop(e)
    ensures View(Remove(q, gone, 0), now, drop) == View(q, now, drop)
  {
    RemoveRefines(q, gone, 0, now);
    KeepKept(Abs(q, now), gone, drop);
  }

  lemma UnlinkedUnseen(q: seq<Entry>, k: nat, now: int, drop: Event -> bool)
    requires k < |q| && drop(q[k].evt)
    ensures View(Unlinked(q, k), now, drop) == View(q, now, drop)
  {
    hide Unlinked;
    var a := Abs(q, now);
    UnlinkedRefines(q, k, now);
    AbsEvent(q, k, now);
    KeepAppend(a[..k], a[k + 1..], drop);
    KeepAppend(a[..k], a[k..], drop);
    assert a == a[..k] + a[k..] && a[k..][1..] == a[k + 1..];
  }

  lemma {:induction false} AbsEvent(q: seq<Entry>, k: nat, now: int)
    requires k < |q|
    ensures Abs(q, now)[k].evt == q[k].evt
  {
    if k > 0 {
      AbsEvent(q[1..], k - 1, now + q[0].delta);
    }
  }

  lemma NoteKillUnseen(q: seq<Entry>, v: VoiceId, limit: nat, now: int, drop: Event -> bool)
    requires drop(NoteEnd(v))
    ensures View(NeedsNoteKill(q, v, limit).1, now, drop) == View(q, now, drop)
  {
    hide Unlinked;
    var k := EndAt(q, v);
    if k < |q| {
      UnlinkedUnseen(q, k, now, drop);
    }
  }

  lemma {:induction false} StopOscUnseen(
    q: seq<Entry>, v: VoiceId, flags: Flags, carry: nat, now: int, drop: Event -> bool)
    requires forall e :: Oscillates(e, v) ==> drop(e)
    ensures View(StopOsc(q, v, flags, carry).0, now, drop) == View(q, now + carry, drop)
  {
    if q != [] {
      var a := Abs(q, now + carry);
      assert a[1..] == Abs(q[1..], now + carry + q[0].delta);
      if Oscillates(q[0].evt, v) {
        if flags.Less(q[0].evt).Any() {
          StopOscUnseen(q[1..], v, flags.Less(q[0].evt), carry + q[0].delta, now, drop);
        } else {
          AbsCharged(q[1..], carry + q[0].delta, now);
        }
      } else {
        StopOscUnseen(q[1..], v, flags, 0, now + carry + q[0].delta, drop);
      }
    }
  }

  // ---- a tempo change, and the next event ----

  lemma RetimeUnseen(q: seq<Entry>, f: nat -> nat, now: int, drop: Event -> bool)
    requires forall e :: IsNoteOff(e) ==> drop(e)
    ensures View(Retime(q, f), now, drop) == View(q, now, drop)
  {
    hide Retime;
    RetimeKeepsOthers(q, f, now);
    KeepKept(Abs(Retime(q, f), now), IsNoteOff, drop);
    KeepKept(Abs(q, now), IsNoteOff, drop);
  }

  lemma TakeFirstView(q: seq<Entry>, now: int, drop: Event -> bool)
    requires q != []
    ensures View(q[1..], now + q[0].delta, drop) ==
      if drop(q[0].evt) then View(q, now, drop) else View(q, now, drop)[1..]
    ensures !drop(q[0].evt) ==> View(q, now, drop) != [] && View(q, now, drop)[0] == Timed(now + q[0].delta, q[0].evt)
  {
    assert Abs(q, now)[1..] == Abs(q[1..], now + q[0].delta);
  }
}
