// The edits that src/audio/seqplayer.c makes to the event queue on behalf of a voice, on
// the value of the queue.
module VoiceEvents {
  import opened AudioEvents
  import opened DeltaList

  // The flag bits of an ALVoiceState: which oscillators it runs.
  datatype Flags = Flags(tremolo: bool, vibrato: bool) {
    predicate Any() { tremolo || vibrato }

    // A stopped oscillator clears its bit.
    function Less(e: Event): Flags {
      Flags(tremolo && !e.Tremolo?, vibrato && !e.Vibrato?)
    }
  }

  predicate Oscillates(e: Event, v: VoiceId) {
    e == Tremolo(v) || (e.Vibrato? && e.voice == v)
  }

  function OscillatorsOf(v: VoiceId): Event -> bool {
    (e: Event) => Oscillates(e, v)
  }

  function EnvelopesOf(v: VoiceId): Event -> bool {
    (e: Event) => e == Envelope(v)
  }

  // The first entry takes over the delay of removed ones.
  function Charged(q: seq<Entry>, carry: nat): seq<Entry> {
    if q == [] then [] else [q[0].(delta := carry + q[0].delta)] + q[1..]
  }

  // __seqpStopOsc, which stops looking when no flag is left.
  function StopOsc(q: seq<Entry>, v: VoiceId, flags: Flags, carry: nat): (r: (seq<Entry>, Flags))
    ensures |r.0| <= |q|
  {
    if q == [] then ([], flags)
    else if Oscillates(q[0].evt, v) then
      var left := flags.Less(q[0].evt);
      if left.Any() then StopOsc(q[1..], v, left, carry + q[0].delta)
      else (Charged(q[1..], carry + q[0].delta), left)
    else
      var (rest, left) := StopOsc(q[1..], v, flags, 0);
      ([q[0].(delta := carry + q[0].delta)] + rest, left)
  }

  function Count(q: seq<Entry>, what: Event -> bool): nat {
    if q == [] then 0 else (if what(q[0].evt) then 1 else 0) + Count(q[1..], what)
  }

  function TremoloOf(v: VoiceId): Event -> bool { (e: Event) => e == Tremolo(v) }

  function VibratoOf(v: VoiceId): Event -> bool { (e: Event) => e.Vibrato? && e.voice == v }

  // There are no more events then, as the code expects, when each oscillator has at most one
  // event queued and its flag set: the early end leaves nothing behind.
  lemma {:induction false} StopOscStopsAll(q: seq<Entry>, v: VoiceId, flags: Flags, carry: nat)
    requires Count(q, TremoloOf(v)) <= if flags.tremolo then 1 else 0
    requires Count(q, VibratoOf(v)) <= if flags.vibrato then 1 else 0
    ensures StopOsc(q, v, flags, carry).0 == Remove(q, OscillatorsOf(v), carry)
  {
    if q != [] {
      if Oscillates(q[0].evt, v) {
        var left := flags.Less(q[0].evt);
        if left.Any() {
          StopOscStopsAll(q[1..], v, left, carry + q[0].delta);
        } else {
          NothingToRemove(q[1..], v, carry + q[0].delta);
        }
      } else {
        StopOscStopsAll(q[1..], v, flags, 0);
      }
    }
  }

  lemma {:induction false} NothingToRemove(q: seq<Entry>, v: VoiceId, carry: nat)
    requires Count(q, TremoloOf(v)) == 0 && Count(q, VibratoOf(v)) == 0
    ensures Remove(q, OscillatorsOf(v), carry) == Charged(q, carry)
  {
    if q != [] {
      assert !Oscillates(q[0].evt, v);
      NothingToRemove(q[1..], v, 0);
      assert Charged(q[1..], 0) == q[1..];
    }
  }

  // Where the first note end of a voice is; the length of the queue if there is none.
  function EndAt(q: seq<Entry>, v: VoiceId): (k: nat)
    ensures k <= |q| && (k < |q| ==> q[k].evt == NoteEnd(v))
  {
    if q == [] || q[0].evt == NoteEnd(v) then 0 else 1 + EndAt(q[1..], v)
  }

  // __voiceNeedsNoteKill: a voice whose note end is due by `limit` is left alone; a later note
  // end is taken out.
  function NeedsNoteKill(q: seq<Entry>, v: VoiceId, limit: nat): (r: (bool, seq<Entry>))
    ensures |r.1| <= |q|
  {
    var k := EndAt(q, v);
    if k == |q| then (true, q)
    else if Total(q[..k + 1]) > limit then (true, Unlinked(q, k))
    else (false, q)
  }

  // Taking out one entry moves no other in time.
  lemma {:induction false} UnlinkedRefines(q: seq<Entry>, k: nat, base: int)
    requires k < |q|
    ensures Abs(Unlinked(q, k), base) == Abs(q, base)[..k] + Abs(q, base)[k + 1..]
  {
    hide Unlinked;
    var a, rest := Abs(q, base), Abs(q[1..], base + q[0].delta);
    assert a == [a[0]] + rest;
    if k == 0 {
      UnlinkedTail(q, 0);
      AbsCharged(q[1..], q[0].delta, base);
      assert Unlinked(q, 0) == Unlinked(q, 0)[0..];
    } else {
      UnlinkedRefines(q[1..], k - 1, base + q[0].delta);
      UnlinkedRest(q, k);
      assert [a[0]] + (rest[..k - 1] + rest[k..]) == a[..k] + a[k + 1..];
    }
  }

  lemma {:induction false} AbsCharged(q: seq<Entry>, carry: nat, base: int)
    ensures Abs(Charged(q, carry), base) == Abs(q, base + carry)
  {
    if q != [] {
      assert Charged(q, carry)[1..] == q[1..];
    }
  }

  lemma UnlinkedRest(q: seq<Entry>, k: nat)
    requires 0 < k < |q|
    ensures Unlinked(q, k) != [] && Unlinked(q, k)[0] == q[0] && Unlinked(q, k)[1..] == Unlinked(q[1..], k - 1)
  {
    assert q[..k] == [q[0]] + q[1..][..k - 1] && q[k + 1..] == q[1..][k..];
  }

  // ---- steps of the loops ----

  lemma {:induction false} StopOscTake(q: seq<Entry>, k: nat, v: VoiceId, flags: Flags)
    requires k < |q| && Oscillates(q[k].evt, v)
    ensures var left := flags.Less(q[k].evt);
      StopOsc(q[k..], v, flags, 0) ==
        if left.Any() then StopOsc(Unlinked(q, k)[k..], v, left, 0) else (Unlinked(q, k)[k..], left)
  {
    UnlinkedTail(q, k);
    StopOscCharged(q[k + 1..], v, flags.Less(q[k].evt), q[k].delta);
  }

  lemma UnlinkedTail(q: seq<Entry>, k: nat)
    requires k < |q|
    ensures q[k..][0] == q[k] && q[k..][1..] == q[k + 1..]
    ensures Unlinked(q, k)[k..] == Charged(q[k + 1..], q[k].delta) && Unlinked(q, k)[..k] == q[..k]
  {
  }

  lemma {:induction false} StopOscCharged(q: seq<Entry>, v: VoiceId, flags: Flags, carry: nat)
    ensures StopOsc(q, v, flags, carry) == StopOsc(Charged(q, carry), v, flags, 0)
  {
    if q != [] {
      assert Charged(q, carry)[1..] == q[1..];
    }
  }

  function Behind(head: seq<Entry>, r: (seq<Entry>, Flags)): (seq<Entry>, Flags) {
    (head + r.0, r.1)
  }

  lemma {:induction false} StopOscPass(q: seq<Entry>, k: nat, v: VoiceId, flags: Flags)
    requires k < |q| && !Oscillates(q[k].evt, v)
    ensures Behind(q[..k], StopOsc(q[k..], v, flags, 0)) == Behind(q[..k + 1], StopOsc(q[k + 1..], v, flags, 0))
  {
    assert q[k..][1..] == q[k + 1..] && q[..k + 1] == q[..k] + [q[k]];
    assert q[k..][0].(delta := 0 + q[k].delta) == q[k];
    var rest := StopOsc(q[k + 1..], v, flags, 0).0;
    assert q[..k] + ([q[k]] + rest) == q[..k + 1] + rest;
  }

  // Both together, as the loop needs them.
  lemma {:induction false} StopOscTaken(q: seq<Entry>, k: nat, v: VoiceId, flags: Flags)
    requires k < |q| && Oscillates(q[k].evt, v)
    ensures var left := flags.Less(q[k].evt);
      Behind(q[..k], StopOsc(q[k..], v, flags, 0)) ==
        if left.Any() then Behind(Unlinked(q, k)[..k], StopOsc(Unlinked(q, k)[k..], v, left, 0))
        else (Unlinked(q, k), left)
  {
    hide StopOsc, Unlinked;
    StopOscTake(q, k, v, flags);
    UnlinkedTail(q, k);
    assert Unlinked(q, k)[..k] + Unlinked(q, k)[k..] == Unlinked(q, k);
  }

  lemma {:induction false} StopOscEnd(q: seq<Entry>, v: VoiceId, flags: Flags)
    ensures Behind(q, StopOsc([], v, flags, 0)) == (q, flags)
  {
    assert q + [] == q;
  }

  lemma {:induction false} StopOscNone(v: VoiceId, flags: Flags)
    ensures StopOsc([], v, flags, 0) == ([], flags)
    ensures forall r :: Behind([], r) == r
  {
    assert forall s: seq<Entry> :: [] + s == s;
  }

  lemma {:induction false} EndFound(q: seq<Entry>, k: nat, v: VoiceId)
    requires k <= |q| && EndAt(q, v) == k + EndAt(q[k..], v)
    ensures k == |q| ==> EndAt(q, v) == |q|
    ensures k < |q| && q[k].evt == NoteEnd(v) ==> EndAt(q, v) == k
    ensures k < |q| && q[k].evt != NoteEnd(v) ==> EndAt(q, v) == k + 1 + EndAt(q[k + 1..], v)
  {
    if k < |q| {
      assert q[k..][1..] == q[k + 1..];
    }
  }

  lemma {:induction false} TotalNext(q: seq<Entry>, k: nat)
    requires k < |q|
    ensures Total(q[..k + 1]) == Total(q[..k]) + q[k].delta
    ensures Total(q[..k + 1]) <= Total(q)
  {
    TotalSplit(q, k + 1);
    TotalSplit(q[..k + 1], k);
    assert q[..k + 1][..k] == q[..k] && q[..k + 1][k..] == [q[k]];
  }
}
