// The frame event keeps the loop of __CSPVoiceHandler going: as long as it is pending, the
// queue has something to wait for.
module Frames {
  import opened Machine
  import opened AudioEvents
  import opened DeltaList
  import opened Retiming
  import opened Views
  import Sequencer
  import opened Player
  import opened QuietSteps
  import opened OnTime

  // How many frame events are pending, the event in hand included.
  function Frames(p: Player): nat {
    |Pending(p, Other(Api))|
  }

  // An event other than the frame event neither posts nor removes one.
  predicate Frameless(p: Player, r: Player) {
    Seen(r, Other(Api)) == Seen(p, Other(Api)) && (Fits(p.queue) ==> Fits(r.queue))
  }

  lemma HidesOthers()
    ensures HidesVoices(Other(Api)) && forall e :: IsNoteOff(e) ==> Other(Api)(e)
    ensures forall tag: EventType, e :: tag != ApiType && HasType(tag)(e) ==> Other(Api)(e)
  {
  }

  lemma SameQueue(p: Player, r: Player)
    requires r.queue == p.queue && r.now == p.now
    ensures Frameless(p, r)
  {
  }

  lemma QuietFrameless(p: Player, r: Player)
    requires Quiet(p, r, Other(Api))
    ensures Frameless(p, r)
  {
  }

  lemma Together(p: Player, q: Player, r: Player)
    requires Frameless(p, q) && Frameless(q, r)
    ensures Frameless(p, r)
  {
  }

  lemma PostedFrameless(p: Player, evt: Event, delay: Micros)
    requires evt != Api
    ensures Frameless(p, Posted(p, evt, delay))
  {
    hide Quiet, Posted;
    PostedQuiet(p, evt, delay, Other(Api));
    QuietFrameless(p, Posted(p, evt, delay));
  }

  lemma PostNextFrameless(p: Player)
    requires PostNextSeqEvent(p).Some?
    ensures Frameless(p, PostNextSeqEvent(p).value)
  {
    hide Sequencer.NextDelta, Posted, Frameless;
    SameQueue(p, p);
    if p.state == Playing && p.target.Some? {
      var (s, ticks) := Sequencer.NextDelta(p.target.value);
      var p1 := p.(target := Some(s));
      SameQueue(p, p1);
      if ticks.Some? {
        PostedFrameless(p1, SeqRef, ticks.value * p.uspt);
        Together(p, p1, Posted(p1, SeqRef, ticks.value * p.uspt));
      }
    }
  }

  lemma MidiFrameless(p: Player, status: u8, byte1: u8, byte2: u8, duration: u32, a: Answer)
    requires HandleMidi(p, status, byte1, byte2, duration, a).Some?
    ensures Frameless(p, HandleMidi(p, status, byte1, byte2, duration, a).value)
  {
    hide HandleMidi, Quiet, Frameless;
    HidesOthers();
    MidiQuiet(p, status, byte1, byte2, duration, a, Other(Api));
    QuietFrameless(p, HandleMidi(p, status, byte1, byte2, duration, a).value);
  }

  lemma MetaFrameless(p: Player, status: u8, kind: u8, a: Answer)
    requires HandleMeta(p, status, kind, a).Some? && Fits(p.queue)
    ensures Frameless(p, HandleMeta(p, status, kind, a).value)
  {
    hide SetTempo, Quiet, Frameless;
    HidesOthers();
    SameQueue(p, p);
    if SetTempo(p, UsptFromTempo(p.target, a)).Some? {
      var r := SetTempo(p, UsptFromTempo(p.target, a)).value;
      SetTempoQuiet(p, UsptFromTempo(p.target, a), Other(Api));
      QuietFrameless(p, r.(uspt := p.uspt));
      SameQueue(r.(uspt := p.uspt), r);
      Together(p, r.(uspt := p.uspt), r);
    }
  }

  lemma SeqEventFrameless(p: Player, evt: Event, a: Answer)
    requires HandleSeqEvent(p, evt, a).Some? && Fits(p.queue)
    ensures Frameless(p, HandleSeqEvent(p, evt, a).value)
  {
    hide HandleMidi, HandleMeta, PostNextSeqEvent, Posted, Frameless;
    match evt
    case SeqMidi(status, byte1, byte2, duration, _) =>
      var r := HandleMidi(p, status, byte1, byte2, duration, a).value;
      MidiFrameless(p, status, byte1, byte2, duration, a);
      PostNextFrameless(r);
      Together(p, r, HandleSeqEvent(p, evt, a).value);
    case Tempo(status, kind, _, _, _, _) =>
      var r := HandleMeta(p, status, kind, a).value;
      MetaFrameless(p, status, kind, a);
      PostNextFrameless(r);
      Together(p, r, HandleSeqEvent(p, evt, a).value);
    case SeqEnd(_) =>
      SameQueue(p, p.(state := Stopping));
      PostedFrameless(p.(state := Stopping), StopEvent, AL_EVTQ_END);
      Together(p, p.(state := Stopping), HandleSeqEvent(p, evt, a).value);
    case _ => PostNextFrameless(p);
  }

  lemma FlushFrameless(p: Player, tag: EventType)
    requires tag != ApiType
    ensures Frameless(p, Flushed(p, tag))
  {
    hide Remove, View, HasType;
    HidesOthers();
    RemoveUnseen(p.queue, HasType(tag), p.now, Other(Api));
    TotalRemove(p.queue, HasType(tag), 0);
  }

  lemma BeginStoppingFrameless(p: Player)
    ensures Frameless(p, BeginStopping(p))
  {
    hide Flushed, KillVoices, Posted, Quiet, Frameless;
    var p1 := Flushed(p, SeqRefType);
    var p2 := Flushed(p1, NoteOffType);
    var p3 := Flushed(p2, SeqpMidiType);
    FlushFrameless(p, SeqRefType);
    FlushFrameless(p1, NoteOffType);
    FlushFrameless(p2, SeqpMidiType);
    Together(p, p1, p2);
    Together(p, p2, p3);
    HidesOthers();
    var p4 := KillVoices(p3, 0);
    KillVoicesQuiet(p3, 0, Other(Api));
    QuietFrameless(p3, p4);
    Together(p, p3, p4);
    SameQueue(p4, p4.(state := Stopping));
    Together(p, p4, p4.(state := Stopping));
    PostedFrameless(p4.(state := Stopping), StopEvent, AL_EVTQ_END);
    Together(p, p4.(state := Stopping), BeginStopping(p));
  }

  lemma PlayFrameless(p: Player)
    requires PostNextSeqEvent(p.(state := Playing)).Some?
    ensures Frameless(p, PostNextSeqEvent(p.(state := Playing)).value)
  {
    hide PostNextSeqEvent, Frameless;
    SameQueue(p, p.(state := Playing));
    PostNextFrameless(p.(state := Playing));
    Together(p, p.(state := Playing), PostNextSeqEvent(p.(state := Playing)).value);
  }

  lemma {:induction false} StopFrameless(p: Player)
    ensures Frameless(p, StopVoices(p).(state := Stopped))
  {
    hide StopVoices, Quiet, Frameless;
    HidesOthers();
    StopVoicesQuiet(p, Other(Api));
    QuietFrameless(p, StopVoices(p));
    SameQueue(StopVoices(p), StopVoices(p).(state := Stopped));
    Together(p, StopVoices(p), StopVoices(p).(state := Stopped));
  }

  lemma SequenceFrameless(p: Player, a: Answer)
    requires Fits(p.queue) && HandleNextSeqEvent(p, a).Some?
    ensures Frameless(p, HandleNextSeqEvent(p, a).value)
  {
    hide HandleSeqEvent, Frameless, Sequencer.NextEvent;
    SameQueue(p, p);
    if p.target.Some? {
      var r := Sequencer.NextEvent(p.target.value).value;
      SameQueue(p, p.(target := Some(r.next)));
      SeqEventFrameless(p.(target := Some(r.next)), r.event, a);
      Together(p, p.(target := Some(r.next)), HandleNextSeqEvent(p, a).value);
    }
  }

  lemma DispatchFrameless(p: Player, a: Answer)
    requires Fits(p.queue) && Dispatch(p, a).Some? && !p.next.Api?
    ensures Frameless(p, Dispatch(p, a).value)
  {
    hide HandleMidi, HandleMeta, HandleNextSeqEvent, PostNextSeqEvent, Posted, StopVoice, StopVoices, BeginStopping;
    hide ResetChannels, Quiet, Frameless;
    HidesOthers();
    SameQueue(p, p);
    match p.next
    case SeqRef => SequenceFrameless(p, a);
    case NoteEnd(v) =>
      StopVoiceQuiet(p, v, Other(Api));
      QuietFrameless(p, StopVoice(p, v));
    case Tremolo(v) => PostedFrameless(p, Tremolo(v), a.tremolo);
    case Vibrato(v, chan) => PostedFrameless(p, Vibrato(v, chan), a.vibrato);
    case Midi(status, byte1, byte2) => MidiFrameless(p, status, byte1, byte2, 0, a);
    case NoteOff(status, byte1, byte2) => MidiFrameless(p, status, byte1, byte2, 0, a);
    case Meta(status, kind, _, _, _) => MetaFrameless(p, status, kind, a);
    case PlayEvent =>
      if p.state != Playing {
        PlayFrameless(p);
      }
    case StopEvent => StopFrameless(p);
    case StoppingEvent => BeginStoppingFrameless(p);
    case _ => OtherFrameless(p, a);
  }

  lemma OtherFrameless(p: Player, a: Answer)
    requires Dispatch(p, a).Some?
    requires p.next.Envelope? || p.next.Volume? || p.next.Priority? || p.next.SetSeq? || p.next.SetBank?
      || p.next.TrackEnd? || p.next.LoopStart? || p.next.LoopEnd? || p.next.Empty?
    ensures Frameless(p, Dispatch(p, a).value)
  {
    hide Frameless;
    SameQueue(p, Dispatch(p, a).value);
  }

  // ---- how many are pending ----

  // The frame event is lost if it is in hand and no item is free.
  predicate LosesFrame(p: Player, act: Act) {
    act.Iterate? && p.next.Api? && p.free == 0
  }

  lemma DispatchFrames(p: Player, a: Answer)
    requires Fits(p.queue) && Dispatch(p, a).Some?
    ensures |Seen(Dispatch(p, a).value, Other(Api))| == Frames(p) - if LosesFrame(p, Iterate(a)) then 1 else 0
    ensures Fits(Dispatch(p, a).value.queue)
  {
    hide Dispatch, Seen, Fits;
    DispatchFits(p, a);
    if p.next.Api? {
      ApiDispatched(p, a);
    } else {
      DispatchFrameless(p, a);
    }
  }

  lemma ApiDispatched(p: Player, a: Answer)
    requires Fits(p.queue) && p.next.Api? && Dispatch(p, a).Some?
    ensures |Seen(Dispatch(p, a).value, Other(Api))| == |Seen(p, Other(Api))| + if p.free > 0 then 1 else 0
  {
    hide Posted, Seen, Fits;
    var was, seen := Seen(p, Other(Api)), Seen(Posted(p, Api, AL_USEC_PER_FRAME), Other(Api));
    PostedPending(p, Api, AL_USEC_PER_FRAME, Api);
    assert |multiset(seen)| == |seen| && |multiset(was)| == |was|;
  }

  lemma AdvanceFrames(p: Player)
    requires Fits(p.queue) && Advance(p).Some?
    ensures Frames(Advance(p).value) == |Seen(p, Other(Api))|
  {
    hide View, Fits;
    if p.queue == [] {
      EmptyView(p.now, Other(Api));
    } else {
      FirstPending(p.queue, p.now, Other(Api));
    }
  }

  lemma CallFrames(p: Player, c: Call)
    requires Fits(p.queue) && Called(p, c).Some?
    ensures Frames(Called(p, c).value) == Frames(p)
  {
    hide Posted, TempoMessage, Frameless;
    CallFrameless(p, c);
    CallKeeps(p, c, Api);
    SameFrames(p, Called(p, c).value);
  }

  lemma SameFrames(p: Player, r: Player)
    requires Frameless(p, r) && r.next == p.next
    ensures Frames(r) == Frames(p)
  {
  }

  lemma CallFrameless(p: Player, c: Call)
    requires Called(p, c).Some?
    ensures Frameless(p, Called(p, c).value)
  {
    hide Posted, Frameless;
    match c
    case PlayCall => PostedFrameless(p, PlayEvent, 0);
    case StopCall => PostedFrameless(p, StoppingEvent, 0);
    case SendMidiCall(ticks, status, byte1, byte2) => PostedFrameless(p, Midi(status, byte1, byte2), ticks * p.uspt);
    case SetTempoCall(tempo) => PostedFrameless(p, TempoMessage(tempo), 0);
    case SetSeqCall => PostedFrameless(p, SetSeq, 0);
    case SetBankCall => PostedFrameless(p, SetBank, 0);
    case SetVolCall(vol) => PostedFrameless(p, Volume(vol), 0);
    case SetPriorityCall(channel, priority) => PostedFrameless(p, Priority(channel, priority), 0);
  }

  lemma DoFrames(p: Player, act: Act)
    requires Fits(p.queue) && Do(p, act).Some?
    ensures Frames(Do(p, act).value) == Frames(p) - if LosesFrame(p, act) then 1 else 0
  {
    hide Dispatch, Advance, Called, Frames, Fits;
    match act
    case Iterate(a) =>
      DispatchFrames(p, a);
      AdvanceFrames(Dispatch(p, a).value);
    case Calls(c) => CallFrames(p, c);
  }

  // ---- runs ----

  // An item is free whenever the frame event is handled.
  predicate FramesFit(p: Player, acts: seq<Act>)
    requires RunPlayer(p, acts).Some?
    decreases |acts|
  {
    acts == [] ||
    var n := |acts| - 1;
    FramesFit(p, acts[..n]) && !LosesFrame(RunPlayer(p, acts[..n]).value, acts[n])
  }

  // In every reachable state the frame event is pending, once, if and only if an item was free
  // whenever it was handled; otherwise it is gone for good.
  lemma {:induction false} FramePendingIff(voices: nat, events: nat, channels: nat, acts: seq<Act>)
    requires RunPlayer(NewPlayer(voices, events, channels), acts).Some?
    ensures var start := NewPlayer(voices, events, channels);
      Frames(RunPlayer(start, acts).value) == if FramesFit(start, acts) then 1 else 0
    decreases |acts|
  {
    hide Do, LosesFrame, Frames, Fits, NewPlayer;
    var start := NewPlayer(voices, events, channels);
    NewFrames(voices, events, channels);
    if acts != [] {
      var n := |acts| - 1;
      FramePendingIff(voices, events, channels, acts[..n]);
      RunFits(start, acts[..n]);
      var q := RunPlayer(start, acts[..n]).value;
      DoFrames(q, acts[n]);
      if LosesFrame(q, acts[n]) {
        LostFrame(q, acts[n]);
      }
    }
  }

  lemma LostFrame(p: Player, act: Act)
    requires LosesFrame(p, act)
    ensures Frames(p) > 0
  {
    hide Seen;
  }

  lemma NewFrames(voices: nat, events: nat, channels: nat)
    ensures Frames(NewPlayer(voices, events, channels)) == 1 && Fits(NewPlayer(voices, events, channels).queue)
  {
    hide Descending;
    EmptyView(0, Other(Api));
  }

  // So no round of a run finds the queue empty, unless that round loses the frame event itself.
  lemma {:induction false} QueueNeverEmpty(voices: nat, events: nat, channels: nat, acts: seq<Act>, a: Answer)
    requires RunPlayer(NewPlayer(voices, events, channels), acts).Some?
    requires FramesFit(NewPlayer(voices, events, channels), acts)
    requires var p := RunPlayer(NewPlayer(voices, events, channels), acts).value;
      !LosesFrame(p, Iterate(a)) && Dispatch(p, a).Some?
    ensures Dispatch(RunPlayer(NewPlayer(voices, events, channels), acts).value, a).value.queue != []
  {
    hide Dispatch, LosesFrame, Frames, Fits, NewPlayer, RunPlayer, Seen, FramesFit;
    FramePendingIff(voices, events, channels, acts);
    NewFrames(voices, events, channels);
    RunFits(NewPlayer(voices, events, channels), acts);
    var p := RunPlayer(NewPlayer(voices, events, channels), acts).value;
    DispatchFrames(p, a);
    if Dispatch(p, a).value.queue == [] {
      NothingSeen(Dispatch(p, a).value);
    }
  }

  lemma NothingSeen(p: Player)
    requires p.queue == []
    ensures Seen(p, Other(Api)) == []
  {
  }

  // The frame event comes back one frame later.
  lemma FrameEventComesBack(p: Player, a: Answer)
    requires Fits(p.queue) && p.next.Api? && p.free > 0 && Step(p, a).Some?
    ensures Timed(p.now + AL_USEC_PER_FRAME, Api) in Pending(Step(p, a).value, Other(Api))
  {
    hide Posted, Pending, Advance, Seen, Fits, Total;
    var x := Timed(p.now + AL_USEC_PER_FRAME, Api);
    PostedPending(p, Api, AL_USEC_PER_FRAME, Api);
    AdvanceKeeps(Posted(p, Api, AL_USEC_PER_FRAME), Api);
    assert x in multiset(Seen(Posted(p, Api, AL_USEC_PER_FRAME), Other(Api)));
    assert x in multiset(Pending(Step(p, a).value, Other(Api)));
  }

  // ---- when the frame event is lost ----

  // A round with the queue run empty changes nothing and takes no time: the handler's loop,
  // which goes on as long as no time passes, does not end.
  lemma EmptyQueueStalls(p: Player, a: Answer)
    requires p.next.Empty? && p.queue == []
    ensures Step(p, a) == Some(p)
  {
  }

  function Volumes(n: nat): seq<Entry> {
    seq(n, _ => Entry(0, Volume(0)))
  }

  // A new player on which alCSPSetVol was called once for each of its items.
  function Filled(voices: nat, events: nat, channels: nat): Player {
    NewPlayer(voices, events, channels).(queue := Volumes(events), free := 0)
  }

  function Often(act: Act, n: nat): (r: seq<Act>)
    ensures |r| == n
  {
    seq(n, _ => act)
  }

  lemma {:induction false} FilledUp(voices: nat, events: nat, channels: nat, n: nat)
    requires n <= events
    ensures RunPlayer(NewPlayer(voices, events, channels), Often(Calls(SetVolCall(0)), n)) ==
      Some(NewPlayer(voices, events, channels).(queue := Volumes(n), free := events - n))
  {
    hide Descending;
    var acts := Often(Calls(SetVolCall(0)), n);
    if n > 0 {
      FilledUp(voices, events, channels, n - 1);
      assert acts[..n - 1] == Often(Calls(SetVolCall(0)), n - 1);
      PostVolume(n - 1);
    } else {
      assert Volumes(0) == [];
    }
  }

  lemma {:induction false} PostVolume(n: nat)
    ensures Post(Volumes(n), Volume(0), 0) == Volumes(n + 1)
  {
    if n > 0 {
      assert Volumes(n)[1..] == Volumes(n - 1);
      PostVolume(n - 1);
      assert Volumes(n + 1) == [Entry(0, Volume(0))] + Volumes(n);
    } else {
      assert Volumes(0) == [] && Volumes(1) == [Entry(0, Volume(0))];
    }
  }

  // The same player after some rounds: the first loses the frame event, each of the following
  // ones takes the next volume in hand, and the one behind them finds nothing left.
  function AfterRounds(voices: nat, events: nat, channels: nat, n: nat): Player
    requires n <= events + 1
  {
    var p := Filled(voices, events, channels);
    if n == 0 then p
    else if n <= events then p.(queue := Volumes(events - n), free := n, next := Volume(0))
    else p.(queue := [], free := events, next := Empty)
  }

  lemma OneRound(voices: nat, events: nat, channels: nat, n: nat, a: Answer)
    requires n <= events
    ensures Step(AfterRounds(voices, events, channels, n), a) == Some(AfterRounds(voices, events, channels, n + 1))
  {
    hide Descending;
    assert events > n ==>
      Volumes(events - n)[0] == Entry(0, Volume(0)) && Volumes(events - n)[1..] == Volumes(events - n - 1);
    assert Volumes(0) == [];
  }

  lemma {:induction false} RoundsRunOut(voices: nat, events: nat, channels: nat, a: Answer, n: nat)
    requires n <= events + 1
    ensures RunPlayer(NewPlayer(voices, events, channels),
      Often(Calls(SetVolCall(0)), events) + Often(Iterate(a), n)) ==
      Some(AfterRounds(voices, events, channels, n))
  {
    hide NewPlayer, Step, Filled, Called, AfterRounds, RunPlayer, Often;
    var calls := Often(Calls(SetVolCall(0)), events);
    OnceMore(Iterate(a), n);
    if n == 0 {
      assert calls + Often(Iterate(a), n) == calls;
      FilledUp(voices, events, channels, events);
      NoRounds(voices, events, channels);
    } else {
      assert calls + Often(Iterate(a), n) == (calls + Often(Iterate(a), n - 1)) + [Iterate(a)];
      RoundsRunOut(voices, events, channels, a, n - 1);
      OneRound(voices, events, channels, n - 1, a);
      OneMoreAct(NewPlayer(voices, events, channels), calls + Often(Iterate(a), n - 1), Iterate(a));
    }
  }

  lemma OnceMore(act: Act, n: nat)
    ensures Often(act, n) == if n == 0 then [] else Often(act, n - 1) + [act]
  {
  }

  lemma {:induction false} OneMoreAct(p: Player, acts: seq<Act>, act: Act)
    requires RunPlayer(p, acts).Some?
    ensures RunPlayer(p, acts + [act]) == Do(RunPlayer(p, acts).value, act)
  {
    hide Do;
    assert (acts + [act])[..|acts|] == acts;
  }

  lemma NoRounds(voices: nat, events: nat, channels: nat)
    ensures AfterRounds(voices, events, channels, 0) ==
      NewPlayer(voices, events, channels).(queue := Volumes(events), free := 0)
  {
  }

  // So with any number of items the loop can be brought to a halt: by as many calls before the
  // first round. Without any item, the first round is enough.
  lemma FilledRunsOut(voices: nat, events: nat, channels: nat, a: Answer)
    ensures var acts := Often(Calls(SetVolCall(0)), events) + Often(Iterate(a), events + 1);
      var r := RunPlayer(NewPlayer(voices, events, channels), acts);
      r.Some? && r.value.next.Empty? && r.value.queue == [] && Step(r.value, a) == r
  {
    hide NewPlayer, Step, RunPlayer, Filled;
    RoundsRunOut(voices, events, channels, a, events + 1);
    EmptyQueueStalls(AfterRounds(voices, events, channels, events + 1), a);
  }
}
