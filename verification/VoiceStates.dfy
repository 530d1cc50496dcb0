// What the handlers of the player do to each voice.
module VoiceStates {
  import opened Machine
  import opened AudioEvents
  import opened DeltaList
  import opened VoiceEvents
  import opened Player

  // A voice that has not been let go plays this note.
  predicate Sounds(s: Voice, key: u8, channel: u8) {
    s.key == key && s.channel == channel && s.phase != ReleasePhase && s.phase != SustainReleasePhase
  }

  predicate FirstSounding(p: Player, among: seq<VoiceId>, i: nat, key: u8, channel: u8) {
    && i < |among| && Sounds(p.VoiceAt(among[i]), key, channel)
    && forall j :: 0 <= j < i ==> !Sounds(p.VoiceAt(among[j]), key, channel)
  }

  // The search finds the first voice of the list that plays the note, if there is one.
  lemma {:induction false} LookupFindsFirst(p: Player, among: seq<VoiceId>, key: u8, channel: u8)
    ensures match LookupVoice(p, among, key, channel)
      case None => forall v <- among :: !Sounds(p.VoiceAt(v), key, channel)
      case Some(v) => exists i: nat :: FirstSounding(p, among, i, key, channel) && among[i] == v
  {
    if among != [] {
      var rest := among[1..];
      if Sounds(p.VoiceAt(among[0]), key, channel) {
        assert FirstSounding(p, among, 0, key, channel);
      } else {
        LookupFindsFirst(p, rest, key, channel);
        if LookupVoice(p, rest, key, channel).Some? {
          var i: nat :| FirstSounding(p, rest, i, key, channel) && rest[i] == LookupVoice(p, rest, key, channel).value;
          forall j | 0 <= j < i + 1 ensures !Sounds(p.VoiceAt(among[j]), key, channel) {
            assert j > 0 ==> among[j] == rest[j - 1];
          }
          assert FirstSounding(p, among, i + 1, key, channel);
        }
      }
    }
  }

  // A note takes the first free voice: it goes behind the allocated ones, takes the note's
  // key, channel and release time, and is held if the pedal is down. No other voice changes.
  lemma MapVoiceTakes(p: Player, chan: u8, key: u8, sound: NoteSound, flags: Flags, w: VoiceId)
    requires chan < |p.sustain| && p.idle != []
    ensures var r, v := MapVoice(p, p.idle[0], chan, key, sound, flags), p.idle[0];
      && r.alloc == p.alloc + [v] && [v] + r.idle == p.idle
      && Sounds(r.VoiceAt(v), key, chan)
      && r.VoiceAt(v).releaseTime == sound.releaseTime && r.VoiceAt(v).flags == flags
      && (r.VoiceAt(v).phase == SustainPhase <==> p.sustain[chan] > AL_SUSTAIN)
      && (w != v ==> r.VoiceAt(w) == p.VoiceAt(w))
  {
  }

  lemma ReleasedVoice(p: Player, v: VoiceId, delay: Micros, w: VoiceId)
    ensures ReleaseVoice(p, v, delay).VoiceAt(w) == if w == v then p.VoiceAt(v).(envPhase := Release) else p.VoiceAt(w)
    ensures ReleaseVoice(p, v, delay).alloc == p.alloc
  {
    hide Post;
    FadedVoice(p, v, w);
  }

  lemma FadedVoice(p: Player, v: VoiceId, w: VoiceId)
    ensures Faded(p, v).VoiceAt(w) == if w == v then p.VoiceAt(v).(envPhase := Release) else p.VoiceAt(w)
    ensures Faded(p, v).alloc == p.alloc
  {
    hide Remove;
  }

  // ---- the sustain pedal ----

  // A voice that has ended waits for the pedal and is let go by it.
  predicate LetGo(s: Voice, chan: u8, down: bool) {
    s.channel == chan && !down && s.phase == SustainReleasePhase
  }

  // What the pedal of a channel does to a voice: down, it holds a note that sounds; up, it
  // stops holding it, or lets it go.
  function Pedaled(s: Voice, chan: u8, down: bool): Voice {
    if s.channel != chan then s
    else if down && s.phase == NoteOnPhase then s.(phase := SustainPhase)
    else if !down && s.phase == SustainPhase then s.(phase := NoteOnPhase)
    else if LetGo(s, chan, down) then s.(phase := ReleasePhase, envPhase := Release)
    else s
  }

  lemma PedalVoiceIs(p: Player, v: VoiceId, chan: u8, down: bool, w: VoiceId)
    requires p.VoiceAt(v).channel == chan
    ensures PedalVoice(p, v, down).VoiceAt(w) == if w == v then Pedaled(p.VoiceAt(v), chan, down) else p.VoiceAt(w)
    ensures PedalVoice(p, v, down).alloc == p.alloc
  {
    hide ReleaseVoice;
    var s := p.VoiceAt(v);
    ReleasedVoice(p.With(v, s.(phase := ReleasePhase)), v, s.releaseTime, w);
  }

  lemma PedaledTwice(s: Voice, chan: u8, down: bool)
    ensures Pedaled(Pedaled(s, chan, down), chan, down) == Pedaled(s, chan, down)
  {
  }

  // The pedal does that to every allocated voice, and nothing to the others.
  lemma {:induction false} PedalStates(p: Player, chan: u8, down: bool, k: nat, w: VoiceId)
    ensures Pedal(p, chan, down, k).VoiceAt(w) ==
      if k <= |p.alloc| && w in p.alloc[k..] then Pedaled(p.VoiceAt(w), chan, down) else p.VoiceAt(w)
    ensures Pedal(p, chan, down, k).alloc == p.alloc
    decreases |p.alloc| - k
  {
    hide PedalVoice, Pedaled;
    if k < |p.alloc| {
      var v := p.alloc[k];
      var p1 := if p.VoiceAt(v).channel == chan then PedalVoice(p, v, down) else p;
      OtherChannel(p.VoiceAt(v), chan, down);
      if p.VoiceAt(v).channel == chan {
        PedalVoiceIs(p, v, chan, down, w);
      }
      PedaledTwice(p.VoiceAt(w), chan, down);
      PedalStates(p1, chan, down, k + 1, w);
      assert p.alloc[k..] == [v] + p.alloc[k + 1..];
    }
  }

  lemma OtherChannel(s: Voice, chan: u8, down: bool)
    ensures s.channel != chan ==> Pedaled(s, chan, down) == s
  {
  }
}
