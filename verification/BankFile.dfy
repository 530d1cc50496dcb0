// src/audio/bnkf.c: a bank file loaded into memory is a graph of banks, instruments, sounds and
// wavetables that refer to each other by offsets; loading turns each offset into an address,
// in place, and marks every object it has been to.
module BankFiles {
  import opened Machine

  const AL_BANK_VERSION := 0x4231

  // Adding an offset to a 32-bit pointer.
  function Ref(p: u32, offset: u32): u32 {
    (p + offset) % U32_LIMIT
  }

  // What is at an address that the file may refer to (include/PR/libaudio.h), its type byte
  // told by the kind of WaveInfo.
  datatype WaveInfo = Adpcm(loop: u32, book: u32) | Raw(loop: u32) | OtherWave
  datatype Wave = Wave(base: u32, flags: u8, info: WaveInfo)
  datatype Sound = Sound(envelope: u32, keyMap: u32, wavetable: u32, flags: u8)
  datatype Instrument = Instrument(flags: u8, sounds: seq<u32>)
  datatype Bank = Bank(flags: u8, percussion: u32, insts: seq<u32>)

  // ---- what is expected of one object ----

  // A pointer that may be null moves unless it is.
  function MovedIfAny(p: u32, offset: u32): u32 {
    if p != 0 then Ref(p, offset) else 0
  }

  function MovedWave(w: Wave, offset: u32, table: u32): Wave {
    Wave(Ref(w.base, table), 1, match w.info
      case Adpcm(loop, book) => Adpcm(MovedIfAny(loop, offset), Ref(book, offset))
      case Raw(loop) => Raw(MovedIfAny(loop, offset))
      case OtherWave => OtherWave)
  }

  function MovedSound(s: Sound, offset: u32): Sound {
    Sound(Ref(s.envelope, offset), Ref(s.keyMap, offset), Ref(s.wavetable, offset), 1)
  }

  function MovedAll(refs: seq<u32>, offset: u32): (r: seq<u32>)
    ensures |r| == |refs|
  {
    seq(|refs|, i requires 0 <= i < |refs| => Ref(refs[i], offset))
  }

  function MovedInst(i: Instrument, offset: u32): Instrument {
    Instrument(1, MovedAll(i.sounds, offset))
  }

  function MovedBank(b: Bank, offset: u32): Bank {
    Bank(1, MovedIfAny(b.percussion, offset), MovedAll(b.insts, offset))
  }

  // ---- what is expected of all objects: those in a set move unless they were marked ----

  function WavesMoved(m: map<u32, Wave>, which: set<u32>, offset: u32, table: u32): map<u32, Wave> {
    map a | a in m :: if a in which && m[a].flags == 0 then MovedWave(m[a], offset, table) else m[a]
  }

  function SoundsMoved(m: map<u32, Sound>, which: set<u32>, offset: u32): map<u32, Sound> {
    map a | a in m :: if a in which && m[a].flags == 0 then MovedSound(m[a], offset) else m[a]
  }

  function InstsMoved(m: map<u32, Instrument>, which: set<u32>, offset: u32): map<u32, Instrument> {
    map a | a in m :: if a in which && m[a].flags == 0 then MovedInst(m[a], offset) else m[a]
  }

  function BanksMoved(m: map<u32, Bank>, which: set<u32>, offset: u32): map<u32, Bank> {
    map a | a in m :: if a in which && m[a].flags == 0 then MovedBank(m[a], offset) else m[a]
  }

  // ---- what the unmarked objects of a set refer to ----

  function WavesOf(m: map<u32, Sound>, which: set<u32>, offset: u32): set<u32> {
    set a | a in which && a in m && m[a].flags == 0 :: Ref(m[a].wavetable, offset)
  }

  function Targets(refs: seq<u32>, offset: u32): set<u32> {
    set p | p in refs :: Ref(p, offset)
  }

  function SoundsOf(m: map<u32, Instrument>, which: set<u32>, offset: u32): set<u32> {
    set a, p | a in which && a in m && m[a].flags == 0 && p in m[a].sounds :: Ref(p, offset)
  }

  // The null test on an entry comes after the addition.
  function BankTargets(b: Bank, offset: u32): set<u32> {
    (if b.percussion != 0 then {Ref(b.percussion, offset)} else {}) + (Targets(b.insts, offset) - {0})
  }

  function InstsOf(m: map<u32, Bank>, which: set<u32>, offset: u32): set<u32> {
    set a, t | a in which && a in m && m[a].flags == 0 && t in BankTargets(m[a], offset) :: t
  }

  // Everything below the banks.
  datatype Graph = Graph(insts: map<u32, Instrument>, sounds: map<u32, Sound>, waves: map<u32, Wave>)

  // What is expected when the instruments in a set are loaded: they, their sounds and the
  // wavetables of those move, each object once, however often it is referred to.
  function Loaded(g: Graph, which: set<u32>, offset: u32, table: u32): Graph {
    var sounds := SoundsOf(g.insts, which, offset);
    Graph(InstsMoved(g.insts, which, offset), SoundsMoved(g.sounds, sounds, offset),
      WavesMoved(g.waves, WavesOf(g.sounds, sounds, offset), offset, table))
  }

  // All that loading them comes across is there.
  predicate Present(g: Graph, which: set<u32>, offset: u32) {
    && which <= g.insts.Keys
    && SoundsOf(g.insts, which, offset) <= g.sounds.Keys
    && WavesOf(g.sounds, SoundsOf(g.insts, which, offset), offset) <= g.waves.Keys
  }

  // ---- loading in steps ----

  lemma WavesTwice(m: map<u32, Wave>, a: set<u32>, b: set<u32>, offset: u32, table: u32)
    ensures WavesMoved(WavesMoved(m, a, offset, table), b, offset, table) == WavesMoved(m, a + b, offset, table)
    ensures WavesMoved(m, {}, offset, table) == m
  {
  }

  lemma SoundsTwice(m: map<u32, Sound>, a: set<u32>, b: set<u32>, offset: u32)
    ensures SoundsMoved(SoundsMoved(m, a, offset), b, offset) == SoundsMoved(m, a + b, offset)
    ensures SoundsMoved(m, {}, offset) == m
  {
  }

  lemma InstsTwice(m: map<u32, Instrument>, a: set<u32>, b: set<u32>, offset: u32)
    ensures InstsMoved(InstsMoved(m, a, offset), b, offset) == InstsMoved(m, a + b, offset)
    ensures InstsMoved(m, {}, offset) == m
  {
  }

  lemma BanksTwice(m: map<u32, Bank>, a: set<u32>, b: set<u32>, offset: u32)
    ensures BanksMoved(BanksMoved(m, a, offset), b, offset) == BanksMoved(m, a + b, offset)
    ensures BanksMoved(m, {}, offset) == m
  {
  }

  // What is loaded already is marked, and leads nowhere a second time.
  lemma WavesOfRest(m: map<u32, Sound>, a: set<u32>, b: set<u32>, offset: u32)
    ensures WavesOf(m, a, offset) + WavesOf(SoundsMoved(m, a, offset), b, offset) == WavesOf(m, a + b, offset)
  {
    forall t | t in WavesOf(m, a + b, offset)
      ensures t in WavesOf(m, a, offset) + WavesOf(SoundsMoved(m, a, offset), b, offset)
    {
      var x :| x in a + b && x in m && m[x].flags == 0 && t == Ref(m[x].wavetable, offset);
      assert x !in a ==> SoundsMoved(m, a, offset)[x] == m[x];
    }
  }

  lemma SoundsOfRest(m: map<u32, Instrument>, a: set<u32>, b: set<u32>, offset: u32)
    ensures SoundsOf(m, a, offset) + SoundsOf(InstsMoved(m, a, offset), b, offset) == SoundsOf(m, a + b, offset)
  {
    forall t | t in SoundsOf(m, a + b, offset)
      ensures t in SoundsOf(m, a, offset) + SoundsOf(InstsMoved(m, a, offset), b, offset)
    {
      var x, p :| x in a + b && x in m && m[x].flags == 0 && p in m[x].sounds && t == Ref(p, offset);
      assert x !in a ==> InstsMoved(m, a, offset)[x] == m[x];
    }
  }

  lemma InstsOfRest(m: map<u32, Bank>, a: set<u32>, b: set<u32>, offset: u32)
    ensures InstsOf(m, a, offset) + InstsOf(BanksMoved(m, a, offset), b, offset) == InstsOf(m, a + b, offset)
  {
    forall t | t in InstsOf(m, a + b, offset)
      ensures t in InstsOf(m, a, offset) + InstsOf(BanksMoved(m, a, offset), b, offset)
    {
      var x :| x in a + b && x in m && m[x].flags == 0 && t in BankTargets(m[x], offset);
      assert x !in a ==> BanksMoved(m, a, offset)[x] == m[x];
    }
  }

  lemma LoadedTwice(g: Graph, a: set<u32>, b: set<u32>, offset: u32, table: u32)
    ensures Loaded(Loaded(g, a, offset, table), b, offset, table) == Loaded(g, a + b, offset, table)
    ensures Present(g, a + b, offset) ==> Present(g, a, offset) && Present(Loaded(g, a, offset, table), b, offset)
  {
    hide InstsMoved, SoundsMoved, WavesMoved, SoundsOf, WavesOf;
    var sa, sb := SoundsOf(g.insts, a, offset), SoundsOf(InstsMoved(g.insts, a, offset), b, offset);
    var wa, wb := WavesOf(g.sounds, sa, offset), WavesOf(SoundsMoved(g.sounds, sa, offset), sb, offset);
    InstsTwice(g.insts, a, b, offset);
    SoundsOfRest(g.insts, a, b, offset);
    SoundsTwice(g.sounds, sa, sb, offset);
    WavesOfRest(g.sounds, sa, sb, offset);
    WavesTwice(g.waves, wa, wb, offset, table);
    MovedKeys(g, a, sa, wa, offset, table);
  }

  lemma MovedKeys(g: Graph, i: set<u32>, s: set<u32>, w: set<u32>, offset: u32, table: u32)
    ensures InstsMoved(g.insts, i, offset).Keys == g.insts.Keys
    ensures SoundsMoved(g.sounds, s, offset).Keys == g.sounds.Keys
    ensures WavesMoved(g.waves, w, offset, table).Keys == g.waves.Keys
  {
  }

  lemma LoadedNone(g: Graph, offset: u32, table: u32)
    ensures Loaded(g, {}, offset, table) == g
  {
    assert SoundsOf(g.insts, {}, offset) == {} && WavesOf(g.sounds, {}, offset) == {};
    InstsTwice(g.insts, {}, {}, offset);
    SoundsTwice(g.sounds, {}, {}, offset);
    WavesTwice(g.waves, {}, {}, offset, table);
  }

  lemma TargetsGrow(refs: seq<u32>, k: nat, offset: u32)
    requires k < |refs|
    ensures Targets(refs[..k + 1], offset) == Targets(refs[..k], offset) + {Ref(refs[k], offset)}
    ensures Targets(refs[..k + 1], offset) <= Targets(refs, offset)
    ensures MovedAll(refs[..k + 1], offset) + refs[k + 1..] ==
      (MovedAll(refs[..k], offset) + refs[k..])[k := Ref(refs[k], offset)]
    ensures (MovedAll(refs[..k], offset) + refs[k..])[k] == refs[k]
  {
    assert refs[..k + 1] == refs[..k] + [refs[k]];
  }

  lemma TargetsEnds(refs: seq<u32>, offset: u32)
    ensures refs[..|refs|] == refs && MovedAll(refs[..|refs|], offset) + refs[|refs|..] == MovedAll(refs, offset)
    ensures Targets(refs[..0], offset) == {} && MovedAll(refs[..0], offset) + refs[0..] == refs
  {
  }

  // ---- what loading amounts to ----

  // After a load every reference that was moved arrives: from the array of banks, from the
  // banks, from the instruments and from the sounds, at an object that is there and marked.
  lemma ReferencesArrive(refs: seq<u32>, m: map<u32, Bank>, g: Graph, offset: u32, table: u32)
    requires Targets(refs, offset) - {0} <= m.Keys
    requires Present(g, InstsOf(m, Targets(refs, offset) - {0}, offset), offset)
    ensures var roots := Targets(refs, offset) - {0};
      var banks, r := BanksMoved(m, roots, offset), Loaded(g, InstsOf(m, roots, offset), offset, table);
      && (forall b <- MovedAll(refs, offset) :: b == 0 || RootArrives(m, banks, b, r))
      && forall i <- InstsOf(m, roots, offset) :: g.insts[i].flags == 0 ==>
        && InstArrives(r, i)
        && forall s <- r.insts[i].sounds :: s in g.sounds && (g.sounds[s].flags == 0 ==> SoundArrives(r, s))
  {
    hide Loaded, InstsOf, BanksMoved, InstArrives, SoundArrives, RootArrives, BankTargets;
    var roots := Targets(refs, offset) - {0};
    var insts := InstsOf(m, roots, offset);
    forall b | b in MovedAll(refs, offset) && b != 0
      ensures RootArrives(m, BanksMoved(m, roots, offset), b, Loaded(g, insts, offset, table))
    {
      var k :| 0 <= k < |refs| && MovedAll(refs, offset)[k] == b;
      assert Ref(refs[k], offset) in Targets(refs, offset);
      BankReferencesArrive(m, roots, b, g, offset, table);
    }
    InstReferencesArrive(g, insts, offset, table);
  }

  predicate RootArrives(before: map<u32, Bank>, after: map<u32, Bank>, b: u32, r: Graph) {
    && b in before && b in after && after[b].flags != 0
    && (before[b].flags == 0 ==> BankArrives(before[b], after[b], r))
  }

  // A moved bank's percussion and instruments are there and marked.
  predicate BankArrives(before: Bank, after: Bank, r: Graph) {
    && (before.percussion != 0 ==> after.percussion in r.insts && r.insts[after.percussion].flags != 0)
    && forall i <- after.insts :: i != 0 ==> i in r.insts && r.insts[i].flags != 0
  }

  predicate InstArrives(r: Graph, i: u32) {
    i in r.insts && r.insts[i].flags != 0 && forall s <- r.insts[i].sounds :: s in r.sounds && r.sounds[s].flags != 0
  }

  predicate SoundArrives(r: Graph, s: u32) {
    s in r.sounds && r.sounds[s].wavetable in r.waves && r.waves[r.sounds[s].wavetable].flags != 0
  }

  lemma BankReferencesArrive(m: map<u32, Bank>, roots: set<u32>, b: u32, g: Graph, offset: u32, table: u32)
    requires b in roots && roots <= m.Keys && Present(g, InstsOf(m, roots, offset), offset)
    ensures RootArrives(m, BanksMoved(m, roots, offset), b, Loaded(g, InstsOf(m, roots, offset), offset, table))
  {
    hide SoundsMoved, WavesMoved, SoundsOf, WavesOf;
    var banks, r := BanksMoved(m, roots, offset), Loaded(g, InstsOf(m, roots, offset), offset, table);
    if m[b].flags == 0 {
      assert banks[b] == MovedBank(m[b], offset);
      forall i | i in banks[b].insts && i != 0 ensures i in InstsOf(m, roots, offset) {
        var k :| 0 <= k < |banks[b].insts| && banks[b].insts[k] == i;
        assert m[b].insts[k] in m[b].insts && i in BankTargets(m[b], offset);
      }
      if m[b].percussion != 0 {
        assert Ref(m[b].percussion, offset) in BankTargets(m[b], offset);
        assert Ref(m[b].percussion, offset) in InstsOf(m, roots, offset);
      }
    }
  }

  lemma InstReferencesArrive(g: Graph, which: set<u32>, offset: u32, table: u32)
    requires Present(g, which, offset)
    ensures var r := Loaded(g, which, offset, table);
      forall i <- which :: g.insts[i].flags == 0 ==>
        && InstArrives(r, i)
        && forall s <- r.insts[i].sounds :: s in g.sounds && (g.sounds[s].flags == 0 ==> SoundArrives(r, s))
  {
    var r := Loaded(g, which, offset, table);
    forall i, s | i in which && g.insts[i].flags == 0 && s in r.insts[i].sounds
      ensures s in SoundsOf(g.insts, which, offset)
    {
      var k :| 0 <= k < |r.insts[i].sounds| && r.insts[i].sounds[k] == s;
      assert g.insts[i].sounds[k] in g.insts[i].sounds;
    }
  }

  // Loading again moves no instrument, sound or wavetable a second time. The array of banks has
  // no marks: a second load moves its entries again, to the wrong addresses.
  lemma LoadedOnce(g: Graph, which: set<u32>, refs: seq<u32>, offset: u32, table: u32)
    ensures Loaded(Loaded(g, which, offset, table), which, offset, table) == Loaded(g, which, offset, table)
    ensures MovedAll(MovedAll(refs, offset), offset) == MovedAll(refs, offset) <==> offset == 0 || refs == []
  {
    LoadedTwice(g, which, which, offset, table);
    assert which + which == which;
    if offset != 0 && refs != [] {
      assert MovedAll(MovedAll(refs, offset), offset)[0] != MovedAll(refs, offset)[0];
    }
  }

  // The null test on the entries of the two arrays comes after the addition, so it does not
  // see an entry that was null: it sees the one entry that wraps around to 0.
  lemma NullTestIsLate(p: u32, offset: u32)
    ensures Ref(p, offset) == 0 <==> p == (U32_LIMIT - offset) % U32_LIMIT
    ensures offset != 0 ==> Ref(0, offset) != 0
  {
  }

  // A bank file in memory at the address `offset`, with its wave data at `table`.
  class BankFile {
    const revision: int
    const offset: u32
    const table: u32
    var bankArray: seq<u32>
    var banks: map<u32, Bank>
    var insts: map<u32, Instrument>
    var sounds: map<u32, Sound>
    var waves: map<u32, Wave>

    constructor (revision: int, offset: u32, table: u32, bankArray: seq<u32>,
      banks: map<u32, Bank>, insts: map<u32, Instrument>, sounds: map<u32, Sound>, waves: map<u32, Wave>)
    {
      this.revision, this.offset, this.table, this.bankArray := revision, offset, table, bankArray;
      this.banks, this.insts, this.sounds, this.waves := banks, insts, sounds, waves;
    }

    // _bnkfPatchWaveTable
    method PatchWaveTable(w: u32)
      requires w in waves
      modifies `waves
      ensures waves == WavesMoved(old(waves), {w}, offset, table)
    {
      if waves[w].flags != 0 {
        return;
      }
      var x := waves[w].(flags := 1, base := Ref(waves[w].base, table));
      match x.info {
        case Adpcm(loop, book) =>
          x := x.(info := Adpcm(loop, Ref(book, offset)));
          if loop != 0 {
            x := x.(info := Adpcm(Ref(loop, offset), Ref(book, offset)));
          }
        case Raw(loop) =>
          if loop != 0 {
            x := x.(info := Raw(Ref(loop, offset)));
          }
        case OtherWave =>
      }
      waves := waves[w := x];
    }

    // _bnkfPatchSound
    method PatchSound(s: u32)
      requires s in sounds && WavesOf(sounds, {s}, offset) <= waves.Keys
      modifies `sounds, `waves
      ensures sounds == SoundsMoved(old(sounds), {s}, offset)
      ensures waves == WavesMoved(old(waves), WavesOf(old(sounds), {s}, offset), offset, table)
    {
      var x := sounds[s];
      if x.flags != 0 {
        assert WavesMoved(waves, {}, offset, table) == waves;
        return;
      }
      assert Ref(x.wavetable, offset) in WavesOf(sounds, {s}, offset);
      assert WavesOf(sounds, {s}, offset) == {Ref(x.wavetable, offset)};
      x := x.(flags := 1);
      x := x.(envelope := Ref(x.envelope, offset));
      x := x.(keyMap := Ref(x.keyMap, offset));
      x := x.(wavetable := Ref(x.wavetable, offset));
      sounds := sounds[s := x];
      PatchWaveTable(x.wavetable);
    }

    ghost function Below(): Graph
      reads this
    {
      Graph(insts, sounds, waves)
    }

    // _bnkfPatchInst
    method PatchInst(i: u32)
      requires Present(Below(), {i}, offset)
      modifies `insts, `sounds, `waves
      ensures Below() == Loaded(old(Below()), {i}, offset, table)
    {
      var x := insts[i];
      if x.flags != 0 {
        NothingOfInst(Below(), i);
        return;
      }
      ghost var refs := x.sounds;
      OneInst(Below(), i);
      x := x.(flags := 1);
      insts := insts[i := x];
      PatchSounds(i);
      InstMoved(old(insts), i);
    }

    lemma NothingOfInst(g: Graph, i: u32)
      requires i in g.insts && g.insts[i].flags != 0
      ensures Loaded(g, {i}, offset, table) == g
    {
      assert SoundsOf(g.insts, {i}, offset) == {} && WavesOf(g.sounds, {}, offset) == {};
      assert InstsMoved(g.insts, {i}, offset) == g.insts;
      SoundsTwice(g.sounds, {}, {}, offset);
      WavesTwice(g.waves, {}, {}, offset, table);
    }

    lemma OneInst(g: Graph, i: u32)
      requires i in g.insts && g.insts[i].flags == 0
      ensures SoundsOf(g.insts, {i}, offset) == Targets(g.insts[i].sounds, offset)
    {
      forall t | t in Targets(g.insts[i].sounds, offset) ensures t in SoundsOf(g.insts, {i}, offset) {
        var p :| p in g.insts[i].sounds && t == Ref(p, offset);
      }
    }

    lemma InstMoved(m: map<u32, Instrument>, i: u32)
      requires i in m && m[i].flags == 0
      ensures InstsMoved(m, {i}, offset) == m[i := MovedInst(m[i], offset)]
    {
    }

    // Its loop.
    method PatchSounds(i: u32)
      requires i in insts && insts[i].flags == 1
      requires Targets(insts[i].sounds, offset) <= sounds.Keys
      requires WavesOf(sounds, Targets(insts[i].sounds, offset), offset) <= waves.Keys
      modifies `insts, `sounds, `waves
      ensures insts == old(insts)[i := MovedInst(old(insts)[i], offset)]
      ensures var targets := Targets(old(insts)[i].sounds, offset);
        && sounds == SoundsMoved(old(sounds), targets, offset)
        && waves == WavesMoved(old(waves), WavesOf(old(sounds), targets, offset), offset, table)
    {
      hide SoundsMoved, WavesMoved, WavesOf, Targets, MovedAll;
      ghost var refs := insts[i].sounds;
      TargetsEnds(refs, offset);
      SoundsTwice(sounds, {}, {}, offset);
      WavesTwice(waves, {}, {}, offset, table);
      NoWaves(sounds);
      for k := 0 to |insts[i].sounds|
        invariant insts == old(insts)[i := Instrument(1, MovedAll(refs[..k], offset) + refs[k..])]
        invariant sounds == SoundsMoved(old(sounds), Targets(refs[..k], offset), offset)
        invariant waves ==
          WavesMoved(old(waves), WavesOf(old(sounds), Targets(refs[..k], offset), offset), offset, table)
      {
        TargetsGrow(refs, k, offset);
        SoundPresent(old(sounds), old(waves), refs, k);
        ghost var done, s := Targets(refs[..k], offset), Ref(refs[k], offset);
        WavesOfRest(old(sounds), done, {s}, offset);
        SoundsTwice(old(sounds), done, {s}, offset);
        WavesTwice(old(waves), WavesOf(old(sounds), done, offset), WavesOf(sounds, {s}, offset), offset, table);
        insts := insts[i := insts[i].(sounds := insts[i].sounds[k := Ref(insts[i].sounds[k], offset)])];
        PatchSound(insts[i].sounds[k]);
      }
      TargetsEnds(refs, offset);
    }

    lemma NoWaves(m: map<u32, Sound>)
      ensures WavesOf(m, {}, offset) == {}
    {
    }

    lemma SoundPresent(s: map<u32, Sound>, w: map<u32, Wave>, refs: seq<u32>, k: nat)
      requires k < |refs| && Targets(refs, offset) <= s.Keys && WavesOf(s, Targets(refs, offset), offset) <= w.Keys
      ensures var done := Targets(refs[..k], offset);
        var r := SoundsMoved(s, done, offset);
        && Ref(refs[k], offset) in r
        && WavesOf(r, {Ref(refs[k], offset)}, offset) <= WavesMoved(w, WavesOf(s, done, offset), offset, table).Keys
    {
      var done, all := Targets(refs[..k], offset), Targets(refs, offset);
      assert Ref(refs[k], offset) in all;
      forall t | t in WavesOf(SoundsMoved(s, done, offset), {Ref(refs[k], offset)}, offset)
        ensures t in WavesOf(s, all, offset)
      {
        assert SoundsMoved(s, done, offset)[Ref(refs[k], offset)] == s[Ref(refs[k], offset)];
      }
    }

    // _bnkfPatchBank
    method PatchBank(b: u32)
      requires b in banks && Present(Below(), InstsOf(banks, {b}, offset), offset)
      modifies `banks, `insts, `sounds, `waves
      ensures banks == BanksMoved(old(banks), {b}, offset)
      ensures Below() == Loaded(old(Below()), InstsOf(old(banks), {b}, offset), offset, table)
    {
      hide Loaded, Present, InstsOf, BanksMoved, BankTargets, MovedAll;
      var x := banks[b];
      OneBank(banks, b);
      LoadedNone(Below(), offset, table);
      if x.flags != 0 {
        return;
      }
      ghost var g, refs, all := Below(), x.insts, BankTargets(x, offset);
      BankParts(g, x, 0);
      x := x.(flags := 1);
      banks := banks[b := x];
      if x.percussion != 0 {
        x := x.(percussion := Ref(x.percussion, offset));
        banks := banks[b := x];
        PatchInst(x.percussion);
      }
      PatchInsts(b, g, old(banks)[b]);
    }

    lemma OneBank(m: map<u32, Bank>, b: u32)
      requires b in m
      ensures InstsOf(m, {b}, offset) == if m[b].flags == 0 then BankTargets(m[b], offset) else {}
      ensures BanksMoved(m, {b}, offset) == if m[b].flags == 0 then m[b := MovedBank(m[b], offset)] else m
    {
    }

    // What is loaded when the percussion and the first k instruments of a bank are.
    ghost function FirstOf(x: Bank, k: nat): set<u32>
      requires k <= |x.insts|
    {
      (if x.percussion != 0 then {Ref(x.percussion, offset)} else {}) + (Targets(x.insts[..k], offset) - {0})
    }

    lemma BankParts(g: Graph, x: Bank, k: nat)
      requires k <= |x.insts| && Present(g, BankTargets(x, offset), offset)
      ensures Present(g, FirstOf(x, k), offset) && FirstOf(x, |x.insts|) == BankTargets(x, offset)
      ensures FirstOf(x, 0) == if x.percussion != 0 then {Ref(x.percussion, offset)} else {}
      ensures k < |x.insts| ==>
        var t := Ref(x.insts[k], offset);
        && FirstOf(x, k + 1) == (if t != 0 then FirstOf(x, k) + {t} else FirstOf(x, k))
        && (t != 0 ==> Present(Loaded(g, FirstOf(x, k), offset, table), {t}, offset))
    {
      hide Loaded, Present, Targets;
      TargetsEnds(x.insts, offset);
      if k < |x.insts| {
        TargetsGrow(x.insts, k, offset);
        var t := Ref(x.insts[k], offset);
        if t != 0 {
          PresentPart(g, FirstOf(x, k + 1), BankTargets(x, offset));
          LoadedTwice(g, FirstOf(x, k), {t}, offset, table);
        }
      }
      TargetsPart(x.insts, k);
      PresentPart(g, FirstOf(x, k), BankTargets(x, offset));
    }

    lemma TargetsPart(refs: seq<u32>, k: nat)
      requires k <= |refs|
      ensures Targets(refs[..k], offset) <= Targets(refs, offset)
    {
    }

    lemma PresentPart(g: Graph, part: set<u32>, all: set<u32>)
      requires part <= all && Present(g, all, offset)
      ensures Present(g, part, offset)
    {
      hide Loaded, Present;
      assert part + all == all;
      LoadedTwice(g, part, all, offset, table);
    }

    // Its loop.
    method PatchInsts(b: u32, ghost g: Graph, ghost x: Bank)
      requires b in banks && banks[b] == Bank(1, MovedIfAny(x.percussion, offset), x.insts)
      requires Present(g, BankTargets(x, offset), offset) && Below() == Loaded(g, FirstOf(x, 0), offset, table)
      modifies `banks, `insts, `sounds, `waves
      ensures banks == old(banks)[b := MovedBank(x, offset)]
      ensures Below() == Loaded(g, BankTargets(x, offset), offset, table)
    {
      hide Loaded, Present, BankTargets, Targets, MovedAll, FirstOf;
      TargetsEnds(x.insts, offset);
      for k := 0 to |banks[b].insts|
        invariant banks ==
          old(banks)[b := Bank(1, MovedIfAny(x.percussion, offset), MovedAll(x.insts[..k], offset) + x.insts[k..])]
        invariant Below() == Loaded(g, FirstOf(x, k), offset, table)
      {
        TargetsGrow(x.insts, k, offset);
        BankParts(g, x, k);
        ghost var t := Ref(x.insts[k], offset);
        LoadedTwice(g, FirstOf(x, k), {t}, offset, table);
        banks := banks[b := banks[b].(insts := banks[b].insts[k := Ref(banks[b].insts[k], offset)])];
        if banks[b].insts[k] != 0 {
          PatchInst(banks[b].insts[k]);
        }
      }
      TargetsEnds(x.insts, offset);
      BankParts(g, x, 0);
    }

    // alBnkfNew: a file of another revision is left alone.
    method Load()
      requires Roots(bankArray) <= banks.Keys && Present(Below(), InstsOf(banks, Roots(bankArray), offset), offset)
      modifies this
      ensures revision != AL_BANK_VERSION ==>
        bankArray == old(bankArray) && banks == old(banks) && Below() == old(Below())
      ensures revision == AL_BANK_VERSION ==>
        var roots := Roots(old(bankArray));
        && bankArray == MovedAll(old(bankArray), offset)
        && banks == BanksMoved(old(banks), roots, offset)
        && Below() == Loaded(old(Below()), InstsOf(old(banks), roots, offset), offset, table)
    {
      hide Loaded, Present, InstsOf, BanksMoved, Targets, MovedAll;
      if revision != AL_BANK_VERSION {
        return;
      }
      ghost var refs := bankArray;
      TargetsEnds(refs, offset);
      LoadedNone(Below(), offset, table);
      BanksTwice(banks, {}, {}, offset);
      NoInsts(banks);
      assert Roots(refs[..0]) == {};
      for k := 0 to |bankArray|
        invariant bankArray == MovedAll(refs[..k], offset) + refs[k..]
        invariant banks == BanksMoved(old(banks), Roots(refs[..k]), offset)
        invariant Below() == Loaded(old(Below()), InstsOf(old(banks), Roots(refs[..k]), offset), offset, table)
      {
        TargetsGrow(refs, k, offset);
        ghost var done, b := Roots(refs[..k]), Ref(refs[k], offset);
        bankArray := bankArray[k := Ref(bankArray[k], offset)];
        if bankArray[k] != 0 {
          BankPresent(old(banks), old(Below()), refs, k);
          InstsOfRest(old(banks), done, {b}, offset);
          BanksTwice(old(banks), done, {b}, offset);
          LoadedTwice(old(Below()), InstsOf(old(banks), done, offset), InstsOf(banks, {b}, offset), offset, table);
          PatchBank(bankArray[k]);
          assert Roots(refs[..k + 1]) == done + {b};
        } else {
          assert Roots(refs[..k + 1]) == done;
        }
      }
      TargetsEnds(refs, offset);
    }

    // The banks that the file lists.
    ghost function Roots(refs: seq<u32>): set<u32> {
      Targets(refs, offset) - {0}
    }

    lemma NoInsts(m: map<u32, Bank>)
      ensures InstsOf(m, {}, offset) == {}
    {
    }

    lemma BankPresent(m: map<u32, Bank>, g: Graph, refs: seq<u32>, k: nat)
      requires k < |refs| && Ref(refs[k], offset) != 0
      requires Roots(refs) <= m.Keys && Present(g, InstsOf(m, Roots(refs), offset), offset)
      ensures var done, b := Roots(refs[..k]), Ref(refs[k], offset);
        && b in BanksMoved(m, done, offset)
        && Present(Loaded(g, InstsOf(m, done, offset), offset, table),
          InstsOf(BanksMoved(m, done, offset), {b}, offset), offset)
    {
      hide Loaded, Present, InstsOf, Targets;
      var done, b := Roots(refs[..k]), Ref(refs[k], offset);
      TargetsGrow(refs, k, offset);
      BanksKeys(m, done);
      InstsOfRest(m, done, {b}, offset);
      InstsOfRest(m, done + {b}, Roots(refs), offset);
      assert done + {b} + Roots(refs) == Roots(refs);
      var some, more := InstsOf(m, done, offset), InstsOf(BanksMoved(m, done, offset), {b}, offset);
      PresentPart(g, some + more, InstsOf(m, Roots(refs), offset));
      LoadedTwice(g, some, more, offset, table);
    }

    lemma BanksKeys(m: map<u32, Bank>, which: set<u32>)
      ensures BanksMoved(m, which, offset).Keys == m.Keys
    {
    }
  }
}
