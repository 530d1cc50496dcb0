// What the byte reader of src/audio/cseq.c delivers: the track with every back-reference
// replaced by the bytes it refers to.
module Decompression {
  import opened Machine
  import opened TrackReader

  function Distance(hi: int, lo: int): int { hi * 0x100 + lo }

  function SectionLength(len: int): int { if len == 0 then 0x100 else len }

  // The bytes that the compressed bytes mem[lo..hi] stand for. A code FE hi lo len stands for
  // the len bytes that begin hi:lo bytes before the code, taken as they are; len 0 stands for
  // 0x100 bytes, because the player's counter is one byte wide. FE FE stands for one FE.
  function Expand(mem: Bytes, lo: nat, hi: nat): Option<Bytes>
    requires hi <= |mem|
    decreases hi - lo
  {
    if lo >= hi then (if lo == hi then Some([]) else None)
    else if mem[lo] != BLOCK_CODE then
      var rest :- Expand(mem, lo + 1, hi);
      Some([mem[lo]] + rest)
    else if lo + 1 < hi && mem[lo + 1] == BLOCK_CODE then
      var rest :- Expand(mem, lo + 2, hi);
      Some([BLOCK_CODE] + rest)
    else if lo + 4 <= hi then
      var from, len := lo - Distance(mem[lo + 1], mem[lo + 2]), SectionLength(mem[lo + 3]);
      if 0 <= from && from + len <= |mem| then
        var rest :- Expand(mem, lo + 4, hi);
        Some(mem[from..from + len] + rest)
      else None
    else None
  }

  lemma {:induction false} ReadBytesSplit(mem: Bytes, area: Area, t: Track, n: nat, k: nat)
    requires k <= n
    ensures ReadBytes(mem, area, t, n) == (
      var (a, t1) :- ReadBytes(mem, area, t, k);
      var (b, t2) :- ReadBytes(mem, area, t1, n - k);
      Some((a + b, t2)))
    decreases k
  {
    if k > 0 {
      var first := GetByte(mem, area, t);
      if first.Some? {
        ReadBytesSplit(mem, area, first.value.1, n - 1, k - 1);
        var head := ReadBytes(mem, area, first.value.1, k - 1);
        if head.Some? {
          var tail := ReadBytes(mem, area, head.value.1, n - k);
          assert tail.Some? ==>
            [first.value.0] + (head.value.0 + tail.value.0) == [first.value.0] + head.value.0 + tail.value.0;
        }
      }
    } else {
      var all := ReadBytes(mem, area, t, n);
      assert all.Some? ==> [] + all.value.0 == all.value.0;
    }
  }

  lemma {:induction false} ReadBytesJoin(mem: Bytes, area: Area, t: Track, a: Bytes, ta: Track, b: Bytes, tb: Track)
    requires ReadBytes(mem, area, t, |a|) == Some((a, ta)) && ReadBytes(mem, area, ta, |b|) == Some((b, tb))
    ensures ReadBytes(mem, area, t, |a + b|) == Some((a + b, tb))
  {
    ReadBytesSplit(mem, area, t, |a + b|, |a|);
  }

  lemma ReadBytesPart(mem: Bytes, area: Area, t: Track, a: Bytes, b: Bytes, tb: Track) returns (ta: Track)
    requires ReadBytes(mem, area, t, |a + b|) == Some((a + b, tb))
    ensures ReadBytes(mem, area, t, |a|) == Some((a, ta)) && ReadBytes(mem, area, ta, |b|) == Some((b, tb))
  {
    ReadBytesSplit(mem, area, t, |a + b|, |a|);
    ReadBytesLength(mem, area, t, |a|);
    var (c, tc) := ReadBytes(mem, area, t, |a|).value;
    var (d, td) := ReadBytes(mem, area, tc, |b|).value;
    assert c == (c + d)[..|a|] == (a + b)[..|a|] == a && d == (c + d)[|a|..] == (a + b)[|a|..] == b;
    ta := tc;
  }

  // A section being repeated is read as it stands in memory.
  lemma {:induction false} ReadSection(mem: Bytes, t: Track)
    requires 0 <= t.buPtr && t.buPtr + t.buLen <= |mem|
    ensures ReadBytes(mem, Everywhere, t, t.buLen)
         == Some((mem[t.buPtr..t.buPtr + t.buLen], t.(buPtr := t.buPtr + t.buLen, buLen := 0)))
    decreases t.buLen
  {
    if t.buLen > 0 {
      var t1 := t.(buPtr := t.buPtr + 1, buLen := t.buLen - 1);
      ReadSection(mem, t1);
      assert GetByte(mem, Everywhere, t) == Some((mem[t.buPtr], t1));
      assert mem[t.buPtr..t.buPtr + t.buLen] == [mem[t.buPtr]] + mem[t1.buPtr..t1.buPtr + t1.buLen];
    } else {
      assert mem[t.buPtr..t.buPtr] == [];
    }
  }

  // Reading from t yields these bytes and stops at hi, with no section left over.
  predicate Delivers(mem: Bytes, t: Track, bytes: Bytes, hi: int) {
    var r := ReadBytes(mem, Everywhere, t, |bytes|);
    r.Some? && r.value.0 == bytes && r.value.1.curLoc == hi && r.value.1.buLen == 0
  }

  lemma DeliversFirst(mem: Bytes, t: Track, b: u8, t1: Track, bytes: Bytes, hi: int)
    requires GetByte(mem, Everywhere, t) == Some((b, t1)) && Delivers(mem, t1, bytes, hi)
    ensures Delivers(mem, t, [b] + bytes, hi)
  {
  }

  // Successive calls of __getTrackByte on compressed bytes deliver exactly their expansion and
  // end behind them with no section left over.
  lemma {:induction false} ReaderExpands(mem: Bytes, t: Track, hi: nat)
    requires 0 <= t.curLoc && hi <= |mem| && t.buLen == 0 && Expand(mem, t.curLoc, hi).Some?
    ensures Delivers(mem, t, Expand(mem, t.curLoc, hi).value, hi)
    decreases hi - t.curLoc
  {
    var lo := t.curLoc;
    if lo < hi {
      if mem[lo] != BLOCK_CODE {
        ReaderExpands(mem, t.(curLoc := lo + 1), hi);
      } else if lo + 1 < hi && mem[lo + 1] == BLOCK_CODE {
        ReaderExpands(mem, t.(curLoc := lo + 2), hi);
      } else {
        ReadReference(mem, t, hi);
      }
    }
  }

  lemma {:induction false} ReadReference(mem: Bytes, t: Track, hi: nat)
    requires 0 <= t.curLoc && t.curLoc + 4 <= hi <= |mem| && t.buLen == 0 && Expand(mem, t.curLoc, hi).Some?
    requires mem[t.curLoc] == BLOCK_CODE && mem[t.curLoc + 1] != BLOCK_CODE
    ensures Delivers(mem, t, Expand(mem, t.curLoc, hi).value, hi)
    decreases hi - t.curLoc, 0
  {
    hide ReadBytes, GetByte, Expand, Delivers, Distance;
    var lo := t.curLoc;
    ExpandReference(mem, lo, hi);
    var from, len := lo - Distance(mem[lo + 1], mem[lo + 2]), SectionLength(mem[lo + 3]);
    var rest := Expand(mem, lo + 4, hi).value;
    var t1 := t.(curLoc := lo + 4, buPtr := from + 1, buLen := len - 1);
    FirstOfSection(mem, t, from, len);
    ReadSection(mem, t1);
    var t2 := t1.(buPtr := from + len, buLen := 0);
    ReaderExpands(mem, t2, hi);
    var section := mem[from + 1..from + len];
    DeliversBoth(mem, t1, section, t2, rest, hi);
    DeliversFirst(mem, t, mem[from], t1, section + rest, hi);
    assert mem[from..from + len] + rest == [mem[from]] + (section + rest);
  }

  lemma ExpandReference(mem: Bytes, lo: nat, hi: nat)
    requires lo + 4 <= hi <= |mem| && Expand(mem, lo, hi).Some? && mem[lo] == BLOCK_CODE && mem[lo + 1] != BLOCK_CODE
    ensures var from, len := lo - Distance(mem[lo + 1], mem[lo + 2]), SectionLength(mem[lo + 3]);
      && 0 <= from && from + len <= |mem| && Expand(mem, lo + 4, hi).Some?
      && Expand(mem, lo, hi).value == mem[from..from + len] + Expand(mem, lo + 4, hi).value
  {
  }

  lemma {:induction false} DeliversBoth(mem: Bytes, t: Track, a: Bytes, t1: Track, b: Bytes, hi: int)
    requires ReadBytes(mem, Everywhere, t, |a|) == Some((a, t1)) && Delivers(mem, t1, b, hi)
    ensures Delivers(mem, t, a + b, hi)
  {
    hide ReadBytes;
    ReadBytesJoin(mem, Everywhere, t, a, t1, b, ReadBytes(mem, Everywhere, t1, |b|).value.1);
  }

  lemma FirstOfSection(mem: Bytes, t: Track, from: int, len: int)
    requires 0 <= t.curLoc && t.curLoc + 4 <= |mem| && t.buLen == 0
    requires mem[t.curLoc] == BLOCK_CODE && mem[t.curLoc + 1] != BLOCK_CODE
    requires from == t.curLoc - Distance(mem[t.curLoc + 1], mem[t.curLoc + 2])
    requires len == SectionLength(mem[t.curLoc + 3])
    requires 0 <= from < |mem|
    ensures GetByte(mem, Everywhere, t) ==
      Some((mem[from], t.(curLoc := t.curLoc + 4, buPtr := from + 1, buLen := len - 1)))
  {
  }

  // A shorter read delivers the beginning.
  lemma {:induction false} ReaderExpandsPrefix(mem: Bytes, t: Track, hi: nat, n: nat)
    requires 0 <= t.curLoc && hi <= |mem| && t.buLen == 0 && Expand(mem, t.curLoc, hi).Some?
    requires n <= |Expand(mem, t.curLoc, hi).value|
    ensures ReadBytes(mem, Everywhere, t, n).Some?
    ensures ReadBytes(mem, Everywhere, t, n).value.0 == Expand(mem, t.curLoc, hi).value[..n]
  {
    var bytes := Expand(mem, t.curLoc, hi).value;
    ReaderExpands(mem, t, hi);
    ReadBytesSplit(mem, Everywhere, t, |bytes|, n);
    ReadBytesLength(mem, Everywhere, t, n);
  }

  lemma {:induction false} ReadBytesLength(mem: Bytes, area: Area, t: Track, n: nat)
    ensures ReadBytes(mem, area, t, n).Some? ==> |ReadBytes(mem, area, t, n).value.0| == n
    decreases n
  {
    if n > 0 && GetByte(mem, area, t).Some? {
      ReadBytesLength(mem, area, GetByte(mem, area, t).value.1, n - 1);
    }
  }

  // ---- variable-length quantities ----

  // The encoding of Standard MIDI Files 1.0, "Sequences, Tracks, Chunks: File Block
  // Structure", section "Variable Length Quantity": seven bits to a byte, most significant
  // first, the high bit set on all bytes but the last.
  function Vlq(v: nat): Bytes {
    Continued(v / 0x80) + [v % 0x80]
  }

  function Continued(v: nat): Bytes {
    if v == 0 then [] else Continued(v / 0x80) + [0x80 + v % 0x80]
  }

  // However its bytes are stored, an encoded quantity is read as the quantity, and no byte
  // more is taken.
  lemma {:induction false} ReadVarLenDecodes(mem: Bytes, area: Area, t: Track, v: nat, t1: Track)
    requires v < U32_LIMIT
    requires ReadBytes(mem, area, t, |Vlq(v)|) == Some((Vlq(v), t1))
    ensures ReadVarLen(mem, area, t) == Some((v, t1))
  {
    var ta := ReadBytesPart(mem, area, t, Continued(v / 0x80), [v % 0x80], t1);
    ReadOne(mem, area, ta, v % 0x80, t1);
    LastDigit(v);
    if v >= 0x80 {
      ReadContinued(mem, area, t, v / 0x80, ta);
    }
  }

  lemma {:induction false} ReadOne(mem: Bytes, area: Area, t: Track, b: u8, t1: Track)
    requires ReadBytes(mem, area, t, 1) == Some(([b], t1))
    ensures GetByte(mem, area, t) == Some((b, t1))
  {
    var r := GetByte(mem, area, t).value;
    assert ReadBytes(mem, area, r.1, 0) == Some(([], r.1));
    assert [b][0] == ([r.0] + [])[0];
  }

  // Reading the continued bytes of v: the reader is in its loop with value v.
  lemma {:induction false} ReadContinued(mem: Bytes, area: Area, t: Track, v: nat, t1: Track)
    requires 0 < v < U32_LIMIT
    requires ReadBytes(mem, area, t, |Continued(v)|) == Some((Continued(v), t1))
    ensures ReadVarLen(mem, area, t) == VarLenRest(mem, area, t1, v)
    decreases v
  {
    hide ReadBytes, GetByte;
    var ta := ReadBytesPart(mem, area, t, Continued(v / 0x80), [0x80 + v % 0x80], t1);
    ReadOne(mem, area, ta, 0x80 + v % 0x80, t1);
    LastDigit(v);
    if v >= 0x80 {
      ReadContinued(mem, area, t, v / 0x80, ta);
    } else {
      ReadNone(mem, area, t);
    }
  }

  lemma {:induction false} ReadNone(mem: Bytes, area: Area, t: Track)
    ensures ReadBytes(mem, area, t, 0) == Some(([], t))
  {
  }

  lemma LastDigit(v: nat)
    requires v < U32_LIMIT
    ensures (0x80 + v % 0x80) % 0x80 == v % 0x80
    ensures (v / 0x80 * 0x80 + v % 0x80) % U32_LIMIT == v
    ensures v < 0x80 ==> v % 0x80 == v && v / 0x80 == 0
    ensures v >= 0x80 ==> v / 0x80 > 0
  {
  }
}
