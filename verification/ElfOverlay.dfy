// What fix_garbage of tools/fix_objfile.py makes of a compiled object and an original one.
module ElfOverlay {
  import opened Machine
  import opened ElfFormat
  import opened ElfImage

  // ---- what is taken apart and put together again is the same ----

  lemma SliceAppend(data: Bytes, a: nat, b: nat)
    requires |Slice(data, a, b)| == b
    ensures |Slice(data, 0, a)| == a || b == 0
    ensures b > 0 ==> Slice(data, 0, a + b) == Slice(data, 0, a) + Slice(data, a, b)
  {
  }

  lemma {:induction false} SymbolsComeBack(data: Bytes, n: nat)
    requires ReadSymbols(data, n).Some?
    ensures |Slice(data, 0, n * SYM)| == n * SYM && SymbolBytes(ReadSymbols(data, n).value) == Slice(data, 0, n * SYM)
  {
    hide ReadSymbol;
    if n > 0 {
      SymbolsComeBack(data, n - 1);
      var piece := Slice(data, (n - 1) * SYM, SYM);
      SymbolComesBack(piece);
      ReadSymbolLength(piece);
      SliceAppend(data, (n - 1) * SYM, SYM);
      var all := ReadSymbols(data, n).value;
      assert all[..n - 1] == ReadSymbols(data, n - 1).value && all[n - 1] == ReadSymbol(piece).value;
    }
  }

  lemma ReadSymbolLength(data: Bytes)
    requires ReadSymbol(data).Some?
    ensures |data| == SYM
  {
  }

  lemma OneLess(n: nat, size: nat)
    requires n > 0
    ensures (n - 1) * size + size == n * size && (n - 1) * size >= 0
  {
  }

  lemma {:induction false} RelocationsComeBack(data: Bytes, size: nat, addends: bool, n: nat)
    requires ReadRelocations(data, size, addends, n).Some? && (n > 0 ==> size == if addends then 12 else 8)
    ensures var end := At(0, n, size);
      && |Slice(data, 0, end)| == end
      && RelocationBytes(ReadRelocations(data, size, addends, n).value) == Slice(data, 0, end)
  {
    hide ReadRelocation, Slice, At, RelocationBytes;
    AtIs(n, size);
    if n == 0 {
      NoRelocations(data);
    } else {
      AtIs(n - 1, size);
      OneLess(n, size);
      RelocationsComeBack(data, size, addends, n - 1);
      var piece := Slice(data, At(0, n - 1, size), size);
      RelocationComesBack(piece, addends);
      RelocationSize(piece, addends);
      SliceAppend(data, At(0, n - 1, size), size);
      OneMoreRelocation(ReadRelocations(data, size, addends, n - 1).value, ReadRelocation(piece, addends).value);
    }
  }

  lemma AtIs(n: nat, size: nat)
    ensures At(0, n, size) == n * size >= 0
  {
  }

  lemma NoRelocations(data: Bytes)
    ensures RelocationBytes([]) == Slice(data, 0, 0)
  {
  }

  lemma {:induction false} OneMoreRelocation(all: seq<Relocation>, x: Relocation)
    ensures RelocationBytes(all + [x]) == RelocationBytes(all) + x.ToBin()
  {
    assert (all + [x])[..|all|] == all;
  }

  lemma RelocationSize(data: Bytes, addends: bool)
    requires ReadRelocation(data, addends).Some?
    ensures |data| == if addends then 12 else 8
  {
  }

  // Every relocation of a section that is whole has the size of its kind.
  lemma {:induction false} EntrySize(data: Bytes, size: nat, addends: bool, n: nat)
    requires n > 0 && ReadRelocations(data, size, addends, n).Some? && |data| == n * size
    ensures size == if addends then 12 else 8
  {
    hide ReadRelocation;
    OneLess(n, size);
    RelocationSize(Slice(data, At(0, n - 1, size), size), addends);
  }

  // A section that does not run past the end of the file.
  predicate Whole(s: Section) {
    s.data.Some? ==> |s.data.value| == s.head.size
  }

  lemma SectionComesBack(s: Section, t: Section)
    requires Whole(s) && s.entries == Opaque && ReadEntries(s) == Some(t)
    requires s.head.entsize != 0 ==> s.head.size % s.head.entsize == 0
    requires s.head.stype == SHT_SYMTAB ==> s.head.entsize == SYM
    ensures t.head == s.head && t.data == s.data && t.Header() == s.head && t.Data() == s.data
  {
    hide ReadSymbols, ReadRelocations, SymbolBytes, RelocationBytes;
    if s.data.Some? {
      var data := s.data.value;
      assert Slice(data, 0, |data|) == data;
      if s.head.stype == SHT_SYMTAB {
        SymbolsComeBack(data, s.head.size / SYM);
      } else if s.head.stype == SHT_REL || s.head.stype == SHT_RELA {
        var n := s.head.size / s.head.entsize;
        Times(s.head.size, s.head.entsize);
        if n > 0 {
          EntrySize(data, s.head.entsize, s.head.stype == SHT_RELA, n);
        }
        RelocationsComeBack(data, s.head.entsize, s.head.stype == SHT_RELA, n);
      }
    }
  }

  predicate InWords(h: SectionHeader) {
    && h.name < U32_LIMIT && h.stype < U32_LIMIT && h.flags < U32_LIMIT && h.addr < U32_LIMIT && h.offset < U32_LIMIT
    && h.size < U32_LIMIT && h.link < U32_LIMIT && h.info < U32_LIMIT && h.addralign < U32_LIMIT
    && h.entsize < U32_LIMIT
  }

  lemma HeaderValues(h: SectionHeader)
    requires InWords(h)
    ensures Fields(Words(10), h.ToBin()) ==
      [h.name, h.stype, h.flags, h.addr, h.offset, h.size, h.link, h.info, h.addralign, h.entsize]
  {
    hide Fields, Packed;
    assert Limit(0) == 1 && Limit(1) == 0x100 && Limit(2) == 0x1_0000 && Limit(3) == 0x100_0000;
    assert Limit(4) == U32_LIMIT;
    UnpackedFields(Words(10),
      [h.name, h.stype, h.flags, h.addr, h.offset, h.size, h.link, h.info, h.addralign, h.entsize]);
  }

  // The header that is written for a section is that of the file if and only if the section
  // does not run past the end of it: a cut section has its size corrected.
  lemma HeaderIsKeptIff(data: Bytes, h: ElfHeader, i: nat, s: Section)
    requires ReadSection(data, h, i) == Some(s)
    ensures s.Header().ToBin() == Slice(data, At(h.shoff, i, h.shentsize), h.shentsize) <==> Whole(s)
  {
    hide Slice, ReadSection, Fields, Packed;
    ReadSectionIs(data, h, i, s);
    SectionHeaderComesBack(Slice(data, At(h.shoff, i, h.shentsize), h.shentsize));
    ReadInWords(Slice(data, At(h.shoff, i, h.shentsize), h.shentsize));
    HeaderValues(s.head);
    if s.data.Some? {
      SliceIsNoLonger(data, s.head.offset, s.head.size);
      HeaderValues(s.Header());
      assert Fields(Words(10), s.Header().ToBin())[5] == |s.data.value|;
      assert Fields(Words(10), s.head.ToBin())[5] == s.head.size;
    }
  }

  lemma ReadInWords(data: Bytes)
    requires ReadSectionHeader(data).Some?
    ensures InWords(ReadSectionHeader(data).value)
  {
    hide Fields;
    assert Limit(0) == 1 && Limit(1) == 0x100 && Limit(2) == 0x1_0000 && Limit(3) == 0x100_0000;
    assert Limit(4) == U32_LIMIT;
    FieldsAreLimited(Words(10), data);
    WordsAreFour(10);
  }

  lemma {:induction false} WordsAreFour(n: nat)
    ensures forall i :: 0 <= i < n ==> Words(n)[i] == 4
  {
    if n > 0 {
      WordsAreFour(n - 1);
    }
  }

  lemma SliceIsNoLonger(data: Bytes, at: nat, size: nat)
    ensures |Slice(data, at, size)| <= size
  {
  }

  lemma Times(a: nat, b: nat)
    requires b > 0 && a % b == 0
    ensures a / b * b == a
  {
  }

  // ---- the overlay ----

  datatype Range = Range(offset: nat, size: nat) {
    predicate Holds(i: int) { offset <= i < offset + size }
  }

  predicate Covered(ranges: seq<Range>, i: int) {
    exists k :: 0 <= k < |ranges| && ranges[k].Holds(i)
  }

  // The bytes of `data` in the ranges, those of `base` elsewhere, and whatever it is where `cut`
  // is.
  predicate Overlaid(r: Bytes, data: Bytes, base: Bytes, ranges: seq<Range>, cut: seq<Range>) {
    && |r| == |data| == |base|
    && forall i :: 0 <= i < |r| && !Covered(cut, i) ==> r[i] == if Covered(ranges, i) then data[i] else base[i]
  }

  // A piece of `data`, but for what is cut.
  predicate Agrees(piece: Bytes, data: Bytes, x: Range, cut: seq<Range>) {
    var s := Slice(data, x.offset, x.size);
    |piece| == |s| && forall j :: 0 <= j < |s| && !Covered(cut, x.offset + j) ==> piece[j] == s[j]
  }

  lemma CoveredByMore(ranges: seq<Range>, x: Range, i: int)
    ensures Covered(ranges + [x], i) <==> Covered(ranges, i) || x.Holds(i)
  {
    if Covered(ranges, i) {
      var k :| 0 <= k < |ranges| && ranges[k].Holds(i);
      assert (ranges + [x])[k].Holds(i);
    }
    if x.Holds(i) {
      assert (ranges + [x])[|ranges|].Holds(i);
    }
  }

  // Pasting a piece of `data` where it comes from.
  lemma PasteOverlays(
    r: Bytes, data: Bytes, base: Bytes, ranges: seq<Range>, cut: seq<Range>, x: Range, piece: Bytes)
    requires Overlaid(r, data, base, ranges, cut) && Agrees(piece, data, x, cut)
    ensures Overlaid(Paste(r, x.offset, x.size, piece), data, base, ranges + [x], cut)
  {
    hide Covered;
    var p := Paste(r, x.offset, x.size, piece);
    forall i | 0 <= i < |p| && !Covered(cut, i) ensures p[i] == if Covered(ranges + [x], i) then data[i] else base[i] {
      CoveredByMore(ranges, x, i);
      if x.Holds(i) {
        assert !Covered(cut, x.offset + (i - x.offset));
      }
    }
  }

  lemma SliceAgrees(data: Bytes, x: Range, cut: seq<Range>)
    ensures Agrees(Slice(data, x.offset, x.size), data, x, cut)
  {
  }

  // What fix_garbage covers: the ELF header, the program headers, the section headers, and the
  // contents of the sections that have any.
  function ProgramRanges(h: ElfHeader, n: nat): seq<Range> {
    if n == 0 then [] else ProgramRanges(h, n - 1) + [Range(At(h.phoff, n - 1, h.phentsize), h.phentsize)]
  }

  function SectionRanges(elf: Elf, n: nat): seq<Range>
    requires n <= |elf.sections|
  {
    if n == 0 then []
    else
      var s, h := elf.sections[n - 1], elf.header;
      SectionRanges(elf, n - 1) + [Range(At(h.shoff, n - 1, h.shentsize), h.shentsize)]
      + if s.data.Some? then [Range(s.head.offset, |s.data.value|)] else []
  }

  function Ranges(elf: Elf): seq<Range> {
    [Range(0, EHDR)] + ProgramRanges(elf.header, |elf.progheaders|) + SectionRanges(elf, |elf.sections|)
  }

  // Where the headers of its sections have the sizes of those that run past its end.
  function CutSizes(elf: Elf): (r: seq<Range>)
    ensures |r| == |elf.sections|
  {
    seq(|elf.sections|, i requires 0 <= i < |elf.sections| =>
      Range(At(elf.header.shoff, i, elf.header.shentsize) + 20, if Whole(elf.sections[i]) then 0 else 4))
  }

  lemma IsCut(elf: Elf, i: nat, j: nat)
    requires i < |elf.sections| && !Whole(elf.sections[i]) && 20 <= j < 24
    ensures Covered(CutSizes(elf), At(elf.header.shoff, i, elf.header.shentsize) + j)
  {
    assert CutSizes(elf)[i].Holds(At(elf.header.shoff, i, elf.header.shentsize) + j);
  }

  // The program headers and sections of a parsed file are where its header says.
  lemma {:induction false} ProgramHeaderAt(data: Bytes, h: ElfHeader, n: nat, i: nat)
    requires i < n && ReadProgramHeaders(data, h, n).Some?
    ensures var piece := Slice(data, At(h.phoff, i, h.phentsize), h.phentsize);
      ReadProgramHeader(piece) == Some(ReadProgramHeaders(data, h, n).value[i])
  {
    hide ReadProgramHeader;
    if i < n - 1 {
      ProgramHeaderAt(data, h, n - 1, i);
    }
  }

  lemma {:induction false} SectionAt(data: Bytes, h: ElfHeader, n: nat, i: nat)
    requires i < n && ReadSections(data, h, n).Some?
    ensures ReadSection(data, h, i) == Some(ReadSections(data, h, n).value[i])
  {
    hide ReadSection;
    if i < n - 1 {
      SectionAt(data, h, n - 1, i);
    }
  }

  lemma {:induction false} EntriesAt(raw: seq<Section>, i: nat)
    requires i < |raw| && ReadAllEntries(raw).Some?
    ensures ReadEntries(raw[i]) == Some(ReadAllEntries(raw).value[i])
    decreases |raw|
  {
    hide ReadEntries;
    if i < |raw| - 1 {
      EntriesAt(raw[..|raw| - 1], i);
    }
  }

  lemma ReadSectionIs(data: Bytes, h: ElfHeader, i: nat, s: Section)
    requires ReadSection(data, h, i) == Some(s)
    ensures var piece := Slice(data, At(h.shoff, i, h.shentsize), h.shentsize);
      && ReadSectionHeader(piece) == Some(s.head)
      && s.entries == Opaque && (s.data.Some? ==> s.data.value == Slice(data, s.head.offset, s.head.size))
      && (s.head.entsize != 0 ==> s.head.size % s.head.entsize == 0)
      && (s.head.stype == SHT_SYMTAB ==> s.head.entsize == SYM)
  {
    hide ReadSectionHeader, Slice;
  }

  lemma {:induction false} ProgramHeadersOverlay(
    r: Bytes, data: Bytes, base: Bytes, ranges: seq<Range>, cut: seq<Range>, elf: Elf, n: nat)
    requires Overlaid(r, data, base, ranges, cut) && n <= |elf.progheaders|
    requires ReadProgramHeaders(data, elf.header, |elf.progheaders|) == Some(elf.progheaders)
    ensures Overlaid(PasteProgramHeaders(r, elf, n), data, base, ranges + ProgramRanges(elf.header, n), cut)
  {
    hide Overlaid, Paste, ReadProgramHeader, Slice, Agrees;
    if n == 0 {
      assert ranges + [] == ranges;
    } else {
      var h, x := elf.header, Range(At(elf.header.phoff, n - 1, elf.header.phentsize), elf.header.phentsize);
      ProgramHeadersOverlay(r, data, base, ranges, cut, elf, n - 1);
      ProgramHeaderAt(data, h, |elf.progheaders|, n - 1);
      ProgramHeaderComesBack(Slice(data, x.offset, x.size));
      SliceAgrees(data, x, cut);
      PasteOverlays(PasteProgramHeaders(r, elf, n - 1), data, base, ranges + ProgramRanges(h, n - 1), cut, x,
        elf.progheaders[n - 1].ToBin());
      assert ranges + ProgramRanges(h, n - 1) + [x] == ranges + ProgramRanges(h, n);
    }
  }

  // A section of a parsed file, put together again, is the file's, but for its size in the header
  // if it runs past the end.
  predicate SectionKept(data: Bytes, h: ElfHeader, i: nat, s: Section) {
    var kept := Slice(data, At(h.shoff, i, h.shentsize), h.shentsize);
    && s.Data() == s.data && s.Header().offset == s.head.offset
    && (s.data.Some? ==> s.Header().size == |s.data.value| && s.data.value == Slice(data, s.head.offset, s.head.size))
    && |s.Header().ToBin()| == |kept| == SHDR
    && forall j :: 0 <= j < SHDR && (Whole(s) || !(20 <= j < 24)) ==> s.Header().ToBin()[j] == kept[j]
  }

  lemma ParsedSection(data: Bytes, elf: Elf, i: nat)
    requires i < |elf.sections| && Parse(data) == Some(elf)
    ensures SectionKept(data, elf.header, i, elf.sections[i])
  {
    hide ReadSection, ReadEntries, Slice, ReadElfHeader, AllFit, ReadSectionHeader, ReadProgramHeaders, ReadSections;
    hide ReadAllEntries, Whole, SectionKept;
    var h := elf.header;
    var raw := ReadSections(data, h, h.shnum).value;
    SectionAt(data, h, h.shnum, i);
    EntriesAt(raw, i);
    SectionIsKept(data, h, i, raw[i], elf.sections[i]);
  }

  lemma SectionIsKept(data: Bytes, h: ElfHeader, i: nat, s: Section, t: Section)
    requires ReadSection(data, h, i) == Some(s) && ReadEntries(s) == Some(t)
    ensures SectionKept(data, h, i, t)
  {
    hide ReadSection, ReadEntries, Slice, ReadSectionHeader, Packed, Words;
    var kept := Slice(data, At(h.shoff, i, h.shentsize), h.shentsize);
    ReadSectionIs(data, h, i, s);
    EntriesKeep(s, t);
    SectionHeaderComesBack(kept);
    HeaderSize(kept);
    if Whole(s) {
      SectionComesBack(s, t);
    } else {
      SliceIsNoLonger(data, s.head.offset, s.head.size);
      CutComesBack(s, t);
      forall j | 0 <= j < SHDR && !(20 <= j < 24)
        ensures |t.Header().ToBin()| == SHDR && t.Header().ToBin()[j] == kept[j]
      {
        SizeOnly(s.head, |s.data.value|, j);
      }
      SizeOnly(s.head, |s.data.value|, 0);
    }
  }

  lemma HeaderSize(data: Bytes)
    requires ReadSectionHeader(data).Some?
    ensures |data| == SHDR
  {
  }

  // Of a symbol table that is cut, the last entry is, and so it is not read. Relocations that
  // are cut are read if there is one and all of it is left.
  lemma CutComesBack(s: Section, t: Section)
    requires !Whole(s) && |s.data.value| <= s.head.size && s.entries == Opaque && ReadEntries(s) == Some(t)
    requires s.head.entsize != 0 ==> s.head.size % s.head.entsize == 0
    requires s.head.stype == SHT_SYMTAB ==> s.head.entsize == SYM
    ensures t.Data() == s.data
  {
    hide ReadSymbols, ReadRelocations, Slice, SymbolBytes, RelocationBytes;
    var data := s.data.value;
    if s.head.stype == SHT_SYMTAB {
      Times(s.head.size, SYM);
      SymbolsFit(data, s.head.size / SYM);
    } else if s.head.stype == SHT_REL || s.head.stype == SHT_RELA {
      var n := s.head.size / s.head.entsize;
      Times(s.head.size, s.head.entsize);
      AtIs(n, s.head.entsize);
      RelocationsCut(data, s.head.entsize, s.head.stype == SHT_RELA, n);
    }
  }

  lemma {:induction false} SymbolsFit(data: Bytes, n: nat)
    requires ReadSymbols(data, n).Some?
    ensures n * SYM <= |data|
  {
    hide Fields;
  }

  lemma {:induction false} RelocationsCut(data: Bytes, size: nat, addends: bool, n: nat)
    requires ReadRelocations(data, size, addends, n).Some? && |data| < At(0, n, size)
    ensures RelocationBytes(ReadRelocations(data, size, addends, n).value) == data
  {
    hide ReadRelocation, At, RelocationBytes;
    AtIs(n, size);
    if n == 0 {
    } else {
      AtIs(n - 1, size);
      OneLess(n, size);
      var last := Slice(data, At(0, n - 1, size), size);
      RelocationSize(last, addends);
      if n == 1 {
        assert last == data;
        RelocationComesBack(data, addends);
        NoRelocations(data);
        OneMoreRelocation([], ReadRelocation(data, addends).value);
        assert [] + [ReadRelocation(data, addends).value] == ReadRelocations(data, size, addends, 1).value;
      } else {
        FirstRelocation(data, size, addends, n);
        NotLess(n - 1, size);
        assert false;
      }
    }
  }

  lemma {:induction false} FirstRelocation(data: Bytes, size: nat, addends: bool, n: nat)
    requires n > 0 && ReadRelocations(data, size, addends, n).Some?
    ensures |Slice(data, 0, size)| == if addends then 12 else 8
  {
    hide ReadRelocation, Slice;
    if n == 1 {
      RelocationSize(Slice(data, 0, size), addends);
    } else {
      FirstRelocation(data, size, addends, n - 1);
    }
  }

  lemma NotLess(n: nat, size: nat)
    requires n > 0
    ensures n * size >= size
  {
  }

  // Another size changes its own four bytes of the header, and no others.
  lemma SizeOnly(h: SectionHeader, size: nat, j: nat)
    requires j < SHDR && !(20 <= j < 24)
    ensures |h.ToBin()| == |h.(size := size).ToBin()| == SHDR && h.(size := size).ToBin()[j] == h.ToBin()[j]
  {
    hide Packed, Words;
    var values := [h.name, h.stype, h.flags, h.addr, h.offset, h.size, h.link, h.info, h.addralign, h.entsize];
    assert values[5 := size] ==
      [h.name, h.stype, h.flags, h.addr, h.offset, size, h.link, h.info, h.addralign, h.entsize];
    OneWord(10, values, 5, size, j);
  }

  lemma {:induction false} OneWord(n: nat, values: seq<nat>, k: nat, x: nat, j: nat)
    requires |values| == n && k < n && j < 4 * n && !(4 * k <= j < 4 * k + 4)
    ensures Packed(Words(n), values[k := x])[j] == Packed(Words(n), values)[j]
  {
    hide Big;
    var next := values[k := x];
    assert Words(n)[0] == 4 && Words(n)[1..] == Words(n - 1);
    assert |Big(values[0], 4)| == |Big(next[0], 4)| == 4;
    if k == 0 {
      assert next[1..] == values[1..];
    } else {
      assert next[1..] == values[1..][k - 1 := x];
      if j >= 4 {
        OneWord(n - 1, values[1..], k - 1, x, j - 4);
      }
    }
  }

  lemma EntriesKeep(s: Section, t: Section)
    requires ReadEntries(s) == Some(t)
    ensures t.head == s.head && t.data == s.data
  {
  }

  lemma SectionAgrees(data: Bytes, elf: Elf, i: nat)
    requires i < |elf.sections| && SectionKept(data, elf.header, i, elf.sections[i])
    ensures var s, h := elf.sections[i], elf.header;
      && Agrees(s.Header().ToBin(), data, Range(At(h.shoff, i, h.shentsize), h.shentsize), CutSizes(elf))
      && (s.data.Some? ==> Agrees(s.data.value, data, Range(s.head.offset, |s.data.value|), CutSizes(elf)))
  {
    hide Slice, Covered, Whole, CutSizes, Packed;
    var s, h, x := elf.sections[i], elf.header, At(elf.header.shoff, i, elf.header.shentsize);
    forall j | 0 <= j < SHDR && !Covered(CutSizes(elf), x + j)
      ensures s.Header().ToBin()[j] == Slice(data, x, h.shentsize)[j]
    {
      if !Whole(s) && 20 <= j < 24 {
        IsCut(elf, i, j);
      }
    }
    if s.data.Some? {
      SliceOfLength(data, s.head.offset, s.head.size);
      SliceAgrees(data, Range(s.head.offset, |s.data.value|), CutSizes(elf));
    }
  }

  lemma SliceOfLength(data: Bytes, offset: nat, size: nat)
    ensures Slice(data, offset, |Slice(data, offset, size)|) == Slice(data, offset, size)
  {
  }

  lemma {:induction false} SectionsOverlay(r: Bytes, data: Bytes, base: Bytes, ranges: seq<Range>, elf: Elf, n: nat)
    requires Overlaid(r, data, base, ranges, CutSizes(elf)) && n <= |elf.sections| && Parse(data) == Some(elf)
    ensures Overlaid(PasteSections(r, elf, n), data, base, ranges + SectionRanges(elf, n), CutSizes(elf))
  {
    hide Overlaid, Paste, Parse, Slice, CutSizes, Agrees, Packed;
    if n == 0 {
      assert ranges + [] == ranges;
    } else {
      var s, h, cut := elf.sections[n - 1], elf.header, CutSizes(elf);
      SectionsOverlay(r, data, base, ranges, elf, n - 1);
      ParsedSection(data, elf, n - 1);
      SectionAgrees(data, elf, n - 1);
      var before, covered := PasteSections(r, elf, n - 1), ranges + SectionRanges(elf, n - 1);
      var x, header := Range(At(h.shoff, n - 1, h.shentsize), h.shentsize), s.Header().ToBin();
      PasteOverlays(before, data, base, covered, cut, x, header);
      if s.data.Some? {
        var y := Range(s.head.offset, |s.data.value|);
        PasteOverlays(Paste(before, x.offset, x.size, header), data, base, covered + [x], cut, y, s.data.value);
        assert covered + [x] + [y] == ranges + SectionRanges(elf, n);
      } else {
        assert covered + [x] == ranges + SectionRanges(elf, n);
      }
    }
  }

  // For any compiled file that parses, and any original: the result is as long as the compiled
  // file, is the compiled file on its headers and sections, and is the original, or zero where
  // the original is shorter, everywhere else; but for the sizes in the headers of sections that
  // run past the end of the compiled file.
  lemma OverlayIs(data: Bytes, original: Bytes, elf: Elf)
    requires Parse(data) == Some(elf)
    ensures Overlaid(FixGarbage(elf, |data|, original), data, Fitted(original, |data|), Ranges(elf), CutSizes(elf))
    ensures (forall s <- elf.sections :: Whole(s)) ==>
      Overlaid(FixGarbage(elf, |data|, original), data, Fitted(original, |data|), Ranges(elf), [])
  {
    hide Overlaid, Paste, Slice, ReadElfHeader, ReadSections, ReadAllEntries, ReadProgramHeaders, AllFit, Fitted, Whole;
    hide Agrees, CutSizes;
    var base, header, cut := Fitted(original, |data|), elf.header.ToBin(), CutSizes(elf);
    HeaderComesBack(Slice(data, 0, EHDR));
    HeaderIsLong(Slice(data, 0, EHDR));
    NothingOverlaid(data, base, cut);
    SliceAgrees(data, Range(0, EHDR), cut);
    PasteOverlays(base, data, base, [], cut, Range(0, EHDR), header);
    assert [] + [Range(0, EHDR)] == [Range(0, EHDR)];
    var r := Paste(base, 0, EHDR, header);
    ProgramHeadersOverlay(r, data, base, [Range(0, EHDR)], cut, elf, |elf.progheaders|);
    var p := PasteProgramHeaders(r, elf, |elf.progheaders|);
    SectionsOverlay(p, data, base, [Range(0, EHDR)] + ProgramRanges(elf.header, |elf.progheaders|), elf,
      |elf.sections|);
    if forall s <- elf.sections :: Whole(s) {
      NothingCut(elf);
      WithoutCuts(FixGarbage(elf, |data|, original), data, base, Ranges(elf), cut);
    }
  }

  lemma NothingCut(elf: Elf)
    requires forall s <- elf.sections :: Whole(s)
    ensures forall i :: !Covered(CutSizes(elf), i)
  {
    hide Whole;
    forall i, k | 0 <= k < |elf.sections| ensures !CutSizes(elf)[k].Holds(i) {
      assert elf.sections[k] in elf.sections;
    }
  }

  lemma WithoutCuts(r: Bytes, data: Bytes, base: Bytes, ranges: seq<Range>, cut: seq<Range>)
    requires Overlaid(r, data, base, ranges, cut) && forall i :: !Covered(cut, i)
    ensures Overlaid(r, data, base, ranges, [])
  {
    hide Covered;
  }

  lemma HeaderIsLong(data: Bytes)
    requires ReadElfHeader(data).Some?
    ensures |data| == EHDR
  {
  }

  lemma NothingOverlaid(data: Bytes, base: Bytes, cut: seq<Range>)
    requires |base| == |data|
    ensures Overlaid(base, data, base, [], cut)
  {
  }
}
