// The loops of tools/libelf.py, which takes an ELF file apart, and of tools/fix_objfile.py,
// which lays it over another one.
module ElfFiles {
  import opened Machine
  import opened ElfFormat
  import opened ElfImage

  // Later entries fail only if earlier ones are there.
  lemma {:induction false} ProgramHeadersBefore(data: Bytes, h: ElfHeader, k: nat, n: nat)
    requires k <= n && ReadProgramHeaders(data, h, k).None?
    ensures ReadProgramHeaders(data, h, n).None?
  {
    hide ReadProgramHeader;
    if k < n {
      ProgramHeadersBefore(data, h, k, n - 1);
    }
  }

  lemma {:induction false} SectionsBefore(data: Bytes, h: ElfHeader, k: nat, n: nat)
    requires k <= n && ReadSections(data, h, k).None?
    ensures ReadSections(data, h, n).None?
  {
    hide ReadSection;
    if k < n {
      SectionsBefore(data, h, k, n - 1);
    }
  }

  lemma {:induction false} EntriesBefore(raw: seq<Section>, k: nat)
    requires k <= |raw| && ReadAllEntries(raw[..k]).None?
    ensures ReadAllEntries(raw).None?
    decreases |raw|
  {
    hide ReadEntries;
    if k == |raw| {
      assert raw[..k] == raw;
    } else {
      assert raw[..|raw| - 1][..k] == raw[..k];
      EntriesBefore(raw[..|raw| - 1], k);
    }
  }

  lemma {:induction false} SymbolsBefore(data: Bytes, k: nat, n: nat)
    requires k <= n && ReadSymbols(data, k).None?
    ensures ReadSymbols(data, n).None?
  {
    hide ReadSymbol;
    if k < n {
      SymbolsBefore(data, k, n - 1);
    }
  }

  lemma {:induction false} RelocationsBefore(data: Bytes, size: nat, addends: bool, k: nat, n: nat)
    requires k <= n && ReadRelocations(data, size, addends, k).None?
    ensures ReadRelocations(data, size, addends, n).None?
  {
    hide ReadRelocation;
    if k < n {
      RelocationsBefore(data, size, addends, k, n - 1);
    }
  }

  // SymtabSection.late_init
  method LoadSymbols(s: Section) returns (r: Option<Section>)
    requires s.head.stype == SHT_SYMTAB && s.data.Some?
    ensures r == ReadEntries(s)
  {
    hide ReadSymbol;
    var symbols: seq<Symbol> := [];
    for i := 0 to s.head.size / SYM
      invariant ReadSymbols(s.data.value, i) == Some(symbols)
    {
      var x := ReadSymbol(Slice(s.data.value, i * SYM, SYM));
      if x.None? {
        SymbolsBefore(s.data.value, i + 1, s.head.size / SYM);
        return None;
      }
      symbols := symbols + [x.value];
    }
    r := Some(s.(entries := Symbols(symbols)));
  }

  // RelocationSection.late_init
  method LoadRelocations(s: Section) returns (r: Option<Section>)
    requires (s.head.stype == SHT_REL || s.head.stype == SHT_RELA) && s.data.Some?
    ensures r == ReadEntries(s)
  {
    hide ReadRelocation;
    if s.head.entsize == 0 {
      return None;
    }
    var relocations: seq<Relocation> := [];
    var n, addends := s.head.size / s.head.entsize, s.head.stype == SHT_RELA;
    for i := 0 to n
      invariant ReadRelocations(s.data.value, s.head.entsize, addends, i) == Some(relocations)
    {
      var x := ReadRelocation(Slice(s.data.value, At(0, i, s.head.entsize), s.head.entsize), addends);
      if x.None? {
        RelocationsBefore(s.data.value, s.head.entsize, addends, i + 1, n);
        return None;
      }
      relocations := relocations + [x.value];
    }
    r := Some(s.(entries := Relocations(relocations)));
  }

  method LateInit(s: Section) returns (r: Option<Section>)
    ensures r == ReadEntries(s)
  {
    if s.data.Some? && s.head.stype == SHT_SYMTAB {
      r := LoadSymbols(s);
    } else if s.data.Some? && (s.head.stype == SHT_REL || s.head.stype == SHT_RELA) {
      r := LoadRelocations(s);
    } else {
      r := Some(s);
    }
  }

  // The constructor of ElfFile.
  method Load(data: Bytes) returns (elf: Option<Elf>)
    ensures elf == Parse(data)
  {
    hide ReadElfHeader, ReadProgramHeader, ReadSection, ReadEntries, AllFit, Slice;
    var header := ReadElfHeader(Slice(data, 0, EHDR));
    if header.None? {
      return None;
    }
    var h := header.value;
    var progheaders: seq<ProgramHeader> := [];
    for i := 0 to h.phnum
      invariant ReadProgramHeaders(data, h, i) == Some(progheaders)
    {
      var p := ReadProgramHeader(Slice(data, At(h.phoff, i, h.phentsize), h.phentsize));
      if p.None? {
        ProgramHeadersBefore(data, h, i + 1, h.phnum);
        return None;
      }
      progheaders := progheaders + [p.value];
    }
    var raw: seq<Section> := [];
    for i := 0 to h.shnum
      invariant ReadSections(data, h, i) == Some(raw)
    {
      var s := ReadSection(data, h, i);
      if s.None? {
        SectionsBefore(data, h, i + 1, h.shnum);
        return None;
      }
      raw := raw + [s.value];
    }
    var sections := InitAll(raw);
    if sections.None? || !AllFit(h, sections.value) {
      return None;
    }
    elf := Some(Elf(h, progheaders, sections.value));
  }

  // Its last loop.
  method InitAll(raw: seq<Section>) returns (r: Option<seq<Section>>)
    ensures r == ReadAllEntries(raw)
  {
    hide ReadEntries;
    var sections: seq<Section> := [];
    assert raw[..0] == [];
    for i := 0 to |raw|
      invariant ReadAllEntries(raw[..i]) == Some(sections)
    {
      assert raw[..i + 1][..i] == raw[..i] && raw[..i + 1][i] == raw[i];
      var s := LateInit(raw[i]);
      if s.None? {
        EntriesBefore(raw, i + 1);
        return None;
      }
      sections := sections + [s.value];
    }
    assert raw[..|raw|] == raw;
    r := Some(sections);
  }

  // fix_garbage; n is the length of the compiled file.
  method Fix(elf: Elf, n: nat, original: Bytes) returns (result: Bytes)
    ensures result == FixGarbage(elf, n, original)
  {
    hide Paste, ElfHeader.ToBin, ProgramHeader.ToBin, SectionHeader.ToBin;
    result := original;
    if |original| < n {
      result := result + seq(n - |original|, _ => 0);
    } else {
      result := result[..n];
    }
    var hdr := elf.header.ToBin();
    result := Paste(result, 0, |hdr|, hdr);
    ghost var start := result;
    for i := 0 to |elf.progheaders|
      invariant result == PasteProgramHeaders(start, elf, i)
    {
      var offset := At(elf.header.phoff, i, elf.header.phentsize);
      result := Paste(result, offset, elf.header.phentsize, elf.progheaders[i].ToBin());
    }
    start := result;
    for i := 0 to |elf.sections|
      invariant result == PasteSections(start, elf, i)
    {
      var offset := At(elf.header.shoff, i, elf.header.shentsize);
      var head, content := elf.sections[i].Header(), elf.sections[i].Data();
      result := Paste(result, offset, elf.header.shentsize, head.ToBin());
      if content.Some? {
        result := Paste(result, head.offset, head.size, content.value);
      }
    }
  }
}
