// tools/libelf.py and tools/fix_objfile.py on values: an ELF file taken apart and laid over the
// bytes of another file.
module ElfImage {
  import opened Machine
  import opened ElfFormat

  const SHT_NULL := 0
  const SHT_SYMTAB := 2
  const SHT_STRTAB := 3
  const SHT_RELA := 4
  const SHT_NOBITS := 8
  const SHT_REL := 9
  const ST_SECTION := 3
  const SHN_LORESERVE := 0xFF00
  const SHN_XINDEX := 0xFFFF
  const LINK_ORDER := 0x80

  // Where entry i of a table is.
  function At(base: nat, i: nat, size: nat): nat {
    base + i * size
  }

  // data[offset:][:size]
  function Slice(data: Bytes, offset: nat, size: nat): (r: Bytes)
    ensures |r| <= size && (|r| == size > 0 ==> offset + size <= |data|)
  {
    if offset >= |data| then [] else if offset + size <= |data| then data[offset..offset + size] else data[offset..]
  }

  // ---- sections ----

  datatype Entries = Opaque | Symbols(symbols: seq<Symbol>) | Relocations(relocations: seq<Relocation>)

  datatype Section = Section(head: SectionHeader, data: Option<Bytes>, entries: Entries) {
    // The size in the header becomes that of the data at hand; a symbol table and relocations
    // are built anew from their entries.
    function Header(): SectionHeader {
      if data.Some? then head.(size := |data.value|) else head
    }

    function Data(): Option<Bytes> {
      match entries
      case Opaque => data
      case Symbols(symbols) => Some(SymbolBytes(symbols))
      case Relocations(relocations) => Some(RelocationBytes(relocations))
    }
  }

  function SymbolBytes(symbols: seq<Symbol>): Bytes {
    if symbols == [] then [] else SymbolBytes(symbols[..|symbols| - 1]) + symbols[|symbols| - 1].ToBin()
  }

  function RelocationBytes(relocations: seq<Relocation>): Bytes {
    if relocations == [] then []
    else RelocationBytes(relocations[..|relocations| - 1]) + relocations[|relocations| - 1].ToBin()
  }

  function ReadSection(data: Bytes, h: ElfHeader, i: nat): Option<Section> {
    var head :- ReadSectionHeader(Slice(data, At(h.shoff, i, h.shentsize), h.shentsize));
    if head.flags / LINK_ORDER % 2 == 1 then None
    else if head.entsize != 0 && head.size % head.entsize != 0 then None
    else if head.stype == SHT_SYMTAB && head.entsize != SYM then None
    else
      var contents :=
        if head.stype == SHT_NULL || head.stype == SHT_NOBITS then None else Some(Slice(data, head.offset, head.size));
      Some(Section(head, contents, Opaque))
  }

  function ReadSections(data: Bytes, h: ElfHeader, n: nat): (r: Option<seq<Section>>)
    ensures r.Some? ==> |r.value| == n
  {
    if n == 0 then Some([])
    else
      var before :- ReadSections(data, h, n - 1);
      var s :- ReadSection(data, h, n - 1);
      Some(before + [s])
  }

  function ReadProgramHeaders(data: Bytes, h: ElfHeader, n: nat): (r: Option<seq<ProgramHeader>>)
    ensures r.Some? ==> |r.value| == n
  {
    if n == 0 then Some([])
    else
      var before :- ReadProgramHeaders(data, h, n - 1);
      var p :- ReadProgramHeader(Slice(data, At(h.phoff, n - 1, h.phentsize), h.phentsize));
      Some(before + [p])
  }

  // ---- entries ----

  function ReadSymbols(data: Bytes, n: nat): (r: Option<seq<Symbol>>)
    ensures r.Some? ==> |r.value| == n
  {
    if n == 0 then Some([])
    else
      var before :- ReadSymbols(data, n - 1);
      var s :- ReadSymbol(Slice(data, (n - 1) * SYM, SYM));
      Some(before + [s])
  }

  function ReadRelocations(data: Bytes, size: nat, addends: bool, n: nat): (r: Option<seq<Relocation>>)
    ensures r.Some? ==> |r.value| == n
  {
    if n == 0 then Some([])
    else
      var before :- ReadRelocations(data, size, addends, n - 1);
      var x :- ReadRelocation(Slice(data, At(0, n - 1, size), size), addends);
      Some(before + [x])
  }

  // late_init of one section
  function ReadEntries(s: Section): Option<Section> {
    if s.data.None? then Some(s)
    else if s.head.stype == SHT_SYMTAB then
      var symbols :- ReadSymbols(s.data.value, s.head.size / SYM);
      Some(s.(entries := Symbols(symbols)))
    else if s.head.stype == SHT_REL || s.head.stype == SHT_RELA then
      if s.head.entsize == 0 then None
      else
        var relocations :- ReadRelocations(s.data.value, s.head.entsize, s.head.stype == SHT_RELA,
          s.head.size / s.head.entsize);
        Some(s.(entries := Relocations(relocations)))
    else Some(s)
  }

  function ReadAllEntries(sections: seq<Section>): (r: Option<seq<Section>>)
    ensures r.Some? ==> |r.value| == |sections|
  {
    if sections == [] then Some([])
    else
      var before :- ReadAllEntries(sections[..|sections| - 1]);
      var s :- ReadEntries(sections[|sections| - 1]);
      Some(before + [s])
  }

  // ---- what else the constructors insist on ----

  // lookup_str finds an end.
  predicate HasString(s: Section, i: nat) {
    s.head.stype == SHT_STRTAB && s.data.Some? && exists j :: i <= j < |s.data.value| && s.data.value[j] == 0
  }

  predicate SymbolFits(x: Symbol, sections: seq<Section>, names: Section, strings: Section) {
    && x.shndx != SHN_XINDEX && (x.shndx < SHN_LORESERVE ==> x.shndx < |sections|)
    && if x.symtype == ST_SECTION then
        x.shndx < SHN_LORESERVE && x.shndx < |sections| && HasString(names, sections[x.shndx].head.name)
       else HasString(strings, x.name)
  }

  // The number of symbols a relocation may refer to.
  function SymbolCount(sections: seq<Section>): nat {
    if sections == [] then 0
    else if sections[0].entries.Symbols? then |sections[0].entries.symbols| else SymbolCount(sections[1..])
  }

  predicate SectionFits(s: Section, sections: seq<Section>, names: Section) {
    && HasString(names, s.head.name)
    && match s.entries
      case Opaque => true
      case Symbols(symbols) =>
        s.head.link < |sections| && forall x <- symbols :: SymbolFits(x, sections, names, sections[s.head.link])
      case Relocations(relocations) =>
        s.head.info < |sections| && forall x <- relocations :: x.symIndex < SymbolCount(sections)
  }

  predicate AllFit(h: ElfHeader, sections: seq<Section>) {
    && h.shstrndx < |sections| && sections[h.shstrndx].head.stype == SHT_STRTAB
    && (forall i, j :: 0 <= i < j < |sections| ==>
        !(sections[i].head.stype == SHT_SYMTAB && sections[j].head.stype == SHT_SYMTAB))
    && forall s <- sections :: SectionFits(s, sections, sections[h.shstrndx])
  }

  // ElfFile
  datatype Elf = Elf(header: ElfHeader, progheaders: seq<ProgramHeader>, sections: seq<Section>)

  function Parse(data: Bytes): Option<Elf> {
    var h :- ReadElfHeader(Slice(data, 0, EHDR));
    var progheaders :- ReadProgramHeaders(data, h, h.phnum);
    var raw :- ReadSections(data, h, h.shnum);
    var sections :- ReadAllEntries(raw);
    if AllFit(h, sections) then Some(Elf(h, progheaders, sections)) else None
  }

  // ---- fix_garbage ----

  // result[offset:offset+width] = bytes
  function Paste(result: Bytes, offset: nat, width: nat, bytes: Bytes): Bytes {
    var lo := if offset <= |result| then offset else |result|;
    var hi := if offset + width <= |result| then offset + width else |result|;
    result[..lo] + bytes + result[hi..]
  }

  // The original, as long as the compiled file.
  function Fitted(original: Bytes, n: nat): (r: Bytes)
    ensures |r| == n
  {
    if |original| < n then original + seq(n - |original|, _ => 0) else original[..n]
  }

  function PasteProgramHeaders(result: Bytes, elf: Elf, n: nat): Bytes
    requires n <= |elf.progheaders|
  {
    if n == 0 then result
    else
      var size := elf.header.phentsize;
      Paste(PasteProgramHeaders(result, elf, n - 1), At(elf.header.phoff, n - 1, size), size,
        elf.progheaders[n - 1].ToBin())
  }

  function PasteSection(result: Bytes, elf: Elf, i: nat): Bytes
    requires i < |elf.sections|
  {
    var s, size := elf.sections[i], elf.header.shentsize;
    var r := Paste(result, At(elf.header.shoff, i, size), size, s.Header().ToBin());
    if s.Data().Some? then Paste(r, s.Header().offset, s.Header().size, s.Data().value) else r
  }

  function PasteSections(result: Bytes, elf: Elf, n: nat): Bytes
    requires n <= |elf.sections|
  {
    if n == 0 then result else PasteSection(PasteSections(result, elf, n - 1), elf, n - 1)
  }

  function FixGarbage(elf: Elf, n: nat, original: Bytes): Bytes {
    var header := elf.header.ToBin();
    var r := PasteProgramHeaders(Paste(Fitted(original, n), 0, |header|, header), elf, |elf.progheaders|);
    PasteSections(r, elf, |elf.sections|)
  }
}
