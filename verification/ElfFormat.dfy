// tools/libelf.py: the records of a 32-bit big-endian ELF file (System V ABI, chapter 4), as
// they are unpacked and packed again.
module ElfFormat {
  import opened Machine

  type Bytes = seq<u8>

  // ---- struct.unpack and struct.pack of big-endian fields ----

  function Big(n: nat, width: nat): (r: Bytes)
    ensures |r| == width
  {
    if width == 0 then [] else Big(n / 0x100, width - 1) + [n % 0x100]
  }

  function FromBig(s: Bytes): nat {
    if s == [] then 0 else FromBig(s[..|s| - 1]) * 0x100 + s[|s| - 1]
  }

  lemma {:induction false} BigOfField(s: Bytes)
    ensures Big(FromBig(s), |s|) == s
  {
    if s != [] {
      BigOfField(s[..|s| - 1]);
    }
  }

  function Size(layout: seq<nat>): nat {
    if layout == [] then 0 else layout[0] + Size(layout[1..])
  }

  // The fields of a record; struct.unpack refuses data of any other length.
  function Fields(layout: seq<nat>, data: Bytes): (r: seq<nat>)
    requires |data| == Size(layout)
    ensures |r| == |layout|
  {
    if layout == [] then [] else [FromBig(data[..layout[0]])] + Fields(layout[1..], data[layout[0]..])
  }

  function Packed(layout: seq<nat>, values: seq<nat>): (r: Bytes)
    requires |values| == |layout|
    ensures |r| == Size(layout)
  {
    if layout == [] then [] else Big(values[0], layout[0]) + Packed(layout[1..], values[1..])
  }

  // Packing what was unpacked gives the same bytes.
  lemma {:induction false} PackedFields(layout: seq<nat>, data: Bytes)
    requires |data| == Size(layout)
    ensures Packed(layout, Fields(layout, data)) == data
  {
    hide Big, FromBig;
    if layout != [] {
      var first, rest := data[..layout[0]], data[layout[0]..];
      BigOfField(first);
      PackedFields(layout[1..], rest);
      var v := Fields(layout, data);
      assert v[1..] == Fields(layout[1..], rest) && v[0] == FromBig(first);
      assert Packed(layout, v) == first + rest == data;
    } else {
      assert data == [];
    }
  }

  // And unpacking what was packed gives the same values, if they fit their fields.
  function Limit(width: nat): nat {
    if width == 0 then 1 else 0x100 * Limit(width - 1)
  }

  predicate FitFields(layout: seq<nat>, values: seq<nat>) {
    |values| == |layout| && forall i :: 0 <= i < |layout| ==> values[i] < Limit(layout[i])
  }

  lemma {:induction false} FieldOfBig(n: nat, width: nat)
    requires n < Limit(width)
    ensures FromBig(Big(n, width)) == n
  {
    if width > 0 {
      FieldOfBig(n / 0x100, width - 1);
      assert Big(n, width)[..width - 1] == Big(n / 0x100, width - 1);
    }
  }

  lemma {:induction false} UnpackedFields(layout: seq<nat>, values: seq<nat>)
    requires FitFields(layout, values)
    ensures Fields(layout, Packed(layout, values)) == values
  {
    hide Big, FromBig, Limit;
    if layout != [] {
      var first, rest := Big(values[0], layout[0]), Packed(layout[1..], values[1..]);
      FieldOfBig(values[0], layout[0]);
      UnpackedFields(layout[1..], values[1..]);
      assert Packed(layout, values) == first + rest;
      assert (first + rest)[..layout[0]] == first && (first + rest)[layout[0]..] == rest;
    }
  }

  lemma {:induction false} BigIsLimited(s: Bytes)
    ensures FromBig(s) < Limit(|s|)
  {
    if s != [] {
      BigIsLimited(s[..|s| - 1]);
    }
  }

  lemma {:induction false} FieldsAreLimited(layout: seq<nat>, data: Bytes)
    requires |data| == Size(layout)
    ensures FitFields(layout, Fields(layout, data))
  {
    hide FromBig, Limit;
    if layout != [] {
      BigIsLimited(data[..layout[0]]);
      FieldsAreLimited(layout[1..], data[layout[0]..]);
    }
  }

  lemma {:induction false} SizeJoins(a: seq<nat>, b: seq<nat>)
    ensures Size(a + b) == Size(a) + Size(b)
  {
    if a == [] {
      assert a + b == b;
    } else {
      assert (a + b)[1..] == a[1..] + b;
      SizeJoins(a[1..], b);
    }
  }

  // n fields of two bytes, of four bytes.
  function Halves(n: nat): (r: seq<nat>)
    ensures |r| == n && Size(r) == 2 * n
  {
    if n == 0 then [] else [2] + Halves(n - 1)
  }

  function Words(n: nat): (r: seq<nat>)
    ensures |r| == n && Size(r) == 4 * n
  {
    if n == 0 then [] else [4] + Words(n - 1)
  }

  // ---- the records ----

  const ELF_MAGIC: Bytes := [0x7F, 0x45, 0x4C, 0x46]
  const EI_NIDENT := 16
  const EHDR := 52
  const PHDR := 32
  const SHDR := 40
  const SYM := 16

  function EhdrLayout(): (r: seq<nat>)
    ensures |r| == 13 && Size(r) == EHDR - EI_NIDENT
  {
    SizeJoins(Halves(2), Words(5));
    SizeJoins(Halves(2) + Words(5), Halves(6));
    Halves(2) + Words(5) + Halves(6)
  }

  datatype ElfHeader = ElfHeader(ident: Bytes, etype: nat, machine: nat, version: nat, entry: nat, phoff: nat,
    shoff: nat,
    flags: nat, ehsize: nat, phentsize: nat, phnum: nat, shentsize: nat, shnum: nat, shstrndx: nat)
  {
    function ToBin(): Bytes {
      ident + Packed(EhdrLayout(),
        [etype, machine, version, entry, phoff, shoff, flags, ehsize, phentsize, phnum, shentsize, shnum, shstrndx])
    }
  }

  // The constructor: 32 bits, big endian, with section headers and names for them.
  function ReadElfHeader(data: Bytes): Option<ElfHeader> {
    if |data| != EHDR || data[..4] != ELF_MAGIC || data[4] != 1 || data[5] != 2 then None
    else
      var v := Fields(EhdrLayout(), data[EI_NIDENT..]);
      if v[5] == 0 || v[12] == 0 then None
      else
        Some(ElfHeader(
          data[..EI_NIDENT], v[0], v[1], v[2], v[3], v[4], v[5], v[6], v[7], v[8], v[9], v[10], v[11], v[12]))
  }

  lemma HeaderComesBack(data: Bytes)
    requires ReadElfHeader(data).Some?
    ensures ReadElfHeader(data).value.ToBin() == data
  {
    hide Fields, Packed, EhdrLayout;
    var v := Fields(EhdrLayout(), data[EI_NIDENT..]);
    PackedFields(EhdrLayout(), data[EI_NIDENT..]);
    assert v == [v[0], v[1], v[2], v[3], v[4], v[5], v[6], v[7], v[8], v[9], v[10], v[11], v[12]];
    assert data == data[..EI_NIDENT] + data[EI_NIDENT..];
  }

  datatype ProgramHeader = ProgramHeader(
    ptype: nat, offset: nat, vaddr: nat, paddr: nat, filesz: nat, memsz: nat, flags: nat, align: nat)
  {
    function ToBin(): Bytes {
      Packed(Words(8), [ptype, offset, vaddr, paddr, filesz, memsz, flags, align])
    }
  }

  function ReadProgramHeader(data: Bytes): Option<ProgramHeader> {
    if |data| != PHDR then None
    else
      var v := Fields(Words(8), data);
      Some(ProgramHeader(v[0], v[1], v[2], v[3], v[4], v[5], v[6], v[7]))
  }

  lemma ProgramHeaderComesBack(data: Bytes)
    requires ReadProgramHeader(data).Some?
    ensures ReadProgramHeader(data).value.ToBin() == data
  {
    hide Fields, Packed, Words;
    var v := Fields(Words(8), data);
    PackedFields(Words(8), data);
    assert v == [v[0], v[1], v[2], v[3], v[4], v[5], v[6], v[7]];
  }

  datatype SectionHeader = SectionHeader(
    name: nat, stype: nat, flags: nat, addr: nat, offset: nat, size: nat, link: nat, info: nat, addralign: nat,
    entsize: nat)
  {
    function ToBin(): Bytes {
      Packed(Words(10), [name, stype, flags, addr, offset, size, link, info, addralign, entsize])
    }
  }

  function ReadSectionHeader(data: Bytes): Option<SectionHeader> {
    if |data| != SHDR then None
    else
      var v := Fields(Words(10), data);
      Some(SectionHeader(v[0], v[1], v[2], v[3], v[4], v[5], v[6], v[7], v[8], v[9]))
  }

  lemma SectionHeaderComesBack(data: Bytes)
    requires ReadSectionHeader(data).Some?
    ensures ReadSectionHeader(data).value.ToBin() == data
  {
    hide Fields, Packed, Words;
    var v := Fields(Words(10), data);
    PackedFields(Words(10), data);
    assert v == [v[0], v[1], v[2], v[3], v[4], v[5], v[6], v[7], v[8], v[9]];
  }

  // ---- symbols and relocations, whose info fields are taken apart ----

  function SymLayout(): (r: seq<nat>)
    ensures |r| == 6 && Size(r) == SYM
  {
    SizeJoins(Words(3), [1, 1]);
    SizeJoins(Words(3) + [1, 1], [2]);
    assert [1, 1][1..] == [1];
    Words(3) + [1, 1] + [2]
  }

  datatype Symbol = Symbol(name: nat, value: nat, size: nat, bind: nat, symtype: nat, other: nat, shndx: nat) {
    function ToBin(): Bytes {
      Packed(SymLayout(), [name, value, size, bind * 0x10 + symtype, other, shndx])
    }
  }

  function ReadSymbol(data: Bytes): Option<Symbol> {
    if |data| != SYM then None
    else
      var v := Fields(SymLayout(), data);
      Some(Symbol(v[0], v[1], v[2], v[3] / 0x10, v[3] % 0x10, v[4], v[5]))
  }

  lemma SymbolComesBack(data: Bytes)
    requires ReadSymbol(data).Some?
    ensures ReadSymbol(data).value.ToBin() == data
  {
    hide Fields, Packed, SymLayout;
    var v := Fields(SymLayout(), data);
    PackedFields(SymLayout(), data);
    assert v == [v[0], v[1], v[2], v[3] / 0x10 * 0x10 + v[3] % 0x10, v[4], v[5]];
  }

  datatype Relocation = Relocation(addends: bool, offset: nat, symIndex: nat, relType: nat, addend: nat) {
    function ToBin(): Bytes {
      if addends then Packed(Words(3), [offset, symIndex * 0x100 + relType, addend])
      else Packed(Words(2), [offset, symIndex * 0x100 + relType])
    }
  }

  function ReadRelocation(data: Bytes, addends: bool): Option<Relocation> {
    if |data| != if addends then 12 else 8 then None
    else
      var v := Fields(Words(if addends then 3 else 2), data);
      Some(Relocation(addends, v[0], v[1] / 0x100, v[1] % 0x100, if addends then v[2] else 0))
  }

  lemma RelocationComesBack(data: Bytes, addends: bool)
    requires ReadRelocation(data, addends).Some?
    ensures ReadRelocation(data, addends).value.ToBin() == data
  {
    hide Fields, Packed, Words;
    var layout := Words(if addends then 3 else 2);
    var v := Fields(layout, data);
    PackedFields(layout, data);
    var info := v[1] / 0x100 * 0x100 + v[1] % 0x100;
    assert v == if addends then [v[0], info, v[2]] else [v[0], info];
  }
}
