// tools/ar.py on values: the bytes of an archive, as they are written and as they are read.
module ArImage {
  import opened Machine
  import opened ArText

  // "!<arch>\n", "`\n", "/" and "//"
  const MAGIC: Bytes := [0x21, 0x3C, 0x61, 0x72, 0x63, 0x68, 0x3E, 0x0A]
  const END: Bytes := [0x60, 0x0A]
  const INDEX_NAME: Bytes := [SLASH]
  const STRINGS_NAME: Bytes := [SLASH, SLASH]
  const HEADER := 60
  const LONG_NAME := 16

  // ArchiveFileRecord
  datatype Record = Record(name: Bytes, time: nat, uid: nat, gid: nat, mode: nat, size: nat, data: Bytes)

  // ---- writing ----

  // add_ar_hdr
  function Header(name: Bytes, time: nat, uid: nat, gid: nat, mode: nat, size: nat): Bytes {
    Field(name, 16) + Field(Digits(time, Decimal), 12) + Field(Digits(uid, Decimal), 6) + Field(Digits(gid, Decimal), 6)
    + Field(Digits(mode, Octal), 8) + Field(Digits(size, Decimal), 10) + END
  }

  // add_pad
  function Pad(length: nat): Bytes {
    if length % 2 != 0 then [0] else []
  }

  // A header and its data, written at the position `at`.
  function Chunk(at: nat, head: Bytes, data: Bytes): Bytes {
    head + data + Pad(at + |head| + |data|)
  }

  function MemberHeader(f: Record, ref: Bytes): Bytes {
    Header(ref, f.time, f.uid, f.gid, f.mode, f.size)
  }

  function Members(at: nat, files: seq<Record>, refs: seq<Bytes>): Bytes
    requires |refs| == |files|
    decreases |files|
  {
    if files == [] then []
    else
      var c := Chunk(at, MemberHeader(files[0], refs[0]), files[0].data);
      c + Members(at + |c|, files[1..], refs[1..])
  }

  // Where the headers of the members are.
  function Starts(at: nat, files: seq<Record>, refs: seq<Bytes>): (r: seq<nat>)
    requires |refs| == |files|
    ensures |r| == |files|
    decreases |files|
  {
    if files == [] then []
    else [at] + Starts(at + |Chunk(at, MemberHeader(files[0], refs[0]), files[0].data)|, files[1..], refs[1..])
  }

  // The long strings: a name of 16 characters or more is put into a table, and its header
  // refers to it by its place. The first such name is followed by an extra "/\n".
  predicate IsLong(name: Bytes) {
    |name| >= LONG_NAME
  }

  function Listed(table: Bytes, name: Bytes): Bytes {
    if !IsLong(name) then table
    else
      var longer := table + name + [SLASH, NEWLINE];
      if table == [] then longer + [SLASH, NEWLINE] else longer
  }

  function RefOf(table: Bytes, name: Bytes): Bytes {
    if IsLong(name) then [SLASH] + Digits(|table|, Decimal) else name + [SLASH]
  }

  function Table(table: Bytes, files: seq<Record>): Bytes
    decreases |files|
  {
    if files == [] then table else Table(Listed(table, files[0].name), files[1..])
  }

  function Refs(table: Bytes, files: seq<Record>): (r: seq<Bytes>)
    ensures |r| == |files|
    decreases |files|
  {
    if files == [] then [] else [RefOf(table, files[0].name)] + Refs(Listed(table, files[0].name), files[1..])
  }

  function Strings(files: seq<Record>): Bytes {
    Table([], files) + [SLASH]
  }

  // The index: how many symbols, a slot for each, and their names.
  datatype Symbol = Symbol(owner: nat, name: Bytes)

  function SymbolsOf(names: seq<Bytes>, owner: nat): (r: seq<Symbol>)
    ensures |r| == |names|
  {
    seq(|names|, i requires 0 <= i < |names| => Symbol(owner, names[i]))
  }

  // What the members from number `i` on define; `symbols` says it of one member's bytes.
  function AllSymbols(files: seq<Record>, symbols: Bytes -> seq<Bytes>, i: nat): seq<Symbol> {
    if files == [] then [] else SymbolsOf(symbols(files[0].data), i) + AllSymbols(files[1..], symbols, i + 1)
  }

  function Names(all: seq<Symbol>): Bytes {
    if all == [] then [] else all[0].name + [0] + Names(all[1..])
  }

  function Words(slots: seq<u32>): (r: Bytes)
    ensures |r| == 4 * |slots|
  {
    if slots == [] then [] else Word(slots[0]) + Words(slots[1..])
  }

  function Zeros(n: nat): (r: Bytes)
    ensures |r| == n
  {
    seq(n, _ => 0)
  }

  function Index(slots: seq<u32>, all: seq<Symbol>): Bytes
    requires |slots| == |all| < U32_LIMIT
  {
    var used := 4 + 4 * |all| + |Names(all)|;
    Word(|all|) + Words(slots) + Names(all) + Zeros((4 - used % 4) % 4)
  }

  function IndexSize(all: seq<Symbol>): nat {
    var used := 4 + 4 * |all| + |Names(all)|;
    used + (4 - used % 4) % 4
  }

  function IndexChunk(time: nat, index: Bytes): Bytes {
    Chunk(|MAGIC|, Header(INDEX_NAME, time, 0, 0, 0, |index|), index)
  }

  function StringsChunk(at: nat, time: nat, strings: Bytes): Bytes {
    Chunk(at, Header(STRINGS_NAME, time, 0, 0, 0, |strings|), strings)
  }

  // Where the long strings and the members begin, whatever the slots of the index hold.
  function StringsAt(time: nat, all: seq<Symbol>): nat {
    |MAGIC| + |IndexChunk(time, Zeros(IndexSize(all)))|
  }

  function MembersAt(time: nat, all: seq<Symbol>, strings: Bytes): nat {
    StringsAt(time, all) + |StringsChunk(StringsAt(time, all), time, strings)|
  }

  function OwnerStarts(all: seq<Symbol>, starts: seq<nat>): (r: seq<nat>)
    requires forall x <- all :: x.owner < |starts|
    ensures |r| == |all|
  {
    seq(|all|, k requires 0 <= k < |all| => starts[all[k].owner])
  }

  lemma {:induction false} OwnersExist(files: seq<Record>, symbols: Bytes -> seq<Bytes>, i: nat)
    ensures forall x <- AllSymbols(files, symbols, i) :: i <= x.owner < i + |files|
  {
    if files != [] {
      OwnersExist(files[1..], symbols, i + 1);
    }
  }

  // What the slots of the index should hold: where the header of each symbol's member is.
  function Positions(files: seq<Record>, symbols: Bytes -> seq<Bytes>, time: nat): (r: seq<nat>)
    ensures |r| == |AllSymbols(files, symbols, 0)|
  {
    OwnersExist(files, symbols, 0);
    var all := AllSymbols(files, symbols, 0);
    OwnerStarts(all, Starts(MembersAt(time, all, Strings(files)), files, Refs([], files)))
  }

  // struct.pack refuses what does not fit into 32 bits.
  predicate Packs(slots: seq<nat>) {
    |slots| < U32_LIMIT && forall k :: 0 <= k < |slots| ==> slots[k] < U32_LIMIT
  }

  function Packed(slots: seq<nat>): (r: seq<u32>)
    requires Packs(slots)
    ensures |r| == |slots| && forall k :: 0 <= k < |r| ==> r[k] == slots[k]
  {
    if slots == [] then []
    else
      var first: u32 := slots[0];
      [first] + Packed(slots[1..])
  }

  // The whole image, with these slots in its index.
  function Written(files: seq<Record>, all: seq<Symbol>, slots: seq<u32>, time: nat): Bytes
    requires |slots| == |all| < U32_LIMIT
  {
    var strings := Strings(files);
    MAGIC + IndexChunk(time, Index(slots, all)) + StringsChunk(StringsAt(time, all), time, strings)
    + Members(MembersAt(time, all, strings), files, Refs([], files))
  }

  // build_image
  function Image(files: seq<Record>, symbols: Bytes -> seq<Bytes>, time: nat): Option<Bytes> {
    var all, slots := AllSymbols(files, symbols, 0), Positions(files, symbols, time);
    if Packs(slots) && forall f <- files :: IsAscii(f.name) then Some(Written(files, all, Packed(slots), time))
    else None
  }

  // ---- reading ----

  datatype Head = Head(name: Bytes, time: nat, uid: nat, gid: nat, mode: nat, size: nat)

  function ReadHead(rest: Bytes): Option<Head> {
    if |rest| < HEADER || !IsAscii(rest[..HEADER]) then None
    else
      var time :- Number(Strip(rest[16..28]), Decimal);
      var uid :- Number(Strip(rest[28..34]), Decimal);
      var gid :- Number(Strip(rest[34..40]), Decimal);
      var mode :- Number(Strip(rest[40..48]), Octal);
      var size :- Number(Strip(rest[48..58]), Decimal);
      if rest[58..60] == END then Some(Head(Strip(rest[..16]), time, uid, gid, mode, size)) else None
  }

  // What from_image has read so far.
  datatype Reading = Reading(time: nat, strings: Option<Bytes>, files: seq<Record>)

  function FirstLine(s: Bytes): Bytes {
    if s == [] || s[0] == NEWLINE then [] else [s[0]] + FirstLine(s[1..])
  }

  function DropLast(s: Bytes): Bytes {
    if s == [] then [] else s[..|s| - 1]
  }

  function From(s: Bytes, i: nat): Bytes {
    if i <= |s| then s[i..] else []
  }

  // The name of a member, with the slash behind it.
  function NameOf(name: Bytes, strings: Option<Bytes>): Option<Bytes> {
    if name != [] && name[0] == SLASH then
      var table :- strings;
      var i :- Number(Strip(name[1..]), Decimal);
      Some(FirstLine(From(table, i)))
    else Some(name)
  }

  function Enter(r: Reading, h: Head, data: Bytes): Option<Reading> {
    if h.name == INDEX_NAME then
      if h.uid == h.gid == h.mode == 0 then Some(r.(time := h.time)) else None
    else if h.name == STRINGS_NAME then
      if h.time == r.time && h.uid == h.gid == h.mode == 0 && IsAscii(data) then Some(r.(strings := Some(data)))
      else None
    else
      var name :- NameOf(h.name, r.strings);
      Some(r.(files := r.files + [Record(DropLast(name), h.time, h.uid, h.gid, h.mode, h.size, data)]))
  }

  function ReadAll(rest: Bytes, r: Reading): Option<Reading>
    decreases |rest|
  {
    if rest == [] then Some(r)
    else
      var h :- ReadHead(rest);
      if |rest| < HEADER + h.size then None
      else
        var r1 :- Enter(r, h, rest[HEADER..HEADER + h.size]);
        ReadAll(From(rest, HEADER + h.size + h.size % 2), r1)
  }

  // from_image; `time` is that of the moment.
  function FromImage(image: Bytes, time: nat): Option<Reading> {
    if MAGIC <= image then ReadAll(image[|MAGIC|..], Reading(time, None, [])) else None
  }

  // ---- slices of two texts joined, behind the first ----

  lemma SliceBehind(a: Bytes, b: Bytes, lo: nat, hi: nat)
    requires |a| <= lo <= hi <= |a| + |b|
    ensures (a + b)[lo..hi] == b[lo - |a|..hi - |a|]
  {
  }

  lemma TakeBehind(a: Bytes, b: Bytes, n: nat)
    requires |a| <= n <= |a| + |b|
    ensures (a + b)[..n] == a + b[..n - |a|]
  {
  }

  lemma DropBehind(a: Bytes, b: Bytes, n: nat)
    requires |a| <= n <= |a| + |b|
    ensures (a + b)[n..] == b[n - |a|..]
  {
  }
}
