// tools/ar.py: the archive class, which builds an image in one growing buffer, goes back to
// fill in the index, and reads images.
module Archives {
  import opened Machine
  import opened ArText
  import opened ArImage
  import opened ArRoundTrip

  // ---- steps of the loops ----

  lemma {:induction false} SymbolsGrow(files: seq<Record>, symbols: Bytes -> seq<Bytes>, n: nat, i: nat)
    requires n < |files|
    ensures AllSymbols(files[..n + 1], symbols, i) ==
      AllSymbols(files[..n], symbols, i) + SymbolsOf(symbols(files[n].data), i + n)
    decreases n
  {
    if n == 0 {
      assert files[..1] == [files[0]] && files[..1][1..] == [] && files[..0] == [];
    } else {
      SymbolsGrow(files[1..], symbols, n - 1, i + 1);
      assert files[..n + 1][1..] == files[1..][..n] && files[..n][1..] == files[1..][..n - 1];
    }
  }

  lemma {:induction false} NamesGrow(all: seq<Symbol>, x: Symbol)
    ensures Names(all + [x]) == Names(all) + x.name + [0]
  {
    if all == [] {
      assert [] + [x] == [x] && [x][1..] == [];
    } else {
      assert (all + [x])[1..] == all[1..] + [x];
      NamesGrow(all[1..], x);
    }
  }

  lemma {:induction false} WordsOfZeros(n: nat)
    ensures Words(seq(n, _ => 0)) == Zeros(4 * n)
    decreases n
  {
    if n > 0 {
      WordsOfZeros(n - 1);
      var zeros: seq<u32> := seq(n, _ => 0);
      assert zeros[1..] == seq(n - 1, _ => 0);
      assert Word(0) == [0, 0, 0, 0];
    }
  }

  lemma {:induction false} WordsUpdate(slots: seq<u32>, k: nat, x: u32)
    requires k < |slots|
    ensures Words(slots[k := x]) == Words(slots)[..4 * k] + Word(x) + Words(slots)[4 * k + 4..]
  {
    hide Word, Words;
    WordsFirst(slots);
    WordsFirst(slots[k := x]);
    if k == 0 {
      assert slots[0 := x][1..] == slots[1..];
      DropBehind(Word(slots[0]), Words(slots[1..]), 4);
    } else {
      WordsUpdate(slots[1..], k - 1, x);
      assert slots[k := x][1..] == slots[1..][k - 1 := x];
      UpdateBehind(Word(slots[0]), Words(slots[1..]), 4 * (k - 1), Word(x));
    }
  }

  lemma {:induction false} WordsFirst(slots: seq<u32>)
    requires slots != []
    ensures Words(slots) == Word(slots[0]) + Words(slots[1..]) && |Word(slots[0])| == 4
  {
  }

  lemma UpdateBehind(first: Bytes, rest: Bytes, n: nat, w: Bytes)
    requires n + 4 <= |rest|
    ensures first + (rest[..n] + w + rest[n + 4..]) ==
      (first + rest)[..|first| + n] + w + (first + rest)[|first| + n + 4..]
  {
    TakeBehind(first, rest, |first| + n);
    DropBehind(first, rest, |first| + n + 4);
    Joined(first, rest[..n], w);
    Joined(first, rest[..n] + w, rest[n + 4..]);
  }

  lemma Within(pre: Bytes, w: Bytes, post: Bytes, n: nat)
    requires n <= |w|
    ensures (pre + w + post)[..|pre| + n] == pre + w[..n] && (pre + w + post)[|pre| + n..] == w[n..] + post
  {
  }

  // One slot written over.
  lemma {:induction false} PatchSlot(pre: Bytes, slots: seq<u32>, post: Bytes, k: nat, x: u32)
    requires k < |slots|
    ensures var b, at := pre + Words(slots) + post, |pre| + 4 * k;
      at + 4 <= |b| && b[..at] + Word(x) + b[at + 4..] == pre + Words(slots[k := x]) + post
  {
    hide Word;
    WordsUpdate(slots, k, x);
    var w := Words(slots);
    var b, at := pre + w + post, |pre| + 4 * k;
    Within(pre, w, post, 4 * k);
    Within(pre, w, post, 4 * k + 4);
    Joined(pre, w[..4 * k], Word(x));
    Joined(pre, w[..4 * k] + Word(x), w[4 * k + 4..]);
    Joined(pre + (w[..4 * k] + Word(x)), w[4 * k + 4..], post);
  }

  lemma {:induction false} TableGrowsBy(table: Bytes, files: seq<Record>, n: nat)
    requires n < |files|
    ensures Table(table, files[..n + 1]) == Listed(Table(table, files[..n]), files[n].name)
    ensures Refs(table, files[..n + 1]) == Refs(table, files[..n]) + [RefOf(Table(table, files[..n]), files[n].name)]
    decreases n
  {
    hide Listed, RefOf;
    if n == 0 {
      assert files[..1][1..] == [] && files[..0] == [];
    } else {
      TableGrowsBy(Listed(table, files[0].name), files[1..], n - 1);
      assert files[..n + 1][1..] == files[1..][..n] && files[..n][1..] == files[1..][..n - 1];
    }
  }

  lemma {:induction false} MembersGrow(at: nat, files: seq<Record>, refs: seq<Bytes>, n: nat)
    requires |refs| == |files| && n < |files|
    ensures var before := Members(at, files[..n], refs[..n]);
      && Members(at, files[..n + 1], refs[..n + 1])
        == before + Chunk(at + |before|, MemberHeader(files[n], refs[n]), files[n].data)
      && Starts(at, files, refs)[n] == at + |before|
    decreases n
  {
    hide Chunk, MemberHeader;
    if n == 0 {
      assert files[..1] == [files[0]] && files[..1][1..] == [] && files[..0] == [] && refs[..1][1..] == [];
    } else {
      var c := Chunk(at, MemberHeader(files[0], refs[0]), files[0].data);
      MembersGrow(at + |c|, files[1..], refs[1..], n - 1);
      assert files[..n + 1][1..] == files[1..][..n] && files[..n][1..] == files[1..][..n - 1];
      assert refs[..n + 1][1..] == refs[1..][..n] && refs[..n][1..] == refs[1..][..n - 1];
      var inner := Members(at + |c|, files[1..][..n - 1], refs[1..][..n - 1]);
      var last := Chunk(at + |c| + |inner|, MemberHeader(files[n], refs[n]), files[n].data);
      assert c + (inner + last) == (c + inner) + last;
    }
  }

  // ---- the image as far as it is built ----

  // With n members behind the index and the long strings, and these slots in the index.
  function Built(files: seq<Record>, n: nat, all: seq<Symbol>, slots: seq<u32>, time: nat): Bytes
    requires |slots| == |all| < U32_LIMIT && n <= |files|
  {
    BuiltHead(files, all, slots, time) + Members(MembersAt(time, all, Strings(files)), files[..n], Refs([], files)[..n])
  }

  function BuiltHead(files: seq<Record>, all: seq<Symbol>, slots: seq<u32>, time: nat): Bytes
    requires |slots| == |all| < U32_LIMIT
  {
    MAGIC + IndexChunk(time, Index(slots, all)) + StringsChunk(StringsAt(time, all), time, Strings(files))
  }

  lemma BuiltLength(files: seq<Record>, all: seq<Symbol>, slots: seq<u32>, time: nat)
    requires |slots| == |all| < U32_LIMIT
    ensures |MAGIC + IndexChunk(time, Index(slots, all))| == StringsAt(time, all)
    ensures |BuiltHead(files, all, slots, time)| == MembersAt(time, all, Strings(files))
  {
    hide IndexChunk, StringsChunk, Strings, Index, IndexSize;
    IndexLength(slots, all);
    ChunkSize(time, Index(slots, all), Zeros(IndexSize(all)));
  }

  lemma BuiltIsWritten(files: seq<Record>, all: seq<Symbol>, slots: seq<u32>, time: nat)
    requires |slots| == |all| < U32_LIMIT
    ensures Built(files, |files|, all, slots, time) == Written(files, all, slots, time)
    ensures Built(files, 0, all, slots, time) == BuiltHead(files, all, slots, time)
  {
    hide IndexChunk, StringsChunk, Strings, Index;
    assert files[..|files|] == files && Refs([], files)[..|files|] == Refs([], files);
    assert files[..0] == [] && BuiltHead(files, all, slots, time) + [] == BuiltHead(files, all, slots, time);
  }

  // One more member, at the place where the image ends.
  lemma {:induction false} BuiltGrows(files: seq<Record>, n: nat, all: seq<Symbol>, slots: seq<u32>, time: nat)
    requires |slots| == |all| < U32_LIMIT && n < |files|
    ensures var b := Built(files, n, all, slots, time);
      && |b| == Starts(MembersAt(time, all, Strings(files)), files, Refs([], files))[n]
      && Built(files, n + 1, all, slots, time) ==
        b + Chunk(|b|, MemberHeader(files[n], Refs([], files)[n]), files[n].data)
  {
    hide Built, BuiltHead, Chunk, MemberHeader, Strings, MembersAt, Members, Starts, Refs;
    BuiltParts(files, n, all, slots, time);
    BuiltParts(files, n + 1, all, slots, time);
    var at, refs := MembersAt(time, all, Strings(files)), Refs([], files);
    MembersGrow(at, files, refs, n);
    var before := Members(at, files[..n], refs[..n]);
    var c := Chunk(at + |before|, MemberHeader(files[n], refs[n]), files[n].data);
    Joined(BuiltHead(files, all, slots, time), before, c);
  }

  lemma {:induction false} BuiltParts(files: seq<Record>, n: nat, all: seq<Symbol>, slots: seq<u32>, time: nat)
    requires |slots| == |all| < U32_LIMIT && n <= |files|
    ensures var at, refs := MembersAt(time, all, Strings(files)), Refs([], files);
      && Built(files, n, all, slots, time) == BuiltHead(files, all, slots, time) + Members(at, files[..n], refs[..n])
      && |Built(files, n, all, slots, time)| == at + |Members(at, files[..n], refs[..n])|
  {
    hide BuiltHead, Strings, MembersAt, Members, Refs;
    BuiltLength(files, all, slots, time);
  }

  lemma Joined(a: Bytes, b: Bytes, c: Bytes)
    ensures a + (b + c) == a + b + c
  {
  }

  // What is behind the slots.
  function Behind(files: seq<Record>, n: nat, all: seq<Symbol>, time: nat): Bytes
    requires |all| < U32_LIMIT && n <= |files|
  {
    var used := 4 + 4 * |all| + |Names(all)|;
    var head := Header(INDEX_NAME, time, 0, 0, 0, IndexSize(all));
    Names(all) + Zeros((4 - used % 4) % 4) + Pad(|MAGIC| + |head| + IndexSize(all))
    + StringsChunk(StringsAt(time, all), time, Strings(files))
    + Members(MembersAt(time, all, Strings(files)), files[..n], Refs([], files)[..n])
  }

  lemma {:induction false} BuiltAround(files: seq<Record>, n: nat, all: seq<Symbol>, slots: seq<u32>, time: nat)
    requires |slots| == |all| < U32_LIMIT && n <= |files|
    ensures Built(files, n, all, slots, time) ==
      (MAGIC + Header(INDEX_NAME, time, 0, 0, 0, IndexSize(all)) + Word(|all|)) + Words(slots)
        + Behind(files, n, all, time)
  {
    hide Header, IndexChunk, Index, StringsChunk, Members, Word, Words, Names, Strings, IndexSize, MembersAt;
    hide StringsAt, Built, Behind;
    hide Refs, Pad, Zeros;
    var head, used := Header(INDEX_NAME, time, 0, 0, 0, IndexSize(all)), 4 + 4 * |all| + |Names(all)|;
    var fill, pad := Zeros((4 - used % 4) % 4), Pad(|MAGIC| + |head| + IndexSize(all));
    var strings := StringsChunk(StringsAt(time, all), time, Strings(files));
    var members := Members(MembersAt(time, all, Strings(files)), files[..n], Refs([], files)[..n]);
    IndexChunkIs(all, slots, time);
    BuiltIs(files, n, all, slots, time);
    BehindIs(files, n, all, time);
    Rejoin(
      Built(files, n, all, slots, time), MAGIC, IndexChunk(time, Index(slots, all)), head, Word(|all|), Words(slots),
      Names(all), fill, pad, strings, members, Behind(files, n, all, time));
  }

  lemma Rejoin(
    built: Bytes, magic: Bytes, index: Bytes, head: Bytes, count: Bytes, slots: Bytes, names: Bytes, fill: Bytes,
    pad: Bytes, strings: Bytes, members: Bytes, behind: Bytes)
    requires built == magic + index + strings + members && index == head + (count + slots + names + fill) + pad
    requires behind == names + fill + pad + strings + members
    ensures built == (magic + head + count) + slots + behind
  {
    Regroup(magic, head, count, slots, names, fill, pad, strings, members);
  }

  lemma {:induction false} BuiltIs(files: seq<Record>, n: nat, all: seq<Symbol>, slots: seq<u32>, time: nat)
    requires |slots| == |all| < U32_LIMIT && n <= |files|
    ensures Built(files, n, all, slots, time) == MAGIC + IndexChunk(time, Index(slots, all))
      + StringsChunk(StringsAt(time, all), time, Strings(files))
      + Members(MembersAt(time, all, Strings(files)), files[..n], Refs([], files)[..n])
  {
    hide IndexChunk, Index, StringsChunk, Members, Strings, MembersAt, StringsAt, Refs;
  }

  lemma {:induction false} BehindIs(files: seq<Record>, n: nat, all: seq<Symbol>, time: nat)
    requires |all| < U32_LIMIT && n <= |files|
    ensures var used := 4 + 4 * |all| + |Names(all)|;
      Behind(files, n, all, time) == Names(all) + Zeros((4 - used % 4) % 4)
        + Pad(|MAGIC| + |Header(INDEX_NAME, time, 0, 0, 0, IndexSize(all))| + IndexSize(all))
        + StringsChunk(StringsAt(time, all), time, Strings(files))
        + Members(MembersAt(time, all, Strings(files)), files[..n], Refs([], files)[..n])
  {
    hide Names, Zeros, Pad, Header, StringsChunk, Members, Strings, MembersAt, StringsAt, Refs, IndexSize;
  }

  lemma {:induction false} IndexChunkIs(all: seq<Symbol>, slots: seq<u32>, time: nat)
    requires |slots| == |all| < U32_LIMIT
    ensures var head, used := Header(INDEX_NAME, time, 0, 0, 0, IndexSize(all)), 4 + 4 * |all| + |Names(all)|;
      IndexChunk(time, Index(slots, all)) ==
        head + (Word(|all|) + Words(slots) + Names(all) + Zeros((4 - used % 4) % 4))
        + Pad(|MAGIC| + |head| + IndexSize(all))
  {
    hide Header, Word, Words, Names, IndexSize;
    IndexLength(slots, all);
  }

  lemma Regroup(magic: Bytes, head: Bytes, count: Bytes, slots: Bytes, names: Bytes, fill: Bytes, pad: Bytes,
    strings: Bytes, members: Bytes)
    ensures magic + (head + (count + slots + names + fill) + pad) + strings + members
      == (magic + head + count) + slots + (names + fill + pad + strings + members)
  {
    assert head + (count + slots + names + fill) + pad == (head + count) + slots + (names + fill + pad);
    assert magic + ((head + count) + slots + (names + fill + pad)) ==
      (magic + head + count) + slots + (names + fill + pad);
  }

  // One slot of the index written over.
  lemma BuiltPatched(files: seq<Record>, n: nat, all: seq<Symbol>, slots: seq<u32>, time: nat, k: nat, x: u32)
    requires |slots| == |all| < U32_LIMIT && n <= |files| && k < |slots|
    ensures var b := Built(files, n, all, slots, time);
      var at := |MAGIC| + |Header(INDEX_NAME, time, 0, 0, 0, IndexSize(all))| + 4 + 4 * k;
      at + 4 <= |b| && b[..at] + Word(x) + b[at + 4..] == Built(files, n, all, slots[k := x], time)
  {
    hide Built, Behind, Header, Word, Words;
    BuiltAround(files, n, all, slots, time);
    BuiltAround(files, n, all, slots[k := x], time);
    PatchSlot(MAGIC + Header(INDEX_NAME, time, 0, 0, 0, IndexSize(all)) + Word(|all|), slots,
      Behind(files, n, all, time), k, x);
  }

  predicate ByOwner(all: seq<Symbol>) {
    forall j, k :: 0 <= j < k < |all| ==> all[j].owner <= all[k].owner
  }

  // The members of the symbols come in order.
  lemma {:induction false} OwnersInOrder(files: seq<Record>, symbols: Bytes -> seq<Bytes>, i: nat)
    ensures ByOwner(AllSymbols(files, symbols, i))
  {
    if files != [] {
      OwnersInOrder(files[1..], symbols, i + 1);
      OwnersExist(files[1..], symbols, i + 1);
      OrderJoins(SymbolsOf(symbols(files[0].data), i), AllSymbols(files[1..], symbols, i + 1), i);
    }
  }

  lemma OrderJoins(first: seq<Symbol>, rest: seq<Symbol>, i: nat)
    requires (forall x <- first :: x.owner == i) && forall x <- rest :: i <= x.owner
    requires ByOwner(rest)
    ensures ByOwner(first + rest)
  {
    var all := first + rest;
    forall j, k | 0 <= j < k < |all| ensures all[j].owner <= all[k].owner {
      assert j < |first| ==> all[j] == first[j] && first[j] in first;
      assert k < |first| ==> all[k] == first[k] && first[k] in first;
      assert j >= |first| ==> all[j] == rest[j - |first|];
      assert k >= |first| ==> all[k] == rest[k - |first|] && rest[k - |first|] in rest;
    }
  }

  // ---- what cannot be encoded ----

  lemma {:induction false} TableAscii(table: Bytes, files: seq<Record>)
    ensures IsAscii(Table(table, files)) <==> IsAscii(table) && forall f <- files :: IsLong(f.name) ==> IsAscii(f.name)
    decreases |files|
  {
    hide IsAscii;
    if files != [] {
      TableAscii(Listed(table, files[0].name), files[1..]);
      ListedAscii(table, files[0].name);
      assert files == [files[0]] + files[1..];
    }
  }

  lemma AsciiParts(a: Bytes, b: Bytes)
    ensures IsAscii(a + b) <==> IsAscii(a) && IsAscii(b)
  {
    if IsAscii(a + b) {
      forall c <- a ensures c < 0x80 { assert c in a + b; }
      forall c <- b ensures c < 0x80 { assert c in a + b; }
    }
  }

  lemma ListedAscii(table: Bytes, name: Bytes)
    ensures IsAscii(Listed(table, name)) <==> IsAscii(table) && (IsLong(name) ==> IsAscii(name))
  {
    hide IsAscii;
    LineAscii();
    AsciiParts(table, name);
    AsciiParts(table + name, [SLASH, NEWLINE]);
    AsciiParts(table + name + [SLASH, NEWLINE], [SLASH, NEWLINE]);
  }

  lemma LineAscii()
    ensures IsAscii([SLASH, NEWLINE]) && IsAscii([SLASH]) && IsAscii([])
  {
  }

  lemma StringsAscii(files: seq<Record>)
    ensures IsAscii(Strings(files)) <==> forall f <- files :: IsLong(f.name) ==> IsAscii(f.name)
  {
    hide IsAscii, Table;
    LineAscii();
    TableAscii([], files);
    AsciiParts(Table([], files), [SLASH]);
  }

  lemma {:induction false} RefAscii(table: Bytes, files: seq<Record>, i: nat)
    requires i < |files|
    ensures IsAscii(Refs(table, files)[i]) <==> (!IsLong(files[i].name) ==> IsAscii(files[i].name))
    decreases i
  {
    hide IsAscii, Digits;
    if i > 0 {
      RefAscii(Listed(table, files[0].name), files[1..], i - 1);
    } else {
      LineAscii();
      AsciiParts(files[0].name, [SLASH]);
      AsciiParts([SLASH], Digits(|table|, Decimal));
      DigitsAscii(|table|);
    }
  }

  lemma {:induction false} DigitsAscii(n: nat)
    ensures IsAscii(Digits(n, Decimal))
  {
    NumberOfDigits(n, Decimal);
  }

  // class Archive
  class Archive {
    var files: seq<Record>
    var time: nat

    constructor (time: nat)
      ensures this.time == time && files == []
    {
      this.time, files := time, [];
    }

    // add_data
    method AddData(f: Record)
      modifies `files
      ensures files == old(files) + [f]
    {
      files := files + [f];
    }

    // The symbols: the member of each, and their names.
    method CollectSymbols(symbols: Bytes -> seq<Bytes>) returns (owners: seq<nat>, names: Bytes)
      ensures var all := AllSymbols(files, symbols, 0);
        |owners| == |all| && (forall k :: 0 <= k < |all| ==> owners[k] == all[k].owner) && names == Names(all)
    {
      owners, names := [], [];
      ghost var all: seq<Symbol> := [];
      for i := 0 to |files|
        invariant all == AllSymbols(files[..i], symbols, 0) && |owners| == |all| && names == Names(all)
        invariant forall k :: 0 <= k < |all| ==> owners[k] == all[k].owner
      {
        SymbolsGrow(files, symbols, i, 0);
        var defined := symbols(files[i].data);
        ghost var before, new_ := all, SymbolsOf(defined, i);
        assert before + new_[..0] == before;
        for j := 0 to |defined|
          invariant all == before + new_[..j] && |owners| == |all| && names == Names(all)
          invariant forall k :: 0 <= k < |all| ==> owners[k] == all[k].owner
        {
          NamesGrow(all, new_[j]);
          assert new_[..j + 1] == new_[..j] + [new_[j]];
          names := names + defined[j] + [0];
          owners := owners + [i];
          all := all + [new_[j]];
        }
        assert new_[..|defined|] == new_;
      }
      assert files[..|files|] == files;
    }

    // The index with empty slots.
    method EmptyIndex(n: u32, names: Bytes, ghost all: seq<Symbol>) returns (index: Bytes)
      requires n == |all| && names == Names(all)
      ensures index == Index(seq(n, _ => 0), all) && |index| == IndexSize(all)
    {
      hide Word, Words;
      index := Word(n);
      index := index + Zeros(4 * n);
      index := index + names;
      WordsOfZeros(n);
      ghost var used := index;
      Rounded(|used|);
      if |index| % 4 != 0 {
        var size := (|index| + 3) / 4 * 4;
        index := index + Zeros(size - |index|);
      } else {
        assert used == used + Zeros(0);
      }
    }

    lemma Rounded(n: nat)
      ensures (4 - n % 4) % 4 == if n % 4 != 0 then (n + 3) / 4 * 4 - n else 0
    {
    }

    // The names: how the header of each member refers to its name, and the long strings.
    method CollectNames() returns (fileNames: seq<(Bytes, Option<nat>)>, longStrings: Bytes)
      ensures |fileNames| == |files| && longStrings == Strings(files)
      ensures forall i :: 0 <= i < |files| ==> RefText(fileNames[i]) == Refs([], files)[i]
    {
      fileNames, longStrings := [], [];
      var flag := false;
      for i := 0 to |files|
        invariant |fileNames| == i && longStrings == Table([], files[..i]) && flag == (longStrings != [])
        invariant forall k :: 0 <= k < i ==> RefText(fileNames[k]) == Refs([], files[..i])[k]
      {
        TableGrowsBy([], files, i);
        ghost var table := longStrings;
        var name := files[i].name;
        var entry: (Bytes, Option<nat>);
        if |name| >= LONG_NAME {
          var fname := name + [SLASH, NEWLINE];
          entry := (fname, Some(|longStrings|));
          longStrings := longStrings + fname;
        } else {
          entry := (name + [SLASH], None);
        }
        if longStrings != [] && !flag {
          flag := true;
          longStrings := longStrings + [SLASH, NEWLINE];
        }
        assert longStrings == Listed(table, name);
        assert RefText(entry) == RefOf(table, name);
        fileNames := fileNames + [entry];
      }
      assert files[..|files|] == files;
      longStrings := longStrings + [SLASH];
    }

    static function RefText(entry: (Bytes, Option<nat>)): Bytes {
      match entry.1
      case Some(i) => [SLASH] + Digits(i, Decimal)
      case None => entry.0
    }

    // build_image
    method BuildImage(symbols: Bytes -> seq<Bytes>, currentTime: nat) returns (image: Option<Bytes>)
      ensures image == Image(files, symbols, currentTime)
    {
      hide Header, Index, Names, Words, Built, BuiltHead, Members, Starts, AllSymbols, Strings, Refs, IsAscii, RefText;
      var owners, names := CollectSymbols(symbols);
      ghost var all := AllSymbols(files, symbols, 0);
      if |owners| >= U32_LIMIT {
        return None;
      }
      var index := EmptyIndex(|owners|, names, all);
      var b := MAGIC;
      b := b + Header(INDEX_NAME, currentTime, 0, 0, 0, |index|);
      var slotsStart := |b| + 4;
      b := b + index;
      b := AddPad(b);
      var fileNames, longStrings := CollectNames();
      StringsAscii(files);
      if !IsAscii(longStrings) {
        return None;
      }
      b := b + Header(STRINGS_NAME, currentTime, 0, 0, 0, |longStrings|);
      b := b + longStrings;
      b := AddPad(b);
      HeadIsBuilt(files, all, currentTime, index, b);
      image := AddMembers(b, fileNames, owners, slotsStart, symbols, currentTime);
    }

    // add_pad
    static method AddPad(b: Bytes) returns (r: Bytes)
      ensures r == b + Pad(|b|)
    {
      r := b;
      if |b| % 2 != 0 {
        r := r + [0];
      } else {
        assert b + [] == b;
      }
    }

    static lemma HeadIsBuilt(files: seq<Record>, all: seq<Symbol>, time: nat, index: Bytes, b: Bytes)
      requires |all| < U32_LIMIT && index == Index(seq(|all|, _ => 0), all) && |index| == IndexSize(all)
      requires var h := MAGIC + Header(INDEX_NAME, time, 0, 0, 0, |index|) + index;
        var c := h + Pad(|h|) + Header(STRINGS_NAME, time, 0, 0, 0, |Strings(files)|) + Strings(files);
        b == c + Pad(|c|)
      ensures b == Built(files, 0, all, seq(|all|, _ => 0), time)
    {
      hide Header, Index, Strings, IndexSize, Built;
      var slots: seq<u32> := seq(|all|, _ => 0);
      BuiltLength(files, all, slots, time);
      BuiltIsWritten(files, all, slots, time);
      var h := MAGIC + Header(INDEX_NAME, time, 0, 0, 0, |index|) + index;
      assert h + Pad(|h|) == MAGIC + IndexChunk(time, index);
    }

    // What both its last loop and the one inside it keep: n members are written, and the slots
    // of the first k symbols are filled in.
    ghost predicate FilledIn(
      b: Bytes, n: nat, k: nat, slots: seq<u32>, owners: seq<nat>, symbols: Bytes -> seq<Bytes>, time: nat)
      reads this
    {
      var all, positions := AllSymbols(files, symbols, 0), Positions(files, symbols, time);
      && n <= |files| && |slots| == |all| == |owners| < U32_LIMIT && k <= |owners|
      && b == Built(files, n, all, slots, time)
      && forall j :: 0 <= j < k ==> positions[j] < U32_LIMIT && slots[j] == positions[j]
    }

    // Its last loop, over the members.
    method AddMembers(head: Bytes, fileNames: seq<(Bytes, Option<nat>)>, owners: seq<nat>, slotsStart: nat,
      ghost symbols: Bytes -> seq<Bytes>, ghost time: nat) returns (image: Option<Bytes>)
      requires var all := AllSymbols(files, symbols, 0);
        && |owners| == |all| < U32_LIMIT && (forall k :: 0 <= k < |all| ==> owners[k] == all[k].owner)
        && head == Built(files, 0, all, seq(|all|, _ => 0), time)
        && slotsStart == |MAGIC| + |Header(INDEX_NAME, time, 0, 0, 0, IndexSize(all))| + 4
      requires |fileNames| == |files| && forall i :: 0 <= i < |files| ==> RefText(fileNames[i]) == Refs([], files)[i]
      requires forall f <- files :: IsLong(f.name) ==> IsAscii(f.name)
      ensures image == Image(files, symbols, time)
    {
      hide Header, Built, Members, Starts, AllSymbols, Strings, Refs, IsAscii, RefText, IndexSize, Positions, Chunk;
      hide MembersAt;
      ghost var all := AllSymbols(files, symbols, 0);
      ghost var slots: seq<u32> := seq(|all|, _ => 0);
      OwnersInOrder(files, symbols, 0);
      OwnersExist(files, symbols, 0);
      assert forall j, l :: 0 <= j < l < |owners| ==> owners[j] <= owners[l];
      var b, k: nat := head, 0;
      for i := 0 to |files|
        invariant FilledIn(b, i, k, slots, owners, symbols, time)
        invariant (forall j :: k <= j < |owners| ==> i <= owners[j]) && (k < |owners| ==> i <= owners[k])
        invariant forall j :: 0 <= j < i ==> IsAscii(files[j].name)
      {
        var start := |b|;
        var ref := RefText(fileNames[i]);
        RefAscii([], files, i);
        assert files[i] in files;
        if !IsAscii(ref) {
          return None;
        }
        BuiltGrows(files, i, all, slots, time);
        b := AddMember(b, ref, files[i]);
        var ok;
        ok, b, k, slots := FillSlots(b, i, start, k, owners, slotsStart, slots, symbols, time);
        if !ok {
          return None;
        }
        NoneLeft(owners, k, i);
      }
      AllPlaced(files, all, owners, k);
      BuiltIsWritten(files, all, slots, time);
      assert Packs(Positions(files, symbols, time)) && slots == Packed(Positions(files, symbols, time));
      image := Some(b);
    }

    static method AddMember(b: Bytes, ref: Bytes, f: Record) returns (r: Bytes)
      ensures r == b + Chunk(|b|, MemberHeader(f, ref), f.data)
    {
      hide Header;
      r := b + Header(ref, f.time, f.uid, f.gid, f.mode, f.size);
      r := r + f.data;
      r := AddPad(r);
    }

    // The index is patched with the place of member i.
    method FillSlots(image: Bytes, i: nat, start: nat, first: nat, owners: seq<nat>, slotsStart: nat,
      ghost given: seq<u32>, ghost symbols: Bytes -> seq<Bytes>, ghost time: nat)
      returns (ok: bool, b: Bytes, k: nat, ghost slots: seq<u32>)
      requires i < |files| && FilledIn(image, i + 1, first, given, owners, symbols, time)
      requires var all := AllSymbols(files, symbols, 0);
        && (forall j :: 0 <= j < |all| ==> owners[j] == all[j].owner)
        && slotsStart == |MAGIC| + |Header(INDEX_NAME, time, 0, 0, 0, IndexSize(all))| + 4
        && start == Starts(MembersAt(time, all, Strings(files)), files, Refs([], files))[i]
      ensures !ok ==> !Packs(Positions(files, symbols, time))
      ensures ok ==> FilledIn(b, i + 1, k, slots, owners, symbols, time)
      ensures ok ==> first <= k && (k < |owners| ==> owners[k] != i)
    {
      hide Header, Built, Members, Starts, AllSymbols, Strings, Refs, Word, IndexSize, MembersAt;
      ghost var all := AllSymbols(files, symbols, 0);
      b, k, slots := image, first, given;
      while k < |owners| && owners[k] == i
        invariant first <= k && FilledIn(b, i + 1, k, slots, owners, symbols, time)
      {
        assert Positions(files, symbols, time)[k] == start;
        if start >= U32_LIMIT {
          return false, b, k, slots;
        }
        var at := slotsStart + 4 * k;
        BuiltPatched(files, i + 1, all, slots, time, k, start);
        b := b[..at] + Word(start) + b[at + 4..];
        slots := slots[k := start];
        k := k + 1;
      }
      ok := true;
    }

    static lemma NoneLeft(owners: seq<nat>, k: nat, i: nat)
      requires k <= |owners| && (forall j :: k <= j < |owners| ==> i <= owners[j]) && (k < |owners| ==> owners[k] != i)
      requires forall j, l :: 0 <= j < l < |owners| ==> owners[j] <= owners[l]
      ensures (forall j :: k <= j < |owners| ==> i + 1 <= owners[j]) && (k < |owners| ==> i + 1 <= owners[k])
    {
    }

    static lemma AllPlaced(files: seq<Record>, all: seq<Symbol>, owners: seq<nat>, k: nat)
      requires |owners| == |all| && k <= |owners| && (k < |owners| ==> |files| <= owners[k])
      requires (forall j :: 0 <= j < |all| ==> owners[j] == all[j].owner) && forall x <- all :: x.owner < |files|
      ensures k == |owners|
    {
      assert forall j :: 0 <= j < |all| ==> all[j] in all && owners[j] < |files|;
    }

    // from_image: every record read is appended to a new archive.
    static method FromImage(data: Bytes, moment: nat) returns (ok: bool, ar: Archive, longStrings: Option<Bytes>)
      ensures fresh(ar)
      ensures var r := ArImage.FromImage(data, moment);
        ok == r.Some? && (ok ==> Reading(ar.time, longStrings, ar.files) == r.value)
    {
      hide ReadAll, ReadHead;
      ar := new Archive(moment);
      longStrings := None;
      if !(MAGIC <= data) {
        return false, ar, longStrings;
      }
      var i := |MAGIC|;
      ghost var result := ReadAll(data[i..], Reading(moment, None, []));
      while i < |data|
        invariant i >= 0 && fresh(ar)
        invariant ReadAll(if i <= |data| then data[i..] else [], Reading(ar.time, longStrings, ar.files)) == result
        decreases |data| - i
      {
        var rest := data[i..];
        ReadNext(rest, Reading(ar.time, longStrings, ar.files));
        var head := ReadHead(rest);
        if head.None? || |rest| < HEADER + head.value.size {
          return false, ar, longStrings;
        }
        var h := head.value;
        var content := rest[HEADER..HEADER + h.size];
        var entered;
        entered, longStrings := ar.EnterMember(h, content, longStrings);
        if !entered {
          return false, ar, longStrings;
        }
        var size := h.size;
        if size % 2 != 0 {
          size := size + 1;
        }
        assert From(rest, HEADER + size) == if i + HEADER + size <= |data| then data[i + HEADER + size..] else [];
        i := i + HEADER + size;
      }
      assert data[|data|..] == [];
      ReadNothing(Reading(ar.time, longStrings, ar.files));
      ok := true;
    }

    static lemma {:induction false} ReadNothing(r: Reading)
      ensures ReadAll([], r) == Some(r)
    {
    }

    static lemma ReadNext(rest: Bytes, r: Reading)
      requires rest != []
      ensures ReadAll(rest, r) == match ReadHead(rest)
        case None => None
        case Some(h) =>
          if |rest| < HEADER + h.size then None
          else match Enter(r, h, rest[HEADER..HEADER + h.size])
            case None => None
            case Some(r1) => ReadAll(From(rest, HEADER + h.size + h.size % 2), r1)
    {
      hide ReadHead, Enter;
    }

    // The body of its loop, once the header is taken apart.
    method EnterMember(h: Head, content: Bytes, strings: Option<Bytes>) returns (ok: bool, newStrings: Option<Bytes>)
      modifies this
      ensures var r := Enter(old(Reading(time, strings, files)), h, content);
        ok == r.Some? && (ok ==> Reading(time, newStrings, files) == r.value)
    {
      hide NameOf;
      ok, newStrings := true, strings;
      if h.name == INDEX_NAME {
        time := h.time;
        ok := h.uid == 0 && h.gid == 0 && h.mode == 0;
      } else if h.name == STRINGS_NAME {
        ok := h.time == time && h.uid == 0 && h.gid == 0 && h.mode == 0 && IsAscii(content);
        newStrings := Some(content);
      } else {
        var name := NameOf(h.name, strings);
        ok := name.Some?;
        if ok {
          AddData(Record(DropLast(name.value), h.time, h.uid, h.gid, h.mode, h.size, content));
        }
      }
    }
  }
}
