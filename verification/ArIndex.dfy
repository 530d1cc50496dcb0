// The index of an archive that tools/ar.py writes tells where each symbol's member is.
module ArIndex {
  import opened Machine
  import opened ArText
  import opened ArImage
  import opened ArRoundTrip

  // ---- reading an index ----

  datatype Slot = Slot(start: u32, name: Bytes)

  // The bytes up to the next zero, and what is behind it.
  function ReadName(s: Bytes): Option<(Bytes, Bytes)> {
    if s == [] then None
    else if s[0] == 0 then Some(([], s[1..]))
    else
      var (name, rest) :- ReadName(s[1..]);
      Some(([s[0]] + name, rest))
  }

  // n slots, and their names in the same order.
  function ReadSlots(slots: Bytes, names: Bytes, n: nat): Option<seq<Slot>>
    decreases n
  {
    if n == 0 then Some([])
    else if |slots| < 4 then None
    else
      var (name, rest) :- ReadName(names);
      var others :- ReadSlots(slots[4..], rest, n - 1);
      Some([Slot(ReadWord(slots[..4]), name)] + others)
  }

  // The index as from_image describes it: a count, the slots, the names.
  function ReadIndex(index: Bytes): Option<seq<Slot>> {
    if |index| < 4 then None
    else
      var n := ReadWord(index[..4]);
      if |index| < 4 + 4 * n then None else ReadSlots(index[4..4 + 4 * n], index[4 + 4 * n..], n)
  }

  function SlotsOf(slots: seq<u32>, all: seq<Symbol>): (r: seq<Slot>)
    requires |slots| == |all|
    ensures |r| == |all|
  {
    seq(|all|, k requires 0 <= k < |all| => Slot(slots[k], all[k].name))
  }

  lemma {:induction false} NameIsRead(name: Bytes, rest: Bytes)
    requires 0 !in name
    ensures ReadName(name + [0] + rest) == Some((name, rest))
  {
    if name == [] {
      assert [] + [0] + rest == [0] + rest && ([0] + rest)[1..] == rest;
    } else {
      assert (name + [0] + rest)[1..] == name[1..] + [0] + rest && (name + [0] + rest)[0] == name[0];
      NameIsRead(name[1..], rest);
      assert [name[0]] + name[1..] == name;
    }
  }

  lemma {:induction false} OneSlotIsRead(
    slot: u32, more: Bytes, names: Bytes, name: Bytes, rest: Bytes, others: seq<Slot>)
    requires ReadName(names) == Some((name, rest)) && ReadSlots(more, rest, |others|) == Some(others)
    ensures ReadSlots(Word(slot) + more, names, |others| + 1) == Some([Slot(slot, name)] + others)
  {
    hide Word, ReadWord, ReadName;
    WordIsRead(slot);
    assert (Word(slot) + more)[..4] == Word(slot) && (Word(slot) + more)[4..] == more;
  }

  lemma {:induction false} SlotsAreRead(slots: seq<u32>, all: seq<Symbol>, rest: Bytes)
    requires |slots| == |all| && forall x <- all :: 0 !in x.name
    ensures ReadSlots(Words(slots), Names(all) + rest, |all|) == Some(SlotsOf(slots, all))
    decreases |all|
  {
    hide Word, ReadName;
    if all == [] {
      assert SlotsOf(slots, all) == [];
    } else {
      hide ReadSlots;
      assert all[0] in all;
      var names, others := Names(all[1..]) + rest, SlotsOf(slots[1..], all[1..]);
      NameIsRead(all[0].name, names);
      assert Names(all) + rest == all[0].name + [0] + names;
      SlotsAreRead(slots[1..], all[1..], rest);
      OneSlotIsRead(slots[0], Words(slots[1..]), Names(all) + rest, all[0].name, names, others);
      assert SlotsOf(slots, all) == [Slot(slots[0], all[0].name)] + others;
    }
  }

  // Names and slots line up.
  lemma IndexIsRead(slots: seq<u32>, all: seq<Symbol>)
    requires |slots| == |all| < U32_LIMIT && forall x <- all :: 0 !in x.name
    ensures ReadIndex(Index(slots, all)) == Some(SlotsOf(slots, all))
  {
    hide Word, ReadWord, Words, Names, ReadSlots;
    var used := 4 + 4 * |all| + |Names(all)|;
    var rest := Zeros((4 - used % 4) % 4);
    WordIsRead(|all|);
    SlotsAreRead(slots, all, rest);
    SplitIndex(Word(|all|), Words(slots), Names(all), rest);
  }

  lemma SplitIndex(count: Bytes, slots: Bytes, names: Bytes, rest: Bytes)
    requires |count| == 4
    ensures var index := count + slots + names + rest;
      index[..4] == count && index[4..4 + |slots|] == slots && index[4 + |slots|..] == names + rest
  {
  }

  // ---- where the index is in an image ----

  function IndexAt(time: nat, all: seq<Symbol>): nat {
    |MAGIC| + |Header(INDEX_NAME, time, 0, 0, 0, IndexSize(all))|
  }

  // The k-th slot, read from the bytes of the image.
  function SlotIn(image: Bytes, time: nat, all: seq<Symbol>, k: nat): u32
    requires |image| >= IndexAt(time, all) + 8 + 4 * k
  {
    var at := IndexAt(time, all) + 4 + 4 * k;
    ReadWord(image[at..at + 4])
  }

  lemma IndexIsWritten(files: seq<Record>, all: seq<Symbol>, slots: seq<u32>, time: nat)
    requires |slots| == |all| < U32_LIMIT
    ensures var image, at := Written(files, all, slots, time), IndexAt(time, all);
      |image| >= at + IndexSize(all) && image[at..at + IndexSize(all)] == Index(slots, all)
  {
    hide Header, StringsChunk, Members, Index, IndexSize, Strings, Refs, StringsAt, MembersAt;
    IndexLength(slots, all);
    var head, index := Header(INDEX_NAME, time, 0, 0, 0, IndexSize(all)), Index(slots, all);
    var image := Written(files, all, slots, time);
    var rest := image[IndexAt(time, all) + |index|..];
    assert image == MAGIC + head + index + rest;
  }

  lemma {:induction false} WordAt(slots: seq<u32>, k: nat)
    requires k < |slots|
    ensures Words(slots)[4 * k..4 * k + 4] == Word(slots[k])
  {
    hide Word;
    if k > 0 {
      var first, rest := Word(slots[0]), Words(slots[1..]);
      WordAt(slots[1..], k - 1);
      SliceBehind(first, rest, 4 * k, 4 * k + 4);
    }
  }

  lemma SlotInIndex(slots: seq<u32>, all: seq<Symbol>, k: nat)
    requires |slots| == |all| < U32_LIMIT && k < |slots|
    ensures |Index(slots, all)| >= 8 + 4 * k && ReadWord(Index(slots, all)[4 + 4 * k..8 + 4 * k]) == slots[k]
  {
    hide Word, ReadWord, Words, Names, Zeros;
    WordAt(slots, k);
    WordIsRead(slots[k]);
    var count, words := Word(|all|), Words(slots);
    var rest := Names(all) + Zeros((4 - (4 + 4 * |all| + |Names(all)|) % 4) % 4);
    assert Index(slots, all) == count + words + rest;
    assert (count + words + rest)[4 + 4 * k..8 + 4 * k] == words[4 * k..4 * k + 4];
  }

  lemma SlotIsWritten(files: seq<Record>, all: seq<Symbol>, slots: seq<u32>, time: nat, k: nat)
    requires |slots| == |all| < U32_LIMIT && k < |slots|
    ensures var image := Written(files, all, slots, time);
      |image| >= IndexAt(time, all) + 8 + 4 * k && SlotIn(image, time, all, k) == slots[k]
  {
    hide Written, Index, ReadWord, IndexSize, IndexAt;
    IndexIsWritten(files, all, slots, time);
    IndexLength(slots, all);
    SlotInIndex(slots, all, k);
    var image, at := Written(files, all, slots, time), IndexAt(time, all);
    SliceOfSlice(image, at, IndexSize(all), 4 + 4 * k, 8 + 4 * k);
  }

  lemma SliceOfSlice(s: Bytes, at: nat, size: nat, a: nat, b: nat)
    requires at + size <= |s| && a <= b <= size
    ensures s[at..at + size][a..b] == s[at + a..at + b]
  {
    var piece := s[at..at + size];
    assert |piece| == size && |piece[a..b]| == b - a == |s[at + a..at + b]|;
    forall i | 0 <= i < b - a ensures piece[a..b][i] == s[at + a..at + b][i] {
      assert piece[a..b][i] == piece[a + i] == s[at + a + i];
    }
  }

  // ---- the members are where the slots say ----

  lemma {:induction false} MemberAt(at: nat, files: seq<Record>, refs: seq<Bytes>, i: nat)
    requires |refs| == |files| && i < |files|
    ensures var s := Starts(at, files, refs)[i];
      at <= s <= at + |Members(at, files, refs)| && Members(at, files, refs)[s - at..] ==
        Members(s, files[i..], refs[i..])
    decreases i
  {
    hide Chunk, MemberHeader;
    if i > 0 {
      var c := Chunk(at, MemberHeader(files[0], refs[0]), files[0].data);
      MemberAt(at + |c|, files[1..], refs[1..], i - 1);
      var s, rest := Starts(at, files, refs)[i], Members(at + |c|, files[1..], refs[1..]);
      assert files[1..][i - 1..] == files[i..] && refs[1..][i - 1..] == refs[i..];
      assert (c + rest)[s - at..] == rest[s - (at + |c|)..];
    } else {
      assert files[0..] == files && refs[0..] == refs;
    }
  }

  // Whatever is written where, the next header comes at an even position.
  lemma ChunkEndsEven(at: nat, head: Bytes, data: Bytes)
    ensures (at + |Chunk(at, head, data)|) % 2 == 0
  {
  }

  lemma {:induction false} StartsAreEven(at: nat, files: seq<Record>, refs: seq<Bytes>, i: nat)
    requires at % 2 == 0 && |refs| == |files| && i < |files|
    ensures Starts(at, files, refs)[i] % 2 == 0
    decreases i
  {
    hide Chunk, MemberHeader;
    if i > 0 {
      var c := Chunk(at, MemberHeader(files[0], refs[0]), files[0].data);
      ChunkEndsEven(at, MemberHeader(files[0], refs[0]), files[0].data);
      StartsAreEven(at + |c|, files[1..], refs[1..], i - 1);
    }
  }

  // The members begin at MembersAt, an even place, whatever the slots hold.
  lemma {:induction false} WrittenParts(files: seq<Record>, all: seq<Symbol>, slots: seq<u32>, time: nat)
    requires |slots| == |all| < U32_LIMIT
    ensures var at := MembersAt(time, all, Strings(files));
      && at % 2 == 0 && at <= |Written(files, all, slots, time)|
      && Written(files, all, slots, time)[at..] == Members(at, files, Refs([], files))
  {
    hide Header, Members, Refs, Index, IndexSize, Strings, Chunk, Zeros;
    var index, strings := Index(slots, all), Strings(files);
    IndexLength(slots, all);
    ChunkSize(time, index, Zeros(IndexSize(all)));
    var head := MAGIC + IndexChunk(time, index) + StringsChunk(StringsAt(time, all), time, strings);
    ChunkEndsEven(StringsAt(time, all), Header(STRINGS_NAME, time, 0, 0, 0, |strings|), strings);
    assert |head| == MembersAt(time, all, strings);
    assert (head + Members(|head|, files, Refs([], files)))[|head|..] == Members(|head|, files, Refs([], files));
  }

  // At its start a member has its header, and its data behind it.
  lemma {:induction false} MemberIsWritten(files: seq<Record>, all: seq<Symbol>, slots: seq<u32>, time: nat, i: nat)
    requires |slots| == |all| < U32_LIMIT && i < |files|
    ensures var image, refs := Written(files, all, slots, time), Refs([], files);
      var at := Starts(MembersAt(time, all, Strings(files)), files, refs)[i];
      at % 2 == 0 && at <= |image| && MemberHeader(files[i], refs[i]) + files[i].data <= image[at..]
  {
    hide Written, Members, Refs, Strings, Starts, MembersAt, MemberHeader;
    var image, refs := Written(files, all, slots, time), Refs([], files);
    var membersAt := MembersAt(time, all, Strings(files));
    var at := Starts(membersAt, files, refs)[i];
    WrittenParts(files, all, slots, time);
    StartsAreEven(membersAt, files, refs, i);
    MemberAt(membersAt, files, refs, i);
    UnfoldMembers(at, files[i..], refs[i..]);
    assert image[at..] == image[membersAt..][at - membersAt..];
  }

  // For any files: every slot of the index, read from the bytes of the image, is the even
  // position of the header of the member that defines the symbol.
  lemma {:induction false} SlotFindsOwner(files: seq<Record>, symbols: Bytes -> seq<Bytes>, time: nat, k: nat)
    requires Image(files, symbols, time).Some? && k < |AllSymbols(files, symbols, 0)|
    ensures var image, all, refs := Image(files, symbols, time).value, AllSymbols(files, symbols, 0), Refs([], files);
      && |image| >= IndexAt(time, all) + 8 + 4 * k && all[k].owner < |files|
      && var at, owner := SlotIn(image, time, all, k), all[k].owner;
        at % 2 == 0 && at <= |image| && MemberHeader(files[owner], refs[owner]) + files[owner].data <= image[at..]
  {
    hide AllSymbols, Written, Refs, Starts, MembersAt, Strings, IndexAt, IsAscii, SlotIn, MemberHeader;
    var all, slots := AllSymbols(files, symbols, 0), Packed(Positions(files, symbols, time));
    OwnersExist(files, symbols, 0);
    assert all[k] in all;
    SlotIsWritten(files, all, slots, time, k);
    MemberIsWritten(files, all, slots, time, all[k].owner);
  }

  // And if no name holds a zero, all slots with their names are read from the image.
  lemma {:induction false} IndexInImage(files: seq<Record>, symbols: Bytes -> seq<Bytes>, time: nat)
    requires Image(files, symbols, time).Some? && forall x <- AllSymbols(files, symbols, 0) :: 0 !in x.name
    ensures var image, all := Image(files, symbols, time).value, AllSymbols(files, symbols, 0);
      && |image| >= IndexAt(time, all) + IndexSize(all)
      && ReadIndex(image[IndexAt(time, all)..IndexAt(time, all) + IndexSize(all)])
        == Some(SlotsOf(Packed(Positions(files, symbols, time)), all))
  {
    hide AllSymbols, Written, Positions, IndexAt, IndexSize, IsAscii, ReadIndex, SlotsOf;
    var all, slots := AllSymbols(files, symbols, 0), Packed(Positions(files, symbols, time));
    IndexIsWritten(files, all, slots, time);
    IndexIsRead(slots, all);
  }

  // Where the owner's fields fit, the header at the slot is read as the owner's.
  lemma {:induction false} SlotIsReadAsOwner(files: seq<Record>, symbols: Bytes -> seq<Bytes>, time: nat, k: nat)
    requires Image(files, symbols, time).Some? && k < |AllSymbols(files, symbols, 0)|
    requires var owner := AllSymbols(files, symbols, 0)[k].owner;
      owner < |files| && FitsHeader(files[owner]) && |Refs([], files)[owner]| <= 16 && IsAscii(Refs([], files)[owner])
    ensures var image, all, refs := Image(files, symbols, time).value, AllSymbols(files, symbols, 0), Refs([], files);
      && |image| >= IndexAt(time, all) + 8 + 4 * k
      && var at, owner := SlotIn(image, time, all, k), all[k].owner;
        && at <= |image| && ReadHead(image[at..]) == Some(HeadOf(files[owner], refs[owner]))
        && |image[at..]| >= HEADER + files[owner].size
        && image[at..][HEADER..HEADER + files[owner].size] == files[owner].data
  {
    hide Image, AllSymbols, Refs, IndexAt, IsAscii, SlotIn, MemberHeader, ReadHead, HeadOf;
    SlotFindsOwner(files, symbols, time, k);
    var image, all := Image(files, symbols, time).value, AllSymbols(files, symbols, 0);
    var at, f, ref := SlotIn(image, time, all, k), files[all[k].owner], Refs([], files)[all[k].owner];
    var head := MemberHeader(f, ref);
    var tail := image[at..][|head|..];
    HeadIsRead(f, ref, tail);
    assert image[at..] == head + tail;
  }

  lemma UnfoldMembers(at: nat, files: seq<Record>, refs: seq<Bytes>)
    requires |refs| == |files| && files != []
    ensures var c := Chunk(at, MemberHeader(files[0], refs[0]), files[0].data);
      Members(at, files, refs) == c + Members(at + |c|, files[1..], refs[1..])
  {
    hide Chunk, MemberHeader;
  }
}
