// An archive that tools/ar.py writes is read back as it was.
module ArRoundTrip {
  import opened Machine
  import opened ArText
  import opened ArImage

  // ---- one header ----

  // The numbers fit the widths of their fields.
  predicate FitsFields(time: nat, uid: nat, gid: nat, mode: nat, size: nat) {
    && |Digits(time, Decimal)| <= 12 && |Digits(uid, Decimal)| <= 6 && |Digits(gid, Decimal)| <= 6
    && |Digits(mode, Octal)| <= 8 && |Digits(size, Decimal)| <= 10
  }

  lemma {:induction false} HeaderParts(name: Bytes, time: nat, uid: nat, gid: nat, mode: nat, size: nat)
    requires |name| <= 16 && FitsFields(time, uid, gid, mode, size)
    ensures var h := Header(name, time, uid, gid, mode, size);
      && |h| == HEADER
      && h[..16] == Field(name, 16) && h[16..28] == Field(Digits(time, Decimal), 12)
      && h[28..34] == Field(Digits(uid, Decimal), 6) && h[34..40] == Field(Digits(gid, Decimal), 6)
      && h[40..48] == Field(Digits(mode, Octal), 8) && h[48..58] == Field(Digits(size, Decimal), 10) && h[58..60] == END
  {
    hide Digits, Field;
    FieldWidth(name, 16);
    FieldWidth(Digits(time, Decimal), 12);
    FieldWidth(Digits(uid, Decimal), 6);
    FieldWidth(Digits(gid, Decimal), 6);
    FieldWidth(Digits(mode, Octal), 8);
    FieldWidth(Digits(size, Decimal), 10);
    SlicesOf(
      Field(name, 16), Field(Digits(time, Decimal), 12), Field(Digits(uid, Decimal), 6), Field(Digits(gid, Decimal), 6),
      Field(Digits(mode, Octal), 8), Field(Digits(size, Decimal), 10), END);
  }

  lemma FieldWidth(s: Bytes, width: nat)
    requires |s| <= width
    ensures |Field(s, width)| == width
  {
  }

  lemma SlicesOf(name: Bytes, time: Bytes, uid: Bytes, gid: Bytes, mode: Bytes, size: Bytes, end: Bytes)
    requires |name| == 16 && |time| == 12 && |uid| == 6 && |gid| == 6 && |mode| == 8 && |size| == 10 && |end| == 2
    ensures var h := name + time + uid + gid + mode + size + end;
      && |h| == HEADER && h[..16] == name && h[16..28] == time && h[28..34] == uid && h[34..40] == gid
      && h[40..48] == mode && h[48..58] == size && h[58..60] == end
  {
  }

  lemma AsciiJoins(a: Bytes, b: Bytes)
    requires IsAscii(a) && IsAscii(b)
    ensures IsAscii(a + b)
  {
  }

  lemma HeaderIsAscii(name: Bytes, time: nat, uid: nat, gid: nat, mode: nat, size: nat)
    requires |name| <= 16 && IsAscii(name) && FitsFields(time, uid, gid, mode, size)
    ensures IsAscii(Header(name, time, uid, gid, mode, size))
  {
    hide Digits, Field, IsAscii;
    NumberField(time, Decimal, 12);
    NumberField(uid, Decimal, 6);
    NumberField(gid, Decimal, 6);
    NumberField(mode, Octal, 8);
    NumberField(size, Decimal, 10);
    NameField(name);
    var h1 := Field(name, 16) + Field(Digits(time, Decimal), 12);
    AsciiJoins(Field(name, 16), Field(Digits(time, Decimal), 12));
    var h2 := h1 + Field(Digits(uid, Decimal), 6);
    AsciiJoins(h1, Field(Digits(uid, Decimal), 6));
    var h3 := h2 + Field(Digits(gid, Decimal), 6);
    AsciiJoins(h2, Field(Digits(gid, Decimal), 6));
    var h4 := h3 + Field(Digits(mode, Octal), 8);
    AsciiJoins(h3, Field(Digits(mode, Octal), 8));
    var h5 := h4 + Field(Digits(size, Decimal), 10);
    AsciiJoins(h4, Field(Digits(size, Decimal), 10));
    AsciiJoins(h5, END);
  }

  lemma NameField(name: Bytes)
    requires IsAscii(name)
    ensures IsAscii(Field(name, 16)) && IsAscii(END)
  {
  }

  // A header that is written is read back; of the name, what is left when blanks are stripped.
  lemma HeaderIsRead(name: Bytes, time: nat, uid: nat, gid: nat, mode: nat, size: nat, tail: Bytes)
    requires |name| <= 16 && IsAscii(name) && FitsFields(time, uid, gid, mode, size)
    ensures |Header(name, time, uid, gid, mode, size)| == HEADER
    ensures ReadHead(Header(name, time, uid, gid, mode, size) + tail)
      == Some(Head(Strip(Field(name, 16)), time, uid, gid, mode, size))
  {
    hide Digits, Field, Strip, Number, Header, IsAscii;
    var h := Header(name, time, uid, gid, mode, size);
    HeaderParts(name, time, uid, gid, mode, size);
    HeaderIsAscii(name, time, uid, gid, mode, size);
    NumberField(time, Decimal, 12);
    NumberField(uid, Decimal, 6);
    NumberField(gid, Decimal, 6);
    NumberField(mode, Octal, 8);
    NumberField(size, Decimal, 10);
    var rest := h + tail;
    assert rest[..HEADER] == h && rest[..16] == h[..16] && rest[16..28] == h[16..28] && rest[28..34] == h[28..34];
    assert rest[34..40] == h[34..40] && rest[40..48] == h[40..48];
    assert rest[48..58] == h[48..58] && rest[58..60] == h[58..60];
  }

  // ---- one chunk ----

  lemma {:induction false} ChunkIsRead(at: nat, head: Bytes, h: Head, data: Bytes, more: Bytes, r: Reading)
    requires at % 2 == 0 && |head| == HEADER && h.size == |data|
    requires ReadHead(head + (data + Pad(at + |head| + |data|) + more)) == Some(h)
    ensures (at + |Chunk(at, head, data)|) % 2 == 0
    ensures ReadAll(Chunk(at, head, data) + more, r) == match Enter(r, h, data)
      case None => None
      case Some(r1) => ReadAll(more, r1)
  {
    hide ReadHead, Enter;
    var pad := Pad(at + |head| + |data|);
    var rest := Chunk(at, head, data) + more;
    assert rest == head + (data + pad + more);
    assert rest[HEADER..HEADER + |data|] == data;
    assert |pad| == h.size % 2;
    assert From(rest, HEADER + h.size + h.size % 2) == more;
  }

  // ---- names ----

  // A short name must not look like one of the special members, nor begin with a blank; a long
  // one must not hold a line break.
  predicate GoodName(name: Bytes) {
    if IsLong(name) then NEWLINE !in name else name != [] && name[0] != SLASH && !IsBlank(name[0])
  }

  lemma {:induction false} DigitsMonotone(a: nat, b: nat)
    requires a <= b
    ensures |Digits(a, Decimal)| <= |Digits(b, Decimal)|
    decreases b
  {
    if a >= 10 {
      DigitsMonotone(a / 10, b / 10);
    }
  }

  lemma {:induction false} TableGrows(table: Bytes, files: seq<Record>)
    ensures table <= Table(table, files)
    decreases |files|
  {
    if files != [] {
      var t := Listed(table, files[0].name);
      assert table <= t;
      TableGrows(t, files[1..]);
      assert t <= Table(t, files[1..]);
    }
  }

  lemma {:induction false} FirstLineIs(s: Bytes, more: Bytes)
    requires NEWLINE !in s
    ensures FirstLine(s + [NEWLINE] + more) == s
  {
    if s == [] {
      assert (s + [NEWLINE] + more)[0] == NEWLINE;
    } else {
      assert (s + [NEWLINE] + more)[1..] == s[1..] + [NEWLINE] + more;
      FirstLineIs(s[1..], more);
    }
  }

  lemma {:induction false} FirstLineShort(s: Bytes, more: Bytes)
    requires NEWLINE in s
    ensures |FirstLine(s + more)| < |s|
  {
    if s[0] != NEWLINE {
      assert (s + more)[1..] == s[1..] + more;
      FirstLineShort(s[1..], more);
    }
  }

  // A reference into the table: a slash and a number.
  lemma {:induction false} ReferenceIsRead(at: nat, strings: Bytes)
    requires at <= |strings| && |Digits(|strings|, Decimal)| <= 10
    ensures var ref := [SLASH] + Digits(at, Decimal);
      && Trimmed(ref) && IsAscii(ref) && |ref| <= 16 && ref != INDEX_NAME && ref != STRINGS_NAME
      && NameOf(ref, Some(strings)) == Some(FirstLine(strings[at..]))
  {
    hide FirstLine, Digits, Strip, Number;
    var digits := Digits(at, Decimal);
    DigitsMonotone(at, |strings|);
    NumberOfDigits(at, Decimal);
    var ref := [SLASH] + digits;
    assert ref[1..] == digits && digits[|digits| - 1] in digits && digits[0] in digits;
    assert ref[|ref| - 1] == digits[|digits| - 1];
    StripSpaces(digits, 0);
    assert digits + Spaces(0) == digits;
  }

  // A long name is found in the table at the place its header gives.
  lemma {:induction false} LongNameIsFound(table: Bytes, name: Bytes, strings: Bytes)
    requires IsLong(name) && Listed(table, name) <= strings && |Digits(|strings|, Decimal)| <= 10
    ensures |table| <= |strings|
    ensures var ref := RefOf(table, name);
      && Trimmed(ref) && IsAscii(ref) && |ref| <= 16 && ref != INDEX_NAME && ref != STRINGS_NAME
      && NameOf(ref, Some(strings)) == Some(FirstLine(strings[|table|..]))
    ensures NEWLINE !in name ==> FirstLine(strings[|table|..]) == name + [SLASH]
    ensures NEWLINE in name ==> |FirstLine(strings[|table|..])| < |name|
  {
    hide FirstLine, Digits, NameOf, Trimmed;
    ReferenceIsRead(|table|, strings);
    var more := ListedAt(table, name, strings);
    if NEWLINE in name {
      assert strings[|table|..] == name + ([SLASH, NEWLINE] + more);
      FirstLineShort(name, [SLASH, NEWLINE] + more);
    } else {
      FirstLineIs(name + [SLASH], more);
    }
  }

  lemma ListedAt(table: Bytes, name: Bytes, strings: Bytes) returns (more: Bytes)
    requires IsLong(name) && Listed(table, name) <= strings
    ensures |table| <= |strings| && strings[|table|..] == name + [SLASH] + [NEWLINE] + more
    ensures strings[|table|..] == name + ([SLASH, NEWLINE] + more)
  {
    var line := name + [SLASH, NEWLINE];
    assert table + line <= Listed(table, name);
    more := strings[|table + line|..];
    assert strings == table + line + more;
  }

  // ---- one member ----

  predicate FitsHeader(f: Record) {
    f.size == |f.data| && FitsFields(f.time, f.uid, f.gid, f.mode, f.size) && IsAscii(f.name)
  }

  // What a member's header says once it is read.
  function HeadOf(f: Record, ref: Bytes): Head {
    Head(Strip(Field(ref, 16)), f.time, f.uid, f.gid, f.mode, f.size)
  }

  lemma {:induction false} StripRightShrinks(s: Bytes)
    ensures |StripRight(s)| <= |s| && (s != [] && !IsBlank(s[|s| - 1]) ==> StripRight(s) == s)
  {
    if s != [] && IsBlank(s[|s| - 1]) {
      StripRightShrinks(s[..|s| - 1]);
    }
  }

  lemma {:induction false} StripLeftShrinks(s: Bytes)
    ensures |StripLeft(s)| <= |s| && (s != [] && IsBlank(s[0]) ==> |StripLeft(s)| < |s|)
  {
    if s != [] && IsBlank(s[0]) {
      StripLeftShrinks(s[1..]);
    }
  }

  lemma {:induction false} StripRightSpaces(s: Bytes, n: nat)
    requires s != [] && !IsBlank(s[|s| - 1])
    ensures StripRight(s + Spaces(n)) == s
    decreases n
  {
    if n == 0 {
      assert s + Spaces(0) == s;
    } else {
      assert (s + Spaces(n))[..|s| + n - 1] == s + Spaces(n - 1);
      StripRightSpaces(s, n - 1);
    }
  }

  // A short name in its field, read back: the blanks in front are lost.
  lemma {:induction false} ShortNameField(name: Bytes)
    requires !IsLong(name)
    ensures Strip(Field(name + [SLASH], 16)) == StripLeft(name + [SLASH])
    ensures name != [] && IsBlank(name[0]) ==> |Strip(Field(name + [SLASH], 16))| < |name| + 1
    ensures name == [] || !IsBlank(name[0]) ==> Strip(Field(name + [SLASH], 16)) == name + [SLASH]
  {
    var s := name + [SLASH];
    StripRightSpaces(s, 16 - |s|);
    assert s + Spaces(0) == s;
    StripLeftShrinks(s);
  }

  // A member comes back as it was exactly if its name is a good one.
  lemma {:induction false} MemberComesBack(f: Record, table: Bytes, strings: Bytes, r: Reading)
    requires FitsHeader(f) && Listed(table, f.name) <= strings && |Digits(|strings|, Decimal)| <= 10
    requires r.strings == Some(strings)
    ensures Enter(r, HeadOf(f, RefOf(table, f.name)), f.data) == Some(r.(files := r.files + [f])) <==> GoodName(f.name)
    ensures |RefOf(table, f.name)| <= 16 && IsAscii(RefOf(table, f.name))
  {
    var ref := RefOf(table, f.name);
    if IsLong(f.name) {
      LongNameIsFound(table, f.name, strings);
      FieldIsStripped(ref, 16);
      LongComesBack(f, ref, strings[|table|..], strings, r);
    } else {
      ShortNameField(f.name);
      ShortComesBack(f, strings, r);
    }
  }

  lemma {:induction false} LongComesBack(f: Record, ref: Bytes, line: Bytes, strings: Bytes, r: Reading)
    requires r.strings == Some(strings) && ref != INDEX_NAME && ref != STRINGS_NAME && Strip(Field(ref, 16)) == ref
    requires NameOf(ref, Some(strings)) == Some(FirstLine(line)) && f.size == |f.data|
    requires NEWLINE !in f.name ==> FirstLine(line) == f.name + [SLASH]
    requires NEWLINE in f.name ==> |FirstLine(line)| < |f.name|
    ensures Enter(r, HeadOf(f, ref), f.data) == Some(r.(files := r.files + [f])) <==> NEWLINE !in f.name
  {
    hide FirstLine, NameOf, Strip, Field;
    var x := Record(DropLast(FirstLine(line)), f.time, f.uid, f.gid, f.mode, f.size, f.data);
    assert Enter(r, HeadOf(f, ref), f.data) == Some(r.(files := r.files + [x]));
    assert (r.files + [x])[|r.files|] == x && (r.files + [f])[|r.files|] == f;
  }

  lemma ShortComesBack(f: Record, strings: Bytes, r: Reading)
    requires !IsLong(f.name) && r.strings == Some(strings) && f.size == |f.data|
    requires Strip(Field(f.name + [SLASH], 16)) == StripLeft(f.name + [SLASH])
    requires f.name != [] && IsBlank(f.name[0]) ==> |Strip(Field(f.name + [SLASH], 16))| < |f.name| + 1
    requires f.name == [] || !IsBlank(f.name[0]) ==> Strip(Field(f.name + [SLASH], 16)) == f.name + [SLASH]
    ensures Enter(r, HeadOf(f, f.name + [SLASH]), f.data) == Some(r.(files := r.files + [f])) <==> GoodName(f.name)
  {
    hide Strip, Field;
    var name := Strip(Field(f.name + [SLASH], 16));
    if f.name == [] {
      assert name == INDEX_NAME;
    } else if IsBlank(f.name[0]) {
      StripLeftKeepsEnd(f.name);
      BlankNameIsLost(f, name, r);
    } else if f.name[0] == SLASH {
      NotANumber(f.name);
      assert name[1..] == f.name[1..] + [SLASH];
    } else {
      assert DropLast(name) == f.name;
    }
  }

  lemma BlankNameIsLost(f: Record, name: Bytes, r: Reading)
    requires |name| < |f.name| + 1 && name != [] && name[|name| - 1] == SLASH
    ensures Enter(r, Head(name, f.time, f.uid, f.gid, f.mode, f.size), f.data) != Some(r.(files := r.files + [f]))
  {
    hide Strip, FirstLine, Number;
    if name != INDEX_NAME && name != STRINGS_NAME && name[0] == SLASH {
      NotANumber(name[..|name| - 1]);
      assert name[..|name| - 1][1..] + [SLASH] == name[1..];
    } else if name[0] != SLASH {
      var x := Record(DropLast(name), f.time, f.uid, f.gid, f.mode, f.size, f.data);
      assert (r.files + [x])[|r.files|] == x && (r.files + [f])[|r.files|] == f;
    }
  }

  lemma {:induction false} StripLeftKeepsEnd(s: Bytes)
    ensures StripLeft(s + [SLASH]) != [] && StripLeft(s + [SLASH])[|StripLeft(s + [SLASH])| - 1] == SLASH
  {
    if s != [] && IsBlank(s[0]) {
      assert (s + [SLASH])[1..] == s[1..] + [SLASH];
      StripLeftKeepsEnd(s[1..]);
    }
  }

  // What follows a leading slash of a short name ends in a slash, and is no number.
  lemma NotANumber(name: Bytes)
    requires name != []
    ensures Number(Strip(name[1..] + [SLASH]), Decimal) == None
  {
    var s := name[1..] + [SLASH];
    StripRightShrinks(s);
    StripLeftKeepsEnd(name[1..]);
  }

  // ---- all members ----

  lemma HeadIsRead(f: Record, ref: Bytes, tail: Bytes)
    requires FitsHeader(f) && |ref| <= 16 && IsAscii(ref)
    ensures |MemberHeader(f, ref)| == HEADER && ReadHead(MemberHeader(f, ref) + tail) == Some(HeadOf(f, ref))
  {
    hide Header, ReadHead;
    HeaderIsRead(ref, f.time, f.uid, f.gid, f.mode, f.size, tail);
  }

  // What reading one member does.
  lemma {:induction false} MemberIsRead(at: nat, f: Record, table: Bytes, strings: Bytes, more: Bytes, r: Reading)
    requires at % 2 == 0 && Listed(table, f.name) <= strings && |Digits(|strings|, Decimal)| <= 10 && FitsHeader(f)
    ensures var c := Chunk(at, MemberHeader(f, RefOf(table, f.name)), f.data);
      && (at + |c|) % 2 == 0
      && ReadAll(c + more, r) == match Enter(r, HeadOf(f, RefOf(table, f.name)), f.data)
        case None => None
        case Some(r1) => ReadAll(more, r1)
  {
    hide ReadHead, Enter, ReadAll, MemberHeader, Digits, RefOf, Listed, GoodName, FitsHeader, Chunk;
    var ref := RefOf(table, f.name);
    FitsSize(f);
    MemberComesBack(f, table, strings, Reading(0, Some(strings), []));
    HeadIsRead(f, ref, f.data + Pad(at + HEADER + |f.data|) + more);
    ChunkIsRead(at, MemberHeader(f, ref), HeadOf(f, ref), f.data, more, r);
  }

  lemma MembersFirst(at: nat, files: seq<Record>, table: Bytes)
    requires files != []
    ensures var c := Chunk(at, MemberHeader(files[0], RefOf(table, files[0].name)), files[0].data);
      Members(at, files, Refs(table, files)) ==
        c + Members(at + |c|, files[1..], Refs(Listed(table, files[0].name), files[1..]))
  {
    hide Chunk, MemberHeader, RefOf, Listed;
    assert Refs(table, files)[1..] == Refs(Listed(table, files[0].name), files[1..]);
  }

  lemma {:induction false} NoMembers(at: nat, table: Bytes, r: Reading)
    ensures ReadAll(Members(at, [], Refs(table, [])), r) == Some(r.(files := r.files + []))
  {
    assert r.files + [] == r.files;
  }

  lemma {:induction false} TableFirst(table: Bytes, files: seq<Record>, strings: Bytes)
    requires files != [] && Table(table, files) <= strings
    ensures var next := Listed(table, files[0].name); next <= strings && Table(next, files[1..]) <= strings
  {
    hide Listed;
    TableGrows(Listed(table, files[0].name), files[1..]);
  }

  // A member adds at most one record, and keeps those before it, whatever it is taken for.
  lemma EnterAddsOne(r: Reading, h: Head, data: Bytes)
    ensures var e := Enter(r, h, data);
      e.Some? ==>
        || e.value.files == r.files
        || (|e.value.files| == |r.files| + 1 && e.value == r.(files := e.value.files) && r.files <= e.value.files)
  {
    hide NameOf;
  }

  lemma {:induction false} MembersAddFew(at: nat, files: seq<Record>, table: Bytes, strings: Bytes, r: Reading)
    requires at % 2 == 0 && Table(table, files) <= strings && |Digits(|strings|, Decimal)| <= 10
    requires forall f <- files :: FitsHeader(f)
    ensures var q := ReadAll(Members(at, files, Refs(table, files)), r);
      q.Some? ==> r.files <= q.value.files && |q.value.files| <= |r.files| + |files|
    decreases |files|
  {
    hide MemberHeader, Digits, RefOf, Listed, FitsHeader, Chunk, Refs, Table, ReadAll, Members, Enter, HeadOf;
    if files == [] {
      NoMembers(at, table, r);
    } else {
      var f, next := files[0], Listed(table, files[0].name);
      assert f in files;
      TableFirst(table, files, strings);
      var c := Chunk(at, MemberHeader(f, RefOf(table, f.name)), f.data);
      var more := Members(at + |c|, files[1..], Refs(next, files[1..]));
      MembersFirst(at, files, table);
      MemberIsRead(at, f, table, strings, more, r);
      var h := HeadOf(f, RefOf(table, f.name));
      EnterAddsOne(r, h, f.data);
      if Enter(r, h, f.data).Some? {
        MembersAddFew(at + |c|, files[1..], next, strings, Enter(r, h, f.data).value);
      }
    }
  }

  // All members come back if and only if all have good names: the first bad one is lost, or
  // comes back as another, and nothing behind it makes up for that.
  lemma {:induction false} MembersComeBack(at: nat, files: seq<Record>, table: Bytes, strings: Bytes, r: Reading)
    requires at % 2 == 0 && r.strings == Some(strings) && Table(table, files) <= strings
    requires |Digits(|strings|, Decimal)| <= 10
    requires forall f <- files :: FitsHeader(f)
    ensures ReadAll(Members(at, files, Refs(table, files)), r) == Some(r.(files := r.files + files)) <==>
      forall f <- files :: GoodName(f.name)
    decreases |files|
  {
    hide MemberHeader, Digits, RefOf, Listed, GoodName, FitsHeader, Chunk, Refs, Table, ReadAll, Members, Enter, HeadOf;
    if files == [] {
      NoMembers(at, table, r);
    } else {
      var f, rest, next := files[0], files[1..], Listed(table, files[0].name);
      assert f in files && files == [f] + rest;
      TableFirst(table, files, strings);
      var c := Chunk(at, MemberHeader(f, RefOf(table, f.name)), f.data);
      var more := Members(at + |c|, rest, Refs(next, rest));
      MembersFirst(at, files, table);
      MemberIsRead(at, f, table, strings, more, r);
      MemberComesBack(f, table, strings, r);
      if GoodName(f.name) {
        MembersComeBack(at + |c|, rest, next, strings, r.(files := r.files + [f]));
        assert r.files + [f] + rest == r.files + files;
      } else if Enter(r, HeadOf(f, RefOf(table, f.name)), f.data).Some? {
        var e := Enter(r, HeadOf(f, RefOf(table, f.name)), f.data).value;
        EnterAddsOne(r, HeadOf(f, RefOf(table, f.name)), f.data);
        MembersAddFew(at + |c|, rest, next, strings, e);
        FirstIsSpoiled(r, e, ReadAll(more, e), f, rest);
      }
    }
  }

  lemma FirstIsSpoiled(r: Reading, e: Reading, q: Option<Reading>, f: Record, rest: seq<Record>)
    requires e != r.(files := r.files + [f])
    requires || e.files == r.files
      || (|e.files| == |r.files| + 1 && e == r.(files := e.files) && r.files <= e.files)
    requires q.Some? ==> e.files <= q.value.files && |q.value.files| <= |e.files| + |rest|
    ensures q != Some(r.(files := r.files + ([f] + rest)))
  {
    if q == Some(r.(files := r.files + ([f] + rest))) {
      assert |e.files| == |r.files| + 1;
      assert q.value.files[|r.files|] == f;
      assert e.files == r.files + [f];
    }
  }

  lemma FitsSize(f: Record)
    requires FitsHeader(f)
    ensures f.size == |f.data|
  {
  }

  // ---- the special members ----

  lemma NamesAreTrimmed()
    ensures Strip(Field(INDEX_NAME, 16)) == INDEX_NAME && Strip(Field(STRINGS_NAME, 16)) == STRINGS_NAME
    ensures Number([ZERO], Octal) == Some(0) && |Digits(0, Octal)| == 1 && |Digits(0, Decimal)| == 1
  {
    FieldIsStripped(INDEX_NAME, 16);
    FieldIsStripped(STRINGS_NAME, 16);
  }

  lemma {:induction false} IndexLength(slots: seq<u32>, all: seq<Symbol>)
    requires |slots| == |all| < U32_LIMIT
    ensures |Index(slots, all)| == IndexSize(all)
  {
    hide Names;
  }

  lemma {:induction false} IndexComesBack(index: Bytes, time: nat, more: Bytes, r: Reading)
    requires |Digits(time, Decimal)| <= 12 && |Digits(|index|, Decimal)| <= 10
    ensures (|MAGIC| + |IndexChunk(time, index)|) % 2 == 0
    ensures ReadAll(IndexChunk(time, index) + more, r) == ReadAll(more, r.(time := time))
  {
    hide ReadHead, Header, Digits, Strip, Field, ReadAll;
    NamesAreTrimmed();
    var head := Header(INDEX_NAME, time, 0, 0, 0, |index|);
    HeaderIsRead(INDEX_NAME, time, 0, 0, 0, |index|, index + Pad(|MAGIC| + HEADER + |index|) + more);
    ChunkIsRead(|MAGIC|, head, Head(INDEX_NAME, time, 0, 0, 0, |index|), index, more, r);
  }

  lemma {:induction false} StringsComeBack(at: nat, time: nat, strings: Bytes, more: Bytes, r: Reading)
    requires at % 2 == 0 && |Digits(time, Decimal)| <= 12 && |Digits(|strings|, Decimal)| <= 10 && IsAscii(strings)
    requires r.time == time
    ensures (at + |StringsChunk(at, time, strings)|) % 2 == 0
    ensures ReadAll(StringsChunk(at, time, strings) + more, r) == ReadAll(more, r.(strings := Some(strings)))
  {
    hide ReadHead, Header, Digits, Strip, Field, ReadAll, IsAscii;
    NamesAreTrimmed();
    SlashesAreAscii();
    var head := Header(STRINGS_NAME, time, 0, 0, 0, |strings|);
    HeaderIsRead(STRINGS_NAME, time, 0, 0, 0, |strings|, strings + Pad(at + HEADER + |strings|) + more);
    ChunkIsRead(at, head, Head(STRINGS_NAME, time, 0, 0, 0, |strings|), strings, more, r);
  }

  lemma SlashesAreAscii()
    ensures IsAscii(INDEX_NAME) && IsAscii(STRINGS_NAME)
  {
  }

  lemma {:induction false} TableIsAscii(table: Bytes, files: seq<Record>)
    requires IsAscii(table) && forall f <- files :: IsAscii(f.name)
    ensures IsAscii(Table(table, files))
    decreases |files|
  {
    if files != [] {
      assert files[0] in files;
      TableIsAscii(Listed(table, files[0].name), files[1..]);
    }
  }

  // ---- the whole archive ----

  // The archive's own members fit their fields too.
  predicate IndexFits(files: seq<Record>, all: seq<Symbol>, time: nat) {
    |Digits(time, Decimal)| <= 12 && |Digits(IndexSize(all), Decimal)| <= 10
      && |Digits(|Strings(files)|, Decimal)| <= 10
  }

  // What build_image writes, from_image reads: it gives back all members, with their names,
  // times, owners, modes, sizes and data, if and only if every name is a good one; `moment` is
  // the time at which it is read.
  lemma {:induction false} ImageComesBack(files: seq<Record>, symbols: Bytes -> seq<Bytes>, time: nat, moment: nat)
    requires Image(files, symbols, time).Some?
    requires IndexFits(files, AllSymbols(files, symbols, 0), time) && forall f <- files :: FitsHeader(f)
    ensures FromImage(Image(files, symbols, time).value, moment) == Some(Reading(time, Some(Strings(files)), files))
      <==> forall f <- files :: GoodName(f.name)
  {
    hide ReadAll, AllSymbols, Positions, IndexChunk, StringsChunk, Members, Refs, GoodName, FitsHeader, IsAscii, Digits;
    var all := AllSymbols(files, symbols, 0);
    var slots := Packed(Positions(files, symbols, time));
    WrittenComesBack(files, all, slots, time, moment);
  }

  lemma WrittenComesBack(files: seq<Record>, all: seq<Symbol>, slots: seq<u32>, time: nat, moment: nat)
    requires |slots| == |all| < U32_LIMIT && IndexFits(files, all, time) && forall f <- files :: FitsHeader(f)
    ensures FromImage(Written(files, all, slots, time), moment) == Some(Reading(time, Some(Strings(files)), files)) <==>
      forall f <- files :: GoodName(f.name)
  {
    hide ReadAll, IndexChunk, StringsChunk, Members, Refs, GoodName, Digits, Index, IndexSize, Table, FitsHeader;
    var strings, index := Strings(files), Index(slots, all);
    IndexLength(slots, all);
    AllAscii(files);
    ChunkSize(time, index, Zeros(IndexSize(all)));
    var at, membersAt := StringsAt(time, all), MembersAt(time, all, strings);
    var members := Members(membersAt, files, Refs([], files));
    var more := StringsChunk(at, time, strings) + members;
    var r := Reading(moment, None, []);
    IndexComesBack(index, time, more, r);
    StringsComeBack(at, time, strings, members, r.(time := time));
    MembersComeBack(membersAt, files, [], strings, r.(time := time, strings := Some(strings)));
    assert [] + files == files;
    var image := Written(files, all, slots, time);
    assert image == MAGIC + (IndexChunk(time, index) + more);
    assert image[|MAGIC|..] == IndexChunk(time, index) + more;
  }

  lemma AllAscii(files: seq<Record>)
    requires forall f <- files :: FitsHeader(f)
    ensures IsAscii(Strings(files))
  {
    TableIsAscii([], files);
  }

  lemma ChunkSize(time: nat, index: Bytes, zeros: Bytes)
    requires |index| == |zeros|
    ensures |IndexChunk(time, index)| == |IndexChunk(time, zeros)|
  {
    hide Header;
  }
}
