// tools/patch_ar_meta.py: the times of an archive's index, and the owners and modes of its
// members, are overwritten in the image that is being walked.
module ArPatch {
  import opened Machine
  import opened ArText
  import opened ArImage

  // ---- the walk ----

  // What the walk looks at in a header.
  datatype Glance = Glance(name: Bytes, size: nat)

  function ReadGlance(rest: Bytes): Option<Glance> {
    if |rest| < HEADER || !IsAscii(rest[..16]) then None
    else
      var size :- Number(Strip(rest[48..58]), Decimal);
      if rest[58..60] == END then Some(Glance(Strip(rest[..16]), size)) else None
  }

  // Where the next header is, in what is left; the end at most.
  function Next(rest: Bytes, size: nat): nat {
    var n := HEADER + size + size % 2;
    if n <= |rest| then n else |rest|
  }

  // The times of the index and of the long strings, each as it stands in its header.
  datatype Times = Times(index: Option<Bytes>, strings: Option<Bytes>)

  function FindTimes(rest: Bytes, t: Times): Option<Times>
    decreases |rest|
  {
    if rest == [] then Some(t)
    else
      var g :- ReadGlance(rest);
      FindTimes(rest[Next(rest, g.size)..],
        if g.name == INDEX_NAME then t.(index := Some(rest[16..28]))
        else if g.name == STRINGS_NAME then t.(strings := Some(rest[16..28])) else t)
  }

  // What is written into the headers: two times, an owner, a group and a mode.
  datatype Fields = Fields(indexTime: Bytes, stringsTime: Bytes, uid: Bytes, gid: Bytes, mode: Bytes) {
    predicate WellFormed() {
      |indexTime| == 12 && |stringsTime| == 12 && |uid| == 6 && |gid| == 6 && |mode| == 8
    }
  }

  function NewHead(head: Bytes, name: Bytes, f: Fields): (r: Bytes)
    requires |head| == HEADER && f.WellFormed()
    ensures |r| == HEADER
  {
    if name == INDEX_NAME then head[..16] + f.indexTime + head[28..]
    else if name == STRINGS_NAME then head[..16] + f.stringsTime + head[28..]
    else head[..28] + f.uid + f.gid + f.mode + head[48..]
  }

  function Patched(rest: Bytes, f: Fields): (r: Option<Bytes>)
    requires f.WellFormed()
    ensures r.Some? ==> |r.value| == |rest|
    decreases |rest|
  {
    if rest == [] then Some([])
    else
      var g :- ReadGlance(rest);
      var n := Next(rest, g.size);
      var more :- Patched(rest[n..], f);
      Some(NewHead(rest[..HEADER], g.name, f) + rest[HEADER..n] + more)
  }

  // f"{s:<{width}}".encode("ASCII")[:width]
  function Cut(s: Bytes, width: nat): (r: Bytes)
    ensures |r| == width
  {
    Field(s, width)[..width]
  }

  // ar_patch; the new owner, group and mode are ASCII texts.
  function ArPatched(ar: Bytes, original: Bytes, uid: Bytes, gid: Bytes, mode: Bytes): Option<Bytes> {
    if |ar| <= 0x24 then None
    else
      var t :- FindTimes(From(original, |MAGIC|), Times(None, None));
      if t.index.None? || t.strings.None? || |t.index.value| != 12 || |t.strings.value| != 12 then None
      else
        var more :- Patched(ar[|MAGIC|..],
          Fields(t.index.value, t.strings.value, Cut(uid, 6), Cut(gid, 6), Cut(mode, 8)));
        Some(ar[..|MAGIC|] + more)
  }

  // ---- what stays ----

  // The members as a walk sees them: the name field, the size, and what is behind the header.
  datatype Seen = Seen(field: Bytes, size: nat, content: Bytes)

  function Walk(rest: Bytes): Option<seq<Seen>>
    decreases |rest|
  {
    if rest == [] then Some([])
    else
      var g :- ReadGlance(rest);
      var n := Next(rest, g.size);
      var more :- Walk(rest[n..]);
      Some([Seen(rest[..16], g.size, rest[HEADER..n])] + more)
  }

  // The image with the fields that may change blanked out.
  function Masked(rest: Bytes): Option<Bytes>
    decreases |rest|
  {
    if rest == [] then Some([])
    else
      var g :- ReadGlance(rest);
      var n := Next(rest, g.size);
      var more :- Masked(rest[n..]);
      Some(NewHead(rest[..HEADER], g.name, Blank()) + rest[HEADER..n] + more)
  }

  function Blank(): (r: Fields)
    ensures r.WellFormed()
  {
    Fields(Spaces(12), Spaces(12), Spaces(6), Spaces(6), Spaces(8))
  }

  // A new header looks the same to the walk, and differs only in the fields written.
  lemma NewHeadIsSeen(rest: Bytes, g: Glance, f: Fields, tail: Bytes)
    requires ReadGlance(rest) == Some(g) && f.WellFormed()
    ensures var h := NewHead(rest[..HEADER], g.name, f);
      && ReadGlance(h + tail) == Some(g) && (h + tail)[..16] == rest[..16] && (h + tail)[..HEADER] == h
      && NewHead(h, g.name, Blank()) == NewHead(rest[..HEADER], g.name, Blank())
  {
    hide Strip, Number, IsAscii, Blank;
    var head := rest[..HEADER];
    var h := NewHead(head, g.name, f);
    assert head[..16] == rest[..16] && head[48..58] == rest[48..58] && head[58..60] == rest[58..60];
    NewHeadKeeps(head, g.name, f);
    NewHeadKeeps(head, g.name, Blank());
    NewHeadKeeps(h, g.name, Blank());
    assert (h + tail)[..16] == h[..16] && (h + tail)[48..58] == h[48..58] && (h + tail)[58..60] == h[58..60];
    SameParts(NewHead(h, g.name, Blank()), NewHead(head, g.name, Blank()));
  }

  // The parts of a new header.
  lemma NewHeadKeeps(head: Bytes, name: Bytes, f: Fields)
    requires |head| == HEADER && f.WellFormed()
    ensures var r := NewHead(head, name, f);
      && r[..16] == head[..16] && r[48..58] == head[48..58] && r[58..60] == head[58..60]
      && r[16..28] ==
        (if name == INDEX_NAME then f.indexTime else if name == STRINGS_NAME then f.stringsTime else head[16..28])
      && r[28..34] == (if name == INDEX_NAME || name == STRINGS_NAME then head[28..34] else f.uid)
      && r[34..40] == (if name == INDEX_NAME || name == STRINGS_NAME then head[34..40] else f.gid)
      && r[40..48] == (if name == INDEX_NAME || name == STRINGS_NAME then head[40..48] else f.mode)
  {
    if name == INDEX_NAME {
      TimeIsWritten(head, f.indexTime);
    } else if name == STRINGS_NAME {
      TimeIsWritten(head, f.stringsTime);
    } else {
      OwnerIsWritten(head, f.uid, f.gid, f.mode);
    }
  }

  lemma TimeIsWritten(head: Bytes, time: Bytes)
    requires |head| == HEADER && |time| == 12
    ensures var r := head[..16] + time + head[28..];
      && r[..16] == head[..16] && r[16..28] == time && r[28..34] == head[28..34] && r[34..40] == head[34..40]
      && r[40..48] == head[40..48] && r[48..58] == head[48..58] && r[58..60] == head[58..60]
  {
  }

  lemma OwnerIsWritten(head: Bytes, uid: Bytes, gid: Bytes, mode: Bytes)
    requires |head| == HEADER && |uid| == 6 && |gid| == 6 && |mode| == 8
    ensures var r := head[..28] + uid + gid + mode + head[48..];
      && r[..16] == head[..16] && r[16..28] == head[16..28] && r[28..34] == uid && r[34..40] == gid
      && r[40..48] == mode && r[48..58] == head[48..58] && r[58..60] == head[58..60]
  {
  }

  lemma SameParts(a: Bytes, b: Bytes)
    requires |a| == |b| == HEADER && a[..16] == b[..16] && a[16..28] == b[16..28] && a[28..34] == b[28..34]
    requires a[34..40] == b[34..40] && a[40..48] == b[40..48] && a[48..58] == b[48..58] && a[58..60] == b[58..60]
    ensures a == b
  {
    assert a == a[..16] + a[16..28] + a[28..34] + a[34..40] + a[40..48] + a[48..58] + a[58..60];
    assert b == b[..16] + b[16..28] + b[28..34] + b[34..40] + b[40..48] + b[48..58] + b[58..60];
  }

  // Patching keeps the archive walkable: the length, the positions, names and sizes of the
  // members and their contents stay; and nothing but the fields written changes.
  lemma {:induction false} PatchKeeps(rest: Bytes, f: Fields)
    requires f.WellFormed() && Patched(rest, f).Some?
    ensures Walk(Patched(rest, f).value) == Walk(rest) && Walk(rest).Some?
    ensures Masked(Patched(rest, f).value) == Masked(rest) && Masked(rest).Some?
    decreases |rest|
  {
    hide ReadGlance, NewHead, Blank;
    if rest != [] {
      var g := ReadGlance(rest).value;
      var n := Next(rest, g.size);
      var h, content, more := NewHead(rest[..HEADER], g.name, f), rest[HEADER..n], Patched(rest[n..], f).value;
      PatchKeeps(rest[n..], f);
      NewHeadIsSeen(rest, g, f, content + more);
      var r := h + (content + more);
      assert Patched(rest, f).value == r;
      assert Next(r, g.size) == n && r[HEADER..n] == content && r[n..] == more;
    }
  }

  // ---- a patched archive is read as the same members with the new metadata ----

  datatype Numbers = Numbers(time: nat, uid: nat, gid: nat, mode: nat)

  // The new fields are numeric, and the two times agree.
  predicate Numeric(f: Fields, v: Numbers) {
    && f.WellFormed()
    && IsAscii(f.indexTime) && IsAscii(f.stringsTime) && IsAscii(f.uid) && IsAscii(f.gid) && IsAscii(f.mode)
    && Number(Strip(f.indexTime), Decimal) == Number(Strip(f.stringsTime), Decimal) == Some(v.time)
    && Number(Strip(f.uid), Decimal) == Some(v.uid) && Number(Strip(f.gid), Decimal) == Some(v.gid)
    && Number(Strip(f.mode), Octal) == Some(v.mode)
  }

  function Renewed(files: seq<Record>, v: Numbers): (r: seq<Record>)
    ensures |r| == |files|
  {
    seq(|files|, i requires 0 <= i < |files| => files[i].(uid := v.uid, gid := v.gid, mode := v.mode))
  }

  // Whether an index has been met behind `rest`, and whether no long strings come before it.
  function IndexMet(rest: Bytes, met: bool): bool
    decreases |rest|
  {
    if rest == [] || ReadGlance(rest).None? then met
    else
      var g := ReadGlance(rest).value;
      IndexMet(rest[Next(rest, g.size)..], met || g.name == INDEX_NAME)
  }

  predicate IndexFirst(rest: Bytes, met: bool)
    decreases |rest|
  {
    rest == [] || ReadGlance(rest).None? ||
    var g := ReadGlance(rest).value;
    && (g.name == STRINGS_NAME ==> met)
    && IndexFirst(rest[Next(rest, g.size)..], met || g.name == INDEX_NAME)
  }

  function NewNumbers(h: Head, v: Numbers): Head {
    if h.name == INDEX_NAME || h.name == STRINGS_NAME then h.(time := v.time)
    else h.(uid := v.uid, gid := v.gid, mode := v.mode)
  }

  lemma HeadIsGlanced(rest: Bytes)
    requires ReadHead(rest).Some?
    ensures |rest| >= HEADER
    ensures ReadGlance(rest) == Some(Glance(ReadHead(rest).value.name, ReadHead(rest).value.size))
  {
    hide Strip, Number;
    assert forall c <- rest[..16] :: c in rest[..HEADER];
  }

  lemma AsciiJoin(a: Bytes, b: Bytes)
    requires IsAscii(a) && IsAscii(b)
    ensures IsAscii(a + b)
  {
  }

  lemma AsciiSlice(a: Bytes, lo: nat, hi: nat)
    requires IsAscii(a) && lo <= hi <= |a|
    ensures IsAscii(a[lo..hi])
  {
    assert forall c <- a[lo..hi] :: c in a;
  }

  lemma NewHeadIsAscii(head: Bytes, name: Bytes, f: Fields, v: Numbers)
    requires |head| == HEADER && IsAscii(head) && Numeric(f, v)
    ensures IsAscii(NewHead(head, name, f))
  {
    hide Strip, Number, IsAscii;
    AsciiSlice(head, 0, 16);
    AsciiSlice(head, 0, 28);
    AsciiSlice(head, 28, HEADER);
    AsciiSlice(head, 48, HEADER);
    assert head[0..16] == head[..16] && head[0..28] == head[..28];
    assert head[28..HEADER] == head[28..] && head[48..HEADER] == head[48..];
    AsciiJoin(head[..16], f.indexTime);
    AsciiJoin(head[..16] + f.indexTime, head[28..]);
    AsciiJoin(head[..16], f.stringsTime);
    AsciiJoin(head[..16] + f.stringsTime, head[28..]);
    AsciiJoin(head[..28], f.uid);
    AsciiJoin(head[..28] + f.uid, f.gid);
    AsciiJoin(head[..28] + f.uid + f.gid, f.mode);
    AsciiJoin(head[..28] + f.uid + f.gid + f.mode, head[48..]);
  }

  lemma NewHeadIsRead(rest: Bytes, h: Head, f: Fields, v: Numbers, tail: Bytes)
    requires ReadHead(rest) == Some(h) && Numeric(f, v)
    ensures ReadHead(NewHead(rest[..HEADER], h.name, f) + tail) == Some(NewNumbers(h, v))
  {
    hide Strip, Number, IsAscii, NewHead;
    var head := rest[..HEADER];
    var n := NewHead(head, h.name, f);
    NewHeadKeeps(head, h.name, f);
    NewHeadIsAscii(head, h.name, f, v);
    var r := n + tail;
    SlicesOfHead(rest, []);
    SlicesOfHead(n, tail);
    assert n + [] == n && rest + [] == rest;
  }

  lemma SlicesOfHead(n: Bytes, tail: Bytes)
    requires |n| >= HEADER
    ensures var r, h := n + tail, n[..HEADER];
      && r[..HEADER] == h && r[..16] == h[..16] && r[16..28] == h[16..28] && r[28..34] == h[28..34]
      && r[34..40] == h[34..40]
      && r[40..48] == h[40..48] && r[48..58] == h[48..58] && r[58..60] == h[58..60]
  {
  }

  // The reading of the image and that of the patched one.
  predicate Related(r: Reading, q: Reading, met: bool, v: Numbers) {
    q.strings == r.strings && q.files == Renewed(r.files, v) && q.time == if met then v.time else r.time
  }

  lemma EnterRelated(r: Reading, q: Reading, met: bool, v: Numbers, h: Head, data: Bytes)
    requires Related(r, q, met, v) && Enter(r, h, data).Some? && (h.name == STRINGS_NAME ==> met)
    ensures Enter(q, NewNumbers(h, v), data).Some?
    ensures Related(Enter(r, h, data).value, Enter(q, NewNumbers(h, v), data).value, met || h.name == INDEX_NAME, v)
  {
    hide NameOf;
    if h.name != INDEX_NAME && h.name != STRINGS_NAME {
      var x := Record(DropLast(NameOf(h.name, r.strings).value), h.time, h.uid, h.gid, h.mode, h.size, data);
      assert Renewed(r.files + [x], v) == Renewed(r.files, v) + [x.(uid := v.uid, gid := v.gid, mode := v.mode)];
    }
  }

  // One step of the walks.
  lemma OneStep(rest: Bytes, h: Head, f: Fields, r: Reading, met: bool)
    requires |rest| >= HEADER && ReadHead(rest) == Some(h) && ReadGlance(rest) == Some(Glance(h.name, h.size))
    requires f.WellFormed()
    ensures var n, now := Next(rest, h.size), met || h.name == INDEX_NAME;
      && HEADER <= n <= |rest|
      && IndexMet(rest, met) == IndexMet(rest[n..], now)
      && (IndexFirst(rest, met) ==> (h.name == STRINGS_NAME ==> met) && IndexFirst(rest[n..], now))
      && (Patched(rest[n..], f).Some? ==>
          Patched(rest, f) == Some(NewHead(rest[..HEADER], h.name, f) + rest[HEADER..n] + Patched(rest[n..], f).value))
      && (ReadAll(rest, r).Some? ==>
          && HEADER + h.size <= n && Enter(r, h, rest[HEADER..HEADER + h.size]).Some?
          && ReadAll(rest, r) == ReadAll(rest[n..], Enter(r, h, rest[HEADER..HEADER + h.size]).value))
  {
    hide ReadHead, ReadGlance, NewHead, Enter;
    assert From(rest, HEADER + h.size + h.size % 2) == rest[Next(rest, h.size)..];
  }

  lemma StepBack(p: Bytes, h: Head, q: Reading, n: nat)
    requires ReadHead(p) == Some(h) && HEADER + h.size <= n <= |p| && n == Next(p, h.size)
    requires Enter(q, h, p[HEADER..HEADER + h.size]).Some?
    ensures ReadAll(p, q) == ReadAll(p[n..], Enter(q, h, p[HEADER..HEADER + h.size]).value)
  {
    hide ReadHead, Enter;
    assert From(p, HEADER + h.size + h.size % 2) == p[n..];
  }

  lemma {:induction false} NothingLeft(f: Fields, r: Reading, q: Reading, met: bool)
    requires f.WellFormed()
    ensures Patched([], f) == Some([]) && ReadAll([], r) == Some(r) && ReadAll([], q) == Some(q)
    ensures IndexMet([], met) == met
  {
  }

  lemma {:induction false} HeadsThere(rest: Bytes, r: Reading)
    requires rest != [] && ReadAll(rest, r).Some?
    ensures ReadHead(rest).Some?
  {
    hide ReadHead;
  }

  lemma KeepsForm(f: Fields, v: Numbers)
    requires Numeric(f, v)
    ensures f.WellFormed()
  {
  }

  // The new image has its next header where the old one has.
  lemma SameNext(rest: Bytes, p: Bytes, size: nat)
    requires |p| == |rest|
    ensures Next(p, size) == Next(rest, size)
  {
  }

  lemma {:induction false} PatchedIsRead(rest: Bytes, f: Fields, v: Numbers, r: Reading, q: Reading, met: bool)
    requires Numeric(f, v) && Related(r, q, met, v) && ReadAll(rest, r).Some? && IndexFirst(rest, met)
    ensures Patched(rest, f).Some? && ReadAll(Patched(rest, f).value, q).Some?
    ensures Related(ReadAll(rest, r).value, ReadAll(Patched(rest, f).value, q).value, IndexMet(rest, met), v)
    decreases |rest|
  {
    hide ReadHead, ReadGlance, NewHead, Enter, NewNumbers, Related, Numeric, ReadAll, Patched, IndexFirst, IndexMet;
    hide Next, IsAscii;
    KeepsForm(f, v);
    if rest == [] {
      NothingLeft(f, r, q, met);
    } else {
      HeadsThere(rest, r);
      var h := ReadHead(rest).value;
      HeadIsGlanced(rest);
      KeepsSize(h, v);
      OneStep(rest, h, f, r, met);
      var n, data := Next(rest, h.size), rest[HEADER..HEADER + h.size];
      var r1 := Enter(r, h, data).value;
      EnterRelated(r, q, met, v, h, data);
      var q1 := Enter(q, NewNumbers(h, v), data).value;
      PatchedIsRead(rest[n..], f, v, r1, q1, met || h.name == INDEX_NAME);
      var more := Patched(rest[n..], f).value;
      var head, content := NewHead(rest[..HEADER], h.name, f), rest[HEADER..n];
      NewHeadIsRead(rest, h, f, v, content + more);
      var p := head + (content + more);
      assert Patched(rest, f).value == p;
      assert |p| == |rest| && p[n..] == more && p[HEADER..n] == content;
      SameNext(rest, p, h.size);
      assert p[HEADER..HEADER + h.size] == content[..h.size] == data;
      StepBack(p, NewNumbers(h, v), q, n);
    }
  }

  lemma KeepsSize(h: Head, v: Numbers)
    ensures NewNumbers(h, v).size == h.size && NewNumbers(h, v).name == h.name
  {
  }

  // from_image of a patched image: the same members in the same order, with the new owner,
  // group and mode, and the time of the original's index.
  lemma PatchedArchiveIsRead(
    ar: Bytes, original: Bytes, uid: Bytes, gid: Bytes, mode: Bytes, v: Numbers, moment: nat, r: Reading)
    requires ArPatched(ar, original, uid, gid, mode).Some? && FromImage(ar, moment) == Some(r)
    requires IndexFirst(ar[|MAGIC|..], false)
    requires var t := FindTimes(From(original, |MAGIC|), Times(None, None)).value;
      Numeric(Fields(t.index.value, t.strings.value, Cut(uid, 6), Cut(gid, 6), Cut(mode, 8)), v)
    ensures FromImage(ArPatched(ar, original, uid, gid, mode).value, moment) == Some(Reading(
      if IndexMet(ar[|MAGIC|..], false) then v.time else r.time, r.strings, Renewed(r.files, v)))
  {
    hide ReadAll, Patched, Numeric, IndexFirst, IndexMet, FindTimes;
    var t := FindTimes(From(original, |MAGIC|), Times(None, None)).value;
    var f := Fields(t.index.value, t.strings.value, Cut(uid, 6), Cut(gid, 6), Cut(mode, 8));
    var rest, start := ar[|MAGIC|..], Reading(moment, None, []);
    assert Renewed([], v) == [];
    PatchedIsRead(rest, f, v, start, start, false);
    var p := ArPatched(ar, original, uid, gid, mode).value;
    assert p[|MAGIC|..] == Patched(rest, f).value && MAGIC <= p;
  }

  // ---- the program, which overwrites the buffer it walks ----

  // Its first loop.
  method ScanTimes(original: Bytes) returns (t: Option<Times>)
    ensures t == FindTimes(From(original, |MAGIC|), Times(None, None))
  {
    hide ReadGlance, FindTimes;
    var times := Times(None, None);
    var i := |MAGIC|;
    while i < |original|
      invariant i >= |MAGIC|
      invariant FindTimes(From(original, i), times) == FindTimes(From(original, |MAGIC|), Times(None, None))
      decreases |original| - i
    {
      var rest := original[i..];
      var g := ReadGlance(rest);
      TimesStep(rest, times);
      if g.None? {
        return None;
      }
      if g.value.name == INDEX_NAME {
        times := times.(index := Some(rest[16..28]));
      } else if g.value.name == STRINGS_NAME {
        times := times.(strings := Some(rest[16..28]));
      }
      var size := g.value.size;
      if size % 2 != 0 {
        size := size + 1;
      }
      assert From(original, i + HEADER + size) == rest[Next(rest, g.value.size)..];
      i := i + HEADER + size;
    }
    assert From(original, i) == [];
    NoTimes(times);
    t := Some(times);
  }

  lemma {:induction false} TimesStep(rest: Bytes, t: Times)
    requires rest != []
    ensures FindTimes(rest, t) == match ReadGlance(rest)
      case None => None
      case Some(g) => FindTimes(rest[Next(rest, g.size)..],
        if g.name == INDEX_NAME then t.(index := Some(rest[16..28]))
        else if g.name == STRINGS_NAME then t.(strings := Some(rest[16..28])) else t)
    ensures ReadGlance(rest).Some? ==> |rest| >= HEADER
  {
  }

  lemma {:induction false} NoTimes(t: Times)
    ensures FindTimes([], t) == Some(t)
  {
  }

  // A slice of the buffer is overwritten.
  method Overwrite(ar: array<u8>, at: nat, s: Bytes)
    requires at + |s| <= ar.Length
    modifies ar
    ensures ar[..] == old(ar[..at]) + s + old(ar[at + |s|..])
  {
    forall j | 0 <= j < |s| {
      ar[at + j] := s[j];
    }
  }

  // The header at i is patched.
  method PatchHead(ar: array<u8>, i: nat, name: Bytes, f: Fields)
    requires i + HEADER <= ar.Length && f.WellFormed()
    modifies ar
    ensures ar[..] == old(ar[..i]) + NewHead(old(ar[i..i + HEADER]), name, f) + old(ar[i + HEADER..])
  {
    ghost var was := ar[..];
    if name == INDEX_NAME {
      Overwrite(ar, i + 16, f.indexTime);
    } else if name == STRINGS_NAME {
      Overwrite(ar, i + 16, f.stringsTime);
    } else {
      Overwrite(ar, i + 28, f.uid);
      Overwrite(ar, i + 34, f.gid);
      Overwrite(ar, i + 40, f.mode);
    }
    OverwritesMakeHead(was, ar[..], i, name, f);
  }

  lemma OverwritesMakeHead(was: Bytes, now: Bytes, i: nat, name: Bytes, f: Fields)
    requires i + HEADER <= |was| == |now| && f.WellFormed()
    requires if name == INDEX_NAME then now == was[..i + 16] + f.indexTime + was[i + 28..]
      else if name == STRINGS_NAME then now == was[..i + 16] + f.stringsTime + was[i + 28..]
      else now == was[..i + 28] + f.uid + f.gid + f.mode + was[i + 48..]
    ensures now == was[..i] + NewHead(was[i..i + HEADER], name, f) + was[i + HEADER..]
  {
    if name == INDEX_NAME {
      TimeIsOverwritten(was, i, f.indexTime);
    } else if name == STRINGS_NAME {
      TimeIsOverwritten(was, i, f.stringsTime);
    } else {
      OwnerIsOverwritten(was, i, f.uid, f.gid, f.mode);
    }
  }

  lemma TimeIsOverwritten(was: Bytes, i: nat, time: Bytes)
    requires i + HEADER <= |was|
    ensures var head := was[i..i + HEADER];
      was[..i + 16] + time + was[i + 28..] == was[..i] + (head[..16] + time + head[28..]) + was[i + HEADER..]
  {
    var head := was[i..i + HEADER];
    assert was[..i + 16] == was[..i] + head[..16];
    assert was[i + 28..] == head[28..] + was[i + HEADER..];
  }

  lemma OwnerIsOverwritten(was: Bytes, i: nat, uid: Bytes, gid: Bytes, mode: Bytes)
    requires i + HEADER <= |was|
    ensures var head := was[i..i + HEADER];
      was[..i + 28] + uid + gid + mode + was[i + 48..] ==
        was[..i] + (head[..28] + uid + gid + mode + head[48..]) + was[i + HEADER..]
  {
    var head := was[i..i + HEADER];
    assert was[..i + 28] == was[..i] + head[..28];
    assert was[i + 48..] == head[48..] + was[i + HEADER..];
  }

  // ar_patch
  method PatchInPlace(ar: array<u8>, original: Bytes, uid: Bytes, gid: Bytes, mode: Bytes) returns (ok: bool)
    modifies ar
    ensures ok == old(ArPatched(ar[..], original, uid, gid, mode)).Some?
    ensures ok ==> Some(ar[..]) == old(ArPatched(ar[..], original, uid, gid, mode))
  {
    hide ReadGlance, FindTimes, Patched, Cut, NewHead;
    if ar.Length <= 0x24 {
      return false;
    }
    var t := ScanTimes(original);
    if t.None? || t.value.index.None? || t.value.strings.None? || |t.value.index.value| != 12
      || |t.value.strings.value| != 12
    {
      return false;
    }
    var f := Fields(t.value.index.value, t.value.strings.value, Cut(uid, 6), Cut(gid, 6), Cut(mode, 8));
    ghost var result := ArPatched(ar[..], original, uid, gid, mode);
    var i := |MAGIC|;
    assert ar[i..] == ar[..][i..] && ar[..i] == ar[..][..i];
    while i < ar.Length
      invariant i >= |MAGIC| && f.WellFormed()
      invariant Finishes(ar[..], i, f) == result
      decreases ar.Length - i
    {
      ghost var was := ar[..];
      var rest := ar[i..];
      FinishesStep(was, i, f);
      var g := ReadGlance(rest);
      if g.None? {
        return false;
      }
      PatchHead(ar, i, g.value.name, f);
      assert ar[..] == was[..i] + NewHead(was[i..i + HEADER], g.value.name, f) + was[i + HEADER..];
      var size := g.value.size;
      if size % 2 != 0 {
        size := size + 1;
      }
      i := i + HEADER + size;
    }
    FinishesAtEnd(ar[..], i, f);
    ok := true;
  }

  // The whole image when what is before i is done, and the rest still to be patched.
  function Finishes(ar: Bytes, i: nat, f: Fields): Option<Bytes>
    requires f.WellFormed()
  {
    if i > |ar| then Some(ar)
    else
      var more :- Patched(ar[i..], f);
      Some(ar[..i] + more)
  }

  lemma FinishesAtEnd(ar: Bytes, i: nat, f: Fields)
    requires i >= |ar| && f.WellFormed()
    ensures Finishes(ar, i, f) == Some(ar)
  {
    if i == |ar| {
      assert ar[i..] == [] && ar[..i] + [] == ar;
    }
  }

  lemma FinishesStep(ar: Bytes, i: nat, f: Fields)
    requires i < |ar| && f.WellFormed()
    ensures match ReadGlance(ar[i..])
      case None => Finishes(ar, i, f) == None
      case Some(g) =>
        && i + HEADER <= |ar|
        && var now := ar[..i] + NewHead(ar[i..i + HEADER], g.name, f) + ar[i + HEADER..];
          Finishes(ar, i, f) == Finishes(now, i + HEADER + g.size + g.size % 2, f)
  {
    hide ReadGlance, NewHead;
    var rest := ar[i..];
    GlanceIsLong(rest);
    if ReadGlance(rest).Some? {
      var g := ReadGlance(rest).value;
      var n := Next(rest, g.size);
      var head := NewHead(ar[i..i + HEADER], g.name, f);
      var now := ar[..i] + head + ar[i + HEADER..];
      assert rest[..HEADER] == ar[i..i + HEADER] && rest[n..] == ar[i + n..] == now[i + n..];
      assert now[..i + n] == ar[..i] + (head + rest[HEADER..n]);
      if Patched(rest[n..], f).Some? {
        var more := Patched(rest[n..], f).value;
        assert ar[..i] + (head + rest[HEADER..n] + more) == now[..i + n] + more;
      }
      if i + HEADER + g.size + g.size % 2 > |now| {
        assert rest[n..] == [] && now[..i + n] + [] == now;
      }
    }
  }

  lemma GlanceIsLong(rest: Bytes)
    ensures ReadGlance(rest).Some? ==> |rest| >= HEADER
  {
  }
}
