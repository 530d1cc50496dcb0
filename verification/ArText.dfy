// The text fields of the headers of an ar archive (tools/ar.py): ASCII numbers, padded with
// spaces.
module ArText {
  import opened Machine

  type Bytes = seq<u8>

  const SPACE: u8 := 0x20
  const NEWLINE: u8 := 0x0A
  const SLASH: u8 := 0x2F
  const ZERO: u8 := 0x30

  // What Python's decode("ASCII") accepts.
  predicate IsAscii(s: Bytes) {
    forall c <- s :: c < 0x80
  }

  // What strip() takes off.
  predicate IsBlank(c: u8) {
    c == SPACE || 9 <= c <= 13 || 28 <= c <= 31
  }

  function StripLeft(s: Bytes): Bytes {
    if s != [] && IsBlank(s[0]) then StripLeft(s[1..]) else s
  }

  function StripRight(s: Bytes): Bytes {
    if s != [] && IsBlank(s[|s| - 1]) then StripRight(s[..|s| - 1]) else s
  }

  function Strip(s: Bytes): Bytes {
    StripLeft(StripRight(s))
  }

  // ---- numbers ----

  datatype Base = Octal | Decimal {
    function Size(): nat { if Octal? then 8 else 10 }

    // All digits but the last, and the last.
    function Whole(n: nat): nat { if Octal? then n / 8 else n / 10 }

    function Last(n: nat): nat { if Octal? then n % 8 else n % 10 }

    function Join(whole: nat, last: nat): nat { if Octal? then whole * 8 + last else whole * 10 + last }
  }

  // str(n) and oct(n)[2:]
  function Digits(n: nat, base: Base): (r: Bytes)
    ensures r != []
    decreases n
  {
    (if n < base.Size() then [] else Digits(base.Whole(n), base)) + [ZERO + base.Last(n)]
  }

  // int(s) and int(s, 8) for a string of digits; signs and underscores are not modelled.
  function Number(s: Bytes, base: Base): Option<nat> {
    if s == [] then None
    else
      var last := s[|s| - 1];
      if !(ZERO <= last < ZERO + base.Size()) then None
      else if |s| == 1 then Some(last - ZERO)
      else
        var rest :- Number(s[..|s| - 1], base);
        Some(base.Join(rest, last - ZERO))
  }

  lemma {:induction false} NumberOfDigits(n: nat, base: Base)
    ensures Number(Digits(n, base), base) == Some(n)
    ensures forall c <- Digits(n, base) :: ZERO <= c < ZERO + base.Size()
    decreases n
  {
    if n >= base.Size() {
      var rest := Digits(base.Whole(n), base);
      NumberOfDigits(base.Whole(n), base);
      assert Digits(n, base)[..|rest|] == rest && |rest| > 0;
    }
  }

  // ---- fields ----

  function Spaces(n: nat): (r: Bytes)
    ensures |r| == n && forall c <- r :: c == SPACE
  {
    seq(n, _ => SPACE)
  }

  // f"{s:{width}}": a text that is too long is not cut.
  function Field(s: Bytes, width: nat): Bytes {
    if |s| < width then s + Spaces(width - |s|) else s
  }

  predicate Trimmed(s: Bytes) {
    s != [] && !IsBlank(s[0]) && !IsBlank(s[|s| - 1])
  }

  lemma {:induction false} StripSpaces(s: Bytes, n: nat)
    requires Trimmed(s)
    ensures Strip(s + Spaces(n)) == s
    decreases n
  {
    if n == 0 {
      assert s + Spaces(0) == s;
    } else {
      assert (s + Spaces(n))[..|s| + n - 1] == s + Spaces(n - 1);
      StripSpaces(s, n - 1);
    }
  }

  // A text that fits its field comes back out of it.
  lemma FieldIsStripped(s: Bytes, width: nat)
    requires Trimmed(s) && |s| <= width
    ensures |Field(s, width)| == width && Strip(Field(s, width)) == s
  {
    StripSpaces(s, width - |s|);
    assert s + Spaces(0) == s;
  }

  lemma {:induction false} NumberField(n: nat, base: Base, width: nat)
    requires |Digits(n, base)| <= width
    ensures |Field(Digits(n, base), width)| == width && IsAscii(Field(Digits(n, base), width))
    ensures Number(Strip(Field(Digits(n, base), width)), base) == Some(n)
  {
    var s := Digits(n, base);
    NumberOfDigits(n, base);
    assert s[0] in s && s[|s| - 1] in s;
    FieldIsStripped(s, width);
  }

  // ---- four bytes, big end first: struct.pack(">I", n) ----

  function Word(n: u32): (r: Bytes)
    ensures |r| == 4
  {
    var hi, lo := n / 0x10000, n % 0x10000;
    [hi / 0x100, hi % 0x100, lo / 0x100, lo % 0x100]
  }

  function ReadWord(s: Bytes): u32
    requires |s| == 4
  {
    (s[0] as int * 0x100 + s[1]) * 0x10000 + (s[2] as int * 0x100 + s[3])
  }

  lemma WordIsRead(n: u32)
    ensures ReadWord(Word(n)) == n
  {
  }
}
