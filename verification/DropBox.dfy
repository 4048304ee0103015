/** The permissions of a drop box, kept as a line of text in a file inside it. */
module DropBox {
  import opened Text

  datatype Permissions = Permissions(owner: string, group: string, mode: nat)

  const SEPARATOR: char := 28 as char
  const LIMIT: nat := 128
  const UINT32_MAX: nat := 0xFFFF_FFFF
  const ULONG_MAX: nat := 0xFFFF_FFFF_FFFF_FFFF

  /** Everyone may write, and nobody is the owner. */
  const Default := Permissions("", "", 2)

  // ---- Numbers as text ----

  function Digit(d: nat): char
    requires d < 10
  {
    (('0' as int) + d) as char
  }

  /** The `%u` format. */
  function Decimal(n: nat): (s: string)
    ensures s != ""
  {
    if n < 10 then [Digit(n)] else Decimal(n / 10) + [Digit(n % 10)]
  }

  function DigitValue(c: char): nat {
    if '0' <= c <= '9' then (c as int) - ('0' as int)
    else if 'a' <= c <= 'z' then (c as int) - ('a' as int) + 10
    else if 'A' <= c <= 'Z' then (c as int) - ('A' as int) + 10
    else 36
  }

  predicate AllDigits(s: string, base: nat) {
    forall i | 0 <= i < |s| :: DigitValue(s[i]) < base
  }

  function Numeral(s: string, base: nat): nat {
    if s == "" then 0 else Numeral(s[..|s| - 1], base) * base + DigitValue(s[|s| - 1])
  }

  predicate IsSpace(c: char) {
    c == ' ' || '\t' <= c <= '\r'
  }

  function SkipSpaces(s: string): string {
    if s != "" && IsSpace(s[0]) then SkipSpaces(s[1..]) else s
  }

  /** The digits that `strtoul` reads in base 0, and that base: hexadecimal after 0x, octal after
      0, or else decimal. */
  function Unprefixed(s: string): (string, nat) {
    if |s| > 2 && s[0] == '0' && (s[1] == 'x' || s[1] == 'X') then (s[2..], 16)
    else if s != "" && s[0] == '0' then (s, 8)
    else (s, 10)
  }

  /** `wi_string_uint32`: 0 unless the whole text is a number that fits. */
  function Uint32(s: string): (n: nat)
    ensures n <= UINT32_MAX
  {
    var t := SkipSpaces(s);
    var negative := t != "" && t[0] == '-';
    var u := if t != "" && (t[0] == '-' || t[0] == '+') then t[1..] else t;
    var (digits, base) := Unprefixed(u);
    if digits == "" || !AllDigits(digits, base) then 0
    else
      var magnitude := Numeral(digits, base);
      var n := if negative then (ULONG_MAX + 1 - magnitude) % (ULONG_MAX + 1) else magnitude;
      if magnitude > ULONG_MAX || n > UINT32_MAX then 0 else n
  }

  lemma {:induction false} DecimalDigits(n: nat)
    ensures AllDigits(Decimal(n), 10) && Numeral(Decimal(n), 10) == n
    ensures Decimal(n)[0] == '0' ==> n == 0
  {
    if n < 10 {
      assert Decimal(n)[..0] == "";
    } else {
      DecimalDigits(n / 10);
      assert Decimal(n)[..|Decimal(n)| - 1] == Decimal(n / 10);
    }
  }

  /** Reading a printed number gives the number back. */
  lemma PrintedNumberRead(n: nat)
    requires n <= UINT32_MAX
    ensures Uint32(Decimal(n)) == n
  {
    DecimalDigits(n);
    var s := Decimal(n);
    assert DigitValue(s[0]) < 10;
    if n == 0 {
      assert s == "0" && s[..0] == "";
      assert AllDigits(s, 8) && Numeral(s, 8) == 0;
    }
  }

  /** After 0x or 0X the rest is hexadecimal, with letters of either case. */
  lemma HexadecimalRead(x: char, s: string)
    requires (x == 'x' || x == 'X') && s != "" && AllDigits(s, 16) && Numeral(s, 16) <= UINT32_MAX
    ensures Uint32(['0', x] + s) == Numeral(s, 16)
    ensures DigitValue('a') == DigitValue('A') == 10 && DigitValue('f') == DigitValue('F') == 15
  {
    assert (['0', x] + s)[2..] == s;
  }

  /** After 0 the rest is octal. */
  lemma OctalRead(s: string)
    requires AllDigits(s, 8) && Numeral("0" + s, 8) <= UINT32_MAX
    ensures Uint32("0" + s) == Numeral("0" + s, 8)
  {
    var t := "0" + s;
    assert t[0] == '0' && DigitValue('0') == 0 && forall i | 1 <= i < |t| :: t[i] == s[i - 1];
    assert |t| > 2 ==> DigitValue(t[1]) < 8;
  }

  /** Only after a zero does an x, or any other letter, make a prefix. */
  lemma PrefixNeedsZero(s: string)
    requires |s| > 1 && '1' <= s[0] <= '9' && DigitValue(s[1]) >= 10
    ensures Uint32(s) == 0
  {
    assert SkipSpaces(s) == s;
  }

  lemma BaseOfDecimal(n: nat)
    ensures Unprefixed(Decimal(n)) == (Decimal(n), if n == 0 then 8 else 10)
    ensures AllDigits(Decimal(n), if n == 0 then 8 else 10)
    ensures Numeral(Decimal(n), if n == 0 then 8 else 10) == n
    ensures DigitValue(Decimal(n)[0]) < 10
  {
    DecimalDigits(n);
    if n == 0 { assert Decimal(n) == "0" && Decimal(n)[..0] == ""; }
  }

  /** Of the characters in front a number only white space is skipped. */
  lemma SpaceSkipped(c: char, s: string)
    ensures SkipSpaces([c] + s) == if c in " \t\n\U{0B}\U{0C}\r" then SkipSpaces(s) else [c] + s
  {
    assert ([c] + s)[1..] == s;
  }

  /** Blanks in front and a plus sign do not matter. */
  lemma PlusRead(n: nat)
    requires n <= UINT32_MAX
    ensures Uint32(" " + Decimal(n)) == Uint32("+" + Decimal(n)) == n
  {
    BaseOfDecimal(n);
    var s := Decimal(n);
    assert (" " + s)[1..] == s && ("+" + s)[1..] == s;
    assert SkipSpaces(s) == s && SkipSpaces(" " + s) == s && SkipSpaces("+" + s) == "+" + s;
  }

  lemma Wrapped(n: nat)
    requires n <= ULONG_MAX
    ensures (ULONG_MAX + 1 - n) % (ULONG_MAX + 1) == if n == 0 then 0 else ULONG_MAX + 1 - n
  {
  }

  /** A negative number wraps around at 64 bits, and fits only if that takes it below 2^32. */
  lemma MinusRead(n: nat)
    requires n <= ULONG_MAX
    ensures Uint32("-" + Decimal(n)) ==
            if 0 < n && 0x1_0000_0000_0000_0000 - n <= UINT32_MAX then 0x1_0000_0000_0000_0000 - n else 0
  {
    BaseOfDecimal(n);
    Wrapped(n);
    var s := "-" + Decimal(n);
    assert SkipSpaces(s) == s && s[1..] == Decimal(n);
  }

  /** Nor does one of more than 32 bits. */
  lemma LargeRead(n: nat)
    requires n > UINT32_MAX
    ensures Uint32(Decimal(n)) == 0
  {
    BaseOfDecimal(n);
  }

  lemma NoNumber(n: nat, c: char)
    requires n > 0 && DigitValue(c) >= 10
    ensures Uint32(Decimal(n) + [c]) == 0
  {
    DecimalDigits(n);
    var s := Decimal(n) + [c];
    assert s[0] == Decimal(n)[0] && DigitValue(s[0]) < 10 && s[|s| - 1] == c;
  }

  // ---- The text ----

  predicate IsBlank(c: char) {
    c == ' ' || c == '\t' || c == '\n'
  }

  function TrimLeft(s: string): string {
    if s != "" && IsBlank(s[0]) then TrimLeft(s[1..]) else s
  }

  function TrimRight(s: string): string {
    if s != "" && IsBlank(s[|s| - 1]) then TrimRight(s[..|s| - 1]) else s
  }

  /** `wi_string_by_deleting_surrounding_whitespace`. */
  function Trim(s: string): string {
    TrimRight(TrimLeft(s))
  }

  /** `wd_files_privileges_string`. */
  function Written(p: Permissions): string {
    p.owner + [SEPARATOR] + p.group + [SEPARATOR] + Decimal(p.mode)
  }

  /** `wd_files_privileges_with_string`. */
  function Parsed(text: string): Option<Permissions> {
    var fields := Split(Trim(text), SEPARATOR);
    if |fields| != 3 then None else Some(Permissions(fields[0], fields[1], Uint32(fields[2])))
  }

  /** `wd_files_drop_box_privileges`, on the contents of the permissions file, whose size is limited
      in bytes: a char of `text` stands for one byte. */
  function ReadBack(contents: Option<string>): Permissions {
    match contents
    case None => Default
    case Some(text) =>
      if |text| > LIMIT then Default
      else
        match Parsed(text)
        case None => Default
        case Some(p) => p
  }

  /** Without a file, with a file that is too large, or with a text that is not made of three fields,
      everyone may write and nobody is the owner. */
  lemma MalformedIsDefault(contents: Option<string>)
    ensures contents.None? || |contents.value| > 128 || |Split(Trim(contents.value), SEPARATOR)| != 3 ==>
              ReadBack(contents) == Permissions("", "", 2)
  {
  }

  lemma {:induction false} TrimLeftAppend(s: string, t: string)
    requires t != "" && !IsBlank(t[0])
    ensures TrimLeft(s + t) == TrimLeft(s) + t
  {
    if s == "" {
      assert s + t == t;
    } else if IsBlank(s[0]) {
      assert (s + t)[1..] == s[1..] + t;
      TrimLeftAppend(s[1..], t);
    }
  }

  /** Only leading blanks of the owner are lost in the text. */
  lemma WrittenTrimmed(p: Permissions)
    ensures Trim(Written(p)) == TrimLeft(p.owner) + [SEPARATOR] + p.group + [SEPARATOR] + Decimal(p.mode)
  {
    var rest := [SEPARATOR] + p.group + [SEPARATOR] + Decimal(p.mode);
    assert Written(p) == p.owner + rest;
    TrimLeftAppend(p.owner, rest);
    DecimalDigits(p.mode);
    var text := TrimLeft(p.owner) + rest;
    assert text == TrimLeft(p.owner) + [SEPARATOR] + p.group + [SEPARATOR] + Decimal(p.mode);
    assert text[|text| - 1] == Decimal(p.mode)[|Decimal(p.mode)| - 1];
    assert DigitValue(text[|text| - 1]) < 10;
  }

  lemma {:induction false} NoSeparatorInDecimal(n: nat)
    ensures SEPARATOR !in Decimal(n)
  {
    if n >= 10 { NoSeparatorInDecimal(n / 10); }
  }

  lemma {:induction false} TrimLeftKeeps(s: string)
    ensures SEPARATOR in s <==> SEPARATOR in TrimLeft(s)
    ensures TrimLeft(s) == s <==> s == "" || !IsBlank(s[0])
    ensures |TrimLeft(s)| <= |s|
  {
    if s != "" && IsBlank(s[0]) {
      TrimLeftKeeps(s[1..]);
      assert s == [s[0]] + s[1..];
    }
  }

  /** Spaces, tabs and newlines around a text do not matter, and nothing else is taken away. */
  lemma {:induction false} Trimmed(s: string, c: char)
    ensures c in " \t\n" ==> Trim([c] + s) == Trim(s) && Trim(s + [c]) == Trim(s)
    ensures s != "" && s[0] !in " \t\n" && s[|s| - 1] !in " \t\n" ==> Trim(s) == s
  {
    assert ([c] + s)[1..] == s;
    if IsBlank(c) { BlankAfter(s, c); }
  }

  lemma {:induction false} BlankAfter(s: string, c: char)
    requires IsBlank(c)
    ensures Trim(s + [c]) == Trim(s)
  {
    if s == "" {
      assert s + [c] == [c] && [c][1..] == "";
    } else if IsBlank(s[0]) {
      assert (s + [c])[1..] == s[1..] + [c];
      BlankAfter(s[1..], c);
    } else {
      assert (s + [c])[..|s|] == s;
    }
  }

  lemma WrittenParsed(p: Permissions)
    requires SEPARATOR !in p.owner && SEPARATOR !in p.group && p.mode <= UINT32_MAX
    ensures Parsed(Written(p)) == Some(p.(owner := TrimLeft(p.owner)))
  {
    WrittenTrimmed(p);
    NoSeparatorInDecimal(p.mode);
    TrimLeftKeeps(p.owner);
    var (owner, tail) := (TrimLeft(p.owner), p.group + [SEPARATOR] + Decimal(p.mode));
    assert Trim(Written(p)) == owner + [SEPARATOR] + tail;
    SplitFirst(owner, tail, SEPARATOR);
    SplitFirst(p.group, Decimal(p.mode), SEPARATOR);
    SplitWhole(Decimal(p.mode), SEPARATOR);
    PrintedNumberRead(p.mode);
  }

  predicate Survives(p: Permissions) {
    && SEPARATOR !in p.owner && SEPARATOR !in p.group
    && (p.owner == "" || !IsBlank(p.owner[0]))
    && |Written(p)| <= LIMIT
  }

  /** Written permissions are read back as they were exactly when no name has the separator in it,
      the owner does not start with a blank, and the text is at most 128 bytes long. */
  lemma PermissionsRoundTrip(p: Permissions)
    requires p.mode <= UINT32_MAX
    ensures ReadBack(Some(Written(p))) == p <==> Survives(p)
  {
    var names := p.owner + p.group;
    if SEPARATOR !in p.owner && SEPARATOR !in p.group {
      WrittenParsed(p);
      TrimLeftKeeps(p.owner);
      assert |Written(Default)| <= LIMIT;
    } else if Parsed(Written(p)).Some? && |Written(p)| <= LIMIT {
      var fields := Split(Trim(Written(p)), SEPARATOR);
      assert SEPARATOR !in fields[0] && SEPARATOR !in fields[1];
    }
  }
}
