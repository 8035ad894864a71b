/** The few functions of Go's `strings` and `strconv` packages that the program's parsers rest on. */
module GoStrings {
  import opened Wrappers

  const MAX_INT64: int := 0x7FFF_FFFF_FFFF_FFFF
  const MIN_INT64: int := -0x8000_0000_0000_0000

  /** Unicode White_Space, as `unicode.IsSpace` reports it. */
  predicate IsSpace(c: char) {
    var n := c as int;
    || 9 <= n <= 13 || n == 0x20 || n == 0x85 || n == 0xA0 || n == 0x1680
    || 0x2000 <= n <= 0x200A || n == 0x2028 || n == 0x2029 || n == 0x202F || n == 0x205F || n == 0x3000
  }

  function TrimLeft(s: string): string {
    if s != "" && IsSpace(s[0]) then TrimLeft(s[1..]) else s
  }

  function TrimRight(s: string): string {
    if s != "" && IsSpace(s[|s| - 1]) then TrimRight(s[..|s| - 1]) else s
  }

  function TrimSpace(s: string): string {
    TrimRight(TrimLeft(s))
  }

  /** No leading or trailing blank: what `TrimSpace` leaves alone. */
  predicate Trimmed(s: string) {
    s == "" || (!IsSpace(s[0]) && !IsSpace(s[|s| - 1]))
  }

  function TrimRightChar(s: string, c: char): string {
    if s != "" && s[|s| - 1] == c then TrimRightChar(s[..|s| - 1], c) else s
  }

  function TrimLeftChar(s: string, c: char): string {
    if s != "" && s[0] == c then TrimLeftChar(s[1..], c) else s
  }

  /** `strings.Trim(s, "/")` for a one-character cut set. */
  function TrimChar(s: string, c: char): string {
    TrimRightChar(TrimLeftChar(s, c), c)
  }

  function CutPrefix(s: string, prefix: string): Option<string> {
    if prefix <= s then Some(s[|prefix|..]) else None
  }

  function TrimPrefix(s: string, prefix: string): string {
    if prefix <= s then s[|prefix|..] else s
  }

  /** `strings.Split` on a one-character separator: never empty. */
  function Split(s: string, sep: char): (parts: seq<string>)
    ensures |parts| >= 1
  {
    if s == "" then [""]
    else
      var rest := Split(s[1..], sep);
      if s[0] == sep then [""] + rest else [[s[0]] + rest[0]] + rest[1..]
  }

  function Join(parts: seq<string>, sep: char): string
    requires |parts| >= 1
  {
    if |parts| == 1 then parts[0] else parts[0] + [sep] + Join(parts[1..], sep)
  }

  /** Splitting a separator-free head off. */
  lemma {:induction false} SplitHead(head: string, sep: char, rest: string)
    requires sep !in head
    ensures Split(head, sep) == [head]
    ensures Split(head + [sep] + rest, sep) == [head] + Split(rest, sep)
  {
    var s := head + [sep] + rest;
    if head == "" {
      assert s[1..] == rest;
    } else {
      assert s[1..] == head[1..] + [sep] + rest;
      SplitHead(head[1..], sep, rest);
      assert head == [head[0]] + head[1..];
    }
  }

  /** Splitting undoes joining. */
  lemma {:induction false} SplitJoin(parts: seq<string>, sep: char)
    requires |parts| >= 1
    requires forall p <- parts :: sep !in p
    ensures Split(Join(parts, sep), sep) == parts
  {
    SplitHead(parts[0], sep, if |parts| == 1 then "" else Join(parts[1..], sep));
    if |parts| > 1 { SplitJoin(parts[1..], sep); }
  }

  /** `strings.Cut` at the first separator. */
  function Cut(s: string, sep: char): Option<(string, string)> {
    if s == "" then None
    else if s[0] == sep then Some(("", s[1..]))
    else match Cut(s[1..], sep)
      case None => None
      case Some(p) => Some(([s[0]] + p.0, p.1))
  }

  lemma {:induction false} CutHead(head: string, sep: char, rest: string)
    requires sep !in head
    ensures Cut(head + [sep] + rest, sep) == Some((head, rest))
  {
    var s := head + [sep] + rest;
    if head == "" {
      assert s[1..] == rest;
    } else {
      assert s[1..] == head[1..] + [sep] + rest;
      CutHead(head[1..], sep, rest);
      assert head == [head[0]] + head[1..];
    }
  }

  predicate Digits(s: string) {
    forall i :: 0 <= i < |s| ==> '0' <= s[i] <= '9'
  }

  predicate AllDigits(s: string) {
    s != "" && Digits(s)
  }

  function DigitsValue(s: string): int
    requires Digits(s)
  {
    if s == "" then 0
    else DigitsValue(s[..|s| - 1]) * 10 + (s[|s| - 1] as int - '0' as int)
  }

  /** `strconv.ParseInt(s, 10, 64)` and, on a 64-bit platform, `strconv.Atoi`. */
  function ParseInt(s: string): Option<int> {
    var signed := s != "" && (s[0] == '-' || s[0] == '+');
    var digits := if signed then s[1..] else s;
    if !AllDigits(digits) then None
    else
      var n: int := if signed && s[0] == '-' then -DigitsValue(digits) else DigitsValue(digits);
      if MIN_INT64 <= n <= MAX_INT64 then Some(n) else None
  }

  /** `atoiDef` and `atoiDefault`: an unset or unreadable number takes its default. */
  function AtoiDef(s: string, def: int): int {
    if s == "" then def
    else match ParseInt(TrimSpace(s)) case Some(n) => n case None => def
  }

  /** `atoi`: an unreadable number is zero. */
  function Atoi(s: string): int {
    match ParseInt(s) case Some(n) => n case None => 0
  }

  function PrintNat(n: nat): string {
    if n < 10 then [('0' as int + n) as char]
    else PrintNat(n / 10) + [('0' as int + n % 10) as char]
  }

  lemma {:induction false} PrintNatValue(n: nat)
    ensures AllDigits(PrintNat(n))
    ensures DigitsValue(PrintNat(n)) == n
  {
    if n >= 10 {
      PrintNatValue(n / 10);
      var s := PrintNat(n);
      assert s[..|s| - 1] == PrintNat(n / 10);
    } else {
      var s := PrintNat(n);
      assert s[..|s| - 1] == "";
      assert DigitsValue(s) == DigitsValue("") * 10 + n;
    }
  }

  lemma ParsePrint(n: nat)
    requires n <= MAX_INT64
    ensures ParseInt(PrintNat(n)) == Some(n)
  {
    PrintNatValue(n);
    assert '0' <= PrintNat(n)[0];
  }

  /** The same ASCII letter in either case, or the same character. */
  predicate SameLetter(a: char, b: char) {
    || a == b
    || ('A' <= a <= 'Z' && b as int == a as int + 32)
    || ('A' <= b <= 'Z' && a as int == b as int + 32)
  }

  predicate SameButCase(a: string, b: string) {
    |a| == |b| && forall i :: 0 <= i < |a| ==> SameLetter(a[i], b[i])
  }

  /** Surrounding blanks are trimmed, and nothing else. */
  lemma {:induction false} TrimPadded(before: string, s: string, after: string)
    requires Trimmed(s) && (forall c <- before :: IsSpace(c)) && (forall c <- after :: IsSpace(c)) && s != ""
    ensures TrimSpace(before + s + after) == s
  {
    TrimLeftPadded(before, s + after);
    assert before + s + after == before + (s + after);
    TrimRightPadded(s, after);
  }

  lemma {:induction false} TrimLeftPadded(before: string, s: string)
    requires (forall c <- before :: IsSpace(c)) && s != "" && !IsSpace(s[0])
    ensures TrimLeft(before + s) == s
  {
    if before == "" {
      assert before + s == s;
    } else {
      assert (before + s)[1..] == before[1..] + s;
      TrimLeftPadded(before[1..], s);
    }
  }

  lemma {:induction false} TrimRightPadded(s: string, after: string)
    requires (forall c <- after :: IsSpace(c)) && s != "" && !IsSpace(s[|s| - 1])
    ensures TrimRight(s + after) == s
  {
    if after == "" {
      assert s + after == s;
    } else {
      assert (s + after)[..|s + after| - 1] == s + after[..|after| - 1];
      TrimRightPadded(s, after[..|after| - 1]);
    }
  }

  /** Signed numbers are read with their sign, and numbers out of range are not read. */
  lemma ParseSigned(n: int)
    requires n >= 0
    ensures ParseInt(PrintNat(n)) == (if n <= MAX_INT64 then Some(n) else None)
    ensures ParseInt("+" + PrintNat(n)) == (if n <= MAX_INT64 then Some(n) else None)
    ensures ParseInt("-" + PrintNat(n)) == (if n <= MAX_INT64 + 1 then Some(-n) else None)
  {
    PrintNatValue(n);
    assert '0' <= PrintNat(n)[0];
    assert ("+" + PrintNat(n))[1..] == PrintNat(n) == ("-" + PrintNat(n))[1..];
  }
}
