/** The string functions of Go's standard library that the parsers are built from. */
module Text {
  import opened Basics

  // ---------------------------------------------------------------------------
  // White space and case
  // ---------------------------------------------------------------------------

  /** unicode.IsSpace */
  predicate IsSpace(c: char) {
    || '\t' <= c <= '\r' || c == ' '
    || c == '\U{0085}' || c == '\U{00A0}' || c == '\U{1680}' || '\U{2000}' <= c <= '\U{200A}'
    || c == '\U{2028}' || c == '\U{2029}' || c == '\U{202F}' || c == '\U{205F}' || c == '\U{3000}'
  }

  /** White space in ASCII. */
  lemma AsciiSpaces(c: char)
    requires c < '\U{0080}'
    ensures IsSpace(c) <==>
            c == '\t' || c == '\n' || c == '\U{000B}' || c == '\U{000C}' || c == '\r' || c == ' '
  {
  }

  predicate Trimmed(s: string) {
    s != "" ==> !IsSpace(s[0]) && !IsSpace(s[|s| - 1])
  }

  function TrimLeft(s: string): (r: string)
    ensures r != "" ==> s != "" && !IsSpace(r[0]) && r[|r| - 1] == s[|s| - 1]
    ensures forall c <- r :: c in s
  {
    if s != "" && IsSpace(s[0]) then TrimLeft(s[1..]) else s
  }

  function TrimRight(s: string): (r: string)
    ensures r != "" ==> s != "" && !IsSpace(r[|r| - 1]) && r[0] == s[0]
    ensures forall c <- r :: c in s
  {
    if s != "" && IsSpace(s[|s| - 1]) then TrimRight(s[..|s| - 1]) else s
  }

  /** strings.TrimSpace: what is left starts and ends with something visible. */
  function TrimSpace(s: string): (r: string)
    ensures Trimmed(r)
    ensures Trimmed(s) ==> r == s
    ensures forall c <- r :: c in s
  {
    TrimRight(TrimLeft(s))
  }

  /** What TrimSpace takes away is white space at the two ends. */
  lemma TrimSpaceCuts(s: string) returns (i: nat, j: nat)
    ensures i <= j <= |s| && TrimSpace(s) == s[i..j]
    ensures forall k | 0 <= k < |s| && !(i <= k < j) :: IsSpace(s[k])
  {
    i := TrimLeftCuts(s);
    j := TrimRightCuts(s[i..]);
    j := i + j;
    forall k | j <= k < |s|
      ensures IsSpace(s[k])
    {
      assert s[k] == s[i..][k - i];
    }
  }

  lemma {:induction false} TrimLeftCuts(s: string) returns (i: nat)
    ensures i <= |s| && TrimLeft(s) == s[i..]
    ensures forall k | 0 <= k < i :: IsSpace(s[k])
  {
    if s != "" && IsSpace(s[0]) {
      i := TrimLeftCuts(s[1..]);
      assert forall k | 1 <= k < i + 1 :: s[k] == s[1..][k - 1];
      i := i + 1;
    } else {
      i := 0;
    }
  }

  lemma {:induction false} TrimRightCuts(s: string) returns (j: nat)
    ensures j <= |s| && TrimRight(s) == s[..j]
    ensures forall k | j <= k < |s| :: IsSpace(s[k])
  {
    if s != "" && IsSpace(s[|s| - 1]) {
      j := TrimRightCuts(s[..|s| - 1]);
    } else {
      j := |s|;
    }
  }

  /** unicode.ToLower, as far as ASCII results go: two letters outside ASCII have an ASCII lower case. */
  function LowerChar(c: char): char {
    if 'A' <= c <= 'Z' then ((c as int) + 32) as char
    else if c == '\U{0130}' then 'i'
    else if c == '\U{212A}' then 'k'
    else c
  }

  function ToLower(s: string): (r: string)
    ensures |r| == |s|
    ensures forall i | 0 <= i < |s| :: r[i] == LowerChar(s[i])
  {
    seq(|s|, i requires 0 <= i < |s| => LowerChar(s[i]))
  }

  /** The letters of ASCII in lower case, and everything else in ASCII as it is. */
  lemma LowerLetters(upper: string, lower: string)
    requires upper == "ABCDEFGHIJKLMNOPQRSTUVWXYZ" && lower == "abcdefghijklmnopqrstuvwxyz"
    ensures ToLower(upper) == lower && ToLower(lower) == lower
    ensures forall c: char | c < 'A' || 'Z' < c < '\U{0080}' :: ToLower([c]) == [c]
  {
  }

  /** The length in bytes, which is what Go's `len` counts. */
  function ByteLength(s: string): nat {
    if s == "" then 0
    else
      (if s[0] < '\U{0080}' then 1
       else if s[0] < '\U{0800}' then 2
       else if s[0] < '\U{10000}' then 3
       else 4) + ByteLength(s[1..])
  }

  /** The four lengths of UTF-8, where they begin and end. */
  lemma Utf8Lengths()
    ensures ByteLength("\U{0000}") == ByteLength("\U{007F}") == 1
    ensures ByteLength("\U{0080}") == ByteLength("\U{07FF}") == 2
    ensures ByteLength("\U{0800}") == ByteLength("\U{FFFF}") == 3
    ensures ByteLength("\U{10000}") == ByteLength("\U{10FFFF}") == 4
  {
  }

  /** ASCII text has one byte per character. */
  lemma {:induction false} AsciiLength(s: string)
    requires forall c <- s :: c < '\U{0080}'
    ensures ByteLength(s) == |s|
  {
    if s != "" {
      assert s[0] in s && forall c <- s[1..] :: c in s;
      AsciiLength(s[1..]);
    }
  }

  // ---------------------------------------------------------------------------
  // Searching and splitting
  // ---------------------------------------------------------------------------

  /** strings.LastIndex of one character, or the length when there is none. */
  function LastIndex(s: string, c: char): (i: nat)
    ensures i <= |s|
    ensures i < |s| ==> s[i] == c && c !in s[i + 1..]
    ensures i == |s| ==> c !in s
  {
    LastIndexBefore(s, c, |s|)
  }

  function LastIndexBefore(s: string, c: char, n: nat): (i: nat)
    requires n <= |s| && c !in s[n..]
    ensures i <= |s|
    ensures i < |s| ==> s[i] == c && c !in s[i + 1..]
    ensures i == |s| ==> c !in s
  {
    if n == 0 then
      assert s[0..] == s;
      |s|
    else if s[n - 1] == c then n - 1
    else
      assert s[n - 1..] == [s[n - 1]] + s[n..];
      LastIndexBefore(s, c, n - 1)
  }

  /** strings.Split by one character. */
  function Split(s: string, c: char): (parts: seq<string>)
    ensures |parts| >= 1
    ensures forall p <- parts :: c !in p
  {
    if s == "" then [""]
    else
      var rest := Split(s[1..], c);
      if s[0] == c then [""] + rest else [[s[0]] + rest[0]] + rest[1..]
  }

  lemma {:induction false} SplitNone(s: string, c: char)
    requires c !in s
    ensures Split(s, c) == [s]
  {
    if s != "" {
      SplitNone(s[1..], c);
      assert [s[0]] + s[1..] == s;
    }
  }

  lemma {:induction false} SplitJoined(a: string, c: char, b: string)
    requires c !in a
    ensures Split(a + [c] + b, c) == [a] + Split(b, c)
  {
    var s := a + [c] + b;
    if a == "" {
      assert s[1..] == b;
    } else {
      SplitJoined(a[1..], c, b);
      assert s[1..] == a[1..] + [c] + b;
      assert [a[0]] + a[1..] == a;
    }
  }

  /** Where the separator occurs, there is more than one part. */
  lemma {:induction false} SplitMany(s: string, c: char)
    requires c in s
    ensures |Split(s, c)| >= 2
  {
    if s[0] != c {
      SplitMany(s[1..], c);
    }
  }

  /** Cutting at the first separator is unambiguous. */
  lemma CutUnique(a: string, b: string, c: string, d: string, sep: char)
    requires sep !in a && sep !in c
    requires a + [sep] + b == c + [sep] + d
    ensures a == c && b == d
  {
    var s, t := a + [sep] + b, c + [sep] + d;
    assert s[|a|] == sep && t[|c|] == sep;
    if |a| < |c| {
      assert false;
    }
    if |c| < |a| {
      assert false;
    }
    assert a == s[..|a|] && c == s[..|a|];
    assert b == s[|a| + 1..] && d == s[|a| + 1..];
  }

  // ---------------------------------------------------------------------------
  // Decimal numbers
  // ---------------------------------------------------------------------------

  const MAX_INT := 0x7FFF_FFFF_FFFF_FFFF

  predicate IsDigit(c: char) {
    '0' <= c <= '9'
  }

  predicate AllDigits(s: string) {
    s != "" && forall c <- s :: IsDigit(c)
  }

  function DigitsValue(s: string): nat
    requires forall c <- s :: IsDigit(c)
  {
    if s == "" then 0
    else
      var last := s[|s| - 1];
      assert IsDigit(last);
      var digit: nat := (last as int) - ('0' as int);
      10 * DigitsValue(s[..|s| - 1]) + digit
  }

  /** strconv.Atoi with a 64-bit int: an optional sign, then digits, within range. */
  function Atoi(s: string): Option<int> {
    var digits := if s != "" && (s[0] == '+' || s[0] == '-') then s[1..] else s;
    if !AllDigits(digits) then None
    else
      var v: int := DigitsValue(digits);
      var n := if s[0] == '-' then -v else v;
      if -MAX_INT - 1 <= n <= MAX_INT then Some(n) else None
  }

  function Digit(d: int): char
    requires 0 <= d < 10
  {
    ('0' as int + d) as char
  }

  function Decimal(n: nat): (s: string)
    ensures AllDigits(s) && DigitsValue(s) == n
  {
    if n < 10 then
      assert [Digit(n)][..0] == "";
      [Digit(n)]
    else
      var s := Decimal(n / 10) + [Digit(n % 10)];
      assert s[..|s| - 1] == Decimal(n / 10);
      s
  }

  /** A printed number is read back, and neither a separator nor white space occurs in it. */
  lemma AtoiDecimal(n: nat)
    requires n <= MAX_INT
    ensures Atoi(Decimal(n)) == Some(n)
    ensures '-' !in Decimal(n) && ',' !in Decimal(n) && Trimmed(Decimal(n))
  {
    assert Decimal(n)[0] in Decimal(n);
    assert Decimal(n)[|Decimal(n)| - 1] in Decimal(n);
  }

  /** A sign counts, up to the ends of the range. */
  lemma AtoiSigned(digits: string)
    requires AllDigits(digits)
    ensures var n: int := DigitsValue(digits);
      && Atoi(['-'] + digits) == (if n <= 0x8000_0000_0000_0000 then Some(-n) else None)
      && Atoi(['+'] + digits) == (if n <= 0x7FFF_FFFF_FFFF_FFFF then Some(n) else None)
  {
    assert (['-'] + digits)[1..] == digits && (['+'] + digits)[1..] == digits;
  }
}
