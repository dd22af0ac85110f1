/**
 The four base64 encodings of Go's encoding/base64 (sections 4 and 5 of RFC 4648,
 each padded or not) and the decoder that tries them in turn.
*/
module Base64 {
  import opened Basics

  /** An alphabet and whether the last group is padded. */
  datatype Encoding = Encoding(url: bool, padded: bool)

  const STD := Encoding(false, true)
  const RAW_STD := Encoding(false, false)
  const URL := Encoding(true, true)
  const RAW_URL := Encoding(true, false)

  lemma OneOfFour(enc: Encoding)
    ensures enc == STD || enc == RAW_STD || enc == URL || enc == RAW_URL
  {
  }

  predicate Sextet(n: int) {
    0 <= n < 64
  }

  function Symbol(n: int, url: bool): char
    requires Sextet(n)
  {
    if n < 26 then ('A' as int + n) as char
    else if n < 52 then ('a' as int + n - 26) as char
    else if n < 62 then ('0' as int + n - 52) as char
    else if n == 62 then (if url then '-' else '+')
    else (if url then '_' else '/')
  }

  function Value(c: char, url: bool): (n: Option<int>)
    ensures n.Some? ==> Sextet(n.value)
  {
    if 'A' <= c <= 'Z' then Some(c as int - 'A' as int)
    else if 'a' <= c <= 'z' then Some(c as int - 'a' as int + 26)
    else if '0' <= c <= '9' then Some(c as int - '0' as int + 52)
    else if c == (if url then '-' else '+') then Some(62)
    else if c == (if url then '_' else '/') then Some(63)
    else None
  }

  lemma ValueOfSymbol(n: int, url: bool)
    requires Sextet(n)
    ensures Value(Symbol(n, url), url) == Some(n)
  {
  }

  /** And no other character has a value. */
  lemma SymbolOfValue(c: char, url: bool)
    requires Value(c, url).Some?
    ensures Symbol(Value(c, url).value, url) == c
  {
  }

  /** The alphabets of RFC 4648: three runs of characters and two more. */
  lemma Alphabet(n: int, url: bool)
    requires Sextet(n)
    ensures Symbol(0, url) == 'A' && Symbol(25, url) == 'Z' && Symbol(26, url) == 'a' && Symbol(51, url) == 'z'
    ensures Symbol(52, url) == '0' && Symbol(61, url) == '9'
    ensures Symbol(62, false) == '+' && Symbol(63, false) == '/' && Symbol(62, true) == '-' && Symbol(63, true) == '_'
    ensures n < 61 && n != 25 && n != 51 ==> Symbol(n + 1, url) as int == Symbol(n, url) as int + 1
  {
  }

  // ---------------------------------------------------------------------------
  // Encoding
  // ---------------------------------------------------------------------------

  function Symbols(ns: seq<int>, url: bool): string
    requires forall n <- ns :: Sextet(n)
  {
    seq(|ns|, i requires 0 <= i < |ns| => Symbol(ns[i], url))
  }

  /** The sextets of a group of one to three bytes. */
  function Split(g: seq<byte>): (ns: seq<int>)
    requires 1 <= |g| <= 3
    ensures |ns| == |g| + 1
    ensures forall n <- ns :: Sextet(n)
  {
    var x: int := g[0];
    if |g| == 1 then [x / 4, x % 4 * 16]
    else
      var y: int := g[1];
      if |g| == 2 then [x / 4, x % 4 * 16 + y / 16, y % 16 * 4]
      else
        var z: int := g[2];
        [x / 4, x % 4 * 16 + y / 16, y % 16 * 4 + z / 64, z % 64]
  }

  /** A full group is the same number in base 256 and in base 64. */
  lemma SplitIsPositional(g: seq<byte>)
    requires |g| == 3
    ensures var ns := Split(g);
      var x: int, y: int, z: int := g[0], g[1], g[2];
      (x * 0x100 + y) * 0x100 + z == ((ns[0] * 64 + ns[1]) * 64 + ns[2]) * 64 + ns[3]
  {
  }

  function Padding(n: nat): string
    requires n <= 3
  {
    if n == 1 then "==" else if n == 2 then "=" else ""
  }

  function Encode(b: seq<byte>, enc: Encoding): string {
    if b == [] then ""
    else if |b| < 3 then Symbols(Split(b), enc.url) + (if enc.padded then Padding(|b|) else "")
    else Symbols(Split(b[..3]), enc.url) + Encode(b[3..], enc)
  }

  /** A last group is that of its bytes and zeros after them, cut short and padded. */
  lemma LastGroup(b: seq<byte>, enc: Encoding)
    requires 1 <= |b| <= 2
    ensures var whole := Encode(b + [0, 0], enc.(padded := false));
      |whole| >= |b| + 1 &&
      Encode(b, enc) == whole[..|b| + 1] + (if !enc.padded then "" else if |b| == 1 then "==" else "=")
  {
    var full: seq<byte> := b + [0, 0];
    var g := full[..3];
    assert g[..|b|] == b && forall i | |b| <= i < 3 :: g[i] == 0;
    assert Split(g)[..|b| + 1] == Split(b);
    var whole := Encode(full, enc.(padded := false));
    assert whole[..4] == Symbols(Split(g), enc.url);
    assert whole[..|b| + 1] == Symbols(Split(g), enc.url)[..|b| + 1] == Symbols(Split(b), enc.url);
  }

  // ---------------------------------------------------------------------------
  // Decoding
  // ---------------------------------------------------------------------------

  /** Line ends are skipped wherever they are. */
  function WithoutLineEnds(s: string): string {
    if s == "" then ""
    else (if s[0] == '\r' || s[0] == '\n' then "" else [s[0]]) + WithoutLineEnds(s[1..])
  }

  /** The values of the characters, if all are in the alphabet. */
  predicate InAlphabet(s: string, url: bool) {
    forall c <- s :: Value(c, url).Some?
  }

  function Values(s: string, url: bool): (ns: seq<int>)
    requires InAlphabet(s, url)
    ensures |ns| == |s|
    ensures forall n <- ns :: Sextet(n)
  {
    seq(|s|, i requires 0 <= i < |s| => assert s[i] in s; Value(s[i], url).value)
  }

  function Byte1(p: int, q: int): byte
    requires Sextet(p) && Sextet(q)
  {
    p * 4 + q / 16
  }

  function Byte2(q: int, r: int): byte
    requires Sextet(q) && Sextet(r)
  {
    q % 16 * 16 + r / 4
  }

  function Byte3(r: int, t: int): byte
    requires Sextet(r) && Sextet(t)
  {
    r % 4 * 64 + t
  }

  /** The bytes of a group of two to four sextets; bits left over are ignored. */
  function Join(ns: seq<int>): (g: seq<byte>)
    requires 2 <= |ns| <= 4 && forall n <- ns :: Sextet(n)
    ensures |g| == |ns| - 1
  {
    var first := Byte1(ns[0], ns[1]);
    if |ns| == 2 then [first]
    else
      var second := Byte2(ns[1], ns[2]);
      if |ns| == 3 then [first, second] else [first, second, Byte3(ns[2], ns[3])]
  }

  lemma JoinSplit(g: seq<byte>)
    requires 1 <= |g| <= 3
    ensures Join(Split(g)) == g
  {
    var ns := Split(g);
    assert Byte1(ns[0], ns[1]) == g[0];
    if |g| >= 2 {
      assert Byte2(ns[1], ns[2]) == g[1];
    }
    if |g| == 3 {
      assert Byte3(ns[2], ns[3]) == g[2];
    }
  }

  /** A group is one number in both bases, but for bits left over. */
  lemma JoinIsPositional(ns: seq<int>)
    requires 2 <= |ns| <= 4 && forall n <- ns :: Sextet(n)
    ensures var g := Join(ns);
      var x: int := g[0];
      && (|ns| == 2 ==> x == (ns[0] * 64 + ns[1]) / 16)
      && (|ns| == 3 ==> var y: int := g[1]; x * 0x100 + y == ((ns[0] * 64 + ns[1]) * 64 + ns[2]) / 4)
      && (|ns| == 4 ==> var y: int, z: int := g[1], g[2];
                        (x * 0x100 + y) * 0x100 + z == ((ns[0] * 64 + ns[1]) * 64 + ns[2]) * 64 + ns[3])
  {
    assert Sextet(ns[0]) && Sextet(ns[1]) && (|ns| > 2 ==> Sextet(ns[2])) && (|ns| > 3 ==> Sextet(ns[3]));
  }

  lemma ValuesOfSymbols(ns: seq<int>, url: bool)
    requires forall n <- ns :: Sextet(n)
    ensures InAlphabet(Symbols(ns, url), url)
    ensures Values(Symbols(ns, url), url) == ns
  {
    forall i | 0 <= i < |ns|
      ensures Value(Symbols(ns, url)[i], url) == Some(ns[i])
    {
      ValueOfSymbol(ns[i], url);
    }
  }

  /** The last group without its padding; None when a padded encoding finds none. */
  function Unpadded(s: string, padded: bool): Option<string> {
    if !padded then Some(s)
    else if |s| != 4 || s[3] != '=' then None
    else if s[2] == '=' then Some(s[..2])
    else Some(s[..3])
  }

  /** The last group: two or three characters, and padding if the encoding pads. */
  function DecodeTail(s: string, enc: Encoding): Option<seq<byte>> {
    var digits := Unpadded(s, enc.padded);
    if digits.None? || !InAlphabet(digits.value, enc.url) || !(2 <= |digits.value| <= 3) then None
    else Some(Join(Values(digits.value, enc.url)))
  }

  function DecodeGroups(s: string, enc: Encoding): Option<seq<byte>>
    decreases |s|
  {
    if s == "" then Some([])
    else if |s| >= 4 && InAlphabet(s[..4], enc.url) then
      var rest := DecodeGroups(s[4..], enc);
      if rest.None? then None else Some(Join(Values(s[..4], enc.url)) + rest.value)
    else DecodeTail(s, enc)
  }

  function Decode(s: string, enc: Encoding): Option<seq<byte>> {
    DecodeGroups(WithoutLineEnds(s), enc)
  }

  /** Text of the alphabet, not one character past a full group, and exactly the padding it needs. */
  ghost predicate WellFormed(s: string, enc: Encoding) {
    exists n: nat | n <= |s| :: Digits(s, n, enc.url) && s[n..] == Pad(n, enc.padded)
  }

  predicate Digits(s: string, n: nat, url: bool)
    requires n <= |s|
  {
    n % 4 != 1 && InAlphabet(s[..n], url)
  }

  function Pad(n: nat, padded: bool): string {
    if padded && n % 4 == 2 then "==" else if padded && n % 4 == 3 then "=" else ""
  }

  /** The texts that a decoder accepts, exactly. */
  lemma {:induction false} DecodesExactly(s: string, enc: Encoding)
    ensures DecodeGroups(s, enc).Some? <==> WellFormed(s, enc)
    decreases |s|
  {
    if s == "" {
      assert Digits(s, 0, enc.url) && s[0..] == Pad(0, enc.padded);
    } else if |s| >= 4 && InAlphabet(s[..4], enc.url) {
      DecodesExactly(s[4..], enc);
      GroupPrepended(s, enc);
    } else {
      TailExactly(s, enc);
    }
  }

  lemma GroupPrepended(s: string, enc: Encoding)
    requires |s| >= 4 && InAlphabet(s[..4], enc.url)
    ensures WellFormed(s, enc) <==> WellFormed(s[4..], enc)
  {
    if n: nat :| n <= |s| && Digits(s, n, enc.url) && s[n..] == Pad(n, enc.padded) {
      assert s[3] in s[..4] && Value('=', enc.url).None?;
      if n < 4 {
        assert false;
      }
      assert s[4..][..n - 4] == s[..n][4..] && s[4..][n - 4..] == s[n..];
      assert Digits(s[4..], n - 4, enc.url) && s[4..][n - 4..] == Pad(n - 4, enc.padded);
    }
    if m: nat :| m <= |s[4..]| && Digits(s[4..], m, enc.url) && s[4..][m..] == Pad(m, enc.padded) {
      assert s[..m + 4] == s[..4] + s[4..][..m] && s[m + 4..] == s[4..][m..];
      assert Digits(s, m + 4, enc.url) && s[m + 4..] == Pad(m + 4, enc.padded);
    }
  }

  lemma TailExactly(s: string, enc: Encoding)
    requires s != "" && !(|s| >= 4 && InAlphabet(s[..4], enc.url))
    ensures DecodeTail(s, enc).Some? <==> WellFormed(s, enc)
  {
    var digits := Unpadded(s, enc.padded);
    if DecodeTail(s, enc).Some? {
      var n := |digits.value|;
      assert s[..n] == digits.value;
      assert Digits(s, n, enc.url) && s[n..] == Pad(n, enc.padded);
    }
    if n: nat :| n <= |s| && Digits(s, n, enc.url) && s[n..] == Pad(n, enc.padded) {
      if n >= 4 {
        assert false;
      }
      assert 2 <= n <= 3;
      assert s == s[..n] + s[n..];
      if enc.padded {
        assert s[3] == s[n..][3 - n] == '=';
        assert n == 3 ==> s[2] in s[..3] && Value('=', enc.url).None?;
        assert n == 2 ==> s[2] == s[n..][0];
      }
      assert digits == Some(s[..n]);
    }
  }

  /** Line ends are skipped wherever they are. */
  lemma LineEndsSkipped(a: string, end: char, b: string, enc: Encoding)
    requires end == '\r' || end == '\n'
    ensures Decode(a + [end] + b, enc) == Decode(a + b, enc)
  {
    LineEndRemoved(a, end, b);
  }

  lemma {:induction false} LineEndRemoved(a: string, end: char, b: string)
    requires end == '\r' || end == '\n'
    ensures WithoutLineEnds(a + [end] + b) == WithoutLineEnds(a + b)
  {
    if a == "" {
      assert (a + [end] + b)[1..] == b && a + b == b;
    } else {
      LineEndRemoved(a[1..], end, b);
      assert (a + [end] + b)[1..] == a[1..] + [end] + b && (a + b)[1..] == a[1..] + b;
    }
  }

  /** `decodeBase64Any` */
  method DecodeBase64Any(value: string) returns (r: Result<seq<byte>>)
    ensures r.Ok? <==> DecodeAny(value).Some?
    ensures r.Ok? ==> r.value == DecodeAny(value).value
    ensures r.Ok? <==> exists enc :: Decode(value, enc).Some?
    ensures r.Ok? ==> exists enc :: Decode(value, enc) == Some(r.value)
  {
    var encodings := [STD, RAW_STD, URL, RAW_URL];
    for i := 0 to |encodings|
      invariant i > 0 ==> Decode(value, STD).None?
      invariant i > 1 ==> Decode(value, RAW_STD).None?
      invariant i > 2 ==> Decode(value, URL).None?
      invariant i > 3 ==> Decode(value, RAW_URL).None?
    {
      var raw := Decode(value, encodings[i]);
      if raw.Some? {
        return Ok(raw.value);
      }
    }
    forall enc
      ensures Decode(value, enc).None?
    {
      OneOfFour(enc);
    }
    return Err("cannot decode");
  }

  /** The first encoding that can read the text decides. */
  function DecodeAny(value: string): Option<seq<byte>> {
    if Decode(value, STD).Some? then Decode(value, STD)
    else if Decode(value, RAW_STD).Some? then Decode(value, RAW_STD)
    else if Decode(value, URL).Some? then Decode(value, URL)
    else Decode(value, RAW_URL)
  }

  // ---------------------------------------------------------------------------
  // Round trips
  // ---------------------------------------------------------------------------

  lemma {:induction false} EncodedText(b: seq<byte>, enc: Encoding)
    ensures forall c <- Encode(b, enc) :: c == '=' || Value(c, enc.url).Some?
    ensures b != [] ==> Encode(b, enc) != ""
  {
    if |b| >= 3 {
      ValuesOfSymbols(Split(b[..3]), enc.url);
      EncodedText(b[3..], enc);
    } else if b != [] {
      ValuesOfSymbols(Split(b), enc.url);
    }
  }

  lemma {:induction false} NoLineEnds(s: string)
    requires '\r' !in s && '\n' !in s
    ensures WithoutLineEnds(s) == s
  {
    if s != "" {
      NoLineEnds(s[1..]);
      assert [s[0]] + s[1..] == s;
    }
  }

  lemma {:induction false} GroupsRoundTrip(b: seq<byte>, enc: Encoding)
    ensures DecodeGroups(Encode(b, enc), enc) == Some(b)
  {
    if |b| >= 3 {
      var s := Encode(b, enc);
      var g := Symbols(Split(b[..3]), enc.url);
      assert s[..4] == g && s[4..] == Encode(b[3..], enc);
      ValuesOfSymbols(Split(b[..3]), enc.url);
      JoinSplit(b[..3]);
      GroupsRoundTrip(b[3..], enc);
      assert b[..3] + b[3..] == b;
    } else if b != [] {
      TailRoundTrip(b, enc);
    }
  }

  lemma TailRoundTrip(b: seq<byte>, enc: Encoding)
    requires 1 <= |b| <= 2
    ensures DecodeGroups(Encode(b, enc), enc) == Some(b)
  {
    var s := Encode(b, enc);
    var d := Symbols(Split(b), enc.url);
    ValuesOfSymbols(Split(b), enc.url);
    JoinSplit(b);
    if enc.padded {
      assert s[3] == '=' && s[..4][3] == '=';
      assert '=' in s[..4] && Value('=', enc.url).None?;
      assert s[|b| + 1] == '=';
      assert |b| == 2 ==> s[2] == d[2] && d[2] in d;
      assert s[..|b| + 1] == d;
    } else {
      assert s == d;
    }
    assert DecodeTail(s, enc) == Some(b);
  }

  /** A character both alphabets know has the same value in both. */
  lemma AlphabetsAgree(s: string, a: bool, b: bool)
    requires InAlphabet(s, a) && InAlphabet(s, b)
    ensures Values(s, a) == Values(s, b)
  {
    forall i | 0 <= i < |s|
      ensures Values(s, a)[i] == Values(s, b)[i]
    {
      assert s[i] in s;
    }
  }

  lemma TailsAgree(s: string, a: Encoding, b: Encoding)
    requires DecodeTail(s, a).Some? && DecodeTail(s, b).Some?
    ensures DecodeTail(s, a) == DecodeTail(s, b)
  {
    AlphabetsAgree(Unpadded(s, a.padded).value, a.url, b.url);
  }

  lemma TailHasPadding(s: string, enc: Encoding)
    requires |s| >= 4 && DecodeTail(s, enc).Some?
    ensures s[3] == '='
  {
  }

  /** Two encodings that can both read a text read the same bytes. */
  lemma {:induction false} GroupsAgree(s: string, a: Encoding, b: Encoding)
    requires DecodeGroups(s, a).Some? && DecodeGroups(s, b).Some?
    ensures DecodeGroups(s, a) == DecodeGroups(s, b)
    decreases |s|
  {
    if s == "" {
    } else if |s| < 4 || (!InAlphabet(s[..4], a.url) && !InAlphabet(s[..4], b.url)) {
      TailsAgree(s, a, b);
    } else {
      assert s[3] in s[..4];
      if !InAlphabet(s[..4], a.url) {
        TailHasPadding(s, a);
      }
      if !InAlphabet(s[..4], b.url) {
        TailHasPadding(s, b);
      }
      AlphabetsAgree(s[..4], a.url, b.url);
      GroupsAgree(s[4..], a, b);
    }
  }

  lemma DecodersAgree(s: string, a: Encoding, b: Encoding)
    requires Decode(s, a).Some? && Decode(s, b).Some?
    ensures Decode(s, a) == Decode(s, b)
  {
    GroupsAgree(WithoutLineEnds(s), a, b);
  }

  /** Whichever encoding wrote a text, trying all four in order recovers the bytes. */
  lemma DecodeAnyRoundTrip(b: seq<byte>, enc: Encoding)
    ensures DecodeAny(Encode(b, enc)) == Some(b)
  {
    var s := Encode(b, enc);
    EncodedText(b, enc);
    NoLineEnds(s);
    GroupsRoundTrip(b, enc);
    assert Decode(s, enc) == Some(b);
    forall e | Decode(s, e).Some?
      ensures Decode(s, e) == Some(b)
    {
      DecodersAgree(s, e, enc);
    }
    OneOfFour(enc);
  }

  /** The order in which they are tried does not matter. */
  lemma DecodeAnyExact(s: string, b: seq<byte>)
    ensures DecodeAny(s) == Some(b) <==> exists enc :: Decode(s, enc) == Some(b)
  {
    if DecodeAny(s) == Some(b) {
      assert Decode(s, STD) == Some(b) || Decode(s, RAW_STD) == Some(b) || Decode(s, URL) == Some(b)
          || Decode(s, RAW_URL) == Some(b);
    }
    forall enc | Decode(s, enc) == Some(b)
      ensures DecodeAny(s) == Some(b)
    {
      OneOfFour(enc);
      forall e | Decode(s, e).Some?
        ensures Decode(s, e) == Some(b)
      {
        DecodersAgree(s, e, enc);
      }
    }
  }
}
