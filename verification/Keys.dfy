/** Keys and client ids as the WireGuard options spell them. */
module Keys {
  import opened Basics
  import Text
  import Base64

  const KEY_SIZE := 32

  // ---------------------------------------------------------------------------
  // Keys
  // ---------------------------------------------------------------------------

  /** The 32 bytes a key option stands for. */
  function KeyOf(value: string): Option<seq<byte>> {
    var trimmed := Text.TrimSpace(value);
    var raw := Base64.DecodeAny(trimmed);
    if trimmed == "" || raw.None? || |raw.value| != KEY_SIZE then None else raw
  }

  /** `parseNoiseKey` */
  method ParseNoiseKey(value: string) returns (key: Result<seq<byte>>)
    ensures key.Ok? <==> KeyOf(value).Some?
    ensures key.Ok? ==> key.value == KeyOf(value).value && |key.value| == KEY_SIZE
    ensures var raw := Base64.DecodeAny(Text.TrimSpace(value));
      && (key.Ok? <==> raw.Some? && |raw.value| == 32)
      && (key.Ok? ==> key.value == raw.value)
  {
    var trimmed := Text.TrimSpace(value);
    if trimmed == "" {
      return Err("required");
    }
    var raw := Base64.DecodeBase64Any(trimmed);
    if raw.Err? {
      return Err("not valid base64");
    }
    if |raw.value| != KEY_SIZE {
      return Err("wrong length");
    }
    return Ok(raw.value);
  }

  /** Base64 text neither starts nor ends with white space, and has no comma. */
  lemma EncodedIsTrimmed(b: seq<byte>, enc: Base64.Encoding)
    ensures Text.TrimSpace(Base64.Encode(b, enc)) == Base64.Encode(b, enc)
    ensures ',' !in Base64.Encode(b, enc)
    ensures b != [] ==> Base64.Encode(b, enc) != ""
  {
    var s := Base64.Encode(b, enc);
    Base64.EncodedText(b, enc);
    forall i | 0 <= i < |s|
      ensures !Text.IsSpace(s[i]) && s[i] != ','
    {
      assert s[i] in s;
      SymbolIsVisible(s[i], enc.url);
    }
    assert Text.Trimmed(s);
  }

  lemma SymbolIsVisible(c: char, url: bool)
    requires c == '=' || Base64.Value(c, url).Some?
    ensures !Text.IsSpace(c) && c != ','
  {
  }

  /** Every key comes back from each of its four spellings. */
  lemma KeyRoundTrip(key: seq<byte>, enc: Base64.Encoding)
    requires |key| == 32
    ensures KeyOf(Base64.Encode(key, enc)) == Some(key)
  {
    EncodedIsTrimmed(key, enc);
    Base64.DecodeAnyRoundTrip(key, enc);
  }

  // ---------------------------------------------------------------------------
  // Reserved bytes
  // ---------------------------------------------------------------------------

  function Number(part: string): Option<byte> {
    var n := Text.Atoi(Text.TrimSpace(part));
    if n.Some? && 0 <= n.value <= 255 then Some(n.value) else None
  }

  /** The three bytes a reserved option stands for. */
  function ReservedOf(value: string): Option<seq<byte>> {
    var trimmed := Text.TrimSpace(value);
    if trimmed == "" then Some([0, 0, 0])
    else if ',' in trimmed then
      var parts := Text.Split(trimmed, ',');
      if |parts| != 3 then None
      else
        var a, b, c := Number(parts[0]), Number(parts[1]), Number(parts[2]);
        if a.None? || b.None? || c.None? then None else Some([a.value, b.value, c.value])
    else
      var raw := Base64.DecodeAny(trimmed);
      if raw.None? || |raw.value| != 3 then None else raw
  }

  /** `parseReserved`, which fills an array of three. */
  method ParseReserved(value: string) returns (out: array<byte>, err: Option<string>)
    ensures fresh(out) && out.Length == 3
    ensures err.None? <==> ReservedOf(value).Some?
    ensures err.None? ==> out[..] == ReservedOf(value).value
  {
    out := new byte[3](_ => 0);
    var trimmed := Text.TrimSpace(value);
    if trimmed == "" {
      assert out[..] == [0, 0, 0];
      return out, None;
    }
    if ',' in trimmed {
      var parts := Text.Split(trimmed, ',');
      if |parts| != 3 {
        return out, Some("wrong number of values");
      }
      err := ParseTriple(parts, out);
      return;
    }
    var raw := Base64.DecodeBase64Any(trimmed);
    if raw.Err? {
      return out, Some("neither \"a,b,c\" nor base64");
    }
    if |raw.value| != 3 {
      return out, Some("wrong length");
    }
    out[0], out[1], out[2] := raw.value[0], raw.value[1], raw.value[2];
    assert out[..] == raw.value;
    return out, None;
  }

  /** The loop over the three values. */
  method ParseTriple(parts: seq<string>, out: array<byte>) returns (err: Option<string>)
    requires |parts| == 3 && out.Length == 3
    modifies out
    ensures var a, b, c := Number(parts[0]), Number(parts[1]), Number(parts[2]);
      && (err.None? <==> a.Some? && b.Some? && c.Some?)
      && (err.None? ==> out[..] == [a.value, b.value, c.value])
  {
    ghost var numbers := [Number(parts[0]), Number(parts[1]), Number(parts[2])];
    var i := 0;
    while i < 3
      invariant 0 <= i <= 3
      invariant forall j | 0 <= j < i :: numbers[j] == Some(out[j])
    {
      var n := Number(parts[i]);
      assert n == numbers[i];
      if n.None? {
        return Some("not three values in 0-255");
      }
      out[i] := n.value;
      i := i + 1;
    }
    assert out[..] == [out[0], out[1], out[2]];
    return None;
  }

  function Triple(a: byte, b: byte, c: byte): string {
    Text.Decimal(a) + [','] + (Text.Decimal(b) + [','] + Text.Decimal(c))
  }

  /** Every client id comes back from "a,b,c" and from each of its base64 spellings. */
  lemma ReservedRoundTrip(a: byte, b: byte, c: byte, enc: Base64.Encoding)
    ensures ReservedOf(Triple(a, b, c)) == Some([a, b, c])
    ensures ReservedOf(Base64.Encode([a, b, c], enc)) == Some([a, b, c])
  {
    TripleSplit(a, b, c);
    Text.AtoiDecimal(a);
    Text.AtoiDecimal(b);
    Text.AtoiDecimal(c);
    EncodedIsTrimmed([a, b, c], enc);
    Base64.DecodeAnyRoundTrip([a, b, c], enc);
  }

  /** Blank text stands for zeros, and one comma is refused. */
  lemma ReservedDefault(value: string, x: string, y: string)
    requires ',' !in x && ',' !in y
    ensures Text.TrimSpace(value) == "" ==> ReservedOf(value) == Some([0, 0, 0])
    ensures Text.TrimSpace(value) == x + [','] + y ==> ReservedOf(value) == None
  {
    Text.SplitNone(y, ',');
    Text.SplitJoined(x, ',', y);
    assert (x + [','] + y)[|x|] == ',';
  }

  /** Text with more commas needs three parts, each a number within a byte. */
  lemma ReservedTriple(value: string, x: string, y: string, rest: string)
    requires ',' !in x && ',' !in y
    requires Text.TrimSpace(value) == x + [','] + (y + [','] + rest)
    ensures var a, b, c := Text.Atoi(Text.TrimSpace(x)), Text.Atoi(Text.TrimSpace(y)), Text.Atoi(Text.TrimSpace(rest));
      ReservedOf(value) ==
        if ',' !in rest && InByte(a) && InByte(b) && InByte(c) then Some([a.value, b.value, c.value]) else None
  {
    var tail := y + [','] + rest;
    Text.SplitJoined(y, ',', rest);
    Text.SplitJoined(x, ',', tail);
    if ',' in rest {
      Text.SplitMany(rest, ',');
    } else {
      Text.SplitNone(rest, ',');
    }
    assert (x + [','] + tail)[|x|] == ',';
  }

  predicate InByte(n: Option<int>) {
    n.Some? && 0 <= n.value <= 255
  }

  /** Other text is base64 of three bytes. */
  lemma ReservedFromBase64(value: string)
    requires ',' !in value && Text.TrimSpace(value) != ""
    ensures var raw := Base64.DecodeAny(Text.TrimSpace(value));
      ReservedOf(value) == if raw.Some? && |raw.value| == 3 then raw else None
  {
  }

  lemma TripleSplit(a: byte, b: byte, c: byte)
    ensures var s := Triple(a, b, c);
      && Text.TrimSpace(s) == s && s != "" && ',' in s
      && Text.Split(s, ',') == [Text.Decimal(a), Text.Decimal(b), Text.Decimal(c)]
  {
    Text.AtoiDecimal(a);
    Text.AtoiDecimal(b);
    Text.AtoiDecimal(c);
    var s := Triple(a, b, c);
    var tail := Text.Decimal(b) + [','] + Text.Decimal(c);
    assert s[|Text.Decimal(a)|] == ',';
    assert s[0] == Text.Decimal(a)[0] && s[|s| - 1] == Text.Decimal(c)[|Text.Decimal(c)| - 1];
    Text.SplitNone(Text.Decimal(c), ',');
    Text.SplitJoined(Text.Decimal(b), ',', Text.Decimal(c));
    Text.SplitJoined(Text.Decimal(a), ',', tail);
  }

  // ---------------------------------------------------------------------------
  // Clamping
  // ---------------------------------------------------------------------------

  /** The number a little-endian scalar stands for (section 5 of RFC 7748). */
  function LittleEndian(s: seq<byte>): nat {
    if s == [] then 0 else s[0] + 0x100 * LittleEndian(s[1..])
  }

  function Power256(n: nat): nat {
    if n == 0 then 1 else 0x100 * Power256(n - 1)
  }

  /** The top byte counts multiples of the weight of its place; the rest stays below that weight. */
  lemma {:induction false} TopByte(s: seq<byte>)
    requires s != []
    ensures LittleEndian(s[..|s| - 1]) < Power256(|s| - 1)
    ensures LittleEndian(s) == LittleEndian(s[..|s| - 1]) + s[|s| - 1] * Power256(|s| - 1)
  {
    if |s| > 1 {
      TopByte(s[1..]);
      assert s[1..][..|s| - 2] == s[..|s| - 1][1..];
      Associate(s[|s| - 1], Power256(|s| - 2));
    }
  }

  lemma Associate(a: nat, b: nat)
    ensures 0x100 * (a * b) == a * (0x100 * b)
  {
  }

  /** A scalar whose low three bits are clear and whose top byte is 01xxxxxx. */
  lemma ClampedValue(s: seq<byte>)
    requires |s| >= 2 && s[0] % 8 == 0 && 0x40 <= s[|s| - 1] < 0x80
    ensures LittleEndian(s) % 8 == 0
    ensures 0x40 * Power256(|s| - 1) <= LittleEndian(s) < 0x80 * Power256(|s| - 1)
  {
    var low: int := s[0];
    assert LittleEndian(s) == low + 8 * (0x20 * LittleEndian(s[1..]));
    TopByte(s);
    TopByteBounds(s[|s| - 1], LittleEndian(s[..|s| - 1]), Power256(|s| - 1));
  }

  lemma TopByteBounds(top: int, low: nat, unit: nat)
    requires 0x40 <= top <= 0x7F && low < unit
    ensures 0x40 * unit <= low + top * unit < 0x80 * unit
  {
  }

  /** The byte without its low three bits. */
  function LowCleared(b: byte): (r: byte)
    ensures r % 8 == 0
  {
    b - b % 8
  }

  /** The byte with its top bit cleared and the next one set. */
  function TopSet(b: byte): (r: byte)
    ensures 0x40 <= r < 0x80 && r % 0x40 == b % 0x40
  {
    b % 0x40 + 0x40
  }

  /** `clampPrivateKey`: the scalar becomes a multiple of the cofactor in [2^254, 2^255). */
  method ClampPrivateKey(key: array<byte>)
    requires key.Length == 32
    modifies key
    ensures LittleEndian(key[..]) % 8 == 0
    ensures var unit := Power256(key.Length - 1);
      0x40 * unit <= LittleEndian(key[..]) < 0x80 * unit
    ensures key[1..31] == old(key[1..31])
    ensures key[0] == old(key[0]) - old(key[0]) % 8 && key[31] % 64 == old(key[31]) % 64
  {
    key[0] := LowCleared(key[0]);
    key[31] := TopSet(key[31]);
    ClampedValue(key[..]);
  }
}
