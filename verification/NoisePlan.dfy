/** The noise options: ranges, the hex header, and the plan made of them. */
module NoisePlan {
  import opened Basics
  import opened Text

  const MAX_COUNT := 50
  const MAX_DELAY_MS := 100
  const MAX_PAYLOAD := 100
  const MAX_HEADER := 50

  // ---------------------------------------------------------------------------
  // Ranges
  // ---------------------------------------------------------------------------

  function Min(a: int, b: int): int {
    if a <= b then a else b
  }

  /** The bounds in order, neither above the limit. */
  function Clamped(a: nat, b: nat, limit: nat): (nat, nat) {
    (Min(Min(a, b), limit), Min(if a <= b then b else a, limit))
  }

  /** One bound: a number that is not negative. */
  function Bound(part: string): Option<nat> {
    var n := Atoi(TrimSpace(part));
    if n.Some? && n.value >= 0 then Some(n.value) else None
  }

  /** "n" or "from-to"; an empty value is the default, which is taken as it is. */
  function Range(value: string, default: (nat, nat), limit: nat): Option<(nat, nat)> {
    if TrimSpace(value) == "" then Some(default)
    else
      var parts := Split(TrimSpace(value), '-');
      if |parts| > 2 then None
      else
        var a, b := Bound(parts[0]), Bound(parts[|parts| - 1]);
        if a.None? || b.None? then None else Some(Clamped(a.value, b.value, limit))
  }

  /** `parseNoiseRange` */
  method ParseNoiseRange(value: string, default: (nat, nat), limit: nat) returns (r: Result<(nat, nat)>)
    ensures r.Ok? <==> Range(value, default, limit).Some?
    ensures r.Ok? ==> r.value == Range(value, default, limit).value
  {
    var trimmed := TrimSpace(value);
    if trimmed == "" {
      return Ok(default);
    }
    var parts := Split(trimmed, '-');
    if |parts| > 2 {
      return Err("must be a number or a \"from-to\" range");
    }
    var bounds, ok := ParseBounds(parts);
    if !ok {
      return Err("must be a non-negative number or a \"from-to\" range");
    }
    var from, to := bounds[0], bounds[0];
    if bounds.Length == 2 {
      to := bounds[1];
    }
    if from > to {
      from, to := to, from;
    }
    if from > limit {
      from := limit;
    }
    if to > limit {
      to := limit;
    }
    return Ok((from, to));
  }

  /** The loop that fills `bounds`. */
  method ParseBounds(parts: seq<string>) returns (bounds: array<nat>, ok: bool)
    ensures fresh(bounds) && bounds.Length == |parts|
    ensures ok ==> forall i | 0 <= i < |parts| :: Bound(parts[i]) == Some(bounds[i])
    ensures !ok ==> exists i | 0 <= i < |parts| :: Bound(parts[i]).None?
  {
    bounds := new nat[|parts|];
    for i := 0 to |parts|
      invariant forall j | 0 <= j < i :: Bound(parts[j]) == Some(bounds[j])
    {
      var v := Atoi(TrimSpace(parts[i]));
      if v.None? || v.value < 0 {
        assert Bound(parts[i]).None?;
        return bounds, false;
      }
      bounds[i] := v.value;
    }
    return bounds, true;
  }

  /** Whatever the text, an accepted range is ordered and within its limit. */
  lemma RangeOrdered(value: string, default: (nat, nat), limit: nat)
    requires default.0 <= default.1 <= limit
    ensures var r := Range(value, default, limit);
      r.Some? ==> r.value.0 <= r.value.1 <= limit
  {
  }

  /** Blank text is the default, and a third part is refused, as is a part that is no number or is negative. */
  lemma RangeRefused(value: string, x: string, y: string, default: (nat, nat), limit: nat)
    requires '-' !in x
    ensures TrimSpace(value) == "" ==> Range(value, default, limit) == Some(default)
    ensures TrimSpace(value) == x + ['-'] + y && '-' in y ==> Range(value, default, limit) == None
    ensures TrimSpace(value) == x + ['-'] + y && !(Natural(x) && Natural(y)) ==> Range(value, default, limit) == None
    ensures TrimSpace(value) == x != "" && !Natural(x) ==> Range(value, default, limit) == None
  {
    SplitJoined(x, '-', y);
    SplitNone(x, '-');
    if '-' in y {
      SplitMany(y, '-');
    } else {
      SplitNone(y, '-');
    }
  }

  predicate Natural(part: string) {
    Atoi(TrimSpace(part)).Some? && Atoi(TrimSpace(part)).value >= 0
  }

  /** A printed range is read as its bounds, sorted and clamped; so is a single number. */
  lemma RangeOfPrinted(a: nat, b: nat, default: (nat, nat), limit: nat)
    requires a <= MAX_INT && b <= MAX_INT
    ensures var (low, high) := if a <= b then (a, b) else (b, a);
      Range(Decimal(a) + ['-'] + Decimal(b), default, limit) ==
        Some((if low > limit then limit else low, if high > limit then limit else high))
    ensures Range(Decimal(a), default, limit) == Some(if a > limit then (limit, limit) else (a, a))
  {
    AtoiDecimal(a);
    AtoiDecimal(b);
    RangeOfTwo(Decimal(a), Decimal(b), a, b, default, limit);
    RangeOfOne(Decimal(a), a, default, limit);
  }

  lemma RangeOfOne(x: string, a: nat, default: (nat, nat), limit: nat)
    requires x != "" && Trimmed(x) && '-' !in x && Atoi(x) == Some(a)
    ensures Range(x, default, limit) == Some(if a > limit then (limit, limit) else (a, a))
  {
    SplitNone(x, '-');
  }

  lemma RangeOfTwo(x: string, y: string, a: nat, b: nat, default: (nat, nat), limit: nat)
    requires x != "" && Trimmed(x) && '-' !in x && Atoi(x) == Some(a)
    requires y != "" && Trimmed(y) && '-' !in y && Atoi(y) == Some(b)
    ensures var (low, high) := if a <= b then (a, b) else (b, a);
      Range(x + ['-'] + y, default, limit) ==
        Some((if low > limit then limit else low, if high > limit then limit else high))
  {
    var s := x + ['-'] + y;
    assert s[0] == x[0] && s[|s| - 1] == y[|y| - 1];
    assert TrimSpace(s) == s;
    SplitJoined(x, '-', y);
    SplitNone(y, '-');
  }

  // ---------------------------------------------------------------------------
  // Hexadecimal
  // ---------------------------------------------------------------------------

  function HexDigit(n: int): (c: char)
    requires 0 <= n < 16
    ensures '0' <= c <= '9' || 'a' <= c <= 'f'
  {
    if n < 10 then ('0' as int + n) as char else ('a' as int + n - 10) as char
  }

  function HexValue(c: char): Option<int> {
    if '0' <= c <= '9' then Some(c as int - '0' as int)
    else if 'a' <= c <= 'f' then Some(c as int - 'a' as int + 10)
    else if 'A' <= c <= 'F' then Some(c as int - 'A' as int + 10)
    else None
  }

  lemma HexDigitValue(n: int)
    requires 0 <= n < 16
    ensures HexValue(HexDigit(n)) == Some(n)
  {
  }

  function HexEncode(bytes: seq<byte>): (s: string)
    ensures |s| == 2 * |bytes|
    ensures forall c <- s :: '0' <= c <= '9' || 'a' <= c <= 'f'
  {
    if bytes == [] then ""
    else
      var b: int := bytes[0];
      [HexDigit(b / 16), HexDigit(b % 16)] + HexEncode(bytes[1..])
  }

  /** hex.DecodeString */
  function HexDecode(s: string): (bytes: Option<seq<byte>>)
    ensures bytes.Some? ==> |s| == 2 * |bytes.value|
    ensures bytes.Some? ==> forall c <- s :: HexValue(c).Some?
  {
    if s == "" then Some([])
    else if |s| == 1 then None
    else
      var high, low, rest := HexValue(s[0]), HexValue(s[1]), HexDecode(s[2..]);
      if high.None? || low.None? || rest.None? then None
      else
        assert s == [s[0], s[1]] + s[2..];
        Some([HexByte(high.value, low.value)] + rest.value)
  }

  function HexByte(high: int, low: int): byte
    requires 0 <= high < 16 && 0 <= low < 16
  {
    16 * high + low
  }

  /** Two digits a byte, the high one first. */
  lemma {:induction false} HexDigits(bytes: seq<byte>, i: nat)
    requires i < |bytes|
    ensures var digits, b: int := "0123456789abcdef", bytes[i];
      HexEncode(bytes)[2 * i] == digits[b / 16] && HexEncode(bytes)[2 * i + 1] == digits[b % 16]
  {
    var b: int := bytes[0];
    DigitAt(b / 16);
    DigitAt(b % 16);
    if i > 0 {
      HexDigits(bytes[1..], i - 1);
    }
  }

  lemma DigitAt(n: int)
    requires 0 <= n < 16
    ensures HexDigit(n) == "0123456789abcdef"[n]
  {
  }

  lemma {:induction false} HexRoundTrip(bytes: seq<byte>)
    ensures HexDecode(HexEncode(bytes)) == Some(bytes)
  {
    if bytes != [] {
      var b: int := bytes[0];
      HexDigitValue(b / 16);
      HexDigitValue(b % 16);
      HexRoundTrip(bytes[1..]);
      assert HexEncode(bytes)[2..] == HexEncode(bytes[1..]);
      assert [bytes[0]] + bytes[1..] == bytes;
    }
  }

  // ---------------------------------------------------------------------------
  // The plan
  // ---------------------------------------------------------------------------

  datatype Mode = Quic | QuicV1 | Random | QuicInit | Hex(header: seq<byte>)

  datatype Plan = Plan(mode: Mode, count: (nat, nat), delay: (nat, nat), size: (nat, nat))
  {
    /** What every accepted plan satisfies. */
    predicate Good() {
      && count.0 <= count.1 <= MAX_COUNT
      && delay.0 <= delay.1 <= MAX_DELAY_MS
      && size.0 <= size.1 <= MAX_PAYLOAD
      && (mode.Hex? ==> 1 <= |mode.header| <= MAX_HEADER)
    }
  }

  const PRESETS := map["quic" := Quic, "quicv1" := QuicV1, "random" := Random, "quicinit" := QuicInit]

  datatype NoiseOptions = NoiseOptions(wnoise: string, wnoiseCount: string, wnoiseDelay: string, wpayloadSize: string)

  function ModeName(o: NoiseOptions): string {
    ToLower(TrimSpace(o.wnoise))
  }

  /** The mode asked for; the outer None is an error, the inner one is no noise. */
  function ModeOf(name: string): Option<Option<Mode>> {
    if name == "" || name == "none" then Some(None)
    else if name in PRESETS then Some(Some(PRESETS[name]))
    else
      var header := HexDecode(name);
      if header.None? || |header.value| == 0 || |header.value| > MAX_HEADER then None
      else Some(Some(Hex(header.value)))
  }

  /** The plan, None inside Some when noise is off, and None when the options are refused. */
  function PlanOf(o: NoiseOptions): Option<Option<Plan>> {
    var count := Range(o.wnoiseCount, (5, 5), MAX_COUNT);
    var delay := Range(o.wnoiseDelay, (5, 5), MAX_DELAY_MS);
    var size := Range(o.wpayloadSize, (5, 10), MAX_PAYLOAD);
    var mode := ModeOf(ModeName(o));
    if count.None? || delay.None? || size.None? || mode.None? then None
    else if mode.value.None? then Some(None)
    else Some(Some(Plan(mode.value.value, count.value, delay.value, size.value)))
  }

  /** `noiseConfig` */
  method NoiseConfig(o: NoiseOptions) returns (r: Result<Option<Plan>>)
    ensures r.Ok? <==> PlanOf(o).Some?
    ensures r.Ok? ==> r.value == PlanOf(o).value
    ensures r.Ok? && r.value.Some? ==> r.value.value.Good()
    ensures r.Ok? <==> && Range(o.wnoiseCount, (5, 5), 50).Some? && Range(o.wnoiseDelay, (5, 5), 100).Some?
                       && Range(o.wpayloadSize, (5, 10), 100).Some? && ModeOf(ToLower(TrimSpace(o.wnoise))).Some?
    ensures r.Ok? && r.value.Some? ==>
              && Some(Some(r.value.value.mode)) == ModeOf(ToLower(TrimSpace(o.wnoise)))
              && Some(r.value.value.count) == Range(o.wnoiseCount, (5, 5), 50)
              && Some(r.value.value.delay) == Range(o.wnoiseDelay, (5, 5), 100)
              && Some(r.value.value.size) == Range(o.wpayloadSize, (5, 10), 100)
  {
    var name := ToLower(TrimSpace(o.wnoise));
    var count := ParseNoiseRange(o.wnoiseCount, (5, 5), MAX_COUNT);
    if count.Err? {
      return Err(count.reason);
    }
    var delay := ParseNoiseRange(o.wnoiseDelay, (5, 5), MAX_DELAY_MS);
    if delay.Err? {
      return Err(delay.reason);
    }
    var size := ParseNoiseRange(o.wpayloadSize, (5, 10), MAX_PAYLOAD);
    if size.Err? {
      return Err(size.reason);
    }
    RangeOrdered(o.wnoiseCount, (5, 5), MAX_COUNT);
    RangeOrdered(o.wnoiseDelay, (5, 5), MAX_DELAY_MS);
    RangeOrdered(o.wpayloadSize, (5, 10), MAX_PAYLOAD);

    var mode := ParseMode(name);
    if mode.Err? {
      return Err(mode.reason);
    }
    if mode.value.None? {
      return Ok(None);
    }
    return Ok(Some(Plan(mode.value.value, count.value, delay.value, size.value)));
  }

  /** The switch and the custom header of `noiseConfig`. */
  method ParseMode(name: string) returns (r: Result<Option<Mode>>)
    ensures r.Ok? <==> ModeOf(name).Some?
    ensures r.Ok? ==> r.value == ModeOf(name).value
    ensures r.Ok? && r.value.Some? && r.value.value.Hex? ==> 1 <= |r.value.value.header| <= MAX_HEADER
  {
    if name == "" || name == "none" {
      return Ok(None);
    }
    if name in PRESETS {
      return Ok(Some(PRESETS[name]));
    }
    var header := HexDecode(name);
    if ByteLength(name) % 2 != 0 {
      if header.Some? {
        AsciiLength(name);
      }
      return Err("odd number of hex digits");
    }
    if header.None? {
      return Err("neither a preset nor a hex string");
    }
    if |header.value| == 0 {
      return Err("empty");
    }
    if |header.value| > MAX_HEADER {
      return Err("longer than the maximum");
    }
    return Ok(Some(Hex(header.value)));
  }

  /** The modes by name; a name that is no preset is read as hex text. */
  lemma ModeNames(name: string)
    ensures ModeOf(name) ==
            if name in {"", "none"} then Some(None)
            else if name == "quic" then Some(Some(Quic))
            else if name == "quicv1" then Some(Some(QuicV1))
            else if name == "random" then Some(Some(Random))
            else if name == "quicinit" then Some(Some(QuicInit))
            else
              match HexDecode(name)
              case Some(header) => if 1 <= |header| <= 50 then Some(Some(Hex(header))) else None
              case None => None
  {
  }

  /** The hex text of any header of 1 to 50 bytes asks for that header; no preset gets in the way. */
  lemma HexHeaderPlanned(header: seq<byte>, o: NoiseOptions)
    requires 1 <= |header| <= MAX_HEADER
    requires o.wnoise == HexEncode(header)
    ensures ModeOf(ModeName(o)) == Some(Some(Hex(header)))
  {
    HexTextUnchanged(o.wnoise);
    HexRoundTrip(header);
    PresetsAreNotHex(o.wnoise);
  }

  /** Trimming and lowering leave lower-case hex text alone. */
  lemma HexTextUnchanged(s: string)
    requires forall c <- s :: '0' <= c <= '9' || 'a' <= c <= 'f'
    ensures ToLower(TrimSpace(s)) == s
  {
    if s != "" {
      assert s[0] in s && s[|s| - 1] in s;
    }
    assert TrimSpace(s) == s;
    forall i | 0 <= i < |s|
      ensures ToLower(s)[i] == s[i]
    {
      assert s[i] in s;
    }
  }

  lemma PresetsAreNotHex(s: string)
    requires forall c <- s :: '0' <= c <= '9' || 'a' <= c <= 'f'
    ensures s != "none" && s !in PRESETS
  {
    assert 'n' in "none" && 'q' in "quic" && 'q' in "quicv1" && 'r' in "random" && 'q' in "quicinit";
  }
}
