/**
 The ECHConfigList wire format (section 4 of draft-ietf-tls-esni): the framing
 check, and the list built to probe a server with.
*/
module EchConfigList {
  import opened Basics

  function U16(n: uint16): seq<byte> {
    [n / 0x100, n % 0x100]
  }

  function BigEndian16(s: seq<byte>): uint16
    requires |s| >= 2
  {
    var high: int, low: int := s[0], s[1];
    high * 0x100 + low
  }

  lemma U16OfBigEndian16(s: seq<byte>)
    requires |s| >= 2
    ensures U16(BigEndian16(s)) == [s[0], s[1]]
  {
  }

  // ---------------------------------------------------------------------------
  // The framing: a list of (version, length-prefixed body)
  // ---------------------------------------------------------------------------

  datatype Config = Config(version: uint16, body: seq<byte>)
  {
    predicate Fits() {
      |body| < 0x1_0000
    }
  }

  function PrintConfig(c: Config): seq<byte>
    requires c.Fits()
  {
    U16(c.version) + U16(|c.body|) + c.body
  }

  predicate AllFit(configs: seq<Config>) {
    forall c <- configs :: c.Fits()
  }

  function PrintConfigs(configs: seq<Config>): seq<byte>
    requires AllFit(configs)
  {
    if configs == [] then [] else PrintConfig(configs[0]) + PrintConfigs(configs[1..])
  }

  /** The lists that have a serialization: not empty, and within a 16-bit length. */
  predicate Printable(configs: seq<Config>) {
    configs != [] && AllFit(configs) && |PrintConfigs(configs)| < 0x1_0000
  }

  function Print(configs: seq<Config>): seq<byte>
    requires Printable(configs)
  {
    U16(|PrintConfigs(configs)|) + PrintConfigs(configs)
  }

  function ParseConfigs(s: seq<byte>): Option<seq<Config>>
    decreases |s|
  {
    if s == [] then Some([])
    else if |s| < 4 then None
    else
      var n: int := BigEndian16(s[2..]);
      if |s| < 4 + n then None
      else
        var rest := ParseConfigs(s[4 + n..]);
        if rest.None? then None else Some([Config(BigEndian16(s), s[4..4 + n])] + rest.value)
  }

  function Parse(b: seq<byte>): Option<seq<Config>> {
    if |b| < 2 || BigEndian16(b) != |b| - 2 then None
    else
      var configs := ParseConfigs(b[2..]);
      if configs.None? || configs.value == [] then None else configs
  }

  /** What the first config of a list looks like to the parser. */
  lemma Front(c: Config, rest: seq<byte>)
    requires c.Fits()
    ensures var s := PrintConfig(c) + rest;
      && |s| >= 4 + |c.body|
      && BigEndian16(s) == c.version && BigEndian16(s[2..]) == |c.body|
      && s[4..4 + |c.body|] == c.body && s[4 + |c.body|..] == rest
  {
    var s := PrintConfig(c) + rest;
    assert s[0] == U16(c.version)[0] && s[1] == U16(c.version)[1];
    assert s[2..][0] == U16(|c.body|)[0] && s[2..][1] == U16(|c.body|)[1];
  }

  /** And the parser's view put back together. */
  lemma Back(s: seq<byte>)
    requires |s| >= 4 && |s| >= 4 + BigEndian16(s[2..])
    ensures var n: int := BigEndian16(s[2..]);
      PrintConfig(Config(BigEndian16(s), s[4..4 + n])) + s[4 + n..] == s
  {
    var n: int := BigEndian16(s[2..]);
    var c := Config(BigEndian16(s), s[4..4 + n]);
    U16OfBigEndian16(s);
    U16OfBigEndian16(s[2..]);
    assert s == [s[0], s[1]] + [s[2], s[3]] + s[4..4 + n] + s[4 + n..];
  }

  /** Parsing undoes printing. */
  lemma {:induction false} ParsePrintConfigs(configs: seq<Config>)
    requires AllFit(configs)
    ensures ParseConfigs(PrintConfigs(configs)) == Some(configs)
  {
    if configs != [] {
      var c, rest := configs[0], PrintConfigs(configs[1..]);
      Front(c, rest);
      ParsePrintConfigs(configs[1..]);
      assert PrintConfigs(configs) == PrintConfig(c) + rest;
      assert [c] + configs[1..] == configs;
    }
  }

  /** Printing undoes parsing. */
  lemma {:induction false} PrintParseConfigs(s: seq<byte>)
    requires ParseConfigs(s).Some?
    ensures AllFit(ParseConfigs(s).value) && PrintConfigs(ParseConfigs(s).value) == s
    decreases |s|
  {
    if s != [] {
      var n: int := BigEndian16(s[2..]);
      PrintParseConfigs(s[4 + n..]);
      Back(s);
      var rest := ParseConfigs(s[4 + n..]).value;
      assert ParseConfigs(s).value[1..] == rest;
    }
  }

  lemma ParsePrint(configs: seq<Config>)
    requires Printable(configs)
    ensures Parse(Print(configs)) == Some(configs)
  {
    ParsePrintConfigs(configs);
    var s := PrintConfigs(configs);
    assert Print(configs)[2..] == s;
    assert PrintConfigs(configs) == PrintConfig(configs[0]) + PrintConfigs(configs[1..]);
  }

  lemma PrintParse(b: seq<byte>)
    requires Parse(b).Some?
    ensures Printable(Parse(b).value) && Print(Parse(b).value) == b
  {
    PrintParseConfigs(b[2..]);
    U16OfBigEndian16(b);
    assert b == [b[0], b[1]] + b[2..];
  }

  /** The exact language, and each of its words read in one way only. */
  lemma ParseIsTheLanguage(b: seq<byte>)
    ensures Parse(b).Some? <==> exists configs :: Printable(configs) && Print(configs) == b
    ensures forall x, y | Printable(x) && Print(x) == b && Printable(y) && Print(y) == b :: x == y
  {
    if Parse(b).Some? {
      PrintParse(b);
    }
    forall configs | Printable(configs) && Print(configs) == b
      ensures Parse(b) == Some(configs)
    {
      ParsePrint(configs);
    }
  }

  /** A list holds at least one config, and its first two bytes say how long the rest is. */
  lemma Framed(b: seq<byte>)
    requires Parse(b).Some?
    ensures |b| >= 6 && var high: int, low: int := b[0], b[1]; |b| == 2 + 0x100 * high + low
  {
    assert ParseConfigs(b[2..]).Some? && b[2..] != [];
  }

  /** `looksLikeECHConfigList`: accepts exactly the serializations. */
  method LooksLikeECHConfigList(b: seq<byte>) returns (ok: bool)
    ensures ok <==> Parse(b).Some?
    ensures ok <==> exists configs :: Printable(configs) && Print(configs) == b
  {
    ParseIsTheLanguage(b);
    if |b| < 2 || BigEndian16(b[..2]) != |b| - 2 {
      return false;
    }
    var configs := 0;
    var s := b[2..];
    while |s| > 0
      invariant configs >= 0
      invariant ParseConfigs(b[2..]).Some? <==> ParseConfigs(s).Some?
      invariant ParseConfigs(b[2..]).Some? ==> |ParseConfigs(b[2..]).value| == configs + |ParseConfigs(s).value|
      decreases |s|
    {
      if |s| < 4 {
        return false;
      }
      var length: int := BigEndian16(s[2..4]);
      assert BigEndian16(s[2..]) == length;
      if |s| < 4 + length {
        return false;
      }
      s := s[4 + length..];
      configs := configs + 1;
    }
    return configs > 0;
  }

  // ---------------------------------------------------------------------------
  // The contents of one config
  // ---------------------------------------------------------------------------

  const ECH_VERSION: uint16 := 0xfe0d
  const KEM_X25519: uint16 := 0x0020
  const KDF_SHA256: uint16 := 0x0001
  const AEAD_AES128: uint16 := 0x0001
  const X25519_KEY_LENGTH := 32

  datatype Contents = Contents(
    id: byte, kem: uint16, publicKey: seq<byte>, suites: seq<(uint16, uint16)>,
    maximumNameLength: byte, publicName: seq<byte>, extensions: seq<byte>)

  /** A value and the bytes after it. */
  type Reading<T> = Option<(T, seq<byte>)>

  function Take8(s: seq<byte>): Reading<byte> {
    if |s| < 1 then None else Some((s[0], s[1..]))
  }

  function Take16(s: seq<byte>): Reading<uint16> {
    if |s| < 2 then None else Some((BigEndian16(s), s[2..]))
  }

  function TakeVector(prefix: Reading<int>): Reading<seq<byte>>
    requires prefix.Some? ==> prefix.value.0 >= 0
  {
    if prefix.None? || |prefix.value.1| < prefix.value.0 then None
    else Some((prefix.value.1[..prefix.value.0], prefix.value.1[prefix.value.0..]))
  }

  function Suites(s: seq<byte>): Option<seq<(uint16, uint16)>> {
    if s == [] then Some([])
    else if |s| < 4 then None
    else
      var rest := Suites(s[4..]);
      if rest.None? then None else Some([(BigEndian16(s), BigEndian16(s[2..]))] + rest.value)
  }

  /** A decoder that follows the structure definition field by field and leaves nothing over. */
  function Decode(body: seq<byte>): Option<Contents> {
    var id := Take8(body);
    if id.None? then None else
    var kem := Take16(id.value.1);
    if kem.None? then None else
    var key := TakeVector(Take16(kem.value.1));
    if key.None? then None else
    var suiteBytes := TakeVector(Take16(key.value.1));
    if suiteBytes.None? then None else
    var suites := Suites(suiteBytes.value.0);
    if suites.None? then None else
    var maxLength := Take8(suiteBytes.value.1);
    if maxLength.None? then None else
    var name := TakeVector(Take8(maxLength.value.1));
    if name.None? then None else
    var extensions := TakeVector(Take16(name.value.1));
    if extensions.None? || extensions.value.1 != [] then None else
    Some(Contents(id.value.0, kem.value.0, key.value.0, suites.value, maxLength.value.0,
                  name.value.0, extensions.value.0))
  }

  // ---------------------------------------------------------------------------
  // The bogus list
  // ---------------------------------------------------------------------------

  /** A child of a cryptobyte.Builder behind a 16-bit length; the builder fails when it is too long. */
  function Prefixed16(child: seq<byte>): Option<seq<byte>> {
    if |child| < 0x1_0000 then Some(U16(|child|) + child) else None
  }

  function Prefixed8(child: seq<byte>): Option<seq<byte>> {
    if |child| < 0x100 then Some([|child|] + child) else None
  }

  lemma TakePrefixed16(child: seq<byte>, tail: seq<byte>)
    requires |child| < 0x1_0000
    ensures TakeVector(Take16(Prefixed16(child).value + tail)) == Some((child, tail))
  {
    var s := Prefixed16(child).value + tail;
    assert s[2..] == child + tail;
  }

  lemma TakePrefixed8(child: seq<byte>, tail: seq<byte>)
    requires |child| < 0x100
    ensures TakeVector(Take8(Prefixed8(child).value + tail)) == Some((child, tail))
  {
    var s := Prefixed8(child).value + tail;
    assert s[1..] == child + tail;
  }

  /** The body of the bogus config. */
  ghost function BogusBody(name: seq<byte>, key: seq<byte>, id: byte): seq<byte>
    requires |name| < 0x100 && |key| == X25519_KEY_LENGTH
  {
    [id] + (U16(KEM_X25519) + (Prefixed16(key).value + (Prefixed16(U16(KDF_SHA256) + U16(AEAD_AES128)).value
    + ([0] + (Prefixed8(name).value + (Prefixed16([]).value + []))))))
  }

  lemma BogusDecodes(name: seq<byte>, key: seq<byte>, id: byte)
    requires |name| < 0x100 && |key| == X25519_KEY_LENGTH
    ensures Decode(BogusBody(name, key, id)) ==
            Some(Contents(id, KEM_X25519, key, [(KDF_SHA256, AEAD_AES128)], 0, name, []))
  {
    var s7 := Prefixed16([]).value + [];
    var s6 := Prefixed8(name).value + s7;
    var s5 := [0] + s6;
    var suites := U16(KDF_SHA256) + U16(AEAD_AES128);
    var s4 := Prefixed16(suites).value + s5;
    var s3 := Prefixed16(key).value + s4;
    var s2 := U16(KEM_X25519) + s3;
    var s1 := [id] + s2;
    assert Take8(s1) == Some((id, s2));
    assert Take16(s2) == Some((KEM_X25519, s3)) by {
      assert s2[2..] == s3;
    }
    TakePrefixed16(key, s4);
    TakePrefixed16(suites, s5);
    assert Suites(suites) == Some([(KDF_SHA256, AEAD_AES128)]) by {
      assert suites[4..] == [];
      assert Suites(suites[4..]) == Some([]);
      assert suites == [0, 1, 0, 1];
      assert suites[2..] == [0, 1];
      assert BigEndian16(suites) == KDF_SHA256 && BigEndian16(suites[2..]) == AEAD_AES128;
      assert [(KDF_SHA256, AEAD_AES128)] + [] == [(KDF_SHA256, AEAD_AES128)];
    }
    assert Take8(s5) == Some((0, s6));
    TakePrefixed8(name, s7);
    TakePrefixed16([], []);
  }

  /** One config behind a version and a length is a list of one. */
  lemma SingleConfig(body: seq<byte>)
    requires |body| < 0x1_0000 - 4
    ensures var inner := U16(ECH_VERSION) + Prefixed16(body).value;
      && |inner| < 0x1_0000
      && Parse(Prefixed16(inner).value) == Some([Config(ECH_VERSION, body)])
  {
    var c := Config(ECH_VERSION, body);
    var inner := U16(ECH_VERSION) + Prefixed16(body).value;
    assert [c][1..] == [];
    assert PrintConfigs([c]) == PrintConfig(c) + [] == inner;
    ParsePrint([c]);
  }

  /** The list byte by byte. */
  lemma BogusBytes(name: seq<byte>, key: seq<byte>, id: byte)
    requires |name| < 0x100 && |key| == 32
    ensures var body := BogusBody(name, key, id);
      var n: int := |name|;
      && |body| == 47 + n
      && Prefixed16(U16(ECH_VERSION) + Prefixed16(body).value) == Some(BogusLayout(n, name, key, id))
  {
    var n: int := |name|;
    var body := BogusBody(name, key, id);
    var inner := U16(ECH_VERSION) + Prefixed16(body).value;
    assert body == [id, 0x00, 0x20, 0x00, 0x20] + key + [0, 4, 0, 1, 0, 1, 0, n] + name + [0, 0];
    assert inner == [0xfe, 0x0d, (47 + n) / 0x100, (47 + n) % 0x100] + body;
    assert U16(|inner|) + inner == BogusLayout(n, name, key, id);
  }

  /** Length, version, length, config id, kem, key, cipher suite, name and no extensions. */
  ghost function BogusLayout(n: int, name: seq<byte>, key: seq<byte>, id: byte): seq<byte>
    requires 0 <= n < 0x100
  {
    [(51 + n) / 0x100, (51 + n) % 0x100, 0xfe, 0x0d, (47 + n) / 0x100, (47 + n) % 0x100]
    + ([id, 0x00, 0x20, 0x00, 0x20] + key + [0, 4, 0, 1, 0, 1, 0, n] + name + [0, 0])
  }

  /** `bogusECHConfigList`; the key and the config id are the random bytes it draws. */
  method BogusECHConfigList(name: seq<byte>, key: seq<byte>, id: byte) returns (list: Result<seq<byte>>)
    requires |key| == 32
    ensures list.Ok? <==> 1 <= |name| <= 255
    ensures list.Ok? ==>
              var n := |name|;
              list.value ==
              [(51 + n) / 0x100, (51 + n) % 0x100, 0xfe, 0x0d, (47 + n) / 0x100, (47 + n) % 0x100]
              + ([id, 0x00, 0x20, 0x00, 0x20] + key + [0, 4, 0, 1, 0, 1, 0, n] + name + [0, 0])
    ensures list.Ok? ==>
              && |list.value| == 53 + |name|
              && var configs := Parse(list.value);
                 && configs.Some? && |configs.value| == 1
                 && configs.value[0].version == 0xfe0d
                 && Decode(configs.value[0].body) == Some(Contents(id, 0x20, key, [(1, 1)], 0, name, []))
  {
    if |name| == 0 || |name| > 255 {
      return Err("ECH probe public name has invalid length");
    }
    var cfg := BogusConfig(name, key, id);
    BogusDecodes(name, key, id);
    var inner := U16(ECH_VERSION);
    inner := inner + Prefixed16(cfg).value;
    SingleConfig(cfg);
    BogusBytes(name, key, id);
    return Ok(Prefixed16(inner).value);
  }

  /** The builder callback for the one config. */
  method BogusConfig(name: seq<byte>, key: seq<byte>, id: byte) returns (cfg: seq<byte>)
    requires |name| < 0x100 && |key| == X25519_KEY_LENGTH
    ensures cfg == BogusBody(name, key, id) && |cfg| == 47 + |name|
  {
    cfg := [id];
    cfg := cfg + U16(KEM_X25519);
    cfg := cfg + Prefixed16(key).value;
    cfg := cfg + Prefixed16(U16(KDF_SHA256) + U16(AEAD_AES128)).value;
    cfg := cfg + [0];
    cfg := cfg + Prefixed8(name).value;
    cfg := cfg + Prefixed16([]).value;
  }
}
