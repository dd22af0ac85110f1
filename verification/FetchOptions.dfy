/** The transport options and what `validate` guarantees of them. */
module FetchOptions {
  import opened Basics
  import opened Text
  import NoisePlan
  import ProbeSpec

  datatype EchOptions = EchOptions(domain: string, doh: string, configList: string, probe: string)

  datatype Options = Options(
    proxy: string, ip: string, alpn: string, quicVersion: string, noise: NoisePlan.NoiseOptions,
    fingerprint: string, fragment: bool, ech: Option<EchOptions>)
  {
    predicate EchEnabled() {
      ech.Some? && (ech.value.doh != "" || ech.value.configList != "" || ech.value.probe != "")
    }

    /** The options under which an ECH lookup runs. */
    function ForLookup(): Options {
      this.(ech := None, ip := "")
    }
  }

  /** Library calls whose verdicts are left open. */
  datatype Library = Library(parsesIP: string -> bool, splits: string -> bool, fingerprints: string -> bool)

  datatype Alpn = Auto | H1 | H2 | H3

  function Normal(s: string): string {
    ToLower(TrimSpace(s))
  }

  /** The entry of a table of spellings. */
  function Lookup<T>(table: seq<(string, T)>, s: string): Option<T> {
    if table == [] then None
    else if table[0].0 == s then Some(table[0].1)
    else Lookup(table[1..], s)
  }

  const ALPN_NAMES: seq<(string, Alpn)> := [
    ("", Auto), ("auto", Auto),
    ("h1", H1), ("http1", H1), ("http/1.1", H1), ("http1.1", H1),
    ("h2", H2), ("http2", H2), ("http/2", H2),
    ("h3", H3), ("http3", H3), ("http/3", H3), ("quic", H3)]

  function AlpnMode(alpn: string): Option<Alpn> {
    Lookup(ALPN_NAMES, Normal(alpn))
  }

  /** The versions dialed, in order; the automatic ladder is v2 and then v1. */
  const QUIC_NAMES: seq<(string, seq<nat>)> := [
    ("", [2, 1]), ("auto", [2, 1]),
    ("v1", [1]), ("1", [1]), ("quicv1", [1]),
    ("v2", [2]), ("2", [2]), ("quicv2", [2])]

  function QuicAttempts(quicVersion: string): Option<seq<nat>> {
    Lookup(QUIC_NAMES, Normal(quicVersion))
  }

  predicate EchFingerprint(fingerprint: string) {
    var fp := ToLower(fingerprint);
    || fp == "chrome" || fp == "firefox"
    || (&& fp != "random" && fp != "randomized" && fp != "randomizednoalpn"
        && ("hellochrome_" <= fp || "hellofirefox_" <= fp))
  }

  predicate Addressable(o: Options, lib: Library) {
    o.ip != "" ==> lib.parsesIP(o.ip)
  }

  predicate ProbeOk(o: Options, lib: Library) {
    o.ech.Some? && o.ech.value.probe != "" ==> ProbeSpec.ParseSpec(o.ech.value.probe, lib.splits).Some?
  }

  /** What the TCP paths need: no noise, no pinned QUIC version, and a fingerprint that can carry what is asked. */
  predicate FitForTcp(o: Options, lib: Library) {
    && NoisePlan.PlanOf(o.noise) == Some(None)
    && QuicAttempts(o.quicVersion) == Some([2, 1])
    && (o.fingerprint != "" ==>
          lib.fingerprints(o.fingerprint) && (o.EchEnabled() ==> EchFingerprint(o.fingerprint)))
  }

  /** What the QUIC path needs: a version to dial, and none of the options that mean TCP. */
  predicate FitForQuic(o: Options) {
    QuicAttempts(o.quicVersion).Some? && !o.fragment && o.proxy == "" && o.fingerprint == ""
  }

  /**
   Everything later code does with the options succeeds: the parses it repeats, and
   the path that the ALPN mode selects.
  */
  predicate Valid(o: Options, lib: Library) {
    && Addressable(o, lib)
    && !(o.fragment && o.proxy != "")
    && ProbeOk(o, lib)
    && NoisePlan.PlanOf(o.noise).Some?
    && AlpnMode(o.alpn).Some?
    && (if AlpnMode(o.alpn) == Some(H3) then FitForQuic(o) else FitForTcp(o, lib))
  }

  /** `validate`, check by check: it passes exactly the options with which later code succeeds. */
  method Validate(o: Options, lib: Library) returns (r: Result<()>)
    ensures r.Ok? <==> Valid(o, lib)
  {
    if o.ip != "" && !lib.parsesIP(o.ip) {
      return Err("ip is not a valid IP address");
    }
    if o.fragment && o.proxy != "" {
      return Err("fragment cannot be combined with proxy");
    }
    var mode := AlpnMode(o.alpn);
    if mode.None? {
      return Err("unknown alpn");
    }
    if o.ech.Some? && o.ech.value.probe != "" {
      var probe := ProbeSpec.ParseECHProbe(o.ech.value.probe, lib.splits);
      if probe.Err? {
        return Err(probe.reason);
      }
    }
    var noise := NoisePlan.NoiseConfig(o.noise);
    if noise.Err? {
      return Err(noise.reason);
    }
    if mode.value == H3 {
      r := ValidateQuic(o);
    } else {
      r := ValidateTcp(o, lib);
    }
  }

  /** The rest of `validate` in h3 mode. */
  method ValidateQuic(o: Options) returns (r: Result<()>)
    ensures r.Ok? <==> FitForQuic(o)
  {
    if QuicAttempts(o.quicVersion).None? {
      return Err("unknown quicVersion");
    }
    if o.fragment {
      return Err("h3 cannot be combined with fragment");
    }
    if o.proxy != "" {
      return Err("h3 cannot be combined with proxy");
    }
    if o.fingerprint != "" {
      return Err("h3 cannot be combined with fingerprint");
    }
    return Ok(());
  }

  /** And in the other modes, where the two texts are looked at and not what they parse to. */
  method ValidateTcp(o: Options, lib: Library) returns (r: Result<()>)
    requires NoisePlan.PlanOf(o.noise).Some?
    ensures r.Ok? <==> FitForTcp(o, lib)
  {
    NoNoise(o.noise);
    AutomaticLadder(Normal(o.quicVersion));
    var noise := Normal(o.noise.wnoise);
    if noise != "" && noise != "none" {
      return Err("wnoise needs h3");
    }
    var version := Normal(o.quicVersion);
    if version != "" && version != "auto" {
      return Err("quicVersion needs h3");
    }
    if o.fingerprint == "" {
      return Ok(());
    }
    if !lib.fingerprints(o.fingerprint) {
      return Err("unknown fingerprint");
    }
    if !o.EchEnabled() {
      return Ok(());
    }
    r := ValidateEchFingerprint(o.fingerprint);
  }

  /** The switch over fingerprints that can carry ECH. */
  method ValidateEchFingerprint(fingerprint: string) returns (r: Result<()>)
    ensures r.Ok? <==> EchFingerprint(fingerprint)
  {
    var fp := ToLower(fingerprint);
    if fp == "chrome" || fp == "firefox" {
      return Ok(());
    }
    if fp == "random" || fp == "randomized" || fp == "randomizednoalpn" {
      return Err("fingerprint is chosen randomly");
    }
    if "hellochrome_" <= fp || "hellofirefox_" <= fp {
      return Ok(());
    }
    return Err("fingerprint does not support ECH");
  }

  /** There is a plan without noise exactly for the two spellings of none. */
  lemma NoNoise(noise: NoisePlan.NoiseOptions)
    requires NoisePlan.PlanOf(noise).Some?
    ensures NoisePlan.PlanOf(noise) == Some(None) <==> Normal(noise.wnoise) == "" || Normal(noise.wnoise) == "none"
  {
  }

  /** The spellings of each ALPN mode, and no others. */
  lemma AlpnSpellings(alpn: string, s: string)
    requires s == ToLower(TrimSpace(alpn))
    ensures AlpnMode(alpn) ==
        if s in {"", "auto"} then Some(Auto)
        else if s in {"h1", "http1", "http/1.1", "http1.1"} then Some(H1)
        else if s in {"h2", "http2", "http/2"} then Some(H2)
        else if s in {"h3", "http3", "http/3", "quic"} then Some(H3)
        else None
  {
    var names := ALPN_NAMES;
    var i := FirstEntry(names, s);
    assert names[0].0 == "" && names[1].0 == "auto";
    assert names[2].0 == "h1" && names[3].0 == "http1" && names[4].0 == "http/1.1" && names[5].0 == "http1.1";
    assert names[6].0 == "h2" && names[7].0 == "http2" && names[8].0 == "http/2";
    assert names[9].0 == "h3" && names[10].0 == "http3" && names[11].0 == "http/3" && names[12].0 == "quic";
  }

  /** The spellings of each ladder of QUIC versions, and no others. */
  lemma QuicSpellings(quicVersion: string)
    ensures var s := ToLower(TrimSpace(quicVersion));
      QuicAttempts(quicVersion) ==
        if s in {"", "auto"} then Some([2, 1])
        else if s in {"v1", "1", "quicv1"} then Some([1])
        else if s in {"v2", "2", "quicv2"} then Some([2])
        else None
  {
    var i := FirstEntry(QUIC_NAMES, Normal(quicVersion));
  }

  /** A lookup stops at the first entry of its text, or at the end. */
  lemma {:induction false} FirstEntry<T>(table: seq<(string, T)>, s: string) returns (i: nat)
    ensures i <= |table| && forall j | 0 <= j < i :: table[j].0 != s
    ensures i < |table| ==> table[i] == (s, table[i].1) && Lookup(table, s) == Some(table[i].1)
    ensures i == |table| ==> Lookup(table, s) == None
  {
    if table == [] || table[0].0 == s {
      i := 0;
    } else {
      var k := FirstEntry(table[1..], s);
      i := k + 1;
    }
  }

  /** Only the automatic spellings select the whole ladder. */
  lemma AutomaticLadder(s: string)
    ensures Lookup(QUIC_NAMES, s) == Some([2, 1]) <==> s == "" || s == "auto"
  {
    var i := FirstEntry(QUIC_NAMES, s);
    assert forall j | 2 <= j < 8 :: |QUIC_NAMES[j].1| == 1;
  }

  /** What passes, option by option. */
  lemma ValidSpelledOut(o: Options, lib: Library)
    ensures Valid(o, lib) <==>
            && (o.ip != "" ==> lib.parsesIP(o.ip))
            && (!o.fragment || o.proxy == "")
            && (o.ech.Some? && o.ech.value.probe != "" ==> ProbeSpec.ParseSpec(o.ech.value.probe, lib.splits).Some?)
            && NoisePlan.PlanOf(o.noise).Some?
            && AlpnMode(o.alpn).Some?
            && (AlpnMode(o.alpn).value == H3 ==>
                  QuicAttempts(o.quicVersion).Some? && !o.fragment && o.proxy == "" && o.fingerprint == "")
            && (AlpnMode(o.alpn).value != H3 ==> TcpTexts(o) && FingerprintFits(o, lib))
  {
    if NoisePlan.PlanOf(o.noise).Some? {
      TcpSpelledOut(o, lib);
    }
  }

  lemma TcpSpelledOut(o: Options, lib: Library)
    requires NoisePlan.PlanOf(o.noise).Some?
    ensures FitForTcp(o, lib) <==> TcpTexts(o) && FingerprintFits(o, lib)
  {
    AutomaticLadder(Normal(o.quicVersion));
    NoNoise(o.noise);
    FingerprintSpelledOut(o.fingerprint);
  }

  /** The three random fingerprints begin like none that can carry ECH. */
  lemma FingerprintSpelledOut(fingerprint: string)
    ensures var fp := ToLower(fingerprint);
      EchFingerprint(fingerprint) <==>
      fp in {"chrome", "firefox"} || "hellochrome_" <= fp || "hellofirefox_" <= fp
  {
    var fp := ToLower(fingerprint);
    if fp in {"random", "randomized", "randomizednoalpn"} {
      assert fp[0] == 'r' && "hellochrome_"[0] == 'h' && "hellofirefox_"[0] == 'h';
    }
  }

  predicate TcpTexts(o: Options) {
    && ToLower(TrimSpace(o.noise.wnoise)) in {"", "none"}
    && ToLower(TrimSpace(o.quicVersion)) in {"", "auto"}
  }

  predicate FingerprintFits(o: Options, lib: Library) {
    var fp := ToLower(o.fingerprint);
    var echAsked := o.ech.Some? && !(o.ech.value.doh == o.ech.value.configList == o.ech.value.probe == "");
    o.fingerprint == "" ||
    (&& lib.fingerprints(o.fingerprint)
     && (echAsked ==> fp in {"chrome", "firefox"} || "hellochrome_" <= fp || "hellofirefox_" <= fp))
  }

  /** Options that pass still pass as the options of an ECH lookup, and those ask for no ECH. */
  lemma LookupOptionsValid(o: Options, lib: Library)
    requires Valid(o, lib)
    ensures Valid(o.ForLookup(), lib)
    ensures !o.ForLookup().EchEnabled() && o.ForLookup().ip == ""
    ensures o.ForLookup() ==
            Options(o.proxy, "", o.alpn, o.quicVersion, o.noise, o.fingerprint, o.fragment, None)
  {
  }

  /** The converse fails only through what the lookup drops: the pinned address and the ECH options. */
  lemma ValidExactly(o: Options, lib: Library)
    ensures Valid(o, lib) <==>
            && Valid(o.ForLookup(), lib)
            && Addressable(o, lib)
            && ProbeOk(o, lib)
            && (o.EchEnabled() && o.fingerprint != "" && AlpnMode(o.alpn) != Some(H3) ==> EchFingerprint(o.fingerprint))
  {
  }
}
