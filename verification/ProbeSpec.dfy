/**
 Probe specs and the cache keys made from them. Whether `net.SplitHostPort`
 accepts a string is left open: it is the parameter `splits`, and nothing about
 it is assumed.
*/
module ProbeSpec {
  import opened Basics
  import opened Text

  const SCHEME := "probe"
  const DEFAULT_NAME := "cloudflare-ech.com"
  const DEFAULT_PORT := "443"

  /** net.JoinHostPort */
  function JoinHostPort(host: string, port: string): (r: string)
    ensures |r| >= |host| + |port| + 1
    ensures '@' in r ==> '@' in host || '@' in port
    ensures host != "" && !IsSpace(host[0]) ==> !IsSpace(r[0])
    ensures port != "" ==> r[|r| - 1] == port[|port| - 1]
  {
    if ':' in host then "[" + host + "]:" + port else host + ":" + port
  }

  // ---------------------------------------------------------------------------
  // Parsing
  // ---------------------------------------------------------------------------

  /** Without the scheme, when there is one. */
  function WithoutScheme(s: string): (r: string)
    ensures Trimmed(r)
  {
    var t := TrimSpace(s);
    var lower := ToLower(t);
    if lower == SCHEME then ""
    else if SCHEME + "://" <= lower then TrimSpace(t[8..])
    else t
  }

  /** The name and the dial target, split at the last '@'. */
  function SplitTarget(s: string): (r: (string, string))
    requires Trimmed(s)
    ensures Trimmed(r.0) && Trimmed(r.1)
    ensures '@' !in r.1
  {
    var at := LastIndex(s, '@');
    if at < |s| then (TrimSpace(s[..at]), TrimSpace(s[at + 1..])) else (s, "")
  }

  predicate BareDomain(name: string)
    ensures BareDomain(name) ==> name != ""
  {
    ':' !in name && '/' !in name && ' ' !in name && 1 <= ByteLength(name) <= 255
  }

  /** The dial target: the default port is added where there is none. */
  function HostPort(name: string, target: string, splits: string -> bool): (r: string)
    requires name != "" && Trimmed(name) && Trimmed(target) && '@' !in target
    ensures r != "" && Trimmed(r) && r[|r| - 1] != '@'
  {
    if target == "" then JoinHostPort(name, DEFAULT_PORT)
    else if !splits(target) then JoinHostPort(target, DEFAULT_PORT)
    else
      assert target[|target| - 1] in target;
      target
  }

  function Name(rest: string): (r: string)
    requires Trimmed(rest)
    ensures r != "" && Trimmed(r)
  {
    if rest == "" then DEFAULT_NAME else rest
  }

  /** The checks on the name, and the target completed. */
  function Complete(name: string, target: string, splits: string -> bool): Option<(string, string)>
    requires name != "" && Trimmed(name) && Trimmed(target) && '@' !in target
  {
    if BareDomain(name) then Some((name, HostPort(name, target, splits))) else None
  }

  function ParseSpec(s: string, splits: string -> bool): Option<(string, string)> {
    var split := SplitTarget(WithoutScheme(s));
    Complete(Name(split.0), split.1, splits)
  }

  /** `parseECHProbe`, which rewrites `s` and `hostPort` step by step. */
  method ParseECHProbe(spec: string, splits: string -> bool) returns (r: Result<(string, string)>)
    ensures r.Ok? <==> ParseSpec(spec, splits).Some?
    ensures r.Ok? ==> r.value == ParseSpec(spec, splits).value
  {
    var s := DropScheme(spec);
    var hostPort := "";
    var at := LastIndex(s, '@');
    if at < |s| {
      hostPort := TrimSpace(s[at + 1..]);
      s := TrimSpace(s[..at]);
    }
    assert (s, hostPort) == SplitTarget(WithoutScheme(spec));
    var publicName := DEFAULT_NAME;
    if s != "" {
      publicName := s;
    }
    assert publicName == Name(s);
    r := CheckAndComplete(publicName, hostPort, splits);
  }

  /** The rest of `parseECHProbe`, from the checks on the name on. */
  method CheckAndComplete(publicName: string, target: string, splits: string -> bool)
    returns (r: Result<(string, string)>)
    requires publicName != "" && Trimmed(publicName) && Trimmed(target) && '@' !in target
    ensures r.Ok? <==> Complete(publicName, target, splits).Some?
    ensures r.Ok? ==> r.value == Complete(publicName, target, splits).value
    ensures r.Ok? <==> ':' !in publicName && '/' !in publicName && ' ' !in publicName
                       && 1 <= ByteLength(publicName) <= 255
    ensures r.Ok? ==>
              && r.value.0 == publicName
              && r.value.1 == if target == "" then JoinHostPort(publicName, "443")
                              else if splits(target) then target
                              else JoinHostPort(target, "443")
  {
    if ':' in publicName || '/' in publicName || ' ' in publicName {
      return Err("must be a bare domain");
    }
    if ByteLength(publicName) == 0 || ByteLength(publicName) > 255 {
      return Err("invalid length");
    }
    var hostPort := target;
    if hostPort == "" {
      hostPort := JoinHostPort(publicName, DEFAULT_PORT);
    } else if !splits(hostPort) {
      hostPort := JoinHostPort(hostPort, DEFAULT_PORT);
    }
    return Ok((publicName, hostPort));
  }

  /** The switch at the start of `parseECHProbe`. */
  method DropScheme(spec: string) returns (s: string)
    ensures s == WithoutScheme(spec)
  {
    s := TrimSpace(spec);
    var lower := ToLower(s);
    if lower == SCHEME {
      s := "";
    } else if SCHEME + "://" <= lower {
      s := TrimSpace(s[|SCHEME + "://"|..]);
    }
  }

  // ---------------------------------------------------------------------------
  // Parsing what was parsed
  // ---------------------------------------------------------------------------

  /** The canonical spelling of an accepted pair. */
  function Render(name: string, hostPort: string): string {
    "probe://" + (name + "@" + hostPort)
  }

  /** The canonical spelling, taken apart again. */
  lemma RenderTakenApart(name: string, hostPort: string)
    requires name != "" && Trimmed(name) && hostPort != "" && Trimmed(hostPort)
    ensures WithoutScheme(Render(name, hostPort)) == name + "@" + hostPort
  {
    var rest := name + "@" + hostPort;
    assert rest[0] == name[0] && rest[|rest| - 1] == hostPort[|hostPort| - 1];
    SchemeDropped(rest);
  }

  lemma SchemeDropped(rest: string)
    requires rest != "" && Trimmed(rest)
    ensures WithoutScheme("probe://" + rest) == rest
  {
    var r := "probe://" + rest;
    assert r[0] == 'p' && r[|r| - 1] == rest[|rest| - 1];
    assert TrimSpace(r) == r;
    var lower := ToLower(r);
    assert |lower| > |SCHEME|;
    assert SCHEME + "://" == "probe://";
    assert lower[..8] == "probe://";
    assert r[8..] == rest;
  }

  /**
   Rendering an accepted pair and parsing it again gives the same pair exactly when
   its dial target is one that SplitHostPort accepts and contains no '@'.
  */
  lemma RenderParse(s: string, splits: string -> bool)
    requires ParseSpec(s, splits).Some?
    ensures var (name, hostPort) := ParseSpec(s, splits).value;
      ParseSpec(Render(name, hostPort), splits) == Some((name, hostPort)) <==>
      splits(hostPort) && '@' !in hostPort
  {
    var (name, hostPort) := ParseSpec(s, splits).value;
    RenderCompleted(name, hostPort, splits);
  }

  lemma RenderCompleted(name: string, hostPort: string, splits: string -> bool)
    requires name != "" && Trimmed(name) && BareDomain(name)
    requires hostPort != "" && Trimmed(hostPort) && hostPort[|hostPort| - 1] != '@'
    ensures ParseSpec(Render(name, hostPort), splits) == Some((name, hostPort)) <==>
            splits(hostPort) && '@' !in hostPort
  {
    RenderTakenApart(name, hostPort);
    if '@' !in hostPort {
      LastAtIsOurs(name, hostPort);
    } else {
      LastAtInTarget(name, hostPort);
    }
  }

  lemma LastAtIsOurs(name: string, hostPort: string)
    requires '@' !in hostPort && Trimmed(name) && Trimmed(hostPort) && Trimmed(name + "@" + hostPort)
    ensures SplitTarget(name + "@" + hostPort) == (name, hostPort)
  {
    var t := name + "@" + hostPort;
    var at := LastIndex(t, '@');
    assert t[|name|] == '@';
    if at != |name| {
      assert false;
    }
    assert t[..at] == name && t[at + 1..] == hostPort;
  }

  /** With an '@' in the target, parsing again cuts there, and no longer finds the same target. */
  lemma LastAtInTarget(name: string, hostPort: string)
    requires '@' in hostPort && hostPort[|hostPort| - 1] != '@'
    requires Trimmed(name + "@" + hostPort)
    ensures var target := SplitTarget(name + "@" + hostPort).1;
      target != "" && '@' !in target && JoinHostPort(target, DEFAULT_PORT) != hostPort && target != hostPort
  {
    var t := name + "@" + hostPort;
    var at := LastIndex(t, '@');
    assert t[|t| - 1] == hostPort[|hostPort| - 1];
    var tail := t[at + 1..];
    assert tail != "" && tail[|tail| - 1] == t[|t| - 1];
    VisibleEndKept(tail);
    assert '@' !in DEFAULT_PORT;
  }

  lemma {:induction false} VisibleEndKept(s: string)
    requires s != "" && !IsSpace(s[|s| - 1])
    ensures TrimSpace(s) != ""
  {
    if IsSpace(s[0]) {
      VisibleEndKept(s[1..]);
    }
  }

  // ---------------------------------------------------------------------------
  // The documented spellings
  // ---------------------------------------------------------------------------

  /** A name that can be written out: a bare domain without '@'. */
  predicate Writable(name: string) {
    Trimmed(name) && BareDomain(name) && '@' !in name
  }

  /** A character that stands for itself in the test for the scheme. */
  lemma LowerKeeps(s: string, i: nat)
    requires i < |s| && (s[i] == '@' || ToLower(s)[i] == ':')
    ensures ToLower(s)[i] == s[i]
  {
  }

  /** A spec that starts with a bare domain and an '@' does not start with the scheme. */
  lemma NoScheme(name: string, target: string)
    requires Writable(name) && target != "" && Trimmed(target)
    ensures WithoutScheme(name + "@" + target) == name + "@" + target
  {
    var t := name + "@" + target;
    var lower := ToLower(t);
    assert t[0] == name[0] && t[|t| - 1] == target[|target| - 1];
    assert TrimSpace(t) == t;
    assert t[|name|] == '@';
    LowerKeeps(t, |name|);
    var scheme := SCHEME + "://";
    assert scheme[5] == ':' && '@' !in scheme && '@' !in SCHEME;
    assert lower != SCHEME by {
      assert '@' in lower;
    }
    if scheme <= lower {
      LowerKeeps(t, 5);
      assert false;
    }
  }

  lemma TargetOmitted(name: string, splits: string -> bool)
    requires Writable(name)
    ensures ParseSpec("probe://" + name, splits) == Some((name, name + ":" + "443"))
  {
    SchemeDropped(name);
    assert SplitTarget(name) == (name, "");
  }

  lemma TargetGiven(spec: string, name: string, target: string, splits: string -> bool)
    requires Writable(name) && target != "" && Trimmed(target) && '@' !in target
    requires WithoutScheme(spec) == name + "@" + target
    ensures ParseSpec(spec, splits) == Some((name, if splits(target) then target else JoinHostPort(target, "443")))
  {
    assert Trimmed(name + "@" + target);
    LastAtIsOurs(name, target);
  }

  /** "probe://name", "probe://name@target" and "name@target" mean what they say. */
  lemma Spellings(name: string, target: string, splits: string -> bool)
    requires Writable(name) && target != "" && Trimmed(target) && '@' !in target
    ensures ParseSpec("probe://" + name, splits) == Some((name, name + ":" + "443"))
    ensures var r := Some((name, if splits(target) then target else JoinHostPort(target, "443")));
      ParseSpec(Render(name, target), splits) == r && ParseSpec(name + "@" + target, splits) == r
  {
    TargetOmitted(name, splits);
    RenderTakenApart(name, target);
    TargetGiven(Render(name, target), name, target, splits);
    NoScheme(name, target);
    TargetGiven(name + "@" + target, name, target, splits);
  }

  /** The scheme alone, in any case and with or without its slashes, asks for the default name. */
  lemma SchemeAlone(spec: string, name: string, splits: string -> bool)
    requires ToLower(TrimSpace(spec)) == "probe" || ToLower(TrimSpace(spec)) == "probe://"
    requires name == "cloudflare-ech.com"
    ensures ParseSpec(spec, splits) == Some((name, name + ":" + "443"))
  {
    SchemeAloneDropped(spec);
    DefaultNameIsPlain(name);
    PlainIsBare(name);
    assert SplitTarget("") == ("", "");
    assert Name("") == name;
  }

  lemma SchemeAloneDropped(spec: string)
    requires ToLower(TrimSpace(spec)) == "probe" || ToLower(TrimSpace(spec)) == "probe://"
    ensures WithoutScheme(spec) == ""
  {
    assert SCHEME + "://" == "probe://";
  }

  predicate Plain(c: char) {
    'a' <= c <= 'z' || c == '-' || c == '.'
  }

  lemma DefaultNameIsPlain(name: string)
    requires name == "cloudflare-ech.com"
    ensures |name| == 18 && forall i | 0 <= i < |name| :: Plain(name[i])
  {
  }

  lemma PlainIsBare(name: string)
    requires 1 <= |name| <= 255 && forall i | 0 <= i < |name| :: Plain(name[i])
    ensures BareDomain(name)
  {
    assert forall c <- name :: Plain(c);
    AsciiLength(name);
  }

  /** The scheme may be written in any case, and white space around it and behind it is dropped. */
  lemma SchemeInAnyCase(spec: string, rest: string, splits: string -> bool)
    requires |TrimSpace(spec)| >= 8 && ToLower(TrimSpace(spec)[..8]) == "probe://"
    requires rest == TrimSpace(TrimSpace(spec)[8..]) && rest != ""
    ensures ParseSpec(spec, splits) == ParseSpec("probe://" + rest, splits)
  {
    var t := TrimSpace(spec);
    assert ToLower(t)[..8] == ToLower(t[..8]);
    assert SCHEME + "://" == "probe://";
    SchemeDropped(rest);
  }

  /** A name by itself is dialed at the default port. */
  lemma NameAlone(name: string, splits: string -> bool)
    requires Writable(name) && ToLower(name) != "probe"
    ensures ParseSpec(name, splits) == Some((name, name + ":" + "443"))
  {
    NoColonNoScheme(name);
    assert SplitTarget(name) == (name, "");
  }

  lemma NoColonNoScheme(name: string)
    requires Trimmed(name) && ':' !in name && ToLower(name) != "probe"
    ensures WithoutScheme(name) == name
  {
    assert TrimSpace(name) == name;
    var scheme := SCHEME + "://";
    assert scheme[5] == ':';
    if scheme <= ToLower(name) {
      LowerKeeps(name, 5);
      assert false;
    }
  }

  // ---------------------------------------------------------------------------
  // Which pairs some spec is read as
  // ---------------------------------------------------------------------------

  predicate TrimmedBare(name: string) {
    Trimmed(name) && BareDomain(name)
  }

  /** What can stand behind the last '@' of a spec. */
  predicate Target(t: string) {
    t != "" && Trimmed(t) && '@' !in t
  }

  /** What the default port was added to, if it was. */
  function Stem(hostPort: string): Option<string> {
    var n := |hostPort| - 4;
    if n < 1 || hostPort[n..] != ":443" then None
    else
      var u := hostPort[..n];
      if ':' !in u then Some(u)
      else if n > 2 && u[0] == '[' && u[n - 1] == ']' && ':' in u[1..n - 1] then Some(u[1..n - 1])
      else None
  }

  lemma StemExact(hostPort: string, t: string)
    requires t != ""
    ensures Stem(hostPort) == Some(t) <==> hostPort == JoinHostPort(t, DEFAULT_PORT)
  {
    if hostPort == JoinHostPort(t, DEFAULT_PORT) {
      var n := |hostPort| - 4;
      assert hostPort[n..] == ":443";
      if ':' in t {
        assert hostPort[..n] == "[" + t + "]";
      } else {
        assert hostPort[..n] == t;
      }
    }
    if Stem(hostPort) == Some(t) {
      var n := |hostPort| - 4;
      assert hostPort == hostPort[..n] + ":443";
      if ':' in hostPort[..n] {
        assert hostPort[..n] == "[" + t + "]";
        assert hostPort == "[" + t + "]:" + "443";
      } else {
        assert hostPort == t + ":" + "443";
      }
    }
  }

  /** The name with the default port, a target as it was given, or one that was completed. */
  predicate Dialable(name: string, hostPort: string, splits: string -> bool) {
    || hostPort == JoinHostPort(name, DEFAULT_PORT)
    || (Target(hostPort) && splits(hostPort))
    || (Stem(hostPort).Some? && Target(Stem(hostPort).value) && !splits(Stem(hostPort).value))
  }

  lemma ParsedIsDialable(spec: string, splits: string -> bool)
    requires ParseSpec(spec, splits).Some?
    ensures var (name, hostPort) := ParseSpec(spec, splits).value;
      TrimmedBare(name) && Dialable(name, hostPort, splits)
  {
    var split := SplitTarget(WithoutScheme(spec));
    if split.1 != "" && !splits(split.1) {
      StemExact(JoinHostPort(split.1, DEFAULT_PORT), split.1);
    }
  }

  /** A spec that ends in '@' leaves the target to be the name. */
  lemma EmptyTarget(name: string, splits: string -> bool)
    requires TrimmedBare(name)
    ensures ParseSpec("probe://" + (name + "@"), splits) == Some((name, JoinHostPort(name, DEFAULT_PORT)))
  {
    var rest := name + "@";
    assert rest[0] == name[0] && rest[|rest| - 1] == '@';
    SchemeDropped(rest);
    var at := LastIndex(rest, '@');
    assert rest[|name|] == '@';
    if at != |name| {
      assert false;
    }
    assert rest[..at] == name && rest[at + 1..] == "";
  }

  /** Any bare name can be given any target. */
  lemma WithTarget(name: string, target: string, splits: string -> bool)
    requires TrimmedBare(name) && Target(target)
    ensures ParseSpec(Render(name, target), splits) == Some((name, HostPort(name, target, splits)))
  {
    RenderTakenApart(name, target);
    assert Trimmed(name + "@" + target);
    LastAtIsOurs(name, target);
  }

  /** The pairs that some spec is read as, exactly. */
  lemma AcceptedExactly(name: string, hostPort: string, splits: string -> bool)
    ensures (exists spec :: ParseSpec(spec, splits) == Some((name, hostPort))) <==>
            TrimmedBare(name) && Dialable(name, hostPort, splits)
  {
    if TrimmedBare(name) && Dialable(name, hostPort, splits) {
      var spec := SpecFor(name, hostPort, splits);
    }
    forall spec | ParseSpec(spec, splits) == Some((name, hostPort))
      ensures TrimmedBare(name) && Dialable(name, hostPort, splits)
    {
      ParsedIsDialable(spec, splits);
    }
  }

  lemma SpecFor(name: string, hostPort: string, splits: string -> bool) returns (spec: string)
    requires TrimmedBare(name) && Dialable(name, hostPort, splits)
    ensures ParseSpec(spec, splits) == Some((name, hostPort))
  {
    if hostPort == JoinHostPort(name, DEFAULT_PORT) {
      EmptyTarget(name, splits);
      spec := "probe://" + (name + "@");
    } else if Target(hostPort) && splits(hostPort) {
      WithTarget(name, hostPort, splits);
      spec := Render(name, hostPort);
    } else {
      var t := Stem(hostPort).value;
      StemExact(hostPort, t);
      WithTarget(name, t, splits);
      spec := Render(name, t);
    }
  }

  // ---------------------------------------------------------------------------
  // Pairs that do not survive being written out and read again
  // ---------------------------------------------------------------------------

  /** A name may contain '@' when the spec ends in one; the pair is lost, whatever SplitHostPort accepts. */
  lemma NameWithAtLost(name: string, splits: string -> bool)
    requires TrimmedBare(name) && '@' in name
    ensures var hostPort := JoinHostPort(name, DEFAULT_PORT);
      && ParseSpec("probe://" + (name + "@"), splits) == Some((name, hostPort))
      && ParseSpec(Render(name, hostPort), splits) != Some((name, hostPort))
  {
    EmptyTarget(name, splits);
    RenderParse("probe://" + (name + "@"), splits);
    var hostPort := JoinHostPort(name, DEFAULT_PORT);
    var i :| 0 <= i < |name| && name[i] == '@';
    assert hostPort[i] == '@';
  }

  /** For instance "a@b". */
  lemma NameWithAtExists()
    ensures TrimmedBare("a@b") && '@' in "a@b"
  {
    assert "a@b"[1..] == "@b" && "@b"[1..] == "b" && "b"[1..] == "";
    assert ByteLength("a@b") == 3;
    assert "a@b"[1] == '@';
  }

  /** net.SplitHostPort succeeds: one colon, or brackets around all but the port, and no other bracket. */
  predicate SplitsHostPort(s: string) {
    var i := LastIndex(s, ':');
    if i == |s| then false
    else if s[0] == '[' then
      i >= 1 && s[i - 1] == ']' && ']' !in s[..i - 1] && '[' !in s[1..] && ']' !in s[i..]
    else ':' !in s[..i] && '[' !in s && ']' !in s
  }

  /**
   A bracketed IPv6 target without a port gets a second pair of brackets, which
   SplitHostPort refuses, so that the pair is lost too.
  */
  lemma BracketedTargetLost(name: string, ip: string)
    requires Writable(name) && ':' in ip && '@' !in ip && ']' !in ip
    ensures var target := "[" + ip + "]";
      var hostPort := "[" + target + "]:" + DEFAULT_PORT;
      && ParseSpec(name + "@" + target, SplitsHostPort) == Some((name, hostPort))
      && !SplitsHostPort(hostPort)
      && ParseSpec(Render(name, hostPort), SplitsHostPort) != Some((name, hostPort))
  {
    var target := "[" + ip + "]";
    var hostPort := "[" + target + "]:" + DEFAULT_PORT;
    BracketedDoesNotSplit(ip);
    DoubleBracketsDoNotSplit(ip);
    InsideBrackets(ip);
    Spellings(name, target, SplitsHostPort);
    RenderParse(name + "@" + target, SplitsHostPort);
  }

  lemma InsideBrackets(ip: string)
    requires ':' in ip && '@' !in ip
    ensures var target := "[" + ip + "]"; target != "" && Trimmed(target) && '@' !in target && ':' in target
  {
    var target := "[" + ip + "]";
    assert target[0] == '[' && target[|target| - 1] == ']';
    var k :| 0 <= k < |ip| && ip[k] == ':';
    assert target[k + 1] == ':';
  }

  lemma BracketedDoesNotSplit(ip: string)
    requires ']' !in ip
    ensures !SplitsHostPort("[" + ip + "]")
  {
    var s := "[" + ip + "]";
    var i := LastIndex(s, ':');
    if i < |s| && i >= 1 && s[i - 1] == ']' {
      assert s[|s| - 1] == ']' && s[i..][|s| - 1 - i] == ']';
    }
  }

  lemma DoubleBracketsDoNotSplit(ip: string)
    ensures !SplitsHostPort("[" + ("[" + ip + "]") + "]:" + DEFAULT_PORT)
  {
    var s := "[" + ("[" + ip + "]") + "]:" + DEFAULT_PORT;
    assert s[0] == '[' && s[1] == '[';
    assert s[1..][0] == '[';
  }
}
