/** The keys of the ECH cache, and which lookups share one. */
module CacheKeys {
  import opened Basics
  import opened Text
  import opened ProbeSpec

  /** Where an ECH config comes from; a lookup is this and the proxy it goes through. */
  datatype Source = ByProbe(name: string, hostPort: string) | ByDns(domain: string, doh: string)
  {
    predicate BarFree() {
      match this
      case ByProbe(name, hostPort) => '|' !in name && '|' !in hostPort
      case ByDns(domain, doh) => '|' !in domain && '|' !in doh
    }
  }

  function Barred(s: string, t: string): string {
    s + ['|'] + t
  }

  /** Three parts with a bar between them. */
  function Tail(x: string, y: string, z: string): string {
    Barred(x, Barred(y, z))
  }

  function CacheKey(source: Source, proxy: string): string {
    match source
    case ByProbe(name, hostPort) => Barred("probe", Tail(name, hostPort, proxy))
    case ByDns(domain, doh) => Barred("doh", Tail(domain, doh, proxy))
  }

  /** The keys written out, as they stand in the cache. */
  lemma KeyText(name: string, hostPort: string, domain: string, doh: string, proxy: string)
    ensures CacheKey(ByProbe(name, hostPort), proxy) == "probe|" + name + "|" + hostPort + "|" + proxy
    ensures CacheKey(ByDns(domain, doh), proxy) == "doh|" + domain + "|" + doh + "|" + proxy
  {
    assert "probe" + ['|'] == "probe|" && "doh" + ['|'] == "doh|";
    assert Barred("probe", Tail(name, hostPort, proxy)) == "probe|" + name + "|" + hostPort + "|" + proxy;
    assert Barred("doh", Tail(domain, doh, proxy)) == "doh|" + domain + "|" + doh + "|" + proxy;
  }

  /** Lookups share a cache entry only if they are the same lookup, as far as bars go. */
  lemma CacheKeysDistinguish(a: Source, p: string, b: Source, q: string)
    requires a.BarFree() && b.BarFree()
    requires CacheKey(a, p) == CacheKey(b, q)
    ensures a == b && p == q
  {
    SameMethod(a, p, b, q);
    var (x, y) := match a case ByProbe(x, y) => (x, y) case ByDns(x, y) => (x, y);
    var (x', y') := match b case ByProbe(x, y) => (x, y) case ByDns(x, y) => (x, y);
    CutUnique(x, Barred(y, p), x', Barred(y', q), '|');
    CutUnique(y, p, y', q, '|');
  }

  /** The method is what stands before the first bar. */
  lemma SameMethod(a: Source, p: string, b: Source, q: string)
    requires CacheKey(a, p) == CacheKey(b, q)
    ensures match (a, b)
            case (ByProbe(x, y), ByProbe(x', y')) => Tail(x, y, p) == Tail(x', y', q)
            case (ByDns(x, y), ByDns(x', y')) => Tail(x, y, p) == Tail(x', y', q)
            case _ => false
  {
    var m := if a.ByProbe? then "probe" else "doh";
    var m' := if b.ByProbe? then "probe" else "doh";
    var s := match a case ByProbe(x, y) => Tail(x, y, p) case ByDns(x, y) => Tail(x, y, p);
    var t := match b case ByProbe(x, y) => Tail(x, y, q) case ByDns(x, y) => Tail(x, y, q);
    CutUnique(m, s, m', t, '|');
  }

  // ---------------------------------------------------------------------------
  // Cutting a key
  // ---------------------------------------------------------------------------

  predicate Cut(tail: string, i: nat, j: nat) {
    i < j < |tail| && tail[i] == '|' && tail[j] == '|'
  }

  lemma CutGivesParts(tail: string, i: nat, j: nat)
    requires Cut(tail, i, j)
    ensures tail == Tail(tail[..i], tail[i + 1..j], tail[j + 1..])
  {
  }

  lemma PartsGiveCut(x: string, y: string, z: string)
    ensures var tail, i, j := Tail(x, y, z), |x|, |x| + 1 + |y|;
      Cut(tail, i, j) && tail[..i] == x && tail[i + 1..j] == y && tail[j + 1..] == z
  {
  }

  lemma TailAt(x: string, y: string, z: string, m: nat)
    requires m < |Tail(x, y, z)|
    ensures Tail(x, y, z)[m] ==
            if m < |x| then x[m]
            else if m == |x| || m == |x| + 1 + |y| then '|'
            else if m < |x| + 1 + |y| then y[m - |x| - 1]
            else z[m - |x| - |y| - 2]
  {
  }

  /** A string cut at two bars: in the same place, or one cut further on than the other. */
  lemma TwoCuts(a: string, b: string, c: string, d: string) returns (x: string)
    requires Barred(a, b) == Barred(c, d)
    ensures || (a == c && b == d)
            || (c == Barred(a, x) && b == Barred(x, d))
            || (a == Barred(c, x) && d == Barred(x, b))
  {
    var s := Barred(a, b);
    assert a == s[..|a|] && c == s[..|c|] && b == s[|a| + 1..] && d == s[|c| + 1..];
    if |a| < |c| {
      x := c[|a| + 1..];
      assert c == Barred(a, x) && b == Barred(x, d);
    } else if |c| < |a| {
      x := a[|c| + 1..];
      assert a == Barred(c, x) && d == Barred(x, b);
    } else {
      x := "";
    }
  }

  // ---------------------------------------------------------------------------
  // Which lookups the code can make
  // ---------------------------------------------------------------------------

  /** A pair that some probe spec is read as, or a lookup at some DoH address. */
  ghost predicate Possible(source: Source, splits: string -> bool) {
    match source
    case ByProbe(name, hostPort) => exists spec :: ParseSpec(spec, splits) == Some((name, hostPort))
    case ByDns(_, doh) => doh != ""
  }

  /** The same, as a test. */
  predicate Accepted(source: Source, splits: string -> bool) {
    match source
    case ByProbe(name, hostPort) => TrimmedBare(name) && Dialable(name, hostPort, splits)
    case ByDns(_, doh) => doh != ""
  }

  lemma PossibleExactly(source: Source, splits: string -> bool)
    ensures Possible(source, splits) <==> Accepted(source, splits)
  {
    if source.ByProbe? {
      AcceptedExactly(source.name, source.hostPort, splits);
    }
  }

  /** No other lookup that the code can make has the key. */
  ghost predicate Alone(a: Source, p: string, splits: string -> bool) {
    forall b: Source, q: string :: Accepted(b, splits) && CacheKey(b, q) == CacheKey(a, p) ==> b == a && q == p
  }

  // ---------------------------------------------------------------------------
  // DNS lookups
  // ---------------------------------------------------------------------------

  /** No bars, except that a DoH address may be a bar and nothing else. */
  predicate PlainDns(domain: string, doh: string, proxy: string) {
    '|' !in domain && '|' !in proxy && ('|' !in doh || doh == "|")
  }

  /** With a bar too many there is another pair of bars to cut at, not next to each other. */
  lemma OtherDnsCut(x: string, y: string, z: string) returns (i: nat, j: nat)
    requires y != "" && !PlainDns(x, y, z)
    ensures Cut(Tail(x, y, z), i, j) && j > i + 1
    ensures i != |x| || j != |x| + 1 + |y|
  {
    var tail := Tail(x, y, z);
    PartsGiveCut(x, y, z);
    i, j := |x|, |x| + 1 + |y|;
    if '|' in x {
      i :| 0 <= i < |x| && x[i] == '|';
    } else if '|' in z {
      var k :| 0 <= k < |z| && z[k] == '|';
      j := |x| + 1 + |y| + 1 + k;
      assert tail[j] == z[k];
    } else {
      var k :| 0 <= k < |y| && y[k] == '|';
      assert tail[|x| + 1 + k] == y[k];
      if k > 0 {
        j := |x| + 1 + k;
      } else {
        i := |x| + 1;
      }
    }
  }

  /** Without, there is not. */
  lemma OnlyDnsCut(x: string, y: string, z: string, i: nat, j: nat)
    requires PlainDns(x, y, z) && Cut(Tail(x, y, z), i, j) && j > i + 1
    ensures i == |x| && j == |x| + 1 + |y|
  {
    var tail := Tail(x, y, z);
    forall m: nat | m < |tail| && tail[m] == '|'
      ensures m == |x| || m == |x| + 1 + |y| || (y == "|" && m == |x| + 1)
    {
      TailAt(x, y, z, m);
    }
  }

  /** A DNS lookup has its key to itself exactly when nothing in it contains a bar; its address may be one. */
  lemma DnsKeyExact(domain: string, doh: string, proxy: string, splits: string -> bool)
    requires doh != ""
    ensures Alone(ByDns(domain, doh), proxy, splits) <==> PlainDns(domain, doh, proxy)
  {
    if PlainDns(domain, doh, proxy) {
      forall b: Source, q: string | Accepted(b, splits) && CacheKey(b, q) == CacheKey(ByDns(domain, doh), proxy)
        ensures b == ByDns(domain, doh) && q == proxy
      {
        SameMethod(b, q, ByDns(domain, doh), proxy);
        DnsIsOurs(domain, doh, proxy, b.domain, b.doh, q);
      }
    } else {
      DnsShares(domain, doh, proxy, splits);
    }
  }

  lemma DnsIsOurs(domain: string, doh: string, proxy: string, domain': string, doh': string, q: string)
    requires PlainDns(domain, doh, proxy) && doh' != "" && Tail(domain', doh', q) == Tail(domain, doh, proxy)
    ensures domain' == domain && doh' == doh && q == proxy
  {
    PartsGiveCut(domain, doh, proxy);
    PartsGiveCut(domain', doh', q);
    OnlyDnsCut(domain, doh, proxy, |domain'|, |domain'| + 1 + |doh'|);
  }

  lemma DnsShares(domain: string, doh: string, proxy: string, splits: string -> bool)
    requires doh != "" && !PlainDns(domain, doh, proxy)
    ensures !Alone(ByDns(domain, doh), proxy, splits)
  {
    var tail := Tail(domain, doh, proxy);
    var i, j := OtherDnsCut(domain, doh, proxy);
    CutGivesParts(tail, i, j);
    PartsGiveCut(domain, doh, proxy);
    var b, q := ByDns(tail[..i], tail[i + 1..j]), tail[j + 1..];
    assert Accepted(b, splits) && CacheKey(b, q) == CacheKey(ByDns(domain, doh), proxy);
    assert b != ByDns(domain, doh) || q != proxy;
  }

  // ---------------------------------------------------------------------------
  // Probes
  // ---------------------------------------------------------------------------

  /** Cut here, the text reads as a bare name and a dial target that the parser gives it. */
  predicate Reads(tail: string, i: nat, j: nat, splits: string -> bool) {
    Cut(tail, i, j) && TrimmedBare(tail[..i]) && Dialable(tail[..i], tail[i + 1..j], splits)
  }

  /**
   A probe lookup has its key to itself exactly when no other two bars of the key
   cut out a name and a target that pass for a probe: a test of finitely many cuts
   for what the parser accepts, spelled out in `Dialable`.
  */
  lemma ProbeKeyExact(name: string, hostPort: string, proxy: string, splits: string -> bool)
    requires Accepted(ByProbe(name, hostPort), splits)
    ensures Alone(ByProbe(name, hostPort), proxy, splits) <==> OneReading(name, hostPort, proxy, splits)
  {
    if Alone(ByProbe(name, hostPort), proxy, splits) {
      AloneHasOneReading(name, hostPort, proxy, splits);
    }
    if OneReading(name, hostPort, proxy, splits) {
      OneReadingIsAlone(name, hostPort, proxy, splits);
    }
  }

  /** The cut that makes the key is the only one that reads. */
  ghost predicate OneReading(name: string, hostPort: string, proxy: string, splits: string -> bool) {
    forall i: nat, j: nat | Reads(Tail(name, hostPort, proxy), i, j, splits) ::
      i == |name| && j == |name| + 1 + |hostPort|
  }

  lemma AloneHasOneReading(name: string, hostPort: string, proxy: string, splits: string -> bool)
    requires Alone(ByProbe(name, hostPort), proxy, splits)
    ensures OneReading(name, hostPort, proxy, splits)
  {
    forall i: nat, j: nat | Reads(Tail(name, hostPort, proxy), i, j, splits)
      ensures i == |name| && j == |name| + 1 + |hostPort|
    {
      ReadingIsOurs(name, hostPort, proxy, splits, i, j);
    }
  }

  lemma ReadingIsOurs(name: string, hostPort: string, proxy: string, splits: string -> bool, i: nat, j: nat)
    requires Alone(ByProbe(name, hostPort), proxy, splits)
    requires Reads(Tail(name, hostPort, proxy), i, j, splits)
    ensures i == |name| && j == |name| + 1 + |hostPort|
  {
    var tail := Tail(name, hostPort, proxy);
    CutGivesParts(tail, i, j);
    var b, q := ByProbe(tail[..i], tail[i + 1..j]), tail[j + 1..];
    assert Accepted(b, splits);
    assert CacheKey(b, q) == CacheKey(ByProbe(name, hostPort), proxy);
  }

  lemma OneReadingIsAlone(name: string, hostPort: string, proxy: string, splits: string -> bool)
    requires OneReading(name, hostPort, proxy, splits)
    ensures Alone(ByProbe(name, hostPort), proxy, splits)
  {
    forall b: Source, q: string | Accepted(b, splits) && CacheKey(b, q) == CacheKey(ByProbe(name, hostPort), proxy)
      ensures b == ByProbe(name, hostPort) && q == proxy
    {
      SameMethod(b, q, ByProbe(name, hostPort), proxy);
      SourceIsOurs(name, hostPort, proxy, splits, b.name, b.hostPort, q);
    }
  }

  lemma SourceIsOurs(name: string, hostPort: string, proxy: string, splits: string -> bool,
                     name': string, hostPort': string, q: string)
    requires OneReading(name, hostPort, proxy, splits)
    requires TrimmedBare(name') && Dialable(name', hostPort', splits)
    requires Tail(name', hostPort', q) == Tail(name, hostPort, proxy)
    ensures name' == name && hostPort' == hostPort && q == proxy
  {
    PartsGiveCut(name, hostPort, proxy);
    PartsGiveCut(name', hostPort', q);
    assert Reads(Tail(name, hostPort, proxy), |name'|, |name'| + 1 + |hostPort'|, splits);
  }

  /** A bar in front of the name does no harm, if it is the only one: what precedes it is no name. */
  lemma LeadingBarHarmless(rest: string, hostPort: string, proxy: string, splits: string -> bool)
    requires Accepted(ByProbe(['|'] + rest, hostPort), splits)
    requires '|' !in rest && '|' !in hostPort && '|' !in proxy
    ensures Alone(ByProbe(['|'] + rest, hostPort), proxy, splits)
  {
    var name := ['|'] + rest;
    var tail := Tail(name, hostPort, proxy);
    forall i: nat, j: nat | Reads(tail, i, j, splits)
      ensures i == |name| && j == |name| + 1 + |hostPort|
    {
      assert tail[..i] != "";
      TailAt(name, hostPort, proxy, i);
      TailAt(name, hostPort, proxy, j);
    }
    OneReadingIsAlone(name, hostPort, proxy, splits);
  }

  /** Which lookups have their key to themselves. */
  lemma CacheKeyExact(a: Source, p: string, splits: string -> bool)
    requires Accepted(a, splits)
    ensures Alone(a, p, splits) <==>
            match a
            case ByDns(domain, doh) => PlainDns(domain, doh, p)
            case ByProbe(name, hostPort) => OneReading(name, hostPort, p, splits)
  {
    match a
    case ByDns(domain, doh) => DnsKeyExact(domain, doh, p, splits);
    case ByProbe(name, hostPort) => ProbeKeyExact(name, hostPort, p, splits);
  }

  /** The default port has one colon, in front. */
  lemma LastColon(h: string, b: nat)
    requires |h| >= 4 && h[|h| - 4..] == ":443" && b < |h| && h[b] == ':'
    ensures b <= |h| - 4
  {
    var suffix := h[|h| - 4..];
    assert suffix[1] == '4' && suffix[2] == '4' && suffix[3] == '3';
    assert h[|h| - 3] == suffix[1] && h[|h| - 2] == suffix[2] && h[|h| - 1] == suffix[3];
  }

  /** Two colons and no bracket in front: nothing to dial. */
  lemma TwoColonsNotDialable(name: string, h: string, a: nat, b: nat)
    requires a < b < |h| && h[a] == ':' && h[b] == ':' && h[0] != '[' && ':' !in name
    ensures !Dialable(name, h, SplitsHostPort)
  {
    var i := LastIndex(h, ':');
    if i < b {
      assert false;
    }
    assert h[..i][a] == ':';
    if |h| >= 4 {
      var u := h[..|h| - 4];
      assert a < |u| ==> u[a] == ':';
    }
    if |h| >= 4 && h[|h| - 4..] == ":443" {
      LastColon(h, b);
    }
    var own := JoinHostPort(name, DEFAULT_PORT);
    assert own == name + [':'] + "443";
    assert h == own ==> a == |name| && b == |name|;
  }

  /**
   Nor does a bar in a proxy, if a colon precedes it as in any proxy with a scheme:
   what would have to be the target then has two.
  */
  lemma ProxyBarsHarmless(name: string, hostPort: string, proxy: string)
    requires Accepted(ByProbe(name, hostPort), SplitsHostPort)
    requires '|' !in name && '|' !in hostPort && hostPort != "" && hostPort[0] != '[' && ':' in hostPort
    requires forall k | 0 <= k < |proxy| && proxy[k] == '|' :: ':' in proxy[..k]
    ensures Alone(ByProbe(name, hostPort), proxy, SplitsHostPort)
  {
    forall b: Source, q: string |
      Accepted(b, SplitsHostPort) && CacheKey(b, q) == CacheKey(ByProbe(name, hostPort), proxy)
      ensures b == ByProbe(name, hostPort) && q == proxy
    {
      SameMethod(b, q, ByProbe(name, hostPort), proxy);
      NameIsOurs(name, hostPort, proxy, b.name, Barred(b.hostPort, q));
      TargetIsOurs(name, hostPort, proxy, b.hostPort, q);
    }
  }

  lemma NameIsOurs(name: string, hostPort: string, proxy: string, name': string, rest: string)
    requires '|' !in name && '|' !in hostPort && ':' in hostPort && BareDomain(name')
    requires Barred(name', rest) == Tail(name, hostPort, proxy)
    ensures name' == name && rest == Barred(hostPort, proxy)
  {
    var x := TwoCuts(name', rest, name, Barred(hostPort, proxy));
    if name' == Barred(name, x) && Barred(hostPort, proxy) == Barred(x, rest) {
      ReachesColon(hostPort, proxy, x, rest);
    }
  }

  lemma ReachesColon(hostPort: string, proxy: string, x: string, rest: string)
    requires '|' !in hostPort && ':' in hostPort && Barred(hostPort, proxy) == Barred(x, rest)
    ensures ':' in x
  {
    var y := TwoCuts(hostPort, proxy, x, rest);
  }

  lemma TargetIsOurs(name: string, hostPort: string, proxy: string, hostPort': string, q: string)
    requires ':' !in name && '|' !in hostPort && ':' in hostPort && hostPort[0] != '['
    requires forall k | 0 <= k < |proxy| && proxy[k] == '|' :: ':' in proxy[..k]
    requires Dialable(name, hostPort', SplitsHostPort) && Barred(hostPort', q) == Barred(hostPort, proxy)
    ensures hostPort' == hostPort && q == proxy
  {
    var x := TwoCuts(hostPort', q, hostPort, proxy);
    if hostPort' == Barred(hostPort, x) && proxy == Barred(x, q) {
      assert proxy[|x|] == '|' && proxy[..|x|] == x;
      TwoColonsIn(name, hostPort, x);
    }
  }

  lemma TwoColonsIn(name: string, hostPort: string, x: string)
    requires ':' !in name && ':' in hostPort && hostPort[0] != '[' && ':' in x
    ensures !Dialable(name, Barred(hostPort, x), SplitsHostPort)
  {
    var c: nat :| c < |hostPort| && hostPort[c] == ':';
    var d: nat :| d < |x| && x[d] == ':';
    var h := Barred(hostPort, x);
    assert h[c] == ':' && h[|hostPort| + 1 + d] == ':';
    TwoColonsNotDialable(name, h, c, |hostPort| + 1 + d);
  }
}
