/** Probes without white space or brackets: in closed form, which share a cache key; and two that do. */
module TidyProbes {
  import opened Basics
  import opened Text
  import opened ProbeSpec
  import opened CacheKeys

  predicate Plain(s: string) {
    ':' !in s && '@' !in s && '[' !in s && ']' !in s
  }

  predicate NoSpace(s: string) {
    forall c <- s :: !IsSpace(c)
  }

  /** No white space anywhere, and a name, a host and a port without brackets or further colons. */
  predicate Tidy(name: string, host: string, port: string, proxy: string) {
    && Plain(name) && Plain(host) && Plain(port)
    && NoSpace(name) && NoSpace(host) && NoSpace(port) && NoSpace(proxy)
    && BareDomain(name)
  }

  /**
   Bars only where they cannot be taken for a separator: in front of the name; in the
   host, if the name would then be no domain; and in the proxy behind a colon, an '@'
   or a bracket.
  */
  predicate HarmlessBars(name: string, host: string, port: string, proxy: string) {
    !BarInside(name) && !NameCouldGrow(name, host) && '|' !in port && !TargetCouldGrow(proxy)
  }

  predicate BarInside(name: string) {
    exists k :: 0 < k < |name| && name[k] == '|'
  }

  predicate NameCouldGrow(name: string, host: string) {
    exists k :: 0 <= k < |host| && host[k] == '|' && BareDomain(Barred(name, host[..k]))
  }

  predicate TargetCouldGrow(proxy: string) {
    exists k :: 0 <= k < |proxy| && proxy[k] == '|' && Plain(proxy[..k])
  }

  function HostColonPort(host: string, port: string): string {
    host + [':'] + port
  }

  lemma OneColonSplits(host: string, port: string)
    requires ':' !in host && '[' !in host && ']' !in host
    requires ':' !in port && '[' !in port && ']' !in port
    ensures SplitsHostPort(host + [':'] + port)
  {
    var s := host + [':'] + port;
    assert s[|host|] == ':';
    var i := LastIndex(s, ':');
    if i != |host| {
      assert false;
    }
    assert s[..i] == host;
  }

  lemma PlainTarget(host: string, port: string)
    requires Plain(host) && Plain(port) && NoSpace(host) && NoSpace(port)
    ensures Target(HostColonPort(host, port)) && SplitsHostPort(HostColonPort(host, port))
  {
    OneColonSplits(host, port);
    var h := HostColonPort(host, port);
    assert forall c <- h :: c == ':' || c in host || c in port;
    assert NoSpace(h) && h[0] in h && h[|h| - 1] in h;
  }

  lemma PlainDialable(name: string, host: string, port: string)
    requires Plain(host) && Plain(port) && NoSpace(host) && NoSpace(port)
    ensures Dialable(name, HostColonPort(host, port), SplitsHostPort)
  {
    PlainTarget(host, port);
  }

  lemma NoColonNotDialable(name: string, h: string)
    requires ':' !in h && ':' !in name
    ensures !Dialable(name, h, SplitsHostPort)
  {
    var own := JoinHostPort(name, DEFAULT_PORT);
    assert own[|name|] == ':';
    if |h| >= 4 && h[|h| - 4..] == ":443" {
      SuffixColon(h);
    }
  }

  lemma SuffixColon(h: string)
    requires |h| >= 4 && h[|h| - 4..] == ":443"
    ensures ':' in h
  {
    assert h[|h| - 4] == h[|h| - 4..][0];
  }

  /** What reaches into a proxy past a colon, an '@' or a bracket is no target. */
  lemma OverlongNotDialable(name: string, host: string, port: string, w: string)
    requires Plain(name) && Plain(host) && Plain(port) && !Plain(w)
    ensures !Dialable(name, HostColonPort(host, Barred(port, w)), SplitsHostPort)
  {
    var h := HostColonPort(host, Barred(port, w));
    assert h[|host|] == ':' && h[0] != '[';
    var start := |host| + 1 + |port| + 1;
    assert h[start..] == w;
    var d :| 0 <= d < |w| && w[d] in {':', '@', '[', ']'};
    assert h[start + d] == w[d];
    if w[d] == ':' {
      TwoColonsNotDialable(name, h, |host|, start + d);
    } else {
      assert w[d] in h;
      EndsElsewhere(name, host, port, w);
    }
  }

  /** Nor was the default port added to it: what stands behind its first colon contains a bar. */
  lemma EndsElsewhere(name: string, host: string, port: string, w: string)
    requires Plain(name) && Plain(host) && Plain(port)
    ensures var h := HostColonPort(host, Barred(port, w));
      h != JoinHostPort(name, DEFAULT_PORT) && (':' !in w ==> Stem(h).None?)
  {
    var rest := Barred(port, w);
    var h := HostColonPort(host, rest);
    assert rest[|port|] == '|' && '|' !in "443" && '|' !in ":443";
    assert h[|host|..][1 + |port|] == '|';
    var own := JoinHostPort(name, DEFAULT_PORT);
    assert own == name + [':'] + "443";
    if h == own {
      CutUnique(host, rest, name, "443", ':');
    }
    if ':' !in w && Stem(h).Some? {
      assert h[|h| - 4] == h[|h| - 4..][0];
      ColonAt(host, port, w, |h| - 4);
    }
  }

  lemma ColonAt(host: string, port: string, w: string, n: nat)
    requires Plain(host) && Plain(port) && ':' !in w
    requires n < |HostColonPort(host, Barred(port, w))| && HostColonPort(host, Barred(port, w))[n] == ':'
    ensures n == |host|
  {
    var rest := Barred(port, w);
    var h := HostColonPort(host, rest);
    assert ':' !in rest;
    assert forall m | 0 <= m < |host| :: h[m] == host[m];
    assert forall m | |host| < m < |h| :: h[m] == rest[m - |host| - 1];
  }

  lemma HarmlessBarsAlone(name: string, host: string, port: string, proxy: string)
    requires Tidy(name, host, port, proxy) && HarmlessBars(name, host, port, proxy)
    ensures Alone(ByProbe(name, HostColonPort(host, port)), proxy, SplitsHostPort)
  {
    var a := ByProbe(name, HostColonPort(host, port));
    forall b: Source, q: string | Accepted(b, SplitsHostPort) && CacheKey(b, q) == CacheKey(a, proxy)
      ensures b == a && q == proxy
    {
      SameMethod(b, q, a, proxy);
      SameName(name, host, port, proxy, b.name, Barred(b.hostPort, q));
      SameTarget(name, host, port, proxy, b.hostPort, q);
    }
  }

  lemma SameName(name: string, host: string, port: string, proxy: string, name': string, rest: string)
    requires !BarInside(name) && !NameCouldGrow(name, host) && BareDomain(name')
    requires Barred(name', rest) == Tail(name, HostColonPort(host, port), proxy)
    ensures name' == name && rest == Barred(HostColonPort(host, port), proxy)
  {
    var hp := HostColonPort(host, port);
    var x := TwoCuts(name', rest, name, Barred(hp, proxy));
    if name == Barred(name', x) {
      ShortName(name', x);
    } else if name' == Barred(name, x) && Barred(hp, proxy) == Barred(x, rest) {
      LongName(name, host, port, proxy, x, rest);
    }
  }

  lemma ShortName(l: string, r: string)
    requires l != ""
    ensures BarInside(Barred(l, r))
  {
    assert Barred(l, r)[|l|] == '|';
  }

  lemma LongName(name: string, host: string, port: string, proxy: string, x: string, rest: string)
    requires BareDomain(Barred(name, x))
    requires Barred(HostColonPort(host, port), proxy) == Barred(x, rest)
    ensures NameCouldGrow(name, host)
  {
    var s := Barred(x, rest);
    assert forall c <- x :: c in Barred(name, x);
    assert s[|host|] == ':' && s[|x|] == '|';
    assert forall m | 0 <= m < |x| :: x[m] == s[m];
    assert s[..|x|] == x && |x| < |host| && s[..|x|] == host[..|x|];
    assert host[|x|] == s[|x|];
  }

  lemma SameTarget(name: string, host: string, port: string, proxy: string, hostPort: string, q: string)
    requires Plain(name) && Plain(host) && Plain(port) && '|' !in port && !TargetCouldGrow(proxy)
    requires Dialable(name, hostPort, SplitsHostPort)
    requires Barred(hostPort, q) == Barred(HostColonPort(host, port), proxy)
    ensures hostPort == HostColonPort(host, port) && q == proxy
  {
    var hp := HostColonPort(host, port);
    var x := TwoCuts(hostPort, q, hp, proxy);
    if hp == Barred(hostPort, x) {
      ShortTarget(host, port, hostPort, x);
      NoColonNotDialable(name, hostPort);
    } else if hostPort == Barred(hp, x) && proxy == Barred(x, q) {
      LongTarget(x, q);
      BarredAfterPort(host, port, x);
      OverlongNotDialable(name, host, port, x);
    }
  }

  lemma ShortTarget(host: string, port: string, h: string, x: string)
    requires Plain(host) && '|' !in port && HostColonPort(host, port) == Barred(h, x)
    ensures ':' !in h
  {
    var s := Barred(h, x);
    assert s[|h|] == '|' && s[|host|] == ':';
    assert forall m | |host| < m <= |host| + |port| :: HostColonPort(host, port)[m] == port[m - |host| - 1];
    assert s[..|h|] == h && |h| < |host| && s[..|h|] == host[..|h|];
  }

  lemma LongTarget(x: string, q: string)
    requires !TargetCouldGrow(Barred(x, q))
    ensures !Plain(x)
  {
    assert Barred(x, q)[|x|] == '|' && Barred(x, q)[..|x|] == x;
  }

  lemma BarredAfterPort(host: string, port: string, w: string)
    ensures Barred(HostColonPort(host, port), w) == HostColonPort(host, Barred(port, w))
  {
  }

  lemma {:induction false} PrefixShorter(s: string, k: nat)
    requires k <= |s|
    ensures ByteLength(s[..k]) <= ByteLength(s)
  {
    if k > 0 {
      assert s[..k][1..] == s[1..][..k - 1];
      PrefixShorter(s[1..], k - 1);
    }
  }

  /** Another lookup with the same three parts in a row. */
  lemma Shares(name: string, hostPort: string, proxy: string, name': string, hostPort': string, proxy': string)
    requires TrimmedBare(name') && Dialable(name', hostPort', SplitsHostPort)
    requires Tail(name', hostPort', proxy') == Tail(name, hostPort, proxy)
    requires name' != name || hostPort' != hostPort
    ensures !Alone(ByProbe(name, hostPort), proxy, SplitsHostPort)
  {
    var b := ByProbe(name', hostPort');
    assert Accepted(b, SplitsHostPort);
    assert CacheKey(b, proxy') == CacheKey(ByProbe(name, hostPort), proxy);
  }

  lemma SplitAt(s: string, k: nat)
    requires k < |s| && s[k] == '|'
    ensures s == Barred(s[..k], s[k + 1..])
  {
  }

  lemma PrefixBare(name: string, k: nat)
    requires NoSpace(name) && BareDomain(name) && 0 < k <= |name|
    ensures TrimmedBare(name[..k])
  {
    PrefixShorter(name, k);
    NameTrimmed(name[..k]);
  }

  lemma BarredNoSpace(s: string, t: string)
    requires NoSpace(s) && NoSpace(t)
    ensures NoSpace(Barred(s, t))
  {
  }

  lemma NameTrimmed(name: string)
    requires NoSpace(name)
    ensures Trimmed(name)
  {
    if name != "" {
      assert name[0] in name && name[|name| - 1] in name;
    }
  }

  /** A bar inside the name: the rest of the name can go to the target. */
  lemma NameCut(name: string, host: string, port: string, proxy: string, k: nat)
    requires Tidy(name, host, port, proxy) && 0 < k < |name| && name[k] == '|'
    ensures !Alone(ByProbe(name, HostColonPort(host, port)), proxy, SplitsHostPort)
  {
    var l, r, hp := name[..k], name[k + 1..], HostColonPort(host, port);
    SplitAt(name, k);
    PrefixBare(name, k);
    PlainDialable(l, Barred(r, host), port);
    BarredBeforePort(r, host, port);
    BarredMoves(l, r, Barred(hp, proxy));
    BarredMoves(r, hp, proxy);
    Shares(name, hp, proxy, l, Barred(r, hp), proxy);
  }

  lemma BarredBeforePort(r: string, host: string, port: string)
    ensures HostColonPort(Barred(r, host), port) == Barred(r, HostColonPort(host, port))
  {
  }

  /** A bar in the host: what stands before it can go to the name. */
  lemma HostCut(name: string, host: string, port: string, proxy: string, k: nat)
    requires Tidy(name, host, port, proxy) && k < |host| && host[k] == '|'
    requires BareDomain(Barred(name, host[..k]))
    ensures !Alone(ByProbe(name, HostColonPort(host, port)), proxy, SplitsHostPort)
  {
    var l, r := host[..k], host[k + 1..];
    var hp := HostColonPort(r, port);
    SplitAt(host, k);
    BarredBeforePort(l, r, port);
    BarredNoSpace(name, l);
    NameTrimmed(Barred(name, l));
    PlainDialable(Barred(name, l), r, port);
    BarredMoves(name, l, Barred(hp, proxy));
    BarredMoves(l, hp, proxy);
    Shares(name, Barred(l, hp), proxy, Barred(name, l), hp, proxy);
  }

  /** A bar in the port: the target can end there. */
  lemma PortCut(name: string, host: string, port: string, proxy: string, k: nat)
    requires Tidy(name, host, port, proxy) && k < |port| && port[k] == '|'
    ensures !Alone(ByProbe(name, HostColonPort(host, port)), proxy, SplitsHostPort)
  {
    var l, r := port[..k], port[k + 1..];
    var hp := HostColonPort(host, l);
    SplitAt(port, k);
    BarredAfterPort(host, l, r);
    NameTrimmed(name);
    PlainDialable(name, host, l);
    BarredMoves(hp, r, proxy);
    Shares(name, Barred(hp, r), proxy, name, hp, Barred(r, proxy));
  }

  /** A bar in the proxy: the target can go on until there. */
  lemma ProxyCut(name: string, host: string, port: string, proxy: string, k: nat)
    requires Tidy(name, host, port, proxy) && k < |proxy| && proxy[k] == '|' && Plain(proxy[..k])
    ensures !Alone(ByProbe(name, HostColonPort(host, port)), proxy, SplitsHostPort)
  {
    var l, r, hp := proxy[..k], proxy[k + 1..], HostColonPort(host, port);
    SplitAt(proxy, k);
    BarredAfterPort(host, port, l);
    NameTrimmed(name);
    BarredNoSpace(port, l);
    PlainDialable(name, host, Barred(port, l));
    BarredMoves(hp, l, r);
    Shares(name, hp, proxy, name, Barred(hp, l), r);
  }

  /** A tidy probe has its key to itself exactly when its bars are harmless. */
  lemma TidyProbeExact(name: string, host: string, port: string, proxy: string)
    requires Tidy(name, host, port, proxy)
    ensures Alone(ByProbe(name, HostColonPort(host, port)), proxy, SplitsHostPort) <==>
            HarmlessBars(name, host, port, proxy)
  {
    if HarmlessBars(name, host, port, proxy) {
      HarmlessBarsAlone(name, host, port, proxy);
    } else if BarInside(name) {
      var k: nat :| 0 < k < |name| && name[k] == '|';
      NameCut(name, host, port, proxy, k);
    } else if NameCouldGrow(name, host) {
      var k: nat :| k < |host| && host[k] == '|' && BareDomain(Barred(name, host[..k]));
      HostCut(name, host, port, proxy, k);
    } else if '|' in port {
      var k: nat :| k < |port| && port[k] == '|';
      PortCut(name, host, port, proxy, k);
    } else {
      var k: nat :| k < |proxy| && proxy[k] == '|' && Plain(proxy[..k]);
      ProxyCut(name, host, port, proxy, k);
    }
  }

  // ---------------------------------------------------------------------------
  // Two specs, one key
  // ---------------------------------------------------------------------------

  lemma KeysCoincide(x: string, y: string, target: string, proxy: string)
    ensures CacheKey(ByProbe(Barred(x, y), target), proxy) == CacheKey(ByProbe(x, Barred(y, target)), proxy)
  {
    BarredMoves(x, y, Barred(target, proxy));
    BarredMoves(y, target, proxy);
  }

  lemma BarredMoves(l: string, r: string, t: string)
    ensures Barred(Barred(l, r), t) == Barred(l, Barred(r, t))
  {
  }

  /** The bar between two words can belong to the name or to the host: two lookups that share an entry. */
  lemma SpecsCollide(x: string, y: string, target: string, proxy: string, splits: string -> bool)
    requires Writable(x) && Writable(Barred(x, y)) && Target(target) && Target(Barred(y, target))
    requires splits(target) && splits(Barred(y, target))
    ensures ParseSpec(Barred(x, y) + "@" + target, splits) == Some((Barred(x, y), target))
    ensures ParseSpec(x + "@" + Barred(y, target), splits) == Some((x, Barred(y, target)))
    ensures CacheKey(ByProbe(Barred(x, y), target), proxy) == CacheKey(ByProbe(x, Barred(y, target)), proxy)
  {
    SpecGiven(Barred(x, y), target, splits);
    SpecGiven(x, Barred(y, target), splits);
    KeysCoincide(x, y, target, proxy);
  }

  lemma SpecGiven(name: string, target: string, splits: string -> bool)
    requires Writable(name) && Target(target) && splits(target)
    ensures ParseSpec(name + "@" + target, splits) == Some((name, target))
  {
    Spellings(name, target, splits);
  }

  // ---------------------------------------------------------------------------
  // Words
  // ---------------------------------------------------------------------------

  /** Lower-case letters, digits and bars, at least one of them. */
  predicate Word(s: string) {
    s != "" && forall c <- s :: 'a' <= c <= 'z' || '0' <= c <= '9' || c == '|'
  }

  lemma {:induction false} WordIsAscii(s: string)
    requires forall c <- s :: c < '\U{0080}'
    ensures ByteLength(s) == |s|
  {
    if s != "" {
      assert s[0] in s && forall c <- s[1..] :: c in s;
      WordIsAscii(s[1..]);
    }
  }

  lemma WordIsWritable(s: string)
    requires Word(s) && |s| <= 255
    ensures Writable(s)
  {
    WordIsAscii(s);
    assert s[0] in s && s[|s| - 1] in s;
  }

  lemma WordsAreTarget(host: string, port: string)
    requires Word(host) && Word(port)
    ensures var t := HostColonPort(host, port); Target(t) && SplitsHostPort(t)
  {
    PlainTarget(host, port);
  }

  /**
   Specs made of words such as x, y, h and 443: "x|y@h:443" and "x@y|h:443" are read
   as two lookups, and these have one key.
  */
  lemma WordsCollide(x: string, y: string, host: string, port: string, proxy: string)
    requires Word(x) && Word(y) && Word(host) && Word(port) && |x| + 1 + |y| <= 255
    ensures var t := HostColonPort(host, port);
      && ParseSpec(Barred(x, y) + "@" + t, SplitsHostPort) == Some((Barred(x, y), t))
      && ParseSpec(x + "@" + Barred(y, t), SplitsHostPort) == Some((x, Barred(y, t)))
      && CacheKey(ByProbe(Barred(x, y), t), proxy) == CacheKey(ByProbe(x, Barred(y, t)), proxy)
  {
    var t := HostColonPort(host, port);
    WordIsWritable(x);
    WordIsWritable(Barred(x, y));
    WordsAreTarget(host, port);
    WordsAreTarget(Barred(y, host), port);
    BarredBeforePort(y, host, port);
    SpecsCollide(x, y, t, proxy, SplitsHostPort);
  }

  lemma WordsExist()
    ensures Word("x") && Word("y") && Word("h") && Word("443")
  {
  }
}
