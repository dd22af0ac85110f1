/**
 Who calls whom when a request needs an ECH config: `echConfigList` may run a DoH
 query, which builds a transport of its own, which asks for an ECH config again.
 Each function returns what it does to the cache and the network, in order.
*/
module EchLookup {
  import opened Basics
  import opened FetchOptions
  import opened Text
  import Base64
  import CacheKeys
  import EchConfigList
  import NoisePlan
  import ProbeSpec

  /** Entering and leaving `echAcquire`'s fetch, connecting, and `echInvalidate`. */
  datatype Op =
    | Enter(key: string)
    | Leave(key: string)
    | Dial(proxy: string, fragment: bool, ip: string)
    | Drop(key: string)

  datatype Scheme = Http | Https | OtherScheme

  /** How a handshake ends; a refusal is what `echRejected` takes for one. */
  datatype Handshake = Completes | Refused | Fails

  /** The first handshake of an exchange, and what the exchange comes to after it. */
  datatype Wire = Wire(first: Handshake, rest: Handshake)

  /** What the outside world decides. */
  datatype World = World(
    splits: string -> bool,             // does SplitHostPort accept
    parse: string -> Option<(Scheme, string)>,  // scheme and host name of a DoH address, if url.Parse accepts it
    fetches: bool,                      // is the key missing, so that the fetch runs
    acquired: Result<seq<byte>>,        // what echAcquire returns, unless its fetch is known to fail
    own: Wire,                          // the request's own exchange
    lookup: Wire)                       // the exchange of its ECH lookup

  /** A config list with the cache key it came from, or an error. */
  type Found = Result<(seq<byte>, string)>

  // ---------------------------------------------------------------------------
  // The call skeleton
  // ---------------------------------------------------------------------------

  function Rank(o: Options): nat {
    if o.EchEnabled() then 1 else 0
  }

  /** `echConfigList` */
  function EchConfigs(o: Options, host: string, w: World): (seq<Op>, Found)
    decreases Rank(o), 0
  {
    if !o.EchEnabled() then ([], Ok(([], "")))
    else
      var ech := o.ech.value;
      if ech.configList != "" then
        var list := Base64.Decode(ech.configList, Base64.STD);
        if list.None? then ([], Err("invalid ech.configList"))
        else if EchConfigList.Parse(list.value).None? then ([], Err("not a well-formed ECHConfigList"))
        else ([], Ok((list.value, "")))
      else if ech.probe != "" then
        var spec := ProbeSpec.ParseSpec(ech.probe, w.splits);
        if spec.None? then ([], Err("bad probe"))
        else
          var key := CacheKeys.CacheKey(CacheKeys.ByProbe(spec.value.0, spec.value.1), o.proxy);
          Acquire(key, EchProbe(o.ForLookup(), w.lookup), w)
      else
        var domain := if ech.domain == "" then host else ech.domain;
        var key := CacheKeys.CacheKey(CacheKeys.ByDns(domain, ech.doh), o.proxy);
        Acquire(key, DnsExchange(o.ForLookup(), ech.doh, w, w.lookup), w)
  }

  /** `echAcquire` as seen from outside: the fetch runs, or somebody else's result is used. */
  function Acquire(key: string, fetch: (seq<Op>, bool), w: World): (seq<Op>, Found) {
    var ops := if w.fetches then [Enter(key)] + fetch.0 + [Leave(key)] else [];
    (ops,
     if w.fetches && !fetch.1 then Err("lookup failed")
     else if w.acquired.Ok? then Ok((w.acquired.value, key))
     else Err(w.acquired.reason))
  }

  /** `echProbe`: one throwaway connection, which must be refused to bring anything. */
  function EchProbe(o: Options, wire: Wire): (seq<Op>, bool) {
    ([Connect(o)], wire.first == Refused)
  }

  /** `rawDial` */
  function Connect(o: Options): Op {
    Dial(o.proxy, o.fragment, o.ip)
  }

  /** The uTLS path, which makes its first handshake before there is a transport. */
  predicate PreDials(o: Options, mode: Alpn, scheme: Scheme) {
    scheme != Http && mode != H3 && o.fingerprint != ""
  }

  /**
   `roundTripper`: what is done while the transport is built, and the key to drop on
   a rejection. An error here leaves before there is a client whose error is looked at.
  */
  function RoundTripper(o: Options, scheme: Scheme, host: string, w: World, wire: Wire): (seq<Op>, Result<string>)
    decreases Rank(o), 2
  {
    var mode := AlpnMode(o.alpn);
    if mode.None? then ([], Err("unknown alpn")) else Transport(o, mode.value, scheme, host, w, wire)
  }

  function Transport(o: Options, mode: Alpn, scheme: Scheme, host: string, w: World, wire: Wire)
    : (seq<Op>, Result<string>)
    decreases Rank(o), 1
  {
    if scheme == Http then
      if mode == H2 || mode == H3 then ([], Err("needs an https url")) else ([], Ok(""))
    else
      var (ops, found) := EchConfigs(o, host, w);
      if found.Err? then (ops, Err(found.reason))
      else if !PreDials(o, mode, scheme) then (ops, Ok(found.value.1))
      else (ops + [Connect(o)], if wire.first == Completes then Ok(found.value.1) else Err("pre-dial failed"))
  }

  predicate PreDialed(o: Options, scheme: Scheme) {
    AlpnMode(o.alpn).Some? && PreDials(o, AlpnMode(o.alpn).value, scheme)
  }

  /** The error with which the client's `Do` returns, once there is a transport. */
  function Ended(o: Options, scheme: Scheme, wire: Wire): Handshake {
    if PreDialed(o, scheme) || wire.first == Completes then wire.rest else wire.first
  }

  /** `dnsExchange`, with the drop after a rejection, and whether there may be an answer. */
  function DnsExchange(o: Options, server: string, w: World, wire: Wire): (seq<Op>, bool)
    decreases Rank(o), 4
  {
    var url := w.parse(server);
    if url.None? then ([], false) else Exchange(o, url.value.0, url.value.1, w, wire)
  }

  /** One request: its transport, and then the request itself. */
  function Exchange(o: Options, scheme: Scheme, host: string, w: World, wire: Wire): (seq<Op>, bool)
    decreases Rank(o), 3
  {
    if scheme == OtherScheme then ([], false)
    else
      var (ops, key) := RoundTripper(o, scheme, host, w, wire);
      if key.Err? then (ops, false)
      else
        var ended := Ended(o, scheme, wire);
        (ops + Perform(o, PreDialed(o, scheme), key.value, ended), ended == Completes)
  }

  /** The request itself, over the pre-dialed connection if there is one, and what follows a refusal. */
  function Perform(o: Options, preDialed: bool, key: string, ended: Handshake): seq<Op> {
    (if preDialed then [] else [Connect(o)]) + AfterDo(o, key, ended)
  }

  /** A refused config is dropped if this call asked for ECH. */
  function AfterDo(o: Options, key: string, ended: Handshake): seq<Op> {
    if ended == Refused && o.EchEnabled() && key != "" then [Drop(key)] else []
  }

  /** `FetchWeb`, as far as it touches the cache and the network. */
  function FetchWeb(o: Options, scheme: Scheme, host: string, w: World): seq<Op> {
    Exchange(o, scheme, host, w, w.own).0
  }

  // ---------------------------------------------------------------------------
  // What finding a config and using it come to
  // ---------------------------------------------------------------------------

  /**
   An exchange that asks for no ECH makes one connection, unless its options or its
   address keep it from being made, and is answered if no handshake goes wrong.
  */
  lemma PlainExchange(o: Options, server: string, w: World, wire: Wire)
    requires o.ech.None?
    ensures var url, mode := w.parse(server), AlpnMode(o.alpn);
      DnsExchange(o, server, w, wire) ==
        if url.Some? && mode.Some?
           && (url.value.0 == Https || (url.value.0 == Http && (mode == Some(Auto) || mode == Some(H1))))
        then ([Dial(o.proxy, o.fragment, o.ip)], wire.first == Completes && wire.rest == Completes)
        else ([], false)
  {
    var url := w.parse(server);
    if url.Some? {
      if url.value.0 == Https {
        SecureExchange(o, url.value.1, w, wire);
        assert [] + [Connect(o)] + [] == [Connect(o)];
      } else {
        ClearExchange(o, url.value.1, w, wire);
      }
    }
  }

  /** The connection is made before the transport or with it, and the trace is the same. */
  lemma Together(ops: seq<Op>, dial: Op, after: seq<Op>)
    ensures ops + ([dial] + after) == ops + [dial] + after
    ensures (ops + [dial]) + ([] + after) == ops + [dial] + after
    ensures ops + [] == ops
  {
  }

  /** Without ECH there is nothing to find, and nothing to drop later. */
  lemma NothingToFind(o: Options, host: string, w: World)
    requires o.ech.Some? ==> o.ech.value.configList == "" && o.ech.value.probe == "" && o.ech.value.doh == ""
    ensures EchConfigs(o, host, w) == ([], Ok(([], "")))
  {
  }

  /** What an acquisition under a key comes to when its fetch makes these connections and ends this well. */
  ghost predicate Acquires(
    result: (seq<Op>, Found), key: string, dials: seq<Op>, succeeds: bool, w: World)
  {
    && result.0 == (if w.fetches then [Enter(key)] + dials + [Leave(key)] else [])
    && (result.1.Ok? <==> w.acquired.Ok? && (w.fetches ==> succeeds))
    && (result.1.Ok? ==> result.1.value == (w.acquired.value, key))
  }

  /**
   A probe comes before a resolver. Its key names the server and the proxy, a cold
   lookup makes one connection that drops the pinned address, and brings a config
   only when the server refuses that handshake.
  */
  lemma ProbeLookup(o: Options, host: string, w: World)
    requires o.ech.Some? && o.ech.value.configList == "" && o.ech.value.probe != ""
    ensures var result, spec := EchConfigs(o, host, w), ProbeSpec.ParseSpec(o.ech.value.probe, w.splits);
      if spec.None? then result.0 == [] && result.1.Err?
      else
        Acquires(result, "probe|" + spec.value.0 + "|" + spec.value.1 + "|" + o.proxy,
                 [Dial(o.proxy, o.fragment, "")], w.lookup.first == Refused, w)
  {
    var spec := ProbeSpec.ParseSpec(o.ech.value.probe, w.splits);
    if spec.Some? {
      CacheKeys.KeyText(spec.value.0, spec.value.1, "", "", o.proxy);
    }
  }

  /**
   Otherwise the resolver is asked, for the domain that the options name or else for
   the request's own host, over one connection that drops the pinned address; it
   brings a config only when that exchange is answered.
  */
  lemma DnsLookup(o: Options, host: string, w: World)
    requires o.ech.Some? && o.ech.value.configList == "" && o.ech.value.probe == "" && o.ech.value.doh != ""
    ensures var ech, url, mode := o.ech.value, w.parse(o.ech.value.doh), AlpnMode(o.alpn);
      var asks :=
        && url.Some? && mode.Some?
        && (url.value.0 == Https || (url.value.0 == Http && (mode == Some(Auto) || mode == Some(H1))));
      Acquires(EchConfigs(o, host, w),
               "doh|" + (if ech.domain != "" then ech.domain else host) + "|" + ech.doh + "|" + o.proxy,
               if asks then [Dial(o.proxy, o.fragment, "")] else [],
               asks && w.lookup.first == Completes && w.lookup.rest == Completes, w)
  {
    var ech := o.ech.value;
    CacheKeys.KeyText("", "", if ech.domain != "" then ech.domain else host, ech.doh, o.proxy);
    PlainExchange(o.ForLookup(), ech.doh, w, w.lookup);
  }

  /**
   A request over https finds its config, makes one connection, whichever path it
   takes, and drops the entry of its config when a refusal reaches it as a client's
   error: the pre-dial's does not.
  */
  lemma SecureExchange(o: Options, host: string, w: World, wire: Wire)
    ensures var (ops, found) := EchConfigs(o, host, w);
      Exchange(o, Https, host, w, wire) ==
        if AlpnMode(o.alpn).None? then ([], false)
        else if found.Err? then (ops, false)
        else
          var preDials := AlpnMode(o.alpn) != Some(H3) && o.fingerprint != "";
          var refused := (wire.first == Refused && !preDials) || (wire.first == Completes && wire.rest == Refused);
          (ops + [Dial(o.proxy, o.fragment, o.ip)]
             + (if refused && found.value.1 != "" then [Drop(found.value.1)] else []),
           wire.first == Completes && wire.rest == Completes)
  {
    EchConfigsDropNothing(o, host, w);
    var (ops, found) := EchConfigs(o, host, w);
    if AlpnMode(o.alpn).Some? && found.Ok? {
      AfterConfigs(o, AlpnMode(o.alpn).value, host, w, wire);
      Together(ops, Connect(o), AfterDo(o, found.value.1, Ended(o, Https, wire)));
      var preDialed := PreDialed(o, Https);
      var refused := (wire.first == Refused && !preDialed) || (wire.first == Completes && wire.rest == Refused);
      assert Exchange(o, Https, host, w, wire).0 ==
             ops + [Connect(o)] + (if refused && found.value.1 != "" then [Drop(found.value.1)] else []);
    } else {
      assert RoundTripper(o, Https, host, w, wire) ==
             if AlpnMode(o.alpn).None? then ([], Err("unknown alpn")) else (ops, Err(found.reason));
    }
  }

  /** A request over http has no config to look for, and none to offer. */
  lemma ClearExchange(o: Options, host: string, w: World, wire: Wire)
    ensures Exchange(o, Http, host, w, wire) ==
            if AlpnMode(o.alpn) == Some(Auto) || AlpnMode(o.alpn) == Some(H1)
            then ([Dial(o.proxy, o.fragment, o.ip)], wire.first == Completes && wire.rest == Completes)
            else ([], false)
    ensures Exchange(o, OtherScheme, host, w, wire) == ([], false)
  {
    if AlpnMode(o.alpn) == Some(Auto) || AlpnMode(o.alpn) == Some(H1) {
      assert RoundTripper(o, Http, host, w, wire) == ([], Ok(""));
      assert Perform(o, false, "", Ended(o, Http, wire)) == [Connect(o)];
      assert Exchange(o, Http, host, w, wire).0 == [Connect(o)];
    } else {
      assert RoundTripper(o, Http, host, w, wire).1.Err? && RoundTripper(o, Http, host, w, wire).0 == [];
    }
  }

  // ---------------------------------------------------------------------------
  // What the traces look like
  // ---------------------------------------------------------------------------

  predicate OnlyDials(ops: seq<Op>, o: Options) {
    forall op <- ops :: op == Connect(o)
  }

  /**
   Well nested to depth one: no acquisition starts inside another, nothing is
   dropped inside one, and inside one every connection goes through the request's
   own proxy and fragmentation but not to its pinned address.
  */
  predicate Nested(ops: seq<Op>, inside: Option<string>, o: Options)
    decreases |ops|
  {
    if ops == [] then inside.None?
    else
      match ops[0]
      case Enter(key) => inside.None? && Nested(ops[1..], Some(key), o)
      case Leave(key) => inside == Some(key) && Nested(ops[1..], None, o)
      case Dial(proxy, fragment, ip) =>
        && proxy == o.proxy && fragment == o.fragment
        && ip == (if inside.Some? then "" else o.ip)
        && Nested(ops[1..], inside, o)
      case Drop(_) => inside.None? && Nested(ops[1..], None, o)
  }

  lemma NoEchTransport(o: Options, scheme: Scheme, host: string, w: World, wire: Wire)
    requires !o.EchEnabled()
    ensures OnlyDials(RoundTripper(o, scheme, host, w, wire).0, o)
  {
    var mode := AlpnMode(o.alpn);
    if mode.Some? {
      assert EchConfigs(o, host, w).0 == [];
      assert OnlyDials(Transport(o, mode.value, scheme, host, w, wire).0, o);
    }
  }

  /** A DNS exchange without ECH connects, and does nothing else: it never comes back to the cache. */
  lemma NoEchOnlyDials(o: Options, server: string, w: World, wire: Wire)
    requires !o.EchEnabled()
    ensures OnlyDials(DnsExchange(o, server, w, wire).0, o)
  {
    var url := w.parse(server);
    if url.Some? {
      NoEchTransport(o, url.value.0, url.value.1, w, wire);
    }
  }

  lemma {:induction false} NestedAppend(a: seq<Op>, b: seq<Op>, inside: Option<string>, o: Options)
    requires Nested(a, inside, o) && Nested(b, None, o)
    ensures Nested(a + b, inside, o)
    decreases |a|
  {
    if a == [] {
      assert a + b == b;
    } else {
      var next := match a[0] case Enter(key) => Some(key) case Leave(_) => None case Dial(_, _, _) => inside
                             case Drop(_) => None;
      NestedAppend(a[1..], b, next, o);
      assert (a + b)[1..] == a[1..] + b;
    }
  }

  /** Connections made under the lookup's options, inside an acquisition. */
  lemma {:induction false} DialsInside(ops: seq<Op>, key: string, o: Options)
    requires OnlyDials(ops, o.ForLookup())
    ensures Nested(ops + [Leave(key)], Some(key), o)
    decreases |ops|
  {
    if ops == [] {
      assert [Leave(key)][1..] == [];
      assert ops + [Leave(key)] == [Leave(key)];
    } else {
      assert ops[0] in ops;
      assert forall op <- ops[1..] :: op in ops;
      DialsInside(ops[1..], key, o);
      assert (ops + [Leave(key)])[1..] == ops[1..] + [Leave(key)];
    }
  }

  lemma AcquireNested(key: string, fetch: (seq<Op>, bool), w: World, o: Options)
    requires OnlyDials(fetch.0, o.ForLookup())
    ensures Nested(Acquire(key, fetch, w).0, None, o)
  {
    if w.fetches {
      DialsInside(fetch.0, key, o);
      var ops := [Enter(key)] + fetch.0 + [Leave(key)];
      assert ops[1..] == fetch.0 + [Leave(key)];
    }
  }

  lemma EchConfigsNested(o: Options, host: string, w: World)
    ensures Nested(EchConfigs(o, host, w).0, None, o)
  {
    if o.EchEnabled() && o.ech.value.configList == "" {
      var lookup := o.ForLookup();
      NoEchOnlyDials(lookup, o.ech.value.doh, w, w.lookup);
      if o.ech.value.probe != "" {
        var spec := ProbeSpec.ParseSpec(o.ech.value.probe, w.splits);
        if spec.Some? {
          AcquireNested(CacheKeys.CacheKey(CacheKeys.ByProbe(spec.value.0, spec.value.1), o.proxy),
                        EchProbe(lookup, w.lookup), w, o);
        }
      } else {
        var domain := if o.ech.value.domain == "" then host else o.ech.value.domain;
        AcquireNested(CacheKeys.CacheKey(CacheKeys.ByDns(domain, o.ech.value.doh), o.proxy),
                      DnsExchange(lookup, o.ech.value.doh, w, w.lookup), w, o);
      }
    }
  }

  lemma PerformNested(o: Options, preDialed: bool, key: string, ended: Handshake)
    ensures Nested(Perform(o, preDialed, key, ended), None, o)
  {
    assert [Connect(o)][1..] == [];
    assert [Drop(key)][1..] == [];
    NestedAppend(if preDialed then [] else [Connect(o)], AfterDo(o, key, ended), None, o);
  }

  lemma ConnectNested(ops: seq<Op>, o: Options)
    requires Nested(ops, None, o)
    ensures Nested(ops + [Connect(o)], None, o)
  {
    assert [Connect(o)][1..] == [];
    NestedAppend(ops, [Connect(o)], None, o);
  }

  lemma RoundTripperNested(o: Options, scheme: Scheme, host: string, w: World, wire: Wire)
    ensures Nested(RoundTripper(o, scheme, host, w, wire).0, None, o)
  {
    var mode := AlpnMode(o.alpn);
    if mode.Some? {
      var ops := EchConfigs(o, host, w).0;
      EchConfigsNested(o, host, w);
      ConnectNested(ops, o);
      assert Transport(o, mode.value, scheme, host, w, wire).0 in {[], ops, ops + [Connect(o)]};
    }
  }

  lemma ExchangeNested(o: Options, scheme: Scheme, host: string, w: World, wire: Wire)
    ensures Nested(Exchange(o, scheme, host, w, wire).0, None, o)
  {
    var (ops, key) := RoundTripper(o, scheme, host, w, wire);
    RoundTripperNested(o, scheme, host, w, wire);
    if key.Ok? {
      var ended := Ended(o, scheme, wire);
      var preDialed := PreDialed(o, scheme);
      PerformNested(o, preDialed, key.value, ended);
      NestedAppend(ops, Perform(o, preDialed, key.value, ended), None, o);
    }
  }

  /**
   For every request, whatever its options and however its handshakes end: at most
   one acquisition at a time, and the recursion stops there.
  */
  lemma RequestsNested(o: Options, scheme: Scheme, host: string, server: string, w: World, wire: Wire)
    ensures Nested(FetchWeb(o, scheme, host, w), None, o)
    ensures Nested(DnsExchange(o, server, w, wire).0, None, o)
  {
    ExchangeNested(o, scheme, host, w, w.own);
    var url := w.parse(server);
    if url.Some? {
      ExchangeNested(o, url.value.0, url.value.1, w, wire);
    }
  }

  // ---------------------------------------------------------------------------
  // Which refusals drop the config
  // ---------------------------------------------------------------------------

  predicate DropsNothing(ops: seq<Op>) {
    forall op <- ops :: !op.Drop?
  }

  lemma AcquireDropsNothing(key: string, fetch: (seq<Op>, bool), w: World, o: Options)
    requires OnlyDials(fetch.0, o)
    ensures DropsNothing(Acquire(key, fetch, w).0)
  {
  }

  /** Finding a config drops nothing, and its key, if it has one, belongs to options that ask for ECH. */
  lemma EchConfigsDropNothing(o: Options, host: string, w: World)
    ensures DropsNothing(EchConfigs(o, host, w).0)
    ensures var found := EchConfigs(o, host, w).1;
      found.Ok? && found.value.1 != "" ==> o.EchEnabled()
  {
    if o.EchEnabled() && o.ech.value.configList == "" {
      var lookup := o.ForLookup();
      NoEchOnlyDials(lookup, o.ech.value.doh, w, w.lookup);
      if o.ech.value.probe != "" {
        var spec := ProbeSpec.ParseSpec(o.ech.value.probe, w.splits);
        if spec.Some? {
          AcquireDropsNothing(CacheKeys.CacheKey(CacheKeys.ByProbe(spec.value.0, spec.value.1), o.proxy),
                              EchProbe(lookup, w.lookup), w, lookup);
        }
      } else {
        var domain := if o.ech.value.domain == "" then host else o.ech.value.domain;
        AcquireDropsNothing(CacheKeys.CacheKey(CacheKeys.ByDns(domain, o.ech.value.doh), o.proxy),
                            DnsExchange(lookup, o.ech.value.doh, w, w.lookup), w, lookup);
      }
    }
  }

  /** The exchange offers a config that has a cache entry. */
  predicate OffersCached(o: Options, host: string, w: World, key: string) {
    AlpnMode(o.alpn).Some? && EchConfigs(o, host, w).1.Ok? && EchConfigs(o, host, w).1.value.1 == key && key != ""
  }

  /**
   An exchange drops the config it offered exactly when some handshake refused it
   and that was not the one made before there was a transport.
  */
  lemma ExchangeDrops(o: Options, host: string, w: World, wire: Wire, key: string)
    requires OffersCached(o, host, w, key)
    ensures var preDials := PreDials(o, AlpnMode(o.alpn).value, Https);
      Drop(key) in Exchange(o, Https, host, w, wire).0 <==>
      (wire.first == Refused && !preDials) || (wire.first == Completes && wire.rest == Refused)
  {
    EchConfigsDropNothing(o, host, w);
    SecureExchange(o, host, w, wire);
    assert Drop(key) !in EchConfigs(o, host, w).0 + [Connect(o)];
  }

  /**
   So when the first handshake that offers a cached config is refused, its entry is
   dropped if and only if the request does not take the uTLS path: there the refusal
   comes before the request, and both callers leave without looking at it.
  */
  lemma RefusedConfigDropped(o: Options, host: string, server: string, w: World, key: string)
    requires OffersCached(o, host, w, key) && w.own.first == Refused
    requires w.parse(server) == Some((Https, host))
    ensures Drop(key) in FetchWeb(o, Https, host, w) <==> AlpnMode(o.alpn) == Some(H3) || o.fingerprint == ""
    ensures Drop(key) in DnsExchange(o, server, w, w.own).0 <==> AlpnMode(o.alpn) == Some(H3) || o.fingerprint == ""
  {
    ExchangeDrops(o, host, w, w.own, key);
  }

  /** Options that `validate` accepts and whose refused config stays in the cache. */
  function FirefoxOverDns(): Options {
    Options("", "", "", "", NoisePlan.NoiseOptions("", "", "", ""), "firefox", false,
            Some(EchOptions("", "https://1.1.1.1/dns-query", "", "")))
  }

  lemma FirefoxValid(lib: Library)
    requires lib.fingerprints("firefox")
    ensures Valid(FirefoxOverDns(), lib)
  {
    assert ToLower("firefox") == "firefox";
  }

  /** The request is refused, and everything it did to the cache was to look. */
  lemma StaleConfigSurvives(host: string, w: World)
    requires w.acquired.Ok? && !w.fetches && w.own.first == Refused
    ensures var o := FirefoxOverDns();
      && OffersCached(o, host, w, CacheKeys.CacheKey(CacheKeys.ByDns(host, o.ech.value.doh), ""))
      && FetchWeb(o, Https, host, w) == [Connect(o)]
  {
    var o := FirefoxOverDns();
    assert AlpnMode(o.alpn) == Some(Auto);
    AfterConfigs(o, Auto, host, w, w.own);
  }

  /** A pinned list is used exactly if it decodes and is well formed, and has no cache entry to drop. */
  lemma PinnedListFound(o: Options, host: string, w: World)
    requires o.ech.Some? && o.ech.value.configList != ""
    ensures var (ops, found) := EchConfigs(o, host, w);
      var list := Base64.Decode(o.ech.value.configList, Base64.Encoding(url := false, padded := true));
      && ops == []
      && (found.Ok? <==> list.Some? && IsSerialization(list.value))
      && (found.Ok? ==> found.value == (list.value, ""))
  {
    var list := Base64.Decode(o.ech.value.configList, Base64.STD);
    if list.Some? {
      if EchConfigList.Parse(list.value).Some? {
        EchConfigList.PrintParse(list.value);
      } else if configs :| EchConfigList.Printable(configs) && EchConfigList.Print(configs) == list.value {
        EchConfigList.ParsePrint(configs);
      }
    }
  }

  ghost predicate IsSerialization(list: seq<byte>) {
    exists configs :: EchConfigList.Printable(configs) && EchConfigList.Print(configs) == list
  }

  /** So a request with a pinned list leaves the cache alone, even when the server rejects it. */
  lemma PinnedListBypassesCache(o: Options, host: string, w: World)
    requires o.ech.Some? && o.ech.value.configList != ""
    ensures OnlyDials(FetchWeb(o, Https, host, w), o)
  {
    PinnedTransport(o, host, w);
    var (ops, key) := RoundTripper(o, Https, host, w, w.own);
    assert key.Ok? ==> OnlyDials(Perform(o, PreDialed(o, Https), key.value, Ended(o, Https, w.own)), o);
  }

  lemma PinnedTransport(o: Options, host: string, w: World)
    requires o.ech.Some? && o.ech.value.configList != ""
    ensures var (ops, key) := RoundTripper(o, Https, host, w, w.own);
      OnlyDials(ops, o) && (key.Ok? ==> key.value == "")
  {
    PinnedListFound(o, host, w);
    var mode := AlpnMode(o.alpn);
    if mode.Some? {
      AfterConfigs(o, mode.value, host, w, w.own);
    }
  }

  /** Building a transport adds at most one connection to what finding the config took, and hands its key on. */
  lemma AfterConfigs(o: Options, mode: Alpn, host: string, w: World, wire: Wire)
    ensures var (ops, found) := EchConfigs(o, host, w);
      var (all, key) := Transport(o, mode, Https, host, w, wire);
      && (all == ops || all == ops + [Connect(o)])
      && (key.Ok? ==> found.Ok? && key.value == found.value.1)
      && (found.Ok? ==> (key.Ok? <==> PreDials(o, mode, Https) ==> wire.first == Completes))
      && (found.Ok? && PreDials(o, mode, Https) ==> all == ops + [Connect(o)])
  {
  }
}
