# Verified models of the fetch, probe and lifecycle code

This project models, in Dafny, the parts of the package that carry state, a
protocol or a byte-level format, and proves what they promise:

* **The ECH configuration cache** (`EchCache.dfy`, `EchCacheInvariants.dfy`,
  `EchCacheTheorems.dfy`, `EchAcquire.dfy`, `EchLookup.dfy`). `echAcquire` is a
  system of atomic steps: any number of threads and keys, a clock that never goes
  back, fetches that end in any way, and invalidations at any moment. The theorems
  count fetches and trace every answer back to the fetch it came from, over every
  interleaving. The same function is also written as the code has it, as methods
  of a class, and each run of it is shown to be a run of the step system.
  `EchLookup` follows the recursion from a request through its ECH lookup and back.
* **The WireGuard probe** (`Crypto.dfy`, `NoisePattern.dfy`, `WireGuardHandshake.dfy`,
  `WireGuardSecurity.dfy`, `WireGuardProbe.dfy`). Cryptography is symbolic: a term
  records how it was computed, and a point is the base point times a multiset of
  scalars, so Diffie-Hellman commutes by construction and no property of it is
  assumed. The reference is the pattern IKpsk2 of the Noise Protocol Framework
  (revision 34, sections 5, 7 and 9), run from one pair of token lists by both
  parties; the two functions of the code are proved equal to its initiator. The
  adversary of the security theorems holds every private key but two (the ephemeral
  of the attempt and the static key of the peer), may put any message to the honest
  peer, and may have it start handshakes of its own. On top sit the read loop and the attempt loop.
* **Formats and parsers** (`EchConfigList.dfy`, `ProbeSpec.dfy`, `CacheKeys.dfy`,
  `TidyProbes.dfy`, `NoisePlan.dfy`, `NoisePackets.dfy`, `Base64.dfy`, `Keys.dfy`, `Text.dfy`, `FetchOptions.dfy`):
  exact languages, round trips and what later code may rely on.
* **Lifecycle and rotation** (`Lifecycle.dfy`, `Rotation.dfy`, `Connections.dfy`):
  starting and stopping the core, the throttled ring of server addresses, and the
  two small objects that a request's connections share.

Code that changes state step by step is imperative here too, and each method is
proved against a specification function whose own properties are the lemmas.

`dafny verify dfyconfig.toml` checks everything.

## Where the code and its promises part

Each of these is stated as an exact condition, with the code kept as it is.

* A cached ECH config that the server refuses at the first handshake is dropped
  exactly when the request does not take the uTLS path, that is, in h3 mode or
  without a fingerprint (`EchLookup.RefusedConfigDropped`). With a fingerprint that
  handshake is made before there is a transport, and its error returns past the drop:
  `EchLookup.StaleConfigSurvives` is such a request, with options `validate` accepts.
  `README_fetch.md:345` says a refused config is dropped immediately.
* Two lookups can share an ECH cache key, because its parts may contain the `|` that
  joins them: the specs `x|y@h:443` and `x@y|h:443` do (`TidyProbes.WordsCollide`).
  A DNS lookup has its key to itself exactly when neither the name nor the proxy
  contains a bar and the DoH address contains none or is one (`CacheKeys.DnsKeyExact`);
  a probe exactly when no other two bars of its key cut out a bare name and a target
  that pass for a probe (`CacheKeys.ProbeKeyExact`). Without white space and brackets
  that means: a bar stands only in front of the name, or in the host where the name
  could not be extended to it, or in the proxy behind a colon, an `@` or a bracket
  (`TidyProbes.TidyProbeExact`).
* Writing an accepted probe spec out and reading it again gives the same pair
  exactly when the dial target is one that `net.SplitHostPort` accepts and holds no
  `@` (`ProbeSpec.RenderParse`). It is lost for `a@b@`, whose name has an `@`,
  though `libv2ray_fetch_probe.go:78-79` says none can (`ProbeSpec.NameWithAtLost`), and for a bracketed IPv6 target without a port, which
  gets a second pair of brackets (`ProbeSpec.BracketedTargetLost`).
* Runs of `NextIP` reach every address exactly when there are fewer than 256 of them:
  the comparison is made in a `uint8`, so with 256 addresses the first is used for
  ever (`Rotation.RoundRobin`).
* The timeout of a WireGuard probe is meant for the whole of it
  (`libv2ray_wireguard_probe.go:91`). The attempts alone never wait longer
  (`WireGuardProbe.WaitsWithinTimeout`), but the noise that precedes them is not taken
  off their shares. The probe keeps to its timeout against every endpoint exactly when
  the noise leaves room for all the shares (`WireGuardProbe.TimeoutKeptExactly`), that
  is, when it takes no longer than what is left over when the timeout is divided by the
  number of attempts (`WireGuardProbe.RoomIsRemainder`); otherwise it can overrun, by less than one
  share (`WireGuardProbe.ProbeTime`). `WireGuardProbe.DefaultProbeOverruns` is a probe
  that does.
* With `AsyncResolve`, a resolve channel is closed twice only in runs in which some
  start is made while a resolver of an earlier one is at work, and then always, by the
  time all resolvers have finished (`Lifecycle.AsyncSafeExactly`,
  `Lifecycle.AsyncDoubleClose`). In the same runs, and only there, some start's channel
  is never closed, and who waits for it waits for ever (`Lifecycle.AsyncReleasesAll`,
  `Lifecycle.OverlapStrands`).
* The watcher of a start is there to stop the core if the server's name cannot be
  resolved. It acts exactly as long as no start has resolved it, since the dialer keeps
  an earlier server (`Lifecycle.WatchdogExactly`); `Lifecycle.UnresolvedStartKept` is a
  start that is not resolved, whose watcher wakes, and which keeps running.
  What a watcher stops is the latest start, which is its own exactly when none was made
  in between (`Lifecycle.WatcherStopsOwn`); `Lifecycle.StaleWatcherStops` is a run in
  which it stops a later start whose server is known.
* Connections to the core's server go to the addresses looked up for its name, except
  when the last lookup that found any was for another name
  (`Rotation.ServerOutdatedExactly`), as after a start for a second name that cannot be
  resolved (`Rotation.OutdatedExists`): the name is replaced, the server is not.
* `README_fetch.md:331` says the ECH lookup honours `ip`; `libv2ray_fetch.go:585-587`
  drops it, as `README_fetch.md:410-412` says. The model follows the code.

## Model

| member | source | states |
|---|---|---|
| EchCacheInvariants.InvKept | libv2ray_fetch.go:495-554 | every step of every thread keeps: one mutex per key, held by the thread that says so; the cache holds exactly what was stored and not replaced or invalidated since; a thread that decided to fetch faces no live entry; the fetch accounts balance; every answer on its way has a recorded origin |
| EchCacheInvariants.ReachableInv | libv2ray_fetch.go:495-554 | so all of it holds after any interleaving from the empty cache |
| EchCacheTheorems.FetchesBounded | libv2ray_fetch.go:521-554 | in every interleaving the fetches started for a key number at most one plus its context-class failures, its stored entries that have expired, and its invalidations |
| EchCacheTheorems.NoFetchWhileLive | libv2ray_fetch.go:533-539 | no fetch of a key is under way while a live entry of it is cached |
| EchCacheTheorems.OneFetchServesAll | libv2ray_fetch.go:521-539 | without expiry, invalidation or a context-class failure, at most one fetch is ever started for a key and all its callers get the same answer |
| EchCacheTheorems.CachedAnswerProvenance | libv2ray_fetch.go:495-505 | an answer served from the cache is the outcome of a completed fetch of the same key, not a context-class error, stored with nothing of that key stored or invalidated between the store and the load, and read strictly less than its TTL later (the TTL, 600 s for a zero TTL, 30 s for an error) |
| EchCacheTheorems.AnswerFromFetch | libv2ray_fetch.go:523-554 | every answer, cached or not, is the outcome of a completed fetch of the caller's key |
| EchCacheTheorems.StoredIsNoContextError | libv2ray_fetch.go:540-546 | in every interleaving a stored outcome is a config or an error that is not of context class |
| EchCacheTheorems.OutcomesAccounted | libv2ray_fetch.go:538-553 | per key, the fetches that ended are the stores, the context-class failures and at most one outcome still to be stored |
| EchCacheTheorems.LifetimeExact | libv2ray_fetch.go:549-552 | no 32-bit TTL overflows the 64-bit nanosecond count of a Duration |
| EchCacheTheorems.OneAcquisitionPerKey | libv2ray_fetch.go:528-531 | two threads have the same mutex exactly when they have the same key, and at most one thread is past the mutex of a key |
| EchCacheTheorems.NoCircularWait | libv2ray_fetch.go:528-531 | a thread that is waited for waits for nobody and can move, so no cycle of waits is reachable |
| EchCacheTheorems.NoDeadlock | libv2ray_fetch.go:523-554 | whenever a call is unfinished, its thread can move or waits for one that can |
| EchCache.ExpiredGrows | libv2ray_fetch.go:501 | letting time pass never revives an entry, and an entry that runs out is counted as expired |
| EchAcquire.SharedCache.EchCacheLoad | libv2ray_fetch.go:495-505 | finds an answer exactly when the key has an entry that expires after now |
| EchAcquire.SharedCache.EchInvalidate | libv2ray_fetch.go:515-519 | is the invalidation step: drops the key's entry, and does nothing for the empty key |
| EchAcquire.SharedCache.FetchUnderLock | libv2ray_fetch.go:538-553 | answers with the config or the error; leaves the cache alone for a context-class error and otherwise enters the answer under the key, for 30 s, the TTL, or 600 s for a zero TTL, from the end of the fetch on; and is a run of the step system |
| EchAcquire.SharedCache.EchAcquire | libv2ray_fetch.go:523-554 | run undisturbed, it answers from the live entry, changing nothing, even while the mutex of the key is held, and otherwise with what the fetch came to, which the cache keeps unless it is a context-class error; the mutex is free again; and it is a run of the step system |
| EchAcquire.LeadsReachable | libv2ray_fetch.go:523-554 | so every theorem about reachable states holds before and after each such call |
| EchLookup.RequestsNested | libv2ray_fetch.go:563-631 | in the trace of any request or DNS exchange, however its handshakes end, no acquisition starts inside another, nothing is invalidated inside one, and connections inside one use the request's proxy and fragmentation but not its pinned address |
| CacheKeys.KeyText | libv2ray_fetch.go:599-608 | the keys written out: probe, name, target and proxy, or doh, domain, address and proxy, with bars between |
| EchLookup.ProbeLookup | libv2ray_fetch.go:593-602 | a probe spec comes before a DoH address; a found config has that key; a cold lookup enters under it, makes one connection without the pinned address and leaves, and succeeds exactly when the server refuses that handshake |
| EchLookup.DnsLookup | libv2ray_fetch.go:603-623 | without a probe spec the name asked for is the one the options give, or else the host of the request, and stands in the key with the DoH address and the proxy; a cold lookup makes one connection, unless the address cannot be asked, and succeeds only when it is answered |
| EchLookup.NothingToFind | libv2ray_fetch.go:564-566 | without ECH options, or with empty ones, there is no config, no key and no connection |
| EchLookup.SecureExchange | libv2ray_fetch.go:759-882 | the whole trace of a request over https: what finding the config takes, one connection whichever path is taken, and a drop of the config exactly when a refusal comes back as the error of the client |
| EchLookup.ClearExchange | libv2ray_fetch.go:772-786 | over http a request connects and never touches the cache, in the automatic and h1 modes; the others are refused, and so are other schemes |
| EchLookup.PlainExchange | libv2ray_fetch.go:1208-1250 | a DNS exchange without ECH makes one connection and is answered if no handshake goes wrong; the addresses and modes that keep it from connecting |
| EchLookup.ExchangeDrops | libv2ray_fetch.go:861-866 | an exchange drops the config it offered if and only if a handshake refused it that was not the pre-dial of the uTLS path |
| EchLookup.RefusedConfigDropped | libv2ray_fetch.go:1029-1057 | so a refusal at the first handshake drops the cached config if and only if the mode is h3 or there is no fingerprint, for requests and DNS exchanges alike |
| EchLookup.StaleConfigSurvives | libv2ray_fetch.go:863-866 | a request with a fingerprint whose offered config is refused and stays cached: connecting is all it does |
| EchLookup.FirefoxValid | libv2ray_fetch.go:254-337 | the options of that request pass `validate` |
| EchLookup.NoEchOnlyDials | libv2ray_fetch.go:1208-1250 | a DNS exchange under options without ECH never comes back to the cache |
| EchLookup.EchConfigsNested | libv2ray_fetch.go:563-631 | acquiring a config, by probe or by DoH, whether the lookup's exchange succeeds or not, enters the cache at most once and leaves it again |
| EchLookup.PinnedListFound | libv2ray_fetch.go:567-578 | a pinned list is used if and only if it decodes as padded standard base64 to a serialization of a non-empty ECHConfigList; it is then that list, without a cache key |
| EchLookup.PinnedListBypassesCache | libv2ray_fetch.go:1054-1057 | so a request with a pinned list does nothing but connect, even when the server rejects the list |
| NoisePattern.TokensMirrored | libv2ray_wireguard_probe.go:339-376 | token by token, what one party of the pattern writes the other reads, ending in the same symmetric state and knowing the keys sent |
| NoisePattern.MessageMirrored | libv2ray_wireguard_probe.go:339-385 | a whole message, payload included, arrives as it was written |
| Crypto.DiffieHellman | libv2ray_wireguard_probe.go:474-482 | both sides of an exchange come to the same secret, and a low-order point is refused |
| WireGuardHandshake.InitiatorWritesUnrolled | libv2ray_wireguard_probe.go:339-385 | the first message of the pattern comes to exactly this chain of hashes, key derivations and seals, and fails exactly when a shared secret is refused |
| WireGuardHandshake.InitiationSpelledOut | libv2ray_wireguard_probe.go:318-385 | down to the primitives: every hash, key derivation and seal of the first message |
| WireGuardHandshake.Mac1Binds | libv2ray_wireguard_probe.go:396-399 | two initiations with the same mac1 agree in the peer addressed, kind, sender, ephemeral, identity and timestamp |
| WireGuardHandshake.CreateInitiation | libv2ray_wireguard_probe.go:318-405 | leaves the hash, chain key and message fields of the reference initiator, type 1, our index, a mac1 keyed by the hash of `mac1----` and the public key of the peer over the message with bytes 1 to 3 zero, and the reserved bytes put in afterwards; errs exactly when a shared secret is refused |
| WireGuardHandshake.ConsumeResponse | libv2ray_wireguard_probe.go:411-463 | accepts exactly the responses with our index that the reference initiator reads; the verdict does not depend on bytes 1 to 3 |
| WireGuardHandshake.ResponseSpelledOut | libv2ray_wireguard_probe.go:431-459 | down to the primitives: the one key and associated data under which the empty payload must have been sealed |
| WireGuardHandshake.PeerChecks | libv2ray_wireguard_probe.go:396-399 | the honest peer reads nothing that is not of type 1 with a mac1 keyed by its own public key |
| WireGuardHandshake.HonestHandshakeCompletes | libv2ray_wireguard_probe.go:318-463 | for all keys, psk, timestamp, index and reserved bytes of either message, the honest peer accepts mac1, recovers our static key and the timestamp, and its response is accepted |
| WireGuardSecurity.DerivableHarmless | libv2ray_wireguard_probe.go:344-385 | no term the adversary can compute exposes a secret scalar or a point with two secret factors, whatever it asks the peer |
| WireGuardSecurity.Agreement | libv2ray_wireguard_probe.go:426-462 | if derivable terms make the initiator accept, the peer answered a query with exactly this initiation's ephemeral, encrypted static, encrypted timestamp and psk, and the accepted ephemeral is the one of that answer |
| WireGuardSecurity.OnlyPeerCanAnswer | libv2ray_wireguard_probe.go:408-410 | without a query answered by the peer no derivable response is accepted, even by an adversary that knows the initiator's static key and the psk and has the peer start handshakes |
| WireGuardSecurity.PeerKnowsInitiator | libv2ray_wireguard_probe.go:349-374 | the peer that answered an agreed query read our static key and our timestamp in it |
| WireGuardSecurity.RelayConvinces | libv2ray_wireguard_probe.go:426-462 | the theorem is not empty: passing the initiation to the peer and its answer back does make the initiator accept |
| WireGuardProbe.ProbeWireGuardOnce | libv2ray_wireguard_probe.go:245-304 | one attempt changes the record as the reference that listens to the arrivals does, and reports the same error |
| WireGuardProbe.NothingSent | libv2ray_wireguard_probe.go:245-262 | when a shared secret is refused or the initiation cannot be sent, nothing is recorded and that is the error |
| WireGuardProbe.ReadUntilDeadline | libv2ray_wireguard_probe.go:263-304 | the read loop: foreign datagrams skipped, each other one recorded, the first authentic response ends it |
| WireGuardProbe.RecordExactly | libv2ray_wireguard_probe.go:285-295 | Responded, ReplySize and ReplyType describe the datagrams from the target that were read, whatever their size and type: whether there was one, the size of the last, and the first byte of the last that has one |
| WireGuardProbe.ProbeRecordExactly | libv2ray_wireguard_probe.go:222-236 | the same over all the attempts made |
| WireGuardProbe.ErrorExactly | libv2ray_wireguard_probe.go:267-279 | an attempt without a winner reports the first read error before a timeout, and a timeout is none |
| WireGuardProbe.LastErrorExactly | libv2ray_wireguard_probe.go:222-240 | the error of the probe is that of the last attempt that came to one |
| WireGuardProbe.ProbeWireGuard | libv2ray_wireguard_probe.go:205-240 | Alive holds exactly when RespError is empty, and RespError is otherwise the message of the last error or `no handshake response`; attempts run in order until one succeeds or the time of the context is up; none is made when the noise is stopped; the time taken is that of the noise and of the attempts made |
| WireGuardProbe.AliveHasWinner | libv2ray_wireguard_probe.go:280-302 | Alive implies that a datagram from the target, of the response size and type, with our index, opened; the record is then Responded, type 2 and 92 bytes |
| WireGuardProbe.WinnerSetsAlive | libv2ray_wireguard_probe.go:280-302 | conversely such a datagram, if it arrives before the read ends, sets Alive |
| WireGuardProbe.OtherIndexNeverWins | libv2ray_wireguard_probe.go:426-429 | responses to other indices never set Alive |
| WireGuardProbe.StrangersIgnored | libv2ray_wireguard_probe.go:280-284 | deleting the datagrams of other sources from one attempt changes neither the verdict nor any reply field nor the error |
| WireGuardProbe.ProbeIgnoresStrangers | libv2ray_wireguard_probe.go:222-236 | nor, deleted from all attempts, the verdict, the reply fields and the number of attempts of the whole probe |
| WireGuardProbe.SuccessHasWinner | libv2ray_wireguard_probe.go:222-236 | a success comes from a winning datagram in the last attempt made, and the record describes it |
| WireGuardProbe.WinnerMakesSuccess | libv2ray_wireguard_probe.go:222-236 | a winning datagram in any attempt that is reached makes the probe succeed |
| WireGuardProbe.AliveMeansPeerAnswered | libv2ray_wireguard_probe.go:241-304 | if the adversary made everything that arrived and the attempt still succeeded, the peer answered this very initiation |
| WireGuardProbe.WaitsWithinTimeout | libv2ray_wireguard_probe.go:205-224 | the waits of the attempts a probe makes sum to at most its timeout, for every timeout and number of attempts |
| WireGuardProbe.OverrunBelowShare | libv2ray_wireguard_probe.go:222-236 | every attempt but the first starts within the context's time, so the attempts overrun it by less than one share |
| WireGuardProbe.ProbeTime | libv2ray_wireguard_probe.go:205-236 | the whole probe, noise included, takes at most the timeout, or the noise if that is longer, and one share more |
| WireGuardProbe.TimeoutKeptExactly | libv2ray_wireguard_probe.go:205-236 | the probe ends within its timeout whatever the endpoint does if and only if the noise leaves room for all the shares |
| WireGuardProbe.RoomIsRemainder | libv2ray_wireguard_probe.go:221 | with shares of two nanoseconds or more that is to say, if and only if the noise takes at most the remainder of the timeout by the number of attempts |
| WireGuardProbe.TimeoutMeans | libv2ray_wireguard_probe.go:104-118 | a timeout in milliseconds, 8000 of them by default, is that many million nanoseconds, shared by 2 attempts by default |
| WireGuardProbe.NeededIsNecessary | libv2ray_wireguard_probe.go:221-236 | with less time left there is an endpoint against which the attempts overrun it |
| WireGuardProbe.SilentProbeOverruns | libv2ray_wireguard_probe.go:205-236 | the special case of an endpoint that lets every attempt use its whole share: there a whole number of shares will do as well |
| WireGuardProbe.DefaultProbeOverruns | libv2ray_wireguard_probe.go:213-221 | with the default timeout and attempts, the 25 ms of the default burst make a silent probe overrun |
| EchConfigList.ParsePrint | libv2ray_fetch_probe.go:144-160 | parsing a serialized list gives the list back |
| EchConfigList.PrintParse | libv2ray_fetch_probe.go:144-160 | serializing a parsed list gives the bytes back |
| EchConfigList.ParseIsTheLanguage | libv2ray_fetch_probe.go:144-160 | what parses is exactly the serializations of non-empty lists of versioned, length-prefixed configs under a 16-bit length, and each has one decomposition |
| EchConfigList.LooksLikeECHConfigList | libv2ray_fetch_probe.go:144-160 | accepts exactly that language |
| EchConfigList.Framed | libv2ray_fetch_probe.go:144-160 | what is accepted holds at least one config and has the length that its first two bytes say |
| EchConfigList.BogusECHConfigList | libv2ray_fetch_probe.go:109-139 | succeeds exactly for names of 1 to 255 bytes, with the 53 + name bytes written out in the contract; they read as one config of version 0xfe0d, which a field-by-field decoder maps back to the id, the key, the cipher suite and the name |
| EchConfigList.BogusDecodes | libv2ray_fetch_probe.go:122-138 | the config body, decoded field by field, leaves nothing over and gives those values |
| EchConfigList.BogusBytes | libv2ray_fetch_probe.go:122-138 | the bogus list byte by byte, every length and number of it in network order |
| ProbeSpec.ParseECHProbe | libv2ray_fetch_probe.go:69-103 | the step-by-step rewriting computes the specification: scheme dropped, split at the last `@`, bare domain of 1 to 255 bytes, port completed |
| ProbeSpec.Spellings | libv2ray_fetch_probe.go:58-68 | for every bare domain and target, the documented spellings `probe://name`, `probe://name@target` and `name@target` give that name and that target, the default port added where there is none |
| ProbeSpec.SchemeAlone | libv2ray_fetch_probe.go:60-73 | `probe` and `probe://` by themselves, in any case, give cloudflare-ech.com at port 443 |
| ProbeSpec.SchemeInAnyCase | libv2ray_fetch_probe.go:74-76 | the scheme may be written in any case, and white space before and behind it is dropped |
| ProbeSpec.NameAlone | libv2ray_fetch_probe.go:88-98 | a bare domain by itself is dialed at port 443 |
| ProbeSpec.CheckAndComplete | libv2ray_fetch_probe.go:88-102 | a name is refused exactly when it holds a colon, a slash or a blank or is not 1 to 255 bytes long; the target is the given one, or completed with port 443 where it has none |
| ProbeSpec.RenderParse | libv2ray_fetch_probe.go:69-103 | rendering an accepted pair and parsing it gives the same pair if and only if SplitHostPort accepts the target and it holds no `@` |
| ProbeSpec.AcceptedExactly | libv2ray_fetch_probe.go:69-103 | a pair is what some spec is read as if and only if the name is trimmed and bare and the target is the name with the default port, one that SplitHostPort accepts, or one completed because it does not |
| ProbeSpec.NameWithAtLost | libv2ray_fetch_probe.go:81-86 | a name with an `@`, read from a spec ending in `@`, does not survive being written out, whatever SplitHostPort accepts |
| ProbeSpec.BracketedTargetLost | libv2ray_fetch_probe.go:96-101 | a bracketed IPv6 target without a port becomes one that SplitHostPort refuses, and does not survive either |
| CacheKeys.CacheKeysDistinguish | libv2ray_fetch.go:599 | two bar-free lookups with the same cache key have the same method, name, target and proxy |
| CacheKeys.CacheKeyExact | libv2ray_fetch.go:593-608 | among all the lookups the code can make, which have their key to themselves: both of the next two |
| CacheKeys.DnsKeyExact | libv2ray_fetch.go:608 | a DNS lookup does if and only if domain and proxy are bar-free and the DoH address is bar-free or a single bar |
| CacheKeys.ProbeKeyExact | libv2ray_fetch.go:599 | a probe does if and only if no other two bars of the key cut out a name and a target that the parser gives |
| CacheKeys.PossibleExactly | libv2ray_fetch.go:594-598 | the lookups quantified over are those some accepted spec gives, or a DNS lookup with some DoH address |
| CacheKeys.LeadingBarHarmless | libv2ray_fetch.go:599 | a bar in front of the probe name, if it is the only one, does no harm |
| CacheKeys.ProxyBarsHarmless | libv2ray_fetch.go:599 | nor do bars in a proxy that come after a colon, as after its scheme |
| TidyProbes.TidyProbeExact | libv2ray_fetch.go:599 | a probe whose parts have no white space and whose name, host and port have no brackets, `@` or further colons has its key to itself if and only if its bars are in front of the name, in the host past what could belong to the name, or in the proxy behind a colon, an `@` or a bracket |
| TidyProbes.WordsCollide | libv2ray_fetch.go:599 | for any words the specs "x, bar, y, at h:443" and "x, at y, bar, h:443" are accepted, differ, and share a key |
| FetchOptions.Validate | libv2ray_fetch.go:254-337 | the checks in their order pass exactly the options with which every later parse succeeds and which the path the ALPN mode selects can carry |
| FetchOptions.ValidateQuic | libv2ray_fetch.go:288-310 | h3: a QUIC version to dial, and no fragment, proxy or fingerprint |
| FetchOptions.ValidateTcp | libv2ray_fetch.go:277-337 | otherwise: no noise plan, the whole ladder of QUIC versions, and a fingerprint that is known and fit for ECH if that is on; the checks look at the texts, the contract at what they parse to |
| FetchOptions.LookupOptionsValid | libv2ray_fetch.go:585-587 | they still pass after the rewrite for the ECH lookup, which drops the ECH options and the pinned address and keeps all the others |
| FetchOptions.ValidExactly | libv2ray_fetch.go:254-337 | conversely, options are valid if and only if the lookup's are and the dropped parts (address, probe spec, fingerprint under ECH) are acceptable |
| FetchOptions.ValidSpelledOut | libv2ray_fetch.go:254-337 | option by option, with every text compared written out |
| FetchOptions.AlpnSpellings | libv2ray_fetch.go:215-228 | the spellings of each ALPN mode, after trimming and lowering, and no others |
| FetchOptions.QuicSpellings | libv2ray_fetch_h3.go:144-155 | the spellings of each ladder of QUIC versions, and no others |
| FetchOptions.AutomaticLadder | libv2ray_fetch_h3.go:144-155 | only the empty spelling and "auto" select the whole ladder of QUIC versions |
| NoisePlan.ParseNoiseRange | libv2ray_fetch_noise.go:99-130 | the loop, the swap and the clamps compute the specified range, and it errs on the same inputs |
| NoisePlan.RangeOrdered | libv2ray_fetch_noise.go:116-129 | any accepted range has 0 <= from <= to <= limit |
| NoisePlan.RangeOfPrinted | libv2ray_fetch_noise.go:99-130 | a printed "a-b" reads as the pair sorted and clamped, a printed "a" as (a, a) |
| NoisePlan.RangeRefused | libv2ray_fetch_noise.go:99-115 | blank text is the default; a third part, a part that is no number and a negative one are refused |
| NoisePlan.NoiseConfig | libv2ray_fetch_noise.go:135-175 | gives the plan of the options, each range read with its own default and ceiling (5 and 50, 5 and 100, 5 to 10 and 100), with every bound within its ceiling and a custom header of 1 to 50 bytes |
| NoisePlan.HexHeaderPlanned | libv2ray_fetch_noise.go:155-175 | the hex text of any header of 1 to 50 bytes asks for exactly that header; it is never a preset |
| NoisePlan.ModeNames | libv2ray_fetch_noise.go:147-175 | the preset of each name, and hex text of 1 to 50 bytes for all other names |
| NoisePlan.HexDigits | libv2ray_fetch_noise.go:161 | hex text has two digits a byte, the high one first |
| NoisePlan.HexRoundTrip | libv2ray_fetch_noise.go:161 | decoding hex text gives the bytes it was made from |
| NoisePackets.QuicNoiseHeader | libv2ray_fetch_noise.go:183-203 | 18 bytes: one of eight first bytes, the version, an 8-byte id, and a Length of 1232 |
| NoisePackets.PseudoHeaderIsNoPacket | libv2ray_fetch_noise.go:177-203 | with the largest payload allowed it still is no packet: the decoder finds fewer than the 1232 bytes that Length promises |
| NoisePackets.QuicInitPacket | libv2ray_fetch_noise.go:221-233 | 1200 bytes that decode as a long header of version 0x6b3343cf with two 8-byte ids, no token and a Length of 1024 that fits |
| NoisePackets.PatchedLooksLikeInitial | libv2ray_fetch_noise.go:226-232 | any 1200 bytes with those fields patched in decode so |
| NoisePackets.NextPacket | libv2ray_fetch_noise.go:259-280 | a datagram of the plan: its header and payload within the size range, 1200 bytes for quicinit and at most 150 otherwise; an error exactly when random bytes are needed and cannot be read |
| NoisePackets.PacketSize | libv2ray_fetch_noise.go:259-280 | the header is 18 bytes or the given one, in front; the payload keeps to the size range; quicinit is 1200 bytes |
| NoisePackets.Send | libv2ray_fetch_noise.go:287-312 | sends at most 50 datagrams of the plan, each pause within the delay range and all together at most 5000 ms; stops at the first datagram for which random bytes cannot be read, at the first failed write or at a pause in which the context ends, and otherwise sends the full count |
| NoisePackets.BurstIsShort | libv2ray_fetch_noise.go:56-61 | the pauses of a burst sum to at most 100 ms a datagram |
| NoisePackets.BurstSpelledOut | libv2ray_fetch_noise.go:287-312 | datagram by datagram: each was written, its pause is within the delay range, and none follows a pause in which the context ended |
| Base64.SplitIsPositional | libv2ray_wireguard_probe.go:565-575 | the reference encoder is RFC 4648's: a full group is the same number in base 256 and in base 64 |
| Base64.Alphabet | libv2ray_wireguard_probe.go:565-575 | the alphabets of RFC 4648, which differ in the last two characters |
| Base64.SymbolOfValue | libv2ray_wireguard_probe.go:565-575 | no other character has a value |
| Base64.GroupsRoundTrip | libv2ray_wireguard_probe.go:565-575 | each of the four decoders inverts its own encoder |
| Base64.DecodesExactly | libv2ray_wireguard_probe.go:565-575 | a decoder accepts exactly the texts of its alphabet that do not end one character past a full group and carry exactly the padding they need |
| Base64.LastGroup | libv2ray_wireguard_probe.go:565-575 | a last group of one or two bytes is that of its bytes and zeros after them, cut short and padded |
| Base64.JoinIsPositional | libv2ray_wireguard_probe.go:565-575 | the decoded bytes are the same number as the characters, but for bits left over |
| Base64.LineEndsSkipped | libv2ray_wireguard_probe.go:565-575 | a line end anywhere makes no difference |
| Base64.DecodersAgree | libv2ray_wireguard_probe.go:565-575 | two decoders that accept the same text read the same bytes |
| Base64.DecodeAnyRoundTrip | libv2ray_wireguard_probe.go:565-575 | so trying all four in order recovers the bytes whichever encoder wrote the text |
| Base64.DecodeAnyExact | libv2ray_wireguard_probe.go:565-575 | and gives some bytes exactly when one of the four does |
| Base64.DecodeBase64Any | libv2ray_wireguard_probe.go:565-575 | the loop succeeds exactly when one of the four encodings can read the text, with what it reads, the first success in the source's order |
| Keys.ParseNoiseKey | libv2ray_wireguard_probe.go:515-530 | returns what the trimmed text stands for in base64 if it is 32 bytes, and otherwise errs, as it does for empty text |
| Keys.KeyRoundTrip | libv2ray_wireguard_probe.go:515-530 | every 32-byte key comes back from each of its four spellings |
| Keys.ParseReserved | libv2ray_wireguard_probe.go:534-563 | fills the array with the three bytes the text stands for, zeros for the empty text |
| Keys.ReservedRoundTrip | libv2ray_wireguard_probe.go:534-563 | every three bytes come back from "a,b,c" and from each base64 spelling |
| Keys.ReservedTriple | libv2ray_wireguard_probe.go:539-552 | text with commas stands for its three parts if each is a number within a byte, and else for nothing |
| Keys.ReservedDefault | libv2ray_wireguard_probe.go:536-547 | blank text stands for zeros, and two parts are refused |
| Keys.ClampPrivateKey | libv2ray_wireguard_probe.go:501-504 | the scalar becomes a multiple of 8 in [2^254, 2^255), the bytes between unchanged |
| Connections.HandoffDialer.GetConn | libv2ray_fetch.go:731-740 | takes the pending connection if there is one, else dials |
| Connections.HandoffDialer.DiscardConn | libv2ray_fetch.go:742-749 | closes the pending connection if there is one, and forgets it |
| Connections.ProbeConserved | libv2ray_fetch.go:722-749 | in every interleaving the pre-dialed connection is pending, handed out once or closed once, never two of these; the first operation decides, and nothing else is ever closed |
| Connections.ConnState.Record | libv2ray_fetch.go:685-694 | refuses a second protocol, leaving the state alone, and otherwise records protocol and ECH result |
| Connections.RecordsAgree | libv2ray_fetch.go:685-694 | a call succeeds exactly when it names the protocol of the first call, so all successes agree |
| Connections.LastEchKept | libv2ray_fetch.go:685-694 | the ECH result kept is that of the last call that succeeded |
| Lifecycle.V2RayPoint.RunLoop | libv2ray_main.go:72-109 | does nothing when running; otherwise makes new channels, closes the resolve channel at once unless resolution is asynchronous, and runs and reports Running exactly when the instance starts; is the start step, and no channel is closed twice |
| Lifecycle.V2RayPoint.StopLoop | libv2ray_main.go:113-122 | is the stop step: closes the open close channel, drops the instance, reports Closed; nothing when not running |
| Lifecycle.V2RayPoint.PointLoop | libv2ray_main.go:268-297 | the core runs, and Running is reported, exactly when the instance starts; what each failing outcome leaves of the instance; an error exactly when it does not start |
| Lifecycle.LifecycleSafe | libv2ray_main.go:72-122 | for every interleaving of starts, stops, resolvers and watchers, the statuses alternate Running, Closed from Running on; while the lock is free a running core has an instance and an open close channel; no close channel is closed twice |
| Lifecycle.RunningCounted | libv2ray_main.go:288-296 | over every run, Running is reported exactly once for each start, made while nothing ran, whose instance started |
| Lifecycle.StartLeaves | libv2ray_main.go:268-297 | what each outcome of a start leaves of the instance, the running flag and the statuses |
| Lifecycle.SyncResolvesOnce | libv2ray_main.go:96-104 | with synchronous resolution each start's resolve channel is closed exactly once, nothing panics, and every watcher's channel is closed |
| Lifecycle.AsyncSafeExactly | libv2ray_main.go:96-100 | in every run with asynchronous resolution a double close needs a start made while an earlier resolver is at work; and in every run at whose end no resolver is left, there is one if and only if such a start was made |
| Lifecycle.AsyncDoubleClose | libv2ray_main.go:96-100 | and such a run exists |
| Lifecycle.AsyncReleasesAll | libv2ray_main.go:96-100 | in every run at whose end no resolver is left, the resolve channels of all starts have been closed if and only if no start was made while an earlier resolver was at work |
| Lifecycle.OverlapStrands | libv2ray_main.go:80-100 | if one was, there is a start whose channel no continuation closes |
| Lifecycle.WatcherStopsOwn | libv2ray_main.go:80-94 | from a start on, when its watcher stops the core it closes the channel of its own start if and only if no start came in between, and else of the latest |
| Lifecycle.WatcherArmsOwn | libv2ray_main.go:80-94 | and when it first runs it waits on the channels of its own start if and only if no start came in between, and else on those of the latest |
| Lifecycle.WatchdogExactly | libv2ray_main.go:82-89 | in every run a watcher that wakes decides to stop the core if and only if no start has found a server yet |
| Lifecycle.UnresolvedStartKept | libv2ray_main.go:82-89 | a run in which a start's own resolution fails, its watcher wakes, and the core keeps running |
| Lifecycle.NoNewStops | libv2ray_main.go:82-89 | once one has, only watchers that had decided before can still stop it |
| Lifecycle.StaleWatcherStops | libv2ray_main.go:80-94 | a run in which such a watcher stops a later start whose server is known |
| Rotation.OrderAddresses | libv2ray_support.go:139-168 | the result is a stable partition of the lookup by family, preferred family first; an empty lookup is an error |
| Rotation.Partitioned | libv2ray_support.go:150-168 | one family after the other, each in its old order, keeps every address with its multiplicity |
| Rotation.StablePartitionUnique | libv2ray_support.go:150-168 | and there is only one such order |
| Rotation.Is4Exactly | libv2ray_support.go:150-168 | the IPv4 family is the 4-byte addresses and the 16-byte ones behind ten zeros and two bytes of 255 |
| Rotation.Resolved.NextIP | libv2ray_support.go:38-62 | with one address, or within 5 s of the last accepted switch, nothing changes; otherwise the time is stamped and the index advances in uint8 arithmetic, to 0 where it reaches the length in a uint8; the index stays in range |
| Rotation.Resolved.CurrentIP | libv2ray_support.go:64-81 | the address at the index, nil for an empty list |
| Rotation.IndexAfterRun | libv2ray_support.go:38-62 | after k accepted switches the index is k mod (len mod 256), or 0 when that modulus is 0, and always in range |
| Rotation.AcceptedApart | libv2ray_support.go:42-50 | accepted switches are at least 5 s apart |
| Rotation.RoundRobin | libv2ray_support.go:42-59 | every address is reached by some run of calls if and only if there are fewer than 256 |
| Rotation.SpacedAccepted | libv2ray_support.go:44-50 | calls 5 s apart are all accepted |
| Rotation.ProtectedDialer.PrepareDomain | libv2ray_support.go:181-211 | the name is replaced; at most 10 lookups; the first success is kept if no earlier pause was cut short, and otherwise the server of an earlier call stays |
| Rotation.ProtectedDialer.Choose | libv2ray_support.go:231-262 | connections to the current name use whatever server is kept, wait when there is none, and all others are looked up |
| Rotation.ServerOutdatedExactly | libv2ray_support.go:181-211 | after any calls the kept server is of another name than the current one if and only if the last call that found any was for another name |
| Rotation.OutdatedExists | libv2ray_support.go:181-211 | two calls after which it is |

## Left out

* Sockets, `Protect`, real TLS, QUIC and HTTP exchanges, gzip and JSON: they appear only as outcomes that may be anything.
* The numeric bodies of X25519, BLAKE2s, ChaCha20-Poly1305 and the key derivations, and the sizes of packet fields: terms instead. So is the clamping of a key inside the handshake; `Keys.ClampPrivateKey` states it on bytes.
* `net.SplitHostPort`, `net.ParseIP`, `url.Parse` and the fingerprint table: parameters about which nothing is assumed, except that the examples of what goes wrong use the rules of `net.SplitHostPort` (`ProbeSpec.SplitsHostPort`). `quicdial.H3` is taken to be v2 and then v1, as `README_fetch.md:502` says.
* Randomness and the clock: any value of the right kind; failures to read randomness are modelled for the noise packets and not for the handshake or the bogus list, where they only add an error return.
- EchAcquire.SharedCache.EchAcquire: the class is run by one thread that nobody interrupts, with `elapsed` as the fetch's duration; other threads in between are the step system's matter, whose steps are on values.
- EchLookup.SecureExchange: of the skeleton below, so its one connection stands for all that the HTTP client makes.
- EchLookup.RequestsNested: a skeleton of calls that records one connection per request where the HTTP client may make several (redirects, the ladder of QUIC versions), lumps what happens after the first handshake into one outcome, and leaves out the errors of `fragmentConfig`, which end a request before it touches anything.
- WireGuardHandshake.ConsumeResponse: the error results for a short packet or a bad key length cannot occur for a 92-byte packet and a 32-byte key, so the model has none.
- WireGuardProbe.ProbeTime: building and sending take no time, and a deadline ends a read at once.
- WireGuardSecurity.Agreement: symbolic, so it says nothing about guessing, timing or the probability of collisions.
- NoisePackets.QuicInitPacket: decodes by the version-1 layout; RFC 9369 gives the type bits of a version-2 packet another meaning, and the code chooses the version-1 one.
- Lifecycle.LifecycleSafe: the body of a call under the lock is one step, so it says nothing of a goroutine that reads the fields without the lock in the middle of a start; callbacks do not call back into `RunLoop` or `StopLoop`; `AsyncResolve` does not change between calls; a watcher reads both channels in one step.
- Lifecycle.V2RayPoint.PointLoop: an instance whose start fails is kept and never closed, as in the code; what the instance does is not modelled.
- Rotation.ProtectedDialer.PrepareDomain: the lookup's own timeout, the port and the resolution time are left out, and so are the sockets of `Dial` and its switch to the next address after a failure; the address order of a lookup is `Rotation.OrderAddresses`.
- FetchOptions.Validate: headers, method, timeout and TLS names are not options that `validate` reads, and are left out; error values carry a reason, not the full message.
* `strings.ToLower` is modelled as far as its results are ASCII, which is all that is compared with.
* Platforms whose `int` has 32 bits.
* `GetDataFromWeb`, `MeasureDelay`, `QueryStats`, `InitV2Env`, `ResolveDoH` and logging: thin wrappers.
* `libv2ray_fetch_cert.go`, `h3RoundTripper`, `echProbe`'s handshake and `extractECH`: library driving; their outcomes are the fetch outcomes of the cache.
* Header profiles, `summarizeAnswers`, `alpnOffer`, `negotiatedName`: they would add easy members only.
* What filters do with noise packets: measured behaviour, not decided by the code.
