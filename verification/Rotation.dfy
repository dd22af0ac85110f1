/** The resolved server: its ordered addresses, the throttled ring over them, and the retries. */
module Rotation {
  import opened Basics

  type Instant = int

  const THROTTLE := 5_000_000_000
  const MAX_RETRY := 10

  // ---------------------------------------------------------------------------
  // Ordering the addresses
  // ---------------------------------------------------------------------------

  /** net.IP: 4 or 16 bytes. */
  datatype IP = IP(address: seq<byte>)
  {
    /** `To4() != nil`: also true of an IPv4 address in its 16-byte form. */
    predicate Is4() {
      || |address| == 4
      || (|address| == 16 && address[..12] == [0, 0, 0, 0, 0, 0, 0, 0, 0, 0, 0xFF, 0xFF])
    }
  }

  /** The two forms of an IPv4 address, and no other. */
  lemma Is4Exactly(ip: IP)
    ensures ip.Is4() <==>
            || |ip.address| == 4
            || (&& |ip.address| == 16 && (forall i | 0 <= i < 10 :: ip.address[i] == 0)
                && ip.address[10] == 255 && ip.address[11] == 255)
  {
    if |ip.address| == 16 {
      var prefix: seq<byte> := [0, 0, 0, 0, 0, 0, 0, 0, 0, 0, 0xFF, 0xFF];
      assert forall i | 0 <= i < 12 :: ip.address[..12][i] == ip.address[i];
      if (forall i | 0 <= i < 10 :: ip.address[i] == 0) && ip.address[10] == 255 && ip.address[11] == 255 {
        assert ip.address[..12] == prefix;
      }
      if ip.address[..12] == prefix {
        assert forall i | 0 <= i < 12 :: ip.address[i] == prefix[i];
      }
    }
  }

  function Family(ips: seq<IP>, four: bool): seq<IP> {
    if ips == [] then []
    else Family(ips[..|ips| - 1], four) + (if ips[|ips| - 1].Is4() == four then [ips[|ips| - 1]] else [])
  }

  /** All of the preferred family before all of the other. */
  ghost predicate FamilyOrdered(ips: seq<IP>, fourFirst: bool) {
    forall i, j | 0 <= i < j < |ips| :: ips[j].Is4() == fourFirst ==> ips[i].Is4() == fourFirst
  }

  lemma FamilyStep(ips: seq<IP>, n: nat, four: bool)
    requires n < |ips|
    ensures Family(ips[..n + 1], four) == Family(ips[..n], four) + (if ips[n].Is4() == four then [ips[n]] else [])
  {
    assert ips[..n + 1][..n] == ips[..n];
  }

  lemma {:induction false} FamilyMembers(ips: seq<IP>, four: bool)
    ensures forall ip <- Family(ips, four) :: ip.Is4() == four
  {
    if ips != [] {
      FamilyMembers(ips[..|ips| - 1], four);
    }
  }

  lemma {:induction false} FamiliesCover(ips: seq<IP>)
    ensures Covered(Family(ips, true), Family(ips, false), ips)
  {
    if ips != [] {
      var n := |ips| - 1;
      FamiliesCover(ips[..n]);
      OneMore(Family(ips[..n], true), Family(ips[..n], false), ips[..n], ips[n]);
      assert ips == ips[..n] + [ips[n]];
    }
  }

  /** Two lists hold what a third one holds. */
  ghost predicate Covered(a: seq<IP>, b: seq<IP>, c: seq<IP>) {
    multiset(a) + multiset(b) == multiset(c)
  }

  lemma OneMore(a: seq<IP>, b: seq<IP>, c: seq<IP>, ip: IP)
    requires Covered(a, b, c)
    ensures Covered(a + [ip], b + [], c + [ip]) && Covered(a + [], b + [ip], c + [ip])
  {
    assert a + [] == a && b + [] == b;
  }

  lemma {:induction false} FamilyOfUniform(ips: seq<IP>, four: bool)
    requires forall ip <- ips :: ip.Is4() == four
    ensures Family(ips, four) == ips && Family(ips, !four) == []
  {
    if ips != [] {
      var n := |ips| - 1;
      assert ips[n] in ips;
      FamilyOfUniform(ips[..n], four);
      assert ips == ips[..n] + [ips[n]];
    }
  }

  lemma {:induction false} FamilyOfSum(a: seq<IP>, b: seq<IP>, four: bool)
    ensures Family(a + b, four) == Family(a, four) + Family(b, four)
  {
    if b == [] {
      assert a + b == a;
    } else {
      var n := |b| - 1;
      FamilyOfSum(a, b[..n], four);
      assert (a + b)[..|a + b| - 1] == a + b[..n];
    }
  }

  /** `ips` holds the addresses of `addrs`, one family before the other, each family in its old order. */
  ghost predicate StablePartition(ips: seq<IP>, addrs: seq<IP>, fourFirst: bool) {
    && |ips| == |addrs|
    && multiset(ips) == multiset(addrs)
    && FamilyOrdered(ips, fourFirst)
    && forall four :: Family(ips, four) == Family(addrs, four)
  }

  /** The loops of `lookupAddr`; an empty lookup is an error. */
  method OrderAddresses(addrs: seq<IP>, preferIPv6: bool) returns (ips: Result<seq<IP>>)
    ensures ips.Ok? <==> addrs != []
    ensures ips.Ok? ==> StablePartition(ips.value, addrs, !preferIPv6)
  {
    if |addrs| == 0 {
      return Err("failed to resolve");
    }
    var out: seq<IP> := [];
    if preferIPv6 {
      out := AppendFamily(addrs, out, false);
    }
    out := AppendFamily(addrs, out, true);
    if !preferIPv6 {
      out := AppendFamily(addrs, out, false);
    }
    assert out == Sorted(addrs, !preferIPv6);
    Partitioned(addrs, !preferIPv6);
    return Ok(out);
  }

  /** One loop: appends the addresses of one family. */
  method AppendFamily(addrs: seq<IP>, ips: seq<IP>, four: bool) returns (out: seq<IP>)
    ensures out == ips + Family(addrs, four)
  {
    out := ips;
    for i := 0 to |addrs|
      invariant out == ips + Family(addrs[..i], four)
    {
      FamilyStep(addrs, i, four);
      if addrs[i].Is4() == four {
        out := out + [addrs[i]];
      }
    }
    assert addrs[..|addrs|] == addrs;
  }

  function Sorted(addrs: seq<IP>, fourFirst: bool): seq<IP> {
    Family(addrs, fourFirst) + Family(addrs, !fourFirst)
  }

  lemma SortedMultiset(addrs: seq<IP>, fourFirst: bool)
    ensures multiset(Sorted(addrs, fourFirst)) == multiset(addrs)
    ensures |Sorted(addrs, fourFirst)| == |addrs|
  {
    FamiliesCover(addrs);
    var out := Sorted(addrs, fourFirst);
    assert |multiset(out)| == |out| && |multiset(addrs)| == |addrs|;
  }

  lemma SortedOrdered(addrs: seq<IP>, fourFirst: bool)
    ensures FamilyOrdered(Sorted(addrs, fourFirst), fourFirst)
  {
    var a, b := Family(addrs, fourFirst), Family(addrs, !fourFirst);
    FamilyMembers(addrs, fourFirst);
    FamilyMembers(addrs, !fourFirst);
    assert forall i | 0 <= i < |a| :: a[i] in a;
    assert forall i | 0 <= i < |b| :: b[i] in b;
  }

  lemma SortedFamilies(addrs: seq<IP>, fourFirst: bool, four: bool)
    ensures Family(Sorted(addrs, fourFirst), four) == Family(addrs, four)
  {
    var a, b := Family(addrs, fourFirst), Family(addrs, !fourFirst);
    FamilyMembers(addrs, fourFirst);
    FamilyMembers(addrs, !fourFirst);
    FamilyOfUniform(a, fourFirst);
    FamilyOfUniform(b, !fourFirst);
    FamilyOfSum(a, b, four);
  }

  lemma Partitioned(addrs: seq<IP>, fourFirst: bool)
    ensures StablePartition(Sorted(addrs, fourFirst), addrs, fourFirst)
  {
    SortedMultiset(addrs, fourFirst);
    SortedOrdered(addrs, fourFirst);
    SortedFamilies(addrs, fourFirst, true);
    SortedFamilies(addrs, fourFirst, false);
  }

  /** There is only one such order: a stable partition is determined by what it keeps. */
  lemma StablePartitionUnique(a: seq<IP>, b: seq<IP>, addrs: seq<IP>, fourFirst: bool)
    requires StablePartition(a, addrs, fourFirst) && StablePartition(b, addrs, fourFirst)
    ensures a == b
  {
    FamilyOrderedIsSum(a, fourFirst);
    FamilyOrderedIsSum(b, fourFirst);
  }

  lemma {:induction false} FamilyOrderedIsSum(ips: seq<IP>, fourFirst: bool)
    requires FamilyOrdered(ips, fourFirst)
    ensures ips == Family(ips, fourFirst) + Family(ips, !fourFirst)
  {
    if ips != [] {
      var n := |ips| - 1;
      FamilyOrderedIsSum(ips[..n], fourFirst);
      if ips[n].Is4() == fourFirst {
        assert forall ip <- ips :: ip.Is4() == fourFirst;
        FamilyOfUniform(ips, fourFirst);
      }
    }
  }

  // ---------------------------------------------------------------------------
  // The ring
  // ---------------------------------------------------------------------------

  /** `ipIdx` is a uint8, and so is what it is compared with. */
  function Successor(idx: byte, count: nat): byte {
    var next := (idx + 1) % 0x100;
    if next >= count % 0x100 then 0 else next
  }

  /** The index and the time of the last accepted switch, None before the first. */
  datatype Ring = Ring(idx: byte, last: Option<Instant>)

  predicate Accepts(r: Ring, count: nat, now: Instant) {
    count > 1 && (r.last.Some? ==> now - r.last.value >= THROTTLE)
  }

  function Switch(r: Ring, count: nat, now: Instant): Ring {
    if Accepts(r, count, now) then Ring(Successor(r.idx, count), Some(now)) else r
  }

  class Resolved {
    ghost const server: string   // the name that was looked up
    var ips: seq<IP>
    var ipIdx: byte
    var lastSwitched: Option<Instant>

    constructor (ghost server: string, ips: seq<IP>)
      ensures this.server == server && this.ips == ips && Position() == Ring(0, None)
    {
      this.server := server;
      this.ips, ipIdx, lastSwitched := ips, 0, None;
    }

    function Position(): Ring
      reads this
    {
      Ring(ipIdx, lastSwitched)
    }

    ghost predicate Valid()
      reads this
    {
      ips != [] ==> ipIdx < |ips|
    }

    method NextIP(now: Instant)
      requires Valid()
      modifies this
      ensures Valid() && ips == old(ips)
      ensures Position() == Switch(old(Position()), |ips|, now)
      ensures var throttled := old(lastSwitched).Some? && now - old(lastSwitched).value < 5_000_000_000;
        var next := (old(ipIdx) + 1) % 256;
        if |ips| <= 1 || throttled then unchanged(this)
        else lastSwitched == Some(now) && ipIdx == if next < |ips| % 256 then next else 0
    {
      if |ips| > 1 {
        if lastSwitched.Some? && now - lastSwitched.value < THROTTLE {
          return;
        }
        lastSwitched := Some(now);
        ipIdx := (ipIdx + 1) % 0x100;
      } else {
        return;
      }
      if ipIdx >= |ips| % 0x100 {
        ipIdx := 0;
      }
    }

    method CurrentIP() returns (ip: Option<IP>)
      requires Valid()
      ensures ip == if ips == [] then None else Some(ips[ipIdx])
    {
      if |ips| == 0 {
        return None;
      }
      return Some(ips[ipIdx]);
    }
  }

  // ---------------------------------------------------------------------------
  // Whole runs
  // ---------------------------------------------------------------------------

  /** The ring after calls of NextIP at the given times. */
  function After(count: nat, calls: seq<Instant>): Ring {
    if calls == [] then Ring(0, None)
    else Switch(After(count, calls[..|calls| - 1]), count, calls[|calls| - 1])
  }

  /** The times of the calls that were not throttled. */
  function Accepted(count: nat, calls: seq<Instant>): seq<Instant> {
    if calls == [] then []
    else
      var n := |calls| - 1;
      Accepted(count, calls[..n]) + (if Accepts(After(count, calls[..n]), count, calls[n]) then [calls[n]] else [])
  }

  /** Where k accepted switches lead. */
  function IndexAfter(k: nat, count: nat): (i: byte)
    ensures i < 0xFF && (count > 0 ==> i < count)
  {
    if count % 0x100 == 0 then 0 else k % (count % 0x100)
  }

  lemma SuccessorIndex(k: nat, count: nat)
    ensures Successor(IndexAfter(k, count), count) == IndexAfter(k + 1, count)
  {
    if count % 0x100 != 0 {
      NextModulo(k, count % 0x100);
    }
  }

  lemma NextModulo(k: nat, m: nat)
    requires m > 0
    ensures (k + 1) % m == if k % m + 1 == m then 0 else k % m + 1
  {
    var q, r := k / m, k % m;
    if r + 1 == m {
      Distribute(q, 1, m);
      DivisionUnique((k + 1) / m, (k + 1) % m, q + 1, 0, m);
    } else {
      DivisionUnique((k + 1) / m, (k + 1) % m, q, r + 1, m);
    }
  }

  /** The index after any run of calls depends only on how many were accepted, and is in range. */
  lemma {:induction false} IndexAfterRun(count: nat, calls: seq<Instant>)
    requires count > 0
    ensures After(count, calls).idx == IndexAfter(|Accepted(count, calls)|, count) < count
    ensures After(count, calls).last ==
            var a := Accepted(count, calls); if a == [] then None else Some(a[|a| - 1])
  {
    if calls != [] {
      IndexAfterRun(count, calls[..|calls| - 1]);
      SuccessorIndex(|Accepted(count, calls[..|calls| - 1])|, count);
    }
  }

  /** Accepted switches are at least the throttle apart. */
  lemma {:induction false} AcceptedApart(count: nat, calls: seq<Instant>, i: nat)
    requires count > 0 && i + 1 < |Accepted(count, calls)|
    ensures Accepted(count, calls)[i + 1] - Accepted(count, calls)[i] >= 5_000_000_000
  {
    var n := |calls| - 1;
    var before := Accepted(count, calls[..n]);
    IndexAfterRun(count, calls[..n]);
    if i + 1 < |before| {
      AcceptedApart(count, calls[..n], i);
    }
  }

  /** Calls as far apart as the throttle asks. */
  function Spaced(k: nat): seq<Instant> {
    seq(k, i => i * 5_000_000_000)
  }

  /** None of them is throttled. */
  lemma {:induction false} SpacedAccepted(count: nat, k: nat)
    requires count > 1
    ensures Accepted(count, Spaced(k)) == Spaced(k)
    decreases k
  {
    if k > 0 {
      var calls := Spaced(k);
      assert calls[..k - 1] == Spaced(k - 1) && calls == Spaced(k - 1) + [calls[k - 1]];
      SpacedAccepted(count, k - 1);
      IndexAfterRun(count, Spaced(k - 1));
    }
  }

  /** Some run of calls leaves the ring at the i-th address. */
  ghost predicate Visited(i: nat, count: nat) {
    exists calls :: After(count, calls).idx == i
  }

  /** Every address is reached by some run exactly when there are fewer than 256 of them. */
  lemma RoundRobin(count: nat)
    requires count > 0
    ensures (forall i: nat | i < count :: Visited(i, count)) <==> count < 0x100
  {
    if count < 0x100 {
      forall i: nat | i < count
        ensures Visited(i, count)
      {
        Reached(i, count);
      }
    } else {
      var last: nat := count - 1;
      forall calls
        ensures After(count, calls).idx != last
      {
        IndexAfterRun(count, calls);
      }
      assert !Visited(last, count);
    }
  }

  lemma Reached(i: nat, count: nat)
    requires i < count < 0x100
    ensures Visited(i, count)
  {
    if count == 1 {
      assert After(count, []).idx == 0;
    } else {
      SpacedAccepted(count, i);
      IndexAfterRun(count, Spaced(i));
      SmallIndex(i, count);
    }
  }

  lemma SmallIndex(i: nat, count: nat)
    requires i < count < 0x100
    ensures IndexAfter(i, count) == i
  {
    DivisionUnique(i / count, i % count, 0, i, count);
  }

  // ---------------------------------------------------------------------------
  // Retries
  // ---------------------------------------------------------------------------

  /** A lookup succeeds, and no earlier pause was cut short by the close channel. */
  ghost predicate ResolvesAt(lookups: nat -> Option<seq<IP>>, closes: nat -> bool, i: nat) {
    && lookups(i).Some?
    && forall j: nat | j < i :: lookups(j).None? && !closes(j)
  }

  /** What the dialer remembers: the name it was last given, and the one whose addresses it has. */
  datatype Memory = Memory(current: string, server: Option<string>)

  /** A call of PrepareDomain, and whether it found addresses. */
  datatype Call = Call(name: string, found: bool)

  function Remember(m: Memory, c: Call): Memory {
    Memory(c.name, if c.found then Some(c.name) else m.server)
  }

  function RememberAll(calls: seq<Call>): Memory {
    if calls == [] then Memory("", None)
    else Remember(RememberAll(calls[..|calls| - 1]), calls[|calls| - 1])
  }

  /** Where a connection to an address goes. */
  datatype Route = Prepared(ip: Option<IP>) | Waits | LookedUp

  /** The part of ProtectedDialer that keeps the server between calls. */
  class ProtectedDialer {
    var currentServer: string
    var vServer: Resolved?

    constructor ()
      ensures Abs() == Memory("", None) && Valid()
    {
      currentServer, vServer := "", null;
    }

    ghost function Abs(): Memory
      reads this
    {
      Memory(currentServer, if vServer == null then None else Some(vServer.server))
    }

    ghost predicate Valid()
      reads this, vServer
    {
      vServer != null ==> vServer.Valid()
    }

    predicate IsVServerReady()
      reads this
    {
      vServer != null
    }

    /**
     `PrepareDomain`. `lookups(i)` is the result of the i-th lookup and `closes(i)`
     whether the core is closed in the pause after it. The name is replaced in any
     case, the server only when a lookup counts.
    */
    method PrepareDomain(domainName: string, lookups: nat -> Option<seq<IP>>, closes: nat -> bool)
      returns (tries: nat)
      requires Valid()
      modifies this
      ensures Valid() && tries <= 10
      ensures var found := tries > 0 && ResolvesAt(lookups, closes, tries - 1);
        && (found <==> exists i: nat | i < 10 ::
                         lookups(i).Some? && forall j: nat | j < i :: lookups(j).None? && !closes(j))
        && (!found ==> tries == 10 || (tries > 0 && closes(tries - 1)))
        && Abs() == Remember(old(Abs()), Call(domainName, found))
        && currentServer == domainName
        && (if found then fresh(vServer) && vServer.server == domainName && Some(vServer.ips) == lookups(tries - 1)
                          && vServer.Position() == Ring(0, None)
            else vServer == old(vServer))
    {
      currentServer := domainName;
      var maxRetry := MAX_RETRY;
      tries := 0;
      while true
        invariant 0 <= maxRetry <= MAX_RETRY && tries == MAX_RETRY - maxRetry
        invariant forall j: nat | j < tries :: lookups(j).None? && !closes(j)
        invariant vServer == old(vServer) && currentServer == domainName && Valid()
        decreases maxRetry
      {
        if maxRetry == 0 {
          return;
        }
        var found := lookups(tries);
        tries := tries + 1;
        if found.None? {
          maxRetry := maxRetry - 1;
          if closes(tries - 1) {
            return;
          }
          continue;
        }
        assert ResolvesAt(lookups, closes, tries - 1);
        vServer := new Resolved(domainName, found.value);
        return;
      }
    }

    /** How `Dial` chooses: the current name goes to whatever addresses were kept. */
    method Choose(address: string) returns (route: Route)
      requires Valid()
      ensures route.LookedUp? <==> address != Abs().current
      ensures route.Waits? <==> address == Abs().current && Abs().server.None?
      ensures route.Prepared? ==> vServer != null
                                  && route.ip == if vServer.ips == [] then None else Some(vServer.ips[vServer.ipIdx])
    {
      if address != currentServer {
        return LookedUp;
      }
      if vServer == null {
        return Waits;
      }
      var ip := vServer.CurrentIP();
      return Prepared(ip);
    }
  }

  /** The last call that found addresses was for another name than the last call. */
  ghost predicate Outdated(calls: seq<Call>) {
    exists i :: 0 <= i < |calls| && calls[i].found && calls[i].name != calls[|calls| - 1].name
                && forall j | i < j < |calls| :: !calls[j].found
  }

  /** Whose addresses are kept: those of the last call that found any. */
  lemma {:induction false} KeptServer(calls: seq<Call>, i: nat)
    requires i < |calls| && calls[i].found && forall j | i < j < |calls| :: !calls[j].found
    ensures RememberAll(calls).server == Some(calls[i].name)
  {
    if i < |calls| - 1 {
      KeptServer(calls[..|calls| - 1], i);
    }
  }

  /** And that there was such a call. */
  lemma {:induction false} KeptFrom(calls: seq<Call>) returns (i: nat)
    requires RememberAll(calls).server.Some?
    ensures i < |calls| && calls[i].found && forall j | i < j < |calls| :: !calls[j].found
  {
    var n := |calls| - 1;
    if calls[n].found {
      i := n;
    } else {
      i := KeptFrom(calls[..n]);
    }
  }

  /**
   After any calls, connections to the current name go to addresses of another one
   exactly when the last call that found any was for another name.
  */
  lemma ServerOutdatedExactly(calls: seq<Call>)
    requires calls != []
    ensures var m := RememberAll(calls);
      && m.current == calls[|calls| - 1].name
      && (m.server.Some? && m.server.value != m.current <==> Outdated(calls))
  {
    var m := RememberAll(calls);
    if m.server.Some? {
      var i := KeptFrom(calls);
      KeptServer(calls, i);
    }
    if Outdated(calls) {
      var i: nat :| i < |calls| && calls[i].found && calls[i].name != calls[|calls| - 1].name
                    && forall j | i < j < |calls| :: !calls[j].found;
      KeptServer(calls, i);
    }
  }

  /** For instance when the core is started for one name, and again for a second that cannot be resolved. */
  lemma OutdatedExists(first: string, second: string)
    requires first != second
    ensures RememberAll([Call(first, true), Call(second, false)]) == Memory(second, Some(first))
  {
    var calls := [Call(first, true), Call(second, false)];
    assert calls[..1] == [Call(first, true)] && calls[..1][..0] == [];
  }
}
