/** The two small guarded objects of the uTLS path: the pre-dialed connection and the negotiated state. */
module Connections {
  import opened Basics

  type Conn = nat

  // ---------------------------------------------------------------------------
  // handoffDialer
  // ---------------------------------------------------------------------------

  /** One locked section; a `get` that finds nothing dials afterwards, outside the lock. */
  datatype Op = Get(dialed: Result<Conn>) | Discard

  /** What is pending, and what has been handed to callers and closed, in order. */
  datatype Handoff = Handoff(pending: Option<Conn>, handed: seq<Conn>, closed: seq<Conn>)

  function Apply(h: Handoff, op: Op): Handoff {
    match op
    case Get(dialed) =>
      if h.pending.Some? then Handoff(None, h.handed + [h.pending.value], h.closed)
      else if dialed.Ok? then h.(handed := h.handed + [dialed.value])
      else h
    case Discard =>
      if h.pending.Some? then Handoff(None, h.handed, h.closed + [h.pending.value]) else h
  }

  function ApplyAll(h: Handoff, ops: seq<Op>): Handoff {
    if ops == [] then h else Apply(ApplyAll(h, ops[..|ops| - 1]), ops[|ops| - 1])
  }

  class HandoffDialer {
    var pending: Option<Conn>
    ghost var handed: seq<Conn>
    ghost var closed: seq<Conn>

    constructor (probe: Conn)
      ensures Abs() == Handoff(Some(probe), [], [])
    {
      pending, handed, closed := Some(probe), [], [];
    }

    ghost function Abs(): Handoff
      reads this
    {
      Handoff(pending, handed, closed)
    }

    /** `dialed` is what a fresh dial returns, if it comes to that. */
    method GetConn(dialed: Result<Conn>) returns (c: Result<Conn>)
      modifies this
      ensures Abs() == Apply(old(Abs()), Get(dialed))
      ensures c == if old(pending).Some? then Ok(old(pending).value) else dialed
      ensures pending == None && closed == old(closed)
      ensures handed == old(handed) + (if c.Ok? then [c.value] else [])
    {
      if pending.Some? {
        var p := pending.value;
        pending := None;
        handed := handed + [p];
        return Ok(p);
      }
      if dialed.Ok? {
        handed := handed + [dialed.value];
      }
      return dialed;
    }

    method DiscardConn()
      modifies this
      ensures Abs() == Apply(old(Abs()), Discard)
      ensures pending == None && handed == old(handed)
      ensures closed == old(closed) + (if old(pending).Some? then [old(pending).value] else [])
    {
      if pending.Some? {
        closed := closed + [pending.value];
        pending := None;
      }
    }
  }

  /**
   In any interleaving the probe connection is in exactly one place: still pending,
   handed out once, or closed once; and the first operation decides which.
  */
  lemma {:induction false} ProbeConserved(probe: Conn, ops: seq<Op>)
    requires forall op <- ops :: op.Get? && op.dialed.Ok? ==> op.dialed.value != probe
    ensures var h := ApplyAll(Handoff(Some(probe), [], []), ops);
      && multiset(h.handed)[probe] + multiset(h.closed)[probe] + (if h.pending == Some(probe) then 1 else 0) == 1
      && (h.pending == if ops == [] then Some(probe) else None)
      && (ops != [] ==> (multiset(h.handed)[probe] == 1 <==> ops[0].Get?))
      && (forall c <- h.closed :: c == probe)
  {
    if ops != [] {
      var n := |ops| - 1;
      ProbeConserved(probe, ops[..n]);
      assert ops[n] in ops;
      if n > 0 {
        assert ops[..n][0] == ops[0];
      }
    }
  }

  // ---------------------------------------------------------------------------
  // connState
  // ---------------------------------------------------------------------------

  datatype Recorded = Recorded(known: bool, proto: string, echAccepted: bool)

  function Recording(s: Recorded, proto: string, ech: bool): (Recorded, bool) {
    if s.known && s.proto != proto then (s, false) else (Recorded(true, proto, ech), true)
  }

  /** The state after the given calls of `record`, and which of them succeeded. */
  function RecordAll(calls: seq<(string, bool)>): (Recorded, seq<bool>) {
    if calls == [] then (Recorded(false, "", false), [])
    else
      var n := |calls| - 1;
      var (s, oks) := RecordAll(calls[..n]);
      var (s', ok) := Recording(s, calls[n].0, calls[n].1);
      (s', oks + [ok])
  }

  class ConnState {
    var proto: string
    var echAccepted: bool
    var isSet: bool

    constructor ()
      ensures Abs() == Recorded(false, "", false)
    {
      proto, echAccepted, isSet := "", false, false;
    }

    function Abs(): Recorded
      reads this
    {
      Recorded(isSet, proto, echAccepted)
    }

    method Record(p: string, ech: bool) returns (err: Option<string>)
      modifies this
      ensures (Abs(), err.None?) == Recording(old(Abs()), p, ech)
      ensures if old(isSet) && old(proto) != p then err.Some? && unchanged(this)
              else err.None? && isSet && proto == p && echAccepted == ech
    {
      if isSet && proto != p {
        return Some("a redirect crossed an HTTP version boundary");
      }
      proto, echAccepted, isSet := p, ech, true;
      return None;
    }
  }

  /** A call succeeds exactly when it names the protocol of the first call; so all successes agree. */
  lemma {:induction false} RecordsAgree(calls: seq<(string, bool)>)
    ensures var (s, oks) := RecordAll(calls);
      && |oks| == |calls|
      && (forall i | 0 <= i < |calls| :: oks[i] <==> calls[i].0 == calls[0].0)
      && s.known == (calls != [])
      && (calls != [] ==> s.proto == calls[0].0)
  {
    if calls != [] {
      var n := |calls| - 1;
      RecordsAgree(calls[..n]);
    }
  }

  /** The ECH result kept is that of the last call that succeeded. */
  lemma {:induction false} LastEchKept(calls: seq<(string, bool)>, i: nat)
    requires i < |calls| && calls[i].0 == calls[0].0
    requires forall j | i < j < |calls| :: calls[j].0 != calls[0].0
    ensures RecordAll(calls).0.echAccepted == calls[i].1
  {
    var n := |calls| - 1;
    RecordsAgree(calls[..n]);
    if i < n {
      LastEchKept(calls[..n], i);
    }
  }
}
