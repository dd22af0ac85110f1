/** The probe driver: a loop over attempts, and in each a loop over the datagrams that arrive. */
module WireGuardProbe {
  import opened Basics
  import opened Crypto
  import opened NoisePattern
  import opened WireGuardHandshake
  import opened WireGuardSecurity
  import NoisePackets

  const RESPONSE_SIZE := 92
  const DEFAULT_TIMEOUT_MS := 8000

  /** An address in the 16-byte form in which `IP.Equal` compares. */
  datatype Address = Address(ip: seq<byte>, port: nat)

  /** A datagram; `body` is how its bytes read as a response, its first byte being `body.kind`. */
  datatype Datagram = Datagram(from: Address, size: nat, body: Response)

  /** What one call of ReadFromUDP returns. */
  datatype Arrival = Got(datagram: Datagram) | TimedOut | Broken(error: string)

  /** The fields of the result that a read can change. */
  datatype Reply = Reply(alive: bool, responded: bool, kind: int, size: nat)

  /** What the outside world contributes to one attempt; after the arrivals the read times out. */
  datatype Inputs = Inputs(e: Scalar, timestamp: Term, index: uint32, sendError: Option<string>,
                           arrivals: seq<Arrival>)

  /** The target and our keys. */
  datatype Target = Target(address: Address, peerPublic: Term, ours: Scalar, psk: Term, reserved: (byte, byte, byte))

  // ---------------------------------------------------------------------------
  // One attempt, as a function of what arrives
  // ---------------------------------------------------------------------------

  /** The datagram is a response to this initiation that authenticates. */
  predicate Wins(t: Target, p: Party, index: uint32, d: Datagram) {
    && d.from == t.address
    && d.size == RESPONSE_SIZE
    && d.body.kind == RESPONSE_TYPE
    && d.body.receiver == index
    && Accepts(p, d.body)
  }

  /** A datagram's effect on the record, if it comes from the target at all. */
  function Noted(t: Target, d: Datagram, r: Reply): Reply {
    if d.from != t.address then r
    else r.(responded := true, size := d.size, kind := if d.size >= 1 then d.body.kind else r.kind)
  }

  /** The record and the error after listening to the arrivals from a given record on. */
  function Listen(t: Target, p: Party, index: uint32, arrivals: seq<Arrival>, r: Reply): (Reply, Option<string>)
    decreases |arrivals|
  {
    if arrivals == [] || arrivals[0].TimedOut? then (r, None)
    else if arrivals[0].Broken? then (r, Some(arrivals[0].error))
    else
      var d := arrivals[0].datagram;
      var r' := Noted(t, d, r);
      if Wins(t, p, index, d) then (r'.(alive := true), None)
      else Listen(t, p, index, arrivals[1..], r')
  }

  /** One attempt: nothing is read when the initiation cannot be built or sent. */
  function Once(t: Target, inputs: Inputs, r: Reply): (Reply, Option<string>) {
    var w := InitiatorWrites(t.ours, inputs.e, t.peerPublic, t.psk, inputs.timestamp);
    if w.None? then (r, Some("invalid key material"))
    else if inputs.sendError.Some? then (r, inputs.sendError)
    else Listen(t, w.value.0, inputs.index, inputs.arrivals, r)
  }

  /** An attempt whose initiation cannot be built or sent leaves the record alone and says why. */
  lemma NothingSent(t: Target, inputs: Inputs, r: Reply)
    ensures SharedSecret(inputs.e, t.peerPublic).None? || SharedSecret(t.ours, t.peerPublic).None? ==>
              Once(t, inputs, r) == (r, Some("invalid key material"))
    ensures SharedSecret(inputs.e, t.peerPublic).Some? && SharedSecret(t.ours, t.peerPublic).Some? ==>
              inputs.sendError.Some? ==> Once(t, inputs, r) == (r, inputs.sendError)
  {
    InitiatorWritesUnrolled(t.ours, inputs.e, t.peerPublic, t.psk, inputs.timestamp);
  }

  // ---------------------------------------------------------------------------
  // The code
  // ---------------------------------------------------------------------------

  class WireGuardResult {
    var alive: bool
    var responded: bool
    var replyType: int
    var replySize: nat
    var attempts: nat
    var respError: string

    constructor ()
      ensures Record() == Reply(false, false, 0, 0) && attempts == 0 && respError == ""
    {
      alive, responded, replyType, replySize, attempts, respError := false, false, 0, 0, 0, "";
    }

    function Record(): Reply
      reads this
    {
      Reply(alive, responded, replyType, replySize)
    }
  }

  method ProbeWireGuardOnce(t: Target, inputs: Inputs, result: WireGuardResult) returns (err: Option<string>)
    modifies result
    ensures (result.Record(), err) == Once(t, inputs, old(result.Record()))
    ensures result.attempts == old(result.attempts) && result.respError == old(result.respError)
  {
    var hs, packet := CreateInitiation(t.ours, t.peerPublic, t.reserved, inputs.e, inputs.timestamp, inputs.index, t.psk);
    if packet.Err? {
      return Some("invalid key material");
    }
    if inputs.sendError.Some? {
      return inputs.sendError;
    }
    ghost var p := InitiatorWrites(t.ours, inputs.e, t.peerPublic, t.psk, inputs.timestamp).value.0;
    InitiatorWritesUnrolled(t.ours, inputs.e, t.peerPublic, t.psk, inputs.timestamp);
    err := ReadUntilDeadline(hs, p, t, inputs.arrivals, result);
  }

  /** The read loop of `probeWireGuardOnce`. */
  method ReadUntilDeadline(hs: InitiatorState, ghost p: Party, t: Target, arrivals: seq<Arrival>, result: WireGuardResult)
    returns (err: Option<string>)
    requires p.initiator && p.s == t.ours && p.e == hs.localEphemeral && p.psk == t.psk
    requires p.sym.h == hs.hash && p.sym.ck == hs.chainKey
    modifies result
    ensures (result.Record(), err) == Listen(t, p, hs.localIndex, arrivals, old(result.Record()))
    ensures result.attempts == old(result.attempts) && result.respError == old(result.respError)
  {
    var i := 0;
    while i < |arrivals|
      invariant 0 <= i <= |arrivals|
      invariant Listen(t, p, hs.localIndex, arrivals[i..], result.Record()) ==
                Listen(t, p, hs.localIndex, arrivals, old(result.Record()))
      invariant result.attempts == old(result.attempts) && result.respError == old(result.respError)
    {
      var arrival := arrivals[i];
      assert arrivals[i..][0] == arrival && arrivals[i..][1..] == arrivals[i + 1..];
      i := i + 1;
      match arrival {
        case TimedOut => return None;
        case Broken(error) => return Some(error);
        case Got(d) =>
          if d.from != t.address {
            continue;
          }
          result.responded := true;
          result.replySize := d.size;
          if d.size >= 1 {
            result.replyType := d.body.kind;
          }
          if d.size != RESPONSE_SIZE || result.replyType != RESPONSE_TYPE {
            continue;
          }
          var ok := ConsumeResponse(hs, d.body, t.ours, t.psk);
          if ok {
            result.alive := true;
            return None;
          }
      }
    }
    return None;
  }

  /** Whatever stops the noise burst that precedes the first attempt has a message of its own. */
  function NoiseMessage(err: NoisePackets.SendError): string {
    match err
    case NoRandomness => "wnoise: cannot read random bytes"
    case WriteFailed => "wnoise: cannot send noise"
    case ContextDone => "context deadline exceeded"
  }

  // ---------------------------------------------------------------------------
  // Time
  // ---------------------------------------------------------------------------

  /** Go's integer division, which truncates. */
  function Quotient(a: int, b: int): int
    requires b > 0
  {
    if a >= 0 then a / b else -((-a) / b)
  }

  /** The whole probe's time in nanoseconds. */
  function Total(timeoutMs: int): int {
    Wrap64((if timeoutMs <= 0 then DEFAULT_TIMEOUT_MS else timeoutMs) * 1_000_000)
  }

  function AttemptCount(attempts: int): nat {
    if attempts <= 0 then 2 else attempts
  }

  /** What one attempt meets, and how long it would go on if its read deadline did not end it. */
  datatype Round = Round(inputs: Inputs, lasts: nat)

  /** How long an attempt takes: its share of the timeout at most, and no time if that is already past. */
  function Took(round: Round, per: int): nat {
    if round.lasts <= per then round.lasts else if per > 0 then per else 0
  }

  function Elapsed(rounds: seq<Round>, per: int): nat {
    if rounds == [] then 0 else Took(rounds[0], per) + Elapsed(rounds[1..], per)
  }

  // ---------------------------------------------------------------------------
  // All attempts
  // ---------------------------------------------------------------------------

  /**
   The record after the attempts and how many were made, stopping after a success or
   when the context has ended; `left` is the time until it does.
  */
  function Attempts(t: Target, rounds: seq<Round>, per: int, left: int, r: Reply): (a: (Reply, nat))
    ensures a.1 <= |rounds|
    decreases |rounds|
  {
    if rounds == [] then (r, 0)
    else
      var r' := Once(t, rounds[0].inputs, r).0;
      var left' := left - Took(rounds[0], per);
      if r'.alive || left' <= 0 then (r', 1)
      else
        var rest := Attempts(t, rounds[1..], per, left', r');
        (rest.0, rest.1 + 1)
  }

  /** The last error that one of the attempts came to, if any did. */
  function LastError(t: Target, rounds: seq<Round>): string {
    if rounds == [] then ""
    else
      var err := Once(t, rounds[|rounds| - 1].inputs, NOTHING).1;
      if err.Some? then err.value else LastError(t, rounds[..|rounds| - 1])
  }

  /** The attempt that is reported is the last one that came to an error. */
  lemma {:induction false} LastErrorExactly(t: Target, rounds: seq<Round>, i: nat)
    requires i < |rounds| && Once(t, rounds[i].inputs, NOTHING).1.Some?
    requires forall j | i < j < |rounds| :: Once(t, rounds[j].inputs, NOTHING).1.None?
    ensures LastError(t, rounds) == Once(t, rounds[i].inputs, NOTHING).1.value
  {
    var n := |rounds| - 1;
    if i < n {
      LastErrorExactly(t, rounds[..n], i);
    }
  }

  lemma ErrorAppend(t: Target, rounds: seq<Round>, i: nat, r: Reply)
    requires i < |rounds|
    ensures var err := Once(t, rounds[i].inputs, r).1;
      LastError(t, rounds[..i + 1]) == if err.Some? then err.value else LastError(t, rounds[..i])
  {
    var inputs := rounds[i].inputs;
    var w := InitiatorWrites(t.ours, inputs.e, t.peerPublic, t.psk, inputs.timestamp);
    if w.Some? {
      ErrorUnaffected(t, w.value.0, inputs.index, inputs.arrivals, r, NOTHING);
    }
    assert rounds[..i + 1][..i] == rounds[..i];
  }

  /** What is on record has no part in how listening ends. */
  lemma {:induction false} ErrorUnaffected(t: Target, p: Party, index: uint32, arrivals: seq<Arrival>,
                                           r: Reply, r': Reply)
    ensures Listen(t, p, index, arrivals, r).1 == Listen(t, p, index, arrivals, r').1
    decreases |arrivals|
  {
    if arrivals != [] && arrivals[0].Got? {
      var d := arrivals[0].datagram;
      ErrorUnaffected(t, p, index, arrivals[1..], Noted(t, d, r), Noted(t, d, r'));
    }
  }

  /** What precedes the attempts: the noise, if it was stopped, and the time it took. */
  datatype Prelude = Prelude(stopped: Option<NoisePackets.SendError>, lasted: nat)

  const NOTHING := Reply(false, false, 0, 0)

  /**
   `ProbeWireGuard` once its options are parsed, with one round for each attempt it
   may make. The context's time runs from before the noise; the shares are of the
   whole of it.
  */
  method ProbeWireGuard(t: Target, timeoutMs: int, attempts: int, noise: Prelude, rounds: seq<Round>)
    returns (result: WireGuardResult, elapsed: nat)
    requires |rounds| == AttemptCount(attempts)
    ensures fresh(result)
    ensures result.alive <==> result.respError == ""
    ensures noise.stopped.Some? ==> result.Record() == NOTHING && result.attempts == 0 && elapsed == noise.lasted
                                    && result.respError == NoiseMessage(noise.stopped.value)
    ensures noise.stopped.None? ==>
              var per := Quotient(Total(timeoutMs), AttemptCount(attempts));
              && (result.Record(), result.attempts) == Attempts(t, rounds, per, Total(timeoutMs) - noise.lasted, NOTHING)
              && result.attempts <= |rounds|
              && (!result.alive ==> var e := LastError(t, rounds[..result.attempts]);
                  result.respError == if e == "" then "no handshake response" else e)
              && elapsed == noise.lasted + Elapsed(rounds[..result.attempts], per)
  {
    result := new WireGuardResult();
    var total := Total(timeoutMs);
    elapsed := noise.lasted;
    if noise.stopped.Some? {
      result.respError := NoiseMessage(noise.stopped.value);
      return;
    }
    var per := Quotient(total, AttemptCount(attempts));
    var waited := MakeAttempts(t, rounds, per, total - noise.lasted, result);
    elapsed := elapsed + waited;
    if result.alive {
      result.respError := "";
    } else if result.respError == "" {
      result.respError := "no handshake response";
    }
  }

  /** The loop of `ProbeWireGuard`, and the time that passes in it. */
  method MakeAttempts(t: Target, rounds: seq<Round>, per: int, left: int, result: WireGuardResult)
    returns (waited: nat)
    requires result.Record() == NOTHING && result.attempts == 0 && result.respError == ""
    modifies result
    ensures (result.Record(), result.attempts) == Attempts(t, rounds, per, left, NOTHING)
    ensures result.attempts <= |rounds|
    ensures waited == Elapsed(rounds[..result.attempts], per)
    ensures !result.alive ==> result.respError == LastError(t, rounds[..result.attempts])
  {
    var i := 0;
    waited := 0;
    while i < |rounds|
      invariant 0 <= i <= |rounds|
      invariant result.attempts == i
      invariant Underway(t, rounds, per, left, i, waited, result.Record(), result.respError)
    {
      var ended;
      waited, ended := MakeAttempt(t, rounds, per, left, i, waited, result);
      i := i + 1;
      if ended {
        return;
      }
    }
  }

  /** One round of that loop: `ended` when it succeeds or the context's time is up. */
  method MakeAttempt(t: Target, rounds: seq<Round>, per: int, left: int, i: nat, waited: nat, result: WireGuardResult)
    returns (waited': nat, ended: bool)
    requires i < |rounds|
    requires Underway(t, rounds, per, left, i, waited, result.Record(), result.respError)
    modifies result
    ensures result.attempts == i + 1
    ensures ended <==> result.alive || waited' >= left
    ensures ended ==> (result.Record(), i + 1) == Attempts(t, rounds, per, left, NOTHING)
    ensures ended ==> waited' == Elapsed(rounds[..i + 1], per)
    ensures ended && !result.alive ==> result.respError == LastError(t, rounds[..i + 1])
    ensures !ended ==> Underway(t, rounds, per, left, i + 1, waited', result.Record(), result.respError)
  {
    UnderwayStep(t, rounds, per, left, i, waited, result.Record(), result.respError);
    result.attempts := i + 1;
    var err := ProbeWireGuardOnce(t, rounds[i].inputs, result);
    waited' := waited + Took(rounds[i], per);
    if result.alive {
      return waited', true;
    }
    if err.Some? {
      result.respError := err.value;
    }
    return waited', waited' >= left;
  }

  /** The loop has made `i` attempts, and those that remain will bring it to its end. */
  ghost predicate Underway(t: Target, rounds: seq<Round>, per: int, left: int,
                           i: nat, waited: nat, r: Reply, error: string) {
    && i <= |rounds| && !r.alive
    && waited == Elapsed(rounds[..i], per)
    && error == LastError(t, rounds[..i])
    && var rest := Attempts(t, rounds[i..], per, left - waited, r);
       (rest.0, rest.1 + i) == Attempts(t, rounds, per, left, NOTHING)
  }

  lemma UnderwayStep(t: Target, rounds: seq<Round>, per: int, left: int, i: nat, waited: nat, r: Reply, error: string)
    requires Underway(t, rounds, per, left, i, waited, r, error) && i < |rounds|
    ensures var (r', err) := Once(t, rounds[i].inputs, r);
      var waited' := waited + Took(rounds[i], per);
      var error' := if err.Some? then err.value else error;
      && waited' == Elapsed(rounds[..i + 1], per)
      && error' == LastError(t, rounds[..i + 1])
      && (if r'.alive || waited' >= left then Attempts(t, rounds, per, left, NOTHING) == (r', i + 1)
          else Underway(t, rounds, per, left, i + 1, waited', r', error'))
  {
    assert rounds[i..][1..] == rounds[i + 1..];
    ElapsedAppend(rounds, per, i);
    ErrorAppend(t, rounds, i, r);
  }

  lemma {:induction false} ElapsedAppend(rounds: seq<Round>, per: int, k: nat)
    requires k < |rounds|
    ensures Elapsed(rounds[..k + 1], per) == Elapsed(rounds[..k], per) + Took(rounds[k], per)
    decreases k
  {
    ElapsedStep(rounds, per, k + 1);
    if k > 0 {
      ElapsedStep(rounds, per, k);
      ElapsedAppend(rounds[1..], per, k - 1);
    }
  }

  lemma ElapsedStep(rounds: seq<Round>, per: int, k: nat)
    requires 0 < k <= |rounds|
    ensures Elapsed(rounds[..k], per) == Took(rounds[0], per) + Elapsed(rounds[1..][..k - 1], per)
  {
    assert rounds[..k][1..] == rounds[1..][..k - 1];
  }

  // ---------------------------------------------------------------------------
  // What the record means
  // ---------------------------------------------------------------------------

  /** The attempt wins: a winning datagram arrives before the read ends. */
  ghost predicate WinsAt(t: Target, p: Party, index: uint32, arrivals: seq<Arrival>, i: nat) {
    && i < |arrivals|
    && (forall j | 0 <= j <= i :: arrivals[j].Got?)
    && Wins(t, p, index, arrivals[i].datagram)
  }

  /** Only a winning datagram sets Alive, and then the record describes that datagram. */
  lemma {:induction false} AliveHasWinner(t: Target, p: Party, index: uint32, arrivals: seq<Arrival>, r: Reply)
    returns (i: nat)
    requires !r.alive && Listen(t, p, index, arrivals, r).0.alive
    ensures WinsAt(t, p, index, arrivals, i)
    ensures Listen(t, p, index, arrivals, r) == (Reply(true, true, 2, 92), None)
    decreases |arrivals|
  {
    var d := arrivals[0].datagram;
    if Wins(t, p, index, d) {
      i := 0;
    } else {
      var k := AliveHasWinner(t, p, index, arrivals[1..], Noted(t, d, r));
      i := k + 1;
      assert forall j | 1 <= j <= i :: arrivals[j] == arrivals[1..][j - 1];
    }
  }

  /** A winning datagram always sets it. */
  lemma {:induction false} WinnerSetsAlive(t: Target, p: Party, index: uint32, arrivals: seq<Arrival>, r: Reply, i: nat)
    requires WinsAt(t, p, index, arrivals, i)
    ensures Listen(t, p, index, arrivals, r).0.alive
    decreases i
  {
    assert arrivals[0].Got?;
    if i > 0 {
      assert forall j | 1 <= j <= i :: arrivals[j] == arrivals[1..][j - 1];
      WinnerSetsAlive(t, p, index, arrivals[1..], Noted(t, arrivals[0].datagram, r), i - 1);
    }
  }

  /** Nothing that is not a response with our index can set Alive. */
  lemma OtherIndexNeverWins(t: Target, p: Party, index: uint32, arrivals: seq<Arrival>, r: Reply)
    requires !r.alive
    requires forall i | 0 <= i < |arrivals| ::
               arrivals[i].Got? && arrivals[i].datagram.from == t.address ==> arrivals[i].datagram.body.receiver != index
    ensures !Listen(t, p, index, arrivals, r).0.alive
  {
    if Listen(t, p, index, arrivals, r).0.alive {
      var i := AliveHasWinner(t, p, index, arrivals, r);
    }
  }

  // ---------------------------------------------------------------------------
  // What is on record, won or not
  // ---------------------------------------------------------------------------

  /** The datagrams from the target that are read before listening ends, in order. */
  function Heard(t: Target, p: Party, index: uint32, arrivals: seq<Arrival>): seq<Datagram>
    decreases |arrivals|
  {
    if arrivals == [] || !arrivals[0].Got? then []
    else
      var d := arrivals[0].datagram;
      (if d.from == t.address then [d] else [])
      + (if Wins(t, p, index, d) then [] else Heard(t, p, index, arrivals[1..]))
  }

  /** The first byte of the last of them that has one. */
  function LastKind(ds: seq<Datagram>, before: int): int {
    if ds == [] then before
    else if ds[|ds| - 1].size >= 1 then ds[|ds| - 1].body.kind
    else LastKind(ds[..|ds| - 1], before)
  }

  /** The record shows that something was heard, and the size and type of the last of it. */
  predicate Shows(r: Reply, ds: seq<Datagram>, r': Reply) {
    && (r'.responded <==> r.responded || ds != [])
    && r'.size == (if ds == [] then r.size else ds[|ds| - 1].size)
    && r'.kind == LastKind(ds, r.kind)
  }

  lemma {:induction false} LastKindOfSum(a: seq<Datagram>, b: seq<Datagram>, before: int)
    ensures LastKind(a + b, before) == LastKind(b, LastKind(a, before))
  {
    if b == [] {
      assert a + b == a;
    } else {
      LastKindOfSum(a, b[..|b| - 1], before);
      assert (a + b)[..|a + b| - 1] == a + b[..|b| - 1];
    }
  }

  lemma ShowsOn(r: Reply, a: seq<Datagram>, r1: Reply, b: seq<Datagram>, r2: Reply)
    requires Shows(r, a, r1) && Shows(r1, b, r2)
    ensures Shows(r, a + b, r2)
  {
    LastKindOfSum(a, b, r.kind);
  }

  /** Everything from the target is recorded, whatever its size and type, and nothing else is. */
  lemma {:induction false} RecordExactly(t: Target, p: Party, index: uint32, arrivals: seq<Arrival>, r: Reply)
    ensures Shows(r, Heard(t, p, index, arrivals), Listen(t, p, index, arrivals, r).0)
    decreases |arrivals|
  {
    if arrivals != [] && arrivals[0].Got? {
      var d := arrivals[0].datagram;
      var first := if d.from == t.address then [d] else [];
      var r' := Noted(t, d, r);
      assert first[..0] == [];
      assert Shows(r, first, r');
      if Wins(t, p, index, d) {
        assert first + [] == first;
      } else {
        RecordExactly(t, p, index, arrivals[1..], r');
        ShowsOn(r, first, r', Heard(t, p, index, arrivals[1..]), Listen(t, p, index, arrivals[1..], r').0);
      }
    }
  }

  /** What an attempt hears: nothing, when its initiation is not built or not sent. */
  function HeardOnce(t: Target, inputs: Inputs): seq<Datagram> {
    var w := InitiatorWrites(t.ours, inputs.e, t.peerPublic, t.psk, inputs.timestamp);
    if w.None? || inputs.sendError.Some? then [] else Heard(t, w.value.0, inputs.index, inputs.arrivals)
  }

  function HeardInAll(t: Target, rounds: seq<Round>): seq<Datagram> {
    if rounds == [] then [] else HeardOnce(t, rounds[0].inputs) + HeardInAll(t, rounds[1..])
  }

  /** The same for a whole probe: its record shows what the attempts it made have heard. */
  lemma {:induction false} ProbeRecordExactly(t: Target, rounds: seq<Round>, per: int, left: int, r: Reply)
    ensures var (r', made) := Attempts(t, rounds, per, left, r);
      Shows(r, HeardInAll(t, rounds[..made]), r')
    decreases |rounds|
  {
    if rounds != [] {
      var inputs := rounds[0].inputs;
      var w := InitiatorWrites(t.ours, inputs.e, t.peerPublic, t.psk, inputs.timestamp);
      if w.Some? {
        RecordExactly(t, w.value.0, inputs.index, inputs.arrivals, r);
      }
      var r1 := Once(t, inputs, r).0;
      assert Shows(r, HeardOnce(t, inputs), r1);
      var left' := left - Took(rounds[0], per);
      var (r', made) := Attempts(t, rounds, per, left, r);
      assert rounds[..made][1..] == rounds[1..][..made - 1];
      if r1.alive || left' <= 0 {
        assert HeardInAll(t, rounds[1..][..made - 1]) == [];
        assert HeardOnce(t, inputs) + [] == HeardOnce(t, inputs);
      } else {
        ProbeRecordExactly(t, rounds[1..], per, left', r1);
        ShowsOn(r, HeardOnce(t, inputs), r1, HeardInAll(t, rounds[1..][..made - 1]), r');
      }
    }
  }

  /** Listening ends in an error exactly when the read breaks before it times out and before something wins. */
  lemma {:induction false} ErrorExactly(t: Target, p: Party, index: uint32, arrivals: seq<Arrival>, r: Reply,
                                        error: string)
    ensures Listen(t, p, index, arrivals, r).1 == Some(error) <==>
            exists i :: BreaksAt(t, p, index, arrivals, error, i)
    decreases |arrivals|
  {
    if arrivals != [] && arrivals[0].Got? {
      var rest := arrivals[1..];
      ErrorExactly(t, p, index, rest, Noted(t, arrivals[0].datagram, r), error);
      BrokenLater(t, p, index, arrivals, error);
    } else if arrivals != [] && arrivals[0] == Broken(error) {
      assert BreaksAt(t, p, index, arrivals, error, 0);
    }
  }

  ghost predicate BreaksAt(t: Target, p: Party, index: uint32, arrivals: seq<Arrival>, error: string, i: nat) {
    && i < |arrivals| && arrivals[i] == Broken(error)
    && forall j | 0 <= j < i :: arrivals[j].Got? && !Wins(t, p, index, arrivals[j].datagram)
  }

  lemma BrokenLater(t: Target, p: Party, index: uint32, arrivals: seq<Arrival>, error: string)
    requires arrivals != [] && arrivals[0].Got?
    ensures (exists i :: BreaksAt(t, p, index, arrivals, error, i)) <==>
            !Wins(t, p, index, arrivals[0].datagram) && exists i :: BreaksAt(t, p, index, arrivals[1..], error, i)
  {
    if i: nat :| BreaksAt(t, p, index, arrivals, error, i) {
      assert BreaksAt(t, p, index, arrivals[1..], error, i - 1);
    }
    if i: nat :| BreaksAt(t, p, index, arrivals[1..], error, i) {
      if !Wins(t, p, index, arrivals[0].datagram) {
        assert forall j | 1 <= j < i + 1 :: arrivals[j] == arrivals[1..][j - 1];
        assert BreaksAt(t, p, index, arrivals, error, i + 1);
      }
    }
  }

  /** The arrivals without the datagrams of anybody else. */
  function FromTarget(t: Target, arrivals: seq<Arrival>): seq<Arrival> {
    if arrivals == [] then []
    else
      (if arrivals[0].Got? && arrivals[0].datagram.from != t.address then [] else [arrivals[0]])
      + FromTarget(t, arrivals[1..])
  }

  /** Datagrams from other sources change nothing at all. */
  lemma {:induction false} StrangersIgnored(t: Target, p: Party, index: uint32, arrivals: seq<Arrival>, r: Reply)
    ensures Listen(t, p, index, FromTarget(t, arrivals), r) == Listen(t, p, index, arrivals, r)
    decreases |arrivals|
  {
    if arrivals != [] {
      var kept := FromTarget(t, arrivals);
      var rest := FromTarget(t, arrivals[1..]);
      if arrivals[0].Got? {
        StrangersIgnored(t, p, index, arrivals[1..], Noted(t, arrivals[0].datagram, r));
        if arrivals[0].datagram.from == t.address {
          assert kept == [arrivals[0]] + rest && kept[1..] == rest;
        } else {
          assert kept == rest;
        }
      } else {
        assert kept[0] == arrivals[0];
      }
    }
  }

  /** The attempt without the datagrams of anybody else. */
  function OnlyTarget(t: Target, round: Round): Round {
    round.(inputs := round.inputs.(arrivals := FromTarget(t, round.inputs.arrivals)))
  }

  function AllOnlyTarget(t: Target, rounds: seq<Round>): seq<Round> {
    seq(|rounds|, i requires 0 <= i < |rounds| => OnlyTarget(t, rounds[i]))
  }

  /** Nor do they change the outcome of the whole probe, or the number of its attempts. */
  lemma {:induction false} ProbeIgnoresStrangers(t: Target, rounds: seq<Round>, per: int, left: int, r: Reply)
    ensures Attempts(t, AllOnlyTarget(t, rounds), per, left, r) == Attempts(t, rounds, per, left, r)
    decreases |rounds|
  {
    if rounds != [] {
      var inputs := rounds[0].inputs;
      var w := InitiatorWrites(t.ours, inputs.e, t.peerPublic, t.psk, inputs.timestamp);
      if w.Some? {
        StrangersIgnored(t, w.value.0, inputs.index, inputs.arrivals, r);
      }
      var r' := Once(t, inputs, r).0;
      assert Once(t, OnlyTarget(t, rounds[0]).inputs, r).0 == r';
      assert AllOnlyTarget(t, rounds)[1..] == AllOnlyTarget(t, rounds[1..]);
      ProbeIgnoresStrangers(t, rounds[1..], per, left - Took(rounds[0], per), r');
    }
  }

  /** Round `k` is within the time left, its initiation went out, and its `i`-th arrival won. */
  ghost predicate RoundWins(t: Target, rounds: seq<Round>, per: int, left: int, k: nat, i: nat) {
    && k < |rounds|
    && (k > 0 ==> Elapsed(rounds[..k], per) < left)
    && var inputs := rounds[k].inputs;
       var w := InitiatorWrites(t.ours, inputs.e, t.peerPublic, t.psk, inputs.timestamp);
       && w.Some? && inputs.sendError.None?
       && WinsAt(t, w.value.0, inputs.index, inputs.arrivals, i)
  }

  /** A success comes from a winning datagram in the last attempt made. */
  lemma {:induction false} SuccessHasWinner(t: Target, rounds: seq<Round>, per: int, left: int, r: Reply)
    returns (i: nat)
    requires !r.alive && Attempts(t, rounds, per, left, r).0.alive
    ensures var (r', n) := Attempts(t, rounds, per, left, r);
      && 0 < n <= |rounds|
      && RoundWins(t, rounds, per, left, n - 1, i)
      && r' == Reply(true, true, RESPONSE_TYPE, RESPONSE_SIZE)
    decreases |rounds|
  {
    var inputs := rounds[0].inputs;
    var r1 := Once(t, inputs, r).0;
    if r1.alive {
      var w := InitiatorWrites(t.ours, inputs.e, t.peerPublic, t.psk, inputs.timestamp);
      i := AliveHasWinner(t, w.value.0, inputs.index, inputs.arrivals, r);
    } else {
      var left' := left - Took(rounds[0], per);
      i := SuccessHasWinner(t, rounds[1..], per, left', r1);
      var n := Attempts(t, rounds[1..], per, left', r1).1;
      ElapsedStep(rounds, per, n);
    }
  }

  /** A winning datagram in any attempt that is reached makes the probe succeed. */
  lemma {:induction false} WinnerMakesSuccess(t: Target, rounds: seq<Round>, per: int, left: int, r: Reply,
                                              k: nat, i: nat)
    requires RoundWins(t, rounds, per, left, k, i)
    ensures Attempts(t, rounds, per, left, r).0.alive
    decreases |rounds|
  {
    var inputs := rounds[0].inputs;
    var r1 := Once(t, inputs, r).0;
    if k == 0 {
      var w := InitiatorWrites(t.ours, inputs.e, t.peerPublic, t.psk, inputs.timestamp);
      WinnerSetsAlive(t, w.value.0, inputs.index, inputs.arrivals, r, i);
    } else if !r1.alive {
      ElapsedStep(rounds, per, k);
      WinnerMakesSuccess(t, rounds[1..], per, left - Took(rounds[0], per), r1, k - 1, i);
    }
  }

  // ---------------------------------------------------------------------------
  // What Alive proves
  // ---------------------------------------------------------------------------

  /** The adversary can put this datagram together. */
  datatype Forged = Forged(ephemeral: Recipe, empty: Recipe)

  ghost predicate MadeBy(w: Attempt, f: Forged, d: Datagram) {
    Eval(w, f.ephemeral) == Some(d.body.ephemeral) && Eval(w, f.empty) == Some(d.body.empty)
  }

  /**
   If the adversary computed everything that arrived in an attempt and the attempt
   still succeeded, then the peer itself answered this very initiation.
  */
  lemma AliveMeansPeerAnswered(w: Attempt, t: Target, inputs: Inputs, forged: seq<Forged>, r: Reply)
    returns (i: nat, q: Query)
    requires w.Sane() && !r.alive
    requires t.ours == w.ours && t.peerPublic == PublicKey(w.peer) && t.psk == Data(w.psk)
    requires inputs.e == w.e && inputs.timestamp == Data(w.timestamp)
    requires |forged| == |inputs.arrivals|
    requires forall i | 0 <= i < |forged| && inputs.arrivals[i].Got? ::
               MadeBy(w, forged[i], inputs.arrivals[i].datagram)
    requires Once(t, inputs, r).0.alive
    ensures i < |forged| && q in Queries(w, forged[i].empty)
    ensures q.fields == w.Fields() && q.psk == Data(w.psk)
    ensures Ask(w.peer, q).Some?
    ensures inputs.arrivals[i].Got? && inputs.arrivals[i].datagram.body.empty in Ask(w.peer, q).value
  {
    InitiatorWritesUnrolled(t.ours, inputs.e, t.peerPublic, t.psk, inputs.timestamp);
    var p := w.Written().0;
    i := AliveHasWinner(t, p, inputs.index, inputs.arrivals, r);
    var body := inputs.arrivals[i].datagram.body;
    var plain := Response(RESPONSE_TYPE, (0, 0, 0), 0, 0, body.ephemeral, body.empty, Nil, Nil);
    assert plain.Fields() == body.Fields();
    q := Agreement(w, forged[i].ephemeral, forged[i].empty);
  }

  // ---------------------------------------------------------------------------
  // How long it takes
  // ---------------------------------------------------------------------------

  lemma {:induction false} ElapsedShares(rounds: seq<Round>, per: int)
    ensures Elapsed(rounds, per) <= |rounds| * (if per > 0 then per else 0)
  {
    if rounds != [] {
      ElapsedShares(rounds[1..], per);
    }
  }

  lemma SharesFit(total: int, count: nat, made: nat)
    requires made <= count && count > 0
    ensures var per := Quotient(total, count);
      made * (if per > 0 then per else 0) <= if total > 0 then total else 0
  {
    var per := Quotient(total, count);
    if per > 0 {
      assert total == count * per + total % count;
      MoreIsMore(made, count, per);
    }
  }

  /** The attempts alone never wait longer than the whole timeout, whatever it is and however many they are. */
  lemma WaitsWithinTimeout(t: Target, timeoutMs: int, attempts: int, left: int, rounds: seq<Round>, r: Reply)
    requires |rounds| == AttemptCount(attempts)
    ensures var per := Quotient(Total(timeoutMs), AttemptCount(attempts));
      var made := Attempts(t, rounds, per, left, r).1;
      && made <= |rounds|
      && Elapsed(rounds[..made], per) <= if Total(timeoutMs) > 0 then Total(timeoutMs) else 0
  {
    var per := Quotient(Total(timeoutMs), AttemptCount(attempts));
    var made := Attempts(t, rounds, per, left, r).1;
    ElapsedShares(rounds[..made], per);
    SharesFit(Total(timeoutMs), AttemptCount(attempts), made);
  }

  /** Each attempt but the first starts within the time left, so the last one overruns it by less than its share. */
  lemma {:induction false} OverrunBelowShare(t: Target, rounds: seq<Round>, per: int, left: int, r: Reply)
    requires rounds != []
    ensures var made := Attempts(t, rounds, per, left, r).1;
      && 0 < made <= |rounds|
      && Elapsed(rounds[..made], per) <= (if left > 0 then left else 0) + (if per > 0 then per else 0)
      && (left > 0 && per > 0 ==> Elapsed(rounds[..made], per) < left + per)
    decreases |rounds|
  {
    var made := Attempts(t, rounds, per, left, r).1;
    var r' := Once(t, rounds[0].inputs, r).0;
    var left' := left - Took(rounds[0], per);
    if r'.alive || left' <= 0 || |rounds| == 1 {
      assert |rounds| == 1 ==> Attempts(t, rounds[1..], per, left', r').1 == 0;
      ElapsedStep(rounds, per, 1);
    } else {
      OverrunBelowShare(t, rounds[1..], per, left', r');
      ElapsedStep(rounds, per, made);
    }
  }

  /**
   The whole probe: the noise is paid for out of the context's time but not out of
   the shares, so what it took can put the last attempt past the timeout, and by
   less than one share.
  */
  lemma ProbeTime(t: Target, timeoutMs: int, attempts: int, noise: nat, rounds: seq<Round>)
    requires |rounds| == AttemptCount(attempts)
    ensures var total := Total(timeoutMs);
      var per := Quotient(total, AttemptCount(attempts));
      var made := Attempts(t, rounds, per, total - noise, NOTHING).1;
      && 0 < made <= |rounds|
      && var elapsed := noise + Elapsed(rounds[..made], per);
      && elapsed <= (if noise < total then total else noise) + (if per > 0 then per else 0)
      && elapsed <= noise + (if total > 0 then total else 0)
  {
    var total := Total(timeoutMs);
    var per := Quotient(total, AttemptCount(attempts));
    OverrunBelowShare(t, rounds, per, total - noise, NOTHING);
    WaitsWithinTimeout(t, timeoutMs, attempts, total - noise, rounds, NOTHING);
  }

  // ---------------------------------------------------------------------------
  // A silent endpoint
  // ---------------------------------------------------------------------------

  /** Nothing wins, and every attempt listens for its whole share. */
  ghost predicate Silent(t: Target, rounds: seq<Round>, per: int) {
    forall i | 0 <= i < |rounds| :: rounds[i].lasts >= per && rounds[i].inputs.arrivals == []
  }

  /** Attempts go on until the time is up or there are none left. */
  lemma {:induction false} SilentAttempts(t: Target, rounds: seq<Round>, per: int, left: int, r: Reply)
    requires per > 0 && left > 0 && rounds != [] && !r.alive && Silent(t, rounds, per)
    ensures var (r', made) := Attempts(t, rounds, per, left, r);
      && !r'.alive
      && 0 < made <= |rounds|
      && Elapsed(rounds[..made], per) == made * per
      && (made - 1) * per < left
      && (made == |rounds| || made * per >= left)
    decreases |rounds|
  {
    var r1 := Once(t, rounds[0].inputs, r).0;
    assert !r1.alive && Took(rounds[0], per) == per;
    var made := Attempts(t, rounds, per, left, r).1;
    if left - per <= 0 || |rounds| == 1 {
      assert |rounds| == 1 ==> Attempts(t, rounds[1..], per, left - per, r1) == (r1, 0);
      ElapsedStep(rounds, per, 1);
    } else {
      SilentAttempts(t, rounds[1..], per, left - per, r1);
      ElapsedStep(rounds, per, made);
      Distribute(1, made - 1, per);
      Distribute(1, made - 2, per);
    }
  }

  /**
   So against a silent endpoint the probe keeps to its timeout exactly when the
   noise leaves some of it, and then room for all the shares or for a whole number.
  */
  lemma SilentProbeOverruns(t: Target, timeoutMs: int, attempts: int, noise: nat, rounds: seq<Round>)
    requires |rounds| == AttemptCount(attempts)
    requires var per := Quotient(Total(timeoutMs), AttemptCount(attempts)); per > 0 && Silent(t, rounds, per)
    ensures var total := Total(timeoutMs);
      var per := Quotient(total, AttemptCount(attempts));
      var made := Attempts(t, rounds, per, total - noise, NOTHING).1;
      made <= |rounds| &&
      (noise + Elapsed(rounds[..made], per) <= total <==>
       noise < total && (noise + |rounds| * per <= total || (total - noise) % per == 0))
  {
    var total := Total(timeoutMs);
    var per := Quotient(total, AttemptCount(attempts));
    var made := Attempts(t, rounds, per, total - noise, NOTHING).1;
    if noise < total {
      SilentAttempts(t, rounds, per, total - noise, NOTHING);
      FirstMultiple(made, |rounds|, per, total - noise);
    } else {
      assert made == 1;
      ElapsedStep(rounds, per, 1);
    }
  }

  /** With the default timeout and attempts, the 25 ms of the default burst are enough. */
  lemma DefaultProbeOverruns(t: Target, rounds: seq<Round>)
    requires |rounds| == 2 && Silent(t, rounds, 4_000_000_000)
    ensures var made := Attempts(t, rounds, 4_000_000_000, Total(0) - 25_000_000, NOTHING).1;
      made <= |rounds| && 25_000_000 + Elapsed(rounds[..made], 4_000_000_000) > Total(0)
  {
    assert Quotient(Total(0), AttemptCount(0)) == 4_000_000_000;
    SilentProbeOverruns(t, 0, 0, 25_000_000, rounds);
  }

  // ---------------------------------------------------------------------------
  // Any endpoint
  // ---------------------------------------------------------------------------

  /** How long the attempts go on that a probe makes. */
  function Waited(t: Target, rounds: seq<Round>, per: int, left: int): nat {
    Elapsed(rounds[..Attempts(t, rounds, per, left, NOTHING).1], per)
  }

  /** The time that must be left so that the attempts cannot overrun it. */
  function Needed(count: nat, per: int): nat {
    if per >= 2 then count * per else if per == 1 then 1 else 0
  }

  /** With that much left, no endpoint makes them overrun. */
  lemma NeededSuffices(t: Target, rounds: seq<Round>, per: int, left: int)
    requires rounds != [] && Needed(|rounds|, per) <= left
    ensures Waited(t, rounds, per, left) <= left
  {
    var made := Attempts(t, rounds, per, left, NOTHING).1;
    ElapsedShares(rounds[..made], per);
    if per >= 2 {
      MoreIsMore(made, |rounds|, per);
    } else {
      OverrunBelowShare(t, rounds, per, left, NOTHING);
    }
  }

  function Quiet(lasts: nat): Round {
    Round(Inputs(0, Nil, 0, None, []), lasts)
  }

  /** A silent endpoint whose first attempt may be cut short. */
  function QuietRounds(count: nat, first: nat, per: nat): seq<Round>
    requires count > 0
  {
    [Quiet(first)] + seq(count - 1, _ => Quiet(per))
  }

  /** With less, some endpoint does: a silent one, or one that spoils the first attempt's last nanosecond. */
  lemma NeededIsNecessary(t: Target, count: nat, per: int, left: int) returns (rounds: seq<Round>)
    requires count > 0 && left < Needed(count, per)
    ensures |rounds| == count && Waited(t, rounds, per, left) > left
  {
    if per <= 0 {
      rounds := QuietRounds(count, 0, 0);
    } else if left > 0 && left % per == 0 {
      rounds := QuietRounds(count, per - 1, per);
      ShortFirstOverruns(t, count, per, left);
    } else {
      rounds := QuietRounds(count, per, per);
      AllFullOverruns(t, count, per, left);
    }
  }

  /** When the shares do not fit a whole number of times, the last one crosses the bound. */
  lemma AllFullOverruns(t: Target, count: nat, per: int, left: int)
    requires count > 0 && per > 0 && left < Needed(count, per) && (left > 0 ==> left % per != 0)
    ensures Waited(t, QuietRounds(count, per, per), per, left) > left
  {
    var rounds := QuietRounds(count, per, per);
    var made := Attempts(t, rounds, per, left, NOTHING).1;
    if left > 0 {
      SilentAttempts(t, rounds, per, left, NOTHING);
      FirstMultiple(made, count, per, left);
    } else {
      assert made == 1;
      ElapsedStep(rounds, per, 1);
    }
  }

  /** When they do, a first attempt shorter by one nanosecond makes the last one cross it. */
  lemma ShortFirstOverruns(t: Target, count: nat, per: int, left: int)
    requires count > 0 && per >= 2 && 0 < left < count * per && left % per == 0
    ensures Waited(t, QuietRounds(count, per - 1, per), per, left) > left
  {
    var rounds := QuietRounds(count, per - 1, per);
    MultipleGap(count, per, left);
    var left' := left - (per - 1);
    assert Took(rounds[0], per) == per - 1 && !Once(t, rounds[0].inputs, NOTHING).0.alive;
    var rest := rounds[1..];
    SilentAttempts(t, rest, per, left', Once(t, rounds[0].inputs, NOTHING).0);
    var made := Attempts(t, rest, per, left', Once(t, rounds[0].inputs, NOTHING).0).1;
    FirstMultiple(made, count - 1, per, left');
    assert Attempts(t, rounds, per, left, NOTHING).1 == made + 1;
    ElapsedStep(rounds, per, made + 1);
  }

  /** A multiple of the share below `count` shares is at least a share below. */
  lemma MultipleGap(count: nat, per: int, left: int)
    requires per >= 2 && 0 < left < count * per && left % per == 0
    ensures count >= 2 && per <= left && left + per <= count * per
    ensures (left - (per - 1)) % per == 1
    ensures (count - 1) * per == count * per - per
  {
    var q := left / per;
    assert left == q * per;
    if q >= count {
      MoreIsMore(count, q, per);
      assert false;
    }
    if q >= 1 {
      MoreIsMore(q + 1, count, per);
    }
    Distribute(q, 1, per);
    Distribute(count, -1, per);
    Distribute(q, -1, per);
    var n := left - (per - 1);
    assert n == (q - 1) * per + 1;
    DivisionUnique(n / per, n % per, q - 1, 1, per);
  }

  /**
   Whatever the endpoint does, the probe keeps to its timeout exactly when the noise
   leaves room for all the shares. (Where shares are of one nanosecond
   or none, there is nothing to cross the bound by, and time for one is enough.)
  */
  lemma TimeoutKeptExactly(t: Target, timeoutMs: int, attempts: int, noise: nat)
    ensures var total, count := Total(timeoutMs), AttemptCount(attempts);
      var per := Quotient(total, count);
      (forall rounds: seq<Round> | |rounds| == count :: noise + Waited(t, rounds, per, total - noise) <= total) <==>
      noise + Needed(count, per) <= total
  {
    var total, count := Total(timeoutMs), AttemptCount(attempts);
    KeptExactly(t, count, Quotient(total, count), noise, total);
  }

  lemma KeptExactly(t: Target, count: nat, per: int, noise: nat, total: int)
    requires count > 0
    ensures (forall rounds: seq<Round> | |rounds| == count :: noise + Waited(t, rounds, per, total - noise) <= total) <==>
            noise + Needed(count, per) <= total
  {
    if noise + Needed(count, per) <= total {
      forall rounds: seq<Round> | |rounds| == count
        ensures noise + Waited(t, rounds, per, total - noise) <= total
      {
        NeededSuffices(t, rounds, per, total - noise);
      }
    } else {
      var rounds := NeededIsNecessary(t, count, per, total - noise);
      assert noise + Waited(t, rounds, per, total - noise) > total;
    }
  }

  /** The room there is for noise: what is left over when the timeout is divided by the number of attempts. */
  lemma RoomIsRemainder(total: int, count: nat, noise: nat)
    requires count > 0 && Quotient(total, count) >= 2
    ensures noise + Needed(count, Quotient(total, count)) <= total <==> noise <= total % count
  {
    assert total == count * Quotient(total, count) + total % count;
  }

  /** What the two numbers of the options stand for, in nanoseconds and attempts. */
  lemma TimeoutMeans(timeoutMs: int, attempts: int)
    ensures 0 < timeoutMs <= 9_223_372_036_854 ==> Total(timeoutMs) == timeoutMs * 1_000_000
    ensures timeoutMs <= 0 ==> Total(timeoutMs) == 8_000_000_000
    ensures AttemptCount(attempts) == if attempts > 0 then attempts else 2
  {
  }

  /** The first multiple to reach a bound equals it exactly when it is a multiple itself. */
  lemma FirstMultiple(made: nat, most: nat, per: int, left: int)
    requires 0 < made <= most && per > 0 && left > 0
    requires (made - 1) * per < left && (made == most || made * per >= left)
    ensures made * per <= left <==> most * per <= left || left % per == 0
  {
    MoreIsMore(made, most, per);
    var q := left / per;
    assert left == q * per + left % per;
    if left % per == 0 && made * per > left {
      if q >= made {
        MoreIsMore(made, q, per);
      } else {
        MoreIsMore(q, made - 1, per);
      }
      assert false;
    }
    if made * per == left {
      MultipleDivides(made, per);
    }
  }
}
