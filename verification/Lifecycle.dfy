/** Starting and stopping the core: `RunLoop`, `StopLoop`, and the goroutines they leave behind. */
module Lifecycle {
  import opened Basics

  datatype Status = Running | Closed

  /** How far `pointloop` gets. */
  datatype Outcome = BadConfig | NewFails | StartFails | Starts

  // ---------------------------------------------------------------------------
  // The abstract machine, one step for each body that runs under the lock
  // ---------------------------------------------------------------------------

  /** Where a watcher goroutine stands: it reads the resolve and close channels when it first runs. */
  datatype Stage = Spawned | Armed(chan: nat) | Stopping | Done

  /**
   Every start makes a close channel and a resolve channel and spawns a watcher; all
   three get the number of the start. `closes` and `resolves` record which channels
   were closed, in order. `pending` counts resolver goroutines still at work, and
   `ready` says whether the dialer has a server.
  */
  datatype Life = Life(
    async: bool, running: bool, vpoint: bool, ready: bool, starts: nat, closes: seq<nat>, resolves: seq<nat>,
    statuses: seq<Status>, pending: nat, watchers: seq<Stage>, panicked: bool)

  function Fresh(async: bool): Life {
    Life(async, false, false, false, 0, [], [], [], 0, [], false)
  }

  datatype Op =
    | Run(outcome: Outcome, resolved: bool)
    | Stop
    | ResolverEnds(resolved: bool)
    | WatcherArms(watcher: nat)
    | WatcherWakes(watcher: nat)
    | WatcherLeaves(watcher: nat)
    | WatcherStops(watcher: nat)

  /** The number of the latest start, whose channels are the current ones. */
  function Latest(l: Life): nat {
    if l.starts == 0 then 0 else l.starts - 1
  }

  predicate Enabled(l: Life, op: Op) {
    match op
    case Run(_, _) => true
    case Stop => true
    case ResolverEnds(_) => l.pending > 0
    case WatcherArms(w) => w < |l.watchers| && l.watchers[w] == Spawned
    case WatcherWakes(w) => w < |l.watchers| && l.watchers[w].Armed? && l.watchers[w].chan in l.resolves
    case WatcherLeaves(w) => w < |l.watchers| && l.watchers[w].Armed? && l.watchers[w].chan in l.closes
    case WatcherStops(w) => w < |l.watchers| && l.watchers[w] == Stopping
  }

  function RunStep(l: Life, outcome: Outcome, resolved: bool): Life {
    if l.running then l else Launched(Prepared(l, resolved), outcome)
  }

  /** New channels and a watcher; with synchronous resolution the start resolves the server itself. */
  function Prepared(l: Life, resolved: bool): Life {
    var l1 := l.(starts := l.starts + 1, watchers := l.watchers + [Spawned]);
    if l.async then l1.(pending := l1.pending + 1)
    else l1.(resolves := l1.resolves + [l.starts], ready := l1.ready || resolved)
  }

  function Launched(l: Life, outcome: Outcome): Life {
    match outcome
    case BadConfig => l
    case NewFails => l.(vpoint := false)
    case StartFails => l.(vpoint := true)
    case Starts => l.(vpoint := true, running := true, statuses := l.statuses + [Running])
  }

  function StopStep(l: Life): Life {
    if !l.running then l
    else
      l.(closes := l.closes + [Latest(l)], running := false, vpoint := false, statuses := l.statuses + [Closed])
  }

  /** A resolver closes whatever resolve channel is the current one; closing a closed channel panics. */
  function ResolverStep(l: Life, resolved: bool): Life
    requires l.pending > 0
  {
    var l1 := l.(pending := l.pending - 1, ready := l.ready || resolved);
    if Latest(l) in l.resolves then l1.(panicked := true) else l1.(resolves := l1.resolves + [Latest(l)])
  }

  function Apply(l: Life, op: Op): Life
    requires Enabled(l, op)
  {
    match op
    case Run(outcome, resolved) => RunStep(l, outcome, resolved)
    case Stop => StopStep(l)
    case ResolverEnds(resolved) => ResolverStep(l, resolved)
    case WatcherArms(w) => l.(watchers := l.watchers[w := Armed(Latest(l))])
    case WatcherWakes(w) => l.(watchers := l.watchers[w := if l.ready then Done else Stopping])
    case WatcherLeaves(w) => l.(watchers := l.watchers[w := Done])
    case WatcherStops(w) => StopStep(l.(watchers := l.watchers[w := Done]))
  }

  ghost predicate Possible(l: Life, ops: seq<Op>)
    decreases |ops|
  {
    ops == [] || (Enabled(l, ops[0]) && Possible(Apply(l, ops[0]), ops[1..]))
  }

  ghost function After(l: Life, ops: seq<Op>): Life
    requires Possible(l, ops)
    decreases |ops|
  {
    if ops == [] then l else After(Apply(l, ops[0]), ops[1..])
  }

  // ---------------------------------------------------------------------------
  // The code under the lock
  // ---------------------------------------------------------------------------

  /** A channel that is only ever closed; closing it twice is a panic, hence the precondition. */
  class Channel {
    var closed: bool
    ghost const number: nat

    constructor (ghost number: nat)
      ensures !closed && this.number == number
    {
      closed := false;
      this.number := number;
    }

    method Close()
      requires !closed
      modifies this
      ensures closed
    {
      closed := true;
    }
  }

  class V2RayPoint {
    const asyncResolve: bool
    var isRunning: bool
    var vpoint: bool         // is there an instance
    var serverReady: bool    // has the dialer a server
    var closeChan: Channel?
    var resolveChan: Channel?
    ghost var life: Life

    /** The fields agree with the abstract machine, whose logs say which channels are closed. */
    ghost predicate Valid()
      reads this, closeChan, resolveChan
    {
      && life.async == asyncResolve && life.running == isRunning && life.vpoint == vpoint
      && life.ready == serverReady
      && Current(closeChan, life.closes) && Current(resolveChan, life.resolves)
      && (closeChan == null || closeChan != resolveChan)
      && (isRunning ==> vpoint && closeChan != null && !closeChan.closed)
    }

    /** The channel of the latest start, closed if the log says so. */
    ghost predicate Current(c: Channel?, closings: seq<nat>)
      reads this, c
    {
      && (c == null <==> life.starts == 0)
      && (c != null ==> c.number == life.starts - 1 && (c.closed <==> c.number in closings))
      && (forall n <- closings :: n < life.starts)
    }

    constructor (async: bool)
      ensures Valid() && life == Fresh(async)
    {
      asyncResolve := async;
      isRunning, vpoint, serverReady, closeChan, resolveChan := false, false, false, null, null;
      life := Fresh(async);
    }

    /** `resolved` says whether PrepareDomain finds a server, when it is called here. */
    method RunLoop(outcome: Outcome, resolved: bool) returns (err: Option<string>)
      requires Valid()
      modifies this
      ensures Valid() && life == RunStep(old(life), outcome, resolved)
      ensures err.Some? <==> !old(isRunning) && outcome != Starts
      ensures old(isRunning) ==> unchanged(this)
      ensures !old(isRunning) ==>
                && isRunning == (outcome == Starts)
                && vpoint == (if outcome == BadConfig then old(vpoint) else outcome != NewFails)
                && life.statuses == old(life.statuses) + (if outcome == Starts then [Running] else [])
                && serverReady == (old(serverReady) || (!asyncResolve && resolved))
                && fresh(closeChan) && !closeChan.closed
                && fresh(resolveChan) && resolveChan.closed == !asyncResolve
    {
      err := None;
      if !isRunning {
        MakeChannels();
        if asyncResolve {
          life := life.(pending := life.pending + 1);
        } else {
          ResolveNow(resolved);
        }
        err := PointLoop(outcome);
      }
    }

    /** The channels of a start, and its watcher. */
    method MakeChannels()
      requires Valid() && !isRunning
      modifies this
      ensures Valid() && !isRunning
      ensures closeChan != null && fresh(closeChan) && !closeChan.closed
      ensures resolveChan != null && fresh(resolveChan) && !resolveChan.closed
      ensures vpoint == old(vpoint) && serverReady == old(serverReady)
      ensures life == old(life).(starts := old(life).starts + 1, watchers := old(life).watchers + [Spawned])
    {
      closeChan := new Channel(life.starts);
      resolveChan := new Channel(life.starts);
      life := life.(starts := life.starts + 1, watchers := life.watchers + [Spawned]);
    }

    /** The call of PrepareDomain and the close that follows it. */
    method ResolveNow(resolved: bool)
      requires Valid() && resolveChan != null && !resolveChan.closed
      modifies this, resolveChan
      ensures Valid() && isRunning == old(isRunning)
      ensures closeChan == old(closeChan) && resolveChan == old(resolveChan)
      ensures closeChan != null ==> closeChan.closed == old(closeChan.closed)
      ensures resolveChan.closed && vpoint == old(vpoint) && serverReady == (old(serverReady) || resolved)
      ensures life == old(life).(resolves := old(life).resolves + [Latest(old(life))],
                                 ready := old(life).ready || resolved)
    {
      if resolved {
        serverReady := true;
      }
      resolveChan.Close();
      life := life.(resolves := life.resolves + [life.starts - 1], ready := life.ready || resolved);
    }

    /** `pointloop`; an instance whose start fails is kept. */
    method PointLoop(outcome: Outcome) returns (err: Option<string>)
      requires Valid() && !isRunning && closeChan != null && !closeChan.closed
      modifies this
      ensures Valid() && closeChan == old(closeChan) && resolveChan == old(resolveChan)
      ensures life == Launched(old(life), outcome)
      ensures err.Some? <==> outcome != Starts
      ensures isRunning <==> outcome == Starts
      ensures vpoint == (if outcome == BadConfig then old(vpoint) else outcome != NewFails)
      ensures life.statuses == old(life.statuses) + (if outcome == Starts then [Running] else [])
      ensures serverReady == old(serverReady)
      ensures closeChan.closed == old(closeChan.closed)
      ensures resolveChan != null ==> resolveChan.closed == old(resolveChan.closed)
    {
      if outcome == BadConfig {
        return Some("bad config");
      }
      if outcome == NewFails {
        vpoint := false;
        life := life.(vpoint := false);
        return Some("cannot create the instance");
      }
      vpoint := true;
      isRunning := true;
      life := life.(vpoint := true);
      if outcome == StartFails {
        isRunning := false;
        return Some("cannot start the instance");
      }
      life := life.(running := true, statuses := life.statuses + [Running]);
      return None;
    }

    method StopLoop()
      requires Valid()
      modifies this, closeChan
      ensures Valid() && life == StopStep(old(life))
      ensures !isRunning && closeChan == old(closeChan) && resolveChan == old(resolveChan)
      ensures serverReady == old(serverReady)
      ensures old(isRunning) ==> !vpoint && closeChan.closed && life.statuses == old(life.statuses) + [Closed]
      ensures !old(isRunning) ==> unchanged(this) && (closeChan != null ==> unchanged(closeChan))
    {
      if isRunning {
        closeChan.Close();
        ShutdownInit();
        life := life.(closes := life.closes + [life.starts - 1], running := false, vpoint := false,
                      statuses := life.statuses + [Closed]);
      }
    }

    /** `shutdownInit`; `Vpoint.Close` is called on the instance, so there must be one. */
    method ShutdownInit()
      requires vpoint
      modifies this`isRunning, this`vpoint
      ensures !isRunning && !vpoint
    {
      isRunning := false;
      vpoint := false;
    }
  }

  // ---------------------------------------------------------------------------
  // Every run
  // ---------------------------------------------------------------------------

  /** Running, Closed, Running, ... */
  ghost predicate Alternating(statuses: seq<Status>) {
    forall i | 0 <= i < |statuses| :: statuses[i] == (if i % 2 == 0 then Running else Closed)
  }

  ghost predicate Increasing(s: seq<nat>) {
    forall i, j | 0 <= i < j < |s| :: s[i] < s[j]
  }

  ghost predicate Inv(l: Life) {
    && Alternating(l.statuses)
    && l.running == (|l.statuses| % 2 == 1)
    && (l.running ==> l.vpoint && l.starts > 0 && Latest(l) !in l.closes)
    && Increasing(l.closes) && (forall n <- l.closes :: n < l.starts)
    && (forall n <- l.resolves :: n < l.starts)
    && |l.watchers| == l.starts
    && (forall w | 0 <= w < |l.watchers| && l.watchers[w].Armed? :: w <= l.watchers[w].chan < l.starts)
    && (l.pending > 0 ==> l.starts > 0)
    && (!l.async ==> l.pending == 0 && !l.panicked && l.resolves == seq(l.starts, i => i))
  }

  lemma StopKeeps(l: Life)
    requires Inv(l)
    ensures Inv(StopStep(l))
  {
    if l.running {
      var s := StopStep(l).closes;
      forall i, j | 0 <= i < j < |s|
        ensures s[i] < s[j]
      {
        assert l.closes[i] in l.closes;
      }
    }
  }

  lemma RunKeeps(l: Life, outcome: Outcome, resolved: bool)
    requires Inv(l)
    ensures Inv(RunStep(l, outcome, resolved))
  {
    if !l.running {
      PreparedKeeps(l, resolved);
      LaunchedKeeps(Prepared(l, resolved), outcome);
    }
  }

  lemma PreparedKeeps(l: Life, resolved: bool)
    requires Inv(l) && !l.running
    ensures var l1 := Prepared(l, resolved); Inv(l1) && !l1.running && l1.starts > 0 && Latest(l1) !in l1.closes
  {
    if !l.async {
      assert l.resolves + [l.starts] == seq(l.starts + 1, i => i);
    }
  }

  lemma LaunchedKeeps(l: Life, outcome: Outcome)
    requires Inv(l) && !l.running && l.starts > 0 && Latest(l) !in l.closes
    ensures Inv(Launched(l, outcome))
  {
  }

  lemma StepKeeps(l: Life, op: Op)
    requires Inv(l) && Enabled(l, op)
    ensures Inv(Apply(l, op))
  {
    match op
    case Run(outcome, resolved) => RunKeeps(l, outcome, resolved);
    case Stop => StopKeeps(l);
    case WatcherStops(w) => StopKeeps(l.(watchers := l.watchers[w := Done]));
    case ResolverEnds(_) =>
    case _ => WatcherKeeps(l, op);
  }

  /** The steps of a watcher up to its decision. */
  lemma WatcherKeeps(l: Life, op: Op)
    requires Inv(l) && Enabled(l, op) && (op.WatcherArms? || op.WatcherWakes? || op.WatcherLeaves?)
    ensures Inv(Apply(l, op))
  {
  }

  lemma {:induction false} RunsKeep(l: Life, ops: seq<Op>)
    requires Inv(l) && Possible(l, ops)
    ensures Inv(After(l, ops))
    decreases |ops|
  {
    if ops != [] {
      StepKeeps(l, ops[0]);
      RunsKeep(Apply(l, ops[0]), ops[1..]);
    }
  }

  /**
   For every interleaving of starts, stops, resolvers and watchers: the statuses
   emitted alternate, starting with Running; while the lock is free a running core
   has an instance and an open close channel; and no close channel is closed twice.
  */
  lemma LifecycleSafe(async: bool, ops: seq<Op>)
    requires Possible(Fresh(async), ops)
    ensures var l := After(Fresh(async), ops);
      && Alternating(l.statuses)
      && (l.running <==> |l.statuses| % 2 == 1)
      && (l.running ==> l.vpoint && Latest(l) !in l.closes)
      && (forall i, j | 0 <= i < j < |l.closes| :: l.closes[i] != l.closes[j])
  {
    assert seq(0, (i: nat) => i) == [];
    RunsKeep(Fresh(async), ops);
  }

  lemma ReachesInv(async: bool, ops: seq<Op>)
    requires Possible(Fresh(async), ops)
    ensures Inv(After(Fresh(async), ops)) && After(Fresh(async), ops).async == async
  {
    assert seq(0, (i: nat) => i) == [];
    RunsKeep(Fresh(async), ops);
    AsyncFixed(Fresh(async), ops);
  }

  /**
   With synchronous resolution each start's resolve channel is closed exactly once,
   in order, nothing ever panics, and no watcher is left waiting: whenever the lock
   is free the channel it waits for has been closed.
  */
  lemma SyncResolvesOnce(ops: seq<Op>)
    requires Possible(Fresh(false), ops)
    ensures var l := After(Fresh(false), ops);
      && l.resolves == seq(l.starts, i => i)
      && !l.panicked
      && (forall w: nat | w < |l.watchers| && l.watchers[w].Armed? :: l.watchers[w].chan in l.resolves)
  {
    ReachesInv(false, ops);
    var l := After(Fresh(false), ops);
    forall w: nat | w < |l.watchers| && l.watchers[w].Armed?
      ensures l.watchers[w].chan in l.resolves
    {
      assert l.resolves[l.watchers[w].chan] == l.watchers[w].chan;
    }
  }

  lemma {:induction false} AsyncFixed(l: Life, ops: seq<Op>)
    requires Possible(l, ops)
    ensures After(l, ops).async == l.async
    decreases |ops|
  {
    if ops != [] {
      AsyncFixed(Apply(l, ops[0]), ops[1..]);
    }
  }

  // ---------------------------------------------------------------------------
  // Which starts run
  // ---------------------------------------------------------------------------

  function CountRunning(statuses: seq<Status>): nat {
    if statuses == [] then 0
    else CountRunning(statuses[..|statuses| - 1]) + (if statuses[|statuses| - 1] == Running then 1 else 0)
  }

  /** The starts made whose instance starts. */
  ghost function StartedCount(l: Life, ops: seq<Op>): nat
    requires Possible(l, ops)
    decreases |ops|
  {
    if ops == [] then 0
    else (if ops[0].Run? && !l.running && ops[0].outcome == Starts then 1 else 0) + StartedCount(Apply(l, ops[0]), ops[1..])
  }

  /** In every run Running is reported once for each start whose instance starts, and never for another. */
  lemma {:induction false} RunningCounted(l: Life, ops: seq<Op>)
    requires Possible(l, ops)
    ensures CountRunning(After(l, ops).statuses) == CountRunning(l.statuses) + StartedCount(l, ops)
    decreases |ops|
  {
    if ops != [] {
      RunningStep(l, ops[0]);
      RunningCounted(Apply(l, ops[0]), ops[1..]);
    }
  }

  lemma RunningStep(l: Life, op: Op)
    requires Enabled(l, op)
    ensures CountRunning(Apply(l, op).statuses) ==
            CountRunning(l.statuses) + (if op.Run? && !l.running && op.outcome == Starts then 1 else 0)
  {
    assert (l.statuses + [Running])[..|l.statuses|] == l.statuses;
    assert (l.statuses + [Closed])[..|l.statuses|] == l.statuses;
  }

  /** What a start leaves: running only if the instance starts, and an instance unless it could not be made. */
  lemma StartLeaves(l: Life, outcome: Outcome, resolved: bool)
    requires !l.running
    ensures var l' := RunStep(l, outcome, resolved);
      && l'.running == (outcome == Starts)
      && l'.vpoint == (match outcome case BadConfig => l.vpoint case NewFails => false case _ => true)
      && l'.starts == l.starts + 1 && l'.closes == l.closes
  {
  }

  // ---------------------------------------------------------------------------
  // Watchers
  // ---------------------------------------------------------------------------

  /** The operation makes a new start. */
  predicate Launches(l: Life, op: Op) {
    op.Run? && !l.running
  }

  ghost function LaunchCount(l: Life, ops: seq<Op>): nat
    requires Possible(l, ops)
    decreases |ops|
  {
    if ops == [] then 0
    else (if Launches(l, ops[0]) then 1 else 0) + LaunchCount(Apply(l, ops[0]), ops[1..])
  }

  lemma {:induction false} StartsCounted(l: Life, ops: seq<Op>)
    requires Possible(l, ops)
    ensures After(l, ops).starts == l.starts + LaunchCount(l, ops)
    decreases |ops|
  {
    if ops != [] {
      StartsCounted(Apply(l, ops[0]), ops[1..]);
    }
  }

  /**
   From the moment of start `w` on: when its watcher stops the core, it closes the
   channel of its own start exactly when no start was made in between; otherwise it
   stops the latest one.
  */
  lemma WatcherStopsOwn(l: Life, ops: seq<Op>, w: nat)
    requires Inv(l) && l.starts == w + 1 && Possible(l, ops)
    requires Enabled(After(l, ops), WatcherStops(w)) && After(l, ops).running
    ensures var l1 := After(l, ops);
      && Apply(l1, WatcherStops(w)).closes == l1.closes + [w + LaunchCount(l, ops)]
      && (Apply(l1, WatcherStops(w)).closes == l1.closes + [w] <==> LaunchCount(l, ops) == 0)
  {
    StartsCounted(l, ops);
    var l1 := After(l, ops);
    var closes := Apply(l1, WatcherStops(w)).closes;
    assert closes[|l1.closes|] == w + LaunchCount(l, ops);
  }

  /** Likewise when it first runs: it waits on its own channels exactly when no start was made in between. */
  lemma WatcherArmsOwn(l: Life, ops: seq<Op>, w: nat)
    requires Inv(l) && l.starts == w + 1 && Possible(l, ops)
    requires Enabled(After(l, ops), WatcherArms(w))
    ensures Apply(After(l, ops), WatcherArms(w)).watchers[w] == Armed(w + LaunchCount(l, ops))
  {
    StartsCounted(l, ops);
  }

  /** Some resolution has found a server. */
  ghost predicate Found(l: Life, ops: seq<Op>)
    requires Possible(l, ops)
    decreases |ops|
  {
    ops != [] &&
    (|| (Launches(l, ops[0]) && !l.async && ops[0].resolved)
     || (ops[0].ResolverEnds? && ops[0].resolved)
     || Found(Apply(l, ops[0]), ops[1..]))
  }

  lemma {:induction false} ReadyIfFound(l: Life, ops: seq<Op>)
    requires Possible(l, ops)
    ensures After(l, ops).ready <==> l.ready || Found(l, ops)
    decreases |ops|
  {
    if ops != [] {
      ReadyIfFound(Apply(l, ops[0]), ops[1..]);
    }
  }

  /**
   A watcher that wakes goes on to stop the core exactly when no resolution of any
   start has found a server: one success, and later failures are not acted on.
  */
  lemma WatchdogExactly(async: bool, ops: seq<Op>, w: nat)
    requires Possible(Fresh(async), ops) && Enabled(After(Fresh(async), ops), WatcherWakes(w))
    ensures Apply(After(Fresh(async), ops), WatcherWakes(w)).watchers[w] == Stopping <==> !Found(Fresh(async), ops)
  {
    ReadyIfFound(Fresh(async), ops);
  }

  /** Once a server has been found, only a watcher that had decided before can still stop the core. */
  lemma {:induction false} NoNewStops(l: Life, ops: seq<Op>, w: nat)
    requires Possible(l, ops) && l.ready
    requires w < |After(l, ops).watchers| && After(l, ops).watchers[w] == Stopping
    ensures w < |l.watchers| && l.watchers[w] == Stopping
    decreases |ops|
  {
    if ops != [] {
      NoNewStops(Apply(l, ops[0]), ops[1..], w);
    }
  }

  // ---------------------------------------------------------------------------
  // Runs that show what can happen
  // ---------------------------------------------------------------------------

  /** One more step in front of a run. */
  lemma Before(l: Life, op: Op, ops: seq<Op>)
    requires Enabled(l, op) && Possible(Apply(l, op), ops)
    ensures Possible(l, [op] + ops) && After(l, [op] + ops) == After(Apply(l, op), ops)
  {
    assert ([op] + ops)[1..] == ops;
  }

  /** A watcher that has decided is overtaken by a stop and a start, and stops the new core, whose server is known. */
  lemma StaleWatcherStops()
    ensures var ops := [Run(Starts, false)] + ([WatcherArms(0)] + ([WatcherWakes(0)] + ([Stop]
                       + ([Run(Starts, true)] + ([WatcherStops(0)] + [])))));
      && Possible(Fresh(false), ops)
      && var l := After(Fresh(false), ops);
         && l.ready && !l.running && l.closes == [0, 1] && l.statuses == [Running, Closed, Running, Closed]
  {
    var l0 := Fresh(false);
    var l1 := RunStep(l0, Starts, false);
    var l2 := Apply(l1, WatcherArms(0));
    var l3 := Apply(l2, WatcherWakes(0));
    var l4 := StopStep(l3);
    var l5 := RunStep(l4, Starts, true);
    Before(l5, WatcherStops(0), []);
    Before(l4, Run(Starts, true), [WatcherStops(0)] + []);
    Before(l3, Stop, [Run(Starts, true)] + ([WatcherStops(0)] + []));
    Before(l2, WatcherWakes(0), [Stop] + ([Run(Starts, true)] + ([WatcherStops(0)] + [])));
    Before(l1, WatcherArms(0), [WatcherWakes(0)] + ([Stop] + ([Run(Starts, true)] + ([WatcherStops(0)] + []))));
    Before(l0, Run(Starts, false), [WatcherArms(0)] + ([WatcherWakes(0)] + ([Stop]
           + ([Run(Starts, true)] + ([WatcherStops(0)] + [])))));
  }

  /** A start whose own resolution fails, whose watcher wakes and finds an earlier server: the core keeps running. */
  lemma UnresolvedStartKept()
    ensures var ops := [Run(Starts, true)] + ([Stop] + ([Run(Starts, false)]
                       + ([WatcherArms(1)] + ([WatcherWakes(1)] + []))));
      && Possible(Fresh(false), ops)
      && var l := After(Fresh(false), ops);
         l.running && l.starts == 2 && l.watchers == [Spawned, Done]
  {
    var l0 := Fresh(false);
    var l1 := RunStep(l0, Starts, true);
    var l2 := StopStep(l1);
    var l3 := RunStep(l2, Starts, false);
    var l4 := Apply(l3, WatcherArms(1));
    var wakes := [WatcherWakes(1)] + [];
    Before(l4, WatcherWakes(1), []);
    Before(l3, WatcherArms(1), wakes);
    Before(l2, Run(Starts, false), [WatcherArms(1)] + wakes);
    Before(l1, Stop, [Run(Starts, false)] + ([WatcherArms(1)] + wakes));
    Before(l0, Run(Starts, true), [Stop] + ([Run(Starts, false)] + ([WatcherArms(1)] + wakes)));
  }

  /** A start, a stop and another start before the first lookup is done: a resolve channel is closed twice. */
  lemma AsyncDoubleClose()
    ensures var ops := [Run(Starts, false)] + ([Stop] + ([Run(Starts, false)]
                       + ([ResolverEnds(true)] + ([ResolverEnds(true)] + []))));
      Possible(Fresh(true), ops) && After(Fresh(true), ops).panicked
  {
    var l0 := Fresh(true);
    var l1 := RunStep(l0, Starts, false);
    var l2 := StopStep(l1);
    var l3 := RunStep(l2, Starts, false);
    var l4 := ResolverStep(l3, true);
    var ends := [ResolverEnds(true)] + [];
    Before(l4, ResolverEnds(true), []);
    Before(l3, ResolverEnds(true), ends);
    Before(l2, Run(Starts, false), [ResolverEnds(true)] + ends);
    Before(l1, Stop, [Run(Starts, false)] + ([ResolverEnds(true)] + ends));
    Before(l0, Run(Starts, false), [Stop] + ([Run(Starts, false)] + ([ResolverEnds(true)] + ends)));
  }

  // ---------------------------------------------------------------------------
  // Asynchronous resolution
  // ---------------------------------------------------------------------------

  /** At some point a start is made while a resolver of an earlier one is at work. */
  ghost predicate Overlaps(l: Life, ops: seq<Op>)
    requires Possible(l, ops)
    decreases |ops|
  {
    ops != [] && ((Launches(l, ops[0]) && l.pending > 0) || Overlaps(Apply(l, ops[0]), ops[1..]))
  }

  /** The current resolve channel has not been closed. */
  predicate Open(l: Life) {
    Latest(l) !in l.resolves
  }

  /** There is a resolver more than there are channels for them to close. */
  predicate Crowded(l: Life) {
    l.pending >= (if Open(l) then 2 else 1)
  }

  /** One resolver too many never goes away: it ends in a panic or is still at work. */
  lemma {:induction false} CrowdedStays(l: Life, ops: seq<Op>)
    requires Inv(l) && l.async && Possible(l, ops) && (Crowded(l) || l.panicked)
    ensures Crowded(After(l, ops)) || After(l, ops).panicked
    decreases |ops|
  {
    if ops != [] {
      StepKeeps(l, ops[0]);
      CrowdedStep(l, ops[0]);
      CrowdedStays(Apply(l, ops[0]), ops[1..]);
    }
  }

  lemma CrowdedStep(l: Life, op: Op)
    requires Inv(l) && l.async && Enabled(l, op) && (Crowded(l) || l.panicked)
    ensures Crowded(Apply(l, op)) || Apply(l, op).panicked
  {
    assert l.starts !in l.resolves;
  }

  /** Without an overlap there is never one too many. */
  lemma {:induction false} AloneStays(l: Life, ops: seq<Op>)
    requires Inv(l) && l.async && Possible(l, ops) && !Crowded(l) && !l.panicked
    ensures Overlaps(l, ops) || !After(l, ops).panicked
    decreases |ops|
  {
    if ops != [] && !Overlaps(l, ops) {
      assert l.starts !in l.resolves;
      StepKeeps(l, ops[0]);
      AloneStays(Apply(l, ops[0]), ops[1..]);
    }
  }

  lemma {:induction false} OverlapCrowds(l: Life, ops: seq<Op>)
    requires Inv(l) && l.async && Possible(l, ops) && Overlaps(l, ops)
    ensures Crowded(After(l, ops)) || After(l, ops).panicked
    decreases |ops|
  {
    StepKeeps(l, ops[0]);
    var l' := Apply(l, ops[0]);
    if Launches(l, ops[0]) && l.pending > 0 {
      assert l.starts !in l.resolves;
      CrowdedStays(l', ops[1..]);
    } else {
      OverlapCrowds(l', ops[1..]);
    }
  }

  /**
   Every run with asynchronous resolution: a resolve channel is closed twice only if
   some start was made while an earlier resolver was at work; and if one was, then by
   the time all resolvers have finished it has happened, whatever was done in between.
  */
  lemma AsyncSafeExactly(ops: seq<Op>)
    requires Possible(Fresh(true), ops)
    ensures var l := After(Fresh(true), ops);
      && (l.panicked ==> Overlaps(Fresh(true), ops))
      && (l.pending == 0 ==> (l.panicked <==> Overlaps(Fresh(true), ops)))
  {
    ReachesInv(true, ops);
    assert Inv(Fresh(true));
    AloneStays(Fresh(true), ops);
    if Overlaps(Fresh(true), ops) {
      OverlapCrowds(Fresh(true), ops);
    }
  }

  // ---------------------------------------------------------------------------
  // Who waits for a channel that is never closed
  // ---------------------------------------------------------------------------

  /** An earlier start's resolve channel that has not been closed. */
  predicate Lost(l: Life, chan: nat) {
    chan + 1 < l.starts && chan !in l.resolves
  }

  /** It never will be: resolvers only close the current one. */
  lemma {:induction false} LostForEver(l: Life, ops: seq<Op>, chan: nat)
    requires Inv(l) && l.async && Possible(l, ops) && Lost(l, chan)
    ensures Lost(After(l, ops), chan)
    decreases |ops|
  {
    if ops != [] {
      StepKeeps(l, ops[0]);
      LostStep(l, ops[0], chan);
      LostForEver(Apply(l, ops[0]), ops[1..], chan);
    }
  }

  lemma LostStep(l: Life, op: Op, chan: nat)
    requires Inv(l) && l.async && Enabled(l, op) && Lost(l, chan)
    ensures Lost(Apply(l, op), chan)
  {
  }

  /** Every earlier channel is closed, and the current one by the time its resolver is done. */
  ghost predicate Tidy(l: Life) {
    && (forall chan: nat | chan + 1 < l.starts :: chan in l.resolves)
    && (l.pending == 0 && l.starts > 0 ==> Latest(l) in l.resolves)
  }

  lemma {:induction false} TidyStays(l: Life, ops: seq<Op>)
    requires Inv(l) && l.async && Possible(l, ops) && !Overlaps(l, ops)
    requires Tidy(l) && !Crowded(l) && !l.panicked
    ensures Tidy(After(l, ops))
    decreases |ops|
  {
    if ops != [] {
      StepKeeps(l, ops[0]);
      TidyStep(l, ops[0]);
      TidyStays(Apply(l, ops[0]), ops[1..]);
    }
  }

  lemma TidyStep(l: Life, op: Op)
    requires Inv(l) && l.async && Enabled(l, op) && !(Launches(l, op) && l.pending > 0)
    requires Tidy(l) && !Crowded(l) && !l.panicked
    ensures var l' := Apply(l, op); Tidy(l') && !Crowded(l') && !l'.panicked
  {
    assert l.starts !in l.resolves;
  }

  /** The first overlap leaves the channel behind that was open at the time. */
  lemma {:induction false} OverlapLoses(l: Life, ops: seq<Op>) returns (chan: nat)
    requires Inv(l) && l.async && Possible(l, ops) && Overlaps(l, ops)
    requires Tidy(l) && !Crowded(l) && !l.panicked
    ensures Lost(After(l, ops), chan)
    decreases |ops|
  {
    StepKeeps(l, ops[0]);
    if Launches(l, ops[0]) && l.pending > 0 {
      chan := Latest(l);
      LostForEver(Apply(l, ops[0]), ops[1..], chan);
    } else {
      TidyStep(l, ops[0]);
      chan := OverlapLoses(Apply(l, ops[0]), ops[1..]);
    }
  }

  /**
   Every run with asynchronous resolution: once no resolver is left, the resolve
   channels of all starts have been closed exactly when no start was made while an
   earlier resolver was at work.
  */
  lemma AsyncReleasesAll(ops: seq<Op>)
    requires Possible(Fresh(true), ops) && After(Fresh(true), ops).pending == 0
    ensures var l := After(Fresh(true), ops);
      (forall chan: nat | chan < l.starts :: chan in l.resolves) <==> !Overlaps(Fresh(true), ops)
  {
    assert Inv(Fresh(true));
    if Overlaps(Fresh(true), ops) {
      var chan := OverlapLoses(Fresh(true), ops);
      assert chan !in After(Fresh(true), ops).resolves;
    } else {
      TidyStays(Fresh(true), ops);
    }
  }

  /** And if one was, some start's channel is never closed, whatever follows: who waits for it waits for ever. */
  lemma OverlapStrands(ops: seq<Op>) returns (chan: nat)
    requires Possible(Fresh(true), ops) && Overlaps(Fresh(true), ops)
    ensures var l := After(Fresh(true), ops);
      chan < l.starts && forall more | Possible(l, more) :: chan !in After(l, more).resolves
  {
    assert Inv(Fresh(true));
    ReachesInv(true, ops);
    chan := OverlapLoses(Fresh(true), ops);
    var l := After(Fresh(true), ops);
    forall more | Possible(l, more)
      ensures chan !in After(l, more).resolves
    {
      LostForEver(l, more, chan);
    }
  }
}
