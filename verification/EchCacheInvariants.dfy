/** What every step of the ECH cache protocol keeps. */
module EchCacheInvariants {
  import opened Basics
  import opened EchCache

  // ---------------------------------------------------------------------------
  // Locks: one mutex per key, and a mutex is held by the thread that says so
  // ---------------------------------------------------------------------------

  ghost predicate MutexesOk(s: State) {
    && (forall k <- s.mutexOf :: s.mutexOf[k] < s.made)
    && (forall j, k | j in s.mutexOf && k in s.mutexOf && s.mutexOf[j] == s.mutexOf[k] :: j == k)
  }

  ghost predicate ThreadOk(s: State, t: Thread) {
    var pc := s.At(t);
    && (pc.WantLock? || pc.Holds() ==> pc.key in s.mutexOf && pc.mutex == s.mutexOf[pc.key])
    && (pc.Holds() ==> pc.mutex in s.holder && s.holder[pc.mutex] == t)
  }

  ghost predicate HolderOk(s: State, m: Mutex) {
    m in s.holder ==> var pc := s.At(s.holder[m]); pc.Holds() && pc.mutex == m
  }

  ghost predicate LocksOk(s: State) {
    && MutexesOk(s)
    && (forall t: Thread :: ThreadOk(s, t))
    && (forall m: Mutex :: HolderOk(s, m))
  }

  /** A thread that moves on without touching a mutex. */
  lemma LocksKeptByMove(s: State, s': State, t: Thread)
    requires LocksOk(s)
    requires s'.mutexOf == s.mutexOf && s'.holder == s.holder && s'.made == s.made
    requires forall u: Thread | u != t :: s'.At(u) == s.At(u)
    requires s'.At(t).Holds() == s.At(t).Holds()
    requires s'.At(t).WantLock? ==> s'.At(t) == s.At(t)
    requires s.At(t).Holds() ==> s'.At(t).mutex == s.At(t).mutex && s'.At(t).key == s.At(t).key
    ensures LocksOk(s')
  {
    assert ThreadOk(s, t);
    forall u: Thread
      ensures ThreadOk(s', u)
    {
      assert ThreadOk(s, u);
    }
    forall m: Mutex
      ensures HolderOk(s', m)
    {
      assert HolderOk(s, m);
    }
  }

  lemma LocksKeptByLoadOrStore(s: State, s': State, t: Thread)
    requires LocksOk(s) && s.At(t).WantMutex?
    requires s' == Advanced(s, t)
    ensures LocksOk(s')
  {
    forall u: Thread
      ensures ThreadOk(s', u)
    {
      assert ThreadOk(s, u);
      assert u != t ==> s'.At(u) == s.At(u);
    }
    forall m: Mutex
      ensures HolderOk(s', m)
    {
      assert HolderOk(s, m);
    }
  }

  lemma LocksKeptByLock(s: State, s': State, t: Thread)
    requires LocksOk(s) && s.At(t).WantLock? && s.At(t).mutex !in s.holder
    requires s' == Advanced(s, t)
    ensures LocksOk(s')
  {
    assert ThreadOk(s, t);
    forall u: Thread
      ensures ThreadOk(s', u)
    {
      assert ThreadOk(s, u);
      assert u != t ==> s'.At(u) == s.At(u);
    }
    forall m: Mutex
      ensures HolderOk(s', m)
    {
      assert HolderOk(s, m);
    }
  }

  lemma LocksKeptByUnlock(s: State, s': State, t: Thread)
    requires LocksOk(s) && s.At(t).Unlocking?
    requires s' == Advanced(s, t)
    ensures LocksOk(s')
  {
    assert ThreadOk(s, t);
    forall u: Thread
      ensures ThreadOk(s', u)
    {
      assert ThreadOk(s, u);
      assert u != t ==> s'.At(u) == s.At(u);
    }
    forall m: Mutex
      ensures HolderOk(s', m)
    {
      assert HolderOk(s, m);
    }
  }

  lemma LocksKept(s: State, step: Step)
    requires LocksOk(s) && Enabled(s, step)
    ensures LocksOk(Apply(s, step))
  {
    var s' := Apply(s, step);
    match step
    case Tick(_) => LocksKeptByMove(s, s', 0);
    case Invalidate(t, _) => LocksKeptByMove(s, s', t);
    case Call(t, _) => LocksKeptByMove(s, s', t);
    case Return(t, _) => LocksKeptByMove(s, s', t);
    case Advance(t) =>
      if s.At(t).WantMutex? {
        LocksKeptByLoadOrStore(s, s', t);
      } else if s.At(t).WantLock? {
        LocksKeptByLock(s, s', t);
      } else if s.At(t).Unlocking? {
        LocksKeptByUnlock(s, s', t);
      } else {
        LocksKeptByOther(s, s', t);
      }
  }

  lemma LocksKeptByOther(s: State, s': State, t: Thread)
    requires LocksOk(s) && Enabled(s, Advance(t)) && s' == Advanced(s, t)
    requires !s.At(t).WantMutex? && !s.At(t).WantLock? && !s.At(t).Unlocking?
    ensures LocksOk(s')
  {
    NoMutexTouched(s, t);
    PlaceInSection(s, t);
    LocksKeptByMove(s, s', t);
  }

  lemma NoMutexTouched(s: State, t: Thread)
    requires Enabled(s, Advance(t)) && !s.At(t).WantMutex? && !s.At(t).WantLock? && !s.At(t).Unlocking?
    ensures var s' := Advanced(s, t); s'.mutexOf == s.mutexOf && s'.holder == s.holder && s'.made == s.made
  {
  }

  lemma PlaceInSection(s: State, t: Thread)
    requires Enabled(s, Advance(t)) && !s.At(t).WantMutex? && !s.At(t).WantLock? && !s.At(t).Unlocking?
    ensures var pc, pc' := s.At(t), Advanced(s, t).At(t);
      && !pc'.WantLock?
      && pc'.Holds() == pc.Holds()
      && (pc.Holds() ==> pc'.mutex == pc.mutex && pc'.key == pc.key)
  {
  }

  // ---------------------------------------------------------------------------
  // Cache: exactly what the log says was stored and not invalidated
  // ---------------------------------------------------------------------------

  ghost predicate CacheOk(s: State) {
    && (forall k :: Latest(s.log, k) == if k in s.cache then Some(s.cache[k]) else None)
    && (forall i | 0 <= i < |s.log| :: s.log[i].time <= s.now)
  }

  /** Effect of one event on what is cached. */
  ghost function Cached'(cache: map<Key, Entry>, action: Action): map<Key, Entry> {
    match action
    case Stored(k, e, _, _, _) => cache[k := e]
    case Invalidated(k) => cache - {k}
    case _ => cache
  }

  /** The log grows by at most one event, and the cache changes only by that event. */
  ghost predicate LogStep(s: State, s': State) {
    && s'.now >= s.now
    && (|| (s'.log == s.log && s'.cache == s.cache)
        || (exists t: Thread, action: Action ::
              && s'.log == s.log + [Event(s.now, t, action)]
              && s'.cache == Cached'(s.cache, action)))
  }

  lemma LogGrows(s: State, step: Step)
    requires Enabled(s, step)
    ensures LogStep(s, Apply(s, step))
  {
    var s' := Apply(s, step);
    match step
    case Tick(_) =>
    case Call(_, _) =>
    case Invalidate(t, k) =>
      assert s' == s || s'.log == s.log + [Event(s.now, t, Invalidated(k))];
    case Return(t, outcome) =>
      assert s'.log == s.log + [Event(s.now, t, Ended(s.At(t).key, outcome))];
    case Advance(t) => AdvanceGrows(s, t);
  }

  /** The steps that only read shared state, or touch nothing but mutexes. */
  predicate Silent(s: State, t: Thread) {
    var pc := s.At(t);
    && !pc.Storing? && !pc.WantFetch? && !pc.Unlocking?
    && (pc.FirstCheck? ==> pc.entry.expire <= s.now)
  }

  lemma SilentAdvance(s: State, t: Thread)
    requires Enabled(s, Advance(t)) && Silent(s, t)
    ensures var s' := Advanced(s, t); s'.log == s.log && s'.cache == s.cache && s'.now == s.now
  {
  }

  lemma AdvanceGrows(s: State, t: Thread)
    requires Enabled(s, Advance(t))
    ensures LogStep(s, Advanced(s, t))
  {
    if Silent(s, t) {
      SilentAdvance(s, t);
    } else {
      LoggedAdvance(s, t);
    }
  }

  lemma LoggedAdvance(s: State, t: Thread)
    requires Enabled(s, Advance(t)) && !Silent(s, t)
    ensures LogStep(s, Advanced(s, t))
  {
    var s' := Advanced(s, t);
    var pc := s.At(t);
    if pc.Storing? {
      var e := Entry(AnswerOf(pc.outcome), pc.read + Lifetime(pc.outcome));
      assert s'.log == s.log + [Event(s.now, t, Stored(pc.key, e, pc.outcome, pc.fetch, pc.read))];
    } else if pc.Unlocking? {
      assert s'.log == s.log + [Event(s.now, t, Answered(pc.key, pc.answer, pc.origin))];
    } else if pc.WantFetch? {
      assert s'.log == s.log + [Event(s.now, t, Started(pc.key))];
    } else {
      assert s'.log == s.log + [Event(s.now, t, Answered(pc.key, pc.entry.answer, Cached(pc.entry, pc.at, s.now)))];
    }
  }

  lemma CacheKept(s: State, step: Step)
    requires CacheOk(s) && Enabled(s, step)
    ensures CacheOk(Apply(s, step))
  {
    var s' := Apply(s, step);
    LogGrows(s, step);
    CacheFollowsLog(s, s');
  }

  lemma CacheFollowsLog(s: State, s': State)
    requires CacheOk(s) && LogStep(s, s')
    ensures CacheOk(s')
  {
    if s'.log != s.log {
      var e := s'.log[|s.log|];
      forall k
        ensures Latest(s'.log, k) == if k in s'.cache then Some(s'.cache[k]) else None
      {
        LatestAppend(s.log, e, k);
      }
    }
  }

  // ---------------------------------------------------------------------------
  // Misses: a thread that has decided to fetch faces no live entry
  // ---------------------------------------------------------------------------

  ghost predicate MissOk(s: State, t: Thread) {
    var pc := s.At(t);
    && (pc.Missed() ==> !s.Live(pc.key))
    && (pc.SecondCheck? ==> pc.key !in s.cache || s.cache[pc.key] == pc.entry)
  }

  /** Two threads inside the critical section of the same key are the same thread. */
  lemma OneHolderPerKey(s: State, t: Thread, u: Thread)
    requires LocksOk(s)
    requires s.At(t).Holds() && s.At(u).Holds() && s.At(t).key == s.At(u).key
    ensures t == u
  {
    assert ThreadOk(s, t) && ThreadOk(s, u);
  }

  lemma MissKept(s: State, step: Step, t: Thread)
    requires LocksOk(s) && MissOk(s, t) && Enabled(s, step)
    ensures MissOk(Apply(s, step), t)
  {
    if !step.Advance? {
    } else if step.thread == t {
      MissKeptByMover(s, t);
    } else {
      MissKeptByAnother(s, step.thread, t);
    }
  }

  lemma MissKeptByMover(s: State, t: Thread)
    requires MissOk(s, t) && Enabled(s, Advance(t))
    ensures MissOk(Advanced(s, t), t)
  {
  }

  lemma MissKeptByAnother(s: State, u: Thread, t: Thread)
    requires LocksOk(s) && MissOk(s, t) && Enabled(s, Advance(u)) && u != t
    ensures MissOk(Advanced(s, u), t)
  {
    if s.At(u).Storing? {
      if s.At(t).Holds() && s.At(u).key == s.At(t).key {
        OneHolderPerKey(s, t, u);
      }
    } else {
      CacheUntouched(s, u);
    }
  }

  lemma CacheUntouched(s: State, t: Thread)
    requires Enabled(s, Advance(t)) && !s.At(t).Storing?
    ensures Advanced(s, t).cache == s.cache && Advanced(s, t).now == s.now
  {
  }

  // ---------------------------------------------------------------------------
  // Counting
  // ---------------------------------------------------------------------------

  ghost predicate Busy(s: State, k: Key) {
    exists t: Thread :: s.At(t).InFlight() && s.At(t).key == k
  }

  ghost predicate Running(s: State, k: Key) {
    exists t: Thread :: s.At(t).Fetching? && s.At(t).key == k
  }

  function One(b: bool): nat {
    if b then 1 else 0
  }

  ghost predicate CountOk(s: State, k: Key) {
    && Tally(s.log, FetchStarts, k) ==
         Tally(s.log, ContextFailures, k) + Tally(s.log, Stores, k) + One(Busy(s, k))
    && Tally(s.log, FetchStarts, k) == Tally(s.log, FetchEnds, k) + One(Running(s, k))
    && Tally(s.log, Stores, k) <=
         Tally(s.log, Expired(s.now), k) + Tally(s.log, Invalidations, k) + One(s.Live(k))
  }

  /** A step that logs nothing and leaves the cache alone. */
  lemma CountKeptSilently(s: State, s': State, k: Key)
    requires CacheOk(s) && CountOk(s, k)
    requires s'.now >= s.now && s'.log == s.log && s'.cache == s.cache
    requires Busy(s', k) == Busy(s, k) && Running(s', k) == Running(s, k)
    ensures CountOk(s', k)
  {
    ExpiredGrows(s.log, k, s.now, s'.now);
  }

  /** A thread's new place decides whether a fetch of `k` is under way; nobody else's counts. */
  lemma FlightsAfterMove(s: State, s': State, t: Thread, k: Key)
    requires LocksOk(s)
    requires forall u: Thread | u != t :: s'.At(u) == s.At(u)
    ensures s.At(t).Holds() && s.At(t).key == k ==>
              && Busy(s, k) == s.At(t).InFlight()
              && Running(s, k) == s.At(t).Fetching?
              && Busy(s', k) == (s'.At(t).InFlight() && s'.At(t).key == k)
              && Running(s', k) == (s'.At(t).Fetching? && s'.At(t).key == k)
    ensures !(s.At(t).InFlight() && s.At(t).key == k) && !(s'.At(t).InFlight() && s'.At(t).key == k) ==>
              Busy(s', k) == Busy(s, k) && Running(s', k) == Running(s, k)
  {
    if s.At(t).Holds() && s.At(t).key == k {
      forall u: Thread | s.At(u).Holds() && s.At(u).key == k
        ensures u == t
      {
        OneHolderPerKey(s, u, t);
      }
    } else {
      assert forall u: Thread | u != t :: s'.At(u).InFlight() == s.At(u).InFlight();
      if Busy(s, k) {
        var u: Thread :| s.At(u).InFlight() && s.At(u).key == k;
        assert u != t ==> s'.At(u) == s.At(u);
      }
      if Running(s, k) {
        var u: Thread :| s.At(u).Fetching? && s.At(u).key == k;
        assert u != t ==> s'.At(u) == s.At(u);
      }
    }
  }

  lemma FlightsUnmoved(s: State, s': State, k: Key)
    requires forall u: Thread :: s'.At(u) == s.At(u)
    ensures Busy(s', k) == Busy(s, k) && Running(s', k) == Running(s, k)
  {
  }

  /** What one event of `k` must do to the threads and the cache for the balance to survive it. */
  ghost predicate Balanced(s: State, s': State, action: Action, k: Key) {
    if action.key != k then
      Busy(s', k) == Busy(s, k) && Running(s', k) == Running(s, k) && s'.Live(k) == s.Live(k)
    else match action
      case Started(_) => !Busy(s, k) && !Running(s, k) && Busy(s', k) && Running(s', k) && !s'.Live(k)
      case Ended(_, outcome) =>
        && Busy(s, k) && Running(s, k) && !Running(s', k) && s'.Live(k) == s.Live(k)
        && Busy(s', k) == Cacheable(outcome)
      case Stored(_, e, _, _, _) =>
        && Busy(s, k) && !Busy(s', k) && Running(s', k) == Running(s, k)
        && !s.Live(k) && s'.Live(k) == (s.now < e.expire)
      case Invalidated(_) => Busy(s', k) == Busy(s, k) && Running(s', k) == Running(s, k)
      case Answered(_, _, _) =>
        Busy(s', k) == Busy(s, k) && Running(s', k) == Running(s, k) && s'.Live(k) == s.Live(k)
  }

  lemma CountKeptByEvent(s: State, s': State, t: Thread, action: Action, k: Key)
    requires CountOk(s, k)
    requires s'.log == s.log + [Event(s.now, t, action)] && s'.now == s.now
    requires Balanced(s, s', action, k)
    requires action.Started? && action.key == k ==> !s.Live(k)
    ensures CountOk(s', k)
  {
    var e := Event(s.now, t, action);
    TallyAppend(s.log, e, FetchStarts, k);
    TallyAppend(s.log, e, FetchEnds, k);
    TallyAppend(s.log, e, ContextFailures, k);
    TallyAppend(s.log, e, Stores, k);
    TallyAppend(s.log, e, Expired(s.now), k);
    TallyAppend(s.log, e, Invalidations, k);
  }

  lemma CountKept(s: State, step: Step, k: Key)
    requires LocksOk(s) && CacheOk(s) && CountOk(s, k) && Enabled(s, step)
    requires forall t: Thread :: MissOk(s, t)
    ensures CountOk(Apply(s, step), k)
  {
    match step
    case Tick(elapsed) => CountKeptByTick(s, elapsed, k);
    case Call(t, k0) => CountKeptByCall(s, t, k0, k);
    case Invalidate(t, k0) => CountKeptByInvalidate(s, t, k0, k);
    case Return(t, outcome) => CountKeptByReturn(s, t, outcome, k);
    case Advance(t) => CountKeptByAdvance(s, t, k);
  }

  lemma CountKeptByTick(s: State, elapsed: nat, k: Key)
    requires CacheOk(s) && CountOk(s, k)
    ensures CountOk(Apply(s, Tick(elapsed)), k)
  {
    var s' := Apply(s, Tick(elapsed));
    FlightsUnmoved(s, s', k);
    CountKeptSilently(s, s', k);
  }

  lemma CountKeptByCall(s: State, t: Thread, k0: Key, k: Key)
    requires LocksOk(s) && CacheOk(s) && CountOk(s, k) && s.At(t).Idle?
    ensures CountOk(Apply(s, Call(t, k0)), k)
  {
    var s' := Apply(s, Call(t, k0));
    MoveKeepsFlights(s, s', t, k);
    CountKeptSilently(s, s', k);
  }

  lemma CountKeptByInvalidate(s: State, t: Thread, k0: Key, k: Key)
    requires CountOk(s, k)
    ensures CountOk(Apply(s, Invalidate(t, k0)), k)
  {
    var s' := Apply(s, Invalidate(t, k0));
    FlightsUnmoved(s, s', k);
    if k0 != "" {
      CountKeptByEvent(s, s', t, Invalidated(k0), k);
    }
  }

  lemma CountKeptByReturn(s: State, t: Thread, outcome: Outcome, k: Key)
    requires LocksOk(s) && CountOk(s, k) && s.At(t).Fetching?
    ensures CountOk(Returned(s, t, outcome), k)
  {
    var s' := Returned(s, t, outcome);
    FlightsAfterMove(s, s', t, k);
    CountKeptByEvent(s, s', t, Ended(s.At(t).key, outcome), k);
  }

  lemma CountKeptByAdvance(s: State, t: Thread, k: Key)
    requires LocksOk(s) && CacheOk(s) && CountOk(s, k) && Enabled(s, Advance(t))
    requires forall u: Thread :: MissOk(s, u)
    ensures CountOk(Advanced(s, t), k)
  {
    assert MissOk(s, t);
    var pc := s.At(t);
    if pc.Storing? {
      CountKeptByStore(s, t, k);
    } else if pc.WantFetch? {
      CountKeptByStart(s, t, k);
    } else if Silent(s, t) {
      CountKeptByOther(s, t, k);
    } else {
      CountKeptByAnswer(s, t, k);
    }
  }

  lemma CountKeptByStore(s: State, t: Thread, k: Key)
    requires LocksOk(s) && CountOk(s, k) && s.At(t).Storing? && MissOk(s, t)
    ensures CountOk(Advanced(s, t), k)
  {
    var s' := Advanced(s, t);
    var Storing(k0, m, outcome, fetch, read) := s.At(t);
    FlightsAfterMove(s, s', t, k);
    CountKeptByEvent(s, s', t, Stored(k0, Entry(AnswerOf(outcome), read + Lifetime(outcome)), outcome, fetch, read), k);
  }

  lemma CountKeptByStart(s: State, t: Thread, k: Key)
    requires LocksOk(s) && CountOk(s, k) && s.At(t).WantFetch? && MissOk(s, t)
    ensures CountOk(Advanced(s, t), k)
  {
    var s' := Advanced(s, t);
    FlightsAfterMove(s, s', t, k);
    CountKeptByEvent(s, s', t, Started(s.At(t).key), k);
  }

  lemma CountKeptByAnswer(s: State, t: Thread, k: Key)
    requires LocksOk(s) && CountOk(s, k)
    requires s.At(t).Unlocking? || (s.At(t).FirstCheck? && s.now < s.At(t).entry.expire)
    ensures CountOk(Advanced(s, t), k)
  {
    var s' := Advanced(s, t);
    FlightsAfterMove(s, s', t, k);
    CountKeptByEvent(s, s', t, s'.log[|s.log|].action, k);
  }

  lemma CountKeptByOther(s: State, t: Thread, k: Key)
    requires LocksOk(s) && CacheOk(s) && CountOk(s, k) && Enabled(s, Advance(t)) && Silent(s, t)
    ensures CountOk(Advanced(s, t), k)
  {
    SilentAdvance(s, t);
    SilentFlight(s, t);
    MoveKeepsFlights(s, Advanced(s, t), t, k);
    CountKeptSilently(s, Advanced(s, t), k);
  }

  lemma SilentFlight(s: State, t: Thread)
    requires Enabled(s, Advance(t)) && Silent(s, t)
    ensures var pc, pc' := s.At(t), Advanced(s, t).At(t);
      && pc.InFlight() == pc'.InFlight() && pc.Fetching? == pc'.Fetching?
      && (pc.InFlight() ==> pc'.key == pc.key)
  {
  }

  lemma MoveKeepsFlights(s: State, s': State, t: Thread, k: Key)
    requires LocksOk(s)
    requires forall u: Thread | u != t :: s'.At(u) == s.At(u)
    requires s.At(t).InFlight() == s'.At(t).InFlight() && s.At(t).Fetching? == s'.At(t).Fetching?
    requires s.At(t).InFlight() ==> s'.At(t).key == s.At(t).key
    ensures Busy(s', k) == Busy(s, k) && Running(s', k) == Running(s, k)
  {
    FlightsAfterMove(s, s', t, k);
  }

  // ---------------------------------------------------------------------------
  // Provenance
  // ---------------------------------------------------------------------------

  /** The answer was in the cache when it was loaded, and had not expired when the clock was read. */
  ghost predicate OriginOk(log: seq<Event>, k: Key, answer: Answer, origin: Origin) {
    match origin
    case Cached(e, at, seen) =>
      && LoadOk(log, k, e, at)
      && answer == e.answer
      && seen < e.expire
      && (forall i | 0 <= i < at :: log[i].time <= seen)
    case Fetched(fetch) =>
      && fetch < |log|
      && log[fetch].action.Ended?
      && log[fetch].action.key == k
      && answer == AnswerOf(log[fetch].action.outcome)
  }

  ghost predicate LoadOk(log: seq<Event>, k: Key, e: Entry, at: nat) {
    at <= |log| && Latest(log[..at], k) == Some(e)
  }

  /** The outcome is that of a completed fetch of `k` which the cache is allowed to keep. */
  ghost predicate FetchOk(log: seq<Event>, k: Key, outcome: Outcome, fetch: nat) {
    && fetch < |log|
    && log[fetch].action == Ended(k, outcome)
    && Cacheable(outcome)
  }

  ghost predicate EventOk(log: seq<Event>, j: nat)
    requires j < |log|
  {
    match log[j].action
    case Stored(k, e, outcome, fetch, read) =>
      && FetchOk(log[..j], k, outcome, fetch)
      && e == Entry(AnswerOf(outcome), read + Lifetime(outcome))
      && log[fetch].time <= read <= log[j].time
    case Answered(k, answer, origin) => OriginOk(log[..j], k, answer, origin)
    case _ => true
  }

  ghost predicate LogOk(log: seq<Event>) {
    forall j: nat | j < |log| :: EventOk(log, j)
  }

  ghost predicate PlaceOk(s: State, t: Thread) {
    match s.At(t)
    case FirstCheck(k, e, at) => LoadOk(s.log, k, e, at)
    case SecondCheck(k, _, e, at) => LoadOk(s.log, k, e, at)
    case Storable(k, _, outcome, fetch) => FetchOk(s.log, k, outcome, fetch)
    case Storing(k, _, outcome, fetch, read) =>
      FetchOk(s.log, k, outcome, fetch) && s.log[fetch].time <= read <= s.now
    case Unlocking(k, _, answer, origin) => OriginOk(s.log, k, answer, origin)
    case _ => true
  }

  lemma PrefixTaken(log: seq<Event>, e: Event, n: nat)
    requires n <= |log|
    ensures (log + [e])[..n] == log[..n]
  {
  }

  lemma OriginKept(log: seq<Event>, x: Event, k: Key, answer: Answer, origin: Origin)
    requires OriginOk(log, k, answer, origin)
    ensures OriginOk(log + [x], k, answer, origin)
  {
    if origin.Cached? {
      PrefixTaken(log, x, origin.at);
    }
  }

  lemma PlaceKept(s: State, s': State, t: Thread)
    requires PlaceOk(s, t) && LogStep(s, s') && s'.At(t) == s.At(t)
    ensures PlaceOk(s', t)
  {
    if s'.log != s.log {
      var x := s'.log[|s.log|];
      match s.At(t) {
        case FirstCheck(k, e, at) => PrefixTaken(s.log, x, at);
        case SecondCheck(k, _, e, at) => PrefixTaken(s.log, x, at);
        case Unlocking(k, _, answer, origin) => OriginKept(s.log, x, k, answer, origin);
        case _ =>
      }
    }
  }

  lemma LogOkAppend(log: seq<Event>, x: Event)
    requires LogOk(log)
    requires EventOk(log + [x], |log|)
    ensures LogOk(log + [x])
  {
    forall j: nat | j < |log + [x]|
      ensures EventOk(log + [x], j)
    {
      if j < |log| {
        assert EventOk(log, j);
        PrefixTaken(log, x, j);
      }
    }
  }

  /** The thread that moves has a good place, and logged only a good event. */
  lemma MoverPlaced(s: State, step: Step)
    requires CacheOk(s) && LogOk(s.log) && Enabled(s, step)
    requires step.Call? || step.Advance? || step.Return?
    requires PlaceOk(s, step.thread)
    ensures var s' := Apply(s, step);
      PlaceOk(s', step.thread) && LogOk(s'.log)
  {
    assert s.log[..|s.log|] == s.log;
    match step
    case Call(_, _) =>
    case Return(t, outcome) =>
      EventLogged(s, t, Ended(s.At(t).key, outcome));
    case Advance(t) =>
      var pc := s.At(t);
      if pc.Storing? {
        StorerPlaced(s, t);
      } else if pc.WantFetch? {
        EventLogged(s, t, Started(pc.key));
      } else if pc.Unlocking? {
        EventLogged(s, t, Answered(pc.key, pc.answer, pc.origin));
      } else if pc.FirstCheck? && s.now < pc.entry.expire {
        EventLogged(s, t, Answered(pc.key, pc.entry.answer, Cached(pc.entry, pc.at, s.now)));
      } else {
        ReaderPlaced(s, t);
      }
  }

  lemma EventLogged(s: State, t: Thread, action: Action)
    requires LogOk(s.log)
    requires match action
             case Stored(k, e, outcome, fetch, read) =>
               && FetchOk(s.log, k, outcome, fetch)
               && e == Entry(AnswerOf(outcome), read + Lifetime(outcome))
               && s.log[fetch].time <= read <= s.now
             case Answered(k, answer, origin) => OriginOk(s.log, k, answer, origin)
             case _ => true
    ensures LogOk(s.Note(t, action).log)
  {
    var x := Event(s.now, t, action);
    PrefixTaken(s.log, x, |s.log|);
    assert s.log[..|s.log|] == s.log;
    LogOkAppend(s.log, x);
  }

  lemma StorerPlaced(s: State, t: Thread)
    requires LogOk(s.log) && s.At(t).Storing? && PlaceOk(s, t)
    ensures PlaceOk(Advanced(s, t), t) && LogOk(Advanced(s, t).log)
  {
    var Storing(k, m, outcome, fetch, read) := s.At(t);
    EventLogged(s, t, Stored(k, Entry(AnswerOf(outcome), read + Lifetime(outcome)), outcome, fetch, read));
  }

  lemma ReaderPlaced(s: State, t: Thread)
    requires CacheOk(s) && LogOk(s.log) && Enabled(s, Advance(t)) && PlaceOk(s, t) && Silent(s, t)
    ensures PlaceOk(Advanced(s, t), t) && LogOk(Advanced(s, t).log)
  {
    SilentAdvance(s, t);
    assert s.log[..|s.log|] == s.log;
  }

  lemma OthersPlaced(s: State, s': State, t: Thread)
    requires LogStep(s, s')
    requires forall u: Thread :: PlaceOk(s, u)
    requires forall u: Thread | u != t :: s'.At(u) == s.At(u)
    ensures forall u: Thread | u != t :: PlaceOk(s', u)
  {
    forall u: Thread | u != t
      ensures PlaceOk(s', u)
    {
      PlaceKept(s, s', u);
    }
  }

  lemma ThreadStepPlaced(s: State, step: Step)
    requires CacheOk(s) && LogOk(s.log) && Enabled(s, step)
    requires step.Call? || step.Advance? || step.Return?
    requires forall t: Thread :: PlaceOk(s, t)
    ensures var s' := Apply(s, step);
      LogOk(s'.log) && forall t: Thread :: PlaceOk(s', t)
  {
    LogGrows(s, step);
    assert PlaceOk(s, step.thread);
    MoverPlaced(s, step);
    OthersPlaced(s, Apply(s, step), step.thread);
  }

  lemma ProvenanceKept(s: State, step: Step)
    requires CacheOk(s) && LogOk(s.log) && Enabled(s, step)
    requires forall t: Thread :: PlaceOk(s, t)
    ensures LogOk(Apply(s, step).log)
    ensures forall t: Thread :: PlaceOk(Apply(s, step), t)
  {
    if step.Tick? || step.Invalidate? {
      ClockAndInvalidationPlaced(s, step);
    } else {
      ThreadStepPlaced(s, step);
    }
  }

  lemma ClockAndInvalidationPlaced(s: State, step: Step)
    requires LogOk(s.log) && (step.Tick? || step.Invalidate?)
    requires forall t: Thread :: PlaceOk(s, t)
    ensures var s' := Apply(s, step);
      LogOk(s'.log) && forall t: Thread :: PlaceOk(s', t)
  {
    var s' := Apply(s, step);
    LogGrows(s, step);
    if step.Invalidate? && step.key != "" {
      EventLogged(s, step.thread, Invalidated(step.key));
    }
    forall t: Thread
      ensures PlaceOk(s', t)
    {
      assert s'.At(t) == s.At(t);
      PlaceKept(s, s', t);
    }
  }

  // ---------------------------------------------------------------------------
  // All of it, over whole runs
  // ---------------------------------------------------------------------------

  ghost predicate Inv(s: State) {
    && LocksOk(s)
    && CacheOk(s)
    && LogOk(s.log)
    && (forall t: Thread :: MissOk(s, t))
    && (forall t: Thread :: PlaceOk(s, t))
    && (forall k :: CountOk(s, k))
  }

  lemma InvKept(s: State, step: Step)
    requires Inv(s) && Enabled(s, step)
    ensures Inv(Apply(s, step))
  {
    LocksKept(s, step);
    CacheKept(s, step);
    ProvenanceKept(s, step);
    forall t: Thread
      ensures MissOk(Apply(s, step), t)
    {
      MissKept(s, step, t);
    }
    forall k
      ensures CountOk(Apply(s, step), k)
    {
      CountKept(s, step, k);
    }
  }

  lemma {:induction false} InvAfter(s: State, steps: seq<Step>)
    requires Inv(s) && Possible(s, steps)
    ensures Inv(After(s, steps))
    decreases |steps|
  {
    if steps != [] {
      InvKept(s, steps[0]);
      InvAfter(Apply(s, steps[0]), steps[1..]);
    }
  }

  lemma ReachableInv(s: State)
    requires Reachable(s)
    ensures Inv(s)
  {
    var steps :| Possible(INITIAL, steps) && After(INITIAL, steps) == s;
    assert forall t: Thread :: INITIAL.At(t) == Idle;
    InvAfter(INITIAL, steps);
  }
}
