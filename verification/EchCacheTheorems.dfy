/** What the ECH cache promises its callers, in every interleaving. */
module EchCacheTheorems {
  import opened Basics
  import opened EchCache
  import opened EchCacheInvariants

  /** How long an outcome may be served, in seconds. */
  function Seconds(outcome: Outcome): nat {
    match outcome
    case Fresh(_, ttl) => if ttl == 0 then 600 else ttl
    case Failed(_) => 30
  }

  /** A 32-bit TTL in seconds fits the 64-bit nanosecond count of a Duration. */
  lemma LifetimeExact(outcome: Outcome)
    ensures Lifetime(outcome) == SECOND * Seconds(outcome)
  {
  }

  // ---------------------------------------------------------------------------
  // How many fetches
  // ---------------------------------------------------------------------------

  /**
   Fetches are paid for: beyond the first, each needs an attempt that failed in a
   way that may not be cached, an entry that ran out, or an invalidation.
  */
  lemma FetchesBounded(s: State, k: Key)
    requires Reachable(s)
    ensures Tally(s.log, FetchStarts, k) <=
              1 + Tally(s.log, ContextFailures, k) + Tally(s.log, Expired(s.now), k) + Tally(s.log, Invalidations, k)
  {
    ReachableInv(s);
    assert CountOk(s, k);
    if Busy(s, k) {
      var t: Thread :| s.At(t).InFlight() && s.At(t).key == k;
      assert MissOk(s, t);
    }
  }

  /** The slack of one is a fetch under way or its result: never both at once. */
  lemma NoFetchWhileLive(s: State, k: Key, t: Thread)
    requires Reachable(s) && s.At(t).InFlight() && s.At(t).key == k
    ensures !s.Live(k)
  {
    ReachableInv(s);
    assert MissOk(s, t);
  }

  /**
   And the other way round: every fetch that ended was stored, was a context-class
   failure, or is about to be stored by the thread that ran it.
  */
  lemma OutcomesAccounted(s: State, k: Key)
    requires Reachable(s)
    ensures Tally(s.log, FetchEnds, k) ==
              Tally(s.log, ContextFailures, k) + Tally(s.log, Stores, k)
              + (if exists t: Thread :: (s.At(t).Storable? || s.At(t).Storing?) && s.At(t).key == k then 1 else 0)
  {
    ReachableInv(s);
    assert CountOk(s, k);
    if Busy(s, k) {
      var t: Thread :| s.At(t).InFlight() && s.At(t).key == k;
      forall u: Thread | s.At(u).InFlight() && s.At(u).key == k
        ensures u == t
      {
        OneHolderPerKey(s, u, t);
      }
    }
  }

  /** What the cache was given is never a context-class error. */
  lemma StoredIsNoContextError(s: State, j: nat)
    requires Reachable(s) && j < |s.log| && s.log[j].action.Stored?
    ensures var outcome := s.log[j].action.outcome; outcome.Failed? ==> !outcome.failure.contextClass
  {
    ReachableInv(s);
    assert EventOk(s.log, j);
  }

  lemma {:induction false} TallyMember(log: seq<Event>, kind: Kind, k: Key, i: nat)
    requires i < |log| && Is(log[i].action, kind, k)
    ensures Tally(log, kind, k) >= 1
  {
    if i < |log| - 1 {
      TallyMember(log[..|log| - 1], kind, k, i);
    }
  }

  lemma {:induction false} TallyPair(log: seq<Event>, kind: Kind, k: Key, i: nat, j: nat)
    requires i < j < |log| && Is(log[i].action, kind, k) && Is(log[j].action, kind, k)
    ensures Tally(log, kind, k) >= 2
  {
    if j < |log| - 1 {
      TallyPair(log[..|log| - 1], kind, k, i, j);
    } else {
      TallyMember(log[..j], kind, k, i);
    }
  }

  // ---------------------------------------------------------------------------
  // Where answers come from
  // ---------------------------------------------------------------------------

  /** The fetch at `fetch` ended in `outcome`, and the store at `store` put its answer in the cache. */
  ghost predicate StoredFrom(log: seq<Event>, k: Key, store: nat, fetch: nat, outcome: Outcome) {
    && fetch < store < |log|
    && log[fetch].action == Ended(k, outcome)
    && log[store].action.Stored?
    && log[store].action.key == k
    && log[fetch].time <= log[store].time
  }

  /** The list of a fetch that found one, or its failure. */
  predicate Conveys(answer: Answer, outcome: Outcome) {
    && (outcome.Fresh? ==> answer == Config(outcome.list))
    && (outcome.Failed? ==> answer == Refused(outcome.failure))
  }

  /** Nothing replaced or dropped the entry of `k` between two points of the log. */
  ghost predicate Undisturbed(log: seq<Event>, k: Key, store: nat, at: nat)
    requires at <= |log|
  {
    forall j :: store < j < at ==>
      !((log[j].action.Stored? || log[j].action.Invalidated?) && log[j].action.key == k)
  }

  /**
   An answer served from the cache at `j`: it is the outcome of a completed fetch
   of the same key, of a kind that may be cached, stored before the entry was
   loaded with nothing of that key stored or invalidated in between, and strictly
   less than its lifetime before the clock was consulted.
  */
  lemma CachedAnswerProvenance(s: State, j: nat) returns (store: nat, fetch: nat, outcome: Outcome)
    requires Reachable(s)
    requires j < |s.log| && s.log[j].action.Answered? && s.log[j].action.origin.Cached?
    ensures var Answered(k, answer, Cached(entry, at, seen)) := s.log[j].action;
      && at <= j
      && store < at
      && StoredFrom(s.log, k, store, fetch, outcome)
      && Undisturbed(s.log, k, store, at)
      && Conveys(answer, outcome)
      && (outcome.Failed? ==> !outcome.failure.contextClass)
      && s.log[store].time <= seen < s.log[store].time + SECOND * Seconds(outcome)
  {
    ReachableInv(s);
    assert EventOk(s.log, j);
    var Answered(k, answer, Cached(entry, at, seen)) := s.log[j].action;
    assert s.log[..j][..at] == s.log[..at];
    store := LatestStore(s.log[..at], k);
    assert EventOk(s.log, store);
    fetch := s.log[store].action.fetch;
    outcome := s.log[store].action.outcome;
    LifetimeExact(outcome);
    assert s.log[..j][store] == s.log[store];
    assert s.log[..at][store] == s.log[store];
    forall i | store < i < at
      ensures !((s.log[i].action.Stored? || s.log[i].action.Invalidated?) && s.log[i].action.key == k)
    {
      assert s.log[..at][i] == s.log[i];
    }
  }

  /** Every answer, cached or not, is the outcome of some completed fetch of its key. */
  lemma AnswerFromFetch(s: State, j: nat) returns (fetch: nat)
    requires Reachable(s)
    requires j < |s.log| && s.log[j].action.Answered?
    ensures fetch < j && s.log[fetch].action.Ended?
    ensures s.log[fetch].action.key == s.log[j].action.key
    ensures Conveys(s.log[j].action.answer, s.log[fetch].action.outcome)
  {
    match s.log[j].action.origin
    case Cached(_, _, _) =>
      var store, f, outcome := CachedAnswerProvenance(s, j);
      fetch := f;
    case Fetched(f) =>
      ReachableInv(s);
      assert EventOk(s.log, j);
      fetch := f;
  }

  /** Without expiry, invalidation or an uncacheable failure, one fetch serves every caller of a key. */
  lemma OneFetchServesAll(s: State, k: Key)
    requires Reachable(s)
    requires Tally(s.log, ContextFailures, k) == 0
    requires Tally(s.log, Expired(s.now), k) == 0
    requires Tally(s.log, Invalidations, k) == 0
    ensures Tally(s.log, FetchStarts, k) <= 1
    ensures forall i, j | 0 <= i < |s.log| && 0 <= j < |s.log|
                          && s.log[i].action.Answered? && s.log[i].action.key == k
                          && s.log[j].action.Answered? && s.log[j].action.key == k ::
              s.log[i].action.answer == s.log[j].action.answer
  {
    FetchesBounded(s, k);
    ReachableInv(s);
    assert CountOk(s, k);
    forall i, j | 0 <= i < |s.log| && 0 <= j < |s.log|
                  && s.log[i].action.Answered? && s.log[i].action.key == k
                  && s.log[j].action.Answered? && s.log[j].action.key == k
      ensures s.log[i].action.answer == s.log[j].action.answer
    {
      var a := AnswerFromFetch(s, i);
      var b := AnswerFromFetch(s, j);
      if a < b {
        TallyPair(s.log, FetchEnds, k, a, b);
      } else if b < a {
        TallyPair(s.log, FetchEnds, k, b, a);
      }
    }
  }

  // ---------------------------------------------------------------------------
  // Mutual exclusion and waiting
  // ---------------------------------------------------------------------------

  /** Threads that reached the mutex of one key have the same mutex; at most one is past it. */
  lemma OneAcquisitionPerKey(s: State, t: Thread, u: Thread)
    requires Reachable(s)
    requires s.At(t).WantLock? || s.At(t).Holds()
    requires s.At(u).WantLock? || s.At(u).Holds()
    ensures s.At(t).mutex == s.At(u).mutex <==> s.At(t).key == s.At(u).key
    ensures s.At(t).Holds() && s.At(u).Holds() && s.At(t).key == s.At(u).key ==> t == u
  {
    ReachableInv(s);
    assert ThreadOk(s, t) && ThreadOk(s, u);
  }

  /** `t` is blocked on a mutex that `u` holds. */
  ghost predicate WaitsFor(s: State, t: Thread, u: Thread) {
    s.At(t).WantLock? && s.At(t).mutex in s.holder && s.holder[s.At(t).mutex] == u
  }

  ghost predicate CanMove(s: State, t: Thread) {
    Enabled(s, Advance(t)) || s.At(t).Fetching?
  }

  /** A chain of waiting threads has length one, so no cycle of waits exists, and its end can move. */
  lemma NoCircularWait(s: State, t: Thread, u: Thread)
    requires Reachable(s) && WaitsFor(s, t, u)
    ensures t != u
    ensures forall v: Thread :: !WaitsFor(s, u, v)
    ensures s.At(u).Holds() && s.At(u).key == s.At(t).key
    ensures CanMove(s, u)
  {
    ReachableInv(s);
    assert ThreadOk(s, t);
    assert HolderOk(s, s.At(t).mutex);
    assert ThreadOk(s, u);
  }

  /** No reachable state is stuck: if some call is unfinished, some thread can move. */
  lemma NoDeadlock(s: State, t: Thread) returns (u: Thread)
    requires Reachable(s) && !s.At(t).Idle?
    ensures CanMove(s, u)
    ensures u == t || WaitsFor(s, t, u)
  {
    if s.At(t).WantLock? && s.At(t).mutex in s.holder {
      u := s.holder[s.At(t).mutex];
      NoCircularWait(s, t, u);
    } else {
      u := t;
    }
  }
}
