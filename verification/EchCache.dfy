/**
 The ECH configuration cache: a shared map, one mutex per key, a double-checked
 lookup, and invalidation from other threads.

 Every access to shared state (the two `sync.Map`s, a mutex, the clock) is one
 atomic step, so a run is an arbitrary interleaving of such steps by any number
 of threads over any number of keys. The log records what happened; no step
 reads it.
*/
module EchCache {
  import opened Basics

  type Key = string
  type Thread = nat
  type Mutex = nat

  /** Nanoseconds on the clock that `time.Now` reads. */
  type Instant = nat

  const SECOND := 1_000_000_000
  const NEGATIVE_TTL := 30
  const DEFAULT_TTL := 600

  /** `contextClass` holds when `errors.Is` finds context.Canceled or context.DeadlineExceeded. */
  datatype Failure = Failure(message: string, contextClass: bool)

  /** What one run of the `fetch` closure returns. */
  datatype Outcome = Fresh(list: seq<byte>, ttl: uint32) | Failed(failure: Failure)

  /** What `echAcquire` returns to its caller. */
  datatype Answer = Config(list: seq<byte>) | Refused(failure: Failure)

  datatype Entry = Entry(answer: Answer, expire: int)

  function AnswerOf(outcome: Outcome): Answer {
    match outcome
    case Fresh(list, _) => Config(list)
    case Failed(failure) => Refused(failure)
  }

  /** The duration added to the clock reading when the outcome is stored. */
  function Lifetime(outcome: Outcome): int {
    match outcome
    case Fresh(_, ttl) => Wrap64((if ttl == 0 then DEFAULT_TTL else ttl) * SECOND)
    case Failed(_) => NEGATIVE_TTL * SECOND
  }

  predicate Cacheable(outcome: Outcome) {
    outcome.Failed? ==> !outcome.failure.contextClass
  }

  // ---------------------------------------------------------------------------
  // State
  // ---------------------------------------------------------------------------

  /** How a caller came by its answer; `at` and `fetch` are positions in the log. */
  datatype Origin =
    | Cached(entry: Entry, at: nat, seen: Instant)
    | Fetched(fetch: nat)

  /** Where a thread stands inside `echAcquire`. */
  datatype Pc =
    | Idle
    | FirstLoad(key: Key)
    | FirstCheck(key: Key, entry: Entry, at: nat)
    | WantMutex(key: Key)
    | WantLock(key: Key, mutex: Mutex)
    | SecondLoad(key: Key, mutex: Mutex)
    | SecondCheck(key: Key, mutex: Mutex, entry: Entry, at: nat)
    | WantFetch(key: Key, mutex: Mutex)
    | Fetching(key: Key, mutex: Mutex)
    | Storable(key: Key, mutex: Mutex, outcome: Outcome, fetch: nat)
    | Storing(key: Key, mutex: Mutex, outcome: Outcome, fetch: nat, read: Instant)
    | Unlocking(key: Key, mutex: Mutex, answer: Answer, origin: Origin)
  {
    predicate Holds() {
      SecondLoad? || SecondCheck? || WantFetch? || Fetching? || Storable? || Storing? || Unlocking?
    }

    /** Between a miss under the lock and the store that ends it. */
    predicate Missed() {
      WantFetch? || Fetching? || Storable? || Storing?
    }

    /** A fetch has been started and has neither been stored nor given up. */
    predicate InFlight() {
      Fetching? || Storable? || Storing?
    }
  }

  datatype Action =
    | Started(key: Key)
    | Ended(key: Key, outcome: Outcome)
    | Stored(key: Key, entry: Entry, outcome: Outcome, fetch: nat, read: Instant)
    | Invalidated(key: Key)
    | Answered(key: Key, answer: Answer, origin: Origin)

  datatype Event = Event(time: Instant, thread: Thread, action: Action)

  datatype State = State(
    now: Instant,
    cache: map<Key, Entry>,
    mutexOf: map<Key, Mutex>,
    made: nat,
    holder: map<Mutex, Thread>,
    pcs: map<Thread, Pc>,
    log: seq<Event>)
  {
    function At(t: Thread): Pc {
      if t in pcs then pcs[t] else Idle
    }

    function Go(t: Thread, pc: Pc): State {
      this.(pcs := pcs[t := pc])
    }

    function Note(t: Thread, action: Action): State {
      this.(log := log + [Event(now, t, action)])
    }

    predicate Live(k: Key) {
      k in cache && now < cache[k].expire
    }
  }

  const INITIAL := State(0, map[], map[], 0, map[], map[], [])

  // ---------------------------------------------------------------------------
  // Steps
  // ---------------------------------------------------------------------------

  datatype Step =
    | Tick(elapsed: nat)
    | Call(thread: Thread, key: Key)
    | Advance(thread: Thread)
    | Return(thread: Thread, outcome: Outcome)
    | Invalidate(thread: Thread, key: Key)

  predicate Enabled(s: State, step: Step) {
    match step
    case Tick(_) => true
    case Call(t, _) => s.At(t).Idle?
    case Advance(t) =>
      && !s.At(t).Idle?
      && !s.At(t).Fetching?
      && (s.At(t).WantLock? ==> s.At(t).mutex !in s.holder)
    case Return(t, _) => s.At(t).Fetching?
    case Invalidate(_, _) => true
  }

  function Apply(s: State, step: Step): State
    requires Enabled(s, step)
  {
    match step
    case Tick(elapsed) => s.(now := s.now + elapsed)
    case Call(t, k) => s.Go(t, FirstLoad(k))
    case Advance(t) => Advanced(s, t)
    case Return(t, outcome) => Returned(s, t, outcome)
    case Invalidate(t, k) =>
      if k == "" then s else s.(cache := s.cache - {k}).Note(t, Invalidated(k))
  }

  /** One statement of `echAcquire`, up to its next access to shared state. */
  function Advanced(s: State, t: Thread): (s': State)
    requires Enabled(s, Advance(t))
    ensures forall u: Thread | u != t :: s'.At(u) == s.At(u)
  {
    match s.At(t)
    case FirstLoad(k) =>
      if k in s.cache then s.Go(t, FirstCheck(k, s.cache[k], |s.log|)) else s.Go(t, WantMutex(k))
    case FirstCheck(k, e, at) =>
      if s.now < e.expire
      then s.Note(t, Answered(k, e.answer, Cached(e, at, s.now))).Go(t, Idle)
      else s.Go(t, WantMutex(k))
    case WantMutex(k) =>
      // LoadOrStore: the mutex passed in is allocated whether or not it is kept.
      var m := if k in s.mutexOf then s.mutexOf[k] else s.made;
      s.(made := s.made + 1, mutexOf := s.mutexOf[k := m]).Go(t, WantLock(k, m))
    case WantLock(k, m) =>
      s.(holder := s.holder[m := t]).Go(t, SecondLoad(k, m))
    case SecondLoad(k, m) =>
      if k in s.cache
      then s.Go(t, SecondCheck(k, m, s.cache[k], |s.log|))
      else s.Go(t, WantFetch(k, m))
    case SecondCheck(k, m, e, at) =>
      if s.now < e.expire
      then s.Go(t, Unlocking(k, m, e.answer, Cached(e, at, s.now)))
      else s.Go(t, WantFetch(k, m))
    case WantFetch(k, m) =>
      s.Note(t, Started(k)).Go(t, Fetching(k, m))
    case Storable(k, m, outcome, fetch) =>
      s.Go(t, Storing(k, m, outcome, fetch, s.now))
    case Storing(k, m, outcome, fetch, read) =>
      var e := Entry(AnswerOf(outcome), read + Lifetime(outcome));
      s.(cache := s.cache[k := e])
       .Note(t, Stored(k, e, outcome, fetch, read))
       .Go(t, Unlocking(k, m, e.answer, Fetched(fetch)))
    case Unlocking(k, m, answer, origin) =>
      s.(holder := s.holder - {m}).Note(t, Answered(k, answer, origin)).Go(t, Idle)
  }

  function Returned(s: State, t: Thread, outcome: Outcome): State
    requires s.At(t).Fetching?
  {
    var Fetching(k, m) := s.At(t);
    s.Note(t, Ended(k, outcome))
     .Go(t, if Cacheable(outcome)
            then Storable(k, m, outcome, |s.log|)
            else Unlocking(k, m, AnswerOf(outcome), Fetched(|s.log|)))
  }

  ghost predicate Possible(s: State, steps: seq<Step>)
    decreases |steps|
  {
    steps == [] || (Enabled(s, steps[0]) && Possible(Apply(s, steps[0]), steps[1..]))
  }

  ghost function After(s: State, steps: seq<Step>): State
    requires Possible(s, steps)
    decreases |steps|
  {
    if steps == [] then s else After(Apply(s, steps[0]), steps[1..])
  }

  ghost predicate Reachable(s: State) {
    exists steps :: Possible(INITIAL, steps) && After(INITIAL, steps) == s
  }

  // ---------------------------------------------------------------------------
  // Reading the log
  // ---------------------------------------------------------------------------

  /** The entry of `k` that the log says is in the cache. */
  ghost function Latest(log: seq<Event>, k: Key): Option<Entry> {
    if log == [] then None
    else
      match log[|log| - 1].action
      case Stored(k', e, _, _, _) => if k' == k then Some(e) else Latest(log[..|log| - 1], k)
      case Invalidated(k') => if k' == k then None else Latest(log[..|log| - 1], k)
      case _ => Latest(log[..|log| - 1], k)
  }

  datatype Kind =
    | FetchStarts
    | FetchEnds
    | ContextFailures
    | Stores
    | Expired(now: Instant)
    | Invalidations

  predicate Is(action: Action, kind: Kind, k: Key) {
    && action.key == k
    && match kind
       case FetchStarts => action.Started?
       case FetchEnds => action.Ended?
       case ContextFailures => action.Ended? && action.outcome.Failed? && action.outcome.failure.contextClass
       case Stores => action.Stored?
       case Expired(now) => action.Stored? && action.entry.expire <= now
       case Invalidations => action.Invalidated?
  }

  /** How many events of the given kind the log holds for `k`. */
  ghost function Tally(log: seq<Event>, kind: Kind, k: Key): nat {
    if log == [] then 0
    else Tally(log[..|log| - 1], kind, k) + (if Is(log[|log| - 1].action, kind, k) then 1 else 0)
  }

  lemma TallyAppend(log: seq<Event>, e: Event, kind: Kind, k: Key)
    ensures Tally(log + [e], kind, k) == Tally(log, kind, k) + (if Is(e.action, kind, k) then 1 else 0)
  {
    assert (log + [e])[..|log|] == log;
  }

  lemma LatestAppend(log: seq<Event>, e: Event, k: Key)
    ensures Latest(log + [e], k) ==
            if e.action.Stored? && e.action.key == k then Some(e.action.entry)
            else if e.action.Invalidated? && e.action.key == k then None
            else Latest(log, k)
  {
    assert (log + [e])[..|log|] == log;
  }

  /** Letting time pass can only turn stored entries into expired ones. */
  lemma {:induction false} ExpiredGrows(log: seq<Event>, k: Key, now: Instant, later: Instant)
    requires now <= later
    ensures Tally(log, Expired(now), k) <= Tally(log, Expired(later), k)
    ensures Latest(log, k).Some? && now < Latest(log, k).value.expire <= later
            ==> Tally(log, Expired(now), k) < Tally(log, Expired(later), k)
  {
    if log != [] {
      ExpiredGrows(log[..|log| - 1], k, now, later);
    }
  }

  /** The entry the log says is cached was put there by a store nothing has undone. */
  lemma {:induction false} LatestStore(log: seq<Event>, k: Key) returns (i: nat)
    requires Latest(log, k).Some?
    ensures i < |log|
    ensures log[i].action.Stored? && log[i].action.key == k
    ensures log[i].action.entry == Latest(log, k).value
    ensures forall j :: i < j < |log| ==>
              !((log[j].action.Stored? || log[j].action.Invalidated?) && log[j].action.key == k)
  {
    var n := |log| - 1;
    var last := log[n].action;
    if last.Stored? && last.key == k {
      i := n;
    } else {
      i := LatestStore(log[..n], k);
    }
  }
}
