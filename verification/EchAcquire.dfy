/**
 `echAcquire` as the statements it is made of, run by one thread that nobody
 interrupts. It is one of the runs of the step system: the ghost trace says which.
*/
module EchAcquire {
  import opened Basics
  import opened EchCache

  /** The steps are possible from `s` and end in `s'`. */
  ghost predicate Leads(s: State, steps: seq<Step>, s': State) {
    Possible(s, steps) && After(s, steps) == s'
  }

  lemma {:induction false} LeadsOn(s: State, steps: seq<Step>, s': State, more: seq<Step>, s'': State)
    requires Leads(s, steps, s') && Leads(s', more, s'')
    ensures Leads(s, steps + more, s'')
    decreases |steps|
  {
    if steps == [] {
      assert steps + more == more;
    } else {
      LeadsOn(Apply(s, steps[0]), steps[1..], s', more, s'');
      assert (steps + more)[1..] == steps[1..] + more;
    }
  }

  /** Extends a trace by one step. */
  lemma LeadsOneMore(s: State, steps: seq<Step>, s': State, step: Step)
    requires Leads(s, steps, s') && Enabled(s', step)
    ensures Leads(s, steps + [step], Apply(s', step))
  {
    assert Possible(Apply(s', step), []);
    assert [step][1..] == [];
    LeadsOn(s, steps, s', [step], Apply(s', step));
  }

  /** So what holds of every reachable state holds before and after each call below. */
  lemma LeadsReachable(s: State, steps: seq<Step>, s': State)
    requires Reachable(s) && Leads(s, steps, s')
    ensures Reachable(s')
  {
    var before :| Possible(INITIAL, before) && After(INITIAL, before) == s;
    LeadsOn(INITIAL, before, s, steps, s');
  }

  lemma GoAgain(s: State, t: Thread, a: Pc, b: Pc)
    ensures s.Go(t, a).Go(t, b) == s.Go(t, b)
  {
    assert s.pcs[t := a][t := b] == s.pcs[t := b];
  }

  /** The answer of a live entry, and the record of having read it just now. */
  ghost function Hit(s: State, k: Key): (Answer, Origin)
    requires s.Live(k)
  {
    (s.cache[k].answer, Cached(s.cache[k], |s.log|, s.now))
  }

  lemma FirstLookup(s: State, t: Thread, k: Key) returns (steps: seq<Step>)
    requires s.At(t).Idle?
    ensures s.Live(k) ==>
              Leads(s, steps, s.Note(t, Answered(k, Hit(s, k).0, Hit(s, k).1)).Go(t, Idle))
    ensures !s.Live(k) ==> Leads(s, steps, s.Go(t, WantMutex(k)))
  {
    assert Leads(s, [], s);
    LeadsOneMore(s, [], s, Call(t, k));
    var s1 := s.Go(t, FirstLoad(k));
    steps := [] + [Call(t, k)];
    LeadsOneMore(s, steps, s1, Advance(t));
    steps := steps + [Advance(t)];
    if k in s.cache {
      var s2 := s1.Go(t, FirstCheck(k, s.cache[k], |s.log|));
      GoAgain(s, t, FirstLoad(k), FirstCheck(k, s.cache[k], |s.log|));
      LeadsOneMore(s, steps, s2, Advance(t));
      steps := steps + [Advance(t)];
      if s.Live(k) {
        var noted := s.Note(t, Answered(k, Hit(s, k).0, Hit(s, k).1));
        GoAgain(noted, t, FirstCheck(k, s.cache[k], |s.log|), Idle);
      } else {
        GoAgain(s, t, FirstCheck(k, s.cache[k], |s.log|), WantMutex(k));
      }
    } else {
      GoAgain(s, t, FirstLoad(k), WantMutex(k));
    }
  }

  ghost function MutexFor(s: State, k: Key): Mutex {
    if k in s.mutexOf then s.mutexOf[k] else s.made
  }

  ghost function LockedState(s: State, t: Thread, k: Key): State {
    var m := MutexFor(s, k);
    s.(made := s.made + 1, mutexOf := s.mutexOf[k := m], holder := s.holder[m := t]).Go(t, SecondLoad(k, m))
  }

  lemma Locking(s: State, t: Thread, k: Key) returns (steps: seq<Step>)
    requires s.At(t) == WantMutex(k) && MutexFor(s, k) !in s.holder
    ensures Leads(s, steps, LockedState(s, t, k))
  {
    var m := MutexFor(s, k);
    assert Leads(s, [], s);
    LeadsOneMore(s, [], s, Advance(t));
    var s1 := Apply(s, Advance(t));
    assert s1.At(t) == WantLock(k, m);
    steps := [] + [Advance(t)];
    LeadsOneMore(s, steps, s1, Advance(t));
    steps := steps + [Advance(t)];
    GoAgain(s.(made := s.made + 1, mutexOf := s.mutexOf[k := m], holder := s.holder[m := t]),
            t, WantLock(k, m), SecondLoad(k, m));
  }

  lemma SecondLookup(s: State, t: Thread, k: Key, m: Mutex) returns (steps: seq<Step>)
    requires s.At(t) == SecondLoad(k, m)
    ensures s.Live(k) ==> Leads(s, steps, s.Go(t, Unlocking(k, m, Hit(s, k).0, Hit(s, k).1)))
    ensures !s.Live(k) ==> Leads(s, steps, s.Go(t, WantFetch(k, m)))
  {
    assert Leads(s, [], s);
    LeadsOneMore(s, [], s, Advance(t));
    steps := [] + [Advance(t)];
    if k in s.cache {
      var pc := SecondCheck(k, m, s.cache[k], |s.log|);
      LeadsOneMore(s, steps, s.Go(t, pc), Advance(t));
      steps := steps + [Advance(t)];
      if s.Live(k) {
        GoAgain(s, t, pc, Unlocking(k, m, Hit(s, k).0, Hit(s, k).1));
      } else {
        GoAgain(s, t, pc, WantFetch(k, m));
      }
    }
  }

  /** The state in which a fetch that took `elapsed` has returned. */
  ghost function EndedState(s: State, t: Thread, k: Key, outcome: Outcome, elapsed: nat): State {
    var s1 := s.Note(t, Started(k));
    s1.(now := s1.now + elapsed).Note(t, Ended(k, outcome))
  }

  /** The state in which its outcome has been kept, if it may be. */
  ghost function FetchedState(s: State, t: Thread, k: Key, m: Mutex, outcome: Outcome, elapsed: nat): State {
    var s2 := EndedState(s, t, k, outcome, elapsed);
    var e := Entry(AnswerOf(outcome), s2.now + Lifetime(outcome));
    var fetch := |s.log| + 1;
    (if Cacheable(outcome)
     then s2.(cache := s2.cache[k := e]).Note(t, Stored(k, e, outcome, fetch, s2.now))
     else s2).Go(t, Unlocking(k, m, AnswerOf(outcome), Fetched(fetch)))
  }

  lemma RunFetch(s: State, t: Thread, k: Key, m: Mutex, outcome: Outcome, elapsed: nat)
    returns (steps: seq<Step>)
    requires s.At(t) == WantFetch(k, m)
    ensures var fetch := |s.log| + 1;
      Leads(s, steps, EndedState(s, t, k, outcome, elapsed)
                      .Go(t, if Cacheable(outcome)
                             then Storable(k, m, outcome, fetch)
                             else Unlocking(k, m, AnswerOf(outcome), Fetched(fetch))))
  {
    assert Leads(s, [], s);
    LeadsOneMore(s, [], s, Advance(t));
    steps := [] + [Advance(t)];
    var s1 := s.Note(t, Started(k)).Go(t, Fetching(k, m));
    LeadsOneMore(s, steps, s1, Tick(elapsed));
    steps := steps + [Tick(elapsed)];
    var s2 := s1.(now := s1.now + elapsed);
    LeadsOneMore(s, steps, s2, Return(t, outcome));
    steps := steps + [Return(t, outcome)];
    var s3 := EndedState(s, t, k, outcome, elapsed);
    var fetch := |s.log| + 1;
    GoAgain(s3, t, Fetching(k, m), Storable(k, m, outcome, fetch));
    GoAgain(s3, t, Fetching(k, m), Unlocking(k, m, AnswerOf(outcome), Fetched(fetch)));
  }

  lemma KeepOutcome(s: State, t: Thread, k: Key, m: Mutex, outcome: Outcome, fetch: nat)
    returns (steps: seq<Step>)
    ensures var e := Entry(AnswerOf(outcome), s.now + Lifetime(outcome));
      Leads(s.Go(t, Storable(k, m, outcome, fetch)), steps,
            s.(cache := s.cache[k := e]).Note(t, Stored(k, e, outcome, fetch, s.now))
             .Go(t, Unlocking(k, m, e.answer, Fetched(fetch))))
  {
    var s4 := s.Go(t, Storable(k, m, outcome, fetch));
    assert Leads(s4, [], s4);
    LeadsOneMore(s4, [], s4, Advance(t));
    steps := [] + [Advance(t)];
    GoAgain(s, t, Storable(k, m, outcome, fetch), Storing(k, m, outcome, fetch, s.now));
    var s5 := s.Go(t, Storing(k, m, outcome, fetch, s.now));
    LeadsOneMore(s4, steps, s5, Advance(t));
    steps := steps + [Advance(t)];
    var e := Entry(AnswerOf(outcome), s.now + Lifetime(outcome));
    GoAgain(s.(cache := s.cache[k := e]).Note(t, Stored(k, e, outcome, fetch, s.now)),
            t, Storing(k, m, outcome, fetch, s.now), Unlocking(k, m, e.answer, Fetched(fetch)));
  }

  lemma FetchAndStore(s: State, t: Thread, k: Key, m: Mutex, outcome: Outcome, elapsed: nat)
    returns (steps: seq<Step>)
    requires s.At(t) == WantFetch(k, m)
    ensures Leads(s, steps, FetchedState(s, t, k, m, outcome, elapsed))
  {
    steps := RunFetch(s, t, k, m, outcome, elapsed);
    if Cacheable(outcome) {
      var fetch := |s.log| + 1;
      var s3 := EndedState(s, t, k, outcome, elapsed);
      var more := KeepOutcome(s3, t, k, m, outcome, fetch);
      LeadsOn(s, steps, s3.Go(t, Storable(k, m, outcome, fetch)), more, FetchedState(s, t, k, m, outcome, elapsed));
      steps := steps + more;
    }
  }

  lemma Unlock(s: State, t: Thread) returns (steps: seq<Step>)
    requires s.At(t).Unlocking?
    ensures Leads(s, steps, s.(holder := s.holder - {s.At(t).mutex})
                             .Note(t, Answered(s.At(t).key, s.At(t).answer, s.At(t).origin)).Go(t, Idle))
  {
    assert Leads(s, [], s);
    LeadsOneMore(s, [], s, Advance(t));
    steps := [] + [Advance(t)];
  }

  /** The package variables `echCache` and `echFetchMu`, the mutexes in them, and the clock. */
  class SharedCache {
    var now: Instant
    var cache: map<Key, Entry>
    var mutexOf: map<Key, Mutex>
    var made: nat
    var holder: map<Mutex, Thread>
    ghost var pcs: map<Thread, Pc>
    ghost var log: seq<Event>

    ghost function Abs(): State
      reads this
    {
      State(now, cache, mutexOf, made, holder, pcs, log)
    }

    constructor ()
      ensures Abs() == INITIAL
    {
      now, cache, mutexOf, made, holder := 0, map[], map[], 0, map[];
      pcs, log := map[], [];
    }

    method EchCacheLoad(key: Key) returns (answer: Option<Answer>)
      ensures answer.Some? <==> Abs().Live(key)
      ensures answer.Some? ==> answer.value == cache[key].answer
    {
      if key !in cache {
        return None;
      }
      var e := cache[key];
      if !(e.expire > now) {
        return None;
      }
      return Some(e.answer);
    }

    /** What an undisturbed acquisition answers, and the cache and the time it leaves. */
    ghost function Found(key: Key, outcome: Outcome, elapsed: nat): (Answer, map<Key, Entry>, Instant)
      reads this
    {
      if Abs().Live(key) then (cache[key].answer, cache, now)
      else
        (AnswerOf(outcome),
         if Cacheable(outcome) then cache[key := Entry(AnswerOf(outcome), now + elapsed + Lifetime(outcome))] else cache,
         now + elapsed)
    }

    /** The answer is what the fetch came to, and the cache keeps it unless it is a context-class error. */
    ghost predicate Obtained(before: map<Key, Entry>, key: Key, outcome: Outcome, answer: Answer)
      reads this
    {
      match outcome
      case Fresh(list, ttl) =>
        && answer == Config(list)
        && cache == before[key := Entry(answer, now + (if ttl == 0 then 600 else ttl) * 1_000_000_000)]
      case Failed(failure) =>
        && answer == Refused(failure)
        && cache == if failure.contextClass then before else before[key := Entry(answer, now + 30_000_000_000)]
    }

    /** The last thing that happened is that the thread got this answer. */
    ghost predicate JustAnswered(thread: Thread, key: Key, answer: Answer)
      reads this
    {
      && |log| > 0
      && var last := log[|log| - 1];
         last.thread == thread && last.action.Answered? && last.action.key == key && last.action.answer == answer
    }

    method EchInvalidate(thread: Thread, key: Key)
      modifies this
      ensures Abs() == Apply(old(Abs()), Invalidate(thread, key))
      ensures cache == if key == "" then old(cache) else old(cache) - {key}
      ensures now == old(now) && mutexOf == old(mutexOf) && holder == old(holder)
    {
      if key != "" {
        cache := cache - {key};
        log := log + [Event(now, thread, Invalidated(key))];
      }
    }

    /** The mutex of the key, made if need be, and locked. */
    method LockKey(thread: Thread, key: Key) returns (mutex: Mutex, ghost steps: seq<Step>)
      requires Abs().At(thread) == WantMutex(key)
      requires MutexFor(Abs(), key) !in holder
      modifies this
      ensures mutex == old(MutexFor(Abs(), key)) && Abs() == LockedState(old(Abs()), thread, key)
      ensures Leads(old(Abs()), steps, Abs())
    {
      steps := Locking(Abs(), thread, key);
      pcs := pcs[thread := SecondLoad(key, MutexFor(Abs(), key))];
      mutex := made;
      if key in mutexOf {
        mutex := mutexOf[key];
      }
      mutexOf, made := mutexOf[key := mutex], made + 1;
      holder := holder[mutex := thread];
    }

    /** Runs the fetch and keeps what may be kept. */
    method FetchUnderLock(thread: Thread, key: Key, ghost mutex: Mutex, outcome: Outcome, elapsed: nat)
      returns (answer: Answer, ghost steps: seq<Step>)
      requires Abs().At(thread) == WantFetch(key, mutex)
      modifies this
      ensures outcome.Fresh? ==> answer == Config(outcome.list)
      ensures outcome.Failed? ==> answer == Refused(outcome.failure)
      ensures now == old(now) + elapsed
      ensures outcome.Failed? && outcome.failure.contextClass ==> cache == old(cache)
      ensures outcome.Failed? && !outcome.failure.contextClass ==>
                cache == old(cache)[key := Entry(answer, now + 30_000_000_000)]
      ensures outcome.Fresh? ==>
                cache == old(cache)[key := Entry(answer, now + (if outcome.ttl == 0 then 600 else outcome.ttl) * 1_000_000_000)]
      ensures Abs() == FetchedState(old(Abs()), thread, key, mutex, outcome, elapsed)
      ensures Leads(old(Abs()), steps, Abs())
    {
      steps := FetchAndStore(Abs(), thread, key, mutex, outcome, elapsed);
      ghost var end := FetchedState(Abs(), thread, key, mutex, outcome, elapsed);
      pcs, log := end.pcs, end.log;
      now := now + elapsed;
      match outcome {
        case Failed(failure) =>
          answer := Refused(failure);
          if !failure.contextClass {
            cache := cache[key := Entry(answer, now + NEGATIVE_TTL * SECOND)];
          }
        case Fresh(list, ttl) =>
          var seconds := ttl;
          if seconds == 0 {
            seconds := DEFAULT_TTL;
          }
          answer := Config(list);
          cache := cache[key := Entry(answer, now + Wrap64(seconds * SECOND))];
      }
    }

    /** The part of `echAcquire` that runs under the lock, up to the deferred unlock. */
    method LookAgainOrFetch(thread: Thread, key: Key, ghost mutex: Mutex, outcome: Outcome, elapsed: nat)
      returns (answer: Answer, ghost steps: seq<Step>)
      requires Abs().At(thread) == SecondLoad(key, mutex)
      modifies this
      ensures holder == old(holder)
      ensures (answer, cache, now) == old(Found(key, outcome, elapsed))
      ensures Abs().At(thread).Unlocking? && Abs().At(thread).mutex == mutex
      ensures Abs().At(thread).key == key && Abs().At(thread).answer == answer
      ensures Leads(old(Abs()), steps, Abs())
    {
      ghost var s2 := Abs();
      steps := SecondLookup(s2, thread, key, mutex);
      var hit := EchCacheLoad(key);
      if hit.Some? {
        answer := hit.value;
        pcs := pcs[thread := Unlocking(key, mutex, Hit(s2, key).0, Hit(s2, key).1)];
        return;
      }
      pcs := pcs[thread := WantFetch(key, mutex)];
      ghost var s3 := Abs();
      ghost var more;
      answer, more := FetchUnderLock(thread, key, mutex, outcome, elapsed);
      LeadsOn(s2, steps, s3, more, Abs());
      steps := steps + more;
    }

    method UnlockKey(thread: Thread, key: Key, mutex: Mutex, ghost answer: Answer)
      returns (ghost steps: seq<Step>)
      requires Abs().At(thread).Unlocking? && Abs().At(thread).mutex == mutex
      requires Abs().At(thread).key == key && Abs().At(thread).answer == answer
      modifies this
      ensures Abs().At(thread).Idle?
      ensures holder == old(holder) - {mutex} && cache == old(cache) && now == old(now)
      ensures JustAnswered(thread, key, answer)
      ensures Leads(old(Abs()), steps, Abs())
    {
      steps := Unlock(Abs(), thread);
      log := log + [Event(now, thread, Answered(key, answer, Abs().At(thread).origin))];
      pcs := pcs[thread := Idle];
      holder := holder - {mutex};
    }

    /**
     `outcome` and `elapsed` are what the fetch returns, if it is run, and how long it
     takes. A live key is answered even while somebody holds its mutex.
    */
    method EchAcquire(thread: Thread, key: Key, outcome: Outcome, elapsed: nat)
      returns (answer: Answer, ghost steps: seq<Step>)
      requires Abs().At(thread).Idle?
      requires !Abs().Live(key) ==> MutexFor(Abs(), key) !in holder
      modifies this
      ensures Leads(old(Abs()), steps, Abs())
      ensures old(Abs().Live(key)) ==>
                answer == old(cache[key].answer) && cache == old(cache) && now == old(now) && mutexOf == old(mutexOf)
      ensures !old(Abs().Live(key)) ==> now == old(now) + elapsed && Obtained(old(cache), key, outcome, answer)
      ensures holder == old(holder)
      ensures Abs().At(thread).Idle?
      ensures JustAnswered(thread, key, answer)
    {
      ghost var s0 := Abs();
      steps := FirstLookup(s0, thread, key);
      var hit := EchCacheLoad(key);
      if hit.Some? {
        ghost var (a, origin) := Hit(s0, key);
        pcs, log := pcs[thread := Idle], log + [Event(now, thread, Answered(key, a, origin))];
        return hit.value, steps;
      }
      pcs := pcs[thread := WantMutex(key)];
      ghost var s1 := Abs();
      ghost var more;
      answer, more := AcquireUnderLock(thread, key, outcome, elapsed);
      LeadsOn(s0, steps, s1, more, Abs());
      steps := steps + more;
    }

    method AcquireUnderLock(thread: Thread, key: Key, outcome: Outcome, elapsed: nat)
      returns (answer: Answer, ghost steps: seq<Step>)
      requires Abs().At(thread) == WantMutex(key)
      requires MutexFor(Abs(), key) !in holder
      modifies this
      ensures Leads(old(Abs()), steps, Abs())
      ensures (answer, cache, now) == old(Found(key, outcome, elapsed))
      ensures holder == old(holder)
      ensures Abs().At(thread).Idle?
      ensures JustAnswered(thread, key, answer)
    {
      ghost var s1 := Abs();
      var mutex;
      mutex, steps := LockKey(thread, key);
      ghost var s2 := Abs();
      ghost var more;
      answer, more := LookAgainOrFetch(thread, key, mutex, outcome, elapsed);
      ghost var s3 := Abs();
      LeadsOn(s1, steps, s2, more, s3);
      steps := steps + more;
      more := UnlockKey(thread, key, mutex, answer);
      LeadsOn(s1, steps, s3, more, Abs());
      steps := steps + more;
      assert holder == old(holder)[mutex := thread] - {mutex} == old(holder);
    }
  }
}
