/** The decorator's own code: three dicts, updated in place by one method per atomic segment. */
module TtlCacheObject {
  import opened Wrappers
  import opened OrderedDict
  import opened TtlCache
  import opened TtlCacheInvariant

  /** `Store`, in the order in which the code does it. */
  lemma StoreIs(cfg: Config, s: State, key: Key, v: Value, now: Time, r: State)
    requires DictsOk(s) && r == s.(cache := r.cache, locks := r.locks, failures := r.failures)
    requires r.failures == TrimFailures(cfg, s.failures.Remove(key))
    requires var cache := Stored(cfg, s, key, v, now);
             if |cache.keys| > cfg.maxsize then
               r.cache == cache.Remove(Victim(cache)) && r.locks == s.locks - {Victim(cache)}
             else r.cache == cache && r.locks == s.locks
    ensures r == Store(cfg, s, key, v, now)
  {
    hide Victim, TrimFailures, Stored;
  }

  class CachedFunction {
    const cfg: Config
    var cache: Dict<Key, Entry>
    var locks: map<Key, LockId>
    var failures: Dict<Key, Failed>
    // The event loop's side: lock objects, coroutine frames, the last clock reading.
    var heap: seq<Lock>
    var calls: map<CallId, Call>
    var clock: Time

    function View(): State
      reads this
    {
      State(cache, locks, failures, heap, calls, clock)
    }

    ghost predicate Valid()
      reads this
    {
      Inv(cfg, View())
    }

    constructor (cfg: Config, start: Time)
      ensures Valid() && View() == Init(start) && this.cfg == cfg
    {
      this.cfg := cfg;
      cache, locks, failures := Empty(), map[], Empty();
      heap, calls, clock := [], map[], start;
    }

    /** `_fresh`. */
    method LookUp(key: Key, now: Time) returns (hit: Option<Value>)
      ensures hit == if Fresh(View(), key, now) then Some(cache.at[key].value) else None
    {
      if key in cache.at {
        var entry := cache.at[key];
        if now < entry.expires {
          return Some(entry.value);
        }
      }
      return None;
    }

    /** From the call of the wrapper to its first await. */
    method Arrival(c: CallId, key: Key, t0: Time, t1: Time, t2: Time)
      requires Valid() && Enabled(View(), Enter(c, key, t0, t1, t2))
      modifies this
      ensures Valid() && View() == Next(cfg, old(View()), Enter(c, key, t0, t1, t2))
    {
      ghost var before := View();
      InvNext(cfg, before, Enter(c, key, t0, t1, t2));
      var hit := LookUp(key, t0);
      if hit.Some? {
        calls, clock := calls[c := Call(key, Returned(hit.value))], t0;
        return;
      }
      if key !in locks {
        locks := locks[key := |heap|];
        heap := heap + [Lock(key, None, [])];
      }
      var l := locks[key];
      assert View() == WithLock(before, key);
      if heap[l].holder.None? && heap[l].waiters == [] {
        UnderLock(c, key, l, t1, t2);
      } else {
        heap := heap[l := heap[l].(waiters := heap[l].waiters + [c])];
        calls, clock := calls[c := Call(key, Queued(l, t1))], t1;
      }
    }

    /** The first waiter of a free lock is woken and goes on to its next await. */
    method WakeUp(c: CallId, t0: Time)
      requires Valid() && Enabled(View(), Wake(c, t0))
      modifies this
      ensures Valid() && View() == Next(cfg, old(View()), Wake(c, t0))
    {
      InvNext(cfg, View(), Wake(c, t0));
      var Call(key, Queued(l, arrived)) := calls[c];
      heap := heap[l := heap[l].(waiters := heap[l].waiters[1..])];
      UnderLock(c, key, l, arrived, t0);
    }

    /** Inside the lock: look again, share a failure, or start `func`. */
    method UnderLock(c: CallId, key: Key, l: LockId, arrived: Time, now: Time)
      requires l < |heap|
      modifies this
      ensures View() == Body(old(View()), c, key, l, arrived, now).(clock := now)
    {
      clock := now;
      var hit := LookUp(key, now);
      var phase := InFunc(l, arrived);
      if hit.Some? {
        phase := Returned(hit.value);
      } else if key in failures.at {
        var failed := failures.at[key];
        if failed.at >= arrived {
          phase := Raised(failed.error);
        }
      }
      calls := calls[c := Call(key, phase)];
      heap := heap[l := heap[l].(holder := if phase.InFunc? then Some(c) else None)];
    }

    /** From the end of `func` to the end of the wrapper. */
    method Completion(c: CallId, outcome: Outcome, t0: Time)
      requires Valid() && Enabled(View(), Finish(c, outcome, t0))
      modifies this
      ensures Valid() && View() == Next(cfg, old(View()), Finish(c, outcome, t0))
    {
      InvNext(cfg, View(), Finish(c, outcome, t0));
      hide Inv, Store, Dict.Remove, Dict.Valid;
      var Call(key, InFunc(l, _)) := calls[c];
      match outcome {
        case Exception(e) =>
          failures := failures.Put(key, Failed(e, t0));
          clock := t0;
          Leave(c, key, l, Raised(e));
        case Cancellation =>
          Leave(c, key, l, Cancelled);
        case Value(v) =>
          Save(key, v, t0);
          clock := t0;
          Leave(c, key, l, Returned(v));
      }
    }

    /** The success path: forget the failure, store, evict. */
    method Save(key: Key, v: Value, now: Time)
      requires DictsOk(View())
      modifies this`cache, this`locks, this`failures
      ensures View() == Store(cfg, old(View()), key, v, now)
    {
      ghost var before := View();
      assert cache.Valid() && failures.Valid();
      ghost var stored := cache.Put(key, Entry(v, now + cfg.Ttl(v)));
      assert stored == Stored(cfg, before, key, v, now);
      hide *;
      failures := failures.Remove(key);
      Keep(key, v, now);
      assert cache == stored;
      Evict();
      failures := TrimFailures(cfg, failures);
      assert View() == before.(cache := cache, locks := locks, failures := failures);
      StoreIs(cfg, before, key, v, now, View());
    }

    method Keep(key: Key, v: Value, now: Time)
      requires cache.Valid()
      modifies this`cache
      ensures cache == old(cache).Put(key, Entry(v, now + cfg.Ttl(v)))
    {
      var ttl := cfg.seconds;
      if !cfg.cacheIf(v) && cfg.retryAfter < ttl {
        ttl := cfg.retryAfter;
      }
      cache := cache.Put(key, Entry(v, now + ttl));
    }

    /** An over-full cache gives up one entry, and the lock of its key. */
    method Evict()
      requires cache.Valid()
      modifies this`cache, this`locks
      ensures cache == if |old(cache).keys| > cfg.maxsize then old(cache).Remove(Victim(old(cache))) else old(cache)
      ensures locks == if |old(cache).keys| > cfg.maxsize then old(locks) - {Victim(old(cache))} else old(locks)
    {
      hide Victim;
      if |cache.keys| > cfg.maxsize {
        var oldest := Victim(cache);
        cache := cache.Remove(oldest);
        locks := locks - {oldest};
      }
    }

    /** `__aexit__` of the lock, and the wrapper's result. */
    method Leave(c: CallId, key: Key, l: LockId, phase: Phase)
      requires l < |heap|
      modifies this`calls, this`heap
      ensures View() == Settle(old(View()), c, key, phase, l, None)
    {
      calls := calls[c := Call(key, phase)];
      heap := heap[l := heap[l].(holder := None)];
    }

    /** A parked caller gives up. */
    method Abandon(c: CallId)
      requires Valid() && Enabled(View(), CancelWait(c))
      modifies this
      ensures Valid() && View() == Next(cfg, old(View()), CancelWait(c))
    {
      InvNext(cfg, View(), CancelWait(c));
      var Call(key, Queued(l, _)) := calls[c];
      heap := heap[l := heap[l].(waiters := Without(heap[l].waiters, c))];
      calls := calls[c := Call(key, Cancelled)];
    }

    /** `cache_clear`. */
    method CacheClear()
      requires Valid()
      modifies this
      ensures Valid() && View() == Next(cfg, old(View()), Clear)
    {
      InvNext(cfg, View(), Clear);
      cache, locks, failures := Empty(), map[], Empty();
    }
  }
}
