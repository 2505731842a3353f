/** How large the failure records and the lock table can get: exactly when `maxsize` bounds the
    one, and what accounts for each entry of the other. */
module TtlCacheBounds {
  import opened Wrappers
  import Sets
  import opened OrderedDict
  import opened TtlCache
  import opened TtlCacheInvariant
  import opened TtlCacheRuns
  import opened TtlCacheHistory

  // ---------- Failures ----------

  /** A computation fails for a key with no failure on record, and the record is full. */
  predicate Overflows(cfg: Config, s: State, e: Event) {
    && e.Finish? && e.outcome.Exception? && e.call in s.calls
    && s.calls[e.call].key !in s.failures.at && |s.failures.at| == cfg.maxsize
  }

  /** A step keeps the failures within `maxsize` if and only if it is not such a failure. */
  lemma FailuresNext(cfg: Config, s: State, e: Event)
    requires Inv(cfg, s) && Enabled(s, e) && |s.failures.at| <= cfg.maxsize
    ensures |Next(cfg, s, e).failures.at| <= cfg.maxsize <==> !Overflows(cfg, s, e)
  {
    if e.Finish? && e.outcome.Value? {
      SuccessTrims(cfg, s, e.call, e.outcome.value, e.t0);
      Sets.SubsetSize((s.failures.at - {s.calls[e.call].key}).Keys, s.failures.at.Keys);
    } else if e.Finish? && e.outcome.Exception? {
      FailureAdds(cfg, s, e.call, e.outcome.error, e.t0);
    }
  }

  lemma FailureAdds(cfg: Config, s: State, c: CallId, error: Error, t0: Time)
    requires DictsOk(s) && Enabled(s, Finish(c, Exception(error), t0))
    ensures NextFinish(cfg, s, c, Exception(error), t0).failures.at
         == s.failures.at[s.calls[c].key := Failed(error, t0)]
  {
  }

  lemma FailuresStep(cfg: Config, s: State, e: Event, s': State)
    requires Inv(cfg, s) && IsStep(cfg, s, e, s') && |s.failures.at| <= cfg.maxsize
    ensures |s'.failures.at| <= cfg.maxsize <==> !Overflows(cfg, s, e)
  {
    FailuresNext(cfg, s, e);
  }

  /** On every run: the failures stay within `maxsize` up to event `n` if and only if no computation
      before it failed for a new key while the record was full. */
  lemma {:induction false} FailuresOnRun(cfg: Config, ss: seq<State>, es: seq<Event>, n: nat)
    requires IsRun(cfg, ss, es) && n <= |es|
    ensures (forall i | 0 <= i <= n :: |ss[i].failures.at| <= cfg.maxsize) <==>
            (forall i | 0 <= i < n :: !Overflows(cfg, ss[i], es[i]))
  {
    hide IsStep, Inv, Overflows;
    if n == 0 {
      StartsEmpty(ss[0].clock);
    } else {
      FailuresOnRun(cfg, ss, es, n - 1);
      RunInv(cfg, ss, es, n - 1);
      if |ss[n - 1].failures.at| <= cfg.maxsize {
        FailuresStep(cfg, ss[n - 1], es[n - 1], ss[n]);
      }
    }
  }

  lemma StartsEmpty(start: Time)
    ensures |Init(start).failures.at| == 0
  {
  }

  // ---------- Locks ----------

  /** A newcomer finds nothing fresh and no lock for its key, and the table is full. */
  predicate LockOverflows(cfg: Config, s: State, e: Event) {
    e.Enter? && !Fresh(s, e.key, e.t0) && e.key !in s.locks && |s.locks| == cfg.maxsize
  }

  /** A step keeps the lock table within `maxsize` if and only if it is not such an arrival. */
  lemma LocksNext(cfg: Config, s: State, e: Event, s': State)
    requires IsStep(cfg, s, e, s') && |s.locks| <= cfg.maxsize
    ensures |s'.locks| <= cfg.maxsize <==> !LockOverflows(cfg, s, e)
  {
    if e.Enter? {
      EnterLocks(s, e.call, e.key, e.t0, e.t1, e.t2);
    } else {
      OnlyEnterAdds(cfg, s, e);
      Sets.SubsetSize(s'.locks.Keys, s.locks.Keys);
    }
  }

  lemma EnterLocks(s: State, c: CallId, key: Key, t0: Time, t1: Time, t2: Time)
    requires DictsOk(s) && Enabled(s, Enter(c, key, t0, t1, t2))
    ensures NextEnter(s, c, key, t0, t1, t2).locks
         == if Fresh(s, key, t0) || key in s.locks then s.locks else s.locks[key := |s.heap|]
  {
  }

  lemma OnlyEnterAdds(cfg: Config, s: State, e: Event)
    requires DictsOk(s) && Enabled(s, e) && !e.Enter?
    ensures Next(cfg, s, e).locks.Keys <= s.locks.Keys
  {
    hide Evicts, Victim, Stored, TrimFailures, Dict.Valid, Dict.Remove, Dict.Put;
  }

  /** On every run: the lock table stays within `maxsize` up to event `n` if and only if no call before
      it arrived for a key with no lock, and nothing fresh, while the table was full. */
  lemma {:induction false} LocksOnRun(cfg: Config, ss: seq<State>, es: seq<Event>, n: nat)
    requires IsRun(cfg, ss, es) && n <= |es|
    ensures (forall i | 0 <= i <= n :: |ss[i].locks| <= cfg.maxsize) <==>
            (forall i | 0 <= i < n :: !LockOverflows(cfg, ss[i], es[i]))
  {
    hide IsStep, LockOverflows;
    if n == 0 {
    } else {
      LocksOnRun(cfg, ss, es, n - 1);
      if |ss[n - 1].locks| <= cfg.maxsize {
        LocksNext(cfg, ss[n - 1], es[n - 1], ss[n]);
      }
    }
  }

  /** Some call for `k` is parked or computing, raised, or was cancelled. */
  ghost predicate Unreturned(s: State, k: Key) {
    exists c :: c in s.calls && s.calls[c].key == k && !s.calls[c].phase.Returned?
  }

  /** A lock is in the table for an entry in the cache, or for a call that did not return a value. */
  ghost predicate LocksAccounted(s: State) {
    forall k :: k in s.locks ==> k in s.cache.at || Unreturned(s, k)
  }

  /** What a step can do to the account of one lock. */
  ghost predicate AccountFrame(s: State, e: Event, s': State, k: Key) {
    k in s'.locks ==>
      && (k in s.locks || (!e.Clear? && e.call in s'.calls && s'.calls[e.call].key == k))
      && (!e.Clear? && e.call in s'.calls && s'.calls[e.call].key == k && s'.calls[e.call].phase.Returned? ==>
            k in s'.cache.at)
      && (k in s.cache.at ==> k in s'.cache.at)
  }

  lemma NextAccount(cfg: Config, s: State, e: Event, s': State, k: Key)
    requires IsStep(cfg, s, e, s')
    ensures AccountFrame(s, e, s', k)
  {
    NextCalls(cfg, s, e);
    NextCache(cfg, s, e, k);
    NextLocks(cfg, s, e, k);
    if !e.Clear? {
      NextResult(cfg, s, e, s');
    }
    assert e.Clear? ==> Drops(cfg, s, e, k);
    hide IsStep, Drops;
  }

  lemma AccountedStep(cfg: Config, s: State, e: Event, s': State)
    requires LocksAccounted(s) && IsStep(cfg, s, e, s')
    ensures LocksAccounted(s')
  {
    NextCalls(cfg, s, e);
    hide IsStep, Next;
    forall k | k in s'.locks ensures k in s'.cache.at || Unreturned(s', k) {
      NextAccount(cfg, s, e, s', k);
      if k in s.locks && k !in s.cache.at {
        var c :| c in s.calls && s.calls[c].key == k && !s.calls[c].phase.Returned?;
        assert c in s'.calls && s'.calls[c].key == k;
      }
    }
  }

  lemma {:induction false} AccountedOnRun(cfg: Config, ss: seq<State>, es: seq<Event>, n: nat)
    requires IsRun(cfg, ss, es) && n <= |es|
    ensures LocksAccounted(ss[n])
  {
    hide IsStep, LocksAccounted;
    if n == 0 {
      NoLocksYet(ss[0].clock);
    } else {
      AccountedOnRun(cfg, ss, es, n - 1);
      AccountedStep(cfg, ss[n - 1], es[n - 1], ss[n]);
    }
  }

  lemma NoLocksYet(start: Time)
    ensures LocksAccounted(Init(start))
  {
  }

  function UnreturnedCalls(s: State): set<CallId> {
    set c | c in s.calls && !s.calls[c].phase.Returned?
  }

  function LiveCalls(s: State): set<CallId> {
    set c | c in s.calls && s.calls[c].Live()
  }

  function KeysOf(s: State, calls: set<CallId>): set<Key>
    requires calls <= s.calls.Keys
  {
    set c | c in calls :: s.calls[c].key
  }

  lemma {:induction false} KeysOfSize(s: State, calls: set<CallId>)
    requires calls <= s.calls.Keys
    ensures |KeysOf(s, calls)| <= |calls|
    decreases |calls|
  {
    if calls == {} {
    } else {
      var c :| c in calls;
      KeysOfSize(s, calls - {c});
      assert KeysOf(s, calls) == KeysOf(s, calls - {c}) + {s.calls[c].key};
    }
  }

  /** The lock table, on every run: at most `maxsize` locks, and one for each key whose calls did not
      all return; where no call ever failed or was cancelled, one for each call under way. */
  lemma LocksAreBounded(cfg: Config, ss: seq<State>, es: seq<Event>, n: nat)
    requires IsRun(cfg, ss, es) && n <= |es|
    ensures |ss[n].locks| <= cfg.maxsize + |KeysOf(ss[n], UnreturnedCalls(ss[n]))|
    ensures (forall c | c in ss[n].calls :: !ss[n].calls[c].phase.Raised? && !ss[n].calls[c].phase.Cancelled?) ==>
              |ss[n].locks| <= cfg.maxsize + |LiveCalls(ss[n])|
  {
    var s := ss[n];
    RunInv(cfg, ss, es, n);
    s.cache.Size();
    AccountedOnRun(cfg, ss, es, n);
    hide IsStep, Inv, Dict.Valid, LocksAccounted;
    var keys := KeysOf(s, UnreturnedCalls(s));
    LocksWithin(s, keys);
    Sets.SubsetSize(s.locks.Keys, s.cache.at.Keys + keys);
    KeysOfSize(s, UnreturnedCalls(s));
    if forall c | c in s.calls :: !s.calls[c].phase.Raised? && !s.calls[c].phase.Cancelled? {
      assert UnreturnedCalls(s) == LiveCalls(s);
    }
  }

  lemma LocksWithin(s: State, keys: set<Key>)
    requires LocksAccounted(s) && keys == KeysOf(s, UnreturnedCalls(s))
    ensures s.locks.Keys <= s.cache.at.Keys + keys
  {
  }
}
