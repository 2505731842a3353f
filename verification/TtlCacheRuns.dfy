/** Runs of the protocol, and single flight: how many calls compute the same thing at once.

    Whatever is promised for a key is promised as long as the lock of that key is not dropped while
    calls are on it. What happens to other keys does not matter. */
module TtlCacheRuns {
  import opened Wrappers
  import opened OrderedDict
  import opened TtlCache
  import opened TtlCacheInvariant

  /** Any interleaving of any number of calls, outcomes, cancellations and clears:
      `ss[i]` is the state before event `es[i]`. */
  ghost predicate IsRun(cfg: Config, ss: seq<State>, es: seq<Event>) {
    && |ss| == |es| + 1
    && ss[0] == Init(ss[0].clock)
    && (forall i | 0 <= i < |es| :: IsStep(cfg, ss[i], es[i], ss[i + 1]))
  }

  ghost predicate IsStep(cfg: Config, s: State, e: Event, s': State) {
    DictsOk(s) && Enabled(s, e) && s' == Next(cfg, s, e)
  }

  lemma InvInit(cfg: Config, start: Time)
    ensures Inv(cfg, Init(start))
  {
  }

  lemma InvStep(cfg: Config, s: State, e: Event, s': State)
    requires Inv(cfg, s) && IsStep(cfg, s, e, s')
    ensures Inv(cfg, s') && s.clock <= s'.clock
  {
    InvNext(cfg, s, e);
  }

  lemma {:induction false} RunInv(cfg: Config, ss: seq<State>, es: seq<Event>, n: nat)
    requires IsRun(cfg, ss, es) && n <= |es|
    ensures Inv(cfg, ss[n])
    ensures forall m | 0 <= m <= n :: ss[m].clock <= ss[n].clock
  {
    hide IsStep;
    if n == 0 {
      InvInit(cfg, ss[0].clock);
    } else {
      RunInv(cfg, ss, es, n - 1);
      InvStep(cfg, ss[n - 1], es[n - 1], ss[n]);
    }
  }

  /** No run gets stuck on the well-formedness in IsStep: every enabled event extends it. */
  lemma RunExtends(cfg: Config, ss: seq<State>, es: seq<Event>, e: Event)
    requires IsRun(cfg, ss, es) && Enabled(ss[|es|], e)
    ensures DictsOk(ss[|es|]) && IsRun(cfg, ss + [Next(cfg, ss[|es|], e)], es + [e])
  {
    RunInv(cfg, ss, es, |es|);
    var ss', es' := ss + [Next(cfg, ss[|es|], e)], es + [e];
    forall i | 0 <= i < |es'| ensures IsStep(cfg, ss'[i], es'[i], ss'[i + 1]) {
      assert i < |es| ==> IsStep(cfg, ss[i], es[i], ss[i + 1]);
    }
  }

  /** Bounded cache: at every await point of every run the cache is within its size. */
  lemma CacheIsBounded(cfg: Config, ss: seq<State>, es: seq<Event>, n: nat)
    requires IsRun(cfg, ss, es) && n <= |es|
    ensures |ss[n].cache.at| <= cfg.maxsize
  {
    RunInv(cfg, ss, es, n);
    ss[n].cache.Size();
  }

  /** Single flight per lock object, on every run whatsoever. */
  lemma SingleFlightPerLock(cfg: Config, ss: seq<State>, es: seq<Event>, n: nat, c: CallId, d: CallId)
    requires IsRun(cfg, ss, es) && n <= |es|
    requires IsInFunc(ss[n], c) && IsInFunc(ss[n], d)
    requires ss[n].calls[c].phase.lock == ss[n].calls[d].phase.lock
    ensures c == d
  {
    RunInv(cfg, ss, es, n);
    assert CallOk(ss[n].heap, ss[n].calls, c) && CallOk(ss[n].heap, ss[n].calls, d);
  }

  // ---------- What a step does to one key ----------

  /** The step takes `k` out of the cache, and its lock out of the table: an eviction, or a clear. */
  ghost predicate Drops(cfg: Config, s: State, e: Event, k: Key) {
    DictsOk(s) && Enabled(s, e) &&
    match e
    case Finish(c, Value(v), t0) =>
      var key := s.calls[c].key;
      Evicts(cfg, s, key, v, t0) && Victim(Stored(cfg, s, key, v, t0)) == k
    case Clear => true
    case _ => false
  }

  /** The step takes the failure of `k` off the record because there are too many. */
  ghost predicate Trims(cfg: Config, s: State, e: Event, k: Key) {
    DictsOk(s) && Enabled(s, e) &&
    match e
    case Finish(c, Value(_), _) =>
      var rest := s.failures.Remove(s.calls[c].key);
      |rest.keys| > cfg.maxsize && Oldest(rest) == k
    case _ => false
  }

  /** Some call on `k`, other than one that ends in this step, is parked or computing. */
  ghost predicate InUse(s: State, e: Event, k: Key) {
    exists c :: IsLive(s, c) && s.calls[c].key == k && !(e.Finish? && e.call == c)
  }

  ghost predicate KeepsLock(cfg: Config, s: State, e: Event, k: Key) {
    Drops(cfg, s, e, k) ==> !InUse(s, e, k)
  }

  /** The two dicts say the same of `k`. */
  predicate SameAt<V(==)>(a: map<Key, V>, b: map<Key, V>, k: Key) {
    (k in a <==> k in b) && (k in a ==> a[k] == b[k])
  }

  /** How long a result that came at `at` is kept: `seconds`, or the shorter of `seconds` and
      `retry_after` if `cache_if` rejects it. */
  predicate IsExpiry(cfg: Config, v: Value, at: Time, expires: Time) {
    && (cfg.cacheIf(v) ==> expires == at + cfg.seconds)
    && (!cfg.cacheIf(v) ==>
          && expires <= at + cfg.seconds && expires <= at + cfg.retryAfter
          && (expires == at + cfg.seconds || expires == at + cfg.retryAfter))
  }

  ghost predicate CacheEffect(cfg: Config, s: State, e: Event, s': State, k: Key) {
    if Drops(cfg, s, e, k) then k !in s'.cache.at
    else if e.Finish? && e.outcome.Value? && IsInFunc(s, e.call) && s.calls[e.call].key == k then
      k in s'.cache.at && s'.cache.at[k] == Entry(e.outcome.value, e.t0 + cfg.Ttl(e.outcome.value))
    else SameAt(s'.cache.at, s.cache.at, k)
  }

  ghost predicate FailuresEffect(cfg: Config, s: State, e: Event, s': State, k: Key) {
    if e.Clear? || Trims(cfg, s, e, k) then k !in s'.failures.at
    else if e.Finish? && !e.outcome.Cancellation? && IsInFunc(s, e.call) && s.calls[e.call].key == k then
      if e.outcome.Value? then k !in s'.failures.at
      else k in s'.failures.at && s'.failures.at[k] == Failed(e.outcome.error, e.t0)
    else SameAt(s'.failures.at, s.failures.at, k)
  }

  lemma NextCache(cfg: Config, s: State, e: Event, k: Key)
    requires DictsOk(s) && Enabled(s, e)
    ensures CacheEffect(cfg, s, e, Next(cfg, s, e), k)
  {
    hide Victim, Oldest, TrimFailures, Dict.Remove, Dict.Valid;
  }

  lemma NextFailures(cfg: Config, s: State, e: Event, k: Key)
    requires DictsOk(s) && Enabled(s, e)
    ensures FailuresEffect(cfg, s, e, Next(cfg, s, e), k)
  {
    hide Evicts, Victim, Stored, Oldest;
    match e
    case Finish(c, Value(v), t0) => StoreFailures(cfg, s, s.calls[c].key, v, t0, k);
    case _ =>
  }

  lemma StoreFailures(cfg: Config, s: State, key: Key, v: Value, now: Time, k: Key)
    requires DictsOk(s)
    ensures var after, rest := Store(cfg, s, key, v, now).failures.at, s.failures.Remove(key);
            if k == key || (|rest.keys| > cfg.maxsize && Oldest(rest) == k) then k !in after
            else SameAt(after, s.failures.at, k)
  {
    hide Evicts, Victim, Stored, Oldest, Dict.Remove, Dict.Valid;
  }

  /** A step touches no call but its own, and never changes the key of a call. */
  ghost predicate CallsFrame(s: State, e: Event, s': State) {
    && (forall d :: e.Clear? || d != e.call ==>
          (d in s.calls <==> d in s'.calls) && (d in s.calls ==> s'.calls[d] == s.calls[d]))
    && (!e.Clear? ==> e.call in s'.calls && s'.calls[e.call].key == EventKey(s, e))
  }

  /** The key an event is about. */
  function EventKey(s: State, e: Event): Key
    requires !e.Clear?
  {
    if e.Enter? then e.key else if e.call in s.calls then s.calls[e.call].key else Key("")
  }

  lemma NextCalls(cfg: Config, s: State, e: Event)
    requires DictsOk(s) && Enabled(s, e)
    ensures CallsFrame(s, e, Next(cfg, s, e))
  {
    hide Store, Fresh, FailedSince;
  }

  /** What a step does to the lock of `k`, and which lock its own call is on afterwards. */
  ghost predicate LocksEffect(cfg: Config, s: State, e: Event, s': State, k: Key) {
    if Drops(cfg, s, e, k) then k !in s'.locks && (e.Finish? ==> !IsLive(s', e.call))
    else
      && (k in s.locks ==> k in s'.locks && s'.locks[k] == s.locks[k])
      && (k in s'.locks ==> k in s.locks || (e.Enter? && e.key == k))
      && (!e.Clear? && IsLive(s', e.call) && s'.calls[e.call].key == k ==>
            if e.Enter? then k in s'.locks && s'.locks[k] == s'.calls[e.call].phase.lock
            else IsLive(s, e.call) && s'.calls[e.call].phase.lock == s.calls[e.call].phase.lock)
  }

  lemma NextLocks(cfg: Config, s: State, e: Event, k: Key)
    requires DictsOk(s) && Enabled(s, e)
    ensures LocksEffect(cfg, s, e, Next(cfg, s, e), k)
  {
    hide Evicts, Victim, Stored, Oldest, Dict.Remove;
    match e
    case Enter(c, key, t0, t1, t2) =>
    case Wake(c, t0) =>
    case Finish(c, outcome, t0) =>
    case CancelWait(c) =>
    case Clear =>
  }

  // ---------- Agreement on a key ----------

  /** Every live call on `k` is on the lock object that `locks` lists for it. */
  ghost predicate Agreement(s: State, k: Key) {
    forall c | IsLive(s, c) && s.calls[c].key == k :: k in s.locks && s.locks[k] == s.calls[c].phase.lock
  }

  lemma AgreementStep(cfg: Config, s: State, e: Event, s': State, k: Key)
    requires DictsOk(s) && Enabled(s, e) && Agreement(s, k)
    requires CallsFrame(s, e, s') && LocksEffect(cfg, s, e, s', k)
    ensures Agreement(s', k) <==> KeepsLock(cfg, s, e, k)
  {
    if Drops(cfg, s, e, k) {
      if d :| IsLive(s, d) && s.calls[d].key == k && !(e.Finish? && e.call == d) {
        assert IsLive(s', d);
      }
    } else {
      forall d | IsLive(s', d) && s'.calls[d].key == k
        ensures k in s'.locks && s'.locks[k] == s'.calls[d].phase.lock
      {
        assert e.Clear? || d != e.call ==> IsLive(s, d);
      }
    }
  }

  /** A step keeps the agreement on a key if and only if it does not drop its lock while in use. */
  lemma AgreementNext(cfg: Config, s: State, e: Event, k: Key)
    requires DictsOk(s) && Enabled(s, e) && Agreement(s, k)
    ensures Agreement(Next(cfg, s, e), k) <==> KeepsLock(cfg, s, e, k)
  {
    NextCalls(cfg, s, e);
    NextLocks(cfg, s, e, k);
    AgreementStep(cfg, s, e, Next(cfg, s, e), k);
  }

  lemma OneFlight(cfg: Config, s: State, k: Key, c: CallId, d: CallId)
    requires Inv(cfg, s) && Agreement(s, k)
    requires IsInFunc(s, c) && IsInFunc(s, d) && s.calls[c].key == s.calls[d].key == k
    ensures c == d
  {
    assert IsLive(s, c) && IsLive(s, d);
    assert CallOk(s.heap, s.calls, c) && CallOk(s.heap, s.calls, d);
  }

  // ---------- What holds of a key while its lock is kept ----------

  predicate Stale(s: State, k: Key) {
    k in s.cache.at ==> s.cache.at[k].expires <= s.clock
  }

  predicate FailedBefore(s: State, k: Key, t: Time) {
    k in s.failures.at ==> s.failures.at[k].at < t
  }

  /** While a call on `k` is inside `func`, the entry of `k` is absent or out of date ... */
  ghost predicate StaleKey(s: State, k: Key) {
    forall c | IsInFunc(s, c) && s.calls[c].key == k :: Stale(s, k)
  }

  /** ... and the failure on record for `k` is older than that call. */
  ghost predicate OldFailure(s: State, k: Key) {
    forall c | IsInFunc(s, c) && s.calls[c].key == k :: FailedBefore(s, k, s.calls[c].phase.arrived)
  }

  ghost predicate Settled(cfg: Config, s: State, k: Key) {
    Inv(cfg, s) && Agreement(s, k) && StaleKey(s, k) && OldFailure(s, k)
  }

  /** A call that a step puts into `func` has found nothing fresh and no failure to share. */
  ghost predicate StartEffect(s: State, e: Event, s': State) {
    !e.Clear? && IsInFunc(s', e.call) ==>
      var Call(k, phase) := s'.calls[e.call];
      Stale(s', k) && FailedBefore(s', k, phase.arrived)
  }

  lemma NextStart(cfg: Config, s: State, e: Event)
    requires DictsOk(s) && Enabled(s, e)
    ensures StartEffect(s, e, Next(cfg, s, e))
  {
  }

  lemma RecordsStaySettled(cfg: Config, s: State, e: Event, s': State, k: Key)
    requires Settled(cfg, s, k) && Enabled(s, e) && s.clock <= s'.clock
    requires CallsFrame(s, e, s') && StartEffect(s, e, s')
    requires e.Finish? ==> !IsInFunc(s', e.call)
    requires CacheEffect(cfg, s, e, s', k) && FailuresEffect(cfg, s, e, s', k)
    ensures StaleKey(s', k) && OldFailure(s', k)
  {
    hide Inv, Drops, Trims;
    forall d | IsInFunc(s', d) && s'.calls[d].key == k
      ensures Stale(s', k) && FailedBefore(s', k, s'.calls[d].phase.arrived)
    {
      if e.Clear? || d != e.call {
        assert IsInFunc(s, d);
        if e.Finish? && s.calls[e.call].key == k { OneFlight(cfg, s, k, d, e.call); }
      }
    }
  }

  /** A step leaves a key settled if and only if it does not drop its lock while in use. */
  lemma SettledNext(cfg: Config, s: State, e: Event, k: Key)
    requires Settled(cfg, s, k) && Enabled(s, e)
    ensures Settled(cfg, Next(cfg, s, e), k) <==> KeepsLock(cfg, s, e, k)
    ensures StaleKey(Next(cfg, s, e), k) && OldFailure(Next(cfg, s, e), k)
  {
    InvNext(cfg, s, e);
    AgreementNext(cfg, s, e, k);
    NextCalls(cfg, s, e);
    NextStart(cfg, s, e);
    NextCache(cfg, s, e, k);
    NextFailures(cfg, s, e, k);
    FinishEnds(cfg, s, e);
    hide Inv, Agreement, KeepsLock, Next;
    RecordsStaySettled(cfg, s, e, Next(cfg, s, e), k);
  }

  lemma FinishEnds(cfg: Config, s: State, e: Event)
    requires DictsOk(s) && Enabled(s, e)
    ensures e.Finish? ==> !IsInFunc(Next(cfg, s, e), e.call)
  {
  }

  /** From event `a`, where `k` is settled, to event `n`, the run never drops the lock of `k` while in use. */
  ghost predicate KeepsLockFrom(cfg: Config, ss: seq<State>, es: seq<Event>, a: nat, n: nat, k: Key) {
    && IsRun(cfg, ss, es) && a <= n <= |es| && Settled(cfg, ss[a], k)
    && forall i | a <= i < n :: KeepsLock(cfg, ss[i], es[i], k)
  }

  lemma {:induction false} SettledOnRun(cfg: Config, ss: seq<State>, es: seq<Event>, a: nat, n: nat, k: Key)
    requires KeepsLockFrom(cfg, ss, es, a, n, k)
    ensures Settled(cfg, ss[n], k)
  {
    hide Settled, KeepsLock, IsStep;
    if n == a {
    } else {
      SettledOnRun(cfg, ss, es, a, n - 1, k);
      SettledStep(cfg, ss[n - 1], es[n - 1], ss[n], k);
    }
  }

  lemma SettledStep(cfg: Config, s: State, e: Event, s': State, k: Key)
    requires Settled(cfg, s, k) && IsStep(cfg, s, e, s') && KeepsLock(cfg, s, e, k)
    ensures Settled(cfg, s', k)
  {
    SettledNext(cfg, s, e, k);
  }

  /** A key on which no call is live is settled, on any run, whatever was dropped before. */
  lemma IdleIsSettled(cfg: Config, ss: seq<State>, es: seq<Event>, n: nat, k: Key)
    requires IsRun(cfg, ss, es) && n <= |es|
    requires forall c :: IsLive(ss[n], c) ==> ss[n].calls[c].key != k
    ensures Settled(cfg, ss[n], k)
  {
    RunInv(cfg, ss, es, n);
    assert forall c :: IsInFunc(ss[n], c) ==> IsLive(ss[n], c);
  }

  /** While a call computes, the entry of its key is absent or out of date, and the failure on record
      for the key is older than the call; as long as the lock of the key is not dropped while in use. */
  lemma StaleWhileComputing(cfg: Config, ss: seq<State>, es: seq<Event>, a: nat, n: nat, c: CallId)
    requires n <= |es| && |ss| == |es| + 1 && IsInFunc(ss[n], c)
    requires KeepsLockFrom(cfg, ss, es, a, n, ss[n].calls[c].key)
    ensures Stale(ss[n], ss[n].calls[c].key)
    ensures FailedBefore(ss[n], ss[n].calls[c].key, ss[n].calls[c].phase.arrived)
  {
    SettledOnRun(cfg, ss, es, a, n, ss[n].calls[c].key);
  }

  // ---------- Single flight per key ----------

  /** Single flight per key, as long as the lock of that key is not dropped while in use. */
  lemma SingleFlightPerKey(cfg: Config, ss: seq<State>, es: seq<Event>, a: nat, n: nat, k: Key, c: CallId, d: CallId)
    requires KeepsLockFrom(cfg, ss, es, a, n, k)
    requires IsInFunc(ss[n], c) && IsInFunc(ss[n], d) && ss[n].calls[c].key == ss[n].calls[d].key == k
    ensures c == d
  {
    SettledOnRun(cfg, ss, es, a, n, k);
    OneFlight(cfg, ss[n], k, c, d);
  }

  ghost predicate TwoFlights(s: State, k: Key) {
    exists c, d :: c != d && IsInFunc(s, c) && IsInFunc(s, d) && s.calls[c].key == s.calls[d].key == k
  }

  ghost predicate Running(s: State, k: Key) {
    exists c :: IsInFunc(s, c) && s.calls[c].key == k
  }

  /** The event brings a call for `k` to the point where it computes: a newcomer that finds nothing
      fresh, no lock or a free one with nobody parked, and no failure as late as its arrival; or a parked
      call that wakes up and finds nothing fresh and no failure since it arrived. */
  predicate WouldCompute(s: State, e: Event, k: Key) {
    match e
    case Enter(_, key, t0, t1, _) =>
      && key == k && !Fresh(s, k, t0) && !FailedSince(s, k, t1)
      && (k in s.locks ==>
            s.locks[k] < |s.heap| && s.heap[s.locks[k]].holder.None? && s.heap[s.locks[k]].waiters == [])
    case Wake(c, t0) =>
      && IsQueued(s, c) && s.calls[c].key == k
      && !Fresh(s, k, t0) && !FailedSince(s, k, s.calls[c].phase.arrived)
    case _ => false
  }

  ghost predicate StartsFor(s: State, e: Event, s': State, k: Key) {
    !e.Clear? && !IsInFunc(s, e.call) && IsInFunc(s', e.call) && s'.calls[e.call].key == k
  }

  lemma NextComputes(cfg: Config, s: State, e: Event, k: Key)
    requires DictsOk(s) && Enabled(s, e)
    ensures StartsFor(s, e, Next(cfg, s, e), k) <==> WouldCompute(s, e, k)
    ensures !e.Clear? && IsInFunc(Next(cfg, s, e), e.call) ==> !IsInFunc(s, e.call)
  {
    hide Store, Dict.Valid, Dict.Put;
    match e
    case Enter(c, key, t0, t1, t2) =>
    case Wake(c, t0) =>
    case Finish(c, outcome, t0) =>
    case CancelWait(c) =>
    case Clear =>
  }

  /** A step makes a second flight on a key if and only if it brings a call to the point of computing
      while another call computes: for every step, in every reachable state. */
  lemma FlightsNext(cfg: Config, s: State, e: Event, s': State, k: Key)
    requires IsStep(cfg, s, e, s') && !TwoFlights(s, k)
    ensures TwoFlights(s', k) <==> WouldCompute(s, e, k) && Running(s, k)
  {
    NextCalls(cfg, s, e);
    NextComputes(cfg, s, e, k);
    FinishEnds(cfg, s, e);
    hide IsStep, WouldCompute, TwoFlights;
    forall d | Flies(s', d, k) ensures Flies(s, d, k) || (StartsFor(s, e, s', k) && d == e.call) {
    }
    if StartsFor(s, e, s', k) {
      forall d | Flies(s, d, k) ensures Flies(s', d, k) && d != e.call {
      }
      OneMoreFlight(s, s', e.call, k);
    } else {
      NoMoreFlights(s, s', k);
    }
  }

  predicate Flies(s: State, c: CallId, k: Key) { IsInFunc(s, c) && s.calls[c].key == k }

  lemma OneMoreFlight(s: State, s': State, c: CallId, k: Key)
    requires !TwoFlights(s, k) && Flies(s', c, k) && !Flies(s, c, k)
    requires forall d :: Flies(s, d, k) ==> Flies(s', d, k)
    requires forall d :: Flies(s', d, k) ==> Flies(s, d, k) || d == c
    ensures TwoFlights(s', k) <==> Running(s, k)
  {
    if d :| IsInFunc(s, d) && s.calls[d].key == k {
      assert Flies(s, d, k);
    }
    if TwoFlights(s', k) {
      var a, b :| a != b && IsInFunc(s', a) && IsInFunc(s', b) && s'.calls[a].key == s'.calls[b].key == k;
      assert Flies(s', a, k) && Flies(s', b, k);
    }
  }

  lemma NoMoreFlights(s: State, s': State, k: Key)
    requires !TwoFlights(s, k) && forall d :: Flies(s', d, k) ==> Flies(s, d, k)
    ensures !TwoFlights(s', k)
  {
    if TwoFlights(s', k) {
      var a, b :| a != b && IsInFunc(s', a) && IsInFunc(s', b) && s'.calls[a].key == s'.calls[b].key == k;
      assert Flies(s', a, k) && Flies(s', b, k);
    }
  }

  /** On every run: no key computes twice at once up to event `n` if and only if no event before it
      brought a call to the point of computing while another one computed. */
  lemma {:induction false} FlightsOnRun(cfg: Config, ss: seq<State>, es: seq<Event>, n: nat, k: Key)
    requires IsRun(cfg, ss, es) && n <= |es|
    ensures (forall i | 0 <= i <= n :: !TwoFlights(ss[i], k)) <==>
            (forall i | 0 <= i < n :: !(WouldCompute(ss[i], es[i], k) && Running(ss[i], k)))
  {
    hide IsStep, TwoFlights, WouldCompute, Running;
    if n == 0 {
      NobodyFlies(ss[0].clock, k);
    } else {
      FlightsOnRun(cfg, ss, es, n - 1, k);
      if !TwoFlights(ss[n - 1], k) {
        FlightsNext(cfg, ss[n - 1], es[n - 1], ss[n], k);
      }
    }
  }

  lemma NobodyFlies(start: Time, k: Key)
    ensures !TwoFlights(Init(start), k)
  {
  }

  /** So once `k` has neither lock nor entry, a newcomer makes a second flight if and only if a first
      one is still running, and no failure was recorded at that very reading of the clock. */
  lemma SecondFlight(cfg: Config, s: State, k: Key, c: CallId, t: Time)
    requires Inv(cfg, s) && !TwoFlights(s, k)
    requires k !in s.locks && k !in s.cache.at
    requires c !in s.calls && s.clock <= t
    ensures TwoFlights(NextEnter(s, c, k, t, t, t), k) <==> !FailedSince(s, k, t) && Running(s, k)
  {
    var e := Enter(c, k, t, t, t);
    assert IsStep(cfg, s, e, NextEnter(s, c, k, t, t, t)) && (WouldCompute(s, e, k) <==> !FailedSince(s, k, t));
    hide TwoFlights, Running, NextEnter, IsStep, WouldCompute;
    FlightsNext(cfg, s, Enter(c, k, t, t, t), NextEnter(s, c, k, t, t, t), k);
  }

  // ---------- How long an entry stays ----------

  /** A step that drops a key leaves it with neither lock nor entry. */
  lemma DropForgets(cfg: Config, s: State, e: Event, k: Key)
    requires Drops(cfg, s, e, k)
    ensures k !in Next(cfg, s, e).locks && k !in Next(cfg, s, e).cache.at
  {
    NextCache(cfg, s, e, k);
    NextLocks(cfg, s, e, k);
  }

  /** The step ends a computation for `k` with a result that makes another entry. */
  ghost predicate Overwrites(cfg: Config, s: State, e: Event, k: Key)
    requires k in s.cache.at
  {
    && e.Finish? && e.outcome.Value? && IsInFunc(s, e.call) && s.calls[e.call].key == k
    && s.cache.at[k] != Entry(e.outcome.value, e.t0 + cfg.Ttl(e.outcome.value))
  }

  /** An entry survives a step, as it is, if and only if the step neither drops its key nor overwrites it;
      and an entry in date of a settled key is never overwritten. */
  lemma EntrySurvives(cfg: Config, s: State, e: Event, k: Key)
    requires DictsOk(s) && Enabled(s, e) && k in s.cache.at
    ensures var s' := Next(cfg, s, e);
            (k in s'.cache.at && s'.cache.at[k] == s.cache.at[k]) <==> !Drops(cfg, s, e, k) && !Overwrites(cfg, s, e, k)
    ensures Settled(cfg, s, k) && s.clock < s.cache.at[k].expires ==> !Overwrites(cfg, s, e, k)
  {
    NextCache(cfg, s, e, k);
    hide Drops, Next;
    if Settled(cfg, s, k) && Overwrites(cfg, s, e, k) {
      assert Stale(s, k);
    }
  }

  /** So for a settled key, a caller that comes after the step and before the expiry computes if and only
      if the step dropped the key, and no failure is as late as the caller. */
  lemma EarlyStart(cfg: Config, s: State, e: Event, s': State, k: Key, c: CallId, t0: Time, t1: Time, t2: Time)
    requires Settled(cfg, s, k) && IsStep(cfg, s, e, s') && DictsOk(s')
    requires k in s.cache.at && s'.clock <= t0 < s.cache.at[k].expires && t0 <= t1 <= t2
    requires c !in s'.calls
    ensures IsInFunc(NextEnter(s', c, k, t0, t1, t2), c) <==> Drops(cfg, s, e, k) && !FailedSince(s', k, t1)
  {
    InvStep(cfg, s, e, s');
    EntrySurvives(cfg, s, e, k);
    if Drops(cfg, s, e, k) {
      DropForgets(cfg, s, e, k);
    }
    hide Next, Drops;
    EntryDecides(cfg, s', k, c, t0, t1, t2);
  }

  lemma EntryDecides(cfg: Config, s: State, k: Key, c: CallId, t0: Time, t1: Time, t2: Time)
    requires DictsOk(s) && c !in s.calls
    ensures k in s.cache.at && t0 < s.cache.at[k].expires ==> !IsInFunc(NextEnter(s, c, k, t0, t1, t2), c)
    ensures k !in s.cache.at && k !in s.locks ==>
              (IsInFunc(NextEnter(s, c, k, t0, t1, t2), c) <==> !FailedSince(s, k, t1))
  {
  }
}
