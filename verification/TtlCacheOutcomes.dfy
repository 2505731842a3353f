/** What each caller gets, said in terms of the dicts, the clock readings and the outcome of `func`. */
module TtlCacheOutcomes {
  import opened Wrappers
  import opened OrderedDict
  import opened TtlCache
  import opened TtlCacheInvariant
  import opened TtlCacheRuns

  predicate Busy(lock: Lock) { lock.holder.Some? || lock.waiters != [] }

  /** A newcomer: the value of an entry in date; or else a place at the end of the queue of a busy lock; or
      else the failure that is as late as its arrival; or else its own computation. */
  lemma EnterOutcome(cfg: Config, s: State, c: CallId, k: Key, t0: Time, t1: Time, t2: Time, s': State)
    requires IsStep(cfg, s, Enter(c, k, t0, t1, t2), s')
    ensures c in s'.calls && s'.calls[c].key == k
    ensures var phase := s'.calls[c].phase;
            if k in s.cache.at && t0 < s.cache.at[k].expires then phase == Returned(s.cache.at[k].value)
            else if k in s.locks && Busy(s.heap[s.locks[k]]) then
              && phase == Queued(s.locks[k], t1)
              && s'.heap[s.locks[k]].waiters == s.heap[s.locks[k]].waiters + [c]
            else if k in s.failures.at && t1 <= s.failures.at[k].at then phase == Raised(s.failures.at[k].error)
            else k in s'.locks && phase == InFunc(s'.locks[k], t1) && s'.heap[s'.locks[k]].holder == Some(c)
  {
    hide Dict.Valid;
  }

  /** A call that wakes up: the value of an entry in date, or else the failure raised since it arrived, or
      else its own computation. */
  lemma WakeOutcome(cfg: Config, s: State, c: CallId, t0: Time, s': State)
    requires IsStep(cfg, s, Wake(c, t0), s')
    ensures c in s'.calls && s'.calls[c].key == s.calls[c].key
    ensures var Call(k, Queued(l, arrived)) := s.calls[c];
            var phase := s'.calls[c].phase;
            if k in s.cache.at && t0 < s.cache.at[k].expires then phase == Returned(s.cache.at[k].value)
            else if k in s.failures.at && arrived <= s.failures.at[k].at then
              phase == Raised(s.failures.at[k].error)
            else phase == InFunc(l, arrived) && s'.heap[l].holder == Some(c)
  {
    hide Dict.Valid;
  }

  /** The end of a computation: its own value, its own exception, or its cancellation. */
  lemma FinishOutcome(cfg: Config, s: State, c: CallId, outcome: Outcome, t0: Time, s': State)
    requires IsStep(cfg, s, Finish(c, outcome, t0), s')
    ensures c in s'.calls && s'.calls[c].key == s.calls[c].key
    ensures s'.calls[c].phase ==
            match outcome
            case Value(v) => Returned(v)
            case Exception(error) => Raised(error)
            case Cancellation => Cancelled
    ensures s'.heap[s.calls[c].phase.lock] == s.heap[s.calls[c].phase.lock].(holder := None)
  {
    hide Store, Dict.Valid, Dict.Put;
  }

  predicate CancelsCall(e: Event, c: CallId) {
    e == CancelWait(c) || (e.Finish? && e.call == c && e.outcome.Cancellation?)
  }

  predicate IsCancelled(s: State, c: CallId) { c in s.calls && s.calls[c].phase.Cancelled? }

  /** A result, once given, is final. */
  lemma ResultsStay(cfg: Config, s: State, e: Event, s': State, c: CallId)
    requires IsStep(cfg, s, e, s') && c in s.calls && !s.calls[c].Live()
    ensures c in s'.calls && s'.calls[c] == s.calls[c]
  {
    NextCalls(cfg, s, e);
  }

  lemma CancelledStep(cfg: Config, s: State, e: Event, s': State, c: CallId)
    requires IsStep(cfg, s, e, s')
    ensures IsCancelled(s', c) <==> IsCancelled(s, c) || CancelsCall(e, c)
  {
    if c in s.calls && !s.calls[c].Live() {
      ResultsStay(cfg, s, e, s', c);
    } else {
      NextCalls(cfg, s, e);
      match e
      case Enter(d, k, t0, t1, t2) => EnterOutcome(cfg, s, d, k, t0, t1, t2, s');
      case Wake(d, t0) => WakeOutcome(cfg, s, d, t0, s');
      case Finish(d, outcome, t0) => FinishOutcome(cfg, s, d, outcome, t0, s');
      case CancelWait(d) =>
      case Clear =>
    }
  }

  /** On every run: a call ends cancelled if and only if it was cancelled itself, parked or computing. */
  lemma {:induction false} CancelledOnRun(cfg: Config, ss: seq<State>, es: seq<Event>, n: nat, c: CallId)
    requires IsRun(cfg, ss, es) && n <= |es|
    ensures IsCancelled(ss[n], c) <==> exists m | 0 <= m < n :: CancelsCall(es[m], c)
  {
    hide IsStep, IsCancelled, CancelsCall;
    if n == 0 {
      NobodyCancelled(ss[0].clock, c);
    } else {
      CancelledOnRun(cfg, ss, es, n - 1, c);
      CancelledStep(cfg, ss[n - 1], es[n - 1], ss[n], c);
    }
  }

  lemma NobodyCancelled(start: Time, c: CallId)
    ensures !IsCancelled(Init(start), c)
  {
  }

  // ---------- How long a result is kept ----------

  /** A result, if it is kept at all, is kept as it came and for as long as it should be. */
  lemma StoredExpiry(cfg: Config, s: State, c: CallId, v: Value, t0: Time, s': State)
    requires IsStep(cfg, s, Finish(c, Value(v), t0), s') && s.calls[c].key in s'.cache.at
    ensures var Entry(value, expires) := s'.cache.at[s.calls[c].key];
            value == v && IsExpiry(cfg, v, t0, expires)
  {
    NextCache(cfg, s, Finish(c, Value(v), t0), s.calls[c].key);
  }

  /** A degraded result does not stick: a caller that comes when `retry_after` is over computes again, or
      queues up behind one that does. */
  lemma DegradedIsRetried(cfg: Config, s: State, c: CallId, v: Value, at: Time, s': State,
                          d: CallId, t0: Time, t1: Time, t2: Time, s'': State)
    requires IsStep(cfg, s, Finish(c, Value(v), at), s') && !cfg.cacheIf(v)
    requires IsStep(cfg, s', Enter(d, s.calls[c].key, t0, t1, t2), s'') && at + cfg.retryAfter <= t0
    ensures var k := s.calls[c].key;
            if k in s'.locks && Busy(s'.heap[s'.locks[k]]) then s''.calls[d].phase == Queued(s'.locks[k], t1)
            else s''.calls[d].phase.InFunc?
  {
    var k := s.calls[c].key;
    NextCache(cfg, s, Finish(c, Value(v), at), k);
    NextFailures(cfg, s, Finish(c, Value(v), at), k);
    if k in s'.cache.at {
      StoredExpiry(cfg, s, c, v, at, s');
    }
    EnterOutcome(cfg, s', d, k, t0, t1, t2, s'');
    hide IsStep, Drops, Trims, Config.Ttl;
  }
}
