/** Where results come from, how often `func` runs, and which entry is evicted. */
module TtlCacheHistory {
  import opened Wrappers
  import opened OrderedDict
  import opened TtlCache
  import opened TtlCacheInvariant
  import opened TtlCacheRuns

  // ---------- Provenance, on all runs ----------

  /** Event `i` ends a computation for `key` with this outcome at this time. */
  predicate Ends(ss: seq<State>, es: seq<Event>, i: int, key: Key, outcome: Outcome, at: Time) {
    && 0 <= i < |es| && i < |ss|
    && es[i].Finish? && es[i].outcome == outcome && es[i].t0 == at
    && IsInFunc(ss[i], es[i].call) && ss[i].calls[es[i].call].key == key
  }

  ghost predicate EntrySince(cfg: Config, ss: seq<State>, es: seq<Event>, n: int, key: Key, entry: Entry) {
    exists i, at :: i < n && Ends(ss, es, i, key, Value(entry.value), at)
                    && IsExpiry(cfg, entry.value, at, entry.expires)
  }

  ghost predicate FailureSince(ss: seq<State>, es: seq<Event>, n: int, key: Key, f: Failed) {
    exists i :: i < n && Ends(ss, es, i, key, Exception(f.error), f.at)
  }

  /** Every record is the trace of a computation for the same key earlier in the run. */
  ghost predicate RecordsJustified(cfg: Config, ss: seq<State>, es: seq<Event>, n: nat)
    requires n < |ss|
  {
    && (forall k :: k in ss[n].cache.at ==> EntrySince(cfg, ss, es, n, k, ss[n].cache.at[k]))
    && (forall k :: k in ss[n].failures.at ==> FailureSince(ss, es, n, k, ss[n].failures.at[k]))
  }

  /** A step adds no record but that of the computation it ends. */
  ghost predicate RecordsFrame(cfg: Config, s: State, e: Event, s': State) {
    && (forall k :: k in s'.cache.at ==> EntryFrame(cfg, s, e, s', k))
    && (forall k :: k in s'.failures.at ==> FailureFrame(s, e, s', k))
  }

  ghost predicate EntryFrame(cfg: Config, s: State, e: Event, s': State, k: Key)
    requires k in s'.cache.at
  {
    || (k in s.cache.at && s'.cache.at[k] == s.cache.at[k])
    || (e.Finish? && e.outcome.Value? && IsInFunc(s, e.call) && s.calls[e.call].key == k
        && s'.cache.at[k] == Entry(e.outcome.value, e.t0 + cfg.Ttl(e.outcome.value)))
  }

  ghost predicate FailureFrame(s: State, e: Event, s': State, k: Key)
    requires k in s'.failures.at
  {
    || (k in s.failures.at && s'.failures.at[k] == s.failures.at[k])
    || (e.Finish? && e.outcome.Exception? && IsInFunc(s, e.call) && s.calls[e.call].key == k
        && s'.failures.at[k] == Failed(e.outcome.error, e.t0))
  }

  lemma NextRecords(cfg: Config, s: State, e: Event, s': State)
    requires IsStep(cfg, s, e, s')
    ensures RecordsFrame(cfg, s, e, s')
  {
    hide *;
    forall k | k in s'.cache.at ensures EntryFrame(cfg, s, e, s', k) {
      NextRecord(cfg, s, e, s', k);
    }
    forall k | k in s'.failures.at ensures FailureFrame(s, e, s', k) {
      NextRecord(cfg, s, e, s', k);
    }
    FrameAll(cfg, s, e, s');
  }

  lemma FrameAll(cfg: Config, s: State, e: Event, s': State)
    requires forall k :: k in s'.cache.at ==> EntryFrame(cfg, s, e, s', k)
    requires forall k :: k in s'.failures.at ==> FailureFrame(s, e, s', k)
    ensures RecordsFrame(cfg, s, e, s')
  {
  }

  lemma NextRecord(cfg: Config, s: State, e: Event, s': State, k: Key)
    requires IsStep(cfg, s, e, s')
    ensures k in s'.cache.at ==> EntryFrame(cfg, s, e, s', k)
    ensures k in s'.failures.at ==> FailureFrame(s, e, s', k)
  {
    NextCache(cfg, s, e, k);
    NextFailures(cfg, s, e, k);
    assert e.Finish? ==> IsInFunc(s, e.call);
    hide IsStep, Drops, Trims;
  }

  lemma {:induction false} RecordsOnRun(cfg: Config, ss: seq<State>, es: seq<Event>, n: nat)
    requires IsRun(cfg, ss, es) && n <= |es|
    ensures RecordsJustified(cfg, ss, es, n)
  {
    hide IsStep, RecordsFrame, RecordsJustified;
    if n == 0 {
      NoRecords(cfg, ss, es);
    } else {
      RecordsOnRun(cfg, ss, es, n - 1);
      NextRecords(cfg, ss[n - 1], es[n - 1], ss[n]);
      RecordsStep(cfg, ss, es, n - 1);
    }
  }

  lemma NoRecords(cfg: Config, ss: seq<State>, es: seq<Event>)
    requires |ss| > 0 && ss[0] == Init(ss[0].clock)
    ensures RecordsJustified(cfg, ss, es, 0)
  {
  }

  lemma RecordsStep(cfg: Config, ss: seq<State>, es: seq<Event>, n: nat)
    requires n < |es| && |ss| == |es| + 1
    requires RecordsJustified(cfg, ss, es, n) && RecordsFrame(cfg, ss[n], es[n], ss[n + 1])
    ensures RecordsJustified(cfg, ss, es, n + 1)
  {
    var s, s' := ss[n], ss[n + 1];
    forall k | k in s'.cache.at ensures EntrySince(cfg, ss, es, n + 1, k, s'.cache.at[k]) {
      var entry := s'.cache.at[k];
      if k in s.cache.at && entry == s.cache.at[k] {
        assert EntrySince(cfg, ss, es, n, k, entry);
      } else {
        assert Ends(ss, es, n, k, Value(entry.value), es[n].t0);
      }
    }
    forall k | k in s'.failures.at ensures FailureSince(ss, es, n + 1, k, s'.failures.at[k]) {
      var f := s'.failures.at[k];
      if k in s.failures.at && f == s.failures.at[k] {
        assert FailureSince(ss, es, n, k, f);
        var i :| i < n && Ends(ss, es, i, k, Exception(f.error), f.at);
      } else {
        assert Ends(ss, es, n, k, Exception(f.error), f.at);
      }
    }
  }

  /** A result that came at `at` may still be handed out at `now`: `seconds` are not over, nor, if
      `cache_if` rejects it, is `retry_after`. */
  predicate InDate(cfg: Config, v: Value, at: Time, now: Time) {
    now < at + cfg.seconds && (!cfg.cacheIf(v) ==> now < at + cfg.retryAfter)
  }

  /** Step `m` hands `v` to a call for `key`: computed by that call itself,
      or computed for the same key earlier in the run and read before its time was up. */
  ghost predicate HandsOver(cfg: Config, ss: seq<State>, es: seq<Event>, m: int, c: CallId, key: Key, v: Value) {
    && 0 <= m < |es| && !es[m].Clear? && es[m].call == c
    && (|| (es[m].Finish? && Ends(ss, es, m, key, Value(v), es[m].t0))
        || ((es[m].Enter? || es[m].Wake?)
            && exists i, at :: i < m && Ends(ss, es, i, key, Value(v), at) && InDate(cfg, v, at, es[m].t0)))
  }

  /** Step `m` raises `error` in a call for `key`: raised by its own computation, or by one
      for the same key that failed no earlier than the call arrived. */
  ghost predicate Throws(ss: seq<State>, es: seq<Event>, m: int, c: CallId, key: Key, error: Error) {
    && 0 <= m < |es| && m < |ss| && !es[m].Clear? && es[m].call == c
    && (|| (es[m].Finish? && Ends(ss, es, m, key, Exception(error), es[m].t0))
        || (es[m].Enter? && exists i, at :: i < m && Ends(ss, es, i, key, Exception(error), at) && at >= es[m].t1)
        || (es[m].Wake? && IsQueued(ss[m], c)
            && exists i, at :: i < m && Ends(ss, es, i, key, Exception(error), at)
                               && at >= ss[m].calls[c].phase.arrived))
  }

  ghost predicate ResultJustified(cfg: Config, ss: seq<State>, es: seq<Event>, n: int, c: CallId, call: Call) {
    match call.phase
    case Returned(v) => exists m :: m < n && HandsOver(cfg, ss, es, m, c, call.key, v)
    case Raised(error) => exists m :: m < n && Throws(ss, es, m, c, call.key, error)
    case _ => true
  }

  /** Which of the two dicts a call's new result was read from. */
  ghost predicate ResultEffect(s: State, e: Event, s': State)
    requires !e.Clear? && e.call in s'.calls
  {
    var key := s'.calls[e.call].key;
    match s'.calls[e.call].phase
    case Returned(v) =>
      if e.Finish? then e.outcome == Value(v) && IsInFunc(s, e.call) && s.calls[e.call].key == key
      else (e.Enter? || e.Wake?) && Fresh(s, key, e.t0) && s.cache.at[key].value == v
    case Raised(error) =>
      if e.Finish? then e.outcome == Exception(error) && IsInFunc(s, e.call) && s.calls[e.call].key == key
      else if e.Enter? then FailedSince(s, key, e.t1) && s.failures.at[key].error == error
      else
        && e.Wake? && IsQueued(s, e.call)
        && FailedSince(s, key, s.calls[e.call].phase.arrived) && s.failures.at[key].error == error
    case _ => true
  }

  lemma NextResult(cfg: Config, s: State, e: Event, s': State)
    requires IsStep(cfg, s, e, s') && !e.Clear?
    ensures e.call in s'.calls && ResultEffect(s, e, s')
  {
    match e
    case Enter(c, key, t0, t1, t2) => assert s'.calls[c].key == key;
    case Wake(c, t0) =>
    case Finish(c, outcome, t0) =>
    case CancelWait(c) =>
  }

  lemma ResultStep(cfg: Config, ss: seq<State>, es: seq<Event>, n: nat)
    requires n < |es| && |ss| == |es| + 1 && !es[n].Clear? && es[n].call in ss[n + 1].calls
    requires RecordsJustified(cfg, ss, es, n) && ResultEffect(ss[n], es[n], ss[n + 1])
    ensures ResultJustified(cfg, ss, es, n + 1, es[n].call, ss[n + 1].calls[es[n].call])
  {
    var c := es[n].call;
    var Call(key, phase) := ss[n + 1].calls[c];
    if phase.Returned? {
      if es[n].Finish? {
        assert Ends(ss, es, n, key, Value(phase.value), es[n].t0);
      } else {
        assert EntrySince(cfg, ss, es, n, key, ss[n].cache.at[key]);
      }
      assert HandsOver(cfg, ss, es, n, c, key, phase.value);
    }
    if phase.Raised? {
      if es[n].Finish? {
        assert Ends(ss, es, n, key, Exception(phase.error), es[n].t0);
      } else {
        assert FailureSince(ss, es, n, key, ss[n].failures.at[key]);
        var i :| i < n && Ends(ss, es, i, key, Exception(phase.error), ss[n].failures.at[key].at);
      }
      assert Throws(ss, es, n, c, key, phase.error);
    }
  }

  /** Provenance: every value ever returned and every exception ever delivered. */
  lemma {:induction false} Provenance(cfg: Config, ss: seq<State>, es: seq<Event>, n: nat, c: CallId)
    requires IsRun(cfg, ss, es) && n <= |es| && c in ss[n].calls
    ensures ResultJustified(cfg, ss, es, n, c, ss[n].calls[c])
  {
    hide RecordsJustified, ResultEffect;
    if n == 0 {
    } else {
      assert IsStep(cfg, ss[n - 1], es[n - 1], ss[n]);
      NextCalls(cfg, ss[n - 1], es[n - 1]);
      if es[n - 1].Clear? || c != es[n - 1].call {
        Provenance(cfg, ss, es, n - 1, c);
      } else {
        RecordsOnRun(cfg, ss, es, n - 1);
        NextResult(cfg, ss[n - 1], es[n - 1], ss[n]);
        ResultStep(cfg, ss, es, n - 1);
      }
    }
  }

  // ---------- How often func runs ----------

  /** Event `n` starts a computation for `key`; `StartTime` is the reading that found nothing fresh. */
  predicate Starts(ss: seq<State>, es: seq<Event>, n: int, key: Key) {
    && 0 <= n < |es| && |ss| == |es| + 1 && (es[n].Enter? || es[n].Wake?)
    && !IsInFunc(ss[n], es[n].call) && IsInFunc(ss[n + 1], es[n].call)
    && ss[n + 1].calls[es[n].call].key == key
  }

  function StartTime(e: Event): Time {
    match e
    case Enter(_, _, _, _, t2) => t2
    case Wake(_, t0) => t0
    case _ => 0.0
  }

  lemma StartFindsStale(cfg: Config, ss: seq<State>, es: seq<Event>, n: nat, key: Key)
    requires n < |es| && Starts(ss, es, n, key) && IsStep(cfg, ss[n], es[n], ss[n + 1])
    ensures ss[n].clock <= StartTime(es[n]) == ss[n + 1].clock
    ensures ss[n + 1].cache == ss[n].cache && Stale(ss[n + 1], key)
  {
  }

  /** From event `a` to event `n`, the key is neither evicted nor cleared. */
  ghost predicate NoDrop(cfg: Config, ss: seq<State>, es: seq<Event>, a: nat, n: nat, key: Key)
    requires |ss| == |es| + 1 && n <= |es|
  {
    forall i | a <= i < n :: !Drops(cfg, ss[i], es[i], key)
  }

  /** A time by which nothing stored for `key` so far is out of date, or the entry that says so. */
  ghost predicate Covers(s: State, key: Key, expires: Time) {
    expires <= s.clock || (key in s.cache.at && s.cache.at[key].expires == expires)
  }

  lemma CoversStep(cfg: Config, s: State, e: Event, s': State, key: Key, expires: Time)
    requires Settled(cfg, s, key) && IsStep(cfg, s, e, s') && !Drops(cfg, s, e, key) && Covers(s, key, expires)
    ensures Covers(s', key, expires)
  {
    InvStep(cfg, s, e, s');
    NextCache(cfg, s, e, key);
    hide Inv, Drops, IsStep;
  }

  lemma StoreCovers(cfg: Config, s: State, c: CallId, v: Value, t0: Time, s': State)
    requires IsStep(cfg, s, Finish(c, Value(v), t0), s') && !Drops(cfg, s, Finish(c, Value(v), t0), s.calls[c].key)
    ensures var key := s.calls[c].key;
            key in s'.cache.at && s'.cache.at[key] == Entry(v, t0 + cfg.Ttl(v)) && s'.clock == t0
  {
    NextCache(cfg, s, Finish(c, Value(v), t0), s.calls[c].key);
  }

  lemma {:induction false} CoversOnRun(cfg: Config, ss: seq<State>, es: seq<Event>, a: nat, n: nat,
                                       key: Key, expires: Time)
    requires IsRun(cfg, ss, es) && a <= n <= |es| && Settled(cfg, ss[a], key) && NoDrop(cfg, ss, es, a, n, key)
    requires Covers(ss[a], key, expires)
    ensures Covers(ss[n], key, expires)
  {
    hide Settled, Drops, IsStep, Covers;
    if n == a {
    } else {
      CoversOnRun(cfg, ss, es, a, n - 1, key, expires);
      SettledOnRun(cfg, ss, es, a, n - 1, key);
      CoversStep(cfg, ss[n - 1], es[n - 1], ss[n], key, expires);
    }
  }

  /** Spacing: no computation for a key starts before the time to live of an earlier result for it
      is over, failures and cancellations in between or not, unless the key was dropped since. */
  lemma StartsAreSpaced(cfg: Config, ss: seq<State>, es: seq<Event>, i: nat, n: nat, key: Key, v: Value, at: Time)
    requires IsRun(cfg, ss, es) && i < n < |es| && Settled(cfg, ss[i], key) && NoDrop(cfg, ss, es, i, n, key)
    requires Ends(ss, es, i, key, Value(v), at) && Starts(ss, es, n, key)
    ensures !InDate(cfg, v, at, StartTime(es[n]))
  {
    assert IsStep(cfg, ss[i], es[i], ss[i + 1]) && IsStep(cfg, ss[n], es[n], ss[n + 1]);
    assert InDate(cfg, v, at, StartTime(es[n])) <==> StartTime(es[n]) < at + cfg.Ttl(v);
    hide IsStep, Drops, Config.Ttl, Settled, InDate;
    SettledOnRun(cfg, ss, es, i, i + 1, key);
    StoreCovers(cfg, ss[i], es[i].call, v, at, ss[i + 1]);
    CoversOnRun(cfg, ss, es, i + 1, n, key, at + cfg.Ttl(v));
    StartFindsStale(cfg, ss, es, n, key);
  }

  /** How many computations for `key` start from event `a` on and before event `n`. */
  function CountStarts(ss: seq<State>, es: seq<Event>, a: nat, n: nat, key: Key): nat {
    if n <= a then 0 else CountStarts(ss, es, a, n - 1, key) + if Starts(ss, es, n - 1, key) then 1 else 0
  }

  /** Every computation for `key` that ends in between ends with a result worth the full time to live. */
  ghost predicate FullResults(cfg: Config, ss: seq<State>, es: seq<Event>, a: nat, n: nat, key: Key)
    requires |ss| == |es| + 1 && n <= |es|
  {
    forall i | a <= i < n && IsEnd(ss[i], es[i], key) :: IsFullResult(cfg, es[i].outcome)
  }

  ghost predicate IsEnd(s: State, e: Event, key: Key) {
    e.Finish? && IsInFunc(s, e.call) && s.calls[e.call].key == key
  }

  predicate IsFullResult(cfg: Config, outcome: Outcome) {
    outcome.Value? && (cfg.cacheIf(outcome.value) || cfg.seconds <= cfg.retryAfter)
  }

  /** `m` times the time to live. */
  function Span(m: nat, seconds: real): real {
    if m == 0 then 0.0 else Span(m - 1, seconds) + seconds
  }

  lemma {:induction false} SpanIs(m: nat, seconds: real)
    ensures Span(m, seconds) == m as real * seconds
  {
    if m == 0 {
    } else {
      SpanIs(m - 1, seconds);
      assert m as real == (m - 1) as real + 1.0;
    }
  }

  /** `m` computations have started since `start`: the last one is running, or its result is kept. */
  ghost predicate Paced(cfg: Config, s: State, key: Key, start: Time, m: nat) {
    m == 0 || RunningOrKept(s, key, start + Span(m - 1, cfg.seconds), start + Span(m, cfg.seconds))
  }

  ghost predicate RunningOrKept(s: State, key: Key, since: Time, until: Time) {
    || (Running(s, key) && since <= s.clock)
    || (key in s.cache.at && s.cache.at[key].expires >= until)
  }

  /** A start finds the previous computation over, so its time to live has passed. */
  lemma StartFindsOver(cfg: Config, ss: seq<State>, es: seq<Event>, n: nat, key: Key, since: Time, until: Time)
    requires n < |es| && Starts(ss, es, n, key) && IsStep(cfg, ss[n], es[n], ss[n + 1])
    requires Settled(cfg, ss[n + 1], key) && RunningOrKept(ss[n], key, since, until)
    ensures until <= StartTime(es[n])
  {
    StartFindsStale(cfg, ss, es, n, key);
    NextCalls(cfg, ss[n], es[n]);
    hide IsStep;
    if c :| IsInFunc(ss[n], c) && ss[n].calls[c].key == key {
      assert IsInFunc(ss[n + 1], c);
      OneFlight(cfg, ss[n + 1], key, c, es[n].call);
    }
  }

  lemma PacedStart(cfg: Config, ss: seq<State>, es: seq<Event>, n: nat, key: Key, start: Time, m: nat)
    requires n < |es| && Starts(ss, es, n, key) && IsStep(cfg, ss[n], es[n], ss[n + 1])
    requires Settled(cfg, ss[n + 1], key) && start <= ss[n].clock && Paced(cfg, ss[n], key, start, m)
    ensures start + Span(m, cfg.seconds) <= StartTime(es[n])
  {
    hide IsStep, Settled, Starts, RunningOrKept;
    if m == 0 {
      StartFindsStale(cfg, ss, es, n, key);
    } else {
      StartFindsOver(cfg, ss, es, n, key, start + Span(m - 1, cfg.seconds), start + Span(m, cfg.seconds));
    }
  }

  lemma PacedBegin(cfg: Config, ss: seq<State>, es: seq<Event>, n: nat, key: Key, start: Time, m: nat)
    requires n < |es| && Starts(ss, es, n, key) && IsStep(cfg, ss[n], es[n], ss[n + 1])
    requires Settled(cfg, ss[n + 1], key) && start <= ss[n].clock && Paced(cfg, ss[n], key, start, m)
    ensures Paced(cfg, ss[n + 1], key, start, m + 1)
  {
    PacedStart(cfg, ss, es, n, key, start, m);
    StartFindsStale(cfg, ss, es, n, key);
    assert IsInFunc(ss[n + 1], es[n].call);
    hide Settled, IsStep, Span;
  }

  /** The end of a computation turns the first way of being paced into the second. */
  lemma PacedEnd(cfg: Config, s: State, c: CallId, v: Value, t0: Time, s': State, key: Key, since: Time)
    requires IsStep(cfg, s, Finish(c, Value(v), t0), s') && !Drops(cfg, s, Finish(c, Value(v), t0), key)
    requires s.calls[c].key == key && IsFullResult(cfg, Value(v)) && cfg.seconds >= 0.0
    requires RunningOrKept(s, key, since, since + cfg.seconds) && StaleKey(s, key)
    ensures RunningOrKept(s', key, since, since + cfg.seconds)
  {
    StoreCovers(cfg, s, c, v, t0, s');
    assert IsInFunc(s, c) && Stale(s, key) && s.clock <= t0;
    hide IsStep, Drops, Running;
  }

  lemma PacedRest(cfg: Config, s: State, e: Event, s': State, key: Key, since: Time, until: Time)
    requires Inv(cfg, s) && IsStep(cfg, s, e, s') && !Drops(cfg, s, e, key) && !IsEnd(s, e, key)
    requires RunningOrKept(s, key, since, until)
    ensures RunningOrKept(s', key, since, until)
  {
    InvStep(cfg, s, e, s');
    NextCache(cfg, s, e, key);
    assert e.Finish? ==> IsInFunc(s, e.call);
    if Running(s, key) {
      RunningStays(cfg, s, e, s', key);
    }
    hide Inv, IsStep, Drops, Running;
  }

  lemma RunningStays(cfg: Config, s: State, e: Event, s': State, key: Key)
    requires IsStep(cfg, s, e, s') && !IsEnd(s, e, key) && Running(s, key)
    ensures Running(s', key)
  {
    NextCalls(cfg, s, e);
    var c :| IsInFunc(s, c) && s.calls[c].key == key;
    assert IsInFunc(s', c) && s'.calls[c].key == key;
  }

  lemma PacedStep(cfg: Config, ss: seq<State>, es: seq<Event>, n: nat, key: Key, start: Time, m: nat)
    requires n < |es| && |ss| == |es| + 1 && cfg.seconds >= 0.0
    requires Settled(cfg, ss[n], key) && IsStep(cfg, ss[n], es[n], ss[n + 1]) && Settled(cfg, ss[n + 1], key)
    requires !Drops(cfg, ss[n], es[n], key) && (IsEnd(ss[n], es[n], key) ==> IsFullResult(cfg, es[n].outcome))
    requires start <= ss[n].clock && Paced(cfg, ss[n], key, start, m)
    ensures Paced(cfg, ss[n + 1], key, start, if Starts(ss, es, n, key) then m + 1 else m)
  {
    assert StaleKey(ss[n], key) && Inv(cfg, ss[n]);
    hide IsStep, Settled, Drops, Inv, RunningOrKept, StaleKey;
    if Starts(ss, es, n, key) {
      PacedBegin(cfg, ss, es, n, key, start, m);
    } else if m > 0 {
      var since := start + Span(m - 1, cfg.seconds);
      if IsEnd(ss[n], es[n], key) {
        PacedEnd(cfg, ss[n], es[n].call, es[n].outcome.value, es[n].t0, ss[n + 1], key, since);
      } else {
        PacedRest(cfg, ss[n], es[n], ss[n + 1], key, since, since + cfg.seconds);
      }
    }
  }

  lemma PacedAtStart(cfg: Config, s: State, key: Key, start: Time)
    ensures Paced(cfg, s, key, start, 0)
  {
  }

  lemma {:induction false} PacedOnRun(cfg: Config, ss: seq<State>, es: seq<Event>, a: nat, n: nat, key: Key)
    requires IsRun(cfg, ss, es) && a <= n <= |es| && Settled(cfg, ss[a], key) && cfg.seconds >= 0.0
    requires NoDrop(cfg, ss, es, a, n, key) && FullResults(cfg, ss, es, a, n, key)
    ensures Paced(cfg, ss[n], key, ss[a].clock, CountStarts(ss, es, a, n, key))
  {
    hide IsStep, Settled, Paced, Starts, Inv, Drops, IsFullResult, IsEnd;
    if n == a {
      PacedAtStart(cfg, ss[a], key, ss[a].clock);
    } else {
      PacedOnRun(cfg, ss, es, a, n - 1, key);
      RunInv(cfg, ss, es, n - 1);
      SettledOnRun(cfg, ss, es, a, n - 1, key);
      SettledOnRun(cfg, ss, es, a, n, key);
      PacedStep(cfg, ss, es, n - 1, key, ss[a].clock, CountStarts(ss, es, a, n - 1, key));
    }
  }

  /** Rate bound: from any settled point on, if the key is not dropped and nothing for it fails, is cancelled
      or is degraded, then the first `m + 1` computations for it take at least `m` times the time to live. */
  lemma RateBound(cfg: Config, ss: seq<State>, es: seq<Event>, a: nat, n: nat, key: Key)
    requires IsRun(cfg, ss, es) && a <= n < |es| && Settled(cfg, ss[a], key) && Starts(ss, es, n, key)
    requires NoDrop(cfg, ss, es, a, n, key) && FullResults(cfg, ss, es, a, n, key)
    ensures CountStarts(ss, es, a, n, key) as real * cfg.seconds <= StartTime(es[n]) - ss[a].clock
  {
    hide CountStarts, Paced, Starts, FullResults, Drops, IsStep, NoDrop, Settled;
    var m := CountStarts(ss, es, a, n, key);
    if cfg.seconds < 0.0 {
      NoDebt(m, cfg.seconds);
      PacedAtStart(cfg, ss[n], key, ss[a].clock);
      StartAfter(cfg, ss, es, a, n, key, 0);
      assert Span(0, cfg.seconds) == 0.0;
    } else {
      PacedOnRun(cfg, ss, es, a, n, key);
      StartAfter(cfg, ss, es, a, n, key, m);
      SpanIs(m, cfg.seconds);
    }
  }

  lemma NoDebt(m: nat, x: real)
    requires x < 0.0
    ensures m as real * x <= 0.0
  {
  }

  lemma StartAfter(cfg: Config, ss: seq<State>, es: seq<Event>, a: nat, n: nat, key: Key, m: nat)
    requires IsRun(cfg, ss, es) && a <= n < |es| && Settled(cfg, ss[a], key) && Starts(ss, es, n, key)
    requires NoDrop(cfg, ss, es, a, n, key) && Paced(cfg, ss[n], key, ss[a].clock, m)
    ensures ss[a].clock + Span(m, cfg.seconds) <= StartTime(es[n])
  {
    assert IsStep(cfg, ss[n], es[n], ss[n + 1]);
    StartIsNoDrop(cfg, ss, es, n, key);
    hide IsStep, Settled, Paced, Starts, Inv, Drops, Span;
    RunInv(cfg, ss, es, n);
    SettledOnRun(cfg, ss, es, a, n + 1, key);
    PacedStart(cfg, ss, es, n, key, ss[a].clock, m);
  }

  lemma StartIsNoDrop(cfg: Config, ss: seq<State>, es: seq<Event>, n: nat, key: Key)
    requires Starts(ss, es, n, key)
    ensures !Drops(cfg, ss[n], es[n], key)
  {
  }

  // ---------- Which entry is evicted ----------

  ghost predicate IsVictim(cache: Dict<Key, Entry>, i: int, victim: Key)
    requires cache.Valid()
  {
    && 0 <= i < |cache.keys| && cache.keys[i] == victim
    && (forall k :: k in cache.at ==> cache.at[victim].expires <= cache.at[k].expires)
    && (forall j :: 0 <= j < i ==> cache.at[victim].expires < cache.at[cache.keys[j]].expires)
  }

  /** The victim is an entry of smallest expiry, and the first such in order of insertion. */
  lemma VictimIsLeast(cache: Dict<Key, Entry>) returns (i: nat)
    requires cache.Valid() && cache.keys != []
    ensures IsVictim(cache, i, Victim(cache))
  {
    var cost := (x: Entry) => x.expires;
    i := cache.MinIndex(cost, |cache.keys|);
    assert cache.keys[i] == Victim(cache);
    forall k | k in cache.at ensures cache.at[Victim(cache)].expires <= cache.at[k].expires {
      var j :| 0 <= j < |cache.keys| && cache.keys[j] == k;
      assert cost(cache.at[cache.keys[i]]) <= cost(cache.at[cache.keys[j]]);
    }
    forall j | 0 <= j < i ensures cache.at[Victim(cache)].expires < cache.at[cache.keys[j]].expires {
      assert cost(cache.at[cache.keys[i]]) < cost(cache.at[cache.keys[j]]);
    }
  }

  /** An over-full cache gives up the entry just stored if and only if that one expires
      before every other: on a tie an older entry goes. */
  lemma NewestIsVictimIff(cfg: Config, s: State, key: Key, v: Value, t0: Time, expires: Time)
    requires Inv(cfg, s) && Evicts(cfg, s, key, v, t0) && IsExpiry(cfg, v, t0, expires)
    ensures key !in s.cache.at
    ensures Victim(Stored(cfg, s, key, v, t0)) == key <==>
            forall k :: k in s.cache.at ==> expires < s.cache.at[k].expires
  {
    var cache := Stored(cfg, s, key, v, t0);
    assert cache.keys == s.cache.keys + [key];
    var i := VictimIsLeast(cache);
    if Victim(cache) == key {
      assert i == |s.cache.keys|;
      forall k | k in s.cache.at ensures expires < s.cache.at[k].expires {
        var j :| 0 <= j < |s.cache.keys| && s.cache.keys[j] == k;
        assert cache.keys[j] == k;
      }
    } else {
      assert Victim(cache) in s.cache.at;
      assert key in cache.at;
    }
  }

  ghost predicate Uniform(cfg: Config) {
    forall v :: cfg.cacheIf(v) || cfg.seconds <= cfg.retryAfter
  }

  lemma {:induction false} UniformExpiries(cfg: Config, ss: seq<State>, es: seq<Event>, n: nat)
    requires IsRun(cfg, ss, es) && n <= |es| && Uniform(cfg)
    ensures forall k :: k in ss[n].cache.at ==> ss[n].cache.at[k].expires <= ss[n].clock + cfg.seconds
  {
    if n == 0 {
    } else {
      UniformExpiries(cfg, ss, es, n - 1);
      RunInv(cfg, ss, es, n);
      NextRecords(cfg, ss[n - 1], es[n - 1], ss[n]);
      ClockOfStore(cfg, ss[n - 1], es[n - 1], ss[n]);
    }
  }

  lemma ClockOfStore(cfg: Config, s: State, e: Event, s': State)
    requires IsStep(cfg, s, e, s')
    ensures e.Finish? && e.outcome.Value? ==> s'.clock == e.t0
  {
  }

  /** With one time to live for all results and room for one entry, the entry just stored stays,
      whatever the clock does. */
  lemma NewestStays(cfg: Config, ss: seq<State>, es: seq<Event>, n: nat, c: CallId, v: Value, t0: Time)
    requires IsRun(cfg, ss, es) && n < |es| && Uniform(cfg) && cfg.maxsize >= 1
    requires es[n] == Finish(c, Value(v), t0) && IsInFunc(ss[n], c)
    ensures var key := ss[n].calls[c].key;
            key in ss[n + 1].cache.at && ss[n + 1].cache.at[key] == Entry(v, t0 + cfg.seconds)
  {
    var s, key := ss[n], ss[n].calls[c].key;
    RunInv(cfg, ss, es, n);
    UniformExpiries(cfg, ss, es, n);
    assert IsStep(cfg, s, es[n], ss[n + 1]);
    if Evicts(cfg, s, key, v, t0) {
      NewestIsVictimIff(cfg, s, key, v, t0, t0 + cfg.seconds);
      assert s.cache.keys != [] && s.cache.keys[0] in s.cache.at;
    }
  }

  /** `after` is `failures`, less the oldest if there are more than `maxsize`. */
  ghost predicate IsTrimmed(failures: map<Key, Failed>, maxsize: nat, after: map<Key, Failed>) {
    if |failures| <= maxsize then after == failures
    else exists k :: k in failures && after == failures - {k}
                     && forall j :: j in failures ==> failures[k].at <= failures[j].at
  }

  lemma OldestIsLeast(failures: Dict<Key, Failed>)
    requires failures.Valid() && failures.keys != []
    ensures Oldest(failures) in failures.at
    ensures forall j :: j in failures.at ==> failures.at[Oldest(failures)].at <= failures.at[j].at
  {
    var cost := (x: Failed) => x.at;
    var i := failures.MinIndex(cost, |failures.keys|);
    forall j | j in failures.at ensures failures.at[Oldest(failures)].at <= failures.at[j].at {
      var m :| 0 <= m < |failures.keys| && failures.keys[m] == j;
      assert cost(failures.at[failures.keys[i]]) <= cost(failures.at[failures.keys[m]]);
    }
  }

  lemma TrimIsOldest(cfg: Config, failures: Dict<Key, Failed>)
    requires failures.Valid()
    ensures IsTrimmed(failures.at, cfg.maxsize, TrimFailures(cfg, failures).at)
  {
    failures.Size();
    if |failures.keys| > cfg.maxsize {
      OldestIsLeast(failures);
      hide Oldest, Dict.Valid;
      assert TrimFailures(cfg, failures).at == failures.at - {Oldest(failures)};
    }
  }

  /** A success takes the failure of its key off the record and, should there still be too many,
      one other: the oldest. Every other failure stays. */
  lemma SuccessTrims(cfg: Config, s: State, c: CallId, v: Value, t0: Time)
    requires Inv(cfg, s) && Enabled(s, Finish(c, Value(v), t0))
    ensures IsTrimmed(s.failures.at - {s.calls[c].key}, cfg.maxsize,
                      NextFinish(cfg, s, c, Value(v), t0).failures.at)
  {
    hide IsTrimmed, TrimFailures, Evicts, Victim, Stored, Dict.Valid;
    TrimIsOldest(cfg, s.failures.Remove(s.calls[c].key));
  }
}
