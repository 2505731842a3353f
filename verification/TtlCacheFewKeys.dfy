/** The simple case: at most `maxsize` distinct keys and no clear. Then nothing is ever dropped or
    trimmed, and all that is promised for a key is promised for every key. */
module TtlCacheFewKeys {
  import opened Wrappers
  import Sets
  import opened OrderedDict
  import opened TtlCache
  import opened TtlCacheInvariant
  import opened TtlCacheRuns
  import opened TtlCacheSharing
  import opened TtlCacheCancellation
  import opened TtlCacheHistory

  /** A run over at most `maxsize` distinct keys, with no clear. */
  ghost predicate Quiet(cfg: Config, ss: seq<State>, es: seq<Event>, ks: set<Key>) {
    && IsRun(cfg, ss, es)
    && |ks| <= cfg.maxsize
    && (forall i | 0 <= i < |es| :: !es[i].Clear? && (es[i].Enter? ==> es[i].key in ks))
  }

  ghost predicate KeysIn(s: State, ks: set<Key>) {
    && s.cache.at.Keys <= ks && s.failures.at.Keys <= ks
    && (forall c | c in s.calls :: s.calls[c].key in ks)
  }

  /** What a quiet run knows about each of its states. */
  ghost predicate QuietState(cfg: Config, s: State, ks: set<Key>) {
    Inv(cfg, s) && KeysIn(s, ks) && |ks| <= cfg.maxsize
  }

  /** With few keys a store neither evicts nor trims. */
  lemma QuietStore(cfg: Config, s: State, ks: set<Key>, key: Key, v: Value, now: Time)
    requires Inv(cfg, s) && KeysIn(s, ks) && key in ks && |ks| <= cfg.maxsize
    ensures !Evicts(cfg, s, key, v, now)
    ensures |s.failures.Remove(key).keys| <= cfg.maxsize
  {
    var cache, failures := Stored(cfg, s, key, v, now), s.failures.Remove(key);
    cache.Size();
    failures.Size();
    Sets.SubsetSize(cache.at.Keys, ks);
    Sets.SubsetSize(failures.at.Keys, ks);
  }

  lemma QuietStep(cfg: Config, s: State, e: Event, s': State, ks: set<Key>)
    requires QuietState(cfg, s, ks) && IsStep(cfg, s, e, s') && !e.Clear? && (e.Enter? ==> e.key in ks)
    ensures QuietState(cfg, s', ks)
    ensures forall k :: !Drops(cfg, s, e, k) && !Trims(cfg, s, e, k)
  {
    if e.Finish? && e.outcome.Value? {
      QuietStore(cfg, s, ks, s.calls[e.call].key, e.outcome.value, e.t0);
    }
    InvStep(cfg, s, e, s');
    hide Next, Inv;
    QuietKeys(cfg, s, e, s', ks);
  }

  lemma QuietKeys(cfg: Config, s: State, e: Event, s': State, ks: set<Key>)
    requires IsStep(cfg, s, e, s') && KeysIn(s, ks) && (e.Enter? ==> e.key in ks)
    ensures KeysIn(s', ks)
  {
    NextCalls(cfg, s, e);
    NextRecords(cfg, s, e, s');
    hide IsStep;
    forall c | c in s'.calls ensures s'.calls[c].key in ks {
      assert e.Clear? || c != e.call ==> s'.calls[c] == s.calls[c];
    }
    forall k | k in s'.cache.at ensures k in ks {
      assert EntryFrame(cfg, s, e, s', k);
    }
    forall k | k in s'.failures.at ensures k in ks {
      assert FailureFrame(s, e, s', k);
    }
  }

  /** A quiet run drops nothing and trims nothing, ever. */
  lemma {:induction false} QuietRun(cfg: Config, ss: seq<State>, es: seq<Event>, ks: set<Key>, n: nat)
    requires Quiet(cfg, ss, es, ks) && n <= |es|
    ensures QuietState(cfg, ss[n], ks)
    ensures forall i, k | 0 <= i < n :: !Drops(cfg, ss[i], es[i], k) && !Trims(cfg, ss[i], es[i], k)
  {
    hide IsStep, QuietState, Drops, Trims;
    if n == 0 {
      QuietInit(cfg, ss[0].clock, ks);
    } else {
      QuietRun(cfg, ss, es, ks, n - 1);
      QuietStep(cfg, ss[n - 1], es[n - 1], ss[n], ks);
    }
  }

  lemma QuietInit(cfg: Config, start: Time, ks: set<Key>)
    requires |ks| <= cfg.maxsize
    ensures QuietState(cfg, Init(start), ks)
  {
  }

  /** Nothing is ever dropped, so every key is settled throughout. */
  lemma FewKeysSettled(cfg: Config, ss: seq<State>, es: seq<Event>, ks: set<Key>, a: nat, n: nat, k: Key)
    requires Quiet(cfg, ss, es, ks) && a <= n <= |es|
    ensures KeepsLockFrom(cfg, ss, es, a, n, k) && NoDrop(cfg, ss, es, a, n, k)
  {
    hide IsStep, Drops, Settled;
    QuietRun(cfg, ss, es, ks, n);
    IdleIsSettled(cfg, ss, es, 0, k);
    SettledOnRun(cfg, ss, es, 0, a, k);
  }

  lemma FewKeysSingleFlight(cfg: Config, ss: seq<State>, es: seq<Event>, ks: set<Key>, n: nat, c: CallId, d: CallId)
    requires Quiet(cfg, ss, es, ks) && n <= |es|
    requires IsInFunc(ss[n], c) && IsInFunc(ss[n], d) && ss[n].calls[c].key == ss[n].calls[d].key
    ensures c == d
  {
    hide IsStep, Settled;
    FewKeysSettled(cfg, ss, es, ks, n, n, ss[n].calls[c].key);
    SingleFlightPerKey(cfg, ss, es, n, n, ss[n].calls[c].key, c, d);
  }

  lemma FewKeysShareFailures(cfg: Config, ss: seq<State>, es: seq<Event>, ks: set<Key>, a: nat, n: nat,
                             c: CallId, error: Error, t0: Time)
    requires Quiet(cfg, ss, es, ks) && a < n <= |es|
    requires es[a] == Finish(c, Exception(error), t0)
    requires IsInFunc(ss[a], c) && ss[a].calls[c].phase.lock < |ss[a].heap|
    ensures var Call(key, phase) := ss[a].calls[c];
            Sharing(ss[n], phase.lock, key, Failed(error, t0), ss[a].heap[phase.lock].waiters)
  {
    hide IsStep, Sharing, Trims, Drops, Settled;
    FewKeysSettled(cfg, ss, es, ks, a, n, ss[a].calls[c].key);
    QuietRun(cfg, ss, es, ks, n);
    FailureIsShared(cfg, ss, es, a, n, c, error, t0);
  }

  lemma FewKeysSpaced(cfg: Config, ss: seq<State>, es: seq<Event>, ks: set<Key>, i: nat, n: nat,
                      key: Key, v: Value, at: Time)
    requires Quiet(cfg, ss, es, ks) && i < n < |es|
    requires Ends(ss, es, i, key, Value(v), at) && Starts(ss, es, n, key)
    ensures !InDate(cfg, v, at, StartTime(es[n]))
  {
    hide IsStep, Drops, Settled;
    FewKeysSettled(cfg, ss, es, ks, i, n, key);
    StartsAreSpaced(cfg, ss, es, i, n, key, v, at);
  }

  lemma FewKeysRate(cfg: Config, ss: seq<State>, es: seq<Event>, ks: set<Key>, a: nat, n: nat, key: Key)
    requires Quiet(cfg, ss, es, ks) && a <= n < |es|
    requires Starts(ss, es, n, key) && FullResults(cfg, ss, es, a, n, key)
    ensures CountStarts(ss, es, a, n, key) as real * cfg.seconds <= StartTime(es[n]) - ss[a].clock
  {
    hide IsStep, Drops, CountStarts, Settled;
    FewKeysSettled(cfg, ss, es, ks, a, n, key);
    RateBound(cfg, ss, es, a, n, key);
  }
}
