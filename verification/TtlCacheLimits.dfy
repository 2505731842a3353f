/** What the protocol does not promise: concrete runs behind the conditions of the other theorems. */
module TtlCacheLimits {
  import opened Wrappers
  import opened OrderedDict
  import opened TtlCache
  import opened TtlCacheInvariant
  import opened TtlCacheRuns

  /** After `n` calls for `n` keys, all failed. */
  ghost predicate OnlyFailures(s: State, n: nat) {
    && |s.failures.keys| == |s.locks| == n && s.cache.keys == []
    && (forall k :: k in s.failures.at || k in s.locks ==> |k.repr| < n)
    && (forall c :: c in s.calls ==> c < n)
  }

  /** The failure records and the lock table are bounded by nothing: a success trims one failure,
      but keys that only fail leave both behind, one each. */
  lemma {:induction false} FailuresAreUnbounded(cfg: Config, n: nat) returns (ss: seq<State>, es: seq<Event>)
    ensures IsRun(cfg, ss, es) && OnlyFailures(ss[|es|], n)
  {
    hide OnlyFailures, Inv, Next, IsStep;
    if n == 0 {
      ss, es := [Init(0.0)], [];
      NoFailures();
    } else {
      ss, es := FailuresAreUnbounded(cfg, n - 1);
      RunInv(cfg, ss, es, |es|);
      var enter, finish := OneMore(cfg, ss[|es|], n - 1);
      RunExtends(cfg, ss, es, enter);
      ss, es := ss + [Next(cfg, ss[|es|], enter)], es + [enter];
      RunExtends(cfg, ss, es, finish);
      ss, es := ss + [Next(cfg, ss[|es|], finish)], es + [finish];
    }
  }

  lemma NoFailures()
    ensures OnlyFailures(Init(0.0), 0)
  {
  }

  lemma OneMore(cfg: Config, s: State, n: nat) returns (enter: Event, finish: Event)
    requires Inv(cfg, s) && OnlyFailures(s, n)
    ensures Enabled(s, enter) && DictsOk(Next(cfg, s, enter)) && Enabled(Next(cfg, s, enter), finish)
    ensures OnlyFailures(Next(cfg, Next(cfg, s, enter), finish), n + 1)
  {
    assert DictsOk(s);
    hide Next, Enabled, DictsOk, Inv, OnlyFailures;
    var key, t := Key(seq(n, _ => 'k')), s.clock + 1.0;
    LongKeyIsNew(s, n, key);
    FailingKey(cfg, s, n, key, t, 0);
    enter, finish := Enter(n, key, t, t, t), Finish(n, Exception(0), t);
    OneMoreKey(s, n, key, Next(cfg, Next(cfg, s, enter), finish));
  }

  lemma LongKeyIsNew(s: State, n: nat, key: Key)
    requires DictsOk(s) && OnlyFailures(s, n) && |key.repr| == n
    ensures key !in s.cache.at && key !in s.locks && key !in s.failures.at && n !in s.calls
  {
  }

  lemma OneMoreKey(s: State, n: nat, key: Key, s': State)
    requires OnlyFailures(s, n) && |key.repr| == n && key !in s.locks
    requires s'.failures.keys == s.failures.keys + [key] && s'.locks == s.locks[key := |s.heap|]
    requires s'.cache == s.cache && s'.calls.Keys == s.calls.Keys + {n}
    requires s'.failures.at.Keys == s.failures.at.Keys + {key}
    ensures OnlyFailures(s', n + 1)
  {
    assert forall k :: k in s'.failures.at <==> k in s.failures.at || k == key;
    assert forall c :: c in s'.calls <==> c in s.calls || c == n;
  }

  /** A first call for a new key, which then fails, leaves a lock and a failure. */
  lemma FailingKey(cfg: Config, s: State, c: CallId, key: Key, t: Time, error: Error)
    requires Inv(cfg, s) && c !in s.calls && s.clock < t
    requires key !in s.cache.at && key !in s.locks && key !in s.failures.at
    ensures var enter, finish := Enter(c, key, t, t, t), Finish(c, Exception(error), t);
            && Enabled(s, enter)
            && var s1 := Next(cfg, s, enter);
               && DictsOk(s1) && Enabled(s1, finish)
               && var s2 := Next(cfg, s1, finish);
                  && s2.failures.keys == s.failures.keys + [key] && s2.locks == s.locks[key := |s.heap|]
                  && s2.cache == s.cache && s2.calls.Keys == s.calls.Keys + {c}
                  && s2.failures.at.Keys == s.failures.at.Keys + {key}
  {
    InvEnter(cfg, s, c, key, t, t, t);
  }

  /** A clear takes away the failure that parked callers were to share: the first of them, which
      would have raised it, computes instead. */
  lemma ClearUnshares(cfg: Config, s: State, c: CallId, t0: Time)
    requires Inv(cfg, s) && Enabled(s, Wake(c, t0))
    requires !Fresh(s, s.calls[c].key, t0) && FailedSince(s, s.calls[c].key, s.calls[c].phase.arrived)
    ensures NextWake(s, c, t0).calls[c].phase == Raised(s.failures.at[s.calls[c].key].error)
    ensures var cleared := Next(cfg, s, Clear); Enabled(cleared, Wake(c, t0)) && IsInFunc(NextWake(cleared, c, t0), c)
  {
  }

  /** Six events after which one key is computed twice at once: the recomputation of `a` is
      running when a result for `b` evicts the old entry of `a`, and with it the lock. */
  function Script(a: Key, b: Key, v: Value): seq<Event> {
    [Enter(0, a, 0.0, 0.0, 0.0), Finish(0, Value(v), 0.0), Enter(1, a, 10.0, 10.0, 10.0),
     Enter(2, b, 10.0, 10.0, 10.0), Finish(2, Value(v), 10.0), Enter(3, a, 10.0, 10.0, 10.0)]
  }

  /** The states the script passes through, up to the eviction. */
  function Before(a: Key, b: Key, v: Value, i: nat): State
    requires 1 <= i <= 4
  {
    var stale := Dict([a], map[a := Entry(v, 1.0)]);
    var first := Call(a, Returned(v));
    match i
    case 1 => State(Empty(), map[a := 0], Empty(), [Lock(a, Some(0), [])], map[0 := Call(a, InFunc(0, 0.0))], 0.0)
    case 2 => State(stale, map[a := 0], Empty(), [Lock(a, None, [])], map[0 := first], 0.0)
    case 3 =>
      State(stale, map[a := 0], Empty(), [Lock(a, Some(1), [])],
            map[0 := first, 1 := Call(a, InFunc(0, 10.0))], 10.0)
    case _ =>
      State(stale, map[a := 0, b := 1], Empty(), [Lock(a, Some(1), []), Lock(b, Some(2), [])],
            map[0 := first, 1 := Call(a, InFunc(0, 10.0)), 2 := Call(b, InFunc(1, 10.0))], 10.0)
  }

  lemma StartsCold(cfg: Config, a: Key, b: Key, v: Value)
    ensures IsStep(cfg, Init(0.0), Enter(0, a, 0.0, 0.0, 0.0), Before(a, b, v, 1))
  {
  }

  lemma FirstStored(cfg: Config, a: Key, b: Key, v: Value)
    requires a != b && cfg.maxsize == 1 && cfg.seconds == cfg.retryAfter == 1.0
    ensures IsStep(cfg, Before(a, b, v, 1), Finish(0, Value(v), 0.0), Before(a, b, v, 2))
  {
    FirstResult(cfg, Before(a, b, v, 1), a, v);
    assert Next(cfg, Before(a, b, v, 1), Finish(0, Value(v), 0.0)).calls == Before(a, b, v, 2).calls;
  }

  lemma Recomputes(cfg: Config, a: Key, b: Key, v: Value)
    requires a != b
    ensures IsStep(cfg, Before(a, b, v, 2), Enter(1, a, 10.0, 10.0, 10.0), Before(a, b, v, 3))
  {
  }

  lemma OtherKey(cfg: Config, a: Key, b: Key, v: Value)
    requires a != b
    ensures IsStep(cfg, Before(a, b, v, 3), Enter(2, b, 10.0, 10.0, 10.0), Before(a, b, v, 4))
  {
  }

  lemma Evicted(cfg: Config, a: Key, b: Key, v: Value) returns (s5: State)
    requires a != b && cfg.maxsize == 1 && cfg.seconds == cfg.retryAfter == 1.0
    ensures IsStep(cfg, Before(a, b, v, 4), Finish(2, Value(v), 10.0), s5)
    ensures a !in s5.cache.at && a !in s5.locks && s5.failures == Empty() && DictsOk(s5) && s5.clock == 10.0
    ensures 1 in s5.calls && s5.calls[1] == Call(a, InFunc(0, 10.0)) && 3 !in s5.calls
  {
    hide TrimFailures, Evicts, Victim, Stored, Store;
    var s4 := Before(a, b, v, 4);
    SecondResult(cfg, s4, a, b, v);
    s5 := NextFinish(cfg, s4, 2, Value(v), 10.0);
    assert s5.locks == Store(cfg, s4, b, v, 10.0).locks && s5.failures == Store(cfg, s4, b, v, 10.0).failures;
  }

  lemma AndBack(cfg: Config, a: Key, s: State) returns (s6: State)
    requires a !in s.cache.at && a !in s.locks && s.failures == Empty() && DictsOk(s) && s.clock == 10.0
    requires 1 in s.calls && s.calls[1] == Call(a, InFunc(0, 10.0)) && 3 !in s.calls
    ensures IsStep(cfg, s, Enter(3, a, 10.0, 10.0, 10.0), s6) && TwoFlights(s6, a)
  {
    s6 := Next(cfg, s, Enter(3, a, 10.0, 10.0, 10.0));
    assert IsInFunc(s6, 1) && IsInFunc(s6, 3) && s6.calls[3].key == a;
  }

  lemma EvictionBreaksSingleFlight(cfg: Config, a: Key, b: Key, v: Value) returns (ss: seq<State>)
    requires a != b && cfg.maxsize == 1 && cfg.seconds == cfg.retryAfter == 1.0
    ensures IsRun(cfg, ss, Script(a, b, v)) && TwoFlights(ss[6], a)
  {
    hide IsStep, Before, TwoFlights;
    StartsCold(cfg, a, b, v);
    FirstStored(cfg, a, b, v);
    Recomputes(cfg, a, b, v);
    OtherKey(cfg, a, b, v);
    var s5 := Evicted(cfg, a, b, v);
    var s6 := AndBack(cfg, a, s5);
    ss := [Init(0.0), Before(a, b, v, 1), Before(a, b, v, 2), Before(a, b, v, 3), Before(a, b, v, 4), s5, s6];
  }

  lemma FirstResult(cfg: Config, s: State, a: Key, v: Value)
    requires DictsOk(s) && s.cache == Empty() && s.failures == Empty() && s.locks == map[a := 0]
    requires cfg.maxsize == 1 && cfg.seconds == cfg.retryAfter == 1.0
    ensures var s' := Store(cfg, s, a, v, 0.0);
            s'.cache == Dict([a], map[a := Entry(v, 1.0)]) && s'.failures == Empty() && s'.locks == s.locks
  {
    var cache := Stored(cfg, s, a, v, 0.0);
    assert cache.keys == [a];
  }

  lemma SecondResult(cfg: Config, s: State, a: Key, b: Key, v: Value)
    requires DictsOk(s) && a != b && s.cache == Dict([a], map[a := Entry(v, 1.0)])
    requires s.failures == Empty() && s.locks == map[a := 0, b := 1]
    requires cfg.maxsize == 1 && cfg.seconds == cfg.retryAfter == 1.0
    ensures var s' := Store(cfg, s, b, v, 10.0);
            a !in s'.cache.at && a !in s'.locks && s'.failures == Empty()
  {
    var cache := Stored(cfg, s, b, v, 10.0);
    assert cache.keys == [a, b] && cache.at[a].expires == 1.0 && cache.at[b].expires == 11.0;
    assert Victim(cache) == a;
  }

  // ---------- A second flight by a waiter ----------

  /** Call 1 is parked behind call 0 when a clear drops their lock. Call 0 is cancelled, call 2 gets a
      new lock and computes; then call 1 wakes up on the old one and computes too. */
  function WaiterScript(a: Key): seq<Event> {
    [Enter(0, a, 0.0, 0.0, 0.0), Enter(1, a, 0.0, 0.0, 0.0), Clear, Finish(0, Cancellation, 0.0),
     Enter(2, a, 0.0, 0.0, 0.0), Wake(1, 0.0)]
  }

  function Left(a: Key, i: nat): State
    requires 1 <= i <= 5
  {
    var computing, parked := Call(a, InFunc(0, 0.0)), Call(a, Queued(0, 0.0));
    var behind := map[0 := computing, 1 := parked];
    match i
    case 1 => State(Empty(), map[a := 0], Empty(), [Lock(a, Some(0), [])], map[0 := computing], 0.0)
    case 2 => State(Empty(), map[a := 0], Empty(), [Lock(a, Some(0), [1])], behind, 0.0)
    case 3 => State(Empty(), map[], Empty(), [Lock(a, Some(0), [1])], behind, 0.0)
    case 4 => State(Empty(), map[], Empty(), [Lock(a, None, [1])], behind[0 := Call(a, Cancelled)], 0.0)
    case _ =>
      State(Empty(), map[a := 1], Empty(), [Lock(a, None, [1]), Lock(a, Some(2), [])],
            behind[0 := Call(a, Cancelled)][2 := Call(a, InFunc(1, 0.0))], 0.0)
  }

  lemma LeftParked(cfg: Config, a: Key)
    ensures IsStep(cfg, Init(0.0), Enter(0, a, 0.0, 0.0, 0.0), Left(a, 1))
    ensures IsStep(cfg, Left(a, 1), Enter(1, a, 0.0, 0.0, 0.0), Left(a, 2))
  {
    SharedStarts(cfg, a, a, a, 0);
    SharedParks(cfg, a, a, a, 0);
  }

  lemma LeftCleared(cfg: Config, a: Key)
    ensures IsStep(cfg, Left(a, 2), Clear, Left(a, 3))
  {
  }

  lemma LeftCancelled(cfg: Config, a: Key)
    ensures IsStep(cfg, Left(a, 3), Finish(0, Cancellation, 0.0), Left(a, 4))
  {
    var s := Next(cfg, Left(a, 3), Finish(0, Cancellation, 0.0));
    assert s.heap == Left(a, 4).heap;
    assert s.calls == Left(a, 4).calls;
  }

  lemma LeftReplaced(cfg: Config, a: Key)
    ensures IsStep(cfg, Left(a, 4), Enter(2, a, 0.0, 0.0, 0.0), Left(a, 5)) && !Running(Left(a, 4), a)
  {
    FirstCall(cfg, Left(a, 4), 2, a);
    hide Next, Enabled;
    assert Left(a, 4).heap + [Lock(a, Some(2), [])] == Left(a, 5).heap;
  }

  lemma LeftWakes(cfg: Config, a: Key) returns (s: State)
    ensures IsStep(cfg, Left(a, 5), Wake(1, 0.0), s) && TwoFlights(s, a)
  {
    s := Next(cfg, Left(a, 5), Wake(1, 0.0));
    assert IsInFunc(s, 1) && IsInFunc(s, 2) && s.calls[1].key == s.calls[2].key == a;
  }

  /** When the newcomer enters, nobody computes; the second flight comes with the waiter. */
  lemma WaiterBreaksSingleFlight(cfg: Config, a: Key) returns (ss: seq<State>)
    ensures IsRun(cfg, ss, WaiterScript(a)) && !Running(ss[4], a) && TwoFlights(ss[6], a)
  {
    hide IsStep, Left, TwoFlights, Running;
    LeftParked(cfg, a);
    LeftCleared(cfg, a);
    LeftCancelled(cfg, a);
    LeftReplaced(cfg, a);
    var s6 := LeftWakes(cfg, a);
    ss := [Init(0.0), Left(a, 1), Left(a, 2), Left(a, 3), Left(a, 4), Left(a, 5), s6];
  }

  // ---------- A failure trimmed away ----------

  /** Call 1 is parked behind call 0, which fails; another key fails, a third one succeeds, and the
      success trims the older failure before call 1 has woken up. */
  function TrimScript(a: Key, b: Key, c: Key, error: Error, v: Value): seq<Event> {
    [Enter(0, a, 0.0, 0.0, 0.0), Enter(1, a, 0.0, 0.0, 0.0), Finish(0, Exception(error), 0.0),
     Enter(2, c, 0.0, 0.0, 0.0), Finish(2, Exception(error), 0.0),
     Enter(3, b, 0.0, 0.0, 0.0), Finish(3, Value(v), 0.0), Wake(1, 0.0)]
  }

  function Shared(a: Key, b: Key, c: Key, error: Error, i: nat): State
    requires 1 <= i <= 6
  {
    var one := map[a := Failed(error, 0.0)];
    var two := one[c := Failed(error, 0.0)];
    var parked := Call(a, Queued(0, 0.0));
    var calls := map[0 := Call(a, Raised(error)), 1 := parked];
    match i
    case 1 => State(Empty(), map[a := 0], Empty(), [Lock(a, Some(0), [])], map[0 := Call(a, InFunc(0, 0.0))], 0.0)
    case 2 =>
      State(Empty(), map[a := 0], Empty(), [Lock(a, Some(0), [1])],
            map[0 := Call(a, InFunc(0, 0.0)), 1 := parked], 0.0)
    case 3 => State(Empty(), map[a := 0], Dict([a], one), [Lock(a, None, [1])], calls, 0.0)
    case 4 =>
      State(Empty(), map[a := 0, c := 1], Dict([a], one), [Lock(a, None, [1]), Lock(c, Some(2), [])],
            calls[2 := Call(c, InFunc(1, 0.0))], 0.0)
    case 5 =>
      State(Empty(), map[a := 0, c := 1], Dict([a, c], two), [Lock(a, None, [1]), Lock(c, None, [])],
            calls[2 := Call(c, Raised(error))], 0.0)
    case _ =>
      State(Empty(), map[a := 0, c := 1, b := 2], Dict([a, c], two),
            [Lock(a, None, [1]), Lock(c, None, []), Lock(b, Some(3), [])],
            calls[2 := Call(c, Raised(error))][3 := Call(b, InFunc(2, 0.0))], 0.0)
  }

  lemma SharedStarts(cfg: Config, a: Key, b: Key, c: Key, error: Error)
    ensures IsStep(cfg, Init(0.0), Enter(0, a, 0.0, 0.0, 0.0), Shared(a, b, c, error, 1))
  {
  }

  lemma SharedParks(cfg: Config, a: Key, b: Key, c: Key, error: Error)
    ensures IsStep(cfg, Shared(a, b, c, error, 1), Enter(1, a, 0.0, 0.0, 0.0), Shared(a, b, c, error, 2))
  {
    var s := Next(cfg, Shared(a, b, c, error, 1), Enter(1, a, 0.0, 0.0, 0.0));
    assert [] + [1] == [1];
    assert s.heap == Shared(a, b, c, error, 2).heap;
    assert s.calls == Shared(a, b, c, error, 2).calls;
  }

  lemma SharedFails(cfg: Config, a: Key, b: Key, c: Key, error: Error)
    ensures IsStep(cfg, Shared(a, b, c, error, 2), Finish(0, Exception(error), 0.0), Shared(a, b, c, error, 3))
  {
    var s := Next(cfg, Shared(a, b, c, error, 2), Finish(0, Exception(error), 0.0));
    assert s.calls == Shared(a, b, c, error, 3).calls;
    assert s.heap == Shared(a, b, c, error, 3).heap;
    assert s.failures == Shared(a, b, c, error, 3).failures;
  }

  /** The first call for a key goes straight in and computes. */
  lemma FirstCall(cfg: Config, s: State, c: CallId, key: Key)
    requires DictsOk(s) && c !in s.calls && s.clock == 0.0
    requires key !in s.cache.at && key !in s.locks && key !in s.failures.at
    ensures Enabled(s, Enter(c, key, 0.0, 0.0, 0.0))
    ensures Next(cfg, s, Enter(c, key, 0.0, 0.0, 0.0)) ==
            s.(locks := s.locks[key := |s.heap|], heap := s.heap + [Lock(key, Some(c), [])],
               calls := s.calls[c := Call(key, InFunc(|s.heap|, 0.0))])
  {
    var s' := Next(cfg, s, Enter(c, key, 0.0, 0.0, 0.0));
    assert s'.heap == s.heap + [Lock(key, Some(c), [])];
  }

  lemma SharedOther(cfg: Config, a: Key, b: Key, c: Key, error: Error)
    requires a != c
    ensures IsStep(cfg, Shared(a, b, c, error, 3), Enter(2, c, 0.0, 0.0, 0.0), Shared(a, b, c, error, 4))
  {
    FirstCall(cfg, Shared(a, b, c, error, 3), 2, c);
    hide Next, Enabled;
    assert Shared(a, b, c, error, 3).heap + [Lock(c, Some(2), [])] == Shared(a, b, c, error, 4).heap;
  }

  lemma SharedOtherFails(cfg: Config, a: Key, b: Key, c: Key, error: Error)
    requires a != c
    ensures IsStep(cfg, Shared(a, b, c, error, 4), Finish(2, Exception(error), 0.0), Shared(a, b, c, error, 5))
  {
    var s := Next(cfg, Shared(a, b, c, error, 4), Finish(2, Exception(error), 0.0));
    assert s.calls == Shared(a, b, c, error, 5).calls;
    assert s.heap == Shared(a, b, c, error, 5).heap;
    assert s.failures == Shared(a, b, c, error, 5).failures;
  }

  lemma SharedThird(cfg: Config, a: Key, b: Key, c: Key, error: Error)
    requires a != c && b != a && b != c
    ensures IsStep(cfg, Shared(a, b, c, error, 5), Enter(3, b, 0.0, 0.0, 0.0), Shared(a, b, c, error, 6))
  {
    FirstCall(cfg, Shared(a, b, c, error, 5), 3, b);
    hide Next, Enabled;
    assert Shared(a, b, c, error, 5).heap + [Lock(b, Some(3), [])] == Shared(a, b, c, error, 6).heap;
  }

  lemma SharedTrims(cfg: Config, a: Key, b: Key, c: Key, error: Error, v: Value)
    requires a != c && b != a && b != c && cfg.maxsize == 1
    ensures Trims(cfg, Shared(a, b, c, error, 6), Finish(3, Value(v), 0.0), a)
  {
    var s := Shared(a, b, c, error, 6);
    assert s.failures.Remove(b) == s.failures;
    OldestOfTwo(s.failures, a, c);
  }

  lemma SharedStays(a: Key, b: Key, c: Key, error: Error)
    requires a != c && b != a && b != c
    ensures var s := Shared(a, b, c, error, 6);
            && DictsOk(s) && a !in s.cache.at && s.clock == 0.0 && IsInFunc(s, 3) && s.calls[3].key == b
            && |s.heap| == 3 && s.heap[0] == Lock(a, None, [1]) && s.calls[3].phase.lock == 2
            && 1 in s.calls && s.calls[1] == Call(a, Queued(0, 0.0))
  {
  }

  lemma SharedTrimmed(cfg: Config, a: Key, b: Key, c: Key, error: Error, v: Value) returns (s: State)
    requires a != c && b != a && b != c && cfg.maxsize == 1
    ensures IsStep(cfg, Shared(a, b, c, error, 6), Finish(3, Value(v), 0.0), s)
    ensures DictsOk(s) && a !in s.failures.at && a !in s.cache.at && s.clock == 0.0
    ensures s.heap != [] && s.heap[0] == Lock(a, None, [1])
    ensures 1 in s.calls && s.calls[1] == Call(a, Queued(0, 0.0))
  {
    SharedTrims(cfg, a, b, c, error, v);
    SharedStays(a, b, c, error);
    hide Shared, Trims, DictsOk;
    s := TrimStep(cfg, Shared(a, b, c, error, 6), a, v);
  }

  lemma TrimStep(cfg: Config, s: State, a: Key, v: Value) returns (s': State)
    requires DictsOk(s) && a !in s.cache.at && s.clock == 0.0 && IsInFunc(s, 3) && s.calls[3].key != a
    requires s.calls[3].phase.lock == 2 < |s.heap| && 1 in s.calls && Trims(cfg, s, Finish(3, Value(v), 0.0), a)
    ensures IsStep(cfg, s, Finish(3, Value(v), 0.0), s') && DictsOk(s')
    ensures a !in s'.failures.at && a !in s'.cache.at && s'.clock == 0.0
    ensures s'.heap != [] && s'.heap[0] == s.heap[0] && 1 in s'.calls && s'.calls[1] == s.calls[1]
  {
    s' := Next(cfg, s, Finish(3, Value(v), 0.0));
    FinishDicts(cfg, s, 3, Value(v), 0.0);
    NextFailures(cfg, s, Finish(3, Value(v), 0.0), a);
    NextCache(cfg, s, Finish(3, Value(v), 0.0), a);
    NextCalls(cfg, s, Finish(3, Value(v), 0.0));
    hide Store, Trims, Drops, DictsOk;
  }

  lemma OldestOfTwo(failures: Dict<Key, Failed>, a: Key, c: Key)
    requires failures.Valid() && failures.keys == [a, c] && failures.at[a].at <= failures.at[c].at
    ensures Oldest(failures) == a
  {
  }

  lemma SharedComputes(cfg: Config, a: Key, s: State) returns (s': State)
    requires DictsOk(s) && a !in s.failures.at && a !in s.cache.at && s.clock == 0.0
    requires s.heap != [] && s.heap[0] == Lock(a, None, [1])
    requires 1 in s.calls && s.calls[1] == Call(a, Queued(0, 0.0))
    ensures IsStep(cfg, s, Wake(1, 0.0), s') && IsInFunc(s', 1)
  {
    s' := Next(cfg, s, Wake(1, 0.0));
  }

  /** A success for one key can make a caller parked behind the failure of another compute again. */
  lemma TrimUnshares(cfg: Config, a: Key, b: Key, c: Key, error: Error, v: Value) returns (ss: seq<State>)
    requires a != c && b != a && b != c && cfg.maxsize == 1
    ensures IsRun(cfg, ss, TrimScript(a, b, c, error, v))
    ensures IsInFunc(ss[2], 0) && IsQueued(ss[2], 1) && ss[2].calls[0].phase.lock == ss[2].calls[1].phase.lock
    ensures IsInFunc(ss[8], 1)
  {
    SharedParked(a, b, c, error);
    hide IsStep, Shared, IsInFunc, IsQueued;
    SharedStarts(cfg, a, b, c, error);
    SharedParks(cfg, a, b, c, error);
    SharedFails(cfg, a, b, c, error);
    SharedOther(cfg, a, b, c, error);
    SharedOtherFails(cfg, a, b, c, error);
    SharedThird(cfg, a, b, c, error);
    var s7 := SharedTrimmed(cfg, a, b, c, error, v);
    var s8 := SharedComputes(cfg, a, s7);
    ss := [Init(0.0), Shared(a, b, c, error, 1), Shared(a, b, c, error, 2), Shared(a, b, c, error, 3),
           Shared(a, b, c, error, 4), Shared(a, b, c, error, 5), Shared(a, b, c, error, 6), s7, s8];
  }

  lemma SharedParked(a: Key, b: Key, c: Key, error: Error)
    ensures var s := Shared(a, b, c, error, 2);
            IsInFunc(s, 0) && IsQueued(s, 1) && s.calls[0].phase.lock == s.calls[1].phase.lock
  {
  }
}
