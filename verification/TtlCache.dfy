/** The cache protocol of one decorated function, as a step relation.

    A step is what one coroutine does between two awaits: everything up to parking in
    `lock.acquire()` or calling `func`, everything after a wake-up, everything after `func` ends.
    The event loop runs such a step without interruption; between steps anything may happen.
    Clock readings are parameters of the events; the monotonic clock may stand still but not go back. */
module TtlCache {
  import opened Wrappers
  import opened OrderedDict

  type Time = real
  type CallId = nat  // one invocation of the wrapper
  type LockId = nat  // the identity of one asyncio.Lock object
  type Value = int   // an object returned by func
  type Error = int   // an exception raised by func

  datatype Key = Key(repr: string)

  datatype Entry = Entry(value: Value, expires: Time)

  datatype Failed = Failed(error: Error, at: Time)

  datatype Config = Config(seconds: real, maxsize: nat, cacheIf: Value -> bool, retryAfter: real) {
    function Ttl(v: Value): real {
      if cacheIf(v) || seconds <= retryAfter then seconds else retryAfter
    }
  }

  /** A lock object: the call inside it, and the calls parked in `acquire`, first come first served.
      A released lock is not handed over: it stays free until the first waiter wakes up. */
  datatype Lock = Lock(key: Key, holder: Option<CallId>, waiters: seq<CallId>)

  datatype Phase =
    | Queued(lock: LockId, arrived: Time)
    | InFunc(lock: LockId, arrived: Time)
    | Returned(value: Value)
    | Raised(error: Error)
    | Cancelled

  datatype Call = Call(key: Key, phase: Phase) {
    predicate Live() { phase.Queued? || phase.InFunc? }
  }

  /** The three dicts of the decorator, every lock object ever made, every call ever made,
      and the last reading of the clock. */
  datatype State = State(
    cache: Dict<Key, Entry>,
    locks: map<Key, LockId>,
    failures: Dict<Key, Failed>,
    heap: seq<Lock>,
    calls: map<CallId, Call>,
    clock: Time)

  datatype Outcome = Value(value: Value) | Exception(error: Error) | Cancellation

  datatype Event =
    | Enter(call: CallId, key: Key, t0: Time, t1: Time, t2: Time)
    | Wake(call: CallId, t0: Time)
    | Finish(call: CallId, outcome: Outcome, t0: Time)
    | CancelWait(call: CallId)
    | Clear

  function Init(start: Time): State {
    State(Empty(), map[], Empty(), [], map[], start)
  }

  predicate IsQueued(s: State, c: CallId) { c in s.calls && s.calls[c].phase.Queued? }

  predicate IsInFunc(s: State, c: CallId) { c in s.calls && s.calls[c].phase.InFunc? }

  predicate IsLive(s: State, c: CallId) { c in s.calls && s.calls[c].Live() }

  /** `_fresh`. */
  predicate Fresh(s: State, key: Key, now: Time) {
    key in s.cache.at && now < s.cache.at[key].expires
  }

  predicate FailedSince(s: State, key: Key, arrived: Time) {
    key in s.failures.at && s.failures.at[key].at >= arrived
  }

  predicate Enabled(s: State, e: Event) {
    match e
    case Enter(c, _, t0, t1, t2) => c !in s.calls && s.clock <= t0 <= t1 <= t2
    case Wake(c, t0) =>
      && IsQueued(s, c) && s.clock <= t0
      && s.calls[c].phase.lock < |s.heap|
      && var l := s.heap[s.calls[c].phase.lock];
         l.holder.None? && l.waiters != [] && l.waiters[0] == c
    case Finish(c, _, t0) =>
      IsInFunc(s, c) && s.calls[c].phase.lock < |s.heap| && s.clock <= t0
    case CancelWait(c) => IsQueued(s, c) && s.calls[c].phase.lock < |s.heap|
    case Clear => true
  }

  /** Invariant needed for the dict operations to make sense. */
  ghost predicate DictsOk(s: State) {
    && s.cache.Valid() && s.failures.Valid()
    && (forall k :: k in s.locks ==> s.locks[k] < |s.heap| && s.heap[s.locks[k]].key == k)
  }

  /** The call gets its phase and the lock gets its holder. */
  function Settle(s: State, c: CallId, key: Key, phase: Phase, l: LockId, holder: Option<CallId>): State
    requires l < |s.heap|
  {
    s.(calls := s.calls[c := Call(key, phase)],
       heap := s.heap[l := s.heap[l].(holder := holder)])
  }

  /** Inside the lock, up to the call of `func`: look again, share a failure, or compute. */
  function Body(s: State, c: CallId, key: Key, l: LockId, arrived: Time, now: Time): (r: State)
    requires l < |s.heap|
    ensures c in r.calls && r.calls == s.calls[c := Call(key, r.calls[c].phase)]
    ensures r.cache == s.cache && r.failures == s.failures && r.locks == s.locks
    ensures r.calls[c].Live() ==> r.calls[c].phase == InFunc(l, arrived)
    ensures r.heap == s.heap[l := s.heap[l].(holder := if r.calls[c].Live() then Some(c) else None)]
  {
    if Fresh(s, key, now) then
      Settle(s, c, key, Returned(s.cache.at[key].value), l, None)
    else if FailedSince(s, key, arrived) then
      Settle(s, c, key, Raised(s.failures.at[key].error), l, None)
    else
      Settle(s, c, key, InFunc(l, arrived), l, Some(c))
  }

  /** `locks.setdefault(key, asyncio.Lock())`. */
  function WithLock(s: State, key: Key): (r: State)
    requires DictsOk(s)
    ensures DictsOk(r) && key in r.locks
  {
    if key in s.locks then s
    else s.(locks := s.locks[key := |s.heap|], heap := s.heap + [Lock(key, None, [])])
  }

  /** `async with lock`: straight in when the lock is free and nobody is parked, else park. */
  function Arrive(s: State, c: CallId, key: Key, t1: Time, t2: Time): (r: State)
    requires DictsOk(s) && key in s.locks
    ensures c in r.calls && r.calls == s.calls[c := Call(key, r.calls[c].phase)]
    ensures r.cache == s.cache && r.failures == s.failures && r.locks == s.locks
    ensures r.calls[c].Live() ==> r.calls[c].phase.lock == s.locks[key]
  {
    var l := s.locks[key];
    if s.heap[l].holder.None? && s.heap[l].waiters == [] then
      Body(s, c, key, l, t1, t2).(clock := t2)
    else
      s.(calls := s.calls[c := Call(key, Queued(l, t1))],
         heap := s.heap[l := s.heap[l].(waiters := s.heap[l].waiters + [c])],
         clock := t1)
  }

  function NextEnter(s: State, c: CallId, key: Key, t0: Time, t1: Time, t2: Time): (r: State)
    requires DictsOk(s)
    ensures c in r.calls && r.calls == s.calls[c := Call(key, r.calls[c].phase)]
    ensures r.cache == s.cache && r.failures == s.failures
    ensures r.locks == s.locks || (key !in s.locks && r.locks == s.locks[key := |s.heap|])
    ensures r.calls[c].Live() ==> key in r.locks && r.calls[c].phase.lock == r.locks[key]
    ensures |s.heap| <= |r.heap|
    ensures forall m: LockId :: m < |s.heap| && (key in s.locks ==> m != s.locks[key]) ==> r.heap[m] == s.heap[m]
  {
    if Fresh(s, key, t0) then
      s.(calls := s.calls[c := Call(key, Returned(s.cache.at[key].value))], clock := t0)
    else
      Arrive(WithLock(s, key), c, key, t1, t2)
  }

  function NextWake(s: State, c: CallId, t0: Time): (r: State)
    requires Enabled(s, Wake(c, t0))
    ensures c in r.calls && r.calls == s.calls[c := Call(s.calls[c].key, r.calls[c].phase)]
    ensures r.cache == s.cache && r.failures == s.failures && r.locks == s.locks
    ensures r.calls[c].Live() ==> r.calls[c].phase.lock == s.calls[c].phase.lock
    ensures var l := s.calls[c].phase.lock;
            var holder := if r.calls[c].Live() then Some(c) else None;
            r.heap == s.heap[l := Lock(s.heap[l].key, holder, s.heap[l].waiters[1..])]
  {
    var l := s.calls[c].phase.lock;
    var s1 := s.(heap := s.heap[l := s.heap[l].(waiters := s.heap[l].waiters[1..])]);
    Body(s1, c, s.calls[c].key, l, s.calls[c].phase.arrived, t0).(clock := t0)
  }

  /** The victim of an over-full cache: the first key with the smallest expiry. */
  function Victim(cache: Dict<Key, Entry>): (k: Key)
    requires cache.Valid() && cache.keys != []
  {
    cache.FirstMin((x: Entry) => x.expires)
  }

  function Stored(cfg: Config, s: State, key: Key, v: Value, now: Time): Dict<Key, Entry>
    requires s.cache.Valid()
  {
    s.cache.Put(key, Entry(v, now + cfg.Ttl(v)))
  }

  predicate Evicts(cfg: Config, s: State, key: Key, v: Value, now: Time)
    requires s.cache.Valid()
  {
    |Stored(cfg, s, key, v, now).keys| > cfg.maxsize
  }

  /** The failure that goes when there are too many: the first with the smallest time. */
  function Oldest(failures: Dict<Key, Failed>): (k: Key)
    requires failures.Valid() && failures.keys != []
  {
    failures.FirstMin((x: Failed) => x.at)
  }

  function TrimFailures(cfg: Config, failures: Dict<Key, Failed>): (r: Dict<Key, Failed>)
    requires failures.Valid()
    ensures r.Valid()
  {
    if |failures.keys| > cfg.maxsize then
      failures.Remove(Oldest(failures))
    else
      failures
  }

  /** The success path after `func`: forget the failure, store, evict. */
  function Store(cfg: Config, s: State, key: Key, v: Value, now: Time): (r: State)
    requires DictsOk(s)
    ensures DictsOk(r) && r == s.(cache := r.cache, locks := r.locks, failures := r.failures)
    ensures |s.cache.keys| <= cfg.maxsize ==> |r.cache.keys| <= cfg.maxsize
    ensures forall k :: k in r.cache.at ==> k in s.cache.at || k == key
    ensures forall k :: k in r.failures.at ==> k in s.failures.at && r.failures.at[k] == s.failures.at[k]
  {
    var cache := Stored(cfg, s, key, v, now);
    var failures := TrimFailures(cfg, s.failures.Remove(key));
    if Evicts(cfg, s, key, v, now) then
      var victim := Victim(cache);
      s.(cache := cache.Remove(victim), locks := s.locks - {victim}, failures := failures)
    else
      s.(cache := cache, failures := failures)
  }

  function NextFinish(cfg: Config, s: State, c: CallId, outcome: Outcome, t0: Time): (r: State)
    requires DictsOk(s) && Enabled(s, Finish(c, outcome, t0))
    ensures c in r.calls && r.calls == s.calls[c := Call(s.calls[c].key, r.calls[c].phase)]
    ensures !r.calls[c].Live()
    ensures s.clock <= r.clock
    ensures outcome.Value? ==> r.cache == Store(cfg, s, s.calls[c].key, outcome.value, t0).cache
    ensures !outcome.Value? ==> r.cache == s.cache && r.locks == s.locks
    ensures var l := s.calls[c].phase.lock; r.heap == s.heap[l := s.heap[l].(holder := None)]
  {
    var Call(key, InFunc(l, _)) := s.calls[c];
    match outcome
    case Value(v) =>
      Settle(Store(cfg, s, key, v, t0), c, key, Returned(v), l, None).(clock := t0)
    case Exception(e) =>
      Settle(s.(failures := s.failures.Put(key, Failed(e, t0))), c, key, Raised(e), l, None).(clock := t0)
    case Cancellation =>
      Settle(s, c, key, Cancelled, l, None)
  }

  function NextCancelWait(s: State, c: CallId): (r: State)
    requires Enabled(s, CancelWait(c))
    ensures c in r.calls && r.calls == s.calls[c := Call(s.calls[c].key, r.calls[c].phase)]
    ensures r.cache == s.cache && r.failures == s.failures && r.locks == s.locks
    ensures !r.calls[c].Live()
    ensures var l := s.calls[c].phase.lock;
            r.heap == s.heap[l := s.heap[l].(waiters := Without(s.heap[l].waiters, c))]
  {
    var Call(key, Queued(l, _)) := s.calls[c];
    s.(calls := s.calls[c := Call(key, Cancelled)],
       heap := s.heap[l := s.heap[l].(waiters := Without(s.heap[l].waiters, c))])
  }

  function Next(cfg: Config, s: State, e: Event): State
    requires DictsOk(s) && Enabled(s, e)
  {
    match e
    case Enter(c, key, t0, t1, t2) => NextEnter(s, c, key, t0, t1, t2)
    case Wake(c, t0) => NextWake(s, c, t0)
    case Finish(c, outcome, t0) => NextFinish(cfg, s, c, outcome, t0)
    case CancelWait(c) => NextCancelWait(s, c)
    case Clear => s.(cache := Empty(), locks := map[], failures := Empty())
  }
}
