/** What every step of the protocol keeps. */
module TtlCacheInvariant {
  import opened Wrappers
  import opened OrderedDict
  import opened TtlCache

  /** A lock object holds and queues only calls that are at the matching point of their code. */
  ghost predicate LockOk(heap: seq<Lock>, calls: map<CallId, Call>, l: LockId)
    requires l < |heap|
  {
    && Distinct(heap[l].waiters)
    && (forall w :: w in heap[l].waiters ==>
          w in calls && calls[w].phase.Queued? && calls[w].phase.lock == l)
    && (heap[l].holder.Some? ==>
          var h := heap[l].holder.value;
          h in calls && calls[h].phase.InFunc? && calls[h].phase.lock == l)
  }

  /** A live call is registered with its lock object, which was made for the call's key. */
  ghost predicate CallOk(heap: seq<Lock>, calls: map<CallId, Call>, c: CallId)
    requires c in calls
  {
    calls[c].Live() ==>
      && calls[c].phase.lock < |heap|
      && var lock := heap[calls[c].phase.lock];
         && lock.key == calls[c].key
         && (calls[c].phase.Queued? ==> c in lock.waiters)
         && (calls[c].phase.InFunc? ==> lock.holder == Some(c))
  }

  ghost predicate CoreOk(heap: seq<Lock>, calls: map<CallId, Call>) {
    && (forall l: LockId :: l < |heap| ==> LockOk(heap, calls, l))
    && (forall c :: c in calls ==> CallOk(heap, calls, c))
  }

  ghost predicate TimesOk(s: State) {
    && (forall c | IsLive(s, c) :: s.calls[c].phase.arrived <= s.clock)
    && (forall k | k in s.failures.at :: s.failures.at[k].at <= s.clock)
  }

  ghost predicate Inv(cfg: Config, s: State) {
    && DictsOk(s) && CoreOk(s.heap, s.calls) && TimesOk(s)
    && |s.cache.keys| <= cfg.maxsize
  }

  /** One call changes its phase and its lock object accordingly; everything else stands still. */
  lemma CoreUpdate(heap: seq<Lock>, calls: map<CallId, Call>, l: LockId, lock: Lock, c: CallId, call: Call)
    requires CoreOk(heap, calls) && l < |heap|
    requires c in calls ==> calls[c].Live() && calls[c].phase.lock == l
    requires lock.key == heap[l].key == call.key
    requires call.Live() ==> call.phase.lock == l
    requires Distinct(lock.waiters)
    requires forall w :: w in lock.waiters <==> (w != c && w in heap[l].waiters) || (w == c && call.phase.Queued?)
    requires call.phase.InFunc? ==> lock.holder == Some(c) && heap[l].holder.None?
    requires !call.phase.InFunc? ==> lock.holder == if heap[l].holder == Some(c) then None else heap[l].holder
    ensures CoreOk(heap[l := lock], calls[c := call])
  {
    var heap', calls' := heap[l := lock], calls[c := call];
    forall m: LockId | m < |heap'| ensures LockOk(heap', calls', m) {
      assert LockOk(heap, calls, m);
    }
    forall d | d in calls' ensures CallOk(heap', calls', d) {
      assert d != c ==> CallOk(heap, calls, d);
      assert LockOk(heap, calls, l);
    }
  }

  lemma CoreAddLock(heap: seq<Lock>, calls: map<CallId, Call>, key: Key)
    requires CoreOk(heap, calls)
    ensures CoreOk(heap + [Lock(key, None, [])], calls)
  {
    var heap' := heap + [Lock(key, None, [])];
    forall l: LockId | l < |heap'| ensures LockOk(heap', calls, l) {
      assert l < |heap| ==> LockOk(heap, calls, l);
    }
    forall c | c in calls ensures CallOk(heap', calls, c) {
      assert CallOk(heap, calls, c);
    }
  }

  lemma CoreHit(heap: seq<Lock>, calls: map<CallId, Call>, c: CallId, call: Call)
    requires CoreOk(heap, calls) && c !in calls && !call.Live()
    ensures CoreOk(heap, calls[c := call])
  {
    var calls' := calls[c := call];
    forall d | d in calls' ensures CallOk(heap, calls', d) {
      assert d != c ==> CallOk(heap, calls, d);
    }
    forall l: LockId | l < |heap| ensures LockOk(heap, calls', l) {
      assert LockOk(heap, calls, l);
    }
  }

  lemma InvArrive(cfg: Config, s: State, c: CallId, key: Key, t1: Time, t2: Time)
    requires Inv(cfg, s) && key in s.locks && c !in s.calls && s.clock <= t1 <= t2
    ensures Inv(cfg, Arrive(s, c, key, t1, t2))
  {
    var s' := Arrive(s, c, key, t1, t2);
    var l := s.locks[key];
    assert LockOk(s.heap, s.calls, l);
    CoreUpdate(s.heap, s.calls, l, s'.heap[l], c, s'.calls[c]);
    assert s'.heap == s.heap[l := s'.heap[l]];
  }

  lemma InvEnter(cfg: Config, s: State, c: CallId, key: Key, t0: Time, t1: Time, t2: Time)
    requires Inv(cfg, s) && Enabled(s, Enter(c, key, t0, t1, t2))
    ensures Inv(cfg, NextEnter(s, c, key, t0, t1, t2))
  {
    if Fresh(s, key, t0) {
      CoreHit(s.heap, s.calls, c, Call(key, Returned(s.cache.at[key].value)));
    } else {
      CoreAddLock(s.heap, s.calls, key);
      InvArrive(cfg, WithLock(s, key), c, key, t1, t2);
    }
  }

  lemma InvWake(cfg: Config, s: State, c: CallId, t0: Time)
    requires Inv(cfg, s) && Enabled(s, Wake(c, t0))
    ensures Inv(cfg, NextWake(s, c, t0))
  {
    var s' := NextWake(s, c, t0);
    var l := s.calls[c].phase.lock;
    assert CallOk(s.heap, s.calls, c) && LockOk(s.heap, s.calls, l);
    assert s.heap[l].waiters == [c] + s.heap[l].waiters[1..];
    CoreUpdate(s.heap, s.calls, l, s'.heap[l], c, s'.calls[c]);
    assert s'.heap == s.heap[l := s'.heap[l]];
  }

  lemma FinishCore(cfg: Config, s: State, c: CallId, outcome: Outcome, t0: Time)
    requires DictsOk(s) && CoreOk(s.heap, s.calls) && Enabled(s, Finish(c, outcome, t0))
    ensures var s' := NextFinish(cfg, s, c, outcome, t0); CoreOk(s'.heap, s'.calls)
  {
    var s' := NextFinish(cfg, s, c, outcome, t0);
    var l := s.calls[c].phase.lock;
    assert CallOk(s.heap, s.calls, c) && LockOk(s.heap, s.calls, l);
    CoreUpdate(s.heap, s.calls, l, s'.heap[l], c, s'.calls[c]);
    assert s'.heap == s.heap[l := s'.heap[l]];
    assert s'.calls == s.calls[c := s'.calls[c]];
  }

  lemma FinishDicts(cfg: Config, s: State, c: CallId, outcome: Outcome, t0: Time)
    requires DictsOk(s) && Enabled(s, Finish(c, outcome, t0))
    ensures DictsOk(NextFinish(cfg, s, c, outcome, t0))
  {
    hide Store, Dict.Valid, Dict.Put;
  }

  lemma FinishFailures(cfg: Config, s: State, c: CallId, outcome: Outcome, t0: Time)
    requires DictsOk(s) && Enabled(s, Finish(c, outcome, t0))
    ensures var s' := NextFinish(cfg, s, c, outcome, t0);
            forall k :: k in s'.failures.at ==>
              || (k in s.failures.at && s'.failures.at[k] == s.failures.at[k])
              || (outcome.Exception? && s'.clock == t0 && s'.failures.at[k] == Failed(outcome.error, t0))
  {
    hide Store, Dict.Valid;
  }

  lemma InvFinish(cfg: Config, s: State, c: CallId, outcome: Outcome, t0: Time)
    requires Inv(cfg, s) && Enabled(s, Finish(c, outcome, t0))
    ensures Inv(cfg, NextFinish(cfg, s, c, outcome, t0))
  {
    FinishCore(cfg, s, c, outcome, t0);
    FinishDicts(cfg, s, c, outcome, t0);
    FinishFailures(cfg, s, c, outcome, t0);
    hide Store, Dict.Valid, Dict.Remove;
    var s' := NextFinish(cfg, s, c, outcome, t0);
    forall d | IsLive(s', d) ensures s'.calls[d].phase.arrived <= s'.clock {
      assert d != c && IsLive(s, d);
    }
  }

  lemma InvCancelWait(cfg: Config, s: State, c: CallId)
    requires Inv(cfg, s) && Enabled(s, CancelWait(c))
    ensures Inv(cfg, NextCancelWait(s, c))
  {
    var s' := NextCancelWait(s, c);
    var l := s.calls[c].phase.lock;
    assert CallOk(s.heap, s.calls, c) && LockOk(s.heap, s.calls, l);
    CoreUpdate(s.heap, s.calls, l, s'.heap[l], c, s'.calls[c]);
  }

  lemma InvNext(cfg: Config, s: State, e: Event)
    requires Inv(cfg, s) && Enabled(s, e)
    ensures Inv(cfg, Next(cfg, s, e))
    ensures s.clock <= Next(cfg, s, e).clock
  {
    match e
    case Enter(c, key, t0, t1, t2) => InvEnter(cfg, s, c, key, t0, t1, t2);
    case Wake(c, t0) => InvWake(cfg, s, c, t0);
    case Finish(c, outcome, t0) => InvFinish(cfg, s, c, outcome, t0);
    case CancelWait(c) => InvCancelWait(cfg, s, c);
    case Clear =>
  }
}
