/** How a computation that raises is shared with the calls queued behind it. */
module TtlCacheSharing {
  import opened Wrappers
  import opened OrderedDict
  import opened TtlCache
  import opened TtlCacheInvariant
  import opened TtlCacheRuns

  /** The calls `queue` that were parked on lock `l` when `func` raised `error` at time `at`:
      each is still parked, got that exception, or was cancelled. Those still parked are ahead of
      all later arrivals, the lock is free, and the failure is on record. */
  ghost predicate Sharing(s: State, l: LockId, key: Key, f: Failed, queue: seq<CallId>) {
    && l < |s.heap| && s.heap[l].key == key
    && (forall w :: w in queue ==> w in s.calls && SharesOrWaits(s.calls[w].phase, l, f))
    && QueueFirst(s.heap[l].waiters, queue)
    && (Waiting(s, l, queue) ==>
          s.heap[l].holder.None? && key in s.failures.at && s.failures.at[key] == f && Stale(s, key))
  }

  predicate SharesOrWaits(p: Phase, l: LockId, f: Failed) {
    p == Raised(f.error) || p.Cancelled? || (p.Queued? && p.lock == l && p.arrived <= f.at)
  }

  ghost predicate QueueFirst(waiters: seq<CallId>, queue: seq<CallId>) {
    forall i, j :: 0 <= j < i < |waiters| && waiters[i] in queue ==> waiters[j] in queue
  }

  /** Some of the calls that are to share the failure are still parked. */
  predicate Waiting(s: State, l: LockId, queue: seq<CallId>) {
    l < |s.heap| && s.heap[l].waiters != [] && s.heap[l].waiters[0] in queue
  }

  /** As long as some of them wait, their lock is the one listed and nobody computes for the key. */
  lemma WhileWaiting(cfg: Config, s: State, l: LockId, key: Key, f: Failed, queue: seq<CallId>)
    requires Settled(cfg, s, key) && Sharing(s, l, key, f, queue) && Waiting(s, l, queue)
    ensures key in s.locks && s.locks[key] == l
    ensures forall c | IsInFunc(s, c) :: s.calls[c].key != key
  {
    var head := s.heap[l].waiters[0];
    assert LockOk(s.heap, s.calls, l) && IsLive(s, head);
    assert CallOk(s.heap, s.calls, head);
    forall c | IsInFunc(s, c) ensures s.calls[c].key != key {
      assert IsLive(s, c) && CallOk(s.heap, s.calls, c);
    }
  }

  lemma SharingEnter(cfg: Config, s: State, l: LockId, key: Key, f: Failed, queue: seq<CallId>,
                     c: CallId, k: Key, t0: Time, t1: Time, t2: Time)
    requires Settled(cfg, s, key) && Sharing(s, l, key, f, queue) && Enabled(s, Enter(c, k, t0, t1, t2))
    ensures Sharing(NextEnter(s, c, k, t0, t1, t2), l, key, f, queue)
  {
    var s' := NextEnter(s, c, k, t0, t1, t2);
    var waiters := s.heap[l].waiters;
    if Waiting(s, l, queue) {
      WhileWaiting(cfg, s, l, key, f, queue);
      hide Settled, Dict.Valid;
      assert s'.heap[l] == s.heap[l] || s'.heap[l] == s.heap[l].(waiters := waiters + [c]);
    } else {
      assert forall i :: 0 <= i < |waiters| ==> waiters[i] !in queue;
      hide Settled, Dict.Valid;
      assert s'.heap[l].key == key && (s'.heap[l].waiters == waiters || s'.heap[l].waiters == waiters + [c]);
    }
  }

  lemma SharingWake(cfg: Config, s: State, l: LockId, key: Key, f: Failed, queue: seq<CallId>, c: CallId, t0: Time)
    requires Settled(cfg, s, key) && Sharing(s, l, key, f, queue) && Enabled(s, Wake(c, t0))
    ensures Sharing(NextWake(s, c, t0), l, key, f, queue)
  {
    var s' := NextWake(s, c, t0);
    assert CallOk(s.heap, s.calls, c);
    hide Settled;
    if s.calls[c].phase.lock == l {
      var waiters := s.heap[l].waiters;
      assert s'.heap[l].waiters == waiters[1..];
      if c in queue {
        assert s'.calls[c].phase == Raised(f.error);
      } else {
        assert forall i :: 0 <= i < |waiters| ==> waiters[i] !in queue;
      }
    } else {
      assert s'.heap[l] == s.heap[l];
    }
  }

  lemma SharingFinish(cfg: Config, s: State, l: LockId, key: Key, f: Failed, queue: seq<CallId>,
                      c: CallId, outcome: Outcome, t0: Time)
    requires Settled(cfg, s, key) && Sharing(s, l, key, f, queue) && Enabled(s, Finish(c, outcome, t0))
    ensures Sharing(NextFinish(cfg, s, c, outcome, t0), l, key, f, queue) <==>
            !(Waiting(s, l, queue) && Trims(cfg, s, Finish(c, outcome, t0), key))
  {
    var e, s' := Finish(c, outcome, t0), NextFinish(cfg, s, c, outcome, t0);
    FinishFrame(cfg, s, l, c, outcome, t0);
    assert c !in queue && forall w :: w in queue ==> s'.calls[w] == s.calls[w];
    if Waiting(s, l, queue) {
      WhileWaiting(cfg, s, l, key, f, queue);
      NextCache(cfg, s, e, key);
      NextFailures(cfg, s, e, key);
      HeldElsewhere(cfg, s, l, c);
      hide Settled, Drops, Trims, NextFinish, Next;
      SharingRecords(cfg, s, e, s', l, key, f, queue);
    }
  }

  lemma FinishFrame(cfg: Config, s: State, l: LockId, c: CallId, outcome: Outcome, t0: Time)
    requires DictsOk(s) && Enabled(s, Finish(c, outcome, t0)) && l < |s.heap|
    ensures var s' := NextFinish(cfg, s, c, outcome, t0);
            && |s'.heap| == |s.heap| && s'.heap[l].waiters == s.heap[l].waiters && s'.heap[l].key == s.heap[l].key
            && (s.calls[c].phase.lock != l ==> s'.heap[l] == s.heap[l])
            && s.clock <= s'.clock
  {
    hide Store;
  }

  /** While some wait, all depends on what becomes of the records of the key. */
  lemma SharingRecords(cfg: Config, s: State, e: Event, s': State, l: LockId, key: Key, f: Failed, queue: seq<CallId>)
    requires Sharing(s, l, key, f, queue) && Waiting(s, l, queue)
    requires e.Finish? && e.call in s.calls && s.calls[e.call].key != key
    requires l < |s'.heap| && s'.heap[l] == s.heap[l] && s.clock <= s'.clock
    requires forall w :: w in queue ==> w in s'.calls && s'.calls[w] == s.calls[w]
    requires CacheEffect(cfg, s, e, s', key) && FailuresEffect(cfg, s, e, s', key)
    ensures Sharing(s', l, key, f, queue) <==> !Trims(cfg, s, e, key)
  {
    hide Drops, Trims, QueueFirst;
  }

  lemma HeldElsewhere(cfg: Config, s: State, l: LockId, c: CallId)
    requires Inv(cfg, s) && l < |s.heap| && s.heap[l].holder.None? && IsInFunc(s, c)
    ensures s.calls[c].phase.lock != l
  {
    assert CallOk(s.heap, s.calls, c);
  }

  lemma SharingCancel(cfg: Config, s: State, l: LockId, key: Key, f: Failed, queue: seq<CallId>, c: CallId)
    requires Settled(cfg, s, key) && Sharing(s, l, key, f, queue) && Enabled(s, CancelWait(c))
    ensures Sharing(NextCancelWait(s, c), l, key, f, queue)
  {
    var s' := NextCancelWait(s, c);
    assert CallOk(s.heap, s.calls, c);
    if s.calls[c].phase.lock == l {
      assert LockOk(s.heap, s.calls, l);
      PrefixKept(s.heap[l].waiters, queue, c);
      hide Settled, QueueFirst, Without;
    } else {
      assert s'.heap[l] == s.heap[l];
    }
  }

  /** Removing a waiter keeps the members of `queue` ahead of the others. */
  lemma PrefixKept(waiters: seq<CallId>, queue: seq<CallId>, c: CallId)
    requires Distinct(waiters) && c in waiters && QueueFirst(waiters, queue)
    ensures var r := Without(waiters, c);
            QueueFirst(r, queue) && (r != [] && r[0] in queue ==> waiters[0] in queue)
  {
    hide QueueFirst, Distinct, Without;
    var i :| 0 <= i < |waiters| && waiters[i] == c;
    WithoutSplits(waiters, i);
    PrefixSkips(waiters, queue, i, Without(waiters, c));
  }

  lemma PrefixSkips(waiters: seq<CallId>, queue: seq<CallId>, p: nat, r: seq<CallId>)
    requires p < |waiters| && QueueFirst(waiters, queue) && r == waiters[..p] + waiters[p + 1..]
    ensures QueueFirst(r, queue) && (r != [] && r[0] in queue ==> waiters[0] in queue)
  {
    assert forall i :: 0 <= i < |r| ==> r[i] == waiters[if i < p then i else i + 1];
  }

  lemma SharingClear(cfg: Config, s: State, l: LockId, key: Key, f: Failed, queue: seq<CallId>)
    requires Settled(cfg, s, key) && Sharing(s, l, key, f, queue)
    ensures Sharing(Next(cfg, s, Clear), l, key, f, queue) <==> !Waiting(s, l, queue)
  {
  }

  /** A step keeps the failure shared if and only if it is not a clear, nor a trim of that very
      failure, while calls that are to share it still wait. */
  lemma SharingNext(cfg: Config, s: State, l: LockId, key: Key, f: Failed, queue: seq<CallId>, e: Event)
    requires Settled(cfg, s, key) && Sharing(s, l, key, f, queue) && Enabled(s, e)
    ensures Sharing(Next(cfg, s, e), l, key, f, queue) <==>
            !(Waiting(s, l, queue) && (e.Clear? || Trims(cfg, s, e, key)))
  {
    hide Settled, Sharing, Waiting;
    match e
    case Enter(c, k, t0, t1, t2) => SharingEnter(cfg, s, l, key, f, queue, c, k, t0, t1, t2);
    case Wake(c, t0) => SharingWake(cfg, s, l, key, f, queue, c, t0);
    case Finish(c, outcome, t0) => SharingFinish(cfg, s, l, key, f, queue, c, outcome, t0);
    case CancelWait(c) => SharingCancel(cfg, s, l, key, f, queue, c);
    case Clear => SharingClear(cfg, s, l, key, f, queue);
  }

  lemma SharingStep(cfg: Config, s: State, l: LockId, key: Key, f: Failed, queue: seq<CallId>, e: Event, s': State)
    requires Settled(cfg, s, key) && Sharing(s, l, key, f, queue) && IsStep(cfg, s, e, s')
    requires KeepsLock(cfg, s, e, key) && !(Waiting(s, l, queue) && Trims(cfg, s, e, key))
    ensures Sharing(s', l, key, f, queue)
  {
    SharingNext(cfg, s, l, key, f, queue, e);
    if Waiting(s, l, queue) {
      var head := s.heap[l].waiters[0];
      assert LockOk(s.heap, s.calls, l) && IsLive(s, head);
      assert CallOk(s.heap, s.calls, head);
    }
  }

  /** From event `a` to event `n`, the failure of `key` is not trimmed while calls of `queue` wait. */
  ghost predicate NoTrim(cfg: Config, ss: seq<State>, es: seq<Event>, a: nat, n: nat,
                         l: LockId, key: Key, queue: seq<CallId>)
    requires |ss| == |es| + 1 && n <= |es|
  {
    forall i | a <= i < n :: !(Waiting(ss[i], l, queue) && Trims(cfg, ss[i], es[i], key))
  }

  lemma {:induction false} SharingPersists(cfg: Config, ss: seq<State>, es: seq<Event>, a: nat, n: nat,
                                           l: LockId, key: Key, f: Failed, queue: seq<CallId>)
    requires KeepsLockFrom(cfg, ss, es, a, n, key) && Sharing(ss[a], l, key, f, queue)
    requires NoTrim(cfg, ss, es, a, n, l, key, queue)
    ensures Sharing(ss[n], l, key, f, queue)
  {
    hide IsStep, Settled, Sharing, KeepsLock, Waiting, Trims;
    if a == n {
    } else {
      SharingPersists(cfg, ss, es, a, n - 1, l, key, f, queue);
      SettledOnRun(cfg, ss, es, a, n - 1, key);
      SharingStep(cfg, ss[n - 1], l, key, f, queue, es[n - 1], ss[n]);
    }
  }

  /** Failure sharing. When `func` raises, the calls then parked on its lock never compute again
      for it: at every later point of the run each got that very exception, was cancelled, or
      is still parked, ahead of every call that came later. */
  lemma FailureIsShared(cfg: Config, ss: seq<State>, es: seq<Event>, a: nat, n: nat,
                        c: CallId, error: Error, t0: Time)
    requires a < n <= |es| && |ss| == |es| + 1 && es[a] == Finish(c, Exception(error), t0)
    requires IsInFunc(ss[a], c) && ss[a].calls[c].phase.lock < |ss[a].heap|
    requires var Call(key, phase) := ss[a].calls[c];
             && KeepsLockFrom(cfg, ss, es, a, n, key)
             && NoTrim(cfg, ss, es, a + 1, n, phase.lock, key, ss[a].heap[phase.lock].waiters)
    ensures var Call(key, phase) := ss[a].calls[c];
            Sharing(ss[n], phase.lock, key, Failed(error, t0), ss[a].heap[phase.lock].waiters)
  {
    var Call(key, phase) := ss[a].calls[c];
    SettledOnRun(cfg, ss, es, a, a + 1, key);
    SharingStarts(cfg, ss[a], c, error, t0, ss[a + 1]);
    SharingPersists(cfg, ss, es, a + 1, n, phase.lock, key, Failed(error, t0), ss[a].heap[phase.lock].waiters);
  }

  lemma SharingStarts(cfg: Config, s: State, c: CallId, error: Error, t0: Time, s': State)
    requires IsStep(cfg, s, Finish(c, Exception(error), t0), s') && Settled(cfg, s, s.calls[c].key)
    ensures var Call(key, phase) := s.calls[c];
            Sharing(s', phase.lock, key, Failed(error, t0), s.heap[phase.lock].waiters)
  {
    var l := s.calls[c].phase.lock;
    assert CallOk(s.heap, s.calls, c) && LockOk(s.heap, s.calls, l);
    forall w | w in s.heap[l].waiters ensures w != c && s.calls[w].phase.arrived <= s.clock {
      assert IsLive(s, w);
    }
    assert Stale(s, s.calls[c].key);
  }
}
