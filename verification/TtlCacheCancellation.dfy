/** A cancelled computation leaves no trace: the next waiter starts over. */
module TtlCacheCancellation {
  import opened Wrappers
  import opened OrderedDict
  import opened TtlCache
  import opened TtlCacheInvariant
  import opened TtlCacheRuns

  /** The calls on a lock object, the holder first, arrived in the order in which they stand. */
  ghost predicate InOrder(heap: seq<Lock>, calls: map<CallId, Call>, l: LockId)
    requires l < |heap| && LockOk(heap, calls, l)
  {
    && (forall i, j :: 0 <= i < j < |heap[l].waiters| ==>
          calls[heap[l].waiters[i]].phase.arrived <= calls[heap[l].waiters[j]].phase.arrived)
    && (heap[l].holder.Some? ==> forall w :: w in heap[l].waiters ==>
          calls[heap[l].holder.value].phase.arrived <= calls[w].phase.arrived)
  }

  ghost predicate AllInOrder(heap: seq<Lock>, calls: map<CallId, Call>)
    requires CoreOk(heap, calls)
  {
    forall l: LockId :: l < |heap| ==> InOrder(heap, calls, l)
  }

  /** A lock object that a step does not touch, nor any call on it, stays in order. */
  lemma OrderFrame(heap: seq<Lock>, calls: map<CallId, Call>, heap': seq<Lock>, calls': map<CallId, Call>,
                   c: CallId, l: LockId)
    requires l < |heap| && LockOk(heap, calls, l) && InOrder(heap, calls, l)
    requires l < |heap'| && LockOk(heap', calls', l) && heap'[l] == heap[l]
    requires c !in heap[l].waiters && heap[l].holder != Some(c)
    requires forall d :: d != c && d in calls ==> d in calls' && calls'[d] == calls[d]
    ensures InOrder(heap', calls', l)
  {
  }

  lemma OrderEnter(cfg: Config, s: State, c: CallId, key: Key, t0: Time, t1: Time, t2: Time, l: LockId)
    requires Inv(cfg, s) && AllInOrder(s.heap, s.calls) && Enabled(s, Enter(c, key, t0, t1, t2))
    requires Inv(cfg, NextEnter(s, c, key, t0, t1, t2)) && l < |NextEnter(s, c, key, t0, t1, t2).heap|
    ensures var s' := NextEnter(s, c, key, t0, t1, t2); LockOk(s'.heap, s'.calls, l) && InOrder(s'.heap, s'.calls, l)
  {
    hide Dict.Valid, Distinct, Fresh, FailedSince;
    var s' := NextEnter(s, c, key, t0, t1, t2);
    assert LockOk(s'.heap, s'.calls, l);
    if l < |s.heap| {
      assert LockOk(s.heap, s.calls, l) && InOrder(s.heap, s.calls, l);
      if s'.heap[l] == s.heap[l] {
        OrderFrame(s.heap, s.calls, s'.heap, s'.calls, c, l);
      } else {
        if s'.heap[l].waiters == s.heap[l].waiters + [c] {
          forall w | w in s.heap[l].waiters ensures s.calls[w].phase.arrived <= t1 {
            assert IsLive(s, w);
          }
          HolderArrived(s, l);
          OrderPark(s.heap, s.calls, s'.heap, s'.calls, c, l);
        }
      }
    }
  }

  lemma HolderArrived(s: State, l: LockId)
    requires TimesOk(s) && l < |s.heap| && LockOk(s.heap, s.calls, l)
    ensures s.heap[l].holder.Some? ==> s.calls[s.heap[l].holder.value].phase.arrived <= s.clock
  {
    assert s.heap[l].holder.Some? ==> IsLive(s, s.heap[l].holder.value);
  }

  /** A newcomer parks behind calls that arrived no later. */
  lemma OrderPark(heap: seq<Lock>, calls: map<CallId, Call>, heap': seq<Lock>, calls': map<CallId, Call>,
                  c: CallId, l: LockId)
    requires l < |heap| && LockOk(heap, calls, l) && InOrder(heap, calls, l)
    requires l < |heap'| && LockOk(heap', calls', l)
    requires heap'[l].holder == heap[l].holder && heap'[l].waiters == heap[l].waiters + [c]
    requires c !in heap[l].waiters && heap[l].holder != Some(c) && c in calls'
    requires forall d :: d != c && d in calls ==> d in calls' && calls'[d] == calls[d]
    requires forall w :: w in heap[l].waiters ==> calls[w].phase.arrived <= calls'[c].phase.arrived
    requires heap[l].holder.Some? ==> calls[heap[l].holder.value].phase.arrived <= calls'[c].phase.arrived
    ensures InOrder(heap', calls', l)
  {
  }

  lemma OrderWake(cfg: Config, s: State, c: CallId, t0: Time, l: LockId)
    requires Inv(cfg, s) && AllInOrder(s.heap, s.calls) && Enabled(s, Wake(c, t0)) && l < |s.heap|
    requires Inv(cfg, NextWake(s, c, t0))
    ensures var s' := NextWake(s, c, t0); LockOk(s'.heap, s'.calls, l) && InOrder(s'.heap, s'.calls, l)
  {
    hide Dict.Valid, Distinct, Fresh, FailedSince;
    var s' := NextWake(s, c, t0);
    assert LockOk(s'.heap, s'.calls, l) && LockOk(s.heap, s.calls, l) && InOrder(s.heap, s.calls, l);
    if s.calls[c].phase.lock != l {
      OrderFrame(s.heap, s.calls, s'.heap, s'.calls, c, l);
    } else {
      var waiters := s.heap[l].waiters;
      assert forall i :: 0 < i < |waiters| ==> waiters[i] != c && s'.calls[waiters[i]] == s.calls[waiters[i]];
    }
  }

  lemma OrderFinish(cfg: Config, s: State, c: CallId, outcome: Outcome, t0: Time, l: LockId)
    requires Inv(cfg, s) && AllInOrder(s.heap, s.calls) && Enabled(s, Finish(c, outcome, t0)) && l < |s.heap|
    requires Inv(cfg, NextFinish(cfg, s, c, outcome, t0))
    ensures var s' := NextFinish(cfg, s, c, outcome, t0); LockOk(s'.heap, s'.calls, l) && InOrder(s'.heap, s'.calls, l)
  {
    hide Dict.Valid, Distinct, Store, Dict.Put;
    var s' := NextFinish(cfg, s, c, outcome, t0);
    assert LockOk(s'.heap, s'.calls, l) && LockOk(s.heap, s.calls, l) && InOrder(s.heap, s.calls, l);
    if s.calls[c].phase.lock != l {
      OrderFrame(s.heap, s.calls, s'.heap, s'.calls, c, l);
    } else {
      assert forall w :: w in s.heap[l].waiters ==> w != c && s'.calls[w] == s.calls[w];
    }
  }

  /** Calls in order of arrival, all of them parked. */
  ghost predicate Sorted(waiters: seq<CallId>, calls: map<CallId, Call>) {
    && (forall w :: w in waiters ==> w in calls && calls[w].phase.Queued?)
    && (forall i, j :: 0 <= i < j < |waiters| ==> calls[waiters[i]].phase.arrived <= calls[waiters[j]].phase.arrived)
  }

  lemma SortedSkip(waiters: seq<CallId>, p: nat, r: seq<CallId>, calls: map<CallId, Call>)
    requires Sorted(waiters, calls) && p < |waiters| && r == waiters[..p] + waiters[p + 1..]
    ensures Sorted(r, calls)
  {
    assert forall i :: 0 <= i < |r| ==> r[i] == waiters[if i < p then i else i + 1];
  }

  lemma SortedWithout(waiters: seq<CallId>, c: CallId, calls: map<CallId, Call>)
    requires Distinct(waiters) && c in waiters && Sorted(waiters, calls)
    ensures Sorted(Without(waiters, c), calls)
  {
    hide Sorted, Distinct, Without;
    var p :| 0 <= p < |waiters| && waiters[p] == c;
    WithoutSplits(waiters, p);
    SortedSkip(waiters, p, Without(waiters, c), calls);
  }

  lemma OrderCancel(cfg: Config, s: State, c: CallId, l: LockId)
    requires Inv(cfg, s) && AllInOrder(s.heap, s.calls) && Enabled(s, CancelWait(c)) && l < |s.heap|
    requires Inv(cfg, NextCancelWait(s, c))
    ensures var s' := NextCancelWait(s, c); LockOk(s'.heap, s'.calls, l) && InOrder(s'.heap, s'.calls, l)
  {
    hide Dict.Valid, Without;
    var s' := NextCancelWait(s, c);
    assert LockOk(s'.heap, s'.calls, l) && LockOk(s.heap, s.calls, l) && InOrder(s.heap, s.calls, l);
    assert CallOk(s.heap, s.calls, c);
    if s.calls[c].phase.lock != l {
      OrderFrame(s.heap, s.calls, s'.heap, s'.calls, c, l);
    } else {
      var waiters := s.heap[l].waiters;
      SortedWithout(waiters, c, s.calls);
      assert forall w :: w in Without(waiters, c) ==> w in waiters && s'.calls[w] == s.calls[w];
    }
  }

  lemma OrderStep(cfg: Config, s: State, e: Event, s': State)
    requires Inv(cfg, s) && AllInOrder(s.heap, s.calls) && IsStep(cfg, s, e, s') && Inv(cfg, s')
    ensures AllInOrder(s'.heap, s'.calls)
  {
    forall l: LockId | l < |s'.heap| ensures LockOk(s'.heap, s'.calls, l) && InOrder(s'.heap, s'.calls, l) {
      match e
      case Enter(c, key, t0, t1, t2) => OrderEnter(cfg, s, c, key, t0, t1, t2, l);
      case Wake(c, t0) => OrderWake(cfg, s, c, t0, l);
      case Finish(c, outcome, t0) => OrderFinish(cfg, s, c, outcome, t0, l);
      case CancelWait(c) => OrderCancel(cfg, s, c, l);
      case Clear => assert LockOk(s'.heap, s'.calls, l) && InOrder(s.heap, s.calls, l);
    }
  }

  lemma NoLocks(cfg: Config, s: State)
    requires Inv(cfg, s) && s.heap == []
    ensures AllInOrder(s.heap, s.calls)
  {
  }

  /** FIFO, on every run: a lock is entered in the order of arrival. */
  lemma {:induction false} ArrivalOrder(cfg: Config, ss: seq<State>, es: seq<Event>, n: nat)
    requires IsRun(cfg, ss, es) && n <= |es|
    ensures Inv(cfg, ss[n]) && AllInOrder(ss[n].heap, ss[n].calls)
  {
    hide IsStep, Inv, InOrder;
    RunInv(cfg, ss, es, n);
    if n == 0 {
      NoLocks(cfg, ss[0]);
    } else {
      ArrivalOrder(cfg, ss, es, n - 1);
      OrderStep(cfg, ss[n - 1], es[n - 1], ss[n]);
    }
  }

  /** Nothing on record can keep a call parked on the free lock `l` from computing. */
  ghost predicate NothingOnRecord(s: State, l: LockId, key: Key, since: Time) {
    && l < |s.heap| && s.heap[l].key == key && since <= s.clock
    && (s.heap[l].holder.None? && s.heap[l].waiters != [] ==>
          && Stale(s, key) && FailedBefore(s, key, since)
          && (forall w :: w in s.heap[l].waiters ==> IsQueued(s, w) && s.calls[w].phase.arrived >= since))
  }

  /** The event ends a computation under lock `l`, or wakes one of its waiters. */
  predicate TurnsOver(s: State, l: LockId, e: Event) {
    (e.Finish? || e.Wake?) && e.call in s.calls && s.calls[e.call].Live() && s.calls[e.call].phase.lock == l
  }

  /** A cancelled computation changes none of the three dicts, on any run. */
  lemma CancelLeavesNoTrace(cfg: Config, s: State, c: CallId, t0: Time)
    requires DictsOk(s) && Enabled(s, Finish(c, Cancellation, t0))
    ensures var s' := Next(cfg, s, Finish(c, Cancellation, t0));
            s' == s.(calls := s'.calls, heap := s'.heap) && s'.calls[c].phase == Cancelled
  {
  }

  lemma CancelStarts(cfg: Config, s: State, c: CallId, t0: Time, s': State)
    requires IsStep(cfg, s, Finish(c, Cancellation, t0), s') && Settled(cfg, s, s.calls[c].key)
    requires AllInOrder(s.heap, s.calls)
    ensures NothingOnRecord(s', s.calls[c].phase.lock, s.calls[c].key, s.calls[c].phase.arrived)
  {
    CancelLeavesNoTrace(cfg, s, c, t0);
    var l := s.calls[c].phase.lock;
    assert IsLive(s, c) && CallOk(s.heap, s.calls, c) && LockOk(s.heap, s.calls, l) && InOrder(s.heap, s.calls, l);
    assert forall w :: w in s.heap[l].waiters ==> w != c && s'.calls[w] == s.calls[w];
  }

  /** While calls are parked on a free lock that a key agrees on, nobody computes for the key. */
  lemma ParkedOnFree(cfg: Config, s: State, l: LockId, key: Key)
    requires Settled(cfg, s, key) && l < |s.heap| && s.heap[l].key == key
    requires s.heap[l].holder.None? && s.heap[l].waiters != []
    ensures key in s.locks && s.locks[key] == l
    ensures forall c | IsInFunc(s, c) :: s.calls[c].key != key && s.calls[c].phase.lock != l
  {
    var head := s.heap[l].waiters[0];
    assert LockOk(s.heap, s.calls, l) && head in s.heap[l].waiters && IsLive(s, head);
    assert CallOk(s.heap, s.calls, head);
    forall c | IsInFunc(s, c) ensures s.calls[c].key != key && s.calls[c].phase.lock != l {
      assert IsLive(s, c) && CallOk(s.heap, s.calls, c);
    }
  }

  lemma NothingOnRecordFinish(cfg: Config, s: State, l: LockId, key: Key, since: Time,
                              c: CallId, outcome: Outcome, t0: Time)
    requires Settled(cfg, s, key) && NothingOnRecord(s, l, key, since)
    requires Enabled(s, Finish(c, outcome, t0)) && s.calls[c].phase.lock != l
    ensures NothingOnRecord(NextFinish(cfg, s, c, outcome, t0), l, key, since)
  {
    hide Dict.Valid, Distinct, Store, Dict.Put;
    var e, s' := Finish(c, outcome, t0), NextFinish(cfg, s, c, outcome, t0);
    assert s'.heap[l] == s.heap[l];
    if s.heap[l].holder.None? && s.heap[l].waiters != [] {
      ParkedOnFree(cfg, s, l, key);
      NextCache(cfg, s, e, key);
      NextFailures(cfg, s, e, key);
      hide Settled, Drops, Trims, NextFinish;
    }
  }

  lemma NothingOnRecordEnter(cfg: Config, s: State, l: LockId, key: Key, since: Time,
                             c: CallId, k: Key, t0: Time, t1: Time, t2: Time)
    requires Settled(cfg, s, key) && NothingOnRecord(s, l, key, since) && Enabled(s, Enter(c, k, t0, t1, t2))
    ensures NothingOnRecord(NextEnter(s, c, k, t0, t1, t2), l, key, since)
  {
    var s' := NextEnter(s, c, k, t0, t1, t2);
    if s'.heap[l].holder.None? && s'.heap[l].waiters != [] {
      assert s.heap[l].holder.None? && s.heap[l].waiters != [];
      forall w | w in s'.heap[l].waiters ensures IsQueued(s', w) && s'.calls[w].phase.arrived >= since {
        assert w != c ==> w in s.heap[l].waiters;
      }
    }
  }

  lemma NothingOnRecordStep(cfg: Config, s: State, l: LockId, key: Key, since: Time, e: Event, s': State)
    requires Settled(cfg, s, key) && NothingOnRecord(s, l, key, since)
    requires IsStep(cfg, s, e, s') && !TurnsOver(s, l, e)
    ensures NothingOnRecord(s', l, key, since)
  {
    hide Dict.Valid, Distinct;
    match e
    case Enter(c, k, t0, t1, t2) => NothingOnRecordEnter(cfg, s, l, key, since, c, k, t0, t1, t2);
    case Wake(c, t0) =>
      assert LockOk(s.heap, s.calls, l);
      assert s'.heap[l] == s.heap[l];
    case Finish(c, outcome, t0) => NothingOnRecordFinish(cfg, s, l, key, since, c, outcome, t0);
    case CancelWait(c) =>
      assert LockOk(s.heap, s.calls, l);
    case Clear =>
  }

  lemma {:induction false} NothingOnRecordPersists(cfg: Config, ss: seq<State>, es: seq<Event>, a: nat, n: nat,
                                                   l: LockId, key: Key, since: Time)
    requires KeepsLockFrom(cfg, ss, es, a, n, key) && NothingOnRecord(ss[a], l, key, since)
    requires forall i | a <= i < n :: !TurnsOver(ss[i], l, es[i])
    ensures NothingOnRecord(ss[n], l, key, since)
  {
    hide NothingOnRecord, Settled, IsStep, KeepsLock;
    if a == n {
    } else {
      NothingOnRecordPersists(cfg, ss, es, a, n - 1, l, key, since);
      SettledOnRun(cfg, ss, es, a, n - 1, key);
      NothingOnRecordStep(cfg, ss[n - 1], l, key, since, es[n - 1], ss[n]);
    }
  }

  /** When a computation is cancelled at `a`, the next waiter that its lock wakes, at `n`, computes. */
  lemma NextWaiterComputes(cfg: Config, ss: seq<State>, es: seq<Event>, a: nat, n: nat,
                           c: CallId, t0: Time, w: CallId, t1: Time)
    requires a < n < |es| && |ss| == |es| + 1
    requires es[a] == Finish(c, Cancellation, t0) && IsInFunc(ss[a], c)
    requires es[n] == Wake(w, t1) && IsQueued(ss[n], w)
    requires KeepsLockFrom(cfg, ss, es, a, n, ss[a].calls[c].key)
    requires var l := ss[a].calls[c].phase.lock;
             ss[n].calls[w].phase.lock == l && forall i | a < i < n :: !TurnsOver(ss[i], l, es[i])
    ensures IsInFunc(ss[n + 1], w)
  {
    var Call(key, InFunc(l, arrived)) := ss[a].calls[c];
    SettledOnRun(cfg, ss, es, a, a + 1, key);
    ArrivalOrder(cfg, ss, es, a);
    CancelStarts(cfg, ss[a], c, t0, ss[a + 1]);
    NothingOnRecordPersists(cfg, ss, es, a + 1, n, l, key, arrived);
    RunInv(cfg, ss, es, n);
    WakeComputes(cfg, ss[n], l, key, arrived, w, t1, ss[n + 1]);
  }

  lemma WakeComputes(cfg: Config, s: State, l: LockId, key: Key, since: Time, w: CallId, t0: Time, s': State)
    requires Inv(cfg, s) && NothingOnRecord(s, l, key, since) && IsStep(cfg, s, Wake(w, t0), s')
    requires s.calls[w].phase.lock == l
    ensures IsInFunc(s', w)
  {
    assert CallOk(s.heap, s.calls, w);
  }
}
