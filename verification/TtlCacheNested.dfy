/** Many cached functions that await one another: no deadlock if the awaiting is ranked.

    Each function has its own cache. A call inside `func` may start calls to other cached
    functions and wait for them; a gather that fails early leaves its other children running. */
module TtlCacheNested {
  import opened Wrappers
  import Sets
  import opened TtlCache
  import opened TtlCacheInvariant
  import opened TtlCacheRuns

  type Func = nat

  datatype Ref = Ref(func: Func, call: CallId)

  /** `clock` is the last reading of the one monotonic clock, by whichever cache. */
  datatype World = World(caches: seq<State>, parents: map<Ref, Ref>, clock: Time)

  /** One step of one cache; a call that enters may be awaited by a call inside another function. */
  datatype Act = Act(func: Func, event: Event, parent: Option<Ref>)

  /** `awaits(g, f)`: the body of function `g` may await function `f`. */
  datatype System = System(cfgs: seq<Config>, awaits: (Func, Func) -> bool)

  predicate Live(w: World, r: Ref) { r.func < |w.caches| && IsLive(w.caches[r.func], r.call) }

  predicate InBody(w: World, r: Ref) { r.func < |w.caches| && IsInFunc(w.caches[r.func], r.call) }

  predicate Child(w: World, q: Ref, r: Ref) { q in w.parents && w.parents[q] == r && Live(w, q) }

  /** The step reads the clock. */
  predicate Reads(e: Event) { e.Enter? || e.Wake? || (e.Finish? && !e.outcome.Cancellation?) }

  ghost predicate WorldStep(y: System, w: World, a: Act, w': World) {
    && |y.cfgs| == |w.caches| == |w'.caches|
    && a.func < |w.caches|
    && IsStep(y.cfgs[a.func], w.caches[a.func], a.event, w'.caches[a.func])
    && (Reads(a.event) ==> w.clock <= a.event.t0)
    && w'.clock == (if w.clock <= w'.caches[a.func].clock then w'.caches[a.func].clock else w.clock)
    && (forall f: Func :: f < |w.caches| && f != a.func ==> w'.caches[f] == w.caches[f])
    && (match a.parent
        case None => w'.parents == w.parents
        case Some(p) =>
          && a.event.Enter? && InBody(w, p) && y.awaits(p.func, a.func)
          && w'.parents == w.parents[Ref(a.func, a.event.call) := p])
    // A body returns a value only when everything it awaited is done.
    && (a.event.Finish? && a.event.outcome.Value? ==> forall q :: !Child(w, q, Ref(a.func, a.event.call)))
  }

  ghost predicate IsWorldRun(y: System, ws: seq<World>, acts: seq<Act>) {
    && |ws| == |acts| + 1
    && |ws[0].caches| == |y.cfgs| && ws[0].parents == map[]
    && (forall f: Func :: f < |y.cfgs| ==> ws[0].caches[f] == Init(ws[0].clock))
    && (forall i | 0 <= i < |acts| :: WorldStep(y, ws[i], acts[i], ws[i + 1]))
  }

  ghost predicate WorldInv(y: System, w: World) {
    && |y.cfgs| == |w.caches|
    && (forall f: Func :: f < |w.caches| ==> Inv(y.cfgs[f], w.caches[f]) && w.caches[f].clock <= w.clock)
    && (forall q :: q in w.parents ==> y.awaits(w.parents[q].func, q.func))
  }

  lemma {:induction false} WorldRunInv(y: System, ws: seq<World>, acts: seq<Act>, n: nat)
    requires IsWorldRun(y, ws, acts) && n <= |acts|
    ensures WorldInv(y, ws[n])
  {
    hide Inv, IsStep;
    if n == 0 {
      forall f: Func | f < |y.cfgs| ensures Inv(y.cfgs[f], ws[0].caches[f]) {
        InvInit(y.cfgs[f], ws[0].clock);
      }
    } else {
      WorldRunInv(y, ws, acts, n - 1);
      WorldStepInv(y, ws[n - 1], acts[n - 1], ws[n]);
    }
  }

  lemma WorldStepInv(y: System, w: World, a: Act, w': World)
    requires WorldInv(y, w) && WorldStep(y, w, a, w')
    ensures WorldInv(y, w')
  {
    hide Inv, IsStep;
    InvStep(y.cfgs[a.func], w.caches[a.func], a.event, w'.caches[a.func]);
  }

  // ---------- Who waits for whom ----------

  /** A parked call waits for the holder of its lock or, the lock being free, for the first in line;
      a call inside its body waits for the calls it has started. */
  ghost predicate WaitsFor(w: World, r: Ref, q: Ref) {
    Live(w, r) &&
    var s := w.caches[r.func];
    match s.calls[r.call].phase
    case Queued(l, _) =>
      && l < |s.heap| && q.func == r.func
      && (match s.heap[l].holder
          case Some(h) => q.call == h
          case None => s.heap[l].waiters != [] && s.heap[l].waiters[0] == q.call != r.call)
    case InFunc(_, _) => Child(w, q, r)
    case _ => false
  }

  ghost predicate Ranked(y: System, rank: Func -> nat) {
    forall g, f :: y.awaits(g, f) ==> rank(f) < rank(g)
  }

  predicate IsFirst(s: State, c: CallId) {
    && IsQueued(s, c) && s.calls[c].phase.lock < |s.heap|
    && var waiters := s.heap[s.calls[c].phase.lock].waiters; waiters != [] && waiters[0] == c
  }

  /** In its body 0, first in line 1, further back 2. */
  function Stage(w: World, r: Ref): nat
    requires Live(w, r)
  {
    if InBody(w, r) then 0 else if IsFirst(w.caches[r.func], r.call) then 1 else 2
  }

  ghost predicate Below(w: World, rank: Func -> nat, q: Ref, r: Ref)
    requires Live(w, q) && Live(w, r)
  {
    rank(q.func) < rank(r.func) || (rank(q.func) == rank(r.func) && Stage(w, q) < Stage(w, r))
  }

  /** Every wait goes down in (rank, stage). */
  lemma WaitsGoDown(y: System, w: World, rank: Func -> nat, r: Ref, q: Ref)
    requires WorldInv(y, w) && Ranked(y, rank) && WaitsFor(w, r, q)
    ensures Live(w, q) && Below(w, rank, q, r)
  {
    var s := w.caches[r.func];
    assert Inv(y.cfgs[r.func], s) && CallOk(s.heap, s.calls, r.call);
    if s.calls[r.call].phase.Queued? {
      assert LockOk(s.heap, s.calls, s.calls[r.call].phase.lock);
    }
  }

  ghost predicate WaitPath(w: World, p: seq<Ref>) {
    |p| >= 1 && Live(w, p[0]) && forall i :: 0 <= i < |p| - 1 ==> WaitsFor(w, p[i], p[i + 1])
  }

  lemma {:induction false} PathGoesDown(y: System, w: World, rank: Func -> nat, p: seq<Ref>)
    requires WorldInv(y, w) && Ranked(y, rank) && WaitPath(w, p)
    ensures Live(w, p[|p| - 1])
    ensures |p| >= 2 ==> Below(w, rank, p[|p| - 1], p[0])
  {
    if |p| == 1 {
    } else {
      var front := p[..|p| - 1];
      assert forall i :: 0 <= i < |front| - 1 ==> WaitsFor(w, front[i], front[i + 1]);
      PathGoesDown(y, w, rank, front);
      WaitsGoDown(y, w, rank, p[|p| - 2], p[|p| - 1]);
    }
  }

  /** No cycle of waits, in any reachable state. */
  lemma NoWaitCycle(y: System, ws: seq<World>, acts: seq<Act>, n: nat, rank: Func -> nat, p: seq<Ref>)
    requires IsWorldRun(y, ws, acts) && n <= |acts| && Ranked(y, rank)
    requires WaitPath(ws[n], p) && |p| >= 2
    ensures p[0] != p[|p| - 1]
  {
    WorldRunInv(y, ws, acts, n);
    PathGoesDown(y, ws[n], rank, p);
  }

  // ---------- Progress ----------

  /** Following the waits from any live call leads to one that waits for nobody. */
  lemma {:induction false} FindUnblocked(y: System, w: World, rank: Func -> nat, r: Ref) returns (q: Ref)
    requires WorldInv(y, w) && Ranked(y, rank) && Live(w, r)
    ensures Live(w, q) && forall x :: !WaitsFor(w, q, x)
    decreases rank(r.func), Stage(w, r)
  {
    if x :| WaitsFor(w, r, x) {
      WaitsGoDown(y, w, rank, r, x);
      q := FindUnblocked(y, w, rank, x);
    } else {
      q := r;
    }
  }

  /** A call that waits for nobody can move: a parked one can be woken, a computing one can end. */
  lemma UnblockedMoves(y: System, w: World, q: Ref, v: Value) returns (a: Act, w': World)
    requires WorldInv(y, w) && Live(w, q) && forall x :: !WaitsFor(w, q, x)
    ensures WorldStep(y, w, a, w') && a.func == q.func && a.parent.None? && !a.event.Clear? && a.event.call == q.call
    ensures a.event.Wake? || (a.event.Finish? && a.event.outcome == Value(v))
  {
    var s := w.caches[q.func];
    assert Inv(y.cfgs[q.func], s) && CallOk(s.heap, s.calls, q.call);
    var e := Finish(q.call, Value(v), w.clock);
    if IsQueued(s, q.call) {
      e := Wake(q.call, w.clock);
      var lock := s.heap[s.calls[q.call].phase.lock];
      if lock.holder.Some? {
        assert WaitsFor(w, q, Ref(q.func, lock.holder.value));
      } else {
        assert !WaitsFor(w, q, Ref(q.func, lock.waiters[0]));
      }
    } else {
      assert forall x :: Child(w, x, q) ==> WaitsFor(w, q, x);
    }
    assert Enabled(s, e);
    a := Act(q.func, e, None);
    w' := w.(caches := w.caches[q.func := Next(y.cfgs[q.func], s, e)]);
    assert w'.caches[q.func].clock == w.clock;
  }

  /** Deadlock freedom: as long as any call is live, in any reachable state, some call can be
      woken or its body can end, without anybody being cancelled or failing. */
  lemma Progress(y: System, ws: seq<World>, acts: seq<Act>, n: nat, rank: Func -> nat, r: Ref, v: Value)
      returns (a: Act, w': World)
    requires IsWorldRun(y, ws, acts) && n <= |acts| && Ranked(y, rank) && Live(ws[n], r)
    ensures WorldStep(y, ws[n], a, w')
    ensures a.event.Wake? || (a.event.Finish? && a.event.outcome == Value(v))
  {
    WorldRunInv(y, ws, acts, n);
    var q := FindUnblocked(y, ws[n], rank, r);
    a, w' := UnblockedMoves(y, ws[n], q, v);
  }

  function LiveRefs(w: World): set<Ref> {
    set f: Func, c | f < |w.caches| && c in w.caches[f].calls && w.caches[f].calls[c].Live() :: Ref(f, c)
  }

  function QueuedRefs(w: World): set<Ref> {
    set f: Func, c | f < |w.caches| && c in w.caches[f].calls && w.caches[f].calls[c].phase.Queued? :: Ref(f, c)
  }

  /** A parked call has two moves before it, a computing one has one. */
  function Weight(w: World): nat { |LiveRefs(w)| + |QueuedRefs(w)| }

  lemma MoveShrinks(y: System, w: World, a: Act, w': World)
    requires WorldStep(y, w, a, w') && (a.event.Wake? || a.event.Finish?)
    ensures Weight(w') < Weight(w)
  {
    var s, q := w.caches[a.func], Ref(a.func, a.event.call);
    NextCalls(y.cfgs[a.func], s, a.event);
    MoveEffect(y.cfgs[a.func], s, a.event, w'.caches[a.func]);
    hide Next, IsStep;
    OnlyOneMoves(w, q, w');
    Fewer(w, q, w');
  }

  lemma Fewer(w: World, q: Ref, w': World)
    requires LiveRefs(w') <= LiveRefs(w) + {q} && QueuedRefs(w') <= QueuedRefs(w) + {q} && q in LiveRefs(w)
    requires if q in QueuedRefs(w) then q !in QueuedRefs(w') else q !in LiveRefs(w') && q !in QueuedRefs(w')
    ensures Weight(w') < Weight(w)
  {
    hide LiveRefs, QueuedRefs;
    if q in QueuedRefs(w) {
      Sets.SubsetSize(LiveRefs(w'), LiveRefs(w));
      Sets.SubsetSize(QueuedRefs(w'), QueuedRefs(w) - {q});
    } else {
      Sets.SubsetSize(LiveRefs(w'), LiveRefs(w) - {q});
      Sets.SubsetSize(QueuedRefs(w'), QueuedRefs(w));
    }
  }

  /** All calls but `q` stand as they stood. */
  lemma OnlyOneMoves(w: World, q: Ref, w': World)
    requires |w'.caches| == |w.caches|
    requires forall f: Func, c :: f < |w.caches| && Ref(f, c) != q && c in w'.caches[f].calls ==>
               c in w.caches[f].calls && w'.caches[f].calls[c] == w.caches[f].calls[c]
    ensures LiveRefs(w') <= LiveRefs(w) + {q} && QueuedRefs(w') <= QueuedRefs(w) + {q}
  {
  }

  lemma MoveEffect(cfg: Config, s: State, e: Event, s': State)
    requires IsStep(cfg, s, e, s') && (e.Wake? || e.Finish?)
    ensures e.Wake? ==> IsQueued(s, e.call) && !IsQueued(s', e.call)
    ensures e.Finish? ==> IsInFunc(s, e.call) && !IsLive(s', e.call)
  {
  }

  /** Every reachable state can be brought to rest: wake-ups and returns alone, at most two for
      each live call, take the run to a state in which every call has its result. */
  lemma {:induction false} Drains(y: System, ws: seq<World>, acts: seq<Act>, rank: Func -> nat, v: Value)
      returns (ws': seq<World>, acts': seq<Act>)
    requires IsWorldRun(y, ws, acts) && Ranked(y, rank)
    ensures IsWorldRun(y, ws', acts') && acts <= acts' && ws <= ws'
    ensures |acts'| - |acts| <= Weight(ws[|acts|])
    ensures forall i | |acts| <= i < |acts'| ::
              acts'[i].event.Wake? || (acts'[i].event.Finish? && acts'[i].event.outcome == Value(v))
    ensures forall r :: !Live(ws'[|acts'|], r)
    decreases Weight(ws[|acts|])
  {
    hide WorldStep, Weight;
    var n := |acts|;
    if r :| Live(ws[n], r) {
      var a, w := Progress(y, ws, acts, n, rank, r, v);
      MoveShrinks(y, ws[n], a, w);
      var ws1, acts1 := ws + [w], acts + [a];
      forall i | 0 <= i < |acts1| ensures WorldStep(y, ws1[i], acts1[i], ws1[i + 1]) {
        assert i < n ==> WorldStep(y, ws[i], acts[i], ws[i + 1]);
      }
      ws', acts' := Drains(y, ws1, acts1, rank, v);
      assert acts1[n] == acts'[n];
    } else {
      ws', acts' := ws, acts;
    }
  }

  // ---------- The storage collectors ----------

  const DISKS: Func := 0
  const DISK_USAGE: Func := 1
  const ALL_SMART: Func := 2
  const STORAGE: Func := 3

  /** `collect_storage` gathers the three others; `collect_all_smart` awaits `collect_disks`. */
  predicate StorageAwaits(g: Func, f: Func) {
    (g == STORAGE && f in {DISKS, ALL_SMART, DISK_USAGE}) || (g == ALL_SMART && f == DISKS)
  }

  function StorageRank(f: Func): nat {
    if f == STORAGE then 2 else if f == ALL_SMART then 1 else 0
  }

  /** Whatever has happened to the storage collectors, every request under way can get its answer. */
  lemma StorageDrains(cfgs: seq<Config>, ws: seq<World>, acts: seq<Act>, v: Value)
      returns (ws': seq<World>, acts': seq<Act>)
    requires IsWorldRun(System(cfgs, StorageAwaits), ws, acts)
    ensures StorageAwaits(STORAGE, DISKS) && StorageAwaits(STORAGE, ALL_SMART) && StorageAwaits(STORAGE, DISK_USAGE)
    ensures StorageAwaits(ALL_SMART, DISKS)
    ensures IsWorldRun(System(cfgs, StorageAwaits), ws', acts') && acts <= acts' && ws <= ws'
    ensures |acts'| - |acts| <= Weight(ws[|acts|])
    ensures forall r :: !Live(ws'[|acts'|], r)
  {
    var y := System(cfgs, StorageAwaits);
    assert Ranked(y, StorageRank);
    ws', acts' := Drains(y, ws, acts, StorageRank, v);
  }
}
