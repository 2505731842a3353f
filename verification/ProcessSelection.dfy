/** Which processes are shown: the heaviest by memory, and the busiest that cut would have dropped. */
module ProcessSelection {
  import opened Wrappers
  import opened ProcessSamples
  import Sets

  const TOP_BY_MEM := 200
  const TOP_BY_CPU := 50

  /** Place `i` comes before place `j` in a stable descending sort. */
  predicate Beats(keys: seq<real>, i: nat, j: nat)
    requires i < |keys| && j < |keys|
  {
    keys[i] > keys[j] || (keys[i] == keys[j] && i < j)
  }

  ghost predicate IsOrder(keys: seq<real>, order: seq<nat>) {
    && |order| == |keys|
    && (forall a :: 0 <= a < |order| ==> order[a] < |keys|)
    && (forall a, b :: 0 <= a < b < |order| ==> Beats(keys, order[a], order[b]))
  }

  /** `sorted(..., reverse=True)`, as a list of places. */
  function StableOrder(keys: seq<real>): (order: seq<nat>)
    ensures IsOrder(keys, order)
  {
    if keys == [] then []
    else
      var n := |keys| - 1;
      var front := StableOrder(keys[..n]);
      assert forall a, b :: 0 <= a < b < |front| ==> Beats(keys[..n], front[a], front[b]);
      var p := InsertAt(keys, front, n);
      InsertKeepsOrder(keys, front, n, p);
      front[..p] + [n] + front[p..]
  }

  lemma InsertKeepsOrder(keys: seq<real>, front: seq<nat>, n: nat, p: nat)
    requires n < |keys| && p <= |front|
    requires forall a :: 0 <= a < |front| ==> front[a] < n
    requires forall a, b :: 0 <= a < b < |front| ==> Beats(keys, front[a], front[b])
    requires forall a :: 0 <= a < p ==> Beats(keys, front[a], n)
    requires forall a :: p <= a < |front| ==> Beats(keys, n, front[a])
    ensures var r := front[..p] + [n] + front[p..];
            && |r| == |front| + 1 && (forall a :: 0 <= a < |r| ==> r[a] <= n)
            && (forall a, b :: 0 <= a < b < |r| ==> Beats(keys, r[a], r[b]))
  {
    var r := front[..p] + [n] + front[p..];
    forall a, b | 0 <= a < b < |r| ensures Beats(keys, r[a], r[b]) {
      var a', b' := if a <= p then a else a - 1, if b <= p then b else b - 1;
      assert a != p ==> r[a] == front[a'];
      assert b != p ==> r[b] == front[b'];
    }
  }

  /** A later element goes behind all that are no smaller. */
  function InsertAt(keys: seq<real>, order: seq<nat>, n: nat): (p: nat)
    requires n < |keys|
    requires forall a :: 0 <= a < |order| ==> order[a] < n
    requires forall a, b :: 0 <= a < b < |order| ==> Beats(keys, order[a], order[b])
    ensures p <= |order|
    ensures forall a :: 0 <= a < p ==> Beats(keys, order[a], n)
    ensures forall a :: p <= a < |order| ==> Beats(keys, n, order[a])
  {
    if order == [] then 0
    else
      var last := |order| - 1;
      assert forall a :: 0 <= a < last ==> Beats(keys, order[a], order[last]);
      if keys[order[last]] >= keys[n] then |order| else InsertAt(keys, order[..last], n)
  }

  /** The places that come before place `i`. */
  function Ahead(keys: seq<real>, i: nat): set<nat>
    requires i < |keys|
  {
    set j: nat | j < |keys| && Beats(keys, j, i)
  }

  function Rank(keys: seq<real>, i: nat): nat
    requires i < |keys|
  {
    |Ahead(keys, i)|
  }

  function Places(n: nat): (r: set<nat>)
    ensures |r| == n && forall j: nat :: j in r <==> j < n
  {
    if n == 0 then {} else Places(n - 1) + {n - 1}
  }

  lemma OrderIsComplete(keys: seq<real>, order: seq<nat>, i: nat)
    requires IsOrder(keys, order) && i < |keys|
    ensures i in order
  {
    var hit := Sets.Elements(order);
    OrderIsDistinct(keys, order, |order|);
    assert order[..|order|] == order;
    assert hit <= Places(|keys|);
    if i !in hit {
      Sets.SubsetSize(hit, Places(|keys|) - {i});
    }
  }

  lemma OrderIsDistinct(keys: seq<real>, order: seq<nat>, a: nat)
    requires IsOrder(keys, order) && a <= |order|
    ensures |Sets.Elements(order[..a])| == a
  {
    forall x, y | 0 <= x < y < a ensures order[..a][x] != order[..a][y] {
      assert Beats(keys, order[x], order[y]);
    }
    Sets.SeqSize(order[..a]);
  }

  lemma WinnerIsFirst(keys: seq<real>, order: seq<nat>, b: nat, a: nat)
    requires IsOrder(keys, order) && a < |order| && b < |order| && Beats(keys, order[b], order[a])
    ensures b < a
  {
  }

  /** The place in the sorted list is the rank. */
  lemma RankInOrder(keys: seq<real>, order: seq<nat>, a: nat)
    requires IsOrder(keys, order) && a < |order|
    ensures Rank(keys, order[a]) == a
  {
    forall j | j in Ahead(keys, order[a]) ensures j in order[..a] {
      OrderIsComplete(keys, order, j);
      var b :| 0 <= b < |order| && order[b] == j;
      WinnerIsFirst(keys, order, b, a);
      assert order[..a][b] == j;
    }
    forall j | j in order[..a] ensures j in Ahead(keys, order[a]) {
      var b :| 0 <= b < a && order[b] == j;
    }
    assert Ahead(keys, order[a]) == Sets.Elements(order[..a]);
    OrderIsDistinct(keys, order, a);
  }

  function Mem(ps: seq<ProcessInfo>): seq<real> {
    seq(|ps|, i requires 0 <= i < |ps| => ps[i].memPercent)
  }

  function Cpu(ps: seq<ProcessInfo>): seq<real> {
    seq(|ps|, i requires 0 <= i < |ps| => ps[i].cpuPercent)
  }

  function Sorted(ps: seq<ProcessInfo>, keys: seq<real>): (r: seq<ProcessInfo>)
    requires |keys| == |ps|
    ensures |r| == |ps|
  {
    var order := StableOrder(keys);
    seq(|ps|, a requires 0 <= a < |ps| => ps[order[a]])
  }

  function Take<T>(s: seq<T>, n: nat): seq<T> {
    if |s| <= n then s else s[..n]
  }

  function Pids(ps: seq<ProcessInfo>): set<int> {
    set p | p in ps :: p.pid
  }

  /** The elements whose pid is not in `kept`, in order. */
  function Others(ps: seq<ProcessInfo>, kept: set<int>): seq<ProcessInfo> {
    if ps == [] then []
    else
      Others(ps[..|ps| - 1], kept)
      + if ps[|ps| - 1].pid !in kept then [ps[|ps| - 1]] else []
  }

  function Selected(ps: seq<ProcessInfo>): seq<ProcessInfo> {
    var top := Take(Sorted(ps, Mem(ps)), TOP_BY_MEM);
    top + Others(Take(Sorted(ps, Cpu(ps)), TOP_BY_CPU), Pids(top))
  }

  /** The selection part of `_collect_processes_sync`. */
  method Select(ps: seq<ProcessInfo>) returns (top: seq<ProcessInfo>)
    ensures top == Selected(ps)
  {
    var byCpu := Sorted(ps, Cpu(ps));
    var processes := Sorted(ps, Mem(ps));
    top := Take(processes, TOP_BY_MEM);
    var kept := Pids(top);
    ghost var memory := top;
    var busiest := Take(byCpu, TOP_BY_CPU);
    for i := 0 to |busiest|
      invariant top == memory + Others(busiest[..i], kept)
    {
      assert busiest[..i + 1][..i] == busiest[..i];
      if busiest[i].pid !in kept {
        top := top + [busiest[i]];
      }
    }
    assert busiest[..|busiest|] == busiest;
  }

  // ---------- What was selected ----------

  ghost predicate DistinctPids(ps: seq<ProcessInfo>) {
    forall i, j :: 0 <= i < j < |ps| ==> ps[i].pid != ps[j].pid
  }

  /** No two of the processes read in a pass have the same pid. */
  ghost predicate OneEach(procs: seq<Option<Stat>>) {
    forall i, j :: 0 <= i < j < |procs| && procs[i].Some? && procs[j].Some? ==>
      procs[i].value.id.pid != procs[j].value.id.pid
  }

  /** The rows of a pass are of the processes it read, each at most once. */
  lemma {:induction false} RowsAreDistinct(h: Host, procs: seq<Option<Stat>>, s: Scan, prev: Samples)
    requires s.uptime.Some? && OneEach(procs)
    ensures forall p :: p in RowsOf(h, procs, s, prev) ==>
              exists i :: 0 <= i < |procs| && procs[i].Some? && procs[i].value.id.pid == p.pid
    ensures DistinctPids(RowsOf(h, procs, s, prev))
  {
    if procs == [] {
    } else {
      var front := procs[..|procs| - 1];
      RowsAreDistinct(h, front, s, prev);
      forall p | p in RowsOf(h, front, s, prev)
        ensures exists i :: 0 <= i < |front| && procs[i].Some? && procs[i].value.id.pid == p.pid
      {
        var i :| 0 <= i < |front| && front[i].Some? && front[i].value.id.pid == p.pid;
        assert procs[i] == front[i];
      }
    }
  }

  lemma {:induction false} OthersMembers(ps: seq<ProcessInfo>, kept: set<int>)
    ensures forall p :: p in Others(ps, kept) <==> p in ps && p.pid !in kept
    ensures |Others(ps, kept)| <= |ps|
  {
    if ps == [] {
    } else {
      var front := ps[..|ps| - 1];
      OthersMembers(front, kept);
      assert ps == front + [ps[|ps| - 1]];
    }
  }

  lemma {:induction false} OthersDistinct(ps: seq<ProcessInfo>, kept: set<int>)
    requires DistinctPids(ps)
    ensures DistinctPids(Others(ps, kept))
  {
    if ps == [] {
    } else {
      var front, last := ps[..|ps| - 1], ps[|ps| - 1];
      OthersDistinct(front, kept);
      OthersMembers(front, kept);
      forall i | 0 <= i < |Others(front, kept)| ensures Others(front, kept)[i].pid != last.pid {
        assert Others(front, kept)[i] in front;
      }
    }
  }

  lemma OthersAre(ps: seq<ProcessInfo>, kept: set<int>)
    ensures forall p :: p in Others(ps, kept) <==> p in ps && p.pid !in kept
    ensures |Others(ps, kept)| <= |ps|
    ensures DistinctPids(ps) ==> DistinctPids(Others(ps, kept))
  {
    OthersMembers(ps, kept);
    if DistinctPids(ps) {
      OthersDistinct(ps, kept);
    }
  }

  /** The first `n` of a stable sort are the elements of rank below `n`. */
  lemma TopIsByRank(ps: seq<ProcessInfo>, keys: seq<real>, n: nat, p: ProcessInfo)
    requires |keys| == |ps|
    ensures p in Take(Sorted(ps, keys), n) <==> exists i: nat :: i < |ps| && ps[i] == p && Rank(keys, i) < n
  {
    var order := StableOrder(keys);
    var top := Take(Sorted(ps, keys), n);
    if p in top {
      var a :| 0 <= a < |top| && top[a] == p;
      RankInOrder(keys, order, a);
      assert ps[order[a]] == p;
    }
    if i: nat :| i < |ps| && ps[i] == p && Rank(keys, i) < n {
      OrderIsComplete(keys, order, i);
      var a :| 0 <= a < |order| && order[a] == i;
      RankInOrder(keys, order, a);
      assert top[a] == p;
    }
  }

  lemma SortedDistinct(ps: seq<ProcessInfo>, keys: seq<real>, n: nat)
    requires |keys| == |ps| && DistinctPids(ps)
    ensures DistinctPids(Take(Sorted(ps, keys), n))
  {
    var order := StableOrder(keys);
    forall a, b | 0 <= a < b < |ps| ensures Sorted(ps, keys)[a].pid != Sorted(ps, keys)[b].pid {
      assert Beats(keys, order[a], order[b]);
    }
  }

  ghost predicate Chosen(ps: seq<ProcessInfo>, p: ProcessInfo) {
    exists i: nat :: i < |ps| && ps[i] == p && (Rank(Mem(ps), i) < 200 || Rank(Cpu(ps), i) < 50)
  }

  /** The result is exactly the union of the two tops, each process once. */
  lemma SelectionIsExact(ps: seq<ProcessInfo>)
    requires DistinctPids(ps)
    ensures DistinctPids(Selected(ps)) && |Selected(ps)| <= 250
    ensures forall p :: p in Selected(ps) <==> Chosen(ps, p)
  {
    hide Sorted, Rank;
    var top := Take(Sorted(ps, Mem(ps)), TOP_BY_MEM);
    var busiest := Take(Sorted(ps, Cpu(ps)), TOP_BY_CPU);
    SortedDistinct(ps, Mem(ps), TOP_BY_MEM);
    SortedDistinct(ps, Cpu(ps), TOP_BY_CPU);
    OthersAre(busiest, Pids(top));
    forall p ensures p in Selected(ps) <==> Chosen(ps, p) {
      TopIsByRank(ps, Mem(ps), TOP_BY_MEM, p);
      TopIsByRank(ps, Cpu(ps), TOP_BY_CPU, p);
      if p in busiest && p.pid in Pids(top) {
        SamePid(ps, top, p);
      }
    }
  }

  /** Pids identify processes: one whose pid is among the kept is itself kept. */
  lemma SamePid(ps: seq<ProcessInfo>, top: seq<ProcessInfo>, p: ProcessInfo)
    requires DistinctPids(ps) && p.pid in Pids(top)
    requires top == Take(Sorted(ps, Mem(ps)), TOP_BY_MEM) && p in Take(Sorted(ps, Cpu(ps)), TOP_BY_CPU)
    ensures p in top
  {
    var q :| q in top && q.pid == p.pid;
    TopIsByRank(ps, Mem(ps), TOP_BY_MEM, q);
    TopIsByRank(ps, Cpu(ps), TOP_BY_CPU, p);
  }

  /** The first part is sorted by memory and outweighs the rest, which is in order of CPU use. */
  lemma SelectionOrder(ps: seq<ProcessInfo>)
    ensures var r := Selected(ps);
            var k := if |ps| <= 200 then |ps| else 200;
            && |r| >= k
            && (forall a, b :: 0 <= a < k && a < b < |r| ==> r[a].memPercent >= r[b].memPercent)
            && (forall a, b :: k <= a < b < |r| ==> r[a].cpuPercent >= r[b].cpuPercent)
  {
    var top := Take(Sorted(ps, Mem(ps)), TOP_BY_MEM);
    var tail := Others(Take(Sorted(ps, Cpu(ps)), TOP_BY_CPU), Pids(top));
    assert Selected(ps) == top + tail;
    TopDescends(ps);
    TailDescends(ps, Pids(top));
    forall a, b | 0 <= a < |top| && 0 <= b < |tail| ensures top[a].memPercent >= tail[b].memPercent {
      OthersAre(Take(Sorted(ps, Cpu(ps)), TOP_BY_CPU), Pids(top));
      assert tail[b] in tail;
      LeftOverIsLight(ps, top, tail[b], a);
    }
  }

  lemma TopDescends(ps: seq<ProcessInfo>)
    ensures var top := Take(Sorted(ps, Mem(ps)), TOP_BY_MEM);
            forall a, b :: 0 <= a < b < |top| ==> top[a].memPercent >= top[b].memPercent
  {
    SortedDescends(ps, Mem(ps));
  }

  lemma TailDescends(ps: seq<ProcessInfo>, kept: set<int>)
    ensures var tail := Others(Take(Sorted(ps, Cpu(ps)), TOP_BY_CPU), kept);
            forall a, b :: 0 <= a < b < |tail| ==> tail[a].cpuPercent >= tail[b].cpuPercent
  {
    SortedDescends(ps, Cpu(ps));
    OthersDescend(Take(Sorted(ps, Cpu(ps)), TOP_BY_CPU), kept);
  }

  lemma SortedDescends(ps: seq<ProcessInfo>, keys: seq<real>)
    requires |keys| == |ps|
    ensures forall a, b :: 0 <= a < b < |ps| ==> keys[StableOrder(keys)[a]] >= keys[StableOrder(keys)[b]]
  {
    var order := StableOrder(keys);
    forall a, b | 0 <= a < b < |ps| ensures keys[order[a]] >= keys[order[b]] {
      assert Beats(keys, order[a], order[b]);
    }
  }

  lemma {:induction false} OthersDescend(ps: seq<ProcessInfo>, kept: set<int>)
    requires forall a, b :: 0 <= a < b < |ps| ==> ps[a].cpuPercent >= ps[b].cpuPercent
    ensures var r := Others(ps, kept); forall a, b :: 0 <= a < b < |r| ==> r[a].cpuPercent >= r[b].cpuPercent
  {
    if ps == [] {
    } else {
      var front := ps[..|ps| - 1];
      OthersDescend(front, kept);
      OthersMembers(front, kept);
      forall p | p in Others(front, kept) ensures p.cpuPercent >= ps[|ps| - 1].cpuPercent {
        var a :| 0 <= a < |front| && front[a] == p;
      }
    }
  }

  lemma LeftOverIsLight(ps: seq<ProcessInfo>, top: seq<ProcessInfo>, p: ProcessInfo, a: nat)
    requires top == Take(Sorted(ps, Mem(ps)), TOP_BY_MEM) && a < |top|
    requires p.pid !in Pids(top) && p in Sorted(ps, Cpu(ps))
    ensures top[a].memPercent >= p.memPercent
  {
    var keys := Mem(ps);
    var order := StableOrder(keys);
    var i :| 0 <= i < |ps| && Sorted(ps, Cpu(ps))[i] == p;
    var place := StableOrder(Cpu(ps))[i];
    OrderIsComplete(keys, order, place);
    var b :| 0 <= b < |order| && order[b] == place;
    assert Sorted(ps, keys)[b] == p;
    SortedDescends(ps, keys);
    assert p !in top && forall c :: 0 <= c < |top| ==> top[c] == Sorted(ps, keys)[c];
    assert top[a] == ps[order[a]];
  }
}
