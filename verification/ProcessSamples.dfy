/** CPU use from tick counters sampled at each collection. */
module ProcessSamples {
  import opened Wrappers

  type Time = real

  /** A recycled pid has another start time, so it is another process. */
  datatype ProcId = ProcId(pid: int, starttime: int)

  datatype Sample = Sample(ticks: int, at: Time)

  type Samples = map<ProcId, Sample>

  /** What was read of one process. `rssKb` is `None` when its status could not be parsed:
      the sample is kept, the row is not. */
  datatype Stat = Stat(id: ProcId, ticks: int, rssKb: Option<int>)

  /** One pass over /proc; unreadable processes are `None`. Without an uptime the pass stops at once. */
  datatype Scan = Scan(uptime: Option<real>, now: Time, totalMemKb: int, procs: seq<Option<Stat>>)

  datatype ProcessInfo = ProcessInfo(pid: int, cpuPercent: real, memPercent: real)

  /** Ticks per second, and rounding to two decimals. */
  datatype Host = Host(clkTck: int, round: real -> real) {
    ghost predicate Rounds() {
      forall x :: -0.005 <= round(x) - x <= 0.005
    }
  }

  function Average(h: Host, id: ProcId, ticks: int, uptime: real): real {
    if h.clkTck <= 0 then 0.0
    else
      var age := uptime - id.starttime as real / h.clkTck as real;
      if age <= 0.0 then 0.0 else h.round(ticks as real / h.clkTck as real / age * 100.0)
  }

  /** `_cpu_percent`. */
  function CpuPercent(h: Host, id: ProcId, ticks: int, uptime: real, now: Time, prev: Samples): real {
    if h.clkTck <= 0 then 0.0
    else if id in prev && now - prev[id].at > 0.0 && ticks >= prev[id].ticks then
      h.round((ticks - prev[id].ticks) as real / h.clkTck as real / (now - prev[id].at) * 100.0)
    else
      Average(h, id, ticks, uptime)
  }

  function MemPercent(h: Host, rssKb: int, totalMemKb: int): real {
    if totalMemKb > 0 then h.round(rssKb as real / totalMemKb as real * 100.0) else 0.0
  }

  function SamplesOf(procs: seq<Option<Stat>>, now: Time): Samples {
    if procs == [] then map[]
    else
      var front := SamplesOf(procs[..|procs| - 1], now);
      match procs[|procs| - 1]
      case None => front
      case Some(p) => front[p.id := Sample(p.ticks, now)]
  }

  function RowOf(h: Host, p: Stat, s: Scan, prev: Samples): seq<ProcessInfo>
    requires s.uptime.Some?
  {
    if p.rssKb.None? then []
    else [ProcessInfo(p.id.pid, CpuPercent(h, p.id, p.ticks, s.uptime.value, s.now, prev),
                      MemPercent(h, p.rssKb.value, s.totalMemKb))]
  }

  function RowsOf(h: Host, procs: seq<Option<Stat>>, s: Scan, prev: Samples): seq<ProcessInfo>
    requires s.uptime.Some?
  {
    if procs == [] then []
    else
      RowsOf(h, procs[..|procs| - 1], s, prev)
      + if procs[|procs| - 1].Some? then RowOf(h, procs[|procs| - 1].value, s, prev) else []
  }

  /** The samples the next pass compares against: replaced as a whole, or kept by an aborted pass. */
  function AfterScan(prev: Samples, s: Scan): Samples {
    if s.uptime.None? then prev else SamplesOf(s.procs, s.now)
  }

  function AfterScans(prev: Samples, ss: seq<Scan>): Samples
    decreases |ss|
  {
    if ss == [] then prev else AfterScans(AfterScan(prev, ss[0]), ss[1..])
  }

  class ProcessCollector {
    const host: Host
    var prevSamples: Samples

    constructor (host: Host)
      ensures prevSamples == map[] && this.host == host
    {
      this.host := host;
      prevSamples := map[];
    }

    /** The sampling part of `_collect_processes_sync`: one row per readable process. */
    method Collect(s: Scan) returns (processes: seq<ProcessInfo>)
      modifies this
      ensures prevSamples == AfterScan(old(prevSamples), s)
      ensures processes == if s.uptime.None? then [] else RowsOf(host, s.procs, s, old(prevSamples))
    {
      processes := [];
      if s.uptime.None? {
        return;
      }
      var samples: Samples := map[];
      for i := 0 to |s.procs|
        invariant prevSamples == old(prevSamples)
        invariant samples == SamplesOf(s.procs[..i], s.now)
        invariant processes == RowsOf(host, s.procs[..i], s, prevSamples)
      {
        assert s.procs[..i + 1][..i] == s.procs[..i];
        if s.procs[i].Some? {
          var p := s.procs[i].value;
          var cpu := CpuPercent(host, p.id, p.ticks, s.uptime.value, s.now, prevSamples);
          samples := samples[p.id := Sample(p.ticks, s.now)];
          if p.rssKb.Some? {
            processes := processes + [ProcessInfo(p.id.pid, cpu, MemPercent(host, p.rssKb.value, s.totalMemKb))];
          }
        }
      }
      assert s.procs[..|s.procs|] == s.procs;
      prevSamples := samples;
    }
  }

  // ---------- Telescoping ----------

  /** The percentages reported for `id`, each times the seconds it covers. */
  function CpuTime(h: Host, prev: Samples, ss: seq<Scan>, id: ProcId): real
    requires id in prev && Steady(prev, ss, id)
    decreases |ss|
  {
    if ss == [] then 0.0
    else if ss[0].uptime.None? then CpuTime(h, prev, ss[1..], id)
    else
      var next := AfterScan(prev, ss[0]);
      CpuPercent(h, id, next[id].ticks, ss[0].uptime.value, ss[0].now, prev) * (ss[0].now - prev[id].at)
      + CpuTime(h, next, ss[1..], id)
  }

  /** Every pass that is not aborted sees the process, later and with no fewer ticks than before. */
  predicate Steady(prev: Samples, ss: seq<Scan>, id: ProcId)
    requires id in prev
    decreases |ss|
  {
    ss == [] ||
    var next := AfterScan(prev, ss[0]);
    && (ss[0].uptime.Some? ==>
          id in next && prev[id].at < ss[0].now && prev[id].ticks <= next[id].ticks)
    && Steady(next, ss[1..], id)
  }

  lemma {:induction false} SampleTime(procs: seq<Option<Stat>>, now: Time, id: ProcId)
    ensures id in SamplesOf(procs, now) ==> SamplesOf(procs, now)[id].at == now
  {
    if procs == [] {
    } else {
      SampleTime(procs[..|procs| - 1], now, id);
    }
  }

  lemma {:induction false} SteadyLast(prev: Samples, ss: seq<Scan>, id: ProcId)
    requires id in prev && Steady(prev, ss, id)
    ensures id in AfterScans(prev, ss)
    decreases |ss|
  {
    if ss == [] {
    } else {
      SteadyLast(AfterScan(prev, ss[0]), ss[1..], id);
    }
  }

  /** `x` is 100 times the CPU seconds between two samples, up to 0.005 for each second between them. */
  predicate Within(x: real, a: Sample, b: Sample, clkTck: int)
    requires clkTck > 0
  {
    -0.005 * (b.at - a.at) <= x - 100.0 * ((b.ticks - a.ticks) as real / clkTck as real) <= 0.005 * (b.at - a.at)
  }

  /** One delta, times its interval, is the ticks it stands for, up to the rounding. */
  lemma DeltaTimesInterval(h: Host, ticks: int, elapsed: real)
    requires h.Rounds() && h.clkTck > 0 && elapsed > 0.0
    ensures var exact := ticks as real / h.clkTck as real;
            -0.005 * elapsed <= h.round(exact / elapsed * 100.0) * elapsed - 100.0 * exact <= 0.005 * elapsed
  {
    var exact := ticks as real / h.clkTck as real;
    var x := exact / elapsed * 100.0;
    var r := h.round(x);
    assert -0.005 <= r - x <= 0.005;
    PercentTimes(exact, elapsed);
    Scale(r - x, elapsed);
    Subtract(r, x, elapsed);
  }

  lemma PercentTimes(exact: real, elapsed: real)
    requires elapsed > 0.0
    ensures exact / elapsed * 100.0 * elapsed == 100.0 * exact
  {
    Undo(exact, elapsed);
    Swap(exact / elapsed, 100.0, elapsed);
  }

  lemma Undo(a: real, b: real)
    requires b > 0.0
    ensures a / b * b == a
  {
  }

  lemma Swap(a: real, b: real, c: real)
    ensures a * b * c == a * c * b
  {
  }

  lemma Subtract(a: real, b: real, c: real)
    ensures (a - b) * c == a * c - b * c
  {
  }

  lemma Scale(d: real, x: real)
    requires -0.005 <= d <= 0.005 && x > 0.0
    ensures -0.005 * x <= d * x <= 0.005 * x
  {
  }

  /** A first sighting: the CPU time of the whole life, spread over it. */
  lemma AverageTimesAge(h: Host, id: ProcId, ticks: int, uptime: real)
    requires h.Rounds() && h.clkTck > 0
    ensures var age, percent := uptime - id.starttime as real / h.clkTck as real, Average(h, id, ticks, uptime);
            if age <= 0.0 then percent == 0.0
            else -0.005 * age <= percent * age - 100.0 * (ticks as real / h.clkTck as real) <= 0.005 * age
  {
    var age := uptime - id.starttime as real / h.clkTck as real;
    if age > 0.0 {
      DeltaTimesInterval(h, ticks, age);
    }
  }

  /** CPU accounting telescopes: over any number of passes, aborted ones included, the reported
      percentages times their intervals add up to the ticks used, up to 0.005% of the time. */
  lemma {:induction false} Telescopes(h: Host, prev: Samples, ss: seq<Scan>, id: ProcId)
    requires h.Rounds() && h.clkTck > 0 && id in prev && Steady(prev, ss, id)
    ensures id in AfterScans(prev, ss)
    ensures Within(CpuTime(h, prev, ss, id), prev[id], AfterScans(prev, ss)[id], h.clkTck)
    decreases |ss|
  {
    hide CpuPercent, AfterScan, Host.Rounds, Within;
    SteadyLast(prev, ss, id);
    if ss == [] {
      NoTime(prev[id], h.clkTck);
    } else {
      var next := AfterScan(prev, ss[0]);
      AbortedKeeps(prev, ss[0]);
      Telescopes(h, next, ss[1..], id);
      if ss[0].uptime.Some? {
        PassDelta(h, prev, ss[0], id);
        var percent := CpuPercent(h, id, next[id].ticks, ss[0].uptime.value, ss[0].now, prev);
        var covered := percent * (ss[0].now - prev[id].at);
        assert CpuTime(h, prev, ss, id) == covered + CpuTime(h, next, ss[1..], id);
        AddInterval(prev[id], next[id], AfterScans(next, ss[1..])[id], h.clkTck,
                    covered, CpuTime(h, next, ss[1..], id));
      }
    }
  }

  lemma NoTime(a: Sample, clkTck: int)
    requires clkTck > 0
    ensures Within(0.0, a, a, clkTck)
  {
  }

  lemma AbortedKeeps(prev: Samples, s: Scan)
    ensures s.uptime.None? ==> AfterScan(prev, s) == prev
  {
  }

  lemma PassDelta(h: Host, prev: Samples, s: Scan, id: ProcId)
    requires h.Rounds() && h.clkTck > 0 && s.uptime.Some?
    requires id in prev && id in AfterScan(prev, s)
    requires prev[id].at < s.now && prev[id].ticks <= AfterScan(prev, s)[id].ticks
    ensures var next := AfterScan(prev, s)[id];
            Within(CpuPercent(h, id, next.ticks, s.uptime.value, s.now, prev) * (s.now - prev[id].at),
                   prev[id], next, h.clkTck)
  {
    SampleTime(s.procs, s.now, id);
    DeltaTimesInterval(h, AfterScan(prev, s)[id].ticks - prev[id].ticks, s.now - prev[id].at);
  }

  /** Two adjacent stretches add up, and so do their error bounds. */
  lemma AddInterval(a: Sample, b: Sample, c: Sample, clkTck: int, x: real, y: real)
    requires clkTck > 0
    requires Within(x, a, b, clkTck) && Within(y, b, c, clkTck)
    ensures Within(x + y, a, c, clkTck)
  {
    SumOfQuotients(b.ticks - a.ticks, c.ticks - b.ticks, clkTck);
  }

  lemma SumOfQuotients(a: int, b: int, c: int)
    requires c > 0
    ensures a as real / c as real + b as real / c as real == (a + b) as real / c as real
  {
  }

  // ---------- What is kept and what is reported ----------

  /** Place `i` holds the last reading of process `id`. */
  ghost predicate IsLastOf(procs: seq<Option<Stat>>, id: ProcId, i: int) {
    && 0 <= i < |procs| && procs[i].Some? && procs[i].value.id == id
    && forall j :: i < j < |procs| && procs[j].Some? ==> procs[j].value.id != id
  }

  /** The sample kept of a process has the ticks last read of it, and the time of the pass. */
  lemma {:induction false} SampleIsLastRead(procs: seq<Option<Stat>>, now: Time, id: ProcId, i: int)
    requires IsLastOf(procs, id, i)
    ensures id in SamplesOf(procs, now) && SamplesOf(procs, now)[id] == Sample(procs[i].value.ticks, now)
  {
    var n := |procs| - 1;
    if i == n {
    } else {
      SampleIsLastRead(procs[..n], now, id, i);
    }
  }

  /** The pass reads process `p`, and no other process of that pid. */
  ghost predicate Sees(s: Scan, p: Stat) {
    exists i :: SeesAt(s.procs, p, i)
  }

  ghost predicate SeesAt(procs: seq<Option<Stat>>, p: Stat, i: int) {
    && 0 <= i < |procs| && procs[i] == Some(p)
    && forall j :: 0 <= j < |procs| && j != i && procs[j].Some? ==> procs[j].value.id.pid != p.id.pid
  }

  /** The percentage that a list of rows gives for a pid: that of its first row, and 0 without one. */
  function CpuIn(rows: seq<ProcessInfo>, pid: int): real {
    if rows == [] then 0.0 else if rows[0].pid == pid then rows[0].cpuPercent else CpuIn(rows[1..], pid)
  }

  lemma {:induction false} CpuInAppend(a: seq<ProcessInfo>, b: seq<ProcessInfo>, pid: int)
    ensures CpuIn(a + b, pid) == if exists p :: p in a && p.pid == pid then CpuIn(a, pid) else CpuIn(b, pid)
  {
    if a == [] {
      assert a + b == b;
    } else {
      assert (a + b)[1..] == a[1..] + b && a == [a[0]] + a[1..];
      CpuInAppend(a[1..], b, pid);
    }
  }

  /** A process read and not recycled within the pass gets one row, with its own two percentages: CPU as
      computed against its last sample, memory its share of the total. */
  lemma {:induction false} RowOfSeen(h: Host, procs: seq<Option<Stat>>, s: Scan, prev: Samples, p: Stat, i: int)
    requires s.uptime.Some? && SeesAt(procs, p, i) && p.rssKb.Some?
    ensures var rows := RowsOf(h, procs, s, prev);
            var row := ProcessInfo(p.id.pid, CpuPercent(h, p.id, p.ticks, s.uptime.value, s.now, prev),
                                   MemPercent(h, p.rssKb.value, s.totalMemKb));
            && (forall r :: r in rows && r.pid == p.id.pid <==> r == row)
            && CpuIn(rows, p.id.pid) == row.cpuPercent
  {
    hide CpuPercent, MemPercent;
    var n := |procs| - 1;
    var rows := RowsOf(h, procs[..n], s, prev);
    var last := if procs[n].Some? then RowOf(h, procs[n].value, s, prev) else [];
    CpuInAppend(rows, last, p.id.pid);
    if i == n {
      NoOtherRow(h, procs[..n], s, prev, p.id.pid);
      assert CpuIn(last, p.id.pid) == last[0].cpuPercent;
    } else {
      RowOfSeen(h, procs[..n], s, prev, p, i);
      assert forall r :: r in last ==> r.pid != p.id.pid;
      assert exists r :: r in rows && r.pid == p.id.pid;
    }
  }

  lemma {:induction false} NoOtherRow(h: Host, procs: seq<Option<Stat>>, s: Scan, prev: Samples, pid: int)
    requires s.uptime.Some? && forall j :: 0 <= j < |procs| && procs[j].Some? ==> procs[j].value.id.pid != pid
    ensures forall r :: r in RowsOf(h, procs, s, prev) ==> r.pid != pid
  {
    hide CpuPercent, MemPercent;
    if procs == [] {
    } else {
      NoOtherRow(h, procs[..|procs| - 1], s, prev, pid);
    }
  }

  /** The memory percentage is the share of the total, up to the rounding. */
  lemma MemoryShare(h: Host, rssKb: int, totalMemKb: int)
    requires h.Rounds()
    ensures totalMemKb <= 0 ==> MemPercent(h, rssKb, totalMemKb) == 0.0
    ensures totalMemKb > 0 ==>
              var total := totalMemKb as real;
              -0.005 * total <= MemPercent(h, rssKb, totalMemKb) * total - 100.0 * rssKb as real <= 0.005 * total
  {
    if totalMemKb > 0 {
      var total := totalMemKb as real;
      var share := rssKb as real / total * 100.0;
      assert -0.005 <= h.round(share) - share <= 0.005;
      PercentTimes(rssKb as real, total);
      Scale(h.round(share) - share, total);
      Subtract(h.round(share), share, total);
    }
  }

  /** Without time passed, or with fewer ticks than before, no difference is reported. */
  lemma NoDelta(h: Host, id: ProcId, ticks: int, uptime: real, now: Time, prev: Samples)
    requires id in prev && (now <= prev[id].at || ticks < prev[id].ticks)
    ensures CpuPercent(h, id, ticks, uptime, now, prev) == Average(h, id, ticks, uptime)
  {
  }

  /** What the passes return, one list of rows each. */
  function Reports(h: Host, prev: Samples, ss: seq<Scan>): seq<seq<ProcessInfo>>
    decreases |ss|
  {
    if ss == [] then []
    else
      [if ss[0].uptime.None? then [] else RowsOf(h, ss[0].procs, ss[0], prev)]
      + Reports(h, AfterScan(prev, ss[0]), ss[1..])
  }

  /** The percentages returned for a pid, each times the seconds since the complete pass before it. */
  function ReportedTime(rows: seq<seq<ProcessInfo>>, ss: seq<Scan>, at: Time, pid: int): real
    requires |rows| == |ss|
    decreases |ss|
  {
    if ss == [] then 0.0
    else if ss[0].uptime.None? then ReportedTime(rows[1..], ss[1..], at, pid)
    else CpuIn(rows[0], pid) * (ss[0].now - at) + ReportedTime(rows[1..], ss[1..], ss[0].now, pid)
  }

  /** Every complete pass reads the process, as `stats` says, with its memory, later and with no fewer ticks
      than the one before. */
  ghost predicate Watched(last: Sample, ss: seq<Scan>, stats: seq<Stat>, id: ProcId)
    requires |stats| == |ss|
    decreases |ss|
  {
    ss == [] ||
    if ss[0].uptime.None? then Watched(last, ss[1..], stats[1..], id)
    else
      && Sees(ss[0], stats[0]) && stats[0].id == id && stats[0].rssKb.Some?
      && last.at < ss[0].now && last.ticks <= stats[0].ticks
      && Watched(Sample(stats[0].ticks, ss[0].now), ss[1..], stats[1..], id)
  }

  /** The ticks and the time of the last complete pass. */
  function LastRead(last: Sample, ss: seq<Scan>, stats: seq<Stat>): Sample
    requires |stats| == |ss|
    decreases |ss|
  {
    if ss == [] then last
    else if ss[0].uptime.None? then LastRead(last, ss[1..], stats[1..])
    else LastRead(Sample(stats[0].ticks, ss[0].now), ss[1..], stats[1..])
  }

  lemma SampleOfSeen(s: Scan, prev: Samples, p: Stat)
    requires s.uptime.Some? && Sees(s, p)
    ensures p.id in AfterScan(prev, s) && AfterScan(prev, s)[p.id] == Sample(p.ticks, s.now)
  {
    var i :| SeesAt(s.procs, p, i);
    SampleIsLastRead(s.procs, s.now, p.id, i);
  }

  /** What the passes return adds up to what they would have to, sample by sample. */
  lemma {:induction false} ReportsAreSteady(h: Host, prev: Samples, ss: seq<Scan>, stats: seq<Stat>, id: ProcId)
    requires |stats| == |ss| && id in prev && Watched(prev[id], ss, stats, id)
    ensures Steady(prev, ss, id)
    ensures id in AfterScans(prev, ss) && AfterScans(prev, ss)[id] == LastRead(prev[id], ss, stats)
    ensures |Reports(h, prev, ss)| == |ss|
    ensures ReportedTime(Reports(h, prev, ss), ss, prev[id].at, id.pid) == CpuTime(h, prev, ss, id)
    decreases |ss|
  {
    hide CpuPercent, AfterScan, Sees, CpuIn;
    if ss == [] {
    } else {
      var s, rows := ss[0], Reports(h, prev, ss);
      AbortedKeeps(prev, s);
      if s.uptime.Some? {
        SampleOfSeen(s, prev, stats[0]);
        RowSeen(h, s, prev, stats[0]);
      }
      ReportsAreSteady(h, AfterScan(prev, s), ss[1..], stats[1..], id);
      assert rows[1..] == Reports(h, AfterScan(prev, s), ss[1..]);
    }
  }

  lemma RowSeen(h: Host, s: Scan, prev: Samples, p: Stat)
    requires s.uptime.Some? && Sees(s, p) && p.rssKb.Some?
    ensures CpuIn(RowsOf(h, s.procs, s, prev), p.id.pid) == CpuPercent(h, p.id, p.ticks, s.uptime.value, s.now, prev)
  {
    var i :| SeesAt(s.procs, p, i);
    RowOfSeen(h, s.procs, s, prev, p, i);
  }

  /** CPU accounting telescopes, as reported: between a first pass that reads a process and the last one, the
      percentages in the returned rows times their intervals add up to the ticks read last less the ticks
      read first, up to 0.005% of the time. */
  lemma ReportsTelescope(h: Host, before: Samples, first: Scan, p: Stat, ss: seq<Scan>, stats: seq<Stat>)
    requires h.Rounds() && h.clkTck > 0 && first.uptime.Some? && Sees(first, p)
    requires |stats| == |ss| && Watched(Sample(p.ticks, first.now), ss, stats, p.id)
    ensures var rows := Reports(h, AfterScan(before, first), ss);
            && |rows| == |ss|
            && Within(ReportedTime(rows, ss, first.now, p.id.pid), Sample(p.ticks, first.now),
                      LastRead(Sample(p.ticks, first.now), ss, stats), h.clkTck)
  {
    SampleOfSeen(first, before, p);
    var prev := AfterScan(before, first);
    ReportsAreSteady(h, prev, ss, stats, p.id);
    hide CpuTime, ReportedTime, Reports, Steady, Watched, Within, AfterScan, LastRead;
    Telescopes(h, prev, ss, p.id);
  }

  // ---------- Recycled pids ----------

  function LastGood(ss: seq<Scan>): Option<Scan> {
    if ss == [] then None
    else if ss[|ss| - 1].uptime.Some? then Some(ss[|ss| - 1])
    else LastGood(ss[..|ss| - 1])
  }

  lemma {:induction false} AfterScansLast(prev: Samples, ss: seq<Scan>)
    requires ss != []
    ensures AfterScans(prev, ss) == AfterScan(AfterScans(prev, ss[..|ss| - 1]), ss[|ss| - 1])
    decreases |ss|
  {
    if |ss| == 1 {
    } else {
      AfterScansLast(AfterScan(prev, ss[0]), ss[1..]);
      assert ss[1..][..|ss| - 2] == ss[..|ss| - 1][1..];
    }
  }

  lemma {:induction false} SamplesAreOfLastGood(ss: seq<Scan>)
    ensures AfterScans(map[], ss) ==
            match LastGood(ss) case None => map[] case Some(s) => SamplesOf(s.procs, s.now)
  {
    if ss == [] {
    } else {
      AfterScansLast(map[], ss);
      SamplesAreOfLastGood(ss[..|ss| - 1]);
    }
  }

  predicate Saw(s: Scan, id: ProcId) {
    exists i | 0 <= i < |s.procs| :: s.procs[i].Some? && s.procs[i].value.id == id
  }

  lemma {:induction false} SamplesAreSightings(procs: seq<Option<Stat>>, now: Time, id: ProcId)
    ensures id in SamplesOf(procs, now) <==> exists i | 0 <= i < |procs| :: procs[i].Some? && procs[i].value.id == id
  {
    if procs == [] {
    } else {
      var n := |procs| - 1;
      SamplesAreSightings(procs[..n], now, id);
      if procs[n].Some? && procs[n].value.id == id {
      } else if i :| 0 <= i < |procs| && procs[i].Some? && procs[i].value.id == id {
        assert procs[..n][i] == procs[i];
      }
    }
  }

  /** A process that the last complete pass did not see, a recycled pid among them, gets its own
      lifetime average, never a difference of counters. */
  lemma RecycledPidHasNoDelta(h: Host, ss: seq<Scan>, id: ProcId, ticks: int, uptime: real, now: Time)
    requires match LastGood(ss) case None => true case Some(s) => !Saw(s, id)
    ensures CpuPercent(h, id, ticks, uptime, now, AfterScans(map[], ss)) == Average(h, id, ticks, uptime)
  {
    SamplesAreOfLastGood(ss);
    match LastGood(ss)
    case None =>
    case Some(s) => SamplesAreSightings(s.procs, s.now, id);
  }
}
