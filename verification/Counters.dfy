/** Lifetime error counters: two numbers per counter stand for its whole history. */
module Counters {
  import opened Wrappers

  type Time = real

  datatype Source = Memory | Network

  datatype CounterName = EccUe | EccCe | Crc | Carrier

  datatype CounterKey = CounterKey(source: Source, device: string, name: CounterName)

  datatype Severity = Critical | Warning | Info

  /** What is kept: the last value, and when it last went up. */
  datatype Counter = Counter(value: int, lastIncrease: Option<Time>)

  type Table = map<CounterKey, Counter>

  /** One observation of one counter, with the severity a rising counter deserves. */
  datatype Reading = Reading(key: CounterKey, value: int, now: Time, severity: Severity)

  datatype NodeWarning = NodeWarning(key: CounterKey, severity: Severity, value: int)

  datatype EccCounts = EccCounts(uncorrectable: int, correctable: int, t0: Time, t1: Time)

  datatype Nic = Nic(name: string, rxCrcErrors: int, txCarrierErrors: int, t0: Time, t1: Time)

  /** What one request gathered; `None` where the collector failed. */
  datatype Pass = Pass(memory: Option<EccCounts>, nics: Option<seq<Nic>>)

  // ---------- One pass over the table ----------

  function Update(prev: Option<Counter>, value: int, now: Time): Counter {
    match prev
    case None => Counter(value, None)
    case Some(Counter(prevValue, lastIncrease)) =>
      if value > prevValue || (value < prevValue && value > 0) then Counter(value, Some(now))
      else Counter(value, lastIncrease)
  }

  function Judge(c: Counter, now: Time, severity: Severity, window: Time): Option<Severity> {
    if c.value <= 0 then None
    else if c.lastIncrease.Some? && now - c.lastIncrease.value < window then Some(severity)
    else Some(Info)
  }

  function Get<V>(m: map<CounterKey, V>, k: CounterKey): Option<V> {
    if k in m then Some(m[k]) else None
  }

  function Record(t: Table, r: Reading): Table {
    t[r.key := Update(Get(t, r.key), r.value, r.now)]
  }

  function RecordAll(t: Table, rs: seq<Reading>): Table {
    if rs == [] then t else Record(RecordAll(t, rs[..|rs| - 1]), rs[|rs| - 1])
  }

  function Emitted(r: Reading, severity: Option<Severity>): seq<NodeWarning> {
    if severity.Some? then [NodeWarning(r.key, severity.value, r.value)] else []
  }

  function EmitAll(t: Table, rs: seq<Reading>, window: Time): seq<NodeWarning> {
    if rs == [] then []
    else
      var front, r := rs[..|rs| - 1], rs[|rs| - 1];
      EmitAll(t, front, window)
      + Emitted(r, Judge(RecordAll(t, rs)[r.key], r.now, r.severity, window))
  }

  function MemoryReadings(memory: Option<EccCounts>): seq<Reading> {
    match memory
    case None => []
    case Some(m) =>
      [Reading(CounterKey(Memory, "", EccUe), m.uncorrectable, m.t0, Critical),
       Reading(CounterKey(Memory, "", EccCe), m.correctable, m.t1, Warning)]
  }

  function NicReadings(nics: seq<Nic>): seq<Reading> {
    if nics == [] then [] else NicReadings(nics[..|nics| - 1]) + NicPair(nics[|nics| - 1])
  }

  function NicPair(nic: Nic): seq<Reading> {
    [Reading(CounterKey(Network, nic.name, Crc), nic.rxCrcErrors, nic.t0, Critical),
     Reading(CounterKey(Network, nic.name, Carrier), nic.txCarrierErrors, nic.t1, Critical)]
  }

  function Gathered(p: Pass): seq<Nic> {
    if p.nics.Some? then p.nics.value else []
  }

  function Readings(p: Pass): seq<Reading> {
    MemoryReadings(p.memory) + NicReadings(Gathered(p))
  }

  function Names(nics: seq<Nic>): set<string> {
    set nic | nic in nics :: nic.name
  }

  /** The interface of this key was not there when interfaces were last listed. */
  predicate Gone(k: CounterKey, p: Pass) {
    k.source == Network && p.nics.Some? && k.device !in Names(p.nics.value)
  }

  function Forget<V>(m: map<CounterKey, V>, p: Pass): map<CounterKey, V> {
    map k | k in m && !Gone(k, p) :: m[k]
  }

  function AfterPass(t: Table, p: Pass): Table {
    Forget(RecordAll(t, Readings(p)), p)
  }

  function AfterPasses(ps: seq<Pass>): Table {
    if ps == [] then map[] else AfterPass(AfterPasses(ps[..|ps| - 1]), ps[|ps| - 1])
  }

  // ---------- The code ----------

  class CounterBoard {
    var counters: Table
    const window: Time

    constructor (window: Time)
      ensures counters == map[] && this.window == window
    {
      counters := map[];
      this.window := window;
    }

    /** `_counter_severity`. */
    method CounterSeverity(r: Reading) returns (severity: Option<Severity>)
      modifies this
      ensures counters == Record(old(counters), r)
      ensures severity == Judge(counters[r.key], r.now, r.severity, window)
    {
      var lastIncrease: Option<Time> := None;
      if r.key in counters {
        var Counter(prevValue, last) := counters[r.key];
        lastIncrease := last;
        if r.value > prevValue || (r.value < prevValue && r.value > 0) {
          lastIncrease := Some(r.now);
        }
      }
      counters := counters[r.key := Counter(r.value, lastIncrease)];
      if r.value <= 0 {
        return None;
      }
      if lastIncrease.Some? && r.now - lastIncrease.value < window {
        return Some(r.severity);
      }
      return Some(Info);
    }

    method Report(r: Reading, warnings: seq<NodeWarning>, ghost start: Table, ghost done: seq<Reading>)
        returns (w: seq<NodeWarning>)
      requires counters == RecordAll(start, done) && warnings == EmitAll(start, done, window)
      modifies this
      ensures counters == RecordAll(start, done + [r]) && w == EmitAll(start, done + [r], window)
    {
      var severity := CounterSeverity(r);
      w := warnings;
      if severity.Some? {
        w := w + [NodeWarning(r.key, severity.value, r.value)];
      }
      assert (done + [r])[..|done|] == done;
    }

    /** The counter part of `get_warnings`. */
    method GetWarnings(p: Pass) returns (warnings: seq<NodeWarning>)
      modifies this
      ensures counters == AfterPass(old(counters), p)
      ensures warnings == EmitAll(old(counters), Readings(p), window)
    {
      warnings := MemoryWarnings(p.memory);
      warnings := NetworkWarnings(Gathered(p), warnings, old(counters), MemoryReadings(p.memory));
      if p.nics.Some? {
        ForgetAbsent(p);
      } else {
        assert counters == Forget(counters, p);
      }
    }

    method MemoryWarnings(memory: Option<EccCounts>) returns (warnings: seq<NodeWarning>)
      modifies this
      ensures counters == RecordAll(old(counters), MemoryReadings(memory))
      ensures warnings == EmitAll(old(counters), MemoryReadings(memory), window)
    {
      warnings := [];
      if memory.Some? {
        var m := memory.value;
        var ue := Reading(CounterKey(Memory, "", EccUe), m.uncorrectable, m.t0, Critical);
        warnings := Report(ue, warnings, old(counters), []);
        var ce := Reading(CounterKey(Memory, "", EccCe), m.correctable, m.t1, Warning);
        warnings := Report(ce, warnings, old(counters), [ue]);
        assert [ue] + [ce] == MemoryReadings(memory);
      }
    }

    method NetworkWarnings(nics: seq<Nic>, before: seq<NodeWarning>, ghost start: Table, ghost done: seq<Reading>)
        returns (warnings: seq<NodeWarning>)
      requires counters == RecordAll(start, done) && before == EmitAll(start, done, window)
      modifies this
      ensures counters == RecordAll(start, done + NicReadings(nics))
      ensures warnings == EmitAll(start, done + NicReadings(nics), window)
    {
      hide NicPair, RecordAll, EmitAll;
      warnings := before;
      ghost var all := done;
      assert done + NicReadings([]) == done;
      for i := 0 to |nics|
        invariant all == done + NicReadings(nics[..i])
        invariant counters == RecordAll(start, all) && warnings == EmitAll(start, all, window)
      {
        warnings := NicWarnings(nics[i], warnings, start, all);
        all := all + NicPair(nics[i]);
        assert nics[..i + 1][..i] == nics[..i];
      }
      assert nics[..|nics|] == nics;
    }

    method NicWarnings(nic: Nic, before: seq<NodeWarning>, ghost start: Table, ghost done: seq<Reading>)
        returns (warnings: seq<NodeWarning>)
      requires counters == RecordAll(start, done) && before == EmitAll(start, done, window)
      modifies this
      ensures counters == RecordAll(start, done + NicPair(nic))
      ensures warnings == EmitAll(start, done + NicPair(nic), window)
    {
      var crc := Reading(CounterKey(Network, nic.name, Crc), nic.rxCrcErrors, nic.t0, Critical);
      warnings := Report(crc, before, start, done);
      var carrier := Reading(CounterKey(Network, nic.name, Carrier), nic.txCarrierErrors, nic.t1, Critical);
      warnings := Report(carrier, warnings, start, done + [crc]);
      assert done + [crc] + [carrier] == done + NicPair(nic);
    }

    /** Drop the counters of interfaces that are gone. */
    method ForgetAbsent(p: Pass)
      requires p.nics.Some?
      modifies this
      ensures counters == Forget(old(counters), p)
    {
      var present := Names(p.nics.value);
      var all := counters;
      var keys := set k | k in counters && k.source == Network;
      while keys != {}
        invariant keys <= all.Keys && forall k :: k in keys ==> k.source == Network
        invariant counters.Keys == set k | k in all && (k in keys || !Gone(k, p))
        invariant forall k :: k in counters ==> counters[k] == all[k]
        decreases |keys|
      {
        var key :| key in keys;
        if key.device !in present {
          counters := counters - {key};
        }
        keys := keys - {key};
      }
    }
  }
}
