/** The table of counters against the full history of what was observed. */
module CounterHistory {
  import opened Wrappers
  import Sets
  import opened Counters

  datatype Observation = Observation(value: int, at: Time)

  /** What a series of readings says of counter `k`. */
  function SeenIn(rs: seq<Reading>, k: CounterKey): seq<Observation> {
    if rs == [] then []
    else
      var r := rs[|rs| - 1];
      SeenIn(rs[..|rs| - 1], k) + if r.key == k then [Observation(r.value, r.now)] else []
  }

  function AllReadings(ps: seq<Pass>): seq<Reading> {
    if ps == [] then [] else AllReadings(ps[..|ps| - 1]) + Readings(ps[|ps| - 1])
  }

  /** The pass listed the interfaces, and that of `k` was not among them. Memory is never missed. */
  predicate Missed(k: CounterKey, p: Pass) {
    k.source == Network && p.nics.Some? && forall i :: 0 <= i < |p.nics.value| ==> p.nics.value[i].name != k.device
  }

  /** The number of passes up to the last one that missed the interface of `k`. */
  function LastGone(ps: seq<Pass>, k: CounterKey): (n: nat)
    ensures n <= |ps| && (n > 0 ==> Missed(k, ps[n - 1]))
    ensures forall j :: n <= j < |ps| ==> !Missed(k, ps[j])
  {
    if ps == [] then 0
    else if Missed(k, ps[|ps| - 1]) then |ps|
    else LastGone(ps[..|ps| - 1], k)
  }

  /** Everything seen of `k` since its interface was last absent from a listing. */
  function HistoryOf(ps: seq<Pass>, k: CounterKey): seq<Observation> {
    SeenIn(AllReadings(ps[LastGone(ps, k)..]), k)
  }

  /** Observation `i` saw the counter change, to a positive value. */
  predicate Raised(h: seq<Observation>, i: int) {
    1 <= i < |h| && h[i].value != h[i - 1].value && h[i].value > 0
  }

  /** What the severity should be, read off the whole history. */
  ghost function Due(h: seq<Observation>, severity: Severity, window: Time): Option<Severity>
    requires h != []
  {
    var last := h[|h| - 1];
    if last.value <= 0 then None
    else if exists i :: Raised(h, i) && last.at - h[i].at < window then Some(severity)
    else Some(Info)
  }

  /** The warnings that the readings `rs` of a pass after `ps` call for. */
  ghost function DueAll(ps: seq<Pass>, rs: seq<Reading>, window: Time): seq<NodeWarning> {
    if rs == [] then []
    else
      var r := rs[|rs| - 1];
      DueAll(ps, rs[..|rs| - 1], window)
      + match Due(HistoryOf(ps, r.key) + SeenIn(rs, r.key), r.severity, window)
        case None => []
        case Some(severity) => [NodeWarning(r.key, severity, r.value)]
  }

  /** A counter stands for a history: same last value and, while that is positive,
      the time of the last change to a positive value. */
  ghost predicate Represents(c: Counter, h: seq<Observation>) {
    && h != [] && c.value == h[|h| - 1].value
    && (c.value > 0 ==>
          match c.lastIncrease
          case None => forall i :: !Raised(h, i)
          case Some(t) => exists i :: IsLastRaise(h, i) && h[i].at == t)
  }

  ghost predicate IsLastRaise(h: seq<Observation>, i: int) {
    Raised(h, i) && forall j :: j > i ==> !Raised(h, j)
  }

  /** The table knows of `k` exactly if there is a history, and then stands for it. */
  ghost predicate Refines(t: Table, k: CounterKey, h: seq<Observation>) {
    (k in t <==> h != []) && (k in t ==> Represents(t[k], h))
  }

  ghost predicate InTime(h: seq<Observation>) {
    forall i, j :: 0 <= i < j < |h| ==> h[i].at <= h[j].at
  }

  lemma RaisedPrefix(h: seq<Observation>, o: Observation)
    ensures forall i :: i < |h| ==> (Raised(h + [o], i) <==> Raised(h, i))
  {
  }

  lemma RepresentsUpdate(prev: Option<Counter>, h: seq<Observation>, value: int, now: Time)
    requires match prev case None => h == [] case Some(c) => Represents(c, h)
    ensures Represents(Update(prev, value, now), h + [Observation(value, now)])
  {
    var h' := h + [Observation(value, now)];
    RaisedPrefix(h, Observation(value, now));
    var c := Update(prev, value, now);
    if prev.Some? && value > 0 {
      if value == prev.value.value {
        assert !Raised(h', |h|);
        if prev.value.lastIncrease.Some? {
          var i :| IsLastRaise(h, i) && h[i].at == prev.value.lastIncrease.value;
          assert IsLastRaise(h', i) && h'[i].at == c.lastIncrease.value;
        }
      } else {
        assert IsLastRaise(h', |h|) && h'[|h|].at == now;
      }
    }
  }

  lemma JudgeIsDue(c: Counter, h: seq<Observation>, severity: Severity, window: Time)
    requires Represents(c, h) && InTime(h)
    ensures Judge(c, h[|h| - 1].at, severity, window) == Due(h, severity, window)
  {
    if c.value > 0 && c.lastIncrease.Some? {
      var i :| IsLastRaise(h, i) && h[i].at == c.lastIncrease.value;
      forall j | Raised(h, j) ensures h[j].at <= h[i].at {
      }
    }
  }

  // ---------- Readings ----------

  lemma {:induction false} SeenInAppend(a: seq<Reading>, b: seq<Reading>, k: CounterKey)
    ensures SeenIn(a + b, k) == SeenIn(a, k) + SeenIn(b, k)
  {
    if b == [] {
      assert a + b == a;
    } else {
      assert (a + b)[..|a + b| - 1] == a + b[..|b| - 1];
      SeenInAppend(a, b[..|b| - 1], k);
    }
  }

  lemma {:induction false} AllReadingsAppend(ps: seq<Pass>, qs: seq<Pass>)
    ensures AllReadings(ps + qs) == AllReadings(ps) + AllReadings(qs)
  {
    hide Readings;
    if qs == [] {
      assert ps + qs == ps;
    } else {
      assert (ps + qs)[..|ps + qs| - 1] == ps + qs[..|qs| - 1];
      AllReadingsAppend(ps, qs[..|qs| - 1]);
    }
  }

  /** One more pass adds what it saw, or forgets an interface that is gone. */
  lemma HistoryStep(ps: seq<Pass>, p: Pass, k: CounterKey)
    ensures HistoryOf(ps + [p], k) == if Missed(k, p) then [] else HistoryOf(ps, k) + SeenIn(Readings(p), k)
  {
    assert (ps + [p])[..|ps|] == ps;
    if Missed(k, p) {
      assert (ps + [p])[|ps| + 1..] == [];
    } else {
      hide Readings, SeenIn;
      var n := LastGone(ps, k);
      assert (ps + [p])[n..] == ps[n..] + [p];
      AllReadingsAppend(ps[n..], [p]);
      assert AllReadings([p]) == AllReadings([]) + Readings(p);
      SeenInAppend(AllReadings(ps[n..]), Readings(p), k);
    }
  }

  /** The passes read one clock, one after the other. */
  ghost predicate InClockOrder(rs: seq<Reading>) {
    forall i, j :: 0 <= i < j < |rs| ==> rs[i].now <= rs[j].now
  }

  lemma {:induction false} SeenInTime(rs: seq<Reading>, k: CounterKey)
    requires InClockOrder(rs)
    ensures InTime(SeenIn(rs, k))
    ensures forall i :: 0 <= i < |SeenIn(rs, k)| ==> SeenIn(rs, k)[i].at <= rs[|rs| - 1].now
  {
    if rs == [] {
    } else {
      var front := rs[..|rs| - 1];
      SeenInTime(front, k);
      assert front != [] ==> front[|front| - 1] == rs[|rs| - 2];
    }
  }

  // ---------- The table ----------

  lemma {:induction false} RefinesAll(t: Table, k: CounterKey, h: seq<Observation>, rs: seq<Reading>)
    requires Refines(t, k, h)
    ensures Refines(RecordAll(t, rs), k, h + SeenIn(rs, k))
  {
    hide Represents, Update;
    if rs == [] {
      assert SeenIn(rs, k) == [] && h + [] == h;
    } else {
      var front, r := rs[..|rs| - 1], rs[|rs| - 1];
      RefinesAll(t, k, h, front);
      var t1, h1 := RecordAll(t, front), h + SeenIn(front, k);
      if r.key == k {
        RepresentsUpdate(Get(t1, k), h1, r.value, r.now);
        assert h + SeenIn(rs, k) == h1 + [Observation(r.value, r.now)];
      } else {
        assert h + SeenIn(rs, k) == h1;
      }
    }
  }

  lemma GoneIsMissed(k: CounterKey, p: Pass)
    ensures Gone(k, p) <==> Missed(k, p)
  {
    if p.nics.Some? && k.device in Names(p.nics.value) {
      var nic :| nic in p.nics.value && nic.name == k.device;
      var i :| 0 <= i < |p.nics.value| && p.nics.value[i] == nic;
    }
  }

  lemma RefinesForget(t: Table, k: CounterKey, h: seq<Observation>, p: Pass)
    requires Refines(t, k, h)
    ensures Refines(Forget(t, p), k, if Missed(k, p) then [] else h)
  {
    GoneIsMissed(k, p);
    hide Gone, Missed, Represents;
  }

  /** After any sequence of passes, each entry of the table stands for all that was seen of its
      counter since its interface was last absent from a listing, and there are no other entries. */
  lemma {:induction false} TableRefinesHistory(ps: seq<Pass>, k: CounterKey)
    ensures Refines(AfterPasses(ps), k, HistoryOf(ps, k))
  {
    hide Refines, Readings, RecordAll, HistoryOf, Forget, Gone, Missed;
    if ps == [] {
      NothingYet(k);
    } else {
      var front, p := ps[..|ps| - 1], ps[|ps| - 1];
      TableRefinesHistory(front, k);
      RefinesAll(AfterPasses(front), k, HistoryOf(front, k), Readings(p));
      RefinesForget(RecordAll(AfterPasses(front), Readings(p)), k, HistoryOf(front, k) + SeenIn(Readings(p), k), p);
      HistoryStep(front, p, k);
      assert front + [p] == ps;
    }
  }

  lemma NothingYet(k: CounterKey)
    ensures Refines(map[], k, HistoryOf([], k))
  {
  }

  /** The history behind one reading of a pass ends with that reading, and is in order of time. */
  lemma HistoryInTime(ps: seq<Pass>, rs: seq<Reading>)
    requires rs != [] && InClockOrder(AllReadings(ps) + rs)
    ensures var r := rs[|rs| - 1];
            var h := HistoryOf(ps, r.key) + SeenIn(rs, r.key);
            h != [] && h[|h| - 1].at == r.now && InTime(h)
  {
    var k := rs[|rs| - 1].key;
    var late := AllReadings(ps[LastGone(ps, k)..]);
    LateInOrder(ps, rs, k);
    hide InTime, InClockOrder, AllReadings, LastGone, SeenIn;
    SeenInTime(late + rs, k);
    SeenInAppend(late, rs, k);
    SeenLast(rs);
  }

  lemma LateInOrder(ps: seq<Pass>, rs: seq<Reading>, k: CounterKey)
    requires InClockOrder(AllReadings(ps) + rs)
    ensures InClockOrder(AllReadings(ps[LastGone(ps, k)..]) + rs)
  {
    hide InClockOrder, AllReadings;
    var n := LastGone(ps, k);
    AllReadingsAppend(ps[..n], ps[n..]);
    assert ps[..n] + ps[n..] == ps;
    InOrderTail(AllReadings(ps[..n]), AllReadings(ps[n..]), rs);
  }

  lemma InOrderTail(a: seq<Reading>, b: seq<Reading>, c: seq<Reading>)
    requires InClockOrder(a + b + c)
    ensures InClockOrder(b + c)
  {
    assert forall i :: 0 <= i < |b + c| ==> (b + c)[i] == (a + b + c)[|a| + i];
  }

  lemma SeenLast(rs: seq<Reading>)
    requires rs != []
    ensures var r, h := rs[|rs| - 1], SeenIn(rs, rs[|rs| - 1].key);
            h != [] && h[|h| - 1] == Observation(r.value, r.now)
  {
  }

  lemma {:induction false} EmitsDue(ps: seq<Pass>, rs: seq<Reading>, window: Time)
    requires InClockOrder(AllReadings(ps) + rs)
    ensures EmitAll(AfterPasses(ps), rs, window) == DueAll(ps, rs, window)
  {
    hide Judge, Due, HistoryOf, InTime, Represents;
    if rs == [] {
    } else {
      var front, r := rs[..|rs| - 1], rs[|rs| - 1];
      InOrderFront(AllReadings(ps), rs);
      EmitsDue(ps, front, window);
      TableRefinesHistory(ps, r.key);
      RefinesAll(AfterPasses(ps), r.key, HistoryOf(ps, r.key), rs);
      HistoryInTime(ps, rs);
      JudgeIsDue(RecordAll(AfterPasses(ps), rs)[r.key], HistoryOf(ps, r.key) + SeenIn(rs, r.key), r.severity, window);
    }
  }

  lemma InOrderFront(a: seq<Reading>, rs: seq<Reading>)
    requires rs != [] && InClockOrder(a + rs)
    ensures InClockOrder(a + rs[..|rs| - 1])
  {
    assert a + rs[..|rs| - 1] == (a + rs)[..|a + rs| - 1];
  }

  /** Counter refinement: after any sequence of passes, the next pass emits exactly the warnings
      that the full histories call for. */
  lemma WarningsAreDue(ps: seq<Pass>, p: Pass, window: Time)
    requires InClockOrder(AllReadings(ps + [p]))
    ensures EmitAll(AfterPasses(ps), Readings(p), window) == DueAll(ps, Readings(p), window)
  {
    assert (ps + [p])[..|ps|] == ps;
    EmitsDue(ps, Readings(p), window);
  }

  // ---------- What is read ----------

  const CRC_OF := (nic: Nic) => Observation(nic.rxCrcErrors, nic.t0)
  const CARRIER_OF := (nic: Nic) => Observation(nic.txCarrierErrors, nic.t1)

  /** What the interfaces of one name say, in the order of the list. */
  function SaidBy(nics: seq<Nic>, name: string, read: Nic -> Observation): seq<Observation> {
    if nics == [] then []
    else
      var nic := nics[|nics| - 1];
      SaidBy(nics[..|nics| - 1], name, read) + if nic.name == name then [read(nic)] else []
  }

  function OneSeen(r: Reading, k: CounterKey): seq<Observation> {
    if r.key == k then [Observation(r.value, r.now)] else []
  }

  lemma SeenInTwo(a: Reading, b: Reading, k: CounterKey)
    ensures SeenIn([a, b], k) == OneSeen(a, k) + OneSeen(b, k)
  {
    assert [a] + [b] == [a, b] && [a][..0] == [] && [b][..0] == [];
    SeenInAppend([a], [b], k);
    assert SeenIn([a], k) == SeenIn([], k) + OneSeen(a, k) && SeenIn([b], k) == SeenIn([], k) + OneSeen(b, k);
  }

  lemma SeenInPair(nic: Nic, k: CounterKey)
    ensures SeenIn(NicPair(nic), k) ==
            if k.source != Network || k.device != nic.name then []
            else match k.name
                 case Crc => [CRC_OF(nic)]
                 case Carrier => [CARRIER_OF(nic)]
                 case _ => []
  {
    var rs := NicPair(nic);
    SeenInTwo(rs[0], rs[1], k);
  }

  lemma {:induction false} SeenInNics(nics: seq<Nic>, name: string)
    ensures SeenIn(NicReadings(nics), CounterKey(Network, name, Crc)) == SaidBy(nics, name, CRC_OF)
    ensures SeenIn(NicReadings(nics), CounterKey(Network, name, Carrier)) == SaidBy(nics, name, CARRIER_OF)
    ensures SeenIn(NicReadings(nics), CounterKey(Memory, "", EccUe)) == []
    ensures SeenIn(NicReadings(nics), CounterKey(Memory, "", EccCe)) == []
  {
    hide SeenIn, NicPair;
    if nics == [] {
      SeenNothing();
    } else {
      var front, nic := nics[..|nics| - 1], nics[|nics| - 1];
      SeenInNics(front, name);
      forall k: CounterKey
        ensures SeenIn(NicReadings(nics), k) == SeenIn(NicReadings(front), k) + SeenIn(NicPair(nic), k)
      {
        SeenInAppend(NicReadings(front), NicPair(nic), k);
      }
      SeenInPair(nic, CounterKey(Network, name, Crc));
      SeenInPair(nic, CounterKey(Network, name, Carrier));
      SeenInPair(nic, CounterKey(Memory, "", EccUe));
      SeenInPair(nic, CounterKey(Memory, "", EccCe));
    }
  }

  lemma SeenNothing()
    ensures forall k :: SeenIn([], k) == []
  {
  }

  lemma SeenInMemory(memory: Option<EccCounts>, k: CounterKey)
    ensures SeenIn(MemoryReadings(memory), k) ==
            if memory.None? then []
            else if k == CounterKey(Memory, "", EccUe) then [Observation(memory.value.uncorrectable, memory.value.t0)]
            else if k == CounterKey(Memory, "", EccCe) then [Observation(memory.value.correctable, memory.value.t1)]
            else []
  {
    var rs := MemoryReadings(memory);
    if memory.Some? {
      SeenInTwo(rs[0], rs[1], k);
    }
  }

  /** Each of the four counters is fed from its own field of what was collected, in order. */
  lemma ReadFromItsField(p: Pass, name: string)
    ensures var nics := if p.nics.Some? then p.nics.value else [];
            && SeenIn(Readings(p), CounterKey(Network, name, Crc)) == SaidBy(nics, name, CRC_OF)
            && SeenIn(Readings(p), CounterKey(Network, name, Carrier)) == SaidBy(nics, name, CARRIER_OF)
    ensures SeenIn(Readings(p), CounterKey(Memory, "", EccUe)) ==
            match p.memory case None => [] case Some(m) => [Observation(m.uncorrectable, m.t0)]
    ensures SeenIn(Readings(p), CounterKey(Memory, "", EccCe)) ==
            match p.memory case None => [] case Some(m) => [Observation(m.correctable, m.t1)]
  {
    hide SeenIn, MemoryReadings, NicReadings;
    SeenInNics(Gathered(p), name);
    forall k: CounterKey
      ensures SeenIn(Readings(p), k) == SeenIn(MemoryReadings(p.memory), k) + SeenIn(NicReadings(Gathered(p)), k)
    {
      SeenInAppend(MemoryReadings(p.memory), NicReadings(Gathered(p)), k);
    }
    SeenInMemory(p.memory, CounterKey(Network, name, Crc));
    SeenInMemory(p.memory, CounterKey(Network, name, Carrier));
    SeenInMemory(p.memory, CounterKey(Memory, "", EccUe));
    SeenInMemory(p.memory, CounterKey(Memory, "", EccCe));
  }

  lemma {:induction false} NicSeverities(nics: seq<Nic>)
    ensures |NicReadings(nics)| == 2 * |nics|
    ensures forall i :: 0 <= i < |nics| ==>
              && NicReadings(nics)[2 * i].key == CounterKey(Network, nics[i].name, Crc)
              && NicReadings(nics)[2 * i + 1].key == CounterKey(Network, nics[i].name, Carrier)
    ensures forall r :: r in NicReadings(nics) ==> r.severity == Critical && r.key.name != EccCe
  {
    if nics == [] {
    } else {
      NicSeverities(nics[..|nics| - 1]);
    }
  }

  /** Rising counters are critical, but for the correctable memory errors, which are a warning. */
  lemma Severities(p: Pass)
    ensures forall r :: r in Readings(p) ==> r.severity == if r.key.name == EccCe then Warning else Critical
  {
    NicSeverities(Gathered(p));
    MemorySeverities(p.memory);
    hide NicReadings, MemoryReadings;
  }

  lemma MemorySeverities(memory: Option<EccCounts>)
    ensures |MemoryReadings(memory)| == if memory.Some? then 2 else 0
    ensures forall r :: r in MemoryReadings(memory) ==> r.severity == if r.key.name == EccCe then Warning else Critical
    ensures memory.Some? ==> MemoryReadings(memory)[0].key.name == EccUe && MemoryReadings(memory)[1].key.name == EccCe
  {
  }

  /** The counters are looked at memory first, then interface by interface, CRC before carrier. */
  lemma ReadingOrder(p: Pass)
    ensures var n, nics := if p.memory.Some? then 2 else 0, if p.nics.Some? then p.nics.value else [];
            && |Readings(p)| == n + 2 * |nics|
            && (n == 2 ==> Readings(p)[0].key.name == EccUe && Readings(p)[1].key.name == EccCe)
            && (forall i :: 0 <= i < |nics| ==>
                  && Readings(p)[n + 2 * i].key == CounterKey(Network, nics[i].name, Crc)
                  && Readings(p)[n + 2 * i + 1].key == CounterKey(Network, nics[i].name, Carrier))
  {
    NicSeverities(Gathered(p));
    MemorySeverities(p.memory);
    hide NicReadings, MemoryReadings;
    assert forall i :: 0 <= i < |NicReadings(Gathered(p))| ==>
      Readings(p)[|MemoryReadings(p.memory)| + i] == NicReadings(Gathered(p))[i];
  }

  // ---------- What the table holds ----------

  predicate Proper(k: CounterKey) {
    match k.source
    case Memory => k.device == "" && (k.name == EccUe || k.name == EccCe)
    case Network => k.name == Crc || k.name == Carrier
  }

  ghost predicate NetworkKeysAre(t: Table, present: set<string>) {
    forall k: CounterKey :: k.source == Network ==>
      (k in t <==> k.device in present && (k.name == Crc || k.name == Carrier))
  }

  function Keys(rs: seq<Reading>): set<CounterKey> {
    set r | r in rs :: r.key
  }

  lemma {:induction false} RecordAllKeys(t: Table, rs: seq<Reading>)
    ensures RecordAll(t, rs).Keys == t.Keys + Keys(rs)
  {
    if rs == [] {
    } else {
      RecordAllKeys(t, rs[..|rs| - 1]);
      assert rs == rs[..|rs| - 1] + [rs[|rs| - 1]];
    }
  }

  lemma KeysAppend(a: seq<Reading>, b: seq<Reading>)
    ensures Keys(a + b) == Keys(a) + Keys(b)
  {
  }

  lemma PairKeys(nic: Nic)
    ensures Keys(NicPair(nic)) == {CounterKey(Network, nic.name, Crc), CounterKey(Network, nic.name, Carrier)}
  {
    var rs := NicPair(nic);
    assert rs[0] in rs && rs[1] in rs;
  }

  lemma {:induction false} NicReadingKeys(nics: seq<Nic>)
    ensures forall k :: k in Keys(NicReadings(nics)) <==>
      k.source == Network && (k.name == Crc || k.name == Carrier) && k.device in Names(nics)
  {
    if nics == [] {
    } else {
      var front, nic := nics[..|nics| - 1], nics[|nics| - 1];
      NicReadingKeys(front);
      assert nics == front + [nic];
      assert Names(nics) == Names(front) + {nic.name};
      KeysAppend(NicReadings(front), NicPair(nic));
      PairKeys(nic);
    }
  }

  lemma ReadingKeys(p: Pass)
    ensures forall k :: k in Keys(Readings(p)) ==> Proper(k)
    ensures forall k: CounterKey :: k.source == Network ==>
      (k in Keys(Readings(p)) <==> (k.name == Crc || k.name == Carrier) && k.device in Names(Gathered(p)))
  {
    NicReadingKeys(Gathered(p));
    assert Keys(Readings(p)) == Keys(MemoryReadings(p.memory)) + Keys(NicReadings(Gathered(p)));
  }

  lemma {:induction false} KeysAreProper(ps: seq<Pass>)
    ensures forall k :: k in AfterPasses(ps) ==> Proper(k)
  {
    if ps == [] {
    } else {
      var front, p := ps[..|ps| - 1], ps[|ps| - 1];
      KeysAreProper(front);
      ReadingKeys(p);
      RecordAllKeys(AfterPasses(front), Readings(p));
    }
  }

  /** After a pass that listed the interfaces, the network keys are the listed interfaces times
      the two counters; a pass that could not list them leaves every network entry as it was. */
  lemma NetworkKeys(ps: seq<Pass>, p: Pass)
    ensures p.nics.Some? ==> NetworkKeysAre(AfterPasses(ps + [p]), Names(p.nics.value))
    ensures p.nics.None? ==> forall k: CounterKey :: k.source == Network ==>
              Get(AfterPasses(ps + [p]), k) == Get(AfterPasses(ps), k)
  {
    assert (ps + [p])[..|ps|] == ps;
    KeysAreProper(ps);
    ReadingKeys(p);
    RecordAllKeys(AfterPasses(ps), Readings(p));
    if p.nics.None? {
      var t, rs := AfterPasses(ps), Readings(p);
      assert NicReadings([]) == [] && rs == MemoryReadings(p.memory);
      MemoryOnly(t, rs);
    }
  }

  lemma {:induction false} MemoryOnly(t: Table, rs: seq<Reading>)
    requires forall r :: r in rs ==> r.key.source == Memory
    ensures forall k: CounterKey :: k.source == Network ==> Get(RecordAll(t, rs), k) == Get(t, k)
  {
    if rs == [] {
    } else {
      MemoryOnly(t, rs[..|rs| - 1]);
    }
  }

  /** The table stays small: two entries per listed interface and two for the memory. */
  lemma TableIsBounded(ps: seq<Pass>, p: Pass)
    requires p.nics.Some?
    ensures |AfterPasses(ps + [p])| <= 2 * |p.nics.value| + 2
  {
    NetworkKeys(ps, p);
    KeysAreProper(ps + [p]);
    KeysAreFew(AfterPasses(ps + [p]), p.nics.value);
  }

  function KeysNamed(names: set<string>, counter: CounterName): set<CounterKey> {
    set name | name in names :: CounterKey(Network, name, counter)
  }

  const MEMORY_KEYS := {CounterKey(Memory, "", EccUe), CounterKey(Memory, "", EccCe)}

  lemma KeysAreFew(t: Table, nics: seq<Nic>)
    requires NetworkKeysAre(t, Names(nics)) && forall k :: k in t ==> Proper(k)
    ensures |t| <= 2 * |nics| + 2
  {
    var names := Names(nics);
    KeysWithin(t, names);
    hide NetworkKeysAre, Proper, Names, KeysNamed;
    NamesSize(nics);
    NamedSize(names, Crc);
    NamedSize(names, Carrier);
    Sets.SubsetSize(t.Keys, KeysNamed(names, Crc) + KeysNamed(names, Carrier) + MEMORY_KEYS);
    Sets.UnionSize(KeysNamed(names, Crc), KeysNamed(names, Carrier), MEMORY_KEYS);
  }

  lemma KeysWithin(t: Table, names: set<string>)
    requires NetworkKeysAre(t, names) && forall k :: k in t ==> Proper(k)
    ensures t.Keys <= KeysNamed(names, Crc) + KeysNamed(names, Carrier) + MEMORY_KEYS
  {
  }

  lemma {:induction false} NamedSize(names: set<string>, counter: CounterName)
    ensures |KeysNamed(names, counter)| <= |names|
    decreases |names|
  {
    if names == {} {
    } else {
      var name :| name in names;
      NamedSize(names - {name}, counter);
      assert KeysNamed(names, counter) == KeysNamed(names - {name}, counter) + {CounterKey(Network, name, counter)};
    }
  }

  lemma {:induction false} NamesSize(nics: seq<Nic>)
    ensures |Names(nics)| <= |nics|
  {
    if nics == [] {
    } else {
      NamesSize(nics[..|nics| - 1]);
      assert nics == nics[..|nics| - 1] + [nics[|nics| - 1]];
      assert Names(nics) == Names(nics[..|nics| - 1]) + {nics[|nics| - 1].name};
    }
  }
}
