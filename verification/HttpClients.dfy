/** The pool of shared HTTP clients: certificate rotation, retirement, shutdown.

    A step is what runs between two awaits. `close_clients` awaits only while it closes a client that
    is open, so calls that hand out clients can come in there and nowhere else; each call that hands
    one out is a single step. */
module HttpClients {
  import opened Wrappers

  type ClientId = nat  // the identity of one httpx.AsyncClient

  type Stamp = seq<int>  // modification times of the certificate files

  datatype Key = Kubernetes | ApiserverLocal | Etcd | Insecure | Public {
    /** The client of this key is verified with files read from disk. */
    predicate Cert() { Kubernetes? || ApiserverLocal? || Etcd? }
  }

  /** What a client was built for and from. */
  datatype Origin = Origin(key: Key, stamp: Option<Stamp>)

  /** `close_clients` waiting for a client to close: what is left of its list after that one, and how
      many clients existed at its start. */
  datatype Shutdown = Shutdown(rest: seq<ClientId>, since: nat)

  /** The three module variables; every client ever made; which are closed; a shutdown under way. */
  datatype State = State(
    clients: map<Key, ClientId>,
    stamps: map<Key, Stamp>,
    retired: seq<ClientId>,
    created: seq<Origin>,
    closed: set<ClientId>,
    shutdown: Option<Shutdown>)

  /** `stat` is `None` if a file cannot be read; `builds` tells whether the context can be built.
      `Close` is `close_clients` up to its first await, `Resume` from one await to the next. */
  datatype Event =
    | UsePlain(key: Key)
    | UseCert(key: Key, stat: Option<Stamp>, builds: bool)
    | Close(order: seq<ClientId>)
    | Resume

  const INIT := State(map[], map[], [], [], {}, None)

  predicate Open(s: State, id: ClientId) { id < |s.created| && id !in s.closed }

  predicate Has(s: State, key: Key) { key in s.clients && s.clients[key] !in s.closed }

  /** `_cert_client` returns the client it has. */
  predicate Reuses(s: State, key: Key, stamp: Stamp) {
    Has(s, key) && key in s.stamps && s.stamps[key] == stamp
  }

  ghost predicate Enabled(s: State, e: Event) {
    match e
    case UsePlain(key) => !key.Cert()
    case UseCert(key, _, _) => key.Cert()
    case Close(order) => s.shutdown.None? && IsSnapshot(s, order)
    case Resume => s.shutdown.Some?
  }

  /** The values of the dict in some order, then the retired clients. */
  ghost predicate IsSnapshot(s: State, order: seq<ClientId>) {
    && |order| >= |s.retired| && order[|order| - |s.retired|..] == s.retired
    && (forall id :: id in s.clients.Values <==> id in order[..|order| - |s.retired|])
  }

  /** The place of the first client in the list that is still open. */
  function FirstOpen(list: seq<ClientId>, closed: set<ClientId>): (i: nat)
    ensures i <= |list| && (forall j :: 0 <= j < i ==> list[j] in closed)
    ensures i < |list| ==> list[i] !in closed
  {
    if list == [] || list[0] !in closed then 0 else 1 + FirstOpen(list[1..], closed)
  }

  /** The loop of `close_clients` on to the next open client, or to the end. */
  function Advance(s: State, list: seq<ClientId>, since: nat): State {
    var i := FirstOpen(list, s.closed);
    if i < |list| then s.(closed := s.closed + {list[i]}, shutdown := Some(Shutdown(list[i + 1..], since)))
    else s.(clients := map[], stamps := map[], retired := [], shutdown := None)
  }

  function Make(s: State, key: Key, stamp: Option<Stamp>): State {
    s.(clients := s.clients[key := |s.created|], created := s.created + [Origin(key, stamp)])
  }

  function Rebuild(s: State, key: Key, stamp: Stamp): State {
    var r := if Has(s, key) then s.(retired := s.retired + [s.clients[key]]) else s;
    Make(r, key, Some(stamp)).(stamps := s.stamps[key := stamp])
  }

  predicate Creates(s: State, e: Event) {
    match e
    case UsePlain(key) => !Has(s, key)
    case UseCert(key, stat, builds) => stat.Some? && builds && !Reuses(s, key, stat.value)
    case _ => false
  }

  function Next(s: State, e: Event): State {
    match e
    case UsePlain(key) => if Creates(s, e) then Make(s, key, None) else s
    case UseCert(key, stat, _) => if Creates(s, e) then Rebuild(s, key, stat.value) else s
    case Close(order) => Advance(s, order, |s.created|)
    case Resume => if s.shutdown.None? then s else Advance(s, s.shutdown.value.rest, s.shutdown.value.since)
  }

  /** What the caller of step `e` gets. */
  function Given(s: State, e: Event): Option<ClientId> {
    match e
    case UsePlain(key) => if key in Next(s, e).clients then Some(Next(s, e).clients[key]) else None
    case UseCert(key, stat, builds) =>
      if stat.None? || !(builds || Reuses(s, key, stat.value)) then None
      else if key in Next(s, e).clients then Some(Next(s, e).clients[key]) else None
    case _ => None
  }

  ghost predicate IsRun(ss: seq<State>, es: seq<Event>) {
    && |ss| == |es| + 1 && ss[0] == INIT
    && forall i | 0 <= i < |es| :: Enabled(ss[i], es[i]) && ss[i + 1] == Next(ss[i], es[i])
  }

  /** Every certificate client in use was built for its key from the files stamped in `stamps`. */
  ghost predicate Inv(s: State) {
    && (forall k :: k in s.clients ==>
          && s.clients[k] < |s.created| && s.created[s.clients[k]].key == k
          && (k.Cert() ==> k in s.stamps && s.created[s.clients[k]].stamp == Some(s.stamps[k])))
    && (forall id :: id in s.retired ==> id < |s.created|)
    && (forall id :: id in s.closed ==> id < |s.created|)
    && (s.shutdown.Some? ==>
          && s.shutdown.value.since <= |s.created|
          && (forall id :: id in s.shutdown.value.rest ==> id < s.shutdown.value.since)
          && (forall id :: id in s.closed ==> id < s.shutdown.value.since))
  }

  lemma InvAdvance(s: State, list: seq<ClientId>, since: nat)
    requires Inv(s) && since <= |s.created|
    requires (forall id :: id in list ==> id < since) && (forall id :: id in s.closed ==> id < since)
    ensures Inv(Advance(s, list, since))
  {
    var i := FirstOpen(list, s.closed);
    if i < |list| {
      var rest := list[i + 1..];
      assert list[i] in list;
      forall id | id in rest ensures id < since {
        assert id in list;
      }
    }
  }

  lemma InvNext(s: State, e: Event)
    requires Inv(s) && Enabled(s, e)
    ensures Inv(Next(s, e))
  {
    match e
    case Close(order) =>
      forall id | id in order ensures id < |s.created| {
        InSnapshot(s, order, id);
      }
      InvAdvance(s, order, |s.created|);
    case Resume => InvAdvance(s, s.shutdown.value.rest, s.shutdown.value.since);
    case _ =>
  }

  /** The list of a shutdown holds exactly the clients that can be found. */
  lemma InSnapshot(s: State, order: seq<ClientId>, id: ClientId)
    requires IsSnapshot(s, order)
    ensures id in order <==> id in s.clients.Values || id in s.retired
  {
    var n := |order| - |s.retired|;
    assert order == order[..n] + order[n..];
  }

  lemma {:induction false} RunInv(ss: seq<State>, es: seq<Event>, n: nat)
    requires IsRun(ss, es) && n <= |es|
    ensures Inv(ss[n])
  {
    if n == 0 {
    } else {
      RunInv(ss, es, n - 1);
      InvNext(ss[n - 1], es[n - 1]);
    }
  }

  // ---------- No leak, no early close ----------

  /** Every open client can still be found. */
  ghost predicate NoLeak(s: State) {
    forall id: ClientId :: Open(s, id) ==> id in s.clients.Values || id in s.retired
  }

  ghost predicate AllClosed(s: State) {
    forall id: ClientId :: !Open(s, id)
  }

  /** The clients that existed when the shutdown began are closed or on its list. */
  ghost predicate Covered(s: State) {
    s.shutdown.Some? ==> CoveredBy(s, s.shutdown.value.rest, s.shutdown.value.since)
  }

  ghost predicate CoveredBy(s: State, list: seq<ClientId>, since: nat) {
    forall id: ClientId :: id < since && Open(s, id) ==> id in list
  }

  /** The step ends a shutdown during which a client was made. */
  ghost predicate EndsRaced(s: State, e: Event) {
    e.Resume? && s.shutdown.Some? && Next(s, e).shutdown.None? && |s.created| != s.shutdown.value.since
  }

  lemma AdvanceKeeps(s: State, list: seq<ClientId>, since: nat)
    requires NoLeak(s) && since <= |s.created| && CoveredBy(s, list, since)
    requires forall id :: id in s.closed ==> id < since
    ensures Covered(Advance(s, list, since))
    ensures NoLeak(Advance(s, list, since)) <==> (Advance(s, list, since).shutdown.Some? || |s.created| == since)
  {
    var s', i := Advance(s, list, since), FirstOpen(list, s.closed);
    if i < |list| {
      assert list == list[..i] + [list[i]] + list[i + 1..];
      forall id: ClientId | id < since && Open(s', id) ensures id in list[i + 1..] {
        assert Open(s, id);
      }
      forall id: ClientId | Open(s', id) ensures id in s'.clients.Values || id in s'.retired {
        assert Open(s, id);
      }
    } else {
      forall id: ClientId | Open(s', id) ensures since <= id {
        assert Open(s, id);
      }
      if |s.created| != since {
        assert Open(s', since);
      }
    }
  }

  /** A step leaks a client if and only if it ends a shutdown during which one was made. */
  lemma LeaksExactlyByRacing(s: State, e: Event)
    requires Inv(s) && NoLeak(s) && Covered(s) && Enabled(s, e)
    ensures Covered(Next(s, e))
    ensures NoLeak(Next(s, e)) <==> !EndsRaced(s, e)
  {
    match e
    case UsePlain(key) => HandOutKeeps(s, e);
    case UseCert(key, stat, builds) => HandOutKeeps(s, e);
    case Close(order) =>
      forall id: ClientId | Open(s, id) ensures id in order {
        InSnapshot(s, order, id);
      }
      AdvanceKeeps(s, order, |s.created|);
    case Resume => AdvanceKeeps(s, s.shutdown.value.rest, s.shutdown.value.since);
  }

  /** Handing out a client loses none: the one it replaces was closed or is retired. */
  lemma HandOutKeeps(s: State, e: Event)
    requires Inv(s) && NoLeak(s) && Covered(s) && Enabled(s, e) && (e.UsePlain? || e.UseCert?)
    ensures NoLeak(Next(s, e)) && Covered(Next(s, e))
  {
    var s', key := Next(s, e), e.key;
    forall id: ClientId | Open(s', id) ensures id in s'.clients.Values || id in s'.retired {
      if id < |s.created| {
        assert Open(s, id);
        if k :| k in s.clients && s.clients[k] == id {
          assert k != key ==> k in s'.clients && s'.clients[k] == id;
          assert k == key && s' != s ==> s'.retired == s.retired + [id];
        }
      } else {
        assert key in s'.clients && s'.clients[key] == id;
      }
    }
  }

  /** A run the code can take that leaks: while the one client there is is being closed, another is
      made, and forgotten when the shutdown ends. */
  lemma RacingLeaks() returns (ss: seq<State>, es: seq<Event>)
    ensures IsRun(ss, es) && es == [UsePlain(Insecure), Close([0]), UsePlain(Public), Resume]
    ensures Open(ss[4], 1) && ss[4].created[1].key == Public && !NoLeak(ss[4])
  {
    var s1 := Make(INIT, Insecure, None);
    var s2 := s1.(closed := {0}, shutdown := Some(Shutdown([], 1)));
    var s3 := Make(s2, Public, None);
    var s4 := State(map[], map[], [], s3.created, {0}, None);
    es := [UsePlain(Insecure), Close([0]), UsePlain(Public), Resume];
    ss := [INIT, s1, s2, s3, s4];
    assert IsSnapshot(s1, [0]) by {
      assert s1.clients[Insecure] == 0 && [0][..1] == [0] && [0][1..] == [];
    }
    assert Next(s1, es[1]) == s2;
    assert Open(s4, 1);
  }

  /** Before event `n`, no client is made while `close_clients` waits; one that is open may be handed out. */
  ghost predicate NoRace(ss: seq<State>, es: seq<Event>, n: nat) {
    IsRun(ss, es) && n <= |es| && forall i | 0 <= i < n :: ss[i].shutdown.Some? ==> !Creates(ss[i], es[i])
  }

  ghost predicate Unraced(s: State) {
    s.shutdown.Some? ==> s.shutdown.value.since == |s.created|
  }

  /** No leak, in any run without such a race: every open client is in `_clients` or `_retired`. */
  lemma {:induction false} OpenClientsAreFound(ss: seq<State>, es: seq<Event>, n: nat)
    requires NoRace(ss, es, n)
    ensures NoLeak(ss[n]) && Covered(ss[n]) && Unraced(ss[n])
  {
    if n == 0 {
    } else {
      OpenClientsAreFound(ss, es, n - 1);
      RunInv(ss, es, n - 1);
      LeaksExactlyByRacing(ss[n - 1], es[n - 1]);
    }
  }

  /** After a shutdown without a race, every client ever made is closed. */
  lemma ShutdownClosesAll(ss: seq<State>, es: seq<Event>, n: nat)
    requires NoRace(ss, es, n + 1) && n < |es|
    requires (es[n].Close? || es[n].Resume?) && ss[n + 1].shutdown.None?
    ensures AllClosed(ss[n + 1])
  {
    OpenClientsAreFound(ss, es, n + 1);
    assert ss[n + 1] == Next(ss[n], es[n]);
    assert ss[n + 1].clients == map[] && ss[n + 1].retired == [];
  }

  /** No early close: a client that is open stays open until a shutdown begins, retired or not. */
  lemma {:induction false} NothingClosedEarly(ss: seq<State>, es: seq<Event>, m: nat, n: nat, id: ClientId)
    requires IsRun(ss, es) && m <= n <= |es| && ss[m].shutdown.None? && Open(ss[m], id)
    requires forall i | m <= i < n :: !es[i].Close?
    ensures ss[n].shutdown.None? && Open(ss[n], id)
  {
    if n == m {
    } else {
      NothingClosedEarly(ss, es, m, n - 1, id);
    }
  }

  // ---------- Rotation ----------

  /** Whatever is handed out, even during a shutdown, is open and was built for the key asked for. */
  lemma HandsOutOpen(ss: seq<State>, es: seq<Event>, n: nat)
    requires IsRun(ss, es) && n < |es|
    ensures match Given(ss[n], es[n])
            case Some(id) => Open(ss[n + 1], id) && ss[n + 1].created[id].key == es[n].key
            case None => !es[n].UsePlain?
  {
    RunInv(ss, es, n);
  }

  /** A certificate client is handed out only open, built for its key, from the files as just stamped. */
  lemma CertClientIsCurrent(ss: seq<State>, es: seq<Event>, n: nat, key: Key, stamp: Stamp, builds: bool)
    requires IsRun(ss, es) && n < |es| && es[n] == UseCert(key, Some(stamp), builds)
    ensures match Given(ss[n], es[n])
            case Some(id) => Open(ss[n + 1], id) && ss[n + 1].created[id] == Origin(key, Some(stamp))
            case None => !builds
  {
    RunInv(ss, es, n);
  }

  /** If a file cannot be read, nothing is handed out and nothing changes. */
  lemma UnreadableGivesNone(s: State, key: Key, builds: bool)
    ensures Given(s, UseCert(key, None, builds)) == None && Next(s, UseCert(key, None, builds)) == s
  {
  }

  /** The last client built for `key`. */
  function LastFor(created: seq<Origin>, key: Key): (r: Option<ClientId>)
    ensures r.Some? ==> r.value < |created|
  {
    if created == [] then None
    else if created[|created| - 1].key == key then Some(|created| - 1)
    else LastFor(created[..|created| - 1], key)
  }

  /** The pool holds the last client built for each key; and where it has forgotten it, that one is closed. */
  ghost predicate TracksBuilds(s: State) {
    && (forall k :: k in s.clients ==> LastFor(s.created, k) == Some(s.clients[k]))
    && (forall k: Key :: LastFor(s.created, k).Some? && Open(s, LastFor(s.created, k).value) ==> k in s.clients)
  }

  lemma TracksMake(s: State, e: Event)
    requires TracksBuilds(s) && Inv(s) && Enabled(s, e) && (e.UsePlain? || e.UseCert?)
    ensures TracksBuilds(Next(s, e))
  {
    if Creates(s, e) {
      var s' := Next(s, e);
      assert s'.created[..|s'.created| - 1] == s.created;
      assert forall k: Key :: LastFor(s'.created, k) == if k == e.key then Some(|s.created|) else LastFor(s.created, k);
    }
  }

  lemma TracksAdvance(s: State, list: seq<ClientId>, since: nat)
    requires TracksBuilds(s) && Inv(s)
    requires Advance(s, list, since).shutdown.None? ==> AllClosed(Advance(s, list, since))
    ensures TracksBuilds(Advance(s, list, since))
  {
  }

  lemma {:induction false} TracksRun(ss: seq<State>, es: seq<Event>, n: nat)
    requires NoRace(ss, es, n)
    ensures TracksBuilds(ss[n])
  {
    if n == 0 {
    } else {
      var s, e := ss[n - 1], es[n - 1];
      TracksRun(ss, es, n - 1);
      RunInv(ss, es, n - 1);
      if e.Close? || e.Resume? {
        if ss[n].shutdown.None? { ShutdownClosesAll(ss, es, n - 1); }
        hide AllClosed, TracksBuilds, Inv, Advance;
        if e.Close? {
          TracksAdvance(s, e.order, |s.created|);
        } else {
          TracksAdvance(s, s.shutdown.value.rest, s.shutdown.value.since);
        }
      } else {
        TracksMake(s, e);
      }
    }
  }

  /** The last client built for the key is open and was built from files with these stamps. */
  predicate StillGood(s: State, key: Key, stat: Option<Stamp>) {
    match LastFor(s.created, key)
    case None => false
    case Some(id) => Open(s, id) && s.created[id].stamp == stat
  }

  /** A client is built exactly when files and context can be read and the last one built for the key,
      if any, is closed or bears other stamps: before, during and after any number of shutdowns. */
  lemma RebuildsExactlyOnChange(ss: seq<State>, es: seq<Event>, n: nat, key: Key, stat: Option<Stamp>, builds: bool)
    requires NoRace(ss, es, n) && n < |es| && es[n] == UseCert(key, stat, builds)
    ensures ss[n + 1].created ==
            if stat.Some? && builds && !StillGood(ss[n], key, stat) then ss[n].created + [Origin(key, stat)]
            else ss[n].created
  {
    RunInv(ss, es, n);
    TracksRun(ss, es, n);
  }

  /** A plain client is built exactly when the last one built for the key, if any, is closed. */
  lemma PlainBuildsExactly(ss: seq<State>, es: seq<Event>, n: nat, key: Key)
    requires NoRace(ss, es, n) && n < |es| && es[n] == UsePlain(key)
    ensures ss[n + 1].created ==
            if LastFor(ss[n].created, key).Some? && Open(ss[n], LastFor(ss[n].created, key).value) then ss[n].created
            else ss[n].created + [Origin(key, None)]
  {
    RunInv(ss, es, n);
    TracksRun(ss, es, n);
  }

  /** Whatever is handed out is the last client built for the key. */
  lemma HandsOutLatest(ss: seq<State>, es: seq<Event>, n: nat)
    requires NoRace(ss, es, n) && n < |es| && Given(ss[n], es[n]).Some?
    ensures Given(ss[n], es[n]) == LastFor(ss[n + 1].created, es[n].key)
  {
    RunInv(ss, es, n);
    TracksRun(ss, es, n);
    TracksMake(ss[n], es[n]);
  }

  // ---------- The code ----------

  class ClientPool {
    var clients: map<Key, ClientId>
    var stamps: map<Key, Stamp>
    var retired: seq<ClientId>
    // httpx's side: the clients made, and which of them are closed.
    var created: seq<Origin>
    var closed: set<ClientId>
    var shutdown: Option<Shutdown>

    function View(): State
      reads this
    {
      State(clients, stamps, retired, created, closed, shutdown)
    }

    constructor ()
      ensures View() == INIT
    {
      clients, stamps, retired := map[], map[], [];
      created, closed, shutdown := [], {}, None;
    }

    /** `httpx.AsyncClient(...)`. */
    method NewClient(key: Key, stamp: Option<Stamp>) returns (id: ClientId)
      modifies this`created
      ensures id == |old(created)| && created == old(created) + [Origin(key, stamp)]
    {
      id := |created|;
      created := created + [Origin(key, stamp)];
    }

    /** `_client`. */
    method Client(key: Key) returns (client: ClientId)
      requires Enabled(View(), UsePlain(key))
      modifies this
      ensures View() == Next(old(View()), UsePlain(key))
      ensures Given(old(View()), UsePlain(key)) == Some(client)
    {
      if key !in clients || clients[key] in closed {
        client := NewClient(key, None);
        clients := clients[key := client];
      } else {
        client := clients[key];
      }
    }

    /** `_cert_client`. */
    method CertClient(key: Key, stat: Option<Stamp>, builds: bool) returns (client: Option<ClientId>)
      requires Enabled(View(), UseCert(key, stat, builds))
      modifies this
      ensures View() == Next(old(View()), UseCert(key, stat, builds))
      ensures client == Given(old(View()), UseCert(key, stat, builds))
    {
      if stat.None? {
        return None;
      }
      var stamp := stat.value;
      var usable := key in clients && clients[key] !in closed;
      if usable && key in stamps && stamps[key] == stamp {
        return Some(clients[key]);
      }
      if !builds {
        return None;
      }
      if usable {
        retired := retired + [clients[key]];
      }
      var rebuilt := NewClient(key, Some(stamp));
      clients := clients[key := rebuilt];
      stamps := stamps[key := stamp];
      client := Some(rebuilt);
    }

    /** The loop of `close_clients`: on to the next open client, or to the end. */
    method CloseNext(list: seq<ClientId>, since: nat)
      modifies this
      ensures View() == Advance(old(View()), list, since)
    {
      var i := 0;
      while i < |list| && list[i] in closed
        invariant i <= |list| && View() == old(View())
        invariant i + FirstOpen(list[i..], closed) == FirstOpen(list, closed)
      {
        assert list[i..][1..] == list[i + 1..];
        i := i + 1;
      }
      if i < |list| {
        closed := closed + {list[i]};
        shutdown := Some(Shutdown(list[i + 1..], since));
      } else {
        clients, stamps, retired, shutdown := map[], map[], [], None;
      }
    }

    /** `close_clients` up to its first await. */
    method BeginClose(order: seq<ClientId>)
      requires Enabled(View(), Close(order))
      modifies this
      ensures View() == Next(old(View()), Close(order))
    {
      CloseNext(order, |created|);
    }

    /** `close_clients` from one await to the next. */
    method ResumeClose()
      requires Enabled(View(), Resume)
      modifies this
      ensures View() == Next(old(View()), Resume)
    {
      CloseNext(shutdown.value.rest, shutdown.value.since);
    }

    /** `close_clients` left to itself. */
    method CloseClients(order: seq<ClientId>)
      requires Inv(View()) && NoLeak(View()) && Enabled(View(), Close(order))
      modifies this
      ensures clients == map[] && stamps == map[] && retired == [] && shutdown.None?
      ensures created == old(created) && AllClosed(View())
    {
      LeaksExactlyByRacing(View(), Close(order));
      InvNext(View(), Close(order));
      BeginClose(order);
      while shutdown.Some?
        invariant Inv(View()) && NoLeak(View()) && Covered(View()) && Unraced(View()) && created == old(created)
        invariant shutdown.None? ==> clients == map[] && stamps == map[] && retired == []
        decreases if shutdown.Some? then 1 + |shutdown.value.rest| else 0
      {
        LeaksExactlyByRacing(View(), Resume);
        InvNext(View(), Resume);
        ResumeClose();
      }
    }
  }
}
