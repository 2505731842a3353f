/** The mount table, one row per filesystem, the way df lists them. */
module Mounts {
  import opened Wrappers
  import Sets
  import opened OrderedDict
  import opened MountText

  const SKIP_TYPES := {
    "tmpfs", "devtmpfs", "ramfs", "squashfs", "iso9660", "udf", "erofs",
    "proc", "sysfs", "cgroup", "cgroup2", "devpts", "mqueue", "debugfs",
    "tracefs", "securityfs", "pstore", "bpf", "configfs", "fusectl",
    "hugetlbfs", "nsfs", "autofs", "rpc_pipefs", "binfmt_misc", "efivarfs",
    "selinuxfs"
  }

  datatype Device = Device(number: string)

  datatype Mount = Mount(source: string, fsType: string, mount: string)

  datatype ParseError = IndexError

  /** What one line amounts to, before the overlay rule. A line with exactly five fields passes
      the length guard and then has no options field to read. */
  datatype Line = Ignored | TooShort | Candidate(dev: Device, row: Mount)

  function ParseLine(line: string): Line {
    var at := Find(line);
    if at.None? then Ignored
    else
      var fields, tail := Split(line[..at.value]), Split(line[at.value + |SEPARATOR|..]);
      if |fields| < 5 || |tail| < 2 || tail[0] in SKIP_TYPES then Ignored
      else if |fields| == 5 then TooShort
      else if "ro" in SplitOn(fields[5], ',') then Ignored
      else Candidate(Device(fields[2]), Mount(Unescape(tail[1]), tail[0], Unescape(fields[4])))
  }

  function ParseAll(lines: seq<string>): seq<Line> {
    seq(|lines|, i requires 0 <= i < |lines| => ParseLine(lines[i]))
  }

  predicate IsOverlay(line: Line) {
    line.Candidate? && line.row.fsType == "overlay"
  }

  predicate RootOverlay(line: Line) {
    line.Candidate? && line.row.fsType == "overlay" && line.row.mount == "/"
  }

  /** Line `i` counts: it is a candidate and, if an overlay, the first one on "/". */
  predicate Eligible(lines: seq<Line>, i: int) {
    && 0 <= i < |lines| && lines[i].Candidate?
    && (lines[i].row.fsType == "overlay" ==>
          RootOverlay(lines[i]) && forall j :: 0 <= j < i ==> !RootOverlay(lines[j]))
  }

  predicate EligibleFor(lines: seq<Line>, i: int, dev: Device) {
    Eligible(lines, i) && lines[i].dev == dev
  }

  function Length(lines: seq<Line>, i: int): nat
    requires Eligible(lines, i)
  {
    |lines[i].row.mount|
  }

  /** Among the first `n` lines, line `i` is the earliest with the shortest mount point for `dev`. */
  ghost predicate IsBest(lines: seq<Line>, n: int, dev: Device, i: int) {
    && i < n && EligibleFor(lines, i, dev)
    && (forall j :: 0 <= j < n && EligibleFor(lines, j, dev) ==> Length(lines, i) <= Length(lines, j))
    && (forall j :: 0 <= j < i && EligibleFor(lines, j, dev) ==> Length(lines, i) < Length(lines, j))
  }

  /** `a` appears in an eligible line before `b` does. */
  ghost predicate AppearsBefore(lines: seq<Line>, n: int, a: Device, b: Device) {
    exists i :: i < n && EligibleFor(lines, i, a) && forall j :: j <= i ==> !EligibleFor(lines, j, b)
  }

  ghost predicate IsBestRow(lines: seq<Line>, n: int, dev: Device, row: Mount) {
    exists i :: IsBest(lines, n, dev, i) && row == lines[i].row
  }

  ghost predicate Listed(lines: seq<Line>, n: int, dev: Device) {
    exists i :: i < n && EligibleFor(lines, i, dev)
  }

  /** One row per device of the eligible lines, in order of first appearance, each the best line. */
  ghost predicate IsTable(lines: seq<Line>, n: int, t: Dict<Device, Mount>) {
    && t.Valid()
    && (forall dev :: dev in t.at <==> Listed(lines, n, dev))
    && (forall dev :: dev in t.at ==> IsBestRow(lines, n, dev, t.at[dev]))
    && InOrder(lines, n, t.keys)
  }

  ghost predicate InOrder(lines: seq<Line>, n: int, keys: seq<Device>) {
    forall a, b :: 0 <= a < b < |keys| ==> AppearsBefore(lines, n, keys[a], keys[b])
  }

  function Values(t: Dict<Device, Mount>): seq<Mount>
    requires t.Valid()
  {
    seq(|t.keys|, i requires 0 <= i < |t.keys| => assert t.keys[i] in t.keys; t.at[t.keys[i]])
  }

  /** What is to be returned: one row for each device of the eligible lines, in order of first appearance,
      each the earliest of the eligible lines with the shortest mount point for its device. */
  ghost predicate IsResult(lines: seq<Line>, r: seq<Mount>) {
    exists devices :: IsListing(lines, devices, r)
  }

  ghost predicate IsListing(lines: seq<Line>, devices: seq<Device>, r: seq<Mount>) {
    && |r| == |devices| && Distinct(devices) && InOrder(lines, |lines|, devices)
    && (forall dev :: dev in devices <==> Listed(lines, |lines|, dev))
    && (forall i :: 0 <= i < |r| ==> IsBestRow(lines, |lines|, devices[i], r[i]))
  }

  /** `parse_mountinfo`, from the lines on. */
  method ParseMountinfo(lines: seq<string>) returns (r: Result<seq<Mount>, ParseError>)
    ensures r.Failure? <==> TooShort in ParseAll(lines)
    ensures r.Success? ==> IsResult(ParseAll(lines), r.value) && OneRootOverlay(r.value)
  {
    hide IsTable, ParseLine;
    ghost var ls := ParseAll(lines);
    var byDev: Dict<Device, Mount> := Empty();
    EmptyTable(ls);
    var overlaySeen := false;
    for n := 0 to |lines|
      invariant forall i :: 0 <= i < n ==> !ls[i].TooShort?
      invariant overlaySeen <==> exists i :: 0 <= i < n && RootOverlay(ls[i])
      invariant byDev.Valid() && IsTable(ls, n, byDev)
    {
      var line := ParseLine(lines[n]);
      assert line == ls[n];
      if line.TooShort? {
        return Failure(IndexError);
      }
      if line.Ignored? || (IsOverlay(line) && (overlaySeen || line.row.mount != "/")) {
        SkipLine(ls, n, byDev);
      } else {
        if IsOverlay(line) {
          overlaySeen := true;
        }
        ghost var before := byDev;
        if line.dev !in byDev.at || |line.row.mount| < |byDev.at[line.dev].mount| {
          byDev := byDev.Put(line.dev, line.row);
        }
        AddLine(ls, n, before, byDev);
      }
    }
    r := Success(Values(byDev));
    TableIsListed(ls, byDev);
    OverlayRows(ls, r.value);
  }

  lemma EmptyTable(lines: seq<Line>)
    ensures IsTable(lines, 0, Empty())
  {
  }

  lemma SkipLine(lines: seq<Line>, n: nat, t: Dict<Device, Mount>)
    requires IsTable(lines, n, t) && !Eligible(lines, n)
    ensures IsTable(lines, n + 1, t)
  {
    hide IsBestRow, Listed, Eligible, InOrder;
    forall dev ensures dev in t.at <==> Listed(lines, n + 1, dev) {
      ListedStep(lines, n, dev);
    }
    forall dev | dev in t.at ensures IsBestRow(lines, n + 1, dev, t.at[dev]) {
      BestStays(lines, n, dev, t.at[dev]);
    }
    OrderGrows(lines, n, t.keys);
  }

  lemma ListedStep(lines: seq<Line>, n: nat, dev: Device)
    ensures Listed(lines, n + 1, dev) <==> Listed(lines, n, dev) || EligibleFor(lines, n, dev)
  {
    hide Eligible;
  }

  lemma BestStays(lines: seq<Line>, n: nat, dev: Device, row: Mount)
    requires IsBestRow(lines, n, dev, row)
    requires EligibleFor(lines, n, dev) ==> |row.mount| <= Length(lines, n)
    ensures IsBestRow(lines, n + 1, dev, row)
  {
    hide RootOverlay;
    var i :| IsBest(lines, n, dev, i) && row == lines[i].row;
    assert IsBest(lines, n + 1, dev, i);
  }

  /** A first line for its device, or one with a shorter mount point, becomes the best. */
  lemma BestChanges(lines: seq<Line>, n: nat, dev: Device, row: Mount)
    requires EligibleFor(lines, n, dev)
    requires !Listed(lines, n, dev) || (IsBestRow(lines, n, dev, row) && Length(lines, n) < |row.mount|)
    ensures IsBestRow(lines, n + 1, dev, lines[n].row)
  {
    hide Eligible;
    assert IsBest(lines, n + 1, dev, n);
  }

  lemma OrderGrows(lines: seq<Line>, n: nat, keys: seq<Device>)
    requires InOrder(lines, n, keys)
    ensures InOrder(lines, n + 1, keys)
  {
    hide Eligible;
    forall a, b | 0 <= a < b < |keys| ensures AppearsBefore(lines, n + 1, keys[a], keys[b]) {
      assert AppearsBefore(lines, n, keys[a], keys[b]);
    }
  }

  lemma NewcomerIsLast(lines: seq<Line>, n: nat, keys: seq<Device>, dev: Device)
    requires InOrder(lines, n + 1, keys) && !Listed(lines, n, dev)
    requires forall d :: d in keys ==> Listed(lines, n, d)
    ensures InOrder(lines, n + 1, keys + [dev])
  {
    hide Eligible;
    forall a | 0 <= a < |keys| ensures AppearsBefore(lines, n + 1, keys[a], dev) {
      assert keys[a] in keys;
      var i :| i < n && EligibleFor(lines, i, keys[a]);
    }
  }

  lemma AddLine(lines: seq<Line>, n: nat, t: Dict<Device, Mount>, t': Dict<Device, Mount>)
    requires IsTable(lines, n, t) && Eligible(lines, n)
    requires var Candidate(dev, row) := lines[n];
             t' == if dev !in t.at || |row.mount| < |t.at[dev].mount| then t.Put(dev, row) else t
    ensures IsTable(lines, n + 1, t')
  {
    hide IsBestRow, Listed, RootOverlay, InOrder;
    var Candidate(dev, row) := lines[n];
    assert EligibleFor(lines, n, dev);
    forall d ensures d in t'.at <==> Listed(lines, n + 1, d) {
      ListedStep(lines, n, d);
    }
    forall d | d in t'.at ensures IsBestRow(lines, n + 1, d, t'.at[d]) {
      if d == dev && t' != t {
        BestChanges(lines, n, dev, if dev in t.at then t.at[dev] else row);
      } else {
        BestStays(lines, n, d, t.at[d]);
      }
    }
    OrderGrows(lines, n, t.keys);
    if dev !in t.at {
      NewcomerIsLast(lines, n, t.keys, dev);
    }
  }

  /** The specification leaves no choice: any two tables are the same, order included. */
  lemma TableIsUnique(lines: seq<Line>, n: nat, t: Dict<Device, Mount>, u: Dict<Device, Mount>)
    requires IsTable(lines, n, t) && IsTable(lines, n, u)
    ensures t == u
  {
    hide IsBestRow, Listed, InOrder;
    assert t.at.Keys == u.at.Keys;
    forall d | d in t.at ensures t.at[d] == u.at[d] {
      BestIsUnique(lines, n, d, t.at[d], u.at[d]);
    }
    t.Size();
    u.Size();
    KeysAgree(lines, n, t.keys, u.keys);
  }

  lemma BestIsUnique(lines: seq<Line>, n: nat, d: Device, a: Mount, b: Mount)
    requires IsBestRow(lines, n, d, a) && IsBestRow(lines, n, d, b)
    ensures a == b
  {
    hide RootOverlay;
    var i :| IsBest(lines, n, d, i) && a == lines[i].row;
    var j :| IsBest(lines, n, d, j) && b == lines[j].row;
    assert i == j;
  }

  lemma {:induction false} KeysAgree(lines: seq<Line>, n: nat, a: seq<Device>, b: seq<Device>)
    requires Distinct(a) && Distinct(b) && InOrder(lines, n, a) && InOrder(lines, n, b) && |a| == |b|
    requires forall d :: d in a <==> d in b
    ensures a == b
  {
    if a == [] {
    } else {
      FirstsAgree(lines, n, a, b);
      assert forall d :: d in a[1..] <==> d in a && d != a[0];
      assert forall d :: d in b[1..] <==> d in b && d != b[0];
      KeysAgree(lines, n, a[1..], b[1..]);
      assert a == [a[0]] + a[1..] && b == [b[0]] + b[1..];
    }
  }

  lemma FirstsAgree(lines: seq<Line>, n: nat, a: seq<Device>, b: seq<Device>)
    requires InOrder(lines, n, a) && InOrder(lines, n, b) && a != [] && b != []
    requires a[0] in b && b[0] in a
    ensures a[0] == b[0]
  {
    var i :| 0 <= i < |a| && a[i] == b[0];
    var j :| 0 <= j < |b| && b[j] == a[0];
    assert i > 0 ==> AppearsBefore(lines, n, a[0], a[i]);
    assert j > 0 ==> AppearsBefore(lines, n, b[0], b[j]);
    NotBoth(lines, n, a[0], b[0]);
  }

  lemma NotBoth(lines: seq<Line>, n: nat, a: Device, b: Device)
    ensures !(AppearsBefore(lines, n, a, b) && AppearsBefore(lines, n, b, a))
  {
  }

  /** At most one overlay line ever counts. */
  lemma OneOverlay(lines: seq<Line>, i: int, j: int)
    requires Eligible(lines, i) && Eligible(lines, j)
    requires lines[i].row.fsType == "overlay" == lines[j].row.fsType
    ensures i == j
  {
    assert RootOverlay(lines[i]) && RootOverlay(lines[j]);
  }

  /** Of the overlays only one mounted on "/" is ever returned, and no more than one. */
  ghost predicate OneRootOverlay(r: seq<Mount>) {
    && (forall i :: 0 <= i < |r| && r[i].fsType == "overlay" ==> r[i].mount == "/")
    && (forall i, j :: 0 <= i < |r| && 0 <= j < |r| && r[i].fsType == "overlay" == r[j].fsType ==> i == j)
  }

  lemma OverlayRows(lines: seq<Line>, r: seq<Mount>)
    requires IsResult(lines, r)
    ensures OneRootOverlay(r)
  {
    var devices :| IsListing(lines, devices, r);
    forall i | 0 <= i < |r| && r[i].fsType == "overlay" ensures r[i].mount == "/" {
      var k := RowIsLine(lines, devices[i], r[i]);
    }
    forall i, j | 0 <= i < |r| && 0 <= j < |r| && r[i].fsType == "overlay" == r[j].fsType ensures i == j {
      var k := RowIsLine(lines, devices[i], r[i]);
      var m := RowIsLine(lines, devices[j], r[j]);
      OneOverlay(lines, k, m);
      assert k == m && devices[i] == devices[j];
    }
  }

  lemma RowIsLine(lines: seq<Line>, dev: Device, row: Mount) returns (k: int)
    requires IsBestRow(lines, |lines|, dev, row)
    ensures Eligible(lines, k) && lines[k] == Candidate(dev, row)
  {
    var i :| IsBest(lines, |lines|, dev, i) && row == lines[i].row;
    k := i;
  }

  /** Every line of another type that gets as far as the table has its device listed, with a mount point no
      longer than its own; and so has the first overlay on "/". */
  lemma OthersAreListed(lines: seq<Line>, devices: seq<Device>, r: seq<Mount>, k: nat)
    requires IsListing(lines, devices, r) && k < |lines| && lines[k].Candidate?
    requires lines[k].row.fsType == "overlay" ==>
               lines[k].row.mount == "/" && forall j :: 0 <= j < k ==> !RootOverlay(lines[j])
    ensures lines[k].dev in devices
    ensures forall i :: 0 <= i < |r| && devices[i] == lines[k].dev ==> |r[i].mount| <= |lines[k].row.mount|
  {
    assert EligibleFor(lines, k, lines[k].dev);
    assert Listed(lines, |lines|, lines[k].dev);
    forall i | 0 <= i < |r| && devices[i] == lines[k].dev ensures |r[i].mount| <= |lines[k].row.mount| {
      var m :| IsBest(lines, |lines|, devices[i], m) && r[i] == lines[m].row;
    }
  }

  lemma TableIsListed(lines: seq<Line>, t: Dict<Device, Mount>)
    requires IsTable(lines, |lines|, t)
    ensures IsListing(lines, t.keys, Values(t)) && IsResult(lines, Values(t))
  {
    hide IsBestRow, Listed, InOrder;
    forall i | 0 <= i < |t.keys| ensures IsBestRow(lines, |lines|, t.keys[i], Values(t)[i]) {
      assert t.keys[i] in t.keys;
    }
  }

  /** The specification leaves no choice: any two results are the same, order included. */
  lemma ResultIsUnique(lines: seq<Line>, r: seq<Mount>, q: seq<Mount>)
    requires IsResult(lines, r) && IsResult(lines, q)
    ensures r == q
  {
    hide IsBestRow, Listed, InOrder;
    var a :| IsListing(lines, a, r);
    var b :| IsListing(lines, b, q);
    Sets.SeqSize(a);
    Sets.SeqSize(b);
    assert Sets.Elements(a) == Sets.Elements(b);
    KeysAgree(lines, |lines|, a, b);
    forall i | 0 <= i < |r| ensures r[i] == q[i] {
      BestIsUnique(lines, |lines|, a[i], r[i], q[i]);
    }
  }

  lemma AroundSeparator(a: string, b: string)
    ensures var line := a + SEPARATOR + b; line[..|a|] == a && line[|a| + |SEPARATOR|..] == b
  {
  }

  lemma FieldsAreFields(fields: seq<string>)
    requires forall w :: w in fields ==> IsWord(w)
    ensures forall w :: w in fields ==> IsField(w)
  {
  }

  /** A line as the kernel renders it: the fields before and after the separator are read back. */
  lemma RenderedLine(fields: seq<string>, tail: seq<string>)
    requires fields != []
    requires (forall w :: w in fields ==> IsWord(w)) && (forall w :: w in tail ==> IsWord(w))
    requires forall i :: 1 <= i < |fields| ==> fields[i] != "-"
    ensures var line := Join(fields) + SEPARATOR + Join(tail);
            && Find(line) == Some(|Join(fields)|)
            && Split(line[..|Join(fields)|]) == fields
            && Split(line[|Join(fields)| + |SEPARATOR|..]) == tail
  {
    hide Split, Find, Join;
    FieldsAreFields(fields);
    FindSeparator(fields, Join(tail));
    SplitJoin(fields);
    SplitJoin(tail);
    AroundSeparator(Join(fields), Join(tail));
  }

  ghost predicate AllWords(ws: seq<string>) {
    forall w :: w in ws ==> IsWord(w)
  }

  /** Round trip: a line as the kernel writes it is read back for what it says, however its names
      needed escaping. `front` is id, parent, device and root; the mount `options` follow the mount
      point, the optional fields follow them. A writable mount of a storage filesystem is kept as it was. */
  lemma MountRoundTrip(front: seq<string>, options: seq<string>, optional: seq<string>, extra: seq<string>,
                       row: Mount, special: set<char>)
    requires '\\' in special && forall c :: c in special ==> c as int < 512
    requires |front| == 4 && AllWords(front) && AllWords(optional) && AllWords(extra) && IsWord(row.fsType)
    requires options != [] && IsWord(JoinOn(options, ',')) && forall option :: option in options ==> ',' !in option
    requires forall i :: 1 <= i < 4 ==> front[i] != "-"
    requires "-" !in optional && JoinOn(options, ',') != "-" && row.mount != "-"
    requires row.source != "" && row.mount != ""
    requires forall c :: (c in row.source || c in row.mount) && IsSpace(c) ==> c in special
    ensures var fields := front + [Escape(row.mount, special)] + [JoinOn(options, ',')] + optional;
            var tail := [row.fsType, Escape(row.source, special)] + extra;
            ParseLine(Join(fields) + SEPARATOR + Join(tail)) ==
              if row.fsType in SKIP_TYPES || "ro" in options then Ignored else Candidate(Device(front[2]), row)
  {
    hide Escape, Unescape, Join, JoinOn, Split, Find, SplitOn, IsWord, IsSpace;
    var fields := front + [Escape(row.mount, special)] + [JoinOn(options, ',')] + optional;
    var tail := [row.fsType, Escape(row.source, special)] + extra;
    EscapedIsWord(row.mount, special);
    EscapedIsWord(row.source, special);
    UnescapeInverts(row.mount, special);
    UnescapeInverts(row.source, special);
    EscapedIsNoDash(row.mount, special);
    SplitOnJoin(options, ',');
    RenderedLine(fields, tail);
  }

  /** What a line of the table is made of: the ids and the device; the names as written; the rest. */
  datatype Spelled = Spelled(ids: seq<string>, root: string, mount: string, options: seq<string>, optional: seq<string>,
                             fsType: string, source: string, extra: seq<string>)
  {
    ghost predicate Valid() {
      && |ids| == 3 && AllWords(ids) && AllWords(optional) && AllWords(extra) && IsWord(fsType)
      && options != [] && IsWord(JoinOn(options, ',')) && (forall option :: option in options ==> ',' !in option)
      && IsField(root) && IsField(mount)
      && ids[1] != "-" && ids[2] != "-" && root != "-" && mount != "-"
      && JoinOn(options, ',') != "-" && "-" !in optional
    }

    ghost function Before(): seq<string>
      requires options != []
    {
      ids + [root] + [mount] + ([JoinOn(options, ',')] + optional)
    }

    ghost function After(): seq<string> { [fsType] + [source] + extra }

    ghost function Line(): string
      requires options != []
    {
      Join(Before()) + SEPARATOR + Join(After())
    }

    /** The words that are read before the separator, and after it. */
    ghost function WordsBefore(): seq<string>
      requires options != []
    {
      ids + Split(root) + Split(mount) + ([JoinOn(options, ',')] + optional)
    }

    ghost function WordsAfter(): seq<string> { [fsType] + Split(source) + extra }
  }

  lemma WordsBeforeAre(l: Spelled)
    requires l.Valid()
    ensures Split(Join(l.Before())) == l.WordsBefore()
  {
    var rest := [JoinOn(l.options, ',')] + l.optional;
    SplitFields(l.Before());
    WordsOfWords(l.ids);
    WordsOfWords(rest);
    hide Split, IsWord, Join, JoinOn, WordsOf;
    WordsOfAppend(l.ids + [l.root] + [l.mount], rest);
    WordsOfAppend(l.ids + [l.root], [l.mount]);
    WordsOfAppend(l.ids, [l.root]);
    WordsOfOne(l.root);
    WordsOfOne(l.mount);
  }

  lemma WordsAfterAre(l: Spelled)
    requires l.Valid()
    ensures Split(Join(l.After())) == l.WordsAfter()
  {
    SplitFields(l.After());
    WordsOfWords([l.fsType]);
    WordsOfWords(l.extra);
    hide Split, IsWord, Join, WordsOf;
    WordsOfAppend([l.fsType] + [l.source], l.extra);
    WordsOfAppend([l.fsType], [l.source]);
    WordsOfOne(l.source);
  }

  lemma BeforeAreFields(l: Spelled)
    requires l.Valid()
    ensures forall w :: w in l.Before() ==> IsField(w)
    ensures forall i :: 1 <= i < |l.Before()| ==> l.Before()[i] != "-"
  {
    hide IsSpace, JoinOn;
    FieldsAreFields(l.ids);
    FieldsAreFields([JoinOn(l.options, ',')] + l.optional);
  }

  /** How a line falls apart, whatever white space its names hold. */
  lemma SpelledLine(l: Spelled)
    requires l.Valid()
    ensures var at := |Join(l.Before())|;
            && Find(l.Line()) == Some(at)
            && Split(l.Line()[..at]) == l.WordsBefore() && Split(l.Line()[at + |SEPARATOR|..]) == l.WordsAfter()
  {
    BeforeAreFields(l);
    WordsBeforeAre(l);
    WordsAfterAre(l);
    FindSeparator(l.Before(), Join(l.After()));
    hide Split, Find, Join;
    AroundSeparator(Join(l.Before()), Join(l.After()));
  }

  /** What a line is read as, from its words: the fifth is the mount point, the sixth the options. */
  function Reading(fields: seq<string>, tail: seq<string>): Line
    requires |fields| > 5 && |tail| >= 2
  {
    if tail[0] in SKIP_TYPES || "ro" in SplitOn(fields[5], ',') then Ignored
    else Candidate(Device(fields[2]), Mount(Unescape(tail[1]), tail[0], Unescape(fields[4])))
  }

  lemma ReadFields(line: string, at: nat)
    requires Find(line) == Some(at)
    ensures var fields, tail := Split(line[..at]), Split(line[at + |SEPARATOR|..]);
            |fields| > 5 && |tail| >= 2 ==> ParseLine(line) == Reading(fields, tail)
  {
    hide Split, Find, SplitOn, Unescape;
  }

  /** A line whose root is one word is read by the first words of its mount point and its source. */
  lemma SpelledNames(l: Spelled)
    requires l.Valid() && |Split(l.root)| == 1 && Split(l.mount) != [] && Split(l.source) != []
    ensures ParseLine(l.Line()).Candidate? ==>
              && ParseLine(l.Line()).row == Mount(Unescape(Split(l.source)[0]), l.fsType, Unescape(Split(l.mount)[0]))
              && ParseLine(l.Line()).dev == Device(l.ids[2]) && l.fsType !in SKIP_TYPES
    ensures |Split(l.mount)| == 1 && |Split(l.source)| == 1 ==>
              (ParseLine(l.Line()).Candidate? <==> l.fsType !in SKIP_TYPES && "ro" !in l.options)
  {
    SpelledLine(l);
    SplitOnJoin(l.options, ',');
    hide Split, Find, Join, JoinOn, Unescape, SplitOn, IsWord, ParseLine;
    ReadFields(l.Line(), |Join(l.Before())|);
    var fields, tail := l.WordsBefore(), l.WordsAfter();
    assert fields[4] == Split(l.mount)[0] && fields[2] == l.ids[2];
    assert tail[1] == Split(l.source)[0] && tail[0] == l.fsType;
    assert |Split(l.mount)| == 1 ==> fields[5] == JoinOn(l.options, ',');
  }

  /** A root that falls apart shifts the fields: its second word is taken for the mount point, whatever
      that was, and the word after it for the options. */
  lemma RootShifts(l: Spelled)
    requires l.Valid() && |Split(l.root)| >= 2 && Split(l.mount) != [] && Split(l.source) != []
    ensures var root := Split(l.root);
            var options := if |root| > 2 then root[2] else Split(l.mount)[0];
            ParseLine(l.Line()) ==
              if l.fsType in SKIP_TYPES || "ro" in SplitOn(options, ',') then Ignored
              else Candidate(Device(l.ids[2]), Mount(Unescape(Split(l.source)[0]), l.fsType, Unescape(root[1])))
  {
    SpelledLine(l);
    hide Split, Find, Join, JoinOn, Unescape, SplitOn, IsWord, ParseLine;
    ReadFields(l.Line(), |Join(l.Before())|);
    var fields, tail := l.WordsBefore(), l.WordsAfter();
    assert fields[4] == Split(l.root)[1] && fields[2] == l.ids[2];
    assert tail[1] == Split(l.source)[0] && tail[0] == l.fsType;
    assert fields[5] == if |Split(l.root)| > 2 then Split(l.root)[2] else Split(l.mount)[0];
  }

  /** Which names survive. If the escaped root is one word, a mount is read back as it is, device, type
      and both names, if and only if it is writable, of a storage filesystem, and all white space in its
      two names is of the kind the kernel escapes. (A name of nothing but other white space is left aside.) */
  lemma NamesReadBack(l: Spelled, row: Mount, special: set<char>)
    requires ' ' in special && '\\' in special && forall c :: c in special ==> c as int < 512
    requires l.Valid() && l.fsType == row.fsType && |Split(l.root)| == 1
    requires l.mount == Escape(row.mount, special) && l.source == Escape(row.source, special)
    requires exists i :: 0 <= i < |row.mount| && !IsBare(row.mount[i], special)
    requires exists i :: 0 <= i < |row.source| && !IsBare(row.source[i], special)
    ensures ParseLine(l.Line()) == Candidate(Device(l.ids[2]), row) <==>
              && row.fsType !in SKIP_TYPES && "ro" !in l.options
              && NoneBare(row.mount, special) && NoneBare(row.source, special)
  {
    var partOfMount := FirstWord(row.mount, special);
    var partOfSource := FirstWord(row.source, special);
    UnescapeInverts(partOfMount, special);
    UnescapeInverts(partOfSource, special);
    SpelledNames(l);
    if NoneBare(row.mount, special) && NoneBare(row.source, special) {
      SolidSplits(row.mount, special);
      SolidSplits(row.source, special);
      UnescapeInverts(row.mount, special);
      UnescapeInverts(row.source, special);
    }
    hide Split, Find, Join, JoinOn, Unescape, SplitOn, IsWord, ParseLine, Escape, NoneBare, IsBare;
  }

  /** Two concrete kinds of root: with no bare white space it is one word; with some in the middle, the
      mount is read back as mounted on what follows it. */
  lemma RootsOfBothKinds(l: Spelled, a: string, c: char, b: string, special: set<char>)
    requires '\\' in special && forall d :: d in special ==> d as int < 512
    requires a != [] && b != [] && NoneBare(a, special) && NoneBare(b, special) && IsBare(c, special)
    ensures |Split(Escape(a, special))| == 1
    ensures l.Valid() && l.root == Escape(a + [c] + b, special) && Split(l.mount) != [] && Split(l.source) != [] ==>
              (ParseLine(l.Line()).Candidate? ==> ParseLine(l.Line()).row.mount == b)
  {
    SolidSplits(a, special);
    NameFallsApart(a, c, b, special);
    UnescapeInverts(b, special);
    hide Split, Unescape, Escape, ParseLine, NoneBare;
    if l.Valid() && l.root == Escape(a + [c] + b, special) && Split(l.mount) != [] && Split(l.source) != [] {
      RootShifts(l);
    }
  }

  /** The escaped form of any name is a field, so every line of the kernel's is covered above. */
  lemma EscapedIsField(s: string, special: set<char>)
    requires s != [] && ' ' in special && forall c :: c in special ==> c as int < 512
    ensures IsField(Escape(s, special))
  {
    var e := Escape(s, special);
    forall i | 0 <= i < |e| ensures e[i] != ' ' {
      EscapedIsClean(s, special, e[i]);
    }
  }

  /** Lines with too little in them are passed over, but the guard and the field read after it disagree
      by one: with a mount point and no options the line is an error, unless its type is skipped first. */
  lemma ShortLines(fields: seq<string>, tail: seq<string>)
    requires AllWords(fields) && AllWords(tail) && fields != [] && (|fields| <= 5 || |tail| < 2)
    requires forall i :: 1 <= i < |fields| ==> fields[i] != "-"
    ensures ParseLine(Join(fields) + SEPARATOR + Join(tail)) ==
              if |fields| < 5 || |tail| < 2 || tail[0] in SKIP_TYPES then Ignored else TooShort
  {
    hide Unescape, Join, Split, Find, SplitOn, IsWord;
    RenderedLine(fields, tail);
  }
}
