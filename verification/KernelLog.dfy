/** The kernel log scan: each line counts for the first rule it matches. */
module KernelLog {
  import opened Wrappers
  import opened OrderedDict
  import Sets

  type Time = real

  datatype Rule = Rule(source: string, severity: string, title: string, patterns: seq<string>, excludes: seq<string>)

  /** What the regular expressions and `strip` answer. `iso` and `mono` give the stamp they find at
      the front and the rest of the line; an ISO stamp may turn out not to be a date. */
  datatype Patterns = Patterns(
    search: (string, string) -> bool,
    iso: string -> Option<(Option<Time>, string)>,
    mono: string -> Option<(real, string)>,
    strip: string -> string)

  datatype Options = Options(boot: Option<Time>, cutoff: Option<Time>)

  datatype Finding = Finding(rule: Rule, count: nat, sample: seq<string>)

  datatype Parsed = Parsed(stamp: Option<Time>, message: string)

  /** `Rule.matches`: a line that hits an exclusion is never treated as a fault. */
  predicate Matches(p: Patterns, rule: Rule, message: string) {
    && (forall x :: x in rule.excludes ==> !p.search(x, message))
    && (exists x :: x in rule.patterns && p.search(x, message))
  }

  function ParseLine(p: Patterns, raw: string, boot: Option<Time>): Parsed {
    match p.iso(raw)
    case Some((stamp, rest)) => Parsed(stamp, rest)
    case None =>
      match p.mono(raw)
      case Some((seconds, rest)) => Parsed(if boot.Some? then Some(boot.value + seconds) else None, rest)
      case None => Parsed(None, raw)
  }

  /** Neither blank nor aged out. */
  predicate Kept(p: Patterns, raw: string, o: Options) {
    && p.strip(raw) != ""
    && var stamp := ParseLine(p, raw, o.boot).stamp;
       !(o.cutoff.Some? && stamp.Some? && stamp.value < o.cutoff.value)
  }

  function Message(p: Patterns, raw: string, o: Options): string {
    ParseLine(p, raw, o.boot).message
  }

  /** Rule `r` is the first in the list that the line matches. */
  predicate IsFirst(p: Patterns, rules: seq<Rule>, raw: string, o: Options, r: int) {
    && 0 <= r < |rules| && Matches(p, rules[r], Message(p, raw, o))
    && forall q :: 0 <= q < r ==> !Matches(p, rules[q], Message(p, raw, o))
  }

  predicate CountsFor(p: Patterns, rules: seq<Rule>, raw: string, o: Options, r: int) {
    Kept(p, raw, o) && IsFirst(p, rules, raw, o, r)
  }

  /** The messages filed under rule `r`, in order. */
  function Hits(p: Patterns, rules: seq<Rule>, lines: seq<string>, o: Options, r: nat): seq<string> {
    if lines == [] then []
    else
      var raw := lines[|lines| - 1];
      Hits(p, rules, lines[..|lines| - 1], o, r)
      + if CountsFor(p, rules, raw, o, r) then [p.strip(Message(p, raw, o))] else []
  }

  /** The last two messages, cut to 120 characters. */
  function Sample(messages: seq<string>): (r: seq<string>)
    ensures |r| == if |messages| < 2 then |messages| else 2
    ensures forall i :: 0 <= i < |r| ==>
      var whole := messages[|messages| - |r| + i]; r[i] <= whole && (r[i] == whole || |r[i]| == 120) && |r[i]| <= 120
  {
    var last := if |messages| <= 2 then messages else messages[|messages| - 2..];
    seq(|last|, i requires 0 <= i < |last| => if |last[i]| <= 120 then last[i] else last[i][..120])
  }

  function Summary(rule: Rule, messages: seq<string>): seq<Finding> {
    if messages == [] then [] else [Finding(rule, |messages|, Sample(messages))]
  }

  /** One finding for each of the first `n` rules that was hit, in the order of the rules. */
  function Findings(p: Patterns, rules: seq<Rule>, lines: seq<string>, o: Options, n: nat): seq<Finding>
    requires n <= |rules|
  {
    if n == 0 then []
    else Findings(p, rules, lines, o, n - 1) + Summary(rules[n - 1], Hits(p, rules, lines, o, n - 1))
  }

  /** `hits` holds exactly what was filed; a rule that is missing was not hit. */
  ghost predicate Filed(p: Patterns, rules: seq<Rule>, lines: seq<string>, o: Options, hits: map<Rule, seq<string>>) {
    forall r :: 0 <= r < |rules| ==> Of(hits, rules[r]) == Hits(p, rules, lines, o, r)
  }

  function Of(hits: map<Rule, seq<string>>, rule: Rule): seq<string> {
    if rule in hits then hits[rule] else []
  }

  /** The inner loop of `scan`: the first rule that matches, or none. */
  method FirstMatch(p: Patterns, rules: seq<Rule>, message: string) returns (r: nat)
    ensures r <= |rules| && (r < |rules| ==> Matches(p, rules[r], message))
    ensures forall q :: 0 <= q < r ==> !Matches(p, rules[q], message)
  {
    r := 0;
    while r < |rules| && !Matches(p, rules[r], message)
      invariant r <= |rules|
      invariant forall q :: 0 <= q < r ==> !Matches(p, rules[q], message)
    {
      r := r + 1;
    }
  }

  lemma FileLine(p: Patterns, rules: seq<Rule>, lines: seq<string>, raw: string, o: Options,
                 hits: map<Rule, seq<string>>, hits': map<Rule, seq<string>>, r: nat)
    requires Distinct(rules) && Filed(p, rules, lines, o, hits) && r <= |rules|
    requires forall q :: 0 <= q < |rules| ==> (CountsFor(p, rules, raw, o, q) <==> q == r)
    requires hits' == FileUnder(hits, rules, r, p.strip(Message(p, raw, o)))
    ensures Filed(p, rules, lines + [raw], o, hits')
  {
    hide CountsFor, Message;
    assert (lines + [raw])[..|lines|] == lines;
    forall q | 0 <= q < |rules| ensures Of(hits', rules[q]) == Hits(p, rules, lines + [raw], o, q) {
      assert Of(hits, rules[q]) == Hits(p, rules, lines, o, q);
    }
  }

  /** `hits.setdefault(rule, []).append(message)`, for the rule found, if any. */
  function FileUnder(hits: map<Rule, seq<string>>, rules: seq<Rule>, r: nat, message: string): map<Rule, seq<string>>
    requires r <= |rules|
  {
    if r == |rules| then hits else hits[rules[r] := Of(hits, rules[r]) + [message]]
  }

  /** A line counts for the rule under which it is filed, and for no other. */
  lemma CountsForFirst(p: Patterns, rules: seq<Rule>, raw: string, o: Options, r: nat)
    requires r <= |rules|
    requires if Kept(p, raw, o) then r < |rules| ==> IsFirst(p, rules, raw, o, r) else r == |rules|
    requires Kept(p, raw, o) && r == |rules| ==>
               forall q :: 0 <= q < |rules| ==> !Matches(p, rules[q], Message(p, raw, o))
    ensures forall q :: 0 <= q < |rules| ==> (CountsFor(p, rules, raw, o, q) <==> q == r)
  {
    hide Kept, Matches, Message;
  }

  /** The body of the first loop of `scan`. */
  method FileNext(p: Patterns, rules: seq<Rule>, ghost lines: seq<string>, raw: string, o: Options,
                  hits: map<Rule, seq<string>>) returns (hits': map<Rule, seq<string>>)
    requires Distinct(rules) && Filed(p, rules, lines, o, hits)
    ensures Filed(p, rules, lines + [raw], o, hits')
  {
    hide Filed, Matches, Hits;
    hits' := hits;
    ghost var r := |rules|;
    if Kept(p, raw, o) {
      var message := Message(p, raw, o);
      var first := FirstMatch(p, rules, message);
      r := first;
      if first < |rules| {
        hits' := hits[rules[first] := Of(hits, rules[first]) + [p.strip(message)]];
      }
    }
    CountsForFirst(p, rules, raw, o, r);
    FileLine(p, rules, lines, raw, o, hits, hits', r);
  }

  /** `scan`. The rules of the source are pairwise different. */
  method Scan(p: Patterns, rules: seq<Rule>, lines: seq<string>, o: Options) returns (warnings: seq<Finding>)
    requires Distinct(rules)
    ensures warnings == Findings(p, rules, lines, o, |rules|)
  {
    NothingFiled(p, rules, o);
    hide *;
    var hits: map<Rule, seq<string>> := map[];
    assert lines[..0] == [];
    for i := 0 to |lines|
      invariant Filed(p, rules, lines[..i], o, hits)
    {
      hits := FileNext(p, rules, lines[..i], lines[i], o, hits);
      assert lines[..i + 1] == lines[..i] + [lines[i]];
    }
    assert lines[..|lines|] == lines;
    warnings := Report(p, rules, lines, o, hits);
  }

  lemma NothingFiled(p: Patterns, rules: seq<Rule>, o: Options)
    ensures Filed(p, rules, [], o, map[])
  {
  }

  /** The second loop of `scan`. */
  method Report(p: Patterns, rules: seq<Rule>, ghost lines: seq<string>, ghost o: Options, hits: map<Rule, seq<string>>)
      returns (warnings: seq<Finding>)
    requires Filed(p, rules, lines, o, hits)
    ensures warnings == Findings(p, rules, lines, o, |rules|)
  {
    hide Hits, Sample;
    warnings := [];
    for r := 0 to |rules|
      invariant warnings == Findings(p, rules, lines, o, r)
    {
      if rules[r] in hits && hits[rules[r]] != [] {
        var messages := hits[rules[r]];
        warnings := warnings + [Finding(rules[r], |messages|, Sample(messages))];
      }
    }
  }

  // ---------- What the counts mean ----------

  /** The lines that count for rule `r`. */
  ghost function LinesFor(p: Patterns, rules: seq<Rule>, lines: seq<string>, o: Options, r: int): set<int> {
    set i | 0 <= i < |lines| && CountsFor(p, rules, lines[i], o, r)
  }

  /** The lines kept that match any rule at all. */
  ghost function Matched(p: Patterns, rules: seq<Rule>, lines: seq<string>, o: Options): set<int> {
    set i | 0 <= i < |lines| && Kept(p, lines[i], o)
      && exists r :: 0 <= r < |rules| && Matches(p, rules[r], Message(p, lines[i], o))
  }

  lemma LinesForStep(p: Patterns, rules: seq<Rule>, lines: seq<string>, raw: string, o: Options, r: int)
    ensures LinesFor(p, rules, lines + [raw], o, r)
         == LinesFor(p, rules, lines, o, r) + if CountsFor(p, rules, raw, o, r) then {|lines|} else {}
  {
    hide CountsFor;
  }

  /** A count is the number of kept lines whose first match is that rule. */
  lemma {:induction false} CountIsLines(p: Patterns, rules: seq<Rule>, lines: seq<string>, o: Options, r: nat)
    ensures |Hits(p, rules, lines, o, r)| == |LinesFor(p, rules, lines, o, r)|
  {
    hide CountsFor, Message;
    if lines == [] {
    } else {
      var n := |lines| - 1;
      CountIsLines(p, rules, lines[..n], o, r);
      LinesForStep(p, rules, lines[..n], lines[n], o, r);
      assert lines[..n] + [lines[n]] == lines;
      assert n !in LinesFor(p, rules, lines[..n], o, r);
    }
  }

  /** The places of the lines that count for rule `r`. */
  function PlacesFor(p: Patterns, rules: seq<Rule>, lines: seq<string>, o: Options, r: nat): seq<nat> {
    if lines == [] then []
    else
      var n := |lines| - 1;
      PlacesFor(p, rules, lines[..n], o, r) + if CountsFor(p, rules, lines[n], o, r) then [n] else []
  }

  lemma {:induction false} PlacesAre(p: Patterns, rules: seq<Rule>, lines: seq<string>, o: Options, r: nat)
    ensures Ascends(PlacesFor(p, rules, lines, o, r), |lines|)
    ensures forall k: nat :: k in PlacesFor(p, rules, lines, o, r) <==> k in LinesFor(p, rules, lines, o, r)
  {
    hide CountsFor, LinesFor;
    if lines == [] {
      NoLinesFor(p, rules, o, r);
    } else {
      var front, raw := lines[..|lines| - 1], lines[|lines| - 1];
      PlacesAre(p, rules, front, o, r);
      LinesForStep(p, rules, front, raw, o, r);
      assert front + [raw] == lines;
    }
  }

  lemma NoLinesFor(p: Patterns, rules: seq<Rule>, o: Options, r: nat)
    ensures LinesFor(p, rules, [], o, r) == {}
  {
  }

  lemma {:induction false} HitsAt(p: Patterns, rules: seq<Rule>, lines: seq<string>, o: Options, r: nat)
    ensures var at, hits := PlacesFor(p, rules, lines, o, r), Hits(p, rules, lines, o, r);
            && |at| == |hits|
            && forall i :: 0 <= i < |at| ==> at[i] < |lines| && hits[i] == p.strip(Message(p, lines[at[i]], o))
  {
    hide CountsFor, Message;
    if lines == [] {
    } else {
      HitsAt(p, rules, lines[..|lines| - 1], o, r);
    }
  }

  /** What is filed under a rule: the messages of the lines that count for it, stripped, in order. */
  lemma HitsInOrder(p: Patterns, rules: seq<Rule>, lines: seq<string>, o: Options, r: nat) returns (at: seq<nat>)
    ensures forall i, j :: 0 <= i < j < |at| ==> at[i] < at[j]
    ensures forall k: nat :: k in at <==> k in LinesFor(p, rules, lines, o, r)
    ensures |at| == |Hits(p, rules, lines, o, r)|
    ensures forall i :: 0 <= i < |at| ==>
              at[i] < |lines| && Hits(p, rules, lines, o, r)[i] == p.strip(Message(p, lines[at[i]], o))
  {
    hide Hits, PlacesFor, LinesFor, Message;
    at := PlacesFor(p, rules, lines, o, r);
    PlacesAre(p, rules, lines, o, r);
    HitsAt(p, rules, lines, o, r);
  }

  /** A stamp that is earlier than a cutoff; without the one or the other nothing is. */
  predicate Before(stamp: Option<Time>, cutoff: Option<Time>) {
    stamp.Some? && cutoff.Some? && stamp.value < cutoff.value
  }

  /** Which lines are looked at, and what of them: not blank, and not stamped before the cutoff, where a
      stamp is an ISO date or seconds since a known boot; and the text after the stamp. */
  lemma StampsAndMessages(p: Patterns, raw: string, o: Options)
    ensures p.iso(raw).Some? ==>
              && Message(p, raw, o) == p.iso(raw).value.1
              && (Kept(p, raw, o) <==> p.strip(raw) != "" && !Before(p.iso(raw).value.0, o.cutoff))
    ensures p.iso(raw).None? && p.mono(raw).Some? ==>
              && Message(p, raw, o) == p.mono(raw).value.1
              && (o.boot.None? ==> (Kept(p, raw, o) <==> p.strip(raw) != ""))
              && (o.boot.Some? ==>
                    var stamp := Some(o.boot.value + p.mono(raw).value.0);
                    (Kept(p, raw, o) <==> p.strip(raw) != "" && !Before(stamp, o.cutoff)))
    ensures p.iso(raw).None? && p.mono(raw).None? ==>
              Message(p, raw, o) == raw && (Kept(p, raw, o) <==> p.strip(raw) != "")
  {
  }

  /** A line that hits an exclusion of a rule never counts for it; one that counts hits a pattern of it. */
  lemma ExcludedIsNoFault(p: Patterns, rules: seq<Rule>, lines: seq<string>, o: Options, r: nat, i: int)
    requires i in LinesFor(p, rules, lines, o, r)
    ensures 0 <= i < |lines| && r < |rules|
    ensures forall x :: x in rules[r].excludes ==> !p.search(x, Message(p, lines[i], o))
    ensures exists x :: x in rules[r].patterns && p.search(x, Message(p, lines[i], o))
  {
  }

  function Sum(p: Patterns, rules: seq<Rule>, lines: seq<string>, o: Options, n: nat): nat {
    if n == 0 then 0 else Sum(p, rules, lines, o, n - 1) + |Hits(p, rules, lines, o, n - 1)|
  }

  ghost function LinesUpTo(p: Patterns, rules: seq<Rule>, lines: seq<string>, o: Options, n: nat): set<int> {
    if n == 0 then {} else LinesUpTo(p, rules, lines, o, n - 1) + LinesFor(p, rules, lines, o, n - 1)
  }

  ghost predicate CountsBelow(p: Patterns, rules: seq<Rule>, raw: string, o: Options, n: nat) {
    exists r :: 0 <= r < n && CountsFor(p, rules, raw, o, r)
  }

  lemma {:induction false} UpToAre(p: Patterns, rules: seq<Rule>, lines: seq<string>, o: Options, n: nat)
    ensures forall i :: i in LinesUpTo(p, rules, lines, o, n) <==>
              0 <= i < |lines| && CountsBelow(p, rules, lines[i], o, n)
  {
    hide CountsFor;
    if n == 0 {
    } else {
      UpToAre(p, rules, lines, o, n - 1);
      forall i | 0 <= i < |lines|
        ensures CountsBelow(p, rules, lines[i], o, n) <==>
                CountsBelow(p, rules, lines[i], o, n - 1) || CountsFor(p, rules, lines[i], o, n - 1)
      {
      }
    }
  }

  lemma {:induction false} UpToSize(p: Patterns, rules: seq<Rule>, lines: seq<string>, o: Options, n: nat)
    ensures |LinesUpTo(p, rules, lines, o, n)| == Sum(p, rules, lines, o, n)
  {
    hide CountsFor, Hits, LinesFor;
    if n == 0 {
    } else {
      UpToSize(p, rules, lines, o, n - 1);
      CountIsLines(p, rules, lines, o, n - 1);
      Disjoint(p, rules, lines, o, n - 1);
    }
  }

  lemma Disjoint(p: Patterns, rules: seq<Rule>, lines: seq<string>, o: Options, n: nat)
    ensures LinesUpTo(p, rules, lines, o, n) !! LinesFor(p, rules, lines, o, n)
  {
    hide CountsFor;
    UpToAre(p, rules, lines, o, n);
    forall i | i in LinesUpTo(p, rules, lines, o, n) ensures i !in LinesFor(p, rules, lines, o, n) {
      var r :| 0 <= r < n && CountsFor(p, rules, lines[i], o, r);
      OnlyOne(p, rules, lines[i], o, r, n);
    }
  }

  lemma OnlyOne(p: Patterns, rules: seq<Rule>, raw: string, o: Options, q: int, r: int)
    requires CountsFor(p, rules, raw, o, q) && q != r
    ensures !CountsFor(p, rules, raw, o, r)
  {
  }

  lemma {:induction false} FirstExists(p: Patterns, rules: seq<Rule>, raw: string, o: Options, n: nat)
    requires n < |rules| && Matches(p, rules[n], Message(p, raw, o))
    ensures exists r :: 0 <= r <= n && IsFirst(p, rules, raw, o, r)
    decreases n
  {
    if q :| 0 <= q < n && Matches(p, rules[q], Message(p, raw, o)) {
      FirstExists(p, rules, raw, o, q);
    } else {
      assert IsFirst(p, rules, raw, o, n);
    }
  }

  /** Conservation: every matched line is counted exactly once. */
  lemma CountsAddUp(p: Patterns, rules: seq<Rule>, lines: seq<string>, o: Options)
    ensures Sum(p, rules, lines, o, |rules|) == |Matched(p, rules, lines, o)|
  {
    UpToAre(p, rules, lines, o, |rules|);
    UpToSize(p, rules, lines, o, |rules|);
    forall i ensures i in LinesUpTo(p, rules, lines, o, |rules|) <==> i in Matched(p, rules, lines, o) {
      if i in Matched(p, rules, lines, o) {
        var r :| 0 <= r < |rules| && Matches(p, rules[r], Message(p, lines[i], o));
        FirstExists(p, rules, lines[i], o, r);
        var q :| 0 <= q <= r && IsFirst(p, rules, lines[i], o, q);
        assert CountsFor(p, rules, lines[i], o, q);
      }
    }
    assert LinesUpTo(p, rules, lines, o, |rules|) == Matched(p, rules, lines, o);
  }

  /** Scanning two logs in a row files what scanning each files, in that order. */
  lemma {:induction false} HitsAppend(p: Patterns, rules: seq<Rule>, a: seq<string>, b: seq<string>, o: Options, r: nat)
    ensures Hits(p, rules, a + b, o, r) == Hits(p, rules, a, o, r) + Hits(p, rules, b, o, r)
  {
    if b == [] {
      assert a + b == a;
    } else {
      assert (a + b)[..|a + b| - 1] == a + b[..|b| - 1];
      HitsAppend(p, rules, a, b[..|b| - 1], o, r);
    }
  }

  /** A cutoff at `b` is no earlier than one at `a`; no cutoff is the earliest. */
  predicate NoEarlier(a: Option<Time>, b: Option<Time>) {
    a.None? || (b.Some? && a.value <= b.value)
  }

  /** A later cutoff never raises a count: it only removes stamped lines. */
  lemma LaterCutoffCountsLess(p: Patterns, rules: seq<Rule>, lines: seq<string>, boot: Option<Time>,
                              a: Option<Time>, b: Option<Time>, r: nat)
    requires NoEarlier(a, b)
    ensures |Hits(p, rules, lines, Options(boot, b), r)| <= |Hits(p, rules, lines, Options(boot, a), r)|
    ensures var early, late := Options(boot, a), Options(boot, b);
            forall i :: i in LinesFor(p, rules, lines, early, r) - LinesFor(p, rules, lines, late, r) ==>
              0 <= i < |lines| && ParseLine(p, lines[i], boot).stamp.Some?
  {
    var early, late := Options(boot, a), Options(boot, b);
    CountIsLines(p, rules, lines, early, r);
    CountIsLines(p, rules, lines, late, r);
    Sets.SubsetSize(LinesFor(p, rules, lines, late, r), LinesFor(p, rules, lines, early, r));
  }

  /** The finding names the rule, counts its messages and shows a sample of them. */
  predicate IsFinding(f: Finding, rule: Rule, messages: seq<string>) {
    f.rule == rule && f.count == |messages| && f.sample == Sample(messages)
  }

  /** The first `n` rules that were hit. */
  function RulesHit(p: Patterns, rules: seq<Rule>, lines: seq<string>, o: Options, n: nat): seq<nat> {
    if n == 0 then []
    else RulesHit(p, rules, lines, o, n - 1) + if Hits(p, rules, lines, o, n - 1) != [] then [n - 1] else []
  }

  ghost predicate Ascends(at: seq<nat>, n: nat) {
    (forall i :: 0 <= i < |at| ==> at[i] < n) && forall i, j :: 0 <= i < j < |at| ==> at[i] < at[j]
  }

  lemma {:induction false} RulesHitAre(p: Patterns, rules: seq<Rule>, lines: seq<string>, o: Options, n: nat)
    ensures Ascends(RulesHit(p, rules, lines, o, n), n)
    ensures forall r: nat :: r in RulesHit(p, rules, lines, o, n) <==> r < n && Hits(p, rules, lines, o, r) != []
  {
    hide Hits;
    if n == 0 {
    } else {
      RulesHitAre(p, rules, lines, o, n - 1);
    }
  }

  lemma {:induction false} FindingsAt(p: Patterns, rules: seq<Rule>, lines: seq<string>, o: Options, n: nat)
    requires n <= |rules|
    ensures var fs, at := Findings(p, rules, lines, o, n), RulesHit(p, rules, lines, o, n);
            && |at| == |fs|
            && (forall i :: 0 <= i < |at| ==>
                  at[i] < n && IsFinding(fs[i], rules[at[i]], Hits(p, rules, lines, o, at[i])))
  {
    hide Hits, Sample;
    if n == 0 {
    } else {
      FindingsAt(p, rules, lines, o, n - 1);
    }
  }

  /** The findings stand in the order of the rules: `at` lists, going up, exactly the rules that were hit. */
  lemma FindingsInOrder(p: Patterns, rules: seq<Rule>, lines: seq<string>, o: Options, n: nat)
      returns (at: seq<nat>)
    requires n <= |rules|
    ensures var fs := Findings(p, rules, lines, o, n);
            && |at| == |fs| && (forall i, j :: 0 <= i < j < |at| ==> at[i] < at[j])
            && (forall r: nat :: r in at <==> r < n && Hits(p, rules, lines, o, r) != [])
            && (forall i :: 0 <= i < |at| ==>
                  at[i] < n && IsFinding(fs[i], rules[at[i]], Hits(p, rules, lines, o, at[i])))
  {
    hide Hits, Findings, IsFinding, RulesHit;
    at := RulesHit(p, rules, lines, o, n);
    RulesHitAre(p, rules, lines, o, n);
    FindingsAt(p, rules, lines, o, n);
  }

  /** So the count in each finding is the number of lines that count for its rule. */
  lemma FindingsCountLines(p: Patterns, rules: seq<Rule>, lines: seq<string>, o: Options) returns (at: seq<nat>)
    ensures var fs := Findings(p, rules, lines, o, |rules|);
            && |at| == |fs| && (forall i, j :: 0 <= i < j < |at| ==> at[i] < at[j])
            && (forall i :: 0 <= i < |at| ==>
                  && at[i] < |rules| && fs[i].rule == rules[at[i]]
                  && 0 < fs[i].count == |LinesFor(p, rules, lines, o, at[i])|)
            && (forall r: nat :: r < |rules| && r !in at ==> LinesFor(p, rules, lines, o, r) == {})
  {
    hide Hits, LinesFor, Findings;
    at := FindingsInOrder(p, rules, lines, o, |rules|);
    forall i | 0 <= i < |at| ensures |Hits(p, rules, lines, o, at[i])| == |LinesFor(p, rules, lines, o, at[i])| > 0 {
      CountIsLines(p, rules, lines, o, at[i]);
      assert at[i] in at;
    }
    forall r: nat | r < |rules| && r !in at ensures LinesFor(p, rules, lines, o, r) == {} {
      CountIsLines(p, rules, lines, o, r);
    }
  }
}
