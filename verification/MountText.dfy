/** The text of /proc/<pid>/mountinfo: words, the " - " separator, and octal escapes. */
module MountText {
  import opened Wrappers

  /** Python's `str.isspace`. */
  predicate IsSpace(c: char) {
    var n := c as int;
    || 0x09 <= n <= 0x0D || 0x1C <= n <= 0x20 || n == 0x85 || n == 0xA0 || n == 0x1680
    || 0x2000 <= n <= 0x200A || n == 0x2028 || n == 0x2029 || n == 0x202F || n == 0x205F || n == 0x3000
  }

  predicate IsWord(s: string) {
    s != [] && forall i :: 0 <= i < |s| ==> !IsSpace(s[i])
  }

  function WordLength(s: string): (n: nat)
    ensures n <= |s| && forall i :: 0 <= i < n ==> !IsSpace(s[i])
    ensures n < |s| ==> IsSpace(s[n])
  {
    if s == [] || IsSpace(s[0]) then 0 else 1 + WordLength(s[1..])
  }

  /** `str.split()`. */
  function Split(s: string): (words: seq<string>)
    ensures forall w :: w in words ==> IsWord(w)
    decreases |s|
  {
    if s == [] then []
    else if IsSpace(s[0]) then Split(s[1..])
    else [s[..WordLength(s)]] + Split(s[WordLength(s)..])
  }

  /** `str.split(",")`. */
  function SplitOn(s: string, c: char): (parts: seq<string>)
    ensures parts != []
  {
    if s == [] then [[]]
    else
      var rest := SplitOn(s[1..], c);
      if s[0] == c then [[]] + rest else [[s[0]] + rest[0]] + rest[1..]
  }

  function JoinOn(parts: seq<string>, c: char): string
    requires parts != []
  {
    if |parts| == 1 then parts[0] else parts[0] + [c] + JoinOn(parts[1..], c)
  }

  lemma {:induction false} SplitOnFirst(part: string, rest: string, c: char)
    requires c !in part
    ensures SplitOn(part, c) == [part] && SplitOn(part + [c] + rest, c) == [part] + SplitOn(rest, c)
  {
    if part == [] {
      assert part + [c] + rest == [c] + rest && ([c] + rest)[1..] == rest;
    } else {
      SplitOnFirst(part[1..], rest, c);
      assert (part + [c] + rest)[1..] == part[1..] + [c] + rest;
      assert part == [part[0]] + part[1..];
    }
  }

  /** A comma-separated list gives its parts back. */
  lemma {:induction false} SplitOnJoin(parts: seq<string>, c: char)
    requires parts != [] && forall part :: part in parts ==> c !in part
    ensures SplitOn(JoinOn(parts, c), c) == parts
  {
    assert parts[0] in parts;
    if |parts| == 1 {
      SplitOnFirst(parts[0], "", c);
    } else {
      SplitOnJoin(parts[1..], c);
      SplitOnFirst(parts[0], JoinOn(parts[1..], c), c);
    }
  }

  const SEPARATOR := " - "

  predicate StartsWith(s: string, t: string) {
    |t| <= |s| && forall i :: 0 <= i < |t| ==> s[i] == t[i]
  }

  /** Where the separator first occurs: `str.partition(" - ")`. */
  function Find(s: string): (r: Option<nat>)
    ensures r.Some? ==> r.value + 3 <= |s|
  {
    if s == [] then None
    else if StartsWith(s, SEPARATOR) then Some(0)
    else match Find(s[1..]) case None => None case Some(n) => Some(n + 1)
  }

  // ---------- Escapes ----------

  predicate IsOctal(c: char) { '0' <= c <= '7' }

  function Digit(c: char): int { c as int - '0' as int }

  /** `re.sub(r"\\([0-7]{3})", ...)`: `_unescape_mountinfo`. */
  function Unescape(s: string): string {
    if s == [] then []
    else if |s| >= 4 && s[0] == '\\' && IsOctal(s[1]) && IsOctal(s[2]) && IsOctal(s[3]) then
      [(64 * Digit(s[1]) + 8 * Digit(s[2]) + Digit(s[3])) as char] + Unescape(s[4..])
    else [s[0]] + Unescape(s[1..])
  }

  function OctalDigit(n: int): char
    requires 0 <= n < 8
  {
    ('0' as int + n) as char
  }

  function EscapeChar(c: char, special: set<char>): (r: string)
    requires c in special ==> c as int < 512
    ensures r != []
  {
    if c in special then
      ['\\', OctalDigit(c as int / 64), OctalDigit(c as int / 8 % 8), OctalDigit(c as int % 8)]
    else [c]
  }

  /** What the kernel writes: the special characters as backslash and three octal digits. */
  function Escape(s: string, special: set<char>): string
    requires forall c :: c in special ==> c as int < 512
  {
    if s == [] then [] else EscapeChar(s[0], special) + Escape(s[1..], special)
  }

  /** Unescaping undoes escaping, for every string, whatever else the kernel escapes. */
  lemma {:induction false} UnescapeInverts(s: string, special: set<char>)
    requires '\\' in special && forall c :: c in special ==> c as int < 512
    ensures Unescape(Escape(s, special)) == s
  {
    if s == [] {
    } else {
      UnescapeInverts(s[1..], special);
      var head, rest := EscapeChar(s[0], special), Escape(s[1..], special);
      if s[0] in special {
        OctalDigits(s[0] as int);
        assert (head + rest)[4..] == rest;
      } else {
        assert (head + rest)[1..] == rest;
      }
    }
  }

  lemma OctalDigits(n: int)
    requires 0 <= n < 512
    ensures 0 <= n / 64 < 8 && 64 * (n / 64) + 8 * (n / 8 % 8) + n % 8 == n
  {
  }

  /** At place `i` the text looks like an escape: a backslash and three octal digits. */
  predicate LooksEscaped(s: string, i: int) {
    0 <= i < |s| - 3 && s[i] == '\\' && IsOctal(s[i + 1]) && IsOctal(s[i + 2]) && IsOctal(s[i + 3])
  }

  /** Unescaping leaves a text as it is if and only if nothing in it looks like an escape. */
  lemma {:induction false} UnescapeIsIdentity(s: string)
    ensures |Unescape(s)| <= |s|
    ensures Unescape(s) == s <==> forall i :: !LooksEscaped(s, i)
  {
    if s == [] {
    } else if LooksEscaped(s, 0) {
      UnescapeIsIdentity(s[4..]);
    } else {
      UnescapeIsIdentity(s[1..]);
      assert s == [s[0]] + s[1..];
      assert forall i :: LooksEscaped(s[1..], i) ==> LooksEscaped(s, i + 1);
      assert forall i :: LooksEscaped(s, i) ==> i > 0 && LooksEscaped(s[1..], i - 1);
    }
  }

  /** A leading octal digit of an escaped text is the text's own. */
  lemma EscapeHead(s: string, special: set<char>)
    requires forall c :: c in special ==> c as int < 512
    requires Escape(s, special) != [] && IsOctal(Escape(s, special)[0])
    ensures s != [] && s[0] == Escape(s, special)[0] && Escape(s, special)[1..] == Escape(s[1..], special)
  {
  }

  lemma EscapeOctal(s: string, special: set<char>)
    requires (forall c :: c in special ==> c as int < 512) && forall c :: c in special ==> !IsOctal(c)
    requires s != [] && IsOctal(s[0])
    ensures Escape(s, special) == [s[0]] + Escape(s[1..], special)
  {
  }

  lemma {:induction false} UnescapeSkips(s: string, special: set<char>)
    requires forall c :: c in special ==> c as int < 512 && c != '\\' && !IsOctal(c)
    ensures Unescape(Escape(s, special)) == Unescape(s)
  {
    if s == [] {
    } else if LooksEscaped(s, 0) {
      EscapeThree(s[1..], special);
      UnescapeSkips(s[4..], special);
      assert s[1..][3..] == s[4..];
      assert Escape(s, special) == ['\\'] + Escape(s[1..], special);
      assert Escape(s, special)[4..] == Escape(s[4..], special);
    } else {
      UnescapeSkips(s[1..], special);
      var head, rest := EscapeChar(s[0], special), Escape(s[1..], special);
      if s[0] in special {
        OctalDigits(s[0] as int);
        assert (head + rest)[4..] == rest;
      } else {
        assert (head + rest)[1..] == rest && head == [s[0]];
        if LooksEscaped(head + rest, 0) {
          ThreeEscaped(s[1..], special);
        }
      }
    }
  }

  lemma EscapeThree(s: string, special: set<char>)
    requires forall c :: c in special ==> c as int < 512 && c != '\\' && !IsOctal(c)
    requires |s| >= 3 && IsOctal(s[0]) && IsOctal(s[1]) && IsOctal(s[2])
    ensures Escape(s, special) == s[..3] + Escape(s[3..], special)
  {
    EscapeOctal(s, special);
    EscapeOctal(s[1..], special);
    EscapeOctal(s[2..], special);
    assert s[1..][1..] == s[2..] && s[2..][1..] == s[3..];
    assert [s[0]] + ([s[1]] + ([s[2]] + Escape(s[3..], special))) == s[..3] + Escape(s[3..], special);
  }

  lemma ThreeEscaped(s: string, special: set<char>)
    requires forall c :: c in special ==> c as int < 512
    requires var e := Escape(s, special); |e| >= 3 && IsOctal(e[0]) && IsOctal(e[1]) && IsOctal(e[2])
    ensures |s| >= 3 && IsOctal(s[0]) && IsOctal(s[1]) && IsOctal(s[2])
  {
    EscapeHead(s, special);
    EscapeHead(s[1..], special);
    assert Escape(s[1..], special)[1..] == Escape(s[1..][1..], special);
    EscapeHead(s[1..][1..], special);
  }

  /** If the kernel did not escape the backslash, exactly the names that look escaped somewhere
      would be read back changed. */
  lemma BackslashMustBeEscaped(s: string, special: set<char>)
    requires forall c :: c in special ==> c as int < 512 && c != '\\' && !IsOctal(c)
    ensures Unescape(Escape(s, special)) == s <==> forall i :: !LooksEscaped(s, i)
  {
    UnescapeSkips(s, special);
    UnescapeIsIdentity(s);
  }

  /** Escaped text holds no special character but the backslash. */
  lemma {:induction false} EscapedIsClean(s: string, special: set<char>, c: char)
    requires forall d :: d in special ==> d as int < 512
    requires c in Escape(s, special)
    ensures c == '\\' || IsOctal(c) || (c in s && c !in special)
  {
    if c in EscapeChar(s[0], special) {
    } else {
      EscapedIsClean(s[1..], special, c);
    }
  }

  /** A non-empty string whose white space is all escaped is one word. */
  lemma EscapedIsWord(s: string, special: set<char>)
    requires s != [] && forall c :: c in special ==> c as int < 512
    requires forall c :: c in s && IsSpace(c) ==> c in special
    ensures IsWord(Escape(s, special))
  {
    var e := Escape(s, special);
    forall i | 0 <= i < |e| ensures !IsSpace(e[i]) {
      EscapedIsClean(s, special, e[i]);
    }
  }

  /** Escaping makes no lone dash. */
  lemma EscapedIsNoDash(s: string, special: set<char>)
    requires '\\' in special && forall c :: c in special ==> c as int < 512
    requires s != "-"
    ensures Escape(s, special) != "-"
  {
    UnescapeInverts(s, special);
    assert Unescape("-") == "-";
  }

  // ---------- Rendering ----------

  function Join(words: seq<string>): string {
    if words == [] then ""
    else if |words| == 1 then words[0]
    else words[0] + " " + Join(words[1..])
  }

  lemma {:induction false} WordLengthOf(w: string, rest: string)
    requires (forall i :: 0 <= i < |w| ==> !IsSpace(w[i])) && (rest == [] || IsSpace(rest[0]))
    ensures WordLength(w + rest) == |w|
  {
    if w == [] {
      assert w + rest == rest;
    } else {
      assert (w + rest)[1..] == w[1..] + rest;
      WordLengthOf(w[1..], rest);
    }
  }

  /** Splitting takes back the words that were joined. */
  lemma {:induction false} SplitJoin(words: seq<string>)
    requires forall w :: w in words ==> IsWord(w)
    ensures Split(Join(words)) == words
    decreases |words|
  {
    if words == [] {
    } else {
      var w := words[0];
      assert w in words;
      if |words| == 1 {
        WordLengthOf(w, "");
        assert w + "" == w;
        assert Split(w[|w|..]) == [];
      } else {
        var rest := Join(words[1..]);
        SplitJoin(words[1..]);
        WordLengthOf(w, " " + rest);
        var s := w + (" " + rest);
        assert s == Join(words);
        assert s[|w|..] == " " + rest && (" " + rest)[1..] == rest;
        assert s[..|w|] == w;
      }
    }
  }

  /** Text that a single field of a line may hold, as far as the separator is concerned. */
  predicate IsField(s: string) {
    s != [] && forall i :: 0 <= i < |s| ==> s[i] != ' '
  }

  /** A field cannot hide the separator. */
  lemma {:induction false} FindSkipsField(w: string, rest: string)
    requires forall i :: 0 <= i < |w| ==> w[i] != ' '
    ensures Find(w + rest) == match Find(rest) case None => None case Some(n) => Some(|w| + n)
  {
    if w == [] {
      assert w + rest == rest;
    } else {
      assert (w + rest)[1..] == w[1..] + rest;
      assert (w + rest)[0] == w[0] && SEPARATOR[0] == ' ';
      FindSkipsField(w[1..], rest);
    }
  }

  /** The separator of a rendered line is found where it was put, if no field is a lone dash. */
  lemma {:induction false} FindSeparator(words: seq<string>, rest: string)
    requires words != [] && forall w :: w in words ==> IsField(w)
    requires forall i :: 1 <= i < |words| ==> words[i] != "-"
    ensures Find(Join(words) + SEPARATOR + rest) == Some(|Join(words)|)
    decreases |words|
  {
    hide Find, StartsWith;
    assert StartsWith(SEPARATOR + rest, SEPARATOR) by { Starts(rest); }
    var w := words[0];
    assert w in words;
    if |words| == 1 {
      assert w + SEPARATOR + rest == w + (SEPARATOR + rest);
      FindAfterField(w, SEPARATOR + rest);
    } else {
      var tail := Join(words[1..]) + SEPARATOR + rest;
      FindSeparator(words[1..], rest);
      NoEarlySeparator(words[1..], rest);
      FindPastSpace(tail);
      FindBeyondField(w, " " + tail, 1 + Find(tail).value);
      Regroup(w, Join(words[1..]), rest);
    }
  }

  lemma Regroup(w: string, joined: string, rest: string)
    ensures (w + " " + joined) + SEPARATOR + rest == w + (" " + (joined + SEPARATOR + rest))
  {
  }

  lemma Starts(rest: string)
    ensures StartsWith(SEPARATOR + rest, SEPARATOR)
  {
  }

  lemma FindAfterField(w: string, s: string)
    requires IsField(w) && StartsWith(s, SEPARATOR)
    ensures Find(w + s) == Some(|w|)
  {
    FindSkipsField(w, s);
  }

  lemma FindStep(s: string)
    requires s != [] && !StartsWith(s, SEPARATOR)
    ensures Find(s) == match Find(s[1..]) case None => None case Some(n) => Some(n + 1)
  {
    hide StartsWith;
  }

  lemma FindPastSpace(tail: string)
    requires !StartsWith(" " + tail, SEPARATOR) && Find(tail).Some?
    ensures Find(" " + tail) == Some(1 + Find(tail).value)
  {
    hide Find, StartsWith;
    FindStep(" " + tail);
    assert (" " + tail)[1..] == tail;
  }

  lemma FindBeyondField(w: string, rest: string, n: nat)
    requires IsField(w) && Find(rest) == Some(n)
    ensures Find(w + rest) == Some(|w| + n)
  {
    hide Find;
    FindSkipsField(w, rest);
  }

  lemma NoEarlySeparator(words: seq<string>, rest: string)
    requires words != [] && IsField(words[0]) && words[0] != "-"
    ensures !StartsWith(" " + (Join(words) + SEPARATOR + rest), SEPARATOR)
  {
    var w := words[0];
    var s := " " + (Join(words) + SEPARATOR + rest);
    assert s[1] == w[0] && SEPARATOR[1] == '-' && SEPARATOR[2] == ' ';
    if |w| > 1 {
      assert s[2] == w[1];
    } else {
      assert w == [w[0]];
    }
  }

  // ---------- Names that hold other white space ----------

  lemma SplitWord(w: string, rest: string)
    requires IsWord(w) && (rest == [] || IsSpace(rest[0]))
    ensures Split(w + rest) == [w] + Split(rest)
  {
    WordLengthOf(w, rest);
    var s := w + rest;
    assert s[..|w|] == w && s[|w|..] == rest && s[0] == w[0];
  }

  lemma SplitSpace(c: char, rest: string)
    requires IsSpace(c)
    ensures Split([c] + rest) == Split(rest)
  {
    assert ([c] + rest)[1..] == rest;
  }

  lemma BlankAfterWord(w: string, rest: string, b: string)
    requires IsWord(w) && (rest == [] || IsSpace(rest[0]))
    requires Split(rest + " " + b) == Split(rest) + Split(b)
    ensures Split(w + rest + " " + b) == Split(w + rest) + Split(b)
  {
    hide Split;
    SplitWord(w, rest);
    SplitWord(w, rest + " " + b);
    assert w + rest + " " + b == w + (rest + " " + b);
  }

  lemma BlankAfterSpace(c: char, rest: string, b: string)
    requires IsSpace(c) && Split(rest + " " + b) == Split(rest) + Split(b)
    ensures Split([c] + rest + " " + b) == Split([c] + rest) + Split(b)
  {
    hide Split, IsSpace;
    SplitSpace(c, rest);
    SplitSpace(c, rest + " " + b);
    assert [c] + rest + " " + b == [c] + (rest + " " + b);
  }

  lemma BlankFirst(b: string)
    ensures Split("" + " " + b) == Split("") + Split(b)
  {
    assert "" + " " + b == [' '] + b && Split("") == [];
    SplitSpace(' ', b);
  }

  lemma {:induction false} SplitBlank(a: string, b: string)
    ensures Split(a + " " + b) == Split(a) + Split(b)
    decreases |a|
  {
    hide Split;
    if a == "" {
      BlankFirst(b);
    } else if IsSpace(a[0]) {
      SplitBlank(a[1..], b);
      BlankAfterSpace(a[0], a[1..], b);
      assert a == [a[0]] + a[1..];
    } else {
      var n := WordLength(a);
      SplitBlank(a[n..], b);
      BlankAfterWord(a[..n], a[n..], b);
      assert a == a[..n] + a[n..];
    }
  }

  /** The words of all fields. */
  function WordsOf(fields: seq<string>): seq<string> {
    if fields == [] then [] else Split(fields[0]) + WordsOf(fields[1..])
  }

  /** Joined fields fall apart into their own words, whatever white space they hold. */
  lemma {:induction false} SplitFields(fields: seq<string>)
    ensures Split(Join(fields)) == WordsOf(fields)
  {
    if fields == [] {
      assert Split("") == [];
    } else if |fields| == 1 {
      assert fields[1..] == [];
    } else {
      hide Split;
      SplitBlank(fields[0], Join(fields[1..]));
      SplitFields(fields[1..]);
    }
  }

  lemma {:induction false} WordsOfAppend(a: seq<string>, b: seq<string>)
    ensures WordsOf(a + b) == WordsOf(a) + WordsOf(b)
  {
    hide Split;
    if a == [] {
      assert a + b == b;
    } else {
      assert (a + b)[1..] == a[1..] + b;
      WordsOfAppend(a[1..], b);
    }
  }

  lemma {:induction false} WordsOfWords(words: seq<string>)
    requires forall w :: w in words ==> IsWord(w)
    ensures WordsOf(words) == words
  {
    if words == [] {
    } else {
      assert words[0] in words;
      SplitJoin([words[0]]);
      assert Join([words[0]]) == words[0] && words == [words[0]] + words[1..];
      hide Split, IsWord;
      WordsOfWords(words[1..]);
    }
  }

  lemma WordsOfOne(field: string)
    ensures WordsOf([field]) == Split(field)
  {
  }

  /** White space that the kernel leaves as it is. */
  predicate IsBare(c: char, special: set<char>) { IsSpace(c) && c !in special }

  predicate NoneBare(s: string, special: set<char>) {
    forall i :: 0 <= i < |s| ==> !IsBare(s[i], special)
  }

  lemma {:induction false} EscapeAppend(a: string, b: string, special: set<char>)
    requires forall c :: c in special ==> c as int < 512
    ensures Escape(a + b, special) == Escape(a, special) + Escape(b, special)
  {
    if a == [] {
      assert a + b == b;
    } else {
      assert (a + b)[1..] == a[1..] + b;
      EscapeAppend(a[1..], b, special);
    }
  }

  lemma NoneBareIsSolid(s: string, special: set<char>)
    requires NoneBare(s, special) && forall c :: c in special ==> c as int < 512
    ensures forall i :: 0 <= i < |Escape(s, special)| ==> !IsSpace(Escape(s, special)[i])
  {
    forall i | 0 <= i < |Escape(s, special)| ensures !IsSpace(Escape(s, special)[i]) {
      EscapedIsClean(s, special, Escape(s, special)[i]);
    }
  }

  function SolidLength(s: string, special: set<char>): (n: nat)
    ensures n <= |s| && NoneBare(s[..n], special) && (n < |s| ==> IsBare(s[n], special))
  {
    if s == [] || IsBare(s[0], special) then 0
    else
      var n := SolidLength(s[1..], special);
      assert s[..n + 1] == [s[0]] + s[1..][..n];
      n + 1
  }

  /** The first word of an escaped name is the escaped form of a part of it: a proper part, unless
      all its white space is escaped. */
  lemma {:induction false} FirstWord(s: string, special: set<char>) returns (part: string)
    requires (forall c :: c in special ==> c as int < 512) && exists i :: 0 <= i < |s| && !IsBare(s[i], special)
    ensures Split(Escape(s, special)) != [] && Split(Escape(s, special))[0] == Escape(part, special)
    ensures |part| <= |s| && (|part| == |s| ==> NoneBare(s, special))
  {
    if IsBare(s[0], special) {
      var i :| 0 <= i < |s| && !IsBare(s[i], special);
      assert s[1..][i - 1] == s[i];
      part := FirstWord(s[1..], special);
      assert Escape(s, special)[1..] == Escape(s[1..], special);
    } else {
      var n := SolidLength(s, special);
      part := s[..n];
      assert s == s[..n] + s[n..];
      EscapeAppend(s[..n], s[n..], special);
      FirstOfSolid(part, s[n..], special);
    }
  }

  lemma FirstOfSolid(a: string, b: string, special: set<char>)
    requires forall c :: c in special ==> c as int < 512
    requires a != [] && NoneBare(a, special) && (b == [] || IsBare(b[0], special))
    ensures var words := Split(Escape(a, special) + Escape(b, special)); words != [] && words[0] == Escape(a, special)
  {
    var e, rest := Escape(a, special), Escape(b, special);
    NoneBareIsSolid(a, special);
    assert b != [] ==> rest[0] == b[0];
    WordLengthOf(e, rest);
    assert e != [] && (e + rest)[0] == e[0] && (e + rest)[..|e|] == e;
  }

  /** Bare white space in a name makes two words of it. */
  lemma NameFallsApart(a: string, c: char, b: string, special: set<char>)
    requires forall d :: d in special ==> d as int < 512
    requires a != [] && b != [] && NoneBare(a, special) && NoneBare(b, special) && IsBare(c, special)
    ensures Split(Escape(a + [c] + b, special)) == [Escape(a, special), Escape(b, special)]
  {
    EscapeAround(a, c, b, special);
    SolidSplits(a, special);
    SolidSplits(b, special);
    hide Split, Escape, NoneBare;
    SplitWord(Escape(a, special), [c] + Escape(b, special));
    SplitSpace(c, Escape(b, special));
  }

  lemma EscapeAround(a: string, c: char, b: string, special: set<char>)
    requires c !in special && forall d :: d in special ==> d as int < 512
    ensures Escape(a + [c] + b, special) == Escape(a, special) + ([c] + Escape(b, special))
  {
    EscapeAppend(a, [c] + b, special);
    assert a + [c] + b == a + ([c] + b) && ([c] + b)[1..] == b;
  }

  /** A name whose white space is all escaped is one word. */
  lemma SolidSplits(s: string, special: set<char>)
    requires s != [] && NoneBare(s, special) && forall c :: c in special ==> c as int < 512
    ensures IsWord(Escape(s, special)) && Split(Escape(s, special)) == [Escape(s, special)]
  {
    NoneBareIsSolid(s, special);
    SplitJoin([Escape(s, special)]);
    assert Join([Escape(s, special)]) == Escape(s, special);
  }
}
