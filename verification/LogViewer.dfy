/** The log viewer: lines of one socket at a time, buffered, flushed as chunks, trimmed at the front. */
module LogViewer {
  import opened Wrappers

  type SocketId = nat

  const LOG_MAX_CHARS := 2 * 1024 * 1024

  const CONNECTING := "Connecting...\n"

  /** The closure of one socket: `pending`, `flushTimer` and `size`. The rest is history: every text
      the socket delivered, how many of them were no longer pending when it opened, and the chunks
      flushed since. */
  datatype Viewer = Viewer(
    pending: seq<string>,
    flushTimer: bool,
    size: int,
    texts: seq<string>,
    openedAt: Option<nat>,
    chunks: seq<string>)

  /** `logSocket`, the text nodes shown, and the closures of all sockets ever opened. */
  datatype State = State(logSocket: Option<SocketId>, content: seq<string>, viewers: seq<Viewer>)

  /** `Text`: a message, or the note of an error or a close. Late events of old sockets are allowed. */
  datatype Event =
    | Open
    | Close
    | OnOpen(socket: SocketId)
    | Text(socket: SocketId, text: string)
    | Flush(socket: SocketId)

  const INIT := State(None, [], [])

  predicate Enabled(s: State, e: Event) {
    match e
    case OnOpen(w) => w < |s.viewers|
    case Text(w, _) => w < |s.viewers|
    case Flush(w) => w < |s.viewers| && s.viewers[w].flushTimer
    case _ => true
  }

  function Concat(texts: seq<string>): string {
    if texts == [] then "" else Concat(texts[..|texts| - 1]) + texts[|texts| - 1]
  }

  function Total(chunks: seq<string>): nat {
    if chunks == [] then 0 else |chunks[0]| + Total(chunks[1..])
  }

  /** The trim loop: how many of the oldest chunks go. */
  function TrimCount(chunks: seq<string>, size: int): (k: nat)
    ensures k <= |chunks| && (chunks != [] ==> k < |chunks|)
  {
    if size > LOG_MAX_CHARS && |chunks| > 1 then 1 + TrimCount(chunks[1..], size - |chunks[0]|) else 0
  }

  function Opened(v: Viewer): Viewer {
    v.(size := 0, openedAt := Some(if |v.pending| <= |v.texts| then |v.texts| - |v.pending| else 0), chunks := [])
  }

  function Buffered(v: Viewer, text: string): Viewer {
    v.(pending := v.pending + [text], flushTimer := true, texts := v.texts + [text])
  }

  /** The text nodes after a flush, before trimming, and the length the closure counts. */
  function Untrimmed(v: Viewer, content: seq<string>): seq<string> { content + [Concat(v.pending)] }

  function Dropped(v: Viewer, content: seq<string>): (k: nat)
    ensures k <= |Untrimmed(v, content)|
  {
    TrimCount(Untrimmed(v, content), v.size + |Concat(v.pending)|)
  }

  function Flushed(v: Viewer, content: seq<string>): Viewer {
    v.(pending := [], flushTimer := false, chunks := v.chunks + [Concat(v.pending)],
       size := v.size + |Concat(v.pending)| - Total(Untrimmed(v, content)[..Dropped(v, content)]))
  }

  function Next(s: State, e: Event): State
    requires Enabled(s, e)
  {
    match e
    case Open => State(Some(|s.viewers|), [CONNECTING], s.viewers + [Viewer([], false, 0, [], None, [])])
    case Close => s.(logSocket := None)
    case OnOpen(w) =>
      if s.logSocket != Some(w) then s
      else s.(content := [], viewers := s.viewers[w := Opened(s.viewers[w])])
    case Text(w, text) =>
      if s.logSocket != Some(w) then s
      else s.(viewers := s.viewers[w := Buffered(s.viewers[w], text)])
    case Flush(w) =>
      var v := s.viewers[w];
      if s.logSocket != Some(w) || v.pending == [] then
        s.(viewers := s.viewers[w := v.(flushTimer := false)])
      else
        s.(content := Untrimmed(v, s.content)[Dropped(v, s.content)..],
           viewers := s.viewers[w := Flushed(v, s.content)])
  }

  ghost predicate IsRun(ss: seq<State>, es: seq<Event>) {
    && |ss| == |es| + 1 && ss[0] == INIT
    && forall i | 0 <= i < |es| :: Enabled(ss[i], es[i]) && ss[i + 1] == Next(ss[i], es[i])
  }

  // ---------- What is shown ----------

  /** The pending texts are the last delivered. */
  ghost predicate PendingOk(v: Viewer) {
    |v.pending| <= |v.texts| && v.pending == v.texts[|v.texts| - |v.pending|..]
  }

  /** What stands before the first text of a socket that has not opened yet, and is not counted. */
  function Banner(v: Viewer): seq<string> { if v.openedAt.Some? then [] else [CONNECTING] }

  function From(v: Viewer): nat { if v.openedAt.Some? then v.openedAt.value else 0 }

  /** What the page shows of a socket: the last of its blocks, and it knows their length, but for the
      banner; the chunks and the pending texts are all it delivered from the opening on. */
  ghost predicate Shows(v: Viewer, content: seq<string>) {
    && v.size == Total(content) - Total(Banner(v))
    && IsEndOf(content, Banner(v) + v.chunks)
    && From(v) <= |v.texts| && MakeUp(v.chunks, v.pending, v.texts[From(v)..])
  }

  /** The chunks and the pending texts make up the texts. */
  ghost predicate MakeUp(chunks: seq<string>, pending: seq<string>, texts: seq<string>) {
    Concat(chunks) + Concat(pending) == Concat(texts)
  }

  ghost predicate IsEndOf(content: seq<string>, blocks: seq<string>) {
    |content| <= |blocks| && content == blocks[|blocks| - |content|..]
  }

  ghost predicate Inv(s: State) {
    && (forall w :: 0 <= w < |s.viewers| ==> PendingOk(s.viewers[w]))
    && (s.logSocket.Some? ==>
          s.logSocket.value < |s.viewers| && Shows(s.viewers[s.logSocket.value], s.content))
  }

  lemma {:induction false} ConcatAppend(a: seq<string>, b: seq<string>)
    ensures Concat(a + b) == Concat(a) + Concat(b)
  {
    if b == [] {
      assert a + b == a;
    } else {
      assert (a + b)[..|a + b| - 1] == a + b[..|b| - 1];
      ConcatAppend(a, b[..|b| - 1]);
    }
  }

  lemma {:induction false} TotalAppend(a: seq<string>, b: seq<string>)
    ensures Total(a + b) == Total(a) + Total(b)
  {
    if a == [] {
      assert a + b == b;
    } else {
      assert (a + b)[1..] == a[1..] + b;
      TotalAppend(a[1..], b);
    }
  }

  lemma TotalSplit(s: seq<string>, k: nat)
    requires k <= |s|
    ensures Total(s[k..]) == Total(s) - Total(s[..k])
  {
    assert s == s[..k] + s[k..];
    TotalAppend(s[..k], s[k..]);
  }

  lemma TextGrows(chunks: seq<string>, pending: seq<string>, late: seq<string>, text: string)
    requires MakeUp(chunks, pending, late)
    ensures MakeUp(chunks, pending + [text], late + [text])
  {
    ConcatAppend(pending, [text]);
    ConcatAppend(late, [text]);
    hide Concat;
    Associative(Concat(chunks), Concat(pending), Concat([text]));
  }

  lemma Associative(a: string, b: string, c: string)
    ensures a + (b + c) == a + b + c
  {
  }

  lemma PendingGrows(v: Viewer, text: string)
    requires PendingOk(v)
    ensures PendingOk(Buffered(v, text))
  {
  }

  lemma ShowsText(v: Viewer, content: seq<string>, text: string)
    requires Shows(v, content) && PendingOk(v)
    ensures Shows(Buffered(v, text), content) && PendingOk(Buffered(v, text))
  {
    PendingGrows(v, text);
    hide Total, IsEndOf, MakeUp, PendingOk;
    TextGrows(v.chunks, v.pending, v.texts[From(v)..], text);
    LateGrows(v.texts, From(v), text);
  }

  lemma LateGrows(texts: seq<string>, n: nat, text: string)
    requires n <= |texts|
    ensures (texts + [text])[n..] == texts[n..] + [text]
  {
  }

  lemma ShowsOpen(v: Viewer)
    requires PendingOk(v)
    ensures Shows(Opened(v), []) && PendingOk(Opened(v))
  {
    assert Concat([]) + Concat(v.pending) == Concat(v.pending);
  }

  lemma ShowsFlush(v: Viewer, content: seq<string>)
    requires Shows(v, content)
    ensures Shows(Flushed(v, content), Untrimmed(v, content)[Dropped(v, content)..]) && PendingOk(Flushed(v, content))
  {
    hide IsEndOf, Total, Dropped, Concat;
    FlushedSize(v, content);
    FlushedText(v.chunks, Concat(v.pending));
    EndGrows(content, Banner(v) + v.chunks, Concat(v.pending), Dropped(v, content));
    Appended(Banner(v), v.chunks, Concat(v.pending));
    NothingPending(v, content);
  }

  lemma Appended(a: seq<string>, b: seq<string>, c: string)
    ensures a + b + [c] == a + (b + [c])
  {
  }

  lemma NothingPending(v: Viewer, content: seq<string>)
    ensures PendingOk(Flushed(v, content))
  {
  }

  lemma FlushedSize(v: Viewer, content: seq<string>)
    requires v.size == Total(content) - Total(Banner(v))
    ensures Flushed(v, content).size == Total(Untrimmed(v, content)[Dropped(v, content)..]) - Total(Banner(v))
  {
    TotalAppend(content, [Concat(v.pending)]);
    TotalSplit(Untrimmed(v, content), Dropped(v, content));
  }

  lemma FlushedText(chunks: seq<string>, chunk: string)
    ensures Concat(chunks + [chunk]) + Concat([]) == Concat(chunks) + chunk
  {
    assert (chunks + [chunk])[..|chunks|] == chunks;
  }

  lemma EndGrows(content: seq<string>, blocks: seq<string>, chunk: string, k: nat)
    requires IsEndOf(content, blocks) && k <= |content| + 1
    ensures IsEndOf((content + [chunk])[k..], blocks + [chunk])
  {
  }

  lemma InvStep(s: State, e: Event)
    requires Inv(s) && Enabled(s, e)
    ensures Inv(Next(s, e))
  {
    hide Shows, PendingOk, Opened, Buffered, Flushed, Untrimmed, Dropped;
    var s' := Next(s, e);
    match e
    case Open => FreshViewer();
    case Close =>
    case OnOpen(w) => ShowsOpen(s.viewers[w]);
    case Text(w, text) => if s.logSocket == Some(w) { ShowsText(s.viewers[w], s.content, text); }
    case Flush(w) =>
      var v := s.viewers[w];
      TimerOnly(v, s.content);
      if s.logSocket == Some(w) && v.pending != [] { ShowsFlush(v, s.content); }
  }

  lemma FreshViewer()
    ensures var v := Viewer([], false, 0, [], None, []); PendingOk(v) && Shows(v, [CONNECTING])
  {
  }

  lemma TimerOnly(v: Viewer, content: seq<string>)
    ensures PendingOk(v) ==> PendingOk(v.(flushTimer := false))
    ensures Shows(v, content) ==> Shows(v.(flushTimer := false), content)
  {
  }

  lemma {:induction false} RunInv(ss: seq<State>, es: seq<Event>, n: nat)
    requires IsRun(ss, es) && n <= |es|
    ensures Inv(ss[n])
  {
    if n == 0 {
    } else {
      RunInv(ss, es, n - 1);
      InvStep(ss[n - 1], es[n - 1]);
    }
  }

  /** What is shown and what is pending is the end of what this socket, and no other, delivered, with
      the banner before it until it opens; the front was cut where blocks meet; once the socket has
      opened, `size` is the length shown. */
  lemma ShownIsSuffix(ss: seq<State>, es: seq<Event>, n: nat, w: SocketId)
    requires IsRun(ss, es) && n <= |es| && ss[n].logSocket == Some(w) && w < |ss[n].viewers|
    ensures var v, shown := ss[n].viewers[w], Concat(ss[n].content);
            var all := Concat(Banner(v)) + Concat(Delivered(ss, es, n, w));
            && v.size == Total(ss[n].content) - Total(Banner(v)) == |shown| - Total(Banner(v))
            && IsEndOf(ss[n].content, Banner(v) + v.chunks)
            && exists cut :: 0 <= cut <= |all| && all[cut..] == shown + Concat(v.pending)
  {
    RunInv(ss, es, n);
    TotalIsLength(ss[n].content);
    TextsAreDelivered(ss, es, n, w);
    SuffixOfAll(ss[n].viewers[w], ss[n].content);
  }

  lemma SuffixOfAll(v: Viewer, content: seq<string>)
    requires Shows(v, content)
    ensures var all := Concat(Banner(v)) + Concat(v.texts);
            exists cut :: 0 <= cut <= |all| && all[cut..] == Concat(content) + Concat(v.pending)
  {
    var before := Concat(v.texts[..From(v)]);
    var gone := BlocksSplit(v, content);
    TextsSplit(v.texts, From(v));
    NothingBefore(v);
    hide Concat, Banner, IsEndOf, Total;
    if v.openedAt.Some? {
      Regroup(before, gone, Concat(content), Concat(v.pending), Concat(v.chunks), Concat(Banner(v)) + Concat(v.texts));
    } else {
      Associative(Concat(Banner(v)), Concat(v.chunks), Concat(v.pending));
      Regroup("", gone, Concat(content), Concat(v.pending), Concat(Banner(v)) + Concat(v.chunks),
              Concat(Banner(v)) + Concat(v.texts));
    }
  }

  /** The blocks are those dropped and those shown. */
  lemma BlocksSplit(v: Viewer, content: seq<string>) returns (gone: string)
    requires IsEndOf(content, Banner(v) + v.chunks)
    ensures Concat(Banner(v)) + Concat(v.chunks) == gone + Concat(content)
  {
    hide Concat, Banner;
    var blocks := Banner(v) + v.chunks;
    var dropped := blocks[..|blocks| - |content|];
    assert blocks == dropped + content;
    ConcatAppend(dropped, content);
    ConcatAppend(Banner(v), v.chunks);
    gone := Concat(dropped);
  }

  lemma TextsSplit(texts: seq<string>, n: nat)
    requires n <= |texts|
    ensures Concat(texts) == Concat(texts[..n]) + Concat(texts[n..])
  {
    hide Concat;
    ConcatAppend(texts[..n], texts[n..]);
    assert texts == texts[..n] + texts[n..];
  }

  lemma NothingBefore(v: Viewer)
    ensures v.openedAt.Some? ==> Concat(Banner(v)) == ""
    ensures v.openedAt.None? ==> Concat(v.texts[..From(v)]) == ""
  {
  }

  lemma Regroup(a: string, b: string, c: string, d: string, bc: string, all: string)
    requires bc == b + c && all == a + (bc + d)
    ensures exists cut :: 0 <= cut <= |all| && all[cut..] == c + d
  {
    assert all[|a + b|..] == c + d;
  }

  // ---------- What a socket delivered ----------

  /** The texts that came for socket `w` while it was the current one, in order. */
  function Delivered(ss: seq<State>, es: seq<Event>, n: nat, w: SocketId): seq<string>
    requires n <= |es| && |ss| == |es| + 1
  {
    if n == 0 then []
    else
      Delivered(ss, es, n - 1, w)
      + match es[n - 1]
        case Text(v, text) => if v == w && ss[n - 1].logSocket == Some(w) then [text] else []
        case _ => []
  }

  lemma TextsStep(s: State, e: Event, w: SocketId)
    requires Enabled(s, e)
    ensures |s.viewers| <= |Next(s, e).viewers|
    ensures w < |Next(s, e).viewers| ==>
              Next(s, e).viewers[w].texts ==
                (if w < |s.viewers| then s.viewers[w].texts else [])
                + match e
                  case Text(v, text) => if v == w && s.logSocket == Some(w) then [text] else []
                  case _ => []
  {
    hide Concat, Dropped;
  }

  /** What is on record of a socket is what it delivered: all of it, once, in order. */
  lemma {:induction false} TextsAreDelivered(ss: seq<State>, es: seq<Event>, n: nat, w: SocketId)
    requires IsRun(ss, es) && n <= |es|
    ensures if w < |ss[n].viewers| then ss[n].viewers[w].texts == Delivered(ss, es, n, w)
            else Delivered(ss, es, n, w) == []
  {
    if n == 0 {
    } else {
      TextsAreDelivered(ss, es, n - 1, w);
      RunInv(ss, es, n - 1);
      TextsStep(ss[n - 1], es[n - 1], w);
      hide Next;
    }
  }

  /** What is shown changes only when a viewer opens, when its socket opens, and when pending text of the
      current socket is flushed. */
  lemma OnlyTheseShow(s: State, e: Event)
    requires Enabled(s, e)
    ensures match e
            case Open => Next(s, e).content == [CONNECTING]
            case OnOpen(w) => Next(s, e).content == if s.logSocket == Some(w) then [] else s.content
            case Flush(w) =>
              s.logSocket != Some(w) || s.viewers[w].pending == [] ==> Next(s, e).content == s.content
            case _ => Next(s, e).content == s.content
  {
    hide Concat, Dropped;
  }

  /** What is pending for a socket changes only when text comes for it while it is the current one, and when
      that text is flushed. */
  lemma OnlyThesePend(s: State, e: Event, w: SocketId)
    requires Enabled(s, e) && w < |s.viewers|
    ensures var pending, pending' := s.viewers[w].pending, Next(s, e).viewers[w].pending;
            match e
            case Text(u, text) =>
              pending' == if u == w && s.logSocket == Some(w) then pending + [text] else pending
            case Flush(u) => pending' == if u == w && s.logSocket == Some(w) then [] else pending
            case _ => pending' == pending
  {
    hide Concat, Dropped;
  }

  /** Text that is pending is going to be flushed: a timer is set for it, while the socket is the current one. */
  ghost predicate FlushIsDue(s: State) {
    s.logSocket.Some? ==>
      && s.logSocket.value < |s.viewers|
      && (s.viewers[s.logSocket.value].pending != [] ==> s.viewers[s.logSocket.value].flushTimer)
  }

  lemma FlushDueStep(s: State, e: Event)
    requires FlushIsDue(s) && Enabled(s, e)
    ensures FlushIsDue(Next(s, e))
  {
    hide Concat, Dropped;
  }

  lemma {:induction false} FlushDueOnRun(ss: seq<State>, es: seq<Event>, n: nat)
    requires IsRun(ss, es) && n <= |es|
    ensures FlushIsDue(ss[n])
  {
    if n == 0 {
    } else {
      FlushDueOnRun(ss, es, n - 1);
      FlushDueStep(ss[n - 1], es[n - 1]);
    }
  }

  lemma {:induction false} TotalIsLength(chunks: seq<string>)
    ensures Total(chunks) == |Concat(chunks)|
  {
    if chunks == [] {
    } else {
      assert chunks == [chunks[0]] + chunks[1..];
      ConcatAppend([chunks[0]], chunks[1..]);
      assert Concat([chunks[0]]) == Concat([]) + chunks[0];
      TotalIsLength(chunks[1..]);
    }
  }

  /** The trim loop drops the fewest chunks that will do; the last one stays, whatever its length. */
  lemma {:induction false} TrimIsLeast(chunks: seq<string>, size: int)
    requires chunks != []
    ensures var k := TrimCount(chunks, size);
            && (size - Total(chunks[..k]) <= LOG_MAX_CHARS || |chunks| - k == 1)
            && forall j :: 0 <= j < k ==> size - Total(chunks[..j]) > LOG_MAX_CHARS
  {
    var k := TrimCount(chunks, size);
    if k == 0 {
    } else {
      TrimIsLeast(chunks[1..], size - |chunks[0]|);
      forall j | 1 <= j <= k ensures Total(chunks[..j]) == |chunks[0]| + Total(chunks[1..][..j - 1]) {
        assert chunks[..j][1..] == chunks[1..][..j - 1];
      }
    }
  }

  function Limit(v: Viewer): nat { 2097152 + Total(Banner(v)) }

  /** After any flush, before or after the socket opened, the text is within the limit, unless the
      last chunk alone is longer; and with one more chunk it would not have been. The banner, while
      it was there, does not count. */
  lemma FlushBounds(ss: seq<State>, es: seq<Event>, n: nat, w: SocketId)
    requires IsRun(ss, es) && n < |es| && es[n] == Flush(w) && ss[n].logSocket == Some(w)
    requires w < |ss[n].viewers| && ss[n].viewers[w].pending != []
    ensures var v, chunk := ss[n].viewers[w], Concat(ss[n].viewers[w].pending);
            var all, content := ss[n].content + [chunk], ss[n + 1].content;
            && content != [] && IsEndOf(content, all)
            && Total(content) <= (if |chunk| > Limit(v) then |chunk| else Limit(v))
            && (forall j :: 0 <= j < |all| - |content| ==> Total(all[j..]) > Limit(v))
  {
    RunInv(ss, es, n);
    assert ss[n + 1] == Next(ss[n], es[n]);
    TrimmedBounds(ss[n].viewers[w], ss[n].content);
  }

  lemma TrimmedBounds(v: Viewer, content: seq<string>)
    requires v.size == Total(content) - Total(Banner(v))
    ensures var chunk, all, k := Concat(v.pending), Untrimmed(v, content), Dropped(v, content);
            && k < |all|
            && Total(all[k..]) <= (if |chunk| > Limit(v) then |chunk| else Limit(v))
            && (forall j :: 0 <= j < k ==> Total(all[j..]) > Limit(v))
  {
    var chunk, all, k := Concat(v.pending), Untrimmed(v, content), Dropped(v, content);
    TrimIsLeast(all, v.size + |chunk|);
    TotalAppend(content, [chunk]);
    assert Total([chunk]) == |chunk|;
    TotalSplit(all, k);
    forall j | 0 <= j < k ensures Total(all[j..]) > Limit(v) {
      TotalSplit(all, j);
    }
    if |all| - k == 1 {
      assert all[k..] == [chunk];
    }
  }

  // ---------- The code ----------

  class LogPage {
    var logSocket: Option<SocketId>
    var content: seq<string>
    var viewers: seq<Viewer>

    function View(): State
      reads this
    {
      State(logSocket, content, viewers)
    }

    constructor ()
      ensures View() == INIT
    {
      logSocket, content, viewers := None, [], [];
    }

    method OpenLogViewer()
      modifies this
      ensures View() == Next(old(View()), Open)
    {
      content := [CONNECTING];
      CloseLogSocket();
      logSocket := Some(|viewers|);
      viewers := viewers + [Viewer([], false, 0, [], None, [])];
    }

    method CloseLogSocket()
      modifies this`logSocket
      ensures View() == Next(old(View()), Close)
    {
      if logSocket.None? {
        return;
      }
      logSocket := None;
    }

    method SocketOpened(w: SocketId)
      requires Enabled(View(), OnOpen(w))
      modifies this
      ensures View() == Next(old(View()), OnOpen(w))
    {
      if logSocket != Some(w) {
        return;
      }
      content := [];
      viewers := viewers[w := Opened(viewers[w])];
    }

    /** `appendLine`, behind the guard of its three callers. */
    method AppendLine(w: SocketId, text: string)
      requires Enabled(View(), Text(w, text))
      modifies this
      ensures View() == Next(old(View()), Text(w, text))
    {
      if logSocket != Some(w) {
        return;
      }
      var v := viewers[w];
      viewers := viewers[w := v.(pending := v.pending + [text], flushTimer := true, texts := v.texts + [text])];
    }

    method FlushPending(w: SocketId)
      requires Enabled(View(), Flush(w))
      modifies this
      ensures View() == Next(old(View()), Flush(w))
    {
      var v := viewers[w];
      if logSocket != Some(w) || v.pending == [] {
        viewers := viewers[w := v.(flushTimer := false)];
        return;
      }
      var chunk := Concat(v.pending);
      content := content + [chunk];
      var size := Trim(v.size + |chunk|);
      viewers := viewers[w := v.(pending := [], flushTimer := false, size := size, chunks := v.chunks + [chunk])];
    }

    /** The trim loop of `flush`. */
    method Trim(start: int) returns (size: int)
      modifies this`content
      ensures var k := TrimCount(old(content), start);
              content == old(content)[k..] && size == start - Total(old(content)[..k])
    {
      size := start;
      ghost var all, k := content, 0;
      while size > LOG_MAX_CHARS && |content| > 1
        invariant k <= |all| && content == all[k..] && size == start - Total(all[..k])
        invariant k + TrimCount(content, size) == TrimCount(all, start)
        decreases |content|
      {
        size := size - |content[0]|;
        content := content[1..];
        TotalAppend(all[..k], [all[k]]);
        assert all[..k + 1] == all[..k] + [all[k]];
        k := k + 1;
      }
    }
  }
}
