/** The dashboard's refresh loop: either one refresh is in progress or one interval timer is live. */
module RefreshLoop {
  import opened Wrappers

  type TimerId = nat

  const REFRESH_SECONDS := 10

  /** `refreshing`, `timer` and `countdown`; the intervals alive in the browser; the refreshes begun
      and not yet over; the next timer identity. */
  datatype State = State(
    refreshing: bool,
    timer: Option<TimerId>,
    countdown: int,
    live: set<TimerId>,
    running: nat,
    nextTimer: TimerId)

  /** A click on Refresh (or the page load), one tick of a live interval, the end of a refresh.
      `errorBarFails`: the handler for a caught error throws in its turn. */
  datatype Event =
    | Click
    | Tick(timer: TimerId)
    | Done(errorBarFails: bool)

  const BEFORE_LOAD := State(false, None, REFRESH_SECONDS, {}, 0, 0)

  predicate Enabled(s: State, e: Event) {
    match e
    case Click => true
    case Tick(t) => t in s.live
    case Done(_) => s.running > 0
  }

  function ClearTimer(s: State): State {
    if s.timer.Some? then s.(live := s.live - {s.timer.value}, timer := None) else s
  }

  /** `fetchOverview` up to its first await. */
  function Begin(s: State): State {
    if s.refreshing then s
    else ClearTimer(s).(refreshing := true, running := s.running + 1)
  }

  function Reset(s: State): State {
    var c := ClearTimer(s);
    c.(countdown := REFRESH_SECONDS, timer := Some(s.nextTimer),
       live := c.live + {s.nextTimer}, nextTimer := s.nextTimer + 1)
  }

  function Next(s: State, e: Event): State {
    match e
    case Click => Begin(s)
    case Tick(_) =>
      var c := s.(countdown := s.countdown - 1);
      if c.countdown <= 0 then Begin(ClearTimer(c)) else c
    case Done(errorBarFails) =>
      var d := s.(refreshing := false, running := if s.running > 0 then s.running - 1 else 0);
      if errorBarFails then d else Reset(d)
  }

  /** A refresh is in progress and no interval is alive, or the other way round. */
  ghost predicate Inv(s: State) {
    && (forall t :: t in s.live ==> t < s.nextTimer)
    && 0 <= s.countdown <= REFRESH_SECONDS
    && if s.refreshing then s.running == 1 && s.live == {} && s.timer.None?
       else s.running == 0 && s.countdown > 0 && s.timer.Some? && s.live == {s.timer.value}
  }

  /** A step keeps the loop going if and only if it is not an error handler that throws. */
  lemma KeepsGoing(s: State, e: Event)
    requires Inv(s) && Enabled(s, e)
    ensures Inv(Next(s, e)) <==> e != Done(true)
  {
  }

  ghost predicate IsRun(ss: seq<State>, es: seq<Event>) {
    && |ss| == |es| + 1 && ss[0] == Begin(BEFORE_LOAD)
    && forall i | 0 <= i < |es| :: Enabled(ss[i], es[i]) && ss[i + 1] == Next(ss[i], es[i])
  }

  /** No refresh, no interval: nothing will happen by itself. */
  predicate Stalled(s: State) {
    !s.refreshing && s.running == 0 && s.live == {} && s.timer.None? && 0 <= s.countdown <= REFRESH_SECONDS
  }

  /** From the page load on, at every event boundary of every run: the loop is going if and only if
      the last thing that happened was not an error handler that threw. */
  lemma {:induction false} OneOrTheOther(ss: seq<State>, es: seq<Event>, n: nat)
    requires IsRun(ss, es) && n <= |es|
    ensures Inv(ss[n]) <==> n == 0 || es[n - 1] != Done(true)
    ensures Inv(ss[n]) || Stalled(ss[n])
  {
    if n == 0 {
    } else {
      OneOrTheOther(ss, es, n - 1);
      if Inv(ss[n - 1]) {
        KeepsGoing(ss[n - 1], es[n - 1]);
      } else {
        assert es[n - 1] == Click;
      }
    }
  }

  /** `n` ticks of whatever interval is live. */
  function Ticks(s: State, n: nat): State {
    if n == 0 then s
    else
      var p := Ticks(s, n - 1);
      if p.timer.Some? then Next(p, Tick(p.timer.value)) else p
  }

  /** The loop turns by itself: the next refresh begins with the last tick of the countdown, no sooner. */
  lemma {:induction false} TicksLeadToRefresh(s: State, n: nat)
    requires Inv(s) && !s.refreshing && n <= s.countdown
    ensures Inv(Ticks(s, n)) && (Ticks(s, n).refreshing <==> n == s.countdown)
    ensures Ticks(s, n).countdown == s.countdown - n
  {
    if n == 0 {
    } else {
      TicksLeadToRefresh(s, n - 1);
    }
  }

  /** A click begins a refresh unless one is in progress, and stops the interval for it. */
  lemma ClickRefreshes(s: State)
    requires Inv(s)
    ensures var d := Next(s, Click);
            d.refreshing && d.running == 1 && d.live == {} && (s.refreshing ==> d == s)
  {
  }

  /** The end of a refresh starts a full countdown: the next refresh, left alone, begins with the tenth tick. */
  lemma TenTicksLater(s: State, n: nat)
    requires Inv(s) && s.refreshing && n <= 10
    ensures var d := Next(s, Done(false));
            && !d.refreshing && d.countdown == 10
            && (Ticks(d, n).refreshing <==> n == 10) && Ticks(d, n).countdown == 10 - n
  {
    KeepsGoing(s, Done(false));
    TicksLeadToRefresh(Next(s, Done(false)), n);
  }

  /** When the error handler threw, the loop stands still, and a click sets it going again. */
  lemma StalledUntilClick(s: State)
    requires Inv(s) && s.refreshing
    ensures var d := Next(s, Done(true));
            d.live == {} && d.running == 0 && (forall e :: Enabled(d, e) <==> e == Click) && Inv(Next(d, Click))
  {
  }

  class Page {
    var refreshing: bool
    var timer: Option<TimerId>
    var countdown: int
    // The browser's side.
    var live: set<TimerId>
    var running: nat
    var nextTimer: TimerId

    function View(): State
      reads this
    {
      State(refreshing, timer, countdown, live, running, nextTimer)
    }

    constructor ()
      ensures View() == BEFORE_LOAD
    {
      refreshing, timer, countdown := false, None, REFRESH_SECONDS;
      live, running, nextTimer := {}, 0, 0;
    }

    method ClearInterval(t: TimerId)
      modifies this`live
      ensures live == old(live) - {t}
    {
      live := live - {t};
    }

    /** `fetchOverview` until it waits for the sections. */
    method FetchOverview()
      modifies this
      ensures View() == Begin(old(View()))
    {
      if refreshing {
        return;
      }
      refreshing := true;
      if timer.Some? {
        ClearInterval(timer.value);
        timer := None;
      }
      running := running + 1;
    }

    /** The end of `fetchOverview`, after its catch clause. */
    method Finish(errorBarFails: bool)
      requires running > 0
      modifies this
      ensures View() == Next(old(View()), Done(errorBarFails))
    {
      refreshing := false;
      running := running - 1;
      if !errorBarFails {
        ResetCountdown();
      }
    }

    method ResetCountdown()
      modifies this
      ensures View() == Reset(old(View()))
    {
      countdown := REFRESH_SECONDS;
      if timer.Some? {
        ClearInterval(timer.value);
      }
      timer := Some(nextTimer);
      live := live + {nextTimer};
      nextTimer := nextTimer + 1;
    }

    /** The interval's callback. */
    method OnTick(t: TimerId)
      requires t in live
      modifies this
      ensures View() == Next(old(View()), Tick(t))
    {
      countdown := countdown - 1;
      if countdown <= 0 {
        if timer.Some? {
          ClearInterval(timer.value);
        }
        timer := None;
        FetchOverview();
      }
    }
  }
}
