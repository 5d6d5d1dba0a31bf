/** The strict sliding window of the rate limiters, over the whole history of what it recorded. */
module Window {
  import opened Options

  /** `times` is the pruned deque; `history`, which the source does not keep, is every acquisition ever recorded. */
  datatype Window = Window(limit: nat, width: real, times: seq<real>, history: seq<real>, clock: real)

  /** What one turn under the lock decides. `allowed` is the synchronous condition of acquire_if, if there is one. */
  datatype Outcome = Recorded | Refused | WaitFor(delay: real)

  datatype Turn = Turn(now: real, later: real, allowed: Option<bool>)

  function Prune(times: seq<real>, cutoff: real): seq<real> {
    if times != [] && times[0] <= cutoff then Prune(times[1..], cutoff) else times
  }

  function Max(a: real, b: real): real { if a >= b then a else b }

  predicate ValidTurn(w: Window, turn: Turn) {
    w.clock <= turn.now <= turn.later
  }

  function Decide(w: Window, turn: Turn): Outcome
    requires w.limit > 0
  {
    var kept := Prune(w.times, turn.now - w.width);
    if |kept| < w.limit then
      if turn.allowed == Some(false) then Refused else Recorded
    else
      WaitFor(Max(0.0, kept[0] + w.width - turn.now))
  }

  function After(w: Window, turn: Turn): Window
    requires w.limit > 0
  {
    var kept := Prune(w.times, turn.now - w.width);
    var w' := w.(times := kept, clock := turn.later);
    if Decide(w, turn).Recorded?
    then w'.(times := kept + [turn.later], history := w.history + [turn.later])
    else w'
  }

  predicate Sorted(s: seq<real>) {
    forall i, j | 0 <= i <= j < |s| :: s[i] <= s[j]
  }

  /** The guarantee: the acquisition `limit` places later is at least one window later. */
  predicate Strict(history: seq<real>, limit: nat, width: real) {
    forall k | 0 <= k < k + limit < |history| :: history[k + limit] >= history[k] + width
  }

  ghost predicate Inv(w: Window) {
    && w.limit > 0 && w.width > 0.0
    && Sorted(w.history)
    && (forall i | 0 <= i < |w.history| :: w.history[i] <= w.clock)
    && |w.times| <= w.limit && |w.times| <= |w.history|
    && w.times == w.history[|w.history| - |w.times|..]
    && (forall i | 0 <= i < |w.history| - |w.times| :: w.history[i] <= w.clock - w.width)
    && Strict(w.history, w.limit, w.width)
  }

  lemma {:induction false} PruneIsSuffix(times: seq<real>, cutoff: real)
    ensures |Prune(times, cutoff)| <= |times|
    ensures Prune(times, cutoff) == times[|times| - |Prune(times, cutoff)|..]
    ensures forall i | 0 <= i < |times| - |Prune(times, cutoff)| :: times[i] <= cutoff
    ensures Prune(times, cutoff) != [] ==> Prune(times, cutoff)[0] > cutoff
  {
    if times != [] && times[0] <= cutoff {
      PruneIsSuffix(times[1..], cutoff);
    }
  }

  /** How many entries pruning drops: exactly those of the whole history at or before the cutoff. */
  lemma PrunedHistory(w: Window, now: real) returns (gone: nat)
    requires Inv(w) && w.clock <= now
    ensures gone <= |w.history| && Prune(w.times, now - w.width) == w.history[gone..]
    ensures forall i | 0 <= i < gone :: w.history[i] <= now - w.width
    ensures forall i | gone <= i < |w.history| :: w.history[i] > now - w.width
  {
    var cutoff := now - w.width;
    PruneIsSuffix(w.times, cutoff);
    var kept := Prune(w.times, cutoff);
    var lead := |w.history| - |w.times|;
    gone := |w.history| - |kept|;
    forall i | 0 <= i < gone ensures w.history[i] <= cutoff {
      assert i >= lead ==> w.history[i] == w.times[i - lead];
    }
    assert kept != [] ==> kept[0] == w.history[gone];
    forall i | gone <= i < |w.history| ensures w.history[i] > cutoff {
      assert w.history[gone] <= w.history[i];
    }
  }

  /** Every turn keeps the window strict. */
  lemma TurnKeepsInv(w: Window, turn: Turn)
    requires Inv(w) && ValidTurn(w, turn)
    ensures Inv(After(w, turn))
  {
    var gone := PrunedHistory(w, turn.now);
    if Decide(w, turn).Recorded? {
      AppendKeepsStrict(w.history, turn.later, gone, w.limit, w.width);
      assert w.history[gone..] + [turn.later] == (w.history + [turn.later])[gone..];
    }
  }

  /** With fewer than `limit` entries left after pruning, one more keeps the history strict. */
  lemma AppendKeepsStrict(h: seq<real>, t: real, gone: nat, limit: nat, width: real)
    requires Sorted(h) && Strict(h, limit, width) && (forall i | 0 <= i < |h| :: h[i] <= t)
    requires |h| - limit < gone <= |h| && forall i | 0 <= i < gone :: h[i] <= t - width
    ensures Sorted(h + [t]) && Strict(h + [t], limit, width)
  {
  }

  function AfterAll(w: Window, turns: seq<Turn>): Window
    requires w.limit > 0
    decreases |turns|
  {
    if turns == [] then w else AfterAll(After(w, turns[0]), turns[1..])
  }

  predicate ValidTurns(w: Window, turns: seq<Turn>)
    requires w.limit > 0
    decreases |turns|
  {
    turns == [] || (ValidTurn(w, turns[0]) && ValidTurns(After(w, turns[0]), turns[1..]))
  }

  lemma {:induction false} TurnsKeepInv(w: Window, turns: seq<Turn>)
    requires Inv(w) && ValidTurns(w, turns)
    ensures Inv(AfterAll(w, turns))
    decreases |turns|
  {
    if turns != [] {
      TurnKeepsInv(w, turns[0]);
      TurnsKeepInv(After(w, turns[0]), turns[1..]);
    }
  }

  /** Intervals of time: without their start, without their end, with both. */
  function OpenStart(from: real, to: real): real -> bool { t => from < t <= to }

  function OpenEnd(from: real, to: real): real -> bool { t => from <= t < to }

  function Closed(from: real, to: real): real -> bool { t => from <= t <= to }

  /** How many acquisitions of the history satisfy `p`. */
  function Count(history: seq<real>, p: real -> bool): nat {
    if history == [] then 0
    else Count(history[..|history| - 1], p) + if p(history[|history| - 1]) then 1 else 0
  }

  lemma {:induction false} CountRange(h: seq<real>, p: real -> bool, low: nat, high: nat)
    requires low <= high <= |h|
    requires forall i | 0 <= i < |h| :: p(h[i]) <==> low <= i < high
    ensures Count(h, p) == high - low
  {
    if h != [] {
      var init := h[..|h| - 1];
      if high == |h| && low < high {
        CountRange(init, p, low, high - 1);
      } else {
        CountRange(init, p, if low == |h| then low - 1 else low, if high == |h| then high - 1 else high);
      }
    }
  }

  lemma FirstAtLeast(h: seq<real>, x: real) returns (k: nat)
    requires Sorted(h)
    ensures k <= |h| && (forall i | 0 <= i < k :: h[i] < x) && (forall i | k <= i < |h| :: h[i] >= x)
  {
    k := 0;
    while k < |h| && h[k] < x
      invariant k <= |h| && forall i | 0 <= i < k :: h[i] < x
    {
      k := k + 1;
    }
  }

  lemma FirstAbove(h: seq<real>, x: real) returns (k: nat)
    requires Sorted(h)
    ensures k <= |h| && (forall i | 0 <= i < k :: h[i] <= x) && (forall i | k <= i < |h| :: h[i] > x)
  {
    k := 0;
    while k < |h| && h[k] <= x
      invariant k <= |h| && forall i | 0 <= i < k :: h[i] <= x
    {
      k := k + 1;
    }
  }

  /**
   Over any run, any half-open interval of one window's length holds at most `limit` acquisitions, whichever of its
   ends it leaves out.
   */
  lemma AtMostLimitPerWindow(w: Window, turns: seq<Turn>, from: real)
    requires Inv(w) && ValidTurns(w, turns)
    ensures Count(AfterAll(w, turns).history, OpenEnd(from, from + w.width)) <= w.limit
    ensures Count(AfterAll(w, turns).history, OpenStart(from, from + w.width)) <= w.limit
  {
    var final := AfterAll(w, turns);
    TurnsKeepInv(w, turns);
    SameLimits(w, turns);
    assert Strict(final.history, w.limit, w.width) && Sorted(final.history);
    StrictCount(final.history, w.limit, w.width, from);
  }

  lemma StrictCount(h: seq<real>, limit: nat, width: real, from: real)
    requires Sorted(h) && Strict(h, limit, width) && limit > 0 && width > 0.0
    ensures Count(h, OpenEnd(from, from + width)) <= limit && Count(h, OpenStart(from, from + width)) <= limit
  {
    StrictCountWithoutEnd(h, limit, width, from);
    StrictCountWithoutStart(h, limit, width, from);
  }

  lemma StrictCountWithoutEnd(h: seq<real>, limit: nat, width: real, from: real)
    requires Sorted(h) && Strict(h, limit, width) && limit > 0 && width > 0.0
    ensures Count(h, OpenEnd(from, from + width)) <= limit
  {
    var low := FirstAtLeast(h, from);
    var high := FirstAtLeast(h, from + width);
    var edge := if high < |h| then h[high] else from;
    assert low + limit < |h| ==> h[low + limit] >= h[low] + width;
    CountRange(h, OpenEnd(from, from + width), low, high);
  }

  lemma StrictCountWithoutStart(h: seq<real>, limit: nat, width: real, from: real)
    requires Sorted(h) && Strict(h, limit, width) && limit > 0 && width > 0.0
    ensures Count(h, OpenStart(from, from + width)) <= limit
  {
    var low := FirstAbove(h, from);
    var high := FirstAbove(h, from + width);
    var edge := if high < |h| then h[high] else from;
    assert low + limit < |h| ==> h[low + limit] >= h[low] + width;
    CountRange(h, OpenStart(from, from + width), low, high);
  }

  lemma {:induction false} SameLimits(w: Window, turns: seq<Turn>)
    requires w.limit > 0
    ensures AfterAll(w, turns).limit == w.limit && AfterAll(w, turns).width == w.width
    decreases |turns|
  {
    if turns != [] {
      SameLimits(After(w, turns[0]), turns[1..]);
    }
  }

  /** A turn in terms of the history: what has left the window, and whether and how long the turn has to wait. */
  lemma TurnFacts(w: Window, turn: Turn) returns (gone: nat)
    requires Inv(w) && ValidTurn(w, turn)
    ensures gone <= |w.history|
    ensures forall i | 0 <= i < |w.history| :: w.history[i] > turn.now - w.width <==> gone <= i
    ensures Decide(w, turn).WaitFor? <==> |w.history| - gone >= w.limit
    ensures Decide(w, turn).WaitFor? ==> gone < |w.history| && Decide(w, turn).delay == w.history[gone] + w.width - turn.now
  {
    gone := PrunedHistory(w, turn.now);
  }

  /** The pruned deque decides exactly what the whole history would: is there room in (now - width, now]? */
  lemma PrunedDequeSuffices(w: Window, turn: Turn)
    requires Inv(w) && ValidTurn(w, turn)
    ensures var room := Count(w.history, OpenStart(turn.now - w.width, turn.now)) < w.limit;
            && (Decide(w, turn).WaitFor? <==> !room)
            && (Decide(w, turn).Refused? <==> room && turn.allowed == Some(false))
            && After(w, turn).history ==
                 w.history + if room && turn.allowed != Some(false) then [turn.later] else []
  {
    var gone := TurnFacts(w, turn);
    CountInWindow(w.history, turn.now - w.width, turn.now, gone);
  }

  lemma CountInWindow(h: seq<real>, cutoff: real, now: real, gone: nat)
    requires gone <= |h| && forall i | 0 <= i < |h| :: h[i] <= now && (h[i] > cutoff <==> gone <= i)
    ensures Count(h, OpenStart(cutoff, now)) == |h| - gone
  {
    CountRange(h, OpenStart(cutoff, now), gone, |h|);
  }

  /** The wait is exact: with no other acquisition there is room from its end on, and not before. */
  lemma WaitIsExact(w: Window, turn: Turn, again: Turn)
    requires Inv(w) && ValidTurn(w, turn) && Decide(w, turn).WaitFor?
    requires ValidTurn(After(w, turn), again)
    ensures Decide(After(w, turn), again).WaitFor? <==> again.now < turn.now + Decide(w, turn).delay
  {
    TurnKeepsInv(w, turn);
    WaitingRecordsNothing(w, turn);
    var gone := TurnFacts(w, turn);
    var gone' := TurnFacts(After(w, turn), again);
    LaterGoesFurther(w.history, turn.now - w.width, gone, again.now - w.width, gone');
  }

  lemma WaitingRecordsNothing(w: Window, turn: Turn)
    requires Inv(w) && ValidTurn(w, turn) && Decide(w, turn).WaitFor?
    ensures After(w, turn).history == w.history && After(w, turn).limit == w.limit && After(w, turn).width == w.width
    ensures |Prune(w.times, turn.now - w.width)| == w.limit
  {
    PruneIsSuffix(w.times, turn.now - w.width);
  }

  /** Pruning later prunes as much or more; exactly as much until the next entry leaves the window. */
  lemma LaterGoesFurther(h: seq<real>, cutoff: real, gone: nat, cutoff': real, gone': nat)
    requires Sorted(h) && cutoff <= cutoff' && gone < |h| && gone' <= |h|
    requires forall i | 0 <= i < |h| :: h[i] > cutoff <==> gone <= i
    requires forall i | 0 <= i < |h| :: h[i] > cutoff' <==> gone' <= i
    ensures gone <= gone' && (gone' == gone <==> h[gone] > cutoff')
  {
    var edge := if gone' < |h| then h[gone'] else h[gone];
  }

  /** What has been pruned so far does not matter: turns depend on the history alone. */
  lemma HistoryDecides(w: Window, w': Window, turn: Turn)
    requires Inv(w) && Inv(w') && w'.history == w.history && w'.limit == w.limit && w'.width == w.width
    requires ValidTurn(w, turn) && ValidTurn(w', turn)
    ensures Decide(w, turn) == Decide(w', turn) && After(w, turn).history == After(w', turn).history
  {
    var gone := TurnFacts(w, turn);
    var gone' := TurnFacts(w', turn);
    assert gone == gone' by {
      assert gone < |w.history| ==> w.history[gone] > turn.now - w.width;
      assert gone' < |w.history| ==> w.history[gone'] > turn.now - w.width;
    }
  }

  lemma {:induction false} HistoryDecidesAll(w: Window, w': Window, turns: seq<Turn>)
    requires Inv(w) && Inv(w') && w'.history == w.history && w'.limit == w.limit && w'.width == w.width
    requires w.clock <= w'.clock && ValidTurns(w', turns)
    ensures ValidTurns(w, turns) && AfterAll(w, turns).history == AfterAll(w', turns).history
    decreases |turns|
  {
    if turns != [] {
      HistoryDecides(w, w', turns[0]);
      TurnKeepsInv(w, turns[0]);
      TurnKeepsInv(w', turns[0]);
      HistoryDecidesAll(After(w, turns[0]), After(w', turns[0]), turns[1..]);
    }
  }

  /** A refused acquire_if and a turn that must wait leave no trace: whatever follows goes as if they had not been. */
  lemma UnrecordedTurnLeavesNoTrace(w: Window, turn: Turn, turns: seq<Turn>)
    requires Inv(w) && ValidTurn(w, turn) && !Decide(w, turn).Recorded? && ValidTurns(After(w, turn), turns)
    ensures ValidTurns(w, turns) && AfterAll(w, turns).history == AfterAll(After(w, turn), turns).history
  {
    TurnKeepsInv(w, turn);
    HistoryDecidesAll(w, After(w, turn), turns);
  }

  /**
   The class comment promises `limit` acquisitions in ANY interval of one window's length. For a closed
   interval that fails exactly when acquisitions `limit` places apart sit on its two ends.
   */
  lemma ClosedIntervalOverflows(w: Window, from: real)
    requires Inv(w)
    ensures Count(w.history, Closed(from, from + w.width)) > w.limit <==>
            exists k :: 0 <= k < k + w.limit < |w.history| && w.history[k] == from && w.history[k + w.limit] == from + w.width
  {
    var h := w.history;
    var low := FirstAtLeast(h, from);
    var high := FirstAbove(h, from + w.width);
    var edge := if high < |h| then h[high] else from;
    assert low + w.limit < |h| ==> h[low + w.limit] >= h[low] + w.width;
    CountRange(h, Closed(from, from + w.width), low, high);
  }

  /** ... and it does fail: one acquisition per second, at 0 and at 1. */
  lemma ClosedIntervalCounterexample()
    ensures var w := Window(1, 1.0, [], [], 0.0);
            var turns := [Turn(0.0, 0.0, None), Turn(1.0, 1.0, None)];
            && Inv(w) && ValidTurns(w, turns)
            && Count(AfterAll(w, turns).history, Closed(0.0, 1.0)) == 2
  {
    var w := Window(1, 1.0, [], [], 0.0);
    var t0, t1 := Turn(0.0, 0.0, None), Turn(1.0, 1.0, None);
    var w1 := After(w, t0);
    assert w1 == Window(1, 1.0, [0.0], [0.0], 0.0);
    assert Prune([0.0][1..], 0.0) == [];
    var w2 := After(w1, t1);
    assert w2.history == [0.0, 1.0];
    assert AfterAll(w2, []) == w2;
    assert [t0, t1][1..] == [t1] && [t1][1..] == [];
    assert AfterAll(w1, [t1]) == w2 && ValidTurns(w1, [t1]);
    CountRange(w2.history, Closed(0.0, 1.0), 0, 2);
  }

  /** The limiter object: `times` is the source's deque. */
  class StrictSlidingWindowLimiter {
    const rateLimit: nat
    const rateWindow: real
    var times: seq<real>
    ghost var history: seq<real>
    ghost var clock: real

    ghost function View(): Window
      reads this
    {
      Window(rateLimit, rateWindow, times, history, clock)
    }

    constructor (rateLimit: nat, rateWindow: real)
      requires rateLimit > 0 && rateWindow > 0.0
      ensures Inv(View()) && history == []
    {
      this.rateLimit, this.rateWindow := rateLimit, rateWindow;
      times, history, clock := [], [], 0.0;
    }

    /** The inner loop of a turn: pop what has left the window. */
    method PopExpired(cutoff: real)
      modifies `times
      ensures times == Prune(old(times), cutoff)
    {
      while times != [] && times[0] <= cutoff
        invariant Prune(times, cutoff) == Prune(old(times), cutoff)
        decreases |times|
      {
        times := times[1..];
      }
    }

    /** One turn of _acquire under its lock, reading the clock twice; TurnKeepsInv says what it keeps. */
    method AcquireTurn(allowed: Option<bool>, now: real, later: real) returns (outcome: Outcome)
      requires rateLimit > 0 && clock <= now <= later
      modifies this
      ensures View() == After(old(View()), Turn(now, later, allowed))
      ensures outcome == Decide(old(View()), Turn(now, later, allowed))
    {
      PopExpired(now - rateWindow);
      clock := later;
      if |times| < rateLimit {
        if allowed == Some(false) {
          outcome := Refused;
        } else {
          times := times + [later];
          history := history + [later];
          outcome := Recorded;
        }
      } else {
        var oldest := times[0];
        outcome := WaitFor(Max(0.0, oldest + rateWindow - now));
      }
    }
  }
}
