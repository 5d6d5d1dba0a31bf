/** Running a request over its candidates: the loops, proved to do what FallbackModel says of the scripts. */
module Fallback {
  import opened Options
  import opened FallbackModel

  /** What a log comes to: `sound` if every event fits the candidates and every chunk was read in time. */
  datatype Totals = Totals(life: Life, taken: seq<Event>, deadline: real, sound: bool)

  function Add(t: Totals, e: Event, candidates: seq<Candidate>, timeout: Duration): Totals
    requires candidates != []
  {
    Totals(Next(t.life, e), if e.Yielded? then t.taken + [e] else t.taken,
           if e.Yielded? then e.resumedAt + timeout else t.deadline,
           t.sound && Fits(e, candidates) && (e.Yielded? ==> e.readAt < t.deadline))
  }

  function TotalsOf(log: seq<Event>, candidates: seq<Candidate>, start: real, timeout: Duration): Totals
    requires candidates != []
  {
    if log == [] then Totals(Ready, [], start + timeout, true)
    else Add(TotalsOf(log[..|log| - 1], candidates, start, timeout), log[|log| - 1], candidates, timeout)
  }

  lemma AddLast(log: seq<Event>, e: Event, candidates: seq<Candidate>, start: real, timeout: Duration)
    requires candidates != []
    ensures TotalsOf(log + [e], candidates, start, timeout) ==
            Add(TotalsOf(log, candidates, start, timeout), e, candidates, timeout)
  {
    assert (log + [e])[..|log|] == log;
  }

  lemma SoundUpTo(log: seq<Event>, n: nat, candidates: seq<Candidate>, start: real, timeout: Duration)
    requires candidates != [] && |log| == n + 1
    ensures AllFit(log, candidates) <==> AllFit(log[..n], candidates) && Fits(log[n], candidates)
    ensures OnTime(log, start, timeout) <==>
            OnTime(log[..n], start, timeout) && (log[n].Yielded? ==> log[n].readAt < Deadline(log[..n], start, timeout))
  {
    assert forall i | 0 <= i < n :: log[..n][i] == log[i];
    assert forall i | 0 <= i < n :: log[..n][..i] == log[..i];
  }

  /** The totals say of a log what one would ask of it event by event. */
  lemma {:induction false} TotalsMean(log: seq<Event>, candidates: seq<Candidate>, start: real, timeout: Duration)
    requires candidates != []
    ensures var t := TotalsOf(log, candidates, start, timeout);
            && t.life == LifeAfter(log) && t.taken == Takes(log) && t.deadline == Deadline(log, start, timeout)
            && (t.sound <==> AllFit(log, candidates) && OnTime(log, start, timeout))
  {
    if log != [] {
      var n := |log| - 1;
      TotalsMean(log[..n], candidates, start, timeout);
      SoundUpTo(log, n, candidates, start, timeout);
    }
  }

  /** The candidate that gets a chunk out is the one that decides. */
  lemma ChunkDecides(candidates: seq<Candidate>, i: nat, k: nat)
    requires i < |candidates| && (forall j | 0 <= j < i :: FailsEarly(candidates[j])) && candidates[i].Stream?
    requires k < |candidates[i].script| && EndFrom(candidates[i].script, k) == EndFrom(candidates[i].script, 0)
    requires candidates[i].script[k].Chunk?
    ensures HasText(candidates[i].script[k]) ==> i == Winner(candidates)
  {
    TextsGrow(candidates[i].script, k + 1, EndFrom(candidates[i].script, 0));
    WinnerIs(candidates, i);
  }

  /** All candidates before `i` failed early, and in time. */
  ghost predicate AllFailed(candidates: seq<Candidate>, i: nat, start: Clock, timeout: Duration, stopAt: Option<nat>)
    requires i <= |candidates|
  {
    forall j | 0 <= j < i :: FailsEarly(candidates[j]) && !OutcomeOf(candidates, j, start, timeout, stopAt).TimedOut?
  }

  /** The outcome, with candidate `last` the last one tried. */
  ghost predicate Decided(candidates: seq<Candidate>, last: nat, start: Clock, timeout: Duration, stopAt: Option<nat>,
                          outcome: Outcome)
    requires last < |candidates|
  {
    && (outcome.TimedOut? <==> TimesOut(candidates, start, timeout, stopAt))
    && (if outcome.TimedOut?
        then last <= Winner(candidates) && OutcomeOf(candidates, last, start, timeout, stopAt).TimedOut?
        else last == Winner(candidates) &&
             outcome == if Leaves(candidates[last], stopAt) then Abandoned else Result(candidates[last]))
  }

  /** After candidates that failed early and in time, a round either lets the next one try or decides the request. */
  lemma RoundDecides(candidates: seq<Candidate>, i: nat, start: Clock, timeout: Duration, stopAt: Option<nat>,
                     outcome: Outcome, taken: seq<Event>)
    requires i < |candidates| && AllFailed(candidates, i, start, timeout, stopAt)
    requires outcome == OutcomeOf(candidates, i, start, timeout, stopAt)
    requires taken == TakenBy(i, candidates[i], ClockAt(candidates, i, start, timeout), timeout, stopAt)
    ensures outcome.Raised? ==> Result(candidates[i]) == outcome
    ensures outcome.Completed? ==> i == Winner(candidates)
    ensures if outcome.Raised? && taken == [] && i + 1 < |candidates|
            then AllFailed(candidates, i + 1, start, timeout, stopAt)
            else Decided(candidates, i, start, timeout, stopAt, outcome)
  {
    var at := ClockAt(candidates, i, start, timeout);
    WinnerIs(candidates, i);
    WinnerIsFirst(candidates);
    var n := TakenIsOutput(i, candidates[i], at, timeout, stopAt);
    if !outcome.TimedOut? {
      OutcomeInTime(i, candidates[i], at, timeout, stopAt);
    }
  }

  /** The inner loop has taken `k` answers. */
  ghost predicate Reading(i: nat, script: seq<Read>, k: nat, begin: Clock, timeout: Duration, stopAt: Option<nat>, p: Progress)
  {
    && k <= |script| && EndFrom(script, k) == EndFrom(script, 0) && Present(|p.taken|, stopAt)
    && p == After(i, script, k, begin, timeout)
    && StopsAt(i, script, k, begin, timeout, stopAt) == StopsAt(i, script, 0, begin, timeout, stopAt)
  }

  lemma ReadingGoesOn(i: nat, script: seq<Read>, k: nat, begin: Clock, timeout: Duration, stopAt: Option<nat>,
                      p: Progress, p': Progress)
    requires Reading(i, script, k, begin, timeout, stopAt, p) && !Stops(script, k, p, stopAt)
    requires p' == Answer(i, p, script[k], timeout) && Present(|p'.taken|, stopAt)
    ensures Reading(i, script, k + 1, begin, timeout, stopAt, p')
  {
  }

  ghost predicate DoneReading(i: nat, script: seq<Read>, begin: Clock, timeout: Duration, stopAt: Option<nat>,
                              taken: seq<Event>, end: Outcome)
  {
    && end == ReadOutcome(i, script, begin, timeout, stopAt)
    && taken == ReadProgress(i, script, begin, timeout, stopAt).taken
  }

  lemma ReadingIsLeft(i: nat, script: seq<Read>, k: nat, begin: Clock, timeout: Duration, stopAt: Option<nat>,
                      p: Progress, p': Progress)
    requires Reading(i, script, k, begin, timeout, stopAt, p) && !Stops(script, k, p, stopAt)
    requires p' == Answer(i, p, script[k], timeout) && !Present(|p'.taken|, stopAt)
    ensures DoneReading(i, script, begin, timeout, stopAt, p'.taken, Abandoned)
  {
    assert p' == After(i, script, k + 1, begin, timeout);
    assert StopsAt(i, script, k, begin, timeout, stopAt) == StopsAt(i, script, k + 1, begin, timeout, stopAt) == k + 1;
  }

  lemma ReadingEnds(i: nat, script: seq<Read>, k: nat, begin: Clock, timeout: Duration, stopAt: Option<nat>, p: Progress)
    requires Reading(i, script, k, begin, timeout, stopAt, p) && Stops(script, k, p, stopAt)
    ensures DoneReading(i, script, begin, timeout, stopAt, p.taken, OutcomeAt(script, k, p, stopAt))
    ensures !Late(script, k, p.time) ==> Later(p.time, script[k].delay) == ReadClock(i, script, begin, timeout)
  {
    assert StopsAt(i, script, 0, begin, timeout, stopAt) == k;
    if !Late(script, k, p.time) {
      assert After(i, script, k + 1, begin, timeout) == Answer(i, p, script[k], timeout);
    }
  }

  class ProviderExecutor {
    const candidates: seq<Candidate>
    const progressTimeout: Duration
    var now: real
    var deadline: real
    var log: seq<Event>
    var taken: seq<Event>
    ghost var start: real
    ghost var totals: Totals

    /** The totals are those of the log; TotalsMean says what that amounts to. */
    ghost predicate Valid()
      reads this
    {
      && candidates != [] && totals == TotalsOf(log, candidates, start, progressTimeout)
      && totals.sound && taken == totals.taken && deadline == totals.deadline
    }

    ghost function Life(): Life
      reads this
    {
      totals.life
    }

    ghost function Time(): Clock
      reads this
    {
      Clock(now, deadline)
    }

    constructor (candidates: seq<Candidate>, timeout: Duration, now: real)
      requires candidates != []
      ensures Valid() && Life().Ready? && taken == [] && this.candidates == candidates && progressTimeout == timeout
      ensures Time() == Clock(now, now + timeout)
    {
      this.candidates, progressTimeout, this.now, deadline := candidates, timeout, now, now + timeout;
      log, taken, start, totals := [], [], now, Totals(Ready, [], now + timeout, true);
    }

    method Record(e: Event)
      requires Valid() && !e.Yielded? && Fits(e, candidates)
      modifies `log, `totals
      ensures Valid() && log == old(log) + [e] && Life() == Next(old(Life()), e)
    {
      AddLast(log, e, candidates, start, progressTimeout);
      log, totals := log + [e], Add(totals, e, candidates, progressTimeout);
    }

    /** The consumer takes the chunk and comes back; only now does the deadline move. */
    method Yield(i: nat, text: Text, readAt: real, held: Duration)
      requires Valid() && readAt < deadline && i == Winner(candidates) && Life() == Open(i, true)
      modifies `now, `deadline, `log, `taken, `totals
      ensures Valid() && Life() == Open(i, true)
      ensures Time() == Clock(old(now) + held, old(now) + held + progressTimeout)
      ensures taken == old(taken) + [Yielded(i, text, readAt, now)]
    {
      now := now + held;
      var e := Yielded(i, text, readAt, now);
      AddLast(log, e, candidates, start, progressTimeout);
      log, totals := log + [e], Add(totals, e, candidates, progressTimeout);
      taken, deadline := taken + [e], now + progressTimeout;
    }

    /** One chunk: the first that is not empty selects its candidate; each of them goes to the consumer. */
    method TakeChunk(i: nat, chunk: Read)
      requires Valid() && Life() == Open(i, taken != []) && chunk.Chunk? && now + chunk.delay < deadline
      requires HasText(chunk) ==> i == Winner(candidates)
      modifies `now, `deadline, `log, `taken, `totals
      ensures Valid() && Life() == Open(i, taken != [])
      ensures var p := Answer(i, Progress(old(Time()), old(taken)), chunk, progressTimeout);
              Time() == p.time && taken == p.taken
    {
      now := now + chunk.delay;
      if chunk.text != [] {
        var readAt := now;
        if taken == [] {
          Record(Selected(i));
          now := now + chunk.selecting;
        }
        Yield(i, chunk.text, readAt, chunk.held);
      }
    }

    /** The inner loop: read one stream until it ends, fails, runs out of time, or the consumer leaves. */
    method ReadStream(i: nat, script: seq<Read>, stopAt: Option<nat>) returns (end: Outcome)
      requires Valid() && Life() == Open(i, false) && taken == []
      requires i < |candidates| && candidates[i].Stream? && candidates[i].script == script
      requires forall j | 0 <= j < i :: FailsEarly(candidates[j])
      modifies `now, `deadline, `log, `taken, `totals
      ensures Valid() && Life() == Open(i, taken != [])
      ensures DoneReading(i, script, old(Time()), progressTimeout, stopAt, taken, end)
      ensures end.Completed? || end.Raised? ==> Time() == ReadClock(i, script, old(Time()), progressTimeout)
    {
      ghost var begin, timeout := Time(), progressTimeout;
      var k := 0;
      while true
        invariant Valid() && Life() == Open(i, taken != [])
        invariant Reading(i, script, k, begin, timeout, stopAt, Progress(Time(), taken))
        decreases |script| - k
      {
        ghost var p := Progress(Time(), taken);
        if Stops(script, k, p, stopAt) {
          ReadingEnds(i, script, k, begin, timeout, stopAt, p);
        }
        if now >= deadline {
          return TimedOut;
        }
        if k == |script| || now + script[k].delay >= deadline {
          now := deadline;
          return TimedOut;
        }
        if !script[k].Chunk? {
          now := now + script[k].delay;
          return EndOfAnswer(script[k]);
        }
        ChunkDecides(candidates, i, k);
        TakeChunk(i, script[k]);
        if taken != [] && stopAt.Some? && |taken| >= stopAt.value {
          ReadingIsLeft(i, script, k, begin, timeout, stopAt, p, Progress(Time(), taken));
          return Abandoned;
        }
        ReadingGoesOn(i, script, k, begin, timeout, stopAt, p, Progress(Time(), taken));
        k := k + 1;
      }
    }

    /** The end of a candidate's stream. Unless an exception is under way the deadline covers the closing as well. */
    method CloseStream(i: nat, closing: Duration, outcome: Outcome) returns (end: Outcome)
      requires Valid() && Life().Open? && Life().candidate == i < |candidates| && candidates[i].Stream?
      modifies `now, `log, `totals
      ensures Valid() && log == old(log) + [Closed(i)] && Life() == Shut(i, old(Life()).committed)
      ensures end == AfterClosing(outcome, closing, old(Time()))
      ensures end.Raised? ==> Time() == Later(old(Time()), closing)
    {
      Record(Closed(i));
      var raising := !outcome.Completed? && !outcome.Raised?;
      if !raising && closing > 0.0 && now + closing >= deadline {
        now := if now < deadline then deadline else now;
        return TimedOut;
      }
      now := now + closing;
      return outcome;
    }

    /** A stream is opened, read and closed, however the reading ends. */
    method TryStream(i: nat, stopAt: Option<nat>) returns (end: Outcome)
      requires Valid() && MayTry(Life(), i) && taken == []
      requires i < |candidates| && candidates[i].Stream? && forall j | 0 <= j < i :: FailsEarly(candidates[j])
      modifies `now, `deadline, `log, `taken, `totals
      ensures Valid() && Life() == Shut(i, taken != [])
      ensures var script, closing := candidates[i].script, candidates[i].closing;
              var clock := ReadClock(i, script, old(Time()), progressTimeout);
              && taken == ReadProgress(i, script, old(Time()), progressTimeout, stopAt).taken
              && end == AfterClosing(ReadOutcome(i, script, old(Time()), progressTimeout, stopAt), closing, clock)
              && (end.Raised? ==> Time() == Later(clock, closing))
    {
      Record(Opened(i));
      var outcome := ReadStream(i, candidates[i].script, stopAt);
      end := CloseStream(i, candidates[i].closing, outcome);
    }

    /** One round of the outer loop, up to the point where the candidate's stream is closed. */
    method TryCandidate(i: nat, stopAt: Option<nat>) returns (end: Outcome)
      requires Valid() && MayTry(Life(), i) && taken == []
      requires i < |candidates| && forall j | 0 <= j < i :: FailsEarly(candidates[j])
      modifies `now, `deadline, `log, `taken, `totals
      ensures Valid() && end == TryOutcome(i, candidates[i], old(Time()), progressTimeout, stopAt)
      ensures taken == TakenBy(i, candidates[i], old(Time()), progressTimeout, stopAt)
      ensures Life() == if candidates[i].Refuses? || candidates[i].Stream? then Shut(i, taken != []) else old(Life())
      ensures end.Raised? ==> Time() == TryClock(i, candidates[i], old(Time()), progressTimeout)
    {
      now := now + candidates[i].opening;
      match candidates[i] {
        case Refuses(_, error) =>
          Record(Refused(i, error));
          end := Raised(error);
        case Breaks(_, error) =>
          end := Crashed(error);
        case NotAStream(_) =>
          end := NoStream;
        case Stream(_, _, _) =>
          end := TryStream(i, stopAt);
      }
    }

    /** What follows a round: the failure is reported, or a clean end without a chunk selects the candidate. */
    method FinishRound(i: nat, outcome: Outcome)
      requires Valid() && i < |candidates| && (outcome.Raised? ==> Result(candidates[i]) == outcome)
      requires outcome.Raised? || outcome.Completed? ==> Life() == Shut(i, taken != [])
      requires outcome.Completed? ==> i == Winner(candidates)
      modifies `log, `totals
      ensures Valid()
      ensures Life() == if outcome.Raised? then Failed(i, taken != [])
                      else if outcome.Completed? && taken == [] then Finished(i) else old(Life())
    {
      if outcome.Raised? {
        Record(Reported(i, outcome.error));
      } else if outcome.Completed? && taken == [] {
        Record(Selected(i));
      }
    }

    /** Candidate `i` gets its turn: those before it have failed early and in time. */
    ghost predicate Turn(i: nat, begin: Clock, stopAt: Option<nat>)
      reads this
    {
      && Valid() && i < |candidates| && taken == [] && Life() == (if i == 0 then Ready else Failed(i - 1, false))
      && Time() == ClockAt(candidates, i, begin, progressTimeout)
      && AllFailed(candidates, i, begin, progressTimeout, stopAt)
    }

    /**
     The request is over after candidate `last`. The chunks that got out, with their times, are those of its round, and
     no stream is left open.
     */
    ghost predicate Served(last: nat, begin: Clock, stopAt: Option<nat>, outcome: Outcome)
      reads this
    {
      && Valid() && last < |candidates| && Life() == EndsIn(candidates[last], last, taken != [], outcome)
      && Decided(candidates, last, begin, progressTimeout, stopAt, outcome)
      && taken == TakenBy(last, candidates[last], ClockAt(candidates, last, begin, progressTimeout), progressTimeout, stopAt)
    }

    /** One round of the outer loop, to its end: `more` if the next candidate may try. */
    method Round(i: nat, ghost begin: Clock, stopAt: Option<nat>) returns (outcome: Outcome, more: bool)
      requires Turn(i, begin, stopAt)
      modifies `now, `deadline, `log, `taken, `totals
      ensures more ==> Turn(i + 1, begin, stopAt)
      ensures !more ==> Served(i, begin, stopAt, outcome)
    {
      outcome := TryCandidate(i, stopAt);
      RoundDecides(candidates, i, begin, progressTimeout, stopAt, outcome, taken);
      FinishRound(i, outcome);
      more := outcome.Raised? && taken == [] && i + 1 < |candidates|;
    }

    /** The outer loop. */
    method TryAll(ghost begin: Clock, stopAt: Option<nat>) returns (outcome: Outcome, ghost last: nat)
      requires Turn(0, begin, stopAt)
      modifies `now, `deadline, `log, `taken, `totals
      ensures Served(last, begin, stopAt, outcome)
    {
      for i := 0 to |candidates|
        invariant Turn(i, begin, stopAt)
      {
        var more;
        outcome, more := Round(i, begin, stopAt);
        if !more {
          return outcome, i;
        }
      }
      assert false;
    }

    /**
     For any candidates, timings and consumer: the request times out exactly if some wait in the scripts is too long;
     otherwise it ends as the candidate that decides does, or with the consumer leaving it.
     */
    method StreamCandidates(stopAt: Option<nat>) returns (outcome: Outcome, ghost last: nat)
      requires Valid() && Life().Ready? && taken == []
      modifies `now, `deadline, `log, `taken, `totals
      ensures Served(last, old(Time()), stopAt, outcome)
      ensures outcome.TimedOut? <==> RequestRunsOut(candidates, old(Time()), progressTimeout, stopAt)
    {
      ghost var begin := Time();
      outcome, last := TryAll(begin, stopAt);
      RequestTimesOutIff(candidates, begin, progressTimeout, stopAt);
    }
  }
}
