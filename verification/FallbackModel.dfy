/**
 A request over an ordered list of candidate streams, each of which may fail: what each candidate does, when, and what
 that makes of the request, as functions of the scripts, the start time and the consumer's patience.
 */
module FallbackModel {
  import opened Options

  type Duration = d: real | d >= 0.0
  type Text = seq<char>
  type Error = nat

  /**
   What a stream does when it is read: it takes `delay` to answer. A chunk's `selecting` is the time the selection
   callback takes, `held` how long the consumer keeps the chunk. A stream that is read past its script never answers.
   */
  datatype Read =
    | Chunk(text: Text, delay: Duration, selecting: Duration, held: Duration)
    | End(delay: Duration)
    | Failure(error: Error, delay: Duration)
    | Crash(error: Error, delay: Duration)

  /** Opening a candidate may fail, fail otherwise (Breaks), give no stream at all, or give a stream. */
  datatype Candidate =
    | Refuses(opening: Duration, error: Error)
    | Breaks(opening: Duration, error: Error)
    | NotAStream(opening: Duration)
    | Stream(opening: Duration, script: seq<Read>, closing: Duration)

  /** Completed, the candidate's failure, any other exception, a TypeError, the progress timeout, or the consumer left. */
  datatype Outcome = Completed | Raised(error: Error) | Crashed(error: Error) | NoStream | TimedOut | Abandoned

  datatype Event =
    | Refused(candidate: nat, error: Error)
    | Opened(candidate: nat)
    | Selected(candidate: nat)
    | Yielded(candidate: nat, text: Text, readAt: real, resumedAt: real)
    | Closed(candidate: nat)
    | Reported(candidate: nat, error: Error)

  // ---------------------------------------------------------------- the reference: no time, no consumer

  /** The first answer from `k` on that is no chunk, or the end of the script. */
  function EndFrom(script: seq<Read>, k: nat): (end: nat)
    requires k <= |script|
    ensures k <= end <= |script| && (end < |script| ==> !script[end].Chunk?)
    decreases |script| - k
  {
    if k == |script| || !script[k].Chunk? then k else EndFrom(script, k + 1)
  }

  predicate HasText(r: Read) { r.Chunk? && r.text != [] }

  /** The texts of the first `k` answers, without the empty ones. */
  function Texts(script: seq<Read>, k: nat): seq<Text>
    requires k <= |script|
  {
    if k == 0 then []
    else if HasText(script[k - 1]) then Texts(script, k - 1) + [script[k - 1].text]
    else Texts(script, k - 1)
  }

  function Chunks(script: seq<Read>): seq<Text> {
    Texts(script, EndFrom(script, 0))
  }

  function EndOfAnswer(r: Read): Outcome
    requires !r.Chunk?
  {
    match r
    case End(_) => Completed
    case Failure(error, _) => Raised(error)
    case Crash(error, _) => Crashed(error)
  }

  function EndOf(script: seq<Read>): Outcome {
    var k := EndFrom(script, 0);
    if k == |script| then TimedOut else EndOfAnswer(script[k])
  }

  lemma {:induction false} TextsGrow(script: seq<Read>, k: nat, n: nat)
    requires k <= n <= |script|
    ensures Texts(script, k) <= Texts(script, n)
  {
    if k < n {
      TextsGrow(script, k, n - 1);
    }
  }

  /** The first answer that is no chunk decides how the stream ends; one without such an answer never does. */
  lemma EndsWithFirstOther(script: seq<Read>, k: nat)
    requires k <= |script| && (forall j | 0 <= j < k :: script[j].Chunk?) && (k < |script| ==> !script[k].Chunk?)
    ensures EndFrom(script, 0) == k
    ensures EndOf(script) == if k == |script| then TimedOut
                             else if script[k].End? then Completed
                             else if script[k].Failure? then Raised(script[k].error) else Crashed(script[k].error)
  {
    EndIsAfter(script, 0, k);
  }

  lemma {:induction false} EndIsAfter(script: seq<Read>, from: nat, k: nat)
    requires from <= k <= |script| && (forall j | from <= j < k :: script[j].Chunk?) && (k < |script| ==> !script[k].Chunk?)
    ensures EndFrom(script, from) == k
    decreases k - from
  {
    if from < k {
      EndIsAfter(script, from + 1, k);
    }
  }

  function Output(c: Candidate): seq<Text> {
    if c.Stream? then Chunks(c.script) else []
  }

  function Result(c: Candidate): Outcome {
    match c
    case Refuses(_, error) => Raised(error)
    case Breaks(_, error) => Crashed(error)
    case NotAStream(_) => NoStream
    case Stream(_, script, _) => EndOf(script)
  }

  /** The candidate fails before it has produced anything, so the next one may take its place. */
  predicate FailsEarly(c: Candidate) {
    Result(c).Raised? && Output(c) == []
  }

  /** Answer `k` is a failure, and nothing came before it but empty chunks. */
  predicate FailsAt(script: seq<Read>, k: nat) {
    k < |script| && script[k].Failure? && forall j | 0 <= j < k :: script[j].Chunk? && script[j].text == []
  }

  lemma {:induction false} NoTextsIff(script: seq<Read>, k: nat)
    requires k <= |script|
    ensures Texts(script, k) == [] <==> forall j | 0 <= j < k :: !HasText(script[j])
  {
    if k > 0 {
      NoTextsIff(script, k - 1);
    }
  }

  /** Another candidate may follow exactly after one that refuses, or whose stream fails before its first text. */
  lemma FailsEarlyIff(c: Candidate)
    ensures FailsEarly(c) <==> c.Refuses? || (c.Stream? && exists k :: FailsAt(c.script, k))
  {
    if c.Stream? {
      var end := EndFrom(c.script, 0);
      ChunksBeforeEnd(c.script, 0);
      NoTextsIff(c.script, end);
      if FailsEarly(c) {
        assert FailsAt(c.script, end);
      }
      if k :| FailsAt(c.script, k) {
        EndsWithFirstOther(c.script, k);
      }
    }
  }

  lemma {:induction false} ChunksBeforeEnd(script: seq<Read>, from: nat)
    requires from <= |script|
    ensures forall j | from <= j < EndFrom(script, from) :: script[j].Chunk?
    decreases |script| - from
  {
    if from < |script| && script[from].Chunk? {
      ChunksBeforeEnd(script, from + 1);
    }
  }

  /** The candidate that decides: the first that does not fail early, or the last. */
  function Winner(candidates: seq<Candidate>): (i: nat)
    requires candidates != []
    ensures i < |candidates|
  {
    if |candidates| == 1 || !FailsEarly(candidates[0]) then 0 else 1 + Winner(candidates[1..])
  }

  lemma {:induction false} WinnerIsFirst(candidates: seq<Candidate>)
    requires candidates != []
    ensures forall j | 0 <= j < Winner(candidates) :: FailsEarly(candidates[j])
    ensures FailsEarly(candidates[Winner(candidates)]) ==> Winner(candidates) == |candidates| - 1
  {
    if |candidates| > 1 && FailsEarly(candidates[0]) {
      WinnerIsFirst(candidates[1..]);
      forall j | 0 <= j < Winner(candidates) ensures FailsEarly(candidates[j]) {
        assert j > 0 ==> candidates[j] == candidates[1..][j - 1];
      }
    }
  }

  lemma {:induction false} WinnerIs(candidates: seq<Candidate>, i: nat)
    requires i < |candidates| && forall j | 0 <= j < i :: FailsEarly(candidates[j])
    ensures !FailsEarly(candidates[i]) || i == |candidates| - 1 ==> Winner(candidates) == i
  {
    if i > 0 {
      assert FailsEarly(candidates[0]);
      forall j | 0 <= j < i - 1 ensures FailsEarly(candidates[1..][j]) {
        assert candidates[1..][j] == candidates[j + 1];
      }
      WinnerIs(candidates[1..], i - 1);
    }
  }

  // ---------------------------------------------------------------- time and the consumer

  datatype Clock = Clock(now: real, deadline: real)

  /** How far the reading of one stream has come: the time, and the chunks that have got out. */
  datatype Progress = Progress(time: Clock, taken: seq<Event>)

  function Later(time: Clock, d: Duration): Clock {
    time.(now := time.now + d)
  }

  /**
   What one answer does. Only a chunk with text gets out, after the selection if it is the first, and only when the
   consumer comes back from it does the deadline move.
   */
  function Answer(i: nat, p: Progress, r: Read, timeout: Duration): Progress {
    if !HasText(r) then Progress(Later(p.time, r.delay), p.taken)
    else
      var readAt := p.time.now + r.delay;
      var back := readAt + (if p.taken == [] then r.selecting else 0.0) + r.held;
      Progress(Clock(back, back + timeout), p.taken + [Yielded(i, r.text, readAt, back)])
  }

  /** Candidate `i`, whose stream is opened at `begin`, after the first `k` answers. */
  function After(i: nat, script: seq<Read>, k: nat, begin: Clock, timeout: Duration): Progress
    requires k <= |script|
  {
    if k == 0 then Progress(begin, []) else Answer(i, After(i, script, k - 1, begin, timeout), script[k - 1], timeout)
  }

  /** The next answer does not come before the deadline. */
  predicate Late(script: seq<Read>, k: nat, time: Clock)
    requires k <= |script|
  {
    k == |script| || time.now + script[k].delay >= time.deadline
  }

  /** The consumer leaves with the chunk that makes up `stopAt`, if it ever does. */
  predicate Present(chunks: nat, stopAt: Option<nat>) {
    chunks == 0 || stopAt.None? || chunks < stopAt.value
  }

  /** The reading stops: the consumer is gone, the next answer is late, or it is no chunk. */
  predicate Stops(script: seq<Read>, k: nat, p: Progress, stopAt: Option<nat>)
    requires k <= |script|
  {
    !Present(|p.taken|, stopAt) || Late(script, k, p.time) || !script[k].Chunk?
  }

  /** How many answers are taken in all, when `k` have been. */
  function StopsAt(i: nat, script: seq<Read>, k: nat, begin: Clock, timeout: Duration, stopAt: Option<nat>): (stop: nat)
    requires k <= |script|
    ensures k <= stop <= |script| && Stops(script, stop, After(i, script, stop, begin, timeout), stopAt)
    decreases |script| - k
  {
    if Stops(script, k, After(i, script, k, begin, timeout), stopAt) then k
    else StopsAt(i, script, k + 1, begin, timeout, stopAt)
  }

  function OutcomeAt(script: seq<Read>, k: nat, p: Progress, stopAt: Option<nat>): Outcome
    requires k <= |script| && Stops(script, k, p, stopAt)
  {
    if !Present(|p.taken|, stopAt) then Abandoned
    else if Late(script, k, p.time) then TimedOut
    else EndOfAnswer(script[k])
  }

  /** How far the stream of candidate `i` is read, and how that ends. */
  function ReadProgress(i: nat, script: seq<Read>, begin: Clock, timeout: Duration, stopAt: Option<nat>): Progress {
    After(i, script, StopsAt(i, script, 0, begin, timeout, stopAt), begin, timeout)
  }

  function ReadOutcome(i: nat, script: seq<Read>, begin: Clock, timeout: Duration, stopAt: Option<nat>): Outcome {
    var stop := StopsAt(i, script, 0, begin, timeout, stopAt);
    OutcomeAt(script, stop, After(i, script, stop, begin, timeout), stopAt)
  }

  /** The clock when the stream has been read to its end. */
  function ReadClock(i: nat, script: seq<Read>, begin: Clock, timeout: Duration): Clock {
    var end := EndFrom(script, 0);
    After(i, script, if end < |script| then end + 1 else end, begin, timeout).time
  }

  function TryClock(i: nat, c: Candidate, time: Clock, timeout: Duration): Clock {
    if c.Stream? then Later(ReadClock(i, c.script, Later(time, c.opening), timeout), c.closing) else Later(time, c.opening)
  }

  /** Closing is under the deadline too, if it takes any time. */
  predicate ClosesLate(closing: Duration, time: Clock) {
    closing > 0.0 && time.now + closing >= time.deadline
  }

  function AfterClosing(outcome: Outcome, closing: Duration, time: Clock): Outcome {
    if (outcome.Completed? || outcome.Raised?) && ClosesLate(closing, time) then TimedOut else outcome
  }

  /** How the round of candidate `i` goes that starts at `time`. */
  function TryOutcome(i: nat, c: Candidate, time: Clock, timeout: Duration, stopAt: Option<nat>): Outcome {
    if !c.Stream? then Result(c)
    else
      var begin := Later(time, c.opening);
      AfterClosing(ReadOutcome(i, c.script, begin, timeout, stopAt), c.closing, ReadClock(i, c.script, begin, timeout))
  }

  /** The chunks that get out in that round, and when. */
  function TakenBy(i: nat, c: Candidate, time: Clock, timeout: Duration, stopAt: Option<nat>): seq<Event> {
    if c.Stream? then ReadProgress(i, c.script, Later(time, c.opening), timeout, stopAt).taken else []
  }

  /** The clock when candidate `i` gets its turn, all earlier ones having failed. */
  function ClockAt(candidates: seq<Candidate>, i: nat, start: Clock, timeout: Duration): Clock
    requires i <= |candidates|
  {
    if i == 0 then start else TryClock(i - 1, candidates[i - 1], ClockAt(candidates, i - 1, start, timeout), timeout)
  }

  function OutcomeOf(candidates: seq<Candidate>, i: nat, start: Clock, timeout: Duration, stopAt: Option<nat>): Outcome
    requires i < |candidates|
  {
    TryOutcome(i, candidates[i], ClockAt(candidates, i, start, timeout), timeout, stopAt)
  }

  /** The request runs out of time: at the candidate that decides, or at one before it. */
  ghost predicate TimesOut(candidates: seq<Candidate>, start: Clock, timeout: Duration, stopAt: Option<nat>)
    requires candidates != []
  {
    exists i :: 0 <= i <= Winner(candidates) && OutcomeOf(candidates, i, start, timeout, stopAt).TimedOut?
  }

  /** The consumer is gone before the candidate has come to its end. */
  predicate Leaves(c: Candidate, stopAt: Option<nat>) {
    c.Stream? && !Present(|Output(c)|, stopAt)
  }

  ghost predicate HaveTexts(events: seq<Event>, texts: seq<Text>) {
    |events| == |texts| && forall k | 0 <= k < |events| :: events[k].Yielded? && events[k].text == texts[k]
  }

  lemma {:induction false} TakenTexts(i: nat, script: seq<Read>, k: nat, begin: Clock, timeout: Duration)
    requires k <= |script|
    ensures HaveTexts(After(i, script, k, begin, timeout).taken, Texts(script, k))
  {
    if k > 0 {
      TakenTexts(i, script, k - 1, begin, timeout);
    }
  }

  /** Every answer before the one where the reading stops was a chunk, in time, with the consumer there. */
  lemma {:induction false} StopFacts(i: nat, script: seq<Read>, k: nat, begin: Clock, timeout: Duration, stopAt: Option<nat>)
    requires k <= |script| && EndFrom(script, k) == EndFrom(script, 0)
    ensures var stop := StopsAt(i, script, k, begin, timeout, stopAt);
            && EndFrom(script, stop) == EndFrom(script, 0)
            && forall j | k <= j < stop :: !Stops(script, j, After(i, script, j, begin, timeout), stopAt)
    decreases |script| - k
  {
    if !Stops(script, k, After(i, script, k, begin, timeout), stopAt) {
      StopFacts(i, script, k + 1, begin, timeout, stopAt);
    }
  }

  lemma TakenGrow(i: nat, script: seq<Read>, j: nat, k: nat, begin: Clock, timeout: Duration)
    requires j <= k <= |script|
    ensures |After(i, script, j, begin, timeout).taken| <= |After(i, script, k, begin, timeout).taken|
  {
    TextsGrow(script, j, k);
    TakenTexts(i, script, j, begin, timeout);
    TakenTexts(i, script, k, begin, timeout);
  }

  // ---------------------------------------------------------------- running out of time, as sums over the scripts

  /** How long the answers from `from` up to `to` take in all. */
  function Delays(script: seq<Read>, from: nat, to: nat): real
    requires from <= to <= |script|
  {
    if from == to then 0.0 else Delays(script, from, to - 1) + script[to - 1].delay
  }

  /** Where the wait for the answer after `k` starts: after the last text, or at the start of the script. */
  function WaitFrom(script: seq<Read>, k: nat): (from: nat)
    requires k <= |script|
    ensures from <= k
  {
    if k == 0 || HasText(script[k - 1]) then k else WaitFrom(script, k - 1)
  }

  predicate HasTextBefore(script: seq<Read>, k: nat)
    requires k <= |script|
  {
    exists j :: 0 <= j < k && HasText(script[j])
  }

  /** No text so far: the time left when the stream was opened; else the whole timeout since the consumer took the last. */
  function TimeFor(script: seq<Read>, k: nat, begin: Clock, timeout: Duration): real
    requires k <= |script|
  {
    if HasTextBefore(script, k) then timeout else begin.deadline - begin.now
  }

  /** All the waiting since then, up to answer `k` and including it, takes that long or longer. */
  predicate WaitsTooLong(script: seq<Read>, k: nat, begin: Clock, timeout: Duration)
    requires k <= |script|
  {
    k == |script| || Delays(script, WaitFrom(script, k), k + 1) >= TimeFor(script, k, begin, timeout)
  }

  lemma {:induction false} TextsIffBefore(script: seq<Read>, k: nat)
    requires k <= |script|
    ensures Texts(script, k) != [] <==> HasTextBefore(script, k)
  {
    if k > 0 {
      TextsIffBefore(script, k - 1);
    }
  }

  lemma {:induction false} NoTextWaitsFromStart(script: seq<Read>, k: nat)
    requires k <= |script| && !HasTextBefore(script, k)
    ensures WaitFrom(script, k) == 0
  {
    if k > 0 {
      NoTextWaitsFromStart(script, k - 1);
    }
  }

  /** The time left after `k` answers is what is left of that time after the waiting so far. */
  lemma {:induction false} TimeLeft(i: nat, script: seq<Read>, k: nat, begin: Clock, timeout: Duration)
    requires k <= |script|
    ensures var time := After(i, script, k, begin, timeout).time;
            time.deadline - time.now == TimeFor(script, k, begin, timeout) - Delays(script, WaitFrom(script, k), k)
  {
    if k > 0 {
      TimeLeft(i, script, k - 1, begin, timeout);
      if HasText(script[k - 1]) {
        assert HasTextBefore(script, k);
      } else {
        assert HasTextBefore(script, k) <==> HasTextBefore(script, k - 1);
      }
    }
  }

  lemma LateIffWaitsTooLong(i: nat, script: seq<Read>, k: nat, begin: Clock, timeout: Duration)
    requires k <= |script|
    ensures Late(script, k, After(i, script, k, begin, timeout).time) <==> WaitsTooLong(script, k, begin, timeout)
  {
    TimeLeft(i, script, k, begin, timeout);
  }

  /** The consumer is there for answer `k`, and waits for it for too long. */
  predicate RunsOutAt(script: seq<Read>, k: nat, begin: Clock, timeout: Duration, stopAt: Option<nat>)
    requires k <= |script|
  {
    Present(|Texts(script, k)|, stopAt) && WaitsTooLong(script, k, begin, timeout)
  }

  lemma LateAnswerIff(i: nat, script: seq<Read>, k: nat, begin: Clock, timeout: Duration, stopAt: Option<nat>)
    requires k <= |script|
    ensures var p := After(i, script, k, begin, timeout);
            Present(|p.taken|, stopAt) && Late(script, k, p.time) <==> RunsOutAt(script, k, begin, timeout, stopAt)
  {
    TakenTexts(i, script, k, begin, timeout);
    LateIffWaitsTooLong(i, script, k, begin, timeout);
  }

  /**
   Reading runs out of time exactly if the consumer waits too long for some answer up to the first that is no chunk; if
   it does not, the reading ends with that answer or with the consumer leaving.
   */
  lemma ReadingTimesOutIff(i: nat, script: seq<Read>, begin: Clock, timeout: Duration, stopAt: Option<nat>)
    ensures ReadOutcome(i, script, begin, timeout, stopAt).TimedOut? <==>
              exists k :: 0 <= k <= EndFrom(script, 0) && RunsOutAt(script, k, begin, timeout, stopAt)
    ensures !ReadOutcome(i, script, begin, timeout, stopAt).TimedOut? ==>
              ReadOutcome(i, script, begin, timeout, stopAt) ==
              if Present(|Chunks(script)|, stopAt) then EndOf(script) else Abandoned
  {
    var stop := StopsAt(i, script, 0, begin, timeout, stopAt);
    StopFacts(i, script, 0, begin, timeout, stopAt);
    TakenGrow(i, script, stop, EndFrom(script, 0), begin, timeout);
    TakenTexts(i, script, EndFrom(script, 0), begin, timeout);
    if ReadOutcome(i, script, begin, timeout, stopAt).TimedOut? {
      LateAnswerIff(i, script, stop, begin, timeout, stopAt);
      assert RunsOutAt(script, stop, begin, timeout, stopAt);
    }
    if k :| 0 <= k <= EndFrom(script, 0) && RunsOutAt(script, k, begin, timeout, stopAt) {
      LateAnswerIff(i, script, k, begin, timeout, stopAt);
      if stop <= k {
        TakenGrow(i, script, stop, k, begin, timeout);
      } else {
        assert !Stops(script, k, After(i, script, k, begin, timeout), stopAt);
      }
    }
  }

  /** In time, a round ends as the candidate does, unless the consumer has left by then. */
  lemma OutcomeInTime(i: nat, c: Candidate, time: Clock, timeout: Duration, stopAt: Option<nat>)
    requires !TryOutcome(i, c, time, timeout, stopAt).TimedOut?
    ensures TryOutcome(i, c, time, timeout, stopAt) == if Leaves(c, stopAt) then Abandoned else Result(c)
  {
    if c.Stream? {
      var begin, end := Later(time, c.opening), EndFrom(c.script, 0);
      var stop := StopsAt(i, c.script, 0, begin, timeout, stopAt);
      StopFacts(i, c.script, 0, begin, timeout, stopAt);
      TakenGrow(i, c.script, stop, end, begin, timeout);
      TakenTexts(i, c.script, end, begin, timeout);
    }
  }

  /**
   What a round gets out: the first chunks of the candidate, all of them if it ends in time, `stopAt` (but at least one)
   if the consumer leaves.
   */
  lemma TakenIsOutput(i: nat, c: Candidate, time: Clock, timeout: Duration, stopAt: Option<nat>) returns (n: nat)
    ensures n <= |Output(c)| && HaveTexts(TakenBy(i, c, time, timeout, stopAt), Output(c)[..n])
    ensures var outcome := TryOutcome(i, c, time, timeout, stopAt);
            && (!outcome.TimedOut? && !outcome.Abandoned? ==> n == |Output(c)|)
            && (outcome.Abandoned? ==> stopAt.Some? && n == if stopAt.value == 0 then 1 else stopAt.value)
  {
    n := 0;
    if c.Stream? {
      var begin := Later(time, c.opening);
      var stop := StopsAt(i, c.script, 0, begin, timeout, stopAt);
      StopFacts(i, c.script, 0, begin, timeout, stopAt);
      TextsGrow(c.script, stop, EndFrom(c.script, 0));
      TakenTexts(i, c.script, stop, begin, timeout);
      n := |Texts(c.script, stop)|;
      if !Present(n, stopAt) {
        assert !Stops(c.script, stop - 1, After(i, c.script, stop - 1, begin, timeout), stopAt);
      }
    }
  }

  lemma {:induction false} NoTextNoNewDeadline(i: nat, script: seq<Read>, k: nat, begin: Clock, timeout: Duration)
    requires k <= |script| && Texts(script, k) == []
    ensures After(i, script, k, begin, timeout).time.deadline == begin.deadline
  {
    if k > 0 {
      NoTextNoNewDeadline(i, script, k - 1, begin, timeout);
    }
  }

  /**
   What gets out: the texts before the first answer for which the consumer is gone, or waits too long, or that is no
   chunk.
   */
  lemma TextsUntilStop(i: nat, script: seq<Read>, begin: Clock, timeout: Duration, stopAt: Option<nat>) returns (stop: nat)
    ensures stop <= |script| && HaveTexts(ReadProgress(i, script, begin, timeout, stopAt).taken, Texts(script, stop))
    ensures forall j | 0 <= j < stop ::
              script[j].Chunk? && Present(|Texts(script, j)|, stopAt) && !WaitsTooLong(script, j, begin, timeout)
    ensures stop == |script| || !script[stop].Chunk? || !Present(|Texts(script, stop)|, stopAt) ||
            WaitsTooLong(script, stop, begin, timeout)
  {
    stop := StopsAt(i, script, 0, begin, timeout, stopAt);
    StopFacts(i, script, 0, begin, timeout, stopAt);
    TakenTexts(i, script, stop, begin, timeout);
    LateIffWaitsTooLong(i, script, stop, begin, timeout);
    forall j | 0 <= j < stop
      ensures script[j].Chunk? && Present(|Texts(script, j)|, stopAt) && !WaitsTooLong(script, j, begin, timeout)
    {
      assert !Stops(script, j, After(i, script, j, begin, timeout), stopAt);
      TakenTexts(i, script, j, begin, timeout);
      LateIffWaitsTooLong(i, script, j, begin, timeout);
    }
  }

  /** How many answers a complete reading takes. */
  function ReadLength(script: seq<Read>): (n: nat)
    ensures n <= |script|
  {
    var end := EndFrom(script, 0);
    if end < |script| then end + 1 else end
  }

  /** Closing in time is still to come when the last answer is there. */
  predicate ClosesTooLong(script: seq<Read>, closing: Duration, begin: Clock, timeout: Duration) {
    var end := EndFrom(script, 0);
    closing > 0.0 &&
    Delays(script, WaitFrom(script, end), ReadLength(script)) + closing >= TimeFor(script, end, begin, timeout)
  }

  /** A candidate whose stream is opened at `begin` runs out of time: in some wait for an answer, or in closing. */
  ghost predicate RunsOut(c: Candidate, begin: Clock, timeout: Duration, stopAt: Option<nat>) {
    c.Stream? &&
    ((exists k :: 0 <= k <= EndFrom(c.script, 0) && RunsOutAt(c.script, k, begin, timeout, stopAt)) ||
     (Present(|Chunks(c.script)|, stopAt) && (EndOf(c.script).Completed? || EndOf(c.script).Raised?) &&
      ClosesTooLong(c.script, c.closing, begin, timeout)))
  }

  lemma ClosesLateIff(i: nat, script: seq<Read>, closing: Duration, begin: Clock, timeout: Duration)
    requires EndFrom(script, 0) < |script|
    ensures ClosesLate(closing, ReadClock(i, script, begin, timeout)) <==> ClosesTooLong(script, closing, begin, timeout)
  {
    TimeLeft(i, script, EndFrom(script, 0), begin, timeout);
  }

  lemma TryTimesOutIff(i: nat, c: Candidate, time: Clock, timeout: Duration, stopAt: Option<nat>)
    ensures TryOutcome(i, c, time, timeout, stopAt).TimedOut? <==> RunsOut(c, Later(time, c.opening), timeout, stopAt)
  {
    if c.Stream? {
      var begin := Later(time, c.opening);
      ReadingTimesOutIff(i, c.script, begin, timeout, stopAt);
      if EndFrom(c.script, 0) < |c.script| {
        ClosesLateIff(i, c.script, c.closing, begin, timeout);
      }
    }
  }

  /** How long a candidate takes that fails without a text. */
  function TryTime(c: Candidate): real {
    c.opening + if c.Stream? then Delays(c.script, 0, ReadLength(c.script)) + c.closing else 0.0
  }

  /** How long the first `i` candidates take. */
  function TimeBefore(candidates: seq<Candidate>, i: nat): real
    requires i <= |candidates|
  {
    if i == 0 then 0.0 else TimeBefore(candidates, i - 1) + TryTime(candidates[i - 1])
  }

  lemma FailedTryTakes(i: nat, c: Candidate, time: Clock, timeout: Duration)
    requires FailsEarly(c)
    ensures TryClock(i, c, time, timeout) == Clock(time.now + TryTime(c), time.deadline)
  {
    if c.Stream? {
      var begin, n := Later(time, c.opening), ReadLength(c.script);
      TextsIffBefore(c.script, EndFrom(c.script, 0));
      assert !HasTextBefore(c.script, n);
      NoTextWaitsFromStart(c.script, n);
      TimeLeft(i, c.script, n, begin, timeout);
      TextsIffBefore(c.script, n);
      NoTextNoNewDeadline(i, c.script, n, begin, timeout);
    }
  }

  /** The clock when candidate `i` gets its turn after failures: all their times in a row, and the deadline of the start. */
  lemma {:induction false} FailedTriesTake(candidates: seq<Candidate>, i: nat, start: Clock, timeout: Duration)
    requires i <= |candidates| && forall j | 0 <= j < i :: FailsEarly(candidates[j])
    ensures ClockAt(candidates, i, start, timeout) == Clock(start.now + TimeBefore(candidates, i), start.deadline)
  {
    if i > 0 {
      FailedTriesTake(candidates, i - 1, start, timeout);
      FailedTryTakes(i - 1, candidates[i - 1], ClockAt(candidates, i - 1, start, timeout), timeout);
    }
  }

  /** Candidate `i` runs out of time, after those before it have failed one after the other. */
  ghost predicate RunsOutInTurn(candidates: seq<Candidate>, i: nat, start: Clock, timeout: Duration, stopAt: Option<nat>)
    requires i < |candidates|
  {
    var c := candidates[i];
    RunsOut(c, Clock(start.now + TimeBefore(candidates, i) + c.opening, start.deadline), timeout, stopAt)
  }

  /** The candidate that decides runs out of time in its turn, or one before it does. */
  ghost predicate RequestRunsOut(candidates: seq<Candidate>, start: Clock, timeout: Duration, stopAt: Option<nat>)
    requires candidates != []
  {
    exists i :: 0 <= i <= Winner(candidates) && RunsOutInTurn(candidates, i, start, timeout, stopAt)
  }

  lemma RequestTimesOutIff(candidates: seq<Candidate>, start: Clock, timeout: Duration, stopAt: Option<nat>)
    requires candidates != []
    ensures TimesOut(candidates, start, timeout, stopAt) <==> RequestRunsOut(candidates, start, timeout, stopAt)
  {
    forall i | 0 <= i <= Winner(candidates)
      ensures OutcomeOf(candidates, i, start, timeout, stopAt).TimedOut? <==>
              RunsOutInTurn(candidates, i, start, timeout, stopAt)
    {
      WinnerIsFirst(candidates);
      FailedTriesTake(candidates, i, start, timeout);
      TryTimesOutIff(i, candidates[i], ClockAt(candidates, i, start, timeout), timeout, stopAt);
    }
  }

  /** The time that has passed after `k` answers: their delays, what the consumer held the texts, the first's selection. */
  function TimeSpent(script: seq<Read>, k: nat): real
    requires k <= |script|
  {
    if k == 0 then 0.0
    else
      var r := script[k - 1];
      TimeSpent(script, k - 1) + r.delay +
      if HasText(r) then (if HasTextBefore(script, k - 1) then 0.0 else r.selecting) + r.held else 0.0
  }

  /** Every text gets out when all before it is over, and the consumer comes back from it when it is over itself. */
  lemma {:induction false} TextsGetOutInTime(i: nat, script: seq<Read>, k: nat, begin: Clock, timeout: Duration)
    requires k <= |script|
    ensures After(i, script, k, begin, timeout).time.now == begin.now + TimeSpent(script, k)
    ensures k < |script| && HasText(script[k]) ==>
              After(i, script, k + 1, begin, timeout).taken == After(i, script, k, begin, timeout).taken +
                [Yielded(i, script[k].text, begin.now + TimeSpent(script, k) + script[k].delay,
                         begin.now + TimeSpent(script, k + 1))]
  {
    if k > 0 {
      TextsGetOutInTime(i, script, k - 1, begin, timeout);
      TakenTexts(i, script, k - 1, begin, timeout);
      TextsIffBefore(script, k - 1);
    }
    TakenTexts(i, script, k, begin, timeout);
    TextsIffBefore(script, k);
  }

  // ---------------------------------------------------------------- the order of events

  datatype Life =
    | Ready
    | Open(candidate: nat, committed: bool)
    | Shut(candidate: nat, committed: bool)
    | Failed(candidate: nat, committed: bool)
    | Finished(candidate: nat)
    | Broken

  /** Only after the candidate before it has failed uncommitted may a candidate be tried. */
  predicate MayTry(s: Life, i: nat) {
    (s.Ready? && i == 0) || (s.Failed? && !s.committed && i == s.candidate + 1)
  }

  function Next(s: Life, e: Event): Life {
    match e
    case Refused(i, _) => if MayTry(s, i) then Shut(i, false) else Broken
    case Opened(i) => if MayTry(s, i) then Open(i, false) else Broken
    case Selected(i) => if s == Open(i, false) then Open(i, true) else if s == Shut(i, false) then Finished(i) else Broken
    case Yielded(i, _, _, _) => if s == Open(i, true) then s else Broken
    case Closed(i) => if s.Open? && s.candidate == i then Shut(i, s.committed) else Broken
    case Reported(i, _) => if s.Shut? && s.candidate == i then Failed(i, s.committed) else Broken
  }

  function LifeAfter(log: seq<Event>): Life {
    if log == [] then Ready else Next(LifeAfter(log[..|log| - 1]), log[|log| - 1])
  }

  predicate Tries(e: Event) { e.Opened? || e.Refused? }

  ghost predicate ClosedBetween(log: seq<Event>, i: nat, from: nat, to: nat)
    requires to <= |log|
  {
    exists k :: from < k < to && log[k] == Closed(i)
  }

  lemma {:induction false} PrefixIsAlive(log: seq<Event>, n: nat)
    requires n <= |log| && !LifeAfter(log).Broken?
    ensures !LifeAfter(log[..n]).Broken?
    decreases |log|
  {
    if n < |log| {
      var shorter := log[..|log| - 1];
      PrefixIsAlive(shorter, n);
      assert shorter[..n] == log[..n];
    } else {
      assert log[..n] == log;
    }
  }

  /** Once opened, a stream is open until it is closed, and what comes later belongs to later candidates. */
  lemma {:induction false} OpenUntilClosed(log: seq<Event>, a: nat, n: nat)
    requires !LifeAfter(log).Broken? && a < n <= |log| && log[a].Opened?
    ensures var s := LifeAfter(log[..n]);
            (s.Open? && s.candidate == log[a].candidate) || ClosedBetween(log, log[a].candidate, a, n)
    ensures var s := LifeAfter(log[..n]);
            s.Finished? || (!s.Ready? && !s.Broken? && s.candidate >= log[a].candidate)
    decreases n
  {
    PrefixIsAlive(log, n);
    PrefixIsAlive(log, n - 1);
    assert log[..n][..n - 1] == log[..n - 1];
    if a < n - 1 {
      OpenUntilClosed(log, a, n - 1);
    }
  }

  /** No stream is opened while another one is: the earlier one has been closed, exactly once, and comes first. */
  lemma OneStreamAtATime(log: seq<Event>, a: nat, b: nat)
    requires !LifeAfter(log).Broken? && a < b < |log| && log[a].Opened? && Tries(log[b])
    ensures log[a].candidate < log[b].candidate
    ensures ClosedBetween(log, log[a].candidate, a, b)
  {
    PrefixIsAlive(log, b + 1);
    assert log[..b + 1][..b] == log[..b];
    OpenUntilClosed(log, a, b);
  }

  /** A life in which nothing can be tried any more. */
  predicate Committed(s: Life) {
    s.Finished? || ((s.Open? || s.Shut? || s.Failed?) && s.committed)
  }

  lemma {:induction false} StaysCommitted(log: seq<Event>, a: nat, n: nat)
    requires !LifeAfter(log).Broken? && a < n <= |log| && (log[a].Selected? || log[a].Yielded?)
    ensures Committed(LifeAfter(log[..n]))
    decreases n
  {
    PrefixIsAlive(log, n);
    assert log[..n][..n - 1] == log[..n - 1];
    if a < n - 1 {
      StaysCommitted(log, a, n - 1);
    }
  }

  /** After a candidate has been selected or has produced a chunk, no other is tried. */
  lemma NothingTriedAfterCommit(log: seq<Event>, a: nat, b: nat)
    requires !LifeAfter(log).Broken? && a < b < |log| && (log[a].Selected? || log[a].Yielded?)
    ensures !Tries(log[b])
  {
    StaysCommitted(log, a, b);
    PrefixIsAlive(log, b + 1);
    assert log[..b + 1][..b] == log[..b];
  }

  lemma {:induction false} ShutUntilNextOpens(log: seq<Event>, a: nat, n: nat)
    requires !LifeAfter(log).Broken? && a < n <= |log| && log[a].Closed?
    ensures var s := LifeAfter(log[..n]);
            s.Finished? || (!s.Ready? && !s.Broken? && s.candidate >= log[a].candidate &&
                            (s.Open? ==> s.candidate > log[a].candidate))
    decreases n
  {
    PrefixIsAlive(log, n);
    PrefixIsAlive(log, n - 1);
    assert log[..n][..n - 1] == log[..n - 1];
    if a < n - 1 {
      ShutUntilNextOpens(log, a, n - 1);
    }
  }

  /** No stream is closed twice. */
  lemma ClosedOnce(log: seq<Event>, a: nat, b: nat)
    requires !LifeAfter(log).Broken? && a < b < |log| && log[a].Closed? && log[b].Closed?
    ensures log[a].candidate < log[b].candidate
  {
    ShutUntilNextOpens(log, a, b);
    PrefixIsAlive(log, b + 1);
    assert log[..b + 1][..b] == log[..b];
  }

  /** The chunks in a log. */
  function Takes(log: seq<Event>): seq<Event> {
    if log == [] then []
    else Takes(log[..|log| - 1]) + if log[|log| - 1].Yielded? then [log[|log| - 1]] else []
  }

  /** The deadline depends on when the consumer took the last chunk and on nothing else. */
  function Deadline(log: seq<Event>, start: real, timeout: Duration): real {
    if log == [] then start + timeout
    else if log[|log| - 1].Yielded? then log[|log| - 1].resumedAt + timeout
    else Deadline(log[..|log| - 1], start, timeout)
  }

  ghost predicate OnTime(log: seq<Event>, start: real, timeout: Duration) {
    forall i | 0 <= i < |log| && log[i].Yielded? :: log[i].readAt < Deadline(log[..i], start, timeout)
  }

  /** An event that the candidates account for; only the one that decides is ever selected, and only its chunks get out. */
  predicate Fits(e: Event, candidates: seq<Candidate>)
    requires candidates != []
  {
    e.candidate < |candidates| &&
    var c := candidates[e.candidate];
    match e
    case Refused(_, error) => c.Refuses? && c.error == error
    case Opened(_) => c.Stream?
    case Closed(_) => c.Stream?
    case Reported(_, error) => Result(c) == Raised(error)
    case Selected(i) => i == Winner(candidates)
    case Yielded(i, _, _, _) => i == Winner(candidates)
  }

  ghost predicate AllFit(log: seq<Event>, candidates: seq<Candidate>)
    requires candidates != []
  {
    forall i | 0 <= i < |log| :: Fits(log[i], candidates)
  }

  /** Where the request's life ends with candidate `i`. */
  function EndsIn(c: Candidate, i: nat, committed: bool, outcome: Outcome): Life {
    if c.Breaks? || c.NotAStream? then (if i == 0 then Ready else Failed(i - 1, false))
    else if outcome.Raised? then Failed(i, committed)
    else if outcome.Completed? && !committed then Finished(i)
    else Shut(i, committed)
  }
}
