/**
 Stop and clear as admission boundaries. The state lock is held across awaits, so a locked operation is several steps;
 meanwhile other turns may finish, but nobody else gets the lock. The tree queue is the set of turns it has live.
 */
module Workflow {
  import opened Options

  type Scope = nat
  type Turn = nat

  datatype Token = Token(stop: nat, clear: nat)

  /** A turn as far as it has come: its token has been taken, and it may have been let in or turned away. */
  datatype Progress = Captured(scope: Scope, token: Token) | Admitted(scope: Scope, token: Token) | Rejected

  datatype Holder = Free | Admitting(turn: Turn) | Stopping | Reading(scope: Scope) | Clearing(scope: Scope)

  datatype State = State(
    stopGeneration: nat,
    clearGenerations: map<Scope, nat>,
    holder: Holder,
    turns: map<Turn, Progress>,
    live: set<Turn>)

  datatype Action =
    | Capture(turn: Turn, scope: Scope)
    | BeginAdmit(turn: Turn)
    | EndAdmit(succeeded: bool)
    | BeginStop
    | EndStop(succeeded: bool)
    | BeginClear(scope: Scope)
    | CommitClear
    | AbortClear
    | EndClear(succeeded: bool)
    | TurnEnds(turn: Turn)

  function Init(): State { State(0, map[], Free, map[], {}) }

  function ClearGeneration(s: State, scope: Scope): nat {
    if scope in s.clearGenerations then s.clearGenerations[scope] else 0
  }

  function CurrentToken(s: State, scope: Scope): Token {
    Token(s.stopGeneration, ClearGeneration(s, scope))
  }

  function TakeToken(s: State, t: Turn, scope: Scope): State {
    s.(turns := s.turns[t := Captured(scope, CurrentToken(s, scope))])
  }

  /** Compare the turn's token with the present one; only an equal one may go on, under the lock. */
  function CheckToken(s: State, t: Turn): State
    requires t in s.turns && s.turns[t].Captured?
  {
    if s.turns[t].token == CurrentToken(s, s.turns[t].scope) then s.(holder := Admitting(t))
    else s.(turns := s.turns[t := Rejected])
  }

  function CommitTurn(s: State, succeeded: bool): State
    requires s.holder.Admitting? && s.holder.turn in s.turns && s.turns[s.holder.turn].Captured?
  {
    var t := s.holder.turn;
    if succeeded
    then s.(holder := Free, live := s.live + {t}, turns := s.turns[t := Admitted(s.turns[t].scope, s.turns[t].token)])
    else s.(holder := Free, turns := s.turns[t := Rejected])
  }

  function StartStop(s: State): State {
    s.(stopGeneration := s.stopGeneration + 1, holder := Stopping)
  }

  function FinishStop(s: State, succeeded: bool): State {
    s.(holder := Free, live := if succeeded then {} else s.live)
  }

  function StartClearing(s: State): State
    requires s.holder.Reading?
  {
    var scope := s.holder.scope;
    s.(clearGenerations := s.clearGenerations[scope := ClearGeneration(s, scope) + 1], holder := Clearing(scope))
  }

  predicate InScope(s: State, t: Turn, scope: Scope) {
    t in s.turns && !s.turns[t].Rejected? && s.turns[t].scope == scope
  }

  function FinishClear(s: State, succeeded: bool): State
    requires s.holder.Clearing?
  {
    s.(holder := Free, live := if succeeded then set t | t in s.live && !InScope(s, t, s.holder.scope) else s.live)
  }

  predicate Enabled(s: State, a: Action) {
    match a
    case Capture(t, _) => s.holder.Free? && t !in s.turns
    case BeginAdmit(t) => s.holder.Free? && t in s.turns && s.turns[t].Captured?
    case EndAdmit(_) => s.holder.Admitting? && s.holder.turn in s.turns && s.turns[s.holder.turn].Captured?
    case BeginStop => s.holder.Free?
    case EndStop(_) => s.holder.Stopping?
    case BeginClear(_) => s.holder.Free?
    case CommitClear => s.holder.Reading?
    case AbortClear => s.holder.Reading?
    case EndClear(_) => s.holder.Clearing?
    case TurnEnds(t) => t in s.live
  }

  function Step(s: State, a: Action): State
    requires Enabled(s, a)
  {
    match a
    case Capture(t, scope) => TakeToken(s, t, scope)
    case BeginAdmit(t) => CheckToken(s, t)
    case EndAdmit(succeeded) => CommitTurn(s, succeeded)
    case BeginStop => StartStop(s)
    case EndStop(succeeded) => FinishStop(s, succeeded)
    case BeginClear(scope) => s.(holder := Reading(scope))
    case CommitClear => StartClearing(s)
    case AbortClear => s.(holder := Free)
    case EndClear(succeeded) => FinishClear(s, succeeded)
    case TurnEnds(t) => s.(live := s.live - {t})
  }

  predicate IsRun(s: State, actions: seq<Action>)
    decreases |actions|
  {
    actions == [] || (Enabled(s, actions[0]) && IsRun(Step(s, actions[0]), actions[1..]))
  }

  function After(s: State, actions: seq<Action>): State
    requires IsRun(s, actions)
    decreases |actions|
  {
    if actions == [] then s else After(Step(s, actions[0]), actions[1..])
  }

  // ---------------------------------------------------------------- the reference: no generations, just what was overtaken

  /** The turns that a stop, or a clear of their own scope, has come after. */
  function NextOvertaken(overtaken: set<Turn>, s: State, a: Action): set<Turn> {
    match a
    case BeginStop => overtaken + s.turns.Keys
    case CommitClear => if s.holder.Reading? then overtaken + set t | t in s.turns && InScope(s, t, s.holder.scope) else overtaken
    case _ => overtaken
  }

  function Overtaken(overtaken: set<Turn>, s: State, actions: seq<Action>): set<Turn>
    requires IsRun(s, actions)
    decreases |actions|
  {
    if actions == [] then overtaken
    else Overtaken(NextOvertaken(overtaken, s, actions[0]), Step(s, actions[0]), actions[1..])
  }

  // ---------------------------------------------------------------- every interleaving

  predicate TokenOk(s: State, x: Progress, overtaken: bool) {
    x.Rejected? ||
    (&& x.token.stop <= s.stopGeneration && x.token.clear <= ClearGeneration(s, x.scope)
     && (overtaken <==> x.token != CurrentToken(s, x.scope)))
  }

  /** A turn is let in only while it has not been overtaken, and what is live has been overtaken by nobody who is done. */
  predicate Inv(s: State, overtaken: set<Turn>) {
    && (forall t | t in s.turns :: TokenOk(s, s.turns[t], t in overtaken))
    && (forall t | t in overtaken :: t in s.turns)
    && (s.holder.Admitting? ==> s.holder.turn in s.turns && s.turns[s.holder.turn].Captured? && s.holder.turn !in overtaken)
    && (forall t | t in s.live :: t in s.turns && s.turns[t].Admitted?)
  }

  lemma StepKeepsInv(s: State, overtaken: set<Turn>, a: Action)
    requires Inv(s, overtaken) && Enabled(s, a)
    ensures Inv(Step(s, a), NextOvertaken(overtaken, s, a))
  {
    var s', overtaken' := Step(s, a), NextOvertaken(overtaken, s, a);
    forall t | t in s'.turns ensures TokenOk(s', s'.turns[t], t in overtaken') {
      assert t in s.turns ==> TokenOk(s, s.turns[t], t in overtaken);
    }
  }

  lemma {:induction false} RunKeepsInv(s: State, overtaken: set<Turn>, actions: seq<Action>)
    requires Inv(s, overtaken) && IsRun(s, actions)
    ensures Inv(After(s, actions), Overtaken(overtaken, s, actions))
    decreases |actions|
  {
    if actions != [] {
      StepKeepsInv(s, overtaken, actions[0]);
      RunKeepsInv(Step(s, actions[0]), NextOvertaken(overtaken, s, actions[0]), actions[1..]);
    }
  }

  /**
   In any interleaving a waiting turn passes the check exactly if no stop and no clear of its own scope has begun to
   take effect since its token was taken; clears of other scopes do not matter.
   */
  lemma AdmittedIffNotOvertaken(actions: seq<Action>, t: Turn)
    requires IsRun(Init(), actions) && Enabled(After(Init(), actions), BeginAdmit(t))
    ensures Step(After(Init(), actions), BeginAdmit(t)).holder == Admitting(t) <==> t !in Overtaken({}, Init(), actions)
    ensures Step(After(Init(), actions), BeginAdmit(t)).turns[t].Rejected? <==> t in Overtaken({}, Init(), actions)
  {
    RunKeepsInv(Init(), {}, actions);
    assert TokenOk(After(Init(), actions), After(Init(), actions).turns[t], t in Overtaken({}, Init(), actions));
  }

  /** And it is committed only then: nothing overtakes a turn between its check and its commit. */
  lemma CommittedOnlyIfNotOvertaken(actions: seq<Action>)
    requires IsRun(Init(), actions) && Enabled(After(Init(), actions), EndAdmit(true))
    ensures After(Init(), actions).holder.turn !in Overtaken({}, Init(), actions)
  {
    RunKeepsInv(Init(), {}, actions);
  }

  /** A turn is live exactly from its commit until it ends, a stop succeeds, or a clear of its scope does. */
  lemma LiveIff(actions: seq<Action>, a: Action, t: Turn)
    requires IsRun(Init(), actions) && Enabled(After(Init(), actions), a)
    ensures var s := After(Init(), actions);
            t in Step(s, a).live <==>
              || (a == EndAdmit(true) && s.holder == Admitting(t))
              || (t in s.live && a != TurnEnds(t) && a != EndStop(true) &&
                  !(a == EndClear(true) && InScope(s, t, s.holder.scope)))
  {
    RunKeepsInv(Init(), {}, actions);
  }

  lemma OvertakenStays(overtaken: set<Turn>, s: State, actions: seq<Action>, t: Turn)
    requires IsRun(s, actions) && t in overtaken
    ensures t in Overtaken(overtaken, s, actions)
    decreases |actions|
  {
    if actions != [] {
      OvertakenStays(NextOvertaken(overtaken, s, actions[0]), Step(s, actions[0]), actions[1..], t);
    }
  }

  /** A stop that has succeeded leaves nothing live that was there before, and nothing of that comes to life later. */
  lemma {:induction false} StoppedTurnsStayDead(s: State, overtaken: set<Turn>, actions: seq<Action>, t: Turn)
    requires Inv(s, overtaken) && IsRun(s, actions) && t in overtaken && t !in s.live
    ensures t !in After(s, actions).live
    decreases |actions|
  {
    if actions != [] {
      StepKeepsInv(s, overtaken, actions[0]);
      StoppedTurnsStayDead(Step(s, actions[0]), NextOvertaken(overtaken, s, actions[0]), actions[1..], t);
    }
  }

  /** Every turn whose token was taken before a successful stop is dead from the end of the stop on. */
  lemma StopIsABoundary(s: State, overtaken: set<Turn>, during: seq<Action>, later: seq<Action>, t: Turn)
    requires Inv(s, overtaken) && s.holder.Free? && t in s.turns
    requires IsRun(Step(s, BeginStop), during) && Enabled(After(Step(s, BeginStop), during), EndStop(true))
    requires IsRun(Step(After(Step(s, BeginStop), during), EndStop(true)), later)
    ensures t !in After(Step(After(Step(s, BeginStop), during), EndStop(true)), later).live
  {
    var s1, overtaken1 := Step(s, BeginStop), NextOvertaken(overtaken, s, BeginStop);
    StepKeepsInv(s, overtaken, BeginStop);
    RunKeepsInv(s1, overtaken1, during);
    OvertakenStays(overtaken1, s1, during, t);
    var s2, overtaken2 := After(s1, during), Overtaken(overtaken1, s1, during);
    StepKeepsInv(s2, overtaken2, EndStop(true));
    StoppedTurnsStayDead(Step(s2, EndStop(true)), overtaken2, later, t);
  }

  /** The same for a successful clear and the turns of its own scope. */
  lemma ClearIsABoundary(s: State, overtaken: set<Turn>, during: seq<Action>, later: seq<Action>, t: Turn, scope: Scope)
    requires Inv(s, overtaken) && s.holder == Reading(scope) && InScope(s, t, scope)
    requires IsRun(Step(s, CommitClear), during) && Enabled(After(Step(s, CommitClear), during), EndClear(true))
    requires After(Step(s, CommitClear), during).holder == Clearing(scope)
    requires IsRun(Step(After(Step(s, CommitClear), during), EndClear(true)), later)
    ensures t !in After(Step(After(Step(s, CommitClear), during), EndClear(true)), later).live
  {
    var s1, overtaken1 := Step(s, CommitClear), NextOvertaken(overtaken, s, CommitClear);
    StepKeepsInv(s, overtaken, CommitClear);
    RunKeepsInv(s1, overtaken1, during);
    OvertakenStays(overtaken1, s1, during, t);
    ScopeIsKept(s1, during, t, scope);
    var s2, overtaken2 := After(s1, during), Overtaken(overtaken1, s1, during);
    StepKeepsInv(s2, overtaken2, EndClear(true));
    StoppedTurnsStayDead(Step(s2, EndClear(true)), overtaken2, later, t);
  }

  lemma {:induction false} ScopeIsKept(s: State, actions: seq<Action>, t: Turn, scope: Scope)
    requires IsRun(s, actions) && t in s.turns && (s.turns[t].Rejected? || s.turns[t].scope == scope)
    ensures t in After(s, actions).turns
    ensures After(s, actions).turns[t].Rejected? || After(s, actions).turns[t].scope == scope
    decreases |actions|
  {
    if actions != [] {
      ScopeIsKept(Step(s, actions[0]), actions[1..], t, scope);
    }
  }

  /** Of the turns of other scopes that are live when a clear takes effect, it leaves those that do not end meanwhile. */
  lemma {:induction false} ClearSparesOtherScopes(s: State, during: seq<Action>, succeeded: bool, t: Turn)
    requires s.holder.Clearing? && IsRun(s, during) && forall a | a in during :: !a.EndClear?
    requires t in s.turns && !InScope(s, t, s.holder.scope)
    ensures After(s, during).holder == s.holder && t in After(s, during).turns
    ensures t in Step(After(s, during), EndClear(succeeded)).live <==> t in s.live && TurnEnds(t) !in during
    decreases |during|
  {
    if during != [] {
      assert during[0] in during;
      ClearSparesOtherScopes(Step(s, during[0]), during[1..], succeeded, t);
    }
  }

  // ---------------------------------------------------------------- the object

  class MessagingWorkflow {
    var stopGeneration: nat
    var clearGenerations: map<Scope, nat>
    ghost var holder: Holder
    ghost var turns: map<Turn, Progress>
    ghost var live: set<Turn>

    ghost function View(): State
      reads this
    {
      State(stopGeneration, clearGenerations, holder, turns, live)
    }

    constructor ()
      ensures View() == Init()
    {
      stopGeneration, clearGenerations, holder, turns, live := 0, map[], Free, map[], {};
    }

    function GetClearGeneration(scope: Scope): nat
      reads this
    {
      if scope in clearGenerations then clearGenerations[scope] else 0
    }

    method CaptureToken(ghost t: Turn, scope: Scope) returns (token: Token)
      requires Enabled(View(), Capture(t, scope))
      modifies `turns
      ensures View() == TakeToken(old(View()), t, scope)
      ensures turns[t] == Captured(scope, token)
    {
      token := Token(stopGeneration, GetClearGeneration(scope));
      turns := turns[t := Captured(scope, token)];
    }

    method AdmitIfCurrent(ghost t: Turn, scope: Scope, token: Token) returns (current: bool)
      requires Enabled(View(), BeginAdmit(t)) && turns[t] == Captured(scope, token)
      modifies `holder, `turns
      ensures View() == CheckToken(old(View()), t)
      ensures current <==> holder == Admitting(t)
    {
      current := token == Token(stopGeneration, GetClearGeneration(scope));
      if current {
        holder := Admitting(t);
      } else {
        turns := turns[t := Rejected];
      }
    }

    method BeginStopAll()
      requires Enabled(View(), BeginStop)
      modifies `stopGeneration, `holder
      ensures View() == StartStop(old(View()))
    {
      stopGeneration, holder := stopGeneration + 1, Stopping;
    }

    method CommitClearOf(scope: Scope)
      requires holder == Reading(scope)
      modifies `clearGenerations, `holder
      ensures View() == StartClearing(old(View()))
    {
      clearGenerations := clearGenerations[scope := GetClearGeneration(scope) + 1];
      holder := Clearing(scope);
    }
  }
}
