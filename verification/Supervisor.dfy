/**
 The server supervisor, driven by any number of threads. Each action is one region under its lock; between two of them
 any other thread may act.
 */
module Supervisor {
  import opened Options

  type ThreadId = nat
  type ServerId = nat

  /** Where a thread stands in run(): `generation` is the restart generation it has captured. */
  datatype Pc =
    | CheckStop
    | Capturing
    | Building(generation: nat)
    | Serving(server: ServerId, generation: nat)
    | Leaving

  datatype Server = Server(generation: nat, shouldExit: bool)

  datatype State = State(
    server: Option<ServerId>,
    runScheduled: bool,
    running: bool,
    stopRequested: bool,
    restartGeneration: nat,
    servers: map<ServerId, Server>,
    runners: map<ThreadId, Pc>)

  datatype Action =
    | ScheduleRun
    | BeginRun(thread: ThreadId)
    | Check(thread: ThreadId)
    | Capture(thread: ThreadId)
    | Publish(thread: ThreadId, server: ServerId)
    | Conclude(thread: ThreadId, closed: bool)
    | Abort(thread: ThreadId)
    | Leave(thread: ThreadId)
    | RequestRestart
    | RequestStop

  function Init(): State { State(None, false, false, false, 0, map[], map[]) }

  predicate SchedulesRun(s: State) { !s.stopRequested && !s.runScheduled && !s.running }

  /** The start of run(): it raises when a loop runs already, and does nothing after a stop. */
  function Enter(s: State, t: ThreadId): State {
    var s' := s.(runScheduled := false);
    if s.running || s.stopRequested then s' else s'.(running := true, runners := s.runners[t := CheckStop])
  }

  function At(s: State, t: ThreadId, pc: Pc): State {
    s.(runners := s.runners[t := pc])
  }

  function Install(s: State, t: ThreadId, server: ServerId, generation: nat): State {
    At(s, t, Serving(server, generation)).(server := Some(server),
      servers := s.servers[server := Server(generation, s.stopRequested || s.restartGeneration != generation)])
  }

  function Finish(s: State, t: ThreadId, server: ServerId, generation: nat, closed: bool): State {
    var again := s.restartGeneration != generation && !s.stopRequested && closed;
    At(s, t, if again then CheckStop else Leaving).(server := if s.server == Some(server) then None else s.server)
  }

  function LeaveLoop(s: State, t: ThreadId): State {
    s.(server := None, running := false, runners := s.runners - {t})
  }

  function TellToExit(s: State): State {
    if s.server.Some? && s.server.value in s.servers
    then s.(servers := s.servers[s.server.value := s.servers[s.server.value].(shouldExit := true)])
    else s
  }

  predicate AcceptsRestart(s: State) { !s.stopRequested && (s.runScheduled || s.running) }

  function Restart(s: State): State {
    if !AcceptsRestart(s) then s
    else
      var s' := s.(restartGeneration := s.restartGeneration + 1);
      if s.runScheduled then s' else TellToExit(s')
  }

  function Stop(s: State): State {
    TellToExit(s.(stopRequested := true, runScheduled := false))
  }

  predicate Enabled(s: State, a: Action) {
    match a
    case ScheduleRun => true
    case BeginRun(t) => t !in s.runners
    case Check(t) => t in s.runners && s.runners[t].CheckStop?
    case Capture(t) => t in s.runners && s.runners[t].Capturing?
    case Publish(t, server) => t in s.runners && s.runners[t].Building? && server !in s.servers
    case Conclude(t, _) => t in s.runners && s.runners[t].Serving?
    case Abort(t) => t in s.runners && (s.runners[t].Building? || s.runners[t].Serving?)
    case Leave(t) => t in s.runners && s.runners[t].Leaving?
    case RequestRestart => true
    case RequestStop => true
  }

  function Step(s: State, a: Action): State
    requires Enabled(s, a)
  {
    match a
    case ScheduleRun => if SchedulesRun(s) then s.(runScheduled := true) else s
    case BeginRun(t) => Enter(s, t)
    case Check(t) => At(s, t, if s.stopRequested then Leaving else Capturing)
    case Capture(t) => At(s, t, Building(s.restartGeneration))
    case Publish(t, server) => Install(s, t, server, s.runners[t].generation)
    case Conclude(t, closed) => Finish(s, t, s.runners[t].server, s.runners[t].generation, closed)
    case Abort(t) => At(s, t, Leaving)
    case Leave(t) => LeaveLoop(s, t)
    case RequestRestart => Restart(s)
    case RequestStop => Stop(s)
  }

  predicate IsRun(s: State, actions: seq<Action>)
    decreases |actions|
  {
    actions == [] || (Enabled(s, actions[0]) && IsRun(Step(s, actions[0]), actions[1..]))
  }

  function After(s: State, actions: seq<Action>): State
    requires IsRun(s, actions)
    decreases |actions|
  {
    if actions == [] then s else After(Step(s, actions[0]), actions[1..])
  }

  // ---------------------------------------------------------------- every interleaving

  predicate OneLoop(s: State) {
    && (s.running <==> s.runners != map[])
    && (forall t, u | t in s.runners && u in s.runners :: t == u)
  }

  predicate OutdatedOrStopping(s: State, server: Server) {
    server.generation != s.restartGeneration || s.stopRequested
  }

  predicate PcOk(s: State, pc: Pc) {
    && (pc.Building? ==> pc.generation <= s.restartGeneration)
    && (pc.Serving? ==> pc.server in s.servers && s.servers[pc.server].generation == pc.generation <= s.restartGeneration &&
                        s.server == Some(pc.server))
    && (pc.CheckStop? || pc.Capturing? || pc.Building? ==> s.server.None?)
  }

  predicate Inv(s: State) {
    && !(s.runScheduled && s.running)
    && !(s.runScheduled && s.stopRequested)
    && OneLoop(s)
    && (s.server.Some? ==> s.running && s.server.value in s.servers &&
                           s.servers[s.server.value].generation <= s.restartGeneration)
    && (s.server.Some? ==> (OutdatedOrStopping(s, s.servers[s.server.value]) <==> s.servers[s.server.value].shouldExit))
    && (forall t | t in s.runners :: PcOk(s, s.runners[t]))
  }

  lemma RequestsKeepInv(s: State)
    requires Inv(s)
    ensures Inv(Restart(s)) && Inv(Stop(s))
  {
    assert forall t | t in s.runners :: PcOk(s, s.runners[t]);
  }

  lemma EnterKeepsInv(s: State, t: ThreadId)
    requires Inv(s) && t !in s.runners
    ensures Inv(Enter(s, t))
  {
    assert t in s.runners[t := CheckStop];
  }

  lemma LoopKeepsInv(s: State, a: Action, t: ThreadId)
    requires Inv(s) && Enabled(s, a) && t in s.runners
    requires (a.Check? || a.Capture? || a.Publish? || a.Conclude? || a.Abort? || a.Leave?) && a.thread == t
    ensures Inv(Step(s, a))
  {
    assert PcOk(s, s.runners[t]);
    assert t in s.runners[t := Leaving];
    assert s.runners.Keys == {t};
    if a.Leave? {
      assert s.runners - {t} == map[];
    }
  }

  lemma StepKeepsInv(s: State, a: Action)
    requires Inv(s) && Enabled(s, a)
    ensures Inv(Step(s, a))
  {
    match a {
      case ScheduleRun =>
      case BeginRun(t) => EnterKeepsInv(s, t);
      case RequestRestart => RequestsKeepInv(s);
      case RequestStop => RequestsKeepInv(s);
      case _ => LoopKeepsInv(s, a, a.thread);
    }
  }

  lemma {:induction false} RunKeepsInv(s: State, actions: seq<Action>)
    requires Inv(s) && IsRun(s, actions)
    ensures Inv(After(s, actions))
    decreases |actions|
  {
    if actions != [] {
      StepKeepsInv(s, actions[0]);
      RunKeepsInv(Step(s, actions[0]), actions[1..]);
    }
  }

  /** However the threads interleave, no run is both scheduled and running, and there is at most one run loop. */
  lemma AtMostOneRun(actions: seq<Action>)
    requires IsRun(Init(), actions)
    ensures var s := After(Init(), actions);
            !(s.runScheduled && s.running) && forall t, u | t in s.runners && u in s.runners :: t == u
  {
    RunKeepsInv(Init(), actions);
  }

  /** A published server has been told to exit exactly if its settings are outdated or a stop has been requested. */
  lemma OutdatedServerIsToldToExit(actions: seq<Action>)
    requires IsRun(Init(), actions) && After(Init(), actions).server.Some?
    ensures var s := After(Init(), actions);
            && s.server.value in s.servers
            && (s.servers[s.server.value].shouldExit <==>
                  s.servers[s.server.value].generation != s.restartGeneration || RequestStop in actions)
  {
    RunKeepsInv(Init(), actions);
    StopFromEvents(Init(), actions);
  }

  lemma {:induction false} StopFromEvents(s: State, actions: seq<Action>)
    requires IsRun(s, actions)
    ensures After(s, actions).stopRequested <==> s.stopRequested || RequestStop in actions
    decreases |actions|
  {
    if actions != [] {
      StopFromEvents(Step(s, actions[0]), actions[1..]);
    }
  }

  /** Until a stop: a run can be scheduled and entered exactly while there is none, a restart accepted exactly while there is. */
  lemma AcceptedIff(actions: seq<Action>, t: ThreadId)
    requires IsRun(Init(), actions) && t !in After(Init(), actions).runners
    ensures var s := After(Init(), actions);
            var stopped, looping := RequestStop in actions, s.runners != map[];
            && (Step(s, ScheduleRun).runScheduled <==> !stopped && !looping)
            && (Step(s, ScheduleRun) == s <==> stopped || looping || s.runScheduled)
            && (t in Step(s, BeginRun(t)).runners <==> !stopped && !looping)
            && Step(s, RequestRestart).restartGeneration ==
                 s.restartGeneration + if !stopped && (looping || s.runScheduled) then 1 else 0
  {
    RunKeepsInv(Init(), actions);
    StopFromEvents(Init(), actions);
  }

  /** A stop is for good: nothing is scheduled, no loop is entered, and no server is published that is not to exit. */
  lemma {:induction false} StopIsForGood(s: State, actions: seq<Action>)
    requires Inv(s) && s.stopRequested && IsRun(s, actions)
    ensures var s' := After(s, actions);
            && s'.stopRequested && !s'.runScheduled && s'.runners.Keys <= s.runners.Keys
            && forall i | i in s'.servers && i !in s.servers :: s'.servers[i].shouldExit
    decreases |actions|
  {
    if actions != [] {
      StepKeepsInv(s, actions[0]);
      StopIsForGood(Step(s, actions[0]), actions[1..]);
      StaysTold(Step(s, actions[0]), actions[1..]);
    }
  }

  /** A server that has been told to exit is never told otherwise. */
  lemma {:induction false} StaysTold(s: State, actions: seq<Action>)
    requires IsRun(s, actions)
    ensures forall i | i in s.servers && s.servers[i].shouldExit ::
              i in After(s, actions).servers && After(s, actions).servers[i].shouldExit
    decreases |actions|
  {
    if actions != [] {
      StaysTold(Step(s, actions[0]), actions[1..]);
    }
  }

  // ---------------------------------------------------------------- accepted restarts

  /** Left alone, with clean shutdowns, the loop comes to capture the present restart generation. */
  predicate WillReload(s: State, pc: Pc) {
    match pc
    case CheckStop => !s.stopRequested
    case Capturing => true
    case Building(g) => g != s.restartGeneration && !s.stopRequested
    case Serving(_, g) => g != s.restartGeneration && !s.stopRequested
    case Leaving => false
  }

  /** What the loop does until it has captured a generation or is about to leave. */
  function Rest(s: State, t: ThreadId, pc: Pc, next: ServerId): seq<Action> {
    var again := if WillReload(s, pc) then [Check(t), Capture(t)] else [];
    match pc
    case CheckStop => if s.stopRequested then [Check(t)] else again
    case Capturing => [Capture(t)]
    case Building(_) => [Publish(t, next), Conclude(t, true)] + again
    case Serving(_, _) => [Conclude(t, true)] + again
    case Leaving => []
  }

  lemma RunFrom(s: State, a: Action, actions: seq<Action>)
    requires Enabled(s, a) && IsRun(Step(s, a), actions)
    ensures IsRun(s, [a] + actions) && After(s, [a] + actions) == After(Step(s, a), actions)
  {
    assert ([a] + actions)[1..] == actions;
  }

  lemma CaptureAgain(s: State, t: ThreadId)
    requires t in s.runners && s.runners[t].CheckStop? && !s.stopRequested
    ensures IsRun(s, [Check(t), Capture(t)])
    ensures t in After(s, [Check(t), Capture(t)]).runners
    ensures After(s, [Check(t), Capture(t)]).runners[t] == Building(s.restartGeneration)
  {
    var s1 := Step(s, Check(t));
    RunFrom(s1, Capture(t), []);
    RunFrom(s, Check(t), [Capture(t)]);
    assert [Capture(t)] + [] == [Capture(t)] && [Check(t)] + [Capture(t)] == [Check(t), Capture(t)];
  }

  ghost predicate ArrivesAt(s: State, t: ThreadId, rest: seq<Action>, pc: Pc) {
    IsRun(s, rest) && t in After(s, rest).runners && After(s, rest).runners[t] == pc
  }

  lemma RestOfServing(s: State, t: ThreadId, next: ServerId)
    requires t in s.runners && s.runners[t].Serving?
    ensures ArrivesAt(s, t, Rest(s, t, s.runners[t], next),
                      if WillReload(s, s.runners[t]) then Building(s.restartGeneration) else Leaving)
  {
    var s1 := Step(s, Conclude(t, true));
    if WillReload(s, s.runners[t]) {
      CaptureAgain(s1, t);
      RunFrom(s, Conclude(t, true), [Check(t), Capture(t)]);
    } else {
      RunFrom(s, Conclude(t, true), []);
    }
  }

  /** Left alone the loop captures the present restart generation if it will reload, and else comes to leave. */
  lemma RestLeadsTo(s: State, t: ThreadId, next: ServerId)
    requires Inv(s) && t in s.runners && next !in s.servers
    ensures ArrivesAt(s, t, Rest(s, t, s.runners[t], next),
                      if WillReload(s, s.runners[t]) then Building(s.restartGeneration) else Leaving)
  {
    var pc := s.runners[t];
    assert PcOk(s, pc);
    match pc {
      case CheckStop =>
        if s.stopRequested {
          RunFrom(s, Check(t), []);
        } else {
          CaptureAgain(s, t);
        }
      case Capturing => RunFrom(s, Capture(t), []);
      case Building(_) =>
        var s1 := Step(s, Publish(t, next));
        RestOfServing(s1, t, next);
        var again := if WillReload(s, pc) then [Check(t), Capture(t)] else [];
        RunFrom(s, Publish(t, next), [Conclude(t, true)] + again);
        assert [Publish(t, next), Conclude(t, true)] + again == [Publish(t, next)] + ([Conclude(t, true)] + again);
      case Serving(_, _) => RestOfServing(s, t, next);
      case Leaving =>
    }
  }

  /** Nobody stops the supervisor or aborts a loop, and every server closes cleanly. */
  predicate Calm(actions: seq<Action>) {
    forall a | a in actions :: !a.RequestStop? && !a.Abort? && (a.Conclude? ==> a.closed)
  }

  /** No run is to come, and the loop, if there is one, is on its way out. */
  predicate Done(s: State) {
    !s.runScheduled && forall t | t in s.runners :: s.runners[t].Leaving?
  }

  /** A loop has captured a generation that is not older than `g`, and is going to serve it. */
  ghost predicate HasCaptured(s: State, g: nat) {
    exists t :: t in s.runners && s.runners[t].Building? && s.runners[t].generation >= g
  }

  /** In the course of the run a loop captures such a generation. */
  ghost predicate Captures(s: State, actions: seq<Action>, g: nat)
    requires IsRun(s, actions)
    decreases |actions|
  {
    HasCaptured(s, g) || (actions != [] && Captures(Step(s, actions[0]), actions[1..], g))
  }

  /** The restart to generation `g` is still to be applied, by a run to come or by the loop. */
  predicate Owes(s: State, g: nat) {
    !s.stopRequested && g <= s.restartGeneration && !Done(s) &&
    forall t | t in s.runners ::
      !s.runners[t].Leaving? && (s.runners[t].Building? || s.runners[t].Serving? ==> s.runners[t].generation < g)
  }

  lemma OwesStep(s: State, a: Action, g: nat)
    requires Inv(s) && Owes(s, g) && Enabled(s, a) && Calm([a])
    ensures Owes(Step(s, a), g) || HasCaptured(Step(s, a), g)
  {
    assert a in [a];
    if a.Capture? {
      assert Step(s, a).runners[a.thread] == Building(s.restartGeneration);
    } else {
      OwesStill(s, a, g);
    }
  }

  lemma OwesStill(s: State, a: Action, g: nat)
    requires Inv(s) && Owes(s, g) && Enabled(s, a) && !a.Capture?
    requires !a.RequestStop? && !a.Abort? && (a.Conclude? ==> a.closed)
    ensures Owes(Step(s, a), g)
  {
    var s' := Step(s, a);
    if t :| t in s.runners {
      assert PcOk(s, s.runners[t]);
      assert t in s'.runners && !s'.runners[t].Leaving?;
    } else if a.BeginRun? {
      assert a.thread in s'.runners;
    }
  }

  lemma {:induction false} OwedIsCaptured(s: State, actions: seq<Action>, g: nat)
    requires Inv(s) && Owes(s, g) && IsRun(s, actions) && Calm(actions) && Done(After(s, actions))
    ensures Captures(s, actions, g)
    decreases |actions|
  {
    var s' := Step(s, actions[0]);
    assert actions[0] in actions;
    OwesStep(s, actions[0], g);
    if HasCaptured(s', g) {
      assert Captures(s', actions[1..], g);
    } else {
      StepKeepsInv(s, actions[0]);
      OwedIsCaptured(s', actions[1..], g);
    }
  }

  /** However the threads interleave, no calm run is over before generation `g` or a newer one has been captured. */
  ghost predicate AppliedInEveryCalmRun(s: State, g: nat) {
    forall actions | IsRun(s, actions) && Calm(actions) && Done(After(s, actions)) :: Captures(s, actions, g)
  }

  /** A restart request that is accepted is applied in every calm run exactly if no loop is leaving already. */
  lemma AcceptedRestartIsAppliedIff(s: State)
    requires Inv(s) && AcceptsRestart(s)
    ensures AppliedInEveryCalmRun(Restart(s), s.restartGeneration + 1) <==>
            forall t | t in s.runners :: !s.runners[t].Leaving?
  {
    var s', g := Restart(s), s.restartGeneration + 1;
    RequestsKeepInv(s);
    if t :| t in s.runners && s.runners[t].Leaving? {
      assert IsRun(s', []) && Done(After(s', [])) && !HasCaptured(s', g);
      assert !Captures(s', [], g);
    } else {
      assert s.runners == map[] ==> s.runScheduled;
      assert forall t | t in s.runners :: PcOk(s, s.runners[t]);
      assert Owes(s', g);
      forall actions | IsRun(s', actions) && Calm(actions) && Done(After(s', actions)) ensures Captures(s', actions, g) {
        OwedIsCaptured(s', actions, g);
      }
    }
  }

  function LeavingRun(): seq<Action> {
    [BeginRun(0), Check(0), Capture(0), Publish(0, 0), Conclude(0, true)]
  }

  /** A loop on its way out still accepts restart requests, so one can be accepted and never be applied. */
  lemma LeavingLoopAcceptsRestart()
    ensures IsRun(Init(), LeavingRun())
    ensures var s := After(Init(), LeavingRun());
            AcceptsRestart(s) && !AppliedInEveryCalmRun(Restart(s), s.restartGeneration + 1)
  {
    LeavingRunLeaves();
    RunKeepsInv(Init(), LeavingRun());
    AcceptedRestartIsAppliedIff(After(Init(), LeavingRun()));
  }

  lemma LeavingRunLeaves()
    ensures IsRun(Init(), LeavingRun())
    ensures var s := After(Init(), LeavingRun()); AcceptsRestart(s) && 0 in s.runners && s.runners[0].Leaving?
  {
  }

  // ---------------------------------------------------------------- the objects

  class RuntimeServer {
    const id: ServerId
    var shouldExit: bool
    ghost const generation: nat

    constructor (id: ServerId, ghost generation: nat)
      ensures this.id == id && this.generation == generation && !shouldExit
    {
      this.id, this.generation, shouldExit := id, generation, false;
    }
  }

  class ServerSupervisor {
    var server: RuntimeServer?
    var runScheduled: bool
    var running: bool
    var stopRequested: bool
    var restartGeneration: nat
    ghost var servers: map<ServerId, RuntimeServer>
    ghost var runners: map<ThreadId, Pc>

    ghost predicate Valid()
      reads this
    {
      (server != null ==> server.id in servers && servers[server.id] == server) && forall i | i in servers :: servers[i].id == i
    }

    ghost function ServersView(): map<ServerId, Server>
      reads this`servers, servers.Values
    {
      map i | i in servers :: Server(servers[i].generation, servers[i].shouldExit)
    }

    ghost function View(): State
      reads this, servers.Values
    {
      State(if server == null then None else Some(server.id), runScheduled, running, stopRequested, restartGeneration,
            ServersView(), runners)
    }

    constructor ()
      ensures Valid() && View() == Init()
    {
      server, runScheduled, running, stopRequested, restartGeneration := null, false, false, false, 0;
      servers, runners := map[], map[];
    }

    twostate lemma ServersUnchanged()
      requires servers == old(servers) && forall i | i in servers :: unchanged(servers[i])
      ensures ServersView() == old(ServersView())
    {
    }

    method ScheduleRun() returns (reserved: bool)
      requires Valid()
      modifies this`runScheduled
      ensures Valid() && View() == Step(old(View()), Action.ScheduleRun)
      ensures reserved <==> SchedulesRun(old(View()))
    {
      ServersUnchanged();
      if stopRequested || runScheduled || running {
        return false;
      }
      runScheduled := true;
      return true;
    }

    /** The locked start of run(). */
    method BeginRun(ghost t: ThreadId) returns (entered: bool)
      requires Valid() && t !in runners
      modifies this
      ensures Valid() && View() == Enter(old(View()), t)
      ensures entered <==> !old(running) && !old(stopRequested)
    {
      runScheduled := false;
      entered := !running && !stopRequested;
      if entered {
        running, runners := true, runners[t := CheckStop];
      }
      ServersUnchanged();
    }

    method IsStopRequested(ghost t: ThreadId) returns (stop: bool)
      requires Valid() && Enabled(View(), Check(t))
      modifies this`runners
      ensures Valid() && View() == Step(old(View()), Check(t)) && stop == stopRequested
    {
      stop := stopRequested;
      runners := runners[t := if stop then Leaving else Capturing];
      ServersUnchanged();
    }

    method Capture(ghost t: ThreadId) returns (generation: nat)
      requires Valid() && Enabled(View(), Action.Capture(t))
      modifies this`runners
      ensures Valid() && View() == Step(old(View()), Action.Capture(t)) && generation == restartGeneration
    {
      generation := restartGeneration;
      runners := runners[t := Building(generation)];
      ServersUnchanged();
    }

    /** Publishing a server built from settings that may be outdated by now. */
    method Publish(ghost t: ThreadId, id: ServerId, generation: nat) returns (published: RuntimeServer)
      requires Valid() && Enabled(View(), Action.Publish(t, id)) && runners[t] == Building(generation)
      modifies this
      ensures Valid() && View() == Install(old(View()), t, id, generation)
      ensures fresh(published) && server == published
    {
      published := new RuntimeServer(id, generation);
      server := published;
      if stopRequested || restartGeneration != generation {
        published.shouldExit := true;
      }
      servers, runners := servers[id := published], runners[t := Serving(id, generation)];
    }

    /** The end of one server: whether to go round again. */
    method Conclude(ghost t: ThreadId, served: RuntimeServer, generation: nat, closed: bool) returns (again: bool)
      requires Valid() && t in runners && runners[t] == Serving(served.id, generation)
      requires served.id in servers && servers[served.id] == served
      modifies this
      ensures Valid() && View() == Finish(old(View()), t, served.id, generation, closed)
      ensures again <==> runners[t] == CheckStop
    {
      if server == served {
        server := null;
      }
      var restartRequested := restartGeneration != generation;
      again := restartRequested && !stopRequested && closed;
      runners := runners[t := if again then CheckStop else Leaving];
      ServersUnchanged();
    }

    method Leave(ghost t: ThreadId)
      requires Valid() && Enabled(View(), Action.Leave(t))
      modifies this
      ensures Valid() && View() == LeaveLoop(old(View()), t)
    {
      server, running, runners := null, false, runners - {t};
      ServersUnchanged();
    }

    method RequestRestart() returns (accepted: bool)
      requires Valid()
      modifies this, server
      ensures Valid() && View() == Restart(old(View()))
      ensures accepted <==> AcceptsRestart(old(View()))
    {
      if stopRequested {
        return false;
      }
      if runScheduled {
        restartGeneration := restartGeneration + 1;
        ServersUnchanged();
        return true;
      }
      if !running {
        return false;
      }
      restartGeneration := restartGeneration + 1;
      if server != null {
        server.shouldExit := true;
      }
      return true;
    }

    method RequestStop()
      requires Valid()
      modifies this, server
      ensures Valid() && View() == Stop(old(View()))
    {
      stopRequested, runScheduled := true, false;
      if server != null {
        server.shouldExit := true;
      }
    }
  }
}
