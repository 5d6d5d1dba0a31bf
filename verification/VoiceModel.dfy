/**
 The pending voice registry as a transition system. Regions under the registry's lock are single steps; handoff tasks,
 their callers and running cancellations are part of the state.
 */
module VoiceModel {
  import opened Options

  type Scope = nat
  type MessageId = nat

  /** A claim's uuid; it also names the claim's entry and its handoff task, of which there is at most one each. */
  type ClaimId = nat
  type OpId = nat

  datatype Key = Key(scope: Scope, message: MessageId)

  /** How a handoff task ended: the callback returned, raised, was cancelled, or failed fatally. */
  datatype How = Returned | Raised | WasCancelled | Fatal

  datatype Handoff = Unstarted | Running | Ended(how: How) | Finished

  /** What handoff() did: one of the three outcomes, or an exception. */
  datatype Outcome = Completed | Cancelled | Raise

  /** `completedHere`: the handoff itself released the claim. */
  datatype Entry = Entry(
    scope: Scope,
    voice: MessageId,
    status: Option<MessageId>,
    handoff: Handoff,
    callerCancelled: bool,
    outcome: Option<Outcome>,
    completedHere: bool,
    releases: nat)

  datatype Target = One(key: Key) | InScope(scope: Scope) | Everything

  /** A cancellation in progress; `origin` is the handoff it was called from, `targets` the tasks it still waits for. */
  datatype Op =
    | WantsLock(origin: Option<ClaimId>, target: Target, protectedAt: nat)
    | Draining(origin: Option<ClaimId>, targets: set<ClaimId>, protectedAt: nat, targetedAt: nat)

  /** `owned` is what the two-key map stands for: the claims not yet released. */
  datatype Registry = Registry(
    pending: map<Key, ClaimId>,
    entries: map<ClaimId, Entry>,
    protectedCounts: map<ClaimId, nat>,
    ops: map<OpId, Op>,
    tick: nat)

  datatype Action =
    | Reserve(claim: ClaimId, key: Key)
    | BindStatus(claim: ClaimId, status: MessageId)
    | BeginHandoff(claim: ClaimId)
    | TaskEnds(claim: ClaimId, how: How)
    | CallerIsCancelled(claim: ClaimId)
    | FinishHandoff(claim: ClaimId, lateCancellation: bool)
    | Discard(claim: ClaimId, op: OpId)
    | BeginCancel(op: OpId, origin: Option<ClaimId>, target: Target)
    | LockCancel(op: OpId)
    | AbortCancel(op: OpId)
    | TaskDrained(op: OpId, claim: ClaimId)
    | EndCancel(op: OpId)

  function Init(): Registry { Registry(map[], map[], map[], map[], 0) }

  function VoiceKey(x: Entry): Key { Key(x.scope, x.voice) }

  function Keys(x: Entry): set<Key> {
    {VoiceKey(x)} + if x.status.Some? then {Key(x.scope, x.status.value)} else {}
  }

  function NewEntry(key: Key): Entry {
    Entry(key.scope, key.message, None, Unstarted, false, None, false, 0)
  }

  /** _entry_for_claim: the claim still owns its voice key. */
  predicate Owns(r: Registry, c: ClaimId) {
    c in r.entries && VoiceKey(r.entries[c]) in r.pending && r.pending[VoiceKey(r.entries[c])] == c
  }

  function ReserveKey(r: Registry, c: ClaimId, key: Key): Registry {
    if key in r.pending then r
    else r.(pending := r.pending[key := c], entries := r.entries[c := NewEntry(key)])
  }

  predicate BindAccepts(r: Registry, c: ClaimId, status: MessageId) {
    Owns(r, c) &&
    var x := r.entries[c];
    if x.status.Some? then x.status.value == status
    else Key(x.scope, status) !in r.pending || r.pending[Key(x.scope, status)] == c
  }

  function Bind(r: Registry, c: ClaimId, status: MessageId): Registry {
    if BindAccepts(r, c, status) && r.entries[c].status.None?
    then r.(pending := r.pending[Key(r.entries[c].scope, status) := c],
            entries := r.entries[c := r.entries[c].(status := Some(status))])
    else r
  }

  predicate HandoffAccepts(r: Registry, c: ClaimId) {
    Owns(r, c) && r.entries[c].status.Some? && r.entries[c].handoff.Unstarted?
  }

  function StartHandoff(r: Registry, c: ClaimId): Registry {
    if HandoffAccepts(r, c) then r.(entries := r.entries[c := r.entries[c].(handoff := Running)]) else r
  }

  function DropKey(pending: map<Key, ClaimId>, key: Key, c: ClaimId): map<Key, ClaimId> {
    if key in pending && pending[key] == c then pending - {key} else pending
  }

  /** _remove: pop the voice key and the status key, each only if it is this entry's. */
  function RemoveKeys(pending: map<Key, ClaimId>, c: ClaimId, x: Entry): map<Key, ClaimId> {
    var pending' := DropKey(pending, VoiceKey(x), c);
    if x.status.Some? then DropKey(pending', Key(x.scope, x.status.value), c) else pending'
  }

  /** Removing an owned entry is what releases its claim. */
  function Release(r: Registry, c: ClaimId): Registry
    requires c in r.entries
  {
    r.(pending := RemoveKeys(r.pending, c, r.entries[c]),
       entries := r.entries[c := r.entries[c].(releases := r.entries[c].releases + 1)])
  }

  function ReleaseAll(r: Registry, claims: set<ClaimId>): Registry {
    r.(pending := map k | k in r.pending && r.pending[k] !in claims :: r.pending[k],
       entries := map c | c in r.entries ::
         if c in claims then r.entries[c].(releases := r.entries[c].releases + 1) else r.entries[c])
  }

  /** What handoff() returns or raises once ownership is settled. */
  function OutcomeOf(how: How, callerCancelled: bool, lateCancellation: bool, completed: bool): Outcome {
    if callerCancelled then Raise
    else match how
      case Returned => if lateCancellation then Raise else if completed then Completed else Cancelled
      case Fatal => Raise
      case _ => if lateCancellation || completed then Raise else Cancelled
  }

  /** _finish_ownership: release the claim if it is still owned, and settle the outcome. */
  function FinishOwnership(r: Registry, c: ClaimId, lateCancellation: bool): Registry
    requires c in r.entries && r.entries[c].handoff.Ended?
  {
    var completed := Owns(r, c);
    var r' := if completed then Release(r, c) else r;
    var x := r'.entries[c];
    r'.(entries := r'.entries[c := x.(handoff := Finished, completedHere := completed,
          outcome := Some(OutcomeOf(x.handoff.how, x.callerCancelled, lateCancellation, completed)))])
  }

  function Protected(r: Registry, c: ClaimId): nat {
    if c in r.protectedCounts then r.protectedCounts[c] else 0
  }

  function Protect(r: Registry, origin: Option<ClaimId>): Registry {
    if origin.None? then r
    else r.(protectedCounts := r.protectedCounts[origin.value := Protected(r, origin.value) + 1])
  }

  function Unprotect(r: Registry, origin: Option<ClaimId>): Registry {
    if origin.None? then r
    else if Protected(r, origin.value) > 1
    then r.(protectedCounts := r.protectedCounts[origin.value := Protected(r, origin.value) - 1])
    else r.(protectedCounts := r.protectedCounts - {origin.value})
  }

  predicate Excluded(r: Registry, c: ClaimId, origin: Option<ClaimId>) {
    origin == Some(c) || Protected(r, c) > 0
  }

  /** The entries a cancellation takes: those its target names, except its own and the protected ones. */
  function Matched(r: Registry, target: Target, origin: Option<ClaimId>): set<ClaimId> {
    match target
    case One(key) => if key in r.pending && !Excluded(r, r.pending[key], origin) then {r.pending[key]} else {}
    case InScope(scope) => set k | k in r.pending && k.scope == scope && !Excluded(r, r.pending[k], origin) :: r.pending[k]
    case Everything => set k | k in r.pending && !Excluded(r, r.pending[k], origin) :: r.pending[k]
  }

  function RunningTasks(r: Registry, claims: set<ClaimId>): set<ClaimId> {
    set c | c in claims && c in r.entries && r.entries[c].handoff.Running?
  }

  datatype Cancellation = Cancellation(scope: Scope, voice: MessageId, status: Option<MessageId>, deleted: set<MessageId>)

  /** What a cancellation reports for an entry; `reply` is the message it was found by, if it was asked for by message. */
  function CancellationOf(x: Entry, reply: Option<MessageId>): Cancellation {
    var voice := if reply.Some? && reply.value != x.voice then {} else {x.voice};
    Cancellation(x.scope, x.voice, x.status, voice + if x.status.Some? then {x.status.value} else {})
  }

  function FinishOp(r: Registry, op: OpId, origin: Option<ClaimId>): Registry {
    var r' := Unprotect(r, origin);
    r'.(ops := r'.ops - {op})
  }

  function BeginDrain(r: Registry, op: OpId, targets: set<ClaimId>): Registry
    requires op in r.ops && r.ops[op].WantsLock?
  {
    r.(ops := r.ops[op := Draining(r.ops[op].origin, targets, r.ops[op].protectedAt, r.tick)], tick := r.tick + 1)
  }

  /** The locked region of a cancellation: take the matched entries, then wait for their tasks. */
  function TakeTargets(r: Registry, op: OpId): Registry
    requires op in r.ops && r.ops[op].WantsLock?
  {
    var taken := Matched(r, r.ops[op].target, r.ops[op].origin);
    BeginDrain(ReleaseAll(r, taken), op, RunningTasks(r, taken))
  }

  function BeginOutsideDrain(r: Registry, op: OpId, targets: set<ClaimId>): Registry {
    r.(ops := r.ops[op := Draining(None, targets, r.tick, r.tick + 1)], tick := r.tick + 2)
  }

  function DiscardClaim(r: Registry, c: ClaimId, op: OpId): Registry
    requires c in r.entries
  {
    if !Owns(r, c) then r else BeginOutsideDrain(Release(r, c), op, RunningTasks(r, {c}))
  }

  predicate Enabled(r: Registry, a: Action) {
    match a
    case Reserve(c, _) => c !in r.entries
    case BindStatus(c, _) => c in r.entries
    case BeginHandoff(c) => c in r.entries
    case TaskEnds(c, _) => c in r.entries && r.entries[c].handoff.Running?
    case CallerIsCancelled(c) => c in r.entries && (r.entries[c].handoff.Running? || r.entries[c].handoff.Ended?)
    case FinishHandoff(c, _) => c in r.entries && r.entries[c].handoff.Ended?
    case Discard(c, op) => c in r.entries && op !in r.ops
    case BeginCancel(op, origin, _) => op !in r.ops && (origin.Some? ==> origin.value in r.entries)
    case LockCancel(op) => op in r.ops && r.ops[op].WantsLock?
    case AbortCancel(op) => op in r.ops && r.ops[op].WantsLock?
    case TaskDrained(op, c) =>
      op in r.ops && r.ops[op].Draining? && c in r.ops[op].targets && c in r.entries && !r.entries[c].handoff.Running?
    case EndCancel(op) => op in r.ops && r.ops[op].Draining? && r.ops[op].targets == {}
  }

  function Step(r: Registry, a: Action): Registry
    requires Enabled(r, a)
  {
    match a
    case Reserve(c, key) => ReserveKey(r, c, key)
    case BindStatus(c, status) => Bind(r, c, status)
    case BeginHandoff(c) => StartHandoff(r, c)
    case TaskEnds(c, how) => r.(entries := r.entries[c := r.entries[c].(handoff := Ended(how))])
    case CallerIsCancelled(c) => r.(entries := r.entries[c := r.entries[c].(callerCancelled := true)])
    case FinishHandoff(c, late) => FinishOwnership(r, c, late)
    case Discard(c, op) => DiscardClaim(r, c, op)
    case BeginCancel(op, origin, target) =>
      var r' := Protect(r, origin);
      r'.(ops := r'.ops[op := WantsLock(origin, target, r.tick)], tick := r.tick + 1)
    case LockCancel(op) => TakeTargets(r, op)
    case AbortCancel(op) => FinishOp(r, op, r.ops[op].origin)
    case TaskDrained(op, c) => r.(ops := r.ops[op := r.ops[op].(targets := r.ops[op].targets - {c})])
    case EndCancel(op) => FinishOp(r, op, r.ops[op].origin)
  }

  predicate IsRun(r: Registry, actions: seq<Action>)
    decreases |actions|
  {
    actions == [] || (Enabled(r, actions[0]) && IsRun(Step(r, actions[0]), actions[1..]))
  }

  function After(r: Registry, actions: seq<Action>): Registry
    requires IsRun(r, actions)
    decreases |actions|
  {
    if actions == [] then r else After(Step(r, actions[0]), actions[1..])
  }
}
