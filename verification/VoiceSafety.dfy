/** What holds in every run of the pending voice registry. */
module VoiceSafety {
  import opened Options
  import opened VoiceModel

  /** A key leads to an owned entry that carries it. */
  ghost predicate KeyOk(r: Registry, k: Key) {
    k in r.pending && r.pending[k] in r.entries && k in Keys(r.entries[r.pending[k]]) && Owns(r, r.pending[k])
  }

  /** An owned entry is found under its bound status id too, and has not been released; any other, exactly once. */
  ghost predicate EntryOk(r: Registry, c: ClaimId, x: Entry) {
    && (Owns(r, c) && x.status.Some? ==>
          Key(x.scope, x.status.value) in r.pending && r.pending[Key(x.scope, x.status.value)] == c)
    && x.releases == (if Owns(r, c) then 0 else 1)
    && (x.outcome.Some? <==> x.handoff.Finished?)
    && (x.handoff.Finished? ==> !Owns(r, c))
    && (x.outcome == Some(Completed) ==> x.completedHere)
    && (x.outcome == Some(Cancelled) ==> !x.completedHere)
    && (!x.handoff.Unstarted? ==> x.status.Some?)
  }

  ghost predicate Table(r: Registry) {
    (forall k | k in r.pending :: KeyOk(r, k)) && forall c | c in r.entries :: EntryOk(r, c, r.entries[c])
  }

  ghost function OpsFrom(ops: map<OpId, Op>, c: ClaimId): set<OpId> {
    set op | op in ops && ops[op].origin == Some(c)
  }

  /** Protection counts are exact: one for every cancellation that runs inside the claim's handoff. */
  ghost predicate ProtectionOk(r: Registry) {
    forall c: ClaimId :: Protected(r, c) == |OpsFrom(r.ops, c)|
  }

  ghost predicate OpOk(r: Registry, o: Op) {
    && o.protectedAt < r.tick
    && (o.Draining? ==> o.protectedAt < o.targetedAt < r.tick && forall t | t in o.targets :: t in r.entries && !Owns(r, t))
  }

  /** Whoever a drain inside a handoff waits for started its own cancellations only after it had been targeted. */
  ghost predicate TargetsLater(o: Op, o': Op) {
    o.Draining? && o.origin.Some? && o'.origin.Some? && o'.origin.value in o.targets ==> o'.protectedAt > o.targetedAt
  }

  ghost predicate Ordered(ops: map<OpId, Op>) {
    forall i, j | i in ops && j in ops :: TargetsLater(ops[i], ops[j])
  }

  ghost predicate Waits(r: Registry) {
    ProtectionOk(r) && (forall i | i in r.ops :: OpOk(r, r.ops[i])) && Ordered(r.ops)
  }

  ghost predicate Inv(r: Registry) {
    Table(r) && Waits(r)
  }

  lemma InitInv()
    ensures Inv(Init())
  {
    assert forall c: ClaimId :: OpsFrom(Init().ops, c) == {};
  }

  // ---------------------------------------------------------------- the two-key table

  lemma ReserveKeepsTable(r: Registry, c: ClaimId, key: Key)
    requires Table(r) && c !in r.entries
    ensures Table(ReserveKey(r, c, key))
  {
    var r' := ReserveKey(r, c, key);
    forall k | k in r'.pending ensures KeyOk(r', k) {
      assert k in r.pending ==> KeyOk(r, k);
    }
    forall i | i in r'.entries ensures EntryOk(r', i, r'.entries[i]) {
      assert i in r.entries ==> EntryOk(r, i, r.entries[i]);
    }
  }

  lemma BindKeepsTable(r: Registry, c: ClaimId, status: MessageId)
    requires Table(r) && c in r.entries
    ensures Table(Bind(r, c, status))
  {
    var r' := Bind(r, c, status);
    if r' != r {
      assert EntryOk(r, c, r.entries[c]);
      forall k | k in r'.pending ensures KeyOk(r', k) {
        assert k in r.pending ==> KeyOk(r, k);
      }
      forall i | i in r'.entries ensures EntryOk(r', i, r'.entries[i]) {
        assert EntryOk(r, i, r.entries[i]);
      }
    }
  }

  /** After a set of owned entries is released, exactly their keys are gone. */
  lemma ReleaseAllKeepsTable(r: Registry, claims: set<ClaimId>)
    requires Table(r) && forall c | c in claims :: Owns(r, c)
    ensures Table(ReleaseAll(r, claims))
    ensures forall c | c in r.entries :: Owns(ReleaseAll(r, claims), c) <==> Owns(r, c) && c !in claims
  {
    var r' := ReleaseAll(r, claims);
    forall k | k in r'.pending ensures KeyOk(r', k) {
      assert KeyOk(r, k);
    }
    forall i | i in r'.entries ensures EntryOk(r', i, r'.entries[i]) && (Owns(r', i) <==> Owns(r, i) && i !in claims) {
      assert EntryOk(r, i, r.entries[i]);
    }
  }

  /** Removing one entry by its two keys is releasing it from the set of entries. */
  lemma ReleaseIsReleaseAll(r: Registry, c: ClaimId)
    requires Table(r) && Owns(r, c)
    ensures Release(r, c) == ReleaseAll(r, {c})
  {
    forall k | k in r.pending && r.pending[k] == c ensures k in Keys(r.entries[c]) {
      assert KeyOk(r, k);
    }
    RemoveKeysIsAll(r.pending, c, r.entries[c]);
    assert Release(r, c).entries == ReleaseAll(r, {c}).entries;
  }

  lemma RemoveKeysIsAll(pending: map<Key, ClaimId>, c: ClaimId, x: Entry)
    requires forall k | k in pending && pending[k] == c :: k in Keys(x)
    ensures RemoveKeys(pending, c, x) == map k | k in pending && pending[k] !in {c} :: pending[k]
  {
  }

  /** Steps that change an entry's handoff fields only. */
  lemma HandoffFieldsKeepTable(r: Registry, c: ClaimId, x: Entry)
    requires Table(r) && c in r.entries
    requires x.scope == r.entries[c].scope && x.voice == r.entries[c].voice && x.status == r.entries[c].status
    requires EntryOk(r, c, x)
    ensures Table(r.(entries := r.entries[c := x]))
    ensures forall i | i in r.entries :: Owns(r.(entries := r.entries[c := x]), i) <==> Owns(r, i)
  {
    var r' := r.(entries := r.entries[c := x]);
    forall k | k in r'.pending ensures KeyOk(r', k) {
      assert KeyOk(r, k);
    }
    forall i | i in r'.entries ensures EntryOk(r', i, r'.entries[i]) && (Owns(r', i) <==> Owns(r, i)) {
      assert EntryOk(r, i, r.entries[i]);
    }
  }

  lemma FinishKeepsTable(r: Registry, c: ClaimId, late: bool)
    requires Table(r) && c in r.entries && r.entries[c].handoff.Ended?
    ensures Table(FinishOwnership(r, c, late))
    ensures forall i | i in r.entries && !Owns(r, i) :: !Owns(FinishOwnership(r, c, late), i)
  {
    assert EntryOk(r, c, r.entries[c]);
    if Owns(r, c) {
      ReleaseIsReleaseAll(r, c);
      ReleaseAllKeepsTable(r, {c});
      var r1 := Release(r, c);
      HandoffFieldsKeepTable(r1, c, FinishOwnership(r, c, late).entries[c]);
    } else {
      HandoffFieldsKeepTable(r, c, FinishOwnership(r, c, late).entries[c]);
    }
  }

  lemma MatchedAreOwned(r: Registry, target: Target, origin: Option<ClaimId>)
    requires Table(r)
    ensures forall c | c in Matched(r, target, origin) :: Owns(r, c) && c in r.entries && !Excluded(r, c, origin)
  {
    forall c | c in Matched(r, target, origin) ensures Owns(r, c) && c in r.entries && !Excluded(r, c, origin) {
      var k :| k in r.pending && r.pending[k] == c && !Excluded(r, c, origin);
      assert KeyOk(r, k);
    }
  }

  lemma TableIgnoresOps(r: Registry, r': Registry)
    requires Table(r) && r'.pending == r.pending && r'.entries == r.entries
    ensures Table(r') && forall c | c in r.entries :: Owns(r', c) <==> Owns(r, c)
  {
    forall k | k in r'.pending ensures KeyOk(r', k) {
      assert KeyOk(r, k);
    }
    forall i | i in r'.entries ensures EntryOk(r', i, r'.entries[i]) {
      assert EntryOk(r, i, r.entries[i]);
    }
  }

  lemma DiscardKeepsTable(r: Registry, c: ClaimId, op: OpId)
    requires Table(r) && c in r.entries
    ensures Table(DiscardClaim(r, c, op)) && DiscardClaim(r, c, op).entries.Keys == r.entries.Keys
    ensures forall i | i in r.entries && !Owns(r, i) :: !Owns(DiscardClaim(r, c, op), i)
  {
    if Owns(r, c) {
      ReleaseIsReleaseAll(r, c);
      ReleaseAllKeepsTable(r, {c});
      TableIgnoresOps(Release(r, c), DiscardClaim(r, c, op));
    }
  }

  lemma TakeTargetsKeepsTable(r: Registry, op: OpId)
    requires Table(r) && op in r.ops && r.ops[op].WantsLock?
    ensures Table(TakeTargets(r, op)) && TakeTargets(r, op).entries.Keys == r.entries.Keys
    ensures forall i | i in r.entries && !Owns(r, i) :: !Owns(TakeTargets(r, op), i)
  {
    var taken := Matched(r, r.ops[op].target, r.ops[op].origin);
    MatchedAreOwned(r, r.ops[op].target, r.ops[op].origin);
    ReleaseAllKeepsTable(r, taken);
    TableIgnoresOps(ReleaseAll(r, taken), TakeTargets(r, op));
  }

  lemma StepKeepsTable(r: Registry, a: Action)
    requires Table(r) && Enabled(r, a)
    ensures Table(Step(r, a))
    ensures forall c | c in r.entries && !Owns(r, c) :: !Owns(Step(r, a), c)
    ensures r.entries.Keys <= Step(r, a).entries.Keys
  {
    match a {
      case Reserve(c, key) => ReserveKeepsTable(r, c, key);
      case BindStatus(c, status) => BindKeepsTable(r, c, status);
      case BeginHandoff(c) =>
        if HandoffAccepts(r, c) {
          assert EntryOk(r, c, r.entries[c]);
          HandoffFieldsKeepTable(r, c, r.entries[c].(handoff := Running));
        }
      case TaskEnds(c, how) =>
        assert EntryOk(r, c, r.entries[c]);
        HandoffFieldsKeepTable(r, c, r.entries[c].(handoff := Ended(how)));
      case CallerIsCancelled(c) =>
        assert EntryOk(r, c, r.entries[c]);
        HandoffFieldsKeepTable(r, c, r.entries[c].(callerCancelled := true));
      case FinishHandoff(c, late) => FinishKeepsTable(r, c, late);
      case Discard(c, op) => DiscardKeepsTable(r, c, op);
      case LockCancel(op) => TakeTargetsKeepsTable(r, op);
      case _ => TableIgnoresOps(r, Step(r, a));
    }
  }

  // ---------------------------------------------------------------- protection and waiting

  /** Adding a cancellation adds it to its origin's set and to no other. */
  lemma OpAdded(ops: map<OpId, Op>, op: OpId, o: Op)
    requires op !in ops
    ensures forall c: ClaimId :: |OpsFrom(ops[op := o], c)| == |OpsFrom(ops, c)| + if o.origin == Some(c) then 1 else 0
  {
    forall c: ClaimId ensures |OpsFrom(ops[op := o], c)| == |OpsFrom(ops, c)| + if o.origin == Some(c) then 1 else 0 {
      assert OpsFrom(ops[op := o], c) == OpsFrom(ops, c) + if o.origin == Some(c) then {op} else {};
    }
  }

  lemma OpRemoved(ops: map<OpId, Op>, op: OpId)
    requires op in ops
    ensures forall c: ClaimId :: |OpsFrom(ops - {op}, c)| == |OpsFrom(ops, c)| - if ops[op].origin == Some(c) then 1 else 0
  {
    forall c: ClaimId ensures |OpsFrom(ops - {op}, c)| == |OpsFrom(ops, c)| - if ops[op].origin == Some(c) then 1 else 0 {
      assert OpsFrom(ops - {op}, c) == OpsFrom(ops, c) - if ops[op].origin == Some(c) then {op} else {};
    }
  }

  lemma OpReplaced(ops: map<OpId, Op>, op: OpId, o: Op)
    requires op in ops && o.origin == ops[op].origin
    ensures forall c: ClaimId :: OpsFrom(ops[op := o], c) == OpsFrom(ops, c)
  {
  }

  lemma BeginCancelKeepsWaits(r: Registry, op: OpId, origin: Option<ClaimId>, target: Target)
    requires Waits(r) && Enabled(r, BeginCancel(op, origin, target))
    ensures Waits(Step(r, BeginCancel(op, origin, target)))
  {
    var r' := Step(r, BeginCancel(op, origin, target));
    var o := WantsLock(origin, target, r.tick);
    assert r'.ops == r.ops[op := o];
    OpAdded(r.ops, op, o);
    forall c: ClaimId ensures Protected(r', c) == |OpsFrom(r'.ops, c)| {
      assert Protected(r, c) == |OpsFrom(r.ops, c)|;
    }
    forall i | i in r'.ops ensures OpOk(r', r'.ops[i]) {
      assert i in r.ops && i != op ==> OpOk(r, r.ops[i]);
    }
    forall i, j | i in r'.ops && j in r'.ops ensures TargetsLater(r'.ops[i], r'.ops[j]) {
      assert i != op ==> OpOk(r, r.ops[i]);
    }
  }

  lemma FinishOpKeepsWaits(r: Registry, op: OpId)
    requires Waits(r) && op in r.ops
    ensures Waits(FinishOp(r, op, r.ops[op].origin))
  {
    var r' := FinishOp(r, op, r.ops[op].origin);
    OpRemoved(r.ops, op);
    forall c: ClaimId ensures Protected(r', c) == |OpsFrom(r'.ops, c)| {
      assert Protected(r, c) == |OpsFrom(r.ops, c)|;
    }
    forall i | i in r'.ops ensures OpOk(r', r'.ops[i]) {
      assert OpOk(r, r.ops[i]);
    }
  }

  /** A claim that may be taken has no cancellation of its own in progress. */
  lemma UnprotectedHasNoOps(r: Registry, c: ClaimId, j: OpId)
    requires ProtectionOk(r) && Protected(r, c) == 0
    ensures j in r.ops ==> r.ops[j].origin != Some(c)
  {
    assert |OpsFrom(r.ops, c)| == 0;
    assert j !in OpsFrom(r.ops, c);
  }

  lemma BeginDrainKeepsWaits(r: Registry, op: OpId, targets: set<ClaimId>)
    requires Waits(r) && op in r.ops && r.ops[op].WantsLock?
    requires forall c | c in targets :: c in r.entries && !Owns(r, c) && Protected(r, c) == 0
    ensures Waits(BeginDrain(r, op, targets))
  {
    var r' := BeginDrain(r, op, targets);
    OpReplaced(r.ops, op, r'.ops[op]);
    forall c: ClaimId ensures Protected(r', c) == |OpsFrom(r'.ops, c)| {
      assert Protected(r, c) == |OpsFrom(r.ops, c)|;
    }
    forall i | i in r'.ops ensures OpOk(r', r'.ops[i]) {
      assert OpOk(r, r.ops[i]);
    }
    forall i, j | i in r'.ops && j in r'.ops ensures TargetsLater(r'.ops[i], r'.ops[j]) {
      assert TargetsLater(r.ops[i], r.ops[j]);
      forall c | c in targets ensures r.ops[j].origin != Some(c) {
        UnprotectedHasNoOps(r, c, j);
      }
    }
  }

  lemma TakeTargetsKeepsWaits(r: Registry, op: OpId)
    requires Inv(r) && op in r.ops && r.ops[op].WantsLock?
    ensures Waits(TakeTargets(r, op))
  {
    var taken := Matched(r, r.ops[op].target, r.ops[op].origin);
    MatchedAreOwned(r, r.ops[op].target, r.ops[op].origin);
    ReleaseAllKeepsTable(r, taken);
    WaitsIgnoresEntries(r, ReleaseAll(r, taken));
    BeginDrainKeepsWaits(ReleaseAll(r, taken), op, RunningTasks(r, taken));
  }

  /** A drain started outside every handoff protects nobody and is waited for by nobody. */
  lemma OutsideDrainKeepsWaits(r: Registry, r': Registry, op: OpId)
    requires Waits(r) && op !in r.ops && op in r'.ops && r'.ops == r.ops[op := r'.ops[op]]
    requires r'.protectedCounts == r.protectedCounts && r'.tick >= r.tick
    requires r'.ops[op].Draining? && r'.ops[op].origin.None? && OpOk(r', r'.ops[op])
    requires r.entries.Keys <= r'.entries.Keys && forall c | c in r.entries && !Owns(r, c) :: !Owns(r', c)
    ensures Waits(r')
  {
    OpAdded(r.ops, op, r'.ops[op]);
    forall i: ClaimId ensures Protected(r', i) == |OpsFrom(r'.ops, i)| {
      assert Protected(r, i) == |OpsFrom(r.ops, i)|;
    }
    forall i | i in r'.ops ensures OpOk(r', r'.ops[i]) {
      assert i != op ==> OpOk(r, r.ops[i]);
    }
    forall i, j | i in r'.ops && j in r'.ops ensures TargetsLater(r'.ops[i], r'.ops[j]) {
      assert i != op && j != op ==> TargetsLater(r.ops[i], r.ops[j]);
    }
  }

  lemma DiscardKeepsWaits(r: Registry, c: ClaimId, op: OpId)
    requires Inv(r) && c in r.entries && op !in r.ops
    ensures Waits(DiscardClaim(r, c, op))
  {
    if Owns(r, c) {
      ReleaseIsReleaseAll(r, c);
      ReleaseAllKeepsTable(r, {c});
      TableIgnoresOps(Release(r, c), DiscardClaim(r, c, op));
      OutsideDrainKeepsWaits(r, DiscardClaim(r, c, op), op);
    }
  }

  /** Steps that touch entries and keys only. */
  lemma WaitsIgnoresEntries(r: Registry, r': Registry)
    requires Waits(r) && r'.ops == r.ops && r'.protectedCounts == r.protectedCounts && r'.tick == r.tick
    requires r.entries.Keys <= r'.entries.Keys && forall c | c in r.entries && !Owns(r, c) :: !Owns(r', c)
    ensures Waits(r')
  {
    forall c: ClaimId ensures Protected(r', c) == |OpsFrom(r'.ops, c)| {
      assert Protected(r, c) == |OpsFrom(r.ops, c)|;
    }
    forall i | i in r'.ops ensures OpOk(r', r'.ops[i]) {
      assert OpOk(r, r.ops[i]);
    }
  }

  lemma TaskDrainedKeepsWaits(r: Registry, op: OpId, c: ClaimId)
    requires Waits(r) && Enabled(r, TaskDrained(op, c))
    ensures Waits(Step(r, TaskDrained(op, c)))
  {
    var r' := Step(r, TaskDrained(op, c));
    OpReplaced(r.ops, op, r'.ops[op]);
    forall i: ClaimId ensures Protected(r', i) == |OpsFrom(r'.ops, i)| {
      assert Protected(r, i) == |OpsFrom(r.ops, i)|;
    }
    forall i | i in r'.ops ensures OpOk(r', r'.ops[i]) {
      assert OpOk(r, r.ops[i]);
    }
    forall i, j | i in r'.ops && j in r'.ops ensures TargetsLater(r'.ops[i], r'.ops[j]) {
      assert TargetsLater(r.ops[i], r.ops[j]);
    }
  }

  lemma StepKeepsInv(r: Registry, a: Action)
    requires Inv(r) && Enabled(r, a)
    ensures Inv(Step(r, a))
  {
    StepKeepsTable(r, a);
    match a {
      case BeginCancel(op, origin, target) => BeginCancelKeepsWaits(r, op, origin, target);
      case LockCancel(op) => TakeTargetsKeepsWaits(r, op);
      case AbortCancel(op) => FinishOpKeepsWaits(r, op);
      case EndCancel(op) => FinishOpKeepsWaits(r, op);
      case TaskDrained(op, c) => TaskDrainedKeepsWaits(r, op, c);
      case Discard(c, op) => DiscardKeepsWaits(r, c, op);
      case _ => WaitsIgnoresEntries(r, Step(r, a));
    }
  }

  lemma {:induction false} RunKeepsInv(r: Registry, actions: seq<Action>)
    requires Inv(r) && IsRun(r, actions)
    ensures Inv(After(r, actions))
    decreases |actions|
  {
    if actions != [] {
      StepKeepsInv(r, actions[0]);
      RunKeepsInv(Step(r, actions[0]), actions[1..]);
    }
  }

  // ---------------------------------------------------------------- what handoffs and cancellations can rely on

  /** Cancellation i cannot finish before the handoff that runs cancellation j: it drains that handoff's task. */
  ghost predicate WaitsFor(r: Registry, i: OpId, j: OpId) {
    i in r.ops && j in r.ops && r.ops[i].Draining? && r.ops[j].Draining? && r.ops[j].origin.Some? &&
    r.ops[j].origin.value in r.ops[i].targets
  }

  ghost predicate IsWaitChain(r: Registry, chain: seq<OpId>) {
    forall k | 0 <= k < |chain| - 1 :: WaitsFor(r, chain[k], chain[k + 1])
  }

  ghost predicate TargetedBefore(r: Registry, i: OpId, j: OpId) {
    i in r.ops && j in r.ops && r.ops[i].Draining? && r.ops[j].Draining? && r.ops[i].targetedAt < r.ops[j].targetedAt
  }

  /** Along a chain that starts inside a handoff, the times at which targets were taken go up. */
  lemma {:induction false} ChainGoesUp(r: Registry, chain: seq<OpId>)
    requires Inv(r) && IsWaitChain(r, chain) && |chain| > 1
    requires chain[0] in r.ops && r.ops[chain[0]].origin.Some?
    ensures TargetedBefore(r, chain[0], chain[|chain| - 1])
  {
    assert WaitsFor(r, chain[0], chain[1]);
    assert TargetsLater(r.ops[chain[0]], r.ops[chain[1]]);
    assert OpOk(r, r.ops[chain[1]]);
    if |chain| > 2 {
      var rest := chain[1..];
      forall k | 0 <= k < |rest| - 1 ensures WaitsFor(r, rest[k], rest[k + 1]) {
        assert WaitsFor(r, chain[k + 1], chain[k + 2]);
      }
      ChainGoesUp(r, rest);
    }
  }

  /** No chain of handoffs, each running a cancellation that drains the next, comes back to where it started. */
  lemma WaitsForIsAcyclic(start: Registry, actions: seq<Action>, chain: seq<OpId>)
    requires Inv(start) && IsRun(start, actions)
    requires IsWaitChain(After(start, actions), chain) && |chain| > 1
    ensures chain[0] != chain[|chain| - 1]
  {
    var r := After(start, actions);
    RunKeepsInv(start, actions);
    if chain[0] == chain[|chain| - 1] {
      assert WaitsFor(r, chain[|chain| - 2], chain[|chain| - 2 + 1]);
      ChainGoesUp(r, chain);
    }
  }

  /** While any drain is in progress, one of them waits only for handoffs that run no drain: nothing is stuck for good. */
  lemma SomeDrainIsUnblocked(r: Registry, op: OpId) returns (last: OpId)
    requires Inv(r) && op in r.ops && r.ops[op].Draining?
    ensures last in r.ops && r.ops[last].Draining?
    ensures forall j :: !WaitsFor(r, last, j)
    decreases if r.ops[op].origin.None? then 1 else 0, r.tick - r.ops[op].targetedAt
  {
    assert OpOk(r, r.ops[op]);
    if j :| j in r.ops && WaitsFor(r, op, j) {
      assert OpOk(r, r.ops[j]);
      assert TargetsLater(r.ops[op], r.ops[j]);
      last := SomeDrainIsUnblocked(r, j);
    } else {
      last := op;
    }
  }

  ghost function KeysTo(pending: map<Key, ClaimId>, c: ClaimId): set<Key> {
    set k | k in pending && pending[k] == c
  }

  /** The two-key map is a set of entries: an owned one is found under exactly its own keys, any other under none. */
  lemma TableIsSetOfEntries(start: Registry, actions: seq<Action>, c: ClaimId)
    requires Inv(start) && IsRun(start, actions)
    ensures c in After(start, actions).entries ==>
              KeysTo(After(start, actions).pending, c) ==
              if Owns(After(start, actions), c) then Keys(After(start, actions).entries[c]) else {}
    ensures c !in After(start, actions).entries ==> KeysTo(After(start, actions).pending, c) == {}
  {
    var r := After(start, actions);
    RunKeepsInv(start, actions);
    forall k | k in KeysTo(r.pending, c) ensures c in r.entries && Owns(r, c) && k in Keys(r.entries[c]) {
      assert KeyOk(r, k);
    }
    assert c in r.entries ==> EntryOk(r, c, r.entries[c]);
  }

  /** A claim is released at most once in any run, and it is owned exactly until then. */
  lemma ReleasedAtMostOnce(start: Registry, actions: seq<Action>, c: ClaimId)
    requires Inv(start) && IsRun(start, actions) && c in After(start, actions).entries
    ensures After(start, actions).entries[c].releases <= 1
    ensures Owns(After(start, actions), c) <==> After(start, actions).entries[c].releases == 0
  {
    RunKeepsInv(start, actions);
    assert EntryOk(After(start, actions), c, After(start, actions).entries[c]);
  }

  /**
   What handoff() does: it raises if its caller is cancelled or the callback failed fatally; otherwise it says CANCELLED
   exactly if somebody else has released the claim, however the callback ended, and COMPLETED or the callback's own
   exception exactly if it releases the claim itself.
   */
  lemma OutcomeTellsWhoReleased(r: Registry, c: ClaimId, late: bool)
    requires Inv(r) && Enabled(r, FinishHandoff(c, late))
    ensures Step(r, FinishHandoff(c, late)).entries[c].releases == 1
    ensures var x, outcome := r.entries[c], Step(r, FinishHandoff(c, late)).entries[c].outcome;
            if late || x.callerCancelled || x.handoff.how.Fatal? then outcome == Some(Raise)
            else && (outcome == Some(Cancelled) <==> x.releases == 1)
                 && (outcome == Some(Completed) <==> x.releases == 0 && x.handoff.how.Returned?)
                 && (outcome == Some(Raise) <==> x.releases == 0 && !x.handoff.how.Returned?)
  {
    FinishKeepsTable(r, c, late);
    assert EntryOk(r, c, r.entries[c]);
  }

  predicate TakenBy(r: Registry, o: Op, c: ClaimId) {
    c in r.entries && Owns(r, c) && o.WantsLock? && Names(o.target, r.entries[c]) && o.origin != Some(c) &&
    forall op | op in r.ops :: r.ops[op].origin != Some(c)
  }

  /** This step takes the claim away from whoever owns it. */
  predicate TakesClaim(r: Registry, a: Action, c: ClaimId)
    requires Enabled(r, a)
  {
    (a.FinishHandoff? && a.claim == c) || (a.Discard? && a.claim == c) || (a.LockCancel? && TakenBy(r, r.ops[a.op], c))
  }

  /** A claim is released exactly by the end of its handoff, by a discard, or by a cancellation that may take it. */
  lemma ReleasedIff(r: Registry, a: Action, c: ClaimId)
    requires Inv(r) && Enabled(r, a) && c in r.entries && Owns(r, c)
    ensures c in Step(r, a).entries && (Owns(Step(r, a), c) <==> !TakesClaim(r, a, c))
  {
    match a {
      case LockCancel(op) => LockReleases(r, op, c);
      case FinishHandoff(c', late) => FinishReleases(r, c', late, c);
      case Discard(c', op) => DiscardReleases(r, c', op, c);
      case _ => OthersKeepOwner(r, a, c);
    }
  }

  lemma LockReleases(r: Registry, op: OpId, c: ClaimId)
    requires Inv(r) && Enabled(r, LockCancel(op)) && c in r.entries && Owns(r, c)
    ensures c in Step(r, LockCancel(op)).entries
    ensures Owns(Step(r, LockCancel(op)), c) <==> !TakenBy(r, r.ops[op], c)
  {
    CancellationTakesExactly(r, op, c);
    NobodyCancels(r.ops, c);
  }

  lemma NobodyCancels(ops: map<OpId, Op>, c: ClaimId)
    ensures OpsFrom(ops, c) == {} <==> forall op | op in ops :: ops[op].origin != Some(c)
  {
    forall op | op in ops && ops[op].origin == Some(c) ensures OpsFrom(ops, c) != {} {
      assert op in OpsFrom(ops, c);
    }
  }

  lemma FinishReleases(r: Registry, c': ClaimId, late: bool, c: ClaimId)
    requires Inv(r) && Enabled(r, FinishHandoff(c', late)) && c in r.entries && Owns(r, c)
    ensures c in Step(r, FinishHandoff(c', late)).entries && (Owns(Step(r, FinishHandoff(c', late)), c) <==> c != c')
  {
    assert EntryOk(r, c, r.entries[c]) && EntryOk(r, c', r.entries[c']);
    if Owns(r, c') {
      ReleaseIsReleaseAll(r, c');
      ReleaseAllKeepsTable(r, {c'});
    }
  }

  /** A discard that finds its claim owned drains its handoff, if that runs. */
  lemma DiscardReleases(r: Registry, c': ClaimId, op: OpId, c: ClaimId)
    requires Inv(r) && Enabled(r, Discard(c', op)) && c in r.entries && Owns(r, c)
    ensures c in Step(r, Discard(c', op)).entries && (Owns(Step(r, Discard(c', op)), c) <==> c != c')
    ensures c == c' ==> op in Step(r, Discard(c, op)).ops && Step(r, Discard(c, op)).ops[op].Draining?
    ensures c == c' ==> Step(r, Discard(c, op)).ops[op].targets == if r.entries[c].handoff.Running? then {c} else {}
  {
    if Owns(r, c') {
      ReleaseIsReleaseAll(r, c');
      ReleaseAllKeepsTable(r, {c'});
    }
  }

  lemma OthersKeepOwner(r: Registry, a: Action, c: ClaimId)
    requires Inv(r) && Enabled(r, a) && !a.LockCancel? && !a.FinishHandoff? && !a.Discard? && c in r.entries && Owns(r, c)
    ensures c in Step(r, a).entries && Owns(Step(r, a), c)
  {
  }

  lemma ReleasedStep(r: Registry, a: Action, c: ClaimId)
    requires Inv(r) && Enabled(r, a) && c in r.entries && r.entries[c].releases == 1
    ensures c in Step(r, a).entries && Step(r, a).entries[c].releases == 1
    ensures a != CallerIsCancelled(c) ==> Step(r, a).entries[c].callerCancelled == r.entries[c].callerCancelled
  {
    assert EntryOk(r, c, r.entries[c]);
    if a.LockCancel? {
      MatchedAreOwned(r, r.ops[a.op].target, r.ops[a.op].origin);
    }
  }

  lemma {:induction false} ReleasedStays(r: Registry, actions: seq<Action>, c: ClaimId)
    requires Inv(r) && IsRun(r, actions) && c in r.entries && r.entries[c].releases == 1
    ensures Inv(After(r, actions)) && c in After(r, actions).entries && After(r, actions).entries[c].releases == 1
    ensures CallerIsCancelled(c) !in actions ==>
              After(r, actions).entries[c].callerCancelled == r.entries[c].callerCancelled
    decreases |actions|
  {
    if actions != [] {
      ReleasedStep(r, actions[0], c);
      StepKeepsInv(r, actions[0]);
      ReleasedStays(Step(r, actions[0]), actions[1..], c);
    }
  }

  /**
   The usual cancellation: whatever happens between a cancellation that takes a claim and the end of its handoff, that
   ends as CANCELLED, unless its caller is cancelled too or the callback fails fatally.
   */
  lemma CancelledHandoffSaysSo(start: Registry, before: seq<Action>, r: Registry, op: OpId, c: ClaimId, during: seq<Action>)
    requires Inv(start) && IsRun(start, before) && r == After(start, before)
    requires Enabled(r, LockCancel(op)) && TakenBy(r, r.ops[op], c) && !r.entries[c].callerCancelled
    requires IsRun(Step(r, LockCancel(op)), during) && CallerIsCancelled(c) !in during
    requires Enabled(After(Step(r, LockCancel(op)), during), FinishHandoff(c, false))
    requires !After(Step(r, LockCancel(op)), during).entries[c].handoff.how.Fatal?
    ensures var r' := After(Step(r, LockCancel(op)), during);
            Step(r', FinishHandoff(c, false)).entries[c].outcome == Some(Cancelled)
  {
    RunKeepsInv(start, before);
    var r1 := Step(r, LockCancel(op));
    StepKeepsInv(r, LockCancel(op));
    ReleasedIff(r, LockCancel(op), c);
    assert EntryOk(r1, c, r1.entries[c]);
    ReleasedStays(r1, during, c);
    OutcomeTellsWhoReleased(After(r1, during), c, false);
  }

  lemma CancelledCallerStep(r: Registry, a: Action, c: ClaimId)
    requires Inv(r) && Enabled(r, a) && c in r.entries && r.entries[c].callerCancelled
    ensures c in Step(r, a).entries && Step(r, a).entries[c].callerCancelled
  {
  }

  lemma {:induction false} CallerStaysCancelled(r: Registry, actions: seq<Action>, c: ClaimId)
    requires Inv(r) && IsRun(r, actions) && c in r.entries && r.entries[c].callerCancelled
    ensures Inv(After(r, actions)) && c in After(r, actions).entries && After(r, actions).entries[c].callerCancelled
    decreases |actions|
  {
    if actions != [] {
      CancelledCallerStep(r, actions[0], c);
      StepKeepsInv(r, actions[0]);
      CallerStaysCancelled(Step(r, actions[0]), actions[1..], c);
    }
  }

  /** A handoff whose caller has been cancelled raises, whatever else happens and whoever releases the claim. */
  lemma CancelledCallerRaises(start: Registry, before: seq<Action>, c: ClaimId, during: seq<Action>, late: bool)
    requires Inv(start) && IsRun(start, before) && Enabled(After(start, before), CallerIsCancelled(c))
    requires IsRun(Step(After(start, before), CallerIsCancelled(c)), during)
    requires Enabled(After(Step(After(start, before), CallerIsCancelled(c)), during), FinishHandoff(c, late))
    ensures var r := After(Step(After(start, before), CallerIsCancelled(c)), during);
            Step(r, FinishHandoff(c, late)).entries[c].outcome == Some(Raise)
  {
    RunKeepsInv(start, before);
    StepKeepsInv(After(start, before), CallerIsCancelled(c));
    CallerStaysCancelled(Step(After(start, before), CallerIsCancelled(c)), during, c);
    OutcomeTellsWhoReleased(After(Step(After(start, before), CallerIsCancelled(c)), during), c, late);
  }

  // ---------------------------------------------------------------- what is accepted

  /** A claim that has been reserved and not released. */
  predicate Live(r: Registry, c: ClaimId) {
    c in r.entries && r.entries[c].releases == 0
  }

  ghost predicate KeyIsTaken(r: Registry, key: Key) {
    exists c :: Live(r, c) && key in Keys(r.entries[c])
  }

  lemma PendingIffTaken(r: Registry, key: Key)
    requires Table(r)
    ensures key in r.pending <==> KeyIsTaken(r, key)
  {
    if key in r.pending {
      assert KeyOk(r, key) && EntryOk(r, r.pending[key], r.entries[r.pending[key]]);
      assert Live(r, r.pending[key]);
    }
    if c :| Live(r, c) && key in Keys(r.entries[c]) {
      assert EntryOk(r, c, r.entries[c]);
    }
  }

  /** A voice note is reserved exactly if no live claim goes by its key, as its note or as its status. */
  lemma ReservedIff(start: Registry, actions: seq<Action>, c: ClaimId, key: Key)
    requires Inv(start) && IsRun(start, actions) && Enabled(After(start, actions), Reserve(c, key))
    ensures Live(Step(After(start, actions), Reserve(c, key)), c) <==> !KeyIsTaken(After(start, actions), key)
  {
    RunKeepsInv(start, actions);
    PendingIffTaken(After(start, actions), key);
  }

  /** A status is bound exactly to a live claim that has none yet, or this one, if no other live claim goes by its key. */
  lemma BoundIff(start: Registry, actions: seq<Action>, c: ClaimId, status: MessageId)
    requires Inv(start) && IsRun(start, actions) && Enabled(After(start, actions), BindStatus(c, status))
    ensures var r := After(start, actions);
            var x, r' := r.entries[c], Step(r, BindStatus(c, status));
            var free := forall i | Live(r, i) && i != c :: Key(x.scope, status) !in Keys(r.entries[i]);
            && (BindAccepts(r, c, status) <==> Live(r, c) && (x.status == Some(status) || (x.status.None? && free)))
            && (BindAccepts(r, c, status) ==> Live(r', c) && r'.entries[c].status == Some(status))
            && (!BindAccepts(r, c, status) ==> r' == r)
  {
    var r := After(start, actions);
    RunKeepsInv(start, actions);
    assert EntryOk(r, c, r.entries[c]);
    var key := Key(r.entries[c].scope, status);
    forall i | Live(r, i) && key in Keys(r.entries[i]) ensures key in r.pending && r.pending[key] == i {
      assert EntryOk(r, i, r.entries[i]);
    }
    if key in r.pending {
      assert KeyOk(r, key) && EntryOk(r, r.pending[key], r.entries[r.pending[key]]);
    }
  }

  /** A handoff starts exactly for a live claim with a status and no handoff so far. */
  lemma HandedOffIff(start: Registry, actions: seq<Action>, c: ClaimId)
    requires Inv(start) && IsRun(start, actions) && Enabled(After(start, actions), BeginHandoff(c))
    ensures var r := After(start, actions);
            var x, x' := r.entries[c], Step(r, BeginHandoff(c)).entries[c];
            x' == if Live(r, c) && x.status.Some? && x.handoff.Unstarted? then x.(handoff := Running) else x
    ensures var r := After(start, actions);
            HandoffAccepts(r, c) <==> Live(r, c) && r.entries[c].status.Some? && r.entries[c].handoff.Unstarted?
  {
    RunKeepsInv(start, actions);
    var r := After(start, actions);
    assert EntryOk(r, c, r.entries[c]);
  }

  /** A settled handoff stays settled. */
  lemma OutcomeIsFinal(r: Registry, a: Action, c: ClaimId)
    requires Inv(r) && Enabled(r, a) && c in r.entries && r.entries[c].handoff.Finished?
    ensures c in Step(r, a).entries && Step(r, a).entries[c] == r.entries[c]
  {
    assert EntryOk(r, c, r.entries[c]);
    if a.LockCancel? {
      MatchedAreOwned(r, r.ops[a.op].target, r.ops[a.op].origin);
    }
  }

  predicate Names(target: Target, x: Entry) {
    match target
    case One(key) => key in Keys(x)
    case InScope(scope) => x.scope == scope
    case Everything => true
  }

  /** Going through the keys finds exactly the named entries. */
  lemma MatchedIff(r: Registry, target: Target, origin: Option<ClaimId>, c: ClaimId)
    requires Table(r) && c in r.entries
    ensures c in Matched(r, target, origin) <==> Owns(r, c) && Names(target, r.entries[c]) && !Excluded(r, c, origin)
  {
    assert EntryOk(r, c, r.entries[c]);
    if c in Matched(r, target, origin) {
      var k :| k in r.pending && r.pending[k] == c && (target.One? ==> k == target.key) &&
               (target.InScope? ==> k.scope == target.scope);
      assert KeyOk(r, k);
      MatchedAreOwned(r, target, origin);
    } else if Owns(r, c) && target.InScope? && Names(target, r.entries[c]) {
      assert VoiceKey(r.entries[c]).scope == target.scope;
    }
  }

  /**
   A cancellation releases exactly the owned claims it names, by whichever key, but for the one it runs in and those
   that are cancelling themselves; of these it drains exactly the handoffs that still run.
   */
  lemma CancellationTakesExactly(r: Registry, op: OpId, c: ClaimId)
    requires Inv(r) && Enabled(r, LockCancel(op)) && c in r.entries
    ensures var o, r' := r.ops[op], Step(r, LockCancel(op));
            var taken := Owns(r, c) && Names(o.target, r.entries[c]) && o.origin != Some(c) && OpsFrom(r.ops, c) == {};
            && (Owns(r', c) <==> Owns(r, c) && !taken)
            && (c in r'.ops[op].targets <==> taken && r.entries[c].handoff.Running?)
  {
    var o := r.ops[op];
    var taken := Matched(r, o.target, o.origin);
    MatchedAreOwned(r, o.target, o.origin);
    MatchedIff(r, o.target, o.origin, c);
    ReleaseAllKeepsTable(r, taken);
    TableIgnoresOps(ReleaseAll(r, taken), Step(r, LockCancel(op)));
    assert Protected(r, c) == |OpsFrom(r.ops, c)|;
  }

  /** While a handoff runs a cancellation, nobody else can take its claim: only its own end or a discard releases it. */
  lemma CancellerIsProtected(r: Registry, a: Action, op: OpId, c: ClaimId)
    requires Inv(r) && Enabled(r, a) && op in r.ops && r.ops[op].origin == Some(c) && c in r.entries && Owns(r, c)
    ensures Owns(Step(r, a), c) || a.FinishHandoff? || a.Discard?
    ensures !Owns(Step(r, a), c) ==> a.claim == c
  {
    assert op in OpsFrom(r.ops, c);
    match a {
      case LockCancel(other) => CancellationTakesExactly(r, other, c);
      case FinishHandoff(c', late) =>
        assert EntryOk(r, c, r.entries[c]);
        if Owns(r, c') {
          ReleaseIsReleaseAll(r, c');
          ReleaseAllKeepsTable(r, {c'});
        }
      case Discard(c', _) =>
        if Owns(r, c') {
          ReleaseIsReleaseAll(r, c');
          ReleaseAllKeepsTable(r, {c'});
        }
      case _ =>
    }
  }

  /** Cancelling by the voice note deletes all of the entry's messages, cancelling by its status message only that one. */
  lemma CancelledReplyIsDeleted(r: Registry, key: Key)
    requires Table(r) && key in r.pending
    ensures r.pending[key] in r.entries
    ensures var x := r.entries[r.pending[key]];
            var deleted := CancellationOf(x, Some(key.message)).deleted;
            key.message in deleted && deleted == if key == VoiceKey(x) then set k | k in Keys(x) :: k.message else {key.message}
  {
    assert KeyOk(r, key);
    var x := r.entries[r.pending[key]];
    assert VoiceKey(x) in Keys(x);
    assert x.status.Some? ==> Key(x.scope, x.status.value) in Keys(x);
  }

  lemma ReleaseNone(r: Registry)
    ensures ReleaseAll(r, {}) == r
  {
    assert ReleaseAll(r, {}).pending == r.pending;
    assert ReleaseAll(r, {}).entries == r.entries;
  }

  /** Releasing entries one after the other. */
  lemma ReleaseNext(r: Registry, done: set<ClaimId>, c: ClaimId)
    requires Table(r) && (forall i | i in done :: Owns(r, i)) && Owns(r, c) && c !in done
    ensures Owns(ReleaseAll(r, done), c)
    ensures Release(ReleaseAll(r, done), c) == ReleaseAll(r, done + {c})
  {
    ReleaseAllKeepsTable(r, done);
    ReleaseIsReleaseAll(ReleaseAll(r, done), c);
    ReleaseAllTwice(r, done, c);
  }

  lemma ReleaseAllTwice(r: Registry, done: set<ClaimId>, c: ClaimId)
    requires c !in done
    ensures ReleaseAll(ReleaseAll(r, done), {c}) == ReleaseAll(r, done + {c})
  {
    assert ReleaseAll(ReleaseAll(r, done), {c}).pending == ReleaseAll(r, done + {c}).pending;
    assert ReleaseAll(ReleaseAll(r, done), {c}).entries == ReleaseAll(r, done + {c}).entries;
  }
}
