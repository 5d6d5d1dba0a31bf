/**
 The pending voice registry's objects. Each method is the locked region of one operation, proved to have exactly the
 effect of the matching function of VoiceModel; running cancellations and the clock are ghost fields.
 */
module Voice {
  import opened Options
  import opened VoiceModel
  import VoiceSafety

  class PendingVoice {
    const claim: ClaimId
    const scope: Scope
    const voiceMessage: MessageId
    var statusMessage: Option<MessageId>
    var handoff: Handoff
    ghost var callerCancelled: bool
    ghost var outcome: Option<Outcome>
    ghost var completedHere: bool
    ghost var releases: nat

    ghost function View(): Entry
      reads this
    {
      Entry(scope, voiceMessage, statusMessage, handoff, callerCancelled, outcome, completedHere, releases)
    }

    constructor (claim: ClaimId, key: Key)
      ensures this.claim == claim && View() == NewEntry(key)
    {
      this.claim, scope, voiceMessage := claim, key.scope, key.message;
      statusMessage, handoff := None, Unstarted;
      callerCancelled, outcome, completedHere, releases := false, None, false, 0;
    }

    function Voice(): Key {
      Key(scope, voiceMessage)
    }

    method Result(reply: Option<MessageId>) returns (result: Cancellation)
      ensures result == CancellationOf(View(), reply)
    {
      var deleted := {voiceMessage};
      if reply.Some? && reply.value != voiceMessage {
        deleted := {};
      }
      if statusMessage.Some? {
        deleted := deleted + {statusMessage.value};
      }
      result := Cancellation(scope, voiceMessage, statusMessage, deleted);
    }
  }

  class PendingVoiceRegistry {
    var pending: map<Key, PendingVoice>
    var activeCancellations: map<ClaimId, nat>
    ghost var entries: map<ClaimId, PendingVoice>
    ghost var ops: map<OpId, Op>
    ghost var tick: nat

    ghost predicate Knows(x: PendingVoice)
      reads this`entries
    {
      x.claim in entries && entries[x.claim] == x
    }

    ghost predicate Valid()
      reads this`entries, this`pending
    {
      (forall c | c in entries :: entries[c].claim == c) && forall k | k in pending :: Knows(pending[k])
    }

    ghost function PendingView(): map<Key, ClaimId>
      reads this`pending
    {
      map k | k in pending :: pending[k].claim
    }

    ghost function EntriesView(): map<ClaimId, Entry>
      reads this`entries, entries.Values
    {
      map c | c in entries :: entries[c].View()
    }

    ghost function View(): Registry
      reads this, entries.Values
    {
      Registry(PendingView(), EntriesView(), activeCancellations, ops, tick)
    }

    constructor ()
      ensures Valid() && View() == Init()
    {
      pending, activeCancellations, entries, ops, tick := map[], map[], map[], map[], 0;
    }

    twostate lemma OneEntryChanged(x: PendingVoice)
      requires entries == old(entries) && Knows(x) && old(Valid())
      requires forall c | c in entries && c != x.claim :: unchanged(entries[c])
      ensures EntriesView() == old(EntriesView())[x.claim := x.View()]
    {
    }

    twostate lemma EntriesUnchanged()
      requires entries == old(entries) && forall c | c in entries :: unchanged(entries[c])
      ensures EntriesView() == old(EntriesView())
    {
    }

    twostate lemma OneEntryAdded(new x: PendingVoice)
      requires entries == old(entries)[x.claim := x] && forall c | c in old(entries) :: unchanged(old(entries)[c])
      ensures EntriesView() == old(EntriesView())[x.claim := x.View()]
    {
    }

    method EntryForClaim(x: PendingVoice) returns (owned: bool)
      requires Valid() && Knows(x)
      ensures owned == Owns(View(), x.claim)
    {
      owned := x.Voice() in pending && pending[x.Voice()].claim == x.claim;
    }

    method Reserve(claim: ClaimId, key: Key) returns (entry: PendingVoice?)
      requires Valid() && claim !in entries
      modifies this
      ensures Valid() && View() == ReserveKey(old(View()), claim, key)
      ensures entry != null <==> key !in old(pending)
      ensures entry != null ==> Knows(entry) && entry.claim == claim
    {
      if key in pending {
        return null;
      }
      entry := new PendingVoice(claim, key);
      Add(key, entry);
    }

    method Add(key: Key, x: PendingVoice)
      requires Valid() && x.claim !in entries
      modifies `pending, `entries
      ensures Valid() && Knows(x)
      ensures View() == old(View()).(pending := old(PendingView())[key := x.claim],
                                     entries := old(EntriesView())[x.claim := x.View()])
    {
      AddEntry(x);
      PutKey(key, x);
    }

    ghost method AddEntry(x: PendingVoice)
      requires Valid() && x.claim !in entries
      modifies `entries
      ensures Valid() && Knows(x) && View() == old(View()).(entries := old(EntriesView())[x.claim := x.View()])
    {
      entries := entries[x.claim := x];
      OneEntryAdded(x);
    }

    method PutKey(key: Key, x: PendingVoice)
      requires Valid() && Knows(x)
      modifies `pending
      ensures Valid() && View() == old(View()).(pending := old(PendingView())[key := x.claim])
    {
      pending := pending[key := x];
      EntriesUnchanged();
    }

    /** Pop a key if it leads to this entry. */
    method DropKey(key: Key, x: PendingVoice)
      requires Valid() && Knows(x)
      modifies `pending
      ensures Valid()
      ensures View() == old(View()).(pending := VoiceModel.DropKey(old(PendingView()), key, x.claim))
    {
      if key in pending && pending[key] == x {
        pending := pending - {key};
      }
      EntriesUnchanged();
    }

    method SetStatus(x: PendingVoice, status: MessageId)
      requires Valid() && Knows(x)
      modifies x`statusMessage
      ensures Valid() && View() == old(View()).(entries := old(EntriesView())[x.claim := old(x.View()).(status := Some(status))])
    {
      x.statusMessage := Some(status);
      OneEntryChanged(x);
    }

    ghost method CountRelease(x: PendingVoice)
      requires Valid() && Knows(x)
      modifies x`releases
      ensures Valid()
      ensures View() == old(View()).(entries :=
                old(EntriesView())[x.claim := old(x.View()).(releases := old(x.releases) + 1)])
    {
      x.releases := x.releases + 1;
      OneEntryChanged(x);
    }

    method Settle(x: PendingVoice, completed: bool, ghost outcome: Outcome)
      requires Valid() && Knows(x)
      modifies x`completedHere, x`outcome, x`handoff
      ensures Valid()
      ensures View() == old(View()).(entries := old(EntriesView())[x.claim :=
                old(x.View()).(handoff := Finished, completedHere := completed, outcome := Some(outcome))])
    {
      x.completedHere, x.outcome, x.handoff := completed, Some(outcome), Finished;
      OneEntryChanged(x);
    }

    method BindStatus(x: PendingVoice, status: MessageId) returns (bound: bool)
      requires Valid() && Knows(x)
      modifies this`pending, x`statusMessage
      ensures Valid() && View() == Bind(old(View()), x.claim, status)
      ensures bound == BindAccepts(old(View()), x.claim, status)
    {
      var owned := EntryForClaim(x);
      if !owned {
        return false;
      }
      if x.statusMessage.Some? {
        return x.statusMessage.value == status;
      }
      var key := Key(x.scope, status);
      if key in pending && pending[key] != x {
        return false;
      }
      SetStatus(x, status);
      PutKey(key, x);
      return true;
    }

    /** The start of handoff(): the callback's task is created, or the handoff is rejected. */
    method BeginHandoff(x: PendingVoice) returns (accepted: bool)
      requires Valid() && Knows(x)
      modifies x`handoff
      ensures Valid() && View() == StartHandoff(old(View()), x.claim)
      ensures accepted == HandoffAccepts(old(View()), x.claim)
    {
      var owned := EntryForClaim(x);
      if !owned || x.statusMessage.None? || !x.handoff.Unstarted? {
        return false;
      }
      x.handoff := Running;
      OneEntryChanged(x);
      return true;
    }

    method Remove(x: PendingVoice)
      requires Valid() && Knows(x)
      modifies this`pending, x`releases
      ensures Valid() && View() == Release(old(View()), x.claim)
    {
      DropKey(x.Voice(), x);
      if x.statusMessage.Some? {
        DropKey(Key(x.scope, x.statusMessage.value), x);
      }
      CountRelease(x);
    }

    /** The end of handoff(): release the claim unless somebody else has, and settle the outcome. */
    method FinishOwnership(x: PendingVoice, lateCancellation: bool) returns (completed: bool)
      requires Valid() && Knows(x) && x.handoff.Ended?
      modifies this`pending, x
      ensures Valid() && View() == VoiceModel.FinishOwnership(old(View()), x.claim, lateCancellation)
      ensures completed == Owns(old(View()), x.claim)
    {
      completed := EntryForClaim(x);
      if completed {
        Remove(x);
      }
      Settle(x, completed, OutcomeOf(x.handoff.how, x.callerCancelled, lateCancellation, completed));
    }

    ghost method StartOutsideDrain(op: OpId, targets: set<ClaimId>)
      requires Valid()
      modifies `ops, `tick
      ensures Valid()
      ensures View() == BeginOutsideDrain(old(View()), op, targets)
    {
      ops := ops[op := Draining(None, targets, tick, tick + 1)];
      tick := tick + 2;
      EntriesUnchanged();
    }

    /** The tasks a cancellation has to wait for are those that still run. */
    method Discard(x: PendingVoice, ghost op: OpId) returns (discarded: bool)
      requires Valid() && Knows(x)
      modifies this`pending, this`ops, this`tick, x`releases
      ensures Valid() && View() == DiscardClaim(old(View()), x.claim, op)
      ensures discarded == Owns(old(View()), x.claim)
    {
      discarded := EntryForClaim(x);
      if discarded {
        ghost var targets := RunningTasks(View(), {x.claim});
        Remove(x);
        StartOutsideDrain(op, targets);
      }
    }

    method ProtectClaim(origin: Option<ClaimId>)
      requires Valid()
      modifies `activeCancellations
      ensures Valid() && View() == Protect(old(View()), origin)
    {
      if origin.Some? {
        var count := if origin.value in activeCancellations then activeCancellations[origin.value] else 0;
        activeCancellations := activeCancellations[origin.value := count + 1];
      }
      EntriesUnchanged();
    }

    /** Popping a count that is not there would raise; ProtectionOk says it is there. */
    method UnprotectClaim(origin: Option<ClaimId>)
      requires Valid() && (origin.Some? ==> Protected(View(), origin.value) > 0)
      modifies `activeCancellations
      ensures Valid() && View() == Unprotect(old(View()), origin)
    {
      if origin.Some? {
        var remaining := activeCancellations[origin.value] - 1;
        if remaining != 0 {
          activeCancellations := activeCancellations[origin.value := remaining];
        } else {
          activeCancellations := activeCancellations - {origin.value};
        }
      }
      EntriesUnchanged();
    }

    predicate IsExcluded(x: PendingVoice, origin: Option<ClaimId>)
      reads this
    {
      origin == Some(x.claim) || (x.claim in activeCancellations && activeCancellations[x.claim] > 0)
    }

    /** The cancellation has its targets and starts to wait for the tasks that still run. */
    ghost method StartDrain(op: OpId, targets: set<ClaimId>)
      requires Valid() && op in ops && ops[op].WantsLock?
      modifies `ops, `tick
      ensures Valid() && View() == BeginDrain(old(View()), op, targets)
    {
      ops := ops[op := Draining(ops[op].origin, targets, ops[op].protectedAt, tick)];
      tick := tick + 1;
      EntriesUnchanged();
    }

    /** Release the entry under a key, if there is one that may be taken. */
    method RemoveOne(key: Key, origin: Option<ClaimId>) returns (x: PendingVoice?)
      requires Valid() && VoiceSafety.Table(View())
      modifies this`pending, entries.Values`releases
      ensures Valid() && View() == ReleaseAll(old(View()), Matched(old(View()), One(key), origin))
      ensures x == null <==> Matched(old(View()), One(key), origin) == {}
      ensures x != null ==> key in old(pending) && x == old(pending)[key]
    {
      ghost var r := View();
      if key in pending && !IsExcluded(pending[key], origin) {
        x := pending[key];
        VoiceSafety.MatchedAreOwned(r, One(key), origin);
        VoiceSafety.ReleaseIsReleaseAll(r, x.claim);
        Remove(x);
      } else {
        VoiceSafety.ReleaseNone(r);
        x := null;
      }
    }

    /** The locked region of cancel(): the entry under one message, whichever of its two ids that is. */
    method TakeOne(key: Key, origin: Option<ClaimId>, ghost op: OpId) returns (x: PendingVoice?)
      requires Valid() && op in ops && ops[op].WantsLock? && ops[op].target == One(key) && ops[op].origin == origin
      requires VoiceSafety.Table(View())
      modifies this`pending, this`ops, this`tick, entries.Values`releases
      ensures Valid() && View() == TakeTargets(old(View()), op)
      ensures x == null <==> Matched(old(View()), One(key), origin) == {}
      ensures x != null ==> key in old(pending) && x == old(pending)[key]
    {
      ghost var targets := RunningTasks(View(), Matched(View(), One(key), origin));
      x := RemoveOne(key, origin);
      StartDrain(op, targets);
    }

    /** Remove one more entry, after those of `done`. */
    method RemoveNext(x: PendingVoice, ghost r: Registry, ghost done: set<ClaimId>)
      requires Valid() && Knows(x) && View() == ReleaseAll(r, done)
      requires VoiceSafety.Table(r) && (forall c | c in done :: Owns(r, c)) && Owns(r, x.claim) && x.claim !in done
      modifies this`pending, x`releases
      ensures Valid() && View() == ReleaseAll(r, done + {x.claim})
    {
      VoiceSafety.ReleaseNext(r, done, x.claim);
      Remove(x);
    }

    method RemoveAll(taken: map<ClaimId, PendingVoice>)
      requires Valid() && VoiceSafety.Table(View())
      requires forall c | c in taken :: Knows(taken[c]) && taken[c].claim == c && Owns(View(), c)
      modifies this`pending, entries.Values`releases
      ensures Valid() && View() == ReleaseAll(old(View()), taken.Keys)
    {
      ghost var r := View();
      ghost var done: set<ClaimId> := {};
      var left := taken.Keys;
      VoiceSafety.ReleaseNone(r);
      while left != {}
        invariant Valid() && left <= taken.Keys && done <= taken.Keys && forall c | c in taken :: c in done <==> c !in left
        invariant View() == ReleaseAll(r, done)
        decreases left
      {
        var c :| c in left;
        RemoveNext(taken[c], r, done);
        left, done := left - {c}, done + {c};
      }
      assert done == taken.Keys;
    }

    method Results(taken: map<ClaimId, PendingVoice>) returns (results: map<ClaimId, Cancellation>)
      ensures results == map c | c in taken :: CancellationOf(taken[c].View(), None)
    {
      results := map[];
      var left := taken.Keys;
      while left != {}
        invariant left <= taken.Keys
        invariant results == map c | c in taken && c !in left :: CancellationOf(taken[c].View(), None)
        decreases left
      {
        var c :| c in left;
        var result := taken[c].Result(None);
        results, left := results[c := result], left - {c};
      }
    }

    /** The locked region of cancel_all() and cancel_scope(): every entry found under some key, once. */
    method TakeMatching(scope: Option<Scope>, origin: Option<ClaimId>, ghost op: OpId)
        returns (taken: map<ClaimId, PendingVoice>)
      requires Valid() && op in ops && ops[op].WantsLock? && ops[op].origin == origin
      requires ops[op].target == if scope.Some? then InScope(scope.value) else Everything
      requires VoiceSafety.Table(View())
      modifies this`pending, this`ops, this`tick, entries.Values`releases
      ensures Valid() && View() == TakeTargets(old(View()), op)
      ensures taken.Keys == Matched(old(View()), old(ops)[op].target, origin)
      ensures forall c | c in taken :: Knows(taken[c]) && taken[c].claim == c
    {
      ghost var r := View();
      VoiceSafety.MatchedAreOwned(r, ops[op].target, origin);
      taken := Collect(scope, origin);
      RemoveAll(taken);
      StartDrain(op, RunningTasks(r, taken.Keys));
    }

    predicate Wanted(k: Key, scope: Option<Scope>, origin: Option<ClaimId>)
      reads this
    {
      k in pending && (scope.None? || k.scope == scope.value) && !IsExcluded(pending[k], origin)
    }

    /** Go through the keys, gathering the entries by claim. */
    method Collect(scope: Option<Scope>, origin: Option<ClaimId>) returns (taken: map<ClaimId, PendingVoice>)
      requires Valid()
      ensures taken.Keys == Matched(View(), if scope.Some? then InScope(scope.value) else Everything, origin)
      ensures forall c | c in taken :: Knows(taken[c]) && taken[c].claim == c
    {
      taken := map[];
      var keys := pending.Keys;
      while keys != {}
        invariant keys <= pending.Keys
        invariant forall c | c in taken :: Knows(taken[c]) && taken[c].claim == c
        invariant forall c | c in taken :: exists k :: Wanted(k, scope, origin) && pending[k].claim == c
        invariant forall k | Wanted(k, scope, origin) && k !in keys :: pending[k].claim in taken
        decreases keys
      {
        var k :| k in keys;
        var x := pending[k];
        if (scope.None? || k.scope == scope.value) && !IsExcluded(x, origin) {
          assert Wanted(k, scope, origin);
          taken := taken[x.claim := x];
        }
        keys := keys - {k};
      }
      WantedIsMatched(scope, origin, taken.Keys);
    }

    lemma WantedIsMatched(scope: Option<Scope>, origin: Option<ClaimId>, claims: set<ClaimId>)
      requires forall c | c in claims :: exists k :: Wanted(k, scope, origin) && pending[k].claim == c
      requires forall k | Wanted(k, scope, origin) :: pending[k].claim in claims
      ensures claims == Matched(View(), if scope.Some? then InScope(scope.value) else Everything, origin)
    {
      var r, target := View(), if scope.Some? then InScope(scope.value) else Everything;
      forall c | c in claims ensures c in Matched(r, target, origin) {
        var k :| Wanted(k, scope, origin) && pending[k].claim == c;
        assert k in r.pending && r.pending[k] == c;
      }
      forall c | c in Matched(r, target, origin) ensures c in claims {
        var k :| k in r.pending && r.pending[k] == c && !Excluded(r, c, origin) && (scope.None? || k.scope == scope.value);
        assert Wanted(k, scope, origin);
      }
    }
  }
}
