/** Model ids that the gateway advertises, and the routing of the names that clients send back. */
module Routing {
  import opened Options

  const GATEWAY_PREFIX: string := "anthropic"
  const NO_THINKING_PREFIX: string := "claude-3-freecc-no-thinking"
  const RETIRED_PROVIDER: string := "github_models"

  // ---------------------------------------------------------------- splitting at the first slash

  datatype Split = Split(before: string, found: bool, after: string)

  function Partition(s: string): (r: Split)
    ensures '/' !in r.before && (r.found <==> '/' in s)
    ensures if r.found then s == r.before + "/" + r.after else r.before == s && r.after == ""
  {
    if s == [] then Split([], false, [])
    else if s[0] == '/' then Split([], true, s[1..])
    else
      var rest := Partition(s[1..]);
      Split([s[0]] + rest.before, rest.found, rest.after)
  }

  lemma {:induction false} PartitionAt(p: string, m: string)
    requires '/' !in p
    ensures Partition(p + "/" + m) == Split(p, true, m)
  {
    var s := p + "/" + m;
    if p == [] {
      assert s == "/" + m;
    } else {
      assert s[1..] == p[1..] + "/" + m;
      PartitionAt(p[1..], m);
    }
  }

  function Ref(provider: string, model: string): string {
    provider + "/" + model
  }

  // ---------------------------------------------------------------- gateway ids

  datatype Decoded = Decoded(provider: string, model: string, forceReasoningOff: bool)

  function GatewayId(ref: string): string {
    GATEWAY_PREFIX + "/" + ref
  }

  function NoThinkingId(ref: string): string {
    NO_THINKING_PREFIX + "/" + ref
  }

  function DecodeGatewayId(name: string): Option<Decoded> {
    var outer := Partition(name);
    if !outer.found || (outer.before != GATEWAY_PREFIX && outer.before != NO_THINKING_PREFIX) then None
    else
      var inner := Partition(outer.after);
      if !inner.found || inner.after == [] then None
      else Some(Decoded(inner.before, inner.after, outer.before == NO_THINKING_PREFIX))
  }

  lemma PrefixesHaveNoSlash()
    ensures '/' !in GATEWAY_PREFIX && '/' !in NO_THINKING_PREFIX
  {
  }

  /** Decoding inverts both encodings, for every provider without a slash and every model name, slashes included. */
  lemma DecodeInvertsEncode(p: string, m: string)
    requires '/' !in p
    ensures DecodeGatewayId(GatewayId(Ref(p, m))) == if m == [] then None else Some(Decoded(p, m, false))
    ensures DecodeGatewayId(NoThinkingId(Ref(p, m))) == if m == [] then None else Some(Decoded(p, m, true))
  {
    PrefixesHaveNoSlash();
    PartitionAt(GATEWAY_PREFIX, Ref(p, m));
    PartitionAt(NO_THINKING_PREFIX, Ref(p, m));
    PartitionAt(p, m);
  }

  /** And nothing else decodes: a decoded name is one of the two encodings of what it decodes to. */
  lemma OnlyEncodedIdsDecode(name: string)
    requires DecodeGatewayId(name).Some?
    ensures var d := DecodeGatewayId(name).value;
            var ref := Ref(d.provider, d.model);
            d.model != [] && name == if d.forceReasoningOff then NoThinkingId(ref) else GatewayId(ref)
  {
  }

  // ---------------------------------------------------------------- retired references

  /** The characters that Python's str.strip removes. */
  predicate IsSpace(c: char) {
    var n := c as int;
    9 <= n <= 13 || 28 <= n <= 32 || n == 0x85 || n == 0xA0 || n == 0x1680 || 0x2000 <= n <= 0x200A ||
    n == 0x2028 || n == 0x2029 || n == 0x202F || n == 0x205F || n == 0x3000
  }

  function StripLeft(s: string): string {
    if s != [] && IsSpace(s[0]) then StripLeft(s[1..]) else s
  }

  function StripRight(s: string): (r: string)
    ensures r <= s && (|r| == |s| || IsSpace(s[|r|])) && (r != [] ==> !IsSpace(r[|r| - 1]))
    ensures forall i | |r| <= i < |s| :: IsSpace(s[i])
  {
    if s != [] && IsSpace(s[|s| - 1]) then StripRight(s[..|s| - 1]) else s
  }

  function Strip(s: string): string {
    StripRight(StripLeft(s))
  }

  predicate IsRetired(ref: string) {
    var split := Partition(Strip(ref));
    split.before == RETIRED_PROVIDER && split.found && Strip(split.after) != []
  }

  /** A provider id as the catalog has them. */
  predicate IsSane(p: string) {
    p != [] && '/' !in p && !IsSpace(p[0]) && p != GATEWAY_PREFIX && p != NO_THINKING_PREFIX && p != RETIRED_PROVIDER
  }

  /** Stripping a reference takes nothing but white space, and only off the model. */
  lemma StripOfRef(p: string, m: string) returns (rest: string)
    requires p != [] && '/' !in p && !IsSpace(p[0])
    ensures Partition(Strip(Ref(p, m))) == Split(p, true, rest)
    ensures rest <= m && forall i | |rest| <= i < |m| :: IsSpace(m[i])
  {
    var head := p + "/";
    rest := StripRight(m);
    assert head[0] == p[0] && !IsSpace('/');
    StripLeftStops(Ref(p, m));
    StripRightOfTwo(head, m);
    assert head + rest == p + "/" + rest;
    PartitionAt(p, rest);
  }

  lemma StripLeftStops(s: string)
    requires s != [] && !IsSpace(s[0])
    ensures StripLeft(s) == s
  {
  }

  /** A text that ends in something solid stops the stripping of what follows it. */
  lemma {:induction false} StripRightOfTwo(head: string, m: string)
    requires head != [] && !IsSpace(head[|head| - 1])
    ensures StripRight(head + m) == head + StripRight(m)
    decreases |m|
  {
    if m == [] {
      assert head + m == head;
    } else {
      assert (head + m)[|head + m| - 1] == m[|m| - 1];
      if IsSpace(m[|m| - 1]) {
        assert (head + m)[..|head + m| - 1] == head + m[..|m| - 1];
        StripRightOfTwo(head, m[..|m| - 1]);
      }
    }
  }

  /** A model name with something else than white space in it. */
  ghost predicate IsSolid(m: string) {
    exists i :: 0 <= i < |m| && !IsSpace(m[i])
  }

  lemma {:induction false} StripKeepsSolid(s: string)
    ensures Strip(s) != [] <==> IsSolid(s)
  {
    if s != [] && IsSpace(s[0]) {
      StripKeepsSolid(s[1..]);
      assert forall i | 0 < i < |s| :: s[i] == s[1..][i - 1];
    }
  }

  /** A reference is retired exactly if the provider is the retired one and a model is named. */
  lemma RetiredIff(p: string, m: string)
    requires p != [] && '/' !in p && !IsSpace(p[0])
    ensures IsRetired(Ref(p, m)) <==> p == RETIRED_PROVIDER && IsSolid(m)
  {
    var rest := StripOfRef(p, m);
    StripKeepsSolid(rest);
    assert IsSolid(rest) <==> IsSolid(m);
  }

  // ---------------------------------------------------------------- routing

  datatype Reasoning = Off | Inherit | Preference(level: nat)

  datatype Settings = Settings(
    model: string,
    tierModels: map<string, string>,
    tierReasoning: map<string, Reasoning>,
    fallbacks: seq<string>,
    reasoningPolicy: Reasoning)

  datatype Target = Target(provider: string, model: string)

  datatype Route = Route(primary: Target, fallbacks: seq<Target>, reasoning: Reasoning)

  datatype Direct = Mapped | To(target: Target, forceReasoningOff: bool)

  const TIERS: seq<string> := ["fable", "opus", "haiku", "sonnet"]

  predicate IsValidRef(providers: set<string>, ref: string) {
    var split := Partition(ref);
    split.found && split.before in providers && split.after != []
  }

  /** What validation guarantees of settings: every reference names a supported provider, no fallback comes twice. */
  ghost predicate IsValid(providers: set<string>, s: Settings) {
    && IsValidRef(providers, s.model)
    && (forall t | t in s.tierModels :: IsValidRef(providers, s.tierModels[t]))
    && (forall i | 0 <= i < |s.fallbacks| :: IsValidRef(providers, s.fallbacks[i]))
    && (forall i, j | 0 <= i < j < |s.fallbacks| :: s.fallbacks[i] != s.fallbacks[j])
  }

  function TargetOf(ref: string): Target {
    Target(Partition(ref).before, Partition(ref).after)
  }

  function DirectProviderModel(providers: set<string>, s: Settings, name: string): Direct {
    var decoded := DecodeGatewayId(name);
    var candidate := if decoded.Some? then Ref(decoded.value.provider, decoded.value.model) else name;
    if IsRetired(candidate) then To(TargetOf(s.model), decoded.Some? && decoded.value.forceReasoningOff)
    else if decoded.Some? then
      if decoded.value.provider in providers
      then To(Target(decoded.value.provider, decoded.value.model), decoded.value.forceReasoningOff)
      else Mapped
    else if IsValidRef(providers, name) then To(TargetOf(name), false)
    else Mapped
  }

  predicate Contains(s: string, part: string) {
    |part| <= |s| && (s[..|part|] == part || (s != [] && Contains(s[1..], part)))
  }

  /** The first tier whose name occurs in the lower-cased model name. */
  function MatchedTier(lower: string -> string, name: string, tiers: seq<string>): Option<string> {
    if tiers == [] then None
    else if Contains(lower(name), tiers[0]) then Some(tiers[0])
    else MatchedTier(lower, name, tiers[1..])
  }

  function MappedRef(lower: string -> string, s: Settings, name: string): string {
    var tier := MatchedTier(lower, name, TIERS);
    if tier.Some? && tier.value in s.tierModels then s.tierModels[tier.value] else s.model
  }

  function MappedReasoning(lower: string -> string, s: Settings, name: string): Reasoning {
    var tier := MatchedTier(lower, name, TIERS);
    if tier.Some? && tier.value in s.tierReasoning && s.tierReasoning[tier.value] != Inherit
    then s.tierReasoning[tier.value] else s.reasoningPolicy
  }

  function FallbackTargets(fallbacks: seq<string>, primary: Target): seq<Target> {
    if fallbacks == [] then []
    else
      (if TargetOf(fallbacks[0]) == primary then [] else [TargetOf(fallbacks[0])]) + FallbackTargets(fallbacks[1..], primary)
  }

  function Resolve(providers: set<string>, lower: string -> string, s: Settings, name: string): Route {
    match DirectProviderModel(providers, s, name)
    case To(target, off) => Route(target, FallbackTargets(s.fallbacks, target), if off then Off else s.reasoningPolicy)
    case Mapped =>
      var target := TargetOf(MappedRef(lower, s, name));
      Route(target, FallbackTargets(s.fallbacks, target), MappedReasoning(lower, s, name))
  }

  lemma PlainIdRoutesBack(providers: set<string>, s: Settings, p: string, m: string)
    requires IsSane(p) && p in providers && m != []
    ensures DirectProviderModel(providers, s, Ref(p, m)) == To(Target(p, m), false)
  {
    PartitionAt(p, m);
    RetiredIff(p, m);
  }

  /** What is advertised for a model of a supported provider comes back to it; its no-thinking id turns reasoning off. */
  lemma AdvertisedIdsRouteBack(providers: set<string>, lower: string -> string, s: Settings, p: string, m: string)
    requires IsSane(p) && p in providers && m != []
    ensures Resolve(providers, lower, s, Ref(p, m)).primary == Target(p, m)
    ensures Resolve(providers, lower, s, GatewayId(Ref(p, m))).primary == Target(p, m)
    ensures Resolve(providers, lower, s, NoThinkingId(Ref(p, m))).primary == Target(p, m)
    ensures Resolve(providers, lower, s, Ref(p, m)).reasoning == s.reasoningPolicy
    ensures Resolve(providers, lower, s, GatewayId(Ref(p, m))).reasoning == s.reasoningPolicy
    ensures Resolve(providers, lower, s, NoThinkingId(Ref(p, m))).reasoning == Off
  {
    PlainIdRoutesBack(providers, s, p, m);
    DecodeInvertsEncode(p, m);
    RetiredIff(p, m);
  }

  lemma RetiredProviderIsPlain()
    ensures RETIRED_PROVIDER != [] && '/' !in RETIRED_PROVIDER && !IsSpace(RETIRED_PROVIDER[0])
  {
    assert RETIRED_PROVIDER[0] == 'g';
  }

  /** Retired references, plain or encoded, go to the default model. */
  lemma RetiredRefsFallToTheDefault(providers: set<string>, lower: string -> string, s: Settings, m: string)
    requires IsSolid(m)
    ensures Resolve(providers, lower, s, NoThinkingId(Ref(RETIRED_PROVIDER, m))) ==
              Route(TargetOf(s.model), FallbackTargets(s.fallbacks, TargetOf(s.model)), Off)
    ensures Resolve(providers, lower, s, GatewayId(Ref(RETIRED_PROVIDER, m))) ==
              Route(TargetOf(s.model), FallbackTargets(s.fallbacks, TargetOf(s.model)), s.reasoningPolicy)
  {
    RetiredProviderIsPlain();
    RetiredIff(RETIRED_PROVIDER, m);
    DecodeInvertsEncode(RETIRED_PROVIDER, m);
  }

  // ---------------------------------------------------------------- names that are mapped

  ghost predicate Occurs(part: string, s: string) {
    exists before: string, after: string :: s == before + part + after
  }

  lemma {:induction false} ContainsIff(s: string, part: string)
    ensures Contains(s, part) <==> Occurs(part, s)
  {
    if Contains(s, part) {
      ContainedOccurs(s, part);
    }
    if before: string, after: string :| s == before + part + after {
      OccurringIsContained(s, before, part, after);
    }
  }

  lemma {:induction false} ContainedOccurs(s: string, part: string)
    requires Contains(s, part)
    ensures Occurs(part, s)
  {
    if s[..|part|] == part {
      assert s == [] + part + s[|part|..];
    } else {
      ContainedOccurs(s[1..], part);
      var before: string, after: string :| s[1..] == before + part + after;
      assert s == ([s[0]] + before) + part + after;
    }
  }

  lemma {:induction false} OccurringIsContained(s: string, before: string, part: string, after: string)
    requires s == before + part + after
    ensures Contains(s, part)
    decreases |before|
  {
    if before == [] {
      assert s[..|part|] == part;
    } else {
      assert s[1..] == before[1..] + part + after;
      OccurringIsContained(s[1..], before[1..], part, after);
    }
  }

  lemma NothingToMatch(lower: string -> string, name: string, tiers: seq<string>)
    requires forall j | 0 <= j < |tiers| :: !Occurs(tiers[j], lower(name))
    ensures MatchedTier(lower, name, tiers) == None
    decreases |tiers|
  {
    if tiers != [] {
      ContainsIff(lower(name), tiers[0]);
      NothingToMatch(lower, name, tiers[1..]);
    }
  }

  lemma FirstOccurringMatches(lower: string -> string, name: string, tiers: seq<string>, k: nat)
    requires k < |tiers| && Occurs(tiers[k], lower(name)) && forall j | 0 <= j < k :: !Occurs(tiers[j], lower(name))
    ensures MatchedTier(lower, name, tiers) == Some(tiers[k])
    decreases k
  {
    ContainsIff(lower(name), tiers[0]);
    if k > 0 {
      FirstOccurringMatches(lower, name, tiers[1..], k - 1);
    }
  }

  /**
   A name that is not direct goes to the model of the first of the four tiers that occurs in it, if that tier has one, and
   else to the default model; the tier's own reasoning preference counts, unless it inherits.
   */
  lemma TierDecides(providers: set<string>, lower: string -> string, s: Settings, name: string, k: nat)
    requires DirectProviderModel(providers, s, name).Mapped?
    requires k <= 4 && forall j | 0 <= j < k :: !Occurs(["fable", "opus", "haiku", "sonnet"][j], lower(name))
    requires k < 4 ==> Occurs(["fable", "opus", "haiku", "sonnet"][k], lower(name))
    ensures var tiers, route := ["fable", "opus", "haiku", "sonnet"], Resolve(providers, lower, s, name);
            && route.primary == TargetOf(if k < 4 && tiers[k] in s.tierModels then s.tierModels[tiers[k]] else s.model)
            && route.reasoning == if k < 4 && tiers[k] in s.tierReasoning && s.tierReasoning[tiers[k]] != Inherit
                                  then s.tierReasoning[tiers[k]] else s.reasoningPolicy
  {
    if k < 4 {
      FirstOccurringMatches(lower, name, TIERS, k);
    } else {
      NothingToMatch(lower, name, TIERS);
    }
  }

  lemma {:induction false} StripLeftIsSuffix(s: string)
    ensures forall c | c in StripLeft(s) :: c in s
  {
    if s != [] && IsSpace(s[0]) {
      StripLeftIsSuffix(s[1..]);
    }
  }

  lemma StripInventsNothing(s: string)
    ensures forall c | c in Strip(s) :: c in s
  {
    StripLeftIsSuffix(s);
    var left, both := StripLeft(s), Strip(s);
    forall c | c in both ensures c in s {
      var i :| 0 <= i < |both| && both[i] == c;
      assert left[i] == c;
    }
  }

  /** Direct are exactly names with a slash, and not even those, plain or encoded, if they name an unsupported provider. */
  lemma MappedNames(providers: set<string>, s: Settings, name: string, p: string, m: string)
    requires IsSane(p) && p !in providers
    ensures '/' !in name ==> DirectProviderModel(providers, s, name).Mapped?
    ensures DirectProviderModel(providers, s, Ref(p, m)).Mapped?
    ensures m != [] ==> DirectProviderModel(providers, s, GatewayId(Ref(p, m))).Mapped?
    ensures m != [] ==> DirectProviderModel(providers, s, NoThinkingId(Ref(p, m))).Mapped?
  {
    StripInventsNothing(name);
    PartitionAt(p, m);
    RetiredIff(p, m);
    DecodeInvertsEncode(p, m);
  }

  // ---------------------------------------------------------------- the order of the fallbacks

  /** Fallback `k` of the settings stands at this place among the targets. */
  function PlaceOf(fallbacks: seq<string>, primary: Target, k: nat): nat
    requires k <= |fallbacks|
  {
    if k == 0 then 0
    else PlaceOf(fallbacks, primary, k - 1) + if TargetOf(fallbacks[k - 1]) == primary then 0 else 1
  }

  lemma {:induction false} PlaceInRest(fallbacks: seq<string>, primary: Target, k: nat)
    requires 0 < k <= |fallbacks|
    ensures PlaceOf(fallbacks, primary, k) ==
            PlaceOf(fallbacks[1..], primary, k - 1) + if TargetOf(fallbacks[0]) == primary then 0 else 1
  {
    if k > 1 {
      PlaceInRest(fallbacks, primary, k - 1);
    }
  }

  /** The fallbacks keep the order of the settings: each stands right after those before it that are not the primary. */
  lemma {:induction false} FallbacksKeepOrder(fallbacks: seq<string>, primary: Target, k: nat)
    requires k < |fallbacks| && TargetOf(fallbacks[k]) != primary
    ensures PlaceOf(fallbacks, primary, k) < |FallbackTargets(fallbacks, primary)|
    ensures FallbackTargets(fallbacks, primary)[PlaceOf(fallbacks, primary, k)] == TargetOf(fallbacks[k])
  {
    if k > 0 {
      FallbacksKeepOrder(fallbacks[1..], primary, k - 1);
      PlaceInRest(fallbacks, primary, k);
    }
  }

  // ---------------------------------------------------------------- every route

  lemma ValidRefsDiffer(providers: set<string>, a: string, b: string)
    requires IsValidRef(providers, a) && IsValidRef(providers, b) && a != b
    ensures TargetOf(a) != TargetOf(b)
  {
  }

  lemma {:induction false} FallbacksDiffer(providers: set<string>, fallbacks: seq<string>, primary: Target)
    requires forall i | 0 <= i < |fallbacks| :: IsValidRef(providers, fallbacks[i])
    requires forall i, j | 0 <= i < j < |fallbacks| :: fallbacks[i] != fallbacks[j]
    ensures var targets := FallbackTargets(fallbacks, primary);
            && primary !in targets
            && (forall i, j | 0 <= i < j < |targets| :: targets[i] != targets[j])
            && (forall t :: t in targets <==> t != primary && exists i :: 0 <= i < |fallbacks| && TargetOf(fallbacks[i]) == t)
  {
    if fallbacks != [] {
      var rest := fallbacks[1..];
      FallbacksDiffer(providers, rest, primary);
      var first, targets := TargetOf(fallbacks[0]), FallbackTargets(rest, primary);
      forall i | 0 <= i < |rest| ensures TargetOf(rest[i]) != first {
        ValidRefsDiffer(providers, rest[i], fallbacks[0]);
      }
      assert first !in targets;
      forall t
        ensures t in FallbackTargets(fallbacks, primary) <==>
                  t != primary && exists i :: 0 <= i < |fallbacks| && TargetOf(fallbacks[i]) == t
      {
        if i :| 0 <= i < |fallbacks| && TargetOf(fallbacks[i]) == t && i > 0 {
          assert TargetOf(rest[i - 1]) == t;
        }
        if i :| 0 <= i < |rest| && TargetOf(rest[i]) == t {
          assert TargetOf(fallbacks[i + 1]) == t;
        }
      }
    }
  }

  /** Any name at all is routed to supported providers, and no target is tried twice. */
  lemma RoutesAreSupportedAndDistinct(providers: set<string>, lower: string -> string, s: Settings, name: string)
    requires IsValid(providers, s)
    ensures var route := Resolve(providers, lower, s, name);
            && route.primary.provider in providers
            && route.primary !in route.fallbacks
            && (forall i, j | 0 <= i < j < |route.fallbacks| :: route.fallbacks[i] != route.fallbacks[j])
            && (forall t | t in route.fallbacks :: t.provider in providers)
  {
    var route := Resolve(providers, lower, s, name);
    FallbacksDiffer(providers, s.fallbacks, route.primary);
    assert IsValidRef(providers, MappedRef(lower, s, name));
    forall t | t in route.fallbacks ensures t.provider in providers {
      var i :| 0 <= i < |s.fallbacks| && TargetOf(s.fallbacks[i]) == t;
      assert IsValidRef(providers, s.fallbacks[i]);
    }
  }
}
