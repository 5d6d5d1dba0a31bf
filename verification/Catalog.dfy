/** The model lists that clients see. */
module Catalog {
  import opened Options
  import opened Routing

  /** A model of the inventory; `thinking` is unknown for models without cached information. */
  datatype Item = Item(ref: string, thinking: Option<bool>)

  /** Only a model that is known not to think is listed as such. */
  predicate Thinks(i: Item) { i.thinking != Some(false) }

  // ---------------------------------------------------------------- the reference: first occurrences

  function FirstOccurrences(ids: seq<string>): seq<string> {
    if ids == [] then []
    else
      var n := |ids| - 1;
      var earlier := FirstOccurrences(ids[..n]);
      if ids[n] in earlier then earlier else earlier + [ids[n]]
  }

  predicate Distinct(ids: seq<string>) {
    forall i, j | 0 <= i < j < |ids| :: ids[i] != ids[j]
  }

  lemma {:induction false} FirstOccurrencesAreDistinct(ids: seq<string>)
    ensures Distinct(FirstOccurrences(ids))
    ensures forall id :: id in FirstOccurrences(ids) <==> id in ids
  {
    if ids != [] {
      var n := |ids| - 1;
      FirstOccurrencesAreDistinct(ids[..n]);
      assert ids == ids[..n] + [ids[n]];
    }
  }

  // ---------------------------------------------------------------- Claude's list

  /** The ids of one model: its gateway id, unless it does not think, and its no-thinking id. */
  function Variants(i: Item): seq<string> {
    if Thinks(i) then [GatewayId(i.ref), NoThinkingId(i.ref)] else [NoThinkingId(i.ref)]
  }

  function AllVariants(items: seq<Item>): seq<string> {
    if items == [] then [] else AllVariants(items[..|items| - 1]) + Variants(items[|items| - 1])
  }

  class ModelList {
    var ids: seq<string>
    var seen: set<string>
    ghost var appended: seq<string>

    ghost predicate Valid()
      reads this
    {
      ids == FirstOccurrences(appended) && forall id :: id in seen <==> id in ids
    }

    constructor ()
      ensures Valid() && appended == []
    {
      ids, seen, appended := [], {}, [];
    }

    method AppendUnique(id: string)
      requires Valid()
      modifies this
      ensures Valid() && appended == old(appended) + [id]
    {
      assert (appended + [id])[..|appended|] == appended;
      appended := appended + [id];
      if id in seen {
        return;
      }
      seen := seen + {id};
      ids := ids + [id];
    }

    method AppendVariants(i: Item)
      requires Valid()
      modifies this
      ensures Valid() && appended == old(appended) + Variants(i)
    {
      if Thinks(i) {
        AppendUnique(GatewayId(i.ref));
      }
      AppendUnique(NoThinkingId(i.ref));
    }

    method AppendAllVariants(items: seq<Item>)
      requires Valid()
      modifies this
      ensures Valid() && appended == old(appended) + AllVariants(items)
    {
      for k := 0 to |items|
        invariant Valid() && appended == old(appended) + AllVariants(items[..k])
      {
        AppendVariants(items[k]);
        assert items[..k + 1][..k] == items[..k];
      }
      assert items[..|items|] == items;
    }
  }

  /** Configured models, then cached ones, then the static names. */
  function ClaudeCandidates(configured: seq<Item>, cached: seq<Item>, fixed: seq<string>): seq<string> {
    AllVariants(configured) + AllVariants(cached) + fixed
  }

  method BuildClaudeModels(configured: seq<Item>, cached: seq<Item>, fixed: seq<string>) returns (ids: seq<string>)
    ensures ids == FirstOccurrences(ClaudeCandidates(configured, cached, fixed))
  {
    var list := new ModelList();
    list.AppendAllVariants(configured);
    list.AppendAllVariants(cached);
    ghost var variants := AllVariants(configured) + AllVariants(cached);
    assert list.appended == variants;
    for k := 0 to |fixed|
      invariant list.Valid() && list.appended == variants + fixed[..k]
    {
      list.AppendUnique(fixed[k]);
      assert fixed[..k + 1] == fixed[..k] + [fixed[k]];
    }
    assert fixed[..|fixed|] == fixed;
    ids := list.ids;
  }

  predicate IsValidItem(providers: set<string>, i: Item) {
    IsValidRef(providers, i.ref) && IsSane(TargetOf(i.ref).provider)
  }

  predicate AreValid(providers: set<string>, items: seq<Item>) {
    forall i | 0 <= i < |items| :: IsValidItem(providers, items[i])
  }

  lemma IdsRouteBack(providers: set<string>, lower: string -> string, s: Settings, i: Item)
    requires IsValidItem(providers, i)
    ensures Resolve(providers, lower, s, i.ref).primary == TargetOf(i.ref)
    ensures Resolve(providers, lower, s, GatewayId(i.ref)).primary == TargetOf(i.ref)
    ensures Resolve(providers, lower, s, NoThinkingId(i.ref)).primary == TargetOf(i.ref)
    ensures Resolve(providers, lower, s, i.ref).reasoning == s.reasoningPolicy
    ensures Resolve(providers, lower, s, GatewayId(i.ref)).reasoning == s.reasoningPolicy
    ensures Resolve(providers, lower, s, NoThinkingId(i.ref)).reasoning == Off
  {
    var t := TargetOf(i.ref);
    assert Ref(t.provider, t.model) == i.ref && Target(t.provider, t.model) == t;
    AdvertisedIdsRouteBack(providers, lower, s, t.provider, t.model);
  }

  /** Every variant of a model routes back to it, with reasoning off for the no-thinking one and else as configured. */
  lemma VariantRoutesBack(providers: set<string>, lower: string -> string, s: Settings, i: Item, id: string)
    requires IsValidItem(providers, i) && id in Variants(i)
    ensures Resolve(providers, lower, s, id).primary == TargetOf(i.ref)
    ensures Resolve(providers, lower, s, id).reasoning == if id == NoThinkingId(i.ref) then Off else s.reasoningPolicy
  {
    IdsRouteBack(providers, lower, s, i);
    VariantIsOneOfTwo(i, id);
  }

  lemma VariantIsOneOfTwo(i: Item, id: string)
    requires id in Variants(i)
    ensures id == GatewayId(i.ref) || id == NoThinkingId(i.ref)
  {
  }

  predicate IsVariantOf(id: string, i: Item) {
    id == NoThinkingId(i.ref) || (i.thinking != Some(false) && id == GatewayId(i.ref))
  }

  /** One of the models is listed under this id: each under its no-thinking id, and unless it cannot think its gateway id. */
  ghost predicate IsVariantOfOne(id: string, items: seq<Item>) {
    exists k :: 0 <= k < |items| && IsVariantOf(id, items[k])
  }

  lemma VariantsIff(i: Item, id: string)
    ensures id in Variants(i) <==> IsVariantOf(id, i)
  {
  }

  lemma {:induction false} AllVariantsIff(items: seq<Item>, id: string)
    ensures id in AllVariants(items) <==> IsVariantOfOne(id, items)
  {
    if items != [] {
      var n := |items| - 1;
      AllVariantsIff(items[..n], id);
      VariantsIff(items[n], id);
      LastVariant(items, id);
    }
  }

  lemma LastVariant(items: seq<Item>, id: string)
    requires items != []
    ensures IsVariantOfOne(id, items) <==>
            IsVariantOf(id, items[|items| - 1]) || IsVariantOfOne(id, items[..|items| - 1])
  {
    var n := |items| - 1;
    if k :| 0 <= k < |items| && IsVariantOf(id, items[k]) && k < n {
      assert IsVariantOf(id, items[..n][k]);
    }
    if k :| 0 <= k < n && IsVariantOf(id, items[..n][k]) {
      assert IsVariantOf(id, items[k]);
    }
  }

  /** No id is listed twice, and what is listed is exactly the static names and the variants of the known models. */
  lemma ClaudeListIsSound(configured: seq<Item>, cached: seq<Item>, fixed: seq<string>)
    ensures var ids := FirstOccurrences(ClaudeCandidates(configured, cached, fixed));
            && Distinct(ids)
            && forall id :: id in ids <==> id in fixed || IsVariantOfOne(id, configured) || IsVariantOfOne(id, cached)
  {
    var candidates := ClaudeCandidates(configured, cached, fixed);
    FirstOccurrencesAreDistinct(candidates);
    forall id ensures id in candidates <==> id in fixed || IsVariantOfOne(id, configured) || IsVariantOfOne(id, cached) {
      AllVariantsIff(configured, id);
      AllVariantsIff(cached, id);
    }
  }

  /** Ids keep the order in which they come first. */
  lemma {:induction false} FirstOccurrencesKeepOrder(ids: seq<string>, i: nat, j: nat)
    requires i < j < |FirstOccurrences(ids)|
    ensures exists k, n :: 0 <= k < n < |ids| && ids[k] == FirstOccurrences(ids)[i] && ids[n] == FirstOccurrences(ids)[j] &&
              forall h | 0 <= h < n :: ids[h] != ids[n]
  {
    var last := |ids| - 1;
    var earlier := FirstOccurrences(ids[..last]);
    FirstOccurrencesAreDistinct(ids[..last]);
    if j < |earlier| {
      FirstOccurrencesKeepOrder(ids[..last], i, j);
      var k, n :| 0 <= k < n < last && ids[..last][k] == earlier[i] && ids[..last][n] == earlier[j] &&
                  forall h | 0 <= h < n :: ids[..last][h] != ids[..last][n];
      assert forall h | 0 <= h < n :: ids[h] == ids[..last][h];
      assert ids[k] == earlier[i] && ids[n] == earlier[j];
    } else {
      assert earlier[i] in ids[..last];
      var k :| 0 <= k < last && ids[..last][k] == earlier[i];
      assert forall h | 0 <= h < last :: ids[..last][h] == ids[h] && ids[..last][h] in ids[..last];
      assert ids[k] == FirstOccurrences(ids)[i] && ids[last] == FirstOccurrences(ids)[j];
    }
  }

  // ---------------------------------------------------------------- the direct lists

  /** The first item of each reference among the first `n`. */
  function FirstOf(items: seq<Item>, n: nat): seq<Item>
    requires n <= |items|
  {
    if n == 0 then []
    else
      var earlier := FirstOf(items, n - 1);
      if HasRef(earlier, items[n - 1].ref) then earlier else earlier + [items[n - 1]]
  }

  predicate HasRef(items: seq<Item>, ref: string) {
    exists i :: 0 <= i < |items| && items[i].ref == ref
  }

  /** The inventory: configured models first, each reference once, with what was said of it first. */
  function FirstItems(items: seq<Item>): seq<Item> {
    FirstOf(items, |items|)
  }

  method CollectInventory(configured: seq<Item>, cached: seq<Item>) returns (inventory: seq<Item>)
    ensures inventory == FirstItems(configured + cached)
  {
    ghost var all := configured + cached;
    var seen;
    inventory, seen := AddItems([], {}, configured, all, 0);
    inventory, seen := AddItems(inventory, seen, cached, all, |configured|);
  }

  /** One loop: the items not seen yet join the inventory. They stand at `from` in the list of all items. */
  method AddItems(inventory: seq<Item>, seen: set<string>, items: seq<Item>, ghost all: seq<Item>, ghost from: nat)
      returns (inventory': seq<Item>, seen': set<string>)
    requires from + |items| <= |all| && forall k | 0 <= k < |items| :: all[from + k] == items[k]
    requires inventory == FirstOf(all, from) && forall ref :: ref in seen <==> HasRef(inventory, ref)
    ensures inventory' == FirstOf(all, from + |items|) && forall ref :: ref in seen' <==> HasRef(inventory', ref)
  {
    inventory', seen' := inventory, seen;
    for k := 0 to |items|
      invariant inventory' == FirstOf(all, from + k)
      invariant forall ref :: ref in seen' <==> HasRef(inventory', ref)
    {
      inventory', seen' := AddNew(inventory', seen', items[k]);
    }
  }

  method AddNew(inventory: seq<Item>, seen: set<string>, item: Item) returns (inventory': seq<Item>, seen': set<string>)
    requires forall ref :: ref in seen <==> HasRef(inventory, ref)
    ensures inventory' == if HasRef(inventory, item.ref) then inventory else inventory + [item]
    ensures forall ref :: ref in seen' <==> HasRef(inventory', ref)
  {
    if item.ref in seen {
      return inventory, seen;
    }
    RefAdded(inventory, item);
    return inventory + [item], seen + {item.ref};
  }

  lemma RefAdded(items: seq<Item>, item: Item)
    ensures forall ref :: HasRef(items + [item], ref) <==> HasRef(items, ref) || ref == item.ref
  {
    forall ref ensures HasRef(items + [item], ref) <==> HasRef(items, ref) || ref == item.ref {
      var all := items + [item];
      assert all[|items|] == item;
      if HasRef(items, ref) {
        var i :| 0 <= i < |items| && items[i].ref == ref;
        assert all[i] == items[i];
      }
    }
  }

  lemma {:induction false} FirstOfAreDistinct(items: seq<Item>, n: nat)
    requires n <= |items|
    ensures var r := FirstOf(items, n);
            && (forall i, j | 0 <= i < j < |r| :: r[i].ref != r[j].ref)
            && (forall i | 0 <= i < |r| :: r[i] in items)
            && (forall i | 0 <= i < n :: HasRef(r, items[i].ref))
  {
    if n > 0 {
      FirstOfAreDistinct(items, n - 1);
      RefAdded(FirstOf(items, n - 1), items[n - 1]);
    }
  }

  lemma FirstItemsAreDistinct(items: seq<Item>)
    ensures var r := FirstItems(items);
            && (forall i, j | 0 <= i < j < |r| :: r[i].ref != r[j].ref)
            && (forall i | 0 <= i < |r| :: r[i] in items)
            && (forall i | 0 <= i < |items| :: HasRef(r, items[i].ref))
  {
    FirstOfAreDistinct(items, |items|);
  }

  /** Item `k` is the first of its model. */
  ghost predicate ComesFirst(items: seq<Item>, item: Item, k: nat) {
    k < |items| && items[k] == item && forall h | 0 <= h < k :: items[h].ref != item.ref
  }

  lemma {:induction false} FirstOfIsFirst(items: seq<Item>, n: nat, i: nat) returns (k: nat)
    requires n <= |items| && i < |FirstOf(items, n)|
    ensures k < n && ComesFirst(items, FirstOf(items, n)[i], k)
    ensures |FirstOf(items, k)| == i
  {
    var earlier := FirstOf(items, n - 1);
    if i < |earlier| {
      k := FirstOfIsFirst(items, n - 1, i);
    } else {
      FirstOfAreDistinct(items, n - 1);
      k := n - 1;
      forall h | 0 <= h < k ensures items[h].ref != items[k].ref {
        assert HasRef(earlier, items[h].ref);
      }
    }
  }

  /** Of each model the inventory has what was said of it first, and models stand in the order in which they come first. */
  lemma InventoryIsFirst(items: seq<Item>, i: nat, j: nat) returns (k: nat, n: nat)
    requires i < j < |FirstItems(items)|
    ensures k < n && ComesFirst(items, FirstItems(items)[i], k) && ComesFirst(items, FirstItems(items)[j], n)
  {
    k := FirstOfIsFirst(items, |items|, i);
    n := FirstOfIsFirst(items, |items|, j);
    if n <= k {
      FirstOfGrows(items, n, k);
    }
  }

  lemma {:induction false} FirstOfGrows(items: seq<Item>, k: nat, n: nat)
    requires k <= n <= |items|
    ensures |FirstOf(items, k)| <= |FirstOf(items, n)|
  {
    if k < n {
      FirstOfGrows(items, k, n - 1);
    }
  }

  function DirectId(i: Item): string {
    if Thinks(i) then i.ref else NoThinkingId(i.ref)
  }

  /** Two valid references are never listed under one id, even if one is plain and the other a no-thinking id. */
  lemma DirectIdsDiffer(providers: set<string>, a: Item, b: Item)
    requires IsValidItem(providers, a) && IsValidItem(providers, b) && a.ref != b.ref
    ensures DirectId(a) != DirectId(b)
  {
    PrefixesHaveNoSlash();
    PartitionAt(NO_THINKING_PREFIX, a.ref);
    PartitionAt(NO_THINKING_PREFIX, b.ref);
  }

  lemma InventoryIsValid(providers: set<string>, items: seq<Item>)
    requires AreValid(providers, items)
    ensures AreValid(providers, FirstItems(items))
  {
    FirstItemsAreDistinct(items);
    var inventory := FirstItems(items);
    forall i | 0 <= i < |inventory|
      ensures IsValidItem(providers, inventory[i])
    {
      var k :| 0 <= k < |items| && items[k] == inventory[i];
    }
  }

  function DirectIds(items: seq<Item>): seq<string> {
    seq(|items|, i requires 0 <= i < |items| => DirectId(items[i]))
  }

  /**
   The ids of the direct lists are pairwise distinct, cover the whole inventory, and each routes back to its model, with
   reasoning off for a model that does not think and as configured for any other.
   */
  lemma DirectListIsSound(providers: set<string>, lower: string -> string, s: Settings, items: seq<Item>, i: nat)
    requires AreValid(providers, items) && i < |FirstItems(items)|
    ensures Distinct(DirectIds(FirstItems(items)))
    ensures forall k | 0 <= k < |items| :: HasRef(FirstItems(items), items[k].ref)
    ensures var item, route := FirstItems(items)[i], Resolve(providers, lower, s, DirectIds(FirstItems(items))[i]);
            route.primary == TargetOf(item.ref) && route.reasoning == if Thinks(item) then s.reasoningPolicy else Off
  {
    DirectIdsAreDistinct(providers, items);
    InventoryIsValid(providers, items);
    IdsRouteBack(providers, lower, s, FirstItems(items)[i]);
  }

  lemma DirectIdsAreDistinct(providers: set<string>, items: seq<Item>)
    requires AreValid(providers, items)
    ensures Distinct(DirectIds(FirstItems(items)))
    ensures forall k | 0 <= k < |items| :: HasRef(FirstItems(items), items[k].ref)
  {
    FirstItemsAreDistinct(items);
    forall i, j | 0 <= i < j < |FirstItems(items)| ensures DirectIds(FirstItems(items))[i] != DirectIds(FirstItems(items))[j] {
      TwoDirectIdsDiffer(providers, items, i, j);
    }
  }

  lemma TwoDirectIdsDiffer(providers: set<string>, items: seq<Item>, i: nat, j: nat)
    requires AreValid(providers, items) && i < j < |FirstItems(items)|
    ensures DirectId(FirstItems(items)[i]) != DirectId(FirstItems(items)[j])
  {
    FirstItemsAreDistinct(items);
    InventoryIsValid(providers, items);
    DirectIdsDiffer(providers, FirstItems(items)[i], FirstItems(items)[j]);
  }
}
