/** The model lists of api/model_catalog.py and the configured references of config/model_refs.py.

    `sources` are the models known to the gateway, first the configured references and then the
    discovered ones, each with what the cache knows of its support for thinking. */
module Catalog {
  import opened Options
  import opened ModelIds
  import opened Routing

  datatype Source = Source(ref: string, thinking: Option<bool>)

  datatype View = MessagesView | ResponsesView

  datatype Entry = Entry(
    id: string, displayName: string, ref: Option<string>, backend: bool, reasoningEffort: Option<bool>, timeout: Option<int>)

  datatype Listing = Listing(data: seq<Entry>, firstId: Option<string>, lastId: Option<string>)

  const IDLE_TIMEOUT_MARGIN := 60

  // ---- Configured references ----

  function Mentioned(s: Settings): seq<string> {
    [s.model] + OfTier(s, Fable) + OfTier(s, Opus) + OfTier(s, Sonnet) + OfTier(s, Haiku) + s.fallbacks
  }

  function OfTier(s: Settings, t: Tier): seq<string> {
    if t in s.tiers then [s.tiers[t]] else []
  }

  /** `configured_chat_model_refs`. */
  function ConfiguredRefs(s: Settings): seq<string> {
    Unique(Mentioned(s))
  }

  predicate Mentions(s: Settings, x: string) {
    x == s.model || (exists t | t in s.tiers :: s.tiers[t] == x) || x in s.fallbacks
  }

  lemma MentionedAre(s: Settings, x: string)
    ensures x in Mentioned(s) <==> Mentions(s, x)
  {
    var tiers := OfTier(s, Fable) + OfTier(s, Opus) + OfTier(s, Sonnet) + OfTier(s, Haiku);
    assert Mentioned(s) == [s.model] + tiers + s.fallbacks;
    assert forall t :: x in OfTier(s, t) <==> t in s.tiers && s.tiers[t] == x;
    assert x in tiers <==> x in OfTier(s, Fable) || x in OfTier(s, Opus) || x in OfTier(s, Sonnet) || x in OfTier(s, Haiku);
    forall t | x in OfTier(s, t)
      ensures x in tiers
    {
      match t {
        case Fable => case Opus => case Sonnet => case Haiku =>
      }
    }
  }

  /** Exactly the references the settings mention, each once, all well formed. */
  lemma ConfiguredRefsAreTheMentioned(s: Settings, supported: set<string>, x: string)
    requires Validated(s, supported)
    ensures x in ConfiguredRefs(s) <==> Mentions(s, x)
    ensures x in ConfiguredRefs(s) ==> ValidRef(x, supported)
    ensures forall i, j :: 0 <= i < j < |ConfiguredRefs(s)| ==> ConfiguredRefs(s)[i] != ConfiguredRefs(s)[j]
  {
    MentionedAre(s, x);
  }

  // ---- Entries ----

  predicate AllowsReasoning(thinking: Option<bool>) {
    thinking != Some(false)
  }

  function Plain(id: string, displayName: string): Entry {
    Entry(id, displayName, None, false, None, None)
  }

  function NoThinkingName(ref: string): string {
    ref + " (no thinking)"
  }

  function DirectEntry(view: View, timeout: Option<int>, s: Source): Entry {
    var allows := AllowsReasoning(s.thinking);
    Entry(if allows then s.ref else NoThinkingGatewayModelId(s.ref),
          if allows then s.ref else NoThinkingName(s.ref),
          Some(s.ref), view.ResponsesView?,
          if view.ResponsesView? then Some(allows) else None, timeout)
  }

  function Variants(s: Source): seq<Entry> {
    (if AllowsReasoning(s.thinking) then [Plain(GatewayModelId(s.ref), s.ref)] else [])
    + [Plain(NoThinkingGatewayModelId(s.ref), NoThinkingName(s.ref))]
  }

  function VariantsUpTo(sources: seq<Source>, n: nat): seq<Entry>
    requires n <= |sources|
  {
    if n == 0 then [] else VariantsUpTo(sources, n - 1) + Variants(sources[n - 1])
  }

  function AllVariants(sources: seq<Source>): seq<Entry> {
    VariantsUpTo(sources, |sources|)
  }

  function Ids(entries: seq<Entry>): set<string> {
    set e | e in entries :: e.id
  }

  lemma IdsOfJoin(a: seq<Entry>, b: seq<Entry>)
    ensures Ids(a + b) == Ids(a) + Ids(b)
  {
    assert forall e :: e in a + b <==> e in a || e in b;
  }

  predicate UniqueIds(entries: seq<Entry>) {
    forall i, j | 0 <= i < j < |entries| :: entries[i].id != entries[j].id
  }

  /** The first entry of each id. */
  function FirstOfEach(entries: seq<Entry>): seq<Entry> {
    if entries == [] then []
    else
      var before, last := FirstOfEach(entries[..|entries| - 1]), entries[|entries| - 1];
      if last.id in Ids(before) then before else before + [last]
  }

  lemma {:induction false} FirstOfEachIsUnique(entries: seq<Entry>)
    ensures UniqueIds(FirstOfEach(entries))
    ensures Ids(FirstOfEach(entries)) == Ids(entries)
    decreases |entries|
  {
    if entries != [] {
      var init, last := entries[..|entries| - 1], entries[|entries| - 1];
      FirstOfEachIsUnique(init);
      assert entries == init + [last];
      IdsOfJoin(init, [last]);
      IdsOfJoin(FirstOfEach(init), [last]);
      assert Ids([last]) == {last.id};
      forall i | 0 <= i < |FirstOfEach(init)|
        ensures FirstOfEach(init)[i].id in Ids(FirstOfEach(init))
      {
      }
    }
  }

  predicate FirstWithId(entries: seq<Entry>, i: nat) {
    i < |entries| && forall j :: 0 <= j < i ==> entries[j].id != entries[i].id
  }

  /** What is listed are the first entries of their ids, in their order. */
  lemma {:induction false} FirstOfEachInOrder(entries: seq<Entry>) returns (at: seq<nat>)
    ensures
      var u := FirstOfEach(entries);
      && |at| == |u|
      && (forall k :: 0 <= k < |at| ==> FirstWithId(entries, at[k]) && entries[at[k]] == u[k])
      && (forall k, l :: 0 <= k < l < |at| ==> at[k] < at[l])
    decreases |entries|
  {
    at := [];
    if entries != [] {
      var n := |entries| - 1;
      var init := entries[..n];
      at := FirstOfEachInOrder(init);
      FirstOfEachIsUnique(init);
      forall k | 0 <= k < |at|
        ensures FirstWithId(entries, at[k]) && entries[at[k]] == FirstOfEach(init)[k]
      {
        assert FirstWithId(init, at[k]);
        assert forall j :: 0 <= j <= at[k] ==> entries[j] == init[j];
      }
      if entries[n].id !in Ids(FirstOfEach(init)) {
        assert forall j :: 0 <= j < n ==> entries[j] == init[j] && init[j] in init;
        at := at + [n];
      }
    }
  }

  lemma FirstOfOneMore(entries: seq<Entry>, e: Entry)
    ensures
      FirstOfEach(entries + [e]) ==
      if e.id in Ids(entries) then FirstOfEach(entries) else FirstOfEach(entries) + [e]
  {
    assert (entries + [e])[..|entries|] == entries;
    FirstOfEachIsUnique(entries);
  }

  // ---- Building the lists ----

  method AppendUniqueModel(models: seq<Entry>, seen: set<string>, model: Entry, ghost before: seq<Entry>)
    returns (models': seq<Entry>, seen': set<string>)
    requires models == FirstOfEach(before) && seen == Ids(before)
    ensures models' == FirstOfEach(before + [model]) && seen' == Ids(before + [model])
  {
    FirstOfOneMore(before, model);
    IdsOfJoin(before, [model]);
    assert Ids([model]) == {model.id};
    if model.id in seen {
      return models, seen;
    }
    models', seen' := models + [model], seen + {model.id};
  }

  method AppendProviderModelVariants(models: seq<Entry>, seen: set<string>, s: Source, ghost before: seq<Entry>)
    returns (models': seq<Entry>, seen': set<string>)
    requires models == FirstOfEach(before) && seen == Ids(before)
    ensures models' == FirstOfEach(before + Variants(s)) && seen' == Ids(before + Variants(s))
  {
    models', seen' := models, seen;
    ghost var done := before;
    if AllowsReasoning(s.thinking) {
      models', seen' := AppendUniqueModel(models', seen', Plain(GatewayModelId(s.ref), s.ref), done);
      done := done + [Plain(GatewayModelId(s.ref), s.ref)];
    }
    models', seen' := AppendUniqueModel(models', seen', Plain(NoThinkingGatewayModelId(s.ref), NoThinkingName(s.ref)), done);
    assert before + Variants(s) == done + [Plain(NoThinkingGatewayModelId(s.ref), NoThinkingName(s.ref))];
  }

  /** The first and the last id are those of the first and the last entry, and there are none in an empty
      list. */
  predicate Bounds(listing: Listing) {
    if listing.data == [] then listing.firstId.None? && listing.lastId.None?
    else
      && listing.firstId == Some(listing.data[0].id)
      && listing.lastId == Some(listing.data[|listing.data| - 1].id)
  }

  function ListingOf(data: seq<Entry>): Listing {
    Listing(data,
            if data == [] then None else Some(data[0].id),
            if data == [] then None else Some(data[|data| - 1].id))
  }

  method AppendSources(sources: seq<Source>) returns (models: seq<Entry>, seen: set<string>)
    ensures models == FirstOfEach(AllVariants(sources)) && seen == Ids(AllVariants(sources))
  {
    models, seen := [], {};
    ghost var done := [];
    var i := 0;
    while i < |sources|
      invariant 0 <= i <= |sources|
      invariant done == VariantsUpTo(sources, i)
      invariant models == FirstOfEach(done) && seen == Ids(done)
    {
      models, seen := AppendProviderModelVariants(models, seen, sources[i], done);
      done := done + Variants(sources[i]);
      i := i + 1;
    }
  }

  method BuildClaudeModels(sources: seq<Source>, claudeModels: seq<Entry>) returns (listing: Listing)
    ensures listing.data == FirstOfEach(AllVariants(sources) + claudeModels) && Bounds(listing)
  {
    var models, seen := AppendSources(sources);
    ghost var done := AllVariants(sources);
    assert done + claudeModels[..0] == done;
    var j := 0;
    while j < |claudeModels|
      invariant 0 <= j <= |claudeModels|
      invariant done == AllVariants(sources) + claudeModels[..j]
      invariant models == FirstOfEach(done) && seen == Ids(done)
    {
      models, seen := AppendUniqueModel(models, seen, claudeModels[j], done);
      done := done + [claudeModels[j]];
      assert claudeModels[..j + 1] == claudeModels[..j] + [claudeModels[j]];
      j := j + 1;
    }
    assert claudeModels[..j] == claudeModels;
    listing := ListingOf(models);
  }

  function Refs(sources: seq<Source>): set<string> {
    set s | s in sources :: s.ref
  }

  /** The first source of each reference. */
  function FirstRefs(sources: seq<Source>): seq<Source> {
    if sources == [] then []
    else
      var before, last := FirstRefs(sources[..|sources| - 1]), sources[|sources| - 1];
      if last.ref in Refs(before) then before else before + [last]
  }

  lemma RefsOfJoin(a: seq<Source>, b: seq<Source>)
    ensures Refs(a + b) == Refs(a) + Refs(b)
  {
    assert forall s :: s in a + b <==> s in a || s in b;
  }

  lemma {:induction false} FirstRefsAreUnique(sources: seq<Source>, i: nat, j: nat)
    requires i < j < |FirstRefs(sources)|
    ensures FirstRefs(sources)[i].ref != FirstRefs(sources)[j].ref
    decreases |sources|
  {
    var before := FirstRefs(sources[..|sources| - 1]);
    if j < |before| {
      FirstRefsAreUnique(sources[..|sources| - 1], i, j);
    } else {
      assert before[i].ref in Refs(before);
    }
  }

  predicate FirstWithRef(sources: seq<Source>, i: nat) {
    i < |sources| && forall j :: 0 <= j < i ==> sources[j].ref != sources[i].ref
  }

  /** The inventory are the first sources of their references, in their order, so a configured reference
      comes before a discovered one and keeps what it says of thinking. */
  lemma {:induction false} FirstRefsInOrder(sources: seq<Source>) returns (at: seq<nat>)
    ensures
      var u := FirstRefs(sources);
      && |at| == |u|
      && (forall k :: 0 <= k < |at| ==> FirstWithRef(sources, at[k]) && sources[at[k]] == u[k])
      && (forall k, l :: 0 <= k < l < |at| ==> at[k] < at[l])
    decreases |sources|
  {
    at := [];
    if sources != [] {
      var n := |sources| - 1;
      var init := sources[..n];
      at := FirstRefsInOrder(init);
      FirstRefsCover(init);
      forall k | 0 <= k < |at|
        ensures FirstWithRef(sources, at[k]) && sources[at[k]] == FirstRefs(init)[k]
      {
        assert FirstWithRef(init, at[k]);
        assert forall j :: 0 <= j <= at[k] ==> sources[j] == init[j];
      }
      if sources[n].ref !in Refs(FirstRefs(init)) {
        assert forall j :: 0 <= j < n ==> sources[j] == init[j] && init[j] in init;
        at := at + [n];
      }
    }
  }

  lemma {:induction false} FirstRefsCover(sources: seq<Source>)
    ensures Refs(FirstRefs(sources)) == Refs(sources)
    ensures forall s :: s in FirstRefs(sources) ==> s in sources
    decreases |sources|
  {
    if sources != [] {
      var init, last := sources[..|sources| - 1], sources[|sources| - 1];
      FirstRefsCover(init);
      assert sources == init + [last];
      RefsOfJoin(init, [last]);
      RefsOfJoin(FirstRefs(init), [last]);
      assert Refs([last]) == {last.ref};
    }
  }

  lemma RefsOneMore(sources: seq<Source>, i: nat)
    requires i < |sources|
    ensures
      var before := FirstRefs(sources[..i]);
      FirstRefs(sources[..i + 1]) == if sources[i].ref in Refs(before) then before else before + [sources[i]]
  {
    assert sources[..i + 1][..i] == sources[..i];
  }

  method CollectInventory(sources: seq<Source>) returns (inventory: seq<Source>)
    ensures inventory == FirstRefs(sources)
  {
    var seen: set<string> := {};
    inventory := [];
    var i := 0;
    while i < |sources|
      invariant 0 <= i <= |sources|
      invariant inventory == FirstRefs(sources[..i])
      invariant seen == Refs(inventory)
    {
      RefsOneMore(sources, i);
      if sources[i].ref !in seen {
        RefsOfJoin(inventory, [sources[i]]);
        assert Refs([sources[i]]) == {sources[i].ref};
        seen := seen + {sources[i].ref};
        inventory := inventory + [sources[i]];
      }
      i := i + 1;
    }
    assert sources[..i] == sources;
  }

  function IdleTimeout(view: View, timeoutCeiling: int): Option<int> {
    if view.ResponsesView? then Some(timeoutCeiling + IDLE_TIMEOUT_MARGIN) else None
  }

  function DirectEntries(view: View, timeout: Option<int>, inventory: seq<Source>): seq<Entry> {
    if inventory == [] then []
    else DirectEntries(view, timeout, inventory[..|inventory| - 1]) + [DirectEntry(view, timeout, inventory[|inventory| - 1])]
  }

  lemma DirectOneMore(view: View, timeout: Option<int>, inventory: seq<Source>, i: nat)
    requires i < |inventory|
    ensures
      DirectEntries(view, timeout, inventory[..i + 1]) ==
      DirectEntries(view, timeout, inventory[..i]) + [DirectEntry(view, timeout, inventory[i])]
  {
    assert inventory[..i + 1][..i] == inventory[..i];
  }

  method BuildDirectModels(sources: seq<Source>, view: View, timeoutCeiling: int) returns (listing: Listing)
    ensures listing.data == DirectEntries(view, IdleTimeout(view, timeoutCeiling), FirstRefs(sources)) && Bounds(listing)
  {
    var inventory := CollectInventory(sources);
    var timeout := if view.ResponsesView? then Some(timeoutCeiling + IDLE_TIMEOUT_MARGIN) else None;
    var models := [];
    var i := 0;
    while i < |inventory|
      invariant 0 <= i <= |inventory|
      invariant models == DirectEntries(view, timeout, inventory[..i])
    {
      DirectOneMore(view, timeout, inventory, i);
      models := models + [DirectEntry(view, timeout, inventory[i])];
      i := i + 1;
    }
    assert inventory[..i] == inventory;
    listing := ListingOf(models);
  }

  // ---- What is advertised ----

  predicate ValidSources(sources: seq<Source>, supported: set<string>) {
    forall i | 0 <= i < |sources| :: ValidRef(sources[i].ref, supported)
  }

  predicate ListsAt(s: Source, id: string) {
    id == NoThinkingGatewayModelId(s.ref) || (AllowsReasoning(s.thinking) && id == GatewayModelId(s.ref))
  }

  lemma {:induction false} VariantIds(sources: seq<Source>, n: nat, id: string)
    requires n <= |sources|
    ensures id in Ids(VariantsUpTo(sources, n)) <==> exists i :: 0 <= i < n && ListsAt(sources[i], id)
  {
    if n > 0 {
      VariantIds(sources, n - 1, id);
      var before, last := VariantsUpTo(sources, n - 1), Variants(sources[n - 1]);
      IdsOfJoin(before, last);
      assert id in Ids(last) <==> ListsAt(sources[n - 1], id) by {
        assert last[|last| - 1] in last && last[0] in last;
      }
    }
  }

  /** The Claude list has no id twice. It lists, besides the Claude models, exactly the no-thinking id of
      every known model and the gateway id of every one that may think. */
  lemma ClaudeListing(sources: seq<Source>, claudeModels: seq<Entry>, id: string)
    ensures
      var data := FirstOfEach(AllVariants(sources) + claudeModels);
      && UniqueIds(data)
      && (id in Ids(data) <==> id in Ids(claudeModels) || exists i :: 0 <= i < |sources| && ListsAt(sources[i], id))
  {
    VariantIds(sources, |sources|, id);
    IdsOfJoin(AllVariants(sources), claudeModels);
    FirstOfEachIsUnique(AllVariants(sources) + claudeModels);
  }

  /** Every id in the Claude list that is not a Claude model routes back to the known model it was made
      for, with reasoning off exactly for a no-thinking id. */
  lemma ClaudeIdsRouteBack(
    sources: seq<Source>, claudeModels: seq<Entry>, settings: Settings, supported: set<string>, id: string, lowered: string)
    returns (s: Source, forceOff: bool)
    requires ValidSources(sources, supported) && Validated(settings, supported) && PrefixesAreFree(supported)
    requires id in Ids(FirstOfEach(AllVariants(sources) + claudeModels)) && id !in Ids(claudeModels)
    ensures s in sources && ListsAt(s, id) && forceOff == (id == NoThinkingGatewayModelId(s.ref))
    ensures
      var resolved := Resolve(settings, supported, id, lowered);
      && resolved.Ok?
      && resolved.value.primary.modelRef == s.ref
      && resolved.value.preference == if forceOff then Off else settings.reasoningPolicy
  {
    ClaudeListing(sources, claudeModels, id);
    var i :| 0 <= i < |sources| && ListsAt(sources[i], id);
    s, forceOff := sources[i], id == NoThinkingGatewayModelId(sources[i].ref);
    var r := SplitRef(s.ref).value;
    SplitRefInverts(s.ref, r);
    AdvertisedIdsRouteBack(settings, supported, r, forceOff, id, lowered);
  }

  lemma DirectEntryRoutesBack(
    s: Source, view: View, timeout: Option<int>, settings: Settings, supported: set<string>, lowered: string)
    requires ValidRef(s.ref, supported) && Validated(settings, supported) && PrefixesAreFree(supported)
    ensures
      var e := DirectEntry(view, timeout, s);
      var resolved := Resolve(settings, supported, e.id, lowered);
      && e.ref == Some(s.ref)
      && resolved.Ok?
      && resolved.value.primary.modelRef == s.ref
      && resolved.value.preference == if AllowsReasoning(s.thinking) then settings.reasoningPolicy else Off
  {
    var r := SplitRef(s.ref).value;
    SplitRefInverts(s.ref, r);
    AdvertisedIdsRouteBack(settings, supported, r, !AllowsReasoning(s.thinking), DirectEntry(view, timeout, s).id, lowered);
  }

  lemma {:induction false} DirectEntriesLength(view: View, timeout: Option<int>, inventory: seq<Source>)
    ensures |DirectEntries(view, timeout, inventory)| == |inventory|
    decreases |inventory|
  {
    if inventory != [] {
      DirectEntriesLength(view, timeout, inventory[..|inventory| - 1]);
    }
  }

  lemma LastOfJoin<T>(before: seq<T>, last: T, i: nat)
    requires i <= |before|
    ensures (before + [last])[i] == if i < |before| then before[i] else last
  {
  }

  lemma {:induction false} DirectEntriesAt(view: View, timeout: Option<int>, inventory: seq<Source>, i: nat)
    requires i < |inventory| == |DirectEntries(view, timeout, inventory)|
    ensures DirectEntries(view, timeout, inventory)[i] == DirectEntry(view, timeout, inventory[i])
    decreases |inventory|
  {
    var n := |inventory| - 1;
    var init, last := inventory[..n], DirectEntry(view, timeout, inventory[n]);
    DirectEntriesLength(view, timeout, init);
    LastOfJoin(DirectEntries(view, timeout, init), last, i);
    if i < n {
      DirectEntriesAt(view, timeout, init, i);
    }
  }

  /** What a direct entry shows: the model under its own reference, or under its no-thinking id and name if
      it cannot think; only in the Responses view whether it can, and the idle timeout, which exceeds the
      gateway's own ceiling by the margin. */
  lemma DirectEntriesShow(sources: seq<Source>, view: View, ceiling: int, i: nat)
    requires i < |FirstRefs(sources)|
    ensures |DirectEntries(view, IdleTimeout(view, ceiling), FirstRefs(sources))| == |FirstRefs(sources)|
    ensures
      var s, e := FirstRefs(sources)[i], DirectEntries(view, IdleTimeout(view, ceiling), FirstRefs(sources))[i];
      var cannot := s.thinking == Some(false);
      && e.displayName == (if cannot then s.ref + " (no thinking)" else s.ref)
      && (e.id == s.ref <==> !cannot)
      && e.backend == view.ResponsesView?
      && e.reasoningEffort == (if view.ResponsesView? then Some(!cannot) else None)
      && e.timeout == (if view.ResponsesView? then Some(ceiling + 60) else None)
  {
    DirectEntriesLength(view, IdleTimeout(view, ceiling), FirstRefs(sources));
    DirectEntriesAt(view, IdleTimeout(view, ceiling), FirstRefs(sources), i);
    assert |NoThinkingGatewayModelId(FirstRefs(sources)[i].ref)| > |FirstRefs(sources)[i].ref|;
  }

  /** The direct list has one entry for every known model; its id routes back to the entry's model, with
      reasoning off exactly for a model that cannot think. */
  lemma DirectIdsRouteBack(
    sources: seq<Source>, view: View, timeout: Option<int>, settings: Settings, supported: set<string>, lowered: string, i: nat)
    requires ValidSources(sources, supported) && Validated(settings, supported) && PrefixesAreFree(supported)
    requires i < |FirstRefs(sources)|
    ensures
      var s, entries := FirstRefs(sources)[i], DirectEntries(view, timeout, FirstRefs(sources));
      && s in sources && Refs(FirstRefs(sources)) == Refs(sources)
      && |entries| == |FirstRefs(sources)| && entries[i].ref == Some(s.ref)
      && var resolved := Resolve(settings, supported, entries[i].id, lowered);
      && resolved.Ok?
      && resolved.value.primary.modelRef == s.ref
      && resolved.value.preference == if AllowsReasoning(s.thinking) then settings.reasoningPolicy else Off
  {
    FirstRefsCover(sources);
    DirectEntriesLength(view, timeout, FirstRefs(sources));
    DirectEntriesAt(view, timeout, FirstRefs(sources), i);
    var s := FirstRefs(sources)[i];
    assert s in sources;
    DirectEntryRoutesBack(s, view, timeout, settings, supported, lowered);
  }

  /** No id is in the direct list twice. */
  lemma DirectIdsAreUnique(
    sources: seq<Source>, view: View, timeout: Option<int>, settings: Settings, supported: set<string>)
    requires ValidSources(sources, supported) && Validated(settings, supported) && PrefixesAreFree(supported)
    ensures UniqueIds(DirectEntries(view, timeout, FirstRefs(sources)))
  {
    var inventory := FirstRefs(sources);
    var entries := DirectEntries(view, timeout, inventory);
    DirectEntriesLength(view, timeout, inventory);
    forall i, j | 0 <= i < j < |entries|
      ensures entries[i].id != entries[j].id
    {
      DirectIdsRouteBack(sources, view, timeout, settings, supported, "", i);
      DirectIdsRouteBack(sources, view, timeout, settings, supported, "", j);
      FirstRefsAreUnique(sources, i, j);
    }
  }
}
