/** Routing of model names, application/routing.py, over settings as config/settings.py validates them.

    `supported` is the key set of the provider catalog. The lower-case form of a model name is a
    parameter, because how a string is lower-cased is the string library's matter. */
module Routing {
  import opened Options
  import opened ModelIds

  datatype Preference = Inherit | Off | ClientChoice | Low | Medium | High | XHigh | Maximum

  datatype Tier = Fable | Opus | Haiku | Sonnet

  datatype Settings = Settings(
    model: string, tiers: map<Tier, string>, fallbacks: seq<string>,
    reasoningPolicy: Preference, tierReasoning: map<Tier, Preference>)

  datatype Target = Target(ref: Ref, modelRef: string)

  datatype Route = Route(originalModel: string, primary: Target, fallbacks: seq<Target>, preference: Preference)

  datatype Error = UnknownProvider(provider: string) | MalformedRef(ref: string)

  datatype Result<+T> = Ok(value: T) | Err(error: Error)

  // ---- Settings ----

  predicate ValidRef(ref: string, supported: set<string>) {
    SplitRef(ref).Some? && SplitRef(ref).value.provider in supported
  }

  /** What the settings' validators check of models and fallbacks. */
  predicate Validated(settings: Settings, supported: set<string>) {
    && ValidRef(settings.model, supported)
    && (forall t | t in settings.tiers :: ValidRef(settings.tiers[t], supported))
    && (forall i | 0 <= i < |settings.fallbacks| :: ValidRef(settings.fallbacks[i], supported))
    && (forall i, j | 0 <= i < j < |settings.fallbacks| :: settings.fallbacks[i] != settings.fallbacks[j])
  }

  /** Neither prefix of the gateway's own ids is a provider, and provider ids are plain names. */
  predicate PrefixesAreFree(supported: set<string>) {
    GATEWAY_PREFIX !in supported && NO_THINKING_PREFIX !in supported && "" !in supported
  }

  // ---- Resolving ----

  function TargetFor(r: Ref, supported: set<string>): Result<Target> {
    if r.provider in supported then Ok(Target(r, Join(r))) else Err(UnknownProvider(r.provider))
  }

  function TargetFromRef(ref: string, supported: set<string>): Result<Target> {
    match SplitRef(ref)
    case None => Err(MalformedRef(ref))
    case Some(r) => TargetFor(r, supported)
  }

  function TargetsFromRefs(refs: seq<string>, supported: set<string>): Result<seq<Target>> {
    if refs == [] then Ok([])
    else
      match TargetFromRef(refs[0], supported)
      case Err(e) => Err(e)
      case Ok(target) =>
        match TargetsFromRefs(refs[1..], supported)
        case Err(e) => Err(e)
        case Ok(rest) => Ok([target] + rest)
  }

  function Without(targets: seq<Target>, primary: Target): seq<Target> {
    if targets == [] then []
    else if targets[0] == primary then Without(targets[1..], primary)
    else [targets[0]] + Without(targets[1..], primary)
  }

  /** `_direct_provider_model`. */
  function Direct(name: string, supported: set<string>): Option<Decoded> {
    match Decode(name)
    case Some(d) => if d.ref.provider in supported then Some(d) else None
    case None =>
      var p := Partition(name);
      if !p.found || p.head !in supported || p.tail == "" then None
      else Some(Decoded(Ref(p.head, p.tail), false))
  }

  predicate StartsAt(s: string, part: string, i: int) {
    0 <= i <= |s| - |part| && s[i..i + |part|] == part
  }

  predicate Contains(s: string, part: string) {
    exists i | 0 <= i <= |s| :: StartsAt(s, part, i)
  }

  function MatchedTier(lowered: string): Option<Tier> {
    if Contains(lowered, "fable") then Some(Fable)
    else if Contains(lowered, "opus") then Some(Opus)
    else if Contains(lowered, "haiku") then Some(Haiku)
    else if Contains(lowered, "sonnet") then Some(Sonnet)
    else None
  }

  function ModelRefFor(settings: Settings, lowered: string): string {
    match MatchedTier(lowered)
    case Some(tier) => if tier in settings.tiers then settings.tiers[tier] else settings.model
    case None => settings.model
  }

  function PreferenceFor(settings: Settings, lowered: string): Preference {
    match MatchedTier(lowered)
    case Some(tier) =>
      if tier in settings.tierReasoning && !settings.tierReasoning[tier].Inherit? then settings.tierReasoning[tier]
      else settings.reasoningPolicy
    case None => settings.reasoningPolicy
  }

  function WithFallbacks(
    settings: Settings, supported: set<string>, name: string, primary: Result<Target>, preference: Preference): Result<Route>
  {
    match primary
    case Err(e) => Err(e)
    case Ok(target) =>
      match TargetsFromRefs(settings.fallbacks, supported)
      case Err(e) => Err(e)
      case Ok(configured) => Ok(Route(name, target, Without(configured, target), preference))
  }

  function Resolve(settings: Settings, supported: set<string>, name: string, lowered: string): Result<Route> {
    match Direct(name, supported)
    case Some(d) =>
      WithFallbacks(settings, supported, name, TargetFor(d.ref, supported),
                    if d.forceReasoningOff then Off else settings.reasoningPolicy)
    case None =>
      WithFallbacks(settings, supported, name, TargetFromRef(ModelRefFor(settings, lowered), supported),
                    PreferenceFor(settings, lowered))
  }

  // ---- Which names route directly ----

  /** A name names a provider model directly exactly if it is one of that model's three ids: its
      reference, its gateway id or its no-thinking id; and only the last turns reasoning off. */
  lemma DirectNames(name: string, supported: set<string>, d: Decoded)
    requires PrefixesAreFree(supported)
    ensures
      Direct(name, supported) == Some(d) <==>
      && WellFormed(d.ref) && d.ref.provider in supported
      && (name == Encode(d) || (name == Join(d.ref) && !d.forceReasoningOff))
  {
    DecodeInverts(name, d);
    SplitRefInverts(name, d.ref);
    if Decode(name).Some? {
      DecodeInverts(name, Decode(name).value);
      NotARef(name, Decode(name).value, d, supported);
    }
  }

  /** No gateway id is a reference of a supported provider. */
  lemma NotARef(name: string, got: Decoded, d: Decoded, supported: set<string>)
    requires PrefixesAreFree(supported) && name == Encode(got)
    ensures name == Join(d.ref) && WellFormed(d.ref) ==> d.ref.provider !in supported
  {
    PartitionOfJoin(if got.forceReasoningOff then NO_THINKING_PREFIX else GATEWAY_PREFIX, Join(got.ref));
    if WellFormed(d.ref) {
      PartitionOfJoin(d.ref.provider, d.ref.model);
    }
  }

  /** The premise is needed: with a provider named like the gateway prefix, one of its own references
      is read as another provider's gateway id. */
  lemma PrefixAsProviderMisroutes()
    ensures
      var supported := {"anthropic", "groq"};
      var r := Ref("anthropic", "groq/llama");
      WellFormed(r) && Direct(Join(r), supported) == Some(Decoded(Ref("groq", "llama"), false))
  {
    var r := Ref("anthropic", "groq/llama");
    var d := Decoded(Ref("groq", "llama"), false);
    assert Join(r) == Encode(d);
    DecodeInverts(Join(r), d);
  }

  // ---- Routes ----

  lemma {:induction false} ValidRefsAreTargets(refs: seq<string>, supported: set<string>)
    requires forall i | 0 <= i < |refs| :: ValidRef(refs[i], supported)
    ensures
      var targets := TargetsFromRefs(refs, supported);
      && targets.Ok? && |targets.value| == |refs|
      && (forall i :: 0 <= i < |refs| ==> TargetFromRef(refs[i], supported) == Ok(targets.value[i]))
  {
    if refs != [] {
      ValidRefsAreTargets(refs[1..], supported);
    }
  }

  lemma {:induction false} WithoutKeeps(targets: seq<Target>, primary: Target)
    requires forall i, j | 0 <= i < j < |targets| :: targets[i] != targets[j]
    ensures
      var rest := Without(targets, primary);
      && (forall x :: x in rest <==> x in targets && x != primary)
      && (forall i, j :: 0 <= i < j < |rest| ==> rest[i] != rest[j])
  {
    if targets != [] {
      WithoutKeeps(targets[1..], primary);
      var rest := Without(targets, primary);
      var later := Without(targets[1..], primary);
      assert forall x :: x in targets <==> x == targets[0] || x in targets[1..];
      if targets[0] != primary {
        assert rest == [targets[0]] + later;
        assert forall j :: 0 < j < |rest| ==> rest[j] == later[j - 1] && rest[j] in later;
      }
    }
  }

  predicate ProperTarget(target: Target, supported: set<string>) {
    WellFormed(target.ref) && target.ref.provider in supported && target.modelRef == Join(target.ref)
  }

  function Candidates(route: Route): seq<Target> {
    [route.primary] + route.fallbacks
  }

  lemma FallbacksAreDistinct(settings: Settings, supported: set<string>, primary: Target)
    requires Validated(settings, supported)
    ensures
      var configured := TargetsFromRefs(settings.fallbacks, supported);
      && configured.Ok?
      && (forall i, j :: 0 <= i < j < |configured.value| ==> configured.value[i] != configured.value[j])
      && (forall x :: x in configured.value ==> ProperTarget(x, supported))
      && (forall i :: 0 <= i < |settings.fallbacks| ==>
            exists x :: x in configured.value && x.modelRef == settings.fallbacks[i])
  {
    ValidRefsAreTargets(settings.fallbacks, supported);
    var configured := TargetsFromRefs(settings.fallbacks, supported).value;
    forall i | 0 <= i < |settings.fallbacks|
      ensures configured[i].modelRef == settings.fallbacks[i] && ProperTarget(configured[i], supported)
    {
      SplitRefInverts(settings.fallbacks[i], SplitRef(settings.fallbacks[i]).value);
    }
    forall i | 0 <= i < |settings.fallbacks|
      ensures exists x :: x in configured && x.modelRef == settings.fallbacks[i]
    {
      assert configured[i] in configured;
    }
  }

  lemma CandidatesKeep(configured: seq<Target>, primary: Target)
    requires forall i, j | 0 <= i < j < |configured| :: configured[i] != configured[j]
    ensures
      var all := [primary] + Without(configured, primary);
      && (forall i, j :: 0 <= i < j < |all| ==> all[i] != all[j])
      && (forall x :: x in all <==> x == primary || x in configured)
  {
    WithoutKeeps(configured, primary);
    var rest := Without(configured, primary);
    var all := [primary] + rest;
    assert forall j :: 0 < j < |all| ==> all[j] == rest[j - 1] && all[j] in rest;
  }

  predicate Distinct(targets: seq<Target>) {
    forall i, j | 0 <= i < j < |targets| :: targets[i] != targets[j]
  }

  ghost predicate Offers(targets: seq<Target>, ref: string) {
    exists x :: x in targets && x.modelRef == ref
  }

  lemma RouteCandidates(
    settings: Settings, supported: set<string>, name: string, primary: Target, preference: Preference)
    requires Validated(settings, supported) && ProperTarget(primary, supported)
    ensures
      var resolved := WithFallbacks(settings, supported, name, Ok(primary), preference);
      && resolved.Ok?
      && resolved.value.originalModel == name && resolved.value.primary == primary && resolved.value.preference == preference
      && Distinct(Candidates(resolved.value))
      && (forall x :: x in Candidates(resolved.value) ==> ProperTarget(x, supported))
      && (forall i :: 0 <= i < |settings.fallbacks| ==> Offers(Candidates(resolved.value), settings.fallbacks[i]))
  {
    FallbacksAreDistinct(settings, supported, primary);
    var configured := TargetsFromRefs(settings.fallbacks, supported).value;
    CandidatesKeep(configured, primary);
    var all := Candidates(WithFallbacks(settings, supported, name, Ok(primary), preference).value);
    assert all == [primary] + Without(configured, primary);
    forall i | 0 <= i < |settings.fallbacks|
      ensures Offers(all, settings.fallbacks[i])
    {
      var x :| x in configured && x.modelRef == settings.fallbacks[i];
      assert x in all;
    }
  }

  lemma PrimaryIsProper(settings: Settings, supported: set<string>, name: string, lowered: string) returns (primary: Target)
    requires Validated(settings, supported) && PrefixesAreFree(supported)
    ensures
      match Direct(name, supported)
      case Some(d) => TargetFor(d.ref, supported) == Ok(primary)
      case None => TargetFromRef(ModelRefFor(settings, lowered), supported) == Ok(primary)
    ensures ProperTarget(primary, supported)
    ensures Direct(name, supported).None? ==> primary.modelRef == ModelRefFor(settings, lowered)
  {
    match Direct(name, supported) {
      case Some(d) =>
        DirectNames(name, supported, d);
        primary := Target(d.ref, Join(d.ref));
      case None =>
        var ref := ModelRefFor(settings, lowered);
        SplitRefInverts(ref, SplitRef(ref).value);
        primary := Target(SplitRef(ref).value, ref);
    }
  }

  /** With validated settings every name resolves; the candidates are proper targets of supported
      providers and pairwise distinct, so a request tries each at most once; and every configured
      fallback is among them. */
  lemma ResolvesToDistinctCandidates(settings: Settings, supported: set<string>, name: string, lowered: string)
    requires Validated(settings, supported) && PrefixesAreFree(supported)
    ensures
      var resolved := Resolve(settings, supported, name, lowered);
      && resolved.Ok?
      && Distinct(Candidates(resolved.value))
      && (forall x :: x in Candidates(resolved.value) ==> ProperTarget(x, supported))
      && (forall i :: 0 <= i < |settings.fallbacks| ==> Offers(Candidates(resolved.value), settings.fallbacks[i]))
  {
    var primary := PrimaryIsProper(settings, supported, name, lowered);
    RouteCandidates(settings, supported, name, primary, PreferenceOf(settings, supported, name, lowered));
  }

  /** The reasoning preference of the route. */
  function PreferenceOf(settings: Settings, supported: set<string>, name: string, lowered: string): Preference {
    match Direct(name, supported)
    case Some(d) => if d.forceReasoningOff then Off else settings.reasoningPolicy
    case None => PreferenceFor(settings, lowered)
  }

  lemma DirectRoute(settings: Settings, supported: set<string>, name: string, lowered: string, d: Decoded)
    requires Validated(settings, supported) && Direct(name, supported) == Some(d)
    requires WellFormed(d.ref) && d.ref.provider in supported
    ensures
      var resolved := Resolve(settings, supported, name, lowered);
      && resolved.Ok?
      && resolved.value.originalModel == name
      && resolved.value.primary == Target(d.ref, Join(d.ref))
      && resolved.value.preference == if d.forceReasoningOff then Off else settings.reasoningPolicy
  {
    RouteCandidates(settings, supported, name, Target(d.ref, Join(d.ref)),
                    if d.forceReasoningOff then Off else settings.reasoningPolicy);
  }

  lemma {:induction false} WithoutInOrder(targets: seq<Target>, primary: Target) returns (at: seq<nat>)
    ensures
      var rest := Without(targets, primary);
      && |at| == |rest|
      && (forall i :: 0 <= i < |at| ==> at[i] < |targets| && targets[at[i]] == rest[i])
      && (forall i, j :: 0 <= i < j < |at| ==> at[i] < at[j])
  {
    if targets == [] {
      at := [];
    } else {
      var later := WithoutInOrder(targets[1..], primary);
      at := seq(|later|, i requires 0 <= i < |later| => later[i] + 1);
      if targets[0] != primary {
        at := [0] + at;
      }
    }
  }

  /** The fallbacks of a route are the configured ones in their configured order, without the primary. */
  lemma FallbacksKeepTheirOrder(settings: Settings, supported: set<string>, name: string, lowered: string)
    returns (at: seq<nat>)
    requires Validated(settings, supported) && PrefixesAreFree(supported)
    ensures
      var resolved := Resolve(settings, supported, name, lowered);
      && resolved.Ok? && |at| == |resolved.value.fallbacks|
      && (forall i :: 0 <= i < |at| ==>
            at[i] < |settings.fallbacks| && resolved.value.fallbacks[i].modelRef == settings.fallbacks[at[i]])
      && (forall i, j :: 0 <= i < j < |at| ==> at[i] < at[j])
      && (forall x | x in resolved.value.fallbacks :: x != resolved.value.primary)
  {
    ResolvesToDistinctCandidates(settings, supported, name, lowered);
    var route := Resolve(settings, supported, name, lowered).value;
    ValidRefsAreTargets(settings.fallbacks, supported);
    var configured := TargetsFromRefs(settings.fallbacks, supported).value;
    at := WithoutInOrder(configured, route.primary);
    forall i | 0 <= i < |settings.fallbacks|
      ensures configured[i].modelRef == settings.fallbacks[i]
    {
      SplitRefInverts(settings.fallbacks[i], SplitRef(settings.fallbacks[i]).value);
    }
    FallbacksAreDistinct(settings, supported, route.primary);
    CandidatesKeep(configured, route.primary);
    WithoutKeeps(configured, route.primary);
  }

  /** Every id that is advertised for a model of a supported provider routes back to that model, and
      reasoning is forced off exactly for the no-thinking id. */
  lemma AdvertisedIdsRouteBack(
    settings: Settings, supported: set<string>, r: Ref, forceOff: bool, name: string, lowered: string)
    requires Validated(settings, supported) && PrefixesAreFree(supported)
    requires WellFormed(r) && r.provider in supported
    requires if forceOff then name == NoThinkingGatewayModelId(Join(r)) else name == Join(r) || name == GatewayModelId(Join(r))
    ensures
      var resolved := Resolve(settings, supported, name, lowered);
      && resolved.Ok?
      && resolved.value.originalModel == name
      && resolved.value.primary == Target(r, Join(r))
      && resolved.value.preference == if forceOff then Off else settings.reasoningPolicy
  {
    DirectNames(name, supported, Decoded(r, forceOff));
    DirectRoute(settings, supported, name, lowered, Decoded(r, forceOff));
  }

  ghost predicate Mentions(lowered: string, part: string) {
    exists before, after: string :: lowered == before + part + after
  }

  lemma ContainsMentions(lowered: string, part: string)
    ensures Contains(lowered, part) <==> Mentions(lowered, part)
  {
    if Contains(lowered, part) {
      var i :| 0 <= i <= |lowered| && StartsAt(lowered, part, i);
      assert lowered == lowered[..i] + part + lowered[i + |part|..];
    }
    if Mentions(lowered, part) {
      var before, after: string :| lowered == before + part + after;
      assert StartsAt(lowered, part, |before|);
    }
  }

  /** The tier a name belongs to: the first that it mentions, of these four in this order. */
  ghost predicate BelongsTo(lowered: string, tier: Option<Tier>) {
    var fable, opus := Mentions(lowered, "fable"), Mentions(lowered, "opus");
    var haiku, sonnet := Mentions(lowered, "haiku"), Mentions(lowered, "sonnet");
    match tier
    case Some(Fable) => fable
    case Some(Opus) => opus && !fable
    case Some(Haiku) => haiku && !fable && !opus
    case Some(Sonnet) => sonnet && !fable && !opus && !haiku
    case None => !fable && !opus && !haiku && !sonnet
  }

  lemma MatchedTierBelongs(lowered: string, tier: Option<Tier>)
    ensures BelongsTo(lowered, tier) <==> MatchedTier(lowered) == tier
  {
    ContainsMentions(lowered, "fable");
    ContainsMentions(lowered, "opus");
    ContainsMentions(lowered, "haiku");
    ContainsMentions(lowered, "sonnet");
  }

  /** Any other name is mapped by its tier: to the tier's model if one is set and the default model
      otherwise, with the tier's reasoning preference if it has one of its own and the default otherwise. */
  lemma OtherNamesAreMapped(
    settings: Settings, supported: set<string>, name: string, lowered: string, tier: Option<Tier>)
    requires Validated(settings, supported) && PrefixesAreFree(supported)
    requires forall d: Decoded | WellFormed(d.ref) && d.ref.provider in supported ::
      name != Encode(d) && name != Join(d.ref)
    requires BelongsTo(lowered, tier)
    ensures
      var resolved := Resolve(settings, supported, name, lowered);
      && resolved.Ok? && resolved.value.originalModel == name
      && resolved.value.primary.modelRef ==
           (if tier.Some? && tier.value in settings.tiers then settings.tiers[tier.value] else settings.model)
      && resolved.value.preference ==
           (if tier.Some? && tier.value in settings.tierReasoning && settings.tierReasoning[tier.value] != Inherit
            then settings.tierReasoning[tier.value] else settings.reasoningPolicy)
  {
    MatchedTierBelongs(lowered, tier);
    if Direct(name, supported).Some? {
      DirectNames(name, supported, Direct(name, supported).value);
    }
    var primary := PrimaryIsProper(settings, supported, name, lowered);
    RouteCandidates(settings, supported, name, primary, PreferenceFor(settings, lowered));
  }
}
