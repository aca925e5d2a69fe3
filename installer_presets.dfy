/**
 * The lite configuration the installer writes: one preset per provider,
 * each giving every agent of the network the first of its models that the
 * provider serves, the base preset chosen by the user's subscriptions, and
 * a multiplexer block when a multiplexer was chosen. Reading the models of
 * an agent without a `models` list throws, which is what happens to every
 * agent the network loader produces.
 */
module InstallerPresets {
  import opened Wrappers
  import opened Text
  import opened Assoc
  import NetworkSchema

  /**
   * An agent of the network as `generateLiteConfig` reads it: its id, the
   * `models` field of its front matter (`undefined` when the front matter has
   * none) and its skills.
   */
  datatype NetworkAgent = NetworkAgent(id: string, models: Option<seq<string>>, skills: seq<string>)

  /** `InstallConfig`, with the multiplexer choice `generateLiteConfig` reads. */
  datatype InstallConfig = InstallConfig(
    hasAntigravity: bool,
    hasOpenAI: bool,
    hasZai: bool,
    hasCopilot: bool,
    multiplexerProvider: Option<string>)

  datatype ProviderSpec = ProviderSpec(id: string, prefixes: seq<string>)

  /** An agent's entry in a preset; `model` is `undefined` for an agent without models. */
  datatype PresetAgent = PresetAgent(model: Option<string>, skills: seq<string>)

  datatype MultiplexerBlock = MultiplexerBlock(enabled: bool, provider: string, layout: string, mainPaneSize: nat)

  datatype LiteConfig = LiteConfig(preset: string, presets: Entries<Entries<PresetAgent>>, multiplexer: Option<MultiplexerBlock>)

  const ProviderSpecs: seq<ProviderSpec> := [
    ProviderSpec("antigravity", ["google/", "anthropic/", "mistral/"]),
    ProviderSpec("openai", ["openai/"]),
    ProviderSpec("zai", ["zai-coding-plan/"]),
    ProviderSpec("copilot", ["github-copilot/"]),
    ProviderSpec("zen", ["opencode/"])
  ]

  const ProviderIds: seq<string> := ["antigravity", "openai", "zai", "copilot", "zen"]

  /** The error `models.find` throws when `models` is `undefined`. */
  const ModelsUndefined := "TypeError: Cannot read properties of undefined (reading 'find')"

  /** Every agent has a `models` list, so `models.find` does not throw. */
  predicate HasModels(agents: seq<NetworkAgent>)
  {
    forall j :: 0 <= j < |agents| ==> agents[j].models.Some?
  }

  /**
   * An agent as the agent schema loads it: the schema declares no `models`
   * field and drops unknown keys, so `models` is always `undefined`.
   */
  function FromLoaded(a: NetworkSchema.ParsedAgent): NetworkAgent
  {
    NetworkAgent(a.frontMatter.name, None, a.frontMatter.skills)
  }

  /** `spec.prefixes.some((p) => m.startsWith(p))`. */
  predicate Served(m: string, prefixes: seq<string>)
  {
    exists p :: p in prefixes && StartsWith(m, p)
  }

  /** `models.find(...)`: the index of the first model a provider serves. */
  function FirstServed(models: seq<string>, prefixes: seq<string>): (r: Option<nat>)
    ensures r.Some? ==> r.value < |models| && Served(models[r.value], prefixes)
    ensures r.Some? ==> forall j :: 0 <= j < r.value ==> !Served(models[j], prefixes)
    ensures r.None? ==> forall j :: 0 <= j < |models| ==> !Served(models[j], prefixes)
  {
    if |models| == 0 then None
    else if Served(models[0], prefixes) then Some(0)
    else
      match FirstServed(models[1..], prefixes)
      case None => None
      case Some(k) => Some(k + 1)
  }

  /** `models.find(...) || models[0]`: an empty match is falsy and falls back too. */
  function ChooseModel(models: seq<string>, prefixes: seq<string>): (r: Option<string>)
    ensures r.Some? ==> r.value in models
    ensures r.None? <==> |models| == 0
  {
    match FirstServed(models, prefixes)
    case Some(k) =>
      if models[k] != "" then Some(models[k]) else Some(models[0])
    case None => if |models| > 0 then Some(models[0]) else None
  }

  /** The entry of each agent in a provider's preset, in network order. */
  function PresetEntries(prefixes: seq<string>, agents: seq<NetworkAgent>): (es: Entries<PresetAgent>)
    requires HasModels(agents)
    ensures |es| == |agents|
    ensures forall j :: 0 <= j < |agents| ==>
      es[j] == (agents[j].id, PresetAgent(ChooseModel(agents[j].models.value, prefixes), agents[j].skills))
  {
    EntriesUpTo(prefixes, agents, |agents|)
  }

  /** The entries of the first `n` agents, all of which have a model list. */
  function EntriesUpTo(prefixes: seq<string>, agents: seq<NetworkAgent>, n: nat): (es: Entries<PresetAgent>)
    requires n <= |agents| && forall j :: 0 <= j < n ==> agents[j].models.Some?
    ensures |es| == n
    ensures forall j :: 0 <= j < n ==>
      es[j] == (agents[j].id, PresetAgent(ChooseModel(agents[j].models.value, prefixes), agents[j].skills))
  {
    seq(n, j requires 0 <= j < n =>
      (agents[j].id, PresetAgent(ChooseModel(agents[j].models.value, prefixes), agents[j].skills)))
  }

  /** The inner loop: every agent entered under its id, in network order. */
  function PresetOf(prefixes: seq<string>, agents: seq<NetworkAgent>): Entries<PresetAgent>
    requires HasModels(agents)
  {
    FromEntries(PresetEntries(prefixes, agents))
  }

  /** The preset of each provider, in the order of the provider specs. */
  function SpecEntries(agents: seq<NetworkAgent>): (es: Entries<Entries<PresetAgent>>)
    requires HasModels(agents)
    ensures |es| == |ProviderSpecs|
    ensures forall i :: 0 <= i < |ProviderSpecs| ==>
      es[i] == (ProviderSpecs[i].id, PresetOf(ProviderSpecs[i].prefixes, agents))
  {
    seq(|ProviderSpecs|, i requires 0 <= i < |ProviderSpecs| =>
      (ProviderSpecs[i].id, PresetOf(ProviderSpecs[i].prefixes, agents)))
  }

  /** The outer loop: one preset per provider spec, entered under the provider id. */
  function PresetsOf(agents: seq<NetworkAgent>): Entries<Entries<PresetAgent>>
    requires HasModels(agents)
  {
    FromEntries(SpecEntries(agents))
  }

  /** The base preset: antigravity, then openai, then zai, then copilot, else zen. */
  function BasePreset(ic: InstallConfig): string
  {
    if ic.hasAntigravity then "antigravity"
    else if ic.hasOpenAI then "openai"
    else if ic.hasZai then "zai"
    else if ic.hasCopilot then "copilot"
    else "zen"
  }

  function MultiplexerOf(ic: InstallConfig): Option<MultiplexerBlock>
  {
    if ic.multiplexerProvider.Some? && ic.multiplexerProvider.value != "" && ic.multiplexerProvider.value != "none" then
      Some(MultiplexerBlock(true, ic.multiplexerProvider.value, "main-vertical", 60))
    else None
  }

  /**
   * `generateLiteConfig(installConfig)`, with the network's agents as input:
   * it throws as soon as an agent has no `models` list, and otherwise builds
   * the configuration.
   */
  function LiteConfigOf(ic: InstallConfig, agents: seq<NetworkAgent>): Result<LiteConfig>
  {
    if HasModels(agents) then Ok(LiteConfig(BasePreset(ic), PresetsOf(agents), MultiplexerOf(ic)))
    else Err(ModelsUndefined)
  }

  /** One more agent adds its entry to the preset built so far. */
  lemma EntriesUpToStep(prefixes: seq<string>, agents: seq<NetworkAgent>, n: nat)
    requires n < |agents| && forall j :: 0 <= j <= n ==> agents[j].models.Some?
    ensures FromEntries(EntriesUpTo(prefixes, agents, n + 1)) ==
      Put(FromEntries(EntriesUpTo(prefixes, agents, n)), agents[n].id,
          PresetAgent(ChooseModel(agents[n].models.value, prefixes), agents[n].skills))
  {
    var es := EntriesUpTo(prefixes, agents, n + 1);
    assert es[..n] == EntriesUpTo(prefixes, agents, n);
    FromEntriesStep(es, n);
    assert es[..n + 1] == es;
  }

  /** The inner loop of `generateLiteConfig`: one provider's preset, or the throw of an agent without models. */
  method BuildPreset(prefixes: seq<string>, agents: seq<NetworkAgent>) returns (preset: Result<Entries<PresetAgent>>)
    ensures HasModels(agents) ==> preset == Ok(PresetOf(prefixes, agents))
    ensures !HasModels(agents) ==> preset == Err(ModelsUndefined)
  {
    var built: Entries<PresetAgent> := [];
    for j := 0 to |agents|
      invariant forall k :: 0 <= k < j ==> agents[k].models.Some?
      invariant built == FromEntries(EntriesUpTo(prefixes, agents, j))
    {
      var agent := agents[j];
      if agent.models.None? {
        return Err(ModelsUndefined);
      }
      var model := ChooseModel(agent.models.value, prefixes);
      EntriesUpToStep(prefixes, agents, j);
      built := Put(built, agent.id, PresetAgent(model, agent.skills));
    }
    return Ok(built);
  }

  /** The outer loop of `generateLiteConfig`: every provider's preset, or the first throw. */
  method BuildPresets(agents: seq<NetworkAgent>) returns (presets: Result<Entries<Entries<PresetAgent>>>)
    ensures HasModels(agents) ==> presets == Ok(PresetsOf(agents))
    ensures !HasModels(agents) ==> presets == Err(ModelsUndefined)
  {
    var built: Entries<Entries<PresetAgent>> := [];
    for i := 0 to |ProviderSpecs|
      invariant i > 0 ==> HasModels(agents)
      invariant HasModels(agents) ==> built == FromEntries(SpecEntries(agents)[..i])
    {
      var spec := ProviderSpecs[i];
      var preset := BuildPreset(spec.prefixes, agents);
      if preset.Err? {
        return Err(preset.msg);
      }
      FromEntriesStep(SpecEntries(agents), i);
      built := Put(built, spec.id, preset.value);
    }
    if !HasModels(agents) {
      // there is always a provider spec, so the first pass has thrown
      assert false;
    }
    assert SpecEntries(agents)[..|ProviderSpecs|] == SpecEntries(agents);
    return Ok(built);
  }

  method GenerateLiteConfig(ic: InstallConfig, agents: seq<NetworkAgent>) returns (config: Result<LiteConfig>)
    ensures config == LiteConfigOf(ic, agents)
  {
    var presets := BuildPresets(agents);
    if presets.Err? {
      return Err(presets.msg);
    }
    var basePreset := "zen";
    if ic.hasAntigravity {
      basePreset := "antigravity";
    } else if ic.hasOpenAI {
      basePreset := "openai";
    } else if ic.hasZai {
      basePreset := "zai";
    } else if ic.hasCopilot {
      basePreset := "copilot";
    }
    var lite := LiteConfig(basePreset, presets.value, None);
    if ic.multiplexerProvider.Some? && ic.multiplexerProvider.value != "" && ic.multiplexerProvider.value != "none" {
      lite := lite.(multiplexer := Some(MultiplexerBlock(true, ic.multiplexerProvider.value, "main-vertical", 60)));
    }
    config := Ok(lite);
  }

  // ---------------------------------------------------------------- properties

  function AgentIds(agents: seq<NetworkAgent>): (ids: seq<string>)
    ensures |ids| == |agents| && forall j :: 0 <= j < |agents| ==> ids[j] == agents[j].id
  {
    if |agents| == 0 then [] else AgentIds(agents[..|agents| - 1]) + [agents[|agents| - 1].id]
  }

  /**
   * A preset holds exactly the network's agents, in order, each with the
   * model chosen for it and its own skills (the network's ids are distinct).
   */
  lemma PresetMapsEveryAgent(prefixes: seq<string>, agents: seq<NetworkAgent>)
    requires HasModels(agents) && Distinct(AgentIds(agents))
    ensures Keys(PresetOf(prefixes, agents)) == AgentIds(agents)
    ensures forall j :: 0 <= j < |agents| ==>
      Get(PresetOf(prefixes, agents), agents[j].id) == Some(PresetAgent(ChooseModel(agents[j].models.value, prefixes), agents[j].skills))
  {
    var es := PresetEntries(prefixes, agents);
    PresetKeysAreIds(prefixes, agents);
    FromEntriesDistinct(es);
    GetDistinct(es);
  }

  lemma PresetKeysAreIds(prefixes: seq<string>, agents: seq<NetworkAgent>)
    requires HasModels(agents)
    ensures Keys(PresetEntries(prefixes, agents)) == AgentIds(agents)
  {
    var es := PresetEntries(prefixes, agents);
    var ks := Keys(es);
    var ids := AgentIds(agents);
    assert |ks| == |ids|;
    forall j | 0 <= j < |ks|
      ensures ks[j] == ids[j]
    {
      assert ks[j] == es[j].0;
    }
  }

  /** The presets are exactly the five providers, in order, each the inner loop's result for its prefixes. */
  lemma PresetKeys(agents: seq<NetworkAgent>)
    requires HasModels(agents)
    ensures Keys(PresetsOf(agents)) == ProviderIds
    ensures forall i :: 0 <= i < |ProviderSpecs| ==>
      Get(PresetsOf(agents), ProviderSpecs[i].id) == Some(PresetOf(ProviderSpecs[i].prefixes, agents))
  {
    var es := SpecEntries(agents);
    SpecKeys(agents);
    ProviderIdsDistinct();
    FromEntriesDistinct(es);
    GetDistinct(es);
  }

  /** The provider ids differ in their second letter. */
  lemma ProviderIdsDistinct()
    ensures Distinct(ProviderIds)
  {
    forall i, j | 0 <= i < j < |ProviderIds|
      ensures ProviderIds[i] != ProviderIds[j]
    {
      assert ProviderIds[i][1] != ProviderIds[j][1];
    }
  }

  lemma SpecKeys(agents: seq<NetworkAgent>)
    requires HasModels(agents)
    ensures Keys(SpecEntries(agents)) == ProviderIds
  {
    var es := SpecEntries(agents);
    var ks := Keys(es);
    SpecIds();
    assert |ks| == |ProviderIds|;
    forall i | 0 <= i < |ks|
      ensures ks[i] == ProviderIds[i]
    {
      assert ks[i] == es[i].0;
    }
  }

  /** The provider ids are the specs' ids, in order. */
  lemma SpecIds()
    ensures |ProviderSpecs| == |ProviderIds|
    ensures forall i :: 0 <= i < |ProviderSpecs| ==> ProviderSpecs[i].id == ProviderIds[i]
  {
  }

  /** The chosen model is the first one the provider serves, else the agent's first model. */
  lemma ChooseModelRule(models: seq<string>, prefixes: seq<string>)
    requires forall p :: p in prefixes ==> p != ""
    ensures FirstServed(models, prefixes).Some? ==> ChooseModel(models, prefixes) == Some(models[FirstServed(models, prefixes).value])
    ensures FirstServed(models, prefixes).None? && |models| > 0 ==> ChooseModel(models, prefixes) == Some(models[0])
  {
    match FirstServed(models, prefixes)
    case None =>
    case Some(k) =>
      var p :| p in prefixes && StartsWith(models[k], p);
      assert models[k] != "";
  }

  /** `generateLiteConfig` throws exactly when some agent has no `models` list. */
  lemma LiteConfigThrowsIff(ic: InstallConfig, agents: seq<NetworkAgent>)
    ensures LiteConfigOf(ic, agents).Err? <==> exists j :: 0 <= j < |agents| && agents[j].models.None?
    ensures LiteConfigOf(ic, agents).Err? ==> LiteConfigOf(ic, agents).msg == ModelsUndefined
  {
  }

  /**
   * Agents as the agent schema loads them have no `models`, so any network
   * with at least one agent makes `generateLiteConfig` throw.
   */
  lemma LoadedNetworkThrows(ic: InstallConfig, loaded: seq<NetworkSchema.ParsedAgent>)
    requires |loaded| > 0
    ensures LiteConfigOf(ic, seq(|loaded|, j requires 0 <= j < |loaded| => FromLoaded(loaded[j]))) == Err(ModelsUndefined)
  {
    var agents := seq(|loaded|, j requires 0 <= j < |loaded| => FromLoaded(loaded[j]));
    assert agents[0].models.None?;
  }

  /**
   * When every agent has a model list, the configuration names one of its own
   * presets as the base, chosen by the subscription priority, and carries a
   * multiplexer block exactly when a multiplexer other than "none" was chosen.
   */
  lemma LiteConfigRule(ic: InstallConfig, agents: seq<NetworkAgent>)
    requires HasModels(agents)
    ensures LiteConfigOf(ic, agents).Ok?
    ensures LiteConfigOf(ic, agents).value.preset in ProviderIds
    ensures HasKey(LiteConfigOf(ic, agents).value.presets, LiteConfigOf(ic, agents).value.preset)
    ensures LiteConfigOf(ic, agents).value.preset == "antigravity" <==> ic.hasAntigravity
    ensures LiteConfigOf(ic, agents).value.preset == "zen" <==> !ic.hasAntigravity && !ic.hasOpenAI && !ic.hasZai && !ic.hasCopilot
    ensures LiteConfigOf(ic, agents).value.multiplexer.Some? <==>
      ic.multiplexerProvider.Some? && ic.multiplexerProvider.value !in {"", "none"}
    ensures LiteConfigOf(ic, agents).value.multiplexer.Some? ==>
      LiteConfigOf(ic, agents).value.multiplexer.value == MultiplexerBlock(true, ic.multiplexerProvider.value, "main-vertical", 60)
  {
    PresetKeys(agents);
  }
}
