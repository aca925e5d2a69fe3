/**
 * From a compiled network to agent definitions: one definition per agent,
 * its model taken from the chosen provider preset by variant, its prompt
 * the agent body with the delegates blurb spliced in.
 */
module NetworkAgents {
  import opened Wrappers
  import opened Text
  import opened Decimals
  import opened Assoc
  import opened NetworkSchema

  datatype Mode = PrimaryMode | SubagentMode

  /** The fields of an agent configuration this bridge sets. */
  datatype AgentConfig = AgentConfig(
    model: string,
    temperature: Decimal,
    prompt: string,
    permission: Option<Entries<string>>,
    mode: Mode)

  datatype NetworkAgentDefinition = NetworkAgentDefinition(name: string, description: string, config: AgentConfig)

  const BlurbTag := "{{DELEGATES_BLURB}}"

  // ---------------------------------------------------------------- delegates blurb

  /** The delegates that name an agent of the network, in `delegates` order. */
  function Resolved(agents: Entries<ParsedAgent>, ids: seq<string>): seq<ParsedAgent>
  {
    if |ids| == 0 then []
    else
      Resolved(agents, ids[..|ids| - 1])
      + match Get(agents, ids[|ids| - 1]) case Some(a) => [a] case None => []
  }

  function Quote(t: string): string
  {
    "\"" + t + "\""
  }

  function Quoted(ts: seq<string>): (qs: seq<string>)
    ensures |qs| == |ts| && forall k :: 0 <= k < |ts| ==> qs[k] == Quote(ts[k])
  {
    if |ts| == 0 then [] else Quoted(ts[..|ts| - 1]) + [Quote(ts[|ts| - 1])]
  }

  function HintLines(hints: seq<string>): (ls: seq<string>)
    ensures |ls| == |hints| && forall k :: 0 <= k < |hints| ==> ls[k] == "  * " + hints[k]
  {
    if |hints| == 0 then [] else HintLines(hints[..|hints| - 1]) + ["  * " + hints[|hints| - 1]]
  }

  /** A delegation note counts only when it is a non-empty string. */
  predicate HasNote(fm: AgentFrontMatter)
  {
    fm.delegationNote.Some? && fm.delegationNote.value != ""
  }

  /** The lines describing one delegate. */
  function BlockLines(fm: AgentFrontMatter): seq<string>
  {
    ["@" + fm.name]
    + (if HasNote(fm) then ["- About: " + fm.delegationNote.value] else [])
    + ["- Role: " + fm.role,
       "- Capabilities: " + Join(fm.capabilities, "; "),
       "- Tools/Constraints: " + Join(fm.constraints, "; "),
       "- Triggers: " + Join(Quoted(fm.triggers), ", "),
       "- Delegate to @" + fm.name + " when you need things such as:"]
    + HintLines(fm.delegationHints)
  }

  function Block(a: ParsedAgent): string
  {
    Join(BlockLines(a.frontMatter), "\n")
  }

  function Blocks(resolved: seq<ParsedAgent>): (bs: seq<string>)
    ensures |bs| == |resolved| && forall k :: 0 <= k < |resolved| ==> bs[k] == Block(resolved[k])
  {
    if |resolved| == 0 then [] else Blocks(resolved[..|resolved| - 1]) + [Block(resolved[|resolved| - 1])]
  }

  /** `generateDelegatesBlurb`: one block per resolvable delegate, separated by a blank line. */
  function DelegatesBlurb(n: CompiledNetwork, agent: ParsedAgent): string
  {
    Join(Blocks(Resolved(n.agents, agent.frontMatter.delegates)), "\n\n")
  }

  // ---------------------------------------------------------------- definitions

  /** `providerPreset[variant || "low"]`. */
  function PresetModel(preset: ProviderPreset, variant: Option<Variant>): string
  {
    match variant
    case None => preset.low
    case Some(High) => preset.high
    case Some(Medium) => preset.medium
    case Some(Low) => preset.low
  }

  /** The agent body, with every `{{DELEGATES_BLURB}}` replaced when there is one. */
  function Prompt(n: CompiledNetwork, agent: ParsedAgent): string
  {
    if Contains(agent.content, BlurbTag) then ReplaceAll(agent.content, BlurbTag, DelegatesBlurb(n, agent))
    else agent.content
  }

  function Definition(n: CompiledNetwork, preset: ProviderPreset, agent: ParsedAgent): NetworkAgentDefinition
  {
    var fm := agent.frontMatter;
    var config := AgentConfig(PresetModel(preset, fm.variant), fm.defaultTemperature, Prompt(n, agent),
      if fm.primary then Some([("question", "allow")]) else None,
      if fm.primary then PrimaryMode else SubagentMode);
    NetworkAgentDefinition(fm.name, fm.description, config)
  }

  function Definitions(n: CompiledNetwork, preset: ProviderPreset, agents: Entries<ParsedAgent>): (ds: seq<NetworkAgentDefinition>)
    ensures |ds| == |agents|
    ensures forall j :: 0 <= j < |agents| ==> ds[j] == Definition(n, preset, agents[j].1)
  {
    if |agents| == 0 then []
    else Definitions(n, preset, agents[..|agents| - 1]) + [Definition(n, preset, agents[|agents| - 1].1)]
  }

  /**
   * `createAgentsFromNetwork` on an already compiled result. The provider's
   * preset is looked up among the record's own entries only.
   */
  function AgentsFromNetwork(result: CompileResult, providerName: string): Option<seq<NetworkAgentDefinition>>
  {
    match result
    case Failed(_) => None
    case Compiled(n) =>
      match Get(n.manifest.frontMatter.providers, providerName)
      case None => None
      case Some(preset) => Some(Definitions(n, preset, n.agents))
  }

  method CreateAgentsFromNetwork(result: CompileResult, providerName: string)
    returns (definitions: Option<seq<NetworkAgentDefinition>>)
    ensures definitions == AgentsFromNetwork(result, providerName)
  {
    if result.Failed? {
      return None;
    }
    var n := result.network;
    var found := Get(n.manifest.frontMatter.providers, providerName);
    if found.None? {
      return None;
    }
    var preset := found.value;
    var defs: seq<NetworkAgentDefinition> := [];
    var i := 0;
    while i < |n.agents|
      invariant 0 <= i <= |n.agents|
      invariant defs == Definitions(n, preset, n.agents[..i])
    {
      var agent := n.agents[i].1;
      var fm := agent.frontMatter;
      var prompt := agent.content;
      if Contains(prompt, BlurbTag) {
        prompt := ReplaceAll(prompt, BlurbTag, DelegatesBlurb(n, agent));
      }
      var config := AgentConfig(PresetModel(preset, fm.variant), fm.defaultTemperature, prompt, None, SubagentMode);
      if fm.primary {
        config := config.(permission := Some([("question", "allow")]), mode := PrimaryMode);
      }
      defs := defs + [NetworkAgentDefinition(fm.name, fm.description, config)];
      assert n.agents[..i + 1][..i] == n.agents[..i];
      i := i + 1;
    }
    assert n.agents[..i] == n.agents;
    return Some(defs);
  }

  // ---------------------------------------------------------------- properties

  /** No definitions exactly when compilation failed or the manifest has no preset of that name. */
  lemma NoDefinitionsIff(result: CompileResult, providerName: string)
    ensures AgentsFromNetwork(result, providerName).None?
      <==> result.Failed? || !HasKey(result.network.manifest.frontMatter.providers, providerName)
  {
  }

  /** One definition per agent in map order, carrying its name, description, model, temperature and mode. */
  lemma DefinitionFields(result: CompileResult, providerName: string, j: nat)
    requires AgentsFromNetwork(result, providerName).Some?
    ensures result.Compiled? && HasKey(result.network.manifest.frontMatter.providers, providerName)
    ensures |AgentsFromNetwork(result, providerName).value| == |result.network.agents|
    ensures j < |result.network.agents| ==>
      var d := AgentsFromNetwork(result, providerName).value[j];
      var fm := result.network.agents[j].1.frontMatter;
      var preset := Get(result.network.manifest.frontMatter.providers, providerName).value;
      && d.name == fm.name && d.description == fm.description
      && d.config.model == (if fm.variant.None? then preset.low else PresetModel(preset, fm.variant))
      && d.config.temperature == fm.defaultTemperature
      && d.config.prompt == Prompt(result.network, result.network.agents[j].1)
      && (d.config.mode == PrimaryMode <==> fm.primary)
      && (d.config.permission.Some? <==> fm.primary)
      && (fm.primary ==> Get(d.config.permission.value, "question") == Some("allow"))
  {
  }

  /** A body without the placeholder is the prompt unchanged. */
  lemma PromptWithoutTag(n: CompiledNetwork, agent: ParsedAgent)
    requires !Contains(agent.content, BlurbTag)
    ensures Prompt(n, agent) == agent.content
  {
  }

  /** A body whose only text is the placeholder becomes the blurb, its `$` patterns expanded; a blurb without `$` exactly. */
  lemma PromptIsBlurb(n: CompiledNetwork, agent: ParsedAgent)
    requires agent.content == BlurbTag
    ensures Prompt(n, agent) == Substitution(DelegatesBlurb(n, agent), BlurbTag, "", "")
    ensures '$' !in DelegatesBlurb(n, agent) ==> Prompt(n, agent) == DelegatesBlurb(n, agent)
  {
    assert StartsWith(agent.content, BlurbTag);
    ReplaceAllWhole(BlurbTag, DelegatesBlurb(n, agent));
  }

  /** A blurb without `$` takes the place of every `{{DELEGATES_BLURB}}` in the body. */
  lemma PromptReplacesEveryTag(n: CompiledNetwork, agent: ParsedAgent)
    requires '$' !in DelegatesBlurb(n, agent)
    ensures Prompt(n, agent) == Join(SplitOn(agent.content, BlurbTag), DelegatesBlurb(n, agent))
  {
    if Contains(agent.content, BlurbTag) {
      ReplaceAllSplit(agent.content, BlurbTag, DelegatesBlurb(n, agent));
    } else {
      SplitOnJoin(agent.content, BlurbTag);
      ReplaceAllAbsent(agent.content, BlurbTag, DelegatesBlurb(n, agent));
      ReplaceAllSplit(agent.content, BlurbTag, DelegatesBlurb(n, agent));
    }
  }

  /** Each resolved delegate is an agent of the network named among the delegates; all resolve exactly when every delegate is an agent id. */
  lemma {:induction false} ResolvedDelegates(agents: Entries<ParsedAgent>, ids: seq<string>)
    ensures |Resolved(agents, ids)| <= |ids|
    ensures forall a :: a in Resolved(agents, ids) ==> exists id :: id in ids && Get(agents, id) == Some(a)
    ensures |Resolved(agents, ids)| == |ids| <==> forall id :: id in ids ==> HasKey(agents, id)
  {
    if |ids| > 0 {
      var init := ids[..|ids| - 1];
      var last := ids[|ids| - 1];
      ResolvedDelegates(agents, init);
      assert ids == init + [last];
      forall a | a in Resolved(agents, ids)
        ensures exists id :: id in ids && Get(agents, id) == Some(a)
      {
        if a in Resolved(agents, init) {
          var id :| id in init && Get(agents, id) == Some(a);
          assert id in ids;
        } else {
          assert Get(agents, last) == Some(a);
        }
      }
      if |Resolved(agents, ids)| == |ids| {
        assert HasKey(agents, last);
        assert |Resolved(agents, init)| == |init|;
      }
    }
  }

  /** A block starts with `@name`; the note is its second line exactly when set; then six fixed lines and one per hint. */
  lemma BlockShape(fm: AgentFrontMatter)
    ensures BlockLines(fm)[0] == "@" + fm.name
    ensures |BlockLines(fm)| == (if HasNote(fm) then 7 else 6) + |fm.delegationHints|
    ensures HasNote(fm) ==> BlockLines(fm)[1] == "- About: " + fm.delegationNote.value
    ensures !HasNote(fm) ==> BlockLines(fm)[1] == "- Role: " + fm.role
    ensures forall k :: 0 <= k < |fm.delegationHints| ==>
      BlockLines(fm)[|BlockLines(fm)| - |fm.delegationHints| + k] == "  * " + fm.delegationHints[k]
  {
  }
}
