/**
 * The agent registry of the agents package: ten role files, agent
 * definitions built from them, and the `{{AGENTS}}` section rendered into
 * the prompt of every primary agent.
 */
module AgentsRegistry {
  import opened Wrappers
  import Text
  import opened Assoc
  import opened RoleFrontMatter
  import opened RoleTemplates
  import opened RoleRegistry
  import opened AgentNames

  /** The names of the role files, in their declared order. */
  const RoleFileNames: seq<string> := [
    "orchestrator", "explorer", "librarian", "oracle", "designer",
    "fixer", "archivist", "prober", "analyst", "scribe"]

  /** `getSubagentMetadata`: the metadata of every name of `ALL_AGENT_NAMES`, the orchestrator included. */
  function SubagentMetadata(roleFiles: Entries<string>): Result<seq<RoleFrontMatter>>
  {
    MetadataList(roleFiles, AllAgentNames)
  }

  function Definition(fm: RoleFrontMatter, model: string, prompt: string): AgentDefinition
  {
    AgentDefinition(fm.name, fm.description,
      AgentConfig(model, fm.defaultTemperature, prompt, Some(if fm.primary then PrimaryMode else SubagentMode), None))
  }

  /** `createAgent(name, model)`. */
  function CreateAgentOf(roleFiles: Entries<string>, name: string, model: string): Result<AgentDefinition>
  {
    match Load(roleFiles, name)
    case Err(msg) => Err(msg)
    case Ok(loaded) =>
      if !loaded.frontMatter.primary then Ok(Definition(loaded.frontMatter, model, loaded.content))
      else
        match SubagentMetadata(roleFiles)
        case Err(msg) => Err(msg)
        case Ok(subagents) =>
          var prompt := RenderTemplate(loaded.content, [("AGENTS", AgentsSectionWithOracleNote(subagents))]);
          Ok(Definition(loaded.frontMatter, model, prompt))
  }

  method GetSubagentMetadata(cache: RoleCache) returns (r: Result<seq<RoleFrontMatter>>)
    requires cache.Valid()
    modifies cache
    ensures cache.Valid() && r == SubagentMetadata(cache.roleFiles)
  {
    r := cache.GetMetadataList(AllAgentNames);
  }

  method CreateAgent(cache: RoleCache, name: string, model: string) returns (r: Result<AgentDefinition>)
    requires cache.Valid()
    modifies cache
    ensures cache.Valid() && r == CreateAgentOf(cache.roleFiles, name, model)
  {
    var metadata := cache.GetAgentMetadata(name);
    if metadata.Err? {
      return Err(metadata.msg);
    }
    var prompt := cache.GetAgentPrompt(name);
    if prompt.Err? {
      return Err(prompt.msg);
    }
    var text := prompt.value;
    if metadata.value.primary {
      var subagents := GetSubagentMetadata(cache);
      if subagents.Err? {
        return Err(subagents.msg);
      }
      text := RenderTemplate(text, [("AGENTS", AgentsSectionWithOracleNote(subagents.value))]);
    }
    return Ok(Definition(metadata.value, model, text));
  }

  /**
   * The definition carries the role's name, description and temperature and
   * the given model; its mode is primary exactly for primary roles. A role
   * that fails to load fails the call with the same message.
   */
  lemma CreateAgentFields(roleFiles: Entries<string>, name: string, model: string)
    ensures Load(roleFiles, name).Err? ==> CreateAgentOf(roleFiles, name, model) == Err(Load(roleFiles, name).msg)
    ensures CreateAgentOf(roleFiles, name, model).Ok? ==>
      var d := CreateAgentOf(roleFiles, name, model).value;
      var fm := Load(roleFiles, name).value.frontMatter;
      && Load(roleFiles, name).Ok?
      && d.name == fm.name && d.description == fm.description
      && d.config.model == model && d.config.temperature == fm.defaultTemperature
      && d.config.mode.Some? && (d.config.mode.value == PrimaryMode <==> fm.primary)
      && d.config.permission.None?
  {
    var loaded := Load(roleFiles, name);
    if loaded.Ok? {
      var fm := loaded.value.frontMatter;
      if !fm.primary {
        assert CreateAgentOf(roleFiles, name, model) == Ok(Definition(fm, model, loaded.value.content));
        DefinitionFields(fm, model, loaded.value.content);
      } else {
        var subagents := SubagentMetadata(roleFiles);
        if subagents.Ok? {
          var prompt := RenderTemplate(loaded.value.content, [("AGENTS", AgentsSectionWithOracleNote(subagents.value))]);
          assert CreateAgentOf(roleFiles, name, model) == Ok(Definition(fm, model, prompt));
          DefinitionFields(fm, model, prompt);
        }
      }
    }
  }

  lemma DefinitionFields(fm: RoleFrontMatter, model: string, prompt: string)
    ensures var d := Definition(fm, model, prompt);
      && d.name == fm.name && d.description == fm.description
      && d.config.model == model && d.config.temperature == fm.defaultTemperature
      && d.config.mode.Some? && (d.config.mode.value == PrimaryMode <==> fm.primary)
      && d.config.permission.None?
  {
  }

  /** A role that is not primary keeps its body as the prompt, placeholder and all. */
  lemma SubagentPromptUnrendered(roleFiles: Entries<string>, name: string, model: string)
    requires Load(roleFiles, name).Ok? && !Load(roleFiles, name).value.frontMatter.primary
    ensures CreateAgentOf(roleFiles, name, model).Ok?
    ensures CreateAgentOf(roleFiles, name, model).value.config.prompt == Load(roleFiles, name).value.content
  {
  }

  /** A primary role whose body is just `{{AGENTS}}` gets the agents section with the oracle note as its prompt. */
  lemma PrimaryPromptRendered(roleFiles: Entries<string>, name: string, model: string)
    requires Load(roleFiles, name).Ok? && Load(roleFiles, name).value.frontMatter.primary
    requires Load(roleFiles, name).value.content == Placeholder("AGENTS")
    requires SubagentMetadata(roleFiles).Ok?
    ensures CreateAgentOf(roleFiles, name, model).Ok?
    ensures CreateAgentOf(roleFiles, name, model).value.config.prompt
      == Text.Substitution(AgentsSectionWithOracleNote(SubagentMetadata(roleFiles).value), Placeholder("AGENTS"), "", "")
    ensures '$' !in AgentsSectionWithOracleNote(SubagentMetadata(roleFiles).value) ==>
      CreateAgentOf(roleFiles, name, model).value.config.prompt == AgentsSectionWithOracleNote(SubagentMetadata(roleFiles).value)
  {
    RenderPlaceholderOnly("AGENTS", AgentsSectionWithOracleNote(SubagentMetadata(roleFiles).value));
  }

  /** The subagent metadata follows `ALL_AGENT_NAMES`, whose first name is the orchestrator's. */
  lemma SubagentMetadataOrder(roleFiles: Entries<string>)
    ensures SubagentMetadata(roleFiles).Ok? <==> forall k :: 0 <= k < |AllAgentNames| ==> Metadata(roleFiles, AllAgentNames[k]).Ok?
    ensures SubagentMetadata(roleFiles).Ok? ==>
      var list := SubagentMetadata(roleFiles).value;
      && |list| == |AllAgentNames|
      && forall k :: 0 <= k < |AllAgentNames| ==> list[k] == Metadata(roleFiles, AllAgentNames[k]).value
  {
    var names := AllAgentNames;
    MetadataListOk(roleFiles, names);
  }

  // ---------------------------------------------------------------- AGENT_REGISTRY

  /** `AGENT_REGISTRY[name]`: `None` for `undefined`, otherwise the outcome of loading the metadata. */
  function RegistryGet(roleFiles: Entries<string>, name: string): Option<Result<RoleFrontMatter>>
  {
    if HasKey(roleFiles, name) then Some(Metadata(roleFiles, name)) else None
  }

  /** `Object.keys(AGENT_REGISTRY)`. */
  const RegistryKeys: seq<string> := AllAgentNames

  /** The registry answers exactly for the names it lists as its keys. */
  lemma RegistryDefinedIff(roleFiles: Entries<string>, name: string)
    requires Keys(roleFiles) == RoleFileNames
    ensures RegistryGet(roleFiles, name).Some? <==> name in RegistryKeys
    ensures RegistryGet(roleFiles, name).Some? ==> RegistryGet(roleFiles, name).value == Metadata(roleFiles, name)
  {
    assert HasKey(roleFiles, name) <==> name in RoleFileNames;
  }

  method RegistryLookup(cache: RoleCache, name: string) returns (r: Option<Result<RoleFrontMatter>>)
    requires cache.Valid()
    modifies cache
    ensures cache.Valid() && r == RegistryGet(cache.roleFiles, name)
  {
    if !HasKey(cache.roleFiles, name) {
      return None;
    }
    var metadata := cache.GetAgentMetadata(name);
    return Some(metadata);
  }

  // ---------------------------------------------------------------- DEFAULT_MODELS

  function NamedModels(names: seq<string>, list: seq<RoleFrontMatter>): (r: Entries<string>)
    requires |names| == |list|
    ensures |r| == |names| && forall k :: 0 <= k < |names| ==> r[k] == (names[k], list[k].defaultModel)
  {
    if |names| == 0 then [] else NamedModels(names[..|names| - 1], list[..|list| - 1]) + [(names[|names| - 1], list[|list| - 1].defaultModel)]
  }

  /** `DEFAULT_MODELS`: each agent name with the default model of its role. */
  function DefaultModels(roleFiles: Entries<string>): Result<Entries<string>>
  {
    match SubagentMetadata(roleFiles)
    case Err(msg) => Err(msg)
    case Ok(list) =>
      SubagentMetadataOrder(roleFiles);
      Ok(NamedModels(AllAgentNames, list))
  }

  /** Every agent name maps to its role's default model. */
  lemma DefaultModelOf(roleFiles: Entries<string>, k: nat)
    requires k < |AllAgentNames| && DefaultModels(roleFiles).Ok?
    ensures Metadata(roleFiles, AllAgentNames[k]).Ok?
    ensures Get(DefaultModels(roleFiles).value, AllAgentNames[k])
      == Some(Metadata(roleFiles, AllAgentNames[k]).value.defaultModel)
  {
    var names := AllAgentNames;
    SubagentMetadataOrder(roleFiles);
    AgentNamesShape();
    var list := SubagentMetadata(roleFiles).value;
    NamedModelAt(names, list, k);
  }

  lemma NamedModelAt(names: seq<string>, list: seq<RoleFrontMatter>, k: nat)
    requires |names| == |list| && k < |names| && Distinct(names)
    ensures Get(NamedModels(names, list), names[k]) == Some(list[k].defaultModel)
  {
    var m := NamedModels(names, list);
    assert Keys(m) == names;
    GetAt(m, k);
  }

  /** In entries with distinct keys, the key at a position finds that position's value. */
  lemma {:induction false} GetAt(m: Entries<string>, k: nat)
    requires k < |m| && DistinctKeys(m)
    ensures Get(m, m[k].0) == Some(m[k].1)
  {
    if k > 0 {
      assert m[0].0 != m[k].0 by {
        assert Keys(m)[0] != Keys(m)[k];
      }
      assert DistinctKeys(m[1..]) by {
        assert forall i :: 0 <= i < |m[1..]| ==> Keys(m[1..])[i] == Keys(m)[i + 1];
      }
      GetAt(m[1..], k - 1);
    }
  }
}
