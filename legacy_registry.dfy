/**
 * The older agent registry of the plugin: six role files, its own name
 * lists derived from them, and the `{{AGENTS}}` section rendered only into
 * the orchestrator's prompt.
 */
module LegacyRegistry {
  import opened Wrappers
  import Text
  import opened Assoc
  import opened RoleFrontMatter
  import opened RoleTemplates
  import opened RoleRegistry
  import AgentNames

  /** The names of the role files, in their declared order. */
  const RoleFileNames: seq<string> := ["orchestrator", "explorer", "librarian", "oracle", "designer", "fixer"]

  /** `ALL_AGENT_NAMES = Object.keys(ROLE_FILES)`. */
  function AllAgentNames(roleFiles: Entries<string>): seq<string>
  {
    Keys(roleFiles)
  }

  /** `SUBAGENT_NAMES`: every name but the orchestrator, in order. */
  function SubagentNames(roleFiles: Entries<string>): seq<string>
  {
    AgentNames.Remove(AllAgentNames(roleFiles), AgentNames.Orchestrator)
  }

  /** With the declared role files, the subagents are the five names after the orchestrator. */
  lemma NameLists(roleFiles: Entries<string>)
    requires Keys(roleFiles) == RoleFileNames
    ensures AllAgentNames(roleFiles) == RoleFileNames
    ensures SubagentNames(roleFiles) == RoleFileNames[1..]
    ensures AgentNames.Orchestrator !in SubagentNames(roleFiles)
  {
    var names := RoleFileNames;
    AgentNames.RemoveHead(names);
  }

  /** `getSubagentMetadata`: the metadata of every name of `SUBAGENT_NAMES`. */
  function SubagentMetadata(roleFiles: Entries<string>): Result<seq<RoleFrontMatter>>
  {
    MetadataList(roleFiles, SubagentNames(roleFiles))
  }

  /** The subagent metadata never loads the orchestrator's role. */
  lemma SubagentMetadataWithoutOrchestrator(roleFiles: Entries<string>)
    ensures SubagentMetadata(roleFiles).Ok? ==>
      var list := SubagentMetadata(roleFiles).value;
      var names := SubagentNames(roleFiles);
      && |list| == |names|
      && AgentNames.Orchestrator !in names
      && forall k :: 0 <= k < |names| ==> Metadata(roleFiles, names[k]).Ok? && list[k] == Metadata(roleFiles, names[k]).value
  {
    var names := SubagentNames(roleFiles);
    MetadataListOk(roleFiles, names);
  }

  function Definition(fm: RoleFrontMatter, model: string, prompt: string): AgentDefinition
  {
    AgentDefinition(fm.name, fm.description, AgentConfig(model, fm.defaultTemperature, prompt, None, None))
  }

  /** `createAgent(name, model)`: the section is rendered by name, not by the primary flag. */
  function CreateAgentOf(roleFiles: Entries<string>, name: string, model: string): Result<AgentDefinition>
  {
    match Load(roleFiles, name)
    case Err(msg) => Err(msg)
    case Ok(loaded) =>
      if name != AgentNames.Orchestrator then Ok(Definition(loaded.frontMatter, model, loaded.content))
      else
        match SubagentMetadata(roleFiles)
        case Err(msg) => Err(msg)
        case Ok(subagents) =>
          var prompt := RenderTemplate(loaded.content, [("AGENTS", AgentsSectionWithOracleNote(subagents))]);
          Ok(Definition(loaded.frontMatter, model, prompt))
  }

  method GetSubagentMetadata(cache: RoleCache) returns (r: Result<seq<RoleFrontMatter>>)
    requires cache.Valid()
    modifies cache
    ensures cache.Valid() && r == SubagentMetadata(cache.roleFiles)
  {
    r := cache.GetMetadataList(SubagentNames(cache.roleFiles));
  }

  method CreateAgent(cache: RoleCache, name: string, model: string) returns (r: Result<AgentDefinition>)
    requires cache.Valid()
    modifies cache
    ensures cache.Valid() && r == CreateAgentOf(cache.roleFiles, name, model)
  {
    var metadata := cache.GetAgentMetadata(name);
    if metadata.Err? {
      return Err(metadata.msg);
    }
    var prompt := cache.GetAgentPrompt(name);
    if prompt.Err? {
      return Err(prompt.msg);
    }
    var text := prompt.value;
    if name == AgentNames.Orchestrator {
      var subagents := GetSubagentMetadata(cache);
      if subagents.Err? {
        return Err(subagents.msg);
      }
      text := RenderTemplate(text, [("AGENTS", AgentsSectionWithOracleNote(subagents.value))]);
    }
    return Ok(Definition(metadata.value, model, text));
  }

  /**
   * The definition carries the given model and the role's temperature, has
   * no mode, and only the orchestrator's prompt differs from the role body.
   */
  lemma CreateAgentFields(roleFiles: Entries<string>, name: string, model: string)
    ensures Load(roleFiles, name).Err? ==> CreateAgentOf(roleFiles, name, model) == Err(Load(roleFiles, name).msg)
    ensures CreateAgentOf(roleFiles, name, model).Ok? ==>
      var d := CreateAgentOf(roleFiles, name, model).value;
      var loaded := Load(roleFiles, name).value;
      && Load(roleFiles, name).Ok?
      && d.name == loaded.frontMatter.name && d.description == loaded.frontMatter.description
      && d.config.model == model && d.config.temperature == loaded.frontMatter.defaultTemperature
      && d.config.mode.None? && d.config.permission.None?
      && (name != AgentNames.Orchestrator ==> d.config.prompt == loaded.content)
  {
    var loaded := Load(roleFiles, name);
    if loaded.Ok? {
      var fm := loaded.value.frontMatter;
      if name != AgentNames.Orchestrator {
        assert CreateAgentOf(roleFiles, name, model) == Ok(Definition(fm, model, loaded.value.content));
        DefinitionFields(fm, model, loaded.value.content);
      } else {
        var subagents := SubagentMetadata(roleFiles);
        if subagents.Ok? {
          var prompt := RenderTemplate(loaded.value.content, [("AGENTS", AgentsSectionWithOracleNote(subagents.value))]);
          assert CreateAgentOf(roleFiles, name, model) == Ok(Definition(fm, model, prompt));
          DefinitionFields(fm, model, prompt);
        }
      }
    }
  }

  lemma DefinitionFields(fm: RoleFrontMatter, model: string, prompt: string)
    ensures var d := Definition(fm, model, prompt);
      && d.name == fm.name && d.description == fm.description
      && d.config.model == model && d.config.temperature == fm.defaultTemperature
      && d.config.prompt == prompt && d.config.mode.None? && d.config.permission.None?
  {
  }

  /** A primary role other than the orchestrator keeps its placeholder unrendered. */
  lemma PrimaryFlagIgnored(roleFiles: Entries<string>, name: string, model: string)
    requires name != AgentNames.Orchestrator && Load(roleFiles, name).Ok?
    requires Load(roleFiles, name).value.content == Placeholder("AGENTS")
    ensures CreateAgentOf(roleFiles, name, model).Ok?
    ensures CreateAgentOf(roleFiles, name, model).value.config.prompt == Placeholder("AGENTS")
  {
  }

  /** An orchestrator role whose body is just `{{AGENTS}}` gets the agents section with the oracle note. */
  lemma OrchestratorPromptRendered(roleFiles: Entries<string>, model: string)
    requires Load(roleFiles, AgentNames.Orchestrator).Ok?
    requires Load(roleFiles, AgentNames.Orchestrator).value.content == Placeholder("AGENTS")
    requires SubagentMetadata(roleFiles).Ok?
    ensures CreateAgentOf(roleFiles, AgentNames.Orchestrator, model).Ok?
    ensures CreateAgentOf(roleFiles, AgentNames.Orchestrator, model).value.config.prompt
      == Text.Substitution(AgentsSectionWithOracleNote(SubagentMetadata(roleFiles).value), Placeholder("AGENTS"), "", "")
    ensures '$' !in AgentsSectionWithOracleNote(SubagentMetadata(roleFiles).value) ==>
      CreateAgentOf(roleFiles, AgentNames.Orchestrator, model).value.config.prompt == AgentsSectionWithOracleNote(SubagentMetadata(roleFiles).value)
  {
    RenderPlaceholderOnly("AGENTS", AgentsSectionWithOracleNote(SubagentMetadata(roleFiles).value));
  }
}
