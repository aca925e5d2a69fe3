/**
 * The public side of the agents package: every agent of `ALL_AGENT_NAMES`
 * created from its role, the user's per-agent overrides applied (found
 * under the agent's name or a legacy alias), the default permission given
 * to primary agents, and the result keyed by name for the host.
 */
module AgentsIndex {
  import opened Wrappers
  import opened Decimals
  import opened Assoc
  import opened JsonValues
  import opened RoleFrontMatter
  import opened RoleRegistry
  import opened AgentNames
  import opened AgentsRegistry

  // ---------------------------------------------------------------- override lookup

  /** Legacy agent names and the names they stand for, in declared order. */
  const AgentAliases: Entries<string> := [("explore", "explorer"), ("frontend-ui-ux-engineer", "designer")]

  /** The first key whose value is `name`, or `""` when there is none (`find(...) ?? ""`). */
  function AliasKey(aliases: Entries<string>, name: string): (k: string)
    ensures k == "" || (k, name) in aliases
  {
    if |aliases| == 0 then ""
    else if aliases[0].1 == name then aliases[0].0
    else AliasKey(aliases[1..], name)
  }

  /** Neither `undefined` nor `null`: the values `??` keeps. */
  predicate Present(v: Json)
  {
    !v.JUndefined? && !v.JNull?
  }

  /** `overrides[name] ?? overrides[aliasKey ?? ""]`. */
  function GetOverride(overrides: Entries<Json>, name: string): Json
  {
    var direct := Field(overrides, name);
    if Present(direct) then direct else Field(overrides, AliasKey(AgentAliases, name))
  }

  // ---------------------------------------------------------------- applying overrides

  /** The configuration after `applyOverrides`: the model when it is a non-empty string, the temperature whenever it is a number. */
  function Overridden(config: AgentConfig, o: Json): AgentConfig
  {
    var model := Member(o, "model");
    var temperature := Member(o, "temperature");
    var c := if model.JStr? && model.s != "" then config.(model := model.s) else config;
    if temperature.JNum? then c.(temperature := Some(temperature.n)) else c
  }

  /** The configuration after `applyDefaultPermissions`: `question` allowed, every other permission kept. */
  function WithDefaultPermission(config: AgentConfig): AgentConfig
  {
    var existing := if config.permission.Some? then config.permission.value else [];
    config.(permission := Some(Put(existing, "question", "allow")))
  }

  /** An agent definition whose configuration the helpers update in place. */
  class Agent {
    const name: string
    const description: string
    var config: AgentConfig

    constructor (d: AgentDefinition)
      ensures name == d.name && description == d.description && config == d.config
    {
      name := d.name;
      description := d.description;
      config := d.config;
    }

    function Value(): AgentDefinition
      reads this
    {
      AgentDefinition(name, description, config)
    }

    /** `applyOverrides(agent, override)`. */
    method ApplyOverrides(o: Json)
      modifies this
      ensures config == Overridden(old(config), o)
    {
      var model := Member(o, "model");
      if model.JStr? && model.s != "" {
        config := config.(model := model.s);
      }
      var temperature := Member(o, "temperature");
      if temperature.JNum? {
        config := config.(temperature := Some(temperature.n));
      }
    }

    /** `applyDefaultPermissions(agent)`. */
    method ApplyDefaultPermissions()
      modifies this
      ensures config == WithDefaultPermission(old(config))
    {
      var existing: Entries<string> := [];
      if config.permission.Some? {
        existing := config.permission.value;
      }
      config := config.(permission := Some(Put(existing, "question", "allow")));
    }
  }

  // ---------------------------------------------------------------- createAgents

  /** `config?.agents ?? {}`. */
  function AgentOverrides(config: Option<Entries<Json>>): Entries<Json>
  {
    if config.Some? && Field(config.value, "agents").JObj? then Field(config.value, "agents").fields else []
  }

  /**
   * `getModelForAgent`: the fixer without a model override of its own takes
   * the librarian's override model (kept even when empty, as `??` does) or
   * else the librarian's default model; every other agent its role's default.
   */
  function ModelFor(roleFiles: Entries<string>, overrides: Entries<Json>, name: string): Result<string>
  {
    var fixerModel := Member(GetOverride(overrides, "fixer"), "model");
    if name == "fixer" && !Truthy(fixerModel) then
      var librarianModel := Member(GetOverride(overrides, "librarian"), "model");
      if librarianModel.JStr? then Ok(librarianModel.s)
      else
        match Metadata(roleFiles, "librarian")
        case Err(msg) => Err(msg)
        case Ok(fm) => Ok(fm.defaultModel)
    else
      match Metadata(roleFiles, name)
      case Err(msg) => Err(msg)
      case Ok(fm) => Ok(fm.defaultModel)
  }

  /** What one step of the `map` in `createAgents` yields for `name`. */
  function AgentFor(roleFiles: Entries<string>, overrides: Entries<Json>, name: string): Result<AgentDefinition>
  {
    match ModelFor(roleFiles, overrides, name)
    case Err(msg) => Err(msg)
    case Ok(model) =>
      match CreateAgentOf(roleFiles, name, model)
      case Err(msg) => Err(msg)
      case Ok(d) => Ok(Customized(d, GetOverride(overrides, name)))
  }

  /** A created agent with a truthy override applied, then the default permission when it is primary. */
  function Customized(d: AgentDefinition, o: Json): AgentDefinition
  {
    var c := if Truthy(o) then Overridden(d.config, o) else d.config;
    var c' := if c.mode == Some(PrimaryMode) then WithDefaultPermission(c) else c;
    d.(config := c')
  }

  /** The outcome of `f` for each name, in order. */
  function MapNames<T>(f: string -> Result<T>, names: seq<string>): (rs: seq<Result<T>>)
    ensures |rs| == |names| && forall k :: 0 <= k < |names| ==> rs[k] == f(names[k])
  {
    if |names| == 0 then [] else MapNames(f, names[..|names| - 1]) + [f(names[|names| - 1])]
  }

  function AgentResults(roleFiles: Entries<string>, overrides: Entries<Json>, names: seq<string>): seq<Result<AgentDefinition>>
  {
    MapNames(name => AgentFor(roleFiles, overrides, name), names)
  }

  /** `createAgents(config)`: one definition per agent name in order; the first failure aborts. */
  function CreateAgentsOf(roleFiles: Entries<string>, config: Option<Entries<Json>>): Result<seq<AgentDefinition>>
  {
    Collect(AgentResults(roleFiles, AgentOverrides(config), AllAgentNames))
  }

  method ModelForAgent(cache: RoleCache, overrides: Entries<Json>, name: string) returns (r: Result<string>)
    requires cache.Valid()
    modifies cache
    ensures cache.Valid() && r == ModelFor(cache.roleFiles, overrides, name)
  {
    var fixerModel := Member(GetOverride(overrides, "fixer"), "model");
    var lookup := name;
    if name == "fixer" && !Truthy(fixerModel) {
      var librarianModel := Member(GetOverride(overrides, "librarian"), "model");
      if librarianModel.JStr? {
        return Ok(librarianModel.s);
      }
      lookup := "librarian";
    }
    var metadata := cache.GetAgentMetadata(lookup);
    if metadata.Err? {
      return Err(metadata.msg);
    }
    return Ok(metadata.value.defaultModel);
  }

  /** One step of the `map`: create, override, grant the default permission to a primary agent. */
  method AgentStep(cache: RoleCache, overrides: Entries<Json>, name: string) returns (r: Result<AgentDefinition>)
    requires cache.Valid()
    modifies cache
    ensures cache.Valid() && r == AgentFor(cache.roleFiles, overrides, name)
  {
    var model := ModelForAgent(cache, overrides, name);
    if model.Err? {
      return Err(model.msg);
    }
    var created := CreateAgent(cache, name, model.value);
    if created.Err? {
      return Err(created.msg);
    }
    var agent := Customize(created.value, GetOverride(overrides, name));
    return Ok(agent);
  }

  /** The agent object built from a definition, overridden and given its permission in place. */
  method Customize(d: AgentDefinition, o: Json) returns (r: AgentDefinition)
    ensures r == Customized(d, o)
  {
    var agent := new Agent(d);
    if Truthy(o) {
      agent.ApplyOverrides(o);
    }
    if agent.config.mode == Some(PrimaryMode) {
      agent.ApplyDefaultPermissions();
    }
    return agent.Value();
  }

  /** The `map` over `names`: each agent in order; the first failure aborts. */
  method CreateEach(cache: RoleCache, overrides: Entries<Json>, names: seq<string>) returns (r: Result<seq<AgentDefinition>>)
    requires cache.Valid()
    modifies cache
    ensures cache.Valid() && r == Collect(AgentResults(cache.roleFiles, overrides, names))
  {
    ghost var rs := AgentResults(cache.roleFiles, overrides, names);
    var agents: seq<AgentDefinition> := [];
    var i := 0;
    while i < |names|
      invariant 0 <= i <= |names|
      invariant cache.Valid() && Collect(rs[..i]) == Ok(agents)
    {
      var agent := AgentStep(cache, overrides, names[i]);
      assert agent == rs[i];
      CollectStep(rs, i, agents);
      if agent.Err? {
        CollectErrStays(rs, i + 1);
        return Err(agent.msg);
      }
      agents := agents + [agent.value];
      i := i + 1;
    }
    assert rs[..i] == rs;
    return Ok(agents);
  }

  method CreateAgents(cache: RoleCache, config: Option<Entries<Json>>) returns (r: Result<seq<AgentDefinition>>)
    requires cache.Valid()
    modifies cache
    ensures cache.Valid() && r == CreateAgentsOf(cache.roleFiles, config)
  {
    r := CreateEach(cache, AgentOverrides(config), AllAgentNames);
  }

  /** `isSubagent(name)`. */
  predicate IsSubagent(name: string)
  {
    name in SubagentNames
  }

  // ---------------------------------------------------------------- getAgentConfigs

  /** `{ ...a.config, description: a.description }`. */
  datatype SdkAgentConfig = SdkAgentConfig(config: AgentConfig, description: string)

  /** The `[a.name, sdkConfig]` pairs, in order. */
  function ConfigEntries(defs: seq<AgentDefinition>): (es: Entries<SdkAgentConfig>)
    ensures |es| == |defs| && forall k :: 0 <= k < |defs| ==> es[k] == (defs[k].name, SdkAgentConfig(defs[k].config, defs[k].description))
  {
    if |defs| == 0 then []
    else
      var d := defs[|defs| - 1];
      ConfigEntries(defs[..|defs| - 1]) + [(d.name, SdkAgentConfig(d.config, d.description))]
  }

  /** `Object.fromEntries(agents.map(...))`. */
  function AgentConfigsOf(defs: seq<AgentDefinition>): Entries<SdkAgentConfig>
  {
    FromEntries(ConfigEntries(defs))
  }

  function Names(defs: seq<AgentDefinition>): (ns: seq<string>)
    ensures |ns| == |defs| && forall k :: 0 <= k < |defs| ==> ns[k] == defs[k].name
  {
    if |defs| == 0 then [] else Names(defs[..|defs| - 1]) + [defs[|defs| - 1].name]
  }

  function GetAgentConfigsOf(roleFiles: Entries<string>, config: Option<Entries<Json>>): Result<Entries<SdkAgentConfig>>
  {
    match CreateAgentsOf(roleFiles, config)
    case Err(msg) => Err(msg)
    case Ok(defs) => Ok(AgentConfigsOf(defs))
  }

  method GetAgentConfigs(cache: RoleCache, config: Option<Entries<Json>>) returns (r: Result<Entries<SdkAgentConfig>>)
    requires cache.Valid()
    modifies cache
    ensures cache.Valid() && r == GetAgentConfigsOf(cache.roleFiles, config)
  {
    var agents := CreateAgents(cache, config);
    if agents.Err? {
      return Err(agents.msg);
    }
    return Ok(AgentConfigsOf(agents.value));
  }

  // ---------------------------------------------------------------- properties

  /**
   * An override under the agent's own name wins; otherwise the one under the
   * legacy alias of `explorer` or `designer`; for any other name the lookup
   * falls back to the entry under the empty key.
   */
  lemma GetOverrideAliases(overrides: Entries<Json>, name: string)
    ensures Present(Field(overrides, name)) ==> GetOverride(overrides, name) == Field(overrides, name)
    ensures !Present(Field(overrides, name)) ==>
      GetOverride(overrides, name) == Field(overrides,
        if name == "explorer" then "explore"
        else if name == "designer" then "frontend-ui-ux-engineer"
        else "")
  {
    var aliases := AgentAliases;
    assert aliases[1..][1..] == [];
  }

  /**
   * Overrides replace the model only with a non-empty string and the
   * temperature whenever it is a number, zero included; the prompt, mode and
   * permissions are untouched.
   */
  lemma OverriddenFields(config: AgentConfig, o: Json)
    ensures var c := Overridden(config, o);
      && (c.model == if Member(o, "model").JStr? && Member(o, "model").s != "" then Member(o, "model").s else config.model)
      && (c.temperature == if Member(o, "temperature").JNum? then Some(Member(o, "temperature").n) else config.temperature)
      && c.prompt == config.prompt && c.mode == config.mode && c.permission == config.permission
    ensures Member(o, "temperature") == JNum(FromInt(0)) ==> Overridden(config, o).temperature == Some(FromInt(0))
  {
  }

  /** The default permission allows `question`, keeps every other permission and its key order, and is idempotent. */
  lemma DefaultPermissionKeeps(config: AgentConfig, key: string)
    ensures WithDefaultPermission(config).permission.Some?
    ensures Get(WithDefaultPermission(config).permission.value, "question") == Some("allow")
    ensures key != "question" && config.permission.Some? ==>
      Get(WithDefaultPermission(config).permission.value, key) == Get(config.permission.value, key)
    ensures key != "question" && config.permission.None? ==> !HasKey(WithDefaultPermission(config).permission.value, key)
    ensures WithDefaultPermission(WithDefaultPermission(config)) == WithDefaultPermission(config)
    ensures WithDefaultPermission(config).model == config.model && WithDefaultPermission(config).prompt == config.prompt
  {
    var existing := if config.permission.Some? then config.permission.value else [];
    PutOver(existing, "question", "allow", "allow");
  }

  /**
   * `createAgents` succeeds exactly when every agent does, and then yields
   * one definition per name of `ALL_AGENT_NAMES`, in that order.
   */
  lemma CreateAgentsOrder(roleFiles: Entries<string>, config: Option<Entries<Json>>)
    ensures CreateAgentsOf(roleFiles, config).Ok? <==>
      forall k :: 0 <= k < |AllAgentNames| ==> AgentFor(roleFiles, AgentOverrides(config), AllAgentNames[k]).Ok?
    ensures CreateAgentsOf(roleFiles, config).Ok? ==>
      var defs := CreateAgentsOf(roleFiles, config).value;
      && |defs| == |AllAgentNames|
      && forall k :: 0 <= k < |AllAgentNames| ==> defs[k] == AgentFor(roleFiles, AgentOverrides(config), AllAgentNames[k]).value
  {
    CollectOk(AgentResults(roleFiles, AgentOverrides(config), AllAgentNames));
  }

  /**
   * Each created agent is its role's definition with the overrides found for
   * its name applied; a primary agent also allows `question`, a subagent has
   * no permissions.
   */
  lemma AgentForFields(roleFiles: Entries<string>, overrides: Entries<Json>, name: string)
    requires AgentFor(roleFiles, overrides, name).Ok?
    ensures ModelFor(roleFiles, overrides, name).Ok?
    ensures CreateAgentOf(roleFiles, name, ModelFor(roleFiles, overrides, name).value).Ok?
    ensures var d := CreateAgentOf(roleFiles, name, ModelFor(roleFiles, overrides, name).value).value;
      var a := AgentFor(roleFiles, overrides, name).value;
      var o := GetOverride(overrides, name);
      && a.name == d.name && a.description == d.description
      && a.config.mode == d.config.mode && a.config.prompt == d.config.prompt
      && a.config.model == (if Truthy(o) then Overridden(d.config, o) else d.config).model
      && (d.config.mode == Some(PrimaryMode) ==> Get(a.config.permission.value, "question") == Some("allow"))
      && (d.config.mode != Some(PrimaryMode) ==> a.config.permission.None?)
  {
    var model := ModelFor(roleFiles, overrides, name).value;
    CreateAgentFields(roleFiles, name, model);
    var d := CreateAgentOf(roleFiles, name, model).value;
    var o := GetOverride(overrides, name);
    var c := if Truthy(o) then Overridden(d.config, o) else d.config;
    OverriddenFields(d.config, o);
    DefaultPermissionKeeps(c, "question");
  }

  /**
   * The fixer without a model override of its own runs on the librarian's
   * override model when that is a string, and otherwise on the librarian's
   * default model.
   */
  lemma FixerFallsBackToLibrarian(roleFiles: Entries<string>, overrides: Entries<Json>)
    requires !Truthy(Member(GetOverride(overrides, "fixer"), "model"))
    ensures Member(GetOverride(overrides, "librarian"), "model").JStr? ==>
      ModelFor(roleFiles, overrides, "fixer") == Ok(Member(GetOverride(overrides, "librarian"), "model").s)
    ensures !Member(GetOverride(overrides, "librarian"), "model").JStr? ==>
      ModelFor(roleFiles, overrides, "fixer") ==
        if Metadata(roleFiles, "librarian").Ok? then Ok(Metadata(roleFiles, "librarian").value.defaultModel)
        else Err(Metadata(roleFiles, "librarian").msg)
  {
  }

  /** Every other agent, and the fixer with a model override, starts from its role's default model. */
  lemma ModelIsRoleDefault(roleFiles: Entries<string>, overrides: Entries<Json>, name: string)
    requires name != "fixer" || Truthy(Member(GetOverride(overrides, "fixer"), "model"))
    ensures Metadata(roleFiles, name).Ok? ==> ModelFor(roleFiles, overrides, name) == Ok(Metadata(roleFiles, name).value.defaultModel)
    ensures Metadata(roleFiles, name).Err? ==> ModelFor(roleFiles, overrides, name) == Err(Metadata(roleFiles, name).msg)
  {
  }

  /** `isSubagent` holds exactly for the agent names other than the orchestrator. */
  lemma IsSubagentIff(name: string)
    ensures IsSubagent(name) <==> name in AllAgentNames && name != Orchestrator
  {
    SubagentNameIff(name);
  }

  /**
   * With distinct agent names, the configurations are exactly the pairs of
   * each name with its configuration and description, in agent order.
   */
  lemma AgentConfigsKeyed(defs: seq<AgentDefinition>)
    requires Distinct(Names(defs))
    ensures AgentConfigsOf(defs) == ConfigEntries(defs)
    ensures Keys(AgentConfigsOf(defs)) == Names(defs)
  {
    assert Keys(ConfigEntries(defs)) == Names(defs);
    FromEntriesDistinct(ConfigEntries(defs));
  }
}
