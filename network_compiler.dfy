/**
 * The link phase of the network compiler: every delegate must name an
 * agent, every skill reference (other than the wildcard `*`) a skill, and
 * every `mcp` skill must carry its server configuration. Without errors,
 * the delegation and skill graphs are built.
 */
module NetworkCompiler {
  import opened Wrappers
  import opened Text
  import opened Assoc
  import opened NetworkSchema

  type Graph = Entries<seq<string>>

  // ---------------------------------------------------------------- diagnostics

  function MissingAgentError(agentId: string, delegateId: string): CompilerError
  {
    CompilerError(MissingAgent,
      "Agent '" + agentId + "' delegates to '" + delegateId + "', but '" + delegateId + "' does not exist.",
      agentId, Some(delegateId))
  }

  function MissingSkillError(agentId: string, skillId: string): CompilerError
  {
    CompilerError(MissingSkill,
      "Agent '" + agentId + "' requires skill '" + skillId + "', but '" + skillId + "' is not defined.",
      agentId, Some(skillId))
  }

  function McpConfigError(skillId: string): CompilerError
  {
    CompilerError(SchemaError, "Skill '" + skillId + "' is type 'mcp' but has no mcp configuration.", skillId, None)
  }

  /** One error per delegate that is not an agent id, in order. */
  function DelegateErrors(agentId: string, delegates: seq<string>, agentIds: seq<string>): (es: seq<CompilerError>)
    ensures forall e :: e in es ==>
      (e.kind == MissingAgent && e.source == agentId && e.target.Some?
       && e.target.value in delegates && e.target.value !in agentIds)
  {
    if |delegates| == 0 then []
    else
      var rest := DelegateErrors(agentId, delegates[..|delegates| - 1], agentIds);
      var d := delegates[|delegates| - 1];
      rest + (if d !in agentIds then [MissingAgentError(agentId, d)] else [])
  }

  /** One error per skill reference other than `*` that is not a skill id, in order. */
  function SkillRefErrors(agentId: string, skills: seq<string>, skillIds: seq<string>): (es: seq<CompilerError>)
    ensures forall e :: e in es ==>
      (e.kind == MissingSkill && e.source == agentId && e.target.Some?
       && e.target.value in skills && e.target.value != "*" && e.target.value !in skillIds)
  {
    if |skills| == 0 then []
    else
      var rest := SkillRefErrors(agentId, skills[..|skills| - 1], skillIds);
      var s := skills[|skills| - 1];
      rest + (if s != "*" && s !in skillIds then [MissingSkillError(agentId, s)] else [])
  }

  /** The reference errors of every agent, in map order, delegates before skills within an agent. */
  function ReferenceErrors(agents: Entries<ParsedAgent>, agentIds: seq<string>, skillIds: seq<string>): (es: seq<CompilerError>)
    ensures forall e :: e in es ==> (e.kind == MissingAgent || e.kind == MissingSkill) && e.source in Keys(agents)
  {
    if |agents| == 0 then []
    else
      var (id, agent) := agents[|agents| - 1];
      var front := agents[..|agents| - 1];
      assert Keys(agents) == Keys(front) + [id];
      ReferenceErrors(front, agentIds, skillIds)
        + DelegateErrors(id, agent.frontMatter.delegates, agentIds)
        + SkillRefErrors(id, agent.frontMatter.skills, skillIds)
  }

  predicate LacksMcpConfig(skill: ParsedSkill)
  {
    skill.frontMatter.kind == McpSkill && skill.frontMatter.mcp.None?
  }

  /** One error per `mcp` skill without configuration, in map order. */
  function McpErrors(skills: Entries<ParsedSkill>): (es: seq<CompilerError>)
    ensures forall e :: e in es ==> e.kind == SchemaError && e.target.None? && e.source in Keys(skills)
  {
    if |skills| == 0 then []
    else
      var (id, skill) := skills[|skills| - 1];
      var front := skills[..|skills| - 1];
      assert Keys(skills) == Keys(front) + [id];
      McpErrors(front) + (if LacksMcpConfig(skill) then [McpConfigError(id)] else [])
  }

  /** Every diagnostic, in the order the compiler emits them. */
  function CompileErrors(agents: Entries<ParsedAgent>, skills: Entries<ParsedSkill>): seq<CompilerError>
  {
    ReferenceErrors(agents, Keys(agents), Keys(skills)) + McpErrors(skills)
  }

  // ---------------------------------------------------------------- graphs

  /** `agent -> delegates`, one entry per agent in map order. */
  function DelegationGraph(agents: Entries<ParsedAgent>): (g: Graph)
    ensures |g| == |agents|
    ensures forall j :: 0 <= j < |g| ==> g[j] == (agents[j].0, agents[j].1.frontMatter.delegates)
  {
    if |agents| == 0 then []
    else
      var front := DelegationGraph(agents[..|agents| - 1]);
      front + [(agents[|agents| - 1].0, agents[|agents| - 1].1.frontMatter.delegates)]
  }

  /** The skills an agent uses: all skill ids when it lists `*`, else its own list. */
  function ExpandSkills(skills: seq<string>, skillIds: seq<string>): seq<string>
  {
    if "*" in skills then skillIds else skills
  }

  /** `agent -> skills`, with the wildcard expanded. */
  function SkillGraph(agents: Entries<ParsedAgent>, skillIds: seq<string>): (g: Graph)
    ensures |g| == |agents|
    ensures forall j :: 0 <= j < |g| ==> g[j] == (agents[j].0, ExpandSkills(agents[j].1.frontMatter.skills, skillIds))
  {
    if |agents| == 0 then []
    else
      var front := SkillGraph(agents[..|agents| - 1], skillIds);
      front + [(agents[|agents| - 1].0, ExpandSkills(agents[|agents| - 1].1.frontMatter.skills, skillIds))]
  }

  /** `compileNetwork` as a function of its inputs. */
  function Compile(manifest: ParsedManifest, agents: Entries<ParsedAgent>, skills: Entries<ParsedSkill>): CompileResult
  {
    var errors := CompileErrors(agents, skills);
    if |errors| > 0 then Failed(errors)
    else Compiled(CompiledNetwork(manifest, agents, skills, DelegationGraph(agents), SkillGraph(agents, Keys(skills))))
  }

  // ---------------------------------------------------------------- the compiler

  /** `compileNetwork`: the diagnostics loops, then the graph loop. */
  method CompileNetwork(manifest: ParsedManifest, agents: Entries<ParsedAgent>, skills: Entries<ParsedSkill>)
    returns (r: CompileResult)
    ensures r == Compile(manifest, agents, skills)
    ensures r.Failed? <==> |CompileErrors(agents, skills)| > 0
    ensures r.Failed? ==> r.errors == CompileErrors(agents, skills)
    ensures r.Compiled? ==> r.network.manifest == manifest && r.network.agents == agents && r.network.skills == skills
  {
    var skillIds := Keys(skills);
    var errors := CollectReferenceErrors(agents, Keys(agents), skillIds);
    errors := AppendMcpErrors(errors, skills);
    if |errors| > 0 {
      return Failed(errors);
    }
    var delegation, skillGraph := BuildGraphs(agents, skillIds);
    return Compiled(CompiledNetwork(manifest, agents, skills, delegation, skillGraph));
  }

  /** The agent loop of the diagnostics: delegates, then skill references, agent by agent. */
  method CollectReferenceErrors(agents: Entries<ParsedAgent>, agentIds: seq<string>, skillIds: seq<string>)
    returns (errors: seq<CompilerError>)
    ensures errors == ReferenceErrors(agents, agentIds, skillIds)
  {
    errors := [];
    var i := 0;
    while i < |agents|
      invariant 0 <= i <= |agents|
      invariant errors == ReferenceErrors(agents[..i], agentIds, skillIds)
    {
      var (agentId, agent) := agents[i];
      ReferenceErrorsStep(agents, i, agentIds, skillIds);
      errors := AppendDelegateErrors(errors, agentId, agent.frontMatter.delegates, agentIds);
      errors := AppendSkillRefErrors(errors, agentId, agent.frontMatter.skills, skillIds);
      i := i + 1;
    }
    assert agents[..i] == agents;
  }

  lemma ReferenceErrorsStep(agents: Entries<ParsedAgent>, i: nat, agentIds: seq<string>, skillIds: seq<string>)
    requires i < |agents|
    ensures ReferenceErrors(agents[..i + 1], agentIds, skillIds) ==
      ReferenceErrors(agents[..i], agentIds, skillIds)
        + DelegateErrors(agents[i].0, agents[i].1.frontMatter.delegates, agentIds)
        + SkillRefErrors(agents[i].0, agents[i].1.frontMatter.skills, skillIds)
  {
    assert agents[..i + 1][..i] == agents[..i];
  }

  /** The skill loop of the diagnostics: one error per `mcp` skill without configuration. */
  method AppendMcpErrors(errors: seq<CompilerError>, skills: Entries<ParsedSkill>) returns (r: seq<CompilerError>)
    ensures r == errors + McpErrors(skills)
  {
    r := errors;
    var k := 0;
    while k < |skills|
      invariant 0 <= k <= |skills|
      invariant r == errors + McpErrors(skills[..k])
    {
      if LacksMcpConfig(skills[k].1) {
        r := r + [McpConfigError(skills[k].0)];
      }
      assert skills[..k + 1][..k] == skills[..k];
      k := k + 1;
    }
    assert skills[..k] == skills;
  }

  method AppendDelegateErrors(errors: seq<CompilerError>, agentId: string, delegates: seq<string>, agentIds: seq<string>)
    returns (r: seq<CompilerError>)
    ensures r == errors + DelegateErrors(agentId, delegates, agentIds)
  {
    r := errors;
    var j := 0;
    while j < |delegates|
      invariant 0 <= j <= |delegates|
      invariant r == errors + DelegateErrors(agentId, delegates[..j], agentIds)
    {
      if delegates[j] !in agentIds {
        r := r + [MissingAgentError(agentId, delegates[j])];
      }
      assert delegates[..j + 1][..j] == delegates[..j];
      j := j + 1;
    }
    assert delegates[..j] == delegates;
  }

  method AppendSkillRefErrors(errors: seq<CompilerError>, agentId: string, skillRefs: seq<string>, skillIds: seq<string>)
    returns (r: seq<CompilerError>)
    ensures r == errors + SkillRefErrors(agentId, skillRefs, skillIds)
  {
    r := errors;
    var j := 0;
    while j < |skillRefs|
      invariant 0 <= j <= |skillRefs|
      invariant r == errors + SkillRefErrors(agentId, skillRefs[..j], skillIds)
    {
      if skillRefs[j] != "*" && skillRefs[j] !in skillIds {
        r := r + [MissingSkillError(agentId, skillRefs[j])];
      }
      assert skillRefs[..j + 1][..j] == skillRefs[..j];
      j := j + 1;
    }
    assert skillRefs[..j] == skillRefs;
  }

  /** The graph loop: both maps filled agent by agent. */
  method BuildGraphs(agents: Entries<ParsedAgent>, skillIds: seq<string>) returns (delegation: Graph, skillGraph: Graph)
    ensures delegation == DelegationGraph(agents) && skillGraph == SkillGraph(agents, skillIds)
  {
    delegation, skillGraph := [], [];
    var i := 0;
    while i < |agents|
      invariant 0 <= i <= |agents|
      invariant delegation == DelegationGraph(agents[..i]) && skillGraph == SkillGraph(agents[..i], skillIds)
    {
      var (agentId, agent) := agents[i];
      delegation := delegation + [(agentId, agent.frontMatter.delegates)];
      skillGraph := skillGraph + [(agentId, ExpandSkills(agent.frontMatter.skills, skillIds))];
      assert agents[..i + 1][..i] == agents[..i];
      i := i + 1;
    }
    assert agents[..i] == agents;
  }

  // ---------------------------------------------------------------- properties

  /** A delegate that is not an agent id is reported, with the agent as source and the delegate as target. */
  lemma {:induction false} MissingDelegateReported(agents: Entries<ParsedAgent>, agentIds: seq<string>, skillIds: seq<string>, j: nat, d: string)
    requires j < |agents| && d in agents[j].1.frontMatter.delegates && d !in agentIds
    ensures MissingAgentError(agents[j].0, d) in ReferenceErrors(agents, agentIds, skillIds)
    decreases |agents|
  {
    var n := |agents| - 1;
    var front := agents[..n];
    if j == n {
      DelegateReported(agents[j].0, agents[j].1.frontMatter.delegates, agentIds, d);
    } else {
      assert front[j] == agents[j];
      MissingDelegateReported(front, agentIds, skillIds, j, d);
    }
  }

  lemma {:induction false} DelegateReported(agentId: string, delegates: seq<string>, agentIds: seq<string>, d: string)
    requires d in delegates && d !in agentIds
    ensures MissingAgentError(agentId, d) in DelegateErrors(agentId, delegates, agentIds)
    decreases |delegates|
  {
    var n := |delegates| - 1;
    if delegates[n] != d {
      assert d in delegates[..n] by {
        var k :| 0 <= k < |delegates| && delegates[k] == d;
        assert k < n && delegates[..n][k] == d;
      }
      DelegateReported(agentId, delegates[..n], agentIds, d);
    }
  }

  /** A skill reference other than `*` that is not a skill id is reported. */
  lemma {:induction false} MissingSkillReported(agents: Entries<ParsedAgent>, agentIds: seq<string>, skillIds: seq<string>, j: nat, s: string)
    requires j < |agents| && s in agents[j].1.frontMatter.skills && s != "*" && s !in skillIds
    ensures MissingSkillError(agents[j].0, s) in ReferenceErrors(agents, agentIds, skillIds)
    decreases |agents|
  {
    var n := |agents| - 1;
    var front := agents[..n];
    if j == n {
      SkillRefReported(agents[j].0, agents[j].1.frontMatter.skills, skillIds, s);
    } else {
      assert front[j] == agents[j];
      MissingSkillReported(front, agentIds, skillIds, j, s);
    }
  }

  lemma {:induction false} SkillRefReported(agentId: string, skills: seq<string>, skillIds: seq<string>, s: string)
    requires s in skills && s != "*" && s !in skillIds
    ensures MissingSkillError(agentId, s) in SkillRefErrors(agentId, skills, skillIds)
    decreases |skills|
  {
    var n := |skills| - 1;
    if skills[n] != s {
      assert s in skills[..n] by {
        var k :| 0 <= k < |skills| && skills[k] == s;
        assert k < n && skills[..n][k] == s;
      }
      SkillRefReported(agentId, skills[..n], skillIds, s);
    }
  }

  /** Every `mcp` skill without configuration is reported. */
  lemma {:induction false} McpSkillReported(skills: Entries<ParsedSkill>, j: nat)
    requires j < |skills| && LacksMcpConfig(skills[j].1)
    ensures McpConfigError(skills[j].0) in McpErrors(skills)
    decreases |skills|
  {
    var n := |skills| - 1;
    if j < n {
      assert skills[..n][j] == skills[j];
      McpSkillReported(skills[..n], j);
    }
  }

  /** Every diagnostic names a real problem: a dangling delegate, a dangling skill reference, or an unconfigured `mcp` skill. */
  lemma ErrorsAreJustified(agents: Entries<ParsedAgent>, skills: Entries<ParsedSkill>, e: CompilerError)
    requires e in CompileErrors(agents, skills)
    ensures e.kind == MissingAgent ==> e.source in Keys(agents) && e.target.Some? && e.target.value !in Keys(agents)
    ensures e.kind == MissingSkill ==> e.source in Keys(agents) && e.target.Some? && e.target.value != "*" && e.target.value !in Keys(skills)
    ensures e.kind == SchemaError ==> e.source in Keys(skills) && e.target.None?
    ensures e.kind != CycleDetected
  {
    if e in ReferenceErrors(agents, Keys(agents), Keys(skills)) {
      ReferenceErrorsTargets(agents, Keys(agents), Keys(skills), e);
    }
  }

  lemma {:induction false} ReferenceErrorsTargets(agents: Entries<ParsedAgent>, agentIds: seq<string>, skillIds: seq<string>, e: CompilerError)
    requires e in ReferenceErrors(agents, agentIds, skillIds)
    ensures e.kind == MissingAgent ==> e.target.Some? && e.target.value !in agentIds
    ensures e.kind == MissingSkill ==> e.target.Some? && e.target.value != "*" && e.target.value !in skillIds
    decreases |agents|
  {
    var n := |agents| - 1;
    var (id, agent) := agents[n];
    var front := agents[..n];
    if e in ReferenceErrors(front, agentIds, skillIds) {
      ReferenceErrorsTargets(front, agentIds, skillIds, e);
    }
  }

  /** On success every id in either graph exists: delegates are agents and skill entries are skills. */
  lemma SuccessGraphsResolve(manifest: ParsedManifest, agents: Entries<ParsedAgent>, skills: Entries<ParsedSkill>)
    requires Compile(manifest, agents, skills).Compiled?
    ensures var net := Compile(manifest, agents, skills).network;
      && Keys(net.delegationGraph) == Keys(agents) && Keys(net.skillGraph) == Keys(agents)
      && (forall j, d :: 0 <= j < |net.delegationGraph| && d in net.delegationGraph[j].1 ==> d in Keys(agents))
      && (forall j, s :: 0 <= j < |net.skillGraph| && s in net.skillGraph[j].1 ==> s in Keys(skills))
  {
    var net := Compile(manifest, agents, skills).network;
    SameKeys(net.delegationGraph, agents);
    SameKeys(net.skillGraph, agents);
    forall j, d | 0 <= j < |net.delegationGraph| && d in net.delegationGraph[j].1
      ensures d in Keys(agents)
    {
      if d !in Keys(agents) {
        MissingDelegateReported(agents, Keys(agents), Keys(skills), j, d);
      }
    }
    forall j, s | 0 <= j < |net.skillGraph| && s in net.skillGraph[j].1
      ensures s in Keys(skills)
    {
      var refs := agents[j].1.frontMatter.skills;
      if "*" !in refs && s !in Keys(skills) {
        MissingSkillReported(agents, Keys(agents), Keys(skills), j, s);
      }
    }
  }
}
