/**
 * The two text views of a compiled network: a Mermaid flowchart and a
 * plain-text summary. Both collect lines and join them with line feeds.
 */
module NetworkRender {
  import opened Wrappers
  import opened Text
  import opened Assoc
  import opened NetworkSchema
  import opened NetworkCompiler

  // ---------------------------------------------------------------- diagram lines

  /** An agent node: double brackets for a primary agent, labelled by its role or else its id. */
  function AgentNodeLine(id: string, agent: ParsedAgent): string
  {
    var caption := if agent.frontMatter.role == "" then id else agent.frontMatter.role;
    if agent.frontMatter.primary then "    " + id + "[[\"" + caption + "\"]]"
    else "    " + id + "[\"" + caption + "\"]"
  }

  function AgentNodeLines(agents: Entries<ParsedAgent>): (ls: seq<string>)
    ensures |ls| == |agents|
    ensures forall j :: 0 <= j < |agents| ==> ls[j] == AgentNodeLine(agents[j].0, agents[j].1)
  {
    if |agents| == 0 then []
    else AgentNodeLines(agents[..|agents| - 1]) + [AgentNodeLine(agents[|agents| - 1].0, agents[|agents| - 1].1)]
  }

  function SkillNodeLine(id: string): string
  {
    "    skill_" + id + "((\"" + id + "\"))"
  }

  function SkillNodeLines(skills: Entries<ParsedSkill>): (ls: seq<string>)
    ensures |ls| == |skills|
    ensures forall j :: 0 <= j < |skills| ==> ls[j] == SkillNodeLine(skills[j].0)
  {
    if |skills| == 0 then []
    else SkillNodeLines(skills[..|skills| - 1]) + [SkillNodeLine(skills[|skills| - 1].0)]
  }

  /** Delegation edges are solid arrows; skill edges are dotted and point at the `skill_` node. */
  datatype EdgeKind = Delegates | Uses

  function EdgeLine(kind: EdgeKind, from: string, to: string): string
  {
    match kind
    case Delegates => "    " + from + " -->|delegates| " + to
    case Uses => "    " + from + " -.->|uses| skill_" + to
  }

  /** The edges out of one node, in target order. */
  function TargetLines(kind: EdgeKind, from: string, targets: seq<string>): seq<string>
  {
    if |targets| == 0 then []
    else TargetLines(kind, from, targets[..|targets| - 1]) + [EdgeLine(kind, from, targets[|targets| - 1])]
  }

  /** The edges of a whole graph, node by node in map order. */
  function EdgeLines(kind: EdgeKind, g: Graph): seq<string>
  {
    if |g| == 0 then []
    else EdgeLines(kind, g[..|g| - 1]) + TargetLines(kind, g[|g| - 1].0, g[|g| - 1].1)
  }

  const Styling: seq<string> := [
    "    %% Styling",
    "    classDef primary fill:#f9f,stroke:#333,stroke-width:2px",
    "    classDef subagent fill:#bbf,stroke:#333",
    "    classDef skill fill:#bfb,stroke:#393,stroke-dasharray: 5 5"]

  function AgentClassLine(id: string, agent: ParsedAgent): string
  {
    "    class " + id + (if agent.frontMatter.primary then " primary" else " subagent")
  }

  function AgentClassLines(agents: Entries<ParsedAgent>): (ls: seq<string>)
    ensures |ls| == |agents|
    ensures forall j :: 0 <= j < |agents| ==> ls[j] == AgentClassLine(agents[j].0, agents[j].1)
  {
    if |agents| == 0 then []
    else AgentClassLines(agents[..|agents| - 1]) + [AgentClassLine(agents[|agents| - 1].0, agents[|agents| - 1].1)]
  }

  function SkillClassLines(skills: Entries<ParsedSkill>): (ls: seq<string>)
    ensures |ls| == |skills|
    ensures forall j :: 0 <= j < |skills| ==> ls[j] == "    class skill_" + skills[j].0 + " skill"
  {
    if |skills| == 0 then []
    else SkillClassLines(skills[..|skills| - 1]) + ["    class skill_" + skills[|skills| - 1].0 + " skill"]
  }

  /** Every line of `generateMermaidDiagram`, before joining. */
  function DiagramLines(n: CompiledNetwork): seq<string>
  {
    ["graph TD"] + AgentNodeLines(n.agents) + [""]
    + SkillNodeLines(n.skills) + [""]
    + EdgeLines(Delegates, n.delegationGraph) + [""]
    + EdgeLines(Uses, n.skillGraph) + [""]
    + Styling + AgentClassLines(n.agents) + SkillClassLines(n.skills)
  }

  function Diagram(n: CompiledNetwork): string
  {
    Join(DiagramLines(n), "\n")
  }

  // ---------------------------------------------------------------- diagram methods

  method GenerateMermaidDiagram(n: CompiledNetwork) returns (s: string)
    ensures s == Diagram(n)
  {
    var lines := ["graph TD"];
    var agentNodes := NodeLinesOfAgents(n.agents);
    var skillNodes := NodeLinesOfSkills(n.skills);
    var delegation := EdgeLinesOf(Delegates, n.delegationGraph);
    var uses := EdgeLinesOf(Uses, n.skillGraph);
    var agentClasses := ClassLinesOfAgents(n.agents);
    var skillClasses := ClassLinesOfSkills(n.skills);
    lines := lines + agentNodes + [""] + skillNodes + [""] + delegation + [""] + uses + [""];
    lines := lines + Styling + agentClasses + skillClasses;
    s := JoinLines(lines);
  }

  method NodeLinesOfAgents(agents: Entries<ParsedAgent>) returns (lines: seq<string>)
    ensures lines == AgentNodeLines(agents)
  {
    lines := [];
    var i := 0;
    while i < |agents|
      invariant 0 <= i <= |agents|
      invariant lines == AgentNodeLines(agents[..i])
    {
      lines := lines + [AgentNodeLine(agents[i].0, agents[i].1)];
      assert agents[..i + 1][..i] == agents[..i];
      i := i + 1;
    }
    assert agents[..i] == agents;
  }

  method NodeLinesOfSkills(skills: Entries<ParsedSkill>) returns (lines: seq<string>)
    ensures lines == SkillNodeLines(skills)
  {
    lines := [];
    var i := 0;
    while i < |skills|
      invariant 0 <= i <= |skills|
      invariant lines == SkillNodeLines(skills[..i])
    {
      lines := lines + [SkillNodeLine(skills[i].0)];
      assert skills[..i + 1][..i] == skills[..i];
      i := i + 1;
    }
    assert skills[..i] == skills;
  }

  /** The nested edge loop: every target of every node, in order. */
  method EdgeLinesOf(kind: EdgeKind, g: Graph) returns (lines: seq<string>)
    ensures lines == EdgeLines(kind, g)
  {
    lines := [];
    var i := 0;
    while i < |g|
      invariant 0 <= i <= |g|
      invariant lines == EdgeLines(kind, g[..i])
    {
      var (from, targets) := g[i];
      var j := 0;
      while j < |targets|
        invariant 0 <= j <= |targets|
        invariant lines == EdgeLines(kind, g[..i]) + TargetLines(kind, from, targets[..j])
      {
        lines := lines + [EdgeLine(kind, from, targets[j])];
        assert targets[..j + 1][..j] == targets[..j];
        j := j + 1;
      }
      assert targets[..j] == targets;
      assert g[..i + 1][..i] == g[..i];
      i := i + 1;
    }
    assert g[..i] == g;
  }

  method ClassLinesOfAgents(agents: Entries<ParsedAgent>) returns (lines: seq<string>)
    ensures lines == AgentClassLines(agents)
  {
    lines := [];
    var i := 0;
    while i < |agents|
      invariant 0 <= i <= |agents|
      invariant lines == AgentClassLines(agents[..i])
    {
      lines := lines + [AgentClassLine(agents[i].0, agents[i].1)];
      assert agents[..i + 1][..i] == agents[..i];
      i := i + 1;
    }
    assert agents[..i] == agents;
  }

  method ClassLinesOfSkills(skills: Entries<ParsedSkill>) returns (lines: seq<string>)
    ensures lines == SkillClassLines(skills)
  {
    lines := [];
    var i := 0;
    while i < |skills|
      invariant 0 <= i <= |skills|
      invariant lines == SkillClassLines(skills[..i])
    {
      lines := lines + ["    class skill_" + skills[i].0 + " skill"];
      assert skills[..i + 1][..i] == skills[..i];
      i := i + 1;
    }
    assert skills[..i] == skills;
  }

  /** `lines.join("\n")`. */
  method JoinLines(lines: seq<string>) returns (s: string)
    ensures s == Join(lines, "\n")
  {
    if |lines| == 0 {
      return "";
    }
    s := lines[|lines| - 1];
    var i := |lines| - 1;
    while i > 0
      invariant 0 <= i < |lines|
      invariant s == Join(lines[i..], "\n")
    {
      i := i - 1;
      assert lines[i..][1..] == lines[i + 1..];
      s := lines[i] + "\n" + s;
    }
  }

  // ---------------------------------------------------------------- diagram properties

  /** The number of (node, target) pairs of a graph. */
  function PairCount(g: Graph): nat
  {
    if |g| == 0 then 0 else PairCount(g[..|g| - 1]) + |g[|g| - 1].1|
  }

  lemma {:induction false} TargetLinesExact(kind: EdgeKind, from: string, targets: seq<string>)
    ensures |TargetLines(kind, from, targets)| == |targets|
    ensures forall k :: 0 <= k < |targets| ==> TargetLines(kind, from, targets)[k] == EdgeLine(kind, from, targets[k])
  {
    if |targets| > 0 {
      TargetLinesExact(kind, from, targets[..|targets| - 1]);
    }
  }

  /** One edge line per pair: the edge section has exactly as many lines as the graph has pairs. */
  lemma {:induction false} EdgeLinesCount(kind: EdgeKind, g: Graph)
    ensures |EdgeLines(kind, g)| == PairCount(g)
  {
    if |g| > 0 {
      EdgeLinesCount(kind, g[..|g| - 1]);
      TargetLinesExact(kind, g[|g| - 1].0, g[|g| - 1].1);
    }
  }

  /** Every pair of the graph has its edge line. */
  lemma {:induction false} EdgeLinePresent(kind: EdgeKind, g: Graph, j: nat, t: string)
    requires j < |g| && t in g[j].1
    ensures EdgeLine(kind, g[j].0, t) in EdgeLines(kind, g)
  {
    var last := |g| - 1;
    if j == last {
      TargetLinesExact(kind, g[last].0, g[last].1);
      var k :| 0 <= k < |g[last].1| && g[last].1[k] == t;
      assert TargetLines(kind, g[last].0, g[last].1)[k] == EdgeLine(kind, g[j].0, t);
    } else {
      EdgeLinePresent(kind, g[..last], j, t);
    }
  }

  /** Every edge line comes from a pair of the graph. */
  lemma {:induction false} EdgeLineJustified(kind: EdgeKind, g: Graph, line: string)
    requires line in EdgeLines(kind, g)
    ensures exists j, t :: 0 <= j < |g| && t in g[j].1 && line == EdgeLine(kind, g[j].0, t)
  {
    var last := |g| - 1;
    var init := EdgeLines(kind, g[..last]);
    if line in init {
      EdgeLineJustified(kind, g[..last], line);
      var j, t :| 0 <= j < |g[..last]| && t in g[..last][j].1 && line == EdgeLine(kind, g[..last][j].0, t);
      assert g[..last][j] == g[j];
    } else {
      TargetLinesExact(kind, g[last].0, g[last].1);
      var k :| 0 <= k < |g[last].1| && TargetLines(kind, g[last].0, g[last].1)[k] == line;
      assert g[last].1[k] in g[last].1;
    }
  }

  lemma JoinStartsWithFirst(lines: seq<string>, sep: string)
    requires |lines| > 0
    ensures StartsWith(Join(lines, sep), lines[0])
  {
  }

  /** The diagram is a top-down flowchart, and each agent has its node and class line. */
  lemma DiagramShape(n: CompiledNetwork)
    ensures StartsWith(Diagram(n), "graph TD")
    ensures DiagramLines(n)[0] == "graph TD"
    ensures forall j :: 0 <= j < |n.agents| ==>
      AgentNodeLine(n.agents[j].0, n.agents[j].1) in DiagramLines(n)
      && AgentClassLine(n.agents[j].0, n.agents[j].1) in DiagramLines(n)
    ensures forall j :: 0 <= j < |n.skills| ==> SkillNodeLine(n.skills[j].0) in DiagramLines(n)
  {
    JoinStartsWithFirst(DiagramLines(n), "\n");
    forall j | 0 <= j < |n.agents|
      ensures AgentNodeLine(n.agents[j].0, n.agents[j].1) in DiagramLines(n)
      ensures AgentClassLine(n.agents[j].0, n.agents[j].1) in DiagramLines(n)
    {
      assert AgentNodeLine(n.agents[j].0, n.agents[j].1) in AgentNodeLines(n.agents);
      assert AgentClassLine(n.agents[j].0, n.agents[j].1) in AgentClassLines(n.agents);
    }
    forall j | 0 <= j < |n.skills|
      ensures SkillNodeLine(n.skills[j].0) in DiagramLines(n)
    {
      assert SkillNodeLine(n.skills[j].0) in SkillNodeLines(n.skills);
    }
  }

  /** Each delegation pair and each skill-use pair has its edge line in the diagram. */
  lemma DiagramEdges(n: CompiledNetwork, j: nat, t: string)
    ensures j < |n.delegationGraph| && t in n.delegationGraph[j].1 ==>
      EdgeLine(Delegates, n.delegationGraph[j].0, t) in DiagramLines(n)
    ensures j < |n.skillGraph| && t in n.skillGraph[j].1 ==>
      EdgeLine(Uses, n.skillGraph[j].0, t) in DiagramLines(n)
  {
    if j < |n.delegationGraph| && t in n.delegationGraph[j].1 {
      EdgeLinePresent(Delegates, n.delegationGraph, j, t);
    }
    if j < |n.skillGraph| && t in n.skillGraph[j].1 {
      EdgeLinePresent(Uses, n.skillGraph, j, t);
    }
  }

  // ---------------------------------------------------------------- summary

  /** How `${variant}` prints an optional variant. */
  function VariantText(v: Option<Variant>): string
  {
    match v
    case None => "undefined"
    case Some(High) => "high"
    case Some(Medium) => "medium"
    case Some(Low) => "low"
  }

  const DelegatesPrefix := "      delegates: "
  const SkillsPrefix := "      skills: "

  function AgentHeader(id: string, agent: ParsedAgent): string
  {
    "  " + (if agent.frontMatter.primary then "★" else "•") + " " + id
    + " (" + VariantText(agent.frontMatter.variant) + ")"
  }

  /** The summary block of one agent: its header, then delegates and skills only when there are some. */
  function AgentBlock(id: string, agent: ParsedAgent): seq<string>
  {
    var fm := agent.frontMatter;
    [AgentHeader(id, agent)]
    + (if |fm.delegates| > 0 then [DelegatesPrefix + Join(fm.delegates, ", ")] else [])
    + (if |fm.skills| > 0 then [SkillsPrefix + Join(fm.skills, ", ")] else [])
  }

  function AgentBlocks(agents: Entries<ParsedAgent>): seq<string>
  {
    if |agents| == 0 then []
    else AgentBlocks(agents[..|agents| - 1]) + AgentBlock(agents[|agents| - 1].0, agents[|agents| - 1].1)
  }

  function SkillSummaryLine(id: string, skill: ParsedSkill): string
  {
    "  • " + id + (if skill.frontMatter.kind == McpSkill then " [MCP]" else " [builtin]")
  }

  function SkillSummaryLines(skills: Entries<ParsedSkill>): (ls: seq<string>)
    ensures |ls| == |skills|
    ensures forall j :: 0 <= j < |skills| ==> ls[j] == SkillSummaryLine(skills[j].0, skills[j].1)
  {
    if |skills| == 0 then []
    else SkillSummaryLines(skills[..|skills| - 1]) + [SkillSummaryLine(skills[|skills| - 1].0, skills[|skills| - 1].1)]
  }

  function SummaryHead(n: CompiledNetwork): seq<string>
  {
    var fm := n.manifest.frontMatter;
    ["Network: " + fm.name + " v" + fm.version,
     "Agents: " + NatToString(|n.agents|),
     "Skills: " + NatToString(|n.skills|),
     "",
     "Agents:"]
  }

  /** Every line of `generateNetworkSummary`, before joining. */
  function SummaryLines(n: CompiledNetwork): seq<string>
  {
    SummaryHead(n) + AgentBlocks(n.agents) + ["", "Skills:"] + SkillSummaryLines(n.skills)
  }

  function Summary(n: CompiledNetwork): string
  {
    Join(SummaryLines(n), "\n")
  }

  method GenerateNetworkSummary(n: CompiledNetwork) returns (s: string)
    ensures s == Summary(n)
  {
    var lines := SummaryHead(n);
    lines := AppendAgentBlocks(lines, n.agents);
    lines := lines + ["", "Skills:"];
    lines := AppendSkillLines(lines, n.skills);
    s := JoinLines(lines);
  }

  /** The agent loop of the summary: each agent's block, in map order. */
  method AppendAgentBlocks(lines: seq<string>, agents: Entries<ParsedAgent>) returns (r: seq<string>)
    ensures r == lines + AgentBlocks(agents)
  {
    r := lines;
    var i := 0;
    while i < |agents|
      invariant 0 <= i <= |agents|
      invariant r == lines + AgentBlocks(agents[..i])
    {
      var block := BuildAgentBlock(agents[i].0, agents[i].1);
      AgentBlocksStep(agents, i);
      var done := AgentBlocks(agents[..i]);
      assert r + block == lines + (done + block);
      r := r + block;
      i := i + 1;
    }
    assert agents[..i] == agents;
  }

  /** One agent's lines: the header, then delegates and skills when it has some. */
  method BuildAgentBlock(id: string, agent: ParsedAgent) returns (block: seq<string>)
    ensures block == AgentBlock(id, agent)
  {
    block := [AgentHeader(id, agent)];
    if |agent.frontMatter.delegates| > 0 {
      block := block + [DelegatesPrefix + Join(agent.frontMatter.delegates, ", ")];
    }
    if |agent.frontMatter.skills| > 0 {
      block := block + [SkillsPrefix + Join(agent.frontMatter.skills, ", ")];
    }
  }

  lemma AgentBlocksStep(agents: Entries<ParsedAgent>, i: nat)
    requires i < |agents|
    ensures AgentBlocks(agents[..i + 1]) == AgentBlocks(agents[..i]) + AgentBlock(agents[i].0, agents[i].1)
  {
    assert agents[..i + 1][..i] == agents[..i];
  }

  /** The skill loop of the summary: one line per skill, in map order. */
  method AppendSkillLines(lines: seq<string>, skills: Entries<ParsedSkill>) returns (r: seq<string>)
    ensures r == lines + SkillSummaryLines(skills)
  {
    r := lines;
    var k := 0;
    while k < |skills|
      invariant 0 <= k <= |skills|
      invariant r == lines + SkillSummaryLines(skills[..k])
    {
      r := r + [SkillSummaryLine(skills[k].0, skills[k].1)];
      assert skills[..k + 1][..k] == skills[..k];
      k := k + 1;
    }
    assert skills[..k] == skills;
  }

  // ---------------------------------------------------------------- summary properties

  /** The counts on lines two and three are the decimal numbers of agents and skills. */
  lemma SummaryCounts(n: CompiledNetwork)
    ensures SummaryLines(n)[1] == "Agents: " + NatToString(|n.agents|)
    ensures SummaryLines(n)[2] == "Skills: " + NatToString(|n.skills|)
    ensures DigitsValue(SummaryLines(n)[1][8..]) == |n.agents|
    ensures DigitsValue(SummaryLines(n)[2][8..]) == |n.skills|
  {
    assert SummaryLines(n)[1][8..] == NatToString(|n.agents|);
    assert SummaryLines(n)[2][8..] == NatToString(|n.skills|);
  }

  /** An agent block has a delegates line exactly when the agent delegates, and a skills line exactly when it uses skills. */
  lemma AgentBlockLines(id: string, agent: ParsedAgent)
    ensures AgentBlock(id, agent)[0] == AgentHeader(id, agent)
    ensures |AgentBlock(id, agent)| == 1 + (if |agent.frontMatter.delegates| > 0 then 1 else 0)
                                         + (if |agent.frontMatter.skills| > 0 then 1 else 0)
    ensures (exists l :: l in AgentBlock(id, agent) && StartsWith(l, DelegatesPrefix)) <==> |agent.frontMatter.delegates| > 0
    ensures (exists l :: l in AgentBlock(id, agent) && StartsWith(l, SkillsPrefix)) <==> |agent.frontMatter.skills| > 0
  {
    var block := AgentBlock(id, agent);
    var header := AgentHeader(id, agent);
    assert header[2] != ' ';
    assert !StartsWith(header, DelegatesPrefix) && !StartsWith(header, SkillsPrefix);
    if |agent.frontMatter.delegates| > 0 {
      assert StartsWith(block[1], DelegatesPrefix);
    }
    if |agent.frontMatter.skills| > 0 {
      assert StartsWith(block[|block| - 1], SkillsPrefix);
    }
    var skillsLine := SkillsPrefix + Join(agent.frontMatter.skills, ", ");
    var delegatesLine := DelegatesPrefix + Join(agent.frontMatter.delegates, ", ");
    assert skillsLine[6] == 's' && DelegatesPrefix[6] == 'd';
    assert !StartsWith(skillsLine, DelegatesPrefix);
    assert delegatesLine[6] == 'd' && SkillsPrefix[6] == 's';
    assert !StartsWith(delegatesLine, SkillsPrefix);
  }
}
