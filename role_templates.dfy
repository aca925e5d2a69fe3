/**
 * Prompt templates for the orchestrator: `{{KEY}}` substitution and the
 * generated section that describes every subagent.
 */
module RoleTemplates {
  import opened Wrappers
  import opened Text
  import opened Assoc
  import opened RoleFrontMatter
  import NetworkAgents

  function Placeholder(key: string): (p: string)
    ensures |p| == |key| + 4
  {
    "{{" + key + "}}"
  }

  /** `renderTemplate`: one replace-all of `{{key}}` per variable, in entry order. */
  function RenderTemplate(template: string, variables: Entries<string>): string
  {
    if |variables| == 0 then template
    else
      var last := variables[|variables| - 1];
      ReplaceAll(RenderTemplate(template, variables[..|variables| - 1]), Placeholder(last.0), last.1)
  }

  /** No variables: the template comes back unchanged. */
  lemma RenderNoVariables(template: string)
    ensures RenderTemplate(template, []) == template
  {
  }

  /** A template in which no supplied key's placeholder occurs comes back unchanged. */
  lemma {:induction false} RenderAbsent(template: string, variables: Entries<string>)
    requires forall k :: 0 <= k < |variables| ==> !Contains(template, Placeholder(variables[k].0))
    ensures RenderTemplate(template, variables) == template
  {
    if |variables| > 0 {
      var last := variables[|variables| - 1];
      RenderAbsent(template, variables[..|variables| - 1]);
      ReplaceAllAbsent(template, Placeholder(last.0), last.1);
    }
  }

  /**
   * A template that is exactly one placeholder becomes that variable's value,
   * with its `$$`, `$&`, `` $` `` and `$'` expanded as `replaceAll` does (the
   * match is the placeholder, with nothing before or after it); a value
   * without a dollar sign comes back as written.
   */
  lemma RenderPlaceholderOnly(key: string, value: string)
    ensures RenderTemplate(Placeholder(key), [(key, value)]) == Substitution(value, Placeholder(key), "", "")
    ensures '$' !in value ==> RenderTemplate(Placeholder(key), [(key, value)]) == value
  {
    assert [(key, value)][..0] == [];
    ReplaceAllWhole(Placeholder(key), value);
  }

  /**
   * Each variable whose value has no dollar sign replaces every occurrence of
   * its placeholder in the text rendered so far: that text's pieces between
   * the placeholders, joined with the value.
   */
  lemma RenderReplacesEvery(template: string, variables: Entries<string>, key: string, value: string)
    requires '$' !in value
    ensures RenderTemplate(template, variables + [(key, value)])
         == Join(SplitOn(RenderTemplate(template, variables), Placeholder(key)), value)
  {
    assert (variables + [(key, value)])[..|variables|] == variables;
    ReplaceAllSplit(RenderTemplate(template, variables), Placeholder(key), value);
  }

  /** A value `$&` does not replace its placeholder: the match is put back. */
  lemma RenderKeepsPlaceholderForMatchPattern(key: string)
    ensures RenderTemplate(Placeholder(key), [(key, "$&")]) == Placeholder(key)
  {
    RenderPlaceholderOnly(key, "$&");
    SubstitutionPatterns("", Placeholder(key), "", "");
    assert "$&" + "" == "$&";
  }

  // ---------------------------------------------------------------- agents section

  /** The lines of `formatAgentForOrchestrator`. */
  function FormatLines(agent: RoleFrontMatter): (ls: seq<string>)
    ensures |ls| == 6 + |agent.delegationHints|
  {
    ["@" + agent.name,
     "- Role: " + agent.role,
     "- Capabilities: " + Join(agent.capabilities, "; "),
     "- Tools/Constraints: " + Join(agent.constraints, "; "),
     "- Triggers: " + Join(NetworkAgents.Quoted(agent.triggers), ", "),
     "- Delegate to @" + agent.name + " when you need things such as:"]
    + NetworkAgents.HintLines(agent.delegationHints)
  }

  function FormatAgent(agent: RoleFrontMatter): string
  {
    Join(FormatLines(agent), "\n")
  }

  /** Six fixed lines starting with `@name`, then one `  * hint` line per delegation hint. */
  lemma FormatShape(agent: RoleFrontMatter)
    ensures FormatLines(agent)[0] == "@" + agent.name
    ensures FormatLines(agent)[1] == "- Role: " + agent.role
    ensures FormatLines(agent)[5] == "- Delegate to @" + agent.name + " when you need things such as:"
    ensures forall k :: 0 <= k < |agent.delegationHints| ==>
      FormatLines(agent)[6 + k] == "  * " + agent.delegationHints[k]
  {
  }

  function FormatAgents(agents: seq<RoleFrontMatter>): (bs: seq<string>)
    ensures |bs| == |agents| && forall k :: 0 <= k < |agents| ==> bs[k] == FormatAgent(agents[k])
  {
    if |agents| == 0 then [] else FormatAgents(agents[..|agents| - 1]) + [FormatAgent(agents[|agents| - 1])]
  }

  /** `generateAgentsSection`, given the subagent metadata: one block per subagent, separated by a blank line. */
  function AgentsSection(subagents: seq<RoleFrontMatter>): string
  {
    Join(FormatAgents(subagents), "\n\n")
  }

  const OracleAbout := "- About: Orchestrator should not make high-risk architecture calls alone; oracle validates direction"

  /** `lines.splice(1, 0, about)`. */
  function InsertSecond(lines: seq<string>, line: string): (r: seq<string>)
    requires |lines| >= 1
    ensures |r| == |lines| + 1 && r[0] == lines[0] && r[1] == line && r[2..] == lines[1..]
  {
    [lines[0], line] + lines[1..]
  }

  /** A block of the oracle-note section: the oracle's gains the About line after `@oracle`. */
  function OracleNoteBlock(agent: RoleFrontMatter): string
  {
    var base := FormatAgent(agent);
    if agent.name == "oracle" then Join(InsertSecond(Split(base, '\n'), OracleAbout), "\n") else base
  }

  function OracleNoteBlocks(agents: seq<RoleFrontMatter>): (bs: seq<string>)
    ensures |bs| == |agents| && forall k :: 0 <= k < |agents| ==> bs[k] == OracleNoteBlock(agents[k])
  {
    if |agents| == 0 then [] else OracleNoteBlocks(agents[..|agents| - 1]) + [OracleNoteBlock(agents[|agents| - 1])]
  }

  /** `generateAgentsSectionWithOracleNote`, given the subagent metadata. */
  function AgentsSectionWithOracleNote(subagents: seq<RoleFrontMatter>): string
  {
    Join(OracleNoteBlocks(subagents), "\n\n")
  }

  /** Splitting text whose first line is `head` gives `head`, then the lines of the rest. */
  lemma SplitFirstLine(head: string, tail: string)
    requires '\n' !in head
    ensures Split(head + "\n" + tail, '\n') == [head] + Split(tail, '\n')
  {
    var s := head + "\n" + tail;
    var r := IndexOfChar(s, '\n');
    assert s[|head|] == '\n';
    assert s[..|head| + 1][|head|] == '\n';
    assert r == Some(|head|);
    assert s[..|head|] == head && s[|head| + 1..] == tail;
  }

  /** Joining a list of at least two lines puts the first line, a separator, then the rest joined. */
  lemma JoinCons(first: string, rest: seq<string>, sep: string)
    requires |rest| >= 1
    ensures Join([first] + rest, sep) == first + sep + Join(rest, sep)
  {
    assert ([first] + rest)[1..] == rest;
  }

  /** Splicing a line in after the first line of a text, then joining, puts it between the first line and the rest. */
  lemma InsertedLine(head: string, tail: string, line: string)
    requires '\n' !in head
    ensures Join(InsertSecond(Split(head + "\n" + tail, '\n'), line), "\n") == head + "\n" + line + "\n" + tail
  {
    SplitFirstLine(head, tail);
    var rest := Split(tail, '\n');
    assert InsertSecond([head] + rest, line) == [head] + ([line] + rest);
    JoinCons(head, [line] + rest, "\n");
    JoinCons(line, rest, "\n");
    SplitJoin(tail, '\n');
  }

  /** A block is its first line, a line break, then its remaining lines. */
  lemma FormatFirstLine(agent: RoleFrontMatter)
    ensures FormatAgent(agent) == "@" + agent.name + "\n" + Join(FormatLines(agent)[1..], "\n")
  {
    var lines := FormatLines(agent);
    assert lines == [lines[0]] + lines[1..];
    JoinCons(lines[0], lines[1..], "\n");
  }

  /**
   * The oracle's block is its base block with the About line inserted as the
   * second line; every other block is the base block.
   */
  lemma OracleNoteShape(agent: RoleFrontMatter)
    ensures agent.name != "oracle" ==> OracleNoteBlock(agent) == FormatAgent(agent)
    ensures agent.name == "oracle" ==>
      var tail := Join(FormatLines(agent)[1..], "\n");
      && FormatAgent(agent) == "@oracle" + "\n" + tail
      && OracleNoteBlock(agent) == "@oracle" + "\n" + OracleAbout + "\n" + tail
  {
    if agent.name == "oracle" {
      var tail := Join(FormatLines(agent)[1..], "\n");
      FormatFirstLine(agent);
      assert "@" + agent.name == "@oracle";
      var base := FormatAgent(agent);
      assert base == "@oracle" + "\n" + tail;
      InsertedLine("@oracle", tail, OracleAbout);
      assert OracleNoteBlock(agent) == Join(InsertSecond(Split(base, '\n'), OracleAbout), "\n");
    }
  }

  /** The two sections differ only in the oracle's blocks. */
  lemma OracleNoteOnlyOracle(subagents: seq<RoleFrontMatter>, k: nat)
    requires k < |subagents|
    ensures subagents[k].name != "oracle" ==> OracleNoteBlocks(subagents)[k] == FormatAgents(subagents)[k]
    ensures subagents[k].name == "oracle" ==>
      OracleNoteBlocks(subagents)[k] == "@oracle" + "\n" + OracleAbout + "\n" + Join(FormatLines(subagents[k])[1..], "\n")
  {
    var agent := subagents[k];
    assert OracleNoteBlocks(subagents)[k] == OracleNoteBlock(agent);
    if agent.name != "oracle" {
      assert FormatAgents(subagents)[k] == FormatAgent(agent);
      OracleNoteShape(agent);
    } else {
      OracleNoteShape(agent);
    }
  }
}
