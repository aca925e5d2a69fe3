/**
 * Loading a network directory: `manifest.md`, `agents/*.md` and
 * `skills/*.md`. The file system is an input value: a file's content is
 * present or absent, and a directory is its listing of (file name, content)
 * pairs in the order the listing returns them.
 */
module NetworkLoader {
  import opened Wrappers
  import opened Text
  import opened Assoc
  import FrontMatter
  import opened NetworkYaml
  import opened NetworkSchema

  /** A directory listing: file names with their contents, in listing order. */
  type Listing = Entries<string>

  datatype NetworkDir = NetworkDir(path: string, manifest: Option<string>, agents: Option<Listing>, skills: Option<Listing>)

  datatype LoadedNetwork = LoadedNetwork(manifest: ParsedManifest, agents: Entries<ParsedAgent>, skills: Entries<ParsedSkill>)

  const MissingDelimiters := "Missing front matter delimiters (---)"
  const SchemaFailed := "Schema validation failed"

  /** `path.join(dir, name)` for a plain file name. */
  function JoinPath(dir: string, name: string): string
  {
    dir + "/" + name
  }

  /** The message of a `ParseError`. */
  function ParseErrorMessage(filePath: string, reason: string): (m: string)
    ensures StartsWith(m, "Failed to parse ")
  {
    "Failed to parse " + filePath + ": " + reason
  }

  /** `parseFrontMatter`: the parsed front matter and the trimmed body, or the delimiter error. */
  function ParseFrontMatter(content: string): (r: Result<(Value, string)>)
    ensures r.Err? <==> FrontMatter.Split(content).None?
    ensures r.Err? ==> r.msg == MissingDelimiters
    ensures r.Ok? ==> r.value.0.Obj? && r.value.1 == Trim(FrontMatter.Split(content).value.body)
  {
    match FrontMatter.Split(content)
    case None => Err(MissingDelimiters)
    case Some(parts) => Ok((Parse(parts.yaml), Trim(parts.body)))
  }

  /** A document assembled from front matter and a body reads back as the parsed front matter and the trimmed body. */
  lemma ParseFrontMatterOfDocument(yaml: string, body: string)
    requires FrontMatter.NoClosingLine(yaml)
    ensures ParseFrontMatter("---\n" + yaml + "\n---\n" + body) == Ok((Parse(yaml), Trim(body)))
  {
    FrontMatter.SplitRoundTrip(yaml, body);
  }

  // ---------------------------------------------------------------- manifest

  /** `loadManifest`. */
  function LoadManifest(dir: NetworkDir): (r: Result<ParsedManifest>)
    ensures dir.manifest.None? ==> r == Err(ParseErrorMessage(JoinPath(dir.path, "manifest.md"), "Manifest file not found"))
    ensures r.Err? ==> StartsWith(r.msg, "Failed to parse ")
    ensures r.Ok? ==> dir.manifest.Some? && ParseFrontMatter(dir.manifest.value).Ok?
    ensures r.Ok? ==> var (yaml, body) := ParseFrontMatter(dir.manifest.value).value;
      r.value.content == body && ValidateManifest(yaml) == Ok(r.value.frontMatter)
  {
    var path := JoinPath(dir.path, "manifest.md");
    match dir.manifest
    case None => Err(ParseErrorMessage(path, "Manifest file not found"))
    case Some(content) =>
      match ParseFrontMatter(content)
      case Err(m) => Err(ParseErrorMessage(path, m))
      case Ok((yaml, body)) =>
        match ValidateManifest(yaml)
        case Err(_) => Err(ParseErrorMessage(path, SchemaFailed))
        case Ok(fm) => Ok(ParsedManifest(fm, body))
  }

  // ---------------------------------------------------------------- one file

  /**
   * One agent file. A schema failure is raised as a `ParseError` inside the
   * `try`, whose `catch` wraps its message in a second `ParseError` for the
   * same path.
   */
  function LoadAgentFile(filePath: string, content: string): (r: Result<ParsedAgent>)
    ensures r.Err? ==> StartsWith(r.msg, "Failed to parse ")
    ensures r.Ok? ==> IsValidName(r.value.frontMatter.name)
    ensures r.Ok? <==> ParseFrontMatter(content).Ok? && ValidateAgent(ParseFrontMatter(content).value.0).Ok?
    ensures r.Ok? ==> var (yaml, body) := ParseFrontMatter(content).value;
      r.value == ParsedAgent(ValidateAgent(yaml).value, body)
    ensures ParseFrontMatter(content).Err? ==> r == Err(ParseErrorMessage(filePath, MissingDelimiters))
    ensures ParseFrontMatter(content).Ok? && ValidateAgent(ParseFrontMatter(content).value.0).Err? ==>
      r == Err(ParseErrorMessage(filePath, ParseErrorMessage(filePath,
             SchemaFailed + ": " + ValidateAgent(ParseFrontMatter(content).value.0).msg)))
  {
    match ParseFrontMatter(content)
    case Err(m) => Err(ParseErrorMessage(filePath, m))
    case Ok((yaml, body)) =>
      match ValidateAgent(yaml)
      case Err(issues) =>
        Err(ParseErrorMessage(filePath, ParseErrorMessage(filePath, SchemaFailed + ": " + issues)))
      case Ok(fm) => Ok(ParsedAgent(fm, body))
  }

  /** One skill file: a schema failure is reported as `Schema validation failed`. */
  function LoadSkillFile(filePath: string, content: string): (r: Result<ParsedSkill>)
    ensures r.Err? ==> StartsWith(r.msg, "Failed to parse ")
    ensures r.Ok? ==> IsValidName(r.value.frontMatter.name)
    ensures r.Ok? <==> ParseFrontMatter(content).Ok? && ValidateSkill(ParseFrontMatter(content).value.0).Ok?
    ensures r.Ok? ==> var (yaml, body) := ParseFrontMatter(content).value;
      r.value == ParsedSkill(ValidateSkill(yaml).value, body)
    ensures ParseFrontMatter(content).Err? ==> r == Err(ParseErrorMessage(filePath, MissingDelimiters))
    ensures ParseFrontMatter(content).Ok? && ValidateSkill(ParseFrontMatter(content).value.0).Err? ==>
      r == Err(ParseErrorMessage(filePath, SchemaFailed))
  {
    match ParseFrontMatter(content)
    case Err(m) => Err(ParseErrorMessage(filePath, m))
    case Ok((yaml, body)) =>
      match ValidateSkill(yaml)
      case Err(_) => Err(ParseErrorMessage(filePath, SchemaFailed))
      case Ok(fm) => Ok(ParsedSkill(fm, body))
  }

  predicate IsMarkdown(name: string)
  {
    EndsWith(name, ".md")
  }

  // ---------------------------------------------------------------- agents

  /**
   * The agents loop from file `files[0]` on, starting from the map `acc`:
   * non-Markdown files are skipped, each record is stored under its own
   * name, and the first failing file ends the loop with its error.
   */
  function AgentsFrom(dir: string, files: Listing, acc: Entries<ParsedAgent>): (r: Result<Entries<ParsedAgent>>)
    ensures r.Err? ==> StartsWith(r.msg, "Failed to parse ")
    decreases |files|
  {
    if |files| == 0 then Ok(acc)
    else if !IsMarkdown(files[0].0) then AgentsFrom(dir, files[1..], acc)
    else match LoadAgentFile(JoinPath(dir, files[0].0), files[0].1)
      case Err(m) => Err(m)
      case Ok(a) => AgentsFrom(dir, files[1..], Put(acc, a.frontMatter.name, a))
  }

  /** `loadAgents`. */
  method LoadAgents(networkDir: string, listing: Option<Listing>) returns (r: Result<Entries<ParsedAgent>>)
    ensures listing.None? ==> r == Err(ParseErrorMessage(JoinPath(networkDir, "agents"), "Agents directory not found"))
    ensures listing.Some? ==> r == AgentsFrom(JoinPath(networkDir, "agents"), listing.value, [])
  {
    var agentsDir := JoinPath(networkDir, "agents");
    if listing.None? {
      return Err(ParseErrorMessage(agentsDir, "Agents directory not found"));
    }
    var files := listing.value;
    var agents: Entries<ParsedAgent> := [];
    var i := 0;
    while i < |files|
      invariant 0 <= i <= |files|
      invariant AgentsFrom(agentsDir, files, []) == AgentsFrom(agentsDir, files[i..], agents)
    {
      assert files[i..][1..] == files[i + 1..];
      if IsMarkdown(files[i].0) {
        var loaded := LoadAgentFile(JoinPath(agentsDir, files[i].0), files[i].1);
        if loaded.Err? {
          return Err(loaded.msg);
        }
        agents := Put(agents, loaded.value.frontMatter.name, loaded.value);
      }
      i := i + 1;
    }
    return Ok(agents);
  }

  /** Files whose name does not end in `.md` are never read. */
  lemma {:induction false} AgentsIgnoreOtherFiles(dir: string, files: Listing, name: string, content: string, acc: Entries<ParsedAgent>)
    requires !IsMarkdown(name)
    ensures AgentsFrom(dir, [(name, content)] + files, acc) == AgentsFrom(dir, files, acc)
  {
    assert ([(name, content)] + files)[1..] == files;
  }

  /** The first Markdown file that fails to load decides the result, whatever follows it. */
  lemma {:induction false} AgentsFirstFailureAborts(dir: string, files: Listing, rest: Listing, acc: Entries<ParsedAgent>, name: string, content: string)
    requires IsMarkdown(name) && LoadAgentFile(JoinPath(dir, name), content).Err?
    requires forall k :: 0 <= k < |files| && IsMarkdown(files[k].0) ==> LoadAgentFile(JoinPath(dir, files[k].0), files[k].1).Ok?
    ensures AgentsFrom(dir, files + [(name, content)] + rest, acc) == Err(LoadAgentFile(JoinPath(dir, name), content).msg)
    decreases |files|
  {
    var all := files + [(name, content)] + rest;
    if |files| == 0 {
      assert all[0] == (name, content);
    } else {
      assert all[0] == files[0];
      assert all[1..] == files[1..] + [(name, content)] + rest;
      var acc' := if IsMarkdown(files[0].0) then Put(acc, LoadAgentFile(JoinPath(dir, files[0].0), files[0].1).value.frontMatter.name, LoadAgentFile(JoinPath(dir, files[0].0), files[0].1).value) else acc;
      AgentsFirstFailureAborts(dir, files[1..], rest, acc', name, content);
    }
  }

  /**
   * On success every key is the name of the record stored under it, and the
   * keys stay distinct.
   */
  lemma {:induction false} AgentsKeyedByName(dir: string, files: Listing, acc: Entries<ParsedAgent>)
    requires DistinctKeys(acc) && forall j :: 0 <= j < |acc| ==> acc[j].0 == acc[j].1.frontMatter.name
    requires AgentsFrom(dir, files, acc).Ok?
    ensures var m := AgentsFrom(dir, files, acc).value;
      DistinctKeys(m) && forall j :: 0 <= j < |m| ==> m[j].0 == m[j].1.frontMatter.name
    decreases |files|
  {
    if |files| > 0 {
      if !IsMarkdown(files[0].0) {
        AgentsKeyedByName(dir, files[1..], acc);
      } else {
        var a := LoadAgentFile(JoinPath(dir, files[0].0), files[0].1).value;
        var acc' := Put(acc, a.frontMatter.name, a);
        PutDistinct(acc, a.frontMatter.name, a);
        PutEntries(acc, a.frontMatter.name, a);
        AgentsKeyedByName(dir, files[1..], acc');
      }
    }
  }

  /** What the `k`-th file of a listing loads to as an agent. */
  function AgentAt(dir: string, files: Listing, k: nat): Result<ParsedAgent>
    requires k < |files|
  {
    LoadAgentFile(JoinPath(dir, files[k].0), files[k].1)
  }

  /** The `k`-th file is a Markdown file whose agent is named `name`. */
  predicate NamesAgent(dir: string, files: Listing, k: nat, name: string)
    requires k < |files|
  {
    IsMarkdown(files[k].0) && AgentAt(dir, files, k).Ok? && AgentAt(dir, files, k).value.frontMatter.name == name
  }

  /** A name that no Markdown file gives keeps what the map held before the loop. */
  lemma {:induction false} AgentsUnnamedKept(dir: string, files: Listing, acc: Entries<ParsedAgent>, name: string)
    requires forall j :: 0 <= j < |files| ==> !NamesAgent(dir, files, j, name)
    requires AgentsFrom(dir, files, acc).Ok?
    ensures Get(AgentsFrom(dir, files, acc).value, name) == Get(acc, name)
    decreases |files|
  {
    if |files| > 0 {
      forall j | 0 <= j < |files| - 1
        ensures !NamesAgent(dir, files[1..], j, name)
      {
        assert files[1..][j] == files[j + 1];
        assert !NamesAgent(dir, files, j + 1, name);
      }
      if IsMarkdown(files[0].0) {
        var a := AgentAt(dir, files, 0).value;
        assert !NamesAgent(dir, files, 0, name);
        AgentsUnnamedKept(dir, files[1..], Put(acc, a.frontMatter.name, a), name);
      } else {
        AgentsUnnamedKept(dir, files[1..], acc, name);
      }
    }
  }

  /**
   * Each name is stored with the record of the last Markdown file that gives
   * it: a later file with the same agent name replaces the earlier record.
   */
  lemma {:induction false} AgentsLastFileWins(dir: string, files: Listing, acc: Entries<ParsedAgent>, k: nat, name: string)
    requires k < |files| && NamesAgent(dir, files, k, name)
    requires forall j :: k < j < |files| ==> !NamesAgent(dir, files, j, name)
    requires AgentsFrom(dir, files, acc).Ok?
    ensures Get(AgentsFrom(dir, files, acc).value, name) == Some(AgentAt(dir, files, k).value)
    decreases |files|
  {
    forall j | k <= j < |files| - 1
      ensures !NamesAgent(dir, files[1..], j, name) || j == k - 1
    {
      assert files[1..][j] == files[j + 1];
      assert !NamesAgent(dir, files, j + 1, name);
    }
    if k == 0 {
      var a := AgentAt(dir, files, 0).value;
      AgentsUnnamedKept(dir, files[1..], Put(acc, name, a), name);
    } else {
      assert files[1..][k - 1] == files[k];
      assert NamesAgent(dir, files[1..], k - 1, name);
      if IsMarkdown(files[0].0) {
        var a := AgentAt(dir, files, 0).value;
        AgentsLastFileWins(dir, files[1..], Put(acc, a.frontMatter.name, a), k - 1, name);
      } else {
        AgentsLastFileWins(dir, files[1..], acc, k - 1, name);
      }
    }
  }

  // ---------------------------------------------------------------- skills

  /** The skills loop, as `AgentsFrom`. */
  function SkillsFrom(dir: string, files: Listing, acc: Entries<ParsedSkill>): (r: Result<Entries<ParsedSkill>>)
    ensures r.Err? ==> StartsWith(r.msg, "Failed to parse ")
    decreases |files|
  {
    if |files| == 0 then Ok(acc)
    else if !IsMarkdown(files[0].0) then SkillsFrom(dir, files[1..], acc)
    else match LoadSkillFile(JoinPath(dir, files[0].0), files[0].1)
      case Err(m) => Err(m)
      case Ok(s) => SkillsFrom(dir, files[1..], Put(acc, s.frontMatter.name, s))
  }

  /** `loadSkills`: a missing skills directory is an empty map. */
  method LoadSkills(networkDir: string, listing: Option<Listing>) returns (r: Result<Entries<ParsedSkill>>)
    ensures listing.None? ==> r == Ok([])
    ensures listing.Some? ==> r == SkillsFrom(JoinPath(networkDir, "skills"), listing.value, [])
  {
    var skillsDir := JoinPath(networkDir, "skills");
    if listing.None? {
      return Ok([]);
    }
    var files := listing.value;
    var skills: Entries<ParsedSkill> := [];
    var i := 0;
    while i < |files|
      invariant 0 <= i <= |files|
      invariant SkillsFrom(skillsDir, files, []) == SkillsFrom(skillsDir, files[i..], skills)
    {
      assert files[i..][1..] == files[i + 1..];
      if IsMarkdown(files[i].0) {
        var loaded := LoadSkillFile(JoinPath(skillsDir, files[i].0), files[i].1);
        if loaded.Err? {
          return Err(loaded.msg);
        }
        skills := Put(skills, loaded.value.frontMatter.name, loaded.value);
      }
      i := i + 1;
    }
    return Ok(skills);
  }

  /** Files whose name does not end in `.md` are never read. */
  lemma SkillsIgnoreOtherFiles(dir: string, files: Listing, name: string, content: string, acc: Entries<ParsedSkill>)
    requires !IsMarkdown(name)
    ensures SkillsFrom(dir, [(name, content)] + files, acc) == SkillsFrom(dir, files, acc)
  {
    assert ([(name, content)] + files)[1..] == files;
  }

  /** The first Markdown file that fails to load decides the result, whatever follows it. */
  lemma {:induction false} SkillsFirstFailureAborts(dir: string, files: Listing, rest: Listing, acc: Entries<ParsedSkill>, name: string, content: string)
    requires IsMarkdown(name) && LoadSkillFile(JoinPath(dir, name), content).Err?
    requires forall k :: 0 <= k < |files| && IsMarkdown(files[k].0) ==> LoadSkillFile(JoinPath(dir, files[k].0), files[k].1).Ok?
    ensures SkillsFrom(dir, files + [(name, content)] + rest, acc) == Err(LoadSkillFile(JoinPath(dir, name), content).msg)
    decreases |files|
  {
    var all := files + [(name, content)] + rest;
    if |files| == 0 {
      assert all[0] == (name, content);
    } else {
      assert all[0] == files[0];
      assert all[1..] == files[1..] + [(name, content)] + rest;
      var acc' := if IsMarkdown(files[0].0) then Put(acc, LoadSkillFile(JoinPath(dir, files[0].0), files[0].1).value.frontMatter.name, LoadSkillFile(JoinPath(dir, files[0].0), files[0].1).value) else acc;
      SkillsFirstFailureAborts(dir, files[1..], rest, acc', name, content);
    }
  }

  /** On success every key is the name of the skill stored under it, and the keys stay distinct. */
  lemma {:induction false} SkillsKeyedByName(dir: string, files: Listing, acc: Entries<ParsedSkill>)
    requires DistinctKeys(acc) && forall j :: 0 <= j < |acc| ==> acc[j].0 == acc[j].1.frontMatter.name
    requires SkillsFrom(dir, files, acc).Ok?
    ensures var m := SkillsFrom(dir, files, acc).value;
      DistinctKeys(m) && forall j :: 0 <= j < |m| ==> m[j].0 == m[j].1.frontMatter.name
    decreases |files|
  {
    if |files| > 0 {
      if !IsMarkdown(files[0].0) {
        SkillsKeyedByName(dir, files[1..], acc);
      } else {
        var sk := LoadSkillFile(JoinPath(dir, files[0].0), files[0].1).value;
        PutDistinct(acc, sk.frontMatter.name, sk);
        PutEntries(acc, sk.frontMatter.name, sk);
        SkillsKeyedByName(dir, files[1..], Put(acc, sk.frontMatter.name, sk));
      }
    }
  }

  // ---------------------------------------------------------------- network

  /** `loadNetwork`: the manifest, then the agents, then the skills; the first error wins. */
  method LoadNetwork(dir: NetworkDir) returns (r: Result<LoadedNetwork>)
    ensures LoadManifest(dir).Err? ==> r == Err(LoadManifest(dir).msg)
    ensures r.Ok? ==> Ok(r.value.manifest) == LoadManifest(dir)
    ensures r.Ok? && dir.skills.None? ==> r.value.skills == []
    ensures r.Ok? ==> dir.agents.Some? && AgentsFrom(JoinPath(dir.path, "agents"), dir.agents.value, []) == Ok(r.value.agents)
    ensures r.Ok? && dir.skills.Some? ==> SkillsFrom(JoinPath(dir.path, "skills"), dir.skills.value, []) == Ok(r.value.skills)
    ensures LoadManifest(dir).Ok? && dir.agents.None? ==>
      r == Err(ParseErrorMessage(JoinPath(dir.path, "agents"), "Agents directory not found"))
    ensures LoadManifest(dir).Ok? && dir.agents.Some?
      && AgentsFrom(JoinPath(dir.path, "agents"), dir.agents.value, []).Err? ==>
      r == Err(AgentsFrom(JoinPath(dir.path, "agents"), dir.agents.value, []).msg)
    ensures LoadManifest(dir).Ok? && dir.agents.Some?
      && AgentsFrom(JoinPath(dir.path, "agents"), dir.agents.value, []).Ok?
      && dir.skills.Some? && SkillsFrom(JoinPath(dir.path, "skills"), dir.skills.value, []).Err? ==>
      r == Err(SkillsFrom(JoinPath(dir.path, "skills"), dir.skills.value, []).msg)
    ensures r.Ok? <==> LoadManifest(dir).Ok? && dir.agents.Some?
      && AgentsFrom(JoinPath(dir.path, "agents"), dir.agents.value, []).Ok?
      && (dir.skills.None? || SkillsFrom(JoinPath(dir.path, "skills"), dir.skills.value, []).Ok?)
  {
    var manifest := LoadManifest(dir);
    if manifest.Err? {
      return Err(manifest.msg);
    }
    var agents := LoadAgents(dir.path, dir.agents);
    if agents.Err? {
      return Err(agents.msg);
    }
    var skills := LoadSkills(dir.path, dir.skills);
    if skills.Err? {
      return Err(skills.msg);
    }
    return Ok(LoadedNetwork(manifest.value, agents.value, skills.value));
  }
}
