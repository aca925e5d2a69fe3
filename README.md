# firefly-swarm core, modelled in Dafny

This project models the core logic of firefly-swarm. firefly-swarm is the
agent network behind the OpenCode plugin oh-my-opencode-slim. The model
covers:

- **The network compiler.** It reads a network directory (`manifest.md`,
  `agents/*.md`, `skills/*.md`), each file a Markdown document with YAML
  front matter. It validates every document against its schema. It then
  links the network into a delegation graph and a skill graph, or reports
  ordered diagnostics. It detects delegation cycles, renders a Mermaid
  diagram and a text summary, and turns a compiled network into agent
  definitions for a provider.
- **The role registries.** There are two of them: the agents package and
  the older one of the plugin. Each reads role files with its own flat
  front matter parser and caches parsed roles. Each builds agent
  definitions and renders the `{{AGENTS}}` section into the prompts of
  primary agents.
- **The plugin configuration.** The schema validators carry their defaults
  and bounds. A user file and a project file are deep-merged. A preset is
  chosen by the environment or the configuration and is merged under the
  root agent overrides.
- **The background tools.** A task manager keeps a map of tasks. It moves
  tasks between states by cancelling and by polling. The tools format
  their answers. A synchronous run's poll settles on four quiet rounds.
  The generic `pollUntilStable` settles on a run of stable fetches.
- **The multiplexer.** The provider is chosen from the configuration and
  the environment. A session manager spawns a pane for each child session
  and closes it when the session goes idle, goes missing for too long, or
  times out.
- **The installer.** It parses the command line and dispatches on it. It
  generates the lite configuration with one preset per provider. It
  derives the configuration paths.
- **The hooks' JSONC reader** (`stripJsonComments`).
- **The MCP filter.**

## How it is built

There is one Dafny module per source file. Each keeps the form of its
source:

- Code that mutates state is a class or a method with loop invariants:
  - the YAML parser's scope stack;
  - the cycle search;
  - the role cache;
  - `BackgroundTaskManager`;
  - the multiplexer manager;
  - the argument loop and the preset loops;
  - the merge loop;
  - the poll loops.
- Each such method is proved equal to a specification function of its
  inputs or its old state.
- In the YAML parser, the four `pendingArray*` variables are set together
  when a bare key opens and cleared together by the flush. They are one
  `pending` field that is either empty or holds the key, the items, the
  indent and the parent; an item line appends to its items.
- Lemmas state what the source promises about those functions.
- Pure code is made of functions and lemmas.

Four modules are shared helpers and model no source file:

- `Wrappers`: `Option` and `Result`.
- `Text`: strings, with JavaScript's `trim`, `split`, `join`, `startsWith` and `replaceAll`.
- `Decimals`: exact decimal numerals.
- `Assoc`: insertion-ordered maps as association lists.

`JsonValues` holds parsed JSON values. It includes `undefined` as a value
of its own, because an object can hold a key whose value is `undefined`.

Everything outside the program is an input value:

- file contents and directory listings;
- file existence;
- environment variables;
- clock readings;
- abort-signal readings;
- the answers of the session API and of the multiplexer provider.

## Source behaviour worth knowing

- A skill of type `mcp` without an `mcp` block passes the skill schema.
  The schema only documents the rule: `mcp` is `.optional()`, with the note
  "required if type is 'mcp'" in its `.describe(...)`
  (packages/network-compiler/src/schema.ts:39). Only the compiler reports
  the missing block, as a schema error among the link diagnostics.
- An agent's `variant` stays absent when the field is absent. The enum
  declares `.default("low")` (packages/network-compiler/src/schema.ts:59),
  but the agent schema wraps it in `.optional()` (schema.ts:88), and an
  optional wrapper returns `undefined` without reaching the inner default.
  The agent builder (packages/network-compiler/src/agents.ts:60) then picks
  the `low` model whenever the variant is absent.
- `replaceAll` with a string pattern still expands `$` patterns in the
  replacement: `$$`, `$&`, `` $` `` and `$'`. A template value or a
  delegates blurb containing them is not inserted as written
  (src/agents/template.ts:22, packages/network-compiler/src/agents.ts:56).
- `BackgroundTaskManager.launch` stores the task and starts polling before it
  sends the prompt (packages/tool-background/src/manager.ts:100-127). A
  prompt request that throws rejects the launch, but the task stays stored
  as running.
- A schema failure while loading an agent file is wrapped in a second
  `ParseError` (packages/network-compiler/src/loader.ts, the `throw` inside
  the `try` and the `catch` around it). The message therefore names the
  file twice.
- In `BackgroundTaskManager`, `cancel("")` cancels every running task, because
  the empty id is falsy.
- In `BackgroundTaskManager`, a failure thrown by the session API while polling a task
  marks it failed, whatever status it had.
- In the multiplexer manager, a close that throws during `pollSessions`
  leaves the remaining sessions open until the next poll.
- In the multiplexer manager, a `missingSince` of 0 counts as "not
  missing", because it is falsy.
- The multiplexer factory reads `config.provider`, which its declared
  configuration type does not name.
- `generateLiteConfig` reads `agent.frontMatter.models`
  (packages/installer/src/providers.ts:55-56), but the agent schema
  declares no `models` field (packages/network-compiler/src/schema.ts:66-96)
  and drops unknown keys. `models` is therefore `undefined`, and
  `models.find` throws a TypeError for any network with an agent. The model
  carries `models` as an optional list and proves the throw
  (`InstallerPresets.LoadedNetworkThrows`).
- packages/installer/src/providers.ts:2 imports `getNetwork` from
  `@firefly-swarm/default-network`, whose index exports no such function
  (packages/default-network/index.ts:19-36). `getNetwork` is defined in
  packages/pantheon/index.ts:34.
- `generateLiteConfig` reads `multiplexerProvider`, which `InstallConfig`
  does not declare. The model carries it as an optional field.
- The installer takes a flag's value as `split("=")[1]`, so text after a
  second `=` is dropped (`--zai=a=b` sets `a`).
- `getLiteConfig` calls `replace` on the package name. When a manifest
  gives a truthy `name` that is not a string, this call throws.
- `packages/agents/src/index.ts` imports `SUBAGENT_NAMES` from a registry
  that does not export it. The model uses the shared list in
  packages/shared/src/agents.ts.
- `packages/agents/src/template.ts` is not part of this model. The agents
  package's `renderTemplate` and `{{AGENTS}}` section are modelled from
  src/agents/template.ts; see "## Left out".
- `ConfigPaths.ConfigDir` also models `getConfigDir` and
  `getOpenCodeConfigPaths` of packages/hooks/src/utils/config-io.ts:4-18.
  Those are the same rule as the installer's.

## Model

| member | source | states |
|---|---|---|
| FrontMatter.FindClosing | packages/network-compiler/src/loader.ts:42 | the lazy `([\s\S]*?)` stops at the first closing `---` line after the opening one: the found delimiter is one, no earlier position is, and none means there is no closing line at all |
| FrontMatter.Split | packages/network-compiler/src/loader.ts:42-49 | the pattern matches only text that opens with a `---` line (LF or CRLF) |
| FrontMatter.SplitRoundTrip | packages/network-compiler/src/loader.ts:42-49 | a YAML block without a `---` line of its own, wrapped in delimiters and followed by any body, splits back into exactly that YAML block and body |
| FrontMatter.FindFirst | packages/network-compiler/src/loader.ts:42 | the first delimiter at or after a position is the one the lazy match takes |
| FrontMatter.NoDelimiterInside | packages/network-compiler/src/loader.ts:42 | no closing delimiter starts inside a YAML block that has no `---` line |
| FrontMatter.NoDashesAfterBreak | packages/network-compiler/src/loader.ts:42 | inside such a block no line starts with `---` |
| NetworkYaml.ScalarRoundTrip | packages/network-compiler/src/loader.ts:178-195 | every boolean, normal decimal number and string, written as YAML, is read back by `parseScalar` as itself |
| NetworkYaml.RenderedEnds | packages/network-compiler/src/loader.ts:184-186 | a rendered number is non-empty, has no surrounding white space and is not a boolean word |
| NetworkYaml.QuotedNotNumeral | packages/network-compiler/src/loader.ts:184-186 | a value that starts with a quote is never a number |
| NetworkYaml.VersionStaysString | packages/network-compiler/src/loader.ts:184-194 | `1.0.0` is not a number and stays the string `1.0.0` |
| NetworkYaml.KeyLength | packages/network-compiler/src/loader.ts:114 | the key is the longest prefix of `[\w-]` characters |
| NetworkYaml.KeyPrefix | packages/network-compiler/src/loader.ts:135 | a matched key is non-empty and the line is key, colon, rest |
| NetworkYaml.InlineItems | packages/network-compiler/src/loader.ts:120-124 | the inline list has at most one item per comma-separated piece |
| NetworkYaml.InitialState | packages/network-compiler/src/loader.ts:66-73 | the parser starts well-formed: the root object on the stack and nothing pending |
| NetworkYaml.SetField | packages/network-compiler/src/loader.ts:130 | storing a field changes only that key of that object and keeps every reference pointing to a later object |
| NetworkYaml.Flush | packages/network-compiler/src/loader.ts:75-92 | `flushPendingArray` keeps the state well-formed, clears the pending key and leaves the stack alone |
| NetworkYaml.PopScopes | packages/network-compiler/src/loader.ts:127-129 | popping keeps a prefix of the stack with the root, stops at the first scope indented less than the line, and pops only scopes indented at least as much |
| NetworkYaml.Step | packages/network-compiler/src/loader.ts:94-167 | one loop pass keeps the parser state well-formed |
| NetworkYaml.KindStep | packages/network-compiler/src/loader.ts:100-166 | the pass on a classified line keeps the state well-formed |
| NetworkYaml.ItemStep | packages/network-compiler/src/loader.ts:105-111 | a `- item` line keeps the state well-formed |
| NetworkYaml.InlineArrayStep | packages/network-compiler/src/loader.ts:114-131 | a `key: [a, b]` line keeps the state well-formed |
| NetworkYaml.FlushDeeper | packages/network-compiler/src/loader.ts:138-140 | the conditional flush keeps the state well-formed |
| NetworkYaml.KeyOpenStep | packages/network-compiler/src/loader.ts:151-161 | a bare `key:` line keeps the state well-formed |
| NetworkYaml.KeyScalarStep | packages/network-compiler/src/loader.ts:162-165 | a `key: value` line keeps the state well-formed |
| NetworkYaml.OpenObject | packages/network-compiler/src/loader.ts:153-161 | opening a nested object keeps the state well-formed |
| NetworkYaml.Run | packages/network-compiler/src/loader.ts:94-167 | the loop over any lines ends in a well-formed state |
| NetworkYaml.RunPrefix | packages/network-compiler/src/loader.ts:94 | the loop handles the lines one at a time, in order |
| NetworkYaml.SkipLines | packages/network-compiler/src/loader.ts:96-98 | blank lines and `#` lines change nothing |
| NetworkYaml.ScopeOf | packages/network-compiler/src/loader.ts:145-149 | a line's scope is an open scope, the root or one indented strictly less than the line |
| NetworkYaml.KeyScalarAttaches | packages/network-compiler/src/loader.ts:138-165 | a `key: value` line stores the parsed scalar under that key on its scope's object, and changes no other key and no other object |
| NetworkYaml.ItemCollected | packages/network-compiler/src/loader.ts:105-111 | an item deeper than the pending key is appended to its items; any other item line is dropped with no change |
| NetworkYaml.FlushWithItems | packages/network-compiler/src/loader.ts:78-79 | a flushed pending key with items becomes the list of those items on its parent |
| NetworkYaml.BareKeyBecomesEmptyList | packages/network-compiler/src/loader.ts:81-161 | a bare `key:` flushed before anything is stored under it ends as an empty list |
| NetworkYaml.NestedKeyKeepsObject | packages/network-compiler/src/loader.ts:81-165 | a `key:` whose object received a nested key stays that object, holding the nested value |
| NetworkYaml.InlineArrayUnderOpenKey | packages/network-compiler/src/loader.ts:81-131 | an inline list right under an open `key:` flushes the key to an empty list first, and the list goes into the detached object still on the stack |
| NetworkYaml.YamlParser.constructor | packages/network-compiler/src/loader.ts:66-73 | the parser's fields start as the initial state |
| NetworkYaml.YamlParser.FlushPendingArray | packages/network-compiler/src/loader.ts:75-92 | updates the fields exactly as `Flush` does |
| NetworkYaml.YamlParser.PopTo | packages/network-compiler/src/loader.ts:127-147 | pops the stack as `PopScopes` does and touches nothing else |
| NetworkYaml.YamlParser.Feed | packages/network-compiler/src/loader.ts:94-167 | one pass of the loop body updates the fields exactly as `Step` does |
| NetworkYaml.YamlParser.FeedKind | packages/network-compiler/src/loader.ts:100-166 | the loop body on a classified line, as `KindStep` |
| NetworkYaml.YamlParser.FeedItem | packages/network-compiler/src/loader.ts:105-111 | an item line, as `ItemStep` |
| NetworkYaml.YamlParser.FeedInlineArray | packages/network-compiler/src/loader.ts:114-131 | an inline list line, as `InlineArrayStep` |
| NetworkYaml.YamlParser.FeedKeyOpen | packages/network-compiler/src/loader.ts:138-161 | a bare key line, as `KeyOpenStep` |
| NetworkYaml.YamlParser.FeedKeyScalar | packages/network-compiler/src/loader.ts:138-165 | a key and value line, as `KeyScalarStep` |
| NetworkYaml.YamlParser.FlushIfNotDeeper | packages/network-compiler/src/loader.ts:138-140 | flushes only when the line is not deeper than the pending key, as `FlushDeeper` |
| NetworkYaml.YamlParser.SetSlot | packages/network-compiler/src/loader.ts:130 | stores a scalar or list on the top scope's object |
| NetworkYaml.YamlParser.AddObject | packages/network-compiler/src/loader.ts:153-161 | creates the new object, pushes its scope and makes the key pending, as `OpenObject` |
| NetworkYaml.ParseYaml | packages/network-compiler/src/loader.ts:62-173 | returns the object that running the loop over the lines and flushing gives, and it is always an object |
| NetworkSchema.RequiredString | packages/network-compiler/src/schema.ts:131-132 | a required string field is accepted only when present as a string, and its value is that string |
| NetworkSchema.OptionalString | packages/network-compiler/src/schema.ts:19-20 | an absent optional string is undefined; a present one is returned as is |
| NetworkSchema.Strings | packages/network-compiler/src/schema.ts:21 | `z.array(z.string())` accepts a list exactly when every item is a string, and keeps the items in order |
| NetworkSchema.StrItems | packages/network-compiler/src/schema.ts:78-96 | the YAML list of some strings has one string item per string, in order |
| NetworkSchema.StringList | packages/network-compiler/src/schema.ts:78-96 | an absent string list is the empty list; a present one is accepted exactly when it is a list of strings, and is then that list; a failure names the field |
| NetworkSchema.Temperature | packages/network-compiler/src/schema.ts:90 | an accepted temperature lies in [0, 2]; an absent one defaults to 0.1; a present one is the number given |
| NetworkSchema.ValidateMcp | packages/network-compiler/src/schema.ts:17-26 | an accepted MCP block has a non-empty command or a non-empty package, and absent args default to the empty list |
| NetworkSchema.SkillKind | packages/network-compiler/src/schema.ts:38 | the type is mcp exactly for the string "mcp", and builtin exactly for "builtin" or an absent field |
| NetworkSchema.OptionalMcp | packages/network-compiler/src/schema.ts:39 | an absent MCP block stays absent; a present one is accepted exactly when it passes the MCP schema, and is then that validated block |
| NetworkSchema.ValidateSkill | packages/network-compiler/src/schema.ts:32-40 | a skill is accepted exactly when it is an object with a string name matching `^[a-z0-9-]+$`, a string description, a valid type and a valid or absent MCP block; the accepted name and description are the input's, the type and MCP block their validated values |
| NetworkSchema.McpSkillWithoutBlockAccepted | packages/network-compiler/src/schema.ts:38-39 | a skill of type mcp without an MCP block is accepted: the schema does not enforce the "required if type is mcp" note |
| NetworkSchema.Primary | packages/network-compiler/src/schema.ts:73 | `primary` defaults to false and is true only when the field is the boolean true |
| NetworkSchema.OptionalVariant | packages/network-compiler/src/schema.ts:59-88 | an absent variant stays absent: the optional wrapper never applies the enum's default |
| NetworkSchema.AgentIdentity | packages/network-compiler/src/schema.ts:69-75 | an accepted agent name matches `^[a-z0-9-]+$`; name, role and description are the input's strings, and `primary` its validated flag |
| NetworkSchema.AgentLists | packages/network-compiler/src/schema.ts:78-96 | the six lists are accepted exactly when each is, and each is what its own list validation gives |
| NetworkSchema.ValidateAgent | packages/network-compiler/src/schema.ts:67-98 | an accepted agent has a valid name, role, description and default model taken from the input, each list, the variant and the temperature as validated from the input, and the declared defaults for every absent optional field (false, `[]`, no variant, 0.1, no note) |
| NetworkSchema.InvalidAgentNameRejected | packages/network-compiler/src/schema.ts:69-72 | a string name outside `^[a-z0-9-]+$` rejects the agent |
| NetworkSchema.TemperatureOutOfRangeRejected | packages/network-compiler/src/schema.ts:90 | a numeric temperature outside [0, 2] rejects the agent |
| NetworkSchema.ValidatePreset | packages/network-compiler/src/schema.ts:118-122 | an accepted preset's high, medium and low models are the input's string fields |
| NetworkSchema.ValidatePresets | packages/network-compiler/src/schema.ts:136-138 | the validated provider record keeps exactly the input's provider keys, in order |
| NetworkSchema.PresetsAccepted | packages/network-compiler/src/schema.ts:136-138 | the provider record is accepted exactly when every entry is a preset, and each entry then holds that entry's validated preset under its key |
| NetworkSchema.DefaultsTemperature | packages/network-compiler/src/schema.ts:133-135 | the manifest temperature lies in [0, 2] and defaults to 0.1 when `defaults` is absent |
| NetworkSchema.ValidateManifest | packages/network-compiler/src/schema.ts:130-139 | an accepted manifest has the input's name and version, the validated `defaults` temperature (in [0, 2], 0.1 when absent), and the validated provider record of the input's `providers` object |
| NetworkLoader.ParseErrorMessage | packages/network-compiler/src/loader.ts:26-35 | every `ParseError` message starts with "Failed to parse " |
| NetworkLoader.ParseFrontMatter | packages/network-compiler/src/loader.ts:41-56 | fails, with "Missing front matter delimiters (---)", exactly when the delimiter pattern does not match; otherwise gives an object and the trimmed body |
| NetworkLoader.ParseFrontMatterOfDocument | packages/network-compiler/src/loader.ts:41-56 | a document built from a YAML block and a body parses to that block's value and the trimmed body |
| NetworkLoader.LoadManifest | packages/network-compiler/src/loader.ts:200-223 | a missing manifest raises "Manifest file not found" on its path; every failure is a `ParseError`; success is the validated front matter with the body |
| NetworkLoader.LoadAgentFile | packages/network-compiler/src/loader.ts:239-261 | an agent file is accepted exactly when its front matter splits and passes the agent schema, and is then the validated front matter with the trimmed body; a missing delimiter is one `ParseError`, a schema failure a `ParseError` wrapped in a second one for the same path |
| NetworkLoader.LoadSkillFile | packages/network-compiler/src/loader.ts:282-298 | a skill file is accepted exactly when its front matter splits and passes the skill schema, and is then the validated front matter with the trimmed body; a schema failure is "Schema validation failed" on its path |
| NetworkLoader.AgentsFrom | packages/network-compiler/src/loader.ts:236-262 | the loop over the listing fails only with a `ParseError` |
| NetworkLoader.LoadAgents | packages/network-compiler/src/loader.ts:228-265 | a missing agents directory raises "Agents directory not found"; otherwise the loop over the listing decides the result |
| NetworkLoader.AgentsIgnoreOtherFiles | packages/network-compiler/src/loader.ts:236 | files not ending in `.md` are skipped |
| NetworkLoader.AgentsFirstFailureAborts | packages/network-compiler/src/loader.ts:238-261 | the first failing `.md` file aborts the load with its own error |
| NetworkLoader.AgentsKeyedByName | packages/network-compiler/src/loader.ts:252-255 | every loaded agent is keyed by its front-matter name, each key once |
| NetworkLoader.AgentsUnnamedKept | packages/network-compiler/src/loader.ts:236-262 | a name that no `.md` file gives keeps what the map held before |
| NetworkLoader.AgentsLastFileWins | packages/network-compiler/src/loader.ts:236-262 | each name maps to the record of the last `.md` file that gives it |
| NetworkLoader.SkillsFrom | packages/network-compiler/src/loader.ts:279-299 | the loop over the skills listing fails only with a `ParseError` |
| NetworkLoader.SkillsIgnoreOtherFiles | packages/network-compiler/src/loader.ts:279 | files not ending in `.md` are skipped |
| NetworkLoader.SkillsFirstFailureAborts | packages/network-compiler/src/loader.ts:281-298 | the first failing `.md` file aborts the load with its own error |
| NetworkLoader.SkillsKeyedByName | packages/network-compiler/src/loader.ts:289-292 | every loaded skill is keyed by its front-matter name, each key once |
| NetworkLoader.LoadSkills | packages/network-compiler/src/loader.ts:270-302 | a missing skills directory gives the empty map; otherwise the loop decides the result |
| NetworkLoader.LoadNetwork | packages/network-compiler/src/loader.ts:308-318 | the manifest, then the agents, then the skills: the first of them to fail gives the error (a missing agents directory included), the network loads exactly when all three do, and the parts are then the three loaders' results, with no skills when the directory is missing |
| NetworkCompiler.DelegateErrors | packages/network-compiler/src/compiler.ts:41-50 | every error for an agent's delegates is a missing-agent error from that agent naming one of its delegates that is not an agent |
| NetworkCompiler.SkillRefErrors | packages/network-compiler/src/compiler.ts:53-65 | every error for an agent's skills is a missing-skill error from that agent naming one of its skills, never `*`, that is not a skill |
| NetworkCompiler.ReferenceErrors | packages/network-compiler/src/compiler.ts:39-66 | reference errors are missing-agent or missing-skill errors whose source is an agent |
| NetworkCompiler.McpErrors | packages/network-compiler/src/compiler.ts:69-77 | MCP errors are schema errors without a target whose source is a skill |
| NetworkCompiler.DelegationGraph | packages/network-compiler/src/compiler.ts:88-89 | the delegation graph has one entry per agent, in order, holding its delegates |
| NetworkCompiler.SkillGraph | packages/network-compiler/src/compiler.ts:91-95 | the skill graph has one entry per agent, in order, holding its skills with `*` expanded to every skill |
| NetworkCompiler.CompileNetwork | packages/network-compiler/src/compiler.ts:27-108 | fails exactly when there are errors, returning all of them in order; otherwise returns the inputs unchanged with the two graphs |
| NetworkCompiler.CollectReferenceErrors | packages/network-compiler/src/compiler.ts:39-66 | the agent loop collects exactly the reference errors of every agent, in map order |
| NetworkCompiler.AppendMcpErrors | packages/network-compiler/src/compiler.ts:69-77 | the skill loop appends exactly one error per `mcp` skill without configuration, in map order |
| NetworkCompiler.AppendDelegateErrors | packages/network-compiler/src/compiler.ts:41-50 | the inner delegate loop appends exactly that agent's delegate errors |
| NetworkCompiler.AppendSkillRefErrors | packages/network-compiler/src/compiler.ts:53-65 | the inner skill loop appends exactly that agent's skill errors |
| NetworkCompiler.BuildGraphs | packages/network-compiler/src/compiler.ts:85-96 | the graph loop builds exactly the two graphs |
| NetworkCompiler.MissingDelegateReported | packages/network-compiler/src/compiler.ts:39-50 | every delegate that names no agent is reported, with its agent as source |
| NetworkCompiler.DelegateReported | packages/network-compiler/src/compiler.ts:41-49 | a missing delegate appears among its agent's errors |
| NetworkCompiler.MissingSkillReported | packages/network-compiler/src/compiler.ts:39-65 | every skill reference other than `*` that names no skill is reported |
| NetworkCompiler.SkillRefReported | packages/network-compiler/src/compiler.ts:53-64 | a missing skill appears among its agent's errors |
| NetworkCompiler.McpSkillReported | packages/network-compiler/src/compiler.ts:69-77 | every `mcp` skill without a configuration is reported |
| NetworkCompiler.ErrorsAreJustified | packages/network-compiler/src/compiler.ts:32-82 | every reported error is justified: its target is really missing, or its skill really lacks a configuration; no cycle error is produced here |
| NetworkCompiler.ReferenceErrorsTargets | packages/network-compiler/src/compiler.ts:39-66 | reference error targets are really missing |
| NetworkCompiler.SuccessGraphsResolve | packages/network-compiler/src/compiler.ts:80-107 | on success both graphs are keyed by the agents, every delegation edge ends at an agent, and every skill edge at a skill |
| NetworkGraphs.Neighbors | packages/network-compiler/src/compiler.ts:124 | a node has neighbours only if it is a key of the graph (`get(node) ?? []`) |
| NetworkGraphs.NodesOf | packages/network-compiler/src/compiler.ts:124-127 | every key and every neighbour is a node the search can reach |
| NetworkGraphs.NeighborsInNodes | packages/network-compiler/src/compiler.ts:124-127 | neighbours are nodes |
| NetworkGraphs.IndexOf | packages/network-compiler/src/compiler.ts:130 | `path.indexOf(neighbor)`: the first position of the neighbour on the path |
| NetworkGraphs.BackEdgeCycle | packages/network-compiler/src/compiler.ts:128-131 | an edge back to a node on the current path closes a real cycle: the path from that node plus the node again |
| NetworkGraphs.FewerUnvisited | packages/network-compiler/src/compiler.ts:120 | visiting a node shrinks the set of unvisited nodes, so the search ends |
| NetworkGraphs.PrefixStaysInside | packages/network-compiler/src/compiler.ts:125-133 | neighbours already handled stay handled |
| NetworkGraphs.FinishNode | packages/network-compiler/src/compiler.ts:135 | finishing a node whose neighbours are all finished keeps every edge going to an earlier-finished node |
| NetworkGraphs.FinishDecreases | packages/network-compiler/src/compiler.ts:119-136 | along a walk, finish times strictly decrease |
| NetworkGraphs.Acyclic | packages/network-compiler/src/compiler.ts:138-144 | when every key is finished and every edge goes to an earlier-finished node, the graph has no cycle |
| NetworkGraphs.CycleSearch.constructor | packages/network-compiler/src/compiler.ts:115-117 | the search starts with nothing visited, nothing on the stack and no cycles |
| NetworkGraphs.CycleSearch.Dfs | packages/network-compiler/src/compiler.ts:119-136 | `dfs` visits the node, restores the recursion stack, only adds cycles, and finishes the node |
| NetworkGraphs.CycleSearch.Explore | packages/network-compiler/src/compiler.ts:125-133 | one neighbour: recurse if unvisited, record a cycle if on the stack; once a cycle is found some stay reported |
| NetworkGraphs.DetectCycles | packages/network-compiler/src/compiler.ts:114-145 | every reported cycle is a real cycle of the graph, and none is reported exactly when the graph is acyclic |
| NetworkRender.AgentNodeLines | packages/network-compiler/src/compiler.ts:154-163 | one node line per agent, in order, double-bracketed for a primary agent and labelled by its role or else its id |
| NetworkRender.SkillNodeLines | packages/network-compiler/src/compiler.ts:168-170 | one rounded node line per skill, in order |
| NetworkRender.AgentClassLines | packages/network-compiler/src/compiler.ts:199-205 | one class line per agent, in order: `primary` or `subagent` |
| NetworkRender.SkillClassLines | packages/network-compiler/src/compiler.ts:207-209 | one `class skill_<id> skill` line per skill, in order |
| NetworkRender.GenerateMermaidDiagram | packages/network-compiler/src/compiler.ts:150-212 | the method's lines, joined by newlines, are the diagram |
| NetworkRender.NodeLinesOfAgents | packages/network-compiler/src/compiler.ts:154-163 | the agent node loop produces the agent node lines |
| NetworkRender.NodeLinesOfSkills | packages/network-compiler/src/compiler.ts:168-170 | the skill node loop produces the skill node lines |
| NetworkRender.EdgeLinesOf | packages/network-compiler/src/compiler.ts:175-188 | the nested edge loops produce one edge line per (key, target) pair, in order |
| NetworkRender.ClassLinesOfAgents | packages/network-compiler/src/compiler.ts:199-205 | the agent class loop produces the agent class lines |
| NetworkRender.ClassLinesOfSkills | packages/network-compiler/src/compiler.ts:207-209 | the skill class loop produces the skill class lines |
| NetworkRender.JoinLines | packages/network-compiler/src/compiler.ts:211 | `lines.join("\n")` |
| NetworkRender.TargetLinesExact | packages/network-compiler/src/compiler.ts:176-178 | one edge line per target, in order |
| NetworkRender.EdgeLinesCount | packages/network-compiler/src/compiler.ts:175-179 | there are as many edge lines as edges |
| NetworkRender.EdgeLinePresent | packages/network-compiler/src/compiler.ts:175-179 | every edge has its line |
| NetworkRender.EdgeLineJustified | packages/network-compiler/src/compiler.ts:175-179 | every edge line comes from an edge |
| NetworkRender.JoinStartsWithFirst | packages/network-compiler/src/compiler.ts:211 | the joined text starts with the first line |
| NetworkRender.DiagramShape | packages/network-compiler/src/compiler.ts:150-212 | the diagram starts with `graph TD` and holds a node line and a class line for every agent and a node line for every skill |
| NetworkRender.DiagramEdges | packages/network-compiler/src/compiler.ts:174-188 | every delegation edge and every skill edge has its line in the diagram |
| NetworkRender.SkillSummaryLines | packages/network-compiler/src/compiler.ts:243-246 | one summary line per skill, in order, marked `[MCP]` or `[builtin]` |
| NetworkRender.GenerateNetworkSummary | packages/network-compiler/src/compiler.ts:217-249 | the method's lines, joined by newlines, are the summary |
| NetworkRender.SummaryCounts | packages/network-compiler/src/compiler.ts:221-222 | the second and third lines state the number of agents and of skills, and the digits read back as those numbers |
| NetworkRender.AppendAgentBlocks | packages/network-compiler/src/compiler.ts:226-239 | the agent loop appends every agent's block, in map order, after the lines already there |
| NetworkRender.BuildAgentBlock | packages/network-compiler/src/compiler.ts:227-238 | one iteration pushes the agent's header and its optional delegates and skills lines, which the block lemma below characterises |
| NetworkRender.AppendSkillLines | packages/network-compiler/src/compiler.ts:243-246 | the skill loop appends one `[MCP]` or `[builtin]` line per skill, in map order |
| NetworkRender.AgentBlockLines | packages/network-compiler/src/compiler.ts:226-239 | an agent's block is its header line plus a delegates line exactly when it has delegates and a skills line exactly when it has skills |
| NetworkAgents.Quoted | packages/network-compiler/src/agents.ts:101 | each trigger wrapped in double quotes, in order |
| NetworkAgents.HintLines | packages/network-compiler/src/agents.ts:110 | each hint becomes `  * hint`, in order |
| NetworkAgents.Blocks | packages/network-compiler/src/agents.ts:94-113 | one block per resolved delegate, in order |
| NetworkAgents.Definitions | packages/network-compiler/src/agents.ts:49-80 | one definition per agent, in order |
| NetworkAgents.CreateAgentsFromNetwork | packages/network-compiler/src/agents.ts:32-83 | the loop builds exactly the definitions the specification function gives |
| NetworkAgents.NoDefinitionsIff | packages/network-compiler/src/agents.ts:36-45 | the result is null exactly when compilation failed or the provider has no preset |
| NetworkAgents.DefinitionFields | packages/network-compiler/src/agents.ts:47-82 | each definition carries the agent's name and description, the preset model for its variant (low when unset), its temperature, its prompt, and primary or subagent mode with the question permission for primaries |
| NetworkAgents.PromptWithoutTag | packages/network-compiler/src/agents.ts:51-57 | a prompt without the blurb tag is used unchanged |
| NetworkAgents.PromptReplacesEveryTag | packages/network-compiler/src/agents.ts:53-57 | a blurb without `$` takes the place of every `{{DELEGATES_BLURB}}` in the body, and a body without the tag is unchanged |
| NetworkAgents.PromptIsBlurb | packages/network-compiler/src/agents.ts:53-57 | a prompt that is only the tag becomes the delegates blurb with its `$` patterns expanded, and exactly the blurb when it has no `$` |
| NetworkAgents.ResolvedDelegates | packages/network-compiler/src/agents.ts:89-93 | unknown delegate ids are dropped; every kept agent is one of the delegates; none is dropped exactly when every id names an agent |
| NetworkAgents.BlockShape | packages/network-compiler/src/agents.ts:95-112 | a block starts with `@name`, puts `- About:` second when there is a note and `- Role:` otherwise, and ends with one line per hint |
| RoleFrontMatter.RoleScalar | packages/agents/src/frontmatter.ts:107-120 | a scalar is a number when it reads as one and otherwise a string with one pair of matching quotes removed; it is never a list |
| RoleFrontMatter.NoBooleans | packages/agents/src/frontmatter.ts:107-120 | `true` and `false` stay strings |
| RoleFrontMatter.WordLength | packages/agents/src/frontmatter.ts:75 | the length of the longest prefix of word characters (`\w+`) |
| RoleFrontMatter.ItemCapture | packages/agents/src/frontmatter.ts:68 | an indented `- item` line captures a non-empty item without line terminators |
| RoleFrontMatter.KeyValue | packages/agents/src/frontmatter.ts:75 | a key line splits at the colon after a non-empty word key |
| RoleFrontMatter.RoleRunPrefix | packages/agents/src/frontmatter.ts:61-94 | the line loop advances one classified line at a time |
| RoleFrontMatter.ParseRoleYaml | packages/agents/src/frontmatter.ts:54-102 | the parsing loop computes the specification function of the front matter |
| RoleFrontMatter.SaveOpenList | packages/agents/src/frontmatter.ts:96-99 | an open list is stored under its key at the end |
| RoleFrontMatter.FeedRoleLine | packages/agents/src/frontmatter.ts:62-93 | one loop iteration performs one step of the line parser |
| RoleFrontMatter.IndentedLinesSetNoKey | packages/agents/src/frontmatter.ts:68-93 | an indented or dash line never stores a value or changes the current key |
| RoleFrontMatter.CommentsSkipped | packages/agents/src/frontmatter.ts:63-65 | blank and comment lines leave the parser state unchanged |
| RoleFrontMatter.OpenKeyStoresPrevious | packages/agents/src/frontmatter.ts:76-87 | a `key:` line stores any open list and opens an empty list under the new key |
| RoleFrontMatter.WordPrefix | packages/agents/src/frontmatter.ts:75 | a word key followed by a non-word character is matched exactly |
| RoleFrontMatter.ItemLineClassified | packages/agents/src/frontmatter.ts:68 | `  - text` is read as a list item carrying `text` |
| RoleFrontMatter.ItemAppends | packages/agents/src/frontmatter.ts:69-71 | an item line while a list is open appends its item |
| RoleFrontMatter.ItemsAppended | packages/agents/src/frontmatter.ts:69-71 | a run of item lines appends its items in order |
| RoleFrontMatter.ListCollected | packages/agents/src/frontmatter.ts:75-99 | a `key:` line followed by item lines stores exactly those items under the key |
| RoleFrontMatter.ItemLines | packages/agents/src/frontmatter.ts:68 | one `  - item` line per item, in order |
| RoleFrontMatter.FirstMissing | packages/agents/src/frontmatter.ts:128-132 | the first required field absent from the data, and none exactly when every field is present |
| RoleFrontMatter.AsStringArray | packages/agents/src/frontmatter.ts:151-155 | a list value gives its items and anything else gives the empty list |
| RoleFrontMatter.ValidateRole | packages/agents/src/frontmatter.ts:125-146 | validation fails exactly when a required field is missing, with the message naming the first one |
| RoleFrontMatter.FirstMissingAt | packages/agents/src/frontmatter.ts:128-132 | the field reported is the first missing one in the required order |
| RoleFrontMatter.MissingFieldIsFirst | packages/agents/src/frontmatter.ts:126-132 | the error names the first missing required field |
| RoleFrontMatter.ValidatedFields | packages/agents/src/frontmatter.ts:134-145 | `primary` is set exactly by the string `true`, capabilities are the list value or empty, and a string name is kept |
| RoleFrontMatter.ParseRoleFile | packages/agents/src/frontmatter.ts:33-48 | a file without front matter delimiters is rejected with the delimiter error |
| RoleFrontMatter.RoleFileBody | packages/agents/src/frontmatter.ts:33-48 | a well-delimited file gives the validated front matter and the trimmed body |
| RoleFrontMatter.NoOpeningRejected | packages/agents/src/frontmatter.ts:34-39 | a file that does not open with `---` and a line break is rejected |
| AgentNames.Remove | packages/shared/src/agents.ts:44-46 | filtering keeps exactly the names other than the dropped one |
| AgentNames.RemoveAbsent | packages/shared/src/agents.ts:44-46 | filtering out an absent name changes nothing |
| AgentNames.RemoveHead | packages/shared/src/agents.ts:44-46 | filtering out a unique first name leaves the rest in order |
| AgentNames.RemoveFront | packages/shared/src/agents.ts:44-46 | filtering out a leading name that does not recur leaves the rest |
| AgentNames.AgentNamesShape | packages/shared/src/agents.ts:18-29 | ten distinct names with the orchestrator first |
| AgentNames.SubagentNamesInOrder | packages/shared/src/agents.ts:44-46 | the subagents are all the other names, in order, and exclude the orchestrator |
| AgentNames.SubagentNameIff | packages/shared/src/agents.ts:58-60 | a name is a subagent name exactly when it is in the subagent list |
| RoleTemplates.RenderNoVariables | src/agents/template.ts:17-25 | rendering with no variables returns the template unchanged |
| RoleTemplates.RenderAbsent | src/agents/template.ts:17-25 | a template that contains none of the placeholders is returned unchanged |
| RoleTemplates.RenderPlaceholderOnly | src/agents/template.ts:17-25 | a template that is exactly `{{KEY}}` renders to the value with its `$` patterns expanded (the match is the placeholder, nothing around it), and to the value itself when it has no `$` |
| RoleTemplates.RenderReplacesEvery | src/agents/template.ts:17-25 | each variable whose value has no `$` replaces every occurrence of its placeholder in the text rendered so far, whatever surrounds them |
| RoleTemplates.RenderKeepsPlaceholderForMatchPattern | src/agents/template.ts:22 | the value `$&` puts the placeholder back instead of replacing it |
| RoleTemplates.FormatLines | src/agents/template.ts:30-39 | six fixed lines plus one line per delegation hint |
| RoleTemplates.FormatShape | src/agents/template.ts:30-39 | the block opens with `@name` and the role, announces delegation to `@name`, and ends with each hint as `  * hint` in order |
| RoleTemplates.FormatAgents | src/agents/template.ts:52-55 | one formatted block per subagent, in order |
| RoleTemplates.InsertSecond | src/agents/template.ts:75-76 | `splice(1, 0, line)`: the line becomes the second, and the others keep their order |
| RoleTemplates.OracleNoteBlocks | src/agents/template.ts:68-81 | one block per subagent, in order |
| RoleTemplates.SplitFirstLine | src/agents/template.ts:75 | splitting on line breaks takes off a first line that holds none |
| RoleTemplates.JoinCons | src/agents/template.ts:77 | joining puts the separator between the first line and the rest |
| RoleTemplates.InsertedLine | src/agents/template.ts:75-77 | split, insert second and join puts the line right after the first line of the text |
| RoleTemplates.FormatFirstLine | src/agents/template.ts:30-40 | a formatted block is `@name`, a line break, then the rest of its lines |
| RoleTemplates.OracleNoteShape | src/agents/template.ts:71-79 | only the oracle's block changes, and it gains the About line right after `@oracle` |
| RoleTemplates.OracleNoteOnlyOracle | src/agents/template.ts:68-81 | in the section every block but the oracle's is the plain one, and the oracle's carries the About line second |
| RoleRegistry.Load | packages/agents/src/registry.ts:66-81 | a missing or empty role file is an unknown-agent error listing the available names; a success comes from parsing the stored file; any other failure is the parser's error |
| RoleRegistry.CollectOk | packages/agents/src/registry.ts:108-110 | mapping succeeds exactly when every element does, and then keeps each value at its position |
| RoleRegistry.CollectFirstErr | packages/agents/src/registry.ts:108-110 | mapping throws the first failure |
| RoleRegistry.Metadatas | packages/agents/src/registry.ts:108-110 | one metadata outcome per name, in order |
| RoleRegistry.MetadataListOk | packages/agents/src/registry.ts:108-110 | the metadata list succeeds exactly when every name loads, and then lists their front matter in order |
| RoleRegistry.CollectStep | packages/agents/src/registry.ts:108-110 | the mapping loop advances one element at a time |
| RoleRegistry.CollectErrStays | packages/agents/src/registry.ts:108-110 | once a failure is seen, the result is that failure |
| RoleRegistry.RoleCache.constructor | packages/agents/src/registry.ts:43-57 | the cache starts empty over the given role files |
| RoleRegistry.RoleCache.LoadRole | packages/agents/src/registry.ts:66-81 | the result does not depend on the cache; a cached name leaves the cache alone, and a first successful load adds the name |
| RoleRegistry.RoleCache.GetAgentMetadata | packages/agents/src/registry.ts:89-91 | the front matter of the loaded role, or its error |
| RoleRegistry.RoleCache.GetAgentPrompt | packages/agents/src/registry.ts:99-101 | the body of the loaded role, or its error |
| RoleRegistry.RoleCache.GetMetadataList | packages/agents/src/registry.ts:108-110 | the loop gives the metadata of each name in order, or the first failure |
| AgentsRegistry.GetSubagentMetadata | packages/agents/src/registry.ts:108-110 | the metadata of every agent name, the orchestrator included, in order |
| AgentsRegistry.CreateAgent | packages/agents/src/registry.ts:124-145 | the method builds the definition the specification function gives |
| AgentsRegistry.CreateAgentFields | packages/agents/src/registry.ts:124-145 | a failed load is passed on; a definition carries the role's name, description and temperature, the given model, and primary mode exactly for a primary role |
| AgentsRegistry.SubagentPromptUnrendered | packages/agents/src/registry.ts:125-133 | a non-primary agent's prompt is its role body unchanged |
| AgentsRegistry.PrimaryPromptRendered | packages/agents/src/registry.ts:128-133 | a primary agent's `{{AGENTS}}` prompt becomes the agents section with the oracle note, its `$` patterns expanded by `replaceAll`; exactly that section when it holds no `$` |
| AgentsRegistry.SubagentMetadataOrder | packages/agents/src/registry.ts:108-110 | the list succeeds exactly when every name loads, and lists each name's metadata at its position |
| AgentsRegistry.RegistryDefinedIff | packages/agents/src/registry.ts:151-170 | the registry answers exactly for the role-file names, with that name's metadata |
| AgentsRegistry.RegistryLookup | packages/agents/src/registry.ts:154-158 | a property read gives the registry's answer for the name |
| AgentsRegistry.NamedModels | packages/agents/src/registry.ts:175-177 | one `[name, defaultModel]` pair per agent, in order |
| AgentsRegistry.DefaultModelOf | packages/agents/src/registry.ts:175-177 | every agent's default model is its role's default model |
| AgentsRegistry.NamedModelAt | packages/agents/src/registry.ts:175-177 | with distinct names, each name maps to its own default model |
| AgentsRegistry.GetAt | packages/agents/src/registry.ts:175-177 | `Object.fromEntries` with distinct keys maps each key to its own value |
| LegacyRegistry.NameLists | src/agents/registry.ts:95-100 | the agent names are the role-file names in order, and the subagents are all but the first, never the orchestrator |
| LegacyRegistry.SubagentMetadataWithoutOrchestrator | src/agents/registry.ts:107-109 | the subagent metadata lists each subagent's metadata in order and leaves out the orchestrator |
| LegacyRegistry.GetSubagentMetadata | src/agents/registry.ts:107-109 | the method gives the subagent metadata of the specification function |
| LegacyRegistry.CreateAgent | src/agents/registry.ts:123-143 | the method builds the definition the specification function gives |
| LegacyRegistry.CreateAgentFields | src/agents/registry.ts:123-143 | a failed load is passed on; a definition carries the role's name, description and temperature and the given model, no mode, and for agents other than the orchestrator the role body as prompt |
| LegacyRegistry.PrimaryFlagIgnored | src/agents/registry.ts:128-132 | only the orchestrator is rendered: another agent keeps `{{AGENTS}}` in its prompt |
| LegacyRegistry.OrchestratorPromptRendered | src/agents/registry.ts:128-132 | the orchestrator's `{{AGENTS}}` prompt becomes the agents section with the oracle note, its `$` patterns expanded by `replaceAll`; exactly that section when it holds no `$` |
| ConfigSchema.ValidateOverride | packages/shared/src/schemas/config.ts:17-22 | a valid agent override is an object; its acceptance and values are stated by the two lemmas below |
| ConfigSchema.OverrideAccepted | packages/shared/src/schemas/config.ts:17-22 | an override is accepted exactly when it is an object whose model is a string or absent, whose temperature is a number in [0, 2] or absent and whose skills are a list of strings or absent; so a non-string model or skill rejects it |
| ConfigSchema.OverrideFields | packages/shared/src/schemas/config.ts:17-22 | an accepted override holds the input's model, temperature and skills, a string variant as given and any other variant as `undefined`, and no other key |
| ConfigSchema.OverrideTemperatureBound | packages/shared/src/schemas/config.ts:19 | a validated temperature lies in [0, 2], and an override whose temperature lies outside is rejected |
| ConfigSchema.InvalidVariantCaught | packages/shared/src/schemas/config.ts:20 | a variant that is not a string does not reject the override; it becomes `undefined` |
| ConfigSchema.ValidateMultiplexer | packages/shared/src/schemas/config.ts:57-62 | a valid multiplexer block is an object of exactly its four fields; its acceptance and values are stated by the two lemmas below |
| ConfigSchema.MultiplexerAccepted | packages/shared/src/schemas/config.ts:33-62 | a block is accepted exactly when it is an object whose `enabled` is a boolean, whose provider and layout are among the listed ones and whose main pane size is a number in [20, 80], each possibly absent; so an unknown provider or layout or a size outside [20, 80] rejects it |
| ConfigSchema.MultiplexerFields | packages/shared/src/schemas/config.ts:57-62 | an accepted block has the keys `enabled`, `provider`, `layout` and `main_pane_size` in that order, each holding the input's value when present and its default (false, `auto`, `main-vertical`, 60) when absent |
| ConfigSchema.MultiplexerDefaults | packages/shared/src/schemas/config.ts:58-61 | an empty block takes the defaults: disabled, `auto`, `main-vertical`, 60 |
| ConfigSchema.MultiplexerValues | packages/shared/src/schemas/config.ts:33-61 | a validated block has a known provider, a known layout and a main pane size in [20, 80] |
| ConfigSchema.ValidateOverrides | packages/shared/src/schemas/config.ts:102 | a validated agents record keeps exactly the input's keys, in order |
| ConfigSchema.ValidatePresets | packages/shared/src/schemas/config.ts:88-101 | a validated presets record keeps exactly the input's keys, in order |
| ConfigSchema.EmptyConfigValid | packages/shared/src/schemas/config.ts:99-106 | the empty object is a valid configuration, and validates to the empty object |
| ConfigSchema.UnknownKeysDropped | packages/shared/src/schemas/config.ts:99-106 | keys outside the configuration's shape do not survive validation |
| ConfigSchema.ValidatePluginConfig | packages/shared/src/schemas/config.ts:99-106 | only an object can be a valid configuration; the lemmas below state when one is accepted and what it holds |
| ConfigSchema.PluginConfigAccepted | packages/shared/src/schemas/config.ts:99-106 | a configuration is accepted exactly when it is an object whose preset is a string, whose presets and agents are records of valid overrides, whose `disabled_mcps` is a list of strings and whose multiplexer and tmux blocks are valid, each possibly absent |
| ConfigSchema.PluginConfigShape | packages/shared/src/schemas/config.ts:99-106 | each key of an accepted configuration holds what its field's validator gives for the input, and there is no other key |
| ConfigSchema.PluginConfigFields | packages/shared/src/schemas/config.ts:99-106 | an accepted configuration holds the input's preset and `disabled_mcps`, and the validated presets record, agents record, multiplexer block and tmux block of the input, each absent when the input lacks it |
| ConfigLoader.DeepMerge | packages/core/src/loader.ts:56-79 | merging two objects gives an object |
| ConfigLoader.MergeObjects | packages/core/src/loader.ts:56-79 | the recursive merge method computes the merge function |
| ConfigLoader.MergeLoop | packages/core/src/loader.ts:60-78 | the key loop computes the merge of the override's fields into a copy of the base |
| ConfigLoader.MergeFieldsKey | packages/core/src/loader.ts:61-77 | after the loop, a key of the override holds the merged value and any other key keeps the base's value |
| ConfigLoader.MergeObjectsFields | packages/core/src/loader.ts:56-79 | the merge holds exactly the keys of both sides; keys only in the base keep their values; override keys hold the recursive merge of two plain objects and otherwise the override's value |
| ConfigLoader.MergeUndefined | packages/core/src/loader.ts:57-58 | a missing base gives the override, and a missing override gives the base |
| ConfigLoader.ProjectConfigPath | packages/core/src/loader.ts:102 | the project file is `<directory>/.opencode/<filename>` |
| ConfigLoader.LoadConfigFromPath | packages/core/src/loader.ts:26-46 | a configuration is loaded exactly when the file is there and validates, and it is the validated value |
| ConfigLoader.SpreadGet | packages/core/src/loader.ts:108-110 | in `{...a, ...b}` a key of `b` takes `b`'s value and any other key keeps `a`'s |
| ConfigLoader.LoadPluginConfig | packages/core/src/loader.ts:95-137 | the method computes the configuration the specification function gives |
| ConfigLoader.NoConfigFiles | packages/core/src/loader.ts:104-136 | with neither file loaded and no preset variable the configuration is empty |
| ConfigLoader.ProjectOverridesUser | packages/core/src/loader.ts:107-114 | project keys win, except `agents` and `tmux`, which are deep-merged |
| ConfigLoader.EnvPresetSelects | packages/core/src/loader.ts:117-120 | a set preset variable becomes the preset and changes nothing else |
| ConfigLoader.MissingPresetIgnored | packages/core/src/loader.ts:123-134 | a missing or unknown preset leaves the configuration unchanged |
| ConfigLoader.PresetUnderRootAgents | packages/core/src/loader.ts:123-128 | a known preset is merged under the root agents, with the root winning key by key, and nothing else changes |
| AgentsIndex.AliasKey | packages/agents/src/index.ts:48 | the legacy alias whose target is the name, or the empty key when there is none |
| AgentsIndex.Agent.constructor | packages/agents/src/index.ts:101-102 | the agent object holds the created definition |
| AgentsIndex.Agent.ApplyOverrides | packages/agents/src/index.ts:57-60 | the configuration is updated in place to the overridden one |
| AgentsIndex.Agent.ApplyDefaultPermissions | packages/agents/src/index.ts:66-69 | the configuration is updated in place to carry the default permission |
| AgentsIndex.MapNames | packages/agents/src/index.ts:101-116 | one outcome per name, in order |
| AgentsIndex.ModelForAgent | packages/agents/src/index.ts:93-98 | the method chooses the model the specification function gives |
| AgentsIndex.AgentStep | packages/agents/src/index.ts:101-116 | one iteration builds the agent the specification function gives |
| AgentsIndex.Customize | packages/agents/src/index.ts:104-115 | the created agent gets a truthy override applied, then the default permission exactly when it is primary |
| AgentsIndex.CreateEach | packages/agents/src/index.ts:101-118 | the `map` over the names builds each name's agent in order, or stops at the first failure |
| AgentsIndex.CreateAgents | packages/agents/src/index.ts:88-119 | the method builds the agents of the specification function, or its first failure |
| AgentsIndex.ConfigEntries | packages/agents/src/index.ts:130-136 | one `[name, {...config, description}]` pair per agent, in order |
| AgentsIndex.Names | packages/agents/src/index.ts:134 | the agents' names, in order |
| AgentsIndex.GetAgentConfigs | packages/agents/src/index.ts:128-137 | the method gives the keyed configurations of the specification function |
| AgentsIndex.GetOverrideAliases | packages/agents/src/index.ts:44-49 | an override under the name wins; otherwise `explorer` reads `explore`, `designer` reads `frontend-ui-ux-engineer`, and any other name reads the empty key |
| AgentsIndex.OverriddenFields | packages/agents/src/index.ts:57-60 | a non-empty string model replaces the model, a numeric temperature replaces the temperature (0 included), and nothing else changes |
| AgentsIndex.DefaultPermissionKeeps | packages/agents/src/index.ts:66-69 | `question` becomes `allow`, every other permission is kept, the rest of the configuration is unchanged, and applying it twice is applying it once |
| AgentsIndex.CreateAgentsOrder | packages/agents/src/index.ts:101-118 | creation succeeds exactly when every agent does, and gives one agent per name in order |
| AgentsIndex.AgentForFields | packages/agents/src/index.ts:101-116 | each agent is its role's definition with the chosen model, the override applied when present, and the default permission exactly on primary agents |
| AgentsIndex.FixerFallsBackToLibrarian | packages/agents/src/index.ts:94-96 | a fixer without a model override uses the librarian's override model or else the librarian's default model |
| AgentsIndex.ModelIsRoleDefault | packages/agents/src/index.ts:97 | every other agent starts from its role's default model |
| AgentsIndex.IsSubagentIff | packages/agents/src/index.ts:75-77 | a name is a subagent exactly when it is an agent name other than the orchestrator |
| AgentsIndex.AgentConfigsKeyed | packages/agents/src/index.ts:130-136 | with distinct names the record holds exactly each agent's configuration under its name, in order |
| BackgroundUtils.NormalizeAgentName | packages/tool-background/src/utils.ts:10-13 | the normalised name is never longer than the input |
| BackgroundUtils.ResolveAgentVariant | packages/tool-background/src/utils.ts:18-36 | a resolved variant is non-empty and trimmed |
| BackgroundUtils.NormalizeStripsOneAt | packages/tool-background/src/utils.ts:10-13 | one leading `@` is removed, and a name without one is unchanged |
| BackgroundUtils.ResolveVariantIff | packages/tool-background/src/utils.ts:22-35 | a variant is resolved exactly when the configured value is a string that is not all spaces, and it is that string trimmed |
| BackgroundUtils.ResolveIgnoresAt | packages/tool-background/src/utils.ts:22-23 | `@name` and `name` resolve to the same variant |
| BackgroundUtils.ApplyVariantFields | packages/tool-background/src/utils.ts:41-52 | an empty variant or a body that already has one is unchanged; otherwise the variant is set and every other field kept |
| BackgroundUtils.ApplyVariantIdempotent | packages/tool-background/src/utils.ts:41-52 | applying a variant twice is applying it once |
| SessionMessages.PartTexts | packages/tool-background/src/tools.ts:361-365 | only non-empty texts are collected |
| SessionMessages.Texts | packages/tool-background/src/tools.ts:357-366 | only non-empty texts are collected |
| SessionMessages.NonEmpty | packages/tool-background/src/tools.ts:368 | the filter keeps only non-empty texts of the input |
| SessionMessages.ExtractResponseText | packages/tool-background/src/tools.ts:356-369 | the nested loops compute the response text of the specification function |
| SessionMessages.NonEmptyKeeps | packages/tool-background/src/tools.ts:368 | the final filter changes nothing, because only non-empty texts were collected |
| SessionMessages.JoinNonEmpty | packages/tool-background/src/tools.ts:368 | joining non-empty texts is empty exactly when there are none |
| SessionMessages.ResponseTextShape | packages/tool-background/src/tools.ts:356-369 | the response is the collected texts joined by a blank line, and is empty exactly when none was collected |
| SessionMessages.TextsAppend | packages/tool-background/src/tools.ts:357-366 | the texts of two message lists are the texts of each, in order |
| SessionMessages.OnlyAssistantCounts | packages/tool-background/src/tools.ts:357 | a message adds texts only when it is the assistant's |
| SessionMessages.NoAssistantNoText | packages/tool-background/src/tools.ts:357-368 | without assistant messages the response is empty |
| BackgroundManager.Fail | packages/tool-background/src/manager.ts:233-236 | a failed task keeps its id and is finished |
| BackgroundManager.CancelRunning | packages/tool-background/src/manager.ts:172-177 | cancelling keeps the id, leaves it not running, and leaves a task that was not running unchanged |
| BackgroundManager.RunningCount | packages/tool-background/src/manager.ts:188 | the number of running tasks is at most the number of tasks |
| BackgroundManager.PollTaskOf | packages/tool-background/src/manager.ts:200-238 | a poll never changes a task's id |
| BackgroundManager.PollIfRunning | packages/tool-background/src/manager.ts:195-197 | polling a running task never changes its id |
| BackgroundManager.GetResultOf | packages/tool-background/src/manager.ts:135-153 | `null` exactly when no task has the id |
| BackgroundManager.NewTask | packages/tool-background/src/manager.ts:91-98 | a new task is running under its id and session with no result, error or completion time |
| BackgroundManager.MapKeepsIds | packages/tool-background/src/manager.ts:171-178 | updating tasks in place keeps each stored under its own id |
| BackgroundManager.MapInPlace | packages/tool-background/src/manager.ts:171-178 | the in-place loop applies the update to every stored task |
| BackgroundManager.BackgroundTaskManager.constructor | packages/tool-background/src/manager.ts:68-73 | a new manager has no tasks, is not polling, and keeps the directory and configuration it is given |
| BackgroundManager.LaunchQuery | packages/tool-background/src/manager.ts:107-112 | the prompt query holds the directory, and the model exactly when a non-empty one is given |
| BackgroundManager.BackgroundTaskManager.Launch | packages/tool-background/src/manager.ts:78-130 | without a session id the launch fails, sends nothing and changes nothing; otherwise the new running task is stored under its id, polling is on, the prompt request carries the session, the body with the agent's variant and the query, and a throwing prompt rejects the launch with the task still stored |
| BackgroundManager.BackgroundTaskManager.Cancel | packages/tool-background/src/manager.ts:158-180 | the map of tasks and the count become what the cancel function gives |
| BackgroundManager.BackgroundTaskManager.PollTask | packages/tool-background/src/manager.ts:200-238 | only the polled task is replaced, by its polled state |
| BackgroundManager.BackgroundTaskManager.PollAllTasks | packages/tool-background/src/manager.ts:187-198 | with no running task polling stops and nothing changes; otherwise every running task is polled |
| BackgroundManager.BackgroundTaskManager.GetResult | packages/tool-background/src/manager.ts:135-153 | the result is the specification function's; a found task is stored back in its final state |
| BackgroundManager.CancelOne | packages/tool-background/src/manager.ts:159-168 | cancelling one id counts 1 exactly when that task was running; then it becomes failed with the user-cancel error and the completion time, and every other task is unchanged |
| BackgroundManager.RunningCountZero | packages/tool-background/src/manager.ts:188-189 | no task is counted exactly when none is running |
| BackgroundManager.CancelAll | packages/tool-background/src/manager.ts:170-179 | cancelling all counts the running tasks, fails each of them, leaves the others, keeps the ids, and leaves none running |
| BackgroundManager.EmptyIdCancelsAll | packages/tool-background/src/manager.ts:159 | an empty id is falsy and cancels all |
| BackgroundManager.PollThrowFails | packages/tool-background/src/manager.ts:233-236 | an API failure fails it with its message and the time |
| BackgroundManager.PollLeavesAlone | packages/tool-background/src/manager.ts:206-208 | a task that is not running, or whose session is busy, is left unchanged |
| BackgroundManager.PollCompletes | packages/tool-background/src/manager.ts:210-232 | an idle session completes it exactly when the response text is non-empty, storing the text and the time |
| BackgroundManager.PollStepOutcome | packages/tool-background/src/manager.ts:200-238 | a poll of an unfinished task leaves it unchanged or finishes it |
| BackgroundManager.BlockingResultIsFirstFinish | packages/tool-background/src/manager.ts:143-152 | a blocking wait returns it at the first poll that finishes it, or unchanged when none does |
| BackgroundManager.GetResultStored | packages/tool-background/src/manager.ts:136-141 | without blocking, or for a finished task, the stored task is returned as it is |
| BackgroundTools.WithTaskMetadata | packages/tool-background/src/tools.ts:375-381 | the content comes first and the session metadata block last |
| BackgroundTools.StripTaskMetadata | packages/tool-background/src/tools.ts:375-381 | the metadata block is recognised exactly when the text ends with it |
| BackgroundTools.TaskMetadataRoundTrip | packages/tool-background/src/tools.ts:375-381 | removing the metadata block gives the content back, so distinct contents stay distinct |
| BackgroundTools.PollSession | packages/tool-background/src/tools.ts:308-354 | the loop computes the outcome of the specification function |
| BackgroundTools.SettledAfterQuietRun | packages/tool-background/src/tools.ts:317-351 | settling from a partial count needs the remaining quiet rounds or four quiet rounds in a row |
| BackgroundTools.SettledNeedsFourQuiet | packages/tool-background/src/tools.ts:317-351 | the poll settles only after four idle rounds in a row with the same non-zero message count |
| BackgroundTools.QuietRunSettles | packages/tool-background/src/tools.ts:344-346 | the remaining quiet rounds settle the poll |
| BackgroundTools.FourQuietSettles | packages/tool-background/src/tools.ts:317-351 | four quiet rounds at the start settle the poll |
| BackgroundTools.PollEnds | packages/tool-background/src/tools.ts:317-353 | an aborted poll saw the abort signal; a timed-out one saw no abort and no API failure; an abort first ends it at once |
| BackgroundTools.ResolveSessionId | packages/tool-background/src/tools.ts:227-272 | an existing session id that can be fetched is kept; without one the outcome follows session creation |
| BackgroundManager.PromptBodyVariant | packages/tool-background/src/tools.ts:274-295 | the body names the agent and carries the resolved variant, or is the base body when none is resolved |
| BackgroundTools.PromptError | packages/tool-background/src/tools.ts:297-305 | an error is reported exactly when sending threw |
| BackgroundTools.SyncResponseCarriesText | packages/tool-background/src/tools.ts:200-224 | a settled run answers with the response text, a timeout with the five-minute message, and an empty response with the no-response error, each with the metadata block |
| BackgroundTools.SyncResponseMetadata | packages/tool-background/src/tools.ts:189-224 | once a session exists every answer carries its metadata block, except a failed message fetch |
| BackgroundTools.OutputShape | packages/tool-background/src/tools.ts:118-139 | the output opens with the header and ends with the result, the error or the still-running note |
| BackgroundTools.CancelToolById | packages/tool-background/src/tools.ts:155-158 | cancelling by id reports success exactly when that task was running, and the map of tasks changes as the manager's cancel |
| BackgroundTools.CancelToolNeither | packages/tool-background/src/tools.ts:160 | without an id or `all` nothing changes and the usage message is returned |
| BackgroundTools.CancelToolEmptyId | packages/tool-background/src/tools.ts:155-157 | an empty id cancels every running task and reports `Cancelled task .` |
| BackgroundTools.BackgroundTaskTool | packages/tool-background/src/tools.ts:62-98 | `sync` exactly `true` gives the synchronous answer and leaves the manager unchanged; anything else launches a background task, with its errors and its stored task |
| BackgroundTools.BackgroundTask | packages/tool-background/src/tools.ts:62-98 | an asynchronous launch fails exactly without a session or when the prompt request throws; with a session the new task is stored either way; success returns the launch message |
| BackgroundTools.BackgroundOutput | packages/tool-background/src/tools.ts:108-140 | the output message is that of the manager's result for the id |
| BackgroundTools.BackgroundCancel | packages/tool-background/src/tools.ts:149-161 | the map of tasks and the message become what the cancel tool function gives |
| MultiplexerFactory.ProviderChoice | packages/multiplexer/src/factory.ts:9-35 | `tmux` and `wezterm` pick their provider; anything else detects tmux first, then wezterm, and falls back to tmux |
| MultiplexerFactory.AutoChoiceIsActive | packages/multiplexer/src/factory.ts:10-34 | the detected provider is active exactly when inside tmux or wezterm, and `auto` behaves as no choice |
| MultiplexerManager.Refresh | packages/multiplexer/src/manager.ts:157-162 | a refresh keeps the session id, the pane and the creation time |
| MultiplexerManager.CloseList | packages/multiplexer/src/manager.ts:149-173 | only tracked sessions are scheduled for closing |
| MultiplexerManager.Panes | packages/multiplexer/src/manager.ts:217 | the pane of every tracked session, in order |
| MultiplexerManager.WithoutKeepsIds | packages/multiplexer/src/manager.ts:193 | removing sessions keeps the others under their own ids |
| MultiplexerManager.MultiplexerManager.constructor | packages/multiplexer/src/manager.ts:47-60 | enabled exactly when the configuration enables it and the provider is active; no sessions, no polling |
| MultiplexerManager.MultiplexerManager.OnSessionCreated | packages/multiplexer/src/manager.ts:66-121 | the sessions become what the creation function gives, and polling starts when one was added |
| MultiplexerManager.MultiplexerManager.CloseSession | packages/multiplexer/src/manager.ts:183-198 | an untracked id changes nothing; a tracked one is removed when its pane closes, polling stopping when none is left, and a close that throws changes nothing |
| MultiplexerManager.MultiplexerManager.PollSessions | packages/multiplexer/src/manager.ts:138-181 | the sessions and the polling flag become what the poll function gives |
| MultiplexerManager.RefreshEach | packages/multiplexer/src/manager.ts:148-173 | the loop yields each session refreshed at its position and the ids the close rule picks, in order |
| MultiplexerManager.MultiplexerManager.RefreshSessions | packages/multiplexer/src/manager.ts:148-173 | every session is refreshed in place and the ids to close are those the close rule picks |
| MultiplexerManager.MultiplexerManager.CloseSessions | packages/multiplexer/src/manager.ts:175-177 | the sessions are closed in order, stopping at the first close that throws |
| MultiplexerManager.MultiplexerManager.Cleanup | packages/multiplexer/src/manager.ts:212-227 | every tracked pane is closed, polling stops and no session is left |
| MultiplexerManager.CloseEachStep | packages/multiplexer/src/manager.ts:175-177 | an untracked id is skipped, a failing close stops the loop, and a successful one removes the session and goes on |
| MultiplexerManager.ClosePrefixAll | packages/multiplexer/src/manager.ts:151-173 | the scheduling loop over all sessions gives the close list |
| MultiplexerManager.ClosePrefixShift | packages/multiplexer/src/manager.ts:151-173 | after each step the loop holds the close list of the sessions seen so far |
| MultiplexerManager.CloseListAppend | packages/multiplexer/src/manager.ts:170-172 | one more session adds its id exactly when the close rule holds for it |
| MultiplexerManager.RefreshKeepsIds | packages/multiplexer/src/manager.ts:151-162 | refreshing keeps every session under its own id |
| MultiplexerManager.OnSessionCreatedTracks | packages/multiplexer/src/manager.ts:66-121 | a session is added exactly when enabled, for a created child session not yet tracked, whose pane spawned with an id; it is appended titled `Subagent` by default and stamped now |
| MultiplexerManager.RefreshRule | packages/multiplexer/src/manager.ts:157-162 | a reported session is seen now and no longer missing; an unreported one is marked missing now unless already marked |
| MultiplexerManager.CloseRule | packages/multiplexer/src/manager.ts:155-170 | a session closes exactly when idle, missing for at least three poll intervals, or older than ten minutes |
| MultiplexerManager.CloseListExact | packages/multiplexer/src/manager.ts:149-173 | an id is scheduled exactly when it is tracked and its refreshed session meets the close rule |
| MultiplexerManager.CloseEachRemoves | packages/multiplexer/src/manager.ts:175-177 | when no close throws, exactly the scheduled ids are removed |
| MultiplexerManager.PollClosesByRule | packages/multiplexer/src/manager.ts:138-181 | after a poll without failures a session is kept exactly when the close rule does not hold, and a kept session is its refreshed state |
| McpIntegrations.AllBuiltinMcps | packages/mcp-integrations/src/index.ts:9-13 | the built-in servers are exactly `websearch`, `context7` and `grep_app`, in order |
| McpIntegrations.WithoutBuiltins | packages/mcp-integrations/src/index.ts:21-23 | filtering keeps exactly the enabled names, without duplicates |
| McpIntegrations.ServerKeys | packages/mcp-integrations/src/index.ts:18-24 | the servers are exactly the enabled built-ins, in order |
| McpIntegrations.GetMcpServersSpec | packages/mcp-integrations/src/index.ts:18-24 | a server is present exactly when it is built in and not disabled, with its built-in configuration |
| McpIntegrations.NothingDisabled | packages/mcp-integrations/src/index.ts:19-23 | with nothing disabled all built-ins are returned |
| McpIntegrations.UnknownNamesIgnored | packages/mcp-integrations/src/index.ts:22 | names that are not built in disable nothing |
| McpIntegrations.EverythingDisabled | packages/mcp-integrations/src/index.ts:22 | disabling all three leaves no server |
| Installer.FlagPrefix | packages/installer/src/index.ts:13-21 | every flag is matched by a `--name=` prefix |
| Installer.SetFlag | packages/installer/src/index.ts:14-22 | setting a flag changes that flag and nothing else |
| Installer.FlagOf | packages/installer/src/index.ts:13-21 | an argument is read as the flag whose prefix it starts with, and as none when it starts with no prefix |
| Installer.SecondPart | packages/installer/src/index.ts:14 | `split("=")[1]` exists exactly when the argument holds an `=` |
| Installer.ParseArgs | packages/installer/src/index.ts:5-32 | the loop computes the outcome of the specification function |
| Installer.LastIndexSpec | packages/installer/src/index.ts:10-29 | the index found is the last argument of the kind, and none is found only when no argument is of that kind |
| Installer.HelpEndsParse | packages/installer/src/index.ts:23-25 | parsing shows the help exactly when some argument is `-h` or `--help` |
| Installer.TuiRule | packages/installer/src/index.ts:11-12 | the TUI is on exactly when `--no-tui` is absent |
| Installer.PackageNameRule | packages/installer/src/index.ts:26-28 | the package name is the last argument that does not start with `-` |
| Installer.FlagRule | packages/installer/src/index.ts:13-22 | each flag takes the text after the first `=` of its last occurrence |
| Installer.StepKeepsFlag | packages/installer/src/index.ts:10-29 | an argument without a flag's prefix leaves that flag alone |
| Installer.FlagOfMatches | packages/installer/src/index.ts:11-23 | an argument with a flag's prefix is that flag, not `--no-tui` and not help |
| Installer.NoFlagByThirdChar | packages/installer/src/index.ts:13-21 | the third character rules out the flags whose names start otherwise |
| Installer.ThirdChar | packages/installer/src/index.ts:13-21 | a prefix fixes the third character of the argument |
| Installer.FlagTextBetween | packages/installer/src/index.ts:14 | `split("=")[1]` of `--name=v` followed by nothing or by `=` is `v` |
| Installer.UnknownDashIgnored | packages/installer/src/index.ts:10-29 | an unknown argument starting with `-` changes nothing |
| Installer.MainDispatchRule | packages/installer/src/index.ts:59-73 | no arguments installs with the defaults, `install` installs with the parsed arguments, and any other command that is not help exits with 1 |
| InstallerPresets.FirstServed | packages/installer/src/providers.ts:56 | the index of the first model the provider serves, with no earlier one served, or none when no model is served |
| InstallerPresets.ChooseModel | packages/installer/src/providers.ts:56 | the chosen model is one of the agent's models, and there is none exactly when the agent has no models |
| InstallerPresets.PresetEntries | packages/installer/src/providers.ts:54-62 | one entry per agent, in network order, with its chosen model and its skills |
| InstallerPresets.SpecEntries | packages/installer/src/providers.ts:52-64 | one preset per provider spec, in order |
| InstallerPresets.BuildPreset | packages/installer/src/providers.ts:53-63 | the inner loop builds the provider's preset when every agent has a model list, and throws the `models.find` TypeError otherwise |
| InstallerPresets.BuildPresets | packages/installer/src/providers.ts:52-64 | the outer loop gives one preset per provider spec, in spec order, or the `models.find` TypeError when an agent has no model list |
| InstallerPresets.GenerateLiteConfig | packages/installer/src/providers.ts:40-93 | the method builds the configuration of the specification function, or throws when an agent has no model list |
| InstallerPresets.LiteConfigThrowsIff | packages/installer/src/providers.ts:53-56 | the generator throws exactly when some agent has no `models` list, with the TypeError of `find` on `undefined` |
| InstallerPresets.LoadedNetworkThrows | packages/installer/src/providers.ts:55-56 | agents as the agent schema loads them have no `models`, so a network with any agent makes the generator throw |
| InstallerPresets.AgentIds | packages/installer/src/providers.ts:54 | the agents' ids, in network order |
| InstallerPresets.PresetMapsEveryAgent | packages/installer/src/providers.ts:53-63 | a preset holds exactly the network's agents, in order, each with its chosen model and its skills |
| InstallerPresets.PresetKeysAreIds | packages/installer/src/providers.ts:54-61 | the preset's keys are the agents' ids |
| InstallerPresets.PresetKeys | packages/installer/src/providers.ts:44-64 | the presets are exactly the five providers, in order, each built from its prefixes |
| InstallerPresets.ChooseModelRule | packages/installer/src/providers.ts:56 | the chosen model is the first served model, else the agent's first model |
| InstallerPresets.LiteConfigRule | packages/installer/src/providers.ts:66-92 | when every agent has a model list the generator succeeds; the base preset is one of the presets, chosen in subscription priority; a multiplexer block appears exactly for a chosen multiplexer other than `none`, enabled with the main-vertical layout at 60 |
| ConfigPaths.UserConfigDir | packages/installer/src/paths.ts:8-10 | `XDG_CONFIG_HOME` when set and non-empty, otherwise `~/.config` |
| ConfigPaths.ConfigDir | packages/installer/src/paths.ts:5-13 | the OpenCode directory is `opencode` under the user's configuration directory |
| ConfigPaths.InConfigDir | packages/installer/src/paths.ts:23-29 | a file path directly inside the OpenCode directory |
| ConfigPaths.OpenCodeConfigPaths | packages/installer/src/paths.ts:15-21 | the `.json` path first, then the `.jsonc` path |
| ConfigPaths.ExistingConfigPath | packages/installer/src/paths.ts:48-56 | one of the two paths, and the `.jsonc` one exactly when only it exists |
| Text.SubstitutionLiteral | src/agents/template.ts:22 | a replacement without `$` is inserted as written |
| Text.SubstitutionPatterns | src/agents/template.ts:22 | `$$`, `$&`, `` $` `` and `$'` stand for a dollar sign, the match, the text before it and the text after it; a one-character replacement is always literal |
| Text.ReplaceAllAbsent | src/agents/template.ts:22 | a string without the pattern is left unchanged |
| Text.SplitOn | src/agents/template.ts:22 | `split` on a literal pattern: at least one piece, the first a prefix of the string |
| Text.SplitOnJoin | src/agents/template.ts:22 | the pieces joined with the pattern give the string back |
| Text.SplitOnPieces | src/agents/template.ts:22 | no piece contains the pattern |
| Text.ReplaceAllSplit | src/agents/template.ts:22 | a replacement without `$` takes the place of every occurrence: the result is the pieces between the matches joined with the replacement |
| Text.ReplaceAllWhole | packages/network-compiler/src/agents.ts:56 | a string that is exactly the pattern becomes the expanded replacement, and the replacement itself when it has no `$` |
| ConfigPaths.DashSlashes | packages/installer/src/paths.ts:44 | every `/` becomes a `-` and nothing else changes |
| ConfigPaths.ReplaceSingleChar | packages/installer/src/paths.ts:44 | replacing one character by another maps each position on its own |
| ConfigPaths.ReplaceCharStep | packages/installer/src/paths.ts:44 | one step of the scan replaces the current character when it is the pattern and continues after it |
| ConfigPaths.LiteConfigName | packages/installer/src/paths.ts:31-46 | the lite configuration is a `.json` file directly in the OpenCode directory whose name holds no `/`; a relative package name is used as given |
| ConfigPaths.ScopedName | packages/installer/src/paths.ts:44 | `@scope/pkg` becomes `scope-pkg` |
| ConfigPaths.ManifestNameWins | packages/installer/src/paths.ts:33-39 | an absolute path whose manifest has a name uses that name |
| JsonComments.LiteralBody | packages/hooks/src/utils/config-io.ts:24-25 | a string literal's body ends at a quote |
| JsonComments.LineLength | packages/hooks/src/utils/config-io.ts:24 | `.*` stops at the first line terminator |
| JsonComments.BlockEnd | packages/hooks/src/utils/config-io.ts:24 | a block comment ends at the first `*/` |
| JsonComments.PlainBodyEnds | packages/hooks/src/utils/config-io.ts:24-25 | a literal without quotes or backslashes ends at its closing quote |
| JsonComments.JsonBodyEnds | packages/hooks/src/utils/config-io.ts:24-25 | with JSON escapes a well-formed literal ends at its closing quote |
| JsonComments.LiteralCopied | packages/hooks/src/utils/config-io.ts:27-31 | a matched string literal is copied unchanged by both passes |
| JsonComments.PlainLiteralKept | packages/hooks/src/utils/config-io.ts:27-31 | comment and comma marks inside a plain literal are kept |
| JsonComments.JsonLiteralKept | packages/hooks/src/utils/config-io.ts:27-31 | with JSON escapes every well-formed literal is kept |
| JsonComments.CharCopied | packages/hooks/src/utils/config-io.ts:27-31 | a character that starts no match is copied |
| JsonComments.CommaKept | packages/hooks/src/utils/config-io.ts:29-31 | a comma not followed by spaces and a closing bracket is kept |
| JsonComments.LineCommentRemoved | packages/hooks/src/utils/config-io.ts:28 | a `//` comment is removed up to the line terminator, which stays |
| JsonComments.LineStops | packages/hooks/src/utils/config-io.ts:24 | the line comment covers exactly its text |
| JsonComments.BlockCommentRemoved | packages/hooks/src/utils/config-io.ts:28 | a block comment is removed through its first `*/` |
| JsonComments.BlockStops | packages/hooks/src/utils/config-io.ts:24 | a block comment ends at its first `*/` |
| JsonComments.TrailingCommaRemoved | packages/hooks/src/utils/config-io.ts:29-31 | a comma followed by spaces and `}` or `]` is dropped and the spaces and bracket stay |
| JsonComments.SpacesStop | packages/hooks/src/utils/config-io.ts:25 | `\s*` covers exactly the spaces before the bracket |
| JsonComments.NoSlashUnchanged | packages/hooks/src/utils/config-io.ts:28 | text without `/` passes the comment pass unchanged |
| JsonComments.NoCommaUnchanged | packages/hooks/src/utils/config-io.ts:29-31 | text without `,` passes the comma pass unchanged |
| JsonComments.PlainInputUnchanged | packages/hooks/src/utils/config-io.ts:23-32 | input without `/` or `,` is returned unchanged by both readings |
| JsonComments.EscapedBackslashHidesComment | packages/hooks/src/utils/config-io.ts:24-28 | as written, a literal ending in an escaped backslash runs on to the next quote, so a comment after it is kept |
| JsonComments.LongLiteral | packages/hooks/src/utils/config-io.ts:24 | the pattern's literal runs past the escaped backslash |
| JsonComments.EscapedBackslashCorrected | packages/hooks/src/utils/config-io.ts:23-32 | with JSON escapes the same input loses its comment |
| JsonComments.EscapedBackslashBody | packages/hooks/src/utils/config-io.ts:24 | an escaped backslash is a well-formed JSON literal body |
| JsonComments.CorrectedComments | packages/hooks/src/utils/config-io.ts:28 | the comment pass with JSON escapes removes the comment after the literal |
| JsonComments.CorrectedCommas | packages/hooks/src/utils/config-io.ts:29-31 | the comma pass with JSON escapes keeps the comma between elements |
| Polling.Resolve | packages/shared/src/utils/polling.ts:41-43 | a given option is kept, 0 included, and a missing one takes 500 ms, five minutes and 3 |
| Polling.PollUntilStable | packages/shared/src/utils/polling.ts:36-71 | the loop computes the outcome of the specification function |
| Polling.CountIsStableRun | packages/shared/src/utils/polling.ts:58-65 | the stable count is the length of the run of stable rounds just before, and the round before that run was judged unstable |
| Polling.SuccessOutcome | packages/shared/src/utils/polling.ts:58-62 | a success returns the data of the first round whose count reached the threshold |
| Polling.SettlingRoundSucceeds | packages/shared/src/utils/polling.ts:58-62 | a round whose count reaches the threshold ends the poll with success |
| Polling.AbortOutcome | packages/shared/src/utils/polling.ts:50-52 | an abort returns the aborted result at the first round that saw the signal, with no earlier round settled |
| Polling.TimeoutOutcome | packages/shared/src/utils/polling.ts:49-70 | a timeout carries the last fetched data, and no round settled before it |
| Polling.RejectOutcome | packages/shared/src/utils/polling.ts:56 | a rejected fetch rejects the poll with its error, with no earlier round settled |
| Polling.SettlesAfterRun | packages/shared/src/utils/polling.ts:58-62 | a settling round ends a run of at least the threshold of stable rounds |
| Polling.SuccessNeedsStableRun | packages/shared/src/utils/polling.ts:49-68 | success needs a run of at least the threshold of consecutive stable rounds ending with the returned data |

## Left out

- File-system, environment, clock and network access are inputs, as listed above. Logging (`log`, `console.warn`) is not modelled.
- Timers and sleeps are not modelled: `setInterval`, `setTimeout`, the 500 ms pauses after spawning, and the poll intervals. A poll loop is a sequence of rounds, each with the clock reading taken at its test.
- Concurrency is not modelled. Every asynchronous call is one atomic step.
- The terminal-pane providers are not part of this model: packages/multiplexer/src/providers/tmux.ts, wezterm.ts and utils.ts. Their `spawn`, `close` and `isActive` are inputs.
- packages/installer/src/system.ts and the `install` routine called by `main` are not part of this model.
- The plugin wiring and the index files are not part of this model.
- JavaScript `Number()` and floating point are not modelled. Numbers in front matter are decimal numerals with an optional sign and fraction, held exactly. Hex, exponents and `Infinity` read as strings. Surrounding white space is trimmed first, as `Number()` does.
- Zod's issue reports are not modelled. A schema failure is the fixed message its caller throws, or `None`.
- `path.join` normalisation (`..`, repeated separators) is not modelled. Paths are joined with a single `/`.
- `generateTaskId`'s randomness is not modelled. Task ids are inputs.
- `Date` objects are integers in milliseconds.
- The `AGENT_REGISTRY` Proxy traps are not modelled. Its lookup answers are modelled (`RegistryGet`).
- RoleRegistry.Load: names are assumed not to be `Object.prototype` properties. `ROLE_FILES[name]` (packages/agents/src/registry.ts:71) also finds inherited names such as `toString` or `constructor`, whose value is a function, which the parser is then handed; the model looks up own entries only.
- AgentsRegistry.RegistryGet: the same assumption; the `in` test of packages/agents/src/registry.ts:154 is modelled on own entries only.
- AgentsRegistry.RegistryDefinedIff: the same assumption. Its "exactly for the role-file names" holds for names that are not inherited properties. The enumeration order of integer-like keys is not modelled either; role names are not integer-like.
- NetworkAgents.CreateAgentsFromNetwork: provider names are assumed not to be `Object.prototype` properties. `providers[providerName]` (packages/network-compiler/src/agents.ts:42) also finds inherited names such as `constructor` or `toString`, whose value is a truthy function, so the source goes on and returns one definition per agent with an `undefined` model, where the model looks up own entries only and returns `null`.
- NetworkAgents.NoDefinitionsIff: the same assumption. Its "`null` exactly when the network fails to compile or the provider has no preset" holds for provider names that are not inherited properties.
- ConfigLoader.PresetOf: `config.presets?.[config.preset]` (packages/core/src/loader.ts:124) would also find inherited properties such as `constructor`. The model looks up own entries only, so such a preset name is not modelled.
- ConfigLoader.MissingPresetIgnored: the same assumption. "An unknown preset leaves the configuration unchanged" holds for names that are not inherited properties.
- AgentsRegistry.CreateAgent: the agents package's own template file is not part of this model. Its `renderTemplate` and `generateAgentsSectionWithOracleNote` are assumed to behave like those of src/agents/template.ts. The call differs between the two registries: packages/agents/src/registry.ts:131 passes `getSubagentMetadata()`, while src/agents/registry.ts:130 passes nothing. The model passes the subagent metadata in both.
- LegacyRegistry.CreateAgent: src/agents/frontmatter.ts, whose `parseRoleFile` src/agents/registry.ts:10 imports, is not part of this model. It is assumed to parse role files as packages/agents/src/frontmatter.ts does, and the model uses that parser (`RoleFrontMatter.ParseRoleFile`).
- LegacyRegistry.CreateAgentFields and LegacyRegistry.OrchestratorPromptRendered: rest on the same assumption about src/agents/frontmatter.ts.
- InstallerPresets.GenerateLiteConfig: the network is an input, given as its agents. The missing `getNetwork` export of packages/installer/src/providers.ts:2 is not modelled; the model behaves as if the network were loaded by `getNetwork` of packages/pantheon/index.ts:34.
- AgentsRegistry.PrimaryPromptRendered: rests on the same assumption about the agents package's template file.
- `stripJsonComments` on an unterminated literal is modelled as the regular expression reads it: the opening quote matches no alternative and is copied as one ordinary character, and scanning goes on after it. The properties about literals are stated for terminated ones.
- Polling.PollUntilStable: a rejected `fetchFn` rejects the whole poll. Running out of supplied rounds is read as the clock passing the limit.
- BackgroundTools.PollSession: running out of supplied rounds is read as a timeout.
- Rendering a front matter number back to text (`String(n)`) covers the exact decimal forms only.

## Findings

| source | as written | input that shows it | evidently intended | confidence | as-written member | corrected member |
|---|---|---|---|---|---|---|
| packages/hooks/src/utils/config-io.ts:24-28 | the string alternative `"(?:\\"\|[^"])*"` reads `\\"` as an escaped quote even when the backslash is itself escaped, so a literal ending in `\\` runs on to the next quote and the comment after it survives | `["x\\",//c` newline `"y"]`: the output equals the input, which `JSON.parse` rejects | string literals are read with JSON escapes, so the comment is removed and the text parses | not executed | JsonComments.EscapedBackslashHidesComment | JsonComments.EscapedBackslashCorrected |
