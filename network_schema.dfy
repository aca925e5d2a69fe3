/**
 * The network's front-matter schemas as hand-written validators over the
 * values `parseYaml` produces: a field must have the expected shape, an
 * absent field takes its default, unknown fields are dropped, and a failure
 * names the offending field.
 */
module NetworkSchema {
  import opened Wrappers
  import opened Text
  import opened Decimals
  import opened Assoc
  import opened NetworkYaml

  // ---------------------------------------------------------------- records

  datatype McpConfig = McpConfig(command: Option<string>, package: Option<string>, args: seq<string>)

  datatype SkillType = McpSkill | Builtin

  datatype SkillFrontMatter = SkillFrontMatter(name: string, description: string, kind: SkillType, mcp: Option<McpConfig>)

  datatype ParsedSkill = ParsedSkill(frontMatter: SkillFrontMatter, content: string)

  datatype Variant = High | Medium | Low

  datatype AgentFrontMatter = AgentFrontMatter(
    name: string,
    primary: bool,
    role: string,
    description: string,
    delegates: seq<string>,
    skills: seq<string>,
    variant: Option<Variant>,
    defaultModel: string,
    defaultTemperature: Decimal,
    capabilities: seq<string>,
    constraints: seq<string>,
    triggers: seq<string>,
    delegationHints: seq<string>,
    delegationNote: Option<string>)

  datatype ParsedAgent = ParsedAgent(frontMatter: AgentFrontMatter, content: string)

  datatype ProviderPreset = ProviderPreset(high: string, medium: string, low: string)

  datatype ManifestFrontMatter = ManifestFrontMatter(
    name: string,
    version: string,
    temperature: Decimal,
    providers: Entries<ProviderPreset>)

  datatype ParsedManifest = ParsedManifest(frontMatter: ManifestFrontMatter, content: string)

  /** A network whose references all resolve, with its two computed graphs. */
  datatype CompiledNetwork = CompiledNetwork(
    manifest: ParsedManifest,
    agents: Entries<ParsedAgent>,
    skills: Entries<ParsedSkill>,
    delegationGraph: Entries<seq<string>>,
    skillGraph: Entries<seq<string>>)

  datatype ErrorType = MissingAgent | MissingSkill | CycleDetected | SchemaError

  datatype CompilerError = CompilerError(kind: ErrorType, message: string, source: string, target: Option<string>)

  /** Either a compiled network or the list of errors, never both. */
  datatype CompileResult = Compiled(network: CompiledNetwork) | Failed(errors: seq<CompilerError>)

  // ---------------------------------------------------------------- field validators

  /** `0.1`, the default temperature. */
  const DefaultTemperature: Decimal := Decimal(1, 1)

  /** `z.number().min(0).max(2)`. */
  predicate InTemperatureRange(d: Decimal)
  {
    0 <= d.mantissa <= 2 * Pow10(d.scale)
  }

  predicate IsNameChar(c: char)
  {
    ('a' <= c <= 'z') || ('0' <= c <= '9') || c == '-'
  }

  /** `^[a-z0-9-]+$`. */
  predicate IsValidName(s: string)
  {
    |s| > 0 && forall i :: 0 <= i < |s| ==> IsNameChar(s[i])
  }

  /** The value of a field, as the schema sees it. */
  function Field(fields: Entries<Value>, key: string): Option<Value>
  {
    Get(fields, key)
  }

  /** `z.string()` on a required field. */
  function RequiredString(fields: Entries<Value>, key: string): (r: Result<string>)
    ensures r.Ok? ==> Get(fields, key) == Some(Leaf(Str(r.value)))
    ensures Get(fields, key).None? ==> r.Err?
  {
    match Field(fields, key)
    case Some(Leaf(Str(s))) => Ok(s)
    case _ => Err(key)
  }

  /** `z.string().optional()`. */
  function OptionalString(fields: Entries<Value>, key: string): (r: Result<Option<string>>)
    ensures Get(fields, key).None? ==> r == Ok(None)
    ensures r.Ok? && r.value.Some? ==> Get(fields, key) == Some(Leaf(Str(r.value.value)))
  {
    match Field(fields, key)
    case None => Ok(None)
    case Some(Leaf(Str(s))) => Ok(Some(s))
    case _ => Err(key)
  }

  /** The strings of a list whose every item is a string. */
  function Strings(items: seq<Scalar>): (r: Option<seq<string>>)
    ensures r.Some? ==> |r.value| == |items| && forall i :: 0 <= i < |items| ==> items[i] == Str(r.value[i])
    ensures r.None? ==> exists i :: 0 <= i < |items| && !items[i].Str?
  {
    if |items| == 0 then Some([])
    else match (items[0], Strings(items[1..]))
      case (Str(s), Some(rest)) => Some([s] + rest)
      case (Str(_), None) => None
      case _ => None
  }

  /** The YAML list whose items are the given strings. */
  function StrItems(ss: seq<string>): (items: seq<Scalar>)
    ensures |items| == |ss| && forall i :: 0 <= i < |ss| ==> items[i] == Str(ss[i])
  {
    if |ss| == 0 then [] else [Str(ss[0])] + StrItems(ss[1..])
  }

  /** A YAML list whose every item is a string. */
  predicate IsStringList(v: Value)
  {
    v.List? && forall i :: 0 <= i < |v.items| ==> v.items[i].Str?
  }

  /**
   * `z.array(z.string()).default([])`: an absent field is the empty list, a
   * present one is accepted exactly when it is a list of strings, and then
   * it is that list; a failure names the field.
   */
  function StringList(fields: Entries<Value>, key: string): (r: Result<seq<string>>)
    ensures Get(fields, key).None? ==> r == Ok([])
    ensures Get(fields, key).Some? ==> (r.Ok? <==> IsStringList(Get(fields, key).value))
    ensures Get(fields, key).Some? && r.Ok? ==> Get(fields, key) == Some(List(StrItems(r.value)))
    ensures r.Err? ==> r.msg == key
  {
    match Field(fields, key)
    case None => Ok([])
    case Some(List(items)) =>
      (match Strings(items)
       case Some(ss) => assert StrItems(ss) == items; Ok(ss)
       case None => Err(key))
    case _ => Err(key)
  }

  /** `z.number().min(0).max(2).default(0.1)`. */
  function Temperature(fields: Entries<Value>, key: string): (r: Result<Decimal>)
    ensures r.Ok? ==> InTemperatureRange(r.value)
    ensures Get(fields, key).None? ==> r == Ok(DefaultTemperature)
    ensures Get(fields, key).Some? && r.Ok? ==> Get(fields, key) == Some(Leaf(Num(r.value)))
  {
    match Field(fields, key)
    case None => Ok(DefaultTemperature)
    case Some(Leaf(Num(d))) => if InTemperatureRange(d) then Ok(d) else Err(key)
    case _ => Err(key)
  }

  // ---------------------------------------------------------------- skills

  /** `McpConfigSchema`: `args` defaults to `[]`, and `command` or `package` must be a non-empty string. */
  function ValidateMcp(v: Value): (r: Result<McpConfig>)
    ensures r.Ok? ==> (r.value.command.Some? && r.value.command.value != "") || (r.value.package.Some? && r.value.package.value != "")
    ensures r.Ok? && v.Obj? && Get(v.fields, "args").None? ==> r.value.args == []
  {
    match v
    case Obj(fields) =>
      (match (OptionalString(fields, "command"), OptionalString(fields, "package"), StringList(fields, "args"))
       case (Ok(command), Ok(package), Ok(args)) =>
         if (command.Some? && command.value != "") || (package.Some? && package.value != "")
         then Ok(McpConfig(command, package, args))
         else Err("command")
       case (Err(e), _, _) => Err(e)
       case (_, Err(e), _) => Err(e)
       case (_, _, Err(e)) => Err(e))
    case _ => Err("mcp")
  }

  /** `z.enum(["mcp", "builtin"]).default("builtin")`. */
  function SkillKind(fields: Entries<Value>): (r: Result<SkillType>)
    ensures r == Ok(McpSkill) <==> Get(fields, "type") == Some(Leaf(Str("mcp")))
    ensures r == Ok(Builtin) <==> Get(fields, "type").None? || Get(fields, "type") == Some(Leaf(Str("builtin")))
  {
    match Field(fields, "type")
    case None => Ok(Builtin)
    case Some(Leaf(Str(t))) => if t == "mcp" then Ok(McpSkill) else if t == "builtin" then Ok(Builtin) else Err("type")
    case _ => Err("type")
  }

  /** `mcp: McpConfigSchema.optional()`: absent is fine whatever the type. */
  function OptionalMcp(fields: Entries<Value>): (r: Result<Option<McpConfig>>)
    ensures Get(fields, "mcp").None? ==> r == Ok(None)
    ensures Get(fields, "mcp").Some? ==> (r.Ok? <==> ValidateMcp(Get(fields, "mcp").value).Ok?)
    ensures Get(fields, "mcp").Some? && r.Ok? ==> r.value == Some(ValidateMcp(Get(fields, "mcp").value).value)
  {
    match Field(fields, "mcp")
    case None => Ok(None)
    case Some(v) => (match ValidateMcp(v) case Ok(c) => Ok(Some(c)) case Err(e) => Err(e))
  }

  /** `SkillFrontMatterSchema`. */
  function ValidateSkill(v: Value): (r: Result<SkillFrontMatter>)
    ensures r.Ok? <==>
      && v.Obj? && RequiredString(v.fields, "name").Ok? && IsValidName(RequiredString(v.fields, "name").value)
      && RequiredString(v.fields, "description").Ok? && SkillKind(v.fields).Ok? && OptionalMcp(v.fields).Ok?
    ensures r.Ok? ==> IsValidName(r.value.name)
    ensures r.Ok? ==> v.Obj? && Get(v.fields, "name") == Some(Leaf(Str(r.value.name)))
    ensures r.Ok? ==> Get(v.fields, "description") == Some(Leaf(Str(r.value.description)))
    ensures r.Ok? ==> SkillKind(v.fields) == Ok(r.value.kind) && OptionalMcp(v.fields) == Ok(r.value.mcp)
  {
    match v
    case Obj(fields) =>
      (match (RequiredString(fields, "name"), RequiredString(fields, "description"), SkillKind(fields), OptionalMcp(fields))
       case (Ok(name), Ok(description), Ok(kind), Ok(mcp)) =>
         if IsValidName(name) then Ok(SkillFrontMatter(name, description, kind, mcp)) else Err("name")
       case (Err(e), _, _, _) => Err(e)
       case (_, Err(e), _, _) => Err(e)
       case (_, _, Err(e), _) => Err(e)
       case (_, _, _, Err(e)) => Err(e))
    case _ => Err("(root)")
  }

  /** A skill of type `mcp` without an `mcp` block passes the schema; only the compiler rejects it. */
  lemma McpSkillWithoutBlockAccepted(name: string, description: string)
    requires IsValidName(name)
    ensures ValidateSkill(Obj([("name", Leaf(Str(name))), ("description", Leaf(Str(description))), ("type", Leaf(Str("mcp")))]))
            == Ok(SkillFrontMatter(name, description, McpSkill, None))
  {
    var fields := [("name", Leaf(Str(name))), ("description", Leaf(Str(description))), ("type", Leaf(Str("mcp")))];
    assert Get(fields, "name") == Some(Leaf(Str(name)));
    assert Get(fields, "description") == Some(Leaf(Str(description)));
    assert Get(fields[2..], "type") == Some(Leaf(Str("mcp")));
    assert Get(fields[1..], "type") == Get(fields[2..], "type");
    assert Get(fields, "mcp") == None;
  }

  // ---------------------------------------------------------------- agents

  /** `primary: z.boolean().default(false)`. */
  function Primary(fields: Entries<Value>): (r: Result<bool>)
    ensures Get(fields, "primary").None? ==> r == Ok(false)
    ensures r.Ok? && r.value ==> Get(fields, "primary") == Some(Leaf(Bool(true)))
  {
    match Field(fields, "primary")
    case None => Ok(false)
    case Some(Leaf(Bool(b))) => Ok(b)
    case _ => Err("primary")
  }

  /** `ModelVariantSchema.optional()`: an absent variant stays absent; the inner default is never reached. */
  function OptionalVariant(fields: Entries<Value>): (r: Result<Option<Variant>>)
    ensures Get(fields, "variant").None? ==> r == Ok(None)
  {
    match Field(fields, "variant")
    case None => Ok(None)
    case Some(Leaf(Str(t))) =>
      if t == "high" then Ok(Some(High))
      else if t == "medium" then Ok(Some(Medium))
      else if t == "low" then Ok(Some(Low))
      else Err("variant")
    case _ => Err("variant")
  }

  /** The identity fields: `name` (matching `^[a-z0-9-]+$`), `primary`, `role`, `description`. */
  datatype Identity = Identity(name: string, primary: bool, role: string, description: string)

  function AgentIdentity(fields: Entries<Value>): (r: Result<Identity>)
    ensures r.Ok? ==> IsValidName(r.value.name) && Get(fields, "name") == Some(Leaf(Str(r.value.name)))
    ensures r.Ok? ==> Get(fields, "role") == Some(Leaf(Str(r.value.role)))
    ensures r.Ok? ==> Get(fields, "description") == Some(Leaf(Str(r.value.description)))
    ensures r.Ok? ==> Primary(fields) == Ok(r.value.primary)
  {
    match (RequiredString(fields, "name"), Primary(fields), RequiredString(fields, "role"), RequiredString(fields, "description"))
    case (Ok(name), Ok(primary), Ok(role), Ok(description)) =>
      if IsValidName(name) then Ok(Identity(name, primary, role, description)) else Err("name")
    case (Err(e), _, _, _) => Err(e)
    case (_, Err(e), _, _) => Err(e)
    case (_, _, Err(e), _) => Err(e)
    case (_, _, _, Err(e)) => Err(e)
  }

  /** The six list fields, each defaulting to `[]`. */
  datatype Lists = Lists(delegates: seq<string>, skills: seq<string>, capabilities: seq<string>,
                         constraints: seq<string>, triggers: seq<string>, delegationHints: seq<string>)

  /** The six lists are accepted together, each being what its own `StringList` validation gives. */
  function AgentLists(fields: Entries<Value>): (r: Result<Lists>)
    ensures r.Ok? <==>
      && StringList(fields, "delegates").Ok? && StringList(fields, "skills").Ok?
      && StringList(fields, "capabilities").Ok? && StringList(fields, "constraints").Ok?
      && StringList(fields, "triggers").Ok? && StringList(fields, "delegationHints").Ok?
    ensures r.Ok? ==>
      && r.value.delegates == StringList(fields, "delegates").value
      && r.value.skills == StringList(fields, "skills").value
      && r.value.capabilities == StringList(fields, "capabilities").value
      && r.value.constraints == StringList(fields, "constraints").value
      && r.value.triggers == StringList(fields, "triggers").value
      && r.value.delegationHints == StringList(fields, "delegationHints").value
  {
    var d, s := StringList(fields, "delegates"), StringList(fields, "skills");
    var c, k := StringList(fields, "capabilities"), StringList(fields, "constraints");
    var t, h := StringList(fields, "triggers"), StringList(fields, "delegationHints");
    if d.Err? then Err(d.msg)
    else if s.Err? then Err(s.msg)
    else if c.Err? then Err(c.msg)
    else if k.Err? then Err(k.msg)
    else if t.Err? then Err(t.msg)
    else if h.Err? then Err(h.msg)
    else Ok(Lists(d.value, s.value, c.value, k.value, t.value, h.value))
  }

  /** `AgentFrontMatterSchema`. */
  function ValidateAgent(v: Value): (r: Result<AgentFrontMatter>)
    ensures r.Ok? ==> IsValidName(r.value.name) && InTemperatureRange(r.value.defaultTemperature)
    ensures r.Ok? ==> v.Obj? && Get(v.fields, "name") == Some(Leaf(Str(r.value.name)))
    ensures r.Ok? && Get(v.fields, "variant").None? ==> r.value.variant == None
    ensures r.Ok? && Get(v.fields, "defaultTemperature").None? ==> r.value.defaultTemperature == DefaultTemperature
    ensures r.Ok? && Get(v.fields, "primary").None? ==> !r.value.primary
    ensures r.Ok? && Get(v.fields, "delegates").None? ==> r.value.delegates == []
    ensures r.Ok? && Get(v.fields, "skills").None? ==> r.value.skills == []
    ensures r.Ok? && Get(v.fields, "capabilities").None? ==> r.value.capabilities == []
    ensures r.Ok? && Get(v.fields, "constraints").None? ==> r.value.constraints == []
    ensures r.Ok? && Get(v.fields, "triggers").None? ==> r.value.triggers == []
    ensures r.Ok? && Get(v.fields, "delegationHints").None? ==> r.value.delegationHints == []
    ensures r.Ok? && Get(v.fields, "delegationNote").None? ==> r.value.delegationNote == None
    ensures r.Ok? && r.value.delegationNote.Some? ==> Get(v.fields, "delegationNote") == Some(Leaf(Str(r.value.delegationNote.value)))
    ensures r.Ok? ==>
      && Get(v.fields, "role") == Some(Leaf(Str(r.value.role)))
      && Get(v.fields, "description") == Some(Leaf(Str(r.value.description)))
      && Get(v.fields, "defaultModel") == Some(Leaf(Str(r.value.defaultModel)))
    ensures r.Ok? ==>
      AgentLists(v.fields) == Ok(Lists(r.value.delegates, r.value.skills, r.value.capabilities,
                                       r.value.constraints, r.value.triggers, r.value.delegationHints))
    ensures r.Ok? ==> OptionalVariant(v.fields) == Ok(r.value.variant)
    ensures r.Ok? ==> Temperature(v.fields, "defaultTemperature") == Ok(r.value.defaultTemperature)
  {
    if !v.Obj? then Err("(root)")
    else
      var fields := v.fields;
      var id := AgentIdentity(fields);
      var ls := AgentLists(fields);
      var variant := OptionalVariant(fields);
      var model := RequiredString(fields, "defaultModel");
      var temp := Temperature(fields, "defaultTemperature");
      var note := OptionalString(fields, "delegationNote");
      if id.Err? then Err(id.msg)
      else if ls.Err? then Err(ls.msg)
      else if variant.Err? then Err(variant.msg)
      else if model.Err? then Err(model.msg)
      else if temp.Err? then Err(temp.msg)
      else if note.Err? then Err(note.msg)
      else
        var i, l := id.value, ls.value;
        Ok(AgentFrontMatter(i.name, i.primary, i.role, i.description, l.delegates, l.skills, variant.value,
                            model.value, temp.value, l.capabilities, l.constraints, l.triggers, l.delegationHints, note.value))
  }

  /** An agent name outside `^[a-z0-9-]+$` is rejected. */
  lemma InvalidAgentNameRejected(v: Value)
    requires v.Obj? && Get(v.fields, "name").Some? && Get(v.fields, "name").value.Leaf?
    requires Get(v.fields, "name").value.scalar.Str? && !IsValidName(Get(v.fields, "name").value.scalar.s)
    ensures ValidateAgent(v).Err?
  {
  }

  /** A temperature outside [0, 2] is rejected. */
  lemma TemperatureOutOfRangeRejected(v: Value, d: Decimal)
    requires v.Obj? && Get(v.fields, "defaultTemperature") == Some(Leaf(Num(d))) && !InTemperatureRange(d)
    ensures ValidateAgent(v).Err?
  {
  }

  // ---------------------------------------------------------------- manifest

  /** `ProviderPresetSchema`. */
  function ValidatePreset(v: Value): (r: Result<ProviderPreset>)
    ensures r.Ok? ==> v.Obj? && Get(v.fields, "low") == Some(Leaf(Str(r.value.low)))
    ensures r.Ok? ==> Get(v.fields, "high") == Some(Leaf(Str(r.value.high))) && Get(v.fields, "medium") == Some(Leaf(Str(r.value.medium)))
  {
    match v
    case Obj(fields) =>
      (match (RequiredString(fields, "high"), RequiredString(fields, "medium"), RequiredString(fields, "low"))
       case (Ok(h), Ok(m), Ok(l)) => Ok(ProviderPreset(h, m, l))
       case (Err(e), _, _) => Err(e)
       case (_, Err(e), _) => Err(e)
       case (_, _, Err(e)) => Err(e))
    case _ => Err("preset")
  }

  /** `z.record(z.string(), ProviderPresetSchema)`: every entry must be a preset; order is kept. */
  function ValidatePresets(entries: Entries<Value>): (r: Result<Entries<ProviderPreset>>)
    ensures r.Ok? ==> Keys(r.value) == Keys(entries)
  {
    if |entries| == 0 then Ok([])
    else match (ValidatePreset(entries[0].1), ValidatePresets(entries[1..]))
      case (Ok(p), Ok(rest)) => Ok([(entries[0].0, p)] + rest)
      case (Err(e), _) => Err(e)
      case (_, Err(e)) => Err(e)
  }

  /**
   * The provider record is accepted exactly when every entry is a preset,
   * and then each entry keeps its key and holds that entry's validated preset.
   */
  lemma {:induction false} PresetsAccepted(entries: Entries<Value>)
    ensures ValidatePresets(entries).Ok? <==> forall i :: 0 <= i < |entries| ==> ValidatePreset(entries[i].1).Ok?
    ensures ValidatePresets(entries).Ok? ==>
      && |ValidatePresets(entries).value| == |entries|
      && forall i :: 0 <= i < |entries| ==>
           ValidatePresets(entries).value[i] == (entries[i].0, ValidatePreset(entries[i].1).value)
  {
    if |entries| > 0 {
      var tail := entries[1..];
      PresetsAccepted(tail);
      assert forall i :: 1 <= i < |entries| ==> entries[i] == tail[i - 1];
      if ValidatePresets(entries).Ok? {
        var rest := ValidatePresets(tail).value;
        assert ValidatePresets(entries).value == [(entries[0].0, ValidatePreset(entries[0].1).value)] + rest;
      }
    }
  }

  /** `defaults: z.object({temperature: ...}).default({temperature: 0.1})`. */
  function DefaultsTemperature(fields: Entries<Value>): (r: Result<Decimal>)
    ensures r.Ok? ==> InTemperatureRange(r.value)
    ensures Get(fields, "defaults").None? ==> r == Ok(DefaultTemperature)
  {
    match Field(fields, "defaults")
    case None => Ok(DefaultTemperature)
    case Some(Obj(inner)) => Temperature(inner, "temperature")
    case _ => Err("defaults")
  }

  /** `ManifestFrontMatterSchema`. */
  function ValidateManifest(v: Value): (r: Result<ManifestFrontMatter>)
    ensures r.Ok? ==> InTemperatureRange(r.value.temperature)
    ensures r.Ok? ==> v.Obj? && Get(v.fields, "providers").Some? && Get(v.fields, "providers").value.Obj?
    ensures r.Ok? ==> Keys(r.value.providers) == Keys(Get(v.fields, "providers").value.fields)
    ensures r.Ok? && Get(v.fields, "defaults").None? ==> r.value.temperature == DefaultTemperature
    ensures r.Ok? ==> Get(v.fields, "name") == Some(Leaf(Str(r.value.name)))
    ensures r.Ok? ==> Get(v.fields, "version") == Some(Leaf(Str(r.value.version)))
    ensures r.Ok? ==> DefaultsTemperature(v.fields) == Ok(r.value.temperature)
    ensures r.Ok? ==> ValidatePresets(Get(v.fields, "providers").value.fields) == Ok(r.value.providers)
  {
    match v
    case Obj(fields) =>
      (match (RequiredString(fields, "name"), RequiredString(fields, "version"), DefaultsTemperature(fields), Field(fields, "providers"))
       case (Ok(name), Ok(version), Ok(temp), Some(Obj(ps))) =>
         (match ValidatePresets(ps)
          case Ok(providers) => Ok(ManifestFrontMatter(name, version, temp, providers))
          case Err(e) => Err(e))
       case (Err(e), _, _, _) => Err(e)
       case (_, Err(e), _, _) => Err(e)
       case (_, _, Err(e), _) => Err(e)
       case (_, _, _, _) => Err("providers"))
    case _ => Err("(root)")
  }
}
