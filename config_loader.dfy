/**
 * Loading the plugin configuration: a user file and a project file, each
 * validated against the configuration schema, merged with the project
 * winning; the preset named by the environment or the configuration is
 * then merged under the root agent overrides.
 *
 * The file system and the environment are inputs: `files` maps each path
 * that exists, can be read and holds well-formed JSON to its parsed value.
 */
module ConfigLoader {
  import opened Wrappers
  import opened Text
  import opened Assoc
  import opened JsonValues
  import opened ConfigSchema
  import opened ConfigPaths

  const ConfigFilename := "firefly-swarm.json"

  // ---------------------------------------------------------------- deep merge

  /**
   * `deepMerge(base, override)`: an undefined (falsy) side yields the other;
   * two objects merge key by key, nested objects recursively, anything else
   * taken from the override. A truthy non-object is outside `deepMerge`'s
   * parameter types; the override is returned for it.
   */
  function DeepMerge(base: Json, over: Json): (r: Json)
    ensures base.JObj? && over.JObj? ==> r.JObj?
    decreases over, 1, 0
  {
    if !Truthy(base) then over
    else if !Truthy(over) then base
    else if base.JObj? && over.JObj? then JObj(MergeFields(base.fields, over, |over.fields|))
    else over
  }

  /** The loop of `deepMerge` after its first `n` override keys, starting from a copy of `base`. */
  function MergeFields(base: Entries<Json>, over: Json, n: nat): Entries<Json>
    requires over.JObj? && n <= |over.fields|
    decreases over, 0, n
  {
    if n == 0 then base
    else
      var acc := MergeFields(base, over, n - 1);
      var key, ov := over.fields[n - 1].0, over.fields[n - 1].1;
      assert over.fields[n - 1] in over.fields;
      Put(acc, key, Merged(Field(base, key), ov))
  }

  /** The value `deepMerge` stores under a key the override has. */
  function Merged(bv: Json, ov: Json): Json
    decreases ov, 2, 0
  {
    if bv.JObj? && ov.JObj? then DeepMerge(bv, ov) else ov
  }

  method MergeObjects(base: Json, over: Json) returns (r: Json)
    ensures r == DeepMerge(base, over)
    decreases over, 1
  {
    if !Truthy(base) {
      return over;
    }
    if !Truthy(over) {
      return base;
    }
    if !(base.JObj? && over.JObj?) {
      return over;
    }
    var fields := MergeLoop(base.fields, over);
    return JObj(fields);
  }

  /** The key loop of `deepMerge`: each override key set on a copy of the base. */
  method MergeLoop(base: Entries<Json>, over: Json) returns (result: Entries<Json>)
    requires over.JObj?
    ensures result == MergeFields(base, over, |over.fields|)
    decreases over, 0
  {
    result := base;
    var i := 0;
    assert result == MergeFields(base, over, 0);
    while i < |over.fields|
      invariant 0 <= i <= |over.fields|
      invariant result == MergeFields(base, over, i)
    {
      var key, ov := over.fields[i].0, over.fields[i].1;
      var bv := Field(base, key);
      assert over.fields[i] in over.fields;
      var value := ov;
      if bv.JObj? && ov.JObj? {
        value := MergeObjects(bv, ov);
      }
      assert value == Merged(bv, ov);
      assert MergeFields(base, over, i + 1) == Put(MergeFields(base, over, i), key, Merged(bv, ov));
      result := Put(result, key, value);
      i := i + 1;
      assert result == MergeFields(base, over, i);
    }
  }

  /** After `n` override keys, a key among them holds its merged value; any other key holds the base's. */
  lemma {:induction false} MergeFieldsKey(base: Entries<Json>, over: Json, n: nat, k: string)
    requires over.JObj? && n <= |over.fields| && DistinctKeys(over.fields)
    ensures Get(MergeFields(base, over, n), k) ==
      if HasKey(over.fields[..n], k) then Some(Merged(Field(base, k), Field(over.fields[..n], k))) else Get(base, k)
  {
    if n > 0 {
      MergeFieldsKey(base, over, n - 1, k);
      PrefixLast(over.fields, n, k);
      var last := over.fields[n - 1];
      assert MergeFields(base, over, n) == Put(MergeFields(base, over, n - 1), last.0, Merged(Field(base, last.0), last.1));
    }
  }

  /**
   * Merging two objects: the result has the keys of both; a key only the base has keeps its value; a key
   * the override has takes the override's value, except that two nested
   * objects are merged in turn.
   */
  lemma MergeObjectsFields(base: Json, over: Json)
    requires base.JObj? && over.JObj? && DistinctKeys(over.fields)
    ensures DeepMerge(base, over).JObj?
    ensures forall k :: HasKey(DeepMerge(base, over).fields, k) <==> HasKey(base.fields, k) || HasKey(over.fields, k)
    ensures forall k :: !HasKey(over.fields, k) ==> Get(DeepMerge(base, over).fields, k) == Get(base.fields, k)
    ensures forall k :: HasKey(over.fields, k) ==>
      Field(DeepMerge(base, over).fields, k) == Merged(Field(base.fields, k), Field(over.fields, k))
  {
    var n := |over.fields|;
    var r := MergeFields(base.fields, over, n);
    assert DeepMerge(base, over).fields == r;
    assert over.fields[..n] == over.fields;
    forall k
      ensures HasKey(r, k) <==> HasKey(base.fields, k) || HasKey(over.fields, k)
      ensures !HasKey(over.fields, k) ==> Get(r, k) == Get(base.fields, k)
      ensures HasKey(over.fields, k) ==> Field(r, k) == Merged(Field(base.fields, k), Field(over.fields, k))
    {
      MergeFieldsKey(base.fields, over, n, k);
    }
  }

  /** Merging with an undefined side yields the other side unchanged. */
  lemma MergeUndefined(v: Json)
    ensures DeepMerge(JUndefined, v) == v
    ensures v.JObj? ==> DeepMerge(v, JUndefined) == v
  {
  }

  // ---------------------------------------------------------------- paths and files

  function UserConfigPath(xdgConfigHome: Option<string>, home: string, filename: string): string
  {
    PathJoin([UserConfigDir(xdgConfigHome, home), "opencode", filename])
  }

  function ProjectConfigPath(directory: string, filename: string): (path: string)
    ensures path == directory + "/.opencode/" + filename
  {
    assert Join([filename], "/") == filename;
    assert Join([".opencode", filename], "/") == ".opencode/" + filename;
    PathJoin([directory, ".opencode", filename])
  }

  /** `loadConfigFromPath`: the validated configuration, or nothing when the file is missing, unreadable or invalid. */
  function LoadConfigFromPath(files: Entries<Json>, path: string): (r: Option<Entries<Json>>)
    ensures r.Some? <==> HasKey(files, path) && ValidatePluginConfig(Field(files, path)).Some?
    ensures r.Some? ==> r == ValidatePluginConfig(Field(files, path))
  {
    match Get(files, path)
    case None => None
    case Some(raw) => ValidatePluginConfig(raw)
  }

  // ---------------------------------------------------------------- merging the two files

  /** `{ ...a, ...b }`: every entry of `b` set on a copy of `a`, in order. */
  function Spread(a: Entries<Json>, b: Entries<Json>): Entries<Json>
  {
    if |b| == 0 then a
    else Put(Spread(a, b[..|b| - 1]), b[|b| - 1].0, b[|b| - 1].1)
  }

  lemma {:induction false} SpreadGet(a: Entries<Json>, b: Entries<Json>)
    requires DistinctKeys(b)
    ensures forall k :: Get(Spread(a, b), k) == if HasKey(b, k) then Get(b, k) else Get(a, k)
  {
    if |b| > 0 {
      var init := b[..|b| - 1];
      var last := b[|b| - 1];
      assert b == init + [last];
      assert DistinctKeys(init) by {
        forall i, j | 0 <= i < j < |init|
          ensures Keys(init)[i] != Keys(init)[j]
        {
          assert Keys(init)[i] == Keys(b)[i] && Keys(init)[j] == Keys(b)[j];
        }
      }
      assert !HasKey(init, last.0) by {
        forall j | 0 <= j < |init|
          ensures Keys(init)[j] != last.0
        {
          assert Keys(init)[j] == Keys(b)[j] && Keys(b)[|b| - 1] == last.0;
        }
      }
      SpreadGet(a, init);
      forall k
        ensures Get(Spread(a, b), k) == if HasKey(b, k) then Get(b, k) else Get(a, k)
      {
        HasKeyConcat(init, [last], k);
        GetConcat(init, [last], k);
      }
    }
  }

  /** The project file over the user file, with `agents` and `tmux` deep-merged. */
  function WithProject(user: Entries<Json>, project: Entries<Json>): Entries<Json>
  {
    var spread := Spread(user, project);
    var withAgents := Put(spread, "agents", DeepMerge(Field(user, "agents"), Field(project, "agents")));
    Put(withAgents, "tmux", DeepMerge(Field(user, "tmux"), Field(project, "tmux")))
  }

  /** `FIREFLY_SWARM_PRESET`, when set and non-empty, replaces the configured preset name. */
  function WithEnvPreset(config: Entries<Json>, envPreset: Option<string>): Entries<Json>
  {
    if IsSet(envPreset) then Put(config, "preset", JStr(envPreset.value)) else config
  }

  /** `config.presets?.[config.preset]`. */
  function PresetOf(config: Entries<Json>): Json
  {
    var presets := Field(config, "presets");
    var name := Field(config, "preset");
    if presets.JObj? && name.JStr? then Field(presets.fields, name.s) else JUndefined
  }

  /** A named preset that exists is merged under the root agents (the root wins); otherwise nothing changes. */
  function ResolvePreset(config: Entries<Json>): Entries<Json>
  {
    if Truthy(Field(config, "preset")) && Truthy(PresetOf(config)) then
      Put(config, "agents", DeepMerge(PresetOf(config), Field(config, "agents")))
    else config
  }

  /** The configuration `loadPluginConfig` returns. */
  function PluginConfig(files: Entries<Json>, xdgConfigHome: Option<string>, home: string,
                        directory: string, filename: string, envPreset: Option<string>): Entries<Json>
  {
    var user := LoadConfigFromPath(files, UserConfigPath(xdgConfigHome, home, filename));
    var project := LoadConfigFromPath(files, ProjectConfigPath(directory, filename));
    var config := if user.Some? then user.value else [];
    var config' := if project.Some? then WithProject(config, project.value) else config;
    ResolvePreset(WithEnvPreset(config', envPreset))
  }

  method LoadPluginConfig(files: Entries<Json>, xdgConfigHome: Option<string>, home: string,
                          directory: string, filename: string, envPreset: Option<string>)
    returns (config: Entries<Json>)
    ensures config == PluginConfig(files, xdgConfigHome, home, directory, filename, envPreset)
  {
    var userConfigPath := UserConfigPath(xdgConfigHome, home, filename);
    var projectConfigPath := ProjectConfigPath(directory, filename);
    var user := LoadConfigFromPath(files, userConfigPath);
    config := if user.Some? then user.value else [];
    var project := LoadConfigFromPath(files, projectConfigPath);
    if project.Some? {
      var agents := MergeObjects(Field(config, "agents"), Field(project.value, "agents"));
      var tmux := MergeObjects(Field(config, "tmux"), Field(project.value, "tmux"));
      config := Put(Put(Spread(config, project.value), "agents", agents), "tmux", tmux);
    }
    if IsSet(envPreset) {
      config := Put(config, "preset", JStr(envPreset.value));
    }
    if Truthy(Field(config, "preset")) {
      var preset := PresetOf(config);
      if Truthy(preset) {
        var agents := MergeObjects(preset, Field(config, "agents"));
        config := Put(config, "agents", agents);
      }
    }
  }

  // ---------------------------------------------------------------- properties

  /** With no usable file and no environment preset the configuration is empty. */
  lemma NoConfigFiles(files: Entries<Json>, xdgConfigHome: Option<string>, home: string,
                      directory: string, filename: string, envPreset: Option<string>)
    requires LoadConfigFromPath(files, UserConfigPath(xdgConfigHome, home, filename)).None?
    requires LoadConfigFromPath(files, ProjectConfigPath(directory, filename)).None?
    requires !IsSet(envPreset)
    ensures PluginConfig(files, xdgConfigHome, home, directory, filename, envPreset) == []
  {
    var empty: Entries<Json> := [];
    assert Field(empty, "preset") == JUndefined;
  }

  /**
   * The project file wins at the top level: a key it sets replaces the user's
   * value; `agents` and `tmux` are the deep merge of both files' values.
   */
  lemma ProjectOverridesUser(user: Entries<Json>, project: Entries<Json>, k: string)
    requires DistinctKeys(project)
    ensures k != "agents" && k != "tmux" ==>
      Get(WithProject(user, project), k) == if HasKey(project, k) then Get(project, k) else Get(user, k)
    ensures Field(WithProject(user, project), "agents") == DeepMerge(Field(user, "agents"), Field(project, "agents"))
    ensures Field(WithProject(user, project), "tmux") == DeepMerge(Field(user, "tmux"), Field(project, "tmux"))
  {
    SpreadGet(user, project);
  }

  /** A set environment preset is the preset name the rest of loading sees; nothing else changes. */
  lemma EnvPresetSelects(config: Entries<Json>, envPreset: Option<string>, k: string)
    requires IsSet(envPreset)
    ensures Field(WithEnvPreset(config, envPreset), "preset") == JStr(envPreset.value)
    ensures k != "preset" ==> Get(WithEnvPreset(config, envPreset), k) == Get(config, k)
  {
  }

  /** A preset name that is unset, or names no preset, leaves the configuration as it was. */
  lemma MissingPresetIgnored(config: Entries<Json>)
    requires !Truthy(Field(config, "preset")) || !Truthy(PresetOf(config))
    ensures ResolvePreset(config) == config
  {
  }

  /**
   * A preset that exists fills in the root agent overrides: an agent only the
   * preset configures keeps the preset's settings, an agent only the root
   * configures keeps the root's, and where both configure an agent their
   * settings are merged with the root's values winning.
   */
  lemma PresetUnderRootAgents(config: Entries<Json>, k: string)
    requires Truthy(Field(config, "preset")) && PresetOf(config).JObj?
    requires Field(config, "agents").JObj? && DistinctKeys(Field(config, "agents").fields)
    ensures Field(ResolvePreset(config), "agents").JObj?
    ensures var agents := Field(ResolvePreset(config), "agents").fields;
      var preset := PresetOf(config).fields;
      var root := Field(config, "agents").fields;
      && (HasKey(agents, k) <==> HasKey(preset, k) || HasKey(root, k))
      && (!HasKey(root, k) ==> Get(agents, k) == Get(preset, k))
      && (HasKey(root, k) && !Field(preset, k).JObj? ==> Get(agents, k) == Get(root, k))
      && (Field(preset, k).JObj? && Field(root, k).JObj? ==>
            Field(agents, k) == DeepMerge(Field(preset, k), Field(root, k)))
    ensures forall other :: other != "agents" ==> Get(ResolvePreset(config), other) == Get(config, other)
  {
    MergeObjectsFields(PresetOf(config), Field(config, "agents"));
  }
}
