/**
 * Where OpenCode keeps its configuration: `$XDG_CONFIG_HOME/opencode` when
 * that variable is set, otherwise `~/.config/opencode`. The installer and
 * the hooks share this rule with the plugin loader. Environment variables,
 * the home directory and file existence are inputs.
 */
module ConfigPaths {
  import opened Wrappers
  import opened Text
  import opened JsonValues

  /** An environment variable that is set to a non-empty (truthy) value. */
  predicate IsSet(env: Option<string>)
  {
    env.Some? && env.value != ""
  }

  /** `path.join` of segments that need no normalisation. */
  function PathJoin(parts: seq<string>): string
  {
    Join(parts, "/")
  }

  /** `XDG_CONFIG_HOME` when set and non-empty, otherwise `~/.config`. */
  function UserConfigDir(xdgConfigHome: Option<string>, home: string): (dir: string)
    ensures IsSet(xdgConfigHome) ==> dir == xdgConfigHome.value
    ensures !IsSet(xdgConfigHome) ==> dir == home + "/.config"
  {
    if IsSet(xdgConfigHome) then xdgConfigHome.value
    else
      assert Join([".config"], "/") == ".config";
      PathJoin([home, ".config"])
  }

  /** `getConfigDir`: the OpenCode directory under the user's configuration directory. */
  function ConfigDir(xdgConfigHome: Option<string>, home: string): (dir: string)
    ensures IsSet(xdgConfigHome) ==> dir == xdgConfigHome.value + "/opencode"
    ensures !IsSet(xdgConfigHome) ==> dir == home + "/.config/opencode"
  {
    assert Join(["opencode"], "/") == "opencode";
    PathJoin([UserConfigDir(xdgConfigHome, home), "opencode"])
  }

  /** A file directly inside the OpenCode directory. */
  function InConfigDir(xdgConfigHome: Option<string>, home: string, file: string): (path: string)
    ensures path == ConfigDir(xdgConfigHome, home) + "/" + file
  {
    assert Join([file], "/") == file;
    PathJoin([ConfigDir(xdgConfigHome, home), file])
  }

  /** `getConfigJson`. */
  function ConfigJson(xdgConfigHome: Option<string>, home: string): string
  {
    InConfigDir(xdgConfigHome, home, "opencode.json")
  }

  /** `getConfigJsonc`. */
  function ConfigJsonc(xdgConfigHome: Option<string>, home: string): string
  {
    InConfigDir(xdgConfigHome, home, "opencode.jsonc")
  }

  /** `getOpenCodeConfigPaths`: the `.json` file first, then the `.jsonc` one. */
  function OpenCodeConfigPaths(xdgConfigHome: Option<string>, home: string): (paths: seq<string>)
    ensures |paths| == 2
    ensures paths[0] == ConfigDir(xdgConfigHome, home) + "/opencode.json"
    ensures paths[1] == ConfigDir(xdgConfigHome, home) + "/opencode.jsonc"
  {
    [ConfigJson(xdgConfigHome, home), ConfigJsonc(xdgConfigHome, home)]
  }

  /**
   * `getExistingConfigPath`, with the existence of the two files as inputs:
   * the `.json` file if it exists, else the `.jsonc` file if it exists,
   * else the `.json` file.
   */
  function ExistingConfigPath(xdgConfigHome: Option<string>, home: string, jsonExists: bool, jsoncExists: bool): (path: string)
    ensures path in OpenCodeConfigPaths(xdgConfigHome, home)
    ensures path == ConfigJsonc(xdgConfigHome, home) <==> !jsonExists && jsoncExists
  {
    var jsonPath := ConfigJson(xdgConfigHome, home);
    if jsonExists then jsonPath
    else if jsoncExists then ConfigJsonc(xdgConfigHome, home)
    else jsonPath
  }

  /** `replace(/\//g, "-")`. */
  function DashSlashes(s: string): (r: string)
    ensures |r| == |s|
    ensures forall i :: 0 <= i < |s| ==> r[i] == if s[i] == '/' then '-' else s[i]
    ensures '/' !in r
  {
    ReplaceSingleChar(s, '/', '-');
    ReplaceAll(s, "/", "-")
  }

  /** `replace(/^@/, "").replace(/\//g, "-")`: one leading `@` dropped, every `/` made a `-`. */
  function SanitizeName(name: string): (r: string)
  {
    DashSlashes(if |name| > 0 && name[0] == '@' then name[1..] else name)
  }

  /** A POSIX absolute path. */
  predicate IsAbsolute(path: string)
  {
    |path| > 0 && path[0] == '/'
  }

  /**
   * `getLiteConfig(packageName)`. `manifest` is the parsed `package.json`
   * under an absolute `packageName` (`None` when it is missing or does not
   * parse: both are ignored). A truthy `name` that is not a string makes the
   * later `replace` throw.
   */
  function LiteConfig(packageName: string, manifest: Option<Json>, xdgConfigHome: Option<string>, home: string): Result<string>
  {
    var found := if IsAbsolute(packageName) && manifest.Some? then Member(manifest.value, "name") else JUndefined;
    if Truthy(found) && !found.JStr? then Err("name.replace is not a function")
    else
      var name := if Truthy(found) then found.s else packageName;
      Ok(InConfigDir(xdgConfigHome, home, SanitizeName(name) + ".json"))
  }

  // ---------------------------------------------------------------- properties

  /** Replacing a one-character pattern by one character maps each position on its own. */
  lemma ReplaceSingleChar(s: string, from: char, to: char)
    ensures |ReplaceAll(s, [from], [to])| == |s|
    ensures forall i :: 0 <= i < |s| ==> ReplaceAll(s, [from], [to])[i] == if s[i] == from then to else s[i]
  {
    ReplaceFromSingleChar(s, 0, from, to);
  }

  lemma {:induction false} ReplaceFromSingleChar(s: string, k: nat, from: char, to: char)
    requires k <= |s|
    ensures |ReplaceFrom(s, k, [from], [to])| == |s| - k
    ensures forall i :: k <= i < |s| ==> ReplaceFrom(s, k, [from], [to])[i - k] == if s[i] == from then to else s[i]
    decreases |s| - k
  {
    if k < |s| {
      ReplaceFromSingleChar(s, k + 1, from, to);
      var rest := ReplaceFrom(s, k + 1, [from], [to]);
      var head := ReplaceCharStep(s, k, from, to);
      forall i | k < i < |s|
        ensures ReplaceFrom(s, k, [from], [to])[i - k] == if s[i] == from then to else s[i]
      {
        assert ([head] + rest)[i - k] == rest[i - (k + 1)];
      }
    }
  }

  /** One step of the scan: the character at `k`, replaced when it is the pattern, then the rest. */
  lemma ReplaceCharStep(s: string, k: nat, from: char, to: char) returns (head: char)
    requires k < |s|
    ensures head == if s[k] == from then to else s[k]
    ensures ReplaceFrom(s, k, [from], [to]) == [head] + ReplaceFrom(s, k + 1, [from], [to])
  {
    head := if s[k] == from then to else s[k];
    assert s[k..k + 1] == [s[k]];
    if s[k] == from {
      SubstitutionPatterns("", [from], s[..k], s[k + 1..]);
    }
  }

  /**
   * The lite configuration is a `.json` file directly in the OpenCode
   * directory, named after the package: a scoped name `@scope/pkg` becomes
   * `scope-pkg.json`, and the name never contributes a `/`.
   */
  lemma LiteConfigName(packageName: string, manifest: Option<Json>, xdgConfigHome: Option<string>, home: string)
    ensures LiteConfig(packageName, manifest, xdgConfigHome, home).Ok? ==>
      exists file :: '/' !in file && LiteConfig(packageName, manifest, xdgConfigHome, home).value ==
        ConfigDir(xdgConfigHome, home) + "/" + file + ".json"
    ensures !IsAbsolute(packageName) ==>
      LiteConfig(packageName, manifest, xdgConfigHome, home) == Ok(ConfigDir(xdgConfigHome, home) + "/" + SanitizeName(packageName) + ".json")
  {
    var r := LiteConfig(packageName, manifest, xdgConfigHome, home);
    if r.Ok? {
      var found := if IsAbsolute(packageName) && manifest.Some? then Member(manifest.value, "name") else JUndefined;
      var file := SanitizeName(if Truthy(found) then found.s else packageName);
      assert r.value == ConfigDir(xdgConfigHome, home) + "/" + file + ".json";
    }
  }

  /** A scoped package name loses its `@`, and its `/` becomes a `-`. */
  lemma ScopedName(scope: string, pkg: string)
    requires '/' !in scope && '/' !in pkg
    ensures SanitizeName("@" + scope + "/" + pkg) == scope + "-" + pkg
  {
    var name := "@" + scope + "/" + pkg;
    var body := scope + "/" + pkg;
    assert name[1..] == body;
    var r := DashSlashes(body);
    assert SanitizeName(name) == r;
    var expected := scope + "-" + pkg;
    forall i | 0 <= i < |r|
      ensures r[i] == expected[i]
    {
      if i < |scope| {
        assert body[i] == scope[i];
      } else if i > |scope| {
        assert body[i] == pkg[i - |scope| - 1];
      }
    }
  }

  /** An absolute path whose `package.json` names the package uses that name instead. */
  lemma ManifestNameWins(packageName: string, name: string, fields: seq<(string, Json)>, xdgConfigHome: Option<string>, home: string)
    requires IsAbsolute(packageName) && name != ""
    requires Member(JObj(fields), "name") == JStr(name)
    ensures LiteConfig(packageName, Some(JObj(fields)), xdgConfigHome, home) ==
      LiteConfig(name, None, xdgConfigHome, home)
  {
  }
}
