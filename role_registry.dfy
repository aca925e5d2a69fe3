/**
 * Loading role files by agent name, with a cache of parsed roles. The
 * role files are the registry's compiled-in texts, given here as an input
 * table from agent name to file content.
 */
module RoleRegistry {
  import opened Wrappers
  import opened Text
  import opened Decimals
  import opened Assoc
  import opened RoleFrontMatter

  datatype LoadedRole = LoadedRole(frontMatter: RoleFrontMatter, content: string, raw: string)

  datatype Mode = PrimaryMode | SubagentMode

  /** The fields of an agent configuration the registries and the plugin set. */
  datatype AgentConfig = AgentConfig(
    model: string,
    /** `None` stands for `NaN`. */
    temperature: Option<Decimal>,
    prompt: string,
    /** Absent in the configurations of the older registry. */
    mode: Option<Mode>,
    permission: Option<Entries<string>>)

  datatype AgentDefinition = AgentDefinition(name: string, description: string, config: AgentConfig)

  function UnknownAgent(name: string, available: seq<string>): string
  {
    "Unknown agent: " + name + ". Available: " + Join(available, ", ")
  }

  /** What `loadRole(name)` yields, whatever the cache holds. */
  function Load(roleFiles: Entries<string>, name: string): (r: Result<LoadedRole>)
    ensures (Get(roleFiles, name) == None || Get(roleFiles, name) == Some("")) ==> r == Err(UnknownAgent(name, Keys(roleFiles)))
    ensures r.Ok? ==> (Get(roleFiles, name) == Some(r.value.raw)
      && ParseRoleFile(r.value.raw) == Ok(ParsedRole(r.value.frontMatter, r.value.content)))
    ensures r.Err? && Get(roleFiles, name).Some? && Get(roleFiles, name) != Some("") ==>
      ParseRoleFile(Get(roleFiles, name).value) == Err(r.msg)
  {
    match Get(roleFiles, name)
    case None => Err(UnknownAgent(name, Keys(roleFiles)))
    case Some(raw) =>
      if raw == "" then Err(UnknownAgent(name, Keys(roleFiles)))
      else
        match ParseRoleFile(raw)
        case Err(msg) => Err(msg)
        case Ok(p) => Ok(LoadedRole(p.frontMatter, p.content, raw))
  }

  function Metadata(roleFiles: Entries<string>, name: string): Result<RoleFrontMatter>
  {
    match Load(roleFiles, name)
    case Ok(loaded) => Ok(loaded.frontMatter)
    case Err(msg) => Err(msg)
  }

  function Prompt(roleFiles: Entries<string>, name: string): Result<string>
  {
    match Load(roleFiles, name)
    case Ok(loaded) => Ok(loaded.content)
    case Err(msg) => Err(msg)
  }

  /** The values of a list of outcomes in order, or the first failure among them. */
  function Collect<T>(rs: seq<Result<T>>): Result<seq<T>>
  {
    if |rs| == 0 then Ok([])
    else
      match Collect(rs[..|rs| - 1])
      case Err(msg) => Err(msg)
      case Ok(init) =>
        match rs[|rs| - 1]
        case Err(msg) => Err(msg)
        case Ok(v) => Ok(init + [v])
  }

  /** Collecting succeeds exactly when every outcome does, and then keeps every value at its position. */
  lemma {:induction false} CollectOk<T>(rs: seq<Result<T>>)
    ensures Collect(rs).Ok? <==> forall k :: 0 <= k < |rs| ==> rs[k].Ok?
    ensures Collect(rs).Ok? ==>
      (|Collect(rs).value| == |rs| && forall k :: 0 <= k < |rs| ==> Collect(rs).value[k] == rs[k].value)
  {
    if |rs| > 0 {
      var init := rs[..|rs| - 1];
      CollectOk(init);
      assert forall k :: 0 <= k < |init| ==> init[k] == rs[k];
    }
  }

  /** When some outcome fails, the first failure is the one collected. */
  lemma {:induction false} CollectFirstErr<T>(rs: seq<Result<T>>, i: nat)
    requires i < |rs| && rs[i].Err? && forall k :: 0 <= k < i ==> rs[k].Ok?
    ensures Collect(rs) == Err(rs[i].msg)
  {
    if i < |rs| - 1 {
      var init := rs[..|rs| - 1];
      assert init[i] == rs[i];
      CollectFirstErr(init, i);
    } else {
      var init := rs[..|rs| - 1];
      CollectOk(init);
      assert forall k :: 0 <= k < |init| ==> init[k] == rs[k];
    }
  }

  /** Each name's metadata outcome, in order. */
  function Metadatas(roleFiles: Entries<string>, names: seq<string>): (rs: seq<Result<RoleFrontMatter>>)
    ensures |rs| == |names| && forall k :: 0 <= k < |names| ==> rs[k] == Metadata(roleFiles, names[k])
  {
    seq(|names|, k requires 0 <= k < |names| => Metadata(roleFiles, names[k]))
  }

  /** `names.map(getAgentMetadata)`: the metadata in order, or the first failure. */
  function MetadataList(roleFiles: Entries<string>, names: seq<string>): Result<seq<RoleFrontMatter>>
  {
    Collect(Metadatas(roleFiles, names))
  }

  /** The metadata list succeeds exactly when every name's metadata loads, and then holds them in order. */
  lemma MetadataListOk(roleFiles: Entries<string>, names: seq<string>)
    ensures MetadataList(roleFiles, names).Ok? <==> forall k :: 0 <= k < |names| ==> Metadata(roleFiles, names[k]).Ok?
    ensures MetadataList(roleFiles, names).Ok? ==>
      (|MetadataList(roleFiles, names).value| == |names|
      && forall k :: 0 <= k < |names| ==> MetadataList(roleFiles, names).value[k] == Metadata(roleFiles, names[k]).value)
  {
    CollectOk(Metadatas(roleFiles, names));
  }

  /** One more outcome after a successful prefix. */
  lemma CollectStep<T>(rs: seq<Result<T>>, i: nat, list: seq<T>)
    requires i < |rs| && Collect(rs[..i]) == Ok(list)
    ensures Collect(rs[..i + 1]) == if rs[i].Ok? then Ok(list + [rs[i].value]) else Err(rs[i].msg)
  {
    assert rs[..i + 1][..i] == rs[..i];
  }

  /** Once a prefix of the outcomes fails, the whole list fails with that message. */
  lemma {:induction false} CollectErrStays<T>(rs: seq<Result<T>>, i: nat)
    requires i <= |rs| && Collect(rs[..i]).Err?
    ensures Collect(rs) == Collect(rs[..i])
    decreases |rs| - i
  {
    if i < |rs| {
      assert rs[..i + 1][..i] == rs[..i];
      CollectErrStays(rs, i + 1);
    } else {
      assert rs[..i] == rs;
    }
  }

  /** Every cached role is what loading its name yields. */
  ghost predicate CacheMatches(roleFiles: Entries<string>, parsedRoles: Entries<LoadedRole>)
  {
    forall name :: HasKey(parsedRoles, name) ==> Load(roleFiles, name) == Ok(Get(parsedRoles, name).value)
  }

  /** Caching what loading a name yields keeps the cache faithful. */
  lemma CacheGrows(roleFiles: Entries<string>, parsedRoles: Entries<LoadedRole>, name: string, loaded: LoadedRole)
    requires CacheMatches(roleFiles, parsedRoles) && Load(roleFiles, name) == Ok(loaded)
    ensures CacheMatches(roleFiles, Put(parsedRoles, name, loaded))
  {
    var after := Put(parsedRoles, name, loaded);
    forall n | HasKey(after, n)
      ensures Load(roleFiles, n) == Ok(Get(after, n).value)
    {
      if n != name {
        assert Get(after, n) == Get(parsedRoles, n);
      }
    }
  }

  /** The cache of parsed roles (`parsedRoles`) beside the role-file table. */
  class RoleCache {
    const roleFiles: Entries<string>
    var parsedRoles: Entries<LoadedRole>

    /** The cache agrees with the role files. */
    ghost predicate Valid()
      reads this
    {
      CacheMatches(roleFiles, parsedRoles)
    }

    constructor (files: Entries<string>)
      ensures roleFiles == files && parsedRoles == [] && Valid()
    {
      roleFiles := files;
      parsedRoles := [];
    }

    /**
     * `loadRole`: a cached role is returned as it is; otherwise the role file
     * is parsed and, on success, cached.
     */
    method LoadRole(name: string) returns (r: Result<LoadedRole>)
      requires Valid()
      modifies this
      ensures Valid() && r == Load(roleFiles, name)
      ensures HasKey(old(parsedRoles), name) ==> parsedRoles == old(parsedRoles)
      ensures !HasKey(old(parsedRoles), name) ==>
        parsedRoles == if r.Ok? then Put(old(parsedRoles), name, r.value) else old(parsedRoles)
    {
      var cached := Get(parsedRoles, name);
      if cached.Some? {
        return Ok(cached.value);
      }
      var raw := Get(roleFiles, name);
      if raw.None? || raw.value == "" {
        return Err(UnknownAgent(name, Keys(roleFiles)));
      }
      var parsed := ParseRoleFile(raw.value);
      if parsed.Err? {
        return Err(parsed.msg);
      }
      var loaded := LoadedRole(parsed.value.frontMatter, parsed.value.content, raw.value);
      assert Load(roleFiles, name) == Ok(loaded);
      CacheGrows(roleFiles, parsedRoles, name, loaded);
      parsedRoles := Put(parsedRoles, name, loaded);
      return Ok(loaded);
    }

    /** `getAgentMetadata`. */
    method GetAgentMetadata(name: string) returns (r: Result<RoleFrontMatter>)
      requires Valid()
      modifies this
      ensures Valid() && r == Metadata(roleFiles, name)
      ensures HasKey(old(parsedRoles), name) ==> parsedRoles == old(parsedRoles)
    {
      var loaded := LoadRole(name);
      if loaded.Err? {
        return Err(loaded.msg);
      }
      return Ok(loaded.value.frontMatter);
    }

    /** `getAgentPrompt`. */
    method GetAgentPrompt(name: string) returns (r: Result<string>)
      requires Valid()
      modifies this
      ensures Valid() && r == Prompt(roleFiles, name)
    {
      var loaded := LoadRole(name);
      if loaded.Err? {
        return Err(loaded.msg);
      }
      return Ok(loaded.value.content);
    }

    /** The metadata of each name in order; the first failure aborts. */
    method GetMetadataList(names: seq<string>) returns (r: Result<seq<RoleFrontMatter>>)
      requires Valid()
      modifies this
      ensures Valid() && r == MetadataList(roleFiles, names)
    {
      ghost var rs := Metadatas(roleFiles, names);
      var list: seq<RoleFrontMatter> := [];
      var i := 0;
      while i < |names|
        invariant 0 <= i <= |names|
        invariant Valid() && Collect(rs[..i]) == Ok(list)
      {
        var fm := GetAgentMetadata(names[i]);
        assert fm == rs[i];
        CollectStep(rs, i, list);
        if fm.Err? {
          CollectErrStays(rs, i + 1);
          return Err(fm.msg);
        }
        list := list + [fm.value];
        i := i + 1;
      }
      assert rs[..i] == rs;
      return Ok(list);
    }
  }
}
