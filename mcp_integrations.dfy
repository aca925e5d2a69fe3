/**
 * The built-in MCP servers (`websearch`, `context7`, `grep_app`) and the
 * filter that leaves out the ones the user disabled. The server configs
 * themselves are values of an opaque type `C`.
 */
module McpIntegrations {
  import opened Wrappers
  import opened Assoc

  /** The three built-in configurations. */
  datatype Builtins<C> = Builtins(websearch: C, context7: C, grepApp: C)

  const BuiltinNames: seq<string> := ["websearch", "context7", "grep_app"]

  /** `allBuiltinMcps`, in declaration order. */
  function AllBuiltinMcps<C>(b: Builtins<C>): (r: Entries<C>)
    ensures Keys(r) == BuiltinNames
  {
    [("websearch", b.websearch), ("context7", b.context7), ("grep_app", b.grepApp)]
  }

  /** `getMcpServers(disabledMcps)`: the built-ins whose name is not disabled, in order. */
  function GetMcpServers<C>(b: Builtins<C>, disabledMcps: seq<string>): Entries<C>
  {
    FromEntries(Without(AllBuiltinMcps(b), disabledMcps))
  }

  /** The built-in names that survive the filter, in order. */
  function Enabled(disabledMcps: seq<string>): (names: seq<string>)
  {
    (if "websearch" in disabledMcps then [] else ["websearch"]) +
    ((if "context7" in disabledMcps then [] else ["context7"]) +
     (if "grep_app" in disabledMcps then [] else ["grep_app"]))
  }

  // ---------------------------------------------------------------- properties

  /** The filter without the `fromEntries` round: the kept entries, in order. */
  lemma WithoutBuiltins<C>(b: Builtins<C>, disabledMcps: seq<string>)
    ensures Keys(Without(AllBuiltinMcps(b), disabledMcps)) == Enabled(disabledMcps)
    ensures DistinctKeys(Without(AllBuiltinMcps(b), disabledMcps))
  {
    BuiltinKeysFiltered(b, disabledMcps);
    BuiltinKeysDistinct(b);
    WithoutDistinct(AllBuiltinMcps(b), disabledMcps);
  }

  lemma BuiltinKeysDistinct<C>(b: Builtins<C>)
    ensures DistinctKeys(AllBuiltinMcps(b))
  {
    var ks := Keys(AllBuiltinMcps(b));
    assert ks[0] == "websearch" && ks[1] == "context7" && ks[2] == "grep_app";
  }

  lemma BuiltinKeysFiltered<C>(b: Builtins<C>, disabledMcps: seq<string>)
    ensures Keys(Without(AllBuiltinMcps(b), disabledMcps)) == Enabled(disabledMcps)
  {
    var all := AllBuiltinMcps(b);
    var tail := [("context7", b.context7), ("grep_app", b.grepApp)];
    var last := [("grep_app", b.grepApp)];
    assert all[1..] == tail && tail[1..] == last && last[1..] == [];
    var g := if "grep_app" in disabledMcps then [] else ["grep_app"];
    var c := if "context7" in disabledMcps then [] else ["context7"];
    KeysWithoutHead(last, disabledMcps);
    assert Keys(Without(last, disabledMcps)) == g + [];
    KeysWithoutHead(tail, disabledMcps);
    assert Keys(Without(tail, disabledMcps)) == c + g;
    KeysWithoutHead(all, disabledMcps);
  }

  /** Filtering keeps the first key exactly when it is not dropped, followed by the filtered rest. */
  lemma KeysWithoutHead<C>(m: Entries<C>, drop: seq<string>)
    requires |m| > 0
    ensures Keys(Without(m, drop)) == (if m[0].0 in drop then [] else [m[0].0]) + Keys(Without(m[1..], drop))
  {
    if m[0].0 !in drop {
      KeysWithoutKept(m, drop);
    } else {
      assert Without(m, drop) == Without(m[1..], drop);
    }
  }

  lemma KeysWithoutKept<C>(m: Entries<C>, drop: seq<string>)
    requires |m| > 0 && m[0].0 !in drop
    ensures Keys(Without(m, drop)) == [m[0].0] + Keys(Without(m[1..], drop))
  {
    var w := Without(m, drop);
    assert w[1..] == Without(m[1..], drop);
  }

  /** The returned names, in order. */
  lemma ServerKeys<C>(b: Builtins<C>, disabledMcps: seq<string>)
    ensures Keys(GetMcpServers(b, disabledMcps)) == Enabled(disabledMcps)
  {
    WithoutBuiltins(b, disabledMcps);
    FromEntriesDistinct(Without(AllBuiltinMcps(b), disabledMcps));
  }

  /**
   * The returned names are exactly the built-ins minus the disabled ones,
   * in declaration order, and each name maps to its unchanged built-in config.
   */
  lemma GetMcpServersSpec<C>(b: Builtins<C>, disabledMcps: seq<string>)
    ensures Keys(GetMcpServers(b, disabledMcps)) == Enabled(disabledMcps)
    ensures forall name :: HasKey(GetMcpServers(b, disabledMcps), name) <==> name in BuiltinNames && name !in disabledMcps
    ensures forall name :: HasKey(GetMcpServers(b, disabledMcps), name) ==>
      Get(GetMcpServers(b, disabledMcps), name) == Get(AllBuiltinMcps(b), name)
  {
    WithoutBuiltins(b, disabledMcps);
    FromEntriesDistinct(Without(AllBuiltinMcps(b), disabledMcps));
  }

  /** With no argument (`[]`) every built-in is returned, in order. */
  lemma NothingDisabled<C>(b: Builtins<C>)
    ensures GetMcpServers(b, []) == AllBuiltinMcps(b)
  {
    var all := AllBuiltinMcps(b);
    assert Without(all, []) == all by {
      assert Without(all[1..][1..], []) == all[1..][1..];
      assert Without(all[1..], []) == all[1..];
    }
    FromEntriesDistinct(all);
  }

  /** Names that are not built-ins change nothing. */
  lemma UnknownNamesIgnored<C>(b: Builtins<C>, disabledMcps: seq<string>, unknown: seq<string>)
    requires forall i :: 0 <= i < |unknown| ==> unknown[i] !in BuiltinNames
    ensures Keys(GetMcpServers(b, disabledMcps + unknown)) == Keys(GetMcpServers(b, disabledMcps))
    ensures Keys(GetMcpServers(b, unknown)) == BuiltinNames
  {
    EnabledIgnoresUnknown(disabledMcps, unknown);
    ServerKeys(b, disabledMcps + unknown);
    ServerKeys(b, disabledMcps);
    ServerKeys(b, unknown);
  }

  lemma EnabledIgnoresUnknown(disabledMcps: seq<string>, unknown: seq<string>)
    requires forall i :: 0 <= i < |unknown| ==> unknown[i] !in BuiltinNames
    ensures Enabled(disabledMcps + unknown) == Enabled(disabledMcps)
    ensures Enabled(unknown) == BuiltinNames
  {
    assert "websearch" !in unknown && "context7" !in unknown && "grep_app" !in unknown;
    var all := disabledMcps + unknown;
    assert ("websearch" in all) == ("websearch" in disabledMcps);
    assert ("context7" in all) == ("context7" in disabledMcps);
    assert ("grep_app" in all) == ("grep_app" in disabledMcps);
  }

  /** Disabling all three leaves nothing. */
  lemma EverythingDisabled<C>(b: Builtins<C>, disabledMcps: seq<string>)
    requires "websearch" in disabledMcps && "context7" in disabledMcps && "grep_app" in disabledMcps
    ensures GetMcpServers(b, disabledMcps) == []
  {
    GetMcpServersSpec(b, disabledMcps);
  }
}
