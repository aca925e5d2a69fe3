/**
 * Model variants for background agents: the agent name as the user wrote
 * it is normalised, its configured variant looked up, and the variant set
 * on a prompt body that does not already carry one.
 */
module BackgroundUtils {
  import opened Wrappers
  import opened Text
  import opened Assoc
  import opened JsonValues

  /** `normalizeAgentName`: trimmed, then one leading `@` dropped. */
  function NormalizeAgentName(agentName: string): (r: string)
    ensures |r| <= |agentName|
  {
    var trimmed := Trim(agentName);
    if StartsWith(trimmed, "@") then trimmed[1..] else trimmed
  }

  /** `config?.agents?.[normalized]?.variant`. */
  function RawVariant(config: Option<Entries<Json>>, agentName: string): Json
  {
    if config.None? then JUndefined
    else Member(Member(Field(config.value, "agents"), NormalizeAgentName(agentName)), "variant")
  }

  /** `resolveAgentVariant`: the trimmed variant string, when there is a non-blank one. */
  function ResolveAgentVariant(config: Option<Entries<Json>>, agentName: string): (r: Option<string>)
    ensures r.Some? ==> r.value != "" && Trim(r.value) == r.value
  {
    var raw := RawVariant(config, agentName);
    if !raw.JStr? then None
    else
      var trimmed := Trim(raw.s);
      if |trimmed| == 0 then None
      else
        TrimIdentity(trimmed);
        Some(trimmed)
  }

  /** `applyAgentVariant`: a non-empty variant is set unless the body already has a (truthy) one. */
  function ApplyAgentVariant(variant: Option<string>, body: Entries<Json>): Entries<Json>
  {
    if variant.None? || variant.value == "" then body
    else if Truthy(Field(body, "variant")) then body
    else Put(body, "variant", JStr(variant.value))
  }

  // ---------------------------------------------------------------- properties

  /** A trimmed name loses exactly one leading `@`, and a name without one is kept as it is. */
  lemma NormalizeStripsOneAt(name: string)
    requires name == [] || (!IsSpace(name[0]) && !IsSpace(name[|name| - 1]))
    ensures NormalizeAgentName("@" + name) == name
    ensures (name == [] || name[0] != '@') ==> NormalizeAgentName(name) == name
  {
    var at := "@" + name;
    assert at[0] == '@' && at[|at| - 1] == (if name == [] then '@' else name[|name| - 1]);
    TrimIdentity(at);
    assert at[1..] == name;
    TrimIdentity(name);
  }

  /** A variant is resolved exactly when the configured value is a string that is not blank, and it is that string trimmed. */
  lemma ResolveVariantIff(config: Option<Entries<Json>>, agentName: string)
    ensures ResolveAgentVariant(config, agentName).Some? <==>
      RawVariant(config, agentName).JStr? && !AllSpace(RawVariant(config, agentName).s)
    ensures ResolveAgentVariant(config, agentName).Some? ==>
      ResolveAgentVariant(config, agentName).value == Trim(RawVariant(config, agentName).s)
  {
    var raw := RawVariant(config, agentName);
    if raw.JStr? {
      TrimEmptyIffBlank(raw.s);
    }
  }

  /** `@name` finds the same variant as `name`. */
  lemma ResolveIgnoresAt(config: Option<Entries<Json>>, name: string)
    requires name == [] || (!IsSpace(name[0]) && !IsSpace(name[|name| - 1]) && name[0] != '@')
    ensures ResolveAgentVariant(config, "@" + name) == ResolveAgentVariant(config, name)
  {
    NormalizeStripsOneAt(name);
  }

  /**
   * The body comes back unchanged without a variant or when it already has
   * one; otherwise it gains exactly the `variant` field.
   */
  lemma ApplyVariantFields(variant: Option<string>, body: Entries<Json>, key: string)
    ensures (variant.None? || variant.value == "" || Truthy(Field(body, "variant"))) ==> ApplyAgentVariant(variant, body) == body
    ensures variant.Some? && variant.value != "" && !Truthy(Field(body, "variant")) ==>
      && Field(ApplyAgentVariant(variant, body), "variant") == JStr(variant.value)
      && (key != "variant" ==> Get(ApplyAgentVariant(variant, body), key) == Get(body, key))
  {
  }

  /** Applying the same variant twice is applying it once. */
  lemma ApplyVariantIdempotent(variant: Option<string>, body: Entries<Json>)
    ensures ApplyAgentVariant(variant, ApplyAgentVariant(variant, body)) == ApplyAgentVariant(variant, body)
  {
    if variant.Some? && variant.value != "" && !Truthy(Field(body, "variant")) {
      assert Field(ApplyAgentVariant(variant, body), "variant") == JStr(variant.value);
    }
  }
}
