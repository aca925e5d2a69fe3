/**
 * The plugin configuration schema, as validators from parsed JSON to the
 * validated value. An object keeps the keys of its shape, in shape order:
 * a key appears when the input had it or when validation produced a value
 * for it (a default); unknown keys are dropped. `None` is a failed
 * validation.
 */
module ConfigSchema {
  import opened Wrappers
  import opened Text
  import opened Decimals
  import opened Assoc
  import opened JsonValues

  /** `lo <= d <= hi`. */
  predicate InRange(d: Decimal, lo: int, hi: int)
  {
    lo * Pow10(d.scale) <= d.mantissa <= hi * Pow10(d.scale)
  }

  /** The entry a validated shape key contributes to the output object. */
  function ShapeField(input: Entries<Json>, key: string, out: Json): (r: Entries<Json>)
    ensures r == [] || r == [(key, out)]
  {
    if out != JUndefined || HasKey(input, key) then [(key, out)] else []
  }

  /** A single shape entry holds its output under its key and nothing else. */
  lemma FieldOfShape(input: Entries<Json>, key: string, out: Json)
    ensures forall k :: Field(ShapeField(input, key, out), k) == if k == key then out else JUndefined
    ensures forall k :: HasKey(ShapeField(input, key, out), k) ==> k == key
  {
    var p := ShapeField(input, key, out);
    forall k
      ensures Field(p, k) == if k == key then out else JUndefined
      ensures HasKey(p, k) ==> k == key
    {
      assert Keys(p) == if p == [] then [] else [key];
    }
  }

  /** Appending a shape entry for a key the object does not have yet. */
  lemma ShapeStep(prefix: Entries<Json>, input: Entries<Json>, key: string, out: Json)
    requires !HasKey(prefix, key)
    ensures forall k :: Field(prefix + ShapeField(input, key, out), k) == if k == key then out else Field(prefix, k)
    ensures forall k :: HasKey(prefix + ShapeField(input, key, out), k) ==> HasKey(prefix, k) || k == key
  {
    var p := ShapeField(input, key, out);
    FieldOfShape(input, key, out);
    forall k
      ensures Field(prefix + p, k) == if k == key then out else Field(prefix, k)
      ensures HasKey(prefix + p, k) ==> HasKey(prefix, k) || k == key
    {
      GetConcat(prefix, p, k);
      HasKeyConcat(prefix, p, k);
    }
  }

  /** An object built from four shape entries with distinct keys holds each output under its key, and no other key. */
  lemma FourShapes(input: Entries<Json>, k1: string, o1: Json, k2: string, o2: Json, k3: string, o3: Json, k4: string, o4: Json)
    requires k1 != k2 && k1 != k3 && k1 != k4 && k2 != k3 && k2 != k4 && k3 != k4
    ensures var out := ShapeField(input, k1, o1) + ShapeField(input, k2, o2) + ShapeField(input, k3, o3) + ShapeField(input, k4, o4);
      && Field(out, k1) == o1 && Field(out, k2) == o2 && Field(out, k3) == o3 && Field(out, k4) == o4
      && forall k :: HasKey(out, k) ==> k == k1 || k == k2 || k == k3 || k == k4
  {
    var p1 := ShapeField(input, k1, o1);
    var p2 := ShapeField(input, k2, o2);
    var p3 := ShapeField(input, k3, o3);
    FieldOfShape(input, k1, o1);
    ShapeStep(p1, input, k2, o2);
    ShapeStep(p1 + p2, input, k3, o3);
    ShapeStep(p1 + p2 + p3, input, k4, o4);
  }

  /** The same for six shape entries. */
  lemma SixShapes(input: Entries<Json>, k1: string, o1: Json, k2: string, o2: Json, k3: string, o3: Json,
                  k4: string, o4: Json, k5: string, o5: Json, k6: string, o6: Json)
    requires k1 != k2 && k1 != k3 && k1 != k4 && k2 != k3 && k2 != k4 && k3 != k4
    requires k5 != k1 && k5 != k2 && k5 != k3 && k5 != k4
    requires k6 != k1 && k6 != k2 && k6 != k3 && k6 != k4 && k6 != k5
    ensures var out := ShapeField(input, k1, o1) + ShapeField(input, k2, o2) + ShapeField(input, k3, o3)
        + ShapeField(input, k4, o4) + ShapeField(input, k5, o5) + ShapeField(input, k6, o6);
      && Field(out, k1) == o1 && Field(out, k2) == o2 && Field(out, k3) == o3
      && Field(out, k4) == o4 && Field(out, k5) == o5 && Field(out, k6) == o6
      && forall k :: HasKey(out, k) ==> k == k1 || k == k2 || k == k3 || k == k4 || k == k5 || k == k6
  {
    var q := ShapeField(input, k1, o1) + ShapeField(input, k2, o2) + ShapeField(input, k3, o3) + ShapeField(input, k4, o4);
    FourShapes(input, k1, o1, k2, o2, k3, o3, k4, o4);
    ShapeStep(q, input, k5, o5);
    ShapeStep(q + ShapeField(input, k5, o5), input, k6, o6);
  }

  // ---------------------------------------------------------------- field validators

  /** `z.string().optional()`. */
  function OptionalString(v: Json): Option<Json>
  {
    match v
    case JUndefined => Some(JUndefined)
    case JStr(_) => Some(v)
    case _ => None
  }

  /** `z.number().min(lo).max(hi).optional()`. */
  function OptionalNumberIn(v: Json, lo: int, hi: int): Option<Json>
  {
    match v
    case JUndefined => Some(JUndefined)
    case JNum(d) => if InRange(d, lo, hi) then Some(v) else None
    case _ => None
  }

  /** `z.string().optional().catch(undefined)`: anything that is not a string becomes `undefined`. */
  function CaughtString(v: Json): Json
  {
    if v.JStr? then v else JUndefined
  }

  /** `z.array(z.string()).optional()`. */
  function OptionalStrings(v: Json): Option<Json>
  {
    match v
    case JUndefined => Some(JUndefined)
    case JArr(items) => if AllStrings(items) then Some(v) else None
    case _ => None
  }

  // ---------------------------------------------------------------- agent overrides

  /** `AgentOverrideConfigSchema`. */
  function ValidateOverride(v: Json): (r: Option<Json>)
    ensures r.Some? ==> r.value.JObj?
  {
    if !v.JObj? then None
    else
      var f := v.fields;
      var model := OptionalString(Field(f, "model"));
      var temperature := OptionalNumberIn(Field(f, "temperature"), 0, 2);
      var skills := OptionalStrings(Field(f, "skills"));
      if model.None? || temperature.None? || skills.None? then None
      else
        Some(JObj(
          ShapeField(f, "model", model.value)
          + ShapeField(f, "temperature", temperature.value)
          + ShapeField(f, "variant", CaughtString(Field(f, "variant")))
          + ShapeField(f, "skills", skills.value)))
  }

  /**
   * An override is accepted exactly when it is an object whose model is a
   * string or absent, whose temperature is a number in [0, 2] or absent and
   * whose skills are a list of strings or absent.
   */
  lemma OverrideAccepted(v: Json)
    ensures ValidateOverride(v).Some? <==>
      && v.JObj?
      && (Field(v.fields, "model").JUndefined? || Field(v.fields, "model").JStr?)
      && (Field(v.fields, "temperature").JUndefined?
          || (Field(v.fields, "temperature").JNum? && InRange(Field(v.fields, "temperature").n, 0, 2)))
      && (Field(v.fields, "skills").JUndefined?
          || (Field(v.fields, "skills").JArr? && AllStrings(Field(v.fields, "skills").items)))
  {
    if v.JObj? {
      var f := v.fields;
      var model, temperature, skills := Field(f, "model"), Field(f, "temperature"), Field(f, "skills");
      assert ValidateOverride(v).Some? <==>
        OptionalString(model).Some? && OptionalNumberIn(temperature, 0, 2).Some? && OptionalStrings(skills).Some?;
    }
  }

  /**
   * An accepted override holds the input's model, temperature and skills, a
   * string variant as given and any other variant as `undefined`, and no
   * other key.
   */
  lemma OverrideFields(v: Json)
    requires ValidateOverride(v).Some?
    ensures v.JObj?
    ensures var f := v.fields;
      var out := ValidateOverride(v).value.fields;
      && Field(out, "model") == Field(f, "model")
      && Field(out, "temperature") == Field(f, "temperature")
      && Field(out, "skills") == Field(f, "skills")
      && Field(out, "variant") == (if Field(f, "variant").JStr? then Field(f, "variant") else JUndefined)
      && forall k :: HasKey(out, k) ==> k in ["model", "temperature", "variant", "skills"]
  {
    var f := v.fields;
    var o1 := OptionalString(Field(f, "model")).value;
    var o2 := OptionalNumberIn(Field(f, "temperature"), 0, 2).value;
    var o3 := CaughtString(Field(f, "variant"));
    var o4 := OptionalStrings(Field(f, "skills")).value;
    assert o1 == Field(f, "model") && o2 == Field(f, "temperature") && o4 == Field(f, "skills");
    var p1 := ShapeField(f, "model", o1);
    var p2 := ShapeField(f, "temperature", o2);
    var p3 := ShapeField(f, "variant", o3);
    var p4 := ShapeField(f, "skills", o4);
    assert ValidateOverride(v).value.fields == p1 + p2 + p3 + p4;
    FourShapes(f, "model", o1, "temperature", o2, "variant", o3, "skills", o4);
  }

  /** A validated override's temperature, when it has one, lies in [0, 2]; one outside fails validation. */
  lemma OverrideTemperatureBound(v: Json)
    requires v.JObj?
    ensures ValidateOverride(v).Some? && Field(ValidateOverride(v).value.fields, "temperature").JNum? ==>
      InRange(Field(ValidateOverride(v).value.fields, "temperature").n, 0, 2)
    ensures Field(v.fields, "temperature").JNum? && !InRange(Field(v.fields, "temperature").n, 0, 2) ==>
      ValidateOverride(v).None?
  {
    var f := v.fields;
    var r := ValidateOverride(v);
    if r.Some? {
      var out := r.value.fields;
      var m := ShapeField(f, "model", OptionalString(Field(f, "model")).value);
      var t := ShapeField(f, "temperature", OptionalNumberIn(Field(f, "temperature"), 0, 2).value);
      var rest := ShapeField(f, "variant", CaughtString(Field(f, "variant")))
        + ShapeField(f, "skills", OptionalStrings(Field(f, "skills")).value);
      assert out == m + t + rest;
      assert !HasKey(m, "temperature") && !HasKey(rest, "temperature");
      FieldOfConcat(m, t, rest, "temperature");
    }
  }

  /** Looking a key up in three concatenated parts, when only the middle one can have it. */
  lemma FieldOfConcat(a: Entries<Json>, b: Entries<Json>, c: Entries<Json>, key: string)
    requires !HasKey(a, key) && !HasKey(c, key)
    ensures Field(a + b + c, key) == Field(b, key)
  {
    var bc := b + c;
    assert a + b + c == a + bc;
    GetConcat(a, bc, key);
    GetConcat(b, c, key);
    assert Get(a + b + c, key) == Get(b, key);
  }

  /** An invalid variant does not fail validation: the key stays, its value `undefined`. */
  lemma InvalidVariantCaught(v: Json)
    requires v.JObj? && HasKey(v.fields, "variant") && !Field(v.fields, "variant").JStr?
    requires OptionalString(Field(v.fields, "model")).Some?
    requires OptionalNumberIn(Field(v.fields, "temperature"), 0, 2).Some?
    requires OptionalStrings(Field(v.fields, "skills")).Some?
    ensures ValidateOverride(v).Some?
    ensures Get(ValidateOverride(v).value.fields, "variant") == Some(JUndefined)
  {
    var f := v.fields;
    var m := ShapeField(f, "model", OptionalString(Field(f, "model")).value);
    var t := ShapeField(f, "temperature", OptionalNumberIn(Field(f, "temperature"), 0, 2).value);
    var va := ShapeField(f, "variant", JUndefined);
    var sk := ShapeField(f, "skills", OptionalStrings(Field(f, "skills")).value);
    assert va == [("variant", JUndefined)];
    assert ValidateOverride(v).value.fields == (m + t) + va + sk;
    assert !HasKey(m + t, "variant") by { HasKeyConcat(m, t, "variant"); }
    GetMiddle(m + t, va, sk, "variant");
  }

  /** Looking a key up in three concatenated parts, when the first lacks it and the middle one has it. */
  lemma GetMiddle(a: Entries<Json>, b: Entries<Json>, c: Entries<Json>, key: string)
    requires !HasKey(a, key) && HasKey(b, key)
    ensures Get(a + b + c, key) == Get(b, key)
  {
    var bc := b + c;
    assert a + b + c == a + bc;
    GetConcat(a, bc, key);
    GetConcat(b, c, key);
  }

  // ---------------------------------------------------------------- multiplexer

  const Providers: seq<string> := ["tmux", "wezterm", "auto"]
  const Layouts: seq<string> := ["main-horizontal", "main-vertical", "tiled", "even-horizontal", "even-vertical"]

  /** `z.enum(options).default(fallback)`. */
  function EnumWithDefault(v: Json, options: seq<string>, fallback: string): Option<Json>
  {
    match v
    case JUndefined => Some(JStr(fallback))
    case JStr(s) => if s in options then Some(v) else None
    case _ => None
  }

  /** `MultiplexerConfigSchema`: every field has a default, so all four keys are always present. */
  function ValidateMultiplexer(v: Json): (r: Option<Json>)
    ensures r.Some? ==> r.value.JObj? && |r.value.fields| == 4
  {
    if !v.JObj? then None
    else
      var f := v.fields;
      var enabled := match Field(f, "enabled")
        case JUndefined => Some(JBool(false))
        case JBool(_) => Some(Field(f, "enabled"))
        case _ => None;
      var provider := EnumWithDefault(Field(f, "provider"), Providers, "auto");
      var layout := EnumWithDefault(Field(f, "layout"), Layouts, "main-vertical");
      var size := match Field(f, "main_pane_size")
        case JUndefined => Some(JNum(FromInt(60)))
        case JNum(d) => if InRange(d, 20, 80) then Some(Field(f, "main_pane_size")) else None
        case _ => None;
      if enabled.None? || provider.None? || layout.None? || size.None? then None
      else Some(JObj([("enabled", enabled.value), ("provider", provider.value), ("layout", layout.value), ("main_pane_size", size.value)]))
  }

  /** An empty multiplexer object gets every default. */
  lemma MultiplexerDefaults()
    ensures ValidateMultiplexer(JObj([])) == Some(JObj([
      ("enabled", JBool(false)), ("provider", JStr("auto")),
      ("layout", JStr("main-vertical")), ("main_pane_size", JNum(FromInt(60)))]))
  {
  }

  /** A validated multiplexer config has a known provider and layout and a pane size in [20, 80]. */
  lemma MultiplexerValues(v: Json)
    requires ValidateMultiplexer(v).Some?
    ensures var out := ValidateMultiplexer(v).value.fields;
      && out[1].1.JStr? && out[1].1.s in Providers
      && out[2].1.JStr? && out[2].1.s in Layouts
      && out[3].1.JNum? && InRange(out[3].1.n, 20, 80)
  {
  }

  /** Four entries with distinct keys: each key holds its value, in order. */
  lemma FourEntries(k1: string, o1: Json, k2: string, o2: Json, k3: string, o3: Json, k4: string, o4: Json)
    requires k1 != k2 && k1 != k3 && k1 != k4 && k2 != k3 && k2 != k4 && k3 != k4
    ensures var out := [(k1, o1), (k2, o2), (k3, o3), (k4, o4)];
      && Keys(out) == [k1, k2, k3, k4]
      && Field(out, k1) == o1 && Field(out, k2) == o2 && Field(out, k3) == o3 && Field(out, k4) == o4
  {
    var out := [(k1, o1), (k2, o2), (k3, o3), (k4, o4)];
    assert Keys(out) == [k1] + Keys(out[1..]);
    assert Keys(out[1..]) == [k2] + Keys(out[2..]);
    assert Keys(out[2..]) == [k3] + Keys(out[3..]);
    assert Keys(out[3..]) == [k4] + Keys(out[4..]);
    assert Get(out, k2) == Get(out[1..], k2) == Some(o2);
    assert Get(out, k3) == Get(out[1..], k3) == Get(out[2..], k3) == Some(o3);
    assert Get(out, k4) == Get(out[1..], k4) == Get(out[2..], k4) == Get(out[3..], k4) == Some(o4);
  }

  /**
   * A multiplexer block is accepted exactly when it is an object whose
   * `enabled` is a boolean, whose provider and layout are among the known
   * ones and whose main pane size is a number in [20, 80], each of them
   * possibly absent.
   */
  lemma MultiplexerAccepted(v: Json)
    ensures ValidateMultiplexer(v).Some? <==>
      && v.JObj?
      && (Field(v.fields, "enabled").JUndefined? || Field(v.fields, "enabled").JBool?)
      && (Field(v.fields, "provider").JUndefined?
          || (Field(v.fields, "provider").JStr? && Field(v.fields, "provider").s in Providers))
      && (Field(v.fields, "layout").JUndefined?
          || (Field(v.fields, "layout").JStr? && Field(v.fields, "layout").s in Layouts))
      && (Field(v.fields, "main_pane_size").JUndefined?
          || (Field(v.fields, "main_pane_size").JNum? && InRange(Field(v.fields, "main_pane_size").n, 20, 80)))
  {
    if v.JObj? {
      var f := v.fields;
      var provider, layout := Field(f, "provider"), Field(f, "layout");
      assert EnumWithDefault(provider, Providers, "auto").Some? <==>
        provider.JUndefined? || (provider.JStr? && provider.s in Providers);
      assert EnumWithDefault(layout, Layouts, "main-vertical").Some? <==>
        layout.JUndefined? || (layout.JStr? && layout.s in Layouts);
    }
  }

  /** An accepted multiplexer block holds its four keys, each present field as given and the default for each absent one. */
  lemma MultiplexerFields(v: Json)
    requires ValidateMultiplexer(v).Some?
    ensures v.JObj?
    ensures var f := v.fields;
      var out := ValidateMultiplexer(v).value.fields;
      && Keys(out) == ["enabled", "provider", "layout", "main_pane_size"]
      && Field(out, "enabled") == (if Field(f, "enabled").JUndefined? then JBool(false) else Field(f, "enabled"))
      && Field(out, "provider") == (if Field(f, "provider").JUndefined? then JStr("auto") else Field(f, "provider"))
      && Field(out, "layout") == (if Field(f, "layout").JUndefined? then JStr("main-vertical") else Field(f, "layout"))
      && Field(out, "main_pane_size") == (if Field(f, "main_pane_size").JUndefined? then JNum(FromInt(60)) else Field(f, "main_pane_size"))
  {
    var out := ValidateMultiplexer(v).value.fields;
    FourEntries("enabled", out[0].1, "provider", out[1].1, "layout", out[2].1, "main_pane_size", out[3].1);
    assert out == [("enabled", out[0].1), ("provider", out[1].1), ("layout", out[2].1), ("main_pane_size", out[3].1)];
  }

  // ---------------------------------------------------------------- records and the plugin config

  /** `z.record(z.string(), AgentOverrideConfigSchema)`: every value validated, keys kept in order. */
  function ValidateOverrides(fields: Entries<Json>): (r: Option<Entries<Json>>)
    ensures r.Some? ==> Keys(r.value) == Keys(fields)
  {
    if |fields| == 0 then Some([])
    else
      match ValidateOverrides(fields[..|fields| - 1])
      case None => None
      case Some(init) =>
        match ValidateOverride(fields[|fields| - 1].1)
        case None => None
        case Some(v) =>
          KeysSnoc(init, (fields[|fields| - 1].0, v));
          KeysInit(fields);
          Some(init + [(fields[|fields| - 1].0, v)])
  }

  /** `z.record(z.string(), PresetSchema)`. */
  function ValidatePresets(fields: Entries<Json>): (r: Option<Entries<Json>>)
    ensures r.Some? ==> Keys(r.value) == Keys(fields)
  {
    if |fields| == 0 then Some([])
    else
      var last := fields[|fields| - 1];
      match ValidatePresets(fields[..|fields| - 1])
      case None => None
      case Some(init) =>
        if !last.1.JObj? then None
        else
          match ValidateOverrides(last.1.fields)
          case None => None
          case Some(preset) =>
            KeysSnoc(init, (last.0, JObj(preset)));
            KeysInit(fields);
            Some(init + [(last.0, JObj(preset))])
  }

  function OptionalRecord(v: Json, presets: bool): Option<Json>
  {
    match v
    case JUndefined => Some(JUndefined)
    case JObj(fields) =>
      var r := if presets then ValidatePresets(fields) else ValidateOverrides(fields);
      if r.Some? then Some(JObj(r.value)) else None
    case _ => None
  }

  function OptionalMultiplexer(v: Json): Option<Json>
  {
    if v == JUndefined then Some(JUndefined) else ValidateMultiplexer(v)
  }

  /** `PluginConfigSchema.safeParse`: the validated configuration, or `None` on failure. */
  function ValidatePluginConfig(v: Json): (r: Option<Entries<Json>>)
    ensures r.Some? ==> v.JObj?
  {
    if !v.JObj? then None
    else
      var f := v.fields;
      var preset := OptionalString(Field(f, "preset"));
      var presets := OptionalRecord(Field(f, "presets"), true);
      var agents := OptionalRecord(Field(f, "agents"), false);
      var disabled := OptionalStrings(Field(f, "disabled_mcps"));
      var multiplexer := OptionalMultiplexer(Field(f, "multiplexer"));
      var tmux := OptionalMultiplexer(Field(f, "tmux"));
      if preset.None? || presets.None? || agents.None? || disabled.None? || multiplexer.None? || tmux.None? then None
      else
        Some(
          ShapeField(f, "preset", preset.value)
          + ShapeField(f, "presets", presets.value)
          + ShapeField(f, "agents", agents.value)
          + ShapeField(f, "disabled_mcps", disabled.value)
          + ShapeField(f, "multiplexer", multiplexer.value)
          + ShapeField(f, "tmux", tmux.value))
  }

  /** Every field is optional: the empty object is a valid configuration, and validates to itself. */
  lemma EmptyConfigValid()
    ensures ValidatePluginConfig(JObj([])) == Some([])
  {
    var f: Entries<Json> := [];
    assert forall k :: !HasKey(f, k);
    assert forall k :: Field(f, k) == JUndefined;
    assert forall k :: ShapeField(f, k, JUndefined) == [];
    assert OptionalString(JUndefined) == Some(JUndefined);
    assert OptionalRecord(JUndefined, true) == Some(JUndefined);
    assert OptionalRecord(JUndefined, false) == Some(JUndefined);
    assert OptionalStrings(JUndefined) == Some(JUndefined);
    assert OptionalMultiplexer(JUndefined) == Some(JUndefined);
    var v := JObj(f);
    assert v.fields == f;
    assert ValidatePluginConfig(v) == Some(f + f + f + f + f + f);
    assert f + f + f + f + f + f == f;
  }

  /** Keys that are not part of the schema are dropped. */
  lemma UnknownKeysDropped(v: Json, key: string)
    requires ValidatePluginConfig(v).Some?
    requires key !in ["preset", "presets", "agents", "disabled_mcps", "multiplexer", "tmux"]
    ensures !HasKey(ValidatePluginConfig(v).value, key)
  {
    PluginConfigFields(v);
  }

  /** `.optional()` around a record: absent, or an object whose entries all validate. */
  lemma OptionalRecordSome(x: Json, presets: bool)
    ensures OptionalRecord(x, presets).Some? <==>
      x.JUndefined? || (x.JObj? && (if presets then ValidatePresets(x.fields) else ValidateOverrides(x.fields)).Some?)
  {
  }

  /** The value an accepted optional record gives: `undefined` when absent, the validated object otherwise. */
  lemma OptionalRecordValue(x: Json, presets: bool)
    requires OptionalRecord(x, presets).Some?
    ensures x.JUndefined? ==> OptionalRecord(x, presets).value.JUndefined?
    ensures !x.JUndefined? ==>
      && x.JObj?
      && OptionalRecord(x, presets).value.JObj?
      && (if presets then ValidatePresets(x.fields) else ValidateOverrides(x.fields)) == Some(OptionalRecord(x, presets).value.fields)
  {
  }

  /** `.optional()` around a multiplexer block: absent, or a valid block. */
  lemma OptionalMultiplexerSome(x: Json)
    ensures OptionalMultiplexer(x).Some? <==> x.JUndefined? || ValidateMultiplexer(x).Some?
  {
  }

  /**
   * A configuration is accepted exactly when it is an object whose preset is
   * a string, whose presets and agents are records of valid overrides, whose
   * `disabled_mcps` is a list of strings and whose multiplexer and tmux blocks
   * are valid, each of them possibly absent.
   */
  lemma PluginConfigAccepted(v: Json)
    ensures ValidatePluginConfig(v).Some? <==>
      && v.JObj?
      && (Field(v.fields, "preset").JUndefined? || Field(v.fields, "preset").JStr?)
      && (Field(v.fields, "presets").JUndefined?
          || (Field(v.fields, "presets").JObj? && ValidatePresets(Field(v.fields, "presets").fields).Some?))
      && (Field(v.fields, "agents").JUndefined?
          || (Field(v.fields, "agents").JObj? && ValidateOverrides(Field(v.fields, "agents").fields).Some?))
      && (Field(v.fields, "disabled_mcps").JUndefined?
          || (Field(v.fields, "disabled_mcps").JArr? && AllStrings(Field(v.fields, "disabled_mcps").items)))
      && (Field(v.fields, "multiplexer").JUndefined? || ValidateMultiplexer(Field(v.fields, "multiplexer")).Some?)
      && (Field(v.fields, "tmux").JUndefined? || ValidateMultiplexer(Field(v.fields, "tmux")).Some?)
  {
    if v.JObj? {
      var f := v.fields;
      var presets, agents := Field(f, "presets"), Field(f, "agents");
      var multiplexer, tmux := Field(f, "multiplexer"), Field(f, "tmux");
      assert ValidatePluginConfig(v).Some? <==>
        && OptionalString(Field(f, "preset")).Some?
        && OptionalRecord(presets, true).Some?
        && OptionalRecord(agents, false).Some?
        && OptionalStrings(Field(f, "disabled_mcps")).Some?
        && OptionalMultiplexer(multiplexer).Some?
        && OptionalMultiplexer(tmux).Some?;
      OptionalRecordSome(presets, true);
      OptionalRecordSome(agents, false);
      OptionalMultiplexerSome(multiplexer);
      OptionalMultiplexerSome(tmux);
    }
  }

  /**
   * An accepted configuration holds the input's preset and `disabled_mcps`,
   * the validated presets, agents, multiplexer and tmux blocks of the input
   * (absent when absent), and no other key.
   */
  lemma PluginConfigFields(v: Json)
    requires ValidatePluginConfig(v).Some?
    ensures v.JObj?
    ensures var f := v.fields;
      var out := ValidatePluginConfig(v).value;
      && Field(out, "preset") == Field(f, "preset")
      && Field(out, "disabled_mcps") == Field(f, "disabled_mcps")
      && (if Field(f, "presets").JUndefined? then Field(out, "presets").JUndefined?
          else Field(out, "presets").JObj? && ValidatePresets(Field(f, "presets").fields) == Some(Field(out, "presets").fields))
      && (if Field(f, "agents").JUndefined? then Field(out, "agents").JUndefined?
          else Field(out, "agents").JObj? && ValidateOverrides(Field(f, "agents").fields) == Some(Field(out, "agents").fields))
      && (if Field(f, "multiplexer").JUndefined? then Field(out, "multiplexer").JUndefined?
          else ValidateMultiplexer(Field(f, "multiplexer")) == Some(Field(out, "multiplexer")))
      && (if Field(f, "tmux").JUndefined? then Field(out, "tmux").JUndefined?
          else ValidateMultiplexer(Field(f, "tmux")) == Some(Field(out, "tmux")))
      && forall k :: HasKey(out, k) ==> k in ["preset", "presets", "agents", "disabled_mcps", "multiplexer", "tmux"]
  {
    var f := v.fields;
    PluginConfigShape(v);
    assert OptionalString(Field(f, "preset")).value == Field(f, "preset");
    assert OptionalStrings(Field(f, "disabled_mcps")).value == Field(f, "disabled_mcps");
    OptionalRecordValue(Field(f, "presets"), true);
    OptionalRecordValue(Field(f, "agents"), false);
    assert Field(f, "multiplexer").JUndefined? ==> OptionalMultiplexer(Field(f, "multiplexer")).value.JUndefined?;
    assert Field(f, "tmux").JUndefined? ==> OptionalMultiplexer(Field(f, "tmux")).value.JUndefined?;
  }

  /** Each key of an accepted configuration holds what its field validator gave, and there is no other key. */
  lemma PluginConfigShape(v: Json)
    requires ValidatePluginConfig(v).Some?
    ensures v.JObj?
    ensures var f := v.fields;
      var out := ValidatePluginConfig(v).value;
      && Field(out, "preset") == OptionalString(Field(f, "preset")).value
      && Field(out, "presets") == OptionalRecord(Field(f, "presets"), true).value
      && Field(out, "agents") == OptionalRecord(Field(f, "agents"), false).value
      && Field(out, "disabled_mcps") == OptionalStrings(Field(f, "disabled_mcps")).value
      && Field(out, "multiplexer") == OptionalMultiplexer(Field(f, "multiplexer")).value
      && Field(out, "tmux") == OptionalMultiplexer(Field(f, "tmux")).value
      && forall k :: HasKey(out, k) ==> k in ["preset", "presets", "agents", "disabled_mcps", "multiplexer", "tmux"]
  {
    var f := v.fields;
    var o1 := OptionalString(Field(f, "preset")).value;
    var o2 := OptionalRecord(Field(f, "presets"), true).value;
    var o3 := OptionalRecord(Field(f, "agents"), false).value;
    var o4 := OptionalStrings(Field(f, "disabled_mcps")).value;
    var o5 := OptionalMultiplexer(Field(f, "multiplexer")).value;
    var o6 := OptionalMultiplexer(Field(f, "tmux")).value;
    assert ValidatePluginConfig(v).value ==
      ShapeField(f, "preset", o1) + ShapeField(f, "presets", o2) + ShapeField(f, "agents", o3)
      + ShapeField(f, "disabled_mcps", o4) + ShapeField(f, "multiplexer", o5) + ShapeField(f, "tmux", o6);
    SixShapes(f, "preset", o1, "presets", o2, "agents", o3, "disabled_mcps", o4, "multiplexer", o5, "tmux", o6);
  }
}
