/**
 * The role-file reader of the agents package: a Markdown file with YAML front
 * matter, read with a flat line parser (top-level keys, numbers, strings and
 * lists of strings) and checked for the required fields.
 */
module RoleFrontMatter {
  import opened Wrappers
  import opened Text
  import opened Decimals
  import opened Assoc
  import FrontMatter

  /** A value of the flat YAML subset. There are no booleans: `true` stays a string. */
  datatype RoleValue = RNum(n: Decimal) | RStr(s: string) | RList(items: seq<string>)

  datatype RoleFrontMatter = RoleFrontMatter(
    name: string,
    description: string,
    role: string,
    capabilities: seq<string>,
    constraints: seq<string>,
    triggers: seq<string>,
    delegationHints: seq<string>,
    defaultModel: string,
    /** `None` stands for `NaN`. */
    defaultTemperature: Option<Decimal>,
    primary: bool)

  datatype ParsedRole = ParsedRole(frontMatter: RoleFrontMatter, content: string)

  const MissingDelimiters := "Invalid role file: missing front matter delimiters (---)"

  // ---------------------------------------------------------------- scalars

  /**
   * `parseScalar`: anything `Number` accepts (except the empty string) is a
   * number; otherwise one pair of matching quotes is removed.
   */
  function RoleScalar(value: string): (v: RoleValue)
    ensures !v.RList?
  {
    if value != "" && JsNumber(value).Some? then RNum(JsNumber(value).value)
    else if (StartsWith(value, "\"") && EndsWith(value, "\""))
         || (StartsWith(value, "'") && EndsWith(value, "'")) then
      RStr(if |value| >= 2 then value[1..|value| - 1] else "")
    else RStr(value)
  }

  /** Booleans are not recognised: `true` is read as the string `true`. */
  lemma NoBooleans()
    ensures RoleScalar("true") == RStr("true") && RoleScalar("false") == RStr("false")
  {
    WordNotNumber("true");
    WordNotNumber("false");
  }

  // ---------------------------------------------------------------- lines

  /** `\w`: ASCII letters, digits and the underscore. */
  predicate IsWordChar(c: char)
  {
    ('a' <= c <= 'z') || ('A' <= c <= 'Z') || ('0' <= c <= '9') || c == '_'
  }

  function WordLength(t: string): (n: nat)
    ensures n <= |t|
    ensures forall i :: 0 <= i < n ==> IsWordChar(t[i])
    ensures n == |t| || !IsWordChar(t[n])
  {
    if |t| > 0 && IsWordChar(t[0]) then 1 + WordLength(t[1..]) else 0
  }

  /**
   * `^\s+-\s+(.+)$`: the captured text. The first `\s+` stops at the dash.
   * The second takes all the white space after it when text follows, and
   * otherwise leaves its last character to `(.+)`. `.` refuses line breaks.
   */
  function ItemCapture(line: string): (r: Option<string>)
    ensures r.Some? ==> |r.value| > 0 && NoLineTerminator(r.value)
  {
    var w := LeadingSpaces(line);
    if w == 0 || w == |line| || line[w] != '-' then None
    else
      var rest := line[w + 1..];
      var w2 := LeadingSpaces(rest);
      if w2 == 0 then None
      else if w2 < |rest| then
        if NoLineTerminator(rest[w2..]) then Some(rest[w2..]) else None
      else if w2 >= 2 && !IsLineTerminator(rest[w2 - 1]) then Some(rest[w2 - 1..])
      else None
  }

  /** `^(\w+):\s*(.*)$`: the key and the value after the white space. */
  function KeyValue(line: string): (r: Option<(string, string)>)
    ensures r.Some? ==> 0 < |r.value.0| < |line| && line[..|r.value.0|] == r.value.0 && line[|r.value.0|] == ':'
    ensures r.Some? ==> forall i :: 0 <= i < |r.value.0| ==> IsWordChar(r.value.0[i])
  {
    var k := WordLength(line);
    if k == 0 || k == |line| || line[k] != ':' then None
    else
      var v := TrimStart(line[k + 1..]);
      if NoLineTerminator(v) then Some((line[..k], v)) else None
  }

  datatype RoleLine = Blank | ListItem(text: string) | OpenList(key: string) | SetScalar(key: string, value: RoleValue) | Ignored

  /** What the loop body does with a line, before looking at the parser state. */
  function ClassifyRoleLine(line: string): RoleLine
  {
    var t := Trim(line);
    if t == "" || StartsWith(t, "#") then Blank
    else
      match ItemCapture(line)
      case Some(text) => ListItem(Trim(text))
      case None =>
        match KeyValue(line)
        case None => Ignored
        case Some((key, value)) =>
          if Trim(value) == "" then OpenList(key) else SetScalar(key, RoleScalar(Trim(value)))
  }

  /**
   * The loop state: the result so far, the last key seen and the list it
   * opened, if it opened one.
   */
  datatype RoleState = RoleState(result: Entries<RoleValue>, currentKey: Option<string>, currentArray: Option<seq<string>>)

  const InitialRoleState := RoleState([], None, None)

  /** The result with the open list, if any, stored under its key. */
  function Flushed(st: RoleState): Entries<RoleValue>
  {
    if st.currentKey.Some? && st.currentArray.Some? then Put(st.result, st.currentKey.value, RList(st.currentArray.value))
    else st.result
  }

  /**
   * A list item extends an open list. An item line with no list open falls
   * through to the key test, which an indented line never passes.
   */
  function RoleKindStep(st: RoleState, kind: RoleLine): RoleState
  {
    match kind
    case Blank => st
    case Ignored => st
    case ListItem(text) =>
      if st.currentKey.Some? && st.currentArray.Some? then st.(currentArray := Some(st.currentArray.value + [text]))
      else st
    case OpenList(key) => RoleState(Flushed(st), Some(key), Some([]))
    case SetScalar(key, value) => RoleState(Put(Flushed(st), key, value), Some(key), None)
  }

  function RoleStep(st: RoleState, line: string): RoleState
  {
    RoleKindStep(st, ClassifyRoleLine(line))
  }

  function RoleRun(lines: seq<string>): RoleState
  {
    if |lines| == 0 then InitialRoleState else RoleStep(RoleRun(lines[..|lines| - 1]), lines[|lines| - 1])
  }

  /** `parseYaml` of the role reader, as a function of the front matter text. */
  function RoleYaml(yaml: string): Entries<RoleValue>
  {
    Flushed(RoleRun(Split(yaml, '\n')))
  }

  lemma RoleRunPrefix(lines: seq<string>, i: nat)
    requires i < |lines|
    ensures RoleRun(lines[..i + 1]) == RoleKindStep(RoleRun(lines[..i]), ClassifyRoleLine(lines[i]))
  {
    assert lines[..i + 1][..i] == lines[..i];
  }

  method ParseRoleYaml(yaml: string) returns (result: Entries<RoleValue>)
    ensures result == RoleYaml(yaml)
  {
    var lines := Split(yaml, '\n');
    result := [];
    var currentKey: Option<string> := None;
    var currentArray: Option<seq<string>> := None;
    var i := 0;
    while i < |lines|
      invariant 0 <= i <= |lines|
      invariant RoleState(result, currentKey, currentArray) == RoleRun(lines[..i])
    {
      RoleRunPrefix(lines, i);
      result, currentKey, currentArray := FeedRoleLine(result, currentKey, currentArray, ClassifyRoleLine(lines[i]));
      i := i + 1;
    }
    assert lines[..i] == lines;
    result := SaveOpenList(result, currentKey, currentArray);
  }

  /** "Save previous array if any". */
  method SaveOpenList(result: Entries<RoleValue>, currentKey: Option<string>, currentArray: Option<seq<string>>)
    returns (r: Entries<RoleValue>)
    ensures r == Flushed(RoleState(result, currentKey, currentArray))
  {
    r := result;
    if currentKey.Some? && currentArray.Some? {
      r := Put(r, currentKey.value, RList(currentArray.value));
    }
  }

  /** The loop body, once the line is classified. */
  method FeedRoleLine(result: Entries<RoleValue>, currentKey: Option<string>, currentArray: Option<seq<string>>, kind: RoleLine)
    returns (result': Entries<RoleValue>, currentKey': Option<string>, currentArray': Option<seq<string>>)
    ensures RoleState(result', currentKey', currentArray') == RoleKindStep(RoleState(result, currentKey, currentArray), kind)
  {
    result', currentKey', currentArray' := result, currentKey, currentArray;
    match kind {
      case Blank =>
      case Ignored =>
      case ListItem(text) =>
        if currentKey.Some? && currentArray.Some? {
          currentArray' := Some(currentArray.value + [text]);
        }
      case OpenList(key) =>
        result' := SaveOpenList(result, currentKey, currentArray);
        currentKey' := Some(key);
        currentArray' := Some([]);
      case SetScalar(key, value) =>
        result' := SaveOpenList(result, currentKey, currentArray);
        currentKey' := Some(key);
        currentArray' := None;
        result' := Put(result', key, value);
    }
  }

  // ---------------------------------------------------------------- line properties

  /** A line that starts with white space or a dash never sets a key: at most it extends the open list. */
  lemma IndentedLinesSetNoKey(st: RoleState, line: string)
    requires |line| > 0 && (IsSpace(line[0]) || line[0] == '-')
    ensures RoleStep(st, line).result == st.result
    ensures RoleStep(st, line).currentKey == st.currentKey
  {
    assert WordLength(line) == 0;
  }

  /** Blank lines and `#` comments change nothing. */
  lemma CommentsSkipped(st: RoleState, line: string)
    requires Trim(line) == "" || StartsWith(Trim(line), "#")
    ensures RoleStep(st, line) == st
  {
  }

  /** An empty-valued key opens an empty list and stores the list that was open before it. */
  lemma OpenKeyStoresPrevious(st: RoleState, key: string)
    requires |key| > 0 && forall i :: 0 <= i < |key| ==> IsWordChar(key[i])
    ensures RoleStep(st, key + ":") == RoleState(Flushed(st), Some(key), Some([]))
  {
    KeyLineClassified(key);
  }

  /** `key:` is read as a key that opens a list. */
  lemma KeyLineClassified(key: string)
    requires |key| > 0 && forall i :: 0 <= i < |key| ==> IsWordChar(key[i])
    ensures ClassifyRoleLine(key + ":") == OpenList(key)
  {
    var line := key + ":";
    KeyLineValue(key);
    assert line[0] == key[0];
    assert LeadingSpaces(line) == 0;
    assert Trim(line) != "" && !StartsWith(Trim(line), "#") by {
      TrimIdentity(line);
    }
  }

  lemma KeyLineValue(key: string)
    requires |key| > 0 && forall i :: 0 <= i < |key| ==> IsWordChar(key[i])
    ensures KeyValue(key + ":") == Some((key, ""))
  {
    var line := key + ":";
    WordPrefix(key, ":");
    assert line[..|key|] == key;
    assert line[|key| + 1..] == "";
  }

  lemma {:induction false} WordPrefix(key: string, rest: string)
    requires forall i :: 0 <= i < |key| ==> IsWordChar(key[i])
    requires |rest| > 0 && !IsWordChar(rest[0])
    ensures WordLength(key + rest) == |key|
    decreases |key|
  {
    if |key| > 0 {
      assert (key + rest)[1..] == key[1..] + rest;
      WordPrefix(key[1..], rest);
    }
  }

  /** The line `  - text`, for text that starts and ends with a visible character. */
  function ItemLine(text: string): string
  {
    "  - " + text
  }

  predicate PlainItem(text: string)
  {
    |text| > 0 && !IsSpace(text[0]) && !IsSpace(text[|text| - 1]) && NoLineTerminator(text)
  }

  /** `  - text` is read as a list item with exactly that text. */
  lemma ItemLineClassified(text: string)
    requires PlainItem(text)
    ensures ClassifyRoleLine(ItemLine(text)) == ListItem(text)
  {
    ItemLineCapture(text);
    ItemLineNotBlank(text);
    TrimIdentity(text);
  }

  lemma ItemLineCapture(text: string)
    requires PlainItem(text)
    ensures ItemCapture(ItemLine(text)) == Some(text)
  {
    var line := ItemLine(text);
    assert LeadingSpaces(line) == 2 by {
      assert line[2] == '-';
      assert line[1..][1..] == line[2..];
    }
    var rest := line[3..];
    assert rest == " " + text;
    assert LeadingSpaces(rest) == 1 by { assert rest[1..] == text; }
    assert rest[1..] == text;
  }

  lemma ItemLineNotBlank(text: string)
    requires PlainItem(text)
    ensures Trim(ItemLine(text)) != "" && !StartsWith(Trim(ItemLine(text)), "#")
  {
    var line := ItemLine(text);
    assert LeadingSpaces(line) == 2 by {
      assert line[2] == '-';
      assert line[1..][1..] == line[2..];
    }
    assert TrimStart(line) == line[2..];
    assert line[2..][0] == '-';
    assert Trim(line)[0] == '-';
  }

  /** An item line under an open list appends its text, uncoerced. */
  lemma ItemAppends(st: RoleState, text: string)
    requires PlainItem(text)
    requires st.currentKey.Some? && st.currentArray.Some?
    ensures RoleStep(st, ItemLine(text)) == st.(currentArray := Some(st.currentArray.value + [text]))
  {
    ItemLineClassified(text);
  }

  lemma {:induction false} ItemsAppended(r: Entries<RoleValue>, key: string, items: seq<string>)
    requires forall k :: 0 <= k < |items| ==> PlainItem(items[k])
    ensures RoleSteps(RoleState(r, Some(key), Some([])), ItemLines(items)) == RoleState(r, Some(key), Some(items))
    decreases |items|
  {
    if |items| > 0 {
      var init, last := items[..|items| - 1], items[|items| - 1];
      var st := RoleState(r, Some(key), Some([]));
      ItemsAppended(r, key, init);
      var before := RoleSteps(st, ItemLines(init));
      assert ItemLines(items) == ItemLines(init) + [ItemLine(last)];
      RoleStepsSnoc(st, ItemLines(init), ItemLine(last));
      ItemAppends(before, last);
      InitLast(items);
    }
  }

  lemma RoleStepsSnoc(st: RoleState, lines: seq<string>, line: string)
    ensures RoleSteps(st, lines + [line]) == RoleStep(RoleSteps(st, lines), line)
  {
    assert (lines + [line])[..|lines|] == lines;
  }

  /** A key followed by item lines ends, once flushed, as the list of exactly those texts. */
  lemma ListCollected(st: RoleState, key: string, items: seq<string>)
    requires |key| > 0 && forall i :: 0 <= i < |key| ==> IsWordChar(key[i])
    requires forall k :: 0 <= k < |items| ==> PlainItem(items[k])
    ensures var end := RoleSteps(RoleStep(st, key + ":"), ItemLines(items));
      end.currentKey == Some(key) && end.currentArray == Some(items)
      && Get(Flushed(end), key) == Some(RList(items))
  {
    OpenKeyStoresPrevious(st, key);
    ItemsAppended(Flushed(st), key, items);
  }

  function ItemLines(items: seq<string>): (ls: seq<string>)
    ensures |ls| == |items| && forall k :: 0 <= k < |items| ==> ls[k] == ItemLine(items[k])
  {
    if |items| == 0 then [] else ItemLines(items[..|items| - 1]) + [ItemLine(items[|items| - 1])]
  }

  /** Steps over several lines from a given state. */
  function RoleSteps(st: RoleState, lines: seq<string>): RoleState
  {
    if |lines| == 0 then st else RoleStep(RoleSteps(st, lines[..|lines| - 1]), lines[|lines| - 1])
  }

  // ---------------------------------------------------------------- validation

  const RequiredFields: seq<string> := ["name", "description", "role", "defaultModel", "defaultTemperature"]

  /** The first required field the data lacks, if any. */
  function FirstMissing(data: Entries<RoleValue>, fields: seq<string>): (r: Option<string>)
    ensures r.Some? ==> r.value in fields && !HasKey(data, r.value)
    ensures r.None? <==> forall f :: f in fields ==> HasKey(data, f)
  {
    if |fields| == 0 then None
    else if !HasKey(data, fields[0]) then Some(fields[0])
    else
      var r := FirstMissing(data, fields[1..]);
      assert forall f :: f in fields ==> f == fields[0] || f in fields[1..];
      r
  }

  /** `String(v)`: a list prints as its items joined with commas. */
  function ToJsString(v: RoleValue): string
  {
    match v
    case RStr(s) => s
    case RNum(n) => DecimalToString(Normalize(n.mantissa, n.scale))
    case RList(items) => Join(items, ",")
  }

  /** `Number(v)`: strings and lists (through their text) are read as numerals; `None` is `NaN`. */
  function ToJsNumber(v: RoleValue): Option<Decimal>
  {
    match v
    case RNum(n) => Some(n)
    case RStr(s) => JsNumber(s)
    case RList(items) => JsNumber(Join(items, ","))
  }

  /** `asStringArray`: a list as it is, anything else as the empty list. */
  function AsStringArray(v: Option<RoleValue>): (r: seq<string>)
    ensures v.Some? && v.value.RList? ==> r == v.value.items
    ensures !(v.Some? && v.value.RList?) ==> r == []
  {
    match v
    case Some(RList(items)) => items
    case _ => []
  }

  function Required(data: Entries<RoleValue>, key: string): RoleValue
    requires HasKey(data, key)
  {
    Get(data, key).value
  }

  /** `validateFrontMatter`. */
  function ValidateRole(data: Entries<RoleValue>): (r: Result<RoleFrontMatter>)
    ensures r.Err? <==> exists f :: f in RequiredFields && !HasKey(data, f)
    ensures r.Err? ==> r.msg == "Missing required front matter field: " + FirstMissing(data, RequiredFields).value
  {
    match FirstMissing(data, RequiredFields)
    case Some(field) => Err("Missing required front matter field: " + field)
    case None =>
      assert forall f :: f in RequiredFields ==> HasKey(data, f);
      assert "name" in RequiredFields && "description" in RequiredFields && "role" in RequiredFields;
      assert "defaultModel" in RequiredFields && "defaultTemperature" in RequiredFields;
      Ok(RoleFrontMatter(
        ToJsString(Required(data, "name")),
        ToJsString(Required(data, "description")),
        ToJsString(Required(data, "role")),
        AsStringArray(Get(data, "capabilities")),
        AsStringArray(Get(data, "constraints")),
        AsStringArray(Get(data, "triggers")),
        AsStringArray(Get(data, "delegationHints")),
        ToJsString(Required(data, "defaultModel")),
        ToJsNumber(Required(data, "defaultTemperature")),
        Get(data, "primary") == Some(RStr("true"))))
  }

  lemma {:induction false} FirstMissingAt(data: Entries<RoleValue>, fields: seq<string>, k: nat)
    requires k < |fields| && !HasKey(data, fields[k])
    requires forall j :: 0 <= j < k ==> HasKey(data, fields[j])
    ensures FirstMissing(data, fields) == Some(fields[k])
  {
    if k > 0 {
      assert HasKey(data, fields[0]);
      FirstMissingAt(data, fields[1..], k - 1);
    }
  }

  /** The missing field reported is the first of the five in declaration order. */
  lemma MissingFieldIsFirst(data: Entries<RoleValue>, k: nat)
    requires k < |RequiredFields| && !HasKey(data, RequiredFields[k])
    requires forall j :: 0 <= j < k ==> HasKey(data, RequiredFields[j])
    ensures ValidateRole(data) == Err("Missing required front matter field: " + RequiredFields[k])
  {
    FirstMissingAt(data, RequiredFields, k);
  }

  /** `primary` holds exactly when the stored value is the text `true`; lists default to empty. */
  lemma ValidatedFields(data: Entries<RoleValue>)
    requires ValidateRole(data).Ok?
    ensures ValidateRole(data).value.primary <==> Get(data, "primary") == Some(RStr("true"))
    ensures var c := Get(data, "capabilities");
      ValidateRole(data).value.capabilities == if c.Some? && c.value.RList? then c.value.items else []
    ensures Get(data, "name").value.RStr? ==> ValidateRole(data).value.name == Get(data, "name").value.s
  {
  }

  // ---------------------------------------------------------------- whole file

  /** `parseRoleFile`. */
  function ParseRoleFile(content: string): (r: Result<ParsedRole>)
    ensures FrontMatter.Split(content).None? ==> r == Err(MissingDelimiters)
  {
    match FrontMatter.Split(content)
    case None => Err(MissingDelimiters)
    case Some(parts) =>
      match ValidateRole(RoleYaml(parts.yaml))
      case Err(msg) => Err(msg)
      case Ok(fm) => Ok(ParsedRole(fm, Trim(parts.body)))
  }

  /** A file built from front matter and a body reads back with that body, trimmed. */
  lemma RoleFileBody(yaml: string, body: string)
    requires FrontMatter.NoClosingLine(yaml)
    requires ValidateRole(RoleYaml(yaml)).Ok?
    ensures ParseRoleFile("---\n" + yaml + "\n---\n" + body) == Ok(ParsedRole(ValidateRole(RoleYaml(yaml)).value, Trim(body)))
  {
    FrontMatter.SplitRoundTrip(yaml, body);
  }

  /** Content that does not start with an opening `---` line is rejected with the delimiter message. */
  lemma NoOpeningRejected(content: string)
    requires !StartsWith(content, "---\n") && !StartsWith(content, "---\r\n")
    ensures ParseRoleFile(content) == Err(MissingDelimiters)
  {
  }
}
