/**
 * The network loader's YAML subset parser (`parseYaml` and `parseScalar` in
 * the network compiler's loader).
 *
 * The parser keeps a stack of open objects and a pending "maybe a list" key.
 * Objects are shared by reference between the stack and their parent, and a
 * pending key may later be overwritten with a list, detaching the object that
 * was on the stack. The model keeps that aliasing explicit: every object lives
 * in an arena (`Heap`) under a numeric id, a field holds either a scalar, a
 * list, or a reference to a later object, and the result tree is read out of
 * the arena from the root object at the end.
 */
module NetworkYaml {
  import opened Wrappers
  import opened Text
  import opened Decimals
  import opened Assoc

  datatype Scalar = Bool(b: bool) | Num(n: Decimal) | Str(s: string)

  /** A parsed YAML value: a scalar, a list of scalars, or an object with ordered keys. */
  datatype Value = Leaf(scalar: Scalar) | List(items: seq<Scalar>) | Obj(fields: Entries<Value>)

  predicate IsQuote(c: char) { c == '"' || c == '\'' }

  /** `value.slice(1, -1)`. */
  function Inner(value: string): string
  {
    if |value| >= 2 then value[1..|value| - 1] else ""
  }

  /**
   * `parseScalar`: the two boolean words, then anything `Number` accepts
   * (except the empty string), then a string with one pair of matching
   * quotes removed, else the string itself.
   */
  function ParseScalar(value: string): Scalar
  {
    if value == "true" then Bool(true)
    else if value == "false" then Bool(false)
    else if value != "" && JsNumber(value).Some? then Num(JsNumber(value).value)
    else if (StartsWith(value, "\"") && EndsWith(value, "\""))
         || (StartsWith(value, "'") && EndsWith(value, "'")) then Str(Inner(value))
    else Str(value)
  }

  /** How a scalar is written so that `ParseScalar` reads it back. */
  function RenderScalar(s: Scalar): string
    requires s.Num? ==> Normal(s.n)
  {
    match s
    case Bool(b) => if b then "true" else "false"
    case Num(n) => DecimalToString(n)
    case Str(t) => "\"" + t + "\""
  }

  /** Every scalar, written as YAML, parses back to itself; a quoted string is never read as a number. */
  lemma ScalarRoundTrip(s: Scalar)
    requires s.Num? ==> Normal(s.n)
    ensures ParseScalar(RenderScalar(s)) == s
  {
    match s
    case Bool(b) =>
    case Num(n) => NumberRoundTrip(n);
    case Str(x) => QuotedRoundTrip(x);
  }

  lemma NumberRoundTrip(n: Decimal)
    requires Normal(n)
    ensures ParseScalar(DecimalToString(n)) == Num(n)
  {
    var t := DecimalToString(n);
    NumeralRoundTrip(n);
    RenderedEnds(n);
    TrimIdentity(t);
    TrimEmptyIffBlank(t);
  }

  lemma QuotedRoundTrip(x: string)
    ensures ParseScalar("\"" + x + "\"") == Str(x)
  {
    var t := "\"" + x + "\"";
    assert t[0] == '"' && t[|t| - 1] == '"';
    assert Trim(t) == t by { TrimIdentity(t); }
    assert ParseNumeral(t) == None by { QuotedNotNumeral(t); }
    TrimEmptyIffBlank(t);
    assert Inner(t) == x;
  }

  lemma RenderedEnds(n: Decimal)
    requires Normal(n)
    ensures var t := DecimalToString(n);
      && |t| > 0 && !IsSpace(t[0]) && !IsSpace(t[|t| - 1])
      && t != "true" && t != "false"
  {
    var ds := MagnitudeDigits(n);
    var cut := |ds| - n.scale;
    var u := UnsignedText(n);
    var t := DecimalToString(n);
    assert IsDigit(ds[0]) && IsDigit(ds[|ds| - 1]);
    if n.scale == 0 {
      assert u == ds[..cut];
    } else {
      assert u == ds[..cut] + ("." + ds[cut..]);
    }
    assert u[0] == ds[0] && u[|u| - 1] == ds[|ds| - 1];
    assert t[|t| - 1] == u[|u| - 1];
    assert t[0] == '-' || t[0] == u[0];
  }

  lemma QuotedNotNumeral(t: string)
    requires |t| > 0 && t[0] == '"'
    ensures ParseNumeral(t) == None
  {
    var dot := IndexOfChar(t, '.');
    if dot.Some? {
      assert dot.value != 0;
      assert t[..dot.value][0] == '"';
    } else {
      assert t[0] == '"';
    }
  }

  /** A version string such as `1.0.0` stays a string. */
  lemma VersionStaysString()
    ensures ParseScalar("1.0.0") == Str("1.0.0")
  {
    var s := "1.0.0";
    assert UnsignedNumeral(s) == None by {
      assert IndexOfChar(s, '.') == Some(1);
      assert !AllDigits(s[2..]) by { assert s[2..][1] == '.'; }
    }
    assert JsNumber(s) == None by {
      TrimIdentity(s);
      TrimEmptyIffBlank(s);
    }
    assert s[0] == '1' && s[1] == '.';
    PlainStaysString(s);
  }

  /** Text that is neither a boolean, a number nor quoted is read as itself. */
  lemma PlainStaysString(v: string)
    requires |v| > 1 && v[0] != '"' && v[0] != '\'' && v[0] != 't' && v[0] != 'f'
    requires JsNumber(v) == None
    ensures ParseScalar(v) == Str(v)
  {
    assert v != "true" && v != "false" && v != "";
    assert v[..1][0] == v[0];
    assert !StartsWith(v, "\"") && !StartsWith(v, "'");
  }

  // ---------------------------------------------------------------- lines

  predicate IsKeyChar(c: char)
  {
    ('a' <= c <= 'z') || ('A' <= c <= 'Z') || ('0' <= c <= '9') || c == '_' || c == '-'
  }

  /** Length of the longest prefix made of `[\w-]` characters. */
  function KeyLength(t: string): (n: nat)
    ensures n <= |t|
    ensures forall i :: 0 <= i < n ==> IsKeyChar(t[i])
    ensures n == |t| || !IsKeyChar(t[n])
  {
    if |t| > 0 && IsKeyChar(t[0]) then 1 + KeyLength(t[1..]) else 0
  }

  /** `^([\w-]+):` : the key and the text after the colon. */
  function KeyPrefix(t: string): (r: Option<(string, string)>)
    ensures r.Some? ==> |r.value.0| > 0 && t == r.value.0 + ":" + r.value.1
  {
    var n := KeyLength(t);
    if n > 0 && n < |t| && t[n] == ':' then
      assert t == t[..n] + ":" + t[n + 1..];
      Some((t[..n], t[n + 1..]))
    else None
  }

  /** `^([\w-]+):\s*\[([^\]]*)\]$`: the key and the text between the brackets. */
  function InlineArrayMatch(t: string): Option<(string, string)>
  {
    match KeyPrefix(t)
    case None => None
    case Some((key, rest)) =>
      var r := TrimStart(rest);
      if |r| >= 2 && r[0] == '[' && r[|r| - 1] == ']' && ']' !in r[1..|r| - 1]
      then Some((key, r[1..|r| - 1]))
      else None
  }

  /** `^([\w-]+):\s*(.*)$`: the key and the value after the white space; `.` refuses line breaks. */
  function KeyValueMatch(t: string): Option<(string, string)>
  {
    match KeyPrefix(t)
    case None => None
    case Some((key, rest)) =>
      var v := TrimStart(rest);
      if NoLineTerminator(v) then Some((key, v)) else None
  }

  /** `s.replace(/^["']|["']$/g, "")`: drop one quote character at each end. */
  function StripQuotes(s: string): string
  {
    var head := if |s| > 0 && IsQuote(s[0]) then 1 else 0;
    var tail := if |s| >= 2 && IsQuote(s[|s| - 1]) then 1 else 0;
    s[head..|s| - tail]
  }

  /** Items of an inline list: split on commas, trimmed, empty ones dropped, quotes stripped. */
  function InlineItems(parts: seq<string>): (r: seq<Scalar>)
    ensures |r| <= |parts|
  {
    if |parts| == 0 then []
    else
      var t := Trim(parts[0]);
      (if |t| > 0 then [ParseScalar(StripQuotes(t))] else []) + InlineItems(parts[1..])
  }

  datatype LineKind =
    | Skip
    | Item(scalar: Scalar)
    | InlineArray(key: string, items: seq<Scalar>)
    | KeyOpen(key: string)
    | KeyScalar(key: string, scalar: Scalar)
    | Other

  /** What the loop body does with one line, in the order it tests the patterns. */
  function Classify(line: string): LineKind
  {
    var t := Trim(line);
    if t == "" || StartsWith(t, "#") then Skip
    else if StartsWith(t, "- ") then Item(ParseScalar(Trim(t[2..])))
    else match InlineArrayMatch(t)
      case Some((key, items)) => InlineArray(key, InlineItems(Split(items, ',')))
      case None =>
        match KeyValueMatch(t)
        case Some((key, value)) =>
          if Trim(value) == "" then KeyOpen(key) else KeyScalar(key, ParseScalar(Trim(value)))
        case None => Other
  }

  // ---------------------------------------------------------------- arena

  datatype Slot = SLeaf(scalar: Scalar) | SList(items: seq<Scalar>) | SRef(id: nat)

  /** Object `i` holds its fields at `heap[i]`; object 0 is the root. */
  type Heap = seq<Entries<Slot>>

  datatype Scope = Scope(obj: nat, indent: int)

  datatype Pending = NoPending | Pending(key: string, items: seq<Scalar>, indent: int, parent: nat)

  datatype ParserState = ParserState(heap: Heap, stack: seq<Scope>, pending: Pending)

  /** References only point from an object to one created after it. */
  predicate RefsForward(heap: Heap)
  {
    forall i, k :: 0 <= i < |heap| && 0 <= k < |heap[i]| && heap[i][k].1.SRef? ==>
      i < heap[i][k].1.id < |heap|
  }

  predicate ValidState(st: ParserState)
  {
    && |st.heap| >= 1 && RefsForward(st.heap)
    && |st.stack| >= 1 && st.stack[0] == Scope(0, -1)
    && (forall i :: 0 <= i < |st.stack| ==> st.stack[i].obj < |st.heap|)
    && (st.pending.Pending? ==> st.pending.parent < |st.heap|)
  }

  function InitialState(): (st: ParserState)
    ensures ValidState(st)
  {
    ParserState([[]], [Scope(0, -1)], NoPending)
  }

  /** `obj[key] = slot` on object `obj` of the arena. */
  function SetField(heap: Heap, obj: nat, key: string, slot: Slot): (h: Heap)
    requires obj < |heap| && RefsForward(heap)
    requires slot.SRef? ==> obj < slot.id < |heap|
    ensures |h| == |heap| && RefsForward(h)
    ensures forall i :: 0 <= i < |heap| && i != obj ==> h[i] == heap[i]
    ensures h[obj] == Put(heap[obj], key, slot)
  {
    SetFieldRefs(heap, obj, key, slot);
    heap[obj := Put(heap[obj], key, slot)]
  }

  lemma SetFieldRefs(heap: Heap, obj: nat, key: string, slot: Slot)
    requires obj < |heap| && RefsForward(heap)
    requires slot.SRef? ==> obj < slot.id < |heap|
    ensures RefsForward(heap[obj := Put(heap[obj], key, slot)])
  {
    var fields: Entries<Slot> := Put(heap[obj], key, slot);
    var h: Heap := heap[obj := fields];
    PutEntries(heap[obj], key, slot);
    forall i: nat, k: nat | i < |h| && k < |h[i]| && h[i][k].1.SRef?
      ensures i < h[i][k].1.id < |h|
    {
      if i == obj {
        assert fields[k] in heap[obj] || fields[k] == (key, slot);
        if fields[k] in heap[obj] {
          var k' :| 0 <= k' < |heap[obj]| && heap[obj][k'] == fields[k];
        }
      }
    }
  }

  lemma {:induction false} PutEntries<V>(m: Entries<V>, k: string, v: V)
    ensures forall j :: 0 <= j < |Put(m, k, v)| ==> Put(m, k, v)[j] in m || Put(m, k, v)[j] == (k, v)
  {
    if |m| > 0 && m[0].0 != k {
      PutEntries(m[1..], k, v);
    }
  }

  /** An empty object, or an empty list (`Object.keys(x).length === 0` on an object-typed value). */
  predicate EmptyObjectLike(heap: Heap, slot: Option<Slot>)
  {
    match slot
    case Some(SRef(id)) => id < |heap| && heap[id] == []
    case Some(SList(items)) => items == []
    case _ => false
  }

  /** `flushPendingArray`. */
  function Flush(st: ParserState): (r: ParserState)
    requires ValidState(st)
    ensures ValidState(r) && r.pending == NoPending && r.stack == st.stack
  {
    match st.pending
    case NoPending => st
    case Pending(key, items, _, parent) =>
      var heap :=
        if |items| > 0 then SetField(st.heap, parent, key, SList(items))
        else if EmptyObjectLike(st.heap, Get(st.heap[parent], key)) then SetField(st.heap, parent, key, SList([]))
        else st.heap;
      ParserState(heap, st.stack, NoPending)
  }

  /** Pop scopes whose indent is at least `indent`, always keeping the root. */
  function PopScopes(stack: seq<Scope>, indent: int): (r: seq<Scope>)
    requires |stack| >= 1
    ensures 1 <= |r| <= |stack| && r == stack[..|r|]
    ensures |r| == 1 || r[|r| - 1].indent < indent
    ensures forall i :: |r| <= i < |stack| ==> stack[i].indent >= indent
    decreases |stack|
  {
    if |stack| > 1 && stack[|stack| - 1].indent >= indent then
      var r := PopScopes(stack[..|stack| - 1], indent);
      assert stack[..|stack| - 1][..|r|] == stack[..|r|];
      r
    else stack
  }

  /** One pass of the loop body. */
  function Step(st: ParserState, line: string): (r: ParserState)
    requires ValidState(st)
    ensures ValidState(r)
  {
    KindStep(st, LeadingSpaces(line), Classify(line))
  }

  /** The loop body on a classified line at the given indentation. */
  function KindStep(st: ParserState, indent: int, kind: LineKind): (r: ParserState)
    requires ValidState(st)
    ensures ValidState(r)
  {
    match kind
    case Skip => st
    case Other => st
    case Item(scalar) => ItemStep(st, indent, scalar)
    case InlineArray(key, items) => InlineArrayStep(st, indent, key, items)
    case KeyOpen(key) => KeyOpenStep(st, indent, key)
    case KeyScalar(key, scalar) => KeyScalarStep(st, indent, key, scalar)
  }

  /** A `- item` line: collected only under a pending key and deeper than it. */
  function ItemStep(st: ParserState, indent: int, scalar: Scalar): (r: ParserState)
    requires ValidState(st)
    ensures ValidState(r)
  {
    if st.pending.Pending? && indent > st.pending.indent then
      st.(pending := st.pending.(items := st.pending.items + [scalar]))
    else st
  }

  /** A `key: [a, b]` line: flush, find the scope, store the list. */
  function InlineArrayStep(st: ParserState, indent: int, key: string, items: seq<Scalar>): (r: ParserState)
    requires ValidState(st)
    ensures ValidState(r)
  {
    Stored(Popped(Flush(st), indent), key, SList(items))
  }

  /** The pending list is flushed only when a key line is not deeper than the pending key. */
  function FlushDeeper(st: ParserState, indent: int): (r: ParserState)
    requires ValidState(st)
    ensures ValidState(r)
  {
    if st.pending.Pending? && indent <= st.pending.indent then Flush(st) else st
  }

  /** A `key:` line with nothing after the colon. */
  function KeyOpenStep(st: ParserState, indent: int, key: string): (r: ParserState)
    requires ValidState(st)
    ensures ValidState(r)
  {
    var s2 := Popped(FlushDeeper(st, indent), indent);
    OpenObject(s2.heap, s2.stack, indent, key)
  }

  /** A `key: value` line: the scalar is stored on the object of the line's scope. */
  function KeyScalarStep(st: ParserState, indent: int, key: string, scalar: Scalar): (r: ParserState)
    requires ValidState(st)
    ensures ValidState(r)
  {
    Stored(Popped(FlushDeeper(st, indent), indent), key, SLeaf(scalar))
  }

  /** The scopes a line at `indent` closes are popped; nothing else changes. */
  function Popped(st: ParserState, indent: int): (r: ParserState)
    requires ValidState(st)
    ensures ValidState(r)
  {
    st.(stack := PopScopes(st.stack, indent))
  }

  /** `slot` stored under `key` on the object of the innermost scope. */
  function Stored(st: ParserState, key: string, slot: Slot): (r: ParserState)
    requires ValidState(st) && !slot.SRef?
    ensures ValidState(r)
  {
    ParserState(SetField(st.heap, st.stack[|st.stack| - 1].obj, key, slot), st.stack, st.pending)
  }

  /** A new, empty object at the end of the heap refers to nothing. */
  lemma GrownRefs(heap: Heap)
    requires RefsForward(heap)
    ensures RefsForward(heap + [[]])
  {
    var grown: Heap := heap + [[]];
    forall i: nat, k: nat | 0 <= i < |grown| && 0 <= k < |grown[i]| && grown[i][k].1.SRef?
      ensures i < grown[i][k].1.id < |grown|
    {
      assert grown[i] == heap[i];
    }
  }

  /** `key:` with nothing after it: a new empty object, a new scope, and a new pending key. */
  function OpenObject(heap: Heap, stack: seq<Scope>, indent: int, key: string): (r: ParserState)
    requires |heap| >= 1 && RefsForward(heap)
    requires |stack| >= 1 && stack[0] == Scope(0, -1)
    requires forall i :: 0 <= i < |stack| ==> stack[i].obj < |heap|
    ensures ValidState(r)
  {
    var parent := stack[|stack| - 1].obj;
    var id := |heap|;
    var grown := heap + [[]];
    GrownRefs(heap);
    var h := SetField(grown, parent, key, SRef(id));
    ParserState(h, stack + [Scope(id, indent)], Pending(key, [], indent, parent))
  }

  /** The state after the loop body has run on every line of `lines`. */
  function Run(lines: seq<string>): (st: ParserState)
    ensures ValidState(st)
  {
    if |lines| == 0 then InitialState() else Step(Run(lines[..|lines| - 1]), lines[|lines| - 1])
  }

  lemma RunPrefix(lines: seq<string>, i: nat)
    requires i < |lines|
    ensures Run(lines[..i + 1]) == Step(Run(lines[..i]), lines[i])
  {
    assert lines[..i + 1][..i] == lines[..i];
  }

  // ---------------------------------------------------------------- properties of the loop body

  /** Blank lines and comment lines leave the state alone. */
  lemma SkipLines(st: ParserState, line: string)
    requires ValidState(st)
    requires Trim(line) == "" || StartsWith(Trim(line), "#")
    ensures Step(st, line) == st
  {
  }

  /** The scope a line at `indent` belongs to: the innermost open scope indented strictly less, or the root. */
  function ScopeOf(stack: seq<Scope>, indent: int): (s: Scope)
    requires |stack| >= 1
    ensures s in stack
    ensures s == stack[0] || s.indent < indent
  {
    var popped := PopScopes(stack, indent);
    popped[|popped| - 1]
  }

  /**
   * A `key: value` line stores its scalar on the object of the nearest
   * open scope indented strictly less than the line, and leaves every other
   * object alone.
   */
  lemma KeyScalarAttaches(st: ParserState, indent: int, key: string, scalar: Scalar)
    requires ValidState(st)
    ensures var s1 := FlushDeeper(st, indent);
      var obj := ScopeOf(s1.stack, indent).obj;
      var r := KeyScalarStep(st, indent, key, scalar);
      && Get(r.heap[obj], key) == Some(SLeaf(scalar))
      && (forall k :: k != key ==> Get(r.heap[obj], k) == Get(s1.heap[obj], k))
      && (forall i :: 0 <= i < |s1.heap| && i != obj ==> r.heap[i] == s1.heap[i])
  {
    var s1 := FlushDeeper(st, indent);
    assert KeyScalarStep(st, indent, key, scalar) == Stored(Popped(s1, indent), key, SLeaf(scalar));
    StoredInScope(s1, indent, key, SLeaf(scalar));
  }

  /** Storing after the pop writes `key` on the object of the line's scope and on no other object. */
  lemma StoredInScope(s1: ParserState, indent: int, key: string, slot: Slot)
    requires ValidState(s1) && !slot.SRef?
    ensures var obj := ScopeOf(s1.stack, indent).obj;
      var r := Stored(Popped(s1, indent), key, slot);
      && Get(r.heap[obj], key) == Some(slot)
      && (forall k :: k != key ==> Get(r.heap[obj], k) == Get(s1.heap[obj], k))
      && (forall i :: 0 <= i < |s1.heap| && i != obj ==> r.heap[i] == s1.heap[i])
  {
    var popped := PopScopes(s1.stack, indent);
    var obj := popped[|popped| - 1].obj;
    assert obj == ScopeOf(s1.stack, indent).obj;
    var h := SetField(s1.heap, obj, key, slot);
    assert Stored(Popped(s1, indent), key, slot).heap == h;
    assert h[obj] == Put(s1.heap[obj], key, slot);
  }

  /** A `- item` line deeper than the pending key is appended to its items; any other item line is dropped. */
  lemma ItemCollected(st: ParserState, indent: int, scalar: Scalar)
    requires ValidState(st)
    ensures var r := ItemStep(st, indent, scalar);
      if st.pending.Pending? && indent > st.pending.indent
      then r.pending.Pending? && r.pending.items == st.pending.items + [scalar] && r.heap == st.heap
      else r == st
  {
  }

  /** Flushing a pending key that collected items replaces its value by the list of those items. */
  lemma FlushWithItems(st: ParserState)
    requires ValidState(st) && st.pending.Pending? && |st.pending.items| > 0
    ensures Get(Flush(st).heap[st.pending.parent], st.pending.key) == Some(SList(st.pending.items))
  {
  }

  /** The state right after `key:` opens: a fresh empty object under the line's scope, pending and on top of the stack. */
  lemma OpenedState(st: ParserState, indent: int, key: string)
    requires ValidState(st)
    ensures var s1 := FlushDeeper(st, indent);
      var parent := ScopeOf(s1.stack, indent).obj;
      var id := |s1.heap|;
      var r := KeyOpenStep(st, indent, key);
      && parent < id && |r.heap| == id + 1
      && r.pending == Pending(key, [], indent, parent)
      && Get(r.heap[parent], key) == Some(SRef(id))
      && r.heap[id] == []
      && r.stack[|r.stack| - 1] == Scope(id, indent)
  {
    var s1 := FlushDeeper(st, indent);
    assert KeyOpenStep(st, indent, key) == OpenObject(s1.heap, PopScopes(s1.stack, indent), indent, key);
    OpenedFrom(s1, indent, key);
  }

  lemma OpenedFrom(s1: ParserState, indent: int, key: string)
    requires ValidState(s1)
    ensures var parent := ScopeOf(s1.stack, indent).obj;
      var id := |s1.heap|;
      var r := OpenObject(s1.heap, PopScopes(s1.stack, indent), indent, key);
      && parent < id && |r.heap| == id + 1
      && r.pending == Pending(key, [], indent, parent)
      && Get(r.heap[parent], key) == Some(SRef(id))
      && r.heap[id] == []
      && r.stack[|r.stack| - 1] == Scope(id, indent)
  {
    var popped := PopScopes(s1.stack, indent);
    assert ScopeOf(s1.stack, indent) == popped[|popped| - 1];
    OpenObjectFacts(s1.heap, popped, indent, key);
  }

  lemma OpenObjectFacts(heap: Heap, stack: seq<Scope>, indent: int, key: string)
    requires |heap| >= 1 && RefsForward(heap)
    requires |stack| >= 1 && stack[0] == Scope(0, -1)
    requires forall i :: 0 <= i < |stack| ==> stack[i].obj < |heap|
    ensures var parent := stack[|stack| - 1].obj;
      var r := OpenObject(heap, stack, indent, key);
      && parent < |heap| && |r.heap| == |heap| + 1
      && r.pending == Pending(key, [], indent, parent)
      && Get(r.heap[parent], key) == Some(SRef(|heap|))
      && r.heap[|heap|] == []
      && r.stack[|r.stack| - 1] == Scope(|heap|, indent)
  {
    var parent := stack[|stack| - 1].obj;
    var grown := heap + [[]];
    var r := OpenObject(heap, stack, indent, key);
    GrownRefs(heap);
    assert parent < |heap|;
    assert r.heap == SetField(grown, parent, key, SRef(|heap|));
    assert r.heap[parent] == Put(grown[parent], key, SRef(|heap|));
    assert r.heap[|heap|] == grown[|heap|];
  }

  /**
   * A bare `key:` that is flushed before anything is stored under it becomes
   * an empty list on its parent.
   */
  lemma BareKeyBecomesEmptyList(st: ParserState, indent: int, key: string)
    requires ValidState(st)
    ensures var s1 := FlushDeeper(st, indent);
      var parent := ScopeOf(s1.stack, indent).obj;
      Get(Flush(KeyOpenStep(st, indent, key)).heap[parent], key) == Some(SList([]))
  {
    OpenedState(st, indent, key);
  }

  /** A line deeper than the innermost scope stores its slot on that scope's object and on no other. */
  lemma StoredOnTop(st: ParserState, inner: int, child: string, slot: Slot)
    requires ValidState(st) && !slot.SRef? && st.stack[|st.stack| - 1].indent < inner
    ensures var obj := st.stack[|st.stack| - 1].obj;
      var r := Stored(Popped(st, inner), child, slot);
      && r.heap[obj] == Put(st.heap[obj], child, slot)
      && (forall i :: 0 <= i < |st.heap| && i != obj ==> r.heap[i] == st.heap[i])
      && r.pending == st.pending
  {
    var obj := st.stack[|st.stack| - 1].obj;
    assert PopScopes(st.stack, inner) == st.stack;
    assert Popped(st, inner) == st;
    assert Stored(st, child, slot).heap == SetField(st.heap, obj, child, slot);
  }

  /** Flushing right after `key:` opens turns the key into an empty list and leaves the new object empty. */
  lemma FlushedOpen(st: ParserState, indent: int, key: string)
    requires ValidState(st)
    ensures var s1 := FlushDeeper(st, indent);
      var parent := ScopeOf(s1.stack, indent).obj;
      var id := |s1.heap|;
      var r := Flush(KeyOpenStep(st, indent, key));
      && parent != id && id < |r.heap|
      && Get(r.heap[parent], key) == Some(SList([]))
      && r.heap[id] == []
      && r.stack[|r.stack| - 1] == Scope(id, indent)
  {
    var afterOpen := KeyOpenStep(st, indent, key);
    OpenedState(st, indent, key);
    var s1 := FlushDeeper(st, indent);
    var parent := ScopeOf(s1.stack, indent).obj;
    assert EmptyObjectLike(afterOpen.heap, Get(afterOpen.heap[parent], key));
    assert Flush(afterOpen).heap == SetField(afterOpen.heap, parent, key, SList([]));
  }

  /**
   * A `key:` whose object received a nested key stays an object when the
   * pending key is flushed.
   */
  lemma NestedKeyKeepsObject(st: ParserState, indent: int, key: string, inner: int, child: string, scalar: Scalar)
    requires ValidState(st) && inner > indent
    ensures var s1 := FlushDeeper(st, indent);
      var parent := ScopeOf(s1.stack, indent).obj;
      var id := |s1.heap|;
      var r := Flush(KeyScalarStep(KeyOpenStep(st, indent, key), inner, child, scalar));
      && Get(r.heap[parent], key) == Some(SRef(id))
      && Get(r.heap[id], child) == Some(SLeaf(scalar))
  {
    var s1 := FlushDeeper(st, indent);
    var parent, id := ScopeOf(s1.stack, indent).obj, |s1.heap|;
    var stored := KeyScalarStep(KeyOpenStep(st, indent, key), inner, child, scalar);
    ScalarIntoOpened(st, indent, key, inner, child, scalar);
    FlushKeepsFilledObject(stored, parent, id);
  }

  /** A deeper `child: scalar` right after `key:` lands in the object `key` opened. */
  lemma ScalarIntoOpened(st: ParserState, indent: int, key: string, inner: int, child: string, scalar: Scalar)
    requires ValidState(st) && inner > indent
    ensures var s1 := FlushDeeper(st, indent);
      var parent := ScopeOf(s1.stack, indent).obj;
      var id := |s1.heap|;
      var stored := KeyScalarStep(KeyOpenStep(st, indent, key), inner, child, scalar);
      && parent < id < |stored.heap|
      && stored.pending == Pending(key, [], indent, parent)
      && Get(stored.heap[parent], key) == Some(SRef(id))
      && stored.heap[id] == Put([], child, SLeaf(scalar))
  {
    var afterOpen := KeyOpenStep(st, indent, key);
    OpenedState(st, indent, key);
    StoredOnTop(afterOpen, inner, child, SLeaf(scalar));
    assert KeyScalarStep(afterOpen, inner, child, scalar) == Stored(Popped(afterOpen, inner), child, SLeaf(scalar));
  }

  /** A pending key whose object is no longer empty is left alone by the flush. */
  lemma FlushKeepsFilledObject(st: ParserState, parent: nat, id: nat)
    requires ValidState(st) && st.pending.Pending? && st.pending.items == [] && st.pending.parent == parent
    requires id < |st.heap| && st.heap[id] != []
    requires Get(st.heap[parent], st.pending.key) == Some(SRef(id))
    ensures Flush(st).heap == st.heap
  {
  }

  /**
   * An inline array right under an open `key:` flushes that key first, so
   * the key becomes an empty list, while the array is stored on the
   * now-detached object that is still on the scope stack.
   */
  lemma InlineArrayUnderOpenKey(st: ParserState, indent: int, key: string, inner: int, child: string, items: seq<Scalar>)
    requires ValidState(st) && inner > indent
    ensures var s1 := FlushDeeper(st, indent);
      var parent := ScopeOf(s1.stack, indent).obj;
      var id := |s1.heap|;
      var r := InlineArrayStep(KeyOpenStep(st, indent, key), inner, child, items);
      && Get(r.heap[parent], key) == Some(SList([]))
      && Get(r.heap[id], child) == Some(SList(items))
  {
    var s1 := FlushDeeper(st, indent);
    var parent, id := ScopeOf(s1.stack, indent).obj, |s1.heap|;
    var afterOpen := KeyOpenStep(st, indent, key);
    var flushed := Flush(afterOpen);
    FlushedOpen(st, indent, key);
    StoredOnTop(flushed, inner, child, SList(items));
    var r := InlineArrayStep(afterOpen, inner, child, items);
    assert r == Stored(Popped(flushed, inner), child, SList(items));
    assert r.heap[id] == Put([], child, SList(items));
    assert r.heap[parent] == flushed.heap[parent];
  }

  /** The tree of values reachable from object `id`. */
  function Materialize(heap: Heap, id: nat): Value
    requires RefsForward(heap) && id < |heap|
    decreases |heap| - id, |heap[id]| + 1
  {
    Obj(MaterializeFields(heap, id, 0))
  }

  function MaterializeFields(heap: Heap, id: nat, k: nat): Entries<Value>
    requires RefsForward(heap) && id < |heap| && k <= |heap[id]|
    decreases |heap| - id, |heap[id]| - k
  {
    if k == |heap[id]| then []
    else
      var (key, slot) := heap[id][k];
      var v := match slot
        case SLeaf(s) => Leaf(s)
        case SList(items) => List(items)
        case SRef(j) => Materialize(heap, j);
      [(key, v)] + MaterializeFields(heap, id, k + 1)
  }

  /** The value `parseYaml` returns for a front-matter text. */
  function Parse(yaml: string): Value
  {
    var st := Flush(Run(Split(yaml, '\n')));
    Materialize(st.heap, 0)
  }

  // ---------------------------------------------------------------- the parser

  /** The parser's mutable state: the arena, the scope stack and the pending list. */
  class YamlParser {
    var heap: Heap
    var stack: seq<Scope>
    /** `pendingArrayKey`, `pendingArray`, `pendingArrayIndent` and `pendingArrayParent`, which are set and cleared together. */
    var pending: Pending

    ghost predicate Valid()
      reads this
    {
      ValidState(State())
    }

    /** The abstract state the loop body is specified on. */
    ghost function State(): ParserState
      reads this
    {
      ParserState(heap, stack, pending)
    }

    constructor ()
      ensures Valid() && State() == InitialState()
    {
      heap := [[]];
      stack := [Scope(0, -1)];
      pending := NoPending;
    }

    /** `flushPendingArray`. */
    method FlushPendingArray()
      requires Valid()
      modifies this
      ensures Valid() && State() == Flush(old(State()))
    {
      ghost var s0 := State();
      var h := heap;
      if pending.Pending? {
        var key, parent := pending.key, pending.parent;
        if |pending.items| > 0 {
          h := SetField(h, parent, key, SList(pending.items));
        } else {
          var current := Get(h[parent], key);
          if current.Some? && current.value.SRef? && current.value.id < |h| && h[current.value.id] == [] {
            h := SetField(h, parent, key, SList([]));
          } else if current.Some? && current.value.SList? && current.value.items == [] {
            h := SetField(h, parent, key, SList([]));
          }
        }
      }
      assert h == Flush(s0).heap;
      heap := h;
      pending := NoPending;
      assert State() == Flush(s0);
    }

    /** Pop the stack to the scope a line at `indent` belongs to. */
    method PopTo(indent: int)
      requires Valid()
      modifies this
      ensures Valid() && State() == Popped(old(State()), indent)
    {
      ghost var s0 := State();
      var scopes := stack;
      while |scopes| > 1 && scopes[|scopes| - 1].indent >= indent
        invariant 1 <= |scopes| && PopScopes(s0.stack, indent) == PopScopes(scopes, indent)
        decreases |scopes|
      {
        scopes := scopes[..|scopes| - 1];
      }
      assert scopes == PopScopes(s0.stack, indent);
      stack := scopes;
      assert State() == Popped(s0, indent);
    }

    /** The loop body of `parseYaml` for one line. */
    method Feed(line: string)
      requires Valid()
      modifies this
      ensures Valid() && State() == Step(old(State()), line)
    {
      FeedKind(LeadingSpaces(line), Classify(line));
    }

    method FeedKind(indent: int, kind: LineKind)
      requires Valid()
      modifies this
      ensures Valid() && State() == KindStep(old(State()), indent, kind)
    {
      match kind {
        case Skip =>
        case Other =>
        case Item(scalar) => FeedItem(indent, scalar);
        case InlineArray(key, items) => FeedInlineArray(indent, key, items);
        case KeyOpen(key) => FeedKeyOpen(indent, key);
        case KeyScalar(key, scalar) => FeedKeyScalar(indent, key, scalar);
      }
    }

    method FeedItem(indent: int, scalar: Scalar)
      requires Valid()
      modifies this
      ensures Valid() && State() == ItemStep(old(State()), indent, scalar)
    {
      if pending.Pending? && indent > pending.indent {
        pending := pending.(items := pending.items + [scalar]);
      }
    }

    method FeedInlineArray(indent: int, key: string, items: seq<Scalar>)
      requires Valid()
      modifies this
      ensures Valid() && State() == InlineArrayStep(old(State()), indent, key, items)
    {
      FlushPendingArray();
      PopTo(indent);
      SetSlot(key, SList(items));
    }

    method FeedKeyOpen(indent: int, key: string)
      requires Valid()
      modifies this
      ensures Valid() && State() == KeyOpenStep(old(State()), indent, key)
    {
      FlushIfNotDeeper(indent);
      PopTo(indent);
      AddObject(indent, key);
    }

    method FeedKeyScalar(indent: int, key: string, scalar: Scalar)
      requires Valid()
      modifies this
      ensures Valid() && State() == KeyScalarStep(old(State()), indent, key, scalar)
    {
      FlushIfNotDeeper(indent);
      PopTo(indent);
      SetSlot(key, SLeaf(scalar));
    }

    method FlushIfNotDeeper(indent: int)
      requires Valid()
      modifies this
      ensures Valid() && State() == FlushDeeper(old(State()), indent)
    {
      if pending.Pending? && indent <= pending.indent {
        FlushPendingArray();
      }
    }

    /** `stack[stack.length - 1].obj[key] = ...` with a scalar or a list. */
    method SetSlot(key: string, slot: Slot)
      requires Valid() && !slot.SRef?
      modifies this
      ensures Valid() && State() == Stored(old(State()), key, slot)
    {
      ghost var s0 := State();
      heap := SetField(heap, stack[|stack| - 1].obj, key, slot);
      assert State() == Stored(s0, key, slot);
    }

    /** `key:` opens a new empty object under the current scope and makes `key` pending. */
    method AddObject(indent: int, key: string)
      requires Valid()
      modifies this
      ensures Valid() && State() == OpenObject(old(heap), old(stack), indent, key)
    {
      var next := OpenObject(heap, stack, indent, key);
      heap, stack, pending := next.heap, next.stack, next.pending;
    }
  }

  /** `parseYaml`: runs the loop body over the lines, flushes, and returns the root object. */
  method ParseYaml(yaml: string) returns (root: Value)
    ensures root == Parse(yaml)
    ensures root.Obj?
  {
    var lines := Split(yaml, '\n');
    var parser := new YamlParser();
    var i := 0;
    while i < |lines|
      invariant 0 <= i <= |lines|
      invariant parser.Valid() && parser.State() == Run(lines[..i])
    {
      RunPrefix(lines, i);
      parser.Feed(lines[i]);
      i := i + 1;
    }
    assert lines[..i] == lines;
    parser.FlushPendingArray();
    root := Materialize(parser.heap, 0);
  }
}
