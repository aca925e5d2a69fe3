/**
 * JSONC support for the hook configuration: `stripJsonComments` removes
 * line and block comments and trailing commas, leaving string literals
 * alone. Each of its two global regular-expression replacements is a
 * left-to-right scanner: at each position it tries, in order, an escaped
 * quote, a string literal and the pattern to remove, and otherwise copies
 * one character.
 *
 * `stripJsonComments`'s string-literal pattern reads `\"` as an escaped quote even
 * when the backslash is itself escaped (`"x\\"`), so such a literal can run
 * on to a later quote and hide a comment. `StripJsonComments` reads string
 * literals as JSON does; `StripJsonCommentsAsWritten` keeps `stripJsonComments`'s
 * reading, and `EscapedBackslashHidesComment` shows the difference.
 */
module JsonComments {
  import opened Wrappers
  import opened Text

  /** How a string literal's body is read: by `stripJsonComments`'s pattern, or as JSON escapes. */
  datatype Quoting = PatternQuoting | JsonQuoting

  /**
   * The length of a string literal's body, its opening quote already read:
   * the index of the closing quote. `PatternQuoting` is the greedy
   * `(?:\\"|[^"])*"` with backtracking: after `\"` it looks for a later
   * closing quote, and only when there is none closes at that quote.
   */
  function LiteralBody(t: string, q: Quoting): (r: Option<nat>)
    ensures r.Some? ==> r.value < |t| && t[r.value] == '"'
    decreases |t|
  {
    if |t| == 0 then None
    else if t[0] == '"' then Some(0)
    else if t[0] == '\\' && q == JsonQuoting then
      if |t| < 2 then None
      else
        match LiteralBody(t[2..], q)
        case None => None
        case Some(n) => Some(n + 2)
    else if t[0] == '\\' && |t| >= 2 && t[1] == '"' then
      match LiteralBody(t[2..], q)
      case Some(n) => Some(n + 2)
      case None => Some(1)
    else
      match LiteralBody(t[1..], q)
      case None => None
      case Some(n) => Some(n + 1)
  }

  /** The length of a `//` comment's text: `.*` stops before a line terminator. */
  function LineLength(t: string): (n: nat)
    ensures n <= |t| && NoLineTerminator(t[..n])
    ensures n < |t| ==> IsLineTerminator(t[n])
  {
    if |t| == 0 || IsLineTerminator(t[0]) then 0
    else
      var k := LineLength(t[1..]);
      assert t[..k + 1] == [t[0]] + t[1..][..k];
      k + 1
  }

  /** The index of the first star-slash in `t`: where the lazy `[\s\S]*?` of a block comment stops. */
  function BlockEnd(t: string): (r: Option<nat>)
    ensures r.Some? ==> r.value + 2 <= |t| && t[r.value] == '*' && t[r.value + 1] == '/'
  {
    if |t| < 2 then None
    else if t[0] == '*' && t[1] == '/' then Some(0)
    else
      match BlockEnd(t[1..])
      case None => None
      case Some(i) => Some(i + 1)
  }

  /** The first replacement: comments removed, escaped quotes and string literals copied. */
  function StripComments(s: string, q: Quoting): string
    decreases |s|
  {
    if |s| == 0 then ""
    else if |s| >= 2 && s[0] == '\\' && s[1] == '"' then s[..2] + StripComments(s[2..], q)
    else if s[0] == '"' && LiteralBody(s[1..], q).Some? then
      var n := LiteralBody(s[1..], q).value + 2;
      s[..n] + StripComments(s[n..], q)
    else if |s| >= 2 && s[0] == '/' && s[1] == '/' then
      StripComments(s[2 + LineLength(s[2..])..], q)
    else if |s| >= 2 && s[0] == '/' && s[1] == '*' && BlockEnd(s[2..]).Some? then
      StripComments(s[BlockEnd(s[2..]).value + 4..], q)
    else [s[0]] + StripComments(s[1..], q)
  }

  /** A comma is trailing when only white space separates it from a closing `}` or `]`. */
  predicate ClosesAfterSpaces(t: string)
  {
    LeadingSpaces(t) < |t| && (t[LeadingSpaces(t)] == '}' || t[LeadingSpaces(t)] == ']')
  }

  /** The second replacement: a trailing comma dropped, the white space and bracket after it kept. */
  function StripTrailingCommas(s: string, q: Quoting): string
    decreases |s|
  {
    if |s| == 0 then ""
    else if |s| >= 2 && s[0] == '\\' && s[1] == '"' then s[..2] + StripTrailingCommas(s[2..], q)
    else if s[0] == '"' && LiteralBody(s[1..], q).Some? then
      var n := LiteralBody(s[1..], q).value + 2;
      s[..n] + StripTrailingCommas(s[n..], q)
    else if s[0] == ',' && ClosesAfterSpaces(s[1..]) then
      var k := LeadingSpaces(s[1..]) + 2;
      s[1..k] + StripTrailingCommas(s[k..], q)
    else [s[0]] + StripTrailingCommas(s[1..], q)
  }

  /** `stripJsonComments` as written: string literals read by its own pattern. */
  function StripJsonCommentsAsWritten(json: string): string
  {
    StripTrailingCommas(StripComments(json, PatternQuoting), PatternQuoting)
  }

  /** `stripJsonComments` with string literals read as JSON reads them. */
  function StripJsonComments(json: string): string
  {
    StripTrailingCommas(StripComments(json, JsonQuoting), JsonQuoting)
  }

  /** The body of a well-formed JSON string literal: plain characters and backslash escapes. */
  predicate JsonBody(b: string)
    decreases |b|
  {
    |b| == 0 ||
    (b[0] != '"' && b[0] != '\\' && JsonBody(b[1..])) ||
    (|b| >= 2 && b[0] == '\\' && JsonBody(b[2..]))
  }

  // ---------------------------------------------------------------- properties

  /** A literal body without quotes or backslashes ends at the next quote, however literals are read. */
  lemma {:induction false} PlainBodyEnds(b: string, rest: string, q: Quoting)
    requires '"' !in b && '\\' !in b
    ensures LiteralBody(b + "\"" + rest, q) == Some(|b|)
  {
    if |b| > 0 {
      PlainBodyEnds(b[1..], rest, q);
      assert (b + "\"" + rest)[1..] == b[1..] + "\"" + rest;
    }
  }

  /** A well-formed JSON literal body ends at its own closing quote when literals are read as JSON. */
  lemma {:induction false} JsonBodyEnds(b: string, rest: string)
    requires JsonBody(b)
    ensures LiteralBody(b + "\"" + rest, JsonQuoting) == Some(|b|)
    decreases |b|
  {
    var t := b + "\"" + rest;
    if |b| > 0 {
      if b[0] == '\\' {
        JsonBodyEnds(b[2..], rest);
        assert t[2..] == b[2..] + "\"" + rest;
      } else {
        JsonBodyEnds(b[1..], rest);
        assert t[1..] == b[1..] + "\"" + rest;
      }
    }
  }

  /** A string literal the scanner reads to its closing quote is copied whole by both replacements. */
  lemma LiteralCopied(b: string, rest: string, q: Quoting)
    requires LiteralBody(b + "\"" + rest, q) == Some(|b|)
    ensures StripComments("\"" + b + "\"" + rest, q) == "\"" + b + "\"" + StripComments(rest, q)
    ensures StripTrailingCommas("\"" + b + "\"" + rest, q) == "\"" + b + "\"" + StripTrailingCommas(rest, q)
  {
    var s := "\"" + b + "\"" + rest;
    assert s[1..] == b + "\"" + rest;
    assert s[..|b| + 2] == "\"" + b + "\"" && s[|b| + 2..] == rest;
  }

  /** A string literal whose body has no quote or backslash passes both replacements untouched. */
  lemma PlainLiteralKept(b: string, rest: string, q: Quoting)
    requires '"' !in b && '\\' !in b
    ensures StripComments("\"" + b + "\"" + rest, q) == "\"" + b + "\"" + StripComments(rest, q)
    ensures StripTrailingCommas("\"" + b + "\"" + rest, q) == "\"" + b + "\"" + StripTrailingCommas(rest, q)
  {
    PlainBodyEnds(b, rest, q);
    LiteralCopied(b, rest, q);
  }

  /** Read as JSON, every well-formed string literal passes both replacements untouched. */
  lemma JsonLiteralKept(b: string, rest: string)
    requires JsonBody(b)
    ensures StripComments("\"" + b + "\"" + rest, JsonQuoting) == "\"" + b + "\"" + StripComments(rest, JsonQuoting)
    ensures StripTrailingCommas("\"" + b + "\"" + rest, JsonQuoting) == "\"" + b + "\"" + StripTrailingCommas(rest, JsonQuoting)
  {
    JsonBodyEnds(b, rest);
    LiteralCopied(b, rest, JsonQuoting);
  }

  /** Any other character is copied, and scanning goes on after it. */
  lemma CharCopied(c: char, rest: string, q: Quoting)
    requires c != '\\' && c != '"' && c != '/'
    ensures StripComments([c] + rest, q) == [c] + StripComments(rest, q)
    ensures c != ',' ==> StripTrailingCommas([c] + rest, q) == [c] + StripTrailingCommas(rest, q)
  {
    assert ([c] + rest)[1..] == rest;
  }

  /** A comma that is not trailing is copied. */
  lemma CommaKept(rest: string, q: Quoting)
    requires !ClosesAfterSpaces(rest)
    ensures StripTrailingCommas("," + rest, q) == "," + StripTrailingCommas(rest, q)
  {
    assert ("," + rest)[1..] == rest;
  }

  /** A `//` comment is removed up to, not including, the line break. */
  lemma LineCommentRemoved(c: string, rest: string, q: Quoting)
    requires NoLineTerminator(c)
    requires rest == "" || IsLineTerminator(rest[0])
    ensures StripComments("//" + c + rest, q) == StripComments(rest, q)
  {
    var s := "//" + c + rest;
    assert s[2..] == c + rest;
    LineStops(c, rest);
    assert s[2 + |c|..] == rest;
  }

  lemma {:induction false} LineStops(c: string, rest: string)
    requires NoLineTerminator(c)
    requires rest == "" || IsLineTerminator(rest[0])
    ensures LineLength(c + rest) == |c|
  {
    if |c| > 0 {
      assert (c + rest)[1..] == c[1..] + rest;
      LineStops(c[1..], rest);
    } else {
      assert c + rest == rest;
    }
  }

  /** A block comment is removed entirely, up to its first closing star-slash. */
  lemma BlockCommentRemoved(c: string, rest: string, q: Quoting)
    requires !Contains(c, "*/")
    ensures StripComments("/*" + c + "*/" + rest, q) == StripComments(rest, q)
  {
    var s := "/*" + c + "*/" + rest;
    assert s[2..] == c + "*/" + rest;
    BlockStops(c, rest);
    assert s[|c| + 4..] == rest;
  }

  lemma {:induction false} BlockStops(c: string, rest: string)
    requires !Contains(c, "*/")
    ensures BlockEnd(c + "*/" + rest) == Some(|c|)
  {
    var t := c + "*/" + rest;
    if |c| > 0 {
      assert !StartsWith(c, "*/");
      assert !(c[0] == '*' && t[1] == '/') by {
        if |c| >= 2 {
          assert c[..2] == [c[0], c[1]];
        }
      }
      assert t[1..] == c[1..] + "*/" + rest;
      BlockStops(c[1..], rest);
    }
  }

  /** A trailing comma is removed, and the white space and bracket after it are kept. */
  lemma TrailingCommaRemoved(ws: string, close: char, rest: string, q: Quoting)
    requires AllSpace(ws) && (close == '}' || close == ']')
    ensures StripTrailingCommas("," + ws + [close] + rest, q) == ws + [close] + StripTrailingCommas(rest, q)
  {
    var s := "," + ws + [close] + rest;
    assert s[1..] == ws + [close] + rest;
    SpacesStop(ws, close, rest);
    assert s[1..|ws| + 2] == ws + [close] && s[|ws| + 2..] == rest;
  }

  lemma {:induction false} SpacesStop(ws: string, close: char, rest: string)
    requires AllSpace(ws) && !IsSpace(close)
    ensures LeadingSpaces(ws + [close] + rest) == |ws|
  {
    if |ws| > 0 {
      assert (ws + [close] + rest)[1..] == ws[1..] + [close] + rest;
      SpacesStop(ws[1..], close, rest);
    }
  }

  /** Without a slash there is no comment: the first replacement copies everything. */
  lemma {:induction false} NoSlashUnchanged(s: string, q: Quoting)
    requires forall i :: 0 <= i < |s| ==> s[i] != '/'
    ensures StripComments(s, q) == s
    decreases |s|
  {
    if |s| > 0 {
      var n := CopiedStep(s, q);
      forall i | 0 <= i < |s[n..]|
        ensures s[n..][i] != '/'
      {
        assert s[n..][i] == s[n + i];
      }
      NoSlashUnchanged(s[n..], q);
      assert s[..n] + s[n..] == s;
    }
  }

  /** Text that does not start a comment is copied up to the end of its first token. */
  lemma CopiedStep(s: string, q: Quoting) returns (n: nat)
    requires |s| > 0 && s[0] != '/'
    ensures 0 < n <= |s| && StripComments(s, q) == s[..n] + StripComments(s[n..], q)
  {
    if |s| >= 2 && s[0] == '\\' && s[1] == '"' {
      n := 2;
    } else if s[0] == '"' && LiteralBody(s[1..], q).Some? {
      n := LiteralBody(s[1..], q).value + 2;
    } else {
      n := 1;
    }
  }

  /** Without a comma there is no trailing comma: the second replacement copies everything. */
  lemma {:induction false} NoCommaUnchanged(s: string, q: Quoting)
    requires forall i :: 0 <= i < |s| ==> s[i] != ','
    ensures StripTrailingCommas(s, q) == s
    decreases |s|
  {
    if |s| > 0 {
      var n := KeptStep(s, q);
      forall i | 0 <= i < |s[n..]|
        ensures s[n..][i] != ','
      {
        assert s[n..][i] == s[n + i];
      }
      NoCommaUnchanged(s[n..], q);
      assert s[..n] + s[n..] == s;
    }
  }

  /** Text that does not start with a comma is kept up to the end of its first token. */
  lemma KeptStep(s: string, q: Quoting) returns (n: nat)
    requires |s| > 0 && s[0] != ','
    ensures 0 < n <= |s| && StripTrailingCommas(s, q) == s[..n] + StripTrailingCommas(s[n..], q)
  {
    if |s| >= 2 && s[0] == '\\' && s[1] == '"' {
      n := 2;
    } else if s[0] == '"' && LiteralBody(s[1..], q).Some? {
      n := LiteralBody(s[1..], q).value + 2;
    } else {
      n := 1;
    }
  }

  /** Input with no slash and no comma comes back unchanged, read either way. */
  lemma PlainInputUnchanged(json: string)
    requires forall i :: 0 <= i < |json| ==> json[i] != '/' && json[i] != ','
    ensures StripJsonComments(json) == json
    ensures StripJsonCommentsAsWritten(json) == json
  {
    NoSlashUnchanged(json, JsonQuoting);
    NoSlashUnchanged(json, PatternQuoting);
    NoCommaUnchanged(json, JsonQuoting);
    NoCommaUnchanged(json, PatternQuoting);
  }

  // ---------------------------------------------------------------- the escaped-backslash case

  /** `["x\\",//c` newline `"y"]`: a string ending in an escaped backslash, then a comment. */
  const EscapedBackslashInput: string := "[\"x\\\\\",//c\n\"y\"]"

  /**
   * As written, the first literal reads `\"` as an escaped quote and runs on
   * to the quote before `y`, so the comment is taken for string text and
   * survives: the output is the input, which `JSON.parse` rejects.
   */
  lemma EscapedBackslashHidesComment()
    ensures StripJsonCommentsAsWritten(EscapedBackslashInput) == EscapedBackslashInput
  {
    var body := "x\\\\\",//c\n";
    var rest := "y\"]";
    assert EscapedBackslashInput == "[" + ("\"" + body + "\"" + rest);
    LongLiteral(body, rest);
    BracketLiteralUnchanged(body, rest, PatternQuoting);
  }

  /** `[`, a literal the reading closes at its own quote, then text with no slash or comma: both replacements copy it. */
  lemma BracketLiteralUnchanged(b: string, rest: string, q: Quoting)
    requires LiteralBody(b + "\"" + rest, q) == Some(|b|)
    requires forall i :: 0 <= i < |rest| ==> rest[i] != '/' && rest[i] != ','
    ensures var s := "[" + ("\"" + b + "\"" + rest);
      StripComments(s, q) == s && StripTrailingCommas(s, q) == s
  {
    LiteralCopied(b, rest, q);
    NoSlashUnchanged(rest, q);
    NoCommaUnchanged(rest, q);
    CharCopied('[', "\"" + b + "\"" + rest, q);
  }

  /** The pattern's reading of the first literal: it ends at the quote before `y`. */
  lemma LongLiteral(body: string, rest: string)
    requires body == "x\\\\\",//c\n" && rest == "y\"]"
    ensures LiteralBody(body + "\"" + rest, PatternQuoting) == Some(|body|)
  {
    var t := body + "\"" + rest;
    PlainBodyEnds(",//c\n", rest, PatternQuoting);
    assert t[4..] == ",//c\n" + "\"" + rest;
    assert t[2] == '\\' && t[3] == '"';
    assert t[2..][2..] == t[4..];
    assert LiteralBody(t[2..], PatternQuoting) == Some(7);
    assert t[1] == '\\' && t[2] == '\\';
    assert t[1..][1..] == t[2..];
    assert LiteralBody(t[1..], PatternQuoting) == Some(8);
    assert t[0] == 'x';
  }

  /** Read as JSON, the literal ends at its own quote and the comment is removed. */
  lemma EscapedBackslashCorrected()
    ensures StripJsonComments(EscapedBackslashInput) == "[\"x\\\\\",\n\"y\"]"
  {
    var body := "x\\\\";
    var tail := "\n\"y\"]";
    var input := "[" + ("\"" + body + "\"" + ("," + ("//" + "c" + tail)));
    var output := "[" + ("\"" + body + "\"" + ("," + tail));
    assert input == EscapedBackslashInput;
    assert output == "[\"x\\\\\",\n\"y\"]";
    CorrectedComments(body, tail);
    CorrectedCommas(body, tail);
    assert StripJsonComments(input) == output;
  }

  /** The body `x` followed by an escaped backslash is a well-formed JSON string body. */
  lemma EscapedBackslashBody(body: string)
    requires body == "x\\\\"
    ensures JsonBody(body)
  {
    assert body[1..] == "\\\\";
    assert body[1..][2..] == "";
  }

  /** The first replacement of the corrected version: only the comment goes. */
  lemma CorrectedComments(body: string, tail: string)
    requires body == "x\\\\" && tail == "\n\"y\"]"
    ensures StripComments("[" + ("\"" + body + "\"" + ("," + ("//" + "c" + tail))), JsonQuoting) ==
      "[" + ("\"" + body + "\"" + ("," + tail))
  {
    var q := JsonQuoting;
    EscapedBackslashBody(body);
    LineCommentRemoved("c", tail, q);
    NoSlashUnchanged(tail, q);
    CharCopied(',', "//" + "c" + tail, q);
    JsonLiteralKept(body, "," + ("//" + "c" + tail));
    CharCopied('[', "\"" + body + "\"" + ("," + ("//" + "c" + tail)), q);
  }

  /** The second replacement of the corrected version: the comma before a newline and a quote stays. */
  lemma CorrectedCommas(body: string, tail: string)
    requires body == "x\\\\" && tail == "\n\"y\"]"
    ensures StripTrailingCommas("[" + ("\"" + body + "\"" + ("," + tail)), JsonQuoting) ==
      "[" + ("\"" + body + "\"" + ("," + tail))
  {
    var q := JsonQuoting;
    EscapedBackslashBody(body);
    assert !ClosesAfterSpaces(tail) by {
      assert LeadingSpaces(tail) == 1 by {
        assert tail[1..][0] == '"';
      }
    }
    CommaKept(tail, q);
    NoCommaUnchanged(tail, q);
    JsonLiteralKept(body, "," + tail);
    CharCopied('[', "\"" + body + "\"" + ("," + tail), q);
  }
}
