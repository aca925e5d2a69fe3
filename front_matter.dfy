/**
 * Splitting a Markdown file into its YAML front matter and its body, the way
 * the pattern `^---\r?\n([\s\S]*?)\r?\n---\r?\n([\s\S]*)$` does in both the
 * network loader and the role-file parser: an opening `---` line, then the
 * SHORTEST text up to the first closing `---` line, then everything after it.
 * Each line break may be `\n` or `\r\n`.
 */
module FrontMatter {
  import opened Wrappers
  import opened Text

  datatype Parts = Parts(yaml: string, body: string)

  /** Length of the opening `---` line, if the content starts with one. */
  function OpeningLength(s: string): (r: Option<nat>)
    ensures r.Some? ==> r.value <= |s|
  {
    if StartsWith(s, "---\r\n") then Some(5)
    else if StartsWith(s, "---\n") then Some(4)
    else None
  }

  /**
   * Length of a closing delimiter (`\r?\n---\r?\n`) that starts at `k`, if one
   * does; a `\r` is taken whenever the rest can still match, as the greedy
   * `\r?` does.
   */
  function DelimiterAt(s: string, k: nat): (r: Option<nat>)
    requires k <= |s|
    ensures r.Some? ==> k + r.value <= |s| && 5 <= r.value <= 7
  {
    var t := s[k..];
    var lead := if StartsWith(t, "\r\n---") then 2 else if StartsWith(t, "\n---") then 1 else 0;
    if lead == 0 then None
    else
      var rest := t[lead + 3..];
      if StartsWith(rest, "\r\n") then Some(lead + 5)
      else if StartsWith(rest, "\n") then Some(lead + 4)
      else None
  }

  /** The first position at or after `k` where a closing delimiter starts, with its end. */
  function FindClosing(s: string, k: nat): (r: Option<(nat, nat)>)
    requires k <= |s|
    ensures r.Some? ==>
              && k <= r.value.0 <= r.value.1 <= |s|
              && DelimiterAt(s, r.value.0) == Some(r.value.1 - r.value.0)
              && (forall j :: k <= j < r.value.0 ==> DelimiterAt(s, j).None?)
    ensures r.None? ==> forall j :: k <= j <= |s| ==> DelimiterAt(s, j).None?
    decreases |s| - k
  {
    var here := DelimiterAt(s, k);
    if here.Some? then Some((k, k + here.value))
    else if k == |s| then None
    else
      FindClosing(s, k + 1)
  }

  /** The front matter and the (untrimmed) body, or `None` when the delimiters are missing. */
  function Split(s: string): (r: Option<Parts>)
    ensures r.Some? ==> OpeningLength(s).Some?
  {
    match OpeningLength(s)
    case None => None
    case Some(o) =>
      match FindClosing(s, o)
      case None => None
      case Some((e, b)) => Some(Parts(s[o..e], s[b..]))
  }

  /** No line after the first starts with `---`, and the text does not end in `\r`. */
  predicate NoClosingLine(yaml: string)
  {
    && (forall j :: 0 <= j < |yaml| && yaml[j] == '\n' ==> !StartsWith(yaml[j + 1..], "---"))
    && (yaml == [] || yaml[|yaml| - 1] != '\r')
  }

  /**
   * A file assembled from an opening line, front matter that contains no
   * closing line, a closing line and a body splits back into exactly that
   * front matter and body.
   */
  lemma SplitRoundTrip(yaml: string, body: string)
    requires NoClosingLine(yaml)
    ensures Split("---\n" + yaml + "\n---\n" + body) == Some(Parts(yaml, body))
  {
    var s := "---\n" + yaml + "\n---\n" + body;
    var e := 4 + |yaml|;
    assert s[..4] == "---\n";
    OpensWithLf(s);
    assert s[e..][..5] == "\n---\n";
    ClosesWithLf(s, e);
    forall j | 4 <= j < e
      ensures DelimiterAt(s, j).None?
    {
      NoDelimiterInside(yaml, body, j);
    }
    FindFirst(s, 4, e);
    assert s[4..e] == yaml;
    assert s[e + 5..] == body;
  }

  /** Content that starts with `---` and a bare line feed has a four-character opening line. */
  lemma OpensWithLf(s: string)
    requires |s| >= 4 && s[..4] == "---\n"
    ensures OpeningLength(s) == Some(4)
  {
    assert !StartsWith(s, "---\r\n") by { assert s[3] == '\n'; }
  }

  /** A closing line with bare line feeds is a five-character delimiter. */
  lemma ClosesWithLf(s: string, e: nat)
    requires e <= |s| && |s[e..]| >= 5 && s[e..][..5] == "\n---\n"
    ensures DelimiterAt(s, e) == Some(5)
  {
    var t := s[e..];
    assert !StartsWith(t, "\r\n---") by { assert t[0] == '\n'; }
    assert t[..4] == "\n---";
    assert t[4..][..1] == "\n";
    assert !StartsWith(t[4..], "\r\n") by { assert t[4..][0] == '\n'; }
  }

  /** A search started before the first delimiter finds exactly that delimiter. */
  lemma {:induction false} FindFirst(s: string, k: nat, e: nat)
    requires k <= e <= |s|
    requires DelimiterAt(s, e).Some?
    requires forall j :: k <= j < e ==> DelimiterAt(s, j).None?
    ensures FindClosing(s, k) == Some((e, e + DelimiterAt(s, e).value))
    decreases e - k
  {
    if k < e {
      FindFirst(s, k + 1, e);
    }
  }

  lemma NoDelimiterInside(yaml: string, body: string, j: nat)
    requires NoClosingLine(yaml)
    requires 4 <= j < 4 + |yaml|
    ensures DelimiterAt("---\n" + yaml + "\n---\n" + body, j).None?
  {
    var s := "---\n" + yaml + "\n---\n" + body;
    var t := s[j..];
    NoDashesAfterBreak(yaml, body, j + 1);
    assert !StartsWith(t, "\n---") by {
      assert t[0] == s[j];
      if s[j] == '\n' { assert t[1..4] == s[j + 1..j + 4]; }
    }
    assert !StartsWith(t, "\r\n---") by {
      assert t[0] == s[j] && t[1] == s[j + 1];
      if j + 1 == 4 + |yaml| {
        assert s[j] == yaml[|yaml| - 1];
      } else if s[j + 1] == '\n' {
        NoDashesAfterBreak(yaml, body, j + 2);
        assert t[2..5] == s[j + 2..j + 5];
      }
    }
  }

  /** Inside the front matter, the three characters after a line break are never `---`. */
  lemma NoDashesAfterBreak(yaml: string, body: string, p: nat)
    requires NoClosingLine(yaml)
    requires 5 <= p <= 4 + |yaml|
    ensures var s := "---\n" + yaml + "\n---\n" + body;
      s[p - 1] == '\n' ==> s[p..p + 3] != "---"
  {
    var s := "---\n" + yaml + "\n---\n" + body;
    var e := 4 + |yaml|;
    if s[p - 1] == '\n' {
      if p + 3 <= e {
        assert yaml[p - 5] == '\n';
        assert !StartsWith(yaml[p - 4..], "---");
        assert s[p..p + 3] == yaml[p - 4..][..3];
      } else {
        assert s[p..p + 3][e - p] == s[e] == '\n';
      }
    }
  }
}
