/**
 * String helpers with the semantics of the JavaScript built-ins the system
 * uses: `trim`, `startsWith`, `includes`, `split` on one character, `join`,
 * `replaceAll` and the decimal rendering of non-negative integers.
 */
module Text {
  import opened Wrappers

  /** The characters JavaScript's `trim` and the regular-expression class `\s` treat as white space. */
  predicate IsSpace(c: char)
  {
    c == ' ' || c == '\t' || c == '\n' || c == '\r' || c == '\U{000B}' || c == '\U{000C}'
    || c == '\U{00A0}' || c == '\U{1680}' || ('\U{2000}' <= c <= '\U{200A}')
    || c == '\U{2028}' || c == '\U{2029}' || c == '\U{202F}' || c == '\U{205F}'
    || c == '\U{3000}' || c == '\U{FEFF}'
  }

  /** The characters the regular-expression wildcard `.` refuses to match. */
  predicate IsLineTerminator(c: char)
  {
    c == '\n' || c == '\r' || c == '\U{2028}' || c == '\U{2029}'
  }

  predicate AllSpace(s: string)
  {
    forall i :: 0 <= i < |s| ==> IsSpace(s[i])
  }

  predicate NoLineTerminator(s: string)
  {
    forall i :: 0 <= i < |s| ==> !IsLineTerminator(s[i])
  }

  /** Number of leading white-space characters: the index `search(/\S/)` reports for a non-blank line. */
  function LeadingSpaces(s: string): (n: nat)
    ensures n <= |s|
    ensures AllSpace(s[..n])
    ensures n == |s| || !IsSpace(s[n])
  {
    if |s| > 0 && IsSpace(s[0]) then
      var k := LeadingSpaces(s[1..]);
      assert s[1..][..k] == s[1..k + 1];
      1 + k
    else 0
  }

  function TrimStart(s: string): (r: string)
    ensures r == s[LeadingSpaces(s)..]
    ensures r == [] || !IsSpace(r[0])
  {
    s[LeadingSpaces(s)..]
  }

  function TrimEnd(s: string): (r: string)
    ensures |r| <= |s| && r == s[..|r|]
    ensures r == [] || !IsSpace(r[|r| - 1])
    ensures AllSpace(s[|r|..])
  {
    if |s| > 0 && IsSpace(s[|s| - 1]) then
      var r := TrimEnd(s[..|s| - 1]);
      assert s[|r|..] == s[..|s| - 1][|r|..] + [s[|s| - 1]];
      r
    else s
  }

  /** JavaScript's `String.prototype.trim`. */
  function Trim(s: string): (r: string)
    ensures r == [] || (!IsSpace(r[0]) && !IsSpace(r[|r| - 1]))
    ensures |r| <= |s|
  {
    TrimEnd(TrimStart(s))
  }

  /** Trimming a string whose ends are not white space changes nothing. */
  lemma TrimIdentity(s: string)
    requires s == [] || (!IsSpace(s[0]) && !IsSpace(s[|s| - 1]))
    ensures Trim(s) == s
  {
  }

  /** A string trims to the empty string exactly when it is all white space. */
  lemma TrimEmptyIffBlank(s: string)
    ensures Trim(s) == [] <==> AllSpace(s)
  {
    var n := LeadingSpaces(s);
    var t := s[n..];
    if n == |s| {
      assert s[..n] == s;
    } else {
      assert t[0] == s[n];
      assert !IsSpace(t[0]);
    }
  }

  function StartsWith(s: string, prefix: string): bool
  {
    |prefix| <= |s| && s[..|prefix|] == prefix
  }

  function EndsWith(s: string, suffix: string): bool
  {
    |suffix| <= |s| && s[|s| - |suffix|..] == suffix
  }

  /** JavaScript's `includes`: `sub` occurs somewhere in `s`. */
  predicate Contains(s: string, sub: string)
    decreases |s|
  {
    StartsWith(s, sub) || (|s| > 0 && Contains(s[1..], sub))
  }

  /** Index of the first occurrence of `c`, if any. */
  function IndexOfChar(s: string, c: char): (r: Option<nat>)
    ensures r.Some? ==> r.value < |s| && s[r.value] == c && c !in s[..r.value]
    ensures r.None? ==> c !in s
  {
    if |s| == 0 then None
    else if s[0] == c then Some(0)
    else
      match IndexOfChar(s[1..], c)
      case None => None
      case Some(i) =>
        assert s[..i + 1] == [s[0]] + s[1..][..i];
        Some(i + 1)
  }

  /** JavaScript's `Array.prototype.join`. */
  function Join(parts: seq<string>, sep: string): string
  {
    if |parts| == 0 then ""
    else if |parts| == 1 then parts[0]
    else parts[0] + sep + Join(parts[1..], sep)
  }

  /** JavaScript's `split` on a one-character separator. */
  function Split(s: string, c: char): (r: seq<string>)
    ensures |r| >= 1
    ensures forall i :: 0 <= i < |r| ==> c !in r[i]
    ensures c in s ==> |r| >= 2
    decreases |s|
  {
    match IndexOfChar(s, c)
    case None => [s]
    case Some(i) => [s[..i]] + Split(s[i + 1..], c)
  }

  /** The first occurrence of `c` is at `j` when `s[j]` is `c` and no earlier character is. */
  lemma IndexOfCharAt(s: string, c: char, j: nat)
    requires j < |s| && s[j] == c && c !in s[..j]
    ensures IndexOfChar(s, c) == Some(j)
  {
    var r := IndexOfChar(s, c);
    assert s[j] in s;
    var k := r.value;
    forall i | 0 <= i < j
      ensures s[i] != c
    {
      assert s[..j][i] == s[i];
    }
    forall i | 0 <= i < k
      ensures s[i] != c
    {
      assert s[..k][i] == s[i];
    }
  }

  /** Splitting on a character and joining back with it restores the string. */
  lemma {:induction false} SplitJoin(s: string, c: char)
    ensures Join(Split(s, c), [c]) == s
    decreases |s|
  {
    match IndexOfChar(s, c)
    case None =>
    case Some(i) =>
      SplitJoin(s[i + 1..], c);
      SplitAt(s, c, i);
  }

  /** A first separator at `i` splits off `s[..i]`, and joining puts it back before the rest. */
  lemma SplitAt(s: string, c: char, i: nat)
    requires IndexOfChar(s, c) == Some(i)
    requires Join(Split(s[i + 1..], c), [c]) == s[i + 1..]
    ensures Join(Split(s, c), [c]) == s
  {
    var rest := Split(s[i + 1..], c);
    assert Split(s, c) == [s[..i]] + rest;
    assert (Split(s, c))[1..] == rest;
    assert s == s[..i] + [c] + s[i + 1..];
  }

  /**
   * The text one `$` pattern stands for in a replacement string, as
   * GetSubstitution of the ECMAScript language specification gives it for a
   * string pattern (which has no capture groups): `$$` is a dollar sign, `$&`
   * the match, `` $` `` the text before it and `$'` the text after it.
   */
  function DollarPattern(c: char, matched: string, before: string, after: string): string
    requires c in "$&`'"
  {
    match c
    case '$' => "$"
    case '&' => matched
    case '`' => before
    case _ => after
  }

  /**
   * The replacement inserted for one match: every `$$`, `$&`, `` $` `` and
   * `$'` expanded, every other `$` (`$1`, `$<`, a final `$`) kept as written.
   */
  function Substitution(rep: string, matched: string, before: string, after: string): string
    decreases |rep|
  {
    if |rep| == 0 then []
    else if rep[0] == '$' && |rep| >= 2 && rep[1] in "$&`'" then
      DollarPattern(rep[1], matched, before, after) + Substitution(rep[2..], matched, before, after)
    else [rep[0]] + Substitution(rep[1..], matched, before, after)
  }

  /** JavaScript's `replaceAll` with a non-empty literal pattern: matches taken left to right without overlap. */
  function ReplaceAll(s: string, pat: string, rep: string): string
    requires |pat| > 0
  {
    ReplaceFrom(s, 0, pat, rep)
  }

  /** The result of `replaceAll` from position `k` on; each match's `$` patterns see the whole string. */
  function ReplaceFrom(s: string, k: nat, pat: string, rep: string): string
    requires |pat| > 0 && k <= |s|
    decreases |s| - k
  {
    if |s| - k < |pat| then s[k..]
    else if s[k..k + |pat|] == pat then
      Substitution(rep, pat, s[..k], s[k + |pat|..]) + ReplaceFrom(s, k + |pat|, pat, rep)
    else [s[k]] + ReplaceFrom(s, k + 1, pat, rep)
  }

  /** A replacement without a dollar sign is inserted as written. */
  lemma {:induction false} SubstitutionLiteral(rep: string, matched: string, before: string, after: string)
    requires '$' !in rep
    ensures Substitution(rep, matched, before, after) == rep
    decreases |rep|
  {
    if |rep| > 0 {
      assert rep[0] != '$';
      assert forall c :: c in rep[1..] ==> c in rep;
      SubstitutionLiteral(rep[1..], matched, before, after);
    }
  }

  /** Each dollar pattern stands for its text; a one-character replacement is always literal. */
  lemma SubstitutionPatterns(x: string, matched: string, before: string, after: string)
    ensures Substitution("$$" + x, matched, before, after) == "$" + Substitution(x, matched, before, after)
    ensures Substitution("$&" + x, matched, before, after) == matched + Substitution(x, matched, before, after)
    ensures Substitution("$`" + x, matched, before, after) == before + Substitution(x, matched, before, after)
    ensures Substitution("$'" + x, matched, before, after) == after + Substitution(x, matched, before, after)
    ensures forall c: char :: Substitution([c], matched, before, after) == [c]
  {
    assert ("$$" + x)[2..] == x && ("$&" + x)[2..] == x && ("$`" + x)[2..] == x && ("$'" + x)[2..] == x;
  }

  /** A string in which the pattern never occurs is left unchanged by `replaceAll`. */
  lemma ReplaceAllAbsent(s: string, pat: string, rep: string)
    requires |pat| > 0 && !Contains(s, pat)
    ensures ReplaceAll(s, pat, rep) == s
  {
    ReplaceFromAbsent(s, 0, pat, rep);
  }

  lemma {:induction false} ReplaceFromAbsent(s: string, k: nat, pat: string, rep: string)
    requires |pat| > 0 && k <= |s| && !Contains(s[k..], pat)
    ensures ReplaceFrom(s, k, pat, rep) == s[k..]
    decreases |s| - k
  {
    if |s| - k >= |pat| {
      assert s[k..][..|pat|] == s[k..k + |pat|];
      assert !StartsWith(s[k..], pat);
      assert s[k..][1..] == s[k + 1..];
      ReplaceFromAbsent(s, k + 1, pat, rep);
    }
  }

  /** A string that is exactly the pattern becomes the replacement, its `$` patterns seeing no text around it. */
  lemma ReplaceAllWhole(pat: string, rep: string)
    requires |pat| > 0
    ensures ReplaceAll(pat, pat, rep) == Substitution(rep, pat, "", "")
    ensures '$' !in rep ==> ReplaceAll(pat, pat, rep) == rep
  {
    assert pat[0..|pat|] == pat && pat[..0] == "" && pat[|pat|..] == "";
    assert ReplaceFrom(pat, |pat|, pat, rep) == "";
    if '$' !in rep {
      SubstitutionLiteral(rep, pat, "", "");
    }
  }

  /**
   * JavaScript's `split` on a non-empty literal pattern: the pieces between
   * the matches, taken left to right without overlap as `replaceAll` takes them.
   */
  function SplitOn(s: string, pat: string): (r: seq<string>)
    requires |pat| > 0
    ensures |r| >= 1
    decreases |s|
  {
    if |s| < |pat| then [s]
    else if s[..|pat|] == pat then [""] + SplitOn(s[|pat|..], pat)
    else
      var r := SplitOn(s[1..], pat);
      [[s[0]] + r[0]] + r[1..]
  }

  /** The first piece is a prefix of the string. */
  lemma {:induction false} SplitOnHead(s: string, pat: string)
    requires |pat| > 0
    ensures |SplitOn(s, pat)[0]| <= |s| && SplitOn(s, pat)[0] == s[..|SplitOn(s, pat)[0]|]
    decreases |s|
  {
    if |s| >= |pat| && s[..|pat|] != pat {
      SplitOnHead(s[1..], pat);
      var r := SplitOn(s[1..], pat);
      assert [s[0]] + r[0] == s[..|r[0]| + 1];
    }
  }

  /** A string contains a pattern only when it is at least as long. */
  lemma {:induction false} ContainsLength(s: string, pat: string)
    requires Contains(s, pat)
    ensures |pat| <= |s|
    decreases |s|
  {
    if !StartsWith(s, pat) {
      ContainsLength(s[1..], pat);
    }
  }

  /** Joining the pieces back with the pattern restores the string. */
  lemma {:induction false} SplitOnJoin(s: string, pat: string)
    requires |pat| > 0
    ensures Join(SplitOn(s, pat), pat) == s
    decreases |s|
  {
    if |s| < |pat| {
    } else if s[..|pat|] == pat {
      SplitOnJoin(s[|pat|..], pat);
      JoinEmptyHead(SplitOn(s[|pat|..], pat), pat);
      assert s == pat + s[|pat|..];
    } else {
      SplitOnJoin(s[1..], pat);
      JoinExtendHead(s[0], SplitOn(s[1..], pat), pat);
      assert s == [s[0]] + s[1..];
    }
  }

  /** No piece contains the pattern. */
  lemma {:induction false} SplitOnPieces(s: string, pat: string)
    requires |pat| > 0
    ensures forall i :: 0 <= i < |SplitOn(s, pat)| ==> !Contains(SplitOn(s, pat)[i], pat)
    decreases |s|
  {
    if |s| < |pat| {
      if Contains(s, pat) {
        ContainsLength(s, pat);
      }
    } else if s[..|pat|] == pat {
      SplitOnPieces(s[|pat|..], pat);
      var rest := SplitOn(s[|pat|..], pat);
      assert SplitOn(s, pat) == [""] + rest;
      forall i | 0 <= i < |SplitOn(s, pat)|
        ensures !Contains(SplitOn(s, pat)[i], pat)
      {
        if i > 0 {
          assert SplitOn(s, pat)[i] == rest[i - 1];
        }
      }
    } else {
      SplitOnPieces(s[1..], pat);
      SplitOnHead(s[1..], pat);
      var r := SplitOn(s[1..], pat);
      var head := [s[0]] + r[0];
      assert SplitOn(s, pat) == [head] + r[1..];
      assert !Contains(head, pat) by {
        assert head == s[..|r[0]| + 1];
        assert head[1..] == r[0];
      }
      forall i | 0 <= i < |SplitOn(s, pat)|
        ensures !Contains(SplitOn(s, pat)[i], pat)
      {
        if i > 0 {
          assert SplitOn(s, pat)[i] == r[i];
        }
      }
    }
  }

  /** An empty first piece puts the separator first. */
  lemma JoinEmptyHead(parts: seq<string>, sep: string)
    requires |parts| >= 1
    ensures Join([""] + parts, sep) == sep + Join(parts, sep)
  {
    assert ([""] + parts)[1..] == parts;
  }

  /** Prefixing the first piece with a character prefixes the join. */
  lemma JoinExtendHead(c: char, parts: seq<string>, sep: string)
    requires |parts| >= 1
    ensures Join([[c] + parts[0]] + parts[1..], sep) == [c] + Join(parts, sep)
  {
    var q := [[c] + parts[0]] + parts[1..];
    if |parts| > 1 {
      assert q[1..] == parts[1..];
    }
  }

  /**
   * `replaceAll` with a replacement that has no dollar sign puts it in place
   * of every occurrence: the result is the pieces between the matches joined
   * with the replacement.
   */
  lemma ReplaceAllSplit(s: string, pat: string, rep: string)
    requires |pat| > 0 && '$' !in rep
    ensures ReplaceAll(s, pat, rep) == Join(SplitOn(s, pat), rep)
  {
    ReplaceFromSplit(s, 0, pat, rep);
    assert s[0..] == s;
  }

  lemma {:induction false} ReplaceFromSplit(s: string, k: nat, pat: string, rep: string)
    requires |pat| > 0 && k <= |s| && '$' !in rep
    ensures ReplaceFrom(s, k, pat, rep) == Join(SplitOn(s[k..], pat), rep)
    decreases |s| - k, 1
  {
    if |s| - k < |pat| {
      ReplaceSplitEnd(s, k, pat, rep);
    } else if s[k..k + |pat|] == pat {
      ReplaceSplitMatch(s, k, pat, rep);
    } else {
      ReplaceSplitSkip(s, k, pat, rep);
    }
  }

  /** Fewer characters than the pattern are left: they are kept, as the one piece. */
  lemma ReplaceSplitEnd(s: string, k: nat, pat: string, rep: string)
    requires |pat| > 0 && k <= |s| && |s| - k < |pat|
    ensures ReplaceFrom(s, k, pat, rep) == Join(SplitOn(s[k..], pat), rep)
  {
    assert SplitOn(s[k..], pat) == [s[k..]];
  }

  /** A match at `k`: the replacement comes first, and the split starts with an empty piece. */
  lemma {:induction false} ReplaceSplitMatch(s: string, k: nat, pat: string, rep: string)
    requires |pat| > 0 && k + |pat| <= |s| && '$' !in rep && s[k..k + |pat|] == pat
    ensures ReplaceFrom(s, k, pat, rep) == Join(SplitOn(s[k..], pat), rep)
    decreases |s| - k, 0
  {
    ReplaceFromSplit(s, k + |pat|, pat, rep);
    ReplaceFromAtMatch(s, k, pat, rep);
    SplitOnAtMatch(s, k, pat);
    JoinEmptyHead(SplitOn(s[k + |pat|..], pat), rep);
  }

  lemma ReplaceFromAtMatch(s: string, k: nat, pat: string, rep: string)
    requires |pat| > 0 && k + |pat| <= |s| && '$' !in rep && s[k..k + |pat|] == pat
    ensures ReplaceFrom(s, k, pat, rep) == rep + ReplaceFrom(s, k + |pat|, pat, rep)
  {
    SubstitutionLiteral(rep, pat, s[..k], s[k + |pat|..]);
  }

  lemma SplitOnAtMatch(s: string, k: nat, pat: string)
    requires |pat| > 0 && k + |pat| <= |s| && s[k..k + |pat|] == pat
    ensures SplitOn(s[k..], pat) == [""] + SplitOn(s[k + |pat|..], pat)
  {
    var t := s[k..];
    assert t[..|pat|] == pat;
    assert t[|pat|..] == s[k + |pat|..];
  }

  /** No match at `k`: the character at `k` leads both the result and the first piece. */
  lemma {:induction false} ReplaceSplitSkip(s: string, k: nat, pat: string, rep: string)
    requires |pat| > 0 && k + |pat| <= |s| && '$' !in rep && s[k..k + |pat|] != pat
    ensures ReplaceFrom(s, k, pat, rep) == Join(SplitOn(s[k..], pat), rep)
    decreases |s| - k, 0
  {
    ReplaceFromSplit(s, k + 1, pat, rep);
    var t := s[k..];
    assert t[..|pat|] != pat;
    assert t[1..] == s[k + 1..] && t[0] == s[k];
    var r := SplitOn(s[k + 1..], pat);
    assert SplitOn(t, pat) == [[s[k]] + r[0]] + r[1..];
    JoinExtendHead(s[k], r, rep);
  }

  predicate IsDigit(c: char) { '0' <= c <= '9' }

  predicate AllDigits(s: string)
  {
    forall i :: 0 <= i < |s| ==> IsDigit(s[i])
  }

  function DigitValue(c: char): nat
    requires IsDigit(c)
  {
    (c - '0') as nat
  }

  function DigitChar(d: nat): (c: char)
    requires d < 10
    ensures IsDigit(c) && DigitValue(c) == d
  {
    ('0' as int + d) as char
  }

  /** Value of a run of decimal digits, most significant first. */
  function DigitsValue(s: string): nat
    requires AllDigits(s)
  {
    if |s| == 0 then 0 else DigitsValue(s[..|s| - 1]) * 10 + DigitValue(s[|s| - 1])
  }

  function Pow10(k: nat): (p: nat)
    ensures p >= 1
  {
    if k == 0 then 1 else 10 * Pow10(k - 1)
  }

  /** Decimal rendering of a non-negative integer, as `String(n)` gives it. */
  function NatToString(n: nat): (r: string)
    ensures |r| >= 1 && AllDigits(r)
    ensures DigitsValue(r) == n
    ensures r[0] == '0' ==> n == 0
  {
    if n < 10 then [DigitChar(n)]
    else
      var r := NatToString(n / 10) + [DigitChar(n % 10)];
      assert r[..|r| - 1] == NatToString(n / 10);
      r
  }

  /** `String(i)` for an integer: a minus sign before the digits of a negative one. */
  function IntToString(i: int): string
  {
    if i < 0 then "-" + NatToString(-i) else NatToString(i)
  }

  /** `padStart` with zeros to width `k`. */
  function PadZeros(s: string, k: nat): (r: string)
    ensures |r| == if |s| >= k then |s| else k
    decreases k - |s|
  {
    if |s| >= k then s else PadZeros(['0'] + s, k)
  }

  lemma {:induction false} DigitsValueAppend(a: string, b: string)
    requires AllDigits(a) && AllDigits(b)
    ensures AllDigits(a + b)
    ensures DigitsValue(a + b) == DigitsValue(a) * Pow10(|b|) + DigitsValue(b)
    decreases |b|
  {
    assert AllDigits(a + b) by {
      forall i | 0 <= i < |a + b| ensures IsDigit((a + b)[i]) {
        if i < |a| { assert (a + b)[i] == a[i]; } else { assert (a + b)[i] == b[i - |a|]; }
      }
    }
    if |b| == 0 {
      assert a + b == a;
    } else {
      var b' := b[..|b| - 1];
      var ab := a + b;
      assert ab[..|ab| - 1] == a + b';
      assert ab[|ab| - 1] == b[|b| - 1];
      DigitsValueAppend(a, b');
      var x, y, p := DigitsValue(a), DigitsValue(b'), Pow10(|b'|);
      var d := DigitValue(b[|b| - 1]);
      assert DigitsValue(ab) == DigitsValue(a + b') * 10 + d;
      assert DigitsValue(b) == y * 10 + d;
      assert Pow10(|b|) == p * 10;
      MulStep(x, y, p, d);
    }
  }

  lemma MulStep(x: int, y: int, p: int, d: int)
    ensures (x * p + y) * 10 + d == x * (p * 10) + (y * 10 + d)
  {
  }

  /** Leading zeros do not change the value of a digit run. */
  lemma {:induction false} PadZerosValue(s: string, k: nat)
    requires AllDigits(s)
    ensures AllDigits(PadZeros(s, k)) && DigitsValue(PadZeros(s, k)) == DigitsValue(s)
    decreases k - |s|
  {
    if |s| < k {
      DigitsValueAppend("0", s);
      assert DigitsValue("0") == 0 by { assert "0"[..0] == ""; }
      PadZerosValue(['0'] + s, k);
    }
  }
}
