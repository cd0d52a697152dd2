/**
 * The three regular expressions the completion code applies to the text
 * before the cursor, written out as the backtracking matcher resolves them,
 * each with a declarative description of what a match is, and the brace
 * counter of `_is_inside_post_block`.
 */
module Context {
  import opened Wrappers
  import opened Text

  // ---------------------------------------------------------------------
  // `re.search(r"env\.\w*$", line)`
  // ---------------------------------------------------------------------

  /** Python's `$` without MULTILINE: the end of the text, or just before one final newline. */
  predicate DollarAt(s: string, e: int) {
    e == |s| || (e == |s| - 1 && 0 <= e && s[e] == '\n')
  }

  /** `env\.\w*$` matches `line` from `i`, its `\w*` ending at `e`. */
  predicate EnvMatchAt(line: string, i: int, e: int) {
    && 0 <= i && i + 4 <= e <= |line|
    && line[i..i + 4] == "env."
    && (forall k :: i + 4 <= k < e ==> IsWordChar(line[k]))
    && DollarAt(line, e)
  }

  /** Where the run of word characters that ends `s` begins. */
  function TrailingWordStart(s: string): (j: nat)
    ensures j <= |s|
    ensures forall k :: j <= k < |s| ==> IsWordChar(s[k])
    ensures j > 0 ==> !IsWordChar(s[j - 1])
    decreases |s|
  {
    if s == [] then 0
    else if IsWordChar(s[|s| - 1]) then TrailingWordStart(s[..|s| - 1])
    else |s|
  }

  /** The line without the one final newline `$` may stand before. */
  function DropFinalNewline(line: string): string {
    if |line| > 0 && line[|line| - 1] == '\n' then line[..|line| - 1] else line
  }

  /** The test on the line up to the cursor that switches to environment-variable completions. */
  function EnvAccessAtEnd(line: string): bool {
    var t := DropFinalNewline(line);
    var j := TrailingWordStart(t);
    j >= 4 && t[j - 4..j] == "env."
  }

  /** The test succeeds exactly when the regular expression has a match. */
  lemma EnvAccessAtEndCorrect(line: string)
    ensures EnvAccessAtEnd(line) <==> exists i, e :: EnvMatchAt(line, i, e)
  {
    var t := DropFinalNewline(line);
    var j := TrailingWordStart(t);
    if EnvAccessAtEnd(line) {
      assert forall k :: 0 <= k < |t| ==> t[k] == line[k];
      assert line[j - 4..j] == t[j - 4..j];
      assert EnvMatchAt(line, j - 4, |t|);
    }
    if exists i, e :: EnvMatchAt(line, i, e) {
      var i, e :| EnvMatchAt(line, i, e);
      assert line[i + 3] == '.';
      assert e == |t|;
      assert forall k :: 0 <= k < |t| ==> t[k] == line[k];
      assert t[i + 3] == '.';
      assert forall k :: i + 4 <= k < |t| ==> IsWordChar(t[k]);
      assert j == i + 4;
      assert t[j - 4..j] == line[i..i + 4];
    }
  }

  // ---------------------------------------------------------------------
  // `re.search(r"{{?\s*(\w+)\s*[( ](?!.*[\{{(])", line)`
  //
  // The string is raw, not a format string: the pattern is a literal `{`, an
  // optional second `{`, spaces, the identifier (group 1), spaces, then `(`
  // or a blank, with no `{` or `(` left on the rest of the line.
  // ---------------------------------------------------------------------

  /** The end of the run of `\s` characters starting at `i`. */
  function SkipSpaces(s: string, i: nat): (r: nat)
    requires i <= |s|
    ensures i <= r <= |s|
    ensures forall k :: i <= k < r ==> IsSpace(s[k])
    ensures r < |s| ==> !IsSpace(s[r])
    decreases |s| - i
  {
    if i < |s| && IsSpace(s[i]) then SkipSpaces(s, i + 1) else i
  }

  /** The end of the run of `\w` characters starting at `i`. */
  function SkipWord(s: string, i: nat): (r: nat)
    requires i <= |s|
    ensures i <= r <= |s|
    ensures forall k :: i <= k < r ==> IsWordChar(s[k])
    ensures r < |s| ==> !IsWordChar(s[r])
    decreases |s| - i
  {
    if i < |s| && IsWordChar(s[i]) then SkipWord(s, i + 1) else i
  }

  /** A maximal run is determined by where it starts. */
  lemma SkipSpacesUnique(s: string, i: nat, r: nat)
    requires i <= r <= |s|
    requires forall k :: i <= k < r ==> IsSpace(s[k])
    requires r < |s| ==> !IsSpace(s[r])
    ensures SkipSpaces(s, i) == r
  {
  }

  lemma SkipWordUnique(s: string, i: nat, r: nat)
    requires i <= r <= |s|
    requires forall k :: i <= k < r ==> IsWordChar(s[k])
    requires r < |s| ==> !IsWordChar(s[r])
    ensures SkipWord(s, i) == r
  {
  }

  /** The lookahead `(?!.*[{(])` at `i`: no `{` or `(` before the end of the line (`.` stops at `\n`). */
  function NoOpenerAhead(s: string, i: nat): (r: bool)
    requires i <= |s|
    ensures r <==> forall k :: i <= k < |s| && NoNewlineBetween(s, i, k) ==> s[k] != '{' && s[k] != '('
    decreases |s| - i
  {
    if i == |s| || s[i] == '\n' then true
    else if s[i] == '{' || s[i] == '(' then false
    else
      var r := NoOpenerAhead(s, i + 1);
      assert forall k :: i + 1 <= k < |s| ==> (NoNewlineBetween(s, i, k) <==> NoNewlineBetween(s, i + 1, k));
      r
  }

  predicate NoNewlineBetween(s: string, i: int, k: int)
    requires 0 <= i <= k <= |s|
  {
    forall m :: i <= m < k ==> s[m] != '\n'
  }

  /** Some position from `d` to `c` holds `(` or a blank followed by a successful lookahead. */
  function CloserFrom(s: string, d: nat, c: nat): (r: bool)
    requires d <= c <= |s|
    ensures r <==> exists m :: d <= m <= c && CloserAt(s, m)
    decreases c - d
  {
    CloserAt(s, d) || (d < c && CloserFrom(s, d + 1, c))
  }

  predicate CloserAt(s: string, m: int) {
    0 <= m < |s| && (s[m] == '(' || s[m] == ' ') && NoOpenerAhead(s, m + 1)
  }

  /**
   * A match of the pattern starting at `p`, with the identifier at `[a, b)`
   * and the `[( ]` character at `d`.
   */
  ghost predicate CallShape(s: string, p: int, a: int, b: int, d: int) {
    && 0 <= p && p + 1 <= a < b <= d < |s|
    && s[p] == '{'
    && (forall k :: p + 1 <= k < a ==> IsSpace(s[k]) || (k == p + 1 && s[k] == '{'))
    && (forall k :: a <= k < b ==> IsWordChar(s[k]))
    && (forall k :: b <= k < d ==> IsSpace(s[k]))
    && CloserAt(s, d)
  }

  ghost predicate ShapeAt(s: string, p: int) {
    exists a, b, d :: CallShape(s, p, a, b, d)
  }

  /** The pattern matches at no start position from `lo` up to `hi`. */
  ghost predicate NoShapeBetween(s: string, lo: int, hi: int) {
    forall p :: lo <= p < hi ==> !ShapeAt(s, p)
  }

  /** The matcher at one start position: the identifier's bounds, if the pattern matches there. */
  function CallMatchAt(s: string, p: nat): Option<(nat, nat)>
    requires p < |s|
  {
    if s[p] != '{' then None
    else
      var q := if p + 1 < |s| && s[p + 1] == '{' then p + 2 else p + 1;
      var a := SkipSpaces(s, q);
      var b := SkipWord(s, a);
      if a == b then None
      else if CloserFrom(s, b, SkipSpaces(s, b)) then Some((a, b))
      else None
  }

  lemma CallMatchAtSound(s: string, p: nat, a: int, b: int)
    requires p < |s| && CallMatchAt(s, p) == Some((a, b))
    ensures exists d :: CallShape(s, p, a, b, d)
  {
    var c := SkipSpaces(s, b);
    var d :| b <= d <= c && CloserAt(s, d);
    assert CallShape(s, p, a, b, d);
  }

  lemma CallMatchAtComplete(s: string, p: nat, a: int, b: int, d: int)
    requires p < |s| && CallShape(s, p, a, b, d)
    ensures CallMatchAt(s, p) == Some((a, b))
  {
    var q := if p + 1 < |s| && s[p + 1] == '{' then p + 2 else p + 1;
    assert IsWordChar(s[a]);
    assert q <= a;
    SkipSpacesUnique(s, q, a);
    assert !IsWordChar(s[b]) by {
      if b < d {
        assert IsSpace(s[b]);
      }
    }
    SkipWordUnique(s, a, b);
    var c := SkipSpaces(s, b);
    assert d <= c;
  }

  /** The matcher finds exactly the matches the pattern describes. */
  lemma CallMatchAtShape(s: string, p: nat, a: int, b: int)
    requires p < |s|
    ensures CallMatchAt(s, p) == Some((a, b)) <==> exists d :: CallShape(s, p, a, b, d)
  {
    if CallMatchAt(s, p) == Some((a, b)) {
      CallMatchAtSound(s, p, a, b);
    }
    if exists d :: CallShape(s, p, a, b, d) {
      var d :| CallShape(s, p, a, b, d);
      CallMatchAtComplete(s, p, a, b, d);
    }
  }

  /** `re.search` tries start positions left to right and reports group 1 of the first match. */
  function CallSearch(s: string, p: nat): (r: Option<string>)
    requires p <= |s|
    decreases |s| - p
  {
    if p == |s| then None
    else match CallMatchAt(s, p)
      case Some((a, b)) => Some(s[a..b])
      case None => CallSearch(s, p + 1)
  }

  /** `match.group(1)` of the call-context pattern on the line up to the cursor, if it matches. */
  function CallContext(line: string): Option<string> {
    CallSearch(line, 0)
  }

  /** A match at `p` itself is the leftmost one from `p`. */
  lemma CallSearchHere(s: string, p: nat, a: nat, b: nat)
    requires p < |s| && CallMatchAt(s, p) == Some((a, b))
    ensures exists d :: CallShape(s, p, a, b, d) && NoShapeBetween(s, p, p)
  {
    CallMatchAtSound(s, p, a, b);
  }

  /** With no match at `p`, the leftmost match after `p` is the leftmost one from `p`. */
  lemma CallSearchLater(s: string, p: nat, p': int, a: int, b: int, d: int)
    requires p < |s| && CallMatchAt(s, p).None?
    requires p + 1 <= p' && CallShape(s, p', a, b, d) && NoShapeBetween(s, p + 1, p')
    ensures NoShapeBetween(s, p, p')
  {
    if ShapeAt(s, p) {
      var a0, b0, d0 :| CallShape(s, p, a0, b0, d0);
      CallMatchAtComplete(s, p, a0, b0, d0);
    }
  }

  /** What the search reports is the identifier of the leftmost match. */
  lemma {:induction false} CallSearchSound(s: string, p: nat, w: string)
    requires p <= |s|
    requires CallSearch(s, p) == Some(w)
    ensures exists p', a, b, d :: p <= p' && CallShape(s, p', a, b, d) && w == s[a..b] && NoShapeBetween(s, p, p')
    decreases |s| - p
  {
    if CallMatchAt(s, p).Some? {
      var (a, b) := CallMatchAt(s, p).value;
      CallSearchHere(s, p, a, b);
      var d :| CallShape(s, p, a, b, d) && NoShapeBetween(s, p, p);
      assert p <= p && CallShape(s, p, a, b, d) && w == s[a..b] && NoShapeBetween(s, p, p);
    } else {
      CallSearchSound(s, p + 1, w);
      var p', a, b, d :| p + 1 <= p' && CallShape(s, p', a, b, d) && w == s[a..b] && NoShapeBetween(s, p + 1, p');
      CallSearchLater(s, p, p', a, b, d);
      assert p <= p' && CallShape(s, p', a, b, d) && w == s[a..b] && NoShapeBetween(s, p, p');
    }
  }

  /** Whenever the pattern matches somewhere, the search reports a match. */
  lemma {:induction false} CallSearchComplete(s: string, p: nat, p': int, a: int, b: int, d: int)
    requires p <= p' && CallShape(s, p', a, b, d)
    ensures CallSearch(s, p).Some?
    decreases p' - p
  {
    if p == p' {
      CallMatchAtComplete(s, p, a, b, d);
    } else if CallMatchAt(s, p).None? {
      CallSearchComplete(s, p + 1, p', a, b, d);
    }
  }

  /** The context is found exactly when the line has a match, and it is the identifier of the leftmost one. */
  lemma CallContextCorrect(line: string)
    ensures CallContext(line).Some? <==> exists p :: ShapeAt(line, p)
    ensures CallContext(line).Some? ==>
      exists p, a, b, d :: CallShape(line, p, a, b, d) && CallContext(line).value == line[a..b] &&
        (forall p' :: 0 <= p' < p ==> !ShapeAt(line, p'))
  {
    if CallContext(line).Some? {
      CallSearchSound(line, 0, CallContext(line).value);
      var p, a, b, d :| 0 <= p && CallShape(line, p, a, b, d) && CallContext(line).value == line[a..b] &&
        (forall p' :: 0 <= p' < p ==> !ShapeAt(line, p'));
      assert ShapeAt(line, p);
    }
    if exists p :: ShapeAt(line, p) {
      var p :| ShapeAt(line, p);
      var a, b, d :| CallShape(line, p, a, b, d);
      CallSearchComplete(line, 0, p, a, b, d);
    }
  }

  // ---------------------------------------------------------------------
  // `re.finditer(r"\bpost\s*\{", content)` and the brace counter
  // ---------------------------------------------------------------------

  /** The end of a match of `\bpost\s*\{` starting at `i`, if there is one. */
  function PostMatchAt(s: string, i: nat): (r: Option<nat>)
    requires i <= |s|
    ensures r.Some? ==> i + 5 <= r.value <= |s| && s[r.value - 1] == '{'
  {
    if i + 4 <= |s| && s[i..i + 4] == "post" && (i == 0 || !IsWordChar(s[i - 1])) then
      var c := SkipSpaces(s, i + 4);
      if c < |s| && s[c] == '{' then Some(c + 1) else None
    else None
  }

  /**
   * Two matches never overlap, so the matches `finditer` yields are all the
   * positions where the pattern matches, and the last of them is the one
   * that starts furthest right.
   */
  lemma PostMatchesDisjoint(s: string, i: nat, j: nat)
    requires i < j <= |s| && PostMatchAt(s, i).Some?
    requires j < PostMatchAt(s, i).value
    ensures PostMatchAt(s, j).None?
  {
    var e := PostMatchAt(s, i).value;
    var c := SkipSpaces(s, i + 4);
    assert e == c + 1;
    assert s[i + 1] == 'o' && s[i + 2] == 's' && s[i + 3] == 't' by {
      assert s[i..i + 4] == "post";
    }
    assert j < i + 4 || IsSpace(s[j]) || j == c;
    assert s[j] != 'p';
  }

  /** The start of the last match beginning before `n`. */
  function LastPostStart(s: string, n: nat): (r: Option<nat>)
    requires n <= |s|
    ensures r.Some? ==> r.value < n && PostMatchAt(s, r.value).Some?
    ensures r.Some? ==> forall j :: r.value < j < n ==> PostMatchAt(s, j).None?
    ensures r.None? ==> forall j :: 0 <= j < n ==> PostMatchAt(s, j).None?
    decreases n
  {
    if n == 0 then None
    else if PostMatchAt(s, n - 1).Some? then Some(n - 1)
    else LastPostStart(s, n - 1)
  }

  /** The counter after the text from `e` to `j`: one, plus each `{`, minus each `}`. */
  function Depth(s: string, e: nat, j: nat): int
    requires e <= j <= |s|
  {
    1 + CountChar(s[e..j], '{') - CountChar(s[e..j], '}')
  }

  /**
   * What `_is_inside_post_block` computes for the text before the cursor:
   * there is a `post {` and, from the end of the last one up to the cursor,
   * the counter never drops to zero.
   */
  predicate InsidePostBlock(s: string) {
    match LastPostStart(s, |s|)
    case None => false
    case Some(i) =>
      var e := PostMatchAt(s, i).value;
      forall j :: e <= j <= |s| ==> Depth(s, e, j) > 0
  }

  /** `_is_inside_post_block` with `content` the text from the start of the view to the cursor. */
  method IsInsidePostBlock(content: string) returns (inside: bool)
    ensures inside == InsidePostBlock(content)
  {
    var last := LastPostStart(content, |content|);
    if last.None? {
      return false;
    }
    var e := PostMatchAt(content, last.value).value;
    var braceCount := 1;
    var pos := e;
    while pos < |content| && braceCount > 0
      invariant e <= pos <= |content|
      invariant braceCount == Depth(content, e, pos)
      invariant forall j :: e <= j < pos ==> Depth(content, e, j) > 0
      decreases |content| - pos
    {
      assert content[e..pos + 1][..pos - e] == content[e..pos];
      assert content[e..pos + 1][pos - e] == content[pos];
      if content[pos] == '{' {
        braceCount := braceCount + 1;
      } else if content[pos] == '}' {
        braceCount := braceCount - 1;
      }
      pos := pos + 1;
    }
    inside := braceCount > 0;
  }

  /** With no closing brace after the last `post {`, the cursor is inside it. */
  lemma UnclosedPostBlockIsInside(s: string, i: nat)
    requires LastPostStart(s, |s|) == Some(i)
    requires '}' !in s[PostMatchAt(s, i).value..]
    ensures InsidePostBlock(s)
  {
    var e := PostMatchAt(s, i).value;
    forall j | e <= j <= |s| ensures Depth(s, e, j) > 0 {
      assert '}' !in s[e..j] by {
        assert forall k :: 0 <= k < j - e ==> s[e..j][k] == s[e..][k];
      }
      CountCharAbsent(s[e..j], '}');
    }
  }

  /** A `}` with no `{` before it brings the counter down to zero. */
  lemma DepthDropsAtClose(s: string, e: nat, k: nat)
    requires e <= k < |s| && s[k] == '}'
    requires '{' !in s[e..k]
    ensures Depth(s, e, k + 1) <= 0
  {
    var x := s[e..k + 1];
    assert x[..|x| - 1] == s[e..k];
    assert x[|x| - 1] == '}';
    CountCharAbsent(s[e..k], '{');
  }

  /** Once a `}` closes the last `post {` with no `{` before it, the cursor is outside. */
  lemma ClosedPostBlockIsOutside(s: string, i: nat, k: nat)
    requires LastPostStart(s, |s|) == Some(i)
    requires PostMatchAt(s, i).value <= k < |s| && s[k] == '}'
    requires '{' !in s[PostMatchAt(s, i).value..k]
    ensures !InsidePostBlock(s)
  {
    DepthDropsAtClose(s, PostMatchAt(s, i).value, k);
  }
}
