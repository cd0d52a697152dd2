/**
 * HTML escaping and the markup the hover popups are assembled from.
 *
 * A popup is a sequence of tokens: a tag `<inner>` or a run of text. Every
 * value taken from the knowledge base enters a token only through `Escape`,
 * so no token contains an angle bracket of its own, and a fixed tag such as
 * `<h4>` occurs in the rendered string exactly when the token list holds it.
 */
module Html {
  import opened Text

  /** `html.escape` (with `quote=True`) of one character. */
  function EscapeChar(c: char): string {
    if c == '&' then "&amp;"
    else if c == '<' then "&lt;"
    else if c == '>' then "&gt;"
    else if c == '"' then "&quot;"
    else if c == '\'' then "&#x27;"
    else [c]
  }

  /**
   * `html.escape(s)`. Python replaces `&` first and then the other four
   * characters, which is the same as escaping character by character.
   */
  function Escape(s: string): string
    decreases |s|
  {
    if s == [] then "" else EscapeChar(s[0]) + Escape(s[1..])
  }

  /** The characters `Escape` never lets through. */
  predicate MarkupFree(s: string) {
    '<' !in s && '>' !in s && '"' !in s && '\'' !in s
  }

  /** Escaped text never holds a markup or quote character. */
  lemma {:induction false} EscapeIsMarkupFree(s: string)
    ensures MarkupFree(Escape(s))
    decreases |s|
  {
    if s != [] {
      EscapeIsMarkupFree(s[1..]);
      EscapeCharMarkupFree(s[0]);
    }
  }

  lemma EscapeCharMarkupFree(c: char)
    ensures MarkupFree(EscapeChar(c))
  {
    if c == '&' {
      assert MarkupFree("&amp;");
    } else if c == '<' {
      assert MarkupFree("&lt;");
    } else if c == '>' {
      assert MarkupFree("&gt;");
    } else if c == '"' {
      assert MarkupFree("&quot;");
    } else if c == '\'' {
      assert MarkupFree("&#x27;");
    }
  }

  /** Text without any of the five escaped characters is left as it is. */
  lemma {:induction false} EscapeUnchanged(s: string)
    requires MarkupFree(s) && '&' !in s
    ensures Escape(s) == s
    decreases |s|
  {
    if s != [] {
      var t := s[1..];
      assert s == [s[0]] + t;
      assert s[0] != '&' && s[0] != '<' && s[0] != '>' && s[0] != '"' && s[0] != '\'' by {
        assert s[0] in s;
      }
      assert MarkupFree(t) && '&' !in t by {
        assert forall c :: c in t ==> c in s;
      }
      EscapeUnchanged(t);
    }
  }

  /** Decodes the five entity forms `Escape` produces; any other text is kept as is. */
  function Unescape(t: string): string
    decreases |t|
  {
    if t == [] then ""
    else if StartsWith(t, "&amp;") then "&" + Unescape(t[5..])
    else if StartsWith(t, "&lt;") then "<" + Unescape(t[4..])
    else if StartsWith(t, "&gt;") then ">" + Unescape(t[4..])
    else if StartsWith(t, "&quot;") then "\"" + Unescape(t[6..])
    else if StartsWith(t, "&#x27;") then "'" + Unescape(t[6..])
    else [t[0]] + Unescape(t[1..])
  }

  lemma UnescapeAmp(rest: string)
    ensures Unescape("&amp;" + rest) == "&" + Unescape(rest)
  {
    var t := "&amp;" + rest;
    assert t[..5] == "&amp;" && t[5..] == rest;
  }

  lemma UnescapeLt(rest: string)
    ensures Unescape("&lt;" + rest) == "<" + Unescape(rest)
  {
    var t := "&lt;" + rest;
    assert t[1] == 'l';
    NotStartsWithAt(t, "&amp;", 1);
    assert t[..4] == "&lt;" && t[4..] == rest;
  }

  lemma UnescapeGt(rest: string)
    ensures Unescape("&gt;" + rest) == ">" + Unescape(rest)
  {
    var t := "&gt;" + rest;
    assert t[1] == 'g';
    NotStartsWithAt(t, "&amp;", 1);
    NotStartsWithAt(t, "&lt;", 1);
    assert t[..4] == "&gt;" && t[4..] == rest;
  }

  lemma UnescapeQuot(rest: string)
    ensures Unescape("&quot;" + rest) == "\"" + Unescape(rest)
  {
    var t := "&quot;" + rest;
    assert t[1] == 'q';
    NotStartsWithAt(t, "&amp;", 1);
    NotStartsWithAt(t, "&lt;", 1);
    NotStartsWithAt(t, "&gt;", 1);
    assert t[..6] == "&quot;" && t[6..] == rest;
  }

  lemma UnescapeApos(rest: string)
    ensures Unescape("&#x27;" + rest) == "'" + Unescape(rest)
  {
    var t := "&#x27;" + rest;
    assert t[1] == '#';
    NotStartsWithAt(t, "&amp;", 1);
    NotStartsWithAt(t, "&lt;", 1);
    NotStartsWithAt(t, "&gt;", 1);
    NotStartsWithAt(t, "&quot;", 1);
    assert t[..6] == "&#x27;" && t[6..] == rest;
  }

  lemma UnescapePlain(c: char, rest: string)
    requires c != '&'
    ensures Unescape([c] + rest) == [c] + Unescape(rest)
  {
    var t := [c] + rest;
    assert t[0] == c;
    NotStartsWithAt(t, "&amp;", 0);
    NotStartsWithAt(t, "&lt;", 0);
    NotStartsWithAt(t, "&gt;", 0);
    NotStartsWithAt(t, "&quot;", 0);
    NotStartsWithAt(t, "&#x27;", 0);
    assert t[1..] == rest;
  }

  /** Unescaping the escape of one character gives that character back, whatever follows. */
  lemma UnescapeChar(c: char, rest: string)
    ensures Unescape(EscapeChar(c) + rest) == [c] + Unescape(rest)
  {
    if c == '&' {
      UnescapeAmp(rest);
    } else if c == '<' {
      UnescapeLt(rest);
    } else if c == '>' {
      UnescapeGt(rest);
    } else if c == '"' {
      UnescapeQuot(rest);
    } else if c == '\'' {
      UnescapeApos(rest);
    } else {
      UnescapePlain(c, rest);
    }
  }

  /** Escaping loses nothing: unescaping gives back the original text. */
  lemma {:induction false} UnescapeEscape(s: string)
    ensures Unescape(Escape(s)) == s
    decreases |s|
  {
    if s != [] {
      UnescapeEscape(s[1..]);
      UnescapeChar(s[0], Escape(s[1..]));
      assert s == [s[0]] + s[1..];
    }
  }

  /** A piece of markup: a tag `<inner>` or a run of text. */
  datatype Token = Tag(inner: string) | Text(text: string)

  function RenderToken(t: Token): string {
    match t
    case Tag(q) => "<" + q + ">"
    case Text(x) => x
  }

  /** The HTML string a token sequence stands for. */
  function Render(ts: seq<Token>): string
    decreases |ts|
  {
    if ts == [] then "" else RenderToken(ts[0]) + Render(ts[1..])
  }

  lemma {:induction false} RenderAppend(a: seq<Token>, b: seq<Token>)
    ensures Render(a + b) == Render(a) + Render(b)
    decreases |a|
  {
    if a == [] {
      assert a + b == b;
    } else {
      assert (a + b)[1..] == a[1..] + b;
      RenderAppend(a[1..], b);
    }
  }

  lemma RenderAround(ts: seq<Token>, k: nat)
    requires k < |ts|
    ensures Render(ts) == Render(ts[..k]) + RenderToken(ts[k]) + Render(ts[k + 1..])
  {
    assert ts[..k] + ts[k..] == ts;
    RenderAppend(ts[..k], ts[k..]);
    assert ts[k..][1..] == ts[k + 1..];
    var a, b, c := Render(ts[..k]), RenderToken(ts[k]), Render(ts[k + 1..]);
    assert Render(ts[k..]) == b + c;
    assert a + (b + c) == a + b + c;
  }

  /** A tag token followed by a text token renders as the tag followed by that text. */
  lemma TagTextShown(ts: seq<Token>, k: nat, q: string, x: string)
    requires k + 1 < |ts| && ts[k] == Tag(q) && ts[k + 1] == Text(x)
    ensures Contains(Render(ts), "<" + q + ">" + x)
  {
    RenderAround(ts, k);
    var rest := ts[k + 1..];
    assert rest[1..] == ts[k + 2..];
    assert Render(rest) == x + Render(ts[k + 2..]);
    ContainsSpan(Render(ts[..k]), "<" + q + ">", x, Render(ts[k + 2..]));
  }

  predicate AngleFree(s: string) {
    '<' !in s && '>' !in s
  }

  lemma AngleFreeAppend(a: string, b: string)
    requires AngleFree(a) && AngleFree(b)
    ensures AngleFree(a + b)
  {
    assert forall c :: c in a + b ==> c in a || c in b;
  }

  function Content(t: Token): string {
    match t
    case Tag(q) => q
    case Text(x) => x
  }

  /** No token carries an angle bracket inside it. */
  predicate WellFormed(ts: seq<Token>) {
    forall k :: 0 <= k < |ts| ==> AngleFree(Content(ts[k]))
  }

  /** An occurrence of `<q>rest` that starts inside a leading tag `<q'>` is that very tag. */
  lemma OccurrenceInTag(q': string, tail: string, q: string, rest: string, i: int)
    requires AngleFree(q') && AngleFree(q)
    requires OccursAt("<" + q' + ">" + tail, "<" + q + ">" + rest, i)
    requires i < |q'| + 2
    ensures q' == q && StartsWith(tail, rest)
  {
    var r0 := "<" + q' + ">";
    var s := r0 + tail;
    var p := "<" + q + ">" + rest;
    assert s[i] == p[0] == '<';
    if i > 0 {
      assert false;
    }
    assert s[..|p|] == p;
    var m := if |q| < |q'| then |q| else |q'|;
    assert s[m + 1] == p[m + 1];
    TagClosesOnce(q', tail);
    TagClosesOnce(q, rest);
    assert |q| == |q'|;
    forall m | 0 <= m < |q| ensures q[m] == q'[m] {
      assert p[m + 1] == q[m];
      assert s[m + 1] == q'[m];
    }
    assert q == q';
    assert p == r0 + rest;
    assert s[|r0|..|p|] == rest;
    assert tail[..|rest|] == s[|r0|..|p|];
  }

  /** In `<q>t` with an angle-free `q`, the first `>` closes the tag. */
  lemma TagClosesOnce(q: string, t: string)
    requires AngleFree(q)
    ensures ("<" + q + ">" + t)[|q| + 1] == '>'
    ensures forall m :: 0 <= m < |q| ==> ("<" + q + ">" + t)[m + 1] == q[m] != '>'
  {
  }

  /** No occurrence of a tag starts inside a run of angle-free text. */
  lemma OccurrenceNotInText(x: string, tail: string, p: string, i: int)
    requires AngleFree(x) && |p| > 0 && p[0] == '<'
    requires OccursAt(x + tail, p, i)
    ensures i >= |x|
  {
  }

  /**
   * An occurrence of a tag followed by some text lines up with a `Tag` token,
   * and the text is the start of what the following tokens render.
   */
  lemma {:induction false} TagAligned(ts: seq<Token>, q: string, rest: string)
    requires WellFormed(ts) && AngleFree(q)
    requires Contains(Render(ts), "<" + q + ">" + rest)
    ensures exists k :: 0 <= k < |ts| && ts[k] == Tag(q) && StartsWith(Render(ts[k + 1..]), rest)
    decreases |ts|
  {
    var p := "<" + q + ">" + rest;
    var s := Render(ts);
    var i :| 0 <= i <= |s| - |p| && OccursAt(s, p, i);
    assert ts != [];
    var r0 := RenderToken(ts[0]);
    var tail := Render(ts[1..]);
    assert s == r0 + tail;
    assert AngleFree(Content(ts[0]));
    if i >= |r0| {
      assert s[i..i + |p|] == tail[i - |r0|..i - |r0| + |p|];
      assert OccursAt(tail, p, i - |r0|);
      assert WellFormed(ts[1..]) by {
        forall k | 0 <= k < |ts[1..]| ensures AngleFree(Content(ts[1..][k])) {
          assert ts[1..][k] == ts[k + 1];
        }
      }
      TagAligned(ts[1..], q, rest);
      var k' :| 0 <= k' < |ts[1..]| && ts[1..][k'] == Tag(q) && StartsWith(Render(ts[1..][k' + 1..]), rest);
      assert ts[1..][k' + 1..] == ts[k' + 2..];
      assert ts[k' + 1] == Tag(q);
    } else {
      match ts[0]
      case Text(x) =>
        OccurrenceNotInText(x, tail, p, i);
      case Tag(q') =>
        OccurrenceInTag(q', tail, q, rest, i);
        assert ts[0 + 1..] == ts[1..];
    }
  }

  /** A fixed tag occurs in the rendered markup exactly when the token list holds it. */
  lemma TagOccurs(ts: seq<Token>, q: string)
    requires WellFormed(ts) && AngleFree(q)
    ensures Contains(Render(ts), "<" + q + ">") <==> Tag(q) in ts
  {
    if Contains(Render(ts), "<" + q + ">") {
      assert "<" + q + ">" + "" == "<" + q + ">";
      TagAligned(ts, q, "");
    }
    if Tag(q) in ts {
      var k :| 0 <= k < |ts| && ts[k] == Tag(q);
      RenderAround(ts, k);
      assert Contains("<" + q + ">", "<" + q + ">") by {
        assert OccursAt("<" + q + ">", "<" + q + ">", 0);
      }
      ContainsInMiddle(Render(ts[..k]), "<" + q + ">", Render(ts[k + 1..]), "<" + q + ">");
    }
  }

  /** The tag followed by `rest` occurs whenever the tokens render it somewhere. */
  lemma RenderedPieceOccurs(ts: seq<Token>, k: nat, n: nat, p: string)
    requires k <= n <= |ts|
    requires Contains(Render(ts[k..n]), p)
    ensures Contains(Render(ts), p)
  {
    assert ts == ts[..k] + ts[k..n] + ts[n..];
    RenderAppend(ts[..k] + ts[k..n], ts[n..]);
    RenderAppend(ts[..k], ts[k..n]);
    ContainsInMiddle(Render(ts[..k]), Render(ts[k..n]), Render(ts[n..]), p);
  }

  lemma WellFormedAppend(a: seq<Token>, b: seq<Token>)
    requires WellFormed(a) && WellFormed(b)
    ensures WellFormed(a + b)
  {
    forall k | 0 <= k < |a + b| ensures AngleFree(Content((a + b)[k])) {
      if k < |a| {
        assert (a + b)[k] == a[k];
      } else {
        assert (a + b)[k] == b[k - |a|];
      }
    }
  }

  /** Text that went through `Escape` makes a well-formed token. */
  lemma EscapedTextWellFormed(s: string)
    ensures AngleFree(Escape(s))
  {
    EscapeIsMarkupFree(s);
  }
}
