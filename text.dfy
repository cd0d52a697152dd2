/** The handful of Python `str` operations the plugin relies on, over `string`. */
module Text {

  /** `c.lower()` for one character; only ASCII letters change. */
  function LowerChar(c: char): char {
    if 'A' <= c <= 'Z' then (c as int + 32) as char else c
  }

  /** `s.lower()`, character by character. */
  function Lower(s: string): (r: string)
    ensures |r| == |s|
  {
    seq(|s|, i requires 0 <= i < |s| => LowerChar(s[i]))
  }

  /** `s.startswith(p)`. */
  predicate StartsWith(s: string, p: string) {
    |p| <= |s| && s[..|p|] == p
  }

  /** A string starts with the first character of any non-empty prefix of it. */
  lemma StartsWithFirst(s: string, p: string)
    requires StartsWith(s, p) && |p| > 0
    ensures |s| > 0 && s[0] == p[0]
  {
    assert s[..|p|][0] == s[0];
  }

  /** A string whose character at `j` differs from the prefix's does not start with it. */
  lemma NotStartsWithAt(s: string, p: string, j: int)
    requires 0 <= j < |p| && j < |s| && s[j] != p[j]
    ensures !StartsWith(s, p)
  {
    if |p| <= |s| {
      assert s[..|p|][j] == s[j];
    }
  }

  /** `s.endswith(p)`. */
  predicate EndsWith(s: string, p: string) {
    |p| <= |s| && s[|s| - |p|..] == p
  }

  /** `p` occurs in `s` starting at index `i`. */
  predicate OccursAt(s: string, p: string, i: int) {
    0 <= i && i + |p| <= |s| && s[i..i + |p|] == p
  }

  /** Python's substring test `p in s`. */
  predicate Contains(s: string, p: string) {
    exists i | 0 <= i <= |s| - |p| :: OccursAt(s, p, i)
  }

  lemma ContainsAt(s: string, p: string, i: int)
    requires OccursAt(s, p, i)
    ensures Contains(s, p)
  {
  }

  /** A substring of a substring is a substring. */
  lemma {:induction false} ContainsTrans(s: string, p: string, q: string)
    requires Contains(s, p) && Contains(p, q)
    ensures Contains(s, q)
  {
    var i :| 0 <= i <= |s| - |p| && OccursAt(s, p, i);
    var j :| 0 <= j <= |p| - |q| && OccursAt(p, q, j);
    assert i + j + |q| <= |s|;
    forall k | 0 <= k < |q|
      ensures s[i + j..i + j + |q|][k] == q[k]
    {
      assert s[i + j + k] == s[i..i + |p|][j + k] == p[j + k] == p[j..j + |q|][k];
    }
    assert s[i + j..i + j + |q|] == q;
    assert OccursAt(s, q, i + j);
  }

  /** `u + v` occurs in `a + u + (v + c)`, right after `a`. */
  lemma ContainsSpan(a: string, u: string, v: string, c: string)
    ensures Contains(a + u + (v + c), u + v)
  {
    var s := a + u + (v + c);
    var p := u + v;
    forall j | 0 <= j < |p| ensures s[|a|..|a| + |p|][j] == p[j] {
      if j < |u| {
        assert s[|a| + j] == u[j];
      } else {
        assert s[|a| + j] == v[j - |u|];
      }
    }
    assert s[|a|..|a| + |p|] == p;
    assert OccursAt(s, p, |a|);
  }

  /** What occurs in `b` occurs in `a + b + c`. */
  lemma ContainsInMiddle(a: string, b: string, c: string, p: string)
    requires Contains(b, p)
    ensures Contains(a + b + c, p)
  {
    var j :| 0 <= j <= |b| - |p| && OccursAt(b, p, j);
    assert (a + b + c)[|a| + j..|a| + j + |p|] == b[j..j + |p|];
    assert OccursAt(a + b + c, p, |a| + j);
  }

  /** `sep.join(parts)`. */
  function Join(sep: string, parts: seq<string>): string
    decreases |parts|
  {
    if |parts| == 0 then ""
    else if |parts| == 1 then parts[0]
    else Join(sep, parts[..|parts| - 1]) + sep + parts[|parts| - 1]
  }

  /** Joining a prefix of the parts gives a prefix of the whole join. */
  lemma {:induction false} JoinPrefix(sep: string, parts: seq<string>, n: nat)
    requires n <= |parts|
    ensures StartsWith(Join(sep, parts), Join(sep, parts[..n]))
    decreases |parts| - n
  {
    if n == |parts| {
      assert parts[..n] == parts;
    } else {
      var init := parts[..|parts| - 1];
      assert init[..n] == parts[..n];
      JoinPrefix(sep, init, n);
      assert StartsWith(Join(sep, init), Join(sep, parts[..n]));
      if |parts| == 1 {
        assert n == 0;
      } else {
        var w := Join(sep, init);
        var u := Join(sep, parts[..n]);
        assert Join(sep, parts) == w + sep + parts[|parts| - 1];
        assert (w + sep + parts[|parts| - 1])[..|u|] == w[..|u|];
      }
    }
  }

  /** `s.split(c)` for a one-character separator: never empty, as in Python. */
  function Split(s: string, c: char): (r: seq<string>)
    ensures |r| >= 1
    decreases |s|
  {
    if s == [] then [""]
    else
      var init := Split(s[..|s| - 1], c);
      if s[|s| - 1] == c then init + [""]
      else init[..|init| - 1] + [init[|init| - 1] + [s[|s| - 1]]]
  }

  /** No part produced by `Split` contains the separator. */
  lemma {:induction false} SplitPartsFree(s: string, c: char)
    ensures forall k :: 0 <= k < |Split(s, c)| ==> c !in Split(s, c)[k]
    decreases |s|
  {
    if s != [] {
      SplitPartsFree(s[..|s| - 1], c);
    }
  }

  lemma SeqAssoc<T>(a: seq<T>, b: seq<T>, c: seq<T>)
    ensures a + b + c == a + (b + c)
  {
  }

  /** Appending an empty part appends one separator. */
  lemma JoinAppendEmpty(ps: seq<string>, c: char)
    requires |ps| >= 1
    ensures Join([c], ps + [""]) == Join([c], ps) + [c]
  {
    var qs := ps + [""];
    assert qs[..|qs| - 1] == ps;
    assert Join([c], qs) == Join([c], ps) + [c] + "";
  }

  /** Extending the last part extends the join. */
  lemma JoinExtendLast(ps: seq<string>, c: char, x: char)
    requires |ps| >= 1
    ensures Join([c], ps[..|ps| - 1] + [ps[|ps| - 1] + [x]]) == Join([c], ps) + [x]
  {
    var last := ps[|ps| - 1];
    var qs := ps[..|ps| - 1] + [last + [x]];
    if |ps| > 1 {
      var j := Join([c], ps[..|ps| - 1]);
      assert qs[..|qs| - 1] == ps[..|ps| - 1];
      assert Join([c], qs) == j + [c] + (last + [x]);
      SeqAssoc(j + [c], last, [x]);
    }
  }

  /** Joining the parts again with the separator gives back the string. */
  lemma {:induction false} JoinSplit(s: string, c: char)
    ensures Join([c], Split(s, c)) == s
    decreases |s|
  {
    if s != [] {
      var init := s[..|s| - 1];
      var ps := Split(init, c);
      JoinSplit(init, c);
      var x := s[|s| - 1];
      assert init + [x] == s;
      if x == c {
        assert Split(s, c) == ps + [""];
        JoinAppendEmpty(ps, c);
      } else {
        assert Split(s, c) == ps[..|ps| - 1] + [ps[|ps| - 1] + [x]];
        JoinExtendLast(ps, c, x);
      }
    }
  }

  /** Splitting a join of separator-free parts gives the parts back. */
  lemma {:induction false} SplitJoin(parts: seq<string>, c: char)
    requires |parts| >= 1
    requires forall k :: 0 <= k < |parts| ==> c !in parts[k]
    ensures Split(Join([c], parts), c) == parts
    decreases |parts|
  {
    if |parts| == 1 {
      SplitFree(parts[0], c);
    } else {
      var init := parts[..|parts| - 1];
      var w := parts[|parts| - 1];
      SplitJoin(init, c);
      assert Join([c], parts) == Join([c], init) + [c] + w;
      SplitAfterSeparator(Join([c], init), w, c);
      assert init + [w] == parts;
    }
  }

  /** `Split` on a string extended by one character. */
  lemma SplitSnoc(t: string, x: char, c: char)
    ensures Split(t + [x], c) ==
      if x == c then Split(t, c) + [""]
      else Split(t, c)[..|Split(t, c)| - 1] + [Split(t, c)[|Split(t, c)| - 1] + [x]]
  {
    assert (t + [x])[..|t|] == t;
  }

  /** A separator followed by separator-free text starts one new, last part. */
  lemma SplitAfterSeparator(b: string, w: string, c: char)
    requires c !in w
    ensures Split(b + [c] + w, c) == Split(b, c) + [w]
  {
    var a := b + [c];
    assert a[..|a| - 1] == b;
    var ps := Split(a, c);
    assert ps == Split(b, c) + [""];
    SplitAppendFree(a, w, c);
    assert ps[..|ps| - 1] == Split(b, c);
    assert ps[|ps| - 1] + w == w;
  }

  /** A separator-free string splits into itself alone. */
  lemma SplitFree(w: string, c: char)
    requires c !in w
    ensures Split(w, c) == [w]
  {
    SplitAppendFree("", w, c);
    assert "" + w == w;
  }

  /** Appending separator-free text extends the last part only. */
  lemma {:induction false} SplitAppendFree(a: string, w: string, c: char)
    requires c !in w
    ensures Split(a + w, c) == Split(a, c)[..|Split(a, c)| - 1] + [Split(a, c)[|Split(a, c)| - 1] + w]
    decreases |w|
  {
    var ps := Split(a, c);
    if w == [] {
      assert a + w == a;
      assert ps[|ps| - 1] + w == ps[|ps| - 1];
      assert ps[..|ps| - 1] + [ps[|ps| - 1]] == ps;
    } else {
      var v := w[..|w| - 1];
      var x := w[|w| - 1];
      assert v + [x] == w;
      assert x != c;
      SplitAppendFree(a, v, c);
      SeqAssoc(a, v, [x]);
      SplitSnoc(a + v, x, c);
      var qs := Split(a + v, c);
      assert qs[..|qs| - 1] == ps[..|ps| - 1];
      assert qs[|qs| - 1] == ps[|ps| - 1] + v;
      SeqAssoc(ps[|ps| - 1], v, [x]);
    }
  }

  /** `s.count(c)` for a single character. */
  function CountChar(s: string, c: char): nat
    decreases |s|
  {
    if s == [] then 0
    else CountChar(s[..|s| - 1], c) + (if s[|s| - 1] == c then 1 else 0)
  }

  lemma {:induction false} CountCharAppend(a: string, b: string, c: char)
    ensures CountChar(a + b, c) == CountChar(a, c) + CountChar(b, c)
    decreases |b|
  {
    if b == [] {
      assert a + b == a;
    } else {
      CountCharAppend(a, b[..|b| - 1], c);
      assert (a + b)[..|a + b| - 1] == a + b[..|b| - 1];
    }
  }

  /** `s.count(c)` is the multiplicity of `c` in `s`. */
  lemma {:induction false} CountCharMultiset(s: string, c: char)
    ensures CountChar(s, c) == multiset(s)[c]
    decreases |s|
  {
    if s != [] {
      CountCharMultiset(s[..|s| - 1], c);
      assert s == s[..|s| - 1] + [s[|s| - 1]];
    }
  }

  lemma {:induction false} CountCharAbsent(s: string, c: char)
    requires c !in s
    ensures CountChar(s, c) == 0
    decreases |s|
  {
    if s != [] {
      assert s[|s| - 1] in s;
      CountCharAbsent(s[..|s| - 1], c);
    }
  }

  /** `os.path.basename(p)`: everything after the last `/`. */
  function Basename(p: string): string
    decreases |p|
  {
    if p == [] then ""
    else if p[|p| - 1] == '/' then ""
    else Basename(p[..|p| - 1]) + [p[|p| - 1]]
  }

  /** The basename is a slash-free suffix of the path, and the whole rest of it after the directory. */
  lemma {:induction false} BasenameShape(p: string)
    ensures EndsWith(p, Basename(p))
    ensures '/' !in Basename(p)
    ensures |Basename(p)| < |p| ==> p[|p| - |Basename(p)| - 1] == '/'
    decreases |p|
  {
    if p != [] && p[|p| - 1] != '/' {
      var init := p[..|p| - 1];
      BasenameShape(init);
      var b := Basename(init);
      var r := Basename(p);
      var n := |init| - |b|;
      assert r == b + [p[|p| - 1]];
      forall j | 0 <= j < |r|
        ensures p[n..][j] == r[j]
      {
        if j < |b| {
          assert init[n..][j] == b[j];
        }
      }
      assert p[n..] == r;
      if |b| < |init| {
        assert p[n - 1] == init[n - 1];
      }
    }
  }

  /** A directory followed by a slash-free name has that name as its basename. */
  lemma {:induction false} BasenameOfJoin(dir: string, name: string)
    requires '/' !in name
    ensures Basename(dir + "/" + name) == name
    decreases |name|
  {
    if name == [] {
      assert (dir + "/" + name)[|dir + "/" + name| - 1] == '/';
    } else {
      var init := name[..|name| - 1];
      assert init + [name[|name| - 1]] == name;
      assert (dir + "/" + name)[..|dir + "/" + name| - 1] == dir + "/" + init;
      BasenameOfJoin(dir, init);
    }
  }

  /** Python's `\w` on ASCII: letters, digits and underscore. */
  predicate IsWordChar(c: char) {
    ('a' <= c <= 'z') || ('A' <= c <= 'Z') || ('0' <= c <= '9') || c == '_'
  }

  /**
   * Python's `\s` on `str` patterns without `re.ASCII`: the ASCII space,
   * tab, newline, carriage return, vertical tab and form feed, the four
   * separators `\x1c`-`\x1f`, and the Unicode spaces `str.isspace` admits.
   */
  predicate IsSpace(c: char) {
    || c == ' ' || ('\t' <= c <= '\r') || ('\U{001C}' <= c <= '\U{001F}')
    || c == '\U{0085}' || c == '\U{00A0}' || c == '\U{1680}' || ('\U{2000}' <= c <= '\U{200A}')
    || c == '\U{2028}' || c == '\U{2029}' || c == '\U{202F}' || c == '\U{205F}' || c == '\U{3000}'
  }

  function DigitChar(d: nat): char
    requires d < 10
  {
    ('0' as int + d) as char
  }

  /** `str(n)` for a natural number. */
  function NatToString(n: nat): (r: string)
    ensures |r| >= 1
    ensures forall k :: 0 <= k < |r| ==> '0' <= r[k] <= '9'
  {
    if n < 10 then [DigitChar(n)] else NatToString(n / 10) + [DigitChar(n % 10)]
  }
}
