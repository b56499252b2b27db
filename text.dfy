/**
 * The Python `str` operations the mock engine relies on, written over `seq<char>`:
 * prefix/suffix/substring tests, `lower`/`upper` (ASCII letters only), `strip` with
 * Python's whitespace set, `split`, `join`, `replace`, and decimal rendering.
 */
module Text {

  /** The characters for which Python's `str.isspace()` holds; `strip()` and regex `\s` use it. */
  const Whitespace: set<char> := {
    '\t', '\n', '\U{B}', '\U{C}', '\r', '\U{1C}', '\U{1D}', '\U{1E}', '\U{1F}', ' ',
    '\U{85}', '\U{A0}', '\U{1680}', '\U{2000}', '\U{2001}', '\U{2002}', '\U{2003}',
    '\U{2004}', '\U{2005}', '\U{2006}', '\U{2007}', '\U{2008}', '\U{2009}', '\U{200A}',
    '\U{2028}', '\U{2029}', '\U{202F}', '\U{205F}', '\U{3000}'
  }

  predicate StartsWith(s: string, p: string)
  {
    |p| <= |s| && s[..|p|] == p
  }

  predicate EndsWith(s: string, p: string)
  {
    |p| <= |s| && s[|s| - |p|..] == p
  }

  predicate OccursAt(s: string, p: string, i: int)
  {
    0 <= i && i + |p| <= |s| && s[i..i + |p|] == p
  }

  /** Python's `p in s` on two strings. */
  predicate Contains(s: string, p: string)
  {
    exists i :: 0 <= i <= |s| - |p| && OccursAt(s, p, i)
  }

  lemma StartsWithContains(s: string, p: string)
    requires StartsWith(s, p)
    ensures Contains(s, p)
  {
    assert OccursAt(s, p, 0);
  }

  lemma EndsWithContains(s: string, p: string)
    requires EndsWith(s, p)
    ensures Contains(s, p)
  {
    assert OccursAt(s, p, |s| - |p|);
  }

  lemma ContainsInfix(a: string, s: string, b: string, p: string)
    requires Contains(s, p)
    ensures Contains(a + s + b, p)
  {
    var i :| 0 <= i <= |s| - |p| && OccursAt(s, p, i);
    assert (a + s + b)[|a| + i..|a| + i + |p|] == s[i..i + |p|];
    assert OccursAt(a + s + b, p, |a| + i);
  }

  /** Whatever contains `a + b` contains `a` and `b`. */
  lemma ContainsParts(s: string, a: string, b: string)
    requires Contains(s, a + b)
    ensures Contains(s, a) && Contains(s, b)
  {
    var i :| 0 <= i <= |s| - |a + b| && OccursAt(s, a + b, i);
    assert s[i..i + |a|] == (a + b)[..|a|];
    assert OccursAt(s, a, i);
    assert s[i + |a|..i + |a| + |b|] == (a + b)[|a|..];
    assert OccursAt(s, b, i + |a|);
  }

  lemma ContainsChar(s: string, p: string, c: char)
    requires Contains(s, p) && c in p
    ensures c in s
  {
    var i :| 0 <= i <= |s| - |p| && OccursAt(s, p, i);
    var k :| 0 <= k < |p| && p[k] == c;
    assert s[i + k] == s[i..i + |p|][k];
  }

  lemma ContainsSingle(s: string, c: char)
    ensures Contains(s, [c]) <==> c in s
  {
    if c in s {
      var i :| 0 <= i < |s| && s[i] == c;
      assert OccursAt(s, [c], i);
    }
    if Contains(s, [c]) {
      var i :| 0 <= i <= |s| - 1 && OccursAt(s, [c], i);
      assert s[i] == s[i..i + 1][0];
    }
  }

  predicate IsAsciiUpper(c: char) { 'A' <= c <= 'Z' }
  predicate IsAsciiLower(c: char) { 'a' <= c <= 'z' }
  predicate IsAsciiDigit(c: char) { '0' <= c <= '9' }

  function LowerChar(c: char): char
  {
    if IsAsciiUpper(c) then (c as int + 32) as char else c
  }

  function UpperChar(c: char): char
  {
    if IsAsciiLower(c) then (c as int - 32) as char else c
  }

  /** `str.lower()` restricted to the ASCII letters. */
  function Lower(s: string): (r: string)
    ensures |r| == |s|
    ensures forall i :: 0 <= i < |s| ==> r[i] == LowerChar(s[i])
  {
    seq(|s|, i requires 0 <= i < |s| => LowerChar(s[i]))
  }

  /** `str.upper()` restricted to the ASCII letters. */
  function Upper(s: string): (r: string)
    ensures |r| == |s|
    ensures forall i :: 0 <= i < |s| ==> r[i] == UpperChar(s[i])
  {
    seq(|s|, i requires 0 <= i < |s| => UpperChar(s[i]))
  }

  lemma LowerAppend(a: string, b: string)
    ensures Lower(a + b) == Lower(a) + Lower(b)
  {
  }

  lemma UpperAppend(a: string, b: string)
    ensures Upper(a + b) == Upper(a) + Upper(b)
  {
  }

  /** Drops leading characters of `cs` (Python's `lstrip(cs)`). */
  function LStripSet(s: string, cs: set<char>): (r: string)
    decreases |s|
  {
    if |s| > 0 && s[0] in cs then LStripSet(s[1..], cs) else s
  }

  /** Drops trailing characters of `cs` (Python's `rstrip(cs)`). */
  function RStripSet(s: string, cs: set<char>): (r: string)
    decreases |s|
  {
    if |s| > 0 && s[|s| - 1] in cs then RStripSet(s[..|s| - 1], cs) else s
  }

  /** Python's `strip(cs)`. */
  function StripSet(s: string, cs: set<char>): string
  {
    LStripSet(RStripSet(s, cs), cs)
  }

  /** Python's argument-less `strip()`. */
  function Strip(s: string): string
  {
    StripSet(s, Whitespace)
  }

  lemma {:induction false} LStripSetShape(s: string, cs: set<char>) returns (k: nat)
    ensures k <= |s| && LStripSet(s, cs) == s[k..]
    ensures LStripSet(s, cs) == [] || LStripSet(s, cs)[0] !in cs
    decreases |s|
  {
    if |s| > 0 && s[0] in cs {
      var k' := LStripSetShape(s[1..], cs);
      k := k' + 1;
      assert s[1..][k'..] == s[k..];
    } else {
      k := 0;
    }
  }

  lemma {:induction false} RStripSetShape(s: string, cs: set<char>) returns (k: nat)
    ensures k <= |s| && RStripSet(s, cs) == s[..k]
    ensures RStripSet(s, cs) == [] || RStripSet(s, cs)[|RStripSet(s, cs)| - 1] !in cs
    decreases |s|
  {
    if |s| > 0 && s[|s| - 1] in cs {
      var t := s[..|s| - 1];
      k := RStripSetShape(t, cs);
      assert t[..k] == s[..k];
    } else {
      k := |s|;
    }
  }

  /** The stripped text is a slice of the input with no character of `cs` at either end. */
  lemma StripSetShape(s: string, cs: set<char>) returns (i: nat, j: nat)
    ensures i <= j <= |s| && StripSet(s, cs) == s[i..j]
    ensures StripSet(s, cs) == [] || (StripSet(s, cs)[0] !in cs && StripSet(s, cs)[|StripSet(s, cs)| - 1] !in cs)
  {
    j := RStripSetShape(s, cs);
    var r := RStripSet(s, cs);
    i := LStripSetShape(r, cs);
    var t := LStripSet(r, cs);
    assert t == r[i..];
    assert r[i..] == s[i..j];
    if t != [] {
      assert r != [];
      assert t[|t| - 1] == r[|r| - 1];
    }
  }

  lemma StripSetNoChars(s: string, cs: set<char>)
    requires forall c :: c in s ==> c !in cs
    ensures StripSet(s, cs) == s
  {
    if |s| > 0 {
      assert s[|s| - 1] in s;
      assert s[0] in s;
    }
  }

  lemma StripSetWithin(s: string, cs: set<char>, x: char)
    requires x !in s
    ensures x !in StripSet(s, cs)
  {
    var i, j := StripSetShape(s, cs);
  }

  /** Position of the first `c` in `s` (Python's `s.index(c)`). */
  function IndexOf(s: string, c: char): (i: nat)
    requires c in s
    ensures i < |s| && s[i] == c && c !in s[..i]
  {
    if s[0] == c then 0
    else
      assert c in s[1..];
      var j := IndexOf(s[1..], c);
      assert s[..j + 1] == [s[0]] + s[1..][..j];
      j + 1
  }

  /** Position of the last `c` in `s` (Python's `s.rindex(c)`). */
  function LastIndexOf(s: string, c: char): (i: nat)
    requires c in s
    ensures i < |s| && s[i] == c && c !in s[i + 1..]
    decreases |s|
  {
    if s[|s| - 1] == c then |s| - 1
    else
      assert c in s[..|s| - 1];
      var j := LastIndexOf(s[..|s| - 1], c);
      assert s[j + 1..] == s[..|s| - 1][j + 1..] + [s[|s| - 1]];
      j
  }

  /** Length of the longest prefix of `s` without a character of `cs` (regex `[^...]*`). */
  function SpanNot(s: string, cs: set<char>): (k: nat)
    ensures k <= |s|
    ensures forall j :: 0 <= j < k ==> s[j] !in cs
    ensures k < |s| ==> s[k] in cs
  {
    if s == [] || s[0] in cs then 0 else SpanNot(s[1..], cs) + 1
  }

  /** Python's `s.split(c)` for every separator `c` in `seps` (also `re.split` on a character class). */
  function Split(s: string, seps: set<char>): (r: seq<string>)
    ensures |r| >= 1
    decreases |s|
  {
    if s == [] then [""]
    else if s[0] in seps then [""] + Split(s[1..], seps)
    else
      var rest := Split(s[1..], seps);
      [[s[0]] + rest[0]] + rest[1..]
  }

  /** Every piece of a split is made of characters of the input that are not separators. */
  lemma {:induction false} SplitPieces(s: string, seps: set<char>)
    ensures forall k :: 0 <= k < |Split(s, seps)| ==> forall c :: c in Split(s, seps)[k] ==> c in s && c !in seps
    decreases |s|
  {
    if s != [] {
      SplitPieces(s[1..], seps);
      var rest := Split(s[1..], seps);
      assert forall c :: c in s[1..] ==> c in s;
      if s[0] !in seps {
        assert forall c :: c in [s[0]] + rest[0] ==> c == s[0] || c in rest[0];
      }
    }
  }

  function Last<T>(xs: seq<T>): T
    requires |xs| > 0
  {
    xs[|xs| - 1]
  }

  /** Python's `sep.join(parts)`. */
  function Join(parts: seq<string>, sep: string): string
  {
    if |parts| == 0 then ""
    else if |parts| == 1 then parts[0]
    else parts[0] + sep + Join(parts[1..], sep)
  }

  /** Splitting on one character and joining with it again gives back the input. */
  lemma {:induction false} SplitJoin(s: string, c: char)
    ensures Join(Split(s, {c}), [c]) == s
    decreases |s|
  {
    if s == [] {
    } else if s[0] == c {
      SplitJoin(s[1..], c);
      var rest := Split(s[1..], {c});
      if |rest| == 1 {
        assert Join([""] + rest, [c]) == "" + [c] + Join(rest, [c]);
      } else {
        assert ([""] + rest)[1..] == rest;
      }
      assert s == [c] + s[1..];
    } else {
      SplitJoin(s[1..], c);
      var rest := Split(s[1..], {c});
      var parts := [[s[0]] + rest[0]] + rest[1..];
      if |rest| == 1 {
        assert Join(parts, [c]) == [s[0]] + rest[0];
      } else {
        assert parts[1..] == rest[1..];
        assert Join(rest, [c]) == rest[0] + [c] + Join(rest[1..], [c]);
        assert Join(parts, [c]) == [s[0]] + (rest[0] + [c] + Join(rest[1..], [c]));
      }
      assert s == [s[0]] + s[1..];
    }
  }

  /** A string without the separator splits into itself alone. */
  lemma {:induction false} SplitNoSeparator(s: string, seps: set<char>)
    requires forall c :: c in s ==> c !in seps
    ensures Split(s, seps) == [s]
    decreases |s|
  {
    if s != [] {
      assert s[0] in s;
      assert forall c :: c in s[1..] ==> c in s;
      SplitNoSeparator(s[1..], seps);
      assert s == [s[0]] + s[1..];
    }
  }

  /** The last piece of a split is the text after the last separator. */
  lemma {:induction false} SplitLastAfter(x: string, c: char, y: string, seps: set<char>)
    requires c in seps && forall d :: d in y ==> d !in seps
    ensures |Split(x + [c] + y, seps)| >= 2
    ensures Last(Split(x + [c] + y, seps)) == y
    decreases |x|
  {
    var s := x + [c] + y;
    if x == [] {
      assert s[1..] == y;
      SplitNoSeparator(y, seps);
    } else {
      assert s[0] == x[0];
      assert s[1..] == x[1..] + [c] + y;
      SplitLastAfter(x[1..], c, y, seps);
    }
  }

  /** Splitting text that starts with a separator-free piece and a separator yields that piece first. */
  lemma {:induction false} SplitAfterPiece(x: string, c: char, y: string)
    requires c !in x
    ensures Split(x + [c] + y, {c}) == [x] + Split(y, {c})
    decreases |x|
  {
    var s := x + [c] + y;
    if x == [] {
      assert s[1..] == y;
    } else {
      assert s[0] == x[0];
      assert s[1..] == x[1..] + [c] + y;
      SplitAfterPiece(x[1..], c, y);
      assert x == [x[0]] + x[1..];
    }
  }

  /** Joining separator-free lines and splitting the text again gives back the lines. */
  lemma {:induction false} JoinSplit(lines: seq<string>, c: char)
    requires |lines| >= 1 && forall k :: 0 <= k < |lines| ==> c !in lines[k]
    ensures Split(Join(lines, [c]), {c}) == lines
    decreases |lines|
  {
    if |lines| == 1 {
      SplitNoSeparator(lines[0], {c});
    } else {
      JoinSplit(lines[1..], c);
      SplitAfterPiece(lines[0], c, Join(lines[1..], [c]));
      assert lines == [lines[0]] + lines[1..];
    }
  }

  /**
   * Python's `s.replace(p, v)`: every occurrence of `p`, scanned left to right without
   * overlap, becomes `v`.
   */
  function Replace(s: string, p: string, v: string): string
    requires |p| > 0
    decreases |s|
  {
    if |s| < |p| then s
    else if s[..|p|] == p then v + Replace(s[|p|..], p, v)
    else [s[0]] + Replace(s[1..], p, v)
  }

  /** Replacing a pattern that does not occur changes nothing. */
  lemma {:induction false} ReplaceAbsent(s: string, p: string, v: string)
    requires |p| > 0 && !Contains(s, p)
    ensures Replace(s, p, v) == s
    decreases |s|
  {
    if |s| >= |p| {
      assert !OccursAt(s, p, 0);
      if Contains(s[1..], p) {
        var i :| 0 <= i <= |s[1..]| - |p| && OccursAt(s[1..], p, i);
        assert s[1..][i..i + |p|] == s[i + 1..i + 1 + |p|];
        assert OccursAt(s, p, i + 1);
      }
      ReplaceAbsent(s[1..], p, v);
      assert s == [s[0]] + s[1..];
    }
  }

  /** Replacing a pattern by itself changes nothing. */
  lemma {:induction false} ReplaceIdentity(s: string, p: string)
    requires |p| > 0
    ensures Replace(s, p, p) == s
    decreases |s|
  {
    if |s| >= |p| {
      if s[..|p|] == p {
        ReplaceIdentity(s[|p|..], p);
        assert s == s[..|p|] + s[|p|..];
      } else {
        ReplaceIdentity(s[1..], p);
        assert s == [s[0]] + s[1..];
      }
    }
  }

  function DigitChar(d: nat): char
    requires d < 10
  {
    "0123456789"[d]
  }

  /** Decimal rendering of a natural number, as Python's `str(n)`. */
  function NatToString(n: nat): (r: string)
    ensures |r| >= 1
    ensures forall c :: c in r ==> IsAsciiDigit(c)
  {
    if n < 10 then [DigitChar(n)] else NatToString(n / 10) + [DigitChar(n % 10)]
  }

  lemma {:induction false} RStripSetDropsTail(x: string, w: string, cs: set<char>)
    requires forall c :: c in w ==> c in cs
    ensures RStripSet(x + w, cs) == RStripSet(x, cs)
    decreases |w|
  {
    if w == [] {
      assert x + w == x;
    } else {
      var w' := w[..|w| - 1];
      assert (x + w)[..|x + w| - 1] == x + w';
      RStripSetDropsTail(x, w', cs);
    }
  }

  lemma {:induction false} LStripSetDropsHead(w: string, x: string, cs: set<char>)
    requires forall c :: c in w ==> c in cs
    ensures LStripSet(w + x, cs) == LStripSet(x, cs)
    decreases |w|
  {
    if w == [] {
      assert w + x == x;
    } else {
      assert (w + x)[1..] == w[1..] + x;
      LStripSetDropsHead(w[1..], x, cs);
    }
  }

  lemma {:induction false} RStripSetAfterHead(w: string, x: string, cs: set<char>)
    requires forall c :: c in w ==> c in cs
    ensures RStripSet(w + x, cs) == if RStripSet(x, cs) == [] then [] else w + RStripSet(x, cs)
    decreases |x|
  {
    if x == [] {
      assert w + x == [] + w;
      RStripSetDropsTail([], w, cs);
    } else if x[|x| - 1] in cs {
      assert (w + x)[..|w + x| - 1] == w + x[..|x| - 1];
      RStripSetAfterHead(w, x[..|x| - 1], cs);
    }
  }

  /** Surrounding characters of `cs` do not change what `strip(cs)` keeps. */
  lemma StripSetPadding(w: string, x: string, w': string, cs: set<char>)
    requires forall c :: c in w ==> c in cs
    requires forall c :: c in w' ==> c in cs
    ensures StripSet(w + x + w', cs) == StripSet(x, cs)
  {
    RStripSetDropsTail(w + x, w', cs);
    RStripSetAfterHead(w, x, cs);
    if RStripSet(x, cs) != [] {
      LStripSetDropsHead(w, RStripSet(x, cs), cs);
    }
  }

  /** An ASCII identifier: `[A-Za-z_][A-Za-z0-9_]*`. */
  predicate IsIdentifier(s: string)
  {
    |s| > 0
    && (IsAsciiUpper(s[0]) || IsAsciiLower(s[0]) || s[0] == '_')
    && forall i :: 0 <= i < |s| ==> IsAsciiUpper(s[i]) || IsAsciiLower(s[i]) || IsAsciiDigit(s[i]) || s[i] == '_'
  }
}
