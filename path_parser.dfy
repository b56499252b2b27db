/**
 * Path templates of mock services (`backend/app/utils/path_parser.py`).
 *
 * A template such as `/users/{id}/orders/{order}` is read as a sequence of tokens: a
 * literal character, or a `{name}` slot (an opening brace, a run of at least one
 * character other than `}`, and the first closing brace after it). A template ending in
 * `{*}` is a wildcard: its text before `{*}` must prefix the request path and the rest of
 * the path is captured under the name `*`. A template containing `{*}` elsewhere becomes a
 * glob whose `{*}` matches any run of characters other than a newline and whose other
 * slots are literal text. Every other template compiles to an anchored regular expression
 * in which each slot captures, greedily with backtracking, a non-empty run without `/`.
 */
module PathParser {
  import opened Wrappers
  import opened Text
  import PyDict

  /** Captured parameters, in the order of their slots. */
  type Params = PyDict.Dict<string, string>

  datatype Token = Lit(c: char) | Slot(name: string)

  /** Scans a template the way `re.findall(r'{([^}]+)}')` and the slot substitution do. */
  function Tokens(t: string): (ts: seq<Token>)
    ensures forall k :: 0 <= k < |ts| && ts[k].Slot? ==> |ts[k].name| > 0 && '}' !in ts[k].name
    decreases |t|
  {
    if t == [] then []
    else if t[0] == '{' && '}' in t[1..] && t[1] != '}' then
      var j := IndexOf(t[1..], '}');
      [Slot(t[1..j + 1])] + Tokens(t[j + 2..])
    else [Lit(t[0])] + Tokens(t[1..])
  }

  /** The template text a token sequence was read from. */
  function Unparse(ts: seq<Token>): string
  {
    if ts == [] then ""
    else match ts[0]
      case Lit(c) => [c] + Unparse(ts[1..])
      case Slot(n) => "{" + n + "}" + Unparse(ts[1..])
  }

  /** Tokenising loses nothing: the slots and literals spell the template again. */
  lemma {:induction false} TokensUnparse(t: string)
    ensures Unparse(Tokens(t)) == t
    decreases |t|
  {
    if t != [] {
      if t[0] == '{' && '}' in t[1..] && t[1] != '}' {
        var j := IndexOf(t[1..], '}');
        TokensUnparse(t[j + 2..]);
        SlotSpelled(t, j);
      } else {
        TokensUnparse(t[1..]);
        var ts := [Lit(t[0])] + Tokens(t[1..]);
        assert Tokens(t) == ts;
        assert ts[0] == Lit(t[0]) && ts[1..] == Tokens(t[1..]);
        assert t == [t[0]] + t[1..];
      }
    }
  }

  /** A slot read at the front of the template spells the text it was read from. */
  lemma SlotSpelled(t: string, j: nat)
    requires |t| > 1 && t[0] == '{' && '}' in t[1..] && t[1] != '}' && j == IndexOf(t[1..], '}')
    ensures Unparse(Tokens(t)) == "{" + t[1..j + 1] + "}" + Unparse(Tokens(t[j + 2..]))
    ensures t == "{" + t[1..j + 1] + "}" + t[j + 2..]
  {
    TokensSlotFront(t, j);
    UnparseSlot(t[1..j + 1], Tokens(t[j + 2..]));
    SlotText(t, j);
  }

  lemma TokensSlotFront(t: string, j: nat)
    requires |t| > 1 && t[0] == '{' && '}' in t[1..] && t[1] != '}' && j == IndexOf(t[1..], '}')
    ensures Tokens(t) == [Slot(t[1..j + 1])] + Tokens(t[j + 2..])
  {
  }

  lemma SlotText(t: string, j: nat)
    requires 1 <= j + 1 < |t| && t[0] == '{' && t[j + 1] == '}'
    ensures t == "{" + t[1..j + 1] + "}" + t[j + 2..]
  {
    assert t == [t[0]] + t[1..j + 1] + [t[j + 1]] + t[j + 2..];
  }

  lemma UnparseSlot(n: string, rest: seq<Token>)
    ensures Unparse([Slot(n)] + rest) == "{" + n + "}" + Unparse(rest)
  {
    assert ([Slot(n)] + rest)[1..] == rest;
  }

  function SlotNames(ts: seq<Token>): (names: seq<string>)
    ensures |names| <= |ts|
  {
    if ts == [] then []
    else if ts[0].Slot? then [ts[0].name] + SlotNames(ts[1..])
    else SlotNames(ts[1..])
  }

  /** `extract_parameter_names`: the slot names in template order. */
  function ExtractParameterNames(t: string): seq<string>
  {
    SlotNames(Tokens(t))
  }

  /** Every extracted name is non-empty, free of `}`, and occurs as `{name}` in the template. */
  lemma ExtractedNamesOccur(t: string, n: string)
    requires n in ExtractParameterNames(t)
    ensures |n| > 0 && '}' !in n && Contains(t, "{" + n + "}")
  {
    TokensUnparse(t);
    SlotNameOccurs(Tokens(t), n);
  }

  lemma {:induction false} SlotNameOccurs(ts: seq<Token>, n: string)
    requires n in SlotNames(ts)
    requires forall k :: 0 <= k < |ts| && ts[k].Slot? ==> |ts[k].name| > 0 && '}' !in ts[k].name
    ensures |n| > 0 && '}' !in n && Contains(Unparse(ts), "{" + n + "}")
  {
    var rest := Unparse(ts[1..]);
    if ts[0].Slot? && ts[0].name == n {
      StartsWithContains(Unparse(ts), "{" + n + "}");
    } else {
      SlotNameOccurs(ts[1..], n);
      match ts[0]
      case Lit(c) =>
        ContainsInfix([c], rest, "", "{" + n + "}");
        assert [c] + rest + "" == Unparse(ts);
      case Slot(m) =>
        ContainsInfix("{" + m + "}", rest, "", "{" + n + "}");
        assert "{" + m + "}" + rest + "" == Unparse(ts);
    }
  }

  predicate Distinct(names: seq<string>)
  {
    forall i, j :: 0 <= i < j < |names| ==> names[i] != names[j]
  }

  /** Whether Python's `re` module accepts the pattern built from the template. */
  predicate Compiles(t: string)
  {
    EndsWith(t, "{*}") || Contains(t, "{*}")
    || (Distinct(ExtractParameterNames(t)) && forall n :: n in ExtractParameterNames(t) ==> IsIdentifier(n))
  }

  // ---------------------------------------------------------------- slot matching

  /** Length of the longest prefix of `p` without `/`: what `[^/]+` can take at most. */
  function SegmentRun(p: string): (k: nat)
    ensures k <= |p| && '/' !in p[..k]
    ensures k < |p| ==> p[k] == '/'
  {
    if p == [] || p[0] == '/' then 0
    else
      var k := SegmentRun(p[1..]);
      assert p[..k + 1] == [p[0]] + p[1..][..k];
      k + 1
  }

  lemma SegmentRunBound(p: string, k: nat)
    requires k <= |p| && '/' !in p[..k]
    ensures k <= SegmentRun(p)
  {

  }

  /**
   * `re.match` of the anchored pattern: literals match themselves, and a slot tries the
   * longest run without `/` first, shorter runs only when the rest fails to match.
   */
  function MatchTokens(ts: seq<Token>, p: string): Option<Params>
    decreases |ts|, 1, 0
  {
    if ts == [] then (if p == [] then Some([]) else None)
    else match ts[0]
      case Lit(c) => if |p| > 0 && p[0] == c then MatchTokens(ts[1..], p[1..]) else None
      case Slot(_) => TrySlot(ts, p, SegmentRun(p))
  }

  /** Backtracking over the run the leading slot captures: `k` characters, then fewer. */
  function TrySlot(ts: seq<Token>, p: string, k: nat): Option<Params>
    requires ts != [] && ts[0].Slot? && k <= SegmentRun(p)
    decreases |ts|, 0, k
  {
    if k == 0 then None
    else match MatchTokens(ts[1..], p[k..])
      case Some(rest) => Some([(ts[0].name, p[..k])] + rest)
      case None => TrySlot(ts, p, k - 1)
  }

  function SlotCount(ts: seq<Token>): nat
  {
    |SlotNames(ts)|
  }

  /** The path a template describes once each slot is given a value. */
  function Render(ts: seq<Token>, values: seq<string>): string
    requires |values| == SlotCount(ts)
  {
    if ts == [] then ""
    else match ts[0]
      case Lit(c) => [c] + Render(ts[1..], values)
      case Slot(_) => values[0] + Render(ts[1..], values[1..])
  }

  /** What one slot may capture: a non-empty run of characters without `/`. */
  predicate SegmentValue(v: string)
  {
    |v| > 0 && '/' !in v
  }

  function Values(ps: Params): (vs: seq<string>)
    ensures |vs| == |ps|
    ensures forall i :: 0 <= i < |ps| ==> vs[i] == ps[i].1
  {
    seq(|ps|, i requires 0 <= i < |ps| => ps[i].1)
  }

  lemma {:induction false} TrySlotSound(ts: seq<Token>, p: string, k: nat, ps: Params) returns (k': nat)
    requires ts != [] && ts[0].Slot? && k <= SegmentRun(p)
    requires TrySlot(ts, p, k) == Some(ps)
    ensures 1 <= k' <= k && MatchTokens(ts[1..], p[k'..]).Some?
    ensures ps == [(ts[0].name, p[..k'])] + MatchTokens(ts[1..], p[k'..]).value
    decreases k
  {
    if MatchTokens(ts[1..], p[k..]).None? {
      k' := TrySlotSound(ts, p, k - 1, ps);
    } else {
      k' := k;
    }
  }

  /** A successful match names every slot in order, and its values re-render the path. */
  lemma {:induction false} MatchSound(ts: seq<Token>, p: string, ps: Params)
    requires MatchTokens(ts, p) == Some(ps)
    ensures PyDict.Keys(ps) == SlotNames(ts)
    ensures forall i :: 0 <= i < |ps| ==> SegmentValue(ps[i].1)
    ensures Render(ts, Values(ps)) == p
    decreases |ts|
  {
    if ts != [] {
      match ts[0]
      case Lit(c) =>
        MatchSound(ts[1..], p[1..], ps);
        assert p == [c] + p[1..];
      case Slot(n) =>
        var k := TrySlotSound(ts, p, SegmentRun(p), ps);
        var rest := MatchTokens(ts[1..], p[k..]).value;
        MatchSound(ts[1..], p[k..], rest);
        SlotCaptureSound(ts, p, k, rest, ps);
    }
  }

  /** The slot case of `MatchSound`: the leading capture joined to a sound match of the rest. */
  lemma SlotCaptureSound(ts: seq<Token>, p: string, k: nat, rest: Params, ps: Params)
    requires ts != [] && ts[0].Slot? && 1 <= k <= SegmentRun(p)
    requires ps == [(ts[0].name, p[..k])] + rest
    requires PyDict.Keys(rest) == SlotNames(ts[1..])
    requires forall i :: 0 <= i < |rest| ==> SegmentValue(rest[i].1)
    requires Render(ts[1..], Values(rest)) == p[k..]
    ensures PyDict.Keys(ps) == SlotNames(ts)
    ensures forall i :: 0 <= i < |ps| ==> SegmentValue(ps[i].1)
    ensures Render(ts, Values(ps)) == p
  {
    assert '/' !in p[..k] by {
      assert p[..k] == p[..SegmentRun(p)][..k];
    }
    assert PyDict.Keys(ps) == [ts[0].name] + PyDict.Keys(rest);
    assert Values(ps) == [p[..k]] + Values(rest);
    assert Values(ps)[1..] == Values(rest);
    assert p == p[..k] + p[k..];
  }

  lemma {:induction false} TrySlotFinds(ts: seq<Token>, p: string, k: nat, k0: nat)
    requires ts != [] && ts[0].Slot? && k <= SegmentRun(p)
    requires 1 <= k0 <= k && MatchTokens(ts[1..], p[k0..]).Some?
    ensures TrySlot(ts, p, k).Some?
    decreases k
  {
    if k > k0 && MatchTokens(ts[1..], p[k..]).None? {
      TrySlotFinds(ts, p, k - 1, k0);
    }
  }

  /** Whenever some choice of slot values renders the path, the backtracking match succeeds. */
  lemma {:induction false} MatchComplete(ts: seq<Token>, p: string, values: seq<string>)
    requires |values| == SlotCount(ts)
    requires forall i :: 0 <= i < |values| ==> SegmentValue(values[i])
    requires Render(ts, values) == p
    ensures MatchTokens(ts, p).Some?
    decreases |ts|
  {
    if ts != [] {
      match ts[0]
      case Lit(c) =>
        assert p[1..] == Render(ts[1..], values);
        MatchComplete(ts[1..], p[1..], values);
      case Slot(n) =>
        var v := values[0];
        var k0 := |v|;
        assert p == v + Render(ts[1..], values[1..]);
        assert p[..k0] == v;
        assert p[k0..] == Render(ts[1..], values[1..]);
        assert forall i :: 0 <= i < |values[1..]| ==> SegmentValue(values[1..][i]) by {
          forall i | 0 <= i < |values[1..]| ensures SegmentValue(values[1..][i]) {
            assert values[1..][i] == values[i + 1];
          }
        }
        MatchComplete(ts[1..], p[k0..], values[1..]);
        SegmentRunBound(p, k0);
        TrySlotFinds(ts, p, SegmentRun(p), k0);
    }
  }

  lemma {:induction false} TrySlotGreedy(ts: seq<Token>, p: string, k: nat, ps: Params, k': nat)
    requires ts != [] && ts[0].Slot? && k <= SegmentRun(p)
    requires TrySlot(ts, p, k) == Some(ps)
    requires |ps| > 0 && |ps[0].1| < k' <= k
    ensures MatchTokens(ts[1..], p[k'..]).None?
    decreases k
  {
    if MatchTokens(ts[1..], p[k..]).None? {
      if k' < k {
        TrySlotGreedy(ts, p, k - 1, ps, k');
      }
    }
  }

  /**
   * The leading slot takes the longest run that lets the rest of the template match:
   * with any longer capture the remainder of the path would not match.
   */
  lemma LeadingSlotGreedy(ts: seq<Token>, p: string, ps: Params, k: nat)
    requires ts != [] && ts[0].Slot?
    requires MatchTokens(ts, p) == Some(ps)
    requires |ps| > 0 && |ps[0].1| < k <= SegmentRun(p)
    ensures MatchTokens(ts[1..], p[k..]).None?
  {
    TrySlotGreedy(ts, p, SegmentRun(p), ps, k);
  }

  // ---------------------------------------------------------------- glob templates

  datatype GlobToken = GlobChar(c: char) | Star

  /** The glob form: each `{*}` becomes `.*` and every other character stays literal. */
  function GlobTokens(t: string): seq<GlobToken>
    decreases |t|
  {
    if t == [] then []
    else if StartsWith(t, "{*}") then [Star] + GlobTokens(t[3..])
    else [GlobChar(t[0])] + GlobTokens(t[1..])
  }

  /** Whether the anchored glob pattern matches: `.*` spans any run without a newline. */
  predicate GlobMatches(gs: seq<GlobToken>, p: string)
    decreases |gs|
  {
    if gs == [] then p == []
    else match gs[0]
      case GlobChar(c) => |p| > 0 && p[0] == c && GlobMatches(gs[1..], p[1..])
      case Star => exists k :: 0 <= k <= |p| && '\n' !in p[..k] && GlobMatches(gs[1..], p[k..])
  }

  // ---------------------------------------------------------------- extraction

  /** `extract_parameters(template, path)`: the captured parameters, or `None` when it does not match. */
  function ExtractParameters(t: string, p: string): Option<Params>
    requires Compiles(t)
  {
    if EndsWith(t, "{*}") then
      var base := t[..|t| - 3];
      if StartsWith(p, base) then Some([("*", p[|base|..])]) else None
    else if Contains(t, "{*}") then
      if GlobMatches(GlobTokens(t), p) then Some([]) else None
    else MatchTokens(Tokens(t), p)
  }

  /** `paths_match(template, path)`. */
  predicate PathsMatch(t: string, p: string)
    requires Compiles(t)
  {
    ExtractParameters(t, p).Some?
  }

  /**
   * A wildcard template matches exactly the paths that start with its base, and captures
   * under `*` the remainder that completes the base to the path.
   */
  lemma WildcardCapture(t: string, p: string)
    requires EndsWith(t, "{*}")
    ensures Compiles(t)
    ensures PathsMatch(t, p) <==> StartsWith(p, t[..|t| - 3])
    ensures PathsMatch(t, p) ==>
      var ps := ExtractParameters(t, p).value;
      |ps| == 1 && ps[0].0 == "*" && t[..|t| - 3] + ps[0].1 == p
  {
    if PathsMatch(t, p) {
      var base := t[..|t| - 3];
      assert p == base + p[|base|..];
    }
  }

  /**
   * For a slot template, a path matches exactly when it is the template with every slot
   * filled by a non-empty run without `/`; the captured values are such a filling.
   */
  lemma SlotTemplateMatch(t: string, p: string)
    requires !Contains(t, "{*}") && Compiles(t)
    ensures !EndsWith(t, "{*}")
    ensures PathsMatch(t, p) <==>
      exists values :: |values| == SlotCount(Tokens(t)) && (forall i :: 0 <= i < |values| ==> SegmentValue(values[i]))
        && Render(Tokens(t), values) == p
    ensures PathsMatch(t, p) ==>
      PyDict.Keys(ExtractParameters(t, p).value) == ExtractParameterNames(t)
      && Render(Tokens(t), Values(ExtractParameters(t, p).value)) == p
  {
    if EndsWith(t, "{*}") {
      EndsWithContains(t, "{*}");
    }
    var ts := Tokens(t);
    if PathsMatch(t, p) {
      var ps := ExtractParameters(t, p).value;
      MatchSound(ts, p, ps);
      assert |Values(ps)| == SlotCount(ts);
      assert forall i :: 0 <= i < |Values(ps)| ==> SegmentValue(Values(ps)[i]);
    }
    if exists values :: |values| == SlotCount(ts) && (forall i :: 0 <= i < |values| ==> SegmentValue(values[i]))
        && Render(ts, values) == p {
      var values :| |values| == SlotCount(ts) && (forall i :: 0 <= i < |values| ==> SegmentValue(values[i]))
        && Render(ts, values) == p;
      MatchComplete(ts, p, values);
    }
  }

  function LitTokens(t: string): (ts: seq<Token>)
    ensures SlotCount(ts) == 0
  {
    if t == [] then [] else [Lit(t[0])] + LitTokens(t[1..])
  }

  lemma {:induction false} TokensBraceFree(t: string)
    requires '{' !in t
    ensures Tokens(t) == LitTokens(t)
    ensures Render(LitTokens(t), []) == t
    decreases |t|
  {
    if t != [] {
      assert '{' !in t[1..] by {
        assert forall c :: c in t[1..] ==> c in t;
      }
      TokensBraceFree(t[1..]);
      assert t == [t[0]] + t[1..];
    }
  }

  lemma BraceFreeNoWildcard(t: string)
    requires '{' !in t
    ensures !Contains(t, "{*}") && !EndsWith(t, "{*}")
  {
    if Contains(t, "{*}") {
      ContainsChar(t, "{*}", '{');
    }
    if EndsWith(t, "{*}") {
      EndsWithContains(t, "{*}");
    }
  }

  /** A template without braces matches only the identical path, capturing nothing. */
  lemma BraceFreeExact(t: string, p: string)
    requires '{' !in t
    ensures Compiles(t)
    ensures ExtractParameters(t, p) == if p == t then Some([]) else None
  {
    BraceFreeNoWildcard(t);
    TokensBraceFree(t);
    assert ExtractParameterNames(t) == [];
    SlotTemplateMatch(t, p);
    if p == t {
      var none: seq<string> := [];
      assert |none| == SlotCount(Tokens(t)) && Render(Tokens(t), none) == p;
    }
    if PathsMatch(t, p) {
      var ps := ExtractParameters(t, p).value;
      assert |PyDict.Keys(ps)| == 0;
    }
  }

  // ---------------------------------------------------------------- validation

  datatype PathError =
    | EmptyPath
    | MissingLeadingSlash
    | DuplicateParameter
    | BlankParameter
    | MisplacedWildcard
    | InvalidParameterName(name: string)

  datatype PathCheck = PathOk | PathRejected(reason: PathError)

  /** The message `validate_path_pattern` returns beside `False`. */
  function PathErrorMessage(e: PathError): string
  {
    match e
    case EmptyPath => "Путь не может быть пустым"
    case MissingLeadingSlash => "Путь должен начинаться с /"
    case DuplicateParameter => "Имена параметров должны быть уникальными"
    case BlankParameter => "Имя параметра не может быть пустым"
    case MisplacedWildcard => "Wildcard параметр {*} должен быть в конце пути"
    case InvalidParameterName(n) => "Некорректное имя параметра: " + n
  }

  /** The per-name checks of `validate_path_pattern`, in order, stopping at the first failure. */
  function CheckNames(t: string, names: seq<string>): PathCheck
  {
    if names == [] then PathOk
    else
      var n := names[0];
      if Strip(n) == "" then PathRejected(BlankParameter)
      else if n == "*" then
        if !EndsWith(t, "{*}") then PathRejected(MisplacedWildcard) else CheckNames(t, names[1..])
      else if !IsIdentifier(n) then PathRejected(InvalidParameterName(n))
      else CheckNames(t, names[1..])
  }

  /** `validate_path_pattern(template)`. */
  function ValidatePathPattern(t: string): PathCheck
  {
    if t == "" then PathRejected(EmptyPath)
    else if t[0] != '/' then PathRejected(MissingLeadingSlash)
    else
      var names := ExtractParameterNames(t);
      if !Distinct(names) then PathRejected(DuplicateParameter)
      else CheckNames(t, names)
  }

  /** The rule a name must satisfy: `*` only in a template ending with `{*}`, otherwise an identifier. */
  predicate NameAllowed(t: string, n: string)
  {
    if n == "*" then EndsWith(t, "{*}") else IsIdentifier(n)
  }

  lemma {:induction false} CheckNamesOk(t: string, names: seq<string>)
    ensures CheckNames(t, names).PathOk? <==> forall n :: n in names ==> NameAllowed(t, n)
  {
    if names != [] {
      var n := names[0];
      CheckNamesOk(t, names[1..]);
      if NameAllowed(t, n) {
        AllowedNotBlank(t, n);
      }
      assert forall m :: m in names <==> m == n || m in names[1..];
    }
  }

  lemma IdentifierStripped(n: string)
    requires IsIdentifier(n)
    ensures Strip(n) == n
  {
    forall c | c in n ensures c !in Whitespace {
      var i :| 0 <= i < |n| && n[i] == c;
    }
    StripSetNoChars(n, Whitespace);
  }

  lemma AllowedNotBlank(t: string, n: string)
    requires NameAllowed(t, n)
    ensures Strip(n) != ""
  {
    if n == "*" {
      StripSetNoChars(n, Whitespace);
    } else {
      IdentifierStripped(n);
    }
  }

  /** A template is accepted exactly when it is non-empty, starts with `/`, and its names are distinct and allowed. */
  lemma ValidateCharacterised(t: string)
    ensures ValidatePathPattern(t).PathOk? <==>
      t != "" && t[0] == '/' && Distinct(ExtractParameterNames(t))
      && forall n :: n in ExtractParameterNames(t) ==> NameAllowed(t, n)
  {
    CheckNamesOk(t, ExtractParameterNames(t));
  }

  /** Every template that passes validation compiles, so matching against it never raises. */
  lemma ValidCompiles(t: string)
    requires ValidatePathPattern(t).PathOk?
    ensures Compiles(t)
  {
    ValidateCharacterised(t);
  }

  // ---------------------------------------------------------------- the name test as written

  /**
   * The name test as Python's `re.match(r'^[a-zA-Z_][a-zA-Z0-9_]*$', name)` evaluates it:
   * `$` also matches just before a final newline, so an identifier followed by one `\n`
   * passes as well.
   */
  predicate IdentifierAsWritten(n: string)
  {
    IsIdentifier(n) || (|n| > 0 && n[|n| - 1] == '\n' && IsIdentifier(n[..|n| - 1]))
  }

  /** The per-name loop with the name test as written. */
  function CheckNamesAsWritten(t: string, names: seq<string>): PathCheck
  {
    if names == [] then PathOk
    else
      var n := names[0];
      if Strip(n) == "" then PathRejected(BlankParameter)
      else if n == "*" then
        if !EndsWith(t, "{*}") then PathRejected(MisplacedWildcard) else CheckNamesAsWritten(t, names[1..])
      else if !IdentifierAsWritten(n) then PathRejected(InvalidParameterName(n))
      else CheckNamesAsWritten(t, names[1..])
  }

  /** `validate_path_pattern` with the name test as written. */
  function ValidatePathPatternAsWritten(t: string): PathCheck
  {
    if t == "" then PathRejected(EmptyPath)
    else if t[0] != '/' then PathRejected(MissingLeadingSlash)
    else
      var names := ExtractParameterNames(t);
      if !Distinct(names) then PathRejected(DuplicateParameter)
      else CheckNamesAsWritten(t, names)
  }

  /** The only name in `/a/{id\n}` is `id` followed by a newline. */
  lemma NewlineTemplateNames()
    ensures ExtractParameterNames("/a/{id\n}") == ["id\n"]
  {
    var t := "/a/{id\n}";
    var slot := "{id\n}";
    assert IndexOf(slot[1..], '}') == 3;
    TokensSlotFront(slot, 3);
    assert slot[1..4] == "id\n" && slot[5..] == "";
    assert Tokens(slot) == [Slot("id\n")];
    assert t[1..] == "a/{id\n}" && t[2..] == "/{id\n}" && t[3..] == slot;
    assert Tokens(t) == [Lit('/'), Lit('a'), Lit('/'), Slot("id\n")];
  }

  /** `id` followed by a newline is not blank: stripping leaves `id`. */
  lemma NewlineNameNotBlank()
    ensures Strip("id\n") == "id"
  {
    assert "id\n" == "" + "id" + "\n";
    StripSetPadding("", "id", "\n", Whitespace);
    StripSetNoChars("id", Whitespace);
  }

  /** `id` followed by a newline passes the name test as written, but is no identifier. */
  lemma NewlineNameTests()
    ensures IdentifierAsWritten("id\n") && !IsIdentifier("id\n")
  {
    var n := "id\n";
    assert n[2] == '\n' && !IsAsciiDigit('\n') && !IsAsciiUpper('\n') && !IsAsciiLower('\n');
    assert n[..2] == "id";
  }

  /** A template without `*` holds no `{*}`. */
  lemma NoStarNoWildcard(t: string)
    requires '*' !in t
    ensures !Contains(t, "{*}") && !EndsWith(t, "{*}")
  {
    if Contains(t, "{*}") {
      ContainsChar(t, "{*}", '*');
    }
    assert |t| >= 3 ==> t[|t| - 3..][1] == t[|t| - 2] != '*';
  }

  /**
   * The template `/a/{id\n}` passes the validator as written, yet its group name is not an
   * identifier, so the pattern built from it does not compile. `ValidatePathPattern`
   * rejects it.
   */
  lemma NewlineNameSlipsThrough()
    ensures ValidatePathPatternAsWritten("/a/{id\n}").PathOk?
    ensures !Compiles("/a/{id\n}")
    ensures ValidatePathPattern("/a/{id\n}") == PathRejected(InvalidParameterName("id\n"))
  {
    NewlineTemplateNames();
    NewlineNameNotBlank();
    NewlineNameTests();
    NoStarNoWildcard("/a/{id\n}");
  }
}
