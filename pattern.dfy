/**
 * Route patterns: how `compilePattern` and `extractParamNames` read a pattern
 * such as `/posts/{postId}/comments/{commentId}`.
 *
 * Both operations scan the pattern with the same regular expression
 * `\{[^/]+\}`, leftmost match first, matches not overlapping. The pattern is
 * therefore split once, by Tokenize, into literal characters and placeholder
 * slots; the regex text and the list of parameter names are both read off
 * that one token sequence.
 */
module Pattern {
  import opened Wrappers

  /** One piece of a route pattern: a literal character or a `{name}` placeholder. */
  datatype Token = Lit(c: char) | Slot(name: string)

  /** What `[^/]+` accepts: a non-empty string with no slash. */
  predicate IsSegmentValue(v: string)
  {
    v != [] && '/' !in v
  }

  /** Characters that carry meaning in a PCRE pattern delimited by `#`. */
  const RegexMetachars: set<char> := {'.', '\\', '+', '*', '?', '[', ']', '^', '$', '(', ')', '|', '#'}

  /**
   * A pattern whose literal text means itself inside the compiled regex
   * (nothing is escaped when the regex is built).
   */
  predicate PlainPattern(p: string)
  {
    forall i :: 0 <= i < |p| ==> p[i] !in RegexMetachars
  }

  /** The index of the first `/` in s, or |s| when s has none. */
  function SegmentEnd(s: string): (k: nat)
    ensures k <= |s|
    ensures forall i :: 0 <= i < k ==> s[i] != '/'
    ensures k < |s| ==> s[k] == '/'
  {
    if s == [] || s[0] == '/' then 0 else 1 + SegmentEnd(s[1..])
  }

  /** The largest index p with 2 <= p < k and s[p] == '}', if there is one. */
  function LastCloseBefore(s: string, k: nat): (r: Option<nat>)
    requires k <= |s|
    ensures r.Some? ==> 2 <= r.value < k && s[r.value] == '}'
    ensures r.Some? ==> forall j :: r.value < j < k ==> s[j] != '}'
    ensures r.None? ==> forall j :: 2 <= j < k ==> s[j] != '}'
  {
    if k <= 2 then None
    else if s[k - 1] == '}' then Some(k - 1)
    else LastCloseBefore(s, k - 1)
  }

  /**
   * Where the placeholder regex `\{[^/]+\}` matches at the start of s, if it
   * does: s opens with `{` and the match, being greedy, ends at the LAST `}`
   * before the next `/` that leaves at least one character between the braces.
   */
  function PlaceholderEnd(s: string): (r: Option<nat>)
    ensures r.Some? ==> |s| > 0 && s[0] == '{'
    ensures r.Some? ==> 2 <= r.value < SegmentEnd(s) && s[r.value] == '}'
  {
    if |s| > 0 && s[0] == '{' then LastCloseBefore(s, SegmentEnd(s)) else None
  }

  /**
   * The placeholder regex matches at the start of s exactly when s opens a
   * brace that closes within its segment, and, being greedy, it takes the
   * last such closing brace.
   */
  lemma PlaceholderEndFound(s: string)
    ensures PlaceholderEnd(s).Some? <==> |s| > 0 && s[0] == '{' && exists p :: 2 <= p < SegmentEnd(s) && s[p] == '}'
    ensures PlaceholderEnd(s).Some? ==> forall j :: PlaceholderEnd(s).value < j < SegmentEnd(s) ==> s[j] != '}'
  {
  }

  /** The placeholder text `{name}`. */
  function Placeholder(name: string): string
  {
    "{" + name + "}"
  }

  /** The pattern text a token stands for. */
  function TokenText(t: Token): string
  {
    match t
    case Lit(c) => [c]
    case Slot(name) => Placeholder(name)
  }

  /** The pattern text a token sequence stands for. */
  function Unparse(t: seq<Token>): string
  {
    if t == [] then [] else TokenText(t[0]) + Unparse(t[1..])
  }

  /** The slot names of t, left to right. */
  function SlotNames(t: seq<Token>): seq<string>
  {
    if t == [] then []
    else (if t[0].Slot? then [t[0].name] else []) + SlotNames(t[1..])
  }

  /** Every slot of t names a non-empty, slash-free parameter. */
  predicate WellNamed(t: seq<Token>)
  {
    forall i :: 0 <= i < |t| && t[i].Slot? ==> IsSegmentValue(t[i].name)
  }

  /**
   * Splits a pattern into tokens, scanning left to right as `preg_replace`
   * and `preg_match_all` do: at each position either the placeholder regex
   * matches (and the scan resumes after its closing brace) or the character
   * is literal.
   */
  function Tokenize(p: string): seq<Token>
    decreases |p|
  {
    if p == [] then []
    else match PlaceholderEnd(p)
      case Some(e) => [Slot(p[1..e])] + Tokenize(p[e + 1..])
      case None => [Lit(p[0])] + Tokenize(p[1..])
  }

  lemma TokenizeSlotStep(p: string, e: nat)
    requires PlaceholderEnd(p) == Some(e)
    ensures e + 1 <= |p| && Tokenize(p) == [Slot(p[1..e])] + Tokenize(p[e + 1..])
  {
  }

  lemma TokenizeLitStep(p: string)
    requires p != [] && PlaceholderEnd(p).None?
    ensures Tokenize(p) == [Lit(p[0])] + Tokenize(p[1..])
  {
  }

  lemma UnparseSlotStep(p: string, e: nat)
    requires PlaceholderEnd(p) == Some(e) && Unparse(Tokenize(p[e + 1..])) == p[e + 1..]
    ensures Unparse(Tokenize(p)) == p
  {
    var rest := Tokenize(p[e + 1..]);
    TokenizeSlotStep(p, e);
    assert ([Slot(p[1..e])] + rest)[1..] == rest;
    assert p == Placeholder(p[1..e]) + p[e + 1..];
  }

  lemma UnparseLitStep(p: string)
    requires p != [] && PlaceholderEnd(p).None? && Unparse(Tokenize(p[1..])) == p[1..]
    ensures Unparse(Tokenize(p)) == p
  {
    var rest := Tokenize(p[1..]);
    TokenizeLitStep(p);
    assert ([Lit(p[0])] + rest)[1..] == rest;
  }

  /** Reading the tokens back as pattern text gives the pattern: no character is lost or moved. */
  lemma {:induction false} TokenizeUnparse(p: string)
    ensures Unparse(Tokenize(p)) == p
    decreases |p|
  {
    if p != [] {
      match PlaceholderEnd(p)
      case Some(e) =>
        TokenizeUnparse(p[e + 1..]);
        UnparseSlotStep(p, e);
      case None =>
        TokenizeUnparse(p[1..]);
        UnparseLitStep(p);
    }
  }

  /** Every placeholder name Tokenize finds is non-empty and slash-free. */
  lemma {:induction false} TokenizeWellNamed(p: string)
    ensures WellNamed(Tokenize(p))
    decreases |p|
  {
    if p != [] {
      var t := Tokenize(p);
      match PlaceholderEnd(p)
      case Some(e) =>
        TokenizeWellNamed(p[e + 1..]);
        assert t[1..] == Tokenize(p[e + 1..]);
        forall i | 0 <= i < |t| && t[i].Slot? ensures IsSegmentValue(t[i].name) {
          if i > 0 {
            assert t[i] == t[1..][i - 1];
          } else {
            assert forall j :: 1 <= j < e ==> p[1..e][j - 1] == p[j];
          }
        }
      case None =>
        TokenizeWellNamed(p[1..]);
        assert t[1..] == Tokenize(p[1..]);
        forall i | 0 <= i < |t| && t[i].Slot? ensures IsSegmentValue(t[i].name) {
          assert t[i] == t[1..][i - 1];
        }
    }
  }

  /** The capturing group a placeholder is replaced by: a non-empty run of characters other than `/`. */
  const SegmentGroup: string := "([^/]+)"

  /** The regex text each token is compiled to. */
  function RenderToken(t: Token): string
  {
    match t
    case Lit(c) => [c]
    case Slot(_) => SegmentGroup
  }

  /** The regex body: literals verbatim, each slot a SegmentGroup. */
  function Render(t: seq<Token>): string
  {
    if t == [] then [] else RenderToken(t[0]) + Render(t[1..])
  }

  /** `compilePattern`: the placeholder-free regex, anchored at both ends, delimited by `#`. */
  function CompilePattern(p: string): string
  {
    "#^" + Render(Tokenize(p)) + "$#"
  }

  /** `extractParamNames`: the placeholder names of p, left to right. */
  function ExtractParamNames(p: string): (names: seq<string>)
    ensures forall i :: 0 <= i < |names| ==> IsSegmentValue(names[i])
  {
    TokenizeWellNamed(p);
    SlotNamesWellNamed(Tokenize(p));
    SlotNames(Tokenize(p))
  }

  lemma {:induction false} SlotNamesWellNamed(t: seq<Token>)
    requires WellNamed(t)
    ensures forall i :: 0 <= i < |SlotNames(t)| ==> IsSegmentValue(SlotNames(t)[i])
  {
    if t != [] {
      assert WellNamed(t[1..]) by {
        forall i | 0 <= i < |t[1..]| && t[1..][i].Slot? ensures IsSegmentValue(t[1..][i].name) {
          assert t[1..][i] == t[i + 1];
        }
      }
      SlotNamesWellNamed(t[1..]);
    }
  }

  /** A slot-free token sequence renders to the text it stands for. */
  lemma {:induction false} RenderStatic(t: seq<Token>)
    requires SlotNames(t) == []
    ensures Render(t) == Unparse(t)
  {
    if t != [] {
      RenderStatic(t[1..]);
    }
  }

  /**
   * A pattern without placeholders compiles to itself between `#^` and `$#`
   * (`/` becomes `#^/$#`, `/home` becomes `#^/home$#`).
   */
  lemma StaticCompilesToItself(p: string)
    requires ExtractParamNames(p) == []
    ensures CompilePattern(p) == "#^" + p + "$#"
  {
    TokenizeUnparse(p);
    RenderStatic(Tokenize(p));
  }

  /**
   * A placeholder needs a character between its braces: a bare `{}` stays
   * literal text, but `{}}` is one placeholder named `}`, because the greedy
   * `[^/]+` may take the first `}` when a later one closes the match.
   */
  lemma EmptyBraces()
    ensures Tokenize("{}") == [Lit('{'), Lit('}')]
    ensures Tokenize("{}}") == [Slot("}")]
  {
    var b := "{}";
    assert b[1..] == "}" && b[1..][1..] == "";
    assert SegmentEnd(b) == 2 && PlaceholderEnd(b) == None;
    assert PlaceholderEnd(b[1..]) == None;
    var s := "{}}";
    assert s[1..] == "}}" && s[1..][1..] == "}" && s[1..][1..][1..] == "";
    assert SegmentEnd(s) == 3 && LastCloseBefore(s, 3) == Some(2);
    assert s[1..2] == "}" && s[3..] == "";
  }
}

/**
 * The shape Tokenize gives a pattern: because a placeholder runs to the last
 * `}` of its segment, two placeholders never share a segment.
 */
module PatternShape {
  import opened Wrappers
  import opened Pattern

  /** Up to the first slash literal, R holds only literals. */
  predicate NoSlotBeforeSlash(R: seq<Token>)
  {
    R == [] || R[0] == Lit('/') || (R[0].Lit? && NoSlotBeforeSlash(R[1..]))
  }

  /** Every slot of t is followed by a slash literal before any further slot. */
  predicate Separated(t: seq<Token>)
  {
    t == [] || ((t[0].Slot? ==> NoSlotBeforeSlash(t[1..])) && Separated(t[1..]))
  }

  lemma {:induction false} SegmentEndSuffix(s: string, k: nat)
    requires k <= SegmentEnd(s)
    ensures SegmentEnd(s[k..]) == SegmentEnd(s) - k
  {
    if k > 0 {
      assert s[k..] == s[1..][k - 1..];
      SegmentEndSuffix(s[1..], k - 1);
    }
  }

  /** A pattern with no `}` before its first `/` starts with literals up to that slash. */
  lemma {:induction false} NoCloseNoSlot(s: string)
    requires forall j :: 0 <= j < SegmentEnd(s) ==> s[j] != '}'
    ensures NoSlotBeforeSlash(Tokenize(s))
    decreases |s|
  {
    if s != [] {
      assert PlaceholderEnd(s).None?;
      TokenizeLitStep(s);
      var t := Tokenize(s);
      assert t[0] == Lit(s[0]) && t[1..] == Tokenize(s[1..]);
      if s[0] != '/' {
        SegmentEndSuffix(s, 1);
        assert forall j :: 0 <= j < SegmentEnd(s[1..]) ==> s[1..][j] == s[j + 1];
        NoCloseNoSlot(s[1..]);
      }
    }
  }

  /** Tokenize never puts two placeholders in one segment. */
  lemma {:induction false} TokenizeSeparated(p: string)
    ensures Separated(Tokenize(p))
    decreases |p|
  {
    if p != [] {
      var t := Tokenize(p);
      match PlaceholderEnd(p)
      case Some(e) =>
        var rest := p[e + 1..];
        TokenizeSlotStep(p, e);
        assert t[0].Slot? && t[1..] == Tokenize(rest);
        SegmentEndSuffix(p, e + 1);
        assert forall j :: 0 <= j < SegmentEnd(rest) ==> rest[j] == p[e + 1 + j];
        NoCloseNoSlot(rest);
        TokenizeSeparated(rest);
      case None =>
        TokenizeLitStep(p);
        assert t[0].Lit? && t[1..] == Tokenize(p[1..]);
        TokenizeSeparated(p[1..]);
    }
  }
}
