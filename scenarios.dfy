/**
 * Route shapes used throughout the router's test suite: a literal prefix
 * followed by one placeholder, and two placeholders separated by literal
 * text that starts a new segment. Everything follows from two facts about
 * Tokenize: text without `{` stays literal, and a placeholder that fills its
 * whole segment becomes one slot.
 */
module RouteShapes {
  import opened Wrappers
  import opened Pattern
  import opened Matcher
  import opened MatcherProofs
  import opened CaptureUniqueness
  import opened Params
  import opened SeqFacts

  /** The literal tokens of a. */
  function Lits(a: string): (t: seq<Token>)
    ensures |t| == |a|
  {
    if a == [] then [] else [Lit(a[0])] + Lits(a[1..])
  }

  /** Lits(a) + t, for non-empty a, starts with the literal a[0]. */
  lemma LitsStep(a: string, t: seq<Token>)
    requires a != []
    ensures Lits(a) + t != [] && (Lits(a) + t)[0] == Lit(a[0]) && (Lits(a) + t)[1..] == Lits(a[1..]) + t
  {
    assert Lits(a) == [Lit(a[0])] + Lits(a[1..]);
    Cons(Lits(a), t);
    assert Lits(a)[1..] == Lits(a[1..]);
  }

  lemma LeadingLiteral(a: string, b: string)
    requires a != [] && a[0] != '{'
    ensures Tokenize(a + b) == [Lit(a[0])] + Tokenize(a[1..] + b)
  {
    var s := a + b;
    Cons(a, b);
    assert PlaceholderEnd(s).None?;
    TokenizeLitStep(s);
  }

  /** Text without `{` contains no placeholder. */
  lemma {:induction false} TokenizeLiterals(a: string, b: string)
    requires '{' !in a
    ensures Tokenize(a + b) == Lits(a) + Tokenize(b)
  {
    if a == [] {
      AppendEmpty(b);
    } else {
      var a' := a[1..];
      assert '{' !in a' by {
        assert forall i :: 0 <= i < |a'| ==> a'[i] == a[i + 1];
      }
      assert Tokenize(a + b) == [Lit(a[0])] + Tokenize(a' + b) by {
        LeadingLiteral(a, b);
      }
      TokenizeLiterals(a', b);
    }
  }

  /** A placeholder that is its whole segment becomes a single slot named by what is between the braces. */
  lemma TokenizeWholeSegment(n: string, b: string)
    requires IsSegmentValue(n) && (b == [] || b[0] == '/')
    ensures Tokenize(Placeholder(n) + b) == [Slot(n)] + Tokenize(b)
  {
    var s := Placeholder(n) + b;
    SegmentEndConcat(Placeholder(n), b);
    assert SegmentEnd(b) == 0;
    assert SegmentEnd(s) == |n| + 2;
    assert s[|n| + 1] == '}';
    assert PlaceholderEnd(s) == Some(|n| + 1);
    TokenizeSlotStep(s, |n| + 1);
    assert s[1..|n| + 1] == n;
    assert s[|n| + 2..] == b;
  }

  lemma {:induction false} LitsSlotFree(a: string, t: seq<Token>)
    ensures SlotNames(Lits(a) + t) == SlotNames(t)
  {
    if a == [] {
      AppendEmpty(t);
    } else {
      LitsStep(a, t);
      LitsSlotFree(a[1..], t);
    }
  }

  lemma {:induction false} LitsRender(a: string, t: seq<Token>)
    ensures Render(Lits(a) + t) == a + Render(t)
  {
    if a == [] {
      AppendEmpty(t);
      AppendEmpty(Render(t));
    } else {
      LitsStep(a, t);
      assert Render(Lits(a) + t) == [a[0]] + Render(Lits(a[1..]) + t);
      LitsRender(a[1..], t);
      Cons(a, Render(t));
    }
  }

  lemma {:induction false} LitsFill(a: string, t: seq<Token>, caps: seq<string>)
    requires |caps| == |SlotNames(t)|
    ensures |caps| == |SlotNames(Lits(a) + t)|
    ensures Fill(Lits(a) + t, caps) == a + Fill(t, caps)
  {
    LitsSlotFree(a, t);
    if a == [] {
      AppendEmpty(t);
      AppendEmpty(Fill(t, caps));
    } else {
      LitsStep(a, t);
      LitsSlotFree(a[1..], t);
      assert Fill(Lits(a) + t, caps) == [a[0]] + Fill(Lits(a[1..]) + t, caps);
      LitsFill(a[1..], t, caps);
      Cons(a, Fill(t, caps));
    }
  }

  /** Text without `{` has no parameters. */
  lemma StaticNames(a: string)
    requires '{' !in a
    ensures ExtractParamNames(a) == []
  {
    assert a + [] == a;
    TokenizeLiterals(a, []);
    LitsSlotFree(a, []);
  }

  /** A literal prefix followed by one placeholder that ends the pattern. */
  lemma TokenizeOneParameter(x: string, n: string)
    requires '{' !in x && IsSegmentValue(n)
    ensures Tokenize(x + Placeholder(n)) == Lits(x) + [Slot(n)]
  {
    assert Tokenize(Placeholder(n)) == [Slot(n)] by {
      assert Placeholder(n) + [] == Placeholder(n);
      TokenizeWholeSegment(n, []);
    }
    TokenizeLiterals(x, Placeholder(n));
  }

  /** The regex of a route `x{n}` (like `/posts/{postId}`) is `#^x([^/]+)$#`. */
  lemma OneParameterRegex(x: string, n: string)
    requires '{' !in x && IsSegmentValue(n)
    ensures CompilePattern(x + Placeholder(n)) == "#^" + (x + SegmentGroup) + "$#"
  {
    var slot := [Slot(n)];
    TokenizeOneParameter(x, n);
    assert Render(slot) == SegmentGroup;
    LitsRender(x, slot);
  }

  /** The one parameter of a route `x{n}` is n. */
  lemma OneParameterNames(x: string, n: string)
    requires '{' !in x && IsSegmentValue(n)
    ensures ExtractParamNames(x + Placeholder(n)) == [n]
  {
    var slot := [Slot(n)];
    TokenizeOneParameter(x, n);
    assert SlotNames(slot) == [n];
    LitsSlotFree(x, slot);
  }

  /** A lone slot names one parameter and is filled by its one capture. */
  lemma SingleSlot(n: string, v: string)
    ensures SlotNames([Slot(n)]) == [n] && Fill([Slot(n)], [v]) == v
  {
    assert [Slot(n)][1..] == [];
    AppendEmpty([n]);
    AppendEmpty(v);
  }

  /** The URI `x v`, for any segment value v, matches `x{n}` and binds n to v. */
  lemma OneParameterMatch(x: string, n: string, v: string)
    requires '{' !in x && IsSegmentValue(n) && IsSegmentValue(v)
    ensures MatchFrom(Tokenize(x + Placeholder(n)), x + v) == Some([v])
    ensures Combine(ExtractParamNames(x + Placeholder(n)), [v]) == [(n, v)]
  {
    var slot := [Slot(n)];
    TokenizeOneParameter(x, n);
    SingleSlot(n, v);
    LitsSlotFree(x, slot);
    LitsFill(x, slot, [v]);
    CapturesDetermined(x + Placeholder(n), x + v, [v]);
    OneParameterNames(x, n);
    CombineSingle(n, v);
  }

  /** The tokens after the literal prefix of `x{n}y{m}`. */
  function TwoSlots(n: string, y: string, m: string): seq<Token>
  {
    [Slot(n)] + (Lits(y) + [Slot(m)])
  }

  /** Two placeholders, the second after literal text that starts a new segment. */
  lemma TokenizeTwoParameters(x: string, n: string, y: string, m: string)
    requires '{' !in x && IsSegmentValue(n) && '{' !in y && y != [] && y[0] == '/' && IsSegmentValue(m)
    ensures Tokenize(x + (Placeholder(n) + (y + Placeholder(m)))) == Lits(x) + TwoSlots(n, y, m)
  {
    var tail := y + Placeholder(m);
    assert Tokenize(tail) == Lits(y) + [Slot(m)] by {
      TokenizeOneParameter(y, m);
    }
    assert Tokenize(Placeholder(n) + tail) == TwoSlots(n, y, m) by {
      assert tail[0] == '/';
      TokenizeWholeSegment(n, tail);
    }
    TokenizeLiterals(x, Placeholder(n) + tail);
  }

  lemma TwoSlotsNames(n: string, y: string, m: string)
    ensures SlotNames(TwoSlots(n, y, m)) == [n, m]
  {
    var last := [Slot(m)];
    assert TwoSlots(n, y, m)[1..] == Lits(y) + last;
    assert SlotNames(last) == [m];
    LitsSlotFree(y, last);
  }

  lemma TwoSlotsRender(n: string, y: string, m: string)
    ensures Render(TwoSlots(n, y, m)) == SegmentGroup + (y + SegmentGroup)
  {
    var last := [Slot(m)];
    assert TwoSlots(n, y, m)[1..] == Lits(y) + last;
    assert Render(last) == SegmentGroup;
    LitsRender(y, last);
  }

  lemma TwoSlotsFill(n: string, y: string, m: string, v: string, w: string)
    ensures |SlotNames(TwoSlots(n, y, m))| == 2
    ensures Fill(TwoSlots(n, y, m), [v, w]) == v + (y + w)
  {
    var last := [Slot(m)];
    TwoSlotsNames(n, y, m);
    assert TwoSlots(n, y, m)[1..] == Lits(y) + last;
    assert Fill(last, [w]) == w;
    LitsSlotFree(y, last);
    LitsFill(y, last, [w]);
    assert [v, w][1..] == [w];
  }

  /** The regex of `x{n}y{m}` (like `/posts/{postId}/comments/{commentId}`) is `#^x([^/]+)y([^/]+)$#`. */
  lemma TwoParameterRegex(x: string, n: string, y: string, m: string)
    requires '{' !in x && IsSegmentValue(n) && '{' !in y && y != [] && y[0] == '/' && IsSegmentValue(m)
    ensures CompilePattern(x + (Placeholder(n) + (y + Placeholder(m)))) == "#^" + (x + (SegmentGroup + (y + SegmentGroup))) + "$#"
  {
    TokenizeTwoParameters(x, n, y, m);
    TwoSlotsRender(n, y, m);
    LitsRender(x, TwoSlots(n, y, m));
  }

  /** The parameters of `x{n}y{m}` are n then m. */
  lemma TwoParameterNames(x: string, n: string, y: string, m: string)
    requires '{' !in x && IsSegmentValue(n) && '{' !in y && y != [] && y[0] == '/' && IsSegmentValue(m)
    ensures ExtractParamNames(x + (Placeholder(n) + (y + Placeholder(m)))) == [n, m]
  {
    TokenizeTwoParameters(x, n, y, m);
    TwoSlotsNames(n, y, m);
    LitsSlotFree(x, TwoSlots(n, y, m));
  }

  /** The URI `x v y w`, for segment values v and w, matches `x{n}y{m}` with captures v then w. */
  lemma TwoParameterMatch(x: string, n: string, y: string, m: string, v: string, w: string)
    requires '{' !in x && IsSegmentValue(n) && '{' !in y && y != [] && y[0] == '/' && IsSegmentValue(m)
    requires IsSegmentValue(v) && IsSegmentValue(w)
    ensures MatchFrom(Tokenize(x + (Placeholder(n) + (y + Placeholder(m)))), x + (v + (y + w))) == Some([v, w])
  {
    var p := x + (Placeholder(n) + (y + Placeholder(m)));
    TokenizeTwoParameters(x, n, y, m);
    TwoSlotsFill(n, y, m, v, w);
    LitsSlotFree(x, TwoSlots(n, y, m));
    LitsFill(x, TwoSlots(n, y, m), [v, w]);
    CapturesDetermined(p, x + (v + (y + w)), [v, w]);
  }

  /** Whatever fills the slots of `{n}y{m}` starts with a non-empty, slash-free first value. */
  lemma TwoSlotsFillHead(n: string, y: string, m: string, caps: seq<string>)
    requires Captures(TwoSlots(n, y, m), caps)
    ensures Fill(TwoSlots(n, y, m), caps) != [] && Fill(TwoSlots(n, y, m), caps)[0] != '/'
  {
    var mid := TwoSlots(n, y, m);
    TwoSlotsNames(n, y, m);
    assert Fill(mid, caps) == caps[0] + Fill(mid[1..], caps[1..]);
  }

  /** Leaving the first parameter of `x{n}y{m}` empty (the URI `x y w`) never matches. */
  lemma TwoParameterRejectsEmptyFirst(x: string, n: string, y: string, m: string, w: string)
    requires '{' !in x && IsSegmentValue(n) && '{' !in y && y != [] && y[0] == '/' && IsSegmentValue(m)
    ensures !Accepts(Tokenize(x + (Placeholder(n) + (y + Placeholder(m)))), x + (y + w))
  {
    var p := x + (Placeholder(n) + (y + Placeholder(m)));
    var u := x + (y + w);
    var mid := TwoSlots(n, y, m);
    assert u[|x|] == '/';
    if Accepts(Tokenize(p), u) {
      var caps := MatchFrom(Tokenize(p), u).value;
      TokenizeTwoParameters(x, n, y, m);
      LitsSlotFree(x, mid);
      LitsFill(x, mid, caps);
      TwoSlotsFillHead(n, y, m, caps);
    }
  }

  /** One name and one value combine into their pair. */
  lemma CombineSingle(k: string, v: string)
    ensures Combine([k], [v]) == [(k, v)]
  {
    assert [k][..0] == [] && [v][..0] == [];
  }

  /** Two distinct names combine with two values into two pairs, in order. */
  lemma CombinePair(k1: string, k2: string, v1: string, v2: string)
    requires k1 != k2
    ensures Combine([k1, k2], [v1, v2]) == [(k1, v1), (k2, v2)]
  {
    var ks := [k1, k2];
    var vs := [v1, v2];
    var one := [(k1, v1)];
    assert Combine(ks[..1], vs[..1]) == one by {
      assert ks[..1] == [k1] && vs[..1] == [v1];
      CombineSingle(k1, v1);
    }
    assert k2 !in Keys(one) by {
      assert Keys(one) == [k1];
    }
    assert Combine(ks, vs) == Put(one, k2, v2);
  }

  /** A route ending in a placeholder never matches a URI ending in `/`. */
  lemma ParameterRouteRejectsTrailingSlash(p: string, u: string)
    requires p != [] && p[|p| - 1] == '}' && EndsWithSlash(u)
    ensures !Accepts(Tokenize(p), u)
  {
    if Accepts(Tokenize(p), u) {
      TrailingSlashMustMatch(p, u);
    }
  }
}
