/**
 * The compiled route regex `#^...$#`, read structurally: literal characters
 * must match themselves and each `([^/]+)` group takes a non-empty slash-free
 * run of the URI. The search is PCRE's: left to right, each group first
 * trying its longest run and backing off one character at a time.
 */
module Matcher {
  import opened Wrappers
  import opened Pattern

  /** caps is a possible list of captures for t: one segment value per slot. */
  predicate Captures(t: seq<Token>, caps: seq<string>)
  {
    |caps| == |SlotNames(t)| && forall i :: 0 <= i < |caps| ==> IsSegmentValue(caps[i])
  }

  /** The text t stands for once its i-th slot is replaced by caps[i]. */
  function Fill(t: seq<Token>, caps: seq<string>): string
    requires |caps| == |SlotNames(t)|
  {
    if t == [] then []
    else match t[0]
      case Lit(c) => [c] + Fill(t[1..], caps)
      case Slot(_) => caps[0] + Fill(t[1..], caps[1..])
  }

  /**
   * Anchored match of the whole URI u against t. On success the result holds
   * the captured groups in order (PHP's `$matches` after `array_shift`).
   */
  function MatchFrom(t: seq<Token>, u: string): (r: Option<seq<string>>)
    ensures r.Some? ==> Captures(t, r.value) && Fill(t, r.value) == u
    decreases |t|, |u| + 1
  {
    if t == [] then (if u == [] then Some([]) else None)
    else match t[0]
      case Lit(c) =>
        if u != [] && u[0] == c then
          var m := MatchFrom(t[1..], u[1..]);
          assert m.Some? ==> u == [c] + u[1..];
          m
        else None
      case Slot(_) => TrySplit(t, u, SegmentEnd(u))
  }

  /**
   * The backtracking step for a leading slot: give it u[..k], then shorter
   * prefixes, until the rest of t matches the rest of u.
   */
  function TrySplit(t: seq<Token>, u: string, k: nat): (r: Option<seq<string>>)
    requires t != [] && t[0].Slot? && k <= SegmentEnd(u)
    ensures r.Some? ==> Captures(t, r.value) && Fill(t, r.value) == u
    decreases |t|, k
  {
    if k == 0 then None
    else match MatchFrom(t[1..], u[k..])
      case Some(rest) =>
        var caps := [u[..k]] + rest;
        assert caps[1..] == rest;
        assert u == u[..k] + u[k..];
        assert IsSegmentValue(u[..k]);
        Some(caps)
      case None => TrySplit(t, u, k - 1)
  }
}

module MatcherProofs {
  import opened Wrappers
  import opened Pattern
  import opened Matcher

  /** A route regex accepts u when the anchored match succeeds. */
  predicate Accepts(t: seq<Token>, u: string)
  {
    MatchFrom(t, u).Some?
  }

  lemma {:induction false} SegmentEndCovers(s: string, n: nat)
    requires n <= |s| && forall i :: 0 <= i < n ==> s[i] != '/'
    ensures n <= SegmentEnd(s)
  {
    if n > 0 {
      SegmentEndCovers(s[1..], n - 1);
    }
  }

  lemma {:induction false} CapturesTail(t: seq<Token>, caps: seq<string>)
    requires t != [] && Captures(t, caps)
    ensures t[0].Lit? ==> Captures(t[1..], caps)
    ensures t[0].Slot? ==> |caps| > 0 && IsSegmentValue(caps[0]) && Captures(t[1..], caps[1..])
  {
    if t[0].Slot? {
      assert |caps| > 0;
      forall i | 0 <= i < |caps[1..]| ensures IsSegmentValue(caps[1..][i]) {
        assert caps[1..][i] == caps[i + 1];
      }
    }
  }

  /** Every filling of t is found by the matcher (completeness). */
  lemma {:induction false} MatchFromComplete(t: seq<Token>, u: string, caps: seq<string>)
    requires Captures(t, caps) && Fill(t, caps) == u
    ensures MatchFrom(t, u).Some?
    decreases |t|, |u| + 1
  {
    if t != [] {
      CapturesTail(t, caps);
      match t[0]
      case Lit(c) =>
        assert u[1..] == Fill(t[1..], caps);
        MatchFromComplete(t[1..], u[1..], caps);
      case Slot(_) =>
        var c := caps[0];
        assert u == c + Fill(t[1..], caps[1..]);
        assert forall i :: 0 <= i < |c| ==> u[i] == c[i];
        SegmentEndCovers(u, |c|);
        TrySplitComplete(t, u, SegmentEnd(u), caps);
    }
  }

  lemma {:induction false} TrySplitComplete(t: seq<Token>, u: string, k: nat, caps: seq<string>)
    requires t != [] && t[0].Slot? && Captures(t, caps) && Fill(t, caps) == u
    requires |caps| > 0 && |caps[0]| <= k <= SegmentEnd(u)
    ensures TrySplit(t, u, k).Some?
    decreases |t|, k
  {
    CapturesTail(t, caps);
    if MatchFrom(t[1..], u[k..]).None? {
      if k == |caps[0]| {
        assert u[k..] == Fill(t[1..], caps[1..]);
        MatchFromComplete(t[1..], u[k..], caps[1..]);
        assert false;
      } else {
        TrySplitComplete(t, u, k - 1, caps);
      }
    }
  }

  /**
   * The compiled route accepts exactly the URIs obtained from its pattern by
   * replacing every placeholder with a non-empty string containing no `/`;
   * the captures returned are one such replacement.
   */
  lemma AcceptsExactly(p: string, u: string)
    ensures Accepts(Tokenize(p), u) <==> exists caps :: Captures(Tokenize(p), caps) && Fill(Tokenize(p), caps) == u
  {
    if exists caps :: Captures(Tokenize(p), caps) && Fill(Tokenize(p), caps) == u {
      var caps :| Captures(Tokenize(p), caps) && Fill(Tokenize(p), caps) == u;
      MatchFromComplete(Tokenize(p), u, caps);
    }
  }

  lemma {:induction false} FillStatic(t: seq<Token>)
    requires SlotNames(t) == []
    ensures Fill(t, []) == Unparse(t)
  {
    if t != [] {
      FillStatic(t[1..]);
    }
  }

  /** A pattern without placeholders matches the identical URI and nothing else. */
  lemma StaticMatchesOnlyItself(p: string, u: string)
    requires ExtractParamNames(p) == []
    ensures Accepts(Tokenize(p), u) <==> u == p
  {
    TokenizeUnparse(p);
    FillStatic(Tokenize(p));
    if u == p {
      MatchFromComplete(Tokenize(p), u, []);
    }
  }

  predicate EndsWithSlash(s: string)
  {
    s != [] && s[|s| - 1] == '/'
  }

  lemma {:induction false} LastCharAgrees(t: seq<Token>, caps: seq<string>)
    requires t != [] && Captures(t, caps)
    ensures Fill(t, caps) != [] && Unparse(t) != []
    ensures EndsWithSlash(Fill(t, caps)) <==> EndsWithSlash(Unparse(t))
  {
    CapturesTail(t, caps);
    var rcaps := if t[0].Slot? then caps[1..] else caps;
    var head := if t[0].Slot? then caps[0] else [t[0].c];
    var restFill, restText := Fill(t[1..], rcaps), Unparse(t[1..]);
    assert Fill(t, caps) == head + restFill;
    assert Unparse(t) == TokenText(t[0]) + restText;
    if t[1..] != [] {
      LastCharAgrees(t[1..], rcaps);
      LastOfConcat(head, restFill);
      LastOfConcat(TokenText(t[0]), restText);
    } else {
      assert restFill == [] && restText == [];
      assert Fill(t, caps) == head;
    }
  }

  lemma LastOfConcat(a: string, b: string)
    requires b != []
    ensures EndsWithSlash(a + b) <==> EndsWithSlash(b)
  {
    assert (a + b)[|a + b| - 1] == b[|b| - 1];
  }

  /**
   * A URI accepted by a route ends with `/` exactly when the route's pattern
   * does: `/about/` is not accepted by `/about`, nor `/posts/42/` by `/posts/{id}`.
   */
  lemma TrailingSlashMustMatch(p: string, u: string)
    requires Accepts(Tokenize(p), u)
    ensures EndsWithSlash(u) <==> EndsWithSlash(p)
  {
    var t := Tokenize(p);
    var caps := MatchFrom(t, u).value;
    TokenizeUnparse(p);
    if t != [] {
      LastCharAgrees(t, caps);
    }
  }

  /** s has an empty segment: two adjacent slashes. */
  predicate HasEmptySegment(s: string)
  {
    exists i :: 0 <= i < |s| - 1 && s[i] == '/' && s[i + 1] == '/'
  }

  lemma {:induction false} LeadingSlash(t: seq<Token>, caps: seq<string>)
    requires Captures(t, caps) && Fill(t, caps) != [] && Fill(t, caps)[0] == '/'
    ensures t != [] && t[0] == Lit('/')
  {
    if t != [] && t[0].Slot? {
      CapturesTail(t, caps);
    }
  }

  /** An empty segment of r stays one after any prefix. */
  lemma EmptySegmentAfter(h: string, r: string)
    requires HasEmptySegment(r)
    ensures HasEmptySegment(h + r)
  {
    var j :| 0 <= j < |r| - 1 && r[j] == '/' && r[j + 1] == '/';
    assert (h + r)[|h| + j] == '/' && (h + r)[|h| + j + 1] == '/';
  }

  /** Two adjacent slashes past a prefix h lie in what follows h. */
  lemma PairInTail(h: string, r: string, i: nat)
    requires |h| <= i && i + 1 < |h + r| && (h + r)[i] == '/' && (h + r)[i + 1] == '/'
    ensures i - |h| + 1 < |r| && r[i - |h|] == '/' && r[i - |h| + 1] == '/'
  {
  }

  /** A slash inside h + r at a position before |h| is a slash of h. */
  lemma SlashInHead(h: string, r: string, i: nat)
    requires i < |h| && (h + r)[i] == '/'
    ensures '/' in h
  {
    assert h[i] == '/';
  }

  lemma {:induction false} EmptySegmentFromPattern(t: seq<Token>, caps: seq<string>, i: nat)
    requires Captures(t, caps)
    requires i + 1 < |Fill(t, caps)| && Fill(t, caps)[i] == '/' && Fill(t, caps)[i + 1] == '/'
    ensures HasEmptySegment(Unparse(t))
  {
    CapturesTail(t, caps);
    var rcaps := if t[0].Slot? then caps[1..] else caps;
    var h := if t[0].Slot? then caps[0] else [t[0].c];
    var rest := Fill(t[1..], rcaps);
    assert Fill(t, caps) == h + rest;
    assert Unparse(t) == TokenText(t[0]) + Unparse(t[1..]);
    if t[0].Lit? && i == 0 {
      assert rest != [] && rest[0] == '/';
      LeadingSlash(t[1..], caps);
      assert Unparse(t[1..]) == "/" + Unparse(t[2..]) by {
        assert t[1..][1..] == t[2..];
      }
      assert TokenText(t[0]) == "/";
      assert Unparse(t)[0] == '/' && Unparse(t)[1] == '/';
    } else {
      if i < |h| {
        SlashInHead(h, rest, i);
      }
      PairInTail(h, rest, i);
      EmptySegmentFromPattern(t[1..], rcaps, i - |h|);
      EmptySegmentAfter(TokenText(t[0]), Unparse(t[1..]));
    }
  }

  /**
   * An empty segment in the URI never matches a placeholder: a URI with two
   * adjacent slashes is accepted only by a pattern that has them literally
   * (`/posts//comments/56` is not accepted by `/posts/{postId}/comments/{commentId}`).
   */
  lemma EmptySegmentNeverMatches(p: string, u: string)
    requires !HasEmptySegment(p) && HasEmptySegment(u)
    ensures !Accepts(Tokenize(p), u)
  {
    if Accepts(Tokenize(p), u) {
      var caps := MatchFrom(Tokenize(p), u).value;
      var i :| 0 <= i < |u| - 1 && u[i] == '/' && u[i + 1] == '/';
      TokenizeUnparse(p);
      EmptySegmentFromPattern(Tokenize(p), caps, i);
    }
  }

  /**
   * What `preg_match` does with `#^...$#` as written: without the `D`
   * modifier, `$` also matches just before a final newline, so a URI with one
   * trailing "\n" is accepted as well.
   */
  predicate AcceptsAsWritten(t: seq<Token>, u: string)
  {
    MatchFrom(t, u).Some? || (u != [] && u[|u| - 1] == '\n' && MatchFrom(t, u[..|u| - 1]).Some?)
  }

  /**
   * The regex as written accepts `/about` followed by a newline for the route
   * `/about`; the strictly anchored matcher, which the router uses, does not.
   */
  lemma TrailingNewlineSlipsPastDollar(p: string)
    requires ExtractParamNames(p) == []
    ensures AcceptsAsWritten(Tokenize(p), p + "\n")
    ensures !Accepts(Tokenize(p), p + "\n")
  {
    StaticMatchesOnlyItself(p, p);
    StaticMatchesOnlyItself(p, p + "\n");
    assert (p + "\n")[..|p + "\n"| - 1] == p;
  }
}

/**
 * A URI accepted by a route determines its captures: since no two
 * placeholders share a segment, each capture must end where the pattern's
 * next slash begins.
 */
module CaptureUniqueness {
  import opened Wrappers
  import opened Pattern
  import opened PatternShape
  import opened Matcher
  import opened MatcherProofs
  import opened SeqFacts

  /** The number of leading non-slash literals of R. */
  function LitRun(R: seq<Token>): nat
  {
    if R == [] || R[0] == Lit('/') || R[0].Slot? then 0 else 1 + LitRun(R[1..])
  }

  lemma {:induction false} SegmentEndConcat(a: string, b: string)
    requires '/' !in a
    ensures SegmentEnd(a + b) == |a| + SegmentEnd(b)
  {
    if a != [] {
      assert (a + b)[0] == a[0] != '/';
      assert (a + b)[1..] == a[1..] + b;
      assert forall i :: 0 <= i < |a[1..]| ==> a[1..][i] == a[i + 1];
      assert '/' !in a[1..];
      assert SegmentEnd(a + b) == 1 + SegmentEnd(a[1..] + b);
      SegmentEndConcat(a[1..], b);
    } else {
      assert a + b == b;
    }
  }

  /** Before a slash literal, the filled text has as many non-slash characters as R has literals. */
  lemma {:induction false} FillSegmentEnd(R: seq<Token>, caps: seq<string>)
    requires NoSlotBeforeSlash(R) && Captures(R, caps)
    ensures SegmentEnd(Fill(R, caps)) == LitRun(R)
  {
    if R != [] && R[0] != Lit('/') {
      CapturesTail(R, caps);
      assert Fill(R, caps) == [R[0].c] + Fill(R[1..], caps);
      SegmentEndConcat([R[0].c], Fill(R[1..], caps));
      FillSegmentEnd(R[1..], caps);
    }
  }

  lemma {:induction false} CapturesUnique(t: seq<Token>, c1: seq<string>, c2: seq<string>)
    requires Separated(t) && Captures(t, c1) && Captures(t, c2) && Fill(t, c1) == Fill(t, c2)
    ensures c1 == c2
  {
    if t != [] {
      CapturesTail(t, c1);
      CapturesTail(t, c2);
      var R := t[1..];
      match t[0]
      case Lit(c) =>
        assert Fill(t, c1) == [c] + Fill(R, c1) && Fill(t, c2) == [c] + Fill(R, c2);
        ConsCancel(c, Fill(R, c1), Fill(R, c2));
        assert Separated(R);
        CapturesUnique(R, c1, c2);
      case Slot(_) =>
        var u := Fill(t, c1);
        var f1, f2 := Fill(R, c1[1..]), Fill(R, c2[1..]);
        assert u == c1[0] + f1 && u == c2[0] + f2;
        FillSegmentEnd(R, c1[1..]);
        FillSegmentEnd(R, c2[1..]);
        SegmentEndConcat(c1[0], f1);
        SegmentEndConcat(c2[0], f2);
        var n := |c1[0]|;
        assert c1[0] == u[..n] == c2[0];
        assert f1 == u[n..] == f2;
        CapturesUnique(R, c1[1..], c2[1..]);
        assert c1 == [c1[0]] + c1[1..];
        assert c2 == [c2[0]] + c2[1..];
    }
  }

  /**
   * Whatever segments make up an accepted URI, the matcher captures exactly
   * those: the binding of names to segments is determined by the URI.
   */
  lemma CapturesDetermined(p: string, u: string, caps: seq<string>)
    requires Captures(Tokenize(p), caps) && Fill(Tokenize(p), caps) == u
    ensures MatchFrom(Tokenize(p), u) == Some(caps)
  {
    MatchFromComplete(Tokenize(p), u, caps);
    TokenizeSeparated(p);
    CapturesUnique(Tokenize(p), MatchFrom(Tokenize(p), u).value, caps);
  }
}
