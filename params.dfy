/**
 * The `params` value a successful match stores on its route: a PHP array
 * with string keys, kept in insertion order, as built by `array_combine`.
 */
module Params {
  import opened Wrappers
  import opened SeqFacts

  /** An ordered PHP array from string keys to string values. */
  type Params = seq<(string, string)>

  /** The keys of a, in order. */
  function Keys(a: Params): (ks: seq<string>)
    ensures |ks| == |a| && forall i :: 0 <= i < |a| ==> ks[i] == a[i].0
  {
    if a == [] then [] else [a[0].0] + Keys(a[1..])
  }

  /** No element of s occurs twice. */
  predicate Distinct(s: seq<string>)
  {
    forall i, j :: 0 <= i < j < |s| ==> s[i] != s[j]
  }

  /** `$a[$k]`, or None when k is not a key of a. */
  function Lookup(a: Params, k: string): (r: Option<string>)
    ensures r.None? <==> k !in Keys(a)
  {
    if a == [] then None
    else if a[0].0 == k then Some(a[0].1)
    else Lookup(a[1..], k)
  }

  /** `$a[$k] = $v`: overwrites the value of an existing key in place, appends a new key. */
  function Put(a: Params, k: string, v: string): (r: Params)
    ensures k in Keys(a) ==> Keys(r) == Keys(a)
    ensures k !in Keys(a) ==> r == a + [(k, v)]
    ensures Lookup(r, k) == Some(v)
    ensures forall k' :: k' != k ==> Lookup(r, k') == Lookup(a, k')
  {
    if a == [] then [(k, v)]
    else if a[0].0 == k then [(k, v)] + a[1..]
    else
      var rest := Put(a[1..], k, v);
      var r := [a[0]] + rest;
      assert r[0] == a[0] && r[1..] == rest;
      assert Keys(r) == [a[0].0] + Keys(rest) && Keys(a) == [a[0].0] + Keys(a[1..]);
      Cons(a, [(k, v)]);
      r
  }

  /**
   * `array_combine($ks, $vs)`: the i-th key is assigned the i-th value, left
   * to right, so a repeated key keeps its first position and its last value.
   */
  function Combine(ks: seq<string>, vs: seq<string>): Params
    requires |ks| == |vs|
  {
    if ks == [] then []
    else Put(Combine(ks[..|ks| - 1], vs[..|vs| - 1]), ks[|ks| - 1], vs[|vs| - 1])
  }

  /** A name that is not among ks is absent from the combined array. */
  lemma {:induction false} CombineAbsent(ks: seq<string>, vs: seq<string>, k: string)
    requires |ks| == |vs| && k !in ks
    ensures Lookup(Combine(ks, vs), k).None?
  {
    if ks != [] {
      var n := |ks| - 1;
      assert ks == ks[..n] + [ks[n]];
      CombineAbsent(ks[..n], vs[..n], k);
    }
  }

  /**
   * Each key of the combined array holds the value that stood at the LAST
   * position of that key in ks.
   */
  lemma {:induction false} CombineLast(ks: seq<string>, vs: seq<string>, i: nat)
    requires |ks| == |vs| && i < |ks|
    requires forall j :: i < j < |ks| ==> ks[j] != ks[i]
    ensures Lookup(Combine(ks, vs), ks[i]) == Some(vs[i])
  {
    var n := |ks| - 1;
    if i < n {
      CombineLast(ks[..n], vs[..n], i);
    }
  }

  /** With distinct keys, the combined array pairs ks[i] with vs[i] position by position. */
  lemma {:induction false} CombineDistinct(ks: seq<string>, vs: seq<string>)
    requires |ks| == |vs| && Distinct(ks)
    ensures |Combine(ks, vs)| == |ks|
    ensures forall i :: 0 <= i < |ks| ==> Combine(ks, vs)[i] == (ks[i], vs[i])
  {
    if ks != [] {
      var n := |ks| - 1;
      var pre := Combine(ks[..n], vs[..n]);
      CombineDistinct(ks[..n], vs[..n]);
      assert Keys(pre) == ks[..n];
      assert ks[n] !in Keys(pre);
      assert Combine(ks, vs) == pre + [(ks[n], vs[n])];
    }
  }

  lemma {:induction false} CombineKeysIn(ks: seq<string>, vs: seq<string>)
    requires |ks| == |vs|
    ensures forall k :: k in Keys(Combine(ks, vs)) <==> k in ks
  {
    if ks != [] {
      var n := |ks| - 1;
      CombineKeysIn(ks[..n], vs[..n]);
      assert ks == ks[..n] + [ks[n]];
      forall k ensures k in Keys(Combine(ks, vs)) <==> k in ks {
        if k in ks {
          var i :| 0 <= i < |ks| && ks[i] == k;
          LastOccurrence(ks, k, i);
          var m :| i <= m < |ks| && ks[m] == k && forall j :: m < j < |ks| ==> ks[j] != k;
          CombineLast(ks, vs, m);
        } else {
          CombineAbsent(ks, vs, k);
        }
      }
    }
  }

  lemma {:induction false} LastOccurrence(ks: seq<string>, k: string, i: nat)
    requires i < |ks| && ks[i] == k
    ensures exists m :: i <= m < |ks| && ks[m] == k && forall j :: m < j < |ks| ==> ks[j] != k
    decreases |ks| - i
  {
    if exists j :: i < j < |ks| && ks[j] == k {
      var j :| i < j < |ks| && ks[j] == k;
      LastOccurrence(ks, k, j);
    }
  }
}

/**
 * What the stored parameters mean: substituting them back into the pattern
 * reproduces the URI that was matched.
 */
module Binding {
  import opened Wrappers
  import opened Pattern
  import opened Matcher
  import opened Params

  /** The pattern of t with each placeholder replaced by its value in P (left as `{name}` when P lacks it). */
  function Substitute(t: seq<Token>, P: Params): string
  {
    if t == [] then []
    else
      var head := match t[0]
        case Lit(c) => [c]
        case Slot(n) => (match Lookup(P, n) case Some(v) => v case None => Placeholder(n));
      head + Substitute(t[1..], P)
  }

  lemma {:induction false} SubstituteFill(t: seq<Token>, caps: seq<string>, P: Params)
    requires |caps| == |SlotNames(t)|
    requires forall i :: 0 <= i < |caps| ==> Lookup(P, SlotNames(t)[i]) == Some(caps[i])
    ensures Substitute(t, P) == Fill(t, caps)
  {
    if t != [] {
      if t[0].Slot? {
        assert SlotNames(t) == [t[0].name] + SlotNames(t[1..]);
        assert Lookup(P, SlotNames(t)[0]) == Some(caps[0]);
        forall i | 0 <= i < |caps[1..]| ensures Lookup(P, SlotNames(t[1..])[i]) == Some(caps[1..][i]) {
          assert SlotNames(t[1..])[i] == SlotNames(t)[i + 1];
        }
        SubstituteFill(t[1..], caps[1..], P);
      } else {
        assert SlotNames(t) == SlotNames(t[1..]);
        SubstituteFill(t[1..], caps, P);
      }
    }
  }

  /**
   * When a route's parameter names are distinct, the array `array_combine`
   * builds from them and the captures of a match gives back the URI when
   * substituted into the pattern, and it maps the i-th name to the i-th capture.
   */
  lemma BindingRoundTrip(p: string, u: string)
    requires Distinct(ExtractParamNames(p))
    requires MatchFrom(Tokenize(p), u).Some?
    ensures |ExtractParamNames(p)| == |MatchFrom(Tokenize(p), u).value|
    ensures forall i :: 0 <= i < |ExtractParamNames(p)| ==>
              Lookup(Combine(ExtractParamNames(p), MatchFrom(Tokenize(p), u).value), ExtractParamNames(p)[i])
                == Some(MatchFrom(Tokenize(p), u).value[i])
    ensures Substitute(Tokenize(p), Combine(ExtractParamNames(p), MatchFrom(Tokenize(p), u).value)) == u
  {
    var names, caps := ExtractParamNames(p), MatchFrom(Tokenize(p), u).value;
    var P := Combine(names, caps);
    forall i | 0 <= i < |names| ensures Lookup(P, names[i]) == Some(caps[i]) {
      assert forall j :: i < j < |names| ==> names[j] != names[i];
      CombineLast(names, caps, i);
    }
    SubstituteFill(Tokenize(p), caps, P);
  }
}
