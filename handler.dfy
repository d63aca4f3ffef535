/**
 * Handler strings of the form `controller#action`, as `addRoute` reads them.
 */
module Handler {
  import opened Wrappers

  /** The message of the exception raised for a handler without `#`. */
  const HandlerFormatMessage: string := "Handler must be in 'controller#action' format"

  /** The suffix appended to the controller token. */
  const ControllerSuffix: string := "Controller"

  /** The position of the first c in s, if any. */
  function IndexOf(s: string, c: char): (r: Option<nat>)
    ensures r.None? <==> c !in s
    ensures r.Some? ==> r.value < |s| && s[r.value] == c && c !in s[..r.value]
  {
    if s == [] then None
    else if s[0] == c then Some(0)
    else match IndexOf(s[1..], c)
      case None => None
      case Some(i) =>
        assert s[..i + 1] == [s[0]] + s[1..][..i];
        Some(i + 1)
  }

  /**
   * `explode('#', $handler, 2)` guarded by `str_contains($handler, '#')`:
   * splits at the first `#` only, so the action keeps any later `#`.
   */
  function SplitHandler(h: string): (r: Option<(string, string)>)
    ensures r.None? <==> '#' !in h
    ensures r.Some? ==> h == r.value.0 + "#" + r.value.1 && '#' !in r.value.0
  {
    match IndexOf(h, '#')
    case None => None
    case Some(i) =>
      assert h == h[..i] + "#" + h[i + 1..];
      Some((h[..i], h[i + 1..]))
  }

  /** The split is the only one whose controller token has no `#`. */
  lemma SplitHandlerUnique(h: string, token: string, action: string)
    requires h == token + "#" + action && '#' !in token
    ensures SplitHandler(h) == Some((token, action))
  {
    var i := IndexOf(h, '#').value;
    assert forall j :: 0 <= j < i ==> h[..i][j] == h[j] != '#';
    assert forall j :: 0 <= j < |token| ==> h[j] == token[j] != '#';
    assert h[|token|] == '#';
    assert i == |token|;
    assert h[..i] == token;
    assert h[i + 1..] == action;
  }

  predicate IsLowerAscii(c: char)
  {
    'a' <= c <= 'z'
  }

  /** PHP's `ucfirst`: the first byte upper-cased when it is an ASCII lower-case letter. */
  function Ucfirst(s: string): (r: string)
    ensures |r| == |s|
    ensures s != [] ==> r[1..] == s[1..] && !IsLowerAscii(r[0])
    ensures s != [] && !IsLowerAscii(s[0]) ==> r == s
    ensures s != [] && IsLowerAscii(s[0]) ==> 'A' <= r[0] <= 'Z' && r[0] as int - 'A' as int == s[0] as int - 'a' as int
  {
    if s != [] && IsLowerAscii(s[0]) then [(s[0] as int - 32) as char] + s[1..] else s
  }

  /** Upper-casing the first character twice changes nothing more. */
  lemma UcfirstIdempotent(s: string)
    ensures Ucfirst(Ucfirst(s)) == Ucfirst(s)
  {
  }

  /** The controller identifier derived from a controller token (`posts` becomes `PostsController`). */
  function ControllerName(token: string): (name: string)
    ensures |name| == |token| + |ControllerSuffix|
    ensures name[|token|..] == ControllerSuffix
    ensures name[..|token|] == Ucfirst(token)
  {
    Ucfirst(token) + ControllerSuffix
  }
}
