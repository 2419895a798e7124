/** The string operations `_resolve_resource_name` relies on: Python's
    `s[:4]` slice and `str.lstrip('/')` / `str.rstrip('/')`, which remove
    EVERY leading (respectively trailing) slash, not just one. */
module Slashes {

  /** `s[:n]` in Python: a slice past the end is truncated, never an error. */
  function Head(s: string, n: nat): (r: string)
    ensures |r| == if n <= |s| then n else |s|
    ensures r <= s
  {
    if n <= |s| then s[..n] else s
  }

  /** True when the string consists of slashes only (the empty string included). */
  predicate AllSlashes(s: string)
  {
    forall i :: 0 <= i < |s| ==> s[i] == '/'
  }

  /** Neither the first nor the last character is a slash. */
  predicate NoEdgeSlash(s: string)
  {
    s == [] || (s[0] != '/' && s[|s| - 1] != '/')
  }

  /** `t` is a contiguous piece of `s` with only slashes on either side of it. */
  ghost predicate Framed(s: string, t: string)
  {
    exists i, j :: 0 <= i <= j <= |s| && t == s[i..j] && AllSlashes(s[..i]) && AllSlashes(s[j..])
  }

  /** `s.lstrip('/')`: the longest suffix of `s` that does not start with a slash. */
  function TrimLeading(s: string): (r: string)
    ensures |r| <= |s| && r == s[|s| - |r|..]
    ensures AllSlashes(s[..|s| - |r|])
    ensures r == [] || r[0] != '/'
  {
    if s != [] && s[0] == '/' then
      var r := TrimLeading(s[1..]);
      assert s[..|s| - |r|] == [s[0]] + s[1..][..|s| - 1 - |r|];
      r
    else
      s
  }

  /** `s.rstrip('/')`: the longest prefix of `s` that does not end with a slash. */
  function TrimTrailing(s: string): (r: string)
    ensures |r| <= |s| && r == s[..|r|]
    ensures AllSlashes(s[|r|..])
    ensures r == [] || r[|r| - 1] != '/'
  {
    if s != [] && s[|s| - 1] == '/' then
      var r := TrimTrailing(s[..|s| - 1]);
      assert s[|r|..] == s[..|s| - 1][|r|..] + [s[|s| - 1]];
      r
    else
      s
  }

  /** `s.rstrip('/').lstrip('/')`: all slashes go from both ends, the
      interior (slashes included) is kept as it is. */
  function Strip(s: string): (r: string)
    ensures NoEdgeSlash(r)
    ensures Framed(s, r)
  {
    var t := TrimTrailing(s);
    var r := TrimLeading(t);
    CutTrailingThenLeading(s, t, r);
    r
  }

  /** Cutting trailing slashes off `s` to get `t`, then leading slashes
      off `t` to get `r`, leaves `r` with no edge slash and framed in `s`. */
  lemma CutTrailingThenLeading(s: string, t: string, r: string)
    requires |t| <= |s| && t == s[..|t|] && AllSlashes(s[|t|..])
    requires t == [] || t[|t| - 1] != '/'
    requires |r| <= |t| && r == t[|t| - |r|..] && AllSlashes(t[..|t| - |r|])
    requires r == [] || r[0] != '/'
    ensures NoEdgeSlash(r) && Framed(s, r)
  {
    var i := |t| - |r|;
    assert r == s[i..|t|];
    assert s[..i] == t[..i];
    if r != [] {
      assert r[|r| - 1] == t[|t| - 1];
    }
  }

  /** What `lstrip` keeps is fixed: slashes followed by a piece that does
      not start with a slash lose exactly the slashes. */
  lemma {:induction false} TrimLeadingOf(a: string, p: string)
    requires AllSlashes(a)
    requires p == [] || p[0] != '/'
    ensures TrimLeading(a + p) == p
  {
    if a == [] {
      assert a + p == p;
    } else {
      assert (a + p)[0] == a[0];
      assert (a + p)[1..] == a[1..] + p;
      TrimLeadingOf(a[1..], p);
    }
  }

  /** What `rstrip` keeps is fixed: a piece that does not end with a
      slash followed by slashes loses exactly the slashes. */
  lemma {:induction false} TrimTrailingOf(p: string, b: string)
    requires AllSlashes(b)
    requires p == [] || p[|p| - 1] != '/'
    ensures TrimTrailing(p + b) == p
  {
    if b == [] {
      assert p + b == p;
    } else {
      var s := p + b;
      assert s[|s| - 1] == b[|b| - 1];
      assert s[..|s| - 1] == p + b[..|b| - 1];
      TrimTrailingOf(p, b[..|b| - 1]);
    }
  }

  /** Strip is characterised by its contract: whatever sits between two
      runs of slashes and has no slash at its edges is what Strip returns. */
  lemma StripUnique(a: string, t: string, b: string)
    requires AllSlashes(a) && AllSlashes(b) && NoEdgeSlash(t)
    ensures Strip(a + t + b) == t
  {
    if t == [] {
      assert a + t + b == a + b;
    } else {
      TrimTrailingOf(a + t, b);
      TrimLeadingOf(a, t);
    }
  }

  /** Stripping twice is stripping once. */
  lemma StripIdempotent(s: string)
    ensures Strip(Strip(s)) == Strip(s)
  {
    var t := Strip(s);
    assert [] + t + [] == t;
    StripUnique([], t, []);
  }

  /** Cutting leading slashes off `s` to get `u`, then trailing slashes
      off `u` to get `r`, leaves `r` between two runs of slashes. */
  lemma CutBothEnds(s: string, u: string, r: string) returns (a: string, b: string)
    requires |u| <= |s| && u == s[|s| - |u|..] && AllSlashes(s[..|s| - |u|])
    requires u == [] || u[0] != '/'
    requires |r| <= |u| && r == u[..|r|] && AllSlashes(u[|r|..])
    requires r == [] || r[|r| - 1] != '/'
    ensures AllSlashes(a) && AllSlashes(b) && NoEdgeSlash(r)
    ensures s == a + r + b
  {
    a, b := s[..|s| - |u|], u[|r|..];
    assert s == a + u;
    assert u == r + b;
  }

  /** `s.lstrip('/').rstrip('/')` gives the same string as
      `_resolve_resource_name`'s `s.rstrip('/').lstrip('/')`. */
  lemma StripOrderIrrelevant(s: string)
    ensures TrimTrailing(TrimLeading(s)) == Strip(s)
  {
    var u := TrimLeading(s);
    var r := TrimTrailing(u);
    var a, b := CutBothEnds(s, u, r);
    StripUnique(a, r, b);
  }

  /** Slashes in the middle of a name survive; every slash at either end goes. */
  lemma StripExample()
    ensures Strip("//tracks/123//") == "tracks/123"
  {
    assert "//tracks/123//" == "//" + "tracks/123" + "//";
    StripUnique("//", "tracks/123", "//");
  }
}
