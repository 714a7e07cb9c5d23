// The form a remote path is cached under: blanks trimmed, slashes collapsed, anchored,
// with no slash at the end.
module Paths {
  import opened Strings

  /** Every run of slashes made one. */
  function Collapsed(s: string): (r: string)
    ensures |r| <= |s| && (r == "" <==> s == "")
    ensures s != "" ==> r[0] == s[0] && r[|r| - 1] == s[|s| - 1]
    ensures forall i :: 0 < i < |r| ==> r[i - 1] != '/' || r[i] != '/'
  {
    if s == "" then ""
    else
      var r, c := Collapsed(s[..|s| - 1]), s[|s| - 1];
      if r != "" && r[|r| - 1] == '/' && c == '/' then r else r + [c]
  }

  predicate HasDouble(s: string) {
    exists i :: 0 < i < |s| && s[i - 1] == '/' && s[i] == '/'
  }

  /** Whether "//" occurs, looked for from the left as strings.Contains does. */
  method Contains(s: string) returns (found: bool)
    ensures found <==> HasDouble(s)
  {
    var i := 1;
    while i < |s|
      invariant i >= 1 && forall j :: 0 < j < i && j < |s| ==> s[j - 1] != '/' || s[j] != '/'
    {
      if s[i - 1] == '/' && s[i] == '/' {
        return true;
      }
      i := i + 1;
    }
    found := false;
  }

  lemma {:induction false} CollapsedFixed(s: string)
    requires !HasDouble(s)
    ensures Collapsed(s) == s
  {
    if s != "" {
      var rest := s[..|s| - 1];
      forall i | 0 < i < |rest| ensures rest[i - 1] != '/' || rest[i] != '/' {
        assert s[i - 1] != '/' || s[i] != '/';
      }
      CollapsedFixed(rest);
      assert rest != "" ==> s[|s| - 2] == rest[|rest| - 1];
      assert s == rest + [s[|s| - 1]];
    }
  }

  /** What follows sees of what comes before only its collapsed form. */
  lemma {:induction false} CollapsedPrefix(a: string, b: string, rest: string)
    requires Collapsed(a) == Collapsed(b)
    ensures Collapsed(a + rest) == Collapsed(b + rest)
    decreases |rest|
  {
    if rest == "" {
      assert a + rest == a && b + rest == b;
    } else {
      var front, c := rest[..|rest| - 1], rest[|rest| - 1];
      CollapsedPrefix(a, b, front);
      assert (a + rest)[..|a + rest| - 1] == a + front && (b + rest)[..|b + rest| - 1] == b + front;
      assert (a + rest)[|a + rest| - 1] == c && (b + rest)[|b + rest| - 1] == c;
    }
  }

  const DOUBLE := "//"
  const SINGLE := "/"

  lemma DoubleAtEnd(x: string)
    ensures Collapsed(x + DOUBLE) == Collapsed(x + SINGLE)
  {
    assert (x + DOUBLE)[..|x| + 1] == x + SINGLE;
    assert Collapsed(x + SINGLE)[|Collapsed(x + SINGLE)| - 1] == '/';
  }

  /** Replacing "//" by "/" once through does not change the collapsed form. */
  lemma {:induction false} ReplacedCollapses(x: string, s: string)
    ensures Collapsed(x + ReplaceAll(s, DOUBLE, SINGLE)) == Collapsed(x + s)
    decreases |s|
  {
    if s == "" {
    } else if DOUBLE <= s {
      var rest := s[2..];
      ReplacedCollapses(x + SINGLE, rest);
      HitCollapses(x, rest);
      assert s == DOUBLE + rest;
    } else {
      var rest := s[1..];
      ReplacedCollapses(x + [s[0]], rest);
      assert s == [s[0]] + rest;
      ReplaceSkips(s[0], rest, DOUBLE, SINGLE);
      Regrouped(x, [s[0]], rest);
      Regrouped(x, [s[0]], ReplaceAll(rest, DOUBLE, SINGLE));
    }
  }

  lemma Regrouped(a: string, b: string, c: string)
    ensures a + (b + c) == (a + b) + c
  {
  }

  lemma HitCollapses(x: string, rest: string)
    requires Collapsed((x + SINGLE) + ReplaceAll(rest, DOUBLE, SINGLE)) == Collapsed((x + SINGLE) + rest)
    ensures Collapsed(x + ReplaceAll(DOUBLE + rest, DOUBLE, SINGLE)) == Collapsed(x + (DOUBLE + rest))
  {
    ReplaceHits(rest, DOUBLE, SINGLE);
    Regrouped(x, SINGLE, ReplaceAll(rest, DOUBLE, SINGLE));
    DoubleAtEnd(x);
    CollapsedPrefix(x + DOUBLE, x + SINGLE, rest);
    Regrouped(x, DOUBLE, rest);
  }

  /** And shortens anything that had one. */
  lemma {:induction false} ReplacedShrinks(s: string)
    ensures |ReplaceAll(s, DOUBLE, SINGLE)| <= |s|
    ensures HasDouble(s) ==> |ReplaceAll(s, DOUBLE, SINGLE)| < |s|
    decreases |s|
  {
    if s != "" {
      StartsWithTwo(DOUBLE, s);
      if DOUBLE <= s {
        ReplacedShrinks(s[2..]);
      } else {
        ReplacedShrinks(s[1..]);
        if HasDouble(s) {
          var i :| 0 < i < |s| && s[i - 1] == '/' && s[i] == '/';
          assert i != 1;
          assert s[1..][i - 2] == '/' && s[1..][i - 1] == '/';
        }
      }
    }
  }

  /** The normal form. */
  function Normal(p: string): (n: string)
    ensures n != "" && n[0] == '/'
    ensures forall i :: 0 < i < |n| ==> n[i - 1] != '/' || n[i] != '/'
    ensures n == "/" || n[|n| - 1] != '/'
  {
    Anchored(Collapsed(Trim(p)))
  }

  /** A collapsed path without a final slash, and with a first one. */
  function Anchored(c: string): (n: string)
    requires forall i :: 0 < i < |c| ==> c[i - 1] != '/' || c[i] != '/'
    ensures n != "" && n[0] == '/'
    ensures forall i :: 0 < i < |n| ==> n[i - 1] != '/' || n[i] != '/'
    ensures n == "/" || n[|n| - 1] != '/'
    ensures n[|n| - 1] == if c == "" then '/' else if |c| > 1 && c[|c| - 1] == '/' then c[|c| - 2] else c[|c| - 1]
  {
    var d := if |c| > 1 && c[|c| - 1] == '/' then c[..|c| - 1] else c;
    if d == "" then "/" else if d[0] != '/' then "/" + d else d
  }

  method NormalisePath(path: string) returns (p: string)
    ensures p == Normal(path)
  {
    p := Trim(path);
    var double := Contains(p);
    while double
      invariant double <==> HasDouble(p)
      invariant Collapsed(p) == Collapsed(Trim(path))
      decreases |p|
    {
      ReplacedShrinks(p);
      ReplacedCollapses("", p);
      assert "" + p == p && "" + ReplaceAll(p, DOUBLE, SINGLE) == ReplaceAll(p, DOUBLE, SINGLE);
      p := ReplaceAll(p, DOUBLE, SINGLE);
      double := Contains(p);
    }
    CollapsedFixed(p);
    if |p| > 1 {
      if p[|p| - 1] == '/' {
        p := p[..|p| - 1];
      }
    }
    if p == "" {
      return "/";
    }
    if p[0] != '/' {
      p := "/" + p;
    }
  }

  /** The path, its outer blanks and final slashes gone, still ends in a blank. */
  predicate BlankBeforeSlash(p: string) {
    var u := WithoutSlashes(Trim(p));
    u != "" && IsBlank(u[|u| - 1])
  }

  function WithoutSlashes(s: string): string {
    if s != "" && s[|s| - 1] == '/' then WithoutSlashes(s[..|s| - 1]) else s
  }

  /** The last character of the normal form, but for the root. */
  lemma {:induction false} LastOfCollapsed(s: string)
    requires WithoutSlashes(s) != ""
    ensures var c := Collapsed(s); var u := WithoutSlashes(s);
            (if c[|c| - 1] == '/' then |c| > 1 && c[|c| - 2] == u[|u| - 1] else c[|c| - 1] == u[|u| - 1])
  {
    if s[|s| - 1] == '/' {
      LastOfCollapsed(s[..|s| - 1]);
    }
  }

  lemma {:induction false} OnlySlashes(s: string)
    requires WithoutSlashes(s) == ""
    ensures Collapsed(s) == "" || Collapsed(s) == "/"
  {
    if s != "" {
      OnlySlashes(s[..|s| - 1]);
    }
  }

  lemma LastOfNormal(p: string)
    ensures IsBlank(Normal(p)[|Normal(p)| - 1]) <==> BlankBeforeSlash(p)
  {
    var t := Trim(p);
    if WithoutSlashes(t) == "" {
      OnlySlashes(t);
    } else {
      LastOfCollapsed(t);
    }
  }

  /** Normalising again changes nothing, except where a blank stood before the slash that was cut off. */
  lemma IdempotentExactly(p: string)
    ensures Normal(Normal(p)) == Normal(p) <==> !BlankBeforeSlash(p)
  {
    var n := Normal(p);
    LastOfNormal(p);
    if BlankBeforeSlash(p) {
      TrimmedStart(n);
      var c := Collapsed(Trim(n));
      assert |c| <= |Trim(n)| < |n|;
    } else {
      assert Trim(n) == n;
      assert !HasDouble(n);
      CollapsedFixed(n);
    }
  }

  lemma TrimmedStart(n: string)
    requires n != "" && n[0] == '/' && IsBlank(n[|n| - 1])
    ensures Trim(n) != "" && Trim(n)[0] == '/' && |Trim(n)| < |n|
  {
    TrimKeepsStart(n);
    assert TrimLeft(n) == n;
  }

  /** A path it takes two passes to settle. */
  lemma TwoPasses()
    ensures Normal("x /") == "/x " && Normal("/x ") == "/x"
  {
    assert Trim("x /") == "x /";
    assert !HasDouble("x /");
    CollapsedFixed("x /");
    assert TrimLeft("/x ") == "/x ";
    assert "/x "[..2] == "/x";
    assert TrimRight("/x ") == TrimRight("/x") == "/x";
    assert !HasDouble("/x");
    CollapsedFixed("/x");
  }
}
