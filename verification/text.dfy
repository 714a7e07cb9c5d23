// The few string functions of Go's library the credential file and the cache paths use.
module Strings {

  /** What Go's unicode.IsSpace counts as space. */
  predicate IsBlank(c: char) {
    || '\t' <= c <= '\r' || c == ' ' || c == '\U{85}' || c == '\U{A0}' || c == '\U{1680}'
    || '\U{2000}' <= c <= '\U{200A}' || c == '\U{2028}' || c == '\U{2029}' || c == '\U{202F}'
    || c == '\U{205F}' || c == '\U{3000}'
  }

  function TrimLeft(s: string): (r: string)
    ensures |r| <= |s| && (r == s <==> s == "" || !IsBlank(s[0]))
    ensures forall c :: c in r ==> c in s
  {
    if s != "" && IsBlank(s[0]) then TrimLeft(s[1..]) else s
  }

  function TrimRight(s: string): (r: string)
    ensures |r| <= |s| && (r == s <==> s == "" || !IsBlank(s[|s| - 1]))
    ensures forall c :: c in r ==> c in s
  {
    if s != "" && IsBlank(s[|s| - 1]) then TrimRight(s[..|s| - 1]) else s
  }

  function Trim(s: string): (r: string)
    ensures r == s <==> s == "" || (!IsBlank(s[0]) && !IsBlank(s[|s| - 1]))
    ensures forall c :: c in r ==> c in s
  {
    TrimRight(TrimLeft(s))
  }

  lemma {:induction false} TrimKeepsStart(l: string)
    requires l != "" && !IsBlank(l[0])
    ensures Trim(l) != "" && Trim(l)[0] == l[0]
    decreases |l|
  {
    assert TrimLeft(l) == l;
    if |l| > 1 && IsBlank(l[|l| - 1]) {
      TrimKeepsStart(l[..|l| - 1]);
      assert TrimLeft(l[..|l| - 1]) == l[..|l| - 1];
    }
  }

  /** Trimming leaves nothing to trim. */
  lemma TrimTwice(s: string)
    ensures Trim(Trim(s)) == Trim(s)
  {
    LeftTrimmed(s);
    RightTrimmed(TrimLeft(s));
  }

  lemma {:induction false} LeftTrimmed(s: string)
    ensures TrimLeft(s) == "" || !IsBlank(TrimLeft(s)[0])
  {
    if s != "" && IsBlank(s[0]) {
      LeftTrimmed(s[1..]);
    }
  }

  lemma {:induction false} RightTrimmed(s: string)
    requires s == "" || !IsBlank(s[0])
    ensures TrimRight(s) == "" || (!IsBlank(TrimRight(s)[|TrimRight(s)| - 1]) && !IsBlank(TrimRight(s)[0]))
  {
    if s != "" && IsBlank(s[|s| - 1]) && |s| > 1 {
      RightTrimmed(s[..|s| - 1]);
    }
  }

  /** Every occurrence of `pattern`, from the left and not overlapping, replaced. */
  function ReplaceAll(s: string, pattern: string, repl: string): string
    requires pattern != ""
    decreases |s|
  {
    if s == "" then ""
    else if pattern <= s then repl + ReplaceAll(s[|pattern|..], pattern, repl)
    else [s[0]] + ReplaceAll(s[1..], pattern, repl)
  }

  lemma ReplaceSkips(x: char, s: string, pattern: string, repl: string)
    requires pattern != "" && !(pattern <= [x] + s)
    ensures ReplaceAll([x] + s, pattern, repl) == [x] + ReplaceAll(s, pattern, repl)
  {
    assert ([x] + s)[1..] == s;
  }

  lemma ReplaceHits(s: string, pattern: string, repl: string)
    requires pattern != ""
    ensures ReplaceAll(pattern + s, pattern, repl) == repl + ReplaceAll(s, pattern, repl)
  {
    assert (pattern + s)[|pattern|..] == s && pattern <= pattern + s;
  }

  lemma StartsWithOne(p: string, s: string)
    requires |p| == 1
    ensures p <= s <==> s != "" && s[0] == p[0]
  {
    if s != "" {
      assert s[..1] == [s[0]] && p == [p[0]];
    }
  }

  lemma StartsWithTwo(p: string, s: string)
    requires |p| == 2
    ensures p <= s <==> |s| >= 2 && s[0] == p[0] && s[1] == p[1]
  {
    if |s| >= 2 {
      assert s[..2] == [s[0], s[1]] && p == [p[0], p[1]];
    }
  }
}
