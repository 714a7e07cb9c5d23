// The fields inside the credential file, one KEY=VALUE line each: how they are quoted,
// written out in order, and read back.
module EnvFile {
  import opened Prelude
  import opened Order
  import opened Strings

  type Fields = map<string, string>

  // ------------------------------------------------------------ lines

  /** The pieces between newlines; always one more than there are newlines. */
  function Lines(s: string): (ls: seq<string>)
    ensures ls != [] && forall l :: l in ls ==> '\n' !in l
  {
    if s == "" then [""]
    else
      var rest := Lines(s[1..]);
      if s[0] == '\n' then [""] + rest else [[s[0]] + rest[0]] + rest[1..]
  }

  lemma {:induction false} LinesCons(l: string, rest: string)
    requires '\n' !in l
    ensures Lines(l + "\n" + rest) == [l] + Lines(rest)
    decreases |l|
  {
    var s := l + "\n" + rest;
    if l == "" {
      assert s[1..] == rest;
    } else {
      assert s[1..] == l[1..] + "\n" + rest;
      LinesCons(l[1..], rest);
      assert [l[0]] + l[1..] == l;
    }
  }

  function Unlines(ls: seq<string>): string {
    if ls == [] then "" else ls[0] + "\n" + Unlines(ls[1..])
  }

  /** Splitting what was joined gives the lines back, and the empty end. */
  lemma {:induction false} LinesOfUnlines(ls: seq<string>)
    requires forall l :: l in ls ==> '\n' !in l
    ensures Lines(Unlines(ls)) == ls + [""]
  {
    if ls != [] {
      LinesOfUnlines(ls[1..]);
      LinesCons(ls[0], Unlines(ls[1..]));
      assert ls == [ls[0]] + ls[1..];
    }
  }

  // ------------------------------------------------------------ quoting

  const BACKSLASH := "\\"
  const TWO_BACKSLASHES := "\\\\"
  const QUOTE := "\""
  const ESCAPED_QUOTE := "\\\""

  function EscapeQuoted(v: string): string {
    ReplaceAll(ReplaceAll(v, BACKSLASH, TWO_BACKSLASHES), QUOTE, ESCAPED_QUOTE)
  }

  function UnescapeQuoted(v: string): string {
    ReplaceAll(ReplaceAll(v, ESCAPED_QUOTE, QUOTE), TWO_BACKSLASHES, BACKSLASH)
  }

  function Doubled(v: string): string {
    ReplaceAll(v, BACKSLASH, TWO_BACKSLASHES)
  }

  /** What one character becomes. */
  function Escaped(x: char): string {
    if x == '\\' then TWO_BACKSLASHES else if x == '"' then ESCAPED_QUOTE else [x]
  }

  lemma DoubledCons(x: char, v: string)
    ensures Doubled([x] + v) == (if x == '\\' then TWO_BACKSLASHES else [x]) + Doubled(v)
  {
    var s := [x] + v;
    assert s[1..] == v && s[0] == x;
    StartsWithOne(BACKSLASH, s);
  }

  lemma EscapeCons(x: char, v: string)
    ensures EscapeQuoted([x] + v) == Escaped(x) + EscapeQuoted(v)
  {
    DoubledCons(x, v);
    var rest := Doubled(v);
    if x == '\\' {
      assert TWO_BACKSLASHES + rest == ['\\'] + (['\\'] + rest);
      StartsWithOne(QUOTE, ['\\'] + rest);
      ReplaceSkips('\\', rest, QUOTE, ESCAPED_QUOTE);
      StartsWithOne(QUOTE, ['\\'] + (['\\'] + rest));
      ReplaceSkips('\\', ['\\'] + rest, QUOTE, ESCAPED_QUOTE);
      assert ['\\'] + (['\\'] + EscapeQuoted(v)) == TWO_BACKSLASHES + EscapeQuoted(v);
    } else if x == '"' {
      assert [x] + rest == QUOTE + rest;
      ReplaceHits(rest, QUOTE, ESCAPED_QUOTE);
    } else {
      StartsWithOne(QUOTE, [x] + rest);
      ReplaceSkips(x, rest, QUOTE, ESCAPED_QUOTE);
    }
  }

  /** Undoing the quotes first leaves the doubled backslashes. */
  lemma {:induction false} QuotesUndone(v: string)
    ensures ReplaceAll(EscapeQuoted(v), ESCAPED_QUOTE, QUOTE) == Doubled(v)
    ensures EscapeQuoted(v) == "" || EscapeQuoted(v)[0] != '"'
  {
    if v != "" {
      var x, rest := v[0], v[1..];
      QuotesUndone(rest);
      assert v == [x] + rest;
      EscapeCons(x, rest);
      DoubledCons(x, rest);
      var e := EscapeQuoted(rest);
      if x == '\\' {
        assert TWO_BACKSLASHES + e == ['\\'] + (['\\'] + e);
        StartsWithTwo(ESCAPED_QUOTE, ['\\'] + e);
        ReplaceSkips('\\', e, ESCAPED_QUOTE, QUOTE);
        StartsWithTwo(ESCAPED_QUOTE, ['\\'] + (['\\'] + e));
        ReplaceSkips('\\', ['\\'] + e, ESCAPED_QUOTE, QUOTE);
        assert ['\\'] + (['\\'] + Doubled(rest)) == TWO_BACKSLASHES + Doubled(rest);
      } else if x == '"' {
        ReplaceHits(e, ESCAPED_QUOTE, QUOTE);
        assert QUOTE + Doubled(rest) == [x] + Doubled(rest);
      } else {
        StartsWithTwo(ESCAPED_QUOTE, [x] + e);
        ReplaceSkips(x, e, ESCAPED_QUOTE, QUOTE);
      }
    }
  }

  lemma {:induction false} DoublesUndone(v: string)
    ensures ReplaceAll(Doubled(v), TWO_BACKSLASHES, BACKSLASH) == v
  {
    if v != "" {
      var x, rest := v[0], v[1..];
      DoublesUndone(rest);
      assert v == [x] + rest;
      DoubledCons(x, rest);
      if x == '\\' {
        ReplaceHits(Doubled(rest), TWO_BACKSLASHES, BACKSLASH);
        assert BACKSLASH + rest == [x] + rest;
      } else {
        StartsWithTwo(TWO_BACKSLASHES, [x] + Doubled(rest));
        ReplaceSkips(x, Doubled(rest), TWO_BACKSLASHES, BACKSLASH);
      }
    }
  }

  /** Unescaping undoes escaping, for every string. */
  lemma EscapeRoundTrip(v: string)
    ensures UnescapeQuoted(EscapeQuoted(v)) == v
  {
    QuotesUndone(v);
    DoublesUndone(v);
  }

  lemma {:induction false} EscapeKeepsChars(v: string)
    ensures forall c :: c in EscapeQuoted(v) ==> c in v || c == '\\'
  {
    if v != "" {
      EscapeKeepsChars(v[1..]);
      assert v == [v[0]] + v[1..];
      EscapeCons(v[0], v[1..]);
    }
  }

  /** A character that cannot stand in an unquoted value. */
  predicate Awkward(c: char) {
    IsBlank(c) || c < '\U{20}' || c in " \t\"'#=\\"
  }

  predicate NeedsQuote(v: string) {
    v == "" || v != Trim(v) || exists c :: c in v && Awkward(c)
  }

  function Shown(v: string): string {
    if NeedsQuote(v) then "\"" + EscapeQuoted(v) + "\"" else v
  }

  /** What a value stands for once its quotes, if any, are taken off. */
  function Unquoted(v: string): string {
    if |v| >= 2 && v[0] == '"' && v[|v| - 1] == '"' then UnescapeQuoted(v[1..|v| - 1])
    else if |v| >= 2 && v[0] == '\'' && v[|v| - 1] == '\'' then v[1..|v| - 1]
    else v
  }

  // ------------------------------------------------------------ one line

  function Index(s: string, c: char): (i: nat)
    ensures i <= |s| && (i < |s| ==> s[i] == c) && c !in s[..i]
  {
    if s == "" || s[0] == c then 0 else 1 + Index(s[1..], c)
  }

  const EXPORT := "export "

  /** The field a trimmed line holds, if it holds one. */
  function FieldOf(t: string): Option<(string, string)> {
    if t == "" || t[0] == '#' then None
    else
      var u := if EXPORT <= t then t[|EXPORT|..] else t;
      var i := Index(u, '=');
      if i == |u| then None
      else
        var k, v := Trim(u[..i]), Unquoted(Trim(u[i + 1..]));
        if k != "" && v != "" then Some((k, v)) else None
  }

  function ParseLine(line: string, fields: Fields): Fields {
    var field := FieldOf(Trim(line));
    if field.Some? then fields[field.value.0 := field.value.1] else fields
  }

  predicate WellFormedKey(k: string) {
    k != "" && Trim(k) == k && '=' !in k && '\n' !in k && k[0] != '#' && !(EXPORT <= k)
  }

  predicate Storable(v: string) {
    v != "" && '\n' !in v
  }

  /** Fields that come back as they were. */
  predicate WellFormed(fields: Fields) {
    forall k :: k in fields ==> WellFormedKey(k) && Storable(fields[k])
  }

  function LineOf(k: string, v: string): string {
    k + "=" + Shown(v)
  }

  lemma ShownComesBack(v: string)
    requires Storable(v)
    ensures Unquoted(Shown(v)) == v && Shown(v) != "" && '\n' !in Shown(v) && Trim(Shown(v)) == Shown(v)
  {
    var s := Shown(v);
    if NeedsQuote(v) {
      EscapeRoundTrip(v);
      EscapeKeepsChars(v);
      assert s[1..|s| - 1] == EscapeQuoted(v);
    } else {
      assert s[0] in v;
      assert !Awkward(s[0]);
    }
  }

  /** A line written for a field reads as that field. */
  lemma LineParses(k: string, v: string, fields: Fields)
    requires WellFormedKey(k) && Storable(v)
    ensures ParseLine(LineOf(k, v), fields) == fields[k := v]
    ensures '\n' !in LineOf(k, v)
  {
    ShownComesBack(v);
    var line := LineOf(k, v);
    assert line[0] == k[0] && line[|line| - 1] == Shown(v)[|Shown(v)| - 1];
    assert Trim(line) == line;
    NotExported(k, Shown(v));
    IndexAt(k, Shown(v));
    assert line[..|k|] == k && line[|k| + 1..] == Shown(v);
  }

  lemma NotExported(k: string, rest: string)
    requires WellFormedKey(k)
    ensures !(EXPORT <= k + "=" + rest)
  {
    var line := k + "=" + rest;
    if |k| < |EXPORT| {
      assert forall i :: 0 <= i < |EXPORT| ==> EXPORT[i] != '=';
      Differ(EXPORT, line, |k|);
    } else {
      assert line == k + ("=" + rest);
      PrefixOfFirst(EXPORT, k, "=" + rest);
    }
  }

  lemma Differ(p: string, s: string, i: nat)
    requires i < |p| && i < |s| && p[i] != s[i]
    ensures !(p <= s)
  {
  }

  lemma PrefixOfFirst(p: string, a: string, b: string)
    requires |p| <= |a|
    ensures p <= a + b <==> p <= a
  {
    assert (a + b)[..|p|] == a[..|p|];
  }

  lemma {:induction false} IndexAt(k: string, rest: string)
    requires '=' !in k
    ensures Index(k + "=" + rest, '=') == |k|
    decreases |k|
  {
    if k != "" {
      assert (k + "=" + rest)[1..] == k[1..] + "=" + rest;
      IndexAt(k[1..], rest);
    }
  }

  // ------------------------------------------------------------ the document

  /** Reads line by line. */
  function Fold(parse: (string, Fields) -> Fields, ls: seq<string>, fields: Fields): Fields {
    if ls == [] then fields else Fold(parse, ls[1..], parse(ls[0], fields))
  }

  function Parsed(text: string): Fields {
    Fold(ParseLine, Lines(text), map[])
  }

  function LinesFor(fields: Fields, keys: seq<string>): seq<string>
    requires forall k :: k in keys ==> k in fields
  {
    seq(|keys|, i requires 0 <= i < |keys| => LineOf(keys[i], fields[keys[i]]))
  }

  /** The fields in sorted order, a line each. */
  ghost function Rendered(fields: Fields): string {
    Unlines(LinesFor(fields, Sorted(fields.Keys)))
  }

  /** Lines that each file one field file them all, and the empty end changes nothing. */
  lemma {:induction false} FoldFiles(parse: (string, Fields) -> Fields, ls: seq<string>, keys: seq<string>, fields: Fields, acc: Fields)
    requires |ls| == |keys| && forall k :: k in keys ==> k in fields
    requires forall i, a {:trigger parse(ls[i], a)} :: 0 <= i < |ls| ==> parse(ls[i], a) == a[keys[i] := fields[keys[i]]]
    requires forall a :: parse("", a) == a
    ensures Fold(parse, ls + [""], acc) == acc + (map k | k in keys :: fields[k])
    decreases |ls|
  {
    var all := ls + [""];
    if ls == [] {
      assert all == [""] && all[1..] == [];
      assert Fold(parse, [], acc) == acc;
    } else {
      var k := keys[0];
      assert parse(ls[0], acc) == acc[k := fields[k]];
      assert all[1..] == ls[1..] + [""];
      forall i, a | 0 <= i < |ls[1..]| ensures parse(ls[1..][i], a) == a[keys[1..][i] := fields[keys[1..][i]]] {
        assert parse(ls[i + 1], a) == a[keys[i + 1] := fields[keys[i + 1]]];
      }
      FoldFiles(parse, ls[1..], keys[1..], fields, acc[k := fields[k]]);
      FiledOneByOne(keys, fields, acc);
    }
  }

  lemma FiledOneByOne(keys: seq<string>, fields: Fields, acc: Fields)
    requires keys != [] && forall k :: k in keys ==> k in fields
    ensures acc[keys[0] := fields[keys[0]]] + (map j | j in keys[1..] :: fields[j]) == acc + (map j | j in keys :: fields[j])
  {
    assert keys == [keys[0]] + keys[1..];
  }

  /** Whether every line files its field, and no other. */
  ghost predicate EachFiles(ls: seq<string>, keys: seq<string>, fields: Fields)
    requires |ls| == |keys| && forall k :: k in keys ==> k in fields
  {
    forall i, a :: 0 <= i < |ls| ==> Files(ls[i], keys[i], fields[keys[i]], a)
  }

  predicate Files(line: string, k: string, v: string, fields: Fields) {
    ParseLine(line, fields) == fields[k := v]
  }

  lemma FilesAll(ls: seq<string>, keys: seq<string>, fields: Fields)
    requires |ls| == |keys| && (forall k :: k in keys ==> k in fields) && EachFiles(ls, keys, fields)
    ensures Fold(ParseLine, ls + [""], map[]) == map k | k in keys :: fields[k]
  {
    var parse := ParseLine;
    forall i, a | 0 <= i < |ls| ensures parse(ls[i], a) == a[keys[i] := fields[keys[i]]] {
      assert Files(ls[i], keys[i], fields[keys[i]], a);
    }
    forall a ensures parse("", a) == a { EmptyLine(a); }
    FoldFiles(parse, ls, keys, fields, map[]);
    assert map[] + (map k | k in keys :: fields[k]) == map k | k in keys :: fields[k];
  }

  lemma LinesFile(fields: Fields, keys: seq<string>)
    requires WellFormed(fields) && forall k :: k in keys ==> k in fields
    ensures EachFiles(LinesFor(fields, keys), keys, fields)
    ensures forall l :: l in LinesFor(fields, keys) ==> '\n' !in l
  {
    var ls := LinesFor(fields, keys);
    forall i, a | 0 <= i < |ls| ensures Files(ls[i], keys[i], fields[keys[i]], a) {
      LineAt(fields, keys, i, a);
    }
    forall l | l in ls ensures '\n' !in l {
      var i :| 0 <= i < |ls| && ls[i] == l;
      LineAt(fields, keys, i, map[]);
    }
  }

  lemma LineAt(fields: Fields, keys: seq<string>, i: nat, acc: Fields)
    requires WellFormed(fields) && (forall k :: k in keys ==> k in fields) && i < |keys|
    ensures ParseLine(LinesFor(fields, keys)[i], acc) == acc[keys[i] := fields[keys[i]]]
    ensures '\n' !in LinesFor(fields, keys)[i]
  {
    assert keys[i] in fields;
    LineParses(keys[i], fields[keys[i]], acc);
  }

  lemma EmptyLine(fields: Fields)
    ensures ParseLine("", fields) == fields
  {
    assert Trim("") == "";
  }

  /** Reading back what was written gives the same fields. */
  lemma RenderRoundTrip(fields: Fields)
    requires WellFormed(fields)
    ensures Parsed(Rendered(fields)) == fields
  {
    var keys := Sorted(fields.Keys);
    LinesFile(fields, keys);
    FilesAll(LinesFor(fields, keys), keys, fields);
    LinesOfUnlines(LinesFor(fields, keys));
    assert (map k | k in keys :: fields[k]) == fields;
  }

  lemma {:induction false} ReplaceAddsNothing(s: string, pattern: string, repl: string)
    requires pattern != "" && '\n' !in s && '\n' !in repl
    ensures '\n' !in ReplaceAll(s, pattern, repl)
    decreases |s|
  {
    if s != "" {
      ReplaceAddsNothing(if pattern <= s then s[|pattern|..] else s[1..], pattern, repl);
    }
  }

  predicate AllStorable(fields: Fields) {
    forall k :: k in fields ==> Storable(fields[k])
  }

  lemma {:induction false} FoldKeeps(parse: (string, Fields) -> Fields, ls: seq<string>, fields: Fields)
    requires AllStorable(fields)
    requires forall i, a {:trigger parse(ls[i], a)} :: 0 <= i < |ls| && AllStorable(a) ==> AllStorable(parse(ls[i], a))
    ensures AllStorable(Fold(parse, ls, fields))
  {
    if ls != [] {
      assert AllStorable(parse(ls[0], fields));
      forall i, a | 0 <= i < |ls[1..]| && AllStorable(a) ensures AllStorable(parse(ls[1..][i], a)) {
        assert AllStorable(parse(ls[i + 1], a));
      }
      FoldKeeps(parse, ls[1..], parse(ls[0], fields));
    }
  }

  lemma UnquotedAddsNothing(v: string)
    requires '\n' !in v
    ensures '\n' !in Unquoted(v)
  {
    if |v| >= 2 {
      ReplaceAddsNothing(v[1..|v| - 1], ESCAPED_QUOTE, QUOTE);
      ReplaceAddsNothing(ReplaceAll(v[1..|v| - 1], ESCAPED_QUOTE, QUOTE), TWO_BACKSLASHES, BACKSLASH);
    }
  }

  lemma ParsedValue(line: string, fields: Fields)
    requires '\n' !in line && AllStorable(fields)
    ensures AllStorable(ParseLine(line, fields))
  {
    FieldIsStorable(Trim(line));
  }

  lemma FieldIsStorable(t: string)
    requires '\n' !in t
    ensures FieldOf(t).Some? ==> Storable(FieldOf(t).value.1)
  {
    if t != "" && t[0] != '#' {
      var u := if EXPORT <= t then t[|EXPORT|..] else t;
      assert forall c :: c in u ==> c in t;
      var i := Index(u, '=');
      if i < |u| {
        assert forall c :: c in u[i + 1..] ==> c in u;
        UnquotedAddsNothing(Trim(u[i + 1..]));
      }
    }
  }

  /** With well-formed keys, fields come back exactly when no value is empty or holds a newline. */
  lemma RoundTripExactly(fields: Fields)
    requires forall k :: k in fields ==> WellFormedKey(k)
    ensures Parsed(Rendered(fields)) == fields <==> forall k :: k in fields ==> Storable(fields[k])
  {
    if forall k :: k in fields ==> Storable(fields[k]) {
      RenderRoundTrip(fields);
    }
    if Parsed(Rendered(fields)) == fields {
      var ls := Lines(Rendered(fields));
      forall i, a | 0 <= i < |ls| && AllStorable(a) ensures AllStorable(ParseLine(ls[i], a)) {
        assert ls[i] in ls;
        ParsedValue(ls[i], a);
      }
      FoldKeeps(ParseLine, ls, map[]);
    }
  }

  // ------------------------------------------------------------ the loops

  method ParseEnv(text: string) returns (fields: Fields)
    ensures fields == Parsed(text)
  {
    fields := map[];
    var ls := Lines(text);
    for i := 0 to |ls|
      invariant Fold(ParseLine, ls[i..], fields) == Parsed(text)
    {
      assert ls[i..][1..] == ls[i + 1..];
      fields := ParseLine(ls[i], fields);
    }
  }

  /** The keys in the order they are written. */
  method SortKeys(keys: set<string>) returns (sorted: seq<string>)
    ensures sorted == Sorted(keys)
  {
    sorted := [];
    var left := keys;
    while left != {}
      invariant sorted + Sorted(left) == Sorted(keys)
      decreases left
    {
      var k := Least(left);
      SortedOn(sorted, left, k);
      sorted := sorted + [k];
      left := left - {k};
    }
    assert sorted + [] == sorted;
  }

  method Least(keys: set<string>) returns (k: string)
    requires keys != {}
    ensures IsLeast(k, keys)
  {
    k :| k in keys;
    LeTotal(k, k);
    var todo := keys - {k};
    while todo != {}
      invariant todo <= keys && k in keys
      invariant forall j :: j in keys - todo ==> Le(k, j)
      decreases todo
    {
      var j :| j in todo;
      todo := todo - {j};
      LeTotal(k, j);
      if !Le(k, j) {
        forall i | i in keys - todo ensures Le(j, i) {
          LeTotal(j, j);
          if i != j {
            LeTransitive(j, k, i);
          }
        }
        k := j;
      }
    }
  }

  lemma SortedBegins(keys: set<string>, k: string)
    requires IsLeast(k, keys)
    ensures Sorted(keys) == [k] + Sorted(keys - {k})
  {
    var s := Sorted(keys);
    var j :| IsLeast(j, keys) && s == [j] + Sorted(keys - {j});
    LeAntisymmetric(j, k);
  }

  lemma SortedOn(sorted: seq<string>, left: set<string>, k: string)
    requires IsLeast(k, left)
    ensures sorted + Sorted(left) == (sorted + [k]) + Sorted(left - {k})
  {
    SortedBegins(left, k);
    assert sorted + ([k] + Sorted(left - {k})) == (sorted + [k]) + Sorted(left - {k});
  }

  lemma RenderedOn(text: string, ls: seq<string>, i: nat)
    requires i < |ls|
    ensures text + Unlines(ls[i..]) == (text + (ls[i] + "\n")) + Unlines(ls[i + 1..])
  {
    assert ls[i..][1..] == ls[i + 1..] && ls[i..][0] == ls[i];
    assert text + ((ls[i] + "\n") + Unlines(ls[i + 1..])) == (text + (ls[i] + "\n")) + Unlines(ls[i + 1..]);
  }

  method RenderEnv(fields: Fields) returns (text: string)
    ensures text == Rendered(fields)
  {
    var keys := SortKeys(fields.Keys);
    ghost var ls := LinesFor(fields, keys);
    text := "";
    for i := 0 to |keys|
      invariant text + Unlines(ls[i..]) == Unlines(ls)
    {
      RenderedOn(text, ls, i);
      text := text + (LineOf(keys[i], fields[keys[i]]) + "\n");
    }
    assert text + "" == text;
  }
}
