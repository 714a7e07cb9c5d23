// The resume point in upstream's refusal of a chunk: how the client finds the number
// in the message, and that it finds the one upstream wrote.
module Offsets {
  import opened Prelude

  const MAX_INT64: nat := 0x7fff_ffff_ffff_ffff

  const MARK := "uploaded="

  predicate IsDigit(c: char) {
    '0' <= c <= '9'
  }

  function DigitValue(c: char): nat
    requires IsDigit(c)
  {
    c as nat - '0' as nat
  }

  function Digit(d: nat): (c: char)
    requires d < 10
    ensures IsDigit(c) && DigitValue(c) == d
  {
    ('0' as nat + d) as char
  }

  /** `n` in decimal. */
  function Decimal(n: nat): (s: string)
    ensures |s| > 0 && forall i :: 0 <= i < |s| ==> IsDigit(s[i])
  {
    if n < 10 then [Digit(n)] else Decimal(n / 10) + [Digit(n % 10)]
  }

  function Value(digits: string): nat
    requires forall i :: 0 <= i < |digits| ==> IsDigit(digits[i])
  {
    if digits == [] then 0 else Value(digits[..|digits| - 1]) * 10 + DigitValue(digits[|digits| - 1])
  }

  lemma {:induction false} ValueOfDecimal(n: nat)
    ensures Value(Decimal(n)) == n
  {
    if n >= 10 {
      ValueOfDecimal(n / 10);
      assert Decimal(n)[..|Decimal(n)| - 1] == Decimal(n / 10);
    } else {
      assert [Digit(n)][..0] == [];
      assert Value([]) == 0;
    }
  }

  /** The longest run of digits a string begins with. */
  function LeadingDigits(s: string): (d: string)
    ensures d <= s && forall i :: 0 <= i < |d| ==> IsDigit(d[i])
    ensures |d| < |s| ==> !IsDigit(s[|d|])
  {
    if s != [] && IsDigit(s[0]) then [s[0]] + LeadingDigits(s[1..]) else []
  }

  /** The first place where the mark is followed by a digit, and the digits there. */
  function FindNumber(msg: string): Option<string> {
    if msg == [] then None
    else if MARK <= msg && LeadingDigits(msg[|MARK|..]) != [] then Some(LeadingDigits(msg[|MARK|..]))
    else FindNumber(msg[1..])
  }

  /** The resume point in a message, if it holds one that fits. */
  function ServerOffset(msg: string): Option<nat> {
    var found := FindNumber(msg);
    if found.Some? && AllDigits(found.value) && Value(found.value) <= MAX_INT64 then Some(Value(found.value)) else None
  }

  predicate AllDigits(s: string) {
    forall i :: 0 <= i < |s| ==> IsDigit(s[i])
  }

  /** What upstream says about a chunk that does not continue where the last one stopped. */
  function Refusal(uploaded: nat, offset: nat): string {
    "Incorrect chunk offset: " + MARK + Decimal(uploaded) + ", chunk_offset=" + Decimal(offset)
  }

  /** The mark cannot begin inside `s`, whatever follows it. */
  predicate NoMark(s: string) {
    forall i :: 0 <= i < |s| && s[i] == MARK[0] ==> i + 1 < |s| && s[i + 1] != MARK[1]
  }

  lemma {:induction false} SkipsOver(prefix: string, rest: string)
    requires NoMark(prefix)
    ensures FindNumber(prefix + rest) == FindNumber(rest)
  {
    if prefix == [] {
      assert prefix + rest == rest;
    } else {
      assert (prefix + rest)[1..] == prefix[1..] + rest;
      assert (prefix + rest)[0] == MARK[0] ==> (prefix + rest)[1] != MARK[1];
      SkipsOver(prefix[1..], rest);
    }
  }

  lemma {:induction false} DigitsUpTo(d: string, rest: string)
    requires AllDigits(d) && (rest == [] || !IsDigit(rest[0]))
    ensures LeadingDigits(d + rest) == d
  {
    if d == [] {
      assert d + rest == rest;
    } else {
      assert (d + rest)[1..] == d[1..] + rest;
      DigitsUpTo(d[1..], rest);
    }
  }

  lemma FoundBetween(before: string, d: string, after: string)
    requires NoMark(before) && AllDigits(d) && d != [] && (after == [] || !IsDigit(after[0]))
    ensures FindNumber(before + (MARK + (d + after))) == Some(d)
  {
    var rest := MARK + (d + after);
    SkipsOver(before, rest);
    assert MARK <= rest && rest[|MARK|..] == d + after;
    DigitsUpTo(d, after);
  }

  /** The client reads back the number upstream wrote, whenever it fits in 64 bits. */
  lemma RefusalRoundTrip(uploaded: nat, offset: nat)
    ensures ServerOffset(Refusal(uploaded, offset)) == if uploaded <= MAX_INT64 then Some(uploaded) else None
  {
    var before := "Incorrect chunk offset: ";
    var after := ", chunk_offset=" + Decimal(offset);
    var d := Decimal(uploaded);
    assert Refusal(uploaded, offset) == before + (MARK + (d + after));
    assert after[0] == ',';
    FoundBetween(before, d, after);
    ValueOfDecimal(uploaded);
  }
}
