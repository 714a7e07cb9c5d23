// Standard base64 as section 4 of RFC 4648 defines it, padding included.
module Base64 {
  import opened Prelude
  import opened Octets

  type sextet = n: nat | n < 64

  function CharOf(x: sextet): char {
    if x < 26 then ('A' as nat + x) as char
    else if x < 52 then ('a' as nat + x - 26) as char
    else if x < 62 then ('0' as nat + x - 52) as char
    else if x == 62 then '+' else '/'
  }

  function ValueOf(c: char): Option<sextet> {
    if 'A' <= c <= 'Z' then Some(c as nat - 'A' as nat)
    else if 'a' <= c <= 'z' then Some(c as nat - 'a' as nat + 26)
    else if '0' <= c <= '9' then Some(c as nat - '0' as nat + 52)
    else if c == '+' then Some(62)
    else if c == '/' then Some(63)
    else None
  }

  lemma ValueOfChar(x: sextet)
    ensures ValueOf(CharOf(x)) == Some(x)
  {
  }

  /** The characters an encoding is made of. */
  predicate InAlphabet(c: char) {
    ValueOf(c).Some? || c == '='
  }

  function Encode(data: seq<octet>): (s: string)
    ensures |s| % 4 == 0 && |s| >= |data| && (s == "" <==> data == [])
    ensures forall i :: 0 <= i < |s| ==> InAlphabet(s[i])
    decreases |data|
  {
    if data == [] then ""
    else if |data| == 1 then
      [CharOf(data[0] / 4), CharOf(data[0] % 4 * 16), '=', '=']
    else if |data| == 2 then
      [CharOf(data[0] / 4), CharOf(data[0] % 4 * 16 + data[1] / 16), CharOf(data[1] % 16 * 4), '=']
    else
      Quad(data[0], data[1], data[2]) + Encode(data[3..])
  }

  function Quad(a: octet, b: octet, c: octet): (q: string)
    ensures |q| == 4 && forall i :: 0 <= i < 4 ==> ValueOf(q[i]).Some?
  {
    ValueOfChar(a / 4);
    ValueOfChar(a % 4 * 16 + b / 16);
    ValueOfChar(b % 16 * 4 + c / 64);
    ValueOfChar(c % 64);
    [CharOf(a / 4), CharOf(a % 4 * 16 + b / 16), CharOf(b % 16 * 4 + c / 64), CharOf(c % 64)]
  }

  /** The octets of one group of four; only the last group may be padded. */
  function Group(p: char, q: char, r: char, t: char, last: bool): Option<seq<octet>> {
    var w, x, y, z := ValueOf(p), ValueOf(q), ValueOf(r), ValueOf(t);
    if w.None? || x.None? then None
    else
      var a := w.value * 4 + x.value / 16;
      if r == '=' then (if last && t == '=' then Some([a]) else None)
      else if y.None? then None
      else
        var b := x.value % 16 * 16 + y.value / 4;
        if t == '=' then (if last then Some([a, b]) else None)
        else if z.None? then None
        else Some([a, b, y.value % 4 * 64 + z.value])
  }

  /** Decodes padded text; the unused low bits of a last group are not looked at. */
  function Decode(s: string): Option<seq<octet>>
    decreases |s|
  {
    if s == "" then Some([])
    else if |s| < 4 then None
    else
      var group, rest := Group(s[0], s[1], s[2], s[3], |s| == 4), Decode(s[4..]);
      if group.None? || rest.None? then None else Some(group.value + rest.value)
  }

  lemma FullGroup(a: octet, b: octet, c: octet, last: bool)
    ensures var q := Quad(a, b, c); Group(q[0], q[1], q[2], q[3], last) == Some([a, b, c])
  {
    ValueOfChar(a / 4);
    ValueOfChar(a % 4 * 16 + b / 16);
    ValueOfChar(b % 16 * 4 + c / 64);
    ValueOfChar(c % 64);
    Reassembled(a, b, c);
  }

  lemma PaddedGroups(a: octet, b: octet)
    ensures Group(CharOf(a / 4), CharOf(a % 4 * 16), '=', '=', true) == Some([a])
    ensures Group(CharOf(a / 4), CharOf(a % 4 * 16 + b / 16), CharOf(b % 16 * 4), '=', true) == Some([a, b])
  {
    ValueOfChar(a / 4);
    ValueOfChar(a % 4 * 16);
    ValueOfChar(a % 4 * 16 + b / 16);
    ValueOfChar(b % 16 * 4);
    Reassembled(a, b, 0);
    Reassembled(a, 0, 0);
  }

  lemma Reassembled(a: octet, b: octet, c: octet)
    ensures a / 4 * 4 + (a % 4 * 16 + b / 16) / 16 == a
    ensures (a % 4 * 16 + b / 16) % 16 * 16 + (b % 16 * 4 + c / 64) / 4 == b
    ensures (b % 16 * 4 + c / 64) % 4 * 64 + c % 64 == c
  {
  }

  lemma OneDecodes(a: octet)
    ensures Decode(Encode([a])) == Some([a])
  {
    PaddedGroups(a, a);
    var s := Encode([a]);
    assert s == [CharOf(a / 4), CharOf(a % 4 * 16), '=', '='] && s[4..] == "";
    assert [a] + [] == [a];
  }

  lemma TwoDecode(a: octet, b: octet)
    ensures Decode(Encode([a, b])) == Some([a, b])
  {
    PaddedGroups(a, b);
    var s := Encode([a, b]);
    assert s == [CharOf(a / 4), CharOf(a % 4 * 16 + b / 16), CharOf(b % 16 * 4), '='] && s[4..] == "";
    assert [a, b] + [] == [a, b];
  }

  lemma ThreeDecode(a: octet, b: octet, c: octet, rest: seq<octet>)
    requires Decode(Encode(rest)) == Some(rest)
    ensures Decode(Encode([a, b, c] + rest)) == Some([a, b, c] + rest)
  {
    FullGroup(a, b, c, rest == []);
    var data := [a, b, c] + rest;
    assert data[3..] == rest && data[0] == a && data[1] == b && data[2] == c;
    var q := Quad(a, b, c);
    var s := q + Encode(rest);
    assert Encode(data) == s && s[4..] == Encode(rest);
    assert s[0] == q[0] && s[1] == q[1] && s[2] == q[2] && s[3] == q[3];
  }

  /** Decoding what was encoded gives it back. */
  lemma {:induction false} RoundTrip(data: seq<octet>)
    ensures Decode(Encode(data)) == Some(data)
    decreases |data|
  {
    if |data| == 1 {
      OneDecodes(data[0]);
      assert data == [data[0]];
    } else if |data| == 2 {
      TwoDecode(data[0], data[1]);
      assert data == [data[0], data[1]];
    } else if |data| >= 3 {
      RoundTrip(data[3..]);
      ThreeDecode(data[0], data[1], data[2], data[3..]);
      assert data == [data[0], data[1], data[2]] + data[3..];
    }
  }
}
