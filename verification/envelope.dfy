// The encrypted envelope: PKCS#7 padding (section 6.3 of RFC 5652), cipher block chaining
// over an arbitrary block permutation, and base64 armour wrapped at 64 columns.
module Envelope {
  import opened Prelude
  import opened Octets
  import Base64

  const BLOCK: nat := 16
  const MAGIC: seq<octet> := [83, 97, 108, 116, 101, 100, 95, 95] // "Salted__"
  const SALT_LEN: nat := 8
  const KEY_LEN: nat := 32
  const WIDTH: nat := 64

  datatype Error = NotEncrypted | Truncated | WrongKey

  // ------------------------------------------------------------ padding

  function Repeat(b: octet, n: nat): (r: seq<octet>)
    ensures |r| == n && forall i :: 0 <= i < n ==> r[i] == b
  {
    seq(n, i => b)
  }

  /** Between 1 and 16 octets, up to a whole block, each holding the number added. */
  function Padded(data: seq<octet>): (r: seq<octet>)
    ensures |r| % BLOCK == 0 && |data| < |r| <= |data| + BLOCK
  {
    var n := BLOCK - |data| % BLOCK;
    data + Repeat(n, n)
  }

  /** `data` is `content` followed by 1 to 16 octets that each hold their number. */
  predicate IsPadded(data: seq<octet>, content: seq<octet>) {
    exists n | 0 < n <= BLOCK :: data == content + Repeat(n, n)
  }

  /** The content under the padding; anything that is not padded is taken for a wrong key. */
  method Unpad(data: seq<octet>) returns (r: Result<seq<octet>, Error>)
    ensures r == Unpadded(data)
  {
    if |data| == 0 {
      return Err(WrongKey);
    }
    var n := data[|data| - 1];
    if n == 0 || n > BLOCK || n > |data| {
      return Err(WrongKey);
    }
    var tail := data[|data| - n..];
    for i := 0 to |tail|
      invariant forall j :: 0 <= j < i ==> tail[j] == n
    {
      if tail[i] != n {
        return Err(WrongKey);
      }
    }
    assert tail == Repeat(n, n);
    r := Ok(data[..|data| - n]);
  }

  function Unpadded(data: seq<octet>): Result<seq<octet>, Error> {
    if data == [] then Err(WrongKey)
    else
      var n := data[|data| - 1];
      if n == 0 || n > BLOCK || n > |data| || data[|data| - n..] != Repeat(n, n) then Err(WrongKey)
      else Ok(data[..|data| - n])
  }

  /** Unpadding accepts exactly what is padded, and gives back exactly what was. */
  lemma UnpaddedExactly(data: seq<octet>, content: seq<octet>)
    ensures Unpadded(data) == Ok(content) <==> IsPadded(data, content)
  {
    if IsPadded(data, content) {
      var n :| 0 < n <= BLOCK && data == content + Repeat(n, n);
      assert data[|data| - 1] == n && data[|data| - n..] == Repeat(n, n) && data[..|data| - n] == content;
    }
    if Unpadded(data) == Ok(content) {
      var n := data[|data| - 1];
      assert data == data[..|data| - n] + data[|data| - n..];
    }
  }

  lemma PaddingRoundTrip(data: seq<octet>)
    ensures Unpadded(Padded(data)) == Ok(data)
  {
    var n := BLOCK - |data| % BLOCK;
    assert Padded(data) == data + Repeat(n, n);
    UnpaddedExactly(Padded(data), data);
  }

  // ------------------------------------------------------------ chaining

  /** A block cipher under one key: a permutation of blocks and its inverse. */
  datatype Cipher = Cipher(enc: seq<octet> -> seq<octet>, dec: seq<octet> -> seq<octet>)

  ghost predicate Permutes(c: Cipher) {
    && (forall x {:trigger c.enc(x)} :: |x| == BLOCK ==> |c.enc(x)| == BLOCK && c.dec(c.enc(x)) == x)
    && (forall y {:trigger c.dec(y)} :: |y| == BLOCK ==> |c.dec(y)| == BLOCK && c.enc(c.dec(y)) == y)
  }

  function CbcEncrypt(c: Cipher, iv: seq<octet>, plain: seq<octet>): (r: seq<octet>)
    requires Permutes(c) && |iv| == BLOCK && |plain| % BLOCK == 0
    ensures |r| == |plain|
    decreases |plain|
  {
    if plain == [] then []
    else
      var block := c.enc(XorAll(plain[..BLOCK], iv));
      block + CbcEncrypt(c, block, plain[BLOCK..])
  }

  function CbcDecrypt(c: Cipher, iv: seq<octet>, text: seq<octet>): (r: seq<octet>)
    requires Permutes(c) && |iv| == BLOCK && |text| % BLOCK == 0
    ensures |r| == |text|
    decreases |text|
  {
    if text == [] then []
    else XorAll(c.dec(text[..BLOCK]), iv) + CbcDecrypt(c, text[..BLOCK], text[BLOCK..])
  }

  /** Chaining over a permutation is undone by the inverse chaining. */
  lemma {:induction false} CbcRoundTrip(c: Cipher, iv: seq<octet>, plain: seq<octet>)
    requires Permutes(c) && |iv| == BLOCK && |plain| % BLOCK == 0
    ensures CbcDecrypt(c, iv, CbcEncrypt(c, iv, plain)) == plain
    decreases |plain|
  {
    if plain != [] {
      var mixed := XorAll(plain[..BLOCK], iv);
      var block := c.enc(mixed);
      var rest := CbcEncrypt(c, block, plain[BLOCK..]);
      var text := block + rest;
      assert text[..BLOCK] == block && text[BLOCK..] == rest;
      XorAllTwice(plain[..BLOCK], iv);
      CbcRoundTrip(c, block, plain[BLOCK..]);
      assert plain == plain[..BLOCK] + plain[BLOCK..];
    }
  }

  /** And the other way round, so no two texts decrypt to the same plaintext. */
  lemma {:induction false} CbcRoundTripBack(c: Cipher, iv: seq<octet>, text: seq<octet>)
    requires Permutes(c) && |iv| == BLOCK && |text| % BLOCK == 0
    ensures CbcEncrypt(c, iv, CbcDecrypt(c, iv, text)) == text
    decreases |text|
  {
    if text != [] {
      var block := text[..BLOCK];
      var mixed := XorAll(c.dec(block), iv);
      var rest := CbcDecrypt(c, block, text[BLOCK..]);
      assert (mixed + rest)[..BLOCK] == mixed && (mixed + rest)[BLOCK..] == rest;
      XorAllTwice(c.dec(block), iv);
      CbcRoundTripBack(c, block, text[BLOCK..]);
      assert text == block + text[BLOCK..];
    }
  }

  // ------------------------------------------------------------ armour

  predicate IsSpace(c: char) {
    c == '\n' || c == '\r' || c == ' ' || c == '\t'
  }

  function Stripped(s: string): (r: string)
    ensures forall i :: 0 <= i < |r| ==> !IsSpace(r[i])
  {
    if s == "" then "" else Stripped(s[..|s| - 1]) + (if IsSpace(s[|s| - 1]) then "" else [s[|s| - 1]])
  }

  method StripSpace(s: string) returns (r: string)
    ensures r == Stripped(s)
  {
    r := "";
    for i := 0 to |s|
      invariant r == Stripped(s[..i])
    {
      assert s[..i + 1][..i] == s[..i];
      if !IsSpace(s[i]) {
        r := r + [s[i]];
      }
    }
    assert s[..|s|] == s;
  }

  lemma {:induction false} StrippedAppend(a: string, b: string)
    ensures Stripped(a + b) == Stripped(a) + Stripped(b)
    decreases |b|
  {
    if b == "" {
      assert a + b == a;
    } else {
      assert (a + b)[..|a + b| - 1] == a + b[..|b| - 1];
      StrippedAppend(a, b[..|b| - 1]);
    }
  }

  lemma {:induction false} StrippedWithout(s: string)
    requires forall i :: 0 <= i < |s| ==> !IsSpace(s[i])
    ensures Stripped(s) == s
  {
    if s != "" {
      StrippedWithout(s[..|s| - 1]);
    }
  }

  /** Lines of 64 characters and a shorter last one, each ending in a newline. */
  function Wrapped(s: string): (r: string)
    ensures r != "" && r[|r| - 1] == '\n'
  {
    if |s| > WIDTH then s[..WIDTH] + "\n" + Wrapped(s[WIDTH..]) else s + "\n"
  }

  method Wrap(s: string) returns (out: string)
    ensures out == Wrapped(s)
  {
    out := "";
    var encoded := s;
    while |encoded| > WIDTH
      invariant out + Wrapped(encoded) == Wrapped(s)
    {
      var line := encoded[..WIDTH] + "\n";
      WrapsOn(out, line, Wrapped(encoded[WIDTH..]));
      out := out + line;
      encoded := encoded[WIDTH..];
    }
    out := out + (encoded + "\n");
  }

  lemma WrapsOn(out: string, line: string, rest: string)
    ensures (out + line) + rest == out + (line + rest)
  {
  }

  /** Wrapping adds nothing but line breaks. */
  lemma {:induction false} WrappedStrips(s: string)
    requires forall i :: 0 <= i < |s| ==> !IsSpace(s[i])
    ensures Stripped(Wrapped(s)) == s
    decreases |s|
  {
    assert Stripped("\n") == "" by { assert "\n"[..0] == ""; }
    if |s| > WIDTH {
      WrappedStrips(s[WIDTH..]);
      StrippedWithout(s[..WIDTH]);
      StrippedAppend(s[..WIDTH], "\n");
      StrippedAppend(s[..WIDTH] + "\n", Wrapped(s[WIDTH..]));
      assert s == s[..WIDTH] + s[WIDTH..];
    } else {
      StrippedWithout(s);
      StrippedAppend(s, "\n");
    }
  }

  // ------------------------------------------------------------ sealing and opening

  /** The key derivation and the cipher it keys. */
  datatype Suite = Suite(derive: (seq<octet>, seq<octet>) -> seq<octet>, cipher: seq<octet> -> Cipher)

  ghost predicate Works(s: Suite) {
    && (forall p, salt {:trigger s.derive(p, salt)} :: |s.derive(p, salt)| == KEY_LEN + BLOCK)
    && (forall k {:trigger s.cipher(k)} :: Permutes(s.cipher(k)))
  }

  /** What is armoured: the mark, the salt and the text. */
  function Raw(s: Suite, plain: seq<octet>, password: seq<octet>, salt: seq<octet>): (raw: seq<octet>)
    requires Works(s) && |salt| == SALT_LEN
  {
    var stream := s.derive(password, salt);
    MAGIC + salt + CbcEncrypt(s.cipher(stream[..KEY_LEN]), stream[KEY_LEN..], Padded(plain))
  }

  function Sealed(s: Suite, plain: seq<octet>, password: seq<octet>, salt: seq<octet>): (armoured: string)
    requires Works(s) && |salt| == SALT_LEN
  {
    Wrapped(Base64.Encode(Raw(s, plain, password, salt)))
  }

  function Opened(s: Suite, armoured: string, password: seq<octet>): Result<seq<octet>, Error>
    requires Works(s)
  {
    var decoded := Base64.Decode(Stripped(armoured));
    if decoded.None? || |decoded.value| < |MAGIC| + SALT_LEN || decoded.value[..|MAGIC|] != MAGIC then Err(NotEncrypted)
    else
      var raw := decoded.value;
      var salt, text := raw[|MAGIC|..|MAGIC| + SALT_LEN], raw[|MAGIC| + SALT_LEN..];
      if |text| == 0 || |text| % BLOCK != 0 then Err(Truncated)
      else
        var stream := s.derive(password, salt);
        Unpadded(CbcDecrypt(s.cipher(stream[..KEY_LEN]), stream[KEY_LEN..], text))
  }

  predicate IsEncrypted(content: string) {
    var raw := Base64.Decode(Stripped(content));
    raw.Some? && MAGIC <= raw.value
  }

  lemma ArmourRoundTrip(raw: seq<octet>)
    ensures Base64.Decode(Stripped(Wrapped(Base64.Encode(raw)))) == Some(raw)
  {
    var text := Base64.Encode(raw);
    forall i | 0 <= i < |text| ensures !IsSpace(text[i]) {
      assert Base64.InAlphabet(text[i]);
    }
    WrappedStrips(text);
    Base64.RoundTrip(raw);
  }

  /**
   * Opening what was sealed gives it back, with any line breaks and blanks added or taken
   * away on the way, and it is recognised as sealed.
   */
  lemma OpenSealed(s: Suite, plain: seq<octet>, password: seq<octet>, salt: seq<octet>, armoured: string)
    requires Works(s) && |salt| == SALT_LEN
    requires Stripped(armoured) == Stripped(Sealed(s, plain, password, salt))
    ensures IsEncrypted(armoured)
    ensures Opened(s, armoured, password) == Ok(plain)
  {
    var raw := Raw(s, plain, password, salt);
    ArmourRoundTrip(raw);
    var stream := s.derive(password, salt);
    var padded := Padded(plain);
    var text := CbcEncrypt(s.cipher(stream[..KEY_LEN]), stream[KEY_LEN..], padded);
    assert raw == MAGIC + salt + text;
    assert raw[..|MAGIC|] == MAGIC && raw[|MAGIC|..|MAGIC| + SALT_LEN] == salt && raw[|MAGIC| + SALT_LEN..] == text;
    CbcRoundTrip(s.cipher(stream[..KEY_LEN]), stream[KEY_LEN..], padded);
    PaddingRoundTrip(plain);
  }

  /** Encrypts and armours, line by line. */
  method Seal(s: Suite, plain: seq<octet>, password: seq<octet>, salt: seq<octet>) returns (armoured: string)
    requires Works(s) && |salt| == SALT_LEN
    ensures armoured == Sealed(s, plain, password, salt)
  {
    var stream := s.derive(password, salt);
    var key, iv := stream[..KEY_LEN], stream[KEY_LEN..];
    var text := CbcEncrypt(s.cipher(key), iv, Padded(plain));
    var raw := MAGIC + salt + text;
    armoured := Wrap(Base64.Encode(raw));
  }

  /** Takes the armour off and decrypts, or says why not. */
  method Open(s: Suite, armoured: string, password: seq<octet>) returns (r: Result<seq<octet>, Error>)
    requires Works(s)
    ensures r == Opened(s, armoured, password)
  {
    var bare := StripSpace(armoured);
    var decoded := Base64.Decode(bare);
    if decoded.None? {
      return Err(NotEncrypted);
    }
    var raw := decoded.value;
    if |raw| < |MAGIC| + SALT_LEN || raw[..|MAGIC|] != MAGIC {
      return Err(NotEncrypted);
    }
    var salt := raw[|MAGIC|..|MAGIC| + SALT_LEN];
    var text := raw[|MAGIC| + SALT_LEN..];
    if |text| == 0 || |text| % BLOCK != 0 {
      return Err(Truncated);
    }
    var stream := s.derive(password, salt);
    var padded := CbcDecrypt(s.cipher(stream[..KEY_LEN]), stream[KEY_LEN..], text);
    r := Unpad(padded);
  }
}
