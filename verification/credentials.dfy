// The credential file: a comment header, a key line, and the fields sealed with that key.
// What is written reads back as the same fields, with a checksum that matches.
module Credentials {
  import opened Prelude
  import opened Octets
  import opened EnvFile
  import opened Strings
  import Base64
  import Envelope

  const CHECKSUM := "ODB_CHECKSUM"

  datatype ReadError = NoCredentials | NotOurs | Damaged

  /** Text as octets, and back. */
  datatype Coding = Coding(encode: string -> seq<octet>, decode: seq<octet> -> string)

  /** What reading and writing rest on: the cipher suite, the text coding, and a digest in hex. */
  datatype Platform = Platform(suite: Envelope.Suite, coding: Coding, digest: string -> string)

  ghost predicate Works(p: Platform) {
    && Envelope.Works(p.suite)
    && (forall s {:trigger p.coding.encode(s)} :: p.coding.decode(p.coding.encode(s)) == s)
    && (forall s {:trigger p.digest(s)} :: Storable(p.digest(s)))
  }

  // ------------------------------------------------------------ the layout of the file

  /** A line that splitting neither trims nor drops. */
  predicate Plain(line: string) {
    line != "" && Trim(line) == line && line[0] != '#' && '\n' !in line
  }

  predicate Comment(line: string) {
    line != "" && line[0] == '#' && '\n' !in line
  }

  /** The lines that count, trimmed: neither blank nor comments. */
  function Kept(ls: seq<string>): seq<string> {
    if ls == [] then []
    else
      var t := Trim(ls[0]);
      (if t == "" || t[0] == '#' then [] else [t]) + Kept(ls[1..])
  }

  /** The key line and the rest, or nothing of either. */
  function Split(raw: string): (string, string) {
    var kept := Kept(Lines(raw));
    if |kept| < 2 then ("", "") else (kept[0], Unlines(kept[1..]))
  }

  method SplitCredentialFile(raw: string) returns (key: string, sealed: string)
    ensures (key, sealed) == Split(raw)
  {
    var ls := Lines(raw);
    var kept: seq<string> := [];
    for i := 0 to |ls|
      invariant kept + Kept(ls[i..]) == Kept(ls)
    {
      assert ls[i..][1..] == ls[i + 1..] && ls[i..][0] == ls[i];
      var t := Trim(ls[i]);
      if t != "" && t[0] != '#' {
        assert kept + ([t] + Kept(ls[i + 1..])) == (kept + [t]) + Kept(ls[i + 1..]);
        kept := kept + [t];
      } else {
        assert [] + Kept(ls[i + 1..]) == Kept(ls[i + 1..]);
      }
    }
    assert kept + [] == kept;
    if |kept| < 2 {
      return "", "";
    }
    return kept[0], Unlines(kept[1..]);
  }

  function Document(header: seq<string>, key: string, sealed: string): string {
    Unlines(header) + (key + "\n") + sealed
  }

  lemma {:induction false} KeptAppend(a: seq<string>, b: seq<string>)
    ensures Kept(a + b) == Kept(a) + Kept(b)
  {
    if a == [] {
      assert a + b == b;
    } else {
      var rest := a[1..] + b;
      assert (a + b)[1..] == rest && (a + b)[0] == a[0];
      KeptAppend(a[1..], b);
      var t := Trim(a[0]);
      var first := if t == "" || t[0] == '#' then [] else [t];
      assert Kept(a + b) == first + Kept(rest);
      assert first + (Kept(a[1..]) + Kept(b)) == (first + Kept(a[1..])) + Kept(b);
    }
  }

  lemma {:induction false} CommentsDropped(ls: seq<string>)
    requires forall l :: l in ls ==> Comment(l)
    ensures Kept(ls) == []
  {
    if ls != [] {
      assert Comment(ls[0]);
      TrimKeepsStart(ls[0]);
      CommentsDropped(ls[1..]);
    }
  }

  lemma {:induction false} PlainKept(ls: seq<string>)
    requires forall l :: l in ls ==> Plain(l)
    ensures Kept(ls) == ls
  {
    if ls != [] {
      assert Plain(ls[0]);
      PlainKept(ls[1..]);
      assert ls == [ls[0]] + ls[1..];
    }
  }

  lemma {:induction false} UnlinesAppend(a: seq<string>, b: seq<string>)
    ensures Unlines(a + b) == Unlines(a) + Unlines(b)
  {
    if a == [] {
      assert a + b == b;
    } else {
      assert (a + b)[1..] == a[1..] + b && (a + b)[0] == a[0];
      UnlinesAppend(a[1..], b);
    }
  }

  /** Splitting a document gives back its key line and its sealed part. */
  lemma SplitDocument(header: seq<string>, key: string, body: seq<string>)
    requires (forall l :: l in header ==> Comment(l)) && Plain(key)
    requires body != [] && forall l :: l in body ==> Plain(l)
    ensures Split(Document(header, key, Unlines(body))) == (key, Unlines(body))
  {
    DocumentLines(header, key, body);
    DocumentKept(header, key, body);
    assert ([key] + body)[1..] == body;
  }

  lemma DocumentLines(header: seq<string>, key: string, body: seq<string>)
    requires (forall l :: l in header ==> Comment(l)) && Plain(key)
    requires forall l :: l in body ==> Plain(l)
    ensures Lines(Document(header, key, Unlines(body))) == header + ([key] + body) + [""]
  {
    var ls := header + ([key] + body);
    UnlinesAppend(header, [key] + body);
    UnlinesAppend([key], body);
    assert [key][1..] == [] && Unlines([key]) == key + "\n" + "" == key + "\n";
    assert Unlines(ls) == Unlines(header) + ((key + "\n") + Unlines(body)) == Document(header, key, Unlines(body));
    LinesOfUnlines(ls);
  }

  lemma DocumentKept(header: seq<string>, key: string, body: seq<string>)
    requires (forall l :: l in header ==> Comment(l)) && Plain(key)
    requires forall l :: l in body ==> Plain(l)
    ensures Kept(header + ([key] + body) + [""]) == [key] + body
  {
    KeptAppend(header, [key] + body);
    KeptAppend(header + ([key] + body), [""]);
    CommentsDropped(header);
    PlainKept([key] + body);
    NothingKept();
    assert [] + ([key] + body) + [] == [key] + body;
  }

  lemma NothingKept()
    ensures Kept([""]) == []
  {
    assert Trim("") == "" && [""][1..] == [];
  }

  /** The lines armour is made of. */
  function ArmourLines(s: string): (ls: seq<string>)
    requires s != ""
    ensures ls != [] && forall l :: l in ls ==> l != "" && forall c :: c in l ==> c in s
  {
    if |s| > Envelope.WIDTH then [s[..Envelope.WIDTH]] + ArmourLines(s[Envelope.WIDTH..]) else [s]
  }

  lemma {:induction false} WrappedIsLines(s: string)
    requires s != ""
    ensures Envelope.Wrapped(s) == Unlines(ArmourLines(s))
    decreases |s|
  {
    var ls := ArmourLines(s);
    if |s| > Envelope.WIDTH {
      WrappedIsLines(s[Envelope.WIDTH..]);
      assert ls[1..] == ArmourLines(s[Envelope.WIDTH..]);
    } else {
      assert ls[1..] == [] && s + "\n" + "" == s + "\n";
    }
  }

  lemma AlphabetIsPlain(l: string)
    requires l != "" && forall c :: c in l ==> Base64.InAlphabet(c)
    ensures Plain(l)
  {
    assert Base64.InAlphabet(l[0]) && Base64.InAlphabet(l[|l| - 1]);
    assert !Base64.InAlphabet('\n');
  }

  // ------------------------------------------------------------ writing and reading

  /** The checksum covers every field but itself. */
  ghost function ChecksumOf(p: Platform, fields: Fields): string {
    p.digest(Rendered(fields - {CHECKSUM}))
  }

  ghost function WithChecksum(p: Platform, fields: Fields): Fields {
    fields[CHECKSUM := ChecksumOf(p, fields)]
  }

  lemma ChecksumIgnoresItself(p: Platform, fields: Fields)
    ensures ChecksumOf(p, WithChecksum(p, fields)) == ChecksumOf(p, fields)
  {
    assert WithChecksum(p, fields) - {CHECKSUM} == fields - {CHECKSUM};
  }

  ghost function Written(p: Platform, header: seq<string>, key: string, salt: seq<octet>, fields: Fields): string
    requires Works(p) && |salt| == Envelope.SALT_LEN
  {
    var plain := p.coding.encode(Rendered(WithChecksum(p, fields)));
    Document(header, key, Envelope.Sealed(p.suite, plain, p.coding.encode(key), salt))
  }

  ghost function ReadBack(p: Platform, raw: string): Result<Fields, ReadError>
    requires Works(p)
  {
    var (key, sealed) := Split(raw);
    if key == "" || !Envelope.IsEncrypted(sealed) then Err(NotOurs)
    else
      var plain := Envelope.Opened(p.suite, sealed, p.coding.encode(key));
      if plain.Err? then Err(Damaged)
      else
        var fields := Parsed(p.coding.decode(plain.value));
        if CHECKSUM !in fields || fields[CHECKSUM] != ChecksumOf(p, fields) then Err(Damaged) else Ok(fields)
  }

  lemma ChecksumKey()
    ensures WellFormedKey(CHECKSUM)
  {
    assert CHECKSUM[0] == 'O' && EXPORT[0] == 'e';
    assert forall i :: 0 <= i < |CHECKSUM| ==> CHECKSUM[i] != '=' && CHECKSUM[i] != '\n';
    assert !IsBlank(CHECKSUM[0]) && !IsBlank(CHECKSUM[|CHECKSUM| - 1]);
  }

  /** Reading what was written gives the same fields, with a checksum that matches. */
  lemma ReadWritten(p: Platform, header: seq<string>, key: string, salt: seq<octet>, fields: Fields)
    requires Works(p) && |salt| == Envelope.SALT_LEN
    requires (forall l :: l in header ==> Comment(l)) && Plain(key) && WellFormed(fields)
    ensures ReadBack(p, Written(p, header, key, salt, fields)) == Ok(WithChecksum(p, fields))
  {
    var plain := p.coding.encode(Rendered(WithChecksum(p, fields)));
    var sealed := SealedOpens(p, header, key, salt, plain);
    ChecksummedComesBack(p, fields);
    ReadOpened(p, Document(header, key, sealed), key, sealed, plain);
  }

  lemma ChecksummedComesBack(p: Platform, fields: Fields)
    requires Works(p) && WellFormed(fields)
    ensures var full := WithChecksum(p, fields);
      && Parsed(p.coding.decode(p.coding.encode(Rendered(full)))) == full
      && CHECKSUM in full && full[CHECKSUM] == ChecksumOf(p, full)
  {
    var full := WithChecksum(p, fields);
    ChecksumKey();
    assert WellFormed(full);
    RenderRoundTrip(full);
    ChecksumIgnoresItself(p, fields);
  }

  lemma ReadOpened(p: Platform, raw: string, key: string, sealed: string, plain: seq<octet>)
    requires Works(p) && Split(raw) == (key, sealed) && key != ""
    requires Envelope.IsEncrypted(sealed) && Envelope.Opened(p.suite, sealed, p.coding.encode(key)) == Ok(plain)
    requires var fields := Parsed(p.coding.decode(plain)); CHECKSUM in fields && fields[CHECKSUM] == ChecksumOf(p, fields)
    ensures ReadBack(p, raw) == Ok(Parsed(p.coding.decode(plain)))
  {
  }

  lemma SealedOpens(p: Platform, header: seq<string>, key: string, salt: seq<octet>, plain: seq<octet>)
    returns (sealed: string)
    requires Works(p) && |salt| == Envelope.SALT_LEN
    requires (forall l :: l in header ==> Comment(l)) && Plain(key)
    ensures sealed == Envelope.Sealed(p.suite, plain, p.coding.encode(key), salt)
    ensures Split(Document(header, key, sealed)) == (key, sealed)
    ensures Envelope.IsEncrypted(sealed) && Envelope.Opened(p.suite, sealed, p.coding.encode(key)) == Ok(plain)
  {
    sealed := Envelope.Sealed(p.suite, plain, p.coding.encode(key), salt);
    SealedSplits(p, header, key, salt, plain);
    Envelope.OpenSealed(p.suite, plain, p.coding.encode(key), salt, sealed);
  }

  lemma SealedSplits(p: Platform, header: seq<string>, key: string, salt: seq<octet>, plain: seq<octet>)
    requires Works(p) && |salt| == Envelope.SALT_LEN
    requires (forall l :: l in header ==> Comment(l)) && Plain(key)
    ensures var sealed := Envelope.Sealed(p.suite, plain, p.coding.encode(key), salt);
            Split(Document(header, key, sealed)) == (key, sealed)
  {
    var raw := Envelope.Raw(p.suite, plain, p.coding.encode(key), salt);
    assert |raw| > 0;
    var text := Base64.Encode(raw);
    WrappedIsLines(text);
    forall l | l in ArmourLines(text) ensures Plain(l) {
      forall c | c in l ensures Base64.InAlphabet(c) {
        assert c in text;
        var i :| 0 <= i < |text| && text[i] == c;
      }
      AlphabetIsPlain(l);
    }
    SplitDocument(header, key, ArmourLines(text));
  }

  // ------------------------------------------------------------ the store

  class EnvStore {
    const platform: Platform
    const header: seq<string>
    /** The file on disk, and the key cached after the first read or write. */
    var file: Option<string>
    var key: string

    ghost predicate Valid()
      reads this
    {
      Works(platform) && (forall l :: l in header ==> Comment(l)) && (key == "" || Plain(key))
    }

    constructor (platform: Platform, header: seq<string>, file: Option<string>)
      requires Works(platform) && forall l :: l in header ==> Comment(l)
      ensures Valid() && this.platform == platform && this.header == header && this.file == file && key == ""
    {
      this.platform, this.header, this.file, key := platform, header, file, "";
    }

    method Checksum(fields: Fields) returns (sum: string)
      ensures sum == ChecksumOf(platform, fields)
    {
      var text := RenderEnv(fields - {CHECKSUM});
      sum := platform.digest(text);
    }

    /** Decrypts the file, insisting on the checksum. */
    method Read() returns (r: Result<Fields, ReadError>)
      requires Valid()
      modifies this`key
      ensures Valid()
      ensures r == if file.None? then Err(NoCredentials) else ReadBack(platform, file.value)
      ensures key == if r.Ok? then Split(file.value).0 else old(key)
      ensures r.Ok? ==> CHECKSUM in r.value && r.value[CHECKSUM] == ChecksumOf(platform, r.value)
    {
      if file.None? {
        return Err(NoCredentials);
      }
      var k, sealed := SplitCredentialFile(file.value);
      if k == "" || !Envelope.IsEncrypted(sealed) {
        return Err(NotOurs);
      }
      var plain := Envelope.Open(platform.suite, sealed, platform.coding.encode(k));
      if plain.Err? {
        return Err(Damaged);
      }
      var fields := ParseEnv(platform.coding.decode(plain.value));
      if CHECKSUM !in fields {
        return Err(Damaged);
      }
      var sum := Checksum(fields);
      if fields[CHECKSUM] != sum {
        return Err(Damaged);
      }
      SplitIsPlain(file.value);
      key := k;
      r := Ok(fields);
    }

    /** The text of a file that holds `fields`, sealed with `k`. */
    method Compose(fields: Fields, k: string, salt: seq<octet>) returns (doc: string)
      requires Valid() && |salt| == Envelope.SALT_LEN
      ensures doc == Written(platform, header, k, salt, fields)
    {
      var sum := Checksum(fields);
      var text := RenderEnv(fields[CHECKSUM := sum]);
      var sealed := Envelope.Seal(platform.suite, platform.coding.encode(text), platform.coding.encode(k), salt);
      doc := Document(header, k, sealed);
    }

    /** Replaces the file with one that holds `fields`; the next Read returns them. */
    method Write(fields: Fields, material: seq<octet>, salt: seq<octet>, renames: bool) returns (ok: bool)
      requires Valid() && |material| == 32 && |salt| == Envelope.SALT_LEN
      modifies this
      ensures Valid() && ok == renames
      ensures !ok ==> file == old(file) && key == old(key)
      ensures ok ==> key == (if old(key) == "" then Base64.Encode(material) else old(key))
      ensures ok ==> file == Some(Written(platform, header, key, salt, fields))
    {
      var k := key;
      if k == "" {
        k := Base64.Encode(material);
        EncodedIsPlain(material);
      }
      var doc := Compose(fields, k, salt);
      if !renames {
        return false;
      }
      file, key := Some(doc), k;
      ok := true;
    }
  }

  lemma EncodedIsPlain(material: seq<octet>)
    requires material != []
    ensures Plain(Base64.Encode(material))
  {
    var k := Base64.Encode(material);
    forall c | c in k ensures Base64.InAlphabet(c) {
      var i :| 0 <= i < |k| && k[i] == c;
    }
    AlphabetIsPlain(k);
  }

  lemma {:induction false} KeptIsPlain(ls: seq<string>)
    requires forall l :: l in ls ==> '\n' !in l
    ensures forall l :: l in Kept(ls) ==> Plain(l)
  {
    if ls != [] {
      TrimTwice(ls[0]);
      KeptIsPlain(ls[1..]);
    }
  }

  lemma SplitIsPlain(raw: string)
    ensures Split(raw).0 == "" || Plain(Split(raw).0)
  {
    KeptIsPlain(Lines(raw));
  }
}
