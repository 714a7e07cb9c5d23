// Resuming downloads: the local file's size is the resume offset, upstream may honour
// the range or send the whole file again, and a transfer may break anywhere.
module Downloads {
  import opened Prelude

  // ------------------------------------------------------------ the two ends

  /** A file open for writing at `pos`. A write may fail part of the way: `faults` says which do, and how far they get. */
  class LocalFile {
    const faults: nat -> Option<nat>
    var data: seq<byte>
    var pos: nat
    var writes: nat
    /** How many bytes the write that failed had put down; 0 if none has failed. */
    ghost var torn: nat
    ghost var failed: bool

    constructor (data: seq<byte>, pos: nat, faults: nat -> Option<nat>)
      ensures this.data == data && this.pos == pos && this.faults == faults && writes == 0 && torn == 0 && !failed
    {
      this.data, this.pos, this.faults, writes, torn, failed := data, pos, faults, 0, 0, false;
    }

    /** Writes at the current position; a gap before it reads as zeros. */
    method Write(bytes: seq<byte>) returns (n: nat, ok: bool)
      requires !failed
      modifies this
      ensures n <= |bytes| && (ok ==> n == |bytes|)
      ensures writes == old(writes) + 1 && ok == faults(old(writes)).None?
      ensures !ok ==> n == Least(|bytes|, faults(old(writes)).value)
      ensures failed == !ok && torn == (if ok then 0 else n)
      ensures data == Placed(old(data), old(pos), bytes[..n]) && pos == old(pos) + n
    {
      ok := faults(writes).None?;
      n := if ok then |bytes| else Least(|bytes|, faults(writes).value);
      data := Placed(data, pos, bytes[..n]);
      pos, writes := pos + n, writes + 1;
      torn, failed := if ok then 0 else n, !ok;
    }
  }

  function Least(a: nat, b: nat): nat {
    if a <= b then a else b
  }

  function Zeros(n: nat): (z: seq<byte>)
    ensures |z| == n && forall i :: 0 <= i < n ==> z[i] == 0
  {
    seq(n, i => 0)
  }

  /** A file after `bytes` were written at `at`. */
  function Placed(data: seq<byte>, at: nat, bytes: seq<byte>): seq<byte> {
    if bytes == [] then data
    else if at >= |data| then data + Zeros(at - |data|) + bytes
    else data[..at] + bytes + (if at + |bytes| < |data| then data[at + |bytes|..] else [])
  }

  datatype ReadEnd = More | Eof | Broken

  /** A response body: what arrives of it, and whether it ends cleanly. */
  class Body {
    const bytes: seq<byte>
    const clean: bool
    var pos: nat

    constructor (bytes: seq<byte>, clean: bool)
      ensures this.bytes == bytes && this.clean == clean && pos == 0
    {
      this.bytes, this.clean, pos := bytes, clean, 0;
    }

    predicate Valid()
      reads this
    {
      pos <= |bytes|
    }

    /** Delivers some bytes, at most `max`; the last ones may come with the end. */
    method Read(max: nat) returns (chunk: seq<byte>, end: ReadEnd)
      requires Valid() && max > 0
      modifies this`pos
      ensures Valid() && |chunk| <= max && pos == old(pos) + |chunk| && chunk == bytes[old(pos)..pos]
      ensures end == More ==> chunk != []
      ensures end != More ==> pos == |bytes| && (end == Eof <==> clean)
    {
      var n: int, together: bool := *, *;
      var left := |bytes| - pos;
      n := if 0 < n <= max && n <= left then n else if left < max then left else max;
      chunk := bytes[pos..pos + n];
      pos := pos + n;
      end := if pos == |bytes| && (n == 0 || together) then (if clean then Eof else Broken) else More;
    }
  }

  // ------------------------------------------------------------ copying

  const COPY_BUFFER: nat := 256 * 1024

  /**
   * Streams the rest of the body to the file. Reporting progress costs exactness: the
   * bytes a failing write put down are then not counted, while io.Copy counts them.
   * `grown` is how many bytes reached the file.
   */
  method CopyWithProgress(dst: LocalFile, src: Body, progress: bool) returns (written: nat, ok: bool, ghost grown: nat)
    requires src.Valid() && dst.pos >= |dst.data| && !dst.failed && dst.torn == 0
    modifies dst, src`pos
    ensures src.Valid() && old(src.pos) + grown <= |src.bytes|
    ensures dst.data == Placed(old(dst.data), old(dst.pos), src.bytes[old(src.pos)..old(src.pos) + grown])
    ensures grown == written + (if progress then dst.torn else 0)
    ensures ok ==> dst.torn == 0 && old(src.pos) + grown == |src.bytes|
    ensures ok <==> src.clean && !dst.failed
    ensures old(src.pos) < |src.bytes| && dst.faults(old(dst.writes)).Some? ==>
              && dst.failed && written == (if progress then 0 else dst.torn)
              && (dst.faults(old(dst.writes)).value > 0 ==> dst.torn > 0)
  {
    written := 0;
    while true
      invariant src.Valid() && !dst.failed && dst.torn == 0 && src.pos == old(src.pos) + written
      invariant Copied(dst.data, dst.pos, old(dst.data), old(dst.pos), src.bytes, old(src.pos), src.pos)
      invariant if dst.writes == old(dst.writes) then written == 0 else dst.faults(old(dst.writes)).None?
      invariant dst.writes >= old(dst.writes)
      decreases |src.bytes| - src.pos
    {
      var got, n, end, wrote := CopyNext(dst, src, old(dst.data), old(dst.pos), old(src.pos));
      if !wrote {
        return if progress then written else written + n, false, written + n;
      }
      written := written + got;
      if end != More {
        return written, end == Eof, written;
      }
    }
  }

  /** A body of one byte, and a file whose first write puts it down and fails: the file has it, the count has not. */
  method UncountedByte() returns (written: nat, data: seq<byte>)
    ensures written == 0 && data == [7]
  {
    var dst := new LocalFile([], 0, _ => Some(1));
    var src := new Body([7], true);
    ghost var grown;
    var ok;
    written, ok, grown := CopyWithProgress(dst, src, true);
    assert grown == 1 && [7][..grown] == [7];
    assert Zeros(0) == [];
    data := dst.data;
  }

  /** The file is what it was with `bytes[from..done]` written at `at`, and stands behind that. */
  ghost predicate Copied(data: seq<byte>, pos: nat, was: seq<byte>, at: nat, bytes: seq<byte>, from: nat, done: nat) {
    from <= done <= |bytes| && pos == at + (done - from) && data == Placed(was, at, bytes[from..done])
  }

  /** Reads what the body delivers next, and writes it if that is anything. */
  method CopyNext(dst: LocalFile, src: Body, ghost was: seq<byte>, ghost at: nat, ghost from: nat)
    returns (got: nat, n: nat, end: ReadEnd, wrote: bool)
    requires src.Valid() && at >= |was| && !dst.failed && dst.torn == 0
    requires Copied(dst.data, dst.pos, was, at, src.bytes, from, src.pos)
    modifies dst, src`pos
    ensures src.Valid() && src.pos == old(src.pos) + got && n <= got && (wrote ==> n == got)
    ensures Copied(dst.data, dst.pos, was, at, src.bytes, from, old(src.pos) + n)
    ensures dst.failed == !wrote && dst.torn == (if wrote then 0 else n)
    ensures end == More ==> got > 0
    ensures end != More ==> src.pos == |src.bytes| && (end == Eof <==> src.clean)
    ensures dst.writes == old(dst.writes) + (if got > 0 then 1 else 0)
    ensures wrote <==> got == 0 || dst.faults(old(dst.writes)).None?
    ensures !wrote ==> n == Least(got, dst.faults(old(dst.writes)).value)
  {
    var chunk;
    chunk, end := src.Read(COPY_BUFFER);
    got, n, wrote := |chunk|, 0, true;
    if chunk != [] {
      n, wrote := dst.Write(chunk);
      PlacedOn(was, at, src.bytes, from, old(src.pos), chunk, n);
    }
  }

  lemma PlacedOn(data: seq<byte>, at: nat, bytes: seq<byte>, from: nat, done: nat, chunk: seq<byte>, n: nat)
    requires at >= |data| && from <= done <= done + |chunk| <= |bytes| && n <= |chunk|
    requires chunk == bytes[done..done + |chunk|]
    ensures Placed(Placed(data, at, bytes[from..done]), at + (done - from), chunk[..n]) == Placed(data, at, bytes[from..done + n])
  {
    PlacedTwice(data, at, bytes[from..done], chunk[..n]);
    assert bytes[from..done] + chunk[..n] == bytes[from..done + n];
  }

  /** Two writes in a row, at or past the end, are one. */
  lemma PlacedTwice(data: seq<byte>, at: nat, a: seq<byte>, b: seq<byte>)
    requires at >= |data|
    ensures Placed(Placed(data, at, a), at + |a|, b) == Placed(data, at, a + b)
  {
    if b == [] {
      assert a + b == a;
    } else if a == [] {
      assert a + b == b;
    } else {
      assert Zeros(0) == [];
    }
  }

  // ------------------------------------------------------------ one transfer

  datatype Params = Params(offset: nat, size: nat, hash: string, progress: bool)

  /** What upstream answers: a failure, JSON where bytes belong, or a body. */
  datatype Answer = NoAnswer | Json | Bytes(partial: bool, bytes: seq<byte>, clean: bool)

  datatype DownloadResult = DownloadResult(written: nat, offset: nat, resumed: bool, hash: string, hashVerified: bool)

  /** A body that is truthful about `remote`: the tail that was asked for, or the whole file. */
  predicate Truthful(a: Answer, remote: seq<byte>, offset: nat) {
    a.Bytes? ==>
      var start := if a.partial then offset else 0;
      start <= |remote| && a.bytes <= remote[start..] && (a.clean ==> a.bytes == remote[start..])
  }

  /** `after` is `before` with `g` bytes of `remote`, those from `offset` on, written at that place. */
  predicate Continued(before: seq<byte>, at: nat, after: seq<byte>, remote: seq<byte>, offset: nat, g: nat) {
    && (g > 0 ==> offset + g <= |remote|)
    && after == Placed(before, at, if g > 0 then remote[offset..offset + g] else [])
  }

  /** Reads past what the destination already has; an end before that is an error. */
  method SkipForward(src: Body, offset: nat) returns (ok: bool)
    requires src.Valid() && src.pos == 0
    modifies src`pos
    ensures src.Valid() && (ok <==> offset <= |src.bytes|) && (ok ==> src.pos == offset)
  {
    var left := offset;
    while left > 0
      invariant src.Valid() && left >= 0 && left + src.pos == offset
      decreases left
    {
      var chunk, end := src.Read(left);
      left := left - |chunk|;
      if end != More && left > 0 {
        return false;
      }
    }
    ok := true;
  }

  method Download(dst: LocalFile, p: Params, a: Answer, ghost remote: seq<byte>, digest: seq<byte> -> string)
    returns (r: DownloadResult, ok: bool, ghost grown: nat)
    requires dst.pos >= |dst.data| && !dst.failed && dst.torn == 0 && Truthful(a, remote, p.offset)
    modifies dst
    ensures Continued(old(dst.data), old(dst.pos), dst.data, remote, p.offset, grown)
    ensures grown == r.written + (if p.progress then dst.torn else 0)
    ensures ok ==> dst.torn == 0 && p.offset + grown == |remote|
    ensures ok ==> (r.hashVerified <==> p.hash != "" && (p.offset == 0 || !r.resumed))
    ensures ok && r.hashVerified ==> EqualFold(digest(remote), p.hash)
    ensures r.hashVerified && !ok ==> p.offset + grown == |remote| && !EqualFold(digest(remote), p.hash)
    ensures !a.Bytes? ==> grown == 0
    ensures ok <==> a.Bytes? && a.clean && p.offset <= |remote| && !dst.failed
                    && (p.hash == "" || (p.offset > 0 && a.partial) || EqualFold(digest(remote), p.hash))
  {
    r, grown := DownloadResult(0, p.offset, false, "", false), 0;
    if !a.Bytes? {
      return r, false, 0;
    }
    r := r.(resumed := a.partial);
    var written, copied;
    written, copied, grown := CopyBody(dst, p, a, remote);
    r := r.(written := written);
    if !copied {
      return r, false, grown;
    }
    r, ok := CheckHash(r, p, a, remote, digest);
  }

  /** Copies what the answer brings from the offset on: of a whole file, what comes after it. */
  method CopyBody(dst: LocalFile, p: Params, a: Answer, ghost remote: seq<byte>)
    returns (written: nat, copied: bool, ghost grown: nat)
    requires dst.pos >= |dst.data| && !dst.failed && dst.torn == 0 && a.Bytes? && Truthful(a, remote, p.offset)
    modifies dst
    ensures Continued(old(dst.data), old(dst.pos), dst.data, remote, p.offset, grown)
    ensures grown == written + (if p.progress then dst.torn else 0)
    ensures copied ==> dst.torn == 0 && p.offset + grown == |remote|
    ensures copied <==> a.clean && p.offset <= |remote| && !dst.failed
  {
    var body := new Body(a.bytes, a.clean);
    if p.offset > 0 && !a.partial {
      var skipped := SkipForward(body, p.offset);
      if !skipped {
        return 0, false, 0;
      }
    }
    ghost var at := body.pos;
    written, copied, grown := CopyWithProgress(dst, body, p.progress);
    assert grown > 0 ==> a.bytes[at..at + grown] == remote[p.offset..p.offset + grown];
    assert grown == 0 ==> a.bytes[at..at + grown] == [];
  }

  /** Compares the digest of what came with the one expected, where what came is the whole file. */
  method CheckHash(had: DownloadResult, p: Params, a: Answer, ghost remote: seq<byte>, digest: seq<byte> -> string)
    returns (r: DownloadResult, ok: bool)
    requires a.Bytes? && a.clean && Truthful(a, remote, p.offset) && !had.hashVerified && had.resumed == a.partial
    ensures r == had.(hash := digest(a.bytes), hashVerified := r.hashVerified)
    ensures r.hashVerified <==> p.hash != "" && (p.offset == 0 || !a.partial)
    ensures ok <==> !r.hashVerified || EqualFold(digest(remote), p.hash)
  {
    r := had.(hash := digest(a.bytes));
    if (p.offset == 0 || !a.partial) && p.hash != "" {
      assert a.bytes == remote;
      r := r.(hashVerified := true);
      if !EqualFold(r.hash, p.hash) {
        return r, false;
      }
    }
    ok := true;
  }

  // ------------------------------------------------------------ one attempt at a file

  datatype Local = Missing | Present(data: seq<byte>)

  function Contents(f: Local): seq<byte> {
    if f.Missing? then [] else f.data
  }

  /** Where an attempt resumes: the size of the file, or, with no file, where the caller said. */
  function ResumeAt(f: Local, p: Params): nat {
    if f.Present? then |f.data| else p.offset
  }

  /** The file is taken for complete without asking upstream. */
  predicate AlreadyThere(f: Local, p: Params) {
    p.size > 0 && ResumeAt(f, p) == p.size
  }

  /**
   * Writes a file to a local path, resuming when part of it is there. `opens` and
   * `closes` are how opening and closing the file turn out, and `faults` how its writes do.
   */
  method DownloadFile(f: Local, p: Params, a: Answer, opens: bool, closes: bool, faults: nat -> Option<nat>,
                      ghost remote: seq<byte>, digest: seq<byte> -> string)
    returns (after: Local, r: DownloadResult, ok: bool, ghost grown: nat, ghost torn: nat)
    requires Truthful(a, remote, ResumeAt(f, p))
    ensures Continued(Contents(f), ResumeAt(f, p), Contents(after), remote, ResumeAt(f, p), grown)
    ensures grown == r.written + (if p.progress then torn else 0)
    ensures ok && !AlreadyThere(f, p) ==> torn == 0 && ResumeAt(f, p) + grown == |remote|
    ensures AlreadyThere(f, p) ==> ok && after == f && grown == 0
    ensures f.Present? ==> after.Present?
  {
    var q := p.(offset := ResumeAt(f, p));
    if q.size > 0 && q.offset == q.size {
      return f, DownloadResult(0, q.offset, true, "", false), true, 0, 0;
    }
    if !opens {
      return f, DownloadResult(0, q.offset, false, "", false), false, 0, 0;
    }
    var dst := new LocalFile(Contents(f), q.offset, faults);
    r, ok, grown := Download(dst, q, a, remote, digest);
    after, torn := Present(dst.data), dst.torn;
    ok := ok && closes;
  }

  // ------------------------------------------------------------ any number of attempts

  /** What one attempt may make of the file: what DownloadFile's contract says. */
  predicate Attempt(f: Local, after: Local, remote: seq<byte>, p: Params, g: nat) {
    && Continued(Contents(f), ResumeAt(f, p), Contents(after), remote, ResumeAt(f, p), g)
    && (f.Present? ==> after.Present?)
    && (AlreadyThere(f, p) ==> after == f)
  }

  function Sum(gs: seq<nat>): nat {
    if gs == [] then 0 else Sum(gs[..|gs| - 1]) + gs[|gs| - 1]
  }

  /**
   * Over any number of attempts a prefix stays a prefix, nothing skipped or repeated,
   * and the growths add up to the whole growth.
   */
  lemma {:induction false} PrefixKept(fs: seq<Local>, remote: seq<byte>, p: Params, gs: seq<nat>)
    requires |fs| == |gs| + 1 && forall i :: 0 <= i < |gs| ==> Attempt(fs[i], fs[i + 1], remote, p, gs[i])
    requires Contents(fs[0]) <= remote
    requires fs[0].Present? || p.offset == 0
    ensures Contents(fs[|gs|]) <= remote && |Contents(fs[|gs|])| == |Contents(fs[0])| + Sum(gs)
    ensures fs[|gs|].Present? || p.offset == 0
    decreases |gs|
  {
    if gs != [] {
      var n := |gs| - 1;
      PrefixKept(fs[..n + 1], remote, p, gs[..n]);
      assert Attempt(fs[n], fs[n + 1], remote, p, gs[n]);
      OneAttempt(fs[n], fs[n + 1], remote, p, gs[n]);
    }
  }

  /** One attempt grows a prefix by exactly what it counted. */
  lemma OneAttempt(f: Local, after: Local, remote: seq<byte>, p: Params, g: nat)
    requires Attempt(f, after, remote, p, g) && Contents(f) <= remote && (f.Present? || p.offset == 0)
    ensures Contents(after) <= remote && |Contents(after)| == |Contents(f)| + g
  {
    var at := |Contents(f)|;
    if g > 0 {
      assert remote[..at + g] == remote[..at] + remote[at..at + g];
      assert Zeros(0) == [];
    }
  }

  /**
   * With no file there and an offset asked for, what is written is a hole and a tail:
   * a prefix exactly when nothing was written or the remote begins with as many zeros.
   */
  lemma MissingFileLeavesHole(after: Local, remote: seq<byte>, p: Params, g: nat)
    requires Attempt(Missing, after, remote, p, g) && p.offset > 0
    ensures Contents(after) <= remote <==> g == 0 || remote[..p.offset] == Zeros(p.offset)
    ensures g > 0 ==> |Contents(after)| == p.offset + g
  {
    if g > 0 {
      var file := Zeros(p.offset) + remote[p.offset..p.offset + g];
      assert [] + Zeros(p.offset) == Zeros(p.offset);
      assert Contents(after) == file;
      assert file[..p.offset] == Zeros(p.offset);
      if file <= remote {
        assert remote[..p.offset] == file[..p.offset];
      }
      if remote[..p.offset] == Zeros(p.offset) {
        assert remote[..p.offset + g] == remote[..p.offset] + remote[p.offset..p.offset + g];
      }
    }
  }

  /** What a caller can check beforehand: there is a file, or no offset, or no attempt to write past a hole. */
  predicate SafeToResume(f: Local, p: Params, remote: seq<byte>) {
    f.Present? || p.offset == 0 || AlreadyThere(f, p) || p.offset >= |remote| || remote[..p.offset] == Zeros(p.offset)
  }

  /** The longest an attempt can make the file that was not there. */
  function Holed(remote: seq<byte>, offset: nat): Local
    requires offset < |remote|
  {
    Present(Zeros(offset) + remote[offset..])
  }

  lemma HoledIsAnAttempt(remote: seq<byte>, p: Params)
    requires 0 < p.offset < |remote| && !AlreadyThere(Missing, p)
    ensures Attempt(Missing, Holed(remote, p.offset), remote, p, |remote| - p.offset)
  {
    var g := |remote| - p.offset;
    assert remote[p.offset..p.offset + g] == remote[p.offset..];
    assert [] + Zeros(p.offset) == Zeros(p.offset);
  }

  /** A prefix of the remote content stays one, whatever the attempt comes to, exactly when the guard holds. */
  lemma PrefixKeptExactly(f: Local, remote: seq<byte>, p: Params)
    requires Contents(f) <= remote
    ensures (forall after, g: nat :: Attempt(f, after, remote, p, g) ==> Contents(after) <= remote)
       <==> SafeToResume(f, p, remote)
  {
    if SafeToResume(f, p, remote) {
      forall after, g: nat | Attempt(f, after, remote, p, g) ensures Contents(after) <= remote {
        if f.Present? || p.offset == 0 {
          OneAttempt(f, after, remote, p, g);
        } else if !AlreadyThere(f, p) {
          MissingFileLeavesHole(after, remote, p, g);
        }
      }
    } else {
      HoledIsAnAttempt(remote, p);
      MissingFileLeavesHole(Holed(remote, p.offset), remote, p, |remote| - p.offset);
    }
  }

  const TWO_BYTES: seq<byte> := [1, 2]
  const HOLE_AND_ONE: seq<byte> := [0, 2]

  /** Two bytes upstream, no file here, and an offset of one: a zero and the second byte. */
  lemma HoleHappens()
    ensures Attempt(Missing, Present(HOLE_AND_ONE), TWO_BYTES, Params(1, 0, "", false), 1)
    ensures !(HOLE_AND_ONE <= TWO_BYTES)
  {
    HoledIsAnAttempt(TWO_BYTES, Params(1, 0, "", false));
    assert Zeros(1) == [0] && TWO_BYTES[1..] == [2];
    assert Holed(TWO_BYTES, 1).data == HOLE_AND_ONE;
    assert HOLE_AND_ONE[0] != TWO_BYTES[0];
  }

  /** And with the size declared to be one, a file that is not there is taken for complete. */
  lemma MissingIsComplete()
    ensures AlreadyThere(Missing, Params(1, 1, "", false))
  {
  }
}
