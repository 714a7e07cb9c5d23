// The chunked upload: content is read into one reused buffer and posted chunk by chunk
// to a server that only ever appends at its current length. Replies may be lost, writes
// may be partial, and a request may arrive late or more than once.
module Uploads {
  import opened Prelude
  import opened Offsets

  datatype Request = Request(offset: nat, payload: seq<byte>)

  /** What a round trip brings back; a lost reply is a refusal with some transport message. */
  datatype Reply = Wrote(n: nat) | Refused(msg: string)

  // ------------------------------------------------------------ the server

  class Server {
    /** What has been assembled so far. */
    var stream: seq<byte>
    /** Requests ever sent; the network may deliver any of them again. */
    var posted: set<Request>
    /** What the client has set out to have assembled. */
    ghost var wire: seq<byte>
    /** The last reply, and whether every request so far was answered in full. */
    ghost var last: Reply
    ghost var calm: bool

    constructor ()
      ensures Valid() && stream == [] && wire == [] && posted == {} && calm
    {
      stream, posted, wire, last, calm := [], {}, [], Wrote(0), true;
    }

    /** The request asks for a piece of what is to be assembled, at its place. */
    ghost predicate Fits(r: Request)
      reads this`wire
    {
      r.offset + |r.payload| <= |wire| && wire[r.offset..r.offset + |r.payload|] == r.payload
    }

    ghost predicate Valid()
      reads this
    {
      stream <= wire && forall r :: r in posted ==> Fits(r)
    }

    /** The server's rule: a chunk is taken only where the stream ends, and perhaps in part. */
    method Arrive(r: Request) returns (reply: Reply)
      requires Valid() && Fits(r)
      modifies this`stream
      ensures Valid() && old(stream) <= stream
      ensures reply.Wrote? ==> reply.n <= |r.payload| && stream == old(stream) + r.payload[..reply.n]
      ensures reply.Refused? ==> stream == old(stream) && reply.msg == Refusal(|stream|, r.offset)
      ensures reply.Wrote? <==> r.offset == |old(stream)|
    {
      if r.offset != |stream| {
        return Refused(Refusal(|stream|, r.offset));
      }
      var n: int := *;
      n := if 0 <= n <= |r.payload| then n else |r.payload|;
      assert wire[|stream|..|stream| + n] == r.payload[..n];
      stream := stream + r.payload[..n];
      assert stream == wire[..|stream|];
      reply := Wrote(n);
    }

    /** Any requests sent before may turn up now, in any order and number. */
    method Stragglers()
      requires Valid()
      modifies this`stream
      ensures Valid() && old(stream) <= stream
    {
      var n: int := *;
      while n > 0
        invariant Valid() && old(stream) <= stream
      {
        if posted != {} {
          var r :| r in posted;
          var _ := Arrive(r);
        }
        n := n - 1;
      }
    }

    /** One round trip. The request or its reply may be lost, and other errors may come back. */
    method Post(r: Request) returns (reply: Reply)
      requires Valid() && Fits(r)
      modifies this`stream, this`posted, this`last, this`calm
      ensures Valid() && old(stream) <= stream
      ensures reply.Wrote? ==> reply.n <= |r.payload| && r.offset + reply.n <= |stream|
      ensures reply.Refused? && ServerOffset(reply.msg).Some? ==> ServerOffset(reply.msg).value <= |stream|
      ensures last == reply && calm == (old(calm) && reply == Wrote(|r.payload|))
    {
      posted := posted + {r};
      Stragglers();
      var lost: bool, message: string := *, *;
      if ServerOffset(message).Some? {
        message := "";
      }
      if lost {
        reply := Refused(message);
      } else {
        reply := Arrive(r);
        if reply.Refused? {
          RefusalRoundTrip(|stream|, r.offset);
        } else {
          var dropped: bool := *;
          if dropped {
            reply := Refused(message);
          }
        }
      }
      Stragglers();
      last, calm := reply, calm && reply == Wrote(|r.payload|);
    }

    /** The client sets out to send more. */
    ghost method Intend(more: seq<byte>)
      requires Valid()
      modifies this`wire
      ensures Valid() && wire == old(wire) + more
      ensures Fits(Request(|old(wire)|, more))
    {
      forall r | r in posted ensures (wire + more)[r.offset..r.offset + |r.payload|] == r.payload {
        assert Fits(r);
      }
      wire := wire + more;
    }
  }

  // ------------------------------------------------------------ one chunk

  /** Posts one chunk, again and again while the failures may be retried. */
  method SendOneChunk(s: Server, offset: nat, payload: seq<byte>, retries: nat) returns (r: Result<nat, string>)
    requires s.Valid() && s.Fits(Request(offset, payload))
    modifies s`stream, s`posted, s`last, s`calm
    ensures s.Valid() && old(s.stream) <= s.stream
    ensures r.Ok? ==> r.value <= |payload| && offset + r.value <= |s.stream|
    ensures r.Err? && ServerOffset(r.error).Some? ==> ServerOffset(r.error).value <= |s.stream|
    ensures r == match s.last case Wrote(n) => Ok(n) case Refused(msg) => Err(msg)
    ensures s.calm ==> old(s.calm) && r == Ok(|payload|)
  {
    var attempt := 0;
    while true
      invariant s.Valid() && old(s.stream) <= s.stream && attempt <= retries
      invariant attempt == 0 ==> s.calm == old(s.calm)
      invariant attempt > 0 ==> !s.calm
      decreases retries - attempt
    {
      var reply := s.Post(Request(offset, payload));
      if reply.Wrote? {
        return Ok(reply.n);
      }
      var again: bool := *;
      if !again || attempt == retries {
        return Err(reply.msg);
      }
      attempt := attempt + 1;
    }
  }

  /** Whether the answers to a chunk and to its re-sent tail make it complete. */
  predicate Complete(offset: nat, len: nat, first: Result<nat, string>, second: Option<Result<nat, string>>) {
    match first
    case Ok(n) => n == len && second.None?
    case Err(msg) =>
      var at := ServerOffset(msg);
      && at.Some?
      && (if at.value >= offset + len then second.None?
          else at.value > offset && second == Some(Ok(offset + len - at.value)))
  }

  /**
   * Posts one chunk, recovering from an offset disagreement: a chunk that has landed
   * is done, a partial one is continued from where upstream says it stopped.
   */
  method SendChunkResuming(s: Server, offset: nat, payload: seq<byte>, retries: nat)
    returns (attempts: nat, err: Option<string>, ghost first: Result<nat, string>, ghost second: Option<Result<nat, string>>)
    requires s.Valid() && offset + |payload| == |s.wire| && s.Fits(Request(offset, payload))
    modifies s`stream, s`posted, s`last, s`calm
    ensures s.Valid() && old(s.stream) <= s.stream
    ensures err.None? ==> s.stream == s.wire
    ensures err.None? <==> Complete(offset, |payload|, first, second)
    ensures attempts == if second.Some? then 2 else 1
    ensures s.calm ==> old(s.calm) && err.None? && attempts == 1
  {
    var written := SendOneChunk(s, offset, payload, retries);
    attempts, first, second := 1, written, None;
    if written.Ok? {
      if written.value != |payload| {
        return attempts, Some("short write"), first, second;
      }
      return attempts, None, first, second;
    }
    var at := ServerOffset(written.error);
    if at.None? {
      return attempts, Some(written.error), first, second;
    }
    var end := offset + |payload|;
    if at.value >= end {
      return attempts, None, first, second;
    } else if at.value > offset {
      var tail := payload[at.value - offset..];
      assert s.Fits(Request(at.value, tail));
      written := SendOneChunk(s, at.value, tail, retries);
      attempts, second := 2, Some(written);
      if written.Err? {
        return attempts, Some(written.error), first, second;
      }
      if written.value != |tail| {
        return attempts, Some("short write"), first, second;
      }
      return attempts, None, first, second;
    }
    err := Some("the source cannot rewind");
  }

  // ------------------------------------------------------------ the source

  datatype ReadEnd = NoError | Eof | UnexpectedEof | Broken

  /** A reader over `content`; it may break after `failAt` bytes. */
  class Source {
    const content: seq<byte>
    const failAt: Option<nat>
    var pos: nat

    constructor (content: seq<byte>, failAt: Option<nat>)
      requires failAt.Some? ==> failAt.value <= |content|
      ensures this.content == content && this.failAt == failAt && pos == 0 && Valid()
    {
      this.content, this.failAt, pos := content, failAt, 0;
    }

    /** How much of the content can be read at all. */
    function Readable(): nat {
      ReadableOf(content, failAt)
    }

    predicate Valid()
      reads this`pos
    {
      pos <= Readable() <= |content|
    }

    /** Fills the buffer as far as the source allows, and says why it stopped short. */
    method ReadFull(buf: array<byte>) returns (n: nat, end: ReadEnd)
      requires Valid() && buf.Length > 0
      modifies this`pos, buf
      ensures Valid() && n <= buf.Length && pos == old(pos) + n && buf[..n] == content[old(pos)..pos]
      ensures end == NoError <==> n == buf.Length
      ensures n < buf.Length ==> pos == Readable()
      ensures n < buf.Length ==> end == if failAt.Some? then Broken else if n == 0 then Eof else UnexpectedEof
    {
      n := 0;
      while n < buf.Length && pos < Readable()
        invariant Valid() && n <= buf.Length && pos == old(pos) + n && buf[..n] == content[old(pos)..pos]
      {
        buf[n] := content[pos];
        n, pos := n + 1, pos + 1;
      }
      end := if n == buf.Length then NoError
             else if failAt.Some? then Broken
             else if n == 0 then Eof else UnexpectedEof;
    }
  }

  // ------------------------------------------------------------ the pieces

  const DEFAULT_CHUNK_SIZE: nat := 50 * 1024 * 1024
  const MIN_CHUNK_SIZE: nat := 64 * 1024

  /** The chunk size used for a request for `asked`: never below the minimum. */
  function ChunkSize(asked: int): (k: nat)
    ensures k >= MIN_CHUNK_SIZE
    ensures asked > MIN_CHUNK_SIZE ==> k == asked
  {
    if asked >= MIN_CHUNK_SIZE then asked else if asked > 0 then MIN_CHUNK_SIZE else DEFAULT_CHUNK_SIZE
  }

  /** The content cut into chunks: full ones, and a shorter last one. */
  function Pieces(content: seq<byte>, k: nat): (ps: seq<seq<byte>>)
    requires k > 0
    ensures forall i :: 0 <= i < |ps| ==> 0 < |ps[i]| <= k
  {
    if content == [] then []
    else if |content| <= k then [content]
    else [content[..k]] + Pieces(content[k..], k)
  }

  function Joined(ps: seq<seq<byte>>): seq<byte> {
    if ps == [] then [] else Joined(ps[..|ps| - 1]) + ps[|ps| - 1]
  }

  /** What goes on the wire: each chunk as it is, or compressed on its own. */
  function Packed(ps: seq<seq<byte>>, pack: seq<byte> -> seq<byte>): (r: seq<seq<byte>>)
    ensures |r| == |ps| && forall i :: 0 <= i < |ps| ==> r[i] == pack(ps[i])
  {
    seq(|ps|, i requires 0 <= i < |ps| => pack(ps[i]))
  }

  function OnTheWire(content: seq<byte>, k: nat, pack: seq<byte> -> seq<byte>): seq<byte>
    requires k > 0
  {
    Joined(Packed(Pieces(content, k), pack))
  }

  function Plain(piece: seq<byte>): seq<byte> { piece }

  /** As many pieces as are needed, and no more. */
  lemma {:induction false} PiecesCount(content: seq<byte>, k: nat)
    requires k > 0
    ensures |content| <= |Pieces(content, k)| * k
    ensures content != [] ==> (|Pieces(content, k)| - 1) * k < |content|
    decreases |content|
  {
    if |content| > k {
      PiecesCount(content[k..], k);
    }
  }

  /** What is left of `x` bytes after the full chunks: `x` modulo `k`. */
  function Rest(x: nat, k: nat): (r: nat)
    requires k > 0
    ensures r < k && r <= x
  {
    if x < k then x else Rest(x - k, k)
  }

  lemma {:induction false} RestAfter(x: nat, n: nat, k: nat)
    requires n < k && Rest(x, k) == 0
    ensures Rest(x + n, k) == n
    decreases x
  {
    if x >= k {
      RestAfter(x - k, n, k);
    }
  }

  lemma {:induction false} PiecesAppend(a: seq<byte>, b: seq<byte>, k: nat)
    requires k > 0 && Rest(|a|, k) == 0 && 0 < |b| <= k
    ensures Pieces(a + b, k) == Pieces(a, k) + [b]
    decreases |a|
  {
    if a == [] {
      assert a + b == b;
    } else {
      assert (a + b)[..k] == a[..k] && (a + b)[k..] == a[k..] + b;
      PiecesAppend(a[k..], b, k);
      if |a| <= k {
        assert a[k..] == [] && a[..k] == a;
        assert Pieces([], k) == [];
      }
    }
  }

  /** The next chunk goes onto the end of what is on the wire. */
  lemma WireAppend(a: seq<byte>, b: seq<byte>, k: nat, pack: seq<byte> -> seq<byte>)
    requires k > 0 && Rest(|a|, k) == 0 && 0 < |b| <= k
    ensures OnTheWire(a + b, k, pack) == OnTheWire(a, k, pack) + pack(b)
    ensures |Pieces(a + b, k)| == |Pieces(a, k)| + 1
  {
    PiecesAppend(a, b, k);
    var all := Packed(Pieces(a + b, k), pack);
    assert all[..|all| - 1] == Packed(Pieces(a, k), pack);
  }

  lemma {:induction false} JoinedCons(p: seq<byte>, ps: seq<seq<byte>>)
    ensures Joined([p] + ps) == p + Joined(ps)
    decreases |ps|
  {
    var all := [p] + ps;
    if ps == [] {
      assert all[..0] == [];
      assert Joined([]) == [];
    } else {
      assert all[..|all| - 1] == [p] + ps[..|ps| - 1];
      JoinedCons(p, ps[..|ps| - 1]);
    }
  }

  /** No gap, no repeat: the pieces in order are the content. */
  lemma {:induction false} PiecesAreTheContent(content: seq<byte>, k: nat)
    requires k > 0
    ensures Joined(Pieces(content, k)) == content
    decreases |content|
  {
    if content == [] {
    } else if |content| <= k {
      JoinedCons(content, []);
    } else {
      JoinedCons(content[..k], Pieces(content[k..], k));
      PiecesAreTheContent(content[k..], k);
    }
  }

  /** Uncompressed, what is on the wire is the content itself. */
  lemma PlainWire(content: seq<byte>, k: nat)
    requires k > 0
    ensures OnTheWire(content, k, Plain) == content
  {
    PiecesAreTheContent(content, k);
    assert Packed(Pieces(content, k), Plain) == Pieces(content, k);
  }

  /** By how much packing changes the number of bytes, over all the pieces. */
  function Growth(ps: seq<seq<byte>>, pack: seq<byte> -> seq<byte>): int {
    if ps == [] then 0
    else Growth(ps[..|ps| - 1], pack) + |pack(ps[|ps| - 1])| - |ps[|ps| - 1]|
  }

  lemma {:induction false} PackedLength(ps: seq<seq<byte>>, pack: seq<byte> -> seq<byte>)
    ensures |Joined(Packed(ps, pack))| == |Joined(ps)| + Growth(ps, pack)
    decreases |ps|
  {
    if ps != [] {
      var n := |ps| - 1;
      PackedLength(ps[..n], pack);
      assert Packed(ps, pack)[..n] == Packed(ps[..n], pack);
    }
  }

  /** Wire bytes and source bytes are as many exactly when packing the pieces adds up to no change. */
  lemma WireCountExactly(content: seq<byte>, k: nat, pack: seq<byte> -> seq<byte>)
    requires k > 0
    ensures |OnTheWire(content, k, pack)| == |content| <==> Growth(Pieces(content, k), pack) == 0
  {
    PackedLength(Pieces(content, k), pack);
    PiecesAreTheContent(content, k);
  }

  function Twice(piece: seq<byte>): seq<byte> { piece + piece }

  /** A source of one byte and a packing that doubles it: two wire bytes. */
  lemma WireCountDiffers()
    ensures |OnTheWire([7], MIN_CHUNK_SIZE, Twice)| == 2
  {
    assert Pieces([7], MIN_CHUNK_SIZE) == [[7]];
    PackedLength([[7]], Twice);
    PiecesAreTheContent([7], MIN_CHUNK_SIZE);
    assert [[7]][..0] == [];
    assert Growth([], Twice) == 0;
  }

  // ------------------------------------------------------------ the loop

  /** Whether a calm server lets the source be sent to the end. */
  predicate Sendable(content: seq<byte>, failAt: Option<nat>, size: nat, k: nat)
    requires k > 0
  {
    && (failAt.Some? ==> Rest(failAt.value, k) != 0)
    && (size > 0 ==> size == ReadableOf(content, failAt))
  }

  /**
   * What goes wrong without being noticed: the source breaks inside a chunk before its end,
   * and no other size was declared. A caller rules it out by declaring the size the content has.
   */
  predicate CutsShort(content: seq<byte>, failAt: Option<nat>, size: nat, k: nat)
    requires k > 0
  {
    && failAt.Some? && failAt.value < |content| && Rest(failAt.value, k) != 0
    && (size == 0 || size == failAt.value)
  }

  /** What the client has set out to send is what it has read. */
  ghost predicate InStep(s: Server, src: Source, k: nat, pack: seq<byte> -> seq<byte>)
    requires k > 0
    reads s, src`pos
  {
    && s.Valid() && src.Valid()
    && s.wire == OnTheWire(src.content[..src.pos], k, pack)
  }

  /** What reading one more chunk does to the wire, the pieces and the place in the last one. */
  lemma ReadFurther(content: seq<byte>, at: nat, chunk: seq<byte>, k: nat, pack: seq<byte> -> seq<byte>)
    requires k > 0 && 0 < |chunk| <= k && at + |chunk| <= |content| && chunk == content[at..at + |chunk|]
    requires Rest(at, k) == 0
    ensures OnTheWire(content[..at + |chunk|], k, pack) == OnTheWire(content[..at], k, pack) + pack(chunk)
    ensures |Pieces(content[..at + |chunk|], k)| == |Pieces(content[..at], k)| + 1
    ensures Rest(at + |chunk|, k) == if |chunk| == k then 0 else |chunk|
  {
    assert content[..at + |chunk|] == content[..at] + chunk;
    WireAppend(content[..at], chunk, k, pack);
    if |chunk| < k {
      RestAfter(at, |chunk|, k);
    }
  }

  /** One turn of the loop: reads a chunk into the buffer, packs it and posts it. */
  method SendNext(s: Server, src: Source, buf: array<byte>, wireOffset: nat, pack: seq<byte> -> seq<byte>, retries: nat)
    returns (n: nat, end: ReadEnd, sent: nat, attempts: nat, err: Option<string>)
    requires buf.Length > 0 && InStep(s, src, buf.Length, pack)
    requires s.stream == s.wire && wireOffset == |s.wire| && Rest(src.pos, buf.Length) == 0
    modifies s, src`pos, buf
    ensures InStep(s, src, buf.Length, pack) && s.stream <= s.wire && src.pos == old(src.pos) + n
    ensures n <= buf.Length && (end == NoError <==> n == buf.Length)
    ensures n < buf.Length ==> src.pos == src.Readable() && (end == Broken <==> src.failAt.Some?)
    ensures err.None? ==> s.stream == s.wire && wireOffset + sent == |s.wire|
    ensures n == 0 ==> attempts == 0 && s.calm == old(s.calm) && (err.Some? <==> end == Broken)
    ensures n > 0 ==> Rest(src.pos, buf.Length) == if n == buf.Length then 0 else n
    ensures n > 0 && s.calm ==> old(s.calm) && err.None? && attempts == 1
    ensures n > 0 ==> |Pieces(src.content[..src.pos], buf.Length)| == |Pieces(src.content[..old(src.pos)], buf.Length)| + 1
  {
    var k := buf.Length;
    n, end := src.ReadFull(buf);
    sent, attempts := 0, 0;
    if n == 0 {
      err := if end == Broken then Some("cannot read the upload source") else None;
      return;
    }
    var failed;
    sent, attempts, failed := PostRead(s, src, old(src.pos), buf[..n], k, wireOffset, pack, retries);
    err := failed;
  }

  /** Packs and posts a chunk that has just been read. */
  method PostRead(s: Server, src: Source, ghost at: nat, chunk: seq<byte>, k: nat, wireOffset: nat, pack: seq<byte> -> seq<byte>, retries: nat)
    returns (sent: nat, attempts: nat, err: Option<string>)
    requires k > 0 && s.Valid() && src.Valid() && s.stream == s.wire && wireOffset == |s.wire|
    requires 0 < |chunk| <= k && at + |chunk| == src.pos && chunk == src.content[at..src.pos]
    requires Rest(at, k) == 0 && s.wire == OnTheWire(src.content[..at], k, pack)
    modifies s
    ensures InStep(s, src, k, pack) && s.stream <= s.wire
    ensures err.None? ==> s.stream == s.wire && wireOffset + sent == |s.wire|
    ensures Rest(src.pos, k) == if |chunk| == k then 0 else |chunk|
    ensures s.calm ==> old(s.calm) && err.None? && attempts == 1
    ensures |Pieces(src.content[..src.pos], k)| == |Pieces(src.content[..at], k)| + 1
  {
    ReadFurther(src.content, at, chunk, k, pack);
    var payload := pack(chunk);
    sent := |payload|;
    attempts, err := Post(s, payload, wireOffset, retries);
  }

  /** Posts what comes next on the wire. */
  method Post(s: Server, payload: seq<byte>, wireOffset: nat, retries: nat) returns (attempts: nat, err: Option<string>)
    requires s.Valid() && s.stream == s.wire && wireOffset == |s.wire|
    modifies s
    ensures s.Valid() && s.wire == old(s.wire) + payload && s.stream <= s.wire
    ensures err.None? ==> s.stream == s.wire
    ensures s.calm ==> old(s.calm) && err.None? && attempts == 1
  {
    s.Intend(payload);
    ghost var first, second;
    attempts, err, first, second := SendChunkResuming(s, wireOffset, payload, retries);
  }

  /**
   * Sends everything the source delivers. Success means the server holds exactly the
   * packed chunks in order; any other outcome leaves it with a prefix of them. A source
   * that breaks inside a chunk goes unnoticed unless a size was declared.
   */
  method SendChunks(s: Server, src: Source, size: nat, k: nat, pack: seq<byte> -> seq<byte>, retries: nat)
    returns (sent: nat, chunks: nat, err: Option<string>)
    requires k > 0 && s.Valid() && s.wire == [] && s.stream == [] && s.calm && src.Valid() && src.pos == 0
    modifies s, src`pos
    ensures InStep(s, src, k, pack) && s.stream <= s.wire
    ensures err.None? ==> s.stream == s.wire && sent == |s.stream| && src.pos == src.Readable()
    ensures err.None? && size > 0 ==> src.pos == size
    ensures s.calm ==> (err.None? <==> Sendable(src.content, src.failAt, size, k))
    ensures err.None? && src.pos < |src.content| ==> CutsShort(src.content, src.failAt, size, k)
    ensures s.calm && CutsShort(src.content, src.failAt, size, k) ==> err.None? && src.pos < |src.content|
    ensures s.calm && err.None? ==> chunks == |Pieces(src.content[..src.pos], k)|
  {
    var buf := new byte[k];
    var sourceOffset, wireOffset := 0, 0;
    sent, chunks := 0, 0;
    assert src.content[..0] == [];
    var more := true;
    while more
      invariant fresh(buf) && buf.Length == k && InStep(s, src, k, pack)
      invariant sourceOffset == src.pos && wireOffset == |s.wire| && s.stream == s.wire
      invariant more ==> Rest(src.pos, k) == 0
      invariant !more ==> src.pos == src.Readable() && (src.failAt.Some? ==> Rest(src.failAt.value, k) != 0)
      invariant s.calm ==> chunks == |Pieces(src.content[..src.pos], k)|
      decreases more, src.Readable() - src.pos
    {
      var n, end, len, attempts, failed := SendNext(s, src, buf, wireOffset, pack, retries);
      chunks := chunks + attempts;
      if failed.Some? {
        return sourceOffset, chunks, failed;
      }
      sourceOffset := sourceOffset + n;
      wireOffset := wireOffset + len;
      more := end == NoError;
    }
    if size > 0 && sourceOffset != size {
      return sourceOffset, chunks, Some("the source does not have the declared size");
    }
    sent, err := wireOffset, None;
  }

  /** How far a source can be read. */
  function ReadableOf(content: seq<byte>, failAt: Option<nat>): nat {
    if failAt.Some? then failAt.value else |content|
  }

  /** A source of two bytes that breaks after the first, with no size declared: the upload succeeds with one. */
  method TruncatedUpload(s: Server, retries: nat) returns (err: Option<string>)
    requires s.Valid() && s.wire == [] && s.stream == [] && s.calm
    modifies s
    ensures CutsShort([1, 2], Some(1), 0, MIN_CHUNK_SIZE)
    ensures s.calm ==> err.None? && s.stream == [1]
  {
    var content: seq<byte> := [1, 2];
    var src := new Source(content, Some(1));
    var sent, chunks;
    sent, chunks, err := SendChunks(s, src, 0, MIN_CHUNK_SIZE, Plain, retries);
    assert content[..1] == [1];
    PlainWire([1], MIN_CHUNK_SIZE);
  }
}
