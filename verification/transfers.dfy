// The four-step upload around the chunk loop: which branch is taken, what the file is
// closed with, and that a record that was created is completed or taken back.
module Transfers {
  import opened Prelude
  import opened Offsets
  import opened Uploads

  datatype Params = Params(size: nat, hash: string, chunkSize: int, openIfExists: bool, keepOnFailure: bool)

  /** The reply of create_file: the new record, and what upstream wants done with it. */
  datatype Created = Created(fileID: string, tempLocation: string, hashOnly: bool, compress: bool)

  /** The reply of open_file_upload. */
  datatype Opened = Opened(tempLocation: string, compress: bool)

  /** Calls that settle a record's fate. */
  datatype Call =
    | Close(fileID: string, tempLocation: string, hash: string, compressed: bool)
    | Reclaim(fileID: string)

  datatype Outcome = Outcome(deduplicated: bool, compressed: bool, bytesSent: nat, chunks: nat, hash: string)

  function TempLocation(created: Created, reply: Opened): string {
    if reply.tempLocation != "" then reply.tempLocation else created.tempLocation
  }

  /** How chunks go out: as they are, or compressed when either reply asked for it. */
  function Packing(created: Created, reply: Opened, zip: seq<byte> -> seq<byte>): seq<byte> -> seq<byte> {
    if reply.compress || created.compress then zip else Plain
  }

  /** The call that completes a record whose content was transferred. */
  function Closing(created: Created, reply: Opened, p: Params, read: seq<byte>, digest: seq<byte> -> string): Call {
    Close(created.fileID, TempLocation(created, reply), if p.hash == "" then digest(read) else p.hash,
          reply.compress || created.compress)
  }

  /** The content goes up, and goes up as it is. */
  predicate Verbatim(created: Created, open: Option<Opened>) {
    !created.hashOnly && !created.compress && open.Some? && !open.value.compress
  }

  class Record {
    var calls: seq<Call>

    constructor ()
      ensures calls == []
    {
      calls := [];
    }

    method Closed(call: Call, works: bool) returns (ok: bool)
      modifies this
      ensures calls == old(calls) + [call] && ok == works
    {
      calls := calls + [call];
      ok := works;
    }
  }

  /**
   * Everything after create_file. `open` is the reply of open_file_upload, if any, and
   * `closes` whether the close goes through.
   */
  method Transfer(s: Server, src: Source, rec: Record, created: Created, open: Option<Opened>, closes: bool,
                  p: Params, zip: seq<byte> -> seq<byte>, digest: seq<byte> -> string, retries: nat)
    returns (r: Result<Outcome, string>)
    requires s.Valid() && s.wire == [] && s.stream == [] && s.calm && src.Valid() && src.pos == 0
    modifies s, src`pos, rec
    ensures s.Valid() && src.Valid()
    ensures created.hashOnly ==> s.stream == [] && s.posted == old(s.posted) && src.pos == 0
    ensures created.hashOnly ==> rec.calls == old(rec.calls) + [Close(created.fileID, "", p.hash, false)]
    ensures created.hashOnly ==> (r.Ok? <==> closes) && (r.Ok? ==> r.value.deduplicated)
    ensures r.Ok? && !created.hashOnly ==> open.Some? && TempLocation(created, open.value) != ""
    ensures r.Ok? && !created.hashOnly ==>
              var read := src.content[..src.pos];
              && src.pos == src.Readable() && (p.size > 0 ==> src.pos == p.size)
              && s.stream == OnTheWire(read, ChunkSize(p.chunkSize), Packing(created, open.value, zip))
              && rec.calls == old(rec.calls) + [Closing(created, open.value, p, read, digest)]
              && !r.value.deduplicated && r.value.bytesSent == |s.stream|
    ensures r.Err? ==> rec.calls == old(rec.calls) || (!closes && |rec.calls| == |old(rec.calls)| + 1)
    ensures forall c :: c in rec.calls ==> c in old(rec.calls) || c.Close?
  {
    if created.hashOnly {
      var ok := rec.Closed(Close(created.fileID, "", p.hash, false), closes);
      return if ok then Ok(Outcome(true, false, 0, 0, p.hash)) else Err("close failed");
    }
    if open.None? {
      return Err("open failed");
    }
    var reply := open.value;
    if TempLocation(created, reply) == "" {
      return Err("nowhere to send the content");
    }
    var pack := Packing(created, reply, zip);
    var sent, chunks, err := SendChunks(s, src, p.size, ChunkSize(p.chunkSize), pack, retries);
    if err.Some? {
      return Err(err.value);
    }
    var call := Closing(created, reply, p, src.content[..src.pos], digest);
    var ok := rec.Closed(call, closes);
    if !ok {
      return Err("close failed");
    }
    r := Ok(Outcome(false, call.compressed, sent, chunks, call.hash));
  }

  /** A whole upload: a failed one takes its record back, unless it is not its to delete or is to be resumed. */
  method Upload(s: Server, src: Source, rec: Record, create: Option<Created>, open: Option<Opened>, closes: bool,
                p: Params, zip: seq<byte> -> seq<byte>, digest: seq<byte> -> string, retries: nat)
    returns (r: Result<Outcome, string>)
    requires s.Valid() && s.wire == [] && s.stream == [] && s.calm && src.Valid() && src.pos == 0 && rec.calls == []
    modifies s, src`pos, rec
    ensures s.Valid() && src.Valid()
    ensures create.None? || create.value.fileID == "" ==> r.Err? && rec.calls == []
    ensures r.Ok? ==> create.Some? && |rec.calls| == 1 && rec.calls[0].Close?
    ensures r.Err? && create.Some? && create.value.fileID != "" ==>
              (Reclaim(create.value.fileID) in rec.calls <==> !p.keepOnFailure && !p.openIfExists)
    ensures r.Ok? && Verbatim(create.value, open) && src.failAt.None? ==> s.stream == src.content
  {
    if create.None? {
      return Err("create failed");
    }
    var created := create.value;
    if created.fileID == "" {
      return Err("no file id");
    }
    r := Transfer(s, src, rec, created, open, closes, p, zip, digest, retries);
    if r.Err? {
      assert forall c :: c in rec.calls ==> c.Close?;
      if !p.keepOnFailure && !p.openIfExists {
        rec.calls := rec.calls + [Reclaim(created.fileID)];
      }
    } else if !created.hashOnly {
      PlainWire(src.content[..src.pos], ChunkSize(p.chunkSize));
      assert src.content[..|src.content|] == src.content;
    }
  }
}
