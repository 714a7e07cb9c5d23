// The two things that outlive the process: the cache directory and the journal
// file, each with what a power cut may take away.
module Disk {
  import opened Prelude
  import opened Objects
  import opened Journal

  /** A content file. Until it is synced, a crash may keep only a prefix of it. */
  datatype File = File(bytes: seq<byte>, synced: bool)

  /** A change of one directory entry. */
  datatype DirOp = DirOp(path: Path, file: Option<File>)

  /**
   * The cache directory: what the process sees, what the last directory sync made
   * permanent, and the changes made since. Content names are hashes of paths that do
   * not collide, so an entry is named by its path.
   */
  datatype Dir = Dir(live: map<Path, File>, durable: map<Path, File>, pending: set<DirOp>) {

    function Renamed(p: Path, f: File): Dir {
      Dir(live[p := f], durable, pending + {DirOp(p, Some(f))})
    }

    function Removed(p: Path): Dir {
      Dir(live - {p}, durable, pending + {DirOp(p, None)})
    }

    function Synced(): Dir {
      Dir(live, live, {})
    }

    /** The entry is permanent, whole, and nothing since has touched it. */
    ghost predicate Settled(p: Path, bytes: seq<byte>) {
      && Get(durable, p) == Some(File(bytes, true))
      && forall op :: op in pending ==> op.path != p
    }

    /** A crash may leave the permanent entry, or the one any change since gave it. */
    ghost predicate MayHold(p: Path, entry: Option<File>) {
      entry == Get(durable, p) || DirOp(p, entry) in pending
    }

    /** What a crash may leave of an entry: nothing, or the file, cut short if unsynced. */
    ghost predicate Leaves(entry: Option<File>, after: Option<File>) {
      && entry.Some? == after.Some?
      && (entry.Some? ==>
            && after.value.synced
            && after.value.bytes <= entry.value.bytes
            && (entry.value.synced ==> after.value.bytes == entry.value.bytes))
    }

    ghost predicate MayLeave(p: Path, after: Option<File>) {
      exists entry :: MayHold(p, entry) && Leaves(entry, after)
    }

    /** The directories a crash may leave; each entry falls on its own. */
    ghost predicate Survives(after: map<Path, File>) {
      forall p {:trigger p in after} :: MayLeave(p, Get(after, p))
    }
  }

  /** The journal file: the records on the platter, and those still in the page cache. */
  datatype Log = Log(synced: seq<Record>, tail: seq<Record>) {

    function All(): seq<Record> { synced + tail }

    function Written(r: Record): Log { Log(synced, tail + [r]) }

    function Flushed(): Log { Log(All(), []) }

    /** The entry of a path after a crash that keeps the first `k` records. */
    function CutAt(k: nat, p: Path): Option<Object>
      requires k <= |All()|
    {
      ReplayAt(All()[..k], p)
    }

    /** A crash keeps every synced record and any number of the others. */
    predicate MayKeep(k: nat) { |synced| <= k <= |All()| }
  }

  /** A record changes nothing for the paths it is not about. */
  predicate About(r: Record, p: Path) {
    if r.op.OpPut? then r.obj.Some? && r.obj.value.remotePath == p else r.path == p
  }

  lemma CutAfterWrite(l: Log, r: Record, k: nat, p: Path)
    requires l.Written(r).MayKeep(k)
    ensures l.Written(r).All() == l.All() + [r]
    ensures k <= |l.All()| ==> l.MayKeep(k) && l.Written(r).CutAt(k, p) == l.CutAt(k, p)
    ensures k > |l.All()| ==> l.Written(r).CutAt(k, p) == ApplyAt(l.CutAt(|l.All()|, p), r, p)
  {
    var l' := l.Written(r);
    assert l'.All() == l.All() + [r];
    if k <= |l.All()| {
      assert l'.All()[..k] == l.All()[..k];
    } else {
      assert l'.All()[..k] == l.All() + [r] && l.All()[..|l.All()|] == l.All();
      ReplayAtAppend(l.All(), r, p);
    }
  }

  lemma CutAfterFlush(l: Log, k: nat, p: Path)
    requires l.Flushed().MayKeep(k)
    ensures l.Flushed().All() == l.All()
    ensures l.MayKeep(k) && l.Flushed().CutAt(k, p) == l.CutAt(k, p)
  {
    assert l.Flushed().All() == l.All();
  }

  // ------------------------------------------------------------ the startup scan

  /** Whether an entry's content file is there with the recorded size. */
  function VerifiedAt(o: Option<Object>, f: Option<File>): Option<Object> {
    if o.Some? && f.Some? && |f.value.bytes| == o.value.size then o else None
  }

  /** The replayed index with every entry dropped whose content cannot be accounted for. */
  function Verified(objs: Index, files: map<Path, File>): (kept: Index)
    ensures forall p :: Get(kept, p) == VerifiedAt(Get(objs, p), Get(files, p))
  {
    map p | p in objs && p in files && |files[p].bytes| == objs[p].size :: objs[p]
  }

  /** The files the scan leaves in place. */
  function Accounted(objs: Index, files: map<Path, File>): map<Path, File> {
    map p | p in files && p in Verified(objs, files) :: files[p]
  }
}
