// The cache itself: an object whose counters and maps are updated in place under a
// mutex. Every critical section is proved to be an event of the step system, so
// every state between two of them is a reachable one, and the byte counters always
// equal the sums they stand for.
module DataCaches {
  import opened Prelude
  import opened Objects
  import opened Journal
  import opened Disk
  import opened Gateway
  import opened GatewayInvariant
  import opened GatewayRuns

  datatype Error = ErrClosed | ErrCacheFull | ErrDirty | ErrNotCached | ErrIo | ErrUploading

  /** How the file operations of one durability sequence turn out. */
  datatype Io = Io(fileSync: bool, rename: bool, dirSync: bool, append: bool, appendSync: bool) {
    /** Whether a record went through, to the platter. */
    predicate Journals() { append && appendSync }
  }

  function StageAfter(k: nat): CommitStage
    requires 1 <= k <= 6
  {
    match k
    case 1 => TmpOpen
    case 2 => TmpSynced
    case 3 => Renamed
    case 4 => DirSynced
    case 5 => Recorded
    case 6 => RecordSynced
  }

  /** The step of a commit that comes after the first `k`. */
  ghost predicate GoesOn(s: Gateway, p: Path, k: nat, e: Event)
    requires 1 <= k < 6 && AtCommit(s, p, StageAfter(k))
  {
    && Enabled(s, e)
    && Step(s, e).ops == s.ops[p := s.ops[p].(stage := StageAfter(k + 1))]
    && Step(s, e).objs == s.objs && Step(s, e).flights == s.flights && Step(s, e).maxDirty == s.maxDirty
  }

  lemma CommitGoesOn(s: Gateway, w: nat, o: Object, k: nat)
    requires 1 <= k < 6 && AtCommit(s, o.remotePath, StageAfter(k))
    ensures GoesOn(s, o.remotePath, k, Committing(w, o)[k])
  {
    var p := o.remotePath;
    match k
    case 1 => assert GoesOn(s, p, k, CommitSync(p));
    case 2 => assert GoesOn(s, p, k, CommitRename(p));
    case 3 => assert GoesOn(s, p, k, CommitDirSync(p));
    case 4 => assert GoesOn(s, p, k, CommitRecord(p));
    case 5 => assert GoesOn(s, p, k, CommitRecordSync(p));
  }

  /** What a class invariant says of a run. The guard, which always holds, keeps a run out of proofs that do not ask. */
  ghost predicate Reaches(start: Gateway, es: seq<Event>, s: Gateway) {
    forall k: nat {:trigger Asked(k)} :: Asked(k) ==> LeadsTo(start, es, s)
  }

  /** The state opening these records over these files leads to. Guarded likewise. */
  ghost predicate OpenedFrom(s: Gateway, recs: seq<Record>, files: map<Path, File>, clock: map<Path, nat>, maxDirty: nat) {
    forall k: nat {:trigger Asked(k)} :: Asked(k) ==> OpenedOn(s, Blank(clock, maxDirty, CleanVersions(recs)), recs, files)
  }

  ghost predicate Asked(k: nat) { true }

  lemma OpenedStart(recs: seq<Record>, files: map<Path, File>, clock: map<Path, nat>, maxDirty: nat)
    returns (s: Gateway)
    requires forall p :: p in files ==> files[p].synced
    requires Plausible(recs, clock)
    ensures OpenedFrom(s, recs, files, clock, maxDirty) && Reaches(s, [], s)
    ensures s.objs == Verified(Replay(recs), files) && s.flights == map[] && s.maxDirty == maxDirty
  {
    var blank := Blank(clock, maxDirty, CleanVersions(recs));
    s := Reopened(blank, recs, files);
    assert OpenedOn(s, blank, recs, files);
  }

  // ------------------------------------------------------------ the startup scan, as a loop

  /** Reconciles a replayed index with the files present, counting bytes as it goes. */
  method VerifyAgainstDisk(objs: Index, files: map<Path, File>)
    returns (kept: Index, bytes: int, dirty: int, lost: set<Path>)
    ensures kept == Verified(objs, files)
    ensures bytes == Total(kept, false) && dirty == Total(kept, true)
    ensures lost == set p | p in objs && p !in kept && objs[p].state.Unsent()
  {
    kept, bytes, dirty, lost := map[], 0, 0, {};
    var todo := objs.Keys;
    while todo != {}
      invariant todo <= objs.Keys
      invariant kept == map p | p in Verified(objs, files) && p !in todo :: objs[p]
      invariant bytes == Total(kept, false) && dirty == Total(kept, true)
      invariant lost == set p | p in objs && p !in todo && p !in Verified(objs, files) && objs[p].state.Unsent()
      decreases todo
    {
      var p :| p in todo;
      todo := todo - {p};
      var o := objs[p];
      if p !in files || |files[p].bytes| != o.size {
        if o.state.Unsent() {
          lost := lost + {p};
        }
      } else {
        TotalPut(kept, p, o, false);
        TotalPut(kept, p, o, true);
        assert kept - {p} == kept;
        kept := kept[p := o];
        bytes := bytes + o.size;
        if o.state.Unsent() {
          dirty := dirty + o.size;
        }
      }
    }
  }

  /** Opening: replay the journal, then check what it says against the files. */
  method Recovered(c: Codec, journal: seq<byte>, ghost recs: seq<Record>, files: map<Path, File>)
    returns (kept: Index, bytes: int, dirty: int)
    requires Sound(c) && journal == Encoded(c, recs)
    ensures kept == Verified(Replay(recs), files)
    ensures bytes == Total(kept, false) && dirty == Total(kept, true)
  {
    var scan := ReplayJournal(c, journal);
    WholeJournal(c, recs);
    var lost;
    kept, bytes, dirty, lost := VerifyAgainstDisk(scan.objects, files);
  }

  // ------------------------------------------------------------ choosing what to evict

  /** The least recently used of some objects. */
  method Oldest(objs: Index, candidates: set<Path>) returns (p: Path)
    requires candidates != {} && candidates <= objs.Keys
    ensures p in candidates && forall q :: q in candidates ==> objs[p].lastAccess <= objs[q].lastAccess
  {
    p :| p in candidates;
    var todo := candidates - {p};
    while todo != {}
      invariant todo <= candidates && p in candidates
      invariant forall q :: q in candidates - todo ==> objs[p].lastAccess <= objs[q].lastAccess
      decreases todo
    {
      var q :| q in todo;
      todo := todo - {q};
      if objs[q].lastAccess < objs[p].lastAccess {
        p := q;
      }
    }
  }

  predicate Distinct(paths: seq<Path>) {
    forall i, j :: 0 <= i < j < |paths| ==> paths[i] != paths[j]
  }

  /** None of `gone` was used later than any of `kept`. */
  predicate NoneLater(objs: Index, gone: set<Path>, kept: set<Path>)
    requires gone <= objs.Keys && kept <= objs.Keys
  {
    forall p, q :: p in gone && q in kept ==> objs[p].lastAccess <= objs[q].lastAccess
  }

  function CleanIn(objs: Index): set<Path> {
    set p | p in objs && objs[p].state.Clean?
  }

  /**
   * Picks what has to go: clean objects, least recently used first, until the low
   * mark is reached or none is left.
   */
  method Doomed(objs: Index, bytes: int, low: int) returns (doomed: seq<Path>, ghost gone: set<Path>)
    requires bytes == Total(objs, false)
    ensures Distinct(doomed) && gone == (set p | p in doomed) && gone <= CleanIn(objs)
    ensures NoneLater(objs, gone, CleanIn(objs) - gone)
    ensures Total(objs - gone, false) <= low || gone == CleanIn(objs)
    ensures doomed != [] ==> doomed[|doomed| - 1] in objs && Total(objs - gone, false) + objs[doomed[|doomed| - 1]].size > low
  {
    var candidates := CleanIn(objs);
    var freed := bytes;
    doomed, gone := [], {};
    assert objs - gone == objs;
    while candidates != {} && freed > low
      invariant gone == (set p | p in doomed) && gone <= CleanIn(objs)
      invariant candidates == CleanIn(objs) - gone
      invariant Distinct(doomed) && NoneLater(objs, gone, candidates)
      invariant freed == Total(objs - gone, false)
      invariant doomed != [] ==> doomed[|doomed| - 1] in gone && freed + objs[doomed[|doomed| - 1]].size > low
      decreases candidates
    {
      var p := Oldest(objs, candidates);
      TotalTake(objs - gone, p, false);
      assert (objs - gone) - {p} == objs - (gone + {p});
      doomed := doomed + [p];
      gone := gone + {p};
      freed := freed - objs[p].size;
      candidates := candidates - {p};
    }
  }

  // ------------------------------------------------------------ what a flush does to an entry

  /** An entry after a change some flush of version `o` asked for. */
  function Moved(held: Object, o: Object, change: Change): Object {
    Transitioned(held, StateOf(change), ErrOf(change), AttemptsOf(change, o))
  }

  /** The change a flush asks for once its upload is back. */
  function Verdict(o: Object, result: UploadResult): Change {
    if result.Stored? && Accepted(result.hash, o) then ToClean
    else if result.Failed? then ToDirty(result.reason) else ToDirty("wrong hash")
  }

  /** What recording the end of an upload makes of the version it sent. */
  function Concluded(before: Object, o: Object, result: UploadResult, recorded: bool): Object {
    if recorded && (result.Failed? || result.Stored?) then Moved(before, o, Verdict(o, result)) else before
  }

  /** What one flush makes of the object it sends, by which of its two records reached the journal. */
  function FlushedAs(o: Object, result: UploadResult, first: bool, last: bool): Object {
    Concluded(if first then Moved(o, o, ToUploading) else o, o, result, last)
  }

  /** An entry written twice holds what was written last, and goes as if it had not been written. */
  lemma Overwritten<V>(m: map<Path, V>, p: Path, first: V, last: V)
    ensures m[p := first][p := last] == m[p := last] && m[p := first] - {p} == m - {p}
  {
  }

  /**
   * A flush makes an object clean exactly when upstream confirmed it and that was recorded,
   * and never changes its version; left uploading, it is sent again.
   */
  lemma CleanIffConfirmed(o: Object, result: UploadResult, first: bool, last: bool)
    requires o.state.Unsent()
    ensures var after := FlushedAs(o, result, first, last);
      && (after.state.Clean? <==> last && result.Stored? && Accepted(result.hash, o))
      && after.storedAt == o.storedAt && after.size == o.size && after.hash == o.hash
      && (first && !last ==> after.state.Uploading?)
      && after.flushAttempts == o.flushAttempts +
           (if last && (result.Failed? || (result.Stored? && !Accepted(result.hash, o))) then 1 else 0)
  {
  }

  // ------------------------------------------------------------ the cache


  class DataCache {
    var objs: Index
    var bytes: int
    var dirty: int
    var draining: bool
    var closed: bool
    var inFlight: set<Path>
    const maxDirtyBytes: nat

    /**
     * The process together with its directory and journal file: where it started,
     * what has happened since, and where that led.
     */
    ghost const start: Gateway
    ghost var trace: seq<Event>
    ghost var now: Gateway

    ghost predicate Reached()
      reads this`trace, this`now
    {
      Reaches(start, trace, now)
    }

    /** The fields are the index the run has led to, and its byte totals. */
    ghost predicate Valid()
      reads this
    {
      && Reached()
      && objs == now.objs && inFlight == now.flights.Keys && maxDirtyBytes == now.maxDirty
      && bytes == Total(objs, false) && dirty == Total(objs, true)
    }

    /** Every state the cache can be in is one the theorems about runs speak of. */
    lemma ValidIsReachable()
      requires Valid()
      ensures LeadsTo(start, trace, now) && Inv(now)
    {
      assert Asked(0);
      ReachableInv(start, trace, now);
    }

    lemma PathsNamed(p: Path)
      requires Valid() && p in objs
      ensures p != ""
    {
      ValidIsReachable();
      assert PathOk(now, p);
    }

    ghost method Advance(e: Event)
      requires Reached() && Enabled(now, e)
      modifies this`trace, this`now
      ensures Reached() && trace == old(trace) + [e] && now == Step(old(now), e)
    {
      assert Asked(0);
      RunExtends(start, trace, e);
      trace := trace + [e];
      now := Step(now, e);
    }

    /** Opening a directory: replay, then check against the content files. */
    constructor Open(c: Codec, journal: seq<byte>, ghost recs: seq<Record>, files: map<Path, File>, maxDirty: nat,
                     ghost clock: map<Path, nat>)
      requires Sound(c) && journal == Encoded(c, recs)
      requires forall p :: p in files ==> files[p].synced
      requires Plausible(recs, clock)
      ensures Valid() && trace == [] && objs == Verified(Replay(recs), files)
      ensures OpenedFrom(start, recs, files, clock, maxDirty)
    {
      var kept, total, unsent := Recovered(c, journal, recs, files);
      ghost var s := OpenedStart(recs, files, clock, maxDirty);
      objs, bytes, dirty := kept, total, unsent;
      draining, closed, inFlight := false, false, {};
      maxDirtyBytes := maxDirty;
      start, trace, now := s, [], s;
    }

    // ---------------------------------------------------------- writing

    /** Starts an object, refusing what the dirty allowance has no room for. */
    method NewWriter(w: nat, p: Path, expected: nat, dirtyWrite: bool) returns (r: Result<nat, Error>)
      requires Valid() && p != "" && w !in now.writers
      modifies this`trace, this`now
      ensures Valid()
      ensures r == Err(ErrClosed) <==> closed || (dirtyWrite && draining)
      ensures r.Ok? ==> trace == old(trace) + [OpenWriter(w, p, expected, dirtyWrite)]
      ensures r.Ok? ==> w in now.writers && r.value == now.writers[w].limit
      ensures r.Err? ==> trace == old(trace) && now == old(now)
      ensures r == Err(ErrCacheFull) ==>
                dirtyWrite && (Room(now, p) <= 0 || (expected > 0 && expected > Room(now, p)))
      ensures r.Err? ==> r.error in {ErrClosed, ErrCacheFull}
    {
      if closed || (dirtyWrite && draining) {
        return Err(ErrClosed);
      }
      var limit := 0;
      if dirtyWrite {
        var room := maxDirtyBytes - dirty;
        if p in objs && objs[p].state.Unsent() {
          room := room + objs[p].size;
        }
        assert room == Room(now, p);
        if room <= 0 || (expected > 0 && expected > room) {
          return Err(ErrCacheFull);
        }
        limit := room;
      }
      Advance(OpenWriter(w, p, expected, dirtyWrite));
      r := Ok(limit);
    }

    /** The commit of `o` has made its first `k` steps since `was`, and nothing else has moved. */
    ghost predicate UnderWay(w: nat, o: Object, k: nat, was: Gateway, before: seq<Event>)
      requires 1 <= k <= 6
      reads this`now, this`trace
    {
      var p := o.remotePath;
      && AtCommit(now, p, StageAfter(k)) && now.ops[p].obj == o
      && w in was.writers && now.ops[p].w == was.writers[w]
      && now.ops - {p} == was.ops && now.objs == was.objs && now.flights == was.flights && now.maxDirty == was.maxDirty
      && trace == before + Committing(w, o)[..k]
    }

    ghost method BeginCommit(w: nat, o: Object)
      requires Reached() && Enabled(now, CommitBegin(w, o))
      modifies this`trace, this`now
      ensures Reached() && UnderWay(w, o, 1, old(now), old(trace))
    {
      Advance(CommitBegin(w, o));
    }

    /** The next step of a commit went through. */
    ghost method CommitOn(w: nat, o: Object, k: nat, was: Gateway, before: seq<Event>)
      requires 1 <= k < 6 && Reached() && UnderWay(w, o, k, was, before)
      modifies this`trace, this`now
      ensures Reached() && UnderWay(w, o, k + 1, was, before)
    {
      CommitGoesOn(now, w, o, k);
      Advance(Committing(w, o)[k]);
      assert Committing(w, o)[..k + 1] == Committing(w, o)[..k] + [Committing(w, o)[k]];
    }

    /** The next step failed: the temporary or renamed file is removed. */
    ghost method FailCommit(w: nat, o: Object, k: nat, was: Gateway, before: seq<Event>)
      requires 1 <= k < 6 && Reached() && UnderWay(w, o, k, was, before)
      modifies this`trace, this`now
      ensures Reached() && trace == old(trace) + [CommitFail(o.remotePath)]
      ensures now.ops == was.ops && now.objs == was.objs && now.flights == was.flights && now.maxDirty == was.maxDirty
    {
      Advance(CommitFail(o.remotePath));
    }

    ghost method LandCommit(p: Path)
      requires Reached() && AtCommit(now, p, RecordSynced)
      modifies this`trace, this`now
      ensures Reached() && trace == old(trace) + [CommitLand(p)]
      ensures now.ops == old(now.ops) - {p} && now.objs == old(now.objs)[p := old(now.ops)[p].obj]
      ensures now.flights == old(now.flights) && now.maxDirty == old(now.maxDirty)
      ensures Get(now.hist.acked, p) == Some(Ack(old(now.ops)[p].obj, old(now.ops)[p].w.bytes))
    {
      Advance(CommitLand(p));
    }

    /** Files an object, with the counters. */
    method Put(p: Path, o: Object)
      requires bytes == Total(objs, false) && dirty == Total(objs, true)
      modifies this`objs, this`bytes, this`dirty
      ensures objs == old(objs)[p := o]
      ensures bytes == Total(objs, false) && dirty == Total(objs, true)
    {
      TotalDrop(objs, p, false);
      TotalDrop(objs, p, true);
      TotalPut(objs, p, o, false);
      TotalPut(objs, p, o, true);
      if p in objs {
        var prev := objs[p];
        bytes := bytes - prev.size;
        if prev.state.Unsent() {
          dirty := dirty - prev.size;
        }
      }
      objs := objs[p := o];
      bytes := bytes + o.size;
      if o.state.Unsent() {
        dirty := dirty + o.size;
      }
    }

    /** The last step of a commit, whatever came between it and the others: the index and its counters. */
    method Land(p: Path, o: Object)
      requires Valid() && AtCommit(now, p, RecordSynced) && now.ops[p].obj == o
      modifies this`objs, this`bytes, this`dirty, this`trace, this`now
      ensures Valid() && trace == old(trace) + [CommitLand(p)]
      ensures objs == old(objs)[p := o]
      ensures now.ops == old(now.ops) - {p} && now.flights == old(now.flights)
      ensures Get(now.hist.acked, p) == Some(Ack(o, old(now.ops)[p].w.bytes))
    {
      Put(p, o);
      LandCommit(p);
    }

    /** The content is synced and renamed into place, and the directory synced. */
    method Place(o: Object, io: Io, ghost w: nat, ghost was: Gateway, ghost before: seq<Event>) returns (ok: bool)
      requires Valid() && UnderWay(w, o, 1, was, before)
      modifies this`trace, this`now
      ensures Valid() && ok == (io.fileSync && io.rename && io.dirSync)
      ensures ok ==> UnderWay(w, o, 4, was, before)
      ensures !ok ==> now.ops == was.ops && now.flights == was.flights
    {
      ok := false;
      if !io.fileSync {
        FailCommit(w, o, 1, was, before);
        return;
      }
      CommitOn(w, o, 1, was, before);
      if !io.rename {
        FailCommit(w, o, 2, was, before);
        return;
      }
      CommitOn(w, o, 2, was, before);
      if !io.dirSync {
        FailCommit(w, o, 3, was, before);
        return;
      }
      CommitOn(w, o, 3, was, before);
      ok := true;
    }

    /** The record of the commit is appended and synced. */
    method Journalled(o: Object, io: Io, ghost w: nat, ghost was: Gateway, ghost before: seq<Event>) returns (ok: bool)
      requires Valid() && UnderWay(w, o, 4, was, before)
      modifies this`trace, this`now
      ensures Valid() && ok == (io.append && io.appendSync)
      ensures ok ==> UnderWay(w, o, 6, was, before)
      ensures !ok ==> now.ops == was.ops && now.flights == was.flights
    {
      ok := false;
      if !io.append {
        FailCommit(w, o, 4, was, before);
        return;
      }
      CommitOn(w, o, 4, was, before);
      if !io.appendSync {
        FailCommit(w, o, 5, was, before);
        return;
      }
      CommitOn(w, o, 5, was, before);
      ok := true;
    }

    /**
     * The durability sequence: sync the content, rename it, sync the directory, append
     * and sync the record, and only then move the index and report success.
     */
    method Commit(w: nat, o: Object, io: Io) returns (r: Result<Object, Error>)
      requires Valid() && Enabled(now, CommitBegin(w, o))
      modifies this`objs, this`bytes, this`dirty, this`trace, this`now
      ensures Valid()
      ensures r == if io.fileSync && io.rename && io.dirSync && io.append && io.appendSync then Ok(o) else Err(ErrIo)
      ensures objs == if r.Ok? then old(objs)[o.remotePath := o] else old(objs)
      ensures r.Ok? ==> trace == old(trace) + Committing(w, o)
      ensures r.Ok? ==> Get(now.hist.acked, o.remotePath) == Some(Ack(o, old(now.writers[w].bytes)))
      ensures now.ops == old(now.ops) && now.flights == old(now.flights)
    {
      ghost var was, before := now, trace;
      BeginCommit(w, o);
      var placed := Place(o, io, w, was, before);
      if !placed {
        return Err(ErrIo);
      }
      var journalled := Journalled(o, io, w, was, before);
      if !journalled {
        return Err(ErrIo);
      }
      assert Committing(w, o) == Committing(w, o)[..6] + [CommitLand(o.remotePath)];
      Land(o.remotePath, o);
      r := Ok(o);
    }

    // ---------------------------------------------------------- dropping

    ghost method Pick(p: Path, cause: Cause)
      requires Reached() && Enabled(now, DropPick(p, cause))
      modifies this`trace, this`now
      ensures Reached() && trace == old(trace) + [DropPick(p, cause)]
      ensures now == old(now).(ops := old(now.ops)[p := Drop(cause, Picked)])
    {
      Advance(DropPick(p, cause));
    }

    /** Removes an entry from the index, with the counters. */
    method Take(p: Path) returns (found: bool)
      requires bytes == Total(objs, false) && dirty == Total(objs, true)
      modifies this`objs, this`bytes, this`dirty
      ensures found <==> p in old(objs)
      ensures objs == old(objs) - {p}
      ensures bytes == Total(objs, false) && dirty == Total(objs, true)
    {
      found := p in objs;
      TotalDrop(objs, p, false);
      TotalDrop(objs, p, true);
      if found {
        var o := objs[p];
        objs := objs - {p};
        bytes := bytes - o.size;
        if o.state.Unsent() {
          dirty := dirty - o.size;
        }
      } else {
        assert objs - {p} == objs;
      }
    }

    ghost method TakeOut(p: Path)
      requires Reached() && AtDrop(now, p, Picked)
      modifies this`trace, this`now
      ensures Reached() && trace == old(trace) + [DropIndex(p)]
      ensures now == old(now).(objs := old(now.objs) - {p}, ops := now.ops, hist := now.hist)
      ensures now.ops - {p} == old(now.ops) - {p}
      ensures if p in old(now.objs) then AtDrop(now, p, Unindexed) else p !in now.ops
    {
      Advance(DropIndex(p));
    }

    /** Takes an entry out of the index, if it is there. */
    method Unindex(p: Path) returns (found: bool)
      requires Valid() && AtDrop(now, p, Picked)
      modifies this`objs, this`bytes, this`dirty, this`trace, this`now
      ensures Valid() && trace == old(trace) + [DropIndex(p)]
      ensures found <==> p in old(objs)
      ensures objs == old(objs) - {p}
      ensures now.ops - {p} == old(now.ops) - {p} && now.dir == old(now.dir)
      ensures now.flights == old(now.flights)
      ensures if found then AtDrop(now, p, Unindexed) else p !in now.ops
    {
      found := Take(p);
      TakeOut(p);
    }

    /** The file is removed, a drop record appended if that works, and the path released. */
    ghost method DropRest(p: Path, at: nat, written: bool, synced: bool)
      requires Reached() && AtDrop(now, p, Unindexed)
      modifies this`trace, this`now
      ensures Reached()
      ensures trace == old(trace) + [DropFile(p)] + (if written then [DropWrite(p, at)] else [])
                                  + [DropFinish(p, written && synced)]
      ensures now == old(now).(ops := old(now.ops) - {p}, dir := now.dir, log := now.log)
      ensures now.dir.live == old(now.dir.live) - {p}
    {
      Advance(DropFile(p));
      DropRecorded(p, at, written, synced);
    }

    ghost method DropRecorded(p: Path, at: nat, written: bool, synced: bool)
      requires Reached() && AtDrop(now, p, FileGone)
      modifies this`trace, this`now
      ensures Reached()
      ensures trace == old(trace) + (if written then [DropWrite(p, at)] else []) + [DropFinish(p, written && synced)]
      ensures now == old(now).(ops := old(now.ops) - {p}, log := now.log)
    {
      if written {
        Advance(DropWrite(p, at));
      }
      Advance(DropFinish(p, written && synced));
    }

    /** Drops an object: the index, the file, the record. */
    method Forget(p: Path, ghost cause: Cause, at: nat, io: Io)
      requires Valid() && Enabled(now, DropPick(p, cause))
      modifies this`objs, this`bytes, this`dirty, this`trace, this`now
      ensures Valid() && objs == old(objs) - {p}
      ensures now.ops == old(now.ops) && now.flights == old(now.flights)
      ensures now.dir.live == if p in old(objs) then old(now.dir.live) - {p} else old(now.dir.live)
      ensures |trace| > |old(trace)| && trace[|old(trace)|] == DropPick(p, cause)
    {
      Pick(p, cause);
      var found := Unindex(p);
      if found {
        DropRest(p, at, io.append, io.appendSync);
      }
      assert now.ops == now.ops - {p} == old(now.ops) - {p} == old(now.ops);
    }

    /** Discards a clean object; an unsent one is refused. */
    method Refresh(p: Path, at: nat, io: Io) returns (r: Result<(), Error>)
      requires Valid() && p !in now.ops
      modifies this`objs, this`bytes, this`dirty, this`trace, this`now
      ensures Valid()
      ensures r == Err(ErrNotCached) <==> p !in old(objs)
      ensures r == Err(ErrDirty) <==> p in old(objs) && old(objs)[p].state.Unsent()
      ensures objs == if r.Ok? then old(objs) - {p} else old(objs)
    {
      if p !in objs {
        return Err(ErrNotCached);
      }
      if objs[p].state.Unsent() {
        return Err(ErrDirty);
      }
      PathsNamed(p);
      Forget(p, Refreshed, at, io);
      r := Ok(());
    }

    /** One turn of Remove's loop: drops the object, or says an upload has to be stopped first. */
    method TryRemove(p: Path, at: nat, io: Io) returns (r: Result<(bool, bool), Error>)
      requires Valid() && p !in now.ops
      modifies this`objs, this`bytes, this`dirty, this`trace, this`now
      ensures Valid()
      ensures r == if p in old(objs) && p in inFlight then Err(ErrUploading)
                   else Ok((p in old(objs), p in old(objs) && old(objs)[p].state.Unsent()))
      ensures objs == if r.Ok? then old(objs) - {p} else old(objs)
    {
      if p !in objs {
        assert objs - {p} == objs;
        return Ok((false, false));
      }
      if p in inFlight {
        return Err(ErrUploading);
      }
      PathsNamed(p);
      var wasUnsent := objs[p].state.Unsent();
      Forget(p, RemovedByUser, at, io);
      r := Ok((true, wasUnsent));
    }

    /** Drops every clean object, and refuses outright if anything is unsent. */
    method Clear(at: nat, io: Io) returns (r: Result<(), Error>)
      requires Valid() && forall p :: p in objs ==> p !in now.ops
      modifies this`objs, this`bytes, this`dirty, this`trace, this`now
      ensures Valid()
      ensures r.Ok? <==> forall p :: p in old(objs) ==> !old(objs)[p].state.Unsent()
      ensures objs == if r.Ok? then map[] else old(objs)
    {
      var todo := objs.Keys;
      while todo != {}
        invariant todo <= objs.Keys
        invariant forall p :: p in objs && p !in todo ==> !objs[p].state.Unsent()
        decreases todo
      {
        var p :| p in todo;
        if objs[p].state.Unsent() {
          return Err(ErrDirty);
        }
        todo := todo - {p};
      }
      while objs != map[]
        invariant Valid() && objs.Keys <= old(objs).Keys
        invariant forall p :: p in objs ==> !objs[p].state.Unsent() && p !in now.ops
        decreases objs.Keys
      {
        var p :| p in objs;
        PathsNamed(p);
        Forget(p, Cleared, at, io);
      }
      r := Ok(());
    }

    // ---------------------------------------------------------- evicting

    /** Drops the clean objects picked for eviction, one by one. */
    method DropAll(doomed: seq<Path>, at: nat, io: Io)
      requires Valid() && Distinct(doomed)
      requires forall p :: p in doomed ==> p in objs && objs[p].state.Clean? && p !in now.ops
      modifies this`objs, this`bytes, this`dirty, this`trace, this`now
      ensures Valid() && objs == old(objs) - (set p | p in doomed) && dirty == old(dirty)
    {
      ghost var gone: set<Path> := {};
      assert objs - gone == objs;
      for i := 0 to |doomed|
        invariant gone == set p | p in doomed[..i]
        invariant Valid() && objs == old(objs) - gone
        invariant dirty == old(dirty)
        invariant now.ops == old(now.ops)
      {
        var p := doomed[i];
        assert p !in gone;
        PathsNamed(p);
        TotalDrop(objs, p, true);
        Forget(p, Evicted, at, io);
        gone := gone + {p};
      }
      assert doomed[..|doomed|] == doomed;
    }

    /** Keeps the store near its size target without ever dropping unsent data. */
    method EvictIfNeeded(high: int, low: int, at: nat, io: Io) returns (doomed: seq<Path>)
      requires Valid() && forall p :: p in objs ==> p !in now.ops
      modifies this`objs, this`bytes, this`dirty, this`trace, this`now
      ensures Valid()
      ensures old(bytes) <= high ==> doomed == []
      ensures objs == old(objs) - (set p | p in doomed)
      ensures forall p :: p in doomed ==> p in old(objs) && old(objs)[p].state.Clean?
      ensures forall p, q :: p in doomed && q in objs && objs[q].state.Clean? ==>
                old(objs)[p].lastAccess <= objs[q].lastAccess
      ensures old(bytes) > high ==> bytes <= low || forall q :: q in objs ==> objs[q].state.Unsent()
      ensures doomed != [] ==> bytes + old(objs)[doomed[|doomed| - 1]].size > low
      ensures dirty == old(dirty)
    {
      doomed := [];
      if bytes <= high {
        assert objs - (set p | p in doomed) == objs;
        return;
      }
      ghost var all;
      doomed, all := Doomed(objs, bytes, low);
      assert forall p :: p in doomed ==> p in all;
      DropAll(doomed, at, io);
    }

    // ---------------------------------------------------------- flushing

    /** Takes the flush slot of an unsent object that no worker holds. */
    method TakeSlot(p: Path) returns (taken: Option<Object>)
      requires Valid()
      modifies this`inFlight, this`trace, this`now
      ensures Valid()
      ensures taken == if p in objs && objs[p].state.Unsent() && p !in old(inFlight) && !closed then Some(objs[p]) else None
      ensures trace == if taken.Some? then old(trace) + [FlushBegin(p)] else old(trace)
      ensures now == if taken.None? then old(now)
                     else old(now).(flights := old(now.flights)[p := Flight(taken.value, Setting(ToUploading, Unchecked))])
    {
      if p !in objs || !objs[p].state.Unsent() || p in inFlight || closed {
        return None;
      }
      inFlight := inFlight + {p};
      taken := Some(objs[p]);
      Advance(FlushBegin(p));
    }

    /** A flush has version `o` in hand and asks for `change`. */
    ghost predicate Asks(p: Path, o: Object, change: Change, sub: Sub)
      reads this`now
    {
      Get(now.flights, p) == Some(Flight(o, Setting(change, sub)))
    }

    /** The first critical section of SetState: whether `of` is still the version held. */
    method CheckState(p: Path, o: Object, change: Change) returns (current: bool)
      requires Valid() && Asks(p, o, change, Unchecked)
      modifies this`trace, this`now
      ensures Valid() && trace == old(trace) + [StateCheck(p)]
      ensures current <==> p in objs && objs[p].storedAt == o.storedAt
      ensures now == old(now).(flights := old(now.flights)[p :=
                       Flight(o, if current then Setting(change, Checked) else AfterChange(change))])
    {
      current := p in objs && objs[p].storedAt == o.storedAt;
      Advance(StateCheck(p));
    }

    /** The append between the two critical sections, and whether it failed. */
    ghost method JournalState(p: Path, o: Object, change: Change, at: nat, written: bool, synced: bool)
      requires Reached() && Asks(p, o, change, Checked)
      modifies this`trace, this`now
      ensures Reached()
      ensures trace == old(trace) + (if written then [StateWrite(p, at)] else [])
                                  + (if written && synced then [StateSync(p)] else [StateFail(p)])
      ensures now == old(now).(flights := old(now.flights)[p :=
                       Flight(o, if written && synced then Setting(change, Flushed) else AfterChange(change))],
                               log := now.log, hist := now.hist)
    {
      if written {
        Advance(StateWrite(p, at));
        SyncState(p, o, change, synced);
      } else {
        Advance(StateFail(p));
      }
    }

    ghost method SyncState(p: Path, o: Object, change: Change, synced: bool)
      requires Reached() && Asks(p, o, change, Written)
      modifies this`trace, this`now
      ensures Reached() && trace == old(trace) + (if synced then [StateSync(p)] else [StateFail(p)])
      ensures now == old(now).(flights := old(now.flights)[p :=
                       Flight(o, if synced then Setting(change, Flushed) else AfterChange(change))],
                               log := now.log, hist := now.hist)
    {
      if synced {
        Advance(StateSync(p));
      } else {
        Advance(StateFail(p));
      }
    }

    /** The second critical section of SetState. */
    method ApplyState(p: Path, o: Object, change: Change) returns (applied: bool)
      requires Valid() && Asks(p, o, change, Flushed)
      modifies this`objs, this`bytes, this`dirty, this`trace, this`now
      ensures Valid() && trace == old(trace) + [StateApply(p)]
      ensures applied <==> p in old(objs) && old(objs)[p].storedAt == o.storedAt
      ensures objs == if applied then old(objs)[p := Moved(old(objs)[p], o, change)] else old(objs)
      ensures now == old(now).(flights := old(now.flights)[p := Flight(o, AfterChange(change))], objs := now.objs)
    {
      applied := p in objs && objs[p].storedAt == o.storedAt;
      if applied {
        Restate(p, Moved(objs[p], o, change));
      }
      ApplyChange(p, o, change);
    }

    /** Replaces an entry by one of the same size, with the dirty counter. */
    method Restate(p: Path, moved: Object)
      requires p in objs && moved.size == objs[p].size
      requires bytes == Total(objs, false) && dirty == Total(objs, true)
      modifies this`objs, this`dirty
      ensures objs == old(objs)[p := moved]
      ensures bytes == Total(objs, false) && dirty == Total(objs, true)
    {
      var held := objs[p];
      var wasUnsent := held.state.Unsent();
      TotalDrop(objs, p, false);
      TotalDrop(objs, p, true);
      TotalPut(objs, p, moved, false);
      TotalPut(objs, p, moved, true);
      objs := objs[p := moved];
      if wasUnsent && !moved.state.Unsent() {
        dirty := dirty - held.size;
      } else if !wasUnsent && moved.state.Unsent() {
        dirty := dirty + held.size;
      }
    }

    ghost method ApplyChange(p: Path, o: Object, change: Change)
      requires Reached() && Asks(p, o, change, Flushed)
      modifies this`trace, this`now
      ensures Reached() && trace == old(trace) + [StateApply(p)]
      ensures now == old(now).(flights := old(now.flights)[p := Flight(o, AfterChange(change))], objs := now.objs)
      ensures now.objs == if p in old(now.objs) && old(now.objs)[p].storedAt == o.storedAt
                          then old(now.objs)[p := Moved(old(now.objs)[p], o, change)] else old(now.objs)
    {
      Advance(StateApply(p));
    }

    /**
     * Records a lifecycle transition of the version `o`: journalled and synced before
     * the index moves, and dropped when the object has been replaced since.
     */
    method SetState(p: Path, o: Object, change: Change, at: nat, io: Io) returns (applied: bool)
      requires Valid() && Asks(p, o, change, Unchecked)
      modifies this`objs, this`bytes, this`dirty, this`trace, this`now
      ensures Valid()
      ensures applied <==> p in old(objs) && old(objs)[p].storedAt == o.storedAt && io.append && io.appendSync
      ensures objs == if applied then old(objs)[p := Moved(old(objs)[p], o, change)] else old(objs)
      ensures now.flights == old(now.flights)[p := Flight(o, AfterChange(change))]
      ensures now.ops == old(now.ops) && now.dir == old(now.dir)
    {
      var current := CheckState(p, o, change);
      if !current {
        return false;
      }
      JournalState(p, o, change, at, io.append, io.appendSync);
      if !io.append || !io.appendSync {
        return false;
      }
      applied := ApplyState(p, o, change);
    }

    ghost method Answer(p: Path, o: Object, result: UploadResult)
      requires Reached() && Get(now.flights, p) == Some(Flight(o, Sending))
      modifies this`trace, this`now
      ensures Reached() && trace == old(trace) + [UploadReturn(p, result)]
      ensures now == old(now).(flights := old(now.flights)[p := Flight(o, AfterUpload(o, result))], hist := now.hist)
    {
      Advance(UploadReturn(p, result));
    }

    /** Gives the slot back once the upload has returned. */
    method ReleaseSlot(p: Path)
      requires Valid() && p in now.flights && now.flights[p].stage.Returned?
      modifies this`inFlight, this`trace, this`now
      ensures Valid() && trace == old(trace) + [FlushEnd(p)]
      ensures now == old(now).(flights := old(now.flights) - {p})
    {
      inFlight := inFlight - {p};
      Advance(FlushEnd(p));
    }

    /** Records what came of an upload. */
    method Conclude(p: Path, obj: Object, result: UploadResult, at: nat, io: Io)
      requires Valid() && Get(now.flights, p) == Some(Flight(obj, Sending))
      modifies this`objs, this`bytes, this`dirty, this`trace, this`now
      ensures Valid()
      ensures objs == if p in old(objs) && old(objs)[p].storedAt == obj.storedAt
                      then old(objs)[p := Concluded(old(objs)[p], obj, result, io.Journals())] else old(objs)
      ensures now.flights == old(now.flights)[p := Flight(obj, Returned)]
    {
      Answer(p, obj, result);
      if result.Failed? {
        var _ := SetState(p, obj, ToDirty(result.reason), at, io);
      } else if result.Stored? && !Accepted(result.hash, obj) {
        var _ := SetState(p, obj, ToDirty("wrong hash"), at, io);
      } else if result.Stored? {
        var _ := SetState(p, obj, ToClean, at, io);
      }
    }

    /** The content file has gone: the entry follows it. */
    method Lose(p: Path, ghost obj: Object, at: nat, io: Io)
      requires Valid() && Get(now.flights, p) == Some(Flight(obj, Sending))
      requires p != "" && p !in now.ops && p !in now.dir.live
      modifies this`objs, this`bytes, this`dirty, this`trace, this`now
      ensures Valid() && objs == old(objs) - {p}
      ensures now.flights == old(now.flights)[p := Flight(obj, Returned)]
    {
      Answer(p, obj, FileMissing);
      Forget(p, ContentGone, at, io);
    }

    /** Notes the attempt; when that cannot be recorded the object goes on as it is. */
    method BeginUpload(p: Path, obj: Object, at: nat, io: Io)
      requires Valid() && Get(objs, p) == Some(obj) && Asks(p, obj, ToUploading, Unchecked)
      modifies this`objs, this`bytes, this`dirty, this`trace, this`now
      ensures Valid() && objs == old(objs)[p := if io.Journals() then Moved(obj, obj, ToUploading) else obj]
      ensures now.flights == old(now.flights)[p := Flight(obj, Sending)]
      ensures now.ops == old(now.ops) && now.dir == old(now.dir)
    {
      var _ := SetState(p, obj, ToUploading, at, io);
    }

    /** One upload of the version in hand, from its first record to its last. */
    method Send(p: Path, obj: Object, content: bool, result: UploadResult, at: nat, first: Io, last: Io)
      requires Valid() && p != "" && p !in now.ops && Get(objs, p) == Some(obj) && obj.state.Unsent()
      requires Asks(p, obj, ToUploading, Unchecked)
      requires content <==> p in now.dir.live
      modifies this`objs, this`bytes, this`dirty, this`trace, this`now
      ensures Valid()
      ensures objs == if content then old(objs)[p := FlushedAs(obj, result, first.Journals(), last.Journals())]
                      else old(objs) - {p}
      ensures now.flights == old(now.flights)[p := Flight(obj, Returned)]
    {
      BeginUpload(p, obj, at, first);
      Overwritten(old(objs), p, objs[p], FlushedAs(obj, result, first.Journals(), last.Journals()));
      Overwritten(old(now.flights), p, Flight(obj, Sending), Flight(obj, Returned));
      if content {
        Conclude(p, obj, result, at, last);
      } else {
        Lose(p, obj, at, last);
      }
    }

    /**
     * Sends one object upstream. Only an upload that returned without an error, and
     * with a hash that is empty or the object's own, makes it clean. `content` is the
     * outcome of opening the content file, `first` and `last` those of the record of the
     * upload and of the one of its outcome.
     */
    method FlushOne(p: Path, content: bool, result: UploadResult, at: nat, first: Io, last: Io)
      requires Valid() && p !in now.ops
      requires content <==> p in now.dir.live
      modifies this`objs, this`bytes, this`dirty, this`inFlight, this`trace, this`now
      ensures Valid() && inFlight == old(inFlight)
      ensures p in objs && p in old(objs) && old(objs)[p].state.Unsent() && objs[p].state.Clean? ==>
                result.Stored? && Accepted(result.hash, old(objs)[p])
      ensures if p in old(objs) && old(objs)[p].state.Unsent() && p !in old(inFlight) && !closed
              then objs == if content then old(objs)[p := FlushedAs(old(objs)[p], result, first.Journals(), last.Journals())]
                           else old(objs) - {p}
              else objs == old(objs)
    {
      var taken := TakeSlot(p);
      if taken.None? {
        return;
      }
      PathsNamed(p);
      Send(p, taken.value, content, result, at, first, last);
      CleanIffConfirmed(taken.value, result, first.Journals(), last.Journals());
      ReleaseSlot(p);
    }

    // ---------------------------------------------------------- reporting

    /** How many objects are unsent, and whether it is safe to shut down. */
    method Status() returns (dirtyBytes: int, dirtyObjects: nat, safeToShutDown: bool)
      requires Valid()
      ensures dirtyBytes == Total(objs, true) && 0 <= dirtyBytes <= bytes
      ensures dirtyObjects == |set p | p in objs && objs[p].state.Unsent()|
      ensures safeToShutDown <==> forall p :: p in objs ==> !objs[p].state.Unsent()
      ensures safeToShutDown ==> dirtyBytes == 0
    {
      dirtyBytes, dirtyObjects := dirty, 0;
      TotalUnsentLe(objs);
      var todo := objs.Keys;
      ghost var counted: set<Path> := {};
      while todo != {}
        invariant todo <= objs.Keys
        invariant counted == set p | p in objs && p !in todo && objs[p].state.Unsent()
        invariant dirtyObjects == |counted|
        decreases todo
      {
        var p :| p in todo;
        todo := todo - {p};
        if objs[p].state.Unsent() {
          dirtyObjects := dirtyObjects + 1;
          counted := counted + {p};
        }
      }
      assert counted == set p | p in objs && objs[p].state.Unsent();
      safeToShutDown := dirtyObjects == 0;
      if safeToShutDown {
        forall p | p in objs ensures !objs[p].state.Unsent() {
          assert p !in counted;
        }
        TotalNoneUnsent(objs);
      } else {
        assert exists p :: p in counted;
      }
    }
  }
}
