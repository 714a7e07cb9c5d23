// The write-back cache as a step system. Every critical section of the code is one
// event; a run is any sequence of enabled events, so flushes interleave freely with
// commits, removals, evictions, reads and crashes.
//
// Per path, at most one commit or drop is in progress (`ops`), and at most one
// upload (`flights`, the table of flush slots). Flushes overlap with both.
module Gateway {
  import opened Prelude
  import opened Objects
  import opened Journal
  import opened Disk

  // ------------------------------------------------------------ operations in progress

  /** A temporary file being written, before its commit. */
  datatype Writer = Writer(path: Path, dirty: bool, limit: nat, bytes: seq<byte>, base: nat)

  /** How far the durability sequence of a commit has come. */
  datatype CommitStage = TmpOpen | TmpSynced | Renamed | DirSynced | Recorded | RecordSynced

  /** Why an object is dropped. */
  datatype Cause = Evicted | Refreshed | Cleared | RemovedByUser | ContentGone

  datatype DropStage = Picked | Unindexed | FileGone | DropRecorded

  datatype PathOp =
    | Commit(obj: Object, w: Writer, stage: CommitStage)
    | Drop(cause: Cause, dropStage: DropStage)

  /** The lifecycle changes a flush asks for, and how far one has come. */
  datatype Change = ToUploading | ToDirty(err: string) | ToClean

  datatype Sub = Unchecked | Checked | Written | Flushed

  datatype FlightStage = Setting(change: Change, sub: Sub) | Sending | Returned

  /** One upload: the version it sends, and where it is. */
  datatype Flight = Flight(obj: Object, stage: FlightStage)

  /** What an upload attempt came back with. */
  datatype UploadResult = Cancelled | FileMissing | Failed(reason: string) | Stored(hash: string)

  // ------------------------------------------------------------ the state

  /** A version of a path is identified by when it landed. */
  datatype Version = Version(path: Path, storedAt: nat)

  /** A version the cache has vouched for, and its bytes. */
  datatype Ack = Ack(obj: Object, bytes: seq<byte>)

  /**
   * What has happened so far, for stating what must still hold.
   *  acked      the version and bytes a successful commit, or the opening, vouched for, until
   *             a later commit renames over it or a drop takes it out of the index
   *  filled     versions committed as clean, and those clean in the journal first opened
   *  confirmed  versions some upload of which succeeded with the right hash
   *  cleaned    versions for which a clean record was appended
   *  broken     paths where an append or a directory sync failed half way
   *  ruined     the broken ones whose content a failed commit replaced
   *  landed     bytes of all dirty commits that have landed
   */
  datatype History = History(
    acked: map<Path, Ack>, filled: set<Version>, confirmed: set<Version>, cleaned: set<Version>,
    broken: set<Path>, ruined: set<Path>, landed: nat)

  datatype Gateway = Gateway(
    dir: Dir, log: Log, objs: Index,
    ops: map<Path, PathOp>, flights: map<Path, Flight>, writers: map<nat, Writer>,
    clock: map<Path, nat>, maxDirty: nat, hist: History)

  // ------------------------------------------------------------ small parts

  function StateOf(c: Change): State {
    match c
    case ToUploading => Uploading
    case ToDirty(_) => Dirty
    case ToClean => Clean
  }

  function ErrOf(c: Change): string {
    if c.ToDirty? then c.err else ""
  }

  function AttemptsOf(c: Change, o: Object): nat {
    if c.ToDirty? then o.flushAttempts + 1 else o.flushAttempts
  }

  /** Where a flush goes once a change has been applied, or could not be. */
  function AfterChange(c: Change): FlightStage {
    if c.ToUploading? then Sending else Returned
  }

  function ChangeRecord(f: Flight, p: Path, at: nat): Record
    requires f.stage.Setting?
  {
    StateRecord(p, f.obj.storedAt, StateOf(f.stage.change), ErrOf(f.stage.change),
                AttemptsOf(f.stage.change, f.obj), at)
  }

  /** The live entry after a flush's change, which misses a version that was replaced. */
  function Changed(o: Option<Object>, f: Flight): Option<Object>
    requires f.stage.Setting?
  {
    if o.Some? && o.value.storedAt == f.obj.storedAt
    then Some(Transitioned(o.value, StateOf(f.stage.change), ErrOf(f.stage.change), AttemptsOf(f.stage.change, f.obj)))
    else o
  }

  /** When the last version of a path landed. */
  function ClockAt(s: Gateway, p: Path): nat {
    if p in s.clock then s.clock[p] else 0
  }

  /** Room a new dirty writer may use: the allowance, with a replaced object's bytes back. */
  ghost function Room(s: Gateway, p: Path): int {
    s.maxDirty - Total(s.objs, true) + (if p in s.objs then Weight(s.objs[p], true) else 0)
  }

  /** Upstream's hash decides whether a successful upload counts. */
  predicate Accepted(hash: string, o: Object) {
    hash == "" || EqualFold(hash, o.hash)
  }

  /** Where a flush goes once an upload is back. */
  function AfterUpload(o: Object, result: UploadResult): FlightStage {
    match result
    case Cancelled => Returned
    case FileMissing => Returned
    case Failed(reason) => Setting(ToDirty(reason), Unchecked)
    case Stored(hash) => if Accepted(hash, o) then Setting(ToClean, Unchecked) else Setting(ToDirty("wrong hash"), Unchecked)
  }

  // ------------------------------------------------------------ events

  datatype Event =
    // a writer
    | OpenWriter(w: nat, path: Path, expected: nat, dirty: bool)
    | WriteBytes(w: nat, bytes: seq<byte>)
    | AbortWriter(w: nat)
    // a commit, step by step
    | CommitBegin(w: nat, obj: Object)
    | CommitSync(path: Path)
    | CommitRename(path: Path)
    | CommitDirSync(path: Path)
    | CommitRecord(path: Path)
    | CommitRecordSync(path: Path)
    | CommitLand(path: Path)
    | CommitFail(path: Path)
    // dropping an object
    | DropPick(path: Path, cause: Cause)
    | DropIndex(path: Path)
    | DropFile(path: Path)
    | DropWrite(path: Path, at: nat)
    | DropFinish(path: Path, synced: bool)
    // a flush
    | FlushBegin(path: Path)
    | StateCheck(path: Path)
    | StateWrite(path: Path, at: nat)
    | StateSync(path: Path)
    | StateApply(path: Path)
    | StateFail(path: Path)
    | UploadReturn(path: Path, result: UploadResult)
    | FlushEnd(path: Path)
    // a read
    | Access(path: Path, at: nat)
    | AccessRecord(path: Path, at: nat)
    // the process ends, cleanly or not, and the next one opens the directory
    | Restart(kept: nat, files: map<Path, File>)

  predicate AtCommit(s: Gateway, p: Path, stage: CommitStage) {
    p in s.ops && s.ops[p].Commit? && s.ops[p].stage == stage
  }

  predicate AtDrop(s: Gateway, p: Path, stage: DropStage) {
    p in s.ops && s.ops[p].Drop? && s.ops[p].dropStage == stage
  }

  predicate AtSub(s: Gateway, p: Path, sub: Sub) {
    p in s.flights && s.flights[p].stage.Setting? && s.flights[p].stage.sub == sub
  }

  /** Whether an object may be picked for dropping. */
  predicate MayPick(s: Gateway, p: Path, cause: Cause) {
    match cause
    case Evicted => p in s.objs && s.objs[p].state.Clean?
    case Refreshed => p in s.objs && !s.objs[p].state.Unsent()
    case Cleared => p in s.objs && forall q :: q in s.objs ==> !s.objs[q].state.Unsent()
    case RemovedByUser => p in s.objs && p !in s.flights
    case ContentGone => p !in s.dir.live
  }

  ghost predicate Enabled(s: Gateway, e: Event) {
    match e
    case OpenWriter(w, p, expected, dirty) =>
      && w !in s.writers && p != ""
      && (dirty ==> Room(s, p) > 0 && (expected == 0 || expected <= Room(s, p)))
    case WriteBytes(w, bs) =>
      w in s.writers && (s.writers[w].dirty ==> |s.writers[w].bytes| + |bs| <= s.writers[w].limit)
    case AbortWriter(w) => w in s.writers
    case CommitBegin(w, o) =>
      && w in s.writers && s.writers[w].path !in s.ops
      && o.remotePath == s.writers[w].path && o.size == |s.writers[w].bytes|
      && o.storedAt > ClockAt(s, o.remotePath)
      && o.state == (if s.writers[w].dirty then Dirty else Clean)
    case CommitSync(p) => AtCommit(s, p, TmpOpen)
    case CommitRename(p) => AtCommit(s, p, TmpSynced)
    case CommitDirSync(p) => AtCommit(s, p, Renamed)
    case CommitRecord(p) => AtCommit(s, p, DirSynced)
    case CommitRecordSync(p) => AtCommit(s, p, Recorded)
    case CommitLand(p) => AtCommit(s, p, RecordSynced)
    case CommitFail(p) => p in s.ops && s.ops[p].Commit? && !s.ops[p].stage.RecordSynced?
    case DropPick(p, cause) => p !in s.ops && p != "" && MayPick(s, p, cause)
    case DropIndex(p) => AtDrop(s, p, Picked)
    case DropFile(p) => AtDrop(s, p, Unindexed)
    case DropWrite(p, _) => AtDrop(s, p, FileGone)
    case DropFinish(p, synced) => AtDrop(s, p, DropRecorded) || (AtDrop(s, p, FileGone) && !synced)
    case FlushBegin(p) => p in s.objs && s.objs[p].state.Unsent() && p !in s.flights
    case StateCheck(p) => AtSub(s, p, Unchecked)
    case StateWrite(p, _) => AtSub(s, p, Checked)
    case StateSync(p) => AtSub(s, p, Written)
    case StateApply(p) => AtSub(s, p, Flushed)
    case StateFail(p) => AtSub(s, p, Checked) || AtSub(s, p, Written)
    case UploadReturn(p, _) => p in s.flights && s.flights[p].stage.Sending?
    case FlushEnd(p) => p in s.flights && s.flights[p].stage.Returned?
    case Access(p, _) => p in s.objs
    case AccessRecord(p, _) => true
    case Restart(k, files) => s.log.MayKeep(k) && s.dir.Survives(files)
  }

  // ------------------------------------------------------------ one step

  function AtStage(s: Gateway, p: Path, stage: CommitStage): map<Path, PathOp>
    requires p in s.ops && s.ops[p].Commit?
  {
    s.ops[p := s.ops[p].(stage := stage)]
  }

  function InFlight(s: Gateway, p: Path, stage: FlightStage): map<Path, Flight>
    requires p in s.flights
  {
    s.flights[p := s.flights[p].(stage := stage)]
  }

  /** The commit sequence: sync, rename, sync the directory, record, sync, index. */
  ghost function CommitStep(s: Gateway, e: Event): Gateway
    requires Enabled(s, e)
    requires e.CommitBegin? || e.CommitSync? || e.CommitRename? || e.CommitDirSync? || e.CommitRecord?
          || e.CommitRecordSync? || e.CommitLand? || e.CommitFail?
  {
    match e
    case CommitBegin(w, o) =>
      s.(ops := s.ops[o.remotePath := Commit(o, s.writers[w], TmpOpen)],
         writers := s.writers - {w},
         clock := s.clock[o.remotePath := o.storedAt],
         hist := s.hist.(filled := if o.state.Clean? then s.hist.filled + {Version(o.remotePath, o.storedAt)}
                                   else s.hist.filled))
    case CommitSync(p) => s.(ops := AtStage(s, p, TmpSynced))
    case CommitRename(p) =>
      s.(ops := AtStage(s, p, Renamed),
         dir := s.dir.Renamed(p, File(s.ops[p].w.bytes, s.ops[p].stage.TmpSynced?)),
         hist := s.hist.(acked := s.hist.acked - {p}))
    case CommitDirSync(p) => s.(ops := AtStage(s, p, DirSynced), dir := s.dir.Synced())
    case CommitRecord(p) => s.(ops := AtStage(s, p, Recorded), log := s.log.Written(PutRecord(s.ops[p].obj)))
    case CommitRecordSync(p) => s.(ops := AtStage(s, p, RecordSynced), log := s.log.Flushed())
    case CommitLand(p) =>
      var op := s.ops[p];
      s.(ops := s.ops - {p},
         objs := s.objs[p := op.obj],
         hist := s.hist.(acked := s.hist.acked[p := Ack(op.obj, op.w.bytes)],
                         broken := s.hist.broken - {p},
                         ruined := s.hist.ruined - {p},
                         landed := s.hist.landed + Weight(op.obj, true)))
    case CommitFail(p) =>
      if s.ops[p].stage.TmpOpen? || s.ops[p].stage.TmpSynced? then s.(ops := s.ops - {p})
      else s.(ops := s.ops - {p}, dir := s.dir.Removed(p),
              hist := s.hist.(broken := s.hist.broken + {p}, ruined := s.hist.ruined + {p}))
  }

  /** Forgetting an object: the index first, then the file, then the record. */
  ghost function DropStep(s: Gateway, e: Event): Gateway
    requires Enabled(s, e)
    requires e.DropPick? || e.DropIndex? || e.DropFile? || e.DropWrite? || e.DropFinish?
  {
    match e
    case DropPick(p, cause) => s.(ops := s.ops[p := Drop(cause, Picked)])
    case DropIndex(p) =>
      s.(ops := if p in s.objs then s.ops[p := s.ops[p].(dropStage := Unindexed)] else s.ops - {p},
         objs := s.objs - {p},
         hist := s.hist.(acked := s.hist.acked - {p}))
    case DropFile(p) => s.(ops := s.ops[p := s.ops[p].(dropStage := FileGone)], dir := s.dir.Removed(p))
    case DropWrite(p, at) =>
      s.(ops := s.ops[p := s.ops[p].(dropStage := DropRecorded)], log := s.log.Written(DropRecord(p, at)))
    case DropFinish(p, synced) =>
      s.(ops := s.ops - {p}, log := if synced then s.log.Flushed() else s.log)
  }

  /** A change of state that a flush asks for: checked, recorded, synced, applied; or given up. */
  ghost function StateStep(s: Gateway, e: Event): (t: Gateway)
    requires Enabled(s, e)
    requires e.StateCheck? || e.StateWrite? || e.StateSync? || e.StateApply? || e.StateFail?
    ensures t.dir == s.dir && t.ops == s.ops && t.writers == s.writers && t.clock == s.clock && t.maxDirty == s.maxDirty
    ensures t.hist.landed == s.hist.landed && t.hist.acked == s.hist.acked
  {
    var p, f := e.path, s.flights[e.path];
    match e
    case StateCheck(_) =>
      if p in s.objs && s.objs[p].storedAt == f.obj.storedAt
      then s.(flights := InFlight(s, p, Setting(f.stage.change, Checked)))
      else s.(flights := InFlight(s, p, AfterChange(f.stage.change)))
    case StateWrite(_, at) =>
      s.(flights := InFlight(s, p, Setting(f.stage.change, Written)),
         log := s.log.Written(ChangeRecord(f, p, at)),
         hist := if f.stage.change.ToClean? then s.hist.(cleaned := s.hist.cleaned + {Version(p, f.obj.storedAt)}) else s.hist)
    case StateSync(_) =>
      s.(flights := InFlight(s, p, Setting(f.stage.change, Flushed)), log := s.log.Flushed())
    case StateApply(_) =>
      s.(flights := InFlight(s, p, AfterChange(f.stage.change)),
         objs := if p in s.objs then s.objs[p := Changed(Some(s.objs[p]), f).value] else s.objs)
    case StateFail(_) =>
      s.(flights := InFlight(s, p, AfterChange(f.stage.change)),
         hist := if f.stage.sub.Written? then s.hist.(broken := s.hist.broken + {p}) else s.hist)
  }

  /** A flush: mark uploading, send, then record what came of it. */
  ghost function FlushStep(s: Gateway, e: Event): (t: Gateway)
    requires Enabled(s, e)
    requires e.FlushBegin? || e.StateCheck? || e.StateWrite? || e.StateSync? || e.StateApply? || e.StateFail?
          || e.UploadReturn? || e.FlushEnd?
    ensures t.dir == s.dir && t.ops == s.ops && t.writers == s.writers && t.clock == s.clock && t.maxDirty == s.maxDirty
    ensures t.hist.landed == s.hist.landed && t.hist.acked == s.hist.acked
  {
    match e
    case FlushBegin(p) => s.(flights := s.flights[p := Flight(s.objs[p], Setting(ToUploading, Unchecked))])
    case UploadReturn(p, result) =>
      var f := s.flights[p];
      s.(flights := InFlight(s, p, AfterUpload(f.obj, result)),
         hist := if result.Stored? && Accepted(result.hash, f.obj)
                 then s.hist.(confirmed := s.hist.confirmed + {Version(p, f.obj.storedAt)}) else s.hist)
    case FlushEnd(p) => s.(flights := s.flights - {p})
    case StateCheck(_) => StateStep(s, e)
    case StateWrite(_, _) => StateStep(s, e)
    case StateSync(_) => StateStep(s, e)
    case StateApply(_) => StateStep(s, e)
    case StateFail(_) => StateStep(s, e)
  }

  /** The next process: replay, verify against the directory, compact when due. */
  ghost function Reopened(s: Gateway, recs: seq<Record>, files: map<Path, File>): Gateway {
    var objs := Verified(Replay(recs), files);
    s.(dir := Dir(Accounted(Replay(recs), files), files, set p | p in files && p !in objs :: DirOp(p, None)),
       log := if |recs| > COMPACT_AFTER then Log(Compacted(objs), []) else Log(recs, []),
       objs := objs,
       ops := map[], flights := map[], writers := map[],
       hist := s.hist.(broken := {}, ruined := {}, acked := Vouched(objs, files) + s.hist.acked))
  }

  /** Opening vouches for every object it keeps. */
  function Vouched(objs: Index, files: map<Path, File>): map<Path, Ack> {
    map p | p in objs && p in files :: Ack(objs[p], files[p].bytes)
  }

  ghost function Step(s: Gateway, e: Event): Gateway
    requires Enabled(s, e)
  {
    match e
    case OpenWriter(w, p, _, dirty) =>
      s.(writers := s.writers[w := Writer(p, dirty, if dirty then Room(s, p) else 0, [], s.hist.landed)])
    case WriteBytes(w, bs) =>
      s.(writers := s.writers[w := s.writers[w].(bytes := s.writers[w].bytes + bs)])
    case AbortWriter(w) => s.(writers := s.writers - {w})
    case CommitBegin(_, _) => CommitStep(s, e)
    case CommitSync(_) => CommitStep(s, e)
    case CommitRename(_) => CommitStep(s, e)
    case CommitDirSync(_) => CommitStep(s, e)
    case CommitRecord(_) => CommitStep(s, e)
    case CommitRecordSync(_) => CommitStep(s, e)
    case CommitLand(_) => CommitStep(s, e)
    case CommitFail(_) => CommitStep(s, e)
    case DropPick(_, _) => DropStep(s, e)
    case DropIndex(_) => DropStep(s, e)
    case DropFile(_) => DropStep(s, e)
    case DropWrite(_, _) => DropStep(s, e)
    case DropFinish(_, _) => DropStep(s, e)
    case FlushBegin(_) => FlushStep(s, e)
    case StateCheck(_) => FlushStep(s, e)
    case StateWrite(_, _) => FlushStep(s, e)
    case StateSync(_) => FlushStep(s, e)
    case StateApply(_) => FlushStep(s, e)
    case StateFail(_) => FlushStep(s, e)
    case UploadReturn(_, _) => FlushStep(s, e)
    case FlushEnd(_) => FlushStep(s, e)
    case Access(p, at) => s.(objs := s.objs[p := s.objs[p].(lastAccess := at)])
    case AccessRecord(p, at) => s.(log := s.log.Written(TouchRecord(p, at)))
    case Restart(k, files) => Reopened(s, s.log.All()[..k], files)
  }

  // ------------------------------------------------------------ runs

  ghost predicate IsRun(s: Gateway, es: seq<Event>)
    decreases |es|
  {
    es == [] || (Enabled(s, es[0]) && IsRun(Step(s, es[0]), es[1..]))
  }

  ghost function Exec(s: Gateway, es: seq<Event>): Gateway
    requires IsRun(s, es)
    decreases |es|
  {
    if es == [] then s else Exec(Step(s, es[0]), es[1..])
  }

  /** The events of a commit that goes through. */
  function Committing(w: nat, o: Object): seq<Event> {
    var p := o.remotePath;
    [CommitBegin(w, o), CommitSync(p), CommitRename(p), CommitDirSync(p), CommitRecord(p), CommitRecordSync(p),
     CommitLand(p)]
  }

  /** Nothing yet: the state before a directory is opened. */
  ghost function Blank(clock: map<Path, nat>, maxDirty: nat, filled: set<Version>): Gateway {
    Gateway(Dir(map[], map[], {}), Log([], []), map[], map[], map[], map[], clock, maxDirty,
            History(map[], filled, {}, {}, {}, {}, 0))
  }

  /** What earlier runs may have left in a journal: entries under their paths, stamped before now. */
  ghost predicate Plausible(recs: seq<Record>, clock: map<Path, nat>) {
    forall p {:trigger ReplayAt(recs, p)} :: ReplayAt(recs, p).Some? ==>
      var o := ReplayAt(recs, p).value;
      o.remotePath == p && p != "" && p in clock && 0 < o.storedAt <= clock[p]
  }

  /** The versions a journal says are clean. */
  function CleanVersions(recs: seq<Record>): set<Version> {
    var objs := Replay(recs);
    set p | p in objs && objs[p].state.Clean? :: Version(p, objs[p].storedAt)
  }

  ghost predicate OpenedOn(s: Gateway, blank: Gateway, recs: seq<Record>, files: map<Path, File>) {
    && s == Reopened(blank, recs, files)
    && blank == Blank(blank.clock, blank.maxDirty, CleanVersions(recs))
    && (forall p :: p in files ==> files[p].synced)
    && Plausible(recs, blank.clock)
  }

  /** A process that has just opened a whole journal, whatever the directory held. */
  ghost predicate Opened(s: Gateway) {
    exists clock, maxDirty, recs, files :: OpenedOn(s, Blank(clock, maxDirty, CleanVersions(recs)), recs, files)
  }

  /** `es` leads from `s` to `t`. */
  ghost predicate RunsTo(s: Gateway, es: seq<Event>, t: Gateway) {
    IsRun(s, es) && t == Exec(s, es)
  }

  /** `es` leads from an opened directory to `s`. */
  ghost predicate LeadsTo(start: Gateway, es: seq<Event>, s: Gateway) {
    Opened(start) && RunsTo(start, es, s)
  }
}
