// What every event of the step system keeps, path by path. An event either concerns
// the path, and is handled case by case, or leaves it alone (`Quiet`).
module GatewayInvariant {
  import opened Prelude
  import opened Objects
  import opened Journal
  import opened Disk
  import opened Gateway

  // ------------------------------------------------------------ the invariant

  ghost predicate Certified(s: Gateway, v: Version) {
    v in s.hist.filled || v in s.hist.confirmed
  }

  /** An entry as it may stand in the live index or in any replay. */
  ghost predicate EntryOk(s: Gateway, p: Path, o: Option<Object>) {
    o.Some? ==>
      && p != "" && o.value.remotePath == p && 0 < o.value.storedAt <= ClockAt(s, p)
      && (o.value.state.Clean? ==> Certified(s, Version(p, o.value.storedAt)))
  }

  /** The entry in the replay of the log as it stands. */
  function LoggedAt(s: Gateway, p: Path): Option<Object> {
    s.log.CutAt(|s.log.All()|, p)
  }

  predicate SameEntry(a: Option<Object>, b: Option<Object>) {
    a.Some? == b.Some? && (a.Some? ==> Same(a.value, b.value))
  }

  ghost predicate CommitOk(s: Gateway, p: Path, op: PathOp)
    requires op.Commit?
  {
    && EntryOk(s, p, Some(op.obj)) && op.obj.size == |op.w.bytes| && op.w.path == p
    && op.obj.state == (if op.w.dirty then Dirty else Clean)
    && (p in s.objs ==> s.objs[p].storedAt != op.obj.storedAt)
    && (p in s.flights ==> s.flights[p].obj.storedAt != op.obj.storedAt)
    && (op.stage !in {TmpOpen, TmpSynced} ==> Get(s.dir.live, p) == Some(File(op.w.bytes, true)))
    && (op.stage in {DirSynced, Recorded, RecordSynced} ==> s.dir.Settled(p, op.w.bytes))
    && (op.stage in {Recorded, RecordSynced} ==> SameEntry(LoggedAt(s, p), Some(op.obj)))
    && (op.stage == RecordSynced ==>
          forall k | s.log.MayKeep(k) :: SameEntry(s.log.CutAt(k, p), Some(op.obj)))
  }

  ghost predicate DropOk(s: Gateway, p: Path, op: PathOp)
    requires op.Drop?
  {
    && (op.dropStage == Picked && op.cause in {Evicted, Refreshed, Cleared} ==>
          p in s.objs && !s.objs[p].state.Unsent())
    && (op.dropStage == Picked && op.cause == ContentGone ==> p !in s.dir.live)
    && (op.dropStage != Picked ==> p !in s.objs)
    && (op.dropStage in {FileGone, DropRecorded} ==> p !in s.dir.live)
  }

  ghost predicate OpOk(s: Gateway, p: Path) {
    p in s.ops ==> if s.ops[p].Commit? then CommitOk(s, p, s.ops[p]) else DropOk(s, p, s.ops[p])
  }

  /** Whether a flush still speaks for the version in the index. */
  predicate Speaks(s: Gateway, p: Path) {
    p in s.flights && p in s.objs && s.objs[p].storedAt == s.flights[p].obj.storedAt
  }

  ghost predicate FlightOk(s: Gateway, p: Path) {
    p in s.flights ==>
      var f := s.flights[p];
      && 0 < f.obj.storedAt <= ClockAt(s, p)
      && (Speaks(s, p) && !f.stage.Returned? ==>
            s.objs[p].state.Unsent() && s.objs[p].flushAttempts == f.obj.flushAttempts)
      && (f.stage.Setting? && f.stage.change.ToClean? ==> Version(p, f.obj.storedAt) in s.hist.confirmed)
  }

  /** No step between a path's journal record (or its rename) and its index update. */
  predicate Settling(s: Gateway, p: Path) {
    p in s.ops && match s.ops[p]
                  case Commit(_, _, stage) => stage !in {TmpOpen, TmpSynced}
                  case Drop(_, stage) => stage != Picked
  }

  /** The live entry, with a flush's recorded but not yet applied change. */
  function Expected(s: Gateway, p: Path): Option<Object> {
    if AtSub(s, p, Written) || AtSub(s, p, Flushed) then Changed(Get(s.objs, p), s.flights[p]) else Get(s.objs, p)
  }

  ghost predicate AgreesOk(s: Gateway, p: Path) {
    p !in s.hist.broken && !Settling(s, p) ==>
      SameEntry(VerifiedAt(LoggedAt(s, p), Get(s.dir.live, p)), Expected(s, p))
  }

  /** Every crash finds an entry in order. */
  ghost predicate CutsOk(s: Gateway, p: Path) {
    forall k | s.log.MayKeep(k) :: EntryOk(s, p, s.log.CutAt(k, p))
  }

  /** An entry that keeps the promise of a successful commit. */
  ghost predicate Keeps(s: Gateway, a: Ack, o: Option<Object>) {
    && o.Some?
    && o.value.storedAt == a.obj.storedAt && o.value.size == |a.bytes| && o.value.hash == a.obj.hash
    && (o.value.state.Unsent() || a.obj.state.Clean? || Version(a.obj.remotePath, a.obj.storedAt) in s.hist.cleaned)
  }

  ghost predicate AckOk(s: Gateway, p: Path) {
    p in s.hist.acked ==>
      var a := s.hist.acked[p];
      && !Settling(s, p) && EntryOk(s, p, Some(a.obj))
      && s.dir.Settled(p, a.bytes)
      && forall k | s.log.MayKeep(k) :: Keeps(s, a, s.log.CutAt(k, p))
  }

  /** Every live object is vouched for, unless a later commit is, or went wrong, on top of it. */
  ghost predicate LiveOk(s: Gateway, p: Path) {
    p in s.objs && p !in s.hist.ruined && !Settling(s, p) ==>
      p in s.hist.acked && s.hist.acked[p].obj.storedAt == s.objs[p].storedAt
  }

  /** An entry nothing has touched since the last directory sync is what that sync saw. */
  ghost predicate DirOk(s: Gateway, p: Path) {
    (forall op :: op in s.dir.pending ==> op.path != p) ==> Get(s.dir.live, p) == Get(s.dir.durable, p)
  }

  ghost predicate PathOk(s: Gateway, p: Path) {
    && EntryOk(s, p, Get(s.objs, p)) && DirOk(s, p)
    && OpOk(s, p) && FlightOk(s, p) && AgreesOk(s, p) && CutsOk(s, p) && AckOk(s, p) && LiveOk(s, p)
  }

  /** Files are synced before they are renamed into place. */
  ghost predicate FilesOk(s: Gateway) {
    && (forall p :: p in s.dir.live ==> s.dir.live[p].synced)
    && (forall p :: p in s.dir.durable ==> s.dir.durable[p].synced)
  }

  ghost predicate Inv(s: Gateway) {
    FilesOk(s) && s.hist.cleaned <= s.hist.confirmed && (forall w :: w in s.writers ==> s.writers[w].path != "") && forall p :: PathOk(s, p)
  }

  // ------------------------------------------------------------ paths an event leaves alone

  /** The log has gained at most a record about other paths, or been flushed. */
  ghost predicate LogQuiet(l: Log, l': Log, p: Path) {
    || l' == l
    || l' == l.Flushed()
    || exists r :: l' == l.Written(r) && !About(r, p)
  }

  ghost predicate HistGrows(s: Gateway, s': Gateway, p: Path) {
    && ClockAt(s, p) <= ClockAt(s', p)
    && s.hist.filled <= s'.hist.filled
    && s.hist.confirmed <= s'.hist.confirmed
    && s.hist.cleaned <= s'.hist.cleaned
  }

  /** The directory entry has not changed; it may have been synced. */
  ghost predicate DirQuiet(s: Gateway, s': Gateway, p: Path) {
    && Get(s.dir.live, p) == Get(s'.dir.live, p)
    && ((Get(s'.dir.durable, p) == Get(s.dir.durable, p)
         && forall op: DirOp :: op.path == p ==> (op in s'.dir.pending <==> op in s.dir.pending))
        || (Get(s'.dir.durable, p) == Get(s'.dir.live, p) && forall op :: op in s'.dir.pending ==> op.path != p))
  }

  ghost predicate Quiet(s: Gateway, s': Gateway, p: Path) {
    && Get(s.objs, p) == Get(s'.objs, p)
    && Get(s.ops, p) == Get(s'.ops, p)
    && Get(s.flights, p) == Get(s'.flights, p)
    && Get(s.hist.acked, p) == Get(s'.hist.acked, p)
    && (p in s.hist.broken <==> p in s'.hist.broken)
    && (p in s.hist.ruined <==> p in s'.hist.ruined)
    && DirQuiet(s, s', p)
    && LogQuiet(s.log, s'.log, p)
    && HistGrows(s, s', p)
  }

  lemma QuietCut(l: Log, l': Log, k: nat, p: Path)
    requires LogQuiet(l, l', p) && l'.MayKeep(k)
    ensures |l'.All()| >= |l.All()|
    ensures exists j :: l.MayKeep(j) && l'.CutAt(k, p) == l.CutAt(j, p)
    ensures k == |l'.All()| ==> l'.CutAt(k, p) == l.CutAt(|l.All()|, p)
  {
    if l' == l {
    } else if l' == l.Flushed() {
      CutAfterFlush(l, k, p);
    } else {
      var r :| l' == l.Written(r) && !About(r, p);
      CutAfterWrite(l, r, k, p);
      if k > |l.All()| {
        assert l'.CutAt(k, p) == l.CutAt(|l.All()|, p);
      }
    }
  }

  lemma QuietReplayed(s: Gateway, s': Gateway, p: Path)
    requires Quiet(s, s', p)
    ensures LoggedAt(s', p) == LoggedAt(s, p)
  {
    QuietCut(s.log, s'.log, |s'.log.All()|, p);
  }

  lemma QuietSettled(s: Gateway, s': Gateway, p: Path)
    requires DirOk(s, p) && DirQuiet(s, s', p)
    ensures DirOk(s', p)
    ensures forall bytes :: s.dir.Settled(p, bytes) ==> s'.dir.Settled(p, bytes)
  {
  }

  lemma QuietKeepsOps(s: Gateway, s': Gateway, p: Path)
    requires PathOk(s, p) && Quiet(s, s', p)
    ensures EntryOk(s', p, Get(s'.objs, p)) && OpOk(s', p) && DirOk(s', p)
  {
    QuietSettled(s, s', p);
    QuietReplayed(s, s', p);
    if p in s.ops && s.ops[p].Commit? && s.ops[p].stage == RecordSynced {
      forall k | s'.log.MayKeep(k) ensures SameEntry(s'.log.CutAt(k, p), Some(s.ops[p].obj)) {
        QuietCut(s.log, s'.log, k, p);
      }
    }
  }

  lemma QuietKeepsCuts(s: Gateway, s': Gateway, p: Path)
    requires PathOk(s, p) && Quiet(s, s', p)
    ensures CutsOk(s', p) && AckOk(s', p)
  {
    QuietSettled(s, s', p);
    forall k | s'.log.MayKeep(k)
      ensures EntryOk(s', p, s'.log.CutAt(k, p))
      ensures p in s'.hist.acked ==> Keeps(s', s'.hist.acked[p], s'.log.CutAt(k, p))
    {
      QuietCut(s.log, s'.log, k, p);
    }
  }

  lemma QuietKeepsFlights(s: Gateway, s': Gateway, p: Path)
    requires PathOk(s, p) && Quiet(s, s', p)
    ensures FlightOk(s', p) && AgreesOk(s', p) && LiveOk(s', p)
  {
    QuietReplayed(s, s', p);
  }

  lemma QuietPreserves(s: Gateway, s': Gateway, p: Path)
    requires PathOk(s, p) && Quiet(s, s', p)
    ensures PathOk(s', p)
  {
    QuietKeepsOps(s, s', p);
    QuietKeepsCuts(s, s', p);
    QuietKeepsFlights(s, s', p);
  }
}
