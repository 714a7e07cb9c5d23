// The invariant survives every event.
module GatewaySteps {
  import opened Prelude
  import opened Objects
  import opened Journal
  import opened Disk
  import opened Gateway
  import opened GatewayInvariant

  /** The path an event is about, if it is about one. */
  function Subject(e: Event): Option<Path> {
    match e
    case OpenWriter(_, _, _, _) => None
    case WriteBytes(_, _) => None
    case AbortWriter(_) => None
    case Restart(_, _) => None
    case CommitBegin(_, o) => Some(o.remotePath)
    case CommitSync(p) => Some(p)
    case CommitRename(p) => Some(p)
    case CommitDirSync(p) => Some(p)
    case CommitRecord(p) => Some(p)
    case CommitRecordSync(p) => Some(p)
    case CommitLand(p) => Some(p)
    case CommitFail(p) => Some(p)
    case DropPick(p, _) => Some(p)
    case DropIndex(p) => Some(p)
    case DropFile(p) => Some(p)
    case DropWrite(p, _) => Some(p)
    case DropFinish(p, _) => Some(p)
    case FlushBegin(p) => Some(p)
    case StateCheck(p) => Some(p)
    case StateWrite(p, _) => Some(p)
    case StateSync(p) => Some(p)
    case StateApply(p) => Some(p)
    case StateFail(p) => Some(p)
    case UploadReturn(p, _) => Some(p)
    case FlushEnd(p) => Some(p)
    case Access(p, _) => Some(p)
    case AccessRecord(p, _) => Some(p)
  }

  predicate IsCommit(e: Event) {
    e.CommitBegin? || e.CommitSync? || e.CommitRename? || e.CommitDirSync? || e.CommitRecord?
    || e.CommitRecordSync? || e.CommitLand? || e.CommitFail?
  }

  predicate IsDrop(e: Event) {
    e.DropPick? || e.DropIndex? || e.DropFile? || e.DropWrite? || e.DropFinish?
  }

  predicate IsFlush(e: Event) {
    e.FlushBegin? || e.StateCheck? || e.StateWrite? || e.StateSync? || e.StateApply? || e.StateFail?
    || e.UploadReturn? || e.FlushEnd?
  }

  // ------------------------------------------------------------ the paths an event is not about

  /** Every commit in progress is of an object of that path. */
  ghost predicate OpsFiled(s: Gateway) {
    forall q :: q in s.ops && s.ops[q].Commit? ==> s.ops[q].obj.remotePath == q
  }

  lemma CommitLeavesOthers(s: Gateway, e: Event, p: Path)
    requires OpsFiled(s) && Enabled(s, e) && IsCommit(e) && Subject(e) != Some(p)
    ensures Quiet(s, Step(s, e), p)
  {
    if e.CommitRename? {
      RenameLeavesOthers(s, e.path, p);
    } else if e.CommitDirSync? {
      DirSyncLeavesOthers(s, e.path, p);
    } else if e.CommitFail? {
      FailLeavesOthers(s, e.path, p);
    } else if e.CommitRecord? || e.CommitRecordSync? {
      RecordStepLeavesOthers(s, e, p);
    }
  }

  lemma RenameLeavesOthers(s: Gateway, q: Path, p: Path)
    requires Enabled(s, CommitRename(q)) && q != p
    ensures Quiet(s, Step(s, CommitRename(q)), p)
  {
  }

  lemma DirSyncLeavesOthers(s: Gateway, q: Path, p: Path)
    requires Enabled(s, CommitDirSync(q)) && q != p
    ensures Quiet(s, Step(s, CommitDirSync(q)), p)
  {
  }

  lemma FailLeavesOthers(s: Gateway, q: Path, p: Path)
    requires Enabled(s, CommitFail(q)) && q != p
    ensures Quiet(s, Step(s, CommitFail(q)), p)
  {
  }

  lemma RecordStepLeavesOthers(s: Gateway, e: Event, p: Path)
    requires OpsFiled(s) && Enabled(s, e) && (e.CommitRecord? || e.CommitRecordSync?) && e.path != p
    ensures Quiet(s, Step(s, e), p)
  {
    if e.CommitRecord? {
      assert Step(s, e).log == s.log.Written(PutRecord(s.ops[e.path].obj));
    }
  }

  lemma DropLeavesOthers(s: Gateway, e: Event, p: Path)
    requires Enabled(s, e) && IsDrop(e) && Subject(e) != Some(p)
    ensures Quiet(s, Step(s, e), p)
  {
    var s' := Step(s, e);
    if e.DropWrite? {
      assert s'.log == s.log.Written(DropRecord(e.path, e.at));
    }
  }

  lemma FlushLeavesOthers(s: Gateway, e: Event, p: Path)
    requires Enabled(s, e) && IsFlush(e) && Subject(e) != Some(p)
    ensures Quiet(s, Step(s, e), p)
  {
    if e.StateWrite? || e.StateSync? || e.StateFail? {
      StateLogLeavesOthers(s, e, p);
    } else if e.UploadReturn? {
      ReturnLeavesOthers(s, e.path, e.result, p);
    }
  }

  lemma StateLogLeavesOthers(s: Gateway, e: Event, p: Path)
    requires Enabled(s, e) && (e.StateWrite? || e.StateSync? || e.StateFail?) && e.path != p
    ensures Quiet(s, Step(s, e), p)
  {
    if e.StateWrite? {
      assert Step(s, e).log == s.log.Written(ChangeRecord(s.flights[e.path], e.path, e.at));
    }
  }

  lemma ReturnLeavesOthers(s: Gateway, q: Path, result: UploadResult, p: Path)
    requires Enabled(s, UploadReturn(q, result)) && q != p
    ensures Quiet(s, Step(s, UploadReturn(q, result)), p)
  {
  }

  lemma OthersQuiet(s: Gateway, e: Event, p: Path)
    requires Inv(s) && Enabled(s, e) && !e.Restart? && Subject(e) != Some(p)
    ensures Quiet(s, Step(s, e), p)
  {
    CommitsFiled(s);
    OthersLeftAlone(s, e, p);
  }

  lemma CommitsFiled(s: Gateway)
    requires Inv(s)
    ensures OpsFiled(s)
  {
    forall q | q in s.ops && s.ops[q].Commit? ensures s.ops[q].obj.remotePath == q {
      assert PathOk(s, q);
    }
  }

  lemma OthersLeftAlone(s: Gateway, e: Event, p: Path)
    requires OpsFiled(s) && Enabled(s, e) && !e.Restart? && Subject(e) != Some(p)
    ensures Quiet(s, Step(s, e), p)
  {
    if IsCommit(e) {
      CommitLeavesOthers(s, e, p);
    } else if IsDrop(e) {
      DropLeavesOthers(s, e, p);
    } else if IsFlush(e) {
      FlushLeavesOthers(s, e, p);
    } else if e.AccessRecord? {
      assert Step(s, e).log == s.log.Written(TouchRecord(e.path, e.at));
    }
  }

  // ------------------------------------------------------------ the path an event is about

  /** Cuts of a log that has gained one record. */
  lemma CutsGrow(l: Log, r: Record, p: Path)
    ensures l.Written(r).CutAt(|l.Written(r).All()|, p) == ApplyAt(l.CutAt(|l.All()|, p), r, p)
    ensures forall k: nat | l.Written(r).MayKeep(k) ::
      l.Written(r).CutAt(k, p) == if k <= |l.All()| then l.CutAt(k, p) else ApplyAt(l.CutAt(|l.All()|, p), r, p)
  {
    forall k: nat | l.Written(r).MayKeep(k)
      ensures l.Written(r).CutAt(k, p) ==
        if k <= |l.All()| then l.CutAt(k, p) else ApplyAt(l.CutAt(|l.All()|, p), r, p)
    {
      CutAfterWrite(l, r, k, p);
    }
    CutAfterWrite(l, r, |l.All()| + 1, p);
  }

  /** A flushed log has one cut, the whole of it. */
  lemma CutsCollapse(l: Log, p: Path)
    ensures forall k: nat | l.Flushed().MayKeep(k) ::
      k == |l.All()| && l.Flushed().CutAt(k, p) == l.CutAt(|l.All()|, p)
    ensures |l.Flushed().All()| == |l.All()|
  {
    assert l.Flushed().All() == l.All();
  }

  lemma CommitBeginKeepsPath(s: Gateway, w: nat, o: Object)
    requires Inv(s) && Enabled(s, CommitBegin(w, o))
    ensures PathOk(Step(s, CommitBegin(w, o)), o.remotePath)
  {
    CommitBeginKeepsOps(s, w, o);
    CommitBeginKeepsCuts(s, w, o);
  }

  lemma CommitBeginKeepsOps(s: Gateway, w: nat, o: Object)
    requires Inv(s) && Enabled(s, CommitBegin(w, o))
    ensures var s', p := Step(s, CommitBegin(w, o)), o.remotePath;
      EntryOk(s', p, Get(s'.objs, p)) && DirOk(s', p) && OpOk(s', p) && FlightOk(s', p) && AgreesOk(s', p)
  {
    assert PathOk(s, o.remotePath);
  }

  lemma CommitBeginKeepsCuts(s: Gateway, w: nat, o: Object)
    requires Inv(s) && Enabled(s, CommitBegin(w, o))
    ensures var s', p := Step(s, CommitBegin(w, o)), o.remotePath;
      CutsOk(s', p) && AckOk(s', p) && LiveOk(s', p)
  {
    assert PathOk(s, o.remotePath);
  }

  lemma CommitSyncKeepsPath(s: Gateway, p: Path)
    requires Inv(s) && Enabled(s, CommitSync(p))
    ensures PathOk(Step(s, CommitSync(p)), p)
  {
    assert PathOk(s, p);
  }

  lemma CommitRenameKeepsPath(s: Gateway, p: Path)
    requires Inv(s) && Enabled(s, CommitRename(p))
    ensures PathOk(Step(s, CommitRename(p)), p)
  {
    assert PathOk(s, p);
  }

  lemma CommitDirSyncKeepsPath(s: Gateway, p: Path)
    requires Inv(s) && Enabled(s, CommitDirSync(p))
    ensures PathOk(Step(s, CommitDirSync(p)), p)
  {
    assert PathOk(s, p);
  }

  lemma CommitRecordKeepsPath(s: Gateway, p: Path)
    requires Inv(s) && Enabled(s, CommitRecord(p))
    ensures PathOk(Step(s, CommitRecord(p)), p)
  {
    assert PathOk(s, p);
    CutsGrow(s.log, PutRecord(s.ops[p].obj), p);
  }

  lemma CommitRecordSyncKeepsPath(s: Gateway, p: Path)
    requires Inv(s) && Enabled(s, CommitRecordSync(p))
    ensures PathOk(Step(s, CommitRecordSync(p)), p)
  {
    assert PathOk(s, p);
    CutsCollapse(s.log, p);
  }

  lemma CommitLandKeepsPath(s: Gateway, p: Path)
    requires Inv(s) && Enabled(s, CommitLand(p))
    ensures PathOk(Step(s, CommitLand(p)), p)
  {
    assert PathOk(s, p);
  }

  lemma CommitFailKeepsPath(s: Gateway, p: Path)
    requires Inv(s) && Enabled(s, CommitFail(p))
    ensures PathOk(Step(s, CommitFail(p)), p)
  {
    CommitFailKeepsOps(s, p);
    CommitFailKeepsAgreement(s, p);
    CommitFailKeepsCuts(s, p);
  }

  lemma CommitFailKeepsOps(s: Gateway, p: Path)
    requires Inv(s) && Enabled(s, CommitFail(p))
    ensures var s' := Step(s, CommitFail(p));
      EntryOk(s', p, Get(s'.objs, p)) && DirOk(s', p) && OpOk(s', p) && FlightOk(s', p)
  {
    assert PathOk(s, p);
  }

  lemma CommitFailKeepsAgreement(s: Gateway, p: Path)
    requires Inv(s) && Enabled(s, CommitFail(p))
    ensures AgreesOk(Step(s, CommitFail(p)), p) && LiveOk(Step(s, CommitFail(p)), p)
  {
    assert PathOk(s, p);
  }

  lemma CommitFailKeepsCuts(s: Gateway, p: Path)
    requires Inv(s) && Enabled(s, CommitFail(p))
    ensures CutsOk(Step(s, CommitFail(p)), p) && AckOk(Step(s, CommitFail(p)), p)
  {
    assert PathOk(s, p);
  }

  lemma DropPickKeepsPath(s: Gateway, p: Path, cause: Cause)
    requires Inv(s) && Enabled(s, DropPick(p, cause))
    ensures PathOk(Step(s, DropPick(p, cause)), p)
  {
    assert PathOk(s, p);
  }

  lemma DropIndexKeepsPath(s: Gateway, p: Path)
    requires Inv(s) && Enabled(s, DropIndex(p))
    ensures PathOk(Step(s, DropIndex(p)), p)
  {
    assert PathOk(s, p);
  }

  lemma DropFileKeepsPath(s: Gateway, p: Path)
    requires Inv(s) && Enabled(s, DropFile(p))
    ensures PathOk(Step(s, DropFile(p)), p)
  {
    assert PathOk(s, p);
  }

  lemma DropWriteKeepsPath(s: Gateway, p: Path, at: nat)
    requires Inv(s) && Enabled(s, DropWrite(p, at))
    ensures PathOk(Step(s, DropWrite(p, at)), p)
  {
    assert PathOk(s, p);
    CutsGrow(s.log, DropRecord(p, at), p);
  }

  lemma DropFinishKeepsPath(s: Gateway, p: Path, synced: bool)
    requires Inv(s) && Enabled(s, DropFinish(p, synced))
    ensures PathOk(Step(s, DropFinish(p, synced)), p)
  {
    assert PathOk(s, p);
    CutsCollapse(s.log, p);
  }

  lemma FlushBeginKeepsPath(s: Gateway, p: Path)
    requires Inv(s) && Enabled(s, FlushBegin(p))
    ensures PathOk(Step(s, FlushBegin(p)), p)
  {
    assert PathOk(s, p);
    var s' := Step(s, FlushBegin(p));
    assert Expected(s', p) == Expected(s, p);
    assert CutsOk(s', p) && AckOk(s', p) && FlightOk(s', p);
  }

  /** A stage that holds no recorded change waiting for the index. */
  predicate Idle(stage: FlightStage) {
    stage.Setting? ==> stage.sub.Unchecked? || stage.sub.Checked?
  }

  /** A flush that moves on without touching log, directory or index. */
  lemma FlightMoves(s: Gateway, p: Path, stage: FlightStage, confirmed: set<Version>)
    requires Inv(s) && p in s.flights && Idle(s.flights[p].stage) && Idle(stage)
    requires s.flights[p].stage.Returned? ==> stage.Returned?
    requires s.hist.confirmed <= confirmed
    requires stage.Setting? && stage.change.ToClean? ==> Version(p, s.flights[p].obj.storedAt) in confirmed
    ensures PathOk(s.(flights := InFlight(s, p, stage), hist := s.hist.(confirmed := confirmed)), p)
  {
    var s' := s.(flights := InFlight(s, p, stage), hist := s.hist.(confirmed := confirmed));
    assert PathOk(s, p);
    assert Expected(s', p) == Expected(s, p);
    assert CutsOk(s', p);
    assert FlightOk(s', p);
  }

  lemma StateCheckKeepsPath(s: Gateway, p: Path)
    requires Inv(s) && Enabled(s, StateCheck(p))
    ensures PathOk(Step(s, StateCheck(p)), p)
  {
    assert PathOk(s, p);
    var s' := Step(s, StateCheck(p));
    FlightMoves(s, p, s'.flights[p].stage, s.hist.confirmed);
    assert s' == s.(flights := InFlight(s, p, s'.flights[p].stage), hist := s.hist.(confirmed := s.hist.confirmed));
  }

  lemma StateFailKeepsPath(s: Gateway, p: Path)
    requires Inv(s) && Enabled(s, StateFail(p))
    ensures PathOk(Step(s, StateFail(p)), p)
  {
    StateFailKeepsCuts(s, p);
    StateFailKeepsRest(s, p);
  }

  lemma StateFailKeepsRest(s: Gateway, p: Path)
    requires Inv(s) && Enabled(s, StateFail(p))
    ensures var s' := Step(s, StateFail(p));
      EntryOk(s', p, Get(s'.objs, p)) && DirOk(s', p) && OpOk(s', p) && FlightOk(s', p) && AgreesOk(s', p)
  {
    assert PathOk(s, p);
  }

  lemma StateFailKeepsCuts(s: Gateway, p: Path)
    requires Inv(s) && Enabled(s, StateFail(p))
    ensures CutsOk(Step(s, StateFail(p)), p) && AckOk(Step(s, StateFail(p)), p) && LiveOk(Step(s, StateFail(p)), p)
  {
    assert PathOk(s, p);
  }

  lemma UploadReturnKeepsPath(s: Gateway, p: Path, result: UploadResult)
    requires Inv(s) && Enabled(s, UploadReturn(p, result))
    ensures PathOk(Step(s, UploadReturn(p, result)), p)
  {
    var s' := Step(s, UploadReturn(p, result));
    FlightMoves(s, p, s'.flights[p].stage, s'.hist.confirmed);
    assert s' == s.(flights := InFlight(s, p, s'.flights[p].stage), hist := s.hist.(confirmed := s'.hist.confirmed));
  }

  lemma FlushEndKeepsPath(s: Gateway, p: Path)
    requires Inv(s) && Enabled(s, FlushEnd(p))
    ensures PathOk(Step(s, FlushEnd(p)), p)
  {
    assert PathOk(s, p);
  }

  /** A change record does to a replay what applying the change does to the live entry. */
  lemma ChangeOnReplay(o: Option<Object>, f: Flight, p: Path, at: nat, file: Option<File>)
    requires f.stage.Setting? && f.obj.storedAt > 0
    requires o.Some? && AttemptsOf(f.stage.change, f.obj) == 0 && o.value.storedAt == f.obj.storedAt ==>
               file.None? || |file.value.bytes| != o.value.size || o.value.flushAttempts == 0
    ensures SameEntry(VerifiedAt(ApplyAt(o, ChangeRecord(f, p, at), p), file), Changed(VerifiedAt(o, file), f))
  {
  }

  lemma ChangedSame(a: Option<Object>, b: Option<Object>, f: Flight)
    requires SameEntry(a, b) && f.stage.Setting?
    ensures SameEntry(Changed(a, f), Changed(b, f))
  {
  }

  /** If every cut was in order, and the whole log with one more record is, every cut still is. */
  lemma CutsStayOk(s: Gateway, s': Gateway, r: Record, p: Path)
    requires s'.log == s.log.Written(r) && HistGrows(s, s', p) && CutsOk(s, p)
    requires EntryOk(s', p, ApplyAt(LoggedAt(s, p), r, p))
    ensures CutsOk(s', p)
  {
    CutsGrow(s.log, r, p);
  }

  /** Likewise for the promise of a commit. */
  lemma AckStaysOk(s: Gateway, s': Gateway, r: Record, p: Path)
    requires s'.log == s.log.Written(r) && HistGrows(s, s', p) && AckOk(s, p)
    requires s'.dir == s.dir && Get(s.hist.acked, p) == Get(s'.hist.acked, p) && Get(s.ops, p) == Get(s'.ops, p)
    requires p in s.hist.acked ==> Keeps(s', s.hist.acked[p], ApplyAt(LoggedAt(s, p), r, p))
    ensures AckOk(s', p)
  {
    CutsGrow(s.log, r, p);
  }

  lemma StateWriteKeepsCuts(s: Gateway, p: Path, at: nat)
    requires Inv(s) && Enabled(s, StateWrite(p, at))
    ensures CutsOk(Step(s, StateWrite(p, at)), p)
  {
    assert PathOk(s, p);
    assert EntryOk(s, p, LoggedAt(s, p));
    CutsStayOk(s, Step(s, StateWrite(p, at)), ChangeRecord(s.flights[p], p, at), p);
  }

  lemma StateWriteKeepsAck(s: Gateway, p: Path, at: nat)
    requires Inv(s) && Enabled(s, StateWrite(p, at))
    ensures AckOk(Step(s, StateWrite(p, at)), p)
  {
    assert PathOk(s, p);
    assert p in s.hist.acked ==> Keeps(s, s.hist.acked[p], LoggedAt(s, p));
    AckStaysOk(s, Step(s, StateWrite(p, at)), ChangeRecord(s.flights[p], p, at), p);
  }

  lemma StateWriteKeepsOps(s: Gateway, p: Path, at: nat)
    requires Inv(s) && Enabled(s, StateWrite(p, at))
    ensures OpOk(Step(s, StateWrite(p, at)), p)
  {
    assert PathOk(s, p);
    CutsGrow(s.log, ChangeRecord(s.flights[p], p, at), p);
  }

  lemma StateWriteKeepsRest(s: Gateway, p: Path, at: nat)
    requires Inv(s) && Enabled(s, StateWrite(p, at))
    ensures var s' := Step(s, StateWrite(p, at));
      EntryOk(s', p, Get(s'.objs, p)) && DirOk(s', p) && FlightOk(s', p) && LiveOk(s', p)
  {
    assert PathOk(s, p);
  }

  lemma StateWriteKeepsAgreement(s: Gateway, p: Path, at: nat)
    requires Inv(s) && Enabled(s, StateWrite(p, at))
    ensures AgreesOk(Step(s, StateWrite(p, at)), p)
  {
    assert PathOk(s, p);
    var f := s.flights[p];
    var s' := Step(s, StateWrite(p, at));
    StateWritten(s, p, at);
    if p !in s.hist.broken && !Settling(s, p) {
      RecordedChangeAgrees(LoggedAt(s, p), Get(s.objs, p), Get(s.dir.live, p), f, p, at);
    }
  }

  lemma StateWritten(s: Gateway, p: Path, at: nat)
    requires Enabled(s, StateWrite(p, at))
    ensures var t, f := Step(s, StateWrite(p, at)), s.flights[p];
      && LoggedAt(t, p) == ApplyAt(LoggedAt(s, p), ChangeRecord(f, p, at), p)
      && Expected(t, p) == Changed(Get(s.objs, p), f)
      && t.ops == s.ops && t.dir == s.dir && t.objs == s.objs && t.hist.broken == s.hist.broken
  {
    CutsGrow(s.log, ChangeRecord(s.flights[p], p, at), p);
  }

  /** A change in the log does to the replay what it will do to the index. */
  lemma RecordedChangeAgrees(logged: Option<Object>, live: Option<Object>, file: Option<File>, f: Flight, p: Path, at: nat)
    requires f.stage.Setting? && 0 < f.obj.storedAt
    requires SameEntry(VerifiedAt(logged, file), live)
    requires live.Some? && live.value.storedAt == f.obj.storedAt ==> live.value.flushAttempts == f.obj.flushAttempts
    ensures SameEntry(VerifiedAt(ApplyAt(logged, ChangeRecord(f, p, at), p), file), Changed(live, f))
  {
    ChangeOnReplay(logged, f, p, at, file);
    ChangedSame(VerifiedAt(logged, file), live, f);
  }

  lemma StateWriteKeepsPath(s: Gateway, p: Path, at: nat)
    requires Inv(s) && Enabled(s, StateWrite(p, at))
    ensures PathOk(Step(s, StateWrite(p, at)), p)
  {
    StateWriteKeepsOps(s, p, at);
    StateWriteKeepsRest(s, p, at);
    StateWriteKeepsCuts(s, p, at);
    StateWriteKeepsAck(s, p, at);
    StateWriteKeepsAgreement(s, p, at);
  }

  lemma StateSyncKeepsCuts(s: Gateway, p: Path)
    requires Inv(s) && Enabled(s, StateSync(p))
    ensures CutsOk(Step(s, StateSync(p)), p) && AckOk(Step(s, StateSync(p)), p) && OpOk(Step(s, StateSync(p)), p)
  {
    assert PathOk(s, p);
    CutsCollapse(s.log, p);
  }

  lemma StateSyncKeepsRest(s: Gateway, p: Path)
    requires Inv(s) && Enabled(s, StateSync(p))
    ensures var s' := Step(s, StateSync(p));
      EntryOk(s', p, Get(s'.objs, p)) && DirOk(s', p) && FlightOk(s', p) && LiveOk(s', p) && AgreesOk(s', p)
  {
    assert PathOk(s, p);
    CutsCollapse(s.log, p);
  }

  lemma StateSyncKeepsPath(s: Gateway, p: Path)
    requires Inv(s) && Enabled(s, StateSync(p))
    ensures PathOk(Step(s, StateSync(p)), p)
  {
    StateSyncKeepsCuts(s, p);
    StateSyncKeepsRest(s, p);
  }

  lemma StateApplyKeepsCuts(s: Gateway, p: Path)
    requires Inv(s) && Enabled(s, StateApply(p))
    ensures CutsOk(Step(s, StateApply(p)), p) && AckOk(Step(s, StateApply(p)), p) && AgreesOk(Step(s, StateApply(p)), p)
  {
    assert PathOk(s, p);
  }

  lemma StateApplyKeepsRest(s: Gateway, p: Path)
    requires Inv(s) && Enabled(s, StateApply(p))
    ensures var s' := Step(s, StateApply(p));
      EntryOk(s', p, Get(s'.objs, p)) && DirOk(s', p) && OpOk(s', p) && FlightOk(s', p) && LiveOk(s', p)
  {
    assert PathOk(s, p);
  }

  lemma StateApplyKeepsPath(s: Gateway, p: Path)
    requires Inv(s) && Enabled(s, StateApply(p))
    ensures PathOk(Step(s, StateApply(p)), p)
  {
    StateApplyKeepsCuts(s, p);
    StateApplyKeepsRest(s, p);
  }

  lemma AccessKeepsPath(s: Gateway, p: Path, at: nat)
    requires Inv(s) && Enabled(s, Access(p, at))
    ensures PathOk(Step(s, Access(p, at)), p)
  {
    assert PathOk(s, p);
    AccessKeepsCuts(s, p, at);
  }

  lemma AccessKeepsCuts(s: Gateway, p: Path, at: nat)
    requires Inv(s) && Enabled(s, Access(p, at))
    ensures CutsOk(Step(s, Access(p, at)), p) && AckOk(Step(s, Access(p, at)), p) && LiveOk(Step(s, Access(p, at)), p)
    ensures AgreesOk(Step(s, Access(p, at)), p)
  {
    assert PathOk(s, p);
  }

  lemma TouchSame(o: Option<Object>, p: Path, at: nat)
    ensures SameEntry(ApplyAt(o, TouchRecord(p, at), p), o)
  {
  }

  lemma AccessRecordKeepsCuts(s: Gateway, p: Path, at: nat)
    requires Inv(s)
    ensures CutsOk(Step(s, AccessRecord(p, at)), p) && AckOk(Step(s, AccessRecord(p, at)), p)
  {
    assert PathOk(s, p);
    var s' := Step(s, AccessRecord(p, at));
    assert EntryOk(s, p, LoggedAt(s, p));
    assert p in s.hist.acked ==> Keeps(s, s.hist.acked[p], LoggedAt(s, p));
    TouchSame(LoggedAt(s, p), p, at);
    CutsStayOk(s, s', TouchRecord(p, at), p);
    AckStaysOk(s, s', TouchRecord(p, at), p);
  }

  lemma AccessRecordKeepsOps(s: Gateway, p: Path, at: nat)
    requires Inv(s)
    ensures OpOk(Step(s, AccessRecord(p, at)), p)
  {
    assert PathOk(s, p);
    CutsGrow(s.log, TouchRecord(p, at), p);
    TouchSame(LoggedAt(s, p), p, at);
  }

  lemma AccessRecordKeepsAgreement(s: Gateway, p: Path, at: nat)
    requires Inv(s)
    ensures AgreesOk(Step(s, AccessRecord(p, at)), p)
  {
    assert PathOk(s, p);
    CutsGrow(s.log, TouchRecord(p, at), p);
    TouchSame(LoggedAt(s, p), p, at);
  }

  lemma AccessRecordKeepsRest(s: Gateway, p: Path, at: nat)
    requires Inv(s)
    ensures var s' := Step(s, AccessRecord(p, at));
      EntryOk(s', p, Get(s'.objs, p)) && DirOk(s', p) && FlightOk(s', p) && LiveOk(s', p)
  {
    assert PathOk(s, p);
  }

  lemma AccessRecordKeepsPath(s: Gateway, p: Path, at: nat)
    requires Inv(s)
    ensures PathOk(Step(s, AccessRecord(p, at)), p)
  {
    AccessRecordKeepsCuts(s, p, at);
    AccessRecordKeepsOps(s, p, at);
    AccessRecordKeepsAgreement(s, p, at);
    AccessRecordKeepsRest(s, p, at);
  }
}
