// The invariant holds in every state a run can reach, crashes included.
module GatewayRuns {
  import opened Prelude
  import opened Objects
  import opened Journal
  import opened Disk
  import opened Gateway
  import opened GatewayInvariant
  import opened GatewaySteps

  // ------------------------------------------------------------ opening a directory

  /** The log a process starts from describes its index and, for kept entries, the old log. */
  lemma ReopenedLog(s: Gateway, recs: seq<Record>, files: map<Path, File>, p: Path)
    requires forall q {:trigger ReplayAt(recs, q)} :: EntryOk(s, q, ReplayAt(recs, q))
    ensures var s' := Reopened(s, recs, files);
      && s'.log.tail == []
      && Get(s'.objs, p) == VerifiedAt(ReplayAt(recs, p), Get(files, p))
      && (LoggedAt(s', p) == ReplayAt(recs, p) || LoggedAt(s', p) == Get(s'.objs, p))
  {
    var s' := Reopened(s, recs, files);
    ReplayPointwise(recs, p);
    assert s'.log.All() == s'.log.synced;
    assert s'.log.All()[..|s'.log.All()|] == s'.log.All();
    if |recs| > COMPACT_AFTER {
      VerifiedIsKeyed(s, recs, files);
      CompactionKeepsIndex(s'.objs);
      ReplayPointwise(Compacted(s'.objs), p);
    }
  }

  lemma VerifiedIsKeyed(s: Gateway, recs: seq<Record>, files: map<Path, File>)
    requires forall q {:trigger ReplayAt(recs, q)} :: EntryOk(s, q, ReplayAt(recs, q))
    ensures WellKeyed(Verified(Replay(recs), files))
  {
    var objs := Verified(Replay(recs), files);
    forall q | q in objs ensures q != "" && objs[q].remotePath == q {
      ReplayPointwise(recs, q);
      assert EntryOk(s, q, ReplayAt(recs, q));
    }
  }

  /** What opening gives one path, when the old log described it by `j`. */
  ghost predicate FreshAt(s: Gateway, s': Gateway, j: Option<Object>, files: map<Path, File>, p: Path) {
    && (forall k: nat | s'.log.MayKeep(k) :: s'.log.CutAt(k, p) == LoggedAt(s', p))
    && Get(s'.objs, p) == VerifiedAt(j, Get(files, p))
    && (LoggedAt(s', p) == j || LoggedAt(s', p) == Get(s'.objs, p))
    && Get(s'.dir.live, p) == (if p in s'.objs then Get(files, p) else None)
    && Get(s'.dir.durable, p) == Get(files, p)
    && (forall op :: op in s'.dir.pending && op.path == p ==> p in files && p !in s'.objs)
    && (p in files && p !in s'.objs ==> DirOp(p, None) in s'.dir.pending)
    && p !in s'.ops && p !in s'.flights && s'.clock == s.clock
    && s'.hist.(acked := map[], broken := {}, ruined := {}) == s.hist.(acked := map[], broken := {}, ruined := {})
    && Get(s'.hist.acked, p) ==
         (if p in s.hist.acked then Get(s.hist.acked, p)
          else if p in s'.objs then Some(Ack(s'.objs[p], files[p].bytes)) else None)
  }

  lemma ReopenedFresh(s: Gateway, recs: seq<Record>, files: map<Path, File>, p: Path)
    requires forall q {:trigger ReplayAt(recs, q)} :: EntryOk(s, q, ReplayAt(recs, q))
    ensures FreshAt(s, Reopened(s, recs, files), ReplayAt(recs, p), files, p)
  {
    var s' := Reopened(s, recs, files);
    ReopenedLog(s, recs, files, p);
    ReopenedDir(s, recs, files, p);
    assert forall k: nat | s'.log.MayKeep(k) :: k == |s'.log.All()|;
  }

  lemma ReopenedDir(s: Gateway, recs: seq<Record>, files: map<Path, File>, p: Path)
    ensures var s' := Reopened(s, recs, files);
      && Get(s'.dir.live, p) == (if p in s'.objs then Get(files, p) else None)
      && Get(s'.dir.durable, p) == Get(files, p)
      && (forall op :: op in s'.dir.pending && op.path == p ==> p in files && p !in s'.objs)
      && (p in files && p !in s'.objs ==> DirOp(p, None) in s'.dir.pending)
  {
  }

  lemma FreshAck(s: Gateway, s': Gateway, j: Option<Object>, files: map<Path, File>, p: Path)
    requires FreshAt(s, s', j, files, p) && EntryOk(s, p, j)
    requires p in files ==> files[p].synced
    requires p in s.hist.acked ==>
               && EntryOk(s, p, Some(s.hist.acked[p].obj))
               && Get(files, p) == Some(File(s.hist.acked[p].bytes, true))
               && Keeps(s, s.hist.acked[p], j)
    ensures AckOk(s', p) && LiveOk(s', p)
  {
  }

  lemma FreshOk(s: Gateway, s': Gateway, j: Option<Object>, files: map<Path, File>, p: Path)
    requires FreshAt(s, s', j, files, p) && EntryOk(s, p, j)
    requires AckOk(s', p) && LiveOk(s', p)
    ensures PathOk(s', p)
  {
  }

  lemma ReopenedInv(s: Gateway, recs: seq<Record>, files: map<Path, File>)
    requires forall p :: p in files ==> files[p].synced
    requires forall q {:trigger ReplayAt(recs, q)} :: EntryOk(s, q, ReplayAt(recs, q))
    requires forall p | p in s.hist.acked ::
               && EntryOk(s, p, Some(s.hist.acked[p].obj))
               && Get(files, p) == Some(File(s.hist.acked[p].bytes, true))
               && Keeps(s, s.hist.acked[p], ReplayAt(recs, p))
    requires s.hist.cleaned <= s.hist.confirmed
    ensures Inv(Reopened(s, recs, files))
  {
    var s' := Reopened(s, recs, files);
    forall p ensures PathOk(s', p) {
      ReopenedFresh(s, recs, files, p);
      assert EntryOk(s, p, ReplayAt(recs, p));
      FreshAck(s, s', ReplayAt(recs, p), files, p);
      FreshOk(s, s', ReplayAt(recs, p), files, p);
    }
  }

  lemma OpenedInv(s: Gateway)
    requires Opened(s)
    ensures Inv(s)
  {
    var clock, maxDirty, recs, files :| OpenedOn(s, Blank(clock, maxDirty, CleanVersions(recs)), recs, files);
    var blank := Blank(clock, maxDirty, CleanVersions(recs));
    forall q ensures EntryOk(blank, q, ReplayAt(recs, q)) { PlausibleEntry(blank, recs, q); }
    ReopenedInv(blank, recs, files);
  }

  /** An entry of a plausible journal is in order: stamped, and certified if clean. */
  lemma PlausibleEntry(s: Gateway, recs: seq<Record>, p: Path)
    requires Plausible(recs, s.clock) && CleanVersions(recs) <= s.hist.filled
    ensures EntryOk(s, p, ReplayAt(recs, p))
  {
    ReplayPointwise(recs, p);
    var o := ReplayAt(recs, p);
    if o.Some? && o.value.state.Clean? {
      assert p in Replay(recs) && Replay(recs)[p] == o.value;
      assert Version(p, o.value.storedAt) in CleanVersions(recs);
    }
  }

  // ------------------------------------------------------------ crashes

  /** What a crash leaves of a settled entry is the entry. */
  lemma SettledSurvives(d: Dir, files: map<Path, File>, p: Path, bytes: seq<byte>)
    requires d.Settled(p, bytes) && d.Survives(files)
    ensures Get(files, p) == Some(File(bytes, true))
  {
    assert p in files || p !in files;
    var entry :| d.MayHold(p, entry) && d.Leaves(entry, Get(files, p));
  }

  lemma SurvivorsSynced(d: Dir, files: map<Path, File>, p: Path)
    requires d.Survives(files) && p in files
    ensures files[p].synced
  {
    var entry :| d.MayHold(p, entry) && d.Leaves(entry, Get(files, p));
  }

  lemma RestartKeepsInv(s: Gateway, k: nat, files: map<Path, File>)
    requires Inv(s) && Enabled(s, Restart(k, files))
    ensures Inv(Step(s, Restart(k, files)))
  {
    var recs := s.log.All()[..k];
    forall q ensures EntryOk(s, q, ReplayAt(recs, q)) {
      assert PathOk(s, q);
      assert s.log.CutAt(k, q) == ReplayAt(recs, q);
    }
    forall p | p in files ensures files[p].synced { SurvivorsSynced(s.dir, files, p); }
    forall p | p in s.hist.acked
      ensures EntryOk(s, p, Some(s.hist.acked[p].obj))
      ensures Get(files, p) == Some(File(s.hist.acked[p].bytes, true))
      ensures Keeps(s, s.hist.acked[p], ReplayAt(recs, p))
    {
      assert PathOk(s, p);
      SettledSurvives(s.dir, files, p, s.hist.acked[p].bytes);
      assert s.log.CutAt(k, p) == ReplayAt(recs, p);
    }
    ReopenedInv(s, recs, files);
  }

  // ------------------------------------------------------------ every event

  lemma CommitKeepsSubject(s: Gateway, e: Event)
    requires Inv(s) && Enabled(s, e) && IsCommit(e)
    ensures PathOk(Step(s, e), Subject(e).value)
  {
    match e
    case CommitBegin(w, o) => CommitBeginKeepsPath(s, w, o);
    case CommitSync(p) => CommitSyncKeepsPath(s, p);
    case CommitRename(p) => CommitRenameKeepsPath(s, p);
    case CommitDirSync(p) => CommitDirSyncKeepsPath(s, p);
    case CommitRecord(p) => CommitRecordKeepsPath(s, p);
    case CommitRecordSync(p) => CommitRecordSyncKeepsPath(s, p);
    case CommitLand(p) => CommitLandKeepsPath(s, p);
    case CommitFail(p) => CommitFailKeepsPath(s, p);
  }

  lemma DropKeepsSubject(s: Gateway, e: Event)
    requires Inv(s) && Enabled(s, e) && IsDrop(e)
    ensures PathOk(Step(s, e), Subject(e).value)
  {
    if e.DropPick? {
      DropPickKeepsPath(s, e.path, e.cause);
    } else if e.DropIndex? {
      DropIndexKeepsPath(s, e.path);
    } else if e.DropFile? {
      DropFileKeepsPath(s, e.path);
    } else if e.DropWrite? {
      DropWriteKeepsPath(s, e.path, e.at);
    } else {
      DropFinishKeepsPath(s, e.path, e.synced);
    }
  }

  lemma FlushKeepsSubject(s: Gateway, e: Event)
    requires Inv(s) && Enabled(s, e) && IsFlush(e)
    ensures PathOk(Step(s, e), Subject(e).value)
  {
    match e
    case FlushBegin(p) => FlushBeginKeepsPath(s, p);
    case StateCheck(p) => StateCheckKeepsPath(s, p);
    case StateWrite(p, at) => StateWriteKeepsPath(s, p, at);
    case StateSync(p) => StateSyncKeepsPath(s, p);
    case StateApply(p) => StateApplyKeepsPath(s, p);
    case StateFail(p) => StateFailKeepsPath(s, p);
    case UploadReturn(p, result) => UploadReturnKeepsPath(s, p, result);
    case FlushEnd(p) => FlushEndKeepsPath(s, p);
  }

  lemma SubjectKept(s: Gateway, e: Event)
    requires Inv(s) && Enabled(s, e) && Subject(e).Some?
    ensures PathOk(Step(s, e), Subject(e).value)
  {
    if IsCommit(e) {
      CommitKeepsSubject(s, e);
    } else if IsDrop(e) {
      DropKeepsSubject(s, e);
    } else if IsFlush(e) {
      FlushKeepsSubject(s, e);
    } else if e.Access? {
      AccessKeepsPath(s, e.path, e.at);
    } else {
      AccessRecordKeepsPath(s, e.path, e.at);
    }
  }

  lemma CommitKeepsFiles(s: Gateway, e: Event)
    requires Inv(s) && Enabled(s, e) && IsCommit(e)
    ensures FilesOk(Step(s, e)) && forall w :: w in Step(s, e).writers ==> w in s.writers && Step(s, e).writers[w] == s.writers[w]
    ensures Step(s, e).hist.cleaned <= Step(s, e).hist.confirmed
  {
    if e.CommitRename? {
      assert PathOk(s, e.path);
    }
  }

  lemma FlushKeepsFiles(s: Gateway, e: Event)
    requires Enabled(s, e) && IsFlush(e)
    ensures Step(s, e).dir == s.dir && Step(s, e).writers == s.writers
  {
    assert Step(s, e) == FlushStep(s, e);
    if e.UploadReturn? {
      assert Step(s, e).dir == s.dir && Step(s, e).writers == s.writers;
    }
  }

  lemma FlushKeepsMarks(s: Gateway, e: Event)
    requires Inv(s) && Enabled(s, e) && IsFlush(e)
    ensures Step(s, e).hist.cleaned <= Step(s, e).hist.confirmed
  {
    if e.StateWrite? {
      WriteKeepsMarks(s, e.path, e.at);
    } else {
      assert Step(s, e) == FlushStep(s, e);
    }
  }

  lemma WriteKeepsMarks(s: Gateway, p: Path, at: nat)
    requires Inv(s) && Enabled(s, StateWrite(p, at))
    ensures Step(s, StateWrite(p, at)).hist.cleaned <= Step(s, StateWrite(p, at)).hist.confirmed
  {
    assert PathOk(s, p);
  }

  lemma FilesKept(s: Gateway, e: Event)
    requires Inv(s) && Enabled(s, e) && !e.Restart?
    ensures FilesOk(Step(s, e))
    ensures forall w :: w in Step(s, e).writers ==> Step(s, e).writers[w].path != ""
    ensures Step(s, e).hist.cleaned <= Step(s, e).hist.confirmed
  {
    if IsCommit(e) {
      CommitKeepsFiles(s, e);
    } else if IsFlush(e) {
      FlushKeepsFiles(s, e);
      FlushKeepsMarks(s, e);
    }
  }

  /** Every event keeps the invariant. */
  lemma StepKeepsInv(s: Gateway, e: Event)
    requires Inv(s) && Enabled(s, e)
    ensures Inv(Step(s, e))
  {
    if e.Restart? {
      RestartKeepsInv(s, e.kept, e.files);
    } else {
      FilesKept(s, e);
      forall p ensures PathOk(Step(s, e), p) {
        assert PathOk(s, p);
        if Subject(e) == Some(p) {
          SubjectKept(s, e);
        } else {
          OthersQuiet(s, e, p);
          QuietPreserves(s, Step(s, e), p);
        }
      }
    }
  }

  lemma {:induction false} RunKeepsInv(s: Gateway, es: seq<Event>)
    requires Inv(s) && IsRun(s, es)
    ensures Inv(Exec(s, es))
    decreases |es|
  {
    if es != [] {
      StepKeepsInv(s, es[0]);
      RunKeepsInv(Step(s, es[0]), es[1..]);
    }
  }

  /** Every reachable state satisfies the invariant. */
  lemma ReachableInv(s0: Gateway, es: seq<Event>, s: Gateway)
    requires LeadsTo(s0, es, s)
    ensures Inv(s)
  {
    OpenedInv(s0);
    RunKeepsInv(s0, es);
  }

  // ------------------------------------------------------------ runs grow at the end

  lemma {:induction false} RunExtends(s: Gateway, es: seq<Event>, e: Event)
    requires IsRun(s, es) && Enabled(Exec(s, es), e)
    ensures IsRun(s, es + [e]) && Exec(s, es + [e]) == Step(Exec(s, es), e)
    decreases |es|
  {
    if es == [] {
      assert es + [e] == [e];
    } else {
      assert (es + [e])[0] == es[0] && (es + [e])[1..] == es[1..] + [e];
      RunExtends(Step(s, es[0]), es[1..], e);
    }
  }

  /** One event and then a run. */
  lemma RunFront(s: Gateway, e: Event, rest: seq<Event>, t: Gateway)
    requires Enabled(s, e) && RunsTo(Step(s, e), rest, t)
    ensures RunsTo(s, [e] + rest, t)
  {
    assert ([e] + rest)[1..] == rest;
  }
}
