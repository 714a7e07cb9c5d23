// Removals as the code makes them: the entry goes under the lock, then the file goes, then
// the record is appended and synced, with no claim on the path, so any step of anything
// else may fall in between. Here a run may hold any number of such removals, on any paths.
module GatewayRemoval {
  import opened Prelude
  import opened Objects
  import opened Journal
  import opened Disk
  import opened Gateway
  import opened GatewayInvariant
  import opened GatewaySteps
  import opened GatewayRuns
  import opened GatewayTheorems

  // ------------------------------------------------------------ runs with removals

  /** An event of the step system, or one of the steps of forgetting whatever is at a path. */
  datatype Act =
    | Do(e: Event)
    | ForgetEntry(path: Path)
    | ForgetFile(path: Path)
    | ForgetRecord(path: Path, at: nat)
    | ForgetSync

  ghost predicate Can(s: Gateway, a: Act) {
    a.Do? ==> Enabled(s, a.e) && !a.e.Restart?
  }

  ghost function Acted(s: Gateway, a: Act): Gateway
    requires Can(s, a)
  {
    match a
    case Do(e) => Step(s, e)
    case ForgetEntry(p) => s.(objs := s.objs - {p})
    case ForgetFile(p) => s.(dir := s.dir.Removed(p))
    case ForgetRecord(p, at) => s.(log := s.log.Written(DropRecord(p, at)))
    case ForgetSync => s.(log := s.log.Flushed())
  }

  ghost predicate CanAll(s: Gateway, acts: seq<Act>)
    decreases |acts|
  {
    acts == [] || (Can(s, acts[0]) && CanAll(Acted(s, acts[0]), acts[1..]))
  }

  ghost function Outcome(s: Gateway, acts: seq<Act>): Gateway
    requires CanAll(s, acts)
    decreases |acts|
  {
    if acts == [] then s else Outcome(Acted(s, acts[0]), acts[1..])
  }

  // ------------------------------------------------------------ when a removal comes too late

  /** What a removal takes. */
  datatype Part = TheEntry | TheFile | TheRecord

  predicate BeforeRename(s: Gateway, p: Path) {
    AtCommit(s, p, TmpOpen) || AtCommit(s, p, TmpSynced)
  }

  predicate BeforeRecord(s: Gateway, p: Path) {
    BeforeRename(s, p) || AtCommit(s, p, CommitStage.Renamed) || AtCommit(s, p, DirSynced)
  }

  /** The step takes that part after the commit under way has put it there. */
  predicate Late(s: Gateway, a: Act, p: Path, part: Part) {
    match part
    case TheEntry => a == ForgetEntry(p) && p !in s.ops
    case TheFile => a == ForgetFile(p) && !BeforeRename(s, p)
    case TheRecord => a.ForgetRecord? && a.path == p && !BeforeRecord(s, p)
  }

  ghost predicate NeverLate(s: Gateway, acts: seq<Act>, p: Path, part: Part)
    requires CanAll(s, acts)
    decreases |acts|
  {
    acts == [] || (!Late(s, acts[0], p, part) && NeverLate(Acted(s, acts[0]), acts[1..], p, part))
  }

  /** The step neither fails the commit of the path, nor begins another, nor drops what it stored by a claimed drop. */
  predicate Lets(a: Act, p: Path) {
    a.Do? ==> a.e != CommitFail(p) && !(a.e.CommitBegin? && a.e.obj.remotePath == p) && !(a.e.DropPick? && a.e.path == p)
  }

  // ------------------------------------------------------------ what becomes of each part

  /** A commit is of its own path, and no version stamp is zero. */
  ghost predicate StampedAt(s: Gateway, q: Path) {
    && (q in s.ops && s.ops[q].Commit? ==> s.ops[q].obj.remotePath == q && s.ops[q].obj.storedAt > 0)
    && (q in s.objs ==> s.objs[q].storedAt > 0)
    && (q in s.flights ==> s.flights[q].obj.storedAt > 0)
  }

  ghost predicate Stamped(s: Gateway) {
    forall q :: StampedAt(s, q)
  }

  /** The commit followed, of the version `a`, is under way, or over. */
  ghost predicate Followed(s: Gateway, p: Path, a: Ack) {
    && p != "" && a.obj.remotePath == p && a.obj.size == |a.bytes|
    && (a.obj.state.Dirty? || a.obj.state.Clean?)
    && (p in s.ops ==> s.ops[p].Commit? && s.ops[p].obj == a.obj && s.ops[p].w.bytes == a.bytes)
  }

  ghost predicate EntryTrack(s: Gateway, p: Path, v: nat, kept: bool) {
    if p in s.ops then kept
    else if kept then p in s.objs && s.objs[p].storedAt == v
    else p !in s.objs
  }

  ghost predicate FileTrack(s: Gateway, p: Path, bytes: seq<byte>, kept: bool) {
    var renamed := AtCommit(s, p, CommitStage.Renamed);
    if BeforeRename(s, p) then kept
    else if kept then Get(s.dir.live, p) == Some(File(bytes, true)) && (renamed || s.dir.Settled(p, bytes))
    else p !in s.dir.live && (renamed || s.dir.MayHold(p, None))
  }

  ghost predicate RecordTrack(s: Gateway, p: Path, a: Ack, kept: bool) {
    if BeforeRecord(s, p) then kept
    else if !kept then LoggedAt(s, p) == None
    else if AtCommit(s, p, Recorded) then Keeps(s, a, LoggedAt(s, p))
    else forall k | s.log.MayKeep(k) :: Keeps(s, a, s.log.CutAt(k, p))
  }

  ghost predicate Track(s: Gateway, p: Path, a: Ack, entry: bool, file: bool, record: bool) {
    && Stamped(s) && Followed(s, p, a)
    && EntryTrack(s, p, a.obj.storedAt, entry) && FileTrack(s, p, a.bytes, file) && RecordTrack(s, p, a, record)
  }

  // ------------------------------------------------------------ steps about other paths

  /** The path a step is about. */
  predicate Concerns(a: Act, p: Path) {
    match a
    case Do(e) => Subject(e) == Some(p)
    case ForgetEntry(q) => p == q
    case ForgetFile(q) => p == q
    case ForgetRecord(q, _) => p == q
    case ForgetSync => false
  }

  lemma ElsewhereQuiet(s: Gateway, a: Act, p: Path)
    requires OpsFiled(s) && Can(s, a) && !Concerns(a, p)
    ensures Quiet(s, Acted(s, a), p)
  {
    if a.Do? {
      OthersLeftAlone(s, a.e, p);
    } else if a.ForgetRecord? {
      assert Acted(s, a).log == s.log.Written(DropRecord(a.path, a.at));
    }
  }

  lemma QuietKeepsFile(s: Gateway, s': Gateway, p: Path, bytes: seq<byte>, kept: bool)
    requires Quiet(s, s', p) && FileTrack(s, p, bytes, kept)
    ensures FileTrack(s', p, bytes, kept)
  {
  }

  lemma QuietKeepsRecord(s: Gateway, s': Gateway, p: Path, a: Ack, kept: bool)
    requires Quiet(s, s', p) && RecordTrack(s, p, a, kept)
    ensures RecordTrack(s', p, a, kept)
  {
    QuietReplayed(s, s', p);
    if kept && !BeforeRecord(s, p) && !AtCommit(s, p, Recorded) {
      forall k | s'.log.MayKeep(k) ensures Keeps(s', a, s'.log.CutAt(k, p)) {
        QuietCut(s.log, s'.log, k, p);
      }
    }
  }

  lemma FiledBecauseStamped(s: Gateway)
    requires Stamped(s)
    ensures OpsFiled(s)
  {
    forall q | q in s.ops && s.ops[q].Commit? ensures s.ops[q].obj.remotePath == q {
      assert StampedAt(s, q);
    }
  }

  lemma StampedKept(s: Gateway, a: Act)
    requires Stamped(s) && Can(s, a)
    ensures Stamped(Acted(s, a))
  {
    FiledBecauseStamped(s);
    forall q ensures StampedAt(Acted(s, a), q) {
      assert StampedAt(s, q);
      if !Concerns(a, q) {
        ElsewhereQuiet(s, a, q);
      } else if a.Do? {
        OwnStampKept(s, a.e, q);
      }
    }
  }

  lemma OwnStampKept(s: Gateway, e: Event, q: Path)
    requires StampedAt(s, q) && Enabled(s, e) && Subject(e) == Some(q)
    ensures StampedAt(Step(s, e), q)
  {
    if IsCommit(e) {
      assert Step(s, e) == CommitStep(s, e);
    } else if IsDrop(e) {
      assert Step(s, e) == DropStep(s, e);
    } else if IsFlush(e) {
      FlushStampKept(s, e, q);
    }
  }

  lemma FlushStampKept(s: Gateway, e: Event, q: Path)
    requires StampedAt(s, q) && Enabled(s, e) && IsFlush(e) && e.path == q
    ensures StampedAt(Step(s, e), q)
  {
    assert Step(s, e) == FlushStep(s, e);
  }

  // ------------------------------------------------------------ steps about the path followed

  lemma OwnStepKeepsEntry(s: Gateway, e: Event, p: Path, a: Ack, kept: bool)
    requires Stamped(s) && Followed(s, p, a) && EntryTrack(s, p, a.obj.storedAt, kept)
    requires Can(s, Do(e)) && Lets(Do(e), p) && Subject(e) == Some(p)
    ensures Followed(Step(s, e), p, a) && EntryTrack(Step(s, e), p, a.obj.storedAt, kept)
  {
    if IsCommit(e) {
      assert Step(s, e) == CommitStep(s, e);
    } else if IsFlush(e) {
      assert Step(s, e) == FlushStep(s, e);
    }
  }

  lemma OwnStepKeepsFile(s: Gateway, e: Event, p: Path, a: Ack, kept: bool)
    requires Followed(s, p, a) && FileTrack(s, p, a.bytes, kept)
    requires Can(s, Do(e)) && Lets(Do(e), p) && Subject(e) == Some(p)
    ensures FileTrack(Step(s, e), p, a.bytes, kept)
  {
    if IsCommit(e) {
      OwnCommitKeepsFile(s, e, p, a, kept);
    } else if IsFlush(e) {
      assert Step(s, e) == FlushStep(s, e);
    }
  }

  lemma OwnCommitKeepsFile(s: Gateway, e: Event, p: Path, a: Ack, kept: bool)
    requires Followed(s, p, a) && FileTrack(s, p, a.bytes, kept)
    requires Enabled(s, e) && IsCommit(e) && Lets(Do(e), p) && Subject(e) == Some(p)
    ensures FileTrack(Step(s, e), p, a.bytes, kept)
  {
    assert Step(s, e) == CommitStep(s, e);
  }

  /** A record that leaves the version as it is, if it is there, is no matter. */
  lemma RecordAppended(s: Gateway, s': Gateway, p: Path, a: Ack, kept: bool, r: Record)
    requires RecordTrack(s, p, a, kept) && s'.log == s.log.Written(r) && Get(s'.ops, p) == Get(s.ops, p)
    requires s.hist.cleaned <= s'.hist.cleaned
    requires Keeps(s, a, LoggedAt(s, p)) ==> Keeps(s', a, ApplyAt(LoggedAt(s, p), r, p))
    requires LoggedAt(s, p) == None ==> ApplyAt(LoggedAt(s, p), r, p) == None
    ensures RecordTrack(s', p, a, kept)
  {
    CutsGrow(s.log, r, p);
    if kept && !BeforeRecord(s, p) && !AtCommit(s, p, Recorded) {
      assert s.log.MayKeep(|s.log.All()|);
    }
  }

  lemma ChangeKeepsVersion(s: Gateway, p: Path, at: nat, a: Ack)
    requires StampedAt(s, p) && a.obj.remotePath == p && Enabled(s, StateWrite(p, at))
    requires Keeps(s, a, LoggedAt(s, p))
    ensures Keeps(Step(s, StateWrite(p, at)), a, ApplyAt(LoggedAt(s, p), ChangeRecord(s.flights[p], p, at), p))
  {
  }

  lemma RecordsSynced(s: Gateway, s': Gateway, p: Path, a: Ack, kept: bool)
    requires RecordTrack(s, p, a, kept) && Get(s'.ops, p) == Get(s.ops, p) && s.hist.cleaned <= s'.hist.cleaned
    requires s'.log == s.log || s'.log == s.log.Flushed()
    ensures RecordTrack(s', p, a, kept)
  {
    CutsCollapse(s.log, p);
    assert s.log.MayKeep(|s.log.All()|);
  }

  lemma OwnFlushKeepsRecord(s: Gateway, e: Event, p: Path, a: Ack, kept: bool)
    requires StampedAt(s, p) && Followed(s, p, a) && RecordTrack(s, p, a, kept)
    requires Enabled(s, e) && IsFlush(e) && e.path == p
    ensures RecordTrack(Step(s, e), p, a, kept)
  {
    if e.StateWrite? {
      if Keeps(s, a, LoggedAt(s, p)) {
        ChangeKeepsVersion(s, p, e.at, a);
      }
      RecordAppended(s, Step(s, e), p, a, kept, ChangeRecord(s.flights[p], p, e.at));
    } else {
      FlushWritesNothing(s, e);
      RecordsSynced(s, Step(s, e), p, a, kept);
    }
  }

  lemma FlushWritesNothing(s: Gateway, e: Event)
    requires Enabled(s, e) && IsFlush(e) && !e.StateWrite?
    ensures var t := Step(s, e);
      t.ops == s.ops && t.hist.cleaned == s.hist.cleaned && (t.log == s.log || t.log == s.log.Flushed())
  {
    assert Step(s, e) == FlushStep(s, e);
  }

  lemma OwnCommitKeepsRecord(s: Gateway, e: Event, p: Path, a: Ack, kept: bool)
    requires Followed(s, p, a) && RecordTrack(s, p, a, kept)
    requires Enabled(s, e) && IsCommit(e) && Lets(Do(e), p) && Subject(e) == Some(p)
    ensures RecordTrack(Step(s, e), p, a, kept)
  {
    if e.CommitRecord? {
      PutKeepsRecord(s, p, a, kept);
    } else if e.CommitRecordSync? {
      PutSynced(s, p, a, kept);
    } else {
      CommitWritesNothing(s, e, p, a, kept);
    }
  }

  lemma PutSynced(s: Gateway, p: Path, a: Ack, kept: bool)
    requires Followed(s, p, a) && RecordTrack(s, p, a, kept) && Enabled(s, CommitRecordSync(p))
    ensures RecordTrack(Step(s, CommitRecordSync(p)), p, a, kept)
  {
    CutsCollapse(s.log, p);
  }

  lemma CommitWritesNothing(s: Gateway, e: Event, p: Path, a: Ack, kept: bool)
    requires Followed(s, p, a) && RecordTrack(s, p, a, kept) && Enabled(s, e)
    requires e == CommitSync(p) || e == CommitRename(p) || e == CommitDirSync(p) || e == CommitLand(p)
    ensures RecordTrack(Step(s, e), p, a, kept)
  {
    assert Step(s, e) == CommitStep(s, e);
  }

  lemma PutKeepsRecord(s: Gateway, p: Path, a: Ack, kept: bool)
    requires Followed(s, p, a) && RecordTrack(s, p, a, kept) && Enabled(s, CommitRecord(p))
    ensures RecordTrack(Step(s, CommitRecord(p)), p, a, kept)
  {
    CutsGrow(s.log, PutRecord(a.obj), p);
  }

  lemma OwnStepKeepsRecord(s: Gateway, e: Event, p: Path, a: Ack, kept: bool)
    requires StampedAt(s, p) && Followed(s, p, a) && RecordTrack(s, p, a, kept)
    requires Can(s, Do(e)) && Lets(Do(e), p) && Subject(e) == Some(p)
    ensures RecordTrack(Step(s, e), p, a, kept)
  {
    if IsCommit(e) {
      OwnCommitKeepsRecord(s, e, p, a, kept);
    } else if IsFlush(e) {
      OwnFlushKeepsRecord(s, e, p, a, kept);
    } else if e.AccessRecord? {
      RecordAppended(s, Step(s, e), p, a, kept, TouchRecord(p, e.at));
    }
  }

  // ------------------------------------------------------------ steps of a removal

  lemma ForgettingFile(s: Gateway, p: Path, bytes: seq<byte>, kept: bool)
    requires FileTrack(s, p, bytes, kept)
    ensures FileTrack(Acted(s, ForgetFile(p)), p, bytes, kept && BeforeRename(s, p))
  {
  }

  lemma ForgettingRecord(s: Gateway, p: Path, at: nat, a: Ack, kept: bool)
    requires RecordTrack(s, p, a, kept)
    ensures RecordTrack(Acted(s, ForgetRecord(p, at)), p, a, kept && BeforeRecord(s, p))
  {
    CutsGrow(s.log, DropRecord(p, at), p);
  }

  // ------------------------------------------------------------ every step

  lemma StepTracked(s: Gateway, act: Act, p: Path, a: Ack, entry: bool, file: bool, record: bool)
    requires Track(s, p, a, entry, file, record) && Can(s, act) && Lets(act, p)
    ensures Track(Acted(s, act), p, a, entry && !Late(s, act, p, TheEntry), file && !Late(s, act, p, TheFile),
                  record && !Late(s, act, p, TheRecord))
  {
    StampedKept(s, act);
    if !Concerns(act, p) {
      FiledBecauseStamped(s);
      ElsewhereQuiet(s, act, p);
      QuietKeepsFile(s, Acted(s, act), p, a.bytes, file);
      QuietKeepsRecord(s, Acted(s, act), p, a, record);
    } else {
      OwnStepTracked(s, act, p, a, entry, file, record);
    }
  }

  lemma OwnStepTracked(s: Gateway, act: Act, p: Path, a: Ack, entry: bool, file: bool, record: bool)
    requires Track(s, p, a, entry, file, record) && Can(s, act) && Lets(act, p) && Concerns(act, p)
    ensures var t := Acted(s, act);
      && Followed(t, p, a)
      && EntryTrack(t, p, a.obj.storedAt, entry && !Late(s, act, p, TheEntry))
      && FileTrack(t, p, a.bytes, file && !Late(s, act, p, TheFile))
      && RecordTrack(t, p, a, record && !Late(s, act, p, TheRecord))
  {
    match act
    case Do(e) =>
      assert StampedAt(s, p);
      OwnStepKeepsEntry(s, e, p, a, entry);
      OwnStepKeepsFile(s, e, p, a, file);
      OwnStepKeepsRecord(s, e, p, a, record);
    case ForgetEntry(_) =>
    case ForgetFile(_) => ForgettingFile(s, p, a.bytes, file);
    case ForgetRecord(_, at) => ForgettingRecord(s, p, at, a, record);
  }

  lemma {:induction false} RunTracked(s: Gateway, acts: seq<Act>, p: Path, a: Ack, entry: bool, file: bool, record: bool)
    requires Track(s, p, a, entry, file, record)
    requires CanAll(s, acts) && forall x :: x in acts ==> Lets(x, p)
    ensures Track(Outcome(s, acts), p, a, entry && NeverLate(s, acts, p, TheEntry), file && NeverLate(s, acts, p, TheFile),
                  record && NeverLate(s, acts, p, TheRecord))
    decreases |acts|
  {
    if acts != [] {
      var act := acts[0];
      StepTracked(s, act, p, a, entry, file, record);
      RunTracked(Acted(s, act), acts[1..], p, a, entry && !Late(s, act, p, TheEntry),
                 file && !Late(s, act, p, TheFile), record && !Late(s, act, p, TheRecord));
    }
  }

  // ------------------------------------------------------------ what is left of a commit

  ghost predicate Follows(s: Gateway, acts: seq<Act>, p: Path) {
    && Inv(s) && BeforeRename(s, p) && CanAll(s, acts) && (forall x :: x in acts ==> Lets(x, p))
    && p !in Outcome(s, acts).ops
  }

  function VersionOf(s: Gateway, p: Path): Ack
    requires p in s.ops && s.ops[p].Commit?
  {
    Ack(s.ops[p].obj, s.ops[p].w.bytes)
  }

  lemma TrackedToTheEnd(s: Gateway, acts: seq<Act>, p: Path)
    requires Follows(s, acts, p)
    ensures Track(Outcome(s, acts), p, VersionOf(s, p), NeverLate(s, acts, p, TheEntry), NeverLate(s, acts, p, TheFile),
                  NeverLate(s, acts, p, TheRecord))
  {
    forall q ensures StampedAt(s, q) {
      assert PathOk(s, q);
    }
    assert PathOk(s, p);
    RunTracked(s, acts, p, VersionOf(s, p), true, true, true);
  }

  /**
   * A commit that goes through, among any number of removals and anything else: the index
   * holds its version exactly when no removal took the entry after it landed, the file is
   * there exactly when none took it after the rename, and the journal has the version exactly
   * when no drop was recorded after it.
   */
  lemma KeptExactly(s: Gateway, acts: seq<Act>, p: Path)
    requires Follows(s, acts, p)
    ensures var a, t := VersionOf(s, p), Outcome(s, acts);
      && (if NeverLate(s, acts, p, TheEntry) then p in t.objs && t.objs[p].storedAt == a.obj.storedAt else p !in t.objs)
      && (if NeverLate(s, acts, p, TheFile) then Get(t.dir.live, p) == Some(File(a.bytes, true)) else p !in t.dir.live)
      && (if NeverLate(s, acts, p, TheRecord) then Keeps(t, a, LoggedAt(t, p)) else LoggedAt(t, p) == None)
  {
    TrackedToTheEnd(s, acts, p);
    assert Outcome(s, acts).log.MayKeep(|Outcome(s, acts).log.All()|);
  }

  /** Every crash, the journal torn at any byte, gives back a version with its bytes. */
  ghost predicate ComesBack(c: Codec, t: Gateway, a: Ack) {
    forall journal, files | CrashedJournal(c, t.log, journal) && t.dir.Survives(files) ::
      && Get(files, a.obj.remotePath) == Some(File(a.bytes, true))
      && Keeps(t, a, Get(Recovered(c, journal, files), a.obj.remotePath))
  }

  /** A directory a crash may leave: the permanent entries, less some that may be gone. */
  lemma MayBeLeft(d: Dir, gone: set<Path>) returns (files: map<Path, File>)
    requires forall p :: p in gone ==> d.MayHold(p, None)
    ensures d.Survives(files) && forall p :: p in gone ==> p !in files
  {
    files := map q | q in d.durable && q !in gone :: File(d.durable[q].bytes, true);
    forall q ensures d.MayLeave(q, Get(files, q)) {
      var entry := if q in gone then None else Get(d.durable, q);
      assert d.MayHold(q, entry) && d.Leaves(entry, Get(files, q));
    }
  }

  /** A crash may leave the whole journal. */
  lemma WholeIsLeft(c: Codec, l: Log, p: Path)
    requires Sound(c)
    ensures CrashedJournal(c, l, Encoded(c, l.All()))
    ensures Get(ReadOn(c, Encoded(c, l.All()), NOTHING_READ).objects, p) == l.CutAt(|l.All()|, p)
  {
    EncodedPrefix(c, l.All(), |l.synced|);
    assert l.All()[..|l.synced|] == l.synced && l.All()[..|l.All()|] == l.All();
    WholeJournal(c, l.All());
    ReplayPointwise(l.All(), p);
  }

  lemma KeptComesBack(c: Codec, t: Gateway, p: Path, a: Ack)
    requires Sound(c) && p !in t.ops && a.obj.remotePath == p && a.obj.size == |a.bytes|
    requires FileTrack(t, p, a.bytes, true) && RecordTrack(t, p, a, true)
    ensures ComesBack(c, t, a)
  {
    forall journal, files | CrashedJournal(c, t.log, journal) && t.dir.Survives(files)
      ensures Get(files, p) == Some(File(a.bytes, true)) && Keeps(t, a, Get(Recovered(c, journal, files), p))
    {
      var k := CrashIsACut(c, t.log, journal, p);
      SettledSurvives(t.dir, files, p, a.bytes);
      assert Keeps(t, a, t.log.CutAt(k, p));
    }
  }

  lemma LostFileStaysAway(c: Codec, t: Gateway, p: Path, a: Ack)
    requires Sound(c) && p !in t.ops && a.obj.remotePath == p && FileTrack(t, p, a.bytes, false)
    ensures !ComesBack(c, t, a)
  {
    var files := MayBeLeft(t.dir, {p});
    WholeIsLeft(c, t.log, p);
  }

  lemma LostRecordStaysAway(c: Codec, t: Gateway, p: Path, a: Ack)
    requires Sound(c) && p !in t.ops && a.obj.remotePath == p && RecordTrack(t, p, a, false)
    ensures !ComesBack(c, t, a)
  {
    var files := MayBeLeft(t.dir, {});
    WholeIsLeft(c, t.log, p);
    assert Get(Recovered(c, Encoded(c, t.log.All()), files), p) == None;
  }

  /**
   * And it is recovered from every crash, with its bytes, exactly when no removal took the
   * file after the rename and none recorded a drop after the commit's record.
   */
  lemma RecoveredExactly(c: Codec, s: Gateway, acts: seq<Act>, p: Path)
    requires Sound(c) && Follows(s, acts, p)
    ensures ComesBack(c, Outcome(s, acts), VersionOf(s, p))
       <==> NeverLate(s, acts, p, TheFile) && NeverLate(s, acts, p, TheRecord)
  {
    var a, t := VersionOf(s, p), Outcome(s, acts);
    TrackedToTheEnd(s, acts, p);
    if NeverLate(s, acts, p, TheFile) && NeverLate(s, acts, p, TheRecord) {
      KeptComesBack(c, t, p, a);
    } else if !NeverLate(s, acts, p, TheFile) {
      LostFileStaysAway(c, t, p, a);
    } else {
      LostRecordStaysAway(c, t, p, a);
    }
  }

  // ------------------------------------------------------------ removals that take what is acknowledged

  /** One step and then the others. */
  lemma ActFront(s: Gateway, a: Act, rest: seq<Act>, p: Path)
    requires Can(s, a) && CanAll(Acted(s, a), rest)
    ensures CanAll(s, [a] + rest) && Outcome(s, [a] + rest) == Outcome(Acted(s, a), rest)
    ensures forall part :: NeverLate(s, [a] + rest, p, part) <==>
              !Late(s, a, p, part) && NeverLate(Acted(s, a), rest, p, part)
  {
    assert ([a] + rest)[1..] == rest;
  }

  /** A commit is through: the caller has been told so, and the index has the version. */
  ghost predicate Landed(t: Gateway, p: Path, a: Ack) {
    p !in t.ops && Get(t.objs, p) == Some(a.obj) && Get(t.hist.acked, p) == Some(a)
  }

  function ToLand(p: Path): seq<Act> {
    [Do(CommitRecordSync(p))] + [Do(CommitLand(p))]
  }

  lemma Lands(s: Gateway, p: Path)
    requires AtCommit(s, p, Recorded)
    ensures CanAll(s, ToLand(p)) && Landed(Outcome(s, ToLand(p)), p, VersionOf(s, p))
    ensures NeverLate(s, ToLand(p), p, TheEntry)
  {
    var s1 := Acted(s, Do(CommitRecordSync(p)));
    ActFront(s1, Do(CommitLand(p)), [], p);
    assert [Do(CommitLand(p))] + [] == [Do(CommitLand(p))];
    ActFront(s, Do(CommitRecordSync(p)), [Do(CommitLand(p))], p);
  }

  /** After the rename: a drop is recorded first, and the commit goes on. */
  function DropThenLand(p: Path, at: nat): seq<Act> {
    [ForgetRecord(p, at)] + ([ForgetSync] + ([Do(CommitDirSync(p))] + ([Do(CommitRecord(p))] + ToLand(p))))
  }

  lemma DropThenLands(s: Gateway, p: Path, at: nat)
    requires AtCommit(s, p, CommitStage.Renamed)
    ensures CanAll(s, DropThenLand(p, at)) && Landed(Outcome(s, DropThenLand(p, at)), p, VersionOf(s, p))
    ensures NeverLate(s, DropThenLand(p, at), p, TheEntry)
  {
    var s1 := Acted(s, ForgetRecord(p, at));
    var s2 := Acted(s1, ForgetSync);
    var s3 := Acted(s2, Do(CommitDirSync(p)));
    Lands(Acted(s3, Do(CommitRecord(p))), p);
    ActFront(s3, Do(CommitRecord(p)), ToLand(p), p);
    var rest := [Do(CommitRecord(p))] + ToLand(p);
    ActFront(s2, Do(CommitDirSync(p)), rest, p);
    ActFront(s1, ForgetSync, [Do(CommitDirSync(p))] + rest, p);
    ActFront(s, ForgetRecord(p, at), [ForgetSync] + ([Do(CommitDirSync(p))] + rest), p);
  }

  /** After the rename: the commit records its version first, and then a drop is recorded. */
  function LandThenDrop(p: Path, at: nat): seq<Act> {
    [Do(CommitDirSync(p))] + ([Do(CommitRecord(p))] + ([ForgetRecord(p, at)] + ([ForgetSync] + ToLand(p))))
  }

  lemma LandsThenDropped(s: Gateway, p: Path, at: nat)
    requires AtCommit(s, p, CommitStage.Renamed)
    ensures CanAll(s, LandThenDrop(p, at)) && Landed(Outcome(s, LandThenDrop(p, at)), p, VersionOf(s, p))
    ensures NeverLate(s, LandThenDrop(p, at), p, TheEntry) && !NeverLate(s, LandThenDrop(p, at), p, TheRecord)
  {
    var s1 := Acted(s, Do(CommitDirSync(p)));
    var s2 := Acted(s1, Do(CommitRecord(p)));
    var s3 := Acted(s2, ForgetRecord(p, at));
    Lands(Acted(s3, ForgetSync), p);
    ActFront(s3, ForgetSync, ToLand(p), p);
    var rest := [ForgetSync] + ToLand(p);
    ActFront(s2, ForgetRecord(p, at), rest, p);
    ActFront(s1, Do(CommitRecord(p)), [ForgetRecord(p, at)] + rest, p);
    ActFront(s, Do(CommitDirSync(p)), [Do(CommitRecord(p))] + ([ForgetRecord(p, at)] + rest), p);
  }

  /** The entry goes before the rename and the file after it. */
  function FileLate(p: Path, at: nat): seq<Act> {
    [ForgetEntry(p)] + ([Do(CommitRename(p))] + ([ForgetFile(p)] + DropThenLand(p, at)))
  }

  lemma RunFileLate(s: Gateway, p: Path, at: nat)
    requires AtCommit(s, p, TmpSynced)
    ensures CanAll(s, FileLate(p, at)) && Landed(Outcome(s, FileLate(p, at)), p, VersionOf(s, p))
    ensures NeverLate(s, FileLate(p, at), p, TheEntry) && !NeverLate(s, FileLate(p, at), p, TheFile)
  {
    var s1 := Acted(s, ForgetEntry(p));
    var s2 := Acted(s1, Do(CommitRename(p)));
    DropThenLands(Acted(s2, ForgetFile(p)), p, at);
    ActFront(s2, ForgetFile(p), DropThenLand(p, at), p);
    var rest := [ForgetFile(p)] + DropThenLand(p, at);
    ActFront(s1, Do(CommitRename(p)), rest, p);
    ActFront(s, ForgetEntry(p), [Do(CommitRename(p))] + rest, p);
  }

  /** Entry and file go before the rename, and the drop is recorded after the version. */
  function RecordLate(p: Path, at: nat): seq<Act> {
    [ForgetEntry(p)] + ([ForgetFile(p)] + ([Do(CommitRename(p))] + LandThenDrop(p, at)))
  }

  lemma RunRecordLate(s: Gateway, p: Path, at: nat)
    requires AtCommit(s, p, TmpSynced)
    ensures CanAll(s, RecordLate(p, at)) && Landed(Outcome(s, RecordLate(p, at)), p, VersionOf(s, p))
    ensures NeverLate(s, RecordLate(p, at), p, TheEntry) && !NeverLate(s, RecordLate(p, at), p, TheRecord)
  {
    var s1 := Acted(s, ForgetEntry(p));
    var s2 := Acted(s1, ForgetFile(p));
    LandsThenDropped(Acted(s2, Do(CommitRename(p))), p, at);
    ActFront(s2, Do(CommitRename(p)), LandThenDrop(p, at), p);
    var rest := [Do(CommitRename(p))] + LandThenDrop(p, at);
    ActFront(s1, ForgetFile(p), rest, p);
    ActFront(s, ForgetEntry(p), [ForgetFile(p)] + rest, p);
  }

  /**
   * Whenever a commit stands before its rename, a removal that has picked the object before
   * it may fall around the rename: the commit reports success and its version is in the
   * index, but the file has gone with what it replaced.
   */
  lemma FileLateLoses(c: Codec, s: Gateway, p: Path, at: nat)
    requires Sound(c) && Inv(s) && AtCommit(s, p, TmpSynced)
    ensures CanAll(s, FileLate(p, at))
    ensures var t := Outcome(s, FileLate(p, at));
      Landed(t, p, VersionOf(s, p)) && p !in t.dir.live && !ComesBack(c, t, VersionOf(s, p))
  {
    var acts := FileLate(p, at);
    RunFileLate(s, p, at);
    assert forall x :: x in DropThenLand(p, at) ==> Lets(x, p);
    assert Follows(s, acts, p);
    KeptExactly(s, acts, p);
    RecoveredExactly(c, s, acts, p);
  }

  /** Or around the record: the file is there, but the journal drops what the commit recorded. */
  lemma RecordLateLoses(c: Codec, s: Gateway, p: Path, at: nat)
    requires Sound(c) && Inv(s) && AtCommit(s, p, TmpSynced)
    ensures CanAll(s, RecordLate(p, at))
    ensures var t := Outcome(s, RecordLate(p, at));
      Landed(t, p, VersionOf(s, p)) && LoggedAt(t, p) == None && !ComesBack(c, t, VersionOf(s, p))
  {
    var acts := RecordLate(p, at);
    RunRecordLate(s, p, at);
    assert forall x :: x in LandThenDrop(p, at) ==> Lets(x, p);
    assert Follows(s, acts, p);
    KeptExactly(s, acts, p);
    RecoveredExactly(c, s, acts, p);
  }
}
