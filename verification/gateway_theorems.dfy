// What the write-back cache promises, over every run of the step system.
module GatewayTheorems {
  import opened Prelude
  import opened Objects
  import opened Journal
  import opened Disk
  import opened Gateway
  import opened GatewayInvariant
  import opened GatewaySteps
  import opened GatewayRuns

  // ------------------------------------------------------------ crash durability

  /** What the next process has in its index, from the bytes of a journal file and a directory. */
  function Recovered(c: Codec, journal: seq<byte>, files: map<Path, File>): Index {
    Verified(ReadOn(c, journal, NOTHING_READ).objects, files)
  }

  /** A journal file as a crash may leave it: everything synced, and any number of bytes after. */
  ghost predicate CrashedJournal(c: Codec, l: Log, journal: seq<byte>) {
    && Encoded(c, l.synced) <= journal
    && journal <= Encoded(c, l.All())
  }

  /** An event that starts to take a path's version away. */
  predicate Supersedes(e: Event, p: Path) {
    e == CommitRename(p) || e == DropIndex(p)
  }

  /** A torn journal replays to one of the cuts the invariant speaks about. */
  lemma CrashIsACut(c: Codec, l: Log, journal: seq<byte>, p: Path) returns (k: nat)
    requires Sound(c) && CrashedJournal(c, l, journal)
    ensures l.MayKeep(k)
    ensures Get(ReadOn(c, journal, NOTHING_READ).objects, p) == l.CutAt(k, p)
  {
    var recs := l.All();
    k := Complete(c, recs, |journal|);
    assert journal == Encoded(c, recs)[..|journal|];
    CutJournal(c, recs, |journal|);
    assert recs[..|l.synced|] == l.synced;
    CutKeepsSynced(c, recs, |l.synced|, |journal|);
    ReplayPointwise(recs[..k], p);
  }

  /** A vouched-for version stays vouched for until something supersedes it. */
  lemma {:induction false} StillVouched(s: Gateway, es: seq<Event>, p: Path)
    requires Inv(s) && IsRun(s, es) && p in s.hist.acked
    requires forall i :: 0 <= i < |es| ==> !Supersedes(es[i], p)
    ensures p in Exec(s, es).hist.acked && Exec(s, es).hist.acked[p] == s.hist.acked[p]
    decreases |es|
  {
    if es != [] {
      assert PathOk(s, p);
      StepKeepsInv(s, es[0]);
      VouchedStep(s, es[0], p);
      StillVouched(Step(s, es[0]), es[1..], p);
    }
  }

  lemma VouchedStep(s: Gateway, e: Event, p: Path)
    requires Inv(s) && Enabled(s, e) && p in s.hist.acked && !Supersedes(e, p)
    ensures p in Step(s, e).hist.acked && Step(s, e).hist.acked[p] == s.hist.acked[p]
  {
    if e.Restart? {
    } else if Subject(e) != Some(p) {
      OthersQuiet(s, e, p);
    } else {
      VouchedOwnStep(s, e, p);
    }
  }

  lemma VouchedOwnStep(s: Gateway, e: Event, p: Path)
    requires Inv(s) && Enabled(s, e) && p in s.hist.acked && !Supersedes(e, p) && Subject(e) == Some(p)
    ensures Get(Step(s, e).hist.acked, p) == Get(s.hist.acked, p)
  {
    assert PathOk(s, p);
    if IsCommit(e) {
      assert Step(s, e) == CommitStep(s, e);
    } else if IsDrop(e) {
      assert Step(s, e) == DropStep(s, e);
    } else if IsFlush(e) {
      assert Step(s, e) == FlushStep(s, e);
    }
  }

  /** A crash at any point of a run gives back what is still vouched for. */
  lemma VouchedSurvives(s: Gateway, c: Codec, journal: seq<byte>, files: map<Path, File>, p: Path)
    requires Inv(s) && p in s.hist.acked
    requires Sound(c) && CrashedJournal(c, s.log, journal) && s.dir.Survives(files)
    ensures var a, objs := s.hist.acked[p], Recovered(c, journal, files);
      && Get(files, p) == Some(File(a.bytes, true))
      && Keeps(s, a, Get(objs, p))
  {
    var k := CrashIsACut(c, s.log, journal, p);
    assert PathOk(s, p);
    SettledSurvives(s.dir, files, p, s.hist.acked[p].bytes);
  }

  /**
   * Crash durability. Once a commit has returned success, a crash after any further
   * events, none of which supersedes the version, recovers it: the same version, size
   * and hash, its exact bytes on disk, and unsent unless it was committed clean or a
   * clean record for it had been appended, which only a confirmed upload causes.
   */
  lemma CrashDurability(s0: Gateway, before: seq<Event>, s1: Gateway, p: Path, after: seq<Event>, s: Gateway,
                        c: Codec, journal: seq<byte>, files: map<Path, File>)
    requires LeadsTo(s0, before, s1) && AtCommit(s1, p, RecordSynced)
    requires RunsTo(Step(s1, CommitLand(p)), after, s)
    requires forall i :: 0 <= i < |after| ==> !Supersedes(after[i], p)
    requires Sound(c) && CrashedJournal(c, s.log, journal) && s.dir.Survives(files)
    ensures Delivers(Recovered(c, journal, files), files, s, p, s1.ops[p].obj, s1.ops[p].w.bytes)
  {
    ReachableInv(s0, before, s1);
    assert PathOk(s1, p);
    StepKeepsInv(s1, CommitLand(p));
    var s2 := Step(s1, CommitLand(p));
    StillVouched(s2, after, p);
    RunKeepsInv(s2, after);
    VouchedSurvives(s, c, journal, files, p);
  }

  /** An index and a directory that give version `o` of a path back, as committed with `bytes`. */
  ghost predicate Delivers(objs: Index, files: map<Path, File>, s: Gateway, p: Path, o: Object, bytes: seq<byte>) {
    && p in objs && p in files
    && files[p].bytes == bytes
    && objs[p].storedAt == o.storedAt
    && objs[p].size == o.size == |bytes|
    && objs[p].hash == o.hash
    && (objs[p].state.Unsent() || o.state.Clean? || (Version(p, o.storedAt) in s.hist.cleaned && Version(p, o.storedAt) in s.hist.confirmed))
  }

  // ------------------------------------------------------------ the journal and the index agree

  /** No operation on the path is between its record (or rename) and its index update. */
  predicate AtRest(s: Gateway, p: Path) {
    !Settling(s, p) && !AtSub(s, p, Written) && !AtSub(s, p, Flushed)
  }

  /**
   * Whenever no operation on a path is half way and none has failed there, replaying
   * the journal and checking it against the directory gives the live entry.
   */
  lemma JournalAgrees(s0: Gateway, es: seq<Event>, s: Gateway, p: Path)
    requires LeadsTo(s0, es, s) && AtRest(s, p) && p !in s.hist.broken
    ensures SameEntry(Get(Verified(Replay(s.log.All()), s.dir.live), p), Get(s.objs, p))
  {
    ReachableInv(s0, es, s);
    RestAgrees(s, p);
  }

  lemma RestAgrees(s: Gateway, p: Path)
    requires Inv(s) && AtRest(s, p) && p !in s.hist.broken
    ensures SameEntry(Get(Verified(Replay(s.log.All()), s.dir.live), p), Get(s.objs, p))
  {
    assert PathOk(s, p);
    ReplayPointwise(s.log.All(), p);
    assert s.log.All()[..|s.log.All()|] == s.log.All();
  }

  lemma NothingBreaks(s: Gateway, e: Event)
    requires Enabled(s, e) && !e.CommitFail? && !e.StateFail? && s.hist.broken == {}
    ensures Step(s, e).hist.broken == {}
  {
    if IsCommit(e) {
      CommitBreaksNothing(s, e);
    } else if IsDrop(e) {
      assert Step(s, e) == DropStep(s, e);
    } else if IsFlush(e) {
      FlushBreaksNothing(s, e);
    }
  }

  lemma CommitBreaksNothing(s: Gateway, e: Event)
    requires Enabled(s, e) && IsCommit(e) && !e.CommitFail? && s.hist.broken == {}
    ensures Step(s, e).hist.broken == {}
  {
    assert Step(s, e) == CommitStep(s, e);
  }

  lemma FlushBreaksNothing(s: Gateway, e: Event)
    requires Enabled(s, e) && IsFlush(e) && !e.StateFail? && s.hist.broken == {}
    ensures Step(s, e).hist.broken == {}
  {
    assert Step(s, e) == FlushStep(s, e);
  }

  /** Without failed appends and directory syncs, no path is excepted. */
  lemma {:induction false} NothingBroken(s: Gateway, es: seq<Event>)
    requires IsRun(s, es) && s.hist.broken == {}
    requires forall i :: 0 <= i < |es| ==> !es[i].CommitFail? && !es[i].StateFail?
    ensures Exec(s, es).hist.broken == {}
    decreases |es|
  {
    if es != [] {
      NothingBreaks(s, es[0]);
      NothingBroken(Step(s, es[0]), es[1..]);
    }
  }

  /** A state record for a version that has been replaced changes nothing, live or on replay. */
  lemma StaleChangeIsInert(s: Gateway, p: Path, at: nat)
    requires Inv(s) && p in s.flights && s.flights[p].stage.Setting?
    ensures p in s.objs && s.objs[p].storedAt != s.flights[p].obj.storedAt ==>
              && Changed(Get(s.objs, p), s.flights[p]) == Get(s.objs, p)
              && (AtSub(s, p, Flushed) ==> Step(s, StateApply(p)).objs == s.objs)
    ensures LoggedAt(s, p).Some? && LoggedAt(s, p).value.storedAt != s.flights[p].obj.storedAt ==>
              ReplayAt(s.log.All() + [ChangeRecord(s.flights[p], p, at)], p) == LoggedAt(s, p)
  {
    assert PathOk(s, p);
    ReplayAtAppend(s.log.All(), ChangeRecord(s.flights[p], p, at), p);
    assert s.log.All()[..|s.log.All()|] == s.log.All();
  }

  // ------------------------------------------------------------ unsent data is conserved

  predicate CommitOver(s: Gateway, p: Path) {
    p in s.ops && s.ops[p].Commit? && s.ops[p].stage !in {TmpOpen, TmpSynced}
  }

  /** The only events that may end a version's life as unsent data. */
  ghost predicate EndsUnsent(s: Gateway, e: Event, p: Path, v: nat) {
    // an upload of that very version was confirmed
    || (e == StateApply(p) && p in s.flights && s.flights[p].obj.storedAt == v && Version(p, v) in s.hist.confirmed
        && s.flights[p].stage.Setting? && s.flights[p].stage.change.ToClean?)
    // a later commit on the same path
    || e == CommitLand(p)
    // the user asked for it to be deleted, or its content file was found gone
    || (e == DropIndex(p) && p in s.ops && s.ops[p].Drop?
        && (s.ops[p].cause == RemovedByUser || (s.ops[p].cause == ContentGone && p !in s.dir.live)))
    // a crash, when the version was upstream already or a later commit was on top of it
    || (e.Restart? && (Certified(s, Version(p, v)) || CommitOver(s, p) || p in s.hist.ruined))
  }

  ghost predicate HoldsUnsent(s: Gateway, p: Path, v: nat) {
    p in s.objs && s.objs[p].storedAt == v && s.objs[p].state.Unsent()
  }

  lemma UnsentAcrossRestart(s: Gateway, e: Event, p: Path, v: nat)
    requires Inv(s) && Enabled(s, e) && e.Restart? && HoldsUnsent(s, p, v)
    ensures HoldsUnsent(Step(s, e), p, v) || EndsUnsent(s, e, p, v)
  {
    var recs := s.log.All()[..e.kept];
    assert PathOk(s, p);
    if !CommitOver(s, p) && p !in s.hist.ruined {
      var a := s.hist.acked[p];
      SettledSurvives(s.dir, e.files, p, a.bytes);
      assert Keeps(s, a, s.log.CutAt(e.kept, p));
      ReplayPointwise(recs, p);
    }
  }

  lemma UnsentStep(s: Gateway, e: Event, p: Path, v: nat)
    requires Inv(s) && Enabled(s, e) && HoldsUnsent(s, p, v)
    ensures HoldsUnsent(Step(s, e), p, v) || EndsUnsent(s, e, p, v)
  {
    if e.Restart? {
      UnsentAcrossRestart(s, e, p, v);
    } else if Subject(e) != Some(p) {
      OthersQuiet(s, e, p);
    } else if IsCommit(e) {
      UnsentThroughCommit(s, e, p, v);
    } else if IsDrop(e) {
      UnsentThroughDrop(s, e, p, v);
    } else if IsFlush(e) {
      UnsentThroughFlush(s, e, p, v);
    }
  }

  lemma UnsentThroughCommit(s: Gateway, e: Event, p: Path, v: nat)
    requires Inv(s) && Enabled(s, e) && HoldsUnsent(s, p, v) && IsCommit(e) && Subject(e) == Some(p)
    ensures HoldsUnsent(Step(s, e), p, v) || EndsUnsent(s, e, p, v)
  {
  }

  lemma UnsentThroughDrop(s: Gateway, e: Event, p: Path, v: nat)
    requires Inv(s) && Enabled(s, e) && HoldsUnsent(s, p, v) && IsDrop(e) && Subject(e) == Some(p)
    ensures HoldsUnsent(Step(s, e), p, v) || EndsUnsent(s, e, p, v)
  {
    assert PathOk(s, p);
  }

  lemma UnsentThroughFlush(s: Gateway, e: Event, p: Path, v: nat)
    requires Inv(s) && Enabled(s, e) && HoldsUnsent(s, p, v) && IsFlush(e) && Subject(e) == Some(p)
    ensures HoldsUnsent(Step(s, e), p, v) || EndsUnsent(s, e, p, v)
  {
    assert PathOk(s, p);
  }

  /** The state before the event number `i` of a run. */
  ghost predicate Before(s: Gateway, es: seq<Event>, i: nat, si: Gateway) {
    i < |es| && IsRun(s, es[..i]) && Exec(s, es[..i]) == si
  }

  lemma BeforeFirst(s: Gateway, es: seq<Event>)
    requires es != []
    ensures Before(s, es, 0, s)
  {
    assert es[..0] == [];
  }

  lemma BeforeNext(s: Gateway, es: seq<Event>, i: nat, si: Gateway)
    requires es != [] && Enabled(s, es[0]) && Before(Step(s, es[0]), es[1..], i, si)
    ensures Before(s, es, i + 1, si)
  {
    assert es[..i + 1][0] == es[0] && es[..i + 1][1..] == es[1..][..i];
  }

  /**
   * Unsent data is conserved. Over any run an unsent version either is still there,
   * unsent, or one of the listed events ended it: eviction, refresh, clear, flush and
   * drain are not among them.
   */
  lemma {:induction false} UnsentConserved(s: Gateway, es: seq<Event>, p: Path, v: nat)
    requires Inv(s) && IsRun(s, es) && HoldsUnsent(s, p, v)
    ensures HoldsUnsent(Exec(s, es), p, v)
         || exists i: nat, si :: Before(s, es, i, si) && EndsUnsent(si, es[i], p, v)
    decreases |es|
  {
    if es != [] {
      UnsentStep(s, es[0], p, v);
      StepKeepsInv(s, es[0]);
      if EndsUnsent(s, es[0], p, v) {
        BeforeFirst(s, es);
      } else {
        var s', rest := Step(s, es[0]), es[1..];
        UnsentConserved(s', rest, p, v);
        if !HoldsUnsent(Exec(s', rest), p, v) {
          var i: nat, si :| Before(s', rest, i, si) && EndsUnsent(si, rest[i], p, v);
          BeforeNext(s, es, i, si);
          assert es[i + 1] == rest[i];
        }
      }
    }
  }

  // ------------------------------------------------------------ clean means confirmed

  /** An upload made for version `v` came back without an error and with an accepted hash. */
  ghost predicate UploadConfirmed(s: Gateway, e: Event, v: Version) {
    e.UploadReturn? && e.path == v.path && v.path in s.flights && s.flights[v.path].obj.storedAt == v.storedAt
    && e.result.Stored? && Accepted(e.result.hash, s.flights[v.path].obj)
  }

  /** A version was committed as clean by a read-through fill. */
  ghost predicate CommittedClean(s: Gateway, e: Event, v: Version) {
    e.CommitBegin? && v == Version(e.obj.remotePath, e.obj.storedAt) && e.obj.state.Clean?
    && e.w in s.writers && !s.writers[e.w].dirty
  }

  ghost predicate Certifies(s: Gateway, e: Event, v: Version) {
    UploadConfirmed(s, e, v) || CommittedClean(s, e, v)
  }

  lemma CertifyingStep(s: Gateway, e: Event, v: Version)
    requires Enabled(s, e) && Certified(Step(s, e), v)
    ensures Certified(s, v) || Certifies(s, e, v)
  {
    if IsFlush(e) {
      assert Step(s, e) == FlushStep(s, e);
    }
  }

  lemma {:induction false} CertifiedMeans(s: Gateway, es: seq<Event>, v: Version)
    requires IsRun(s, es) && Certified(Exec(s, es), v)
    ensures Certified(s, v) || exists i: nat, si :: Before(s, es, i, si) && Certifies(si, es[i], v)
    decreases |es|
  {
    if es != [] && !Certified(s, v) {
      var s', rest := Step(s, es[0]), es[1..];
      CertifiedMeans(s', rest, v);
      if Certified(s', v) {
        CertifyingStep(s, es[0], v);
        BeforeFirst(s, es);
      } else {
        var i: nat, si :| Before(s', rest, i, si) && Certifies(si, rest[i], v);
        BeforeNext(s, es, i, si);
        assert es[i + 1] == rest[i];
      }
    }
  }

  /** The journal the run began with says the version is clean. */
  ghost predicate CleanAtOpening(s0: Gateway, v: Version) {
    exists blank, recs, files :: OpenedOn(s0, blank, recs, files) && SaysClean(recs, v)
  }

  predicate SaysClean(recs: seq<Record>, v: Version) {
    var o := ReplayAt(recs, v.path);
    o.Some? && o.value.state.Clean? && o.value.storedAt == v.storedAt
  }

  lemma CertifiedAtOpening(s0: Gateway, v: Version)
    requires Opened(s0)
    ensures Certified(s0, v) <==> CleanAtOpening(s0, v)
  {
    var clock, maxDirty, recs, files :| OpenedOn(s0, Blank(clock, maxDirty, CleanVersions(recs)), recs, files);
    FirstJournalSays(s0, Blank(clock, maxDirty, CleanVersions(recs)), recs, files, v);
    if CleanAtOpening(s0, v) {
      var blank, recs', files' :| OpenedOn(s0, blank, recs', files') && SaysClean(recs', v);
      FirstJournalSays(s0, blank, recs', files', v);
    }
  }

  lemma FirstJournalSays(s0: Gateway, blank: Gateway, recs: seq<Record>, files: map<Path, File>, v: Version)
    requires OpenedOn(s0, blank, recs, files)
    ensures Certified(s0, v) <==> SaysClean(recs, v)
  {
    ReplayPointwise(recs, v.path);
    assert s0.hist.filled == CleanVersions(recs) && s0.hist.confirmed == {};
    var objs := Replay(recs);
    assert v in CleanVersions(recs) <==> (v.path in objs && objs[v.path].state.Clean? && objs[v.path].storedAt == v.storedAt);
  }

  /**
   * Clean means confirmed. In every reachable state, and in what any crash of it
   * recovers, a clean object was clean in the journal first opened, was committed
   * clean, or some upload of that very version returned without an error and with a
   * hash that was empty or equal to the recorded one.
   */
  lemma CleanMeansConfirmed(s0: Gateway, es: seq<Event>, s: Gateway, c: Codec, journal: seq<byte>,
                            files: map<Path, File>, p: Path, o: Object)
    requires LeadsTo(s0, es, s) && Sound(c) && CrashedJournal(c, s.log, journal)
    requires Get(s.objs, p) == Some(o) || Get(Recovered(c, journal, files), p) == Some(o)
    requires o.state.Clean?
    ensures CleanAtOpening(s0, Version(p, o.storedAt))
         || exists i: nat, si :: Before(s0, es, i, si) && Certifies(si, es[i], Version(p, o.storedAt))
  {
    ReachableInv(s0, es, s);
    CleanIsCertified(s, c, journal, files, p, o);
    CertifiedMeans(s0, es, Version(p, o.storedAt));
    CertifiedAtOpening(s0, Version(p, o.storedAt));
  }

  lemma CleanIsCertified(s: Gateway, c: Codec, journal: seq<byte>, files: map<Path, File>, p: Path, o: Object)
    requires Inv(s) && Sound(c) && CrashedJournal(c, s.log, journal)
    requires Get(s.objs, p) == Some(o) || Get(Recovered(c, journal, files), p) == Some(o)
    requires o.state.Clean?
    ensures Certified(s, Version(p, o.storedAt))
  {
    assert PathOk(s, p);
    var k := CrashIsACut(c, s.log, journal, p);
  }

  // ------------------------------------------------------------ recovering twice

  /** Opening removes files it cannot account for; a crash may bring one back, or not. */
  lemma EntryAfterOpening(s: Gateway, recs: seq<Record>, files: map<Path, File>, files': map<Path, File>, p: Path)
    requires forall f :: f in files ==> files[f].synced
    requires Reopened(s, recs, files).dir.Survives(files')
    ensures Get(files', p) == Get(files, p) || (p !in files' && p !in Reopened(s, recs, files).objs)
  {
    var d := Reopened(s, recs, files).dir;
    assert p in files' || p !in files';
    var entry :| d.MayHold(p, entry) && d.Leaves(entry, Get(files', p));
  }

  lemma SecondLook(s: Gateway, s1: Gateway, j: Option<Object>, files: map<Path, File>, files': map<Path, File>, p: Path)
    requires FreshAt(s, s1, j, files, p)
    requires Get(files', p) == Get(files, p) || (p !in files' && p !in s1.objs)
    ensures VerifiedAt(LoggedAt(s1, p), Get(files', p)) == Get(s1.objs, p)
  {
  }

  /** A crash right after opening, and a second look, give one path the same entry. */
  lemma RecoveringTwiceAt(s: Gateway, recs: seq<Record>, files: map<Path, File>, files': map<Path, File>, p: Path)
    requires forall q {:trigger ReplayAt(recs, q)} :: EntryOk(s, q, ReplayAt(recs, q))
    requires forall f :: f in files ==> files[f].synced
    requires Reopened(s, recs, files).dir.Survives(files')
    ensures var s1 := Reopened(s, recs, files);
      VerifiedAt(LoggedAt(s1, p), Get(files', p)) == Get(s1.objs, p)
  {
    var s1 := Reopened(s, recs, files);
    ReopenedFresh(s, recs, files, p);
    EntryAfterOpening(s, recs, files, files', p);
    SecondLook(s, s1, ReplayAt(recs, p), files, files', p);
  }

  lemma ReadBack(l: Log, k: nat, files: map<Path, File>, p: Path)
    requires l.MayKeep(k)
    ensures Get(Verified(Replay(l.All()[..k]), files), p) == VerifiedAt(l.CutAt(k, p), Get(files, p))
  {
    ReplayPointwise(l.All()[..k], p);
  }

  lemma SameEverywhere(a: Index, b: Index)
    requires forall p :: Get(a, p) == Get(b, p)
    ensures a == b
  {
    assert forall p :: p in a <==> Get(a, p).Some?;
    assert forall p :: p in b <==> Get(b, p).Some?;
    assert forall p :: p in a ==> Get(a, p) == Some(a[p]);
  }

  lemma RecoveringTwiceFrom(s: Gateway, recs: seq<Record>, files: map<Path, File>, k: nat, files': map<Path, File>)
    requires forall q {:trigger ReplayAt(recs, q)} :: EntryOk(s, q, ReplayAt(recs, q))
    requires forall p :: p in files ==> files[p].synced
    requires Enabled(Reopened(s, recs, files), Restart(k, files'))
    ensures Step(Reopened(s, recs, files), Restart(k, files')).objs == Reopened(s, recs, files).objs
  {
    var s1 := Reopened(s, recs, files);
    var twice := Verified(Replay(s1.log.All()[..k]), files');
    WholeLogLeft(s, recs, files, k);
    forall p ensures Get(twice, p) == Get(s1.objs, p) {
      ReadBack(s1.log, k, files', p);
      RecoveringTwiceAt(s, recs, files, files', p);
    }
    SameEverywhere(twice, s1.objs);
  }

  /** All of the log a process starts from is synced. */
  lemma WholeLogLeft(s: Gateway, recs: seq<Record>, files: map<Path, File>, k: nat)
    requires Reopened(s, recs, files).log.MayKeep(k)
    ensures k == |Reopened(s, recs, files).log.All()|
  {
  }

  lemma CrashLeavesInOrder(s: Gateway, k: nat, files: map<Path, File>)
    requires Inv(s) && Enabled(s, Restart(k, files))
    ensures forall q {:trigger ReplayAt(s.log.All()[..k], q)} :: EntryOk(s, q, ReplayAt(s.log.All()[..k], q))
    ensures forall p :: p in files ==> files[p].synced
  {
    forall q ensures EntryOk(s, q, ReplayAt(s.log.All()[..k], q)) {
      assert PathOk(s, q) && s.log.CutAt(k, q) == ReplayAt(s.log.All()[..k], q);
    }
    forall p | p in files ensures files[p].synced {
      SurvivorsSynced(s.dir, files, p);
    }
  }

  /** A crash of any state, and another one right after the recovery: the second recovery gives the index of the first. */
  lemma RecoveringTwice(s0: Gateway, es: seq<Event>, s: Gateway, k: nat, files: map<Path, File>, k': nat, files': map<Path, File>)
    requires LeadsTo(s0, es, s) && Enabled(s, Restart(k, files))
    requires Enabled(Step(s, Restart(k, files)), Restart(k', files'))
    ensures Step(Step(s, Restart(k, files)), Restart(k', files')).objs == Step(s, Restart(k, files)).objs
  {
    ReachableInv(s0, es, s);
    CrashLeavesInOrder(s, k, files);
    RecoveringTwiceFrom(s, s.log.All()[..k], files, k', files');
  }

  lemma OpenedTwice(s1: Gateway, blank: Gateway, recs: seq<Record>, before: map<Path, File>, k: nat, files: map<Path, File>)
    requires OpenedOn(s1, blank, recs, before) && Enabled(s1, Restart(k, files))
    ensures Step(s1, Restart(k, files)).objs == s1.objs
  {
    forall q ensures EntryOk(blank, q, ReplayAt(recs, q)) { PlausibleEntry(blank, recs, q); }
    RecoveringTwiceFrom(blank, recs, before, k, files);
  }

  /** And so does a crash right after a directory was first opened. */
  lemma OpeningsAreStable(s1: Gateway, k: nat, files: map<Path, File>)
    requires Opened(s1) && Enabled(s1, Restart(k, files))
    ensures Step(s1, Restart(k, files)).objs == s1.objs
  {
    var clock, maxDirty, recs, before :| OpenedOn(s1, Blank(clock, maxDirty, CleanVersions(recs)), recs, before);
    OpenedTwice(s1, Blank(clock, maxDirty, CleanVersions(recs)), recs, before, k, files);
  }
}
