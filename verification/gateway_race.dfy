// What the step system excludes and the code does not. Eviction, refresh and clearing pick
// an object under the lock and forget it later, without a claim on its path: whatever is
// there by then goes. Here the pick is not an event; the run goes on after it. First, when
// the entry a removal takes is unsent data; then removals that take it at concrete inputs.
module GatewayRace {
  import opened Prelude
  import opened Objects
  import opened Journal
  import opened Disk
  import opened Gateway
  import opened GatewayInvariant
  import opened GatewaySteps
  import opened GatewayRuns
  import opened GatewayTheorems
  import opened GatewayRemoval

  /** A commit lands version `v` of a path as dirty. */
  ghost predicate LandsDirty(s: Gateway, e: Event, p: Path, v: nat) {
    e == CommitLand(p) && p in s.ops && s.ops[p].Commit? && s.ops[p].obj.storedAt == v && s.ops[p].obj.state.Dirty?
  }

  /** Nothing that ends a version's life as unsent data happens. */
  ghost predicate NeverEnds(s: Gateway, es: seq<Event>, p: Path, v: nat)
    requires IsRun(s, es)
    decreases |es|
  {
    es == [] || (!EndsUnsent(s, es[0], p, v) && NeverEnds(Step(s, es[0]), es[1..], p, v))
  }

  /** A dirty commit of version `v` lands in the run, and nothing ends it from then on. */
  ghost predicate LandedAndLeft(s: Gateway, es: seq<Event>, p: Path, v: nat)
    requires IsRun(s, es)
    decreases |es|
  {
    es != [] && ((LandsDirty(s, es[0], p, v) && NeverEnds(Step(s, es[0]), es[1..], p, v))
                 || LandedAndLeft(Step(s, es[0]), es[1..], p, v))
  }

  // ------------------------------------------------------------ when a removal finds unsent data

  lemma LandingHolds(s: Gateway, e: Event, p: Path, v: nat)
    requires Enabled(s, e) && LandsDirty(s, e, p, v)
    ensures HoldsUnsent(Step(s, e), p, v)
  {
  }

  /** Outside a crash, only a dirty commit makes a version unsent. */
  lemma UnsentComesFromLanding(s: Gateway, e: Event, p: Path, v: nat)
    requires Inv(s) && Enabled(s, e) && !e.Restart?
    requires !HoldsUnsent(s, p, v) && HoldsUnsent(Step(s, e), p, v)
    ensures LandsDirty(s, e, p, v)
  {
    assert PathOk(s, p);
    if Subject(e) != Some(p) {
      OthersQuiet(s, e, p);
    } else if IsCommit(e) {
      CommitGains(s, e, p, v);
    } else if IsFlush(e) {
      FlushGainsNothing(s, e, p, v);
    }
  }

  lemma CommitGains(s: Gateway, e: Event, p: Path, v: nat)
    requires Inv(s) && Enabled(s, e) && IsCommit(e) && Subject(e) == Some(p)
    requires !HoldsUnsent(s, p, v) && HoldsUnsent(CommitStep(s, e), p, v)
    ensures LandsDirty(s, e, p, v)
  {
    assert PathOk(s, p);
  }

  lemma FlushGainsNothing(s: Gateway, e: Event, p: Path, v: nat)
    requires Inv(s) && Enabled(s, e) && IsFlush(e) && Subject(e) == Some(p)
    ensures HoldsUnsent(FlushStep(s, e), p, v) ==> HoldsUnsent(s, p, v)
  {
    assert PathOk(s, p);
  }

  /** What ends a version does end it. */
  lemma EndingEnds(s: Gateway, e: Event, p: Path, v: nat)
    requires Inv(s) && Enabled(s, e) && !e.Restart? && HoldsUnsent(s, p, v) && EndsUnsent(s, e, p, v)
    ensures !HoldsUnsent(Step(s, e), p, v)
  {
    assert PathOk(s, p);
  }

  lemma {:induction false} HeldExactly(s: Gateway, es: seq<Event>, p: Path, v: nat)
    requires Inv(s) && IsRun(s, es) && forall e :: e in es ==> !e.Restart?
    ensures HoldsUnsent(Exec(s, es), p, v)
       <==> (HoldsUnsent(s, p, v) && NeverEnds(s, es, p, v)) || LandedAndLeft(s, es, p, v)
    decreases |es|
  {
    if es != [] {
      var e, rest := es[0], es[1..];
      StepKeepsInv(s, e);
      HeldExactly(Step(s, e), rest, p, v);
      if HoldsUnsent(s, p, v) {
        if EndsUnsent(s, e, p, v) {
          EndingEnds(s, e, p, v);
        } else {
          UnsentStep(s, e, p, v);
        }
      } else if HoldsUnsent(Step(s, e), p, v) {
        UnsentComesFromLanding(s, e, p, v);
      }
      if LandsDirty(s, e, p, v) {
        LandingHolds(s, e, p, v);
      }
    }
  }

  /**
   * A path picked for eviction, refresh or clearing, whose entry is taken after a run with no
   * claim on it: that entry is of unsent data exactly when a dirty commit has landed on the
   * path in between and nothing has ended that version since. Of the file and the record,
   * which the removal takes later still, `RecoveredExactly` speaks.
   */
  lemma EntryTakesUnsentExactly(s0: Gateway, es: seq<Event>, s1: Gateway, p: Path, cause: Cause)
    requires Inv(s0) && MayPick(s0, p, cause) && cause in {Evicted, Refreshed, Cleared}
    requires RunsTo(s0, es, s1) && forall e :: e in es ==> !e.Restart?
    ensures p in s1.objs && s1.objs[p].state.Unsent() <==> exists v: nat :: LandedAndLeft(s0, es, p, v)
  {
    if p in s1.objs && s1.objs[p].state.Unsent() {
      HeldExactly(s0, es, p, s1.objs[p].storedAt);
      assert LandedAndLeft(s0, es, p, s1.objs[p].storedAt);
    }
    if exists v: nat :: LandedAndLeft(s0, es, p, v) {
      var v: nat :| LandedAndLeft(s0, es, p, v);
      HeldExactly(s0, es, p, v);
    }
  }

  // ------------------------------------------------------------ what the removal does

  /** What is left once all of a removal is through, with no one else about. */
  ghost function Struck(s: Gateway, p: Path, at: nat): Gateway {
    Acted(Acted(Acted(Acted(s, ForgetEntry(p)), ForgetFile(p)), ForgetRecord(p, at)), ForgetSync)
  }

  /** What is forgotten is gone for this process and for every one after it. */
  lemma StruckIsGone(s: Gateway, p: Path, at: nat)
    requires p != ""
    ensures var t := Struck(s, p, at);
      && p !in t.objs && p !in t.dir.live
      && forall k | t.log.MayKeep(k) :: t.log.CutAt(k, p) == None
  {
    var all := s.log.All() + [DropRecord(p, at)];
    assert Struck(s, p, at).log.All() == all;
    ReplayAtAppend(s.log.All(), DropRecord(p, at), p);
    assert all[..|all|] == all;
  }

  // ------------------------------------------------------------ the race happens

  /** A commit that goes through, with no one else about. */
  lemma CommitGoesThrough(s: Gateway, w: nat, o: Object) returns (t: Gateway)
    requires Enabled(s, CommitBegin(w, o))
    ensures RunsTo(s, Committing(w, o), t)
    ensures t.objs == s.objs[o.remotePath := o]
    ensures Get(t.hist.acked, o.remotePath) == Some(Ack(o, s.writers[w].bytes))
  {
    var p := o.remotePath;
    var s1 := Step(s, CommitBegin(w, o));
    t := CommitFromOpen(s1, p);
    RunFront(s, CommitBegin(w, o), [CommitSync(p)] + ([CommitRename(p)] + FromRename(p)), t);
    assert Committing(w, o) == [CommitBegin(w, o)] + ([CommitSync(p)] + ([CommitRename(p)] + FromRename(p)));
  }

  lemma CommitFromOpen(s: Gateway, p: Path) returns (t: Gateway)
    requires AtCommit(s, p, TmpOpen)
    ensures RunsTo(s, [CommitSync(p)] + ([CommitRename(p)] + FromRename(p)), t)
    ensures t.objs == s.objs[p := s.ops[p].obj]
    ensures Get(t.hist.acked, p) == Some(Ack(s.ops[p].obj, s.ops[p].w.bytes))
  {
    var s2 := Step(s, CommitSync(p));
    t := CommitRestGoesThrough(Step(s2, CommitRename(p)), p);
    RunFront(s2, CommitRename(p), FromRename(p), t);
    RunFront(s, CommitSync(p), [CommitRename(p)] + FromRename(p), t);
  }

  function FromRename(p: Path): seq<Event> {
    [CommitDirSync(p), CommitRecord(p), CommitRecordSync(p), CommitLand(p)]
  }

  lemma CommitRestGoesThrough(s: Gateway, p: Path) returns (t: Gateway)
    requires AtCommit(s, p, Renamed)
    ensures RunsTo(s, FromRename(p), t)
    ensures t.objs == s.objs[p := s.ops[p].obj]
    ensures Get(t.hist.acked, p) == Some(Ack(s.ops[p].obj, s.ops[p].w.bytes))
  {
    var s4 := Step(s, CommitDirSync(p));
    t := LastTwoSteps(Step(s4, CommitRecord(p)), p);
    var end := [CommitRecordSync(p)] + [CommitLand(p)];
    RunFront(s4, CommitRecord(p), end, t);
    RunFront(s, CommitDirSync(p), [CommitRecord(p)] + end, t);
    assert FromRename(p) == [CommitDirSync(p)] + ([CommitRecord(p)] + end);
  }

  lemma LastTwoSteps(s: Gateway, p: Path) returns (t: Gateway)
    requires AtCommit(s, p, Recorded)
    ensures RunsTo(s, [CommitRecordSync(p)] + [CommitLand(p)], t)
    ensures t.objs == s.objs[p := s.ops[p].obj]
    ensures Get(t.hist.acked, p) == Some(Ack(s.ops[p].obj, s.ops[p].w.bytes))
  {
    var s1 := Step(s, CommitRecordSync(p));
    t := Step(s1, CommitLand(p));
    RunFront(s1, CommitLand(p), [], t);
    RunFront(s, CommitRecordSync(p), [CommitLand(p)], t);
  }

  /**
   * Whenever a dirty write of a picked path is open, it may commit before the removal: the
   * cache has then acknowledged a version that the removal takes for good.
   */
  lemma RaceIsOpen(s: Gateway, w: nat, o: Object, at: nat) returns (t: Gateway)
    requires Enabled(s, CommitBegin(w, o)) && s.writers[w].dirty
    ensures RunsTo(s, Committing(w, o), t) && HoldsUnsent(t, o.remotePath, o.storedAt)
    ensures Get(t.hist.acked, o.remotePath) == Some(Ack(o, s.writers[w].bytes))
    ensures o.remotePath != "" ==> forall k | Struck(t, o.remotePath, at).log.MayKeep(k) ::
              Struck(t, o.remotePath, at).log.CutAt(k, o.remotePath) == None
  {
    t := CommitGoesThrough(s, w, o);
    if o.remotePath != "" {
      StruckIsGone(t, o.remotePath, at);
    }
  }

  const CACHED: Object := Object("/a", 0, "", Clean, "", "a", "", 1, 1, 0, "")
  const REWRITTEN: Object := Object("/a", 0, "", Dirty, "", "a", "", 2, 2, 0, "")

  /** A process that has just opened a cache of one clean, empty file. */
  ghost function OneCleanFile(): Gateway {
    Reopened(Blank(map["/a" := 1], 1, CleanVersions([PutRecord(CACHED)])), [PutRecord(CACHED)], map["/a" := File([], true)])
  }

  lemma OneCleanFileOpens()
    ensures Opened(OneCleanFile()) && OneCleanFile().objs == map["/a" := CACHED]
    ensures OneCleanFile().ops == map[] && OneCleanFile().writers == map[]
    ensures OneCleanFile().clock == map["/a" := 1] && OneCleanFile().maxDirty == 1
  {
    var recs := [PutRecord(CACHED)];
    var files := map["/a" := File([], true)];
    assert ApplyRecord(map[], recs[0]) == map["/a" := CACHED];
    assert recs[1..] == [] && ApplyAll(map["/a" := CACHED], []) == map["/a" := CACHED];
    forall p ensures ReplayAt(recs, p) == Get(Replay(recs), p) { ReplayPointwise(recs, p); }
    assert Verified(Replay(recs), files) == map["/a" := CACHED];
    assert OpenedOn(OneCleanFile(), Blank(map["/a" := 1], 1, CleanVersions(recs)), recs, files);
  }

  lemma OneCleanFileRewritten(s0: Gateway) returns (t: Gateway)
    requires s0.objs == map["/a" := CACHED] && s0.ops == map[] && s0.writers == map[]
    requires s0.clock == map["/a" := 1] && s0.maxDirty == 1
    ensures Enabled(s0, OpenWriter(0, "/a", 0, true)) && t == Step(s0, OpenWriter(0, "/a", 0, true))
    ensures Enabled(t, CommitBegin(0, REWRITTEN)) && t.writers[0].dirty
  {
    TotalNoneUnsent(s0.objs);
    assert Room(s0, "/a") == 1;
    t := Step(s0, OpenWriter(0, "/a", 0, true));
  }

  lemma RewrittenThere(s0: Gateway) returns (es: seq<Event>, s1: Gateway)
    requires s0.objs == map["/a" := CACHED] && s0.ops == map[] && s0.writers == map[]
    requires s0.clock == map["/a" := 1] && s0.maxDirty == 1
    ensures RunsTo(s0, es, s1) && forall e :: e in es ==> !e.Restart?
    ensures HoldsUnsent(s1, "/a", 2) && "/a" in s1.hist.acked && s1.hist.acked["/a"].obj == REWRITTEN
  {
    var t := OneCleanFileRewritten(s0);
    s1 := RaceIsOpen(t, 0, REWRITTEN, 3);
    es := [OpenWriter(0, "/a", 0, true)] + Committing(0, REWRITTEN);
    RunFront(s0, OpenWriter(0, "/a", 0, true), Committing(0, REWRITTEN), s1);
  }

  /** The race at a concrete input: picked clean, rewritten and acknowledged, then removed. */
  lemma RaceHappens() returns (s0: Gateway, es: seq<Event>, s1: Gateway)
    ensures Opened(s0) && MayPick(s0, "/a", Evicted)
    ensures RunsTo(s0, es, s1) && forall e :: e in es ==> !e.Restart?
    ensures HoldsUnsent(s1, "/a", 2) && "/a" in s1.hist.acked && s1.hist.acked["/a"].obj == REWRITTEN
  {
    OneCleanFileOpens();
    s0 := OneCleanFile();
    es, s1 := RewrittenThere(s0);
  }

  // ------------------------------------------------------------ a removal around a commit

  /** The rewriting of that file, synced and about to be renamed; the old one may still be picked. */
  lemma RewritingUnderWay(s0: Gateway) returns (es: seq<Event>, s: Gateway)
    requires s0.objs == map["/a" := CACHED] && s0.ops == map[] && s0.writers == map[]
    requires s0.clock == map["/a" := 1] && s0.maxDirty == 1
    ensures RunsTo(s0, es, s) && MayPick(s, "/a", Evicted)
    ensures AtCommit(s, "/a", TmpSynced) && s.ops["/a"].obj == REWRITTEN
  {
    var s1 := OneCleanFileRewritten(s0);
    var s2 := Step(s1, CommitBegin(0, REWRITTEN));
    s := Step(s2, CommitSync("/a"));
    RunFront(s2, CommitSync("/a"), [], s);
    RunFront(s1, CommitBegin(0, REWRITTEN), [CommitSync("/a")], s);
    RunFront(s0, OpenWriter(0, "/a", 0, true), [CommitBegin(0, REWRITTEN)] + [CommitSync("/a")], s);
    es := [OpenWriter(0, "/a", 0, true)] + ([CommitBegin(0, REWRITTEN)] + [CommitSync("/a")]);
  }

  /**
   * The removal split around the rename at a concrete input: nothing has landed when the
   * entry goes, yet the file that goes later is the new one.
   */
  lemma SplitHappens(c: Codec) returns (s0: Gateway, es: seq<Event>, s: Gateway, t: Gateway)
    requires Sound(c)
    ensures Opened(s0) && RunsTo(s0, es, s) && MayPick(s, "/a", Evicted) && AtCommit(s, "/a", TmpSynced)
    ensures VersionOf(s, "/a").obj == REWRITTEN && REWRITTEN.state.Unsent()
    ensures CanAll(s, FileLate("/a", 3)) && t == Outcome(s, FileLate("/a", 3))
    ensures Landed(t, "/a", VersionOf(s, "/a")) && "/a" !in t.dir.live && !ComesBack(c, t, VersionOf(s, "/a"))
  {
    OneCleanFileOpens();
    s0 := OneCleanFile();
    es, s := RewritingUnderWay(s0);
    ReachableInv(s0, es, s);
    FileLateLoses(c, s, "/a", 3);
    t := Outcome(s, FileLate("/a", 3));
  }
}
