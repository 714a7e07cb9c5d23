// The dirty allowance: how much unsent data overlapping writers can add up to.
module GatewayAllowance {
  import opened Prelude
  import opened Objects
  import opened Gateway
  import opened GatewayInvariant
  import opened GatewaySteps
  import opened GatewayRuns

  /** Unsent bytes of every path but one. */
  ghost function Elsewhere(s: Gateway, p: Path): nat {
    Total(s.objs - {p}, true)
  }

  /** A dirty writer's limit still fits, but for what other dirty commits have added since it opened. */
  ghost predicate Budgeted(s: Gateway, w: Writer) {
    w.dirty ==>
      && |w.bytes| <= w.limit
      && w.base <= s.hist.landed
      && Elsewhere(s, w.path) + w.limit <= s.maxDirty + (s.hist.landed - w.base)
  }

  /** Every writer there is, open or being committed, keeps within its budget. */
  ghost predicate AllBudgeted(s: Gateway, s': Gateway) {
    && (forall w :: w in s'.writers ==> Budgeted(s, s'.writers[w]))
    && (forall p :: p in s'.ops && s'.ops[p].Commit? ==> Budgeted(s, s'.ops[p].w))
  }

  ghost predicate AllowanceInv(s: Gateway) {
    AllBudgeted(s, s)
  }

  // ------------------------------------------------------------ how the total moves

  lemma ReplacingAddsAtMost(objs: Index, q: Path, o: Object, p: Path)
    ensures Total(objs[q := o] - {p}, true)
         <= Total(objs - {p}, true) + Weight(o, true)
    ensures q in objs && Weight(o, true) <= Weight(objs[q], true)
         ==> Total(objs[q := o] - {p}, true) <= Total(objs - {p}, true)
  {
    if p == q {
      assert objs[q := o] - {p} == objs - {p};
    } else {
      assert objs[q := o] - {p} == (objs - {p})[q := o];
      TotalPut(objs - {p}, q, o, true);
      TotalDrop(objs - {p}, q, true);
    }
  }

  lemma DroppingAddsNothing(objs: Index, q: Path, p: Path)
    ensures Total(objs - {q} - {p}, true) <= Total(objs - {p}, true)
  {
    assert objs - {q} - {p} == objs - {p} - {q};
    TotalDrop(objs - {p}, q, true);
  }

  lemma CommitsElsewhereLeaveIndex(s: Gateway, e: Event)
    requires Enabled(s, e) && IsCommit(e) && !e.CommitLand?
    ensures CommitStep(s, e).objs == s.objs && CommitStep(s, e).hist.landed == s.hist.landed
  {
  }

  lemma DropsElsewhereLeaveIndex(s: Gateway, e: Event)
    requires Enabled(s, e) && IsDrop(e)
    ensures DropStep(s, e).hist.landed == s.hist.landed && (!e.DropIndex? ==> DropStep(s, e).objs == s.objs)
  {
  }

  lemma FlushesElsewhereLeaveIndex(s: Gateway, e: Event)
    requires Enabled(s, e) && IsFlush(e)
    ensures FlushStep(s, e).hist.landed == s.hist.landed
    ensures (e.StateApply? ==> e.path !in s.objs) ==> FlushStep(s, e).objs == s.objs
  {
  }

  lemma LandedStep(s: Gateway, e: Event)
    requires Enabled(s, e) && !e.CommitLand?
    ensures Step(s, e).hist.landed == s.hist.landed
  {
    if IsCommit(e) {
      CommitsElsewhereLeaveIndex(s, e);
    } else if IsDrop(e) {
      DropsElsewhereLeaveIndex(s, e);
    } else if IsFlush(e) {
      FlushesElsewhereLeaveIndex(s, e);
    }
  }

  /** Only five events touch the index. */
  lemma IndexUntouched(s: Gateway, e: Event)
    requires Enabled(s, e) && !e.Restart? && !e.CommitLand? && !e.DropIndex? && !e.Access?
    requires e.StateApply? ==> e.path !in s.objs
    ensures Step(s, e).objs == s.objs
  {
    if IsCommit(e) {
      CommitsElsewhereLeaveIndex(s, e);
    } else if IsDrop(e) {
      DropsElsewhereLeaveIndex(s, e);
    } else if IsFlush(e) {
      FlushesElsewhereLeaveIndex(s, e);
    }
  }

  lemma ElsewhereGrowth(s: Gateway, e: Event, p: Path)
    requires Inv(s) && Enabled(s, e) && !e.Restart?
    ensures Elsewhere(Step(s, e), p) + s.hist.landed <= Elsewhere(s, p) + Step(s, e).hist.landed
  {
    if e.CommitLand? {
      ReplacingAddsAtMost(s.objs, e.path, s.ops[e.path].obj, p);
    } else if e.DropIndex? {
      DroppingAddsNothing(s.objs, e.path, p);
    } else if e.Access? {
      ReplacingAddsAtMost(s.objs, e.path, s.objs[e.path].(lastAccess := e.at), p);
    } else if e.StateApply? && e.path in s.objs {
      assert PathOk(s, e.path);
      ReplacingAddsAtMost(s.objs, e.path, Changed(Some(s.objs[e.path]), s.flights[e.path]).value, p);
    } else {
      IndexUntouched(s, e);
      LandedStep(s, e);
    }
  }

  // ------------------------------------------------------------ the invariant

  lemma BudgetKept(s: Gateway, e: Event, w: Writer)
    requires Inv(s) && Enabled(s, e) && !e.Restart? && Budgeted(s, w)
    ensures Budgeted(Step(s, e), w)
  {
    ElsewhereGrowth(s, e, w.path);
    assert Step(s, e).maxDirty == s.maxDirty;
    assert s.hist.landed <= Step(s, e).hist.landed;
  }

  lemma OpenWriterBudgeted(s: Gateway, w: nat, p: Path, expected: nat, dirty: bool)
    requires Enabled(s, OpenWriter(w, p, expected, dirty))
    ensures Budgeted(s, Step(s, OpenWriter(w, p, expected, dirty)).writers[w])
  {
    TotalDrop(s.objs, p, true);
  }

  /** Every writer in the state after an event was in the state before, or is new and within budget. */
  lemma CommitsKeepBudgets(s: Gateway, e: Event)
    requires Enabled(s, e) && IsCommit(e) && AllBudgeted(s, s)
    ensures AllBudgeted(s, CommitStep(s, e))
  {
  }

  lemma DropsKeepBudgets(s: Gateway, e: Event)
    requires Enabled(s, e) && IsDrop(e) && AllBudgeted(s, s)
    ensures AllBudgeted(s, DropStep(s, e))
  {
  }

  lemma FlushesKeepBudgets(s: Gateway, e: Event)
    requires Enabled(s, e) && IsFlush(e) && AllBudgeted(s, s)
    ensures AllBudgeted(s, FlushStep(s, e))
  {
  }

  lemma WritingKeepsBudgets(s: Gateway, e: Event)
    requires Enabled(s, e) && (e.WriteBytes? || e.AbortWriter?) && AllBudgeted(s, s)
    ensures AllBudgeted(s, Step(s, e))
  {
  }

  lemma OpeningKeepsBudgets(s: Gateway, e: Event)
    requires Enabled(s, e) && e.OpenWriter? && AllBudgeted(s, s)
    ensures AllBudgeted(s, Step(s, e))
  {
    OpenWriterBudgeted(s, e.w, e.path, e.expected, e.dirty);
  }

  lemma WritersComeFrom(s: Gateway, e: Event)
    requires Inv(s) && Enabled(s, e) && !e.Restart? && AllowanceInv(s)
    ensures AllBudgeted(s, Step(s, e))
  {
    if e.OpenWriter? {
      OpeningKeepsBudgets(s, e);
    } else if e.WriteBytes? || e.AbortWriter? {
      WritingKeepsBudgets(s, e);
    } else if IsCommit(e) {
      CommitsKeepBudgets(s, e);
      assert Step(s, e) == CommitStep(s, e);
    } else if IsDrop(e) {
      DropsKeepBudgets(s, e);
      assert Step(s, e) == DropStep(s, e);
    } else if IsFlush(e) {
      FlushesKeepBudgets(s, e);
      assert Step(s, e) == FlushStep(s, e);
    }
  }

  lemma AllowanceStep(s: Gateway, e: Event)
    requires Inv(s) && Enabled(s, e) && AllowanceInv(s)
    ensures AllowanceInv(Step(s, e))
  {
    if !e.Restart? {
      WritersComeFrom(s, e);
      var s' := Step(s, e);
      forall w | w in s'.writers ensures Budgeted(s', s'.writers[w]) {
        BudgetKept(s, e, s'.writers[w]);
      }
      forall p | p in s'.ops && s'.ops[p].Commit? ensures Budgeted(s', s'.ops[p].w) {
        BudgetKept(s, e, s'.ops[p].w);
      }
    }
  }

  lemma {:induction false} AllowanceRun(s: Gateway, es: seq<Event>)
    requires Inv(s) && AllowanceInv(s) && IsRun(s, es)
    ensures AllowanceInv(Exec(s, es))
    decreases |es|
  {
    if es != [] {
      AllowanceStep(s, es[0]);
      StepKeepsInv(s, es[0]);
      AllowanceRun(Step(s, es[0]), es[1..]);
    }
  }

  // ------------------------------------------------------------ the allowance

  lemma LandingWithinBudget(s: Gateway, p: Path)
    requires Inv(s) && AllowanceInv(s) && Enabled(s, CommitLand(p)) && s.ops[p].w.dirty
    ensures Total(Step(s, CommitLand(p)).objs, true) <= s.maxDirty + (s.hist.landed - s.ops[p].w.base)
  {
    assert PathOk(s, p);
    TotalPut(s.objs, p, s.ops[p].obj, true);
    assert Budgeted(s, s.ops[p].w);
  }

  /** If a dirty commit lands now, the unsent bytes stay within the allowance and what others added meanwhile. */
  ghost predicate LandsWithin(s: Gateway, p: Path) {
    Enabled(s, CommitLand(p)) && s.ops[p].w.dirty ==>
      Total(Step(s, CommitLand(p)).objs, true) <= s.maxDirty + (s.hist.landed - s.ops[p].w.base)
  }

  /**
   * When a dirty commit lands, the unsent bytes are at most the allowance plus what
   * other dirty commits added since this writer was opened.
   */
  lemma DirtyAllowance(s0: Gateway, es: seq<Event>, s: Gateway, p: Path)
    requires LeadsTo(s0, es, s)
    ensures LandsWithin(s, p)
  {
    ReachableInv(s0, es, s);
    OpenedInv(s0);
    AllowanceRun(s0, es);
    LandsWithinNow(s, p);
  }

  lemma LandsWithinNow(s: Gateway, p: Path)
    requires Inv(s) && AllowanceInv(s)
    ensures LandsWithin(s, p)
  {
    if Enabled(s, CommitLand(p)) && s.ops[p].w.dirty {
      LandingWithinBudget(s, p);
    }
  }

  // ------------------------------------------------------------ one dirty writer at a time

  predicate DirtyOp(s: Gateway, p: Path) {
    p in s.ops && s.ops[p].Commit? && s.ops[p].w.dirty
  }

  predicate DirtyWriter(s: Gateway, w: nat) {
    w in s.writers && s.writers[w].dirty
  }

  /** At most one dirty write is open, from its first byte to its landing. */
  ghost predicate OneDirty(s: Gateway) {
    && (forall v, w :: DirtyWriter(s, v) && DirtyWriter(s, w) ==> v == w)
    && (forall p, q :: DirtyOp(s, p) && DirtyOp(s, q) ==> p == q)
    && (forall w, p :: !(DirtyWriter(s, w) && DirtyOp(s, p)))
  }

  ghost predicate OneDirtyThroughout(s: Gateway, es: seq<Event>)
    requires IsRun(s, es)
    decreases |es|
  {
    OneDirty(s) && (es == [] || (!es[0].Restart? && OneDirtyThroughout(Step(s, es[0]), es[1..])))
  }

  /** No dirty commit has landed since a dirty writer now open was opened. */
  ghost predicate Undisturbed(s: Gateway) {
    && (forall w :: DirtyWriter(s, w) ==> s.writers[w].base == s.hist.landed)
    && (forall p :: DirtyOp(s, p) ==> s.ops[p].w.base == s.hist.landed)
  }

  lemma TotalStep(s: Gateway, e: Event)
    requires Inv(s) && Enabled(s, e) && !e.Restart? && !e.CommitLand?
    ensures Total(Step(s, e).objs, true) <= Total(s.objs, true)
  {
    if e.DropIndex? {
      TotalDrop(s.objs, e.path, true);
    } else if e.Access? {
      TotalPut(s.objs, e.path, s.objs[e.path].(lastAccess := e.at), true);
      TotalDrop(s.objs, e.path, true);
    } else if e.StateApply? {
      ApplyingAddsNothing(s, e.path);
    } else {
      IndexUntouched(s, e);
    }
  }

  lemma ApplyingAddsNothing(s: Gateway, p: Path)
    requires Inv(s) && Enabled(s, StateApply(p))
    ensures Total(Step(s, StateApply(p)).objs, true) <= Total(s.objs, true)
  {
    assert PathOk(s, p);
    if p in s.objs {
      TotalPut(s.objs, p, Changed(Some(s.objs[p]), s.flights[p]).value, true);
      TotalDrop(s.objs, p, true);
    }
  }

  /** A dirty write after an event was open before it, or has just been opened or begun. */
  ghost predicate DirtyOnlyFrom(s: Gateway, e: Event, s': Gateway) {
    && (forall p :: DirtyOp(s', p) ==>
      || (DirtyOp(s, p) && s'.ops[p].w == s.ops[p].w)
      || (e.CommitBegin? && DirtyWriter(s, e.w) && s'.ops[p].w == s.writers[e.w]))
    && (forall w :: DirtyWriter(s', w) ==>
      || (DirtyWriter(s, w) && s'.writers[w].base == s.writers[w].base)
      || (e.OpenWriter? && s'.writers[w].base == s.hist.landed))
  }

  lemma DirtyFromCommit(s: Gateway, e: Event)
    requires Enabled(s, e) && IsCommit(e)
    ensures DirtyOnlyFrom(s, e, CommitStep(s, e))
  {
  }

  lemma DirtyFromDrop(s: Gateway, e: Event)
    requires Enabled(s, e) && IsDrop(e)
    ensures DirtyOnlyFrom(s, e, DropStep(s, e))
  {
  }

  lemma DirtyFromFlush(s: Gateway, e: Event)
    requires Enabled(s, e) && IsFlush(e)
    ensures DirtyOnlyFrom(s, e, FlushStep(s, e))
  {
  }

  lemma DirtyComesFrom(s: Gateway, e: Event)
    requires Enabled(s, e) && !e.Restart?
    ensures DirtyOnlyFrom(s, e, Step(s, e))
  {
    if IsCommit(e) {
      DirtyFromCommit(s, e);
      assert Step(s, e) == CommitStep(s, e);
    } else if IsDrop(e) {
      DirtyFromDrop(s, e);
      assert Step(s, e) == DropStep(s, e);
    } else if IsFlush(e) {
      DirtyFromFlush(s, e);
      assert Step(s, e) == FlushStep(s, e);
    }
  }

  lemma UndisturbedStep(s: Gateway, e: Event)
    requires Inv(s) && Enabled(s, e) && !e.Restart? && OneDirty(s) && Undisturbed(s)
    ensures Undisturbed(Step(s, e))
  {
    DirtyComesFrom(s, e);
    if e.CommitLand? {
      assert PathOk(s, e.path);
      assert s.ops[e.path].w.dirty ==> DirtyOp(s, e.path);
    } else {
      LandedStep(s, e);
    }
  }

  lemma {:induction false} OneDirtyRun(s: Gateway, es: seq<Event>)
    requires Inv(s) && AllowanceInv(s) && Undisturbed(s) && IsRun(s, es) && OneDirtyThroughout(s, es)
    requires Total(s.objs, true) <= s.maxDirty
    ensures Total(Exec(s, es).objs, true) <= s.maxDirty
    decreases |es|
  {
    if es != [] {
      var e := es[0];
      if e.CommitLand? {
        LandingKeepsAllowance(s, e.path);
      } else {
        TotalStep(s, e);
      }
      assert Step(s, e).maxDirty == s.maxDirty;
      UndisturbedStep(s, e);
      AllowanceStep(s, e);
      StepKeepsInv(s, e);
      OneDirtyRun(Step(s, e), es[1..]);
    }
  }

  lemma LandingKeepsAllowance(s: Gateway, p: Path)
    requires Inv(s) && AllowanceInv(s) && Undisturbed(s) && Enabled(s, CommitLand(p))
    requires Total(s.objs, true) <= s.maxDirty
    ensures Total(Step(s, CommitLand(p)).objs, true) <= s.maxDirty
  {
    assert PathOk(s, p);
    if s.ops[p].w.dirty {
      assert DirtyOp(s, p);
      LandingWithinBudget(s, p);
    } else {
      TotalPut(s.objs, p, s.ops[p].obj, true);
      TotalDrop(s.objs, p, true);
    }
  }

  /**
   * With one dirty write open at a time, and a start within the allowance, unsent
   * bytes never pass it, whatever is flushed, replaced or removed meanwhile.
   */
  lemma OneWriterStaysWithin(s0: Gateway, es: seq<Event>, s: Gateway)
    requires LeadsTo(s0, es, s) && OneDirtyThroughout(s0, es)
    requires Total(s0.objs, true) <= s0.maxDirty
    ensures Total(s.objs, true) <= s0.maxDirty
  {
    OpenedInv(s0);
    OneDirtyRun(s0, es);
  }
}
