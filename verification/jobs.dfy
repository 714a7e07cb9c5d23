// The life of one transfer job: the worker that runs it, any number of Cancel calls,
// and the store it is saved to. Every critical section and every save is one event.
module Jobs {
  import opened Prelude

  datatype State = Queued | Running | Succeeded | Failed | Cancelled {
    predicate Terminal() { Succeeded? || Failed? || Cancelled? }
    /** The outcomes a user is told of and a restart must not undo. */
    predicate Settled() { Succeeded? || Failed? }
  }

  /** The part of a job its lifecycle turns on; `record` is the upstream file id, if any. */
  datatype Job = Job(state: State, attempts: nat, record: string, error: Option<string>)

  /** How a transfer ends. `budget` is the classifier's own limit, 0 when it set none. */
  datatype TransferResult = Done | Interrupted | Refused(reason: string, temporary: bool, budget: nat)

  /** Where a worker goes once a save it has begun is through. */
  datatype Next = ToTransfer | ToSleep

  /**
   * Where the worker is in `run`. A save is two steps, the snapshot under the lock and the
   * write outside it, and so is the end of a job: saved first, then shown.
   */
  datatype Worker =
    | InQueue
    | Top
    | Persisting(next: Next)
    | Saving(snapshot: Job, next: Next)
    | Transferring
    | Returned(result: TransferResult)
    | Retrying(reason: string)
    | Sleeping
    | Reclaiming(outcome: State, error: Option<string>)
    | Finishing(outcome: State, error: Option<string>)
    | Recording(final: Job)
    | Showing(final: Job)
    | Gone

  /** A Cancel call that has cancelled a job no worker was transferring. */
  datatype Canceller = Marked | CancelSaving(snapshot: Job)

  /**
   * `limit` is the engine's attempt limit; `runs` counts the transfers begun since the
   * job was last taken from the queue, when it had `picked` attempts. `told` says a Cancel call
   * has told the latest transfer to stop, `intact` that no save has failed.
   */
  datatype Machine = Machine(
    mem: Job, store: Job, worker: Worker, cancellers: map<nat, Canceller>,
    limit: nat, picked: nat, runs: nat, told: bool, intact: bool)

  datatype Event =
    | PickUp
    | Snapshot
    | Save(ok: bool)
    | RecordCreated(id: string)
    | TransferReturns(result: TransferResult)
    | Decide
    | Requeue
    | Sleep(ok: bool)
    | ReclaimDone
    | FinishSnapshot
    | FinishSave(ok: bool)
    | Show
    | Cancel(t: nat)
    | CancelSnapshot(t: nat)
    | CancelSave(t: nat, ok: bool)
    | Restart(whole: bool, saves: bool)

  // ------------------------------------------------------------ one step

  /** The budget a failure leaves: the engine's, or the classifier's where that is smaller. */
  function MaxAttempts(limit: nat, budget: nat): (m: nat)
    ensures m <= limit && (budget > 0 ==> m <= budget)
    ensures m == limit || m == budget
  {
    if 0 < budget < limit then budget else limit
  }

  function Verdict(m: Machine, result: TransferResult): Worker {
    match result
    case Done => Finishing(Succeeded, None)
    case Interrupted => Reclaiming(Cancelled, None)
    case Refused(reason, temporary, budget) =>
      if m.mem.state.Cancelled? then Reclaiming(Cancelled, None)
      else if !temporary || m.mem.attempts >= MaxAttempts(m.limit, budget) then Reclaiming(Failed, Some(reason))
      else Retrying(reason)
  }

  /** From a pick-up until the transfer is back there is a cancel function to call. */
  predicate Stoppable(w: Worker) {
    w.Transferring? || ((w.Persisting? || w.Saving?) && w.next.ToTransfer?)
  }

  predicate Enabled(m: Machine, e: Event) {
    match e
    case PickUp => m.worker.InQueue? || m.worker.Top?
    case Snapshot => m.worker.Persisting?
    case Save(_) => m.worker.Saving?
    case RecordCreated(_) => m.worker.Transferring?
    case TransferReturns(_) => m.worker.Transferring?
    case Decide => m.worker.Returned?
    case Requeue => m.worker.Retrying?
    case Sleep(_) => m.worker.Sleeping?
    case ReclaimDone => m.worker.Reclaiming?
    case FinishSnapshot => m.worker.Finishing?
    case FinishSave(_) => m.worker.Recording?
    case Show => m.worker.Showing?
    case Cancel(t) => t !in m.cancellers
    case CancelSnapshot(t) => t in m.cancellers && m.cancellers[t].Marked?
    case CancelSave(t, _) => t in m.cancellers && m.cancellers[t].CancelSaving?
    case Restart(_, _) => true
  }

  function Stored(m: Machine, job: Job, ok: bool): Machine {
    if ok then m.(store := job) else m.(intact := false)
  }

  function Step(m: Machine, e: Event): Machine
    requires Enabled(m, e)
  {
    match e
    case PickUp =>
      if m.mem.state.Terminal() then m.(worker := Gone)
      else
        var picked := if m.worker.InQueue? then m.mem.attempts else m.picked;
        m.(mem := m.mem.(state := Running, attempts := m.mem.attempts + 1, error := None),
           worker := Persisting(ToTransfer),
           picked := picked, runs := if m.worker.InQueue? then 1 else m.runs + 1, told := false)
    case Snapshot => m.(worker := Saving(m.mem, m.worker.next))
    case Save(ok) =>
      Stored(m, m.worker.snapshot, ok).(worker := if m.worker.next.ToTransfer? then Transferring else Sleeping)
    case RecordCreated(id) => m.(mem := m.mem.(record := id), worker := Persisting(ToTransfer))
    case TransferReturns(result) =>
      m.(worker := Returned(result), mem := if result.Done? then m.mem.(record := "") else m.mem)
    case Decide => m.(worker := Verdict(m, m.worker.result))
    case Requeue =>
      m.(mem := m.mem.(state := Queued, error := Some(m.worker.reason)), worker := Persisting(ToSleep))
    case Sleep(ok) => m.(worker := if ok then Top else Reclaiming(Cancelled, None))
    case ReclaimDone => m.(mem := m.mem.(record := ""), worker := Finishing(m.worker.outcome, m.worker.error))
    case FinishSnapshot =>
      m.(worker := Recording(m.mem.(state := m.worker.outcome, error := m.worker.error)))
    case FinishSave(ok) => Stored(m, m.worker.final, ok).(worker := Showing(m.worker.final))
    case Show => m.(mem := m.worker.final, worker := Gone)
    case Cancel(t) =>
      if m.mem.state.Terminal() then m
      else
        var heard := m.(told := m.told || Stoppable(m.worker));
        if m.mem.state.Running? then heard
        else heard.(mem := m.mem.(state := Cancelled), cancellers := m.cancellers[t := Marked])
    case CancelSnapshot(t) => m.(cancellers := m.cancellers[t := CancelSaving(m.mem)])
    case CancelSave(t, ok) => Stored(m, m.cancellers[t].snapshot, ok).(cancellers := m.cancellers - {t})
    case Restart(whole, saves) => Recovered(m, whole, saves)
  }

  /**
   * The next process: a stored terminal state stands, an upload found whole has succeeded,
   * the rest is requeued. What changed is shown whether or not the save of it works.
   */
  function Recovered(m: Machine, whole: bool, saves: bool): Machine {
    var next := m.(cancellers := map[], told := false);
    if m.store.state.Terminal() then next.(mem := m.store, worker := Gone)
    else if m.store.record != "" && whole then
      var done := m.store.(state := Succeeded, error := None, record := "");
      Stored(next, done, saves).(mem := done, worker := Gone)
    else
      var again := m.store.(state := Queued, record := "");
      Stored(next, again, saves).(mem := again, worker := InQueue, runs := 0)
  }

  predicate Start(m: Machine) {
    m.mem == m.store && m.mem.state.Queued? && m.worker.InQueue? && m.cancellers == map[] && m.runs == 0 && !m.told && m.intact
  }

  predicate IsRun(m: Machine, es: seq<Event>)
    decreases |es|
  {
    es == [] || (Enabled(m, es[0]) && IsRun(Step(m, es[0]), es[1..]))
  }

  function Exec(m: Machine, es: seq<Event>): Machine
    requires IsRun(m, es)
    decreases |es|
  {
    if es == [] then m else Exec(Step(m, es[0]), es[1..])
  }

  // ------------------------------------------------------------ the invariant

  /** What the worker's position says about the state everyone sees. */
  predicate WorkerOk(m: Machine) {
    match m.worker
    case InQueue => m.mem.state.Queued? || m.mem.state.Cancelled?
    case Top => m.mem.state.Queued? || m.mem.state.Cancelled?
    case Persisting(next) => Between(m, next)
    case Saving(_, next) => Between(m, next)
    case Transferring => m.mem.state.Running?
    case Returned(_) => m.mem.state.Running?
    case Retrying(_) => m.mem.state.Running?
    case Sleeping => m.mem.state.Queued? || m.mem.state.Cancelled?
    case Reclaiming(outcome, _) => Ending(m, outcome)
    case Finishing(outcome, _) => Ending(m, outcome)
    case Recording(final) => Ending(m, final.state)
    case Showing(final) => Ending(m, final.state) && (m.intact && final.state.Settled() ==> m.store == final)
    case Gone => m.mem.state.Terminal()
  }

  predicate Between(m: Machine, next: Next) {
    if next.ToTransfer? then m.mem.state.Running? else m.mem.state.Queued? || m.mem.state.Cancelled?
  }

  predicate Ending(m: Machine, outcome: State) {
    && outcome.Terminal() && !m.mem.state.Settled()
    && (outcome.Settled() ==> m.mem.state.Running?)
  }

  /** A cancelled job is all a Cancel call can still save. */
  ghost predicate CancellersOk(m: Machine) {
    forall t :: t in m.cancellers ==>
      m.mem.state.Cancelled? && (m.cancellers[t].CancelSaving? ==> m.cancellers[t].snapshot.state.Cancelled?)
  }

  /** Transfers are counted by the attempts, and another is begun only below the limit. */
  predicate RunsOk(m: Machine) {
    if m.worker.InQueue? then m.runs == 0
    else
      && m.runs <= (if m.limit > m.picked then m.limit - m.picked else 1)
      && (!m.worker.Gone? ==> m.mem.attempts == m.picked + m.runs && Counted(m))
      && (m.worker.Retrying? || m.worker.Sleeping? || m.worker.Top? || Waits(m) ==> m.mem.attempts < m.limit)
  }

  predicate Waits(m: Machine) {
    (m.worker.Persisting? || m.worker.Saving?) && m.worker.next.ToSleep?
  }

  predicate Counted(m: Machine) {
    (m.worker.Recording? || m.worker.Showing? ==> m.worker.final.attempts == m.mem.attempts)
  }

  /** The outcome that is, or is about to be, seen by everyone. */
  function Shown(m: Machine): Option<State> {
    if m.worker.Gone? then Some(m.mem.state) else if m.worker.Showing? then Some(m.worker.final.state) else None
  }

  predicate StoreOk(m: Machine) {
    && (m.intact && m.mem.state.Settled() ==> m.store.state == m.mem.state && m.worker.Gone?)
    && (m.store.state.Settled() ==> Shown(m) == Some(m.store.state))
    && (m.worker.Saving? ==> !m.worker.snapshot.state.Settled())
  }

  ghost predicate Inv(m: Machine) {
    WorkerOk(m) && CancellersOk(m) && RunsOk(m) && StoreOk(m)
  }

  /** An event of the worker's own. */
  predicate OfWorker(e: Event) {
    !e.Cancel? && !e.CancelSnapshot? && !e.CancelSave? && !e.Restart?
  }

  lemma WorkerKeepsPosition(m: Machine, e: Event)
    requires Inv(m) && Enabled(m, e) && OfWorker(e)
    ensures WorkerOk(Step(m, e)) && CancellersOk(Step(m, e))
  {
  }

  lemma WorkerKeepsCounts(m: Machine, e: Event)
    requires Inv(m) && Enabled(m, e) && OfWorker(e)
    ensures RunsOk(Step(m, e))
  {
  }

  lemma WorkerKeepsStore(m: Machine, e: Event)
    requires Inv(m) && Enabled(m, e) && OfWorker(e)
    ensures StoreOk(Step(m, e))
  {
  }

  lemma CancelKeepsInv(m: Machine, e: Event)
    requires Inv(m) && Enabled(m, e) && (e.Cancel? || e.CancelSnapshot? || e.CancelSave?)
    ensures Inv(Step(m, e))
  {
  }

  lemma RestartKeepsInv(m: Machine, whole: bool, saves: bool)
    requires Inv(m)
    ensures Inv(Recovered(m, whole, saves))
  {
  }

  lemma StepKeepsInv(m: Machine, e: Event)
    requires Inv(m) && Enabled(m, e)
    ensures Inv(Step(m, e))
  {
    if e.Restart? {
      RestartKeepsInv(m, e.whole, e.saves);
    } else if OfWorker(e) {
      WorkerKeepsPosition(m, e);
      WorkerKeepsCounts(m, e);
      WorkerKeepsStore(m, e);
    } else {
      CancelKeepsInv(m, e);
    }
  }

  lemma {:induction false} RunKeepsInv(m: Machine, es: seq<Event>)
    requires Inv(m) && IsRun(m, es)
    ensures Inv(Exec(m, es))
    decreases |es|
  {
    if es != [] {
      StepKeepsInv(m, es[0]);
      RunKeepsInv(Step(m, es[0]), es[1..]);
    }
  }

  /** Every state a job can come to satisfies the invariant. */
  lemma ReachableInv(m: Machine, es: seq<Event>)
    requires Start(m) && IsRun(m, es)
    ensures Inv(Exec(m, es))
  {
    RunKeepsInv(m, es);
  }

  // ------------------------------------------------------------ the theorems

  /** While the process lives, a terminal state is never left. */
  lemma {:induction false} TerminalStays(m: Machine, es: seq<Event>)
    requires Inv(m) && m.mem.state.Terminal() && IsRun(m, es)
    requires forall e :: e in es ==> !e.Restart?
    ensures Exec(m, es).mem.state == m.mem.state
    decreases |es|
  {
    if es != [] {
      StepKeepsInv(m, es[0]);
      TerminalStays(Step(m, es[0]), es[1..]);
    }
  }

  /** A job seen succeeded or failed is already stored as that, if no save has failed. */
  lemma SeenIsStored(m: Machine, es: seq<Event>)
    requires Start(m) && IsRun(m, es)
    ensures Exec(m, es).intact && Exec(m, es).mem.state.Settled() ==> Exec(m, es).store.state == Exec(m, es).mem.state
  {
    ReachableInv(m, es);
  }

  /** And so it stays, through any number of restarts and whatever fails from then on. */
  lemma {:induction false} SettledForGood(m: Machine, es: seq<Event>)
    requires Inv(m) && m.intact && m.mem.state.Settled() && IsRun(m, es)
    ensures Exec(m, es).mem.state == m.mem.state && Exec(m, es).store.state == m.mem.state
    ensures !Exec(m, es).worker.InQueue?
    decreases |es|
  {
    if es != [] {
      assert m.cancellers == map[];
      StepKeepsInv(m, es[0]);
      SettledForGood(Step(m, es[0]), es[1..]);
    }
  }

  /** One pick-up makes at most max(1, limit - attempts at pick-up) transfers. */
  lemma TransfersBounded(m: Machine, es: seq<Event>)
    requires Start(m) && IsRun(m, es)
    ensures var end := Exec(m, es);
            !end.worker.InQueue? ==> end.runs <= (if end.limit > end.picked then end.limit - end.picked else 1)
  {
    ReachableInv(m, es);
  }

  /** What can make a job succeed. */
  predicate Succeeds(e: Event) {
    e == TransferReturns(Done) || (e.Restart? && e.whole)
  }

  /** On its way to success. */
  predicate Succeeding(m: Machine) {
    match m.worker
    case Returned(result) => result.Done?
    case Reclaiming(outcome, _) => outcome.Succeeded?
    case Finishing(outcome, _) => outcome.Succeeded?
    case Recording(final) => final.state.Succeeded?
    case Showing(final) => final.state.Succeeded?
    case _ => false
  }

  lemma NoSuccessStep(m: Machine, e: Event)
    requires Inv(m) && Enabled(m, e) && !Succeeds(e)
    requires !m.mem.state.Succeeded? && !m.store.state.Succeeded? && !Succeeding(m)
    ensures var n := Step(m, e); !n.mem.state.Succeeded? && !n.store.state.Succeeded? && !Succeeding(n)
  {
  }

  lemma {:induction false} NoSuccessFromNothing(m: Machine, es: seq<Event>)
    requires Inv(m) && IsRun(m, es) && !m.mem.state.Succeeded? && !m.store.state.Succeeded? && !Succeeding(m)
    requires forall e :: e in es ==> !Succeeds(e)
    ensures !Exec(m, es).mem.state.Succeeded? && !Exec(m, es).store.state.Succeeded?
    decreases |es|
  {
    if es != [] {
      StepKeepsInv(m, es[0]);
      assert es[0] in es;
      NoSuccessStep(m, es[0]);
      NoSuccessFromNothing(Step(m, es[0]), es[1..]);
    }
  }

  /** A job has succeeded only if a transfer of it did, or upstream showed the whole file after a restart. */
  lemma SucceededMeansDelivered(m: Machine, es: seq<Event>)
    requires Start(m) && IsRun(m, es) && Exec(m, es).mem.state.Succeeded?
    ensures exists e :: e in es && Succeeds(e)
  {
    if forall e :: e in es ==> !Succeeds(e) {
      NoSuccessFromNothing(m, es);
    }
  }

  // ------------------------------------------------------------ when a Cancel call stops a job

  /** No restart, and a transfer told to stop does not come back with some other failure. */
  predicate Heeds(m: Machine, e: Event) {
    !e.Restart? && (e.TransferReturns? && m.told ==> !e.result.Refused?)
  }

  predicate HeedsAll(m: Machine, es: seq<Event>)
    requires IsRun(m, es)
    decreases |es|
  {
    es == [] || (Heeds(m, es[0]) && HeedsAll(Step(m, es[0]), es[1..]))
  }

  /** The transfer is back, and its failure is about to be followed by another try. */
  predicate GoesAgain(m: Machine) {
    m.worker.Retrying? || (m.worker.Returned? && Verdict(m, m.worker.result).Retrying?)
  }

  /** The worker is past its last transfer, or will find the job over. */
  predicate Stopping(m: Machine) {
    match m.worker
    case Transferring => m.told
    case Returned(result) => !Verdict(m, result).Retrying?
    case Retrying(_) => false
    case Persisting(next) => if next.ToTransfer? then m.told else m.mem.state.Cancelled?
    case Saving(_, next) => if next.ToTransfer? then m.told else m.mem.state.Cancelled?
    case InQueue => m.mem.state.Cancelled?
    case Top => m.mem.state.Cancelled?
    case Sleeping => m.mem.state.Cancelled?
    case _ => true
  }

  lemma StoppingStays(m: Machine, e: Event)
    requires Inv(m) && Enabled(m, e) && Heeds(m, e) && Stopping(m)
    ensures Stopping(Step(m, e)) && Step(m, e).runs == m.runs
  {
  }

  lemma {:induction false} StoppingForGood(m: Machine, es: seq<Event>)
    requires Inv(m) && IsRun(m, es) && HeedsAll(m, es) && Stopping(m)
    ensures Exec(m, es).runs == m.runs
    decreases |es|
  {
    if es != [] {
      StepKeepsInv(m, es[0]);
      StoppingStays(m, es[0]);
      StoppingForGood(Step(m, es[0]), es[1..]);
    }
  }

  const GOING_ON: seq<Event> := [Requeue, Snapshot, Save(true), Sleep(true), PickUp]

  lemma GoesOn(m: Machine)
    requires m.worker.Retrying?
    ensures IsRun(m, GOING_ON) && HeedsAll(m, GOING_ON) && Exec(m, GOING_ON).runs == m.runs + 1
    ensures Exec(m, GOING_ON).mem.state.Running?
  {
    var es := GOING_ON;
    var m1 := Step(m, es[0]);
    var m2 := Step(m1, es[1]);
    var m3 := Step(m2, es[2]);
    var m4 := Step(m3, es[3]);
    FrontHeeds(m4, es[4], []);
    FrontHeeds(m3, es[3], es[4..]);
    FrontHeeds(m2, es[2], es[3..]);
    FrontHeeds(m1, es[1], es[2..]);
    FrontHeeds(m, es[0], es[1..]);
  }

  lemma FrontHeeds(m: Machine, e: Event, rest: seq<Event>)
    requires Enabled(m, e) && Heeds(m, e) && IsRun(Step(m, e), rest) && HeedsAll(Step(m, e), rest)
    ensures IsRun(m, [e] + rest) && HeedsAll(m, [e] + rest) && Exec(m, [e] + rest) == Exec(Step(m, e), rest)
  {
    assert ([e] + rest)[1..] == rest;
  }

  /** The further events by which a job goes on that a Cancel call has missed. */
  function Onwards(m: Machine): seq<Event> {
    if m.worker.Returned? then [Decide] + GOING_ON else GOING_ON
  }

  lemma GoesOnwards(m: Machine)
    requires GoesAgain(m)
    ensures IsRun(m, Onwards(m)) && HeedsAll(m, Onwards(m)) && Exec(m, Onwards(m)).runs == m.runs + 1
  {
    if m.worker.Returned? {
      GoesOn(Step(m, Decide));
      FrontHeeds(m, Decide, GOING_ON);
    } else {
      GoesOn(m);
    }
  }

  /**
   * After a Cancel call no transfer of the job is begun while the process lives, provided a
   * transfer told to stop does stop, exactly when the call does not fall between the return
   * of a transfer that is to be tried again and its requeueing.
   */
  lemma CancelStopsExactly(m: Machine, t: nat)
    requires Inv(m) && !m.mem.state.Terminal() && t !in m.cancellers
    ensures (forall es :: IsRun(Step(m, Cancel(t)), es) && HeedsAll(Step(m, Cancel(t)), es) ==>
              Exec(Step(m, Cancel(t)), es).runs == m.runs)
        <==> !GoesAgain(m)
  {
    var heard := Step(m, Cancel(t));
    StepKeepsInv(m, Cancel(t));
    if GoesAgain(m) {
      assert heard == m;
      GoesOnwards(m);
    } else {
      assert Stopping(heard);
      forall es | IsRun(heard, es) && HeedsAll(heard, es) ensures Exec(heard, es).runs == m.runs {
        StoppingForGood(heard, es);
      }
    }
  }

  /** A first transfer is back with a failure that will pass. */
  const FIRST_FAILS: seq<Event> := [PickUp, Snapshot, Save(true), TransferReturns(Refused("busy", true, 0))]

  /** A job cancelled at that moment is transferred again. */
  lemma CancelIsMissed(m: Machine) returns (s: Machine, es: seq<Event>)
    requires Start(m) && m.limit >= m.mem.attempts + 2
    ensures IsRun(m, FIRST_FAILS) && s == Exec(m, FIRST_FAILS)
    ensures IsRun(Step(s, Cancel(0)), es) && Exec(Step(s, Cancel(0)), es).runs == 2
  {
    var fs := FIRST_FAILS;
    var m1 := Step(m, fs[0]);
    var m2 := Step(m1, fs[1]);
    var m3 := Step(m2, fs[2]);
    s := Step(m3, fs[3]);
    Front(m3, fs[3], []);
    Front(m2, fs[2], fs[3..]);
    Front(m1, fs[1], fs[2..]);
    Front(m, fs[0], fs[1..]);
    assert Step(s, Cancel(0)) == s && GoesAgain(s);
    GoesOnwards(s);
    es := Onwards(s);
  }

  // ------------------------------------------------------------ when a cancellation is for good

  /** The worker has a snapshot in hand that is not of a finished job. */
  predicate Overtakable(m: Machine) {
    m.worker.Saving? && !m.worker.snapshot.state.Terminal()
  }

  /** The cancellation is stored, and nothing that says otherwise is on its way there. */
  predicate Sealed(m: Machine) {
    m.mem.state.Cancelled? && m.store.state.Cancelled? && !Overtakable(m)
  }

  lemma StaysSealed(m: Machine, e: Event)
    requires Inv(m) && Enabled(m, e) && Sealed(m)
    ensures Sealed(Step(m, e))
  {
  }

  lemma {:induction false} SealedForGood(m: Machine, es: seq<Event>)
    requires Inv(m) && IsRun(m, es) && Sealed(m)
    ensures Sealed(Exec(m, es))
    decreases |es|
  {
    if es != [] {
      StepKeepsInv(m, es[0]);
      StaysSealed(m, es[0]);
      SealedForGood(Step(m, es[0]), es[1..]);
    }
  }

  /** A run that brings a cancelled job back, when one can. */
  function Undoing(m: Machine): seq<Event> {
    if m.store.state.Cancelled? then [Save(true), Restart(false, true)] else [Restart(false, true)]
  }

  lemma Undone(m: Machine)
    requires Inv(m) && m.mem.state.Cancelled? && !Sealed(m)
    ensures IsRun(m, Undoing(m)) && !Exec(m, Undoing(m)).mem.state.Cancelled?
  {
    var restart := Restart(false, true);
    if m.store.state.Cancelled? {
      var saved := Step(m, Save(true));
      Front(saved, restart, []);
      Front(m, Save(true), [restart]);
      assert Undoing(m) == [Save(true)] + [restart];
    } else {
      Front(m, restart, []);
      assert Undoing(m) == [restart] + [];
    }
  }

  /**
   * A cancelled job is never seen as anything else again, whatever happens, exactly when
   * the cancellation is stored and no older snapshot is on its way to the store.
   */
  lemma CancelledForGoodExactly(m: Machine)
    requires Inv(m) && m.mem.state.Cancelled?
    ensures (forall es :: IsRun(m, es) ==> Exec(m, es).mem.state.Cancelled?)
        <==> m.store.state.Cancelled? && !Overtakable(m)
  {
    if Sealed(m) {
      forall es | IsRun(m, es) ensures Exec(m, es).mem.state.Cancelled? {
        SealedForGood(m, es);
      }
    } else {
      Undone(m);
    }
  }

  // ------------------------------------------------------------ a cancellation undone

  /** A first transfer fails for a while, and the worker has the snapshot of its requeued job in hand. */
  const RETRY_BEGINS: seq<Event> :=
    [PickUp, Snapshot, Save(true), TransferReturns(Refused("busy", true, 0)), Decide, Requeue, Snapshot]

  /** The job is cancelled and saved as that; then the worker saves what it has in hand. */
  const CANCEL_OVERTAKES: seq<Event> := [Cancel(0), CancelSnapshot(0), CancelSave(0, true), Save(true)]

  function AfterRetryBegins(m: Machine): Machine {
    var running := m.mem.(state := Running, attempts := m.mem.attempts + 1, error := None);
    var requeued := running.(state := Queued, error := Some("busy"));
    m.(mem := requeued, store := running, worker := Saving(requeued, ToSleep), picked := m.mem.attempts, runs := 1, told := false)
  }

  lemma Front(m: Machine, e: Event, rest: seq<Event>)
    requires Enabled(m, e) && IsRun(Step(m, e), rest)
    ensures IsRun(m, [e] + rest) && Exec(m, [e] + rest) == Exec(Step(m, e), rest)
  {
    assert ([e] + rest)[1..] == rest;
  }

  lemma RetryBegins(m: Machine)
    requires Start(m) && m.limit >= m.mem.attempts + 2
    ensures IsRun(m, RETRY_BEGINS) && Exec(m, RETRY_BEGINS) == AfterRetryBegins(m)
  {
    var es := RETRY_BEGINS;
    var m1 := Step(m, es[0]);
    var m2 := Step(m1, es[1]);
    var m3 := Step(m2, es[2]);
    var m4 := Step(m3, es[3]);
    var m5 := Step(m4, es[4]);
    assert m5.worker == Retrying("busy");
    var m6 := Step(m5, es[5]);
    Front(m6, es[6], []);
    Front(m5, es[5], es[6..]);
    Front(m4, es[4], es[5..]);
    Front(m3, es[3], es[4..]);
    Front(m2, es[2], es[3..]);
    Front(m1, es[1], es[2..]);
    Front(m, es[0], es[1..]);
  }

  /**
   * A cancellation, unlike success and failure, can be undone by a restart with no save
   * having failed: the worker's older snapshot is saved over it.
   */
  lemma CancelledCanComeBack(m: Machine) returns (s: Machine)
    requires Start(m) && m.limit >= m.mem.attempts + 2
    ensures IsRun(m, RETRY_BEGINS) && IsRun(Exec(m, RETRY_BEGINS), CANCEL_OVERTAKES)
    ensures s == Exec(Exec(m, RETRY_BEGINS), CANCEL_OVERTAKES)
    ensures s.mem.state.Cancelled? && s.intact && Recovered(s, false, true).mem.state.Queued?
  {
    RetryBegins(m);
    var t := AfterRetryBegins(m);
    var es := CANCEL_OVERTAKES;
    var t1 := Step(t, es[0]);
    var t2 := Step(t1, es[1]);
    var t3 := Step(t2, es[2]);
    s := Step(t3, es[3]);
    Front(t3, es[3], []);
    Front(t2, es[2], es[3..]);
    Front(t1, es[1], es[2..]);
    Front(t, es[0], es[1..]);
  }

  lemma {:induction false} RunExtends(m: Machine, es: seq<Event>, e: Event)
    requires IsRun(m, es) && Enabled(Exec(m, es), e)
    ensures IsRun(m, es + [e]) && Exec(m, es + [e]) == Step(Exec(m, es), e)
    decreases |es|
  {
    if es == [] {
      assert [] + [e] == [e] && [e][1..] == [];
      assert Exec(Step(m, e), []) == Step(m, e);
    } else {
      assert (es + [e])[0] == es[0] && (es + [e])[1..] == es[1..] + [e];
      RunExtends(Step(m, es[0]), es[1..], e);
    }
  }
}
