// The job engine: jobs in a shared map, updated in place under its lock, and their saved
// copies. Each method follows one job's machine; `run` is its loop.
module Engines {
  import opened Prelude
  import opened Jobs

  /** What upstream says about a record. */
  datatype RecordInfo = NotFound | Unknown | Info(size: int, hash: string)

  /** The part of a job's request that decides what may be done with its record. */
  datatype Spec = Spec(size: int, hash: string, overwrite: bool)

  /** The record is a closed file, and nothing known of the job speaks against its being that file. */
  predicate IsWholeFile(info: RecordInfo, spec: Spec, bytesTotal: int) {
    var want := if spec.size <= 0 then bytesTotal else spec.size;
    && info.Info? && info.hash != ""
    && (want > 0 ==> info.size == want)
    && (spec.hash != "" ==> EqualFold(spec.hash, info.hash))
  }

  /** Takes back what an interrupted upload left behind, if upstream shows there is nothing in it. */
  method Reclaim(record: string, spec: Spec, bytesTotal: int, info: RecordInfo) returns (deleted: bool, complete: bool)
    ensures deleted <==> record != "" && !spec.overwrite && info == Info(0, "")
    ensures complete ==> !deleted && info.Info? && info.hash != ""
    ensures complete <==> record != "" && !spec.overwrite && IsWholeFile(info, spec, bytesTotal)
  {
    if record == "" || spec.overwrite {
      return false, false;
    }
    match info {
      case NotFound => return false, false;
      case Unknown => return false, false;
      case Info(size, hash) =>
        if IsWholeFile(info, spec, bytesTotal) {
          return false, true;
        }
        if hash != "" || size != 0 {
          return false, false;
        }
        return true, false;
    }
  }

  // ------------------------------------------------------------ the engine

  /** What a job looks like to everyone and in the store. */
  ghost predicate Shows(jobs: map<string, Job>, stored: map<string, Job>, id: string, m: Machine) {
    Get(jobs, id) == Some(m.mem) && Get(stored, id) == Some(m.store)
  }

  class Engine {
    var jobs: map<string, Job>
    var stored: map<string, Job>
    var cancels: set<string>
    /** The jobs whose latest transfer has been told to stop. */
    var told: set<string>
    const attempts: nat

    constructor (attempts: nat)
      ensures jobs == map[] && stored == map[] && cancels == {} && told == {} && this.attempts == attempts
    {
      jobs, stored, cancels, told, this.attempts := map[], map[], {}, {}, attempts;
    }

    /** The cancel function of a job is there while its machine says so, and has been called if that says so. */
    predicate Hears(id: string, m: Machine)
      reads this`cancels, this`told
    {
      (id in cancels <==> Stoppable(m.worker)) && (id in told <==> m.told)
    }

    /** Accepts a job: saved first, then published. */
    method Submit(id: string, saves: bool, room: bool) returns (accepted: bool)
      requires id !in jobs && id !in stored
      modifies this`jobs, this`stored
      ensures accepted <==> saves && room
      ensures jobs == if accepted then old(jobs)[id := Job(Queued, 0, "", None)] else old(jobs)
      ensures stored == if accepted then old(stored)[id := Job(Queued, 0, "", None)] else old(stored)
    {
      if !saves {
        return false;
      }
      var j := Job(Queued, 0, "", None);
      stored := stored[id := j];
      jobs := jobs[id := j];
      if !room {
        jobs := jobs - {id};
        stored := stored - {id};
        return false;
      }
      accepted := true;
    }

    /** Takes a job up for a transfer, unless it is over. */
    method PickUp(id: string, ghost m: Machine) returns (attempt: Option<nat>)
      requires Shows(jobs, stored, id, m) && (m.worker.InQueue? || m.worker.Top?)
      modifies this`jobs, this`cancels, this`told
      ensures Shows(jobs, stored, id, Step(m, Event.PickUp)) && jobs - {id} == old(jobs) - {id}
      ensures old(Hears(id, m)) ==> Hears(id, Step(m, Event.PickUp))
      ensures attempt == if m.mem.state.Terminal() then None else Some(m.mem.attempts + 1)
    {
      if id !in jobs || jobs[id].state.Terminal() {
        return None;
      }
      var j := jobs[id];
      jobs := jobs[id := j.(state := Running, attempts := j.attempts + 1, error := None)];
      cancels, told := cancels + {id}, told - {id};
      attempt := Some(j.attempts + 1);
    }

    /** Saves a snapshot of a job. */
    method Persist(id: string)
      modifies this`stored
      ensures stored == if id in jobs then old(stored)[id := jobs[id]] else old(stored)
    {
      if id !in jobs {
        return;
      }
      var snapshot := jobs[id];
      stored := stored[id := snapshot];
    }

    /** Ends a job: on disk first, and only then visible. */
    method Finish(id: string, state: State, error: Option<string>, ghost m: Machine) returns (ghost m': Machine)
      requires Shows(jobs, stored, id, m) && m.worker == Finishing(state, error)
      modifies this`jobs, this`stored
      ensures IsRun(m, ENDING) && m' == Exec(m, ENDING) && m'.worker.Gone? && m'.runs == m.runs
      ensures Shows(jobs, stored, id, m') && jobs - {id} == old(jobs) - {id}
      ensures m'.told == m.told && !Stoppable(m'.worker)
      ensures jobs[id] == stored[id] == old(jobs)[id].(state := state, error := error)
    {
      var next := jobs[id].(state := state, error := error);
      stored := stored[id := next];
      jobs := jobs[id := next];
      ghost var m1 := Step(m, FinishSnapshot);
      ghost var m2 := Step(m1, FinishSave(true));
      m' := Step(m2, Show);
      Front(m2, Show, []);
      Front(m1, FinishSave(true), [Show]);
      Front(m, FinishSnapshot, [FinishSave(true), Show]);
      assert ENDING == [FinishSnapshot] + [FinishSave(true), Show];
    }

    /**
     * Cancels a job. A transfer under way is told to stop and left to the worker; a job without
     * one is cancelled here, and what an earlier life of it left upstream is taken back if
     * `info` shows there is nothing in it.
     */
    method Cancel(id: string, spec: Spec, bytesTotal: int, info: RecordInfo, saves: bool, ghost m: Machine, ghost t: nat)
      returns (found: bool, deleted: bool, ok: bool)
      requires id in jobs ==> Shows(jobs, stored, id, m) && Hears(id, m) && t !in m.cancellers
      modifies this`jobs, this`stored, this`told
      ensures found <==> id in old(jobs)
      ensures jobs - {id} == old(jobs) - {id} && told - {id} == old(told) - {id}
      ensures found ==> Get(jobs, id) == Some(Step(m, Event.Cancel(t)).mem) && Hears(id, Step(m, Event.Cancel(t)))
      ensures var here := found && !m.mem.state.Terminal() && !m.mem.state.Running?;
              && stored == (if here && saves then old(stored)[id := m.mem.(state := Cancelled)] else old(stored))
              && (deleted <==> here && m.mem.record != "" && !spec.overwrite && info == Info(0, ""))
              && (ok <==> found && (here ==> saves))
    {
      if id !in jobs {
        return false, false, false;
      }
      var j := jobs[id];
      if j.state.Terminal() {
        return true, false, true;
      }
      var stop := id in cancels;
      var wasRunning := j.state == Running;
      if !wasRunning {
        jobs := jobs[id := j.(state := Cancelled)];
      }
      if stop {
        told := told + {id};
      }
      found, deleted, ok := true, false, true;
      if !wasRunning {
        var whole;
        deleted, whole := Reclaim(j.record, spec, bytesTotal, info);
        ok := saves;
        if saves {
          Persist(id);
        }
      }
    }

    /** The outcome of the last transfer, as the job shows it. */
    ghost predicate EndedAs(id: string, last: TransferResult)
      reads this`jobs
    {
      && id in jobs
      && (jobs[id].state.Succeeded? <==> last.Done?)
      && (jobs[id].state.Failed? ==> last.Refused? && jobs[id].error == Some(last.reason))
      && (last.Interrupted? ==> jobs[id].state.Cancelled?)
      && (last.Refused? && !last.temporary ==> jobs[id].state.Failed?)
    }

    /** Takes a job up and saves that it runs. */
    method Begin(id: string, ghost m: Machine) returns (attempt: Option<nat>, ghost es: seq<Event>)
      requires Shows(jobs, stored, id, m) && (m.worker.InQueue? || m.worker.Top?)
      modifies this`jobs, this`stored, this`cancels, this`told
      ensures attempt == if m.mem.state.Terminal() then None else Some(m.mem.attempts + 1)
      ensures es == if attempt.Some? then BEGINNING else [Event.PickUp]
      ensures IsRun(m, es) && Shows(jobs, stored, id, Exec(m, es)) && jobs - {id} == old(jobs) - {id}
      ensures old(Hears(id, m)) ==> Hears(id, Exec(m, es))
      ensures attempt.Some? ==> Exec(m, es).worker.Transferring? && Exec(m, es).mem.state.Running?
      ensures attempt.None? ==> Exec(m, es) == m.(worker := Gone)
      ensures Exec(m, es).limit == m.limit && Exec(m, es).mem.attempts == m.mem.attempts + (if attempt.Some? then 1 else 0)
    {
      attempt := PickUp(id, m);
      ghost var m1 := Step(m, Event.PickUp);
      if attempt.None? {
        Front(m, Event.PickUp, []);
        return attempt, [Event.PickUp];
      }
      Persist(id);
      ghost var m2 := Step(m1, Snapshot);
      Front(m2, Save(true), []);
      Front(m1, Snapshot, [Save(true)]);
      Front(m, Event.PickUp, [Snapshot, Save(true)]);
      es := BEGINNING;
      assert es == [Event.PickUp] + [Snapshot, Save(true)];
    }

    /** Ends a job after its record has been taken back. */
    method Abandon(id: string, state: State, error: Option<string>, ghost m: Machine) returns (ghost es: seq<Event>)
      requires Shows(jobs, stored, id, m) && m.worker == Reclaiming(state, error)
      modifies this`jobs, this`stored
      ensures IsRun(m, es) && Exec(m, es).worker.Gone? && Shows(jobs, stored, id, Exec(m, es))
      ensures jobs - {id} == old(jobs) - {id} && Exec(m, es).told == m.told
      ensures jobs[id] == stored[id] == old(jobs)[id].(state := state, error := error, record := "")
    {
      jobs := jobs[id := jobs[id].(record := "")];
      ghost var m1 := Step(m, ReclaimDone);
      ghost var _ := Finish(id, state, error, m1);
      Front(m, ReclaimDone, ENDING);
      es := [ReclaimDone] + ENDING;
    }

    /** Puts a job back for another transfer, and saves that. */
    method Retry(id: string, reason: string, ghost m: Machine) returns (ghost es: seq<Event>)
      requires Shows(jobs, stored, id, m) && m.worker == Retrying(reason)
      modifies this`jobs, this`stored
      ensures IsRun(m, es) && Exec(m, es).worker.Sleeping? && Shows(jobs, stored, id, Exec(m, es))
      ensures Exec(m, es).limit == m.limit && jobs - {id} == old(jobs) - {id} && Exec(m, es).told == m.told
      ensures jobs[id] == stored[id] == old(jobs)[id].(state := Queued, error := Some(reason))
    {
      jobs := jobs[id := jobs[id].(state := Queued, error := Some(reason))];
      Persist(id);
      ghost var m1 := Step(m, Requeue);
      ghost var m2 := Step(m1, Snapshot);
      Front(m2, Save(true), []);
      Front(m1, Snapshot, [Save(true)]);
      Front(m, Requeue, [Snapshot, Save(true)]);
      es := [Requeue] + [Snapshot, Save(true)];
    }

    /** Carries out the verdict on a transfer: the job is over, or it waits for another one. */
    method Act(id: string, result: TransferResult, attempt: nat, ghost m: Machine) returns (over: bool, ghost es: seq<Event>)
      requires Shows(jobs, stored, id, m) && m.mem.state.Running?
      requires m.limit == attempts && m.mem.attempts == attempt && m.worker == Verdict(m, result)
      modifies this`jobs, this`stored
      ensures IsRun(m, es) && Shows(jobs, stored, id, Exec(m, es)) && jobs - {id} == old(jobs) - {id}
      ensures Exec(m, es).told == m.told
      ensures id in jobs && jobs[id].attempts == attempt && Get(stored, id) == Some(jobs[id])
      ensures over ==> Exec(m, es).worker.Gone? && jobs[id].state.Terminal() && EndedAs(id, result)
      ensures !over ==> Exec(m, es).worker.Sleeping? && Exec(m, es).limit == m.limit && jobs[id].state.Queued?
      ensures !over <==> result.Refused? && result.temporary && attempt < MaxAttempts(attempts, result.budget)
    {
      over := true;
      if result.Done? {
        ghost var _ := Finish(id, Succeeded, None, m);
        es := ENDING;
      } else if jobs[id].state.Cancelled? || result.Interrupted? {
        es := Abandon(id, Cancelled, None, m);
      } else if !result.temporary || attempt >= MaxAttempts(attempts, result.budget) {
        es := Abandon(id, Failed, Some(result.reason), m);
      } else {
        es := Retry(id, result.reason, m);
        over := false;
      }
    }

    /** Gives up the cancel function once a transfer is back, and acts on how it ended. */
    method Conclude(id: string, result: TransferResult, attempt: nat, ghost m: Machine)
      returns (over: bool, ghost es: seq<Event>)
      requires Shows(jobs, stored, id, m) && m.worker.Transferring? && m.mem.state.Running?
      requires m.limit == attempts && m.mem.attempts == attempt
      modifies this`jobs, this`stored, this`cancels
      ensures IsRun(m, es) && Shows(jobs, stored, id, Exec(m, es)) && jobs - {id} == old(jobs) - {id}
      ensures old(Hears(id, m)) ==> Hears(id, Exec(m, es))
      ensures id in jobs && jobs[id].attempts == attempt && Get(stored, id) == Some(jobs[id])
      ensures over ==> Exec(m, es).worker.Gone? && jobs[id].state.Terminal() && EndedAs(id, result)
      ensures !over ==> Exec(m, es).worker.Sleeping? && Exec(m, es).limit == m.limit && jobs[id].state.Queued?
      ensures !over <==> result.Refused? && result.temporary && attempt < MaxAttempts(attempts, result.budget)
    {
      cancels := cancels - {id};
      if result.Done? {
        jobs := jobs[id := jobs[id].(record := "")];
      }
      ghost var m1 := Step(m, TransferReturns(result));
      ghost var m2 := Step(m1, Decide);
      ghost var rest;
      over, rest := Act(id, result, attempt, m2);
      Front(m1, Decide, rest);
      Front(m, TransferReturns(result), [Decide] + rest);
      es := [TransferReturns(result)] + ([Decide] + rest);
    }

    /** One turn of the loop: takes the job up, has it transferred, and ends it or waits. */
    method Turn(id: string, result: TransferResult, slept: bool, ghost m: Machine)
      returns (begun: bool, over: bool, ghost es: seq<Event>)
      requires Shows(jobs, stored, id, m) && (m.worker.InQueue? || m.worker.Top?) && m.limit == attempts
      requires m.mem == m.store && (m.mem.state.Queued? || m.mem.state.Terminal())
      modifies this
      ensures IsRun(m, es) && Shows(jobs, stored, id, Exec(m, es)) && jobs - {id} == old(jobs) - {id}
      ensures old(Hears(id, m)) ==> Hears(id, Exec(m, es))
      ensures Exec(m, es).mem == Exec(m, es).store && (!over ==> Exec(m, es).limit == attempts)
      ensures begun <==> !m.mem.state.Terminal()
      ensures !begun ==> over && Exec(m, es).mem == m.mem
      ensures begun ==> Exec(m, es).mem.attempts == m.mem.attempts + 1
      ensures over ==> Exec(m, es).worker.Gone? && Exec(m, es).mem.state.Terminal()
      ensures begun && over && slept ==> EndedAs(id, result)
      ensures begun && over && Exec(m, es).mem.state.Succeeded? ==> result.Done?
      ensures !over ==> Exec(m, es).worker.Top? && Exec(m, es).mem.state.Queued? && Exec(m, es).mem.attempts < attempts
    {
      var attempt;
      attempt, es := Begin(id, m);
      if attempt.None? {
        return false, true, es;
      }
      begun := true;
      ghost var now := Exec(m, es);
      ghost var more;
      over, more := Conclude(id, result, attempt.value, now);
      RunAppend(m, es, more);
      es, now := es + more, Exec(now, more);
      if over {
        return;
      }
      more := Wait(id, slept, now);
      over := !slept;
      RunAppend(m, es, more);
      es := es + more;
    }

    /** The wait between two transfers; when it is broken off the job is over. */
    method Wait(id: string, slept: bool, ghost m: Machine) returns (ghost es: seq<Event>)
      requires Shows(jobs, stored, id, m) && m.worker.Sleeping?
      modifies this`jobs, this`stored
      ensures IsRun(m, es) && Shows(jobs, stored, id, Exec(m, es)) && jobs - {id} == old(jobs) - {id}
      ensures Exec(m, es).told == m.told && !Stoppable(Exec(m, es).worker)
      ensures slept ==> Exec(m, es) == m.(worker := Top)
      ensures !slept ==> Exec(m, es).worker.Gone? && Exec(m, es).mem == Exec(m, es).store
      ensures !slept ==> Exec(m, es).mem == m.mem.(state := Cancelled, error := None, record := "")
    {
      Front(m, Sleep(slept), []);
      es := [Sleep(slept)] + [];
      if !slept {
        ghost var m1 := Step(m, Sleep(false));
        ghost var more := Abandon(id, Cancelled, None, m1);
        Front(m, Sleep(false), more);
        es := [Sleep(false)] + more;
      }
    }

    /**
     * Runs one job to its end with no one else about: `answers` are how its transfers end,
     * `naps` whether the waits between them are slept through.
     */
    method Run(id: string, answers: nat -> TransferResult, naps: nat -> bool, ghost m: Machine)
      returns (n: nat, ghost es: seq<Event>)
      requires Shows(jobs, stored, id, m) && m.worker.InQueue? && m.limit == attempts && m.mem == m.store
      requires m.mem.state.Queued? || m.mem.state.Terminal()
      modifies this
      ensures jobs - {id} == old(jobs) - {id} && id in jobs && Get(stored, id) == Some(jobs[id])
      ensures jobs[id].state.Terminal() && jobs[id].attempts == old(jobs)[id].attempts + n
      ensures n == 0 <==> old(jobs)[id].state.Terminal()
      ensures n <= (if attempts > old(jobs)[id].attempts then attempts - old(jobs)[id].attempts else 1)
      ensures n > 0 && (forall i :: 0 <= i < n ==> naps(i)) ==> EndedAs(id, answers(n - 1))
      ensures n > 0 && jobs[id].state.Succeeded? ==> answers(n - 1).Done?
      ensures IsRun(m, es) && Exec(m, es).worker.Gone? && Shows(jobs, stored, id, Exec(m, es))
      ensures old(Hears(id, m)) ==> Hears(id, Exec(m, es))
    {
      n, es := 0, [];
      ghost var now := m;
      while true
        invariant jobs - {id} == old(jobs) - {id} && Shows(jobs, stored, id, now) && now.mem == now.store
        invariant IsRun(m, es) && now == Exec(m, es) && now.limit == attempts
        invariant old(Hears(id, m)) ==> Hears(id, now)
        invariant if n == 0 then now == m else now.worker.Top? && now.mem.state.Queued? && now.mem.attempts < attempts
        invariant now.mem.attempts == m.mem.attempts + n && (n > 0 ==> m.mem.state.Queued?)
        decreases attempts - n - m.mem.attempts
      {
        var begun, over;
        ghost var more;
        begun, over, more := Turn(id, answers(n), naps(n), now);
        RunAppend(m, es, more);
        es, now := es + more, Exec(now, more);
        if begun {
          n := n + 1;
        }
        if over {
          return;
        }
      }
    }
  }

  const BEGINNING: seq<Event> := [PickUp, Snapshot, Save(true)]

  const ENDING: seq<Event> := [FinishSnapshot, FinishSave(true), Show]

  lemma {:induction false} RunAppend(m: Machine, a: seq<Event>, b: seq<Event>)
    requires IsRun(m, a) && IsRun(Exec(m, a), b)
    ensures IsRun(m, a + b) && Exec(m, a + b) == Exec(Exec(m, a), b)
    decreases |a|
  {
    if a == [] {
      assert a + b == b;
    } else {
      assert (a + b)[0] == a[0] && (a + b)[1..] == a[1..] + b;
      RunAppend(Step(m, a[0]), a[1..], b);
    }
  }
}
