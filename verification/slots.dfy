// Flush slots and wake-ups. Workers take the slot of a path, send, give the slot back
// and close every registered waiter; Remove registers a waiter on the upload it has
// just told to stop. Each critical section is one event, and so is each channel closed.
module FlushSlots {
  import opened Prelude

  type Path = string

  /** Where a flush worker is. `n` numbers its upload; the slot table holds the same number. */
  datatype Worker =
    | Idle
    | Sending(path: Path, n: nat)
    | Released(n: nat)
    | Closing(n: nat, batch: seq<nat>)
  {
    /** The worker has yet to collect the waiters for this upload. */
    predicate Owes(upload: nat) { (Sending? || Released?) && n == upload }
  }

  /**
   * The slot table, the registered waiters, the channels closed so far, and for each
   * waiter Remove registered the upload it waits for.
   */
  datatype Slots = Slots(
    workers: map<nat, Worker>, inFlight: map<Path, nat>, waiters: seq<nat>, closed: set<nat>,
    waitingOn: map<nat, nat>, uploads: nat, channels: nat)

  datatype Event =
    | Take(w: nat, path: Path)
    | Return(w: nat)
    | Collect(w: nat)
    | CloseNext(w: nat)
    | Finish(w: nat)
    | AwaitUpload(path: Path)
    | AwaitAny

  predicate Enabled(s: Slots, e: Event) {
    match e
    case Take(w, p) => w in s.workers && s.workers[w].Idle? && p !in s.inFlight
    case Return(w) => w in s.workers && s.workers[w].Sending?
    case Collect(w) => w in s.workers && s.workers[w].Released?
    case CloseNext(w) => w in s.workers && s.workers[w].Closing? && s.workers[w].batch != []
    case Finish(w) => w in s.workers && s.workers[w].Closing? && s.workers[w].batch == []
    case AwaitUpload(p) => p in s.inFlight
    case AwaitAny => true
  }

  function Step(s: Slots, e: Event): Slots
    requires Enabled(s, e)
  {
    match e
    case Take(w, p) =>
      s.(workers := s.workers[w := Sending(p, s.uploads)], inFlight := s.inFlight[p := s.uploads], uploads := s.uploads + 1)
    case Return(w) =>
      s.(workers := s.workers[w := Released(s.workers[w].n)], inFlight := s.inFlight - {s.workers[w].path})
    case Collect(w) => s.(workers := s.workers[w := Closing(s.workers[w].n, s.waiters)], waiters := [])
    case CloseNext(w) =>
      var Closing(n, batch) := s.workers[w];
      s.(workers := s.workers[w := Closing(n, batch[1..])], closed := s.closed + {batch[0]})
    case Finish(w) => s.(workers := s.workers[w := Idle])
    case AwaitUpload(p) =>
      s.(waiters := s.waiters + [s.channels], waitingOn := s.waitingOn[s.channels := s.inFlight[p]],
         channels := s.channels + 1)
    case AwaitAny => s.(waiters := s.waiters + [s.channels], channels := s.channels + 1)
  }

  predicate Start(s: Slots) {
    s == Slots(s.workers, map[], [], {}, map[], 0, 0) && forall w :: w in s.workers ==> s.workers[w].Idle?
  }

  predicate IsRun(s: Slots, es: seq<Event>)
    decreases |es|
  {
    es == [] || (Enabled(s, es[0]) && IsRun(Step(s, es[0]), es[1..]))
  }

  function Exec(s: Slots, es: seq<Event>): Slots
    requires IsRun(s, es)
    decreases |es|
  {
    if es == [] then s else Exec(Step(s, es[0]), es[1..])
  }

  // ------------------------------------------------------------ the invariant

  /** The slot table says exactly who is sending what, and no upload number is shared. */
  ghost predicate TableOk(s: Slots) {
    && (forall w :: w in s.workers && s.workers[w].Sending? ==>
          Get(s.inFlight, s.workers[w].path) == Some(s.workers[w].n))
    && (forall p :: p in s.inFlight ==> s.inFlight[p] < s.uploads && exists w :: Holds(s, w, p))
    && (forall w, v, n: nat :: w in s.workers && v in s.workers && s.workers[w].Owes(n) && s.workers[v].Owes(n) ==> w == v)
    && (forall w, n: nat :: w in s.workers && s.workers[w].Owes(n) ==> n < s.uploads)
  }

  predicate Holds(s: Slots, w: nat, p: Path) {
    w in s.workers && s.workers[w].Sending? && s.workers[w].path == p
  }

  /** Some worker has collected the channel and not closed it yet. */
  ghost predicate InHand(s: Slots, c: nat) {
    exists w :: HasInHand(s, w, c)
  }

  predicate HasInHand(s: Slots, w: nat, c: nat) {
    w in s.workers && s.workers[w].Closing? && c in s.workers[w].batch
  }

  ghost predicate Owed(s: Slots, n: nat) {
    exists w :: w in s.workers && s.workers[w].Owes(n)
  }

  /** A waiter is closed, about to be, or registered while its upload still owes a wake-up. */
  ghost predicate WaiterOk(s: Slots, c: nat) {
    c in s.waitingOn ==> c in s.closed || InHand(s, c) || (c in s.waiters && Owed(s, s.waitingOn[c]))
  }

  ghost predicate Inv(s: Slots) {
    TableOk(s) && (forall c :: WaiterOk(s, c)) && forall c :: c in s.waitingOn ==> c < s.channels
  }

  lemma StepKeepsTable(s: Slots, e: Event)
    requires Inv(s) && Enabled(s, e)
    ensures TableOk(Step(s, e))
  {
    var t := Step(s, e);
    if e.Return? {
      forall v | v in s.workers && s.workers[v].Sending? && s.workers[v].path == s.workers[e.w].path ensures v == e.w {
        assert s.workers[v].Owes(s.inFlight[s.workers[v].path]) && s.workers[e.w].Owes(s.inFlight[s.workers[v].path]);
      }
    }
    forall p | p in t.inFlight ensures exists w :: Holds(t, w, p) {
      if e.Take? && p == e.path {
        assert Holds(t, e.w, p);
      } else {
        var w :| Holds(s, w, p);
        assert Holds(t, w, p);
      }
    }
  }

  lemma StepKeepsWaiter(s: Slots, e: Event, c: nat)
    requires Inv(s) && Enabled(s, e)
    ensures WaiterOk(Step(s, e), c)
  {
    var t := Step(s, e);
    assert WaiterOk(s, c);
    if c in s.waitingOn && c !in s.closed {
      if InHand(s, c) {
        var w :| HasInHand(s, w, c);
        if e == CloseNext(w) && s.workers[w].batch[0] == c {
          assert c in t.closed;
        } else {
          assert HasInHand(t, w, c);
        }
      } else if e.Collect? {
        assert HasInHand(t, e.w, c);
      } else {
        var w :| w in s.workers && s.workers[w].Owes(s.waitingOn[c]);
        assert t.workers[w].Owes(s.waitingOn[c]);
      }
    } else if c in t.waitingOn && c !in s.waitingOn {
      var w :| Holds(s, w, e.path);
      assert t.workers[w].Owes(t.waitingOn[c]);
    }
  }

  lemma {:induction false} RunKeepsInv(s: Slots, es: seq<Event>)
    requires Inv(s) && IsRun(s, es)
    ensures Inv(Exec(s, es))
    decreases |es|
  {
    if es != [] {
      StepKeepsTable(s, es[0]);
      forall c ensures WaiterOk(Step(s, es[0]), c) { StepKeepsWaiter(s, es[0], c); }
      RunKeepsInv(Step(s, es[0]), es[1..]);
    }
  }

  // ------------------------------------------------------------ the theorems

  /** At most one upload of a path is in flight, and the slot table says which. */
  lemma OneUploadPerPath(s: Slots, es: seq<Event>, w: nat, v: nat, p: Path)
    requires Start(s) && IsRun(s, es)
    ensures Holds(Exec(s, es), w, p) && Holds(Exec(s, es), v, p) ==> w == v
    ensures p in Exec(s, es).inFlight <==> exists u :: Holds(Exec(s, es), u, p)
  {
    RunKeepsInv(s, es);
    var t := Exec(s, es);
    if Holds(t, w, p) && Holds(t, v, p) {
      assert t.workers[w].Owes(t.inFlight[p]) && t.workers[v].Owes(t.inFlight[p]);
    }
  }

  /** Whether the upload has returned and its worker has collected the waiters. */
  ghost predicate Notified(s: Slots, n: nat) {
    n < s.uploads && !Owed(s, n)
  }

  /** A worker closing channels closes every one in hand by steps of its own. */
  lemma {:induction false} ClosesItsBatch(s: Slots, w: nat, c: nat) returns (es: seq<Event>)
    requires HasInHand(s, w, c)
    ensures IsRun(s, es) && c in Exec(s, es).closed
    ensures forall e :: e in es ==> e == CloseNext(w)
    decreases |s.workers[w].batch|
  {
    var e := CloseNext(w);
    var t := Step(s, e);
    if s.workers[w].batch[0] == c {
      es := [e];
      assert es[1..] == [];
      assert Exec(t, es[1..]) == t;
    } else {
      var rest := ClosesItsBatch(t, w, c);
      es := [e] + rest;
      assert es[1..] == rest;
    }
  }

  /**
   * No wake-up is lost: once the upload a waiter was registered on has been notified
   * of, the channel is closed, or one worker closes it with no help from anyone.
   */
  lemma NoLostWakeUp(s: Slots, es: seq<Event>, c: nat) returns (w: nat, rest: seq<Event>)
    requires Start(s) && IsRun(s, es)
    requires c in Exec(s, es).waitingOn && Notified(Exec(s, es), Exec(s, es).waitingOn[c])
    ensures c in Exec(s, es).closed || HasInHand(Exec(s, es), w, c)
    ensures IsRun(Exec(s, es), rest) && c in Exec(Exec(s, es), rest).closed
    ensures forall e :: e in rest ==> e == CloseNext(w)
  {
    RunKeepsInv(s, es);
    var t := Exec(s, es);
    assert WaiterOk(t, c);
    w, rest := 0, [];
    if c !in t.closed {
      w :| HasInHand(t, w, c);
      rest := ClosesItsBatch(t, w, c);
    }
  }

  /** When no worker is busy, every waiter Remove ever registered has been woken. */
  lemma AllWoken(s: Slots, es: seq<Event>, c: nat)
    requires Start(s) && IsRun(s, es)
    requires forall w :: w in Exec(s, es).workers ==> Exec(s, es).workers[w].Idle?
    ensures c in Exec(s, es).waitingOn ==> c in Exec(s, es).closed
  {
    RunKeepsInv(s, es);
    assert WaiterOk(Exec(s, es), c);
  }

  // ------------------------------------------------------------ the loop that closes them

  /** The table and the waiters as the cache holds them. */
  class Notifier {
    var waiters: seq<nat>
    var closed: set<nat>
    var channels: nat

    constructor ()
      ensures waiters == [] && closed == {} && channels == 0
    {
      waiters, closed, channels := [], {}, 0;
    }

    /** Registers under the lock the caller already holds: the step AwaitUpload of the system. */
    method WaiterLocked(ghost s: Slots, ghost path: Path) returns (ch: nat)
      requires path in s.inFlight && s.waiters == waiters && s.closed == closed && s.channels == channels
      modifies this`waiters, this`channels
      ensures waiters == Step(s, AwaitUpload(path)).waiters && channels == Step(s, AwaitUpload(path)).channels
      ensures waiters == old(waiters) + [ch] && Get(Step(s, AwaitUpload(path)).waitingOn, ch) == Some(s.inFlight[path])
    {
      ch := channels;
      channels := channels + 1;
      waiters := waiters + [ch];
    }

    /** Takes every registered waiter and closes each: what Collect and the CloseNexts after it do. */
    method NotifyWaiters(ghost s: Slots, ghost w: nat) returns (ghost es: seq<Event>)
      requires w in s.workers && s.workers[w].Released? && s.waiters == waiters && s.closed == closed
      modifies this`waiters, this`closed
      ensures waiters == [] && closed == old(closed) + set c | c in old(waiters)
      ensures IsRun(s, es) && Exec(s, es).closed == closed && Exec(s, es).waiters == waiters
      ensures Exec(s, es).workers == s.workers[w := Idle]
    {
      var taken := waiters;
      waiters := [];
      es := [Collect(w)];
      ghost var t := Step(s, Collect(w));
      assert Exec(t, []) == t && es[1..] == [];
      for i := 0 to |taken|
        invariant waiters == [] && closed == old(closed) + set c | c in taken[..i]
        invariant IsRun(s, es) && t == Exec(s, es) && t.closed == closed && t.waiters == []
        invariant w in t.workers && t.workers == s.workers[w := Closing(s.workers[w].n, taken[i..])]
      {
        closed := closed + {taken[i]};
        RunExtends(s, es, CloseNext(w));
        es := es + [CloseNext(w)];
        t := Step(t, CloseNext(w));
        assert taken[..i + 1] == taken[..i] + [taken[i]];
        assert taken[i..][1..] == taken[i + 1..];
      }
      RunExtends(s, es, Finish(w));
      es := es + [Finish(w)];
      assert taken[..|taken|] == taken;
    }
  }

  lemma {:induction false} RunExtends(s: Slots, es: seq<Event>, e: Event)
    requires IsRun(s, es) && Enabled(Exec(s, es), e)
    ensures IsRun(s, es + [e]) && Exec(s, es + [e]) == Step(Exec(s, es), e)
    decreases |es|
  {
    if es == [] {
      assert es + [e] == [e] && [e][1..] == [];
      assert Exec(Step(s, e), []) == Step(s, e);
    } else {
      assert (es + [e])[0] == es[0] && (es + [e])[1..] == es[1..] + [e];
      RunExtends(Step(s, es[0]), es[1..], e);
    }
  }
}
