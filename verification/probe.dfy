// The disambiguator: one access probe at a time and no more than one an interval,
// whoever asks, and the memory of refusals that settles an ambiguous error.
module Probes {
  import opened Prelude
  import opened Requests

  const MAX_WITNESSED: nat := 512

  /** What a caller is told: a verdict, to wait for the probe in flight, or to probe itself. */
  datatype Turn = Known(result: Option<ApiError>) | Wait | Probe

  /** A probe: when it started and, once it has, ended. */
  datatype Span = Span(start: int, end: Option<int>)

  /** Every probe but the last has ended, an interval or more before the next one started. */
  ghost predicate Spaced(spans: seq<Span>, interval: int) {
    && (forall i :: 0 <= i < |spans| - 1 ==> spans[i].end.Some?)
    && (forall i :: 0 < i < |spans| && spans[i - 1].end.Some? ==> spans[i].start >= spans[i - 1].end.value + interval)
    && (forall i :: 0 <= i < |spans| && spans[i].end.Some? ==> spans[i].start <= spans[i].end.value)
  }

  /** Probes never overlap, however far apart in the history, and keep their distance. */
  lemma {:induction false} NeverOverlap(spans: seq<Span>, interval: int, i: nat, j: nat)
    requires Spaced(spans, interval) && interval > 0 && i < j < |spans|
    ensures spans[i].end.Some? && spans[i].end.value + interval <= spans[j].start
    decreases j
  {
    if i < j - 1 {
      NeverOverlap(spans, interval, i, j - 1);
      assert spans[j - 1].end.Some? && spans[j].start >= spans[j - 1].end.value + interval;
    }
  }

  /** `n` keys that have been refused at time 0: strings of different lengths. */
  lemma {:induction false} ManyRefused(n: nat) returns (denied: map<string, int>)
    ensures |denied| == n && forall k :: k in denied ==> |k| <= n && denied[k] == 0 && forall c :: c in k ==> c == 'x'
  {
    denied := map[];
    if n > 0 {
      denied := ManyRefused(n - 1);
      var key := seq(n, i => 'x');
      assert |key| == n && key !in denied;
      assert denied[key := 0].Keys == denied.Keys + {key};
      denied := denied[key := 0];
    }
  }

  /** A memory that is full, and a key it does not hold. */
  lemma FullMemory() returns (denied: map<string, int>)
    ensures |denied| == MAX_WITNESSED && "POST /folder" !in denied
  {
    denied := ManyRefused(MAX_WITNESSED);
    assert 'P' in "POST /folder";
  }

  class Disambiguator {
    const interval: int
    var last: int
    var result: Option<ApiError>
    var have: bool
    /** Whether a probe is in flight, which is when there is a channel to wait on. */
    var wait: bool
    var probes: nat
    var witnessed: set<string>
    var denied: map<string, int>
    ghost var spans: seq<Span>

    ghost predicate Valid()
      reads this
    {
      && interval > 0 && Spaced(spans, interval) && probes == |spans|
      && (wait <==> spans != [] && spans[|spans| - 1].end.None?)
      && LastEnded() == if have then Some(last) else None
    }

    /** When the latest probe to have ended did. */
    ghost function LastEnded(): Option<int>
      reads this`spans
    {
      if spans == [] then None
      else if spans[|spans| - 1].end.Some? then spans[|spans| - 1].end
      else if |spans| >= 2 then spans[|spans| - 2].end
      else None
    }

    constructor (interval: int)
      ensures Valid() && this.interval == (if interval <= 0 then 30 else interval)
      ensures spans == [] && denied == map[] && witnessed == {}
    {
      this.interval := if interval <= 0 then 30 else interval;
      last, result, have, wait, probes := 0, None, false, false, 0;
      witnessed, denied, spans := {}, map[], [];
    }

    // ---------------------------------------------------------- the probe

    /** The first critical section of a check: what there is to go by, or whose turn it is to probe. */
    method Enter(now: int) returns (turn: Turn)
      requires Valid()
      modifies this`wait, this`probes, this`spans
      ensures Valid()
      ensures turn.Known? <==> have && now - last < interval
      ensures turn.Known? ==> turn.result == result
      ensures turn.Wait? ==> old(wait) && spans == old(spans)
      ensures turn.Probe? ==> !old(wait) && wait && spans == old(spans) + [Span(now, None)]
      ensures turn.Probe? ==> old(LastEnded()).None? || old(LastEnded()).value + interval <= now
      ensures !turn.Probe? ==> spans == old(spans) && wait == old(wait)
    {
      if have && now - last < interval {
        return Known(result);
      }
      if wait {
        return Wait;
      }
      assert old(spans) != [] ==> spans[|spans| - 1].end.Some? && have;
      wait := true;
      probes := probes + 1;
      spans := spans + [Span(now, None)];
      turn := Probe;
    }

    /** The last critical section of a check, once the probe is back; waiters are let go. */
    method Finish(now: int, err: Option<ApiError>)
      requires Valid() && wait && now >= spans[|spans| - 1].start
      modifies this`last, this`result, this`have, this`wait, this`spans
      ensures Valid() && !wait && have && result == err && last == now
      ensures spans == old(spans)[|old(spans)| - 1 := Span(old(spans)[|old(spans)| - 1].start, Some(now))]
    {
      ghost var n := |spans| - 1;
      spans := spans[n := Span(spans[n].start, Some(now))];
      assert spans[n].end.Some?;
      result, have, last, wait := err, true, now, false;
    }

    /** The third critical section of a check: what a caller that was waiting finds once it is let go. */
    method Resume() returns (err: Option<ApiError>, decided: bool)
      requires Valid()
      ensures decided == have && (decided ==> err == result)
      ensures !wait && spans != [] ==> decided
    {
      assert !wait && spans != [] ==> spans[|spans| - 1].end.Some?;
      err, decided := result, have;
    }

    /**
     * A whole check. The caller goes by a known verdict, probes, or waits for the probe in
     * flight: that one ends with `other` if `woken`, or the caller gives up before.
     */
    method Check(now: int, later: int, probe: Option<ApiError>, woken: bool, other: Option<ApiError>)
      returns (err: Option<ApiError>, decided: bool)
      requires Valid() && now <= later && (wait ==> later >= spans[|spans| - 1].start)
      modifies this`last, this`result, this`have, this`wait, this`probes, this`spans
      ensures Valid()
      ensures decided <==> !old(wait) || old(have && now - last < interval) || woken
      ensures probes == if !old(wait) && !old(have && now - last < interval) then old(probes) + 1 else old(probes)
      ensures decided ==> have && err == result
      ensures old(have && now - last < interval) ==> err == old(result)
      ensures !old(have && now - last < interval) && decided ==> err == (if old(wait) then other else probe) && last == later
    {
      var turn := Enter(now);
      match turn {
        case Known(known) =>
          return known, true;
        case Wait =>
          if !woken {
            return None, false;
          }
          Finish(later, other);
          err, decided := Resume();
        case Probe =>
          Finish(later, probe);
          return probe, true;
      }
    }

    // ---------------------------------------------------------- witness and refusals

    /** Records that an operation has worked; that revokes any refusal of it. */
    method NoteSuccess(key: string)
      modifies this`witnessed, this`denied
      ensures key != "" ==> denied == old(denied) - {key}
      ensures key == "" ==> denied == old(denied) && witnessed == old(witnessed)
      ensures old(witnessed) <= witnessed <= old(witnessed) + {key}
      ensures key != "" && |old(witnessed)| < MAX_WITNESSED ==> key in witnessed
    {
      if key == "" {
        return;
      }
      denied := denied - {key};
      if |witnessed| >= MAX_WITNESSED {
        return;
      }
      witnessed := witnessed + {key};
    }

    /** Whether a refusal of `key` would be remembered: there is room, or it is known already. */
    predicate Remembers(key: string)
      reads this`denied
    {
      |denied| < MAX_WITNESSED || key in denied
    }

    /** Whether a refusal within the interval is on record. */
    predicate Refused(key: string, now: int)
      reads this`denied
    {
      key in denied && now - denied[key] < interval
    }

    /** Records a refusal, and says whether it is the first one within the interval that is on record. */
    method MarkDenied(key: string, now: int) returns (first: bool)
      requires interval > 0
      modifies this`denied
      ensures first <==> !old(Refused(key, now))
      ensures denied == if first && old(Remembers(key)) then old(denied)[key := now] else old(denied)
      ensures Refused(key, now) <==> old(Remembers(key))
    {
      if key in denied && now - denied[key] < interval {
        return false;
      }
      if |denied| < MAX_WITNESSED || key in denied {
        denied := denied[key := now];
      }
      first := true;
    }

    /**
     * One confirming attempt, not one per call: of two refusals within an interval the
     * second is not a first one again exactly when there was room to remember the first.
     */
    method RefusedTwice(key: string, now: int, later: int) returns (first: bool, second: bool)
      requires interval > 0 && now <= later < now + interval && !Refused(key, now)
      modifies this`denied
      ensures first && (second <==> !old(Remembers(key)))
      ensures second ==> denied == old(denied)
    {
      first := MarkDenied(key, now);
      second := MarkDenied(key, later);
    }

    /** With the memory full of other keys, a second refusal a moment later is a first one again. */
    method FullMemoryForgets(key: string, now: int) returns (first: bool, second: bool)
      requires interval > 0 && key != ""
      modifies this`denied
      ensures |old(denied)| == MAX_WITNESSED && key !in old(denied) ==> first && second && denied == old(denied)
    {
      first, second := true, true;
      if |denied| == MAX_WITNESSED && key !in denied {
        first, second := RefusedTwice(key, now, now);
      }
    }

    // ---------------------------------------------------------- settling an error

    /** Settles an ambiguous error once, by the probe and by what is remembered of the call. */
    method Resolve(e: ApiError, probeErr: Option<ApiError>, decided: bool, now: int) returns (r: ApiError)
      requires interval > 0
      modifies this`denied
      ensures !e.ambiguous || e.resolved || !decided ==> r == e && denied == old(denied)
      ensures e.ambiguous && !e.resolved && decided ==> r.resolved && r.retry != ByKind
      ensures e.ambiguous && !e.resolved && decided && probeErr.Some? ==> !r.Temporary() && denied == old(denied)
      ensures e.ambiguous && !e.resolved && decided && probeErr.None? ==>
                && r.kind == e.kind
                && (r.Temporary() <==> e.key in witnessed || !old(Refused(e.key, now)))
                && (r.Temporary() && e.key !in witnessed ==> r.retryBudget == 1)
      ensures r.kind != e.kind ==> probeErr.Some? && probeErr.value.Decisive() && r.kind == probeErr.value.kind
      ensures r.kind != e.kind ==> r.kind.ReauthRequired? || r.kind.CaptchaRequired? || r.kind.KeystoreUnavailable?
      ensures r.kind.TokenExpired? ==> e.kind.TokenExpired?
    {
      r := e;
      if !e.ambiguous || e.resolved || !decided {
        return;
      }
      r := r.(resolved := true);
      if probeErr.Some? {
        r := r.(retry := No);
        var pe := probeErr.value;
        if pe.Decisive() && (pe.kind.ReauthRequired? || pe.kind.CaptchaRequired? || pe.kind.KeystoreUnavailable?) {
          r := r.(kind := pe.kind);
        }
        return;
      }
      if e.key in witnessed {
        r := r.(retry := Yes);
        return;
      }
      var first := MarkDenied(e.key, now);
      if first {
        r := r.(retry := Yes, retryBudget := 1);
      } else {
        r := r.(retry := No);
      }
    }
  }
}
