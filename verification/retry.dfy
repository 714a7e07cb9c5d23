// The request loop: when a call is renewed and replayed, when it is retried, and how
// many round trips that can come to.
module Requests {
  import opened Prelude

  datatype Kind = TokenExpired | RateLimited | Network | UpstreamError | EdgeRejected
                | ReauthRequired | CaptchaRequired | KeystoreUnavailable | OtherKind

  datatype Shape = Unset | Json | NotJson

  datatype RetryState = ByKind | Yes | No

  /** What the SDK knows of a failed call. */
  datatype ApiError = ApiError(
    kind: Kind, httpCode: int, shape: Shape, key: string,
    ambiguous: bool, resolved: bool, retry: RetryState, retryBudget: nat)
  {
    /** Whether the same call has any chance of a different outcome. */
    predicate Temporary() {
      if retry != ByKind then retry == Yes
      else if kind.RateLimited? || kind.Network? then true
      else if kind.UpstreamError? || kind.EdgeRejected? then httpCode == 0 || httpCode >= 500
      else false
    }

    /** A refusal: upstream declined to act, so nothing happened. */
    predicate ReplaySafe() {
      httpCode == 403 || httpCode == 429
    }

    predicate DrivesAuth() {
      (!ambiguous || resolved) && (shape.Unset? || shape.Json?)
    }

    predicate Decisive() {
      (shape.Unset? || shape.Json?) && (!ambiguous || resolved)
    }
  }

  /** Why a round trip was made. */
  datatype Reason = First | Renewed | Retried(after: ApiError)

  datatype Outcome = Success | RenewalFailed | Interrupted | GaveUp(error: ApiError)

  /** `r` may be sent again after `e`, `done` retries having been made. */
  predicate MayRetry(retryable: bool, max: int, e: ApiError, done: nat) {
    (retryable || e.ReplaySafe()) && e.Temporary() && done < Budget(max, e)
  }

  /** How many retries an error justifies: the policy's, or the classifier's where that is smaller. */
  function Budget(max: int, e: ApiError): int {
    if 0 < e.retryBudget < max then e.retryBudget else max
  }

  predicate MayRenew(auth: bool, sessionless: bool, e: ApiError, renewed: bool) {
    e.kind.TokenExpired? && e.DrivesAuth() && auth && !renewed && !sessionless
  }

  function Retries(log: seq<Reason>): nat {
    if log == [] then 0 else Retries(log[..|log| - 1]) + (if log[|log| - 1].Retried? then 1 else 0)
  }

  function Renewals(log: seq<Reason>): nat {
    if log == [] then 0 else Renewals(log[..|log| - 1]) + (if log[|log| - 1].Renewed? then 1 else 0)
  }

  /** Every round trip but the first has its reason in the answer before it. */
  predicate Justified(log: seq<Reason>, answers: nat -> Option<ApiError>, retryable: bool, max: int) {
    && log != [] && log[0].First?
    && forall i {:trigger log[i]} :: 0 < i < |log| ==> ResentFor(log[i], answers(i - 1), retryable, max, Retries(log[..i]))
  }

  predicate ResentFor(why: Reason, answer: Option<ApiError>, retryable: bool, max: int, done: nat) {
    && answer.Some?
    && match why
       case First => false
       case Renewed => answer.value.kind.TokenExpired? && answer.value.DrivesAuth()
       case Retried(e) => e == answer.value && MayRetry(retryable, max, e, done)
  }

  lemma LogGrows(log: seq<Reason>, why: Reason, answers: nat -> Option<ApiError>, retryable: bool, max: int)
    requires Justified(log, answers, retryable, max)
    requires ResentFor(why, answers(|log| - 1), retryable, max, Retries(log))
    ensures Justified(log + [why], answers, retryable, max)
    ensures Retries(log + [why]) == Retries(log) + (if why.Retried? then 1 else 0)
    ensures Renewals(log + [why]) == Renewals(log) + (if why.Renewed? then 1 else 0)
  {
    var more := log + [why];
    assert more[..|more| - 1] == log;
    forall i | 0 < i < |more| ensures ResentFor(more[i], answers(i - 1), retryable, max, Retries(more[..i])) {
      if i < |log| {
        assert more[..i] == log[..i];
        assert ResentFor(log[i], answers(i - 1), retryable, max, Retries(log[..i]));
      } else {
        assert more[..i] == log;
      }
    }
  }

  /** The round trips so far are justified, and counted by the loop's two variables. */
  predicate Kept(log: seq<Reason>, answers: nat -> Option<ApiError>, retryable: bool, max: int, attempt: int, refreshed: bool) {
    && Justified(log, answers, retryable, max)
    && Retries(log) == attempt && Renewals(log) == (if refreshed then 1 else 0)
    && (attempt > 0 ==> attempt <= max)
    && |log| == 1 + attempt + Renewals(log)
  }

  lemma KeptOn(log: seq<Reason>, why: Reason, answers: nat -> Option<ApiError>, retryable: bool, max: int, attempt: int, refreshed: bool)
    requires Kept(log, answers, retryable, max, attempt, refreshed)
    requires ResentFor(why, answers(|log| - 1), retryable, max, Retries(log)) && (why.Renewed? ==> !refreshed)
    ensures Kept(log + [why], answers, retryable, max, if why.Retried? then attempt + 1 else attempt, refreshed || why.Renewed?)
  {
    LogGrows(log, why, answers, retryable, max);
    assert why.Retried? || why.Renewed?;
  }

  /**
   * Sends a request until it succeeds or there is no ground to send it again: at most
   * Max + 2 round trips, at most one of them after a renewal, and one that is not safe to
   * repeat only after a renewal or a temporary refusal. `answers` are the answers, settled
   * where they were ambiguous; `renews` and `sleeps` how renewing and waiting turn out.
   */
  method Do(retryable: bool, sessionless: bool, auth: bool, max: int, answers: nat -> Option<ApiError>,
            renews: bool, sleeps: nat -> bool)
    returns (outcome: Outcome, log: seq<Reason>)
    ensures |log| <= (if max > 0 then max else 0) + 2
    ensures Justified(log, answers, retryable, max) && Renewals(log) <= 1
    ensures outcome.Success? <==> answers(|log| - 1).None?
    ensures outcome.GaveUp? ==>
              && answers(|log| - 1) == Some(outcome.error)
              && !MayRenew(auth, sessionless, outcome.error, Renewals(log) > 0)
              && !MayRetry(retryable, max, outcome.error, Retries(log))
    ensures Renewals(log) > 0 ==> auth && renews && !sessionless
    ensures outcome.RenewalFailed? ==> !renews
  {
    var refreshed := false;
    var attempt := 0;
    log := [First];
    assert log[..0] == [];
    while true
      invariant Kept(log, answers, retryable, max, attempt, refreshed)
      invariant refreshed ==> auth && renews && !sessionless
      decreases !refreshed, max - attempt
    {
      var answer := answers(|log| - 1);
      if answer.None? {
        return Success, log;
      }
      var e := answer.value;
      if e.kind.TokenExpired? && e.DrivesAuth() && auth && !refreshed && !sessionless {
        if !renews {
          return RenewalFailed, log;
        }
        refreshed := true;
        KeptOn(log, Renewed, answers, retryable, max, attempt, false);
        log := log + [Renewed];
        continue;
      }
      if (!retryable && !e.ReplaySafe()) || !e.Temporary() {
        return GaveUp(e), log;
      }
      var budget := max;
      if e.retryBudget > 0 && e.retryBudget < budget {
        budget := e.retryBudget;
      }
      if attempt >= budget {
        return GaveUp(e), log;
      }
      if !sleeps(attempt) {
        return Interrupted, log;
      }
      KeptOn(log, Retried(e), answers, retryable, max, attempt, refreshed);
      log := log + [Retried(e)];
      attempt := attempt + 1;
    }
  }

  /** What Do promises of a request that is not safe to repeat: nothing but a renewal or a temporary refusal repeats it. */
  lemma NotRepeatedBlindly(log: seq<Reason>, answers: nat -> Option<ApiError>, max: int, i: nat)
    requires Justified(log, answers, false, max) && 0 < i < |log|
    ensures answers(i - 1).Some?
    ensures log[i].Renewed? || (answers(i - 1).value.Temporary() && answers(i - 1).value.httpCode in {403, 429})
  {
    assert ResentFor(log[i], answers(i - 1), false, max, Retries(log[..i]));
  }
}
