/** The compensator's loop on a saga object that nobody else touches. */
module Compensation {
  import opened Kernel
  import opened Sagas

  /** How many of the first `rounds` answers come before the first failure; a missing answer is a failure. */
  function RoundsBeforeFailure(answers: seq<bool>, rounds: nat): (n: nat)
    ensures n <= rounds && n <= |answers|
    ensures forall k :: 0 <= k < n ==> answers[k]
    ensures n < rounds && n < |answers| ==> !answers[n]
  {
    if rounds == 0 || answers == [] || !answers[0] then 0
    else
      var rest := RoundsBeforeFailure(answers[1..], rounds - 1);
      assert forall k :: 0 < k < 1 + rest ==> answers[k] == answers[1..][k - 1];
      1 + rest
  }

  lemma FailureKeepsPlan(s: Saga, maxAttempts: int, now: Time)
    requires OnPlan(s)
    ensures var t := s.MarkCompensationFailed(maxAttempts, now); OnPlan(t) && t.Plan() == s.Plan()
  {
  }

  /** Executes the pending steps one round at a time, recording each; `answers` says how the outside reacts in each
      round. The steps executed are the first ones pending, in order, so there are at most four rounds, and the loop
      ends either with nothing pending or with one recorded failure. */
  method Run(saga: CheckoutSaga, answers: seq<bool>, maxAttempts: int, now: Time) returns (done: seq<Compensation>)
    requires OnPlan(saga.State())
    modifies saga
    ensures |done| == RoundsBeforeFailure(answers, |old(saga.State()).Pending()|) <= 4
    ensures done == old(saga.State()).Pending()[..|done|]
    ensures OnPlan(saga.State()) && saga.State().Plan() == old(saga.State()).Plan()
    ensures saga.compensated == old(saga.compensated) + done
    ensures |done| == |old(saga.State()).Pending()| ==>
      saga.attempts == old(saga.attempts)
      && saga.status == (if done == [] then old(saga.status) else SagaStatus.Compensated)
    ensures |done| < |old(saga.State()).Pending()| ==>
      saga.attempts == old(saga.attempts) + 1
      && saga.status == (if saga.attempts >= maxAttempts then Manual else Compensating)
  {
    hide OnPlan, Saga.Pending, Saga.Plan, Saga.MarkCompensated;
    ghost var start := saga.State();
    ghost var plan := start.Pending();
    PendingIsShort(start);
    done := [];
    while true
      invariant |done| <= |plan|
      invariant OnPlan(saga.State()) && saga.State().Plan() == start.Plan()
      invariant saga.compensated == start.compensated + done && saga.attempts == start.attempts
      invariant done == plan[..|done|] && saga.State().Pending() == plan[|done|..]
      invariant saga.status == if done != [] && |done| == |plan| then SagaStatus.Compensated else start.status
      invariant |done| <= |answers| && forall k :: 0 <= k < |done| ==> answers[k]
      decreases |plan| - |done|
    {
      var pending := saga.Pending();
      if |pending| == 0 { break; }
      PendingIsShort(saga.State());
      var step := pending[0];
      if |done| == |answers| || !answers[|done|] {
        FailureKeepsPlan(saga.State(), maxAttempts, now);
        saga.CompensationFailed(maxAttempts, now);
        break;
      }
      RoundRemovesHead(saga.State(), now);
      saga.Compensated(step, now);
      done := done + [step];
    }
  }
}
