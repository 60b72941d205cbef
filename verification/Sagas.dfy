/** The persisted checkout saga: its transitions as functions on a value, and the class that updates itself in place. */
module Sagas {
  import opened Kernel

  datatype SagaStatus = Running | Compensating | Completed | Compensated | Manual

  datatype Step =
    | StockReserved | PromoRedeemed | AwaitingPayment
    | CommittingStock | StockCommitted | PaymentCaptured | CheckoutCompleted

  datatype Compensation = RefundPayment | CancelPayment | ReturnStock | ReleasePromo | CloseOrder

  datatype SagaError = SagaNotRunning | SagaNotManual | InvalidReference

  datatype Saga = Saga(
    reservationId: Reference,
    paymentId: Reference,
    refundId: Reference,
    promoCode: Reference,
    amount: Money,
    status: SagaStatus,
    step: Step,
    captured: bool,
    compensated: seq<Compensation>,
    attempts: int,
    deadline: Time,
    updatedAt: Time)
  {
    /** Compensation has begun; it is never taken back. */
    predicate HasBegun() {
      status == Compensating || status == Compensated || status == Manual
    }

    predicate Committing() {
      status == Running && InCommit(step)
    }

    predicate Expired(now: Time) {
      status == Running && !Committing() && deadline != NO_TIME && now > deadline
    }

    function WhileRunning(next: Saga): Result<Saga, SagaError> {
      if status != Running then Err(SagaNotRunning) else Ok(next)
    }

    function MarkPromoRedeemed(now: Time): Result<Saga, SagaError> {
      WhileRunning(this.(step := PromoRedeemed, updatedAt := now))
    }

    function AwaitPayment(id: Reference, now: Time): Result<Saga, SagaError> {
      if status != Running then Err(SagaNotRunning)
      else if id == BLANK then Err(InvalidReference)
      else Ok(this.(paymentId := id, step := AwaitingPayment, updatedAt := now))
    }

    /** True when the authorized payment is the saga's own and the saga waits for it or is already committing. */
    predicate Accepts(id: Reference) {
      status == Running && paymentId == id && (step == AwaitingPayment || InCommit(step))
    }

    function BeginCommit(id: Reference, now: Time): Saga {
      if Accepts(id) && step == AwaitingPayment then this.(step := CommittingStock, updatedAt := now) else this
    }

    function MarkStockCommitted(now: Time): Result<Saga, SagaError> {
      WhileRunning(this.(step := StockCommitted, updatedAt := now))
    }

    function MarkPaymentCaptured(now: Time): Result<Saga, SagaError> {
      WhileRunning(this.(captured := true, step := PaymentCaptured, updatedAt := now))
    }

    function Complete(now: Time): Result<Saga, SagaError> {
      if status == Completed then Ok(this)
      else WhileRunning(this.(status := Completed, step := CheckoutCompleted, attempts := 0, updatedAt := now))
    }

    function BeginCompensation(refund: Reference, now: Time): Result<Saga, SagaError> {
      if HasBegun() then Ok(this)
      else if refund == BLANK then Err(InvalidReference)
      else Ok(this.(status := Compensating, refundId := refund, attempts := 0, updatedAt := now))
    }

    /** What has to be undone, in order. */
    function Plan(): seq<Compensation> {
      PlanFor(captured, promoCode != BLANK)
    }

    function Pending(): seq<Compensation> {
      if status != Compensating then [] else Without(Plan(), compensated)
    }

    function MarkCompensated(done: Compensation, now: Time): Saga {
      var noted := this.(compensated := if done in compensated then compensated
        else compensated + [done], updatedAt := now);
      if noted.status == Compensating && noted.Pending() == [] then noted.(status := Compensated) else noted
    }

    function MarkCompensationFailed(maxAttempts: int, now: Time): Saga {
      this.(attempts := attempts + 1, updatedAt := now,
            status := if attempts + 1 >= maxAttempts then Manual else status)
    }

    function Resume(now: Time): Result<Saga, SagaError> {
      if status != Manual then Err(SagaNotManual)
        else Ok(this.(status := Compensating, attempts := 0, updatedAt := now))
    }

    function ChangePayment(id: Reference, now: Time): Result<Saga, SagaError> {
      if status != Running || step != AwaitingPayment then Err(SagaNotRunning)
      else if id == BLANK then Err(InvalidReference)
      else Ok(this.(paymentId := id, updatedAt := now))
    }
  }

  predicate InCommit(step: Step) {
    step == CommittingStock || step == StockCommitted || step == PaymentCaptured
  }

  /** Starting a saga fails on a blank reservation or payment. */
  function StartSaga(reservation: Reference, payment: Reference, promo: Reference, amount: Money, deadline: Time,
      now: Time)
    : Result<Saga, SagaError>
  {
    if reservation == BLANK || payment == BLANK then Err(InvalidReference)
    else Ok(Saga(reservation, payment, BLANK, promo, amount, Running, StockReserved, false, [], 0, deadline, now))
  }

  /** A captured payment is refunded, any other one cancelled; a promo code is released only if there is one. */
  function PlanFor(captured: bool, promo: bool): seq<Compensation> {
    var payment := if captured then RefundPayment else CancelPayment;
    if promo then [payment, ReturnStock, ReleasePromo, CloseOrder] else [payment, ReturnStock, CloseOrder]
  }

  /** The steps of `plan` that are not in `done`, in order. */
  function Without(plan: seq<Compensation>, done: seq<Compensation>): seq<Compensation> {
    if plan == [] then []
    else
      var kept := Without(plan[..|plan| - 1], done);
      if plan[|plan| - 1] in done then kept else kept + [plan[|plan| - 1]]
  }

  /** 10 seconds after the first failure, doubled after each further one, capped at ten minutes. */
  function CompensationBackoff(attempts: int): (seconds: Time)
    ensures attempts <= 0 ==> seconds == 0
    ensures attempts >= 1 ==> 10 <= seconds <= 600
  {
    if attempts <= 0 then 0
    else
      var shift := if attempts - 1 < 10 then attempts - 1 else 10;
      var delay := 10 * PowerOfTwo(shift);
      if delay < 600 then delay else 600
  }

  function PowerOfTwo(n: nat): (p: int)
    ensures p >= 1
  {
    if n == 0 then 1 else 2 * PowerOfTwo(n - 1)
  }

  /** A retry is never scheduled earlier because more attempts have failed. */
  lemma BackoffNeverShrinks(a: int, b: int)
    requires a <= b
    ensures CompensationBackoff(a) <= CompensationBackoff(b)
  {
    if a >= 1 {
      var m := if a - 1 < 10 then a - 1 else 10;
      var n := if b - 1 < 10 then b - 1 else 10;
      PowerGrows(m, n);
    }
  }

  lemma {:induction false} PowerGrows(m: nat, n: nat)
    requires m <= n
    ensures PowerOfTwo(m) <= PowerOfTwo(n)
  {
    if m < n { PowerGrows(m, n - 1); }
  }

  /** Compensation runs once `compensated` is a prefix of the plan. */
  ghost predicate OnPlan(s: Saga) {
    s.compensated <= s.Plan()
  }

  ghost predicate Distinct(plan: seq<Compensation>) {
    forall i, j :: 0 <= i < j < |plan| ==> plan[i] != plan[j]
  }

  lemma PlanIsDistinct(captured: bool, promo: bool)
    ensures Distinct(PlanFor(captured, promo))
  {
  }

  lemma {:induction false} WithoutPrefix(plan: seq<Compensation>, n: nat)
    requires n <= |plan| && Distinct(plan)
    ensures Without(plan, plan[..n]) == plan[n..]
  {
    if plan != [] {
      var init, last := plan[..|plan| - 1], plan[|plan| - 1];
      if n == |plan| {
        assert plan[..n] == plan;
        NothingLeft(plan, plan);
      } else {
        assert plan[..n] == init[..n];
        WithoutPrefix(init, n);
        assert last !in plan[..n];
        assert plan[n..] == init[n..] + [last];
      }
    }
  }

  lemma {:induction false} NothingLeft(plan: seq<Compensation>, done: seq<Compensation>)
    requires forall c :: c in plan ==> c in done
    ensures Without(plan, done) == []
  {
    if plan != [] {
      assert plan[|plan| - 1] in plan;
      forall c | c in plan[..|plan| - 1] ensures c in done { assert c in plan; }
      NothingLeft(plan[..|plan| - 1], done);
    }
  }

  /** On a saga that is on plan, what is pending is the rest of the plan. */
  lemma PendingIsRestOfPlan(s: Saga)
    requires OnPlan(s)
    ensures Without(s.Plan(), s.compensated) == s.Plan()[|s.compensated|..]
  {
    PlanIsDistinct(s.captured, s.promoCode != BLANK);
    assert s.compensated == s.Plan()[..|s.compensated|];
    WithoutPrefix(s.Plan(), |s.compensated|);
  }

  lemma NotedOnPlan(s: Saga, k: nat)
    requires OnPlan(s) && k <= |s.compensated| && k < |s.Plan()|
    ensures s.Plan()[k] in s.compensated <==> k < |s.compensated|
    ensures k == |s.compensated| ==> s.compensated + [s.Plan()[k]] == s.Plan()[..k + 1]
  {
    var plan := s.Plan();
    PlanIsDistinct(s.captured, s.promoCode != BLANK);
    assert s.compensated == plan[..|s.compensated|];
    if k < |s.compensated| {
      assert s.compensated[k] == plan[k];
    } else {
      assert plan[k] !in plan[..k];
    }
  }

  /** Recording a step whose turn has come or has passed keeps the saga on plan, whatever its status:
      the next step is appended, an earlier one is ignored. The saga closes exactly when the plan is exhausted. */
  lemma MarkKeepsPlan(s: Saga, k: nat, now: Time)
    requires OnPlan(s) && k <= |s.compensated| && k < |s.Plan()|
    ensures var t := s.MarkCompensated(s.Plan()[k], now);
      && OnPlan(t) && t.Plan() == s.Plan()
      && t.compensated == (if k == |s.compensated| then s.Plan()[..k + 1] else s.compensated)
      && t.status == (if s.status == Compensating && |t.compensated| == |s.Plan()| then Compensated else s.status)
      && t == s.(compensated := t.compensated, status := t.status, updatedAt := now)
  {
    NotedOnPlan(s, k);
    var noted := s.(compensated := if k == |s.compensated| then s.Plan()[..k + 1] else s.compensated, updatedAt := now);
    assert noted.Plan() == s.Plan() && OnPlan(noted);
    PendingIsRestOfPlan(noted);
    assert noted == s.(compensated := if s.Plan()[k] in s.compensated then s.compensated
      else s.compensated + [s.Plan()[k]],
                       updatedAt := now);
  }

  /** A successful round removes exactly the head of what was pending, and the last one closes the saga. */
  lemma RoundRemovesHead(s: Saga, now: Time)
    requires OnPlan(s) && s.Pending() != []
    ensures var t := s.MarkCompensated(s.Pending()[0], now);
      && OnPlan(t) && t.Plan() == s.Plan() && t.attempts == s.attempts
      && t.compensated == s.compensated + [s.Pending()[0]]
      && t.Pending() == s.Pending()[1..]
      && t.status == (if |s.Pending()| == 1 then Compensated else Compensating)
  {
    PendingIsRestOfPlan(s);
    var k := |s.compensated|;
    assert s.Pending()[0] == s.Plan()[k];
    MarkKeepsPlan(s, k, now);
    NotedOnPlan(s, k);
    PendingIsRestOfPlan(s.MarkCompensated(s.Plan()[k], now));
    assert s.Plan()[k + 1..] == s.Plan()[k..][1..];
  }

  lemma PendingIsShort(s: Saga)
    requires OnPlan(s)
    ensures |s.Pending()| <= 4
    ensures s.Pending() != [] ==> s.status == Compensating
  {
    PendingIsRestOfPlan(s);
  }

  /** Every way the methods below change a saga. */
  datatype Change =
    | DoPromoRedeemed | DoAwaitPayment(id: Reference) | DoBeginCommit(id: Reference) | DoStockCommitted
    | DoPaymentCaptured | DoComplete | DoBeginCompensation(refund: Reference)
    | DoFailed(maxAttempts: int) | DoResume | DoChangePayment(id: Reference) | DoCompensated(done: Compensation)

  function Apply(s: Saga, c: Change, now: Time): Saga {
    var r: Result<Saga, SagaError> := match c
      case DoPromoRedeemed => s.MarkPromoRedeemed(now)
      case DoAwaitPayment(id) => s.AwaitPayment(id, now)
      case DoBeginCommit(id) => Ok(s.BeginCommit(id, now))
      case DoStockCommitted => s.MarkStockCommitted(now)
      case DoPaymentCaptured => s.MarkPaymentCaptured(now)
      case DoComplete => s.Complete(now)
      case DoBeginCompensation(refund) => s.BeginCompensation(refund, now)
      case DoFailed(maxAttempts) => Ok(s.MarkCompensationFailed(maxAttempts, now))
      case DoResume => s.Resume(now)
      case DoChangePayment(id) => s.ChangePayment(id, now)
      case DoCompensated(done) => Ok(s.MarkCompensated(done, now));
    if r.Ok? then r.value else s
  }

  /** Once compensation has begun no call, in any order, changes the plan, the payment or the refund,
      loses a recorded step or brings the saga back to running or completed. (A failure report is the one call
      that could still touch a live saga, so it is excluded before compensation begins.) */
  lemma CompensationFreezesPlan(s: Saga, c: Change, now: Time)
    requires s.HasBegun()
    ensures var t := Apply(s, c, now);
      && t.HasBegun()
      && t.Plan() == s.Plan() && t.paymentId == s.paymentId && t.refundId == s.refundId
      && s.compensated <= t.compensated
  {
  }

  /** The outcome and the state after a call are exactly what `spec` says; on an error nothing has changed. */
  ghost predicate Follows(spec: Result<Saga, SagaError>, before: Saga, after: Saga, error: Option<SagaError>) {
    match spec
    case Ok(next) => error == None && after == next
    case Err(e) => error == Some(e) && after == before
  }

  /** Writes the steps that are not done over the front of the same array and returns how many there are. */
  method KeepUndone(plan: array<Compensation>, done: seq<Compensation>) returns (kept: nat)
    modifies plan
    ensures kept <= plan.Length && plan[..kept] == Without(old(plan[..]), done)
  {
    ghost var full := plan[..];
    kept := 0;
    for i := 0 to plan.Length
      invariant kept <= i
      invariant forall k :: i <= k < plan.Length ==> plan[k] == full[k]
      invariant plan[..kept] == Without(full[..i], done)
    {
      var step := plan[i];
      assert full[..i + 1][..i] == full[..i];
      if step !in done {
        plan[kept] := step;
        kept := kept + 1;
        assert plan[..kept] == plan[..kept - 1] + [step];
      }
    }
    assert full[..plan.Length] == full;
  }

  /** A saga object. `State()` is the value the methods are specified by. */
  class CheckoutSaga {
    var reservationId: Reference
    var paymentId: Reference
    var refundId: Reference
    var promoCode: Reference
    var amount: Money
    var status: SagaStatus
    var step: Step
    var captured: bool
    var compensated: seq<Compensation>
    var attempts: int
    var deadline: Time
    var updatedAt: Time

    function State(): Saga
      reads this
    {
      Saga(reservationId, paymentId, refundId, promoCode, amount, status, step, captured, compensated, attempts,
        deadline, updatedAt)
    }

    /** Rehydrates a stored saga. */
    constructor (s: Saga)
      ensures State() == s
    {
      reservationId, paymentId, refundId, promoCode := s.reservationId, s.paymentId, s.refundId, s.promoCode;
      amount, status, step, captured := s.amount, s.status, s.step, s.captured;
      compensated, attempts, deadline, updatedAt := s.compensated, s.attempts, s.deadline, s.updatedAt;
    }

    method PromoRedeemed(now: Time) returns (error: Option<SagaError>)
      modifies this
      ensures Follows(old(State()).MarkPromoRedeemed(now), old(State()), State(), error)
    {
      if status != Running { return Some(SagaNotRunning); }
      step, updatedAt := Step.PromoRedeemed, now;
      error := None;
    }

    method AwaitPayment(id: Reference, now: Time) returns (error: Option<SagaError>)
      modifies this
      ensures Follows(old(State()).AwaitPayment(id, now), old(State()), State(), error)
    {
      if status != Running { return Some(SagaNotRunning); }
      if id == BLANK { return Some(InvalidReference); }
      paymentId, step, updatedAt := id, AwaitingPayment, now;
      error := None;
    }

    method BeginCommit(id: Reference, now: Time) returns (proceed: bool)
      modifies this
      ensures proceed == old(State()).Accepts(id)
      ensures State() == old(State()).BeginCommit(id, now)
    {
      if status != Running || paymentId != id { return false; }
      match step {
        case AwaitingPayment =>
          step, updatedAt := CommittingStock, now;
          return true;
        case CommittingStock => return true;
        case StockCommitted => return true;
        case PaymentCaptured => return true;
        case _ => return false;
      }
    }

    method StockCommitted(now: Time) returns (error: Option<SagaError>)
      modifies this
      ensures Follows(old(State()).MarkStockCommitted(now), old(State()), State(), error)
    {
      if status != Running { return Some(SagaNotRunning); }
      step, updatedAt := Step.StockCommitted, now;
      error := None;
    }

    method PaymentCaptured(now: Time) returns (error: Option<SagaError>)
      modifies this
      ensures Follows(old(State()).MarkPaymentCaptured(now), old(State()), State(), error)
    {
      if status != Running { return Some(SagaNotRunning); }
      captured, step, updatedAt := true, Step.PaymentCaptured, now;
      error := None;
    }

    method Complete(now: Time) returns (error: Option<SagaError>)
      modifies this
      ensures Follows(old(State()).Complete(now), old(State()), State(), error)
    {
      if status == Completed { return None; }
      if status != Running { return Some(SagaNotRunning); }
      status, step, attempts, updatedAt := Completed, CheckoutCompleted, 0, now;
      error := None;
    }

    method BeginCompensation(refund: Reference, now: Time) returns (error: Option<SagaError>)
      modifies this
      ensures Follows(old(State()).BeginCompensation(refund, now), old(State()), State(), error)
    {
      match status {
        case Compensating => return None;
        case Compensated => return None;
        case Manual => return None;
        case _ =>
      }
      if refund == BLANK { return Some(InvalidReference); }
      status, refundId, attempts, updatedAt := Compensating, refund, 0, now;
      error := None;
    }

    /** Builds the plan and filters it in place. */
    method Pending() returns (pending: seq<Compensation>)
      ensures pending == State().Pending()
    {
      if status != Compensating { return []; }
      var plan := new Compensation[if promoCode != BLANK then 4 else 3](_ => CloseOrder);
      plan[0] := CancelPayment;
      if captured { plan[0] := RefundPayment; }
      plan[1] := ReturnStock;
      if promoCode != BLANK { plan[2] := ReleasePromo; }
      assert plan[..] == State().Plan();
      var kept := KeepUndone(plan, compensated);
      pending := plan[..kept];
    }

    method Compensated(done: Compensation, now: Time)
      modifies this
      ensures State() == old(State()).MarkCompensated(done, now)
    {
      if done !in compensated { compensated := compensated + [done]; }
      updatedAt := now;
      if status == Compensating {
        var pending := Pending();
        if |pending| == 0 { status := SagaStatus.Compensated; }
      }
    }

    method CompensationFailed(maxAttempts: int, now: Time)
      modifies this
      ensures State() == old(State()).MarkCompensationFailed(maxAttempts, now)
    {
      attempts := attempts + 1;
      updatedAt := now;
      if attempts >= maxAttempts { status := Manual; }
    }

    method Resume(now: Time) returns (error: Option<SagaError>)
      modifies this
      ensures Follows(old(State()).Resume(now), old(State()), State(), error)
    {
      if status != Manual { return Some(SagaNotManual); }
      status, attempts, updatedAt := Compensating, 0, now;
      error := None;
    }

    method ChangePayment(id: Reference, now: Time) returns (error: Option<SagaError>)
      modifies this
      ensures Follows(old(State()).ChangePayment(id, now), old(State()), State(), error)
    {
      if status != Running || step != AwaitingPayment { return Some(SagaNotRunning); }
      if id == BLANK { return Some(InvalidReference); }
      paymentId, updatedAt := id, now;
      error := None;
    }
  }
}
