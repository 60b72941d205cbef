/** What holds of a checkout whose handlers do not overlap: one handler at a time works on the order and may stop after
any step, while webhooks, expiry and fulfilment interleave freely. */
module CheckoutAlone {
  import opened Kernel
  import opened Checkout
  import opened CheckoutSafety
  import S = Sagas
  import O = OrderStatuses
  import P = Payments
  import R = Reservations

  datatype Lone = Lone(sh: Shared, current: Pc)

  datatype Turn = Work(input: Input) | Stop | Begin(pc: Pc) | Meanwhile(outside: Outside)

  /** A handler may begin when none is at work. A resumed worker begins on a saga that is committing. */
  predicate MayBegin(sh: Shared, pc: Pc) {
    IsStart(pc) && (pc == AdvLoad ==> sh.saga.Some? && sh.saga.value.Committing())
  }

  ghost function NextTurn(d: Draft, l: Lone, t: Turn): Lone {
    match t
    case Work(i) => var (sh, pc) := Step(d, l.sh, l.current, i); Lone(sh, pc)
    case Stop => l.(current := Done)
    case Begin(pc) => if l.current == Done && MayBegin(l.sh, pc) then l.(current := pc) else l
    case Meanwhile(outside) => l.(sh := StepOutside(l.sh, outside))
  }

  ghost function RunAlone(d: Draft, turns: seq<Turn>): Lone {
    if turns == [] then Lone(EMPTY, PlaceReserve)
      else NextTurn(d, RunAlone(d, turns[..|turns| - 1]), turns[|turns| - 1])
  }

  /** There is no payment, it is over, or a refund has been requested under the saga's own reference. */
  ghost predicate Settled(payments: map<Reference, P.Payment>, id: Reference, refund: Reference) {
    id in payments ==> SettledPayment(payments[id], refund)
  }

  ghost predicate SettledPayment(p: P.Payment, refund: Reference) {
    P.IsTerminal(p.status) || exists r :: r in p.refunds && r.id == refund
  }

  /** What a compensated saga promises: nothing is committed, its payment is settled, its code is free, and its order
      has failed or been cancelled. */
  ghost predicate Undone(sh: Shared) {
    && sh.saga.Some? && sh.order.Some?
    && (forall sku :: sku in sh.lines ==> sh.lines[sku] != R.Committed)
    && Settled(sh.payments, sh.saga.value.paymentId, sh.saga.value.refundId)
    && !sh.redeemed
    && (sh.order.value.status == O.Failed || sh.order.value.status == O.Cancelled)
  }

  // ---------- the invariant ----------

  ghost predicate Lonely(d: Draft, sh: Shared) {
    (d.promo == BLANK ==> !sh.redeemed)
    && (sh.saga.Some? && sh.order.Some? ==> LonelyCase(sh.saga.value, sh.order.value.status, sh.payments, sh.redeemed))
  }

  ghost predicate LonelyCase(s: S.Saga, order: O.OrderStatus, payments: map<Reference, P.Payment>, redeemed: bool) {
    && (s.status == S.Running ==> O.IsOpen(order))
    && (s.status == S.Running && (s.step == S.AwaitingPayment || S.InCommit(s.step)) ==> order == O.AwaitingPayment)
    && (s.HasBegun() ==> O.IsOpen(order) || order == O.Failed || order == O.Cancelled)
    && (s.status == S.Compensating || s.status == S.Manual ==> |s.compensated| < |s.Plan()|)
    && (s.compensated != [] ==> Settled(payments, s.paymentId, s.refundId))
    && (S.ReleasePromo in s.compensated ==> !redeemed)
  }

  predicate AtWork(sh: Shared) {
    sh.saga.Some? && sh.saga.value.status == S.Running
  }

  ghost predicate NextStep(sh: Shared, step: S.Compensation) {
    && sh.saga.Some? && sh.saga.value.status == S.Compensating
    && |sh.saga.value.compensated| < |sh.saga.value.Plan()|
    && step == sh.saga.value.Plan()[|sh.saga.value.compensated|]
  }

  predicate PaysBack(step: S.Compensation) {
    step == S.CancelPayment || step == S.RefundPayment
  }

  ghost predicate Busy(d: Draft, sh: Shared, pc: Pc) {
    match pc
    case PlaceRedeem => AtWork(sh) && d.promo != BLANK
    case PlaceRedeemed => AtWork(sh)
    case PlaceLoad => AtWork(sh)
    case PlaceCreate(_) => AtWork(sh)
    case PlaceAwait(_) => AtWork(sh)
    case AdvLoad => sh.saga.Some? && sh.saga.value.Committing()
    case AdvCommit => sh.saga.Some? && sh.saga.value.Committing()
    case AdvCommitted => sh.saga.Some? && sh.saga.value.Committing()
    case AdvCapture(_) => sh.saga.Some? && sh.saga.value.Committing()
    case AdvCaptured(_) => sh.saga.Some? && sh.saga.value.Committing()
    case AdvComplete => sh.saga.Some? && sh.saga.value.Committing()
    case AbortBegin => AtWork(sh)
    case RunExecute(_, step) => NextStep(sh, step)
    case RunCancel(seen, step) => NextStep(sh, step) && seen.paymentId in sh.payments
    case RunRefund(seen, step) => NextStep(sh, step) && seen.paymentId in sh.payments
    case RunRestore(_, step) => NextStep(sh, step)
    case RunSave(seen, step, ok) =>
      NextStep(sh, step)
      && (ok && PaysBack(step) ==> Settled(sh.payments, seen.paymentId, seen.refundId))
      && (ok && step == S.ReleasePromo ==> !sh.redeemed)
    case _ => true
  }

  /** The part of safety that is needed here. */
  ghost predicate Facts(d: Draft, sh: Shared) {
    sh.saga.Some? ==>
      sh.order.Some? && sh.saga.value.amount == d.total && sh.order.value.total == d.total
      && S.OnPlan(sh.saga.value) && (!sh.saga.value.HasBegun() ==> sh.saga.value.compensated == [])
      && (sh.saga.value.status == S.Completed ==> O.IsPaid(sh.order.value.status))
  }

  lemma SafeHasFacts(d: Draft, sh: Shared)
    requires Safe(d, sh)
    ensures Facts(d, sh)
  {
  }

  /** A refund call that reports success leaves the request on the payment, whether or not the money went back. */
  lemma RefundSettles(p: P.Payment, id: Reference, answer: Answer)
    ensures var (q, ok) := RefundPayment(p, id, answer);
      (ok || SettledPayment(p, id) ==> SettledPayment(q, id))
  {
    hide P.FindRefund, P.Payment.OutstandingRefunds;
    var asked := p.RequestRefund(id, p.Refundable());
    if asked.Ok? {
      var q := asked.value;
      if P.FindRefund(p.refunds, id) < 0 { assert q.refunds[|p.refunds|].id == id; }
      if q.CompleteRefund(id).Ok? { OperationKeepsSettled(q, P.DoComplete(id), id); }
      if q.FailRefund(id).Ok? { OperationKeepsSettled(q, P.DoFailRefund(id), id); }
    }
  }

  lemma OperationKeepsSettled(p: P.Payment, op: P.Operation, refund: Reference)
    requires SettledPayment(p, refund) && P.Perform(p, op).Ok?
    ensures SettledPayment(P.Perform(p, op).value, refund)
  {
    if !P.IsTerminal(p.status) {
      var k :| 0 <= k < |p.refunds| && p.refunds[k].id == refund;
      assert P.Perform(p, op).value.refunds[k].id == refund;
    }
  }

  lemma RecordAlone(d: Draft, sh: Shared, seen: S.Saga, step: S.Compensation, now: Time)
    requires Facts(d, sh) && Expects(d, sh, RunSave(seen, step, true)) && Lonely(d, sh)
      && Busy(d, sh, RunSave(seen, step, true))
    ensures Lonely(d, sh.(saga := Some(sh.saga.value.MarkCompensated(step, now))))
  {
    var saga := sh.saga.value;
    S.MarkKeepsPlan(saga, |saga.compensated|, now);
    var next := saga.MarkCompensated(step, now);
    assert next.compensated == saga.compensated + [step];
  }

  lemma AbortBeginAlone(d: Draft, sh: Shared, i: Input)
    requires Facts(d, sh) && Expects(d, sh, AbortBegin) && Lonely(d, sh) && Busy(d, sh, AbortBegin)
    ensures var (b, next) := StepCompensate(d, sh, AbortBegin, i); Lonely(d, b) && Busy(d, b, next)
  {
  }

  lemma RunLoadAlone(d: Draft, sh: Shared, i: Input)
    requires Facts(d, sh) && Expects(d, sh, RunLoad) && Lonely(d, sh) && Busy(d, sh, RunLoad)
    ensures var (b, next) := StepCompensate(d, sh, RunLoad, i); Lonely(d, b) && Busy(d, b, next)
  {
    if sh.saga.Some? && sh.saga.value.Pending() != [] { S.PendingIsRestOfPlan(sh.saga.value); }
  }

  lemma RunExecuteAlone(d: Draft, sh: Shared, seen: S.Saga, step: S.Compensation, i: Input)
    requires Facts(d, sh) && Expects(d, sh, RunExecute(seen, step)) && Lonely(d, sh)
      && Busy(d, sh, RunExecute(seen, step))
    ensures var (b, next) := StepCompensate(d, sh, RunExecute(seen, step), i); Lonely(d, b) && Busy(d, b, next)
  {
    hide Facts, Expects, Lonely, Busy, StepCompensate;
    if step == S.ReturnStock { ReturnStockAlone(d, sh, seen, i); }
    else if step == S.CloseOrder { CloseOrderAlone(d, sh, seen, i); }
    else { OtherStepAlone(d, sh, seen, step, i); }
  }

  lemma ReturnStockAlone(d: Draft, sh: Shared, seen: S.Saga, i: Input)
    requires Facts(d, sh) && Expects(d, sh, RunExecute(seen, S.ReturnStock)) && Lonely(d, sh)
      && Busy(d, sh, RunExecute(seen, S.ReturnStock))
    ensures var (b, next) := StepCompensate(d, sh, RunExecute(seen, S.ReturnStock), i); Lonely(d, b) && Busy(d, b, next)
  {
  }

  lemma CloseOrderAlone(d: Draft, sh: Shared, seen: S.Saga, i: Input)
    requires Facts(d, sh) && Expects(d, sh, RunExecute(seen, S.CloseOrder)) && Lonely(d, sh)
      && Busy(d, sh, RunExecute(seen, S.CloseOrder))
    ensures var (b, next) := StepCompensate(d, sh, RunExecute(seen, S.CloseOrder), i); Lonely(d, b) && Busy(d, b, next)
  {
  }

  lemma OtherStepAlone(d: Draft, sh: Shared, seen: S.Saga, step: S.Compensation, i: Input)
    requires step != S.ReturnStock && step != S.CloseOrder
    requires Facts(d, sh) && Expects(d, sh, RunExecute(seen, step)) && Lonely(d, sh)
      && Busy(d, sh, RunExecute(seen, step))
    ensures var (b, next) := StepCompensate(d, sh, RunExecute(seen, step), i); Lonely(d, b) && Busy(d, b, next)
  {
  }

  lemma RunCancelAlone(d: Draft, sh: Shared, seen: S.Saga, step: S.Compensation, i: Input)
    requires Facts(d, sh) && Expects(d, sh, RunCancel(seen, step)) && Lonely(d, sh)
      && Busy(d, sh, RunCancel(seen, step))
    ensures var (b, next) := StepCompensate(d, sh, RunCancel(seen, step), i); Lonely(d, b) && Busy(d, b, next)
  {
  }

  lemma RunRefundAlone(d: Draft, sh: Shared, seen: S.Saga, step: S.Compensation, i: Input)
    requires Facts(d, sh) && Expects(d, sh, RunRefund(seen, step)) && Lonely(d, sh)
      && Busy(d, sh, RunRefund(seen, step))
    ensures var (b, next) := StepCompensate(d, sh, RunRefund(seen, step), i); Lonely(d, b) && Busy(d, b, next)
  {
    RefundSettles(sh.payments[seen.paymentId], seen.refundId, i.answer);
  }

  lemma RunRestoreAlone(d: Draft, sh: Shared, seen: S.Saga, step: S.Compensation, i: Input)
    requires Facts(d, sh) && Expects(d, sh, RunRestore(seen, step)) && Lonely(d, sh)
      && Busy(d, sh, RunRestore(seen, step))
    ensures var (b, next) := StepCompensate(d, sh, RunRestore(seen, step), i); Lonely(d, b) && Busy(d, b, next)
  {
  }

  lemma RunSaveAlone(d: Draft, sh: Shared, seen: S.Saga, step: S.Compensation, ok: bool, i: Input)
    requires Facts(d, sh) && Expects(d, sh, RunSave(seen, step, ok)) && Lonely(d, sh)
      && Busy(d, sh, RunSave(seen, step, ok))
    ensures var (b, next) := StepCompensate(d, sh, RunSave(seen, step, ok), i); Lonely(d, b) && Busy(d, b, next)
  {
    var saga := sh.saga.value;
    S.MarkKeepsPlan(saga, |saga.compensated|, i.now);
    if ok { RecordAlone(d, sh, seen, step, i.now); }
  }

  ghost predicate Fine(d: Draft, l: Lone) {
    Safe(d, l.sh) && Expects(d, l.sh, l.current) && Lonely(d, l.sh) && Busy(d, l.sh, l.current)
  }

  lemma PlaceAlone(d: Draft, sh: Shared, pc: Pc, i: Input)
    requires InPlace(pc) && Facts(d, sh) && Expects(d, sh, pc) && Lonely(d, sh) && Busy(d, sh, pc)
    ensures var (b, next) := StepPlace(d, sh, pc, i); Lonely(d, b) && Busy(d, b, next)
  {
    hide SettledPayment, CreatePayment, R.Resolve;
  }

  /** Cancelling a payment, whichever it is. */
  lemma StrayAlone(d: Draft, sh: Shared, id: Reference, answer: Answer)
    requires Facts(d, sh) && Lonely(d, sh)
    ensures var b := CallCancel(sh, id, answer).0;
      && b == sh.(payments := b.payments) && Lonely(d, b)
  {
    if id in sh.payments && sh.payments[id].Cancel().Ok? && sh.saga.Some? {
      var refund := sh.saga.value.refundId;
      if SettledPayment(sh.payments[id], refund) { OperationKeepsSettled(sh.payments[id], P.DoCancel, refund); }
    }
  }

  lemma AuthorizedAlone(d: Draft, sh: Shared, pc: Pc, i: Input)
    requires pc.AuthBegin? || pc.AuthStray? || pc.AdvLoad?
    requires Facts(d, sh) && Expects(d, sh, pc) && Lonely(d, sh) && Busy(d, sh, pc)
    ensures var (b, next) := StepForward(d, sh, pc, i); Lonely(d, b) && Busy(d, b, next)
  {
    hide SettledPayment, CallCancel, R.Resolve, P.Payment.Capture;
    if pc.AuthStray? { StrayAlone(d, sh, pc.paymentId, i.answer); }
  }

  lemma AdvanceAlone(d: Draft, sh: Shared, pc: Pc, i: Input)
    requires InForward(pc) && !pc.AuthBegin? && !pc.AuthStray? && !pc.AdvLoad?
    requires Facts(d, sh) && Expects(d, sh, pc) && Lonely(d, sh) && Busy(d, sh, pc)
    ensures var (b, next) := StepForward(d, sh, pc, i); Lonely(d, b) && Busy(d, b, next)
  {
    hide SettledPayment, CallCancel, R.Resolve, P.Payment.Capture;
  }

  lemma ForwardAlone(d: Draft, sh: Shared, pc: Pc, i: Input)
    requires InForward(pc) && Facts(d, sh) && Expects(d, sh, pc) && Lonely(d, sh) && Busy(d, sh, pc)
    ensures var (b, next) := StepForward(d, sh, pc, i); Lonely(d, b) && Busy(d, b, next)
  {
    hide Facts, Lonely, Busy, Expects, StepForward;
    match pc
    case AuthBegin(_) => AuthorizedAlone(d, sh, pc, i);
    case AuthStray(_) => AuthorizedAlone(d, sh, pc, i);
    case AdvLoad => AuthorizedAlone(d, sh, pc, i);
    case _ => AdvanceAlone(d, sh, pc, i);
  }

  lemma CompensateAlone(d: Draft, sh: Shared, pc: Pc, i: Input)
    requires InCompensate(pc) && Facts(d, sh) && Expects(d, sh, pc) && Lonely(d, sh) && Busy(d, sh, pc)
    ensures var (b, next) := StepCompensate(d, sh, pc, i); Lonely(d, b) && Busy(d, b, next)
  {
    hide Facts, Lonely, Busy, Expects, StepCompensate;
    match pc
    case AbortBegin => AbortBeginAlone(d, sh, i);
    case RunLoad => RunLoadAlone(d, sh, i);
    case RunExecute(seen, step) => RunExecuteAlone(d, sh, seen, step, i);
    case RunCancel(seen, step) => RunCancelAlone(d, sh, seen, step, i);
    case RunRefund(seen, step) => RunRefundAlone(d, sh, seen, step, i);
    case RunRestore(seen, step) => RunRestoreAlone(d, sh, seen, step, i);
    case RunSave(seen, step, ok) => RunSaveAlone(d, sh, seen, step, ok, i);
  }

  lemma BeginAlone(d: Draft, sh: Shared, pc: Pc, i: Input)
    requires pc.CancelBegin? || pc.ExpireBegin? || pc.ResumeBegin?
    requires Facts(d, sh) && Expects(d, sh, pc) && Lonely(d, sh) && Busy(d, sh, pc)
    ensures var (b, next) := StepAside(d, sh, pc, i); Lonely(d, b) && Busy(d, b, next)
  {
    hide SettledPayment, CallCancel, CreatePayment;
  }

  lemma RetryAlone(d: Draft, sh: Shared, pc: Pc, i: Input)
    requires pc.RetryLoad? || pc.RetryInfo? || pc.RetryCreate? || pc.RetryChange? || pc.RetryUndo?
    requires Facts(d, sh) && Expects(d, sh, pc) && Lonely(d, sh) && Busy(d, sh, pc)
    ensures var (b, next) := StepAside(d, sh, pc, i); Lonely(d, b) && Busy(d, b, next)
  {
    hide SettledPayment, CallCancel, CreatePayment;
    if pc.RetryUndo? { StrayAlone(d, sh, pc.paymentId, i.answer); }
    if pc.RetryCreate? { CreateIsSafe(d, sh.payments, i.drawn, i.answer); }
  }

  lemma AsideAlone(d: Draft, sh: Shared, pc: Pc, i: Input)
    requires pc != Done && !InPlace(pc) && !InForward(pc) && !InCompensate(pc)
    requires Facts(d, sh) && Expects(d, sh, pc) && Lonely(d, sh) && Busy(d, sh, pc)
    ensures var (b, next) := StepAside(d, sh, pc, i); Lonely(d, b) && Busy(d, b, next)
  {
    hide Facts, Lonely, Busy, Expects, StepAside;
    if pc.CancelBegin? || pc.ExpireBegin? || pc.ResumeBegin? {
      BeginAlone(d, sh, pc, i);
    } else {
      RetryAlone(d, sh, pc, i);
    }
  }

  lemma OutsideAlone(d: Draft, sh: Shared, pc: Pc, e: Outside)
    requires Facts(d, sh) && Lonely(d, sh) && Busy(d, sh, pc)
    ensures var b := StepOutside(sh, e); Lonely(d, b) && Busy(d, b, pc)
  {
    match e
    case PaymentEvent(id, op) => WebhookAlone(d, sh, pc, id, op);
    case LinesExpire(_) =>
    case Ship(actor) => FulfilAlone(d, sh, pc, O.DoShipped(actor));
    case Deliver(actor) => FulfilAlone(d, sh, pc, O.DoDelivered(actor));
    case CompleteOrder => FulfilAlone(d, sh, pc, O.DoComplete);
  }

  lemma WebhookAlone(d: Draft, sh: Shared, pc: Pc, id: Reference, op: P.Operation)
    requires Lonely(d, sh) && Busy(d, sh, pc)
    ensures var b := StepOutside(sh, PaymentEvent(id, op)); Lonely(d, b) && Busy(d, b, pc)
  {
    var b := StepOutside(sh, PaymentEvent(id, op));
    forall k, refund | Settled(sh.payments, k, refund) ensures Settled(b.payments, k, refund) {
      if k == id && id in sh.payments && P.Perform(sh.payments[id], op).Ok? {
        OperationKeepsSettled(sh.payments[id], op, refund);
      }
    }
  }

  lemma FulfilAlone(d: Draft, sh: Shared, pc: Pc, c: O.HeadChange)
    requires c.DoShipped? || c.DoDelivered? || c.DoComplete?
    requires Lonely(d, sh) && Busy(d, sh, pc)
    ensures var b := Fulfil(sh, c); Lonely(d, b) && Busy(d, b, pc)
  {
    if sh.order.Some? { FulfilmentKeepsPhase(sh.order.value, c); }
  }

  lemma TurnIsFine(d: Draft, l: Lone, t: Turn)
    requires Fine(d, l)
    ensures Fine(d, NextTurn(d, l, t))
  {
    hide Safe, Later, LeavesPlacing, Expects, Lonely, Busy, Facts, StepPlace, StepForward, StepCompensate, StepAside,
      StepOutside;
    SafeHasFacts(d, l.sh);
    match t
    case Work(i) =>
      StepIsSound(d, l.sh, l.current, i);
      if l.current != Done {
        if InPlace(l.current) { PlaceAlone(d, l.sh, l.current, i); }
        else if InForward(l.current) { ForwardAlone(d, l.sh, l.current, i); }
        else if InCompensate(l.current) { CompensateAlone(d, l.sh, l.current, i); }
        else { AsideAlone(d, l.sh, l.current, i); }
      }
    case Stop => IdleIsFine(d, l.sh);
    case Begin(pc) => if MayBegin(l.sh, pc) { BeginningIsFine(d, l.sh, pc); }
    case Meanwhile(outside) =>
      OutsideIsSafe(d, l.sh, outside);
      ExpectationsLast(d, l.sh, StepOutside(l.sh, outside), l.current);
      OutsideAlone(d, l.sh, l.current, outside);
  }

  lemma IdleIsFine(d: Draft, sh: Shared)
    ensures Expects(d, sh, Done) && Busy(d, sh, Done)
  {
  }

  lemma BeginningIsFine(d: Draft, sh: Shared, pc: Pc)
    requires MayBegin(sh, pc)
    ensures Expects(d, sh, pc) && Busy(d, sh, pc)
  {
  }

  lemma {:induction false} RunsAloneAreFine(d: Draft, turns: seq<Turn>)
    ensures Fine(d, RunAlone(d, turns))
  {
    if turns != [] {
      RunsAloneAreFine(d, turns[..|turns| - 1]);
      TurnIsFine(d, RunAlone(d, turns[..|turns| - 1]), turns[|turns| - 1]);
    }
  }

  // ---------- the results ----------

  /** In every run without overlap a compensated saga keeps all of its promise; `CheckoutUndoing` says exactly when it
      does with overlap. */
  lemma CompensatedIsUndone(d: Draft, turns: seq<Turn>)
    ensures var sh := RunAlone(d, turns).sh;
      sh.saga.Some? && sh.saga.value.status == S.Compensated ==> Undone(sh)
  {
    RunsAloneAreFine(d, turns);
    var sh := RunAlone(d, turns).sh;
    if sh.saga.Some? && sh.saga.value.status == S.Compensated {
      var plan := sh.saga.value.Plan();
      assert plan[1] == S.ReturnStock && plan[|plan| - 1] == S.CloseOrder;
      if d.promo != BLANK { assert plan[2] == S.ReleasePromo; }
      R.DeadIsNotCommitted(sh.lines);
    }
  }

  /** Without overlap a saga that is compensating, or waits for support, always has a step left to do. */
  lemma CompensatingHasWork(d: Draft, turns: seq<Turn>)
    ensures var sh := RunAlone(d, turns).sh;
      sh.saga.Some? && (sh.saga.value.status == S.Compensating || sh.saga.value.status == S.Manual) ==>
        |S.Without(sh.saga.value.Plan(), sh.saga.value.compensated)| >= 1
  {
    RunsAloneAreFine(d, turns);
    var sh := RunAlone(d, turns).sh;
    if sh.saga.Some? { S.PendingIsRestOfPlan(sh.saga.value); }
  }
}
