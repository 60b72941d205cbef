/** Runs with overlapping handlers that break what `CheckoutAlone` proves without overlap, for every order. */
module CheckoutOverlaps {
  import opened Kernel
  import opened Checkout
  import opened CheckoutSafety
  import opened CheckoutAlone
  import opened CheckoutRounds
  import S = Sagas
  import O = OrderStatuses
  import P = Payments
  import R = Reservations

  const PAYMENT: Reference := 11
  const REFUND: Reference := 12

  // ---------- placing the order ----------

  /** An order that has lines and costs something. */
  predicate Placeable(d: Draft) {
    d.skus != {} && d.total.amount > 0 && d.reservation != BLANK
  }

  function HeldLines(d: Draft): R.Lines { map sku | sku in d.skus :: R.Held }

  function FreshSaga(d: Draft): S.Saga {
    S.Saga(d.reservation, PAYMENT, BLANK, d.promo, d.total, S.Running, S.StockReserved, false, [], 0,
      d.deadline, NO_TIME)
  }

  function FreshState(d: Draft): Shared {
    Shared(Some(FreshSaga(d)), Some(O.OrderHead(O.Created, d.total, BLANK, [])), HeldLines(d), map[], false, {}, {})
  }

  /** The order has just been saved. */
  lemma Saved(d: Draft) returns (r: Reached)
    requires Placeable(d)
    ensures IsRun(d, r) && r.world == World(FreshState(d), if d.promo != BLANK then PlaceRedeem else PlaceLoad, map[])
  {
    hide StepForward, StepCompensate, StepAside;
    r := Reached([], FIRST);
    r := Place(d, r, Yes());
    r := Place(d, r, Draw(PAYMENT));
  }

  /** A code has been redeemed. */
  function ReadyState(d: Draft): Shared {
    var redeemed := d.promo != BLANK;
    FreshState(d).(saga := Some(FreshSaga(d).(step := if redeemed then S.PromoRedeemed else S.StockReserved)),
      redeemed := redeemed)
  }

  /** The payment is about to be created. */
  lemma AtCreate(d: Draft) returns (r: Reached)
    requires Placeable(d)
    ensures IsRun(d, r) && r.world == World(ReadyState(d), PlaceCreate(PAYMENT), map[])
  {
    hide StepForward, StepCompensate, StepAside;
    r := Saved(d);
    if d.promo != BLANK {
      r := Place(d, r, Yes());
      r := Place(d, r, Yes());
    }
    r := Place(d, r, Yes());
  }

  /** The buyer cancels while the order is still being placed. */
  lemma BuyerCancels(d: Draft, r: Reached) returns (q: Reached, h: nat)
    requires IsRun(d, r) && r.world.sh.saga.Some? && r.world.sh.order.Some?
    requires r.world.sh.saga.value.status == S.Running && !r.world.sh.saga.value.Committing()
    requires r.world.sh.order.value.status == O.Created
    ensures GoesOn(d, r, q) && q.world.place == r.world.place && h in q.world.handlers && q.world.handlers[h] == RunLoad
    ensures q.world.sh.order.Some? && q.world.sh.order.value.status == O.Cancelled
    ensures var s := r.world.sh.saga.value;
      q.world.sh == r.world.sh.(order := q.world.sh.order,
                                saga := Some(s.(status := S.Compensating, refundId := REFUND, attempts := 0,
                                  updatedAt := NO_TIME)))
  {
    hide Step, Run;
    q, h := Launch(d, r, CancelBegin(O.Buyer));
    CancelCreated(d, r.world.sh);
    q := Handle(d, q, h, Draw(REFUND));
  }

  lemma CancelCreated(d: Draft, sh: Shared)
    requires sh.saga.Some? && sh.saga.value.status == S.Running && !sh.saga.value.Committing()
    requires sh.order.Some? && sh.order.value.status == O.Created
    ensures var (b, pc) := Step(d, sh, CancelBegin(O.Buyer), Draw(REFUND));
      var s := sh.saga.value.(status := S.Compensating, refundId := REFUND, attempts := 0, updatedAt := NO_TIME);
      b == sh.(order := b.order, saga := Some(s)) && b.order.Some? && b.order.value.status == O.Cancelled
        && pc == RunLoad
  {
    hide StepForward, StepPlace, StepCompensate;
  }

  // ---------- what overlap breaks ----------

  /** The promo is redeemed after the compensator has released it: the saga is compensated and the code stays used
      up. */
  lemma PromoRedeemedAfterRelease(d: Draft) returns (r: Reached)
    requires Placeable(d) && d.promo != BLANK
    ensures IsRun(d, r)
    ensures var sh := r.world.sh; sh.saga.Some? && sh.saga.value.status == S.Compensated && sh.redeemed
  {
    hide StepForward, StepCompensate, StepAside;
    var h: nat;
    r := Saved(d);
    r, h := BuyerCancels(d, r);
    r := Finish(d, r, h);
    r := Place(d, r, Yes());
  }

  /** The payment is created after the compensator has found none: the buyer authorizes it and nothing ever cancels or
      refunds it, although the saga is compensated. */
  lemma PaymentCreatedAfterSettlement(d: Draft) returns (r: Reached)
    requires Placeable(d)
    ensures IsRun(d, r)
    ensures var sh := r.world.sh;
      && sh.saga.Some? && sh.saga.value.status == S.Compensated
      && sh.saga.value.paymentId in sh.payments && sh.payments[sh.saga.value.paymentId].status == P.Authorized
      && !Settled(sh.payments, sh.saga.value.paymentId, sh.saga.value.refundId)
  {
    hide Step, Run;
    var h: nat;
    r := AtCreate(d);
    r, h := BuyerCancels(d, r);
    r := Finish(d, r, h);
    CreatesPayment(d, r.world.sh);
    r := Place(d, r, Yes());
    AuthorizePending(d, r.world.sh);
    hide StepOutside, Finished, Settled;
    r := Happen(d, r, ByOutside(PaymentEvent(PAYMENT, P.DoAuthorize(d.total))));
  }

  lemma AuthorizePending(d: Draft, sh: Shared)
    requires Placeable(d) && PAYMENT in sh.payments && sh.payments[PAYMENT] == PaymentAt(d, P.Pending)
    ensures StepOutside(sh, PaymentEvent(PAYMENT, P.DoAuthorize(d.total)))
         == sh.(payments := sh.payments[PAYMENT := PaymentAt(d, P.Authorized)])
    ensures !Settled(sh.payments[PAYMENT := PaymentAt(d, P.Authorized)], PAYMENT, REFUND)
  {
  }

  function PaymentAt(d: Draft, status: P.PaymentStatus): P.Payment {
    var zero := Money(0, d.total.currency);
    P.Payment(status, PAYMENT, d.total, if status == P.Pending then zero else d.total,
              if status == P.Captured then d.total else zero, zero, [])
  }

  lemma CreatesPayment(d: Draft, sh: Shared)
    requires Placeable(d) && PAYMENT !in sh.payments
    ensures Step(d, sh, PlaceCreate(PAYMENT), Yes())
         == (sh.(payments := sh.payments[PAYMENT := PaymentAt(d, P.Pending)]), PlaceAwait(PAYMENT))
  {
    hide StepForward, StepCompensate, StepAside;
  }

  // ---------- a failure report that comes late ----------

  /** Handler `h` loads the saga, and its call fails. */
  lemma FailsCall(d: Draft, r: Reached, h: nat) returns (q: Reached)
    requires IsRun(d, r) && h in r.world.handlers && r.world.handlers[h] == RunLoad && InRound(r.world.sh)
    ensures GoesOn(d, r, q)
    ensures var a := r.world.sh;
      q.world == World(a, r.world.place, r.world.handlers[h := RunSave(a.saga.value, RoundStep(a), false)])
  {
    hide StepPlace, StepForward, StepAside, Execute;
    LoadRound(d, r.world.sh, Broken());
    q := Handle(d, r, h, Broken());
    q := Handle(d, q, h, Broken());
  }

  lemma ReportsFailure(d: Draft, r: Reached, h: nat) returns (q: Reached)
    requires IsRun(d, r) && h in r.world.handlers && r.world.handlers[h].RunSave? && !r.world.handlers[h].ok
    requires r.world.sh.saga.Some?
    ensures GoesOn(d, r, q)
    ensures q.world == World(r.world.sh.(saga :=
      Some(r.world.sh.saga.value.MarkCompensationFailed(d.maxAttempts, NO_TIME))),
                             r.world.place, r.world.handlers[h := Done])
  {
    hide StepPlace, StepForward, StepAside;
    q := Handle(d, r, h, Yes());
  }

  /** `n` attempts fail, one handler after the other, and leave the saga one short of the limit or further away. */
  lemma {:induction false} AttemptsFail(d: Draft, r: Reached, n: nat) returns (q: Reached)
    requires IsRun(d, r) && InRound(r.world.sh) && r.world.sh.saga.value.attempts + n < d.maxAttempts
    ensures GoesOn(d, r, q) && q.world.place == r.world.place
    ensures forall k :: k in r.world.handlers ==> k in q.world.handlers && q.world.handlers[k] == r.world.handlers[k]
    ensures var s := r.world.sh.saga.value;
      q.world.sh.saga.Some?
      && q.world.sh == r.world.sh.(saga :=
        Some(s.(attempts := s.attempts + n, updatedAt := q.world.sh.saga.value.updatedAt)))
    decreases n
  {
    hide Step, Run;
    q := r;
    if n > 0 {
      var h: nat;
      q, h := Launch(d, q, RunLoad);
      q := FailsCall(d, q, h);
      q := ReportsFailure(d, q, h);
      q := AttemptsFail(d, q, n - 1);
    }
  }

  /** A compensator that reports a failure after another one has finished sends the closed saga to support, and resuming
      it leaves it compensating with nothing left to do; whatever the limit of attempts is. */
  lemma LateFailureStrandsSaga(d: Draft) returns (r: Reached)
    requires Placeable(d)
    ensures IsRun(d, r)
    ensures var sh := r.world.sh;
      sh.saga.Some? && sh.saga.value.status == S.Compensating && sh.saga.value.Pending() == []
  {
    hide Step, Run, S.Saga.Pending;
    var first: nat, late: nat, support: nat;
    r := Saved(d);
    r, first := BuyerCancels(d, r);
    if d.maxAttempts > 1 { r := AttemptsFail(d, r, d.maxAttempts - 1); }
    r, late := Launch(d, r, RunLoad);
    r := FailsCall(d, r, late);
    r := Finish(d, r, first);
    r := ReportsFailure(d, r, late);
    r, support := Launch(d, r, ResumeBegin);
    var s := r.world.sh.saga.value;
    assert s.status == S.Manual && s.compensated == s.Plan();
    r := Resumes(d, r, support);
    NothingPending(r.world.sh.saga.value);
  }

  lemma NothingPending(s: S.Saga)
    requires s.compensated == s.Plan()
    ensures s.Pending() == []
  {
    S.NothingLeft(s.Plan(), s.Plan());
  }

  lemma Resumes(d: Draft, r: Reached, h: nat) returns (q: Reached)
    requires IsRun(d, r) && h in r.world.handlers && r.world.handlers[h] == ResumeBegin
    requires r.world.sh.saga.Some? && r.world.sh.saga.value.status == S.Manual && r.world.sh.order.Some?
    ensures GoesOn(d, r, q)
    ensures q.world.sh == r.world.sh.(saga :=
      Some(r.world.sh.saga.value.(status := S.Compensating, attempts := 0, updatedAt := NO_TIME)))
  {
    hide StepPlace, StepForward, StepCompensate;
    q := Handle(d, r, h, Yes());
  }

  // ---------- a stale worker undoes a shipped order ----------

  const AWAITED: seq<O.StatusChange> := [O.StatusChange(O.Created, O.AwaitingPayment, O.System)]

  function AwaitingState(d: Draft, status: P.PaymentStatus): Shared {
    ReadyState(d).(saga := Some(FreshSaga(d).(step := S.AwaitingPayment)),
                   order := Some(O.OrderHead(O.AwaitingPayment, d.total, PAYMENT, AWAITED)),
                   payments := map[PAYMENT := PaymentAt(d, status)])
  }

  lemma Awaiting(d: Draft) returns (r: Reached)
    requires Placeable(d)
    ensures IsRun(d, r) && r.world == World(AwaitingState(d, P.Pending), Done, map[])
  {
    hide StepForward, StepCompensate, StepAside;
    assert [] + AWAITED == AWAITED;
    r := AtCreate(d);
    CreatesPayment(d, r.world.sh);
    r := Place(d, r, Yes());
    r := Place(d, r, Yes());
  }

  function CommittedState(d: Draft): Shared {
    var a := AwaitingState(d, P.Authorized);
    a.(saga := Some(a.saga.value.(step := S.StockCommitted)), lines := R.Become(HeldLines(d), R.Committed),
      accepted := {PAYMENT})
  }

  lemma StockGetsCommitted(d: Draft) returns (r: Reached, h: nat)
    requires Placeable(d)
    ensures IsRun(d, r) && h in r.world.handlers && r.world.handlers[h] == AdvCapture(CommittedState(d).saga.value)
    ensures r.world.sh == CommittedState(d)
  {
    hide StepPlace, StepCompensate, StepAside, Run;
    r := Awaiting(d);
    r := Happen(d, r, ByOutside(PaymentEvent(PAYMENT, P.DoAuthorize(d.total))));
    assert r.world.sh == AwaitingState(d, P.Authorized);
    r, h := Launch(d, r, AuthBegin(PAYMENT));
    r := Handle(d, r, h, Yes());
    r := CommitLines(d, r, h);
  }

  lemma CommitLines(d: Draft, r: Reached, h: nat) returns (q: Reached)
    requires Placeable(d) && IsRun(d, r) && h in r.world.handlers && r.world.handlers[h] == AdvLoad
    requires var a := AwaitingState(d, P.Authorized);
      r.world.sh == a.(saga := Some(a.saga.value.(step := S.CommittingStock)), accepted := {PAYMENT})
    ensures GoesOn(d, r, q) && h in q.world.handlers && q.world.handlers[h] == AdvCapture(CommittedState(d).saga.value)
    ensures q.world.sh == CommittedState(d)
  {
    hide Step, Run;
    var a := r.world.sh;
    LoadForward(d, a);
    q := Handle(d, r, h, Yes());
    CommitHeld(d, a);
    q := Handle(d, q, h, Yes());
    NoteStock(d, a.(lines := R.Become(HeldLines(d), R.Committed)));
    q := Handle(d, q, h, Yes());
  }

  lemma LoadForward(d: Draft, sh: Shared)
    requires sh.saga.Some?
    ensures Step(d, sh, AdvLoad, Yes()) == (sh, Continue(sh.saga.value))
  {
    hide StepPlace, StepCompensate, StepAside;
  }

  lemma CommitHeld(d: Draft, sh: Shared)
    requires Placeable(d) && sh.lines == HeldLines(d)
    ensures Step(d, sh, AdvCommit, Yes()) == (sh.(lines := R.Become(HeldLines(d), R.Committed)), AdvCommitted)
  {
    hide StepPlace, StepCompensate, StepAside;
    var sku :| sku in d.skus;
    assert sku in sh.lines;
  }

  lemma NoteStock(d: Draft, sh: Shared)
    requires sh.saga.Some? && sh.saga.value.status == S.Running && sh.saga.value.step == S.CommittingStock
    ensures var saga := sh.saga.value.(step := S.StockCommitted, updatedAt := NO_TIME);
      Step(d, sh, AdvCommitted, Yes()) == (sh.(saga := Some(saga)), AdvCapture(saga))
  {
    hide StepPlace, StepCompensate, StepAside;
  }

  function CapturedState(d: Draft): Shared {
    var a := CommittedState(d);
    a.(saga := Some(a.saga.value.(step := S.PaymentCaptured, captured := true)),
       payments := map[PAYMENT := PaymentAt(d, P.Captured)], captures := {PAYMENT})
  }

  /** Two workers stand before completing the same checkout. */
  lemma BothAtCompletion(d: Draft) returns (r: Reached, one: nat, two: nat)
    requires Placeable(d)
    ensures IsRun(d, r) && r.world.sh == CapturedState(d) && one != two
    ensures one in r.world.handlers && r.world.handlers[one] == AdvComplete
    ensures two in r.world.handlers && r.world.handlers[two] == AdvComplete
  {
    hide Step, Run;
    r, one := StockGetsCommitted(d);
    CaptureAuthorized(d);
    r := Handle(d, r, one, Yes());
    NoteCapture(d, CaptureTaken(d));
    r := Handle(d, r, one, Yes());
    r, two := Launch(d, r, AdvLoad);
    LoadForward(d, CapturedState(d));
    r := Handle(d, r, two, Yes());
  }

  function CaptureTaken(d: Draft): Shared {
    CommittedState(d).(payments := map[PAYMENT := PaymentAt(d, P.Captured)], captures := {PAYMENT})
  }

  lemma CaptureAuthorized(d: Draft)
    requires Placeable(d)
    ensures var a := CommittedState(d);
      Step(d, a, AdvCapture(a.saga.value), Yes()) == (CaptureTaken(d), AdvCaptured(a.saga.value))
  {
    hide StepPlace, StepCompensate, StepAside;
    var a := CommittedState(d);
    assert PaymentAt(d, P.Authorized).Capture(d.total) == Ok(PaymentAt(d, P.Captured));
    assert a.payments[PAYMENT := PaymentAt(d, P.Captured)] == map[PAYMENT := PaymentAt(d, P.Captured)];
    assert a.captures + {PAYMENT} == {PAYMENT};
  }

  lemma NoteCapture(d: Draft, sh: Shared)
    requires sh.saga.Some? && sh.saga.value.status == S.Running && sh.saga.value.step == S.StockCommitted
    ensures var saga := sh.saga.value.(step := S.PaymentCaptured, captured := true, updatedAt := NO_TIME);
      Step(d, sh, AdvCaptured(CommittedState(d).saga.value), Yes()) == (sh.(saga := Some(saga)), AdvComplete)
  {
    hide StepPlace, StepCompensate, StepAside;
  }

  const PAID: seq<O.StatusChange> := AWAITED + [O.StatusChange(O.AwaitingPayment, O.Paid, O.System)]

  function CompletedState(d: Draft): Shared {
    var a := CapturedState(d);
    a.(saga := Some(a.saga.value.(status := S.Completed, step := S.CheckoutCompleted)),
       order := Some(O.OrderHead(O.Paid, d.total, PAYMENT, PAID)))
  }

  lemma CompleteCaptured(d: Draft)
    ensures Step(d, CapturedState(d), AdvComplete, Yes()) == (CompletedState(d), Done)
  {
    hide StepPlace, StepCompensate, StepAside;
  }

  lemma ShipPaid(sh: Shared)
    requires sh.order.Some? && sh.order.value.status == O.Paid
    ensures var b := StepOutside(sh, Ship(O.Seller));
      b == sh.(order := b.order) && b.order.Some? && b.order.value.status == O.Shipped
  {
  }

  /** Completing again is refused, as the order is past being paid, and the worker takes that for a reason to abort. */
  lemma CompleteShipped(d: Draft, sh: Shared)
    requires sh.saga.Some? && sh.order.Some? && sh.order.value.status == O.Shipped
    ensures Step(d, sh, AdvComplete, Yes()) == (sh, AbortBegin)
  {
    hide StepPlace, StepCompensate, StepAside;
  }

  lemma AbortCompleted(d: Draft, sh: Shared)
    requires sh.saga.Some? && sh.saga.value.status == S.Completed
    ensures var s := sh.saga.value.(status := S.Compensating, refundId := REFUND, attempts := 0, updatedAt := NO_TIME);
      Step(d, sh, AbortBegin, Draw(REFUND)) == (sh.(saga := Some(s)), RunLoad)
  {
    hide StepPlace, StepAside, StepForward;
  }

  /** One worker completes the checkout, the order ships, and a stale worker aborts the completed saga. */
  lemma StaleWorkerAborts(d: Draft) returns (r: Reached, h: nat)
    requires Placeable(d)
    ensures IsRun(d, r) && h in r.world.handlers && r.world.handlers[h] == RunLoad
    ensures var a := CompletedState(d);
      && r.world.sh == a.(saga := Some(a.saga.value.(status := S.Compensating, refundId := REFUND)),
        order := r.world.sh.order)
      && r.world.sh.order.Some? && r.world.sh.order.value.status == O.Shipped
  {
    hide Step, StepOutside, Run;
    var worker: nat;
    r, worker, h := BothAtCompletion(d);
    CompleteCaptured(d);
    r := Handle(d, r, worker, Yes());
    ShipPaid(r.world.sh);
    r := Happen(d, r, ByOutside(Ship(O.Seller)));
    CompleteShipped(d, r.world.sh);
    r := Handle(d, r, h, Yes());
    AbortCompleted(d, r.world.sh);
    r := Handle(d, r, h, Draw(REFUND));
  }

  /** A shipped order is refunded in full and its stock put back on sale. */
  lemma ShippedOrderIsUndone(d: Draft) returns (r: Reached)
    requires Placeable(d)
    ensures IsRun(d, r)
    ensures var sh := r.world.sh;
      && sh.saga.Some? && sh.saga.value.status == S.Compensated
      && sh.order.Some? && sh.order.value.status == O.Shipped
      && PAYMENT in sh.payments && sh.payments[PAYMENT].status == P.PaymentStatus.Refunded
        && sh.payments[PAYMENT].refunded == d.total
      && (forall sku :: sku in d.skus ==> sku in sh.lines && sh.lines[sku] == R.Restored)
  {
    hide Step, Run;
    var h: nat;
    r, h := StaleWorkerAborts(d);
    var sku :| sku in d.skus;
    assert sku in r.world.sh.lines;
    r := Finish(d, r, h);
  }

  /** Retrying a refund that the provider refused reports success at once, so the round counts as done while the money
      is still captured: a settled payment need not have been paid back. */
  lemma RetriedRefundHidesFailure(p: P.Payment, id: Reference, again: Answer)
    requires P.Balanced(p) && p.status == P.Captured && p.refunds == [] && id != BLANK && again != Fail
    ensures var (q, first) := RefundPayment(p, id, Refuse);
      && !first
      && RefundPayment(q, id, again) == (q, true)
      && q.status == P.Captured && q.captured == p.captured && q.refunded.amount == 0
      && SettledPayment(q, id)
  {
    P.FullRefundTakesEverything(p, id);
    var pending := P.Refund(id, p.captured, P.RefundPending);
    assert p.RequestRefund(id, p.Refundable()).value.refunds == [pending];
    var q := RefundPayment(p, id, Refuse).0;
    assert q.refunds == [pending.(status := P.RefundFailed)];
    assert q.refunds[0].id == id;
  }
}
