/** The main results about a checkout: each is about every sequence of events, however the handlers overlap. */
module CheckoutRuns {
  import opened Kernel
  import opened Checkout
  import opened CheckoutSafety
  import S = Sagas
  import O = OrderStatuses
  import P = Payments
  import R = Reservations

  /** A completed checkout has its stock committed on every line, its money captured for exactly the order's total, and
      an order in a paid status. */
  lemma CompletedMeansPaid(d: Draft, events: seq<Event>)
    ensures var sh := Run(d, events).sh;
      sh.saga.Some? && sh.saga.value.status == S.Completed ==>
        && sh.lines.Keys == d.skus && R.AllCommitted(sh.lines)
        && sh.order.Some? && CapturedFor(sh, sh.saga.value.paymentId, sh.order.value.total)
        && O.IsPaid(sh.order.value.status)
  {
    RunsAreSafe(d, events);
  }

  ghost predicate IsOrderPaid(sh: Shared) {
    sh.order.Some? && O.IsPaid(sh.order.value.status)
  }

  /** Only completing the saga, in the same transaction, makes an order paid. */
  lemma OnlyCompletingPays(d: Draft, sh: Shared, pc: Pc, i: Input)
    ensures var b := Step(d, sh, pc, i).0;
      IsOrderPaid(b) && !IsOrderPaid(sh) ==> b.saga.Some? && b.saga.value.status == S.Completed
  {
    hide StepForward, StepCompensate, StepAside, StepPlace;
    if InForward(pc) { ForwardPays(d, sh, pc, i); }
    else if InPlace(pc) { PlacingNeverPays(d, sh, pc, i); }
    else if InCompensate(pc) { CompensatingNeverPays(d, sh, pc, i); }
    else if pc != Done { AsideNeverPays(d, sh, pc, i); }
  }

  lemma ForwardPays(d: Draft, sh: Shared, pc: Pc, i: Input)
    requires InForward(pc)
    ensures var b := StepForward(d, sh, pc, i).0;
      IsOrderPaid(b) && !IsOrderPaid(sh) ==> b.saga.Some? && b.saga.value.status == S.Completed
  {
  }

  lemma PlacingNeverPays(d: Draft, sh: Shared, pc: Pc, i: Input)
    requires InPlace(pc)
    ensures IsOrderPaid(StepPlace(d, sh, pc, i).0) ==> IsOrderPaid(sh)
  {
  }

  lemma CompensatingNeverPays(d: Draft, sh: Shared, pc: Pc, i: Input)
    requires InCompensate(pc)
    ensures IsOrderPaid(StepCompensate(d, sh, pc, i).0) ==> IsOrderPaid(sh)
  {
  }

  lemma AsideNeverPays(d: Draft, sh: Shared, pc: Pc, i: Input)
    requires !InPlace(pc) && !InForward(pc) && !InCompensate(pc)
    ensures IsOrderPaid(StepAside(d, sh, pc, i).0) ==> IsOrderPaid(sh)
  {
  }

  lemma OutsideNeverPays(sh: Shared, e: Outside)
    ensures IsOrderPaid(StepOutside(sh, e)) ==> IsOrderPaid(sh)
  {
    if sh.order.Some? {
      match e
      case Ship(actor) => FulfilmentKeepsPhase(sh.order.value, O.DoShipped(actor));
      case Deliver(actor) => FulfilmentKeepsPhase(sh.order.value, O.DoDelivered(actor));
      case CompleteOrder => FulfilmentKeepsPhase(sh.order.value, O.DoComplete);
      case _ =>
    }
  }

  lemma NextPays(d: Draft, w: World, e: Event)
    requires SafeWorld(d, w)
    ensures var b := Next(d, w, e).sh;
      IsOrderPaid(b) && !IsOrderPaid(w.sh) ==> b.saga.Some? && b.saga.value.status == S.Completed
  {
    hide Step, StepOutside, Safe, Expects;
    match e
    case ByPlace(i) => OnlyCompletingPays(d, w.sh, w.place, i);
    case ByHandler(id, i) => if id in w.handlers { OnlyCompletingPays(d, w.sh, w.handlers[id], i); }
    case Start(id, pc) =>
    case ByOutside(outside) => OutsideNeverPays(w.sh, outside);
  }

  /** At the event that turns an order paid, its stock is committed on every line and its money is captured. */
  lemma PaidAfterCommitAndCapture(d: Draft, events: seq<Event>, e: Event)
    ensures var before, after := Run(d, events).sh, Run(d, events + [e]).sh;
      IsOrderPaid(after) && !IsOrderPaid(before) ==>
        after.saga.Some? && R.AllCommitted(after.lines)
        && CapturedFor(after, after.saga.value.paymentId, after.order.value.total)
  {
    hide Next, SafeWorld;
    assert (events + [e])[..|events|] == events;
    RunsAreSafe(d, events);
    NextPays(d, Run(d, events), e);
    CompletedMeansPaid(d, events + [e]);
  }

  // ---------- from one state of a run to a later one ----------

  lemma LaterChains(d: Draft, a: Shared, b: Shared, c: Shared)
    requires Later(d, a, b) && Later(d, b, c)
    requires Safe(d, a) && Safe(d, b) && Safe(d, c)
    ensures Later(d, a, c)
  {
  }

  lemma {:induction false} RunGoesOn(d: Draft, events: seq<Event>, more: seq<Event>)
    ensures Later(d, Run(d, events).sh, Run(d, events + more).sh)
  {
    hide Safe, Later, Expects, Next;
    RunsAreSafe(d, events);
    if more == [] {
      assert events + more == events;
      Still(d, Run(d, events).sh);
    } else {
      var init := more[..|more| - 1];
      var before := events + init;
      assert (events + more)[..|events + more| - 1] == before;
      RunGoesOn(d, events, init);
      RunsAreSafe(d, before);
      NextIsSafe(d, Run(d, before), more[|more| - 1]);
      LaterChains(d, Run(d, events).sh, Run(d, before).sh, Run(d, events + more).sh);
    }
  }

  /** Capture is only ever sent for one payment: once a commit has begun for a payment, that payment stays the saga's,
      and nothing else is ever accepted or captured. */
  lemma OnePaymentIsCaptured(d: Draft, events: seq<Event>, more: seq<Event>, id: Reference)
    requires id in Run(d, events).sh.accepted
    ensures var end := Run(d, events + more).sh;
      end.saga.Some? && end.saga.value.paymentId == id && end.accepted == {id} && end.captures <= {id}
  {
    RunsAreSafe(d, events);
    RunsAreSafe(d, events + more);
    RunGoesOn(d, events, more);
  }

  /** Capturing without an accepted payment does not happen. */
  lemma NothingIsCapturedUnaccepted(d: Draft, events: seq<Event>)
    ensures Run(d, events).sh.captures <= Run(d, events).sh.accepted
  {
    RunsAreSafe(d, events);
  }

  /** However many compensators overlap: what they record is always a prefix of the plan, without repetition; the plan,
      the payment and the refund are fixed from the moment compensation begins; and recorded steps stay recorded. */
  lemma CompensationFollowsPlan(d: Draft, events: seq<Event>, more: seq<Event>)
    requires Begun(Run(d, events).sh)
    ensures var now, end := Run(d, events).sh.saga.value, Run(d, events + more).sh;
      && now.compensated <= now.Plan() && S.Distinct(now.compensated)
      && Begun(end)
      && end.saga.value.Plan() == now.Plan()
      && end.saga.value.paymentId == now.paymentId && end.saga.value.refundId == now.refundId
      && now.compensated <= end.saga.value.compensated <= now.Plan()
      && (end.saga.value.status == S.Compensated ==> end.saga.value.compensated == now.Plan())
  {
    RunsAreSafe(d, events);
    RunsAreSafe(d, events + more);
    RunGoesOn(d, events, more);
    var now := Run(d, events).sh.saga.value;
    S.PlanIsDistinct(now.captured, now.promoCode != BLANK);
    assert now.compensated == now.Plan()[..|now.compensated|];
  }

  /** Once a compensator has recorded that stock was returned, no line of the reservation is committed, then or ever. */
  lemma ReturnedStockStaysReturned(d: Draft, events: seq<Event>, more: seq<Event>)
    requires var sh := Run(d, events).sh; sh.saga.Some? && S.ReturnStock in sh.saga.value.compensated
    ensures var end := Run(d, events + more).sh;
      forall sku :: sku in end.lines ==> end.lines[sku] != R.Committed
  {
    RunsAreSafe(d, events);
    RunsAreSafe(d, events + more);
    RunGoesOn(d, events, more);
    R.DeadIsNotCommitted(Run(d, events + more).sh.lines);
  }

  /** What a compensated saga guarantees whatever overlaps. `CheckoutUndoing` says exactly when it also guarantees
      that its order failed or was cancelled, its code was released and its payment settled. */
  lemma CompensatedAnyway(d: Draft, events: seq<Event>)
    ensures var sh := Run(d, events).sh;
      sh.saga.Some? && sh.saga.value.status == S.Compensated ==>
        && (forall sku :: sku in sh.lines ==> sh.lines[sku] != R.Committed)
        && sh.order.Some? && !O.IsOpen(sh.order.value.status)
        && sh.saga.value.compensated == sh.saga.value.Plan()
  {
    RunsAreSafe(d, events);
    var sh := Run(d, events).sh;
    if sh.saga.Some? && sh.saga.value.status == S.Compensated {
      assert sh.saga.value.Plan()[1] == S.ReturnStock;
      assert sh.saga.value.Plan()[|sh.saga.value.Plan()| - 1] == S.CloseOrder;
      R.DeadIsNotCommitted(sh.lines);
    }
  }
}
