/** Exactly when overlapping handlers meet what `CheckoutAlone.CompensatedIsUndone` promises of a compensated saga. It
is decided at the step that begins compensation: by where the handler that places the order stands, and by whether the
order has been paid. */
module CheckoutUndoing {
  import opened Kernel
  import opened Checkout
  import opened CheckoutSafety
  import opened CheckoutRuns
  import opened CheckoutAlone
  import opened CheckoutMoney
  import opened CheckoutRounds
  import S = Sagas
  import O = OrderStatuses
  import P = Payments
  import R = Reservations

  ghost predicate OwnSettled(sh: Shared)
    requires sh.saga.Some?
  {
    Settled(sh.payments, sh.saga.value.paymentId, sh.saga.value.refundId)
  }

  /** The handler that places the order has yet to redeem the code, or to create the payment that there is none of. */
  predicate Upsets(d: Draft, sh: Shared, pc: Pc) {
    pc == PlaceRedeem
    || ((pc == PlaceLoad || pc.PlaceCreate?) && d.total.amount > 0
        && sh.saga.Some? && sh.saga.value.paymentId !in sh.payments)
  }

  // ---------- what has been settled and released stays so ----------

  /** A released code stays free, and the saga's payment stays where it is settled. */
  ghost predicate Kept(sh: Shared, b: Shared)
    requires sh.saga.Some?
  {
    var s := sh.saga.value;
    && (b.redeemed ==> sh.redeemed)
    && (OwnSettled(sh) ==> Settled(b.payments, s.paymentId, s.refundId))
    && (s.paymentId in sh.payments ==> s.paymentId in b.payments)
  }

  /** Nothing is created for the saga's own payment, and a payment that exists is left alone or stays as settled. */
  lemma CreateKeepsSettled(payments: map<Reference, P.Payment>, own: Reference, id: Reference, total: Money,
      refund: Reference,
                           answer: Answer)
    requires id == own && id !in payments ==> total.amount <= 0
    ensures var next := CreatePayment(payments, id, total, answer).0;
      (Settled(payments, own, refund) ==> Settled(next, own, refund)) && (own in payments ==> own in next)
  {
    if Settled(payments, own, refund) && own in payments && id == own && !P.IsTerminal(payments[own].status) {
      var k :| 0 <= k < |payments[own].refunds| && payments[own].refunds[k].id == refund;
      assert CreatePayment(payments, id, total, answer).0[own].refunds[k].id == refund;
    }
  }

  lemma PaymentKeepsSettled(sh: Shared, id: Reference, op: P.Operation)
    requires sh.saga.Some? && id in sh.payments && P.Perform(sh.payments[id], op).Ok?
    ensures Kept(sh, sh.(payments := sh.payments[id := P.Perform(sh.payments[id], op).value]))
  {
    hide P.Perform, SettledPayment;
    if id == sh.saga.value.paymentId && OwnSettled(sh) {
      OperationKeepsSettled(sh.payments[id], op, sh.saga.value.refundId);
    }
  }

  lemma CancelKeepsSettled(sh: Shared, id: Reference, answer: Answer)
    requires sh.saga.Some?
    ensures Kept(sh, CallCancel(sh, id, answer).0)
  {
    if id in sh.payments && P.Perform(sh.payments[id], P.DoCancel).Ok? { PaymentKeepsSettled(sh, id, P.DoCancel); }
  }

  lemma PlacingKeeps(d: Draft, sh: Shared, pc: Pc, i: Input)
    requires Begun(sh) && Expects(d, sh, pc) && InPlace(pc) && !Upsets(d, sh, pc)
    ensures var (b, next) := StepPlace(d, sh, pc, i); Kept(sh, b) && !Upsets(d, b, next)
  {
    var s := sh.saga.value;
    hide CreatePayment, SettledPayment;
    if pc.PlaceCreate? { CreateKeepsSettled(sh.payments, s.paymentId, pc.paymentId, d.total, s.refundId, i.answer); }
  }

  lemma ForwardKeeps(d: Draft, sh: Shared, pc: Pc, i: Input)
    requires Begun(sh) && InForward(pc)
    ensures Kept(sh, StepForward(d, sh, pc, i).0)
  {
    hide CallCancel, SettledPayment, P.Payment.Capture;
    match pc
    case AuthStray(id) => CancelKeepsSettled(sh, id, i.answer);
    case AdvCapture(seen) =>
      var id := seen.paymentId;
      if id in sh.payments && sh.payments[id].Capture(seen.amount).Ok? {
        PaymentKeepsSettled(sh, id, P.DoCapture(seen.amount));
      }
    case _ =>
  }

  lemma CompensatingKeeps(d: Draft, sh: Shared, pc: Pc, i: Input)
    requires Begun(sh) && Expects(d, sh, pc) && InCompensate(pc)
    ensures Kept(sh, StepCompensate(d, sh, pc, i).0)
  {
    hide CallCancel, SettledPayment, RefundPayment, Due, AfterInfo, R.Release;
    match pc
    case RunCancel(seen, _) => CancelKeepsSettled(sh, seen.paymentId, i.answer);
    case RunRefund(seen, _) =>
      if seen.paymentId in sh.payments { RefundSettles(sh.payments[seen.paymentId], seen.refundId, i.answer); }
    case _ =>
  }

  lemma AsideKeeps(d: Draft, sh: Shared, pc: Pc, i: Input)
    requires Begun(sh) && !InPlace(pc) && !InForward(pc) && !InCompensate(pc) && pc != Done
    ensures Kept(sh, StepAside(d, sh, pc, i).0)
  {
    hide CallCancel, SettledPayment, CreatePayment;
    var s := sh.saga.value;
    match pc
    case RetryUndo(id) => CancelKeepsSettled(sh, id, i.answer);
    case RetryCreate(seen) =>
      if i.drawn != s.paymentId {
        CreateKeepsSettled(sh.payments, s.paymentId, i.drawn, seen.amount, s.refundId, i.answer);
      }
    case _ =>
  }

  lemma StepKeeps(d: Draft, sh: Shared, pc: Pc, i: Input)
    requires Safe(d, sh) && Expects(d, sh, pc) && Begun(sh) && !Upsets(d, sh, pc)
    ensures var (b, next) := Step(d, sh, pc, i); Kept(sh, b) && !Upsets(d, b, next)
  {
    hide Safe, Expects, Kept, StepPlace, StepForward, StepCompensate, StepAside;
    if pc == Done { KeptAsIs(sh); }
    else if InPlace(pc) { PlacingKeeps(d, sh, pc, i); }
    else {
      StaysOutOfPlace(d, sh, pc, i);
      if InForward(pc) { ForwardKeeps(d, sh, pc, i); }
      else if InCompensate(pc) { CompensatingKeeps(d, sh, pc, i); }
      else { AsideKeeps(d, sh, pc, i); }
    }
  }

  lemma KeptAsIs(sh: Shared)
    requires sh.saga.Some?
    ensures Kept(sh, sh)
  {
  }

  lemma OutsideKeeps(sh: Shared, e: Outside)
    requires Begun(sh)
    ensures Kept(sh, StepOutside(sh, e))
  {
    hide SettledPayment, P.Perform;
    if e.PaymentEvent? && e.id in sh.payments && P.Perform(sh.payments[e.id], e.op).Ok? {
      PaymentKeepsSettled(sh, e.id, e.op);
    }
  }

  // ---------- what is recorded or about to be has been done ----------

  /** Settling the payment or releasing the code, once it counts as done. */
  ghost predicate Does(sh: Shared, step: S.Compensation)
    requires sh.saga.Some?
  {
    (PaysBack(step) ==> OwnSettled(sh)) && (step == S.ReleasePromo ==> !sh.redeemed)
  }

  ghost predicate Reports(sh: Shared, pc: Pc)
    requires sh.saga.Some?
  {
    pc.RunSave? && pc.ok ==> Does(sh, pc.step)
  }

  ghost predicate RecordHolds(d: Draft, sh: Shared) {
    && Begun(sh) && (d.promo == BLANK ==> !sh.redeemed)
    && forall step :: step in sh.saga.value.compensated ==> Does(sh, step)
  }

  lemma DoesStays(d: Draft, sh: Shared, b: Shared, step: S.Compensation)
    requires Begun(sh) && Later(d, sh, b) && Kept(sh, b) && Does(sh, step)
    ensures Does(b, step)
  {
  }

  lemma ReportsStay(d: Draft, sh: Shared, b: Shared, pc: Pc)
    requires Begun(sh) && Later(d, sh, b) && Kept(sh, b) && Reports(sh, pc)
    ensures Reports(b, pc)
  {
    if pc.RunSave? && pc.ok { DoesStays(d, sh, b, pc.step); }
  }

  /** A step that is not recorded keeps the record true. */
  lemma RecordStays(d: Draft, sh: Shared, b: Shared)
    requires RecordHolds(d, sh) && Later(d, sh, b) && Kept(sh, b)
    requires b.saga.Some? && forall step :: step in b.saga.value.compensated ==>
      step in sh.saga.value.compensated || Does(b, step)
    ensures RecordHolds(d, b)
  {
    forall step | step in b.saga.value.compensated ensures Does(b, step) {
      if step in sh.saga.value.compensated { DoesStays(d, sh, b, step); }
    }
  }

  /** Only recording a step that counts as done adds to the record. */
  predicate Records(pc: Pc, step: S.Compensation) {
    pc.RunSave? && pc.ok && step == pc.step
  }

  lemma RecordGrows(d: Draft, sh: Shared, pc: Pc, i: Input)
    requires Begun(sh) && Expects(d, sh, pc)
    ensures var b := Step(d, sh, pc, i).0;
      b.saga.Some? && forall step :: step in b.saga.value.compensated ==>
        step in sh.saga.value.compensated || Records(pc, step)
  {
    hide StepPlace, StepForward, StepCompensate, StepAside, Expects;
    if InPlace(pc) { PlacingKeepsRecord(d, sh, pc, i); }
    else if InForward(pc) { ForwardKeepsRecord(d, sh, pc, i); }
    else if InCompensate(pc) { CompensatingGrowsRecord(d, sh, pc, i); }
    else if pc != Done { AsideKeepsRecord(d, sh, pc, i); }
  }

  ghost predicate SameRecord(sh: Shared, b: Shared) {
    sh.saga.Some? && b.saga.Some? && b.saga.value.compensated == sh.saga.value.compensated
  }

  lemma PlacingKeepsRecord(d: Draft, sh: Shared, pc: Pc, i: Input)
    requires Begun(sh) && Expects(d, sh, pc) && InPlace(pc)
    ensures SameRecord(sh, StepPlace(d, sh, pc, i).0)
  {
    hide CreatePayment;
  }

  lemma ForwardKeepsRecord(d: Draft, sh: Shared, pc: Pc, i: Input)
    requires Begun(sh) && InForward(pc)
    ensures SameRecord(sh, StepForward(d, sh, pc, i).0)
  {
    hide P.Payment.Capture;
  }

  lemma CompensatingGrowsRecord(d: Draft, sh: Shared, pc: Pc, i: Input)
    requires Begun(sh) && InCompensate(pc)
    ensures var b := StepCompensate(d, sh, pc, i).0;
      b.saga.Some? && forall step :: step in b.saga.value.compensated ==>
        step in sh.saga.value.compensated || Records(pc, step)
  {
    hide RefundPayment, AfterInfo, R.Release, S.Saga.Pending;
  }

  lemma AsideKeepsRecord(d: Draft, sh: Shared, pc: Pc, i: Input)
    requires Begun(sh) && !InPlace(pc) && !InForward(pc) && !InCompensate(pc) && pc != Done
    ensures SameRecord(sh, StepAside(d, sh, pc, i).0)
  {
    hide CreatePayment;
  }

  /** A call that is about to be reported as done has done its work. */
  lemma ReportIsTrue(d: Draft, sh: Shared, pc: Pc, i: Input)
    requires Begun(sh) && Expects(d, sh, pc) && InCompensate(pc)
    ensures var (b, next) := StepCompensate(d, sh, pc, i);
      b.saga.Some? && (next.RunSave? && next.ok ==> Does(b, next.step))
  {
    hide RefundPayment, R.Release, S.Saga.Pending, Due;
    if pc.RunRefund? && pc.seen.paymentId in sh.payments {
      RefundSettles(sh.payments[pc.seen.paymentId], pc.seen.refundId, i.answer);
    }
  }

  lemma OthersReportNothing(d: Draft, sh: Shared, pc: Pc, i: Input)
    requires !InCompensate(pc)
    ensures !Step(d, sh, pc, i).1.RunSave?
  {
  }

  lemma StepReports(d: Draft, sh: Shared, pc: Pc, i: Input)
    requires Begun(sh) && Expects(d, sh, pc) && Step(d, sh, pc, i).0.saga.Some?
    ensures var (b, next) := Step(d, sh, pc, i); Reports(b, next)
  {
    if InCompensate(pc) { ReportIsTrue(d, sh, pc, i); } else { OthersReportNothing(d, sh, pc, i); }
    hide Does, Expects, StepPlace, StepForward, StepCompensate, StepAside;
  }

  lemma StepKeepsRecord(d: Draft, sh: Shared, pc: Pc, i: Input)
    requires Safe(d, sh) && Expects(d, sh, pc) && !Upsets(d, sh, pc) && RecordHolds(d, sh) && Reports(sh, pc)
    ensures var (b, next) := Step(d, sh, pc, i);
      RecordHolds(d, b) && Reports(b, next) && Kept(sh, b) && Later(d, sh, b) && !Upsets(d, b, next)
  {
    hide Safe, Expects, Later, Kept, Upsets, Does, Step;
    StepIsSound(d, sh, pc, i);
    StepKeeps(d, sh, pc, i);
    RecordGrows(d, sh, pc, i);
    StepReports(d, sh, pc, i);
    var b := Step(d, sh, pc, i).0;
    forall step | Records(pc, step) ensures Does(b, step) { DoesStays(d, sh, b, step); }
    RecordStays(d, sh, b);
  }

  // ---------- the step that begins compensation ----------

  /** Compensation begins with nothing recorded, and whoever begins it goes on to load the saga. */
  ghost predicate BeginsClean(sh: Shared, b: Shared) {
    && InRound(b) && b.saga.value.compensated == [] && b.saga.value.refundId != BLANK
    && b.payments == sh.payments && b.redeemed == sh.redeemed
  }

  lemma StepBegins(d: Draft, sh: Shared, pc: Pc, i: Input)
    requires Safe(d, sh) && Expects(d, sh, pc) && !Begun(sh) && Begun(Step(d, sh, pc, i).0)
    ensures var (b, next) := Step(d, sh, pc, i); BeginsClean(sh, b) && next == RunLoad
  {
    hide StepPlace, StepForward, StepCompensate, StepAside, Safe, Expects;
    if InPlace(pc) { PlacingBeginsNothing(d, sh, pc, i); }
    else if InForward(pc) { ForwardBeginsNothing(d, sh, pc, i); }
    else if InCompensate(pc) { AbortBegins(d, sh, pc, i); }
    else if pc != Done { AsideBegins(d, sh, pc, i); }
  }

  lemma PlacingBeginsNothing(d: Draft, sh: Shared, pc: Pc, i: Input)
    requires !Begun(sh) && InPlace(pc)
    ensures !Begun(StepPlace(d, sh, pc, i).0)
  {
    hide CreatePayment;
  }

  lemma ForwardBeginsNothing(d: Draft, sh: Shared, pc: Pc, i: Input)
    requires !Begun(sh) && InForward(pc)
    ensures !Begun(StepForward(d, sh, pc, i).0)
  {
    hide P.Payment.Capture;
  }

  lemma AbortBegins(d: Draft, sh: Shared, pc: Pc, i: Input)
    requires Safe(d, sh) && Expects(d, sh, pc) && !Begun(sh) && InCompensate(pc)
      && Begun(StepCompensate(d, sh, pc, i).0)
    ensures var (b, next) := StepCompensate(d, sh, pc, i); BeginsClean(sh, b) && next == RunLoad
  {
    hide RefundPayment, CallCancel, R.Release;
  }

  lemma AsideBegins(d: Draft, sh: Shared, pc: Pc, i: Input)
    requires Safe(d, sh) && !Begun(sh) && Begun(StepAside(d, sh, pc, i).0)
    requires !InPlace(pc) && !InForward(pc) && !InCompensate(pc) && pc != Done
    ensures var (b, next) := StepAside(d, sh, pc, i); BeginsClean(sh, b) && next == RunLoad
  {
    hide CreatePayment;
  }

  lemma OutsideBeginsNothing(sh: Shared, e: Outside)
    ensures StepOutside(sh, e).saga == sh.saga
  {
  }

  /** Without a code there is nothing to redeem. */
  ghost predicate NoCode(d: Draft, w: World) {
    d.promo == BLANK ==> !w.sh.redeemed && w.place != PlaceRedeem
  }

  lemma StepNoCode(d: Draft, sh: Shared, pc: Pc, i: Input)
    requires d.promo == BLANK && !sh.redeemed && pc != PlaceRedeem
    ensures var (b, next) := Step(d, sh, pc, i); !b.redeemed && next != PlaceRedeem
  {
    hide CreatePayment, R.Release, P.Payment.Capture, RefundPayment;
  }

  lemma OutsideNoCode(sh: Shared, e: Outside)
    ensures StepOutside(sh, e).redeemed == sh.redeemed
  {
  }

  lemma {:induction false} RunsNoCode(d: Draft, events: seq<Event>)
    ensures NoCode(d, Run(d, events))
  {
    if events != [] && d.promo == BLANK {
      hide Step, StepOutside;
      RunsNoCode(d, events[..|events| - 1]);
      RunsAreSafe(d, events[..|events| - 1]);
      var w := Run(d, events[..|events| - 1]);
      match events[|events| - 1]
      case ByPlace(i) => StepNoCode(d, w.sh, w.place, i);
      case ByHandler(id, i) => if id in w.handlers { StepNoCode(d, w.sh, w.handlers[id], i); }
      case Start(_, _) =>
      case ByOutside(outside) => OutsideNoCode(w.sh, outside);
    }
  }

  // ---------- runs after it ----------

  ghost predicate ClearWorld(d: Draft, w: World) {
    && SafeWorld(d, w) && RecordHolds(d, w.sh) && !Upsets(d, w.sh, w.place) && Reports(w.sh, w.place)
    && forall id :: id in w.handlers ==> Reports(w.sh, w.handlers[id])
  }

  lemma BeginningIsClear(d: Draft, w: World, e: Event)
    requires SafeWorld(d, w) && NoCode(d, w) && !Begun(w.sh)
    requires var v := Next(d, w, e); Begun(v.sh) && !Upsets(d, v.sh, v.place)
    ensures ClearWorld(d, Next(d, w, e)) && BeginsClean(w.sh, Next(d, w, e).sh)
  {
    hide Safe, Expects, Later, Step, StepOutside, Upsets, Does, BeginsClean;
    NextIsSafe(d, w, e);
    NobodyReports(d, w.sh, w.place);
    forall id | id in w.handlers ensures !w.handlers[id].RunSave? { NobodyReports(d, w.sh, w.handlers[id]); }
    match e {
      case ByPlace(i) => StepBegins(d, w.sh, w.place, i);
      case ByHandler(id, i) => if id in w.handlers { StepBegins(d, w.sh, w.handlers[id], i); }
      case Start(_, _) =>
      case ByOutside(outside) => OutsideBeginsNothing(w.sh, outside);
    }
    CleanRecordHolds(d, w.sh, Next(d, w, e).sh);
  }

  lemma CleanRecordHolds(d: Draft, sh: Shared, b: Shared)
    requires BeginsClean(sh, b) && (d.promo == BLANK ==> !sh.redeemed)
    ensures RecordHolds(d, b)
  {
  }

  lemma NobodyReports(d: Draft, sh: Shared, pc: Pc)
    requires Expects(d, sh, pc) && !Begun(sh)
    ensures !pc.RunSave?
  {
  }

  lemma OthersStayClear(d: Draft, w: World, b: Shared)
    requires ClearWorld(d, w) && Later(d, w.sh, b) && Kept(w.sh, b)
    ensures b.saga.Some? && forall id :: id in w.handlers ==> Reports(b, w.handlers[id])
    ensures Reports(b, w.place) && !Upsets(d, b, w.place)
  {
    hide Safe, Expects, Kept, Reports;
    ReportsStay(d, w.sh, b, w.place);
    forall id | id in w.handlers ensures Reports(b, w.handlers[id]) { ReportsStay(d, w.sh, b, w.handlers[id]); }
    NotUpset(d, w.sh, b, w.place);
  }

  lemma NotUpset(d: Draft, sh: Shared, b: Shared, pc: Pc)
    requires Begun(sh) && Later(d, sh, b) && Kept(sh, b) && !Upsets(d, sh, pc)
    ensures !Upsets(d, b, pc)
  {
  }

  lemma NextKeepsClear(d: Draft, w: World, e: Event)
    requires ClearWorld(d, w)
    ensures ClearWorld(d, Next(d, w, e))
  {
    NextIsSafe(d, w, e);
    hide Safe, Expects, Later, Kept, Does, Step, StepOutside;
    match e
    case ByPlace(i) =>
      StepKeepsRecord(d, w.sh, w.place, i);
      OthersStayClear(d, w, Step(d, w.sh, w.place, i).0);
    case ByHandler(id, i) =>
      if id in w.handlers {
        assert !Upsets(d, w.sh, w.handlers[id]);
        StepKeepsRecord(d, w.sh, w.handlers[id], i);
        OthersStayClear(d, w, Step(d, w.sh, w.handlers[id], i).0);
      }
    case Start(_, _) =>
    case ByOutside(outside) =>
      OutsideKeeps(w.sh, outside);
      OutsideBeginsNothing(w.sh, outside);
      OthersStayClear(d, w, StepOutside(w.sh, outside));
      RecordStays(d, w.sh, StepOutside(w.sh, outside));
  }

  lemma {:induction false} ClearStays(d: Draft, events: seq<Event>, more: seq<Event>)
    requires ClearWorld(d, Run(d, events))
    ensures ClearWorld(d, Run(d, events + more))
  {
    hide ClearWorld, Next;
    if more == [] {
      assert events + more == events;
    } else {
      var k := |more| - 1;
      assert (events + more)[..|events + more| - 1] == events + more[..k];
      ClearStays(d, events, more[..k]);
      NextKeepsClear(d, Run(d, events + more[..k]), more[k]);
    }
  }

  // ---------- the results ----------

  predicate IsCompensated(sh: Shared) {
    sh.saga.Some? && sh.saga.value.status == S.Compensated
  }

  /** Whatever of `CheckoutAlone.Undone` is about payment and code. */
  ghost predicate GivenBack(sh: Shared) {
    IsCompensated(sh) ==> OwnSettled(sh) && !sh.redeemed
  }

  /** The rest of it that overlap can break. */
  ghost predicate Closed(sh: Shared) {
    IsCompensated(sh) ==> sh.order.Some? && (sh.order.value.status == O.Failed || sh.order.value.status == O.Cancelled)
  }

  lemma ClearGivesBack(d: Draft, w: World)
    requires ClearWorld(d, w)
    ensures GivenBack(w.sh)
  {
    if IsCompensated(w.sh) {
      var plan := w.sh.saga.value.Plan();
      assert plan[0] in plan && Does(w.sh, plan[0]);
      if d.promo != BLANK { assert plan[2] in plan && Does(w.sh, plan[2]); }
    }
  }

  /** A new compensator that meets no trouble closes the saga. */
  lemma ClosesSaga(d: Draft, events: seq<Event>, e: Event) returns (r: Reached, q: Reached)
    requires !Begun(Run(d, events).sh) && Begun(Run(d, events + [e]).sh)
    ensures r == Reached(events + [e], Run(d, events + [e])) && GoesOn(d, r, q) && q.world.place == r.world.place
    ensures IsCompensated(q.world.sh) && r.world.sh.saga.Some? && Finished(r.world.sh, q.world.sh)
  {
    assert (events + [e])[..|events|] == events;
    RunsAreSafe(d, events);
    RunsAreSafe(d, events + [e]);
    hide Run, Finished, SafeWorld, InRound;
    var w, v := Run(d, events), Run(d, events + [e]);
    assert v == Next(d, w, e) by { RunStep(d, events, e); }
    BeginsRefundable(d, w, e);
    hide Next, Refundable;
    r := Reached(events + [e], v);
    var h: nat;
    q, h := Launch(d, r, RunLoad);
    q := Finish(d, q, h);
    FinishedCloses(r.world.sh, q.world.sh);
  }

  lemma FinishedCloses(a: Shared, b: Shared)
    requires a.saga.Some? && Finished(a, b)
    ensures IsCompensated(b)
  {
  }

  lemma RunStep(d: Draft, events: seq<Event>, e: Event)
    ensures Run(d, events + [e]) == Next(d, Run(d, events), e)
  {
    assert (events + [e])[..|events|] == events;
  }

  lemma BeginsRefundable(d: Draft, w: World, e: Event)
    requires SafeWorld(d, w) && !Begun(w.sh) && Begun(Next(d, w, e).sh)
    ensures var b := Next(d, w, e).sh; InRound(b) && Refundable(b)
  {
    hide Expects, Step, StepOutside;
    match e
    case ByPlace(i) => StepBegins(d, w.sh, w.place, i);
    case ByHandler(id, i) => if id in w.handlers { StepBegins(d, w.sh, w.handlers[id], i); }
    case Start(_, _) =>
    case ByOutside(outside) => OutsideBeginsNothing(w.sh, outside);
  }

  /** One step of the placing handler that meets no trouble upsets a closed saga, or leads to one that does. */
  lemma PlacingStepUpsets(d: Draft, sh: Shared, pc: Pc)
    requires IsCompensated(sh) && Upsets(d, sh, pc)
    requires pc.PlaceCreate? ==> pc.paymentId == sh.saga.value.paymentId && pc.paymentId != BLANK
    ensures var (b, next) := Step(d, sh, pc, Yes());
      if pc == PlaceLoad then b == sh && next == PlaceCreate(sh.saga.value.paymentId) else !GivenBack(b)
  {
    hide StepForward, StepCompensate, StepAside;
  }

  lemma SafeReference(d: Draft, w: World)
    requires SafeWorld(d, w) && w.sh.saga.Some?
    ensures w.sh.saga.value.paymentId != BLANK
    ensures w.place.PlaceCreate? ==> w.place.paymentId == w.sh.saga.value.paymentId
  {
  }

  lemma StillUpsets(d: Draft, a: Shared, b: Shared, pc: Pc)
    requires a.saga.Some? && Finished(a, b) && Upsets(d, a, pc)
    ensures Upsets(d, b, pc)
  {
  }

  lemma StillUpsetting(d: Draft, sh: Shared)
    requires sh.saga.Some? && Upsets(d, sh, PlaceLoad)
    ensures Upsets(d, sh, PlaceCreate(sh.saga.value.paymentId))
  {
  }

  lemma PlacingUpsets(d: Draft, events: seq<Event>, e: Event) returns (more: seq<Event>)
    requires !Begun(Run(d, events).sh)
    requires var w := Run(d, events + [e]); Begun(w.sh) && Upsets(d, w.sh, w.place)
    ensures !GivenBack(Run(d, events + [e] + more).sh)
  {
    hide Run, Step, GivenBack, SafeWorld, Upsets, Finished;
    var r, q := ClosesSaga(d, events, e);
    StillUpsets(d, r.world.sh, q.world.sh, q.world.place);
    RunsAreSafe(d, q.events);
    SafeReference(d, q.world);
    PlacingStepUpsets(d, q.world.sh, q.world.place);
    var at := q.world.place;
    q := Place(d, q, Yes());
    if at == PlaceLoad {
      StillUpsetting(d, q.world.sh);
      PlacingStepUpsets(d, q.world.sh, q.world.place);
      q := Place(d, q, Yes());
    }
    more := q.events[|r.events|..];
    assert events + [e] + more == q.events;
  }

  /** However the handlers overlap from the step `e` on that begins compensation: a compensated saga has its payment
      settled and its code free exactly when, after `e`, the handler that places the order is past redeeming the code,
      and past creating the payment unless there is one. */
  lemma GivenBackExactly(d: Draft, events: seq<Event>, e: Event)
    requires !Begun(Run(d, events).sh) && Begun(Run(d, events + [e]).sh)
    ensures var w := Run(d, events + [e]);
      (forall more: seq<Event> :: GivenBack(Run(d, events + [e] + more).sh)) <==> !Upsets(d, w.sh, w.place)
  {
    var w := Run(d, events + [e]);
    RunStep(d, events, e);
    RunsAreSafe(d, events);
    RunsNoCode(d, events);
    hide Run, Next, Upsets, SafeWorld, NoCode, GivenBack, ClearWorld;
    if Upsets(d, w.sh, w.place) {
      var more := PlacingUpsets(d, events, e);
    } else {
      BeginningIsClear(d, Run(d, events), e);
      forall more: seq<Event> ensures GivenBack(Run(d, events + [e] + more).sh) {
        ClearStays(d, events + [e], more);
        ClearGivesBack(d, Run(d, events + [e] + more));
      }
    }
  }

  lemma {:induction false} NeverPaidAgain(d: Draft, events: seq<Event>, more: seq<Event>)
    requires Begun(Run(d, events).sh)
    ensures Begun(Run(d, events + more).sh)
    ensures IsOrderPaid(Run(d, events + more).sh) ==> IsOrderPaid(Run(d, events).sh)
  {
    hide SafeWorld, Next;
    if more == [] {
      assert events + more == events;
    } else {
      var k := |more| - 1;
      assert (events + more)[..|events + more| - 1] == events + more[..k];
      NeverPaidAgain(d, events, more[..k]);
      RunsAreSafe(d, events + more[..k]);
      NextIsSafe(d, Run(d, events + more[..k]), more[k]);
      NextPays(d, Run(d, events + more[..k]), more[k]);
    }
  }

  /** Its order has failed or been cancelled exactly when the order was not paid after `e`. */
  lemma ClosedExactly(d: Draft, events: seq<Event>, e: Event)
    requires !Begun(Run(d, events).sh) && Begun(Run(d, events + [e]).sh)
    ensures var w := Run(d, events + [e]);
      (forall more: seq<Event> :: Closed(Run(d, events + [e] + more).sh)) <==> !IsOrderPaid(w.sh)
  {
    hide Run;
    if IsOrderPaid(Run(d, events + [e]).sh) {
      var r, q := ClosesSaga(d, events, e);
      assert events + [e] + q.events[|r.events|..] == q.events;
      assert !Closed(Run(d, events + [e] + q.events[|r.events|..]).sh);
    } else {
      forall more: seq<Event> ensures Closed(Run(d, events + [e] + more).sh) {
        NeverPaidAgain(d, events + [e], more);
        CompensatedAnyway(d, events + [e] + more);
      }
    }
  }

  /** All that `CheckoutAlone.CompensatedIsUndone` promises is kept exactly when both hold. */
  lemma CompensatedIsUndoneExactly(d: Draft, events: seq<Event>, e: Event)
    requires !Begun(Run(d, events).sh) && Begun(Run(d, events + [e]).sh)
    ensures var w := Run(d, events + [e]);
      (forall more: seq<Event> :: IsCompensated(Run(d, events + [e] + more).sh)
        ==> Undone(Run(d, events + [e] + more).sh))
      <==> !Upsets(d, w.sh, w.place) && !IsOrderPaid(w.sh)
  {
    GivenBackExactly(d, events, e);
    ClosedExactly(d, events, e);
    hide Run, Upsets;
    forall more: seq<Event>
      ensures var sh := Run(d, events + [e] + more).sh;
        (IsCompensated(sh) ==> Undone(sh)) <==> GivenBack(sh) && Closed(sh)
    {
      CompensatedAnyway(d, events + [e] + more);
    }
  }
}
