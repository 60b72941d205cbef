/** The buyer's money under any interleaving: the books of all payments of one order. */
module CheckoutMoney {
  import opened Kernel
  import opened Checkout
  import opened CheckoutSafety
  import S = Sagas
  import P = Payments

  /** The books of every payment balance, and only a capture that was sent has taken money. */
  ghost predicate Books(sh: Shared) {
    forall id :: id in sh.payments ==>
      P.Balanced(sh.payments[id]) && (sh.payments[id].captured.amount > 0 ==> id in sh.captures)
  }

  lemma OnlyCaptureTakes(p: P.Payment, op: P.Operation)
    requires P.Balanced(p) && P.Perform(p, op).Ok? && !op.DoCapture?
    ensures P.Balanced(P.Perform(p, op).value) && P.Perform(p, op).value.captured == p.captured
  {
    P.OperationKeepsBalance(p, op);
  }

  /** One payment has moved on without taking money. */
  lemma PaymentKeepsBooks(sh: Shared, id: Reference, p: P.Payment)
    requires Books(sh) && P.Balanced(p) && (p.captured.amount > 0 ==> id in sh.captures)
    ensures Books(sh.(payments := sh.payments[id := p]))
  {
  }

  lemma CreateKeepsBooks(sh: Shared, id: Reference, total: Money, answer: Answer)
    requires Books(sh)
    ensures Books(sh.(payments := CreatePayment(sh.payments, id, total, answer).0))
  {
    hide P.Balanced, P.Perform;
    if answer != Fail && (id in sh.payments || total.amount > 0) {
      var p := if id in sh.payments then sh.payments[id] else P.Initiate(total).value;
      if id !in sh.payments { P.StartBalances(total); }
      if p.status == P.Created {
        PerformIs(p, P.DoAttach(id));
        PerformIs(p, P.DoFail);
        if p.AttachIntent(id).Ok? { OnlyCaptureTakes(p, P.DoAttach(id)); }
        if p.Fail().Ok? { OnlyCaptureTakes(p, P.DoFail); }
      }
    }
  }

  lemma PerformIs(p: P.Payment, op: P.Operation)
    ensures match op
      case DoAttach(intent) => P.Perform(p, op) == p.AttachIntent(intent)
      case DoFail => P.Perform(p, op) == p.Fail()
      case DoCapture(amount) => P.Perform(p, op) == p.Capture(amount)
      case DoCancel => P.Perform(p, op) == p.Cancel()
      case DoRequest(id, amount) => P.Perform(p, op) == p.RequestRefund(id, amount)
      case DoComplete(id) => P.Perform(p, op) == p.CompleteRefund(id)
      case DoFailRefund(id) => P.Perform(p, op) == p.FailRefund(id)
      case _ => true
  {
  }

  lemma CancelKeepsBooks(sh: Shared, id: Reference, answer: Answer)
    requires Books(sh)
    ensures Books(CallCancel(sh, id, answer).0)
  {
    hide P.Balanced, P.Perform;
    if id in sh.payments {
      PerformIs(sh.payments[id], P.DoCancel);
      if sh.payments[id].Cancel().Ok? { OnlyCaptureTakes(sh.payments[id], P.DoCancel); }
    }
  }

  lemma RefundKeepsBooks(p: P.Payment, id: Reference, answer: Answer)
    requires P.Balanced(p)
    ensures var q := RefundPayment(p, id, answer).0; P.Balanced(q) && q.captured == p.captured
  {
    hide P.Balanced, P.Perform;
    var ask := P.DoRequest(id, p.Refundable());
    PerformIs(p, ask);
    if P.Perform(p, ask).Ok? {
      var q := P.Perform(p, ask).value;
      OnlyCaptureTakes(p, ask);
      PerformIs(q, P.DoComplete(id));
      PerformIs(q, P.DoFailRefund(id));
      if P.Perform(q, P.DoComplete(id)).Ok? { OnlyCaptureTakes(q, P.DoComplete(id)); }
      if P.Perform(q, P.DoFailRefund(id)).Ok? { OnlyCaptureTakes(q, P.DoFailRefund(id)); }
    }
  }

  lemma RefundedKeepsBooks(sh: Shared, id: Reference, refund: Reference, answer: Answer)
    requires Books(sh) && id in sh.payments
    ensures Books(sh.(payments := sh.payments[id := RefundPayment(sh.payments[id], refund, answer).0]))
  {
    hide P.Balanced, RefundPayment;
    RefundKeepsBooks(sh.payments[id], refund, answer);
  }

  lemma ClosingKeepsPayments(sh: Shared)
    ensures CloseOrder(sh).payments == sh.payments && CloseOrder(sh).captures == sh.captures
  {
  }

  lemma CaptureKeepsBooks(sh: Shared, id: Reference, amount: Money)
    requires Books(sh)
    ensures var sent := sh.(captures := sh.captures + {id});
      && Books(sent)
      && (id in sh.payments && sh.payments[id].Capture(amount).Ok? ==>
          Books(sent.(payments := sh.payments[id := sh.payments[id].Capture(amount).value])))
  {
    hide P.Balanced;
    if id in sh.payments && sh.payments[id].Capture(amount).Ok? {
      PerformIs(sh.payments[id], P.DoCapture(amount));
      P.OperationKeepsBalance(sh.payments[id], P.DoCapture(amount));
    }
  }

  lemma SamePayments(a: Shared, b: Shared)
    requires Books(a) && b.payments == a.payments && b.captures == a.captures
    ensures Books(b)
  {
  }

  lemma PlaceKeepsBooks(d: Draft, sh: Shared, pc: Pc, i: Input)
    requires Books(sh) && InPlace(pc)
    ensures Books(StepPlace(d, sh, pc, i).0)
  {
    hide Books, CreatePayment;
    if pc.PlaceCreate? { CreateKeepsBooks(sh, pc.paymentId, d.total, i.answer); }
    else { SamePayments(sh, StepPlace(d, sh, pc, i).0); }
  }

  lemma ForwardKeepsBooks(d: Draft, sh: Shared, pc: Pc, i: Input)
    requires Books(sh) && InForward(pc)
    ensures Books(StepForward(d, sh, pc, i).0)
  {
    hide Books, CallCancel;
    match pc
    case AuthStray(id) => CancelKeepsBooks(sh, id, i.answer);
    case AdvCapture(seen) => CaptureKeepsBooks(sh, seen.paymentId, seen.amount);
    case _ => SamePayments(sh, StepForward(d, sh, pc, i).0);
  }

  lemma CompensateKeepsBooks(d: Draft, sh: Shared, pc: Pc, i: Input)
    requires Books(sh) && InCompensate(pc)
    ensures Books(StepCompensate(d, sh, pc, i).0)
  {
    hide Books, CallCancel, RefundPayment, CloseOrder;
    match pc
    case RunCancel(seen, _) => CancelKeepsBooks(sh, seen.paymentId, i.answer);
    case RunRefund(seen, _) =>
      if seen.paymentId in sh.payments { RefundedKeepsBooks(sh, seen.paymentId, seen.refundId, i.answer); }
    case RunExecute(seen, step) =>
      ClosingKeepsPayments(sh);
      SamePayments(sh, StepCompensate(d, sh, pc, i).0);
    case _ => SamePayments(sh, StepCompensate(d, sh, pc, i).0);
  }

  lemma AsideKeepsBooks(d: Draft, sh: Shared, pc: Pc, i: Input)
    requires Books(sh) && Safe(d, sh) && Expects(d, sh, pc)
    requires pc != Done && !InPlace(pc) && !InForward(pc) && !InCompensate(pc)
    ensures Books(StepAside(d, sh, pc, i).0)
  {
    hide Books, CallCancel, CreatePayment, Safe;
    match pc
    case RetryUndo(id) => CancelKeepsBooks(sh, id, i.answer);
    case RetryCreate(seen) => CreateKeepsBooks(sh, i.drawn, seen.amount, i.answer);
    case _ => SamePayments(sh, StepAside(d, sh, pc, i).0);
  }

  lemma StepKeepsBooks(d: Draft, sh: Shared, pc: Pc, i: Input)
    requires Books(sh) && Safe(d, sh) && Expects(d, sh, pc)
    ensures Books(Step(d, sh, pc, i).0)
  {
    hide Books, Safe, Expects, StepPlace, StepForward, StepCompensate, StepAside;
    if pc == Done { }
    else if InPlace(pc) { PlaceKeepsBooks(d, sh, pc, i); }
    else if InForward(pc) { ForwardKeepsBooks(d, sh, pc, i); }
    else if InCompensate(pc) { CompensateKeepsBooks(d, sh, pc, i); }
    else { AsideKeepsBooks(d, sh, pc, i); }
  }

  lemma OutsideKeepsBooks(sh: Shared, e: Outside)
    requires Books(sh)
    ensures Books(StepOutside(sh, e))
  {
    hide P.Balanced, P.Perform;
    if e.PaymentEvent? && e.id in sh.payments && IsWebhook(e.op) && P.Perform(sh.payments[e.id], e.op).Ok? {
      OnlyCaptureTakes(sh.payments[e.id], e.op);
      PaymentKeepsBooks(sh, e.id, P.Perform(sh.payments[e.id], e.op).value);
    }
  }

  lemma NextKeepsBooks(d: Draft, w: World, e: Event)
    requires SafeWorld(d, w) && Books(w.sh)
    ensures Books(Next(d, w, e).sh)
  {
    hide Books, Safe, Expects, Step, StepOutside;
    match e
    case ByPlace(i) => StepKeepsBooks(d, w.sh, w.place, i);
    case ByHandler(id, i) => if id in w.handlers { StepKeepsBooks(d, w.sh, w.handlers[id], i); }
    case Start(id, pc) =>
    case ByOutside(outside) => OutsideKeepsBooks(w.sh, outside);
  }

  lemma {:induction false} RunsKeepBooks(d: Draft, events: seq<Event>)
    ensures Books(Run(d, events).sh)
  {
    if events != [] {
      hide Books, SafeWorld, Next;
      RunsKeepBooks(d, events[..|events| - 1]);
      RunsAreSafe(d, events[..|events| - 1]);
      NextKeepsBooks(d, Run(d, events[..|events| - 1]), events[|events| - 1]);
    }
  }

  /** However many handlers, retries and webhooks overlap: money is taken through one payment only, the one the saga
      accepted, never more than the order total, and never more is given back than was taken. */
  lemma BuyerIsChargedOnce(d: Draft, events: seq<Event>)
    ensures var sh := Run(d, events).sh;
      forall id :: id in sh.payments ==>
        && (sh.payments[id].captured.amount > 0 ==>
            sh.saga.Some? && id == sh.saga.value.paymentId && sh.payments[id].captured.amount <= d.total.amount)
        && sh.payments[id].refunded.amount <= sh.payments[id].captured.amount
  {
    RunsKeepBooks(d, events);
    RunsAreSafe(d, events);
    var sh := Run(d, events).sh;
    forall id | id in sh.payments
      ensures sh.payments[id].captured.amount > 0 ==>
        sh.saga.Some? && id == sh.saga.value.paymentId && sh.payments[id].captured.amount <= d.total.amount
      ensures sh.payments[id].refunded.amount <= sh.payments[id].captured.amount
    {
      P.BooksSay(sh.payments[id]);
    }
  }

  // ---------- what a refund that reports success means ----------

  predicate Resolved(p: P.Payment, id: Reference) {
    var i := P.FindRefund(p.refunds, id);
    i >= 0 && p.refunds[i].status != P.RefundPending
  }

  predicate Refused(p: P.Payment, id: Reference) {
    var i := P.FindRefund(p.refunds, id);
    i >= 0 && p.refunds[i].status == P.RefundFailed
  }

  predicate PaidOut(p: P.Payment, id: Reference) {
    var i := P.FindRefund(p.refunds, id);
    i >= 0 && p.refunds[i].status == P.RefundSucceeded
  }

  lemma RequestFindsRefund(p: P.Payment, id: Reference)
    requires P.Balanced(p) && p.RequestRefund(id, p.Refundable()).Ok?
    ensures var q := p.RequestRefund(id, p.Refundable()).value;
      && P.Balanced(q) && P.FindRefund(q.refunds, id) >= 0
      && (P.FindRefund(p.refunds, id) >= 0 ==> q == p)
      && (P.FindRefund(p.refunds, id) < 0 ==> q.refunds[P.FindRefund(q.refunds, id)].status == P.RefundPending)
  {
    P.RequestKeepsBalance(p, id, p.Refundable());
    hide P.Balanced, P.FindRefund, P.Payment.OutstandingRefunds, P.Payment.Refundable;
    var q := p.RequestRefund(id, p.Refundable()).value;
    if P.FindRefund(p.refunds, id) < 0 {
      assert q.refunds[|p.refunds|].id == id;
      forall j | 0 <= j < |p.refunds| ensures q.refunds[j].id != id {
        assert q.refunds[j] == p.refunds[j] && p.refunds[j] in p.refunds;
      }
    }
  }

  lemma CompletedIsPaidOut(q: P.Payment, id: Reference)
    requires P.Balanced(q) && P.FindRefund(q.refunds, id) >= 0 && !Resolved(q, id)
    ensures q.CompleteRefund(id).Ok? && PaidOut(q.CompleteRefund(id).value, id)
  {
    P.CompleteKeepsBalance(q, id);
    hide P.Balanced;
    var i := P.FindRefund(q.refunds, id);
    var after := q.CompleteRefund(id).value.refunds;
    assert after[i].id == id && forall j :: 0 <= j < |after| ==> after[j].id == q.refunds[j].id;
  }

  /** A refund call reports success exactly when the request is accepted and either had an outcome before or gets one
      now, and the money has then gone back exactly when an earlier attempt under that reference was not refused. */
  lemma RefundReportsOutcome(p: P.Payment, id: Reference, answer: Answer)
    requires P.Balanced(p)
    ensures var (q, ok) := RefundPayment(p, id, answer);
      && (ok <==> answer != Fail && p.RequestRefund(id, p.Refundable()).Ok? && (Resolved(p, id) || answer == Proceed))
      && (ok ==> (PaidOut(q, id) <==> !Refused(p, id)))
  {
    if p.RequestRefund(id, p.Refundable()).Ok? {
      RequestFindsRefund(p, id);
      var q := p.RequestRefund(id, p.Refundable()).value;
      hide P.Balanced, P.FindRefund, P.Payment.RequestRefund, P.Payment.Refundable, P.Payment.CompleteRefund;
      if !Resolved(q, id) { CompletedIsPaidOut(q, id); }
    }
  }
}
