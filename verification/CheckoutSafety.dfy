/** What holds of a checkout under any interleaving of any number of handlers, webhooks and expiry.

The proof is rely-guarantee: `Safe` is what every step keeps of the shared state, `Expects` what a handler relies on at
its program counter, and `Later` what no step ever takes back. */
module CheckoutSafety {
  import opened Kernel
  import opened Checkout
  import S = Sagas
  import O = OrderStatuses
  import P = Payments
  import R = Reservations

  // ---------- the shared state ----------

  /** Compensation has begun. */
  predicate Begun(sh: Shared) {
    sh.saga.Some? && sh.saga.value.HasBegun()
  }

  predicate PastBegin(step: S.Step) {
    S.InCommit(step) || step == S.CheckoutCompleted
  }

  predicate CapturedFor(sh: Shared, id: Reference, amount: Money) {
    id in sh.payments && sh.payments[id].status == P.Captured && sh.payments[id].captured == amount
  }

  ghost predicate SafeSaga(d: Draft, s: S.Saga, accepted: set<Reference>, captures: set<Reference>) {
    && s.amount == d.total && s.promoCode == d.promo && s.paymentId != BLANK
    && S.OnPlan(s)
    && (!s.HasBegun() ==> s.compensated == [])
    && (s.status == S.Compensated ==> s.compensated == s.Plan())
    && (s.step == S.PaymentCaptured ==> s.captured) && (s.captured ==> accepted != {})
    && (s.status == S.Completed ==> s.captured && s.step == S.CheckoutCompleted)
    && (PastBegin(s.step) <==> accepted != {})
    && accepted <= {s.paymentId}
    && captures <= accepted
  }

  ghost predicate SafeStock(d: Draft, s: S.Saga, lines: R.Lines) {
    && d.skus != {} && lines.Keys == d.skus && R.Uniform(lines)
    && (!s.HasBegun() && (s.captured || s.step == S.StockCommitted) ==> R.AllCommitted(lines))
    && (S.ReturnStock in s.compensated ==> R.Dead(lines))
  }

  ghost predicate SafePayments(d: Draft, s: S.Saga, payments: map<Reference, P.Payment>) {
    && (forall id :: id in payments ==> payments[id].amount == d.total)
    && (!s.HasBegun() ==> forall id :: id in payments ==> payments[id].refunds == [])
    && (!s.HasBegun() && s.captured ==>
        s.paymentId in payments && payments[s.paymentId].status == P.Captured
          && payments[s.paymentId].captured == d.total)
  }

  ghost predicate SafeOrder(d: Draft, s: S.Saga, o: O.OrderHead) {
    && o.total == d.total
    && (s.status == S.Completed ==> O.IsPaid(o.status))
    && (O.IsPaid(o.status) ==> s.status != S.Running)
    && (S.CloseOrder in s.compensated ==> !O.IsOpen(o.status))
  }

  ghost predicate Safe(d: Draft, sh: Shared) {
    match sh.saga
    case None =>
      sh.order == None && sh.payments == map[] && !sh.redeemed && sh.accepted == {} && sh.captures == {}
        && R.Uniform(sh.lines)
    case Some(s) =>
      sh.order.Some? && SafeSaga(d, s, sh.accepted, sh.captures) && SafeStock(d, s, sh.lines)
      && SafePayments(d, s, sh.payments) && SafeOrder(d, s, sh.order.value)
  }

  // ---------- what no step takes back ----------

  ghost predicate Later(d: Draft, a: Shared, b: Shared) {
    && (a.saga.Some? ==> b.saga.Some? && b.order.Some?)
    && (Begun(a) ==> Begun(b) && SameCase(a.saga.value, b.saga.value))
    && a.accepted <= b.accepted
    && (a.accepted != {} && a.saga.Some? ==> b.saga.value.paymentId == a.saga.value.paymentId)
    && (a.saga.Some? && a.saga.value.captured ==> b.saga.value.captured)
    && (R.AllCommitted(a.lines) ==> R.AllCommitted(b.lines) || (Begun(b) && R.Dead(b.lines)))
    && (R.Dead(a.lines) ==> R.Dead(b.lines))
    && (forall id :: CapturedFor(a, id, d.total) ==> CapturedFor(b, id, d.total) || Begun(b))
    && (a.order.Some? && !O.IsOpen(a.order.value.status) ==> b.order.Some? && !O.IsOpen(b.order.value.status))
  }

  ghost predicate SameCase(a: S.Saga, b: S.Saga) {
    a.paymentId == b.paymentId && a.refundId == b.refundId && a.Plan() == b.Plan() && a.compensated <= b.compensated
  }

  /** What handlers other than the one placing the order also leave alone while it is being placed. */
  ghost predicate LeavesPlacing(a: Shared, b: Shared) {
    && (a.saga == None ==>
      b.saga == None && b.lines.Keys == a.lines.Keys && (Unresolved(a.lines) ==> Unresolved(b.lines)))
    && (Placing(a) ==> Placing(b) && b.saga.value.paymentId == a.saga.value.paymentId)
  }

  ghost predicate Unresolved(lines: R.Lines) {
    R.OnlyIn(lines, R.Held, R.Expired)
  }

  /** The saga exists and no payment is awaited yet, unless it is being compensated. */
  ghost predicate Placing(sh: Shared) {
    && sh.saga.Some? && sh.accepted == {}
    && (sh.saga.value.status == S.Running ==>
        sh.saga.value.step == S.StockReserved || sh.saga.value.step == S.PromoRedeemed)
  }

  // ---------- what a handler relies on ----------

  ghost predicate OnCase(sh: Shared, seen: S.Saga, step: S.Compensation) {
    && Begun(sh) && seen.paymentId == sh.saga.value.paymentId && seen.refundId == sh.saga.value.refundId
    && step in Due(sh.saga.value)
  }

  /** The steps of the plan that are recorded already, and the next one. */
  ghost function Due(s: S.Saga): seq<S.Compensation> {
    if |s.compensated| < |s.Plan()| then s.Plan()[..|s.compensated| + 1] else s.Plan()
  }

  ghost predicate ExpectsCapture(d: Draft, sh: Shared, seen: S.Saga) {
    && sh.saga.Some? && sh.accepted != {} && seen.paymentId == sh.saga.value.paymentId && seen.amount == d.total
    && (R.AllCommitted(sh.lines) || Begun(sh))
  }

  ghost predicate Expects(d: Draft, sh: Shared, pc: Pc) {
    match pc
    case PlaceReserve => sh.saga == None && sh.lines == map[]
    case PlaceSave => sh.saga == None && d.skus != {} && sh.lines.Keys == d.skus && Unresolved(sh.lines)
    case PlaceUndo => sh.saga == None
    case PlaceRedeem => Placing(sh)
    case PlaceRedeemed => Placing(sh)
    case PlaceLoad => Placing(sh)
    case PlaceCreate(id) => Placing(sh) && id == sh.saga.value.paymentId
    case PlaceAwait(id) => Placing(sh) && id == sh.saga.value.paymentId
    case AdvCommit => sh.saga.Some? && sh.accepted != {}
    case AdvCommitted => sh.saga.Some? && sh.accepted != {} && (R.AllCommitted(sh.lines) || Begun(sh))
    case AdvCapture(seen) => ExpectsCapture(d, sh, seen)
    case AdvCaptured(seen) => ExpectsCapture(d, sh, seen) && (CapturedFor(sh, seen.paymentId, d.total) || Begun(sh))
    case AdvComplete => sh.saga.Some? && sh.saga.value.captured
    case RunExecute(seen, step) => OnCase(sh, seen, step)
    case RunCancel(seen, step) => OnCase(sh, seen, step) && (step == S.CancelPayment || step == S.RefundPayment)
    case RunRefund(seen, step) => OnCase(sh, seen, step) && (step == S.CancelPayment || step == S.RefundPayment)
    case RunRestore(seen, step) => OnCase(sh, seen, step) && step == S.ReturnStock
      && (R.AllCommitted(sh.lines) || R.Dead(sh.lines))
    case RunSave(seen, step, ok) =>
      OnCase(sh, seen, step)
      && (ok && step == S.ReturnStock ==> R.Dead(sh.lines))
      && (ok && step == S.CloseOrder ==> sh.order.Some? && !O.IsOpen(sh.order.value.status))
    case RetryCreate(seen) => sh.saga.Some? && seen.amount == d.total
    case RetryInfo(seen) => sh.saga.Some? && seen.amount == d.total
    case _ => true
  }

  // ---------- stability ----------

  lemma DueGrows(a: S.Saga, b: S.Saga)
    requires SameCase(a, b) && |b.compensated| <= |b.Plan()|
    ensures forall step :: step in Due(a) ==> step in Due(b)
  {
    assert Due(a) <= Due(b);
    forall step | step in Due(a) ensures step in Due(b) {
      var k :| 0 <= k < |Due(a)| && Due(a)[k] == step;
      assert Due(b)[k] == step;
    }
  }

  /** What a handler relies on survives the steps of the others. */
  lemma ExpectationsLast(d: Draft, a: Shared, b: Shared, pc: Pc)
    requires Safe(d, a) && Safe(d, b) && Later(d, a, b) && Expects(d, a, pc)
    requires InPlace(pc) ==> LeavesPlacing(a, b)
    ensures Expects(d, b, pc)
  {
    if Begun(a) {
      DueGrows(a.saga.value, b.saga.value);
    }
  }

  // ---------- changes to one part of the state ----------

  lemma Still(d: Draft, sh: Shared)
    requires Safe(d, sh)
    ensures Later(d, sh, sh) && LeavesPlacing(sh, sh)
  {
  }

  lemma SafeFacts(d: Draft, sh: Shared)
    requires Safe(d, sh) && sh.saga.Some?
    ensures sh.order.Some? && sh.order.value.total == d.total && sh.saga.value.amount == d.total
    ensures sh.lines != map[] && R.Uniform(sh.lines)
  {
  }

  lemma CreateIsSafe(d: Draft, payments: map<Reference, P.Payment>, id: Reference, answer: Answer)
    ensures var next := CreatePayment(payments, id, d.total, answer).0;
      && (forall k :: k in payments ==> k in next)
      && (forall k :: k in payments && k != id ==> next[k] == payments[k])
      && (forall k :: k in next ==> k in payments || k == id)
      && (id in next && id !in payments ==> next[id].amount == d.total && next[id].refunds == [])
      && (id in payments ==> next[id].amount == payments[id].amount && next[id].refunds == payments[id].refunds)
      && (id in payments && payments[id].status != P.Created ==> next == payments)
  {
  }

  /** One payment moves on: its refunds only once compensation has begun, and a captured one stays captured until
      then. */
  lemma PaymentMoves(d: Draft, sh: Shared, id: Reference, p: P.Payment)
    requires Safe(d, sh) && sh.saga.Some? && id in sh.payments && p.amount == sh.payments[id].amount
    requires Begun(sh) || (p.refunds == sh.payments[id].refunds
                           && (sh.payments[id].status == P.Captured
                             ==> p.status == P.Captured && p.captured == sh.payments[id].captured))
    ensures var b := sh.(payments := sh.payments[id := p]); Safe(d, b) && Later(d, sh, b) && LeavesPlacing(sh, b)
  {
  }

  lemma LinesMove(d: Draft, sh: Shared, call: R.LineCall)
    requires Safe(d, sh) && sh.saga.Some? && (call == R.DoRestore ==> Begun(sh))
    ensures var b := sh.(lines := R.After(sh.lines, call)); Safe(d, b) && Later(d, sh, b) && LeavesPlacing(sh, b)
  {
    R.CallKeepsUniform(sh.lines, call);
  }

  /** The saga moves on during or into compensation, and the order with it. */
  lemma CaseMoves(d: Draft, sh: Shared, s: S.Saga, o: O.OrderHead)
    requires Safe(d, sh) && sh.saga.Some? && s.HasBegun() && o.total == d.total
    requires SafeSaga(d, s, sh.accepted, sh.captures)
    requires s.step == sh.saga.value.step && s.captured == sh.saga.value.captured
      && s.paymentId == sh.saga.value.paymentId
    requires Begun(sh) ==> SameCase(sh.saga.value, s)
    requires S.ReturnStock in s.compensated ==> R.Dead(sh.lines)
    requires S.CloseOrder in s.compensated ==> !O.IsOpen(o.status)
    requires O.IsOpen(o.status) ==> O.IsOpen(sh.order.value.status)
    ensures var b := sh.(saga := Some(s), order := Some(o)); Safe(d, b) && Later(d, sh, b) && LeavesPlacing(sh, b)
  {
  }

  /** A capture is sent for the accepted payment, and may succeed. */
  lemma CaptureMoves(d: Draft, sh: Shared, payments: map<Reference, P.Payment>)
    requires Safe(d, sh) && sh.saga.Some? && sh.accepted != {}
    requires payments == sh.payments
             || (exists id, p: P.Payment ::
                  id in sh.payments && payments == sh.payments[id := p] && sh.payments[id].Capture(d.total) == Ok(p))
    ensures var b := sh.(captures := sh.captures + {sh.saga.value.paymentId}, payments := payments);
      Safe(d, b) && Later(d, sh, b) && LeavesPlacing(sh, b)
  {
  }

  /** A payment attempt is created under a new reference. */
  lemma PaymentAppears(d: Draft, sh: Shared, id: Reference, answer: Answer)
    requires Safe(d, sh) && sh.saga.Some? && id !in sh.payments && id != sh.saga.value.paymentId
    ensures var b := sh.(payments := CreatePayment(sh.payments, id, d.total, answer).0);
      Safe(d, b) && Later(d, sh, b) && LeavesPlacing(sh, b)
  {
    CreateIsSafe(d, sh.payments, id, answer);
  }

  /** The order moves on without being paid, or once it has been paid. */
  lemma OrderMoves(d: Draft, sh: Shared, o: O.OrderHead)
    requires Safe(d, sh) && sh.saga.Some? && o.total == d.total
    requires O.IsPaid(o.status) ==> O.IsPaid(sh.order.value.status)
    requires O.IsOpen(o.status) ==> O.IsOpen(sh.order.value.status)
    requires sh.saga.value.status == S.Completed ==> O.IsPaid(o.status)
    ensures var b := sh.(order := Some(o)); Safe(d, b) && Later(d, sh, b) && LeavesPlacing(sh, b)
  {
  }

  // ---------- each step ----------

  /** What every step guarantees to the state, to the handler that takes it and to the others. */
  ghost predicate Sound(d: Draft, a: Shared, b: Shared, pc: Pc) {
    Safe(d, b) && Later(d, a, b) && Expects(d, b, pc)
  }

  lemma CancelIsSafe(d: Draft, sh: Shared, id: Reference, answer: Answer)
    requires Safe(d, sh)
    ensures var b := CallCancel(sh, id, answer).0; Safe(d, b) && Later(d, sh, b) && LeavesPlacing(sh, b)
    ensures var b := CallCancel(sh, id, answer).0; b == sh.(payments := b.payments)
  {
    Still(d, sh);
    if id in sh.payments && CancelPayment(sh.payments[id]).Ok? {
      PaymentMoves(d, sh, id, CancelPayment(sh.payments[id]).value);
    }
  }

  lemma PlaceReserveStep(d: Draft, sh: Shared, i: Input)
    requires Safe(d, sh) && Expects(d, sh, PlaceReserve)
    ensures var (b, next) := StepPlace(d, sh, PlaceReserve, i); Sound(d, sh, b, next)
  {
  }

  lemma PlaceSaveStep(d: Draft, sh: Shared, i: Input)
    requires Safe(d, sh) && Expects(d, sh, PlaceSave)
    ensures var (b, next) := StepPlace(d, sh, PlaceSave, i); Sound(d, sh, b, next)
  {
  }

  lemma PlaceUndoStep(d: Draft, sh: Shared, i: Input)
    requires Safe(d, sh) && Expects(d, sh, PlaceUndo)
    ensures var (b, next) := StepPlace(d, sh, PlaceUndo, i); Sound(d, sh, b, next)
  {
  }

  lemma PlaceRedeemStep(d: Draft, sh: Shared, i: Input)
    requires Safe(d, sh) && Expects(d, sh, PlaceRedeem)
    ensures var (b, next) := StepPlace(d, sh, PlaceRedeem, i); Sound(d, sh, b, next)
  {
  }

  lemma PlaceRedeemedStep(d: Draft, sh: Shared, i: Input)
    requires Safe(d, sh) && Expects(d, sh, PlaceRedeemed)
    ensures var (b, next) := StepPlace(d, sh, PlaceRedeemed, i); Sound(d, sh, b, next)
  {
  }

  lemma PlaceLoadStep(d: Draft, sh: Shared, i: Input)
    requires Safe(d, sh) && Expects(d, sh, PlaceLoad)
    ensures var (b, next) := StepPlace(d, sh, PlaceLoad, i); Sound(d, sh, b, next)
  {
  }

  lemma PlaceCreateStep(d: Draft, sh: Shared, id: Reference, i: Input)
    requires Safe(d, sh) && Expects(d, sh, PlaceCreate(id))
    ensures var (b, next) := StepPlace(d, sh, PlaceCreate(id), i); Sound(d, sh, b, next)
  {
  }

  lemma PlaceAwaitStep(d: Draft, sh: Shared, id: Reference, i: Input)
    requires Safe(d, sh) && Expects(d, sh, PlaceAwait(id))
    ensures var (b, next) := StepPlace(d, sh, PlaceAwait(id), i); Sound(d, sh, b, next)
  {
  }

  lemma AuthBeginStep(d: Draft, sh: Shared, id: Reference, i: Input)
    requires Safe(d, sh) && Expects(d, sh, AuthBegin(id))
    ensures var (b, next) := StepForward(d, sh, AuthBegin(id), i); Sound(d, sh, b, next) && LeavesPlacing(sh, b)
  {
    hide CallCancel, R.Uniform, R.AllCommitted, R.Dead, P.Payment.Capture, S.Saga.Plan;
    if sh.saga.Some? { CommitBeginsOnPlan(sh.saga.value, id, i.now); }
  }

  lemma CommitBeginsOnPlan(s: S.Saga, id: Reference, now: Time)
    ensures var t := s.BeginCommit(id, now); t.Plan() == s.Plan() && S.OnPlan(t) == S.OnPlan(s)
  {
  }

  lemma AuthStrayStep(d: Draft, sh: Shared, id: Reference, i: Input)
    requires Safe(d, sh) && Expects(d, sh, AuthStray(id))
    ensures var (b, next) := StepForward(d, sh, AuthStray(id), i); Sound(d, sh, b, next) && LeavesPlacing(sh, b)
  {
    hide Safe, Later, LeavesPlacing;
    CancelIsSafe(d, sh, id, i.answer);
  }

  lemma AdvLoadStep(d: Draft, sh: Shared, i: Input)
    requires Safe(d, sh) && Expects(d, sh, AdvLoad)
    ensures var (b, next) := StepForward(d, sh, AdvLoad, i); Sound(d, sh, b, next) && LeavesPlacing(sh, b)
  {
  }

  lemma AdvCommitStep(d: Draft, sh: Shared, i: Input)
    requires Safe(d, sh) && Expects(d, sh, AdvCommit)
    ensures var (b, next) := StepForward(d, sh, AdvCommit, i); Sound(d, sh, b, next) && LeavesPlacing(sh, b)
  {
    hide Safe, Later, LeavesPlacing;
    Still(d, sh);
    SafeFacts(d, sh);
    LinesMove(d, sh, R.DoCommit);
    R.BecomeIsUniform(sh.lines, R.Committed);
  }

  lemma AdvCommittedStep(d: Draft, sh: Shared, i: Input)
    requires Safe(d, sh) && Expects(d, sh, AdvCommitted)
    ensures var (b, next) := StepForward(d, sh, AdvCommitted, i); Sound(d, sh, b, next) && LeavesPlacing(sh, b)
  {
  }

  lemma AdvCaptureStep(d: Draft, sh: Shared, seen: S.Saga, i: Input)
    requires Safe(d, sh) && Expects(d, sh, AdvCapture(seen))
    ensures var (b, next) := StepForward(d, sh, AdvCapture(seen), i); Sound(d, sh, b, next) && LeavesPlacing(sh, b)
  {
    hide Safe, Later, LeavesPlacing;
    SafeFacts(d, sh);
    CaptureMoves(d, sh, sh.payments);
    if seen.paymentId in sh.payments && sh.payments[seen.paymentId].Capture(seen.amount).Ok? {
      CaptureMoves(d, sh, sh.payments[seen.paymentId := sh.payments[seen.paymentId].Capture(seen.amount).value]);
    }
  }

  lemma AdvCapturedStep(d: Draft, sh: Shared, seen: S.Saga, i: Input)
    requires Safe(d, sh) && Expects(d, sh, AdvCaptured(seen))
    ensures var (b, next) := StepForward(d, sh, AdvCaptured(seen), i); Sound(d, sh, b, next) && LeavesPlacing(sh, b)
  {
  }

  /** The captured checkout is completed and its order paid, in one transaction. */
  lemma CheckoutCompletes(d: Draft, sh: Shared, o: O.OrderHead, now: Time)
    requires Safe(d, sh) && sh.saga.Some? && sh.saga.value.captured && sh.saga.value.Complete(now).Ok?
    requires O.IsPaid(o.status) && o.total == d.total
    ensures var b := sh.(saga := Some(sh.saga.value.Complete(now).value), order := Some(o));
      Safe(d, b) && Later(d, sh, b) && LeavesPlacing(sh, b)
  {
  }

  lemma AdvCompleteStep(d: Draft, sh: Shared, i: Input)
    requires Safe(d, sh) && Expects(d, sh, AdvComplete)
    ensures var (b, next) := StepForward(d, sh, AdvComplete, i); Sound(d, sh, b, next) && LeavesPlacing(sh, b)
  {
    hide Safe, Later, LeavesPlacing;
    Still(d, sh);
    SafeFacts(d, sh);
    var order, saga := sh.order.value.MarkPaid(sh.saga.value.amount), sh.saga.value.Complete(i.now);
    if order.Ok? && saga.Ok? { CheckoutCompletes(d, sh, order.value, i.now); }
  }

  /** Compensation begins, or has begun, and the order may be closed with it. */
  lemma CaseBegins(d: Draft, sh: Shared, refund: Reference, now: Time, o: O.OrderHead)
    requires Safe(d, sh) && sh.saga.Some? && sh.saga.value.BeginCompensation(refund, now).Ok?
    requires o.total == d.total && (O.IsOpen(o.status) ==> O.IsOpen(sh.order.value.status))
    ensures var b := sh.(saga := Some(sh.saga.value.BeginCompensation(refund, now).value), order := Some(o));
      Safe(d, b) && Later(d, sh, b) && LeavesPlacing(sh, b)
  {
    CaseMoves(d, sh, sh.saga.value.BeginCompensation(refund, now).value, o);
  }

  lemma AbortBeginStep(d: Draft, sh: Shared, i: Input)
    requires Safe(d, sh) && Expects(d, sh, AbortBegin)
    ensures var (b, next) := StepCompensate(d, sh, AbortBegin, i); Sound(d, sh, b, next) && LeavesPlacing(sh, b)
  {
    hide Safe, Later, LeavesPlacing;
    Still(d, sh);
    if sh.saga.Some? && sh.saga.value.BeginCompensation(i.drawn, i.now).Ok? {
      SafeFacts(d, sh);
      CaseBegins(d, sh, i.drawn, i.now, sh.order.value);
    }
  }

  lemma RunLoadStep(d: Draft, sh: Shared, i: Input)
    requires Safe(d, sh) && Expects(d, sh, RunLoad)
    ensures var (b, next) := StepCompensate(d, sh, RunLoad, i); Sound(d, sh, b, next) && LeavesPlacing(sh, b)
  {
    if sh.saga.Some? && sh.saga.value.Pending() != [] {
      var saga := sh.saga.value;
      S.PendingIsRestOfPlan(saga);
      assert Due(saga)[|saga.compensated|] == saga.Pending()[0];
    }
  }

  /** A release leaves the lines dead, or is refused because they are committed or dead already. */
  lemma ReleaseKills(lines: R.Lines)
    requires lines != map[] && R.Uniform(lines)
    ensures match R.Release(lines)
      case Ok(next) => next == R.After(lines, R.DoRelease) && R.Dead(next)
      case Err(e) => e == R.Resolved && R.After(lines, R.DoRelease) == lines && (R.AllCommitted(lines) || R.Dead(lines))
  {
    R.BecomeIsUniform(lines, R.Released);
    if R.Release(lines).Err? { R.RefusedReleaseMeansResolved(lines); }
  }

  lemma ReleaseStep(d: Draft, sh: Shared, seen: S.Saga, i: Input)
    requires Safe(d, sh) && OnCase(sh, seen, S.ReturnStock)
    ensures var (b, next) := StepCompensate(d, sh, RunExecute(seen, S.ReturnStock), i);
      Sound(d, sh, b, next) && LeavesPlacing(sh, b)
  {
    hide Safe, Later, LeavesPlacing, R.Uniform, R.AllCommitted, R.Dead, R.Resolve, AfterInfo, CloseOrder;
    Still(d, sh);
    SafeFacts(d, sh);
    LinesMove(d, sh, R.DoRelease);
    ReleaseKills(sh.lines);
  }

  lemma PromoMoves(d: Draft, sh: Shared, redeemed: bool)
    requires Safe(d, sh) && sh.saga.Some?
    ensures var b := sh.(redeemed := redeemed); Safe(d, b) && Later(d, sh, b) && LeavesPlacing(sh, b)
  {
  }

  lemma OrderFails(d: Draft, sh: Shared)
    requires Safe(d, sh) && Begun(sh) && O.IsOpen(sh.order.value.status)
    ensures var b := CloseOrder(sh); Safe(d, b) && Later(d, sh, b) && LeavesPlacing(sh, b)
  {
    OrderMoves(d, sh, sh.order.value.Fail().value);
  }

  lemma CloseStep(d: Draft, sh: Shared, seen: S.Saga, i: Input)
    requires Safe(d, sh) && OnCase(sh, seen, S.CloseOrder)
    ensures var (b, next) := StepCompensate(d, sh, RunExecute(seen, S.CloseOrder), i);
      Sound(d, sh, b, next) && LeavesPlacing(sh, b)
  {
    hide Safe, Later, LeavesPlacing;
    Still(d, sh);
    SafeFacts(d, sh);
    if O.IsOpen(sh.order.value.status) { OrderFails(d, sh); }
  }

  lemma RunExecuteStep(d: Draft, sh: Shared, seen: S.Saga, step: S.Compensation, i: Input)
    requires Safe(d, sh) && Expects(d, sh, RunExecute(seen, step))
    ensures var (b, next) := StepCompensate(d, sh, RunExecute(seen, step), i);
      Sound(d, sh, b, next) && LeavesPlacing(sh, b)
  {
    hide Safe, Later, LeavesPlacing;
    Still(d, sh);
    if step == S.ReturnStock {
      ReleaseStep(d, sh, seen, i);
    } else if step == S.CloseOrder {
      CloseStep(d, sh, seen, i);
    } else if step == S.ReleasePromo {
      PromoMoves(d, sh, false);
    }
  }

  lemma RunCancelStep(d: Draft, sh: Shared, seen: S.Saga, step: S.Compensation, i: Input)
    requires Safe(d, sh) && Expects(d, sh, RunCancel(seen, step))
    ensures var (b, next) := StepCompensate(d, sh, RunCancel(seen, step), i);
      Sound(d, sh, b, next) && LeavesPlacing(sh, b)
  {
    hide Safe, Later, LeavesPlacing;
    Still(d, sh);
    CancelIsSafe(d, sh, seen.paymentId, i.answer);
  }

  lemma RefundKeepsAmount(p: P.Payment, id: Reference, answer: Answer)
    ensures RefundPayment(p, id, answer).0.amount == p.amount
  {
  }

  lemma RunRefundStep(d: Draft, sh: Shared, seen: S.Saga, step: S.Compensation, i: Input)
    requires Safe(d, sh) && Expects(d, sh, RunRefund(seen, step))
    ensures var (b, next) := StepCompensate(d, sh, RunRefund(seen, step), i);
      Sound(d, sh, b, next) && LeavesPlacing(sh, b)
  {
    hide Safe, Later, LeavesPlacing, RefundPayment;
    Still(d, sh);
    if seen.paymentId in sh.payments {
      RefundKeepsAmount(sh.payments[seen.paymentId], seen.refundId, i.answer);
      PaymentMoves(d, sh, seen.paymentId, RefundPayment(sh.payments[seen.paymentId], seen.refundId, i.answer).0);
    }
  }

  lemma RunRestoreStep(d: Draft, sh: Shared, seen: S.Saga, step: S.Compensation, i: Input)
    requires Safe(d, sh) && Expects(d, sh, RunRestore(seen, step))
    ensures var (b, next) := StepCompensate(d, sh, RunRestore(seen, step), i);
      Sound(d, sh, b, next) && LeavesPlacing(sh, b)
  {
    hide Safe, Later, LeavesPlacing;
    Still(d, sh);
    SafeFacts(d, sh);
    LinesMove(d, sh, R.DoRestore);
    R.RestoreSettles(sh.lines);
  }

  lemma RecordedIsSafe(d: Draft, s: S.Saga, step: S.Compensation, accepted: set<Reference>, captures: set<Reference>,
      now: Time)
    requires SafeSaga(d, s, accepted, captures) && s.HasBegun() && step in Due(s)
    ensures var t := s.MarkCompensated(step, now);
      && SafeSaga(d, t, accepted, captures) && t.HasBegun() && SameCase(s, t)
      && t == s.(compensated := t.compensated, status := t.status, updatedAt := now)
      && forall c :: c in t.compensated ==> c in s.compensated || c == step
  {
    hide S.Saga.MarkCompensated, S.PlanFor;
    var k :| 0 <= k < |Due(s)| && Due(s)[k] == step;
    assert s.Plan()[k] == step;
    S.MarkKeepsPlan(s, k, now);
  }

  lemma RecordStep(d: Draft, sh: Shared, seen: S.Saga, step: S.Compensation, i: Input)
    requires Safe(d, sh) && Expects(d, sh, RunSave(seen, step, true))
    ensures var b := sh.(saga := Some(sh.saga.value.MarkCompensated(step, i.now)));
      Safe(d, b) && Later(d, sh, b) && LeavesPlacing(sh, b)
  {
    var saga := sh.saga.value;
    RecordedIsSafe(d, saga, step, sh.accepted, sh.captures, i.now);
    CaseMoves(d, sh, saga.MarkCompensated(step, i.now), sh.order.value);
  }

  lemma RecordFailureStep(d: Draft, sh: Shared, i: Input)
    requires Safe(d, sh) && Begun(sh)
    ensures var b := sh.(saga := Some(sh.saga.value.MarkCompensationFailed(d.maxAttempts, i.now)));
      Safe(d, b) && Later(d, sh, b) && LeavesPlacing(sh, b)
  {
    CaseMoves(d, sh, sh.saga.value.MarkCompensationFailed(d.maxAttempts, i.now), sh.order.value);
  }

  lemma RunSaveStep(d: Draft, sh: Shared, seen: S.Saga, step: S.Compensation, ok: bool, i: Input)
    requires Safe(d, sh) && Expects(d, sh, RunSave(seen, step, ok))
    ensures var (b, next) := StepCompensate(d, sh, RunSave(seen, step, ok), i);
      Sound(d, sh, b, next) && LeavesPlacing(sh, b)
  {
    hide Safe, Later, LeavesPlacing;
    if ok { RecordStep(d, sh, seen, step, i); } else { RecordFailureStep(d, sh, i); }
  }

  lemma CancelBeginStep(d: Draft, sh: Shared, actor: O.ActorKind, i: Input)
    requires Safe(d, sh) && Expects(d, sh, CancelBegin(actor))
    ensures var (b, next) := StepAside(d, sh, CancelBegin(actor), i); Sound(d, sh, b, next) && LeavesPlacing(sh, b)
  {
    hide Safe, Later, LeavesPlacing;
    Still(d, sh);
    if sh.saga.Some? && sh.saga.value.BeginCompensation(i.drawn, i.now).Ok? {
      SafeFacts(d, sh);
      var cancelled := sh.order.value.Cancel(actor);
      if cancelled.Ok? { CaseBegins(d, sh, i.drawn, i.now, cancelled.value); }
    }
  }

  lemma ExpireBeginStep(d: Draft, sh: Shared, i: Input)
    requires Safe(d, sh) && Expects(d, sh, ExpireBegin)
    ensures var (b, next) := StepAside(d, sh, ExpireBegin, i); Sound(d, sh, b, next) && LeavesPlacing(sh, b)
  {
    hide Safe, Later, LeavesPlacing;
    Still(d, sh);
    if sh.saga.Some? && sh.saga.value.BeginCompensation(i.drawn, i.now).Ok? {
      SafeFacts(d, sh);
      CaseBegins(d, sh, i.drawn, i.now, sh.order.value);
    }
  }

  lemma ResumeBeginStep(d: Draft, sh: Shared, i: Input)
    requires Safe(d, sh) && Expects(d, sh, ResumeBegin)
    ensures var (b, next) := StepAside(d, sh, ResumeBegin, i); Sound(d, sh, b, next) && LeavesPlacing(sh, b)
  {
    hide Safe, Later, LeavesPlacing;
    Still(d, sh);
    if sh.saga.Some? && sh.saga.value.Resume(i.now).Ok? {
      SafeFacts(d, sh);
      ResumedIsSafe(d, sh, i.now);
      CaseMoves(d, sh, sh.saga.value.Resume(i.now).value, sh.order.value);
    }
  }

  lemma ResumedIsSafe(d: Draft, sh: Shared, now: Time)
    requires Safe(d, sh) && sh.saga.Some? && sh.saga.value.status == S.Manual
    ensures var s := sh.saga.value.Resume(now).value;
      && SafeSaga(d, s, sh.accepted, sh.captures) && SameCase(sh.saga.value, s)
      && (S.ReturnStock in s.compensated ==> R.Dead(sh.lines))
      && (S.CloseOrder in s.compensated ==> !O.IsOpen(sh.order.value.status))
  {
  }

  lemma RetryLoadStep(d: Draft, sh: Shared, id: Reference, i: Input)
    requires Safe(d, sh) && Expects(d, sh, RetryLoad(id))
    ensures var (b, next) := StepAside(d, sh, RetryLoad(id), i); Sound(d, sh, b, next) && LeavesPlacing(sh, b)
  {
    hide Safe, Later, LeavesPlacing;
    Still(d, sh);
    if sh.saga.Some? { SafeFacts(d, sh); }
  }

  lemma RetryInfoStep(d: Draft, sh: Shared, seen: S.Saga, i: Input)
    requires Safe(d, sh) && Expects(d, sh, RetryInfo(seen))
    ensures var (b, next) := StepAside(d, sh, RetryInfo(seen), i); Sound(d, sh, b, next) && LeavesPlacing(sh, b)
  {
    hide Safe, Later, LeavesPlacing;
    Still(d, sh);
  }

  lemma RetryCreateStep(d: Draft, sh: Shared, seen: S.Saga, i: Input)
    requires Safe(d, sh) && Expects(d, sh, RetryCreate(seen))
    ensures var (b, next) := StepAside(d, sh, RetryCreate(seen), i); Sound(d, sh, b, next) && LeavesPlacing(sh, b)
  {
    hide Safe, Later, LeavesPlacing;
    Still(d, sh);
    if sh.saga.Some? && i.drawn !in sh.payments && i.drawn != sh.saga.value.paymentId {
      PaymentAppears(d, sh, i.drawn, i.answer);
    }
  }

  /** Another payment is awaited before any commit has begun. */
  lemma PaymentChanges(d: Draft, sh: Shared, s: S.Saga, o: O.OrderHead)
    requires Safe(d, sh) && sh.saga.Some? && o.total == d.total && !O.IsPaid(o.status)
    requires sh.saga.value.status == S.Running && sh.saga.value.step == S.AwaitingPayment && s.paymentId != BLANK
    requires s == sh.saga.value.(paymentId := s.paymentId, updatedAt := s.updatedAt)
    requires O.IsOpen(o.status) ==> O.IsOpen(sh.order.value.status)
    ensures var b := sh.(saga := Some(s), order := Some(o)); Safe(d, b) && Later(d, sh, b) && LeavesPlacing(sh, b)
  {
  }

  lemma RetryChangeStep(d: Draft, sh: Shared, id: Reference, i: Input)
    requires Safe(d, sh) && Expects(d, sh, RetryChange(id))
    ensures var (b, next) := StepAside(d, sh, RetryChange(id), i); Sound(d, sh, b, next) && LeavesPlacing(sh, b)
  {
    hide Safe, Later, LeavesPlacing;
    Still(d, sh);
    if sh.saga.Some? {
      SafeFacts(d, sh);
      var changed, waiting := sh.saga.value.ChangePayment(id, i.now), sh.order.value.AwaitPayment(id);
      if changed.Ok? && waiting.Ok? { PaymentChanges(d, sh, changed.value, waiting.value); }
    }
  }

  lemma RetryUndoStep(d: Draft, sh: Shared, id: Reference, i: Input)
    requires Safe(d, sh) && Expects(d, sh, RetryUndo(id))
    ensures var (b, next) := StepAside(d, sh, RetryUndo(id), i); Sound(d, sh, b, next) && LeavesPlacing(sh, b)
  {
    hide Safe, Later, LeavesPlacing;
    Still(d, sh);
    CancelIsSafe(d, sh, id, i.answer);
  }

  lemma PlaceIsSound(d: Draft, sh: Shared, pc: Pc, i: Input)
    requires InPlace(pc) && Safe(d, sh) && Expects(d, sh, pc)
    ensures var (b, next) := StepPlace(d, sh, pc, i); Sound(d, sh, b, next)
  {
    hide Safe, Later, LeavesPlacing, Expects, StepPlace;
    match pc
    case PlaceReserve => PlaceReserveStep(d, sh, i);
    case PlaceSave => PlaceSaveStep(d, sh, i);
    case PlaceUndo => PlaceUndoStep(d, sh, i);
    case PlaceRedeem => PlaceRedeemStep(d, sh, i);
    case PlaceRedeemed => PlaceRedeemedStep(d, sh, i);
    case PlaceLoad => PlaceLoadStep(d, sh, i);
    case PlaceCreate(id) => PlaceCreateStep(d, sh, id, i);
    case PlaceAwait(id) => PlaceAwaitStep(d, sh, id, i);
  }

  lemma ForwardIsSound(d: Draft, sh: Shared, pc: Pc, i: Input)
    requires InForward(pc) && Safe(d, sh) && Expects(d, sh, pc)
    ensures var (b, next) := StepForward(d, sh, pc, i); Sound(d, sh, b, next) && LeavesPlacing(sh, b)
  {
    hide Safe, Later, LeavesPlacing, Expects, StepForward;
    match pc
    case AuthBegin(id) => AuthBeginStep(d, sh, id, i);
    case AuthStray(id) => AuthStrayStep(d, sh, id, i);
    case AdvLoad => AdvLoadStep(d, sh, i);
    case AdvCommit => AdvCommitStep(d, sh, i);
    case AdvCommitted => AdvCommittedStep(d, sh, i);
    case AdvCapture(seen) => AdvCaptureStep(d, sh, seen, i);
    case AdvCaptured(seen) => AdvCapturedStep(d, sh, seen, i);
    case AdvComplete => AdvCompleteStep(d, sh, i);
  }

  lemma CompensateIsSound(d: Draft, sh: Shared, pc: Pc, i: Input)
    requires InCompensate(pc) && Safe(d, sh) && Expects(d, sh, pc)
    ensures var (b, next) := StepCompensate(d, sh, pc, i); Sound(d, sh, b, next) && LeavesPlacing(sh, b)
  {
    hide Safe, Later, LeavesPlacing, Expects, StepCompensate;
    match pc
    case AbortBegin => AbortBeginStep(d, sh, i);
    case RunLoad => RunLoadStep(d, sh, i);
    case RunExecute(seen, step) => RunExecuteStep(d, sh, seen, step, i);
    case RunCancel(seen, step) => RunCancelStep(d, sh, seen, step, i);
    case RunRefund(seen, step) => RunRefundStep(d, sh, seen, step, i);
    case RunRestore(seen, step) => RunRestoreStep(d, sh, seen, step, i);
    case RunSave(seen, step, ok) => RunSaveStep(d, sh, seen, step, ok, i);
  }

  lemma AsideIsSound(d: Draft, sh: Shared, pc: Pc, i: Input)
    requires pc != Done && !InPlace(pc) && !InForward(pc) && !InCompensate(pc) && Safe(d, sh) && Expects(d, sh, pc)
    ensures var (b, next) := StepAside(d, sh, pc, i); Sound(d, sh, b, next) && LeavesPlacing(sh, b)
  {
    hide Safe, Later, LeavesPlacing, Expects, StepAside;
    match pc
    case CancelBegin(actor) => CancelBeginStep(d, sh, actor, i);
    case ExpireBegin => ExpireBeginStep(d, sh, i);
    case ResumeBegin => ResumeBeginStep(d, sh, i);
    case RetryLoad(id) => RetryLoadStep(d, sh, id, i);
    case RetryInfo(seen) => RetryInfoStep(d, sh, seen, i);
    case RetryCreate(seen) => RetryCreateStep(d, sh, seen, i);
    case RetryChange(id) => RetryChangeStep(d, sh, id, i);
    case RetryUndo(id) => RetryUndoStep(d, sh, id, i);
  }

  /** Any step of any handler keeps the state safe, takes nothing back, and leaves the handler at a counter whose
      expectations hold; one that is not placing the order leaves the placing alone. */
  lemma StepIsSound(d: Draft, sh: Shared, pc: Pc, i: Input)
    requires Safe(d, sh) && Expects(d, sh, pc)
    ensures var (b, next) := Step(d, sh, pc, i); Sound(d, sh, b, next) && (!InPlace(pc) ==> LeavesPlacing(sh, b))
  {
    hide Safe, Later, LeavesPlacing, Expects, StepPlace, StepForward, StepCompensate, StepAside;
    if pc == Done { Still(d, sh); }
    else if InPlace(pc) { PlaceIsSound(d, sh, pc, i); }
    else if InForward(pc) { ForwardIsSound(d, sh, pc, i); }
    else if InCompensate(pc) { CompensateIsSound(d, sh, pc, i); }
    else { AsideIsSound(d, sh, pc, i); }
  }

  // ---------- what happens without a handler ----------

  /** Without requests no webhook changes the refunds, and a captured payment can only move on by a refund. */
  lemma WebhookKeeps(p: P.Payment, op: P.Operation)
    requires IsWebhook(op) && P.Perform(p, op).Ok?
    ensures var q := P.Perform(p, op).value;
      && q.amount == p.amount
      && (p.refunds == [] ==> q.refunds == [] && (p.status == P.Captured ==> q == p))
  {
  }

  lemma ExpiryIsSafe(d: Draft, sh: Shared, due: set<R.SKU>)
    requires Safe(d, sh)
    ensures var b := sh.(lines := R.Expire(sh.lines, due)); Safe(d, b) && Later(d, sh, b) && LeavesPlacing(sh, b)
  {
    R.CallKeepsUniform(sh.lines, R.DoExpire(due));
  }

  lemma FulfilmentKeepsPhase(o: O.OrderHead, c: O.HeadChange)
    requires c.DoShipped? || c.DoDelivered? || c.DoComplete?
    ensures var t := O.Apply(o, c);
      t.total == o.total && O.IsPaid(t.status) == O.IsPaid(o.status) && O.IsOpen(t.status) == O.IsOpen(o.status)
  {
  }

  lemma OutsideIsSafe(d: Draft, sh: Shared, e: Outside)
    requires Safe(d, sh)
    ensures var b := StepOutside(sh, e); Safe(d, b) && Later(d, sh, b) && LeavesPlacing(sh, b)
  {
    Still(d, sh);
    match e
    case PaymentEvent(id, op) =>
      if id in sh.payments && IsWebhook(op) && P.Perform(sh.payments[id], op).Ok? {
        WebhookKeeps(sh.payments[id], op);
        PaymentMoves(d, sh, id, P.Perform(sh.payments[id], op).value);
      }
    case LinesExpire(due) => ExpiryIsSafe(d, sh, due);
    case Ship(actor) => FulfilIsSafe(d, sh, O.DoShipped(actor));
    case Deliver(actor) => FulfilIsSafe(d, sh, O.DoDelivered(actor));
    case CompleteOrder => FulfilIsSafe(d, sh, O.DoComplete);
  }

  lemma FulfilIsSafe(d: Draft, sh: Shared, c: O.HeadChange)
    requires Safe(d, sh) && (c.DoShipped? || c.DoDelivered? || c.DoComplete?)
    ensures var b := Fulfil(sh, c); Safe(d, b) && Later(d, sh, b) && LeavesPlacing(sh, b)
  {
    Still(d, sh);
    if sh.order.Some? {
      FulfilmentKeepsPhase(sh.order.value, c);
      OrderMoves(d, sh, O.Apply(sh.order.value, c));
    }
  }

  // ---------- runs ----------

  ghost predicate SafeWorld(d: Draft, w: World) {
    && Safe(d, w.sh) && Expects(d, w.sh, w.place)
    && (forall id :: id in w.handlers ==> !InPlace(w.handlers[id]) && Expects(d, w.sh, w.handlers[id]))
  }

  lemma OthersKeepExpecting(d: Draft, w: World, b: Shared)
    requires SafeWorld(d, w) && Safe(d, b) && Later(d, w.sh, b)
    ensures forall id :: id in w.handlers ==> Expects(d, b, w.handlers[id])
  {
    hide Safe, Later, LeavesPlacing, Expects;
    forall id | id in w.handlers ensures Expects(d, b, w.handlers[id]) {
      ExpectationsLast(d, w.sh, b, w.handlers[id]);
    }
  }

  /** A step never returns to placing the order. */
  lemma StaysOutOfPlace(d: Draft, sh: Shared, pc: Pc, i: Input)
    requires !InPlace(pc)
    ensures !InPlace(Step(d, sh, pc, i).1)
  {
    hide StepPlace, CallCancel, RefundPayment, CreatePayment, R.Release, R.Commit, P.Payment.Capture, S.Saga.Pending;
    hide S.Saga.BeginCompensation, O.OrderHead.MarkPaid, O.OrderHead.Cancel, O.OrderHead.AwaitPayment;
  }

  lemma NextIsSafe(d: Draft, w: World, e: Event)
    requires SafeWorld(d, w)
    ensures SafeWorld(d, Next(d, w, e)) && Later(d, w.sh, Next(d, w, e).sh)
  {
    hide Safe, Later, LeavesPlacing, Expects, Step, StepOutside;
    Still(d, w.sh);
    match e
    case ByPlace(i) =>
      StepIsSound(d, w.sh, w.place, i);
      OthersKeepExpecting(d, w, Step(d, w.sh, w.place, i).0);
    case ByHandler(id, i) =>
      if id in w.handlers {
        var b := Step(d, w.sh, w.handlers[id], i).0;
        StepIsSound(d, w.sh, w.handlers[id], i);
        StaysOutOfPlace(d, w.sh, w.handlers[id], i);
        OthersKeepExpecting(d, w, b);
        ExpectationsLast(d, w.sh, b, w.place);
      }
    case Start(id, pc) => if IsStart(pc) { StartsExpectNothing(d, w.sh, pc); }
    case ByOutside(outside) =>
      OutsideIsSafe(d, w.sh, outside);
      OthersKeepExpecting(d, w, StepOutside(w.sh, outside));
      ExpectationsLast(d, w.sh, StepOutside(w.sh, outside), w.place);
  }

  lemma StartsExpectNothing(d: Draft, sh: Shared, pc: Pc)
    requires IsStart(pc)
    ensures Expects(d, sh, pc)
  {
  }

  /** Every state that any interleaving reaches is safe. */
  lemma {:induction false} RunsAreSafe(d: Draft, events: seq<Event>)
    ensures SafeWorld(d, Run(d, events))
  {
    if events != [] {
      RunsAreSafe(d, events[..|events| - 1]);
      NextIsSafe(d, Run(d, events[..|events| - 1]), events[|events| - 1]);
    }
  }
}
