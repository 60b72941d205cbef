/** The checkout protocol of one order as a state machine.

Every database transaction and every call to inventory, payment or promo is one atomic step. A handler is a program
counter with the locals it carries; it may stop after any step, because nothing obliges it to be scheduled again.
`World` lets any number of handlers overlap. */
module Checkout {
  import opened Kernel
  import S = Sagas
  import O = OrderStatuses
  import P = Payments
  import R = Reservations

  /** What the order being placed was priced at, and the policy. */
  datatype Draft = Draft(total: Money, promo: Reference, skus: set<R.SKU>, reservation: Reference, deadline: Time,
    maxAttempts: int)

  /** `accepted` and `captures` record, for the statements below only, every payment that a commit was begun for and
      every payment that a capture was sent for. */
  datatype Shared = Shared(
    saga: Option<S.Saga>,
    order: Option<O.OrderHead>,
    lines: R.Lines,
    payments: map<Reference, P.Payment>,
    redeemed: bool,
    accepted: set<Reference>,
    captures: set<Reference>)

  /** How a port answers: `Refuse` is a rejection by the other side, `Fail` an error without effect and `Lost` an
      error although the request took effect. */
  datatype Answer = Proceed | Refuse | Fail | Lost

  predicate Arrives(answer: Answer) { answer == Proceed || answer == Lost }

  /** What one step learns from outside: the answer, a newly drawn reference and the clock. */
  datatype Input = Input(answer: Answer, drawn: Reference, now: Time)

  datatype Pc =
    // placing the order
    | PlaceReserve | PlaceSave | PlaceUndo | PlaceRedeem | PlaceRedeemed | PlaceLoad
    | PlaceCreate(paymentId: Reference) | PlaceAwait(paymentId: Reference)
    // a payment was authorized
    | AuthBegin(paymentId: Reference) | AuthStray(paymentId: Reference)
    // moving the checkout forward
    | AdvLoad | AdvCommit | AdvCommitted | AdvCapture(seen: S.Saga) | AdvCaptured(seen: S.Saga) | AdvComplete
    // aborting and compensating
    | AbortBegin | RunLoad | RunExecute(seen: S.Saga, step: S.Compensation)
      | RunCancel(seen: S.Saga, step: S.Compensation)
    | RunRefund(seen: S.Saga, step: S.Compensation) | RunRestore(seen: S.Saga, step: S.Compensation)
    | RunSave(seen: S.Saga, step: S.Compensation, ok: bool)
    // cancellation, timeout, manual resumption, payment retry
    | CancelBegin(actor: O.ActorKind) | ExpireBegin | ResumeBegin
    | RetryLoad(paymentId: Reference) | RetryInfo(seen: S.Saga) | RetryCreate(seen: S.Saga)
    | RetryChange(paymentId: Reference) | RetryUndo(paymentId: Reference)
    | Done

  // ---------- the ports ----------

  /** Creates the payment unless it exists, then its intent; succeeds when the payment is pending afterwards. `Lost`
      leaves it without an intent. */
  function CreatePayment(payments: map<Reference, P.Payment>, id: Reference, total: Money, answer: Answer)
    : (map<Reference, P.Payment>, bool)
  {
    if answer == Fail then (payments, false)
    else
      var found := if id in payments then Ok(payments[id]) else P.Initiate(total);
      match found
      case Err(_) => (payments, false)
      case Ok(p) =>
        if p.status != P.Created then (payments, p.status == P.Pending)
        else
          var next := match answer
            case Proceed => p.AttachIntent(id)
            case Refuse => p.Fail()
            case _ => Ok(p);
          match next
          case Err(_) => (payments[id := p], false)
          case Ok(q) => (payments[id := q], q.status == P.Pending)
  }

  function CancelPayment(p: P.Payment): Result<P.Payment, P.PaymentError> {
    if p.status == P.Cancelled || p.status == P.Failed then Ok(p) else p.Cancel()
  }

  /** A full refund under `id`: request, provider call, outcome. A repeated request succeeds as soon as the first one
      has an outcome, even if that outcome was a failure. */
  function RefundPayment(p: P.Payment, id: Reference, answer: Answer): (P.Payment, bool) {
    if answer == Fail then (p, false)
    else match p.RequestRefund(id, p.Refundable())
      case Err(_) => (p, false)
      case Ok(q) =>
        var i := P.FindRefund(q.refunds, id);
        if i < 0 || q.refunds[i].status != P.RefundPending then (q, true)
        else match answer
          case Proceed => (match q.CompleteRefund(id) case Ok(done) => (done, true) case Err(_) => (q, false))
          case Refuse => (match q.FailRefund(id) case Ok(failed) => (failed, false) case Err(_) => (q, false))
          case _ => (q, false)
  }

  // ---------- one step of a handler ----------

  /** A transaction on the saga alone: stored when `change` succeeds. */
  function Store(sh: Shared, change: Result<S.Saga, S.SagaError>): Shared {
    match change case Ok(next) => sh.(saga := Some(next)) case Err(_) => sh
  }

  ghost function StepPlace(d: Draft, sh: Shared, pc: Pc, i: Input): (Shared, Pc) {
    match pc
    case PlaceReserve =>
      if !Arrives(i.answer) || d.skus == {} then (sh, Done)
      else (sh.(lines := map sku | sku in d.skus :: R.Held), if i.answer == Proceed then PlaceSave else Done)
    case PlaceSave =>
      (match S.StartSaga(d.reservation, i.drawn, d.promo, d.total, d.deadline, i.now)
       case Err(_) => (sh, PlaceUndo)
       case Ok(saga) =>
         if i.answer != Proceed then (sh, PlaceUndo)
         else (sh.(saga := Some(saga), order := Some(O.OrderHead(O.Created, d.total, BLANK, []))),
               if d.promo != BLANK then PlaceRedeem else PlaceLoad))
    case PlaceUndo => (if Arrives(i.answer) then sh.(lines := R.After(sh.lines, R.DoRelease)) else sh, Done)
    case PlaceRedeem =>
      if !Arrives(i.answer) || sh.redeemed then (sh, AbortBegin)
      else (sh.(redeemed := true), if i.answer == Proceed then PlaceRedeemed else AbortBegin)
    case PlaceRedeemed =>
      if sh.saga == None then (sh, Done)
      else
        var change := sh.saga.value.MarkPromoRedeemed(i.now);
        (Store(sh, change), if change.Ok? then PlaceLoad else Done)
    case PlaceLoad => (sh, if sh.saga == None then Done else PlaceCreate(sh.saga.value.paymentId))
    case PlaceCreate(id) =>
      var (payments, ok) := CreatePayment(sh.payments, id, d.total, i.answer);
      (sh.(payments := payments), if ok then PlaceAwait(id) else AbortBegin)
    case PlaceAwait(id) =>
      if sh.saga == None || sh.order == None then (sh, Done)
      else (match (sh.order.value.AwaitPayment(id), sh.saga.value.AwaitPayment(id, i.now))
        case (Ok(order), Ok(saga)) => (sh.(order := Some(order), saga := Some(saga)), Done)
        case _ => (sh, Done))
    case _ => (sh, pc)
  }

  /** Where a worker that has loaded `seen` continues. The saga's status is not looked at. */
  function Continue(seen: S.Saga): Pc {
    match seen.step
    case CommittingStock => AdvCommit
    case StockCommitted => AdvCapture(seen)
    case PaymentCaptured => AdvComplete
    case _ => Done
  }

  ghost function StepForward(d: Draft, sh: Shared, pc: Pc, i: Input): (Shared, Pc) {
    match pc
    case AuthBegin(id) =>
      if sh.saga == None then (sh, Done)
      else
        var saga := sh.saga.value;
        var stored := sh.(saga := Some(saga.BeginCommit(id, i.now)),
                          accepted := if saga.Accepts(id) then sh.accepted + {id} else sh.accepted);
        (stored, if saga.paymentId != id then AuthStray(id) else if saga.Accepts(id) then AdvLoad else Done)
    case AuthStray(id) => (CallCancel(sh, id, i.answer).0, Done)
    case AdvLoad => (sh, if sh.saga == None then Done else Continue(sh.saga.value))
    case AdvCommit =>
      if !Arrives(i.answer) then (sh, Done)
      else (match R.Commit(sh.lines)
        case Ok(lines) => (sh.(lines := lines), if i.answer == Proceed then AdvCommitted else Done)
        case Err(_) => (sh, if i.answer == Proceed then AbortBegin else Done))
    case AdvCommitted =>
      if sh.saga == None then (sh, Done)
      else (match sh.saga.value.MarkStockCommitted(i.now)
        case Ok(saga) => (sh.(saga := Some(saga)), AdvCapture(saga))
        case Err(_) => (sh, Done))
    case AdvCapture(seen) =>
      var sent := sh.(captures := sh.captures + {seen.paymentId});
      var refused := if i.answer == Fail || i.answer == Lost then Done else AbortBegin;
      if !Arrives(i.answer) || seen.paymentId !in sh.payments then (sent, refused)
      else (match sh.payments[seen.paymentId].Capture(seen.amount)
        case Ok(p) => (sent.(payments := sent.payments[seen.paymentId := p]), if i.answer == Proceed
          then AdvCaptured(seen) else Done)
        case Err(_) => (sent, refused))
    case AdvCaptured(_) =>
      if sh.saga == None then (sh, Done)
      else
        var change := sh.saga.value.MarkPaymentCaptured(i.now);
        (Store(sh, change), if change.Ok? then AdvComplete else Done)
    case AdvComplete =>
      if sh.saga == None || sh.order == None then (sh, Done)
      else (match (sh.order.value.MarkPaid(sh.saga.value.amount), sh.saga.value.Complete(i.now))
        case (Err(_), _) => (sh, AbortBegin)
        case (Ok(order), Ok(saga)) => (sh.(order := Some(order), saga := Some(saga)), Done)
        case (Ok(_), Err(_)) => (sh, Done))
    case _ => (sh, pc)
  }

  /** The cancel port: the new state, and the error if it was refused. */
  function CallCancel(sh: Shared, id: Reference, answer: Answer): (Shared, Result<(), Option<P.PaymentError>>) {
    if !Arrives(answer) || id !in sh.payments then (sh, Err(None))
    else match CancelPayment(sh.payments[id])
      case Ok(p) => (sh.(payments := sh.payments[id := p]), if answer == Proceed then Ok(()) else Err(None))
      case Err(e) => (sh, Err(if answer == Proceed then Some(e) else None))
  }

  /** Settling the payment starts by asking for its status. */
  function AfterInfo(sh: Shared, seen: S.Saga, step: S.Compensation): Pc {
    if seen.paymentId !in sh.payments then RunSave(seen, step, true)
    else match sh.payments[seen.paymentId].status
      case Created => RunCancel(seen, step)
      case Pending => RunCancel(seen, step)
      case Authorized => RunCancel(seen, step)
      case Captured => RunRefund(seen, step)
      case _ => RunSave(seen, step, true)
  }

  /** Fails an order that nobody has paid for and leaves any other one alone. */
  function CloseOrder(sh: Shared): Shared {
    if sh.order == None || !O.IsOpen(sh.order.value.status) then sh
    else match sh.order.value.Fail()
      case Ok(order) => sh.(order := Some(order))
      case Err(_) => sh
  }

  /** The first call of a step of the plan, and what comes after it. */
  function Execute(sh: Shared, seen: S.Saga, step: S.Compensation): (Shared, Pc) {
    match step
    case RefundPayment => (sh, AfterInfo(sh, seen, step))
    case CancelPayment => (sh, AfterInfo(sh, seen, step))
    case ReturnStock =>
      (match R.Release(sh.lines)
       case Ok(lines) => (sh.(lines := lines), RunSave(seen, step, true))
       case Err(e) => (sh, if e == R.NotFound then RunSave(seen, step, true) else RunRestore(seen, step)))
    case ReleasePromo => (sh.(redeemed := false), RunSave(seen, step, true))
    case CloseOrder => (CloseOrder(sh), RunSave(seen, step, true))
  }

  ghost function StepCompensate(d: Draft, sh: Shared, pc: Pc, i: Input): (Shared, Pc) {
    match pc
    case AbortBegin =>
      if sh.saga == None then (sh, Done)
      else
        var change := sh.saga.value.BeginCompensation(i.drawn, i.now);
        (Store(sh, change), if change.Ok? then RunLoad else Done)
    case RunLoad =>
      if sh.saga == None || sh.saga.value.Pending() == [] then (sh, Done)
      else (sh, RunExecute(sh.saga.value, sh.saga.value.Pending()[0]))
    case RunExecute(seen, step) =>
      var (next, at) := Execute(sh, seen, step);
      if i.answer == Proceed then (next, at) else (if Arrives(i.answer) then next else sh, RunSave(seen, step, false))
    case RunCancel(seen, step) =>
      var (next, reply) := CallCancel(sh, seen.paymentId, i.answer);
      (next, match reply
             case Ok(_) => RunSave(seen, step, true)
             case Err(e) => if e == Some(P.IllegalTransition) then RunRefund(seen, step)
               else RunSave(seen, step, false))
    case RunRefund(seen, step) =>
      if seen.paymentId !in sh.payments then (sh, RunSave(seen, step, false))
      else
        var (p, ok) := RefundPayment(sh.payments[seen.paymentId], seen.refundId, i.answer);
        (sh.(payments := sh.payments[seen.paymentId := p]), RunSave(seen, step, ok))
    case RunRestore(seen, step) =>
      (if Arrives(i.answer) then sh.(lines := R.After(sh.lines, R.DoRestore))
        else sh, RunSave(seen, step, i.answer == Proceed))
    case RunSave(_, step, ok) =>
      if sh.saga == None then (sh, Done)
      else
        var saga := sh.saga.value;
        if ok then (sh.(saga := Some(saga.MarkCompensated(step, i.now))), RunLoad)
        else (sh.(saga := Some(saga.MarkCompensationFailed(d.maxAttempts, i.now))), Done)
    case _ => (sh, pc)
  }

  /** A newly drawn reference: references never repeat. */
  predicate IsNew(sh: Shared, id: Reference) {
    id != BLANK && id !in sh.payments && (sh.saga.Some? ==> id != sh.saga.value.paymentId)
  }

  ghost function StepAside(d: Draft, sh: Shared, pc: Pc, i: Input): (Shared, Pc) {
    match pc
    case CancelBegin(actor) =>
      if sh.saga == None || sh.order == None || sh.saga.value.Committing() then (sh, Done)
      else (match (sh.order.value.Cancel(actor), sh.saga.value.BeginCompensation(i.drawn, i.now))
        case (Ok(cancelled), Ok(begun)) => (sh.(order := Some(cancelled), saga := Some(begun)), RunLoad)
        case _ => (sh, Done))
    case ExpireBegin =>
      if sh.saga == None || !sh.saga.value.Expired(i.now) then (sh, Done)
      else
        var change := sh.saga.value.BeginCompensation(i.drawn, i.now);
        (Store(sh, change), if change.Ok? then RunLoad else Done)
    case ResumeBegin =>
      if sh.saga == None then (sh, Done)
      else
        var change := sh.saga.value.Resume(i.now);
        (Store(sh, change), if change.Ok? then RunLoad else Done)
    case RetryLoad(id) =>
      if sh.saga.Some? && sh.saga.value.paymentId == id && MayRetry(sh.saga.value, i.now)
        then (sh, RetryInfo(sh.saga.value))
      else (sh, Done)
    case RetryInfo(seen) =>
      if i.answer == Proceed && seen.paymentId in sh.payments
         && (sh.payments[seen.paymentId].status == P.Failed || sh.payments[seen.paymentId].status == P.Cancelled)
      then (sh, RetryCreate(seen)) else (sh, Done)
    case RetryCreate(seen) =>
      if !IsNew(sh, i.drawn) then (sh, pc)
      else
        var (payments, ok) := CreatePayment(sh.payments, i.drawn, seen.amount, i.answer);
        (sh.(payments := payments), if ok then RetryChange(i.drawn) else Done)
    case RetryChange(id) =>
      if i.answer != Proceed || sh.saga == None || sh.order == None then (sh, RetryUndo(id))
      else (match (sh.saga.value.ChangePayment(id, i.now), sh.order.value.AwaitPayment(id))
        case (Ok(changed), Ok(waiting)) => (sh.(saga := Some(changed), order := Some(waiting)), Done)
        case _ => (sh, RetryUndo(id)))
    case RetryUndo(id) => (CallCancel(sh, id, i.answer).0, Done)
    case _ => (sh, pc)
  }

  predicate MayRetry(saga: S.Saga, now: Time) {
    saga.status == S.Running && saga.step == S.AwaitingPayment && !saga.Expired(now)
  }

  predicate InPlace(pc: Pc) {
    pc.PlaceReserve? || pc.PlaceSave? || pc.PlaceUndo? || pc.PlaceRedeem? || pc.PlaceRedeemed? || pc.PlaceLoad?
    || pc.PlaceCreate? || pc.PlaceAwait?
  }

  predicate InForward(pc: Pc) {
    pc.AuthBegin? || pc.AuthStray? || pc.AdvLoad? || pc.AdvCommit? || pc.AdvCommitted? || pc.AdvCapture?
      || pc.AdvCaptured?
    || pc.AdvComplete?
  }

  predicate InCompensate(pc: Pc) {
    pc.AbortBegin? || pc.RunLoad? || pc.RunExecute? || pc.RunCancel? || pc.RunRefund? || pc.RunRestore? || pc.RunSave?
  }

  ghost function Step(d: Draft, sh: Shared, pc: Pc, i: Input): (Shared, Pc) {
    if pc == Done then (sh, Done)
    else if InPlace(pc) then StepPlace(d, sh, pc, i)
    else if InForward(pc) then StepForward(d, sh, pc, i)
    else if InCompensate(pc) then StepCompensate(d, sh, pc, i)
    else StepAside(d, sh, pc, i)
  }

  // ---------- what happens without a handler ----------

  datatype Outside =
    | PaymentEvent(id: Reference, op: P.Operation) | LinesExpire(due: set<R.SKU>)
    | Ship(actor: O.ActorKind) | Deliver(actor: O.ActorKind) | CompleteOrder

  /** The events a payment provider reports. */
  predicate IsWebhook(op: P.Operation) {
    op.DoAuthorize? || op.DoFail? || op.DoComplete? || op.DoFailRefund?
  }

  ghost function StepOutside(sh: Shared, e: Outside): Shared {
    match e
    case PaymentEvent(id, op) =>
      if id !in sh.payments || !IsWebhook(op) then sh
      else (match P.Perform(sh.payments[id], op)
        case Ok(p) => sh.(payments := sh.payments[id := p])
        case Err(_) => sh)
    case LinesExpire(due) => sh.(lines := R.Expire(sh.lines, due))
    case Ship(actor) => Fulfil(sh, O.DoShipped(actor))
    case Deliver(actor) => Fulfil(sh, O.DoDelivered(actor))
    case CompleteOrder => Fulfil(sh, O.DoComplete)
  }

  ghost function Fulfil(sh: Shared, c: O.HeadChange): Shared {
    if sh.order == None then sh else sh.(order := Some(O.Apply(sh.order.value, c)))
  }

  // ---------- overlapping handlers ----------

  datatype World = World(sh: Shared, place: Pc, handlers: map<nat, Pc>)

  datatype Event = ByPlace(input: Input) | ByHandler(id: nat, input: Input) | Start(id: nat, pc: Pc)
    | ByOutside(outside: Outside)

  /** How a handler other than the one placing the order begins. A resumed worker begins on any saga: the list of
      stalled sagas it works off may be out of date. */
  predicate IsStart(pc: Pc) {
    pc.AuthBegin? || pc.AdvLoad? || pc.RunLoad? || pc.ExpireBegin? || pc.ResumeBegin? || pc.RetryLoad?
    || pc == CancelBegin(O.Buyer) || pc == CancelBegin(O.Support)
  }

  ghost function Next(d: Draft, w: World, e: Event): World {
    match e
    case ByPlace(i) => var (sh, pc) := Step(d, w.sh, w.place, i); w.(sh := sh, place := pc)
    case ByHandler(id, i) =>
      if id !in w.handlers then w
      else var (sh, pc) := Step(d, w.sh, w.handlers[id], i); w.(sh := sh, handlers := w.handlers[id := pc])
    case Start(id, pc) => if id in w.handlers || !IsStart(pc) then w else w.(handlers := w.handlers[id := pc])
    case ByOutside(outside) => w.(sh := StepOutside(w.sh, outside))
  }

  const EMPTY: Shared := Shared(None, None, map[], map[], false, {}, {})
  const FIRST: World := World(EMPTY, PlaceReserve, map[])

  ghost function Run(d: Draft, events: seq<Event>): World {
    if events == [] then FIRST else Next(d, Run(d, events[..|events| - 1]), events[|events| - 1])
  }
}
