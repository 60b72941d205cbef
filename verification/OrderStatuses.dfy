/** The order's status table and the status methods of the order, as functions on the part of it they change. */
module OrderStatuses {
  import opened Kernel

  datatype OrderStatus =
    | Created | AwaitingPayment | Paid | InFulfilment | Shipped | Delivered
    | Completed | Cancelled | Failed | Returning | Returned

  datatype ActorKind = Buyer | Seller | Support | System

  datatype OrderError = IllegalTransition | PaidAmountMismatch | CancellationDenied | BlankReference

  predicate CanBecome(s: OrderStatus, target: OrderStatus) {
    match s
    case Created => target == AwaitingPayment || target == Cancelled || target == Failed
    case AwaitingPayment => target == Paid || target == Cancelled || target == Failed
    case Paid => target == InFulfilment || target == Cancelled
    case InFulfilment => target == Shipped || target == Cancelled
    case Shipped => target == Delivered || target == Returning || target == Cancelled
    case Delivered => target == Completed || target == Returning
    case Returning => target == Returned
    case _ => false
  }

  predicate IsTerminal(s: OrderStatus) {
    s == Completed || s == Cancelled || s == Failed || s == Returned
  }

  predicate IsPaid(s: OrderStatus) {
    s == Paid || s == InFulfilment || s == Shipped || s == Delivered || s == Completed || s == Returning
      || s == Returned
  }

  predicate IsOpen(s: OrderStatus) {
    s == Created || s == AwaitingPayment
  }

  predicate Cancellable(s: OrderStatus) {
    s == Created || s == AwaitingPayment || s == Paid || s == InFulfilment
  }

  datatype StatusChange = StatusChange(from: OrderStatus, to: OrderStatus, actor: ActorKind)

  /** What the status methods read and write. `history` lists the changes after the first one, into `Created`. */
  datatype OrderHead = OrderHead(status: OrderStatus, total: Money, paymentId: Reference, history: seq<StatusChange>)
  {
    function Move(target: OrderStatus, actor: ActorKind): Result<OrderHead, OrderError> {
      if !CanBecome(status, target) then Err(IllegalTransition)
      else Ok(this.(status := target, history := history + [StatusChange(status, target, actor)]))
    }

    function AwaitPayment(id: Reference): Result<OrderHead, OrderError> {
      if id == BLANK then Err(BlankReference)
      else if status == AwaitingPayment then Ok(this.(paymentId := id))
      else match Move(AwaitingPayment, System)
        case Err(e) => Err(e)
        case Ok(moved) => Ok(moved.(paymentId := id))
    }

    function MarkPaid(paid: Money): Result<OrderHead, OrderError> {
      if status == Paid then Ok(this)
      else if !CanBecome(status, Paid) then Err(IllegalTransition)
      else if paid != total then Err(PaidAmountMismatch)
      else Move(Paid, System)
    }

    function Fail(): Result<OrderHead, OrderError> {
      if status == Failed then Ok(this) else Move(Failed, System)
    }

    function MarkShipped(actor: ActorKind): Result<OrderHead, OrderError> {
      if status == Shipped then Ok(this)
      else if status == Paid then
        match Move(InFulfilment, actor)
        case Err(e) => Err(e)
        case Ok(started) => started.Move(Shipped, actor)
      else Move(Shipped, actor)
    }

    function MarkDelivered(actor: ActorKind): Result<OrderHead, OrderError> {
      if status == Delivered then Ok(this) else Move(Delivered, actor)
    }

    function Complete(): Result<OrderHead, OrderError> {
      if status == Completed then Ok(this) else Move(Completed, System)
    }

    /** Reason texts are taken as valid and a buyer as the order's own. */
    function Cancel(actor: ActorKind): Result<OrderHead, OrderError> {
      if status == Cancelled then Ok(this)
      else if actor != System && !Cancellable(status) then Err(CancellationDenied)
      else match Move(Cancelled, actor)
        case Ok(moved) => Ok(moved)
        case Err(e) => if IsTerminal(status) then Err(CancellationDenied) else Err(e)
    }
  }

  /** Every change is in the table, starts where the one before it ended, and the last one led to `status`. */
  ghost predicate Linked(history: seq<StatusChange>, status: OrderStatus) {
    if history == [] then status == Created
    else
      var last := history[|history| - 1];
      last.to == status && CanBecome(last.from, last.to) && Linked(history[..|history| - 1], last.from)
  }

  function Rank(s: OrderStatus): nat {
    match s
    case Created => 0
    case AwaitingPayment => 1
    case Paid => 2
    case InFulfilment => 3
    case Shipped => 4
    case Delivered => 5
    case Completed => 6
    case Returning => 6
    case Returned => 7
    case Cancelled => 8
    case Failed => 8
  }

  datatype HeadChange =
    | DoAwait(id: Reference) | DoPaid(paid: Money) | DoFail | DoShipped(actor: ActorKind)
    | DoDelivered(actor: ActorKind) | DoComplete | DoCancel(actor: ActorKind)

  function Apply(h: OrderHead, c: HeadChange): OrderHead {
    var r: Result<OrderHead, OrderError> := match c
      case DoAwait(id) => h.AwaitPayment(id)
      case DoPaid(paid) => h.MarkPaid(paid)
      case DoFail => h.Fail()
      case DoShipped(actor) => h.MarkShipped(actor)
      case DoDelivered(actor) => h.MarkDelivered(actor)
      case DoComplete => h.Complete()
      case DoCancel(actor) => h.Cancel(actor);
    if r.Ok? then r.value else h
  }

  /** `t` continues the history of `h`, and a terminal status has no continuation. */
  ghost predicate Continues(h: OrderHead, t: OrderHead) {
    && Linked(t.history, t.status)
    && h.history <= t.history
    && t.total == h.total
    && (IsTerminal(h.status) ==> t.status == h.status)
  }

  lemma MoveContinues(h: OrderHead, target: OrderStatus, actor: ActorKind)
    requires Linked(h.history, h.status)
    ensures h.Move(target, actor).Ok? ==> Continues(h, h.Move(target, actor).value)
  {
    if CanBecome(h.status, target) {
      var history := h.history + [StatusChange(h.status, target, actor)];
      assert history[..|history| - 1] == h.history;
    }
  }

  lemma ShippingContinues(h: OrderHead, actor: ActorKind)
    requires Linked(h.history, h.status)
    ensures h.MarkShipped(actor).Ok? ==> Continues(h, h.MarkShipped(actor).value)
  {
    if h.status == Paid {
      MoveContinues(h, InFulfilment, actor);
      MoveContinues(h.Move(InFulfilment, actor).value, Shipped, actor);
    } else {
      MoveContinues(h, Shipped, actor);
    }
  }

  /** Every method keeps the history linked to the status and only ever appends to it; none leaves a terminal status. */
  lemma ChangeContinues(h: OrderHead, c: HeadChange)
    requires Linked(h.history, h.status)
    ensures Continues(h, Apply(h, c))
  {
    match c
    case DoAwait(id) => MoveContinues(h, AwaitingPayment, System);
    case DoPaid(paid) => MoveContinues(h, Paid, System);
    case DoFail => MoveContinues(h, Failed, System);
    case DoShipped(actor) => ShippingContinues(h, actor);
    case DoDelivered(actor) => MoveContinues(h, Delivered, actor);
    case DoComplete => MoveContinues(h, Completed, System);
    case DoCancel(actor) => MoveContinues(h, Cancelled, actor);
  }

  /** A linked history climbs the ranks, so no status is entered twice and no history is longer than eight changes. */
  lemma {:induction false} HistoryClimbs(history: seq<StatusChange>, status: OrderStatus)
    requires Linked(history, status)
    ensures |history| <= Rank(status) <= 8
    ensures forall i :: 0 <= i < |history| ==> Rank(history[i].to) <= Rank(status)
    ensures forall i, j :: 0 <= i < j < |history| ==> Rank(history[i].to) < Rank(history[j].to)
  {
    if history != [] {
      var init, last := history[..|history| - 1], history[|history| - 1];
      HistoryClimbs(init, last.from);
      forall i | 0 <= i < |init| ensures Rank(history[i].to) <= Rank(last.from) {
        assert history[i] == init[i];
      }
      forall i, j | 0 <= i < j < |history| ensures Rank(history[i].to) < Rank(history[j].to) {
        if j < |init| { assert history[i] == init[i] && history[j] == init[j]; }
      }
    }
  }

  /** An order in a paid status was once paid for; an open or failed one never was. */
  lemma {:induction false} PaidIsInHistory(history: seq<StatusChange>, status: OrderStatus)
    requires Linked(history, status)
    ensures IsPaid(status) ==> exists c :: c in history && c.to == Paid
    ensures IsOpen(status) || status == Failed ==> forall c :: c in history ==> !IsPaid(c.to)
  {
    if history != [] {
      var init, last := history[..|history| - 1], history[|history| - 1];
      assert forall c :: c in history <==> c in init || c == last;
      PaidIsInHistory(init, last.from);
    }
  }
}
