/** The payment aggregate: authorization, capture and refund accounting over an unbounded list of refunds. */
module Payments {
  import opened Kernel

  datatype PaymentStatus = Created | Pending | Authorized | Captured | Failed | Cancelled | Refunded

  datatype RefundStatus = RefundPending | RefundSucceeded | RefundFailed

  datatype Refund = Refund(id: Reference, amount: Money, status: RefundStatus)

  datatype PaymentError =
    | InvalidId | InvalidAmount | InvalidIntent | AmountMismatch | CaptureExceedsHold | CurrencyMismatch
    | RefundExceedsCharge | RefundNotFound | Terminal | IllegalTransition

  predicate IsTerminal(s: PaymentStatus) {
    s == Failed || s == Cancelled || s == PaymentStatus.Refunded
  }

  predicate CanBecome(s: PaymentStatus, target: PaymentStatus) {
    match s
    case Created => target == Pending || target == Failed || target == Cancelled
    case Pending => target == Authorized || target == Failed || target == Cancelled
    case Authorized => target == Captured || target == Cancelled
    case Captured => target == PaymentStatus.Refunded
    case _ => false
  }

  function RefundId(x: Refund): Reference { x.id }

  function FindRefund(refunds: seq<Refund>, id: Reference): (i: int)
    ensures i >= 0 ==> i < |refunds| && refunds[i].id == id
    ensures i < 0 ==> forall r :: r in refunds ==> r.id != id
  {
    FindFirst(refunds, RefundId, id)
  }

  function Outstanding(r: Refund): int { if r.status == RefundFailed then 0 else r.amount.amount }
  function PaidBack(r: Refund): int { if r.status == RefundSucceeded then r.amount.amount else 0 }

  datatype Payment = Payment(
    status: PaymentStatus,
    intent: Reference,
    amount: Money,
    authorized: Money,
    captured: Money,
    refunded: Money,
    refunds: seq<Refund>)
  {
    function Allows(target: PaymentStatus): Option<PaymentError> {
      if IsTerminal(status) then Some(Terminal)
      else if !CanBecome(status, target) then Some(IllegalTransition)
      else None
    }

    function AttachIntent(id: Reference): Result<Payment, PaymentError> {
      if status == Pending && intent == id then Ok(this)
      else if id == BLANK then Err(InvalidIntent)
      else match Allows(Pending)
        case Some(e) => Err(e)
        case None => Ok(this.(status := Pending, intent := id))
    }

    function Authorize(paid: Money): Result<Payment, PaymentError> {
      if status == Authorized || status == Captured then Ok(this)
      else match Allows(Authorized)
        case Some(e) => Err(e)
        case None =>
          if paid != amount then Err(AmountMismatch) else Ok(this.(status := Authorized, authorized := paid))
    }

    function Fail(): Result<Payment, PaymentError> {
      if status == Failed then Ok(this)
      else match Allows(Failed)
        case Some(e) => Err(e)
        case None => Ok(this.(status := Failed))
    }

    function Capture(taken: Money): Result<Payment, PaymentError> {
      if status == Captured && taken == captured then Ok(this)
      else match Allows(Captured)
        case Some(e) => Err(e)
        case None =>
          if taken.amount <= 0 then Err(InvalidAmount)
          else if taken.currency != authorized.currency then Err(CurrencyMismatch)
          else if taken.amount > authorized.amount then Err(CaptureExceedsHold)
          else Ok(this.(status := Captured, captured := taken))
    }

    function Cancel(): Result<Payment, PaymentError> {
      if status == Cancelled then Ok(this)
      else match Allows(Cancelled)
        case Some(e) => Err(e)
        case None => Ok(this.(status := Cancelled))
    }

    /** Asking again for a known refund returns that refund, whatever became of it. */
    function RequestRefund(id: Reference, wanted: Money): Result<Payment, PaymentError> {
      if FindRefund(refunds, id) >= 0 then Ok(this)
      else if id == BLANK then Err(InvalidId)
      else if status != Captured then Err(IllegalTransition)
      else if wanted.amount <= 0 then Err(InvalidAmount)
      else
        match OutstandingRefunds()
        case Err(e) => Err(e)
        case Ok(outstanding) =>
          match outstanding.Add(wanted)
          case Err(_) => Err(CurrencyMismatch)
          case Ok(total) =>
            if total.currency != captured.currency || total.amount > captured.amount then Err(RefundExceedsCharge)
            else Ok(this.(refunds := refunds + [Refund(id, wanted, RefundPending)]))
    }

    function OutstandingRefunds(): Result<Money, PaymentError> {
      AddOutstanding(Money(0, amount.currency), refunds)
    }

    function CompleteRefund(id: Reference): Result<Payment, PaymentError> {
      var i := FindRefund(refunds, id);
      if i < 0 then Err(RefundNotFound)
      else if refunds[i].status != RefundPending then Ok(this)
      else match refunded.Add(refunds[i].amount)
        case Err(_) => Err(CurrencyMismatch)
        case Ok(total) =>
          Ok(this.(refunds := refunds[i := refunds[i].(status := RefundSucceeded)], refunded := total,
                   status := if total == captured then PaymentStatus.Refunded else status))
    }

    function FailRefund(id: Reference): Result<Payment, PaymentError> {
      var i := FindRefund(refunds, id);
      if i < 0 then Err(RefundNotFound)
      else if refunds[i].status != RefundPending then Ok(this)
      else Ok(this.(refunds := refunds[i := refunds[i].(status := RefundFailed)]))
    }

    /** What a full refund would still give back. */
    function Refundable(): Money {
      match OutstandingRefunds()
      case Err(_) => Money(0, amount.currency)
      case Ok(outstanding) => match captured.Sub(outstanding)
        case Err(_) => Money(0, amount.currency)
        case Ok(left) => left
    }
  }

  function AddOutstanding(total: Money, refunds: seq<Refund>): Result<Money, PaymentError> {
    if refunds == [] then Ok(total)
    else
      match AddOutstanding(total, refunds[..|refunds| - 1])
      case Err(e) => Err(e)
      case Ok(sum) =>
        var last := refunds[|refunds| - 1];
        if last.status == RefundFailed then Ok(sum)
        else match sum.Add(last.amount)
          case Err(_) => Err(CurrencyMismatch)
          case Ok(next) => Ok(next)
  }

  function Initiate(amount: Money): Result<Payment, PaymentError> {
    if amount.amount <= 0 then Err(InvalidAmount)
    else
      var zero := Money(0, amount.currency);
      Ok(Payment(Created, BLANK, amount, zero, zero, zero, []))
  }

  /** The books of a payment. Nothing here mentions pending refunds or the refunded step: see `BooksSay`. */
  ghost predicate Balanced(p: Payment) {
    && p.amount.amount > 0
    && p.authorized.currency == p.captured.currency == p.refunded.currency == p.amount.currency
    && (forall r :: r in p.refunds ==> r.amount.currency == p.amount.currency && r.amount.amount > 0)
    && (forall i, j :: 0 <= i < j < |p.refunds| ==> p.refunds[i].id != p.refunds[j].id)
    && p.captured.amount <= p.authorized.amount
    && (p.authorized.amount == 0 || p.authorized == p.amount)
    && (p.status == Created || p.status == Pending || p.status == Failed ==> p.authorized.amount == 0)
    && (p.status == Authorized ==> p.authorized == p.amount)
    && (p.captured.amount > 0 <==> p.status == Captured || p.status == PaymentStatus.Refunded)
    && (p.refunds != [] ==> p.captured.amount > 0)
    && (p.status == PaymentStatus.Refunded <==> p.captured.amount > 0 && p.refunded == p.captured)
    && p.refunded.amount == Sum(p.refunds, PaidBack)
    && Sum(p.refunds, Outstanding) <= p.captured.amount
  }

  lemma {:induction false} PaidBackIsOutstanding(refunds: seq<Refund>)
    ensures Sum(refunds, PaidBack) <= Sum(refunds, Outstanding)
    ensures forall r :: r in refunds && r.status == RefundPending ==>
      Sum(refunds, PaidBack) + r.amount.amount <= Sum(refunds, Outstanding)
  {
    if refunds != [] {
      var init, last := refunds[..|refunds| - 1], refunds[|refunds| - 1];
      PaidBackIsOutstanding(init);
      forall r | r in refunds && r.status == RefundPending
        ensures Sum(refunds, PaidBack) + r.amount.amount <= Sum(refunds, Outstanding)
      {
        assert r in init || r == last;
      }
    }
  }

  /** What balanced books imply: a pending refund means the payment is captured and not yet fully given back, so
      completing it can only take the legal step from captured to refunded; and a refunded payment owes nothing. */
  lemma BooksSay(p: Payment)
    requires Balanced(p)
    ensures forall r :: r in p.refunds && r.status == RefundPending ==>
      p.status == Captured && CanBecome(p.status, PaymentStatus.Refunded)
      && p.refunded.amount + r.amount.amount <= p.captured.amount
    ensures p.refunded.amount <= Sum(p.refunds,
      Outstanding) <= p.captured.amount <= p.authorized.amount <= p.amount.amount
    ensures p.status == PaymentStatus.Refunded ==> Sum(p.refunds, Outstanding) == p.captured.amount
  {
    PaidBackIsOutstanding(p.refunds);
    forall r | r in p.refunds && r.status == RefundPending ensures p.status == Captured {
      assert p.refunded.amount < p.captured.amount;
    }
  }

  /** Adding up what is outstanding never fails on balanced books. */
  lemma {:induction false} OutstandingIsSum(total: Money, refunds: seq<Refund>)
    requires forall r :: r in refunds ==> r.amount.currency == total.currency
    requires total.amount + Sum(refunds, Outstanding) <= MAX_INT64
    ensures AddOutstanding(total, refunds).Ok?
    ensures AddOutstanding(total, refunds).value.currency == total.currency
    ensures AddOutstanding(total, refunds).value.amount == total.amount + Sum(refunds, Outstanding)
  {
    if refunds != [] {
      var init := refunds[..|refunds| - 1];
      assert refunds[|refunds| - 1] in refunds;
      forall r | r in init ensures r.amount.currency == total.currency { assert r in refunds; }
      OutstandingIsSum(total, init);
    }
  }

  datatype Operation =
    | DoAttach(intent: Reference) | DoAuthorize(amount: Money) | DoFail | DoCapture(amount: Money) | DoCancel
    | DoRequest(id: Reference, amount: Money) | DoComplete(id: Reference) | DoFailRefund(id: Reference)

  function Perform(p: Payment, op: Operation): Result<Payment, PaymentError> {
    match op
    case DoAttach(intent) => p.AttachIntent(intent)
    case DoAuthorize(amount) => p.Authorize(amount)
    case DoFail => p.Fail()
    case DoCapture(amount) => p.Capture(amount)
    case DoCancel => p.Cancel()
    case DoRequest(id, amount) => p.RequestRefund(id, amount)
    case DoComplete(id) => p.CompleteRefund(id)
    case DoFailRefund(id) => p.FailRefund(id)
  }

  lemma RequestKeepsBalance(p: Payment, id: Reference, wanted: Money)
    requires Balanced(p) && p.RequestRefund(id, wanted).Ok?
    ensures Balanced(p.RequestRefund(id, wanted).value)
  {
    var q := p.RequestRefund(id, wanted).value;
    if q != p {
      OutstandingIsSum(Money(0, p.amount.currency), p.refunds);
      var r := Refund(id, wanted, RefundPending);
      SumAppend(p.refunds, r, Outstanding);
      SumAppend(p.refunds, r, PaidBack);
    }
  }

  lemma CompleteKeepsBalance(p: Payment, id: Reference)
    requires Balanced(p)
    ensures var i := FindRefund(p.refunds, id);
      i >= 0 ==> p.CompleteRefund(id).Ok? && Balanced(p.CompleteRefund(id).value)
  {
    var i := FindRefund(p.refunds, id);
    if i >= 0 && p.refunds[i].status == RefundPending {
      var old_, new_ := p.refunds[i], p.refunds[i].(status := RefundSucceeded);
      assert old_ in p.refunds;
      BooksSay(p);
      SumUpdate(p.refunds, i, new_, Outstanding);
      SumUpdate(p.refunds, i, new_, PaidBack);
    }
  }

  lemma FailRefundKeepsBalance(p: Payment, id: Reference)
    requires Balanced(p) && p.FailRefund(id).Ok?
    ensures Balanced(p.FailRefund(id).value)
  {
    var i := FindRefund(p.refunds, id);
    if p.refunds[i].status == RefundPending {
      var new_ := p.refunds[i].(status := RefundFailed);
      assert p.refunds[i] in p.refunds;
      SumUpdate(p.refunds, i, new_, Outstanding);
      SumUpdate(p.refunds, i, new_, PaidBack);
    }
  }

  lemma StatusKeepsBalance(p: Payment, op: Operation)
    requires Balanced(p) && Perform(p, op).Ok? && !op.DoRequest? && !op.DoComplete? && !op.DoFailRefund?
    ensures Balanced(Perform(p, op).value)
    ensures var q := Perform(p, op).value; q.status == p.status || CanBecome(p.status, q.status)
  {
    hide FindRefund;
  }

  lemma OperationKeepsBalance(p: Payment, op: Operation)
    requires Balanced(p) && Perform(p, op).Ok?
    ensures Balanced(Perform(p, op).value)
    ensures var q := Perform(p, op).value; q.status == p.status || CanBecome(p.status, q.status)
  {
    match op
    case DoRequest(id, amount) => RequestKeepsBalance(p, id, amount);
    case DoComplete(id) =>
      CompleteKeepsBalance(p, id);
      BooksSay(p);
      hide Balanced, FindRefund;
      var i := FindRefund(p.refunds, id);
      assert p.refunds[i] in p.refunds;
    case DoFailRefund(id) =>
      FailRefundKeepsBalance(p, id);
      hide Balanced, FindRefund;
    case _ => StatusKeepsBalance(p, op);
  }

  /** A refused operation leaves the payment alone. */
  function After(p: Payment, ops: seq<Operation>): Payment {
    if ops == [] then p
    else
      var before := After(p, ops[..|ops| - 1]);
      match Perform(before, ops[|ops| - 1])
      case Ok(next) => next
      case Err(_) => before
  }

  lemma AmountStays(p: Payment, op: Operation)
    requires Perform(p, op).Ok?
    ensures Perform(p, op).value.amount == p.amount
  {
    hide FindRefund;
  }

  lemma StartBalances(amount: Money)
    requires amount.amount > 0
    ensures Initiate(amount).Ok? && Balanced(Initiate(amount).value)
    ensures Initiate(amount).value.amount == amount && Initiate(amount).value.captured.amount == 0
  {
  }

  /** The books of every payment that any sequence of operations can reach are balanced. */
  lemma {:induction false} ReachablePaymentsBalance(amount: Money, ops: seq<Operation>)
    requires amount.amount > 0
    ensures Balanced(After(Initiate(amount).value, ops))
    ensures After(Initiate(amount).value, ops).amount == amount
  {
    var start := Initiate(amount).value;
    StartBalances(amount);
    hide Balanced, Perform, Initiate;
    if ops != [] {
      ReachablePaymentsBalance(amount, ops[..|ops| - 1]);
      var before := After(start, ops[..|ops| - 1]);
      var op := ops[|ops| - 1];
      if Perform(before, op).Ok? {
        OperationKeepsBalance(before, op);
        AmountStays(before, op);
      }
    }
  }

  /** A full refund of a captured payment without earlier requests asks for everything that was captured. */
  lemma FullRefundTakesEverything(p: Payment, id: Reference)
    requires Balanced(p) && p.status == Captured && p.refunds == [] && id != BLANK
    ensures p.Refundable() == p.captured
    ensures var q := p.RequestRefund(id, p.Refundable());
      q.Ok? && q.value.CompleteRefund(id).Ok? && q.value.CompleteRefund(id).value.status == PaymentStatus.Refunded
  {
    OutstandingIsSum(Money(0, p.amount.currency), []);
    var q := p.RequestRefund(id, p.captured).value;
    assert q.refunds == [Refund(id, p.captured, RefundPending)];
  }

  class PaymentAccount {
    var status: PaymentStatus
    var intent: Reference
    const amount: Money
    var authorized: Money
    var captured: Money
    var refunded: Money
    var refunds: seq<Refund>

    function State(): Payment
      reads this
    {
      Payment(status, intent, amount, authorized, captured, refunded, refunds)
    }

    constructor (p: Payment)
      ensures State() == p
    {
      status, intent, amount, authorized := p.status, p.intent, p.amount, p.authorized;
      captured, refunded, refunds := p.captured, p.refunded, p.refunds;
    }

    method Transition(target: PaymentStatus) returns (error: Option<PaymentError>)
      modifies this`status
      ensures error == old(State()).Allows(target)
      ensures status == if error == None then target else old(status)
    {
      if IsTerminal(status) { return Some(Terminal); }
      if !CanBecome(status, target) { return Some(IllegalTransition); }
      status := target;
      error := None;
    }

    method AttachIntent(id: Reference) returns (error: Option<PaymentError>)
      modifies this
      ensures Follows(old(State()).AttachIntent(id), old(State()), State(), error)
    {
      if status == Pending && intent == id { return None; }
      if id == BLANK { return Some(InvalidIntent); }
      error := Transition(Pending);
      if error == None { intent := id; }
    }

    method Authorize(paid: Money) returns (error: Option<PaymentError>)
      modifies this
      ensures Follows(old(State()).Authorize(paid), old(State()), State(), error)
    {
      if status == Authorized || status == Captured { return None; }
      if State().Allows(Authorized) != None { return State().Allows(Authorized); }
      if paid != amount { return Some(AmountMismatch); }
      error := Transition(Authorized);
      if error == None { authorized := paid; }
    }

    method Fail() returns (error: Option<PaymentError>)
      modifies this
      ensures Follows(old(State()).Fail(), old(State()), State(), error)
    {
      if status == Failed { return None; }
      error := Transition(Failed);
    }

    method Capture(taken: Money) returns (error: Option<PaymentError>)
      modifies this
      ensures Follows(old(State()).Capture(taken), old(State()), State(), error)
    {
      if status == Captured && taken == captured { return None; }
      if State().Allows(Captured) != None { return State().Allows(Captured); }
      if taken.amount <= 0 { return Some(InvalidAmount); }
      if taken.currency != authorized.currency { return Some(CurrencyMismatch); }
      if taken.amount > authorized.amount { return Some(CaptureExceedsHold); }
      error := Transition(Captured);
      if error == None { captured := taken; }
    }

    method Cancel() returns (error: Option<PaymentError>)
      modifies this
      ensures Follows(old(State()).Cancel(), old(State()), State(), error)
    {
      if status == Cancelled { return None; }
      error := Transition(Cancelled);
    }

    /** Sums what is not failed, one refund at a time. */
    method OutstandingRefunds() returns (total: Result<Money, PaymentError>)
      ensures total == State().OutstandingRefunds()
    {
      var sum := Money(0, amount.currency);
      for i := 0 to |refunds|
        invariant Ok(sum) == AddOutstanding(Money(0, amount.currency), refunds[..i])
      {
        assert refunds[..i + 1][..i] == refunds[..i];
        if refunds[i].status != RefundFailed {
          var next := sum.Add(refunds[i].amount);
          if next.Err? {
            FirstErrorStays(Money(0, amount.currency), refunds, i + 1);
            return Err(CurrencyMismatch);
          }
          sum := next.value;
        }
      }
      assert refunds[..|refunds|] == refunds;
      total := Ok(sum);
    }

    method RequestRefund(id: Reference, wanted: Money) returns (error: Option<PaymentError>)
      modifies this
      ensures Follows(old(State()).RequestRefund(id, wanted), old(State()), State(), error)
    {
      if FindRefund(refunds, id) >= 0 { return None; }
      if id == BLANK { return Some(InvalidId); }
      if status != Captured { return Some(IllegalTransition); }
      if wanted.amount <= 0 { return Some(InvalidAmount); }
      var outstanding := OutstandingRefunds();
      if outstanding.Err? { return Some(outstanding.error); }
      var total := outstanding.value.Add(wanted);
      if total.Err? { return Some(CurrencyMismatch); }
      if total.value.currency != captured.currency || total.value.amount > captured.amount {
        return Some(RefundExceedsCharge);
      }
      refunds := refunds + [Refund(id, wanted, RefundPending)];
      error := None;
    }

    method CompleteRefund(id: Reference) returns (error: Option<PaymentError>)
      modifies this
      ensures Follows(old(State()).CompleteRefund(id), old(State()), State(), error)
    {
      var i := FindRefund(refunds, id);
      if i < 0 { return Some(RefundNotFound); }
      if refunds[i].status != RefundPending { return None; }
      var total := refunded.Add(refunds[i].amount);
      if total.Err? { return Some(CurrencyMismatch); }
      refunds := refunds[i := refunds[i].(status := RefundSucceeded)];
      refunded := total.value;
      if refunded == captured { status := PaymentStatus.Refunded; }
      error := None;
    }

    method FailRefund(id: Reference) returns (error: Option<PaymentError>)
      modifies this
      ensures Follows(old(State()).FailRefund(id), old(State()), State(), error)
    {
      var i := FindRefund(refunds, id);
      if i < 0 { return Some(RefundNotFound); }
      if refunds[i].status != RefundPending { return None; }
      refunds := refunds[i := refunds[i].(status := RefundFailed)];
      error := None;
    }
  }

  ghost predicate Follows(spec: Result<Payment, PaymentError>, before: Payment, after: Payment,
      error: Option<PaymentError>) {
    match spec
    case Ok(next) => error == None && after == next
    case Err(e) => error == Some(e) && after == before
  }

  lemma {:induction false} FirstErrorStays(total: Money, refunds: seq<Refund>, n: nat)
    requires n <= |refunds| && AddOutstanding(total, refunds[..n]).Err?
    ensures AddOutstanding(total, refunds) == AddOutstanding(total, refunds[..n])
  {
    if n == |refunds| {
      assert refunds[..n] == refunds;
    } else {
      var init := refunds[..|refunds| - 1];
      assert init[..n] == refunds[..n];
      FirstErrorStays(total, init, n);
    }
  }
}
