/** Building runs of the checkout step by step, and how a compensator that meets no trouble ends one. */
module CheckoutRounds {
  import opened Kernel
  import opened Checkout
  import opened CheckoutSafety
  import opened CheckoutAlone
  import opened CheckoutMoney
  import S = Sagas
  import O = OrderStatuses
  import P = Payments
  import R = Reservations

  // ---------- building runs ----------

  datatype Reached = Reached(events: seq<Event>, world: World)

  ghost predicate IsRun(d: Draft, r: Reached) {
    Run(d, r.events) == r.world
  }

  /** `q` goes on where `r` ends. */
  ghost predicate GoesOn(d: Draft, r: Reached, q: Reached) {
    IsRun(d, q) && r.events <= q.events
  }

  lemma Happen(d: Draft, r: Reached, e: Event) returns (q: Reached)
    requires IsRun(d, r)
    ensures GoesOn(d, r, q) && q.world == Next(d, r.world, e)
  {
    q := Reached(r.events + [e], Next(d, r.world, e));
    assert q.events[..|r.events|] == r.events;
  }

  lemma Handle(d: Draft, r: Reached, h: nat, i: Input) returns (q: Reached)
    requires IsRun(d, r) && h in r.world.handlers
    ensures GoesOn(d, r, q)
    ensures var (sh, pc) := Step(d, r.world.sh, r.world.handlers[h], i);
      q.world == World(sh, r.world.place, r.world.handlers[h := pc])
  {
    q := Happen(d, r, ByHandler(h, i));
  }

  lemma Place(d: Draft, r: Reached, i: Input) returns (q: Reached)
    requires IsRun(d, r)
    ensures GoesOn(d, r, q)
    ensures var (sh, pc) := Step(d, r.world.sh, r.world.place, i); q.world == World(sh, pc, r.world.handlers)
  {
    q := Happen(d, r, ByPlace(i));
  }

  /** Another handler begins. */
  lemma Launch(d: Draft, r: Reached, pc: Pc) returns (q: Reached, h: nat)
    requires IsRun(d, r) && IsStart(pc)
    ensures GoesOn(d, r, q) && h !in r.world.handlers && q.world == r.world.(handlers := r.world.handlers[h := pc])
  {
    h := Unused(r.world.handlers.Keys);
    q := Happen(d, r, Start(h, pc));
  }

  lemma {:induction false} Unused(ids: set<nat>) returns (n: nat)
    ensures forall id :: id in ids ==> id < n
    decreases |ids|
  {
    n := 0;
    if ids != {} {
      var id :| id in ids;
      var m := Unused(ids - {id});
      n := if id < m then m else id + 1;
      assert ids == (ids - {id}) + {id};
    }
  }

  function Yes(): Input { Input(Proceed, BLANK, NO_TIME) }
  function Draw(id: Reference): Input { Input(Proceed, id, NO_TIME) }
  function Broken(): Input { Input(Fail, BLANK, NO_TIME) }

  // ---------- one round ----------

  ghost predicate InRound(sh: Shared) {
    && sh.saga.Some? && sh.saga.value.status == S.Compensating && S.OnPlan(sh.saga.value)
    && |sh.saga.value.compensated| < |sh.saga.value.Plan()|
  }

  ghost function RoundStep(sh: Shared): S.Compensation
    requires InRound(sh)
  {
    sh.saga.value.Plan()[|sh.saga.value.compensated|]
  }

  function Recorded(s: S.Saga): S.Saga
    requires |s.compensated| < |s.Plan()|
  {
    var n := |s.compensated| + 1;
    s.(compensated := s.Plan()[..n], status := if n == |s.Plan()| then S.Compensated
      else s.status, updatedAt := NO_TIME)
  }

  lemma LoadRound(d: Draft, sh: Shared, i: Input)
    requires InRound(sh)
    ensures Step(d, sh, RunLoad, i) == (sh, RunExecute(sh.saga.value, RoundStep(sh)))
  {
    hide StepForward, StepPlace, StepAside;
    S.PendingIsRestOfPlan(sh.saga.value);
  }

  lemma SaveRound(d: Draft, sh: Shared, seen: S.Saga)
    requires InRound(sh)
    ensures Step(d, sh, RunSave(seen, RoundStep(sh), true), Yes())
      == (sh.(saga := Some(Recorded(sh.saga.value))), RunLoad)
  {
    hide StepForward, StepPlace, StepAside;
    S.MarkKeepsPlan(sh.saga.value, |sh.saga.value.compensated|, NO_TIME);
  }

  /** The payment can be settled: a captured one has not been refunded in part, and the saga has a refund reference. */
  ghost predicate Refundable(sh: Shared) {
    && sh.saga.Some? && sh.saga.value.refundId != BLANK
    && (sh.saga.value.paymentId in sh.payments && sh.payments[sh.saga.value.paymentId].status == P.Captured ==>
        sh.payments[sh.saga.value.paymentId].refunds == [])
  }

  /** What a round that meets no trouble leaves of payment, stock, order and promo code. */
  ghost predicate Effect(a: Shared, b: Shared, step: S.Compensation)
    requires a.saga.Some?
  {
    var id := a.saga.value.paymentId;
    && b.saga == a.saga && b.accepted == a.accepted && b.captures == a.captures
    && (PaysBack(step) || b.payments == a.payments)
    && (id in b.payments <==> id in a.payments)
    && (PaysBack(step) && id in a.payments && a.payments[id].status == P.Captured
      ==> PaidBack(a.payments[id], b.payments[id]))
    && (step == S.ReturnStock || b.lines == a.lines)
    && (step == S.ReturnStock && R.AllCommitted(a.lines) ==> b.lines == R.Become(a.lines, R.Restored))
    && (a.order.Some? && !O.IsOpen(a.order.value.status) ==> b.order == a.order)
  }

  ghost predicate PaidBack(p: P.Payment, q: P.Payment) {
    q.status == P.PaymentStatus.Refunded && q.refunded == q.captured == p.captured
  }

  lemma RefundPaysBack(p: P.Payment, id: Reference)
    requires P.Balanced(p) && p.status == P.Captured && p.refunds == [] && id != BLANK
    ensures RefundPayment(p, id, Proceed).1 && PaidBack(p, RefundPayment(p, id, Proceed).0)
  {
    P.FullRefundTakesEverything(p, id);
    RefundKeepsBooks(p, id, Proceed);
    RequestFindsRefund(p, id);
  }

  lemma AsksForStatus(d: Draft, sh: Shared, seen: S.Saga, step: S.Compensation)
    requires PaysBack(step)
    ensures Step(d, sh, RunExecute(seen, step), Yes()) == (sh, AfterInfo(sh, seen, step))
  {
    hide StepForward, StepPlace, StepAside;
  }

  lemma CancelsOpen(d: Draft, sh: Shared, seen: S.Saga, step: S.Compensation)
    requires sh.saga == Some(seen) && PaysBack(step) && AfterInfo(sh, seen, step).RunCancel?
    ensures var (b, next) := Step(d, sh, RunCancel(seen, step), Yes());
      next == RunSave(seen, step, true) && Effect(sh, b, step)
  {
    hide StepForward, StepPlace, StepAside;
  }

  lemma AsksForRefund(d: Draft, sh: Shared, seen: S.Saga, step: S.Compensation)
    requires seen.paymentId in sh.payments
    ensures var (p, ok) := RefundPayment(sh.payments[seen.paymentId], seen.refundId, Proceed);
      Step(d, sh, RunRefund(seen, step), Yes()) == (sh.(payments := sh.payments[seen.paymentId := p]),
        RunSave(seen, step, ok))
  {
    hide StepForward, StepPlace, StepAside, RefundPayment;
  }

  lemma RefundsCaptured(d: Draft, sh: Shared, seen: S.Saga, step: S.Compensation)
    requires sh.saga == Some(seen) && PaysBack(step) && AfterInfo(sh, seen, step).RunRefund? && Refundable(sh)
      && Books(sh)
    ensures var (b, next) := Step(d, sh, RunRefund(seen, step), Yes());
      next == RunSave(seen, step, true) && Effect(sh, b, step)
  {
    AsksForRefund(d, sh, seen, step);
    hide Step, RefundPayment, P.Balanced;
    RefundPaysBack(sh.payments[seen.paymentId], seen.refundId);
  }

  lemma SettleSmoothly(d: Draft, r: Reached, h: nat, seen: S.Saga, step: S.Compensation) returns (q: Reached)
    requires IsRun(d, r) && h in r.world.handlers && r.world.handlers[h] == RunExecute(seen, step)
    requires PaysBack(step) && Refundable(r.world.sh) && r.world.sh.saga == Some(seen) && Books(r.world.sh)
    ensures GoesOn(d, r, q) && q.world.place == r.world.place
    ensures q.world.handlers == r.world.handlers[h := RunSave(seen, step, true)] && Effect(r.world.sh, q.world.sh, step)
  {
    hide Step, Run, Refundable, Books;
    var sh := r.world.sh;
    AsksForStatus(d, sh, seen, step);
    q := Handle(d, r, h, Yes());
    if AfterInfo(sh, seen, step).RunCancel? {
      CancelsOpen(d, sh, seen, step);
      hide Effect;
      q := Handle(d, q, h, Yes());
    } else if AfterInfo(sh, seen, step).RunRefund? {
      RefundsCaptured(d, sh, seen, step);
      hide Effect;
      q := Handle(d, q, h, Yes());
    }
  }

  lemma ReturnSmoothly(d: Draft, r: Reached, h: nat, seen: S.Saga) returns (q: Reached)
    requires IsRun(d, r) && h in r.world.handlers && r.world.handlers[h] == RunExecute(seen, S.ReturnStock)
    requires r.world.sh.saga.Some?
    ensures GoesOn(d, r, q) && q.world.place == r.world.place
    ensures q.world.handlers == r.world.handlers[h := RunSave(seen, S.ReturnStock, true)]
    ensures Effect(r.world.sh, q.world.sh, S.ReturnStock)
  {
    hide StepForward, StepPlace, StepAside, IsRun;
    q := Handle(d, r, h, Yes());
    if q.world.handlers[h].RunRestore? {
      q := Handle(d, q, h, Yes());
    } else if R.AllCommitted(r.world.sh.lines) {
      var sku := R.NonEmptyHasKey(r.world.sh.lines);
    }
  }

  lemma RestSmoothly(d: Draft, r: Reached, h: nat, seen: S.Saga, step: S.Compensation) returns (q: Reached)
    requires IsRun(d, r) && h in r.world.handlers && r.world.handlers[h] == RunExecute(seen, step)
    requires r.world.sh.saga.Some? && (step == S.ReleasePromo || step == S.CloseOrder)
    ensures GoesOn(d, r, q) && q.world.place == r.world.place
      && q.world.handlers == r.world.handlers[h := RunSave(seen, step, true)]
    ensures Effect(r.world.sh, q.world.sh, step)
  {
    hide StepForward, StepPlace, StepAside, IsRun;
    q := Handle(d, r, h, Yes());
  }

  /** A round that meets no trouble. */
  lemma SmoothRound(d: Draft, r: Reached, h: nat) returns (q: Reached, b: Shared)
    requires IsRun(d, r) && h in r.world.handlers && r.world.handlers[h] == RunLoad && InRound(r.world.sh)
    requires PaysBack(RoundStep(r.world.sh)) ==> Refundable(r.world.sh)
    ensures GoesOn(d, r, q) && Effect(r.world.sh, b, RoundStep(r.world.sh))
    ensures q.world == World(b.(saga := Some(Recorded(r.world.sh.saga.value))), r.world.place,
      r.world.handlers[h := RunLoad])
  {
    hide Step, Books, Effect, Refundable, Run;
    var a := r.world.sh;
    var seen, step := a.saga.value, RoundStep(a);
    LoadRound(d, a, Yes());
    RunsKeepBooks(d, r.events);
    q := Handle(d, r, h, Yes());
    if PaysBack(step) { q := SettleSmoothly(d, q, h, seen, step); }
    else if step == S.ReturnStock { q := ReturnSmoothly(d, q, h, seen); }
    else { q := RestSmoothly(d, q, h, seen, step); }
    b := q.world.sh;
    assert b.saga == a.saga by { EffectKeepsSaga(a, b, step); }
    SaveRound(d, b, seen);
    q := Handle(d, q, h, Yes());
  }

  lemma EffectKeepsSaga(a: Shared, b: Shared, step: S.Compensation)
    requires a.saga.Some? && Effect(a, b, step)
    ensures b.saga == a.saga
  {
  }

  // ---------- all rounds ----------

  /** What the rounds that are left do, when none meets trouble. */
  ghost predicate Finished(a: Shared, b: Shared)
    requires a.saga.Some?
  {
    var s := a.saga.value;
    var id := s.paymentId;
    && b.saga == Some(s.(compensated := s.Plan(), status := S.Compensated, updatedAt := NO_TIME))
    && b.accepted == a.accepted && b.captures == a.captures
    && (id in b.payments <==> id in a.payments)
    && (s.compensated != [] ==> b.payments == a.payments)
    && (s.compensated == [] && id in a.payments && a.payments[id].status == P.Captured
      ==> PaidBack(a.payments[id], b.payments[id]))
    && (|s.compensated| > 1 ==> b.lines == a.lines)
    && (|s.compensated| <= 1 && R.AllCommitted(a.lines) ==> b.lines == R.Become(a.lines, R.Restored))
    && (a.order.Some? && !O.IsOpen(a.order.value.status) ==> b.order == a.order)
  }

  /** A compensator that meets no trouble closes the saga. */
  lemma {:induction false} Finish(d: Draft, r: Reached, h: nat) returns (q: Reached)
    requires IsRun(d, r) && h in r.world.handlers && r.world.handlers[h] == RunLoad && InRound(r.world.sh)
    requires r.world.sh.saga.value.compensated == [] ==> Refundable(r.world.sh)
    ensures GoesOn(d, r, q) && Finished(r.world.sh, q.world.sh)
    ensures q.world.place == r.world.place && q.world.handlers == r.world.handlers[h := RunLoad]
    decreases |r.world.sh.saga.value.Plan()| - |r.world.sh.saga.value.compensated|
  {
    hide Step, Run;
    var a := r.world.sh;
    var b: Shared;
    q, b := SmoothRound(d, r, h);
    var c := q.world.sh;
    if c.saga.value.status == S.Compensated {
      FinishedAtOnce(a, b);
    } else {
      var end := Finish(d, q, h);
      FinishedLater(a, b, end.world.sh);
      assert r.world.handlers[h := RunLoad][h := RunLoad] == r.world.handlers[h := RunLoad];
      q := end;
    }
  }

  lemma FinishedAtOnce(a: Shared, b: Shared)
    requires InRound(a) && Effect(a, b, RoundStep(a)) && |a.saga.value.compensated| + 1 == |a.saga.value.Plan()|
    ensures Finished(a, b.(saga := Some(Recorded(a.saga.value))))
  {
    var s := a.saga.value;
    assert s.Plan()[..|s.Plan()|] == s.Plan();
  }

  lemma FinishedLater(a: Shared, b: Shared, end: Shared)
    requires InRound(a) && Effect(a, b, RoundStep(a)) && |a.saga.value.compensated| + 1 < |a.saga.value.Plan()|
    requires Finished(b.(saga := Some(Recorded(a.saga.value))), end)
    ensures Finished(a, end)
  {
  }
}
