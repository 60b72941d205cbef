/** Exactly when handlers that overlap reopen a finished checkout. `CheckoutOverlaps` has runs in which
each of these conditions is met. */
module CheckoutEndings {
  import opened Kernel
  import opened Checkout
  import opened CheckoutSafety
  import opened CheckoutRuns
  import S = Sagas
  import O = OrderStatuses
  import P = Payments
  import R = Reservations

  predicate Is(sh: Shared, status: S.SagaStatus) {
    sh.saga.Some? && sh.saga.value.status == status
  }

  predicate Over(sh: Shared) {
    Is(sh, S.Completed) || Begun(sh)
  }

  // ---------- a completed checkout ----------

  /** Before the order is shipped; the system itself, which no handler acts for, until it is delivered. */
  predicate Cancellable(o: O.OrderHead, actor: O.ActorKind) {
    O.Cancellable(o.status) || (actor == O.System && o.status == O.Shipped)
  }

  /** The transaction of `Abort`, whatever has become of the order, or a cancellation that comes in time. */
  predicate TakesBack(sh: Shared, pc: Pc, i: Input) {
    i.drawn != BLANK
    && (pc == AbortBegin || (pc.CancelBegin? && sh.order.Some? && Cancellable(sh.order.value, pc.actor)))
  }

  predicate TakenBackBy(w: World, e: Event) {
    match e
    case ByPlace(i) => TakesBack(w.sh, w.place, i)
    case ByHandler(id, i) => id in w.handlers && TakesBack(w.sh, w.handlers[id], i)
    case _ => false
  }

  lemma CompletedIsLeft(d: Draft, sh: Shared, pc: Pc, i: Input)
    requires Safe(d, sh) && Expects(d, sh, pc) && Is(sh, S.Completed)
    ensures var b := Step(d, sh, pc, i).0; Over(b) && (Is(b, S.Completed) <==> !TakesBack(sh, pc, i))
  {
    hide StepPlace, StepForward, StepCompensate, StepAside;
    if InPlace(pc) { assert false; }
    else if InForward(pc) { CompletedInForward(d, sh, pc, i); }
    else if InCompensate(pc) { CompletedInCompensate(d, sh, pc, i); }
    else if pc != Done { CompletedAside(d, sh, pc, i); }
  }

  lemma CompletedInForward(d: Draft, sh: Shared, pc: Pc, i: Input)
    requires Is(sh, S.Completed) && InForward(pc)
    ensures Is(StepForward(d, sh, pc, i).0, S.Completed)
  {
    hide P.Payment.Capture, CallCancel, O.OrderHead.MarkPaid;
    if pc.AuthStray? { CancelKeepsRest(sh, pc.paymentId, i.answer); }
  }

  lemma CompletedInCompensate(d: Draft, sh: Shared, pc: Pc, i: Input)
    requires Expects(d, sh, pc) && Is(sh, S.Completed) && InCompensate(pc)
    ensures var b := StepCompensate(d, sh, pc, i).0;
      Over(b) && (Is(b, S.Completed) <==> !(pc == AbortBegin && i.drawn != BLANK))
  {
  }

  lemma CompletedAside(d: Draft, sh: Shared, pc: Pc, i: Input)
    requires Is(sh, S.Completed) && sh.order.Some? && O.IsPaid(sh.order.value.status)
    requires !InPlace(pc) && !InForward(pc) && !InCompensate(pc) && pc != Done
    ensures var b := StepAside(d, sh, pc, i).0; Over(b) && (Is(b, S.Completed) <==> !TakesBack(sh, pc, i))
  {
    hide CreatePayment, CallCancel;
    if pc.RetryUndo? { CancelKeepsRest(sh, pc.paymentId, i.answer); }
  }

  lemma CancelKeepsRest(sh: Shared, id: Reference, answer: Answer)
    ensures var b := CallCancel(sh, id, answer).0; b == sh.(payments := b.payments)
  {
  }

  lemma NextTakesBack(d: Draft, w: World, e: Event)
    requires SafeWorld(d, w) && Is(w.sh, S.Completed)
    ensures var b := Next(d, w, e).sh; Over(b) && (Is(b, S.Completed) <==> !TakenBackBy(w, e))
  {
    hide Step, Safe, Expects, TakesBack;
    match e
    case ByPlace(i) => CompletedIsLeft(d, w.sh, w.place, i);
    case ByHandler(id, i) => if id in w.handlers { CompletedIsLeft(d, w.sh, w.handlers[id], i); }
    case Start(_, _) =>
    case ByOutside(outside) => OutsideKeepsSaga(w.sh, outside);
  }

  lemma OutsideKeepsSaga(sh: Shared, e: Outside)
    ensures StepOutside(sh, e).saga == sh.saga
  {
  }

  ghost predicate NeverTakenBack(d: Draft, events: seq<Event>, more: seq<Event>) {
    forall n | 0 <= n < |more| :: !TakenBackBy(Run(d, events + more[..n]), more[n])
  }

  lemma NotTakenBackYet(d: Draft, events: seq<Event>, more: seq<Event>)
    requires more != []
    ensures var k := |more| - 1;
      NeverTakenBack(d, events, more) <==>
        NeverTakenBack(d, events, more[..k]) && !TakenBackBy(Run(d, events + more[..k]), more[k])
  {
    hide Run, TakenBackBy;
    var init := more[..|more| - 1];
    assert forall n | 0 <= n < |init| :: init[..n] == more[..n] && init[n] == more[n];
  }

  /** A completed checkout stays completed exactly while no late handler aborts it and nobody cancels it in time;
      completed includes stock, money and a paid order (`CheckoutRuns.CompletedMeansPaid`). */
  lemma {:induction false} CompletedStaysExactly(d: Draft, events: seq<Event>, more: seq<Event>)
    requires Is(Run(d, events).sh, S.Completed)
    ensures Over(Run(d, events + more).sh)
    ensures Is(Run(d, events + more).sh, S.Completed) <==> NeverTakenBack(d, events, more)
  {
    if more == [] {
      assert events + more == events;
    } else {
      var k := |more| - 1;
      var before := Run(d, events + more[..k]);
      assert (events + more)[..|events + more| - 1] == events + more[..k];
      CompletedStaysExactly(d, events, more[..k]);
      NotTakenBackYet(d, events, more);
      RunsAreSafe(d, events + more[..k]);
      hide SafeWorld, NeverTakenBack, TakenBackBy;
      assert Run(d, events + more) == Next(d, before, more[k]);
      hide Run, Next;
      if Is(before.sh, S.Completed) {
        NextTakesBack(d, before, more[k]);
      } else {
        NextIsSafe(d, before, more[k]);
      }
    }
  }

  // ---------- a compensated checkout ----------

  /** A failure report that comes late and reaches the limit of attempts. */
  predicate Reopens(d: Draft, sh: Shared, pc: Pc) {
    pc.RunSave? && !pc.ok && sh.saga.Some? && sh.saga.value.attempts + 1 >= d.maxAttempts
  }

  /** Compensating, with nothing left to do: no round can close it any more. */
  predicate Stranded(sh: Shared) {
    Is(sh, S.Compensating) && sh.saga.value.Pending() == []
  }

  /** Support resumes a saga that has everything recorded. */
  predicate ResumesNothing(sh: Shared, pc: Pc) {
    pc == ResumeBegin && Is(sh, S.Manual) && sh.saga.value.compensated == sh.saga.value.Plan()
  }

  /** A compensated saga is reopened exactly by a failure report that comes late and reaches the limit, and a saga gets
      stranded exactly by resuming one that has everything recorded. */
  lemma ClosedIsLeft(d: Draft, sh: Shared, pc: Pc, i: Input)
    requires Safe(d, sh) && Expects(d, sh, pc)
    ensures var b := Step(d, sh, pc, i).0;
      && (Is(sh, S.Compensated) ==> (Is(b, S.Compensated) <==> !Reopens(d, sh, pc)))
      && (!Stranded(sh) ==> (Stranded(b) <==> ResumesNothing(sh, pc)))
  {
    hide StepPlace, StepForward, StepCompensate, StepAside, Safe, Expects;
    if InPlace(pc) { ClosedWhilePlacing(d, sh, pc, i); }
    else if InForward(pc) { ClosedInForward(d, sh, pc, i); }
    else if InCompensate(pc) { ClosedInCompensate(d, sh, pc, i); }
    else if pc != Done { ClosedAside(d, sh, pc, i); }
  }

  predicate SameStage(a: Shared, b: Shared) {
    a.saga == b.saga || (!Begun(a) && !Begun(b))
  }

  lemma ClosedWhilePlacing(d: Draft, sh: Shared, pc: Pc, i: Input)
    requires Safe(d, sh) && Expects(d, sh, pc) && InPlace(pc)
    ensures SameStage(sh, StepPlace(d, sh, pc, i).0)
  {
    hide CreatePayment;
  }

  lemma ClosedInForward(d: Draft, sh: Shared, pc: Pc, i: Input)
    requires InForward(pc)
    ensures SameStage(sh, StepForward(d, sh, pc, i).0)
  {
    hide P.Payment.Capture, CallCancel, O.OrderHead.MarkPaid;
    if pc.AuthStray? { CancelKeepsRest(sh, pc.paymentId, i.answer); }
  }

  lemma JustBegun(d: Draft, s: S.Saga, refund: Reference, now: Time)
    requires S.OnPlan(s) && (!s.HasBegun() ==> s.compensated == []) && s.BeginCompensation(refund, now).Ok?
    ensures var b := s.BeginCompensation(refund, now).value;
      (s.HasBegun() ==> b == s) && (!s.HasBegun() ==> b.status == S.Compensating && b.Pending() != [])
  {
    S.PendingIsRestOfPlan(s.BeginCompensation(refund, now).value);
  }

  lemma ClosedInCompensate(d: Draft, sh: Shared, pc: Pc, i: Input)
    requires Safe(d, sh) && InCompensate(pc)
    ensures var b := StepCompensate(d, sh, pc, i).0;
      && (Is(sh, S.Compensated) ==> (Is(b, S.Compensated) <==> !Reopens(d, sh, pc)))
      && (!Stranded(sh) ==> !Stranded(b))
  {
    if pc == AbortBegin || pc.RunSave? {
      if sh.saga.Some? {
        SagaFacts(d, sh);
        hide Safe, S.Saga.BeginCompensation, S.Saga.Pending, S.Saga.MarkCompensated, S.Saga.MarkCompensationFailed;
        if pc.RunSave? { Reported(sh.saga.value, pc.step, d.maxAttempts, i.now); }
        else if sh.saga.value.BeginCompensation(i.drawn, i.now).Ok? { JustBegun(d, sh.saga.value, i.drawn, i.now); }
      }
    } else {
      hide StepCompensate, Safe, S.Saga.Pending;
      ExecutingKeepsSaga(d, sh, pc, i);
    }
  }

  lemma ExecutingKeepsSaga(d: Draft, sh: Shared, pc: Pc, i: Input)
    requires InCompensate(pc) && pc != AbortBegin && !pc.RunSave?
    ensures StepCompensate(d, sh, pc, i).0.saga == sh.saga
  {
    hide CallCancel, RefundPayment, CloseOrder, R.Release, AfterInfo;
    if pc.RunExecute? { ClosingKeepsRest(sh); }
    if pc.RunCancel? { CancelKeepsRest(sh, pc.seen.paymentId, i.answer); }
  }

  lemma SagaFacts(d: Draft, sh: Shared)
    requires Safe(d, sh) && sh.saga.Some?
    ensures var s := sh.saga.value; sh.order.Some? && S.OnPlan(s) && (!s.HasBegun() ==> s.compensated == [])
  {
  }

  lemma Reported(s: S.Saga, step: S.Compensation, maxAttempts: int, now: Time)
    ensures var b := s.MarkCompensated(step, now);
      && (s.status == S.Compensated ==> b.status == S.Compensated)
      && !(b.status == S.Compensating && b.Pending() == [])
    ensures var b := s.MarkCompensationFailed(maxAttempts, now);
      && (s.status == S.Compensated ==> (b.status == S.Compensated <==> s.attempts + 1 < maxAttempts))
      && (b.status == S.Compensating ==> s.status == S.Compensating && b.Pending() == s.Pending())
  {
  }

  lemma ClosingKeepsRest(sh: Shared)
    ensures CloseOrder(sh) == sh.(order := CloseOrder(sh).order)
  {
  }

  lemma ClosedAside(d: Draft, sh: Shared, pc: Pc, i: Input)
    requires Safe(d, sh) && !InPlace(pc) && !InForward(pc) && !InCompensate(pc) && pc != Done
    ensures var b := StepAside(d, sh, pc, i).0;
      && (Is(sh, S.Compensated) ==> Is(b, S.Compensated))
      && (!Stranded(sh) ==> (Stranded(b) <==> ResumesNothing(sh, pc)))
  {
    if sh.saga.Some? {
      SagaFacts(d, sh);
      var s := sh.saga.value;
      hide CreatePayment, CallCancel, O.OrderHead.Cancel, O.OrderHead.AwaitPayment, Safe;
      hide S.Saga.BeginCompensation, S.Saga.Pending, S.Saga.Resume, S.Saga.Plan;
      match pc
      case RetryUndo(id) => CancelKeepsRest(sh, id, i.answer);
      case ResumeBegin => Resumed(s, i.now);
      case _ => if s.BeginCompensation(i.drawn, i.now).Ok? { JustBegun(d, s, i.drawn, i.now); }
    }
  }

  lemma Resumed(s: S.Saga, now: Time)
    requires S.OnPlan(s)
    ensures s.Resume(now).Ok? <==> s.status == S.Manual
    ensures s.status == S.Manual ==>
      var b := s.Resume(now).value; b.status == S.Compensating && (b.Pending() == [] <==> s.compensated == s.Plan())
  {
    if s.status == S.Manual { S.PendingIsRestOfPlan(s.Resume(now).value); }
  }

  // ---------- over a whole run ----------

  predicate ReopenedBy(d: Draft, w: World, e: Event) {
    match e
    case ByPlace(_) => Reopens(d, w.sh, w.place)
    case ByHandler(id, _) => id in w.handlers && Reopens(d, w.sh, w.handlers[id])
    case _ => false
  }

  predicate StrandedBy(w: World, e: Event) {
    match e
    case ByPlace(_) => ResumesNothing(w.sh, w.place)
    case ByHandler(id, _) => id in w.handlers && ResumesNothing(w.sh, w.handlers[id])
    case _ => false
  }

  lemma NextCloses(d: Draft, w: World, e: Event)
    requires SafeWorld(d, w)
    ensures var b := Next(d, w, e).sh;
      && (Is(w.sh, S.Compensated) ==> (Is(b, S.Compensated) <==> !ReopenedBy(d, w, e)))
      && (!Stranded(w.sh) ==> (Stranded(b) <==> StrandedBy(w, e)))
  {
    hide Step, Safe, Expects, Reopens, S.Saga.Pending, S.Saga.Plan;
    match e
    case ByPlace(i) => ClosedIsLeft(d, w.sh, w.place, i);
    case ByHandler(id, i) => if id in w.handlers { ClosedIsLeft(d, w.sh, w.handlers[id], i); }
    case Start(_, _) =>
    case ByOutside(outside) => OutsideKeepsSaga(w.sh, outside);
  }

  /** The saga is compensated after the run, and after each of the events that follow. */
  ghost predicate StaysCompensated(d: Draft, events: seq<Event>, more: seq<Event>) {
    Is(Run(d, events + more).sh, S.Compensated)
    && (more == [] || StaysCompensated(d, events, more[..|more| - 1]))
  }

  ghost predicate NeverReopened(d: Draft, events: seq<Event>, more: seq<Event>) {
    more == [] || (var k := |more| - 1;
      NeverReopened(d, events, more[..k]) && !ReopenedBy(d, Run(d, events + more[..k]), more[k]))
  }

  /** A compensated saga stays compensated exactly while no failure report that comes late reaches the limit. */
  lemma {:induction false} CompensatedStaysExactly(d: Draft, events: seq<Event>, more: seq<Event>)
    requires Is(Run(d, events).sh, S.Compensated)
    ensures StaysCompensated(d, events, more) <==> NeverReopened(d, events, more)
  {
    if more == [] {
      assert events + more == events;
    } else {
      var k := |more| - 1;
      var before := events + more[..k];
      assert (events + more)[..|events + more| - 1] == before;
      CompensatedStaysExactly(d, events, more[..k]);
      RunsAreSafe(d, before);
      assert Run(d, events + more) == Next(d, Run(d, before), more[k]);
      hide Run, Next, SafeWorld, ReopenedBy;
      NextCloses(d, Run(d, before), more[k]);
    }
  }

  ghost predicate EverStranded(d: Draft, events: seq<Event>) {
    Stranded(Run(d, events).sh) || (events != [] && EverStranded(d, events[..|events| - 1]))
  }

  ghost predicate EverResumesNothing(d: Draft, events: seq<Event>) {
    events != [] && (var k := |events| - 1;
      EverResumesNothing(d, events[..k]) || StrandedBy(Run(d, events[..k]), events[k]))
  }

  /** The saga of a run is stranded at some point exactly when support resumes one that has everything recorded. */
  lemma {:induction false} StrandedExactly(d: Draft, events: seq<Event>)
    ensures EverStranded(d, events) <==> EverResumesNothing(d, events)
  {
    if events != [] {
      var k := |events| - 1;
      StrandedExactly(d, events[..k]);
      RunsAreSafe(d, events[..k]);
      assert Run(d, events) == Next(d, Run(d, events[..k]), events[k]);
      hide Run, Next, SafeWorld, Stranded, StrandedBy;
      if !EverStranded(d, events[..k]) {
        NextCloses(d, Run(d, events[..k]), events[k]);
      }
    }
  }
}
