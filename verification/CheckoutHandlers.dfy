/** The handlers of the checkout in the program's own control flow: they call ports, look at the errors that come
back, and change stored state in transactions. They know nothing of the program counters of `Checkout`. A ghost
counter follows them, and each handler is proved to do exactly what the steps from its first counter on do, wherever
it stops; so what is proved of the steps holds of the handlers. */
module CheckoutHandlers {
  import opened Kernel
  import opened Checkout
  import opened CheckoutSafety
  import opened CheckoutAlone
  import S = Sagas
  import O = OrderStatuses
  import P = Payments
  import R = Reservations

  /** A handler at `pc` takes its steps until it is done or the inputs run out. */
  ghost function Follow(d: Draft, sh: Shared, pc: Pc, inputs: seq<Input>): (Shared, Pc)
    decreases |inputs|
  {
    if inputs == [] || pc == Done then (sh, pc)
    else
      var (next, at) := Step(d, sh, pc, inputs[0]);
      Follow(d, next, at, inputs[1..])
  }

  /** A handler that is not disturbed keeps the state safe, wherever it stops. */
  lemma {:induction false} FollowIsSafe(d: Draft, sh: Shared, pc: Pc, inputs: seq<Input>)
    requires Safe(d, sh) && Expects(d, sh, pc)
    ensures var (end, at) := Follow(d, sh, pc, inputs); Safe(d, end) && Expects(d, end, at)
    decreases |inputs|
  {
    hide Safe, Expects, Step;
    if inputs != [] && pc != Done {
      StepIsSound(d, sh, pc, inputs[0]);
      var (next, at) := Step(d, sh, pc, inputs[0]);
      FollowIsSafe(d, next, at, inputs[1..]);
    }
  }

  lemma {:induction false} FollowOn(d: Draft, sh: Shared, pc: Pc, inputs: seq<Input>, i: Input)
    ensures var (end, at) := Follow(d, sh, pc, inputs); Follow(d, sh, pc, inputs + [i]) == Step(d, end, at, i)
    decreases |inputs|
  {
    hide StepPlace, StepForward, StepCompensate, StepAside;
    if pc == Done {
    } else if inputs == [] {
      assert [] + [i] == [i];
      var (next, at) := Step(d, sh, pc, i);
      assert Follow(d, next, at, []) == (next, at);
    } else {
      var (next, at) := Step(d, sh, pc, inputs[0]);
      assert (inputs + [i])[1..] == inputs[1..] + [i];
      FollowOn(d, next, at, inputs[1..], i);
    }
  }

  /** The turns of one handler that begins when none is at work. */
  function Turns(pc: Pc, inputs: seq<Input>): seq<Turn> {
    if inputs == [] then [Begin(pc)] else Turns(pc, inputs[..|inputs| - 1]) + [Work(inputs[|inputs| - 1])]
  }

  /** A handler that runs while no other is at work on the order is a part of a run without overlap, so what
      `CheckoutAlone` proves of those runs holds after it. */
  lemma {:induction false} HandlerIsTurns(d: Draft, turns: seq<Turn>, pc: Pc, inputs: seq<Input>)
    requires RunAlone(d, turns).current == Done && MayBegin(RunAlone(d, turns).sh, pc)
    ensures var (end, at) := Follow(d, RunAlone(d, turns).sh, pc, inputs);
      RunAlone(d, turns + Turns(pc, inputs)) == Lone(end, at)
    decreases |inputs|
  {
    hide Step;
    var all := turns + Turns(pc, inputs);
    if inputs == [] {
      assert all[..|all| - 1] == turns;
    } else {
      var init, last := inputs[..|inputs| - 1], inputs[|inputs| - 1];
      assert all[..|all| - 1] == turns + Turns(pc, init);
      HandlerIsTurns(d, turns, pc, init);
      FollowOn(d, RunAlone(d, turns).sh, pc, init, last);
      assert inputs == init + [last];
    }
  }

  function Works(inputs: seq<Input>): seq<Turn> {
    seq(|inputs|, k requires 0 <= k < |inputs| => Work(inputs[k]))
  }

  /** The handler that places the order is at work from the beginning of a run without overlap. */
  lemma {:induction false} PlacingIsTurns(d: Draft, inputs: seq<Input>)
    ensures var (end, at) := Follow(d, EMPTY, PlaceReserve, inputs); RunAlone(d, Works(inputs)) == Lone(end, at)
    decreases |inputs|
  {
    hide Step;
    if inputs != [] {
      var init, last := inputs[..|inputs| - 1], inputs[|inputs| - 1];
      assert Works(inputs)[..|inputs| - 1] == Works(init) && inputs == init + [last];
      PlacingIsTurns(d, init);
      FollowOn(d, EMPTY, PlaceReserve, init, last);
    }
  }

  // ---------- ports and transactions ----------

  /** Why a call did not succeed: `Rejected` by a rule of the other side, or `Failed` for reasons of its own. `Halted`
      is what every call reports, without effect, once the process has stopped. */
  datatype Failure = Halted | Failed | NotFound | Rejected

  function Lift(change: Result<S.Saga, S.SagaError>): Result<S.Saga, Failure> {
    match change case Ok(saga) => Ok(saga) case Err(_) => Err(Rejected)
  }

  function AfterCancel(pc: Pc, error: Option<Failure>): Pc {
    match pc
    case RunCancel(seen, step) =>
      if error == Some(Rejected) then RunRefund(seen, step) else RunSave(seen, step, error == None)
    case _ => Done
  }

  function AfterStatus(pc: Pc, info: Result<P.PaymentStatus, Failure>): Pc {
    match pc
    case RunExecute(seen, step) =>
      (match info
       case Err(e) => RunSave(seen, step, e == NotFound)
       case Ok(Created) => RunCancel(seen, step)
       case Ok(Pending) => RunCancel(seen, step)
       case Ok(Authorized) => RunCancel(seen, step)
       case Ok(Captured) => RunRefund(seen, step)
       case _ => RunSave(seen, step, true))
    case RetryInfo(seen) => if info == Ok(P.Failed) || info == Ok(P.Cancelled) then RetryCreate(seen) else Done
    case _ => Done
  }

  /** The stored state of the order, what the handler will be told until its process stops, and where it stands. */
  class Process {
    const d: Draft
    var sh: Shared
    var inputs: seq<Input>
    ghost var at: Pc

    constructor (d: Draft, sh: Shared, inputs: seq<Input>, ghost start: Pc)
      ensures this.d == d && this.sh == sh && this.inputs == inputs && at == start
    {
      this.d, this.sh, this.inputs, this.at := d, sh, inputs, start;
    }

    /** The handler is through, or its process has stopped: `Follow` ends here, with `sh` and `at`. */
    ghost predicate Over()
      reads this
      ensures Over() ==> Follow(d, sh, at, inputs) == (sh, at)
    {
      inputs == [] || at == Done
    }

    ghost predicate AtOrStopped(pc: Pc)
      reads this
    {
      inputs == [] || at == pc
    }

    /** The counter follows one call that began in state `was` with the inputs `given`. */
    ghost method Follows(was: Shared, given: seq<Input>)
      requires given == [] ==> inputs == [] && sh == was
      requires given != [] ==> at != Done && inputs == given[1..] && sh == Step(d, was, at, given[0]).0
      modifies this`at
      ensures at == if given == [] then old(at) else Step(d, was, old(at), given[0]).1
      ensures Follow(d, was, old(at), given) == Follow(d, sh, at, inputs)
    {
      if given != [] { at := Step(d, was, at, given[0]).1; }
    }

    method Take() returns (i: Input)
      requires inputs != []
      modifies this`inputs
      ensures i == old(inputs)[0] && inputs == old(inputs)[1..]
    {
      i := inputs[0];
      inputs := inputs[1..];
    }

    /** Loads the saga, and tells the time. */
    method LoadSaga() returns (r: Result<S.Saga, Failure>, now: Time)
      modifies this`inputs
      ensures old(inputs) == [] ==> r == Err(Halted) && inputs == []
      ensures old(inputs) != [] ==>
        inputs == old(inputs)[1..] && now == old(inputs)[0].now
        && r == if sh.saga == None then Err(NotFound) else Ok(sh.saga.value)
    {
      r, now := Err(Halted), NO_TIME;
      if |inputs| > 0 {
        var i := Take();
        now := i.now;
        r := if sh.saga == None then Err(NotFound) else Ok(sh.saga.value);
      }
    }

    /** Loads the saga, changes and stores it in one transaction; returns it as it was and as it is. */
    method MutateSaga(change: (S.Saga, Input) -> Result<S.Saga, Failure>) returns (r: Result<(S.Saga, S.Saga), Failure>)
      modifies this`sh, this`inputs
      ensures old(inputs) == [] ==> r == Err(Halted) && sh == old(sh) && inputs == []
      ensures old(inputs) != [] ==>
        && inputs == old(inputs)[1..]
        && (old(sh).saga == None ==> r == Err(NotFound) && sh == old(sh))
        && (old(sh).saga.Some? ==>
            match change(old(sh).saga.value, old(inputs)[0])
            case Err(e) => r == Err(e) && sh == old(sh)
            case Ok(next) => r == Ok((old(sh).saga.value, next)) && sh == old(sh).(saga := Some(next)))
    {
      r := Err(Halted);
      if |inputs| > 0 {
        var i := Take();
        r := Err(NotFound);
        if sh.saga.Some? {
          var found := sh.saga.value;
          var changed := change(found, i);
          match changed {
            case Err(e) => r := Err(e);
            case Ok(next) =>
              sh := sh.(saga := Some(next));
              r := Ok((found, next));
          }
        }
      }
    }

    /** Loads order and saga, changes and stores both in one transaction, or neither. */
    method MutateBoth(change: (O.OrderHead, S.Saga, Input) -> Result<(O.OrderHead, S.Saga), Failure>)
      returns (error: Option<Failure>)
      modifies this`sh, this`inputs
      ensures old(inputs) == [] ==> error == Some(Halted) && sh == old(sh) && inputs == []
      ensures old(inputs) != [] ==>
        && inputs == old(inputs)[1..]
        && (old(sh).saga == None || old(sh).order == None ==> error == Some(NotFound) && sh == old(sh))
        && (old(sh).saga.Some? && old(sh).order.Some? ==>
            match change(old(sh).order.value, old(sh).saga.value, old(inputs)[0])
            case Err(e) => error == Some(e) && sh == old(sh)
            case Ok((order, saga)) => error == None && sh == old(sh).(order := Some(order), saga := Some(saga)))
    {
      error := Some(Halted);
      if |inputs| > 0 {
        var i := Take();
        error := Some(NotFound);
        if sh.saga.Some? && sh.order.Some? {
          var changed := change(sh.order.value, sh.saga.value, i);
          match changed {
            case Err(e) => error := Some(e);
            case Ok((order, saga)) =>
              sh := sh.(order := Some(order), saga := Some(saga));
              error := None;
          }
        }
      }
    }

    method ReserveStock() returns (error: Option<Failure>)
      requires AtOrStopped(PlaceReserve)
      modifies this
      ensures Follow(d, old(sh), old(at), old(inputs)) == Follow(d, sh, at, inputs) && |inputs| <= |old(inputs)|
      ensures old(inputs) == [] ==> error == Some(Halted) && inputs == []
      ensures AtOrStopped(if error == None then PlaceSave else Done)
    {
      hide StepForward, StepCompensate, StepAside, Follow;
      ghost var was, given := sh, inputs;
      error := Some(Halted);
      if |inputs| > 0 {
        var i := Take();
        error := if i.answer == Proceed && d.skus != {} then None else Some(Failed);
        if Arrives(i.answer) && d.skus != {} { sh := sh.(lines := map sku | sku in d.skus :: R.Held); }
      }
      Follows(was, given);
    }

    method CommitReservation() returns (error: Option<Failure>)
      requires AtOrStopped(AdvCommit)
      modifies this
      ensures Follow(d, old(sh), old(at), old(inputs)) == Follow(d, sh, at, inputs) && |inputs| <= |old(inputs)|
      ensures old(inputs) == [] ==> error == Some(Halted) && inputs == []
      ensures AtOrStopped(if error == None then AdvCommitted else if error == Some(Rejected) then AbortBegin else Done)
    {
      hide StepPlace, StepCompensate, StepAside, Follow;
      ghost var was, given := sh, inputs;
      error := Some(Halted);
      if |inputs| > 0 {
        var i := Take();
        error := Some(Failed);
        if Arrives(i.answer) {
          var committed := R.Commit(sh.lines);
          if committed.Ok? { sh := sh.(lines := committed.value); }
          if i.answer == Proceed { error := if committed.Ok? then None else Some(Rejected); }
        }
      }
      Follows(was, given);
    }

    /** Refused as `Rejected` when the lines are resolved already. */
    method ReleaseReservation() returns (error: Option<Failure>)
      requires inputs == [] || at == PlaceUndo || (at.RunExecute? && at.step == S.ReturnStock)
      modifies this
      ensures Follow(d, old(sh), old(at), old(inputs)) == Follow(d, sh, at, inputs) && |inputs| <= |old(inputs)|
      ensures old(inputs) == [] ==> error == Some(Halted) && inputs == []
      ensures old(inputs) != [] && old(at) == PlaceUndo ==> at == Done
      ensures old(inputs) != [] && old(at).RunExecute? ==>
        at == if error == Some(Rejected) then RunRestore(old(at).seen, S.ReturnStock)
              else RunSave(old(at).seen, S.ReturnStock, error == None || error == Some(NotFound))
    {
      hide StepForward, StepAside, Follow;
      ghost var was, given := sh, inputs;
      error := Some(Halted);
      if |inputs| > 0 {
        var i := Take();
        error := Some(Failed);
        if Arrives(i.answer) {
          var released := R.Release(sh.lines);
          if released.Ok? { sh := sh.(lines := released.value); }
          if i.answer == Proceed {
            error := if released.Ok? then None else if released.error == R.NotFound then Some(NotFound)
              else Some(Rejected);
          }
        }
      }
      Follows(was, given);
    }

    method RestoreReservation() returns (error: Option<Failure>)
      requires inputs == [] || at.RunRestore?
      modifies this
      ensures Follow(d, old(sh), old(at), old(inputs)) == Follow(d, sh, at, inputs) && |inputs| <= |old(inputs)|
      ensures old(inputs) == [] ==> error == Some(Halted) && inputs == []
      ensures old(inputs) != [] ==>
        && (error == None || error == Some(Failed) || error == Some(NotFound) || error == Some(Rejected))
        && at == RunSave(old(at).seen, old(at).step, error != Some(Failed))
    {
      hide StepPlace, StepForward, StepAside, Follow;
      ghost var was, given := sh, inputs;
      error := Some(Halted);
      if |inputs| > 0 {
        var i := Take();
        error := Some(Failed);
        if Arrives(i.answer) {
          var restored := R.Restore(sh.lines);
          if restored.Ok? { sh := sh.(lines := restored.value); }
          if i.answer == Proceed {
            error := if restored.Ok? then None else if restored.error == R.NotFound then Some(NotFound)
              else Some(Rejected);
          }
        }
      }
      Follows(was, given);
    }

    method RedeemPromo() returns (error: Option<Failure>)
      requires AtOrStopped(PlaceRedeem)
      modifies this
      ensures Follow(d, old(sh), old(at), old(inputs)) == Follow(d, sh, at, inputs) && |inputs| <= |old(inputs)|
      ensures old(inputs) == [] ==> error == Some(Halted) && inputs == []
      ensures AtOrStopped(if error == None then PlaceRedeemed else AbortBegin)
    {
      hide StepForward, StepCompensate, StepAside, Follow;
      ghost var was, given := sh, inputs;
      error := Some(Halted);
      if |inputs| > 0 {
        var i := Take();
        error := if i.answer != Proceed then Some(Failed) else if sh.redeemed then Some(Rejected) else None;
        if Arrives(i.answer) { sh := sh.(redeemed := true); }
      }
      Follows(was, given);
    }

    method ReleasePromo() returns (error: Option<Failure>)
      requires inputs == [] || (at.RunExecute? && at.step == S.ReleasePromo)
      modifies this
      ensures Follow(d, old(sh), old(at), old(inputs)) == Follow(d, sh, at, inputs) && |inputs| <= |old(inputs)|
      ensures old(inputs) == [] ==> error == Some(Halted) && inputs == []
      ensures old(inputs) != [] ==> at == RunSave(old(at).seen, S.ReleasePromo, error == None)
    {
      hide StepPlace, StepForward, StepAside, Follow;
      ghost var was, given := sh, inputs;
      error := Some(Halted);
      if |inputs| > 0 {
        var i := Take();
        error := if i.answer == Proceed then None else Some(Failed);
        if Arrives(i.answer) { sh := sh.(redeemed := false); }
      }
      Follows(was, given);
    }

    method PaymentStatus(id: Reference) returns (info: Result<P.PaymentStatus, Failure>)
      requires inputs == [] || (at.RunExecute? && PaysBack(at.step) && at.seen.paymentId == id)
        || (at.RetryInfo? && at.seen.paymentId == id)
      modifies this
      ensures Follow(d, old(sh), old(at), old(inputs)) == Follow(d, sh, at, inputs) && |inputs| <= |old(inputs)|
      ensures old(inputs) == [] ==> info == Err(Halted) && inputs == []
      ensures old(inputs) != [] ==> at == AfterStatus(old(at), info)
    {
      hide StepPlace, StepForward, Follow;
      ghost var was, given := sh, inputs;
      info := Err(Halted);
      if |inputs| > 0 {
        var i := Take();
        info := if i.answer != Proceed then Err(Failed)
                else if id in sh.payments then Ok(sh.payments[id].status) else Err(NotFound);
      }
      Follows(was, given);
    }

    method CreatePayment(id: Reference, amount: Money) returns (error: Option<Failure>)
      requires inputs == [] || (at == PlaceCreate(id) && amount == d.total)
               || (at.RetryCreate? && amount == at.seen.amount && IsNew(sh, id) && inputs[0].drawn == id)
      modifies this
      ensures Follow(d, old(sh), old(at), old(inputs)) == Follow(d, sh, at, inputs) && |inputs| <= |old(inputs)|
      ensures old(inputs) == [] ==> error == Some(Halted) && inputs == []
      ensures old(inputs) != [] && old(at).PlaceCreate? ==> at == if error == None then PlaceAwait(id) else AbortBegin
      ensures old(inputs) != [] && old(at).RetryCreate? ==> at == if error == None then RetryChange(id) else Done
    {
      hide StepForward, StepCompensate, Follow;
      ghost var was, given := sh, inputs;
      error := Some(Halted);
      if |inputs| > 0 {
        var i := Take();
        var (payments, ok) := Checkout.CreatePayment(sh.payments, id, amount, i.answer);
        sh := sh.(payments := payments);
        error := if ok then None else Some(Failed);
      }
      Follows(was, given);
    }

    /** Refused as `Rejected` when the payment can no longer be cancelled. */
    method CancelPayment(id: Reference) returns (error: Option<Failure>)
      requires inputs == [] || at == AuthStray(id) || at == RetryUndo(id) || (at.RunCancel? && at.seen.paymentId == id)
      modifies this
      ensures Follow(d, old(sh), old(at), old(inputs)) == Follow(d, sh, at, inputs) && |inputs| <= |old(inputs)|
      ensures old(inputs) == [] ==> error == Some(Halted) && inputs == []
      ensures old(inputs) != [] ==> at == AfterCancel(old(at), error)
    {
      hide StepPlace, Follow;
      ghost var was, given := sh, inputs;
      error := Some(Halted);
      if |inputs| > 0 {
        var i := Take();
        var (next, reply) := CallCancel(sh, id, i.answer);
        sh := next;
        error := if reply.Ok? then None else if reply.error == Some(P.IllegalTransition) then Some(Rejected)
          else Some(Failed);
      }
      Follows(was, given);
    }

    method CapturePayment(ghost seen: S.Saga, id: Reference, amount: Money) returns (error: Option<Failure>)
      requires AtOrStopped(AdvCapture(seen)) && id == seen.paymentId && amount == seen.amount
      modifies this
      ensures Follow(d, old(sh), old(at), old(inputs)) == Follow(d, sh, at, inputs) && |inputs| <= |old(inputs)|
      ensures old(inputs) == [] ==> error == Some(Halted) && inputs == []
      ensures AtOrStopped(if error == None then AdvCaptured(seen) else if error == Some(Rejected) then AbortBegin
        else Done)
    {
      hide StepPlace, StepCompensate, StepAside, Follow;
      ghost var was, given := sh, inputs;
      error := Some(Halted);
      if |inputs| > 0 {
        var i := Take();
        error := if i.answer == Fail || i.answer == Lost then Some(Failed) else Some(Rejected);
        sh := sh.(captures := sh.captures + {id});
        if Arrives(i.answer) && id in sh.payments {
          var captured := sh.payments[id].Capture(amount);
          if captured.Ok? {
            sh := sh.(payments := sh.payments[id := captured.value]);
            if i.answer == Proceed { error := None; }
          }
        }
      }
      Follows(was, given);
    }

    method RefundPayment(id: Reference, refund: Reference) returns (error: Option<Failure>)
      requires inputs == [] || (at.RunRefund? && at.seen.paymentId == id && at.seen.refundId == refund)
      modifies this
      ensures Follow(d, old(sh), old(at), old(inputs)) == Follow(d, sh, at, inputs) && |inputs| <= |old(inputs)|
      ensures old(inputs) == [] ==> error == Some(Halted) && inputs == []
      ensures old(inputs) != [] ==> at == RunSave(old(at).seen, old(at).step, error == None)
    {
      hide StepPlace, StepForward, StepAside, Follow, Checkout.RefundPayment, CallCancel, Checkout.Execute;
      ghost var was, given := sh, inputs;
      error := Some(Halted);
      if |inputs| > 0 {
        var i := Take();
        error := Some(NotFound);
        if id in sh.payments {
          var (p, ok) := Checkout.RefundPayment(sh.payments[id], refund, i.answer);
          sh := sh.(payments := sh.payments[id := p]);
          error := if ok then None else Some(Failed);
        }
      }
      Follows(was, given);
    }

    // ---------- compensation ----------

    /** Cancels the payment if it is not captured yet, and asks for a refund otherwise. */
    method SettlePayment(saga: S.Saga, ghost step: S.Compensation) returns (error: Option<Failure>)
      requires AtOrStopped(RunExecute(saga, step)) && PaysBack(step)
      modifies this
      ensures Follow(d, old(sh), old(at), old(inputs)) == Follow(d, sh, at, inputs) && |inputs| <= |old(inputs)|
      ensures AtOrStopped(RunSave(saga, step, error == None))
    {
      hide Step, Follow;
      var info := PaymentStatus(saga.paymentId);
      if info == Err(NotFound) { return None; }
      if info.Err? { return Some(info.error); }
      match info.value {
        case Created | Pending | Authorized =>
          error := CancelPayment(saga.paymentId);
          if error == Some(Rejected) { error := RefundPayment(saga.paymentId, saga.refundId); }
        case Captured => error := RefundPayment(saga.paymentId, saga.refundId);
        case _ => error := None;
      }
    }

    /** Releases the reservation, and restores it when its lines are resolved already. */
    method ReturnStock(ghost saga: S.Saga) returns (error: Option<Failure>)
      requires AtOrStopped(RunExecute(saga, S.ReturnStock))
      modifies this
      ensures Follow(d, old(sh), old(at), old(inputs)) == Follow(d, sh, at, inputs) && |inputs| <= |old(inputs)|
      ensures AtOrStopped(RunSave(saga, S.ReturnStock, error == None))
    {
      hide Step, Follow;
      error := ReleaseReservation();
      if error == None || error == Some(NotFound) { return None; }
      if error != Some(Rejected) { return; }
      error := RestoreReservation();
      if error == Some(NotFound) || error == Some(Rejected) { error := None; }
    }

    /** Fails an open order, in a transaction of its own. */
    method CloseOrder(ghost saga: S.Saga) returns (error: Option<Failure>)
      requires AtOrStopped(RunExecute(saga, S.CloseOrder))
      modifies this
      ensures Follow(d, old(sh), old(at), old(inputs)) == Follow(d, sh, at, inputs) && |inputs| <= |old(inputs)|
      ensures AtOrStopped(RunSave(saga, S.CloseOrder, error == None))
    {
      hide StepPlace, StepForward, StepAside, Follow;
      ghost var was, given := sh, inputs;
      error := Some(Halted);
      if |inputs| > 0 {
        var i := Take();
        error := if i.answer == Proceed then None else Some(Failed);
        if Arrives(i.answer) && sh.order.Some? && O.IsOpen(sh.order.value.status) {
          var failed := sh.order.value.Fail();
          if failed.Ok? { sh := sh.(order := Some(failed.value)); }
        }
      }
      Follows(was, given);
    }

    /** Executes one step of the plan. */
    method Execute(saga: S.Saga, step: S.Compensation) returns (error: Option<Failure>)
      requires AtOrStopped(RunExecute(saga, step))
      modifies this
      ensures Follow(d, old(sh), old(at), old(inputs)) == Follow(d, sh, at, inputs) && |inputs| <= |old(inputs)|
      ensures AtOrStopped(RunSave(saga, step, error == None))
    {
      hide Step, Follow;
      match step {
        case CancelPayment | RefundPayment => error := SettlePayment(saga, step);
        case ReturnStock => error := ReturnStock(saga);
        case ReleasePromo => error := ReleasePromo();
        case CloseOrder => error := CloseOrder(saga);
      }
    }

    /** Loads the saga and executes its first pending step, again and again, until nothing is pending or a step has
        failed; each outcome is recorded in a transaction. */
    method Run() returns (error: Option<Failure>)
      requires AtOrStopped(RunLoad)
      modifies this
      ensures Follow(d, old(sh), old(at), old(inputs)) == Follow(d, sh, at, inputs) && Over()
    {
      hide Step, Follow, S.Saga.Pending;
      while true
        invariant AtOrStopped(RunLoad)
        invariant Follow(d, sh, at, inputs) == Follow(d, old(sh), old(at), old(inputs))
        decreases |inputs|
      {
        ghost var was, given := sh, inputs;
        var loaded, _ := LoadSaga();
        FollowsLoad(was, given, loaded);
        if loaded.Err? { return Some(loaded.error); }
        var saga := new S.CheckoutSaga(loaded.value);
        var pending := saga.Pending();
        if |pending| == 0 { return None; }
        var step := pending[0];
        var failure := Execute(loaded.value, step);
        var stored := Record(loaded.value, step, failure);
        if stored != None || failure != None { return if stored != None then stored else failure; }
      }
    }

    /** Records the outcome of a step in a transaction. */
    method Record(ghost seen: S.Saga, step: S.Compensation, failure: Option<Failure>) returns (error: Option<Failure>)
      requires AtOrStopped(RunSave(seen, step, failure == None))
      modifies this
      ensures Follow(d, old(sh), old(at), old(inputs)) == Follow(d, sh, at, inputs) && |inputs| <= |old(inputs)|
      ensures AtOrStopped(if error == None && failure == None then RunLoad else Done)
    {
      hide StepPlace, StepForward, StepAside, Follow, S.Saga.MarkCompensated, S.Saga.MarkCompensationFailed;
      ghost var was, given := sh, inputs;
      var stored := MutateSaga((s: S.Saga, i: Input) =>
        Ok(if failure != None then s.MarkCompensationFailed(d.maxAttempts, i.now) else s.MarkCompensated(step, i.now)));
      Follows(was, given);
      error := if stored.Err? then Some(stored.error) else None;
    }

    ghost method FollowsLoad(was: Shared, given: seq<Input>, loaded: Result<S.Saga, Failure>)
      requires sh == was && (given == [] ==> inputs == [] && loaded == Err(Halted))
      requires given != [] ==>
        at == RunLoad && inputs == given[1..] && loaded == if sh.saga == None then Err(NotFound) else Ok(sh.saga.value)
      modifies this`at
      ensures Follow(d, was, old(at), given) == Follow(d, sh, at, inputs)
      ensures given != [] ==>
        at == if loaded.Err? || loaded.value.Pending() == [] then Done
          else RunExecute(loaded.value, loaded.value.Pending()[0])
      ensures loaded.Err? ==> Over()
    {
      hide StepPlace, StepForward, StepAside;
      Follows(was, given);
    }

    /** Begins compensation and runs it. */
    method Abort() returns (error: Option<Failure>)
      requires AtOrStopped(AbortBegin)
      modifies this
      ensures Follow(d, old(sh), old(at), old(inputs)) == Follow(d, sh, at, inputs) && Over()
    {
      hide StepPlace, StepForward, StepAside, Follow;
      ghost var was, given := sh, inputs;
      var begun := MutateSaga((s: S.Saga, i: Input) => Lift(s.BeginCompensation(i.drawn, i.now)));
      Follows(was, given);
      if begun.Err? { return Some(begun.error); }
      error := Run();
    }

    // ---------- moving forward ----------

    /** Begins the commit for the saga's own payment and moves the checkout on; cancels any other payment. */
    method PaymentAuthorized(id: Reference) returns (error: Option<Failure>)
      requires at == AuthBegin(id)
      modifies this
      ensures Follow(d, old(sh), AuthBegin(id), old(inputs)) == Follow(d, sh, at, inputs) && Over()
    {
      hide StepPlace, StepCompensate, StepAside, Follow;
      ghost var was, given := sh, inputs;
      var begun := MutateSaga((s: S.Saga, i: Input) => Ok(s.BeginCommit(id, i.now)));
      var stray := begun.Ok? && begun.value.0.paymentId != id;
      var proceed := begun.Ok? && begun.value.0.Accepts(id);
      if proceed { sh := sh.(accepted := sh.accepted + {id}); }
      Follows(was, given);
      if begun.Err? || (!stray && !proceed) {
        return if begun.Err? && begun.error != NotFound then Some(begun.error) else None;
      }
      if stray {
        error := CancelPayment(id);
        return;
      }
      error := Advance();
    }

    /** Takes the checkout from the step it is in through commit and capture to its completion. */
    method Advance() returns (error: Option<Failure>)
      requires AtOrStopped(AdvLoad)
      modifies this
      ensures Follow(d, old(sh), old(at), old(inputs)) == Follow(d, sh, at, inputs) && Over()
    {
      hide StepPlace, StepCompensate, StepAside, Follow;
      ghost var was, given := sh, inputs;
      var loaded, _ := LoadSaga();
      Follows(was, given);
      hide Step;
      if loaded.Err? { return Some(loaded.error); }
      var saga := Some(loaded.value);
      if saga.value.step == S.CommittingStock {
        saga, error := CommitStock();
        if saga == None { return; }
      }
      if saga.value.step == S.StockCommitted {
        saga, error := Capture(saga.value);
        if saga == None { return; }
      }
      if saga.value.step != S.PaymentCaptured { return None; }
      error := Complete();
    }

    /** Returns the saga to go on with, or none when the checkout has been aborted or the worker must give up. */
    method CommitStock() returns (saga: Option<S.Saga>, error: Option<Failure>)
      requires AtOrStopped(AdvCommit)
      modifies this
      ensures Follow(d, old(sh), old(at), old(inputs)) == Follow(d, sh, at, inputs)
      ensures saga == None ==> Over()
      ensures saga.Some? ==> saga.value.step == S.StockCommitted && AtOrStopped(AdvCapture(saga.value))
    {
      hide StepPlace, StepCompensate, StepAside, Follow;
      saga := None;
      error := CommitReservation();
      if error == Some(Rejected) {
        error := Abort();
        return;
      }
      if error != None { return; }
      ghost var was, given := sh, inputs;
      var stored := MutateSaga((s: S.Saga, i: Input) => Lift(s.MarkStockCommitted(i.now)));
      Follows(was, given);
      match stored {
        case Err(e) => error := Some(e);
        case Ok((_, next)) => saga := Some(next);
      }
    }

    /** Captures the amount; returns like `CommitStock`. */
    method Capture(seen: S.Saga) returns (saga: Option<S.Saga>, error: Option<Failure>)
      requires AtOrStopped(AdvCapture(seen))
      modifies this
      ensures Follow(d, old(sh), old(at), old(inputs)) == Follow(d, sh, at, inputs)
      ensures saga == None ==> Over()
      ensures saga.Some? ==> saga.value.step == S.PaymentCaptured && AtOrStopped(AdvComplete)
    {
      hide StepPlace, StepCompensate, StepAside, Follow;
      saga := None;
      error := CapturePayment(seen, seen.paymentId, seen.amount);
      if error == Some(Rejected) {
        error := Abort();
        return;
      }
      if error != None { return; }
      ghost var was, given := sh, inputs;
      var stored := MutateSaga((s: S.Saga, i: Input) => Lift(s.MarkPaymentCaptured(i.now)));
      Follows(was, given);
      match stored {
        case Err(e) => error := Some(e);
        case Ok((_, next)) => saga := Some(next);
      }
    }

    /** Marks the order paid and completes the saga in one transaction, and aborts when the order refuses. */
    method Complete() returns (error: Option<Failure>)
      requires AtOrStopped(AdvComplete)
      modifies this
      ensures Follow(d, old(sh), old(at), old(inputs)) == Follow(d, sh, at, inputs) && Over()
    {
      hide StepPlace, StepCompensate, StepAside, Follow;
      ghost var was, given := sh, inputs;
      error := MutateBoth((order: O.OrderHead, s: S.Saga, i: Input) =>
        match (order.MarkPaid(s.amount), s.Complete(i.now))
        case (Err(_), _) => Err(Rejected)
        case (Ok(_), Err(_)) => Err(Failed)
        case (Ok(paid), Ok(completed)) => Ok((paid, completed)));
      Follows(was, given);
      if error == Some(Rejected) { error := Abort(); }
    }

    // ---------- cancellation, timeout, manual resumption ----------

    /** Cancels the order and begins compensation in one transaction, unless the checkout is committing. */
    method CancelOrder(actor: O.ActorKind) returns (error: Option<Failure>)
      requires at == CancelBegin(actor)
      modifies this
      ensures Follow(d, old(sh), CancelBegin(actor), old(inputs)) == Follow(d, sh, at, inputs) && Over()
    {
      hide StepPlace, StepForward, StepCompensate, Follow;
      ghost var was, given := sh, inputs;
      error := MutateBoth((order: O.OrderHead, s: S.Saga, i: Input) =>
        if s.Committing() then Err(Rejected)
        else match (order.Cancel(actor), s.BeginCompensation(i.drawn, i.now))
          case (Ok(cancelled), Ok(begun)) => Ok((cancelled, begun))
          case _ => Err(Rejected));
      Follows(was, given);
      if error != None { return; }
      error := Run();
      error := None;  // a failed compensation is taken up again later
    }

    /** Whether the saga has expired is looked at again in the transaction that begins its compensation. */
    method ExpireCheckout() returns (error: Option<Failure>)
      requires at == ExpireBegin
      modifies this
      ensures Follow(d, old(sh), ExpireBegin, old(inputs)) == Follow(d, sh, at, inputs) && Over()
    {
      hide StepPlace, StepForward, StepCompensate, Follow;
      ghost var was, given := sh, inputs;
      var begun := MutateSaga((s: S.Saga, i: Input) =>
        if !s.Expired(i.now) then Err(Rejected) else Lift(s.BeginCompensation(i.drawn, i.now)));
      Follows(was, given);
      if begun.Err? { return Some(begun.error); }
      error := Run();
    }

    method ResumeSaga() returns (error: Option<Failure>)
      requires at == ResumeBegin
      modifies this
      ensures Follow(d, old(sh), ResumeBegin, old(inputs)) == Follow(d, sh, at, inputs) && Over()
    {
      hide StepPlace, StepForward, StepCompensate, Follow;
      ghost var was, given := sh, inputs;
      var resumed := MutateSaga((s: S.Saga, i: Input) => Lift(s.Resume(i.now)));
      Follows(was, given);
      if resumed.Err? { return Some(resumed.error); }
      error := Run();
    }

    // ---------- retrying the payment ----------

    /** Creates another payment for a saga that waits for one, when the current one has failed or been cancelled;
        cancels the new one again when saga and order cannot take it. */
    method RetryPayment(id: Reference) returns (error: Option<Failure>)
      requires at == RetryLoad(id)
      modifies this
      ensures Follow(d, old(sh), RetryLoad(id), old(inputs)) == Follow(d, sh, at, inputs) && Over()
    {
      hide StepPlace, StepForward, StepCompensate, Follow;
      ghost var was, given := sh, inputs;
      var loaded, now := LoadSaga();
      Follows(was, given);
      if loaded.Err? { return Some(loaded.error); }
      var saga := loaded.value;
      if saga.paymentId != id { return Some(NotFound); }
      if !MayRetry(saga, now) { return Some(Rejected); }
      hide Step;
      var current := PaymentStatus(saga.paymentId);
      if current.Err? { return Some(current.error); }
      if current.value != P.Failed && current.value != P.Cancelled { return Some(Rejected); }
      var created := NewReference(saga);
      error := CreatePayment(created, saga.amount);
      if error != None { return; }
      error := ChangePayment(created);
      if error != None { var _ := CancelPayment(created); }
    }

    /** Draws references until one is new. */
    method NewReference(ghost seen: S.Saga) returns (id: Reference)
      requires AtOrStopped(RetryCreate(seen))
      modifies this
      ensures Follow(d, old(sh), old(at), old(inputs)) == Follow(d, sh, at, inputs)
      ensures AtOrStopped(RetryCreate(seen)) && (inputs != [] ==> IsNew(sh, id) && inputs[0].drawn == id)
    {
      hide StepPlace, StepForward, StepCompensate, Follow;
      id := BLANK;
      while |inputs| > 0
        invariant Follow(d, old(sh), old(at), old(inputs)) == Follow(d, sh, at, inputs)
        invariant AtOrStopped(RetryCreate(seen))
        decreases |inputs|
      {
        id := inputs[0].drawn;
        if IsNew(sh, id) { return; }
        ghost var was, given := sh, inputs;
        var _ := Take();
        Follows(was, given);
      }
    }

    /** Puts the new payment into saga and order in one transaction. */
    method ChangePayment(created: Reference) returns (error: Option<Failure>)
      requires AtOrStopped(RetryChange(created))
      modifies this
      ensures Follow(d, old(sh), old(at), old(inputs)) == Follow(d, sh, at, inputs)
      ensures AtOrStopped(if error == None then Done else RetryUndo(created))
    {
      hide StepPlace, StepForward, StepCompensate, Follow;
      ghost var was, given := sh, inputs;
      error := MutateBoth((order: O.OrderHead, s: S.Saga, i: Input) =>
        if i.answer != Proceed then Err(Failed)
        else match (s.ChangePayment(created, i.now), order.AwaitPayment(created))
          case (Ok(changed), Ok(waiting)) => Ok((waiting, changed))
          case _ => Err(Rejected));
      Follows(was, given);
    }

    // ---------- placing the order ----------

    method PlaceOrder() returns (error: Option<Failure>)
      requires at == PlaceReserve
      modifies this
      ensures Follow(d, old(sh), PlaceReserve, old(inputs)) == Follow(d, sh, at, inputs) && Over()
    {
      hide Step, Follow;
      error := StartCheckout();
      if error != None { return; }
      error := Pay();
    }

    /** Reserves the stock, stores order and saga, and redeems the promo code; gives back what it must when a call
        fails. */
    method StartCheckout() returns (error: Option<Failure>)
      requires AtOrStopped(PlaceReserve)
      modifies this
      ensures Follow(d, old(sh), old(at), old(inputs)) == Follow(d, sh, at, inputs)
      ensures if error == None then AtOrStopped(PlaceLoad) else Over()
    {
      hide StepForward, StepCompensate, StepAside, Follow;
      error := ReserveStock();
      if error != None { return; }
      error := StoreOrder();
      if error != None {
        var _ := ReleaseReservation();
        return;
      }
      if d.promo == BLANK { return; }
      error := RedeemPromo();
      if error != None {
        var _ := Abort();
        return;
      }
      ghost var was, given := sh, inputs;
      var stored := MutateSaga((s: S.Saga, i: Input) => Lift(s.MarkPromoRedeemed(i.now)));
      Follows(was, given);
      error := if stored.Err? then Some(stored.error) else None;
    }

    /** Starts the saga and stores it with the order in one transaction. */
    method StoreOrder() returns (error: Option<Failure>)
      requires AtOrStopped(PlaceSave)
      modifies this
      ensures Follow(d, old(sh), old(at), old(inputs)) == Follow(d, sh, at, inputs)
      ensures AtOrStopped(if error != None then PlaceUndo else if d.promo != BLANK then PlaceRedeem else PlaceLoad)
    {
      hide StepForward, StepCompensate, StepAside, Follow;
      ghost var was, given := sh, inputs;
      error := Some(Halted);
      if |inputs| > 0 {
        var i := Take();
        error := Some(Failed);
        var started := S.StartSaga(d.reservation, i.drawn, d.promo, d.total, d.deadline, i.now);
        if started.Ok? && i.answer == Proceed {
          sh := sh.(saga := Some(started.value), order := Some(O.OrderHead(O.Created, d.total, BLANK, [])));
          error := None;
        }
      }
      Follows(was, given);
    }

    /** Creates the payment that the stored saga names, and lets order and saga wait for it. */
    method Pay() returns (error: Option<Failure>)
      requires AtOrStopped(PlaceLoad)
      modifies this
      ensures Follow(d, old(sh), old(at), old(inputs)) == Follow(d, sh, at, inputs) && Over()
    {
      hide StepForward, StepCompensate, StepAside, Follow;
      ghost var was, given := sh, inputs;
      var loaded, _ := LoadSaga();
      Follows(was, given);
      if loaded.Err? { return Some(loaded.error); }
      var id := loaded.value.paymentId;
      error := CreatePayment(id, d.total);
      if error != None {
        var _ := Abort();
        return;
      }
      was, given := sh, inputs;
      error := MutateBoth((order: O.OrderHead, s: S.Saga, i: Input) =>
        match (order.AwaitPayment(id), s.AwaitPayment(id, i.now))
        case (Ok(waiting), Ok(changed)) => Ok((waiting, changed))
        case _ => Err(Rejected));
      Follows(was, given);
    }
  }
}
