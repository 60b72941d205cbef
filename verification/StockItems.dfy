/** A stock item: what can be sold, what is held, the holds of every reservation on it, and the movements not yet
written to the ledger. The value `Item` is the specification; `StockItem` is the aggregate that is updated in place. */
module StockItems {
  import opened Kernel
  import R = Reservations

  datatype Hold = Hold(reservation: Reference, order: Reference, quantity: Quantity, status: R.HoldStatus,
    expiresAt: Time)

  datatype Reason = ForReserve | ForRelease | ForCommit | ForRestock | ForReturn | ForCorrection

  datatype Movement = Movement(sku: R.SKU, delta: int, reason: Reason, reference: Reference)

  datatype StockError =
    | InvalidId | InvalidQuantity | InvalidReference | InvalidTTL | NotStockOwner | InsufficientStock | StockOverflow
    | ReservationNotFound | ReservationResolved | ReservationNotCommitted
    | InvalidLines | NegativeQuantity | QuantityOverflow | StockNotFound | StockExists | ConcurrentModification

  function HoldReservation(x: Hold): Reference { x.reservation }

  function FindHold(holds: seq<Hold>, id: Reference): (i: int)
    ensures -1 <= i < |holds|
    ensures i >= 0 ==> holds[i].reservation == id && forall j :: 0 <= j < i ==> holds[j].reservation != id
    ensures i < 0 ==> forall j :: 0 <= j < |holds| ==> holds[j].reservation != id
  {
    FindFirst(holds, HoldReservation, id)
  }

  function HeldQuantity(h: Hold): int { if h.status == R.Held then h.quantity else 0 }
  function Delta(m: Movement): int { m.delta }

  predicate IsDue(h: Hold, now: Time) { h.status == R.Held && h.expiresAt <= now }

  /** The reservations the expiry picks, in order. */
  function DueIds(holds: seq<Hold>, now: Time): seq<Reference> {
    if holds == [] then []
    else
      var rest := DueIds(holds[1..], now);
      if IsDue(holds[0], now) then [holds[0].reservation] + rest else rest
  }

  datatype Item = Item(
    sku: R.SKU, seller: Reference, available: Quantity, reserved: Quantity, holds: seq<Hold>, movements: seq<Movement>,
    version: nat)
  {
    function Physical(): int { available + reserved }

    function Record(reason: Reason, reference: Reference, delta: int): Item {
      this.(movements := movements + [Movement(sku, delta, reason, reference)])
    }

    function Restock(actor: Reference, quantity: Quantity, reference: Reference): Result<Item, StockError> {
      if actor != seller then Err(NotStockOwner)
      else if quantity == 0 then Err(InvalidQuantity)
      else if reference == BLANK then Err(InvalidReference)
      else match QuantityAdd(available, quantity)
        case None => Err(StockOverflow)
        case Some(next) => Ok(this.(available := next).Record(ForRestock, reference, quantity))
    }

    function SetAvailable(actor: Reference, target: Quantity, reference: Reference): Result<Item, StockError> {
      if actor != seller then Err(NotStockOwner)
      else if reference == BLANK then Err(InvalidReference)
      else if target == available then Ok(this)
      else Ok(this.(available := target).Record(ForCorrection, reference, target - available))
    }

    function Reserve(id: Reference, order: Reference, quantity: Quantity, expiresAt: Time,
        now: Time): Result<Item, StockError> {
      if id == BLANK then Err(InvalidId)
      else if quantity == 0 then Err(InvalidQuantity)
      else if expiresAt <= now then Err(InvalidTTL)
      else
        var i := FindHold(holds, id);
        if i >= 0 then (if holds[i].status == R.Held then Ok(this) else Err(ReservationResolved))
        else match (QuantitySub(available, quantity), QuantityAdd(reserved, quantity))
          case (None, _) => Err(InsufficientStock)
          case (_, None) => Err(StockOverflow)
          case (Some(free), Some(held)) =>
            Ok(this.(available := free, reserved := held,
              holds := holds + [Hold(id, order, quantity, R.Held, expiresAt)])
                   .Record(ForReserve, id, 0))
    }

    /** Commit, release and expiry of one hold. */
    function Resolve(id: Reference, target: R.HoldStatus): Result<Item, StockError> {
      var i := FindHold(holds, id);
      if i < 0 then Err(ReservationNotFound)
      else
        var h := holds[i];
        if h.status == target then Ok(this)
        else if h.status != R.Held then Err(ReservationResolved)
        else match QuantitySub(reserved, h.quantity)
          case None => Err(InsufficientStock)
          case Some(rest) =>
            var resolved := this.(reserved := rest, holds := holds[i := h.(status := target)]);
            if target == R.Committed then Ok(resolved.Record(ForCommit, id, 0 - h.quantity))
            else match QuantityAdd(available, h.quantity)
              case None => Err(StockOverflow)
              case Some(free) => Ok(resolved.(available := free).Record(ForRelease, id, 0))
    }

    function Commit(id: Reference): Result<Item, StockError> { Resolve(id, R.Committed) }
    function Release(id: Reference): Result<Item, StockError> { Resolve(id, R.Released) }
    function Expire(id: Reference): Result<Item, StockError> { Resolve(id, R.Expired) }

    /** Takes a committed hold back. */
    function Restore(id: Reference): Result<Item, StockError> {
      var i := FindHold(holds, id);
      if i < 0 then Err(ReservationNotFound)
      else
        var h := holds[i];
        if h.status == R.Restored then Ok(this)
        else if h.status != R.Committed then Err(ReservationNotCommitted)
        else match QuantityAdd(available, h.quantity)
          case None => Err(StockOverflow)
          case Some(free) =>
            Ok(this.(available := free, holds := holds[i := h.(status := R.Restored)]).Record(ForReturn, id,
              h.quantity))
    }

    function ExpireEach(ids: seq<Reference>): Result<Item, StockError>
      decreases |ids|
    {
      if ids == [] then Ok(this)
      else match Expire(ids[0])
        case Err(e) => Err(e)
        case Ok(next) => next.ExpireEach(ids[1..])
    }

    function ExpireDue(now: Time): Result<Item, StockError> {
      ExpireEach(DueIds(holds, now))
    }

    function ReturnUnits(reference: Reference, quantity: Quantity): Result<Item, StockError> {
      if quantity == 0 then Err(InvalidQuantity)
      else if reference == BLANK then Err(InvalidReference)
      else match QuantityAdd(available, quantity)
        case None => Err(StockOverflow)
        case Some(next) => Ok(this.(available := next).Record(ForReturn, reference, quantity))
    }
  }

  function Open(sku: R.SKU, seller: Reference): Result<Item, StockError> {
    if sku == "" || seller == BLANK then Err(InvalidId) else Ok(Item(sku, seller, 0, 0, [], [], 0))
  }

  // ---------- what every stored item satisfies ----------

  ghost predicate OneHoldEach(holds: seq<Hold>) {
    forall i, j :: 0 <= i < j < |holds| ==> holds[i].reservation != holds[j].reservation
  }

  /** A reservation has at most one hold on the item, and `reserved` is what is held. */
  ghost predicate Sane(item: Item) {
    && OneHoldEach(item.holds)
    && (forall h :: h in item.holds ==> h.quantity > 0 && h.reservation != BLANK)
    && item.reserved == Sum(item.holds, HeldQuantity)
  }

  datatype Command =
    | DoRestock(seller: Reference, quantity: Quantity, reference: Reference)
    | DoSetAvailable(seller: Reference, target: Quantity, reference: Reference)
    | DoReserve(id: Reference, order: Reference, quantity: Quantity, expiresAt: Time, now: Time)
    | DoCommit(id: Reference) | DoRelease(id: Reference) | DoExpire(id: Reference) | DoRestore(id: Reference)
    | DoExpireDue(now: Time)
    | DoReturn(reference: Reference, quantity: Quantity)

  function Perform(item: Item, c: Command): Result<Item, StockError> {
    match c
    case DoRestock(seller, quantity, reference) => item.Restock(seller, quantity, reference)
    case DoSetAvailable(seller, target, reference) => item.SetAvailable(seller, target, reference)
    case DoReserve(id, order, quantity, expiresAt, now) => item.Reserve(id, order, quantity, expiresAt, now)
    case DoCommit(id) => item.Commit(id)
    case DoRelease(id) => item.Release(id)
    case DoExpire(id) => item.Expire(id)
    case DoRestore(id) => item.Restore(id)
    case DoExpireDue(now) => item.ExpireDue(now)
    case DoReturn(reference, quantity) => item.ReturnUnits(reference, quantity)
  }

  /** What a successful command keeps: the identity of the item, its sanity, and the books, that is, the movements it
      adds account for the change in what is physically there. */
  ghost predicate Accounts(s: Item, t: Item) {
    && t.sku == s.sku && t.seller == s.seller && t.version == s.version
    && Sane(t)
    && s.movements <= t.movements
    && Sum(t.movements, Delta) - Sum(s.movements, Delta) == t.Physical() - s.Physical()
  }

  lemma AccountsChain(a: Item, b: Item, c: Item)
    requires Accounts(a, b) && Accounts(b, c)
    ensures Accounts(a, c)
  {
  }

  lemma AccountsMeans(a: Item, b: Item)
    requires Accounts(a, b)
    ensures Sane(b)
  {
  }

  lemma AccountsSelf(a: Item)
    requires Sane(a)
    ensures Accounts(a, a)
  {
  }

  lemma RecordAdds(s: Item, reason: Reason, reference: Reference, delta: int)
    ensures Sum(s.Record(reason, reference, delta).movements, Delta) == Sum(s.movements, Delta) + delta
    ensures s.movements <= s.Record(reason, reference, delta).movements
  {
    SumAppend(s.movements, Movement(s.sku, delta, reason, reference), Delta);
  }

  lemma HeldIsReserved(s: Item)
    requires Sane(s)
    ensures forall h :: h in s.holds && h.status == R.Held ==> h.quantity <= s.reserved
  {
    SumNonNegative(s.holds, HeldQuantity);
    forall h | h in s.holds && h.status == R.Held ensures h.quantity <= s.reserved {
      assert HeldQuantity(h) <= Sum(s.holds, HeldQuantity);
    }
  }

  lemma StatusChangeKeepsHolds(s: Item, i: nat, target: R.HoldStatus)
    requires Sane(s) && i < |s.holds|
    ensures var holds := s.holds[i := s.holds[i].(status := target)];
      && OneHoldEach(holds)
      && (forall h :: h in holds ==> h.quantity > 0 && h.reservation != BLANK)
      && Sum(holds, HeldQuantity) == s.reserved - HeldQuantity(s.holds[i]) + HeldQuantity(s.holds[i].(status := target))
  {
    var h := s.holds[i];
    SumUpdate(s.holds, i, h.(status := target), HeldQuantity);
    assert h in s.holds;
  }

  /** Resolving a hold never finds less reserved than the hold asks for, moves exactly its quantity, touches no other
      hold, and fails in one way only besides the two refusals: when the available stock would overflow. */
  lemma ResolveMovesHold(s: Item, id: Reference, target: R.HoldStatus)
    requires Sane(s) && (target == R.Committed || target == R.Released || target == R.Expired)
    ensures var i := FindHold(s.holds, id);
      match s.Resolve(id, target)
      case Ok(t) =>
        && i >= 0 && Accounts(s, t)
        && t.holds == s.holds[i := s.holds[i].(status := target)]
        && (var moved := if s.holds[i].status == R.Held then s.holds[i].quantity else 0;
            t.reserved == s.reserved - moved && t.available == s.available + (if target == R.Committed then 0
              else moved))
      case Err(e) =>
        || (e == ReservationNotFound && i < 0)
        || (e == ReservationResolved && i >= 0 && s.holds[i].status != target && s.holds[i].status != R.Held)
        || (e == StockOverflow && i >= 0 && s.holds[i].status == R.Held && target != R.Committed
            && s.available + s.holds[i].quantity > MAX_QUANTITY)
  {
    HeldIsReserved(s);
    var i := FindHold(s.holds, id);
    if i >= 0 {
      var h := s.holds[i];
      assert h in s.holds;
      StatusChangeKeepsHolds(s, i, target);
      assert s.holds[i := h] == s.holds;
      if h.status == R.Held && s.Resolve(id, target).Ok? {
        var r := s.(reserved := s.reserved - h.quantity, holds := s.holds[i := h.(status := target)]);
        if target == R.Committed { RecordAdds(r, ForCommit, id, 0 - h.quantity); }
        else { RecordAdds(r.(available := s.available + h.quantity), ForRelease, id, 0); }
      }
    }
  }

  lemma RestoreTakesBack(s: Item, id: Reference)
    requires Sane(s)
    ensures var i := FindHold(s.holds, id);
      match s.Restore(id)
      case Ok(t) =>
        && i >= 0 && Accounts(s, t) && t.reserved == s.reserved
        && t.holds == s.holds[i := s.holds[i].(status := R.Restored)]
        && t.available == s.available + (if s.holds[i].status == R.Committed then s.holds[i].quantity else 0)
      case Err(e) =>
        || (e == ReservationNotFound && i < 0)
        || (e == ReservationNotCommitted && i >= 0 && s.holds[i].status != R.Restored
          && s.holds[i].status != R.Committed)
        || (e == StockOverflow && i >= 0 && s.holds[i].status == R.Committed
          && s.available + s.holds[i].quantity > MAX_QUANTITY)
  {
    var i := FindHold(s.holds, id);
    if i >= 0 {
      var h := s.holds[i];
      StatusChangeKeepsHolds(s, i, R.Restored);
      assert s.holds[i := h] == s.holds;
      if h.status == R.Committed && s.Restore(id).Ok? {
        RecordAdds(s.(available := s.available + h.quantity, holds := s.holds[i := h.(status := R.Restored)]),
          ForReturn, id, h.quantity);
      }
    }
  }

  lemma NewHoldKeepsHolds(s: Item, h: Hold)
    requires Sane(s) && FindHold(s.holds, h.reservation) < 0 && h.quantity > 0 && h.reservation != BLANK
    ensures OneHoldEach(s.holds + [h]) && Sum(s.holds + [h], HeldQuantity) == s.reserved + HeldQuantity(h)
    ensures forall k :: k in s.holds + [h] ==> k.quantity > 0 && k.reservation != BLANK
  {
    SumAppend(s.holds, h, HeldQuantity);
    forall k | k in s.holds + [h] ensures k.quantity > 0 && k.reservation != BLANK {
      assert k == h || k in s.holds;
    }
  }

  /** A new reservation moves exactly the quantity from available to reserved and adds one hold; a known one that is
      still held changes nothing. */
  lemma ReserveHolds(s: Item, id: Reference, order: Reference, quantity: Quantity, expiresAt: Time, now: Time)
    requires Sane(s) && s.Reserve(id, order, quantity, expiresAt, now).Ok?
    ensures var t := s.Reserve(id, order, quantity, expiresAt, now).value;
      && Accounts(s, t)
      && (if FindHold(s.holds, id) >= 0 then t == s
          else t.available == s.available - quantity && t.reserved == s.reserved + quantity
               && t.holds == s.holds + [Hold(id, order, quantity, R.Held, expiresAt)])
  {
    hide OneHoldEach, FindHold, Sum;
    if FindHold(s.holds, id) < 0 {
      var h := Hold(id, order, quantity, R.Held, expiresAt);
      NewHoldKeepsHolds(s, h);
      RecordAdds(s.(available := s.available - quantity, reserved := s.reserved + quantity, holds := s.holds + [h]),
        ForReserve, id, 0);
    }
  }

  // ---------- expiry in one batch ----------

  function Expiry(h: Hold, now: Time): Hold { if IsDue(h, now) then h.(status := R.Expired) else h }

  function Expiries(holds: seq<Hold>, now: Time): seq<Hold> {
    seq(|holds|, i requires 0 <= i < |holds| => Expiry(holds[i], now))
  }

  function DueTotal(holds: seq<Hold>, now: Time): int {
    if holds == [] then 0 else (if IsDue(holds[0], now) then holds[0].quantity else 0) + DueTotal(holds[1..], now)
  }

  lemma {:induction false} DueTotalIsNatural(holds: seq<Hold>, now: Time)
    ensures DueTotal(holds, now) >= 0
  {
    if holds != [] { DueTotalIsNatural(holds[1..], now); }
  }

  lemma FindsAt(holds: seq<Hold>, i: nat)
    requires OneHoldEach(holds) && i < |holds|
    ensures FindHold(holds, holds[i].reservation) == i
  {
  }

  lemma FindsOn(s: Item, i: nat)
    requires Sane(s) && i < |s.holds|
    ensures FindHold(s.holds, s.holds[i].reservation) == i
  {
    FindsAt(s.holds, i);
  }

  /** Expiring the due holds of `rest`, one reservation after the other, with `done` dealt with. */
  lemma {:induction false} ExpireRest(s: Item, done: seq<Hold>, rest: seq<Hold>, now: Time)
    requires Sane(s) && s.holds == done + rest
    ensures var total := DueTotal(rest, now);
      match s.ExpireEach(DueIds(rest, now))
      case Ok(t) =>
        && Accounts(s, t) && t.holds == done + Expiries(rest, now)
        && t.available == s.available + total && t.reserved == s.reserved - total
      case Err(e) => e == StockOverflow && s.available + total > MAX_QUANTITY
    decreases |rest|
  {
    hide Sane, Accounts, FindHold, Item.Resolve;
    if rest == [] {
      AccountsSelf(s);
      assert done + Expiries(rest, now) == s.holds;
    } else {
      var h := rest[0];
      var moved := Expiry(h, now);
      assert Expiries(rest, now) == [moved] + Expiries(rest[1..], now);
      assert done + Expiries(rest, now) == (done + [moved]) + Expiries(rest[1..], now);
      if IsDue(h, now) {
        assert s.holds[|done|] == h;
        FindsOn(s, |done|);
        ResolveMovesHold(s, h.reservation, R.Expired);
        assert DueIds(rest, now)[1..] == DueIds(rest[1..], now);
        DueTotalIsNatural(rest[1..], now);
        if s.Expire(h.reservation).Ok? {
          var next := s.Expire(h.reservation).value;
          AccountsMeans(s, next);
          assert s.holds[|done| := moved] == (done + [moved]) + rest[1..];
          ExpireRest(next, done + [moved], rest[1..], now);
          if next.ExpireEach(DueIds(rest[1..], now)).Ok? {
            AccountsChain(s, next, next.ExpireEach(DueIds(rest[1..], now)).value);
          }
        }
      } else {
        assert s.holds == (done + [h]) + rest[1..];
        ExpireRest(s, done + [h], rest[1..], now);
      }
    }
  }

  /** After a batch expiry exactly the holds that were held and due are expired, every hold in its place, and the
      available stock grew by their sum; it fails exactly when that sum does not fit. */
  lemma ExpiryTakesWhatIsDue(s: Item, now: Time)
    requires Sane(s)
    ensures s.ExpireDue(now).Ok? <==> s.available + DueTotal(s.holds, now) <= MAX_QUANTITY
    ensures s.ExpireDue(now).Ok? ==>
      var t := s.ExpireDue(now).value;
      && Accounts(s, t) && t.holds == Expiries(s.holds, now)
      && t.available == s.available + DueTotal(s.holds, now)
      && t.reserved == s.reserved - DueTotal(s.holds, now)
    ensures s.ExpireDue(now).Err? ==> s.ExpireDue(now).error == StockOverflow
  {
    assert [] + s.holds == s.holds;
    ExpireRest(s, [], s.holds, now);
    if s.ExpireDue(now).Ok? {
      var t := s.ExpireDue(now).value;
      assert [] + Expiries(s.holds, now) == Expiries(s.holds, now);
    }
  }

  /** Whatever succeeds keeps the item sane and its books balanced, and no subtraction from the reserved stock ever
      fails. */
  lemma CommandKeepsItem(s: Item, c: Command)
    requires Sane(s)
    ensures Perform(s, c).Ok? ==> Accounts(s, Perform(s, c).value)
    ensures Perform(s, c) == Err(InsufficientStock) ==> c.DoReserve? && c.quantity > s.available
  {
    hide Sum, OneHoldEach, FindHold;
    match c
    case DoRestock(seller, quantity, reference) =>
      if s.Restock(seller, quantity, reference).Ok? {
        RecordAdds(s.(available := s.available + quantity), ForRestock, reference, quantity);
      }
    case DoSetAvailable(seller, target, reference) =>
      if s.SetAvailable(seller, target, reference).Ok? && target != s.available {
        RecordAdds(s.(available := target), ForCorrection, reference, target - s.available);
      }
    case DoReserve(id, order, quantity, expiresAt, now) =>
      if s.Reserve(id, order, quantity, expiresAt, now).Ok? { ReserveHolds(s, id, order, quantity, expiresAt, now); }
    case DoCommit(id) => ResolveMovesHold(s, id, R.Committed);
    case DoRelease(id) => ResolveMovesHold(s, id, R.Released);
    case DoExpire(id) => ResolveMovesHold(s, id, R.Expired);
    case DoRestore(id) => RestoreTakesBack(s, id);
    case DoExpireDue(now) => ExpiryTakesWhatIsDue(s, now);
    case DoReturn(reference, quantity) =>
      if s.ReturnUnits(reference, quantity).Ok? {
        RecordAdds(s.(available := s.available + quantity), ForReturn, reference, quantity);
      }
  }

  // ---------- the aggregate ----------

  /** The aggregate object. Each method does to it what the function of the same name on `Item` says. */
  class StockItem {
    const sku: R.SKU
    const seller: Reference
    var available: Quantity
    var reserved: Quantity
    var holds: seq<Hold>
    var movements: seq<Movement>
    var version: nat

    function State(): Item
      reads this
    {
      Item(sku, seller, available, reserved, holds, movements, version)
    }

    /** A refused call leaves the object alone. */
    ghost predicate Became(was: Item, result: Result<Item, StockError>, error: Option<StockError>)
      reads this
    {
      match result
      case Ok(next) => error == None && State() == next
      case Err(e) => error == Some(e) && State() == was
    }

    constructor Rehydrate(snapshot: Item)
      ensures State() == snapshot
    {
      sku, seller, available, reserved := snapshot.sku, snapshot.seller, snapshot.available, snapshot.reserved;
      holds, movements, version := snapshot.holds, snapshot.movements, snapshot.version;
    }

    method Record(reason: Reason, reference: Reference, delta: int)
      modifies this`movements
      ensures State() == old(State()).Record(reason, reference, delta)
    {
      movements := movements + [Movement(sku, delta, reason, reference)];
    }

    method IndexOf(id: Reference) returns (i: int)
      ensures i == FindHold(holds, id)
    {
      i := 0;
      while i < |holds|
        invariant 0 <= i <= |holds|
        invariant forall j :: 0 <= j < i ==> holds[j].reservation != id
      {
        if holds[i].reservation == id { return; }
        i := i + 1;
      }
      i := -1;
    }

    method Restock(actor: Reference, quantity: Quantity, reference: Reference) returns (error: Option<StockError>)
      modifies this
      ensures Became(old(State()), old(State()).Restock(actor, quantity, reference), error)
    {
      if actor != seller { return Some(NotStockOwner); }
      if quantity == 0 { return Some(InvalidQuantity); }
      if reference == BLANK { return Some(InvalidReference); }
      var next := QuantityAdd(available, quantity);
      if next == None { return Some(StockOverflow); }
      available := next.value;
      Record(ForRestock, reference, quantity);
      error := None;
    }

    method SetAvailable(actor: Reference, target: Quantity, reference: Reference) returns (error: Option<StockError>)
      modifies this
      ensures Became(old(State()), old(State()).SetAvailable(actor, target, reference), error)
    {
      if actor != seller { return Some(NotStockOwner); }
      if reference == BLANK { return Some(InvalidReference); }
      var delta := target as int - available as int;
      if delta == 0 { return None; }
      available := target;
      Record(ForCorrection, reference, delta);
      error := None;
    }

    method Reserve(id: Reference, order: Reference, quantity: Quantity, expiresAt: Time, now: Time)
      returns (error: Option<StockError>)
      modifies this
      ensures Became(old(State()), old(State()).Reserve(id, order, quantity, expiresAt, now), error)
    {
      if id == BLANK { return Some(InvalidId); }
      if quantity == 0 { return Some(InvalidQuantity); }
      if expiresAt <= now { return Some(InvalidTTL); }
      var i := IndexOf(id);
      if i >= 0 {
        return if holds[i].status == R.Held then None else Some(ReservationResolved);
      }
      var free := QuantitySub(available, quantity);
      if free == None { return Some(InsufficientStock); }
      var held := QuantityAdd(reserved, quantity);
      if held == None { return Some(StockOverflow); }
      available, reserved := free.value, held.value;
      holds := holds + [Hold(id, order, quantity, R.Held, expiresAt)];
      Record(ForReserve, id, 0);
      error := None;
    }

    /** When the released stock does not fit, `reserved` has been lowered already and stays so: the caller must not
        save the object. */
    method Resolve(id: Reference, target: R.HoldStatus) returns (error: Option<StockError>)
      modifies this
      ensures match old(State()).Resolve(id, target)
        case Ok(next) => error == None && State() == next
        case Err(e) =>
          && error == Some(e)
          && (if e == StockOverflow then
                State() == old(State()).(reserved := old(reserved) - old(holds)[FindHold(old(holds), id)].quantity)
              else State() == old(State()))
    {
      var i := IndexOf(id);
      if i < 0 { return Some(ReservationNotFound); }
      var hold := holds[i];
      if hold.status == target { return None; }
      if hold.status != R.Held { return Some(ReservationResolved); }
      var rest := QuantitySub(reserved, hold.quantity);
      if rest == None { return Some(InsufficientStock); }
      reserved := rest.value;
      var delta := 0;
      if target == R.Committed {
        delta := 0 - hold.quantity;
      } else {
        var free := QuantityAdd(available, hold.quantity);
        if free == None { return Some(StockOverflow); }
        available := free.value;
      }
      holds := holds[i := hold.(status := target)];
      Record(if target == R.Committed then ForCommit else ForRelease, id, delta);
      error := None;
    }

    method Restore(id: Reference) returns (error: Option<StockError>)
      modifies this
      ensures Became(old(State()), old(State()).Restore(id), error)
    {
      var i := IndexOf(id);
      if i < 0 { return Some(ReservationNotFound); }
      var hold := holds[i];
      if hold.status == R.Restored { return None; }
      if hold.status != R.Committed { return Some(ReservationNotCommitted); }
      var free := QuantityAdd(available, hold.quantity);
      if free == None { return Some(StockOverflow); }
      available := free.value;
      holds := holds[i := hold.(status := R.Restored)];
      Record(ForReturn, id, hold.quantity);
      error := None;
    }

    /** Collects the due reservations first and then expires them one by one; a failure leaves the object half done. */
    method ExpireDue(now: Time) returns (expired: seq<Reference>, error: Option<StockError>)
      modifies this
      ensures match old(State()).ExpireDue(now)
        case Ok(next) => error == None && State() == next && expired == DueIds(old(holds), now)
        case Err(e) => error == Some(e) && expired == []
    {
      hide FindHold, Item.Resolve;
      expired := [];
      var i := 0;
      while i < |holds|
        invariant 0 <= i <= |holds|
        invariant expired + DueIds(holds[i..], now) == DueIds(holds, now)
      {
        assert holds[i..][1..] == holds[i + 1..];
        if IsDue(holds[i], now) { expired := expired + [holds[i].reservation]; }
        i := i + 1;
      }
      assert holds[i..] == [] && expired + [] == expired && expired[0..] == expired;
      i := 0;
      while i < |expired|
        invariant 0 <= i <= |expired|
        invariant State().ExpireEach(expired[i..]) == old(State()).ExpireDue(now)
      {
        assert expired[i..][1..] == expired[i + 1..];
        error := Resolve(expired[i], R.Expired);
        if error != None { return [], error; }
        i := i + 1;
      }
      error := None;
    }

    method ReturnUnits(reference: Reference, quantity: Quantity) returns (error: Option<StockError>)
      modifies this
      ensures Became(old(State()), old(State()).ReturnUnits(reference, quantity), error)
    {
      if quantity == 0 { return Some(InvalidQuantity); }
      if reference == BLANK { return Some(InvalidReference); }
      var next := QuantityAdd(available, quantity);
      if next == None { return Some(StockOverflow); }
      available := next.value;
      Record(ForReturn, reference, quantity);
      error := None;
    }
  }
}
