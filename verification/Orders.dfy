/** The order aggregate. */
module Orders {
  import opened Kernel
  import opened OrderParts
  import S = OrderStatuses

  /** The first item with an error decides. */
  lemma {:induction false} FirstErrorStays(items: seq<Item>, currency: Currency, k: nat)
    requires k <= |items| && ItemsError(items[..k], currency) != None
    ensures ItemsError(items, currency) == ItemsError(items[..k], currency)
  {
    if k == |items| {
      assert items[..k] == items;
    } else {
      assert items[..|items| - 1][..k] == items[..k];
      FirstErrorStays(items[..|items| - 1], currency, k);
    }
  }

  method CheckItems(items: seq<Item>, currency: Currency) returns (error: Option<PlaceError>)
    ensures error == ItemsError(items, currency)
  {
    hide ItemError;
    var i := 0;
    while i < |items|
      invariant 0 <= i <= |items| && ItemsError(items[..i], currency) == None
    {
      assert items[..i + 1][..i] == items[..i];
      error := ItemError(items[..i], items[i], currency);
      if error != None {
        FirstErrorStays(items, currency, i + 1);
        return;
      }
      i := i + 1;
    }
    assert items[..i] == items;
    error := None;
  }

  lemma {:induction false} FailedItemsStay(items: seq<Item>, k: nat)
    requires k <= |items| && ItemParts(items[..k]).Err?
    ensures ItemParts(items) == ItemParts(items[..k])
  {
    if k == |items| {
      assert items[..k] == items;
    } else {
      assert items[..|items| - 1][..k] == items[..k];
      FailedItemsStay(items[..|items| - 1], k);
    }
  }

  lemma {:induction false} FailedShippingStays(parts: seq<Part>, shipping: seq<ShippingCost>,
      currency: Currency, k: nat)
    requires k <= |shipping| && ShippedParts(parts, shipping[..k], currency).Err?
    ensures ShippedParts(parts, shipping, currency) == ShippedParts(parts, shipping[..k], currency)
  {
    if k == |shipping| {
      assert shipping[..k] == shipping;
    } else {
      assert shipping[..|shipping| - 1][..k] == shipping[..k];
      FailedShippingStays(parts, shipping[..|shipping| - 1], currency, k);
    }
  }

  method IndexOf(parts: seq<Part>, seller: Reference) returns (i: int)
    ensures i == FindPart(parts, seller)
  {
    i := 0;
    while i < |parts|
      invariant 0 <= i <= |parts|
      invariant forall j :: 0 <= j < i ==> parts[j].seller != seller
    {
      if parts[i].seller == seller { return; }
      i := i + 1;
    }
    i := -1;
  }

  lemma NextItem(items: seq<Item>, k: nat)
    requires k < |items| && ItemParts(items[..k]).Ok?
    ensures ItemParts(items[..k + 1]) == AddItem(ItemParts(items[..k]).value, items[k])
  {
    hide AddItem;
    assert items[..k + 1][..k] == items[..k];
  }

  /** Updates the part of the item's seller in place, opening it first when the seller is new. */
  method AddToPart(before: seq<Part>, item: Item) returns (r: Result<seq<Part>, PlaceError>)
    ensures r == AddItem(before, item)
  {
    hide FindPart, Saving, Plus, Grown;
    var parts := before;
    OpenedHas(parts, item);
    var i := IndexOf(parts, item.seller);
    if i < 0 {
      var zero := Money(0, item.base.currency);
      parts := parts + [Part(item.seller, zero, zero, zero, zero)];
      i := |parts| - 1;
    }
    var grown := Grown(parts[i], item);
    r := if grown.Err? then Err(grown.error) else Ok(parts[i := grown.value]);
  }

  method DivideItems(items: seq<Item>) returns (r: Result<seq<Part>, PlaceError>)
    ensures r == ItemParts(items)
  {
    assert ItemParts(items[..0]) == Ok([]);
    hide ItemParts, AddItem;
    r := Ok([]);
    var k := 0;
    while k < |items|
      invariant 0 <= k <= |items| && r.Ok? && r == ItemParts(items[..k])
    {
      NextItem(items, k);
      r := AddToPart(r.value, items[k]);
      if r.Err? {
        FailedItemsStay(items, k + 1);
        return;
      }
      k := k + 1;
    }
    assert items[..k] == items;
  }

  /** Charges the shipping to the part of its seller, unless that part has some already. */
  method ChargePart(parts: seq<Part>, cost: ShippingCost, currency: Currency) returns (r: Result<seq<Part>, PlaceError>)
    ensures r == AddShipping(parts, cost, currency)
  {
    hide FindPart;
    var i := IndexOf(parts, cost.seller);
    if i < 0 || !parts[i].shipping.IsZero() { return Err(InvalidShipping); }
    if cost.cost.currency != currency { return Err(CurrencyMismatch); }
    var total := Plus(parts[i].total, cost.cost);
    if total.Err? { return Err(total.error); }
    r := Ok(parts[i := parts[i].(shipping := cost.cost, total := total.value)]);
  }

  lemma NextShipping(parts: seq<Part>, shipping: seq<ShippingCost>, currency: Currency, k: nat)
    requires k < |shipping| && ShippedParts(parts, shipping[..k], currency).Ok?
    ensures ShippedParts(parts, shipping[..k + 1], currency)
         == AddShipping(ShippedParts(parts, shipping[..k], currency).value, shipping[k], currency)
  {
    hide AddShipping;
    assert shipping[..k + 1][..k] == shipping[..k];
  }

  method ChargeParts(parts: seq<Part>, shipping: seq<ShippingCost>, currency: Currency)
    returns (r: Result<seq<Part>, PlaceError>)
    ensures r == ShippedParts(parts, shipping, currency)
  {
    assert ShippedParts(parts, shipping[..0], currency) == Ok(parts);
    hide ShippedParts, AddShipping;
    r := Ok(parts);
    var k := 0;
    while k < |shipping|
      invariant 0 <= k <= |shipping| && r.Ok? && r == ShippedParts(parts, shipping[..k], currency)
    {
      NextShipping(parts, shipping, currency, k);
      r := ChargePart(r.value, shipping[k], currency);
      if r.Err? {
        FailedShippingStays(parts, shipping, currency, k + 1);
        return;
      }
      k := k + 1;
    }
    assert shipping[..k] == shipping;
  }

  method DivideBySeller(items: seq<Item>, shipping: seq<ShippingCost>, currency: Currency)
    returns (r: Result<seq<Part>, PlaceError>)
    ensures r == BuildParts(items, shipping, currency)
  {
    hide ItemParts, ShippedParts;
    r := DivideItems(items);
    if r.Err? { return; }
    if |shipping| != |r.value| { return Err(InvalidShipping); }
    r := ChargeParts(r.value, shipping, currency);
  }

  lemma {:induction false} FailedTotalsStay(parts: seq<Part>, currency: Currency, k: nat)
    requires k <= |parts| && PartTotals(parts[..k], currency).Err?
    ensures PartTotals(parts, currency) == PartTotals(parts[..k], currency)
  {
    if k == |parts| {
      assert parts[..k] == parts;
    } else {
      assert parts[..|parts| - 1][..k] == parts[..k];
      FailedTotalsStay(parts[..|parts| - 1], currency, k);
    }
  }

  /** Its methods do to the head of the order what the functions of the same name do. */
  class Order {
    const items: seq<Item>
    const parts: seq<Part>
    const subtotal: Money
    const discount: Money
    const shipping: Money
    const total: Money
    var status: S.OrderStatus
    var paymentId: Reference
    var history: seq<S.StatusChange>

    function Head(): S.OrderHead
      reads this
    {
      S.OrderHead(status, total, paymentId, history)
    }

    ghost predicate Became(was: S.OrderHead, result: Result<S.OrderHead, S.OrderError>, error: Option<S.OrderError>)
      reads this
    {
      match result
      case Ok(next) => error == None && Head() == next
      case Err(e) => error == Some(e) && Head() == was
    }

    constructor (placed: Placed)
      ensures items == placed.items && parts == placed.parts
      ensures Totals(subtotal, discount, shipping, total) == placed.totals
      ensures Head() == S.OrderHead(S.Created, placed.totals.total, BLANK, [])
    {
      items, parts := placed.items, placed.parts;
      subtotal, discount := placed.totals.subtotal, placed.totals.discount;
      shipping, total := placed.totals.shipping, placed.totals.total;
      status, paymentId, history := S.Created, BLANK, [];
    }

    method Transition(target: S.OrderStatus, actor: S.ActorKind) returns (error: Option<S.OrderError>)
      modifies this
      ensures Became(old(Head()), old(Head()).Move(target, actor), error)
    {
      if !S.CanBecome(status, target) { return Some(S.IllegalTransition); }
      history := history + [S.StatusChange(status, target, actor)];
      status := target;
      error := None;
    }

    method AwaitPayment(id: Reference) returns (error: Option<S.OrderError>)
      modifies this
      ensures Became(old(Head()), old(Head()).AwaitPayment(id), error)
    {
      if id == BLANK { return Some(S.BlankReference); }
      if status == S.AwaitingPayment {
        paymentId := id;
        return None;
      }
      error := Transition(S.AwaitingPayment, S.System);
      if error == None { paymentId := id; }
    }

    method MarkPaid(paid: Money) returns (error: Option<S.OrderError>)
      modifies this
      ensures Became(old(Head()), old(Head()).MarkPaid(paid), error)
    {
      if status == S.Paid { return None; }
      if !S.CanBecome(status, S.Paid) { return Some(S.IllegalTransition); }
      if paid != total { return Some(S.PaidAmountMismatch); }
      error := Transition(S.Paid, S.System);
    }

    method Fail() returns (error: Option<S.OrderError>)
      modifies this
      ensures Became(old(Head()), old(Head()).Fail(), error)
    {
      if status == S.Failed { return None; }
      error := Transition(S.Failed, S.System);
    }

    /** A paid order passes through fulfilment. */
    method MarkShipped(actor: S.ActorKind) returns (error: Option<S.OrderError>)
      modifies this
      ensures Became(old(Head()), old(Head()).MarkShipped(actor), error)
    {
      if status == S.Shipped { return None; }
      if status == S.Paid {
        error := Transition(S.InFulfilment, actor);
        if error != None { return; }
      }
      error := Transition(S.Shipped, actor);
    }

    method MarkDelivered(actor: S.ActorKind) returns (error: Option<S.OrderError>)
      modifies this
      ensures Became(old(Head()), old(Head()).MarkDelivered(actor), error)
    {
      if status == S.Delivered { return None; }
      error := Transition(S.Delivered, actor);
    }

    method Complete() returns (error: Option<S.OrderError>)
      modifies this
      ensures Became(old(Head()), old(Head()).Complete(), error)
    {
      if status == S.Completed { return None; }
      error := Transition(S.Completed, S.System);
    }

    method Cancel(actor: S.ActorKind) returns (error: Option<S.OrderError>)
      modifies this
      ensures Became(old(Head()), old(Head()).Cancel(actor), error)
    {
      if status == S.Cancelled { return None; }
      if actor != S.System && !S.Cancellable(status) { return Some(S.CancellationDenied); }
      error := Transition(S.Cancelled, actor);
      if error != None && S.IsTerminal(status) { return Some(S.CancellationDenied); }
    }
  }

  method PlaceOrder(items: seq<Item>, shipping: seq<ShippingCost>, currency: Currency)
    returns (r: Result<Order, PlaceError>)
    ensures match Place(items, shipping, currency)
      case Err(e) => r == Err(e)
      case Ok(placed) =>
        && r.Ok? && fresh(r.value)
        && r.value.items == placed.items && r.value.parts == placed.parts
        && Totals(r.value.subtotal, r.value.discount, r.value.shipping, r.value.total) == placed.totals
        && r.value.Head() == S.OrderHead(S.Created, placed.totals.total, BLANK, [])
  {
    if |items| == 0 { return Err(EmptyOrder); }
    if |items| > MAX_ITEMS { return Err(TooManyItems); }
    var error := CheckItems(items, currency);
    if error != None { return Err(error.value); }
    var divided := DivideBySeller(items, shipping, currency);
    if divided.Err? { return Err(divided.error); }
    var parts := divided.value;
    var totals := AddUp(parts, items[0].base.currency);
    if totals.Err? { return Err(totals.error); }
    var order := new Order(Placed(items, parts, totals.value));
    r := Ok(order);
  }

  method AddUp(parts: seq<Part>, currency: Currency) returns (r: Result<Totals, PlaceError>)
    ensures r == PartTotals(parts, currency)
  {
    var zero := Money(0, currency);
    var t := Totals(zero, zero, zero, zero);
    var i := 0;
    while i < |parts|
      invariant 0 <= i <= |parts| && PartTotals(parts[..i], currency) == Ok(t)
    {
      assert parts[..i + 1][..i] == parts[..i];
      var subtotal, discount := Plus(t.subtotal, parts[i].subtotal), Plus(t.discount, parts[i].discount);
      var shipping, total := Plus(t.shipping, parts[i].shipping), Plus(t.total, parts[i].total);
      if subtotal.Err? || discount.Err? || shipping.Err? || total.Err? {
        FailedTotalsStay(parts, currency, i + 1);
        return Err(Panic);
      }
      t := Totals(subtotal.value, discount.value, shipping.value, total.value);
      i := i + 1;
    }
    assert parts[..i] == parts;
    r := Ok(t);
  }
}
