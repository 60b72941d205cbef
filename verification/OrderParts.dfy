/** Placing an order: checking its items, dividing it by seller and adding up its totals. */
module OrderParts {
  import opened Kernel
  import opened Sorting
  import opened Grouping

  const MAX_ITEMS: int := 100

  datatype Item = Item(sku: string, seller: Reference, quantity: int, unitPrice: Money, base: Money, final: Money)

  datatype ShippingCost = ShippingCost(seller: Reference, cost: Money)

  datatype Part = Part(seller: Reference, subtotal: Money, discount: Money, shipping: Money, total: Money)

  /** `Panic` stands for the two places that abort the process: a quantity above int32 and a sum above int64. */
  datatype PlaceError = EmptyOrder | TooManyItems | InvalidItem | CurrencyMismatch | InvalidShipping | Panic

  // ---------- checking the items ----------

  function ItemError(before: seq<Item>, item: Item, currency: Currency): Option<PlaceError> {
    if item.sku == "" || (exists i :: i in before && i.sku == item.sku) || item.seller == BLANK
      || item.quantity <= 0 then
      Some(InvalidItem)
    else if item.unitPrice.currency != currency || item.base.currency != currency
      || item.final.currency != currency then
      Some(CurrencyMismatch)
    else if item.quantity > MAX_QUANTITY then Some(Panic)
    else if item.unitPrice.MulQuantity(item.quantity) != Ok(item.base) || item.unitPrice.amount <= 0
      then Some(InvalidItem)
    else if item.final.amount > item.base.amount then Some(InvalidItem)
    else None
  }

  function ItemsError(items: seq<Item>, currency: Currency): Option<PlaceError> {
    if items == [] then None
    else
      var earlier := ItemsError(items[..|items| - 1], currency);
      if earlier != None then earlier else ItemError(items[..|items| - 1], items[|items| - 1], currency)
  }

  ghost predicate GoodItem(item: Item, currency: Currency) {
    && item.sku != "" && item.seller != BLANK && 0 < item.quantity <= MAX_QUANTITY
    && item.unitPrice.currency == item.base.currency == item.final.currency == currency
    && 0 < item.unitPrice.amount && item.base.amount == item.unitPrice.amount * item.quantity
    && item.final.amount <= item.base.amount
  }

  ghost predicate GoodItems(items: seq<Item>, currency: Currency) {
    && (forall i :: i in items ==> GoodItem(i, currency))
    && (forall i, j :: 0 <= i < j < |items| ==> items[i].sku != items[j].sku)
  }

  /** The check accepts exactly items with distinct SKUs, consistent prices in one currency and a final price within the
      base price. */
  lemma {:induction false} ItemsAreChecked(items: seq<Item>, currency: Currency)
    ensures ItemsError(items, currency) == None <==> GoodItems(items, currency)
  {
    if items != [] {
      hide GoodItem, ItemError;
      var init, last := items[..|items| - 1], items[|items| - 1];
      ItemsAreChecked(init, currency);
      ItemIsChecked(init, last, currency);
      assert items == init + [last];
      if GoodItems(items, currency) {
        assert forall i :: i in init ==> i in items;
        forall i | i in init ensures i.sku != last.sku {
          var k :| 0 <= k < |init| && init[k] == i;
          assert items[k].sku != items[|init|].sku;
        }
        assert last in items;
      }
      if GoodItems(init, currency) && ItemError(init, last, currency) == None {
        forall i, j | 0 <= i < j < |items| ensures items[i].sku != items[j].sku {
          if j == |init| { assert init[i] in init; }
        }
      }
    }
  }

  lemma ItemIsChecked(before: seq<Item>, item: Item, currency: Currency)
    ensures ItemError(before, item, currency) == None <==>
      GoodItem(item, currency) && forall i :: i in before ==> i.sku != item.sku
  {
  }

  // ---------- dividing by seller ----------

  function PartSeller(x: Part): Reference { x.seller }

  function FindPart(parts: seq<Part>, seller: Reference): (i: int)
    ensures -1 <= i < |parts|
    ensures i >= 0 ==> parts[i].seller == seller && forall j :: 0 <= j < i ==> parts[j].seller != seller
    ensures i < 0 ==> forall j :: 0 <= j < |parts| ==> parts[j].seller != seller
  {
    FindFirst(parts, PartSeller, seller)
  }

  /** Adding panics when it fails. */
  function Plus(a: Money, b: Money): Result<Money, PlaceError> {
    match a.Add(b) case Ok(sum) => Ok(sum) case Err(_) => Err(Panic)
  }

  /** The discount of an item; a failing subtraction would give no money at all. */
  function Saving(item: Item): Money {
    match item.base.Sub(item.final) case Ok(saving) => saving case Err(_) => Money(0, "")
  }

  function Opened(parts: seq<Part>, item: Item): seq<Part> {
    var zero := Money(0, item.base.currency);
    if FindPart(parts, item.seller) < 0 then parts + [Part(item.seller, zero, zero, zero, zero)] else parts
  }

  function Grown(part: Part, item: Item): Result<Part, PlaceError> {
    match (Plus(part.subtotal, item.base), Plus(part.discount, Saving(item)), Plus(part.total, item.final))
    case (Ok(subtotal), Ok(discount), Ok(total)) =>
      Ok(part.(subtotal := subtotal, discount := discount, total := total))
    case _ => Err(Panic)
  }

  lemma OpenedHas(parts: seq<Part>, item: Item)
    ensures FindPart(Opened(parts, item), item.seller) >= 0
    ensures FindPart(parts, item.seller) < 0 ==> FindPart(Opened(parts, item), item.seller) == |parts|
  {
    hide FindPart;
    var zero := Money(0, item.base.currency);
    if FindPart(parts, item.seller) < 0 { FoundLast(parts, Part(item.seller, zero, zero, zero, zero)); }
  }

  lemma FoundLast(parts: seq<Part>, part: Part)
    requires FindPart(parts, part.seller) < 0
    ensures FindPart(parts + [part], part.seller) == |parts|
  {
    assert (parts + [part])[|parts|] == part;
    assert forall j :: 0 <= j < |parts| ==> (parts + [part])[j] == parts[j];
  }

  function AddItem(parts: seq<Part>, item: Item): Result<seq<Part>, PlaceError> {
    OpenedHas(parts, item);
    var all := Opened(parts, item);
    var i := FindPart(all, item.seller);
    match Grown(all[i], item)
    case Err(e) => Err(e)
    case Ok(part) => Ok(all[i := part])
  }

  function ItemParts(items: seq<Item>): Result<seq<Part>, PlaceError> {
    if items == [] then Ok([])
    else match ItemParts(items[..|items| - 1])
      case Err(e) => Err(e)
      case Ok(parts) => AddItem(parts, items[|items| - 1])
  }

  function AddShipping(parts: seq<Part>, cost: ShippingCost, currency: Currency): Result<seq<Part>, PlaceError> {
    var i := FindPart(parts, cost.seller);
    if i < 0 || !parts[i].shipping.IsZero() then Err(InvalidShipping)
    else if cost.cost.currency != currency then Err(CurrencyMismatch)
    else match Plus(parts[i].total, cost.cost)
      case Err(e) => Err(e)
      case Ok(total) => Ok(parts[i := parts[i].(shipping := cost.cost, total := total)])
  }

  function ShippedParts(parts: seq<Part>, shipping: seq<ShippingCost>,
      currency: Currency): Result<seq<Part>, PlaceError> {
    if shipping == [] then Ok(parts)
    else match ShippedParts(parts, shipping[..|shipping| - 1], currency)
      case Err(e) => Err(e)
      case Ok(earlier) => AddShipping(earlier, shipping[|shipping| - 1], currency)
  }

  function BuildParts(items: seq<Item>, shipping: seq<ShippingCost>,
      currency: Currency): Result<seq<Part>, PlaceError> {
    match ItemParts(items)
    case Err(e) => Err(e)
    case Ok(parts) => if |shipping| != |parts| then Err(InvalidShipping) else ShippedParts(parts, shipping, currency)
  }

  // ---------- what the parts are ----------

  function ItemSeller(i: Item): Reference { i.seller }
  function ItemBase(i: Item): int { i.base.amount }
  function ItemSaving(i: Item): int { Saving(i).amount }
  function ItemFinal(i: Item): int { i.final.amount }
  function CostSeller(c: ShippingCost): Reference { c.seller }
  function CostAmount(c: ShippingCost): int { c.cost.amount }

  function PartSellers(parts: seq<Part>): (r: seq<Reference>)
    ensures |r| == |parts| && forall i :: 0 <= i < |parts| ==> r[i] == parts[i].seller
  {
    seq(|parts|, i requires 0 <= i < |parts| => parts[i].seller)
  }

  /** The part holds exactly what its seller's items come to, and what is charged for shipping them. */
  ghost predicate PartIs(part: Part, items: seq<Item>, shipping: seq<ShippingCost>) {
    && part.subtotal.amount == Sum(items, Only(ItemSeller, ItemBase, part.seller))
    && part.discount.amount == Sum(items, Only(ItemSeller, ItemSaving, part.seller))
    && part.shipping.amount == Sum(shipping, Only(CostSeller, CostAmount, part.seller))
    && part.total.amount == Sum(items, Only(ItemSeller, ItemFinal, part.seller)) + part.shipping.amount
  }

  ghost predicate InCurrency(part: Part, currency: Currency) {
    part.subtotal.currency == part.discount.currency == part.shipping.currency == part.total.currency == currency
  }

  ghost predicate Divided(parts: seq<Part>, items: seq<Item>, shipping: seq<ShippingCost>, currency: Currency) {
    && NoRepeat(PartSellers(parts))
    && forall p :: p in parts ==> PartIs(p, items, shipping) && InCurrency(p, currency)
  }

  lemma EmptyDivision(currency: Currency)
    ensures Divided([], [], [], currency)
  {
  }

  lemma FoundPart(parts: seq<Part>, seller: Reference)
    ensures FindPart(parts, seller) >= 0 <==> seller in PartSellers(parts)
  {
    if seller in PartSellers(parts) {
      var i :| 0 <= i < |parts| && PartSellers(parts)[i] == seller;
      assert parts[i].seller == seller;
    }
  }

  /** Opening an empty part for a new seller. */
  lemma OpenedDivides(parts: seq<Part>, items: seq<Item>, item: Item, currency: Currency)
    requires Divided(parts, items, [], currency) && PartSellers(parts) == FirstKeys(items, ItemSeller)
      && item.base.currency == currency
    ensures var all := Opened(parts, item);
      && Divided(all, items, [], currency)
      && PartSellers(all) == FirstKeys(items + [item], ItemSeller)
  {
    FirstKeysAppend(items, item, ItemSeller);
    FirstKeysAre(items, ItemSeller);
    FoundPart(parts, item.seller);
    if FindPart(parts, item.seller) < 0 {
      var zero := Money(0, currency);
      var part := Part(item.seller, zero, zero, zero, zero);
      assert PartSellers(parts + [part]) == PartSellers(parts) + [item.seller];
      AppendNew(PartSellers(parts), item.seller);
      NothingOf(items, ItemSeller, ItemBase, item.seller);
      NothingOf(items, ItemSeller, ItemSaving, item.seller);
      NothingOf(items, ItemSeller, ItemFinal, item.seller);
    }
  }

  lemma ItemOnPart(p: Part, items: seq<Item>, item: Item)
    ensures Sum(items + [item], Only(ItemSeller, ItemBase, p.seller))
         == Sum(items, Only(ItemSeller, ItemBase, p.seller)) + (if item.seller == p.seller then item.base.amount else 0)
    ensures Sum(items + [item], Only(ItemSeller, ItemSaving, p.seller))
         == Sum(items, Only(ItemSeller, ItemSaving, p.seller))
          + (if item.seller == p.seller then Saving(item).amount else 0)
    ensures Sum(items + [item], Only(ItemSeller, ItemFinal, p.seller))
         == Sum(items, Only(ItemSeller, ItemFinal, p.seller))
          + (if item.seller == p.seller then item.final.amount else 0)
  {
    OnlyAppend(items, item, ItemSeller, ItemBase, p.seller);
    OnlyAppend(items, item, ItemSeller, ItemSaving, p.seller);
    OnlyAppend(items, item, ItemSeller, ItemFinal, p.seller);
  }

  lemma AddItemDivides(parts: seq<Part>, items: seq<Item>, item: Item, currency: Currency)
    requires Divided(parts, items, [], currency) && PartSellers(parts) == FirstKeys(items, ItemSeller)
    requires GoodItem(item, currency) && AddItem(parts, item).Ok?
    ensures var next := AddItem(parts, item).value;
      Divided(next, items + [item], [], currency) && PartSellers(next) == FirstKeys(items + [item], ItemSeller)
  {
    hide Sum, FirstKeys, FindPart;
    OpenedDivides(parts, items, item, currency);
    OpenedHas(parts, item);
    var all := Opened(parts, item);
    var i := FindPart(all, item.seller);
    var next := AddItem(parts, item).value;
    assert PartSellers(next) == PartSellers(all);
    forall p | p in next ensures PartIs(p, items + [item], []) && InCurrency(p, currency) {
      var k :| 0 <= k < |next| && next[k] == p;
      assert all[k] in all;
      ItemOnPart(p, items, item);
      if k != i { assert PartSellers(all)[k] != PartSellers(all)[i]; }
    }
  }

  /** Before shipping, there is one part for each seller, in the order of the items, with exactly that seller's
      items. */
  lemma {:induction false} ItemsDivide(items: seq<Item>, currency: Currency)
    requires (forall i :: i in items ==> GoodItem(i, currency)) && ItemParts(items).Ok?
    ensures var parts := ItemParts(items).value;
      Divided(parts, items, [], currency) && PartSellers(parts) == FirstKeys(items, ItemSeller)
  {
    hide GoodItem, Divided, AddItem;
    if items == [] {
      EmptyDivision(currency);
    } else {
      var init, last := items[..|items| - 1], items[|items| - 1];
      assert items == init + [last] && last in items;
      assert forall i :: i in init ==> i in items;
      ItemsDivide(init, currency);
      AddItemDivides(ItemParts(init).value, init, last, currency);
    }
  }

  lemma AddShippingDivides(parts: seq<Part>, items: seq<Item>, shipping: seq<ShippingCost>, cost: ShippingCost,
      currency: Currency)
    requires Divided(parts, items, shipping, currency) && AddShipping(parts, cost, currency).Ok?
    ensures var next := AddShipping(parts, cost, currency).value;
      Divided(next, items, shipping + [cost], currency) && PartSellers(next) == PartSellers(parts)
  {
    hide Sum, FindPart;
    var i := FindPart(parts, cost.seller);
    var next := AddShipping(parts, cost, currency).value;
    assert PartSellers(next) == PartSellers(parts);
    forall p | p in next ensures PartIs(p, items, shipping + [cost]) && InCurrency(p, currency) {
      var k :| 0 <= k < |next| && next[k] == p;
      assert parts[k] in parts;
      OnlyAppend(shipping, cost, CostSeller, CostAmount, p.seller);
      if k != i { assert PartSellers(parts)[k] != PartSellers(parts)[i]; }
    }
  }

  lemma {:induction false} ShippingDivides(parts: seq<Part>, items: seq<Item>, shipping: seq<ShippingCost>,
      currency: Currency)
    requires Divided(parts, items, [], currency) && ShippedParts(parts, shipping, currency).Ok?
    ensures var next := ShippedParts(parts, shipping, currency).value;
      && Divided(next, items, shipping, currency) && PartSellers(next) == PartSellers(parts)
      && forall c :: c in shipping ==> c.seller in PartSellers(parts)
  {
    hide Divided, AddShipping;
    if shipping != [] {
      var init, last := shipping[..|shipping| - 1], shipping[|shipping| - 1];
      assert shipping == init + [last];
      ShippingDivides(parts, items, init, currency);
      var earlier := ShippedParts(parts, init, currency).value;
      AddShippingDivides(earlier, items, init, last, currency);
      ShippingHasPart(earlier, last, currency);
    }
  }

  lemma ShippingHasPart(parts: seq<Part>, cost: ShippingCost, currency: Currency)
    requires AddShipping(parts, cost, currency).Ok?
    ensures cost.seller in PartSellers(parts)
  {
    FoundPart(parts, cost.seller);
  }

  /** The parts of an accepted order partition it by seller. */
  lemma PartsAreDivided(items: seq<Item>, shipping: seq<ShippingCost>, currency: Currency)
    requires GoodItems(items, currency) && BuildParts(items, shipping, currency).Ok?
    ensures var parts := BuildParts(items, shipping, currency).value;
      && Divided(parts, items, shipping, currency)
      && PartSellers(parts) == FirstKeys(items, ItemSeller)
      && |shipping| == |parts| && forall c :: c in shipping ==> c.seller in PartSellers(parts)
  {
    ItemsDivide(items, currency);
    ShippingDivides(ItemParts(items).value, items, shipping, currency);
  }

  // ---------- the totals ----------

  datatype Totals = Totals(subtotal: Money, discount: Money, shipping: Money, total: Money)

  datatype Placed = Placed(items: seq<Item>, parts: seq<Part>, totals: Totals)

  function AddPart(t: Totals, p: Part): Result<Totals, PlaceError> {
    match (Plus(t.subtotal, p.subtotal), Plus(t.discount, p.discount), Plus(t.shipping, p.shipping),
      Plus(t.total, p.total))
    case (Ok(subtotal), Ok(discount), Ok(shipping), Ok(total)) => Ok(Totals(subtotal, discount, shipping, total))
    case _ => Err(Panic)
  }

  function PartTotals(parts: seq<Part>, currency: Currency): Result<Totals, PlaceError> {
    if parts == [] then
      var zero := Money(0, currency);
      Ok(Totals(zero, zero, zero, zero))
    else match PartTotals(parts[..|parts| - 1], currency)
      case Err(e) => Err(e)
      case Ok(t) => AddPart(t, parts[|parts| - 1])
  }

  function Place(items: seq<Item>, shipping: seq<ShippingCost>, currency: Currency): Result<Placed, PlaceError> {
    if items == [] then Err(EmptyOrder)
    else if |items| > MAX_ITEMS then Err(TooManyItems)
    else match ItemsError(items, currency)
      case Some(e) => Err(e)
      case None =>
        match BuildParts(items, shipping, currency)
        case Err(e) => Err(e)
        case Ok(parts) =>
          match PartTotals(parts, items[0].base.currency)
          case Err(e) => Err(e)
          case Ok(totals) => Ok(Placed(items, parts, totals))
  }

  predicate Is(m: Money, amount: int, currency: Currency) { m.amount == amount && m.currency == currency }

  function PartSubtotal(p: Part): int { p.subtotal.amount }
  function PartDiscount(p: Part): int { p.discount.amount }
  function PartShipping(p: Part): int { p.shipping.amount }
  function PartTotal(p: Part): int { p.total.amount }

  lemma {:induction false} TotalsAddUp(parts: seq<Part>, currency: Currency)
    requires PartTotals(parts, currency).Ok?
    ensures var t := PartTotals(parts, currency).value;
      && Is(t.subtotal, Sum(parts, PartSubtotal), currency) && Is(t.discount, Sum(parts, PartDiscount), currency)
      && Is(t.shipping, Sum(parts, PartShipping), currency) && Is(t.total, Sum(parts, PartTotal), currency)
  {
    if parts != [] { TotalsAddUp(parts[..|parts| - 1], currency); }
  }

  lemma {:induction false} SumOfParts<T>(parts: seq<Part>, measure: Part -> int, s: seq<T>, key: T -> Reference,
      amount: T -> int)
    requires forall p :: p in parts ==> measure(p) == Sum(s, Only(key, amount, p.seller))
    ensures Sum(parts, measure) == Grouped(s, key, amount, PartSellers(parts))
  {
    if parts != [] {
      var init := parts[..|parts| - 1];
      assert parts[|parts| - 1] in parts;
      assert forall p :: p in init ==> p in parts;
      SumOfParts(init, measure, s, key, amount);
      assert PartSellers(parts)[..|parts| - 1] == PartSellers(init);
    }
  }

  /** What the parts come to, each amount over all items and all costs. */
  lemma DivisionAddsUp(parts: seq<Part>, items: seq<Item>, shipping: seq<ShippingCost>, currency: Currency)
    requires Divided(parts, items, shipping, currency)
    requires forall i :: i in items ==> i.seller in PartSellers(parts)
    requires forall c :: c in shipping ==> c.seller in PartSellers(parts)
    ensures Sum(parts, PartSubtotal) == Sum(items, ItemBase)
    ensures Sum(parts, PartDiscount) == Sum(items, ItemSaving)
    ensures Sum(parts, PartShipping) == Sum(shipping, CostAmount)
    ensures Sum(parts, PartTotal) == Sum(items, ItemFinal) + Sum(shipping, CostAmount)
  {
    var sellers := PartSellers(parts);
    GroupsAddUp(items, ItemSeller, ItemBase, sellers);
    GroupsAddUp(items, ItemSeller, ItemSaving, sellers);
    GroupsAddUp(items, ItemSeller, ItemFinal, sellers);
    GroupsAddUp(shipping, CostSeller, CostAmount, sellers);
    SumOfParts(parts, PartSubtotal, items, ItemSeller, ItemBase);
    SumOfParts(parts, PartDiscount, items, ItemSeller, ItemSaving);
    SumOfParts(parts, PartShipping, shipping, CostSeller, CostAmount);
    SumOfParts(parts, PartGoods, items, ItemSeller, ItemFinal);
    GoodsAndShipping(parts);
  }

  function PartGoods(p: Part): int { p.total.amount - p.shipping.amount }

  lemma {:induction false} GoodsAndShipping(parts: seq<Part>)
    ensures Sum(parts, PartTotal) == Sum(parts, PartGoods) + Sum(parts, PartShipping)
  {
    if parts != [] { GoodsAndShipping(parts[..|parts| - 1]); }
  }

  lemma {:induction false} FinalIsBaseLessSaving(items: seq<Item>, currency: Currency, seller: Reference)
    requires forall i :: i in items ==> GoodItem(i, currency)
    ensures Sum(items, ItemFinal) == Sum(items, ItemBase) - Sum(items, ItemSaving)
    ensures Sum(items, Only(ItemSeller, ItemFinal, seller))
         == Sum(items, Only(ItemSeller, ItemBase, seller)) - Sum(items, Only(ItemSeller, ItemSaving, seller))
  {
    if items != [] {
      var init, last := items[..|items| - 1], items[|items| - 1];
      assert last in items;
      assert forall i :: i in init ==> i in items;
      FinalIsBaseLessSaving(init, currency, seller);
      assert items == init + [last];
      OnlyAppend(init, last, ItemSeller, ItemFinal, seller);
      OnlyAppend(init, last, ItemSeller, ItemBase, seller);
      OnlyAppend(init, last, ItemSeller, ItemSaving, seller);
    }
  }

  /** Every order that is accepted is partitioned by seller: one part for each seller, holding exactly that seller's
      items; the shipping of the parts adds up to the given costs, and total = subtotal - discount + shipping holds
      for each part and for the order. */
  lemma PlacedOrderAddsUp(items: seq<Item>, shipping: seq<ShippingCost>, currency: Currency)
    requires Place(items, shipping, currency).Ok?
    ensures var o := Place(items, shipping, currency).value;
      && GoodItems(items, currency) && o.items == items
      && PartSellers(o.parts) == FirstKeys(items, ItemSeller)
      && Divided(o.parts, items, shipping, currency)
      && (forall p :: p in o.parts ==> p.total.amount == p.subtotal.amount - p.discount.amount + p.shipping.amount)
      && Is(o.totals.subtotal, Sum(items, ItemBase), currency)
      && Is(o.totals.discount, Sum(items, ItemSaving), currency)
      && Is(o.totals.shipping, Sum(shipping, CostAmount), currency)
      && Is(o.totals.total, Sum(items, ItemFinal) + Sum(shipping, CostAmount), currency)
      && o.totals.total.amount == o.totals.subtotal.amount - o.totals.discount.amount + o.totals.shipping.amount
  {
    hide BuildParts, PartTotals, Divided, FirstKeys, Sum, ItemsError;
    ItemsAreChecked(items, currency);
    PartsAreDivided(items, shipping, currency);
    var parts := BuildParts(items, shipping, currency).value;
    FirstKeysAre(items, ItemSeller);
    assert forall i :: i in items ==> ItemSeller(i) == i.seller;
    DivisionAddsUp(parts, items, shipping, currency);
    assert items[0] in items && items[0].base.currency == currency;
    TotalsAddUp(parts, currency);
    FinalIsBaseLessSaving(items, currency, BLANK);
    forall p | p in parts ensures p.total.amount == p.subtotal.amount - p.discount.amount + p.shipping.amount {
      FinalIsBaseLessSaving(items, currency, p.seller);
      PartOf(parts, p, items, shipping, currency);
    }
  }

  lemma PartOf(parts: seq<Part>, p: Part, items: seq<Item>, shipping: seq<ShippingCost>, currency: Currency)
    requires Divided(parts, items, shipping, currency) && p in parts
    ensures PartIs(p, items, shipping) && InCurrency(p, currency)
  {
  }

  // ---------- shipping named twice ----------

  function CostSellers(shipping: seq<ShippingCost>): (r: seq<Reference>)
    ensures |r| == |shipping| && forall i :: 0 <= i < |shipping| ==> r[i] == shipping[i].seller
  {
    seq(|shipping|, i requires 0 <= i < |shipping| => shipping[i].seller)
  }

  lemma {:induction false} LaterEntryNeedsFree(parts: seq<Part>, items: seq<Item>, shipping: seq<ShippingCost>,
      currency: Currency, i: nat, j: nat)
    requires Divided(parts, items, [], currency) && ShippedParts(parts, shipping, currency).Ok?
    requires i < j < |shipping| && shipping[i].seller == shipping[j].seller
    ensures shipping[i].cost.amount == 0
  {
    var init, last := shipping[..|shipping| - 1], shipping[|shipping| - 1];
    if j < |init| {
      LaterEntryNeedsFree(parts, items, init, currency, i, j);
    } else {
      ShippingDivides(parts, items, init, currency);
      var earlier := ShippedParts(parts, init, currency).value;
      var k := FindPart(earlier, last.seller);
      assert earlier[k] in earlier && PartIs(earlier[k], items, init);
      CostWithin(init, i, last.seller);
    }
  }

  lemma CostWithin(shipping: seq<ShippingCost>, i: nat, seller: Reference)
    requires i < |shipping| && shipping[i].seller == seller
    ensures shipping[i].cost.amount <= Sum(shipping, Only(CostSeller, CostAmount, seller))
  {
    forall c | c in shipping ensures Only(CostSeller, CostAmount, seller)(c) >= 0 { assert CostAmount(c) >= 0; }
    SumNonNegative(shipping, Only(CostSeller, CostAmount, seller));
    assert shipping[i] in shipping;
    OnlyAt(CostSeller, CostAmount, seller, shipping[i]);
    assert CostSeller(shipping[i]) == seller && CostAmount(shipping[i]) == shipping[i].cost.amount;
  }

  lemma {:induction false} RepeatShrinks<T>(s: seq<T>)
    requires !NoRepeat(s)
    ensures |Elements(s)| < |s|
  {
    if |s| > 1 {
      var init, last := s[..|s| - 1], s[|s| - 1];
      assert Elements(s) == Elements(init) + {last} by { assert s == init + [last]; }
      if NoRepeat(init) {
        assert last in Elements(init);
        DistinctSize(init);
      } else {
        RepeatShrinks(init);
      }
    }
  }

  /** The check for shipping named twice looks at the cost, so a second entry passes after a free one. An accepted
      order names shipping for every one of its sellers exactly when no free entry is followed by another for the same
      seller. */
  lemma ShippingCoversSellers(items: seq<Item>, shipping: seq<ShippingCost>, currency: Currency)
    requires GoodItems(items, currency) && BuildParts(items, shipping, currency).Ok?
    ensures (forall i :: i in items ==> i.seller in CostSellers(shipping))
       <==> !exists i, j ::
         0 <= i < j < |shipping| && shipping[i].seller == shipping[j].seller && shipping[i].cost.amount == 0
    ensures (forall i :: i in items ==> i.seller in CostSellers(shipping)) ==> NoRepeat(CostSellers(shipping))
  {
    hide FirstKeys, NoRepeat, BuildParts, ItemParts, ShippedParts, Divided, GoodItem;
    PartsAreDivided(items, shipping, currency);
    FirstKeysAre(items, ItemSeller);
    assert forall i :: i in items ==> ItemSeller(i) == i.seller;
    CostsCover(items, shipping, FirstKeys(items, ItemSeller));
    RepeatIsFree(items, shipping, currency);
  }

  lemma RepeatIsFree(items: seq<Item>, shipping: seq<ShippingCost>, currency: Currency)
    requires GoodItems(items, currency) && BuildParts(items, shipping, currency).Ok?
    ensures NoRepeat(CostSellers(shipping))
       <==> !exists i, j ::
         0 <= i < j < |shipping| && shipping[i].seller == shipping[j].seller && shipping[i].cost.amount == 0
  {
    hide BuildParts, GoodItems;
    if !NoRepeat(CostSellers(shipping)) {
      var i, j :| 0 <= i < j < |shipping| && CostSellers(shipping)[i] == CostSellers(shipping)[j];
      ShippedTwice(items, shipping, currency, i, j);
    } else {
      forall i, j | 0 <= i < j < |shipping| ensures shipping[i].seller != shipping[j].seller {
        assert CostSellers(shipping)[i] != CostSellers(shipping)[j];
      }
    }
  }

  lemma ShippedTwice(items: seq<Item>, shipping: seq<ShippingCost>, currency: Currency, i: nat, j: nat)
    requires GoodItems(items, currency) && BuildParts(items, shipping, currency).Ok?
    requires i < j < |shipping| && shipping[i].seller == shipping[j].seller
    ensures shipping[i].cost.amount == 0
  {
    ItemsDivide(items, currency);
    LaterEntryNeedsFree(ItemParts(items).value, items, shipping, currency, i, j);
  }

  /** With as many costs as sellers, they cover the sellers exactly when they name none of them twice. */
  lemma CostsCover(items: seq<Item>, shipping: seq<ShippingCost>, sellers: seq<Reference>)
    requires NoRepeat(sellers) && |shipping| == |sellers|
    requires forall i :: i in items ==> i.seller in sellers
    requires forall s :: s in sellers ==> exists i :: i in items && i.seller == s
    requires forall c :: c in shipping ==> c.seller in sellers
    ensures (forall i :: i in items ==> i.seller in CostSellers(shipping)) <==> NoRepeat(CostSellers(shipping))
  {
    var named := CostSellers(shipping);
    forall s | s in Elements(named) ensures s in Elements(sellers) {
      var i :| 0 <= i < |named| && named[i] == s;
      assert shipping[i] in shipping;
    }
    DistinctSize(sellers);
    if NoRepeat(named) {
      DistinctSize(named);
      SubsetOfSameSize(Elements(named), Elements(sellers));
      forall i | i in items ensures i.seller in named { assert i.seller in Elements(sellers); }
    } else {
      RepeatShrinks(named);
      if Elements(sellers) <= Elements(named) { SubsetIsSmaller(Elements(sellers), Elements(named)); }
      var s :| s in Elements(sellers) && s !in Elements(named);
      var i :| i in items && i.seller == s;
      assert i.seller !in named;
    }
  }

  lemma NewSellerPart(parts: seq<Part>, item: Item, currency: Currency)
    requires FindPart(parts, item.seller) < 0 && GoodItem(item, currency)
    ensures AddItem(parts, item)
      == Ok(parts + [Part(item.seller, item.base, Saving(item), Money(0, currency), item.final)])
  {
    var zero := Money(0, currency);
    var empty := Part(item.seller, zero, zero, zero, zero);
    var part := Part(item.seller, item.base, Saving(item), zero, item.final);
    OpenedHas(parts, item);
    assert Grown(empty, item) == Ok(part);
    assert (parts + [empty])[|parts| := part] == parts + [part];
  }

  lemma TwoSellers(a: Item, b: Item, currency: Currency)
    requires GoodItem(a, currency) && GoodItem(b, currency) && a.seller != b.seller
    ensures ItemParts([a, b]) == Ok([Part(a.seller, a.base, Saving(a), Money(0, currency), a.final),
                                     Part(b.seller, b.base, Saving(b), Money(0, currency), b.final)])
  {
    hide GoodItem, AddItem, Saving, FindPart;
    var partA := Part(a.seller, a.base, Saving(a), Money(0, currency), a.final);
    var partB := Part(b.seller, b.base, Saving(b), Money(0, currency), b.final);
    OnePart(a, currency);
    NotFoundIn(partA, b.seller);
    NewSellerPart([partA], b, currency);
    assert [a, b][..1] == [a] && [a, b][1] == b;
    assert [partA] + [partB] == [partA, partB];
  }

  lemma OnePart(a: Item, currency: Currency)
    requires GoodItem(a, currency)
    ensures ItemParts([a]) == Ok([Part(a.seller, a.base, Saving(a), Money(0, currency), a.final)])
  {
    hide GoodItem, AddItem, Saving;
    NewSellerPart([], a, currency);
    assert [a][..0] == [] && ItemParts([]) == Ok([]);
    var part := Part(a.seller, a.base, Saving(a), Money(0, currency), a.final);
    assert [] + [part] == [part];
  }

  lemma NotFoundIn(part: Part, seller: Reference)
    requires part.seller != seller
    ensures FindPart([part], seller) < 0
  {
    hide FindPart;
    assert [part][0] == part;
  }

  lemma ShipFirst(a: Part, b: Part, cost: ShippingCost, currency: Currency)
    requires a.seller != b.seller && cost.seller == a.seller && a.shipping.IsZero()
      && cost.cost.currency == a.total.currency == currency
    requires a.total.amount + cost.cost.amount <= MAX_INT64
    ensures AddShipping([a, b], cost, currency)
         == Ok([a.(shipping := cost.cost, total := Money(a.total.amount + cost.cost.amount, currency)), b])
  {
    assert [a, b][0].seller == a.seller && FindPart([a, b], a.seller) == 0 by { hide FindPart; }
    var shipped := a.(shipping := cost.cost, total := Money(a.total.amount + cost.cost.amount, currency));
    assert [a, b][0 := shipped] == [shipped, b];
  }

  /** Two sellers, two costs for the first of them, the first one free: the second seller ships for nothing. */
  lemma FreeEntryCounts(a: Item, b: Item, cost: Money)
    requires GoodItem(a, cost.currency) && GoodItem(b, cost.currency) && a.seller != b.seller
    requires a.final.amount + cost.amount <= MAX_INT64
    ensures var free := ShippingCost(a.seller, Money(0, cost.currency));
      var r := BuildParts([a, b], [free, ShippingCost(a.seller, cost)], cost.currency);
      && r.Ok? && |r.value| == 2 && r.value[0].shipping == cost
      && r.value[1].seller == b.seller && r.value[1].shipping.amount == 0
  {
    hide AddShipping, AddItem, FindPart, ItemParts;
    var free := ShippingCost(a.seller, Money(0, cost.currency));
    var second := ShippingCost(a.seller, cost);
    var partA := Part(a.seller, a.base, Saving(a), Money(0, cost.currency), a.final);
    var partB := Part(b.seller, b.base, Saving(b), Money(0, cost.currency), b.final);
    TwoSellers(a, b, cost.currency);
    ShipFirst(partA, partB, free, cost.currency);
    ShipFirst(partA, partB, second, cost.currency);
    assert [free, second][..1] == [free] && [free][..0] == [];
    assert ShippedParts([partA, partB], [free], cost.currency) == Ok([partA, partB]);
  }

  // ---------- when placing cannot abort the process ----------

  ghost predicate Bounded(items: seq<Item>, shipping: seq<ShippingCost>) {
    && (forall i :: i in items ==> i.quantity <= MAX_QUANTITY)
    && Sum(items, ItemBase) + Sum(shipping, CostAmount) <= MAX_INT64
  }

  lemma {:induction false} CheckNeverPanics(items: seq<Item>, currency: Currency)
    requires forall i :: i in items ==> i.quantity <= MAX_QUANTITY
    ensures ItemsError(items, currency) != Some(Panic)
  {
    if items != [] {
      assert items[|items| - 1] in items;
      assert forall i :: i in items[..|items| - 1] ==> i in items;
      CheckNeverPanics(items[..|items| - 1], currency);
    }
  }

  lemma AmountsOfItems(items: seq<Item>, seller: Reference)
    ensures 0 <= Sum(items, Only(ItemSeller, ItemBase, seller)) <= Sum(items, ItemBase)
    ensures 0 <= Sum(items, Only(ItemSeller, ItemSaving, seller)) <= Sum(items, ItemSaving)
    ensures 0 <= Sum(items, Only(ItemSeller, ItemFinal, seller)) <= Sum(items, ItemFinal)
  {
    assert forall i :: i in items ==> ItemBase(i) >= 0 && ItemSaving(i) >= 0 && ItemFinal(i) >= 0;
    OnlyWithin(items, ItemSeller, ItemBase, seller);
    OnlyWithin(items, ItemSeller, ItemSaving, seller);
    OnlyWithin(items, ItemSeller, ItemFinal, seller);
  }

  lemma {:induction false} ItemsFit(items: seq<Item>, currency: Currency)
    requires (forall i :: i in items ==> GoodItem(i, currency)) && Sum(items, ItemBase) <= MAX_INT64
    ensures ItemParts(items).Ok?
  {
    hide GoodItem, Divided;
    if items != [] {
      var init, last := items[..|items| - 1], items[|items| - 1];
      assert items == init + [last] && last in items;
      assert forall i :: i in init ==> i in items;
      SumAppend(init, last, ItemBase);
      assert ItemBase(last) >= 0;
      ItemsFit(init, currency);
      ItemsDivide(init, currency);
      ItemFits(ItemParts(init).value, init, last, currency);
    }
  }

  lemma ItemFits(parts: seq<Part>, items: seq<Item>, item: Item, currency: Currency)
    requires Divided(parts, items, [], currency) && PartSellers(parts) == FirstKeys(items, ItemSeller)
    requires (forall i :: i in items ==> GoodItem(i, currency)) && GoodItem(item, currency)
    requires Sum(items, ItemBase) + item.base.amount <= MAX_INT64
    ensures AddItem(parts, item).Ok?
  {
    hide Sum, FirstKeys, FindPart;
    OpenedDivides(parts, items, item, currency);
    OpenedHas(parts, item);
    var all := Opened(parts, item);
    var p := all[FindPart(all, item.seller)];
    assert p in all && PartIs(p, items, []) && InCurrency(p, currency);
    AmountsOfItems(items, p.seller);
    FinalIsBaseLessSaving(items, currency, p.seller);
    assert Sum<ShippingCost>([], Only(CostSeller, CostAmount, p.seller)) == 0 by { NoCost(p.seller); }
  }

  lemma NoCost(seller: Reference)
    ensures Sum<ShippingCost>([], Only(CostSeller, CostAmount, seller)) == 0
  {
  }

  lemma {:induction false} ShippingNeverPanics(parts: seq<Part>, items: seq<Item>, shipping: seq<ShippingCost>,
      currency: Currency)
    requires Divided(parts, items, [], currency)
    requires Sum(items, ItemFinal) + Sum(shipping, CostAmount) <= MAX_INT64
    ensures ShippedParts(parts, shipping, currency) != Err(Panic)
  {
    if shipping != [] {
      hide Divided;
      var init, last := shipping[..|shipping| - 1], shipping[|shipping| - 1];
      assert shipping == init + [last];
      SumAppend(init, last, CostAmount);
      assert CostAmount(last) >= 0;
      ShippingNeverPanics(parts, items, init, currency);
      if ShippedParts(parts, init, currency).Ok? {
        ShippingDivides(parts, items, init, currency);
        CostFits(ShippedParts(parts, init, currency).value, items, init, last, currency);
      }
    }
  }

  lemma CostFits(parts: seq<Part>, items: seq<Item>, shipping: seq<ShippingCost>, cost: ShippingCost,
      currency: Currency)
    requires Divided(parts, items, shipping, currency)
    requires Sum(items, ItemFinal) + Sum(shipping, CostAmount) + cost.cost.amount <= MAX_INT64
    ensures AddShipping(parts, cost, currency) != Err(Panic)
  {
    hide Sum, FindPart;
    var i := FindPart(parts, cost.seller);
    if i >= 0 {
      assert parts[i] in parts && PartIs(parts[i], items, shipping);
      AmountsOfItems(items, cost.seller);
      assert forall c :: c in shipping ==> CostAmount(c) >= 0;
      OnlyWithin(shipping, CostSeller, CostAmount, cost.seller);
    }
  }

  lemma {:induction false} TotalsFit(parts: seq<Part>, currency: Currency)
    requires forall p :: p in parts ==> InCurrency(p, currency)
    requires Sum(parts, PartSubtotal) <= MAX_INT64 && Sum(parts, PartDiscount) <= MAX_INT64
    requires Sum(parts, PartShipping) <= MAX_INT64 && Sum(parts, PartTotal) <= MAX_INT64
    ensures PartTotals(parts, currency).Ok?
  {
    if parts != [] {
      var init, last := parts[..|parts| - 1], parts[|parts| - 1];
      assert last in parts;
      assert forall p :: p in init ==> p in parts;
      TotalsFit(init, currency);
      TotalsAddUp(init, currency);
    }
  }

  /** The only ways to abort are a quantity above int32 and amounts above int64. */
  lemma PlaceNeverPanics(items: seq<Item>, shipping: seq<ShippingCost>, currency: Currency)
    requires Bounded(items, shipping)
    ensures Place(items, shipping, currency) != Err(Panic)
  {
    hide Divided, FirstKeys, Sum, ItemsError, ItemParts, ShippedParts, PartTotals;
    CheckNeverPanics(items, currency);
    if items != [] && ItemsError(items, currency) == None {
      ItemsAreChecked(items, currency);
      FinalIsBaseLessSaving(items, currency, BLANK);
      SumsAreNatural(items, shipping);
      ItemsFit(items, currency);
      ItemsDivide(items, currency);
      ShippingNeverPanics(ItemParts(items).value, items, shipping, currency);
      if BuildParts(items, shipping, currency).Ok? {
        PartsAreDivided(items, shipping, currency);
        var parts := BuildParts(items, shipping, currency).value;
        FirstKeysAre(items, ItemSeller);
        assert forall i :: i in items ==> ItemSeller(i) == i.seller;
        DivisionAddsUp(parts, items, shipping, currency);
        forall p | p in parts ensures InCurrency(p, currency) { PartOf(parts, p, items, shipping, currency); }
        assert items[0] in items && items[0].base.currency == currency;
        TotalsFit(parts, currency);
      }
    }
  }

  lemma SumsAreNatural(items: seq<Item>, shipping: seq<ShippingCost>)
    ensures Sum(items, ItemBase) >= 0 && Sum(items, ItemSaving) >= 0 && Sum(items, ItemFinal) >= 0
      && Sum(shipping, CostAmount) >= 0
  {
    assert forall i :: i in items ==> ItemBase(i) >= 0 && ItemSaving(i) >= 0 && ItemFinal(i) >= 0;
    assert forall c :: c in shipping ==> CostAmount(c) >= 0;
    SumNonNegative(items, ItemBase);
    SumNonNegative(items, ItemSaving);
    SumNonNegative(items, ItemFinal);
    SumNonNegative(shipping, CostAmount);
  }

  lemma {:induction false} TotalsOnlyPanic(parts: seq<Part>, currency: Currency)
    ensures PartTotals(parts, currency).Err? ==> PartTotals(parts, currency).error == Panic
  {
    if parts != [] { TotalsOnlyPanic(parts[..|parts| - 1], currency); }
  }

  lemma TwoFit(a: Item, b: Item, first: ShippingCost, second: ShippingCost)
    requires a.quantity <= MAX_QUANTITY && b.quantity <= MAX_QUANTITY
    requires a.base.amount + b.base.amount + first.cost.amount + second.cost.amount <= MAX_INT64
    ensures Bounded([a, b], [first, second])
  {
    assert [] + [a] == [a] && [a] + [b] == [a, b] && [] + [first] == [first] && [first] + [second] == [first, second];
    SumAppend([], a, ItemBase);
    SumAppend([a], b, ItemBase);
    SumAppend([], first, CostAmount);
    SumAppend([first], second, CostAmount);
  }

  /** An order of two sellers that is accepted, although the second one is never charged shipping: the free entry for
      the first one hides that it is named twice. */
  lemma FreeEntryHidesSeller(a: Item, b: Item, cost: Money)
    requires GoodItem(a, cost.currency) && GoodItem(b, cost.currency) && a.seller != b.seller && a.sku != b.sku
    requires a.base.amount + b.base.amount + cost.amount <= MAX_INT64
    ensures var free := ShippingCost(a.seller, Money(0, cost.currency));
      var r := Place([a, b], [free, ShippingCost(a.seller, cost)], cost.currency);
      && r.Ok? && |r.value.parts| == 2 && r.value.parts[0].shipping == cost
      && r.value.parts[1].seller == b.seller && r.value.parts[1].shipping.amount == 0
  {
    var free, second := ShippingCost(a.seller, Money(0, cost.currency)), ShippingCost(a.seller, cost);
    TwoFit(a, b, free, second);
    hide Bounded, ItemsError, BuildParts, PartTotals;
    FreeEntryCounts(a, b, cost);
    assert GoodItems([a, b], cost.currency);
    ItemsAreChecked([a, b], cost.currency);
    PlaceNeverPanics([a, b], [free, second], cost.currency);
    TotalsOnlyPanic(BuildParts([a, b], [free, second], cost.currency).value, a.base.currency);
  }
}
