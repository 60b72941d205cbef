/** From one quote, two totals: the one the cart shows and the one of the order that is placed from it. */
module CartPreview {
  import opened Kernel
  import opened Sorting
  import opened Grouping
  import D = Distribution
  import Q = Quotes
  import Offered = Discounts
  import O = OrderParts

  datatype LineStatus = Available | Insufficient | Unavailable

  datatype Line = Line(sku: string, seller: Reference, quantity: int, status: LineStatus, base: int, discount: int,
    final: int)

  datatype Group = Group(seller: Reference, lines: seq<Line>, subtotal: int, discount: int, total: int)

  datatype Parcel = Parcel(seller: Reference, subtotal: int)

  /** What the shipping port answers for a list of parcels. */
  datatype Tariff = Tariff(costs: seq<O.ShippingCost>, total: int)

  // ---------- prices on the lines of the cart ----------

  function PricedSku(x: D.Breakdown): string { x.sku }

  function FindPriced(priced: seq<D.Breakdown>, sku: string): (i: int)
    ensures -1 <= i < |priced|
    ensures i >= 0 ==> priced[i].sku == sku && forall j :: 0 <= j < i ==> priced[j].sku != sku
    ensures i < 0 ==> forall j :: 0 <= j < |priced| ==> priced[j].sku != sku
  {
    FindFirst(priced, PricedSku, sku)
  }

  function PricedLine(line: Line, priced: seq<D.Breakdown>): Line {
    var i := FindPriced(priced, line.sku);
    if i < 0 then line
    else
      var b := priced[i];
      line.(base := b.base.amount, final := b.final.amount, discount := b.base.amount - b.final.amount)
  }

  /** Writes the prices of the quote into the lines. */
  method ApplyQuote(lines: array<Line>, priced: seq<D.Breakdown>)
    modifies lines
    ensures forall i :: 0 <= i < lines.Length ==> lines[i] == PricedLine(old(lines[i]), priced)
  {
    var i := 0;
    while i < lines.Length
      invariant 0 <= i <= lines.Length
      invariant forall j :: 0 <= j < i ==> lines[j] == PricedLine(old(lines[j]), priced)
      invariant forall j :: i <= j < lines.Length ==> lines[j] == old(lines[j])
    {
      var k := 0;
      while k < |priced| && priced[k].sku != lines[i].sku
        invariant 0 <= k <= |priced|
        invariant forall j :: 0 <= j < k ==> priced[j].sku != lines[i].sku
      {
        k := k + 1;
      }
      if k < |priced| {
        var b := priced[k];
        lines[i] := lines[i].(base := b.base.amount, final := b.final.amount,
          discount := b.base.amount - b.final.amount);
      }
      i := i + 1;
    }
  }

  // ---------- groups ----------

  function GroupSeller(x: Group): Reference { x.seller }

  function FindGroup(groups: seq<Group>, seller: Reference): (i: int)
    ensures -1 <= i < |groups|
    ensures i >= 0 ==> groups[i].seller == seller && forall j :: 0 <= j < i ==> groups[j].seller != seller
    ensures i < 0 ==> forall j :: 0 <= j < |groups| ==> groups[j].seller != seller
  {
    FindFirst(groups, GroupSeller, seller)
  }

  /** A line that is not available is listed and not counted. */
  function WithLine(g: Group, line: Line): Group {
    var listed := g.(lines := g.lines + [line]);
    if line.status == Available then
      listed.(subtotal := g.subtotal + line.base, discount := g.discount + line.discount, total := g.total + line.final)
    else listed
  }

  function AddLine(groups: seq<Group>, line: Line): seq<Group> {
    var i := FindGroup(groups, line.seller);
    if i < 0 then groups + [WithLine(Group(line.seller, [], 0, 0, 0), line)]
    else groups[i := WithLine(groups[i], line)]
  }

  function GroupsOf(lines: seq<Line>): seq<Group> {
    if lines == [] then [] else AddLine(GroupsOf(lines[..|lines| - 1]), lines[|lines| - 1])
  }

  method GroupLines(lines: seq<Line>) returns (groups: seq<Group>)
    ensures groups == GroupsOf(lines)
  {
    hide FindGroup;
    groups := [];
    var k := 0;
    while k < |lines|
      invariant 0 <= k <= |lines| && groups == GroupsOf(lines[..k])
    {
      var line := lines[k];
      assert lines[..k + 1][..k] == lines[..k];
      ghost var was := groups;
      var i := 0;
      while i < |groups| && groups[i].seller != line.seller
        invariant 0 <= i <= |groups| && forall j :: 0 <= j < i ==> groups[j].seller != line.seller
      {
        i := i + 1;
      }
      if i == |groups| { groups := groups + [Group(line.seller, [], 0, 0, 0)]; }
      groups := groups[i := WithLine(groups[i], line)];
      assert groups == AddLine(was, line);
      k := k + 1;
    }
    assert lines[..k] == lines;
  }

  function LineSeller(l: Line): Reference { l.seller }
  function Counted(l: Line): int { if l.status == Available then l.final else 0 }
  function CountedBase(l: Line): int { if l.status == Available then l.base else 0 }
  function CountedDiscount(l: Line): int { if l.status == Available then l.discount else 0 }

  function SumFor(lines: seq<Line>, amount: Line -> int, seller: Reference): int {
    Sum(lines, Only(LineSeller, amount, seller))
  }

  function GroupSellers(groups: seq<Group>): (r: seq<Reference>)
    ensures |r| == |groups| && forall i :: 0 <= i < |groups| ==> r[i] == groups[i].seller
  {
    seq(|groups|, i requires 0 <= i < |groups| => groups[i].seller)
  }

  lemma FoundGroup(groups: seq<Group>, seller: Reference)
    ensures FindGroup(groups, seller) >= 0 <==> seller in GroupSellers(groups)
  {
    if seller in GroupSellers(groups) {
      var i :| 0 <= i < |groups| && GroupSellers(groups)[i] == seller;
      assert groups[i].seller == seller;
    }
  }

  ghost predicate HasSums(g: Group, lines: seq<Line>) {
    && g.subtotal == SumFor(lines, CountedBase, g.seller)
    && g.discount == SumFor(lines, CountedDiscount, g.seller)
    && g.total == SumFor(lines, Counted, g.seller)
  }

  ghost predicate Totals(groups: seq<Group>, lines: seq<Line>) {
    && GroupSellers(groups) == FirstKeys(lines, LineSeller)
    && forall i :: 0 <= i < |groups| ==> HasSums(groups[i], lines)
  }

  lemma LineAdds(g: Group, lines: seq<Line>, line: Line)
    requires HasSums(g, lines)
    ensures HasSums(if g.seller == line.seller then WithLine(g, line) else g, lines + [line])
  {
    hide Sum;
    OnlyAppend(lines, line, LineSeller, CountedBase, g.seller);
    OnlyAppend(lines, line, LineSeller, CountedDiscount, g.seller);
    OnlyAppend(lines, line, LineSeller, Counted, g.seller);
  }

  lemma NewHasNothing(lines: seq<Line>, seller: Reference)
    requires seller !in FirstKeys(lines, LineSeller)
    ensures HasSums(Group(seller, [], 0, 0, 0), lines)
  {
    hide Sum, FirstKeys;
    FirstKeysAre(lines, LineSeller);
    NothingOf(lines, LineSeller, CountedBase, seller);
    NothingOf(lines, LineSeller, CountedDiscount, seller);
    NothingOf(lines, LineSeller, Counted, seller);
  }

  lemma AddLineTotals(groups: seq<Group>, lines: seq<Line>, line: Line)
    requires Totals(groups, lines)
    ensures Totals(AddLine(groups, line), lines + [line])
  {
    hide FirstKeys, HasSums;
    var next := AddLine(groups, line);
    FoundGroup(groups, line.seller);
    FirstKeysAppend(lines, line, LineSeller);
    FirstKeysAre(lines, LineSeller);
    assert LineSeller(line) == line.seller;
    var at := FindGroup(groups, line.seller);
    assert GroupSellers(next) == if at < 0 then GroupSellers(groups) + [line.seller] else GroupSellers(groups);
    forall i | 0 <= i < |next| ensures HasSums(next[i], lines + [line]) {
      if i == |groups| {
        NewHasNothing(lines, line.seller);
        LineAdds(Group(line.seller, [], 0, 0, 0), lines, line);
      } else {
        if i != at && at >= 0 { assert FirstKeys(lines, LineSeller)[i] != FirstKeys(lines, LineSeller)[at]; }
        LineAdds(groups[i], lines, line);
      }
    }
  }

  /** One group for each seller, in the order of the lines, with the sum of its available lines. */
  lemma {:induction false} GroupsAreTotals(lines: seq<Line>)
    ensures Totals(GroupsOf(lines), lines)
  {
    if lines != [] {
      hide Totals, AddLine;
      var init, last := lines[..|lines| - 1], lines[|lines| - 1];
      assert lines == init + [last];
      GroupsAreTotals(init);
      AddLineTotals(GroupsOf(init), init, last);
    } else {
      assert GroupSellers([]) == [];
    }
  }

  function ParcelsOf(groups: seq<Group>): seq<Parcel> {
    if groups == [] then []
    else
      var rest := ParcelsOf(groups[..|groups| - 1]);
      var g := groups[|groups| - 1];
      if g.total > 0 then rest + [Parcel(g.seller, g.total)] else rest
  }

  // ---------- the order's side ----------

  function PricedSeller(b: D.Breakdown): Reference { b.seller }

  /** A parcel for each seller of the quote, in the order of its lines, with the sum of its final prices. */
  function OrderParcels(priced: seq<D.Breakdown>): seq<Parcel> {
    var sellers := FirstKeys(priced, PricedSeller);
    seq(|sellers|, i requires 0 <= i < |sellers| =>
      Parcel(sellers[i], Sum(priced, Only(PricedSeller, D.FinalOf, sellers[i]))))
  }

  function OrderItem(b: D.Breakdown): O.Item { O.Item(b.sku, b.seller, b.quantity, b.unitPrice, b.base, b.final) }

  function OrderItems(priced: seq<D.Breakdown>): seq<O.Item> {
    if priced == [] then [] else OrderItems(priced[..|priced| - 1]) + [OrderItem(priced[|priced| - 1])]
  }

  lemma NothingYet()
    ensures FirstKeys([], PricedSeller) == [] && Sum([], Q.BasisOf) == 0
  {
  }

  /** The loop of the order: items, running totals by seller, and the amount before the promo code. */
  method Prepare(priced: seq<D.Breakdown>) returns (items: seq<O.Item>, parcels: seq<Parcel>, promoBasis: int)
    ensures items == OrderItems(priced) && parcels == OrderParcels(priced) && promoBasis == Sum(priced, Q.BasisOf)
  {
    items, promoBasis := [], 0;
    NothingYet();
    hide FirstKeys, Sum;
    var totals: map<Reference, int> := map[];
    var sellers: seq<Reference> := [];
    var k := 0;
    while k < |priced|
      invariant 0 <= k <= |priced|
      invariant items == OrderItems(priced[..k]) && promoBasis == Sum(priced[..k], Q.BasisOf)
      invariant sellers == FirstKeys(priced[..k], PricedSeller)
      invariant forall s :: s in totals <==> s in sellers
      invariant forall s :: s in totals ==> totals[s] == Sum(priced[..k], Only(PricedSeller, D.FinalOf, s))
    {
      var b := priced[k];
      assert priced[..k + 1] == priced[..k] + [b] && priced[..k + 1][..k] == priced[..k];
      FirstKeysAppend(priced[..k], b, PricedSeller);
      FirstKeysAre(priced[..k], PricedSeller);
      forall s ensures Sum(priced[..k + 1], Only(PricedSeller, D.FinalOf, s))
                    == Sum(priced[..k], Only(PricedSeller, D.FinalOf, s))
                     + (if b.seller == s then b.final.amount else 0) {
        OnlyAppend(priced[..k], b, PricedSeller, D.FinalOf, s);
        assert PricedSeller(b) == b.seller && D.FinalOf(b) == b.final.amount;
      }
      if b.seller !in totals { NothingOf(priced[..k], PricedSeller, D.FinalOf, b.seller); }
      items := items + [OrderItem(b)];
      if b.seller !in totals { sellers := sellers + [b.seller]; }
      totals := totals[b.seller := (if b.seller in totals then totals[b.seller] else 0) + b.final.amount];
      promoBasis := promoBasis + b.final.amount + TaggedAmount(b.discounts);
      SumTake(priced, k, Q.BasisOf);
      assert Q.BasisOf(b) == b.final.amount + TaggedAmount(b.discounts);
      k := k + 1;
    }
    assert priced[..k] == priced;
    parcels := seq(|sellers|, i requires 0 <= i < |sellers| =>
      assert sellers[i] in sellers; Parcel(sellers[i], totals[sellers[i]]));
    assert parcels == OrderParcels(priced);
  }

  /** The discounts that carry a code. */
  function TaggedAmount(discounts: seq<D.AppliedDiscount>): int { Sum(discounts, Q.PromoAmount) }

  // ---------- the two totals ----------

  function Positive(parcels: seq<Parcel>): seq<Parcel> {
    if parcels == [] then []
    else
      var rest := Positive(parcels[..|parcels| - 1]);
      if parcels[|parcels| - 1].subtotal > 0 then rest + [parcels[|parcels| - 1]] else rest
  }

  function AllParcels(groups: seq<Group>): (r: seq<Parcel>)
    ensures |r| == |groups|
  {
    seq(|groups|, i requires 0 <= i < |groups| => Parcel(groups[i].seller, groups[i].total))
  }

  lemma {:induction false} ParcelsArePositive(groups: seq<Group>)
    ensures ParcelsOf(groups) == Positive(AllParcels(groups))
  {
    if groups != [] {
      ParcelsArePositive(groups[..|groups| - 1]);
      assert AllParcels(groups)[..|groups| - 1] == AllParcels(groups[..|groups| - 1]);
    }
  }

  lemma {:induction false} PositiveKeeps(parcels: seq<Parcel>)
    ensures |Positive(parcels)| <= |parcels|
    ensures Positive(parcels) == parcels <==> forall p :: p in parcels ==> p.subtotal > 0
  {
    if parcels != [] {
      var init, last := parcels[..|parcels| - 1], parcels[|parcels| - 1];
      PositiveKeeps(init);
      assert parcels == init + [last];
      if last.subtotal > 0 {
        assert Positive(parcels) == Positive(init) + [last];
        if Positive(parcels) == parcels { assert Positive(init) == (Positive(init) + [last])[..|init|] == init; }
      } else {
        assert last in parcels;
      }
    }
  }

  /** All lines are available, and the cart and the quote agree on seller and price. */
  ghost predicate Matches(lines: seq<Line>, priced: seq<D.Breakdown>) {
    && |lines| == |priced|
    && forall i :: 0 <= i < |lines| ==>
        lines[i].status == Available && lines[i].seller == priced[i].seller && lines[i].final == priced[i].final.amount
  }

  /** The cart asks the shipping port about the same parcels as the order, except that it leaves out sellers whose goods
      cost nothing. */
  lemma ParcelsAgree(lines: seq<Line>, priced: seq<D.Breakdown>)
    requires Matches(lines, priced)
    ensures ParcelsOf(GroupsOf(lines)) == Positive(OrderParcels(priced))
    ensures ParcelsOf(GroupsOf(lines)) == OrderParcels(priced) <==>
      forall p :: p in OrderParcels(priced) ==> p.subtotal > 0
  {
    var groups := GroupsOf(lines);
    GroupsAreTotals(lines);
    forall i | 0 <= i < |lines|
      ensures LineSeller(lines[i]) == PricedSeller(priced[i]) && Counted(lines[i]) == D.FinalOf(priced[i])
    {
    }
    SameGroups(lines, priced, LineSeller, Counted, PricedSeller, D.FinalOf, BLANK);
    assert |groups| == |OrderParcels(priced)|;
    forall i | 0 <= i < |groups| ensures AllParcels(groups)[i] == OrderParcels(priced)[i] {
      SameGroups(lines, priced, LineSeller, Counted, PricedSeller, D.FinalOf, groups[i].seller);
      assert GroupSellers(groups)[i] == groups[i].seller;
    }
    assert AllParcels(groups) == OrderParcels(priced);
    ParcelsArePositive(groups);
    PositiveKeeps(OrderParcels(priced));
  }

  /** The total the cart shows. */
  function PreviewTotal(lines: seq<Line>, q: Q.Quote, tariff: seq<Parcel> -> Tariff): int {
    var parcels := ParcelsOf(GroupsOf(lines));
    if parcels == [] then 0 else q.total.amount + tariff(parcels).total
  }

  function Shown(lines: seq<Line>, priced: seq<D.Breakdown>): (r: seq<Line>)
    ensures |r| == |lines|
  {
    seq(|lines|, i requires 0 <= i < |lines| => PricedLine(lines[i], priced))
  }

  /** The lines of the cart are those of the quote request, all available, with the same sellers. */
  ghost predicate SameCart(cart: seq<Line>, request: seq<Offered.CartLine>) {
    && |cart| == |request| > 0
    && (forall i, j :: 0 <= i < j < |cart| ==> cart[i].sku != cart[j].sku)
    && forall i :: 0 <= i < |cart| ==>
        cart[i].status == Available && cart[i].sku == request[i].sku && cart[i].seller == request[i].seller
  }

  lemma ShownMatches(cart: seq<Line>, request: seq<Offered.CartLine>, priced: seq<D.Breakdown>)
    requires SameCart(cart, request) && Q.SameOrder(request, priced)
    ensures Matches(Shown(cart, priced), priced)
  {
    forall i | 0 <= i < |cart| ensures FindPriced(priced, cart[i].sku) == i {
      forall j | 0 <= j < i ensures priced[j].sku != cart[i].sku { assert cart[j].sku != cart[i].sku; }
    }
  }

  lemma {:induction false} ItemSums(priced: seq<D.Breakdown>)
    ensures Sum(OrderItems(priced), O.ItemBase) == Sum(priced, Q.BaseOf)
    ensures Sum(OrderItems(priced), O.ItemFinal) == Sum(priced, D.FinalOf)
  {
    if priced != [] {
      var init, last := priced[..|priced| - 1], priced[|priced| - 1];
      ItemSums(init);
      SumAppend(OrderItems(init), OrderItem(last), O.ItemBase);
      SumAppend(OrderItems(init), OrderItem(last), O.ItemFinal);
      assert O.ItemBase(OrderItem(last)) == Q.BaseOf(last) && O.ItemFinal(OrderItem(last)) == D.FinalOf(last);
    }
  }

  /** The order that is placed from a quote carries its books: subtotal and discount are those of the quote, and its
      total is that of the quote plus shipping. */
  lemma OrderCarriesQuote(q: Q.Quote, costs: seq<O.ShippingCost>, currency: Currency)
    requires Q.Books(q) && O.Place(OrderItems(q.lines), costs, currency).Ok?
    ensures var totals := O.Place(OrderItems(q.lines), costs, currency).value.totals;
      && totals.subtotal.amount == q.subtotal.amount && totals.discount.amount == q.discount.amount
      && totals.total.amount == q.total.amount + Sum(costs, O.CostAmount)
  {
    hide O.Place, O.Divided, O.GoodItems, OrderItems, Sum, Q.BalancedLines;
    O.PlacedOrderAddsUp(OrderItems(q.lines), costs, currency);
    ItemSums(q.lines);
  }

  lemma {:induction false} NothingPositive(parcels: seq<Parcel>)
    ensures Positive(parcels) == [] <==> forall p :: p in parcels ==> p.subtotal <= 0
  {
    if parcels != [] {
      var init, last := parcels[..|parcels| - 1], parcels[|parcels| - 1];
      NothingPositive(init);
      assert parcels == init + [last];
    }
  }

  lemma {:induction false} GroupedAtMost<T>(s: seq<T>, key: T -> Reference, amount: T -> int, keys: seq<Reference>)
    requires forall k :: k in keys ==> Sum(s, Only(key, amount, k)) <= 0
    ensures Grouped(s, key, amount, keys) <= 0
  {
    if keys != [] {
      assert keys[|keys| - 1] in keys;
      assert forall k :: k in keys[..|keys| - 1] ==> k in keys;
      GroupedAtMost(s, key, amount, keys[..|keys| - 1]);
    }
  }

  /** Where no parcel costs anything, neither does the order. */
  lemma FreeParcelsAreFree(priced: seq<D.Breakdown>)
    requires Positive(OrderParcels(priced)) == []
    ensures Sum(priced, D.FinalOf) == 0
  {
    hide Positive, FirstKeys, Grouped;
    var keys, parcels := FirstKeys(priced, PricedSeller), OrderParcels(priced);
    NothingPositive(parcels);
    forall k | k in keys ensures Sum(priced, Only(PricedSeller, D.FinalOf, k)) <= 0 {
      var i :| 0 <= i < |keys| && keys[i] == k;
      assert parcels[i] in parcels;
    }
    FirstKeysAre(priced, PricedSeller);
    GroupedAtMost(priced, PricedSeller, D.FinalOf, keys);
    GroupsAddUp(priced, PricedSeller, D.FinalOf, keys);
    SumNonNegative(priced, D.FinalOf);
  }

  /** What the cart adds for shipping: nothing without a parcel, and otherwise the total the port answers. */
  function AskedShipping(parcels: seq<Parcel>, tariff: seq<Parcel> -> Tariff): int {
    if parcels == [] then 0 else tariff(parcels).total
  }

  /** For every cart whose lines are available: the total it shows is that of the order exactly when the port's total
      for the sellers whose goods cost something is the sum of its costs for all of them. */
  lemma PreviewIsOrderTotalExactly(
    cart: seq<Line>, request: seq<Offered.CartLine>, rules: seq<Offered.Rule>, promo: Option<Offered.Promo>,
    tariff: seq<Parcel> -> Tariff, currency: Currency)
    requires Q.AllValid(rules) && Q.Calculate(request, rules, promo).Ok? && SameCart(cart, request)
    requires var q := Q.Calculate(request, rules, promo).value;
      O.Place(OrderItems(q.lines), tariff(OrderParcels(q.lines)).costs, currency).Ok?
    ensures var q := Q.Calculate(request, rules, promo).value;
      var costs := tariff(OrderParcels(q.lines)).costs;
      var placed := O.Place(OrderItems(q.lines), costs, currency).value;
      PreviewTotal(Shown(cart, q.lines), q, tariff) == placed.totals.total.amount
      <==> AskedShipping(Positive(OrderParcels(q.lines)), tariff) == Sum(costs, O.CostAmount)
  {
    hide Q.Calculate, O.Place, GroupsOf, ParcelsOf, Positive, Sum, Q.BalancedLines;
    var q := Q.Calculate(request, rules, promo).value;
    Q.QuoteBalances(request, rules, promo);
    ShownMatches(cart, request, q.lines);
    ParcelsAgree(Shown(cart, q.lines), q.lines);
    OrderCarriesQuote(q, tariff(OrderParcels(q.lines)).costs, currency);
    if Positive(OrderParcels(q.lines)) == [] { FreeParcelsAreFree(q.lines); }
  }

  /** The total shown in the cart is the total of the order: when every line of the cart is available, every seller's
      goods cost something, and the shipping port's total is the sum of its costs. */
  lemma PreviewIsOrderTotal(
    cart: seq<Line>, request: seq<Offered.CartLine>, rules: seq<Offered.Rule>, promo: Option<Offered.Promo>,
    tariff: seq<Parcel> -> Tariff, currency: Currency)
    requires Q.AllValid(rules) && Q.Calculate(request, rules, promo).Ok? && SameCart(cart, request)
    requires var q := Q.Calculate(request, rules, promo).value;
      && (forall p :: p in OrderParcels(q.lines) ==> p.subtotal > 0)
      && tariff(OrderParcels(q.lines)).total == Sum(tariff(OrderParcels(q.lines)).costs, O.CostAmount)
      && O.Place(OrderItems(q.lines), tariff(OrderParcels(q.lines)).costs, currency).Ok?
    ensures var q := Q.Calculate(request, rules, promo).value;
      var placed := O.Place(OrderItems(q.lines), tariff(OrderParcels(q.lines)).costs, currency).value;
      PreviewTotal(Shown(cart, q.lines), q, tariff) == placed.totals.total.amount
  {
    hide Q.Calculate, O.Place, PreviewTotal, Positive, Sum;
    var q := Q.Calculate(request, rules, promo).value;
    PreviewIsOrderTotalExactly(cart, request, rules, promo, tariff, currency);
    Q.QuoteBalances(request, rules, promo);
    PositiveKeeps(OrderParcels(q.lines));
    FirstKeysAre(q.lines, PricedSeller);
    assert q.lines[0] in q.lines;
    assert OrderParcels(q.lines) != [];
  }

  // ---------- a seller whose goods cost nothing ----------

  /** A port that charges the same for each parcel. */
  function Flat(fee: Amount, currency: Currency): seq<Parcel> -> Tariff {
    (parcels: seq<Parcel>) => Tariff(FlatCosts(parcels, fee, currency), fee * |parcels|)
  }

  function FlatCosts(parcels: seq<Parcel>, fee: Amount, currency: Currency): seq<O.ShippingCost> {
    if parcels == [] then []
    else
      var last := O.ShippingCost(parcels[|parcels| - 1].seller, Money(fee, currency));
      FlatCosts(parcels[..|parcels| - 1], fee, currency) + [last]
  }

  lemma {:induction false} FlatAddsUp(parcels: seq<Parcel>, fee: Amount, currency: Currency)
    ensures Sum(FlatCosts(parcels, fee, currency), O.CostAmount) == fee * |parcels|
  {
    if parcels != [] {
      var init := parcels[..|parcels| - 1];
      FlatAddsUp(init, fee, currency);
      SumAppend(FlatCosts(init, fee, currency), O.ShippingCost(parcels[|parcels| - 1].seller, Money(fee, currency)),
        O.CostAmount);
    }
  }

  /** Wherever the goods of one seller cost nothing and the port charges the same for each parcel, the order costs
      more than the cart has shown. */
  lemma FreeSellerCostsMore(
    cart: seq<Line>, request: seq<Offered.CartLine>, rules: seq<Offered.Rule>, promo: Option<Offered.Promo>,
    fee: Amount, currency: Currency)
    requires Q.AllValid(rules) && Q.Calculate(request, rules, promo).Ok? && SameCart(cart, request) && fee > 0
    requires var q := Q.Calculate(request, rules, promo).value;
      && (exists p :: p in OrderParcels(q.lines) && p.subtotal <= 0)
      && O.Place(OrderItems(q.lines), FlatCosts(OrderParcels(q.lines), fee, currency), currency).Ok?
    ensures var q := Q.Calculate(request, rules, promo).value;
      var placed := O.Place(OrderItems(q.lines), FlatCosts(OrderParcels(q.lines), fee, currency), currency).value;
      PreviewTotal(Shown(cart, q.lines), q, Flat(fee, currency)) < placed.totals.total.amount
  {
    hide Q.Calculate, O.Place, GroupsOf, ParcelsOf, Positive, Sum, Q.BalancedLines, FlatCosts;
    var q := Q.Calculate(request, rules, promo).value;
    var parcels := OrderParcels(q.lines);
    Q.QuoteBalances(request, rules, promo);
    ShownMatches(cart, request, q.lines);
    ParcelsAgree(Shown(cart, q.lines), q.lines);
    OrderCarriesQuote(q, FlatCosts(parcels, fee, currency), currency);
    FlatAddsUp(parcels, fee, currency);
    PositiveKeeps(parcels);
    FewerPositive(parcels);
    FeeGrows(fee, |Positive(parcels)|, |parcels|);
  }

  lemma FeeGrows(fee: int, few: int, many: int)
    requires fee > 0 && 0 <= few < many
    ensures 0 <= fee * few < fee * many
  {
  }

  lemma {:induction false} FewerPositive(parcels: seq<Parcel>)
    requires exists p :: p in parcels && p.subtotal <= 0
    ensures |Positive(parcels)| < |parcels|
  {
    var init, last := parcels[..|parcels| - 1], parcels[|parcels| - 1];
    PositiveKeeps(init);
    if last.subtotal > 0 {
      var p :| p in parcels && p.subtotal <= 0;
      assert parcels == init + [last] && p in init;
      FewerPositive(init);
    }
  }
}
