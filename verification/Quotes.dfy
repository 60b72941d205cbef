/** The price calculator: stacked discount rules on every line, a promo code on top, and the books of the quote. */
module Quotes {
  import opened Kernel
  import opened Discounts
  import opened Distribution
  import opened Sorting

  datatype Quote = Quote(lines: seq<Breakdown>, subtotal: Money, discount: Money, total: Money, promo: Option<Code>)

  // ---------- one line ----------

  predicate ByPriority(a: Rule, b: Rule) { a.priority >= b.priority }

  function Matching(rules: seq<Rule>, line: CartLine): seq<Rule> {
    if rules == [] then []
    else
      var rest := Matching(rules[..|rules| - 1], line);
      if rules[|rules| - 1].IsApplicable(line) then rest + [rules[|rules| - 1]] else rest
  }

  /** The rules that apply to the line, the highest priority first and equal ones in the given order. */
  function Applicable(rules: seq<Rule>, line: CartLine): seq<Rule> { Sort(Matching(rules, line), ByPriority) }

  ghost predicate AllValid(rules: seq<Rule>) { forall r :: r in rules ==> r.Valid() }

  lemma {:induction false} MatchingWithin(rules: seq<Rule>, line: CartLine)
    ensures forall r :: r in Matching(rules, line) <==> r in rules && r.IsApplicable(line)
  {
    if rules != [] {
      MatchingWithin(rules[..|rules| - 1], line);
      assert rules == rules[..|rules| - 1] + [rules[|rules| - 1]];
    }
  }

  lemma PriorityIsTotal()
    ensures TotalPreorder(ByPriority)
  {
  }

  /** Exactly the applicable rules, in descending priority, ties as they were given. */
  lemma ApplicableInOrder(rules: seq<Rule>, line: CartLine)
    ensures forall r :: r in Applicable(rules, line) <==> r in rules && r.IsApplicable(line)
    ensures multiset(Applicable(rules, line)) == multiset(Matching(rules, line))
    ensures Ordered(Applicable(rules, line), ByPriority)
    ensures forall pivot :: Ties(Applicable(rules, line), pivot, ByPriority) == Ties(Matching(rules, line), pivot,
      ByPriority)
  {
    PriorityIsTotal();
    MatchingWithin(rules, line);
    SortSorts(Matching(rules, line), ByPriority);
    forall r ensures r in Applicable(rules, line) <==> r in Matching(rules, line) {
      assert r in Applicable(rules, line) <==> r in multiset(Applicable(rules, line));
    }
    forall pivot ensures Ties(Applicable(rules, line), pivot, ByPriority) == Ties(Matching(rules, line), pivot,
      ByPriority) {
      SortIsStable(Matching(rules, line), pivot, ByPriority);
    }
  }

  /** The line with the rules taken off in turn, until nothing is left or an exclusive rule has taken something. */
  function Discounted(b: Breakdown, rules: seq<Rule>, line: CartLine): Breakdown
    requires forall r :: r in rules ==> r.Valid()
    decreases |rules|
  {
    if rules == [] || b.final.IsZero() then b
    else
      assert rules[0] in rules;
      var amount := rules[0].Discount(b.final, line);
      if amount.IsZero() then Discounted(b, rules[1..], line)
      else
        var (taken, next) := match b.final.Sub(amount)
          case Ok(rest) => (amount, rest)
          case Err(_) => (b.final, Money(0, b.final.currency));
        var reduced := b.(final := next, discounts := b.discounts + [AppliedDiscount(Some(rules[0].id), taken, None)]);
        if rules[0].exclusive then reduced else Discounted(reduced, rules[1..], line)
  }

  function LinePrice(line: CartLine, rules: seq<Rule>): Result<Breakdown, PricingError>
    requires AllValid(rules)
  {
    match line.unitPrice.MulQuantity(line.quantity)
    case Err(_) => Err(Overflow)
    case Ok(base) =>
      ApplicableInOrder(rules, line);
      Ok(Discounted(Breakdown(line.sku, line.seller, line.product, line.quantity, line.unitPrice, base, [], base),
                    Applicable(rules, line), line))
  }

  function AmountOf(d: AppliedDiscount): int { d.amount.amount }
  function PromoAmount(d: AppliedDiscount): int { if d.promo.Some? then d.amount.amount else 0 }
  function BaseOf(b: Breakdown): int { b.base.amount }
  function DiscountOf(b: Breakdown): int { Sum(b.discounts, AmountOf) }
  /** What the line costs without its promo discounts. */
  function BasisOf(b: Breakdown): int { b.final.amount + Sum(b.discounts, PromoAmount) }

  /** The books of one line. */
  ghost predicate Balanced(b: Breakdown) {
    && b.base.amount == b.unitPrice.amount * b.quantity
    && b.base.amount == b.final.amount + Sum(b.discounts, AmountOf)
    && b.base.currency == b.unitPrice.currency && b.final.currency == b.unitPrice.currency
  }

  ghost predicate SameLine(a: Breakdown, b: Breakdown) {
    b == a.(final := b.final, discounts := b.discounts) && a.discounts <= b.discounts
  }

  /** No rule is ever capped: each takes at most the current price, so it is taken in full. */
  lemma {:induction false} RulesKeepBalance(b: Breakdown, rules: seq<Rule>, line: CartLine)
    requires Balanced(b) && forall r :: r in rules ==> r.Valid()
    ensures var c := Discounted(b, rules, line);
      && Balanced(c) && SameLine(b, c) && Sum(c.discounts, PromoAmount) == Sum(b.discounts, PromoAmount)
    ensures rules != [] && !b.final.IsZero() ==>
      b.final.Sub(rules[0].Discount(b.final, line)).Ok?
    decreases |rules|
  {
    if rules != [] && !b.final.IsZero() {
      var rule := rules[0];
      assert rule in rules;
      DiscountFits(rule, b.final, line);
      var amount := rule.Discount(b.final, line);
      if amount.IsZero() {
        RulesKeepBalance(b, rules[1..], line);
      } else {
        var d := AppliedDiscount(Some(rule.id), amount, None);
        var reduced := b.(final := b.final.Sub(amount).value, discounts := b.discounts + [d]);
        SumAppend(b.discounts, d, AmountOf);
        SumAppend(b.discounts, d, PromoAmount);
        if !rule.exclusive { RulesKeepBalance(reduced, rules[1..], line); }
      }
    }
  }

  /** Nothing comes after an exclusive rule that has taken something, and a rule that takes nothing does not stop
      others. */
  lemma ExclusiveIsLast(b: Breakdown, rules: seq<Rule>, line: CartLine)
    requires rules != [] && (forall r :: r in rules ==> r.Valid()) && !b.final.IsZero()
    ensures var amount := rules[0].Discount(b.final, line);
      if amount.IsZero() then Discounted(b, rules, line) == Discounted(b, rules[1..], line)
      else if rules[0].exclusive then
        Discounted(b, rules, line).discounts == b.discounts + [AppliedDiscount(Some(rules[0].id), amount, None)]
      else b.discounts + [AppliedDiscount(Some(rules[0].id), amount, None)] <= Discounted(b, rules, line).discounts
  {
    DiscountFits(rules[0], b.final, line);
    if !rules[0].Discount(b.final, line).IsZero() && !rules[0].exclusive {
      var amount := rules[0].Discount(b.final, line);
      var reduced := b.(final := b.final.Sub(amount).value,
                        discounts := b.discounts + [AppliedDiscount(Some(rules[0].id), amount, None)]);
      DiscountsGrow(reduced, rules[1..], line);
    }
  }

  lemma {:induction false} DiscountsGrow(b: Breakdown, rules: seq<Rule>, line: CartLine)
    requires forall r :: r in rules ==> r.Valid()
    ensures b.discounts <= Discounted(b, rules, line).discounts
    decreases |rules|
  {
    if rules != [] && !b.final.IsZero() {
      var amount := rules[0].Discount(b.final, line);
      if amount.IsZero() {
        DiscountsGrow(b, rules[1..], line);
      } else if !rules[0].exclusive {
        DiscountFits(rules[0], b.final, line);
        var reduced := b.(final := b.final.Sub(amount).value,
                          discounts := b.discounts + [AppliedDiscount(Some(rules[0].id), amount, None)]);
        DiscountsGrow(reduced, rules[1..], line);
      }
    }
  }

  // ---------- all lines ----------

  datatype Tally = Tally(lines: seq<Breakdown>, subtotal: Money, base: Money)

  function PriceLines(lines: seq<CartLine>, rules: seq<Rule>, currency: Currency): Result<Tally, PricingError>
    requires AllValid(rules)
  {
    if lines == [] then Ok(Tally([], Money(0, currency), Money(0, currency)))
    else match PriceLines(lines[..|lines| - 1], rules, currency)
      case Err(e) => Err(e)
      case Ok(t) => AddLine(t, lines[|lines| - 1], rules, currency)
  }

  function AddLine(t: Tally, line: CartLine, rules: seq<Rule>, currency: Currency): Result<Tally, PricingError>
    requires AllValid(rules)
  {
    if line.unitPrice.currency != currency then Err(CurrencyMismatch)
    else if line.quantity == 0 then Err(InvalidQuantity)
    else match LinePrice(line, rules)
      case Err(e) => Err(e)
      case Ok(b) =>
        match (t.subtotal.Add(b.final), t.base.Add(b.base))
        case (Ok(subtotal), Ok(base)) => Ok(Tally(t.lines + [b], subtotal, base))
        case _ => Err(Overflow)
  }

  function Finish(lines: seq<Breakdown>, base: Money, total: Money, promo: Option<Code>): Result<Quote, PricingError> {
    match base.Sub(total)
    case Err(_) => Err(Negative)
    case Ok(discount) => Ok(Quote(lines, base, discount, total, promo))
  }

  function Calculate(lines: seq<CartLine>, rules: seq<Rule>, promo: Option<Promo>): Result<Quote, PricingError>
    requires AllValid(rules)
  {
    if lines == [] then Err(EmptyQuote)
    else if !IsCurrency(lines[0].unitPrice.currency) then Err(InvalidCurrency)
    else match PriceLines(lines, rules, lines[0].unitPrice.currency)
      case Err(e) => Err(e)
      case Ok(t) =>
        match promo
        case None => Finish(t.lines, t.base, t.subtotal, None)
        case Some(p) =>
          match p.Discount(t.subtotal)
          case Err(e) => Err(e)
          case Ok(discount) =>
            if discount.IsZero() then Finish(t.lines, t.base, t.subtotal, None)
            else match t.subtotal.Sub(discount)
              case Err(_) => Err(Negative)
              case Ok(total) =>
                match Distributed(t.lines, discount, p.code)
                case Err(e) => Err(e)
                case Ok(spread) => Finish(spread, t.base, total, Some(p.code))
  }

  ghost predicate BalancedLines(lines: seq<Breakdown>, currency: Currency) {
    forall b :: b in lines ==> Balanced(b) && b.unitPrice.currency == currency
  }

  ghost predicate BalancedTally(t: Tally, currency: Currency) {
    && t.subtotal.currency == currency && t.base.currency == currency
    && BalancedLines(t.lines, currency)
    && (forall b :: b in t.lines ==> Sum(b.discounts, PromoAmount) == 0)
    && t.subtotal.amount == Sum(t.lines, FinalOf) && t.base.amount == Sum(t.lines, BaseOf)
  }

  lemma LineBalances(line: CartLine, rules: seq<Rule>)
    requires AllValid(rules) && LinePrice(line, rules).Ok?
    ensures var b := LinePrice(line, rules).value;
      && Balanced(b) && b.unitPrice == line.unitPrice && b.quantity == line.quantity && b.sku == line.sku
        && b.seller == line.seller
      && Sum(b.discounts, PromoAmount) == 0
  {
    ApplicableInOrder(rules, line);
    var base := line.unitPrice.MulQuantity(line.quantity).value;
    var b := Breakdown(line.sku, line.seller, line.product, line.quantity, line.unitPrice, base, [], base);
    RulesKeepBalance(b, Applicable(rules, line), line);
  }

  ghost predicate SameOrder(lines: seq<CartLine>, priced: seq<Breakdown>) {
    && |priced| == |lines|
    && forall i :: 0 <= i < |lines| ==>
        && priced[i].sku == lines[i].sku && priced[i].seller == lines[i].seller
        && priced[i].quantity == lines[i].quantity && priced[i].unitPrice == lines[i].unitPrice
  }

  lemma TallyGrows(t: Tally, next: Tally, b: Breakdown, currency: Currency)
    requires BalancedTally(t, currency) && Balanced(b) && b.unitPrice.currency == currency
      && Sum(b.discounts, PromoAmount) == 0
    requires next.lines == t.lines + [b] && next.subtotal.currency == currency && next.base.currency == currency
    requires next.subtotal.amount == t.subtotal.amount + b.final.amount
      && next.base.amount == t.base.amount + b.base.amount
    ensures BalancedTally(next, currency)
  {
    hide Balanced;
    SumAppend(t.lines, b, FinalOf);
    SumAppend(t.lines, b, BaseOf);
  }

  lemma OrderGrows(lines: seq<CartLine>, priced: seq<Breakdown>, line: CartLine, b: Breakdown)
    requires SameOrder(lines, priced)
    requires b.sku == line.sku && b.seller == line.seller && b.quantity == line.quantity
      && b.unitPrice == line.unitPrice
    ensures SameOrder(lines + [line], priced + [b])
  {
  }

  lemma AddLineBalances(t: Tally, line: CartLine, rules: seq<Rule>, currency: Currency)
    requires AllValid(rules) && BalancedTally(t, currency) && AddLine(t, line, rules, currency).Ok?
    ensures var next, b := AddLine(t, line, rules, currency).value, LinePrice(line, rules);
      && BalancedTally(next, currency) && b.Ok? && next.lines == t.lines + [b.value]
      && b.value.sku == line.sku && b.value.seller == line.seller && b.value.quantity == line.quantity
      && b.value.unitPrice == line.unitPrice
  {
    hide AllValid, LinePrice, BalancedTally, Sum;
    LineBalances(line, rules);
    BalancedTallyIn(t, currency);
    TallyGrows(t, AddLine(t, line, rules, currency).value, LinePrice(line, rules).value, currency);
  }

  lemma BalancedTallyIn(t: Tally, currency: Currency)
    requires BalancedTally(t, currency)
    ensures t.subtotal.currency == currency && t.base.currency == currency
  {
  }

  lemma NothingBalances(currency: Currency)
    ensures BalancedTally(Tally([], Money(0, currency), Money(0, currency)), currency)
  {
  }

  lemma {:induction false} TallyBalances(lines: seq<CartLine>, rules: seq<Rule>, currency: Currency)
    requires AllValid(rules) && PriceLines(lines, rules, currency).Ok?
    ensures var t := PriceLines(lines, rules, currency).value; BalancedTally(t, currency) && SameOrder(lines, t.lines)
  {
    hide AllValid, AddLine, BalancedTally;
    if lines == [] {
      NothingBalances(currency);
    } else {
      var init, last := lines[..|lines| - 1], lines[|lines| - 1];
      TallyBalances(init, rules, currency);
      var t := PriceLines(init, rules, currency).value;
      assert PriceLines(lines, rules, currency) == AddLine(t, last, rules, currency);
      AddLineBalances(t, last, rules, currency);
      hide PriceLines, SameOrder;
      OrderGrows(init, t.lines, last, LinePrice(last, rules).value);
      assert lines == init + [last];
    }
  }

  // ---------- the promo discount ----------

  /** What taking a share of a promo code off a line changes in its books. */
  lemma ReducedBalances(b: Breakdown, share: int, code: Code)
    requires 0 <= share <= b.final.amount
    ensures var r := Reduced(b, share, code);
      && SameLine(b, r) && (Balanced(b) ==> Balanced(r))
      && BasisOf(r) == BasisOf(b) && DiscountOf(r) == DiscountOf(b) + share
  {
    var d := AppliedDiscount(None, Money(share, b.final.currency), Some(code));
    SumAppend(b.discounts, d, AmountOf);
    SumAppend(b.discounts, d, PromoAmount);
  }

  ghost predicate Spreading(lines: seq<Breakdown>, spread: seq<Breakdown>) {
    && |spread| == |lines|
    && forall j :: 0 <= j < |lines| ==> Reduces(lines[j], spread[j])
  }

  ghost predicate Reduces(a: Breakdown, b: Breakdown) {
    SameLine(a, b) && BasisOf(b) == BasisOf(a) && (Balanced(a) ==> Balanced(b))
  }

  /** Whenever the discount is spread at all, even with wrap-around, it is spread completely, and every line keeps its
      books and its price before the promo code. */
  lemma {:induction false} SpreadBalances(lines: seq<Breakdown>, i: nat, left: int, total: int, discount: Money,
      code: Code)
    requires total != 0 && 0 <= left && (i < |lines| || (i == |lines| && left == 0))
    requires Spread(lines, i, left, total, discount, code).Ok?
    ensures var spread := Spread(lines, i, left, total, discount, code).value;
      && Spreading(lines, spread) && Sum(spread, FinalOf) == Sum(lines, FinalOf) - left
    decreases |lines| - i
  {
    hide Reduces, Quotient, Wrapped;
    if i == |lines| || left == 0 {
      forall j | 0 <= j < |lines| ensures Reduces(lines[j], lines[j]) { ReducesItself(lines[j]); }
    } else {
      var proportional := Quotient(Wrapped(discount.amount * lines[i].final.amount), total);
      var share := if i == |lines| - 1 || proportional > left then left else proportional;
      if share == 0 {
        SpreadBalances(lines, i + 1, left, total, discount, code);
      } else {
        var next := lines[i := Reduced(lines[i], share, code)];
        SpreadBalances(next, i + 1, left - share, total, discount, code);
        SumUpdate(lines, i, Reduced(lines[i], share, code), FinalOf);
        var spread := Spread(next, i + 1, left - share, total, discount, code).value;
        forall j | 0 <= j < |lines| ensures Reduces(lines[j], spread[j]) {
          assert Reduces(next[j], spread[j]);
          if j == i { ReduceTwice(lines[i], share, code, spread[i]); }
        }
      }
    }
  }

  lemma ReducesItself(b: Breakdown)
    ensures Reduces(b, b)
  {
  }

  lemma ReduceTwice(a: Breakdown, share: int, code: Code, c: Breakdown)
    requires 0 <= share <= a.final.amount && Reduces(Reduced(a, share, code), c)
    ensures Reduces(a, c)
  {
    ReducedBalances(a, share, code);
  }

  lemma {:induction false} SumsOfSpread(lines: seq<Breakdown>, spread: seq<Breakdown>)
    requires Spreading(lines, spread)
    ensures Sum(spread, BaseOf) == Sum(lines, BaseOf) && Sum(spread, BasisOf) == Sum(lines, BasisOf)
  {
    if lines != [] {
      var n := |lines| - 1;
      assert BaseOf(spread[n]) == BaseOf(lines[n]) && BasisOf(spread[n]) == BasisOf(lines[n]) by {
        assert Reduces(lines[n], spread[n]);
      }
      hide Reduces, BaseOf, BasisOf;
      SumsOfSpread(lines[..n], spread[..n]);
    }
  }

  lemma BooksOfSpread(lines: seq<Breakdown>, spread: seq<Breakdown>, currency: Currency)
    requires Spreading(lines, spread) && BalancedLines(lines, currency)
    ensures BalancedLines(spread, currency) && Sum(spread, BaseOf) == Sum(lines, BaseOf)
      && Sum(spread, BasisOf) == Sum(lines, BasisOf)
  {
    hide Balanced, BasisOf;
    SumsOfSpread(lines, spread);
    forall b | b in spread ensures Balanced(b) && b.unitPrice.currency == currency {
      var i :| 0 <= i < |spread| && spread[i] == b;
      assert lines[i] in lines && Reduces(lines[i], b);
    }
  }

  lemma {:induction false} BooksAddUp(lines: seq<Breakdown>, currency: Currency)
    requires BalancedLines(lines, currency)
    ensures Sum(lines, BaseOf) == Sum(lines, FinalOf) + Sum(lines, DiscountOf)
  {
    if lines != [] {
      assert lines[|lines| - 1] in lines;
      assert forall b :: b in lines[..|lines| - 1] ==> b in lines;
      BooksAddUp(lines[..|lines| - 1], currency);
    }
  }

  lemma {:induction false} BasisIsFinal(lines: seq<Breakdown>)
    requires forall b :: b in lines ==> Sum(b.discounts, PromoAmount) == 0
    ensures Sum(lines, BasisOf) == Sum(lines, FinalOf)
  {
    if lines != [] {
      assert lines[|lines| - 1] in lines;
      assert forall b :: b in lines[..|lines| - 1] ==> b in lines;
      BasisIsFinal(lines[..|lines| - 1]);
    }
  }

  lemma {:induction false} FinalsAreFinal(lines: seq<Breakdown>)
    ensures Sum(Finals(lines), Price) == Sum(lines, FinalOf)
  {
    if lines != [] {
      FinalsAreFinal(lines[..|lines| - 1]);
      assert Finals(lines)[..|lines| - 1] == Finals(lines[..|lines| - 1]);
    }
  }

  lemma DistributedBalances(t: Tally, currency: Currency, discount: Money, code: Code)
    requires BalancedTally(t, currency) && 0 < discount.amount <= t.subtotal.amount
    requires Distributed(t.lines, discount, code).Ok?
    ensures var spread := Distributed(t.lines, discount, code).value;
      && Spreading(t.lines, spread) && Sum(spread, FinalOf) == t.subtotal.amount - discount.amount
  {
    FinalsAreFinal(t.lines);
    WrapsNothing(t.subtotal.amount);
    SpreadBalances(t.lines, 0, discount.amount, t.subtotal.amount, discount, code);
  }

  // ---------- the quote ----------

  ghost predicate Books(q: Quote) {
    && (exists currency ::
      BalancedLines(q.lines, currency) && q.subtotal.currency == q.total.currency == q.discount.currency == currency)
    && Sum(q.lines, BaseOf) == q.subtotal.amount
    && Sum(q.lines, FinalOf) == q.total.amount
    && Sum(q.lines, DiscountOf) == q.discount.amount
    && q.subtotal.amount - q.total.amount == q.discount.amount
  }

  lemma BooksOf(lines: seq<Breakdown>, q: Quote, currency: Currency)
    requires BalancedLines(q.lines, currency) && q.subtotal.currency == q.total.currency == currency
    requires Sum(q.lines, BaseOf) == q.subtotal.amount && Sum(q.lines, FinalOf) == q.total.amount
    requires q.subtotal.Sub(q.total) == Ok(q.discount)
    ensures Books(q)
  {
    BooksAddUp(q.lines, currency);
  }

  lemma SpreadInOrder(lines: seq<CartLine>, priced: seq<Breakdown>, spread: seq<Breakdown>)
    requires SameOrder(lines, priced) && Spreading(priced, spread)
    ensures SameOrder(lines, spread)
  {
    forall i | 0 <= i < |lines|
      ensures spread[i].sku == lines[i].sku && spread[i].seller == lines[i].seller
      ensures spread[i].quantity == lines[i].quantity && spread[i].unitPrice == lines[i].unitPrice
    {
      assert Reduces(priced[i], spread[i]);
    }
  }

  /** Every quote that is given balances: each line is unit price times quantity, and that is its final price plus its
      discounts; the final prices sum to the total, the base prices to the subtotal, and the difference is the discount,
      which is the sum of all discounts on the lines. */
  lemma QuoteBalances(lines: seq<CartLine>, rules: seq<Rule>, promo: Option<Promo>)
    requires AllValid(rules) && Calculate(lines, rules, promo).Ok?
    ensures var q := Calculate(lines, rules, promo).value; Books(q) && SameOrder(lines, q.lines)
  {
    hide PriceLines, Balanced, Distributed, Books, AllValid;
    var currency := lines[0].unitPrice.currency;
    var t := PriceLines(lines, rules, currency).value;
    TallyBalances(lines, rules, currency);
    var q := Calculate(lines, rules, promo).value;
    if q.promo.Some? {
      var discount := promo.value.Discount(t.subtotal).value;
      DistributedBalances(t, currency, discount, promo.value.code);
      SpreadInOrder(lines, t.lines, q.lines);
      BooksOfSpread(t.lines, q.lines, currency);
    }
    BooksOf(t.lines, q, currency);
  }

  /** A quote with a code can only be had where one without it can. */
  lemma QuoteWithoutPromo(lines: seq<CartLine>, rules: seq<Rule>, promo: Promo)
    requires AllValid(rules) && Calculate(lines, rules, Some(promo)).Ok?
    ensures Calculate(lines, rules, None).Ok?
  {
    hide PriceLines, Distributed, Balanced, AllValid;
    var currency := lines[0].unitPrice.currency;
    var t := PriceLines(lines, rules, currency).value;
    TallyBalances(lines, rules, currency);
    BooksAddUp(t.lines, currency);
    DiscountsAreNatural(t.lines);
  }

  /** What is charged before the promo code can be rebuilt from a quote: the final prices plus the discounts that carry
      a code. Redeeming the code on that amount records exactly the discount that the quote granted. */
  lemma RedeemRecordsGrantedDiscount(
    lines: seq<CartLine>, rules: seq<Rule>, promo: Promo, order: Reference, customer: Reference, usage: int, now: Time)
    requires AllValid(rules) && Calculate(lines, rules, Some(promo)).Ok?
    ensures Calculate(lines, rules, None).Ok?
    ensures var q, before := Calculate(lines, rules, Some(promo)).value, Calculate(lines, rules, None).value;
      && Sum(q.lines, BasisOf) == before.total.amount && before.total.currency == q.total.currency
      && var redeemed := promo.Redeem(order, customer, before.total, usage, now);
         redeemed.Ok? ==>
           && redeemed.value.redemptions[|promo.redemptions|].amount.amount == before.total.amount - q.total.amount
           && redeemed.value.redemptions[..|promo.redemptions|] == promo.redemptions
  {
    hide PriceLines, Distributed, Balanced, AllValid;
    var currency := lines[0].unitPrice.currency;
    var t := PriceLines(lines, rules, currency).value;
    TallyBalances(lines, rules, currency);
    BasisIsFinal(t.lines);
    QuoteWithoutPromo(lines, rules, promo);
    var q := Calculate(lines, rules, Some(promo)).value;
    if q.promo.Some? {
      var discount := promo.Discount(t.subtotal).value;
      DistributedBalances(t, currency, discount, promo.code);
      BooksOfSpread(t.lines, q.lines, currency);
    }
  }

  lemma DiscountsAreNatural(lines: seq<Breakdown>)
    ensures Sum(lines, DiscountOf) >= 0
  {
    forall b | b in lines ensures DiscountOf(b) >= 0 { SumNonNegative(b.discounts, AmountOf); }
    SumNonNegative(lines, DiscountOf);
  }
}
