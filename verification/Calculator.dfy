/** The calculator as the loops it consists of. */
module Calculator {
  import opened Kernel
  import opened Discounts
  import opened Distribution
  import opened Quotes
  import opened Sorting

  method Collect(rules: seq<Rule>, line: CartLine) returns (sorted: seq<Rule>)
    ensures sorted == Applicable(rules, line)
  {
    var found: seq<Rule> := [];
    var i := 0;
    while i < |rules|
      invariant 0 <= i <= |rules|
      invariant found == Matching(rules[..i], line)
    {
      assert rules[..i + 1][..i] == rules[..i];
      if rules[i].IsApplicable(line) { found := found + [rules[i]]; }
      i := i + 1;
    }
    assert rules[..i] == rules;
    sorted := Sort(found, ByPriority);
  }

  method PriceLine(line: CartLine, rules: seq<Rule>) returns (r: Result<Breakdown, PricingError>)
    requires AllValid(rules)
    ensures r == LinePrice(line, rules)
  {
    var base := line.unitPrice.MulQuantity(line.quantity);
    if base.Err? { return Err(Overflow); }
    var b := Breakdown(line.sku, line.seller, line.product, line.quantity, line.unitPrice, base.value, [], base.value);
    ghost var start := b;
    var stack := Collect(rules, line);
    ApplicableInOrder(rules, line);
    assert stack[0..] == stack;
    var i := 0;
    while i < |stack| && !b.final.IsZero()
      invariant 0 <= i <= |stack|
      invariant Discounted(b, stack[i..], line) == Discounted(start, stack, line)
    {
      assert stack[i] in stack && stack[i..][0] == stack[i] && stack[i..][1..] == stack[i + 1..];
      var amount := stack[i].Discount(b.final, line);
      if !amount.IsZero() {
        var next := b.final.Sub(amount);
        var rest := if next.Ok? then next.value else Money(0, b.final.currency);
        if next.Err? { amount := b.final; }
        b := b.(final := rest, discounts := b.discounts + [AppliedDiscount(Some(stack[i].id), amount, None)]);
        if stack[i].exclusive { return Ok(b); }
      }
      i := i + 1;
    }
    r := Ok(b);
  }

  /** The quote, with the promo discount spread over the lines in place. */
  method Quotation(lines: seq<CartLine>, rules: seq<Rule>, promo: Option<Promo>)
    returns (r: Result<Quote, PricingError>)
    requires AllValid(rules)
    ensures r == Calculate(lines, rules, promo)
  {
    if |lines| == 0 { return Err(EmptyQuote); }
    var currency := lines[0].unitPrice.currency;
    if !IsCurrency(currency) { return Err(InvalidCurrency); }
    var tally := Tallied(lines, rules, currency);
    if tally.Err? { return Err(tally.error); }
    var t := tally.value;
    if promo == None { return Finish(t.lines, t.base, t.subtotal, None); }
    var discount := promo.value.Discount(t.subtotal);
    if discount.Err? { return Err(discount.error); }
    if discount.value.IsZero() { return Finish(t.lines, t.base, t.subtotal, None); }
    var total := t.subtotal.Sub(discount.value);
    if total.Err? { return Err(Negative); }
    var buffer := new Breakdown[|t.lines|](i requires 0 <= i < |t.lines| => t.lines[i]);
    assert buffer[..] == t.lines;
    var error := Distribute(buffer, discount.value, promo.value.code);
    if error != None { return Err(error.value); }
    r := Finish(buffer[..], t.base, total.value, Some(promo.value.code));
  }

  method Tallied(lines: seq<CartLine>, rules: seq<Rule>, currency: Currency) returns (r: Result<Tally, PricingError>)
    requires AllValid(rules)
    ensures r == PriceLines(lines, rules, currency)
  {
    hide AllValid, LinePrice;
    var t := Tally([], Money(0, currency), Money(0, currency));
    var i := 0;
    while i < |lines|
      invariant 0 <= i <= |lines|
      invariant PriceLines(lines[..i], rules, currency) == Ok(t)
    {
      var line := lines[i];
      assert lines[..i + 1][..i] == lines[..i];
      LinesFail(lines, rules, currency, i + 1);
      if line.unitPrice.currency != currency { return Err(CurrencyMismatch); }
      if line.quantity == 0 { return Err(InvalidQuantity); }
      var b := PriceLine(line, rules);
      if b.Err? { return Err(b.error); }
      var subtotal := t.subtotal.Add(b.value.final);
      if subtotal.Err? { return Err(Overflow); }
      var base := t.base.Add(b.value.base);
      if base.Err? { return Err(Overflow); }
      t := Tally(t.lines + [b.value], subtotal.value, base.value);
      i := i + 1;
    }
    assert lines[..i] == lines;
    r := Ok(t);
  }

  /** The first line that cannot be priced decides. */
  lemma {:induction false} LinesFail(lines: seq<CartLine>, rules: seq<Rule>, currency: Currency, k: nat)
    requires AllValid(rules) && k <= |lines|
    ensures PriceLines(lines[..k], rules, currency).Err?
      ==> PriceLines(lines, rules, currency) == PriceLines(lines[..k], rules, currency)
  {
    hide AddLine;
    if k == |lines| {
      assert lines[..k] == lines;
    } else {
      LinesFail(lines[..|lines| - 1], rules, currency, k);
      assert lines[..|lines| - 1][..k] == lines[..k];
    }
  }
}
