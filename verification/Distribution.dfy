/** How the discount of a promo code is spread over the lines of a quote: in proportion to their prices, rounded down,
with the rest on the last line. */
module Distribution {
  import opened Kernel
  import opened Discounts

  datatype AppliedDiscount = AppliedDiscount(rule: Option<Reference>, amount: Money, promo: Option<Code>)

  datatype Breakdown = Breakdown(
    sku: SKU, seller: Reference, product: Reference, quantity: Quantity, unitPrice: Money, base: Money,
    discounts: seq<AppliedDiscount>, final: Money)

  function FinalOf(b: Breakdown): int { b.final.amount }
  function Price(f: int): int { f }

  function Finals(lines: seq<Breakdown>): (r: seq<int>)
    ensures |r| == |lines| && forall i :: 0 <= i < |lines| ==> r[i] == lines[i].final.amount
  {
    seq(|lines|, i requires 0 <= i < |lines| => lines[i].final.amount)
  }

  /** The multiplication and the sum are not checked; they wrap around as int64. */
  function Wrapped(x: int): int {
    (x + MAX_INT64 + 1) % WORD - (MAX_INT64 + 1)
  }

  const WORD: int := 0x1_0000_0000_0000_0000

  /** Division truncates towards zero. */
  function Quotient(x: int, y: int): int
    requires y != 0
  {
    if (x >= 0) == (y > 0) then Magnitude(x) / Magnitude(y) else 0 - Magnitude(x) / Magnitude(y)
  }

  function Magnitude(x: int): nat { if x < 0 then 0 - x else x }

  lemma WrapsNothing(x: int)
    requires 0 <= x <= MAX_INT64
    ensures Wrapped(x) == x
  {
  }

  /** The line once `share` of the promo code `code` has been taken off it. */
  function Reduced(b: Breakdown, share: int, code: Code): Breakdown
    requires 0 <= share <= b.final.amount
  {
    b.(final := Money(b.final.amount - share, b.final.currency),
       discounts := b.discounts + [AppliedDiscount(None, Money(share, b.final.currency), Some(code))])
  }

  /** The lines from `i` on, with `left` of the discount still to be taken off. */
  function Spread(lines: seq<Breakdown>, i: nat, left: int, total: int, discount: Money, code: Code)
    : Result<seq<Breakdown>, PricingError>
    requires i <= |lines| && total != 0
    decreases |lines| - i
  {
    if i == |lines| || left == 0 then Ok(lines)
    else
      var proportional := Quotient(Wrapped(discount.amount * lines[i].final.amount), total);
      var share := if i == |lines| - 1 || proportional > left then left else proportional;
      if share == 0 then Spread(lines, i + 1, left, total, discount, code)
      else if !IsCurrency(discount.currency) then Err(InvalidCurrency)
      else if share < 0 then Err(Negative)
      else if discount.currency != lines[i].final.currency then Err(CurrencyMismatch)
      else if lines[i].final.amount < share then Err(Negative)
      else Spread(lines[i := Reduced(lines[i], share, code)], i + 1, left - share, total, discount, code)
  }

  function Distributed(lines: seq<Breakdown>, discount: Money, code: Code): Result<seq<Breakdown>, PricingError> {
    var total := Wrapped(Sum(Finals(lines), Price));
    if total == 0 then Ok(lines) else Spread(lines, 0, discount.amount, total, discount, code)
  }

  /** The loop, on the lines in place. When it fails, the lines before the failing one have been reduced already. */
  method Distribute(lines: array<Breakdown>, discount: Money, code: Code) returns (error: Option<PricingError>)
    modifies lines
    ensures match Distributed(old(lines[..]), discount, code)
      case Ok(spread) => error == None && lines[..] == spread
      case Err(e) => error == Some(e)
  {
    var total := TotalOf(lines);
    if total == 0 { return None; }
    var left: int := discount.amount;
    var i := 0;
    while i < lines.Length && left != 0
      invariant 0 <= i <= lines.Length
      invariant Spread(lines[..], i, left, total, discount, code) == Spread(old(lines[..]), 0, discount.amount, total,
        discount, code)
    {
      ghost var was := lines[..];
      var share := Quotient(Wrapped(discount.amount * lines[i].final.amount), total);
      if i == lines.Length - 1 || share > left { share := left; }
      if share != 0 {
        if !IsCurrency(discount.currency) { return Some(InvalidCurrency); }
        if share < 0 { return Some(Negative); }
        if discount.currency != lines[i].final.currency { return Some(CurrencyMismatch); }
        if lines[i].final.amount < share { return Some(Negative); }
        lines[i] := Reduced(lines[i], share, code);
        assert lines[..] == was[i := Reduced(was[i], share, code)];
        left := left - share;
      }
      i := i + 1;
    }
    error := None;
  }

  method TotalOf(lines: array<Breakdown>) returns (total: int)
    ensures total == Wrapped(Sum(Finals(lines[..]), Price))
  {
    total := 0;
    var i := 0;
    ghost var finals := Finals(lines[..]);
    while i < lines.Length
      invariant 0 <= i <= lines.Length
      invariant total == Wrapped(Sum(finals[..i], Price))
    {
      WrapAdds(Sum(finals[..i], Price), finals[i]);
      SumTake(finals, i, Price);
      total := Wrapped(total + lines[i].final.amount);
      i := i + 1;
    }
    assert finals[..i] == finals;
  }

  /** Wrapping after every addition is wrapping once. */
  lemma WrapAdds(x: int, y: int)
    ensures Wrapped(Wrapped(x) + y) == Wrapped(x + y)
  {
    var shifted := x + MAX_INT64 + 1;
    assert shifted == WORD * (shifted / WORD) + shifted % WORD;
    AddWords(shifted % WORD + y, shifted / WORD);
  }

  lemma AddWords(x: int, k: int)
    ensures (x + WORD * k) % WORD == x % WORD
  {
  }
}
