/** Discount rules and promo codes. */
module Discounts {
  import opened Kernel

  type SKU = string
  type Code = string

  datatype CartLine = CartLine(
    sku: SKU, seller: Reference, product: Reference, categories: seq<Reference>, unitPrice: Money, quantity: Quantity)

  datatype PricingError =
    | EmptyQuote | CurrencyMismatch | InvalidCurrency | InvalidQuantity | InvalidDiscount | Overflow | Negative
    | PromoInactive | PromoExpired | PromoDepleted | PromoPerBuyer | BelowMinimum | PromoAlreadyUsed | InvalidId

  predicate IsCurrency(c: Currency) {
    |c| == 3 && forall i :: 0 <= i < 3 ==> 'A' <= c[i] <= 'Z'
  }

  datatype Kind = PercentageKind | FixedKind | BuyNGetMKind

  datatype DiscountSpec = DiscountSpec(
    kind: Kind, basisPoints: int, amount: int, currency: Currency, buyQuantity: int, freeUnits: int)
  {
    predicate Valid() {
      match kind
      case PercentageKind => 0 < basisPoints <= MAX_BASIS_POINTS
      case FixedKind => 0 < amount <= MAX_INT64 && IsCurrency(currency)
      case BuyNGetMKind => 0 < freeUnits < buyQuantity
    }
  }

  datatype Target = Target(skus: seq<SKU>, sellers: seq<Reference>, categories: seq<Reference>) {
    predicate Matches(line: CartLine) {
      || line.sku in skus
      || line.seller in sellers
      || exists c :: c in categories && c in line.categories
    }
  }

  datatype Rule =
    | Percentage(id: Reference, target: Target, priority: int, exclusive: bool, points: BasisPoints)
    | Fixed(id: Reference, target: Target, priority: int, exclusive: bool, off: Money)
    | BuyNGetM(id: Reference, target: Target, priority: int, exclusive: bool, buy: int, free: int)
  {
    predicate Valid() { BuyNGetM? ==> 0 < free < buy }

    predicate IsApplicable(line: CartLine) {
      match this
      case Percentage(_, target, _, _, _) => target.Matches(line)
      case Fixed(_, target, _, _, off) => target.Matches(line) && off.currency == line.unitPrice.currency
      case BuyNGetM(_, target, _, _, buy, _) => target.Matches(line) && line.quantity >= buy
    }

    /** What the rule takes off the current price of a line. */
    function Discount(current: Money, line: CartLine): Money
      requires Valid()
    {
      match this
      case Percentage(_, _, _, _, points) => current.ApplyPercent(points)
      case Fixed(_, _, _, _, off) => AtMost(off, current)
      case BuyNGetM(_, _, _, _, buy, free) =>
        var units := line.quantity / buy * free;
        if units > MAX_QUANTITY then Money(0, current.currency)
        else
          FreeUnits(line.quantity, buy, free);
          match line.unitPrice.MulQuantity(units)
          case Err(_) => current
          case Ok(discount) => AtMost(discount, current)
    }
  }

  /** `m`, unless it is more than `limit` or in another currency. */
  function AtMost(m: Money, limit: Money): Money {
    if m.currency != limit.currency || m.amount > limit.amount then limit else m
  }

  lemma FreeUnits(quantity: Quantity, buy: int, free: int)
    requires 0 < free < buy
    ensures 0 <= quantity / buy * free <= quantity
  {
    MulMonotone(0, quantity / buy, free);
    MulMonotone(free, buy, quantity / buy);
  }

  function NewRule(id: Reference, spec: DiscountSpec, target: Target, priority: int,
      exclusive: bool): (r: Result<Rule, PricingError>)
    ensures r.Ok? <==> spec.Valid()
    ensures r.Ok? ==>
      r.value.Valid() && r.value.id == id && r.value.priority == priority && r.value.exclusive == exclusive
  {
    if !spec.Valid() then Err(InvalidDiscount)
    else match spec.kind
      case PercentageKind => Ok(Percentage(id, target, priority, exclusive, spec.basisPoints))
      case FixedKind => Ok(Fixed(id, target, priority, exclusive, Money(spec.amount, spec.currency)))
      case BuyNGetMKind => Ok(BuyNGetM(id, target, priority, exclusive, spec.buyQuantity, spec.freeUnits))
  }

  /** No rule takes more than the current price, in whatever state the line is, so subtracting its discount never fails
      and the branch that caps it is never taken. The set of free units always fits too. */
  lemma DiscountFits(rule: Rule, current: Money, line: CartLine)
    requires rule.Valid()
    ensures var off := rule.Discount(current, line);
      off.currency == current.currency && off.amount <= current.amount && current.Sub(off).Ok?
    ensures rule.BuyNGetM? ==> line.quantity / rule.buy * rule.free <= MAX_QUANTITY
  {
    if rule.BuyNGetM? { FreeUnits(line.quantity, rule.buy, rule.free); }
  }

  /** Buying n and getting m takes exactly the price of m units for every n bought, up to the current price. */
  lemma FreeUnitsAreFree(rule: Rule, current: Money, line: CartLine)
    requires rule.Valid() && rule.BuyNGetM? && current.currency == line.unitPrice.currency
    ensures var worth := line.unitPrice.amount * (line.quantity / rule.buy * rule.free);
      rule.Discount(current, line).amount == if worth <= current.amount then worth else current.amount
  {
    FreeUnits(line.quantity, rule.buy, rule.free);
    MulMonotone(0, line.unitPrice.amount, line.quantity / rule.buy * rule.free);
  }

  // ---------- promo codes ----------

  datatype Redemption = Redemption(order: Reference, customer: Reference, amount: Money, at: Time)

  datatype Promo = Promo(
    code: Code, spec: DiscountSpec, minCart: Money, totalLimit: int, perCustomerLimit: int, used: int, active: bool,
    startsAt: Time, endsAt: Time, redemptions: seq<Redemption>, releases: seq<Reference>)
  {
    /** Anything that is not a percentage is taken as a fixed amount in the currency of the cart. */
    function Discount(subtotal: Money): (r: Result<Money, PricingError>)
      ensures r.Ok? ==> r.value.currency == subtotal.currency && r.value.amount <= subtotal.amount
    {
      if spec.kind == PercentageKind then
        if 0 <= spec.basisPoints <= MAX_BASIS_POINTS then Ok(subtotal.ApplyPercent(spec.basisPoints))
          else Err(InvalidDiscount)
      else if !(0 <= spec.amount <= MAX_INT64) || !IsCurrency(subtotal.currency) then Err(InvalidDiscount)
      else Ok(AtMost(Money(spec.amount, subtotal.currency), subtotal))
    }

    function EnsureUsable(subtotal: Money, customerUsage: int, now: Time): Option<PricingError> {
      if !active then Some(PromoInactive)
      else if startsAt != NO_TIME && now < startsAt then Some(PromoExpired)
      else if endsAt != NO_TIME && endsAt <= now then Some(PromoExpired)
      else if totalLimit > 0 && used >= totalLimit then Some(PromoDepleted)
      else if perCustomerLimit > 0 && customerUsage >= perCustomerLimit then Some(PromoPerBuyer)
      else if minCart.IsZero() then None
      else if subtotal.currency != minCart.currency then Some(CurrencyMismatch)
      else if subtotal.amount < minCart.amount then Some(BelowMinimum)
      else None
    }

    function Redeem(order: Reference, customer: Reference, subtotal: Money, customerUsage: int,
        now: Time): Result<Promo, PricingError> {
      if order == BLANK || customer == BLANK then Err(InvalidId)
      else if exists r :: r in redemptions && r.order == order then Err(PromoAlreadyUsed)
      else match EnsureUsable(subtotal, customerUsage, now)
        case Some(e) => Err(e)
        case None =>
          match Discount(subtotal)
          case Err(e) => Err(e)
          case Ok(amount) => Ok(this.(used := used + 1,
            redemptions := redemptions + [Redemption(order, customer, amount, now)]))
    }

    /** `redeemed` is what the store knows: whether the order has a redemption. */
    function Release(order: Reference, redeemed: bool): Result<Promo, PricingError> {
      if order == BLANK then Err(InvalidId)
      else if !redeemed || order in releases then Ok(this)
      else Ok(this.(used := if used > 0 then used - 1 else used, releases := releases + [order]))
    }
  }

  /** Releasing what was just redeemed gives the use back, and releasing it again changes nothing. */
  lemma ReleaseUndoesRedeem(p: Promo, order: Reference, customer: Reference, subtotal: Money, usage: int, now: Time)
    requires p.used >= 0 && order !in p.releases && p.Redeem(order, customer, subtotal, usage, now).Ok?
    ensures var q := p.Redeem(order, customer, subtotal, usage, now).value;
      && q.used == p.used + 1 && (p.totalLimit > 0 ==> q.used <= p.totalLimit)
      && q.Release(order, true).Ok?
      && (var back := q.Release(order, true).value;
          back.used == p.used && back.Release(order, true) == Ok(back) && q.Release(order, false) == Ok(q))
  {
    var q := p.Redeem(order, customer, subtotal, usage, now).value;
    assert (q.releases + [order])[|q.releases|] == order;
  }

  class PromoCode {
    const code: Code
    const spec: DiscountSpec
    const minCart: Money
    const totalLimit: int
    const perCustomerLimit: int
    const startsAt: Time
    const endsAt: Time
    var used: int
    var active: bool
    var redemptions: seq<Redemption>
    var releases: seq<Reference>

    function State(): Promo
      reads this
    {
      Promo(code, spec, minCart, totalLimit, perCustomerLimit, used, active, startsAt, endsAt, redemptions, releases)
    }

    ghost predicate Became(was: Promo, result: Result<Promo, PricingError>, error: Option<PricingError>)
      reads this
    {
      match result
      case Ok(next) => error == None && State() == next
      case Err(e) => error == Some(e) && State() == was
    }

    constructor Rehydrate(p: Promo)
      ensures State() == p
    {
      code, spec, minCart, totalLimit, perCustomerLimit := p.code, p.spec, p.minCart, p.totalLimit, p.perCustomerLimit;
      startsAt, endsAt, used, active, redemptions, releases := p.startsAt, p.endsAt, p.used, p.active, p.redemptions,
        p.releases;
    }

    method Redeem(order: Reference, customer: Reference, subtotal: Money, customerUsage: int, now: Time)
      returns (error: Option<PricingError>)
      modifies this
      ensures Became(old(State()), old(State()).Redeem(order, customer, subtotal, customerUsage, now), error)
    {
      if order == BLANK || customer == BLANK { return Some(InvalidId); }
      if exists r :: r in redemptions && r.order == order { return Some(PromoAlreadyUsed); }
      error := State().EnsureUsable(subtotal, customerUsage, now);
      if error != None { return; }
      var amount := State().Discount(subtotal);
      if amount.Err? { return Some(amount.error); }
      used := used + 1;
      redemptions := redemptions + [Redemption(order, customer, amount.value, now)];
    }

    method Release(order: Reference, redeemed: bool) returns (error: Option<PricingError>)
      modifies this
      ensures Became(old(State()), old(State()).Release(order, redeemed), error)
    {
      if order == BLANK { return Some(InvalidId); }
      if !redeemed || order in releases { return None; }
      if used > 0 { used := used - 1; }
      releases := releases + [order];
      error := None;
    }
  }
}
