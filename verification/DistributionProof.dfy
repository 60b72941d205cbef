/** When a promo discount can be spread over the lines, and what every line then bears. */
module DistributionProof {
  import opened Kernel
  import opened Discounts
  import opened Distribution

  /** The proportional part of the discount `d` on a line of price `f`, rounded down. */
  function Proportion(d: int, total: int): int -> int
    requires total > 0
  {
    (f: int) => d * f / total
  }

  /** The discount left for the last line once every other one has borne its proportional part. */
  function Rest(finals: seq<int>, d: int): int
    requires finals != [] && Sum(finals, Price) > 0
  {
    d - Sum(finals[..|finals| - 1], Proportion(d, Sum(finals, Price)))
  }

  function ShareOf(finals: seq<int>, d: int, i: nat): int
    requires i < |finals| && Sum(finals, Price) > 0
  {
    if i == |finals| - 1 then Rest(finals, d) else Proportion(d, Sum(finals, Price))(finals[i])
  }

  /** The conditions under which no multiplication wraps. */
  ghost predicate Fits(finals: seq<int>, d: int) {
    && (forall f :: f in finals ==> 0 <= f && d * f <= MAX_INT64)
    && 0 <= d <= Sum(finals, Price) <= MAX_INT64 && 0 < Sum(finals, Price)
  }

  // ---------- rounding ----------

  lemma Cancel(a: int, b: int, m: int)
    requires m > 0 && m * a < m * (b + 1)
    ensures a <= b
  {
    if a > b { MulMonotone(b + 1, a, m); }
  }

  lemma Rounding(d: int, f: int, total: int)
    requires total > 0 && 0 <= f && 0 <= d <= total
    ensures var share := d * f / total;
      && total * share <= d * f <= total * share + (total - 1)
      && 0 <= share <= f
  {
    var share := d * f / total;
    MulMonotone(0, d, f);
    MulMonotone(d, total, f);
    assert d * f == total * share + d * f % total;
    assert total * (f + 1) == total * f + total;
    Cancel(share, f, total);
  }

  /** Rounding down loses less than one unit a line. */
  lemma {:induction false} RoundingOfSum(s: seq<int>, d: int, total: int)
    requires total > 0 && 0 <= d <= total && forall f :: f in s ==> f >= 0
    ensures total * Sum(s, Proportion(d, total)) <= d * Sum(s, Price)
    ensures d * Sum(s, Price) <= total * Sum(s, Proportion(d, total)) + |s| * (total - 1)
    ensures Sum(s, Proportion(d, total)) >= 0
  {
    if s != [] {
      var init, last := s[..|s| - 1], s[|s| - 1];
      assert forall f :: f in init ==> f in s;
      RoundingOfSum(init, d, total);
      assert last in s;
      Rounding(d, last, total);
      AddRounded(d, total, |init|, Sum(init, Price), Sum(init, Proportion(d, total)), last, d * last / total);
    }
  }

  lemma AddRounded(d: int, total: int, n: nat, sum: int, part: int, last: int, share: int)
    requires total * part <= d * sum <= total * part + n * (total - 1)
    requires total * share <= d * last <= total * share + (total - 1)
    ensures total * (part + share) <= d * (sum + last) <= total * (part + share) + (n + 1) * (total - 1)
  {
    assert total * (part + share) == total * part + total * share;
    assert d * (sum + last) == d * sum + d * last;
    assert (n + 1) * (total - 1) == n * (total - 1) + (total - 1);
  }

  /** What the first lines bear in proportion is never more than the discount. */
  lemma PartFits(finals: seq<int>, d: int, i: nat)
    requires Fits(finals, d) && i <= |finals|
    ensures 0 <= Sum(finals[..i], Proportion(d, Sum(finals, Price))) <= d
  {
    var total := Sum(finals, Price);
    forall f | f in finals[..i] ensures f >= 0 { assert f in finals; }
    RoundingOfSum(finals[..i], d, total);
    SumPart(finals, i, Price);
    BoundedPart(d, total, Sum(finals[..i], Price), Sum(finals[..i], Proportion(d, total)));
  }

  lemma BoundedPart(d: int, total: int, sum: int, part: int)
    requires total > 0 && d >= 0 && sum <= total && total * part <= d * sum
    ensures part <= d
  {
    MulMonotone(sum, total, d);
    assert total * (d + 1) == d * total + total;
    Cancel(part, d, total);
  }

  /** The last line bears its proportional part and at most one unit for each of the other lines. */
  lemma RestIsClose(finals: seq<int>, d: int)
    requires Fits(finals, d) && finals != []
    ensures var n := |finals|;
      var floor := Proportion(d, Sum(finals, Price))(finals[n - 1]);
      floor <= Rest(finals, d) <= floor + n - 1
  {
    var n, total := |finals|, Sum(finals, Price);
    var last, init := finals[n - 1], finals[..n - 1];
    PartFits(finals, d, n);
    assert finals[..n] == finals && last in finals && forall f :: f in init ==> f in finals;
    SumTake(finals, n - 1, Proportion(d, total));
    SumTake(finals, n - 1, Price);
    RoundingOfSum(init, d, total);
    Rounding(d, last, total);
    hide Sum, Fits;
    CloseEnough(d, total, Sum(init, Price), Sum(init, Proportion(d, total)), d * last / total, |init|, last);
  }

  lemma CloseEnough(d: int, total: int, sum: int, part: int, floor: int, k: nat, last: int)
    requires total > 0 && sum + last == total
    requires d * sum <= total * part + k * (total - 1)
    requires d * last <= total * floor + (total - 1)
    ensures d - part <= floor + k
  {
    assert d * sum + d * last == d * total;
    assert total * (d - part) == d * total - total * part;
    assert k * (total - 1) + (total - 1) == k * total + total - 1 - k;
    assert total * (floor + k + 1) == total * floor + k * total + total;
    assert total * (d - part) < total * (floor + k + 1);
    Cancel(d - part, floor + k, total);
  }

  // ---------- the loop ----------

  /** The line once it bears `share`, which leaves no trace when it is nothing. */
  function Taken(b: Breakdown, share: int, code: Code): Breakdown
    requires 0 <= share <= b.final.amount
  {
    if share == 0 then b else Reduced(b, share, code)
  }

  ghost predicate Priced(lines: seq<Breakdown>, currency: Currency) {
    lines != [] && IsCurrency(currency) && forall b :: b in lines ==> b.final.currency == currency
  }

  ghost predicate Bears(lines: seq<Breakdown>, spread: seq<Breakdown>, d: int, code: Code, i: nat)
    requires i < |lines| && Sum(Finals(lines), Price) > 0
  {
    var share := ShareOf(Finals(lines), d, i);
    && 0 <= share <= lines[i].final.amount && i < |spread|
    && spread[i] == Taken(lines[i], share, code)
  }

  lemma ProportionFits(lines: seq<Breakdown>, d: int, i: nat)
    requires Fits(Finals(lines), d) && i < |lines| - 1
    ensures var finals := Finals(lines);
      var total := Sum(finals, Price);
      var share := Quotient(Wrapped(d * lines[i].final.amount), total);
      && share == ShareOf(finals, d, i)
      && 0 <= share <= lines[i].final.amount
      && share <= d - Sum(finals[..i], Proportion(d, total))
      && Sum(finals[..i + 1], Proportion(d, total)) == Sum(finals[..i], Proportion(d, total)) + share
  {
    var finals := Finals(lines);
    assert finals[i] in finals;
    MulMonotone(0, d, finals[i]);
    WrapsNothing(d * finals[i]);
    Rounding(d, finals[i], Sum(finals, Price));
    SumTake(finals, i, Proportion(d, Sum(finals, Price)));
    PartFits(finals, d, i + 1);
  }

  /** Once nothing is left, no later line has anything to bear. */
  lemma {:induction false} NothingLeftToBear(lines: seq<Breakdown>, d: int, i: nat, j: nat)
    requires Fits(Finals(lines), d) && i <= j < |lines|
    requires d == Sum(Finals(lines)[..i], Proportion(d, Sum(Finals(lines), Price)))
    ensures ShareOf(Finals(lines), d, j) == 0
    decreases j - i
  {
    if i < |lines| - 1 {
      ProportionFits(lines, d, i);
      if i < j { NothingLeftToBear(lines, d, i + 1, j); }
    }
  }

  /** What the loop arrives at from line `i` on. */
  ghost predicate Outcome(lines: seq<Breakdown>, cur: seq<Breakdown>, i: nat, d: int, code: Code,
      r: Result<seq<Breakdown>, PricingError>)
    requires i < |lines| == |cur| && Sum(Finals(lines), Price) > 0
  {
    var finals := Finals(lines);
    match r
    case Ok(spread) =>
      && |spread| == |lines| && spread[..i] == cur[..i]
      && Rest(finals, d) <= finals[|finals| - 1]
      && forall j :: i <= j < |lines| ==> Bears(lines, spread, d, code, j)
    case Err(_) => Rest(finals, d) > finals[|finals| - 1]
  }

  lemma OutcomeOfNothing(lines: seq<Breakdown>, cur: seq<Breakdown>, i: nat, d: int, code: Code)
    requires Fits(Finals(lines), d) && |cur| == |lines| && i < |lines| && cur[i..] == lines[i..]
    requires d == Sum(Finals(lines)[..i], Proportion(d, Sum(Finals(lines), Price)))
    ensures Outcome(lines, cur, i, d, code, Ok(cur))
  {
    hide Bears, Rest;
    forall j | i <= j < |lines| ensures Bears(lines, cur, d, code, j) {
      NothingLeftToBear(lines, d, i, j);
      assert cur[j] == cur[i..][j - i] == lines[i..][j - i] == lines[j];
      BearsNothing(lines, cur, d, code, j);
    }
    NothingLeftToBear(lines, d, i, |lines| - 1);
    LastShare(Finals(lines), d);
  }

  lemma OutcomeOfLast(lines: seq<Breakdown>, cur: seq<Breakdown>, left: int, discount: Money, code: Code)
    requires Priced(lines, discount.currency) && Fits(Finals(lines), discount.amount)
    requires |cur| == |lines| && cur[|lines| - 1] == lines[|lines| - 1]
    requires left == Rest(Finals(lines), discount.amount) != 0
    ensures Outcome(lines, cur, |lines| - 1, discount.amount, code,
                    Spread(cur, |lines| - 1, left, Sum(Finals(lines), Price), discount, code))
  {
    hide Bears, Quotient, Wrapped;
    var d, finals, i := discount.amount, Finals(lines), |lines| - 1;
    assert lines[i] in lines;
    PartFits(finals, d, i);
    LastShare(finals, d);
    if left <= finals[i] {
      var spread := cur[i := Reduced(cur[i], left, code)];
      BearsShare(lines, spread, d, code, i);
    }
  }

  lemma SpreadStep(cur: seq<Breakdown>, i: nat, left: int, total: int, discount: Money, code: Code)
    requires i < |cur| - 1 && total > 0 && left != 0 && cur[i].final.currency == discount.currency
      && IsCurrency(discount.currency)
    requires 0 <= Quotient(Wrapped(discount.amount * cur[i].final.amount), total) <= left
    requires Quotient(Wrapped(discount.amount * cur[i].final.amount), total) <= cur[i].final.amount
    ensures var share := Quotient(Wrapped(discount.amount * cur[i].final.amount), total);
      Spread(cur, i, left, total, discount, code)
      == Spread(cur[i := Taken(cur[i], share, code)], i + 1, left - share, total, discount, code)
  {
    hide Quotient, Wrapped;
    assert cur[i := cur[i]] == cur;
  }

  lemma OutcomeOfStep(lines: seq<Breakdown>, cur: seq<Breakdown>, next: seq<Breakdown>, i: nat, d: int, code: Code,
      r: Result<seq<Breakdown>, PricingError>)
    requires |cur| == |lines| && i + 1 < |lines| && Sum(Finals(lines), Price) > 0
    requires 0 <= ShareOf(Finals(lines), d, i) <= lines[i].final.amount
    requires next == cur[i := Taken(lines[i], ShareOf(Finals(lines), d, i), code)]
    requires Outcome(lines, next, i + 1, d, code, r)
    ensures Outcome(lines, cur, i, d, code, r)
  {
    hide Bears, Rest, Finals;
    if r.Ok? {
      var spread := r.value;
      assert spread[..i] == cur[..i] by { assert spread[..i] == spread[..i + 1][..i] == next[..i + 1][..i]; }
      assert spread[i] == next[i] by { assert spread[..i + 1][i] == next[..i + 1][i]; }
      BearsShare(lines, spread, d, code, i);
    }
  }

  lemma {:induction false} SpreadFrom(lines: seq<Breakdown>, cur: seq<Breakdown>, i: nat, discount: Money, code: Code)
    requires Priced(lines, discount.currency) && Fits(Finals(lines), discount.amount)
    requires |cur| == |lines| && i < |lines| && cur[i..] == lines[i..]
    ensures var finals := Finals(lines);
      var total := Sum(finals, Price);
      var left := discount.amount - Sum(finals[..i], Proportion(discount.amount, total));
      Outcome(lines, cur, i, discount.amount, code, Spread(cur, i, left, total, discount, code))
    decreases |lines| - i
  {
    hide Outcome, Fits, Quotient, Wrapped, ShareOf, Proportion, Rest, Sum, Reduced;
    FitsMeans(Finals(lines), discount.amount);
    var d, finals := discount.amount, Finals(lines);
    var total := Sum(finals, Price);
    var left := d - Sum(finals[..i], Proportion(d, total));
    assert cur[i] == lines[i] && lines[i] in lines by { assert cur[i..][0] == lines[i..][0]; }
    if left == 0 {
      OutcomeOfNothing(lines, cur, i, d, code);
    } else if i == |lines| - 1 {
      RestIs(finals, d);
      OutcomeOfLast(lines, cur, left, discount, code);
    } else {
      hide Spread;
      ProportionFits(lines, d, i);
      SpreadStep(cur, i, left, total, discount, code);
      var share := ShareOf(finals, d, i);
      var next := cur[i := Taken(cur[i], share, code)];
      assert next[i + 1..] == cur[i..][1..] == lines[i..][1..] == lines[i + 1..];
      SpreadFrom(lines, next, i + 1, discount, code);
      OutcomeOfStep(lines, cur, next, i, d, code, Spread(next, i + 1, left - share, total, discount, code));
    }
  }

  lemma FitsMeans(finals: seq<int>, d: int)
    requires Fits(finals, d)
    ensures 0 <= d <= Sum(finals, Price) && Sum(finals, Price) > 0 && forall f :: f in finals ==> 0 <= f
  {
  }

  lemma LastShare(finals: seq<int>, d: int)
    requires finals != [] && Sum(finals, Price) > 0 && forall f :: f in finals ==> 0 <= f
    ensures ShareOf(finals, d, |finals| - 1) == Rest(finals, d)
    ensures Rest(finals, d) == 0 ==> Rest(finals, d) <= finals[|finals| - 1]
  {
    assert finals[|finals| - 1] in finals;
  }

  lemma RestIs(finals: seq<int>, d: int)
    requires finals != [] && Sum(finals, Price) > 0
    ensures Rest(finals, d) == d - Sum(finals[..|finals| - 1], Proportion(d, Sum(finals, Price)))
  {
  }

  lemma BearsNothing(lines: seq<Breakdown>, spread: seq<Breakdown>, d: int, code: Code, i: nat)
    requires i < |lines| == |spread| && Sum(Finals(lines), Price) > 0
    requires ShareOf(Finals(lines), d, i) == 0 && spread[i] == lines[i]
    ensures Bears(lines, spread, d, code, i)
  {
  }

  lemma BearsShare(lines: seq<Breakdown>, spread: seq<Breakdown>, d: int, code: Code, i: nat)
    requires i < |lines| == |spread| && Sum(Finals(lines), Price) > 0
    requires 0 <= ShareOf(Finals(lines), d, i) <= lines[i].final.amount
    requires spread[i] == Taken(lines[i], ShareOf(Finals(lines), d, i), code)
    ensures Bears(lines, spread, d, code, i)
  {
  }

  // ---------- the result ----------

  lemma {:induction false} ReducedSum(lines: seq<Breakdown>, spread: seq<Breakdown>, d: int, code: Code, k: nat)
    requires Fits(Finals(lines), d) && |spread| == |lines| && k < |lines|
    requires forall i :: 0 <= i < |lines| ==> Bears(lines, spread, d, code, i)
    ensures var finals := Finals(lines);
      Sum(Finals(spread)[..k], Price) == Sum(finals[..k], Price) - Sum(finals[..k], Proportion(d, Sum(finals, Price)))
  {
    var finals := Finals(lines);
    if k > 0 {
      ReducedSum(lines, spread, d, code, k - 1);
      SumTake(Finals(spread), k - 1, Price);
      SumTake(finals, k - 1, Price);
      SumTake(finals, k - 1, Proportion(d, Sum(finals, Price)));
      assert Bears(lines, spread, d, code, k - 1);
    }
  }

  /** Without wrap-around a discount that is not more than the total can be spread exactly when what the proportional
      parts leave over is not more than the price of the last line. Every line but the last then bears its part rounded
      down and the last line the rest: at most one unit more than its own part for each of the other lines. No line
      bears more than its price, and together they bear the discount. */
  lemma DistributionIsExact(lines: seq<Breakdown>, discount: Money, code: Code)
    requires Priced(lines, discount.currency) && Fits(Finals(lines), discount.amount)
    ensures var d, finals, r := discount.amount, Finals(lines), Distributed(lines, discount, code);
      var n := |lines|;
      && (r.Ok? <==> Rest(finals, d) <= finals[n - 1])
      && Proportion(d, Sum(finals, Price))(finals[n - 1]) <= Rest(finals, d)
         <= Proportion(d, Sum(finals, Price))(finals[n - 1]) + n - 1
      && (r.Ok? ==>
          && |r.value| == n
          && (forall i :: 0 <= i < n ==> Bears(lines, r.value, d, code, i))
          && Sum(Finals(r.value), Price) == Sum(finals, Price) - d)
  {
    var d, finals, r := discount.amount, Finals(lines), Distributed(lines, discount, code);
    var total := Sum(finals, Price);
    WrapsNothing(total);
    assert finals[..0] == [];
    SpreadFrom(lines, lines, 0, discount, code);
    RestIsClose(finals, d);
    if r.Ok? {
      var n := |lines|;
      hide Bears;
      ReducedSum(lines, r.value, d, code, n - 1);
      SumTake(Finals(r.value), n - 1, Price);
      SumTake(finals, n - 1, Price);
      assert Finals(r.value)[..n] == Finals(r.value) && finals[..n] == finals;
      BearsLast(lines, r.value, d, code);
      RestIs(finals, d);
    }
  }

  lemma BearsLast(lines: seq<Breakdown>, spread: seq<Breakdown>, d: int, code: Code)
    requires lines != [] && |spread| == |lines| && Sum(Finals(lines), Price) > 0
      && Bears(lines, spread, d, code, |lines| - 1)
    ensures spread[|lines| - 1].final.amount == lines[|lines| - 1].final.amount - Rest(Finals(lines), d)
  {
  }

  /** Two lines of 100 and one of 1 cannot take a discount of 100: the proportional parts leave 2 for the last line. */
  lemma SmallLastLineRefuses(lines: seq<Breakdown>, currency: Currency, code: Code)
    requires Priced(lines, currency) && Finals(lines) == [100, 100, 1]
    ensures Fits(Finals(lines), 100) && Rest(Finals(lines), 100) == 2
    ensures Distributed(lines, Money(100, currency), code).Err?
  {
    var finals := Finals(lines);
    assert finals[..2] == [100, 100] && finals[..2][..1] == [100] && [100, 100][..1] == [100]
      && finals[..2][..1][..0] == [];
    assert Sum([100], Price) == 100;
    assert Sum([100, 100], Price) == 200;
    assert Sum(finals, Price) == 201;
    assert Sum([100], Proportion(100, 201)) == 49;
    assert Sum([100, 100], Proportion(100, 201)) == 98;
    DistributionIsExact(lines, Money(100, currency), code);
  }

  /** Two lines of 40 million in major units refuse a discount of 40 million that the rest would allow, because the
      product of discount and price wraps around to a negative number. */
  lemma LargeAmountsWrap(lines: seq<Breakdown>, currency: Currency, code: Code)
    requires Priced(lines, currency) && Finals(lines) == [4_000_000_000, 4_000_000_000]
    ensures Distributed(lines, Money(4_000_000_000, currency), code) == Err(Negative)
    ensures Sum(Finals(lines), Price) == 8_000_000_000
    ensures Rest(Finals(lines), 4_000_000_000) == 2_000_000_000 <= Finals(lines)[1]
  {
    var big: int := 4_000_000_000;
    var finals := Finals(lines);
    assert finals[..1] == [big] && finals[..1][..0] == [];
    assert Sum([big], Price) == big;
    assert Sum(finals, Price) == 8_000_000_000;
    assert Sum([big], Proportion(big, 8_000_000_000)) == 2_000_000_000;
    assert lines[0].final.amount == finals[0];
    assert Wrapped(big * big) == 16_000_000_000_000_000_000 - WORD;
    assert lines[0] in lines;
  }

  // ---------- when products may wrap ----------

  /** What the loop computes for each line, wrap-around included. */
  function Parts(finals: seq<int>, d: int, total: int): (r: seq<int>)
    requires total != 0
    ensures |r| == |finals| && forall i :: 0 <= i < |r| ==> r[i] == Quotient(Wrapped(d * finals[i]), total)
  {
    seq(|finals|, i requires 0 <= i < |finals| => Quotient(Wrapped(d * finals[i]), total))
  }

  /** The lines before `m` bear their parts, and line `m` whatever is left: it is the last one, or its part is no
      less. */
  ghost predicate Exhausts(finals: seq<int>, d: int, total: int, m: nat)
    requires total != 0
  {
    m < |finals| && (
      var parts := Parts(finals, d, total);
      var before := Sum(parts[..m], Price);
      && (forall i :: 0 <= i < m ==> 0 <= parts[i] <= finals[i])
      && before <= d <= before + finals[m]
      && (m == |finals| - 1 || d <= before + parts[m]))
  }

  /** While the parts are not negative, what they add up to grows. */
  lemma {:induction false} PartsGrow(parts: seq<int>, i: nat, m: nat)
    requires i <= m <= |parts| && forall j :: i <= j < m ==> 0 <= parts[j]
    ensures Sum(parts[..i], Price) <= Sum(parts[..m], Price)
  {
    if i < m {
      PartsGrow(parts, i, m - 1);
      SumTake(parts, m - 1, Price);
    }
  }

  /** Only line `i` itself can exhaust what is left when its part is no less. */
  lemma LargePartExhausts(finals: seq<int>, d: int, total: int, i: nat, m: nat)
    requires total != 0 && i < m && Exhausts(finals, d, total, m)
    ensures var parts := Parts(finals, d, total);
      0 <= parts[i] <= finals[i] && Sum(parts[..i], Price) + parts[i] <= d
  {
    var parts := Parts(finals, d, total);
    PartsGrow(parts, i + 1, m);
    SumTake(parts, i, Price);
  }

  ghost predicate ExhaustsFrom(finals: seq<int>, d: int, total: int, i: nat)
    requires total != 0
  {
    exists m :: i <= m && Exhausts(finals, d, total, m)
  }

  lemma ExhaustsHere(finals: seq<int>, d: int, total: int, i: nat)
    requires total != 0 && i < |finals| && Sum(Parts(finals, d, total)[..i], Price) < d
    requires forall j :: 0 <= j < i ==> 0 <= Parts(finals, d, total)[j] <= finals[j]
    ensures var part, left := Parts(finals, d, total)[i], d - Sum(Parts(finals, d, total)[..i], Price);
      && (i == |finals| - 1 || part >= left ==> (ExhaustsFrom(finals, d, total, i) <==> left <= finals[i]))
      && (i < |finals| - 1 && part < left ==>
          (ExhaustsFrom(finals, d, total, i) <==> 0 <= part <= finals[i] && ExhaustsFrom(finals, d, total, i + 1)))
  {
    hide Sum;
    var parts := Parts(finals, d, total);
    var left := d - Sum(parts[..i], Price);
    if (i == |finals| - 1 || parts[i] >= left) && left <= finals[i] { assert Exhausts(finals, d, total, i); }
    if ExhaustsFrom(finals, d, total, i) {
      var m :| i <= m && Exhausts(finals, d, total, m);
      if i < m { LargePartExhausts(finals, d, total, i, m); }
    }
  }

  /** From line `i` on, with something left, the loop succeeds exactly when some line exhausts the discount. */
  lemma {:induction false} SpreadExhausts(lines: seq<Breakdown>, cur: seq<Breakdown>, i: nat, left: int, total: int,
                                          discount: Money, code: Code)
    requires Priced(lines, discount.currency) && total != 0 && |cur| == |lines| && i < |lines| && left > 0
    requires forall j :: i <= j < |lines| ==> cur[j] == lines[j]
    requires var parts := Parts(Finals(lines), discount.amount, total);
      && left == discount.amount - Sum(parts[..i], Price)
      && forall j :: 0 <= j < i ==> 0 <= parts[j] <= Finals(lines)[j]
    ensures Spread(cur, i, left, total, discount, code).Ok? <==> ExhaustsFrom(Finals(lines), discount.amount, total, i)
    decreases |lines| - i
  {
    hide Sum, ExhaustsFrom, Exhausts, Wrapped, Quotient;
    var finals := Finals(lines);
    var part := Parts(finals, discount.amount, total)[i];
    assert cur[i] == lines[i] && lines[i] in lines;
    ExhaustsHere(finals, discount.amount, total, i);
    if i < |lines| - 1 && 0 <= part < left && part <= finals[i] {
      SumTake(Parts(finals, discount.amount, total), i, Price);
      var next := if part == 0 then cur else cur[i := Reduced(cur[i], part, code)];
      SpreadExhausts(lines, next, i + 1, left - part, total, discount, code);
    }
  }

  /** For every discount and all lines, whether or not a product wraps around: the discount can be spread exactly when
      one line can bear what the parts of the lines before it leave, none of these being negative or more than its
      price. */
  lemma DistributionSucceedsExactly(lines: seq<Breakdown>, discount: Money, code: Code)
    requires Priced(lines, discount.currency)
    ensures var total := Wrapped(Sum(Finals(lines), Price));
      Distributed(lines, discount, code).Ok?
      <==> total == 0 || discount.amount == 0 || ExhaustsFrom(Finals(lines), discount.amount, total, 0)
  {
    hide ExhaustsFrom, Wrapped;
    var total := Wrapped(Sum(Finals(lines), Price));
    if total != 0 && discount.amount > 0 {
      assert Parts(Finals(lines), discount.amount, total)[..0] == [];
      SpreadExhausts(lines, lines, 0, discount.amount, total, discount, code);
    }
  }
}
