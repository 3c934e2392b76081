/** The price of a fill, and what any sequence of fills does to one order. */
module OrderPricing {
  import opened Outcomes
  import opened Accounting

  /** V0 prices by what remains of the order, V1 by its original amounts. */
  datatype Version = V0 | V1

  /** `calculate_filled_amount`: rounding down; nothing for an empty ask or an overflow. */
  function FilledAmount(ask: Amount, give: Amount, fill: Amount): Option<Amount> {
    if ask == 0 then None
    else
      var result := give * fill / ask;
      if 0 <= result <= U128_MAX then Some(result) else None
  }

  lemma SquareBounds(x: nat, y: nat, m: nat)
    requires x <= m && y <= m
    ensures 0 <= x * y <= m * m
  {
    ScaleUp(m, x, y);
    ScaleUp(m, y, m);
  }

  /** The 256-bit product of two amounts cannot overflow. */
  lemma ProductFits(give: Amount, fill: Amount)
    ensures 0 <= give * fill < 0x1_0000_0000_0000_0000_0000_0000_0000_0000 * 0x1_0000_0000_0000_0000_0000_0000_0000_0000
  {
    SquareBounds(give, fill, U128_MAX);
  }

  /** Rounding down loses less than one atom. */
  lemma FloorBounds(x: nat, d: nat)
    requires d > 0
    ensures d * (x / d) <= x < d * (x / d) + d
  {}

  lemma DivideOut(d: nat, a: int, b: int)
    requires d > 0
    ensures d * a <= d * b <==> a <= b
    ensures d * a < d * b <==> a < b
  {
    MultipleSign(d, b - a);
    assert d * b - d * a == d * (b - a);
  }

  lemma MultipleSign(d: nat, x: int)
    requires d > 0
    ensures x > 0 <==> d * x > 0
    ensures x < 0 <==> d * x < 0
  {}

  /** An order with original amounts `askTotal`, `giveTotal` and what remains of them. */
  datatype Book = Book(askTotal: Amount, giveTotal: Amount, ask: Amount, give: Amount)

  /**
   The remaining give covers the remaining ask at the original price; both remainders are within
   the original amounts.
   */
  predicate Covered(b: Book) {
    && 0 < b.askTotal && 0 < b.giveTotal
    && b.ask <= b.askTotal && b.give <= b.giveTotal
    && b.give * b.askTotal >= b.giveTotal * b.ask
  }

  /** What a fill is paid, before the overbid and underbid checks. */
  function Quote(b: Book, fill: Amount, version: Version): Option<Amount> {
    if version.V0? then FilledAmount(b.ask, b.give, fill) else FilledAmount(b.askTotal, b.giveTotal, fill)
  }

  /** Whether a fill goes through: it must not exceed the ask, and V1 must pay at least one atom. */
  predicate Fills(b: Book, fill: Amount, version: Version) {
    fill <= b.ask && Quote(b, fill, version).Some? && (version.V1? ==> Quote(b, fill, version).value > 0)
  }

  function AfterFill(b: Book, fill: Amount, version: Version): Book
    requires Fills(b, fill, version) && Quote(b, fill, version).value <= b.give
  {
    b.(ask := b.ask - fill, give := b.give - Quote(b, fill, version).value)
  }

  /** Paying at most the original price keeps the remainder covered. */
  lemma OriginalPriceArithmetic(askTotal: nat, giveTotal: nat, ask: nat, give: nat, fill: nat, pay: nat)
    requires 0 < askTotal && fill <= ask && give * askTotal >= giveTotal * ask && askTotal * pay <= giveTotal * fill
    ensures pay <= give
    ensures (give - pay) * askTotal >= giveTotal * (ask - fill)
  {
    assert giveTotal * (ask - fill) == giveTotal * ask - giveTotal * fill;
    assert (give - pay) * askTotal == give * askTotal - askTotal * pay;
    assert giveTotal * (ask - fill) >= 0;
    DivideOut(askTotal, pay, give);
  }

  /** So does paying at most the remaining give in proportion. */
  lemma RemainingPriceArithmetic(askTotal: nat, giveTotal: nat, ask: nat, give: nat, fill: nat, pay: nat)
    requires 0 < ask && fill <= ask && give * askTotal >= giveTotal * ask && ask * pay <= give * fill
    ensures pay <= give
    ensures (give - pay) * askTotal >= giveTotal * (ask - fill)
  {
    PayWithin(ask, give, fill, pay);
    var left, rest := give - pay, ask - fill;
    LeftInProportion(ask, give, fill, pay);
    ScaleUp(ask * left, give * rest, askTotal);
    ScaleUp(give * askTotal, giveTotal * ask, rest);
    Regroup(ask, left, askTotal);
    Regroup(give, rest, askTotal);
    Regroup(giveTotal, ask, rest);
    DivideOut(ask, giveTotal * rest, left * askTotal);
  }

  lemma LeftInProportion(ask: nat, give: nat, fill: nat, pay: nat)
    requires ask * pay <= give * fill
    ensures ask * (give - pay) >= give * (ask - fill)
  {
    assert ask * (give - pay) == ask * give - ask * pay;
    assert give * (ask - fill) == give * ask - give * fill;
  }

  lemma Regroup(a: int, b: int, c: int)
    ensures (a * b) * c == a * (b * c) == (a * c) * b == b * (a * c)
  {}

  lemma PayWithin(ask: nat, give: nat, fill: nat, pay: nat)
    requires 0 < ask && fill <= ask && ask * pay <= give * fill
    ensures pay <= give
  {
    ScaleUp(ask, fill, give);
    DivideOut(ask, pay, give);
  }

  lemma ScaleUp(x: int, y: int, k: nat)
    requires x >= y
    ensures x * k >= y * k
  {}

  lemma RemainingPriceRounded(askTotal: nat, giveTotal: nat, ask: nat, give: nat, fill: nat)
    requires 0 < ask && fill <= ask && give * askTotal >= giveTotal * ask
    ensures 0 <= give * fill / ask <= give
    ensures (give - give * fill / ask) * askTotal >= giveTotal * (ask - fill)
  {
    FloorBounds(give * fill, ask);
    RemainingPriceArithmetic(askTotal, giveTotal, ask, give, fill, give * fill / ask);
  }

  lemma OriginalPriceRounded(askTotal: nat, giveTotal: nat, ask: nat, give: nat, fill: nat)
    requires 0 < askTotal && fill <= ask && give * askTotal >= giveTotal * ask
    ensures 0 <= giveTotal * fill / askTotal <= give
    ensures (give - giveTotal * fill / askTotal) * askTotal >= giveTotal * (ask - fill)
  {
    FloorBounds(giveTotal * fill, askTotal);
    OriginalPriceArithmetic(askTotal, giveTotal, ask, give, fill, giveTotal * fill / askTotal);
  }

  /** A covered order can pay any fill within its ask, under either version, and stays covered. */
  lemma FillKeepsCovered(b: Book, fill: Amount, version: Version)
    requires Covered(b) && Fills(b, fill, version)
    ensures Quote(b, fill, version).value <= b.give
    ensures Covered(AfterFill(b, fill, version))
  {
    if version.V0? {
      RemainingPriceRounded(b.askTotal, b.giveTotal, b.ask, b.give, fill);
    } else {
      OriginalPriceRounded(b.askTotal, b.giveTotal, b.ask, b.give, fill);
    }
  }

  /** The division never overflows on a covered order: only an empty ask has no quote, and only for V0. */
  lemma QuoteExists(b: Book, fill: Amount, version: Version)
    requires Covered(b) && fill <= b.ask
    ensures Quote(b, fill, version).Some? <==> version.V1? || b.ask > 0
  {
    if version.V1? {
      OriginalPriceRounded(b.askTotal, b.giveTotal, b.ask, b.give, fill);
    } else if b.ask > 0 {
      RemainingPriceRounded(b.askTotal, b.giveTotal, b.ask, b.give, fill);
    }
  }

  // ----- runs of fills

  datatype Fill = Fill(amount: Amount, version: Version)

  /** The order after a run of fills and what they were paid in all, if every fill goes through. */
  function FillAll(b: Book, fills: seq<Fill>): Option<(Book, int)>
    decreases |fills|
  {
    if fills == [] then Some((b, 0))
    else if !Fills(b, fills[0].amount, fills[0].version) then None
    else
      var pay := Quote(b, fills[0].amount, fills[0].version).value;
      if pay > b.give then None
      else
        var r := FillAll(AfterFill(b, fills[0].amount, fills[0].version), fills[1..]);
        if r.None? then None else Some((r.value.0, pay + r.value.1))
  }

  function Total(fills: seq<Fill>): int {
    if fills == [] then 0 else fills[0].amount + Total(fills[1..])
  }

  /** Nothing is lost or made: payouts and the remaining give add up, fills and the remaining ask too. */
  lemma {:induction false} FillsConserve(b: Book, fills: seq<Fill>)
    requires Covered(b) && FillAll(b, fills).Some?
    ensures var (end, paid) := FillAll(b, fills).value;
            && Covered(end) && end.askTotal == b.askTotal && end.giveTotal == b.giveTotal
            && end.give + paid == b.give && end.ask + Total(fills) == b.ask && 0 <= paid
    decreases |fills|
  {
    if fills != [] {
      FillKeepsCovered(b, fills[0].amount, fills[0].version);
      FillsConserve(AfterFill(b, fills[0].amount, fills[0].version), fills[1..]);
    }
  }

  predicate AllVersion(fills: seq<Fill>, version: Version) {
    forall f :: f in fills ==> f.version == version
  }

  lemma {:induction false} OriginalPriceSums(b: Book, fills: seq<Fill>)
    requires b.askTotal > 0 && AllVersion(fills, V1) && FillAll(b, fills).Some?
    ensures var paid := FillAll(b, fills).value.1;
            && b.askTotal * paid <= b.giveTotal * Total(fills)
            && b.giveTotal * Total(fills) <= b.askTotal * paid + |fills| * (b.askTotal - 1)
    decreases |fills|
  {
    if fills != [] {
      var f := fills[0].amount;
      var b' := AfterFill(b, f, fills[0].version);
      var pay, rest := Quote(b, f, V1).value, FillAll(b', fills[1..]).value.1;
      OriginalPriceSums(b', fills[1..]);
      FloorBounds(b.giveTotal * f, b.askTotal);
      Distribute(b.askTotal, pay, rest);
      Distribute(b.giveTotal, f, Total(fills[1..]));
      Distribute(b.askTotal - 1, 1, |fills| - 1);
    }
  }

  lemma Distribute(a: int, x: int, y: int)
    ensures a * (x + y) == a * x + a * y
    ensures (x + y) * a == x * a + y * a
  {}

  /**
   Under V1 a run of `n` fills totalling `F` is paid at most what one fill of `F` would be, and
   falls short of it by less than one atom per fill.
   */
  lemma OriginalPriceSplit(b: Book, fills: seq<Fill>)
    requires Covered(b) && AllVersion(fills, V1) && FillAll(b, fills).Some?
    ensures var paid, whole := FillAll(b, fills).value.1, b.giveTotal * Total(fills) / b.askTotal;
            paid <= whole && (fills != [] ==> whole - paid < |fills|)
  {
    FillsConserve(b, fills);
    OriginalPriceSums(b, fills);
    var paid, total, a := FillAll(b, fills).value.1, b.giveTotal * Total(fills), b.askTotal;
    SplitArithmetic(a, total, paid, |fills|);
  }

  lemma SplitArithmetic(a: nat, total: int, paid: int, n: nat)
    requires a > 0 && 0 <= total && a * paid <= total <= a * paid + n * (a - 1)
    ensures paid <= total / a && (n > 0 ==> total / a - paid < n)
  {
    FloorBounds(total, a);
    var q := total / a;
    assert a * (q + 1) == a * q + a;
    DivideOut(a, paid, q + 1);
    assert n * (a - 1) == a * n - n && a * (paid + n) == a * paid + a * n;
    DivideOut(a, q, paid + n);
  }

  /** Under V0 alone, an order whose ask is used up has no give left. */
  lemma {:induction false} RemainingPriceEmpties(b: Book, fills: seq<Fill>)
    requires Covered(b) && AllVersion(fills, V0) && FillAll(b, fills).Some?
    requires b.ask == 0 ==> b.give == 0
    ensures FillAll(b, fills).value.0.ask == 0 ==> FillAll(b, fills).value.0.give == 0
    decreases |fills|
  {
    if fills != [] {
      var f := fills[0].amount;
      FillKeepsCovered(b, f, V0);
      var b' := AfterFill(b, f, V0);
      if b'.ask == 0 {
        WholeQuote(b.ask, b.give);
      }
      RemainingPriceEmpties(b', fills[1..]);
    }
  }

  lemma WholeQuote(ask: Amount, give: Amount)
    requires ask > 0
    ensures give * ask / ask == give
  {
    FloorBounds(give * ask, ask);
    var q := give * ask / ask;
    assert ask * (q + 1) == ask * q + ask;
    DivideOut(ask, q, give);
    DivideOut(ask, give, q + 1);
  }
}
