/** Amounts cross the interface as floating-point decimals and are stored as whole cents. */
module Money {

  /** 2 to the power of 50: the largest amount, in cents, for which the claims below are made. */
  const LARGEST: real := 1125899906842624.0

  function Abs(x: real): real {
    if x < 0.0 then -x else x
  }

  /** The error of one double-precision operation with exact result `x`: half the distance between neighbouring doubles
      is at most 2 to the power of -53 of their size; one more unit is left for the smallest numbers. */
  predicate Close(rounded: real, x: real) {
    Abs(rounded - x) * 9007199254740992.0 <= Abs(x) + 1.0
  }

  /** What is used of the rounding after each operation. */
  ghost predicate Rounds(rd: real -> real) {
    && (forall x, y :: x <= y ==> rd(x) <= rd(y))
    && (forall x :: Abs(x) <= 8.0 * LARGEST ==> Close(rd(x), x))
  }

  /** `math.Round`: nearest, ties away from zero. */
  function Round(x: real): int {
    if x >= 0.0 then (x + 0.5).Floor else -((-x + 0.5).Floor)
  }

  /** `int64(math.Round(value * 100))`. */
  function Cents(rd: real -> real, value: real): int {
    Round(rd(value * 100.0))
  }

  /** `float64(cents) / 100`. */
  function Amount(rd: real -> real, cents: int): real {
    rd(cents as real / 100.0)
  }

  predicate Storable(cents: int) {
    Abs(cents as real) <= LARGEST
  }

  lemma RoundIs(x: real, n: int)
    requires Abs(x - n as real) < 0.5
    ensures Round(x) == n
  {
    if x < 0.0 {
      assert -(n as real) == (-n) as real;
    }
  }

  lemma RoundNear(x: real)
    ensures Abs(Round(x) as real - x) <= 0.5
  {
    if x < 0.0 {
      var n := (-x + 0.5).Floor;
      assert Round(x) as real == -(n as real);
    }
  }

  lemma OnceRounded(exact: real, value: real)
    requires Abs(exact * 100.0) <= LARGEST && Close(value, exact)
    ensures Abs(exact) <= 8.0 * LARGEST && Abs(value * 100.0) <= 8.0 * LARGEST
  {
  }

  lemma RoundingIsClose(rd: real -> real, x: real)
    requires Rounds(rd) && Abs(x) <= 8.0 * LARGEST
    ensures Close(rd(x), x)
  {
  }

  /** Two roundings, one before and one after the multiplication, stay well below half a cent. */
  lemma TwiceRounded(exact: real, value: real, product: real)
    requires Abs(exact * 100.0) <= LARGEST && Close(value, exact) && Close(product, value * 100.0)
    ensures Abs(product - exact * 100.0) < 0.5
  {
  }

  lemma Hundredth(cents: int) returns (exact: real)
    requires Storable(cents)
    ensures exact == cents as real / 100.0 && exact * 100.0 == cents as real && Abs(exact) <= 8.0 * LARGEST
  {
    exact := cents as real / 100.0;
  }

  /** Stored amounts survive the way out and back in, through a rounded division and a rounded multiplication, whatever
      their sign. */
  lemma CentsReadBack(rd: real -> real, cents: int)
    requires Rounds(rd) && Storable(cents)
    ensures Cents(rd, Amount(rd, cents)) == cents
  {
    hide Rounds, Close, Abs, Round;
    var exact := Hundredth(cents);
    var value := rd(exact);
    RoundingIsClose(rd, exact);
    OnceRounded(exact, value);
    RoundingIsClose(rd, value * 100.0);
    TwiceRounded(exact, value, rd(value * 100.0));
    RoundIs(rd(value * 100.0), cents);
  }

  /** Rounding keeps order, so comparing rounded amounts never turns a payable price into an unpayable one. */
  lemma CentsMonotone(rd: real -> real, a: real, b: real)
    requires Rounds(rd) && a <= b
    ensures Cents(rd, a) <= Cents(rd, b)
  {
    assert rd(a * 100.0) <= rd(b * 100.0);
  }

  /** A decimal is stored as the nearest cent, up to the rounding of one multiplication. */
  lemma CentsNearest(rd: real -> real, value: real)
    requires Rounds(rd) && Abs(value * 100.0) <= LARGEST
    ensures Abs(Cents(rd, value) as real - value * 100.0) <= 0.5 + (Abs(value * 100.0) + 1.0) / 9007199254740992.0
  {
    RoundNear(rd(value * 100.0));
    assert Close(rd(value * 100.0), value * 100.0);
  }

  /** The price columns of a platform row: prices per provider, and the older single price. */
  datatype PriceRow = PriceRow(allowedProviders: seq<string>, providerPricesCents: map<string, int>, priceCents: int)

  /** An allowed provider without a price of its own gets `price`. */
  function Backfilled(prices: map<string, int>, allowed: seq<string>, price: int): map<string, int> {
    (map p | p in allowed :: price) + prices
  }

  function EffectivePrices(row: PriceRow): map<string, int> {
    Backfilled(row.providerPricesCents, row.allowedProviders, row.priceCents)
  }

  /** A provider's own price wins; the single price is for allowed providers without one. */
  lemma OwnPriceWins(row: PriceRow)
    ensures forall p :: p in EffectivePrices(row) <==> p in row.providerPricesCents || p in row.allowedProviders
    ensures forall p :: p in EffectivePrices(row) ==>
      EffectivePrices(row)[p] == if p in row.providerPricesCents then row.providerPricesCents[p] else row.priceCents
  {
  }

  /** Both loops of `effectiveProviderPricesCents`. */
  method EffectiveProviderPricesCents(row: PriceRow) returns (result: map<string, int>)
    ensures result == EffectivePrices(row)
    ensures forall p :: p in result <==> p in row.providerPricesCents || p in row.allowedProviders
    ensures forall p :: p in result ==>
      result[p] == if p in row.providerPricesCents then row.providerPricesCents[p] else row.priceCents
  {
    result := map[];
    var prices := row.providerPricesCents;
    var pending := prices.Keys;
    while pending != {}
      invariant pending <= prices.Keys && result == prices - pending
      decreases pending
    {
      var provider :| provider in pending;
      OnePriceMore(prices, pending, provider);
      pending := pending - {provider};
      result := result[provider := prices[provider]];
    }
    assert prices - {} == prices;
    var allowed := row.allowedProviders;
    NoBackfill(prices, row.priceCents);
    hide Backfilled;
    for i := 0 to |allowed|
      invariant result == Backfilled(prices, allowed[..i], row.priceCents)
    {
      OneBackfillMore(prices, allowed, i, row.priceCents);
      if allowed[i] !in result {
        result := result[allowed[i] := row.priceCents];
      }
    }
    assert allowed[..|allowed|] == allowed;
    OwnPriceWins(row);
  }

  lemma OnePriceMore(prices: map<string, int>, pending: set<string>, provider: string)
    requires provider in pending && provider in prices
    ensures prices - (pending - {provider}) == (prices - pending)[provider := prices[provider]]
  {
  }

  lemma NoBackfill(prices: map<string, int>, price: int)
    ensures forall none: seq<string> :: none == [] ==> Backfilled(prices, none, price) == prices
  {
    forall none: seq<string> | none == [] ensures Backfilled(prices, none, price) == prices { }
  }

  lemma OneBackfillMore(prices: map<string, int>, allowed: seq<string>, i: nat, price: int)
    requires i < |allowed|
    ensures var before, after := Backfilled(prices, allowed[..i], price), Backfilled(prices, allowed[..i + 1], price);
      after == if allowed[i] in before then before else before[allowed[i] := price]
  {
    assert allowed[..i + 1] == allowed[..i] + [allowed[i]];
  }

  /** `maximum` is the highest of the decimal prices the validation looked at, or 0. */
  predicate IsMaximum(rd: real -> real, prices: map<string, int>, requested: seq<string>, maximum: real)
    requires forall q :: q in requested ==> q in prices
  {
    && (forall q :: q in requested ==> Amount(rd, prices[q]) <= maximum)
    && (maximum == 0.0 || exists q :: q in requested && Amount(rd, prices[q]) == maximum)
  }

  /** The maximum is computed on decimals and compared in cents; still no requested provider costs more than what the
      balance was checked against, and every allowed provider has a price. */
  lemma MaximumBoundsCharge(rd: real -> real, row: PriceRow, requested: seq<string>, maximum: real, provider: string)
    requires Rounds(rd) && (forall q :: q in requested ==> q in row.allowedProviders) && provider in requested
    requires forall q :: q in EffectivePrices(row) ==> Storable(EffectivePrices(row)[q])
    ensures forall q :: q in requested ==> q in EffectivePrices(row)
    ensures IsMaximum(rd, EffectivePrices(row), requested, maximum) ==>
      && EffectivePrices(row)[provider] <= Cents(rd, maximum)
      && (Cents(rd, maximum) == 0 || exists q :: q in requested && EffectivePrices(row)[q] == Cents(rd, maximum))
  {
    var prices := EffectivePrices(row);
    if IsMaximum(rd, prices, requested, maximum) {
      CentsReadBack(rd, prices[provider]);
      CentsMonotone(rd, Amount(rd, prices[provider]), maximum);
      if maximum != 0.0 {
        var q :| q in requested && Amount(rd, prices[q]) == maximum;
        CentsReadBack(rd, prices[q]);
      } else {
        ZeroIsZero(rd);
      }
    }
  }

  lemma ZeroIsZero(rd: real -> real)
    requires Rounds(rd)
    ensures Cents(rd, 0.0) == 0
  {
    assert Close(rd(0.0 * 100.0), 0.0);
  }
}
