/** Spot prices from warm supply: the multiplier of a pool, the rounded and clamped price, and the job. */
module SpotPricing {
  import opened Wrappers
  import opened Rounding

  const FLOOR_CENTS: int := 40
  const CEILING_CENTS: int := 200
  const CEILING_A100_CENTS: int := 500

  datatype Status = NORMAL | SURGE | HIGH_DEMAND | DISCOUNT

  datatype Quote = Quote(multiplier: real, status: Status)

  function Ratio(available: nat, targetCount: nat): real {
    if targetCount > 0 then available as real / targetCount as real else 1.0
  }

  function Min(a: real, b: real): real {
    if a < b then a else b
  }

  function Max(a: real, b: real): real {
    if a < b then b else a
  }

  /** The tiers of scarce supply. */
  function Shortage(ratio: real): Quote {
    if ratio < 0.25 then Quote(1.25 + (0.25 * (1.0 - ratio / 0.25)), SURGE)
    else if ratio < 0.5 then Quote(1.0 + (0.25 * (1.0 - (ratio - 0.25) / 0.25)), HIGH_DEMAND)
    else Quote(1.0, NORMAL)
  }

  function IdleMultiplier(hoursIdle: real): real {
    Max(0.85, 1.0 - 0.05 * Min(3.0, ((hoursIdle - 12.0) / 6.0).Floor as real))
  }

  /** `hoursIdle` is none for a pool that has never been rented from. */
  function QuoteOf(ratio: real, hoursIdle: Option<real>): Quote {
    if ratio >= 1.0 && hoursIdle.Some? then
      if hoursIdle.value > 12.0 then Quote(IdleMultiplier(hoursIdle.value), DISCOUNT) else Shortage(ratio)
    else if ratio >= 1.0 then Quote(0.90, DISCOUNT)
    else Shortage(ratio)
  }

  function Ceiling(a100: bool): int {
    if a100 then CEILING_A100_CENTS else CEILING_CENTS
  }

  function Clamped(raw: int, a100: bool): int {
    var floored := if FLOOR_CENTS < raw then raw else FLOOR_CENTS;
    if Ceiling(a100) < floored then Ceiling(a100) else floored
  }

  function RawPrice(basePriceCents: nat, multiplier: real): real {
    basePriceCents as real * multiplier
  }

  function SpotPrice(basePriceCents: nat, multiplier: real, a100: bool): int {
    Clamped(RoundHalfUp(RawPrice(basePriceCents, multiplier)), a100)
  }

  // ---------------------------------------------------------------------------------------------
  // The multiplier
  // ---------------------------------------------------------------------------------------------

  /** Both tiers of scarcity lie on one line, which meets the normal price at half the target. */
  lemma ShortageIsOneLine(ratio: real)
    requires ratio >= 0.0
    ensures Shortage(ratio).multiplier == Max(1.0, 1.5 - ratio)
    ensures Shortage(ratio).status == if ratio < 0.25 then SURGE else if ratio < 0.5 then HIGH_DEMAND else NORMAL
  {
    assert 0.25 * (1.0 - ratio / 0.25) == 0.25 - ratio;
    assert 0.25 * (1.0 - (ratio - 0.25) / 0.25) == 0.25 - (ratio - 0.25);
  }

  lemma IdleRange(hours: real)
    requires hours > 12.0
    ensures 0.85 <= IdleMultiplier(hours) <= 1.0
  {
    assert (hours - 12.0) / 6.0 >= 0.0;
  }

  lemma MultiplierRange(ratio: real, hoursIdle: Option<real>)
    requires ratio >= 0.0
    ensures 0.85 <= QuoteOf(ratio, hoursIdle).multiplier <= 1.5
    ensures ratio >= 1.0 ==> QuoteOf(ratio, hoursIdle).multiplier <= 1.0
  {
    ShortageIsOneLine(ratio);
    if hoursIdle.Some? && hoursIdle.value > 12.0 { IdleRange(hoursIdle.value); }
  }

  /** Below the target the multiplier moves no faster than the ratio, so it has no jump there, at the
      tiers' bounds in particular. */
  lemma NoJumpBelowTarget(r: real, r': real, hoursIdle: Option<real>)
    requires 0.0 <= r <= r' < 1.0
    ensures 0.0 <= QuoteOf(r, hoursIdle).multiplier - QuoteOf(r', hoursIdle).multiplier <= r' - r
  {
    ShortageIsOneLine(r);
    ShortageIsOneLine(r');
  }

  /** At the target there is one, exactly when the pool has never been rented from or has been idle for
      18 hours. */
  lemma JumpAtTargetIff(hoursIdle: Option<real>)
    ensures QuoteOf(1.0, hoursIdle).multiplier < Shortage(1.0).multiplier
            <==> hoursIdle.None? || hoursIdle.value >= 18.0
  {
    if hoursIdle.Some? && hoursIdle.value > 12.0 {
      var q := (hoursIdle.value - 12.0) / 6.0;
      assert q >= 1.0 <==> hoursIdle.value >= 18.0;
      assert q.Floor >= 1 <==> q >= 1.0;
    }
  }

  lemma MultiplierAntitone(r: real, r': real, hoursIdle: Option<real>)
    requires 0.0 <= r <= r'
    ensures QuoteOf(r', hoursIdle).multiplier <= QuoteOf(r, hoursIdle).multiplier
  {
    ShortageIsOneLine(r);
    ShortageIsOneLine(r');
    MultiplierRange(r', hoursIdle);
  }

  lemma IdleAntitone(h: real, h': real)
    requires 12.0 < h <= h'
    ensures IdleMultiplier(h') <= IdleMultiplier(h)
  {
    var q, q' := (h - 12.0) / 6.0, (h' - 12.0) / 6.0;
    assert q <= q';
    assert q.Floor <= q'.Floor;
  }

  // ---------------------------------------------------------------------------------------------
  // The price
  // ---------------------------------------------------------------------------------------------

  lemma ClampedMonotone(raw: int, raw': int, a100: bool)
    requires raw <= raw'
    ensures Clamped(raw, a100) <= Clamped(raw', a100)
  {
  }

  lemma ClampedRound(x: real, y: real, a100: bool)
    requires x <= y
    ensures Clamped(RoundHalfUp(x), a100) <= Clamped(RoundHalfUp(y), a100)
  {
    RoundHalfUpMonotone(x, y);
    ClampedMonotone(RoundHalfUp(x), RoundHalfUp(y), a100);
  }

  lemma ProductNonNegative(a: real, b: real)
    requires 0.0 <= a && 0.0 <= b
    ensures 0.0 <= a * b
  {
  }

  lemma Distributes(a: real, b: real, c: real)
    ensures (a - b) * c == a * c - b * c && c * (a - b) == c * a - c * b
  {
  }

  lemma RawPriceMonotone(base: nat, m: real, m': real)
    requires 0.0 <= m <= m'
    ensures RawPrice(base, m) <= RawPrice(base, m')
  {
    ProductNonNegative(base as real, m' - m);
    Distributes(m', m, base as real);
  }

  lemma PriceMonotone(base: nat, m: real, m': real, a100: bool)
    requires 0.0 <= m <= m'
    ensures SpotPrice(base, m, a100) <= SpotPrice(base, m', a100)
  {
    RawPriceMonotone(base, m, m');
    ClampedRound(RawPrice(base, m), RawPrice(base, m'), a100);
  }

  function PriceOf(base: nat, a100: bool, available: nat, targetCount: nat, hoursIdle: Option<real>): int {
    SpotPrice(base, QuoteOf(Ratio(available, targetCount), hoursIdle).multiplier, a100)
  }

  lemma RatioMonotone(available: nat, available': nat, targetCount: nat)
    requires available <= available'
    ensures 0.0 <= Ratio(available, targetCount) <= Ratio(available', targetCount)
  {
    if targetCount > 0 {
      var d := targetCount as real;
      assert available as real / d >= 0.0;
      assert (available' - available) as real / d >= 0.0;
      assert available' as real / d - available as real / d == (available' - available) as real / d;
    }
  }

  /** What a pool's base price is multiplied by: below its target 1.5 less the share that is available, but at
      least 1; at or above it 0.9 if it has never been rented from, and otherwise 1 less a twentieth for
      each six hours of idling after the first twelve, three at most. */
  function Factor(available: nat, targetCount: nat, hoursIdle: Option<real>): real {
    if available < targetCount then Max(1.0, 1.5 - available as real / targetCount as real)
    else match hoursIdle
      case None => 0.9
      case Some(h) => if h < 18.0 then 1.0 else if h < 24.0 then 0.95 else if h < 30.0 then 0.9 else 0.85
  }

  lemma IdleSteps(h: real)
    requires h > 12.0
    ensures IdleMultiplier(h) == if h < 18.0 then 1.0 else if h < 24.0 then 0.95 else if h < 30.0 then 0.9 else 0.85
  {
    var q := (h - 12.0) / 6.0;
    assert (q >= 1.0 <==> h >= 18.0) && (q >= 2.0 <==> h >= 24.0) && (q >= 3.0 <==> h >= 30.0) && q >= 0.0;
    assert (q.Floor >= 1 <==> q >= 1.0) && (q.Floor >= 2 <==> q >= 2.0) && (q.Floor >= 3 <==> q >= 3.0);
  }

  lemma QuotientBelowOneIff(x: real, d: real)
    requires d > 0.0
    ensures x / d < 1.0 <==> x < d
  {
    var q := x / d;
    assert q * d == x;
    Distributes(1.0, q, d);
    if q < 1.0 { ProductPositive(1.0 - q, d); } else { ProductNonNegative(q - 1.0, d); Distributes(q, 1.0, d); }
  }

  lemma ProductPositive(a: real, b: real)
    requires 0.0 < a && 0.0 < b
    ensures 0.0 < a * b
  {
  }

  lemma QuoteIsFactor(available: nat, targetCount: nat, hoursIdle: Option<real>)
    ensures QuoteOf(Ratio(available, targetCount), hoursIdle).multiplier == Factor(available, targetCount, hoursIdle)
    ensures QuoteOf(Ratio(available, targetCount), hoursIdle).status == DISCOUNT
       <==> targetCount <= available && (hoursIdle.None? || hoursIdle.value > 12.0)
  {
    RatioMonotone(available, available, targetCount);
    ShortageIsOneLine(Ratio(available, targetCount));
    if targetCount > 0 { QuotientBelowOneIff(available as real, targetCount as real); }
    if hoursIdle.Some? && hoursIdle.value > 12.0 { IdleSteps(hoursIdle.value); }
  }

  /** The price is the base price times the factor, to half a cent, wherever that leaves it between 40 cents
      and the ceiling of two dollars, or five for the A100; and otherwise that bound. */
  ghost predicate NearMultiple(price: int, base: nat, a100: bool, factor: real) {
    var exact, ceiling := base as real * factor, if a100 then 500.0 else 200.0;
    if exact < 39.5 then price == 40
    else if exact >= ceiling - 0.5 then price as real == ceiling
    else price as real - 0.5 <= exact < price as real + 0.5
  }

  lemma PriceIsNearMultiple(base: nat, a100: bool, available: nat, targetCount: nat, hoursIdle: Option<real>)
    ensures NearMultiple(PriceOf(base, a100, available, targetCount, hoursIdle), base, a100,
                         Factor(available, targetCount, hoursIdle))
  {
    QuoteIsFactor(available, targetCount, hoursIdle);
  }

  /** More warm supply never raises the price, and no supply takes it out of floor and ceiling. */
  lemma MoreSupplyNeverRaisesThePrice(base: nat, a100: bool, available: nat, available': nat, targetCount: nat,
                                      hoursIdle: Option<real>)
    requires available <= available'
    ensures FLOOR_CENTS <= PriceOf(base, a100, available', targetCount, hoursIdle)
         <= PriceOf(base, a100, available, targetCount, hoursIdle) <= Ceiling(a100)
  {
    RatioMonotone(available, available', targetCount);
    var r, r' := Ratio(available, targetCount), Ratio(available', targetCount);
    MultiplierAntitone(r, r', hoursIdle);
    MultiplierRange(r', hoursIdle);
    PriceMonotone(base, QuoteOf(r', hoursIdle).multiplier, QuoteOf(r, hoursIdle).multiplier, a100);
  }

  /** A longer idle time never raises it either. */
  lemma LongerIdleNeverRaisesThePrice(base: nat, a100: bool, available: nat, targetCount: nat, h: real, h': real)
    requires 0.0 <= h <= h'
    ensures PriceOf(base, a100, available, targetCount, Some(h'))
         <= PriceOf(base, a100, available, targetCount, Some(h))
  {
    RatioMonotone(available, available, targetCount);
    var r := Ratio(available, targetCount);
    MultiplierRange(r, Some(h));
    MultiplierRange(r, Some(h'));
    ShortageIsOneLine(r);
    if h > 12.0 { IdleAntitone(h, h'); }
    PriceMonotone(base, QuoteOf(r, Some(h')).multiplier, QuoteOf(r, Some(h)).multiplier, a100);
  }

  // ---------------------------------------------------------------------------------------------
  // The job
  // ---------------------------------------------------------------------------------------------

  type GpuType = string

  datatype Pool = Pool(gpuType: GpuType, basePriceCents: nat, targetCount: nat, available: nat,
                       hoursIdle: Option<real>, currentSpotPriceCents: int)

  datatype Suggestion = Suggestion(gpuType: GpuType, currentRate: int, suggestedRate: int)

  function NewPrice(p: Pool): int {
    PriceOf(p.basePriceCents, p.gpuType == "A100_80GB", p.available, p.targetCount, p.hoursIdle)
  }

  function Repriced(p: Pool): (q: Pool)
    ensures FLOOR_CENTS <= q.currentSpotPriceCents <= Ceiling(q.gpuType == "A100_80GB")
  {
    p.(currentSpotPriceCents := NewPrice(p))
  }

  function SkuWith(skus: map<GpuType, int>, p: Pool): map<GpuType, int> {
    if p.gpuType in skus then skus[p.gpuType := NewPrice(p)] else skus
  }

  function Change(p: Pool): seq<Suggestion> {
    if p.currentSpotPriceCents != NewPrice(p) then [Suggestion(p.gpuType, p.currentSpotPriceCents, NewPrice(p))] else []
  }

  /** The price of the last pool of a GPU type among the first `n`, and `before` if there is none. */
  function LastPrice(pools: seq<Pool>, n: nat, t: GpuType, before: int): int
    requires n <= |pools|
  {
    if n == 0 then before
    else if pools[n - 1].gpuType == t then NewPrice(pools[n - 1])
    else LastPrice(pools, n - 1, t, before)
  }

  function ChangesIn(pools: seq<Pool>, n: nat): seq<Suggestion>
    requires n <= |pools|
  {
    if n == 0 then [] else ChangesIn(pools, n - 1) + Change(pools[n - 1])
  }

  ghost predicate PricedBySupply(p: Pool, q: Pool) {
    && q == p.(currentSpotPriceCents := q.currentSpotPriceCents)
    && NearMultiple(q.currentSpotPriceCents, p.basePriceCents, p.gpuType == "A100_80GB",
                    Factor(p.available, p.targetCount, p.hoursIdle))
  }

  lemma RepricedBySupply(p: Pool)
    ensures PricedBySupply(p, Repriced(p))
  {
    PriceIsNearMultiple(p.basePriceCents, p.gpuType == "A100_80GB", p.available, p.targetCount, p.hoursIdle);
  }

  /** The price is that of the last pool of the type, or the old one if there is no such pool. */
  ghost predicate IsLastPrice(price: int, pools: seq<Pool>, t: GpuType, before: int) {
    || (price == before && forall k | 0 <= k < |pools| :: pools[k].gpuType != t)
    || exists i :: 0 <= i < |pools| && pools[i].gpuType == t && price == pools[i].currentSpotPriceCents
                   && forall k | i < k < |pools| :: pools[k].gpuType != t
  }

  lemma {:induction false} LastPriceIs(pools: seq<Pool>, priced: seq<Pool>, n: nat, t: GpuType, before: int)
    requires n <= |pools| == |priced| && forall i | 0 <= i < |pools| :: priced[i] == Repriced(pools[i])
    ensures IsLastPrice(LastPrice(pools, n, t, before), priced[..n], t, before)
  {
    if n > 0 {
      if pools[n - 1].gpuType == t {
        assert priced[..n][n - 1].gpuType == t;
      } else {
        LastPriceIs(pools, priced, n - 1, t, before);
        assert priced[..n] == priced[..n - 1] + [priced[n - 1]];
      }
    }
  }

  /** The log has exactly the changes of price, from what the pool had to what it has. */
  lemma {:induction false} ChangesIff(pools: seq<Pool>, priced: seq<Pool>, n: nat, c: Suggestion)
    requires n <= |pools| == |priced| && forall i | 0 <= i < |pools| :: priced[i] == Repriced(pools[i])
    ensures c in ChangesIn(pools, n)
       <==> exists i :: 0 <= i < n && pools[i].currentSpotPriceCents != priced[i].currentSpotPriceCents
                        && c == Suggestion(pools[i].gpuType, pools[i].currentSpotPriceCents,
                                           priced[i].currentSpotPriceCents)
  {
    if n > 0 { ChangesIff(pools, priced, n - 1, c); }
  }

  class Market {
    var pools: seq<Pool>
    var skuPrice: map<GpuType, int>
    var log: seq<Suggestion>

    constructor (configs: seq<Pool>, skus: map<GpuType, int>)
      ensures pools == configs && skuPrice == skus && log == []
    {
      pools, skuPrice, log := configs, skus, [];
    }

    /** The updates of one pool: its row, its SKU, and the log if the price changed. */
    method UpdatePool(i: nat)
      requires i < |pools|
      modifies this
      ensures pools == old(pools)[i := Repriced(old(pools)[i])]
      ensures skuPrice == SkuWith(old(skuPrice), old(pools)[i])
      ensures log == old(log) + Change(old(pools)[i])
    {
      var p := pools[i];
      var price := Reprice(p);
      pools := pools[i := p.(currentSpotPriceCents := price)];
      if p.gpuType in skuPrice {
        skuPrice := skuPrice[p.gpuType := price];
      }
      if p.currentSpotPriceCents != price {
        log := log + [Suggestion(p.gpuType, p.currentSpotPriceCents, price)];
      }
    }

    /** Reprices every pool.  An SKU sold by several pools ends with the price of the last of them, and
        only changed prices are logged. */
    method UpdateSpotPrices()
      modifies this
      ensures |pools| == |old(pools)| && forall i | 0 <= i < |pools| :: pools[i] == Repriced(old(pools)[i])
      ensures skuPrice.Keys == old(skuPrice).Keys
      ensures forall t | t in skuPrice :: skuPrice[t] == LastPrice(old(pools), |old(pools)|, t, old(skuPrice)[t])
      ensures log == old(log) + ChangesIn(old(pools), |old(pools)|)
      ensures forall i | 0 <= i < |pools| :: PricedBySupply(old(pools)[i], pools[i])
      ensures forall t | t in skuPrice :: IsLastPrice(skuPrice[t], pools, t, old(skuPrice)[t])
    {
      for i := 0 to |pools|
        invariant |pools| == |old(pools)|
        invariant forall k | 0 <= k < |pools| :: pools[k] == if k < i then Repriced(old(pools)[k]) else old(pools)[k]
        invariant skuPrice.Keys == old(skuPrice).Keys
        invariant forall t | t in skuPrice :: skuPrice[t] == LastPrice(old(pools), i, t, old(skuPrice)[t])
        invariant log == old(log) + ChangesIn(old(pools), i)
      {
        UpdatePool(i);
      }
      forall i | 0 <= i < |pools| ensures PricedBySupply(old(pools)[i], pools[i]) { RepricedBySupply(old(pools)[i]); }
      assert pools[..|pools|] == pools;
      forall t | t in skuPrice ensures IsLastPrice(skuPrice[t], pools, t, old(skuPrice)[t]) {
        LastPriceIs(old(pools), pools, |pools|, t, old(skuPrice)[t]);
      }
    }

    /** One pool's price, reassigning the multiplier tier by tier. */
    static method Reprice(p: Pool) returns (price: int)
      ensures price == NewPrice(p)
      ensures NearMultiple(price, p.basePriceCents, p.gpuType == "A100_80GB",
                           Factor(p.available, p.targetCount, p.hoursIdle))
      ensures FLOOR_CENTS <= price <= Ceiling(p.gpuType == "A100_80GB")
    {
      var ratio := if p.targetCount > 0 then p.available as real / p.targetCount as real else 1.0;
      var multiplier := 1.0;
      if ratio < 0.25 {
        multiplier := 1.25 + (0.25 * (1.0 - ratio / 0.25));
      } else if ratio < 0.5 {
        multiplier := 1.0 + (0.25 * (1.0 - (ratio - 0.25) / 0.25));
      }
      if ratio >= 1.0 && p.hoursIdle.Some? {
        if p.hoursIdle.value > 12.0 {
          multiplier := IdleMultiplier(p.hoursIdle.value);
        }
      } else if ratio >= 1.0 {
        multiplier := 0.90;
      }
      price := SpotPrice(p.basePriceCents, multiplier, p.gpuType == "A100_80GB");
      PriceIsNearMultiple(p.basePriceCents, p.gpuType == "A100_80GB", p.available, p.targetCount, p.hoursIdle);
    }
  }
}
