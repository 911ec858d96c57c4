/** The shared building blocks of `packages/utils`: the liquidation price
    (long by default), the position size, the reward ratio, three range
    checks and the character filter of `parseCurrency`. */
module SharedUtils {
  import opened Wrappers
  import opened TradingTypes
  import opened RiskReference

  /** A missing direction is long. */
  function CalculateLiquidationPrice(entryPrice: real, leverage: real, isLong: Option<bool>): (r: real)
    requires leverage != 0.0
    ensures r == LiquidationReference(entryPrice, leverage, isLong.GetOr(true))
  {
    var long := isLong.GetOr(true);
    var maintenanceMarginRate := 0.005;
    var liquidationThreshold := 1.0 - maintenanceMarginRate;
    if long then entryPrice * (1.0 - (1.0 / leverage) * liquidationThreshold)
    else entryPrice * (1.0 + (1.0 / leverage) * liquidationThreshold)
  }

  /** With a positive entry and leverage of at least 1, the default (long)
      price lies below the entry and the short price above it. */
  lemma DefaultIsLongBelowEntry(entryPrice: real, leverage: real)
    requires entryPrice > 0.0 && leverage >= 1.0
    ensures CalculateLiquidationPrice(entryPrice, leverage, None) < entryPrice
    ensures CalculateLiquidationPrice(entryPrice, leverage, None)
         == CalculateLiquidationPrice(entryPrice, leverage, Some(true))
    ensures entryPrice < CalculateLiquidationPrice(entryPrice, leverage, Some(false))
  {
    LiquidationBounds(entryPrice, leverage);
  }

  function CalculatePositionSize(balance: real, riskPercentage: real, entryPrice: real, stopLoss: real): (r: real)
    requires entryPrice != stopLoss
    ensures r * Abs(entryPrice - stopLoss) == balance * riskPercentage / 100.0
  {
    var riskAmount := balance * (riskPercentage / 100.0);
    var stopLossDistance := Abs(entryPrice - stopLoss);
    assert riskAmount / stopLossDistance * stopLossDistance == riskAmount;
    riskAmount / stopLossDistance
  }

  /** Reward distance per unit of risk distance. */
  function CalculateRiskRewardRatio(entryPrice: real, stopLoss: real, takeProfit: real): (r: real)
    requires entryPrice != stopLoss
    ensures r * Abs(entryPrice - stopLoss) == Abs(takeProfit - entryPrice)
  {
    var risk := Abs(entryPrice - stopLoss);
    var reward := Abs(takeProfit - entryPrice);
    assert reward / risk * risk == reward;
    reward / risk
  }

  /** The ratio helper agrees with the engines' potential profit over
      potential loss. */
  lemma RatioMatchesEngine(s: Setup)
    requires Computable(s)
    ensures CalculateRiskRewardRatio(s.entryPrice, s.stopLoss, s.takeProfit)
         == PotentialProfit(s) / RiskAmount(s)
         == ReferenceCalculations(s).riskRewardRatio
  {
    ProfitAndRatio(s);
  }

  /** `price > 0 && isFinite(price)`: reals are finite, so the check is
      the negation of the validators' `<= 0` rule. */
  function IsValidPrice(price: real): (ok: bool)
    ensures ok <==> !(price <= 0.0)
  {
    price > 0.0
  }

  /** The validators' range (0, 125] with fractional leverage below 1 also
      refused. */
  function IsValidLeverage(leverage: real): (ok: bool)
    ensures ok <==> !OutOfRange(leverage, 125.0) && !(leverage < 1.0)
  {
    leverage >= 1.0 && leverage <= 125.0
  }

  /** Exactly the validators' risk rule: (0, 100]. */
  function IsValidRiskPercentage(percentage: real): (ok: bool)
    ensures ok <==> !OutOfRange(percentage, 100.0)
  {
    percentage > 0.0 && percentage <= 100.0
  }

  /** The leverage check is strictly stricter than the validators' range
      rule: it also rejects a leverage in (0, 1). */
  lemma ChecksAgainstValidators(leverage: real)
    ensures IsValidLeverage(leverage) ==> !OutOfRange(leverage, 125.0)
    ensures !IsValidLeverage(0.5) && !OutOfRange(0.5, 125.0)
  {
  }

  /** The characters `parseCurrency` keeps: digits, '.' and '-'. */
  predicate Kept(c: char)
  {
    '0' <= c <= '9' || c == '.' || c == '-'
  }

  /** The cleaning step of `parseCurrency`: drop every other character. */
  function CleanCurrency(value: string): (cleaned: string)
    ensures |cleaned| <= |value|
    ensures forall i :: 0 <= i < |cleaned| ==> Kept(cleaned[i])
    ensures forall c :: c in value && Kept(c) ==> c in cleaned
    ensures forall c :: c in cleaned ==> c in value
  {
    if value == [] then []
    else if Kept(value[0]) then [value[0]] + CleanCurrency(value[1..])
    else CleanCurrency(value[1..])
  }

  /** Cleaning works character by character, so it distributes over
      concatenation: the kept characters stay in their order. */
  lemma {:induction false} CleanAppend(a: string, b: string)
    ensures CleanCurrency(a + b) == CleanCurrency(a) + CleanCurrency(b)
  {
    if a == [] {
      assert a + b == b;
    } else {
      assert (a + b)[1..] == a[1..] + b;
      CleanAppend(a[1..], b);
    }
  }

  /** Cleaning a cleaned string changes nothing. */
  lemma {:induction false} CleanIdempotent(value: string)
    ensures CleanCurrency(CleanCurrency(value)) == CleanCurrency(value)
  {
    if value != [] {
      CleanIdempotent(value[1..]);
      if Kept(value[0]) {
        CleanAppend([value[0]], CleanCurrency(value[1..]));
        assert [value[0]][1..] == [];
      }
    }
  }

  /** A string made only of kept characters is left as it is. */
  lemma {:induction false} CleanKeepsClean(value: string)
    requires forall i :: 0 <= i < |value| ==> Kept(value[i])
    ensures CleanCurrency(value) == value
  {
    if value != [] {
      CleanKeepsClean(value[1..]);
    }
  }

  /** "$1,5" cleans to "15": the currency sign and the thousands
      separator go, the digits stay in order. */
  lemma CleanExample()
    ensures CleanCurrency("$1,5") == "15"
  {
    assert CleanCurrency(",5") == "5";
    assert CleanCurrency("1,5") == "15";
  }
}
