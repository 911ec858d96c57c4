/** The backend domain service: liquidation price, position size, the full
    analysis (calculations, three simulations, risk level, recommendations)
    and the parameter validator. The simulation descriptions go through
    `Money.create`, which throws on a negative stop loss, take profit or
    balance; that throw is the `Failure` of `AnalyzeRisk`. */
module RiskCalculationService {
  import opened Wrappers
  import opened TradingTypes
  import opened RiskReference
  import opened Checks
  import MoneyValue

  /** The reference inputs of this copy: the direction is the declared
      position type and the balance is `accountBalance`. */
  function SetupOf(p: TradingParameters): Setup
  {
    Setup(p.entryPrice, p.stopLoss, p.takeProfit, p.leverage, p.positionType == Long,
          p.riskPercentage, p.accountBalance)
  }

  function CalculateLiquidationPrice(entryPrice: real, leverage: real, positionType: PositionType): (r: real)
    requires leverage != 0.0
    ensures r == LiquidationReference(entryPrice, leverage, positionType == Long)
  {
    var liquidationThreshold := 1.0 - MaintenanceMarginRate;
    if positionType == Long then entryPrice * (1.0 - (1.0 / leverage) * liquidationThreshold)
    else entryPrice * (1.0 + (1.0 / leverage) * liquidationThreshold)
  }

  /** Losing the stop distance on the returned size loses exactly the risk
      amount; leverage plays no part. */
  function CalculatePositionSize(accountBalance: real, riskPercentage: real, entryPrice: real, stopLoss: real)
    : (r: real)
    requires entryPrice != stopLoss
    ensures r * Abs(entryPrice - stopLoss) == accountBalance * riskPercentage / 100.0
  {
    var riskAmount := accountBalance * (riskPercentage / 100.0);
    var stopLossDistance := Abs(entryPrice - stopLoss);
    assert riskAmount / stopLossDistance * stopLossDistance == riskAmount;
    riskAmount / stopLossDistance
  }

  /** Lines 80-108 of the service: the metrics derived one after the other
      from the position size. They are the reference calculations. */
  function Metrics(p: TradingParameters): (c: Calculations)
    requires Computable(SetupOf(p))
    ensures c == ReferenceCalculations(SetupOf(p))
  {
    var s := SetupOf(p);  // the parameters as the reference reads them
    var liquidationPrice := CalculateLiquidationPrice(s.entryPrice, s.leverage, p.positionType);
    var positionSize := CalculatePositionSize(s.balance, s.riskPercentage, s.entryPrice, s.stopLoss);
    var positionValue := positionSize * s.entryPrice;
    var marginRequired := positionValue / s.leverage;
    var orderValue := marginRequired * s.leverage;
    var takeProfitDistance := Abs(s.takeProfit - s.entryPrice);
    var potentialProfit := positionSize * takeProfitDistance;
    var potentialLoss := positionSize * Abs(s.entryPrice - s.stopLoss);
    assert positionSize == PositionSize(s);
    assert potentialLoss != 0.0 by {
      CalculationSteps(s, positionSize);
    }
    var riskRewardRatio := potentialProfit / potentialLoss;
    var maxLossPercentage := (potentialLoss / s.balance) * 100.0;
    var distanceToLiquidation := Abs(s.entryPrice - liquidationPrice);
    var c := Calculations(
      liquidationPrice, positionSize, positionSize, marginRequired, orderValue,
      potentialProfit, potentialLoss, riskRewardRatio, maxLossPercentage, distanceToLiquidation);
    assert c == ReferenceCalculations(s) by {
      DerivedIsReference(s, liquidationPrice, positionSize, marginRequired, orderValue,
                         potentialProfit, potentialLoss, riskRewardRatio, maxLossPercentage, distanceToLiquidation);
    }
    c
  }

  /** The analysis equals the reference analysis of this copy's inputs,
      unless a simulation description is asked to format a negative amount. */
  method AnalyzeRisk(p: TradingParameters) returns (r: Result<Analysis, string>)
    requires Computable(SetupOf(p))
    ensures r.Failure? <==> p.stopLoss < 0.0 || p.takeProfit < 0.0 || p.accountBalance < 0.0
    ensures r.Failure? ==> r.error == MoneyValue.NegativeAmount
    ensures r.Success? ==> r.value == ReferenceAnalysis(SetupOf(p))
  {
    var s := SetupOf(p);
    var stopLoss, takeProfit, accountBalance := p.stopLoss, p.takeProfit, p.accountBalance;
    var calculations := Metrics(p);
    var potentialProfit, potentialLoss := calculations.potentialProfit, calculations.potentialLoss;
    var riskRewardRatio, maxLossPercentage := calculations.riskRewardRatio, calculations.maxLossPercentage;
    RatioSteps(s);

    var stopMoney := MoneyValue.Create(stopLoss, None);
    if stopMoney.Failure? {
      return Failure(stopMoney.error);
    }
    var takeMoney := MoneyValue.Create(takeProfit, None);
    if takeMoney.Failure? {
      return Failure(takeMoney.error);
    }
    var lossMoney := MoneyValue.Create(accountBalance * 0.9, None);
    if lossMoney.Failure? {
      return Failure(lossMoney.error);
    }
    var simulations := [
      Simulation(StopLossHit, accountBalance - potentialLoss, -potentialLoss,
                 -(potentialLoss / accountBalance) * 100.0, StopLossHitAt(stopMoney.value.amount)),
      Simulation(TakeProfitHit, accountBalance + potentialProfit, potentialProfit,
                 (potentialProfit / accountBalance) * 100.0, TakeProfitHitAt(takeMoney.value.amount)),
      Simulation(Liquidation, accountBalance * 0.1, -(accountBalance * 0.9), -90.0,
                 LiquidatedWithLoss(lossMoney.value.amount))
    ];
    assert -(potentialLoss / accountBalance) * 100.0 == -p.riskPercentage;
    assert (potentialProfit / accountBalance) * 100.0 == p.riskPercentage * RewardRatio(s);
    assert simulations[0] == ReferenceSimulations(s)[0];
    assert simulations[1] == ReferenceSimulations(s)[1];
    assert simulations[2] == LiquidationScenario(accountBalance);
    assert simulations == ReferenceSimulations(s);

    var riskLevel := Low;
    if maxLossPercentage > 10.0 || riskRewardRatio < 0.5 {
      riskLevel := Extreme;
    } else if maxLossPercentage > 5.0 || riskRewardRatio < 1.0 {
      riskLevel := High;
    } else if maxLossPercentage > 2.0 || riskRewardRatio < 1.5 {
      riskLevel := Medium;
    }
    RiskTableRows(maxLossPercentage, riskRewardRatio);

    var recommendations: seq<Recommendation> := [];
    if riskLevel == Extreme {
      recommendations := recommendations + [ReduceSizeSignificantly];
      recommendations := recommendations + [RatioUnfavorable];
    }
    ghost var extreme := if riskLevel == Extreme then [ReduceSizeSignificantly, RatioUnfavorable] else [];
    assert recommendations == extreme;
    if riskLevel == High {
      recommendations := recommendations + [TighterStopLoss];
      recommendations := recommendations + [ReduceLeverage];
    }
    ghost var high := if riskLevel == High then [TighterStopLoss, ReduceLeverage] else [];
    assert recommendations == extreme + high;
    if riskRewardRatio < 1.5 {
      recommendations := recommendations + [AimForRatio];
    }
    if maxLossPercentage > 2.0 {
      recommendations := recommendations + [ProfessionalRisk];
    }
    ghost var added := extreme + high + (if riskRewardRatio < 1.5 then [AimForRatio] else [])
      + (if maxLossPercentage > 2.0 then [ProfessionalRisk] else []);
    assert recommendations == added;
    if |recommendations| == 0 {
      recommendations := recommendations + [LooksReasonable];
      recommendations := recommendations + [AlwaysUseStopLosses];
    }
    assert recommendations == StandardRecommendations(riskLevel, maxLossPercentage, riskRewardRatio);

    r := Success(Analysis(calculations, simulations, riskLevel, recommendations));
  }

  /** The six range rules of the validator, in the order it tests them. */
  function RangeRules(p: TradingParameters): seq<Check<Message>>
  {
    [Check(p.entryPrice <= 0.0, EntryPriceNotPositive)]
    + [Check(p.stopLoss <= 0.0, StopLossNotPositive)]
    + [Check(p.takeProfit <= 0.0, TakeProfitNotPositive)]
    + [Check(p.accountBalance <= 0.0, AccountBalanceNotPositive)]
    + [Check(OutOfRange(p.riskPercentage, 100.0), RiskPercentageOutOfRange)]
    + [Check(OutOfRange(p.leverage, 125.0), LeverageOutOfRange)]
  }

  /** The direction rule on the stop loss; a position type other than
      LONG gets the short rule. */
  function StopRule(p: TradingParameters): Check<Message>
  {
    if p.positionType == Long then Check(p.stopLoss >= p.entryPrice, LongStopNotBelowEntry)
    else Check(p.stopLoss <= p.entryPrice, ShortStopNotAboveEntry)
  }

  /** The direction rule on the take profit. */
  function TakeRule(p: TradingParameters): Check<Message>
  {
    if p.positionType == Long then Check(p.takeProfit <= p.entryPrice, LongTakeNotAboveEntry)
    else Check(p.takeProfit >= p.entryPrice, ShortTakeNotBelowEntry)
  }

  /** All eight rules of the validator, in the order it tests them. */
  function ValidationRules(p: TradingParameters): seq<Check<Message>>
  {
    RangeRules(p) + [StopRule(p)] + [TakeRule(p)]
  }

  /** Pushes the message of every failing rule, in rule order. */
  method ValidateTradingParameters(p: TradingParameters) returns (errors: seq<Message>)
    ensures errors == Failures(ValidationRules(p))
  {
    errors := [];
    errors := Report(errors, Check(p.entryPrice <= 0.0, EntryPriceNotPositive));
    assert errors == Reported(Check(p.entryPrice <= 0.0, EntryPriceNotPositive));
    errors := Report(errors, Check(p.stopLoss <= 0.0, StopLossNotPositive));
    errors := Report(errors, Check(p.takeProfit <= 0.0, TakeProfitNotPositive));
    errors := Report(errors, Check(p.accountBalance <= 0.0, AccountBalanceNotPositive));
    errors := Report(errors, Check(OutOfRange(p.riskPercentage, 100.0), RiskPercentageOutOfRange));
    errors := Report(errors, Check(OutOfRange(p.leverage, 125.0), LeverageOutOfRange));
    if p.positionType == Long {
      errors := Report(errors, Check(p.stopLoss >= p.entryPrice, LongStopNotBelowEntry));
      errors := Report(errors, Check(p.takeProfit <= p.entryPrice, LongTakeNotAboveEntry));
    } else {
      errors := Report(errors, Check(p.stopLoss <= p.entryPrice, ShortStopNotAboveEntry));
      errors := Report(errors, Check(p.takeProfit >= p.entryPrice, ShortTakeNotBelowEntry));
    }
    ghost var range := Reported(Check(p.entryPrice <= 0.0, EntryPriceNotPositive))
      + Reported(Check(p.stopLoss <= 0.0, StopLossNotPositive))
      + Reported(Check(p.takeProfit <= 0.0, TakeProfitNotPositive))
      + Reported(Check(p.accountBalance <= 0.0, AccountBalanceNotPositive))
      + Reported(Check(OutOfRange(p.riskPercentage, 100.0), RiskPercentageOutOfRange))
      + Reported(Check(OutOfRange(p.leverage, 125.0), LeverageOutOfRange));
    assert errors == range + Reported(StopRule(p)) + Reported(TakeRule(p));
    ValidationUnrolled(p);
  }

  /** The errors of the range rules, rule by rule. */
  lemma RangeRulesUnrolled(p: TradingParameters)
    ensures Failures(RangeRules(p))
         == Reported(Check(p.entryPrice <= 0.0, EntryPriceNotPositive))
          + Reported(Check(p.stopLoss <= 0.0, StopLossNotPositive))
          + Reported(Check(p.takeProfit <= 0.0, TakeProfitNotPositive))
          + Reported(Check(p.accountBalance <= 0.0, AccountBalanceNotPositive))
          + Reported(Check(OutOfRange(p.riskPercentage, 100.0), RiskPercentageOutOfRange))
          + Reported(Check(OutOfRange(p.leverage, 125.0), LeverageOutOfRange))
  {
    var c1 := Check(p.entryPrice <= 0.0, EntryPriceNotPositive);
    var c2 := Check(p.stopLoss <= 0.0, StopLossNotPositive);
    var c3 := Check(p.takeProfit <= 0.0, TakeProfitNotPositive);
    var c4 := Check(p.accountBalance <= 0.0, AccountBalanceNotPositive);
    var c5 := Check(OutOfRange(p.riskPercentage, 100.0), RiskPercentageOutOfRange);
    var c6 := Check(OutOfRange(p.leverage, 125.0), LeverageOutOfRange);
    FailuresAppend([c1] + [c2] + [c3] + [c4] + [c5], [c6]);
    FailuresAppend([c1] + [c2] + [c3] + [c4], [c5]);
    FailuresAppend([c1] + [c2] + [c3], [c4]);
    FailuresAppend([c1] + [c2], [c3]);
    FailuresAppend([c1], [c2]);
    FailuresSingle(c1);
    FailuresSingle(c2);
    FailuresSingle(c3);
    FailuresSingle(c4);
    FailuresSingle(c5);
    FailuresSingle(c6);
  }

  /** The errors of all eight rules, rule by rule. */
  lemma ValidationUnrolled(p: TradingParameters)
    ensures Failures(ValidationRules(p))
         == Reported(Check(p.entryPrice <= 0.0, EntryPriceNotPositive))
          + Reported(Check(p.stopLoss <= 0.0, StopLossNotPositive))
          + Reported(Check(p.takeProfit <= 0.0, TakeProfitNotPositive))
          + Reported(Check(p.accountBalance <= 0.0, AccountBalanceNotPositive))
          + Reported(Check(OutOfRange(p.riskPercentage, 100.0), RiskPercentageOutOfRange))
          + Reported(Check(OutOfRange(p.leverage, 125.0), LeverageOutOfRange))
          + Reported(StopRule(p)) + Reported(TakeRule(p))
  {
    FailuresAppend(RangeRules(p) + [StopRule(p)], [TakeRule(p)]);
    FailuresAppend(RangeRules(p), [StopRule(p)]);
    RangeRulesUnrolled(p);
    FailuresSingle(StopRule(p));
    FailuresSingle(TakeRule(p));
  }

  /** A parameter set with no errors is one the engine can compute on, with
      a positive balance and the prices ordered for the declared direction. */
  lemma AcceptedIsComputable(p: TradingParameters)
    requires Failures(ValidationRules(p)) == []
    ensures Computable(SetupOf(p)) && p.accountBalance > 0.0
    ensures p.stopLoss != p.entryPrice && p.takeProfit != p.entryPrice
    ensures p.positionType == Long ==> p.stopLoss < p.entryPrice < p.takeProfit
    ensures p.positionType == Short ==> p.takeProfit < p.entryPrice < p.stopLoss
  {
    var rules := ValidationRules(p);
    NoFailuresIffAllPass(rules);
    assert !rules[0].fails && !rules[1].fails && !rules[3].fails && !rules[4].fails && !rules[5].fails;
    assert !rules[6].fails && !rules[7].fails;
  }

  /** The leverage message says 1 to 125, but any leverage in (0, 1) passes:
      0.5 is accepted. */
  lemma FractionalLeverageAccepted()
    ensures Failures(ValidationRules(TradingParameters(100.0, 90.0, 120.0, 0.5, Long, 1.0, 1000.0))) == []
  {
    var rules := ValidationRules(TradingParameters(100.0, 90.0, 120.0, 0.5, Long, 1.0, 1000.0));
    NoFailuresIffAllPass(rules);
  }
}
