/** The frontend domain copy of the engine (`RiskCalculation`): the same
    liquidation price, position size, metrics, simulations, risk level and
    recommendations as the backend service, without the `Money` formatting
    and therefore without its failure. */
module RiskCalculationUtil {
  import opened TradingTypes
  import opened RiskReference
  import RiskCalculationService

  function CalculateLiquidationPrice(entryPrice: real, leverage: real, positionType: PositionType): (r: real)
    requires leverage != 0.0
    ensures r == LiquidationReference(entryPrice, leverage, positionType == Long)
  {
    var liquidationThreshold := 1.0 - MaintenanceMarginRate;
    if positionType == Long then entryPrice * (1.0 - (1.0 / leverage) * liquidationThreshold)
    else entryPrice * (1.0 + (1.0 / leverage) * liquidationThreshold)
  }

  /** The size whose stop-loss distance loses the risk amount. */
  function CalculatePositionSize(accountBalance: real, riskPercentage: real, entryPrice: real, stopLoss: real)
    : (r: real)
    requires entryPrice != stopLoss
    ensures r * Abs(entryPrice - stopLoss) == accountBalance * riskPercentage / 100.0
  {
    var riskAmount := accountBalance * (riskPercentage / 100.0);
    var stopLossDistance := Abs(entryPrice - stopLoss);
    assert riskAmount / stopLossDistance * stopLossDistance == riskAmount;
    riskAmount / stopLossDistance
  }

  /** The frontend and backend copies give the same liquidation price and
      the same position size on every input. */
  lemma CopiesAgree(entryPrice: real, stopLoss: real, leverage: real, positionType: PositionType,
                    accountBalance: real, riskPercentage: real)
    requires leverage != 0.0 && entryPrice != stopLoss
    ensures CalculateLiquidationPrice(entryPrice, leverage, positionType)
         == RiskCalculationService.CalculateLiquidationPrice(entryPrice, leverage, positionType)
    ensures CalculatePositionSize(accountBalance, riskPercentage, entryPrice, stopLoss)
         == RiskCalculationService.CalculatePositionSize(accountBalance, riskPercentage, entryPrice, stopLoss)
  {
  }

  /** The metrics of lines 47-75, derived one after the other from the
      position size: they are the reference calculations. */
  function Metrics(p: TradingParameters): (c: Calculations)
    requires Computable(RiskCalculationService.SetupOf(p))
    ensures c == ReferenceCalculations(RiskCalculationService.SetupOf(p))
  {
    var s := RiskCalculationService.SetupOf(p);  // the parameters as the reference reads them
    var liquidationPrice := CalculateLiquidationPrice(s.entryPrice, s.leverage, p.positionType);
    var positionSize := CalculatePositionSize(s.balance, s.riskPercentage, s.entryPrice, s.stopLoss);
    var positionValue := positionSize * s.entryPrice;
    var marginRequired := positionValue / s.leverage;
    var orderValue := marginRequired * s.leverage;
    var takeProfitDistance := Abs(s.takeProfit - s.entryPrice);
    var potentialProfit := positionSize * takeProfitDistance;
    var potentialLoss := positionSize * Abs(s.entryPrice - s.stopLoss);
    assert positionSize == PositionSize(s);
    assert potentialLoss != 0.0 by {
      CalculationSteps(s, positionSize);
    }
    var riskRewardRatio := potentialProfit / potentialLoss;
    var maxLossPercentage := (potentialLoss / s.balance) * 100.0;
    var distanceToLiquidation := Abs(s.entryPrice - liquidationPrice);
    var c := Calculations(
      liquidationPrice, positionSize, positionSize, marginRequired, orderValue,
      potentialProfit, potentialLoss, riskRewardRatio, maxLossPercentage, distanceToLiquidation);
    assert c == ReferenceCalculations(s) by {
      DerivedIsReference(s, liquidationPrice, positionSize, marginRequired, orderValue,
                         potentialProfit, potentialLoss, riskRewardRatio, maxLossPercentage, distanceToLiquidation);
    }
    c
  }

  /** The analysis is the reference analysis of the parameters, so on every
      input the backend service accepts it is the backend's analysis. */
  method AnalyzeRisk(p: TradingParameters) returns (a: Analysis)
    requires Computable(RiskCalculationService.SetupOf(p))
    ensures a == ReferenceAnalysis(RiskCalculationService.SetupOf(p))
  {
    var s := RiskCalculationService.SetupOf(p);
    var stopLoss, takeProfit, accountBalance := p.stopLoss, p.takeProfit, p.accountBalance;
    var calculations := Metrics(p);
    var potentialProfit, potentialLoss := calculations.potentialProfit, calculations.potentialLoss;
    var riskRewardRatio, maxLossPercentage := calculations.riskRewardRatio, calculations.maxLossPercentage;
    RatioSteps(s);

    var simulations := [
      Simulation(StopLossHit, accountBalance - potentialLoss, -potentialLoss,
                 -(potentialLoss / accountBalance) * 100.0, StopLossHitAt(stopLoss)),
      Simulation(TakeProfitHit, accountBalance + potentialProfit, potentialProfit,
                 (potentialProfit / accountBalance) * 100.0, TakeProfitHitAt(takeProfit)),
      Simulation(Liquidation, accountBalance * 0.1, -(accountBalance * 0.9), -90.0,
                 LiquidatedWithLoss(accountBalance * 0.9))
    ];
    assert -(potentialLoss / accountBalance) * 100.0 == -p.riskPercentage;
    assert (potentialProfit / accountBalance) * 100.0 == p.riskPercentage * RewardRatio(s);
    assert simulations[0] == ReferenceSimulations(s)[0];
    assert simulations[1] == ReferenceSimulations(s)[1];
    assert simulations[2] == LiquidationScenario(accountBalance);
    assert simulations == ReferenceSimulations(s);

    var riskLevel := Low;
    if maxLossPercentage > 10.0 || riskRewardRatio < 0.5 {
      riskLevel := Extreme;
    } else if maxLossPercentage > 5.0 || riskRewardRatio < 1.0 {
      riskLevel := High;
    } else if maxLossPercentage > 2.0 || riskRewardRatio < 1.5 {
      riskLevel := Medium;
    }
    RiskTableRows(maxLossPercentage, riskRewardRatio);

    var recommendations: seq<Recommendation> := [];
    if riskLevel == Extreme {
      recommendations := recommendations + [ReduceSizeSignificantly];
      recommendations := recommendations + [RatioUnfavorable];
    }
    ghost var extreme := if riskLevel == Extreme then [ReduceSizeSignificantly, RatioUnfavorable] else [];
    assert recommendations == extreme;
    if riskLevel == High {
      recommendations := recommendations + [TighterStopLoss];
      recommendations := recommendations + [ReduceLeverage];
    }
    ghost var high := if riskLevel == High then [TighterStopLoss, ReduceLeverage] else [];
    assert recommendations == extreme + high;
    if riskRewardRatio < 1.5 {
      recommendations := recommendations + [AimForRatio];
    }
    if maxLossPercentage > 2.0 {
      recommendations := recommendations + [ProfessionalRisk];
    }
    ghost var added := extreme + high + (if riskRewardRatio < 1.5 then [AimForRatio] else [])
      + (if maxLossPercentage > 2.0 then [ProfessionalRisk] else []);
    assert recommendations == added;
    if |recommendations| == 0 {
      recommendations := recommendations + [LooksReasonable];
      recommendations := recommendations + [AlwaysUseStopLosses];
    }
    assert recommendations == StandardRecommendations(riskLevel, maxLossPercentage, riskRewardRatio);

    a := Analysis(calculations, simulations, riskLevel, recommendations);
  }

  /** The Tailwind colour class of each risk level: a text colour of shade
      600. */
  function GetRiskLevelColor(level: RiskLevel): (color: string)
    ensures |color| >= 12 && color[..5] == "text-" && color[|color| - 4..] == "-600"
  {
    match level
    case Low => "text-green-600"
    case Medium => "text-yellow-600"
    case High => "text-orange-600"
    case Extreme => "text-red-600"
  }

  /** The four levels get four different colours. */
  lemma RiskLevelColorsDistinct(a: RiskLevel, b: RiskLevel)
    ensures GetRiskLevelColor(a) == GetRiskLevelColor(b) <==> a == b
  {
    if a != b {
      var x, y := GetRiskLevelColor(a), GetRiskLevelColor(b);
      assert x[5] != y[5];
    }
  }
}
