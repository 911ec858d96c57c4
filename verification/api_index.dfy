/** The serverless API entry point: an inline copy of the liquidation
    formula, the body of the `/risk/analyze` handler after schema
    validation, and the `/risk/liquidation` endpoint. */
module ApiIndex {
  import opened Wrappers
  import opened TradingTypes
  import opened RiskReference
  import RiskService

  function CalculateLiquidationPrice(entryPrice: real, leverage: real, isLong: bool): (r: real)
    requires leverage != 0.0
    ensures r == LiquidationReference(entryPrice, leverage, isLong)
  {
    var maintenanceMarginRate := 0.005;
    var liquidationThreshold := 1.0 - maintenanceMarginRate;
    if isLong then entryPrice * (1.0 - (1.0 / leverage) * liquidationThreshold)
    else entryPrice * (1.0 + (1.0 / leverage) * liquidationThreshold)
  }

  /** The request schema of `/risk/analyze`: positive prices and balances,
      leverage in [1, 125], risk in [0.1, 100] and a known position type. */
  predicate SchemaValid(p: TradingParams)
  {
    p.entryPrice > 0.0 && p.stopLoss > 0.0 && p.takeProfit > 0.0 && p.balance > 0.0
    && p.accountBalance > 0.0 && 1.0 <= p.leverage <= 125.0 && 0.1 <= p.riskPercentage <= 100.0
    && (p.positionType == "long" || p.positionType == "short")
  }

  /** The schema leaves one input on which the engine divides by zero: a
      stop loss at the entry price. Every other accepted input is
      computable. */
  lemma SchemaValidIsComputable(p: TradingParams)
    requires SchemaValid(p)
    ensures Computable(RiskService.SetupOf(p)) <==> p.stopLoss != p.entryPrice
  {
  }

  /** Lines 79-104 of the handler: the calculations, read from `balance`. */
  function HandlerCalculations(p: TradingParams): (c: Calculations)
    requires Computable(RiskService.SetupOf(p))
    ensures c == ReferenceCalculations(RiskService.SetupOf(p))
  {
    var s := RiskService.SetupOf(p);  // isLong is positionType == "long", the balance is `balance`
    var liquidationPrice := CalculateLiquidationPrice(s.entryPrice, s.leverage, s.isLong);
    var riskAmount := s.balance * (s.riskPercentage / 100.0);
    var stopLossDistance := Abs(s.entryPrice - s.stopLoss);
    var positionSize := riskAmount / stopLossDistance;
    var positionValue := positionSize * s.entryPrice;
    var marginRequired := positionValue / s.leverage;
    var orderValue := marginRequired * s.leverage;
    var takeProfitDistance := Abs(s.takeProfit - s.entryPrice);
    var potentialProfit := positionSize * takeProfitDistance;
    var potentialLoss := positionSize * stopLossDistance;
    assert positionSize == PositionSize(s);
    assert potentialLoss != 0.0 by {
      CalculationSteps(s, positionSize);
    }
    var riskRewardRatio := potentialProfit / potentialLoss;
    var maxLossPercentage := (potentialLoss / s.balance) * 100.0;
    var distanceToLiquidation := Abs(s.entryPrice - liquidationPrice);
    var c := Calculations(
      liquidationPrice, positionSize, positionSize, marginRequired, orderValue,
      potentialProfit, potentialLoss, riskRewardRatio, maxLossPercentage, distanceToLiquidation);
    assert c == ReferenceCalculations(s) by {
      DerivedIsReference(s, liquidationPrice, positionSize, marginRequired, orderValue,
                         potentialProfit, potentialLoss, riskRewardRatio, maxLossPercentage, distanceToLiquidation);
    }
    c
  }

  /** The order value is the position value and the loss is the risk
      amount of `balance`, whatever `accountBalance` says. */
  lemma HandlerIdentities(p: TradingParams)
    requires Computable(RiskService.SetupOf(p))
    ensures HandlerCalculations(p).orderValue == HandlerCalculations(p).positionSize * p.entryPrice
    ensures HandlerCalculations(p).potentialLoss == p.balance * p.riskPercentage / 100.0
  {
    var s := RiskService.SetupOf(p);
    OrderValueAndMargin(s);
    LossIsRiskAmount(s);
  }

  /** The handler body of `/risk/analyze` (lines 76-152): the response data
      holds the request, the reference analysis of its inputs and the time
      `now` of the call. */
  method AnalyzeHandler(params: TradingParams, now: Time) returns (data: RiskService.Report)
    requires Computable(RiskService.SetupOf(params))
    ensures data.parameters == params && data.timestamp == now
    ensures data.analysis == ReferenceAnalysis(RiskService.SetupOf(params))
  {
    var s := RiskService.SetupOf(params);
    var balance, stopLoss, takeProfit := params.balance, params.stopLoss, params.takeProfit;
    var calculations := HandlerCalculations(params);
    var potentialProfit, potentialLoss := calculations.potentialProfit, calculations.potentialLoss;
    var riskRewardRatio, maxLossPercentage := calculations.riskRewardRatio, calculations.maxLossPercentage;
    RatioSteps(s);

    var simulations := [
      Simulation(StopLossHit, balance - potentialLoss, -potentialLoss,
                 -(potentialLoss / balance) * 100.0, StopLossHitAt(stopLoss)),
      Simulation(TakeProfitHit, balance + potentialProfit, potentialProfit,
                 (potentialProfit / balance) * 100.0, TakeProfitHitAt(takeProfit)),
      Simulation(Liquidation, balance * 0.1, -(balance * 0.9), -90.0, LiquidatedWithLoss(balance * 0.9))
    ];
    assert -(potentialLoss / balance) * 100.0 == -params.riskPercentage;
    assert (potentialProfit / balance) * 100.0 == params.riskPercentage * RewardRatio(s);
    assert simulations[0] == ReferenceSimulations(s)[0];
    assert simulations[1] == ReferenceSimulations(s)[1];
    assert simulations[2] == LiquidationScenario(balance);
    assert simulations == ReferenceSimulations(s);

    var riskLevel := Low;
    if maxLossPercentage > 10.0 || riskRewardRatio < 0.5 {
      riskLevel := Extreme;
    } else if maxLossPercentage > 5.0 || riskRewardRatio < 1.0 {
      riskLevel := High;
    } else if maxLossPercentage > 2.0 || riskRewardRatio < 1.5 {
      riskLevel := Medium;
    }
    RiskTableRows(maxLossPercentage, riskRewardRatio);

    var recommendations: seq<Recommendation> := [];
    if riskLevel == Extreme {
      recommendations := recommendations + [ReduceSizeSignificantly];
      recommendations := recommendations + [RatioUnfavorable];
    }
    ghost var extreme := if riskLevel == Extreme then [ReduceSizeSignificantly, RatioUnfavorable] else [];
    assert recommendations == extreme;
    if riskLevel == High {
      recommendations := recommendations + [TighterStopLoss];
      recommendations := recommendations + [ReduceLeverage];
    }
    ghost var high := if riskLevel == High then [TighterStopLoss, ReduceLeverage] else [];
    assert recommendations == extreme + high;
    if riskRewardRatio < 1.5 {
      recommendations := recommendations + [AimForRatio];
    }
    if maxLossPercentage > 2.0 {
      recommendations := recommendations + [ProfessionalRisk];
    }
    ghost var added := extreme + high + (if riskRewardRatio < 1.5 then [AimForRatio] else [])
      + (if maxLossPercentage > 2.0 then [ProfessionalRisk] else []);
    assert recommendations == added;
    if |recommendations| == 0 {
      recommendations := recommendations + [LooksReasonable];
      recommendations := recommendations + [AlwaysUseStopLosses];
    }
    assert recommendations == StandardRecommendations(riskLevel, maxLossPercentage, riskRewardRatio);

    data := RiskService.Report(params, Analysis(calculations, simulations, riskLevel, recommendations), now);
  }

  /** The response data of `/risk/liquidation`. */
  datatype LiquidationData = LiquidationData(liquidationPrice: real, entryPrice: real, leverage: real, isLong: bool)

  /** A request without `isLong` is priced as a long. */
  function LiquidationEndpoint(entryPrice: real, leverage: real, isLong: Option<bool>): (data: LiquidationData)
    requires leverage != 0.0
    ensures data.isLong == (isLong != Some(false))
    ensures data.liquidationPrice == LiquidationReference(entryPrice, leverage, data.isLong)
    ensures data.entryPrice == entryPrice && data.leverage == leverage
  {
    var long := isLong.GetOr(true);
    LiquidationData(CalculateLiquidationPrice(entryPrice, leverage, long), entryPrice, leverage, long)
  }
}
