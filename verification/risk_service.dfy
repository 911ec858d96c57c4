/** The lightweight backend service (`RiskService`): the engine copy that
    reads `balance` and never `accountBalance`, takes the direction from the
    string `positionType` ("long" or anything else) and splits the analysis
    into simulations, risk assessment and recommendations. */
module RiskService {
  import opened TradingTypes
  import opened RiskReference

  /** The reference inputs of this copy: long only for the exact string
      "long", and the balance is `balance`. */
  function SetupOf(p: TradingParams): Setup
  {
    Setup(p.entryPrice, p.stopLoss, p.takeProfit, p.leverage, p.positionType == "long",
          p.riskPercentage, p.balance)
  }

  function CalculateLiquidationPrice(entryPrice: real, leverage: real, isLong: bool): (r: real)
    requires leverage != 0.0
    ensures r == LiquidationReference(entryPrice, leverage, isLong)
  {
    var maintenanceMarginRate := 0.005;
    var liquidationThreshold := 1.0 - maintenanceMarginRate;
    if isLong then entryPrice * (1.0 - (1.0 / leverage) * liquidationThreshold)
    else entryPrice * (1.0 + (1.0 / leverage) * liquidationThreshold)
  }

  function CalculatePositionSize(balance: real, riskPercentage: real, entryPrice: real, stopLoss: real): (r: real)
    requires entryPrice != stopLoss
    ensures r * Abs(entryPrice - stopLoss) == balance * riskPercentage / 100.0
  {
    var riskAmount := balance * (riskPercentage / 100.0);
    var stopLossDistance := Abs(entryPrice - stopLoss);
    assert riskAmount / stopLossDistance * stopLossDistance == riskAmount;
    riskAmount / stopLossDistance
  }

  /** Lines 64-101: the calculations, with the position size computed
      inline. They are the reference calculations of this copy's inputs. */
  function Metrics(p: TradingParams): (c: Calculations)
    requires Computable(SetupOf(p))
    ensures c == ReferenceCalculations(SetupOf(p))
  {
    var s := SetupOf(p);  // isLong is positionType == "long", the balance is `balance`
    var liquidationPrice := CalculateLiquidationPrice(s.entryPrice, s.leverage, s.isLong);
    var riskAmount := s.balance * (s.riskPercentage / 100.0);
    var stopLossDistance := Abs(s.entryPrice - s.stopLoss);
    var positionSize := riskAmount / stopLossDistance;
    var positionValue := positionSize * s.entryPrice;
    var marginRequired := positionValue / s.leverage;
    var orderValue := marginRequired * s.leverage;
    var takeProfitDistance := Abs(s.takeProfit - s.entryPrice);
    var potentialProfit := positionSize * takeProfitDistance;
    var potentialLoss := positionSize * stopLossDistance;
    assert positionSize == PositionSize(s);
    assert potentialLoss != 0.0 by {
      CalculationSteps(s, positionSize);
    }
    var riskRewardRatio := potentialProfit / potentialLoss;
    var maxLossPercentage := (potentialLoss / s.balance) * 100.0;
    var distanceToLiquidation := Abs(s.entryPrice - liquidationPrice);
    var c := Calculations(
      liquidationPrice, positionSize, positionSize, marginRequired, orderValue,
      potentialProfit, potentialLoss, riskRewardRatio, maxLossPercentage, distanceToLiquidation);
    assert c == ReferenceCalculations(s) by {
      DerivedIsReference(s, liquidationPrice, positionSize, marginRequired, orderValue,
                         potentialProfit, potentialLoss, riskRewardRatio, maxLossPercentage, distanceToLiquidation);
    }
    c
  }

  /** The size the standalone helper returns is the one the analysis uses. */
  lemma PositionSizeMatchesAnalysis(p: TradingParams)
    requires Computable(SetupOf(p))
    ensures CalculatePositionSize(p.balance, p.riskPercentage, p.entryPrice, p.stopLoss)
         == Metrics(p).positionSize
  {
  }

  /** The three scenarios in fixed order; each result balance is the balance
      plus its P&L, and each percentage is that P&L relative to the balance. */
  method RunSimulations(params: TradingParams, calculations: Calculations) returns (simulations: seq<Simulation>)
    requires params.balance != 0.0
    ensures Scenarios(simulations) == [StopLossHit, TakeProfitHit, Liquidation]
    ensures forall i :: 0 <= i < |simulations| ==> BalanceConsistent(simulations[i], params.balance)
    ensures simulations[0].pnl == -calculations.potentialLoss
    ensures simulations[0].description == StopLossHitAt(params.stopLoss)
    ensures simulations[1].pnl == calculations.potentialProfit
    ensures simulations[1].description == TakeProfitHitAt(params.takeProfit)
    ensures simulations[2] == LiquidationScenario(params.balance)
  {
    var balance, stopLoss, takeProfit := params.balance, params.stopLoss, params.takeProfit;
    var potentialProfit, potentialLoss := calculations.potentialProfit, calculations.potentialLoss;
    simulations := [];

    var stopLossBalance := balance - potentialLoss;
    simulations := simulations + [Simulation(StopLossHit, stopLossBalance, -potentialLoss,
                                             -(potentialLoss / balance) * 100.0, StopLossHitAt(stopLoss))];

    var takeProfitBalance := balance + potentialProfit;
    simulations := simulations + [Simulation(TakeProfitHit, takeProfitBalance, potentialProfit,
                                             (potentialProfit / balance) * 100.0, TakeProfitHitAt(takeProfit))];

    var liquidationLoss := balance * 0.9;
    var liquidationBalance := balance - liquidationLoss;
    simulations := simulations + [Simulation(Liquidation, liquidationBalance, -liquidationLoss, -90.0,
                                             LiquidatedWithLoss(liquidationLoss))];
    assert simulations[0].pnlPercentage * balance == simulations[0].pnl * 100.0 by {
      DivTimes(potentialLoss, balance);
    }
    assert simulations[1].pnlPercentage * balance == simulations[1].pnl * 100.0 by {
      DivTimes(potentialProfit, balance);
    }
  }

  /** The first level of the threshold table whose row matches. */
  function AssessRiskLevel(calculations: Calculations): (level: RiskLevel)
    ensures level == RiskTable(calculations.maxLossPercentage, calculations.riskRewardRatio)
  {
    var maxLossPercentage, riskRewardRatio := calculations.maxLossPercentage, calculations.riskRewardRatio;
    RiskTableRows(maxLossPercentage, riskRewardRatio);
    if maxLossPercentage > 10.0 || riskRewardRatio < 0.5 then Extreme
    else if maxLossPercentage > 5.0 || riskRewardRatio < 1.0 then High
    else if maxLossPercentage > 2.0 || riskRewardRatio < 1.5 then Medium
    else Low
  }

  /** The standard recommendations for the level and the two metrics. */
  method GenerateRecommendations(calculations: Calculations, riskLevel: RiskLevel)
    returns (recommendations: seq<Recommendation>)
    ensures recommendations
         == StandardRecommendations(riskLevel, calculations.maxLossPercentage, calculations.riskRewardRatio)
    ensures 1 <= |recommendations| <= 4
  {
    recommendations := [];
    if riskLevel == Extreme {
      recommendations := recommendations + [ReduceSizeSignificantly];
      recommendations := recommendations + [RatioUnfavorable];
    }
    ghost var extreme := if riskLevel == Extreme then [ReduceSizeSignificantly, RatioUnfavorable] else [];
    assert recommendations == extreme;
    if riskLevel == High {
      recommendations := recommendations + [TighterStopLoss];
      recommendations := recommendations + [ReduceLeverage];
    }
    ghost var high := if riskLevel == High then [TighterStopLoss, ReduceLeverage] else [];
    assert recommendations == extreme + high;
    if calculations.riskRewardRatio < 1.5 {
      recommendations := recommendations + [AimForRatio];
    }
    if calculations.maxLossPercentage > 2.0 {
      recommendations := recommendations + [ProfessionalRisk];
    }
    assert recommendations == extreme + high
      + (if calculations.riskRewardRatio < 1.5 then [AimForRatio] else [])
      + (if calculations.maxLossPercentage > 2.0 then [ProfessionalRisk] else []);
    if |recommendations| == 0 {
      recommendations := recommendations + [LooksReasonable];
      recommendations := recommendations + [AlwaysUseStopLosses];
    }
  }

  /** What `analyzeRisk` returns: the parameters it was given, the analysis
      and the time of the call. */
  datatype Report = Report(parameters: TradingParams, analysis: Analysis, timestamp: Time)

  /** The report holds the reference analysis of this copy's inputs; `now`
      stands for the clock. */
  method AnalyzeRisk(params: TradingParams, now: Time) returns (report: Report)
    requires Computable(SetupOf(params))
    ensures report.parameters == params && report.timestamp == now
    ensures report.analysis == ReferenceAnalysis(SetupOf(params))
  {
    var s := SetupOf(params);
    var calculations := Metrics(params);
    var simulations := RunSimulations(params, calculations);
    assert simulations == ReferenceSimulations(s) by {
      SimulationsShape(s);
      SimulationsDetermined(simulations, ReferenceSimulations(s), s.balance);
    }
    var riskLevel := AssessRiskLevel(calculations);
    var recommendations := GenerateRecommendations(calculations, riskLevel);
    report := Report(params, Analysis(calculations, simulations, riskLevel, recommendations), now);
  }

  /** The service never reads `accountBalance`: two parameter sets that
      differ only there get the same analysis (the report still echoes the
      parameters as given). */
  lemma AccountBalanceIgnored(p: TradingParams, q: TradingParams)
    requires q == p.(accountBalance := q.accountBalance)
    ensures SetupOf(p) == SetupOf(q)
    ensures Computable(SetupOf(p)) ==> ReferenceAnalysis(SetupOf(p)) == ReferenceAnalysis(SetupOf(q))
  {
  }

  /** Any position type other than "long" is priced as a short. */
  lemma OnlyLongIsLong(p: TradingParams)
    ensures SetupOf(p).isLong <==> p.positionType == "long"
  {
  }

  /** The topics of the six general risk-management tips. */
  datatype Topic =
    | PositionSizing
    | StopLossTip
    | RiskReward
    | LeverageTip
    | Diversification
    | EmotionalControl

  function Title(t: Topic): string
  {
    match t
    case PositionSizing => "Position Sizing"
    case StopLossTip => "Stop Loss"
    case RiskReward => "Risk-Reward"
    case LeverageTip => "Leverage"
    case Diversification => "Diversification"
    case EmotionalControl => "Emotional Control"
  }

  function Advice(t: Topic): string
  {
    match t
    case PositionSizing => "Never risk more than 1-2% of your account on a single trade"
    case StopLossTip => "Always use a stop loss to limit potential losses"
    case RiskReward => "Aim for at least 1.5:1 to 2:1 risk-reward ratio"
    case LeverageTip => "Lower leverage reduces liquidation risk"
    case Diversification => "Spread risk across multiple positions"
    case EmotionalControl => "Stick to your trading plan regardless of emotions"
  }

  /** The six fixed tips, each topic once, in the order of the source. */
  function GetRecommendations(): (tips: seq<Topic>)
    ensures |tips| == 6
  {
    [PositionSizing, StopLossTip, RiskReward, LeverageTip, Diversification, EmotionalControl]
  }

  /** Every topic appears among the tips, exactly once. */
  lemma EveryTopicOnce(t: Topic)
    ensures t in GetRecommendations()
    ensures forall i, j :: 0 <= i < j < |GetRecommendations()| ==> GetRecommendations()[i] != GetRecommendations()[j]
  {
    var tips := GetRecommendations();
    match t
    case PositionSizing => assert tips[0] == t;
    case StopLossTip => assert tips[1] == t;
    case RiskReward => assert tips[2] == t;
    case LeverageTip => assert tips[3] == t;
    case Diversification => assert tips[4] == t;
    case EmotionalControl => assert tips[5] == t;
  }

  /** No two topics share a title, so the six tips carry six titles. */
  lemma TitlesDistinct(a: Topic, b: Topic)
    ensures Title(a) == Title(b) <==> a == b
  {
    if a != b {
      assert Title(a)[0] != Title(b)[0];
    }
  }
}
