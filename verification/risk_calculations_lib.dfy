/** The frontend library copy of the engine (`lib/riskCalculations`): no
    position type (the direction is inferred from the take profit), an
    optional risk percentage that defaults to 1, eight calculation fields
    and its own recommendation rules. */
module RiskCalculationsLib {
  import opened Wrappers
  import opened TradingTypes
  import opened RiskReference

  /** The calculations of this copy: no position size, no order value. */
  datatype LibCalculations = LibCalculations(
    liquidationPrice: real,
    maxLossPercentage: real,
    riskRewardRatio: real,
    recommendedPositionSize: real,
    potentialProfit: real,
    potentialLoss: real,
    marginRequired: real,
    distanceToLiquidation: real)

  /** The recommendations of this copy. `LimitMaxLoss` carries the 2 % cap
      on the balance that the message formats. */
  datatype LibAdvice =
    | LimitMaxLoss(cap: real)
    | RatioBelowTarget
    | HighMarginUsage
    | LiquidationTooClose
    | ExtremeRiskWarning
    | SetupReasonable

  /** The text of each message; `capText` is the cap as `toFixed(2)`
      prints it, which is not modelled. */
  function AdviceText(a: LibAdvice, capText: string): string
  {
    match a
    case LimitMaxLoss(_) =>
      "Consider reducing position size to limit max loss to 2% of balance ($" + capText + ")"
    case RatioBelowTarget => "Risk/Reward ratio is below 1.5:1. Consider adjusting take profit or stop loss"
    case HighMarginUsage => "High margin usage. Consider reducing leverage or position size"
    case LiquidationTooClose => "Liquidation price is too close to entry. Consider reducing leverage"
    case ExtremeRiskWarning => "\U{26A0}\U{FE0F} EXTREME RISK: This trade has very high risk parameters"
    case SetupReasonable => "\U{2705} Risk parameters look reasonable for this trade setup"
  }

  datatype LibAnalysis = LibAnalysis(
    parameters: BaseParameters,
    calculations: LibCalculations,
    simulations: seq<Simulation>,
    riskLevel: RiskLevel,
    recommendations: seq<LibAdvice>)

  /** Long exactly when the take profit is above the entry; a missing risk
      percentage is 1. */
  function SetupOf(p: BaseParameters): Setup
  {
    Setup(p.entryPrice, p.stopLoss, p.takeProfit, p.leverage, p.takeProfit > p.entryPrice,
          p.riskPercentage.GetOr(1.0), p.balance)
  }

  /** The eight fields this copy keeps of the full calculations. */
  function Trimmed(c: Calculations): LibCalculations
  {
    LibCalculations(c.liquidationPrice, c.maxLossPercentage, c.riskRewardRatio, c.recommendedPositionSize,
                    c.potentialProfit, c.potentialLoss, c.marginRequired, c.distanceToLiquidation)
  }

  function CalculateLiquidationPrice(entryPrice: real, leverage: real, isLong: bool): (r: real)
    requires leverage != 0.0
    ensures r == LiquidationReference(entryPrice, leverage, isLong)
  {
    var maintenanceMarginRate := 0.005;
    var liquidationThreshold := 1.0 - maintenanceMarginRate;
    if isLong then entryPrice * (1.0 - (1.0 / leverage) * liquidationThreshold)
    else entryPrice * (1.0 + (1.0 / leverage) * liquidationThreshold)
  }

  /** The eight reference calculations of this copy's inputs. */
  function CalculateRiskMetrics(p: BaseParameters): (c: LibCalculations)
    requires Computable(SetupOf(p))
    ensures c == Trimmed(ReferenceCalculations(SetupOf(p)))
  {
    var s := SetupOf(p);  // the parameters, direction and default risk read off p
    var liquidationPrice := CalculateLiquidationPrice(s.entryPrice, s.leverage, s.isLong);
    var riskAmount := s.balance * (s.riskPercentage / 100.0);
    var stopLossDistance := Abs(s.entryPrice - s.stopLoss);
    var recommendedPositionSize := riskAmount / stopLossDistance;
    var positionValue := recommendedPositionSize * s.entryPrice;
    var marginRequired := positionValue / s.leverage;
    var takeProfitDistance := Abs(s.takeProfit - s.entryPrice);
    var potentialProfit := recommendedPositionSize * takeProfitDistance;
    var potentialLoss := recommendedPositionSize * stopLossDistance;
    assert recommendedPositionSize == PositionSize(s) && marginRequired == MarginRequired(s)
        && potentialProfit == PotentialProfit(s) && potentialLoss == RiskAmount(s) != 0.0 by {
      CalculationSteps(s, recommendedPositionSize);
    }
    var maxLossPercentage := (potentialLoss / s.balance) * 100.0;
    var riskRewardRatio := potentialProfit / potentialLoss;
    var distanceToLiquidation := Abs(s.entryPrice - liquidationPrice);
    assert maxLossPercentage == s.riskPercentage && riskRewardRatio == RewardRatio(s)
        && distanceToLiquidation == LiquidationDistance(s) by {
      CalculationSteps(s, recommendedPositionSize);
    }
    LibCalculations(liquidationPrice, maxLossPercentage, riskRewardRatio, recommendedPositionSize,
                    potentialProfit, potentialLoss, marginRequired, distanceToLiquidation)
  }

  /** A take profit at the entry price counts as a short. */
  lemma FlatTargetIsShort(p: BaseParameters)
    requires p.takeProfit == p.entryPrice
    ensures !SetupOf(p).isLong
  {
  }

  /** Without a risk percentage the analysis risks 1 % of the balance. */
  lemma DefaultRiskIsOnePercent(p: BaseParameters)
    requires p.riskPercentage.None? && Computable(SetupOf(p))
    ensures CalculateRiskMetrics(p).potentialLoss == p.balance / 100.0
    ensures CalculateRiskMetrics(p).maxLossPercentage == 1.0
  {
    LossIsRiskAmount(SetupOf(p));
  }

  /** The three scenarios in fixed order; each result balance is the balance
      plus its P&L, and each percentage is that P&L relative to the balance. */
  method RunSimulations(params: BaseParameters, calculations: LibCalculations) returns (simulations: seq<Simulation>)
    requires params.balance != 0.0
    ensures Scenarios(simulations) == [StopLossHit, TakeProfitHit, Liquidation]
    ensures forall i :: 0 <= i < |simulations| ==> BalanceConsistent(simulations[i], params.balance)
    ensures simulations[0].pnl == -calculations.potentialLoss
    ensures simulations[0].description == StopLossHitAt(params.stopLoss)
    ensures simulations[1].pnl == calculations.potentialProfit
    ensures simulations[1].description == TakeProfitHitAt(params.takeProfit)
    ensures simulations[2] == LiquidationScenario(params.balance)
  {
    var balance, stopLoss, takeProfit := params.balance, params.stopLoss, params.takeProfit;
    var potentialProfit, potentialLoss := calculations.potentialProfit, calculations.potentialLoss;
    simulations := [];

    var stopLossBalance := balance - potentialLoss;
    simulations := simulations + [Simulation(StopLossHit, stopLossBalance, -potentialLoss,
                                             -(potentialLoss / balance) * 100.0, StopLossHitAt(stopLoss))];

    var takeProfitBalance := balance + potentialProfit;
    simulations := simulations + [Simulation(TakeProfitHit, takeProfitBalance, potentialProfit,
                                             (potentialProfit / balance) * 100.0, TakeProfitHitAt(takeProfit))];

    var liquidationLoss := balance * 0.9;
    var liquidationBalance := balance - liquidationLoss;
    simulations := simulations + [Simulation(Liquidation, liquidationBalance, -liquidationLoss, -90.0,
                                             LiquidatedWithLoss(liquidationLoss))];
    assert simulations[0].pnlPercentage * balance == simulations[0].pnl * 100.0 by {
      DivTimes(potentialLoss, balance);
    }
    assert simulations[1].pnlPercentage * balance == simulations[1].pnl * 100.0 by {
      DivTimes(potentialProfit, balance);
    }
  }

  /** The same first-match threshold table as the other copies. */
  function AssessRiskLevel(calculations: LibCalculations): (level: RiskLevel)
    ensures level == RiskTable(calculations.maxLossPercentage, calculations.riskRewardRatio)
  {
    var maxLossPercentage, riskRewardRatio := calculations.maxLossPercentage, calculations.riskRewardRatio;
    RiskTableRows(maxLossPercentage, riskRewardRatio);
    if maxLossPercentage > 10.0 || riskRewardRatio < 0.5 then Extreme
    else if maxLossPercentage > 5.0 || riskRewardRatio < 1.0 then High
    else if maxLossPercentage > 2.0 || riskRewardRatio < 1.5 then Medium
    else Low
  }

  /** The five warning conditions of this copy, in the order they are
      tested. */
  predicate LossTooHigh(c: LibCalculations) { c.maxLossPercentage > 2.0 }
  predicate RatioTooLow(c: LibCalculations) { c.riskRewardRatio < 1.5 }
  predicate MarginTooHigh(p: BaseParameters, c: LibCalculations) { c.marginRequired > p.balance * 0.5 }
  predicate LiquidationClose(p: BaseParameters, c: LibCalculations)
  {
    c.distanceToLiquidation < Abs(p.entryPrice - p.stopLoss) * 2.0
  }

  /** The five optional warnings in their fixed order, each present when
      its flag is set. */
  function Options(loss: bool, ratio: bool, margin: bool, liquidation: bool, extreme: bool, cap: real)
    : seq<LibAdvice>
  {
    (if loss then [LimitMaxLoss(cap)] else [])
    + (if ratio then [RatioBelowTarget] else [])
    + (if margin then [HighMarginUsage] else [])
    + (if liquidation then [LiquidationTooClose] else [])
    + (if extreme then [ExtremeRiskWarning] else [])
  }

  /** The warnings that apply, in the fixed order; the loss warning names
      2 % of the balance. */
  function Warnings(p: BaseParameters, c: LibCalculations, level: RiskLevel): seq<LibAdvice>
  {
    Options(LossTooHigh(c), RatioTooLow(c), MarginTooHigh(p, c), LiquidationClose(p, c), level == Extreme,
            p.balance * 0.02)
  }

  /** The warnings, or the single reassurance when none applies. */
  function LibRecommendations(p: BaseParameters, c: LibCalculations, level: RiskLevel): seq<LibAdvice>
  {
    var warnings := Warnings(p, c, level);
    if warnings == [] then [SetupReasonable] else warnings
  }

  /** The reassurance appears, alone, exactly when none of the five
      conditions holds; otherwise every message is a warning. */
  lemma ReassuranceIffNoWarning(p: BaseParameters, c: LibCalculations, level: RiskLevel)
    ensures var recs := LibRecommendations(p, c, level);
      && (recs == [SetupReasonable]
          <==> !LossTooHigh(c) && !RatioTooLow(c) && !MarginTooHigh(p, c) && !LiquidationClose(p, c)
               && level != Extreme)
      && (SetupReasonable in recs ==> recs == [SetupReasonable])
      && 1 <= |recs| <= 5
  {
    var w := Warnings(p, c, level);
    assert SetupReasonable !in w;
  }

  /** The position of each message in the fixed order of the source. */
  function Rank(a: LibAdvice): nat
  {
    match a
    case LimitMaxLoss(_) => 0
    case RatioBelowTarget => 1
    case HighMarginUsage => 2
    case LiquidationTooClose => 3
    case ExtremeRiskWarning => 4
    case SetupReasonable => 5
  }

  /** Messages in strictly increasing rank: each at most once, in order. */
  predicate Ordered(recs: seq<LibAdvice>)
  {
    forall i, j :: 0 <= i < j < |recs| ==> Rank(recs[i]) < Rank(recs[j])
  }

  /** Appending at most one message of rank r to messages ranked below r
      keeps the order. */
  lemma OrderedSnoc(a: seq<LibAdvice>, w: seq<LibAdvice>, r: nat)
    requires Ordered(a) && forall i :: 0 <= i < |a| ==> Rank(a[i]) < r
    requires |w| <= 1 && forall i :: 0 <= i < |w| ==> Rank(w[i]) == r
    ensures Ordered(a + w) && forall i :: 0 <= i < |a + w| ==> Rank((a + w)[i]) <= r
  {
  }

  /** The options are in rank order whichever of them are present. */
  lemma OrderedOptions(loss: bool, ratio: bool, margin: bool, liquidation: bool, extreme: bool, cap: real)
    ensures Ordered(Options(loss, ratio, margin, liquidation, extreme, cap))
  {
    var w1: seq<LibAdvice> := if loss then [LimitMaxLoss(cap)] else [];
    var w2: seq<LibAdvice> := if ratio then [RatioBelowTarget] else [];
    var w3: seq<LibAdvice> := if margin then [HighMarginUsage] else [];
    var w4: seq<LibAdvice> := if liquidation then [LiquidationTooClose] else [];
    var w5: seq<LibAdvice> := if extreme then [ExtremeRiskWarning] else [];
    var w := w1 + w2 + w3 + w4;
    assert Ordered(w) && forall i :: 0 <= i < |w| ==> Rank(w[i]) <= 3 by {
      var v := w1 + w2 + w3;
      assert Ordered(v) && forall i :: 0 <= i < |v| ==> Rank(v[i]) <= 2 by {
        OrderedSnoc(w1, w2, 1);
        OrderedSnoc(w1 + w2, w3, 2);
      }
      OrderedSnoc(v, w4, 3);
    }
    OrderedSnoc(w, w5, 4);
  }

  /** Each option is present exactly when its flag is set, and the
      reassurance never is. */
  lemma PresentOptions(loss: bool, ratio: bool, margin: bool, liquidation: bool, extreme: bool, cap: real)
    ensures var w := Options(loss, ratio, margin, liquidation, extreme, cap);
      && (LimitMaxLoss(cap) in w <==> loss)
      && (RatioBelowTarget in w <==> ratio)
      && (HighMarginUsage in w <==> margin)
      && (LiquidationTooClose in w <==> liquidation)
      && (ExtremeRiskWarning in w <==> extreme)
      && SetupReasonable !in w
  {
  }

  /** On every input the messages come in the order loss, ratio, margin,
      liquidation, extreme, each exactly when its condition holds; the
      loss warning carries the cap of 2 % of the balance. */
  lemma WarningOrder(p: BaseParameters, c: LibCalculations, level: RiskLevel)
    ensures Ordered(LibRecommendations(p, c, level))
    ensures LimitMaxLoss(p.balance * 0.02) in LibRecommendations(p, c, level) <==> LossTooHigh(c)
    ensures RatioBelowTarget in LibRecommendations(p, c, level) <==> RatioTooLow(c)
    ensures HighMarginUsage in LibRecommendations(p, c, level) <==> MarginTooHigh(p, c)
    ensures LiquidationTooClose in LibRecommendations(p, c, level) <==> LiquidationClose(p, c)
    ensures ExtremeRiskWarning in LibRecommendations(p, c, level) <==> level == Extreme
  {
    OrderedOptions(LossTooHigh(c), RatioTooLow(c), MarginTooHigh(p, c), LiquidationClose(p, c),
                   level == Extreme, p.balance * 0.02);
    PresentOptions(LossTooHigh(c), RatioTooLow(c), MarginTooHigh(p, c), LiquidationClose(p, c),
                   level == Extreme, p.balance * 0.02);
  }

  method GenerateRecommendations(params: BaseParameters, calculations: LibCalculations, riskLevel: RiskLevel)
    returns (recommendations: seq<LibAdvice>)
    ensures recommendations == LibRecommendations(params, calculations, riskLevel)
  {
    var balance := params.balance;
    recommendations := [];
    if calculations.maxLossPercentage > 2.0 {
      recommendations := recommendations + [LimitMaxLoss(balance * 0.02)];
    }
    ghost var loss := if LossTooHigh(calculations) then [LimitMaxLoss(balance * 0.02)] else [];
    assert recommendations == loss;
    if calculations.riskRewardRatio < 1.5 {
      recommendations := recommendations + [RatioBelowTarget];
    }
    ghost var ratio := if RatioTooLow(calculations) then [RatioBelowTarget] else [];
    assert recommendations == loss + ratio;
    if calculations.marginRequired > balance * 0.5 {
      recommendations := recommendations + [HighMarginUsage];
    }
    ghost var margin := if MarginTooHigh(params, calculations) then [HighMarginUsage] else [];
    assert recommendations == loss + ratio + margin;
    if calculations.distanceToLiquidation < Abs(params.entryPrice - params.stopLoss) * 2.0 {
      recommendations := recommendations + [LiquidationTooClose];
    }
    ghost var close := if LiquidationClose(params, calculations) then [LiquidationTooClose] else [];
    assert recommendations == loss + ratio + margin + close;
    if riskLevel == Extreme {
      recommendations := recommendations + [ExtremeRiskWarning];
    }
    assert recommendations == Warnings(params, calculations, riskLevel);
    if |recommendations| == 0 {
      recommendations := recommendations + [SetupReasonable];
    }
  }

  /** The analysis composes the four steps and hands the parameters back
      unchanged. */
  method AnalyzeRisk(params: BaseParameters) returns (analysis: LibAnalysis)
    requires Computable(SetupOf(params))
    ensures analysis.parameters == params
    ensures analysis.calculations == Trimmed(ReferenceCalculations(SetupOf(params)))
    ensures analysis.simulations == ReferenceSimulations(SetupOf(params))
    ensures analysis.riskLevel == RiskTable(SetupOf(params).riskPercentage, RewardRatio(SetupOf(params)))
    ensures analysis.recommendations == LibRecommendations(params, analysis.calculations, analysis.riskLevel)
  {
    var s := SetupOf(params);
    var calculations := CalculateRiskMetrics(params);
    var simulations := RunSimulations(params, calculations);
    assert simulations == ReferenceSimulations(s) by {
      SimulationsShape(s);
      SimulationsDetermined(simulations, ReferenceSimulations(s), s.balance);
    }
    var riskLevel := AssessRiskLevel(calculations);
    var recommendations := GenerateRecommendations(params, calculations, riskLevel);
    analysis := LibAnalysis(params, calculations, simulations, riskLevel, recommendations);
  }
}
