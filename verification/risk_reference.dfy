/** The reference engine: the meaning of every number the risk engine
    produces, written in closed form. Each of the five copies in the source
    is proved equal to this reference under its own choice of inputs (which
    balance it reads, how it decides the direction, what it does when the
    risk percentage is absent). */
module RiskReference {
  import opened TradingTypes

  /** Fixed maintenance margin rate of 0.5 %, and the threshold 0.995. */
  const MaintenanceMarginRate: real := 0.005
  const LiquidationThreshold: real := 1.0 - MaintenanceMarginRate

  /** Liquidation price: the entry price scaled by 1 - 0.995 / leverage for
      a long position, by 1 + 0.995 / leverage for a short one. */
  function LiquidationReference(entryPrice: real, leverage: real, isLong: bool): real
    requires leverage != 0.0
  {
    if isLong then entryPrice * (1.0 - (1.0 / leverage) * LiquidationThreshold)
    else entryPrice * (1.0 + (1.0 / leverage) * LiquidationThreshold)
  }

  /** For a positive entry and leverage of at least 1, the long liquidation
      price lies strictly between 0 and the entry, the short one above it,
      and both are entry * 0.995 / leverage away from the entry. */
  lemma LiquidationBounds(entryPrice: real, leverage: real)
    requires entryPrice > 0.0 && leverage >= 1.0
    ensures 0.0 < LiquidationReference(entryPrice, leverage, true) < entryPrice
    ensures entryPrice < LiquidationReference(entryPrice, leverage, false)
    ensures entryPrice - LiquidationReference(entryPrice, leverage, true)
         == LiquidationReference(entryPrice, leverage, false) - entryPrice
         == entryPrice * 0.995 / leverage
  {
    var move := entryPrice * LiquidationThreshold / leverage;
    LiquidationMove(entryPrice, leverage);
    assert 0.0 < move by {
      assert entryPrice * LiquidationThreshold > 0.0;
    }
    assert move < entryPrice by {
      assert move * leverage == entryPrice * LiquidationThreshold;
      assert entryPrice * LiquidationThreshold < entryPrice * leverage;
    }
  }

  /** The engine input in canonical form: every copy maps its own
      parameters onto a `Setup`. */
  datatype Setup = Setup(
    entryPrice: real,
    stopLoss: real,
    takeProfit: real,
    leverage: real,
    isLong: bool,
    riskPercentage: real,
    balance: real)

  /** The inputs on which the engine's divisions are defined. On the others
      the source computes Infinity or NaN, which is not modelled. */
  predicate Computable(s: Setup)
  {
    s.entryPrice != s.stopLoss && s.leverage != 0.0 && s.balance != 0.0 && s.riskPercentage != 0.0
  }

  /** The amount of the balance put at risk. */
  function RiskAmount(s: Setup): real
  {
    s.balance * (s.riskPercentage / 100.0)
  }

  function StopDistance(s: Setup): real
  {
    Abs(s.entryPrice - s.stopLoss)
  }

  function TargetDistance(s: Setup): real
  {
    Abs(s.takeProfit - s.entryPrice)
  }

  /** The position is sized so that hitting the stop loses exactly the
      risk amount. */
  function PositionSize(s: Setup): real
    requires s.entryPrice != s.stopLoss
  {
    RiskAmount(s) / StopDistance(s)
  }

  /** The position value; it does not depend on leverage. */
  function OrderValue(s: Setup): real
    requires s.entryPrice != s.stopLoss
  {
    RiskAmount(s) * s.entryPrice / StopDistance(s)
  }

  function MarginRequired(s: Setup): real
    requires s.entryPrice != s.stopLoss && s.leverage != 0.0
  {
    RiskAmount(s) * s.entryPrice / (StopDistance(s) * s.leverage)
  }

  function PotentialProfit(s: Setup): real
    requires s.entryPrice != s.stopLoss
  {
    RiskAmount(s) * TargetDistance(s) / StopDistance(s)
  }

  /** Reward distance over risk distance: prices only. */
  function RewardRatio(s: Setup): real
    requires s.entryPrice != s.stopLoss
  {
    TargetDistance(s) / StopDistance(s)
  }

  function LiquidationDistance(s: Setup): real
    requires s.leverage != 0.0
  {
    Abs(s.entryPrice) * LiquidationThreshold / Abs(s.leverage)
  }

  /** The calculations in closed form: the loss is the risk amount and the
      loss percentage the risk percentage. */
  function ReferenceCalculations(s: Setup): Calculations
    requires Computable(s)
  {
    Calculations(
      liquidationPrice := LiquidationReference(s.entryPrice, s.leverage, s.isLong),
      recommendedPositionSize := PositionSize(s),
      positionSize := PositionSize(s),
      marginRequired := MarginRequired(s),
      orderValue := OrderValue(s),
      potentialProfit := PotentialProfit(s),
      potentialLoss := RiskAmount(s),
      riskRewardRatio := RewardRatio(s),
      maxLossPercentage := s.riskPercentage,
      distanceToLiquidation := LiquidationDistance(s))
  }

  /** A simulation whose P&L is the change of the balance and whose
      percentage is that change relative to the balance. */
  predicate BalanceConsistent(sim: Simulation, balance: real)
  {
    sim.pnl == sim.resultBalance - balance && sim.pnlPercentage * balance == sim.pnl * 100.0
  }

  /** Liquidation is a flat loss of 90 % of the balance, whatever the leverage. */
  function LiquidationScenario(balance: real): Simulation
  {
    Simulation(Liquidation, balance / 10.0, -(9.0 * balance / 10.0), -90.0, LiquidatedWithLoss(9.0 * balance / 10.0))
  }

  function ReferenceSimulations(s: Setup): seq<Simulation>
    requires Computable(s)
  {
    var amount, profit := RiskAmount(s), PotentialProfit(s);
    [ Simulation(StopLossHit, s.balance - amount, -amount, -s.riskPercentage, StopLossHitAt(s.stopLoss)),
      Simulation(TakeProfitHit, s.balance + profit, profit,
                 s.riskPercentage * RewardRatio(s), TakeProfitHitAt(s.takeProfit)),
      LiquidationScenario(s.balance) ]
  }

  /** Two runs of simulations against the same balance with the same
      scenarios, P&Ls and descriptions are equal. */
  lemma SimulationsDetermined(a: seq<Simulation>, b: seq<Simulation>, balance: real)
    requires balance != 0.0 && |a| == |b|
    requires forall i :: 0 <= i < |a| ==> BalanceConsistent(a[i], balance) && BalanceConsistent(b[i], balance)
    requires forall i :: 0 <= i < |a| ==>
      a[i].scenario == b[i].scenario && a[i].pnl == b[i].pnl && a[i].description == b[i].description
    ensures a == b
  {
    forall i | 0 <= i < |a|
      ensures a[i] == b[i]
    {
      DivUnique(a[i].pnlPercentage, a[i].pnl * 100.0, balance);
      DivUnique(b[i].pnlPercentage, b[i].pnl * 100.0, balance);
    }
  }

  /** One row of the risk table: the level applies when the loss percentage
      is strictly above `lossAbove` or the ratio strictly below `ratioBelow`. */
  datatype Row = Row(lossAbove: real, ratioBelow: real, level: RiskLevel)

  const RiskRows: seq<Row> := [Row(10.0, 0.5, Extreme), Row(5.0, 1.0, High), Row(2.0, 1.5, Medium)]

  /** The level of the first matching row, LOW when none matches. */
  function FirstMatch(rows: seq<Row>, loss: real, ratio: real): RiskLevel
  {
    if rows == [] then Low
    else if loss > rows[0].lossAbove || ratio < rows[0].ratioBelow then rows[0].level
    else FirstMatch(rows[1..], loss, ratio)
  }

  function RiskTable(maxLossPercentage: real, riskRewardRatio: real): RiskLevel
  {
    FirstMatch(RiskRows, maxLossPercentage, riskRewardRatio)
  }

  /** The first-match table spelled out row by row, with the strict
      comparisons of the source. */
  lemma RiskTableRows(loss: real, ratio: real)
    ensures RiskTable(loss, ratio) == Extreme <==> loss > 10.0 || ratio < 0.5
    ensures RiskTable(loss, ratio) == High <==> !(loss > 10.0 || ratio < 0.5) && (loss > 5.0 || ratio < 1.0)
    ensures RiskTable(loss, ratio) == Medium
        <==> !(loss > 5.0 || ratio < 1.0) && (loss > 2.0 || ratio < 1.5)
    ensures RiskTable(loss, ratio) == Low <==> loss <= 2.0 && ratio >= 1.5
  {
    var rows := RiskRows;
    assert rows[1..] == [Row(5.0, 1.0, High), Row(2.0, 1.5, Medium)];
    assert rows[1..][1..] == [Row(2.0, 1.5, Medium)];
    assert rows[1..][1..][1..] == [];
    assert FirstMatch(rows[1..][1..][1..], loss, ratio) == Low;
    assert FirstMatch(rows[1..][1..], loss, ratio) == if loss > 2.0 || ratio < 1.5 then Medium else Low;
    assert FirstMatch(rows[1..], loss, ratio)
        == if loss > 5.0 || ratio < 1.0 then High else FirstMatch(rows[1..][1..], loss, ratio);
  }

  /** A ratio of exactly 0.5 is not EXTREME: with a loss of at most 5 % it is HIGH. */
  lemma RatioHalfIsHigh(loss: real)
    requires loss <= 5.0
    ensures RiskTable(loss, 0.5) == High
  {
    RiskTableRows(loss, 0.5);
  }

  /** Raising the loss percentage at a fixed ratio, or lowering the ratio at
      a fixed loss percentage, never lowers the severity. */
  lemma RiskTableMonotone(loss1: real, ratio1: real, loss2: real, ratio2: real)
    requires loss1 <= loss2 && ratio2 <= ratio1
    ensures Severity(RiskTable(loss1, ratio1)) <= Severity(RiskTable(loss2, ratio2))
  {
    RiskTableRows(loss1, ratio1);
    RiskTableRows(loss2, ratio2);
  }

  const Fallback: seq<Recommendation> := [LooksReasonable, AlwaysUseStopLosses]

  /** The recommendations of the four standard copies: the EXTREME pair, the
      HIGH pair, the ratio note, the loss note, in that order, each added
      independently; the two fallback messages when nothing was added. */
  function StandardRecommendations(level: RiskLevel, maxLossPercentage: real, riskRewardRatio: real)
    : seq<Recommendation>
  {
    var added :=
      (if level == Extreme then [ReduceSizeSignificantly, RatioUnfavorable] else [])
      + (if level == High then [TighterStopLoss, ReduceLeverage] else [])
      + (if riskRewardRatio < 1.5 then [AimForRatio] else [])
      + (if maxLossPercentage > 2.0 then [ProfessionalRisk] else []);
    if added == [] then Fallback else added
  }

  /** With the level the table gives, the fallback pair appears exactly for
      LOW, and EXTREME or HIGH always yield at least three messages. */
  lemma RecommendationsFollowLevel(loss: real, ratio: real)
    ensures var recs := StandardRecommendations(RiskTable(loss, ratio), loss, ratio);
      && (recs == Fallback <==> RiskTable(loss, ratio) == Low)
      && (RiskTable(loss, ratio) in {Extreme, High} ==> |recs| >= 3)
      && (LooksReasonable in recs <==> RiskTable(loss, ratio) == Low)
  {
    RiskTableRows(loss, ratio);
    var level := RiskTable(loss, ratio);
    var recs := StandardRecommendations(level, loss, ratio);
    if level != Low {
      assert recs[0] != LooksReasonable;
      assert LooksReasonable !in recs;
    }
  }

  function ReferenceAnalysis(s: Setup): Analysis
    requires Computable(s)
  {
    var ratio := RewardRatio(s);
    var level := RiskTable(s.riskPercentage, ratio);
    Analysis(ReferenceCalculations(s), ReferenceSimulations(s), level,
             StandardRecommendations(level, s.riskPercentage, ratio))
  }

  /** The stop loss loses exactly the risk amount, so the loss percentage
      is the risk percentage. */
  lemma LossIsRiskAmount(s: Setup)
    requires Computable(s)
    ensures PositionSize(s) * StopDistance(s) == RiskAmount(s) == s.balance * s.riskPercentage / 100.0
    ensures RiskAmount(s) / s.balance * 100.0 == s.riskPercentage
  {
    DivTimes(RiskAmount(s), StopDistance(s));
  }

  /** The profit is the position size times the target distance, and the
      ratio is profit over loss. */
  lemma ProfitAndRatio(s: Setup)
    requires Computable(s)
    ensures PotentialProfit(s) == PositionSize(s) * TargetDistance(s)
    ensures RewardRatio(s) == PotentialProfit(s) / RiskAmount(s)
  {
    DivCommute(RiskAmount(s), TargetDistance(s), StopDistance(s));
    CancelFactor(RiskAmount(s), TargetDistance(s), StopDistance(s));
  }

  /** The order value is the position value, and the margin times the
      leverage gives it back. */
  lemma OrderValueAndMargin(s: Setup)
    requires Computable(s)
    ensures OrderValue(s) == PositionSize(s) * s.entryPrice
    ensures MarginRequired(s) * s.leverage == OrderValue(s)
  {
    var amount, stop := RiskAmount(s), StopDistance(s);
    DivCommute(amount, s.entryPrice, stop);
    DivDiv(amount * s.entryPrice, stop, s.leverage);
    DivTimes(amount * s.entryPrice / stop, s.leverage);
  }

  /** The distance to liquidation is the gap between entry and liquidation price. */
  lemma LiquidationGap(s: Setup)
    requires s.leverage != 0.0
    ensures LiquidationDistance(s) == Abs(s.entryPrice - LiquidationReference(s.entryPrice, s.leverage, s.isLong))
  {
    LiquidationMove(s.entryPrice, s.leverage);
    AbsMove(s.entryPrice, s.leverage);
  }

  /** The long price is the entry minus entry * 0.995 / leverage, the short
      price the entry plus the same amount. */
  lemma LiquidationMove(entryPrice: real, leverage: real)
    requires leverage != 0.0
    ensures LiquidationReference(entryPrice, leverage, true) == entryPrice - entryPrice * LiquidationThreshold / leverage
    ensures LiquidationReference(entryPrice, leverage, false) == entryPrice + entryPrice * LiquidationThreshold / leverage
  {
    DivCommute(entryPrice, LiquidationThreshold, leverage);
    assert entryPrice * ((1.0 / leverage) * LiquidationThreshold) == entryPrice / leverage * LiquidationThreshold;
  }

  /** The metrics the source derives from the position size one step at a
      time: value, margin, order value, profit and loss. */
  lemma MetricSteps(s: Setup, size: real)
    requires Computable(s) && size == PositionSize(s)
    ensures size * s.entryPrice / s.leverage == MarginRequired(s)
    ensures size * s.entryPrice / s.leverage * s.leverage == OrderValue(s)
    ensures size * Abs(s.takeProfit - s.entryPrice) == PotentialProfit(s)
    ensures size * Abs(s.entryPrice - s.stopLoss) == RiskAmount(s)
    ensures RiskAmount(s) != 0.0
  {
    OrderValueAndMargin(s);
    DivUnique(MarginRequired(s), size * s.entryPrice, s.leverage);
    ProfitAndRatio(s);
    LossIsRiskAmount(s);
    assert RiskAmount(s) != 0.0 by {
      assert s.balance * s.riskPercentage != 0.0;
    }
  }

  /** Metrics derived from the reference position size in the order and
      form every engine copy derives them are the reference calculations. */
  lemma DerivedIsReference(s: Setup, liquidationPrice: real, size: real, marginRequired: real, orderValue: real,
                           potentialProfit: real, potentialLoss: real, riskRewardRatio: real,
                           maxLossPercentage: real, distanceToLiquidation: real)
    requires Computable(s) && size == PositionSize(s)
    requires liquidationPrice == LiquidationReference(s.entryPrice, s.leverage, s.isLong)
    requires marginRequired == size * s.entryPrice / s.leverage && orderValue == marginRequired * s.leverage
    requires potentialProfit == size * Abs(s.takeProfit - s.entryPrice)
    requires potentialLoss == size * Abs(s.entryPrice - s.stopLoss) != 0.0
    requires riskRewardRatio == potentialProfit / potentialLoss
    requires maxLossPercentage == potentialLoss / s.balance * 100.0
    requires distanceToLiquidation == Abs(s.entryPrice - liquidationPrice)
    ensures Calculations(liquidationPrice, size, size, marginRequired, orderValue, potentialProfit,
                         potentialLoss, riskRewardRatio, maxLossPercentage, distanceToLiquidation)
         == ReferenceCalculations(s)
  {
    CalculationSteps(s, size);
  }

  /** Everything the source derives from the position size, in the form the
      source writes it: margin, order value, profit, loss, the ratio of
      profit to loss, the loss percentage and the distance to liquidation. */
  lemma CalculationSteps(s: Setup, size: real)
    requires Computable(s) && size == PositionSize(s)
    ensures size * s.entryPrice / s.leverage == MarginRequired(s)
    ensures size * s.entryPrice / s.leverage * s.leverage == OrderValue(s)
    ensures size * Abs(s.takeProfit - s.entryPrice) == PotentialProfit(s)
    ensures size * Abs(s.entryPrice - s.stopLoss) == RiskAmount(s) != 0.0
    ensures size * Abs(s.takeProfit - s.entryPrice) / (size * Abs(s.entryPrice - s.stopLoss)) == RewardRatio(s)
    ensures size * Abs(s.entryPrice - s.stopLoss) / s.balance * 100.0 == s.riskPercentage
    ensures Abs(s.entryPrice - LiquidationReference(s.entryPrice, s.leverage, s.isLong)) == LiquidationDistance(s)
  {
    MetricSteps(s, size);
    RatioSteps(s);
    LiquidationGap(s);
  }

  /** The ratios the source derives from profit and loss: the reward ratio,
      the loss percentage and the two simulation percentages. */
  lemma RatioSteps(s: Setup)
    requires Computable(s)
    ensures RiskAmount(s) != 0.0
    ensures PotentialProfit(s) / RiskAmount(s) == RewardRatio(s)
    ensures RiskAmount(s) / s.balance * 100.0 == s.riskPercentage
    ensures -(RiskAmount(s) / s.balance) * 100.0 == -s.riskPercentage
    ensures PotentialProfit(s) / s.balance * 100.0 == s.riskPercentage * RewardRatio(s)
  {
    MetricSteps(s, PositionSize(s));
    ProfitAndRatio(s);
    LossIsRiskAmount(s);
    var amount, ratio := RiskAmount(s), RewardRatio(s);
    assert PotentialProfit(s) == ratio * amount by {
      DivTimes(PotentialProfit(s), amount);
    }
    assert ratio * amount / s.balance * 100.0 == ratio * (amount / s.balance * 100.0);
  }

  lemma DivUnique(x: real, y: real, z: real)
    requires z != 0.0 && x * z == y
    ensures x == y / z
  {
  }

  lemma DivTimes(x: real, y: real)
    requires y != 0.0
    ensures x / y * y == x
  {
  }

  lemma DivDiv(x: real, y: real, z: real)
    requires y != 0.0 && z != 0.0
    ensures x / (y * z) == x / y / z
  {
  }

  lemma DivCommute(x: real, y: real, z: real)
    requires z != 0.0
    ensures x * y / z == x / z * y
  {
  }

  lemma CancelFactor(x: real, y: real, z: real)
    requires x != 0.0 && z != 0.0
    ensures (x * y / z) / x == y / z
  {
  }

  lemma AbsMove(entryPrice: real, leverage: real)
    requires leverage != 0.0
    ensures Abs(entryPrice * LiquidationThreshold / leverage) == Abs(entryPrice) * LiquidationThreshold / Abs(leverage)
  {
  }

  /** Leverage changes only the liquidation price, its distance and the
      margin: the position size, the order value, the P&L and the ratio do
      not depend on it. */
  lemma LeverageOnlyMovesMargin(s: Setup, t: Setup)
    requires Computable(s) && Computable(t)
    requires t == s.(leverage := t.leverage)
    ensures PositionSize(t) == PositionSize(s) && OrderValue(t) == OrderValue(s)
    ensures PotentialProfit(t) == PotentialProfit(s) && RiskAmount(t) == RiskAmount(s)
    ensures RewardRatio(t) == RewardRatio(s)
  {
    assert RiskAmount(t) == RiskAmount(s) && StopDistance(t) == StopDistance(s);
    assert TargetDistance(t) == TargetDistance(s);
  }

  /** The ratio depends only on the three prices, and the level on the risk
      percentage and that ratio: not on the balance or the leverage. */
  lemma LevelDependsOnRiskAndPrices(s: Setup, t: Setup)
    requires Computable(s) && Computable(t)
    requires s.entryPrice == t.entryPrice && s.stopLoss == t.stopLoss && s.takeProfit == t.takeProfit
    requires s.riskPercentage == t.riskPercentage
    ensures ReferenceAnalysis(s).calculations.riskRewardRatio == ReferenceAnalysis(t).calculations.riskRewardRatio
    ensures ReferenceAnalysis(s).riskLevel == ReferenceAnalysis(t).riskLevel
    ensures ReferenceAnalysis(s).recommendations == ReferenceAnalysis(t).recommendations
  {
  }

  /** Three simulations in the fixed order stop loss, take profit,
      liquidation; each P&L is the change of the balance; the liquidation
      leaves 10 % of the balance and is always -90 %. */
  lemma SimulationsShape(s: Setup)
    requires Computable(s)
    ensures var sims := ReferenceSimulations(s);
      && Scenarios(sims) == [StopLossHit, TakeProfitHit, Liquidation]
      && (forall i :: 0 <= i < |sims| ==> BalanceConsistent(sims[i], s.balance))
      && sims[0].resultBalance + ReferenceCalculations(s).potentialLoss == s.balance
      && sims[1].resultBalance - ReferenceCalculations(s).potentialProfit == s.balance
      && sims[2].resultBalance == s.balance / 10.0
      && sims[2].pnl == -(9.0 * s.balance / 10.0)
      && sims[2].pnlPercentage == -90.0
  {
    var sims := ReferenceSimulations(s);
    var amount, stop, target := RiskAmount(s), StopDistance(s), TargetDistance(s);
    assert BalanceConsistent(sims[1], s.balance) by {
      assert (s.riskPercentage * target / stop) * s.balance == (amount * target / stop) * 100.0;
    }
  }

  /** The worked example of a long trade: entry 50000, stop 48000, target
      55000, leverage 10, 1 % of a 10000 balance. */
  lemma LongExample()
    ensures var s := Setup(50000.0, 48000.0, 55000.0, 10.0, true, 1.0, 10000.0);
      var a := ReferenceAnalysis(s);
      && a.calculations.liquidationPrice == 45025.0
      && a.calculations.positionSize == 0.05
      && a.calculations.potentialLoss == 100.0
      && a.calculations.potentialProfit == 250.0
      && a.calculations.riskRewardRatio == 2.5
      && a.calculations.maxLossPercentage == 1.0
      && a.riskLevel == Low
      && a.recommendations == Fallback
  {
    RiskTableRows(1.0, 2.5);
  }
}
