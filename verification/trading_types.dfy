/** The vocabulary shared by every copy of the risk engine: the parameter
    records, the calculation and simulation records, the risk levels and the
    recommendation messages. */
module TradingTypes {
  import opened Wrappers

  /** A clock reading; the source's `new Date()` becomes a parameter. */
  type Time = int

  datatype PositionType = Long | Short

  /** 'LOW' .. 'EXTREME' in the domain layer, 'low' .. 'extreme' in the
      services: the spelling is presentation, the order is the point. */
  datatype RiskLevel = Low | Medium | High | Extreme

  /** The severity order LOW < MEDIUM < HIGH < EXTREME. */
  function Severity(level: RiskLevel): (n: nat)
    ensures n <= 3
  {
    match level
    case Low => 0
    case Medium => 1
    case High => 2
    case Extreme => 3
  }

  /** A value the validators reject: not positive, or above `hi`. */
  predicate OutOfRange(x: real, hi: real)
  {
    x <= 0.0 || x > hi
  }

  function Abs(x: real): real
  {
    if x < 0.0 then -x else x
  }

  /** Inputs of the domain-layer engines (backend domain service, frontend
      domain util) and of the frontend validator. */
  datatype TradingParameters = TradingParameters(
    entryPrice: real,
    stopLoss: real,
    takeProfit: real,
    leverage: real,
    positionType: PositionType,
    riskPercentage: real,
    accountBalance: real)

  /** Inputs of the lightweight backend service, the inline API handler and
      the risk page: both `balance` and `accountBalance`, and a free-form
      `positionType` ('long' or anything else). */
  datatype TradingParams = TradingParams(
    entryPrice: real,
    stopLoss: real,
    takeProfit: real,
    balance: real,
    accountBalance: real,
    leverage: real,
    riskPercentage: real,
    positionType: string)

  /** Inputs of the frontend library engine: no direction, optional risk. */
  datatype BaseParameters = BaseParameters(
    entryPrice: real,
    stopLoss: real,
    takeProfit: real,
    balance: real,
    leverage: real,
    riskPercentage: Option<real>)

  datatype Calculations = Calculations(
    liquidationPrice: real,
    recommendedPositionSize: real,
    positionSize: real,
    marginRequired: real,
    orderValue: real,
    potentialProfit: real,
    potentialLoss: real,
    riskRewardRatio: real,
    maxLossPercentage: real,
    distanceToLiquidation: real)

  datatype Scenario = StopLossHit | TakeProfitHit | Liquidation

  /** The human-readable description of a simulation, kept as a token that
      records the amount it formats; the currency formatting is not modelled. */
  datatype Description =
    | StopLossHitAt(price: real)
    | TakeProfitHitAt(price: real)
    | LiquidatedWithLoss(loss: real)

  /** The fixed text in front of the formatted amount of each description;
      the amount itself is formatted differently by each copy. */
  function DescriptionPrefix(d: Description): string
  {
    match d
    case StopLossHitAt(_) => "Stop loss hit at "
    case TakeProfitHitAt(_) => "Take profit hit at "
    case LiquidatedWithLoss(_) => "Position liquidated - catastrophic loss of "
  }

  /** The three kinds of description read differently, so a description
      names its scenario; two of the same kind differ only in the amount. */
  lemma DescriptionPrefixesDistinct(a: Description, b: Description)
    ensures DescriptionPrefix(a) == DescriptionPrefix(b) <==>
      (a.StopLossHitAt? == b.StopLossHitAt? && a.TakeProfitHitAt? == b.TakeProfitHitAt?
       && a.LiquidatedWithLoss? == b.LiquidatedWithLoss?)
  {
    if DescriptionPrefix(a) == DescriptionPrefix(b) {
      assert DescriptionPrefix(a)[0] == DescriptionPrefix(b)[0];
    }
  }

  datatype Simulation = Simulation(
    scenario: Scenario,
    resultBalance: real,
    pnl: real,
    pnlPercentage: real,
    description: Description)

  function Scenarios(sims: seq<Simulation>): (r: seq<Scenario>)
    ensures |r| == |sims|
    ensures forall i :: 0 <= i < |sims| ==> r[i] == sims[i].scenario
  {
    if sims == [] then [] else [sims[0].scenario] + Scenarios(sims[1..])
  }

  /** The recommendation messages of the four standard engine copies. */
  datatype Recommendation =
    | ReduceSizeSignificantly
    | RatioUnfavorable
    | TighterStopLoss
    | ReduceLeverage
    | AimForRatio
    | ProfessionalRisk
    | LooksReasonable
    | AlwaysUseStopLosses

  function Text(r: Recommendation): string
  {
    match r
    case ReduceSizeSignificantly => "Consider reducing position size significantly"
    case RatioUnfavorable => "Your risk-reward ratio is unfavorable"
    case TighterStopLoss => "Consider using a tighter stop loss"
    case ReduceLeverage => "Reduce leverage to lower liquidation risk"
    case AimForRatio => "Aim for at least 1.5:1 risk-reward ratio"
    case ProfessionalRisk => "Professional traders risk 1-2% per trade"
    case LooksReasonable => "Your risk parameters look reasonable"
    case AlwaysUseStopLosses => "Always use stop losses to protect capital"
  }

  /** The messages of the validators: the domain validators (backend
      service and frontend rules) share the first eleven; the risk page
      has its own leverage message and numbers its two long-position
      messages. */
  datatype Message =
    | EntryPriceNotPositive
    | StopLossNotPositive
    | TakeProfitNotPositive
    | AccountBalanceNotPositive
    | RiskPercentageOutOfRange
    | LeverageOutOfRange
    | LongStopNotBelowEntry
    | LongTakeNotAboveEntry
    | ShortStopNotAboveEntry
    | ShortTakeNotBelowEntry
    | PlanNameRequired
    | PlanNameTooLong
    | DescriptionTooLong
    | PageLeverageOutOfRange
    | PageLongStopNotBelowEntry
    | PageLongTakeNotAboveEntry

  function MessageText(m: Message): string
  {
    match m
    case EntryPriceNotPositive => "Entry price must be greater than 0"
    case StopLossNotPositive => "Stop loss must be greater than 0"
    case TakeProfitNotPositive => "Take profit must be greater than 0"
    case AccountBalanceNotPositive => "Account balance must be greater than 0"
    case RiskPercentageOutOfRange => "Risk percentage must be between 0 and 100"
    case LeverageOutOfRange => "Leverage must be between 1 and 125"
    case LongStopNotBelowEntry => "For long positions, stop loss must be below entry price"
    case LongTakeNotAboveEntry => "For long positions, take profit must be above entry price"
    case ShortStopNotAboveEntry => "For short positions, stop loss must be above entry price"
    case ShortTakeNotBelowEntry => "For short positions, take profit must be below entry price"
    case PlanNameRequired => "Plan name is required"
    case PlanNameTooLong => "Plan name must be less than 100 characters"
    case DescriptionTooLong => "Description must be less than 500 characters"
    case PageLeverageOutOfRange => "Leverage must be between 0 and 100"
    case PageLongStopNotBelowEntry => "456 For long positions, stop loss must be below entry price"
    case PageLongTakeNotAboveEntry => "123 For long positions, take profit must be above entry price"
  }

  datatype Analysis = Analysis(
    calculations: Calculations,
    simulations: seq<Simulation>,
    riskLevel: RiskLevel,
    recommendations: seq<Recommendation>)
}
