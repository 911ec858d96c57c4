/** The risk page (`app/risk/page.tsx`): its own drifted copy of the input
    validator, and the gate in `handleAnalyze` that runs the library engine
    only when the validator reports nothing. */
module RiskPage {
  import opened Wrappers
  import opened Checks
  import opened TradingTypes
  import opened RiskReference
  import RiskCalculationsLib
  import TradingValidation

  /** The eight rules of lines 45-79. A risk percentage of 0 is falsy and
      skips its rule, leverage is capped at 100, and any position type
      other than "long" gets the short rules. */
  function PageRules(p: TradingParams): seq<Check<Message>>
  {
    [Check(p.entryPrice <= 0.0, EntryPriceNotPositive)]
    + [Check(p.stopLoss <= 0.0, StopLossNotPositive)]
    + [Check(p.takeProfit <= 0.0, TakeProfitNotPositive)]
    + [Check(p.accountBalance <= 0.0, AccountBalanceNotPositive)]
    + [Check(p.riskPercentage != 0.0 && OutOfRange(p.riskPercentage, 100.0), RiskPercentageOutOfRange)]
    + [Check(OutOfRange(p.leverage, 100.0), PageLeverageOutOfRange)]
    + [StopRule(p)] + [TakeRule(p)]
  }

  function StopRule(p: TradingParams): Check<Message>
  {
    if p.positionType == "long" then Check(p.stopLoss >= p.entryPrice, PageLongStopNotBelowEntry)
    else Check(p.stopLoss <= p.entryPrice, ShortStopNotAboveEntry)
  }

  function TakeRule(p: TradingParams): Check<Message>
  {
    if p.positionType == "long" then Check(p.takeProfit <= p.entryPrice, PageLongTakeNotAboveEntry)
    else Check(p.takeProfit >= p.entryPrice, ShortTakeNotBelowEntry)
  }

  /** Lines 42-82: pushes the message of every failing rule, in rule order. */
  method ValidateInputs(params: TradingParams) returns (validationErrors: seq<Message>)
    ensures validationErrors == Failures(PageRules(params))
  {
    validationErrors := [];
    validationErrors := Report(validationErrors, Check(params.entryPrice <= 0.0, EntryPriceNotPositive));
    assert validationErrors == Reported(Check(params.entryPrice <= 0.0, EntryPriceNotPositive));
    validationErrors := Report(validationErrors, Check(params.stopLoss <= 0.0, StopLossNotPositive));
    validationErrors := Report(validationErrors, Check(params.takeProfit <= 0.0, TakeProfitNotPositive));
    validationErrors := Report(validationErrors, Check(params.accountBalance <= 0.0, AccountBalanceNotPositive));
    validationErrors := Report(validationErrors,
      Check(params.riskPercentage != 0.0 && OutOfRange(params.riskPercentage, 100.0), RiskPercentageOutOfRange));
    validationErrors := Report(validationErrors, Check(OutOfRange(params.leverage, 100.0), PageLeverageOutOfRange));
    if params.positionType == "long" {
      validationErrors := Report(validationErrors, Check(params.stopLoss >= params.entryPrice, PageLongStopNotBelowEntry));
      validationErrors := Report(validationErrors, Check(params.takeProfit <= params.entryPrice, PageLongTakeNotAboveEntry));
    } else {
      validationErrors := Report(validationErrors, Check(params.stopLoss <= params.entryPrice, ShortStopNotAboveEntry));
      validationErrors := Report(validationErrors, Check(params.takeProfit >= params.entryPrice, ShortTakeNotBelowEntry));
    }
    ghost var range := Reported(Check(params.entryPrice <= 0.0, EntryPriceNotPositive))
      + Reported(Check(params.stopLoss <= 0.0, StopLossNotPositive))
      + Reported(Check(params.takeProfit <= 0.0, TakeProfitNotPositive))
      + Reported(Check(params.accountBalance <= 0.0, AccountBalanceNotPositive))
      + Reported(Check(params.riskPercentage != 0.0 && OutOfRange(params.riskPercentage, 100.0), RiskPercentageOutOfRange))
      + Reported(Check(OutOfRange(params.leverage, 100.0), PageLeverageOutOfRange));
    assert validationErrors == range + Reported(StopRule(params)) + Reported(TakeRule(params));
    PageRulesUnrolled(params);
  }

  /** The errors of the eight rules, rule by rule. */
  lemma PageRulesUnrolled(p: TradingParams)
    ensures Failures(PageRules(p))
         == Reported(Check(p.entryPrice <= 0.0, EntryPriceNotPositive))
          + Reported(Check(p.stopLoss <= 0.0, StopLossNotPositive))
          + Reported(Check(p.takeProfit <= 0.0, TakeProfitNotPositive))
          + Reported(Check(p.accountBalance <= 0.0, AccountBalanceNotPositive))
          + Reported(Check(p.riskPercentage != 0.0 && OutOfRange(p.riskPercentage, 100.0), RiskPercentageOutOfRange))
          + Reported(Check(OutOfRange(p.leverage, 100.0), PageLeverageOutOfRange))
          + Reported(StopRule(p)) + Reported(TakeRule(p))
  {
    var c1 := Check(p.entryPrice <= 0.0, EntryPriceNotPositive);
    var c2 := Check(p.stopLoss <= 0.0, StopLossNotPositive);
    var c3 := Check(p.takeProfit <= 0.0, TakeProfitNotPositive);
    var c4 := Check(p.accountBalance <= 0.0, AccountBalanceNotPositive);
    var c5 := Check(p.riskPercentage != 0.0 && OutOfRange(p.riskPercentage, 100.0), RiskPercentageOutOfRange);
    var c6 := Check(OutOfRange(p.leverage, 100.0), PageLeverageOutOfRange);
    var c7, c8 := StopRule(p), TakeRule(p);
    FailuresAppend([c1] + [c2] + [c3] + [c4] + [c5] + [c6] + [c7], [c8]);
    FailuresAppend([c1] + [c2] + [c3] + [c4] + [c5] + [c6], [c7]);
    FailuresAppend([c1] + [c2] + [c3] + [c4] + [c5], [c6]);
    FailuresAppend([c1] + [c2] + [c3] + [c4], [c5]);
    FailuresAppend([c1] + [c2] + [c3], [c4]);
    FailuresAppend([c1] + [c2], [c3]);
    FailuresAppend([c1], [c2]);
    FailuresSingle(c1);
    FailuresSingle(c2);
    FailuresSingle(c3);
    FailuresSingle(c4);
    FailuresSingle(c5);
    FailuresSingle(c6);
    FailuresSingle(c7);
    FailuresSingle(c8);
  }

  /** Lines 111-118: the engine input keeps the prices and the leverage,
      takes the balance from `accountBalance` and drops the position type. */
  function EngineInput(p: TradingParams): BaseParameters
  {
    BaseParameters(p.entryPrice, p.stopLoss, p.takeProfit, p.accountBalance, p.leverage, Some(p.riskPercentage))
  }

  /** What the page shows after an analysis request. `Unbounded` is an
      accepted request the engine divides by zero on (NaN in JavaScript). */
  datatype Outcome =
    | Warned(validations: seq<Validation>, warnings: seq<Message>)
    | Analyzed(analysis: RiskCalculationsLib.LibAnalysis)
    | Unbounded

  /** One entry of `state.validations`: the key it is labelled with, if the
      parameters have that many keys, and the message. */
  datatype Validation = Validation(field: Option<string>, message: Message)

  /** Lines 94-98: the i-th message is labelled with the i-th key of the
      parameter object, whatever rule produced it. */
  function LabelByIndex(messages: seq<Message>, keys: seq<string>, from: nat): (validations: seq<Validation>)
    ensures |validations| == |messages|
    ensures forall i :: 0 <= i < |messages| ==>
      validations[i] == Validation(if from + i < |keys| then Some(keys[from + i]) else None, messages[i])
    decreases |messages|
  {
    if messages == [] then []
    else [Validation(if from < |keys| then Some(keys[from]) else None, messages[0])]
         + LabelByIndex(messages[1..], keys, from + 1)
  }

  /** Lines 84-120: every warning when a rule fails; otherwise the library
      analysis of the engine input. `keys` is the key order of the
      parameter object. */
  method HandleAnalyze(params: TradingParams, keys: seq<string>) returns (outcome: Outcome)
    ensures outcome.Warned? <==> Failures(PageRules(params)) != []
    ensures outcome.Warned? ==>
      outcome.warnings == Failures(PageRules(params))
      && outcome.validations == LabelByIndex(outcome.warnings, keys, 0)
    ensures outcome.Unbounded? <==> Failures(PageRules(params)) == [] && params.riskPercentage == 0.0
    ensures outcome.Analyzed? ==>
      var input := EngineInput(params);
      var s := RiskCalculationsLib.SetupOf(input);
      Computable(s)
      && outcome.analysis.parameters == input
      && outcome.analysis.calculations == RiskCalculationsLib.Trimmed(ReferenceCalculations(s))
      && outcome.analysis.simulations == ReferenceSimulations(s)
      && outcome.analysis.riskLevel == RiskTable(params.riskPercentage, RewardRatio(s))
      && outcome.analysis.recommendations
         == RiskCalculationsLib.LibRecommendations(input, outcome.analysis.calculations, outcome.analysis.riskLevel)
  {
    var validationErrors := ValidateInputs(params);
    if |validationErrors| > 0 {
      return Warned(LabelByIndex(validationErrors, keys, 0), validationErrors);
    }
    var tradingParams := EngineInput(params);
    PageAccepted(params);
    if params.riskPercentage == 0.0 {
      return Unbounded;
    }
    var result := RiskCalculationsLib.AnalyzeRisk(tradingParams);
    outcome := Analyzed(result);
  }

  /** What an accepted request guarantees: positive prices and balance, a
      leverage in (0, 100], and prices ordered for the declared direction,
      so the engine's inferred direction is the declared one. */
  lemma PageAccepted(p: TradingParams)
    requires Failures(PageRules(p)) == []
    ensures p.entryPrice > 0.0 && p.accountBalance > 0.0 && 0.0 < p.leverage <= 100.0
    ensures p.positionType == "long" ==> p.stopLoss < p.entryPrice < p.takeProfit
    ensures p.positionType != "long" ==> p.takeProfit < p.entryPrice < p.stopLoss
    ensures RiskCalculationsLib.SetupOf(EngineInput(p)).isLong <==> p.positionType == "long"
    ensures Computable(RiskCalculationsLib.SetupOf(EngineInput(p))) <==> p.riskPercentage != 0.0
  {
    var rules := PageRules(p);
    NoFailuresIffAllPass(rules);
    assert !rules[0].fails && !rules[3].fails && !rules[5].fails;
    assert !rules[6].fails && !rules[7].fails;
  }

  /** A long request with a risk percentage of 0 passes every rule of the
      page, yet the engine cannot compute on it: the potential loss is 0 and
      the reward ratio divides by it. */
  lemma ZeroRiskAccepted()
    ensures var p := TradingParams(100.0, 90.0, 120.0, 1000.0, 1000.0, 10.0, 0.0, "long");
      Failures(PageRules(p)) == [] && !Computable(RiskCalculationsLib.SetupOf(EngineInput(p)))
  {
    var p := TradingParams(100.0, 90.0, 120.0, 1000.0, 1000.0, 10.0, 0.0, "long");
    NoFailuresIffAllPass(PageRules(p));
  }

  /** The page rules with the risk rule applied to every value, as the other
      validators do. */
  function CheckedPageRules(p: TradingParams): (rules: seq<Check<Message>>)
    ensures |rules| == 8
  {
    PageRules(p)[4 := Check(OutOfRange(p.riskPercentage, 100.0), RiskPercentageOutOfRange)]
  }

  /** With the risk rule applied, every accepted request is one the engine
      can compute on, in the declared direction. */
  lemma CheckedAcceptedIsComputable(p: TradingParams)
    requires Failures(CheckedPageRules(p)) == []
    ensures Computable(RiskCalculationsLib.SetupOf(EngineInput(p)))
    ensures RiskCalculationsLib.SetupOf(EngineInput(p)).isLong <==> p.positionType == "long"
  {
    var rules := CheckedPageRules(p);
    NoFailuresIffAllPass(rules);
    NoFailuresIffAllPass(PageRules(p));
    assert !rules[4].fails;
    assert forall i :: 0 <= i < 8 && i != 4 ==> rules[i] == PageRules(p)[i];
    PageAccepted(p);
  }
}
