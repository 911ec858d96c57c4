/** The frontend use case `AnalyzeRiskUseCase.execute`: validate with the
    frontend rules, report every error as "field: message", and otherwise
    return the parameters with the frontend engine's analysis. */
module AnalyzeRiskUseCase {
  import opened Wrappers
  import opened Checks
  import opened TradingTypes
  import opened RiskReference
  import RiskCalculationService
  import RiskCalculationUtil
  import TradingValidation

  /** The success payload: the parameters and the analysis spread beside
      them. */
  datatype AnalyzeRiskData = AnalyzeRiskData(parameters: TradingParameters, analysis: Analysis)

  /** One error as the use case reports it. */
  function FormatError(e: TradingValidation.ValidationError): string
  {
    TradingValidation.FieldName(e.field) + ": " + MessageText(e.message)
  }

  /** Every error formatted, in order: line i is "field: message" of
      error i. */
  function FormatErrors(errors: seq<TradingValidation.ValidationError>): (lines: seq<string>)
    ensures |lines| == |errors|
    ensures forall i :: 0 <= i < |errors| ==>
      lines[i] == TradingValidation.FieldName(errors[i].field) + ": " + MessageText(errors[i].message)
  {
    if errors == [] then [] else [FormatError(errors[0])] + FormatErrors(errors[1..])
  }

  /** Parameters the frontend rules accept are ones the engine can compute
      on: the frontend reports nothing exactly when the backend does. */
  lemma FrontendAcceptedIsComputable(p: TradingParameters)
    requires Failures(TradingValidation.FieldRules(p)) == []
    ensures Computable(RiskCalculationService.SetupOf(p))
  {
    TradingValidation.FrontendAgreesWithBackend(p);
    RiskCalculationService.AcceptedIsComputable(p);
  }

  /** Lines 7-34: a failure listing every formatted error when a rule
      fails, and otherwise the parameters with their reference analysis. */
  method Execute(params: TradingParameters) returns (r: Result<AnalyzeRiskData, seq<string>>)
    ensures r.Failure? <==> Failures(TradingValidation.FieldRules(params)) != []
    ensures r.Failure? ==>
      r.error == FormatErrors(Failures(TradingValidation.FieldRules(params))) && |r.error| > 0
    ensures r.Success? ==>
      Computable(RiskCalculationService.SetupOf(params))
      && r.value == AnalyzeRiskData(params, ReferenceAnalysis(RiskCalculationService.SetupOf(params)))
  {
    var validationErrors := TradingValidation.ValidateTradingParameters(params);
    if |validationErrors| > 0 {
      return Failure(FormatErrors(validationErrors));
    }
    FrontendAcceptedIsComputable(params);
    var analysis := RiskCalculationUtil.AnalyzeRisk(params);
    r := Success(AnalyzeRiskData(params, analysis));
  }
}
