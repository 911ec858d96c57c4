# Trading risk calculator: a Dafny model of its core

The system sizes a leveraged trading position from an entry price, a stop
loss, a take profit, a leverage, a risk percentage and an account balance.
It reports the liquidation price, the position size, the margin, the order
value, the potential profit and loss, the reward-to-risk ratio and the loss
as a percentage of the balance. It then simulates three outcomes (stop loss
hit, take profit hit, liquidation), grades the trade LOW, MEDIUM, HIGH or
EXTREME from a threshold table, and lists recommendations. Saved trading
plans move through the statuses DRAFT, ACTIVE, EXECUTED and CANCELLED.

The engine exists in five copies: the backend domain service, the
lightweight backend service, the serverless handler, the frontend domain
utility and the frontend library. There is also a set of shared helpers.
The model defines the engine once, in closed form (`RiskReference`). It
then proves that every copy computes that reference under its own reading
of the inputs:

- which balance field the copy reads;
- how it decides the direction: the declared position type, the string
  "long", or the take profit lying above the entry;
- whether a missing risk percentage defaults to 1.

The validators are lists of rules (`Checks`), and each validating method
is proved to report exactly the failing rules, in order. On top of that,
the model proves:

- the frontend validator says what the backend one says, with fields
  attached;
- parameters that pass validation are ones the engine can compute on;
- the risk page of the frontend lets a risk percentage of 0 through (see
  Findings).

The plan entity is a value with guarded transitions. The status use case
is a class over a map-backed repository.

Modules:

- `Wrappers`, `TradingTypes`: options, results, and the shared records
  and message tokens (no source file of their own).
- `Checks`: the rule-list pattern the validators share: each rule that
  fails pushes its error, in order.
- `RiskReference`: the closed-form engine and its properties (no source
  file of its own).
- `RiskCalculationService`: the backend domain service.
- `RiskCalculationUtil`: the frontend domain copy.
- `RiskService`: the lightweight backend service.
- `RiskCalculationsLib`: the frontend library.
- `ApiIndex`: the serverless handler.
- `SharedUtils`: the shared helpers.
- `TradingValidation`: the frontend validator.
- `AnalyzeRiskUseCase`: the frontend analysis use case.
- `RiskPage`: the risk page.
- `TradingPlanEntity`: the plan entity.
- `UpdatePlanStatus`: the status use case.
- `MoneyValue`, `PercentageValue`: the two value objects.

Numbers are mathematical reals.

## Model

| member | source | states |
|---|---|---|
| RiskReference.LiquidationBounds | apps/backend/src/domain/services/RiskCalculationService.ts:39-51 | For entry > 0 and leverage >= 1 the long liquidation price lies strictly between 0 and the entry and the short one above it. Both are entry * 0.995 / leverage away from the entry. |
| RiskReference.LossIsRiskAmount | apps/backend/src/domain/services/RiskCalculationService.ts:84-94 | Position size times stop distance is the risk amount balance * risk / 100, so the loss percentage equals the risk percentage. |
| RiskReference.ProfitAndRatio | apps/backend/src/domain/services/RiskCalculationService.ts:90-93 | Profit is size times target distance. The ratio is profit over loss. |
| RiskReference.OrderValueAndMargin | apps/backend/src/domain/services/RiskCalculationService.ts:87-89 | The order value is size * entry, and margin * leverage gives it back. |
| RiskReference.LeverageOnlyMovesMargin | apps/backend/src/domain/services/RiskCalculationService.ts:53-62 | Changing only the leverage leaves size, order value, profit, loss and ratio unchanged. |
| RiskReference.LevelDependsOnRiskAndPrices | apps/backend/src/domain/services/RiskCalculationService.ts:90-94 | Ratio, level and recommendations depend only on the three prices and the risk percentage, not on the balance or the leverage. |
| RiskReference.LiquidationGap | apps/backend/src/domain/services/RiskCalculationService.ts:95 | The distance to liquidation is the gap between entry and liquidation price. |
| RiskReference.CalculationSteps | apps/backend/src/domain/services/RiskCalculationService.ts:84-95 | Starting from the reference size, each metric written the way the source derives it (margin, order value, profit, loss, ratio, loss percentage, liquidation distance) equals its reference value, and the loss is non-zero. |
| RiskReference.DerivedIsReference | apps/backend/src/domain/services/RiskCalculationService.ts:80-108 | Any ten numbers related to the reference size the way the engine copies chain them form exactly the reference calculations. |
| RiskReference.LiquidationMove | apps/backend/src/domain/services/RiskCalculationService.ts:39-51 | The long price is entry - entry * 0.995 / leverage. The short price is entry + the same amount. |
| RiskReference.SimulationsShape | apps/backend/src/domain/services/RiskCalculationService.ts:111-133 | Three scenarios in the order stop, take, liquidation. Each P&L is the change of the balance. Liquidation leaves 10 % of the balance at -90 %. |
| RiskReference.SimulationsDetermined | apps/backend/src/domain/services/RiskCalculationService.ts:111-133 | Simulations are determined by their scenarios, P&Ls and descriptions, given balance-consistent results. |
| RiskReference.RiskTableRows | apps/backend/src/domain/services/RiskCalculationService.ts:136-139 | Each level holds exactly under its first-match condition, with strict comparisons. |
| RiskReference.RatioHalfIsHigh | apps/backend/src/domain/services/RiskCalculationService.ts:137-138 | A ratio of exactly 0.5 with a loss of at most 5 % is HIGH, not EXTREME. |
| RiskReference.RiskTableMonotone | apps/backend/src/domain/services/RiskCalculationService.ts:136-139 | More loss or less ratio never lowers the severity. |
| RiskReference.RecommendationsFollowLevel | apps/backend/src/domain/services/RiskCalculationService.ts:142-156 | The two fallback messages appear exactly for LOW. EXTREME or HIGH yield at least three messages. |
| RiskReference.LongExample | apps/backend/src/domain/services/RiskCalculationService.ts:64-164 | Worked long trade (50000/48000/55000, x10, 1 % of 10000): liquidation 45025, size 0.05, loss 100, profit 250, ratio 2.5, LOW, fallback advice. |
| RiskCalculationService.CalculateLiquidationPrice | apps/backend/src/domain/services/RiskCalculationService.ts:39-51 | Equals the reference liquidation price for the declared direction. |
| RiskCalculationService.CalculatePositionSize | apps/backend/src/domain/services/RiskCalculationService.ts:53-62 | Size times stop distance is the risk amount. |
| RiskCalculationService.Metrics | apps/backend/src/domain/services/RiskCalculationService.ts:80-108 | The step-by-step calculations equal the reference calculations. |
| RiskCalculationService.AnalyzeRisk | apps/backend/src/domain/services/RiskCalculationService.ts:64-164 | Fails, with Money's error, exactly when the stop loss, take profit or balance is negative (the description formatting throws). Otherwise returns the reference analysis. |
| RiskCalculationService.ValidateTradingParameters | apps/backend/src/domain/services/RiskCalculationService.ts:166-206 | Reports the message of every failing rule, in rule order. |
| RiskCalculationService.ValidationUnrolled | apps/backend/src/domain/services/RiskCalculationService.ts:166-206 | The reported messages are the eight rules' reports concatenated in source order. |
| RiskCalculationService.RangeRulesUnrolled | apps/backend/src/domain/services/RiskCalculationService.ts:169-186 | The six range rules' reports in source order. |
| RiskCalculationService.AcceptedIsComputable | apps/backend/src/domain/services/RiskCalculationService.ts:166-206 | Accepted parameters are computable, have a positive balance, and have prices ordered for the declared direction. |
| RiskCalculationService.FractionalLeverageAccepted | apps/backend/src/domain/services/RiskCalculationService.ts:184-186 | A leverage of 0.5 passes, although the message says 1 to 125. |
| RiskCalculationUtil.CalculateLiquidationPrice | apps/frontend/src/domain/utils/RiskCalculation.ts:6-18 | Equals the reference liquidation price. |
| RiskCalculationUtil.CalculatePositionSize | apps/frontend/src/domain/utils/RiskCalculation.ts:20-29 | Size times stop distance is the risk amount. |
| RiskCalculationUtil.CopiesAgree | apps/frontend/src/domain/utils/RiskCalculation.ts:6-29 | The frontend and backend helpers agree on every input. |
| RiskCalculationUtil.Metrics | apps/frontend/src/domain/utils/RiskCalculation.ts:47-75 | Equals the reference calculations. |
| RiskCalculationUtil.AnalyzeRisk | apps/frontend/src/domain/utils/RiskCalculation.ts:31-131 | Returns the reference analysis, hence the backend service's analysis on every input it accepts. |
| RiskCalculationUtil.GetRiskLevelColor | apps/frontend/src/domain/utils/RiskCalculation.ts:146-159 | Every level gets a Tailwind text colour class of shade 600 ("text-…-600"). |
| RiskCalculationUtil.RiskLevelColorsDistinct | apps/frontend/src/domain/utils/RiskCalculation.ts:146-159 | The four levels map to four different colour classes. |
| RiskService.CalculateLiquidationPrice | apps/backend/src/services/risk.service.ts:37-50 | Equals the reference liquidation price. |
| RiskService.CalculatePositionSize | apps/backend/src/services/risk.service.ts:52-61 | Size times stop distance is the risk amount. |
| RiskService.Metrics | apps/backend/src/services/risk.service.ts:64-101 | Equals the reference calculations of `balance` with direction "long" or not. |
| RiskService.PositionSizeMatchesAnalysis | apps/backend/src/services/risk.service.ts:52-73 | The standalone size helper gives the size the analysis uses. |
| RiskService.RunSimulations | apps/backend/src/services/risk.service.ts:122-169 | Three scenarios in order. Each result is balance-consistent, with the stop P&L -loss, the take P&L +profit and the liquidation scenario. |
| RiskService.AssessRiskLevel | apps/backend/src/services/risk.service.ts:171-184 | Equals the threshold table's level. |
| RiskService.GenerateRecommendations | apps/backend/src/services/risk.service.ts:186-216 | Equals the standard recommendation list, with 1 to 4 entries, since EXTREME and HIGH exclude each other. |
| RiskService.AnalyzeRisk | apps/backend/src/services/risk.service.ts:63-120 | The report holds the request, the reference analysis and the call time. |
| RiskService.AccountBalanceIgnored | apps/backend/src/services/risk.service.ts:63-73 | Two requests that differ only in `accountBalance` get the same analysis. The report still echoes the parameters, `accountBalance` included. |
| RiskService.OnlyLongIsLong | apps/backend/src/services/risk.service.ts:65 | Only the exact string "long" is priced as a long. |
| RiskService.GetRecommendations | apps/backend/src/services/risk.service.ts:218-229 | Six tips. |
| RiskService.EveryTopicOnce | apps/backend/src/services/risk.service.ts:218-229 | Every topic appears, and no topic twice. |
| RiskService.TitlesDistinct | apps/backend/src/services/risk.service.ts:218-229 | Topics have pairwise different titles. |
| RiskCalculationsLib.CalculateLiquidationPrice | apps/frontend/src/lib/riskCalculations.ts:3-18 | Equals the reference liquidation price. |
| RiskCalculationsLib.CalculateRiskMetrics | apps/frontend/src/lib/riskCalculations.ts:20-62 | The eight reference calculations, with direction take > entry and default risk 1. |
| RiskCalculationsLib.FlatTargetIsShort | apps/frontend/src/lib/riskCalculations.ts:24 | A take profit equal to the entry is treated as short. |
| RiskCalculationsLib.DefaultRiskIsOnePercent | apps/frontend/src/lib/riskCalculations.ts:21 | Without a risk percentage the loss is 1 % of the balance. |
| RiskCalculationsLib.RunSimulations | apps/frontend/src/lib/riskCalculations.ts:64-112 | Three balance-consistent scenarios in order, as in the backend. |
| RiskCalculationsLib.AssessRiskLevel | apps/frontend/src/lib/riskCalculations.ts:114-126 | Equals the threshold table's level. |
| RiskCalculationsLib.GenerateRecommendations | apps/frontend/src/lib/riskCalculations.ts:128-162 | Equals the five warnings that apply, in fixed order, or the reassurance alone. |
| RiskCalculationsLib.ReassuranceIffNoWarning | apps/frontend/src/lib/riskCalculations.ts:128-162 | The reassurance appears, alone, exactly when no warning condition holds. The list has 1 to 5 entries. |
| RiskCalculationsLib.OrderedOptions | apps/frontend/src/lib/riskCalculations.ts:136-159 | Whichever of the five warnings apply, they come out in the order they are tested. |
| RiskCalculationsLib.PresentOptions | apps/frontend/src/lib/riskCalculations.ts:136-159 | Each warning is in the list exactly when its test passes, and the reassurance never is. |
| TradingTypes.DescriptionPrefixesDistinct | apps/backend/src/services/risk.service.ts:144-165 | The three scenario descriptions start with different fixed texts ("Stop loss hit at ", "Take profit hit at ", "Position liquidated - catastrophic loss of "), so two descriptions share a prefix exactly when they are of the same kind. |
| RiskCalculationsLib.WarningOrder | apps/frontend/src/lib/riskCalculations.ts:136-159 | On every input the messages are in the fixed order loss cap (2 % of the balance), ratio, margin, liquidation, extreme, each at most once, and each warning is present exactly when its condition holds. |
| RiskCalculationsLib.AnalyzeRisk | apps/frontend/src/lib/riskCalculations.ts:164-177 | Parameters echoed, with the reference calculations, simulations, table level and warnings. |
| ApiIndex.CalculateLiquidationPrice | apps/backend/api/index.ts:36-49 | Equals the reference liquidation price. |
| ApiIndex.SchemaValidIsComputable | apps/backend/api/index.ts:61-70 | Under the request schema the engine computes exactly when the stop differs from the entry. |
| ApiIndex.HandlerCalculations | apps/backend/api/index.ts:76-104 | Equals the reference calculations of `balance`. |
| ApiIndex.HandlerIdentities | apps/backend/api/index.ts:79-104 | Order value is size * entry. The loss is balance * risk / 100 whatever `accountBalance` says. |
| ApiIndex.AnalyzeHandler | apps/backend/api/index.ts:76-152 | Response data: the request, the reference analysis and the call time. |
| ApiIndex.LiquidationEndpoint | apps/backend/api/index.ts:173-185 | A missing `isLong` is long. The price is the reference price and the inputs are echoed. |
| SharedUtils.CalculateLiquidationPrice | packages/utils/src/index.ts:30-43 | Reference price, with a missing direction taken as long. |
| SharedUtils.DefaultIsLongBelowEntry | packages/utils/src/index.ts:30-43 | The default equals the long price, below the entry. The short price is above it. |
| SharedUtils.CalculatePositionSize | packages/utils/src/index.ts:45-54 | Size times stop distance is the risk amount. |
| SharedUtils.CalculateRiskRewardRatio | packages/utils/src/index.ts:56-64 | Ratio times risk distance is the reward distance. |
| SharedUtils.RatioMatchesEngine | packages/utils/src/index.ts:56-64 | The helper's ratio is the engines' profit over loss. |
| SharedUtils.IsValidPrice | packages/utils/src/index.ts:67-69 | Valid exactly when the validators' `<= 0` price rule passes. The source's `isFinite(price)` conjunct always holds because the numbers are reals. |
| SharedUtils.IsValidLeverage | packages/utils/src/index.ts:71-73 | Valid exactly when the validators' (0, 125] rule passes and the leverage is at least 1. |
| SharedUtils.IsValidRiskPercentage | packages/utils/src/index.ts:75-77 | Valid exactly when the validators' (0, 100] risk rule passes. |
| SharedUtils.ChecksAgainstValidators | packages/utils/src/index.ts:71-73 | The leverage check is stricter than the validators' range rule: every leverage it accepts passes that rule, and 0.5 passes the rule yet fails the check. |
| SharedUtils.CleanCurrency | packages/utils/src/index.ts:11-14 | Keeps only digits, '.' and '-', every one of them taken from the input, and keeps every such character of the input. |
| SharedUtils.CleanAppend | packages/utils/src/index.ts:12 | Cleaning distributes over concatenation, so order is kept. |
| SharedUtils.CleanIdempotent | packages/utils/src/index.ts:12 | Cleaning twice is cleaning once. |
| SharedUtils.CleanKeepsClean | packages/utils/src/index.ts:12 | A clean string is left unchanged. |
| SharedUtils.CleanExample | packages/utils/src/index.ts:12 | "$1,5" cleans to "15". |
| TradingValidation.ValidateTradingParameters | apps/frontend/src/domain/rules/TradingValidation.ts:9-49 | Reports the field-tagged error of every failing rule, in rule order. |
| TradingValidation.FieldRulesUnrolled | apps/frontend/src/domain/rules/TradingValidation.ts:12-46 | The errors are the eight rules' reports in source order. |
| TradingValidation.FieldRulesAreBackendRules | apps/frontend/src/domain/rules/TradingValidation.ts:12-46 | The rules are the backend service's rules, tagged with fields. |
| TradingValidation.FailuresTagged | apps/frontend/src/domain/rules/TradingValidation.ts:9-49 | Tagging rules tags what they report. |
| TradingValidation.FrontendAgreesWithBackend | apps/frontend/src/domain/rules/TradingValidation.ts:9-49 | The frontend reports the backend's messages in order, with fields. Removing the fields gives the backend's list. Both accept the same inputs. |
| TradingValidation.TagFaithful | apps/frontend/src/domain/rules/TradingValidation.ts:9-49 | Every error names its message's field. Untagging recovers the messages. |
| TradingValidation.ValidatePlanName | apps/frontend/src/domain/rules/TradingValidation.ts:51-62 | Reports the failing name rules in order: blank after trimming, then more than 100 UTF-16 code units. |
| TradingValidation.NameAcceptance | apps/frontend/src/domain/rules/TradingValidation.ts:51-62 | Accepted exactly when the name is not blank after trimming and has at most 100 UTF-16 code units. A blank name of 101 characters gets both errors. |
| TradingValidation.Utf16Length | apps/frontend/src/domain/rules/TradingValidation.ts:57 | JavaScript `length`: between the character count and twice it. It equals the character count exactly when no character is outside the Basic Multilingual Plane, and twice it exactly when all are. |
| TradingValidation.Utf16LengthAppend | apps/frontend/src/domain/rules/TradingValidation.ts:57 | The length of a concatenation is the sum of the lengths. |
| TradingValidation.EmojiNameTooLong | apps/frontend/src/domain/rules/TradingValidation.ts:51-62 | A name of 51 emoji counts 102 code units and gets only the too-long error. |
| TradingValidation.ValidatePlanDescription | apps/frontend/src/domain/rules/TradingValidation.ts:64-72 | One error exactly when the description exceeds 500 UTF-16 code units. |
| AnalyzeRiskUseCase.FormatErrors | apps/frontend/src/application/use-cases/AnalyzeRisk.ts:14 | One line per error, in order: line i is "field: message" of error i. |
| AnalyzeRiskUseCase.FrontendAcceptedIsComputable | apps/frontend/src/application/use-cases/AnalyzeRisk.ts:10-19 | Parameters the frontend accepts are ones the engine can compute on. |
| AnalyzeRiskUseCase.Execute | apps/frontend/src/application/use-cases/AnalyzeRisk.ts:7-34 | Fails exactly when a rule fails, listing every formatted error. Otherwise returns the parameters with the reference analysis. |
| RiskPage.ValidateInputs | apps/frontend/src/app/risk/page.tsx:42-82 | Reports the message of every failing page rule, in order. |
| RiskPage.PageRulesUnrolled | apps/frontend/src/app/risk/page.tsx:45-79 | The eight page rules' reports in source order. The risk rule is skipped at 0 and leverage is capped at 100. |
| RiskPage.LabelByIndex | apps/frontend/src/app/risk/page.tsx:94-98 | One labelled validation per message: entry i carries message i and the (from + i)-th key of the parameter object, or no key when the object has fewer keys, whatever rule produced the message. |
| RiskPage.HandleAnalyze | apps/frontend/src/app/risk/page.tsx:84-120 | Warns exactly when a rule fails, with every message. An accepted zero risk is the unbounded outcome. Otherwise returns the library analysis of the engine input. |
| RiskPage.PageAccepted | apps/frontend/src/app/risk/page.tsx:42-82 | Accepted input has positive prices and balance, leverage in (0, 100] and prices ordered for the direction. The inferred direction is the declared one. It is computable exactly when the risk is not 0. |
| RiskPage.ZeroRiskAccepted | apps/frontend/src/app/risk/page.tsx:57-59 | A long request with risk 0 passes every rule, yet the engine cannot compute on it. |
| RiskPage.CheckedPageRules | apps/frontend/src/app/risk/page.tsx:45-79 | The page rules with the risk rule applied to every value, still eight rules. |
| RiskPage.CheckedAcceptedIsComputable | apps/frontend/src/app/risk/page.tsx:57-59 | With the corrected risk rule, every accepted request is computable in the declared direction. |
| TradingPlanEntity.Create | apps/backend/src/domain/entities/TradingPlan.ts:49-99 | A fresh plan carries the given id, user, name and figures and is a consistent DRAFT, created and updated now. An empty description becomes none. |
| TradingPlanEntity.Execute | apps/backend/src/domain/entities/TradingPlan.ts:101-133 | Succeeds exactly from ACTIVE, giving EXECUTED with the execution time. Every other field is kept. Otherwise "Only active plans can be executed". |
| TradingPlanEntity.Activate | apps/backend/src/domain/entities/TradingPlan.ts:135-167 | Succeeds exactly from DRAFT, giving ACTIVE with no execution time. Every other field is kept. Otherwise "Only draft plans can be activated". |
| TradingPlanEntity.Cancel | apps/backend/src/domain/entities/TradingPlan.ts:169-201 | Fails only on EXECUTED. Otherwise gives CANCELLED with no execution time. Every other field is kept. |
| TradingPlanEntity.UpdateName | apps/backend/src/domain/entities/TradingPlan.ts:203-235 | Fails exactly on EXECUTED. Otherwise changes only the name and the update time. |
| TradingPlanEntity.UpdateDescription | apps/backend/src/domain/entities/TradingPlan.ts:237-269 | Fails exactly on EXECUTED. Otherwise changes only the description and the update time. |
| TradingPlanEntity.ApplyStep | apps/backend/src/domain/entities/TradingPlan.ts:101-269 | Every method throws on an EXECUTED plan. A successful call keeps id, owner, figures and creation time, moves along an allowed edge and keeps the plan consistent. |
| TradingPlanEntity.AllowedThenReachable | apps/backend/src/domain/entities/TradingPlan.ts:101-201 | An allowed edge followed by a reachable status is reachable. |
| TradingPlanEntity.RunKeepsConsistent | apps/backend/src/domain/entities/TradingPlan.ts:97-269 | Along any run of successful calls the plan stays consistent and the same plan, reaching only statuses reachable from the start. From EXECUTED no call succeeds. |
| TradingPlanEntity.CreatedPlansStayConsistent | apps/backend/src/domain/entities/TradingPlan.ts:97-269 | Every plan reached from create has an execution time exactly when EXECUTED. |
| UpdatePlanStatus.Dispatch | apps/backend/src/application/use-cases/UpdatePlanStatus.ts:29-44 | Succeeds exactly for ACTIVE from DRAFT, EXECUTED from ACTIVE, or CANCELLED from anything but EXECUTED. The new status is the requested one. A DRAFT request gives "Invalid status transition". |
| UpdatePlanStatus.RefusalMessages | apps/backend/src/application/use-cases/UpdatePlanStatus.ts:29-38 | A refused transition carries the entity's guard message. |
| UpdatePlanStatus.UpdatePlanStatusUseCase.constructor | apps/backend/src/application/use-cases/UpdatePlanStatus.ts:6 | The repository starts with the given, id-keyed, consistent plans. |
| UpdatePlanStatus.UpdatePlanStatusUseCase.Execute | apps/backend/src/application/use-cases/UpdatePlanStatus.ts:8-64 | A blank id gives "Plan ID is required". A missing plan gives "Trading plan not found". A refused transition gives its message. All three leave the repository untouched. On success the plan is replaced and reported with the requested status. |
| MoneyValue.Create | apps/backend/src/domain/value-objects/Money.ts:7-12 | Succeeds exactly for a non-negative amount, defaulting to USD. |
| MoneyValue.Add | apps/backend/src/domain/value-objects/Money.ts:22-27 | Succeeds exactly for equal currencies, with the sum. |
| MoneyValue.Subtract | apps/backend/src/domain/value-objects/Money.ts:29-34 | Succeeds exactly for equal currencies and a non-negative difference. Otherwise the currency or negative-amount error. |
| MoneyValue.Multiply | apps/backend/src/domain/value-objects/Money.ts:36-38 | Succeeds exactly when the product is non-negative, keeping the currency. Otherwise "Money amount cannot be negative". |
| MoneyValue.Divide | apps/backend/src/domain/value-objects/Money.ts:40-45 | Zero gives "Cannot divide by zero". A negative divisor of a positive amount is negative. Otherwise the quotient. |
| MoneyValue.IsGreaterThan | apps/backend/src/domain/value-objects/Money.ts:47-52 | Compares amounts of equal currencies. Otherwise an error. |
| MoneyValue.IsLessThan | apps/backend/src/domain/value-objects/Money.ts:54-59 | Compares amounts of equal currencies. Otherwise an error. |
| MoneyValue.Equals | apps/backend/src/domain/value-objects/Money.ts:61-63 | Value equality. |
| MoneyValue.ComparisonsExclusive | apps/backend/src/domain/value-objects/Money.ts:47-63 | Greater and less never both hold. Neither means equal. |
| MoneyValue.AddSubtractRoundTrip | apps/backend/src/domain/value-objects/Money.ts:22-34 | (a + b) - b == a for real amounts. JavaScript rounding can break it (0.1 + 0.2 - 0.2 gives 0.10000000000000003). |
| MoneyValue.CurrencyPreserved | apps/backend/src/domain/value-objects/Money.ts:22-45 | Every successful operation keeps the receiver's currency. |
| PercentageValue.Create | apps/backend/src/domain/value-objects/Percentage.ts:6-11 | Succeeds exactly on [0, 100]. |
| PercentageValue.FromDecimal | apps/backend/src/domain/value-objects/Percentage.ts:13-15 | Succeeds exactly on [0, 1], scaled by 100. Otherwise "Percentage must be between 0 and 100". |
| PercentageValue.ToDecimal | apps/backend/src/domain/value-objects/Percentage.ts:17-19 | A fraction in [0, 1] that is a hundredth of the value. |
| PercentageValue.Of | apps/backend/src/domain/value-objects/Percentage.ts:21-23 | The share of the amount. |
| PercentageValue.Add | apps/backend/src/domain/value-objects/Percentage.ts:25-27 | Succeeds exactly when the sum is at most 100. |
| PercentageValue.Subtract | apps/backend/src/domain/value-objects/Percentage.ts:29-31 | Succeeds exactly when the difference is non-negative. |
| PercentageValue.Multiply | apps/backend/src/domain/value-objects/Percentage.ts:33-35 | Succeeds exactly when the product is in [0, 100]. Otherwise the range message. |
| PercentageValue.Divide | apps/backend/src/domain/value-objects/Percentage.ts:37-42 | Zero gives "Cannot divide by zero". Otherwise succeeds exactly when the quotient is in [0, 100], and fails with the range message. |
| PercentageValue.IsGreaterThan | apps/backend/src/domain/value-objects/Percentage.ts:44-46 | Strict order on values. |
| PercentageValue.IsLessThan | apps/backend/src/domain/value-objects/Percentage.ts:48-50 | Strict order on values. |
| PercentageValue.Equals | apps/backend/src/domain/value-objects/Percentage.ts:52-54 | Value equality. |
| PercentageValue.Trichotomy | apps/backend/src/domain/value-objects/Percentage.ts:44-54 | Exactly one of greater, less and equal holds. |
| PercentageValue.DecimalRoundTrip | apps/backend/src/domain/value-objects/Percentage.ts:13-19 | fromDecimal(toDecimal(p)) == p for real values. JavaScript rounding can break it (fromDecimal(toDecimal(7)) gives 7.000000000000001). |

## Left out

- Floating point: numbers are reals. The inputs on which JavaScript would produce Infinity or NaN (stop at the entry, zero leverage, zero balance, zero risk) are excluded by `RiskReference.Computable`. On the risk page they become the `Unbounded` outcome.
- Text: recommendations, validation messages and plan errors are tokens, and each token's exact text is given by `TradingTypes.Text`, `TradingTypes.MessageText`, `RiskService.Title`/`Advice`, `TradingPlanEntity.ErrorText` and, for the library's recommendations, `RiskCalculationsLib.AdviceText`. The library's loss-cap message embeds the cap printed by `toFixed(2)`, which is a parameter there. Simulation descriptions are tokens whose fixed leading text is `TradingTypes.DescriptionPrefix`; the formatted amount after it is not modelled. Currency, percentage and `toFixed` formatting are not modelled.
- Clock: `new Date()` and `Date.now()` are a `now` parameter. The two clock reads in `create` (created and updated time) and the two in `execute` (updated and executed time) are each taken as one instant.
- Parsing: `parseFloat` in `parseCurrency` and `fromString` is not modelled. Only the character filter is.
- Exceptions: try/catch wrappers around the use cases and handlers only catch the modelled errors or ones from code that is not part of this model (repository, network).
- Repository: `UpdatePlanStatus` holds the repository as a map. Persistence failures and asynchrony are not modelled.
- Risk page: React state, analytics calls, timers, and the `value` field of each validation entry are not modelled.
- RiskCalculationUtil.GetRiskLevelColor: the unreachable default colour is not modelled.
- HTTP: routing, request parsing and response status codes of the serverless handler are not modelled. The recommendations endpoint is `RiskService.GetRecommendations`.
- TradingValidation.NameAcceptance: follows the code, which accepts a 100-character name although its message says "less than 100".

## Findings

| source | as written | input that shows it | evidently intended | confidence | as-written member | corrected member |
|---|---|---|---|---|---|---|
| apps/frontend/src/app/risk/page.tsx:57-59 | the risk rule runs only when the risk percentage is truthy, so 0 passes | entry 100, stop 90, take 120, balance 1000, leverage 10, risk 0, "long": no warning, then the engine divides 0 by 0 for the ratio | reject a risk percentage of 0 like the other validators | not executed | RiskPage.ZeroRiskAccepted | RiskPage.CheckedAcceptedIsComputable |
