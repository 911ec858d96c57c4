/** The frontend validation rules (`TradingValidation`): the trading
    parameter rules of the backend service, with each message tagged by the
    field it is about, and the rules on a plan's name and description. */
module TradingValidation {
  import opened Checks
  import opened TradingTypes
  import RiskCalculationService

  /** The form fields an error can point at. */
  datatype Field =
    | EntryPriceField
    | StopLossField
    | TakeProfitField
    | AccountBalanceField
    | RiskPercentageField
    | LeverageField
    | NameField
    | DescriptionField

  function FieldName(f: Field): string
  {
    match f
    case EntryPriceField => "entryPrice"
    case StopLossField => "stopLoss"
    case TakeProfitField => "takeProfit"
    case AccountBalanceField => "accountBalance"
    case RiskPercentageField => "riskPercentage"
    case LeverageField => "leverage"
    case NameField => "name"
    case DescriptionField => "description"
  }

  datatype ValidationError = ValidationError(field: Field, message: Message)

  /** The field each message is about. */
  function FieldOf(m: Message): Field
  {
    match m
    case EntryPriceNotPositive => EntryPriceField
    case StopLossNotPositive => StopLossField
    case TakeProfitNotPositive => TakeProfitField
    case AccountBalanceNotPositive => AccountBalanceField
    case RiskPercentageOutOfRange => RiskPercentageField
    case LeverageOutOfRange => LeverageField
    case LongStopNotBelowEntry => StopLossField
    case LongTakeNotAboveEntry => TakeProfitField
    case ShortStopNotAboveEntry => StopLossField
    case ShortTakeNotBelowEntry => TakeProfitField
    case PlanNameRequired => NameField
    case PlanNameTooLong => NameField
    case DescriptionTooLong => DescriptionField
    case PageLeverageOutOfRange => LeverageField
    case PageLongStopNotBelowEntry => StopLossField
    case PageLongTakeNotAboveEntry => TakeProfitField
  }

  function WithField(m: Message): ValidationError
  {
    ValidationError(FieldOf(m), m)
  }

  /** The eight rules of lines 12-46, each error with its field; a
      position type other than LONG gets the short rules. */
  function FieldRules(p: TradingParameters): seq<Check<ValidationError>>
  {
    [Check(p.entryPrice <= 0.0, ValidationError(EntryPriceField, EntryPriceNotPositive))]
    + [Check(p.stopLoss <= 0.0, ValidationError(StopLossField, StopLossNotPositive))]
    + [Check(p.takeProfit <= 0.0, ValidationError(TakeProfitField, TakeProfitNotPositive))]
    + [Check(p.accountBalance <= 0.0, ValidationError(AccountBalanceField, AccountBalanceNotPositive))]
    + [Check(OutOfRange(p.riskPercentage, 100.0), ValidationError(RiskPercentageField, RiskPercentageOutOfRange))]
    + [Check(OutOfRange(p.leverage, 125.0), ValidationError(LeverageField, LeverageOutOfRange))]
    + [StopFieldRule(p)] + [TakeFieldRule(p)]
  }

  function StopFieldRule(p: TradingParameters): Check<ValidationError>
  {
    if p.positionType == Long then Check(p.stopLoss >= p.entryPrice, ValidationError(StopLossField, LongStopNotBelowEntry))
    else Check(p.stopLoss <= p.entryPrice, ValidationError(StopLossField, ShortStopNotAboveEntry))
  }

  function TakeFieldRule(p: TradingParameters): Check<ValidationError>
  {
    if p.positionType == Long then Check(p.takeProfit <= p.entryPrice, ValidationError(TakeProfitField, LongTakeNotAboveEntry))
    else Check(p.takeProfit >= p.entryPrice, ValidationError(TakeProfitField, ShortTakeNotBelowEntry))
  }

  /** Lines 9-49: pushes the error of every failing rule, in rule order. */
  method ValidateTradingParameters(p: TradingParameters) returns (errors: seq<ValidationError>)
    ensures errors == Failures(FieldRules(p))
  {
    errors := [];
    errors := Report(errors, Check(p.entryPrice <= 0.0, ValidationError(EntryPriceField, EntryPriceNotPositive)));
    assert errors == Reported(Check(p.entryPrice <= 0.0, ValidationError(EntryPriceField, EntryPriceNotPositive)));
    errors := Report(errors, Check(p.stopLoss <= 0.0, ValidationError(StopLossField, StopLossNotPositive)));
    errors := Report(errors, Check(p.takeProfit <= 0.0, ValidationError(TakeProfitField, TakeProfitNotPositive)));
    errors := Report(errors, Check(p.accountBalance <= 0.0, ValidationError(AccountBalanceField, AccountBalanceNotPositive)));
    errors := Report(errors, Check(OutOfRange(p.riskPercentage, 100.0), ValidationError(RiskPercentageField, RiskPercentageOutOfRange)));
    errors := Report(errors, Check(OutOfRange(p.leverage, 125.0), ValidationError(LeverageField, LeverageOutOfRange)));
    if p.positionType == Long {
      errors := Report(errors, Check(p.stopLoss >= p.entryPrice, ValidationError(StopLossField, LongStopNotBelowEntry)));
      errors := Report(errors, Check(p.takeProfit <= p.entryPrice, ValidationError(TakeProfitField, LongTakeNotAboveEntry)));
    } else {
      errors := Report(errors, Check(p.stopLoss <= p.entryPrice, ValidationError(StopLossField, ShortStopNotAboveEntry)));
      errors := Report(errors, Check(p.takeProfit >= p.entryPrice, ValidationError(TakeProfitField, ShortTakeNotBelowEntry)));
    }
    ghost var range := Reported(Check(p.entryPrice <= 0.0, ValidationError(EntryPriceField, EntryPriceNotPositive)))
      + Reported(Check(p.stopLoss <= 0.0, ValidationError(StopLossField, StopLossNotPositive)))
      + Reported(Check(p.takeProfit <= 0.0, ValidationError(TakeProfitField, TakeProfitNotPositive)))
      + Reported(Check(p.accountBalance <= 0.0, ValidationError(AccountBalanceField, AccountBalanceNotPositive)))
      + Reported(Check(OutOfRange(p.riskPercentage, 100.0), ValidationError(RiskPercentageField, RiskPercentageOutOfRange)))
      + Reported(Check(OutOfRange(p.leverage, 125.0), ValidationError(LeverageField, LeverageOutOfRange)));
    assert errors == range + Reported(StopFieldRule(p)) + Reported(TakeFieldRule(p));
    FieldRulesUnrolled(p);
  }

  /** The errors of the eight rules, rule by rule. */
  lemma FieldRulesUnrolled(p: TradingParameters)
    ensures Failures(FieldRules(p))
         == Reported(Check(p.entryPrice <= 0.0, ValidationError(EntryPriceField, EntryPriceNotPositive)))
          + Reported(Check(p.stopLoss <= 0.0, ValidationError(StopLossField, StopLossNotPositive)))
          + Reported(Check(p.takeProfit <= 0.0, ValidationError(TakeProfitField, TakeProfitNotPositive)))
          + Reported(Check(p.accountBalance <= 0.0, ValidationError(AccountBalanceField, AccountBalanceNotPositive)))
          + Reported(Check(OutOfRange(p.riskPercentage, 100.0), ValidationError(RiskPercentageField, RiskPercentageOutOfRange)))
          + Reported(Check(OutOfRange(p.leverage, 125.0), ValidationError(LeverageField, LeverageOutOfRange)))
          + Reported(StopFieldRule(p)) + Reported(TakeFieldRule(p))
  {
    var c1 := Check(p.entryPrice <= 0.0, ValidationError(EntryPriceField, EntryPriceNotPositive));
    var c2 := Check(p.stopLoss <= 0.0, ValidationError(StopLossField, StopLossNotPositive));
    var c3 := Check(p.takeProfit <= 0.0, ValidationError(TakeProfitField, TakeProfitNotPositive));
    var c4 := Check(p.accountBalance <= 0.0, ValidationError(AccountBalanceField, AccountBalanceNotPositive));
    var c5 := Check(OutOfRange(p.riskPercentage, 100.0), ValidationError(RiskPercentageField, RiskPercentageOutOfRange));
    var c6 := Check(OutOfRange(p.leverage, 125.0), ValidationError(LeverageField, LeverageOutOfRange));
    var c7, c8 := StopFieldRule(p), TakeFieldRule(p);
    FailuresAppend([c1] + [c2] + [c3] + [c4] + [c5] + [c6] + [c7], [c8]);
    FailuresAppend([c1] + [c2] + [c3] + [c4] + [c5] + [c6], [c7]);
    FailuresAppend([c1] + [c2] + [c3] + [c4] + [c5], [c6]);
    FailuresAppend([c1] + [c2] + [c3] + [c4], [c5]);
    FailuresAppend([c1] + [c2] + [c3], [c4]);
    FailuresAppend([c1] + [c2], [c3]);
    FailuresAppend([c1], [c2]);
    FailuresSingle(c1);
    FailuresSingle(c2);
    FailuresSingle(c3);
    FailuresSingle(c4);
    FailuresSingle(c5);
    FailuresSingle(c6);
    FailuresSingle(c7);
    FailuresSingle(c8);
  }

  /** Each rule with its message tagged by the message's field. */
  function TagRules(rules: seq<Check<Message>>): (tagged: seq<Check<ValidationError>>)
    ensures |tagged| == |rules|
  {
    if rules == [] then [] else [Check(rules[0].fails, WithField(rules[0].error))] + TagRules(rules[1..])
  }

  /** The frontend's rules are the backend service's rules, in the same
      order, each message tagged with its field. */
  lemma FieldRulesAreBackendRules(p: TradingParameters)
    ensures FieldRules(p) == TagRules(RiskCalculationService.ValidationRules(p))
  {
    var c1 := Check(p.entryPrice <= 0.0, EntryPriceNotPositive);
    var c2 := Check(p.stopLoss <= 0.0, StopLossNotPositive);
    var c3 := Check(p.takeProfit <= 0.0, TakeProfitNotPositive);
    var c4 := Check(p.accountBalance <= 0.0, AccountBalanceNotPositive);
    var c5 := Check(OutOfRange(p.riskPercentage, 100.0), RiskPercentageOutOfRange);
    var c6 := Check(OutOfRange(p.leverage, 125.0), LeverageOutOfRange);
    var c7, c8 := RiskCalculationService.StopRule(p), RiskCalculationService.TakeRule(p);
    TagRulesAppend([c1] + [c2] + [c3] + [c4] + [c5] + [c6] + [c7], [c8]);
    TagRulesAppend([c1] + [c2] + [c3] + [c4] + [c5] + [c6], [c7]);
    TagRulesAppend([c1] + [c2] + [c3] + [c4] + [c5], [c6]);
    TagRulesAppend([c1] + [c2] + [c3] + [c4], [c5]);
    TagRulesAppend([c1] + [c2] + [c3], [c4]);
    TagRulesAppend([c1] + [c2], [c3]);
    TagRulesAppend([c1], [c2]);
    TagRulesSingle(c1);
    TagRulesSingle(c2);
    TagRulesSingle(c3);
    TagRulesSingle(c4);
    TagRulesSingle(c5);
    TagRulesSingle(c6);
    TagRulesSingle(c7);
    TagRulesSingle(c8);
    assert WithField(c7.error) == StopFieldRule(p).error;
    assert WithField(c8.error) == TakeFieldRule(p).error;
  }

  lemma TagRulesSingle(rule: Check<Message>)
    ensures TagRules([rule]) == [Check(rule.fails, WithField(rule.error))]
  {
    assert [rule][1..] == [];
  }

  lemma {:induction false} TagRulesAppend(a: seq<Check<Message>>, b: seq<Check<Message>>)
    ensures TagRules(a + b) == TagRules(a) + TagRules(b)
  {
    if a == [] {
      assert a + b == b;
    } else {
      assert (a + b)[1..] == a[1..] + b;
      TagRulesAppend(a[1..], b);
    }
  }

  /** Tagging the rules tags what they report. */
  lemma {:induction false} FailuresTagged(rules: seq<Check<Message>>)
    ensures Failures(TagRules(rules)) == Tag(Failures(rules))
  {
    if rules != [] {
      FailuresTagged(rules[1..]);
      assert TagRules(rules)[1..] == TagRules(rules[1..]);
      TagAppend(Reported(rules[0]), Failures(rules[1..]));
      if rules[0].fails {
        assert [rules[0].error][1..] == [];
      }
    }
  }

  /** The frontend validator reports the backend service's messages, in the
      same order, each with the field it is about. */
  lemma FrontendAgreesWithBackend(p: TradingParameters)
    ensures Failures(FieldRules(p)) == Tag(Failures(RiskCalculationService.ValidationRules(p)))
    ensures Untag(Failures(FieldRules(p))) == Failures(RiskCalculationService.ValidationRules(p))
    ensures Failures(FieldRules(p)) == [] <==> Failures(RiskCalculationService.ValidationRules(p)) == []
  {
    FieldRulesAreBackendRules(p);
    FailuresTagged(RiskCalculationService.ValidationRules(p));
    TagFaithful(Failures(RiskCalculationService.ValidationRules(p)));
  }

  /** Each message with its field, in order. */
  function Tag(messages: seq<Message>): (errors: seq<ValidationError>)
    ensures |errors| == |messages|
  {
    if messages == [] then [] else [WithField(messages[0])] + Tag(messages[1..])
  }

  /** Dropping the fields gives the messages back. */
  function Untag(errors: seq<ValidationError>): (messages: seq<Message>)
    ensures |messages| == |errors|
  {
    if errors == [] then [] else [errors[0].message] + Untag(errors[1..])
  }

  lemma {:induction false} TagAppend(a: seq<Message>, b: seq<Message>)
    ensures Tag(a + b) == Tag(a) + Tag(b)
  {
    if a == [] {
      assert a + b == b;
    } else {
      assert (a + b)[1..] == a[1..] + b;
      TagAppend(a[1..], b);
    }
  }

  /** Tagging loses nothing: every error points at the field of its
      message, and dropping the fields gives the messages back. */
  lemma {:induction false} TagFaithful(messages: seq<Message>)
    ensures Untag(Tag(messages)) == messages
    ensures forall i :: 0 <= i < |messages| ==> Tag(messages)[i].field == FieldOf(messages[i])
  {
    if messages != [] {
      TagFaithful(messages[1..]);
      assert Tag(messages)[1..] == Tag(messages[1..]);
    }
  }

  /** What JavaScript's `trim` removes: the ECMAScript white space and line
      terminator characters. */
  predicate IsWhitespace(c: char)
  {
    c == ' ' || c == '\t' || c == '\n' || c == '\r' || c == '\U{000B}' || c == '\U{000C}'
    || c == '\U{00A0}' || c == '\U{FEFF}' || c == '\U{1680}' || '\U{2000}' <= c <= '\U{200A}'
    || c == '\U{2028}' || c == '\U{2029}' || c == '\U{202F}' || c == '\U{205F}' || c == '\U{3000}'
  }

  /** A name that trims to nothing (the empty name included). */
  predicate Blank(name: string)
  {
    forall i :: 0 <= i < |name| ==> IsWhitespace(name[i])
  }

  /** JavaScript's `length`: the number of UTF-16 code units, so a
      character outside the Basic Multilingual Plane counts twice. */
  function Utf16Length(s: string): (n: nat)
    ensures |s| <= n <= 2 * |s|
    ensures n == |s| <==> forall i :: 0 <= i < |s| ==> s[i] < '\U{10000}'
    ensures n == 2 * |s| <==> forall i :: 0 <= i < |s| ==> s[i] >= '\U{10000}'
  {
    if s == [] then 0
    else
      assert forall i :: 1 <= i < |s| ==> s[i] == s[1..][i - 1];
      (if s[0] < '\U{10000}' then 1 else 2) + Utf16Length(s[1..])
  }

  /** Lengths add up over concatenation. */
  lemma {:induction false} Utf16LengthAppend(a: string, b: string)
    ensures Utf16Length(a + b) == Utf16Length(a) + Utf16Length(b)
  {
    if a == [] {
      assert a + b == b;
    } else {
      assert (a + b)[1..] == a[1..] + b;
      Utf16LengthAppend(a[1..], b);
    }
  }

  /** The two name rules: required, and at most 100 UTF-16 code units. */
  function NameRules(name: string): seq<Check<ValidationError>>
  {
    [Check(Blank(name), ValidationError(NameField, PlanNameRequired))]
    + [Check(Utf16Length(name) > 100, ValidationError(NameField, PlanNameTooLong))]
  }

  method ValidatePlanName(name: string) returns (errors: seq<ValidationError>)
    ensures errors == Failures(NameRules(name))
  {
    errors := [];
    errors := Report(errors, Check(Blank(name), ValidationError(NameField, PlanNameRequired)));
    errors := Report(errors, Check(Utf16Length(name) > 100, ValidationError(NameField, PlanNameTooLong)));
    FailuresAppend([Check(Blank(name), ValidationError(NameField, PlanNameRequired))],
                   [Check(Utf16Length(name) > 100, ValidationError(NameField, PlanNameTooLong))]);
    FailuresSingle(Check(Blank(name), ValidationError(NameField, PlanNameRequired)));
    FailuresSingle(Check(Utf16Length(name) > 100, ValidationError(NameField, PlanNameTooLong)));
  }

  /** A name is accepted exactly when it has a visible character and a
      length of at most 100 code units; a 101-space name gets both errors. */
  lemma NameAcceptance(name: string)
    ensures Failures(NameRules(name)) == [] <==> !Blank(name) && Utf16Length(name) <= 100
    ensures Blank(name) && Utf16Length(name) > 100
         ==> Failures(NameRules(name)) == [ValidationError(NameField, PlanNameRequired),
                                           ValidationError(NameField, PlanNameTooLong)]
  {
    var rules := NameRules(name);
    NoFailuresIffAllPass(rules);
    FailuresAppend([rules[0]], [rules[1]]);
    FailuresSingle(rules[0]);
    FailuresSingle(rules[1]);
  }

  /** Lines 64-72: an empty description is falsy and passes, so the only
      rule is the length cap. */
  method ValidatePlanDescription(description: string) returns (errors: seq<ValidationError>)
    ensures errors == (if Utf16Length(description) > 500 then [ValidationError(DescriptionField, DescriptionTooLong)] else [])
  {
    errors := [];
    if description != "" && Utf16Length(description) > 500 {
      errors := errors + [ValidationError(DescriptionField, DescriptionTooLong)];
    }
  }

  /** Fifty-one emoji are 102 code units: the name is visible but too long. */
  lemma EmojiNameTooLong()
    ensures Failures(NameRules(seq(51, _ => '\U{1F600}'))) == [ValidationError(NameField, PlanNameTooLong)]
  {
    var name: string := seq(51, _ => '\U{1F600}');
    assert Utf16Length(name) == 102;
    assert !Blank(name) by {
      assert !IsWhitespace(name[0]);
    }
    NameAcceptance(name);
    FailuresAppend([Check(Blank(name), ValidationError(NameField, PlanNameRequired))],
                   [Check(Utf16Length(name) > 100, ValidationError(NameField, PlanNameTooLong))]);
    FailuresSingle(Check(Blank(name), ValidationError(NameField, PlanNameRequired)));
    FailuresSingle(Check(Utf16Length(name) > 100, ValidationError(NameField, PlanNameTooLong)));
  }
}
