/** The status use case (`UpdatePlanStatusUseCase`) over a repository of
    plans held as a map from plan id to plan. Every failure is a response
    with `success: false` and leaves the repository as it was. */
module UpdatePlanStatus {
  import opened Wrappers
  import opened TradingTypes
  import opened TradingPlanEntity
  import TradingValidation

  /** The `data` of a successful response. */
  datatype StatusData = StatusData(id: string, status: PlanStatus, updatedAt: Time, executedAt: Option<Time>)

  /** Lines 29-44: the entity method the requested status selects, with a
      thrown error turned into its message; a draft cannot be requested. */
  function Dispatch(plan: TradingPlan, requested: PlanStatus, now: Time): (r: Result<TradingPlan, string>)
    ensures r.Success? <==>
      (requested == Active && plan.status == Draft)
      || (requested == Executed && plan.status == Active)
      || (requested == Cancelled && plan.status != Executed)
    ensures requested == Draft ==> r == Failure("Invalid status transition")
    ensures r.Success? ==> r.value.status == requested && r.value.updatedAt == now
                           && SamePlan(plan, r.value) && Allowed(plan.status, requested)
                           && (Consistent(plan) ==> Consistent(r.value))
  {
    var thrown := match requested
      case Active => Activate(plan, now)
      case Executed => Execute(plan, now)
      case Cancelled => Cancel(plan, now)
      case Draft => Failure(OnlyDraftActivatable);
    if requested == Draft then Failure("Invalid status transition")
    else if thrown.Failure? then Failure(ErrorText(thrown.error))
    else Success(thrown.value)
  }

  /** The message of a refused transition is the entity's guard message
      for the requested status. */
  lemma RefusalMessages(plan: TradingPlan, requested: PlanStatus, now: Time)
    ensures requested == Active && plan.status != Draft ==>
      Dispatch(plan, requested, now) == Failure("Only draft plans can be activated")
    ensures requested == Executed && plan.status != Active ==>
      Dispatch(plan, requested, now) == Failure("Only active plans can be executed")
    ensures requested == Cancelled && plan.status == Executed ==>
      Dispatch(plan, requested, now) == Failure("Cannot cancel executed plans")
  {
  }

  class UpdatePlanStatusUseCase {
    /** The repository: each plan filed under its own id. */
    var plans: map<string, TradingPlan>

    /** Every stored plan sits under its id and is consistent. */
    predicate Valid()
      reads this
    {
      forall id :: id in plans ==> plans[id].id == id && Consistent(plans[id])
    }

    constructor(stored: map<string, TradingPlan>)
      requires forall id :: id in stored ==> stored[id].id == id && Consistent(stored[id])
      ensures Valid() && plans == stored
    {
      plans := stored;
    }

    /** Lines 8-64: a blank id, a missing plan, a draft request and a
        refused transition fail with the repository untouched; otherwise
        the transitioned plan replaces the stored one and is reported. */
    method Execute(id: string, requested: PlanStatus, now: Time) returns (r: Result<StatusData, string>)
      requires Valid()
      modifies this
      ensures Valid()
      ensures r.Failure? ==> plans == old(plans)
      ensures TradingValidation.Blank(id) ==> r == Failure("Plan ID is required")
      ensures !TradingValidation.Blank(id) && id !in old(plans) ==> r == Failure("Trading plan not found")
      ensures !TradingValidation.Blank(id) && id in old(plans) ==>
        var outcome := Dispatch(old(plans)[id], requested, now);
        if outcome.Failure? then r == Failure(outcome.error)
        else
          plans == old(plans)[id := outcome.value]
          && r == Success(StatusData(id, requested, now, outcome.value.executedAt))
    {
      if TradingValidation.Blank(id) {
        return Failure("Plan ID is required");
      }
      if id !in plans {
        return Failure("Trading plan not found");
      }
      var existingPlan := plans[id];
      var outcome := Dispatch(existingPlan, requested, now);
      if outcome.Failure? {
        return Failure(outcome.error);
      }
      var updatedPlan := outcome.value;
      plans := plans[updatedPlan.id := updatedPlan];
      var savedPlan := updatedPlan;
      r := Success(StatusData(savedPlan.id, savedPlan.status, savedPlan.updatedAt, savedPlan.executedAt));
    }
  }
}
