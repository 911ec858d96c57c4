/** The backend plan entity (`TradingPlan`): an immutable record whose
    transitions return a new plan after a guard on the status. A guard that
    throws is a `Failure` carrying the thrown message; `now` stands for
    `new Date()`. */
module TradingPlanEntity {
  import opened Wrappers
  import opened TradingTypes

  datatype PlanStatus = Draft | Active | Executed | Cancelled

  /** The trading inputs and the calculations saved with a plan; no
      method of the entity changes them. */
  datatype PlanFigures = PlanFigures(
    entryPrice: real,
    stopLoss: real,
    takeProfit: real,
    leverage: real,
    positionType: PositionType,
    riskPercentage: real,
    accountBalance: real,
    liquidationPrice: real,
    positionSize: real,
    marginRequired: real,
    orderValue: real,
    potentialProfit: real,
    potentialLoss: real,
    riskRewardRatio: real,
    maxLossPercentage: real,
    riskLevel: RiskLevel,
    recommendations: seq<string>)

  datatype TradingPlan = TradingPlan(
    id: string,
    userId: string,
    name: string,
    description: Option<string>,
    status: PlanStatus,
    figures: PlanFigures,
    createdAt: Time,
    updatedAt: Time,
    executedAt: Option<Time>)

  /** The errors the guards throw. */
  datatype PlanError =
    | OnlyActiveExecutable
    | OnlyDraftActivatable
    | ExecutedNotCancellable
    | ExecutedNotUpdatable

  function ErrorText(e: PlanError): string
  {
    match e
    case OnlyActiveExecutable => "Only active plans can be executed"
    case OnlyDraftActivatable => "Only draft plans can be activated"
    case ExecutedNotCancellable => "Cannot cancel executed plans"
    case ExecutedNotUpdatable => "Cannot update executed plans"
  }

  /** A plan is executed exactly when it carries an execution time. */
  predicate Consistent(plan: TradingPlan)
  {
    plan.executedAt.Some? <==> plan.status == Executed
  }

  /** Lines 49-99: a fresh plan is a consistent draft, created and updated
      at `now`; an empty description is falsy and stored as none. */
  function Create(id: string, userId: string, name: string, description: Option<string>,
                  figures: PlanFigures, now: Time): (plan: TradingPlan)
    ensures plan.id == id && plan.userId == userId && plan.name == name && plan.figures == figures
    ensures plan.status == Draft && Consistent(plan)
    ensures plan.createdAt == now && plan.updatedAt == now
    ensures plan.description.Some? <==> description.Some? && description.value != ""
    ensures plan.description.Some? ==> plan.description == description
  {
    var stored := if description.Some? && description.value != "" then description else None;
    TradingPlan(id, userId, name, stored, Draft, figures, now, now, None)
  }

  /** Lines 101-133: everything but the status and the two times is kept. */
  function Execute(plan: TradingPlan, now: Time): (r: Result<TradingPlan, PlanError>)
    ensures r.Success? <==> plan.status == Active
    ensures r.Failure? ==> r.error == OnlyActiveExecutable
    ensures r.Success? ==> r.value.status == Executed && r.value.executedAt == Some(now)
                           && r.value.updatedAt == now
    ensures r.Success? ==> r.value == plan.(status := Executed, updatedAt := now, executedAt := Some(now))
  {
    if plan.status != Active then Failure(OnlyActiveExecutable)
    else Success(plan.(status := Executed, updatedAt := now, executedAt := Some(now)))
  }

  /** Lines 135-167: everything but the status and the two times is kept. */
  function Activate(plan: TradingPlan, now: Time): (r: Result<TradingPlan, PlanError>)
    ensures r.Success? <==> plan.status == Draft
    ensures r.Failure? ==> r.error == OnlyDraftActivatable
    ensures r.Success? ==> r.value.status == Active && r.value.executedAt == None && r.value.updatedAt == now
    ensures r.Success? ==> r.value == plan.(status := Active, updatedAt := now, executedAt := None)
  {
    if plan.status != Draft then Failure(OnlyDraftActivatable)
    else Success(plan.(status := Active, updatedAt := now, executedAt := None))
  }

  /** Lines 169-201: a draft, active or already cancelled plan can be
      cancelled. */
  function Cancel(plan: TradingPlan, now: Time): (r: Result<TradingPlan, PlanError>)
    ensures r.Success? <==> plan.status != Executed
    ensures r.Failure? ==> r.error == ExecutedNotCancellable
    ensures r.Success? ==> r.value.status == Cancelled && r.value.executedAt == None && r.value.updatedAt == now
    ensures r.Success? ==> r.value == plan.(status := Cancelled, updatedAt := now, executedAt := None)
  {
    if plan.status == Executed then Failure(ExecutedNotCancellable)
    else Success(plan.(status := Cancelled, updatedAt := now, executedAt := None))
  }

  /** Lines 203-235. */
  function UpdateName(plan: TradingPlan, name: string, now: Time): (r: Result<TradingPlan, PlanError>)
    ensures r.Success? <==> plan.status != Executed
    ensures r.Failure? ==> r.error == ExecutedNotUpdatable
    ensures r.Success? ==> r.value == plan.(name := name, updatedAt := now)
  {
    if plan.status == Executed then Failure(ExecutedNotUpdatable)
    else Success(plan.(name := name, updatedAt := now))
  }

  /** Lines 237-269. */
  function UpdateDescription(plan: TradingPlan, description: Option<string>, now: Time)
    : (r: Result<TradingPlan, PlanError>)
    ensures r.Success? <==> plan.status != Executed
    ensures r.Failure? ==> r.error == ExecutedNotUpdatable
    ensures r.Success? ==> r.value == plan.(description := description, updatedAt := now)
  {
    if plan.status == Executed then Failure(ExecutedNotUpdatable)
    else Success(plan.(description := description, updatedAt := now))
  }

  /** One call of a plan method. */
  datatype Operation =
    | ExecuteOp
    | ActivateOp
    | CancelOp
    | RenameOp(name: string)
    | DescribeOp(description: Option<string>)

  function Apply(plan: TradingPlan, op: Operation, now: Time): Result<TradingPlan, PlanError>
  {
    match op
    case ExecuteOp => Execute(plan, now)
    case ActivateOp => Activate(plan, now)
    case CancelOp => Cancel(plan, now)
    case RenameOp(name) => UpdateName(plan, name, now)
    case DescribeOp(description) => UpdateDescription(plan, description, now)
  }

  /** The status changes a successful call can make. */
  predicate Allowed(from: PlanStatus, to: PlanStatus)
  {
    from == to
    || (from == Draft && to == Active)
    || (from == Active && to == Executed)
    || (from != Executed && to == Cancelled)
  }

  /** What no call changes: identity, figures and creation time. */
  predicate SamePlan(a: TradingPlan, b: TradingPlan)
  {
    a.id == b.id && a.userId == b.userId && a.figures == b.figures && a.createdAt == b.createdAt
  }

  /** Every method keeps the plan consistent, changes the status only along
      an allowed edge, keeps identity and figures, and throws on an executed
      plan whatever it is asked. */
  lemma ApplyStep(plan: TradingPlan, op: Operation, now: Time)
    ensures plan.status == Executed ==> Apply(plan, op, now).Failure?
    ensures Apply(plan, op, now).Success? ==>
      var next := Apply(plan, op, now).value;
      SamePlan(plan, next) && Allowed(plan.status, next.status)
      && (Consistent(plan) ==> Consistent(next))
  {
  }

  /** A run of calls that stops at the first throw. */
  function Run(plan: TradingPlan, calls: seq<(Operation, Time)>): Result<TradingPlan, PlanError>
    decreases |calls|
  {
    if calls == [] then Success(plan)
    else
      match Apply(plan, calls[0].0, calls[0].1)
      case Failure(e) => Failure(e)
      case Success(next) => Run(next, calls[1..])
  }

  /** The statuses a run of calls can lead to: a draft can end anywhere,
      an active plan can only be executed or cancelled, and executed and
      cancelled plans keep their status. */
  predicate Reachable(from: PlanStatus, to: PlanStatus)
  {
    match from
    case Draft => true
    case Active => to != Draft
    case Executed => to == Executed
    case Cancelled => to == Cancelled
  }

  /** One allowed edge followed by a reachable status is reachable. */
  lemma AllowedThenReachable(a: PlanStatus, b: PlanStatus, c: PlanStatus)
    requires Allowed(a, b) && Reachable(b, c)
    ensures Reachable(a, c)
  {
  }

  /** Every plan reached from a consistent one by successful calls is
      consistent, is the same plan, and has a status reachable from the
      first; from an executed plan nothing succeeds. */
  lemma {:induction false} RunKeepsConsistent(plan: TradingPlan, calls: seq<(Operation, Time)>)
    requires Consistent(plan)
    ensures Run(plan, calls).Success? ==>
      var last := Run(plan, calls).value;
      Consistent(last) && SamePlan(plan, last) && Reachable(plan.status, last.status)
    ensures plan.status == Executed && calls != [] ==> Run(plan, calls).Failure?
    decreases |calls|
  {
    if calls != [] {
      var (op, now) := calls[0];
      ApplyStep(plan, op, now);
      var step := Apply(plan, op, now);
      if step.Success? {
        RunKeepsConsistent(step.value, calls[1..]);
        if Run(plan, calls).Success? {
          AllowedThenReachable(plan.status, step.value.status, Run(plan, calls).value.status);
        }
      }
    }
  }

  /** Every plan the entity can hand out, from `create` on, carries an
      execution time exactly when it is executed. */
  lemma CreatedPlansStayConsistent(id: string, userId: string, name: string, description: Option<string>,
                                   figures: PlanFigures, now: Time, calls: seq<(Operation, Time)>)
    ensures var plan := Create(id, userId, name, description, figures, now);
      Run(plan, calls).Success? ==> Consistent(Run(plan, calls).value)
  {
    RunKeepsConsistent(Create(id, userId, name, description, figures, now), calls);
  }
}
