/**
  What the mutation path does in terms of the entity's own fields, the platform's replies and the action: which field
  a change writes and from which number, why a mutation or an execution fails, and what is recorded.
 */
module MutationAccount {
  import opened Wrappers
  import opened Reals
  import opened Rounding
  import opened Policy
  import opened PolicyRules
  import opened MetaWrite
  import opened AuditSink
  import opened Executor
  import Json
  import AuditLog

  // ---- One request ----

  predicate Transient(reply: Reply) { reply.Failed? && (reply.status == 429 || reply.status >= 500) }

  function Retries(env: Env): nat { if env.maxRetries > 0 then env.maxRetries else 0 }

  /**
    The calls of a request: all but the last fail transiently, the last decides what is reported, and it is a success,
    a failure that is not transient, or the call after `maxRetries` retries. The fields are written exactly when one
    of the calls succeeds or fails after it was carried out.
   */
  lemma {:induction false} RequestEnds(env: Env, p: Platform, request: Request, attempt: nat)
    requires attempt <= Retries(env)
    ensures var (next, error) := Requested(env, p, request, attempt);
      && next.calls > p.calls && attempt + (next.calls - p.calls) <= Retries(env) + 1
      && (forall k: nat :: p.calls <= k < next.calls - 1 ==> Transient(env.replies(k)))
      && (match env.replies(next.calls - 1)
          case Done => error == None
          case Failed(_, status) =>
            && error == Some(MetaApiError(status))
            && (Transient(env.replies(next.calls - 1)) ==> attempt + (next.calls - p.calls) == Retries(env) + 1))
    decreases Retries(env) - attempt
  {
    var reply := env.replies(p.calls);
    if Transient(reply) && attempt < env.maxRetries {
      RequestEnds(env, Answered(p, request, reply), request, attempt + 1);
    }
  }

  predicate TakesEffect(reply: Reply) { reply.Done? || (reply.Failed? && reply.carriedOut) }

  /** Which fields the request leaves on the platform. */
  lemma RequestWrites(env: Env, p: Platform, request: Request)
    ensures var next := Requested(env, p, request, 0).0;
      if request.Post? && exists k: nat :: p.calls <= k < next.calls && TakesEffect(env.replies(k)) then
        && request.id in next.entities
        && next.entities[request.id]
             == (if request.id in p.entities then p.entities[request.id] else map[]) + request.fields
        && (forall id :: id != request.id ==> (id in next.entities <==> id in p.entities))
        && (forall id :: id != request.id && id in p.entities ==> next.entities[id] == p.entities[id])
      else next.entities == p.entities
  {
    RequestIsAllOrNothing(env, p, request, 0);
    hide Requested;
    var next := Requested(env, p, request, 0).0;
    if k: nat :| p.calls <= k < next.calls && TakesEffect(env.replies(k)) {
      assert CarriedOut(env.replies(k));
    }
  }

  // ---- What a mutation writes ----

  predicate Has(entities: Entities, id: string, field: string) { id in entities && field in entities[id] }

  /** The entity runs on a lifetime budget, and only on that. */
  predicate OnLifetime(entities: Entities, id: string) {
    Has(entities, id, "lifetime_budget") && !Has(entities, id, "daily_budget")
  }

  /** The number in the entity's field, if there is one. */
  function NumberIn(env: Env, entities: Entities, id: string, field: string): Option<real> {
    if Has(entities, id, field) then env.number(entities[id][field]) else None
  }

  /** The field a budget change is about, and the number in it. */
  lemma BudgetIsPicked(env: Env, entities: Entities, id: string)
    ensures var which := PickBudgetField(env, Selected(FieldsOf(entities, id), BudgetNames()));
      && which.field == (if OnLifetime(entities, id) then "lifetime_budget" else "daily_budget")
      && which.kind == (if OnLifetime(entities, id) then "lifetime" else "daily")
      && which.current == NumberIn(env, entities, id, which.field)
  {
    assert "daily_budget" in BudgetNames() && "lifetime_budget" in BudgetNames() by {
      assert BUDGET_FIELDS[0] == "daily_budget" && BUDGET_FIELDS[1] == "lifetime_budget";
    }
    hide BudgetNames;
  }

  /** What a budget change asks of an entity: an amount, or a share of the number in the field it is about. */
  predicate Asks(env: Env, entities: Entities, id: string, change: BudgetChange, field: string, target: int) {
    match change
    case Absolute(value) => target as real - 0.5 <= value < target as real + 0.5
    case Percent(value) =>
      && NumberIn(env, entities, id, field).Some?
      && var current := NumberIn(env, entities, id, field).value;
         target as real - 0.5 <= current + Times(current, value) < target as real + 0.5
  }

  /**
    A budget change on an entity with a lifetime budget and no daily one is written to the lifetime budget, and on any
    other to the daily one: as the whole number nearest to the amount asked, or to the share asked of the number in
    that same field. The state reported names the kind of budget and the number.
   */
  lemma BudgetPlanWrites(env: Env, entities: Entities, action: Action)
    requires action.kind == UpdateBudget && PlanMutation(env, entities, action).Ok?
    ensures env.resolve(action).Some? && action.requested.Some?
    ensures var id, plan := env.resolve(action).value, PlanMutation(env, entities, action).value;
      && plan.id == id
      && plan.field == (if OnLifetime(entities, id) then "lifetime_budget" else "daily_budget")
      && exists target: int :: target >= 0 && plan.value == env.text(target)
                && Asks(env, entities, id, action.requested.value, plan.field, target)
                && plan.state == State(None, Some(target as real),
                                       Some(if OnLifetime(entities, id) then "lifetime" else "daily"))
  {
    var id, change := env.resolve(action).value, action.requested.value;
    BudgetIsPicked(env, entities, id);
    var which := PickBudgetField(env, Selected(FieldsOf(entities, id), BudgetNames()));
    var current := if which.current.Some? then which.current.value else 0.0;
    var target := Target(change, current);
    TargetIsNearest(change, current);
    hide Target, PickBudgetField, Selected, OnLifetime, NumberIn;
    assert Asks(env, entities, id, change, which.field, target);
  }

  /**
    Why a mutation has no plan: no target, an experiment, a budget change without a change, a share of a number that
    is not there, or a target that rounds below zero. All others have one.
   */
  lemma PlanFailsIff(env: Env, entities: Entities, action: Action)
    ensures var plan := PlanMutation(env, entities, action);
      && (plan == Err(UnresolvedTarget) <==> env.resolve(action).None?)
      && (plan == Err(UnsupportedMutation) <==> env.resolve(action).Some? && action.kind == CreateExperiment)
      && (plan == Err(MalformedChange) <==>
            env.resolve(action).Some? && action.kind == UpdateBudget && action.requested.None?)
      && (plan == Err(NoCurrentBudget) <==> BudgetFails(env, entities, action) && Missing(env, entities, action))
      && (plan == Err(NegativeTarget) <==> BudgetFails(env, entities, action) && !Missing(env, entities, action))
      && (plan.Err? ==> plan.error in {UnresolvedTarget, UnsupportedMutation, MalformedChange, NoCurrentBudget,
                                       NegativeTarget})
  {
    if env.resolve(action).Some? && action.kind == UpdateBudget && action.requested.Some? {
      var id, change := env.resolve(action).value, action.requested.value;
      BudgetIsPicked(env, entities, id);
      var which := PickBudgetField(env, Selected(FieldsOf(entities, id), BudgetNames()));
      var current := if which.current.Some? then which.current.value else 0.0;
      TargetIsNegativeIff(change, current);
      hide PickBudgetField, Selected, OnLifetime, NumberIn, Target;
    }
  }

  lemma TargetIsNegativeIff(change: BudgetChange, current: real)
    ensures Target(change, current) < 0
       <==> (if change.Absolute? then change.value else current + Times(current, change.value)) < -0.5
  {
    TargetIsNearest(change, current);
  }

  /** A share is asked of a number that is not there. */
  predicate Missing(env: Env, entities: Entities, action: Action)
    requires env.resolve(action).Some? && action.requested.Some?
  {
    var id := env.resolve(action).value;
    var field := if OnLifetime(entities, id) then "lifetime_budget" else "daily_budget";
    action.requested.value.Percent? && NumberIn(env, entities, id, field).None?
  }

  /** The budget change asks for a share of a number that is not there, or for less than -1/2. */
  predicate BudgetFails(env: Env, entities: Entities, action: Action) {
    && env.resolve(action).Some? && action.kind == UpdateBudget && action.requested.Some?
    && var id, change := env.resolve(action).value, action.requested.value;
       var field := if OnLifetime(entities, id) then "lifetime_budget" else "daily_budget";
       match change
       case Absolute(value) => value < -0.5
       case Percent(value) =>
         match NumberIn(env, entities, id, field)
         case None => true
         case Some(current) => current + Times(current, value) < -0.5
  }

  /** Pauses write the status "PAUSED" and activations "ACTIVE", of ads, ad sets and campaigns alike. */
  lemma StatusPlanWrites(env: Env, entities: Entities, action: Action)
    requires env.resolve(action).Some? && action.kind !in {UpdateBudget, CreateExperiment}
    ensures var id, paused := env.resolve(action).value, action.kind in {PauseAd, PauseAdset, PauseCampaign};
      PlanMutation(env, entities, action)
      == Ok(Plan(id, "status", if paused then "PAUSED" else "ACTIVE",
                 State(Some(if paused then "PAUSED" else "ACTIVE"), None, None)))
  {
  }

  /**
    Undoing writes the captured status; without one the captured number, rounded to the nearest whole number, to the
    lifetime budget if that is the kind captured and to the daily one otherwise; without either it fails.
   */
  lemma RevertPlanWrites(env: Env, pre: State, action: Action)
    ensures var plan := PlanRevert(env, pre, action);
      && (plan == Err(UnresolvedTarget) <==> env.resolve(action).None?)
      && (plan == Err(NothingToRestore) <==>
            env.resolve(action).Some? && pre.status.None? && pre.budgetMinor.None?)
      && (plan.Err? ==> plan.error in {UnresolvedTarget, NothingToRestore})
      && (plan.Ok? ==> env.resolve(action) == Some(plan.value.id) && plan.value.state == pre)
      && (plan.Ok? && pre.status.Some? ==> plan.value.field == "status" && plan.value.value == pre.status.value)
      && (plan.Ok? && pre.status.None? ==> pre.budgetMinor.Some? && WritesBudget(env, pre, plan.value))
  {
    if pre.budgetMinor.Some? {
      NearestInteger(pre.budgetMinor.value);
      TargetIsNearest(Absolute(pre.budgetMinor.value), 0.0);
    }
  }

  predicate WritesBudget(env: Env, pre: State, plan: Plan)
    requires pre.budgetMinor.Some?
  {
    var target := Target(Absolute(pre.budgetMinor.value), 0.0);
    && plan.field == (if pre.budgetType == Some("lifetime") then "lifetime_budget" else "daily_budget")
    && plan.value == env.text(target)
    && target as real - 0.5 <= pre.budgetMinor.value < target as real + 0.5
  }

  /** A budget change that is reported as done has changed that one budget and left the other as it was. */
  lemma BudgetChangeWrites(env: Env, p: Platform, action: Action, other: string)
    requires action.kind == UpdateBudget && Applied(env, p, action).1.Ok?
    requires env.resolve(action).Some?
    requires other != (if OnLifetime(p.entities, env.resolve(action).value) then "lifetime_budget" else "daily_budget")
    ensures PlanMutation(env, p.entities, action).Ok?
    ensures var id, after := env.resolve(action).value, Applied(env, p, action).0.entities;
      && Has(after, id, if OnLifetime(p.entities, id) then "lifetime_budget" else "daily_budget")
      && after[id][if OnLifetime(p.entities, id) then "lifetime_budget" else "daily_budget"]
           == PlanMutation(env, p.entities, action).value.value
      && (Has(after, id, other) <==> Has(p.entities, id, other))
      && (Has(after, id, other) ==> after[id][other] == p.entities[id][other])
  {
    AppliedEnds(env, p, action);
    BudgetPlanWrites(env, p.entities, action);
    CarryTouchesOneField(p.entities, PlanMutation(env, p.entities, action).value, env.resolve(action).value, other);
    hide Applied, PlanMutation, CarriesOut, WriteStart, InTime, OnLifetime;
  }

  // ---- Why a mutation fails ----

  /** The platform refused the last call with this status. */
  predicate LastCallFailed(env: Env, p: Platform, next: Platform, status: nat) {
    next.calls > p.calls && env.replies(next.calls - 1).Failed? && env.replies(next.calls - 1).status == status
  }

  /**
    A mutation that is not reported as done says why: the error of its plan, or the status of the last call. Without a
    target, a change or a supported kind nothing is called; a budget is read before its plan can fail.
   */
  lemma MutationFailure(env: Env, p: Platform, action: Action)
    requires Applied(env, p, action).1.Err?
    ensures var (next, r) := Applied(env, p, action);
      && (r.error.MetaApiError? ==> LastCallFailed(env, p, next, r.error.status))
      && (!r.error.MetaApiError? ==> PlanMutation(env, p.entities, action) == Err(r.error))
      && (r.error in {UnresolvedTarget, UnsupportedMutation, MalformedChange} ==> next == p)
      && (r.error in {NoCurrentBudget, NegativeTarget} ==>
            next.calls > p.calls && env.replies(next.calls - 1).Done? && next.entities == p.entities)
      && (PlanMutation(env, p.entities, action).Err?
          && PlanMutation(env, p.entities, action).error in {UnresolvedTarget, UnsupportedMutation, MalformedChange} ==>
            r.error == PlanMutation(env, p.entities, action).error)
  {
    if env.resolve(action).Some? {
      var id := env.resolve(action).value;
      RequestEnds(env, p, Get(id), 0);
      RequestIsAllOrNothing(env, p, Get(id), 0);
      PostFailure(env, p, PlanStatus(id, "PAUSED"));
      PostFailure(env, p, PlanStatus(id, "ACTIVE"));
      hide Requested, Posted, PlanBudget;
      var read := Requested(env, p, Get(id), 0).0;
      if action.requested.Some? {
        var plan := PlanBudget(env, Selected(FieldsOf(read.entities, id), BudgetNames()), id, action.requested.value);
        if plan.Ok? {
          PostFailure(env, read, plan.value);
        } else {
          BudgetPlanError(env, Selected(FieldsOf(read.entities, id), BudgetNames()), id, action.requested.value);
        }
      }
    }
  }

  lemma BudgetPlanError(env: Env, fields: MetaFields, id: string, change: BudgetChange)
    requires PlanBudget(env, fields, id, change).Err?
    ensures PlanBudget(env, fields, id, change).error in {NoCurrentBudget, NegativeTarget}
  {
  }

  lemma PostFailure(env: Env, p: Platform, plan: Plan)
    ensures var (next, r) := Posted(env, p, plan);
      && next.calls > p.calls
      && (r.Err? ==> r.error.MetaApiError? && LastCallFailed(env, p, next, r.error.status))
  {
    RequestEnds(env, p, Post(plan.id, map[plan.field := plan.value]), 0);
    hide Requested;
  }

  // ---- What an execution refuses and records ----

  /** The policy denied the action, or asked for an approval that has not been given. */
  predicate Barred(action: Action) {
    action.evaluation.decision == Deny || (action.evaluation.decision == NeedsApproval && action.status != Approved)
  }

  /**
    An execution is refused exactly when the action is barred, and then nothing happens; what is recorded was allowed,
    or approved. Otherwise it fails as its mutation does, or exactly when the sink refuses a finished one.
   */
  lemma ExecutionRefusesIff(env: Env, hash: Hash, w: World, action: Action, pre: State, call: Call)
    requires Sound(hash, w.sink)
    ensures var (next, r) := Executed(env, hash, w, action, pre, call);
      var applied := Applied(env, w.platform, action).1;
      && (r == Err(ExecutionRefused) <==> Barred(action))
      && (Barred(action) ==> next == w)
      && (r.Ok? ==> action.evaluation.decision == Allow
                    || (action.evaluation.decision == NeedsApproval && action.status == Approved))
      && (forall e :: r == Err(WriteFailed(e)) <==> !Barred(action) && applied == Err(e))
      && (r == Err(AuditRefused) <==> !Barred(action) && applied.Ok? && IsStale(hash, w.sink, call.traffic))
  {
    ExecutionEnds(env, hash, w, action, pre, call);
    AppliedEnds(env, w.platform, action);
    hide Applied, Appended, PlanMutation, CarriesOut, Carry, IsStale, Sound, SameKind, LogEnds, Log, InTime, WriteStart;
  }

  /** What an execution records: whose state was captured, what was asked, what came of it, and when. */
  lemma ExecutionRecords(env: Env, hash: Hash, w: World, action: Action, pre: State, call: Call)
    requires Executed(env, hash, w, action, pre, call).1.Ok?
    ensures var record := Executed(env, hash, w, action, pre, call).1.value;
      && record.id == call.newId && record.actionId == action.id && record.preState == pre
      && record.change == RequestedChange(action.requested) && record.executedAt == call.now
      && record.rollbackRef == None
      && PlanMutation(env, w.Entities(), action).Ok?
      && record.postState == Some(PlanMutation(env, w.Entities(), action).value.state)
  {
    ExecutionFacts(env, hash, w, action, pre, call, Executed(env, hash, w, action, pre, call).0,
                   Executed(env, hash, w, action, pre, call).1.value);
    hide Executed, PlanMutation, Carry;
  }

  /** What a rollback records: the step back between the two states of the record it undoes, naming that record. */
  lemma RollbackRecords(env: Env, hash: Hash, w: World, record: ActionRecord, action: Action, call: Call)
    requires Rolled(env, hash, w, record, action, call).1.Ok?
    ensures var undone := Rolled(env, hash, w, record, action, call).1.value;
      && undone.id == call.newId && undone.actionId == record.actionId
      && undone.preState == (if record.postState.Some? then record.postState.value else State(None, None, None))
      && undone.postState == Some(record.preState) && undone.change == RollbackOf(record.id)
      && undone.rollbackRef == Some(record.id) && undone.executedAt == call.now
  {
    hide Reverted, Appended;
  }

  /** A rollback fails as its write does, or exactly when the sink refuses a finished one. */
  lemma RollbackFailsIff(env: Env, hash: Hash, w: World, record: ActionRecord, action: Action, call: Call)
    requires Sound(hash, w.sink)
    ensures var r := Rolled(env, hash, w, record, action, call).1;
      var reverted := Reverted(env, w.platform, record.preState, action).1;
      && r != Err(ExecutionRefused)
      && (forall e :: r == Err(WriteFailed(e)) <==> reverted == Err(e))
      && (r == Err(AuditRefused) <==> reverted.Ok? && IsStale(hash, w.sink, call.traffic))
  {
    RollbackEnds(env, hash, w, record, action, call);
    RevertedEnds(env, w.platform, record.preState, action);
    hide Reverted, Appended, PlanRevert, UndoCarriesOut, Carry, IsStale, Sound, SameKind, LogEnds, Log, InTime;
  }

  // ---- What the audit log says of it ----

  predicate Said(e: AuditLog.AuditInput, action: Action, what: string, actionId: string, now: string) {
    && e.clientId == Some(action.clientId) && e.actor == "system:action-executor" && e.actorKind == AuditLog.System
    && e.action == what && e.subjectRef == "action:" + actionId && e.createdAt == now
  }

  /** The names of the kinds of action: the verb, and the same word for what is paused and what is activated. */
  lemma KindsAreNamed(kind: ActionType)
    ensures kind == UpdateBudget ==> ActionTypeText(kind) == "update_budget"
    ensures kind == CreateExperiment ==> ActionTypeText(kind) == "create_experiment"
    ensures kind in {PauseAd, PauseAdset, PauseCampaign} ==>
              "pause_" <= ActionTypeText(kind) && ActionTypeText(kind)[6..] == WordOf(kind)
    ensures kind in {ActivateAd, ActivateAdset, ActivateCampaign} ==>
              "activate_" <= ActionTypeText(kind) && ActionTypeText(kind)[9..] == WordOf(kind)
  {
  }

  function WordOf(kind: ActionType): string {
    match kind
    case PauseAd | ActivateAd => "ad"
    case PauseAdset | ActivateAdset => "adset"
    case PauseCampaign | ActivateCampaign => "campaign"
    case _ => ""
  }

  /** The last entry of the log after an execution says who did what to which action, and names the record. */
  lemma ExecutionIsLogged(
    env: Env, hash: Hash, w: World, action: Action, pre: State, call: Call, next: World, record: ActionRecord)
    requires Executed(env, hash, w, action, pre, call) == (next, Ok(record))
    requires Sound(hash, w.sink) && !w.sink.NoSink?
    ensures Log(next.sink) != []
    ensures var e := Log(next.sink)[|Log(next.sink)| - 1].input;
      && Said(e, action, "action.executed", action.id, record.executedAt)
      && e.payload == Json.Object([Json.Field("action_type", Json.String(ActionTypeText(action.kind))),
                                   Json.Field("record_id", Json.String(record.id))])
  {
    ExecutionAddsOne(env, hash, w, action, pre, call, next, record);
    hide Executed, ActionTypeText, Sound, Log;
  }

  /** The last entry of the log after a rollback names both records. */
  lemma RollbackIsLogged(
    env: Env, hash: Hash, w: World, record: ActionRecord, action: Action, call: Call, next: World, undone: ActionRecord)
    requires Rolled(env, hash, w, record, action, call) == (next, Ok(undone))
    requires Sound(hash, w.sink) && !w.sink.NoSink?
    ensures Log(next.sink) != []
    ensures var e := Log(next.sink)[|Log(next.sink)| - 1].input;
      && Said(e, action, "action.rolled_back", record.actionId, undone.executedAt)
      && e.payload == Json.Object([Json.Field("rolled_back_record", Json.String(record.id)),
                                   Json.Field("new_record", Json.String(undone.id))])
  {
    RollbackAddsOne(env, hash, w, record, action, call, next, undone);
    hide Rolled, Sound, Log;
  }
}
