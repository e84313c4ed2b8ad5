/**
  The action executor (services/action-executor/src/executor.ts): the one component that mutates the platform,
  with its audit entries and its rollback.
 */
module Executor {
  import opened Wrappers
  import opened Rounding
  import opened Policy
  import opened MetaWrite
  import opened AuditSink
  import Json
  import AuditLog

  datatype ExecutedChange = RequestedChange(change: Option<BudgetChange>) | RollbackOf(recordId: string)

  datatype ActionRecord = ActionRecord(
    id: string, actionId: string, preState: State, change: ExecutedChange, postState: Option<State>,
    executedAt: string, rollbackRef: Option<string>)

  /** `AuditRefused` is what the audit sink's append throws. */
  datatype ExecuteError = ExecutionRefused | WriteFailed(error: WriteError) | AuditRefused

  /** Neither a denied action nor one that still needs approval is executable. */
  predicate Executable(action: Action) {
    && action.evaluation.decision != Deny
    && (action.evaluation.decision == NeedsApproval ==> action.status == Approved)
  }

  function ActionTypeText(kind: ActionType): string {
    match kind
    case UpdateBudget => "update_budget"
    case PauseAd => "pause_ad"
    case PauseAdset => "pause_adset"
    case PauseCampaign => "pause_campaign"
    case ActivateAd => "activate_ad"
    case ActivateAdset => "activate_adset"
    case ActivateCampaign => "activate_campaign"
    case CreateExperiment => "create_experiment"
  }

  function ExecutorEntry(clientId: string, what: string, actionId: string, payload: Json.Json, now: string)
    : AuditLog.AuditInput
  {
    AuditLog.AuditInput(
      Some(clientId), "system:action-executor", AuditLog.System, what, "action:" + actionId, payload, now)
  }

  function ExecutedEntry(action: Action, record: ActionRecord): AuditLog.AuditInput {
    ExecutorEntry(
      action.clientId, "action.executed", action.id,
      Json.Object([Json.Field("action_type", Json.String(ActionTypeText(action.kind))),
                   Json.Field("record_id", Json.String(record.id))]),
      record.executedAt)
  }

  function RolledBackEntry(action: Action, record: ActionRecord, reverted: ActionRecord): AuditLog.AuditInput {
    ExecutorEntry(
      action.clientId, "action.rolled_back", record.actionId,
      Json.Object([Json.Field("rolled_back_record", Json.String(record.id)),
                   Json.Field("new_record", Json.String(reverted.id))]),
      reverted.executedAt)
  }

  const NO_STATE := State(None, None, None)

  function StateOf(s: Option<State>): State { if s.Some? then s.value else NO_STATE }

  /** The platform and the audit sink. */
  datatype World = World(platform: Platform, sink: Sink)
  {
    function Entities(): MetaWrite.Entities { platform.entities }
  }

  /** What one step is given: a fresh id, the time, and what goes on around its audit append. */
  datatype Call = Call(newId: string, now: string, traffic: Traffic)

  function ExecutionRecord(action: Action, pre: State, post: State, call: Call): ActionRecord {
    ActionRecord(call.newId, action.id, pre, RequestedChange(action.requested), Some(post), call.now, None)
  }

  function RollbackRecord(record: ActionRecord, call: Call): ActionRecord {
    ActionRecord(call.newId, record.actionId, StateOf(record.postState), RollbackOf(record.id), Some(record.preState),
                 call.now, Some(record.id))
  }

  /** The step's end: its entry goes to the sink, and if that refuses it there is no record either. */
  function Recorded(
    hash: Hash, platform: Platform, sink: Sink, call: Call, entry: AuditLog.AuditInput, record: ActionRecord)
    : (World, Result<ActionRecord, ExecuteError>)
  {
    var (after, taken) := Appended(hash, sink, call.traffic, entry);
    (World(platform, after), if taken then Ok(record) else Err(AuditRefused))
  }

  /** An execution with the captured state `pre`. */
  function Executed(env: Env, hash: Hash, w: World, action: Action, pre: State, call: Call)
    : (World, Result<ActionRecord, ExecuteError>)
  {
    if !Executable(action) then (w, Err(ExecutionRefused))
    else
      var (next, applied) := Applied(env, w.platform, action);
      match applied
      case Err(e) => (World(next, w.sink), Err(WriteFailed(e)))
      case Ok(post) =>
        var record := ExecutionRecord(action, pre, post, call);
        Recorded(hash, next, w.sink, call, ExecutedEntry(action, record), record)
  }

  function Rolled(env: Env, hash: Hash, w: World, record: ActionRecord, action: Action, call: Call)
    : (World, Result<ActionRecord, ExecuteError>)
  {
    var (next, reverted) := Reverted(env, w.platform, record.preState, action);
    match reverted
    case Err(e) => (World(next, w.sink), Err(WriteFailed(e)))
    case Ok(_) =>
      var undone := RollbackRecord(record, call);
      Recorded(hash, next, w.sink, call, RolledBackEntry(action, record, undone), undone)
  }

  class ActionExecutor {
    const connector: MetaWriteConnector
    const auditor: Auditor
    const capturePreState: (Entities, Action) -> State

    constructor (connector: MetaWriteConnector, auditor: Auditor, capturePreState: (Entities, Action) -> State)
      ensures this.connector == connector && this.auditor == auditor && this.capturePreState == capturePreState
    {
      this.connector, this.auditor, this.capturePreState := connector, auditor, capturePreState;
    }

    ghost function Now(): World
      reads connector.source, auditor
    {
      World(connector.source.platform, auditor.sink)
    }

    method Execute(action: Action, call: Call) returns (r: Result<ActionRecord, ExecuteError>)
      modifies connector.source, auditor
      ensures (Now(), r) == Executed(connector.source.env, auditor.hash, old(Now()), action,
                                     capturePreState(old(connector.source.platform.entities), action), call)
    {
      if action.evaluation.decision == Deny { return Err(ExecutionRefused); }
      if action.evaluation.decision == NeedsApproval && action.status != Approved { return Err(ExecutionRefused); }
      var pre := capturePreState(connector.source.platform.entities, action);
      hide Applied, Appended;
      var applied := connector.ApplyMutation(action);
      if applied.Err? { return Err(WriteFailed(applied.error)); }
      var record := ActionRecord(call.newId, action.id, pre, RequestedChange(action.requested), Some(applied.value),
                                 call.now, None);
      var taken := auditor.Append(ExecutedEntry(action, record), call.traffic);
      r := if taken then Ok(record) else Err(AuditRefused);
    }

    method Rollback(record: ActionRecord, action: Action, call: Call) returns (r: Result<ActionRecord, ExecuteError>)
      modifies connector.source, auditor
      ensures (Now(), r) == Rolled(connector.source.env, auditor.hash, old(Now()), record, action, call)
    {
      hide Reverted, Appended;
      var reverted := connector.Revert(record.preState, action);
      if reverted.Err? { return Err(WriteFailed(reverted.error)); }
      var undone := ActionRecord(call.newId, record.actionId, StateOf(record.postState), RollbackOf(record.id),
                                 Some(record.preState), call.now, Some(record.id));
      var taken := auditor.Append(RolledBackEntry(action, record, undone), call.traffic);
      r := if taken then Ok(undone) else Err(AuditRefused);
    }
  }

  // ---- Every end of a step ----

  /** The mutation's plan, if it has one, is reported as done. */
  ghost predicate ReportsDone(env: Env, p: Platform, action: Action) {
    WriteStart(env, p, action).Some? && InTime(env, WriteStart(env, p, action).value.calls)
  }

  /** The log after a step: with the entry when there is a record, untouched by the step when there is none. */
  ghost predicate LogEnds(
    hash: Hash, w: World, next: World, call: Call, entry: AuditLog.AuditInput, wrote: bool, recorded: bool)
  {
    if wrote then Gains(hash, Awaiting(hash, w.sink, call.traffic, entry), next.sink, entry, recorded)
    else next.sink == w.sink
  }

  /**
    Every end of an execution. The entity is changed exactly when the action is executable and its write is
    carried out; there is a record, and with a sink an audit entry, exactly when the action is executable, the
    write is reported as done and the sink's tip is not stale. The log stays one sound chain in any case.
   */
  lemma ExecutionEnds(env: Env, hash: Hash, w: World, action: Action, pre: State, call: Call)
    requires Sound(hash, w.sink)
    ensures var (next, r) := Executed(env, hash, w, action, pre, call);
      var plan := PlanMutation(env, w.Entities(), action);
      var wrote := Executable(action) && ReportsDone(env, w.platform, action);
      && (CarriesOut(env, w.platform, action) || wrote ==> plan.Ok?)
      && next.Entities() == (if Executable(action) && CarriesOut(env, w.platform, action)
                             then Carry(w.Entities(), plan.value) else w.Entities())
      && (r.Ok? <==> wrote && !IsStale(hash, w.sink, call.traffic))
      && (r.Ok? ==> r.value == ExecutionRecord(action, pre, plan.value.state, call)
                    && CarriesOut(env, w.platform, action))
      && (wrote ==> LogEnds(hash, w, next, call,
                            ExecutedEntry(action, ExecutionRecord(action, pre, plan.value.state, call)), true, r.Ok?))
      && (!wrote ==> next.sink == w.sink)
      && Sound(hash, next.sink) && SameKind(w.sink, next.sink) && Log(w.sink) <= Log(next.sink)
  {
    hide Applied, Appended, PlanMutation, CarriesOut, Carry, IsStale, Sound, SameKind, Awaiting, Log;
    hide WriteStart, InTime;
    AppliedEnds(env, w.platform, action);
    SinkStays(hash, w.sink);
    if Executable(action) && ReportsDone(env, w.platform, action) {
      var plan := PlanMutation(env, w.Entities(), action).value;
      AppendedGrows(hash, w.sink, call.traffic, ExecutedEntry(action, ExecutionRecord(action, pre, plan.state, call)));
    }
  }

  lemma SinkStays(hash: Hash, sink: Sink)
    ensures SameKind(sink, sink) && Log(sink) <= Log(sink)
  {
  }

  lemma AppendedGrows(hash: Hash, sink: Sink, traffic: Traffic, entry: AuditLog.AuditInput)
    requires Sound(hash, sink)
    ensures var (after, taken) := Appended(hash, sink, traffic, entry);
      && Sound(hash, after) && SameKind(sink, after) && Log(sink) <= Log(after)
      && (taken <==> !IsStale(hash, sink, traffic))
      && Gains(hash, Awaiting(hash, sink, traffic, entry), after, entry, taken)
  {
    hide Appended, Sound, SameKind, IsStale, Awaiting;
    AppendedEnds(hash, sink, traffic, entry);
  }

  /** Every end of a rollback, in the same terms. */
  lemma RollbackEnds(env: Env, hash: Hash, w: World, record: ActionRecord, action: Action, call: Call)
    requires Sound(hash, w.sink)
    ensures var (next, r) := Rolled(env, hash, w, record, action, call);
      var plan := PlanRevert(env, record.preState, action);
      var wrote := plan.Ok? && InTime(env, w.platform.calls);
      var reached := UndoCarriesOut(env, w.platform, record.preState, action);
      && (reached ==> plan.Ok?)
      && next.Entities() == (if reached then Carry(w.Entities(), plan.value) else w.Entities())
      && (r.Ok? <==> wrote && !IsStale(hash, w.sink, call.traffic))
      && (r.Ok? ==> r.value == RollbackRecord(record, call) && reached)
      && LogEnds(hash, w, next, call, RolledBackEntry(action, record, RollbackRecord(record, call)), wrote, r.Ok?)
      && Sound(hash, next.sink) && SameKind(w.sink, next.sink) && Log(w.sink) <= Log(next.sink)
  {
    hide Reverted, Appended, PlanRevert, UndoCarriesOut, Carry, IsStale, Sound, SameKind, Awaiting, Log, InTime;
    RevertedEnds(env, w.platform, record.preState, action);
    SinkStays(hash, w.sink);
    AppendedGrows(hash, w.sink, call.traffic, RolledBackEntry(action, record, RollbackRecord(record, call)));
  }

  lemma AnsweredInTime(env: Env, calls: nat)
    requires forall n: nat :: env.replies(n).Done?
    ensures InTime(env, calls)
  {
    assert SucceedsAt(env, calls, 0, calls);
  }

  /** On a platform that always answers: exactly when the action is executable, has a plan, and the tip is not stale. */
  lemma AnsweredExecutionSucceeds(env: Env, hash: Hash, w: World, action: Action, pre: State, call: Call)
    requires Sound(hash, w.sink) && forall n: nat :: env.replies(n).Done?
    ensures Executed(env, hash, w, action, pre, call).1.Ok?
       <==> && Executable(action) && PlanMutation(env, w.Entities(), action).Ok?
            && !IsStale(hash, w.sink, call.traffic)
  {
    hide Executed, PlanMutation, Sound, IsStale, LogEnds, SameKind, Log, CarriesOut, Carry, WriteStart;
    ExecutionEnds(env, hash, w, action, pre, call);
    AnsweredReport(env, w.platform, action);
  }

  lemma AnsweredReport(env: Env, p: Platform, action: Action)
    requires forall n: nat :: env.replies(n).Done?
    ensures ReportsDone(env, p, action) <==> PlanMutation(env, p.entities, action).Ok?
  {
    hide PlanMutation, InTime, WriteStart, Applied, Posted;
    AppliedIsPosted(env, p, action);
    AnsweredInTime(env, p.calls);
    if WriteStart(env, p, action).Some? { AnsweredInTime(env, WriteStart(env, p, action).value.calls); }
  }

  /**
    The untidy ends, all of them: an execution changes the entity and yet ends without record and audit entry
    exactly when its write, which was not idle, was carried out and then either reported as failed or refused by
    the audit sink.
   */
  lemma UntracedChangeIff(env: Env, hash: Hash, w: World, action: Action, pre: State, call: Call)
    requires Sound(hash, w.sink)
    ensures var (next, r) := Executed(env, hash, w, action, pre, call);
      next.Entities() != w.Entities() && r.Err?
      <==> && Executable(action) && CarriesOut(env, w.platform, action)
           && !Holds(w.Entities(), PlanMutation(env, w.Entities(), action).value)
           && (!ReportsDone(env, w.platform, action) || IsStale(hash, w.sink, call.traffic))
  {
    hide Executed, PlanMutation, ReportsDone, IsStale, Sound, Holds, Carry, LogEnds, Log, SameKind;
    hide WriteStart, Delivers;
    ExecutionEnds(env, hash, w, action, pre, call);
    var (next, r) := Executed(env, hash, w, action, pre, call);
    assert r.Err? <==>
           !(Executable(action) && ReportsDone(env, w.platform, action) && !IsStale(hash, w.sink, call.traffic));
    if CarriesOut(env, w.platform, action) && Executable(action) {
      CarryIsNothingIff(w.Entities(), PlanMutation(env, w.Entities(), action).value);
      assert next.Entities() == w.Entities() <==> Holds(w.Entities(), PlanMutation(env, w.Entities(), action).value);
    } else {
      assert next.Entities() == w.Entities();
    }
  }

  /** Such an end leaves no entry: the log holds what others wrote, and nothing of this step. */
  lemma FailureLeavesNoTrace(env: Env, hash: Hash, w: World, action: Action, pre: State, call: Call)
    requires Sound(hash, w.sink) && Executed(env, hash, w, action, pre, call).1.Err?
    ensures var next := Executed(env, hash, w, action, pre, call).0;
      && (!Executable(action) ==> next == w)
      && (if Executed(env, hash, w, action, pre, call).1.error.AuditRefused?
          then w.sink.Postgres? && Log(next.sink)
                 == Log(Moved(hash, Moved(hash, w.sink, call.traffic.before), Others([], call.traffic.between)))
          else next.sink == w.sink)
  {
    hide Applied, PlanMutation, Moved, Sound;
    if Executable(action) && Applied(env, w.platform, action).1.Ok? {
      var post := Applied(env, w.platform, action).1.value;
      var entry := ExecutedEntry(action, ExecutionRecord(action, pre, post, call));
      AppendedEnds(hash, w.sink, call.traffic, entry);
      AwaitingLog(hash, w.sink, call.traffic, entry);
    }
  }

  // ---- Execute, roll back, roll back the rollback ----

  /** Between two steps: other calls have been answered and others have written to the log. */
  datatype Pause = Pause(calls: nat, others: Others)

  function Elapsed(hash: Hash, w: World, pause: Pause): World {
    World(Platform(w.Entities(), pause.calls), Moved(hash, w.sink, pause.others))
  }

  /** An executed action, its rollback, and the rollback of that. */
  datatype Trip = Trip(
    action: Action, pre: State, w0: World, w1: World, w2: World, w3: World,
    record: ActionRecord, undone: ActionRecord, redone: ActionRecord,
    call1: Call, call2: Call, call3: Call, pause1: Pause, pause2: Pause)

  predicate RolledBackOnce(env: Env, hash: Hash, t: Trip) {
    && Executed(env, hash, t.w0, t.action, t.pre, t.call1) == (t.w1, Ok(t.record))
    && Rolled(env, hash, Elapsed(hash, t.w1, t.pause1), t.record, t.action, t.call2) == (t.w2, Ok(t.undone))
  }

  predicate RolledBackTwice(env: Env, hash: Hash, t: Trip) {
    && RolledBackOnce(env, hash, t)
    && Rolled(env, hash, Elapsed(hash, t.w2, t.pause2), t.undone, t.action, t.call3) == (t.w3, Ok(t.redone))
  }

  lemma ExecutionFacts(
    env: Env, hash: Hash, w: World, action: Action, pre: State, call: Call, w1: World, record: ActionRecord)
    requires Executed(env, hash, w, action, pre, call) == (w1, Ok(record))
    ensures var plan := PlanMutation(env, w.Entities(), action);
      && Executable(action) && plan.Ok? && w1.Entities() == Carry(w.Entities(), plan.value)
      && record == ExecutionRecord(action, pre, plan.value.state, call)
  {
    AppliedEnds(env, w.platform, action);
    hide Applied, PlanMutation, Carry, Appended;
  }

  lemma RollbackFacts(
    env: Env, hash: Hash, w: World, record: ActionRecord, action: Action, call: Call, w1: World, undone: ActionRecord)
    requires Rolled(env, hash, w, record, action, call) == (w1, Ok(undone))
    ensures var plan := PlanRevert(env, record.preState, action);
      plan.Ok? && w1.Entities() == Carry(w.Entities(), plan.value) && undone == RollbackRecord(record, call)
  {
    RevertedEnds(env, w.platform, record.preState, action);
    hide Reverted, PlanRevert, Carry, Appended;
  }

  /** What a caller can check before executing: undoing would write what is there, in the field to be changed. */
  predicate Restorable(env: Env, entities: Entities, action: Action, pre: State) {
    var plan, undo := PlanMutation(env, entities, action), PlanRevert(env, pre, action);
    plan.Ok? && undo.Ok? && Holds(entities, undo.value)
    && (undo.value.field == plan.value.field || Holds(entities, plan.value))
  }

  lemma PlansShareEntity(env: Env, entities: Entities, action: Action, pre: State)
    requires PlanMutation(env, entities, action).Ok? && PlanRevert(env, pre, action).Ok?
    ensures PlanMutation(env, entities, action).value.id == PlanRevert(env, pre, action).value.id
  {
  }

  /**
    A rollback that succeeds after an execution that succeeded brings every entity back to its state before
    the execution exactly when the captured state was restorable, however the platform failed in between.
   */
  lemma RollbackRestoresIff(env: Env, hash: Hash, t: Trip)
    requires RolledBackOnce(env, hash, t)
    ensures t.w2.Entities() == t.w0.Entities() <==> Restorable(env, t.w0.Entities(), t.action, t.pre)
  {
    hide Executed, Rolled, PlanMutation, PlanRevert, Holds, Carry, Moved;
    ExecutionFacts(env, hash, t.w0, t.action, t.pre, t.call1, t.w1, t.record);
    RollbackFacts(env, hash, Elapsed(hash, t.w1, t.pause1), t.record, t.action, t.call2, t.w2, t.undone);
    PlansShareEntity(env, t.w0.Entities(), t.action, t.pre);
    UndoRestoresIff(t.w0.Entities(), PlanMutation(env, t.w0.Entities(), t.action).value,
                    PlanRevert(env, t.pre, t.action).value);
  }

  /** Undoing a plan from the state it reported writes the same field and value again. */
  lemma RedoIsPlan(env: Env, entities: Entities, action: Action)
    requires PlanMutation(env, entities, action).Ok?
    ensures var plan, redo := PlanMutation(env, entities, action).value,
                              PlanRevert(env, PlanMutation(env, entities, action).value.state, action);
      redo.Ok? && redo.value.id == plan.id && redo.value.field == plan.field && redo.value.value == plan.value
  {
    var plan := PlanMutation(env, entities, action).value;
    if CategoryOf(action.kind).BudgetCategory? {
      var id := env.resolve(action).value;
      BudgetRedo(env, Selected(FieldsOf(entities, id), BudgetNames()), id, action.requested.value);
    }
  }

  lemma BudgetRedo(env: Env, fields: MetaFields, id: string, change: BudgetChange)
    requires PlanBudget(env, fields, id, change).Ok?
    ensures var plan := PlanBudget(env, fields, id, change).value;
      && plan.id == id && plan.state.status.None? && plan.state.budgetMinor.Some?
      && plan.field == BudgetField(plan.state.budgetType)
      && plan.value == env.text(Round(plan.state.budgetMinor.value))
  {
    var which := PickBudgetField(env, fields);
    RoundOfInteger(Target(change, if which.current.Some? then which.current.value else 0.0));
  }

  lemma CarriedHolds(entities: Entities, plan: Plan, again: Plan)
    requires again.id == plan.id && again.field == plan.field && again.value == plan.value
    ensures Holds(Carry(entities, plan), again)
  {
  }

  /**
    Rolling back the rollback returns to the state after the execution, exactly when the first rollback wrote
    the executed field or had changed nothing.
   */
  lemma RollbackOfRollbackIff(env: Env, hash: Hash, t: Trip)
    requires RolledBackTwice(env, hash, t)
    ensures PlanMutation(env, t.w0.Entities(), t.action).Ok? && PlanRevert(env, t.pre, t.action).Ok?
    ensures var plan := PlanMutation(env, t.w0.Entities(), t.action).value;
      var undo := PlanRevert(env, t.pre, t.action).value;
      t.w3.Entities() == t.w1.Entities() <==> plan.field == undo.field || Holds(t.w1.Entities(), undo)
  {
    hide Executed, Rolled, PlanMutation, PlanRevert, Holds, Carry, Moved;
    ExecutionFacts(env, hash, t.w0, t.action, t.pre, t.call1, t.w1, t.record);
    RollbackFacts(env, hash, Elapsed(hash, t.w1, t.pause1), t.record, t.action, t.call2, t.w2, t.undone);
    RollbackFacts(env, hash, Elapsed(hash, t.w2, t.pause2), t.undone, t.action, t.call3, t.w3, t.redone);
    var plan, undo := PlanMutation(env, t.w0.Entities(), t.action).value, PlanRevert(env, t.pre, t.action).value;
    PlansShareEntity(env, t.w0.Entities(), t.action, t.pre);
    RedoIsPlan(env, t.w0.Entities(), t.action);
    var redo := PlanRevert(env, plan.state, t.action).value;
    CarriedHolds(t.w0.Entities(), plan, redo);
    UndoRestoresIff(t.w1.Entities(), undo, redo);
  }

  /** The captured state holds exactly the kind of field the action changes, as it stands on the platform. */
  predicate CapturesKind(env: Env, entities: Entities, action: Action, pre: State) {
    env.resolve(action).Some? &&
    var fields := FieldsOf(entities, env.resolve(action).value);
    match CategoryOf(action.kind)
    case BudgetCategory =>
      var field := PickBudgetField(env, Selected(fields, BudgetNames())).field;
      && pre.status.None? && pre.budgetMinor.Some? && BudgetField(pre.budgetType) == field
      && field in fields && fields[field] == env.text(Round(pre.budgetMinor.value))
    case PauseCategory | ActivateCategory =>
      pre.status.Some? && "status" in fields && fields["status"] == pre.status.value
    case ExperimentCategory => false
  }

  /** Such a capture makes the round trip whole: one rollback restores the entities, two redo the mutation. */
  lemma RoundTripForCapturedKind(env: Env, hash: Hash, t: Trip)
    requires RolledBackTwice(env, hash, t)
    requires CapturesKind(env, t.w0.Entities(), t.action, t.pre)
    ensures t.w2.Entities() == t.w0.Entities() && t.w3.Entities() == t.w1.Entities()
    ensures t.record.preState == StateOf(t.undone.postState) == t.redone.preState
    ensures StateOf(t.record.postState) == t.undone.preState == StateOf(t.redone.postState)
  {
    hide Executed, Rolled, PlanMutation, PlanRevert, Holds, Carry, Moved, CapturesKind, Restorable;
    ExecutionFacts(env, hash, t.w0, t.action, t.pre, t.call1, t.w1, t.record);
    RollbackFacts(env, hash, Elapsed(hash, t.w1, t.pause1), t.record, t.action, t.call2, t.w2, t.undone);
    RollbackFacts(env, hash, Elapsed(hash, t.w2, t.pause2), t.undone, t.action, t.call3, t.w3, t.redone);
    CapturedIsRestorable(env, t.w0.Entities(), t.action, t.pre);
    RollbackRestoresIff(env, hash, t);
    RollbackOfRollbackIff(env, hash, t);
  }

  /** The trip that follows from executing `action` and rolling back twice, whatever becomes of the steps. */
  function Follow(
    env: Env, hash: Hash, w: World, action: Action, pre: State, calls: seq<Call>, pauses: seq<Pause>): Trip
    requires |calls| == 3 && |pauses| == 2 && PlanMutation(env, w.Entities(), action).Ok?
  {
    var record := ExecutionRecord(action, pre, PlanMutation(env, w.Entities(), action).value.state, calls[0]);
    var w1 := Executed(env, hash, w, action, pre, calls[0]).0;
    var undone := RollbackRecord(record, calls[1]);
    var w2 := Rolled(env, hash, Elapsed(hash, w1, pauses[0]), record, action, calls[1]).0;
    var redone := RollbackRecord(undone, calls[2]);
    var w3 := Rolled(env, hash, Elapsed(hash, w2, pauses[1]), undone, action, calls[2]).0;
    Trip(action, pre, w, w1, w2, w3, record, undone, redone, calls[0], calls[1], calls[2], pauses[0], pauses[1])
  }

  /**
    When the whole trip succeeds, for an executable action with a plan and such a capture: exactly when each
    write (and the read of a budget change) is answered in time and no step's tip is stale. Then it restores the
    entities and redoes the mutation.
   */
  lemma RoundTripSucceedsIff(
    env: Env, hash: Hash, w: World, action: Action, pre: State, calls: seq<Call>, pauses: seq<Pause>)
    requires |calls| == 3 && |pauses| == 2 && Sound(hash, w.sink)
    requires Executable(action) && PlanMutation(env, w.Entities(), action).Ok?
    requires CapturesKind(env, w.Entities(), action, pre)
    ensures var t := Follow(env, hash, w, action, pre, calls, pauses);
      && (RolledBackTwice(env, hash, t) <==>
            && ReportsDone(env, w.platform, action) && !IsStale(hash, w.sink, calls[0].traffic)
            && InTime(env, pauses[0].calls) && !IsStale(hash, Elapsed(hash, t.w1, pauses[0]).sink, calls[1].traffic)
            && InTime(env, pauses[1].calls) && !IsStale(hash, Elapsed(hash, t.w2, pauses[1]).sink, calls[2].traffic))
      && (RolledBackTwice(env, hash, t) ==>
            && t.w1.Entities() == Carry(w.Entities(), PlanMutation(env, w.Entities(), action).value)
            && t.w2.Entities() == w.Entities() && t.w3.Entities() == t.w1.Entities())
  {
    hide PlanMutation, PlanRevert, Carry, Holds, CapturesKind, Executable, Executed, Rolled, IsStale, InTime,
      ReportsDone, Moved, Sound, SameKind, Log, LogEnds, CarriesOut, UndoCarriesOut;
    var t := Follow(env, hash, w, action, pre, calls, pauses);
    CapturedIsRestorable(env, w.Entities(), action, pre);
    RedoIsPlan(env, w.Entities(), action);
    ExecutionEnds(env, hash, w, action, pre, calls[0]);
    MovedKeeps(hash, t.w1.sink, pauses[0].others);
    RollbackEnds(env, hash, Elapsed(hash, t.w1, pauses[0]), t.record, action, calls[1]);
    MovedKeeps(hash, t.w2.sink, pauses[1].others);
    RollbackEnds(env, hash, Elapsed(hash, t.w2, pauses[1]), t.undone, action, calls[2]);
    if RolledBackTwice(env, hash, t) {
      ExecutionFacts(env, hash, w, action, pre, calls[0], t.w1, t.record);
      RoundTripForCapturedKind(env, hash, t);
    }
  }

  /** In particular on a platform that always answers, as long as no step is overtaken on its way to the log. */
  lemma AnsweredRoundTrip(
    env: Env, hash: Hash, w: World, action: Action, pre: State, calls: seq<Call>, pauses: seq<Pause>)
    requires |calls| == 3 && |pauses| == 2 && Sound(hash, w.sink) && forall n: nat :: env.replies(n).Done?
    requires Executable(action) && PlanMutation(env, w.Entities(), action).Ok?
    requires CapturesKind(env, w.Entities(), action, pre)
    requires var t := Follow(env, hash, w, action, pre, calls, pauses);
      && !IsStale(hash, w.sink, calls[0].traffic)
      && !IsStale(hash, Elapsed(hash, t.w1, pauses[0]).sink, calls[1].traffic)
      && !IsStale(hash, Elapsed(hash, t.w2, pauses[1]).sink, calls[2].traffic)
    ensures var t := Follow(env, hash, w, action, pre, calls, pauses);
      RolledBackTwice(env, hash, t) && t.w2.Entities() == w.Entities() && t.w3.Entities() == t.w1.Entities()
  {
    hide RolledBackTwice, Follow, PlanMutation, CapturesKind, Executable, IsStale, InTime, ReportsDone, Moved, Sound;
    RoundTripSucceedsIff(env, hash, w, action, pre, calls, pauses);
    AnsweredReport(env, w.platform, action);
    AnsweredInTime(env, pauses[0].calls);
    AnsweredInTime(env, pauses[1].calls);
  }

  lemma CapturedIsRestorable(env: Env, entities: Entities, action: Action, pre: State)
    requires CapturesKind(env, entities, action, pre) && PlanMutation(env, entities, action).Ok?
    ensures Restorable(env, entities, action, pre)
    ensures PlanMutation(env, entities, action).value.field == PlanRevert(env, pre, action).value.field
  {
    hide Target, PickBudgetField;
  }

  /**
    The capture that breaks the round trip: a budget action whose captured state also has a status. Then undoing
    writes the status and leaves the changed budget in place.
   */
  lemma StatusHidesBudget(env: Env, hash: Hash, t: Trip)
    requires RolledBackOnce(env, hash, t)
    requires t.action.kind == UpdateBudget && t.pre.status.Some?
    ensures PlanMutation(env, t.w0.Entities(), t.action).Ok?
    ensures var plan := PlanMutation(env, t.w0.Entities(), t.action).value;
      && plan.field in FieldsOf(t.w2.Entities(), plan.id)
      && FieldsOf(t.w2.Entities(), plan.id)[plan.field] == plan.value
      && (!Holds(t.w0.Entities(), plan) ==> t.w2.Entities() != t.w0.Entities())
  {
    hide Executed, Rolled, Holds, Carry, Moved;
    ExecutionFacts(env, hash, t.w0, t.action, t.pre, t.call1, t.w1, t.record);
    RollbackFacts(env, hash, Elapsed(hash, t.w1, t.pause1), t.record, t.action, t.call2, t.w2, t.undone);
    var plan, undo := PlanMutation(env, t.w0.Entities(), t.action).value, PlanRevert(env, t.pre, t.action).value;
    BudgetPlanField(env, t.w0.Entities(), t.action);
    CarryTouchesOneField(t.w0.Entities(), plan, plan.id, plan.field);
    CarryTouchesOneField(t.w1.Entities(), undo, plan.id, plan.field);
    RollbackRestoresIff(env, hash, t);
    hide PlanMutation, PlanRevert;
  }

  /** A platform that always answers, with one entity whose budget is 3. */
  function FiveForThree(): Env {
    Env(n => Done, 4, (a: Action) => Some("9"), (s: string) => Some(3.0), (n: int) => if n == 5 then "5" else "3")
  }

  function Running(budget: string): Entities { map["9" := map["daily_budget" := budget, "status" := "ACTIVE"]] }

  function SetFive(evaluation: PolicyEvaluation): Action {
    Action("1", "2", UpdateBudget, Some(Absolute(5.0)), evaluation, Approved)
  }

  const FIVE_PLANNED := Plan("9", "daily_budget", "5", State(None, Some(5.0), Some("daily")))

  const BOTH_CAPTURED := State(Some("ACTIVE"), Some(3.0), Some("daily"))

  lemma FiveIsPlanned(evaluation: PolicyEvaluation)
    ensures PlanMutation(FiveForThree(), Running("3"), SetFive(evaluation)) == Ok(FIVE_PLANNED)
    ensures Carry(Running("3"), FIVE_PLANNED) == Running("5")
  {
    RoundOfInteger(5);
    assert Running("3")["9"] + map["daily_budget" := "5"] == Running("5")["9"];
  }

  lemma StatusIsWritten(evaluation: PolicyEvaluation, p: Platform)
    requires p.entities == Running("5")
    ensures Reverted(FiveForThree(), p, BOTH_CAPTURED, SetFive(evaluation)) ==
            (Platform(Running("5"), p.calls + 1), Ok(BOTH_CAPTURED))
  {
    assert Running("5")["9"] + map["status" := "ACTIVE"] == Running("5")["9"];
    assert Written(Running("5"), "9", map["status" := "ACTIVE"]) == Running("5");
  }

  /** It does happen: the budget is set to 5 from 3, and after the rollback the 5 is still there. */
  lemma StatusHidesBudgetOccurs(hash: Hash, evaluation: PolicyEvaluation) returns (env: Env, t: Trip)
    requires evaluation.decision == Allow
    ensures RolledBackOnce(env, hash, t) && t.action.kind == UpdateBudget && t.pre.status.Some?
    ensures t.w0.Entities() == Running("3") && t.w2.Entities() == Running("5") && Running("3") != Running("5")
  {
    env := FiveForThree();
    var action, pre := SetFive(evaluation), BOTH_CAPTURED;
    var w0 := World(Platform(Running("3"), 0), NoSink);
    var call := Call("3", "now", Traffic(Others([], []), None, []));
    FiveIsPlanned(evaluation);
    AnsweredMutationSucceeds(env, w0.platform, action);
    hide Applied, Reverted, PlanMutation, Carry, Running, FiveForThree;
    var w1 := Executed(env, hash, w0, action, pre, call).0;
    var record := ExecutionRecord(action, pre, FIVE_PLANNED.state, call);
    var pause := Pause(7, Others([], []));
    var v1 := Elapsed(hash, w1, pause);
    StatusIsWritten(evaluation, v1.platform);
    var w2 := Rolled(env, hash, v1, record, action, call).0;
    var undone := RollbackRecord(record, call);
    t := Trip(action, pre, w0, w1, w2, w2, record, undone, undone, call, call, call, pause, pause);
    RunningDiffers();
  }

  lemma RunningDiffers()
    ensures Running("3") != Running("5")
  {
    assert Running("3")["9"]["daily_budget"] != Running("5")["9"]["daily_budget"];
  }

  lemma BudgetPlanField(env: Env, entities: Entities, action: Action)
    requires action.kind == UpdateBudget && PlanMutation(env, entities, action).Ok?
    ensures PlanMutation(env, entities, action).value.field in BUDGET_FIELDS
  {
  }

  /** Whatever the outcome of an execution, only one field of the addressed entity can have changed. */
  lemma ExecutionTouchesOneField(
    env: Env, hash: Hash, w: World, action: Action, pre: State, call: Call, id: string, field: string)
    requires !ChangesField(env, w.Entities(), action, id, field)
    ensures var next := Executed(env, hash, w, action, pre, call).0;
      && (field in FieldsOf(next.Entities(), id) <==> field in FieldsOf(w.Entities(), id))
      && (field in FieldsOf(w.Entities(), id) ==>
            FieldsOf(next.Entities(), id)[field] == FieldsOf(w.Entities(), id)[field])
  {
    AppliedEnds(env, w.platform, action);
    PlanChangesField(env, w.Entities(), action);
    hide Applied, PlanMutation, Carry, ChangesField, FieldsOf, Appended, CarriesOut, InTime, WriteStart;
    var plan := PlanMutation(env, w.Entities(), action);
    if plan.Ok? { CarryTouchesOneField(w.Entities(), plan.value, id, field); }
  }

  lemma PlanChangesField(env: Env, entities: Entities, action: Action)
    ensures PlanMutation(env, entities, action).Ok? ==>
              ChangesField(env, entities, action, PlanMutation(env, entities, action).value.id,
                           PlanMutation(env, entities, action).value.field)
  {
    hide Target;
  }

  /** The action may change this field: it is the entity's status or its budget field, as the action's kind says. */
  predicate ChangesField(env: Env, entities: Entities, action: Action, id: string, field: string) {
    && env.resolve(action) == Some(id)
    && match CategoryOf(action.kind)
       case BudgetCategory => field == PickBudgetField(env, Selected(FieldsOf(entities, id), BudgetNames())).field
       case PauseCategory | ActivateCategory => field == "status"
       case ExperimentCategory => false
  }

  /** The step added exactly this entry, linked to the last one there was then; all else that is new is by others. */
  ghost predicate AddsOne(hash: Hash, before: Sink, traffic: Traffic, after: Sink, entry: AuditLog.AuditInput) {
    && Sound(hash, after) && Log(before) < Log(after) && Log(after)[|Log(after)| - 1].input == entry
    && Gains(hash, Awaiting(hash, before, traffic, entry), after, entry, true)
  }

  /**
    One audit entry per step, in order, on a log that stays one sound chain, with any number of other writers'
    entries before, between and around them.
   */
  lemma OneEntryPerStep(env: Env, hash: Hash, t: Trip)
    requires RolledBackTwice(env, hash, t) && Sound(hash, t.w0.sink) && !t.w0.sink.NoSink?
    ensures var s1, s2 := Elapsed(hash, t.w1, t.pause1).sink, Elapsed(hash, t.w2, t.pause2).sink;
      && AddsOne(hash, t.w0.sink, t.call1.traffic, t.w1.sink, ExecutedEntry(t.action, t.record))
      && AddsOne(hash, s1, t.call2.traffic, t.w2.sink, RolledBackEntry(t.action, t.record, t.undone))
      && AddsOne(hash, s2, t.call3.traffic, t.w3.sink, RolledBackEntry(t.action, t.undone, t.redone))
      && Log(t.w1.sink) <= Log(s1) && Log(t.w2.sink) <= Log(s2)
      && AuditLog.Chained(hash, Log(t.w3.sink)) && AuditLog.Numbered(Log(t.w3.sink))
  {
    hide Executed, Rolled, Moved, Sound, Log, ExecutedEntry, RolledBackEntry, AddsOne, IsStale;
    var v1, v2 := Elapsed(hash, t.w1, t.pause1), Elapsed(hash, t.w2, t.pause2);
    ExecutionAddsOne(env, hash, t.w0, t.action, t.pre, t.call1, t.w1, t.record);
    MovedKeeps(hash, t.w1.sink, t.pause1.others);
    RollbackAddsOne(env, hash, v1, t.record, t.action, t.call2, t.w2, t.undone);
    MovedKeeps(hash, t.w2.sink, t.pause2.others);
    RollbackAddsOne(env, hash, v2, t.undone, t.action, t.call3, t.w3, t.redone);
    SoundIsChained(hash, t.w3.sink);
  }

  lemma ExecutionAddsOne(
    env: Env, hash: Hash, w: World, action: Action, pre: State, call: Call, w1: World, record: ActionRecord)
    requires Executed(env, hash, w, action, pre, call) == (w1, Ok(record)) && Sound(hash, w.sink) && !w.sink.NoSink?
    ensures AddsOne(hash, w.sink, call.traffic, w1.sink, ExecutedEntry(action, record))
    ensures Sound(hash, w1.sink) && !w1.sink.NoSink?
  {
    ExecutionFacts(env, hash, w, action, pre, call, w1, record);
    hide Applied, PlanMutation, Carry, ExecutedEntry, Appended;
    TakenAddsOne(hash, w.sink, call.traffic, ExecutedEntry(action, record));
  }

  lemma RollbackAddsOne(
    env: Env, hash: Hash, w: World, record: ActionRecord, action: Action, call: Call, w1: World, undone: ActionRecord)
    requires Rolled(env, hash, w, record, action, call) == (w1, Ok(undone)) && Sound(hash, w.sink) && !w.sink.NoSink?
    ensures AddsOne(hash, w.sink, call.traffic, w1.sink, RolledBackEntry(action, record, undone))
    ensures Sound(hash, w1.sink) && !w1.sink.NoSink?
  {
    RollbackFacts(env, hash, w, record, action, call, w1, undone);
    hide Reverted, PlanRevert, Carry, RolledBackEntry, Appended;
    TakenAddsOne(hash, w.sink, call.traffic, RolledBackEntry(action, record, undone));
  }

  lemma TakenAddsOne(hash: Hash, sink: Sink, traffic: Traffic, entry: AuditLog.AuditInput)
    requires Sound(hash, sink) && !sink.NoSink? && Appended(hash, sink, traffic, entry).1
    ensures AddsOne(hash, sink, traffic, Appended(hash, sink, traffic, entry).0, entry)
    ensures Sound(hash, Appended(hash, sink, traffic, entry).0) && !Appended(hash, sink, traffic, entry).0.NoSink?
  {
    AppendedEnds(hash, sink, traffic, entry);
    AwaitingKeeps(hash, sink, traffic, entry);
    hide Appended, Awaiting, Sound, SoundHolding, IsStale;
  }

  // ---- From the policy's verdict to the platform ----

  /** The budget on the platform is the one the policy was asked about. */
  predicate SameBudget(env: Env, entities: Entities, action: Action, ctx: PolicyContext) {
    env.resolve(action).Some? &&
    var current := PickBudgetField(env, Selected(FieldsOf(entities, env.resolve(action).value), BudgetNames())).current;
    if ctx.currentBudget.Some? then current == Some(ctx.currentBudget.value as real) else current.None?
  }

  /**
    The checked change bounds the real write: when the action carries the policy's own evaluation of its change
    and the platform's budget is the context's, an executed budget change writes a target within the policy's
    absolute limit, and an increase within its daily spend limit. Nothing is ever executed without a budget.
   */
  lemma ExecutedChangeIsBounded(
    env: Env, hash: Hash, w: World, w1: World, action: Action, pre: State, call: Call, record: ActionRecord,
    policy: OptimizationPolicy, accountId: string, ctx: PolicyContext)
    requires action.kind == UpdateBudget && action.requested.Some?
    requires action.evaluation == Evaluated(policy, ProposedChange(UpdateBudget, accountId, action.requested), ctx)
    requires SameBudget(env, w.Entities(), action, ctx)
    requires Executed(env, hash, w, action, pre, call) == (w1, Ok(record))
    ensures ctx.currentBudget.Some? && PlanMutation(env, w.Entities(), action).Ok?
    ensures var plan := PlanMutation(env, w.Entities(), action).value;
            var target := Target(action.requested.value, ctx.currentBudget.value as real);
      && w1.Entities() == Carry(w.Entities(), plan) && plan.value == env.text(target)
      && record.postState == Some(plan.state) && plan.state.budgetMinor == Some(target as real)
      && target >= 0 && Bounded(policy.constraints, ctx, ctx.currentBudget.value, target)
  {
    var change := ProposedChange(UpdateBudget, accountId, action.requested);
    hide Evaluated, Executed, Carry;
    ExecutionFacts(env, hash, w, action, pre, call, w1, record);
    PermittedTargetIsBounded(policy, change, ctx);
    if ctx.currentBudget.None? {
      if action.requested.value.Absolute? { AbsoluteNeedsBudget(policy, change, ctx); }
    }
    hide Target, Bounded;
  }

  /**
    One of the untidy ends at work: a write that the platform always carries out but always answers with a
    failure leaves the entity changed and is reported as failed.
   */
  lemma {:induction false} UnacknowledgedWrite(env: Env, p: Platform, id: string, fields: MetaFields, attempt: nat)
    requires forall n: nat :: env.replies(n) == Failed(true, 500)
    ensures Requested(env, p, Post(id, fields), attempt).1 == Some(MetaApiError(500))
    ensures Requested(env, p, Post(id, fields), attempt).0.entities == Written(p.entities, id, fields)
    decreases env.maxRetries - attempt
  {
    if attempt < env.maxRetries {
      UnacknowledgedWrite(env, Answered(p, Post(id, fields), env.replies(p.calls)), id, fields, attempt + 1);
      WritingTwice(p.entities, id, fields);
    }
  }
}
