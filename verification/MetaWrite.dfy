/**
  The mutation path to the platform: the write source with its bounded retry loop
  (services/connectors-ads/src/meta/write-source.ts) and the write connector
  (services/connectors-ads/src/meta/write-connector.ts).

  The platform is an adversary: it answers each call as a schedule says, and a failed POST may or may not
  have been carried out.
 */
module MetaWrite {
  import opened Wrappers
  import opened Rounding
  import opened Policy

  type MetaFields = map<string, string>

  type Entities = map<string, MetaFields>

  /** A success was carried out; a failure may have been. */
  datatype Reply = Done | Failed(carriedOut: bool, status: nat)

  datatype Request = Get(id: string) | Post(id: string, fields: MetaFields)

  /** The platform's entities, and how many calls it has answered. */
  datatype Platform = Platform(entities: Entities, calls: nat)

  datatype ActionStatus =
    | PendingStatus | Approved | Rejected | QueuedStatus | ExecutedStatus | RolledBack | FailedStatus

  datatype Action = Action(
    id: string, clientId: string, kind: ActionType, requested: Option<BudgetChange>, evaluation: PolicyEvaluation,
    status: ActionStatus)

  /** What a captured or resulting state says of the fields the connector can restore. */
  datatype State = State(status: Option<string>, budgetMinor: Option<real>, budgetType: Option<string>)

  datatype WriteError =
    | UnresolvedTarget | MetaApiError(status: nat) | MalformedChange | NoCurrentBudget | NegativeTarget
    | UnsupportedMutation | NothingToRestore

  /**
    What the connector depends on: the platform's replies by call number, the retry bound, the external id
    behind an action, and JavaScript's `Number` (`None` when not finite) and `String` on integers.
   */
  datatype Env = Env(
    replies: nat -> Reply, maxRetries: int, resolve: Action -> Option<string>,
    number: string -> Option<real>, text: int -> string)

  // ---- One call ----

  function FieldsOf(entities: Entities, id: string): MetaFields { if id in entities then entities[id] else map[] }

  function Written(entities: Entities, id: string, fields: MetaFields): Entities {
    entities[id := FieldsOf(entities, id) + fields]
  }

  predicate Retriable(status: nat) { status == 429 || status >= 500 }

  predicate CarriedOut(reply: Reply) { reply.Done? || reply.carriedOut }

  function Answered(p: Platform, request: Request, reply: Reply): Platform {
    Platform(
      if request.Post? && CarriedOut(reply) then Written(p.entities, request.id, request.fields) else p.entities,
      p.calls + 1)
  }

  // ---- The retry loop ----

  /** Retries on 429 and 5xx until an attempt succeeds or the retries are used up. */
  function Requested(env: Env, p: Platform, request: Request, attempt: nat): (Platform, Option<WriteError>)
    decreases env.maxRetries - attempt
  {
    var reply := env.replies(p.calls);
    var next := Answered(p, request, reply);
    if reply.Done? then (next, None)
    else if !Retriable(reply.status) || attempt >= env.maxRetries then (next, Some(MetaApiError(reply.status)))
    else Requested(env, next, request, attempt + 1)
  }

  function Attempts(env: Env): nat { if env.maxRetries < 0 then 1 else env.maxRetries + 1 }

  /** One of the calls from `from` up to `to` was carried out. */
  ghost predicate Reached(env: Env, from: nat, to: nat) {
    exists k: nat :: from <= k < to && CarriedOut(env.replies(k))
  }

  /**
    All or nothing, decided by the replies: a request writes its fields exactly when one of the calls it makes is
    carried out, whatever is reported; it makes at least one call and no more than the allowed attempts.
   */
  lemma {:induction false} RequestIsAllOrNothing(env: Env, p: Platform, request: Request, attempt: nat)
    ensures var (next, error) := Requested(env, p, request, attempt);
      && next.entities == (if request.Post? && Reached(env, p.calls, next.calls)
                           then Written(p.entities, request.id, request.fields) else p.entities)
      && (error.None? ==> Reached(env, p.calls, next.calls))
      && p.calls < next.calls
      && (attempt < Attempts(env) ==> next.calls <= p.calls + (Attempts(env) - attempt))
    decreases env.maxRetries - attempt
  {
    var reply := env.replies(p.calls);
    var next := Answered(p, request, reply);
    var last := Requested(env, p, request, attempt).0;
    if reply.Failed? && Retriable(reply.status) && attempt < env.maxRetries {
      RequestIsAllOrNothing(env, next, request, attempt + 1);
      if request.Post? { WritingTwice(p.entities, request.id, request.fields); }
      ReachedFirst(env, p.calls, last.calls);
    } else {
      ReachedFirst(env, p.calls, p.calls + 1);
    }
  }

  lemma ReachedFirst(env: Env, from: nat, to: nat)
    requires from < to
    ensures Reached(env, from, to) <==> CarriedOut(env.replies(from)) || Reached(env, from + 1, to)
  {
    if k: nat :| from <= k < to && CarriedOut(env.replies(k)) {
      assert k == from || from + 1 <= k;
    }
  }

  /** A repeated POST of absolute values converges. */
  lemma WritingTwice(entities: Entities, id: string, fields: MetaFields)
    ensures Written(Written(entities, id, fields), id, fields) == Written(entities, id, fields)
  {
    assert (FieldsOf(entities, id) + fields) + fields == FieldsOf(entities, id) + fields;
  }

  predicate FailsRetriably(env: Env, call: nat) { env.replies(call).Failed? && Retriable(env.replies(call).status) }

  /** Call `k` is a success within the allowed attempts, reached through retriable failures only. */
  ghost predicate SucceedsAt(env: Env, calls: nat, attempt: nat, k: nat) {
    && calls <= k && k - calls + attempt < Attempts(env) && env.replies(k).Done?
    && (forall j: nat :: calls <= j < k ==> FailsRetriably(env, j))
  }

  /** A request succeeds exactly when a success comes within the allowed attempts, behind retriable failures only. */
  lemma {:induction false} RequestSucceedsIff(env: Env, p: Platform, request: Request, attempt: nat)
    requires attempt < Attempts(env)
    ensures Requested(env, p, request, attempt).1.None? <==> exists k: nat :: SucceedsAt(env, p.calls, attempt, k)
    decreases env.maxRetries - attempt
  {
    var next := Answered(p, request, env.replies(p.calls));
    if env.replies(p.calls).Done? {
      assert SucceedsAt(env, p.calls, attempt, p.calls);
    } else {
      forall k: nat ensures SucceedsAt(env, p.calls, attempt, k) <==> SucceedsLater(env, p.calls, attempt, k) {
        assert k == p.calls ==> !env.replies(k).Done?;
        assert SucceedsAt(env, p.calls, attempt, k) ==> FailsRetriably(env, p.calls);
      }
      if FailsRetriably(env, p.calls) && attempt < env.maxRetries {
        RequestSucceedsIff(env, next, request, attempt + 1);
        var calls, later := next.calls, attempt + 1;
        if k: nat :| SucceedsAt(env, calls, later, k) {
          assert SucceedsLater(env, p.calls, attempt, k);
        }
      } else {
        assert forall k: nat :: !SucceedsLater(env, p.calls, attempt, k);
      }
    }
  }

  ghost predicate SucceedsLater(env: Env, calls: nat, attempt: nat, k: nat) {
    FailsRetriably(env, calls) && SucceedsAt(env, calls + 1, attempt + 1, k)
  }

  // ---- Reading and editing an entity ----

  function Selected(fields: MetaFields, names: set<string>): MetaFields {
    map k | k in fields && k in names :: fields[k]
  }

  const BUDGET_FIELDS: seq<string> := ["daily_budget", "lifetime_budget"]

  class HttpMetaWriteSource {
    const env: Env
    var platform: Platform

    constructor (env: Env, platform: Platform)
      ensures this.env == env && this.platform == platform
    {
      this.env, this.platform := env, platform;
    }

    method Call(request: Request) returns (error: Option<WriteError>)
      modifies this
      ensures (platform, error) == Requested(env, old(platform), request, 0)
    {
      var attempt := 0;
      while true
        invariant Requested(env, old(platform), request, 0) == Requested(env, platform, request, attempt)
        decreases env.maxRetries - attempt
      {
        var reply := env.replies(platform.calls);
        platform := Answered(platform, request, reply);
        if reply.Done? { return None; }
        if !Retriable(reply.status) || attempt >= env.maxRetries { return Some(MetaApiError(reply.status)); }
        attempt := attempt + 1;
      }
    }

    method GetFields(id: string, names: seq<string>) returns (r: Result<MetaFields, WriteError>)
      modifies this
      ensures platform == Requested(env, old(platform), Get(id), 0).0
      ensures r == match Requested(env, old(platform), Get(id), 0).1
                   case Some(e) => Err(e)
                   case None => Ok(Selected(FieldsOf(platform.entities, id), set n | n in names))
    {
      var error := Call(Get(id));
      if error.Some? { return Err(error.value); }
      var raw, out: MetaFields := FieldsOf(platform.entities, id), map[];
      for i := 0 to |names|
        invariant out == Selected(raw, set n | n in names[..i])
      {
        if names[i] in raw { out := out[names[i] := raw[names[i]]]; }
      }
      assert names[..|names|] == names;
      r := Ok(out);
    }

    method UpdateEntity(id: string, fields: MetaFields) returns (error: Option<WriteError>)
      modifies this
      ensures (platform, error) == Requested(env, old(platform), Post(id, fields), 0)
    {
      error := Call(Post(id, fields));
    }
  }

  // ---- What a mutation writes ----

  datatype BudgetPick = BudgetPick(field: string, kind: string, current: Option<real>)

  function ToMinor(env: Env, fields: MetaFields, field: string): Option<real> {
    if field in fields then env.number(fields[field]) else None
  }

  /** Whichever budget is set; daily when both or neither are. */
  function PickBudgetField(env: Env, fields: MetaFields): BudgetPick {
    if "lifetime_budget" in fields && "daily_budget" !in fields
    then BudgetPick("lifetime_budget", "lifetime", ToMinor(env, fields, "lifetime_budget"))
    else BudgetPick("daily_budget", "daily", ToMinor(env, fields, "daily_budget"))
  }

  function BudgetField(kind: Option<string>): string {
    if kind == Some("lifetime") then "lifetime_budget" else "daily_budget"
  }

  /** One field of one entity, and the state reported once it is written. */
  datatype Plan = Plan(id: string, field: string, value: string, state: State)

  function PlanBudget(env: Env, fields: MetaFields, id: string, change: BudgetChange): Result<Plan, WriteError> {
    var which := PickBudgetField(env, fields);
    if change.Percent? && which.current.None? then Err(NoCurrentBudget)
    else
      var target := Target(change, if which.current.Some? then which.current.value else 0.0);
      if target < 0 then Err(NegativeTarget)
      else Ok(Plan(id, which.field, env.text(target), State(None, Some(target as real), Some(which.kind))))
  }

  function PlanStatus(id: string, status: string): Plan { Plan(id, "status", status, State(Some(status), None, None)) }

  /** What a mutation is to write, given the entities as they are. */
  function PlanMutation(env: Env, entities: Entities, action: Action): Result<Plan, WriteError> {
    match env.resolve(action)
    case None => Err(UnresolvedTarget)
    case Some(id) =>
      match CategoryOf(action.kind)
      case BudgetCategory =>
        if action.requested.None? then Err(MalformedChange)
        else PlanBudget(env, Selected(FieldsOf(entities, id), BudgetNames()), id, action.requested.value)
      case PauseCategory => Ok(PlanStatus(id, "PAUSED"))
      case ActivateCategory => Ok(PlanStatus(id, "ACTIVE"))
      case ExperimentCategory => Err(UnsupportedMutation)
  }

  function BudgetNames(): set<string> { set n | n in BUDGET_FIELDS }

  /** What undoing is to write: the captured status if there is one, else the captured budget. */
  function PlanRevert(env: Env, pre: State, action: Action): Result<Plan, WriteError> {
    match env.resolve(action)
    case None => Err(UnresolvedTarget)
    case Some(id) =>
      if pre.status.Some? then Ok(Plan(id, "status", pre.status.value, pre))
      else if pre.budgetMinor.Some?
      then Ok(Plan(id, BudgetField(pre.budgetType), env.text(Round(pre.budgetMinor.value)), pre))
      else Err(NothingToRestore)
  }

  // ---- Mutations as the platform answers them ----

  /** Carrying a plan out: one POST of its field, through the retry loop. */
  function Posted(env: Env, p: Platform, plan: Plan): (Platform, Result<State, WriteError>) {
    var (next, error) := Requested(env, p, Post(plan.id, map[plan.field := plan.value]), 0);
    (next, if error.Some? then Err(error.value) else Ok(plan.state))
  }

  /** A budget change is resolved against a fresh read. */
  function BudgetApplied(env: Env, p: Platform, id: string, change: BudgetChange)
    : (Platform, Result<State, WriteError>)
  {
    var (read, error) := Requested(env, p, Get(id), 0);
    if error.Some? then (read, Err(error.value))
    else
      match PlanBudget(env, Selected(FieldsOf(read.entities, id), BudgetNames()), id, change)
      case Err(e) => (read, Err(e))
      case Ok(plan) => Posted(env, read, plan)
  }

  function Applied(env: Env, p: Platform, action: Action): (Platform, Result<State, WriteError>) {
    match env.resolve(action)
    case None => (p, Err(UnresolvedTarget))
    case Some(id) =>
      match CategoryOf(action.kind)
      case BudgetCategory =>
        if action.requested.None? then (p, Err(MalformedChange)) else BudgetApplied(env, p, id, action.requested.value)
      case PauseCategory => Posted(env, p, PlanStatus(id, "PAUSED"))
      case ActivateCategory => Posted(env, p, PlanStatus(id, "ACTIVE"))
      case ExperimentCategory => (p, Err(UnsupportedMutation))
  }

  function Reverted(env: Env, p: Platform, pre: State, action: Action): (Platform, Result<State, WriteError>) {
    match PlanRevert(env, pre, action)
    case Err(e) => (p, Err(e))
    case Ok(plan) => Posted(env, p, plan)
  }

  class MetaWriteConnector {
    const source: HttpMetaWriteSource

    constructor (source: HttpMetaWriteSource)
      ensures this.source == source
    {
      this.source := source;
    }

    method ApplyMutation(action: Action) returns (r: Result<State, WriteError>)
      modifies source
      ensures (source.platform, r) == Applied(source.env, old(source.platform), action)
    {
      var target := source.env.resolve(action);
      if target.None? { return Err(UnresolvedTarget); }
      if action.kind == UpdateBudget {
        r := ApplyBudget(action, target.value);
      } else if action.kind in {PauseAd, PauseAdset, PauseCampaign} {
        r := ApplyStatus(target.value, "PAUSED");
      } else if action.kind in {ActivateAd, ActivateAdset, ActivateCampaign} {
        r := ApplyStatus(target.value, "ACTIVE");
      } else {
        r := Err(UnsupportedMutation);
      }
    }

    method ApplyBudget(action: Action, id: string) returns (r: Result<State, WriteError>)
      modifies source
      ensures (source.platform, r) == if action.requested.None? then (old(source.platform), Err(MalformedChange))
                                      else BudgetApplied(source.env, old(source.platform), id, action.requested.value)
    {
      if action.requested.None? { return Err(MalformedChange); }
      var change := action.requested.value;
      var current := source.GetFields(id, BUDGET_FIELDS);
      if current.Err? { return Err(current.error); }
      var which := PickBudgetField(source.env, current.value);
      var target: int;
      match change {
        case Absolute(value) => target := Round(value);
        case Percent(value) =>
          if which.current.None? { return Err(NoCurrentBudget); }
          target := PercentTarget(which.current.value, value);
      }
      if target < 0 { return Err(NegativeTarget); }
      var error := source.UpdateEntity(id, map[which.field := source.env.text(target)]);
      r := if error.Some? then Err(error.value) else Ok(State(None, Some(target as real), Some(which.kind)));
    }

    method ApplyStatus(id: string, status: string) returns (r: Result<State, WriteError>)
      modifies source
      ensures (source.platform, r) == Posted(source.env, old(source.platform), PlanStatus(id, status))
    {
      var error := source.UpdateEntity(id, map["status" := status]);
      r := if error.Some? then Err(error.value) else Ok(State(Some(status), None, None));
    }

    method Revert(pre: State, action: Action) returns (r: Result<State, WriteError>)
      modifies source
      ensures (source.platform, r) == Reverted(source.env, old(source.platform), pre, action)
    {
      var target := source.env.resolve(action);
      if target.None? { return Err(UnresolvedTarget); }
      var error;
      if pre.status.Some? {
        error := source.UpdateEntity(target.value, map["status" := pre.status.value]);
      } else if pre.budgetMinor.Some? {
        var text := source.env.text(Round(pre.budgetMinor.value));
        error := source.UpdateEntity(target.value, map[BudgetField(pre.budgetType) := text]);
      } else {
        return Err(NothingToRestore);
      }
      r := if error.Some? then Err(error.value) else Ok(pre);
    }
  }

  // ---- What can come of a mutation ----

  function Carry(entities: Entities, plan: Plan): Entities { Written(entities, plan.id, map[plan.field := plan.value]) }

  /** A request begun after `calls` calls meets a success in the allowed attempts, behind retriable failures only. */
  ghost predicate InTime(env: Env, calls: nat) { exists k: nat :: SucceedsAt(env, calls, 0, k) }

  /** Carrying a plan out makes a call that the platform carries out. */
  ghost predicate Delivers(env: Env, p: Platform, plan: Plan) {
    Reached(env, p.calls, Posted(env, p, plan).0.calls)
  }

  /**
    A plan is written exactly when one of its calls is carried out, and reported as done exactly when a success
    comes in time; so it may be written and reported as failed, but not the other way round.
   */
  lemma PostedEnds(env: Env, p: Platform, plan: Plan)
    ensures var (next, r) := Posted(env, p, plan);
      && next.entities == (if Delivers(env, p, plan) then Carry(p.entities, plan) else p.entities)
      && (r.Ok? <==> InTime(env, p.calls))
      && (r.Ok? ==> r.value == plan.state && Delivers(env, p, plan))
  {
    var request := Post(plan.id, map[plan.field := plan.value]);
    RequestIsAllOrNothing(env, p, request, 0);
    RequestSucceedsIff(env, p, request, 0);
    hide Requested, Written, SucceedsAt, Reached;
  }

  /** The platform at which a mutation begins its write, if it comes that far: a budget change reads first. */
  function WriteStart(env: Env, p: Platform, action: Action): Option<Platform> {
    if PlanMutation(env, p.entities, action).Err? then None
    else if CategoryOf(action.kind).BudgetCategory? then
      var (read, error) := Requested(env, p, Get(env.resolve(action).value), 0);
      if error.Some? then None else Some(read)
    else Some(p)
  }

  lemma AppliedIsPosted(env: Env, p: Platform, action: Action)
    ensures var (next, r) := Applied(env, p, action);
      match WriteStart(env, p, action)
      case None => r.Err? && next.entities == p.entities
      case Some(start) =>
        && PlanMutation(env, p.entities, action).Ok? && start.entities == p.entities
        && (next, r) == Posted(env, start, PlanMutation(env, p.entities, action).value)
    ensures WriteStart(env, p, action).Some? <==>
              && PlanMutation(env, p.entities, action).Ok?
              && (CategoryOf(action.kind).BudgetCategory? ==> InTime(env, p.calls))
  {
    hide Posted, Requested, PlanBudget, Reached, SucceedsAt;
    if env.resolve(action).Some? {
      RequestIsAllOrNothing(env, p, Get(env.resolve(action).value), 0);
      RequestSucceedsIff(env, p, Get(env.resolve(action).value), 0);
    }
  }

  /** The mutation gets as far as writing, and one of the calls that write is carried out. */
  ghost predicate CarriesOut(env: Env, p: Platform, action: Action) {
    var start, plan := WriteStart(env, p, action), PlanMutation(env, p.entities, action);
    start.Some? && plan.Ok? && Delivers(env, start.value, plan.value)
  }

  /**
    Every end of a mutation: the entities are those of the plan made from them exactly when the mutation is
    carried out, and otherwise untouched; it reports success exactly when there is a plan, the read of a budget
    change is answered in time and the write is too.
   */
  lemma AppliedEnds(env: Env, p: Platform, action: Action)
    ensures var (next, r) := Applied(env, p, action);
      var start, plan := WriteStart(env, p, action), PlanMutation(env, p.entities, action);
      && (CarriesOut(env, p, action) ==> plan.Ok?)
      && next.entities == (if CarriesOut(env, p, action) then Carry(p.entities, plan.value) else p.entities)
      && (r.Ok? <==> start.Some? && InTime(env, start.value.calls))
      && (r.Ok? ==> plan.Ok? && r.value == plan.value.state && CarriesOut(env, p, action))
  {
    AppliedIsPosted(env, p, action);
    var start, plan := WriteStart(env, p, action), PlanMutation(env, p.entities, action);
    if start.Some? { PostedEnds(env, start.value, plan.value); }
    hide Applied, Posted, PlanMutation, WriteStart, InTime, Delivers, Carry;
  }

  /** The undoing write makes a call that the platform carries out. */
  ghost predicate UndoCarriesOut(env: Env, p: Platform, pre: State, action: Action) {
    var plan := PlanRevert(env, pre, action);
    plan.Ok? && Delivers(env, p, plan.value)
  }

  lemma RevertedEnds(env: Env, p: Platform, pre: State, action: Action)
    ensures var (next, r) := Reverted(env, p, pre, action);
      var plan := PlanRevert(env, pre, action);
      && (UndoCarriesOut(env, p, pre, action) ==> plan.Ok?)
      && next.entities == (if UndoCarriesOut(env, p, pre, action) then Carry(p.entities, plan.value) else p.entities)
      && (r.Ok? <==> plan.Ok? && InTime(env, p.calls))
      && (r.Ok? ==> r.value == plan.value.state && UndoCarriesOut(env, p, pre, action))
  {
    var plan := PlanRevert(env, pre, action);
    hide Posted, PlanRevert, InTime, Delivers, Carry;
    if plan.Ok? { PostedEnds(env, p, plan.value); }
  }

  /** A platform that always answers carries out exactly what can be planned, and reports why otherwise. */
  lemma AnsweredMutationSucceeds(env: Env, p: Platform, action: Action)
    requires forall n: nat :: env.replies(n).Done?
    ensures var (next, r) := Applied(env, p, action);
      match PlanMutation(env, p.entities, action)
      case Ok(plan) => r == Ok(plan.state) && next.entities == Carry(p.entities, plan)
      case Err(e) => r == Err(e) && next.entities == p.entities
  {
    hide PlanBudget;
  }

  // ---- What a plan leaves alone, and what undoes it ----

  /** A carried-out plan sets its one field; every other field and every other entity is as before. */
  lemma CarryTouchesOneField(entities: Entities, plan: Plan, id: string, field: string)
    ensures var after := Carry(entities, plan);
      && plan.field in FieldsOf(after, plan.id) && FieldsOf(after, plan.id)[plan.field] == plan.value
      && (id != plan.id ==> FieldsOf(after, id) == FieldsOf(entities, id) && (id in after <==> id in entities))
      && (field != plan.field ==>
            && (field in FieldsOf(after, id) <==> field in FieldsOf(entities, id))
            && (field in FieldsOf(entities, id) ==> FieldsOf(after, id)[field] == FieldsOf(entities, id)[field]))
  {
  }

  /** The plan would write what is there already. */
  predicate Holds(entities: Entities, plan: Plan) {
    plan.id in entities && plan.field in entities[plan.id] && entities[plan.id][plan.field] == plan.value
  }

  lemma CarryIsNothingIff(entities: Entities, plan: Plan)
    ensures Carry(entities, plan) == entities <==> Holds(entities, plan)
  {
    var after := Carry(entities, plan);
    assert plan.field in FieldsOf(after, plan.id) && FieldsOf(after, plan.id)[plan.field] == plan.value;
    if Holds(entities, plan) {
      assert entities[plan.id] + map[plan.field := plan.value] == entities[plan.id];
    }
  }

  /**
    Undoing restores the entities exactly when what it writes is what was there, in the field the mutation
    changed, or the mutation had changed nothing.
   */
  lemma UndoRestoresIff(entities: Entities, plan: Plan, undo: Plan)
    requires plan.id == undo.id
    ensures Carry(Carry(entities, plan), undo) == entities
       <==> Holds(entities, undo) && (undo.field == plan.field || Holds(entities, plan))
  {
    var mid := Carry(entities, plan);
    var after := Carry(mid, undo);
    CarryTouchesOneField(mid, undo, plan.id, plan.field);
    CarryTouchesOneField(entities, plan, plan.id, plan.field);
    if Holds(entities, undo) && undo.field == plan.field {
      CarryTwice(entities, plan, undo);
      CarryIsNothingIff(entities, undo);
    } else if Holds(entities, undo) && Holds(entities, plan) {
      CarryIsNothingIff(entities, plan);
      CarryIsNothingIff(entities, undo);
    }
  }

  /** A later write of the same field replaces an earlier one. */
  lemma CarryTwice(entities: Entities, plan: Plan, later: Plan)
    requires plan.id == later.id && plan.field == later.field
    ensures Carry(Carry(entities, plan), later) == Carry(entities, later)
  {
    var fields := FieldsOf(entities, plan.id);
    assert (fields + map[plan.field := plan.value]) + map[later.field := later.value]
        == fields + map[later.field := later.value];
  }
}
