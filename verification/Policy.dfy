/**
  The policy engine (services/policy-engine/src/evaluate.ts, engine.ts) and the tools that ask it
  (mcp-servers/ads-actions-mcp/src/tools.ts). Currencies and the wording of violation details are left out.
 */
module Policy {
  import opened Wrappers
  import opened Reals
  import opened Rounding

  datatype ActionType =
    | UpdateBudget
    | PauseAd | PauseAdset | PauseCampaign
    | ActivateAd | ActivateAdset | ActivateCampaign
    | CreateExperiment

  datatype Category = BudgetCategory | PauseCategory | ActivateCategory | ExperimentCategory

  function CategoryOf(action: ActionType): Category {
    match action
    case UpdateBudget => BudgetCategory
    case PauseAd | PauseAdset | PauseCampaign => PauseCategory
    case ActivateAd | ActivateAdset | ActivateCampaign => ActivateCategory
    case CreateExperiment => ExperimentCategory
  }

  /** A fraction (0.2 is +20%) or a target budget in minor units. */
  datatype BudgetChange = Percent(value: real) | Absolute(value: real)

  datatype ProposedChange = ProposedChange(action: ActionType, accountId: string, budgetChange: Option<BudgetChange>)

  datatype CampaignState = Learning | Stabilizing | Mature

  datatype PolicyContext = PolicyContext(
    currentBudget: Option<nat>, maturity: Option<CampaignState>, evidenceDays: real, conversions: real,
    spend: nat, hoursSinceLastChange: Option<real>, dailySpend: nat, activeExperiment: bool)

  datatype Tier = Disabled | RequiresApproval | Auto

  datatype Constraints = Constraints(
    maxPercent: real, maxAbsolute: int, minDays: real, minConversions: real, minSpend: int,
    budgetCooldown: real, pauseCooldown: real, minState: CampaignState, automation: map<Category, Tier>,
    protectedAccounts: set<string>, excludedActions: set<ActionType>, experimentProtection: bool,
    dailySpendLimit: int)

  datatype OptimizationPolicy = OptimizationPolicy(version: nat, constraints: Constraints)

  datatype Code =
    | NoPolicy | AccountRestricted | ExperimentProtected | MinEvidenceDays | MinConversions | MinSpend
    | MaturityTooLow | Cooldown | MaxBudgetDeltaPercent | MaxBudgetDeltaAbsolute | DailySpendLimit
    | AutomationDisabled | AutomationRequiresApproval

  datatype Level = DenyLevel | ApprovalLevel

  datatype Violation = Violation(code: Code, level: Level)

  datatype Decision = Allow | NeedsApproval | Deny

  datatype PolicyEvaluation = PolicyEvaluation(
    decision: Decision, violations: seq<Violation>, requiresApproval: bool, policyVersion: nat)

  function MaturityOrder(s: CampaignState): nat {
    match s
    case Learning => 0
    case Stabilizing => 1
    case Mature => 2
  }

  // ---- The size of a budget change ----

  /** `fraction` is `None` where the source has `Infinity`. */
  datatype Deltas = Deltas(amount: real, fraction: Option<real>, increase: bool)

  function CurrentOf(ctx: PolicyContext): nat { if ctx.currentBudget.Some? then ctx.currentBudget.value else 0 }

  /** The rounded size of a percentage change. */
  function PercentAmount(current: real, value: real): int { Round(Abs(current * value)) }

  function BudgetDeltas(change: ProposedChange, ctx: PolicyContext): Deltas {
    var current := CurrentOf(ctx) as real;
    match change.budgetChange
    case None => Deltas(0.0, Some(0.0), false)
    case Some(Percent(value)) => Deltas(PercentAmount(current, value) as real, Some(Abs(value)), value > 0.0)
    case Some(Absolute(value)) =>
      var amount := Abs(value - current);
      Deltas(amount, if current > 0.0 then Some(amount / current) else None, value > current)
  }

  predicate Exceeds(fraction: Option<real>, limit: real) { fraction.None? || fraction.value > limit }

  // ---- What each rule finds ----

  predicate Restricted(c: Constraints, change: ProposedChange) {
    change.accountId in c.protectedAccounts && change.action in c.excludedActions
  }

  predicate Protected(c: Constraints, change: ProposedChange, ctx: PolicyContext) {
    c.experimentProtection && ctx.activeExperiment && !CategoryOf(change.action).ExperimentCategory?
  }

  predicate NeedsEvidence(change: ProposedChange) {
    CategoryOf(change.action).BudgetCategory? || CategoryOf(change.action).PauseCategory?
  }

  predicate TooYoung(c: Constraints, change: ProposedChange, ctx: PolicyContext) {
    && CategoryOf(change.action).BudgetCategory? && ctx.maturity.Some?
    && MaturityOrder(ctx.maturity.value) < MaturityOrder(c.minState)
  }

  predicate TooSoon(c: Constraints, change: ProposedChange, ctx: PolicyContext) {
    && NeedsEvidence(change) && ctx.hoursSinceLastChange.Some?
    && ctx.hoursSinceLastChange.value
       < (if CategoryOf(change.action).BudgetCategory? then c.budgetCooldown else c.pauseCooldown)
  }

  predicate TooMuchSpend(c: Constraints, change: ProposedChange, ctx: PolicyContext) {
    var d := BudgetDeltas(change, ctx);
    d.increase && ctx.dailySpend as real + d.amount > c.dailySpendLimit as real
  }

  function TierOf(c: Constraints, change: ProposedChange): Tier {
    var category := CategoryOf(change.action);
    if category in c.automation then c.automation[category] else RequiresApproval
  }

  /** Whether a rule's condition for finding `code` holds. */
  predicate Finds(c: Constraints, change: ProposedChange, ctx: PolicyContext, code: Code) {
    var budget := CategoryOf(change.action).BudgetCategory?;
    match code
    case NoPolicy => false
    case AccountRestricted => Restricted(c, change)
    case ExperimentProtected => Protected(c, change, ctx)
    case MinEvidenceDays => NeedsEvidence(change) && ctx.evidenceDays < c.minDays
    case MinConversions => NeedsEvidence(change) && ctx.conversions < c.minConversions
    case MinSpend => NeedsEvidence(change) && ctx.spend < c.minSpend
    case MaturityTooLow => TooYoung(c, change, ctx)
    case Cooldown => TooSoon(c, change, ctx)
    case MaxBudgetDeltaPercent => budget && Exceeds(BudgetDeltas(change, ctx).fraction, c.maxPercent)
    case MaxBudgetDeltaAbsolute => budget && BudgetDeltas(change, ctx).amount > c.maxAbsolute as real
    case DailySpendLimit => budget && TooMuchSpend(c, change, ctx)
    case AutomationDisabled => TierOf(c, change) == Disabled
    case AutomationRequiresApproval => TierOf(c, change) == RequiresApproval
  }

  function LevelOf(code: Code): Level { if code == AutomationRequiresApproval then ApprovalLevel else DenyLevel }

  // ---- The verdict ----

  /** What one rule adds to the list. */
  function Finding(c: Constraints, change: ProposedChange, ctx: PolicyContext, code: Code): seq<Violation> {
    if Finds(c, change, ctx, code) then [Violation(code, LevelOf(code))] else []
  }

  /** The account and the entity's experiment. */
  function GuardFindings(c: Constraints, change: ProposedChange, ctx: PolicyContext): seq<Violation> {
    Finding(c, change, ctx, AccountRestricted) + Finding(c, change, ctx, ExperimentProtected)
  }

  /** The evidence, the campaign's maturity and the cooldown. */
  function EvidenceFindings(c: Constraints, change: ProposedChange, ctx: PolicyContext): seq<Violation> {
    Finding(c, change, ctx, MinEvidenceDays) + Finding(c, change, ctx, MinConversions)
    + Finding(c, change, ctx, MinSpend) + Finding(c, change, ctx, MaturityTooLow) + Finding(c, change, ctx, Cooldown)
  }

  /** The size of the change. */
  function LimitFindings(c: Constraints, change: ProposedChange, ctx: PolicyContext): seq<Violation> {
    Finding(c, change, ctx, MaxBudgetDeltaPercent) + Finding(c, change, ctx, MaxBudgetDeltaAbsolute)
    + Finding(c, change, ctx, DailySpendLimit)
  }

  /** The automation tier. */
  function TierFindings(c: Constraints, change: ProposedChange, ctx: PolicyContext): seq<Violation> {
    Finding(c, change, ctx, AutomationDisabled) + Finding(c, change, ctx, AutomationRequiresApproval)
  }

  predicate HasLevel(v: seq<Violation>, level: Level) { exists i :: 0 <= i < |v| && v[i].level == level }

  /** Any deny-level violation denies; otherwise any approval-level one asks for approval; otherwise allow. */
  function Verdict(v: seq<Violation>): Decision {
    if HasLevel(v, DenyLevel) then Deny else if HasLevel(v, ApprovalLevel) then NeedsApproval else Allow
  }

  function Evaluated(policy: OptimizationPolicy, change: ProposedChange, ctx: PolicyContext): PolicyEvaluation {
    var v := GuardFindings(policy.constraints, change, ctx) + EvidenceFindings(policy.constraints, change, ctx)
             + LimitFindings(policy.constraints, change, ctx) + TierFindings(policy.constraints, change, ctx);
    PolicyEvaluation(Verdict(v), v, Verdict(v) == NeedsApproval, policy.version)
  }

  method Evaluate(policy: OptimizationPolicy, change: ProposedChange, ctx: PolicyContext) returns (e: PolicyEvaluation)
    ensures e == Evaluated(policy, change, ctx)
  {
    hide GuardFindings, EvidenceFindings, LimitFindings, TierFindings;
    var guards := GuardViolations(policy.constraints, change, ctx);
    var evidence := EvidenceViolations(policy.constraints, change, ctx);
    var limits := LimitViolations(policy.constraints, change, ctx);
    var tier := TierViolations(policy.constraints, change, ctx);
    var v := guards + evidence + limits + tier;
    var hasDeny, hasApproval := HasLevel(v, DenyLevel), HasLevel(v, ApprovalLevel);
    var decision := if hasDeny then Deny else if hasApproval then NeedsApproval else Allow;
    e := PolicyEvaluation(decision, v, decision == NeedsApproval, policy.version);
  }

  method GuardViolations(c: Constraints, change: ProposedChange, ctx: PolicyContext) returns (v: seq<Violation>)
    ensures v == GuardFindings(c, change, ctx)
  {
    var category := CategoryOf(change.action);
    v := [];
    if change.accountId in c.protectedAccounts && change.action in c.excludedActions {
      v := v + [Violation(AccountRestricted, DenyLevel)];
    }
    assert v == Finding(c, change, ctx, AccountRestricted);
    ghost var w := v;
    if c.experimentProtection && ctx.activeExperiment
       && (category.BudgetCategory? || category.PauseCategory? || category.ActivateCategory?) {
      v := v + [Violation(ExperimentProtected, DenyLevel)];
    }
    assert v == w + Finding(c, change, ctx, ExperimentProtected);
  }

  method EvidenceViolations(c: Constraints, change: ProposedChange, ctx: PolicyContext) returns (v: seq<Violation>)
    ensures v == EvidenceFindings(c, change, ctx)
  {
    var category := CategoryOf(change.action);
    var impactful := category.BudgetCategory? || category.PauseCategory?;
    v := [];
    if impactful && ctx.evidenceDays < c.minDays { v := v + [Violation(MinEvidenceDays, DenyLevel)]; }
    assert v == Finding(c, change, ctx, MinEvidenceDays);
    ghost var w := v;
    if impactful && ctx.conversions < c.minConversions { v := v + [Violation(MinConversions, DenyLevel)]; }
    assert v == w + Finding(c, change, ctx, MinConversions);
    w := v;
    if impactful && ctx.spend < c.minSpend { v := v + [Violation(MinSpend, DenyLevel)]; }
    assert v == w + Finding(c, change, ctx, MinSpend);
    w := v;
    if category.BudgetCategory? && ctx.maturity.Some? {
      if MaturityOrder(ctx.maturity.value) < MaturityOrder(c.minState) {
        v := v + [Violation(MaturityTooLow, DenyLevel)];
      }
    }
    assert v == w + Finding(c, change, ctx, MaturityTooLow);
    w := v;
    if ctx.hoursSinceLastChange.Some? {
      var window := if category.BudgetCategory? then c.budgetCooldown else c.pauseCooldown;
      if impactful && ctx.hoursSinceLastChange.value < window { v := v + [Violation(Cooldown, DenyLevel)]; }
    }
    assert v == w + Finding(c, change, ctx, Cooldown);
  }

  method LimitViolations(c: Constraints, change: ProposedChange, ctx: PolicyContext) returns (v: seq<Violation>)
    ensures v == LimitFindings(c, change, ctx)
  {
    var category := CategoryOf(change.action);
    var d := BudgetDeltas(change, ctx);
    hide BudgetDeltas;
    v := [];
    if category.BudgetCategory? && (d.fraction.None? || d.fraction.value > c.maxPercent) {
      v := v + [Violation(MaxBudgetDeltaPercent, DenyLevel)];
    }
    assert v == Finding(c, change, ctx, MaxBudgetDeltaPercent);
    ghost var w := v;
    if category.BudgetCategory? && d.amount > c.maxAbsolute as real {
      v := v + [Violation(MaxBudgetDeltaAbsolute, DenyLevel)];
    }
    assert v == w + Finding(c, change, ctx, MaxBudgetDeltaAbsolute);
    w := v;
    if category.BudgetCategory? && d.increase && ctx.dailySpend as real + d.amount > c.dailySpendLimit as real {
      v := v + [Violation(DailySpendLimit, DenyLevel)];
    }
    assert v == w + Finding(c, change, ctx, DailySpendLimit);
  }

  method TierViolations(c: Constraints, change: ProposedChange, ctx: PolicyContext) returns (v: seq<Violation>)
    ensures v == TierFindings(c, change, ctx)
  {
    var category := CategoryOf(change.action);
    v := [];
    var tier := if category in c.automation then c.automation[category] else RequiresApproval;
    if tier == Disabled {
      v := v + [Violation(AutomationDisabled, DenyLevel)];
    } else if tier == RequiresApproval {
      v := v + [Violation(AutomationRequiresApproval, ApprovalLevel)];
    }
  }

  // ---- What a verdict says ----

  predicate IsDenied(c: Constraints, change: ProposedChange, ctx: PolicyContext) {
    exists code :: LevelOf(code) == DenyLevel && Finds(c, change, ctx, code)
  }

  lemma FindingIsExact(c: Constraints, change: ProposedChange, ctx: PolicyContext, code: Code, x: Violation)
    ensures x in Finding(c, change, ctx, code) <==> x == Violation(code, LevelOf(code)) && Finds(c, change, ctx, code)
  {
  }

  /** The list names exactly what the rules find, each with its level. */
  lemma ViolationsAreExact(policy: OptimizationPolicy, change: ProposedChange, ctx: PolicyContext, x: Violation)
    ensures x in Evaluated(policy, change, ctx).violations
       <==> x.level == LevelOf(x.code) && Finds(policy.constraints, change, ctx, x.code)
  {
    hide Finds, Finding, LevelOf;
    var c := policy.constraints;
    FindingIsExact(c, change, ctx, x.code, x);
    forall code ensures x in Finding(c, change, ctx, code) ==> code == x.code {
      FindingIsExact(c, change, ctx, code, x);
    }
    if x.code == NoPolicy { NoRuleForNoPolicy(c, change, ctx); }
  }

  lemma NoRuleForNoPolicy(c: Constraints, change: ProposedChange, ctx: PolicyContext)
    ensures Finding(c, change, ctx, NoPolicy) == []
  {
  }

  /** Precedence: any deny-level finding denies; otherwise the automation tier alone decides. */
  lemma VerdictIsExact(policy: OptimizationPolicy, change: ProposedChange, ctx: PolicyContext)
    ensures var e := Evaluated(policy, change, ctx);
      && (e.decision == Deny <==> IsDenied(policy.constraints, change, ctx))
      && (e.decision == Allow <==>
            !IsDenied(policy.constraints, change, ctx) && TierOf(policy.constraints, change) == Auto)
      && (e.requiresApproval <==> e.decision == NeedsApproval)
  {
    var c, e := policy.constraints, Evaluated(policy, change, ctx);
    TierFacts(c, change, ctx);
    DecisionIsVerdict(policy, change, ctx);
    hide Finds, LevelOf, Evaluated;
    forall code ensures Finds(c, change, ctx, code) <==> Violation(code, LevelOf(code)) in e.violations {
      ViolationsAreExact(policy, change, ctx, Violation(code, LevelOf(code)));
    }
    forall i | 0 <= i < |e.violations|
      ensures Finds(c, change, ctx, e.violations[i].code) && e.violations[i].level == LevelOf(e.violations[i].code)
    {
      ViolationsAreExact(policy, change, ctx, e.violations[i]);
    }
  }

  lemma TierFacts(c: Constraints, change: ProposedChange, ctx: PolicyContext)
    ensures TierOf(c, change) == Disabled <==> Finds(c, change, ctx, AutomationDisabled)
    ensures TierOf(c, change) == RequiresApproval <==> Finds(c, change, ctx, AutomationRequiresApproval)
    ensures LevelOf(AutomationDisabled) == DenyLevel
    ensures forall code :: LevelOf(code) == ApprovalLevel <==> code == AutomationRequiresApproval
  {
  }

  lemma DecisionIsVerdict(policy: OptimizationPolicy, change: ProposedChange, ctx: PolicyContext)
    ensures var e := Evaluated(policy, change, ctx);
      e.decision == Verdict(e.violations) && e.requiresApproval == (e.decision == NeedsApproval)
  {
  }

  function Permissiveness(d: Decision): nat {
    match d
    case Deny => 0
    case NeedsApproval => 1
    case Allow => 2
  }

  function TierRank(t: Tier): nat {
    match t
    case Disabled => 0
    case RequiresApproval => 1
    case Auto => 2
  }

  /** Every limit of `c` is at least as tight as that of `d`. */
  ghost predicate Stricter(c: Constraints, d: Constraints) {
    && c.maxPercent <= d.maxPercent && c.maxAbsolute <= d.maxAbsolute && c.dailySpendLimit <= d.dailySpendLimit
    && c.minDays >= d.minDays && c.minConversions >= d.minConversions && c.minSpend >= d.minSpend
    && c.budgetCooldown >= d.budgetCooldown && c.pauseCooldown >= d.pauseCooldown
    && MaturityOrder(c.minState) >= MaturityOrder(d.minState)
    && c.protectedAccounts >= d.protectedAccounts && c.excludedActions >= d.excludedActions
    && (d.experimentProtection ==> c.experimentProtection)
    && (forall change :: TierRank(TierOf(c, change)) <= TierRank(TierOf(d, change)))
  }

  lemma StricterFindsMore(c: Constraints, d: Constraints, change: ProposedChange, ctx: PolicyContext, code: Code)
    requires Stricter(c, d) && LevelOf(code) == DenyLevel && Finds(d, change, ctx, code)
    ensures Finds(c, change, ctx, code)
  {
    hide BudgetDeltas;
  }

  /** Tightening a policy never makes it permit more. */
  lemma StricterNeverPermitsMore(
    strict: OptimizationPolicy, lax: OptimizationPolicy, change: ProposedChange, ctx: PolicyContext)
    requires Stricter(strict.constraints, lax.constraints)
    ensures Permissiveness(Evaluated(strict, change, ctx).decision)
         <= Permissiveness(Evaluated(lax, change, ctx).decision)
  {
    VerdictIsExact(strict, change, ctx);
    VerdictIsExact(lax, change, ctx);
    assert TierRank(TierOf(strict.constraints, change)) <= TierRank(TierOf(lax.constraints, change));
    hide Evaluated, Finds, LevelOf, TierOf;
    if IsDenied(lax.constraints, change, ctx) {
      var code :| LevelOf(code) == DenyLevel && Finds(lax.constraints, change, ctx, code);
      StricterFindsMore(strict.constraints, lax.constraints, change, ctx, code);
    }
  }

  // ---- The size of what is permitted ----

  function PercentTarget(current: real, value: real): int { Round(current * (1.0 + value)) }

  /** The absolute target a change resolves to from a current budget. */
  function Target(change: BudgetChange, current: real): int {
    match change
    case Percent(value) => PercentTarget(current, value)
    case Absolute(value) => Round(value)
  }

  predicate Bounded(c: Constraints, ctx: PolicyContext, current: int, target: int) {
    && -c.maxAbsolute <= target - current <= c.maxAbsolute
    && (target > current ==> ctx.dailySpend + (target - current) <= c.dailySpendLimit)
  }

  /** The rounded signed move of a percentage change. */
  function PercentMove(current: real, value: real): int { Round(current * value) }

  lemma TargetMoves(current: nat, value: real)
    ensures PercentTarget(current as real, value) == current + PercentMove(current as real, value)
  {
    assert current as real * (1.0 + value) == current as real + current as real * value;
    RoundShifts(current, current as real * value);
  }

  /** The move never exceeds the checked amount in size, and equals it upward. */
  lemma MoveWithinAmount(current: real, value: real)
    requires current >= 0.0
    ensures -PercentAmount(current, value) <= PercentMove(current, value) <= PercentAmount(current, value)
    ensures PercentMove(current, value) > 0 ==>
              value > 0.0 && PercentMove(current, value) == PercentAmount(current, value)
  {
    var x := current * value;
    if value <= 0.0 {
      assert x <= 0.0;
      RoundOfOpposite(-x);
    } else {
      assert x >= 0.0;
      RoundOfInteger(0);
      RoundIsMonotone(0.0, x);
    }
  }

  lemma IntegerBound(x: real, n: int)
    requires x <= n as real
    ensures Round(x) <= n
  {
    RoundIsMonotone(x, n as real);
    RoundOfInteger(n);
  }

  lemma AbsoluteMove(value: real, current: int, bound: int)
    requires Abs(value - current as real) <= bound as real
    ensures -bound <= Round(value) - current <= bound
  {
    IntegerBound(value, current + bound);
    RoundIsMonotone((current - bound) as real, value);
    RoundOfInteger(current - bound);
  }

  lemma NotDeniedLimits(policy: OptimizationPolicy, change: ProposedChange, ctx: PolicyContext)
    requires change.action == UpdateBudget && Evaluated(policy, change, ctx).decision != Deny
    ensures var d := BudgetDeltas(change, ctx);
      && d.fraction.Some? && d.fraction.value <= policy.constraints.maxPercent
      && d.amount <= policy.constraints.maxAbsolute as real
      && (d.increase ==> ctx.dailySpend as real + d.amount <= policy.constraints.dailySpendLimit as real)
  {
    var c := policy.constraints;
    VerdictIsExact(policy, change, ctx);
    hide Evaluated, BudgetDeltas;
    assert !Finds(c, change, ctx, MaxBudgetDeltaPercent) by { assert LevelOf(MaxBudgetDeltaPercent) == DenyLevel; }
    assert !Finds(c, change, ctx, MaxBudgetDeltaAbsolute) by { assert LevelOf(MaxBudgetDeltaAbsolute) == DenyLevel; }
    assert !Finds(c, change, ctx, DailySpendLimit) by { assert LevelOf(DailySpendLimit) == DenyLevel; }
  }

  /**
    The checked change bounds the real write. If the engine does not deny a budget change, the rounded target
    differs from the context's budget by at most `max_absolute`, and an increase keeps the daily spend within
    its limit: for both kinds of change, of either sign.
   */
  lemma PermittedTargetIsBounded(policy: OptimizationPolicy, change: ProposedChange, ctx: PolicyContext)
    requires change.action == UpdateBudget && change.budgetChange.Some?
    requires Evaluated(policy, change, ctx).decision != Deny
    ensures Bounded(policy.constraints, ctx, CurrentOf(ctx), Target(change.budgetChange.value, CurrentOf(ctx) as real))
  {
    hide Evaluated, Target, PercentAmount;
    NotDeniedLimits(policy, change, ctx);
    var c := policy.constraints;
    match change.budgetChange.value
    case Percent(value) => PercentBounded(value, CurrentOf(ctx), ctx.dailySpend, c.maxAbsolute, c.dailySpendLimit);
    case Absolute(value) => AbsoluteBounded(value, CurrentOf(ctx), ctx.dailySpend, c.maxAbsolute, c.dailySpendLimit);
  }

  lemma PercentBounded(value: real, current: nat, spend: nat, maxAbsolute: int, limit: int)
    requires PercentAmount(current as real, value) <= maxAbsolute
    requires value > 0.0 ==> spend + PercentAmount(current as real, value) <= limit
    ensures var target := Target(Percent(value), current as real);
      -maxAbsolute <= target - current <= maxAbsolute && (target > current ==> spend + (target - current) <= limit)
  {
    hide PercentTarget, PercentMove, PercentAmount;
    TargetMoves(current, value);
    MoveWithinAmount(current as real, value);
  }

  lemma AbsoluteBounded(value: real, current: nat, spend: nat, maxAbsolute: int, limit: int)
    requires Abs(value - current as real) <= maxAbsolute as real
    requires value > current as real ==> spend as real + Abs(value - current as real) <= limit as real
    ensures var target := Target(Absolute(value), current as real);
      -maxAbsolute <= target - current <= maxAbsolute && (target > current ==> spend + (target - current) <= limit)
  {
    AbsoluteMove(value, current, maxAbsolute);
    if value > current as real {
      AbsoluteMove(value, current, limit - spend);
    } else {
      IntegerBound(value, current);
    }
  }

  /** An absolute change is denied whenever the entity has no budget or a budget of 0: its fraction is infinite. */
  lemma AbsoluteNeedsBudget(policy: OptimizationPolicy, change: ProposedChange, ctx: PolicyContext)
    requires change.action == UpdateBudget && change.budgetChange.Some? && change.budgetChange.value.Absolute?
    requires CurrentOf(ctx) == 0
    ensures Evaluated(policy, change, ctx).decision == Deny
  {
    VerdictIsExact(policy, change, ctx);
    assert Finds(policy.constraints, change, ctx, MaxBudgetDeltaPercent) && LevelOf(MaxBudgetDeltaPercent) == DenyLevel;
  }

  // ---- The engine and the tools that ask it ----

  /** A missing policy denies. */
  function Decided(policy: Option<OptimizationPolicy>, change: ProposedChange, ctx: PolicyContext): PolicyEvaluation {
    match policy
    case None => PolicyEvaluation(Deny, [Violation(NoPolicy, DenyLevel)], false, 0)
    case Some(p) => Evaluated(p, change, ctx)
  }

  method Decide(policy: Option<OptimizationPolicy>, change: ProposedChange, ctx: PolicyContext)
    returns (e: PolicyEvaluation)
    ensures e == Decided(policy, change, ctx)
  {
    if policy.None? {
      return PolicyEvaluation(Deny, [Violation(NoPolicy, DenyLevel)], false, 0);
    }
    e := Evaluate(policy.value, change, ctx);
  }

  datatype RequestStatus = RejectedByPolicy | PendingApproval | Queued

  datatype WriteResult = WriteResult(status: RequestStatus, actionId: Option<string>, evaluation: PolicyEvaluation)

  function StatusFor(d: Decision): RequestStatus {
    match d
    case Deny => RejectedByPolicy
    case NeedsApproval => PendingApproval
    case Allow => Queued
  }

  /** A write tool only requests: a rejected change gets no action id, an automatic one is merely queued. */
  method Gate(policy: Option<OptimizationPolicy>, change: ProposedChange, ctx: PolicyContext, newId: string)
    returns (r: WriteResult)
    ensures r.evaluation == Decided(policy, change, ctx)
    ensures r.actionId == (if r.evaluation.decision == Deny then None else Some(newId))
    ensures r.status == Queued <==> IsClear(policy, change, ctx) && TierOf(policy.value.constraints, change) == Auto
    ensures r.status == PendingApproval <==>
              IsClear(policy, change, ctx) && TierOf(policy.value.constraints, change) == RequiresApproval
  {
    var e := Decide(policy, change, ctx);
    VerdictByTier(policy, change, ctx);
    hide Decided, IsClear;
    var status := StatusFor(e.decision);
    r := WriteResult(status, if status == RejectedByPolicy then None else Some(newId), e);
  }

  /** There is a policy, and none of its rules denies. */
  ghost predicate IsClear(policy: Option<OptimizationPolicy>, change: ProposedChange, ctx: PolicyContext) {
    policy.Some? && !IsDenied(policy.value.constraints, change, ctx)
  }

  lemma VerdictByTier(policy: Option<OptimizationPolicy>, change: ProposedChange, ctx: PolicyContext)
    ensures var decision := Decided(policy, change, ctx).decision;
      && (decision == Allow <==> IsClear(policy, change, ctx) && TierOf(policy.value.constraints, change) == Auto)
      && (decision == NeedsApproval <==>
            IsClear(policy, change, ctx) && TierOf(policy.value.constraints, change) == RequiresApproval)
  {
    if policy.Some? {
      VerdictIsExact(policy.value, change, ctx);
      TierFacts(policy.value.constraints, change, ctx);
      hide Evaluated, Finds;
    }
  }

  function ChangeRatio(proposed: int, current: int): real
    requires current != 0
  {
    (proposed - current) as real / current as real
  }

  datatype Preview = Preview(
    current: Option<int>, proposed: Option<int>, deltaPercent: real, evaluation: PolicyEvaluation)

  method PreviewBudgetChange(
    policy: Option<OptimizationPolicy>, bc: BudgetChange, accountId: string, ctx: PolicyContext)
    returns (p: Preview)
    ensures ctx.currentBudget.None? ==> p.current.None? && p.proposed.None? && p.deltaPercent == 0.0
    ensures ctx.currentBudget.Some? ==>
              && p.current == Some(ctx.currentBudget.value)
              && p.proposed == Some(Target(bc, ctx.currentBudget.value as real))
    ensures bc.Percent? && ctx.currentBudget.Some? ==> p.deltaPercent == bc.value
    ensures bc.Absolute? && ctx.currentBudget.Some? ==>
              p.deltaPercent == if p.current.value == 0 then 0.0 else ChangeRatio(p.proposed.value, p.current.value)
    ensures p.evaluation == Decided(policy, ProposedChange(UpdateBudget, accountId, Some(bc)), ctx)
    ensures p.evaluation.decision != Deny && p.proposed.Some? ==>
              policy.Some? && Bounded(policy.value.constraints, ctx, p.current.value, p.proposed.value)
  {
    var change := ProposedChange(UpdateBudget, accountId, Some(bc));
    var proposed: Option<int>, deltaPercent := None, 0.0;
    if ctx.currentBudget.Some? {
      var current := ctx.currentBudget.value;
      match bc {
        case Percent(value) =>
          proposed := Some(PercentTarget(current as real, value));
          deltaPercent := value;
        case Absolute(value) =>
          proposed := Some(Round(value));
          deltaPercent := if current > 0 then ChangeRatio(Round(value), current) else 0.0;
      }
    }
    hide Evaluated, PercentTarget, Round;
    var e := Decide(policy, change, ctx);
    if e.decision != Deny && policy.Some? { PermittedTargetIsBounded(policy.value, change, ctx); }
    p := Preview(if ctx.currentBudget.Some? then Some(ctx.currentBudget.value) else None, proposed, deltaPercent, e);
  }
}
