/**
  Each rule of the policy engine in terms of the fields of the policy, the change and the context: when it is
  listed, at which level, and in which place.
 */
module PolicyRules {
  import opened Wrappers
  import opened Reals
  import opened Rounding
  import opened Policy

  ghost predicate Lists(
    policy: OptimizationPolicy, change: ProposedChange, ctx: PolicyContext, code: Code, level: Level)
  {
    Violation(code, level) in Evaluated(policy, change, ctx).violations
  }

  lemma ListsFindings(policy: OptimizationPolicy, change: ProposedChange, ctx: PolicyContext, code: Code, level: Level)
    ensures Lists(policy, change, ctx, code, level)
       <==> level == LevelOf(code) && Finds(policy.constraints, change, ctx, code)
  {
    ViolationsAreExact(policy, change, ctx, Violation(code, level));
  }

  /** The actions whose evidence, and whose distance from the last change, matter. */
  predicate Impactful(action: ActionType) { action in {UpdateBudget, PauseAd, PauseAdset, PauseCampaign} }

  /**
    An excluded action on a protected account is denied; so is any action but a new experiment on an entity under
    an active one.
   */
  lemma GuardRules(policy: OptimizationPolicy, change: ProposedChange, ctx: PolicyContext, level: Level)
    ensures var c := policy.constraints;
      && (Lists(policy, change, ctx, AccountRestricted, level)
          <==> level == DenyLevel && change.accountId in c.protectedAccounts && change.action in c.excludedActions)
      && (Lists(policy, change, ctx, ExperimentProtected, level)
          <==> && level == DenyLevel && c.experimentProtection && ctx.activeExperiment
               && change.action != CreateExperiment)
  {
    ListsFindings(policy, change, ctx, AccountRestricted, level);
    ListsFindings(policy, change, ctx, ExperimentProtected, level);
    hide Lists;
  }

  /** A budget change or a pause is denied on too few days, conversions or too little spend; nothing else is. */
  lemma EvidenceRules(policy: OptimizationPolicy, change: ProposedChange, ctx: PolicyContext, level: Level)
    ensures var c, applies := policy.constraints, level == DenyLevel && Impactful(change.action);
      && (Lists(policy, change, ctx, MinEvidenceDays, level) <==> applies && ctx.evidenceDays < c.minDays)
      && (Lists(policy, change, ctx, MinConversions, level) <==> applies && ctx.conversions < c.minConversions)
      && (Lists(policy, change, ctx, MinSpend, level) <==> applies && ctx.spend < c.minSpend)
  {
    ListsFindings(policy, change, ctx, MinEvidenceDays, level);
    ListsFindings(policy, change, ctx, MinConversions, level);
    ListsFindings(policy, change, ctx, MinSpend, level);
    hide Lists;
  }

  /** "learning" comes before "stabilizing", and that before "mature". */
  predicate Earlier(s: CampaignState, t: CampaignState) {
    (s == Learning && t != Learning) || (s == Stabilizing && t == Mature)
  }

  /** A budget change is denied on a campaign known to be in an earlier state than the policy asks for. */
  lemma MaturityRule(policy: OptimizationPolicy, change: ProposedChange, ctx: PolicyContext, level: Level)
    ensures Lists(policy, change, ctx, MaturityTooLow, level)
       <==> && level == DenyLevel && change.action == UpdateBudget && ctx.maturity.Some?
            && Earlier(ctx.maturity.value, policy.constraints.minState)
  {
    ListsFindings(policy, change, ctx, MaturityTooLow, level);
    hide Lists;
  }

  /**
    The budget cooldown is asked of budget changes only and the pause cooldown of pauses only; an unknown last change
    violates neither.
   */
  lemma CooldownRule(policy: OptimizationPolicy, change: ProposedChange, ctx: PolicyContext, level: Level)
    ensures var c, hours := policy.constraints, ctx.hoursSinceLastChange;
      Lists(policy, change, ctx, Cooldown, level)
      <==> && level == DenyLevel && hours.Some?
           && ((change.action == UpdateBudget && hours.value < c.budgetCooldown)
               || (change.action in {PauseAd, PauseAdset, PauseCampaign} && hours.value < c.pauseCooldown))
  {
    ListsFindings(policy, change, ctx, Cooldown, level);
    hide Lists;
  }

  /** The fraction by which a budget changes is above the limit; from no budget any absolute change is. */
  predicate FractionAbove(change: Option<BudgetChange>, current: int, limit: real) {
    match change
    case None => limit < 0.0
    case Some(Percent(value)) => value > limit || -value > limit
    case Some(Absolute(value)) => current <= 0 || Abs(value - current as real) > Times(limit, current as real)
  }

  /** The amount by which a budget changes is above the limit; a percentage counts as the nearest whole amount. */
  predicate AmountAbove(change: Option<BudgetChange>, current: int, limit: int) {
    match change
    case None => limit < 0
    case Some(Percent(value)) => Abs(Times(current as real, value)) >= limit as real + 0.5
    case Some(Absolute(value)) => Abs(value - current as real) > limit as real
  }

  predicate Raises(change: Option<BudgetChange>, current: int) {
    match change
    case None => false
    case Some(Percent(value)) => value > 0.0
    case Some(Absolute(value)) => value > current as real
  }

  lemma RoundExceeds(x: real, n: int)
    ensures Round(x) > n <==> x >= n as real + 0.5
  {
    NearestInteger(x);
  }

  lemma QuotientExceeds(x: real, current: int, limit: real)
    requires current > 0
    ensures x / current as real > limit <==> x > Times(limit, current as real)
  {
    var q := x / current as real;
    assert q * current as real == x;
    OrderKept(q, limit, current as real);
  }

  lemma DeltasSay(change: ProposedChange, ctx: PolicyContext, limit: real, bound: int)
    ensures var d, current := BudgetDeltas(change, ctx), if ctx.currentBudget.Some? then ctx.currentBudget.value else 0;
      && (Exceeds(d.fraction, limit) <==> FractionAbove(change.budgetChange, current, limit))
      && (d.amount > bound as real <==> AmountAbove(change.budgetChange, current, bound))
      && (d.increase <==> Raises(change.budgetChange, current))
  {
    var current := if ctx.currentBudget.Some? then ctx.currentBudget.value else 0;
    match change.budgetChange
    case None =>
    case Some(Percent(value)) =>
      assert current as real * value == Times(current as real, value);
      RoundExceeds(Abs(Times(current as real, value)), bound);
      assert PercentAmount(current as real, value) as real > bound as real
        <==> PercentAmount(current as real, value) > bound;
    case Some(Absolute(value)) =>
      if current > 0 { QuotientExceeds(Abs(value - current as real), current, limit); }
  }

  /** A budget change is denied when its fraction, its amount, or the daily spend an increase leads to is too large. */
  lemma LimitRules(policy: OptimizationPolicy, change: ProposedChange, ctx: PolicyContext, level: Level)
    ensures var c, current := policy.constraints, if ctx.currentBudget.Some? then ctx.currentBudget.value else 0;
      var applies := level == DenyLevel && change.action == UpdateBudget;
      && (Lists(policy, change, ctx, MaxBudgetDeltaPercent, level)
          <==> applies && FractionAbove(change.budgetChange, current, c.maxPercent))
      && (Lists(policy, change, ctx, MaxBudgetDeltaAbsolute, level)
          <==> applies && AmountAbove(change.budgetChange, current, c.maxAbsolute))
      && (Lists(policy, change, ctx, DailySpendLimit, level)
          <==> && applies && Raises(change.budgetChange, current)
               && AmountAbove(change.budgetChange, current, c.dailySpendLimit - ctx.dailySpend))
  {
    ListsFindings(policy, change, ctx, MaxBudgetDeltaPercent, level);
    ListsFindings(policy, change, ctx, MaxBudgetDeltaAbsolute, level);
    ListsFindings(policy, change, ctx, DailySpendLimit, level);
    DeltasSay(change, ctx, policy.constraints.maxPercent, policy.constraints.maxAbsolute);
    DeltasSay(change, ctx, policy.constraints.maxPercent, policy.constraints.dailySpendLimit - ctx.dailySpend);
    hide Lists, BudgetDeltas, FractionAbove, AmountAbove, Raises, Exceeds;
  }

  predicate IsOf(action: ActionType, category: Category) {
    match category
    case BudgetCategory => action == UpdateBudget
    case PauseCategory => action in {PauseAd, PauseAdset, PauseCampaign}
    case ActivateCategory => action in {ActivateAd, ActivateAdset, ActivateCampaign}
    case ExperimentCategory => action == CreateExperiment
  }

  /** The automation tier of the action's category: an unset one asks for approval. */
  lemma TierRules(
    policy: OptimizationPolicy, change: ProposedChange, ctx: PolicyContext, level: Level, category: Category)
    requires IsOf(change.action, category)
    ensures var tiers := policy.constraints.automation;
      && (Lists(policy, change, ctx, AutomationDisabled, level)
          <==> level == DenyLevel && category in tiers && tiers[category] == Disabled)
      && (Lists(policy, change, ctx, AutomationRequiresApproval, level)
          <==> level == ApprovalLevel && (category in tiers ==> tiers[category] == RequiresApproval))
      && !Lists(policy, change, ctx, NoPolicy, level)
  {
    ListsFindings(policy, change, ctx, AutomationDisabled, level);
    ListsFindings(policy, change, ctx, AutomationRequiresApproval, level);
    ListsFindings(policy, change, ctx, NoPolicy, level);
    hide Lists;
  }

  // ---- The order of the list ----

  /** The place of each rule. */
  function Place(code: Code): nat {
    match code
    case NoPolicy => 0
    case AccountRestricted => 1
    case ExperimentProtected => 2
    case MinEvidenceDays => 3
    case MinConversions => 4
    case MinSpend => 5
    case MaturityTooLow => 6
    case Cooldown => 7
    case MaxBudgetDeltaPercent => 8
    case MaxBudgetDeltaAbsolute => 9
    case DailySpendLimit => 10
    case AutomationDisabled => 11
    case AutomationRequiresApproval => 12
  }

  ghost predicate InPlace(v: seq<Violation>, from: nat, to: nat) {
    && (forall i :: 0 <= i < |v| ==> from < Place(v[i].code) <= to)
    && (forall i, j :: 0 <= i < j < |v| ==> Place(v[i].code) < Place(v[j].code))
  }

  lemma PlacedOneByOne(v: seq<Violation>, w: seq<Violation>, from: nat, mid: nat, to: nat)
    requires InPlace(v, from, mid) && InPlace(w, mid, to) && from <= mid <= to
    ensures InPlace(v + w, from, to)
  {
    hide Place;
  }

  lemma FindingInPlace(c: Constraints, change: ProposedChange, ctx: PolicyContext, code: Code, from: nat)
    requires from + 1 == Place(code)
    ensures InPlace(Finding(c, change, ctx, code), from, from + 1)
  {
    hide Finds;
  }

  /** The list keeps the order of the rules and names each rule once, so its members determine it. */
  lemma ViolationsInOrder(policy: OptimizationPolicy, change: ProposedChange, ctx: PolicyContext)
    ensures InPlace(Evaluated(policy, change, ctx).violations, 0, 12)
  {
    var c := policy.constraints;
    GroupsInPlace(c, change, ctx);
    hide InPlace, GuardFindings, EvidenceFindings, LimitFindings, TierFindings;
    PlacedOneByOne(GuardFindings(c, change, ctx), EvidenceFindings(c, change, ctx), 0, 2, 7);
    PlacedOneByOne(GuardFindings(c, change, ctx) + EvidenceFindings(c, change, ctx), LimitFindings(c, change, ctx),
                   0, 7, 10);
    PlacedOneByOne(
      GuardFindings(c, change, ctx) + EvidenceFindings(c, change, ctx) + LimitFindings(c, change, ctx),
      TierFindings(c, change, ctx), 0, 10, 12);
  }

  lemma FindingAdded(
    c: Constraints, change: ProposedChange, ctx: PolicyContext, v: seq<Violation>, code: Code, from: nat, to: nat)
    requires InPlace(v, from, to) && from <= to && Place(code) == to + 1
    ensures InPlace(v + Finding(c, change, ctx, code), from, to + 1)
  {
    FindingInPlace(c, change, ctx, code, to);
    hide InPlace, Finding;
    PlacedOneByOne(v, Finding(c, change, ctx, code), from, to, to + 1);
  }

  lemma GroupsInPlace(c: Constraints, change: ProposedChange, ctx: PolicyContext)
    ensures InPlace(GuardFindings(c, change, ctx), 0, 2) && InPlace(EvidenceFindings(c, change, ctx), 2, 7)
    ensures InPlace(LimitFindings(c, change, ctx), 7, 10) && InPlace(TierFindings(c, change, ctx), 10, 12)
  {
    hide InPlace, Finding, EvidenceFindings;
    FindingInPlace(c, change, ctx, AccountRestricted, 0);
    FindingAdded(c, change, ctx, Finding(c, change, ctx, AccountRestricted), ExperimentProtected, 0, 1);
    EvidenceInPlace(c, change, ctx);
    FindingInPlace(c, change, ctx, MaxBudgetDeltaPercent, 7);
    var v := Finding(c, change, ctx, MaxBudgetDeltaPercent);
    FindingAdded(c, change, ctx, v, MaxBudgetDeltaAbsolute, 7, 8);
    FindingAdded(c, change, ctx, v + Finding(c, change, ctx, MaxBudgetDeltaAbsolute), DailySpendLimit, 7, 9);
    FindingInPlace(c, change, ctx, AutomationDisabled, 10);
    FindingAdded(c, change, ctx, Finding(c, change, ctx, AutomationDisabled), AutomationRequiresApproval, 10, 11);
  }

  lemma EvidenceInPlace(c: Constraints, change: ProposedChange, ctx: PolicyContext)
    ensures InPlace(EvidenceFindings(c, change, ctx), 2, 7)
  {
    hide InPlace, Finding;
    FindingInPlace(c, change, ctx, MinEvidenceDays, 2);
    var v := Finding(c, change, ctx, MinEvidenceDays);
    FindingAdded(c, change, ctx, v, MinConversions, 2, 3);
    v := v + Finding(c, change, ctx, MinConversions);
    FindingAdded(c, change, ctx, v, MinSpend, 2, 4);
    v := v + Finding(c, change, ctx, MinSpend);
    FindingAdded(c, change, ctx, v, MaturityTooLow, 2, 5);
    v := v + Finding(c, change, ctx, MaturityTooLow);
    FindingAdded(c, change, ctx, v, Cooldown, 2, 6);
  }

  /** Two evaluations that list the same violations list them in the same order. */
  lemma {:induction false} PlacedAreEqual(v: seq<Violation>, w: seq<Violation>, from: nat, to: nat)
    requires InPlace(v, from, to) && InPlace(w, from, to)
    requires forall x :: x in v <==> x in w
    ensures v == w
    decreases |v|
  {
    assert v != [] ==> v[0] in w;
    assert w != [] ==> w[0] in v;
    if v != [] && w != [] {
      SameHead(v, w, from, to);
      var x := v[0];
      forall y ensures y in v[1..] <==> y in w[1..] {
        assert y in v[1..] ==> y in v && Place(y.code) > Place(x.code);
        assert y in w[1..] ==> y in w && Place(y.code) > Place(x.code);
      }
      PlacedAreEqual(v[1..], w[1..], from, to);
    }
  }

  lemma SameHead(v: seq<Violation>, w: seq<Violation>, from: nat, to: nat)
    requires InPlace(v, from, to) && InPlace(w, from, to) && v != [] && w != []
    requires forall x :: x in v <==> x in w
    ensures v[0] == w[0]
  {
    assert v[0] in w && w[0] in v;
    var i :| 0 <= i < |w| && w[i] == v[0];
    var j :| 0 <= j < |v| && v[j] == w[0];
    hide Place;
  }

  // ---- The verdict, the missing policy, and the target ----

  /**
    The verdict by its list: any deny-level entry denies; otherwise an entry for the tier asks for approval; otherwise
    it allows. It carries the policy's version. Without a policy there is one entry, which denies, and version 0.
   */
  lemma VerdictFollowsList(policy: Option<OptimizationPolicy>, change: ProposedChange, ctx: PolicyContext)
    ensures var e := Decided(policy, change, ctx);
      && (e.decision == Deny <==> exists x :: x in e.violations && x.level == DenyLevel)
      && (e.decision == NeedsApproval
          <==> e.violations == [Violation(AutomationRequiresApproval, ApprovalLevel)])
      && (e.decision == Allow <==> e.violations == [])
      && e.requiresApproval == (e.decision == NeedsApproval)
      && (policy.None? ==> e.violations == [Violation(NoPolicy, DenyLevel)] && e.policyVersion == 0)
      && (policy.Some? ==> e.policyVersion == policy.value.version)
  {
    if policy.Some? {
      DecisionIsVerdict(policy.value, change, ctx);
      VersionIsCarried(policy.value, change, ctx);
      ListedLevels(policy.value, change, ctx);
      ViolationsInOrder(policy.value, change, ctx);
      hide Evaluated, InPlace;
      VerdictOfList(Evaluated(policy.value, change, ctx).violations);
    }
  }

  lemma ListedLevels(policy: OptimizationPolicy, change: ProposedChange, ctx: PolicyContext)
    ensures forall x :: x in Evaluated(policy, change, ctx).violations ==>
              x.level == DenyLevel || x == Violation(AutomationRequiresApproval, ApprovalLevel)
  {
    forall x | x in Evaluated(policy, change, ctx).violations
      ensures x.level == DenyLevel || x == Violation(AutomationRequiresApproval, ApprovalLevel)
    {
      ViolationsAreExact(policy, change, ctx, x);
      hide Evaluated, Finds;
    }
  }

  lemma VerdictOfList(v: seq<Violation>)
    requires InPlace(v, 0, 12)
    requires forall x :: x in v ==> x.level == DenyLevel || x == Violation(AutomationRequiresApproval, ApprovalLevel)
    ensures Verdict(v) == Deny <==> exists x :: x in v && x.level == DenyLevel
    ensures Verdict(v) == NeedsApproval <==> v == [Violation(AutomationRequiresApproval, ApprovalLevel)]
    ensures Verdict(v) == Allow <==> v == []
  {
    hide Place;
    assert forall i :: 0 <= i < |v| ==> v[i] in v;
    assert |v| >= 2 ==> Place(v[0].code) < Place(v[1].code);
    if v != [] && v[0].level == ApprovalLevel && |v| == 1 { assert v == [v[0]]; }
  }

  lemma VersionIsCarried(policy: OptimizationPolicy, change: ProposedChange, ctx: PolicyContext)
    ensures Evaluated(policy, change, ctx).policyVersion == policy.version
  {
  }

  /** A change resolves to the whole number nearest to the asked budget, halves going up. */
  lemma TargetIsNearest(change: BudgetChange, current: real)
    ensures var t := Target(change, current) as real;
      match change
      case Absolute(value) => t - 0.5 <= value < t + 0.5
      case Percent(value) => t - 0.5 <= current + Times(current, value) < t + 0.5
  {
    if change.Percent? { assert current * (1.0 + change.value) == current + Times(current, change.value); }
  }
}
