/**
  Cohort scoring (services/benchmark-engine/src/cohort.ts): every candidate other than the subject is given
  a similarity and an influence, and the members are sorted by descending influence.

  `norm` stands for trimming and lower-casing a context value, `decay` for x -> 0.5^x.
 */
module Cohort {
  import opened Wrappers
  import opened Sorting
  import opened Reals
  import opened Similarity

  datatype EntityRef = EntityRef(kind: string, id: string)

  type Context = map<string, string>

  datatype CohortCandidate = CohortCandidate(
    entity: EntityRef, context: Context, metricValue: real, ageDays: real, sampleSize: real, dataQuality: real)

  datatype Comparator = Exact | Taxonomy | Range

  datatype DimensionSpec = DimensionSpec(
    key: string, weight: real, comparator: Comparator, ordinals: map<string, real>, span: Option<real>)

  datatype WeightingParams = WeightingParams(halfLifeDays: real, sampleK: Option<real>)

  datatype ScoredMember = ScoredMember(
    entity: EntityRef, similarity: real, influence: real, ageDays: real, sampleSize: real, metricValue: real,
    context: Context)

  /** What a subject is compared with, and how. */
  datatype Setting = Setting(
    subject: EntityRef, context: Context, specs: seq<DimensionSpec>, weighting: WeightingParams,
    norm: string -> string, decay: real -> real)

  function OrElse<T>(o: Option<T>, default: T): T { if o.Some? then o.value else default }

  // ---- One dimension ----

  function ExactMatch(norm: string -> string, a: string, b: string): real {
    if norm(a) == norm(b) then 1.0 else 0.0
  }

  function Distance(a: real, b: real): real { if a >= b then a - b else b - a }

  function BucketSimilarity(a: real, b: real, span: real): real {
    if span <= 0.0 then 1.0 else Max(0.0, 1.0 - Distance(a, b) / span)
  }

  /** An absent context value compares as 0; an ordinal missing from the table falls back to equality. */
  function CompareDimension(norm: string -> string, spec: DimensionSpec, subject: Context, candidate: Context): real {
    if spec.key !in subject || spec.key !in candidate then 0.0
    else
      var a, b := subject[spec.key], candidate[spec.key];
      match spec.comparator
      case Exact => ExactMatch(norm, a, b)
      case Taxonomy => TaxonomyScore(Segments(a), Segments(b))
      case Range =>
        if a in spec.ordinals && b in spec.ordinals
        then BucketSimilarity(spec.ordinals[a], spec.ordinals[b], OrElse(spec.span, 1.0))
        else ExactMatch(norm, a, b)
  }

  lemma DistanceNotNegative(a: real, b: real, span: real)
    requires span > 0.0
    ensures Distance(a, b) / span >= 0.0
    ensures Distance(a, b) / span == 0.0 ==> a == b
  {
    var q := Distance(a, b) / span;
    assert q * span == Distance(a, b);
    if q < 0.0 { NotPositive(0.0 - q, span); }
  }

  /** Every comparator scores within [0,1], ignores which side is the subject, and gives equal values 1. */
  lemma CompareIsSimilarity(norm: string -> string, spec: DimensionSpec, a: Context, b: Context)
    ensures 0.0 <= CompareDimension(norm, spec, a, b) <= 1.0
    ensures CompareDimension(norm, spec, a, b) == CompareDimension(norm, spec, b, a)
    ensures spec.key in a && spec.key in b && a[spec.key] == b[spec.key] ==> CompareDimension(norm, spec, a, b) == 1.0
  {
    if spec.key in a && spec.key in b {
      var x, y := a[spec.key], b[spec.key];
      TaxonomyIsSimilarity(Segments(x), Segments(y));
      var span := OrElse(spec.span, 1.0);
      if spec.comparator == Range && x in spec.ordinals && y in spec.ordinals && span > 0.0 {
        DistanceNotNegative(spec.ordinals[x], spec.ordinals[y], span);
      }
    }
  }

  // ---- One candidate ----

  function Dimensions(env: Setting, candidate: Context): seq<DimensionScore> {
    Mapped(env.specs, ToDimension(env, candidate))
  }

  function ToDimension(env: Setting, candidate: Context): DimensionSpec -> DimensionScore {
    (d: DimensionSpec) => DimensionScore(d.key, CompareDimension(env.norm, d, env.context, candidate), d.weight)
  }

  function ScoreMember(env: Setting, c: CohortCandidate): ScoredMember {
    var similarity := Combined(Dimensions(env, c.context));
    ScoredMember(
      c.entity, similarity,
      ComputeInfluence(env.decay,
                       Observation(similarity, c.ageDays, env.weighting.halfLifeDays, c.sampleSize,
                                   OrElse(env.weighting.sampleK, 20.0), c.dataQuality)),
      c.ageDays, c.sampleSize, c.metricValue, c.context)
  }

  function IsOther(env: Setting): CohortCandidate -> bool {
    (c: CohortCandidate) => !(c.entity.id == env.subject.id && c.entity.kind == env.subject.kind)
  }

  function Scorer(env: Setting): CohortCandidate -> ScoredMember { (c: CohortCandidate) => ScoreMember(env, c) }

  // ---- The cohort ----

  /** The candidates other than the subject, scored, in input order. */
  function Members(env: Setting, candidates: seq<CohortCandidate>): seq<ScoredMember> {
    Mapped(Filtered(candidates, IsOther(env)), Scorer(env))
  }

  predicate MoreInfluence(a: ScoredMember, b: ScoredMember) { a.influence >= b.influence }

  function Scored(env: Setting, candidates: seq<CohortCandidate>): seq<ScoredMember> {
    Sort(Members(env, candidates), MoreInfluence)
  }

  method ScoreMembers(env: Setting, candidates: seq<CohortCandidate>) returns (members: seq<ScoredMember>)
    ensures members == Scored(env, candidates)
  {
    members := [];
    for i := 0 to |candidates|
      invariant members == Members(env, candidates[..i])
    {
      MembersSnoc(env, candidates, i);
      var c := candidates[i];
      if c.entity.id == env.subject.id && c.entity.kind == env.subject.kind { continue; }
      members := members + [ScoreMember(env, c)];
    }
    assert candidates[..|candidates|] == candidates;
    members := Sort(members, MoreInfluence);
  }

  lemma MembersSnoc(env: Setting, candidates: seq<CohortCandidate>, i: nat)
    requires i < |candidates|
    ensures Members(env, candidates[..i + 1])
         == Members(env, candidates[..i])
            + if IsOther(env)(candidates[i]) then [ScoreMember(env, candidates[i])] else []
  {
    var last := [candidates[i]];
    assert candidates[..i + 1] == candidates[..i] + last;
    FilteredAppend(candidates[..i], last, IsOther(env));
    MappedAppend(Filtered(candidates[..i], IsOther(env)), Filtered(last, IsOther(env)), Scorer(env));
    assert Filtered(last, IsOther(env)) == if IsOther(env)(candidates[i]) then last else [];
  }

  function FilterCohort(members: seq<ScoredMember>, minSimilarity: real): seq<ScoredMember> {
    Filtered(members, (m: ScoredMember) => m.similarity >= minSimilarity)
  }

  /**
    The scored list is a permutation of the other candidates' members, sorted by influence, with members of
    equal influence in input order; similarity and influence lie in [0,1].
   */
  lemma ScoredIsSortedPermutation(env: Setting, candidates: seq<CohortCandidate>, x: real)
    ensures multiset(Scored(env, candidates)) == multiset(Members(env, candidates))
    ensures forall i, j :: 0 <= i < j < |Scored(env, candidates)| ==>
              Scored(env, candidates)[i].influence >= Scored(env, candidates)[j].influence
    ensures Filtered(Scored(env, candidates), (m: ScoredMember) => m.influence == x)
         == Filtered(Members(env, candidates), (m: ScoredMember) => m.influence == x)
    ensures forall m :: m in Scored(env, candidates) ==> 0.0 <= m.similarity <= 1.0 && 0.0 <= m.influence <= 1.0
    ensures forall m :: m in Scored(env, candidates) ==>
              exists c :: c in candidates && c.entity != env.subject && m == ScoreMember(env, c)
  {
    var all, sorted := Members(env, candidates), Scored(env, candidates);
    SortIsSorted(all, MoreInfluence);
    SortIsStable(all, MoreInfluence, (m: ScoredMember) => m.influence == x);
    forall m | m in sorted
      ensures exists c :: c in candidates && c.entity != env.subject && m == ScoreMember(env, c)
    {
      SameMembers(all, sorted);
      MemberComesFrom(env, candidates, m);
    }
  }

  lemma MemberComesFrom(env: Setting, candidates: seq<CohortCandidate>, m: ScoredMember)
    requires m in Members(env, candidates)
    ensures exists c :: c in candidates && c.entity != env.subject && m == ScoreMember(env, c)
  {
    var others := Filtered(candidates, IsOther(env));
    var k :| 0 <= k < |Members(env, candidates)| && Members(env, candidates)[k] == m;
    assert others[k] in candidates && m == ScoreMember(env, others[k]);
  }

  /** Scoring and filtering permuted candidates gives the same members, as a bag, at every threshold. */
  lemma CohortIgnoresOrder(env: Setting, candidates: seq<CohortCandidate>, permuted: seq<CohortCandidate>, min: real)
    requires multiset(candidates) == multiset(permuted)
    ensures multiset(FilterCohort(Scored(env, candidates), min)) == multiset(FilterCohort(Scored(env, permuted), min))
  {
    FilteredPermuted(candidates, permuted, IsOther(env));
    MappedPermuted(Filtered(candidates, IsOther(env)), Filtered(permuted, IsOther(env)), Scorer(env));
    FilteredPermuted(Scored(env, candidates), Scored(env, permuted), (m: ScoredMember) => m.similarity >= min);
  }
}
