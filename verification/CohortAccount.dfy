/**
  What the scores of a cohort mean in terms of the subject's and the candidates' own data: each comparator, the
  weighted similarity, the influence, and who is a member.
 */
module CohortAccount {
  import opened Wrappers
  import opened Sorting
  import opened Reals
  import opened Similarity
  import opened Cohort

  // ---- Segments of a path ----

  predicate HasNoSlash(s: string) { forall i :: 0 <= i < |s| ==> s[i] != '/' }

  lemma {:induction false} PiecesOfWord(path: string, piece: string)
    requires HasNoSlash(path)
    ensures Pieces(path, piece) == if piece + path == "" then [] else [piece + path]
  {
    if path == [] {
      assert piece + path == piece;
    } else {
      PiecesOfWord(path[1..], piece + [path[0]]);
      assert piece + path == piece + [path[0]] + path[1..];
    }
  }

  lemma {:induction false} PiecesSplit(a: string, b: string, piece: string)
    ensures Pieces(a + "/" + b, piece) == Pieces(a, piece) + Pieces(b, "")
  {
    var s := a + "/" + b;
    if a == [] {
      assert s[1..] == b;
    } else {
      assert s[0] == a[0] && s[1..] == a[1..] + "/" + b;
      PiecesSplit(a[1..], b, if a[0] == '/' then "" else piece + [a[0]]);
    }
  }

  /**
    The segments of a path: those of the two sides of any slash, one after the other; a path without a slash is its
    own segment, and the empty one has none.
   */
  lemma SegmentsSplitAtSlashes(a: string, b: string, word: string)
    requires HasNoSlash(word)
    ensures Segments(a + "/" + b) == Segments(a) + Segments(b)
    ensures Segments(word) == if word == "" then [] else [word]
  {
    PiecesSplit(a, b, "");
    PiecesOfWord(word, "");
    assert "" + word == word;
  }

  // ---- The comparators ----

  predicate Both(spec: DimensionSpec, a: Context, b: Context) { spec.key in a && spec.key in b }

  predicate Ordered(spec: DimensionSpec, a: Context, b: Context) {
    Both(spec, a, b) && spec.comparator == Range && a[spec.key] in spec.ordinals && b[spec.key] in spec.ordinals
  }

  /**
    A value missing on either side compares as 0. Ranges fall off linearly with the distance of the ordinals, from 1
    to 0 at the span (1 unless given), and are all alike over a span of 0; a value without an ordinal compares as in
    the exact comparison: 1 for equal normal forms and 0 otherwise.
   */
  lemma ComparatorsSay(norm: string -> string, spec: DimensionSpec, a: Context, b: Context)
    ensures var score := CompareDimension(norm, spec, a, b);
      && (!Both(spec, a, b) ==> score == 0.0)
      && (Both(spec, a, b) && (spec.comparator == Exact || (spec.comparator == Range && !Ordered(spec, a, b))) ==>
            score == if norm(a[spec.key]) == norm(b[spec.key]) then 1.0 else 0.0)
      && (Ordered(spec, a, b) ==>
            FallsOff(score, spec.ordinals[a[spec.key]], spec.ordinals[b[spec.key]],
                     if spec.span.Some? then spec.span.value else 1.0))
  {
    if Ordered(spec, a, b) {
      var x, y := spec.ordinals[a[spec.key]], spec.ordinals[b[spec.key]];
      BucketFallsOff(x, y, if spec.span.Some? then spec.span.value else 1.0);
    }
  }

  predicate FallsOff(score: real, x: real, y: real, span: real) {
    if span <= 0.0 then score == 1.0
    else if Abs(x - y) >= span then score == 0.0
    else score * span == span - Abs(x - y)
  }

  lemma BucketFallsOff(x: real, y: real, span: real)
    ensures FallsOff(BucketSimilarity(x, y, span), x, y, span)
  {
    if span > 0.0 {
      var d := Abs(x - y);
      var q := d / span;
      assert q * span == d;
      OrderKept(1.0, q, span);
      assert (1.0 - q) * span == span - d;
    }
  }

  /** Paths compare by the share of leading segments they have in common; two paths without segments are equal. */
  lemma TaxonomyCounts(a: seq<string>, b: seq<string>, shared: nat, longer: nat)
    requires shared <= |a| && shared <= |b| && a[..shared] == b[..shared]
    requires shared < |a| && shared < |b| ==> a[shared] != b[shared]
    requires longer >= |a| && longer >= |b| && (longer == |a| || longer == |b|)
    ensures longer > 0 ==> Times(TaxonomyScore(a, b), longer as real) == shared as real
    ensures longer == 0 ==> TaxonomyScore(a, b) == 1.0
  {
    SharedDepthIs(a, b, shared);
    hide SharedDepth, Times;
    assert longer == MaxLen(a, b);
    if longer > 0 { QuotientTimes(shared as real, longer as real); }
  }

  /** A taxonomy dimension compares the segments of the two values. */
  lemma TaxonomyDimension(norm: string -> string, spec: DimensionSpec, a: Context, b: Context)
    requires Both(spec, a, b) && spec.comparator == Taxonomy
    ensures CompareDimension(norm, spec, a, b) == TaxonomyScore(Segments(a[spec.key]), Segments(b[spec.key]))
  {
  }

  // ---- The similarity ----

  function SpecWeight(d: DimensionSpec): real { if d.weight > 0.0 then d.weight else 0.0 }

  function SpecTerm(env: Setting, candidate: Context): DimensionSpec -> real {
    (d: DimensionSpec) => Times(SpecWeight(d), CompareDimension(env.norm, d, env.context, candidate))
  }

  lemma ScoredTerm(key: string, score: real, weight: real)
    requires 0.0 <= score <= 1.0
    ensures Weighted(DimensionScore(key, score, weight)) == Times(if weight > 0.0 then weight else 0.0, score)
  {
  }

  lemma DimensionTerm(env: Setting, d: DimensionSpec, candidate: Context)
    ensures Weight(ToDimension(env, candidate)(d)) == SpecWeight(d)
    ensures Weighted(ToDimension(env, candidate)(d)) == SpecTerm(env, candidate)(d)
  {
    CompareIsSimilarity(env.norm, d, env.context, candidate);
    hide CompareDimension, Weighted, Times;
    ScoredTerm(d.key, CompareDimension(env.norm, d, env.context, candidate), d.weight);
  }

  lemma {:induction false} DimensionSums(env: Setting, specs: seq<DimensionSpec>, candidate: Context)
    ensures SumOf(Mapped(specs, ToDimension(env, candidate)), Weight) == SumOf(specs, SpecWeight)
    ensures SumOf(Mapped(specs, ToDimension(env, candidate)), Weighted) == SumOf(specs, SpecTerm(env, candidate))
  {
    hide Weight, Weighted, SpecTerm, SpecWeight, ToDimension;
    if specs != [] {
      DimensionTerm(env, specs[0], candidate);
      DimensionSums(env, specs[1..], candidate);
    }
  }

  /**
    The similarity is the weighted mean of the comparisons: times the total of the positive weights it is the sum of
    weight times comparison; without a positive weight it is 0.
   */
  lemma SimilarityIsMean(env: Setting, c: CohortCandidate)
    ensures var total := SumOf(env.specs, SpecWeight);
      && (total > 0.0 ==> Times(ScoreMember(env, c).similarity, total) == SumOf(env.specs, SpecTerm(env, c.context)))
      && (total <= 0.0 ==> ScoreMember(env, c).similarity == 0.0)
  {
    DimensionSums(env, env.specs, c.context);
    SimilarityIsCombined(env, c);
    hide SumOf, Weighted, Weight, SpecWeight, SpecTerm, ScoreMember, Combined, Mapped, ToDimension, Times;
    CombinedTimes(Dimensions(env, c.context));
  }

  lemma SimilarityIsCombined(env: Setting, c: CohortCandidate)
    ensures ScoreMember(env, c).similarity == Combined(Dimensions(env, c.context))
  {
    hide Combined, ComputeInfluence, Dimensions;
  }

  lemma CombinedTimes(dims: seq<DimensionScore>)
    ensures SumOf(dims, Weight) > 0.0 ==> Times(Combined(dims), SumOf(dims, Weight)) == SumOf(dims, Weighted)
    ensures SumOf(dims, Weight) <= 0.0 ==> Combined(dims) == 0.0
  {
    WeightsNotNegative(dims);
    DimensionsWithin(dims, 0.0, 1.0);
    hide SumOf, Weighted, Weight, Between;
    var total, weighted := SumOf(dims, Weight), SumOf(dims, Weighted);
    if total > 0.0 {
      ClampedQuotient(weighted, total, 0.0, 1.0);
      QuotientTimes(weighted, total);
    }
  }

  lemma QuotientTimes(x: real, n: real)
    requires n > 0.0
    ensures Times(x / n, n) == x
  {
  }

  lemma {:induction false} WeightsNotNegative(dims: seq<DimensionScore>)
    ensures SumOf(dims, Weight) >= 0.0
  {
    if dims != [] { WeightsNotNegative(dims[1..]); }
  }

  // ---- The influence ----

  /** 0.5^x: 1 at 0, and half for every 1 more. */
  ghost predicate Halves(decay: real -> real) {
    decay(0.0) == 1.0 && forall x :: x >= 0.0 ==> decay(x + 1.0) == decay(x) / 2.0
  }

  /**
    The recency weight is 1 for what is not yet a day old and half for every half-life more; without a half-life only
    what has no age counts.
   */
  lemma RecencyHalves(decay: real -> real, age: real, halfLife: real)
    requires Halves(decay)
    ensures halfLife > 0.0 && age <= 0.0 ==> RecencyWeight(decay, age, halfLife) == 1.0
    ensures halfLife > 0.0 && age >= 0.0 ==>
              RecencyWeight(decay, age + halfLife, halfLife) == RecencyWeight(decay, age, halfLife) / 2.0
    ensures halfLife <= 0.0 ==> RecencyWeight(decay, age, halfLife) == if age > 0.0 then 0.0 else 1.0
  {
    if halfLife > 0.0 && age >= 0.0 {
      QuotientMonotone(0.0, age, halfLife);
      QuotientShifts(age, halfLife);
    }
  }

  lemma QuotientShifts(x: real, n: real)
    requires n > 0.0
    ensures (x + n) / n == x / n + 1.0
  {
    var q, r := x / n, (x + n) / n;
    assert q * n == x && r * n == x + n;
    assert (r - q - 1.0) * n == 0.0 && (q + 1.0 - r) * n == 0.0;
    NotPositive(r - q - 1.0, n);
    NotPositive(q + 1.0 - r, n);
  }

  /** The sample weight saturates: n of n + k, where k is at least 10^-9. */
  lemma SampleShare(n: real, k: real)
    ensures n <= 0.0 ==> SampleWeight(n, k) == 0.0
    ensures n > 0.0 && k >= 0.000000001 ==> Times(SampleWeight(n, k), n + k) == n
    ensures n > 0.0 && k < 0.000000001 ==> Times(SampleWeight(n, k), n + 0.000000001) == n
  {
    var m, c := Max(0.0, n), Max(0.000000001, k);
    assert (m / (m + c)) * (m + c) == m;
    Saturates(m, c);
  }

  /** Out of range, a value counts as the nearest end of the range. */
  lemma ClampIsNearest(x: real)
    ensures x < 0.0 ==> Clamp01(x) == 0.0
    ensures x > 1.0 ==> Clamp01(x) == 1.0
    ensures 0.0 <= x <= 1.0 ==> Clamp01(x) == x
  {
  }

  /**
    The influence of a candidate is the product of its similarity, its recency, its sample weight (with 20 where the
    weighting names no constant) and its data quality.
   */
  lemma InfluenceIsProduct(env: Setting, c: CohortCandidate)
    requires IsDecay(env.decay)
    ensures var m, k := ScoreMember(env, c), if env.weighting.sampleK.Some? then env.weighting.sampleK.value else 20.0;
      m.influence == m.similarity * RecencyWeight(env.decay, c.ageDays, env.weighting.halfLifeDays)
                     * SampleWeight(c.sampleSize, k) * Clamp01(c.dataQuality)
  {
    var m := ScoreMember(env, c);
    var o := Observation(m.similarity, c.ageDays, env.weighting.halfLifeDays, c.sampleSize,
                         if env.weighting.sampleK.Some? then env.weighting.sampleK.value else 20.0, c.dataQuality);
    InfluenceIsMonotone(env.decay, o, o);
    hide ComputeInfluence, RecencyWeight, SampleWeight, SumOf, Dimensions;
  }

  // ---- Who is a member ----

  /** A member carries its candidate's own data. */
  predicate CarriesData(m: ScoredMember, c: CohortCandidate) {
    && m.entity == c.entity && m.ageDays == c.ageDays && m.sampleSize == c.sampleSize
    && m.metricValue == c.metricValue && m.context == c.context
  }

  /** The candidates that are not the subject. */
  function Others(env: Setting, candidates: seq<CohortCandidate>): seq<CohortCandidate> {
    Filtered(candidates, IsOther(env))
  }

  lemma OthersCounted(env: Setting, candidates: seq<CohortCandidate>, c: CohortCandidate)
    ensures multiset(Others(env, candidates))[c] == if c.entity == env.subject then 0 else multiset(candidates)[c]
  {
    FilteredMultiset(candidates, IsOther(env), c);
  }

  lemma MemberCarriesData(env: Setting, c: CohortCandidate)
    ensures CarriesData(Scorer(env)(c), c)
  {
    hide ComputeInfluence, Combined, Dimensions;
  }

  lemma PermutedLength<T>(s: seq<T>, t: seq<T>)
    requires multiset(s) == multiset(t)
    ensures |s| == |t|
  {
    assert |s| == |multiset(s)| && |t| == |multiset(t)|;
  }

  /**
    Every candidate but the subject is scored, as often as it occurs, and its member carries its data; no other
    member is there.
   */
  lemma EveryOtherIsScored(env: Setting, candidates: seq<CohortCandidate>)
    ensures forall c ::
              multiset(Others(env, candidates))[c] == if c.entity == env.subject then 0 else multiset(candidates)[c]
    ensures |Scored(env, candidates)| == |Others(env, candidates)|
    ensures multiset(Scored(env, candidates)) == multiset(Mapped(Others(env, candidates), Scorer(env)))
    ensures forall c :: c in candidates ==> CarriesData(Scorer(env)(c), c)
  {
    hide CarriesData, Scorer, Filtered, Mapped;
    forall c
      ensures multiset(Others(env, candidates))[c] == if c.entity == env.subject then 0 else multiset(candidates)[c]
    {
      OthersCounted(env, candidates, c);
    }
    forall c | c in candidates ensures CarriesData(Scorer(env)(c), c) { MemberCarriesData(env, c); }
    PermutedLength(Members(env, candidates), Scored(env, candidates));
  }

  /** The filter keeps exactly the members at or above the threshold, in their order. */
  lemma FilterKeeps(members: seq<ScoredMember>, m: ScoredMember, min: real)
    ensures FilterCohort(members + [m], min)
         == FilterCohort(members, min) + if m.similarity < min then [] else [m]
    ensures FilterCohort([], min) == []
  {
    FilteredAppend(members, [m], (m: ScoredMember) => m.similarity >= min);
  }
}
