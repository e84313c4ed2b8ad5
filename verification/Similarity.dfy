/**
  Similarity and observation weighting (packages/domain/src/similarity.ts), over exact reals.

  The real power 0.5^x is a parameter `decay`, of which only what makes it a weight is used.
 */
module Similarity {
  import opened Sorting
  import opened Reals

  function Clamp01(x: real): (r: real)
    ensures 0.0 <= r <= 1.0
    ensures 0.0 <= x <= 1.0 ==> r == x
  {
    if x < 0.0 then 0.0 else if x > 1.0 then 1.0 else x
  }

  // ---- Taxonomy paths ----

  /** The non-empty pieces between slashes. */
  function Segments(path: string): seq<string> { Pieces(path, "") }

  function Pieces(path: string, piece: string): seq<string>
    decreases |path|
  {
    var done := if piece == "" then [] else [piece];
    if path == [] then done
    else if path[0] == '/' then done + Pieces(path[1..], "")
    else Pieces(path[1..], piece + [path[0]])
  }

  /** How many leading segments two paths share. */
  function SharedDepth(a: seq<string>, b: seq<string>): (n: nat)
    ensures n <= |a| && n <= |b| && a[..n] == b[..n]
    ensures n < |a| && n < |b| ==> a[n] != b[n]
  {
    if a == [] || b == [] || a[0] != b[0] then 0
    else
      var n := SharedDepth(a[1..], b[1..]);
      assert a[..n + 1] == [a[0]] + a[1..][..n] && b[..n + 1] == [b[0]] + b[1..][..n];
      n + 1
  }

  function MaxLen(a: seq<string>, b: seq<string>): nat { if |a| >= |b| then |a| else |b| }

  function TaxonomyScore(a: seq<string>, b: seq<string>): real {
    if MaxLen(a, b) == 0 then 1.0 else SharedDepth(a, b) as real / MaxLen(a, b) as real
  }

  method TaxonomySimilarity(pathA: string, pathB: string) returns (score: real)
    ensures score == TaxonomyScore(Segments(pathA), Segments(pathB))
  {
    var a, b := Segments(pathA), Segments(pathB);
    var maxDepth := MaxLen(a, b);
    if maxDepth == 0 { return 1.0; }
    var shared := 0;
    while shared < |a| && shared < |b| && a[shared] == b[shared]
      invariant shared <= |a| && shared <= |b|
      invariant a[..shared] == b[..shared]
    {
      shared := shared + 1;
    }
    SharedDepthIs(a, b, shared);
    score := shared as real / maxDepth as real;
  }

  lemma {:induction false} SharedDepthIs(a: seq<string>, b: seq<string>, n: nat)
    requires n <= |a| && n <= |b| && a[..n] == b[..n]
    requires n < |a| && n < |b| ==> a[n] != b[n]
    ensures SharedDepth(a, b) == n
  {
    if n > 0 {
      assert a[0] == a[..n][0] && b[0] == b[..n][0];
      assert a[1..][..n - 1] == a[..n][1..] && b[1..][..n - 1] == b[..n][1..];
      SharedDepthIs(a[1..], b[1..], n - 1);
    }
  }

  lemma FractionBounds(m: nat, n: nat)
    requires m <= n && n > 0
    ensures 0.0 <= m as real / n as real <= 1.0
    ensures m as real / n as real == 1.0 <==> m == n
  {
    ShareOf(m as real, n as real, m as real / n as real);
  }

  lemma ShareOf(x: real, n: real, q: real)
    requires 0.0 <= x <= n && n > 0.0 && q * n == x
    ensures 0.0 <= q <= 1.0 && (q == 1.0 <==> x == n)
  {
    OrderKept(0.0, q, n);
    OrderKept(q, 1.0, n);
    OrderKept(1.0, q, n);
  }

  /** The taxonomy score is a similarity: within [0,1], symmetric, and 1 for the same segments only. */
  lemma TaxonomyIsSimilarity(a: seq<string>, b: seq<string>)
    ensures 0.0 <= TaxonomyScore(a, b) <= 1.0
    ensures TaxonomyScore(a, b) == TaxonomyScore(b, a)
    ensures TaxonomyScore(a, b) == 1.0 <==> a == b
  {
    var n := SharedDepth(a, b);
    SharedDepthIs(b, a, n);
    if MaxLen(a, b) > 0 {
      FractionBounds(n, MaxLen(a, b));
      assert n == MaxLen(a, b) ==> a == a[..n] && b == b[..n];
      if a == b { SharedDepthIs(a, b, |a|); }
    }
  }

  // ---- Weighted overall similarity ----

  datatype DimensionScore = DimensionScore(key: string, score: real, weight: real)

  function Weight(d: DimensionScore): real { Max(0.0, d.weight) }

  function Weighted(d: DimensionScore): real { Weight(d) * Clamp01(d.score) }

  function Combined(dims: seq<DimensionScore>): real {
    var total := SumOf(dims, Weight);
    if total == 0.0 then 0.0 else Clamp01(SumOf(dims, Weighted) / total)
  }

  method CombineSimilarity(dims: seq<DimensionScore>) returns (score: real)
    ensures score == Combined(dims)
  {
    var weighted, totalWeight := 0.0, 0.0;
    for i := 0 to |dims|
      invariant weighted == SumOf(dims[..i], Weighted)
      invariant totalWeight == SumOf(dims[..i], Weight)
    {
      SumSnoc(dims, i, Weighted);
      SumSnoc(dims, i, Weight);
      weighted := weighted + Weight(dims[i]) * Clamp01(dims[i].score);
      totalWeight := totalWeight + Weight(dims[i]);
    }
    assert dims[..|dims|] == dims;
    score := if totalWeight == 0.0 then 0.0 else Clamp01(weighted / totalWeight);
  }

  lemma SumSnoc<T>(s: seq<T>, i: nat, f: T -> real)
    requires i < |s|
    ensures SumOf(s[..i + 1], f) == SumOf(s[..i], f) + f(s[i])
  {
    assert s[..i + 1] == s[..i] + [s[i]];
    SumOfAppend(s[..i], [s[i]], f);
  }

  ghost predicate Between(total: real, weighted: real, lo: real, hi: real) {
    total * lo <= weighted <= total * hi
  }

  ghost predicate IsWeighting<T(!new)>(s: seq<T>, w: T -> real, x: T -> real, term: T -> real) {
    forall e :: e in s ==> w(e) >= 0.0 && term(e) == w(e) * x(e)
  }

  /** A weighted sum lies between the total weight times either bound of the values that carry weight. */
  lemma {:induction false} WeightedWithin<T(!new)>(
    s: seq<T>, w: T -> real, x: T -> real, term: T -> real, lo: real, hi: real)
    requires IsWeighting(s, w, x, term)
    requires forall e :: e in s && w(e) > 0.0 ==> lo <= x(e) <= hi
    ensures Between(SumOf(s, w), SumOf(s, term), lo, hi)
    ensures SumOf(s, w) >= 0.0
  {
    hide Between;
    if s == [] {
      AddTerm(0.0, lo, 0.0, 0.0, 0.0, lo, hi);
    } else {
      WeightedWithin(s[1..], w, x, term, lo, hi);
      AddTerm(w(s[0]), x(s[0]), term(s[0]), SumOf(s[1..], w), SumOf(s[1..], term), lo, hi);
    }
  }

  lemma AddTerm(w: real, s: real, term: real, total: real, weighted: real, lo: real, hi: real)
    requires w >= 0.0 && (w > 0.0 ==> lo <= s <= hi) && term == w * s
    requires total == weighted == 0.0 || Between(total, weighted, lo, hi)
    ensures Between(w + total, term + weighted, lo, hi)
  {
    assert w * lo <= w * s <= w * hi by {
      if w > 0.0 {
        ScaleLeft(w, lo, s);
        ScaleLeft(w, s, hi);
      }
    }
    Distribute(w, total, lo);
    Distribute(w, total, hi);
  }

  lemma Distribute(w: real, rest: real, x: real)
    ensures (w + rest) * x == w * x + rest * x
  {
  }

  lemma Scale(x: real, y: real, w: real)
    requires w >= 0.0 && x <= y
    ensures x * w <= y * w
  {
  }

  lemma QuotientWithin(x: real, n: real, lo: real, hi: real)
    requires n > 0.0 && Between(n, x, lo, hi)
    ensures lo <= x / n <= hi
  {
    var q := x / n;
    assert q * n == x;
    assert (lo - q) * n <= 0.0 && (q - hi) * n <= 0.0;
    NotPositive(lo - q, n);
    NotPositive(q - hi, n);
  }

  /** The combined similarity is a true mean: between the scores of the dimensions that carry weight. */
  lemma CombinedIsMean(dims: seq<DimensionScore>, lo: real, hi: real)
    requires SumOf(dims, Weight) > 0.0 && 0.0 <= lo && hi <= 1.0
    requires forall i :: 0 <= i < |dims| && dims[i].weight > 0.0 ==> lo <= Clamp01(dims[i].score) <= hi
    ensures lo <= Combined(dims) <= hi
    ensures Combined(dims) == SumOf(dims, Weighted) / SumOf(dims, Weight)
  {
    DimensionsWithin(dims, lo, hi);
    hide SumOf, Weighted, Weight, Between, Clamp01;
    ClampedQuotient(SumOf(dims, Weighted), SumOf(dims, Weight), lo, hi);
  }

  lemma DimensionsWithin(dims: seq<DimensionScore>, lo: real, hi: real)
    requires forall i :: 0 <= i < |dims| && dims[i].weight > 0.0 ==> lo <= Clamp01(dims[i].score) <= hi
    ensures Between(SumOf(dims, Weight), SumOf(dims, Weighted), lo, hi)
  {
    hide SumOf, Between, Clamp01;
    WeightedWithin(dims, Weight, (d: DimensionScore) => Clamp01(d.score), Weighted, lo, hi);
  }

  lemma ClampedQuotient(x: real, n: real, lo: real, hi: real)
    requires n > 0.0 && Between(n, x, lo, hi) && 0.0 <= lo && hi <= 1.0
    ensures lo <= x / n <= hi && Clamp01(x / n) == x / n
  {
    QuotientWithin(x, n, lo, hi);
  }

  // ---- Influence ----

  /** 0.5^x for x >= 0, as far as it is a weight: positive, at most 1, and decreasing. */
  ghost predicate IsDecay(decay: real -> real) {
    && (forall x :: x >= 0.0 ==> 0.0 < decay(x) <= 1.0)
    && (forall x, y :: 0.0 <= x <= y ==> decay(y) <= decay(x))
  }

  datatype Observation = Observation(
    similarity: real, ageDays: real, halfLifeDays: real, sampleSize: real, sampleK: real, dataQuality: real)

  function RecencyWeight(decay: real -> real, ageDays: real, halfLifeDays: real): real {
    if halfLifeDays <= 0.0 then (if ageDays <= 0.0 then 1.0 else 0.0)
    else decay(Max(0.0, ageDays) / halfLifeDays)
  }

  function SampleWeight(sampleSize: real, k: real): real {
    var n := Max(0.0, sampleSize);
    n / (n + Max(0.000000001, k))
  }

  function ComputeInfluence(decay: real -> real, o: Observation): (r: real)
    ensures 0.0 <= r <= 1.0
  {
    Clamp01(Clamp01(o.similarity) * RecencyWeight(decay, o.ageDays, o.halfLifeDays)
            * SampleWeight(o.sampleSize, o.sampleK) * Clamp01(o.dataQuality))
  }

  lemma RecencyDecreases(decay: real -> real, age: real, older: real, halfLife: real)
    requires IsDecay(decay) && age <= older
    ensures 0.0 <= RecencyWeight(decay, older, halfLife) <= RecencyWeight(decay, age, halfLife) <= 1.0
  {
    if halfLife > 0.0 {
      var a, b := Max(0.0, age), Max(0.0, older);
      QuotientMonotone(a, b, halfLife);
      QuotientMonotone(0.0, a, halfLife);
    }
  }

  lemma QuotientMonotone(x: real, y: real, n: real)
    requires n > 0.0 && x <= y
    ensures x / n <= y / n
  {
    assert (x / n) * n == x && (y / n) * n == y;
    assert (x / n - y / n) * n == x - y;
    NotPositive(x / n - y / n, n);
  }

  lemma SampleIncreases(n: real, more: real, k: real)
    requires n <= more
    ensures 0.0 <= SampleWeight(n, k) <= SampleWeight(more, k) <= 1.0
  {
    var a, b, c := Max(0.0, n), Max(0.0, more), Max(0.000000001, k);
    Saturates(a, c);
    Saturates(b, c);
    ShareIncreases(a, b, c, a / (a + c), b / (b + c));
  }

  lemma ShareIncreases(a: real, b: real, c: real, p: real, q: real)
    requires 0.0 <= a <= b && c > 0.0 && p <= 1.0
    requires p * (a + c) == a && q * (b + c) == b
    ensures p <= q
  {
    assert p * (b + c) == p * (a + c) + p * (b - a);
    Scale(p, 1.0, b - a);
    OrderKept(p, q, b + c);
  }

  lemma Saturates(a: real, c: real)
    requires a >= 0.0 && c > 0.0
    ensures 0.0 <= a / (a + c) <= 1.0
  {
    QuotientWithin(a, a + c, 0.0, 1.0);
  }

  lemma ProductMonotone(x: real, y: real, u: real, v: real)
    requires 0.0 <= x <= y <= 1.0 && 0.0 <= u <= v <= 1.0
    ensures 0.0 <= x * u <= y * v <= 1.0
  {
    var p, q, r := x * u, y * u, y * v;
    assert 0.0 <= p <= q by {
      Scale(0.0, x, u);
      Scale(x, y, u);
    }
    assert q <= r by { ScaleLeft(y, u, v); }
    AtMostOne(y, v);
  }

  lemma AtMostOne(x: real, y: real)
    requires 0.0 <= x <= 1.0 && 0.0 <= y <= 1.0
    ensures x * y <= 1.0
  {
    var slack := (1.0 - x) * y;
    assert slack >= 0.0;
    assert x * y == y - slack;
  }

  lemma ScaleLeft(w: real, x: real, y: real)
    requires w >= 0.0 && x <= y
    ensures w * x <= w * y
  {
    assert w * y - w * x == w * (y - x);
  }

  /**
    A more similar, more recent, better sampled and cleaner observation never has less influence; and the
    final clamp never has anything to do.
   */
  lemma InfluenceIsMonotone(decay: real -> real, o: Observation, p: Observation)
    requires IsDecay(decay) && o.halfLifeDays == p.halfLifeDays && o.sampleK == p.sampleK
    requires o.similarity <= p.similarity && o.ageDays >= p.ageDays
    requires o.sampleSize <= p.sampleSize && o.dataQuality <= p.dataQuality
    ensures ComputeInfluence(decay, o) <= ComputeInfluence(decay, p)
    ensures ComputeInfluence(decay, o) == Clamp01(o.similarity) * RecencyWeight(decay, o.ageDays, o.halfLifeDays)
              * SampleWeight(o.sampleSize, o.sampleK) * Clamp01(o.dataQuality)
  {
    hide RecencyWeight, SampleWeight;
    var g, g' := RecencyWeight(decay, o.ageDays, o.halfLifeDays), RecencyWeight(decay, p.ageDays, p.halfLifeDays);
    var h, h' := SampleWeight(o.sampleSize, o.sampleK), SampleWeight(p.sampleSize, p.sampleK);
    var f, f', q, q' := Clamp01(o.similarity), Clamp01(p.similarity), Clamp01(o.dataQuality), Clamp01(p.dataQuality);
    RecencyDecreases(decay, p.ageDays, o.ageDays, o.halfLifeDays);
    SampleIncreases(o.sampleSize, p.sampleSize, o.sampleK);
    ProductMonotone(f, f', g, g');
    ProductMonotone(f * g, f' * g', h, h');
    ProductMonotone(f * g * h, f' * g' * h', q, q');
  }
}
