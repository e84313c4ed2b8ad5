/** The stable sort behind every `.sort(...)` of the source, and what permutations leave unchanged. */
module Sorting {

  ghost predicate TotalPreorder<T(!new)>(leq: (T, T) -> bool) {
    && (forall x, y :: leq(x, y) || leq(y, x))
    && (forall x, y, z :: leq(x, y) && leq(y, z) ==> leq(x, z))
  }

  ghost predicate SortedBy<T>(s: seq<T>, leq: (T, T) -> bool) {
    forall i, j :: 0 <= i < j < |s| ==> leq(s[i], s[j])
  }

  /** Places `x` before the first element that is not smaller, so equal elements keep their order. */
  function Insert<T>(x: T, s: seq<T>, leq: (T, T) -> bool): (r: seq<T>)
    ensures multiset(r) == multiset{x} + multiset(s)
    ensures |r| == |s| + 1
  {
    if s == [] then [x]
    else if leq(x, s[0]) then [x] + s
    else
      assert s == [s[0]] + s[1..];
      [s[0]] + Insert(x, s[1..], leq)
  }

  function Sort<T>(s: seq<T>, leq: (T, T) -> bool): (r: seq<T>)
    ensures multiset(r) == multiset(s)
    ensures |r| == |s|
  {
    if s == [] then []
    else
      assert s == [s[0]] + s[1..];
      Insert(s[0], Sort(s[1..], leq), leq)
  }

  lemma {:induction false} InsertIsSorted<T(!new)>(x: T, s: seq<T>, leq: (T, T) -> bool)
    requires TotalPreorder(leq) && SortedBy(s, leq)
    ensures SortedBy(Insert(x, s, leq), leq)
  {
    if s == [] {
    } else if leq(x, s[0]) {
      forall j | 0 <= j < |s| ensures leq(x, s[j]) {
        if j > 0 { assert leq(s[0], s[j]); }
      }
    } else {
      InsertIsSorted(x, s[1..], leq);
      var r := Insert(x, s[1..], leq);
      forall j | 0 <= j < |r| ensures leq(s[0], r[j]) {
        assert r[j] in multiset(r);
        if r[j] != x {
          assert r[j] in multiset(s[1..]);
          var k :| 0 <= k < |s[1..]| && s[1..][k] == r[j];
          assert s[k + 1] == r[j];
        }
      }
    }
  }

  lemma {:induction false} SortIsSorted<T(!new)>(s: seq<T>, leq: (T, T) -> bool)
    requires TotalPreorder(leq)
    ensures SortedBy(Sort(s, leq), leq)
  {
    if s != [] {
      SortIsSorted(s[1..], leq);
      InsertIsSorted(s[0], Sort(s[1..], leq), leq);
    }
  }

  /** The order does not tell the elements of `p` apart. */
  ghost predicate Tied<T(!new)>(leq: (T, T) -> bool, p: T -> bool) {
    forall y, z :: p(y) && p(z) ==> leq(y, z)
  }

  lemma FilteredCons<T>(x: T, s: seq<T>, p: T -> bool)
    ensures Filtered([x] + s, p) == (if p(x) then [x] else []) + Filtered(s, p)
  {
    assert ([x] + s)[1..] == s;
  }

  lemma {:induction false} InsertIsStable<T(!new)>(x: T, s: seq<T>, leq: (T, T) -> bool, p: T -> bool)
    requires Tied(leq, p)
    ensures Filtered(Insert(x, s, leq), p) == Filtered([x] + s, p)
  {
    if s != [] && !leq(x, s[0]) {
      InsertIsStable(x, s[1..], leq, p);
      assert s == [s[0]] + s[1..];
      assert !(p(x) && p(s[0]));
      hide Filtered, Tied;
      StableStep(x, s[0], s[1..], Insert(x, s[1..], leq), p);
    }
  }

  lemma StableStep<T>(x: T, h: T, t: seq<T>, r: seq<T>, p: T -> bool)
    requires !(p(x) && p(h))
    requires Filtered(r, p) == Filtered([x] + t, p)
    ensures Filtered([h] + r, p) == Filtered([x] + ([h] + t), p)
  {
    hide Filtered;
    FilteredCons(x, [h] + t, p);
    FilteredCons(h, t, p);
    FilteredCons(x, t, p);
    FilteredCons(h, r, p);
  }

  /**
    Elements that the order does not tell apart keep their order. With `SortIsSorted` and the multiset
    kept by `Sort` this determines the result completely.
   */
  lemma {:induction false} SortIsStable<T(!new)>(s: seq<T>, leq: (T, T) -> bool, p: T -> bool)
    requires Tied(leq, p)
    ensures Filtered(Sort(s, leq), p) == Filtered(s, p)
  {
    if s != [] {
      SortIsStable(s[1..], leq, p);
      InsertIsStable(s[0], Sort(s[1..], leq), leq, p);
      hide Filtered, Tied;
      FilteredCons(s[0], Sort(s[1..], leq), p);
      FilteredCons(s[0], s[1..], p);
      assert s == [s[0]] + s[1..];
    }
  }

  lemma SameMembers<T>(s: seq<T>, t: seq<T>)
    requires multiset(s) == multiset(t)
    ensures |s| == |t|
    ensures forall x :: x in s <==> x in t
  {
    assert |multiset(s)| == |s| && |multiset(t)| == |t|;
    forall x ensures x in s <==> x in t {
      assert x in s <==> x in multiset(s);
      assert x in t <==> x in multiset(t);
    }
  }

  lemma TailMultiset<T>(s: seq<T>)
    requires s != []
    ensures multiset(s[1..]) == multiset(s) - multiset{s[0]}
  {
    assert s == [s[0]] + s[1..];
  }

  lemma WithoutIndex<T>(t: seq<T>, i: nat)
    requires i < |t|
    ensures multiset(t[..i] + t[i + 1..]) == multiset(t) - multiset{t[i]}
  {
    assert t == t[..i] + ([t[i]] + t[i + 1..]);
  }

  /** Two sorted arrangements of the same elements under an antisymmetric order are the same sequence. */
  lemma {:induction false} SortedIsUnique<T(!new)>(s: seq<T>, t: seq<T>, leq: (T, T) -> bool)
    requires multiset(s) == multiset(t)
    requires SortedBy(s, leq) && SortedBy(t, leq)
    requires forall x, y :: x in s && y in s && leq(x, y) && leq(y, x) ==> x == y
    ensures s == t
  {
    SameMembers(s, t);
    if s != [] {
      SameHead(s, t, leq);
      TailMultiset(s);
      TailMultiset(t);
      SortedIsUnique(s[1..], t[1..], leq);
      assert s == [s[0]] + s[1..] && t == [t[0]] + t[1..];
    }
  }

  lemma SameHead<T(!new)>(s: seq<T>, t: seq<T>, leq: (T, T) -> bool)
    requires s != [] && t != []
    requires s[0] in t && t[0] in s
    requires SortedBy(s, leq) && SortedBy(t, leq)
    requires forall x, y :: x in s && y in s && leq(x, y) && leq(y, x) ==> x == y
    ensures s[0] == t[0]
  {
    var i :| 0 <= i < |t| && t[i] == s[0];
    var j :| 0 <= j < |s| && s[j] == t[0];
    if i > 0 && j > 0 {
      assert leq(t[0], t[i]) && leq(s[0], s[j]);
    }
  }

  function SumOf<T>(s: seq<T>, f: T -> real): real {
    if s == [] then 0.0 else f(s[0]) + SumOf(s[1..], f)
  }

  lemma {:induction false} SumOfAppend<T>(s: seq<T>, t: seq<T>, f: T -> real)
    ensures SumOf(s + t, f) == SumOf(s, f) + SumOf(t, f)
  {
    if s == [] {
      assert s + t == t;
    } else {
      assert (s + t)[1..] == s[1..] + t;
      SumOfAppend(s[1..], t, f);
    }
  }

  lemma SumOfWithout<T>(t: seq<T>, i: nat, f: T -> real)
    requires i < |t|
    ensures SumOf(t, f) == f(t[i]) + SumOf(t[..i] + t[i + 1..], f)
  {
    SumOfAppend(t[..i], t[i + 1..], f);
    SumOfAppend(t[..i], t[i..], f);
    assert t[..i] + t[i..] == t;
    assert t[i..][1..] == t[i + 1..];
  }

  lemma {:induction false} SumOfPermuted<T>(s: seq<T>, t: seq<T>, f: T -> real)
    requires multiset(s) == multiset(t)
    ensures SumOf(s, f) == SumOf(t, f)
  {
    SameMembers(s, t);
    if s != [] {
      assert s[0] in t;
      var i :| 0 <= i < |t| && t[i] == s[0];
      TailMultiset(s);
      WithoutIndex(t, i);
      SumOfPermuted(s[1..], t[..i] + t[i + 1..], f);
      SumOfWithout(t, i, f);
    }
  }

  function Mapped<T, U>(s: seq<T>, f: T -> U): (r: seq<U>)
    ensures |r| == |s| && forall i :: 0 <= i < |s| ==> r[i] == f(s[i])
  {
    if s == [] then [] else [f(s[0])] + Mapped(s[1..], f)
  }

  function Filtered<T>(s: seq<T>, p: T -> bool): (r: seq<T>)
    ensures forall i :: 0 <= i < |r| ==> r[i] in s && p(r[i])
    ensures forall i :: 0 <= i < |s| && p(s[i]) ==> s[i] in r
    ensures |r| <= |s|
  {
    if s == [] then [] else (if p(s[0]) then [s[0]] else []) + Filtered(s[1..], p)
  }

  lemma {:induction false} MappedAppend<T, U>(s: seq<T>, t: seq<T>, f: T -> U)
    ensures Mapped(s + t, f) == Mapped(s, f) + Mapped(t, f)
  {
  }

  lemma MappedWithout<T, U>(t: seq<T>, i: nat, f: T -> U)
    requires i < |t|
    ensures multiset(Mapped(t, f)) == multiset{f(t[i])} + multiset(Mapped(t[..i] + t[i + 1..], f))
  {
    MappedAppend(t[..i], t[i + 1..], f);
    MappedAppend(t[..i], t[i..], f);
    assert t[..i] + t[i..] == t;
    assert t[i..][1..] == t[i + 1..];
  }

  /** Mapping two permutations of one another gives permutations of one another. */
  lemma {:induction false} MappedPermuted<T, U>(s: seq<T>, t: seq<T>, f: T -> U)
    requires multiset(s) == multiset(t)
    ensures multiset(Mapped(s, f)) == multiset(Mapped(t, f))
  {
    SameMembers(s, t);
    if s != [] {
      assert s[0] in t;
      var i :| 0 <= i < |t| && t[i] == s[0];
      TailMultiset(s);
      WithoutIndex(t, i);
      MappedPermuted(s[1..], t[..i] + t[i + 1..], f);
      MappedWithout(t, i, f);
    }
  }

  lemma {:induction false} FilteredAppend<T>(s: seq<T>, t: seq<T>, p: T -> bool)
    ensures Filtered(s + t, p) == Filtered(s, p) + Filtered(t, p)
  {
    if s == [] {
      assert s + t == t;
    } else {
      assert (s + t)[1..] == s[1..] + t;
      FilteredAppend(s[1..], t, p);
    }
  }

  lemma {:induction false} FilteredMultiset<T>(s: seq<T>, p: T -> bool, x: T)
    ensures multiset(Filtered(s, p))[x] == if p(x) then multiset(s)[x] else 0
  {
    if s != [] {
      assert s == [s[0]] + s[1..];
      FilteredMultiset(s[1..], p, x);
    }
  }

  /** Filtering two permutations of one another gives permutations of one another. */
  lemma FilteredPermuted<T>(s: seq<T>, t: seq<T>, p: T -> bool)
    requires multiset(s) == multiset(t)
    ensures multiset(Filtered(s, p)) == multiset(Filtered(t, p))
  {
    forall x ensures multiset(Filtered(s, p))[x] == multiset(Filtered(t, p))[x] {
      FilteredMultiset(s, p, x);
      FilteredMultiset(t, p, x);
    }
  }
}
