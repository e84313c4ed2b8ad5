/** Unique readability of the canonical text: what was printed can be recovered, up to key order. */
module JsonUnique {
  import opened Json
  import opened Sorting

  // ---- Strings ----

  lemma CutEqual(p: string, q: string, u: string, w: string)
    requires p + u == q + w && |p| == |q|
    ensures p == q && u == w
  {
    assert (p + u)[..|p|] == p && (q + w)[..|q|] == q;
    assert (p + u)[|p|..] == u && (q + w)[|q|..] == w;
  }

  lemma HexCharInjective(m: nat, n: nat)
    requires m < 16 && n < 16 && HexChar(m) == HexChar(n)
    ensures m == n
  {
  }

  lemma EscapeCharInjective(c: char, d: char)
    requires EscapeChar(c) == EscapeChar(d)
    ensures c == d
  {
    var p, q := EscapeChar(c), EscapeChar(d);
    if |p| == 6 && c < ' ' && d < ' ' {
      assert p[4] == HexChar(c as int / 16) && p[5] == HexChar(c as int % 16);
      assert q[4] == HexChar(d as int / 16) && q[5] == HexChar(d as int % 16);
      HexCharInjective(c as int / 16, d as int / 16);
      HexCharInjective(c as int % 16, d as int % 16);
    } else {
      assert p[0] == q[0];
      assert |p| == 2 ==> p[1] == q[1];
    }
  }

  lemma EscapeCharUnique(c: char, d: char, u: string, w: string)
    requires EscapeChar(c) + u == EscapeChar(d) + w
    ensures c == d && u == w
  {
    var p, q := EscapeChar(c), EscapeChar(d);
    assert p[0] == (p + u)[0] && q[0] == (q + w)[0];
    if |p| >= 2 && |q| >= 2 {
      assert p[1] == (p + u)[1] && q[1] == (q + w)[1];
    }
    CutEqual(p, q, u, w);
    EscapeCharInjective(c, d);
  }

  lemma DropFirst(p: string, u: string, w: string)
    requires p + u == p + w
    ensures u == w
  {
    CutEqual(p, p, u, w);
  }

  function EscapedThen(s: string, x: string): string { Escape(s) + "\"" + x }

  lemma EscapedSplit(s: string, x: string)
    ensures s == [] ==> EscapedThen(s, x) == "\"" + x
    ensures s != [] ==> EscapedThen(s, x) == EscapeChar(s[0]) + EscapedThen(s[1..], x)
    ensures EscapedThen(s, x) != [] && (EscapedThen(s, x)[0] == '\"' <==> s == [])
  {
  }

  lemma {:induction false} EscapeUnique(s: string, t: string, x: string, y: string)
    requires EscapedThen(s, x) == EscapedThen(t, y)
    ensures s == t && x == y
  {
    EscapedSplit(s, x);
    EscapedSplit(t, y);
    if s == [] {
      DropFirst("\"", x, y);
    } else {
      EscapeCharUnique(s[0], t[0], EscapedThen(s[1..], x), EscapedThen(t[1..], y));
      EscapeUnique(s[1..], t[1..], x, y);
      assert s == [s[0]] + s[1..] && t == [t[0]] + t[1..];
    }
  }

  lemma QuoteUnique(s: string, t: string, x: string, y: string)
    requires Quote(s) + x == Quote(t) + y
    ensures s == t && x == y
  {
    assert Quote(s) + x == "\"" + EscapedThen(s, x);
    assert Quote(t) + y == "\"" + EscapedThen(t, y);
    DropFirst("\"", EscapedThen(s, x), EscapedThen(t, y));
    EscapeUnique(s, t, x, y);
  }

  // ---- Numbers ----

  /** What may follow a printed value: anything a number literal cannot continue with. */
  predicate Stops(x: string) { x == [] || !NumberChar(x[0]) }

  lemma LongerLiteral(k: string, l: string, x: string, y: string)
    requires k + x == l + y && |k| < |l|
    ensures x != [] && x[0] == l[|k|]
  {
    assert |k + x| == |l + y|;
    assert (k + x)[|k|] == (l + y)[|k|];
  }

  lemma NumberUnique(k: string, l: string, x: string, y: string)
    requires NumberLiteral(k) && NumberLiteral(l) && Stops(x) && Stops(y)
    requires k + x == l + y
    ensures k == l && x == y
  {
    if |k| < |l| {
      LongerLiteral(k, l, x, y);
    } else if |l| < |k| {
      LongerLiteral(l, k, y, x);
    } else {
      CutEqual(k, l, x, y);
    }
  }

  // ---- Values ----

  predicate StartsLike(v: Json, c: char) {
    match v
    case Null => c == 'n'
    case Bool(b) => c == if b then 't' else 'f'
    case Number(_) => NumberChar(c)
    case String(_) => c == '\"'
    case Array(_) => c == '['
    case Object(_) => c == '{'
  }

  lemma PrintStarts(v: Json)
    requires WellFormed(v)
    ensures Print(v) != [] && StartsLike(v, Print(v)[0])
  {
  }

  /** If two printed values, each followed by more text, coincide, the values and the rest coincide. */
  lemma {:induction false} PrintUnique(a: Json, b: Json, x: string, y: string)
    requires WellFormed(a) && WellFormed(b) && Stops(x) && Stops(y)
    requires Print(a) + x == Print(b) + y
    ensures a == b && x == y
    decreases a, 1
  {
    PrintStarts(a);
    PrintStarts(b);
    assert (Print(a) + x)[0] == Print(a)[0] && (Print(b) + y)[0] == Print(b)[0];
    match a
    case Null => CutEqual(Print(a), Print(b), x, y);
    case Bool(_) => CutEqual(Print(a), Print(b), x, y);
    case Number(k) => NumberUnique(k, b.literal, x, y);
    case String(s) => QuoteUnique(s, b.text, x, y);
    case Array(items) =>
      PrintArray(items, x);
      PrintArray(b.items, y);
      DropFirst("[", ItemsThen(items, x), ItemsThen(b.items, y));
      ItemsUnique(items, b.items, x, y);
    case Object(fields) =>
      PrintObject(fields, x);
      PrintObject(b.fields, y);
      DropFirst("{", FieldsThen(fields, x), FieldsThen(b.fields, y));
      FieldsUnique(fields, b.fields, x, y);
  }

  function ItemsThen(items: seq<Json>, x: string): string { PrintItems(items) + "]" + x }

  function FieldsThen(fields: seq<Field>, x: string): string { PrintFields(fields) + "}" + x }

  lemma PrintArray(items: seq<Json>, x: string)
    ensures Print(Array(items)) + x == "[" + ItemsThen(items, x)
  {
  }

  lemma PrintObject(fields: seq<Field>, x: string)
    ensures Print(Object(fields)) + x == "{" + FieldsThen(fields, x)
  {
  }

  /** The text after the first item: the closing bracket, or a comma and the remaining items. */
  function ItemsTail(items: seq<Json>, x: string): string
    requires items != []
  {
    if |items| == 1 then "]" + x else "," + ItemsThen(items[1..], x)
  }

  lemma ItemsSplit(items: seq<Json>, x: string)
    requires forall i :: 0 <= i < |items| ==> WellFormed(items[i])
    ensures items == [] ==> ItemsThen(items, x) == "]" + x
    ensures items != [] ==> ItemsThen(items, x) == Print(items[0]) + ItemsTail(items, x)
    ensures ItemsThen(items, x) != [] && (ItemsThen(items, x)[0] == ']' <==> items == [])
  {
    if items != [] {
      PrintStarts(items[0]);
    }
  }

  lemma {:induction false} ItemsUnique(xs: seq<Json>, ys: seq<Json>, x: string, y: string)
    requires forall i :: 0 <= i < |xs| ==> WellFormed(xs[i])
    requires forall i :: 0 <= i < |ys| ==> WellFormed(ys[i])
    requires ItemsThen(xs, x) == ItemsThen(ys, y)
    ensures xs == ys && x == y
    decreases xs, 0
  {
    ItemsSplit(xs, x);
    ItemsSplit(ys, y);
    if xs == [] {
      DropFirst("]", x, y);
    } else {
      var u, w := ItemsTail(xs, x), ItemsTail(ys, y);
      PrintUnique(xs[0], ys[0], u, w);
      assert u[0] == w[0];
      assert xs == [xs[0]] + xs[1..] && ys == [ys[0]] + ys[1..];
      if |xs| == 1 {
        DropFirst("]", x, y);
      } else {
        DropFirst(",", ItemsThen(xs[1..], x), ItemsThen(ys[1..], y));
        ItemsUnique(xs[1..], ys[1..], x, y);
      }
    }
  }

  function FieldsTail(fields: seq<Field>, x: string): string
    requires fields != []
  {
    if |fields| == 1 then "}" + x else "," + FieldsThen(fields[1..], x)
  }

  function AfterKey(fields: seq<Field>, x: string): string
    requires fields != []
  {
    Print(fields[0].value) + FieldsTail(fields, x)
  }

  lemma LastFieldText(q: string, p: string, x: string)
    ensures q + ":" + p + "}" + x == q + (":" + (p + ("}" + x)))
  {
  }

  lemma FieldText(q: string, p: string, r: string, x: string)
    ensures q + ":" + p + "," + r + "}" + x == q + (":" + (p + ("," + (r + "}" + x))))
  {
  }

  lemma FieldsSplit(fields: seq<Field>, x: string)
    ensures fields == [] ==> FieldsThen(fields, x) == "}" + x
    ensures fields != [] ==> FieldsThen(fields, x) == Quote(fields[0].key) + (":" + AfterKey(fields, x))
    ensures FieldsThen(fields, x) != [] && (FieldsThen(fields, x)[0] == '}' <==> fields == [])
  {
    if |fields| == 1 {
      LastFieldText(Quote(fields[0].key), Print(fields[0].value), x);
      assert PrintFields(fields) == PrintField(fields[0]);
    } else if fields != [] {
      FieldText(Quote(fields[0].key), Print(fields[0].value), PrintFields(fields[1..]), x);
      assert PrintFields(fields) == PrintField(fields[0]) + "," + PrintFields(fields[1..]);
    }
  }

  lemma {:induction false} FieldsUnique(fs: seq<Field>, gs: seq<Field>, x: string, y: string)
    requires forall i :: 0 <= i < |fs| ==> WellFormed(fs[i].value)
    requires forall i :: 0 <= i < |gs| ==> WellFormed(gs[i].value)
    requires FieldsThen(fs, x) == FieldsThen(gs, y)
    ensures fs == gs && x == y
    decreases fs, 0
  {
    FieldsSplit(fs, x);
    FieldsSplit(gs, y);
    if fs == [] {
      DropFirst("}", x, y);
    } else {
      QuoteUnique(fs[0].key, gs[0].key, ":" + AfterKey(fs, x), ":" + AfterKey(gs, y));
      DropFirst(":", AfterKey(fs, x), AfterKey(gs, y));
      var u, w := FieldsTail(fs, x), FieldsTail(gs, y);
      PrintUnique(fs[0].value, gs[0].value, u, w);
      assert u[0] == w[0];
      assert fs == [fs[0]] + fs[1..] && gs == [gs[0]] + gs[1..];
      if |fs| == 1 {
        DropFirst("}", x, y);
      } else {
        DropFirst(",", FieldsThen(fs[1..], x), FieldsThen(gs[1..], y));
        FieldsUnique(fs[1..], gs[1..], x, y);
      }
    }
  }

  // ---- Equality up to key order ----

  /** Equality of two values up to the order of object keys, at every depth. */
  predicate Equiv(a: Json, b: Json)
    decreases a
  {
    match (a, b)
    case (Array(xs), Array(ys)) =>
      |xs| == |ys| && forall i :: 0 <= i < |xs| ==> Equiv(xs[i], ys[i])
    case (Object(fs), Object(gs)) =>
      && |fs| == |gs|
      && forall i :: 0 <= i < |fs| ==> HasEquivField(fs[i], gs)
    case _ => a == b
  }

  predicate HasEquivField(f: Field, gs: seq<Field>)
    decreases f, 1
  {
    exists j :: 0 <= j < |gs| && EquivFields(f, gs[j])
  }

  predicate EquivFields(f: Field, g: Field)
    decreases f, 0
  {
    f.key == g.key && Equiv(f.value, g.value)
  }

  lemma {:induction false} StringLeqTotal(a: string, b: string)
    ensures StringLeq(a, b) || StringLeq(b, a)
    ensures StringLeq(a, b) && StringLeq(b, a) ==> a == b
  {
    if a != [] && b != [] && a[0] == b[0] {
      StringLeqTotal(a[1..], b[1..]);
      assert a == [a[0]] + a[1..] && b == [b[0]] + b[1..];
    }
  }

  lemma {:induction false} StringLeqTransitive(a: string, b: string, c: string)
    requires StringLeq(a, b) && StringLeq(b, c)
    ensures StringLeq(a, c)
  {
    if a != [] && a[0] == b[0] && b[0] == c[0] {
      StringLeqTransitive(a[1..], b[1..], c[1..]);
    }
  }

  lemma KeyLeqIsPreorder()
    ensures TotalPreorder(KeyLeq)
  {
    forall x, y ensures KeyLeq(x, y) || KeyLeq(y, x) { StringLeqTotal(x.key, y.key); }
    forall x, y, z | KeyLeq(x, y) && KeyLeq(y, z) ensures KeyLeq(x, z) {
      StringLeqTransitive(x.key, y.key, z.key);
    }
  }

  lemma {:induction false} CanonWellFormed(v: Json)
    requires WellFormed(v)
    ensures WellFormed(Canon(v))
  {
    match v
    case Array(items) =>
      forall i | 0 <= i < |items| ensures WellFormed(Canon(items[i])) { CanonWellFormed(items[i]); }
    case Object(fields) =>
      forall i | 0 <= i < |fields| ensures WellFormed(Canon(fields[i].value)) { CanonWellFormed(fields[i].value); }
      PermutedFieldsWellFormed(CanonFields(fields), Sort(CanonFields(fields), KeyLeq));
    case _ =>
  }

  lemma PermutedFieldsWellFormed(fs: seq<Field>, gs: seq<Field>)
    requires multiset(fs) == multiset(gs) && DistinctKeys(fs)
    requires forall i :: 0 <= i < |fs| ==> WellFormed(fs[i].value)
    ensures DistinctKeys(gs)
    ensures forall i :: 0 <= i < |gs| ==> WellFormed(gs[i].value)
  {
    SameMembers(fs, gs);
    forall i | 0 <= i < |gs| ensures WellFormed(gs[i].value) { assert gs[i] in fs; }
    forall i, j | 0 <= i < j < |gs| ensures gs[i].key != gs[j].key {
      assert gs[i] in fs && gs[j] in fs;
      if gs[i].key == gs[j].key {
        assert gs[i] == gs[j];
        TwiceInMultiset(gs, i, j);
        OnceInMultiset(fs, gs[i]);
      }
    }
  }

  lemma TwiceInMultiset<T>(s: seq<T>, i: nat, j: nat)
    requires i < j < |s| && s[i] == s[j]
    ensures multiset(s)[s[i]] >= 2
  {
    assert s == s[..j] + s[j..];
    assert s[..j][i] == s[i] && s[j..][0] == s[j];
    assert multiset(s[..j])[s[i]] >= 1 && multiset(s[j..])[s[i]] >= 1;
  }

  lemma {:induction false} OnceInMultiset(fs: seq<Field>, f: Field)
    requires DistinctKeys(fs)
    ensures multiset(fs)[f] <= 1
  {
    if fs != [] {
      assert fs == [fs[0]] + fs[1..];
      OnceInMultiset(fs[1..], f);
      if f == fs[0] {
        assert f !in fs[1..];
      }
    }
  }

  /** Distinct keys, the same number of fields and inclusion make two field lists permutations. */
  lemma {:induction false} IncludedIsPermuted(fs: seq<Field>, gs: seq<Field>)
    requires DistinctKeys(fs) && |fs| == |gs|
    requires forall i :: 0 <= i < |fs| ==> fs[i] in gs
    ensures multiset(fs) == multiset(gs)
  {
    if fs != [] {
      var j :| 0 <= j < |gs| && gs[j] == fs[0];
      var gs' := gs[..j] + gs[j + 1..];
      forall i | 0 <= i < |fs[1..]| ensures fs[1..][i] in gs' {
        assert fs[1..][i] == fs[i + 1] && fs[i + 1].key != fs[0].key;
        StaysWithout(gs, j, fs[i + 1]);
      }
      IncludedIsPermuted(fs[1..], gs');
      PutBack(fs, gs, j);
    }
  }

  lemma PutBack<T>(s: seq<T>, t: seq<T>, j: nat)
    requires s != [] && j < |t| && t[j] == s[0]
    requires multiset(s[1..]) == multiset(t[..j] + t[j + 1..])
    ensures multiset(s) == multiset(t)
  {
    assert s == [s[0]] + s[1..];
    assert t == t[..j] + [t[j]] + t[j + 1..];
  }

  lemma StaysWithout<T>(s: seq<T>, j: nat, x: T)
    requires j < |s| && x in s && x != s[j]
    ensures x in s[..j] + s[j + 1..]
  {
    assert s == s[..j] + [s[j]] + s[j + 1..];
  }

  lemma SortedFieldsEqual(fs: seq<Field>, gs: seq<Field>)
    requires DistinctKeys(fs) && multiset(fs) == multiset(gs)
    ensures Sort(fs, KeyLeq) == Sort(gs, KeyLeq)
  {
    KeyLeqIsPreorder();
    SortIsSorted(fs, KeyLeq);
    SortIsSorted(gs, KeyLeq);
    var s := Sort(fs, KeyLeq);
    SameMembers(fs, s);
    forall x, y | x in s && y in s && KeyLeq(x, y) && KeyLeq(y, x) ensures x == y {
      StringLeqTotal(x.key, y.key);
      assert x in fs && y in fs;
    }
    SortedIsUnique(s, Sort(gs, KeyLeq), KeyLeq);
  }

  /** Two values are equal up to key order exactly when ordering their keys makes them equal. */
  lemma {:induction false} EquivIffCanon(a: Json, b: Json)
    requires WellFormed(a) && WellFormed(b)
    ensures Equiv(a, b) <==> Canon(a) == Canon(b)
    decreases a
  {
    match (a, b)
    case (Array(xs), Array(ys)) =>
      if |xs| == |ys| {
        forall i | 0 <= i < |xs| ensures Equiv(xs[i], ys[i]) <==> Canon(xs[i]) == Canon(ys[i]) {
          EquivIffCanon(xs[i], ys[i]);
        }
        assert Canon(a) == Canon(b) ==> forall i :: 0 <= i < |xs| ==> CanonItems(xs)[i] == CanonItems(ys)[i];
      } else {
        assert |CanonItems(xs)| != |CanonItems(ys)|;
      }
    case (Object(fs), Object(gs)) =>
      forall i, j | 0 <= i < |fs| && 0 <= j < |gs|
        ensures EquivFields(fs[i], gs[j]) <==> CanonFields(fs)[i] == CanonFields(gs)[j]
      {
        EquivIffCanon(fs[i].value, gs[j].value);
      }
      FieldsEquivIffCanon(fs, gs);
    case _ =>
  }

  lemma FieldsEquivIffCanon(fs: seq<Field>, gs: seq<Field>)
    requires DistinctKeys(fs) && DistinctKeys(gs)
    requires forall i, j :: 0 <= i < |fs| && 0 <= j < |gs| ==>
               (EquivFields(fs[i], gs[j]) <==> CanonFields(fs)[i] == CanonFields(gs)[j])
    ensures Equiv(Object(fs), Object(gs)) <==> Canon(Object(fs)) == Canon(Object(gs))
  {
    if Equiv(Object(fs), Object(gs)) {
      EquivFieldsPermuted(fs, gs);
      SortedFieldsEqual(CanonFields(fs), CanonFields(gs));
    }
    if Canon(Object(fs)) == Canon(Object(gs)) {
      assert multiset(CanonFields(fs)) == multiset(CanonFields(gs)) by {
        assert Sort(CanonFields(fs), KeyLeq) == Sort(CanonFields(gs), KeyLeq);
      }
      PermutedFieldsEquiv(fs, gs);
    }
  }

  lemma EquivFieldsPermuted(fs: seq<Field>, gs: seq<Field>)
    requires DistinctKeys(fs)
    requires forall i, j :: 0 <= i < |fs| && 0 <= j < |gs| ==>
               (EquivFields(fs[i], gs[j]) <==> CanonFields(fs)[i] == CanonFields(gs)[j])
    requires Equiv(Object(fs), Object(gs))
    ensures multiset(CanonFields(fs)) == multiset(CanonFields(gs))
  {
    forall i | 0 <= i < |fs| ensures CanonFields(fs)[i] in CanonFields(gs) {
      assert HasEquivField(fs[i], gs);
      var j :| 0 <= j < |gs| && EquivFields(fs[i], gs[j]);
      assert CanonFields(fs)[i] == CanonFields(gs)[j];
    }
    IncludedIsPermuted(CanonFields(fs), CanonFields(gs));
  }

  lemma PermutedFieldsEquiv(fs: seq<Field>, gs: seq<Field>)
    requires forall i, j :: 0 <= i < |fs| && 0 <= j < |gs| ==>
               (EquivFields(fs[i], gs[j]) <==> CanonFields(fs)[i] == CanonFields(gs)[j])
    requires multiset(CanonFields(fs)) == multiset(CanonFields(gs))
    ensures Equiv(Object(fs), Object(gs))
  {
    SameMembers(CanonFields(fs), CanonFields(gs));
    forall i | 0 <= i < |fs| ensures HasEquivField(fs[i], gs) {
      assert CanonFields(fs)[i] in CanonFields(gs);
      var j :| 0 <= j < |gs| && CanonFields(gs)[j] == CanonFields(fs)[i];
      assert EquivFields(fs[i], gs[j]);
    }
  }

  /** The canonical text identifies a value exactly up to key order. */
  lemma StringifyIffEquiv(a: Json, b: Json)
    requires WellFormed(a) && WellFormed(b)
    ensures StableStringify(a) == StableStringify(b) <==> Equiv(a, b)
  {
    StringifyPrintsCanon(a);
    StringifyPrintsCanon(b);
    EquivIffCanon(a, b);
    if StableStringify(a) == StableStringify(b) {
      CanonWellFormed(a);
      CanonWellFormed(b);
      assert Print(Canon(a)) + "" == Print(Canon(b)) + "";
      PrintUnique(Canon(a), Canon(b), "", "");
    }
  }

  lemma EquivIsEquivalence(a: Json, b: Json, c: Json)
    requires WellFormed(a) && WellFormed(b) && WellFormed(c)
    ensures Equiv(a, a)
    ensures Equiv(a, b) ==> Equiv(b, a)
    ensures Equiv(a, b) && Equiv(b, c) ==> Equiv(a, c)
  {
    EquivIffCanon(a, a);
    EquivIffCanon(a, b);
    EquivIffCanon(b, a);
    EquivIffCanon(b, c);
    EquivIffCanon(a, c);
  }
}
