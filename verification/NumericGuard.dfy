/**
  The numeric-authorship guard (services/orchestrator/src/numeric-guard.ts): every number of a narrative must
  occur in the evidence. JavaScript's insertion-ordered `Set` is a sequence without repetitions.
 */
module NumericGuard {
  import opened Sorting
  import opened Digits

  // ---- Tokens: \d[\d,]*(?:\.\d+)? ----

  predicate IsBody(c: char) { IsDigit(c) || c == ',' }

  /** The length of the longest prefix whose characters all satisfy `p`. */
  function Run(s: string, p: char -> bool): (n: nat)
    ensures n <= |s|
    ensures forall i :: 0 <= i < n ==> p(s[i])
    ensures n < |s| ==> !p(s[n])
  {
    if s == [] || !p(s[0]) then 0 else 1 + Run(s[1..], p)
  }

  lemma {:induction false} RunIs(s: string, p: char -> bool, n: nat)
    requires n <= |s| && (forall i :: 0 <= i < n ==> p(s[i])) && (n < |s| ==> !p(s[n]))
    ensures Run(s, p) == n
  {
    if n > 0 { RunIs(s[1..], p, n - 1); }
  }

  /** The length of the token at the start of `s`: digits and commas, then a dot if digits follow it. */
  function TokenLength(s: string): (n: nat)
    requires s != [] && IsDigit(s[0])
    ensures 0 < n <= |s|
  {
    var n := Run(s, IsBody);
    if n + 1 < |s| && s[n] == '.' && IsDigit(s[n + 1]) then n + 1 + Run(s[n + 1..], IsDigit) else n
  }

  /** The matches of the pattern, from left to right. */
  function Tokens(s: string): seq<string>
    decreases |s|
  {
    if s == [] then []
    else if IsDigit(s[0]) then [s[..TokenLength(s)]] + Tokens(s[TokenLength(s)..])
    else Tokens(s[1..])
  }

  // ---- Normal form ----

  function WithoutCommas(s: string): string {
    if s == [] then "" else (if s[0] == ',' then "" else [s[0]]) + WithoutCommas(s[1..])
  }

  predicate AllZeros(s: string) { forall i :: 0 <= i < |s| ==> s[i] == '0' }

  /** Drops a final dot followed by zeros only. */
  function WithoutZeroFraction(s: string): string {
    if s == [] then ""
    else if s[0] == '.' && |s| > 1 && AllZeros(s[1..]) then ""
    else [s[0]] + WithoutZeroFraction(s[1..])
  }

  function Normalised(token: string): string { WithoutZeroFraction(WithoutCommas(token)) }

  // ---- The guard ----

  function Add<T(==)>(out: seq<T>, x: T): seq<T> { if x in out then out else out + [x] }

  /** The distinct elements in order of first occurrence. */
  function Distinct<T(==)>(s: seq<T>): seq<T> {
    if s == [] then [] else Add(Distinct(s[..|s| - 1]), s[|s| - 1])
  }

  /** The numbers of a text one by one. */
  function NormalTokens(text: string): seq<string> { Mapped(Tokens(text), Normalised) }

  function Numbers(text: string): seq<string> { Distinct(NormalTokens(text)) }

  method ExtractNumbers(text: string) returns (out: seq<string>)
    ensures out == Numbers(text)
  {
    var matches := Tokens(text);
    out := [];
    for i := 0 to |matches|
      invariant out == Distinct(Mapped(matches, Normalised)[..i])
    {
      assert Mapped(matches, Normalised)[..i + 1][..i] == Mapped(matches, Normalised)[..i];
      out := Add(out, Normalised(matches[i]));
    }
    assert Mapped(matches, Normalised)[..|matches|] == Mapped(matches, Normalised);
  }

  function Ungrounded(narrative: string, evidence: string): seq<string> {
    Filtered(Numbers(narrative), (n: string) => n !in Numbers(evidence))
  }

  method UngroundedNumbers(narrative: string, evidence: string) returns (bad: seq<string>)
    ensures bad == Ungrounded(narrative, evidence)
  {
    var allowed := ExtractNumbers(evidence);
    var used := ExtractNumbers(narrative);
    ghost var missing := (n: string) => n !in Numbers(evidence);
    hide Numbers;
    bad := [];
    for i := 0 to |used|
      invariant bad == Filtered(used[..i], missing)
    {
      assert used[..i + 1] == used[..i] + [used[i]];
      FilteredAppend(used[..i], [used[i]], missing);
      if used[i] !in allowed { bad := bad + [used[i]]; }
    }
    assert used[..|used|] == used;
  }

  lemma {:induction false} DistinctFacts<T>(s: seq<T>)
    ensures forall x :: x in Distinct(s) <==> x in s
    ensures forall i, j :: 0 <= i < j < |Distinct(s)| ==> Distinct(s)[i] != Distinct(s)[j]
  {
    if s != [] {
      var front := s[..|s| - 1];
      assert s == front + [s[|s| - 1]];
      DistinctFacts(front);
    }
  }

  /** A narrative is accepted exactly when all its numbers occur in the evidence; the missing ones are named. */
  lemma AcceptedIff(narrative: string, evidence: string)
    ensures Ungrounded(narrative, evidence) == [] <==> forall n :: n in Numbers(narrative) ==> n in Numbers(evidence)
    ensures forall n :: n in Ungrounded(narrative, evidence) <==> n in Numbers(narrative) && n !in Numbers(evidence)
  {
    hide Numbers;
    var missing := (n: string) => n !in Numbers(evidence);
    var used, bad := Numbers(narrative), Ungrounded(narrative, evidence);
    assert forall n :: n in bad <==> n in used && missing(n);
    assert bad != [] ==> bad[0] in bad;
  }

  // ---- Homomorphism ----

  predicate NoDigits(s: string) { forall i :: 0 <= i < |s| ==> !IsDigit(s[i]) }

  predicate AllCommas(c: string) { forall i :: 0 <= i < |c| ==> c[i] == ',' }

  predicate IsComma(c: char) { c == ',' }

  /** Commas with at most one dot behind them: between two digits these make one number, or nothing does. */
  predicate IsJoint(s: string) {
    var n := Run(s, IsComma);
    n == |s| || (n + 1 == |s| && s[n] == '.')
  }

  /** Text that keeps the numbers on its two sides apart and adds none. */
  predicate IsSeparator(s: string) { NoDigits(s) && !IsJoint(s) }

  /** No token before this text goes on into it. */
  predicate StartsApart(t: string) {
    t == [] || (!IsBody(t[0]) && (t[0] == '.' ==> |t| == 1 || !IsDigit(t[1])))
  }

  lemma RunInPrefix(a: string, t: string, p: char -> bool)
    requires t == [] || !p(t[0])
    ensures Run(a + t, p) == Run(a, p)
  {
    RunIs(a + t, p, Run(a, p));
  }

  /** What follows the digits and commas belongs to the token: nothing, or a dot and the digits behind it. */
  function FractionLength(rest: string): nat {
    if |rest| > 1 && rest[0] == '.' && IsDigit(rest[1]) then 1 + Run(rest[1..], IsDigit) else 0
  }

  lemma TokenLengthIs(s: string, n: nat)
    requires s != [] && IsDigit(s[0]) && Run(s, IsBody) == n
    ensures TokenLength(s) == n + FractionLength(s[n..])
  {
    assert n + 1 < |s| ==> s[n..][1..] == s[n + 1..];
  }

  lemma FractionInPrefix(rest: string, t: string)
    requires t == [] || !IsDigit(t[0])
    requires rest == [] ==> t == [] || t[0] != '.' || |t| == 1 || !IsDigit(t[1])
    ensures FractionLength(rest + t) == FractionLength(rest)
  {
    if |rest| > 1 {
      assert (rest + t)[1..] == rest[1..] + t;
      RunInPrefix(rest[1..], t, IsDigit);
    } else if |rest| == 1 {
      assert |t| > 0 ==> (rest + t)[1] == t[0];
    } else {
      assert rest + t == t;
    }
  }

  /** Such a text neither goes on with digits nor, at once, with a fraction. */
  lemma ApartOrCommas(t: string)
    requires StartsApart(t) || AllCommas(t)
    ensures t == [] || !IsDigit(t[0])
    ensures t == [] || t[0] != '.' || |t| == 1 || !IsDigit(t[1])
  {
  }

  lemma RunEndsInside(a: string, t: string)
    requires StartsApart(t) || Run(a, IsBody) < |a|
    ensures Run(a + t, IsBody) == Run(a, IsBody)
  {
    RunIs(a + t, IsBody, Run(a, IsBody));
  }

  lemma TokenInPrefix(a: string, t: string)
    requires a != [] && IsDigit(a[0])
    requires StartsApart(t) || (AllCommas(t) && Run(a, IsBody) < |a|)
    ensures (a + t) != [] && IsDigit((a + t)[0]) && TokenLength(a + t) == TokenLength(a)
  {
    hide TokenLength, FractionLength, Run, StartsApart, AllCommas, IsDigit, IsBody;
    var n := Run(a, IsBody);
    ApartOrCommas(t);
    RunEndsInside(a, t);
    TokenLengthIs(a, n);
    TokenLengthIs(a + t, n);
    FractionInPrefix(a[n..], t);
    assert (a + t)[n..] == a[n..] + t;
  }

  lemma {:induction false} TokensOfConcat(a: string, t: string)
    requires StartsApart(t)
    ensures Tokens(a + t) == Tokens(a) + Tokens(t)
    decreases |a|
  {
    hide StartsApart, TokenLength, IsDigit;
    if a == [] {
      assert a + t == t;
    } else if IsDigit(a[0]) {
      TokenInPrefix(a, t);
      var n := TokenLength(a);
      assert (a + t)[..n] == a[..n] && (a + t)[n..] == a[n..] + t;
      TokensOfConcat(a[n..], t);
    } else {
      assert (a + t)[1..] == a[1..] + t;
      TokensOfConcat(a[1..], t);
    }
  }

  lemma {:induction false} TokensAfterSeparator(s: string, b: string)
    requires NoDigits(s)
    ensures Tokens(s + b) == Tokens(b)
  {
    if s == [] {
      assert s + b == b;
    } else {
      assert (s + b)[1..] == s[1..] + b;
      TokensAfterSeparator(s[1..], b);
    }
  }

  lemma {:induction false} CommasAreNothing(c: string)
    requires AllCommas(c)
    ensures WithoutCommas(c) == "" && NoDigits(c)
  {
    if c != [] { CommasAreNothing(c[1..]); }
  }

  /** A text that is one run of digits and commas is one token. */
  lemma TokenIsText(s: string)
    requires s != [] && IsDigit(s[0]) && forall i :: 0 <= i < |s| ==> IsBody(s[i])
    ensures Tokens(s) == [s]
  {
    RunIs(s, IsBody, |s|);
    assert s[..|s|] == s && s[|s|..] == "";
  }

  /** Commas at the end of a text go with its last number, or with nothing, and change no number. */
  lemma {:induction false} CommasChangeNothing(a: string, c: string)
    requires AllCommas(c)
    ensures NormalTokens(a + c) == NormalTokens(a)
    decreases |a|
  {
    CommasAreNothing(c);
    if a == [] {
      assert a + c == c;
      assert c + "" == c;
      TokensAfterSeparator(c, "");
    } else if !IsDigit(a[0]) {
      assert (a + c)[1..] == a[1..] + c;
      CommasChangeNothing(a[1..], c);
    } else if Run(a, IsBody) == |a| {
      TokenIsText(a);
      TokenIsText(a + c);
      CommasAcross(a, c);
      assert WithoutCommas(a) + "" == WithoutCommas(a);
    } else {
      TokenInPrefix(a, c);
      var n := TokenLength(a);
      assert (a + c)[..n] == a[..n] && (a + c)[n..] == a[n..] + c;
      CommasChangeNothing(a[n..], c);
    }
  }

  /** The numbers of two texts with a separator between them are those of the first, then those of the second. */
  lemma TokensAcrossSeparator(a: string, s: string, b: string)
    requires IsSeparator(s)
    ensures NormalTokens(a + s + b) == NormalTokens(a) + NormalTokens(b)
  {
    var n := Run(s, IsComma);
    var c, t := s[..n], s[n..];
    assert a + s + b == (a + c) + (t + b);
    TokensOfConcat(a + c, t + b);
    TokensAfterSeparator(t, b);
    MappedAppend(Tokens(a + c), Tokens(b), Normalised);
    hide Tokens, Normalised, StartsApart;
    CommasChangeNothing(a, c);
  }

  /** What a text between two others does to their numbers. */
  ghost predicate KeepsApart(s: string, a: string, b: string) {
    forall n :: n in Numbers(a + s + b) <==> n in Numbers(a) || n in Numbers(b)
  }

  lemma NumbersAreTokens(text: string)
    ensures forall n :: n in Numbers(text) <==> n in NormalTokens(text)
  {
    DistinctFacts(NormalTokens(text));
  }

  /** So the numbers of a text joined by a separator are the union of both sides. */
  lemma NumbersAcrossSeparator(a: string, s: string, b: string)
    requires IsSeparator(s)
    ensures KeepsApart(s, a, b)
  {
    TokensAcrossSeparator(a, s, b);
    NumbersAreTokens(a);
    NumbersAreTokens(b);
    NumbersAreTokens(a + s + b);
    hide Numbers, NormalTokens, IsSeparator;
  }

  lemma {:induction false} DigitsMakeTokens(s: string)
    requires !NoDigits(s)
    ensures Tokens(s) != []
    decreases |s|
  {
    if !IsDigit(s[0]) {
      assert !NoDigits(s[1..]);
      DigitsMakeTokens(s[1..]);
    }
  }

  lemma JointParts(s: string) returns (c: string)
    requires IsJoint(s)
    ensures AllCommas(c) && (s == c || s == c + ".")
  {
    c := s[..Run(s, IsComma)];
  }

  /** Between the digits 1 and 2 a joint makes one number of the two. */
  lemma JointMerges(s: string)
    requires IsJoint(s)
    ensures NormalTokens("1" + s + "2") == ["12"] || NormalTokens("1" + s + "2") == ["1.2"]
  {
    hide NormalTokens, IsJoint, AllCommas;
    var c := JointParts(s);
    CommasMerge(c);
    DottedJointMerges(c);
    assert "1" + (c + ".") + "2" == "1" + c + ".2";
  }

  lemma CommasMerge(c: string)
    requires AllCommas(c)
    ensures NormalTokens("1" + c + "2") == ["12"]
  {
    CommasAreNothing(c);
    TokenIsText("1" + c + "2");
    CommasAcross("1" + c, "2");
    CommasAcross("1", c);
    NoCommas("1");
    NoCommas("2");
    hide Tokens, WithoutCommas;
    assert WithoutCommas("1" + c + "2") == "12";
    NoCommas("12");
    DigitsAreNormal("12");
  }

  lemma DottedJointMerges(c: string)
    requires AllCommas(c)
    ensures NormalTokens("1" + c + ".2") == ["1.2"]
  {
    var text := "1" + c + ".2";
    DottedToken("1" + c);
    assert text == "1" + c + "." + "2";
    CommasAreNothing(c);
    CommasAcross("1" + c, ".2");
    CommasAcross("1", c);
    NoCommas("1");
    NoCommas(".2");
    hide Tokens, WithoutCommas, AllCommas;
    assert "1" + c + ".2" == ("1" + c) + ".2";
    assert WithoutCommas(text) == "1.2";
    OnePointTwo();
  }

  lemma OnePointTwo()
    ensures WithoutZeroFraction("1.2") == "1.2"
  {
    NoCommas("1.2");
    assert "1.2" == "1" + "." + "2";
    FractionIsNormal("1", "2");
    assert !AllZeros("2");
  }

  /** Digits and commas, a dot and a digit are one token. */
  lemma DottedToken(body: string)
    requires body != [] && IsDigit(body[0]) && forall i :: 0 <= i < |body| ==> IsBody(body[i])
    ensures Tokens(body + "." + "2") == [body + "." + "2"]
  {
    var text := body + "." + "2";
    RunIs(text, IsBody, |body|);
    assert text[|body| + 1..] == "2";
    RunIs("2", IsDigit, 1);
    assert TokenLength(text) == |text|;
    assert text[..|text|] == text && text[|text|..] == "";
  }

  lemma SidesAreNormal()
    ensures NormalTokens("") == [] && NormalTokens("1") == ["1"] && NormalTokens("2") == ["2"]
  {
    TokenIsText("1");
    TokenIsText("2");
    DigitsAreNormal("1");
    DigitsAreNormal("2");
  }

  /**
    A text keeps the numbers of all its surroundings apart, and adds none, exactly when it has no digit and is
    not just commas with at most one dot behind them (nor empty).
   */
  lemma SeparatesIff(s: string)
    ensures (forall a, b :: KeepsApart(s, a, b)) <==> IsSeparator(s)
  {
    if IsSeparator(s) {
      forall a, b ensures KeepsApart(s, a, b) { NumbersAcrossSeparator(a, s, b); }
    } else {
      SidesAreNormal();
      NumbersAreTokens("");
      NumbersAreTokens("1");
      NumbersAreTokens("2");
      if !NoDigits(s) {
        DigitsMakeTokens(s);
        assert "" + s + "" == s;
        NumbersAreTokens(s);
        assert NormalTokens(s)[0] in Numbers("" + s + "");
        assert !KeepsApart(s, "", "");
      } else {
        JointMerges(s);
        NumbersAreTokens("1" + s + "2");
        assert NormalTokens("1" + s + "2")[0] in Numbers("1" + s + "2");
        assert !KeepsApart(s, "1", "2");
      }
    }
  }

  /** Two narratives with a separator between them are accepted exactly when each is. */
  lemma AcceptedTogether(a: string, s: string, b: string, evidence: string)
    requires IsSeparator(s)
    ensures Ungrounded(a + s + b, evidence) == [] <==> Ungrounded(a, evidence) == [] && Ungrounded(b, evidence) == []
  {
    NumbersAcrossSeparator(a, s, b);
    AcceptedIff(a + s + b, evidence);
    AcceptedIff(a, evidence);
    AcceptedIff(b, evidence);
    hide *;
  }

  /** More evidence, set apart, never rejects a narrative that was accepted. */
  lemma EvidenceOnlyGrows(narrative: string, evidence: string, s: string, more: string)
    requires IsSeparator(s)
    ensures forall n :: n in Ungrounded(narrative, evidence + s + more) <==>
                        n in Ungrounded(narrative, evidence) && n in Ungrounded(narrative, more)
  {
    NumbersAcrossSeparator(evidence, s, more);
    AcceptedIff(narrative, evidence + s + more);
    AcceptedIff(narrative, evidence);
    AcceptedIff(narrative, more);
    hide *;
  }

  // ---- Round trip ----

  /** A normal number: digits, and after a dot digits that are not all zeros. */
  ghost predicate IsNormal(t: string) {
    exists whole, frac :: IsNormalAs(t, whole, frac)
  }

  predicate IsNormalAs(t: string, whole: string, frac: string) {
    && whole != [] && AllDigits(whole) && AllDigits(frac)
    && (if frac == "" then t == whole else t == whole + "." + frac && !AllZeros(frac))
  }

  lemma {:induction false} NoCommas(s: string)
    requires forall i :: 0 <= i < |s| ==> s[i] != ','
    ensures WithoutCommas(s) == s
  {
    if s != [] { NoCommas(s[1..]); }
  }

  lemma {:induction false} DigitsKeepFraction(whole: string, rest: string)
    requires AllDigits(whole)
    ensures WithoutZeroFraction(whole + rest) == whole + WithoutZeroFraction(rest)
  {
    if whole == [] {
      assert whole + rest == rest;
    } else {
      assert (whole + rest)[1..] == whole[1..] + rest;
      DigitsKeepFraction(whole[1..], rest);
    }
  }

  lemma DigitsAreNormal(s: string)
    requires AllDigits(s)
    ensures Normalised(s) == s
  {
    NoCommas(s);
    DigitsKeepFraction(s, "");
    assert s + "" == s;
  }

  lemma FractionIsNormal(whole: string, frac: string)
    requires AllDigits(whole) && AllDigits(frac)
    ensures Normalised(whole + "." + frac) == if frac != "" && AllZeros(frac) then whole else whole + "." + frac
  {
    var t := whole + "." + frac;
    NoCommas(t);
    assert t == whole + ("." + frac);
    DigitsKeepFraction(whole, "." + frac);
    assert ("." + frac)[1..] == frac;
    DigitsKeepFraction(frac, "");
    assert frac + "" == frac;
  }

  lemma NormalReadsBack(t: string)
    requires IsNormal(t)
    ensures Tokens(t) == [t] && Normalised(t) == t
  {
    var whole, frac :| IsNormalAs(t, whole, frac);
    hide Normalised, Tokens;
    if frac == "" {
      DigitsAreNormal(t);
      TokenIsText(t);
    } else {
      FractionIsNormal(whole, frac);
      DecimalIsToken(whole, frac);
    }
  }

  lemma DecimalIsToken(whole: string, frac: string)
    requires whole != [] && AllDigits(whole) && frac != [] && AllDigits(frac)
    ensures Tokens(whole + "." + frac) == [whole + "." + frac]
  {
    var t := whole + "." + frac;
    RunIs(t, IsBody, |whole|);
    assert t[|whole| + 1..] == frac;
    RunIs(frac, IsDigit, |frac|);
    assert TokenLength(t) == |t|;
    assert t[..|t|] == t && t[|t|..] == "";
  }

  /** Each number followed by its separator. */
  function Written(numbers: seq<string>, separators: seq<string>): string
    requires |numbers| == |separators|
  {
    if numbers == [] then "" else numbers[0] + separators[0] + Written(numbers[1..], separators[1..])
  }

  /** Normal numbers written with separators are read back, one by one and in order. */
  lemma {:induction false} WrittenReadsBack(numbers: seq<string>, separators: seq<string>)
    requires |numbers| == |separators|
    requires forall i :: 0 <= i < |numbers| ==> IsNormal(numbers[i]) && IsSeparator(separators[i])
    ensures NormalTokens(Written(numbers, separators)) == numbers
    ensures Numbers(Written(numbers, separators)) == Distinct(numbers)
  {
    hide IsNormal, IsSeparator, Tokens, Normalised, Distinct;
    if numbers != [] {
      WrittenReadsBack(numbers[1..], separators[1..]);
      NormalReadsBack(numbers[0]);
      OneNormal(numbers[0]);
      TokensAcrossSeparator(numbers[0], separators[0], Written(numbers[1..], separators[1..]));
      assert numbers == [numbers[0]] + numbers[1..];
    } else {
      NothingExtracted();
    }
  }

  lemma OneNormal(t: string)
    requires Tokens(t) == [t] && Normalised(t) == t
    ensures NormalTokens(t) == [t]
  {
  }

  lemma NothingExtracted()
    ensures NormalTokens("") == []
  {
  }

  /** Every number the guard extracts is normal, so writing what was extracted and extracting again changes nothing. */
  lemma ExtractedReadsBack(text: string, separators: seq<string>)
    requires |Numbers(text)| == |separators| && forall i :: 0 <= i < |separators| ==> IsSeparator(separators[i])
    ensures Numbers(Written(Numbers(text), separators)) == Numbers(text)
  {
    ExtractedAreNormal(text);
    DistinctFacts(Mapped(Tokens(text), Normalised));
    WrittenReadsBack(Numbers(text), separators);
    DistinctOfDistinct(Numbers(text));
  }

  lemma {:induction false} DistinctOfDistinct<T>(s: seq<T>)
    requires forall i, j :: 0 <= i < j < |s| ==> s[i] != s[j]
    ensures Distinct(s) == s
  {
    if s != [] {
      var front := s[..|s| - 1];
      DistinctOfDistinct(front);
      assert s == front + [s[|s| - 1]];
    }
  }

  lemma ExtractedAreNormal(text: string)
    ensures forall i :: 0 <= i < |Numbers(text)| ==> IsNormal(Numbers(text)[i])
  {
    var tokens := Tokens(text);
    DistinctFacts(Mapped(tokens, Normalised));
    TokensAreTokens(text);
    forall i | 0 <= i < |tokens| ensures IsNormal(Normalised(tokens[i])) { TokenIsNormal(tokens[i]); }
    forall i | 0 <= i < |Numbers(text)| ensures IsNormal(Numbers(text)[i]) {
      assert Numbers(text)[i] in Mapped(tokens, Normalised);
    }
  }

  /** The shape the pattern matches. */
  predicate IsToken(t: string, body: string, frac: string) {
    && body != [] && IsDigit(body[0]) && (forall i :: 0 <= i < |body| ==> IsBody(body[i])) && AllDigits(frac)
    && t == if frac == "" then body else body + "." + frac
  }

  ghost predicate MatchesPattern(t: string) { exists body, frac :: IsToken(t, body, frac) }

  lemma FirstTokenMatches(s: string)
    requires s != [] && IsDigit(s[0])
    ensures MatchesPattern(s[..TokenLength(s)])
  {
    var n := Run(s, IsBody);
    var t := s[..TokenLength(s)];
    if n + 1 < |s| && s[n] == '.' && IsDigit(s[n + 1]) {
      assert IsToken(t, s[..n], t[n + 1..]) by { assert t == s[..n] + "." + t[n + 1..]; }
    } else {
      assert IsToken(t, t, "");
    }
  }

  lemma {:induction false} TokensAreTokens(s: string)
    ensures forall i :: 0 <= i < |Tokens(s)| ==> MatchesPattern(Tokens(s)[i])
    decreases |s|
  {
    if s != [] {
      if IsDigit(s[0]) {
        FirstTokenMatches(s);
        TokensAreTokens(s[TokenLength(s)..]);
      } else {
        TokensAreTokens(s[1..]);
      }
    }
  }

  lemma {:induction false} CommasStripped(body: string)
    requires forall i :: 0 <= i < |body| ==> IsBody(body[i])
    ensures AllDigits(WithoutCommas(body))
  {
    if body != [] { CommasStripped(body[1..]); }
  }

  lemma {:induction false} CommasAcross(a: string, b: string)
    ensures WithoutCommas(a + b) == WithoutCommas(a) + WithoutCommas(b)
  {
    if a == [] {
      assert a + b == b;
    } else {
      assert (a + b)[1..] == a[1..] + b;
      CommasAcross(a[1..], b);
    }
  }

  lemma TokenIsNormal(t: string)
    requires MatchesPattern(t)
    ensures IsNormal(Normalised(t))
  {
    var body, frac :| IsToken(t, body, frac);
    var whole := WithoutCommas(body);
    CommasStripped(body);
    assert whole != [];
    if frac == "" {
      DigitsAreNormal(whole);
      NoCommas(whole);
      assert IsNormalAs(whole, whole, "");
    } else {
      CommasAcross(body, "." + frac);
      NoCommas("." + frac);
      assert body + "." + frac == body + ("." + frac) && whole + "." + frac == whole + ("." + frac);
      NoCommas(whole + "." + frac);
      FractionIsNormal(whole, frac);
      assert IsNormalAs(Normalised(t), whole, if AllZeros(frac) then "" else frac);
    }
  }
}
