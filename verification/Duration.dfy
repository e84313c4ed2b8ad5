/**
  ISO 8601 durations in the designator format (section 4.4.3.2 of ISO 8601:2004), weeks to seconds, as
  services/ingestion-scheduler/src/duration.ts accepts them.
 */
module Duration {
  import opened Wrappers
  import opened Digits

  /** The length of the longest run of digits at the start. */
  function DigitRun(s: string): (n: nat)
    ensures n <= |s| && AllDigits(s[..n]) && (n < |s| ==> !IsDigit(s[n]))
  {
    if s == [] || !IsDigit(s[0]) then 0
    else
      var n := DigitRun(s[1..]);
      assert s[..n + 1] == [s[0]] + s[1..][..n];
      n + 1
  }

  datatype Component = Component(digits: Option<string>, rest: string)

  /** An optional `(\d+)X` at the start. */
  function TakeComponent(s: string, designator: char): Component {
    var n := DigitRun(s);
    if 0 < n < |s| && s[n] == designator then Component(Some(s[..n]), s[n + 1..]) else Component(None, s)
  }

  /** The digits of each component of a duration, and whether the `T` is there. */
  datatype Parts = Parts(
    weeks: Option<string>, days: Option<string>, time: bool,
    hours: Option<string>, minutes: Option<string>, seconds: Option<string>)

  function Match(d: string): Option<Parts> {
    if d == [] || d[0] != 'P' then None
    else
      var w := TakeComponent(d[1..], 'W');
      var days := TakeComponent(w.rest, 'D');
      if days.rest == [] then Some(Parts(w.digits, days.digits, false, None, None, None))
      else if days.rest[0] != 'T' then None
      else
        var h := TakeComponent(days.rest[1..], 'H');
        var m := TakeComponent(h.rest, 'M');
        var s := TakeComponent(m.rest, 'S');
        if s.rest == [] then Some(Parts(w.digits, days.digits, true, h.digits, m.digits, s.digits)) else None
  }

  predicate Number(c: Option<string>) { c.Some? ==> c.value != [] && AllDigits(c.value) }

  predicate WellFormed(p: Parts) {
    && Number(p.weeks) && Number(p.days) && Number(p.hours) && Number(p.minutes) && Number(p.seconds)
    && (!p.time ==> p.hours.None? && p.minutes.None? && p.seconds.None?)
  }

  function Amount(c: Option<string>): nat
    requires Number(c)
  {
    if c.Some? then DigitsValue(c.value) else 0
  }

  function Milliseconds(p: Parts): nat
    requires WellFormed(p)
  {
    1000 * (Amount(p.weeks) * 7 * 86400 + Amount(p.days) * 86400 + Amount(p.hours) * 3600
            + Amount(p.minutes) * 60 + Amount(p.seconds))
  }

  lemma TakenIsNumber(s: string, designator: char)
    ensures Number(TakeComponent(s, designator).digits)
  {
  }

  lemma MatchIsWellFormed(d: string)
    ensures Match(d).Some? ==> WellFormed(Match(d).value)
  {
    if Match(d).Some? {
      var w := TakeComponent(d[1..], 'W');
      TakenIsNumber(d[1..], 'W');
      var days := TakeComponent(w.rest, 'D');
      TakenIsNumber(w.rest, 'D');
      hide TakeComponent, Number;
      if days.rest != [] { TimeIsNumbers(days.rest[1..]); }
    }
  }

  lemma TimeIsNumbers(text: string)
    ensures var h := TakeComponent(text, 'H');
      var m := TakeComponent(h.rest, 'M');
      Number(h.digits) && Number(m.digits) && Number(TakeComponent(m.rest, 'S').digits)
  {
    hide TakeComponent, Number;
    var h := TakeComponent(text, 'H');
    TakenIsNumber(text, 'H');
    TakenIsNumber(h.rest, 'M');
    TakenIsNumber(TakeComponent(h.rest, 'M').rest, 'S');
  }

  /** The duration in milliseconds; `None` where the source throws. */
  function ParseIsoDuration(d: string): Option<nat> {
    var m := Match(d);
    if m.None? || d == "P" || d == "PT" then None
    else
      MatchIsWellFormed(d);
      Some(Milliseconds(m.value))
  }

  // ---- Writing a duration ----

  function ComponentText(c: Option<string>, designator: char): string {
    if c.Some? then c.value + [designator] else ""
  }

  function TimeText(p: Parts): string {
    if p.time then
      "T" + (ComponentText(p.hours, 'H') + (ComponentText(p.minutes, 'M') + ComponentText(p.seconds, 'S')))
    else ""
  }

  function DurationText(p: Parts): string {
    "P" + (ComponentText(p.weeks, 'W') + (ComponentText(p.days, 'D') + TimeText(p)))
  }

  lemma {:induction false} DigitRunIs(digits: string, rest: string)
    requires AllDigits(digits) && (rest == [] || !IsDigit(rest[0]))
    ensures DigitRun(digits + rest) == |digits|
  {
    if digits == [] {
      assert digits + rest == rest;
    } else {
      assert (digits + rest)[1..] == digits[1..] + rest;
      DigitRunIs(digits[1..], rest);
    }
  }

  /** `rest` does not itself start with a component of this designator. */
  predicate NoComponent(rest: string, designator: char) { TakeComponent(rest, designator).digits.None? }

  lemma TakeWritten(c: Option<string>, designator: char, rest: string)
    requires Number(c) && !IsDigit(designator) && NoComponent(rest, designator)
    ensures TakeComponent(ComponentText(c, designator) + rest, designator) == Component(c, rest)
  {
    if c.Some? {
      var s := ComponentText(c, designator) + rest;
      assert s == c.value + ([designator] + rest);
      DigitRunIs(c.value, [designator] + rest);
      assert s[..|c.value|] == c.value && s[|c.value| + 1..] == rest;
    } else {
      assert ComponentText(c, designator) + rest == rest;
    }
  }

  /** Text that begins with a component of another designator, or with `T`, or is empty. */
  lemma OtherComponent(c: Option<string>, other: char, rest: string, designator: char)
    requires Number(c) && !IsDigit(other) && other != designator && NoComponent(rest, designator)
    ensures NoComponent(ComponentText(c, other) + rest, designator)
  {
    if c.Some? {
      var s := ComponentText(c, other) + rest;
      assert s == c.value + ([other] + rest);
      DigitRunIs(c.value, [other] + rest);
      assert s[|c.value|] == other;
    } else {
      assert ComponentText(c, other) + rest == rest;
    }
  }

  lemma TimeMatches(p: Parts)
    requires WellFormed(p) && p.time
    ensures var text := TimeText(p)[1..];
      var h := TakeComponent(text, 'H');
      var m := TakeComponent(h.rest, 'M');
      var s := TakeComponent(m.rest, 'S');
      h.digits == p.hours && m.digits == p.minutes && s == Component(p.seconds, "")
  {
    var s := ComponentText(p.seconds, 'S');
    var ms := ComponentText(p.minutes, 'M') + s;
    assert s + "" == s;
    TakeWritten(p.seconds, 'S', "");
    OtherComponent(p.seconds, 'S', "", 'M');
    OtherComponent(p.seconds, 'S', "", 'H');
    OtherComponent(p.minutes, 'M', s, 'H');
    TakeWritten(p.minutes, 'M', s);
    TakeWritten(p.hours, 'H', ms);
    assert TimeText(p)[1..] == ComponentText(p.hours, 'H') + ms;
  }

  lemma WrittenMatches(p: Parts)
    requires WellFormed(p)
    ensures Match(DurationText(p)) == Some(p)
  {
    var t := TimeText(p);
    var dt := ComponentText(p.days, 'D') + t;
    assert NoComponent(t, 'W') && NoComponent(t, 'D');
    OtherComponent(p.days, 'D', t, 'W');
    TakeWritten(p.weeks, 'W', dt);
    TakeWritten(p.days, 'D', t);
    assert DurationText(p)[1..] == ComponentText(p.weeks, 'W') + dt;
    if p.time {
      assert t[0] == 'T';
      TimeMatches(p);
    }
  }

  lemma TakenIsText(s: string, designator: char)
    ensures var c := TakeComponent(s, designator); s == ComponentText(c.digits, designator) + c.rest
  {
    var n := DigitRun(s);
    if 0 < n < |s| && s[n] == designator {
      assert s == s[..n] + [s[n]] + s[n + 1..];
    }
  }

  lemma TimeIsWritten(text: string)
    ensures var h := TakeComponent(text, 'H');
      var m := TakeComponent(h.rest, 'M');
      var s := TakeComponent(m.rest, 'S');
      s.rest == [] ==>
        text == ComponentText(h.digits, 'H') + (ComponentText(m.digits, 'M') + ComponentText(s.digits, 'S'))
  {
    var h := TakeComponent(text, 'H');
    var m := TakeComponent(h.rest, 'M');
    TakenIsText(text, 'H');
    TakenIsText(h.rest, 'M');
    TakenIsText(m.rest, 'S');
    var seconds := ComponentText(TakeComponent(m.rest, 'S').digits, 'S');
    assert seconds + "" == seconds;
  }

  lemma MatchedIsWritten(d: string)
    requires Match(d).Some?
    ensures d == DurationText(Match(d).value)
  {
    hide TakeComponent, ComponentText;
    var w := TakeComponent(d[1..], 'W');
    TakenIsText(d[1..], 'W');
    var days := TakeComponent(w.rest, 'D');
    TakenIsText(w.rest, 'D');
    assert d == "P" + d[1..];
    if days.rest != [] {
      TimeIsWritten(days.rest[1..]);
      assert days.rest == "T" + days.rest[1..];
    }
  }

  /** The parser accepts exactly the written durations other than `P` and `PT`, and computes their length. */
  lemma ParserAcceptsExactlyWritten(d: string, ms: nat)
    ensures ParseIsoDuration(d) == Some(ms) <==>
              exists p :: WellFormed(p) && d == DurationText(p) && d != "P" && d != "PT" && ms == Milliseconds(p)
  {
    if ParseIsoDuration(d) == Some(ms) {
      MatchIsWellFormed(d);
      MatchedIsWritten(d);
    }
    if p :| WellFormed(p) && d == DurationText(p) && d != "P" && d != "PT" && ms == Milliseconds(p) {
      WrittenMatches(p);
    }
  }

  /** "P14D", the default observation period, is fourteen days. */
  lemma FourteenDays()
    ensures ParseIsoDuration("P14D") == Some(14 * 86400 * 1000)
  {
    var p := Parts(None, Some("14"), false, None, None, None);
    Fourteen();
    assert DurationText(p) == "P14D";
    hide Match, DurationText;
    WrittenMatches(p);
  }

  lemma Fourteen()
    ensures AllDigits("14") && DigitsValue("14") == 14
  {
    assert "14"[..1] == "1" && "1"[..0] == "";
  }

  /** The units: a week, a day, an hour, a minute and a second in milliseconds, each as often as its digits say. */
  lemma UnitsAddUp(p: Parts)
    requires WellFormed(p) && DurationText(p) != "P" && DurationText(p) != "PT"
    ensures ParseIsoDuration(DurationText(p)).Some?
    ensures var digits := (c: Option<string>) requires Number(c) => if c.Some? then DigitsValue(c.value) else 0;
      ParseIsoDuration(DurationText(p)).value
      == 604_800_000 * digits(p.weeks) + 86_400_000 * digits(p.days) + 3_600_000 * digits(p.hours)
         + 60_000 * digits(p.minutes) + 1_000 * digits(p.seconds)
  {
    WrittenMatches(p);
    hide DigitsValue, DurationText, Match;
  }
}
