/**
  The virtual clock and its timers (services/ingestion-scheduler/src/clock.ts).

  Times are milliseconds.  A callback is a value `code`; running it is the parameter `react`, a function of
  the world, the current time and the timer counter that returns the new world and the timer operations the
  callback performs.  So callbacks may schedule further timers, in the past or the future, and cancel any.
 */
module Clock {
  import opened Wrappers
  import opened Sorting

  datatype Timer<C> = Timer(fireAt: int, order: nat, code: C)

  datatype Op<C> = Schedule(fireAt: int, code: C) | Cancel(order: nat)

  datatype State<C> = State(ms: int, seqNo: nat, timers: seq<Timer<C>>)

  /** A firing as its callback sees it: the timer, and what `now()` returns. */
  datatype Firing<C> = Firing(timer: Timer<C>, now: int)

  datatype System<W, C> = System(clock: State<C>, world: W, log: seq<Firing<C>>)

  type Reaction<!W, !C> = (W, int, nat, C) -> (W, seq<Op<C>>)

  function ScheduleAt<C>(c: State<C>, fireAt: int, code: C): State<C> {
    State(c.ms, c.seqNo + 1, c.timers + [Timer(fireAt, c.seqNo + 1, code)])
  }

  /** The timers without the first one numbered `order`. */
  function Without<C>(timers: seq<Timer<C>>, order: nat): seq<Timer<C>> {
    if timers == [] then []
    else if timers[0].order == order then timers[1..]
    else [timers[0]] + Without(timers[1..], order)
  }

  function ApplyOp<C>(c: State<C>, op: Op<C>): State<C> {
    match op
    case Schedule(fireAt, code) => ScheduleAt(c, fireAt, code)
    case Cancel(order) => c.(timers := Without(c.timers, order))
  }

  function ApplyOps<C>(c: State<C>, ops: seq<Op<C>>): State<C>
    decreases ops
  {
    if ops == [] then c else ApplyOps(ApplyOp(c, ops[0]), ops[1..])
  }

  // ---- Which timer fires next ----

  predicate Before<C>(a: Timer<C>, b: Timer<C>) {
    a.fireAt < b.fireAt || (a.fireAt == b.fireAt && a.order <= b.order)
  }

  function Due<C>(timers: seq<Timer<C>>, target: int): (due: seq<Timer<C>>) {
    Filtered(timers, (t: Timer<C>) => t.fireAt <= target)
  }

  predicate HasDue<C>(c: State<C>, target: int) { Due(c.timers, target) != [] }

  function NextDue<C>(c: State<C>, target: int): Timer<C>
    requires HasDue(c, target)
  {
    Sort(Due(c.timers, target), (a, b) => Before(a, b))[0]
  }

  /** Removes every timer with the id of the one that fires. */
  function Removed<C>(timers: seq<Timer<C>>, order: nat): seq<Timer<C>> {
    Filtered(timers, (t: Timer<C>) => t.order != order)
  }

  /** One turn of the loop of `advanceTo`: remove the next due timer, set the time, run the callback. */
  function FireNext<W, C>(react: Reaction<W, C>, s: System<W, C>, target: int): System<W, C>
    requires HasDue(s.clock, target)
  {
    var t := NextDue(s.clock, target);
    var c := State(t.fireAt, s.clock.seqNo, Removed(s.clock.timers, t.order));
    var (world, ops) := react(s.world, t.fireAt, c.seqNo, t.code);
    System(ApplyOps(c, ops), world, s.log + [Firing(t, t.fireAt)])
  }

  /** At most `n` turns of that loop. */
  function Fire<W, C>(react: Reaction<W, C>, s: System<W, C>, target: int, n: nat): System<W, C>
    decreases n
  {
    if n == 0 || !HasDue(s.clock, target) then s else Fire(react, FireNext(react, s, target), target, n - 1)
  }

  /** After `n` turns nothing is due: the loop has come to its end. */
  ghost predicate SettlesIn<W, C>(react: Reaction<W, C>, s: System<W, C>, target: int, n: nat) {
    !HasDue(Fire(react, s, target, n).clock, target)
  }

  /** `advanceTo(target)` returns. */
  ghost predicate Settles<W, C>(react: Reaction<W, C>, s: System<W, C>, target: int) {
    exists n: nat :: SettlesIn(react, s, target, n)
  }

  /** The state in which `advanceTo(target)` returns. */
  ghost function AdvanceTo<W, C>(react: Reaction<W, C>, s: System<W, C>, target: int): System<W, C>
    requires Settles(react, s, target)
  {
    var n: nat :| SettlesIn(react, s, target, n);
    var r := Fire(react, s, target, n);
    r.(clock := r.clock.(ms := target))
  }

  // ---- Timer numbers are unique ----

  /** Timers stand in the order they were scheduled in, each under its own number above `lo`. */
  ghost predicate Increasing<C>(timers: seq<Timer<C>>, lo: int) {
    timers == [] || (timers[0].order > lo && Increasing(timers[1..], timers[0].order))
  }

  ghost predicate Valid<C>(c: State<C>) {
    Increasing(c.timers, -1) && forall i :: 0 <= i < |c.timers| ==> c.timers[i].order <= c.seqNo
  }

  lemma {:induction false} IncreasingAbove<C>(timers: seq<Timer<C>>, lo: int, lower: int)
    requires Increasing(timers, lo) && lower <= lo
    ensures Increasing(timers, lower)
    ensures forall i :: 0 <= i < |timers| ==> timers[i].order > lo
  {
    if timers != [] {
      IncreasingAbove(timers[1..], timers[0].order, timers[0].order);
      forall i | 0 <= i < |timers| ensures timers[i].order > lo {
        assert i > 0 ==> timers[i] == timers[1..][i - 1];
      }
    }
  }

  lemma {:induction false} OrderIdentifies<C>(timers: seq<Timer<C>>, lo: int, i: nat, j: nat)
    requires Increasing(timers, lo) && i < |timers| && j < |timers| && timers[i].order == timers[j].order
    ensures i == j
  {
    IncreasingAbove(timers[1..], timers[0].order, timers[0].order);
    assert i == 0 || timers[i] == timers[1..][i - 1];
    assert j == 0 || timers[j] == timers[1..][j - 1];
    if i > 0 && j > 0 {
      OrderIdentifies(timers[1..], timers[0].order, i - 1, j - 1);
    }
  }

  lemma {:induction false} IncreasingSnoc<C>(timers: seq<Timer<C>>, lo: int, t: Timer<C>)
    requires Increasing(timers, lo) && t.order > lo
    requires forall i :: 0 <= i < |timers| ==> timers[i].order < t.order
    ensures Increasing(timers + [t], lo)
  {
    if timers != [] {
      assert (timers + [t])[1..] == timers[1..] + [t];
      IncreasingSnoc(timers[1..], timers[0].order, t);
    }
  }

  lemma {:induction false} WithoutIncreasing<C>(timers: seq<Timer<C>>, lo: int, order: nat)
    requires Increasing(timers, lo)
    ensures Increasing(Without(timers, order), lo)
    ensures forall t :: t in Without(timers, order) ==> t in timers
  {
    if timers != [] {
      IncreasingAbove(timers[1..], timers[0].order, lo);
      WithoutIncreasing(timers[1..], timers[0].order, order);
    }
  }

  lemma {:induction false} FilteredIncreasing<C>(timers: seq<Timer<C>>, lo: int, p: Timer<C> -> bool)
    requires Increasing(timers, lo)
    ensures Increasing(Filtered(timers, p), lo)
  {
    if timers != [] {
      FilteredIncreasing(timers[1..], timers[0].order, p);
      IncreasingAbove(Filtered(timers[1..], p), timers[0].order, lo);
      assert Filtered(timers, p) == (if p(timers[0]) then [timers[0]] else []) + Filtered(timers[1..], p);
      assert p(timers[0]) || Filtered(timers, p) == Filtered(timers[1..], p);
      assert p(timers[0]) ==> Filtered(timers, p)[1..] == Filtered(timers[1..], p);
    }
  }

  lemma ApplyOpValid<C>(c: State<C>, op: Op<C>)
    requires Valid(c)
    ensures Valid(ApplyOp(c, op))
  {
    match op
    case Schedule(fireAt, code) => IncreasingSnoc(c.timers, -1, Timer(fireAt, c.seqNo + 1, code));
    case Cancel(order) =>
      WithoutIncreasing(c.timers, -1, order);
      forall i | 0 <= i < |Without(c.timers, order)| ensures Without(c.timers, order)[i].order <= c.seqNo {
        assert Without(c.timers, order)[i] in c.timers;
      }
  }

  lemma {:induction false} ApplyOpsValid<C>(c: State<C>, ops: seq<Op<C>>)
    requires Valid(c)
    ensures Valid(ApplyOps(c, ops))
    decreases ops
  {
    if ops != [] {
      ApplyOpValid(c, ops[0]);
      ApplyOpsValid(ApplyOp(c, ops[0]), ops[1..]);
    }
  }

  lemma FireNextValid<W, C>(react: Reaction<W, C>, s: System<W, C>, target: int)
    requires Valid(s.clock) && HasDue(s.clock, target)
    ensures Valid(FireNext(react, s, target).clock)
  {
    var t := NextDue(s.clock, target);
    var c := State(t.fireAt, s.clock.seqNo, Removed(s.clock.timers, t.order));
    FilteredIncreasing(s.clock.timers, -1, (u: Timer<C>) => u.order != t.order);
    forall i | 0 <= i < |c.timers| ensures c.timers[i].order <= c.seqNo {
      assert c.timers[i] in s.clock.timers;
    }
    ApplyOpsValid(c, react(s.world, t.fireAt, c.seqNo, t.code).1);
  }

  // ---- The timer that fires is the least one due ----

  ghost predicate IsNextDue<C>(c: State<C>, target: int, t: Timer<C>) {
    && t in c.timers && t.fireAt <= target
    && forall i :: 0 <= i < |c.timers| && c.timers[i].fireAt <= target ==>
         t.fireAt < c.timers[i].fireAt || (t.fireAt == c.timers[i].fireAt && t.order <= c.timers[i].order)
  }

  lemma NextDueIsLeast<C(!new)>(c: State<C>, target: int)
    requires HasDue(c, target)
    ensures IsNextDue(c, target, NextDue(c, target))
  {
    var due := Due(c.timers, target);
    var leq := (a: Timer<C>, b: Timer<C>) => Before(a, b);
    var s := Sort(due, leq);
    SortIsSorted(due, leq);
    SameMembers(due, s);
    assert s[0] in due;
    forall i | 0 <= i < |c.timers| && c.timers[i].fireAt <= target ensures Before(s[0], c.timers[i]) {
      assert c.timers[i] in due;
      var k :| 0 <= k < |s| && s[k] == c.timers[i];
      if k > 0 { assert leq(s[0], s[k]); }
    }
  }

  lemma NextDueIsUnique<C>(c: State<C>, target: int, t: Timer<C>, u: Timer<C>)
    requires Valid(c) && IsNextDue(c, target, t) && IsNextDue(c, target, u)
    ensures t == u
  {
    var i :| 0 <= i < |c.timers| && c.timers[i] == t;
    var j :| 0 <= j < |c.timers| && c.timers[j] == u;
    OrderIdentifies(c.timers, -1, i, j);
  }

  lemma DueAtLater<C>(c: State<C>, t1: int, t2: int)
    requires t1 <= t2 && HasDue(c, t1)
    ensures HasDue(c, t2)
  {
    var d := Due(c.timers, t1)[0];
    assert d in c.timers && d.fireAt <= t1;
    var i :| 0 <= i < |c.timers| && c.timers[i] == d;
    assert d in Due(c.timers, t2);
  }

  /** A longer advance fires the same timer next, as long as the shorter one still fires any. */
  lemma SameNext<W, C(!new)>(react: Reaction<W, C>, s: System<W, C>, t1: int, t2: int)
    requires Valid(s.clock) && t1 <= t2 && HasDue(s.clock, t1)
    ensures HasDue(s.clock, t2) && FireNext(react, s, t1) == FireNext(react, s, t2)
  {
    var c := s.clock;
    DueAtLater(c, t1, t2);
    NextDueIsLeast(c, t1);
    NextDueIsLeast(c, t2);
    var t, u := NextDue(c, t1), NextDue(c, t2);
    var i :| 0 <= i < |c.timers| && c.timers[i] == t;
    assert Before(u, t);
    NextDueIsUnique(c, t1, t, u);
  }

  // ---- Splitting an advance ----

  lemma {:induction false} FireSum<W, C>(react: Reaction<W, C>, s: System<W, C>, target: int, m: nat, n: nat)
    ensures Fire(react, Fire(react, s, target, m), target, n) == Fire(react, s, target, m + n)
    decreases m
  {
    hide FireNext, HasDue;
    if m > 0 && HasDue(s.clock, target) {
      FireSum(react, FireNext(react, s, target), target, m - 1, n);
    }
  }

  lemma SettledStays<W, C>(react: Reaction<W, C>, s: System<W, C>, target: int, m: nat, n: nat)
    requires SettlesIn(react, s, target, m) && m <= n
    ensures Fire(react, s, target, n) == Fire(react, s, target, m)
  {
    hide FireNext, HasDue;
    FireSum(react, s, target, m, n - m);
  }

  lemma AdvanceToIs<W, C>(react: Reaction<W, C>, s: System<W, C>, target: int, n: nat)
    requires SettlesIn(react, s, target, n)
    ensures Settles(react, s, target)
    ensures AdvanceTo(react, s, target) == AtTime(Fire(react, s, target, n), target)
  {
    hide FireNext, HasDue;
    var m: nat :| SettlesIn(react, s, target, m)
      && AdvanceTo(react, s, target) == AtTime(Fire(react, s, target, m), target);
    SettledStays(react, s, target, if m <= n then m else n, if m <= n then n else m);
  }

  function AtTime<W, C>(s: System<W, C>, ms: int): System<W, C> { s.(clock := s.clock.(ms := ms)) }

  /** The time the clock showed before the advance has no influence on it. */
  lemma {:induction false} TimeIsForgotten<W, C>(react: Reaction<W, C>, s: System<W, C>, ms: int, target: int, n: nat)
    ensures AtTime(Fire(react, AtTime(s, ms), target, n), target) == AtTime(Fire(react, s, target, n), target)
    ensures SettlesIn(react, AtTime(s, ms), target, n) <==> SettlesIn(react, s, target, n)
  {
    if n > 0 && HasDue(s.clock, target) {
      assert FireNext(react, AtTime(s, ms), target) == FireNext(react, s, target);
    }
  }

  /** The shorter advance is an initial part of the longer one. */
  lemma {:induction false} ShorterIsPrefix<W, C(!new)>(
    react: Reaction<W, C>, s: System<W, C>, t1: int, t2: int, n: nat) returns (m: nat)
    requires Valid(s.clock) && t1 <= t2
    ensures m <= n && Fire(react, s, t1, n) == Fire(react, s, t2, m)
    ensures SettlesIn(react, s, t2, n) ==> SettlesIn(react, s, t1, n)
    decreases n
  {
    hide FireNext, HasDue;
    if n > 0 && HasDue(s.clock, t1) {
      SameNext(react, s, t1, t2);
      FireNextValid(react, s, t1);
      m := ShorterIsPrefix(react, FireNext(react, s, t1), t1, t2, n - 1);
      m := m + 1;
    } else {
      m := 0;
      if HasDue(s.clock, t1) { DueAtLater(s.clock, t1, t2); }
    }
  }

  /**
    Clock granularity does not matter.  Advancing in two steps returns exactly when advancing in one does,
    and then fires the same timers in the same order with the same `now()`, leaving the same world, clock
    and pending timers.
   */
  lemma GranularityDoesNotMatter<W, C(!new)>(react: Reaction<W, C>, s: System<W, C>, t1: int, t2: int)
    requires Valid(s.clock) && s.clock.ms <= t1 <= t2
    ensures Settles(react, s, t2) <==>
              (Settles(react, s, t1) && Settles(react, AdvanceTo(react, s, t1), t2))
    ensures Settles(react, s, t2) ==>
              AdvanceTo(react, AdvanceTo(react, s, t1), t2) == AdvanceTo(react, s, t2)
  {
    hide FireNext, HasDue;
    if Settles(react, s, t2) {
      var n: nat :| SettlesIn(react, s, t2, n);
      var m := ShorterIsPrefix(react, s, t1, t2, n);
      FireSum(react, s, t2, m, n);
      SettledStays(react, s, t2, n, m + n);
      Composes(react, s, t1, t2, n, m, n);
    }
    if Settles(react, s, t1) && Settles(react, AdvanceTo(react, s, t1), t2) {
      var n: nat :| SettlesIn(react, s, t1, n);
      AdvanceToIs(react, s, t1, n);
      var m := ShorterIsPrefix(react, s, t1, t2, n);
      var k: nat :| SettlesIn(react, AdvanceTo(react, s, t1), t2, k);
      TimeIsForgotten(react, Fire(react, s, t1, n), t1, t2, k);
      FireSum(react, s, t2, m, k);
      assert SettlesIn(react, s, t2, m + k);
    }
  }

  lemma Composes<W, C>(react: Reaction<W, C>, s: System<W, C>, t1: int, t2: int, n: nat, m: nat, k: nat)
    requires SettlesIn(react, s, t1, n) && Fire(react, s, t1, n) == Fire(react, s, t2, m)
    requires SettlesIn(react, Fire(react, s, t2, m), t2, k)
    ensures Settles(react, s, t1) && Settles(react, s, t2) && Settles(react, AdvanceTo(react, s, t1), t2)
    ensures AdvanceTo(react, AdvanceTo(react, s, t1), t2) == AdvanceTo(react, s, t2)
  {
    hide FireNext, HasDue;
    AdvanceToIs(react, s, t1, n);
    FireSum(react, s, t2, m, k);
    AdvanceToIs(react, s, t2, m + k);
    TimeIsForgotten(react, Fire(react, s, t1, n), t1, t2, k);
    AdvanceToIs(react, AdvanceTo(react, s, t1), t2, k);
  }

  /** After an advance the clock shows the target and no pending timer is due. */
  lemma NothingDueAfterwards<W, C>(react: Reaction<W, C>, s: System<W, C>, target: int)
    requires Settles(react, s, target)
    ensures var r := AdvanceTo(react, s, target);
      r.clock.ms == target && forall i :: 0 <= i < |r.clock.timers| ==> r.clock.timers[i].fireAt > target
  {
    var n: nat :| SettlesIn(react, s, target, n);
    AdvanceToIs(react, s, target, n);
    var c := AdvanceTo(react, s, target).clock;
    forall i | 0 <= i < |c.timers| ensures c.timers[i].fireAt > target {
      var t := c.timers[i];
      assert t.fireAt > target || t in Due(c.timers, target);
    }
  }

  // ---- When time moves forward ----

  lemma FiringSetsTime<W, C>(react: Reaction<W, C>, s: System<W, C>, target: int)
    requires HasDue(s.clock, target)
    ensures FireNext(react, s, target).clock.ms == NextDue(s.clock, target).fireAt
  {
    var t := NextDue(s.clock, target);
    var c := State(t.fireAt, s.clock.seqNo, Removed(s.clock.timers, t.order));
    AppliedOpsKeepTime(c, react(s.world, t.fireAt, c.seqNo, t.code).1);
  }

  /** No timer is set before now. */
  ghost predicate Ahead<C>(c: State<C>) { forall i :: 0 <= i < |c.timers| ==> c.timers[i].fireAt >= c.ms }

  /** In an advance to `target` the turn after the first `n` moves `now()` backwards. */
  ghost predicate FallsAt<W, C>(react: Reaction<W, C>, s: System<W, C>, target: int, n: nat) {
    var at := Fire(react, s, target, n);
    HasDue(at.clock, target) && FireNext(react, at, target).clock.ms < at.clock.ms
  }

  lemma FiringWithin<W, C(!new)>(react: Reaction<W, C>, s: System<W, C>, target: int)
    requires Valid(s.clock) && HasDue(s.clock, target)
    ensures Valid(FireNext(react, s, target).clock) && FireNext(react, s, target).clock.ms <= target
  {
    FireNextValid(react, s, target);
    FiringSetsTime(react, s, target);
    NextDueIsLeast(s.clock, target);
  }

  lemma {:induction false} FireKeepsWithin<W, C(!new)>(react: Reaction<W, C>, s: System<W, C>, target: int, n: nat)
    requires Valid(s.clock) && s.clock.ms <= target
    ensures Valid(Fire(react, s, target, n).clock) && Fire(react, s, target, n).clock.ms <= target
    decreases n
  {
    hide FireNext, HasDue, Valid;
    if n > 0 && HasDue(s.clock, target) {
      FiringWithin(react, s, target);
      FireKeepsWithin(react, FireNext(react, s, target), target, n - 1);
    }
  }

  /**
    An advance moves `now()` backwards at some turn exactly when a timer then lies before now, be it pending
    from the start or set by a callback on the way.
   */
  lemma TimeFallsIff<W, C(!new)>(react: Reaction<W, C>, s: System<W, C>, target: int, n: nat)
    requires Valid(s.clock) && s.clock.ms <= target
    ensures FallsAt(react, s, target, n) <==> !Ahead(Fire(react, s, target, n).clock)
  {
    FireKeepsWithin(react, s, target, n);
    var at := Fire(react, s, target, n);
    hide Fire, FireNext, Valid;
    if HasDue(at.clock, target) {
      FiringSetsTime(react, at, target);
      NextDueIsLeast(at.clock, target);
    } else {
      forall i | 0 <= i < |at.clock.timers| ensures at.clock.timers[i].fireAt >= at.clock.ms {
        var t := at.clock.timers[i];
        assert t.fireAt > target || t in Due(at.clock.timers, target);
      }
    }
  }

  // ---- Which callbacks never turn time back ----

  /** A timer set before `now` is cancelled again by the same callback; `seqNo` is the last number given. */
  predicate PastFree<C(==)>(ops: seq<Op<C>>, now: int, seqNo: nat)
    decreases ops
  {
    ops == [] ||
    match ops[0]
    case Cancel(_) => PastFree(ops[1..], now, seqNo)
    case Schedule(fireAt, _) =>
      (fireAt >= now || Cancel(seqNo + 1) in ops[1..]) && PastFree(ops[1..], now, seqNo + 1)
  }

  /** No callback leaves a timer before the time it runs at. */
  ghost predicate LooksAhead<W(!new), C(!new)>(react: Reaction<W, C>) {
    forall w, now, seqNo, code :: PastFree(react(w, now, seqNo, code).1, now, seqNo)
  }

  /** From states with no timer before now, no turn of any advance moves `now()` backwards. */
  ghost predicate NeverFalls<W(!new), C(!new)>(react: Reaction<W, C>) {
    forall s: System<W, C>, target, n | Valid(s.clock) && Ahead(s.clock) && s.clock.ms <= target ::
      !FallsAt(react, s, target, n)
  }

  /** What lies before now is among the timers cancelled later on. */
  ghost predicate PastIsCancelled<C>(c: State<C>, ops: seq<Op<C>>) {
    forall t :: t in c.timers ==> t.fireAt >= c.ms || Cancel(t.order) in ops
  }

  /** The operations leave the clock ahead exactly when they cancel what lies before now and leave nothing there. */
  lemma {:induction false} OpsStayAheadIff<C>(c: State<C>, ops: seq<Op<C>>)
    requires Valid(c)
    ensures Ahead(ApplyOps(c, ops)) <==> PastIsCancelled(c, ops) && PastFree(ops, c.ms, c.seqNo)
    decreases ops
  {
    if ops == [] {
      assert forall i :: 0 <= i < |c.timers| ==> c.timers[i] in c.timers;
    } else {
      var d, rest := ApplyOp(c, ops[0]), ops[1..];
      assert ops == [ops[0]] + rest;
      ApplyOpValid(c, ops[0]);
      OpsStayAheadIff(d, rest);
      match ops[0]
      case Cancel(order) =>
        WithoutMembers(c.timers, -1, order);
        assert PastIsCancelled(d, rest) <==> PastIsCancelled(c, ops);
      case Schedule(fireAt, code) =>
        var t := Timer(fireAt, c.seqNo + 1, code);
        assert PastIsCancelled(d, rest)
            == (PastIsCancelled(c, rest) && (t.fireAt >= c.ms || Cancel(t.order) in rest)) by {
          assert t in d.timers && forall u :: u in d.timers <==> u in c.timers || u == t;
        }
    }
  }

  /** Cancelling removes the timer with that number and keeps all others. */
  lemma {:induction false} WithoutMembers<C>(timers: seq<Timer<C>>, lo: int, order: nat)
    requires Increasing(timers, lo)
    ensures forall t :: t in Without(timers, order) <==> t in timers && t.order != order
  {
    if timers != [] {
      var rest := timers[1..];
      assert timers == [timers[0]] + rest;
      WithoutMembers(rest, timers[0].order, order);
      IncreasingAbove(rest, timers[0].order, timers[0].order);
      assert forall t :: t in rest ==> t.order > timers[0].order;
    }
  }

  lemma FiringStaysAhead<W(!new), C(!new)>(react: Reaction<W, C>, s: System<W, C>, target: int)
    requires Valid(s.clock) && Ahead(s.clock) && LooksAhead(react) && HasDue(s.clock, target)
    ensures Ahead(FireNext(react, s, target).clock) && FireNext(react, s, target).clock.ms >= s.clock.ms
  {
    var t := NextDue(s.clock, target);
    NextDueIsLeast(s.clock, target);
    FiringSetsTime(react, s, target);
    var c := State(t.fireAt, s.clock.seqNo, Removed(s.clock.timers, t.order));
    forall i | 0 <= i < |c.timers| ensures c.timers[i].fireAt >= c.ms && c.timers[i].order <= c.seqNo {
      assert c.timers[i] in s.clock.timers;
      LeastIsFirst(s.clock, target, c.timers[i]);
    }
    FilteredIncreasing(s.clock.timers, -1, (u: Timer<C>) => u.order != t.order);
    OpsStayAheadIff(c, react(s.world, t.fireAt, c.seqNo, t.code).1);
  }

  lemma LeastIsFirst<C(!new)>(c: State<C>, target: int, t: Timer<C>)
    requires Valid(c) && HasDue(c, target) && t in c.timers
    ensures NextDue(c, target).fireAt <= t.fireAt
  {
    NextDueIsLeast(c, target);
  }

  lemma {:induction false} FireStaysAhead<W(!new), C(!new)>(react: Reaction<W, C>, s: System<W, C>, target: int, n: nat)
    requires Valid(s.clock) && Ahead(s.clock) && LooksAhead(react)
    ensures Ahead(Fire(react, s, target, n).clock)
    decreases n
  {
    hide LooksAhead, Ahead, FireNext, HasDue, Valid;
    if n > 0 && HasDue(s.clock, target) {
      FiringStaysAhead(react, s, target);
      FireNextValid(react, s, target);
      FireStaysAhead(react, FireNext(react, s, target), target, n - 1);
    }
  }

  /** The world, time and number at hand, and nothing pending but one timer due now. */
  function OneDueNow<W, C>(w: W, now: int, seqNo: nat, code: C): System<W, C> {
    System(State(now, seqNo, [Timer(now, seqNo, code)]), w, [])
  }

  lemma OneFires<W, C(!new)>(react: Reaction<W, C>, w: W, now: int, seqNo: nat, code: C)
    ensures var s := OneDueNow(w, now, seqNo, code);
      && Valid(s.clock) && Ahead(s.clock) && HasDue(s.clock, now)
      && FireNext(react, s, now).clock == ApplyOps(State(now, seqNo, []), react(w, now, seqNo, code).1)
  {
    var s := OneDueNow(w, now, seqNo, code);
    var t := Timer(now, seqNo, code);
    assert Due(s.clock.timers, now) == [t];
    NextDueIsLeast(s.clock, now);
    assert Removed(s.clock.timers, seqNo) == [];
  }

  /**
    Time never moves backwards, in any advance from any state ahead, exactly when no callback leaves a timer
    in its past.
   */
  lemma NeverFallsIff<W(!new), C(!new)>(react: Reaction<W, C>)
    ensures NeverFalls(react) <==> LooksAhead(react)
  {
    if LooksAhead(react) { AheadNeverFalls(react); }
    if NeverFalls(react) { FallsUnlessAhead(react); }
  }

  lemma AheadNeverFalls<W(!new), C(!new)>(react: Reaction<W, C>)
    requires LooksAhead(react)
    ensures NeverFalls(react)
  {
    hide LooksAhead, Ahead, Valid, FallsAt;
    forall s: System<W, C>, target, n | Valid(s.clock) && Ahead(s.clock) && s.clock.ms <= target
      ensures !FallsAt(react, s, target, n)
    {
      FireStaysAhead(react, s, target, n);
      TimeFallsIff(react, s, target, n);
    }
  }

  lemma FallsUnlessAhead<W(!new), C(!new)>(react: Reaction<W, C>)
    requires NeverFalls(react)
    ensures LooksAhead(react)
  {
    hide Ahead, Valid, FallsAt, PastFree, Fire, FireNext, HasDue;
    forall w, now, seqNo, code ensures PastFree(react(w, now, seqNo, code).1, now, seqNo) {
      OneFires(react, w, now, seqNo, code);
      assert OneDueNow(w, now, seqNo, code).clock.ms == now;
      FallsUnlessPastFree(react, w, now, seqNo, code);
    }
  }

  lemma FallsUnlessPastFree<W(!new), C(!new)>(react: Reaction<W, C>, w: W, now: int, seqNo: nat, code: C)
    requires !FallsAt(react, OneDueNow(w, now, seqNo, code), now, 1)
    ensures PastFree(react(w, now, seqNo, code).1, now, seqNo)
  {
    var s := OneDueNow(w, now, seqNo, code);
    OneFires(react, w, now, seqNo, code);
    TimeFallsIff(react, s, now, 1);
    assert Fire(react, s, now, 1) == FireNext(react, s, now);
    OpsStayAheadIff(State(now, seqNo, []), react(w, now, seqNo, code).1);
  }

  lemma LogGrows<W, C>(react: Reaction<W, C>, s: System<W, C>, target: int)
    requires HasDue(s.clock, target)
    ensures var t := NextDue(s.clock, target);
      FireNext(react, s, target).log == s.log + [Firing(t, t.fireAt)]
  {
  }

  lemma {:induction false} LogIsKept<W, C>(react: Reaction<W, C>, s: System<W, C>, target: int, n: nat)
    ensures s.log <= Fire(react, s, target, n).log
    decreases n
  {
    hide FireNext, HasDue;
    if n > 0 && HasDue(s.clock, target) {
      LogGrows(react, s, target);
      LogIsKept(react, FireNext(react, s, target), target, n - 1);
    }
  }

  /** From entry `k` on, the log's times rise from `lo` to `hi`. */
  ghost predicate Rises<C>(log: seq<Firing<C>>, k: nat, lo: int, hi: int) {
    && k <= |log| && lo <= hi
    && (forall i :: k <= i < |log| ==> lo <= log[i].now <= hi)
    && (forall i, j :: k <= i < j < |log| ==> log[i].now <= log[j].now)
  }

  /** And then every advance sees rising times. */
  lemma {:induction false} TimeNeverTurnsBack<W(!new), C(!new)>(
    react: Reaction<W, C>, s: System<W, C>, target: int, n: nat)
    requires Valid(s.clock) && Ahead(s.clock) && LooksAhead(react)
    ensures var r := Fire(react, s, target, n);
      Ahead(r.clock) && Rises(r.log, |s.log|, s.clock.ms, r.clock.ms)
    decreases n
  {
    hide LooksAhead, Ahead, FireNext, HasDue, Valid, Rises;
    if n > 0 && HasDue(s.clock, target) {
      var next := FireNext(react, s, target);
      var t := FiringAdvances(react, s, target);
      TimeNeverTurnsBack(react, next, target, n - 1);
      LogIsKept(react, next, target, n - 1);
      var r := Fire(react, next, target, n - 1);
      RisesEarlier(s.log, Firing(t, next.clock.ms), r.log, s.clock.ms, r.clock.ms);
    } else {
      NothingRises(s.log, s.clock.ms);
    }
  }

  lemma NothingRises<C>(log: seq<Firing<C>>, ms: int)
    ensures Rises(log, |log|, ms, ms)
  {
  }

  lemma FiringAdvances<W(!new), C(!new)>(react: Reaction<W, C>, s: System<W, C>, target: int) returns (t: Timer<C>)
    requires Valid(s.clock) && Ahead(s.clock) && LooksAhead(react) && HasDue(s.clock, target)
    ensures var next := FireNext(react, s, target);
      && Valid(next.clock) && Ahead(next.clock) && next.clock.ms >= s.clock.ms
      && next.log == s.log + [Firing(t, next.clock.ms)]
  {
    t := NextDue(s.clock, target);
    FiringStaysAhead(react, s, target);
    FiringSetsTime(react, s, target);
    FireNextValid(react, s, target);
    LogGrows(react, s, target);
  }

  lemma RisesEarlier<C>(before: seq<Firing<C>>, f: Firing<C>, log: seq<Firing<C>>, lo: int, hi: int)
    requires before + [f] <= log && lo <= f.now && Rises(log, |before| + 1, f.now, hi)
    ensures Rises(log, |before|, lo, hi)
  {
    assert log[|before|] == (before + [f])[|before|];
  }

  /** What a firing does: the next due timer's callback runs on the world at hand and sees the timer's own time. */
  lemma CallbackSeesFireTime<W, C(!new)>(react: Reaction<W, C>, s: System<W, C>, target: int)
    requires HasDue(s.clock, target)
    ensures exists t :: IsNextDue(s.clock, target, t)
              && FireNext(react, s, target).world == react(s.world, t.fireAt, s.clock.seqNo, t.code).0
              && FireNext(react, s, target).clock.ms == t.fireAt
              && FireNext(react, s, target).log == s.log + [Firing(t, t.fireAt)]
  {
    NextDueIsLeast(s.clock, target);
    FiringSetsTime(react, s, target);
    LogGrows(react, s, target);
  }

  function IsSetFor<C>(at: int): Timer<C> -> bool { (t: Timer<C>) => t.fireAt == at }

  // ---- The clock itself ----

  class VirtualClock<W(==), C(==,!new)> {
    const react: Reaction<W, C>
    var ms: int
    var seqNo: nat
    var timers: seq<Timer<C>>
    var world: W
    ghost var log: seq<Firing<C>>

    ghost function Snapshot(): System<W, C>
      reads this
    {
      System(State(ms, seqNo, timers), world, log)
    }

    constructor (react: Reaction<W, C>, start: int, world: W)
      ensures Snapshot() == System(State(start, 0, []), world, [])
      ensures Valid(Snapshot().clock) && this.react == react
    {
      this.react := react;
      ms, seqNo, timers, this.world := start, 0, [], world;
      log := [];
    }

    method ScheduleTimer(fireAt: int, code: C) returns (id: nat)
      requires Valid(Snapshot().clock)
      modifies this
      ensures Valid(Snapshot().clock)
      ensures Snapshot() == old(Snapshot()).(clock := ScheduleAt(old(Snapshot()).clock, fireAt, code))
      ensures id == seqNo && forall i :: 0 <= i < |old(timers)| ==> old(timers)[i].order != id
    {
      ApplyOpValid(Snapshot().clock, Schedule(fireAt, code));
      seqNo := seqNo + 1;
      timers := timers + [Timer(fireAt, seqNo, code)];
      id := seqNo;
    }

    method CancelTimer(id: nat) returns (found: bool)
      requires Valid(Snapshot().clock)
      modifies this
      ensures Valid(Snapshot().clock)
      ensures found <==> exists i :: 0 <= i < |old(timers)| && old(timers)[i].order == id
      ensures Snapshot() == old(Snapshot()).(clock := ApplyOp(old(Snapshot()).clock, Cancel(id)))
      ensures forall i :: 0 <= i < |timers| ==> timers[i].order != id
    {
      ApplyOpValid(Snapshot().clock, Cancel(id));
      var i := 0;
      while i < |timers| && timers[i].order != id
        invariant 0 <= i <= |timers|
        invariant forall k :: 0 <= k < i ==> timers[k].order != id
      {
        i := i + 1;
      }
      WithoutAt(timers, i, id);
      found := i < |timers|;
      if found {
        NoOtherTimer(timers, i);
        timers := timers[..i] + timers[i + 1..];
      }
    }

    /** The pending timers by fire time, those for the same time in the order they were scheduled in. */
    method Pending() returns (p: seq<Timer<C>>)
      ensures multiset(p) == multiset(timers)
      ensures forall i, j :: 0 <= i < j < |p| ==> p[i].fireAt <= p[j].fireAt
      ensures forall at :: Filtered(p, IsSetFor(at)) == Filtered(timers, IsSetFor(at))
    {
      var leq := (a: Timer<C>, b: Timer<C>) => a.fireAt <= b.fireAt;
      p := Sort(timers, leq);
      SortIsSorted(timers, leq);
      forall at ensures Filtered(p, IsSetFor(at)) == Filtered(timers, IsSetFor(at)) {
        SortIsStable(timers, leq, IsSetFor(at));
      }
      assert forall i, j :: 0 <= i < j < |p| ==> leq(p[i], p[j]);
    }

    /**
      Advances to `target`, refusing to go back.  The precondition says that the callbacks' re-arming comes
      to an end, without which the loop runs for ever.
     */
    method AdvanceClock(target: int) returns (r: Result<(), string>)
      requires Valid(Snapshot().clock) && (target >= ms ==> Settles(react, Snapshot(), target))
      modifies this
      ensures Valid(Snapshot().clock)
      ensures r.Err? <==> target < old(ms)
      ensures Snapshot() == if r.Err? then old(Snapshot()) else AdvanceTo(react, old(Snapshot()), target)
    {
      if target < ms { return Err("cannot move the clock backwards"); }
      hide FireNext;
      ghost var s0 := Snapshot();
      ghost var n: nat :| SettlesIn(react, s0, target, n);
      ghost var k: nat := 0;
      while HasDue(State(ms, seqNo, timers), target)
        invariant k <= n && Valid(Snapshot().clock)
        invariant Fire(react, Snapshot(), target, n - k) == Fire(react, s0, target, n)
        decreases n - k
      {
        FireNextValid(react, Snapshot(), target);
        FireOne(target);
        k := k + 1;
      }
      AdvanceToIs(react, s0, target, n);
      ms := target;
      return Ok(());
    }

    method AdvanceClockBy(duration: int) returns (r: Result<(), string>)
      requires Valid(Snapshot().clock) && (duration >= 0 ==> Settles(react, Snapshot(), ms + duration))
      modifies this
      ensures Valid(Snapshot().clock)
      ensures r.Err? <==> duration < 0
      ensures Snapshot() == if r.Err? then old(Snapshot()) else AdvanceTo(react, old(Snapshot()), old(ms) + duration)
    {
      if duration < 0 { return Err("cannot advance by a negative duration"); }
      r := AdvanceClock(ms + duration);
    }

    /** One turn of the loop: remove the timer, set the time, run the callback. */
    method FireOne(target: int)
      requires HasDue(Snapshot().clock, target)
      modifies this
      ensures Snapshot() == FireNext(react, old(Snapshot()), target)
    {
      var next := NextDue(State(ms, seqNo, timers), target);
      timers := Removed(timers, next.order);
      ms := next.fireAt;
      log := log + [Firing(next, ms)];
      var (world', ops) := react(world, ms, seqNo, next.code);
      world := world';
      var c := ApplyOps(State(ms, seqNo, timers), ops);
      AppliedOpsKeepTime(State(ms, seqNo, timers), ops);
      seqNo, timers := c.seqNo, c.timers;
    }
  }

  lemma {:induction false} AppliedOpsKeepTime<C>(c: State<C>, ops: seq<Op<C>>)
    ensures ApplyOps(c, ops).ms == c.ms
    decreases ops
  {
    if ops != [] {
      AppliedOpsKeepTime(ApplyOp(c, ops[0]), ops[1..]);
    }
  }

  lemma {:induction false} WithoutAt<C>(timers: seq<Timer<C>>, i: nat, order: nat)
    requires i <= |timers| && (i < |timers| ==> timers[i].order == order)
    requires forall k :: 0 <= k < i ==> timers[k].order != order
    ensures Without(timers, order) == if i < |timers| then timers[..i] + timers[i + 1..] else timers
  {
    if i > 0 {
      WithoutAt(timers[1..], i - 1, order);
      assert timers == [timers[0]] + timers[1..];
      if i < |timers| {
        assert timers[..i] == [timers[0]] + timers[1..][..i - 1];
        assert timers[i + 1..] == timers[1..][i..];
      }
    }
  }

  lemma NoOtherTimer<C>(timers: seq<Timer<C>>, i: nat)
    requires Increasing(timers, -1) && i < |timers|
    ensures forall k :: 0 <= k < |timers| && k != i ==> timers[k].order != timers[i].order
  {
    forall k | 0 <= k < |timers| && k != i ensures timers[k].order != timers[i].order {
      if timers[k].order == timers[i].order {
        OrderIdentifies(timers, -1, i, k);
      }
    }
  }
}
