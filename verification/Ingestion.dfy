/**
  Recurring syncs (services/ingestion-scheduler/src/ingestion.ts): a timer whose callback publishes
  `ingest.sync.started` and arms itself again. Any number of syncs share one clock with each other and with
  timers of other kinds, such as outcome windows, whose callbacks set no timers.

  The next fire time passes through a `Date`, which drops the fraction of a millisecond.
 */
module Ingestion {
  import opened Wrappers
  import opened Sorting
  import opened Clock

  /** One call of `scheduleRecurring`; the number of its first timer tells it from all others. */
  datatype Sync = Sync(tag: nat, client: nat, interval: real)

  datatype Code<C> = Recurring(sync: Sync) | Other(code: C)

  datatype Start = Start(sync: Sync, at: int)

  /** The start events published so far, and what the other timers work on. */
  datatype World<W> = World(starts: seq<Start>, rest: W)

  type OtherCallback<!W, !C> = (W, int, C) -> W

  /** The fraction of a time value is cut off towards zero. */
  function Truncated(x: real): int {
    if x >= 0.0 then x.Floor else -((-x).Floor)
  }

  function NextStart(interval: real, at: int): int { Truncated(at as real + interval) }

  /** The callbacks on the clock: a sync publishes its start, stamped with the current time, and arms itself again. */
  function Shared<W, C>(other: OtherCallback<W, C>): Reaction<World<W>, Code<C>> {
    (w: World<W>, now: int, seqNo: nat, code: Code<C>) =>
      match code
      case Recurring(sync) =>
        (World(w.starts + [Start(sync, now)], w.rest), [Schedule(NextStart(sync.interval, now), code)])
      case Other(c) => (World(w.starts, other(w.rest, now, c)), [])
  }

  method ScheduleRecurring<W(==), C(==,!new)>(
    clock: VirtualClock<World<W>, Code<C>>, client: nat, firstAt: int, interval: real)
    returns (r: Result<nat, string>)
    requires Valid(clock.Snapshot().clock)
    modifies clock
    ensures Valid(clock.Snapshot().clock)
    ensures r.Err? <==> interval <= 0.0
    ensures r.Err? ==> clock.Snapshot() == old(clock.Snapshot())
    ensures r.Ok? ==> r.value == old(clock.seqNo) + 1
    ensures r.Ok? ==> clock.Snapshot() == old(clock.Snapshot()).(
              clock := ScheduleAt(old(clock.Snapshot()).clock, firstAt, Recurring(Sync(r.value, client, interval))))
  {
    if interval <= 0.0 { return Err("intervalMs must be > 0"); }
    var id := clock.ScheduleTimer(firstAt, Recurring(Sync(clock.seqNo + 1, client, interval)));
    return Ok(id);
  }

  // ---- The instants of one sync ----

  function Ceiling(x: real): int { -((-x).Floor) }

  /**
    The step from one start to the next: the interval rounded down, except where the next instant lies before
    1970, which cutting off moves up.
   */
  lemma NextStartRounds(interval: real, at: int)
    ensures NextStart(interval, at) == at + if at as real + interval < 0.0 then Ceiling(interval) else interval.Floor
  {
    var x := at as real + interval;
    assert x.Floor == at + interval.Floor;
    assert (-x).Floor == -at + (-interval).Floor;
  }

  /** The instants come to pass a target: a step is a millisecond at least, or the instants pass it before 1970. */
  predicate Passes(interval: real, at: int, target: int) {
    interval > 0.0 && (interval >= 1.0 || target < at || target < 0)
  }

  lemma NextStartFacts(interval: real, at: int)
    requires interval > 0.0
    ensures interval >= 1.0 || at < 0 ==> NextStart(interval, at) > at
    ensures interval < 1.0 && at < 0 ==> NextStart(interval, at) == at + 1
    ensures interval < 1.0 && at >= 0 ==> NextStart(interval, at) == at
  {
    NextStartRounds(interval, at);
    hide NextStart;
    if interval < 1.0 {
      assert interval.Floor == 0;
      assert (-interval).Floor == -1;
    }
  }

  /** The instants from `at` to the target. */
  function InstantsUpTo(interval: real, at: int, target: int): seq<int>
    requires Passes(interval, at, target)
    decreases if at <= target then target - at + 1 else 0
  {
    NextStartFacts(interval, at);
    if at > target then [] else [at] + InstantsUpTo(interval, NextStart(interval, at), target)
  }

  /** The first instant after the target. */
  function FirstAfter(interval: real, at: int, target: int): (next: int)
    requires Passes(interval, at, target)
    ensures next > target
    decreases if at <= target then target - at + 1 else 0
  {
    NextStartFacts(interval, at);
    if at > target then at else FirstAfter(interval, NextStart(interval, at), target)
  }

  // ---- Their closed form ----

  /** Where the fraction does not matter: after 1970 it is dropped downwards, and a whole interval has none. */
  predicate WholeSteps(first: int, interval: real) {
    interval >= 1.0 && (first >= 0 || interval == interval.Floor as real)
  }

  /** The starts `first`, `first + d`, ..., `n` of them. */
  function Ticks(first: int, d: nat, n: nat): (ticks: seq<int>)
    ensures |ticks| == n
    ensures forall i :: 0 <= i < n ==> ticks[i] == first + i * d
    decreases n
  {
    if n == 0 then [] else
      var rest := Ticks(first + d, d, n - 1);
      assert forall i :: 0 < i < n ==> rest[i - 1] == first + i * d by {
        forall i | 0 < i < n ensures rest[i - 1] == first + i * d { Shift(first, d, i); }
      }
      [first] + rest
  }

  lemma Shift(first: int, d: int, i: int)
    ensures first + d + (i - 1) * d == first + i * d
  {
  }

  function TickCount(first: int, d: nat, target: int): nat
    requires d >= 1
  {
    if target < first then 0 else (target - first) / d + 1
  }

  lemma AtLeastFactor(d: int, k: int)
    requires d >= 1
    ensures k >= 1 ==> d * k >= d
    ensures k <= -1 ==> d * k <= -d
  {
    if k >= 1 {
      assert d * k == d + d * (k - 1);
    } else if k <= -1 {
      assert d * k == -d + d * (k + 1);
    }
  }

  lemma DivUnique(x: int, d: int, q: int, r: int)
    requires d >= 1 && x == d * q + r && 0 <= r < d
    ensures x / d == q
  {
    assert x == d * (x / d) + x % d;
    assert d * (q - x / d) == d * q - d * (x / d);
    AtLeastFactor(d, q - x / d);
  }

  lemma DivStep(x: int, d: nat)
    requires d >= 1 && x >= 0
    ensures (x - d) / d == x / d - 1
    ensures x < d ==> x / d == 0
  {
    var q, r := x / d, x % d;
    assert x == d * q + r;
    assert d * (q - 1) == d * q - d;
    DivUnique(x - d, d, q - 1, r);
    if x < d {
      DivUnique(x, d, 0, x);
    }
  }

  /** The interval without its fraction of a millisecond. */
  function Step(interval: real): (d: nat)
    requires interval >= 1.0
    ensures d >= 1
  {
    interval.Floor
  }

  /** The n-th instant after the first. */
  function Instant(first: int, d: int, n: nat): int { first + n * d }

  lemma WholeStep(at: int, interval: real)
    requires WholeSteps(at, interval)
    ensures NextStart(interval, at) == at + Step(interval) && WholeSteps(at + Step(interval), interval)
  {
    NextStartRounds(interval, at);
  }

  lemma NextTick(first: int, d: nat, target: int, n: nat)
    requires d >= 1 && n > 0 && n == TickCount(first, d, target)
    ensures TickCount(first + d, d, target) == n - 1
    ensures Ticks(first, d, n) == [first] + Ticks(first + d, d, n - 1)
    ensures Instant(first, d, n) == Instant(first + d, d, n - 1)
  {
    DivStep(target - first, d);
    Shift(first, d, n);
  }

  /** From 1970 on, or with whole milliseconds: floor((T-F)/i)+1 starts at F, F+i, ..., and the next one follows. */
  lemma {:induction false} InstantsAreTicks(interval: real, first: int, target: int, n: nat)
    requires WholeSteps(first, interval) && n == TickCount(first, Step(interval), target)
    ensures InstantsUpTo(interval, first, target) == Ticks(first, Step(interval), n)
    ensures FirstAfter(interval, first, target) == Instant(first, Step(interval), n)
    decreases n
  {
    if n > 0 {
      WholeStep(first, interval);
      NextTick(first, Step(interval), target, n);
      hide TickCount, Ticks, Instant, Step, NextStart;
      InstantsAreTicks(interval, first + Step(interval), target, n - 1);
    }
  }

  // ---- A family of syncs on one clock ----

  function OfSync<C>(timers: seq<Timer<Code<C>>>, sync: Sync): seq<Timer<Code<C>>> {
    Filtered(timers, IsOf(sync))
  }

  function IsOf<C>(sync: Sync): Timer<Code<C>> -> bool { (t: Timer<Code<C>>) => t.code == Recurring(sync) }

  /** The sync has exactly one timer, at `at`. */
  ghost predicate ArmedAt<C>(timers: seq<Timer<Code<C>>>, sync: Sync, at: int) {
    |OfSync(timers, sync)| == 1 && OfSync(timers, sync)[0].fireAt == at
  }

  /** The syncs on the clock are `family`, armed for `at`; whatever else is pending is not a sync. */
  ghost predicate Armed<C>(c: State<Code<C>>, family: seq<Sync>, at: seq<int>) {
    && Valid(c) && |family| == |at|
    && (forall i, j :: 0 <= i < j < |family| ==> family[i] != family[j])
    && (forall k :: 0 <= k < |family| ==> family[k].interval > 0.0 && family[k].tag <= c.seqNo)
    && (forall k :: 0 <= k < |family| ==> ArmedAt(c.timers, family[k], at[k]))
    && (forall t :: t in c.timers && t.code.Recurring? ==> t.code.sync in family)
  }

  /** A newly scheduled sync joins the family. */
  lemma NewSyncJoins<C>(c: State<Code<C>>, family: seq<Sync>, at: seq<int>, client: nat, firstAt: int, interval: real)
    requires Armed(c, family, at) && interval > 0.0
    ensures var sync := Sync(c.seqNo + 1, client, interval);
      Armed(ScheduleAt(c, firstAt, Recurring(sync)), family + [sync], at + [firstAt])
  {
    var sync := Sync(c.seqNo + 1, client, interval);
    ApplyOpValid(c, Schedule(firstAt, Recurring(sync)));
    assert sync !in family;
    NoneOfSync(c.timers, sync);
    hide Valid, ArmedAt;
    forall k | 0 <= k < |family| + 1
      ensures ArmedAt(ScheduleAt(c, firstAt, Recurring(sync)).timers, (family + [sync])[k], (at + [firstAt])[k])
    {
      ArmedAfterSchedule(c, family, at, sync, firstAt, k);
    }
  }

  lemma ArmedAfterSchedule<C>(
    c: State<Code<C>>, family: seq<Sync>, at: seq<int>, sync: Sync, firstAt: int, k: nat)
    requires |family| == |at| && k <= |family| && sync !in family && OfSync(c.timers, sync) == []
    requires k < |family| ==> ArmedAt(c.timers, family[k], at[k])
    ensures ArmedAt(ScheduleAt(c, firstAt, Recurring(sync)).timers, (family + [sync])[k], (at + [firstAt])[k])
  {
    hide OfSync;
    OfSyncSnoc(c.timers, Timer(firstAt, c.seqNo + 1, Recurring(sync)), (family + [sync])[k]);
  }

  lemma {:induction false} NoneOfSync<C>(timers: seq<Timer<Code<C>>>, sync: Sync)
    requires forall t :: t in timers ==> t.code != Recurring(sync)
    ensures OfSync(timers, sync) == []
  {
    if timers != [] {
      assert timers[0] in timers;
      NoneOfSync(timers[1..], sync);
    }
  }

  lemma OfSyncSnoc<C>(timers: seq<Timer<Code<C>>>, t: Timer<Code<C>>, sync: Sync)
    ensures OfSync(timers + [t], sync) == OfSync(timers, sync) + if t.code == Recurring(sync) then [t] else []
  {
    FilteredAppend(timers, [t], IsOf(sync));
    assert [t][1..] == [];
  }

  // ---- One firing ----

  /** Taking a timer out: what is left of those that satisfy `p`. */
  ghost predicate TakenOut<C>(
    timers: seq<Timer<C>>, t: Timer<C>, p: Timer<C> -> bool, front: seq<Timer<C>>, back: seq<Timer<C>>)
  {
    && Filtered(timers, p) == front + (if p(t) then [t] else []) + back
    && Filtered(Removed(timers, t.order), p) == front + back
  }

  lemma {:induction false} FilteredRemoved<C>(timers: seq<Timer<C>>, lo: int, t: Timer<C>, p: Timer<C> -> bool)
    returns (front: seq<Timer<C>>, back: seq<Timer<C>>)
    requires Increasing(timers, lo) && t in timers
    ensures TakenOut(timers, t, p, front, back)
  {
    var first, rest := timers[0], timers[1..];
    assert timers == [first] + rest;
    IncreasingAbove(rest, first.order, first.order);
    if first == t {
      hide Increasing, TakenOut;
      front, back := [], Filtered(rest, p);
      TakenFirst(rest, t, p);
    } else {
      OrderAbove(rest, first.order, t);
      hide TakenOut;
      front, back := FilteredRemoved(rest, first.order, t, p);
      TakenLater(first, rest, t, p, front, back);
      front := (if p(first) then [first] else []) + front;
    }
  }

  lemma TakenFirst<C>(rest: seq<Timer<C>>, t: Timer<C>, p: Timer<C> -> bool)
    requires forall i :: 0 <= i < |rest| ==> rest[i].order > t.order
    ensures TakenOut([t] + rest, t, p, [], Filtered(rest, p))
  {
    hide Filtered, Removed;
    NothingRemoved(rest, t.order);
    RemovedCons(t, rest, t.order);
    FilteredCons(t, rest, p);
    NothingInFront(if p(t) then [t] else []);
    NothingInFront(Filtered(rest, p));
    NothingInFront(rest);
  }

  lemma NothingInFront<T>(s: seq<T>)
    ensures [] + s == s
  {
  }

  lemma TakenLater<C>(
    first: Timer<C>, rest: seq<Timer<C>>, t: Timer<C>, p: Timer<C> -> bool, front: seq<Timer<C>>, back: seq<Timer<C>>)
    requires TakenOut(rest, t, p, front, back) && first.order != t.order
    ensures TakenOut([first] + rest, t, p, (if p(first) then [first] else []) + front, back)
  {
    hide Filtered, Removed;
    RemovedCons(first, rest, t.order);
    FilteredCons(first, rest, p);
    FilteredCons(first, Removed(rest, t.order), p);
  }

  lemma OrderAbove<C>(timers: seq<Timer<C>>, lo: int, t: Timer<C>)
    requires t in timers && forall i :: 0 <= i < |timers| ==> timers[i].order > lo
    ensures t.order > lo
  {
  }

  lemma RemovedCons<C>(first: Timer<C>, rest: seq<Timer<C>>, order: nat)
    ensures Removed([first] + rest, order) == (if first.order != order then [first] else []) + Removed(rest, order)
  {
    FilteredCons(first, rest, (u: Timer<C>) => u.order != order);
  }

  lemma {:induction false} NothingRemoved<C>(timers: seq<Timer<C>>, order: nat)
    requires forall i :: 0 <= i < |timers| ==> timers[i].order != order
    ensures Removed(timers, order) == timers
  {
    if timers != [] { NothingRemoved(timers[1..], order); }
  }

  function StartsOf(starts: seq<Start>, sync: Sync): seq<int> {
    if starts == [] then []
    else
      var last := starts[|starts| - 1];
      StartsOf(starts[..|starts| - 1], sync) + if last.sync == sync then [last.at] else []
  }

  lemma StartsOfSnoc(starts: seq<Start>, s: Start, sync: Sync)
    ensures StartsOf(starts + [s], sync) == StartsOf(starts, sync) + if s.sync == sync then [s.at] else []
  {
    assert (starts + [s])[..|starts|] == starts;
  }

  function IsOtherDue<C>(target: int): Timer<Code<C>> -> bool {
    (t: Timer<Code<C>>) => t.code.Other? && t.fireAt <= target
  }

  /** How many timers of other kinds are due. */
  function OthersDue<C>(timers: seq<Timer<Code<C>>>, target: int): nat { |Filtered(timers, IsOtherDue(target))| }

  /** Which sync a firing belongs to, and that it is at its instant. */
  lemma FiredSync<C>(c: State<Code<C>>, family: seq<Sync>, at: seq<int>, t: Timer<Code<C>>) returns (k: nat)
    requires Armed(c, family, at) && t in c.timers && t.code.Recurring?
    ensures k < |family| && t.code == Recurring(family[k]) && t.fireAt == at[k]
  {
    k :| 0 <= k < |family| && family[k] == t.code.sync;
    assert ArmedAt(c.timers, family[k], at[k]);
    assert IsOf(family[k])(t);
    assert t in OfSync(c.timers, family[k]);
  }

  /** A firing sync's timer is replaced by its next one, and every other sync keeps its own. */
  lemma SyncReplaced<C>(c: State<Code<C>>, t: Timer<Code<C>>, sync: Sync, next: int, any: Sync, at: int)
    requires Valid(c) && t in c.timers && t.code == Recurring(sync) && ArmedAt(c.timers, any, at)
    ensures ArmedAt(Removed(c.timers, t.order) + [Timer(next, c.seqNo + 1, Recurring(sync))], any,
                    if any == sync then next else at)
  {
    var front, back := FilteredRemoved(c.timers, -1, t, IsOf(any));
    OfSyncSnoc(Removed(c.timers, t.order), Timer(next, c.seqNo + 1, Recurring(sync)), any);
    hide Filtered, Removed, Valid;
  }

  lemma SyncLeavesOthers<C>(c: State<Code<C>>, t: Timer<Code<C>>, sync: Sync, next: int, target: int)
    requires Valid(c) && t in c.timers && t.code == Recurring(sync)
    ensures OthersDue(Removed(c.timers, t.order) + [Timer(next, c.seqNo + 1, Recurring(sync))], target)
         == OthersDue(c.timers, target)
  {
    var left, armed := Removed(c.timers, t.order), Timer(next, c.seqNo + 1, Recurring(sync));
    var front, back := FilteredRemoved(c.timers, -1, t, IsOtherDue(target));
    FilteredAppend(left, [armed], IsOtherDue(target));
    NoneFilteredOne(armed, IsOtherDue(target));
    hide Filtered, Removed, Valid;
  }

  lemma NoneFilteredOne<T>(x: T, p: T -> bool)
    requires !p(x)
    ensures Filtered([x], p) == []
  {
    assert [x][1..] == [];
  }

  /** A firing timer of another kind is taken out, and every sync keeps its own. */
  lemma OtherLeavesSyncs<C>(c: State<Code<C>>, t: Timer<Code<C>>, sync: Sync, at: int)
    requires Valid(c) && t in c.timers && t.code.Other? && ArmedAt(c.timers, sync, at)
    ensures ArmedAt(Removed(c.timers, t.order), sync, at)
  {
    var front, back := FilteredRemoved(c.timers, -1, t, IsOf(sync));
    hide Filtered, Removed, Valid;
  }

  lemma OtherTakenOut<C>(c: State<Code<C>>, t: Timer<Code<C>>, target: int)
    requires Valid(c) && t in c.timers && t.code.Other? && t.fireAt <= target
    ensures OthersDue(Removed(c.timers, t.order), target) == OthersDue(c.timers, target) - 1
  {
    var front, back := FilteredRemoved(c.timers, -1, t, IsOtherDue(target));
    hide Filtered, Removed, Valid;
  }

  lemma NextIsDue<C(!new)>(c: State<C>, target: int)
    requires HasDue(c, target)
    ensures NextDue(c, target) in c.timers && NextDue(c, target).fireAt <= target
  {
    NextDueIsLeast(c, target);
  }

  lemma SyncFiring<W, C(!new)>(other: OtherCallback<W, C>, s: System<World<W>, Code<C>>, target: int)
    requires HasDue(s.clock, target) && NextDue(s.clock, target).code.Recurring?
    ensures var t, r := NextDue(s.clock, target), FireNext(Shared(other), s, target);
      && r.clock.timers == Removed(s.clock.timers, t.order)
                           + [Timer(NextStart(t.code.sync.interval, t.fireAt), s.clock.seqNo + 1, t.code)]
      && r.clock.seqNo == s.clock.seqNo + 1
      && r.world == World(s.world.starts + [Start(t.code.sync, t.fireAt)], s.world.rest)
  {
    hide HasDue, NextDue, Removed, NextStart;
    var t := NextDue(s.clock, target);
    var ops := [Schedule(NextStart(t.code.sync.interval, t.fireAt), t.code)];
    var c := State(t.fireAt, s.clock.seqNo, Removed(s.clock.timers, t.order));
    assert ops[1..] == [];
    assert ApplyOps(c, ops) == ApplyOp(c, ops[0]);
  }

  lemma OtherFiring<W, C(!new)>(other: OtherCallback<W, C>, s: System<World<W>, Code<C>>, target: int)
    requires HasDue(s.clock, target) && NextDue(s.clock, target).code.Other?
    ensures var t, r := NextDue(s.clock, target), FireNext(Shared(other), s, target);
      && r.clock.timers == Removed(s.clock.timers, t.order) && r.clock.seqNo == s.clock.seqNo
      && r.world.starts == s.world.starts
  {
    hide HasDue, NextDue, Removed;
  }

  /** A sync fires: it publishes its instant and is armed for the next one; all else on the clock stays. */
  lemma SyncFires<W, C(!new)>(
    other: OtherCallback<W, C>, s: System<World<W>, Code<C>>, family: seq<Sync>, at: seq<int>, target: int)
    returns (k: nat)
    requires Armed(s.clock, family, at) && HasDue(s.clock, target) && NextDue(s.clock, target).code.Recurring?
    ensures k < |family| && at[k] <= target
    ensures var r := FireNext(Shared(other), s, target);
      && Armed(r.clock, family, at[k := NextStart(family[k].interval, at[k])])
      && r.world == World(s.world.starts + [Start(family[k], at[k])], s.world.rest)
      && OthersDue(r.clock.timers, target) == OthersDue(s.clock.timers, target)
  {
    hide FireNext, HasDue, NextDue, ArmedAt, OthersDue, NextStart, Removed;
    var t := NextDue(s.clock, target);
    NextIsDue(s.clock, target);
    k := FiredSync(s.clock, family, at, t);
    SyncFiring(other, s, target);
    FireNextValid(Shared(other), s, target);
    SyncLeavesOthers(s.clock, t, family[k], NextStart(family[k].interval, at[k]), target);
    FamilyRearmed(s.clock, FireNext(Shared(other), s, target).clock, family, at, t, k);
  }

  lemma FamilyRearmed<C>(
    c: State<Code<C>>, after: State<Code<C>>, family: seq<Sync>, at: seq<int>, t: Timer<Code<C>>, k: nat)
    requires Armed(c, family, at) && t in c.timers && k < |family| && t.code == Recurring(family[k])
    requires Valid(after) && after.seqNo == c.seqNo + 1
    requires after.timers == Removed(c.timers, t.order)
                             + [Timer(NextStart(family[k].interval, at[k]), c.seqNo + 1, Recurring(family[k]))]
    ensures Armed(after, family, at[k := NextStart(family[k].interval, at[k])])
  {
    hide ArmedAt, NextStart, Removed, Valid;
    var next := NextStart(family[k].interval, at[k]);
    forall j | 0 <= j < |family| ensures ArmedAt(after.timers, family[j], at[k := next][j]) {
      SyncReplaced(c, t, family[k], next, family[j], at[j]);
    }
    RemovedMembers(c.timers, t.order);
  }

  lemma RemovedMembers<C>(timers: seq<Timer<C>>, order: nat)
    ensures forall t :: t in Removed(timers, order) ==> t in timers
  {
  }

  /** Another timer fires: the syncs and their starts stay. */
  lemma OtherFires<W, C(!new)>(
    other: OtherCallback<W, C>, s: System<World<W>, Code<C>>, family: seq<Sync>, at: seq<int>, target: int)
    requires Armed(s.clock, family, at) && HasDue(s.clock, target) && NextDue(s.clock, target).code.Other?
    ensures var r := FireNext(Shared(other), s, target);
      && Armed(r.clock, family, at) && r.world.starts == s.world.starts
      && OthersDue(r.clock.timers, target) == OthersDue(s.clock.timers, target) - 1
  {
    var t := NextDue(s.clock, target);
    NextIsDue(s.clock, target);
    OtherFiring(other, s, target);
    FireNextValid(Shared(other), s, target);
    OtherTakenOut(s.clock, t, target);
    hide FireNext, HasDue, NextDue, ArmedAt, OthersDue;
    forall k | 0 <= k < |family| ensures ArmedAt(FireNext(Shared(other), s, target).clock.timers, family[k], at[k]) {
      OtherLeavesSyncs(s.clock, t, family[k], at[k]);
    }
    RemovedMembers(s.clock.timers, t.order);
  }

  // ---- A whole advance ----

  predicate AllPass(family: seq<Sync>, at: seq<int>, target: int) {
    |family| == |at| && forall k :: 0 <= k < |family| ==> Passes(family[k].interval, at[k], target)
  }

  /** Where each sync is armed once the target is passed. */
  function Nexts(family: seq<Sync>, at: seq<int>, target: int): seq<int>
    requires AllPass(family, at, target)
  {
    seq(|family|, k requires 0 <= k < |family| => FirstAfter(family[k].interval, at[k], target))
  }

  /** How many starts of the family are due. */
  function StartsDue(family: seq<Sync>, at: seq<int>, target: int): nat
    requires AllPass(family, at, target)
  {
    if family == [] then 0
    else |InstantsUpTo(family[0].interval, at[0], target)| + StartsDue(family[1..], at[1..], target)
  }

  /** Between `before` and `after` each sync of the family published exactly its instants up to the target, in order. */
  ghost predicate Published(before: seq<Start>, after: seq<Start>, family: seq<Sync>, at: seq<int>, target: int)
    requires AllPass(family, at, target)
  {
    && (forall k | 0 <= k < |family| ::
          StartsOf(after, family[k]) == StartsOf(before, family[k]) + InstantsUpTo(family[k].interval, at[k], target))
    && (forall x :: x !in family ==> StartsOf(after, x) == StartsOf(before, x))
  }

  lemma PassesNext(interval: real, at: int, target: int)
    requires Passes(interval, at, target) && at <= target
    ensures Passes(interval, NextStart(interval, at), target)
    ensures InstantsUpTo(interval, at, target) == [at] + InstantsUpTo(interval, NextStart(interval, at), target)
    ensures FirstAfter(interval, at, target) == FirstAfter(interval, NextStart(interval, at), target)
  {
    NextStartFacts(interval, at);
  }

  lemma {:induction false} OneStartLess(family: seq<Sync>, at: seq<int>, k: nat, target: int)
    requires AllPass(family, at, target) && k < |family| && at[k] <= target
    ensures var at' := at[k := NextStart(family[k].interval, at[k])];
      && AllPass(family, at', target) && StartsDue(family, at', target) == StartsDue(family, at, target) - 1
      && Nexts(family, at', target) == Nexts(family, at, target)
    decreases k
  {
    var next := NextStart(family[k].interval, at[k]);
    PassesNext(family[k].interval, at[k], target);
    hide NextStart, InstantsUpTo, FirstAfter, Passes;
    if k == 0 {
      assert at[0 := next][1..] == at[1..];
    } else {
      assert at[k := next][1..] == at[1..][k - 1 := next];
      OneStartLess(family[1..], at[1..], k - 1, target);
    }
  }

  lemma PublishedEarlier(
    before: seq<Start>, after: seq<Start>, family: seq<Sync>, at: seq<int>, k: nat, target: int)
    requires AllPass(family, at, target) && k < |family| && at[k] <= target
    requires forall i, j :: 0 <= i < j < |family| ==> family[i] != family[j]
    requires AllPass(family, at[k := NextStart(family[k].interval, at[k])], target)
    requires Published(before + [Start(family[k], at[k])], after, family,
                       at[k := NextStart(family[k].interval, at[k])], target)
    ensures Published(before, after, family, at, target)
  {
    PassesNext(family[k].interval, at[k], target);
    hide NextStart, InstantsUpTo, StartsOf, Passes;
    forall x ensures StartsOf(before + [Start(family[k], at[k])], x)
                  == StartsOf(before, x) + if family[k] == x then [at[k]] else []
    {
      StartsOfSnoc(before, Start(family[k], at[k]), x);
    }
  }

  lemma NothingDue<C>(c: State<Code<C>>, family: seq<Sync>, at: seq<int>, target: int, k: nat)
    requires Armed(c, family, at) && !HasDue(c, target) && k < |family|
    ensures at[k] > target
  {
    var t := OfSync(c.timers, family[k])[0];
    assert ArmedAt(c.timers, family[k], at[k]);
    assert t in c.timers;
    assert t.fireAt > target || t in Due(c.timers, target);
  }

  /** The loop comes to its end, with every sync's due starts published and every sync armed past the target. */
  ghost predicate RanFamily<W, C>(
    other: OtherCallback<W, C>, s: System<World<W>, Code<C>>, family: seq<Sync>, at: seq<int>, target: int, n: nat)
    requires AllPass(family, at, target)
  {
    var r := Fire(Shared(other), s, target, n);
    && SettlesIn(Shared(other), s, target, n)
    && Armed(r.clock, family, Nexts(family, at, target))
    && Published(s.world.starts, r.world.starts, family, at, target)
  }

  lemma FamilyAtRest<W, C(!new)>(
    other: OtherCallback<W, C>, s: System<World<W>, Code<C>>, family: seq<Sync>, at: seq<int>, target: int)
    requires Armed(s.clock, family, at) && AllPass(family, at, target) && !HasDue(s.clock, target)
    ensures RanFamily(other, s, family, at, target, 0)
  {
    hide HasDue, ArmedAt, StartsOf;
    forall k | 0 <= k < |family|
      ensures InstantsUpTo(family[k].interval, at[k], target) == [] && Nexts(family, at, target)[k] == at[k]
    {
      NothingDue(s.clock, family, at, target, k);
    }
    assert Nexts(family, at, target) == at;
  }

  lemma {:induction false} FamilyRuns<W, C(!new)>(
    other: OtherCallback<W, C>, s: System<World<W>, Code<C>>, family: seq<Sync>, at: seq<int>, target: int)
    returns (n: nat)
    requires Armed(s.clock, family, at) && AllPass(family, at, target)
    ensures RanFamily(other, s, family, at, target, n)
    decreases StartsDue(family, at, target) + OthersDue(s.clock.timers, target)
  {
    hide FireNext, HasDue, NextDue, OthersDue, StartsDue, Published, AllPass, RanFamily;
    if !HasDue(s.clock, target) {
      FamilyAtRest(other, s, family, at, target);
      n := 0;
    } else {
      var r := FireNext(Shared(other), s, target);
      if NextDue(s.clock, target).code.Recurring? {
        var k := SyncFires(other, s, family, at, target);
        var next := at[k := NextStart(family[k].interval, at[k])];
        OneStartLess(family, at, k, target);
        n := FamilyRuns(other, r, family, next, target);
        RanEarlier(other, s, r, family, at, k, target, n);
      } else {
        OtherFires(other, s, family, at, target);
        n := FamilyRuns(other, r, family, at, target);
        RanBeside(other, s, r, family, at, target, n);
      }
      n := n + 1;
    }
  }

  lemma RanEarlier<W, C(!new)>(
    other: OtherCallback<W, C>, s: System<World<W>, Code<C>>, r: System<World<W>, Code<C>>,
    family: seq<Sync>, at: seq<int>, k: nat, target: int, n: nat)
    requires Armed(s.clock, family, at) && AllPass(family, at, target) && HasDue(s.clock, target)
    requires r == FireNext(Shared(other), s, target) && k < |family| && at[k] <= target
    requires r.world.starts == s.world.starts + [Start(family[k], at[k])]
    requires var next := at[k := NextStart(family[k].interval, at[k])];
      AllPass(family, next, target) && Nexts(family, next, target) == Nexts(family, at, target)
      && RanFamily(other, r, family, next, target, n)
    ensures RanFamily(other, s, family, at, target, n + 1)
  {
    hide FireNext, HasDue, Nexts, Published, AllPass, ArmedAt, Valid;
    var after := Fire(Shared(other), s, target, n + 1);
    PublishedEarlier(s.world.starts, after.world.starts, family, at, k, target);
  }

  lemma RanBeside<W, C(!new)>(
    other: OtherCallback<W, C>, s: System<World<W>, Code<C>>, r: System<World<W>, Code<C>>,
    family: seq<Sync>, at: seq<int>, target: int, n: nat)
    requires AllPass(family, at, target) && HasDue(s.clock, target)
    requires r == FireNext(Shared(other), s, target) && r.world.starts == s.world.starts
    requires RanFamily(other, r, family, at, target, n)
    ensures RanFamily(other, s, family, at, target, n + 1)
  {
    hide FireNext, HasDue, Nexts, Published, AllPass, Armed;
  }

  // ---- The results ----

  /**
    One advance over any family of syncs beside any other timers returns, and then each sync has published
    exactly its instants from the armed one up to the target, in order, no other sync has published anything,
    and each sync has exactly one timer, at its first instant after the target.
   */
  lemma FamilySyncs<W, C(!new)>(
    other: OtherCallback<W, C>, s: System<World<W>, Code<C>>, family: seq<Sync>, at: seq<int>, target: int)
    requires Armed(s.clock, family, at) && AllPass(family, at, target)
    ensures Settles(Shared(other), s, target)
    ensures var r := AdvanceTo(Shared(other), s, target);
      && Published(s.world.starts, r.world.starts, family, at, target)
      && Armed(r.clock, family, Nexts(family, at, target))
  {
    hide AllPass, Nexts, Published, ArmedAt, Valid, Fire, SettlesIn;
    var n := FamilyRuns(other, s, family, at, target);
    AdvanceToIs(Shared(other), s, target, n);
    var r := Fire(Shared(other), s, target, n);
    ValidAtTime(r.clock, target);
    hide AdvanceTo, Settles;
  }

  lemma ValidAtTime<C>(c: State<C>, ms: int)
    requires Valid(c)
    ensures Valid(c.(ms := ms))
  {
  }

  /**
    In closed form, for each sync that is armed from 1970 on or has an interval of whole milliseconds: exactly
    max(0, floor((T-F)/i)+1) starts, at F, F+i, ..., and the next one armed for the instant that follows.
   */
  lemma RecurringSyncCount<W, C(!new)>(
    other: OtherCallback<W, C>, s: System<World<W>, Code<C>>, family: seq<Sync>, at: seq<int>, target: int, k: nat)
    requires Armed(s.clock, family, at) && AllPass(family, at, target)
    requires k < |family| && WholeSteps(at[k], family[k].interval)
    ensures Settles(Shared(other), s, target)
    ensures var r := AdvanceTo(Shared(other), s, target);
      var d, n := Step(family[k].interval), TickCount(at[k], Step(family[k].interval), target);
      && StartsOf(r.world.starts, family[k]) == StartsOf(s.world.starts, family[k]) + Ticks(at[k], d, n)
      && ArmedAt(r.clock.timers, family[k], Instant(at[k], d, n)) && Instant(at[k], d, n) > target
  {
    assert family[k].interval >= 1.0;
    hide Step, TickCount, Ticks, Instant, WholeSteps, InstantsUpTo, StartsOf, ArmedAt, Settles, AdvanceTo, AllPass;
    FamilySyncs(other, s, family, at, target);
    var d, n := Step(family[k].interval), TickCount(at[k], Step(family[k].interval), target);
    InstantsAreTicks(family[k].interval, at[k], target, n);
    assert Nexts(family, at, target)[k] == FirstAfter(family[k].interval, at[k], target);
  }

  /** A sync below a millisecond, due from 1970 on, re-arms for the same instant, and the advance never returns. */
  lemma {:induction false} NeverSettles<W, C(!new)>(
    other: OtherCallback<W, C>, s: System<World<W>, Code<C>>, family: seq<Sync>, at: seq<int>, target: int, k: nat,
    n: nat)
    requires Armed(s.clock, family, at) && k < |family| == |at| && !Passes(family[k].interval, at[k], target)
    ensures !SettlesIn(Shared(other), s, target, n)
    decreases n
  {
    hide FireNext, HasDue, Armed, Passes;
    StuckIsDue(s.clock, family, at, target, k);
    if n > 0 {
      var next := StuckStep(other, s, family, at, target, k);
      NeverSettles(other, FireNext(Shared(other), s, target), family, next, target, k, n - 1);
    }
  }

  lemma StuckStep<W, C(!new)>(
    other: OtherCallback<W, C>, s: System<World<W>, Code<C>>, family: seq<Sync>, at: seq<int>, target: int, k: nat)
    returns (next: seq<int>)
    requires Armed(s.clock, family, at) && HasDue(s.clock, target)
    requires k < |family| == |at| && !Passes(family[k].interval, at[k], target)
    ensures Armed(FireNext(Shared(other), s, target).clock, family, next)
    ensures |next| == |family| && !Passes(family[k].interval, next[k], target)
  {
    hide FireNext, NextDue, OthersDue, HasDue, ArmedAt, Valid, NextStart;
    next := at;
    if NextDue(s.clock, target).code.Recurring? {
      var j := SyncFires(other, s, family, at, target);
      StaysStuck(s.clock, family, at, target, k, j);
      next := at[j := NextStart(family[j].interval, at[j])];
    } else {
      OtherFires(other, s, family, at, target);
    }
  }

  lemma StuckIsDue<C>(c: State<Code<C>>, family: seq<Sync>, at: seq<int>, target: int, k: nat)
    requires Armed(c, family, at) && k < |family| && !Passes(family[k].interval, at[k], target)
    ensures HasDue(c, target)
  {
    hide HasDue;
    if !HasDue(c, target) { NothingDue(c, family, at, target, k); }
  }

  lemma StaysStuck<C>(c: State<Code<C>>, family: seq<Sync>, at: seq<int>, target: int, k: nat, j: nat)
    requires Armed(c, family, at) && k < |family| && j < |family| && !Passes(family[k].interval, at[k], target)
    ensures |family| == |at|
    ensures !Passes(family[k].interval, at[j := NextStart(family[j].interval, at[j])][k], target)
  {
    hide NextStart, ArmedAt;
    NextStartFacts(family[j].interval, at[j]);
  }

  /**
    The advance returns exactly when every sync's instants pass the target: its interval is at least a
    millisecond, or it is not due, or the target lies before 1970, where cutting off moves each instant on.
   */
  lemma RecurringSettlesIff<W, C(!new)>(
    other: OtherCallback<W, C>, s: System<World<W>, Code<C>>, family: seq<Sync>, at: seq<int>, target: int)
    requires Armed(s.clock, family, at)
    ensures Settles(Shared(other), s, target) <==> AllPass(family, at, target)
  {
    if AllPass(family, at, target) {
      FamilySyncs(other, s, family, at, target);
    } else {
      var k :| 0 <= k < |family| && !Passes(family[k].interval, at[k], target);
      forall n: nat ensures !SettlesIn(Shared(other), s, target, n) {
        NeverSettles(other, s, family, at, target, k, n);
      }
    }
  }
}
