/** What comes to pass in Flow E: once the due timers have fired, every window due by then that can open is open. */
module FlowEProgress {
  import opened Wrappers
  import opened EventBus
  import opened FlowE
  import opened FlowEInvariant
  import opened Sorting
  import Clock

  type WindowTimer = Clock.Timer<Window>

  /** The timers due by `target` fire one after another, at most `n` of them. */
  function FireSteps(target: int, n: nat): seq<FlowStep> {
    if n == 0 then [] else [FireStep(target)] + FireSteps(target, n - 1)
  }

  /** The scheduler has opened this window, stamped with the time of its timer. */
  ghost predicate HasOpened(ps: seq<Event>, t: WindowTimer) {
    exists e :: e in ps && IsOpening(e) && e.payload.action == Some(t.code.action) && e.occurredAt == t.fireAt
  }

  /** What has become of a timer that was pending in `b`. */
  ghost predicate Served(b: FlowBus, r: FlowBus, t: WindowTimer, target: int) {
    if t.fireAt > target then t in r.world.clock.timers
    else if Stampable(t.fireAt) then HasOpened(r.published, t)
    else t.code.action in r.world.lost
  }

  ghost predicate AllServed(b: FlowBus, r: FlowBus, target: int) {
    && (forall t :: t in b.world.clock.timers ==> Served(b, r, t, target))
    && (forall t :: t in r.world.clock.timers ==> t in b.world.clock.timers && t.fireAt > target)
    && b.published <= r.published && b.world.lost <= r.world.lost && r.world.scheduled == b.world.scheduled
  }

  // ---- One firing ----

  lemma RemovedOne<C>(timers: seq<Clock.Timer<C>>, lo: int, t: Clock.Timer<C>)
    requires Clock.Increasing(timers, lo) && t in timers
    ensures |Clock.Removed(timers, t.order)| < |timers|
    ensures forall u :: u in Clock.Removed(timers, t.order) <==> u in timers && u != t
  {
    var kept := (u: Clock.Timer<C>) => u.order != t.order;
    SameOrderIsSame(timers, lo, t);
    FilteredShorter(timers, kept, t);
  }

  lemma SameOrderIsSame<C>(timers: seq<Clock.Timer<C>>, lo: int, t: Clock.Timer<C>)
    requires Clock.Increasing(timers, lo) && t in timers
    ensures forall u :: u in timers && u.order == t.order ==> u == t
  {
    forall u | u in timers && u.order == t.order ensures u == t {
      var i :| 0 <= i < |timers| && timers[i] == u;
      var j :| 0 <= j < |timers| && timers[j] == t;
      Clock.OrderIdentifies(timers, lo, i, j);
    }
  }

  lemma {:induction false} FilteredShorter<T>(s: seq<T>, p: T -> bool, x: T)
    requires x in s && !p(x)
    ensures |Filtered(s, p)| < |s|
  {
    if s[0] != x {
      assert x in s[1..];
      FilteredShorter(s[1..], p, x);
    }
  }

  /** A due timer fires: it is served, it alone is gone, and everything else stays. */
  lemma FiringServes(b: FlowBus, target: int)
    requires Clock.Valid(b.world.clock) && Clock.HasDue(b.world.clock, target)
    ensures var r, t := FireWindow(b, target), Clock.NextDue(b.world.clock, target);
      && t in b.world.clock.timers && t.fireAt <= target
      && |r.world.clock.timers| < |b.world.clock.timers|
      && (forall u :: u in r.world.clock.timers <==> u in b.world.clock.timers && u != t)
      && (if Stampable(t.fireAt) then HasOpened(r.published, t) else t.code.action in r.world.lost)
      && b.published <= r.published && b.world.lost <= r.world.lost && r.world.scheduled == b.world.scheduled
  {
    var t := Clock.NextDue(b.world.clock, target);
    Clock.NextDueIsLeast(b.world.clock, target);
    RemovedOne(b.world.clock.timers, -1, t);
    hide Clock.Removed, Clock.HasDue, Clock.NextDue, Clock.Increasing;
    if Stampable(t.fireAt) {
      var e := Opening(b.world, t.code, t.fireAt);
      assert e in FireWindow(b, target).published && IsOpening(e);
    }
  }

  lemma NothingDueIsServed(b: FlowBus, target: int)
    requires !Clock.HasDue(b.world.clock, target)
    ensures AllServed(b, b, target)
  {
    forall t | t in b.world.clock.timers ensures t.fireAt > target {
      assert t.fireAt > target || t in Clock.Due(b.world.clock.timers, target);
    }
  }

  lemma HasOpenedStays(ps: seq<Event>, qs: seq<Event>, t: WindowTimer)
    requires ps <= qs && HasOpened(ps, t)
    ensures HasOpened(qs, t)
  {
    var e :| e in ps && IsOpening(e) && e.payload.action == Some(t.code.action) && e.occurredAt == t.fireAt;
    var k :| 0 <= k < |ps| && ps[k] == e;
    assert qs[k] == e;
  }

  lemma ServedThrough(b: FlowBus, m: FlowBus, r: FlowBus, target: int)
    requires Clock.Valid(b.world.clock) && Clock.HasDue(b.world.clock, target)
    requires m == FireWindow(b, target) && AllServed(m, r, target)
    ensures AllServed(b, r, target)
  {
    var fired := Clock.NextDue(b.world.clock, target);
    FiringServes(b, target);
    hide Clock.HasDue, Clock.NextDue, Clock.Valid, FireWindow, HasOpened;
    assert b.published <= r.published;
    forall t | t in b.world.clock.timers ensures Served(b, r, t, target) {
      if t == fired {
        if Stampable(t.fireAt) { HasOpenedStays(m.published, r.published, t); }
      } else {
        assert Served(m, r, t, target);
      }
    }
  }

  /**
    Firing as many timers as are pending, from any state of the invariant: every timer due by `target` has
    opened its window at its time, or, outside the years an event can be stamped with, has lost it; every
    other timer is still there, and no other.
   */
  lemma {:induction false} DueTimersAreServed(source: nat -> Reading, b: FlowBus, target: int, n: nat)
    requires FlowInv(b) && |b.world.clock.timers| <= n
    ensures var r := RunAll(source, b, FireSteps(target, n));
      FlowInv(r) && AllServed(b, r, target)
    decreases n
  {
    hide FlowInv, FireWindow, AllServed, Clock.HasDue, Clock.NextDue, Clock.Valid;
    FlowClockValid(b);
    if n == 0 {
      EmptyHasNoneDue(b.world.clock, target);
      NothingDueIsServed(b, target);
    } else {
      var m := FireWindow(b, target);
      FireKeeps(b, target);
      assert FireSteps(target, n)[1..] == FireSteps(target, n - 1);
      if Clock.HasDue(b.world.clock, target) {
        FiringServes(b, target);
        DueTimersAreServed(source, m, target, n - 1);
        ServedThrough(b, m, RunAll(source, m, FireSteps(target, n - 1)), target);
      } else {
        StaysPut(source, b, target, n);
        NothingDueIsServed(b, target);
      }
    }
  }

  lemma FlowClockValid(b: FlowBus)
    requires FlowInv(b)
    ensures Clock.Valid(b.world.clock)
  {
  }

  lemma EmptyHasNoneDue(c: Clock.State<Window>, target: int)
    requires c.timers == []
    ensures !Clock.HasDue(c, target)
  {
  }

  lemma {:induction false} StaysPut(source: nat -> Reading, b: FlowBus, target: int, n: nat)
    requires !Clock.HasDue(b.world.clock, target)
    ensures RunAll(source, b, FireSteps(target, n)) == b
    decreases n
  {
    hide Clock.HasDue, Clock.NextDue;
    if n > 0 {
      assert FireSteps(target, n)[1..] == FireSteps(target, n - 1);
      StaysPut(source, b, target, n - 1);
    }
  }

  /**
    Progress, in every reachable state: after the timers due by `target` have fired, each scheduled action has
    its window open, or still has a timer, which lies after the target, or its window could not be opened; and
    every window that was pending for a time by then that an event can be stamped with is open at that time.
   */
  lemma DueWindowsOpen(
    source: nat -> Reading, maxRetries: int, start: int, firstId: Id, steps: seq<FlowStep>, target: int)
    ensures var b := RunAll(source, Init(maxRetries, start, firstId), steps);
      var r := RunAll(source, b, FireSteps(target, |b.world.clock.timers|));
      && (forall t | t in b.world.clock.timers && t.fireAt <= target && Stampable(t.fireAt) ::
            HasOpened(r.published, t))
      && (forall t | t in r.world.clock.timers :: t.fireAt > target)
      && (forall a | a in b.world.scheduled ::
            a in OpenedIds(r.published) || a in PendingIds(r.world.clock.timers) || CannotOpen(a, r.published))
  {
    hide RunAll, FireSteps, HasOpened, CannotOpen, OpenedIds, PendingIds;
    InitHolds(maxRetries, start, firstId);
    RunKeeps(source, Init(maxRetries, start, firstId), steps);
    var b := RunAll(source, Init(maxRetries, start, firstId), steps);
    DueTimersAreServed(source, b, target, |b.world.clock.timers|);
    var r := RunAll(source, b, FireSteps(target, |b.world.clock.timers|));
    ScheduledAccountedFor(r);
    hide FlowInv;
    forall t | t in b.world.clock.timers && t.fireAt <= target && Stampable(t.fireAt)
      ensures HasOpened(r.published, t)
    {
      assert Served(b, r, t, target);
    }
  }

  lemma ScheduledAccountedFor(r: FlowBus)
    requires FlowInv(r)
    ensures forall a | a in r.world.scheduled ::
              a in OpenedIds(r.published) || a in PendingIds(r.world.clock.timers) || CannotOpen(a, r.published)
  {
    hide BusInv, Named, Verdicts, Lessons, Aggregates, Rows, SeenDelivered, CannotOpen, OpenedIds, PendingIds;
  }
}
