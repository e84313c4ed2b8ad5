/**
  The in-memory event bus (packages/eventbus/src/bus.ts): FIFO delivery, one settlement per subscription and
  event id, bounded retries, dead letters.

  A handler is a value; running it is the parameter `handle`, which returns the new world, the events the
  run published (before returning or throwing) and how it ended.  What the outside world does while a
  handler awaits, such as publishing, is part of that run.
 */
module EventBus {
  import opened Wrappers

  type Id = nat

  datatype Envelope<P> = Envelope(
    eventId: Id, kind: string, occurredAt: int, clientId: Id, correlationId: Id, causationId: Option<Id>,
    actor: string, payload: P)

  datatype Attempt<W, P> = Attempt(world: W, published: seq<Envelope<P>>, error: Option<string>)

  type Handling<!W, !H, !P> = (W, H, Envelope<P>) -> Attempt<W, P>

  datatype DeadLetter<P> = DeadLetter(subscription: string, event: Envelope<P>, error: string, attempts: nat)

  /** `since` is history: how many events had been delivered when the subscription was made. */
  datatype Sub<H> = Sub(name: string, pattern: string, handler: H, seen: set<Id>, since: nat)

  datatype Outcome = Succeeded | Retried | Parked

  /** History: one run of the handler of subscription number `sub` for an event id. */
  datatype Run = Run(sub: nat, id: Id, outcome: Outcome)

  /** `published` and `runs` are history. */
  datatype Bus<W, H, P> = Bus(
    maxRetries: int, subs: seq<Sub<H>>, queue: seq<Envelope<P>>, delivered: seq<Envelope<P>>,
    deadLetters: seq<DeadLetter<P>>, world: W, published: seq<Envelope<P>>, runs: seq<Run>)

  // ---- Matching ----

  predicate StartsWith(s: string, prefix: string) { prefix <= s }

  predicate TypeMatches(pattern: string, kind: string) {
    if pattern == "*" || pattern == kind then true
    else if |pattern| >= 2 && pattern[|pattern| - 2..] == ".*" then
      var base := pattern[..|pattern| - 2];
      kind == base || StartsWith(kind, base + ".")
    else false
  }

  /** A family wildcard matches the family itself and everything below it, and nothing else. */
  lemma FamilyWildcard(family: string, kind: string)
    requires family + ".*" != kind
    ensures TypeMatches(family + ".*", kind) <==> kind == family || (family + ".") <= kind
  {
    var pattern := family + ".*";
    assert pattern[|pattern| - 2..] == ".*" && pattern[..|pattern| - 2] == family;
    assert pattern != "*";
  }

  predicate InFamily(pattern: string, kind: string, family: string) {
    pattern == family + ".*" && (kind == family || family + "." <= kind)
  }

  /** What a pattern matches, exactly: everything for a star, its own type, or the family it names. */
  lemma TypeMatchesIff(pattern: string, kind: string)
    ensures TypeMatches(pattern, kind) <==>
              pattern == "*" || pattern == kind || exists family :: InFamily(pattern, kind, family)
  {
    if |pattern| >= 2 && pattern[|pattern| - 2..] == ".*" {
      var base := pattern[..|pattern| - 2];
      assert pattern == base + ".*";
      assert TypeMatches(pattern, kind) ==> pattern == "*" || pattern == kind || InFamily(pattern, kind, base);
    }
    if family :| InFamily(pattern, kind, family) {
      assert pattern[|pattern| - 2..] == ".*" && pattern[..|pattern| - 2] == family;
    }
  }

  // ---- Operations ----

  function Publish<W, H, P>(b: Bus<W, H, P>, e: Envelope<P>): Bus<W, H, P> {
    b.(queue := b.queue + [e], published := b.published + [e])
  }

  function Subscribe<W, H, P>(b: Bus<W, H, P>, name: string, pattern: string, handler: H): Bus<W, H, P> {
    b.(subs := b.subs + [Sub(name, pattern, handler, {}, |b.delivered|)])
  }

  function MaxRuns(maxRetries: int): nat { (if maxRetries > 0 then maxRetries else 0) + 1 }

  function MarkSeen<H>(subs: seq<Sub<H>>, i: nat, id: Id): seq<Sub<H>>
    requires i < |subs|
  {
    subs[i := subs[i].(seen := subs[i].seen + {id})]
  }

  /** The state after one run of a handler. */
  function AfterRun<W, H, P>(b: Bus<W, H, P>, r: Attempt<W, P>, run: Run): Bus<W, H, P> {
    b.(world := r.world, queue := b.queue + r.published, published := b.published + r.published,
       runs := b.runs + [run])
  }

  /** Runs the handler until it returns, or parks the event; `attempt` runs have failed already. */
  function Deliver<W, H, P>(
    handle: Handling<W, H, P>, b: Bus<W, H, P>, i: nat, e: Envelope<P>, attempt: nat): Bus<W, H, P>
    requires i < |b.subs| && attempt < MaxRuns(b.maxRetries)
    decreases MaxRuns(b.maxRetries) - attempt
  {
    var r := handle(b.world, b.subs[i].handler, e);
    var n := attempt + 1;
    if r.error.None? then
      var c := AfterRun(b, r, Run(i, e.eventId, Succeeded));
      c.(subs := MarkSeen(c.subs, i, e.eventId))
    else if n > b.maxRetries then
      var c := AfterRun(b, r, Run(i, e.eventId, Parked));
      c.(subs := MarkSeen(c.subs, i, e.eventId),
         deadLetters := c.deadLetters + [DeadLetter(c.subs[i].name, e, r.error.value, n)])
    else
      Deliver(handle, AfterRun(b, r, Run(i, e.eventId, Retried)), i, e, n)
  }

  predicate Wants<W, H, P>(b: Bus<W, H, P>, i: nat, e: Envelope<P>)
    requires i < |b.subs|
  {
    TypeMatches(b.subs[i].pattern, e.kind) && e.eventId !in b.subs[i].seen
  }

  /** Subscriptions `i`, `i + 1`, ... in turn. */
  function DeliverFrom<W, H, P>(handle: Handling<W, H, P>, b: Bus<W, H, P>, e: Envelope<P>, i: nat): (r: Bus<W, H, P>)
    requires i <= |b.subs|
    decreases |b.subs| - i
  {
    if i == |b.subs| then b
    else
      DeliverKeepsSubs(handle, b, i, e, 0);
      DeliverFrom(handle, if Wants(b, i, e) then Deliver(handle, b, i, e, 0) else b, e, i + 1)
  }

  /** One turn of the loop of `drain`: the oldest event goes to every subscription that wants it. */
  function DeliverNext<W, H, P>(handle: Handling<W, H, P>, b: Bus<W, H, P>): Bus<W, H, P>
    requires b.queue != []
  {
    DeliverFrom(handle, b.(queue := b.queue[1..], delivered := b.delivered + [b.queue[0]]), b.queue[0], 0)
  }

  /** At most `n` turns of the loop. */
  function Turns<W, H, P>(handle: Handling<W, H, P>, b: Bus<W, H, P>, n: nat): Bus<W, H, P>
    decreases n
  {
    if n == 0 || b.queue == [] then b else Turns(handle, DeliverNext(handle, b), n - 1)
  }

  ghost predicate DrainsIn<W, H, P>(handle: Handling<W, H, P>, b: Bus<W, H, P>, n: nat) {
    Turns(handle, b, n).queue == []
  }

  /** `drain` returns. */
  ghost predicate Drains<W, H, P>(handle: Handling<W, H, P>, b: Bus<W, H, P>) {
    exists n: nat :: DrainsIn(handle, b, n)
  }

  /** The state in which `drain` returns. */
  ghost function Drain<W, H, P>(handle: Handling<W, H, P>, b: Bus<W, H, P>): Bus<W, H, P>
    requires Drains(handle, b)
  {
    var n: nat :| DrainsIn(handle, b, n);
    Turns(handle, b, n)
  }

  // ---- What every operation leaves alone ----

  /** The same subscriptions, each with at least the ids it had settled. */
  ghost predicate SameSubs<H>(a: seq<Sub<H>>, b: seq<Sub<H>>) {
    |a| == |b| && forall i :: 0 <= i < |a| ==> b[i] == a[i].(seen := b[i].seen) && a[i].seen <= b[i].seen
  }

  lemma {:induction false} DeliverKeepsSubs<W, H, P>(
    handle: Handling<W, H, P>, b: Bus<W, H, P>, i: nat, e: Envelope<P>, attempt: nat)
    requires i < |b.subs| && attempt < MaxRuns(b.maxRetries)
    ensures var r := Deliver(handle, b, i, e, attempt);
      && SameSubs(b.subs, r.subs) && r.maxRetries == b.maxRetries && r.delivered == b.delivered
      && (forall j :: 0 <= j < |b.subs| && j != i ==> r.subs[j] == b.subs[j])
      && r.subs[i].seen == b.subs[i].seen + {e.eventId}
    decreases MaxRuns(b.maxRetries) - attempt
  {
    var r := handle(b.world, b.subs[i].handler, e);
    if r.error.Some? && attempt + 1 <= b.maxRetries {
      DeliverKeepsSubs(handle, AfterRun(b, r, Run(i, e.eventId, Retried)), i, e, attempt + 1);
    }
  }

  // ---- Conservation and settlement ----

  function CountRuns(runs: seq<Run>, i: nat, id: Id): nat {
    if runs == [] then 0
    else CountRuns(runs[..|runs| - 1], i, id)
         + (if runs[|runs| - 1].sub == i && runs[|runs| - 1].id == id then 1 else 0)
  }

  function CountSettled(runs: seq<Run>, i: nat, id: Id): nat {
    if runs == [] then 0
    else
      var last := runs[|runs| - 1];
      CountSettled(runs[..|runs| - 1], i, id)
      + (if last.sub == i && last.id == id && !last.outcome.Retried? then 1 else 0)
  }

  function ParkedRuns(runs: seq<Run>): seq<Run> {
    if runs == [] then []
    else ParkedRuns(runs[..|runs| - 1]) + (if runs[|runs| - 1].outcome.Parked? then [runs[|runs| - 1]] else [])
  }

  lemma RunsSnoc(runs: seq<Run>, r: Run)
    ensures forall i, id ::
              CountRuns(runs + [r], i, id) == CountRuns(runs, i, id) + if r.sub == i && r.id == id then 1 else 0
    ensures forall i, id :: CountSettled(runs + [r], i, id) ==
              CountSettled(runs, i, id) + if r.sub == i && r.id == id && !r.outcome.Retried? then 1 else 0
    ensures ParkedRuns(runs + [r]) == ParkedRuns(runs) + if r.outcome.Parked? then [r] else []
  {
    assert (runs + [r])[..|runs|] == runs;
  }

  /** Delivered events followed by waiting ones are the published events, in publish order. */
  ghost predicate Conserved<W, H, P>(b: Bus<W, H, P>) { b.delivered + b.queue == b.published }

  /**
    For subscription `i` and an id: once settled, it was settled by exactly one success or dead letter, after
    at most the allowed number of runs; before that its handler has not run for it at all.
   */
  ghost predicate SettledOnce<W, H, P>(b: Bus<W, H, P>, i: nat, id: Id)
    requires i < |b.subs|
  {
    if id in b.subs[i].seen
    then CountSettled(b.runs, i, id) == 1 && CountRuns(b.runs, i, id) <= MaxRuns(b.maxRetries)
    else CountSettled(b.runs, i, id) == 0 && CountRuns(b.runs, i, id) == 0
  }

  /** The k-th dead letter records the k-th parked run: its subscription, its event, and all its runs. */
  ghost predicate Recorded<W, H, P>(b: Bus<W, H, P>, k: nat)
    requires k < |b.deadLetters|
  {
    && k < |ParkedRuns(b.runs)|
    && var run, letter := ParkedRuns(b.runs)[k], b.deadLetters[k];
       && run.sub < |b.subs| && letter.subscription == b.subs[run.sub].name
       && letter.event.eventId == run.id && run.id in b.subs[run.sub].seen
       && letter.attempts == MaxRuns(b.maxRetries) == CountRuns(b.runs, run.sub, run.id)
  }

  ghost predicate DeadLettersRecorded<W, H, P>(b: Bus<W, H, P>) {
    && |b.deadLetters| == |ParkedRuns(b.runs)|
    && forall k :: 0 <= k < |b.deadLetters| ==> Recorded(b, k)
  }

  /** Subscription `i` has settled the k-th delivered event, if it matches and came after the subscription. */
  ghost predicate HandledBy<W, H, P>(b: Bus<W, H, P>, i: nat, k: nat)
    requires i < |b.subs| && k < |b.delivered|
  {
    k >= b.subs[i].since && TypeMatches(b.subs[i].pattern, b.delivered[k].kind) ==>
      b.delivered[k].eventId in b.subs[i].seen
  }

  /** All of it, while event number `|delivered| - 1` still has subscriptions `from`, ... to visit. */
  ghost predicate Inv<W, H, P>(b: Bus<W, H, P>, from: nat) {
    && Conserved(b)
    && (forall i, id :: 0 <= i < |b.subs| ==> SettledOnce(b, i, id))
    && (forall i, id :: i >= |b.subs| ==> CountRuns(b.runs, i, id) == 0 && CountSettled(b.runs, i, id) == 0)
    && DeadLettersRecorded(b)
    && (forall i :: 0 <= i < |b.subs| ==> b.subs[i].since <= |b.delivered|)
    && (forall i, k | 0 <= i < |b.subs| && 0 <= k < |b.delivered| && (i < from || k < |b.delivered| - 1) ::
          HandledBy(b, i, k))
  }

  /** The invariant between deliveries. */
  ghost predicate BusInv<W, H, P>(b: Bus<W, H, P>) { Inv(b, |b.subs|) }

  lemma {:induction false} DeliverConserves<W, H, P>(
    handle: Handling<W, H, P>, b: Bus<W, H, P>, i: nat, e: Envelope<P>, attempt: nat)
    requires i < |b.subs| && attempt < MaxRuns(b.maxRetries) && Conserved(b)
    ensures Conserved(Deliver(handle, b, i, e, attempt))
    decreases MaxRuns(b.maxRetries) - attempt
  {
    var r := handle(b.world, b.subs[i].handler, e);
    assert b.delivered + (b.queue + r.published) == b.delivered + b.queue + r.published;
    if r.error.Some? && attempt + 1 <= b.maxRetries {
      DeliverConserves(handle, AfterRun(b, r, Run(i, e.eventId, Retried)), i, e, attempt + 1);
    }
  }

  /** What one delivery adds to the history: between 1 and the allowed number of runs, and one settlement. */
  ghost predicate Settles<W, H, P>(b: Bus<W, H, P>, r: Bus<W, H, P>, i: nat, e: Envelope<P>, ran: nat, parked: bool)
    requires i < |b.subs|
  {
    && (forall j, id ::
          CountRuns(r.runs, j, id) == CountRuns(b.runs, j, id) + if j == i && id == e.eventId then ran else 0)
    && (forall j, id ::
          CountSettled(r.runs, j, id) == CountSettled(b.runs, j, id) + if j == i && id == e.eventId then 1 else 0)
    && (if parked then
          && ParkedRuns(r.runs) == ParkedRuns(b.runs) + [Run(i, e.eventId, Parked)]
          && exists error ::
               r.deadLetters == b.deadLetters + [DeadLetter(b.subs[i].name, e, error, MaxRuns(b.maxRetries))]
        else ParkedRuns(r.runs) == ParkedRuns(b.runs) && r.deadLetters == b.deadLetters)
  }

  lemma {:induction false} DeliverSettles<W, H, P>(
    handle: Handling<W, H, P>, b: Bus<W, H, P>, i: nat, e: Envelope<P>, attempt: nat) returns (ran: nat, parked: bool)
    requires i < |b.subs| && attempt < MaxRuns(b.maxRetries)
    ensures 1 <= ran && attempt + ran <= MaxRuns(b.maxRetries)
    ensures parked ==> attempt + ran == MaxRuns(b.maxRetries)
    ensures Settles(b, Deliver(handle, b, i, e, attempt), i, e, ran, parked)
    decreases MaxRuns(b.maxRetries) - attempt
  {
    hide CountRuns, CountSettled, ParkedRuns;
    var r := handle(b.world, b.subs[i].handler, e);
    if r.error.None? {
      RunsSnoc(b.runs, Run(i, e.eventId, Succeeded));
      ran, parked := 1, false;
    } else if attempt + 1 > b.maxRetries {
      RunsSnoc(b.runs, Run(i, e.eventId, Parked));
      ran, parked := 1, true;
      assert Deliver(handle, b, i, e, attempt).deadLetters
          == b.deadLetters + [DeadLetter(b.subs[i].name, e, r.error.value, MaxRuns(b.maxRetries))];
    } else {
      RunsSnoc(b.runs, Run(i, e.eventId, Retried));
      ran, parked := DeliverSettles(handle, AfterRun(b, r, Run(i, e.eventId, Retried)), i, e, attempt + 1);
      ran := ran + 1;
    }
  }

  lemma DeadLettersKept<W, H, P>(b: Bus<W, H, P>, r: Bus<W, H, P>, i: nat, e: Envelope<P>, ran: nat, parked: bool)
    requires i < |b.subs| && DeadLettersRecorded(b) && Settles(b, r, i, e, ran, parked)
    requires SameSubs(b.subs, r.subs) && r.maxRetries == b.maxRetries
    requires e.eventId !in b.subs[i].seen && e.eventId in r.subs[i].seen
    requires CountRuns(b.runs, i, e.eventId) == 0 && (parked ==> ran == MaxRuns(b.maxRetries))
    ensures DeadLettersRecorded(r)
  {
    forall k | 0 <= k < |r.deadLetters| ensures Recorded(r, k) {
      if k < |b.deadLetters| {
        assert Recorded(b, k);
      }
    }
  }

  /** Visiting one subscription with the event just delivered. */
  lemma VisitInv<W, H, P>(handle: Handling<W, H, P>, b: Bus<W, H, P>, e: Envelope<P>, i: nat)
    requires Inv(b, i) && i < |b.subs| && b.delivered != [] && b.delivered[|b.delivered| - 1] == e
    ensures var r := if Wants(b, i, e) then Deliver(handle, b, i, e, 0) else b;
      Inv(r, i + 1) && |r.subs| == |b.subs| && r.delivered == b.delivered
  {
    hide Deliver;
    if Wants(b, i, e) {
      var r := Deliver(handle, b, i, e, 0);
      DeliverKeepsSubs(handle, b, i, e, 0);
      DeliverConserves(handle, b, i, e, 0);
      assert SettledOnce(b, i, e.eventId);
      var ran, parked := DeliverSettles(handle, b, i, e, 0);
      DeadLettersKept(b, r, i, e, ran, parked);
      SettledKept(b, r, i, e, ran, parked);
      HandledKept(b, r, i, e);
    } else {
      assert HandledBy(b, i, |b.delivered| - 1);
    }
  }

  lemma SettledKept<W, H, P>(b: Bus<W, H, P>, r: Bus<W, H, P>, i: nat, e: Envelope<P>, ran: nat, parked: bool)
    requires i < |b.subs| && SameSubs(b.subs, r.subs) && r.maxRetries == b.maxRetries
    requires forall j :: 0 <= j < |b.subs| && j != i ==> r.subs[j] == b.subs[j]
    requires r.subs[i].seen == b.subs[i].seen + {e.eventId} && e.eventId !in b.subs[i].seen
    requires forall j, id :: 0 <= j < |b.subs| ==> SettledOnce(b, j, id)
    requires Settles(b, r, i, e, ran, parked) && ran <= MaxRuns(b.maxRetries)
    ensures forall j, id :: 0 <= j < |r.subs| ==> SettledOnce(r, j, id)
  {
    forall j, id | 0 <= j < |r.subs| ensures SettledOnce(r, j, id) {
      assert SettledOnce(b, j, id);
    }
  }

  lemma HandledKept<W, H, P>(b: Bus<W, H, P>, r: Bus<W, H, P>, i: nat, e: Envelope<P>)
    requires i < |b.subs| && SameSubs(b.subs, r.subs) && r.delivered == b.delivered
    requires b.delivered != [] && b.delivered[|b.delivered| - 1] == e && e.eventId in r.subs[i].seen
    requires forall j, k | 0 <= j < |b.subs| && 0 <= k < |b.delivered| && (j < i || k < |b.delivered| - 1) ::
               HandledBy(b, j, k)
    ensures forall j, k | 0 <= j < |r.subs| && 0 <= k < |r.delivered| && (j < i + 1 || k < |r.delivered| - 1) ::
              HandledBy(r, j, k)
  {
    forall j, k | 0 <= j < |r.subs| && 0 <= k < |r.delivered| && (j < i + 1 || k < |r.delivered| - 1)
      ensures HandledBy(r, j, k)
    {
      if j < i || k < |b.delivered| - 1 {
        assert HandledBy(b, j, k);
      }
    }
  }

  lemma {:induction false} DeliverFromInv<W, H, P>(handle: Handling<W, H, P>, b: Bus<W, H, P>, e: Envelope<P>, i: nat)
    requires i <= |b.subs| && Inv(b, i) && b.delivered != [] && b.delivered[|b.delivered| - 1] == e
    ensures BusInv(DeliverFrom(handle, b, e, i))
    decreases |b.subs| - i
  {
    hide Inv, Deliver;
    if i < |b.subs| {
      VisitInv(handle, b, e, i);
      DeliverFromInv(handle, if Wants(b, i, e) then Deliver(handle, b, i, e, 0) else b, e, i + 1);
    }
  }

  lemma DeliverNextInv<W, H, P>(handle: Handling<W, H, P>, b: Bus<W, H, P>)
    requires BusInv(b) && b.queue != []
    ensures BusInv(DeliverNext(handle, b))
  {
    hide DeliverFrom;
    var e := b.queue[0];
    var c := b.(queue := b.queue[1..], delivered := b.delivered + [e]);
    assert Conserved(c) by {
      assert b.queue == [e] + b.queue[1..];
    }
    forall i, id | 0 <= i < |c.subs| ensures SettledOnce(c, i, id) { assert SettledOnce(b, i, id); }
    forall k | 0 <= k < |c.deadLetters| ensures Recorded(c, k) { assert Recorded(b, k); }
    forall i, k | 0 <= i < |c.subs| && 0 <= k < |c.delivered| - 1 ensures HandledBy(c, i, k) {
      assert HandledBy(b, i, k);
    }
    DeliverFromInv(handle, c, e, 0);
  }

  lemma PublishInv<W, H, P>(b: Bus<W, H, P>, e: Envelope<P>)
    requires BusInv(b)
    ensures BusInv(Publish(b, e))
  {
    var c := Publish(b, e);
    assert b.delivered + (b.queue + [e]) == b.delivered + b.queue + [e];
    forall i, id | 0 <= i < |c.subs| ensures SettledOnce(c, i, id) { assert SettledOnce(b, i, id); }
    forall k | 0 <= k < |c.deadLetters| ensures Recorded(c, k) { assert Recorded(b, k); }
    forall i, k | 0 <= i < |c.subs| && 0 <= k < |c.delivered| ensures HandledBy(c, i, k) { assert HandledBy(b, i, k); }
  }

  lemma SubscribeInv<W, H, P>(b: Bus<W, H, P>, name: string, pattern: string, handler: H)
    requires BusInv(b)
    ensures BusInv(Subscribe(b, name, pattern, handler))
  {
    var c := Subscribe(b, name, pattern, handler);
    forall i, id | 0 <= i < |c.subs| ensures SettledOnce(c, i, id) {
      if i < |b.subs| { assert SettledOnce(b, i, id); }
    }
    forall k | 0 <= k < |c.deadLetters| ensures Recorded(c, k) { assert Recorded(b, k); }
    forall i, k | 0 <= i < |c.subs| && 0 <= k < |c.delivered| ensures HandledBy(c, i, k) {
      if i < |b.subs| { assert HandledBy(b, i, k); }
    }
  }

  // ---- What one delivery does ----

  /** The world after `n` runs of a handler for an event. */
  function Tries<W, H, P>(handle: Handling<W, H, P>, w: W, h: H, e: Envelope<P>, n: nat): W {
    if n == 0 then w else handle(Tries(handle, w, h, e, n - 1), h, e).world
  }

  /** The run after the first `n`. */
  function TryAt<W, H, P>(handle: Handling<W, H, P>, w: W, h: H, e: Envelope<P>, n: nat): Attempt<W, P> {
    handle(Tries(handle, w, h, e, n), h, e)
  }

  /** What `n` runs publish, in order. */
  function PublishedBy<W, H, P>(handle: Handling<W, H, P>, w: W, h: H, e: Envelope<P>, n: nat): seq<Envelope<P>> {
    if n == 0 then []
    else PublishedBy(handle, w, h, e, n - 1) + TryAt(handle, w, h, e, n - 1).published
  }

  lemma {:induction false} TriesShift<W, H, P>(handle: Handling<W, H, P>, w: W, h: H, e: Envelope<P>, n: nat)
    ensures Tries(handle, w, h, e, n + 1) == Tries(handle, handle(w, h, e).world, h, e, n)
    ensures PublishedBy(handle, w, h, e, n + 1)
         == handle(w, h, e).published + PublishedBy(handle, handle(w, h, e).world, h, e, n)
  {
    if n > 0 { TriesShift(handle, w, h, e, n - 1); }
  }

  /** After `n` failures comes a success, or the last run there is. */
  ghost predicate EndsAt<W, H, P>(
    handle: Handling<W, H, P>, b: Bus<W, H, P>, r: Bus<W, H, P>, i: nat, e: Envelope<P>, n: nat, attempt: nat)
    requires i < |b.subs|
  {
    var h := b.subs[i].handler;
    var last := TryAt(handle, b.world, h, e, n);
    && (forall k: nat :: k < n ==> TryAt(handle, b.world, h, e, k).error.Some?)
    && (last.error.None? || attempt + n == if b.maxRetries > 0 then b.maxRetries else 0)
    && attempt + n <= (if b.maxRetries > 0 then b.maxRetries else 0)
    && r.world == Tries(handle, b.world, h, e, n + 1)
    && r.queue == b.queue + PublishedBy(handle, b.world, h, e, n + 1)
    && r.deadLetters == b.deadLetters
         + if last.error.None? then [] else [DeadLetter(b.subs[i].name, e, last.error.value, attempt + n + 1)]
  }

  /**
    A delivery runs the handler until its first success, or one run more than `maxRetries` (one run at least),
    each on the world the run before left; it queues what all the runs published; and only if the last run
    failed too it records a dead letter, with that run's error and the number of runs.
   */
  lemma {:induction false} DeliveryEnds<W, H, P>(
    handle: Handling<W, H, P>, b: Bus<W, H, P>, i: nat, e: Envelope<P>, attempt: nat) returns (n: nat)
    requires i < |b.subs| && attempt < MaxRuns(b.maxRetries)
    ensures EndsAt(handle, b, Deliver(handle, b, i, e, attempt), i, e, n, attempt)
    decreases MaxRuns(b.maxRetries) - attempt
  {
    var r := handle(b.world, b.subs[i].handler, e);
    TriesShift(handle, b.world, b.subs[i].handler, e, 0);
    if r.error.None? || attempt + 1 > b.maxRetries {
      n := 0;
    } else {
      var c := AfterRun(b, r, Run(i, e.eventId, Retried));
      n := DeliveryEnds(handle, c, i, e, attempt + 1);
      EndsOneLater(handle, b, c, Deliver(handle, c, i, e, attempt + 1), i, e, n, attempt);
      n := n + 1;
    }
  }

  lemma EndsOneLater<W, H, P>(
    handle: Handling<W, H, P>, b: Bus<W, H, P>, c: Bus<W, H, P>, r: Bus<W, H, P>, i: nat, e: Envelope<P>, n: nat,
    attempt: nat)
    requires i < |b.subs| && handle(b.world, b.subs[i].handler, e).error.Some?
    requires c == AfterRun(b, handle(b.world, b.subs[i].handler, e), Run(i, e.eventId, Retried))
    requires EndsAt(handle, c, r, i, e, n, attempt + 1)
    ensures EndsAt(handle, b, r, i, e, n + 1, attempt)
  {
    var h := b.subs[i].handler;
    TriesShift(handle, b.world, h, e, n);
    TriesShift(handle, b.world, h, e, n + 1);
    forall k: nat | k < n + 1 ensures TryAt(handle, b.world, h, e, k).error.Some? {
      if k > 0 {
        TriesShift(handle, b.world, h, e, k - 1);
        assert TryAt(handle, c.world, h, e, k - 1).error.Some?;
      }
    }
  }

  lemma {:induction false} DeliverRunsOne<W, H, P>(
    handle: Handling<W, H, P>, b: Bus<W, H, P>, i: nat, e: Envelope<P>, attempt: nat) returns (added: seq<Run>)
    requires i < |b.subs| && attempt < MaxRuns(b.maxRetries)
    ensures Deliver(handle, b, i, e, attempt).runs == b.runs + added
    ensures forall k :: 0 <= k < |added| ==> added[k].sub == i && added[k].id == e.eventId
    decreases MaxRuns(b.maxRetries) - attempt
  {
    var r := handle(b.world, b.subs[i].handler, e);
    if r.error.None? {
      added := [Run(i, e.eventId, Succeeded)];
    } else if attempt + 1 > b.maxRetries {
      added := [Run(i, e.eventId, Parked)];
    } else {
      var later := DeliverRunsOne(handle, AfterRun(b, r, Run(i, e.eventId, Retried)), i, e, attempt + 1);
      added := [Run(i, e.eventId, Retried)] + later;
    }
  }

  /** One event goes to the subscriptions in the order they were made. */
  lemma {:induction false} VisitsInOrder<W, H, P>(handle: Handling<W, H, P>, b: Bus<W, H, P>, e: Envelope<P>, i: nat)
    returns (added: seq<Run>)
    requires i <= |b.subs|
    ensures DeliverFrom(handle, b, e, i).runs == b.runs + added
    ensures forall k :: 0 <= k < |added| ==> added[k].sub >= i && added[k].id == e.eventId
    ensures forall k, l :: 0 <= k < l < |added| ==> added[k].sub <= added[l].sub
    decreases |b.subs| - i
  {
    hide Deliver;
    if i == |b.subs| {
      added := [];
    } else {
      DeliverKeepsSubs(handle, b, i, e, 0);
      var mine: seq<Run> := [];
      var c := b;
      if Wants(b, i, e) {
        mine := DeliverRunsOne(handle, b, i, e, 0);
        c := Deliver(handle, b, i, e, 0);
      }
      var later := VisitsInOrder(handle, c, e, i + 1);
      added := mine + later;
      assert b.runs + mine + later == b.runs + added;
    }
  }

  // ---- Every run ----

  datatype Step<H, P> =
    | PublishStep(event: Envelope<P>)
    | SubscribeStep(name: string, pattern: string, handler: H)
    | DeliverStep

  function Next<W, H, P>(handle: Handling<W, H, P>, b: Bus<W, H, P>, step: Step<H, P>): Bus<W, H, P> {
    match step
    case PublishStep(e) => Publish(b, e)
    case SubscribeStep(name, pattern, handler) => Subscribe(b, name, pattern, handler)
    case DeliverStep => if b.queue == [] then b else DeliverNext(handle, b)
  }

  function RunSteps<W, H, P>(handle: Handling<W, H, P>, b: Bus<W, H, P>, steps: seq<Step<H, P>>): Bus<W, H, P>
    decreases steps
  {
    if steps == [] then b else RunSteps(handle, Next(handle, b, steps[0]), steps[1..])
  }

  function NewBus<W, H, P>(maxRetries: int, world: W): Bus<W, H, P> {
    Bus(maxRetries, [], [], [], [], world, [], [])
  }

  /** Conservation, settlement and dead-letter records hold in every reachable state between deliveries. */
  lemma {:induction false} EveryRunKeepsInv<W, H, P>(handle: Handling<W, H, P>, b: Bus<W, H, P>, steps: seq<Step<H, P>>)
    requires BusInv(b)
    ensures BusInv(RunSteps(handle, b, steps))
    decreases steps
  {
    hide BusInv, DeliverNext;
    if steps != [] {
      match steps[0] {
        case PublishStep(e) => PublishInv(b, e);
        case SubscribeStep(name, pattern, handler) => SubscribeInv(b, name, pattern, handler);
        case DeliverStep => if b.queue != [] { DeliverNextInv(handle, b); }
      }
      EveryRunKeepsInv(handle, Next(handle, b, steps[0]), steps[1..]);
    }
  }

  lemma {:induction false} TurnsKeepInv<W, H, P>(handle: Handling<W, H, P>, b: Bus<W, H, P>, n: nat)
    requires BusInv(b)
    ensures BusInv(Turns(handle, b, n))
    decreases n
  {
    hide BusInv, DeliverNext;
    if n > 0 && b.queue != [] {
      DeliverNextInv(handle, b);
      TurnsKeepInv(handle, DeliverNext(handle, b), n - 1);
    }
  }

  /**
    When `drain` returns, from any reachable state: everything published has been delivered, in publish
    order, and every subscription has settled every matching event delivered since it was made, exactly once.
   */
  lemma DrainSettlesEverything<W, H, P>(handle: Handling<W, H, P>, b: Bus<W, H, P>)
    requires BusInv(b) && Drains(handle, b)
    ensures var r := Drain(handle, b);
      && BusInv(r) && r.queue == [] && r.delivered == r.published
      && forall i, k | 0 <= i < |r.subs| && r.subs[i].since <= k < |r.delivered|
                       && TypeMatches(r.subs[i].pattern, r.delivered[k].kind) ::
           CountSettled(r.runs, i, r.delivered[k].eventId) == 1
           && CountRuns(r.runs, i, r.delivered[k].eventId) <= MaxRuns(r.maxRetries)
  {
    var r := Drain(handle, b);
    var n: nat :| DrainsIn(handle, b, n) && r == Turns(handle, b, n);
    TurnsKeepInv(handle, b, n);
    forall i, k | 0 <= i < |r.subs| && r.subs[i].since <= k < |r.delivered|
                  && TypeMatches(r.subs[i].pattern, r.delivered[k].kind)
      ensures CountSettled(r.runs, i, r.delivered[k].eventId) == 1
              && CountRuns(r.runs, i, r.delivered[k].eventId) <= MaxRuns(r.maxRetries)
    {
      assert HandledBy(r, i, k);
      assert SettledOnce(r, i, r.delivered[k].eventId);
    }
  }

  // ---- Termination of drain ----

  /** Every run of a handler publishes only events of a stage below the event it handles. */
  ghost predicate Staged<W(!new), H, P(!new)>(handle: Handling<W, H, P>, subs: seq<Sub<H>>, stage: Envelope<P> -> nat) {
    forall i, w, e: Envelope<P>, k | 0 <= i < |subs| && TypeMatches(subs[i].pattern, e.kind)
                        && 0 <= k < |handle(w, subs[i].handler, e).published| ::
      stage(handle(w, subs[i].handler, e).published[k]) < stage(e)
  }

  ghost predicate Below<P>(events: seq<Envelope<P>>, stage: Envelope<P> -> nat, bound: int) {
    forall k :: 0 <= k < |events| ==> stage(events[k]) < bound
  }

  /** `r` has the queue of `b` with events below `bound` behind it, and the same subscriptions. */
  ghost predicate Grew<W, H, P>(b: Bus<W, H, P>, r: Bus<W, H, P>, stage: Envelope<P> -> nat, bound: int) {
    && |b.queue| <= |r.queue| && r.queue[..|b.queue|] == b.queue && Below(r.queue[|b.queue|..], stage, bound)
    && SameSubs(b.subs, r.subs)
  }

  lemma GrewTransitive<W, H, P>(
    b: Bus<W, H, P>, c: Bus<W, H, P>, d: Bus<W, H, P>, stage: Envelope<P> -> nat, bound: int)
    requires Grew(b, c, stage, bound) && Grew(c, d, stage, bound)
    ensures Grew(b, d, stage, bound)
  {
    assert d.queue[..|b.queue|] == d.queue[..|c.queue|][..|b.queue|];
    forall k | 0 <= k < |d.queue[|b.queue|..]| ensures stage(d.queue[|b.queue|..][k]) < bound {
      var at := |b.queue| + k;
      if at < |c.queue| {
        assert d.queue[..|c.queue|][at] == c.queue[at] == c.queue[|b.queue|..][k];
      } else {
        assert d.queue[at] == d.queue[|c.queue|..][at - |c.queue|];
      }
    }
  }

  lemma StagedKept<W(!new), H, P(!new)>(
    handle: Handling<W, H, P>, subs: seq<Sub<H>>, subs': seq<Sub<H>>, stage: Envelope<P> -> nat)
    requires Staged(handle, subs, stage) && SameSubs(subs, subs')
    ensures Staged(handle, subs', stage)
  {
    forall i, w, e: Envelope<P>, k | 0 <= i < |subs'| && TypeMatches(subs'[i].pattern, e.kind)
                        && 0 <= k < |handle(w, subs'[i].handler, e).published|
      ensures stage(handle(w, subs'[i].handler, e).published[k]) < stage(e)
    {
      assert subs'[i] == subs[i].(seen := subs'[i].seen);
    }
  }

  lemma {:induction false} DeliverGrows<W(!new), H, P(!new)>(
    handle: Handling<W, H, P>, b: Bus<W, H, P>, i: nat, e: Envelope<P>, attempt: nat, stage: Envelope<P> -> nat)
    requires i < |b.subs| && attempt < MaxRuns(b.maxRetries)
    requires Staged(handle, b.subs, stage) && TypeMatches(b.subs[i].pattern, e.kind)
    ensures Grew(b, Deliver(handle, b, i, e, attempt), stage, stage(e))
    decreases MaxRuns(b.maxRetries) - attempt
  {
    var r := handle(b.world, b.subs[i].handler, e);
    assert Below(r.published, stage, stage(e));
    assert (b.queue + r.published)[|b.queue|..] == r.published;
    if r.error.Some? && attempt + 1 <= b.maxRetries {
      var c := AfterRun(b, r, Run(i, e.eventId, Retried));
      DeliverGrows(handle, c, i, e, attempt + 1, stage);
      GrewTransitive(b, c, Deliver(handle, c, i, e, attempt + 1), stage, stage(e));
    }
  }

  lemma {:induction false} DeliverFromGrows<W(!new), H, P(!new)>(
    handle: Handling<W, H, P>, b: Bus<W, H, P>, e: Envelope<P>, i: nat, stage: Envelope<P> -> nat)
    requires i <= |b.subs| && Staged(handle, b.subs, stage)
    ensures Grew(b, DeliverFrom(handle, b, e, i), stage, stage(e))
    decreases |b.subs| - i
  {
    hide Deliver, Staged;
    if i < |b.subs| {
      if Wants(b, i, e) {
        DeliverGrows(handle, b, i, e, 0, stage);
        var c := Deliver(handle, b, i, e, 0);
        StagedKept(handle, b.subs, c.subs, stage);
        DeliverFromGrows(handle, c, e, i + 1, stage);
        GrewTransitive(b, c, DeliverFrom(handle, c, e, i + 1), stage, stage(e));
      } else {
        DeliverFromGrows(handle, b, e, i + 1, stage);
      }
    }
  }

  /** A turn takes the oldest event away and adds only events of lower stages. */
  lemma TurnGrows<W(!new), H, P(!new)>(handle: Handling<W, H, P>, b: Bus<W, H, P>, stage: Envelope<P> -> nat)
    requires b.queue != [] && Staged(handle, b.subs, stage)
    ensures var r := DeliverNext(handle, b);
      Grew(b.(queue := b.queue[1..]), r, stage, stage(b.queue[0])) && Staged(handle, r.subs, stage)
  {
    hide Staged;
    var c := b.(queue := b.queue[1..], delivered := b.delivered + [b.queue[0]]);
    DeliverFromGrows(handle, c, b.queue[0], 0, stage);
    StagedKept(handle, b.subs, DeliverNext(handle, b).subs, stage);
  }

  /** After as many turns as `head` is long, `head` is gone and what is left was below `bound` or came later. */
  lemma {:induction false} TurnsThroughHead<W(!new), H, P(!new)>(
    handle: Handling<W, H, P>, b: Bus<W, H, P>, head: nat, stage: Envelope<P> -> nat, bound: nat)
    requires head <= |b.queue| && Staged(handle, b.subs, stage)
    requires Below(b.queue[..head], stage, bound + 1) && Below(b.queue[head..], stage, bound)
    ensures var r := Turns(handle, b, head);
      Below(r.queue, stage, bound) && Staged(handle, r.subs, stage)
    decreases head
  {
    hide DeliverNext, Staged;
    if head == 0 {
      assert b.queue[0..] == b.queue;
    } else {
      var c := DeliverNext(handle, b);
      TurnGrows(handle, b, stage);
      var rest := b.queue[1..];
      assert stage(b.queue[..head][0]) < bound + 1;
      HeadShrinks(rest, c.queue, b.queue, head, stage, bound);
      TurnsThroughHead(handle, c, head - 1, stage, bound);
    }
  }

  lemma HeadShrinks<P>(
    rest: seq<Envelope<P>>, after: seq<Envelope<P>>, before: seq<Envelope<P>>, head: nat,
    stage: Envelope<P> -> nat, bound: nat)
    requires 0 < head <= |before| && rest == before[1..]
    requires |rest| <= |after| && after[..|rest|] == rest && Below(after[|rest|..], stage, bound)
    requires Below(before[..head], stage, bound + 1) && Below(before[head..], stage, bound)
    ensures head - 1 <= |after|
    ensures Below(after[..head - 1], stage, bound + 1) && Below(after[head - 1..], stage, bound)
  {
    var front, back := after[..head - 1], after[head - 1..];
    forall k | 0 <= k < |front| ensures stage(front[k]) < bound + 1 {
      assert front[k] == after[k] == after[..|rest|][k] == rest[k] == before[..head][k + 1];
    }
    forall k | 0 <= k < |back| ensures stage(back[k]) < bound {
      var at := head - 1 + k;
      assert back[k] == after[at];
      if at < |rest| {
        assert after[at] == after[..|rest|][at] == rest[at] == before[head..][at + 1 - head];
      } else {
        assert after[at] == after[|rest|..][at - |rest|];
      }
    }
  }

  lemma {:induction false} TurnsSum<W, H, P>(handle: Handling<W, H, P>, b: Bus<W, H, P>, m: nat, n: nat)
    ensures Turns(handle, Turns(handle, b, m), n) == Turns(handle, b, m + n)
    decreases m
  {
    hide DeliverNext;
    if m > 0 && b.queue != [] {
      TurnsSum(handle, DeliverNext(handle, b), m - 1, n);
    }
  }

  /** If every handler publishes only later-stage events, `drain` returns from every state. */
  lemma {:induction false} StagedDrainReturns<W(!new), H, P(!new)>(
    handle: Handling<W, H, P>, b: Bus<W, H, P>, stage: Envelope<P> -> nat, bound: nat) returns (n: nat)
    requires Staged(handle, b.subs, stage) && Below(b.queue, stage, bound)
    ensures DrainsIn(handle, b, n)
    decreases bound
  {
    hide DeliverNext, Staged;
    n := 0;
    if b.queue != [] {
      assert stage(b.queue[0]) < bound;
      var head := |b.queue|;
      assert b.queue[..head] == b.queue && b.queue[head..] == [];
      TurnsThroughHead(handle, b, head, stage, bound - 1);
      var m := StagedDrainReturns(handle, Turns(handle, b, head), stage, bound - 1);
      TurnsSum(handle, b, head, m);
      n := head + m;
    }
  }

  lemma DrainIs<W, H, P>(handle: Handling<W, H, P>, b: Bus<W, H, P>, n: nat)
    requires DrainsIn(handle, b, n)
    ensures Drains(handle, b) && Drain(handle, b) == Turns(handle, b, n)
  {
    var m: nat :| DrainsIn(handle, b, m) && Drain(handle, b) == Turns(handle, b, m);
    if m <= n { TurnsSum(handle, b, m, n - m); } else { TurnsSum(handle, b, n, m - n); }
  }

  // ---- The bus itself ----

  class InMemoryEventBus<W(==), H(==), P(==)> {
    const handle: Handling<W, H, P>
    const maxRetries: int
    var subs: seq<Sub<H>>
    var queue: seq<Envelope<P>>
    var draining: bool
    var deadLetters: seq<DeadLetter<P>>
    var delivered: seq<Envelope<P>>
    var world: W
    ghost var published: seq<Envelope<P>>
    ghost var runs: seq<Run>

    ghost function Snapshot(): Bus<W, H, P>
      reads this
    {
      Bus(maxRetries, subs, queue, delivered, deadLetters, world, published, runs)
    }

    constructor (handle: Handling<W, H, P>, maxRetries: int, world: W)
      ensures Snapshot() == NewBus(maxRetries, world) && this.handle == handle && !draining
      ensures BusInv(Snapshot())
    {
      this.handle, this.maxRetries, this.world := handle, maxRetries, world;
      subs, queue, deadLetters, delivered, published, runs := [], [], [], [], [], [];
      draining := false;
    }

    method AddSubscription(pattern: string, handler: H, name: string)
      modifies this
      ensures Snapshot() == Subscribe(old(Snapshot()), name, pattern, handler) && draining == old(draining)
    {
      subs := subs + [Sub(name, pattern, handler, {}, |delivered|)];
    }

    method PublishEvent(e: Envelope<P>)
      modifies this
      ensures Snapshot() == Publish(old(Snapshot()), e) && draining == old(draining)
    {
      queue := queue + [e];
      published := published + [e];
    }

    /** Works the queue off; a call while a drain is under way does nothing. */
    method DrainQueue()
      requires BusInv(Snapshot()) && (!draining ==> Drains(handle, Snapshot()))
      modifies this
      ensures draining == old(draining)
      ensures Snapshot() == if old(draining) then old(Snapshot()) else Drain(handle, old(Snapshot()))
      ensures BusInv(Snapshot())
    {
      hide BusInv;
      if draining { return; }
      draining := true;
      ghost var b0 := Snapshot();
      ghost var n: nat :| DrainsIn(handle, b0, n);
      ghost var k: nat := 0;
      while |queue| > 0
        invariant k <= n && draining && BusInv(Snapshot())
        invariant Turns(handle, Snapshot(), n - k) == Turns(handle, b0, n)
        decreases n - k
      {
        DeliverNextInv(handle, Snapshot());
        DeliverOldest();
        k := k + 1;
      }
      DrainIs(handle, b0, n);
      draining := false;
    }

    /** One turn of the loop of `drain`. */
    method DeliverOldest()
      requires |queue| > 0
      modifies this
      ensures Snapshot() == DeliverNext(handle, old(Snapshot())) && draining == old(draining)
    {
      hide Deliver;
      var event := queue[0];
      queue := queue[1..];
      delivered := delivered + [event];
      ghost var b0 := Snapshot();
      var i := 0;
      while i < |subs|
        invariant i <= |subs| && draining == old(draining)
        invariant DeliverFrom(handle, Snapshot(), event, i) == DeliverFrom(handle, b0, event, 0)
      {
        DeliverKeepsSubs(handle, Snapshot(), i, event, 0);
        if TypeMatches(subs[i].pattern, event.kind) && event.eventId !in subs[i].seen {
          DeliverTo(i, event);
        }
        i := i + 1;
      }
    }

    /** Runs one handler until it succeeds or its event is parked. */
    method DeliverTo(i: nat, event: Envelope<P>)
      requires i < |subs|
      modifies this
      ensures Snapshot() == Deliver(handle, old(Snapshot()), i, event, 0) && draining == old(draining)
    {
      var attempt: nat := 0;
      while true
        invariant i < |subs| && attempt < MaxRuns(maxRetries) && draining == old(draining)
        invariant Deliver(handle, Snapshot(), i, event, attempt) == Deliver(handle, old(Snapshot()), i, event, 0)
        decreases MaxRuns(maxRetries) - attempt
      {
        attempt := attempt + 1;
        var r := handle(world, subs[i].handler, event);
        world, queue := r.world, queue + r.published;
        published := published + r.published;
        if r.error.None? {
          runs := runs + [Run(i, event.eventId, Succeeded)];
          subs := MarkSeen(subs, i, event.eventId);
          return;
        }
        if attempt > maxRetries {
          runs := runs + [Run(i, event.eventId, Parked)];
          subs := MarkSeen(subs, i, event.eventId);
          deadLetters := deadLetters + [DeadLetter(subs[i].name, event, r.error.value, attempt)];
          return;
        }
        runs := runs + [Run(i, event.eventId, Retried)];
      }
    }
  }
}
