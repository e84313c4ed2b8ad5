/**
  Strategy Memory's suggestion store (services/knowledge-service/src/memory.ts): at most one pending
  suggestion a client, always the newest, and decisions are final.
 */
module LearningStore {
  import opened Wrappers
  import opened Sorting

  type Id = nat

  datatype Status = Pending | Accepted | Rejected | Superseded

  datatype Suggestion<S> = Suggestion(
    id: Id, clientId: Id, createdAt: int, status: Status, kind: string, snapshot: S,
    sourceEventId: Option<Id>, note: Option<string>, decidedBy: Option<string>, decidedAt: Option<int>)

  datatype Decision = Accept | Reject

  datatype Upsert<S> = Upsert(clientId: Id, snapshot: S, sourceEventId: Option<Id>, kind: string)

  // ---- Specification on the list of rows ----

  predicate RecordedSource<S>(rows: seq<Suggestion<S>>, clientId: Id, source: Option<Id>) {
    source.Some? && exists i :: 0 <= i < |rows| && rows[i].clientId == clientId && rows[i].sourceEventId == source
  }

  function SupersededRow<S>(r: Suggestion<S>, clientId: Id): Suggestion<S> {
    if r.clientId == clientId && r.status.Pending? then r.(status := Superseded) else r
  }

  function SupersedeAll<S>(rows: seq<Suggestion<S>>, clientId: Id): (r: seq<Suggestion<S>>)
    ensures |r| == |rows| && forall i :: 0 <= i < |rows| ==> r[i] == SupersededRow(rows[i], clientId)
  {
    if rows == [] then [] else [SupersededRow(rows[0], clientId)] + SupersedeAll(rows[1..], clientId)
  }

  function NewRow<S>(input: Upsert<S>, id: Id, now: int): Suggestion<S> {
    Suggestion(id, input.clientId, now, Pending, input.kind, input.snapshot, input.sourceEventId, None, None, None)
  }

  function UpsertPending<S>(rows: seq<Suggestion<S>>, input: Upsert<S>, id: Id, now: int): seq<Suggestion<S>> {
    if RecordedSource(rows, input.clientId, input.sourceEventId) then rows
    else SupersedeAll(rows, input.clientId) + [NewRow(input, id, now)]
  }

  /** The position of the first row of the client with that id, or the length. */
  function Find<S>(rows: seq<Suggestion<S>>, clientId: Id, id: Id): (i: nat)
    ensures i <= |rows|
    ensures i < |rows| ==> rows[i].clientId == clientId && rows[i].id == id
    ensures forall k :: 0 <= k < i ==> !(rows[k].clientId == clientId && rows[k].id == id)
  {
    if rows == [] then 0
    else if rows[0].clientId == clientId && rows[0].id == id then 0
    else Find(rows[1..], clientId, id) + 1
  }

  function DecidedRow<S>(r: Suggestion<S>, decision: Decision, decider: string, now: int, note: Option<string>)
    : Suggestion<S>
  {
    r.(status := if decision.Accept? then Accepted else Rejected, decidedBy := Some(decider), decidedAt := Some(now),
       note := if note.Some? then note else r.note)
  }

  function Decide<S>(
    rows: seq<Suggestion<S>>, clientId: Id, id: Id, decision: Decision, decider: string, now: int, note: Option<string>)
    : seq<Suggestion<S>>
  {
    var i := Find(rows, clientId, id);
    if i == |rows| || !rows[i].status.Pending? then rows
    else rows[i := DecidedRow(rows[i], decision, decider, now, note)]
  }

  // ---- The invariant ----

  /** A pending row is its client's newest; so a client has at most one. */
  ghost predicate PendingIsNewest<S>(rows: seq<Suggestion<S>>) {
    forall i, j :: 0 <= i < j < |rows| && rows[i].status.Pending? ==> rows[i].clientId != rows[j].clientId
  }

  ghost predicate SourcesUnique<S>(rows: seq<Suggestion<S>>) {
    forall i, j :: 0 <= i < j < |rows| && rows[i].sourceEventId.Some? && rows[i].clientId == rows[j].clientId ==>
      rows[i].sourceEventId != rows[j].sourceEventId
  }

  ghost predicate SameOrigin<S>(a: Suggestion<S>, b: Suggestion<S>) {
    b == a.(status := b.status, note := b.note, decidedBy := b.decidedBy, decidedAt := b.decidedAt)
  }

  /** What an operation for one client may do: settle that client's pending rows, and add rows of its own. */
  ghost predicate OnlyTouches<S>(before: seq<Suggestion<S>>, after: seq<Suggestion<S>>, clientId: Id) {
    && |before| <= |after|
    && (forall i | 0 <= i < |before| && (before[i].clientId != clientId || !before[i].status.Pending?) ::
          after[i] == before[i])
    && (forall i :: 0 <= i < |before| ==> SameOrigin(before[i], after[i]))
    && (forall i :: |before| <= i < |after| ==> after[i].clientId == clientId)
  }

  lemma UpsertKeeps<S>(rows: seq<Suggestion<S>>, input: Upsert<S>, id: Id, now: int)
    requires PendingIsNewest(rows) && SourcesUnique(rows)
    ensures var r := UpsertPending(rows, input, id, now);
      PendingIsNewest(r) && SourcesUnique(r) && OnlyTouches(rows, r, input.clientId)
  {
  }

  lemma DecideKeeps<S>(
    rows: seq<Suggestion<S>>, clientId: Id, id: Id, decision: Decision, decider: string, now: int, note: Option<string>)
    requires PendingIsNewest(rows) && SourcesUnique(rows)
    ensures var r := Decide(rows, clientId, id, decision, decider, now, note);
      PendingIsNewest(r) && SourcesUnique(r) && OnlyTouches(rows, r, clientId) && |r| == |rows|
  {
  }

  // ---- Every run ----

  datatype Step<S> =
    | UpsertStep(input: Upsert<S>, id: Id, now: int)
    | DecideStep(clientId: Id, id: Id, decision: Decision, decider: string, now: int, note: Option<string>)

  function ClientOf<S>(step: Step<S>): Id {
    match step
    case UpsertStep(input, _, _) => input.clientId
    case DecideStep(clientId, _, _, _, _, _) => clientId
  }

  function Next<S>(rows: seq<Suggestion<S>>, step: Step<S>): seq<Suggestion<S>> {
    match step
    case UpsertStep(input, id, now) => UpsertPending(rows, input, id, now)
    case DecideStep(clientId, id, decision, decider, now, note) =>
      Decide(rows, clientId, id, decision, decider, now, note)
  }

  function Run<S>(rows: seq<Suggestion<S>>, steps: seq<Step<S>>): seq<Suggestion<S>>
    decreases steps
  {
    if steps == [] then rows else Run(Next(rows, steps[0]), steps[1..])
  }

  lemma NextKeeps<S>(rows: seq<Suggestion<S>>, step: Step<S>)
    requires PendingIsNewest(rows) && SourcesUnique(rows)
    ensures var r := Next(rows, step);
      PendingIsNewest(r) && SourcesUnique(r) && OnlyTouches(rows, r, ClientOf(step))
  {
    match step
    case UpsertStep(input, id, now) => UpsertKeeps(rows, input, id, now);
    case DecideStep(clientId, id, decision, decider, now, note) =>
      DecideKeeps(rows, clientId, id, decision, decider, now, note);
  }

  /**
    After any sequence of upserts and decisions: pending rows are newest, sources are unique, rows never move,
    a row that was not pending is unchanged for ever, and so is every row of a client that took no part.
   */
  lemma {:induction false} EveryRunKeeps<S>(rows: seq<Suggestion<S>>, steps: seq<Step<S>>)
    requires PendingIsNewest(rows) && SourcesUnique(rows)
    ensures var r := Run(rows, steps);
      && PendingIsNewest(r) && SourcesUnique(r) && |rows| <= |r|
      && (forall i :: 0 <= i < |rows| ==> r[i].clientId == rows[i].clientId && r[i].id == rows[i].id)
      && (forall i :: 0 <= i < |rows| && !rows[i].status.Pending? ==> r[i] == rows[i])
      && (forall i | 0 <= i < |rows| && (forall k :: 0 <= k < |steps| ==> ClientOf(steps[k]) != rows[i].clientId) ::
            r[i] == rows[i])
    decreases steps
  {
    hide Next;
    if steps != [] {
      NextKeeps(rows, steps[0]);
      var next := Next(rows, steps[0]);
      EveryRunKeeps(next, steps[1..]);
      forall i | 0 <= i < |rows| && (forall k :: 0 <= k < |steps| ==> ClientOf(steps[k]) != rows[i].clientId)
        ensures Run(rows, steps)[i] == rows[i]
      {
        assert ClientOf(steps[0]) != rows[i].clientId;
        assert next[i] == rows[i];
        forall k | 0 <= k < |steps[1..]| ensures ClientOf(steps[1..][k]) != rows[i].clientId {
          assert steps[1..][k] == steps[k + 1];
        }
      }
    }
  }

  /** An accepted upsert leaves exactly one pending row for the client: the last row, with the given snapshot. */
  lemma UpsertLeavesNewest<S>(rows: seq<Suggestion<S>>, input: Upsert<S>, id: Id, now: int, i: nat)
    requires PendingIsNewest(rows) && !RecordedSource(rows, input.clientId, input.sourceEventId)
    ensures var r := UpsertPending(rows, input, id, now);
      i < |r| && r[i].clientId == input.clientId && r[i].status.Pending? <==> i == |r| - 1
    ensures var r := UpsertPending(rows, input, id, now);
      r[|r| - 1].snapshot == input.snapshot
  {
  }

  // ---- What an operation records ----

  /** Only this row differs between the two lists. */
  ghost predicate OnlyAt<S>(before: seq<Suggestion<S>>, after: seq<Suggestion<S>>, i: nat) {
    |after| == |before| && forall k :: 0 <= k < |before| && k != i ==> after[k] == before[k]
  }

  /**
    What deciding a pending row records: accepted after Accept and rejected after Reject, who decided and when, and
    the note if one is given; its origin and its snapshot, and all other rows, stay.
   */
  lemma DecisionRecords<S>(
    rows: seq<Suggestion<S>>, clientId: Id, id: Id, decision: Decision, decider: string, now: int, note: Option<string>,
    i: nat)
    requires i < |rows| && rows[i].clientId == clientId && rows[i].id == id && rows[i].status == Pending
    requires forall k :: 0 <= k < i ==> !(rows[k].clientId == clientId && rows[k].id == id)
    ensures var r := Decide(rows, clientId, id, decision, decider, now, note);
      && OnlyAt(rows, r, i)
      && (decision == Accept ==> r[i].status == Accepted) && (decision == Reject ==> r[i].status == Rejected)
      && r[i].decidedBy == Some(decider) && r[i].decidedAt == Some(now)
      && (note.Some? ==> r[i].note == note) && (note.None? ==> r[i].note == rows[i].note)
      && r[i].id == id && r[i].clientId == clientId && r[i].createdAt == rows[i].createdAt
      && r[i].kind == rows[i].kind && r[i].snapshot == rows[i].snapshot
      && r[i].sourceEventId == rows[i].sourceEventId
  {
    assert Find(rows, clientId, id) == i;
  }

  /** A decision about a missing or settled row changes nothing. */
  lemma IdleDecision<S>(
    rows: seq<Suggestion<S>>, clientId: Id, id: Id, decision: Decision, decider: string, now: int, note: Option<string>)
    requires forall k | 0 <= k < |rows| && rows[k].clientId == clientId && rows[k].id == id :: rows[k].status != Pending
    ensures Decide(rows, clientId, id, decision, decider, now, note) == rows
  {
  }

  /**
    What a new snapshot records: the client's pending rows become superseded and keep all else, every other row
    stays, and one pending row with the given content and no decision is added; a source that the client has
    recorded already changes nothing.
   */
  lemma UpsertRecords<S>(rows: seq<Suggestion<S>>, input: Upsert<S>, id: Id, now: int)
    ensures var r := UpsertPending(rows, input, id, now);
      if input.sourceEventId.Some?
         && exists k :: 0 <= k < |rows| && rows[k].clientId == input.clientId
                        && rows[k].sourceEventId == input.sourceEventId
      then r == rows
      else
        && |r| == |rows| + 1
        && (forall k :: 0 <= k < |rows| && rows[k].clientId == input.clientId && rows[k].status == Pending ==>
              r[k] == rows[k].(status := Superseded))
        && (forall k :: 0 <= k < |rows| && !(rows[k].clientId == input.clientId && rows[k].status == Pending) ==>
              r[k] == rows[k])
        && r[|rows|].id == id && r[|rows|].clientId == input.clientId && r[|rows|].createdAt == now
        && r[|rows|].status == Pending && r[|rows|].kind == input.kind && r[|rows|].snapshot == input.snapshot
        && r[|rows|].sourceEventId == input.sourceEventId
        && r[|rows|].note == None && r[|rows|].decidedBy == None && r[|rows|].decidedAt == None
  {
  }

  // ---- The store itself ----

  class InMemoryLearningStore<S> {
    var rows: seq<Suggestion<S>>

    ghost predicate Valid()
      reads this
    {
      PendingIsNewest(rows) && SourcesUnique(rows)
    }

    constructor ()
      ensures Valid() && rows == []
    {
      rows := [];
    }

    method UpsertRow(input: Upsert<S>, newId: Id, now: int) returns (row: Option<Suggestion<S>>)
      requires Valid()
      modifies this
      ensures Valid()
      ensures rows == UpsertPending(old(rows), input, newId, now)
      ensures row == if RecordedSource(old(rows), input.clientId, input.sourceEventId) then None
                     else Some(NewRow(input, newId, now))
    {
      UpsertKeeps(rows, input, newId, now);
      if input.sourceEventId.Some? {
        var i := 0;
        while i < |rows|
          invariant 0 <= i <= |rows|
          invariant forall k :: 0 <= k < i ==>
                      !(rows[k].clientId == input.clientId && rows[k].sourceEventId == input.sourceEventId)
        {
          if rows[i].clientId == input.clientId && rows[i].sourceEventId == input.sourceEventId { return None; }
          i := i + 1;
        }
      }
      var i := 0;
      while i < |rows|
        invariant 0 <= i <= |rows| == |old(rows)|
        invariant forall k :: 0 <= k < i ==> rows[k] == SupersededRow(old(rows)[k], input.clientId)
        invariant forall k :: i <= k < |rows| ==> rows[k] == old(rows)[k]
      {
        if rows[i].clientId == input.clientId && rows[i].status.Pending? {
          rows := rows[i := rows[i].(status := Superseded)];
        }
        i := i + 1;
      }
      assert rows == SupersedeAll(old(rows), input.clientId);
      rows := rows + [NewRow(input, newId, now)];
      row := Some(NewRow(input, newId, now));
    }

    method DecideRow(clientId: Id, id: Id, decision: Decision, decider: string, now: int, note: Option<string>)
      returns (r: Result<Suggestion<S>, string>)
      requires Valid()
      modifies this
      ensures Valid()
      ensures rows == Decide(old(rows), clientId, id, decision, decider, now, note)
      ensures r.Ok? <==> var i := Find(old(rows), clientId, id); i < |old(rows)| && old(rows)[i].status.Pending?
      ensures r.Ok? ==> r.value in rows && r.value.clientId == clientId && r.value.id == id
      ensures r.Ok? ==> r.value == rows[Find(old(rows), clientId, id)]
      ensures r.Ok? ==> r.value.status == (if decision == Accept then Accepted else Rejected)
      ensures r.Ok? ==> r.value.decidedBy == Some(decider) && r.value.decidedAt == Some(now)
      ensures r.Ok? && note.Some? ==> r.value.note == note
      ensures r.Err? ==> rows == old(rows)
    {
      DecideKeeps(rows, clientId, id, decision, decider, now, note);
      var i := Find(rows, clientId, id);
      if i == |rows| { return Err("learning suggestion not found"); }
      if !rows[i].status.Pending? { return Err("cannot decide a settled suggestion"); }
      rows := rows[i := DecidedRow(rows[i], decision, decider, now, note)];
      return Ok(rows[i]);
    }

    method Get(clientId: Id, id: Id) returns (r: Option<Suggestion<S>>)
      ensures r.Some? <==> exists i :: 0 <= i < |rows| && rows[i].clientId == clientId && rows[i].id == id
      ensures r.Some? ==> r.value in rows && r.value.clientId == clientId && r.value.id == id
    {
      var i := Find(rows, clientId, id);
      r := if i < |rows| then Some(rows[i]) else None;
    }

    /** A client's rows, optionally of one status, newest first. */
    method List(clientId: Id, status: Option<Status>) returns (r: seq<Suggestion<S>>)
      ensures r == Listed(rows, clientId, status)
    {
      r := [];
      var i := 0;
      while i < |rows|
        invariant 0 <= i <= |rows|
        invariant r == Listed(rows[..i], clientId, status)
      {
        assert rows[..i + 1][..i] == rows[..i];
        if rows[i].clientId == clientId && (status.None? || rows[i].status == status.value) {
          r := [rows[i]] + r;
        }
        i := i + 1;
      }
      assert rows[..|rows|] == rows;
    }
  }

  function Listed<S>(rows: seq<Suggestion<S>>, clientId: Id, status: Option<Status>): seq<Suggestion<S>> {
    if rows == [] then []
    else
      var last := rows[|rows| - 1];
      (if last.clientId == clientId && (status.None? || last.status == status.value) then [last] else [])
      + Listed(rows[..|rows| - 1], clientId, status)
  }

  function IsListed<S>(clientId: Id, status: Option<Status>): Suggestion<S> -> bool {
    (r: Suggestion<S>) => r.clientId == clientId && (status.Some? ==> r.status == status.value)
  }

  ghost predicate Mirrored<T>(r: seq<T>, s: seq<T>) {
    |r| == |s| && forall k :: 0 <= k < |r| ==> r[k] == s[|s| - 1 - k]
  }

  lemma MirroredSnoc<T>(r: seq<T>, s: seq<T>, last: seq<T>)
    requires Mirrored(r, s) && |last| <= 1
    ensures Mirrored(last + r, s + last)
  {
  }

  /** The list is the client's rows of that status in the order they were written, from the last to the first. */
  lemma {:induction false} ListedIsReversed<S>(rows: seq<Suggestion<S>>, clientId: Id, status: Option<Status>)
    ensures Mirrored(Listed(rows, clientId, status), Filtered(rows, IsListed(clientId, status)))
  {
    if rows != [] {
      hide Mirrored, Filtered, IsListed;
      var front, last := rows[..|rows| - 1], rows[|rows| - 1];
      ListedIsReversed(front, clientId, status);
      assert rows == front + [last];
      OneFiltered(last, IsListed(clientId, status));
      FilteredAppend(front, [last], IsListed(clientId, status));
      MirroredSnoc(Listed(front, clientId, status), Filtered(front, IsListed(clientId, status)),
                   if IsListed(clientId, status)(last) then [last] else []);
    }
  }

  lemma OneFiltered<T>(x: T, p: T -> bool)
    ensures Filtered([x], p) == if p(x) then [x] else []
  {
    assert [x][1..] == [];
  }

  /** Listing a client's pending suggestions gives at most one row, and it is the first row of the full list. */
  lemma {:induction false} PendingListedFirst<S>(rows: seq<Suggestion<S>>, clientId: Id)
    requires PendingIsNewest(rows)
    ensures var p, all := Listed(rows, clientId, Some(Pending)), Listed(rows, clientId, None);
      |p| <= 1 && (p != [] ==> all != [] && all[0] == p[0])
  {
    if rows != [] {
      var front, last := rows[..|rows| - 1], rows[|rows| - 1];
      PendingListedFirst(front, clientId);
      if last.clientId == clientId {
        NoPendingListed(front, clientId);
      }
    }
  }

  lemma {:induction false} NoPendingListed<S>(rows: seq<Suggestion<S>>, clientId: Id)
    requires forall i :: 0 <= i < |rows| ==> !(rows[i].clientId == clientId && rows[i].status.Pending?)
    ensures Listed(rows, clientId, Some(Pending)) == []
  {
    if rows != [] {
      NoPendingListed(rows[..|rows| - 1], clientId);
    }
  }
}
