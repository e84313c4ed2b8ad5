/**
  The Postgres appender (services/action-executor/src/pg-audit.ts) as a concurrent protocol.

  An append is two autocommitted statements: read the tip, then insert the linked row.  Any number of
  writers interleave these statements over one table whose only guard is the primary key on `seq`; rows
  are never updated or deleted (db/migrations/0009_control.sql).
 */
module PgAudit {
  import opened Wrappers
  import opened AuditLog
  import opened Json

  /** `control.audit_entry`, keyed by its primary key. */
  type Table = map<nat, AuditEntry>

  /** A writer between appends, or holding what its tip read returned and the entry it wants to write. */
  datatype Writer = Idle | Holding(tip: Option<Tip>, input: AuditInput)

  datatype State = State(table: Table, writers: map<nat, Writer>, committed: seq<AuditEntry>)

  datatype Step =
    | ReadTip(writer: nat, row: Option<nat>, input: AuditInput)
    | Insert(writer: nat)

  const NO_ROWS := State(map[], map[], [])

  /** What a read of row `row` returns; a read that finds no row starts a new chain. */
  function TipAt(table: Table, row: Option<nat>): Option<Tip> {
    if row.Some? && row.value in table then Some(TipOf(table[row.value])) else None
  }

  /** The INSERT: the primary key refuses a number that is already taken. */
  function InsertRow(table: Table, e: AuditEntry): Option<Table> {
    if e.seqNo in table then None else Some(table[e.seqNo := e])
  }

  /**
    One statement of one writer.  The tip read may return any row of the table, or none, however stale
    the snapshot it is answered from; a step of a writer that is not ready for it does nothing.
   */
  function Next(hash: string -> string, s: State, step: Step): State {
    match step
    case ReadTip(w, row, input) =>
      if w in s.writers && s.writers[w].Holding? then s
      else s.(writers := s.writers[w := Holding(TipAt(s.table, row), input)])
    case Insert(w) =>
      if w !in s.writers || s.writers[w].Idle? then s
      else
        var e := AppendEntry(hash, s.writers[w].tip, s.writers[w].input);
        var after := InsertRow(s.table, e);
        var idle := s.writers[w := Idle];
        if after.None? then s.(writers := idle)
        else State(after.value, idle, s.committed + [e])
  }

  function Run(hash: string -> string, s: State, steps: seq<Step>): State
    decreases steps
  {
    if steps == [] then s else Run(hash, Next(hash, s, steps[0]), steps[1..])
  }

  /** The rows with `lo <= seq < hi`, in order of `seq`. */
  function RowsBetween(table: Table, lo: nat, hi: nat): seq<AuditEntry>
    requires lo <= hi
    decreases hi - lo
  {
    if lo == hi then []
    else RowsBetween(table, lo, hi - 1) + (if hi - 1 in table then [table[hi - 1]] else [])
  }

  // ---- The invariant ----

  /** The table holds exactly the committed entries, the i-th under number i, and they form one chain. */
  ghost predicate OneChain(hash: string -> string, s: State) {
    && Chained(hash, s.committed)
    && Numbered(s.committed)
    && (forall k :: k in s.table <==> 0 <= k < |s.committed|)
    && (forall k :: 0 <= k < |s.committed| ==> s.table[k] == s.committed[k])
  }

  /** A remembered tip is some row of the table, or nothing at all. */
  ghost predicate TipsAreRows(s: State) {
    forall w :: w in s.writers && s.writers[w].Holding? && s.writers[w].tip.Some? ==>
      s.writers[w].tip.value.seqNo in s.table
      && s.writers[w].tip.value == TipOf(s.table[s.writers[w].tip.value.seqNo])
  }

  lemma StepKeepsChain(hash: string -> string, s: State, step: Step)
    requires OneChain(hash, s) && TipsAreRows(s)
    ensures OneChain(hash, Next(hash, s, step)) && TipsAreRows(Next(hash, s, step))
  {
    hide ComputeHash;
    match step
    case ReadTip(w, row, input) =>
    case Insert(w) =>
      if w in s.writers && s.writers[w].Holding? {
        InsertKeepsChain(hash, s, w);
      }
  }

  lemma InsertKeepsChain(hash: string -> string, s: State, w: nat)
    requires OneChain(hash, s) && TipsAreRows(s)
    requires w in s.writers && s.writers[w].Holding?
    ensures OneChain(hash, Next(hash, s, Insert(w))) && TipsAreRows(Next(hash, s, Insert(w)))
  {
    hide ComputeHash, Chained, Numbered;
    var tip, input := s.writers[w].tip, s.writers[w].input;
    InsertSucceedsOnlyAtTip(hash, s, w);
    AppendKeepsChain(hash, s.committed, input);
    if tip == LastTip(s.committed) {
      assert AppendEntry(hash, tip, input).seqNo == |s.committed| by { NextNumber(s.committed); }
    }
  }

  lemma NextNumber(entries: seq<AuditEntry>)
    requires Numbered(entries)
    ensures LastTip(entries).Some? ==> LastTip(entries).value.seqNo + 1 == |entries|
  {
  }

  /** An insert succeeds exactly when the remembered tip is still the last committed entry. */
  lemma InsertSucceedsOnlyAtTip(hash: string -> string, s: State, w: nat)
    requires OneChain(hash, s) && TipsAreRows(s)
    requires w in s.writers && s.writers[w].Holding?
    ensures var e := AppendEntry(hash, s.writers[w].tip, s.writers[w].input);
      InsertRow(s.table, e).Some? <==> s.writers[w].tip == LastTip(s.committed)
  {
    hide ComputeHash;
    var tip := s.writers[w].tip;
    if tip.Some? {
      var k := tip.value.seqNo;
      assert s.table[k] == s.committed[k];
      assert k + 1 in s.table <==> k + 1 < |s.committed|;
      if k + 1 < |s.committed| {
        assert LastTip(s.committed).value.seqNo == |s.committed| - 1;
      }
    }
  }

  lemma {:induction false} RunKeepsChain(hash: string -> string, s: State, steps: seq<Step>)
    requires OneChain(hash, s) && TipsAreRows(s)
    ensures OneChain(hash, Run(hash, s, steps)) && TipsAreRows(Run(hash, s, steps))
    decreases steps
  {
    hide ComputeHash;
    if steps != [] {
      StepKeepsChain(hash, s, steps[0]);
      RunKeepsChain(hash, Next(hash, s, steps[0]), steps[1..]);
    }
  }

  lemma {:induction false} RowsInOrder(table: Table, entries: seq<AuditEntry>, n: nat)
    requires n <= |entries|
    requires forall k :: 0 <= k < |entries| ==> k in table && table[k] == entries[k]
    ensures RowsBetween(table, 0, n) == entries[..n]
  {
    if n > 0 {
      RowsInOrder(table, entries, n - 1);
      assert entries[..n] == entries[..n - 1] + [entries[n - 1]];
    }
  }

  lemma {:induction false} NoRowsBeyond(table: Table, lo: nat, hi: nat)
    requires lo <= hi && forall k :: lo <= k < hi ==> k !in table
    ensures RowsBetween(table, 0, hi) == RowsBetween(table, 0, lo)
    decreases hi
  {
    if lo < hi {
      NoRowsBeyond(table, lo, hi - 1);
    }
  }

  /**
    Every interleaving of any number of writers: read back in order, the table is exactly the sequence of
    successful appends, gap-free and accepted by the verifier; so each success is in it exactly once and
    no failure left a trace.
   */
  lemma EveryInterleavingIsOneChain(hash: string -> string, steps: seq<Step>, bound: nat)
    requires var s := Run(hash, NO_ROWS, steps); forall k :: k in s.table ==> k < bound
    ensures var s := Run(hash, NO_ROWS, steps);
      && RowsBetween(s.table, 0, bound) == s.committed
      && |s.table| == |s.committed|
      && Chained(hash, s.committed) && Numbered(s.committed)
  {
    hide ComputeHash;
    var s := Run(hash, NO_ROWS, steps);
    RunKeepsChain(hash, NO_ROWS, steps);
    var n := |s.committed|;
    assert n <= bound by {
      if n > 0 { assert n - 1 in s.table; }
    }
    RowsInOrder(s.table, s.committed, n);
    NoRowsBeyond(s.table, n, bound);
    assert s.committed[..n] == s.committed;
    KeysBelow(s.table, n);
  }

  lemma {:induction false} KeysBelow(table: Table, n: nat)
    requires forall k :: k in table <==> 0 <= k < n
    ensures |table| == n
  {
    if n == 0 {
      assert table == map[];
    } else {
      var less := table - {n - 1};
      assert forall k :: k in less <==> 0 <= k < n - 1;
      KeysBelow(less, n - 1);
      assert table == less[n - 1 := table[n - 1]];
    }
  }

  ghost predicate WellFormedInputs(steps: seq<Step>) {
    forall i :: 0 <= i < |steps| && steps[i].ReadTip? ==> WellFormed(steps[i].input.payload)
  }

  ghost predicate WellFormedState(s: State) {
    && WellFormedEntries(s.committed)
    && (forall w :: w in s.writers && s.writers[w].Holding? ==> WellFormed(s.writers[w].input.payload))
  }

  lemma {:induction false} RunKeepsWellFormed(hash: string -> string, s: State, steps: seq<Step>)
    requires WellFormedInputs(steps) && WellFormedState(s)
    ensures WellFormedState(Run(hash, s, steps))
    decreases steps
  {
    hide ComputeHash, WellFormed;
    if steps != [] {
      assert steps == [steps[0]] + steps[1..];
      RunKeepsWellFormed(hash, Next(hash, s, steps[0]), steps[1..]);
    }
  }

  /**
    After any interleaving the verifier accepts every reading of the table, in order of `seq`, that returns
    payload keys in another order and any timestamps.
   */
  lemma EveryReadingIsAccepted(hash: string -> string, steps: seq<Step>, bound: nat, es: seq<AuditEntry>)
    requires var s := Run(hash, NO_ROWS, steps); forall k :: k in s.table ==> k < bound
    requires WellFormedInputs(steps) && WellFormedEntries(es)
    requires var rows := RowsBetween(Run(hash, NO_ROWS, steps).table, 0, bound);
      |es| == |rows| && forall i :: 0 <= i < |rows| ==> SameButCreatedAt(rows[i], es[i])
    ensures Chained(hash, es)
  {
    hide ComputeHash, Run, RowsBetween, SameButCreatedAt, Chained, WellFormed;
    EveryInterleavingIsOneChain(hash, steps, bound);
    RunKeepsWellFormed(hash, NO_ROWS, steps);
    ReloadedChain(hash, Run(hash, NO_ROWS, steps).committed, es);
  }

  /** Steps only add rows: whatever was once committed stays, in place, for ever. */
  lemma {:induction false} CommittedForever(hash: string -> string, s: State, steps: seq<Step>)
    ensures s.committed <= Run(hash, s, steps).committed
    ensures forall k :: k in s.table ==> k in Run(hash, s, steps).table && Run(hash, s, steps).table[k] == s.table[k]
    decreases steps
  {
    hide ComputeHash;
    if steps != [] {
      CommittedForever(hash, Next(hash, s, steps[0]), steps[1..]);
    }
  }

  /** A writer that reads the newest row and is not overtaken commits its entry, next in the chain. */
  lemma UncontendedAppendSucceeds(hash: string -> string, s: State, w: nat, input: AuditInput)
    requires OneChain(hash, s) && TipsAreRows(s)
    requires w in s.writers ==> s.writers[w].Idle?
    ensures var row := if s.committed == [] then None else Some(|s.committed| - 1);
      Run(hash, s, [ReadTip(w, row, input), Insert(w)]).committed
        == s.committed + [AppendEntry(hash, LastTip(s.committed), input)]
  {
    hide ComputeHash;
    var row := if s.committed == [] then None else Some(|s.committed| - 1);
    var s1 := Next(hash, s, ReadTip(w, row, input));
    StepKeepsChain(hash, s, ReadTip(w, row, input));
    InsertSucceedsOnlyAtTip(hash, s1, w);
    var steps := [ReadTip(w, row, input), Insert(w)];
    assert steps[1..] == [Insert(w)];
    assert Run(hash, s1, [Insert(w)]) == Next(hash, s1, Insert(w)) by {
      assert [Insert(w)][1..] == [];
    }
  }

  /** The client of the table, one statement per method. */
  class PgAuditLog {
    const hash: string -> string
    var table: Table

    constructor (hash: string -> string)
      ensures this.hash == hash && table == map[]
    {
      this.hash := hash;
      table := map[];
    }

    /** SELECT seq, hash ... ORDER BY seq DESC LIMIT 1. */
    method SelectTip() returns (tip: Option<Tip>)
      ensures tip.None? <==> table == map[]
      ensures tip.Some? ==> exists k :: k in table && tip == Some(TipOf(table[k])) && forall j :: j in table ==> j <= k
    {
      if table == map[] { return None; }
      var k := Greatest(table.Keys);
      tip := Some(TipOf(table[k]));
    }

    /** INSERT, refused when the number is taken. */
    method InsertEntry(e: AuditEntry) returns (ok: bool)
      modifies this
      ensures ok <==> InsertRow(old(table), e).Some?
      ensures table == if ok then InsertRow(old(table), e).value else old(table)
    {
      ok := e.seqNo !in table;
      if ok {
        table := table[e.seqNo := e];
      }
    }

    /** Append with nobody in between: it extends the chain by one entry. */
    method Append(input: AuditInput, ghost committed: seq<AuditEntry>) returns (r: Result<AuditEntry, string>)
      requires OneChain(hash, State(table, map[], committed))
      modifies this
      ensures r == Ok(AppendEntry(hash, LastTip(committed), input))
      ensures OneChain(hash, State(table, map[], committed + [r.value]))
    {
      hide ComputeHash;
      var tip := SelectTip();
      assert tip == LastTip(committed) by {
        assert committed != [] ==> |committed| - 1 in table;
      }
      var e := AppendEntry(hash, tip, input);
      AppendKeepsChain(hash, committed, input);
      var ok := InsertEntry(e);
      r := if ok then Ok(e) else Err("duplicate key value violates unique constraint");
    }

    /** Reads the whole chain in order of `seq` and verifies it. */
    method Verify(bound: nat) returns (ok: bool)
      requires forall k :: k in table ==> k < bound
      ensures ok <==> Chained(hash, RowsBetween(table, 0, bound))
    {
      ok := VerifyChain(hash, RowsBetween(table, 0, bound));
    }
  }

  method Greatest(keys: set<nat>) returns (k: nat)
    requires keys != {}
    ensures k in keys && forall j :: j in keys ==> j <= k
  {
    k :| k in keys;
    var rest := keys - {k};
    while rest != {}
      invariant k in keys && rest <= keys
      invariant forall j :: j in keys ==> j in rest || j <= k
      decreases rest
    {
      var j :| j in rest;
      rest := rest - {j};
      if j > k { k := j; }
    }
  }
}
