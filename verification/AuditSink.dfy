/**
  The audit sink a component is given (`AuditSink` in services/action-executor/src/audit.ts): none at all, the
  in-memory log, or the Postgres log, whose append may be refused while other writers are at work.
 */
module AuditSink {
  import opened Wrappers
  import opened Sorting
  import opened AuditLog
  import Pg = PgAudit

  type Hash = string -> string

  /** With Postgres, the table and all its writers, of which `writer` is the one that appends here. */
  datatype Sink = NoSink | Memory(entries: seq<AuditEntry>) | Postgres(state: Pg.State, writer: nat)

  /** What others write: whole entries into a log in memory, single statements into the table. */
  datatype Others = Others(inputs: seq<AuditInput>, steps: seq<Pg.Step>)

  /** What goes on around one append: others before it, the row its tip read returns, others before its insert. */
  datatype Traffic = Traffic(before: Others, row: Option<nat>, between: seq<Pg.Step>)

  function WriterOf(step: Pg.Step): nat {
    match step
    case ReadTip(writer, _, _) => writer
    case Insert(writer) => writer
  }

  function OfOthers(steps: seq<Pg.Step>, writer: nat): seq<Pg.Step> {
    Filtered(steps, (step: Pg.Step) => WriterOf(step) != writer)
  }

  /** The entries that are in the log. */
  function Log(sink: Sink): seq<AuditEntry> {
    match sink
    case NoSink => []
    case Memory(entries) => entries
    case Postgres(state, _) => state.committed
  }

  /** The sink after others have written. */
  function Moved(hash: Hash, sink: Sink, others: Others): Sink {
    match sink
    case NoSink => NoSink
    case Memory(entries) => Memory(AppendAll(hash, entries, others.inputs))
    case Postgres(state, writer) => Postgres(Pg.Run(hash, state, OfOthers(others.steps, writer)), writer)
  }

  /** The sink at the moment an append adds its entry, its tip read some time ago. */
  function Awaiting(hash: Hash, sink: Sink, traffic: Traffic, input: AuditInput): Sink {
    match Moved(hash, sink, traffic.before)
    case NoSink => NoSink
    case Memory(entries) => Memory(entries)
    case Postgres(state, writer) =>
      var holding := Pg.Next(hash, state, Pg.ReadTip(writer, traffic.row, input));
      Postgres(Pg.Run(hash, holding, OfOthers(traffic.between, writer)), writer)
  }

  /** One append: the sink afterwards, and whether the entry was taken; a refusal is thrown to the caller. */
  function Appended(hash: Hash, sink: Sink, traffic: Traffic, input: AuditInput): (Sink, bool) {
    match Awaiting(hash, sink, traffic, input)
    case NoSink => (NoSink, true)
    case Memory(entries) => (Memory(entries + [AppendEntry(hash, LastTip(entries), input)]), true)
    case Postgres(state, writer) =>
      var after := Pg.Next(hash, state, Pg.Insert(writer));
      (Postgres(after, writer), |after.committed| > |state.committed|)
  }

  class Auditor {
    const hash: Hash
    var sink: Sink

    constructor (hash: Hash, sink: Sink)
      ensures this.hash == hash && this.sink == sink
    {
      this.hash, this.sink := hash, sink;
    }

    /** Hands the entry to the sink, if there is one, amid the traffic of others. */
    method Append(input: AuditInput, traffic: Traffic) returns (taken: bool)
      modifies this
      ensures (sink, taken) == Appended(hash, old(sink), traffic, input)
    {
      sink := Moved(hash, sink, traffic.before);
      taken := true;
      match sink {
        case NoSink =>
        case Memory(entries) =>
          sink := Memory(entries + [AppendEntry(hash, LastTip(entries), input)]);
        case Postgres(state, writer) =>
          var now := Pg.Next(hash, state, Pg.ReadTip(writer, traffic.row, input));
          now := Pg.Run(hash, now, OfOthers(traffic.between, writer));
          var count := |now.committed|;
          now := Pg.Next(hash, now, Pg.Insert(writer));
          taken := |now.committed| > count;
          sink := Postgres(now, writer);
      }
    }
  }

  // ---- What every append keeps ----

  predicate IsIdle(state: Pg.State, writer: nat) { writer !in state.writers || state.writers[writer].Idle? }

  /** One gap-free accepted chain; with Postgres also nothing of this writer's left halfway. */
  ghost predicate Sound(hash: Hash, sink: Sink) {
    match sink
    case NoSink => true
    case Memory(entries) => Chained(hash, entries) && Numbered(entries)
    case Postgres(state, writer) => Pg.OneChain(hash, state) && Pg.TipsAreRows(state) && IsIdle(state, writer)
  }

  lemma SoundIsChained(hash: Hash, sink: Sink)
    requires Sound(hash, sink)
    ensures Chained(hash, Log(sink)) && Numbered(Log(sink))
  {
  }

  lemma {:induction false} OthersLeaveWriter(hash: Hash, state: Pg.State, steps: seq<Pg.Step>, writer: nat)
    ensures var after := Pg.Run(hash, state, OfOthers(steps, writer));
      && (writer in after.writers <==> writer in state.writers)
      && (writer in state.writers ==> after.writers[writer] == state.writers[writer])
    decreases steps
  {
    hide ComputeHash;
    if steps != [] {
      var rest := OfOthers(steps[1..], writer);
      if WriterOf(steps[0]) != writer {
        assert OfOthers(steps, writer) == [steps[0]] + rest;
        assert OfOthers(steps, writer)[1..] == rest;
        OthersLeaveWriter(hash, Pg.Next(hash, state, steps[0]), steps[1..], writer);
      } else {
        assert OfOthers(steps, writer) == rest;
        OthersLeaveWriter(hash, state, steps[1..], writer);
      }
    }
  }

  lemma {:induction false} AppendAllExtends(hash: Hash, entries: seq<AuditEntry>, inputs: seq<AuditInput>)
    ensures entries <= AppendAll(hash, entries, inputs)
    decreases inputs
  {
    hide ComputeHash;
    if inputs != [] {
      AppendAllExtends(hash, entries + [AppendEntry(hash, LastTip(entries), inputs[0])], inputs[1..]);
    }
  }

  predicate SameKind(a: Sink, b: Sink) {
    match (a, b)
    case (NoSink, NoSink) => true
    case (Memory(_), Memory(_)) => true
    case (Postgres(_, v), Postgres(_, w)) => v == w
    case _ => false
  }

  /** Others only add to the log, and keep it sound. */
  lemma MovedKeeps(hash: Hash, sink: Sink, others: Others)
    requires Sound(hash, sink)
    ensures var after := Moved(hash, sink, others);
      Sound(hash, after) && SameKind(sink, after) && Log(sink) <= Log(after)
  {
    hide ComputeHash, Chained, Numbered;
    match sink
    case NoSink =>
    case Memory(entries) =>
      AppendsKeepChain(hash, entries, Mapped(entries, (e: AuditEntry) => e.input), others.inputs);
      AppendAllExtends(hash, entries, others.inputs);
    case Postgres(state, writer) =>
      var steps := OfOthers(others.steps, writer);
      Pg.RunKeepsChain(hash, state, steps);
      Pg.CommittedForever(hash, state, steps);
      OthersLeaveWriter(hash, state, others.steps, writer);
  }

  /** Sound but for the entry that the writer holds. */
  ghost predicate SoundHolding(hash: Hash, sink: Sink, input: AuditInput) {
    match sink
    case NoSink => true
    case Memory(entries) => Chained(hash, entries) && Numbered(entries)
    case Postgres(state, writer) =>
      && Pg.OneChain(hash, state) && Pg.TipsAreRows(state)
      && writer in state.writers && state.writers[writer].Holding? && state.writers[writer].input == input
  }

  lemma AwaitingKeeps(hash: Hash, sink: Sink, traffic: Traffic, input: AuditInput)
    requires Sound(hash, sink)
    ensures var at := Awaiting(hash, sink, traffic, input);
      && SoundHolding(hash, at, input) && SameKind(sink, at) && Log(sink) <= Log(at)
      && (at.Postgres? ==> at.state.writers[at.writer].tip == ReadAs(hash, sink, traffic))
  {
    hide ComputeHash, Chained, Numbered, Pg.OneChain, Pg.TipsAreRows;
    MovedKeeps(hash, sink, traffic.before);
    var moved := Moved(hash, sink, traffic.before);
    if moved.Postgres? {
      var read := Pg.ReadTip(moved.writer, traffic.row, input);
      var holding := Pg.Next(hash, moved.state, read);
      var steps := OfOthers(traffic.between, moved.writer);
      Pg.StepKeepsChain(hash, moved.state, read);
      Pg.RunKeepsChain(hash, holding, steps);
      Pg.CommittedForever(hash, holding, steps);
      OthersLeaveWriter(hash, holding, traffic.between, moved.writer);
    }
  }

  /** What the append's tip read returns. */
  function ReadAs(hash: Hash, sink: Sink, traffic: Traffic): Option<Tip> {
    match Moved(hash, sink, traffic.before)
    case Postgres(state, _) => Pg.TipAt(state.table, traffic.row)
    case _ => None
  }

  /** With Postgres, the row that the tip read returns is not the last one when the insert comes. */
  predicate IsStale(hash: Hash, sink: Sink, traffic: Traffic) {
    sink.Postgres? &&
    ReadAs(hash, sink, traffic)
    != LastTip(Log(Moved(hash, Moved(hash, sink, traffic.before), Others([], traffic.between))))
  }

  ghost predicate SameButWriter(s: Pg.State, t: Pg.State, writer: nat) {
    && s.table == t.table && s.committed == t.committed
    && (forall v :: v != writer ==> (v in s.writers <==> v in t.writers))
    && (forall v :: v != writer && v in s.writers ==> s.writers[v] == t.writers[v])
  }

  /** What others write does not depend on what this writer holds. */
  lemma {:induction false} OthersIgnoreWriter(hash: Hash, s: Pg.State, t: Pg.State, steps: seq<Pg.Step>, writer: nat)
    requires SameButWriter(s, t, writer)
    ensures SameButWriter(
              Pg.Run(hash, s, OfOthers(steps, writer)), Pg.Run(hash, t, OfOthers(steps, writer)), writer)
    decreases steps
  {
    hide ComputeHash;
    if steps != [] {
      var rest := OfOthers(steps[1..], writer);
      if WriterOf(steps[0]) != writer {
        assert OfOthers(steps, writer) == [steps[0]] + rest && ([steps[0]] + rest)[1..] == rest;
        OthersIgnoreWriter(hash, Pg.Next(hash, s, steps[0]), Pg.Next(hash, t, steps[0]), steps[1..], writer);
      } else {
        assert OfOthers(steps, writer) == rest;
        OthersIgnoreWriter(hash, s, t, steps[1..], writer);
      }
    }
  }

  lemma AwaitingLog(hash: Hash, sink: Sink, traffic: Traffic, input: AuditInput)
    ensures sink.Postgres? ==>
              Log(Awaiting(hash, sink, traffic, input))
              == Log(Moved(hash, Moved(hash, sink, traffic.before), Others([], traffic.between)))
  {
    var moved := Moved(hash, sink, traffic.before);
    if moved.Postgres? {
      var holding := Pg.Next(hash, moved.state, Pg.ReadTip(moved.writer, traffic.row, input));
      OthersIgnoreWriter(hash, holding, moved.state, traffic.between, moved.writer);
    }
  }

  /** The log gains exactly this entry at its end when it is taken, and nothing when it is refused. */
  ghost predicate Gains(hash: Hash, before: Sink, after: Sink, input: AuditInput, taken: bool) {
    Log(after) == Log(before)
                  + if taken && !before.NoSink? then [AppendEntry(hash, LastTip(Log(before)), input)] else []
  }

  /**
    An append keeps the log one sound chain and is refused exactly when it goes to Postgres with a stale tip.
    If it is taken its entry is added, linked to the last entry there is then; if not, nothing is.
   */
  lemma AppendedEnds(hash: Hash, sink: Sink, traffic: Traffic, input: AuditInput)
    requires Sound(hash, sink)
    ensures var (after, taken) := Appended(hash, sink, traffic, input);
      var before := Awaiting(hash, sink, traffic, input);
      && Sound(hash, after) && SameKind(sink, after)
      && (taken <==> !IsStale(hash, sink, traffic))
      && Log(sink) <= Log(before) && Gains(hash, before, after, input, taken)
  {
    hide ComputeHash, Chained, Numbered;
    AwaitingKeeps(hash, sink, traffic, input);
    AwaitingLog(hash, sink, traffic, input);
    hide Moved;
    match Awaiting(hash, sink, traffic, input)
    case NoSink =>
    case Memory(entries) => AppendKeepsChain(hash, entries, input);
    case Postgres(state, writer) =>
      Pg.StepKeepsChain(hash, state, Pg.Insert(writer));
      Pg.InsertSucceedsOnlyAtTip(hash, state, writer);
  }

  /** Refusals do happen: an append that reads the newest row is overtaken by any idle writer that does the same. */
  lemma OvertakenIsStale(hash: Hash, state: Pg.State, writer: nat, other: nat, input: AuditInput)
    requires Sound(hash, Postgres(state, writer)) && other != writer && IsIdle(state, other)
    ensures var row := if state.committed == [] then None else Some(|state.committed| - 1);
      IsStale(hash, Postgres(state, writer),
              Traffic(Others([], []), row, [Pg.ReadTip(other, row, input), Pg.Insert(other)]))
  {
    hide ComputeHash;
    var row := if state.committed == [] then None else Some(|state.committed| - 1);
    var steps := [Pg.ReadTip(other, row, input), Pg.Insert(other)];
    Pg.UncontendedAppendSucceeds(hash, state, other, input);
    assert OfOthers(steps, writer) == steps by { AllOthers(steps, writer); }
    assert OfOthers([], writer) == [];
    assert row.Some? ==> row.value in state.table;
  }

  lemma {:induction false} AllOthers(steps: seq<Pg.Step>, writer: nat)
    requires forall i :: 0 <= i < |steps| ==> WriterOf(steps[i]) != writer
    ensures OfOthers(steps, writer) == steps
  {
    if steps != [] {
      AllOthers(steps[1..], writer);
      assert steps == [steps[0]] + steps[1..];
    }
  }
}
