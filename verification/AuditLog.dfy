/**
  The append-only, hash-chained audit log (services/action-executor/src/audit.ts).

  SHA-256 is idealised as a parameter `hash`: an injective function of the canonical text that never
  returns the genesis value.
 */
module AuditLog {
  import opened Wrappers
  import opened Digits
  import opened Json
  import opened JsonUnique

  const GENESIS_HASH: string := Zeros(64)

  datatype ActorKind = System | User | Llm

  datatype AuditInput = AuditInput(
    clientId: Option<string>, actor: string, actorKind: ActorKind, action: string, subjectRef: string,
    payload: Json, createdAt: string)

  datatype AuditEntry = AuditEntry(seqNo: nat, input: AuditInput, prevHash: string, hash: string)

  /** What an append needs to know of the previous entry. */
  datatype Tip = Tip(seqNo: nat, hash: string)

  function TipOf(e: AuditEntry): Tip { Tip(e.seqNo, e.hash) }

  function KindText(k: ActorKind): string {
    match k
    case System => "system"
    case User => "user"
    case Llm => "llm"
  }

  function NullableText(s: Option<string>): Json {
    match s
    case None => Null
    case Some(text) => String(text)
  }

  /** The hashed value: every field of the entry except `created_at` and the hash itself. */
  function Hashed(prevHash: string, seqNo: nat, input: AuditInput): Json {
    Object([
      Field("seq", Number(NatText(seqNo))),
      Field("client_id", NullableText(input.clientId)),
      Field("actor", String(input.actor)),
      Field("actor_kind", String(KindText(input.actorKind))),
      Field("action", String(input.action)),
      Field("subject_ref", String(input.subjectRef)),
      Field("payload", input.payload),
      Field("prev_hash", String(prevHash))])
  }

  function ComputeHash(hash: string -> string, prevHash: string, seqNo: nat, input: AuditInput): string {
    hash(StableStringify(Hashed(prevHash, seqNo, input)))
  }

  function AppendEntry(hash: string -> string, prev: Option<Tip>, input: AuditInput): AuditEntry {
    var seqNo := if prev.Some? then prev.value.seqNo + 1 else 0;
    var prevHash := if prev.Some? then prev.value.hash else GENESIS_HASH;
    AuditEntry(seqNo, input, prevHash, ComputeHash(hash, prevHash, seqNo, input))
  }

  // ---- What a verified chain is ----

  function TipHash(entries: seq<AuditEntry>): string {
    if entries == [] then GENESIS_HASH else entries[|entries| - 1].hash
  }

  function LastTip(entries: seq<AuditEntry>): Option<Tip> {
    if entries == [] then None else Some(TipOf(entries[|entries| - 1]))
  }

  predicate Sealed(hash: string -> string, e: AuditEntry) {
    e.hash == ComputeHash(hash, e.prevHash, e.seqNo, e.input)
  }

  predicate LinkedAt(hash: string -> string, entries: seq<AuditEntry>, i: nat)
    requires i < |entries|
  {
    && Sealed(hash, entries[i])
    && entries[i].prevHash == (if i == 0 then GENESIS_HASH else entries[i - 1].hash)
    && (i > 0 ==> entries[i - 1].seqNo < entries[i].seqNo)
  }

  /** Each hash recomputable, each entry naming the hash of the one before it, numbers increasing. */
  predicate Chained(hash: string -> string, entries: seq<AuditEntry>) {
    forall i :: 0 <= i < |entries| ==> LinkedAt(hash, entries, i)
  }

  /** Numbered from 0 without a gap. */
  predicate Numbered(entries: seq<AuditEntry>) {
    forall i :: 0 <= i < |entries| ==> entries[i].seqNo == i
  }

  lemma LinkedAfter(hash: string -> string, entries: seq<AuditEntry>, i: nat, prevHash: string, prevSeq: Option<nat>)
    requires i < |entries|
    requires prevHash == if i == 0 then GENESIS_HASH else entries[i - 1].hash
    requires prevSeq == if i == 0 then None else Some(entries[i - 1].seqNo)
    ensures var e := entries[i];
      LinkedAt(hash, entries, i)
      <==> && (prevSeq.Some? ==> prevSeq.value < e.seqNo) && e.prevHash == prevHash
           && ComputeHash(hash, prevHash, e.seqNo, e.input) == e.hash
  {
    hide ComputeHash;
  }

  method VerifyChain(hash: string -> string, entries: seq<AuditEntry>) returns (ok: bool)
    ensures ok <==> Chained(hash, entries)
  {
    hide ComputeHash, LinkedAt;
    var prevHash := GENESIS_HASH;
    var prevSeq: Option<nat> := None;
    for i := 0 to |entries|
      invariant forall k :: 0 <= k < i ==> LinkedAt(hash, entries, k)
      invariant prevHash == if i == 0 then GENESIS_HASH else entries[i - 1].hash
      invariant prevSeq == if i == 0 then None else Some(entries[i - 1].seqNo)
    {
      var e := entries[i];
      assert Chained(hash, entries) ==> LinkedAt(hash, entries, i);
      LinkedAfter(hash, entries, i, prevHash, prevSeq);
      if prevSeq.Some? && e.seqNo <= prevSeq.value { return false; }
      if e.prevHash != prevHash { return false; }
      if ComputeHash(hash, prevHash, e.seqNo, e.input) != e.hash { return false; }
      prevHash := e.hash;
      prevSeq := Some(e.seqNo);
    }
    return true;
  }

  lemma ChainedSnoc(hash: string -> string, entries: seq<AuditEntry>, e: AuditEntry)
    requires Chained(hash, entries)
    ensures Chained(hash, entries + [e]) <==>
              (Sealed(hash, e) && e.prevHash == TipHash(entries)
               && (entries != [] ==> entries[|entries| - 1].seqNo < e.seqNo))
  {
    var all := entries + [e];
    assert all[..|entries|] == entries && all[|entries|] == e;
    forall i | 0 <= i < |entries| ensures LinkedAt(hash, all, i) <==> LinkedAt(hash, entries, i) { }
    if Chained(hash, all) {
      assert LinkedAt(hash, all, |entries|);
    }
  }

  /** Appending to an accepted chain keeps it accepted, and keeps the numbering gap-free. */
  lemma AppendKeepsChain(hash: string -> string, entries: seq<AuditEntry>, input: AuditInput)
    requires Chained(hash, entries)
    ensures Chained(hash, entries + [AppendEntry(hash, LastTip(entries), input)])
    ensures Numbered(entries) ==> Numbered(entries + [AppendEntry(hash, LastTip(entries), input)])
  {
    ChainedSnoc(hash, entries, AppendEntry(hash, LastTip(entries), input));
  }

  function AppendAll(hash: string -> string, entries: seq<AuditEntry>, inputs: seq<AuditInput>): seq<AuditEntry>
    decreases inputs
  {
    if inputs == [] then entries
    else AppendAll(hash, entries + [AppendEntry(hash, LastTip(entries), inputs[0])], inputs[1..])
  }

  predicate Records(entries: seq<AuditEntry>, inputs: seq<AuditInput>) {
    |entries| == |inputs| && forall i :: 0 <= i < |inputs| ==> entries[i].input == inputs[i]
  }

  lemma RecordsSnoc(entries: seq<AuditEntry>, inputs: seq<AuditInput>, e: AuditEntry)
    requires Records(entries, inputs)
    ensures Records(entries + [e], inputs + [e.input])
  {
  }

  lemma {:induction false} AppendsKeepChain(
    hash: string -> string, entries: seq<AuditEntry>, done: seq<AuditInput>, inputs: seq<AuditInput>)
    requires Chained(hash, entries) && Numbered(entries) && Records(entries, done)
    ensures Chained(hash, AppendAll(hash, entries, inputs)) && Numbered(AppendAll(hash, entries, inputs))
    ensures Records(AppendAll(hash, entries, inputs), done + inputs)
    decreases inputs
  {
    hide ComputeHash;
    if inputs == [] {
      assert done + inputs == done;
    } else {
      AppendKeepsChain(hash, entries, inputs[0]);
      var next := entries + [AppendEntry(hash, LastTip(entries), inputs[0])];
      RecordsSnoc(entries, done, AppendEntry(hash, LastTip(entries), inputs[0]));
      AppendsKeepChain(hash, next, done + [inputs[0]], inputs[1..]);
      assert done + [inputs[0]] + inputs[1..] == done + inputs;
    }
  }

  /** Every sequence of appends to the empty log yields an accepted chain recording exactly the inputs, in order. */
  lemma AppendsAreAccepted(hash: string -> string, inputs: seq<AuditInput>)
    ensures var log := AppendAll(hash, [], inputs);
      Chained(hash, log) && Numbered(log) && Records(log, inputs)
  {
    AppendsKeepChain(hash, [], [], inputs);
    assert [] + inputs == inputs;
  }

  /** Every prefix of an accepted chain is accepted: a truncated log cannot be told from a shorter one. */
  lemma PrefixAccepted(hash: string -> string, entries: seq<AuditEntry>, n: nat)
    requires Chained(hash, entries) && n <= |entries|
    ensures Chained(hash, entries[..n])
  {
    forall i | 0 <= i < n ensures LinkedAt(hash, entries[..n], i) {
      assert LinkedAt(hash, entries, i);
    }
  }

  /** The in-memory audit log. */
  class InMemoryAuditLog {
    const hash: string -> string
    var entries: seq<AuditEntry>

    ghost predicate Valid()
      reads this
    {
      Chained(hash, entries) && Numbered(entries)
    }

    constructor (hash: string -> string)
      ensures Valid() && this.hash == hash && entries == []
    {
      this.hash := hash;
      entries := [];
    }

    method Append(input: AuditInput) returns (entry: AuditEntry)
      requires Valid()
      modifies this
      ensures Valid()
      ensures entries == old(entries) + [entry] && entry.input == input
      ensures entry == AppendEntry(hash, LastTip(old(entries)), input)
    {
      AppendKeepsChain(hash, entries, input);
      var prev := if |entries| == 0 then None else Some(TipOf(entries[|entries| - 1]));
      entry := AppendEntry(hash, prev, input);
      entries := entries + [entry];
    }

    method Verify() returns (ok: bool)
      ensures ok <==> Chained(hash, entries)
    {
      ok := VerifyChain(hash, entries);
    }
  }

  // ---- Tamper evidence ----

  /** The idealised hash: different texts have different hashes, and none is the genesis value. */
  ghost predicate IdealHash(hash: string -> string) {
    && (forall s, t :: hash(s) == hash(t) ==> s == t)
    && (forall s :: hash(s) != GENESIS_HASH)
  }

  ghost predicate WellFormedEntries(entries: seq<AuditEntry>) {
    forall i :: 0 <= i < |entries| ==> WellFormed(entries[i].input.payload)
  }

  /** Agreement on everything the hash covers: all fields but `created_at`, the payload up to key order. */
  predicate SameButCreatedAt(d: AuditEntry, e: AuditEntry) {
    && d.seqNo == e.seqNo && d.prevHash == e.prevHash && d.hash == e.hash
    && SameInput(d.input, e.input)
  }

  predicate SameInput(a: AuditInput, b: AuditInput) {
    && a.clientId == b.clientId && a.actor == b.actor && a.actorKind == b.actorKind
    && a.action == b.action && a.subjectRef == b.subjectRef && Equiv(a.payload, b.payload)
  }

  lemma HashedWellFormed(prevHash: string, seqNo: nat, input: AuditInput)
    requires WellFormed(input.payload)
    ensures WellFormed(Hashed(prevHash, seqNo, input))
  {
    forall i | 0 <= i < |NatText(seqNo)| ensures NumberChar(NatText(seqNo)[i]) {
      assert IsDigit(NatText(seqNo)[i]);
    }
    var fields := Hashed(prevHash, seqNo, input).fields;
    forall i | 0 <= i < |fields| ensures WellFormed(fields[i].value) { }
  }

  lemma AlignedMatch(fs: seq<Field>, gs: seq<Field>, i: nat)
    requires |fs| == |gs| && DistinctKeys(gs) && i < |fs| && fs[i].key == gs[i].key
    ensures HasEquivField(fs[i], gs) <==> Equiv(fs[i].value, gs[i].value)
  {
    if Equiv(fs[i].value, gs[i].value) {
      assert EquivFields(fs[i], gs[i]);
    }
  }

  /** Between objects with the same distinct keys in the same order, equivalence is field by field. */
  lemma AlignedFields(fs: seq<Field>, gs: seq<Field>)
    requires |fs| == |gs| && DistinctKeys(gs)
    requires forall i :: 0 <= i < |fs| ==> fs[i].key == gs[i].key
    ensures Equiv(Object(fs), Object(gs)) <==> forall i :: 0 <= i < |fs| ==> Equiv(fs[i].value, gs[i].value)
  {
    forall i | 0 <= i < |fs|
      ensures HasEquivField(fs[i], gs) <==> Equiv(fs[i].value, gs[i].value)
    {
      AlignedMatch(fs, gs, i);
    }
  }

  /** The hashed values are equal up to key order exactly when number, previous hash and input agree. */
  lemma HashedEquiv(p: string, m: nat, a: AuditInput, q: string, n: nat, b: AuditInput)
    ensures Equiv(Hashed(p, m, a), Hashed(q, n, b)) <==> p == q && m == n && SameInput(a, b)
  {
    var fs, gs := Hashed(p, m, a).fields, Hashed(q, n, b).fields;
    AlignedFields(fs, gs);
    HashedValues(p, m, a, q, n, b);
    if NatText(m) == NatText(n) {
      NatTextInjective(m, n);
    }
  }

  lemma HashedValues(p: string, m: nat, a: AuditInput, q: string, n: nat, b: AuditInput)
    ensures var fs, gs := Hashed(p, m, a).fields, Hashed(q, n, b).fields;
      (forall i :: 0 <= i < |fs| ==> Equiv(fs[i].value, gs[i].value)) <==>
        (NatText(m) == NatText(n) && p == q && SameInput(a, b))
  {
    var fs, gs := Hashed(p, m, a).fields, Hashed(q, n, b).fields;
    hide Equiv, NatText, KindText, NullableText;
    assert |fs| == |gs| == 8;
    NumbersEquiv(NatText(m), NatText(n));
    ClientIdText(a.clientId, b.clientId);
    StringsEquiv(a.actor, b.actor);
    KindTextInjective(a.actorKind, b.actorKind);
    StringsEquiv(a.action, b.action);
    StringsEquiv(a.subjectRef, b.subjectRef);
    StringsEquiv(p, q);
    assert fs[6].value == a.payload && gs[6].value == b.payload;
    AllOfEight(fs, gs);
  }

  lemma AllOfEight(fs: seq<Field>, gs: seq<Field>)
    requires |fs| == |gs| == 8
    ensures (forall i :: 0 <= i < |fs| ==> Equiv(fs[i].value, gs[i].value)) <==>
              && Equiv(fs[0].value, gs[0].value) && Equiv(fs[1].value, gs[1].value) && Equiv(fs[2].value, gs[2].value)
              && Equiv(fs[3].value, gs[3].value) && Equiv(fs[4].value, gs[4].value) && Equiv(fs[5].value, gs[5].value)
              && Equiv(fs[6].value, gs[6].value) && Equiv(fs[7].value, gs[7].value)
  {
    hide Equiv;
  }

  lemma StringsEquiv(s: string, t: string)
    ensures Equiv(String(s), String(t)) <==> s == t
  {
  }

  lemma NumbersEquiv(s: string, t: string)
    ensures Equiv(Number(s), Number(t)) <==> s == t
  {
  }

  lemma ClientIdText(c: Option<string>, d: Option<string>)
    ensures Equiv(NullableText(c), NullableText(d)) <==> c == d
  {
  }

  lemma KindTextInjective(k: ActorKind, l: ActorKind)
    ensures Equiv(String(KindText(k)), String(KindText(l))) <==> k == l
  {
  }

  /** Two sealed entries carry the same hash exactly when they agree on all that is hashed. */
  lemma SealedAgree(hash: string -> string, d: AuditEntry, e: AuditEntry)
    requires IdealHash(hash) && Sealed(hash, d) && Sealed(hash, e)
    requires WellFormed(d.input.payload) && WellFormed(e.input.payload)
    ensures d.hash == e.hash <==> SameButCreatedAt(d, e)
  {
    var v, w := Hashed(d.prevHash, d.seqNo, d.input), Hashed(e.prevHash, e.seqNo, e.input);
    HashedWellFormed(d.prevHash, d.seqNo, d.input);
    HashedWellFormed(e.prevHash, e.seqNo, e.input);
    StringifyIffEquiv(v, w);
    HashedEquiv(d.prevHash, d.seqNo, d.input, e.prevHash, e.seqNo, e.input);
  }

  /** Tamper evidence: the last hash determines an accepted chain, up to `created_at` and payload key order. */
  lemma {:induction false} TipDeterminesChain(hash: string -> string, ds: seq<AuditEntry>, es: seq<AuditEntry>)
    requires IdealHash(hash) && Chained(hash, ds) && Chained(hash, es)
    requires WellFormedEntries(ds) && WellFormedEntries(es)
    requires TipHash(ds) == TipHash(es)
    ensures |ds| == |es|
    ensures forall i :: 0 <= i < |ds| ==> SameButCreatedAt(ds[i], es[i])
  {
    hide ComputeHash;
    TipNotGenesis(hash, ds);
    TipNotGenesis(hash, es);
    if ds != [] {
      var m, n := |ds| - 1, |es| - 1;
      LastEntriesAgree(hash, ds, es);
      TipDeterminesChain(hash, ds[..m], es[..n]);
      forall i | 0 <= i < m ensures SameButCreatedAt(ds[i], es[i]) {
        assert ds[..m][i] == ds[i] && es[..n][i] == es[i];
      }
    }
  }

  lemma LastEntriesAgree(hash: string -> string, ds: seq<AuditEntry>, es: seq<AuditEntry>)
    requires IdealHash(hash) && Chained(hash, ds) && Chained(hash, es)
    requires WellFormedEntries(ds) && WellFormedEntries(es)
    requires ds != [] && es != [] && ds[|ds| - 1].hash == es[|es| - 1].hash
    ensures SameButCreatedAt(ds[|ds| - 1], es[|es| - 1])
    ensures TipHash(ds[..|ds| - 1]) == TipHash(es[..|es| - 1])
    ensures Chained(hash, ds[..|ds| - 1]) && Chained(hash, es[..|es| - 1])
    ensures WellFormedEntries(ds[..|ds| - 1]) && WellFormedEntries(es[..|es| - 1])
  {
    hide ComputeHash, Sealed, Chained, IdealHash, SameInput, WellFormed;
    var d := LastOf(hash, ds);
    var e := LastOf(hash, es);
    SealedAgree(hash, d, e);
  }

  /** The last entry of a chain is sealed and names the hash of the chain without it. */
  lemma LastOf(hash: string -> string, es: seq<AuditEntry>) returns (e: AuditEntry)
    requires es != [] && Chained(hash, es) && WellFormedEntries(es)
    ensures e == es[|es| - 1] && Sealed(hash, e) && WellFormed(e.input.payload)
    ensures e.prevHash == TipHash(es[..|es| - 1])
    ensures Chained(hash, es[..|es| - 1]) && WellFormedEntries(es[..|es| - 1])
  {
    hide ComputeHash, WellFormed;
    e := es[|es| - 1];
    assert LinkedAt(hash, es, |es| - 1);
    PrefixAccepted(hash, es, |es| - 1);
  }

  lemma TipNotGenesis(hash: string -> string, es: seq<AuditEntry>)
    requires IdealHash(hash) && Chained(hash, es)
    ensures TipHash(es) == GENESIS_HASH <==> es == []
  {
    if es != [] {
      assert LinkedAt(hash, es, |es| - 1);
    }
  }

  /**
    Reading a log back with payload keys in another order, and with any timestamps, changes no verdict.
   */
  lemma ReloadedChain(hash: string -> string, ds: seq<AuditEntry>, es: seq<AuditEntry>)
    requires WellFormedEntries(ds) && WellFormedEntries(es)
    requires |ds| == |es| && forall i :: 0 <= i < |ds| ==> SameButCreatedAt(ds[i], es[i])
    ensures Chained(hash, ds) <==> Chained(hash, es)
  {
    hide ComputeHash, SameInput;
    forall i | 0 <= i < |ds| ensures LinkedAt(hash, ds, i) <==> LinkedAt(hash, es, i) {
      SealedAlike(hash, ds[i], es[i]);
    }
  }

  lemma SealedAlike(hash: string -> string, d: AuditEntry, e: AuditEntry)
    requires SameButCreatedAt(d, e) && WellFormed(d.input.payload) && WellFormed(e.input.payload)
    ensures Sealed(hash, d) <==> Sealed(hash, e)
  {
    HashedWellFormed(d.prevHash, d.seqNo, d.input);
    HashedWellFormed(e.prevHash, e.seqNo, e.input);
    StringifyIffEquiv(Hashed(d.prevHash, d.seqNo, d.input), Hashed(e.prevHash, e.seqNo, e.input));
    HashedEquiv(d.prevHash, d.seqNo, d.input, e.prevHash, e.seqNo, e.input);
  }
}
