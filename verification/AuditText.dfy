/** What the audit log's hashes are taken of, and what an accepted chain is, said without the log's own predicates. */
module AuditText {
  import opened Wrappers
  import opened Sorting
  import opened Digits
  import opened Json
  import opened JsonUnique
  import opened JsonReader
  import opened AuditLog

  /** The fields of the hashed object, by their names in the log. */
  ghost predicate IsHashedField(f: Field, prevHash: string, seqNo: nat, input: AuditInput) {
    || f == Field("seq", Number(NatText(seqNo)))
    || f == Field("client_id", if input.clientId.Some? then String(input.clientId.value) else Null)
    || f == Field("actor", String(input.actor))
    || (f.key == "actor_kind" && input.actorKind == System && f.value == String("system"))
    || (f.key == "actor_kind" && input.actorKind == User && f.value == String("user"))
    || (f.key == "actor_kind" && input.actorKind == Llm && f.value == String("llm"))
    || f == Field("action", String(input.action))
    || f == Field("subject_ref", String(input.subjectRef))
    || f == Field("payload", Canon(input.payload))
    || f == Field("prev_hash", String(prevHash))
  }

  /**
    The text whose hash an entry carries, read back: one object with exactly the eight fields of the entry under
    their names, `created_at` not among them, keys in dictionary order at every depth.
   */
  lemma HashedTextSays(prevHash: string, seqNo: nat, input: AuditInput)
    requires WellFormed(input.payload)
    ensures var r := ReadValue(StableStringify(Hashed(prevHash, seqNo, input)));
      && r.Some? && r.value.rest == "" && r.value.value.Object? && KeysInOrder(r.value.value)
      && |r.value.value.fields| == 8
      && (forall f :: f in r.value.value.fields <==> IsHashedField(f, prevHash, seqNo, input))
  {
    var v := Hashed(prevHash, seqNo, input);
    HashedWellFormed(prevHash, seqNo, input);
    CanonicalTextReadsBack(v);
    hide ReadValue, StableStringify, KeysInOrder, WellFormed, NatText;
    var canon := CanonFields(v.fields);
    SameMembers(canon, Sort(canon, KeyLeq));
    hide Sort;
    forall f ensures f in canon <==> IsHashedField(f, prevHash, seqNo, input) {
      CanonMembers(v.fields, prevHash, seqNo, input, f);
    }
  }

  lemma CanonMembers(fields: seq<Field>, prevHash: string, seqNo: nat, input: AuditInput, f: Field)
    requires fields == Hashed(prevHash, seqNo, input).fields
    ensures f in CanonFields(fields) <==> IsHashedField(f, prevHash, seqNo, input)
  {
    var canon := CanonFields(fields);
    assert |canon| == 8;
    hide Canon;
    assert f in canon <==> f == canon[0] || f == canon[1] || f == canon[2] || f == canon[3]
                           || f == canon[4] || f == canon[5] || f == canon[6] || f == canon[7];
  }

  /** The hash that stands before the first entry: 64 zeros. */
  lemma GenesisIsZeros()
    ensures |GENESIS_HASH| == 64 && forall i :: 0 <= i < 64 ==> GENESIS_HASH[i] == '0'
  {
  }

  /** Numbers strictly increasing throughout. */
  ghost predicate NumbersIncrease(entries: seq<AuditEntry>) {
    forall i, j :: 0 <= i < j < |entries| ==> entries[i].seqNo < entries[j].seqNo
  }

  /** Every entry names the hash of the one before it, the first one the genesis value. */
  ghost predicate HashesLink(entries: seq<AuditEntry>) {
    && (entries != [] ==> entries[0].prevHash == GENESIS_HASH)
    && (forall i :: 0 < i < |entries| ==> entries[i].prevHash == entries[i - 1].hash)
  }

  /** Every hash is that of the entry's own text. */
  ghost predicate HashesMatch(hash: string -> string, entries: seq<AuditEntry>) {
    forall i | 0 <= i < |entries| ::
      entries[i].hash == hash(StableStringify(Hashed(entries[i].prevHash, entries[i].seqNo, entries[i].input)))
  }

  /** What being accepted means, for the chain as a whole. */
  lemma AcceptedMeans(hash: string -> string, entries: seq<AuditEntry>)
    ensures Chained(hash, entries) <==> NumbersIncrease(entries) && HashesLink(entries) && HashesMatch(hash, entries)
  {
    hide StableStringify, Hashed;
    if Chained(hash, entries) {
      forall i, j | 0 <= i < j < |entries| ensures entries[i].seqNo < entries[j].seqNo {
        NumbersRise(hash, entries, i, j);
      }
      forall i | 0 <= i < |entries|
        ensures entries[i].hash
             == hash(StableStringify(Hashed(entries[i].prevHash, entries[i].seqNo, entries[i].input)))
      {
        assert LinkedAt(hash, entries, i);
      }
      if entries != [] { assert LinkedAt(hash, entries, 0); }
      forall i | 0 < i < |entries| ensures entries[i].prevHash == entries[i - 1].hash {
        assert LinkedAt(hash, entries, i);
      }
    }
    if NumbersIncrease(entries) && HashesLink(entries) && HashesMatch(hash, entries) {
      assert forall i :: 0 <= i < |entries| ==> LinkedAt(hash, entries, i);
    }
  }

  lemma {:induction false} NumbersRise(hash: string -> string, entries: seq<AuditEntry>, i: nat, j: nat)
    requires Chained(hash, entries) && i < j < |entries|
    ensures entries[i].seqNo < entries[j].seqNo
  {
    hide ComputeHash;
    assert LinkedAt(hash, entries, j);
    if i + 1 < j { NumbersRise(hash, entries, i, j - 1); }
  }
}
