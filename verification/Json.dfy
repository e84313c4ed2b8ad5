/**
  JSON values and the canonical printer that the audit log hashes.

  A JavaScript object keeps its keys in insertion order, so an object is a sequence of fields.  A finite
  number is represented by the literal it prints as.
 */
module Json {
  import opened Sorting

  datatype Json =
    | Null
    | Bool(b: bool)
    | Number(literal: string)
    | String(text: string)
    | Array(items: seq<Json>)
    | Object(fields: seq<Field>)

  datatype Field = Field(key: string, value: Json)

  predicate NumberChar(c: char) {
    '0' <= c <= '9' || c == '+' || c == '-' || c == '.' || c == 'e'
  }

  predicate NumberLiteral(s: string) {
    s != [] && forall i :: 0 <= i < |s| ==> NumberChar(s[i])
  }

  predicate DistinctKeys(fields: seq<Field>) {
    forall i, j :: 0 <= i < j < |fields| ==> fields[i].key != fields[j].key
  }

  predicate WellFormed(v: Json) {
    match v
    case Number(l) => NumberLiteral(l)
    case Array(items) => forall i :: 0 <= i < |items| ==> WellFormed(items[i])
    case Object(fields) =>
      DistinctKeys(fields) && forall i :: 0 <= i < |fields| ==> WellFormed(fields[i].value)
    case _ => true
  }

  // ---- Printing strings (section 7 of RFC 8259) ----

  function HexChar(n: nat): char
    requires n < 16
  {
    if n < 10 then ('0' as int + n) as char else ('a' as int + n - 10) as char
  }

  function EscapeChar(c: char): (s: string)
    ensures s != [] && s[0] != '\"'
    ensures s[0] == '\\' ==> |s| >= 2
  {
    if c == '\"' then "\\\""
    else if c == '\\' then "\\\\"
    else if c == 8 as char then "\\b"
    else if c == 9 as char then "\\t"
    else if c == 10 as char then "\\n"
    else if c == 12 as char then "\\f"
    else if c == 13 as char then "\\r"
    else if c < ' ' then "\\u00" + [HexChar(c as int / 16), HexChar(c as int % 16)]
    else [c]
  }

  function Escape(s: string): string {
    if s == [] then [] else EscapeChar(s[0]) + Escape(s[1..])
  }

  function Quote(s: string): string { "\"" + Escape(s) + "\"" }

  // ---- The canonical printer ----

  predicate StringLeq(a: string, b: string) {
    a == [] || (b != [] && (a[0] < b[0] || (a[0] == b[0] && StringLeq(a[1..], b[1..]))))
  }

  /** A key with the text of its value. */
  datatype Member = Member(key: string, text: string)

  predicate MemberLeq(a: Member, b: Member) { StringLeq(a.key, b.key) }

  function Join(parts: seq<string>): string {
    if |parts| == 0 then ""
    else if |parts| == 1 then parts[0]
    else parts[0] + "," + Join(parts[1..])
  }

  function MemberTexts(ms: seq<Member>): seq<string> {
    if ms == [] then [] else [Quote(ms[0].key) + ":" + ms[0].text] + MemberTexts(ms[1..])
  }

  function StableStringify(v: Json): string
    decreases v, 1
  {
    match v
    case Null => "null"
    case Bool(b) => if b then "true" else "false"
    case Number(l) => l
    case String(t) => Quote(t)
    case Array(items) => "[" + Join(StringifyItems(items)) + "]"
    case Object(fields) => "{" + Join(MemberTexts(Sort(StringifyFields(fields), MemberLeq))) + "}"
  }

  function StringifyItems(items: seq<Json>): seq<string>
    decreases items, 0
  {
    if items == [] then [] else [StableStringify(items[0])] + StringifyItems(items[1..])
  }

  function StringifyFields(fields: seq<Field>): seq<Member>
    decreases fields, 0
  {
    if fields == [] then []
    else [Member(fields[0].key, StableStringify(fields[0].value))] + StringifyFields(fields[1..])
  }

  // ---- The reference: printing a value whose keys are already in order ----

  predicate KeyLeq(a: Field, b: Field) { StringLeq(a.key, b.key) }

  /** The value with the keys of every object put in order. */
  function Canon(v: Json): Json
    decreases v, 1
  {
    match v
    case Array(items) => Array(CanonItems(items))
    case Object(fields) => Object(Sort(CanonFields(fields), KeyLeq))
    case _ => v
  }

  function CanonItems(items: seq<Json>): (r: seq<Json>)
    ensures |r| == |items|
    ensures forall i :: 0 <= i < |items| ==> r[i] == Canon(items[i])
    decreases items, 0
  {
    if items == [] then [] else [Canon(items[0])] + CanonItems(items[1..])
  }

  function CanonFields(fields: seq<Field>): (r: seq<Field>)
    ensures |r| == |fields|
    ensures forall i :: 0 <= i < |fields| ==> r[i] == Field(fields[i].key, Canon(fields[i].value))
    decreases fields, 0
  {
    if fields == [] then []
    else [Field(fields[0].key, Canon(fields[0].value))] + CanonFields(fields[1..])
  }

  function Print(v: Json): (s: string)
    decreases v, 1
  {
    match v
    case Null => "null"
    case Bool(b) => if b then "true" else "false"
    case Number(l) => l
    case String(t) => Quote(t)
    case Array(items) => "[" + PrintItems(items) + "]"
    case Object(fields) => "{" + PrintFields(fields) + "}"
  }

  function PrintItems(items: seq<Json>): string
    decreases items, 0
  {
    if |items| == 0 then ""
    else if |items| == 1 then Print(items[0])
    else Print(items[0]) + "," + PrintItems(items[1..])
  }

  function PrintField(f: Field): string
    decreases f, 2
  {
    Quote(f.key) + ":" + Print(f.value)
  }

  function PrintFields(fields: seq<Field>): string
    decreases fields, 0
  {
    if |fields| == 0 then ""
    else if |fields| == 1 then PrintField(fields[0])
    else PrintField(fields[0]) + "," + PrintFields(fields[1..])
  }

  function Printed(fields: seq<Field>): seq<Member> {
    if fields == [] then [] else [Member(fields[0].key, Print(fields[0].value))] + Printed(fields[1..])
  }

  lemma {:induction false} InsertPrinted(f: Field, gs: seq<Field>)
    ensures Insert(Member(f.key, Print(f.value)), Printed(gs), MemberLeq) == Printed(Insert(f, gs, KeyLeq))
  {
    if gs != [] && !KeyLeq(f, gs[0]) {
      InsertPrinted(f, gs[1..]);
      assert Insert(f, gs, KeyLeq)[1..] == Insert(f, gs[1..], KeyLeq);
    }
  }

  lemma {:induction false} SortPrinted(gs: seq<Field>)
    ensures Sort(Printed(gs), MemberLeq) == Printed(Sort(gs, KeyLeq))
  {
    if gs != [] {
      SortPrinted(gs[1..]);
      InsertPrinted(gs[0], Sort(gs[1..], KeyLeq));
    }
  }

  lemma {:induction false} JoinPrinted(gs: seq<Field>)
    ensures Join(MemberTexts(Printed(gs))) == PrintFields(gs)
  {
    if gs != [] {
      JoinPrinted(gs[1..]);
      var texts := MemberTexts(Printed(gs));
      assert Printed(gs)[1..] == Printed(gs[1..]);
      assert texts[1..] == MemberTexts(Printed(gs[1..]));
      if |gs| == 1 {
        assert texts == [PrintField(gs[0])];
      } else {
        assert gs[1..] == [gs[1]] + gs[2..];
        assert |texts| >= 2;
      }
    }
  }

  /** The canonical printer prints the value with its keys in order, and nothing else. */
  lemma {:induction false} StringifyPrintsCanon(v: Json)
    ensures StableStringify(v) == Print(Canon(v))
    decreases v, 1
  {
    match v
    case Array(items) => ItemsPrintCanon(items);
    case Object(fields) =>
      FieldsPrintCanon(fields);
      SortPrinted(CanonFields(fields));
      JoinPrinted(Sort(CanonFields(fields), KeyLeq));
    case _ =>
  }

  lemma {:induction false} ItemsPrintCanon(items: seq<Json>)
    ensures Join(StringifyItems(items)) == PrintItems(CanonItems(items))
    decreases items, 0
  {
    if items != [] {
      StringifyPrintsCanon(items[0]);
      ItemsPrintCanon(items[1..]);
      assert StringifyItems(items)[1..] == StringifyItems(items[1..]);
      assert CanonItems(items)[1..] == CanonItems(items[1..]);
      if |items| > 1 {
        assert items[1..] == [items[1]] + items[2..];
      }
    }
  }

  lemma {:induction false} FieldsPrintCanon(fields: seq<Field>)
    ensures StringifyFields(fields) == Printed(CanonFields(fields))
    decreases fields, 0
  {
    if fields != [] {
      StringifyPrintsCanon(fields[0].value);
      FieldsPrintCanon(fields[1..]);
      assert CanonFields(fields)[1..] == CanonFields(fields[1..]);
    }
  }
}
