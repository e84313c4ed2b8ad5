/**
  A reader of JSON texts (RFC 8259), written from the grammar and not from the printer: what the canonical text
  says, and the order its keys stand in.
 */
module JsonReader {
  import opened Wrappers
  import opened Sorting
  import opened Json
  import opened JsonUnique

  // ---- The order of keys ----

  /** Dictionary order of characters: a prefix, or smaller at the first difference. */
  ghost predicate InOrder(a: string, b: string) {
    a <= b || exists k :: SmallerAt(a, b, k)
  }

  predicate SmallerAt(a: string, b: string, k: nat) { k < |a| && k < |b| && a[..k] == b[..k] && a[k] < b[k] }

  lemma {:induction false} StringLeqIsInOrder(a: string, b: string)
    ensures StringLeq(a, b) <==> InOrder(a, b)
  {
    if a == [] {
      assert a <= b;
    } else if b != [] {
      if a[0] < b[0] {
        assert SmallerAt(a, b, 0);
      } else if a[0] == b[0] {
        StringLeqIsInOrder(a[1..], b[1..]);
        if k: nat :| SmallerAt(a[1..], b[1..], k) { SmallerLater(a, b, k); }
        if k: nat :| SmallerAt(a, b, k) { SmallerEarlier(a, b, k); }
        assert a == [a[0]] + a[1..] && b == [b[0]] + b[1..];
        assert a <= b <==> a[1..] <= b[1..];
      } else {
        forall k: nat ensures !SmallerAt(a, b, k) { FirstDecides(a, b, k); }
      }
    }
  }

  lemma FirstDecides(a: string, b: string, k: nat)
    requires a != [] && b != []
    ensures SmallerAt(a, b, k) ==> a[0] <= b[0]
  {
    if SmallerAt(a, b, k) && k > 0 {
      assert a[..k][0] == a[0] && b[..k][0] == b[0];
    }
  }

  lemma SmallerLater(a: string, b: string, k: nat)
    requires a != [] && b != [] && a[0] == b[0] && SmallerAt(a[1..], b[1..], k)
    ensures SmallerAt(a, b, k + 1)
  {
    assert a[..k + 1] == [a[0]] + a[1..][..k] && b[..k + 1] == [b[0]] + b[1..][..k];
  }

  lemma SmallerEarlier(a: string, b: string, k: nat)
    requires a != [] && b != [] && a[0] == b[0] && SmallerAt(a, b, k)
    ensures k > 0 && SmallerAt(a[1..], b[1..], k - 1)
  {
    if k > 0 { assert a[1..][..k - 1] == a[..k][1..] && b[1..][..k - 1] == b[..k][1..]; }
  }

  /** The keys of every object stand in dictionary order, at every depth. */
  ghost predicate KeysInOrder(v: Json) {
    match v
    case Array(items) => forall i :: 0 <= i < |items| ==> KeysInOrder(items[i])
    case Object(fields) =>
      && (forall i, j :: 0 <= i < j < |fields| ==> InOrder(fields[i].key, fields[j].key))
      && (forall i :: 0 <= i < |fields| ==> KeysInOrder(fields[i].value))
    case _ => true
  }

  lemma {:induction false} CanonIsInOrder(v: Json)
    ensures KeysInOrder(Canon(v))
  {
    match v
    case Array(items) =>
      forall i | 0 <= i < |items| ensures KeysInOrder(Canon(items[i])) { CanonIsInOrder(items[i]); }
    case Object(fields) =>
      var canon := CanonFields(fields);
      var sorted := Sort(canon, KeyLeq);
      KeyLeqIsPreorder();
      SortIsSorted(canon, KeyLeq);
      SameMembers(canon, sorted);
      forall i, j | 0 <= i < j < |sorted| ensures InOrder(sorted[i].key, sorted[j].key) {
        assert KeyLeq(sorted[i], sorted[j]);
        StringLeqIsInOrder(sorted[i].key, sorted[j].key);
      }
      forall i | 0 <= i < |sorted| ensures KeysInOrder(sorted[i].value) {
        assert sorted[i] in canon;
        var k :| 0 <= k < |canon| && canon[k] == sorted[i];
        CanonIsInOrder(fields[k].value);
      }
    case _ =>
  }

  // ---- Strings ----

  datatype Read<T> = Read(value: T, rest: string)

  function HexValue(c: char): Option<nat> {
    if '0' <= c <= '9' then Some(c as int - '0' as int)
    else if 'a' <= c <= 'f' then Some(c as int - 'a' as int + 10)
    else if 'A' <= c <= 'F' then Some(c as int - 'A' as int + 10)
    else None
  }

  function HexNumber(s: string): Option<nat>
    requires |s| == 4
  {
    match (HexValue(s[0]), HexValue(s[1]), HexValue(s[2]), HexValue(s[3]))
    case (Some(a), Some(b), Some(c), Some(d)) => Some(((a * 16 + b) * 16 + c) * 16 + d)
    case _ => None
  }

  /** What follows a backslash. */
  function ReadEscape(s: string): (r: Option<Read<char>>)
    ensures r.Some? ==> |r.value.rest| < |s|
  {
    if s == [] then None
    else if s[0] == '\"' || s[0] == '\\' || s[0] == '/' then Some(Read(s[0], s[1..]))
    else if s[0] == 'b' then Some(Read('\U{8}', s[1..]))
    else if s[0] == 't' then Some(Read('\t', s[1..]))
    else if s[0] == 'n' then Some(Read('\n', s[1..]))
    else if s[0] == 'f' then Some(Read('\U{c}', s[1..]))
    else if s[0] == 'r' then Some(Read('\r', s[1..]))
    else if s[0] == 'u' && |s| >= 5 then
      match HexNumber(s[1..5])
      case Some(n) => if 0xD800 <= n < 0xE000 || n > 0xFFFF then None else Some(Read(n as char, s[5..]))
      case None => None
    else None
  }

  /** The characters up to the closing quote. */
  function ReadString(s: string): (r: Option<Read<string>>)
    ensures r.Some? ==> |r.value.rest| < |s|
    decreases |s|
  {
    if s == [] || s[0] < ' ' then None
    else if s[0] == '\"' then Some(Read("", s[1..]))
    else
      var first := if s[0] == '\\' then ReadEscape(s[1..]) else Some(Read(s[0], s[1..]));
      match first
      case None => None
      case Some(c) =>
        match ReadString(c.rest)
        case None => None
        case Some(r) => Some(Read([c.value] + r.value, r.rest))
  }

  // ---- Values ----

  function Literal(s: string, text: string, v: Json): (r: Option<Read<Json>>)
    requires text != []
    ensures r.Some? ==> |r.value.rest| < |s|
  {
    if text <= s then Some(Read(v, s[|text|..])) else None
  }

  /** The characters of a number. */
  function NumberRun(s: string): (n: nat)
    ensures n <= |s|
  {
    if s != [] && NumberChar(s[0]) then 1 + NumberRun(s[1..]) else 0
  }

  function ReadValue(s: string): (r: Option<Read<Json>>)
    ensures r.Some? ==> |r.value.rest| < |s|
    decreases |s|, 0
  {
    if s == [] then None
    else if s[0] == 'n' then Literal(s, "null", Null)
    else if s[0] == 't' then Literal(s, "true", Bool(true))
    else if s[0] == 'f' then Literal(s, "false", Bool(false))
    else if s[0] == '\"' then
      match ReadString(s[1..])
      case None => None
      case Some(r) => Some(Read(String(r.value), r.rest))
    else if s[0] == '[' then
      if |s| > 1 && s[1] == ']' then Some(Read(Array([]), s[2..]))
      else
        match ReadItems(s[1..])
        case None => None
        case Some(r) => Some(Read(Array(r.value), r.rest))
    else if s[0] == '{' then
      if |s| > 1 && s[1] == '}' then Some(Read(Object([]), s[2..]))
      else
        match ReadFields(s[1..])
        case None => None
        case Some(r) => Some(Read(Object(r.value), r.rest))
    else if NumberChar(s[0]) then Some(Read(Number(s[..NumberRun(s)]), s[NumberRun(s)..]))
    else None
  }

  /** One or more values with commas between them, and the closing bracket. */
  function ReadItems(s: string): (r: Option<Read<seq<Json>>>)
    ensures r.Some? ==> |r.value.rest| < |s|
    decreases |s|, 1
  {
    match ReadValue(s)
    case None => None
    case Some(v) =>
      if v.rest == [] then None
      else if v.rest[0] == ']' then Some(Read([v.value], v.rest[1..]))
      else if v.rest[0] != ',' then None
      else
        match ReadItems(v.rest[1..])
        case None => None
        case Some(r) => Some(Read([v.value] + r.value, r.rest))
  }

  function ReadField(s: string): (r: Option<Read<Field>>)
    ensures r.Some? ==> |r.value.rest| < |s|
    decreases |s|, 1
  {
    if s == [] || s[0] != '\"' then None
    else
      match ReadString(s[1..])
      case None => None
      case Some(k) =>
        if k.rest == [] || k.rest[0] != ':' then None
        else
          match ReadValue(k.rest[1..])
          case None => None
          case Some(v) => Some(Read(Field(k.value, v.value), v.rest))
  }

  /** One or more fields with commas between them, and the closing brace. */
  function ReadFields(s: string): (r: Option<Read<seq<Field>>>)
    ensures r.Some? ==> |r.value.rest| < |s|
    decreases |s|, 2
  {
    match ReadField(s)
    case None => None
    case Some(f) =>
      if f.rest == [] then None
      else if f.rest[0] == '}' then Some(Read([f.value], f.rest[1..]))
      else if f.rest[0] != ',' then None
      else
        match ReadFields(f.rest[1..])
        case None => None
        case Some(r) => Some(Read([f.value] + r.value, r.rest))
  }

  // ---- Reading back what was printed ----

  lemma HexReads(n: nat)
    requires n < 16
    ensures HexValue(HexChar(n)) == Some(n)
    ensures !('A' <= HexChar(n) <= 'Z')
  {
  }

  /** A control character is written in lower-case hexadecimal, with four digits. */
  lemma ControlReads(c: char, x: string)
    requires c < ' '
    ensures ReadEscape("u00" + [HexChar(c as int / 16), HexChar(c as int % 16)] + x) == Some(Read(c, x))
  {
    var h, l := c as int / 16, c as int % 16;
    HexReads(h);
    HexReads(l);
    var s := "u00" + [HexChar(h), HexChar(l)] + x;
    assert s[1..5] == ['0', '0', HexChar(h), HexChar(l)] && s[5..] == x;
    assert h * 16 + l == c as int;
  }

  /** One escaped character, followed by anything, is read back. */
  lemma EscapeReads(c: char, x: string)
    ensures var s := EscapeChar(c) + x;
      && s[0] != '\"' && s[0] >= ' '
      && (if s[0] == '\\' then ReadEscape(s[1..]) == Some(Read(c, x)) else s[0] == c && s[1..] == x)
  {
    var s := EscapeChar(c) + x;
    if c < ' ' && |EscapeChar(c)| > 2 {
      ControlReads(c, x);
      assert s[1..] == "u00" + [HexChar(c as int / 16), HexChar(c as int % 16)] + x;
    } else if |EscapeChar(c)| == 2 {
      assert s[1..] == [EscapeChar(c)[1]] + x;
      assert s[1..][1..] == x;
    } else {
      assert s[1..] == x;
    }
  }

  /**
    Characters are escaped only where they must be, and then as shortly as can be, in lower case: one character
    for all but the quote, the backslash and the controls; two for these and the five controls with a letter.
   */
  lemma EscapeIsShortest(c: char)
    ensures |EscapeChar(c)| == 1 <==> c >= ' ' && c != '\"' && c != '\\'
    ensures |EscapeChar(c)| == 2 <==> c in {'\"', '\\', '\U{8}', '\t', '\n', '\U{c}', '\r'}
    ensures |EscapeChar(c)| == 1 || |EscapeChar(c)| == 2 || |EscapeChar(c)| == 6
    ensures forall i :: 0 <= i < |EscapeChar(c)| && 'A' <= EscapeChar(c)[i] <= 'Z' ==> |EscapeChar(c)| == 1
  {
    if c < ' ' {
      HexReads(c as int / 16);
      HexReads(c as int % 16);
    }
  }

  lemma ReadsOneMore(c: char, later: string, r: Read<string>)
    requires ReadString(later) == Some(r)
    ensures ReadString(EscapeChar(c) + later) == Some(Read([c] + r.value, r.rest))
  {
    EscapeReads(c, later);
    hide EscapeChar, ReadEscape;
  }

  lemma {:induction false} StringReads(t: string, x: string)
    ensures ReadString(Escape(t) + "\"" + x) == Some(Read(t, x))
  {
    var s := Escape(t) + "\"" + x;
    if t == [] {
      assert s == "\"" + x && s[1..] == x;
    } else {
      var later := Escape(t[1..]) + "\"" + x;
      assert s == EscapeChar(t[0]) + later;
      hide ReadString, EscapeChar;
      StringReads(t[1..], x);
      ReadsOneMore(t[0], later, Read(t[1..], x));
      assert t == [t[0]] + t[1..];
    }
  }

  lemma QuoteReads(t: string, x: string)
    ensures var s := Quote(t) + x; s != [] && s[0] == '\"' && ReadString(s[1..]) == Some(Read(t, x))
  {
    StringReads(t, x);
    assert (Quote(t) + x)[1..] == Escape(t) + "\"" + x;
  }

  lemma {:induction false} NumberReads(l: string, x: string)
    requires (forall i :: 0 <= i < |l| ==> NumberChar(l[i])) && Stops(x)
    ensures NumberRun(l + x) == |l|
  {
    if l == [] {
      assert l + x == x;
    } else {
      assert (l + x)[1..] == l[1..] + x;
      NumberReads(l[1..], x);
    }
  }

  lemma NumberValueReads(l: string, x: string)
    requires NumberLiteral(l) && Stops(x)
    ensures ReadValue(l + x) == Some(Read(Number(l), x))
  {
    NumberReads(l, x);
    var s := l + x;
    assert s[0] == l[0] && s[..|l|] == l && s[|l|..] == x;
    hide NumberRun, ReadString, ReadItems, ReadFields;
  }

  lemma WordReads(v: Json, x: string)
    requires v.Null? || v.Bool?
    ensures ReadValue(Print(v) + x) == Some(Read(v, x))
  {
    LiteralReads(Print(v), x);
    hide ReadString, ReadItems, ReadFields, NumberRun;
  }

  lemma StringValueReads(t: string, x: string)
    ensures ReadValue(Quote(t) + x) == Some(Read(String(t), x))
  {
    QuoteReads(t, x);
    hide ReadString, ReadItems, ReadFields, NumberRun, Quote;
  }

  lemma ArrayReads(items: seq<Json>, inner: string, x: string)
    requires if items == [] then inner == "" else inner != [] && inner[0] != ']'
    requires items != [] ==> ReadItems(inner + "]" + x) == Some(Read(items, x))
    ensures ReadValue("[" + inner + "]" + x) == Some(Read(Array(items), x))
  {
    var s := "[" + inner + "]" + x;
    assert s[1..] == inner + "]" + x;
    assert items == [] ==> s[2..] == x;
    hide ReadString, ReadItems, ReadFields, NumberRun;
  }

  lemma ObjectReads(fields: seq<Field>, inner: string, x: string)
    requires if fields == [] then inner == "" else inner != [] && inner[0] != '}'
    requires fields != [] ==> ReadFields(inner + "}" + x) == Some(Read(fields, x))
    ensures ReadValue("{" + inner + "}" + x) == Some(Read(Object(fields), x))
  {
    var s := "{" + inner + "}" + x;
    assert s[1..] == inner + "}" + x;
    assert fields == [] ==> s[2..] == x;
    hide ReadString, ReadItems, ReadFields, NumberRun;
  }

  /** Every well-formed value is read back from its printing, whatever follows that does not continue a number. */
  lemma {:induction false} PrintReadsBack(v: Json, x: string)
    requires WellFormed(v) && Stops(x)
    ensures ReadValue(Print(v) + x) == Some(Read(v, x))
    decreases v, 1
  {
    hide ReadValue, ReadItems, ReadFields, Stops;
    match v
    case Number(l) => NumberValueReads(l, x);
    case String(t) => StringValueReads(t, x);
    case Array(items) =>
      if items != [] {
        ItemsReadBack(items, x);
        ItemsStart(items);
      }
      ArrayReads(items, PrintItems(items), x);
    case Object(fields) =>
      if fields != [] {
        FieldsReadBack(fields, x);
        FieldsStart(fields);
      }
      ObjectReads(fields, PrintFields(fields), x);
    case _ => WordReads(v, x);
  }

  lemma ItemsStart(items: seq<Json>)
    requires items != [] && WellFormed(items[0])
    ensures PrintItems(items) != [] && PrintItems(items)[0] != ']'
  {
    PrintStartsValue(items[0]);
  }

  lemma LiteralReads(text: string, x: string)
    ensures text <= text + x && (text + x)[|text|..] == x
  {
  }

  /** No printing starts with a closing bracket. */
  lemma PrintStartsValue(v: Json)
    requires WellFormed(v)
    ensures Print(v) != [] && Print(v)[0] != ']'
  {
  }

  lemma FieldsStart(fields: seq<Field>)
    requires fields != []
    ensures PrintFields(fields) != [] && PrintFields(fields)[0] == '\"'
  {
    assert Quote(fields[0].key)[0] == '\"';
  }

  lemma StopsAtMarks(x: string)
    ensures Stops("]" + x) && Stops("}" + x) && Stops("," + x)
  {
  }

  lemma {:induction false} ItemsReadBack(items: seq<Json>, x: string)
    requires items != [] && forall i :: 0 <= i < |items| ==> WellFormed(items[i])
    ensures ReadItems(PrintItems(items) + "]" + x) == Some(Read(items, x))
    decreases items, 0
  {
    var s := PrintItems(items) + "]" + x;
    if |items| == 1 {
      assert s == Print(items[0]) + ("]" + x);
      PrintReadsBack(items[0], "]" + x);
      assert ("]" + x)[1..] == x && items == [items[0]];
    } else {
      var later := PrintItems(items[1..]) + "]" + x;
      assert s == Print(items[0]) + ("," + later);
      PrintReadsBack(items[0], "," + later);
      assert ("," + later)[1..] == later;
      ItemsReadBack(items[1..], x);
      assert items == [items[0]] + items[1..];
    }
  }

  lemma {:induction false} FieldReadsBack(f: Field, x: string)
    requires WellFormed(f.value) && Stops(x)
    ensures ReadField(PrintField(f) + x) == Some(Read(f, x))
    decreases f, 2
  {
    hide ReadValue, ReadString, Quote, Print, Stops;
    var after := ":" + Print(f.value) + x;
    assert PrintField(f) + x == Quote(f.key) + after;
    QuoteReads(f.key, after);
    assert after[1..] == Print(f.value) + x;
    PrintReadsBack(f.value, x);
  }

  lemma {:induction false} FieldsReadBack(fields: seq<Field>, x: string)
    requires fields != [] && forall i :: 0 <= i < |fields| ==> WellFormed(fields[i].value)
    ensures ReadFields(PrintFields(fields) + "}" + x) == Some(Read(fields, x))
    decreases fields, 0
  {
    hide ReadField, PrintField, Stops;
    var s := PrintFields(fields) + "}" + x;
    if |fields| == 1 {
      assert s == PrintField(fields[0]) + ("}" + x);
      StopsAtMarks(x);
      FieldReadsBack(fields[0], "}" + x);
      assert ("}" + x)[1..] == x && fields == [fields[0]];
    } else {
      var later := PrintFields(fields[1..]) + "}" + x;
      StopsAtMarks(later);
      assert s == PrintField(fields[0]) + ("," + later);
      FieldReadsBack(fields[0], "," + later);
      assert ("," + later)[1..] == later;
      FieldsReadBack(fields[1..], x);
      assert fields == [fields[0]] + fields[1..];
    }
  }

  /**
    What the canonical text says: reading it back gives a value equal to the printed one up to key order, with
    the keys of every object in dictionary order, and nothing left over.
   */
  lemma CanonicalTextReadsBack(v: Json)
    requires WellFormed(v)
    ensures ReadValue(StableStringify(v)) == Some(Read(Canon(v), ""))
    ensures Equiv(v, Canon(v)) && KeysInOrder(Canon(v))
  {
    CanonWellFormed(v);
    StringifyPrintsCanon(v);
    PrintReadsBack(Canon(v), "");
    assert Print(Canon(v)) + "" == Print(Canon(v));
    CanonIsInOrder(v);
    CanonTwice(v);
    EquivIffCanon(v, Canon(v));
  }

  /** Ordering keys twice is ordering them once. */
  lemma {:induction false} CanonTwice(v: Json)
    requires WellFormed(v)
    ensures Canon(Canon(v)) == Canon(v)
  {
    CanonWellFormed(v);
    match v
    case Array(items) =>
      forall i | 0 <= i < |items| ensures Canon(Canon(items[i])) == Canon(items[i]) { CanonTwice(items[i]); }
      assert CanonItems(CanonItems(items)) == CanonItems(items);
    case Object(fields) =>
      var canon := CanonFields(fields);
      var sorted := Sort(canon, KeyLeq);
      SameMembers(canon, sorted);
      forall f | f in canon ensures Canon(f.value) == f.value {
        var k :| 0 <= k < |canon| && canon[k] == f;
        CanonTwice(fields[k].value);
      }
      assert forall i :: 0 <= i < |sorted| ==> sorted[i] in canon;
      assert CanonFields(sorted) == sorted;
      SortedFieldsEqual(sorted, canon);
    case _ =>
  }
}
