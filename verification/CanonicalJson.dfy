/** The canonical JSON printer behind the audit fingerprints, on sequences of UTF-16
    code units. */
module CanonicalJson {

  type CodeUnit = u: int | 0 <= u < 0x1_0000

  type Text = seq<CodeUnit>

  datatype Field = Field(key: Text, value: Json)

  /** A number is its JSON text; an object lists its fields in insertion order. */
  datatype Json =
    | Undefined
    | Null
    | Bool(value: bool)
    | Number(text: Text)
    | Str(chars: Text)
    | Arr(items: seq<Json>)
    | Obj(fields: seq<Field>)

  /** The code units of an ASCII literal. */
  function Ascii(s: string): Text {
    seq(|s|, i requires 0 <= i < |s| => if s[i] as int < 0x1_0000 then s[i] as int else 0)
  }

  datatype Printed = NoText | Printed(text: Text)

  const QUOTE: CodeUnit := 34
  const COMMA: CodeUnit := 44
  const COLON: CodeUnit := 58
  const OPEN_BRACKET: CodeUnit := 91
  const BACKSLASH: CodeUnit := 92
  const CLOSE_BRACKET: CodeUnit := 93
  const OPEN_BRACE: CodeUnit := 123
  const CLOSE_BRACE: CodeUnit := 125

  const NULL_TEXT: Text := [110, 117, 108, 108]
  const TRUE_TEXT: Text := [116, 114, 117, 101]
  const FALSE_TEXT: Text := [102, 97, 108, 115, 101]
  const UNDEFINED_TEXT: Text := [117, 110, 100, 101, 102, 105, 110, 101, 100]

  // ---------- well-formed values ----------

  predicate IsDigit(u: CodeUnit) { 48 <= u <= 57 }

  /** Digits, sign, point and exponent: section 6 of RFC 8259. */
  predicate IsNumberUnit(u: CodeUnit) {
    IsDigit(u) || u == 43 || u == 45 || u == 46 || u == 69 || u == 101
  }

  predicate IsNumberText(t: Text) {
    && |t| > 0
    && (t[0] == 45 || IsDigit(t[0]))
    && forall i :: 0 <= i < |t| ==> IsNumberUnit(t[i])
  }

  predicate DistinctKeys(fields: seq<Field>) {
    forall i, j :: 0 <= i < j < |fields| ==> fields[i].key != fields[j].key
  }

  predicate WellFormed(v: Json) {
    match v
    case Number(text) => IsNumberText(text)
    case Arr(items) => forall item <- items :: WellFormed(item)
    case Obj(fields) => DistinctKeys(fields) && forall f <- fields :: WellFormed(f.value)
    case _ => true
  }

  // ---------- object access ----------

  function Keys(fields: seq<Field>): (ks: seq<Text>)
    ensures |ks| == |fields|
    ensures forall i :: 0 <= i < |fields| ==> ks[i] == fields[i].key
  {
    seq(|fields|, i requires 0 <= i < |fields| => fields[i].key)
  }

  predicate HasKey(fields: seq<Field>, key: Text) {
    exists i :: 0 <= i < |fields| && fields[i].key == key
  }

  function Lookup(fields: seq<Field>, key: Text): (v: Json)
    requires HasKey(fields, key)
    ensures exists i :: 0 <= i < |fields| && fields[i].key == key && fields[i].value == v
  {
    if fields[0].key == key then
      fields[0].value
    else
      assert HasKey(fields[1..], key) by {
        var i :| 0 <= i < |fields| && fields[i].key == key;
        assert fields[1..][i - 1].key == key;
      }
      var v := Lookup(fields[1..], key);
      assert exists i :: 0 <= i < |fields| && fields[i].key == key && fields[i].value == v by {
        var i :| 0 <= i < |fields[1..]| && fields[1..][i].key == key && fields[1..][i].value == v;
        assert fields[i + 1].key == key;
      }
      v
  }

  // ---------- key order ----------

  /** Strictly before, by code units: the order Array.prototype.sort uses on strings. */
  predicate Below(a: Text, b: Text) {
    if a == [] then b != []
    else if b == [] then false
    else a[0] < b[0] || (a[0] == b[0] && Below(a[1..], b[1..]))
  }

  function Insert(key: Text, sorted: seq<Text>): (r: seq<Text>)
    ensures multiset(r) == multiset(sorted) + multiset{key}
  {
    if sorted == [] then [key]
    else
      assert sorted == [sorted[0]] + sorted[1..];
      if Below(sorted[0], key) then [sorted[0]] + Insert(key, sorted[1..])
      else [key] + sorted
  }

  function SortKeys(keys: seq<Text>): (r: seq<Text>)
    ensures multiset(r) == multiset(keys)
  {
    if keys == [] then []
    else
      assert keys == [keys[0]] + keys[1..];
      Insert(keys[0], SortKeys(keys[1..]))
  }

  // ---------- strings: JSON quoting, section 7 of RFC 8259 ----------

  predicate IsHighSurrogate(u: CodeUnit) { 0xD800 <= u < 0xDC00 }

  predicate IsLowSurrogate(u: CodeUnit) { 0xDC00 <= u < 0xE000 }

  function HexDigit(n: int): CodeUnit
    requires 0 <= n < 16
  {
    if n < 10 then 48 + n else 87 + n
  }

  function UnicodeEscape(u: CodeUnit): Text {
    [BACKSLASH, 117, HexDigit(u / 4096), HexDigit(u / 256 % 16), HexDigit(u / 16 % 16), HexDigit(u % 16)]
  }

  function Escaped(u: CodeUnit): Text {
    if u == 8 then [BACKSLASH, 98]
    else if u == 9 then [BACKSLASH, 116]
    else if u == 10 then [BACKSLASH, 110]
    else if u == 12 then [BACKSLASH, 102]
    else if u == 13 then [BACKSLASH, 114]
    else if u == QUOTE then [BACKSLASH, QUOTE]
    else if u == BACKSLASH then [BACKSLASH, BACKSLASH]
    else if u < 32 || IsHighSurrogate(u) || IsLowSurrogate(u) then UnicodeEscape(u)
    else [u]
  }

  predicate StartsWithPair(s: Text) {
    |s| >= 2 && IsHighSurrogate(s[0]) && IsLowSurrogate(s[1])
  }

  /** Surrogate pairs stay; a lone surrogate is escaped. */
  function QuoteBody(s: Text): Text {
    if s == [] then []
    else if StartsWithPair(s) then [s[0], s[1]] + QuoteBody(s[2..])
    else Escaped(s[0]) + QuoteBody(s[1..])
  }

  function Quote(s: Text): Text {
    [QUOTE] + QuoteBody(s) + [QUOTE]
  }

  // ---------- the printer ----------

  function StableStringify(v: Json): Printed
    decreases v, 1
  {
    match v
    case Undefined => NoText
    case Null => Printed(NULL_TEXT)
    case Bool(b) => Printed(if b then TRUE_TEXT else FALSE_TEXT)
    case Number(text) => Printed(text)
    case Str(chars) => Printed(Quote(chars))
    case Arr(items) => Printed([OPEN_BRACKET] + PrintItems(items) + [CLOSE_BRACKET])
    case Obj(fields) =>
      var keys := SortKeys(Keys(fields));
      assert forall k <- keys :: HasKey(fields, k) by { SortedKeysArePresent(fields); }
      Printed([OPEN_BRACE] + PrintFields(v, keys) + [CLOSE_BRACE])
  }

  /** Array elements are joined by commas, where undefined joins as nothing. */
  function PrintItems(items: seq<Json>): Text
    decreases items, 0
  {
    if items == [] then []
    else if |items| == 1 then ItemText(StableStringify(items[0]))
    else ItemText(StableStringify(items[0])) + [COMMA] + PrintItems(items[1..])
  }

  function ItemText(p: Printed): Text {
    match p
    case NoText => []
    case Printed(text) => text
  }

  /** Object values are interpolated, where undefined reads "undefined". */
  function ValueText(p: Printed): Text {
    match p
    case NoText => UNDEFINED_TEXT
    case Printed(text) => text
  }

  function PrintFields(v: Json, keys: seq<Text>): Text
    requires v.Obj? && forall k <- keys :: HasKey(v.fields, k)
    decreases v, 0, |keys|
  {
    if keys == [] then []
    else
      var field := Quote(keys[0]) + [COLON] + ValueText(StableStringify(Lookup(v.fields, keys[0])));
      if |keys| == 1 then field else field + [COMMA] + PrintFields(v, keys[1..])
  }

  lemma SortedKeysArePresent(fields: seq<Field>)
    ensures forall k <- SortKeys(Keys(fields)) :: HasKey(fields, k)
  {
    forall k <- SortKeys(Keys(fields))
      ensures HasKey(fields, k)
    {
      assert k in multiset(SortKeys(Keys(fields)));
      var i :| 0 <= i < |fields| && Keys(fields)[i] == k;
    }
  }

  // ---------- equality up to key order ----------

  predicate SameKeys(f: seq<Field>, g: seq<Field>) {
    && |f| == |g|
    && forall i :: 0 <= i < |f| ==> HasKey(g, f[i].key)
  }

  /** Equal up to the order of object keys. */
  predicate Same(v: Json, w: Json) {
    match (v, w)
    case (Arr(a), Arr(b)) =>
      |a| == |b| && forall i :: 0 <= i < |a| ==> Same(a[i], b[i])
    case (Obj(f), Obj(g)) =>
      SameKeys(f, g) && forall i :: 0 <= i < |f| ==> Same(f[i].value, Lookup(g, f[i].key))
    case _ => v == w
  }

  /** What an array shows of its items: a lone undefined prints like no item at all. */
  function Shown(items: seq<Json>): (r: seq<Json>)
    ensures forall item <- r :: item in items
  {
    if items == [Undefined] then [] else items
  }

  /** Equal up to key order, reading an array of a lone undefined as an empty one. */
  predicate Alike(v: Json, w: Json) {
    match (v, w)
    case (Arr(a), Arr(b)) =>
      |Shown(a)| == |Shown(b)| && forall i :: 0 <= i < |Shown(a)| ==> Alike(a[i], Shown(b)[i])
    case (Obj(f), Obj(g)) =>
      SameKeys(f, g) && forall i :: 0 <= i < |f| ==> Alike(f[i].value, Lookup(g, f[i].key))
    case _ => v == w
  }

  predicate NoLoneUndefined(v: Json) {
    match v
    case Arr(items) => items != [Undefined] && forall item <- items :: NoLoneUndefined(item)
    case Obj(fields) => forall f <- fields :: NoLoneUndefined(f.value)
    case _ => true
  }
}
