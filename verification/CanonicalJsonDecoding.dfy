/** Unique decodability of the canonical printer. */
module CanonicalJsonDecoding {
  import opened CanonicalJson

  // ---------- tokens ----------

  lemma HexDigitInjective(m: int, n: int)
    requires 0 <= m < 16 && 0 <= n < 16 && HexDigit(m) == HexDigit(n)
    ensures m == n
  {
  }

  lemma FromHex(u: CodeUnit)
    ensures u == 4096 * (u / 4096) + 256 * (u / 256 % 16) + 16 * (u / 16 % 16) + u % 16
  {
    assert u / 256 == 16 * (u / 4096) + u / 256 % 16;
    assert u / 16 == 16 * (u / 256) + u / 16 % 16;
  }

  lemma UnicodeEscapeInjective(c: CodeUnit, d: CodeUnit)
    requires UnicodeEscape(c) == UnicodeEscape(d)
    ensures c == d
  {
    var e, f := UnicodeEscape(c), UnicodeEscape(d);
    assert e[2] == f[2] && e[3] == f[3] && e[4] == f[4] && e[5] == f[5];
    HexDigitInjective(c / 4096, d / 4096);
    HexDigitInjective(c / 256 % 16, d / 256 % 16);
    HexDigitInjective(c / 16 % 16, d / 16 % 16);
    HexDigitInjective(c % 16, d % 16);
    FromHex(c);
    FromHex(d);
  }

  /** The first units of an escape fix its length. */
  function EscapeLength(x: Text): nat {
    if x == [] || x[0] != BACKSLASH then 1
    else if |x| > 1 && x[1] == 117 then 6
    else 2
  }

  lemma EscapedLength(c: CodeUnit, x: Text)
    ensures EscapeLength(Escaped(c) + x) == |Escaped(c)|
  {
  }

  lemma EscapedInjective(c: CodeUnit, d: CodeUnit)
    requires Escaped(c) == Escaped(d)
    ensures c == d
  {
    if |Escaped(c)| == 6 {
      UnicodeEscapeInjective(c, d);
    } else {
      assert Escaped(c)[|Escaped(c)| - 1] == Escaped(d)[|Escaped(d)| - 1];
    }
  }

  lemma EscapedPrefixFree(c: CodeUnit, d: CodeUnit, x: Text, y: Text)
    requires Escaped(c) + x == Escaped(d) + y
    ensures c == d && x == y
  {
    EscapedLength(c, x);
    EscapedLength(d, y);
    var n := |Escaped(c)|;
    assert Escaped(c) == (Escaped(c) + x)[..n] && Escaped(d) == (Escaped(d) + y)[..n];
    assert x == (Escaped(c) + x)[n..] && y == (Escaped(d) + y)[n..];
    EscapedInjective(c, d);
  }

  /** How a quoted string goes on at its first unit. */
  lemma QuotedHead(s: Text, x: Text)
    ensures (QuoteBody(s) + [QUOTE] + x)[0] ==
              if s == [] then QUOTE
              else if StartsWithPair(s) then s[0]
              else Escaped(s[0])[0]
    ensures StartsWithPair(s) ==> (QuoteBody(s) + [QUOTE] + x)[1] == s[1]
  {
  }

  lemma QuotedTail(s: Text, x: Text)
    requires s != []
    ensures StartsWithPair(s) ==>
              (QuoteBody(s) + [QUOTE] + x)[2..] == QuoteBody(s[2..]) + [QUOTE] + x
    ensures !StartsWithPair(s) ==>
              QuoteBody(s) + [QUOTE] + x == Escaped(s[0]) + (QuoteBody(s[1..]) + [QUOTE] + x)
  {
  }

  lemma {:induction false} QuoteBodyUnique(s: Text, t: Text, x: Text, y: Text)
    requires QuoteBody(s) + [QUOTE] + x == QuoteBody(t) + [QUOTE] + y
    ensures s == t && x == y
    decreases |s|
  {
    QuotedHead(s, x);
    QuotedHead(t, y);
    if s == [] {
      assert x == (QuoteBody(s) + [QUOTE] + x)[1..];
      assert y == (QuoteBody(t) + [QUOTE] + y)[1..];
    } else {
      QuotedTail(s, x);
      QuotedTail(t, y);
      if StartsWithPair(s) {
        QuoteBodyUnique(s[2..], t[2..], x, y);
        assert s == [s[0], s[1]] + s[2..] && t == [t[0], t[1]] + t[2..];
      } else {
        EscapedPrefixFree(s[0], t[0], QuoteBody(s[1..]) + [QUOTE] + x, QuoteBody(t[1..]) + [QUOTE] + y);
        QuoteBodyUnique(s[1..], t[1..], x, y);
        assert s == [s[0]] + s[1..] && t == [t[0]] + t[1..];
      }
    }
  }

  lemma QuoteUnique(s: Text, t: Text, x: Text, y: Text)
    requires Quote(s) + x == Quote(t) + y
    ensures s == t && x == y
  {
    assert (Quote(s) + x)[1..] == QuoteBody(s) + [QUOTE] + x;
    assert (Quote(t) + y)[1..] == QuoteBody(t) + [QUOTE] + y;
    QuoteBodyUnique(s, t, x, y);
  }

  /** A text a printed number cannot run into. */
  predicate Ends(x: Text) {
    x == [] || !IsNumberUnit(x[0])
  }

  /** How far a number reaches into a text. */
  function NumberLength(x: Text): nat {
    if Ends(x) then 0 else 1 + NumberLength(x[1..])
  }

  lemma {:induction false} NumberReach(t: Text, x: Text)
    requires (forall i :: 0 <= i < |t| ==> IsNumberUnit(t[i])) && Ends(x)
    ensures NumberLength(t + x) == |t|
  {
    if t == [] {
      assert t + x == x;
    } else {
      NumberReach(t[1..], x);
      assert (t + x)[1..] == t[1..] + x;
    }
  }

  lemma NumberUnique(t: Text, u: Text, x: Text, y: Text)
    requires IsNumberText(t) && IsNumberText(u) && Ends(x) && Ends(y)
    requires t + x == u + y
    ensures t == u && x == y
  {
    NumberReach(t, x);
    NumberReach(u, y);
    assert t == (t + x)[..|t|] && u == (u + y)[..|u|];
    assert x == (t + x)[|t|..] && y == (u + y)[|u|..];
  }

  // ---------- values ----------

  /** The first unit of a printed value tells which kind of value it is. */
  predicate HeadFits(v: Json, u: CodeUnit) {
    match v
    case Undefined => false
    case Null => u == 110
    case Bool(b) => u == if b then 116 else 102
    case Number(_) => u == 45 || IsDigit(u)
    case Str(_) => u == QUOTE
    case Arr(_) => u == OPEN_BRACKET
    case Obj(_) => u == OPEN_BRACE
  }

  lemma ValueHead(v: Json, x: Text)
    requires WellFormed(v) && v != Undefined
    ensures StableStringify(v).Printed?
    ensures |StableStringify(v).text| > 0 && HeadFits(v, StableStringify(v).text[0])
    ensures HeadFits(v, (StableStringify(v).text + x)[0])
  {
  }

  lemma ItemHead(v: Json, x: Text)
    requires WellFormed(v) && x != []
    ensures ItemText(StableStringify(v)) + x != []
    ensures var u := (ItemText(StableStringify(v)) + x)[0];
            if v == Undefined then u == x[0] else HeadFits(v, u)
  {
    if v == Undefined {
      assert ItemText(StableStringify(v)) + x == x;
    } else {
      ValueHead(v, x);
    }
  }

  lemma FieldValueHead(v: Json, x: Text)
    requires WellFormed(v)
    ensures ValueText(StableStringify(v)) + x != []
    ensures var u := (ValueText(StableStringify(v)) + x)[0];
            if v == Undefined then u == 117 else HeadFits(v, u)
  {
    if v != Undefined {
      ValueHead(v, x);
    }
  }

  lemma Peel(open: CodeUnit, body: Text, close: CodeUnit, x: Text)
    ensures ([open] + body + [close] + x)[1..] == body + [close] + x
  {
  }

  lemma {:induction false} ValueUnique(v: Json, w: Json, x: Text, y: Text)
    requires WellFormed(v) && WellFormed(w) && v != Undefined && w != Undefined
    requires Ends(x) && Ends(y)
    requires StableStringify(v).text + x == StableStringify(w).text + y
    ensures Alike(v, w) && x == y
    decreases v, 2, 0
  {
    ValueHead(v, x);
    ValueHead(w, y);
    if v.Arr? {
      ArrayUnique(v, w, x, y);
    } else if v.Obj? {
      ObjectUnique(v, w, x, y);
    } else {
      LeafUnique(v, w, x, y);
    }
  }

  lemma LeafUnique(v: Json, w: Json, x: Text, y: Text)
    requires WellFormed(v) && WellFormed(w) && Ends(x) && Ends(y)
    requires !v.Undefined? && !v.Arr? && !v.Obj? && !w.Undefined? && !w.Arr? && !w.Obj?
    requires StableStringify(v).text + x == StableStringify(w).text + y
    ensures v == w && x == y
  {
    ValueHead(v, x);
    ValueHead(w, y);
    if v.Number? {
      NumberUnique(v.text, w.text, x, y);
    } else if v.Str? {
      QuoteUnique(v.chars, w.chars, x, y);
    } else {
      var n := |StableStringify(v).text|;
      assert x == (StableStringify(v).text + x)[n..] && y == (StableStringify(w).text + y)[n..];
    }
  }

  // ---------- arrays ----------

  ghost predicate AlikeItems(a: seq<Json>, b: seq<Json>) {
    |a| == |b| && forall i :: 0 <= i < |a| ==> Alike(a[i], b[i])
  }

  lemma ItemsHead(a: seq<Json>, x: Text)
    requires forall v <- a :: WellFormed(v)
    ensures var text := PrintItems(a) + [CLOSE_BRACKET] + x;
            (text[0] == CLOSE_BRACKET <==> Shown(a) == []) && (Shown(a) == [] ==> x == text[1..])
  {
    if a != [] {
      ItemsSplit(a, x);
      ItemHead(a[0], ItemsRest(a, x));
    }
  }

  function ItemsRest(a: seq<Json>, x: Text): Text
    requires a != []
  {
    if |a| == 1 then [CLOSE_BRACKET] + x
    else [COMMA] + (PrintItems(a[1..]) + [CLOSE_BRACKET] + x)
  }

  lemma ItemsSplit(a: seq<Json>, x: Text)
    requires a != []
    ensures PrintItems(a) + [CLOSE_BRACKET] + x == ItemText(StableStringify(a[0])) + ItemsRest(a, x)
  {
  }

  lemma {:induction false} ArrayUnique(v: Json, w: Json, x: Text, y: Text)
    requires v.Arr? && w.Arr? && WellFormed(v) && WellFormed(w)
    requires StableStringify(v).text + x == StableStringify(w).text + y
    ensures Alike(v, w) && x == y
    decreases v, 0, 0
  {
    Peel(OPEN_BRACKET, PrintItems(v.items), CLOSE_BRACKET, x);
    Peel(OPEN_BRACKET, PrintItems(w.items), CLOSE_BRACKET, y);
    ItemsHead(v.items, x);
    ItemsHead(w.items, y);
    if Shown(v.items) != [] {
      ItemsUnique(v.items, w.items, x, y);
    }
  }

  lemma {:induction false} ItemsUnique(a: seq<Json>, b: seq<Json>, x: Text, y: Text)
    requires (forall v <- a :: WellFormed(v)) && (forall v <- b :: WellFormed(v))
    requires a != [] && b != []
    requires PrintItems(a) + [CLOSE_BRACKET] + x == PrintItems(b) + [CLOSE_BRACKET] + y
    ensures AlikeItems(a, b) && x == y
    decreases a, 0, 0
  {
    var restA, restB := ItemsRest(a, x), ItemsRest(b, y);
    ItemsSplit(a, x);
    ItemsSplit(b, y);
    ItemUnique(a[0], b[0], restA, restB);
    if |a| == 1 {
      assert x == restA[1..] && y == restB[1..];
    } else {
      assert PrintItems(a[1..]) + [CLOSE_BRACKET] + x == restA[1..];
      assert PrintItems(b[1..]) + [CLOSE_BRACKET] + y == restB[1..];
      ItemsUnique(a[1..], b[1..], x, y);
      assert forall i :: 0 < i < |a| ==> a[i] == a[1..][i - 1] && b[i] == b[1..][i - 1];
    }
  }

  lemma {:induction false} ItemUnique(v: Json, w: Json, x: Text, y: Text)
    requires WellFormed(v) && WellFormed(w)
    requires |x| > 0 && x[0] in {COMMA, CLOSE_BRACKET} && |y| > 0 && y[0] in {COMMA, CLOSE_BRACKET}
    requires ItemText(StableStringify(v)) + x == ItemText(StableStringify(w)) + y
    ensures Alike(v, w) && x == y
    decreases v, 3, 0
  {
    ItemHead(v, x);
    ItemHead(w, y);
    if v == Undefined {
      assert ItemText(StableStringify(v)) + x == x && ItemText(StableStringify(w)) + y == y;
    } else {
      ValueUnique(v, w, x, y);
    }
  }

  // ---------- objects ----------

  ghost predicate AlikeAt(v: Json, w: Json, keys: seq<Text>)
    requires v.Obj? && w.Obj?
  {
    forall k <- keys ::
      HasKey(v.fields, k) && HasKey(w.fields, k) && Alike(Lookup(v.fields, k), Lookup(w.fields, k))
  }

  lemma {:induction false} FieldValueUnique(v: Json, w: Json, x: Text, y: Text)
    requires WellFormed(v) && WellFormed(w) && Ends(x) && Ends(y)
    requires ValueText(StableStringify(v)) + x == ValueText(StableStringify(w)) + y
    ensures Alike(v, w) && x == y
    decreases v, 3, 0
  {
    FieldValueHead(v, x);
    FieldValueHead(w, y);
    if v == Undefined {
      var n := |UNDEFINED_TEXT|;
      assert x == (UNDEFINED_TEXT + x)[n..] && y == (UNDEFINED_TEXT + y)[n..];
    } else {
      ValueUnique(v, w, x, y);
    }
  }

  /** The text after the first field's value. */
  function FieldsRest(v: Json, keys: seq<Text>, x: Text): Text
    requires v.Obj? && keys != [] && forall k <- keys :: HasKey(v.fields, k)
  {
    if |keys| == 1 then [CLOSE_BRACE] + x
    else [COMMA] + (PrintFields(v, keys[1..]) + [CLOSE_BRACE] + x)
  }

  lemma FieldsSplit(v: Json, keys: seq<Text>, x: Text)
    requires v.Obj? && keys != [] && forall k <- keys :: HasKey(v.fields, k)
    ensures var value := ValueText(StableStringify(Lookup(v.fields, keys[0])));
            PrintFields(v, keys) + [CLOSE_BRACE] + x ==
            Quote(keys[0]) + ([COLON] + (value + FieldsRest(v, keys, x)))
  {
    var quoted, value := Quote(keys[0]), ValueText(StableStringify(Lookup(v.fields, keys[0])));
    if |keys| == 1 {
      Regroup(quoted, value, [], [CLOSE_BRACE], x);
    } else {
      Regroup(quoted, value, [COMMA], PrintFields(v, keys[1..]) + [CLOSE_BRACE], x);
      RegroupTail(quoted + [COLON] + value, PrintFields(v, keys[1..]), x);
    }
  }

  lemma Regroup(quoted: Text, value: Text, comma: Text, tail: Text, x: Text)
    ensures quoted + [COLON] + value + comma + tail + x == quoted + ([COLON] + (value + (comma + (tail + x))))
    ensures comma == [] ==> quoted + [COLON] + value + tail + x == quoted + ([COLON] + (value + (tail + x)))
  {
  }

  lemma RegroupTail(field: Text, fields: Text, x: Text)
    ensures field + [COMMA] + fields + [CLOSE_BRACE] + x == field + [COMMA] + (fields + [CLOSE_BRACE]) + x
  {
  }

  lemma FieldsHead(v: Json, keys: seq<Text>, x: Text)
    requires v.Obj? && forall k <- keys :: HasKey(v.fields, k)
    ensures var text := PrintFields(v, keys) + [CLOSE_BRACE] + x;
            (text[0] == CLOSE_BRACE <==> keys == []) && (keys == [] ==> x == text[1..])
  {
    if keys != [] {
      FieldsSplit(v, keys, x);
    }
  }

  lemma {:induction false} FieldsUnique(v: Json, w: Json, keys: seq<Text>, others: seq<Text>, x: Text, y: Text)
    requires v.Obj? && w.Obj? && WellFormed(v) && WellFormed(w)
    requires (forall k <- keys :: HasKey(v.fields, k)) && (forall k <- others :: HasKey(w.fields, k))
    requires PrintFields(v, keys) + [CLOSE_BRACE] + x == PrintFields(w, others) + [CLOSE_BRACE] + y
    ensures keys == others && AlikeAt(v, w, keys) && x == y
    decreases v, 0, |keys|
  {
    hide PrintFields, FieldsRest, StableStringify;
    FieldsHead(v, keys, x);
    FieldsHead(w, others, y);
    if keys != [] {
      FirstFieldUnique(v, w, keys, others, x, y);
      RestShape(v, keys, x);
      RestShape(w, others, y);
      if |keys| > 1 {
        FieldsUnique(v, w, keys[1..], others[1..], x, y);
      }
      AlikeAtCons(v, w, keys);
      assert keys == [keys[0]] + keys[1..] && others == [others[0]] + others[1..];
    }
  }

  lemma RestShape(v: Json, keys: seq<Text>, x: Text)
    requires v.Obj? && keys != [] && forall k <- keys :: HasKey(v.fields, k)
    ensures var rest := FieldsRest(v, keys, x);
            && rest != [] && (rest[0] == CLOSE_BRACE <==> |keys| == 1)
            && rest[1..] == if |keys| == 1 then x else PrintFields(v, keys[1..]) + [CLOSE_BRACE] + x
  {
  }

  lemma AlikeAtCons(v: Json, w: Json, keys: seq<Text>)
    requires v.Obj? && w.Obj? && keys != [] && AlikeAt(v, w, keys[1..])
    requires HasKey(v.fields, keys[0]) && HasKey(w.fields, keys[0])
    requires Alike(Lookup(v.fields, keys[0]), Lookup(w.fields, keys[0]))
    ensures AlikeAt(v, w, keys)
  {
    assert forall k <- keys :: k == keys[0] || k in keys[1..];
  }

  lemma {:induction false} FirstFieldUnique(v: Json, w: Json, keys: seq<Text>, others: seq<Text>, x: Text, y: Text)
    requires v.Obj? && w.Obj? && WellFormed(v) && WellFormed(w)
    requires (forall k <- keys :: HasKey(v.fields, k)) && (forall k <- others :: HasKey(w.fields, k))
    requires keys != [] && others != []
    requires PrintFields(v, keys) + [CLOSE_BRACE] + x == PrintFields(w, others) + [CLOSE_BRACE] + y
    ensures keys[0] == others[0]
    ensures Alike(Lookup(v.fields, keys[0]), Lookup(w.fields, others[0]))
    ensures FieldsRest(v, keys, x) == FieldsRest(w, others, y)
    decreases v, 0, 0
  {
    var a, b := Lookup(v.fields, keys[0]), Lookup(w.fields, others[0]);
    var textA := ValueText(StableStringify(a)) + FieldsRest(v, keys, x);
    var textB := ValueText(StableStringify(b)) + FieldsRest(w, others, y);
    FieldsSplit(v, keys, x);
    FieldsSplit(w, others, y);
    QuoteUnique(keys[0], others[0], [COLON] + textA, [COLON] + textB);
    assert textA == ([COLON] + textA)[1..] && textB == ([COLON] + textB)[1..];
    FieldValueUnique(a, b, FieldsRest(v, keys, x), FieldsRest(w, others, y));
  }

  lemma {:induction false} ObjectUnique(v: Json, w: Json, x: Text, y: Text)
    requires v.Obj? && w.Obj? && WellFormed(v) && WellFormed(w)
    requires StableStringify(v).text + x == StableStringify(w).text + y
    ensures Alike(v, w) && x == y
    decreases v, 1, 0
  {
    var keys, others := SortKeys(Keys(v.fields)), SortKeys(Keys(w.fields));
    SortedKeysArePresent(v.fields);
    SortedKeysArePresent(w.fields);
    Peel(OPEN_BRACE, PrintFields(v, keys), CLOSE_BRACE, x);
    Peel(OPEN_BRACE, PrintFields(w, others), CLOSE_BRACE, y);
    FieldsUnique(v, w, keys, others, x, y);
    ObjectsAlike(v.fields, w.fields);
  }

  lemma LookupAt(fields: seq<Field>, i: nat)
    requires DistinctKeys(fields) && i < |fields|
    ensures HasKey(fields, fields[i].key) && Lookup(fields, fields[i].key) == fields[i].value
  {
    assert HasKey(fields, fields[i].key);
  }

  lemma ObjectsAlike(f: seq<Field>, g: seq<Field>)
    requires DistinctKeys(f) && DistinctKeys(g)
    requires SortKeys(Keys(f)) == SortKeys(Keys(g))
    requires AlikeAt(Obj(f), Obj(g), SortKeys(Keys(f)))
    ensures Alike(Obj(f), Obj(g))
  {
    assert multiset(Keys(f)) == multiset(Keys(g));
    assert |f| == |multiset(Keys(f))| && |g| == |multiset(Keys(g))|;
    forall i | 0 <= i < |f|
      ensures HasKey(g, f[i].key) && Alike(f[i].value, Lookup(g, f[i].key))
    {
      assert Keys(f)[i] in multiset(Keys(f));
      assert f[i].key in multiset(SortKeys(Keys(f)));
      LookupAt(f, i);
    }
  }
}
