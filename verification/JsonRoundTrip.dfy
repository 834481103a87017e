/** Reading back what the canonical printer prints. */
module JsonRoundTrip {
  import opened CanonicalJson
  import opened CanonicalJsonDecoding
  import opened CanonicalJsonTheorems
  import Reader = JsonReader

  // ---------- strings ----------

  lemma HexDigitReads(n: int)
    requires 0 <= n < 16
    ensures Reader.HexValue(HexDigit(n)) == Reader.Reads(n, [])
  {
  }

  lemma EscapedReads(u: CodeUnit, x: Text)
    ensures Reader.ReadChar(Escaped(u) + x) == Reader.Reads([u], x)
  {
    hide UnicodeEscape, Reader.HexValue;
    if Escaped(u) == UnicodeEscape(u) {
      UnicodeEscapeReads(u, x);
    } else {
      assert (Escaped(u) + x)[|Escaped(u)|..] == x;
    }
  }

  lemma UnicodeEscapeReads(u: CodeUnit, x: Text)
    ensures Reader.ReadChar(UnicodeEscape(u) + x) == Reader.Reads([u], x)
  {
    hide HexDigit, Reader.HexValue;
    var text := UnicodeEscape(u) + x;
    HexDigitReads(u / 4096);
    HexDigitReads(u / 256 % 16);
    HexDigitReads(u / 16 % 16);
    HexDigitReads(u % 16);
    FromHex(u);
    assert text[6..] == x;
  }

  lemma {:induction false} QuoteBodyReads(s: Text, x: Text)
    ensures Reader.ReadChars(QuoteBody(s) + [QUOTE] + x) == Reader.Reads(s, x)
    decreases |s|
  {
    var text := QuoteBody(s) + [QUOTE] + x;
    QuotedHead(s, x);
    if s == [] {
      assert text[1..] == x;
    } else {
      QuotedTail(s, x);
      hide QuoteBody, Escaped;
      if StartsWithPair(s) {
        QuoteBodyReads(s[2..], x);
        assert text[..2] == [s[0], s[1]] && s == text[..2] + s[2..];
      } else {
        EscapedReads(s[0], QuoteBody(s[1..]) + [QUOTE] + x);
        QuoteBodyReads(s[1..], x);
        assert s == [s[0]] + s[1..];
      }
    }
  }

  /** A quoted string reads as itself, whatever follows. */
  lemma QuoteReads(s: Text, x: Text)
    ensures Reader.ReadString(Quote(s) + x) == Reader.Reads(s, x)
  {
    assert (Quote(s) + x)[1..] == QuoteBody(s) + [QUOTE] + x;
    QuoteBodyReads(s, x);
  }

  // ---------- the value a text stands for ----------

  /** Every object with its keys in ascending order, and a lone undefined left out. */
  function Canonical(v: Json): Json
    requires WellFormed(v)
    decreases v, 1
  {
    match v
    case Arr(items) => if items == [Undefined] then Arr([]) else Arr(CanonicalItems(items))
    case Obj(fields) =>
      SortedKeysArePresent(fields);
      Obj(CanonicalFields(v, SortKeys(Keys(fields))))
    case _ => v
  }

  function CanonicalItems(items: seq<Json>): (r: seq<Json>)
    requires forall item <- items :: WellFormed(item)
    ensures |r| == |items|
    decreases items, 0
  {
    if items == [] then [] else [Canonical(items[0])] + CanonicalItems(items[1..])
  }

  function CanonicalFields(v: Json, keys: seq<Text>): (r: seq<Field>)
    requires v.Obj? && WellFormed(v) && forall k <- keys :: HasKey(v.fields, k)
    ensures |r| == |keys|
    decreases v, 0, |keys|
  {
    if keys == [] then []
    else [Field(keys[0], Canonical(Lookup(v.fields, keys[0])))] + CanonicalFields(v, keys[1..])
  }

  predicate NoUndefined(v: Json) {
    match v
    case Undefined => false
    case Arr(items) => forall item <- items :: NoUndefined(item)
    case Obj(fields) => forall f <- fields :: NoUndefined(f.value)
    case _ => true
  }

  // ---------- reading back ----------

  lemma {:induction false} NumberReadsTo(t: Text, x: Text)
    requires (forall i :: 0 <= i < |t| ==> IsNumberUnit(t[i])) && Ends(x)
    ensures Reader.NumberReach(t + x) == |t|
  {
    if t == [] {
      assert t + x == x;
    } else {
      NumberReadsTo(t[1..], x);
      assert (t + x)[1..] == t[1..] + x;
    }
  }

  lemma LeafReads(v: Json, x: Text, lenient: bool)
    requires WellFormed(v) && Ends(x) && !v.Undefined? && !v.Arr? && !v.Obj?
    ensures Reader.ReadValue(StableStringify(v).text + x, lenient) == Reader.Reads(v, x)
  {
    var text := StableStringify(v).text + x;
    ValueHead(v, x);
    assert text[..|StableStringify(v).text|] == StableStringify(v).text;
    assert text[|StableStringify(v).text|..] == x;
    if v.Str? {
      QuoteReads(v.chars, x);
    } else if v.Number? {
      NumberReadsTo(v.text, x);
    }
  }

  /** What is printed reads as the canonical form of what was printed, whatever follows. */
  lemma {:induction false} ValueReads(v: Json, x: Text, lenient: bool)
    requires WellFormed(v) && v != Undefined && Ends(x) && (lenient || NoUndefined(v))
    ensures Reader.ReadValue(StableStringify(v).text + x, lenient) == Reader.Reads(Canonical(v), x)
    decreases v, 2, 0
  {
    if v.Arr? {
      ArrayReads(v, x, lenient);
    } else if v.Obj? {
      ObjectReads(v, x, lenient);
    } else {
      LeafReads(v, x, lenient);
    }
  }

  lemma {:induction false} ArrayReads(v: Json, x: Text, lenient: bool)
    requires v.Arr? && WellFormed(v) && (lenient || NoUndefined(v))
    ensures Reader.ReadValue(StableStringify(v).text + x, lenient) == Reader.Reads(Canonical(v), x)
    decreases v, 0, 0
  {
    var text := StableStringify(v).text + x;
    Peel(OPEN_BRACKET, PrintItems(v.items), CLOSE_BRACKET, x);
    ItemsHead(v.items, x);
    if Shown(v.items) == [] {
      assert text[1..][1..] == text[2..];
    } else {
      ItemsRead(v.items, x, lenient);
    }
  }

  lemma {:induction false} ItemReads(v: Json, x: Text, lenient: bool)
    requires WellFormed(v) && (lenient || NoUndefined(v))
    requires x != [] && x[0] in {COMMA, CLOSE_BRACKET}
    ensures Reader.ReadItem(ItemText(StableStringify(v)) + x, lenient) == Reader.Reads(Canonical(v), x)
    decreases v, 3, 0
  {
    ItemHead(v, x);
    if v == Undefined {
      assert ItemText(StableStringify(v)) + x == x;
    } else {
      ValueReads(v, x, lenient);
    }
  }

  lemma {:induction false} ItemsRead(items: seq<Json>, x: Text, lenient: bool)
    requires items != [] && forall v <- items :: WellFormed(v) && (lenient || NoUndefined(v))
    ensures Reader.ReadItems(PrintItems(items) + [CLOSE_BRACKET] + x, lenient) ==
            Reader.Reads(CanonicalItems(items), x)
    decreases items, 0, 0
  {
    var rest := ItemsRest(items, x);
    ItemsSplit(items, x);
    ItemReads(items[0], rest, lenient);
    if |items| == 1 {
      assert rest[1..] == x;
      assert CanonicalItems(items) == [Canonical(items[0])];
    } else {
      assert rest[1..] == PrintItems(items[1..]) + [CLOSE_BRACKET] + x;
      ItemsRead(items[1..], x, lenient);
    }
  }

  lemma {:induction false} MemberValueReads(v: Json, x: Text, lenient: bool)
    requires WellFormed(v) && Ends(x) && (lenient || NoUndefined(v))
    ensures Reader.ReadMemberValue(ValueText(StableStringify(v)) + x, lenient) == Reader.Reads(Canonical(v), x)
    decreases v, 3, 0
  {
    hide Reader.ReadValue;
    if v == Undefined {
      UndefinedWord(x);
    } else {
      hide StableStringify;
      ValueHead(v, x);
      NoUndefinedWord(StableStringify(v).text + x);
      ValueReads(v, x, lenient);
    }
  }

  lemma UndefinedWord(x: Text)
    ensures Reader.StartsWith(UNDEFINED_TEXT + x, UNDEFINED_TEXT)
    ensures (UNDEFINED_TEXT + x)[|UNDEFINED_TEXT|..] == x
  {
  }

  lemma NoUndefinedWord(text: Text)
    requires text != [] && text[0] != 117
    ensures !Reader.StartsWith(text, UNDEFINED_TEXT)
  {
    assert |UNDEFINED_TEXT| <= |text| ==> text[..|UNDEFINED_TEXT|][0] == text[0];
  }

  lemma {:induction false} MembersRead(v: Json, keys: seq<Text>, x: Text, lenient: bool)
    requires v.Obj? && WellFormed(v) && (lenient || NoUndefined(v))
    requires keys != [] && forall k <- keys :: HasKey(v.fields, k)
    ensures Reader.ReadMembers(PrintFields(v, keys) + [CLOSE_BRACE] + x, lenient) ==
            Reader.Reads(CanonicalFields(v, keys), x)
    decreases v, 0, |keys|
  {
    hide PrintFields, FieldsRest, StableStringify, Reader.ReadString, Reader.ReadMemberValue;
    var value := Lookup(v.fields, keys[0]);
    var rest := FieldsRest(v, keys, x);
    var afterKey := [COLON] + (ValueText(StableStringify(value)) + rest);
    FieldsSplit(v, keys, x);
    RestShape(v, keys, x);
    QuoteReads(keys[0], afterKey);
    assert afterKey[1..] == ValueText(StableStringify(value)) + rest;
    RestEnds(v, keys, x);
    MemberValueReads(value, rest, lenient);
    if |keys| == 1 {
      assert CanonicalFields(v, keys) == [Field(keys[0], Canonical(value))];
    } else {
      MembersRead(v, keys[1..], x, lenient);
    }
  }

  lemma RestEnds(v: Json, keys: seq<Text>, x: Text)
    requires v.Obj? && keys != [] && forall k <- keys :: HasKey(v.fields, k)
    ensures var rest := FieldsRest(v, keys, x);
            Ends(rest) && rest != [] && rest[0] == if |keys| == 1 then CLOSE_BRACE else COMMA
  {
  }

  lemma {:induction false} ObjectReads(v: Json, x: Text, lenient: bool)
    requires v.Obj? && WellFormed(v) && (lenient || NoUndefined(v))
    ensures Reader.ReadValue(StableStringify(v).text + x, lenient) == Reader.Reads(Canonical(v), x)
    decreases v, 1, 0
  {
    var text, keys := StableStringify(v).text + x, SortKeys(Keys(v.fields));
    SortedKeysArePresent(v.fields);
    Peel(OPEN_BRACE, PrintFields(v, keys), CLOSE_BRACE, x);
    FieldsHead(v, keys, x);
    if keys == [] {
      assert text[1..][1..] == text[2..];
    } else {
      MembersRead(v, keys, x, lenient);
    }
  }

  // ---------- what was read is what was printed ----------

  /** The first i units agree, and then the first text ends or has the smaller unit. */
  predicate PartsAt(a: Text, b: Text, i: nat) {
    && i <= |a| && i < |b| && (forall k :: 0 <= k < i ==> a[k] == b[k])
    && (i < |a| ==> a[i] < b[i])
  }

  /** Strictly before, by code units. */
  ghost predicate Precedes(a: Text, b: Text) {
    exists i :: PartsAt(a, b, i)
  }

  lemma {:induction false} BelowIff(a: Text, b: Text)
    ensures Below(a, b) <==> Precedes(a, b)
    decreases |a|
  {
    if a == [] || b == [] || a[0] != b[0] {
      if b != [] && (a == [] || a[0] < b[0]) {
        assert PartsAt(a, b, 0);
      }
    } else {
      BelowIff(a[1..], b[1..]);
      if i: nat :| PartsAt(a[1..], b[1..], i) {
        assert forall k :: 0 < k <= i ==> a[k] == a[1..][k - 1] && b[k] == b[1..][k - 1];
        assert PartsAt(a, b, i + 1);
      }
      if i: nat :| PartsAt(a, b, i) {
        assert i > 0;
        assert PartsAt(a[1..], b[1..], i - 1);
      }
    }
  }

  ghost predicate KeysAscend(v: Json) {
    match v
    case Arr(items) => forall item <- items :: KeysAscend(item)
    case Obj(fields) =>
      && (forall i, j :: 0 <= i < j < |fields| ==> Precedes(fields[i].key, fields[j].key))
      && forall f <- fields :: KeysAscend(f.value)
    case _ => true
  }

  lemma {:induction false} CanonicalItemAt(items: seq<Json>, i: nat)
    requires i < |items| && forall item <- items :: WellFormed(item)
    ensures CanonicalItems(items)[i] == Canonical(items[i])
  {
    if i > 0 {
      CanonicalItemAt(items[1..], i - 1);
    }
  }

  lemma {:induction false} CanonicalFieldAt(v: Json, keys: seq<Text>, i: nat)
    requires v.Obj? && WellFormed(v) && i < |keys| && forall k <- keys :: HasKey(v.fields, k)
    ensures CanonicalFields(v, keys)[i] == Field(keys[i], Canonical(Lookup(v.fields, keys[i])))
  {
    if i > 0 {
      CanonicalFieldAt(v, keys[1..], i - 1);
    }
  }

  lemma TwiceCounted(ks: seq<Text>, i: nat, j: nat)
    requires i < j < |ks| && ks[i] == ks[j]
    ensures multiset(ks)[ks[i]] >= 2
  {
    assert ks == ks[..j] + ks[j..];
    assert ks[..j][i] == ks[i] && ks[j..][0] == ks[i];
    assert ks[i] in ks[..j] && ks[i] in ks[j..];
  }

  /** Sorted keys without repetition ascend strictly. */
  lemma SortedKeysAscend(fields: seq<Field>)
    requires DistinctKeys(fields)
    ensures forall i, j :: 0 <= i < j < |SortKeys(Keys(fields))| ==>
              Precedes(SortKeys(Keys(fields))[i], SortKeys(Keys(fields))[j])
  {
    hide SortKeys, Below, Precedes;
    var keys := SortKeys(Keys(fields));
    SortKeysSorts(Keys(fields));
    DistinctKeyMultiset(fields);
    assert forall k :: multiset(KeySet(fields))[k] <= 1;
    forall i, j | 0 <= i < j < |keys|
      ensures Precedes(keys[i], keys[j])
    {
      BelowTotal(keys[i], keys[j]);
      BelowIff(keys[i], keys[j]);
      if keys[i] == keys[j] {
        TwiceCounted(keys, i, j);
      }
    }
  }

  lemma {:induction false} CanonicalIsAlike(v: Json)
    requires WellFormed(v)
    ensures Alike(v, Canonical(v)) && KeysAscend(Canonical(v))
    decreases v, 1
  {
    if v.Arr? && v.items != [Undefined] {
      ItemsAlike(v.items);
    } else if v.Obj? {
      ObjectAlike(v);
    }
  }

  lemma {:induction false} ItemsAlike(items: seq<Json>)
    requires items != [Undefined] && forall item <- items :: WellFormed(item)
    ensures Alike(Arr(items), Arr(CanonicalItems(items))) && KeysAscend(Arr(CanonicalItems(items)))
    decreases items, 0
  {
    hide CanonicalItems;
    var c := CanonicalItems(items);
    forall i | 0 <= i < |items|
      ensures Alike(items[i], c[i]) && KeysAscend(c[i]) && (c[i] == Undefined ==> items[i] == Undefined)
    {
      CanonicalItemAt(items, i);
      CanonicalIsAlike(items[i]);
    }
    assert |items| == 1 && c[0] == Undefined ==> items == [Undefined];
  }

  lemma {:induction false} ObjectAlike(v: Json)
    requires v.Obj? && WellFormed(v)
    ensures Alike(v, Canonical(v)) && KeysAscend(Canonical(v))
    decreases v, 0
  {
    hide SortKeys, Precedes, CanonicalFields, Lookup;
    var keys := SortKeys(Keys(v.fields));
    SortedKeysArePresent(v.fields);
    SortedKeysAscend(v.fields);
    var c := CanonicalFields(v, keys);
    assert |c| == |multiset(keys)| == |multiset(Keys(v.fields))| == |v.fields|;
    forall i | 0 <= i < |keys|
      ensures c[i] == Field(keys[i], Canonical(Lookup(v.fields, keys[i]))) && KeysAscend(c[i].value)
    {
      CanonicalFieldAt(v, keys, i);
      PresentValue(v.fields, keys[i]);
      CanonicalIsAlike(Lookup(v.fields, keys[i]));
    }
    DistinctByOrder(c);
    forall i | 0 <= i < |v.fields|
      ensures HasKey(c, v.fields[i].key) && Alike(v.fields[i].value, Lookup(c, v.fields[i].key))
    {
      KeyIsSorted(v.fields, i);
      var j :| 0 <= j < |keys| && keys[j] == v.fields[i].key;
      LookupAt(v.fields, i);
      LookupAt(c, j);
      CanonicalIsAlike(v.fields[i].value);
    }
  }

  lemma PresentValue(fields: seq<Field>, key: Text)
    requires HasKey(fields, key)
    ensures exists f <- fields :: f.key == key && f.value == Lookup(fields, key)
  {
    var i :| 0 <= i < |fields| && fields[i].key == key && fields[i].value == Lookup(fields, key);
    assert fields[i] in fields;
  }

  lemma KeyIsSorted(fields: seq<Field>, i: nat)
    requires i < |fields|
    ensures fields[i].key in SortKeys(Keys(fields))
  {
    assert Keys(fields)[i] in multiset(SortKeys(Keys(fields)));
  }

  lemma DistinctByOrder(fields: seq<Field>)
    requires forall i, j :: 0 <= i < j < |fields| ==> Precedes(fields[i].key, fields[j].key)
    ensures DistinctKeys(fields)
  {
    forall i, j | 0 <= i < j < |fields|
      ensures fields[i].key != fields[j].key
    {
      BelowIff(fields[i].key, fields[j].key);
      BelowTotal(fields[i].key, fields[j].key);
    }
  }

  /** The printed text of a value, read as JSON, is that value again, up to key order and up to
      a lone undefined in an array; and it lists the keys of every object in ascending order.
      The reader has to be lenient only for values with undefined in them. */
  lemma PrintsReadBack(v: Json, lenient: bool)
    requires WellFormed(v) && v != Undefined && (lenient || NoUndefined(v))
    ensures StableStringify(v).Printed?
    ensures exists w ::
              && Reader.ReadValue(StableStringify(v).text, lenient) == Reader.Reads(w, [])
              && Alike(v, w) && KeysAscend(w) && (NoUndefined(v) ==> Same(v, w))
  {
    ValueHead(v, []);
    assert StableStringify(v).text + [] == StableStringify(v).text;
    ValueReads(v, [], lenient);
    CanonicalIsAlike(v);
    if NoUndefined(v) {
      NoneIsLone(v);
      CanonicalIsDefined(v);
      NoneIsLone(Canonical(v));
      AlikeIsSame(v, Canonical(v));
    }
  }

  lemma {:induction false} NoneIsLone(v: Json)
    requires NoUndefined(v)
    ensures NoLoneUndefined(v)
  {
    if v.Arr? {
      assert v.items != [] ==> v.items[0] in v.items && v.items[0] != Undefined;
      forall item <- v.items
        ensures NoLoneUndefined(item)
      {
        NoneIsLone(item);
      }
    } else if v.Obj? {
      forall f <- v.fields
        ensures NoLoneUndefined(f.value)
      {
        NoneIsLone(f.value);
      }
    }
  }

  lemma {:induction false} CanonicalIsDefined(v: Json)
    requires WellFormed(v) && NoUndefined(v)
    ensures NoUndefined(Canonical(v))
    decreases v
  {
    if v.Arr? {
      forall i | 0 <= i < |v.items|
        ensures NoUndefined(CanonicalItems(v.items)[i])
      {
        CanonicalItemAt(v.items, i);
        CanonicalIsDefined(v.items[i]);
      }
    } else if v.Obj? {
      var keys := SortKeys(Keys(v.fields));
      SortedKeysArePresent(v.fields);
      forall i | 0 <= i < |keys|
        ensures NoUndefined(CanonicalFields(v, keys)[i].value)
      {
        CanonicalFieldAt(v, keys, i);
        CanonicalIsDefined(Lookup(v.fields, keys[i]));
      }
    }
  }

  // ---------- no shorter text would do ----------

  lemma EscapedIsShort(u: CodeUnit, x: Text)
    requires Reader.ReadChar(x).Reads? && Reader.ReadChar(x).value == [u]
    ensures |Escaped(u)| + |Reader.ReadChar(x).rest| <= |x|
  {
  }

  lemma QuoteBodyOfOne(u: CodeUnit, s: Text)
    ensures |QuoteBody([u] + s)| <= |Escaped(u)| + |QuoteBody(s)|
  {
    assert ([u] + s)[1..] == s;
    if StartsWithPair([u] + s) {
      assert ([u] + s)[2..] == s[1..];
    }
  }

  /** Whatever characters up to a quotation mark read as s, they are no fewer than those the
      printer takes for s. */
  lemma {:induction false} QuoteBodyIsShortest(s: Text, x: Text)
    requires Reader.ReadChars(x).Reads? && Reader.ReadChars(x).value == s
    ensures |QuoteBody(s)| + 1 + |Reader.ReadChars(x).rest| <= |x|
    decreases |x|
  {
    if x[0] != QUOTE {
      var first := Reader.ReadChar(x);
      var after := Reader.ReadChars(first.rest);
      QuoteBodyIsShortest(after.value, first.rest);
      if |first.value| == 1 {
        EscapedIsShort(first.value[0], x);
        QuoteBodyOfOne(first.value[0], after.value);
      } else {
        assert s[2..] == after.value;
      }
    }
  }

  /** The printed form of a string reads as it, and is as short as any text that does; it has
      no capital hexadecimal digits of its own. */
  lemma QuoteIsShortest(s: Text, x: Text)
    requires Reader.ReadString(x).Reads? && Reader.ReadString(x).value == s
    ensures |Quote(s)| + |Reader.ReadString(x).rest| <= |x|
    ensures forall u <- Quote(s) :: 65 <= u <= 70 ==> u in s
  {
    QuoteBodyIsShortest(s, x[1..]);
    NoCapitalsAdded(s);
  }

  lemma {:induction false} NoCapitalsAdded(s: Text)
    ensures forall u <- QuoteBody(s) :: 65 <= u <= 70 ==> u in s
  {
    if s != [] {
      if StartsWithPair(s) {
        NoCapitalsAdded(s[2..]);
      } else {
        NoCapitalsAdded(s[1..]);
      }
    }
  }
}
