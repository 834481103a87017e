/** Key order, and what equal printed texts say about values. */
module CanonicalJsonTheorems {
  import opened CanonicalJson
  import opened CanonicalJsonDecoding

  // ---------- key order ----------

  predicate KeysSorted(ks: seq<Text>) {
    forall i, j :: 0 <= i < j < |ks| ==> !Below(ks[j], ks[i])
  }

  lemma {:induction false} BelowTransitive(a: Text, b: Text, c: Text)
    requires !Below(b, a) && !Below(c, b)
    ensures !Below(c, a)
    decreases |a|
  {
    if a != [] && b != [] && c != [] && a[0] == b[0] == c[0] {
      BelowTransitive(a[1..], b[1..], c[1..]);
    }
  }

  lemma {:induction false} BelowTotal(a: Text, b: Text)
    ensures Below(a, b) || Below(b, a) || a == b
    ensures !(Below(a, b) && Below(b, a))
    decreases |a|
  {
    if a != [] && b != [] && a[0] == b[0] {
      BelowTotal(a[1..], b[1..]);
      assert a == [a[0]] + a[1..] && b == [b[0]] + b[1..];
    }
  }

  lemma {:induction false} InsertKeepsSorted(key: Text, sorted: seq<Text>)
    requires KeysSorted(sorted)
    ensures KeysSorted(Insert(key, sorted))
  {
    if sorted != [] {
      var first, rest := sorted[0], sorted[1..];
      if Below(first, key) {
        InsertKeepsSorted(key, rest);
        BelowTotal(first, key);
        forall k <- Insert(key, rest)
          ensures !Below(k, first)
        {
          assert k in multiset(Insert(key, rest));
        }
      } else {
        forall k <- sorted
          ensures !Below(k, key)
        {
          BelowTotal(first, key);
          BelowTotal(first, first);
          var i :| 0 <= i < |sorted| && sorted[i] == k;
          BelowTransitive(key, first, k);
        }
      }
    }
  }

  lemma {:induction false} SortKeysSorts(ks: seq<Text>)
    ensures KeysSorted(SortKeys(ks))
  {
    if ks != [] {
      SortKeysSorts(ks[1..]);
      InsertKeepsSorted(ks[0], SortKeys(ks[1..]));
    }
  }

  lemma NothingBelowFirst(a: seq<Text>, b: seq<Text>)
    requires a != [] && b != [] && KeysSorted(b) && multiset(a) == multiset(b)
    ensures !Below(a[0], b[0])
  {
    assert a[0] in multiset(b);
    var j :| 0 <= j < |b| && b[j] == a[0];
    BelowTotal(b[0], b[0]);
  }

  lemma {:induction false} SortedIsUnique(a: seq<Text>, b: seq<Text>)
    requires KeysSorted(a) && KeysSorted(b) && multiset(a) == multiset(b)
    ensures a == b
  {
    if a == [] {
      assert |b| == |multiset(b)| == 0;
    } else {
      assert |a| == |multiset(a)| && |b| == |multiset(b)|;
      NothingBelowFirst(a, b);
      NothingBelowFirst(b, a);
      BelowTotal(a[0], b[0]);
      assert a == [a[0]] + a[1..] && b == [b[0]] + b[1..];
      assert multiset(a[1..]) == multiset(a) - multiset{a[0]};
      assert multiset(b[1..]) == multiset(b) - multiset{b[0]};
      SortedIsUnique(a[1..], b[1..]);
    }
  }

  function KeySet(fields: seq<Field>): set<Text> {
    set f <- fields :: f.key
  }

  lemma {:induction false} DistinctKeyMultiset(fields: seq<Field>)
    requires DistinctKeys(fields)
    ensures multiset(Keys(fields)) == multiset(KeySet(fields))
  {
    if fields == [] {
      assert Keys(fields) == [];
    } else {
      var rest := fields[1..];
      DistinctKeyMultiset(rest);
      KeysSplit(fields);
      MultisetOfUnion(fields[0].key, KeySet(rest));
    }
  }

  lemma KeysSplit(fields: seq<Field>)
    requires DistinctKeys(fields) && fields != []
    ensures Keys(fields) == [fields[0].key] + Keys(fields[1..])
    ensures KeySet(fields) == {fields[0].key} + KeySet(fields[1..]) && fields[0].key !in KeySet(fields[1..])
  {
    assert fields == [fields[0]] + fields[1..];
  }

  lemma MultisetOfUnion(key: Text, keys: set<Text>)
    requires key !in keys
    ensures multiset({key} + keys) == multiset{key} + multiset(keys)
  {
  }

  lemma SameKeysSortAlike(f: seq<Field>, g: seq<Field>)
    requires DistinctKeys(f) && DistinctKeys(g) && SameKeys(f, g)
    ensures SortKeys(Keys(f)) == SortKeys(Keys(g))
  {
    DistinctKeyMultiset(f);
    DistinctKeyMultiset(g);
    assert |KeySet(f)| == |multiset(KeySet(f))| == |Keys(f)|;
    assert |KeySet(g)| == |multiset(KeySet(g))| == |Keys(g)|;
    assert KeySet(f) <= KeySet(g);
    SubsetOfEqualSize(KeySet(f), KeySet(g));
    SortKeysSorts(Keys(f));
    SortKeysSorts(Keys(g));
    SortedIsUnique(SortKeys(Keys(f)), SortKeys(Keys(g)));
  }

  lemma SubsetOfEqualSize(a: set<Text>, b: set<Text>)
    requires a <= b && |a| == |b|
    ensures a == b
  {
    assert |b - a| == |b| - |a|;
  }

  // ---------- alike values print alike ----------

  lemma {:induction false} AlikePrintsEqual(v: Json, w: Json)
    requires WellFormed(v) && WellFormed(w) && Alike(v, w)
    ensures StableStringify(v) == StableStringify(w)
    decreases v, 1
  {
    if v.Arr? && w.Arr? {
      if Shown(v.items) != [] {
        ItemsPrintEqual(v.items, w.items);
      } else {
        assert PrintItems([Undefined]) == PrintItems([]);
      }
    } else if v.Obj? && w.Obj? {
      var f, g := v.fields, w.fields;
      var keys := SortKeys(Keys(f));
      SameKeysSortAlike(f, g);
      SortedKeysArePresent(f);
      SortedKeysArePresent(g);
      forall k <- keys
        ensures Alike(Lookup(f, k), Lookup(g, k))
      {
        var i :| 0 <= i < |f| && f[i].key == k;
        LookupAt(f, i);
      }
      FieldsPrintEqual(v, w, keys);
    }
  }

  lemma {:induction false} ItemsPrintEqual(a: seq<Json>, b: seq<Json>)
    requires (forall v <- a :: WellFormed(v)) && (forall v <- b :: WellFormed(v))
    requires AlikeItems(a, b)
    ensures PrintItems(a) == PrintItems(b)
    decreases a, 0
  {
    if a != [] {
      AlikePrintsEqual(a[0], b[0]);
      assert forall i :: 0 < i < |a| ==> a[i] == a[1..][i - 1] && b[i] == b[1..][i - 1];
      ItemsPrintEqual(a[1..], b[1..]);
    }
  }

  lemma {:induction false} FieldsPrintEqual(v: Json, w: Json, keys: seq<Text>)
    requires v.Obj? && w.Obj? && WellFormed(v) && WellFormed(w) && AlikeAt(v, w, keys)
    ensures PrintFields(v, keys) == PrintFields(w, keys)
    decreases v, 0, |keys|
  {
    if keys != [] {
      AlikePrintsEqual(Lookup(v.fields, keys[0]), Lookup(w.fields, keys[0]));
      FieldsPrintEqual(v, w, keys[1..]);
    }
  }

  // ---------- main results ----------

  /** Two JSON values print to the same text exactly when they are equal up to the order
      of object keys and up to [undefined] for []. */
  lemma PrintsEqualIffAlike(v: Json, w: Json)
    requires WellFormed(v) && WellFormed(w)
    ensures StableStringify(v) == StableStringify(w) <==> Alike(v, w)
  {
    if StableStringify(v) == StableStringify(w) {
      if v != Undefined {
        ValueHead(v, []);
        ValueUnique(v, w, [], []);
      } else if w != Undefined {
        ValueHead(w, []);
      }
    }
    if Alike(v, w) {
      AlikePrintsEqual(v, w);
    }
  }

  lemma {:induction false} AlikeIsSame(v: Json, w: Json)
    requires NoLoneUndefined(v) && NoLoneUndefined(w)
    ensures Alike(v, w) <==> Same(v, w)
  {
    if v.Arr? && w.Arr? && |v.items| == |w.items| {
      forall i | 0 <= i < |v.items|
        ensures Alike(v.items[i], w.items[i]) <==> Same(v.items[i], w.items[i])
      {
        AlikeIsSame(v.items[i], w.items[i]);
      }
    } else if v.Obj? && w.Obj? && SameKeys(v.fields, w.fields) {
      forall i | 0 <= i < |v.fields|
        ensures var other := Lookup(w.fields, v.fields[i].key);
                Alike(v.fields[i].value, other) <==> Same(v.fields[i].value, other)
      {
        AlikeIsSame(v.fields[i].value, Lookup(w.fields, v.fields[i].key));
      }
    }
  }

  /** Where no array is a lone undefined, the printer is uniquely decodable. */
  lemma UniquelyDecodable(v: Json, w: Json)
    requires WellFormed(v) && WellFormed(w) && NoLoneUndefined(v) && NoLoneUndefined(w)
    ensures StableStringify(v) == StableStringify(w) <==> Same(v, w)
  {
    PrintsEqualIffAlike(v, w);
    AlikeIsSame(v, w);
  }

  /** The side condition is needed. */
  lemma LoneUndefinedCollides()
    ensures StableStringify(Arr([Undefined])) == StableStringify(Arr([]))
    ensures !Same(Arr([Undefined]), Arr([]))
  {
  }

  lemma {:induction false} SameReflexive(v: Json)
    requires WellFormed(v)
    ensures Same(v, v)
  {
    if v.Arr? {
      forall i | 0 <= i < |v.items|
        ensures Same(v.items[i], v.items[i])
      {
        SameReflexive(v.items[i]);
      }
    } else if v.Obj? {
      forall i | 0 <= i < |v.fields|
        ensures HasKey(v.fields, v.fields[i].key)
        ensures Same(v.fields[i].value, Lookup(v.fields, v.fields[i].key))
      {
        LookupAt(v.fields, i);
        SameReflexive(v.fields[i].value);
      }
    }
  }

  /** Listing an object's fields in another order does not change the text. */
  lemma KeyOrderIsIrrelevant(f: seq<Field>, g: seq<Field>)
    requires WellFormed(Obj(f)) && DistinctKeys(g) && multiset(f) == multiset(g)
    ensures StableStringify(Obj(f)) == StableStringify(Obj(g))
  {
    assert |f| == |multiset(f)| == |multiset(g)| == |g|;
    forall x <- g
      ensures WellFormed(x.value)
    {
      assert x in multiset(f);
    }
    forall i | 0 <= i < |f|
      ensures HasKey(g, f[i].key) && Alike(f[i].value, Lookup(g, f[i].key))
    {
      assert f[i] in multiset(g);
      var j :| 0 <= j < |g| && g[j] == f[i];
      LookupAt(g, j);
      AlikeReflexive(f[i].value);
    }
    PrintsEqualIffAlike(Obj(f), Obj(g));
  }

  lemma AlikeReflexive(v: Json)
    requires WellFormed(v)
    ensures Alike(v, v)
  {
    PrintsEqualIffAlike(v, v);
  }
}
