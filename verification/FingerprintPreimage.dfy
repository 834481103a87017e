/** The text a component fingerprint is the hash of. */
module FingerprintPreimage {
  import opened Options
  import opened CanonicalJson
  import opened CanonicalJsonDecoding
  import opened CanonicalJsonTheorems
  import opened JsonRoundTrip
  import Reader = JsonReader

  /** The parts of an audit fixture that enter its fingerprint. */
  datatype Fixture = Fixture(
    inputs: Json,
    params: Json,
    envInputOverrides: Option<Json>,
    envParamOverrides: Option<Json>,
    localDockerBuild: Option<Json>
  )

  datatype Entry = Entry(key: Text, value: Option<Json>)

  /** The members in source order; an absent one is left out of the object. */
  function Entries(componentId: Text, fixture: Fixture, contract: Option<Json>): seq<Entry> {
    [ Entry(Ascii("componentId"), Some(Str(componentId))),
      Entry(Ascii("inputs"), Some(fixture.inputs)),
      Entry(Ascii("params"), Some(fixture.params)),
      Entry(Ascii("envInputOverrides"), fixture.envInputOverrides),
      Entry(Ascii("envParamOverrides"), fixture.envParamOverrides),
      Entry(Ascii("localDockerBuild"), fixture.localDockerBuild),
      Entry(Ascii("contract"), contract) ]
  }

  function Present(entries: seq<Entry>): seq<Field> {
    if entries == [] then []
    else (if entries[0].value.Some? then [Field(entries[0].key, entries[0].value.value)] else [])
         + Present(entries[1..])
  }

  function Preimage(componentId: Text, fixture: Fixture, contract: Option<Json>): Json {
    Obj(Present(Entries(componentId, fixture, contract)))
  }

  predicate DistinctEntries(entries: seq<Entry>) {
    forall i, j :: 0 <= i < j < |entries| ==> entries[i].key != entries[j].key
  }

  predicate EntriesWellFormed(entries: seq<Entry>) {
    forall e <- entries :: e.value.Some? ==> WellFormed(e.value.value)
  }

  ghost predicate OptionAlike(v: Option<Json>, w: Option<Json>) {
    match (v, w)
    case (Some(a), Some(b)) => Alike(a, b)
    case _ => v == w
  }

  ghost predicate EntriesAlike(e: seq<Entry>, f: seq<Entry>) {
    |e| == |f| && forall i :: 0 <= i < |e| ==> OptionAlike(e[i].value, f[i].value)
  }

  lemma {:induction false} PresentFields(entries: seq<Entry>)
    requires DistinctEntries(entries) && EntriesWellFormed(entries)
    ensures WellFormed(Obj(Present(entries)))
    ensures forall f <- Present(entries) :: Entry(f.key, Some(f.value)) in entries
    ensures forall i :: 0 <= i < |entries| && entries[i].value.Some? ==>
              Field(entries[i].key, entries[i].value.value) in Present(entries)
  {
    if entries != [] {
      PresentFields(entries[1..]);
      assert entries == [entries[0]] + entries[1..];
      var rest := Present(entries[1..]);
      forall f <- rest
        ensures f.key != entries[0].key
      {
        var i :| 0 <= i < |entries[1..]| && entries[1..][i] == Entry(f.key, Some(f.value));
        assert entries[i + 1].key == f.key;
      }
    }
  }

  /** A present member is found under its key with its value; an absent one is not. */
  lemma EntryLookup(entries: seq<Entry>, i: nat)
    requires DistinctEntries(entries) && EntriesWellFormed(entries) && i < |entries|
    ensures HasKey(Present(entries), entries[i].key) <==> entries[i].value.Some?
    ensures entries[i].value.Some? ==>
              Lookup(Present(entries), entries[i].key) == entries[i].value.value
  {
    PresentFields(entries);
    var fields := Present(entries);
    if entries[i].value.Some? {
      var j :| 0 <= j < |fields| && fields[j] == Field(entries[i].key, entries[i].value.value);
      LookupAt(fields, j);
    }
  }

  lemma EntryOfField(entries: seq<Entry>, j: nat) returns (i: nat)
    requires DistinctEntries(entries) && EntriesWellFormed(entries) && j < |Present(entries)|
    ensures i < |entries| && entries[i] == Entry(Present(entries)[j].key, Some(Present(entries)[j].value))
  {
    PresentFields(entries);
    var f := Present(entries)[j];
    i :| 0 <= i < |entries| && entries[i] == Entry(f.key, Some(f.value));
  }

  lemma {:induction false} PresentSize(e: seq<Entry>, f: seq<Entry>)
    requires |e| == |f| && forall i :: 0 <= i < |e| ==> (e[i].value.Some? <==> f[i].value.Some?)
    ensures |Present(e)| == |Present(f)|
  {
    if e != [] {
      PresentSize(e[1..], f[1..]);
    }
  }

  lemma EntryAlikeInAlikeObjects(e: seq<Entry>, f: seq<Entry>, i: nat)
    requires Comparable(e, f) && Alike(Obj(Present(e)), Obj(Present(f))) && i < |e|
    ensures OptionAlike(e[i].value, f[i].value)
  {
    var a, b := Present(e), Present(f);
    assert DistinctEntries(f);
    PresentFields(e);
    PresentFields(f);
    EntryLookup(e, i);
    EntryLookup(f, i);
    if f[i].value.Some? {
      AlikeSymmetricKeys(a, b, e[i].key);
    }
    if e[i].value.Some? {
      var j :| 0 <= j < |a| && a[j] == Field(e[i].key, e[i].value.value);
      assert Alike(a[j].value, Lookup(b, a[j].key));
    }
  }

  lemma AlikeEntriesMakeAlikeObjects(e: seq<Entry>, f: seq<Entry>)
    requires Comparable(e, f) && EntriesAlike(e, f)
    ensures Alike(Obj(Present(e)), Obj(Present(f)))
  {
    var a, b := Present(e), Present(f);
    assert DistinctEntries(f);
    PresentSize(e, f);
    forall j | 0 <= j < |a|
      ensures HasKey(b, a[j].key) && Alike(a[j].value, Lookup(b, a[j].key))
    {
      var i := EntryOfField(e, j);
      EntryLookup(f, i);
    }
  }

  lemma ObjectsAlikeIffEntriesAlike(e: seq<Entry>, f: seq<Entry>)
    requires Comparable(e, f)
    ensures Alike(Obj(Present(e)), Obj(Present(f))) <==> EntriesAlike(e, f)
  {
    if Alike(Obj(Present(e)), Obj(Present(f))) {
      forall i | 0 <= i < |e| {
        EntryAlikeInAlikeObjects(e, f, i);
      }
    }
    if EntriesAlike(e, f) {
      AlikeEntriesMakeAlikeObjects(e, f);
    }
  }

  lemma AlikeSymmetricKeys(a: seq<Field>, b: seq<Field>, key: Text)
    requires DistinctKeys(a) && DistinctKeys(b) && SameKeys(a, b) && HasKey(b, key)
    ensures HasKey(a, key)
  {
    DistinctKeyMultiset(a);
    DistinctKeyMultiset(b);
    assert |KeySet(a)| == |multiset(KeySet(a))| == |Keys(a)|;
    assert |KeySet(b)| == |multiset(KeySet(b))| == |Keys(b)|;
    SubsetOfEqualSize(KeySet(a), KeySet(b));
    assert key in KeySet(a);
  }

  lemma EntriesAreDistinct(componentId: Text, fixture: Fixture, contract: Option<Json>)
    ensures DistinctEntries(Entries(componentId, fixture, contract))
  {
    assert Ascii("inputs")[0] != Ascii("params")[0];
    assert Ascii("envInputOverrides")[3] != Ascii("envParamOverrides")[3];
  }

  predicate FixtureWellFormed(fixture: Fixture, contract: Option<Json>) {
    && WellFormed(fixture.inputs) && WellFormed(fixture.params)
    && PartWellFormed(fixture.envInputOverrides) && PartWellFormed(fixture.envParamOverrides)
    && PartWellFormed(fixture.localDockerBuild) && PartWellFormed(contract)
  }

  predicate PartWellFormed(part: Option<Json>) {
    part.Some? ==> WellFormed(part.value)
  }

  /** Two fingerprint preimages are the same text exactly when component id, inputs,
      params, both override tables, docker build and contract all agree, each up to key
      order and [undefined] for [], and each present in both or in neither. */
  lemma PreimageDecidesEveryPart(
    id1: Text, fixture1: Fixture, contract1: Option<Json>,
    id2: Text, fixture2: Fixture, contract2: Option<Json>)
    requires FixtureWellFormed(fixture1, contract1) && FixtureWellFormed(fixture2, contract2)
    ensures StableStringify(Preimage(id1, fixture1, contract1)) ==
            StableStringify(Preimage(id2, fixture2, contract2)) <==>
              && id1 == id2
              && Alike(fixture1.inputs, fixture2.inputs)
              && Alike(fixture1.params, fixture2.params)
              && OptionAlike(fixture1.envInputOverrides, fixture2.envInputOverrides)
              && OptionAlike(fixture1.envParamOverrides, fixture2.envParamOverrides)
              && OptionAlike(fixture1.localDockerBuild, fixture2.localDockerBuild)
              && OptionAlike(contract1, contract2)
  {
    PreimageDecidesEntries(id1, fixture1, contract1, id2, fixture2, contract2);
    EntriesAlikeByPart(id1, fixture1, contract1, id2, fixture2, contract2);
  }

  lemma PreimageDecidesEntries(
    id1: Text, fixture1: Fixture, contract1: Option<Json>,
    id2: Text, fixture2: Fixture, contract2: Option<Json>)
    requires FixtureWellFormed(fixture1, contract1) && FixtureWellFormed(fixture2, contract2)
    ensures StableStringify(Preimage(id1, fixture1, contract1)) ==
            StableStringify(Preimage(id2, fixture2, contract2)) <==>
              EntriesAlike(Entries(id1, fixture1, contract1), Entries(id2, fixture2, contract2))
  {
    var e, f := Entries(id1, fixture1, contract1), Entries(id2, fixture2, contract2);
    assert Comparable(e, f) by {
      EntriesAreDistinct(id1, fixture1, contract1);
      PartsWellFormed(id1, fixture1, contract1);
      PartsWellFormed(id2, fixture2, contract2);
      EntriesHaveSameKeys(id1, fixture1, contract1, id2, fixture2, contract2);
    }
    EntriesDecide(e, f);
  }

  lemma EntriesAlikeByPart(
    id1: Text, fixture1: Fixture, contract1: Option<Json>,
    id2: Text, fixture2: Fixture, contract2: Option<Json>)
    ensures EntriesAlike(Entries(id1, fixture1, contract1), Entries(id2, fixture2, contract2)) <==>
              && id1 == id2
              && Alike(fixture1.inputs, fixture2.inputs)
              && Alike(fixture1.params, fixture2.params)
              && OptionAlike(fixture1.envInputOverrides, fixture2.envInputOverrides)
              && OptionAlike(fixture1.envParamOverrides, fixture2.envParamOverrides)
              && OptionAlike(fixture1.localDockerBuild, fixture2.localDockerBuild)
              && OptionAlike(contract1, contract2)
  {
    SevenEntries(Entries(id1, fixture1, contract1), Entries(id2, fixture2, contract2));
  }

  ghost predicate Comparable(e: seq<Entry>, f: seq<Entry>) {
    && |e| == |f| && (forall i :: 0 <= i < |e| ==> e[i].key == f[i].key)
    && DistinctEntries(e) && EntriesWellFormed(e) && EntriesWellFormed(f)
  }

  lemma EntriesHaveSameKeys(
    id1: Text, fixture1: Fixture, contract1: Option<Json>,
    id2: Text, fixture2: Fixture, contract2: Option<Json>)
    ensures var e, f := Entries(id1, fixture1, contract1), Entries(id2, fixture2, contract2);
            |e| == |f| && forall i :: 0 <= i < |e| ==> e[i].key == f[i].key
  {
  }

  lemma EntriesDecide(e: seq<Entry>, f: seq<Entry>)
    requires Comparable(e, f)
    ensures StableStringify(Obj(Present(e))) == StableStringify(Obj(Present(f))) <==> EntriesAlike(e, f)
  {
    assert DistinctEntries(f);
    ObjectsAlikeIffEntriesAlike(e, f);
    PresentFields(e);
    PresentFields(f);
    PrintsEqualIffAlike(Obj(Present(e)), Obj(Present(f)));
  }

  lemma PartsWellFormed(id: Text, fixture: Fixture, contract: Option<Json>)
    requires FixtureWellFormed(fixture, contract)
    ensures EntriesWellFormed(Entries(id, fixture, contract))
  {
  }

  lemma SevenEntries(e: seq<Entry>, f: seq<Entry>)
    requires |e| == |f| == 7
    ensures EntriesAlike(e, f) <==>
              && OptionAlike(e[0].value, f[0].value) && OptionAlike(e[1].value, f[1].value)
              && OptionAlike(e[2].value, f[2].value) && OptionAlike(e[3].value, f[3].value)
              && OptionAlike(e[4].value, f[4].value) && OptionAlike(e[5].value, f[5].value)
              && OptionAlike(e[6].value, f[6].value)
  {
  }

  // ---------- reading the preimage ----------

  function Part(v: Json, key: Text): Option<Json>
    requires v.Obj?
  {
    if HasKey(v.fields, key) then Some(Lookup(v.fields, key)) else None
  }

  lemma PartReads(entries: seq<Entry>, w: Json, i: nat)
    requires DistinctEntries(entries) && EntriesWellFormed(entries) && i < |entries|
    requires w.Obj? && DistinctKeys(w.fields) && Alike(Obj(Present(entries)), w)
    ensures OptionAlike(entries[i].value, Part(w, entries[i].key))
  {
    var fields := Present(entries);
    PresentFields(entries);
    EntryLookup(entries, i);
    if entries[i].value.Some? {
      var j :| 0 <= j < |fields| && fields[j] == Field(entries[i].key, entries[i].value.value);
      assert HasKey(w.fields, fields[j].key) && Alike(fields[j].value, Lookup(w.fields, fields[j].key));
    } else if HasKey(w.fields, entries[i].key) {
      AlikeSymmetricKeys(fields, w.fields, entries[i].key);
    }
  }

  function One(part: Option<Json>): nat { if part.Some? then 1 else 0 }

  /** An object with the seven parts under their names, each as it is or, where it is missing,
      not at all, and with nothing else. */
  ghost predicate HasParts(w: Json, componentId: Text, fixture: Fixture, contract: Option<Json>) {
    && w.Obj?
    && OptionAlike(Some(Str(componentId)), Part(w, Ascii("componentId")))
    && OptionAlike(Some(fixture.inputs), Part(w, Ascii("inputs")))
    && OptionAlike(Some(fixture.params), Part(w, Ascii("params")))
    && OptionAlike(fixture.envInputOverrides, Part(w, Ascii("envInputOverrides")))
    && OptionAlike(fixture.envParamOverrides, Part(w, Ascii("envParamOverrides")))
    && OptionAlike(fixture.localDockerBuild, Part(w, Ascii("localDockerBuild")))
    && OptionAlike(contract, Part(w, Ascii("contract")))
    && |w.fields| == 3 + One(fixture.envInputOverrides) + One(fixture.envParamOverrides)
                     + One(fixture.localDockerBuild) + One(contract)
  }

  lemma PresentCons(entries: seq<Entry>, i: nat)
    requires i < |entries|
    ensures |Present(entries[i..])| == One(entries[i].value) + |Present(entries[i + 1..])|
  {
    assert entries[i..][1..] == entries[i + 1..];
  }

  lemma PresentCount(entries: seq<Entry>)
    requires |entries| == 7
    ensures |Present(entries)| ==
            One(entries[0].value) + One(entries[1].value) + One(entries[2].value) + One(entries[3].value)
            + One(entries[4].value) + One(entries[5].value) + One(entries[6].value)
  {
    hide Present, One;
    PresentCons(entries, 0);
    PresentCons(entries, 1);
    PresentCons(entries, 2);
    PresentCons(entries, 3);
    PresentCons(entries, 4);
    PresentCons(entries, 5);
    PresentCons(entries, 6);
    NonePresent();
    assert entries[0..] == entries && entries[7..] == [];
  }

  lemma NonePresent()
    ensures Present([]) == []
  {
  }

  lemma PartsRead(componentId: Text, fixture: Fixture, contract: Option<Json>, w: Json)
    requires FixtureWellFormed(fixture, contract)
    requires w.Obj? && DistinctKeys(w.fields) && Alike(Preimage(componentId, fixture, contract), w)
    ensures HasParts(w, componentId, fixture, contract)
  {
    hide Alike, WellFormed, HasKey, Lookup, Present;
    var entries := Entries(componentId, fixture, contract);
    EntriesAreDistinct(componentId, fixture, contract);
    PartsWellFormed(componentId, fixture, contract);
    AlikeObject(Obj(Present(entries)), w);
    PresentCount(entries);
    hide DistinctEntries, EntriesWellFormed;
    PartReads(entries, w, 0);
    PartReads(entries, w, 1);
    PartReads(entries, w, 2);
    PartReads(entries, w, 3);
    PartReads(entries, w, 4);
    PartReads(entries, w, 5);
    PartReads(entries, w, 6);
  }

  lemma AlikeObject(v: Json, w: Json)
    requires v.Obj? && Alike(v, w)
    ensures w.Obj? && |w.fields| == |v.fields|
  {
  }

  /** The text a component fingerprint is the hash of reads as an object with its seven parts,
      whose keys ascend at every level. */
  lemma PreimageReadsBack(componentId: Text, fixture: Fixture, contract: Option<Json>)
    requires FixtureWellFormed(fixture, contract)
    ensures StableStringify(Preimage(componentId, fixture, contract)).Printed?
    ensures exists w ::
              && Reader.ReadValue(StableStringify(Preimage(componentId, fixture, contract)).text, true) ==
                 Reader.Reads(w, [])
              && HasParts(w, componentId, fixture, contract) && KeysAscend(w)
  {
    hide Alike, WellFormed, HasParts;
    var entries := Entries(componentId, fixture, contract);
    EntriesAreDistinct(componentId, fixture, contract);
    PartsWellFormed(componentId, fixture, contract);
    PresentFields(entries);
    var v := Preimage(componentId, fixture, contract);
    PrintsReadBack(v, true);
    var w :| && Reader.ReadValue(StableStringify(v).text, true) == Reader.Reads(w, [])
             && Alike(v, w) && KeysAscend(w);
    AlikeObject(v, w);
    DistinctByOrder(w.fields);
    PartsRead(componentId, fixture, contract, w);
  }
}
