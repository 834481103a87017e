/** Create-only migration of legacy findings indices into the stable one. */
module FindingsMigration {
  import opened Options
  import opened CanonicalJson
  import opened CanonicalJsonTheorems

  type DocId = nat

  type Organization = nat

  datatype Document = Document(organization: Organization, body: int)

  type Index = map<DocId, Document>

  type IndexName = Text

  /** The final ingest pipeline: it rewrites a document or rejects it. */
  type Pipeline = (DocId, Document) -> Option<Document>

  // ---------- the plan ----------

  predicate DigitsAt(t: Text, positions: seq<nat>) {
    forall i <- positions :: i < |t| && IsDigit(t[i])
  }

  /** yyyy.mm.dd */
  predicate IsDaily(suffix: Text) {
    |suffix| == 10 && suffix[4] == 46 && suffix[7] == 46 && DigitsAt(suffix, [0, 1, 2, 3, 5, 6, 8, 9])
  }

  predicate IsSourceName(prefix: Text, target: IndexName, name: IndexName) {
    && |prefix| <= |name| && name[..|prefix|] == prefix && name != target
    && (IsDaily(name[|prefix|..]) || name[|prefix|..] == Ascii("observations-v1"))
  }

  predicate AllDigits(t: Text) {
    forall u <- t :: IsDigit(u)
  }

  /** A year of four digits, a month and a day of two, with points between. */
  ghost predicate IsDate(t: Text) {
    exists y: Text, m: Text, d: Text ::
      && |y| == 4 && |m| == |d| == 2 && AllDigits(y) && AllDigits(m) && AllDigits(d)
      && t == y + [46] + m + [46] + d
  }

  lemma DailyIff(t: Text)
    ensures IsDaily(t) <==> IsDate(t)
  {
    if IsDaily(t) {
      var y, m, d := t[..4], t[5..7], t[8..10];
      assert forall i <- [0, 1, 2, 3, 5, 6, 8, 9] :: IsDigit(t[i]);
      assert AllDigits([t[0], t[1], t[2], t[3]]) && y == [t[0], t[1], t[2], t[3]];
      assert AllDigits([t[5], t[6]]) && m == [t[5], t[6]];
      assert AllDigits([t[8], t[9]]) && d == [t[8], t[9]];
      assert t == y + [46] + m + [46] + d;
    }
    if IsDate(t) {
      var y: Text, m: Text, d: Text :|
        && |y| == 4 && |m| == |d| == 2 && AllDigits(y) && AllDigits(m) && AllDigits(d)
        && t == y + [46] + m + [46] + d;
      assert t[0] == y[0] && t[1] == y[1] && t[2] == y[2] && t[3] == y[3];
      assert t[5] == m[0] && t[6] == m[1] && t[8] == d[0] && t[9] == d[1];
    }
  }

  /** A legacy index is named by the prefix and then a date or the old stable suffix. */
  lemma SourceNameIff(prefix: Text, target: IndexName, name: IndexName)
    ensures IsSourceName(prefix, target, name) <==>
              name != target && exists suffix: Text ::
                name == prefix + suffix && (IsDate(suffix) || suffix == Ascii("observations-v1"))
  {
    hide IsDaily, IsDate;
    if IsSourceName(prefix, target, name) {
      DailyIff(name[|prefix|..]);
      assert name == prefix + name[|prefix|..];
    }
    if suffix: Text :| name == prefix + suffix && (IsDate(suffix) || suffix == Ascii("observations-v1")) {
      DailyIff(suffix);
      assert name[|prefix|..] == suffix && name[..|prefix|] == prefix;
    }
  }

  function SourceNames(prefix: Text, target: IndexName, existing: seq<IndexName>): (r: seq<IndexName>)
    ensures forall name :: name in r <==> name in existing && IsSourceName(prefix, target, name)
    ensures forall i, j :: 0 <= i < j < |r| ==> r[i] != r[j]
  {
    if existing == [] then []
    else
      var rest := SourceNames(prefix, target, existing[1..]);
      if IsSourceName(prefix, target, existing[0]) && existing[0] !in rest then [existing[0]] + rest else rest
  }

  /** The existing legacy indices of the organization, without repetition, in name order. */
  function SourceIndices(prefix: Text, target: IndexName, existing: seq<IndexName>): seq<IndexName> {
    SortKeys(SourceNames(prefix, target, existing))
  }

  // ---------- what a migration means ----------

  predicate Accepts(source: Index, org: Organization, pipeline: Pipeline, id: DocId) {
    id in source && source[id].organization == org && pipeline(id, source[id]).Some?
  }

  /** The organization's documents of a source that a target does not have yet. */
  function Additions(target: Index, source: Index, org: Organization, pipeline: Pipeline): Index {
    map id | id in source && id !in target && Accepts(source, org, pipeline, id) :: pipeline(id, source[id]).value
  }

  function Merge(target: Index, sources: seq<Index>, org: Organization, pipeline: Pipeline): Index {
    if sources == [] then target
    else
      var merged := Merge(target, sources[..|sources| - 1], org, pipeline);
      merged + Additions(merged, sources[|sources| - 1], org, pipeline)
  }

  predicate SubIndex(a: Index, b: Index) {
    forall id <- a.Keys :: id in b && a[id] == b[id]
  }

  /** The first source, in order, that offers this id. */
  function FirstOffer(sources: seq<Index>, org: Organization, pipeline: Pipeline, id: DocId): Option<Document> {
    if sources == [] then None
    else if Accepts(sources[0], org, pipeline, id) then pipeline(id, sources[0][id])
    else FirstOffer(sources[1..], org, pipeline, id)
  }

  lemma {:induction false} FirstOfferSnoc(sources: seq<Index>, source: Index,
                                          org: Organization, pipeline: Pipeline, id: DocId)
    ensures FirstOffer(sources + [source], org, pipeline, id) ==
            if FirstOffer(sources, org, pipeline, id).Some? then FirstOffer(sources, org, pipeline, id)
            else if Accepts(source, org, pipeline, id) then pipeline(id, source[id])
            else None
  {
    if sources == [] {
      assert sources + [source] == [source];
    } else {
      assert (sources + [source])[1..] == sources[1..] + [source];
      FirstOfferSnoc(sources[1..], source, org, pipeline, id);
    }
  }

  /** Documents of the target stay; any other id holds what the first source offering it
      has, and nothing else comes in. */
  lemma {:induction false} MergeAt(target: Index, sources: seq<Index>, org: Organization, pipeline: Pipeline, id: DocId)
    ensures var merged := Merge(target, sources, org, pipeline);
            var offer := FirstOffer(sources, org, pipeline, id);
            && (id in merged <==> id in target || offer.Some?)
            && (id in target ==> merged[id] == target[id])
            && (id !in target && offer.Some? ==> merged[id] == offer.value)
  {
    if sources != [] {
      var front, last := sources[..|sources| - 1], sources[|sources| - 1];
      MergeAt(target, front, org, pipeline, id);
      FirstOfferSnoc(front, last, org, pipeline, id);
      assert sources == front + [last];
    }
  }

  /** Every document of the organization in a source that the pipeline does not reject ends in
      the target. */
  lemma OffersArrive(target: Index, sources: seq<Index>, org: Organization, pipeline: Pipeline, k: nat, id: DocId)
    requires k < |sources| && id in sources[k] && sources[k][id].organization == org
    requires pipeline(id, sources[k][id]) != None
    ensures id in Merge(target, sources, org, pipeline)
  {
    OfferExists(sources, org, pipeline, k, id);
    MergeAt(target, sources, org, pipeline, id);
  }

  /** And what is new in the target is a document of the organization in some source, as the
      pipeline rewrites it. */
  lemma NewcomersAreOffered(target: Index, sources: seq<Index>, org: Organization, pipeline: Pipeline, id: DocId)
    requires id in Merge(target, sources, org, pipeline) && id !in target
    ensures exists k :: 0 <= k < |sources| && id in sources[k] && sources[k][id].organization == org
                        && pipeline(id, sources[k][id]) == Some(Merge(target, sources, org, pipeline)[id])
  {
    MergeAt(target, sources, org, pipeline, id);
    var k := OfferFrom(sources, org, pipeline, id);
  }

  lemma {:induction false} OfferFrom(sources: seq<Index>, org: Organization, pipeline: Pipeline, id: DocId)
    returns (k: nat)
    requires FirstOffer(sources, org, pipeline, id).Some?
    ensures k < |sources| && id in sources[k] && sources[k][id].organization == org
    ensures pipeline(id, sources[k][id]) == FirstOffer(sources, org, pipeline, id)
  {
    if Accepts(sources[0], org, pipeline, id) {
      k := 0;
    } else {
      k := OfferFrom(sources[1..], org, pipeline, id);
      k := k + 1;
    }
  }

  lemma {:induction false} OfferExists(sources: seq<Index>, org: Organization, pipeline: Pipeline, k: nat, id: DocId)
    requires k < |sources| && Accepts(sources[k], org, pipeline, id)
    ensures FirstOffer(sources, org, pipeline, id).Some?
  {
    if !Accepts(sources[0], org, pipeline, id) {
      OfferExists(sources[1..], org, pipeline, k - 1, id);
    }
  }

  lemma MergeIsCreateOnly(target: Index, sources: seq<Index>, org: Organization, pipeline: Pipeline)
    ensures SubIndex(target, Merge(target, sources, org, pipeline))
  {
    forall id <- target.Keys {
      MergeAt(target, sources, org, pipeline, id);
    }
  }

  /** From whatever an interrupted run left behind, a complete run reaches the same target
      as one run without interruption. */
  lemma RerunReachesTheSame(target: Index, partly: Index, sources: seq<Index>, org: Organization, pipeline: Pipeline)
    requires SubIndex(target, partly) && SubIndex(partly, Merge(target, sources, org, pipeline))
    ensures Merge(partly, sources, org, pipeline) == Merge(target, sources, org, pipeline)
  {
    var a, b := Merge(partly, sources, org, pipeline), Merge(target, sources, org, pipeline);
    forall id: DocId
      ensures id in a <==> id in b
      ensures id in a ==> a[id] == b[id]
    {
      MergeAt(partly, sources, org, pipeline, id);
      MergeAt(target, sources, org, pipeline, id);
    }
    assert a.Keys == b.Keys;
  }

  /** A second run adds nothing. */
  lemma SecondRunAddsNothing(target: Index, sources: seq<Index>, org: Organization, pipeline: Pipeline)
    ensures var once := Merge(target, sources, org, pipeline);
            Merge(once, sources, org, pipeline) == once
  {
    MergeIsCreateOnly(target, sources, org, pipeline);
    RerunReachesTheSame(target, Merge(target, sources, org, pipeline), sources, org, pipeline);
  }

  lemma {:induction false} MergeGrows(target: Index, sources: seq<Index>, n: nat, org: Organization, pipeline: Pipeline)
    requires n <= |sources|
    ensures SubIndex(Merge(target, sources[..n], org, pipeline), Merge(target, sources, org, pipeline))
    decreases |sources|
  {
    if n == |sources| {
      assert sources[..n] == sources;
    } else {
      var front := sources[..|sources| - 1];
      MergeGrows(target, front, n, org, pipeline);
      assert front[..n] == sources[..n];
    }
  }

  lemma MergeSnoc(target: Index, sources: seq<Index>, n: nat, org: Organization, pipeline: Pipeline)
    requires n < |sources|
    ensures var merged := Merge(target, sources[..n], org, pipeline);
            Merge(target, sources[..n + 1], org, pipeline) == merged + Additions(merged, sources[n], org, pipeline)
  {
    assert sources[..n + 1][..n] == sources[..n];
  }

  // ---------- the cluster ----------

  /** What the service does with one reindex request: it may stop early, and then or on a
      rejected document it has handled only some of the documents. */
  datatype Behaviour = Behaviour(cutShort: bool, handled: set<DocId>)

  datatype Response = Response(timedOut: bool, failures: nat, created: nat, updated: nat)

  /** The organization's documents the pipeline rejects; it runs before the target is asked
      whether it has the document already. */
  function Rejected(source: Index, org: Organization, pipeline: Pipeline): set<DocId> {
    set id | id in source && source[id].organization == org && pipeline(id, source[id]) == None
  }

  /** A request completes when it is not cut short and the pipeline takes every document of the
      organization. */
  predicate Completes(source: Index, org: Organization, pipeline: Pipeline, does: Behaviour) {
    !does.cutShort && forall id <- source.Keys :: source[id].organization == org ==> pipeline(id, source[id]) != None
  }

  lemma CompletesIff(source: Index, org: Organization, pipeline: Pipeline, does: Behaviour)
    ensures Completes(source, org, pipeline, does) <==> !does.cutShort && |Rejected(source, org, pipeline)| == 0
  {
    var rejected := Rejected(source, org, pipeline);
    if Completes(source, org, pipeline, does) {
      assert rejected == {};
    } else if !does.cutShort {
      var id :| id in source && source[id].organization == org && pipeline(id, source[id]) == None;
      assert id in rejected;
    }
  }

  /** The documents one reindex request creates. */
  function Created(target: Index, source: Index, org: Organization, pipeline: Pipeline, does: Behaviour): Index {
    var additions := Additions(target, source, org, pipeline);
    if Completes(source, org, pipeline, does) then additions
    else map id | id in additions && id in does.handled :: additions[id]
  }

  lemma GrowthOfCreated(target: Index, source: Index, org: Organization, pipeline: Pipeline, does: Behaviour)
    ensures var created := Created(target, source, org, pipeline, does);
            && |target + created| == |target| + |created|
            && SubIndex(target, target + created)
            && SubIndex(target + created, target + Additions(target, source, org, pipeline))
  {
    var created := Created(target, source, org, pipeline, does);
    assert (target + created).Keys == target.Keys + created.Keys;
    assert target.Keys !! created.Keys;
  }

  type Indices = map<IndexName, Index>

  function Contents(indices: Indices, name: IndexName): Index {
    if name in indices then indices[name] else map[]
  }

  function SourcesOf(indices: Indices, names: seq<IndexName>): (r: seq<Index>)
    ensures |r| == |names| && forall i :: 0 <= i < |names| ==> r[i] == Contents(indices, names[i])
  {
    seq(|names|, i requires 0 <= i < |names| => Contents(indices, names[i]))
  }

  /** All indices but the target, the sources among them, are the same. */
  predicate SameElsewhere(was: Indices, now: Indices, target: IndexName) {
    was - {target} == now - {target}
  }

  lemma SameContents(was: Indices, now: Indices, target: IndexName, name: IndexName)
    requires SameElsewhere(was, now, target) && name != target
    ensures Contents(now, name) == Contents(was, name)
  {
    assert name in was <==> name in was - {target};
    assert name in now <==> name in now - {target};
    if name in was {
      assert was[name] == (was - {target})[name] == (now - {target})[name];
    }
  }

  /** The requests up to the i-th all complete. */
  predicate AllComplete(sources: seq<Index>, i: nat, org: Organization, pipeline: Pipeline, does: nat -> Behaviour) {
    i <= |sources| && forall j :: 0 <= j < i ==> Completes(sources[j], org, pipeline, does(j))
  }

  /** The i-th request is the first that does not complete; the sources before it are merged,
      and it has created what it came to. */
  ghost predicate StopsAt(before: Index, after: Index, sources: seq<Index>, i: nat,
                          org: Organization, pipeline: Pipeline, does: nat -> Behaviour) {
    && i < |sources| && AllComplete(sources, i, org, pipeline, does)
    && !Completes(sources[i], org, pipeline, does(i))
    && var merged := Merge(before, sources[..i], org, pipeline);
       after == merged + Created(merged, sources[i], org, pipeline, does(i))
  }

  datatype Outcome =
    | DryRun
    | Migrated(migratedDocuments: nat)
    | Incomplete(source: IndexName)

  class Cluster {
    var indices: Indices
    const pipeline: Pipeline

    constructor (p: Pipeline)
      ensures pipeline == p && indices == map[]
    {
      pipeline, indices := p, map[];
    }

    /** Reindex with op_type create and conflicts: proceed. */
    method Reindex(source: IndexName, target: IndexName, org: Organization, does: Behaviour)
      returns (response: Response)
      requires source != target
      modifies this
      ensures SameElsewhere(old(indices), indices, target)
      ensures var before, docs := old(Contents(indices, target)), old(Contents(indices, source));
              var created := Created(before, docs, org, pipeline, does);
              && Contents(indices, target) == before + created
              && response == Response(does.cutShort, |Rejected(docs, org, pipeline)|, |created|, 0)
    {
      var before, docs := Contents(indices, target), Contents(indices, source);
      var created := Created(before, docs, org, pipeline, does);
      if created == map[] {
        assert before + created == before;
      } else {
        ghost var was := indices;
        indices := indices[target := before + created];
        assert was - {target} == indices - {target};
      }
      response := Response(does.cutShort, |Rejected(docs, org, pipeline)|, |created|, 0);
    }

    /** Migrate, or only plan when apply is off; the service behaves as told, request by request. */
    method MigrateFindingsIndices(prefix: Text, target: IndexName, existing: seq<IndexName>,
                                  org: Organization, apply: bool, does: nat -> Behaviour)
      returns (outcome: Outcome)
      modifies this
      ensures SameElsewhere(old(indices), indices, target)
      ensures !apply <==> outcome.DryRun?
      ensures !apply ==> indices == old(indices)
      ensures var before := old(Contents(indices, target));
              var sources := SourcesOf(old(indices), SourceIndices(prefix, target, existing));
              var after := Contents(indices, target);
              && SubIndex(before, after) && SubIndex(after, Merge(before, sources, org, pipeline))
              && (outcome.Migrated? ==>
                    && after == Merge(before, sources, org, pipeline)
                    && outcome.migratedDocuments == |after| - |before|)
              && (outcome.Migrated? <==> apply && AllComplete(sources, |sources|, org, pipeline, does))
              && (outcome.Incomplete? ==>
                    exists i :: 0 <= i < |sources| && outcome.source == SourceIndices(prefix, target, existing)[i]
                                && StopsAt(before, after, sources, i, org, pipeline, does))
    {
      var names := SourceIndices(prefix, target, existing);
      SourceIndicesAreSources(prefix, target, existing);
      MergeIsCreateOnly(Contents(indices, target), SourcesOf(indices, names), org, pipeline);
      if !apply { return DryRun; }
      ghost var at;
      outcome, at := ReindexAll(names, target, org, does);
    }

    /** Request i of the loop: does it complete, and how many documents did it create? */
    method Request(source: IndexName, target: IndexName, org: Organization, does: nat -> Behaviour,
                   ghost before: Index, ghost sources: seq<Index>, i: nat)
      returns (complete: bool, count: nat)
      requires source != target && i < |sources| && Contents(indices, source) == sources[i]
      requires Contents(indices, target) == Merge(before, sources[..i], org, pipeline)
      requires AllComplete(sources, i, org, pipeline, does)
      modifies this
      ensures SameElsewhere(old(indices), indices, target)
      ensures SubIndex(before, Contents(indices, target))
      ensures SubIndex(Contents(indices, target), Merge(before, sources, org, pipeline))
      ensures count == |Contents(indices, target)| - |old(Contents(indices, target))|
      ensures complete <==> AllComplete(sources, i + 1, org, pipeline, does)
      ensures if complete then Contents(indices, target) == Merge(before, sources[..i + 1], org, pipeline)
              else StopsAt(before, Contents(indices, target), sources, i, org, pipeline, does)
    {
      RequestFacts(before, sources, i, org, pipeline, does(i));
      var response := Reindex(source, target, org, does(i));
      complete := !(response.timedOut || response.failures > 0);
      count := response.created + response.updated;
    }

    /** One reindex request after the other, up to the first incomplete one. */
    method ReindexAll(names: seq<IndexName>, target: IndexName, org: Organization, does: nat -> Behaviour)
      returns (outcome: Outcome, ghost at: nat)
      requires forall k :: 0 <= k < |names| ==> names[k] != target
      modifies this
      ensures SameElsewhere(old(indices), indices, target) && !outcome.DryRun?
      ensures var before, sources := old(Contents(indices, target)), SourcesOf(old(indices), names);
              var after := Contents(indices, target);
              && SubIndex(before, after) && SubIndex(after, Merge(before, sources, org, pipeline))
              && (outcome.Migrated? ==>
                    && after == Merge(before, sources, org, pipeline)
                    && outcome.migratedDocuments == |after| - |before|)
              && (outcome.Migrated? <==> AllComplete(sources, |sources|, org, pipeline, does))
              && (outcome.Incomplete? ==>
                    at < |names| && outcome.source == names[at]
                    && StopsAt(before, after, sources, at, org, pipeline, does))
    {
      ghost var was, before, sources := indices, Contents(indices, target), SourcesOf(indices, names);
      at := 0;
      var migrated := 0;
      var i := 0;
      assert sources[..0] == [];
      hide StopsAt, AllComplete, Merge;
      while i < |names|
        invariant i <= |names| && SameElsewhere(was, indices, target)
        invariant Contents(indices, target) == Merge(before, sources[..i], org, pipeline)
        invariant migrated == |Contents(indices, target)| - |before|
        invariant AllComplete(sources, i, org, pipeline, does)
      {
        SameContents(was, indices, target, names[i]);
        var complete, count := Request(names[i], target, org, does, before, sources, i);
        if !complete {
          return Incomplete(names[i]), i;
        }
        migrated := migrated + count;
        i := i + 1;
      }
      assert sources[..i] == sources;
      MergeIsCreateOnly(before, sources, org, pipeline);
      outcome := Migrated(migrated);
    }
  }

  /** What request i does to a target that has taken in the sources before it. */
  lemma RequestFacts(before: Index, sources: seq<Index>, i: nat, org: Organization, pipeline: Pipeline, does: Behaviour)
    requires i < |sources|
    ensures var merged := Merge(before, sources[..i], org, pipeline);
            var created := Created(merged, sources[i], org, pipeline, does);
            && |merged + created| == |merged| + |created|
            && SubIndex(merged, merged + created)
            && SubIndex(before, merged + created)
            && SubIndex(merged + created, Merge(before, sources, org, pipeline))
            && (Completes(sources[i], org, pipeline, does) ==>
                  merged + created == Merge(before, sources[..i + 1], org, pipeline))
            && (Completes(sources[i], org, pipeline, does) <==>
                  !does.cutShort && |Rejected(sources[i], org, pipeline)| == 0)
  {
    MergeIsCreateOnly(before, sources[..i], org, pipeline);
    GrowthOfCreated(Merge(before, sources[..i], org, pipeline), sources[i], org, pipeline, does);
    MergeSnoc(before, sources, i, org, pipeline);
    MergeGrows(before, sources, i + 1, org, pipeline);
    CompletesIff(sources[i], org, pipeline, does);
  }

  /** The planned sources are exactly the existing legacy indices of the organization, each
      once, in name order, and never the target. */
  lemma SourceIndicesAreSources(prefix: Text, target: IndexName, existing: seq<IndexName>)
    ensures var names := SourceIndices(prefix, target, existing);
            && (forall i :: 0 <= i < |names| ==> names[i] != target)
            && (forall name :: name in names <==> name in existing && IsSourceName(prefix, target, name))
            && KeysSorted(names)
            && multiset(names) == multiset(set name | name in existing && IsSourceName(prefix, target, name))
  {
    var names, sorted := SourceNames(prefix, target, existing), SourceIndices(prefix, target, existing);
    SortKeysSorts(names);
    DistinctMultiset(names);
    assert (set name | name in names) == set name | name in existing && IsSourceName(prefix, target, name);
    forall name: IndexName
      ensures name in sorted <==> name in names
    {
      assert name in sorted <==> name in multiset(sorted);
      assert name in names <==> name in multiset(names);
    }
    forall i | 0 <= i < |sorted|
      ensures sorted[i] != target
    {
      assert sorted[i] in sorted;
    }
  }

  lemma {:induction false} DistinctMultiset(names: seq<IndexName>)
    requires forall i, j :: 0 <= i < j < |names| ==> names[i] != names[j]
    ensures multiset(names) == multiset(set name | name in names)
  {
    if names != [] {
      var rest := names[1..];
      DistinctMultiset(rest);
      assert names == [names[0]] + rest;
      assert (set name | name in names) == {names[0]} + (set name | name in rest);
      assert names[0] !in rest;
    }
  }
}
