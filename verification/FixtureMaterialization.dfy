/** Materializing an audit fixture: a deep copy with environment values written into it. */
module FixtureMaterialization {
  import opened FixtureObjects
  import opened FixtureContent
  import opened Options

  // ---------- from objects to content ----------

  function KindOf(n: Node): Item {
    if n.isArray then ArrayItem else ObjectItem
  }

  function ItemOf(v: Value): Item {
    match v
    case Plain(scalar) => Leaf(scalar)
    case Ref(n) => KindOf(n)
  }

  /** The members of every node, taken at one moment. */
  type Snapshot = map<Path, Members>

  ghost function SnapshotOf(t: Layout): (ms: Snapshot)
    reads t.Values
    ensures ms.Keys == t.Keys && forall p <- t.Keys :: ms[p] == t[p].members
  {
    map p | p in t :: t[p].members
  }

  predicate HasMember(ms: Snapshot, q: Path) {
    q != [] && Up(q) in ms && Name(q) in ms[Up(q)]
  }

  function ItemIn(t: Layout, ms: Snapshot, q: Path): Option<Item>
    requires [] in t
  {
    if q == [] then Some(KindOf(t[[]]))
    else if HasMember(ms, q) then Some(ItemOf(ms[Up(q)][Name(q)]))
    else None
  }

  ghost function MemberPaths(ms: Snapshot): (ps: set<Path>)
    ensures forall q :: q in ps <==> HasMember(ms, q)
  {
    var ps := set p, k | p in ms.Keys && k in ms[p].Keys :: p + [k];
    assert forall q | HasMember(ms, q) :: q == Up(q) + [Name(q)];
    ps
  }

  ghost function ContentIn(t: Layout, ms: Snapshot): Content
    requires [] in t
  {
    map q | q in MemberPaths(ms) + {[]} :: ItemIn(t, ms, q).value
  }

  lemma ContentAt(t: Layout, ms: Snapshot, q: Path)
    requires [] in t
    ensures At(ContentIn(t, ms), q) == ItemIn(t, ms, q)
  {
  }

  /** The content a structure has, read off its objects. */
  ghost function ContentOf(t: Layout): Content
    requires [] in t
    reads t.Values
  {
    ContentIn(t, SnapshotOf(t))
  }

  lemma EqualContents(c: Content, d: Content)
    requires forall q :: At(c, q) == At(d, q)
    ensures c == d
  {
    forall q: Path
      ensures q in c <==> q in d
      ensures q in c ==> c[q] == d[q]
    {
      assert At(c, q) == At(d, q);
    }
    assert c.Keys == d.Keys;
  }

  lemma CopyHasContent(s: Layout, t: Layout)
    requires Unfolds(s, []) && Unfolds(t, []) && Copies(s, t, [])
    ensures ContentOf(t) == ContentOf(s)
  {
    var ms, mt := SnapshotOf(s), SnapshotOf(t);
    forall q: Path
      ensures At(ContentIn(t, mt), q) == At(ContentIn(s, ms), q)
    {
      ContentAt(s, ms, q);
      ContentAt(t, mt, q);
      if q == [] {
        assert SameAt(s, t, []);
      } else if Up(q) in s {
        SameMember(s, t, Up(q), Name(q));
      }
    }
    EqualContents(ContentIn(t, mt), ContentIn(s, ms));
  }

  lemma SameMember(s: Layout, t: Layout, p: Path, k: Key)
    requires Unfolds(s, []) && Unfolds(t, []) && Copies(s, t, []) && p in s
    ensures p in t && (k in t[p].members <==> k in s[p].members)
    ensures k in t[p].members ==> ItemOf(t[p].members[k]) == ItemOf(s[p].members[k])
  {
    assert p in t && SameAt(s, t, p) && Linked(s, p) && Linked(t, p);
    if k in s[p].members && s[p].members[k].Ref? {
      assert SameAt(s, t, p + [k]);
    }
  }

  // ---------- writing one member ----------

  /** A structure in which every node stands at one path only. */
  ghost predicate TreeIn(t: Layout, ms: Snapshot) {
    && Unshared(t) && [] in t && ms.Keys == t.Keys
    && (forall p {:trigger LinksFit(t, p, ms[p])} :: p in t ==> LinksFit(t, p, ms[p]))
    && (forall p {:trigger AnchoredIn(t, ms, p)} :: p in t ==> AnchoredIn(t, ms, p))
  }

  predicate AnchoredIn(t: Layout, ms: Snapshot, p: Path)
    requires p in t
  {
    p == [] || (Up(p) in ms && HoldsNode(ms[Up(p)], Name(p), t[p]))
  }

  ghost predicate IsTree(t: Layout, root: Node)
    reads t.Values
  {
    TreeIn(t, SnapshotOf(t)) && t[[]] == root
  }

  lemma UnsharedIsTree(t: Layout)
    requires Unfolds(t, []) && Unshared(t)
    ensures IsTree(t, t[[]])
  {
    var ms := SnapshotOf(t);
    forall p <- t.Keys
      ensures LinksFit(t, p, ms[p]) && AnchoredIn(t, ms, p)
    {
      assert Linked(t, p) && Anchored(t, p, []);
    }
  }

  function Pruned<T>(m: map<Path, T>, p: Path): map<Path, T> {
    map q | q in m && !(p <= q) :: m[q]
  }

  function WithMember(t: Layout, p: Path, k: Key, v: Value): Layout {
    if v.Ref? then Pruned(t, p + [k])[p + [k] := v.node] else Pruned(t, p + [k])
  }

  function WithMembers(ms: Snapshot, p: Path, k: Key, v: Value): Snapshot
    requires p in ms
  {
    var kept := Pruned(ms[p := ms[p][k := v]], p + [k]);
    if v.Ref? then kept[p + [k] := map[]] else kept
  }

  lemma MemberPath(p: Path, k: Key)
    ensures Up(p + [k]) == p && Name(p + [k]) == k && !(p + [k] <= p)
  {
  }

  lemma OneUp(p: Path, q: Path)
    requires p != [] && q != []
    ensures q == Up(q) + [Name(q)]
    ensures p <= q <==> q == p || p <= Up(q)
  {
  }

  lemma WithMembersAt(ms: Snapshot, p: Path, k: Key, v: Value, q: Path)
    requires p in ms
    ensures var mu := WithMembers(ms, p, k, v);
            && (q in mu <==> (q == p + [k] && v.Ref?) || (q in ms && !(p + [k] <= q)))
            && (q in mu ==> mu[q] == if q == p + [k] then map[] else if q == p then ms[p][k := v] else ms[q])
  {
    MemberPath(p, k);
  }

  lemma AttachedLink(t: Layout, ms: Snapshot, p: Path, k: Key, v: Value, q: Path, j: Key)
    requires TreeIn(t, ms) && p in t && q in t && !(p + [k] <= q)
    requires j in WithMembers(ms, p, k, v)[q] && WithMembers(ms, p, k, v)[q][j].Ref?
    ensures var u := WithMember(t, p, k, v);
            q + [j] in u && u[q + [j]] == WithMembers(ms, p, k, v)[q][j].node
  {
    WithMembersAt(ms, p, k, v, q);
    WithMemberAt(t, p, k, v, q + [j]);
    MemberPath(q, j);
    MemberPath(p, k);
    if q + [j] != p + [k] {
      assert LinksFit(t, q, ms[q]);
      OneUp(p + [k], q + [j]);
    }
  }

  lemma WithMemberAt(t: Layout, p: Path, k: Key, v: Value, q: Path)
    ensures var u := WithMember(t, p, k, v);
            && (q in u <==> (q == p + [k] && v.Ref?) || (q in t && !(p + [k] <= q)))
            && (q in u ==> u[q] == if q == p + [k] then v.node else t[q])
  {
  }

  lemma AttachedLinks(t: Layout, ms: Snapshot, p: Path, k: Key, v: Value, q: Path)
    requires TreeIn(t, ms) && p in t && q in WithMember(t, p, k, v)
    ensures q in WithMembers(ms, p, k, v)
    ensures LinksFit(WithMember(t, p, k, v), q, WithMembers(ms, p, k, v)[q])
  {
    WithMembersAt(ms, p, k, v, q);
    if q != p + [k] {
      forall j <- WithMembers(ms, p, k, v)[q].Keys | WithMembers(ms, p, k, v)[q][j].Ref? {
        AttachedLink(t, ms, p, k, v, q, j);
      }
    }
  }

  lemma AttachedAnchor(t: Layout, ms: Snapshot, p: Path, k: Key, v: Value, q: Path)
    requires TreeIn(t, ms) && p in t && q in WithMember(t, p, k, v)
    ensures AnchoredIn(WithMember(t, p, k, v), WithMembers(ms, p, k, v), q)
  {
    MemberPath(p, k);
    if q != [] {
      WithMembersAt(ms, p, k, v, Up(q));
      OneUp(p + [k], q);
      if q != p + [k] {
        assert AnchoredIn(t, ms, q);
        assert Up(q) == p ==> Name(q) != k;
      }
    }
  }

  lemma AttachedIsTree(t: Layout, ms: Snapshot, p: Path, k: Key, v: Value)
    requires TreeIn(t, ms) && p in t && (v.Ref? ==> v.node !in t.Values)
    ensures TreeIn(WithMember(t, p, k, v), WithMembers(ms, p, k, v))
  {
    var u, mu := WithMember(t, p, k, v), WithMembers(ms, p, k, v);
    forall q <- u.Keys
      ensures LinksFit(u, q, mu[q]) && AnchoredIn(u, mu, q)
    {
      AttachedLinks(t, ms, p, k, v, q);
      AttachedAnchor(t, ms, p, k, v, q);
    }
  }

  lemma ClearedAt(c: Content, p: Path, item: Item, q: Path)
    ensures At(Cleared(c, p)[p := item], q) == if q == p then Some(item) else if p < q then None else At(c, q)
  {
  }

  lemma AttachedAt(t: Layout, ms: Snapshot, p: Path, k: Key, v: Value, q: Path)
    requires TreeIn(t, ms) && p in t
    ensures ItemIn(WithMember(t, p, k, v), WithMembers(ms, p, k, v), q) ==
            if q == p + [k] then Some(ItemOf(v)) else if p + [k] < q then None else ItemIn(t, ms, q)
  {
    MemberPath(p, k);
    if q != [] {
      OneUp(p + [k], q);
      WithMembersAt(ms, p, k, v, Up(q));
    }
  }

  lemma AttachedContent(t: Layout, ms: Snapshot, p: Path, k: Key, v: Value)
    requires TreeIn(t, ms) && p in t
    ensures ContentIn(WithMember(t, p, k, v), WithMembers(ms, p, k, v)) ==
            Cleared(ContentIn(t, ms), p + [k])[p + [k] := ItemOf(v)]
  {
    var u, mu := WithMember(t, p, k, v), WithMembers(ms, p, k, v);
    var d := Cleared(ContentIn(t, ms), p + [k])[p + [k] := ItemOf(v)];
    forall q: Path
      ensures At(ContentIn(u, mu), q) == At(d, q)
    {
      ContentAt(t, ms, q);
      ContentAt(u, mu, q);
      AttachedAt(t, ms, p, k, v, q);
      ClearedAt(ContentIn(t, ms), p + [k], ItemOf(v), q);
    }
    EqualContents(ContentIn(u, mu), d);
  }

  /** A member is replaced; what was below it is no longer part of the structure. */
  method PutMember(ghost t: Layout, root: Node, ghost p: Path, n: Node, k: Key, v: Value)
    returns (ghost u: Layout)
    requires IsTree(t, root) && p in t && t[p] == n
    requires v.Ref? ==> v.node !in t.Values && v.node.members == map[]
    modifies n
    ensures u == WithMember(t, p, k, v) && IsTree(u, root)
    ensures ContentOf(u) == Cleared(old(ContentOf(t)), p + [k])[p + [k] := ItemOf(v)]
  {
    ghost var ms := SnapshotOf(t);
    n.members := n.members[k := v];
    u := WithMember(t, p, k, v);
    AttachedIsTree(t, ms, p, k, v);
    AttachedContent(t, ms, p, k, v);
    assert SnapshotOf(u) == WithMembers(ms, p, k, v);
  }

  // ---------- writing a text at a path ----------

  /** One step down: what is not an object gives way to an empty one. */
  method EnterMember(ghost t: Layout, root: Node, ghost p: Path, n: Node, k: Key)
    returns (next: Node, ghost u: Layout)
    requires IsTree(t, root) && p in t && t[p] == n && !n.isArray
    modifies n
    ensures IsTree(u, root) && p + [k] in u && u[p + [k]] == next && !next.isArray
    ensures u.Values <= t.Values + {next} && (next in t.Values || fresh(next))
    ensures ContentOf(u) == WithObject(old(ContentOf(t)), p + [k])
  {
    ContentAt(t, SnapshotOf(t), p + [k]);
    MemberPath(p, k);
    assert LinksFit(t, p, SnapshotOf(t)[p]);
    if k in n.members && n.members[k].Ref? && !n.members[k].node.isArray {
      next, u := n.members[k].node, t;
    } else {
      next := new Node(false);
      u := PutMember(t, root, p, n, k, Ref(next));
    }
  }

  /** One pass of the loop: from the parent reached so far to the next one. */
  method EnterPart(ghost t: Layout, root: Node, ghost c: Content, parts: Path, i: nat, current: Node)
    returns (next: Node, ghost u: Layout)
    requires i + 1 < |parts| && IsTree(t, root) && parts[..i] in t && t[parts[..i]] == current && !current.isArray
    requires ContentOf(t) == Descend(c, parts, i)
    modifies current
    ensures IsTree(u, root) && parts[..i + 1] in u && u[parts[..i + 1]] == next && !next.isArray
    ensures u.Values <= t.Values + {next} && (next in t.Values || fresh(next))
    ensures ContentOf(u) == Descend(c, parts, i + 1)
  {
    assert parts[..i] + [parts[i]] == parts[..i + 1];
    next, u := EnterMember(t, root, parts[..i], current, parts[i]);
  }

  method PutText(ghost t: Layout, root: Node, parts: Path, current: Node, text: string)
    returns (ghost u: Layout)
    requires IsTree(t, root) && parts != [] && Up(parts) in t && t[Up(parts)] == current
    modifies current
    ensures IsTree(u, root) && u.Values <= t.Values
    ensures ContentOf(u) == Cleared(old(ContentOf(t)), parts)[parts := Leaf(Text(text))]
  {
    assert parts == Up(parts) + [Name(parts)];
    u := PutMember(t, root, Up(parts), current, Name(parts), Plain(Text(text)));
  }

  method SetFixturePath(ghost t: Layout, root: Node, parts: Path, text: string)
    returns (ghost u: Layout)
    requires IsTree(t, root) && !root.isArray
    modifies t.Values
    ensures IsTree(u, root) && fresh(u.Values - t.Values)
    ensures ContentOf(u) == SetIn(old(ContentOf(t)), parts, text)
  {
    u := t;
    if parts == [] { return; }
    ghost var c := ContentOf(t);
    var current, i := root, 0;
    assert parts[..0] == [];
    while i < |parts| - 1
      invariant i <= |parts| - 1 && IsTree(u, root) && fresh(u.Values - t.Values)
      invariant parts[..i] in u && u[parts[..i]] == current && !current.isArray
      invariant ContentOf(u) == Descend(c, parts, i)
    {
      current, u := EnterPart(u, root, c, parts, i, current);
      i := i + 1;
    }
    u := PutText(u, root, parts, current, text);
  }

  // ---------- environment overrides ----------

  /** A dotted path and the environment variable whose value goes there. */
  datatype Override = Override(dotted: string, variable: string)

  /** The white space and line terminators that trimming removes. */
  predicate IsBlank(c: char) {
    var u := c as int;
    9 <= u <= 13 || u == 32 || u == 0xA0 || u == 0x1680 || 0x2000 <= u <= 0x200A
    || u == 0x2028 || u == 0x2029 || u == 0x202F || u == 0x205F || u == 0x3000 || u == 0xFEFF
  }

  function Trim(s: string): string {
    if s == [] then s
    else if IsBlank(s[0]) then Trim(s[1..])
    else if IsBlank(s[|s| - 1]) then Trim(s[..|s| - 1])
    else s
  }

  /** The parts between the dots, the empty ones dropped. */
  function Parts(dotted: string, part: string): Path {
    if dotted == [] then (if part == [] then [] else [part])
    else if dotted[0] == '.' then (if part == [] then [] else [part]) + Parts(dotted[1..], [])
    else Parts(dotted[1..], part + [dotted[0]])
  }

  /** The write an override asks for: none without a value or without a path. */
  function WriteOf(o: Override, env: map<string, string>): seq<Write> {
    if o.variable in env && Trim(env[o.variable]) != [] && Parts(o.dotted, []) != [] then
      [Write(Parts(o.dotted, []), Trim(env[o.variable]))]
    else
      []
  }

  function WritesOf(overrides: seq<Override>, env: map<string, string>): (ws: seq<Write>)
    ensures Proper(ws)
  {
    if overrides == [] then []
    else WritesOf(overrides[..|overrides| - 1], env) + WriteOf(overrides[|overrides| - 1], env)
  }

  function Writes(overrides: Option<seq<Override>>, env: map<string, string>): seq<Write> {
    if overrides.Some? then WritesOf(overrides.value, env) else []
  }

  method ApplyOverride(ghost t: Layout, root: Node, o: Override, env: map<string, string>)
    returns (ghost u: Layout)
    requires IsTree(t, root) && !root.isArray
    modifies t.Values
    ensures IsTree(u, root) && fresh(u.Values - t.Values)
    ensures ContentOf(u) == WriteAll(old(ContentOf(t)), WriteOf(o, env))
  {
    u := t;
    if o.variable in env {
      var value := Trim(env[o.variable]);
      if value != [] {
        u := SetFixturePath(t, root, Parts(o.dotted, []), value);
        assert WriteAll(old(ContentOf(t)), []) == old(ContentOf(t));
      }
    }
  }

  lemma {:induction false} WriteAllAppends(c: Content, ws: seq<Write>, more: seq<Write>)
    ensures WriteAll(c, ws + more) == WriteAll(WriteAll(c, ws), more)
  {
    if more == [] {
      assert ws + more == ws;
    } else {
      var n := |more| - 1;
      assert (ws + more)[..|ws + more| - 1] == ws + more[..n];
      WriteAllAppends(c, ws, more[..n]);
    }
  }

  lemma WritesOfNext(c: Content, os: seq<Override>, i: nat, env: map<string, string>)
    requires i < |os|
    ensures WriteAll(c, WritesOf(os[..i + 1], env)) ==
            WriteAll(WriteAll(c, WritesOf(os[..i], env)), WriteOf(os[i], env))
  {
    assert os[..i + 1][..i] == os[..i];
    WriteAllAppends(c, WritesOf(os[..i], env), WriteOf(os[i], env));
  }

  method ApplyEnvOverrides(ghost t: Layout, root: Node, overrides: Option<seq<Override>>, env: map<string, string>)
    returns (ghost u: Layout)
    requires IsTree(t, root) && !root.isArray
    modifies t.Values
    ensures IsTree(u, root) && fresh(u.Values - t.Values)
    ensures ContentOf(u) == WriteAll(old(ContentOf(t)), Writes(overrides, env))
  {
    u := t;
    if overrides == None { return; }
    var os := overrides.value;
    var i := 0;
    assert os[..0] == [];
    while i < |os|
      invariant i <= |os| && IsTree(u, root) && fresh(u.Values - t.Values)
      invariant ContentOf(u) == WriteAll(old(ContentOf(t)), WritesOf(os[..i], env))
    {
      WritesOfNext(old(ContentOf(t)), os, i, env);
      u := ApplyOverride(u, root, os[i], env);
      i := i + 1;
    }
    assert os[..|os|] == os;
  }

  // ---------- materialization ----------

  /** A record of its own: no object of the copy existed before or stands at two paths. */
  method CloneRecord(ghost s: Layout, root: Node) returns (c: Node, ghost t: Layout)
    requires Unfolds(s, []) && s[[]] == root && !root.isArray
    ensures IsTree(t, c) && fresh(t.Values) && !c.isArray
    ensures ContentOf(t) == ContentOf(s)
  {
    c, t := CloneFixtureValue(s, [], [], root);
    UnsharedIsTree(t);
    CopyHasContent(s, t);
    assert SameAt(s, t, []);
  }

  /** Writing into one record leaves a record it shares nothing with as it is. */
  method ApplyApart(ghost t: Layout, root: Node, ghost other: Layout, otherRoot: Node,
                    overrides: Option<seq<Override>>, env: map<string, string>)
    returns (ghost u: Layout)
    requires IsTree(t, root) && !root.isArray && IsTree(other, otherRoot) && t.Values !! other.Values
    modifies t.Values
    ensures IsTree(u, root) && fresh(u.Values - t.Values) && u.Values !! other.Values
    ensures ContentOf(u) == WriteAll(old(ContentOf(t)), Writes(overrides, env))
    ensures IsTree(other, otherRoot) && ContentOf(other) == old(ContentOf(other))
  {
    ghost var ms := SnapshotOf(other);
    u := ApplyEnvOverrides(t, root, overrides, env);
    assert SnapshotOf(other) == ms;
  }

  method CloneBoth(ghost si: Layout, inputs: Node, ghost sp: Layout, params: Node)
    returns (newInputs: Node, newParams: Node, ghost ti: Layout, ghost tp: Layout)
    requires Unfolds(si, []) && si[[]] == inputs && !inputs.isArray
    requires Unfolds(sp, []) && sp[[]] == params && !params.isArray
    ensures IsTree(ti, newInputs) && fresh(ti.Values) && !newInputs.isArray
    ensures IsTree(tp, newParams) && fresh(tp.Values) && !newParams.isArray
    ensures ti.Values !! tp.Values
    ensures ContentOf(ti) == old(ContentOf(si)) && ContentOf(tp) == old(ContentOf(sp))
  {
    newInputs, ti := CloneRecord(si, inputs);
    ghost var mi := SnapshotOf(ti);
    newParams, tp := CloneRecord(sp, params);
    assert SnapshotOf(ti) == mi;
  }

  method ApplyBoth(ghost ti: Layout, inputs: Node, ghost tp: Layout, params: Node,
                   envInputOverrides: Option<seq<Override>>, envParamOverrides: Option<seq<Override>>,
                   env: map<string, string>)
    returns (ghost ui: Layout, ghost up: Layout)
    requires IsTree(ti, inputs) && !inputs.isArray && IsTree(tp, params) && !params.isArray
    requires ti.Values !! tp.Values
    modifies ti.Values, tp.Values
    ensures IsTree(ui, inputs) && IsTree(up, params) && ui.Values !! up.Values
    ensures fresh(ui.Values - ti.Values) && fresh(up.Values - tp.Values)
    ensures ContentOf(ui) == WriteAll(old(ContentOf(ti)), Writes(envInputOverrides, env))
    ensures ContentOf(up) == WriteAll(old(ContentOf(tp)), Writes(envParamOverrides, env))
  {
    ui := ApplyApart(ti, inputs, tp, params, envInputOverrides, env);
    up := ApplyApart(tp, params, ui, inputs, envParamOverrides, env);
  }

  /** Fresh inputs and params, with the environment values written into them. Nothing that
      existed before is modified, and the results share no object with it or each other. */
  method MaterializeFixture(inputs: Node, params: Node,
                            envInputOverrides: Option<seq<Override>>, envParamOverrides: Option<seq<Override>>,
                            env: map<string, string>, ghost si: Layout, ghost sp: Layout)
    returns (newInputs: Node, newParams: Node, ghost ti: Layout, ghost tp: Layout)
    requires Unfolds(si, []) && si[[]] == inputs && !inputs.isArray
    requires Unfolds(sp, []) && sp[[]] == params && !params.isArray
    ensures IsTree(ti, newInputs) && fresh(ti.Values)
    ensures IsTree(tp, newParams) && fresh(tp.Values) && ti.Values !! tp.Values
    ensures ContentOf(ti) == WriteAll(old(ContentOf(si)), Writes(envInputOverrides, env))
    ensures ContentOf(tp) == WriteAll(old(ContentOf(sp)), Writes(envParamOverrides, env))
  {
    newInputs, newParams, ti, tp := CloneBoth(si, inputs, sp, params);
    ti, tp := ApplyBoth(ti, newInputs, tp, newParams, envInputOverrides, envParamOverrides, env);
  }
}
