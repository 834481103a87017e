/** The mutable objects of an audit fixture and their deep copy. */
module FixtureObjects {

  type Key = string

  type Path = seq<Key>

  function Up(p: Path): Path
    requires p != []
  {
    p[..|p| - 1]
  }

  function Name(p: Path): Key
    requires p != []
  {
    p[|p| - 1]
  }

  datatype Scalar = Text(text: string) | Number(literal: string) | Boolean(value: bool) | Null

  datatype Value = Plain(scalar: Scalar) | Ref(node: Node)

  /** An object or an array; the elements of an array stand under their indices. */
  class Node {
    const isArray: bool
    var members: Members

    constructor (asArray: bool)
      ensures isArray == asArray && members == map[]
    {
      isArray, members := asArray, map[];
    }
  }

  /** Where the nodes below a top path stand. The same node may stand at several paths. */
  type Layout = map<Path, Node>

  type Members = map<Key, Value>

  /** Members that are nodes themselves stand one key further down. */
  ghost predicate LinksFit(t: Layout, p: Path, members: Members) {
    forall k <- members.Keys :: members[k].Ref? ==> p + [k] in t && t[p + [k]] == members[k].node
  }

  ghost predicate Linked(t: Layout, p: Path)
    requires p in t
    reads t[p]
  {
    LinksFit(t, p, t[p].members)
  }

  predicate HoldsNode(members: Members, k: Key, n: Node) {
    k in members && members[k] == Ref(n)
  }

  /** A node below the top is a member of the node one key further up. */
  ghost predicate Anchored(t: Layout, p: Path, top: Path)
    requires p in t
    reads t.Values
  {
    p == top || (p != [] && Up(p) in t && HoldsNode(t[Up(p)].members, Name(p), t[p]))
  }

  /** The unfolding of the finite structure whose root stands at the top path. */
  ghost predicate Unfolds(t: Layout, top: Path)
    reads t.Values
  {
    && top in t && (forall p <- t.Keys :: top <= p)
    && (forall p {:trigger Linked(t, p)} :: p in t ==> Linked(t, p))
    && (forall p {:trigger Anchored(t, p, top)} :: p in t ==> Anchored(t, p, top))
  }

  /** No node stands at two paths. */
  ghost predicate Unshared(t: Layout) {
    forall p <- t.Keys, q <- t.Keys :: t[p] == t[q] ==> p == q
  }

  /** The two nodes at p agree on everything but the identity of their member nodes. */
  ghost predicate SameAt(s: Layout, t: Layout, p: Path)
    requires p in s && p in t
    reads s[p], t[p]
  {
    && s[p].isArray == t[p].isArray && s[p].members.Keys == t[p].members.Keys
    && forall k <- s[p].members.Keys ::
         s[p].members[k].Plain? || t[p].members[k].Plain? ==> s[p].members[k] == t[p].members[k]
  }

  function Below(s: Layout, p: Path): set<Path> {
    set q | q in s && p <= q
  }

  /** t copies the part of s that stands at p or below. */
  ghost predicate Copies(s: Layout, t: Layout, p: Path)
    reads s.Values, t.Values
  {
    t.Keys == Below(s, p) && forall q <- t.Keys :: SameAt(s, t, q)
  }

  lemma BelowMember(s: Layout, top: Path, p: Path, k: Key)
    requires Unfolds(s, top) && p in s && k in s[p].members && s[p].members[k].Ref?
    ensures Below(s, p + [k]) < Below(s, p) && p + [k] in s && s[p + [k]] == s[p].members[k].node
  {
    assert Linked(s, p);
    assert p in Below(s, p) && p !in Below(s, p + [k]);
    forall q | q in Below(s, p + [k])
      ensures q in Below(s, p)
    {
      assert p <= p + [k] <= q;
    }
  }

  /** Everything below p is below one of the members of the node at p. */
  lemma {:induction false} FirstStep(s: Layout, top: Path, p: Path, q: Path)
    requires Unfolds(s, top) && p in s && q in s && p < q
    ensures p + [q[|p|]] in s && q[|p|] in s[p].members && s[p].members[q[|p|]].Ref?
    decreases |q|
  {
    assert Anchored(s, q, top);
    var parent := Up(q);
    if parent == p {
      assert q == p + [q[|p|]];
    } else {
      FirstStep(s, top, p, parent);
    }
  }

  // ---------- copying ----------

  /** What a copy has covered once the given members of the node at p are done. */
  function Taken(s: Layout, p: Path, done: set<Key>): set<Path> {
    set q | q in s && p <= q && (q == p || q[|p|] in done)
  }

  ghost predicate MemberCopied(s: Layout, t: Layout, p: Path, k: Key)
    requires p in s && p in t && k in s[p].members && k in t[p].members
    reads s[p], t[p]
  {
    match s[p].members[k]
    case Plain(_) => t[p].members[k] == s[p].members[k]
    case Ref(_) => p + [k] in t && t[p].members[k] == Ref(t[p + [k]])
  }

  ghost predicate PartlyCopied(s: Layout, t: Layout, p: Path, done: set<Key>)
    requires p in s
    reads s.Values, t.Values
  {
    && t.Keys == Taken(s, p, done) && p in t && t[p].isArray == s[p].isArray
    && done == t[p].members.Keys && done <= s[p].members.Keys
    && (forall k <- done :: MemberCopied(s, t, p, k))
    && forall q <- t.Keys :: q != p ==> SameAt(s, t, q) && Linked(t, q) && Anchored(t, q, p)
  }

  lemma TakenAll(s: Layout, top: Path, p: Path)
    requires Unfolds(s, top) && p in s
    ensures Taken(s, p, s[p].members.Keys) == Below(s, p)
  {
    forall q | q in Below(s, p)
      ensures q in Taken(s, p, s[p].members.Keys)
    {
      if q != p {
        FirstStep(s, top, p, q);
      }
    }
  }

  lemma BelowIffKey(p: Path, k: Key, q: Path)
    requires p < q
    ensures p + [k] <= q <==> q[|p|] == k
  {
    assert q[..|p| + 1] == p + [q[|p|]];
  }

  lemma TakenPath(s: Layout, top: Path, p: Path, done: set<Key>, k: Key, q: Path)
    requires Unfolds(s, top) && p in s && k in s[p].members && k !in done
    ensures q in Taken(s, p, done + {k}) <==> q in Taken(s, p, done) || q in Below(s, p + [k])
    ensures q in Below(s, p + [k]) ==> s[p].members[k].Ref? && q !in Taken(s, p, done)
  {
    if q in s && p < q {
      BelowIffKey(p, k, q);
      FirstStep(s, top, p, q);
    }
  }

  lemma TakenMember(s: Layout, top: Path, p: Path, done: set<Key>, k: Key)
    requires Unfolds(s, top) && p in s && k in s[p].members && k !in done
    ensures Taken(s, p, done + {k}) == Taken(s, p, done) + Below(s, p + [k])
    ensures s[p].members[k].Plain? ==> Below(s, p + [k]) == {}
    ensures Taken(s, p, done) !! Below(s, p + [k])
  {
    forall q: Path {
      TakenPath(s, top, p, done, k, q);
    }
  }

  /** The copy covers done and has just been given a member k. */
  ghost predicate AllButMember(s: Layout, t: Layout, p: Path, done: set<Key>, k: Key)
    requires p in s
    reads s.Values, t.Values
  {
    && t.Keys == Taken(s, p, done) && p in t && t[p].isArray == s[p].isArray
    && t[p].members.Keys == done + {k} && done <= s[p].members.Keys
    && (forall j <- done :: MemberCopied(s, t, p, j))
    && forall q <- t.Keys :: q != p ==> SameAt(s, t, q) && Linked(t, q) && Anchored(t, q, p)
  }

  method GiveMember(ghost s: Layout, ghost t: Layout, ghost p: Path, ghost done: set<Key>, c: Node, k: Key, v: Value)
    requires p in s && PartlyCopied(s, t, p, done) && t[p] == c && Unshared(t) && k !in done
    requires forall q <- s.Keys :: s[q] != c
    modifies c
    ensures c.members == old(c.members)[k := v] && AllButMember(s, t, p, done, k)
  {
    c.members := c.members[k := v];
    forall j <- done
      ensures MemberCopied(s, t, p, j)
    {
      assert old(MemberCopied(s, t, p, j));
    }
    forall q <- t.Keys | q != p
      ensures SameAt(s, t, q) && Linked(t, q) && Anchored(t, q, p)
    {
      assert old(SameAt(s, t, q) && Linked(t, q) && Anchored(t, q, p));
    }
  }

  lemma AddPlain(s: Layout, top: Path, p: Path, done: set<Key>, k: Key, t: Layout)
    requires Unfolds(s, top) && p in s && k in s[p].members && s[p].members[k].Plain? && k !in done
    requires AllButMember(s, t, p, done, k) && t[p].members[k] == s[p].members[k]
    ensures PartlyCopied(s, t, p, done + {k})
  {
    TakenMember(s, top, p, done, k);
    forall j <- done + {k}
      ensures MemberCopied(s, t, p, j)
    {
      if j != k {
        assert MemberCopied(s, t, p, j);
      }
    }
  }

  /** Adding the copy of one member node. */
  lemma AddMember(s: Layout, top: Path, p: Path, done: set<Key>, k: Key, t: Layout, below: Layout)
    requires Unfolds(s, top) && p in s && k in s[p].members && s[p].members[k].Ref? && k !in done
    requires AllButMember(s, t, p, done, k)
    requires Unfolds(below, p + [k]) && Copies(s, below, p + [k]) && t[p].members[k] == Ref(below[p + [k]])
    ensures PartlyCopied(s, t + below, p, done + {k})
  {
    var u := t + below;
    TakenMember(s, top, p, done, k);
    forall j <- done + {k}
      ensures MemberCopied(s, u, p, j)
    {
      if j != k {
        assert MemberCopied(s, t, p, j);
      }
    }
    forall q <- u.Keys | q != p
      ensures SameAt(s, u, q) && Linked(u, q) && Anchored(u, q, p)
    {
      if q in below {
        assert Linked(below, q) && Anchored(below, q, p + [k]);
        assert SameAt(s, below, q);
        if q == p + [k] {
          assert Up(q) == p;
        }
      } else {
        assert Linked(t, q) && Anchored(t, q, p);
      }
    }
  }

  lemma Copied(s: Layout, top: Path, p: Path, t: Layout)
    requires Unfolds(s, top) && p in s && PartlyCopied(s, t, p, s[p].members.Keys)
    ensures t.Keys == Below(s, p) && Unfolds(t, p) && Copies(s, t, p)
  {
    TakenAll(s, top, p);
    forall q <- t.Keys
      ensures p <= q && Linked(t, q) && Anchored(t, q, p) && SameAt(s, t, q)
    {
      if q == p {
        forall k <- t[p].members.Keys
          ensures t[p].members[k].Ref? ==> p + [k] in t && t[p + [k]] == t[p].members[k].node
          ensures s[p].members[k].Plain? || t[p].members[k].Plain? ==> s[p].members[k] == t[p].members[k]
        {
          assert MemberCopied(s, t, p, k);
        }
      }
    }
  }

  ghost predicate Apart(t: Layout, u: Layout) {
    forall q <- t.Keys, r <- u.Keys :: t[q] != u[r]
  }

  lemma UnsharedTogether(t: Layout, u: Layout)
    requires Unshared(t) && Unshared(u) && Apart(t, u) && t.Keys !! u.Keys
    ensures Unshared(t + u)
  {
  }

  method AttachCopy(ghost s: Layout, ghost top: Path, ghost p: Path, ghost done: set<Key>, ghost t: Layout,
                    c: Node, k: Key, copy: Node, ghost below: Layout)
    requires Unfolds(s, top) && p in s && k in s[p].members && s[p].members[k].Ref? && k !in done
    requires PartlyCopied(s, t, p, done) && t[p] == c && Unshared(t)
    requires forall q <- s.Keys :: s[q] != c
    requires Unfolds(below, p + [k]) && Copies(s, below, p + [k]) && below[p + [k]] == copy
    requires Apart(t, below)
    modifies c
    ensures PartlyCopied(s, t + below, p, done + {k})
  {
    GiveMember(s, t, p, done, c, k, Ref(copy));
    AddMember(s, top, p, done, k, t, below);
  }

  /** One entry of the loop over the members: its value is cloned and put into the copy. */
  method CloneMember(ghost s: Layout, ghost top: Path, ghost p: Path, ghost done: set<Key>, ghost t: Layout,
                     n: Node, c: Node, k: Key)
    returns (ghost u: Layout)
    requires Unfolds(s, top) && p in s && s[p] == n && k in n.members && k !in done
    requires PartlyCopied(s, t, p, done) && t[p] == c && Unshared(t)
    requires forall q <- s.Keys :: s[q] != c
    modifies c
    ensures PartlyCopied(s, u, p, done + {k}) && u[p] == c && Unshared(u)
    ensures forall q <- u.Keys :: (q in t && u[q] == t[q]) || fresh(u[q])
    decreases Below(s, p), 0
  {
    match n.members[k] {
      case Plain(scalar) =>
        GiveMember(s, t, p, done, c, k, Plain(scalar));
        AddPlain(s, top, p, done, k, t);
        u := t;
      case Ref(child) =>
        BelowMember(s, top, p, k);
        TakenMember(s, top, p, done, k);
        ghost var below: Layout;
        var copy;
        copy, below := CloneFixtureValue(s, top, p + [k], child);
        AttachCopy(s, top, p, done, t, c, k, copy, below);
        UnsharedTogether(t, below);
        u := t + below;
    }
  }

  /** A fresh copy of the node at p with everything below it. */
  method CloneFixtureValue(ghost s: Layout, ghost top: Path, ghost p: Path, n: Node)
    returns (c: Node, ghost t: Layout)
    requires Unfolds(s, top) && p in s && s[p] == n
    ensures t.Keys == Below(s, p) && t[p] == c
    ensures Unfolds(t, p) && Unshared(t) && Copies(s, t, p)
    ensures forall q <- t.Keys :: fresh(t[q])
    decreases Below(s, p), 1
  {
    c := new Node(n.isArray);
    t := map[p := c];
    var remaining := n.members.Keys;
    while remaining != {}
      invariant remaining <= n.members.Keys
      invariant PartlyCopied(s, t, p, n.members.Keys - remaining)
      invariant t[p] == c && Unshared(t) && forall q <- t.Keys :: fresh(t[q])
      decreases remaining
    {
      var k :| k in remaining;
      ghost var done := n.members.Keys - remaining;
      assert n.members.Keys - (remaining - {k}) == done + {k};
      t := CloneMember(s, top, p, done, t, n, c, k);
      remaining := remaining - {k};
    }
    assert n.members.Keys - remaining == n.members.Keys;
    Copied(s, top, p, t);
  }
}
