/** The content of a fixture as a value, and what writing a text at a path does to it. */
module FixtureContent {
  import opened FixtureObjects
  import opened Options

  datatype Item = ObjectItem | ArrayItem | Leaf(scalar: Scalar)

  /** What stands at every path. */
  type Content = map<Path, Item>

  function At(c: Content, q: Path): Option<Item> {
    if q in c then Some(c[q]) else None
  }

  function Cleared(c: Content, p: Path): Content {
    map q | q in c && !(p < q) :: c[q]
  }

  /** Whatever is not an object at p gives way to an empty object. */
  function WithObject(c: Content, p: Path): Content {
    if At(c, p) == Some(ObjectItem) then c else Cleared(c, p)[p := ObjectItem]
  }

  function Descend(c: Content, path: Path, i: nat): Content
    requires i <= |path|
  {
    if i == 0 then c else WithObject(Descend(c, path, i - 1), path[..i])
  }

  function SetIn(c: Content, path: Path, text: string): Content {
    if path == [] then c
    else Cleared(Descend(c, path, |path| - 1), path)[path := Leaf(Text(text))]
  }

  // ---------- what a write does at each path ----------

  predicate BlocksAt(c: Content, path: Path, q: Path, j: nat) {
    0 < j <= |path| && path[..j] < q && At(c, path[..j]) != Some(ObjectItem)
  }

  /** On the way to the written path, something above q is not an object. */
  predicate Blocked(c: Content, path: Path, q: Path, i: nat) {
    exists j :: 0 < j <= i && BlocksAt(c, path, q, j)
  }

  lemma {:induction false} DescendAt(c: Content, path: Path, i: nat, q: Path)
    requires i <= |path|
    ensures At(Descend(c, path, i), q) ==
            if 0 < |q| <= i && q <= path then Some(ObjectItem)
            else if Blocked(c, path, q, i) then None
            else At(c, q)
  {
    if i > 0 {
      var p := path[..i];
      DescendAt(c, path, i - 1, q);
      DescendAt(c, path, i - 1, p);
      if p < q {
        BlockedBelow(c, path, i, q);
      } else if q != p {
        assert !BlocksAt(c, path, q, i);
        assert Blocked(c, path, q, i) <==> Blocked(c, path, q, i - 1);
      }
    }
  }

  /** Below path[..i], q is blocked by path[..i] itself or by what blocks that. */
  lemma BlockedBelow(c: Content, path: Path, i: nat, q: Path)
    requires 0 < i <= |path| && path[..i] < q
    ensures Blocked(c, path, q, i) <==>
              Blocked(c, path, path[..i], i - 1) || At(c, path[..i]) != Some(ObjectItem)
    ensures Blocked(c, path, q, i - 1) <==> Blocked(c, path, path[..i], i - 1)
  {
    var p := path[..i];
    forall j | 0 < j < i
      ensures BlocksAt(c, path, q, j) <==> BlocksAt(c, path, p, j)
    {
      assert path[..j] < p && path[..j] < q;
    }
    assert BlocksAt(c, path, q, i) <==> At(c, p) != Some(ObjectItem);
  }

  predicate Comparable(p: Path, q: Path) {
    p <= q || q <= p
  }

  /** What stands at q after a write to a path that q is comparable with. */
  function Verdict(path: Path, text: string, q: Path): Option<Item> {
    if q == path then Some(Leaf(Text(text)))
    else if q < path then Some(ObjectItem)
    else None
  }

  /** The written path reads back the text, the paths above it are objects, nothing is left
      below it; any other path keeps what it had, unless something above it gave way. */
  lemma SetInAt(c: Content, path: Path, text: string, q: Path)
    requires path != [] && q != []
    ensures At(SetIn(c, path, text), q) ==
            if Comparable(path, q) then Verdict(path, text, q)
            else if Blocked(c, path, q, |path|) then None
            else At(c, q)
  {
    var n := |path| - 1;
    DescendAt(c, path, n, q);
    if !Comparable(path, q) {
      assert !BlocksAt(c, path, q, n + 1);
      assert Blocked(c, path, q, n + 1) <==> Blocked(c, path, q, n);
    }
  }

  // ---------- several writes ----------

  datatype Write = Write(path: Path, text: string)

  function WriteAll(c: Content, ws: seq<Write>): Content {
    if ws == [] then c
    else SetIn(WriteAll(c, ws[..|ws| - 1]), ws[|ws| - 1].path, ws[|ws| - 1].text)
  }

  predicate Proper(ws: seq<Write>) {
    forall w <- ws :: w.path != []
  }

  predicate NoneComparable(ws: seq<Write>, q: Path) {
    forall w <- ws :: !Comparable(w.path, q)
  }

  lemma {:induction false} LastComparable(ws: seq<Write>, j: nat, q: Path) returns (m: nat)
    requires j < |ws| && Comparable(ws[j].path, q)
    ensures j <= m < |ws| && Comparable(ws[m].path, q) && NoneComparable(ws[m + 1..], q)
    decreases |ws| - j
  {
    m := j;
    if !NoneComparable(ws[j + 1..], q) {
      var i :| 0 <= i < |ws[j + 1..]| && Comparable(ws[j + 1..][i].path, q);
      m := LastComparable(ws, j + 1 + i, q);
    }
  }

  /** The last write that is comparable with a path decides what stands there. */
  lemma {:induction false} LastWriteDecides(c: Content, ws: seq<Write>, j: nat, q: Path)
    requires Proper(ws) && q != [] && j < |ws| && Comparable(ws[j].path, q) && NoneComparable(ws[j + 1..], q)
    ensures At(WriteAll(c, ws), q) == Verdict(ws[j].path, ws[j].text, q)
    decreases |ws|, 0
  {
    var n := |ws| - 1;
    var front, last := ws[..n], ws[n];
    SetInAt(WriteAll(c, front), last.path, last.text, q);
    if j < n {
      assert front[j + 1..] == ws[j + 1..n];
      LastWriteDecides(c, front, j, q);
      assert ws[j + 1..][n - j - 1] == last;
      if q <= ws[j].path {
        ObjectsAbove(c, front, j, q, last.path);
      }
    }
  }

  /** Above a path that a write left in place, later writes elsewhere find objects. */
  lemma ObjectsAbove(c: Content, ws: seq<Write>, j: nat, q: Path, path: Path)
    requires Proper(ws) && q != [] && j < |ws| && q <= ws[j].path && NoneComparable(ws[j + 1..], q)
    ensures !Blocked(WriteAll(c, ws), path, q, |path|)
    decreases |ws|, 1
  {
    forall i | 0 < i <= |path|
      ensures !BlocksAt(WriteAll(c, ws), path, q, i)
    {
      var r := path[..i];
      if r < q {
        var m := LastComparable(ws, j, r);
        if m > j {
          assert ws[j + 1..][m - j - 1] == ws[m];
        }
        LastWriteDecides(c, ws, m, r);
      }
    }
  }

  /** On the way to a written path, something above q was not an object at first. */
  predicate GaveWay(c: Content, ws: seq<Write>, q: Path) {
    exists w <- ws :: Blocked(c, w.path, q, |w.path|)
  }

  /** A path that is neither above nor below nor at a written path keeps what it had, exactly
      unless some array or scalar above it had to give way. */
  lemma {:induction false} OtherPathsKeep(c: Content, ws: seq<Write>, q: Path)
    requires Proper(ws) && q != [] && NoneComparable(ws, q)
    ensures At(WriteAll(c, ws), q) == if GaveWay(c, ws, q) then None else At(c, q)
    decreases |ws|, 0
  {
    if ws != [] {
      var n := |ws| - 1;
      var front, last := ws[..n], ws[n];
      OtherPathsKeep(c, front, q);
      SetInAt(WriteAll(c, front), last.path, last.text, q);
      assert GaveWay(c, ws, q) <==> GaveWay(c, front, q) || Blocked(c, last.path, q, |last.path|);
      if !GaveWay(c, front, q) {
        forall i | 0 < i <= |last.path|
          ensures BlocksAt(WriteAll(c, front), last.path, q, i) <==> BlocksAt(c, last.path, q, i)
        {
          if last.path[..i] < q {
            PathsAboveKeep(c, front, q, last.path[..i]);
          }
        }
      }
    }
  }

  lemma PathsAboveKeep(c: Content, ws: seq<Write>, q: Path, r: Path)
    requires Proper(ws) && r != [] && r < q && NoneComparable(ws, q) && !GaveWay(c, ws, q)
    ensures At(WriteAll(c, ws), r) == At(c, r)
    decreases |ws|, 1
  {
    if NoneComparable(ws, r) {
      OtherPathsKeep(c, ws, r);
      forall w <- ws, i | BlocksAt(c, w.path, r, i)
        ensures BlocksAt(c, w.path, q, i)
      {
      }
    } else {
      var j :| 0 <= j < |ws| && Comparable(ws[j].path, r);
      var m := LastComparable(ws, j, r);
      LastWriteDecides(c, ws, m, r);
      assert !Comparable(ws[m].path, q);
      assert ws[m].path[..|r|] == r;
      assert !Blocked(c, ws[m].path, q, |ws[m].path|);
      assert !BlocksAt(c, ws[m].path, q, |r|);
    }
  }
}
