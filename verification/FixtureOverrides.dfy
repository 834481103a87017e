/** Which writes the override tables of an audit fixture ask for. */
module FixtureOverrides {
  import opened FixtureObjects
  import opened FixtureContent
  import opened FixtureMaterialization

  // ---------- trimming ----------

  /** A middle part of the text that neither begins nor ends blank, with blanks only around it. */
  ghost predicate IsTrimmed(s: string, r: string) {
    exists before: string, after: string :: IsMiddle(s, before, r, after)
  }

  predicate IsMiddle(s: string, before: string, r: string, after: string) {
    && s == before + r + after
    && (forall c <- before + after :: IsBlank(c))
    && (r == [] || (!IsBlank(r[0]) && !IsBlank(r[|r| - 1])))
  }

  lemma {:induction false} TrimKeepsMiddle(s: string) returns (before: string, after: string)
    ensures IsMiddle(s, before, Trim(s), after)
  {
    before, after := [], [];
    if s != [] {
      if IsBlank(s[0]) {
        before, after := TrimKeepsMiddle(s[1..]);
        before := [s[0]] + before;
      } else if IsBlank(s[|s| - 1]) {
        before, after := TrimKeepsMiddle(s[..|s| - 1]);
        after := after + [s[|s| - 1]];
      }
    }
  }

  lemma {:induction false} BlankTrims(s: string)
    requires forall c <- s :: IsBlank(c)
    ensures Trim(s) == []
  {
    if s != [] {
      BlankTrims(s[1..]);
    }
  }

  lemma {:induction false} EndTrims(r: string, after: string)
    requires r != [] && !IsBlank(r[0]) && !IsBlank(r[|r| - 1]) && forall c <- after :: IsBlank(c)
    ensures Trim(r + after) == r
  {
    if after == [] {
      assert r + after == r;
    } else {
      var front := after[..|after| - 1];
      assert (r + after)[..|r + after| - 1] == r + front;
      EndTrims(r, front);
    }
  }

  lemma {:induction false} StartTrims(before: string, s: string)
    requires forall c <- before :: IsBlank(c)
    ensures Trim(before + s) == Trim(s)
  {
    if before == [] {
      assert before + s == s;
    } else {
      assert (before + s)[1..] == before[1..] + s;
      StartTrims(before[1..], s);
    }
  }

  lemma MiddleIsTrim(s: string, before: string, r: string, after: string)
    requires IsMiddle(s, before, r, after)
    ensures r == Trim(s)
  {
    assert forall c <- before :: c in before + after;
    assert forall c <- after :: c in before + after;
    StartTrims(before, r + after);
    assert s == before + (r + after);
    if r == [] {
      assert r + after == after;
      BlankTrims(after);
    } else {
      EndTrims(r, after);
    }
  }

  /** Trimming takes off all the blanks at both ends and nothing else. */
  lemma TrimIff(s: string, r: string)
    ensures r == Trim(s) <==> IsTrimmed(s, r)
  {
    var b, a := TrimKeepsMiddle(s);
    if before: string, after: string :| IsMiddle(s, before, r, after) {
      MiddleIsTrim(s, before, r, after);
    }
  }

  // ---------- paths ----------

  predicate HasNoDot(piece: string) {
    '.' !in piece
  }

  /** The pieces with dots between them. */
  function Join(pieces: seq<string>): string {
    if pieces == [] then []
    else if |pieces| == 1 then pieces[0]
    else pieces[0] + "." + Join(pieces[1..])
  }

  function NonEmpty(pieces: seq<string>): Path {
    if pieces == [] then []
    else (if pieces[0] == [] then [] else [pieces[0]]) + NonEmpty(pieces[1..])
  }

  lemma NoDots(first: string, rest: seq<string>)
    requires HasNoDot(first) && forall piece <- rest :: HasNoDot(piece)
    ensures forall piece <- [first] + rest :: HasNoDot(piece)
  {
  }

  lemma {:induction false} PartsAfter(part: string, pieces: seq<string>)
    requires pieces != [] && forall piece <- pieces :: HasNoDot(piece)
    ensures Parts(Join(pieces), part) == NonEmpty([part + pieces[0]] + pieces[1..])
    decreases |Join(pieces)|, |pieces|
  {
    var first, rest := pieces[0], pieces[1..];
    var text := Join(pieces);
    if first != [] {
      var shorter := [first[1..]] + rest;
      assert first == [first[0]] + first[1..];
      assert HasNoDot(first) && first[0] in first && forall c <- first[1..] :: c in first;
      NoDots(first[1..], rest);
      assert shorter[1..] == rest;
      assert text[0] == first[0] && text[1..] == Join(shorter);
      PartsAfter(part + [first[0]], shorter);
      assert part + [first[0]] + first[1..] == part + first;
    } else if rest != [] {
      assert text[0] == '.' && text[1..] == Join(rest);
      PartsAfter([], rest);
      assert [] + rest[0] == rest[0] && [rest[0]] + rest[1..] == rest;
      assert part + first == part && ([part] + rest)[1..] == rest;
    } else {
      assert text == [] && part + first == part;
      assert NonEmpty([part]) == if part == [] then [] else [part];
    }
  }

  /** A path is the list of the non-empty pieces between the dots. */
  lemma PartsOfJoin(pieces: seq<string>)
    requires pieces != [] && forall piece <- pieces :: HasNoDot(piece)
    ensures Parts(Join(pieces), []) == NonEmpty(pieces)
  {
    PartsAfter([], pieces);
    assert [] + pieces[0] == pieces[0] && [pieces[0]] + pieces[1..] == pieces;
  }

  lemma {:induction false} EveryTextIsJoined(text: string) returns (pieces: seq<string>)
    ensures pieces != [] && (forall piece <- pieces :: HasNoDot(piece)) && Join(pieces) == text
  {
    if text == [] {
      pieces := [[]];
    } else {
      var rest := EveryTextIsJoined(text[1..]);
      if text[0] == '.' {
        pieces := [[]] + rest;
        NoDots([], rest);
        assert pieces[1..] == rest && text == [text[0]] + text[1..];
      } else {
        pieces := [[text[0]] + rest[0]] + rest[1..];
        assert HasNoDot(rest[0]);
        NoDots([text[0]] + rest[0], rest[1..]);
        assert pieces[1..] == rest[1..] && text == [text[0]] + text[1..];
      }
    }
  }

  // ---------- overrides ----------

  /** What an override asks for: the text of its variable, trimmed, at the path between its
      dots; nothing where the variable is missing or blank or the path has no part. */
  lemma OverrideWrites(o: Override, env: map<string, string>, w: Write)
    ensures w in WriteOf(o, env) <==>
              && o.variable in env && w.text != [] && IsTrimmed(env[o.variable], w.text)
              && w.path != [] && w.path == Parts(o.dotted, [])
    ensures |WriteOf(o, env)| <= 1
  {
    if o.variable in env {
      TrimIff(env[o.variable], w.text);
    }
  }
}
