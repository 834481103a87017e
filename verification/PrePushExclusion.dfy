/** Clean runs of the pre-push lock are exactly those that keep exclusion: one stale removal
    that hits a live lock is enough to let two live processes hold the guard. */
module PrePushExclusion {
  import opened Numbers
  import opened Options
  import opened PrePushLock

  predicate NoRemovals(es: seq<Event>) {
    forall e <- es :: !e.RemoveStale?
  }

  ghost predicate Exclusive(s: State) {
    forall p, q :: Holds(s, p) && Holds(s, q) ==> p == q
  }

  lemma {:induction false} CleanContinues(es: seq<Event>, more: seq<Event>)
    requires Clean(es) && NoRemovals(more) && Exec(es + more).Some?
    ensures Clean(es + more)
    decreases |more|
  {
    if more == [] {
      assert es + more == es;
    } else {
      var n := |more| - 1;
      assert (es + more)[..|es + more| - 1] == es + more[..n];
      CleanContinues(es, more[..n]);
      CleanPrefix(es + more);
    }
  }

  lemma {:induction false} CleanPrefixes(es: seq<Event>, i: nat)
    requires Clean(es) && i <= |es|
    ensures Clean(es[..i])
    decreases |es|
  {
    if i == |es| {
      assert es[..i] == es;
    } else {
      CleanPrefix(es);
      CleanPrefixes(es[..|es| - 1], i);
      assert es[..|es| - 1][..i] == es[..i];
    }
  }

  /** The first stale removal that hits a live lock. */
  lemma {:induction false} FirstUncleanStep(es: seq<Event>) returns (j: nat)
    requires Exec(es).Some? && !Clean(es)
    ensures j < |es| && Clean(es[..j]) && Before(es, j).Some?
    ensures Enabled(Before(es, j).value, es[j]) && !CleanStep(Before(es, j).value, es[j])
    decreases |es|
  {
    var front := es[..|es| - 1];
    CleanPrefix(es);
    if Clean(front) {
      j := |es| - 1;
    } else {
      j := FirstUncleanStep(front);
      assert front[..j] == es[..j];
    }
  }

  /** A new process acquires the guard while nothing stands at the lock path. */
  lemma NewcomerAcquires(es: seq<Event>) returns (more: seq<Event>, r: Pid)
    requires Exec(es).Some? && Exec(es).value.lock.NoFile?
    ensures NoRemovals(more) && Exec(es + more).Some?
    ensures r !in Exec(es).value.processes && Holds(Exec(es + more).value, r)
    ensures forall q :: Holds(Exec(es).value, q) ==> Holds(Exec(es + more).value, q)
  {
    var s := Exec(es).value;
    r := FreshNat(s.processes.Keys);
    var key := if s.receipt.Some? then s.receipt.value + 1 else 0;
    var es1 := es + [Begin(r, key)];
    Extend(es, Begin(r, key));
    var es2 := es1 + [CheckReceipt(r)];
    Extend(es1, CheckReceipt(r));
    var es3 := es2 + [Create(r)];
    Extend(es2, Create(r));
    Extend(es3, Write(r));
    more := [Begin(r, key), CheckReceipt(r), Create(r), Write(r)];
    assert es + more == es3 + [Write(r)];
  }

  /** After a stale removal that hits a live lock, its owner and a new process can both come
      to hold the guard, without any further removal. */
  lemma UncleanStepLetsTwoIn(es: seq<Event>, e: Event) returns (more: seq<Event>)
    requires Exec(es).Some? && Clean(es) && Enabled(Exec(es).value, e) && !CleanStep(Exec(es).value, e)
    ensures NoRemovals(more) && Exec(es + [e] + more).Some? && !Exclusive(Exec(es + [e] + more).value)
  {
    CleanRunsStayIntact(es);
    var s := Exec(es).value;
    var q := s.lock.creator;
    Extend(es, e);
    var run, first := es + [e], [];
    if s.lock.Empty? {
      first := [Write(q)];
      Extend(run, Write(q));
    }
    assert run + [] == run;
    assert Holds(Exec(run + first).value, q);
    var last, r := NewcomerAcquires(run + first);
    more := first + last;
    assert run + more == run + first + last;
  }

  lemma CleanIsExclusive(es: seq<Event>, i: nat, more: seq<Event>)
    requires Clean(es) && i <= |es| && NoRemovals(more) && Exec(es[..i] + more).Some?
    ensures Exclusive(Exec(es[..i] + more).value)
  {
    var run := es[..i] + more;
    CleanPrefixes(es, i);
    CleanContinues(es[..i], more);
    forall p, q | Holds(Exec(run).value, p) && Holds(Exec(run).value, q)
      ensures p == q
    {
      MutualExclusion(run, p, q);
    }
  }

  lemma UncleanIsNotExclusive(es: seq<Event>) returns (i: nat, more: seq<Event>)
    requires Exec(es).Some? && !Clean(es)
    ensures i <= |es| && NoRemovals(more) && Exec(es[..i] + more).Some?
    ensures !Exclusive(Exec(es[..i] + more).value)
  {
    i := FirstUncleanStep(es);
    more := UncleanStepLetsTwoIn(es[..i], es[i]);
    assert es[..i] + [es[i]] == es[..i + 1];
    i := i + 1;
  }

  /** What the run can come to from one of its points without a further stale removal. */
  ghost predicate Continues(es: seq<Event>, i: nat, more: seq<Event>) {
    i <= |es| && NoRemovals(more) && Exec(es[..i] + more).Some?
  }

  /** A run is clean exactly when neither it nor anything it can come to from any of its points
      without a further stale removal ever has two live holders of the guard. */
  lemma CleanIffExclusive(es: seq<Event>)
    requires Exec(es).Some?
    ensures Clean(es) <==> forall i: nat, more :: Continues(es, i, more) ==> Exclusive(Exec(es[..i] + more).value)
  {
    hide Clean, Exclusive;
    if Clean(es) {
      forall i: nat, more | Continues(es, i, more) {
        CleanIsExclusive(es, i, more);
      }
    } else {
      var i, more := UncleanIsNotExclusive(es);
      assert Continues(es, i, more) && !Exclusive(Exec(es[..i] + more).value);
    }
  }

  // ---------- a stale lock is taken over ----------

  /** The holder crashes; a new process finds the lock, removes it and takes its own. */
  function Takeover(p: Pid, r: Pid, key: Key): (es: seq<Event>)
    ensures |es| == 8
  {
    [Crash(p), Begin(r, key), CheckReceipt(r), Create(r), Inspect(r), RemoveStale(r), Create(r), Write(r)]
  }

  /** The state after i steps of a takeover. */
  predicate TakingOver(t: State, p: Pid, r: Pid, key: Key, i: nat) {
    && p in t.processes && p != r && t.receipt != Some(key)
    && (1 <= i ==> t.processes[p].phase == Dead) && (i == 0 ==> t.processes[p].phase != Dead)
    && (i <= 1 ==> r !in t.processes) && (2 <= i ==> r in t.processes && t.processes[r].key == key)
    && (i <= 5 ==> t.lock.Written? && t.lock.creator == p)
    && match i
       case 2 => In(t, r, Checking)
       case 3 => In(t, r, Creating(0))
       case 4 => In(t, r, Inspecting(0))
       case 5 => In(t, r, Condemning(0))
       case 6 => In(t, r, Creating(1)) && t.lock == NoFile
       case 7 => t.lock.Empty? && t.lock.creator == r && In(t, r, Opened(1, t.lock.file))
       case 8 => t.lock.Written? && t.lock.creator == r && In(t, r, Verifying(t.lock.file))
       case _ => true
  }

  lemma TakeoverStep(t: State, p: Pid, r: Pid, key: Key, i: nat)
    requires i < 8 && TakingOver(t, p, r, key, i)
    ensures var e := Takeover(p, r, key)[i];
            Enabled(t, e) && CleanStep(t, e) && TakingOver(Step(t, e), p, r, key, i + 1)
  {
  }

  lemma CleanSnoc(es: seq<Event>, e: Event)
    requires Clean(es) && Exec(es).Some? && Enabled(Exec(es).value, e) && CleanStep(Exec(es).value, e)
    ensures Clean(es + [e]) && Exec(es + [e]) == Some(Step(Exec(es).value, e))
  {
    Extend(es, e);
    assert (es + [e])[..|es|] == es;
    CleanPrefix(es + [e]);
  }

  /** A lock left behind by a crash holds nobody up: a new process finds it, removes it and
      acquires the guard, and the run stays clean. */
  lemma StaleLockIsTakenOver(es: seq<Event>) returns (more: seq<Event>, r: Pid)
    requires Clean(es) && Exec(es).Some?
    requires Exec(es).value.lock.Written? && Alive(Exec(es).value, Exec(es).value.lock.creator)
    ensures Clean(es + more) && Exec(es + more).Some? && Crash(Exec(es).value.lock.creator) in more
    ensures r !in Exec(es).value.processes && Holds(Exec(es + more).value, r)
    ensures Exec(es + more).value.lock.Written? && Exec(es + more).value.lock.creator == r
  {
    hide Clean, Exec;
    var s := Exec(es).value;
    var p := s.lock.creator;
    r := FreshNat(s.processes.Keys);
    var key := if s.receipt.Some? then s.receipt.value + 1 else 0;
    more := Takeover(p, r, key);
    assert more[0] == Crash(p);
    assert es + more[..0] == es;
    for i := 0 to 8
      invariant Clean(es + more[..i]) && Exec(es + more[..i]).Some?
      invariant TakingOver(Exec(es + more[..i]).value, p, r, key, i)
    {
      TakeoverStep(Exec(es + more[..i]).value, p, r, key, i);
      CleanSnoc(es + more[..i], more[i]);
      assert es + more[..i] + [more[i]] == es + more[..i + 1];
    }
    assert more[..8] == more;
  }
}
