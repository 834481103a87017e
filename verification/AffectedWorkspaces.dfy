/** The worklist that finds every workspace affected by a change. */
module AffectedWorkspaces {

  datatype Workspace = Workspace(directory: string, name: string, dependencyNames: set<string>)

  /** Some workspace of this name lists that name among its dependencies. */
  predicate DependsOn(workspaces: seq<Workspace>, name: string, dependency: string) {
    exists w <- workspaces :: w.name == name && dependency in w.dependencyNames
  }

  /** A dependency chain that starts at a directly changed name; each next name depends on
      the one before it. */
  predicate IsChain(chain: seq<string>, initial: seq<string>, workspaces: seq<Workspace>) {
    && chain != [] && chain[0] in initial
    && forall i :: 0 < i < |chain| ==> DependsOn(workspaces, chain[i], chain[i - 1])
  }

  ghost predicate ChainTo(chain: seq<string>, name: string, initial: seq<string>, workspaces: seq<Workspace>) {
    IsChain(chain, initial, workspaces) && chain[|chain| - 1] == name
  }

  ghost predicate Affected(name: string, initial: seq<string>, workspaces: seq<Workspace>) {
    exists chain :: ChainTo(chain, name, initial, workspaces)
  }

  lemma ExtendChain(name: string, dependency: string, initial: seq<string>, workspaces: seq<Workspace>)
    requires Affected(dependency, initial, workspaces) && DependsOn(workspaces, name, dependency)
    ensures Affected(name, initial, workspaces)
  {
    var chain :| ChainTo(chain, dependency, initial, workspaces);
    assert ChainTo(chain + [name], name, initial, workspaces);
  }

  /** A set that contains the changed names and is closed under dependents has every chain. */
  lemma {:induction false} ClosedHasChain(closed: set<string>, chain: seq<string>,
                                          initial: seq<string>, workspaces: seq<Workspace>)
    requires IsChain(chain, initial, workspaces)
    requires forall name <- initial :: name in closed
    requires forall w <- workspaces, name <- closed :: name in w.dependencyNames ==> w.name in closed
    ensures chain[|chain| - 1] in closed
  {
    var last := |chain| - 1;
    if last > 0 {
      ClosedHasChain(closed, chain[..last], initial, workspaces);
    }
  }

  function Names(workspaces: seq<Workspace>): set<string> {
    set w <- workspaces :: w.name
  }

  ghost predicate AllAffected(names: set<string>, initial: seq<string>, workspaces: seq<Workspace>) {
    forall name <- names :: Affected(name, initial, workspaces)
  }

  /** The inner loop: queue every workspace that depends on the changed one and is new. */
  method QueueDependents(changed: string, known: set<string>, waiting: seq<string>,
                         initial: seq<string>, workspaces: seq<Workspace>)
    returns (affected: set<string>, queue: seq<string>)
    requires AllAffected(known, initial, workspaces) && changed in known
    requires forall name <- waiting :: name in known
    ensures known <= affected <= known + Names(workspaces) && AllAffected(affected, initial, workspaces)
    ensures forall w <- workspaces :: changed in w.dependencyNames ==> w.name in affected
    ensures waiting <= queue && (affected == known ==> queue == waiting)
    ensures forall name <- queue :: name in affected
    ensures forall name <- affected :: name in known || name in queue
  {
    affected, queue := known, waiting;
    for i := 0 to |workspaces|
      invariant known <= affected <= known + Names(workspaces) && AllAffected(affected, initial, workspaces)
      invariant forall j :: 0 <= j < i && changed in workspaces[j].dependencyNames ==> workspaces[j].name in affected
      invariant waiting <= queue && (affected == known ==> queue == waiting)
      invariant forall name <- queue :: name in affected
      invariant forall name <- affected :: name in known || name in queue
    {
      var w := workspaces[i];
      if w.name !in affected && changed in w.dependencyNames {
        assert DependsOn(workspaces, w.name, changed);
        ExtendChain(w.name, changed, initial, workspaces);
        affected := affected + {w.name};
        queue := queue + [w.name];
      }
    }
  }

  /** Everything that depends on a name no longer waiting is in the set. */
  ghost predicate ClosedExcept(affected: set<string>, queue: seq<string>, workspaces: seq<Workspace>) {
    forall w <- workspaces, name <- affected ::
      name in w.dependencyNames && name !in queue ==> w.name in affected
  }

  /** One pass of the outer loop: the first waiting name is taken and its dependents queued. */
  method TakeNext(known: set<string>, waiting: seq<string>, initial: seq<string>, workspaces: seq<Workspace>)
    returns (affected: set<string>, queue: seq<string>)
    requires waiting != [] && (forall name <- waiting :: name in known)
    requires AllAffected(known, initial, workspaces) && ClosedExcept(known, waiting, workspaces)
    ensures known <= affected <= known + Names(workspaces) && AllAffected(affected, initial, workspaces)
    ensures forall name <- queue :: name in affected
    ensures ClosedExcept(affected, queue, workspaces)
    ensures affected == known ==> |queue| < |waiting|
  {
    var changed, rest := waiting[0], waiting[1..];
    assert forall name <- waiting :: name == changed || name in rest;
    affected, queue := QueueDependents(changed, known, rest, initial, workspaces);
  }

  lemma ClosedHasAll(closed: set<string>, initial: seq<string>, workspaces: seq<Workspace>)
    requires (forall name <- initial :: name in closed) && ClosedExcept(closed, [], workspaces)
    ensures forall name :: Affected(name, initial, workspaces) ==> name in closed
  {
    forall name | Affected(name, initial, workspaces)
      ensures name in closed
    {
      var chain :| ChainTo(chain, name, initial, workspaces);
      ClosedHasChain(closed, chain, initial, workspaces);
    }
  }

  /** The names without repetition, as a set and in first-seen order. */
  method Distinct(names: seq<string>) returns (members: set<string>, queue: seq<string>)
    ensures forall name :: name in members <==> name in names
    ensures forall name :: name in queue <==> name in names
    ensures forall i, j :: 0 <= i < j < |queue| ==> queue[i] != queue[j]
  {
    members, queue := {}, [];
    for i := 0 to |names|
      invariant forall name :: name in members <==> name in names[..i]
      invariant forall name :: name in queue <==> name in names[..i]
      invariant forall i, j :: 0 <= i < j < |queue| ==> queue[i] != queue[j]
    {
      assert names[..i + 1] == names[..i] + [names[i]];
      if names[i] !in members {
        members, queue := members + {names[i]}, queue + [names[i]];
      }
    }
    assert names[..|names|] == names;
  }

  lemma ChangedIsAffected(initial: seq<string>, workspaces: seq<Workspace>)
    ensures forall name <- initial :: Affected(name, initial, workspaces)
  {
    forall name | name in initial
      ensures Affected(name, initial, workspaces)
    {
      assert ChainTo([name], name, initial, workspaces);
    }
  }

  /** Terminates on every dependency graph, cyclic ones included, and returns exactly the
      names that some chain of dependents links to a changed name. */
  method ExpandAffectedWorkspaces(initial: seq<string>, workspaces: seq<Workspace>) returns (affected: set<string>)
    ensures forall name :: name in affected <==> Affected(name, initial, workspaces)
  {
    hide Affected;
    var queue;
    affected, queue := Distinct(initial);
    ghost var all := affected + Names(workspaces);
    ChangedIsAffected(initial, workspaces);
    while queue != []
      invariant affected <= all && AllAffected(affected, initial, workspaces)
      invariant forall name <- initial :: name in affected
      invariant forall name <- queue :: name in affected
      invariant ClosedExcept(affected, queue, workspaces)
      decreases all - affected, |queue|
    {
      affected, queue := TakeNext(affected, queue, initial, workspaces);
    }
    ClosedHasAll(affected, initial, workspaces);
  }
}
