// Serial and parallel execution of a build plan (compiler-executable/iris-build/src/executor.rs).
// Building a package is a function of the package: it succeeds, or fails with an error.
module Executors {
  import opened Graphs
  import opened Initializers
  import opened PackagePlan
  import opened Wrappers

  // ---------------------------------------------------------------- orders of execution

  // No package runs twice, and when one runs, every package it depends on, other than those that
  // depend on it in turn, has run before.
  ghost predicate RunsInOrder(g: Graph, ran: seq<nat>) {
    NoDuplicates(ran) && forall i: nat, q: nat :: i < |ran| && Reaches(g, ran[i], q) ==> RanBefore(g, ran, i, q)
  }

  ghost predicate RanBefore(g: Graph, ran: seq<nat>, i: nat, q: nat)
    requires i < |ran|
  {
    q in ran[..i] || Mutual(g, ran[i], q)
  }

  lemma RunsNext(g: Graph, ran: seq<nat>, p: nat)
    requires RunsInOrder(g, ran) && p !in ran
    requires forall q: nat :: Reaches(g, p, q) ==> q in ran || Mutual(g, p, q)
    ensures RunsInOrder(g, ran + [p])
  {
    hide Mutual, Reaches;
    var next := ran + [p];
    forall i: nat, q: nat | i < |next| && Reaches(g, next[i], q)
      ensures RanBefore(g, next, i, q)
    {
      if i < |ran| {
        assert RanBefore(g, ran, i, q);
        assert next[..i] == ran[..i];
      } else {
        assert next[..i] == ran;
      }
    }
  }

  lemma ReachesOther(g: Graph, a: nat, b: nat)
    requires Reaches(g, a, b) && a != b
    ensures ReachesByEdge(g, a, b)
  {
    var path :| PathBetween(g, path, a, b);
    assert Edge(g, path[0], path[1]) && PathBetween(g, path[1..], path[1], b);
  }

  // In terms of what the packages of a plan declare: a package runs after every package that it
  // depends on, also through packages without sources, unless that one depends on it in turn.
  lemma DeclaredRunsFirst(packages: seq<PackageInput>, g: Graph, plan: BuildPlan, ran: seq<nat>, i: nat, q: nat)
    requires GroupsFor(packages, g, plan) && RunsInOrder(g, ran) && i < |ran| && ran[i] < |g| && q < |g| && q != ran[i]
    requires DependsOn(DeclaredBy(packages), plan.packages[ran[i]].name, plan.packages[q].name)
    ensures q in ran[..i] || DependsOn(DeclaredBy(packages), plan.packages[q].name, plan.packages[ran[i]].name)
  {
    hide GroupsHold, DependsOn, DeclaredBy;
    EdgeThenReach(g, ran[i], q);
    assert RanBefore(g, ran, i, q);
    if Mutual(g, ran[i], q) {
      ReachesOther(g, q, ran[i]);
    }
  }

  // The groups are complete whose packages have all run.
  ghost predicate ClosedGroups(groups: seq<PackageGroup>, complete: set<nat>) {
    forall c: nat, d: nat :: c in complete && Edge(GroupGraph(groups), c, d) ==> d in complete
  }

  ghost predicate InGroups(groups: seq<PackageGroup>, complete: set<nat>, p: nat) {
    exists c: nat :: c in complete && InComponent(Members(groups), c, p)
  }

  lemma GroupEdgeOf(g: Graph, groups: seq<PackageGroup>, c: nat, p: nat, q: nat)
    requires ValidGraph(g) && GroupsHold(g, groups) && InComponent(Members(groups), c, p) && Edge(g, p, q)
    ensures exists d: nat :: InComponent(Members(groups), d, q) && (d == c || Edge(GroupGraph(groups), c, d))
  {
    hide StronglyConnected, ByFirst, Schedulable, LinksHold;
    assert Placed(Members(groups), q);
    var d: nat :| InComponent(Members(groups), d, q);
    if d != c {
      assert GroupEdge(g, Members(groups), c, d);
    }
  }

  // A package whose group comes next depends on nothing but its group and what is complete.
  lemma NothingMissing(g: Graph, groups: seq<PackageGroup>, complete: set<nat>, c: nat, p: nat, q: nat)
    requires ValidGraph(g) && GroupsHold(g, groups) && ClosedGroups(groups, complete)
    requires InComponent(Members(groups), c, p) && Reaches(g, p, q)
    requires forall d: nat :: Edge(GroupGraph(groups), c, d) ==> d in complete
    ensures InGroups(groups, complete, q) || Mutual(g, p, q)
  {
    var inside := set x: nat | x < |g| && (InGroups(groups, complete, x) || InComponent(Members(groups), c, x));
    assert p in inside;
    if q !in inside {
      ReachBelow(g, p, q);
      var u, w := ReachLeaves(g, p, q, inside);
      var b: nat :| InComponent(Members(groups), b, u) && (b in complete || b == c);
      GroupEdgeOf(g, groups, b, u, w);
      ReachBelow(g, w, q);
    }
  }

  lemma ReachBelow(g: Graph, p: nat, q: nat)
    requires Reaches(g, p, q)
    ensures p < |g| && q < |g|
  {
    var path :| PathBetween(g, path, p, q);
    assert path[0] == p && path[|path| - 1] == q;
  }

  // ---------------------------------------------------------------- one package at a time

  predicate GroupIsReady(group: PackageGroup, complete: seq<bool>) {
    && group.id < |complete| && !complete[group.id]
    && (forall k :: 0 <= k < |group.dependencies| ==> group.dependencies[k] < |complete| && complete[group.dependencies[k]])
  }

  ghost function CompleteSet(complete: seq<bool>): (s: set<nat>)
    ensures forall c: nat :: c in s <==> c < |complete| && complete[c]
  {
    set c: nat | c < |complete| && complete[c]
  }

  // As long as a group is incomplete, one is ready.
  lemma {:induction false} SomeGroupIsReady(groups: seq<PackageGroup>, rank: seq<nat>, complete: seq<bool>, c: nat) returns (ready: nat)
    requires Ranked(groups, rank) && LinksHold(groups) && |complete| == |groups| && c < |groups| && !complete[c]
    requires forall d :: 0 <= d < |groups| ==> groups[d].id == d
    ensures ready < |groups| && GroupIsReady(groups[ready], complete)
    decreases rank[c]
  {
    if GroupIsReady(groups[c], complete) {
      ready := c;
    } else {
      var k :| 0 <= k < |groups[c].dependencies| && !complete[groups[c].dependencies[k]];
      assert Edge(GroupGraph(groups), c, groups[c].dependencies[k]);
      ready := SomeGroupIsReady(groups, rank, complete, groups[c].dependencies[k]);
    }
  }

  method FindReady(groups: seq<PackageGroup>, complete: seq<bool>) returns (found: Option<nat>)
    ensures found.Some? ==> found.value < |groups| && GroupIsReady(groups[found.value], complete)
    ensures found.None? ==> forall c :: 0 <= c < |groups| ==> !GroupIsReady(groups[c], complete)
    ensures found.Some? ==> forall c :: 0 <= c < found.value ==> !GroupIsReady(groups[c], complete)
  {
    for c := 0 to |groups|
      invariant forall d :: 0 <= d < c ==> !GroupIsReady(groups[d], complete)
    {
      if GroupIsReady(groups[c], complete) {
        return Some(c);
      }
    }
    return None;
  }

  // The packages that have run are those of the complete groups.
  ghost predicate RanGroups(groups: seq<PackageGroup>, complete: set<nat>, ran: seq<nat>) {
    forall p: nat :: p in ran <==> InGroups(groups, complete, p)
  }

  predicate Succeeded<E>(execute: nat -> Option<E>, ran: seq<nat>) {
    forall i :: 0 <= i < |ran| ==> execute(ran[i]).None?
  }

  // Runs every package, or the packages up to the first that fails. A ready group is always found.
  method ExecuteSerial<E>(ghost g: Graph, groups: seq<PackageGroup>, execute: nat -> Option<E>) returns (ran: seq<nat>, error: Option<E>)
    requires ValidGraph(g) && GroupsHold(g, groups)
    ensures RunsInOrder(g, ran)
    ensures error.None? <==> forall p: nat :: p < |g| ==> execute(p).None?
    ensures error.None? ==> Succeeded(execute, ran) && forall p: nat :: p in ran <==> p < |g|
    ensures error.Some? ==> ran != [] && Succeeded(execute, ran[..|ran| - 1]) && execute(ran[|ran| - 1]) == error
  {
    hide RunsInOrder, ClosedGroups, RanGroups, GroupsHold, CompleteSet, Succeeded;
    var complete := new bool[|groups|](_ => false);
    ran := [];
    error := None;
    NothingRan(g, groups, complete[..], execute);
    while exists c :: 0 <= c < complete.Length && !complete[c]
      invariant error.None? && SerialHolds(g, groups, execute, complete[..], ran)
      decreases |Below(|groups|) - CompleteSet(complete[..])|
    {
      hide SerialHolds, Below, GroupIsReady;
      var found := FindReady(groups, complete[..]);
      ReadyExists(g, groups, complete[..]);
      assert found.Some?;
      var group := groups[found.value];
      ghost var after := complete[..][found.value := true];
      ReadyGroup(g, groups, complete[..], found.value);
      SerialParts(g, groups, execute, complete[..], ran);
      error, ran := ExecuteGroup(g, groups, CompleteSet(complete[..]), found.value, execute, ran);
      if error.Some? {
        return;
      }
      CompleteNext(groups, complete[..], found.value, ran);
      complete[group.id] := true;
      assert complete[..] == after;
      SerialWhole(g, groups, execute, after, ran);
    }
    AllRan(g, groups, complete[..], ran);
    AllSucceeded(execute, ran);
  }

  lemma AllSucceeded<E>(execute: nat -> Option<E>, ran: seq<nat>)
    requires Succeeded(execute, ran)
    ensures forall p: nat :: p in ran ==> execute(p).None?
  {
  }

  ghost predicate SerialHolds<E>(g: Graph, groups: seq<PackageGroup>, execute: nat -> Option<E>, complete: seq<bool>, ran: seq<nat>) {
    && RunsInOrder(g, ran) && Succeeded(execute, ran)
    && ClosedGroups(groups, CompleteSet(complete)) && RanGroups(groups, CompleteSet(complete), ran)
  }

  lemma SerialParts<E>(g: Graph, groups: seq<PackageGroup>, execute: nat -> Option<E>, complete: seq<bool>, ran: seq<nat>)
    requires SerialHolds(g, groups, execute, complete, ran)
    ensures RunsInOrder(g, ran) && Succeeded(execute, ran)
    ensures ClosedGroups(groups, CompleteSet(complete)) && RanGroups(groups, CompleteSet(complete), ran)
  {
  }

  lemma SerialWhole<E>(g: Graph, groups: seq<PackageGroup>, execute: nat -> Option<E>, complete: seq<bool>, ran: seq<nat>)
    requires RunsInOrder(g, ran) && Succeeded(execute, ran)
    requires ClosedGroups(groups, CompleteSet(complete)) && RanGroups(groups, CompleteSet(complete), ran)
    ensures SerialHolds(g, groups, execute, complete, ran)
  {
  }

  lemma NothingRan<E>(g: Graph, groups: seq<PackageGroup>, complete: seq<bool>, execute: nat -> Option<E>)
    requires forall c :: 0 <= c < |complete| ==> !complete[c]
    ensures RunsInOrder(g, []) && Succeeded(execute, [])
    ensures ClosedGroups(groups, CompleteSet(complete)) && RanGroups(groups, CompleteSet(complete), [])
  {
  }

  lemma ReadyExists(g: Graph, groups: seq<PackageGroup>, complete: seq<bool>)
    requires GroupsHold(g, groups) && |complete| == |groups| && exists c :: 0 <= c < |complete| && !complete[c]
    ensures exists c :: 0 <= c < |groups| && GroupIsReady(groups[c], complete)
  {
    hide StronglyConnected, ByFirst, Covers;
    var c: nat :| c < |complete| && !complete[c];
    var rank :| Ranked(groups, rank);
    var ready := SomeGroupIsReady(groups, rank, complete, c);
  }

  lemma ReadyGroup(g: Graph, groups: seq<PackageGroup>, complete: seq<bool>, c: nat)
    requires GroupsHold(g, groups) && |complete| == |groups| && c < |groups| && GroupIsReady(groups[c], complete)
    ensures groups[c].id == c && c !in CompleteSet(complete)
    ensures forall d: nat :: Edge(GroupGraph(groups), c, d) ==> d in CompleteSet(complete)
  {
    hide StronglyConnected, ByFirst, Covers, LinksHold;
  }

  // `ran` holds the packages of the complete groups and the first `n` of the next group.
  ghost predicate RanSome(groups: seq<PackageGroup>, complete: set<nat>, c: nat, n: nat, ran: seq<nat>)
    requires c < |groups| && n <= |groups[c].packages|
  {
    forall p: nat :: p in ran <==> InGroups(groups, complete, p) || p in groups[c].packages[..n]
  }

  method ExecuteGroup<E>(ghost g: Graph, groups: seq<PackageGroup>, ghost complete: set<nat>, c: nat, execute: nat -> Option<E>, before: seq<nat>)
    returns (error: Option<E>, ran: seq<nat>)
    requires ValidGraph(g) && GroupsHold(g, groups) && c < |groups| && c !in complete
    requires ClosedGroups(groups, complete) && RanGroups(groups, complete, before)
    requires forall d: nat :: Edge(GroupGraph(groups), c, d) ==> d in complete
    requires RunsInOrder(g, before) && Succeeded(execute, before)
    ensures RunsInOrder(g, ran)
    ensures error.None? ==> Succeeded(execute, ran) && RanSome(groups, complete, c, |groups[c].packages|, ran)
    ensures error.Some? ==> ran != [] && Succeeded(execute, ran[..|ran| - 1]) && execute(ran[|ran| - 1]) == error
    ensures error.Some? ==> ran[|ran| - 1] < |g|
  {
    hide RunsInOrder, ClosedGroups, GroupsHold, InGroups;
    ran := before;
    error := None;
    var packages := groups[c].packages;
    for n := 0 to |packages|
      invariant error.None? && RunsInOrder(g, ran) && Succeeded(execute, ran) && RanSome(groups, complete, c, n, ran)
    {
      var package := packages[n];
      ghost var previous := ran;
      RunsNextInGroup(g, groups, complete, c, n, ran);
      assert packages[..n + 1] == packages[..n] + [package];
      ran := ran + [package];
      error := execute(package);
      if error.Some? {
        assert ran[..|ran| - 1] == previous;
        return;
      }
    }
  }

  lemma NotInOthers(g: Graph, groups: seq<PackageGroup>, complete: set<nat>, c: nat, p: nat)
    requires GroupsHold(g, groups) && InComponent(Members(groups), c, p) && c !in complete
    ensures !InGroups(groups, complete, p)
  {
    hide LinksHold, Schedulable, Mutual, Covers, ByFirst;
    assert forall d :: InComponent(Members(groups), d, p) && InComponent(Members(groups), c, p) ==> d == c;
  }

  lemma RunsNextInGroup(g: Graph, groups: seq<PackageGroup>, complete: set<nat>, c: nat, n: nat, ran: seq<nat>)
    requires ValidGraph(g) && GroupsHold(g, groups) && c < |groups| && c !in complete && ClosedGroups(groups, complete)
    requires forall d: nat :: Edge(GroupGraph(groups), c, d) ==> d in complete
    requires n < |groups[c].packages| && RunsInOrder(g, ran) && RanSome(groups, complete, c, n, ran)
    ensures RunsInOrder(g, ran + [groups[c].packages[n]]) && groups[c].packages[n] < |g|
  {
    var p := groups[c].packages[n];
    assert InComponent(Members(groups), c, p);
    assert p !in ran by {
      NotInOthers(g, groups, complete, c, p);
      hide InGroups;
      assert Increasing(Members(groups)[c]);
    }
    hide GroupsHold, RunsInOrder;
    forall q: nat | Reaches(g, p, q)
      ensures q in ran || Mutual(g, p, q)
    {
      NothingMissing(g, groups, complete, c, p, q);
    }
    RunsNext(g, ran, p);
  }

  lemma InMoreGroups(groups: seq<PackageGroup>, complete: set<nat>, c: nat, p: nat)
    requires c < |groups|
    ensures InGroups(groups, complete + {c}, p) <==> InGroups(groups, complete, p) || p in groups[c].packages
  {
    assert InComponent(Members(groups), c, p) <==> p in groups[c].packages;
  }

  lemma CompleteNext(groups: seq<PackageGroup>, complete: seq<bool>, c: nat, ran: seq<nat>)
    requires |complete| == |groups| && c < |groups| && c !in CompleteSet(complete) && ClosedGroups(groups, CompleteSet(complete))
    requires forall d: nat :: Edge(GroupGraph(groups), c, d) ==> d in CompleteSet(complete)
    requires RanSome(groups, CompleteSet(complete), c, |groups[c].packages|, ran)
    ensures var after := CompleteSet(complete[c := true]);
            && ClosedGroups(groups, after) && RanGroups(groups, after, ran)
            && |Below(|groups|) - after| < |Below(|groups|) - CompleteSet(complete)|
  {
    var before := CompleteSet(complete);
    assert CompleteSet(complete[c := true]) == before + {c};
    Shrinks(Below(|groups|), before, c);
    hide CompleteSet, Below;
    GroupCompletes(groups, before, c, ran);
  }

  lemma GroupCompletes(groups: seq<PackageGroup>, complete: set<nat>, c: nat, ran: seq<nat>)
    requires c < |groups| && ClosedGroups(groups, complete)
    requires forall d: nat :: Edge(GroupGraph(groups), c, d) ==> d in complete
    requires RanSome(groups, complete, c, |groups[c].packages|, ran)
    ensures ClosedGroups(groups, complete + {c}) && RanGroups(groups, complete + {c}, ran)
  {
    hide InGroups, Edge, InComponent;
    var packages := groups[c].packages;
    assert packages[..|packages|] == packages;
    forall p: nat
      ensures p in ran <==> InGroups(groups, complete + {c}, p)
    {
      InMoreGroups(groups, complete, c, p);
    }
  }

  lemma Shrinks(all: set<nat>, before: set<nat>, c: nat)
    requires c in all && c !in before
    ensures |all - (before + {c})| < |all - before|
  {
    assert all - before == (all - (before + {c})) + {c};
  }

  lemma AllRan(g: Graph, groups: seq<PackageGroup>, complete: seq<bool>, ran: seq<nat>)
    requires GroupsHold(g, groups) && |complete| == |groups| && RanGroups(groups, CompleteSet(complete), ran)
    requires forall c :: 0 <= c < |complete| ==> complete[c]
    ensures forall p: nat :: p in ran <==> p < |g|
  {
    forall p: nat
      ensures p in ran <==> p < |g|
    {
      if p < |g| {
        assert Placed(Members(groups), p);
        var c: nat :| InComponent(Members(groups), c, p);
        assert c in CompleteSet(complete);
      }
    }
  }
}
