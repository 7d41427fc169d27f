// Package planning: source ownership, contraction of the dependency graph to the packages that
// have sources, and its condensation into groups (compiler-executable/iris-build/src/plan.rs).
module PackagePlan {
  import opened Graphs
  import opened Initializers
  import opened Wrappers

  type Name = string

  type Path = string

  datatype SelectedSource = SelectedSource(path: Path, identity: Path)

  datatype PackageInput = PackageInput(name: Name, sourceIdentities: seq<Path>, dependencies: seq<Name>)

  datatype PlannedPackage = PlannedPackage(name: Name, sourcePaths: seq<Path>)

  datatype PackageGroup = PackageGroup(id: nat, packages: seq<nat>, dependencies: seq<nat>, dependents: seq<nat>)

  datatype BuildPlan = BuildPlan(packages: seq<PlannedPackage>, groups: seq<PackageGroup>)

  datatype BuildPlanError =
    | DuplicatePackage(name: Name)
    | ConflictingPackageSource(path: Path, firstPackage: Name, secondPackage: Name)
    | UnownedPackageSource(path: Path)

  // ---------------------------------------------------------------- dependencies between names

  // The dependencies that each package declares. A name need not be that of a package.
  type Declared = map<Name, seq<Name>>

  predicate Declares(declared: Declared, a: Name, b: Name) {
    a in declared && b in declared[a]
  }

  predicate DeclaresAt(declared: Declared, walk: seq<Name>, k: nat)
    requires k + 1 < |walk|
  {
    Declares(declared, walk[k], walk[k + 1])
  }

  ghost predicate Walk(declared: Declared, walk: seq<Name>, a: Name, b: Name) {
    && |walk| >= 2 && walk[0] == a && walk[|walk| - 1] == b
    && (forall k: nat :: k + 1 < |walk| ==> DeclaresAt(declared, walk, k))
  }

  // `a` depends on `b`, directly or through other packages.
  ghost predicate DependsOn(declared: Declared, a: Name, b: Name) {
    exists walk :: Walk(declared, walk, a, b)
  }

  // None of the packages in between is retained.
  predicate Skips(retained: set<Name>, walk: seq<Name>) {
    forall k :: 0 < k < |walk| - 1 ==> walk[k] !in retained
  }

  ghost predicate DependsThrough(declared: Declared, retained: set<Name>, a: Name, b: Name) {
    exists walk :: Walk(declared, walk, a, b) && Skips(retained, walk)
  }

  lemma DependsDirectly(declared: Declared, retained: set<Name>, a: Name, b: Name)
    requires Declares(declared, a, b)
    ensures DependsOn(declared, a, b) && DependsThrough(declared, retained, a, b)
  {
    assert DeclaresAt(declared, [a, b], 0);
    assert Walk(declared, [a, b], a, b) && Skips(retained, [a, b]);
  }

  lemma DependsFurther(declared: Declared, retained: set<Name>, a: Name, b: Name, c: Name)
    requires DependsThrough(declared, retained, a, b) && b !in retained && Declares(declared, b, c)
    ensures DependsThrough(declared, retained, a, c)
  {
    var walk :| Walk(declared, walk, a, b) && Skips(retained, walk);
    var further := walk + [c];
    forall k: nat | k + 1 < |further|
      ensures DeclaresAt(declared, further, k)
    {
      assert k + 1 < |walk| ==> DeclaresAt(declared, walk, k);
    }
    assert Walk(declared, further, a, c) && Skips(retained, further);
  }

  lemma DependsTransitively(declared: Declared, a: Name, b: Name, c: Name)
    requires DependsOn(declared, a, b) && DependsOn(declared, b, c)
    ensures DependsOn(declared, a, c)
  {
    var p :| Walk(declared, p, a, b);
    var q :| Walk(declared, q, b, c);
    var walk := p + q[1..];
    forall k: nat | k + 1 < |walk|
      ensures DeclaresAt(declared, walk, k)
    {
      if k + 1 < |p| {
        assert DeclaresAt(declared, p, k);
      } else {
        assert DeclaresAt(declared, q, k + 1 - |p|);
      }
    }
    assert Walk(declared, walk, a, c);
  }

  // ---------------------------------------------------------------- contraction

  // Everything that a package declares, with what the names found so far declare, has been found
  // or is still pending.
  ghost predicate Followed(declared: Declared, retained: set<Name>, a: Name, visited: set<Name>, pending: seq<Name>) {
    && (forall d :: Declares(declared, a, d) ==> d in visited || d in pending)
    && (forall c, d :: c in visited && c !in retained && Declares(declared, c, d) ==> d in visited || d in pending)
  }

  lemma {:induction false} FollowedFinds(declared: Declared, retained: set<Name>, a: Name, visited: set<Name>, walk: seq<Name>, b: Name)
    requires Followed(declared, retained, a, visited, []) && Walk(declared, walk, a, b) && Skips(retained, walk)
    ensures b in visited
    decreases |walk|
  {
    var n := |walk| - 1;
    assert DeclaresAt(declared, walk, n - 1);
    if n > 1 {
      var shorter := walk[..n];
      forall k: nat | k + 1 < |shorter|
        ensures DeclaresAt(declared, shorter, k)
      {
        assert DeclaresAt(declared, walk, k);
      }
      FollowedFinds(declared, retained, a, visited, shorter, walk[n - 1]);
    }
  }

  ghost function AllDeclared(declared: Declared): (all: set<Name>)
    ensures forall a, b :: Declares(declared, a, b) ==> b in all
  {
    set a, b | a in declared && b in declared[a] :: b
  }

  // The names found and the names pending are names that the package depends on.
  ghost predicate Found(declared: Declared, retained: set<Name>, a: Name, visited: set<Name>, pending: seq<Name>) {
    forall d :: d in visited || d in pending ==> d in AllDeclared(declared) && DependsThrough(declared, retained, a, d)
  }

  lemma StartFollowing(declared: Declared, retained: set<Name>, a: Name)
    requires a in declared
    ensures Followed(declared, retained, a, {}, Reversed(declared[a]))
    ensures Found(declared, retained, a, {}, Reversed(declared[a]))
  {
    ReversedMembers(declared[a]);
    forall d | d in declared[a]
      ensures DependsThrough(declared, retained, a, d)
    {
      DependsDirectly(declared, retained, a, d);
    }
  }

  // What follows from taking the last pending name.
  lemma FollowNext(declared: Declared, retained: set<Name>, a: Name, visited: set<Name>, pending: seq<Name>)
    requires pending != [] && Followed(declared, retained, a, visited, pending) && Found(declared, retained, a, visited, pending)
    ensures var d, rest := pending[|pending| - 1], pending[..|pending| - 1];
            var more := rest + if d !in visited && d !in retained && d in declared then Reversed(declared[d]) else [];
            && Followed(declared, retained, a, visited + {d}, more)
            && Found(declared, retained, a, visited + {d}, more)
  {
    var d, rest := pending[|pending| - 1], pending[..|pending| - 1];
    assert pending == rest + [d];
    if d !in visited && d !in retained && d in declared {
      ReversedMembers(declared[d]);
      forall e | e in declared[d]
        ensures DependsThrough(declared, retained, a, e)
      {
        DependsFurther(declared, retained, a, d, e);
      }
    }
    hide DependsThrough, AllDeclared;
  }

  lemma FollowedAll(declared: Declared, retained: set<Name>, a: Name, visited: set<Name>)
    requires Followed(declared, retained, a, visited, []) && Found(declared, retained, a, visited, [])
    ensures forall d :: d in visited <==> DependsThrough(declared, retained, a, d)
  {
    forall d | DependsThrough(declared, retained, a, d)
      ensures d in visited
    {
      var walk :| Walk(declared, walk, a, d) && Skips(retained, walk);
      FollowedFinds(declared, retained, a, visited, walk, d);
    }
  }

  // The retained packages that a package depends on, with none retained in between, each once.
  method ContractDependencies(package: PackageInput, retained: set<Name>, declared: Declared) returns (dependencies: seq<Name>)
    requires package.name in declared && declared[package.name] == package.dependencies
    ensures NoDuplicates(dependencies)
    ensures forall d :: d in dependencies <==> d in retained && DependsThrough(declared, retained, package.name, d)
  {
    hide Followed, DependsThrough, AllDeclared;
    dependencies := [];
    var visited := {};
    var pending := Reversed(package.dependencies);
    ghost var a := package.name;
    StartFollowing(declared, retained, a);
    while pending != []
      invariant Followed(declared, retained, a, visited, pending) && Found(declared, retained, a, visited, pending)
      invariant NoDuplicates(dependencies)
      invariant forall d :: d in dependencies <==> d in retained && d in visited
      decreases |AllDeclared(declared) - visited|, |pending|
    {
      FollowNext(declared, retained, a, visited, pending);
      var dependency := pending[|pending| - 1];
      assert dependency in pending;
      pending := pending[..|pending| - 1];
      if dependency in visited {
        assert visited + {dependency} == visited && pending + [] == pending;
        continue;
      }
      SubsetCount(AllDeclared(declared) - (visited + {dependency}), AllDeclared(declared) - visited);
      visited := visited + {dependency};
      if dependency in retained {
        dependencies := dependencies + [dependency];
      } else if dependency in declared {
        pending := pending + Reversed(declared[dependency]);
      }
      assert pending + [] == pending;
    }
    FollowedAll(declared, retained, a, visited);
  }

  lemma ReversedMembers<T>(s: seq<T>)
    ensures forall x :: x in Reversed(s) <==> x in s
  {
    forall x | x in s
      ensures x in Reversed(s)
    {
      var k :| 0 <= k < |s| && s[k] == x;
      assert Reversed(s)[|s| - 1 - k] == x;
    }
  }

  // The dependencies left when only the retained packages are kept.
  ghost predicate Contracts(declared: Declared, retained: set<Name>, contracted: Declared) {
    && contracted.Keys == retained
    && (forall a, d :: a in retained ==> (d in contracted[a] <==> d in retained && DependsThrough(declared, retained, a, d)))
  }

  lemma {:induction false} ContractedWalk(declared: Declared, retained: set<Name>, contracted: Declared, walk: seq<Name>, a: Name, b: Name)
    requires Contracts(declared, retained, contracted) && a in retained && b in retained && Walk(declared, walk, a, b)
    ensures DependsOn(contracted, a, b)
    decreases |walk|
  {
    if Skips(retained, walk) {
      DependsDirectly(contracted, retained, a, b);
    } else {
      var k := FirstRetained(retained, walk);
      var first, rest := walk[..k + 1], walk[k..];
      forall j: nat | j + 1 < |first|
        ensures DeclaresAt(declared, first, j)
      {
        assert DeclaresAt(declared, walk, j);
      }
      forall j: nat | j + 1 < |rest|
        ensures DeclaresAt(declared, rest, j)
      {
        assert DeclaresAt(declared, walk, k + j);
      }
      assert Walk(declared, first, a, walk[k]) && Skips(retained, first);
      DependsDirectly(contracted, retained, a, walk[k]);
      ContractedWalk(declared, retained, contracted, rest, walk[k], b);
      DependsTransitively(contracted, a, walk[k], b);
    }
  }

  lemma FirstRetained(retained: set<Name>, walk: seq<Name>) returns (k: nat)
    requires !Skips(retained, walk)
    ensures 0 < k < |walk| - 1 && walk[k] in retained && Skips(retained, walk[..k + 1])
  {
    k := 1;
    while walk[k] !in retained
      invariant 0 < k < |walk| - 1 && forall j :: 0 < j < k ==> walk[j] !in retained
      decreases |walk| - k
    {
      k := k + 1;
    }
  }

  lemma {:induction false} ExpandedWalk(declared: Declared, retained: set<Name>, contracted: Declared, walk: seq<Name>, a: Name, b: Name)
    requires Contracts(declared, retained, contracted) && Walk(contracted, walk, a, b)
    ensures DependsOn(declared, a, b)
    decreases |walk|
  {
    assert DeclaresAt(contracted, walk, 0);
    assert DependsThrough(declared, retained, a, walk[1]);
    if |walk| > 2 {
      var rest := walk[1..];
      forall j: nat | j + 1 < |rest|
        ensures DeclaresAt(contracted, rest, j)
      {
        assert DeclaresAt(contracted, walk, j + 1);
      }
      ExpandedWalk(declared, retained, contracted, rest, walk[1], b);
      DependsTransitively(declared, a, walk[1], b);
    }
  }

  // Contraction neither adds nor loses a dependency between retained packages.
  lemma ContractionKeepsDependencies(declared: Declared, retained: set<Name>, contracted: Declared, a: Name, b: Name)
    requires Contracts(declared, retained, contracted) && a in retained && b in retained
    ensures DependsOn(contracted, a, b) <==> DependsOn(declared, a, b)
  {
    if DependsOn(contracted, a, b) {
      var walk :| Walk(contracted, walk, a, b);
      ExpandedWalk(declared, retained, contracted, walk, a, b);
    }
    if DependsOn(declared, a, b) {
      var walk :| Walk(declared, walk, a, b);
      ContractedWalk(declared, retained, contracted, walk, a, b);
    }
  }

  // ---------------------------------------------------------------- from names to positions

  // `g` lists the dependencies of the package at each position as positions.
  ghost predicate Numbered(contracted: Declared, names: seq<Name>, g: Graph) {
    && NoDuplicates(names) && |g| == |names| && ValidGraph(g)
    && (forall i :: 0 <= i < |names| ==> names[i] in contracted)
    && (forall n :: n in contracted ==> n in names)
    && (forall i: nat, j: nat :: i < |names| && j < |names| ==> (j in g[i] <==> names[j] in contracted[names[i]]))
    && (forall n, d :: Declares(contracted, n, d) ==> d in names)
  }

  lemma {:induction false} PathOfNames(contracted: Declared, names: seq<Name>, g: Graph, path: seq<nat>, i: nat, j: nat)
    requires Numbered(contracted, names, g) && PathBetween(g, path, i, j) && |path| > 1
    ensures DependsOn(contracted, names[i], names[j])
    decreases |path|
  {
    assert Edge(g, path[0], path[1]);
    DependsDirectly(contracted, {}, names[i], names[path[1]]);
    if |path| > 2 {
      PathOfNames(contracted, names, g, path[1..], path[1], j);
      DependsTransitively(contracted, names[i], names[path[1]], names[j]);
    }
  }

  lemma {:induction false} WalkOfPositions(contracted: Declared, names: seq<Name>, g: Graph, walk: seq<Name>, i: nat, j: nat)
    requires Numbered(contracted, names, g) && i < |names| && j < |names| && Walk(contracted, walk, names[i], names[j])
    ensures ReachesByEdge(g, i, j)
    decreases |walk|
  {
    assert DeclaresAt(contracted, walk, 0);
    var d :| 0 <= d < |names| && names[d] == walk[1];
    assert Edge(g, i, d);
    if |walk| == 2 {
      ReachesSelf(g, j);
    } else {
      var rest := walk[1..];
      forall k: nat | k + 1 < |rest|
        ensures DeclaresAt(contracted, rest, k)
      {
        assert DeclaresAt(contracted, walk, k + 1);
      }
      WalkOfPositions(contracted, names, g, rest, d, j);
      EdgeThenReach(g, d, j);
    }
  }

  lemma EdgeThenReach(g: Graph, a: nat, b: nat)
    requires ValidGraph(g) && ReachesByEdge(g, a, b)
    ensures Reaches(g, a, b)
  {
    var d :| Edge(g, a, d) && Reaches(g, d, b);
    EdgeReaches(g, a, d);
    ReachesTransitive(g, a, d, b);
  }

  lemma NumberingKeepsDependencies(contracted: Declared, names: seq<Name>, g: Graph, i: nat, j: nat)
    requires Numbered(contracted, names, g) && i < |names| && j < |names|
    ensures ReachesByEdge(g, i, j) <==> DependsOn(contracted, names[i], names[j])
  {
    if ReachesByEdge(g, i, j) {
      var d :| Edge(g, i, d) && Reaches(g, d, j);
      var path :| PathBetween(g, path, d, j);
      assert PathBetween(g, [i] + path, i, j);
      PathOfNames(contracted, names, g, [i] + path, i, j);
    }
    if DependsOn(contracted, names[i], names[j]) {
      var walk :| Walk(contracted, walk, names[i], names[j]);
      WalkOfPositions(contracted, names, g, walk, i, j);
    }
  }

  // ---------------------------------------------------------------- sorted lists

  predicate Increasing(s: seq<nat>) {
    forall i, j :: 0 <= i < j < |s| ==> s[i] < s[j]
  }

  // Puts an element in its place, unless it is there already.
  function Insert(s: seq<nat>, x: nat): (r: seq<nat>)
    requires Increasing(s)
    ensures Increasing(r) && forall y :: y in r <==> y == x || y in s
  {
    if s == [] then [x]
    else
      var last := s[|s| - 1];
      if x > last then s + [x]
      else if x == last then s
      else
        var rest := Insert(s[..|s| - 1], x);
        assert s == s[..|s| - 1] + [last];
        assert forall i :: 0 <= i < |rest| ==> rest[i] in rest && rest[i] < last;
        rest + [last]
  }

  // Sorts a list and drops repetitions.
  function Sorted(s: seq<nat>): (r: seq<nat>)
    ensures Increasing(r) && forall y :: y in r <==> y in s
  {
    if s == [] then []
    else
      assert s == s[..|s| - 1] + [s[|s| - 1]];
      Insert(Sorted(s[..|s| - 1]), s[|s| - 1])
  }

  ghost predicate SameMembers(a: seq<nat>, b: seq<nat>) {
    forall p: nat :: p in a <==> p in b
  }

  // Sorted lists are in the order of their first members.
  predicate ByFirst(lists: seq<seq<nat>>) {
    && (forall c :: 0 <= c < |lists| ==> lists[c] != [] && Increasing(lists[c]))
    && (forall c, d :: 0 <= c < d < |lists| ==> lists[c][0] < lists[d][0])
  }

  // Puts a list in its place, among lists that have other members.
  function PlacedByFirst(lists: seq<seq<nat>>, list: seq<nat>): (r: seq<seq<nat>>)
    requires ByFirst(lists) && list != [] && Increasing(list)
    requires forall c :: 0 <= c < |lists| ==> lists[c][0] != list[0]
    ensures ByFirst(r) && forall l :: l in r <==> l == list || l in lists
    ensures |r| == |lists| + 1
  {
    if lists == [] || lists[|lists| - 1][0] < list[0] then lists + [list]
    else
      var front, last := lists[..|lists| - 1], lists[|lists| - 1];
      var rest := PlacedByFirst(front, list);
      assert lists == front + [last] && last[0] != list[0];
      assert forall l :: l in front ==> l != [] && l[0] < last[0];
      assert forall c :: 0 <= c < |rest| ==> rest[c] in rest;
      rest + [last]
  }

  // `grouped` holds the same components, each sorted.
  ghost predicate Regroups(components: seq<seq<nat>>, grouped: seq<seq<nat>>) {
    && ByFirst(grouped)
    && (forall c :: 0 <= c < |grouped| ==> HasMembers(components, grouped[c]))
    && (forall c :: 0 <= c < |components| ==> HasMembers(grouped, components[c]))
  }

  ghost predicate HasMembers(lists: seq<seq<nat>>, list: seq<nat>) {
    exists c :: 0 <= c < |lists| && SameMembers(lists[c], list)
  }

  // The first `c` components have been sorted into place.
  ghost predicate Regrouping(components: seq<seq<nat>>, c: nat, grouped: seq<seq<nat>>)
    requires c <= |components|
  {
    && ByFirst(grouped)
    && (forall k :: 0 <= k < |grouped| ==> HasMembers(components[..c], grouped[k]))
    && (forall b :: 0 <= b < c ==> HasMembers(grouped, components[b]))
  }

  method SortGroups(g: Graph, components: seq<seq<nat>>) returns (grouped: seq<seq<nat>>)
    requires StronglyConnected(g, components)
    ensures Regroups(components, grouped)
  {
    grouped := [];
    for c := 0 to |components|
      invariant Regrouping(components, c, grouped)
    {
      hide StronglyConnected, HasMembers;
      var packages := Sorted(components[c]);
      SortedIsNew(g, components, c, grouped, packages);
      PlaceNext(components, c, grouped, packages);
      grouped := PlacedByFirst(grouped, packages);
    }
    assert components[..|components|] == components;
  }

  lemma PlaceNext(components: seq<seq<nat>>, c: nat, grouped: seq<seq<nat>>, packages: seq<nat>)
    requires c < |components| && Regrouping(components, c, grouped)
    requires packages != [] && Increasing(packages) && SameMembers(packages, components[c])
    requires forall k :: 0 <= k < |grouped| ==> grouped[k][0] != packages[0]
    ensures Regrouping(components, c + 1, PlacedByFirst(grouped, packages))
  {
    var placed := PlacedByFirst(grouped, packages);
    forall k | 0 <= k < |placed|
      ensures HasMembers(components[..c + 1], placed[k])
    {
      assert placed[k] in placed;
      HasMembersNext(components, c, placed[k]);
      assert placed[k] == packages ==> SameMembers(components[..c + 1][c], placed[k]);
    }
    forall b | 0 <= b <= c
      ensures HasMembers(placed, components[b])
    {
      if b < c {
        var k :| 0 <= k < |grouped| && SameMembers(grouped[k], components[b]);
        assert grouped[k] in placed;
      } else {
        assert packages in placed;
      }
    }
  }

  lemma HasMembersNext(components: seq<seq<nat>>, c: nat, l: seq<nat>)
    requires c < |components|
    ensures HasMembers(components[..c], l) ==> HasMembers(components[..c + 1], l)
  {
    if HasMembers(components[..c], l) {
      var b :| 0 <= b < c && SameMembers(components[..c][b], l);
      assert SameMembers(components[..c + 1][b], l);
    }
  }

  // A component shares no member, hence no first member, with the components before it.
  lemma SortedIsNew(g: Graph, components: seq<seq<nat>>, c: nat, grouped: seq<seq<nat>>, packages: seq<nat>)
    requires StronglyConnected(g, components) && c < |components| && SameMembers(packages, components[c]) && Regrouping(components, c, grouped)
    ensures packages != [] && forall k :: 0 <= k < |grouped| ==> grouped[k][0] != packages[0]
  {
    assert components[c][0] in packages;
    forall k | 0 <= k < |grouped|
      ensures grouped[k][0] != packages[0]
    {
      assert HasMembers(components[..c], grouped[k]);
      var b :| 0 <= b < c && SameMembers(components[..c][b], grouped[k]);
      assert grouped[k][0] in grouped[k] && packages[0] in packages;
      assert InComponent(components, b, grouped[k][0]) && InComponent(components, c, packages[0]);
    }
  }

  // The place of a group among the components that it was sorted from.
  lemma PlaceOf(components: seq<seq<nat>>, grouped: seq<seq<nat>>, c: nat) returns (r: nat)
    requires Regroups(components, grouped) && c < |grouped|
    ensures r < |components| && SameMembers(components[r], grouped[c])
  {
    assert HasMembers(components, grouped[c]);
    r :| 0 <= r < |components| && SameMembers(components[r], grouped[c]);
  }

  lemma SameGroup(grouped: seq<seq<nat>>, c: nat, d: nat)
    requires ByFirst(grouped) && c < |grouped| && d < |grouped| && SameMembers(grouped[c], grouped[d])
    ensures c == d
  {
    assert grouped[c][0] in grouped[d] && grouped[d][0] in grouped[c];
  }

  lemma RegroupedOnce(g: Graph, components: seq<seq<nat>>, grouped: seq<seq<nat>>, c: nat, d: nat, p: nat)
    requires StronglyConnected(g, components) && Regroups(components, grouped)
    requires InComponent(grouped, c, p) && InComponent(grouped, d, p)
    ensures c == d
  {
    hide Mutual;
    var r := PlaceOf(components, grouped, c);
    var q := PlaceOf(components, grouped, d);
    assert InComponent(components, r, p) && InComponent(components, q, p);
    hide StronglyConnected, HasMembers;
    SameGroup(grouped, c, d);
  }

  lemma RegroupedMutual(g: Graph, components: seq<seq<nat>>, grouped: seq<seq<nat>>, c: nat, p: nat, q: nat)
    requires StronglyConnected(g, components) && Regroups(components, grouped) && InComponent(grouped, c, p)
    ensures p < |g| && (InComponent(grouped, c, q) <==> Mutual(g, p, q))
  {
    hide Mutual;
    var r := PlaceOf(components, grouped, c);
    hide Regroups;
    assert InComponent(components, r, p);
    assert InComponent(components, r, q) <==> InComponent(grouped, c, q);
  }

  lemma RegroupedAll(g: Graph, components: seq<seq<nat>>, grouped: seq<seq<nat>>)
    requires Covers(components, |g|) && Regroups(components, grouped)
    ensures Covers(grouped, |g|)
  {
    hide ByFirst;
    forall p: nat | p < |g|
      ensures Placed(grouped, p)
    {
      assert Placed(components, p);
      var r :| InComponent(components, r, p);
      assert HasMembers(grouped, components[r]);
      var c :| 0 <= c < |grouped| && SameMembers(grouped[c], components[r]);
      assert InComponent(grouped, c, p);
    }
  }

  lemma RegroupKeeps(g: Graph, components: seq<seq<nat>>, grouped: seq<seq<nat>>)
    requires Covers(components, |g|) && StronglyConnected(g, components) && Regroups(components, grouped)
    ensures Covers(grouped, |g|) && StronglyConnected(g, grouped)
  {
    RegroupedAll(g, components, grouped);
    assert forall c :: 0 <= c < |grouped| ==> grouped[c] != [] && NoDuplicates(grouped[c]) by {
      hide HasMembers;
    }
    forall c, d, p: nat | InComponent(grouped, c, p) && InComponent(grouped, d, p)
      ensures c == d
    {
      hide Regroups, StronglyConnected;
      RegroupedOnce(g, components, grouped, c, d, p);
    }
    forall c, p: nat, q: nat | InComponent(grouped, c, p)
      ensures p < |g| && (InComponent(grouped, c, q) <==> Mutual(g, p, q))
    {
      hide Regroups, StronglyConnected;
      RegroupedMutual(g, components, grouped, c, p, q);
    }
    hide Regroups, Mutual;
  }

  // ---------------------------------------------------------------- groups

  // A package of one group depends on a package of another.
  ghost predicate GroupEdge(g: Graph, grouped: seq<seq<nat>>, c: nat, d: nat) {
    c != d && exists p: nat, q: nat :: InComponent(grouped, c, p) && InComponent(grouped, d, q) && Edge(g, p, q)
  }

  // Each group can be given a number above those of the groups it depends on.
  ghost predicate Ranks(g: Graph, grouped: seq<seq<nat>>, rank: seq<nat>) {
    |rank| == |grouped| && forall c: nat, d: nat :: GroupEdge(g, grouped, c, d) ==> d < |rank| && c < |rank| && rank[d] < rank[c]
  }

  lemma {:induction false} PlacesOf(components: seq<seq<nat>>, grouped: seq<seq<nat>>, n: nat) returns (places: seq<nat>)
    requires Regroups(components, grouped) && n <= |grouped|
    ensures |places| == n
    ensures forall c :: 0 <= c < n ==> places[c] < |components| && SameMembers(components[places[c]], grouped[c])
  {
    hide SameMembers, Regroups;
    places := [];
    if n > 0 {
      places := PlacesOf(components, grouped, n - 1);
      var r := PlaceOf(components, grouped, n - 1);
      places := places + [r];
    }
  }

  lemma GroupsHaveRanks(g: Graph, components: seq<seq<nat>>, grouped: seq<seq<nat>>) returns (rank: seq<nat>)
    requires StronglyConnected(g, components) && DependencyOrder(g, components) && Regroups(components, grouped)
    ensures Ranks(g, grouped, rank)
  {
    rank := PlacesOf(components, grouped, |grouped|);
    forall c: nat, d: nat | GroupEdge(g, grouped, c, d)
      ensures c < |rank| && d < |rank| && rank[d] < rank[c]
    {
      var p: nat, q: nat :| InComponent(grouped, c, p) && InComponent(grouped, d, q) && Edge(g, p, q);
      assert InComponent(components, rank[c], p) && InComponent(components, rank[d], q);
      if rank[c] == rank[d] {
        SameGroup(grouped, c, d);
      }
    }
  }

  // The group of each package.
  method PlaceGroups(n: nat, grouped: seq<seq<nat>>) returns (groupOf: seq<nat>)
    requires Covers(grouped, n)
    requires forall c, d, p: nat :: InComponent(grouped, c, p) && InComponent(grouped, d, p) ==> c == d
    requires forall c, k :: 0 <= c < |grouped| && 0 <= k < |grouped[c]| ==> grouped[c][k] < n
    ensures |groupOf| == n && forall p: nat :: p < n ==> InComponent(grouped, groupOf[p], p)
  {
    var table := new nat[n](_ => 0);
    for c := 0 to |grouped|
      invariant forall b, p: nat :: b < c && InComponent(grouped, b, p) ==> table[p] == b
    {
      for k := 0 to |grouped[c]|
        invariant forall b, p: nat :: b < c && InComponent(grouped, b, p) ==> table[p] == b
        invariant forall j :: 0 <= j < k ==> table[grouped[c][j]] == c
      {
        assert InComponent(grouped, c, grouped[c][k]);
        table[grouped[c][k]] := c;
      }
    }
    groupOf := table[..];
    forall p: nat | p < n
      ensures InComponent(grouped, groupOf[p], p)
    {
      assert Placed(grouped, p);
    }
  }

  // The groups other than `c` of the dependencies of one package.
  function OtherGroups(dependencies: seq<nat>, groupOf: seq<nat>, c: nat): (r: seq<nat>)
    requires forall k :: 0 <= k < |dependencies| ==> dependencies[k] < |groupOf|
    ensures forall x :: x in r <==> x != c && exists d :: d in dependencies && groupOf[d] == x
  {
    if dependencies == [] then []
    else
      var last := dependencies[|dependencies| - 1];
      assert dependencies == dependencies[..|dependencies| - 1] + [last];
      OtherGroups(dependencies[..|dependencies| - 1], groupOf, c) + if groupOf[last] != c then [groupOf[last]] else []
  }

  function GroupDependencies(g: Graph, packages: seq<nat>, groupOf: seq<nat>, c: nat): (r: seq<nat>)
    requires ValidGraph(g) && |groupOf| == |g| && forall k :: 0 <= k < |packages| ==> packages[k] < |g|
    ensures forall x :: x in r <==> x != c && exists p, d :: p in packages && d in g[p] && groupOf[d] == x
  {
    if packages == [] then []
    else
      var last := packages[|packages| - 1];
      assert packages == packages[..|packages| - 1] + [last];
      GroupDependencies(g, packages[..|packages| - 1], groupOf, c) + OtherGroups(g[last], groupOf, c)
  }

  // The dependents of each group, in order.
  method Dependents(dependencies: seq<seq<nat>>) returns (dependents: seq<seq<nat>>)
    requires ValidGraph(dependencies) && forall c :: 0 <= c < |dependencies| ==> Increasing(dependencies[c])
    ensures |dependents| == |dependencies| && forall d :: 0 <= d < |dependents| ==> Increasing(dependents[d])
    ensures forall c: nat, d: nat :: d < |dependents| ==> (c in dependents[d] <==> Edge(dependencies, c, d))
  {
    var table: array<seq<nat>> := new seq<nat>[|dependencies|](_ => []);
    for c := 0 to |dependencies|
      invariant forall d :: 0 <= d < table.Length ==> Increasing(table[d])
      invariant forall b: nat, d: nat {:trigger b in table[d]} :: d < table.Length ==> (b in table[d] <==> b < c && d in dependencies[b])
    {
      for k := 0 to |dependencies[c]|
        invariant forall d :: 0 <= d < table.Length ==> Increasing(table[d])
        invariant forall b: nat, d: nat {:trigger b in table[d]} :: d < table.Length ==>
          (b in table[d] <==> (b < c && d in dependencies[b]) || (b == c && d in dependencies[c][..k]))
      {
        var dependency := dependencies[c][k];
        assert forall b :: b in table[dependency] ==> b < c;
        assert forall i :: 0 <= i < |table[dependency]| ==> table[dependency][i] in table[dependency];
        table[dependency] := table[dependency] + [c];
      }
    }
    dependents := table[..];
    forall c: nat, d: nat | d < |dependents|
      ensures c in dependents[d] <==> Edge(dependencies, c, d)
    {
      assert dependents[d] == table[d];
    }
  }

  function Members(groups: seq<PackageGroup>): (r: seq<seq<nat>>)
    ensures |r| == |groups| && forall c :: 0 <= c < |groups| ==> r[c] == groups[c].packages
  {
    seq(|groups|, c requires 0 <= c < |groups| => groups[c].packages)
  }

  // The dependencies between groups, as a graph.
  function GroupGraph(groups: seq<PackageGroup>): (r: Graph)
    ensures |r| == |groups| && forall c :: 0 <= c < |groups| ==> r[c] == groups[c].dependencies
  {
    seq(|groups|, c requires 0 <= c < |groups| => groups[c].dependencies)
  }

  // Two packages share a group exactly when each depends on the other. Groups depend on each
  // other exactly as their packages do, each group knows its dependents, and no group depends on
  // itself, even through others.
  ghost predicate GroupsHold(g: Graph, groups: seq<PackageGroup>) {
    var grouped := Members(groups);
    && ByFirst(grouped) && Covers(grouped, |g|) && StronglyConnected(g, grouped)
    && (forall c :: 0 <= c < |groups| ==> groups[c].id == c)
    && LinksHold(groups)
    && (forall c: nat, d: nat :: Edge(GroupGraph(groups), c, d) <==> GroupEdge(g, grouped, c, d))
    && Schedulable(groups)
  }

  // Dependencies and dependents are listed once, in order, and are each other's inverse.
  ghost predicate LinksHold(groups: seq<PackageGroup>) {
    && ValidGraph(GroupGraph(groups))
    && (forall c :: 0 <= c < |groups| ==> Increasing(groups[c].dependencies) && Increasing(groups[c].dependents))
    && (forall c: nat, d: nat :: d < |groups| ==> (c in groups[d].dependents <==> Edge(GroupGraph(groups), c, d)))
  }

  ghost predicate Ranked(groups: seq<PackageGroup>, rank: seq<nat>) {
    |rank| == |groups| && forall c: nat, d: nat :: Edge(GroupGraph(groups), c, d) ==> d < |rank| && rank[d] < rank[c]
  }

  ghost predicate Schedulable(groups: seq<PackageGroup>) {
    exists rank :: Ranked(groups, rank)
  }

  lemma {:induction false} RankedPath(groups: seq<PackageGroup>, rank: seq<nat>, path: seq<nat>, c: nat, d: nat)
    requires Ranked(groups, rank) && PathBetween(GroupGraph(groups), path, c, d)
    ensures rank[d] <= rank[c]
    decreases |path|
  {
    if |path| > 1 {
      assert Edge(GroupGraph(groups), path[0], path[1]);
      RankedPath(groups, rank, path[1..], path[1], d);
    }
  }

  lemma SchedulableIsAcyclic(groups: seq<PackageGroup>, c: nat)
    requires Schedulable(groups)
    ensures !ReachesByEdge(GroupGraph(groups), c, c)
  {
    var rank :| Ranked(groups, rank);
    if ReachesByEdge(GroupGraph(groups), c, c) {
      var d :| Edge(GroupGraph(groups), c, d) && Reaches(GroupGraph(groups), d, c);
      var path :| PathBetween(GroupGraph(groups), path, d, c);
      RankedPath(groups, rank, path, d, c);
    }
  }

  method PackageGroups(g: Graph) returns (groups: seq<PackageGroup>)
    requires ValidGraph(g)
    ensures GroupsHold(g, groups)
  {
    var components := InitializerComponents(g);
    var grouped := SortGroups(g, components);
    RegroupKeeps(g, components, grouped);
    ghost var rank := GroupsHaveRanks(g, components, grouped);
    hide Regroups, DependencyOrder;
    MembersBelow(g, grouped);
    var groupOf := PlaceGroups(|g|, grouped);
    var dependencies := seq(|grouped|, c requires 0 <= c < |grouped| => Sorted(GroupDependencies(g, grouped[c], groupOf, c)));
    DependenciesAreEdges(g, grouped, groupOf, dependencies);
    var dependents := Dependents(dependencies);
    groups := seq(|grouped|, c requires 0 <= c < |grouped| => PackageGroup(c, grouped[c], dependencies[c], dependents[c]));
    Assembled(g, grouped, dependencies, dependents, rank, groups);
  }

  lemma MembersBelow(g: Graph, grouped: seq<seq<nat>>)
    requires StronglyConnected(g, grouped)
    ensures forall c, k :: 0 <= c < |grouped| && 0 <= k < |grouped[c]| ==> grouped[c][k] < |g|
    ensures forall c, d, p: nat :: InComponent(grouped, c, p) && InComponent(grouped, d, p) ==> c == d
  {
    hide Mutual;
    forall c, k | 0 <= c < |grouped| && 0 <= k < |grouped[c]|
      ensures grouped[c][k] < |g|
    {
      assert InComponent(grouped, c, grouped[c][k]);
    }
  }

  lemma DependencyIsEdge(g: Graph, grouped: seq<seq<nat>>, groupOf: seq<nat>, dependencies: seq<nat>, c: nat, d: nat)
    requires ValidGraph(g) && |groupOf| == |g| && c < |grouped|
    requires forall k :: 0 <= k < |grouped[c]| ==> grouped[c][k] < |g|
    requires forall c, d, p: nat :: InComponent(grouped, c, p) && InComponent(grouped, d, p) ==> c == d
    requires forall p: nat :: p < |g| ==> InComponent(grouped, groupOf[p], p)
    requires dependencies == Sorted(GroupDependencies(g, grouped[c], groupOf, c))
    ensures d in dependencies <==> GroupEdge(g, grouped, c, d)
    ensures d in dependencies ==> d < |grouped|
  {
    if d in dependencies {
      var p, q :| p in grouped[c] && q in g[p] && groupOf[q] == d;
      assert InComponent(grouped, c, p) && InComponent(grouped, d, q) && Edge(g, p, q);
    }
    if GroupEdge(g, grouped, c, d) {
      var p: nat, q: nat :| InComponent(grouped, c, p) && InComponent(grouped, d, q) && Edge(g, p, q);
      assert InComponent(grouped, groupOf[q], q);
    }
  }

  lemma DependenciesAreEdges(g: Graph, grouped: seq<seq<nat>>, groupOf: seq<nat>, dependencies: seq<seq<nat>>)
    requires ValidGraph(g) && StronglyConnected(g, grouped) && |groupOf| == |g| && |dependencies| == |grouped|
    requires forall c, k :: 0 <= c < |grouped| && 0 <= k < |grouped[c]| ==> grouped[c][k] < |g|
    requires forall p: nat :: p < |g| ==> InComponent(grouped, groupOf[p], p)
    requires forall c :: 0 <= c < |grouped| ==> dependencies[c] == Sorted(GroupDependencies(g, grouped[c], groupOf, c))
    ensures forall c: nat, d: nat :: Edge(dependencies, c, d) <==> GroupEdge(g, grouped, c, d)
    ensures ValidGraph(dependencies)
  {
    MembersBelow(g, grouped);
    hide StronglyConnected, Sorted, GroupDependencies, InComponent;
    forall c: nat, d: nat
      ensures Edge(dependencies, c, d) <==> GroupEdge(g, grouped, c, d)
    {
      if c < |grouped| {
        DependencyIsEdge(g, grouped, groupOf, dependencies[c], c, d);
      } else {
        NoEdgeBeyond(g, grouped, c, d);
      }
    }
    forall c, k | 0 <= c < |dependencies| && 0 <= k < |dependencies[c]|
      ensures dependencies[c][k] < |dependencies|
    {
      DependencyIsEdge(g, grouped, groupOf, dependencies[c], c, dependencies[c][k]);
    }
  }

  lemma NoEdgeBeyond(g: Graph, grouped: seq<seq<nat>>, c: nat, d: nat)
    requires c >= |grouped|
    ensures !GroupEdge(g, grouped, c, d)
  {
  }

  lemma Assembled(g: Graph, grouped: seq<seq<nat>>, dependencies: seq<seq<nat>>, dependents: seq<seq<nat>>, rank: seq<nat>, groups: seq<PackageGroup>)
    requires ByFirst(grouped) && Covers(grouped, |g|) && StronglyConnected(g, grouped) && Ranks(g, grouped, rank)
    requires |groups| == |grouped| == |dependencies| == |dependents| && ValidGraph(dependencies)
    requires forall c :: 0 <= c < |groups| ==> groups[c] == PackageGroup(c, grouped[c], dependencies[c], dependents[c])
    requires forall c :: 0 <= c < |groups| ==> Increasing(dependencies[c]) && Increasing(dependents[c])
    requires forall c: nat, d: nat :: Edge(dependencies, c, d) <==> GroupEdge(g, grouped, c, d)
    requires forall c: nat, d: nat :: d < |dependents| ==> (c in dependents[d] <==> Edge(dependencies, c, d))
    ensures GroupsHold(g, groups)
  {
    hide ByFirst, Covers, StronglyConnected, GroupEdge, Increasing;
    assert Members(groups) == grouped;
    assert GroupGraph(groups) == dependencies;
    assert Ranked(groups, rank) by {
      assert forall c: nat, d: nat :: Edge(dependencies, c, d) ==> GroupEdge(g, grouped, c, d);
    }
    hide ValidGraph, Edge;
    assert LinksHold(groups);
  }

  // ---------------------------------------------------------------- ownership of sources

  ghost predicate OwnsSource(packages: seq<PackageInput>, name: Name, identity: Path) {
    exists k :: 0 <= k < |packages| && packages[k].name == name && identity in packages[k].sourceIdentities
  }

  predicate DistinctNames(packages: seq<PackageInput>) {
    forall i, j :: 0 <= i < j < |packages| ==> packages[i].name != packages[j].name
  }

  // No two packages have the same name, and no two own the same source.
  ghost predicate ClearOwnership(packages: seq<PackageInput>) {
    && DistinctNames(packages)
    && (forall a, b, identity :: OwnsSource(packages, a, identity) && OwnsSource(packages, b, identity) ==> a == b)
  }

  ghost predicate RealConflict(packages: seq<PackageInput>, error: BuildPlanError) {
    match error
    case DuplicatePackage(name) =>
      exists i, j :: 0 <= i < j < |packages| && packages[i].name == name && packages[j].name == name
    case ConflictingPackageSource(path, first, second) =>
      first != second && OwnsSource(packages, first, path) && OwnsSource(packages, second, path)
    case UnownedPackageSource(_) => false
  }

  predicate IsOwner(owners: map<Path, Name>, name: Name, identity: Path) {
    identity in owners && owners[identity] == name
  }

  ghost predicate OwnersOf(packages: seq<PackageInput>, owners: map<Path, Name>) {
    forall name, identity :: IsOwner(owners, name, identity) <==> OwnsSource(packages, name, identity)
  }

  // Sources of the first packages, and the first `n` of the next one, have been assigned.
  ghost predicate Assigning(packages: seq<PackageInput>, i: nat, n: nat, owners: map<Path, Name>)
    requires i < |packages| && n <= |packages[i].sourceIdentities|
  {
    forall name, identity :: IsOwner(owners, name, identity) <==>
      OwnsSource(packages[..i], name, identity) || (name == packages[i].name && identity in packages[i].sourceIdentities[..n])
  }

  lemma OwnsMore(packages: seq<PackageInput>, i: nat, name: Name, identity: Path)
    requires i < |packages|
    ensures OwnsSource(packages[..i + 1], name, identity) <==>
            OwnsSource(packages[..i], name, identity) || (packages[i].name == name && identity in packages[i].sourceIdentities)
    ensures OwnsSource(packages[..i + 1], name, identity) ==> OwnsSource(packages, name, identity)
  {
    var more := packages[..i + 1];
    if OwnsSource(packages[..i], name, identity) {
      var k :| 0 <= k < i && packages[..i][k].name == name && identity in packages[..i][k].sourceIdentities;
      assert more[k].name == name && identity in more[k].sourceIdentities;
    }
    if packages[i].name == name && identity in packages[i].sourceIdentities {
      assert more[i].name == name && identity in more[i].sourceIdentities;
    }
    if OwnsSource(more, name, identity) {
      var k :| 0 <= k < |more| && more[k].name == name && identity in more[k].sourceIdentities;
      assert k < i ==> packages[..i][k].name == name && identity in packages[..i][k].sourceIdentities;
      assert packages[k].name == name && identity in packages[k].sourceIdentities;
    }
  }

  lemma AssigningNext(packages: seq<PackageInput>, i: nat, n: nat, before: map<Path, Name>, after: map<Path, Name>)
    requires i < |packages| && n < |packages[i].sourceIdentities| && Assigning(packages, i, n, before)
    requires var identity := packages[i].sourceIdentities[n];
             if identity in before then after == before && before[identity] == packages[i].name
             else after == before[identity := packages[i].name]
    ensures Assigning(packages, i, n + 1, after)
  {
    hide OwnsSource;
    var package := packages[i];
    var added := package.sourceIdentities[n];
    assert package.sourceIdentities[..n + 1] == package.sourceIdentities[..n] + [added];
    forall name, identity
      ensures IsOwner(after, name, identity) <==>
        OwnsSource(packages[..i], name, identity) || (name == package.name && identity in package.sourceIdentities[..n + 1])
    {
      assert IsOwner(before, name, identity) <==>
        OwnsSource(packages[..i], name, identity) || (name == package.name && identity in package.sourceIdentities[..n]);
      assert IsOwner(after, name, identity) <==> IsOwner(before, name, identity) || (name == package.name && identity == added);
    }
  }

  // Succeeds exactly when ownership is clear.
  method AssignOwners(packages: seq<PackageInput>) returns (r: Result<map<Path, Name>, BuildPlanError>)
    ensures r.Ok? <==> ClearOwnership(packages)
    ensures r.Ok? ==> OwnersOf(packages, r.value)
    ensures r.Err? ==> RealConflict(packages, r.error)
  {
    var owners := map[];
    var names := {};
    for i := 0 to |packages|
      invariant DistinctNames(packages[..i])
      invariant forall name :: name in names <==> exists k :: 0 <= k < i && packages[k].name == name
      invariant OwnersOf(packages[..i], owners)
    {
      var package := packages[i];
      if package.name in names {
        var k :| 0 <= k < i && packages[k].name == package.name;
        return Err(DuplicatePackage(package.name));
      }
      names := names + {package.name};
      var assigning := AssignSources(packages, i, owners);
      if assigning.Err? {
        return Err(assigning.error);
      }
      owners := assigning.value;
    }
    assert packages[..|packages|] == packages;
    return Ok(owners);
  }

  method AssignSources(packages: seq<PackageInput>, i: nat, before: map<Path, Name>)
    returns (r: Result<map<Path, Name>, BuildPlanError>)
    requires i < |packages| && OwnersOf(packages[..i], before)
    ensures r.Ok? ==> OwnersOf(packages[..i + 1], r.value)
    ensures r.Err? ==> r.error.ConflictingPackageSource? && RealConflict(packages, r.error)
  {
    hide OwnsSource;
    var owners := before;
    var package := packages[i];
    for n := 0 to |package.sourceIdentities|
      invariant Assigning(packages, i, n, owners)
    {
      var identity := package.sourceIdentities[n];
      assert package.sourceIdentities[..n + 1] == package.sourceIdentities[..n] + [identity];
      ghost var previous := owners;
      if identity in owners {
        assert IsOwner(owners, owners[identity], identity);
        if owners[identity] != package.name {
          OwnsMore(packages, i, owners[identity], identity);
          OwnsMore(packages, i, package.name, identity);
          return Err(ConflictingPackageSource(identity, owners[identity], package.name));
        }
      } else {
        owners := owners[identity := package.name];
      }
      AssigningNext(packages, i, n, previous, owners);
    }
    forall name, identity
      ensures IsOwner(owners, name, identity) <==> OwnsSource(packages[..i + 1], name, identity)
    {
      OwnsMore(packages, i, name, identity);
    }
    return Ok(owners);
  }

  // ---------------------------------------------------------------- plans

  // The selected sources of one package, in the order of selection.
  function PathsOf(selected: seq<SelectedSource>, owners: map<Path, Name>, name: Name): seq<Path> {
    if selected == [] then []
    else
      var last := selected[|selected| - 1];
      PathsOf(selected[..|selected| - 1], owners, name) + if IsOwner(owners, name, last.identity) then [last.path] else []
  }

  ghost predicate SelectedBy(selected: seq<SelectedSource>, owners: map<Path, Name>, byPackage: map<Name, seq<Path>>) {
    && (forall name :: name in byPackage <==> PathsOf(selected, owners, name) != [])
    && (forall name :: name in byPackage ==> byPackage[name] == PathsOf(selected, owners, name))
  }

  predicate AllOwned(selected: seq<SelectedSource>, owners: map<Path, Name>) {
    forall k :: 0 <= k < |selected| ==> selected[k].identity in owners
  }

  predicate FirstUnowned(selected: seq<SelectedSource>, owners: map<Path, Name>, k: nat, path: Path) {
    k < |selected| && AllOwned(selected[..k], owners) && selected[k].identity !in owners && selected[k].path == path
  }

  method SelectSources(selected: seq<SelectedSource>, owners: map<Path, Name>) returns (r: Result<map<Name, seq<Path>>, BuildPlanError>)
    ensures r.Ok? <==> AllOwned(selected, owners)
    ensures r.Ok? ==> SelectedBy(selected, owners, r.value)
    ensures r.Err? ==> r.error.UnownedPackageSource? && exists k: nat :: FirstUnowned(selected, owners, k, r.error.path)
  {
    var byPackage := map[];
    for k := 0 to |selected|
      invariant AllOwned(selected[..k], owners)
      invariant SelectedBy(selected[..k], owners, byPackage)
    {
      var source := selected[k];
      if source.identity !in owners {
        assert FirstUnowned(selected, owners, k, source.path);
        return Err(UnownedPackageSource(source.path));
      }
      var owner := owners[source.identity];
      assert selected[..k + 1][..k] == selected[..k];
      byPackage := byPackage[owner := (if owner in byPackage then byPackage[owner] else []) + [source.path]];
    }
    assert selected[..|selected|] == selected;
    return Ok(byPackage);
  }

  function Names(packages: seq<PackageInput>): (r: seq<Name>)
    ensures |r| == |packages| && forall k :: 0 <= k < |packages| ==> r[k] == packages[k].name
  {
    seq(|packages|, k requires 0 <= k < |packages| => packages[k].name)
  }

  function DeclaredBy(packages: seq<PackageInput>): Declared {
    if packages == [] then map[]
    else
      var last := packages[|packages| - 1];
      DeclaredBy(packages[..|packages| - 1])[last.name := last.dependencies]
  }

  lemma {:induction false} DeclaredByName(packages: seq<PackageInput>)
    requires DistinctNames(packages)
    ensures forall k :: 0 <= k < |packages| ==>
              packages[k].name in DeclaredBy(packages) && DeclaredBy(packages)[packages[k].name] == packages[k].dependencies
    ensures forall n :: n in DeclaredBy(packages) ==> n in Names(packages)
  {
    if packages != [] {
      var front := packages[..|packages| - 1];
      DeclaredByName(front);
      forall n | n in DeclaredBy(packages)
        ensures n in Names(packages)
      {
        if n in DeclaredBy(front) {
          var k :| 0 <= k < |front| && Names(front)[k] == n;
          assert Names(packages)[k] == n;
        } else {
          assert Names(packages)[|packages| - 1] == n;
        }
      }
    }
  }

  // The packages with selected sources, in the order given.
  function Planned(packages: seq<PackageInput>, selected: seq<SelectedSource>, owners: map<Path, Name>): seq<PlannedPackage> {
    if packages == [] then []
    else
      var name := packages[|packages| - 1].name;
      var paths := PathsOf(selected, owners, name);
      Planned(packages[..|packages| - 1], selected, owners) + if paths == [] then [] else [PlannedPackage(name, paths)]
  }

  predicate IsPlanned(packages: seq<PackageInput>, selected: seq<SelectedSource>, owners: map<Path, Name>, planned: PlannedPackage) {
    && planned.name in Names(packages)
    && planned.sourcePaths == PathsOf(selected, owners, planned.name) && planned.sourcePaths != []
  }

  predicate DistinctPlanned(planned: seq<PlannedPackage>) {
    forall i, j :: 0 <= i < j < |planned| ==> planned[i].name != planned[j].name
  }

  predicate HasPlanned(planned: seq<PlannedPackage>, name: Name) {
    exists i :: 0 <= i < |planned| && planned[i].name == name
  }

  lemma {:induction false} PlannedNames(packages: seq<PackageInput>, selected: seq<SelectedSource>, owners: map<Path, Name>)
    requires DistinctNames(packages)
    ensures var planned := Planned(packages, selected, owners);
            && DistinctPlanned(planned)
            && (forall i :: 0 <= i < |planned| ==> IsPlanned(packages, selected, owners, planned[i]))
            && (forall k :: 0 <= k < |packages| && PathsOf(selected, owners, packages[k].name) != [] ==> HasPlanned(planned, packages[k].name))
  {
    hide PathsOf;
    if packages != [] {
      var front, last := packages[..|packages| - 1], packages[|packages| - 1];
      PlannedNames(front, selected, owners);
      var before := Planned(front, selected, owners);
      var paths := PathsOf(selected, owners, last.name);
      var planned := before + if paths == [] then [] else [PlannedPackage(last.name, paths)];
      DistinctFront(packages);
      assert planned == Planned(packages, selected, owners);
      hide Planned, DistinctNames;
      forall k | 0 <= k < |packages| && PathsOf(selected, owners, packages[k].name) != []
        ensures HasPlanned(planned, packages[k].name)
      {
        if k < |front| {
          assert packages[k] == front[k];
          var i :| 0 <= i < |before| && before[i].name == packages[k].name;
          assert planned[i] == before[i];
        } else {
          assert planned[|before|].name == packages[k].name;
        }
      }
      forall i | 0 <= i < |planned|
        ensures IsPlanned(packages, selected, owners, planned[i])
      {
        assert i < |before| ==> IsPlanned(front, selected, owners, planned[i]);
      }
    }
  }

  // A plan holds the packages with selected sources, and its groups order them by what they
  // depend on, also through packages without sources.
  ghost predicate PlanFor(packages: seq<PackageInput>, selected: seq<SelectedSource>, owners: map<Path, Name>, plan: BuildPlan) {
    && OwnersOf(packages, owners)
    && plan.packages == Planned(packages, selected, owners)
    && exists g :: GroupsFor(packages, g, plan)
  }

  ghost predicate GroupsFor(packages: seq<PackageInput>, g: Graph, plan: BuildPlan) {
    && ValidGraph(g) && |g| == |plan.packages| && GroupsHold(g, plan.groups)
    && (forall i: nat, j: nat :: i < |g| && j < |g| ==>
          (ReachesByEdge(g, i, j) <==> DependsOn(DeclaredBy(packages), plan.packages[i].name, plan.packages[j].name)))
  }

  ghost predicate ContractedOne(declared: Declared, retained: set<Name>, name: Name, dependencies: seq<Name>) {
    forall d :: d in dependencies <==> d in retained && DependsThrough(declared, retained, name, d)
  }

  method ContractAll(packages: seq<PackageInput>, retained: set<Name>) returns (contracted: Declared)
    requires DistinctNames(packages) && forall n :: n in retained ==> n in Names(packages)
    ensures Contracts(DeclaredBy(packages), retained, contracted)
  {
    var declared := DeclaredBy(packages);
    DeclaredByName(packages);
    hide DeclaredBy, DependsThrough, ContractedOne;
    contracted := map[];
    for k := 0 to |packages|
      invariant forall n :: n in contracted <==> n in retained && n in Names(packages)[..k]
      invariant forall n :: n in contracted ==> ContractedOne(declared, retained, n, contracted[n])
    {
      assert Names(packages)[..k + 1] == Names(packages)[..k] + [packages[k].name];
      if packages[k].name in retained {
        var dependencies := ContractDependencies(packages[k], retained, declared);
        IsContracted(declared, retained, packages[k].name, dependencies);
        contracted := contracted[packages[k].name := dependencies];
      }
    }
    assert Names(packages)[..|packages|] == Names(packages);
    AreContracted(declared, retained, contracted);
  }

  lemma IsContracted(declared: Declared, retained: set<Name>, name: Name, dependencies: seq<Name>)
    requires forall d :: d in dependencies <==> d in retained && DependsThrough(declared, retained, name, d)
    ensures ContractedOne(declared, retained, name, dependencies)
  {
  }

  lemma AreContracted(declared: Declared, retained: set<Name>, contracted: Declared)
    requires forall n :: n in contracted <==> n in retained
    requires forall n :: n in contracted ==> ContractedOne(declared, retained, n, contracted[n])
    ensures Contracts(declared, retained, contracted)
  {
    hide DependsThrough;
  }

  // Replaces names by positions.
  method Number(contracted: Declared, names: seq<Name>) returns (g: Graph)
    requires NoDuplicates(names) && forall n :: n in contracted <==> n in names
    requires forall n, d :: Declares(contracted, n, d) ==> d in names
    ensures Numbered(contracted, names, g)
  {
    var ids: map<Name, nat> := map[];
    for i := 0 to |names|
      invariant forall n :: n in ids <==> n in names[..i]
      invariant forall k :: 0 <= k < i ==> names[k] in ids && ids[names[k]] == k
    {
      ids := ids[names[i] := i];
    }
    g := [];
    for i := 0 to |names|
      invariant |g| == i
      invariant forall k :: 0 <= k < i ==> PositionsOf(contracted[names[k]], names, g[k])
    {
      var dependencies := NumberOne(contracted[names[i]], names, ids);
      g := g + [dependencies];
    }
    forall i: nat, j: nat | i < |names| && j < |names|
      ensures j in g[i] <==> names[j] in contracted[names[i]]
    {
      assert PositionsOf(contracted[names[i]], names, g[i]);
    }
    assert forall k :: 0 <= k < |g| ==> PositionsOf(contracted[names[k]], names, g[k]);
  }

  ghost predicate PositionsOf(dependencies: seq<Name>, names: seq<Name>, positions: seq<nat>) {
    && (forall k :: 0 <= k < |positions| ==> positions[k] < |names|)
    && (forall j: nat :: j < |names| ==> (j in positions <==> names[j] in dependencies))
  }

  method NumberOne(dependencies: seq<Name>, names: seq<Name>, ids: map<Name, nat>) returns (positions: seq<nat>)
    requires NoDuplicates(names) && forall n :: n in ids ==> n in names
    requires forall k :: 0 <= k < |names| ==> names[k] in ids && ids[names[k]] == k
    ensures PositionsOf(dependencies, names, positions)
  {
    positions := [];
    for k := 0 to |dependencies|
      invariant PositionsOf(dependencies[..k], names, positions)
    {
      assert dependencies[..k + 1] == dependencies[..k] + [dependencies[k]];
      if dependencies[k] in ids {
        var j :| 0 <= j < |names| && names[j] == dependencies[k];
        positions := positions + [ids[dependencies[k]]];
      }
    }
    assert dependencies[..|dependencies|] == dependencies;
  }

  ghost predicate HasOwner(packages: seq<PackageInput>, identity: Path) {
    exists name :: OwnsSource(packages, name, identity)
  }

  ghost predicate HasOwners(packages: seq<PackageInput>, selected: seq<SelectedSource>) {
    forall k :: 0 <= k < |selected| ==> HasOwner(packages, selected[k].identity)
  }

  ghost predicate FirstWithoutOwner(packages: seq<PackageInput>, selected: seq<SelectedSource>, k: nat, path: Path) {
    k < |selected| && HasOwners(packages, selected[..k]) && !HasOwner(packages, selected[k].identity) && selected[k].path == path
  }

  // The error names a real conflict or, when there is none, the first source without an owner.
  ghost predicate RealError(packages: seq<PackageInput>, selected: seq<SelectedSource>, error: BuildPlanError) {
    if error.UnownedPackageSource? then ClearOwnership(packages) && exists k: nat :: FirstWithoutOwner(packages, selected, k, error.path)
    else RealConflict(packages, error)
  }

  lemma OwnedHasOwner(packages: seq<PackageInput>, owners: map<Path, Name>, identity: Path)
    requires OwnersOf(packages, owners)
    ensures identity in owners <==> HasOwner(packages, identity)
  {
    hide OwnsSource;
    if identity in owners {
      assert IsOwner(owners, owners[identity], identity);
    }
    if HasOwner(packages, identity) {
      var name :| OwnsSource(packages, name, identity);
      assert IsOwner(owners, name, identity);
    }
  }

  lemma OwnedHaveOwners(packages: seq<PackageInput>, owners: map<Path, Name>, selected: seq<SelectedSource>)
    requires OwnersOf(packages, owners)
    ensures AllOwned(selected, owners) <==> HasOwners(packages, selected)
  {
    hide OwnersOf, HasOwner;
    forall k | 0 <= k < |selected|
      ensures selected[k].identity in owners <==> HasOwner(packages, selected[k].identity)
    {
      OwnedHasOwner(packages, owners, selected[k].identity);
    }
  }

  lemma UnownedIsReal(packages: seq<PackageInput>, owners: map<Path, Name>, selected: seq<SelectedSource>, path: Path)
    requires ClearOwnership(packages) && OwnersOf(packages, owners) && exists k: nat :: FirstUnowned(selected, owners, k, path)
    ensures RealError(packages, selected, UnownedPackageSource(path))
  {
    hide OwnersOf, HasOwner, HasOwners, ClearOwnership;
    var k: nat :| FirstUnowned(selected, owners, k, path);
    OwnedHaveOwners(packages, owners, selected[..k]);
    OwnedHasOwner(packages, owners, selected[k].identity);
    assert FirstWithoutOwner(packages, selected, k, path);
  }

  // Succeeds exactly when ownership is clear and every selected source has an owner.
  method NewPlan(selected: seq<SelectedSource>, packages: seq<PackageInput>) returns (r: Result<BuildPlan, BuildPlanError>)
    ensures r.Ok? <==> ClearOwnership(packages) && HasOwners(packages, selected)
    ensures r.Ok? ==> exists owners :: PlanFor(packages, selected, owners, r.value)
    ensures r.Err? ==> RealError(packages, selected, r.error)
  {
    hide OwnersOf, HasOwner, HasOwners, AllOwned, FirstUnowned, PlanFor;
    var assigning := AssignOwners(packages);
    if assigning.Err? {
      return Err(assigning.error);
    }
    var owners := assigning.value;
    var selecting := SelectSources(selected, owners);
    OwnedHaveOwners(packages, owners, selected);
    if selecting.Err? {
      UnownedIsReal(packages, owners, selected, selecting.error.path);
      return Err(selecting.error);
    }
    var plan := PlanSelected(packages, selected, owners, selecting.value);
    return Ok(plan);
  }

  method PlanSelected(packages: seq<PackageInput>, selected: seq<SelectedSource>, ghost owners: map<Path, Name>, byPackage: map<Name, seq<Path>>)
    returns (plan: BuildPlan)
    requires DistinctNames(packages) && OwnersOf(packages, owners) && SelectedBy(selected, owners, byPackage)
    ensures PlanFor(packages, selected, owners, plan)
  {
    hide DistinctNames, OwnersOf, SelectedBy, GroupsFor, Planned, GroupsHold, Numbered, DependsThrough, DeclaredBy;
    RetainedAreNames(packages, selected, owners, byPackage);
    var contracted := ContractAll(packages, byPackage.Keys);
    var planned := PlanPackages(packages, selected, owners, byPackage);
    var names := seq(|planned|, i requires 0 <= i < |planned| => planned[i].name);
    NamesArePlanned(packages, selected, owners, byPackage, planned, names);
    var g := Number(contracted, names);
    var groups := PackageGroups(g);
    plan := BuildPlan(planned, groups);
    Plans(packages, byPackage.Keys, contracted, names, g, plan);
  }

  method PlanPackages(packages: seq<PackageInput>, selected: seq<SelectedSource>, ghost owners: map<Path, Name>, byPackage: map<Name, seq<Path>>)
    returns (planned: seq<PlannedPackage>)
    requires SelectedBy(selected, owners, byPackage)
    ensures planned == Planned(packages, selected, owners)
  {
    planned := [];
    for k := 0 to |packages|
      invariant planned == Planned(packages[..k], selected, owners)
    {
      assert packages[..k + 1][..k] == packages[..k];
      var name := packages[k].name;
      if name in byPackage {
        planned := planned + [PlannedPackage(name, byPackage[name])];
      }
    }
    assert packages[..|packages|] == packages;
  }

  lemma {:induction false} OwnerOfPaths(selected: seq<SelectedSource>, owners: map<Path, Name>, name: Name)
    requires PathsOf(selected, owners, name) != []
    ensures exists identity :: IsOwner(owners, name, identity)
  {
    if !IsOwner(owners, name, selected[|selected| - 1].identity) {
      OwnerOfPaths(selected[..|selected| - 1], owners, name);
    }
  }

  lemma RetainedAreNames(packages: seq<PackageInput>, selected: seq<SelectedSource>, owners: map<Path, Name>, byPackage: map<Name, seq<Path>>)
    requires OwnersOf(packages, owners) && SelectedBy(selected, owners, byPackage)
    ensures forall n :: n in byPackage ==> n in Names(packages)
  {
    forall n | n in byPackage
      ensures n in Names(packages)
    {
      OwnerOfPaths(selected, owners, n);
      var identity :| IsOwner(owners, n, identity);
      assert OwnsSource(packages, n, identity);
      var k :| 0 <= k < |packages| && packages[k].name == n && identity in packages[k].sourceIdentities;
      assert Names(packages)[k] == n;
    }
  }

  lemma NamesArePlanned(packages: seq<PackageInput>, selected: seq<SelectedSource>, owners: map<Path, Name>, byPackage: map<Name, seq<Path>>,
                        planned: seq<PlannedPackage>, names: seq<Name>)
    requires DistinctNames(packages) && SelectedBy(selected, owners, byPackage) && planned == Planned(packages, selected, owners)
    requires forall n :: n in byPackage ==> n in Names(packages)
    requires |names| == |planned| && forall i :: 0 <= i < |planned| ==> names[i] == planned[i].name
    ensures NoDuplicates(names) && forall n :: n in byPackage <==> n in names
  {
    PlannedNames(packages, selected, owners);
    hide Planned, PathsOf;
    forall n | n in byPackage
      ensures n in names
    {
      var k :| 0 <= k < |packages| && Names(packages)[k] == n;
      assert HasPlanned(planned, packages[k].name);
      var i :| 0 <= i < |planned| && planned[i].name == packages[k].name;
      assert names[i] == n;
    }
    forall i | 0 <= i < |names|
      ensures names[i] in byPackage
    {
      assert IsPlanned(packages, selected, owners, planned[i]);
    }
  }

  lemma Plans(packages: seq<PackageInput>, retained: set<Name>, contracted: Declared, names: seq<Name>, g: Graph, plan: BuildPlan)
    requires Contracts(DeclaredBy(packages), retained, contracted) && Numbered(contracted, names, g) && GroupsHold(g, plan.groups)
    requires |names| == |plan.packages| && forall i :: 0 <= i < |names| ==> names[i] == plan.packages[i].name
    ensures GroupsFor(packages, g, plan)
  {
    hide GroupsHold, ReachesByEdge, DependsOn, DependsThrough;
    forall i: nat, j: nat | i < |g| && j < |g|
      ensures ReachesByEdge(g, i, j) <==> DependsOn(DeclaredBy(packages), plan.packages[i].name, plan.packages[j].name)
    {
      NumberingKeepsDependencies(contracted, names, g, i, j);
      ContractionKeepsDependencies(DeclaredBy(packages), retained, contracted, names[i], names[j]);
    }
  }

  // ---------------------------------------------------------------- no source is lost

  function AllPaths(planned: seq<PlannedPackage>): seq<Path> {
    if planned == [] then [] else AllPaths(planned[..|planned| - 1]) + planned[|planned| - 1].sourcePaths
  }

  function SelectedPaths(selected: seq<SelectedSource>): seq<Path> {
    if selected == [] then [] else SelectedPaths(selected[..|selected| - 1]) + [selected[|selected| - 1].path]
  }

  // The selected sources of all the packages, package by package.
  function PathsOfAll(packages: seq<PackageInput>, selected: seq<SelectedSource>, owners: map<Path, Name>): seq<Path> {
    if packages == [] then []
    else PathsOfAll(packages[..|packages| - 1], selected, owners) + PathsOf(selected, owners, packages[|packages| - 1].name)
  }

  lemma {:induction false} PlannedPaths(packages: seq<PackageInput>, selected: seq<SelectedSource>, owners: map<Path, Name>)
    ensures AllPaths(Planned(packages, selected, owners)) == PathsOfAll(packages, selected, owners)
  {
    if packages != [] {
      var front, name := packages[..|packages| - 1], packages[|packages| - 1].name;
      PlannedPaths(front, selected, owners);
      var before, paths := Planned(front, selected, owners), PathsOf(selected, owners, name);
      if paths == [] {
        assert Planned(packages, selected, owners) == before;
      } else {
        var planned := before + [PlannedPackage(name, paths)];
        assert planned == Planned(packages, selected, owners) && planned[..|planned| - 1] == before;
      }
    }
  }

  // One more source adds its path once, to the package that owns it.
  lemma {:induction false} OneMoreSource(packages: seq<PackageInput>, selected: seq<SelectedSource>, owners: map<Path, Name>)
    requires DistinctNames(packages) && selected != []
    ensures var last, front := selected[|selected| - 1], selected[..|selected| - 1];
            multiset(PathsOfAll(packages, selected, owners)) == multiset(PathsOfAll(packages, front, owners))
              + if last.identity in owners && owners[last.identity] in Names(packages) then multiset{last.path} else multiset{}
  {
    hide PathsOf, DistinctNames;
    if packages != [] {
      var front, name := packages[..|packages| - 1], packages[|packages| - 1].name;
      DistinctFront(packages);
      OneMoreSource(front, selected, owners);
      OneMorePath(selected, owners, name);
    }
  }

  lemma DistinctFront(packages: seq<PackageInput>)
    requires DistinctNames(packages) && packages != []
    ensures var front, name := packages[..|packages| - 1], packages[|packages| - 1].name;
            DistinctNames(front) && Names(packages) == Names(front) + [name] && name !in Names(front)
  {
  }

  lemma OneMorePath(selected: seq<SelectedSource>, owners: map<Path, Name>, name: Name)
    requires selected != []
    ensures var last, front := selected[|selected| - 1], selected[..|selected| - 1];
            multiset(PathsOf(selected, owners, name)) == multiset(PathsOf(front, owners, name))
              + if IsOwner(owners, name, last.identity) then multiset{last.path} else multiset{}
  {
  }

  lemma {:induction false} PathsAreSelected(packages: seq<PackageInput>, selected: seq<SelectedSource>, owners: map<Path, Name>)
    requires DistinctNames(packages) && AllOwned(selected, owners)
    requires forall identity :: identity in owners ==> owners[identity] in Names(packages)
    ensures multiset(PathsOfAll(packages, selected, owners)) == multiset(SelectedPaths(selected))
  {
    if selected == [] {
      NoPaths(packages, owners);
    } else {
      OneMoreSource(packages, selected, owners);
      PathsAreSelected(packages, selected[..|selected| - 1], owners);
    }
  }

  lemma {:induction false} NoPaths(packages: seq<PackageInput>, owners: map<Path, Name>)
    ensures PathsOfAll(packages, [], owners) == []
  {
    if packages != [] {
      NoPaths(packages[..|packages| - 1], owners);
    }
  }

  // The packages of a plan hold every selected source exactly as often as it was selected.
  lemma PlanKeepsSources(packages: seq<PackageInput>, selected: seq<SelectedSource>, owners: map<Path, Name>, plan: BuildPlan)
    requires ClearOwnership(packages) && HasOwners(packages, selected) && PlanFor(packages, selected, owners, plan)
    ensures multiset(AllPaths(plan.packages)) == multiset(SelectedPaths(selected))
  {
    OwnedHaveOwners(packages, owners, selected);
    forall identity | identity in owners
      ensures owners[identity] in Names(packages)
    {
      var name := owners[identity];
      assert IsOwner(owners, name, identity);
      var k :| 0 <= k < |packages| && packages[k].name == name && identity in packages[k].sourceIdentities;
      assert Names(packages)[k] == name;
    }
    PathsAreSelected(packages, selected, owners);
    PlannedPaths(packages, selected, owners);
  }
}
