// Directed graphs given by adjacency lists, and reachability along their edges.
module Graphs {

  // `g[p]` lists the positions that `p` refers to.
  type Graph = seq<seq<nat>>

  predicate ValidGraph(g: Graph) {
    forall p, i :: 0 <= p < |g| && 0 <= i < |g[p]| ==> g[p][i] < |g|
  }

  predicate Edge(g: Graph, a: nat, b: nat) {
    a < |g| && b in g[a]
  }

  predicate IsPath(g: Graph, path: seq<nat>) {
    && |path| > 0
    && (forall i :: 0 <= i < |path| ==> path[i] < |g|)
    && (forall i :: 0 <= i < |path| - 1 ==> Edge(g, path[i], path[i + 1]))
  }

  ghost predicate PathBetween(g: Graph, path: seq<nat>, a: nat, b: nat) {
    IsPath(g, path) && path[0] == a && path[|path| - 1] == b
  }

  // A path of any length, including the empty one, leads from `a` to `b`.
  ghost predicate Reaches(g: Graph, a: nat, b: nat) {
    exists path :: PathBetween(g, path, a, b)
  }

  // A path with at least one edge leads from `a` to `b`.
  ghost predicate ReachesByEdge(g: Graph, a: nat, b: nat) {
    exists d :: Edge(g, a, d) && Reaches(g, d, b)
  }

  ghost predicate Mutual(g: Graph, a: nat, b: nat) {
    Reaches(g, a, b) && Reaches(g, b, a)
  }

  predicate NoDuplicates<T(==)>(s: seq<T>) {
    forall i, j :: 0 <= i < j < |s| ==> s[i] != s[j]
  }

  lemma ReachesSelf(g: Graph, a: nat)
    requires a < |g|
    ensures Reaches(g, a, a)
  {
    assert PathBetween(g, [a], a, a);
  }

  lemma EdgeReaches(g: Graph, a: nat, b: nat)
    requires ValidGraph(g) && Edge(g, a, b)
    ensures Reaches(g, a, b)
  {
    assert PathBetween(g, [a, b], a, b);
  }

  lemma ReachesTransitive(g: Graph, a: nat, b: nat, c: nat)
    requires Reaches(g, a, b) && Reaches(g, b, c)
    ensures Reaches(g, a, c)
  {
    var p :| PathBetween(g, p, a, b);
    var q :| PathBetween(g, q, b, c);
    assert PathBetween(g, p + q[1..], a, c);
  }

  lemma MutualTransitive(g: Graph, a: nat, b: nat, c: nat)
    requires Mutual(g, a, b) && Mutual(g, b, c)
    ensures Mutual(g, a, c)
  {
    ReachesTransitive(g, a, b, c);
    ReachesTransitive(g, c, b, a);
  }

  // A path that leaves a set has an edge that leaves it, with the rest of the path beyond.
  lemma {:induction false} PathLeaves(g: Graph, path: seq<nat>, inside: set<nat>) returns (u: nat, w: nat)
    requires IsPath(g, path) && path[0] in inside && path[|path| - 1] !in inside
    ensures u in inside && w !in inside && Edge(g, u, w)
    ensures Reaches(g, path[0], u) && Reaches(g, w, path[|path| - 1])
  {
    if path[1] in inside {
      var rest := path[1..];
      u, w := PathLeaves(g, rest, inside);
      assert PathBetween(g, path[..2], path[0], path[1]);
      ReachesTransitive(g, path[0], path[1], u);
    } else {
      u, w := path[0], path[1];
      ReachesSelf(g, u);
      assert PathBetween(g, path[1..], w, path[|path| - 1]);
    }
  }

  lemma ReachLeaves(g: Graph, a: nat, b: nat, inside: set<nat>) returns (u: nat, w: nat)
    requires Reaches(g, a, b) && a in inside && b !in inside
    ensures u in inside && w !in inside && Edge(g, u, w)
    ensures Reaches(g, a, u) && Reaches(g, w, b)
  {
    var path :| PathBetween(g, path, a, b);
    u, w := PathLeaves(g, path, inside);
  }

  // The positions below `n`.
  ghost function Below(n: nat): (all: set<nat>)
    ensures forall p: nat :: p in all <==> p < n
    ensures |all| == n
  {
    if n == 0 then {} else Below(n - 1) + {n - 1}
  }

  // Distinct positions below `n` number at most `n`, and exactly `n` only when all are present.
  lemma DistinctBound(s: seq<nat>, n: nat)
    requires NoDuplicates(s) && forall i :: 0 <= i < |s| ==> s[i] < n
    ensures |s| <= n
    ensures |s| == n ==> forall p: nat :: p < n ==> p in s
  {
    var elements := set x | x in s;
    ElementCount(s);
    SubsetCount(elements, Below(n));
    forall p: nat | p < n && |s| == n
      ensures p in s
    {
      assert p in elements;
    }
  }

  lemma {:induction false} SubsetCount<T>(a: set<T>, b: set<T>)
    requires a <= b
    ensures |a| <= |b|
    ensures |a| == |b| ==> a == b
  {
    assert b == a + (b - a);
    assert |b| == |a| + |b - a|;
  }

  lemma {:induction false} ElementCount<T>(s: seq<T>)
    requires NoDuplicates(s)
    ensures |set x | x in s| == |s|
  {
    if s != [] {
      var last := |s| - 1;
      ElementCount(s[..last]);
      assert (set x | x in s) == (set x | x in s[..last]) + {s[last]};
    }
  }
}
