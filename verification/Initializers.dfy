// Dependency ordering and cycle detection for module initializers
// (compiler-backend/functional/src/initializers.rs).
module Initializers {
  import opened Graphs

  // ---------------------------------------------------------------- orders

  predicate IsOrdering(ordered: seq<nat>, n: nat) {
    && NoDuplicates(ordered)
    && (forall i :: 0 <= i < |ordered| ==> ordered[i] < n)
    && |ordered| == n
  }

  // Each dependency comes before its dependent, unless it leads back to it.
  ghost predicate DependenciesFirst(g: Graph, ordered: seq<nat>) {
    forall i, d :: 0 <= i < |ordered| && Edge(g, ordered[i], d) ==>
      d in ordered[..i] || Reaches(g, d, ordered[i])
  }

  // When position `i` was emitted, everything reachable had been emitted, or some position
  // mutually reachable with it had not.
  ghost predicate FinishedAt(g: Graph, ordered: seq<nat>, i: nat)
    requires i < |ordered|
  {
    forall y: nat :: Reaches(g, ordered[i], y) && y !in ordered[..i + 1] ==>
      exists m: nat :: m !in ordered[..i + 1] && Mutual(g, ordered[i], m)
  }

  ghost predicate FinishOrder(g: Graph, ordered: seq<nat>) {
    forall i :: 0 <= i < |ordered| ==> FinishedAt(g, ordered, i)
  }

  // ---------------------------------------------------------------- depth-first search

  // A position being visited, with the index of the next dependency to follow.
  datatype Visit = Visit(position: nat, next: nat)

  predicate OnStack(stack: seq<Visit>, p: nat) {
    exists i :: 0 <= i < |stack| && stack[i].position == p
  }

  predicate StackWellFormed(g: Graph, stack: seq<Visit>) {
    && (forall i :: 0 <= i < |stack| ==> stack[i].position < |g| && stack[i].next <= |g[stack[i].position]|)
    && (forall i, j :: 0 <= i < j < |stack| ==> stack[i].position != stack[j].position)
    && (forall i :: 0 <= i < |stack| - 1 ==>
          stack[i].next > 0 && g[stack[i].position][stack[i].next - 1] == stack[i + 1].position)
  }

  ghost predicate Marks(g: Graph, visited: seq<bool>, ordered: seq<nat>, stack: seq<Visit>) {
    && |visited| == |g|
    && NoDuplicates(ordered)
    && (forall i :: 0 <= i < |ordered| ==> ordered[i] < |g| && !OnStack(stack, ordered[i]))
    && (forall p :: 0 <= p < |g| ==> (visited[p] <==> p in ordered || OnStack(stack, p)))
  }

  ghost predicate Explored(g: Graph, visited: seq<bool>, ordered: seq<nat>, stack: seq<Visit>)
    requires ValidGraph(g) && |visited| == |g| && StackWellFormed(g, stack)
  {
    && (forall p, d: nat :: p in ordered && Edge(g, p, d) ==> visited[d])
    && (forall i, k :: 0 <= i < |stack| && 0 <= k < stack[i].next ==>
          visited[g[stack[i].position][k]])
  }

  ghost predicate SearchState(g: Graph, visited: seq<bool>, ordered: seq<nat>, stack: seq<Visit>)
    requires ValidGraph(g)
  {
    && StackWellFormed(g, stack)
    && Marks(g, visited, ordered, stack)
    && Explored(g, visited, ordered, stack)
    && DependenciesFirst(g, ordered)
    && FinishOrder(g, ordered)
  }

  // ---------------------------------------------------------------- the recursive search

  // What a search has marked, and what it has emitted.
  datatype Search = Search(visited: set<nat>, ordered: seq<nat>)

  // Follows the dependencies of `p` from the `k`th on, in the order they are listed. One that has
  // not been visited is searched to the end and emitted before the next one.
  function Follow(g: Graph, p: nat, k: nat, s: Search): (after: Search)
    requires ValidGraph(g) && p < |g| && k <= |g[p]| && s.visited <= Below(|g|)
    ensures s.visited <= after.visited <= Below(|g|)
    decreases Below(|g|) - s.visited, |g[p]| - k
  {
    if k == |g[p]| then s
    else if g[p][k] in s.visited then Follow(g, p, k + 1, s)
    else Follow(g, p, k + 1, VisitFrom(g, g[p][k], s))
  }

  function VisitFrom(g: Graph, p: nat, s: Search): (after: Search)
    requires ValidGraph(g) && p < |g| && p !in s.visited && s.visited <= Below(|g|)
    ensures s.visited + {p} <= after.visited <= Below(|g|)
    decreases Below(|g|) - s.visited, 0
  {
    assert p in Below(|g|);
    var inner := Follow(g, p, 0, Search(s.visited + {p}, s.ordered));
    Search(inner.visited, inner.ordered + [p])
  }

  // Searches from every root that is left, in increasing order.
  function VisitRoots(g: Graph, root: nat, s: Search): (after: Search)
    requires ValidGraph(g) && root <= |g| && s.visited <= Below(|g|)
    decreases |g| - root
  {
    if root == |g| then s
    else VisitRoots(g, root + 1, if root in s.visited then s else VisitFrom(g, root, s))
  }

  function Postorder(g: Graph): seq<nat>
    requires ValidGraph(g)
  {
    VisitRoots(g, 0, Search({}, [])).ordered
  }

  // How a search ends from a work stack: each position on it follows the rest of its dependencies
  // and is emitted.
  function Unwind(g: Graph, stack: seq<Visit>, s: Search): (after: Search)
    requires ValidGraph(g) && StackInside(g, stack) && s.visited <= Below(|g|)
  {
    if stack == [] then s
    else
      var n := |stack| - 1;
      var inner := Follow(g, stack[n].position, stack[n].next, s);
      Unwind(g, stack[..n], Search(inner.visited, inner.ordered + [stack[n].position]))
  }

  predicate StackInside(g: Graph, stack: seq<Visit>) {
    forall i :: 0 <= i < |stack| ==> stack[i].position < |g| && stack[i].next <= |g[stack[i].position]|
  }

  function Marked(visited: seq<bool>): set<nat> {
    set p: nat | p < |visited| && visited[p]
  }

  function SearchOf(visited: seq<bool>, ordered: seq<nat>): Search {
    Search(Marked(visited), ordered)
  }

  lemma MarkOne(visited: seq<bool>, d: nat)
    requires d < |visited|
    ensures Marked(visited[d := true]) == Marked(visited) + {d} && Marked(visited) <= Below(|visited|)
    ensures d in Marked(visited) <==> visited[d]
  {
  }

  lemma UnwindEmit(g: Graph, stack: seq<Visit>, s: Search)
    requires ValidGraph(g) && StackInside(g, stack) && s.visited <= Below(|g|)
    requires stack != [] && stack[|stack| - 1].next == |g[stack[|stack| - 1].position]|
    ensures Unwind(g, stack, s) == Unwind(g, stack[..|stack| - 1], Search(s.visited, s.ordered + [stack[|stack| - 1].position]))
  {
  }

  lemma UnwindAdvance(g: Graph, stack: seq<Visit>, s: Search)
    requires ValidGraph(g) && StackInside(g, stack) && s.visited <= Below(|g|)
    requires stack != [] && var top := stack[|stack| - 1]; top.next < |g[top.position]| && g[top.position][top.next] in s.visited
    ensures var n := |stack| - 1;
            var advanced := stack[n := Visit(stack[n].position, stack[n].next + 1)];
            StackInside(g, advanced) && Unwind(g, advanced, s) == Unwind(g, stack, s)
  {
    var n := |stack| - 1;
    assert stack[n := Visit(stack[n].position, stack[n].next + 1)][..n] == stack[..n];
  }

  lemma UnwindPush(g: Graph, stack: seq<Visit>, s: Search)
    requires ValidGraph(g) && StackInside(g, stack) && s.visited <= Below(|g|)
    requires stack != [] && var top := stack[|stack| - 1]; top.next < |g[top.position]| && g[top.position][top.next] !in s.visited
    ensures var n := |stack| - 1;
            var d := g[stack[n].position][stack[n].next];
            var pushed := stack[n := Visit(stack[n].position, stack[n].next + 1)] + [Visit(d, 0)];
            && StackInside(g, pushed) && s.visited + {d} <= Below(|g|)
            && Unwind(g, pushed, Search(s.visited + {d}, s.ordered)) == Unwind(g, stack, s)
  {
    var n := |stack| - 1;
    var d := g[stack[n].position][stack[n].next];
    var advanced := stack[n := Visit(stack[n].position, stack[n].next + 1)];
    var pushed := advanced + [Visit(d, 0)];
    assert pushed[..|stack|] == advanced && advanced[..n] == stack[..n];
    hide Follow, Unwind;
    assert d in Below(|g|);
    UnwindTop(g, pushed, Search(s.visited + {d}, s.ordered));
    UnwindTop(g, advanced, VisitFrom(g, d, s));
    UnwindTop(g, stack, s);
    FollowUnvisited(g, stack[n].position, stack[n].next, s);
  }

  lemma UnwindTop(g: Graph, stack: seq<Visit>, s: Search)
    requires ValidGraph(g) && StackInside(g, stack) && s.visited <= Below(|g|) && stack != []
    ensures var n := |stack| - 1;
            var inner := Follow(g, stack[n].position, stack[n].next, s);
            Unwind(g, stack, s) == Unwind(g, stack[..n], Search(inner.visited, inner.ordered + [stack[n].position]))
  {
    hide Follow;
  }

  lemma FollowUnvisited(g: Graph, p: nat, k: nat, s: Search)
    requires ValidGraph(g) && p < |g| && k < |g[p]| && s.visited <= Below(|g|) && g[p][k] !in s.visited
    ensures Follow(g, p, k, s) == Follow(g, p, k + 1, VisitFrom(g, g[p][k], s))
  {
    hide VisitFrom;
  }

  lemma UnwindRoot(g: Graph, root: nat, s: Search)
    requires ValidGraph(g) && root < |g| && s.visited <= Below(|g|) && root !in s.visited
    ensures s.visited + {root} <= Below(|g|)
    ensures Unwind(g, [Visit(root, 0)], Search(s.visited + {root}, s.ordered)) == VisitFrom(g, root, s)
  {
    hide Follow;
    assert root in Below(|g|);
    assert [Visit(root, 0)][..0] == [];
  }

  // Every position on the stack leads to those above it.
  lemma {:induction false} StackReaches(g: Graph, stack: seq<Visit>, i: nat, j: nat)
    requires ValidGraph(g) && StackWellFormed(g, stack) && i <= j < |stack|
    ensures Reaches(g, stack[i].position, stack[j].position)
    decreases j - i
  {
    if i == j {
      ReachesSelf(g, stack[i].position);
    } else {
      StackReaches(g, stack, i, j - 1);
      EdgeReaches(g, stack[j - 1].position, stack[j].position);
      ReachesTransitive(g, stack[i].position, stack[j - 1].position, stack[j].position);
    }
  }

  // Visited positions are distinct, so they number at most the positions of the graph.
  lemma VisitedBound(g: Graph, visited: seq<bool>, ordered: seq<nat>, stack: seq<Visit>)
    requires ValidGraph(g) && SearchState(g, visited, ordered, stack)
    ensures |ordered| + |stack| <= |g| == |visited|
    ensures forall i :: 0 <= i < |stack| ==>
              stack[i].position < |g| && stack[i].next <= |g[stack[i].position]|
  {
    var positions := seq(|stack|, i requires 0 <= i < |stack| => stack[i].position);
    var all := ordered + positions;
    assert NoDuplicates(all) by {
      forall i, j | 0 <= i < j < |all|
        ensures all[i] != all[j]
      {
        if i < |ordered| <= j {
          assert all[j] == stack[j - |ordered|].position;
        }
      }
    }
    DistinctBound(all, |g|);
  }

  // Emitting the exhausted top of the stack keeps the finishing order.
  lemma Emit(g: Graph, visited: seq<bool>, ordered: seq<nat>, stack: seq<Visit>)
    requires ValidGraph(g) && SearchState(g, visited, ordered, stack)
    requires |stack| > 0 && var top := stack[|stack| - 1]; top.next == |g[top.position]|
    ensures var top := stack[|stack| - 1];
            SearchState(g, visited, ordered + [top.position], stack[..|stack| - 1])
  {
    var n := |stack| - 1;
    var p := stack[n].position;
    forall d: nat | Edge(g, p, d)
      ensures d < |visited| && visited[d]
    {
      var k :| 0 <= k < |g[p]| && g[p][k] == d;
      assert visited[g[stack[n].position][k]];
    }
    hide Reaches, Mutual;
    EmitMarks(g, visited, ordered, stack);
    EmitOrder(g, visited, ordered, stack);
    EmitFinishes(g, visited, ordered, stack);
  }

  lemma EmitMarks(g: Graph, visited: seq<bool>, ordered: seq<nat>, stack: seq<Visit>)
    requires stack != [] && StackWellFormed(g, stack) && Marks(g, visited, ordered, stack)
    ensures Marks(g, visited, ordered + [stack[|stack| - 1].position], stack[..|stack| - 1])
  {
    var n := |stack| - 1;
    var p := stack[n].position;
    var stack' := stack[..n];
    assert OnStack(stack, p);
    forall q | 0 <= q < |g|
      ensures OnStack(stack, q) <==> q == p || OnStack(stack', q)
    {
      if OnStack(stack', q) {
        var i :| 0 <= i < |stack'| && stack'[i].position == q;
        assert stack[i].position == q;
      }
    }
    assert !OnStack(stack', p);
  }

  lemma EmitOrder(g: Graph, visited: seq<bool>, ordered: seq<nat>, stack: seq<Visit>)
    requires ValidGraph(g) && stack != [] && StackWellFormed(g, stack) && Marks(g, visited, ordered, stack)
    requires DependenciesFirst(g, ordered)
    requires forall d: nat :: Edge(g, stack[|stack| - 1].position, d) ==> d < |visited| && visited[d]
    ensures DependenciesFirst(g, ordered + [stack[|stack| - 1].position])
  {
    hide Reaches;
    var n := |stack| - 1;
    var ordered' := ordered + [stack[n].position];
    forall i, d | 0 <= i < |ordered'| && Edge(g, ordered'[i], d)
      ensures d in ordered'[..i] || Reaches(g, d, ordered'[i])
    {
      if i < |ordered| {
        assert ordered'[i] == ordered[i] && ordered'[..i] == ordered[..i];
      } else {
        assert ordered'[..i] == ordered;
        if d !in ordered {
          var k :| 0 <= k < |stack| && stack[k].position == d;
          StackReaches(g, stack, k, n);
        }
      }
    }
  }

  lemma EmitFinishes(g: Graph, visited: seq<bool>, ordered: seq<nat>, stack: seq<Visit>)
    requires ValidGraph(g) && stack != [] && SearchState(g, visited, ordered, stack)
    requires forall d: nat :: Edge(g, stack[|stack| - 1].position, d) ==> d < |visited| && visited[d]
    ensures FinishOrder(g, ordered + [stack[|stack| - 1].position])
  {
    assert FinishOrder(g, ordered);
    hide SearchState, Reaches, Mutual, Edge;
    var p := stack[|stack| - 1].position;
    var ordered' := ordered + [p];
    forall i | 0 <= i < |ordered'|
      ensures FinishedAt(g, ordered', i)
    {
      if i < |ordered| {
        assert ordered'[..i + 1] == ordered[..i + 1] && ordered'[i] == ordered[i];
        assert FinishedAt(g, ordered, i);
      } else {
        assert ordered'[..i + 1] == ordered';
        forall y: nat | Reaches(g, p, y) && y !in ordered'
          ensures exists m: nat :: m !in ordered' && Mutual(g, p, m)
        {
          var m := LeaveFinished(g, visited, ordered, stack, y);
          assert m !in ordered' && Mutual(g, p, m);
        }
      }
    }
  }

  // A path from the finishing position to one not yet emitted passes through the stack below it.
  lemma LeaveFinished(g: Graph, visited: seq<bool>, ordered: seq<nat>, stack: seq<Visit>, y: nat)
    returns (m: nat)
    requires ValidGraph(g) && SearchState(g, visited, ordered, stack)
    requires |stack| > 0
    requires forall d: nat :: Edge(g, stack[|stack| - 1].position, d) ==> d < |visited| && visited[d]
    requires Reaches(g, stack[|stack| - 1].position, y)
    requires y !in ordered + [stack[|stack| - 1].position]
    ensures m !in ordered + [stack[|stack| - 1].position]
    ensures Mutual(g, stack[|stack| - 1].position, m)
  {
    var n := |stack| - 1;
    var p := stack[n].position;
    var ordered' := ordered + [p];
    var inside := set x | x in ordered';
    assert p in ordered';
    var u, w := ReachLeaves(g, p, y, inside);
    assert visited[w];
    assert w !in ordered';
    var k :| 0 <= k < |stack| && stack[k].position == w;
    StackReaches(g, stack, k, n);
    EdgeReaches(g, u, w);
    ReachesTransitive(g, p, u, w);
    m := w;
  }

  // Following a visited dependency only advances the top of the stack.
  lemma Advance(g: Graph, visited: seq<bool>, ordered: seq<nat>, stack: seq<Visit>)
    requires ValidGraph(g) && SearchState(g, visited, ordered, stack)
    requires |stack| > 0
    requires var top := stack[|stack| - 1];
             top.next < |g[top.position]| && visited[g[top.position][top.next]]
    ensures var n := |stack| - 1;
            SearchState(g, visited, ordered, stack[n := Visit(stack[n].position, stack[n].next + 1)])
  {
    hide DependenciesFirst, FinishOrder;
    var n := |stack| - 1;
    var advanced := stack[n := Visit(stack[n].position, stack[n].next + 1)];
    forall q: nat
      ensures OnStack(stack, q) <==> OnStack(advanced, q)
    {
      if i :| 0 <= i < |stack| && stack[i].position == q {
        assert advanced[i].position == q;
      }
    }
  }

  // Following an unvisited dependency marks it and pushes it.
  lemma Push(g: Graph, visited: seq<bool>, ordered: seq<nat>, stack: seq<Visit>)
    requires ValidGraph(g) && SearchState(g, visited, ordered, stack)
    requires |stack| > 0
    requires var top := stack[|stack| - 1];
             top.next < |g[top.position]| && !visited[g[top.position][top.next]]
    ensures var n := |stack| - 1;
            var d := g[stack[n].position][stack[n].next];
            var pushed := stack[n := Visit(stack[n].position, stack[n].next + 1)] + [Visit(d, 0)];
            SearchState(g, visited[d := true], ordered, pushed)
  {
    hide DependenciesFirst, FinishOrder;
    var n := |stack| - 1;
    var d := g[stack[n].position][stack[n].next];
    var pushed := stack[n := Visit(stack[n].position, stack[n].next + 1)] + [Visit(d, 0)];
    PushedPositions(stack, pushed, d);
    assert !OnStack(stack, d);
    assert StackWellFormed(g, pushed);
    assert Marks(g, visited[d := true], ordered, pushed);
    assert Explored(g, visited[d := true], ordered, pushed);
  }

  lemma PushedPositions(stack: seq<Visit>, pushed: seq<Visit>, d: nat)
    requires |pushed| == |stack| + 1 && pushed[|stack|].position == d
    requires forall i :: 0 <= i < |stack| ==> pushed[i].position == stack[i].position
    ensures forall q :: OnStack(pushed, q) <==> OnStack(stack, q) || q == d
  {
    forall q
      ensures OnStack(pushed, q) <==> OnStack(stack, q) || q == d
    {
      if i :| 0 <= i < |stack| && stack[i].position == q {
        assert pushed[i].position == q;
      }
    }
  }

  lemma InitialSearch(g: Graph, visited: seq<bool>)
    requires ValidGraph(g) && |visited| == |g| && forall p :: 0 <= p < |g| ==> !visited[p]
    ensures SearchState(g, visited, [], [])
  {
  }

  // Starting a search at an unvisited root.
  lemma StartRoot(g: Graph, visited: seq<bool>, ordered: seq<nat>, root: nat)
    requires ValidGraph(g) && SearchState(g, visited, ordered, [])
    requires root < |visited| && !visited[root]
    ensures SearchState(g, visited[root := true], ordered, [Visit(root, 0)])
  {
    hide DependenciesFirst, FinishOrder;
    PushedPositions([], [Visit(root, 0)], root);
  }

  // Visits every initializer in depth-first postorder, following dependencies in the order they
  // are listed and roots in increasing order.
  method InitializerPostorder(g: Graph) returns (ordered: seq<nat>)
    requires ValidGraph(g)
    ensures ordered == Postorder(g)
    ensures IsOrdering(ordered, |g|)
    ensures DependenciesFirst(g, ordered)
    ensures FinishOrder(g, ordered)
  {
    hide SearchState, IsOrdering, DependenciesFirst, FinishOrder, Follow, Unwind, VisitFrom, Marked, Below;
    var visited := new bool[|g|](_ => false);
    ordered := [];
    var workStack: seq<Visit> := [];
    InitialSearch(g, visited[..]);
    NothingMarked(visited[..]);
    for root := 0 to |g|
      invariant workStack == [] && SearchState(g, visited[..], ordered, workStack)
      invariant forall p :: 0 <= p < root ==> visited[p]
      invariant Marked(visited[..]) <= Below(|g|) && VisitRoots(g, root, SearchOf(visited[..], ordered)).ordered == Postorder(g)
    {
      MarkOne(visited[..], root);
      if visited[root] {
        continue;
      }
      StartRoot(g, visited[..], ordered, root);
      ghost var unmarked := visited[..];
      ghost var target := VisitFrom(g, root, SearchOf(unmarked, ordered));
      UnwindRoot(g, root, SearchOf(unmarked, ordered));
      visited[root] := true;
      assert visited[..] == unmarked[root := true];
      workStack := [Visit(root, 0)];
      while workStack != []
        invariant SearchState(g, visited[..], ordered, workStack)
        invariant forall p :: 0 <= p <= root ==> visited[p]
        invariant StackInside(g, workStack) && Marked(visited[..]) <= Below(|g|)
        invariant Unwind(g, workStack, SearchOf(visited[..], ordered)) == target
        decreases |g| - |ordered| - |workStack|, |workStack|, Remaining(g, workStack)
      {
        VisitedBound(g, visited[..], ordered, workStack);
        var last := |workStack| - 1;
        var top := workStack[last];
        if top.next == |g[top.position]| {
          Emit(g, visited[..], ordered, workStack);
          UnwindEmit(g, workStack, SearchOf(visited[..], ordered));
          ordered := ordered + [top.position];
          workStack := workStack[..last];
        } else {
          var dependency := g[top.position][top.next];
          ghost var before, stackBefore := visited[..], workStack;
          MarkOne(before, dependency);
          workStack := workStack[last := Visit(top.position, top.next + 1)];
          if !visited[dependency] {
            Push(g, before, ordered, stackBefore);
            UnwindPush(g, stackBefore, SearchOf(before, ordered));
            visited[dependency] := true;
            assert visited[..] == before[dependency := true];
            workStack := workStack + [Visit(dependency, 0)];
          } else {
            Advance(g, before, ordered, stackBefore);
            UnwindAdvance(g, stackBefore, SearchOf(before, ordered));
          }
        }
      }
      UnwindDone(g, SearchOf(visited[..], ordered));
    }
    AllEmitted(g, visited[..], ordered);
  }

  lemma NothingMarked(visited: seq<bool>)
    requires forall p :: 0 <= p < |visited| ==> !visited[p]
    ensures Marked(visited) == {}
  {
  }

  lemma UnwindDone(g: Graph, s: Search)
    requires ValidGraph(g) && s.visited <= Below(|g|)
    ensures Unwind(g, [], s) == s
  {
  }

  // Dependencies of the top of the stack that are still to be followed.
  ghost function Remaining(g: Graph, stack: seq<Visit>): int {
    if stack == [] then 0
    else
      var top := stack[|stack| - 1];
      if top.position < |g| then |g[top.position]| - top.next else 0
  }

  lemma AllEmitted(g: Graph, visited: seq<bool>, ordered: seq<nat>)
    requires ValidGraph(g) && SearchState(g, visited, ordered, [])
    requires forall p :: 0 <= p < |g| ==> p < |visited| && visited[p]
    ensures IsOrdering(ordered, |g|) && DependenciesFirst(g, ordered) && FinishOrder(g, ordered)
  {
    DistinctBound(ordered, |g|);
    ElementCount(ordered);
    assert Below(|g|) <= set x | x in ordered;
    SubsetCount(Below(|g|), set x | x in ordered);
  }

  // A position follows all its dependencies unless it leads back to itself.
  lemma AcyclicFollows(g: Graph, ordered: seq<nat>, i: nat, d: nat)
    requires DependenciesFirst(g, ordered) && i < |ordered| && Edge(g, ordered[i], d)
    ensures d in ordered[..i] || ReachesByEdge(g, ordered[i], ordered[i])
  {
    if Reaches(g, d, ordered[i]) {
      assert Edge(g, ordered[i], d) && Reaches(g, d, ordered[i]);
    }
  }

  // ---------------------------------------------------------------- components

  predicate InComponent(components: seq<seq<nat>>, c: int, p: nat) {
    0 <= c < |components| && p in components[c]
  }

  ghost predicate Placed(components: seq<seq<nat>>, p: nat) {
    exists c :: InComponent(components, c, p)
  }

  ghost predicate Covers(components: seq<seq<nat>>, n: nat) {
    forall p: nat :: p < n ==> Placed(components, p)
  }

  // Components are disjoint and not empty, list a position once, and hold exactly the positions
  // that are mutually reachable with any of their members.
  ghost predicate StronglyConnected(g: Graph, components: seq<seq<nat>>) {
    && (forall c :: 0 <= c < |components| ==> components[c] != [] && NoDuplicates(components[c]))
    && (forall c, d, p: nat :: InComponent(components, c, p) && InComponent(components, d, p) ==> c == d)
    && (forall c, p: nat, q: nat :: InComponent(components, c, p) ==>
          p < |g| && (InComponent(components, c, q) <==> Mutual(g, p, q)))
  }

  // No edge leads to a later component.
  ghost predicate DependencyOrder(g: Graph, components: seq<seq<nat>>) {
    forall c, d, p: nat, q: nat ::
      InComponent(components, c, p) && InComponent(components, d, q) && Edge(g, p, q) ==> d <= c
  }

  // The reverse of DependencyOrder, in the order in which components are found.
  ghost predicate FoundOrder(g: Graph, found: seq<seq<nat>>) {
    forall c, d, p: nat, q: nat ::
      InComponent(found, c, p) && InComponent(found, d, q) && Edge(g, p, q) ==> c <= d
  }

  ghost predicate Transposed(g: Graph, dependents: seq<seq<nat>>) {
    && |dependents| == |g|
    && (forall d: nat, p: nat :: d < |g| ==> (p in dependents[d] <==> Edge(g, p, d)))
  }

  // Everything that leads to an assigned position is assigned.
  ghost predicate ClosedBackward(g: Graph, taken: seq<bool>)
    requires |taken| == |g| && ValidGraph(g)
  {
    forall p: nat, d: nat :: Edge(g, p, d) && taken[d] ==> taken[p]
  }

  lemma ClosedReaches(g: Graph, taken: seq<bool>, p: nat, q: nat)
    requires ValidGraph(g) && |taken| == |g| && ClosedBackward(g, taken)
    requires Reaches(g, p, q) && q < |g| && taken[q]
    ensures p < |g| && taken[p]
  {
    var path :| PathBetween(g, path, p, q);
    assert path[0] == p;
    if !taken[p] {
      var u, w := ReachLeaves(g, p, q, set x | x in Below(|g|) && !taken[x]);
    }
  }

  // The last emitted position of a component comes after everything the component leads to.
  lemma {:induction false} LastOfComponent(g: Graph, ordered: seq<nat>, i: nat, y: nat) returns (j: nat)
    requires ValidGraph(g) && IsOrdering(ordered, |g|) && FinishOrder(g, ordered)
    requires i < |ordered| && Reaches(g, ordered[i], y)
    ensures i <= j < |ordered| && Mutual(g, ordered[i], ordered[j]) && y in ordered[..j + 1]
    decreases |ordered| - i
  {
    if y in ordered[..i + 1] {
      j := i;
      ReachesSelf(g, ordered[i]);
    } else {
      assert FinishedAt(g, ordered, i);
      var m: nat :| m !in ordered[..i + 1] && Mutual(g, ordered[i], m);
      var path :| PathBetween(g, path, ordered[i], m);
      assert m < |g|;
      DistinctBound(ordered, |g|);
      assert m in ordered;
      var k :| 0 <= k < |ordered| && ordered[k] == m;
      assert forall t :: 0 <= t <= i ==> ordered[t] == ordered[..i + 1][t];
      ReachesTransitive(g, m, ordered[i], y);
      j := LastOfComponent(g, ordered, k, y);
      MutualTransitive(g, ordered[i], m, ordered[j]);
    }
  }

  // ---------------------------------------------------------------- the second search

  // The state of one search over the transposed graph from `root`: `before` marks the positions
  // of earlier components, `component` and `stack` hold what this search has found.
  ghost predicate Collecting(g: Graph, before: seq<bool>, taken: seq<bool>, root: nat,
                             component: seq<nat>, stack: seq<nat>)
  {
    && |before| == |taken| == |g|
    && NoDuplicates(component + stack)
    && (forall i :: 0 <= i < |component + stack| ==>
          var p := (component + stack)[i]; p < |g| && !before[p] && Reaches(g, p, root))
    && (forall p: nat :: p < |g| ==> (taken[p] <==> before[p] || p in component + stack))
  }

  ghost predicate Expanded(g: Graph, taken: seq<bool>, component: seq<nat>)
    requires |taken| == |g|
  {
    forall p: nat, q: nat :: p in component && Edge(g, q, p) ==> taken[q]
  }

  lemma StartCollecting(g: Graph, before: seq<bool>, root: nat)
    requires |before| == |g| && root < |g| && !before[root]
    ensures Collecting(g, before, before[root := true], root, [], [root])
    ensures Expanded(g, before[root := true], [])
  {
    ReachesSelf(g, root);
    assert [] + [root] == [root];
  }

  lemma PopPosition(g: Graph, before: seq<bool>, taken: seq<bool>, root: nat, component: seq<nat>, stack: seq<nat>)
    requires Collecting(g, before, taken, root, component, stack) && stack != []
    ensures var n := |stack| - 1;
            stack[n] < |g| && Collecting(g, before, taken, root, component + [stack[n]], stack[..n])
    ensures |component| < |g|
  {
    hide Reaches;
    var n := |stack| - 1;
    var all, all' := component + stack, component + [stack[n]] + stack[..n];
    Rotated(component, stack);
    assert all[|component| + n] == stack[n];
    DistinctBound(all, |g|);
  }

  // Moving the top of a stack in front of it only rearranges the elements.
  lemma Rotated(component: seq<nat>, stack: seq<nat>)
    requires stack != []
    ensures var n := |stack| - 1;
            var all, all' := component + stack, component + [stack[n]] + stack[..n];
            && (forall i :: 0 <= i < |all'| ==>
                  all'[i] == all[if i < |component| then i else if i == |component| then |component| + n else i - 1])
            && (forall p :: p in all' <==> p in all)
  {
    var n := |stack| - 1;
    var all, all' := component + stack, component + [stack[n]] + stack[..n];
    forall p | p in all
      ensures p in all'
    {
      var i :| 0 <= i < |all| && all[i] == p;
      assert all'[if i < |component| then i else if i == |component| + n then |component| else i + 1] == p;
    }
  }

  lemma PushDependent(g: Graph, before: seq<bool>, taken: seq<bool>, root: nat,
                      component: seq<nat>, stack: seq<nat>, p: nat, q: nat)
    requires ValidGraph(g) && Collecting(g, before, taken, root, component, stack)
    requires p in component && Edge(g, q, p) && !taken[q]
    ensures Collecting(g, before, taken[q := true], root, component, stack + [q])
  {
    assert Reaches(g, p, root) by {
      var k :| 0 <= k < |component| && component[k] == p;
      assert (component + stack)[k] == p;
    }
    EdgeReaches(g, q, p);
    ReachesTransitive(g, q, p, root);
    assert component + (stack + [q]) == (component + stack) + [q];
  }

  // A finished search has collected exactly the component of its root.
  lemma CollectedComponent(g: Graph, before: seq<bool>, taken: seq<bool>, root: nat, component: seq<nat>,
                           ordered: seq<nat>, index: nat)
    requires ValidGraph(g) && Collecting(g, before, taken, root, component, []) && Expanded(g, taken, component)
    requires ClosedBackward(g, before) && IsOrdering(ordered, |g|) && FinishOrder(g, ordered)
    requires index < |ordered| && ordered[index] == root && !before[root] && taken[root]
    requires forall k :: index < k < |ordered| ==> before[ordered[k]]
    ensures ClosedBackward(g, taken)
    ensures forall q: nat :: q in component <==> Mutual(g, root, q)
  {
    assert component + [] == component;
    forall q: nat | q in component
      ensures Mutual(g, root, q)
    {
      CollectedIsMutual(g, before, component, root, ordered, index, q);
    }
    forall q: nat | Mutual(g, root, q)
      ensures q in component
    {
      ClosedReaches(g, taken, q, root);
      if before[q] {
        ClosedReaches(g, before, root, q);
      }
    }
  }

  lemma CollectedIsMutual(g: Graph, before: seq<bool>, component: seq<nat>, root: nat,
                          ordered: seq<nat>, index: nat, q: nat)
    requires ValidGraph(g) && |before| == |g| && ClosedBackward(g, before)
    requires IsOrdering(ordered, |g|) && FinishOrder(g, ordered)
    requires index < |ordered| && ordered[index] == root
    requires forall k :: index < k < |ordered| ==> before[ordered[k]]
    requires q < |g| && !before[q] && Reaches(g, q, root)
    ensures Mutual(g, root, q)
  {
    DistinctBound(ordered, |g|);
    assert q in ordered;
    var i :| 0 <= i < |ordered| && ordered[i] == q;
    var j := LastOfComponent(g, ordered, i, root);
    if j > index {
      ClosedReaches(g, before, q, ordered[j]);
    }
    assert j >= index by {
      var k :| 0 <= k < j + 1 && ordered[..j + 1][k] == root;
      assert k == index;
    }
  }

  // ---------------------------------------------------------------- assembling components

  ghost predicate FoundSoFar(g: Graph, found: seq<seq<nat>>, taken: seq<bool>)
    requires ValidGraph(g)
  {
    && |taken| == |g|
    && (forall p: nat :: p < |g| ==> (taken[p] <==> Placed(found, p)))
    && StronglyConnected(g, found)
    && FoundOrder(g, found)
    && ClosedBackward(g, taken)
  }

  lemma AppendComponent(g: Graph, found: seq<seq<nat>>, before: seq<bool>, taken: seq<bool>,
                        component: seq<nat>, root: nat)
    requires ValidGraph(g) && FoundSoFar(g, found, before) && |taken| == |g| && ClosedBackward(g, taken)
    requires root < |g| && root in component && NoDuplicates(component)
    requires forall q: nat :: q in component <==> Mutual(g, root, q)
    requires forall p: nat :: p in component ==> p < |g| && !before[p]
    requires forall p: nat :: p < |g| ==> (taken[p] <==> before[p] || p in component)
    ensures FoundSoFar(g, found + [component], taken)
  {
    hide Reaches;
    var found' := found + [component];
    forall c: int, p: nat
      ensures InComponent(found', c, p) <==> InComponent(found, c, p) || (c == |found| && p in component)
    {
    }
    forall p: nat | p < |g|
      ensures taken[p] <==> Placed(found', p)
    {
      if p in component {
        assert InComponent(found', |found|, p);
      } else if before[p] {
        var c :| InComponent(found, c, p);
        assert InComponent(found', c, p);
      }
    }
    forall p: nat, q: nat | p in component
      ensures q in component <==> Mutual(g, p, q)
    {
      if q in component {
        MutualTransitive(g, p, root, q);
      } else if Mutual(g, p, q) {
        MutualTransitive(g, root, p, q);
      }
    }
    forall c, d, p: nat | InComponent(found', c, p) && InComponent(found', d, p)
      ensures c == d
    {
      if InComponent(found, c, p) || InComponent(found, d, p) {
        assert Placed(found, p);
      }
    }
    assert StronglyConnected(g, found');
    forall c, d, p: nat, q: nat | InComponent(found', c, p) && InComponent(found', d, q) && Edge(g, p, q)
      ensures c <= d
    {
      if d < |found| {
        assert InComponent(found, d, q) && before[q] && before[p];
        assert c != |found|;
      }
    }
  }

  // The transposed graph: `dependents[d]` lists each position that depends on `d`.
  method Transpose(g: Graph) returns (dependents: seq<seq<nat>>)
    requires ValidGraph(g)
    ensures Transposed(g, dependents)
  {
    var table := new seq<nat>[|g|](_ => []);
    for position := 0 to |g|
      invariant forall d: nat, p: nat {:trigger p in table[d]} :: d < |g| ==>
        (p in table[d] <==> p < position && d in g[p])
    {
      for k := 0 to |g[position]|
        invariant forall d: nat, p: nat {:trigger p in table[d]} :: d < |g| ==>
          (p in table[d] <==> (p < position && d in g[p]) || (p == position && d in g[p][..k]))
      {
        var dependency := g[position][k];
        table[dependency] := table[dependency] + [position];
      }
    }
    dependents := table[..];
    forall d: nat, p: nat | d < |g|
      ensures p in dependents[d] <==> Edge(g, p, d)
    {
      assert dependents[d] == table[d];
    }
  }

  // One search over the transposed graph, from the last emitted position not yet assigned.
  method Collect(g: Graph, dependents: seq<seq<nat>>, taken: array<bool>, root: nat,
                 ghost ordered: seq<nat>, ghost index: nat)
    returns (component: seq<nat>)
    requires ValidGraph(g) && Transposed(g, dependents)
    requires taken.Length == |g| && ClosedBackward(g, taken[..])
    requires IsOrdering(ordered, |g|) && FinishOrder(g, ordered)
    requires index < |ordered| && ordered[index] == root && !taken[root]
    requires forall k :: index < k < |ordered| ==> taken[ordered[k]]
    modifies taken
    ensures NoDuplicates(component)
    ensures forall q: nat :: q in component <==> Mutual(g, root, q)
    ensures forall p: nat :: p in component ==> p < |g| && !old(taken[..])[p]
    ensures forall p: nat :: p < |g| ==> (taken[p] <==> old(taken[..])[p] || p in component)
    ensures ClosedBackward(g, taken[..])
  {
    ghost var before := taken[..];
    component := [];
    var workStack := [root];
    taken[root] := true;
    StartCollecting(g, before, root);
    assert taken[..] == before[root := true];
    while workStack != []
      invariant Collecting(g, before, taken[..], root, component, workStack)
      invariant Expanded(g, taken[..], component) && taken[root]
      decreases |g| - |component|
    {
      PopPosition(g, before, taken[..], root, component, workStack);
      var position := workStack[|workStack| - 1];
      workStack := workStack[..|workStack| - 1];
      ghost var expanded := component;
      component := component + [position];
      for k := 0 to |dependents[position]|
        invariant Collecting(g, before, taken[..], root, component, workStack)
        invariant Expanded(g, taken[..], expanded) && taken[root]
        invariant forall i :: 0 <= i < k ==> Edge(g, dependents[position][i], position) && taken[dependents[position][i]]
      {
        var dependent := dependents[position][k];
        assert dependent in dependents[position];
        if !taken[dependent] {
          PushDependent(g, before, taken[..], root, component, workStack, position, dependent);
          ghost var unmarked := taken[..];
          taken[dependent] := true;
          assert taken[..] == unmarked[dependent := true];
          workStack := workStack + [dependent];
        }
      }
      ExpandPosition(g, dependents, taken[..], expanded, position);
    }
    assert component + [] == component;
    CollectedComponent(g, before, taken[..], root, component, ordered, index);
  }

  lemma ExpandPosition(g: Graph, dependents: seq<seq<nat>>, taken: seq<bool>, expanded: seq<nat>, position: nat)
    requires Transposed(g, dependents) && |taken| == |g| && Expanded(g, taken, expanded) && position < |g|
    requires forall i :: 0 <= i < |dependents[position]| ==>
               dependents[position][i] < |g| && taken[dependents[position][i]]
    ensures Expanded(g, taken, expanded + [position])
  {
    forall q: nat | Edge(g, q, position)
      ensures taken[q]
    {
      assert q in dependents[position];
    }
  }

  function Reversed<T>(s: seq<T>): (r: seq<T>)
    ensures |r| == |s| && forall i :: 0 <= i < |s| ==> r[i] == s[|s| - 1 - i]
  {
    if s == [] then [] else Reversed(s[1..]) + [s[0]]
  }

  lemma ReversedComponents(g: Graph, found: seq<seq<nat>>)
    requires StronglyConnected(g, found) && FoundOrder(g, found) && Covers(found, |g|)
    ensures Covers(Reversed(found), |g|)
    ensures StronglyConnected(g, Reversed(found))
    ensures DependencyOrder(g, Reversed(found))
  {
    hide Mutual, Edge;
    var components := Reversed(found);
    var last := |found| - 1;
    forall c, p: nat
      ensures InComponent(components, c, p) <==> InComponent(found, last - c, p)
    {
    }
    forall p: nat | p < |g|
      ensures Placed(components, p)
    {
      assert Placed(found, p);
      var c :| InComponent(found, c, p);
      assert InComponent(components, last - c, p);
    }
    forall c, d, p: nat, q: nat |
      InComponent(components, c, p) && InComponent(components, d, q) && Edge(g, p, q)
      ensures d <= c
    {
      assert InComponent(found, last - c, p) && InComponent(found, last - d, q);
    }
  }

  // Groups mutually dependent initializers, with dependencies before dependents.
  method InitializerComponents(g: Graph) returns (components: seq<seq<nat>>)
    requires ValidGraph(g)
    ensures Covers(components, |g|)
    ensures StronglyConnected(g, components)
    ensures DependencyOrder(g, components)
  {
    var dependents := Transpose(g);
    var ordered := InitializerPostorder(g);
    var found: seq<seq<nat>> := [];
    var taken := new bool[|g|](_ => false);
    for index := |ordered| downto 0
      invariant FoundSoFar(g, found, taken[..])
      invariant forall k :: index <= k < |ordered| ==> taken[ordered[k]]
    {
      var root := ordered[index];
      if taken[root] {
        continue;
      }
      ghost var before := taken[..];
      var component := Collect(g, dependents, taken, root, ordered, index);
      ReachesSelf(g, root);
      AppendComponent(g, found, before, taken[..], component, root);
      found := found + [component];
    }
    forall p: nat | p < |g|
      ensures Placed(found, p)
    {
      DistinctBound(ordered, |g|);
      assert p in ordered;
    }
    components := Reversed(found);
    ReversedComponents(g, found);
  }

  // Marks every initializer that participates in a cycle.
  method CyclicInitializers(g: Graph) returns (cyclic: seq<bool>)
    requires ValidGraph(g)
    ensures |cyclic| == |g|
    ensures forall p: nat :: p < |g| ==> (cyclic[p] <==> ReachesByEdge(g, p, p))
  {
    var components := InitializerComponents(g);
    var marked := new bool[|g|](_ => false);
    for c := 0 to |components|
      invariant forall p: nat :: p < |g| ==>
        (marked[p] <==> exists b :: 0 <= b < c && InComponent(components, b, p) && IsCyclic(g, components[b]))
    {
      var component := components[c];
      if IsCyclic(g, component) {
        for k := 0 to |component|
          invariant forall p: nat :: p < |g| ==>
            (marked[p] <==>
             (exists b :: 0 <= b < c && InComponent(components, b, p) && IsCyclic(g, components[b]))
             || p in component[..k])
        {
          assert InComponent(components, c, component[k]);
          marked[component[k]] := true;
        }
      }
    }
    cyclic := marked[..];
    forall p: nat | p < |g|
      ensures cyclic[p] <==> ReachesByEdge(g, p, p)
    {
      assert Placed(components, p);
      var c :| InComponent(components, c, p);
      CyclicComponent(g, components, c, p);
      assert InComponent(components, c, p);
    }
  }

  predicate IsCyclic(g: Graph, component: seq<nat>) {
    |component| > 1 || (|component| == 1 && Edge(g, component[0], component[0]))
  }

  lemma CyclicComponent(g: Graph, components: seq<seq<nat>>, c: int, p: nat)
    requires ValidGraph(g) && StronglyConnected(g, components) && InComponent(components, c, p)
    ensures IsCyclic(g, components[c]) <==> ReachesByEdge(g, p, p)
  {
    var component := components[c];
    if |component| > 1 {
      var other := if component[0] == p then component[1] else component[0];
      assert InComponent(components, c, other) && Mutual(g, p, other) && p != other;
      var path :| PathBetween(g, path, p, other);
      assert Edge(g, path[0], path[1]);
      assert PathBetween(g, path[1..], path[1], other);
      ReachesTransitive(g, path[1], other, p);
    } else if ReachesByEdge(g, p, p) {
      var d: nat :| Edge(g, p, d) && Reaches(g, d, p);
      EdgeReaches(g, p, d);
      assert InComponent(components, c, d);
    } else if Edge(g, p, p) {
      ReachesSelf(g, p);
      assert false;
    }
  }
}
