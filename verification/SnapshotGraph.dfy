// The wait-for graph between snapshots (compiler-core/building/src/engine/graph.rs) and the
// hand-over of in-progress queries along it (compiler-core/building/src/engine.rs).
module SnapshotGraph {
  import opened Queries
  import opened Wrappers
  import Graphs

  type SnapshotId = nat

  // A snapshot waits for at most one other.
  type WaitFor = map<SnapshotId, SnapshotId>

  // The snapshot that `n` edges lead to, if they exist.
  ghost function Hop(g: WaitFor, from: SnapshotId, n: nat): Option<SnapshotId>
    decreases n
  {
    if n == 0 then Some(from)
    else if from in g then Hop(g, g[from], n - 1)
    else None
  }

  ghost predicate Leads(g: WaitFor, from: SnapshotId, to: SnapshotId) {
    exists n: nat :: Hop(g, from, n) == Some(to)
  }

  ghost predicate LeadsOn(g: WaitFor, from: SnapshotId, to: SnapshotId) {
    exists n: nat :: n > 0 && Hop(g, from, n) == Some(to)
  }

  ghost predicate Acyclic(g: WaitFor) {
    forall x: SnapshotId, n: nat :: n > 0 ==> Hop(g, x, n) != Some(x)
  }

  lemma {:induction false} HopAdd(g: WaitFor, x: SnapshotId, m: nat, n: nat)
    requires Hop(g, x, m).Some?
    ensures Hop(g, x, m + n) == Hop(g, Hop(g, x, m).value, n)
    decreases m
  {
    if m > 0 {
      HopAdd(g, g[x], m - 1, n);
    }
  }

  // Edges only matter where they are followed.
  lemma {:induction false} HopSubset(g: WaitFor, h: WaitFor, x: SnapshotId, n: nat)
    requires forall y :: y in h ==> y in g && g[y] == h[y]
    requires Hop(h, x, n).Some?
    ensures Hop(g, x, n) == Hop(h, x, n)
    decreases n
  {
    if n > 0 {
      HopSubset(g, h, h[x], n - 1);
    }
  }

  lemma SubgraphAcyclic(g: WaitFor, h: WaitFor)
    requires Acyclic(g) && forall y :: y in h ==> y in g && g[y] == h[y]
    ensures Acyclic(h)
  {
    forall x: SnapshotId, n: nat | n > 0 && Hop(h, x, n) == Some(x)
      ensures false
    {
      HopSubset(g, h, x, n);
    }
  }

  // Following the graph with one more edge: until `from` is met, nothing is new.
  lemma {:induction false} HopNewEdge(g: WaitFor, from: SnapshotId, to: SnapshotId, x: SnapshotId, n: nat)
    requires Hop(g[from := to], x, n).Some?
    ensures Hop(g, x, n) == Hop(g[from := to], x, n) || Leads(g, x, from)
    decreases n
  {
    if x == from {
      assert Hop(g, x, 0) == Some(from);
    } else if n > 0 {
      HopNewEdge(g, from, to, g[x], n - 1);
      if Leads(g, g[x], from) {
        var m: nat :| Hop(g, g[x], m) == Some(from);
        assert Hop(g, x, m + 1) == Some(from);
      }
    }
  }

  // An edge whose target does not lead back to its source keeps the graph acyclic.
  lemma AddEdgeAcyclic(g: WaitFor, from: SnapshotId, to: SnapshotId)
    requires Acyclic(g) && !Leads(g, to, from)
    ensures Acyclic(g[from := to])
  {
    var h := g[from := to];
    forall x: SnapshotId, n: nat | n > 0 && Hop(h, x, n) == Some(x)
      ensures false
    {
      HopNewEdge(g, from, to, x, n);
      if Leads(g, x, from) {
        ReturnToSource(g, from, to, x, n);
      } else {
        assert Hop(g, x, n) == Some(x);
      }
    }
  }

  // A cycle that meets the new edge is a path from its target back to its source.
  lemma ReturnToSource(g: WaitFor, from: SnapshotId, to: SnapshotId, x: SnapshotId, n: nat)
    requires n > 0 && Hop(g[from := to], x, n) == Some(x) && Leads(g, x, from)
    ensures Leads(g, to, from)
  {
    var h := g[from := to];
    if x == from {
      assert Hop(h, to, n - 1) == Some(from);
      HopNewEdge(g, from, to, to, n - 1);
    } else {
      // x leads to from without the new edge, and from leads on to x along the cycle.
      var m: nat := FirstMeeting(g, from, to, x);
      HopAdd(h, x, m, n);
      HopAdd(h, x, n, m);
      assert Hop(h, from, n) == Some(from);
      assert Hop(h, to, n - 1) == Some(from);
      HopNewEdge(g, from, to, to, n - 1);
    }
  }

  lemma {:induction false} FirstMeeting(g: WaitFor, from: SnapshotId, to: SnapshotId, x: SnapshotId) returns (m: nat)
    requires Leads(g, x, from)
    ensures Hop(g[from := to], x, m) == Some(from)
  {
    var k: nat :| Hop(g, x, k) == Some(from);
    m := FirstMeetingWithin(g, from, to, x, k);
  }

  lemma {:induction false} FirstMeetingWithin(g: WaitFor, from: SnapshotId, to: SnapshotId, x: SnapshotId, k: nat)
    returns (m: nat)
    requires Hop(g, x, k) == Some(from)
    ensures Hop(g[from := to], x, m) == Some(from)
    decreases k
  {
    if x == from {
      m := 0;
    } else {
      m := FirstMeetingWithin(g, from, to, g[x], k - 1);
      m := m + 1;
    }
  }

  // Every chain of an acyclic graph ends at a snapshot that waits for nothing.
  lemma {:induction false} ChainEnds(g: WaitFor, x: SnapshotId, seen: set<SnapshotId>) returns (n: nat, last: SnapshotId)
    requires Acyclic(g) && seen <= g.Keys
    requires forall y :: y in seen ==> LeadsOn(g, y, x)
    ensures Hop(g, x, n) == Some(last) && last !in g
    decreases |g.Keys - seen|
  {
    if x !in g {
      n, last := 0, x;
    } else {
      assert x !in seen;
      forall y | y in seen + {x}
        ensures LeadsOn(g, y, g[x])
      {
        if y == x {
          assert Hop(g, x, 1) == Some(g[x]);
        } else {
          var n: nat :| n > 0 && Hop(g, y, n) == Some(x);
          HopAdd(g, y, n, 1);
          assert Hop(g, y, n + 1) == Some(g[x]);
        }
      }
      assert g.Keys - (seen + {x}) < g.Keys - seen;
      Graphs.SubsetCount(g.Keys - (seen + {x}), g.Keys - seen);
      n, last := ChainEnds(g, g[x], seen + {x});
      n := n + 1;
    }
  }

  class Graph {
    var inner: WaitFor

    constructor ()
      ensures inner == map[] && Acyclic(inner)
    {
      inner := map[];
    }

    // Adds the edge unless it would close a cycle.
    method AddEdge(from: SnapshotId, to: SnapshotId) returns (added: bool)
      requires Acyclic(inner)
      modifies this
      ensures added <==> !Leads(old(inner), to, from)
      ensures inner == if added then old(inner)[from := to] else old(inner)
      ensures Acyclic(inner)
    {
      var current := to;
      ghost var seen: set<SnapshotId> := {};
      ghost var steps: nat := 0;
      while current in inner
        invariant inner == old(inner) && seen <= inner.Keys
        invariant Hop(inner, to, steps) == Some(current)
        invariant forall n: nat :: n < steps ==> Hop(inner, to, n) != Some(from)
        invariant forall y :: y in seen ==> LeadsOn(inner, y, current)
        decreases |inner.Keys - seen|
      {
        if current == from {
          return false;
        }
        assert current !in seen;
        HopAdd(inner, to, steps, 1);
        forall y | y in seen
          ensures LeadsOn(inner, y, inner[current])
        {
          var n: nat :| n > 0 && Hop(inner, y, n) == Some(current);
          HopAdd(inner, y, n, 1);
          assert Hop(inner, y, n + 1) == Some(inner[current]);
        }
        assert Hop(inner, current, 1) == Some(inner[current]);
        assert inner.Keys - (seen + {current}) < inner.Keys - seen;
        Graphs.SubsetCount(inner.Keys - (seen + {current}), inner.Keys - seen);
        seen := seen + {current};
        current := inner[current];
        steps := steps + 1;
      }
      if current == from {
        return false;
      }
      forall n: nat
        ensures Hop(inner, to, n) != Some(from)
      {
        if n > steps {
          HopAdd(inner, to, steps, n - steps);
        }
      }
      AddEdgeAcyclic(inner, from, to);
      inner := inner[from := to];
      return true;
    }

    method RemoveEdge(from: SnapshotId, to: SnapshotId)
      requires Acyclic(inner)
      modifies this
      ensures inner == if from in old(inner) && old(inner)[from] == to then old(inner) - {from} else old(inner)
      ensures Acyclic(inner)
    {
      if from in inner && inner[from] == to {
        SubgraphAcyclic(inner, inner - {from});
        inner := inner - {from};
      }
    }
  }

  // ---------------------------------------------------------------- in-progress queries

  // A query in progress: the snapshot that computes it, and those that wait for it.
  datatype Slot = Slot(owner: SnapshotId, waiters: seq<SnapshotId>)

  ghost predicate WaitsIn(slots: map<QueryKey, Slot>, w: SnapshotId, k: QueryKey) {
    k in slots && w in slots[k].waiters
  }

  ghost predicate WaitsSomewhere(slots: map<QueryKey, Slot>, w: SnapshotId) {
    exists k :: WaitsIn(slots, w, k)
  }

  // The edges are exactly the pairs of a waiter and the owner it waits for, each snapshot waits
  // for one query at most, and nobody waits in a circle.
  ghost predicate SlotsHold(slots: map<QueryKey, Slot>, g: WaitFor) {
    && (forall k :: k in slots ==> Graphs.NoDuplicates(slots[k].waiters))
    && (forall w, j, k :: WaitsIn(slots, w, j) && WaitsIn(slots, w, k) ==> j == k)
    && (forall w, k :: WaitsIn(slots, w, k) ==> w in g && g[w] == slots[k].owner)
    && (forall w :: w in g ==> WaitsSomewhere(slots, w))
    && Acyclic(g)
  }

  lemma Acquire(slots: map<QueryKey, Slot>, g: WaitFor, k: QueryKey, i: SnapshotId)
    requires SlotsHold(slots, g) && k !in slots
    ensures SlotsHold(slots[k := Slot(i, [])], g)
  {
    hide Acyclic;
    var slots' := slots[k := Slot(i, [])];
    forall w: SnapshotId, j
      ensures WaitsIn(slots', w, j) <==> WaitsIn(slots, w, j)
    {
    }
    forall w | w in g
      ensures WaitsSomewhere(slots', w)
    {
      assert WaitsSomewhere(slots, w);
      var j :| WaitsIn(slots, w, j);
      assert WaitsIn(slots', w, j);
    }
  }

  function Joined(slots: map<QueryKey, Slot>, k: QueryKey, i: SnapshotId): map<QueryKey, Slot>
    requires k in slots
  {
    slots[k := Slot(slots[k].owner, slots[k].waiters + [i])]
  }

  lemma Join(slots: map<QueryKey, Slot>, g: WaitFor, k: QueryKey, i: SnapshotId)
    requires SlotsHold(slots, g) && k in slots && i !in g && !Leads(g, slots[k].owner, i)
    ensures SlotsHold(Joined(slots, k, i), g[i := slots[k].owner])
  {
    AddEdgeAcyclic(g, i, slots[k].owner);
    hide Acyclic, Leads;
    var slots', g' := Joined(slots, k, i), g[i := slots[k].owner];
    forall w: SnapshotId, j
      ensures WaitsIn(slots', w, j) <==> WaitsIn(slots, w, j) || (w == i && j == k)
    {
    }
    forall w | w in g'
      ensures WaitsSomewhere(slots', w)
    {
      if w == i {
        assert WaitsIn(slots', w, k);
      } else {
        assert WaitsSomewhere(slots, w);
        var j :| WaitsIn(slots, w, j);
        assert WaitsIn(slots', w, j);
      }
    }
  }

  // The graph without the edges of some waiters.
  function Released(g: WaitFor, waiters: seq<SnapshotId>): WaitFor {
    map x | x in g && x !in waiters :: g[x]
  }

  lemma Release(slots: map<QueryKey, Slot>, g: WaitFor, k: QueryKey)
    requires SlotsHold(slots, g) && k in slots
    ensures SlotsHold(slots - {k}, Released(g, slots[k].waiters))
  {
    var slots', g' := slots - {k}, Released(g, slots[k].waiters);
    SubgraphAcyclic(g, g');
    hide Acyclic;
    forall w: SnapshotId, j
      ensures WaitsIn(slots', w, j) <==> WaitsIn(slots, w, j) && j != k
    {
    }
    forall w, j | WaitsIn(slots', w, j)
      ensures w in g' && g'[w] == slots'[j].owner
    {
      assert !WaitsIn(slots, w, k);
    }
    forall w | w in g'
      ensures WaitsSomewhere(slots', w)
    {
      assert WaitsSomewhere(slots, w);
      var j :| WaitsIn(slots, w, j);
      assert WaitsIn(slots', w, j);
    }
  }

  // The graph after the owner of the waiters failed: they wait for the heir, which waits for
  // nothing any more.
  function HandedOff(g: WaitFor, heir: SnapshotId, waiters: seq<SnapshotId>): WaitFor {
    map x | x in g && x != heir :: if x in waiters then heir else g[x]
  }

  lemma {:induction false} HandOffAcyclic(g: WaitFor, heir: SnapshotId, waiters: seq<SnapshotId>)
    requires Acyclic(g) && heir !in waiters
    ensures Acyclic(HandedOff(g, heir, waiters))
    decreases |waiters|
  {
    if waiters == [] {
      SubgraphAcyclic(g, HandedOff(g, heir, waiters));
    } else {
      var last := waiters[|waiters| - 1];
      var rest := waiters[..|waiters| - 1];
      HandOffAcyclic(g, heir, rest);
      var h := HandedOff(g, heir, rest);
      assert waiters == rest + [last];
      if last in g {
        HeirLeadsNowhere(h, heir, last);
        AddEdgeAcyclic(h, last, heir);
        assert HandedOff(g, heir, waiters) == h[last := heir];
      } else {
        assert HandedOff(g, heir, waiters) == h;
      }
    }
  }

  // A snapshot without an edge leads only to itself, so an edge to it closes no cycle.
  lemma HeirLeadsNowhere(g: WaitFor, heir: SnapshotId, w: SnapshotId)
    requires heir !in g && heir != w
    ensures !Leads(g, heir, w)
  {
  }

  function Inherited(slots: map<QueryKey, Slot>, k: QueryKey): map<QueryKey, Slot>
    requires k in slots && slots[k].waiters != []
  {
    var n := |slots[k].waiters| - 1;
    slots[k := Slot(slots[k].waiters[n], slots[k].waiters[..n])]
  }

  // Handing an in-progress query to its last waiter keeps everybody's edge right.
  lemma HandOff(slots: map<QueryKey, Slot>, g: WaitFor, k: QueryKey)
    requires SlotsHold(slots, g) && k in slots && slots[k].waiters != []
    ensures var n := |slots[k].waiters| - 1;
            SlotsHold(Inherited(slots, k), HandedOff(g, slots[k].waiters[n], slots[k].waiters[..n]))
  {
    var n := |slots[k].waiters| - 1;
    var heir, rest := slots[k].waiters[n], slots[k].waiters[..n];
    var slots', g' := Inherited(slots, k), HandedOff(g, heir, rest);
    HandOffAcyclic(g, heir, rest);
    hide Acyclic;
    assert slots[k].waiters == rest + [heir];
    forall w: SnapshotId, j
      ensures WaitsIn(slots', w, j) <==> WaitsIn(slots, w, j) && !(w == heir && j == k)
    {
    }
    assert WaitsIn(slots, heir, k);
    forall w, j | WaitsIn(slots', w, j)
      ensures w in g' && g'[w] == slots'[j].owner
    {
      assert WaitsIn(slots, w, j);
      assert w in rest ==> WaitsIn(slots, w, k);
    }
    forall w | w in g'
      ensures WaitsSomewhere(slots', w)
    {
      assert WaitsSomewhere(slots, w);
      var j :| WaitsIn(slots, w, j);
      assert WaitsIn(slots', w, j);
    }
  }

  // Removes the edge of each waiter of a stored query.
  method RemoveWaiterEdges(graph: Graph, to: SnapshotId, waiters: seq<SnapshotId>)
    requires Acyclic(graph.inner)
    requires forall i :: 0 <= i < |waiters| ==> waiters[i] in graph.inner && graph.inner[waiters[i]] == to
    modifies graph
    ensures graph.inner == Released(old(graph.inner), waiters)
  {
    for i := 0 to |waiters|
      invariant Acyclic(graph.inner) && graph.inner == Released(old(graph.inner), waiters[..i])
    {
      graph.RemoveEdge(waiters[i], to);
      assert waiters[..i + 1] == waiters[..i] + [waiters[i]];
    }
    assert waiters[..|waiters|] == waiters;
  }

  // Moves the waiters of a failed owner to its heir. Adding their edges never fails.
  method HandOffWaiterEdges(graph: Graph, from: SnapshotId, heir: SnapshotId, waiters: seq<SnapshotId>)
    requires Acyclic(graph.inner) && heir !in waiters && Graphs.NoDuplicates(waiters)
    requires heir in graph.inner && graph.inner[heir] == from
    requires forall i :: 0 <= i < |waiters| ==> waiters[i] in graph.inner && graph.inner[waiters[i]] == from
    modifies graph
    ensures graph.inner == HandedOff(old(graph.inner), heir, waiters)
  {
    ghost var g := graph.inner;
    graph.RemoveEdge(heir, from);
    for i := 0 to |waiters|
      invariant Acyclic(graph.inner) && graph.inner == HandedOff(g, heir, waiters[..i])
    {
      ghost var before := graph.inner;
      assert waiters[..i + 1] == waiters[..i] + [waiters[i]];
      assert waiters[i] !in waiters[..i];
      graph.RemoveEdge(waiters[i], from);
      HeirLeadsNowhere(graph.inner, heir, waiters[i]);
      var added := graph.AddEdge(waiters[i], heir);
      assert added;
      assert graph.inner == HandedOff(g, heir, waiters[..i + 1]);
    }
    assert waiters[..|waiters|] == waiters;
  }
}
