// Costs that add up over expressions, and what substituting a local does to them
// (compiler-backend/functional/src/optimize.rs).
module Substitutions {
  import opened FunctionalTree
  import opened TreeFolds
  import opened Rewrites
  import opened Wrappers

  // ---------------------------------------------------------------- sums

  lemma {:induction false} SumOfBoth(a: seq<nat>, b: seq<nat>)
    ensures Sum(a + b) == Sum(a) + Sum(b)
  {
    if a == [] {
      assert a + b == b;
    } else {
      SumOfBoth(a[1..], b);
      assert (a + b)[1..] == a[1..] + b;
    }
  }

  lemma {:induction false} SumOfMember(s: seq<nat>, k: nat)
    requires k < |s|
    ensures s[k] <= Sum(s)
  {
    if k > 0 {
      SumOfMember(s[1..], k - 1);
    }
  }

  lemma {:induction false} SumIsZero(s: seq<nat>)
    ensures Sum(s) == 0 <==> forall k :: 0 <= k < |s| ==> s[k] == 0
  {
    if s != [] {
      SumIsZero(s[1..]);
      assert forall k :: 1 <= k < |s| ==> s[k] == s[1..][k - 1];
    }
  }

  // The same sum, with `times` times `extra` added in each place.
  lemma {:induction false} SumScaled(s: seq<nat>, t: seq<nat>, times: seq<nat>, extra: int)
    requires |s| == |t| == |times| && forall k :: 0 <= k < |s| ==> t[k] == s[k] + times[k] * extra
    ensures Sum(t) == Sum(s) + Sum(times) * extra
  {
    if s != [] {
      SumScaled(s[1..], t[1..], times[1..], extra);
      assert (times[0] + Sum(times[1..])) * extra == times[0] * extra + Sum(times[1..]) * extra;
    }
  }

  // ---------------------------------------------------------------- costs

  predicate InArena(arena: Arena, list: seq<ExpressionId>) {
    forall k :: 0 <= k < |list| ==> list[k] < |arena|
  }

  ghost function Cost(arena: Arena, rank: seq<nat>, cost: ExpressionKind -> nat, env: map<LocalId, nat>, n: ExpressionId): nat
    requires Acyclic(arena, rank) && n < |arena|
  {
    Fold(arena, rank, Additive(cost), env, n)
  }

  ghost function Costs(arena: Arena, rank: seq<nat>, cost: ExpressionKind -> nat, env: map<LocalId, nat>, list: seq<ExpressionId>): (r: seq<nat>)
    requires Acyclic(arena, rank) && InArena(arena, list)
    ensures |r| == |list|
  {
    seq(|list|, k requires 0 <= k < |list| => Cost(arena, rank, cost, env, list[k]))
  }

  ghost function Total(arena: Arena, rank: seq<nat>, cost: ExpressionKind -> nat, env: map<LocalId, nat>, list: seq<ExpressionId>): nat
    requires Acyclic(arena, rank) && InArena(arena, list)
  {
    Sum(Costs(arena, rank, cost, env, list))
  }

  lemma TotalOfBoth(arena: Arena, rank: seq<nat>, cost: ExpressionKind -> nat, env: map<LocalId, nat>, a: seq<ExpressionId>, b: seq<ExpressionId>)
    requires Acyclic(arena, rank) && InArena(arena, a) && InArena(arena, b)
    ensures InArena(arena, a + b)
    ensures Total(arena, rank, cost, env, a + b) == Total(arena, rank, cost, env, a) + Total(arena, rank, cost, env, b)
  {
    hide Cost, Sum, Acyclic;
    assert Costs(arena, rank, cost, env, a + b) == Costs(arena, rank, cost, env, a) + Costs(arena, rank, cost, env, b);
    SumOfBoth(Costs(arena, rank, cost, env, a), Costs(arena, rank, cost, env, b));
  }

  lemma TotalOfOne(arena: Arena, rank: seq<nat>, cost: ExpressionKind -> nat, env: map<LocalId, nat>, n: ExpressionId)
    requires Acyclic(arena, rank) && n < |arena|
    ensures InArena(arena, [n]) && Total(arena, rank, cost, env, [n]) == Cost(arena, rank, cost, env, n)
  {
    var c := Cost(arena, rank, cost, env, n);
    assert Costs(arena, rank, cost, env, [n]) == [c];
    assert Sum([c]) == c + Sum([c][1..]);
  }

  // An expression costs what it costs itself and what its children cost, unless it is a local
  // that stands for something else.
  lemma CostOf(arena: Arena, rank: seq<nat>, cost: ExpressionKind -> nat, env: map<LocalId, nat>, n: ExpressionId)
    requires Acyclic(arena, rank) && n < |arena|
    ensures var kind := arena[n].kind;
            && InArena(arena, Children(kind))
            && Cost(arena, rank, cost, env, n) ==
               if kind.Local? && kind.local in env then env[kind.local]
               else cost(Shape(kind)) + Total(arena, rank, cost, env, Children(kind))
  {
    hide Children, Shape;
    var kind := arena[n].kind;
    var parts := FoldAll(arena, rank, Additive(cost), env, Children(kind), rank[n]);
    assert parts == Costs(arena, rank, cost, env, Children(kind));
    assert Cost(arena, rank, cost, env, n) == FoldKind(arena, rank, Additive(cost), env, kind, rank[n]);
    if !(kind.Local? && kind.local in env) {
      assert FoldKind(arena, rank, Additive(cost), env, kind, rank[n]) == Additive(cost)(Shape(kind), parts);
      assert Additive(cost)(Shape(kind), parts) == cost(Shape(kind)) + Sum(parts);
    }
  }

  // ---------------------------------------------------------------- traversals

  // What is pending once the last pending expression has been replaced by its children.
  function Entered(arena: Arena, pending: seq<ExpressionId>): seq<ExpressionId>
    requires pending != [] && InArena(arena, pending)
  {
    pending[..|pending| - 1] + Backward(Children(arena[pending[|pending| - 1]].kind))
  }

  // A list from its end to its start.
  function Backward(list: seq<ExpressionId>): (r: seq<ExpressionId>)
    ensures |r| == |list| && forall k :: 0 <= k < |list| ==> r[k] == list[|list| - 1 - k]
  {
    seq(|list|, k requires 0 <= k < |list| => list[|list| - 1 - k])
  }

  lemma {:induction false} TotalBackward(arena: Arena, rank: seq<nat>, cost: ExpressionKind -> nat, env: map<LocalId, nat>, list: seq<ExpressionId>)
    requires Acyclic(arena, rank) && InArena(arena, list)
    ensures InArena(arena, Backward(list)) && Total(arena, rank, cost, env, Backward(list)) == Total(arena, rank, cost, env, list)
  {
    hide Total, Acyclic;
    if list == [] {
      assert Backward(list) == list;
    } else {
      var first, rest := [list[0]], list[1..];
      assert list == first + rest && Backward(list) == Backward(rest) + first;
      TotalBackward(arena, rank, cost, env, rest);
      TotalOfBoth(arena, rank, cost, env, first, rest);
      TotalOfBoth(arena, rank, cost, env, Backward(rest), first);
    }
  }

  lemma DropLast(arena: Arena, rank: seq<nat>, cost: ExpressionKind -> nat, env: map<LocalId, nat>, pending: seq<ExpressionId>)
    requires Acyclic(arena, rank) && InArena(arena, pending) && pending != []
    ensures var front := pending[..|pending| - 1];
            InArena(arena, front) &&
            Total(arena, rank, cost, env, pending) == Total(arena, rank, cost, env, front) + Cost(arena, rank, cost, env, pending[|pending| - 1])
  {
    var front, last := pending[..|pending| - 1], pending[|pending| - 1];
    assert pending == front + [last];
    TotalOfBoth(arena, rank, cost, env, front, [last]);
    TotalOfOne(arena, rank, cost, env, last);
  }

  // Entering an expression takes its own cost off the total.
  lemma EnterCosts(arena: Arena, rank: seq<nat>, cost: ExpressionKind -> nat, env: map<LocalId, nat>, pending: seq<ExpressionId>)
    requires Acyclic(arena, rank) && InArena(arena, pending) && pending != []
    requires var kind := arena[pending[|pending| - 1]].kind; !(kind.Local? && kind.local in env)
    ensures InArena(arena, Entered(arena, pending))
    ensures Total(arena, rank, cost, env, pending) ==
            cost(Shape(arena[pending[|pending| - 1]].kind)) + Total(arena, rank, cost, env, Entered(arena, pending))
  {
    hide Children, Shape;
    var front, last := pending[..|pending| - 1], pending[|pending| - 1];
    DropLast(arena, rank, cost, env, pending);
    CostOf(arena, rank, cost, env, last);
    TotalBackward(arena, rank, cost, env, Children(arena[last].kind));
    TotalOfBoth(arena, rank, cost, env, front, Backward(Children(arena[last].kind)));
  }

  // ---------------------------------------------------------------- substitution

  // Some occurrences of `x` have become the expression that `e` is.
  ghost predicate Substituted(before: Arena, after: Arena, x: LocalId, e: ExpressionId) {
    && |after| == |before| && e < |before|
    && (forall m :: 0 <= m < |before| ==> SubstitutedAt(before, after, x, e, m))
  }

  ghost predicate SubstitutedAt(before: Arena, after: Arena, x: LocalId, e: ExpressionId, m: ExpressionId)
    requires |after| == |before| && e < |before| && m < |before|
  {
    after[m] == before[m] || (before[m].kind == Local(x) && after[m].kind == before[e].kind)
  }

  // Occurrences of `x` rank above `e`.
  ghost predicate RanksAbove(arena: Arena, rank: seq<nat>, x: LocalId, e: ExpressionId) {
    e < |arena| == |rank| && forall m :: 0 <= m < |arena| && arena[m].kind == Local(x) ==> rank[e] < rank[m]
  }

  lemma SubstitutedOn(before: Arena, middle: Arena, after: Arena, rank: seq<nat>, x: LocalId, e: ExpressionId)
    requires RanksAbove(before, rank, x, e) && Substituted(before, middle, x, e) && Substituted(middle, after, x, e)
    ensures Substituted(before, after, x, e)
  {
    assert SubstitutedAt(before, middle, x, e, e) && SubstitutedAt(middle, after, x, e, e);
    forall m | 0 <= m < |before|
      ensures SubstitutedAt(before, after, x, e, m)
    {
      assert SubstitutedAt(before, middle, x, e, m) && SubstitutedAt(middle, after, x, e, m);
    }
  }

  // What is substituted stays as it is, with everything below.
  lemma SubstitutedKeepsSource(before: Arena, after: Arena, rank: seq<nat>, x: LocalId, e: ExpressionId)
    requires RanksAbove(before, rank, x, e) && Substituted(before, after, x, e)
    ensures after[e] == before[e] && RanksAbove(after, rank, x, e)
  {
    assert SubstitutedAt(before, after, x, e, e);
    forall m | 0 <= m < |after| && after[m].kind == Local(x)
      ensures rank[e] < rank[m]
    {
      assert SubstitutedAt(before, after, x, e, m);
    }
  }

  lemma SubstitutedIsAcyclic(before: Arena, after: Arena, rank: seq<nat>, x: LocalId, e: ExpressionId)
    requires Acyclic(before, rank) && RanksAbove(before, rank, x, e) && Substituted(before, after, x, e)
    ensures Acyclic(after, rank)
  {
    hide Children;
    forall m | 0 <= m < |after|
      ensures Lower(rank, Children(after[m].kind), rank[m])
    {
      assert SubstitutedAt(before, after, x, e, m);
    }
  }

  // A fold in which `x` stands for what `e` folds to does not notice the substitution.
  lemma {:induction false} SubstitutedFolds<D>(before: Arena, after: Arena, rank: seq<nat>, alg: Algebra<D>, env: map<LocalId, D>, x: LocalId, e: ExpressionId, m: ExpressionId)
    requires Acyclic(before, rank) && RanksAbove(before, rank, x, e) && Substituted(before, after, x, e) && m < |before|
    requires x in env && env[x] == Fold(before, rank, alg, env, e)
    ensures Acyclic(after, rank) && Fold(after, rank, alg, env, m) == Fold(before, rank, alg, env, m)
    decreases rank[m]
  {
    hide Children, Shape, Substituted;
    SubstitutedIsAcyclic(before, after, rank, x, e);
    assert SubstitutedAt(before, after, x, e, m) by {
      SubstitutedHere(before, after, x, e, m);
    }
    var kind := after[m].kind;
    var children := Children(kind);
    forall k | 0 <= k < |children|
      ensures Fold(after, rank, alg, env, children[k]) == Fold(before, rank, alg, env, children[k])
    {
      SubstitutedFolds(before, after, rank, alg, env, x, e, children[k]);
    }
    if after[m] == before[m] {
      assert FoldAll(after, rank, alg, env, children, rank[m]) == FoldAll(before, rank, alg, env, children, rank[m]);
    } else {
      CopyFolds(before, rank, alg, env, m, e);
      assert FoldAll(after, rank, alg, env, children, rank[m]) == FoldAll(before, rank, alg, env, children, rank[m]);
    }
  }

  lemma SubstitutedHere(before: Arena, after: Arena, x: LocalId, e: ExpressionId, m: ExpressionId)
    requires Substituted(before, after, x, e) && m < |before|
    ensures SubstitutedAt(before, after, x, e, m)
  {
  }

  // ---------------------------------------------------------------- what a substitution costs

  // If `x` stands for `w`, every use of it costs that instead of what a local costs.
  lemma {:induction false} CostWithUses(arena: Arena, rank: seq<nat>, cost: ExpressionKind -> nat, x: LocalId, w: nat, n: ExpressionId)
    requires Acyclic(arena, rank) && n < |arena|
    ensures Cost(arena, rank, cost, map[x := w], n) ==
            Cost(arena, rank, cost, map[], n) + Cost(arena, rank, UseCost(x), map[], n) * (w - cost(Local(x)))
    decreases rank[n]
  {
    hide Children, Cost;
    var env := map[x := w];
    var kind := arena[n].kind;
    var children := Children(kind);
    CostOf(arena, rank, cost, env, n);
    CostOf(arena, rank, cost, map[], n);
    CostOf(arena, rank, UseCost(x), map[], n);
    if kind == Local(x) {
      NoChildren(arena, rank, cost, x);
      NoChildren(arena, rank, UseCost(x), x);
    } else {
      NotLocalShape(kind, x);
      hide Shape;
      var plain := Costs(arena, rank, cost, map[], children);
      var scaled := Costs(arena, rank, cost, env, children);
      var uses := Costs(arena, rank, UseCost(x), map[], children);
      forall k | 0 <= k < |children|
        ensures scaled[k] == plain[k] + uses[k] * (w - cost(Local(x)))
      {
        CostWithUses(arena, rank, cost, x, w, children[k]);
      }
      SumScaled(plain, scaled, uses, w - cost(Local(x)));
    }
  }

  lemma NoChildren(arena: Arena, rank: seq<nat>, cost: ExpressionKind -> nat, x: LocalId)
    requires Acyclic(arena, rank)
    ensures Children(Local(x)) == [] && Shape(Local(x)) == Local(x)
    ensures Total(arena, rank, cost, map[], []) == 0
  {
  }

  lemma NotLocalShape(kind: ExpressionKind, x: LocalId)
    requires kind != Local(x)
    ensures Shape(kind) != Local(x)
    ensures kind.Local? ==> Shape(kind) == kind
  {
  }

  // An expression without `x` costs the same whatever `x` stands for.
  lemma CostWithoutUses(arena: Arena, rank: seq<nat>, cost: ExpressionKind -> nat, x: LocalId, w: nat, n: ExpressionId)
    requires Acyclic(arena, rank) && n < |arena| && Uses(arena, rank, x, n) == 0
    ensures Cost(arena, rank, cost, map[x := w], n) == Cost(arena, rank, cost, map[], n)
  {
    CostWithUses(arena, rank, cost, x, w, n);
  }

  lemma UsesOf(arena: Arena, rank: seq<nat>, x: LocalId, n: ExpressionId)
    requires Acyclic(arena, rank) && n < |arena|
    ensures var children := Children(arena[n].kind);
            && InArena(arena, children)
            && (Uses(arena, rank, x, n) == 0 <==>
                arena[n].kind != Local(x) && forall k :: 0 <= k < |children| ==> Uses(arena, rank, x, children[k]) == 0)
  {
    hide Children;
    CostOf(arena, rank, UseCost(x), map[], n);
    var kind := arena[n].kind;
    var costs := Costs(arena, rank, UseCost(x), map[], Children(kind));
    assert forall k :: 0 <= k < |costs| ==> costs[k] == Uses(arena, rank, x, Children(kind)[k]);
    assert Uses(arena, rank, x, n) == IsLocal(x, Shape(kind)) + Sum(costs);
    hide Uses;
    if kind == Local(x) {
      NoChildren(arena, rank, UseCost(x), x);
    } else {
      NotLocalShape(kind, x);
      SumIsZero(costs);
    }
  }

  // A local does not occur in what ranks at most as high as the expression it is bound to.
  lemma {:induction false} NoUseBelow(arena: Arena, rank: seq<nat>, x: LocalId, e: ExpressionId, n: ExpressionId)
    requires Acyclic(arena, rank) && RanksAbove(arena, rank, x, e) && n < |arena| && rank[n] <= rank[e]
    ensures Uses(arena, rank, x, n) == 0
    decreases rank[n]
  {
    hide Children, Uses;
    UsesOf(arena, rank, x, n);
    forall k | 0 <= k < |Children(arena[n].kind)|
      ensures Uses(arena, rank, x, Children(arena[n].kind)[k]) == 0
    {
      NoUseBelow(arena, rank, x, e, Children(arena[n].kind)[k]);
    }
  }

  // Substituting every use of `x` in an expression costs as much more as there are uses.
  lemma SubstitutionCosts(before: Arena, after: Arena, rank: seq<nat>, cost: ExpressionKind -> nat, x: LocalId, e: ExpressionId, m: ExpressionId)
    requires Acyclic(before, rank) && RanksAbove(before, rank, x, e) && Substituted(before, after, x, e) && m < |before|
    requires Acyclic(after, rank) && Uses(after, rank, x, m) == 0
    ensures Cost(after, rank, cost, map[], m) ==
            Cost(before, rank, cost, map[], m) + Uses(before, rank, x, m) * (Cost(before, rank, cost, map[], e) - cost(Local(x)))
  {
    hide Substituted, RanksAbove;
    RanksBelow(before, rank, x, e);
    var w := Cost(before, rank, cost, map[], e);
    NoUseBelow(before, rank, x, e, e);
    CostWithoutUses(before, rank, cost, x, w, e);
    SubstitutedFolds(before, after, rank, Additive(cost), map[x := w], x, e, m);
    CostWithUses(before, rank, cost, x, w, m);
    CostWithoutUses(after, rank, cost, x, w, m);
  }

  lemma RanksBelow(arena: Arena, rank: seq<nat>, x: LocalId, e: ExpressionId)
    requires RanksAbove(arena, rank, x, e)
    ensures e < |arena| == |rank|
  {
  }

  // After all uses of `x` are substituted by `e`, there are none left, and the uses of any other
  // local are its old uses and those that come with `e`.
  lemma SubstitutionUses(before: Arena, after: Arena, rank: seq<nat>, x: LocalId, e: ExpressionId, m: ExpressionId, y: LocalId)
    requires Acyclic(before, rank) && RanksAbove(before, rank, x, e) && Substituted(before, after, x, e) && m < |before|
    requires Acyclic(after, rank) && Uses(after, rank, x, m) == 0 && y != x
    ensures Uses(after, rank, y, m) == Uses(before, rank, y, m) + Uses(before, rank, x, m) * Uses(before, rank, y, e)
  {
    hide Substituted;
    SubstitutionCosts(before, after, rank, UseCost(y), x, e, m);
  }

  lemma {:induction false} NoUseStays(before: Arena, after: Arena, rank: seq<nat>, x: LocalId, e: ExpressionId, m: ExpressionId)
    requires Acyclic(before, rank) && Acyclic(after, rank) && Substituted(before, after, x, e) && m < |before| && Uses(before, rank, x, m) == 0
    ensures Uses(after, rank, x, m) == 0
    decreases rank[m]
  {
    hide Children, Uses;
    UsesOf(before, rank, x, m);
    UsesOf(after, rank, x, m);
    assert SubstitutedAt(before, after, x, e, m);
    forall k | 0 <= k < |Children(after[m].kind)|
      ensures Uses(after, rank, x, Children(after[m].kind)[k]) == 0
    {
      NoUseStays(before, after, rank, x, e, Children(after[m].kind)[k]);
    }
  }

  // A set of expressions in which `x` does not occur, nor leads out of it.
  ghost predicate Cleared(arena: Arena, rank: seq<nat>, x: LocalId, e: ExpressionId, done: set<ExpressionId>, pending: seq<ExpressionId>)
    requires e < |arena|
  {
    forall m :: m in done ==> m < |arena| && (arena[m].kind == arena[e].kind || ClearedAt(arena, x, done, pending, m))
  }

  ghost predicate ClearedAt(arena: Arena, x: LocalId, done: set<ExpressionId>, pending: seq<ExpressionId>, m: ExpressionId)
    requires m < |arena|
  {
    && arena[m].kind != Local(x)
    && (forall k :: 0 <= k < |Children(arena[m].kind)| ==> Children(arena[m].kind)[k] in done || Children(arena[m].kind)[k] in pending)
  }

  lemma {:induction false} ClearedHasNoUse(arena: Arena, rank: seq<nat>, x: LocalId, e: ExpressionId, done: set<ExpressionId>, m: ExpressionId)
    requires Acyclic(arena, rank) && RanksAbove(arena, rank, x, e) && Cleared(arena, rank, x, e, done, []) && m in done
    ensures m < |arena| && Uses(arena, rank, x, m) == 0
    decreases if m < |rank| then rank[m] else 0
  {
    hide Children, Uses;
    UsesOf(arena, rank, x, m);
    if arena[m].kind == arena[e].kind {
      UsesOf(arena, rank, x, e);
      NoUseBelow(arena, rank, x, e, e);
    } else {
      assert ClearedAt(arena, x, done, [], m);
      forall k | 0 <= k < |Children(arena[m].kind)|
        ensures Uses(arena, rank, x, Children(arena[m].kind)[k]) == 0
      {
        ClearedHasNoUse(arena, rank, x, e, done, Children(arena[m].kind)[k]);
      }
    }
  }

  // ---------------------------------------------------------------- free locals

  // A local that does not occur is not free.
  lemma {:induction false} UnusedIsNotFree(arena: Arena, rank: seq<nat>, x: LocalId, n: ExpressionId)
    requires Acyclic(arena, rank) && n < |arena| && Uses(arena, rank, x, n) == 0
    ensures x !in Free(arena, rank, n)
    decreases rank[n]
  {
    hide Children, Uses, Free, FreeKind, FreeInChildren;
    UsesOf(arena, rank, x, n);
    FreeOf(arena, rank, n);
    FreeInKind(arena, rank, arena[n].kind, rank[n]);
    InChildren(arena, rank, arena[n].kind, rank[n], x);
    forall k | 0 <= k < |Children(arena[n].kind)|
      ensures x !in Free(arena, rank, Children(arena[n].kind)[k])
    {
      UnusedIsNotFree(arena, rank, x, Children(arena[n].kind)[k]);
    }
  }

  // A substitution frees nothing but what is free in the expression substituted.
  lemma {:induction false} SubstitutedFrees(before: Arena, after: Arena, rank: seq<nat>, x: LocalId, e: ExpressionId, m: ExpressionId)
    requires Acyclic(before, rank) && RanksAbove(before, rank, x, e) && Substituted(before, after, x, e) && m < |before| && Acyclic(after, rank)
    ensures Free(after, rank, m) <= Free(before, rank, m) + Free(before, rank, e)
    decreases rank[m]
  {
    hide Children, Uses, Free, FreeKind, FreeInChildren, Substituted;
    SubstitutedHere(before, after, x, e, m);
    if after[m] == before[m] {
      var kind := after[m].kind;
      FreeOf(before, rank, m);
      FreeOf(after, rank, m);
      FreeInKind(before, rank, kind, rank[m]);
      FreeInKind(after, rank, kind, rank[m]);
      forall y | y in FreeInChildren(after, rank, kind, rank[m])
        ensures y in FreeInChildren(before, rank, kind, rank[m]) || y in Free(before, rank, e)
      {
        InChildren(after, rank, kind, rank[m], y);
        InChildren(before, rank, kind, rank[m], y);
        var k :| 0 <= k < |Children(kind)| && y in Free(after, rank, Children(kind)[k]);
        SubstitutedFrees(before, after, rank, x, e, Children(kind)[k]);
      }
    } else {
      SubstitutedKeepsSource(before, after, rank, x, e);
      CopyIsFree(after, rank, m, e);
      SubstitutedFrees(before, after, rank, x, e, e);
    }
  }

  lemma CopyIsFree(arena: Arena, rank: seq<nat>, m: ExpressionId, e: ExpressionId)
    requires Acyclic(arena, rank) && m < |arena| && e < |arena| && rank[e] <= rank[m] && arena[m].kind == arena[e].kind
    ensures Free(arena, rank, m) == Free(arena, rank, e)
  {
    CopyFolds(arena, rank, FreeAlgebra(), map[], m, e);
  }
}
