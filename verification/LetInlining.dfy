// The rewriting of a `let`, and the traversal that optimizes a whole expression
// (compiler-backend/functional/src/optimize.rs).
module LetInlining {
  import opened FunctionalTree
  import opened TreeFolds
  import opened Rewrites
  import opened Meanings
  import opened Substitutions
  import opened Evaluations
  import opened Optimizer
  import opened Activities
  import opened Wrappers

  // ---------------------------------------------------------------- substituting in all the parts

  ghost predicate NoneUse(arena: Arena, rank: seq<nat>, x: LocalId, parts: seq<ExpressionId>)
    requires Acyclic(arena, rank)
  {
    forall k :: 0 <= k < |parts| ==> parts[k] < |arena| && Uses(arena, rank, x, parts[k]) == 0
  }

  // What substituting a binding in several expressions gives.
  ghost predicate SubstitutedAll(before: Arena, after: Arena, rank: seq<nat>, binding: Binding, parts: seq<ExpressionId>) {
    && WellFormed(after, rank) && Reduces(before, after, rank)
    && Substituted(before, after, binding.parameter, binding.expression)
    && NoneUse(after, rank, binding.parameter, parts)
  }

  method SubstituteAll(storage: Storage, ghost rank: seq<nat>, parts: seq<ExpressionId>, binding: Binding)
    requires WellFormed(storage.expressions, rank) && InArena(storage.expressions, parts)
    requires Bound(storage.expressions, binding.parameter, binding.expression)
    modifies storage
    ensures SubstitutedAll(old(storage.expressions), storage.expressions, rank, binding, parts)
  {
    hide WellFormed, Bound, SubstitutedAll, Substituted, Reduces, Uses;
    ghost var before := storage.expressions;
    StartAll(before, rank, binding);
    for k := 0 to |parts|
      invariant SubstitutedAll(before, storage.expressions, rank, binding, parts[..k])
    {
      ghost var now := storage.expressions;
      AllFits(before, now, rank, binding, parts[..k]);
      SubstituteLocal(storage, rank, parts[k], binding);
      AllNext(before, now, storage.expressions, rank, binding, parts, k);
    }
    assert parts[..|parts|] == parts;
  }

  lemma StartAll(before: Arena, rank: seq<nat>, binding: Binding)
    requires WellFormed(before, rank) && Bound(before, binding.parameter, binding.expression)
    ensures SubstitutedAll(before, before, rank, binding, [])
  {
    hide Bound, BoundsBelow, BoundsUnique;
    ReducesToItself(before, rank);
    BoundInArena(before, rank, binding.parameter, binding.expression);
    assert forall m :: 0 <= m < |before| ==> SubstitutedAt(before, before, binding.parameter, binding.expression, m);
  }

  lemma AllFits(before: Arena, now: Arena, rank: seq<nat>, binding: Binding, parts: seq<ExpressionId>)
    requires SubstitutedAll(before, now, rank, binding, parts) && Bound(before, binding.parameter, binding.expression)
    ensures WellFormed(now, rank) && |now| == |before| && Bound(now, binding.parameter, binding.expression)
  {
    hide Bound, BoundsBelow, BoundsUnique, Uses, Reduces;
    BoundStays(before, now, binding.parameter, binding.expression, binding.parameter, binding.expression);
  }

  lemma AllNext(before: Arena, now: Arena, after: Arena, rank: seq<nat>, binding: Binding, parts: seq<ExpressionId>, k: nat)
    requires WellFormed(before, rank) && Bound(before, binding.parameter, binding.expression) && k < |parts| && parts[k] < |before|
    requires SubstitutedAll(before, now, rank, binding, parts[..k])
    requires WellFormed(after, rank) && Reduces(now, after, rank) && Substituted(now, after, binding.parameter, binding.expression)
    requires parts[k] < |after| && Uses(after, rank, binding.parameter, parts[k]) == 0
    ensures SubstitutedAll(before, after, rank, binding, parts[..k + 1])
  {
    hide Bound, BoundsBelow, BoundsUnique, Uses, Reduces, Substituted, Acyclic, RanksAbove;
    var x, e := binding.parameter, binding.expression;
    BoundRanksAbove(before, rank, x, e);
    SubstitutedLength(now, after, x, e);
    ReducesOn(before, now, after, rank);
    SubstitutedOn(before, now, after, rank, x, e);
    var first := parts[..k + 1];
    forall j | 0 <= j < |first|
      ensures first[j] < |after| && Uses(after, rank, x, first[j]) == 0
    {
      if j < k {
        assert parts[..k][j] == parts[j];
        NoUseStays(now, after, rank, x, e, parts[j]);
      }
    }
  }

  lemma SubstitutedLength(before: Arena, after: Arena, x: LocalId, e: ExpressionId)
    requires Substituted(before, after, x, e)
    ensures |after| == |before| && e < |before|
  {
  }

  // ---------------------------------------------------------------- removing a binding

  function Without(bindings: seq<Binding>, p: nat): (r: seq<Binding>)
    requires p < |bindings|
    ensures |r| == |bindings| - 1
  {
    bindings[..p] + bindings[p + 1..]
  }

  ghost function ScopeSize(arena: Arena, rank: seq<nat>, bindings: seq<Binding>, body: ExpressionId): nat
    requires Acyclic(arena, rank) && InArena(arena, Parts(bindings, body))
  {
    Total(arena, rank, UnitCost(), map[], Parts(bindings, body))
  }

  // The parts without one binding, beside that binding.
  lemma TotalWithout(arena: Arena, rank: seq<nat>, cost: ExpressionKind -> nat, bindings: seq<Binding>, body: ExpressionId, p: nat)
    requires Acyclic(arena, rank) && InArena(arena, Parts(bindings, body)) && p < |bindings|
    ensures InArena(arena, Parts(Without(bindings, p), body)) && bindings[p].expression < |arena|
    ensures Total(arena, rank, cost, map[], Parts(bindings, body)) ==
            Total(arena, rank, cost, map[], Parts(Without(bindings, p), body)) + Cost(arena, rank, cost, map[], bindings[p].expression)
  {
    hide Total, Cost, Acyclic;
    var parts := Parts(bindings, body);
    PartsOf(bindings, body);
    assert parts[p] == bindings[p].expression;
    assert Parts(Without(bindings, p), body) == parts[..p] + parts[p + 1..];
    hide Parts, Without;
    TotalExcept(arena, rank, cost, parts, p);
  }

  lemma TotalExcept(arena: Arena, rank: seq<nat>, cost: ExpressionKind -> nat, parts: seq<ExpressionId>, p: nat)
    requires Acyclic(arena, rank) && InArena(arena, parts) && p < |parts|
    ensures InArena(arena, parts[..p] + parts[p + 1..]) && parts[p] < |arena|
    ensures Total(arena, rank, cost, map[], parts) ==
            Total(arena, rank, cost, map[], parts[..p] + parts[p + 1..]) + Cost(arena, rank, cost, map[], parts[p])
  {
    hide Total, Cost, Acyclic;
    var left, right := parts[..p], parts[p + 1..];
    assert parts == left + ([parts[p]] + right);
    TotalOfBoth(arena, rank, cost, map[], left, [parts[p]] + right);
    TotalOfBoth(arena, rank, cost, map[], [parts[p]], right);
    TotalOfOne(arena, rank, cost, map[], parts[p]);
    TotalOfBoth(arena, rank, cost, map[], left, right);
  }

  // Substituting all uses in several expressions.
  lemma {:induction false} TotalSubstituted(before: Arena, after: Arena, rank: seq<nat>, cost: ExpressionKind -> nat, x: LocalId, e: ExpressionId, parts: seq<ExpressionId>)
    requires Acyclic(before, rank) && Acyclic(after, rank) && RanksAbove(before, rank, x, e) && Substituted(before, after, x, e)
    requires InArena(before, parts) && NoneUse(after, rank, x, parts)
    ensures InArena(after, parts)
    ensures Total(after, rank, cost, map[], parts) ==
            Total(before, rank, cost, map[], parts)
            + Total(before, rank, UseCost(x), map[], parts) * (Cost(before, rank, cost, map[], e) - cost(Local(x)))
  {
    hide Substituted, RanksAbove, Acyclic, Sum, Uses, Cost;
    RanksBelow(before, rank, x, e);
    var extra := Cost(before, rank, cost, map[], e) - cost(Local(x));
    var plain, scaled := Costs(before, rank, cost, map[], parts), Costs(after, rank, cost, map[], parts);
    var uses := Costs(before, rank, UseCost(x), map[], parts);
    forall k | 0 <= k < |parts|
      ensures scaled[k] == plain[k] + uses[k] * extra
    {
      SubstitutionCosts(before, after, rank, cost, x, e, parts[k]);
      CostsAre(before, rank, x, parts, k);
    }
    SumScaled(plain, scaled, uses, extra);
  }

  // ---------------------------------------------------------------- the bindings of one `let`

  // What holds while the bindings of a `let` are inlined: `left` are those that are left.
  ghost predicate Inlining(before: Arena, now: Arena, rank: seq<nat>, n: ExpressionId, left: seq<Binding>) {
    && WellFormed(now, rank) && Reduces(before, now, rank)
    && |now| == |before| && n < |before|
    && before[n].kind.Let? && !before[n].kind.recursive && now[n] == before[n]
    && (forall m :: 0 <= m < |before| && !before[m].kind.Local? ==> now[m] == before[m])
    && var all, body := before[n].kind.bindings, before[n].kind.body;
    && Within(left, all)
    && InArena(now, Parts(left, body))
    && NotFree(now, rank, all, left, Parts(left, body))
  }

  // Each binding that is inlined takes a single expression off the whole.
  ghost predicate Shrinks(before: Arena, now: Arena, rank: seq<nat>, n: ExpressionId, left: seq<Binding>)
    requires Acyclic(before, rank) && Inlining(before, now, rank, n, left)
  {
    var all, body := before[n].kind.bindings, before[n].kind.body;
    && InArena(before, Parts(all, body)) && |left| <= |all|
    && ScopeSize(now, rank, left, body) + (|all| - |left|) == ScopeSize(before, rank, all, body)
  }

  lemma LetParts(arena: Arena, rank: seq<nat>, n: ExpressionId)
    requires Acyclic(arena, rank) && n < |arena| && arena[n].kind.Let?
    ensures Children(arena[n].kind) == Parts(arena[n].kind.bindings, arena[n].kind.body)
    ensures InArena(arena, Parts(arena[n].kind.bindings, arena[n].kind.body))
  {
    PartsAreChildren(arena[n].kind);
    hide Children, Parts;
    assert Lower(rank, Children(arena[n].kind), rank[n]);
  }

  lemma PartsAreChildren(kind: ExpressionKind)
    requires kind.Let?
    ensures Children(kind) == Parts(kind.bindings, kind.body)
  {
  }

  lemma StartInlining(before: Arena, rank: seq<nat>, n: ExpressionId)
    requires WellFormed(before, rank) && n < |before| && before[n].kind.Let? && !before[n].kind.recursive
    ensures Inlining(before, before, rank, n, before[n].kind.bindings)
    ensures Acyclic(before, rank) && Shrinks(before, before, rank, n, before[n].kind.bindings)
  {
    hide BoundsBelow, BoundsUnique, Free, Total;
    LetParts(before, rank, n);
    ReducesToItself(before, rank);
  }

  lemma InliningFits(before: Arena, now: Arena, rank: seq<nat>, n: ExpressionId, left: seq<Binding>)
    requires Inlining(before, now, rank, n, left)
    ensures WellFormed(now, rank) && Acyclic(now, rank) && n < |now| == |before| && before[n].kind.Let? && now[n] == before[n]
    ensures InArena(now, Parts(left, before[n].kind.body))
  {
    hide BoundsBelow, BoundsUnique, Free, Lower, Reduces, NotFree;
  }

  // A binding that is left is a binding of the arena.
  lemma LeftIsBound(before: Arena, now: Arena, rank: seq<nat>, n: ExpressionId, left: seq<Binding>, p: nat)
    requires Inlining(before, now, rank, n, left) && p < |left|
    ensures Bound(now, left[p].parameter, left[p].expression) && left[p].expression < |now|
  {
    hide BoundsBelow, BoundsUnique, Free, Lower, Reduces, NotFree, Acyclic;
    var all := before[n].kind.bindings;
    assert left[p] in all;
    var k: nat :| k < |all| && all[k] == left[p];
    assert BindsAt(now[n].kind, k, left[p].parameter, left[p].expression);
    assert Binds(now[n].kind, left[p].parameter, left[p].expression);
    PartsOf(left, before[n].kind.body);
    assert Parts(left, before[n].kind.body)[p] == left[p].expression;
  }

  lemma WithinWithout(left: seq<Binding>, all: seq<Binding>, p: nat)
    requires Within(left, all) && p < |left|
    ensures Within(Without(left, p), all)
  {
  }

  // After a binding has been substituted it is free in none of the rest.
  lemma NotFreeNext(now: Arena, after: Arena, rank: seq<nat>, all: seq<Binding>, left: seq<Binding>, body: ExpressionId, p: nat)
    requires WellFormed(now, rank) && p < |left| && InArena(now, Parts(left, body)) && NotFree(now, rank, all, left, Parts(left, body))
    requires Bound(now, left[p].parameter, left[p].expression)
    requires SubstitutedAll(now, after, rank, left[p], Parts(Without(left, p), body))
    ensures InArena(after, Parts(Without(left, p), body))
    ensures NotFree(after, rank, all, Without(left, p), Parts(Without(left, p), body))
  {
    hide BoundsBelow, BoundsUnique, Bound, Free, Reduces, Substituted, Acyclic, Uses;
    var x, e, rest := left[p].parameter, left[p].expression, Without(left, p);
    var parts := Parts(rest, body);
    BoundRanksAbove(now, rank, x, e);
    SubstitutedLength(now, after, x, e);
    forall k, y | 0 <= k < |parts| && parts[k] < |after| && y in Free(after, rank, parts[k]) && y in Parameters(all)
      ensures y in Parameters(rest)
    {
      UnusedIsNotFree(after, rank, x, parts[k]);
      SubstitutedFrees(now, after, rank, x, e, parts[k]);
      FreeWasBound(now, rank, all, left, body, p, k, y);
    }
  }

  lemma FreeWasBound(now: Arena, rank: seq<nat>, all: seq<Binding>, left: seq<Binding>, body: ExpressionId, p: nat, k: nat, y: LocalId)
    requires Acyclic(now, rank) && p < |left| && InArena(now, Parts(left, body)) && NotFree(now, rank, all, left, Parts(left, body))
    requires k < |Parts(Without(left, p), body)| && Parts(Without(left, p), body)[k] < |now| && left[p].expression < |now|
    requires y in Parameters(all) && y != left[p].parameter
    requires y in Free(now, rank, Parts(Without(left, p), body)[k]) + Free(now, rank, left[p].expression)
    ensures y in Parameters(Without(left, p))
  {
    hide Acyclic, Free;
    PartsOf(left, body);
    PartsOf(Without(left, p), body);
    assert Parts(left, body)[p] == left[p].expression;
    assert Parts(Without(left, p), body)[k] == Parts(left, body)[if k < p then k else k + 1];
    assert y in Parameters(left);
    var j :| 0 <= j < |left| && left[j].parameter == y;
    assert Without(left, p)[if j < p then j else j - 1] == left[j];
  }

  lemma InlineNext(before: Arena, now: Arena, after: Arena, rank: seq<nat>, n: ExpressionId, left: seq<Binding>, p: nat)
    requires Inlining(before, now, rank, n, left) && p < |left|
    requires SubstitutedAll(now, after, rank, left[p], Parts(Without(left, p), before[n].kind.body))
    ensures Inlining(before, after, rank, n, Without(left, p))
  {
    hide BoundsBelow, BoundsUnique, Bound, Free, Acyclic, Uses;
    var all, body, x, e := before[n].kind.bindings, before[n].kind.body, left[p].parameter, left[p].expression;
    LeftIsBound(before, now, rank, n, left, p);
    NotFreeNext(now, after, rank, all, left, body, p);
    WithinWithout(left, all, p);
    ReducesOn(before, now, after, rank);
    forall m | 0 <= m < |before| && !before[m].kind.Local?
      ensures after[m] == before[m]
    {
      assert SubstitutedAt(now, after, x, e, m);
    }
  }

  lemma ShrinkNext(before: Arena, now: Arena, after: Arena, rank: seq<nat>, n: ExpressionId, left: seq<Binding>, p: nat, scope: LetScope, globals: set<GlobalId>)
    requires Acyclic(before, rank) && Inlining(before, now, rank, n, left) && Shrinks(before, now, rank, n, left) && p < |left|
    requires Acyclic(now, rank) && left[p].expression < |now|
    requires scope.bindings == left && scope.body == before[n].kind.body && Inlinable(now, rank, scope, left[p], globals)
    requires SubstitutedAll(now, after, rank, left[p], Parts(Without(left, p), before[n].kind.body))
    requires Inlining(before, after, rank, n, Without(left, p))
    ensures Shrinks(before, after, rank, n, Without(left, p))
  {
    hide BoundsBelow, BoundsUnique, Bound, Free, Acyclic, Uses, Substituted, Reduces, Simple, ScopeCaptures, NotFree, Total, Cost, Size;
    var body, x, e := before[n].kind.body, left[p].parameter, left[p].expression;
    LeftIsBound(before, now, rank, n, left, p);
    BoundRanksAbove(now, rank, x, e);
    var rest := Parts(Without(left, p), body);
    TotalWithout(now, rank, UnitCost(), left, body, p);
    TotalWithout(now, rank, UseCost(x), left, body, p);
    NoUseBelow(now, rank, x, e, e);
    TotalSubstituted(now, after, rank, UnitCost(), x, e, rest);
    CostNames(now, rank, x, e);
    if IsTrivial(globals, now[e].kind) {
      TrivialSize(now, rank, globals, e);
    }
  }

  lemma CostNames(arena: Arena, rank: seq<nat>, x: LocalId, n: ExpressionId)
    requires Acyclic(arena, rank) && n < |arena|
    ensures Cost(arena, rank, UnitCost(), map[], n) == Size(arena, rank, n)
    ensures Cost(arena, rank, UseCost(x), map[], n) == Uses(arena, rank, x, n)
  {
  }

  ghost predicate NoneInlinable(arena: Arena, rank: seq<nat>, scope: LetScope, globals: set<GlobalId>)
    requires Acyclic(arena, rank) && InArena(arena, Parts(scope.bindings, scope.body))
  {
    forall k :: 0 <= k < |scope.bindings| && scope.bindings[k].expression < |arena| ==>
      !Inlinable(arena, rank, scope, scope.bindings[k], globals)
  }

  // How far inlining has come: the arena, and the bindings that are left.
  datatype Stage = Stage(arena: Arena, left: seq<Binding>)

  // The first binding that is to be inlined, as things are, is removed and substituted in all that
  // is left.
  ghost predicate InlineStep(a: Stage, b: Stage, p: nat, rank: seq<nat>, body: ExpressionId, position: EffectPosition, globals: set<GlobalId>) {
    && Acyclic(a.arena, rank) && InArena(a.arena, Parts(a.left, body)) && p < |a.left|
    && (forall k :: 0 <= k <= p ==> a.left[k].expression < |a.arena|)
    && (forall k :: 0 <= k <= p ==>
          (Inlinable(a.arena, rank, LetScope(a.left, body, position), a.left[k], globals) <==> k == p))
    && b.left == Without(a.left, p) && SubstitutedAll(a.arena, b.arena, rank, a.left[p], Parts(b.left, body))
  }

  ghost predicate InlineStepAt(steps: seq<Stage>, i: nat, rank: seq<nat>, body: ExpressionId, position: EffectPosition, globals: set<GlobalId>)
    requires i + 1 < |steps|
  {
    SomeInlineStep(steps[i], steps[i + 1], rank, body, position, globals)
  }

  ghost predicate SomeInlineStep(a: Stage, b: Stage, rank: seq<nat>, body: ExpressionId, position: EffectPosition, globals: set<GlobalId>) {
    exists p :: InlineStep(a, b, p, rank, body, position, globals)
  }

  ghost predicate InlineRun(steps: seq<Stage>, rank: seq<nat>, body: ExpressionId, position: EffectPosition, globals: set<GlobalId>) {
    steps != [] && forall i: nat :: i + 1 < |steps| ==> InlineStepAt(steps, i, rank, body, position, globals)
  }

  lemma RunOn(steps: seq<Stage>, next: Stage, p: nat, rank: seq<nat>, body: ExpressionId, position: EffectPosition, globals: set<GlobalId>)
    requires InlineRun(steps, rank, body, position, globals) && InlineStep(steps[|steps| - 1], next, p, rank, body, position, globals)
    ensures InlineRun(steps + [next], rank, body, position, globals)
  {
    hide InlineStep;
    var longer := steps + [next];
    forall i: nat | i + 1 < |longer|
      ensures InlineStepAt(longer, i, rank, body, position, globals)
    {
      if i + 1 < |steps| {
        assert InlineStepAt(steps, i, rank, body, position, globals);
        assert longer[i] == steps[i] && longer[i + 1] == steps[i + 1];
      } else {
        assert longer[i] == steps[|steps| - 1] && longer[i + 1] == next;
      }
    }
  }

  // The bindings that are gone were removed one by one, each when it was to be inlined.
  ghost predicate RemovedInTurn(before: Arena, now: Arena, rank: seq<nat>, bindings: seq<Binding>, left: seq<Binding>, body: ExpressionId,
                                position: EffectPosition, globals: set<GlobalId>) {
    exists steps :: RemovedBy(steps, before, now, rank, bindings, left, body, position, globals)
  }

  ghost predicate RemovedBy(steps: seq<Stage>, before: Arena, now: Arena, rank: seq<nat>, bindings: seq<Binding>, left: seq<Binding>, body: ExpressionId,
                            position: EffectPosition, globals: set<GlobalId>) {
    && InlineRun(steps, rank, body, position, globals)
    && steps[0] == Stage(before, bindings) && steps[|steps| - 1] == Stage(now, left)
  }

  // What inlining as many bindings as possible gives.
  ghost predicate Inlined(before: Arena, now: Arena, rank: seq<nat>, n: ExpressionId, left: seq<Binding>, position: EffectPosition, globals: set<GlobalId>) {
    && Acyclic(before, rank) && Inlining(before, now, rank, n, left) && Shrinks(before, now, rank, n, left)
    && NoneInlinable(now, rank, LetScope(left, before[n].kind.body, position), globals)
    && RemovedInTurn(before, now, rank, before[n].kind.bindings, left, before[n].kind.body, position, globals)
  }

  // Inlines bindings until none of those that are left is to be inlined.
  method InlineAll(storage: Storage, ghost rank: seq<nat>, ghost n: ExpressionId, bindings: seq<Binding>, body: ExpressionId,
                   position: EffectPosition, globals: set<GlobalId>)
    returns (left: seq<Binding>)
    requires WellFormed(storage.expressions, rank) && n < |storage.expressions|
    requires storage.expressions[n].kind == Let(false, bindings, body)
    modifies storage
    ensures Inlined(old(storage.expressions), storage.expressions, rank, n, left, position, globals)
  {
    hide WellFormed, Acyclic, Inlining, Shrinks, Inlinable, SubstitutedAll, Bound, InArena, Parts, InlineStep;
    ghost var before := storage.expressions;
    ghost var steps := [Stage(before, bindings)];
    left := bindings;
    StartInlining(before, rank, n);
    while true
      invariant RemovedBy(steps, before, storage.expressions, rank, bindings, left, body, position, globals)
      invariant Acyclic(before, rank) && Inlining(before, storage.expressions, rank, n, left) && Shrinks(before, storage.expressions, rank, n, left)
      decreases |left|
    {
      ghost var now := storage.expressions;
      InliningFits(before, now, rank, n, left);
      var scope := LetScope(left, body, position);
      var found := FindInlinable(storage.expressions, rank, scope, globals);
      if found.None? {
        return;
      }
      var p := found.value;
      var binding := left[p];
      LeftIsBound(before, now, rank, n, left, p);
      RestInArena(now, left, body, p);
      SubstituteAll(storage, rank, Parts(Without(left, p), body), binding);
      InlineNext(before, now, storage.expressions, rank, n, left, p);
      ShrinkNext(before, now, storage.expressions, rank, n, left, p, scope, globals);
      StepTaken(now, storage.expressions, rank, left, p, scope, globals);
      RunOn(steps, Stage(storage.expressions, Without(left, p)), p, rank, body, position, globals);
      left := Without(left, p);
      steps := steps + [Stage(storage.expressions, left)];
    }
  }

  lemma StepTaken(now: Arena, after: Arena, rank: seq<nat>, left: seq<Binding>, p: nat, scope: LetScope, globals: set<GlobalId>)
    requires Acyclic(now, rank) && InArena(now, Parts(left, scope.body)) && p < |left| && scope.bindings == left
    requires forall k :: 0 <= k < |left| ==> left[k].expression < |now|
    requires Inlinable(now, rank, scope, left[p], globals)
    requires forall k :: 0 <= k < p ==> !Inlinable(now, rank, scope, left[k], globals)
    requires SubstitutedAll(now, after, rank, left[p], Parts(Without(left, p), scope.body))
    ensures InlineStep(Stage(now, left), Stage(after, Without(left, p)), p, rank, scope.body, scope.position, globals)
  {
    hide Acyclic, InArena, Inlinable, SubstitutedAll;
  }

  lemma RestInArena(arena: Arena, left: seq<Binding>, body: ExpressionId, p: nat)
    requires InArena(arena, Parts(left, body)) && p < |left|
    ensures InArena(arena, Parts(Without(left, p), body))
  {
    var rest := Parts(Without(left, p), body);
    forall k | 0 <= k < |rest|
      ensures rest[k] < |arena|
    {
      assert rest[k] == Parts(left, body)[if k < p then k else k + 1];
    }
  }

  // ---------------------------------------------------------------- the end of a `let`

  // The arena in which a `let` keeps only the bindings that are left, or becomes its body.
  function Unlet(arena: Arena, n: ExpressionId, left: seq<Binding>): Arena
    requires n < |arena| && arena[n].kind.Let? && arena[n].kind.body < |arena|
  {
    var body := arena[n].kind.body;
    if left == [] then arena[n := Expression(arena[body].kind, Or(arena[body].origin, arena[n].origin))]
    else arena[n := Expression(Let(false, left, body), arena[n].origin)]
  }

  lemma UnletRewrites(before: Arena, now: Arena, rank: seq<nat>, n: ExpressionId, left: seq<Binding>)
    requires Inlining(before, now, rank, n, left) && now[n].kind.body < |now|
    ensures WellFormed(Unlet(now, n, left), rank) && Reduces(before, Unlet(now, n, left), rank)
  {
    hide BoundsBelow, BoundsUnique, Acyclic, Reduces, NotFree;
    var e := Unlet(now, n, left)[n];
    UnletDrops(before, now, rank, n, left);
    assert Unlet(now, n, left) == With(now, n, e);
    RewriteIsWellFormed(now, rank, n, e);
    assert RewrittenAt(now, Unlet(now, n, left), rank, n, e);
    ReducesNext(before, now, Unlet(now, n, left), rank);
  }

  lemma UnletDrops(before: Arena, now: Arena, rank: seq<nat>, n: ExpressionId, left: seq<Binding>)
    requires Inlining(before, now, rank, n, left) && now[n].kind.body < |now|
    ensures Acyclic(now, rank) && Drops(now, rank, n, Unlet(now, n, left)[n].kind)
  {
    hide BoundsBelow, BoundsUnique, Lower, Reduces, Free;
    if left == [] {
      assert Parts([], now[n].kind.body) == [now[n].kind.body];
    } else {
      assert Children(Let(false, left, now[n].kind.body)) == Parts(left, now[n].kind.body);
    }
  }

  // The whole rewriting of a `let`.
  ghost predicate LetRewritten(before: Arena, after: Arena, rank: seq<nat>, n: ExpressionId, position: EffectPosition, globals: set<GlobalId>) {
    n < |before| && exists now, left :: LetRewrittenVia(before, now, after, rank, n, left, position, globals)
  }

  ghost predicate LetRewrittenVia(before: Arena, now: Arena, after: Arena, rank: seq<nat>, n: ExpressionId, left: seq<Binding>,
                                  position: EffectPosition, globals: set<GlobalId>)
    requires n < |before|
  {
    && Inlined(before, now, rank, n, left, position, globals)
    && now[n].kind.body < |now|
    && after == FoldAt(Unlet(now, n, left), n)
  }

  lemma BodyInArena(before: Arena, now: Arena, rank: seq<nat>, n: ExpressionId, left: seq<Binding>)
    requires Inlining(before, now, rank, n, left)
    ensures n < |now| == |before| && now[n] == before[n] && now[n].kind.Let? && now[n].kind.body < |now|
  {
    hide BoundsBelow, BoundsUnique, Lower, Reduces, NotFree;
    PartsOf(left, before[n].kind.body);
    assert Parts(left, before[n].kind.body)[|left|] == before[n].kind.body;
  }

  // Inlines what can be inlined of a `let`, keeps the rest, and folds a negation that appears.
  method InlineBindings(storage: Storage, ghost rank: seq<nat>, expression: ExpressionId, bindings: seq<Binding>, body: ExpressionId,
                        position: EffectPosition, globals: set<GlobalId>)
    requires WellFormed(storage.expressions, rank) && expression < |storage.expressions|
    requires storage.expressions[expression].kind == Let(false, bindings, body)
    modifies storage
    ensures WellFormed(storage.expressions, rank) && Reduces(old(storage.expressions), storage.expressions, rank)
    ensures LetRewritten(old(storage.expressions), storage.expressions, rank, expression, position, globals)
  {
    hide WellFormed, Acyclic, Inlining, Shrinks, NoneInlinable, Inlinable, Reduces, FoldAt;
    ghost var before := storage.expressions;
    var left := InlineAll(storage, rank, expression, bindings, body, position, globals);
    ghost var now := storage.expressions;
    BodyInArena(before, now, rank, expression, left);
    UnletRewrites(before, now, rank, expression, left);
    if left == [] {
      storage.ReplaceExpression(expression, body);
    } else {
      storage.ReplaceExpressionKind(expression, Let(false, left, body));
    }
    assert storage.expressions == Unlet(now, expression, left);
    ghost var unlet := storage.expressions;
    var folded := FoldNegation(storage, rank, expression);
    ReducesOn(before, unlet, storage.expressions, rank);
    assert LetRewrittenVia(before, now, storage.expressions, rank, expression, left, position, globals);
  }

  // ---------------------------------------------------------------- inlining pays off

  lemma SizeOf(arena: Arena, rank: seq<nat>, n: ExpressionId)
    requires Acyclic(arena, rank) && n < |arena|
    ensures InArena(arena, Children(arena[n].kind))
    ensures Size(arena, rank, n) == 1 + Total(arena, rank, UnitCost(), map[], Children(arena[n].kind))
  {
    hide Children, Shape;
    CostOf(arena, rank, UnitCost(), map[], n);
  }

  lemma UnarySize(arena: Arena, rank: seq<nat>, n: ExpressionId)
    requires Acyclic(arena, rank) && n < |arena| && arena[n].kind.Unary?
    ensures arena[n].kind.value < |arena| && Size(arena, rank, n) == 1 + Size(arena, rank, arena[n].kind.value)
  {
    hide Children;
    SizeOf(arena, rank, n);
    UnaryChildren(arena[n].kind);
    assert Children(arena[n].kind)[0] == arena[n].kind.value;
    TotalOfOne(arena, rank, UnitCost(), map[], arena[n].kind.value);
    CostNames(arena, rank, 0, arena[n].kind.value);
  }

  // An expression that becomes a copy of one below it has the size of that one.
  lemma CopySize(arena: Arena, rank: seq<nat>, n: ExpressionId, m: ExpressionId, e: Expression)
    requires Acyclic(arena, rank) && n < |arena| && Copies(arena, rank, n, m, e.kind)
    ensures Acyclic(With(arena, n, e), rank) && Size(With(arena, n, e), rank, n) == Size(arena, rank, m)
  {
    hide Children;
    CopyIsLower(arena, rank, n, m, e.kind);
    OverwriteIsAcyclic(arena, rank, n, e);
    OverwriteBelow(arena, rank, Additive(UnitCost()), map[], n, e, m);
    CopyFolds(With(arena, n, e), rank, Additive(UnitCost()), map[], n, m);
  }

  lemma LiteralSize(arena: Arena, rank: seq<nat>, n: ExpressionId, e: Expression)
    requires Acyclic(arena, rank) && n < |arena| && e.kind.LiteralKind?
    ensures Acyclic(With(arena, n, e), rank) && Size(With(arena, n, e), rank, n) == 1
  {
    LiteralIsLower(rank, e.kind, rank[n]);
    OverwriteIsAcyclic(arena, rank, n, e);
    LiteralFolds(With(arena, n, e), rank, Additive(UnitCost()), map[], e.kind, rank[n]);
    assert Additive(UnitCost())(e.kind, []) == 1;
  }

  lemma FoldShrinks(arena: Arena, rank: seq<nat>, n: ExpressionId)
    requires Acyclic(arena, rank) && n < |arena|
    ensures Acyclic(FoldAt(arena, n), rank) && |FoldAt(arena, n)| == |arena| && Size(FoldAt(arena, n), rank, n) <= Size(arena, rank, n)
  {
    hide Children, Size;
    var after := FoldAt(arena, n);
    if after != arena {
      assert after == With(arena, n, after[n]);
      UnaryInArena(arena, rank);
      UnarySize(arena, rank, n);
      var value := arena[n].kind.value;
      if after[n].kind.LiteralKind? && FoldedNegation(arena, arena[n].kind.unary, value).Some? {
        LiteralSize(arena, rank, n, after[n]);
      } else {
        UnarySize(arena, rank, value);
        CopySize(arena, rank, n, arena[value].kind.value, after[n]);
      }
    }
  }

  lemma UnletShrinks(before: Arena, now: Arena, rank: seq<nat>, n: ExpressionId, left: seq<Binding>)
    requires Acyclic(before, rank) && Inlining(before, now, rank, n, left) && Shrinks(before, now, rank, n, left) && now[n].kind.body < |now|
    ensures Acyclic(Unlet(now, n, left), rank)
    ensures Size(Unlet(now, n, left), rank, n) + (|before[n].kind.bindings| - |left|) <= Size(before, rank, n)
  {
    hide BoundsBelow, BoundsUnique, Reduces, NotFree, Size, Children, Total;
    var unlet, body := Unlet(now, n, left), now[n].kind.body;
    LetParts(before, rank, n);
    SizeOf(before, rank, n);
    if left == [] {
      LetParts(now, rank, n);
      LetChildren(now[n].kind);
      assert Copies(now, rank, n, body, unlet[n].kind);
      CopySize(now, rank, n, body, unlet[n]);
      assert Parts([], body) == [body];
      TotalOfOne(now, rank, UnitCost(), map[], body);
      CostNames(now, rank, 0, body);
    } else {
      ShortenedSize(now, rank, n, left);
    }
  }

  lemma ShortenedSize(now: Arena, rank: seq<nat>, n: ExpressionId, left: seq<Binding>)
    requires Acyclic(now, rank) && n < |now| && now[n].kind.Let? && !now[n].kind.recursive && now[n].kind.body < |now|
    requires left != [] && Within(left, now[n].kind.bindings) && InArena(now, Parts(left, now[n].kind.body))
    ensures Acyclic(Unlet(now, n, left), rank)
    ensures Size(Unlet(now, n, left), rank, n) == 1 + ScopeSize(now, rank, left, now[n].kind.body)
  {
    hide Size, Children;
    var unlet, body := Unlet(now, n, left), now[n].kind.body;
    var e := unlet[n];
    assert unlet == With(now, n, e);
    ShortenedIsLower(now, rank, n, e.kind);
    OverwriteIsAcyclic(now, rank, n, e);
    SizeOf(unlet, rank, n);
    LetParts(unlet, rank, n);
    var parts := Parts(left, body);
    forall k | 0 <= k < |parts|
      ensures Cost(unlet, rank, UnitCost(), map[], parts[k]) == Cost(now, rank, UnitCost(), map[], parts[k])
    {
      assert parts[k] == Children(e.kind)[k];
      OverwriteBelow(now, rank, Additive(UnitCost()), map[], n, e, parts[k]);
    }
    hide Cost;
    assert Costs(unlet, rank, UnitCost(), map[], parts) == Costs(now, rank, UnitCost(), map[], parts);
  }

  // Rewriting a `let` never makes it larger, and every binding inlined makes it smaller, shared
  // parts counted as often as they occur.
  lemma LetShrinks(before: Arena, now: Arena, after: Arena, rank: seq<nat>, n: ExpressionId, left: seq<Binding>, position: EffectPosition, globals: set<GlobalId>)
    requires n < |before| && LetRewrittenVia(before, now, after, rank, n, left, position, globals)
    ensures Acyclic(before, rank) && Acyclic(after, rank) && |after| == |before| && before[n].kind.Let?
    ensures Size(after, rank, n) + (|before[n].kind.bindings| - |left|) <= Size(before, rank, n)
  {
    hide BoundsBelow, BoundsUnique, Reduces, NotFree, Size, Children, Total, NoneInlinable, FoldAt, Lower;
    UnletShrinks(before, now, rank, n, left);
    FoldShrinks(Unlet(now, n, left), rank, n);
  }

  // ---------------------------------------------------------------- inlining repeats no work

  // One evaluation of a `let`: its bindings to values, and its body where the `let` stands.
  ghost predicate PossibleScope(arena: Arena, rank: seq<nat>, scope: LetScope, evaluations: seq<Evaluation>)
    requires Acyclic(arena, rank) && InArena(arena, Parts(scope.bindings, scope.body))
  {
    var parts := Parts(scope.bindings, scope.body);
    && |evaluations| == |parts|
    && (forall k :: 0 <= k < |parts| ==> Possible(arena, rank, parts[k], evaluations[k]))
    && (forall k :: 0 <= k < |parts| ==> evaluations[k].mode == ModeOf(if k < |scope.bindings| then Constructed else scope.position))
  }

  // A use of the local in the `let` is in an asynchronous program.
  ghost predicate ScopeBelowAsync(arena: Arena, rank: seq<nat>, scope: LetScope, x: LocalId)
    requires Acyclic(arena, rank) && InArena(arena, Parts(scope.bindings, scope.body))
  {
    exists k: nat :: k < |Parts(scope.bindings, scope.body)| && BelowAsync(arena, rank, Parts(scope.bindings, scope.body)[k], x)
  }

  ghost function ScopeReads(arena: Arena, rank: seq<nat>, parts: seq<ExpressionId>, x: LocalId, evaluations: seq<Evaluation>): (r: seq<nat>)
    requires Acyclic(arena, rank) && InArena(arena, parts) && |evaluations| == |parts|
    ensures |r| == |parts|
  {
    seq(|parts|, k requires 0 <= k < |parts| => Reads(arena, rank, x, parts[k], evaluations[k]))
  }

  // A binding that is neither captured nor in an asynchronous program is read at most as often as it occurs.
  lemma ScopeReadsAreUses(arena: Arena, rank: seq<nat>, scope: LetScope, x: LocalId, evaluations: seq<Evaluation>)
    requires Acyclic(arena, rank) && InArena(arena, Parts(scope.bindings, scope.body))
    requires !ScopeCaptures(arena, rank, scope, x) && !ScopeBelowAsync(arena, rank, scope, x) && PossibleScope(arena, rank, scope, evaluations)
    ensures Sum(ScopeReads(arena, rank, Parts(scope.bindings, scope.body), x, evaluations)) <= ScopeUses(arena, rank, scope, x)
  {
    hide Children, Uses, Sum, Captured, Possible, BelowAsync, Reads, Cost;
    var parts := Parts(scope.bindings, scope.body);
    PartsOf(scope.bindings, scope.body);
    var counts, uses := ScopeReads(arena, rank, parts, x, evaluations), Costs(arena, rank, UseCost(x), map[], parts);
    forall k: nat | k < |parts|
      ensures counts[k] <= uses[k]
    {
      var position := if k < |scope.bindings| then Constructed else scope.position;
      assert k < |scope.bindings| ==> !CapturedAt(arena, rank, Visit(scope.bindings[k].expression, Constructed, false), x);
      assert !Captured(arena, rank, parts[k], position, false, x);
      ReadsAreUses(arena, rank, x, parts[k], position, evaluations[k]);
      CostsAre(arena, rank, x, parts, k);
    }
    SumIsLess(counts, uses);
  }

  // A binding that is inlined, and neither trivial nor a function nor used in an asynchronous
  // program, is read at most once whenever the `let` is evaluated, so that what it stands for is
  // evaluated no more often than before.
  lemma InlinedIsReadOnce(arena: Arena, rank: seq<nat>, scope: LetScope, binding: Binding, globals: set<GlobalId>, evaluations: seq<Evaluation>)
    requires Acyclic(arena, rank) && InArena(arena, Parts(scope.bindings, scope.body)) && binding.expression < |arena|
    requires Inlinable(arena, rank, scope, binding, globals) && PossibleScope(arena, rank, scope, evaluations)
    requires !IsTrivial(globals, arena[binding.expression].kind) && !IsAbstraction(arena[binding.expression].kind)
    requires !ScopeBelowAsync(arena, rank, scope, binding.parameter)
    ensures Sum(ScopeReads(arena, rank, Parts(scope.bindings, scope.body), binding.parameter, evaluations)) <= 1
  {
    hide ScopeUses, ScopeCaptures, PossibleScope, ScopeReads, Sum, Simple, IsTrivial, ScopeBelowAsync;
    ScopeReadsAreUses(arena, rank, scope, binding.parameter, evaluations);
  }

  // Nothing but an allocation can be noticed of a binding that a `let` loses, and if it is neither
  // trivial nor a function nor used in an asynchronous program, it was read at most once whenever
  // what was left of the `let` was evaluated.
  lemma RemovedWasReadOnce(before: Arena, now: Arena, after: Arena, rank: seq<nat>, n: ExpressionId, left: seq<Binding>,
                           position: EffectPosition, globals: set<GlobalId>, gone: nat)
    returns (steps: seq<Stage>, i: nat, p: nat)
    requires n < |before| && LetRewrittenVia(before, now, after, rank, n, left, position, globals)
    requires before[n].kind.Let? && gone < |before[n].kind.bindings| && before[n].kind.bindings[gone] !in left
    ensures RemovedBy(steps, before, now, rank, before[n].kind.bindings, left, before[n].kind.body, position, globals)
    ensures i + 1 < |steps| && InlineStep(steps[i], steps[i + 1], p, rank, before[n].kind.body, position, globals)
    ensures steps[i].left[p] == before[n].kind.bindings[gone]
    ensures ReadOnce(steps[i], p, rank, before[n].kind.body, position, globals)
  {
    hide Inlining, Shrinks, NoneInlinable, FoldAt, ReadOnce, InlineStep;
    var all, body := before[n].kind.bindings, before[n].kind.body;
    steps :| RemovedBy(steps, before, now, rank, all, left, body, position, globals);
    i, p := RemovedAt(steps, |steps| - 1, rank, body, position, globals, all[gone]);
    StepReadsOnce(steps[i], steps[i + 1], p, rank, body, position, globals);
  }

  ghost predicate ReadOnce(a: Stage, p: nat, rank: seq<nat>, body: ExpressionId, position: EffectPosition, globals: set<GlobalId>) {
    && Acyclic(a.arena, rank) && InArena(a.arena, Parts(a.left, body)) && p < |a.left| && a.left[p].expression < |a.arena|
    && Quiet(a.arena, rank, globals, a.left[p].expression)
    && var scope, kind := LetScope(a.left, body, position), a.arena[a.left[p].expression].kind;
       IsTrivial(globals, kind) || IsAbstraction(kind) || ScopeBelowAsync(a.arena, rank, scope, a.left[p].parameter) ||
       forall evaluations :: PossibleScope(a.arena, rank, scope, evaluations) ==>
         Sum(ScopeReads(a.arena, rank, Parts(a.left, body), a.left[p].parameter, evaluations)) <= 1
  }

  lemma StepReadsOnce(a: Stage, b: Stage, p: nat, rank: seq<nat>, body: ExpressionId, position: EffectPosition, globals: set<GlobalId>)
    requires InlineStep(a, b, p, rank, body, position, globals)
    ensures ReadOnce(a, p, rank, body, position, globals)
  {
    hide Acyclic, InArena, Inlinable, SubstitutedAll, Sum, ScopeReads, Possible, ScopeBelowAsync, IsTrivial, Quiet;
    var scope, binding := LetScope(a.left, body, position), a.left[p];
    assert Inlinable(a.arena, rank, scope, binding, globals);
    InlinedIsQuiet(a.arena, rank, scope, binding, globals);
    var kind := a.arena[binding.expression].kind;
    if !IsTrivial(globals, kind) && !IsAbstraction(kind) && !ScopeBelowAsync(a.arena, rank, scope, binding.parameter) {
      forall evaluations | PossibleScope(a.arena, rank, scope, evaluations)
        ensures Sum(ScopeReads(a.arena, rank, Parts(a.left, body), binding.parameter, evaluations)) <= 1
      {
        InlinedIsReadOnce(a.arena, rank, scope, binding, globals, evaluations);
      }
    }
  }

  // A binding that was there at first and is not in the end was removed at some step.
  lemma {:induction false} RemovedAt(steps: seq<Stage>, last: nat, rank: seq<nat>, body: ExpressionId, position: EffectPosition, globals: set<GlobalId>, binding: Binding)
    returns (i: nat, p: nat)
    requires InlineRun(steps, rank, body, position, globals) && last < |steps|
    requires binding in steps[0].left && binding !in steps[last].left
    ensures i < last && InlineStep(steps[i], steps[i + 1], p, rank, body, position, globals) && steps[i].left[p] == binding
  {
    hide InlineStep, InlineRun;
    var k := last - 1;
    var q := StepOf(steps, k, rank, body, position, globals);
    if binding in steps[k].left {
      i, p := k, q;
      OnlyOneGone(steps[k], steps[k + 1], q, rank, body, position, globals, binding);
    } else {
      i, p := RemovedAt(steps, k, rank, body, position, globals, binding);
    }
  }

  lemma StepOf(steps: seq<Stage>, k: nat, rank: seq<nat>, body: ExpressionId, position: EffectPosition, globals: set<GlobalId>) returns (p: nat)
    requires InlineRun(steps, rank, body, position, globals) && k + 1 < |steps|
    ensures InlineStep(steps[k], steps[k + 1], p, rank, body, position, globals)
  {
    hide InlineStep;
    assert InlineStepAt(steps, k, rank, body, position, globals);
    p :| InlineStep(steps[k], steps[k + 1], p, rank, body, position, globals);
  }

  lemma OnlyOneGone(a: Stage, b: Stage, p: nat, rank: seq<nat>, body: ExpressionId, position: EffectPosition, globals: set<GlobalId>, binding: Binding)
    requires InlineStep(a, b, p, rank, body, position, globals) && binding in a.left && binding !in b.left
    ensures a.left[p] == binding
  {
    hide Acyclic, InArena, Inlinable, SubstitutedAll;
    var j: nat :| j < |a.left| && a.left[j] == binding;
    if j != p {
      OthersAreLeft(a.left, p, j);
    }
  }

  lemma OthersAreLeft(left: seq<Binding>, p: nat, j: nat)
    requires p < |left| && j < |left| && j != p
    ensures left[j] in Without(left, p)
  {
    assert Without(left, p)[if j < p then j else j - 1] == left[j];
  }
}
