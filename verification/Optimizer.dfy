// Inlining of simple `let` bindings and folding of negations
// (compiler-backend/functional/src/optimize.rs). The ghost `rank` that runs through shows that
// the arena is acyclic; it decreases from an expression to its children, and from a local that a
// `let` binds to what it is bound to.
module Optimizer {
  import opened Numbers
  import opened FunctionalTree
  import opened TreeFolds
  import opened Rewrites
  import opened Meanings
  import opened Substitutions
  import opened Evaluations
  import opened Wrappers

  // ---------------------------------------------------------------- counting uses

  // Counts the occurrences of a local, a shared one as often as it is reached.
  method LocalUses(arena: Arena, ghost rank: seq<nat>, expression: ExpressionId, parameter: LocalId) returns (uses: nat)
    requires Acyclic(arena, rank) && expression < |arena|
    ensures uses == Uses(arena, rank, parameter, expression)
  {
    hide Children, Shape, Acyclic, Total, Uses;
    uses := 0;
    var pending := [expression];
    StartUses(arena, rank, parameter, expression);
    while pending != []
      invariant InArena(arena, pending)
      invariant uses + Total(arena, rank, UseCost(parameter), map[], pending) == Uses(arena, rank, parameter, expression)
      decreases Total(arena, rank, UnitCost(), map[], pending)
    {
      var current := pending[|pending| - 1];
      var kind := arena[current].kind;
      UseStep(arena, rank, parameter, pending);
      if kind.Local? && kind.local == parameter {
        pending := pending[..|pending| - 1];
        uses := uses + 1;
        continue;
      }
      pending := pending[..|pending| - 1] + Backward(Children(kind));
    }
    NothingPending(arena, rank, UseCost(parameter));
  }

  lemma StartUses(arena: Arena, rank: seq<nat>, x: LocalId, n: ExpressionId)
    requires Acyclic(arena, rank) && n < |arena|
    ensures Total(arena, rank, UseCost(x), map[], [n]) == Uses(arena, rank, x, n)
  {
    TotalOfOne(arena, rank, UseCost(x), map[], n);
  }

  lemma NothingPending(arena: Arena, rank: seq<nat>, cost: ExpressionKind -> nat)
    requires Acyclic(arena, rank)
    ensures Total(arena, rank, cost, map[], []) == 0
  {
  }

  lemma UseStep(arena: Arena, rank: seq<nat>, x: LocalId, pending: seq<ExpressionId>)
    requires Acyclic(arena, rank) && InArena(arena, pending) && pending != []
    ensures var front, kind := pending[..|pending| - 1], arena[pending[|pending| - 1]].kind;
            && InArena(arena, front) && InArena(arena, Entered(arena, pending))
            && Total(arena, rank, UnitCost(), map[], front) < Total(arena, rank, UnitCost(), map[], pending)
            && Total(arena, rank, UnitCost(), map[], Entered(arena, pending)) < Total(arena, rank, UnitCost(), map[], pending)
            && Total(arena, rank, UseCost(x), map[], pending) ==
               if kind == Local(x) then 1 + Total(arena, rank, UseCost(x), map[], front)
               else Total(arena, rank, UseCost(x), map[], Entered(arena, pending))
  {
    hide Children, Total;
    var last := pending[|pending| - 1];
    DropLast(arena, rank, UnitCost(), map[], pending);
    EnterCosts(arena, rank, UnitCost(), map[], pending);
    DropLast(arena, rank, UseCost(x), map[], pending);
    EnterCosts(arena, rank, UseCost(x), map[], pending);
    CostOf(arena, rank, UnitCost(), map[], last);
    if arena[last].kind == Local(x) {
      CostOf(arena, rank, UseCost(x), map[], last);
      NoChildren(arena, rank, UseCost(x), x);
      NothingPending(arena, rank, UseCost(x));
    } else {
      NotLocalShape(arena[last].kind, x);
    }
  }

  // ---------------------------------------------------------------- what may be inlined

  predicate IsTrivial(globals: set<GlobalId>, kind: ExpressionKind) {
    match kind
    case LiteralKind(_) => true
    case Constructor(_) => true
    case Local(_) => true
    case SynthesizedEvidence(_) => true
    case TrivialEvidence => true
    case Global(global) => global !in globals
    case _ => false
  }

  predicate IsAbstraction(kind: ExpressionKind) {
    kind.Abstraction? || kind.UncurriedAbstraction?
  }

  // A simple expression is simple when its children are.
  predicate IsTransparent(kind: ExpressionKind) {
    || kind.ArrayKind? || kind.ArrayConcatenation? || kind.Record? || kind.Project?
    || kind.Unary? || kind.Binary? || kind.Index?
  }

  predicate MayBeSimple(globals: set<GlobalId>, kind: ExpressionKind) {
    IsTrivial(globals, kind) || IsAbstraction(kind) || IsTransparent(kind)
  }

  ghost function SimpleAlgebra(globals: set<GlobalId>): Algebra<bool> {
    (kind: ExpressionKind, parts: seq<bool>) =>
      MayBeSimple(globals, kind) && (IsTransparent(kind) ==> forall k :: 0 <= k < |parts| ==> parts[k])
  }

  // Built from trivial expressions and abstractions by projections, literals and operators.
  ghost predicate Simple(arena: Arena, rank: seq<nat>, globals: set<GlobalId>, n: ExpressionId)
    requires Acyclic(arena, rank) && n < |arena|
  {
    Fold(arena, rank, SimpleAlgebra(globals), map[], n)
  }

  ghost predicate AllSimple(arena: Arena, rank: seq<nat>, globals: set<GlobalId>, list: seq<ExpressionId>)
    requires Acyclic(arena, rank) && InArena(arena, list)
  {
    forall k :: 0 <= k < |list| ==> Simple(arena, rank, globals, list[k])
  }

  lemma SimpleOf(arena: Arena, rank: seq<nat>, globals: set<GlobalId>, n: ExpressionId)
    requires Acyclic(arena, rank) && n < |arena|
    ensures var kind := arena[n].kind;
            && InArena(arena, Children(kind))
            && (Simple(arena, rank, globals, n) <==>
                MayBeSimple(globals, kind) && (IsTransparent(kind) ==> AllSimple(arena, rank, globals, Children(kind))))
  {
    SimpleShape(globals, arena[n].kind);
    hide Children, Shape, MayBeSimple, IsTransparent;
    var kind := arena[n].kind;
    var parts := FoldAll(arena, rank, SimpleAlgebra(globals), map[], Children(kind), rank[n]);
    assert forall k :: 0 <= k < |parts| ==> parts[k] == Simple(arena, rank, globals, Children(kind)[k]);
    assert Simple(arena, rank, globals, n) == FoldKind(arena, rank, SimpleAlgebra(globals), map[], kind, rank[n]);
    assert FoldKind(arena, rank, SimpleAlgebra(globals), map[], kind, rank[n]) == SimpleAlgebra(globals)(Shape(kind), parts);
  }

  lemma SimpleShape(globals: set<GlobalId>, kind: ExpressionKind)
    ensures MayBeSimple(globals, Shape(kind)) == MayBeSimple(globals, kind)
    ensures IsTransparent(Shape(kind)) == IsTransparent(kind)
  {
  }

  method IsSimpleExpression(arena: Arena, ghost rank: seq<nat>, expression: ExpressionId, globals: set<GlobalId>) returns (simple: bool)
    requires Acyclic(arena, rank) && expression < |arena|
    ensures simple == Simple(arena, rank, globals, expression)
  {
    hide Children, Shape, Acyclic, Total, Simple, MayBeSimple, IsTransparent;
    var pending := [expression];
    assert pending[0] == expression;
    while pending != []
      invariant InArena(arena, pending)
      invariant Simple(arena, rank, globals, expression) <==> AllSimple(arena, rank, globals, pending)
      decreases Total(arena, rank, UnitCost(), map[], pending)
    {
      var kind := arena[pending[|pending| - 1]].kind;
      UseStep(arena, rank, 0, pending);
      SimpleStep(arena, rank, globals, pending);
      if !MayBeSimple(globals, kind) {
        return false;
      }
      if IsTransparent(kind) {
        pending := pending[..|pending| - 1] + Backward(Children(kind));
      } else {
        pending := pending[..|pending| - 1];
      }
    }
    return true;
  }

  lemma SimpleStep(arena: Arena, rank: seq<nat>, globals: set<GlobalId>, pending: seq<ExpressionId>)
    requires Acyclic(arena, rank) && InArena(arena, pending) && pending != []
    ensures var front, kind := pending[..|pending| - 1], arena[pending[|pending| - 1]].kind;
            && InArena(arena, front) && InArena(arena, Entered(arena, pending))
            && (AllSimple(arena, rank, globals, pending) <==>
                MayBeSimple(globals, kind) &&
                AllSimple(arena, rank, globals, if IsTransparent(kind) then Entered(arena, pending) else front))
  {
    hide Children, Simple, MayBeSimple, IsTransparent;
    var front, last := pending[..|pending| - 1], pending[|pending| - 1];
    var children := Children(arena[last].kind);
    SimpleOf(arena, rank, globals, last);
    assert pending == front + [last];
    assert AllSimple(arena, rank, globals, pending) <==> AllSimple(arena, rank, globals, front) && Simple(arena, rank, globals, last);
    SimpleBackward(arena, rank, globals, front, children);
  }

  lemma SimpleBackward(arena: Arena, rank: seq<nat>, globals: set<GlobalId>, front: seq<ExpressionId>, children: seq<ExpressionId>)
    requires Acyclic(arena, rank) && InArena(arena, front) && InArena(arena, children)
    ensures InArena(arena, front + Backward(children))
    ensures AllSimple(arena, rank, globals, front + Backward(children)) <==>
            AllSimple(arena, rank, globals, front) && AllSimple(arena, rank, globals, children)
  {
    hide Simple, Acyclic;
    var list := front + Backward(children);
    forall k | 0 <= k < |children| && AllSimple(arena, rank, globals, list)
      ensures Simple(arena, rank, globals, children[k])
    {
      assert list[|front| + |children| - 1 - k] == children[k];
    }
    forall k | 0 <= k < |front| && AllSimple(arena, rank, globals, list)
      ensures Simple(arena, rank, globals, front[k])
    {
      assert list[k] == front[k];
    }
  }

  // A trivial expression consists of itself only.
  lemma TrivialSize(arena: Arena, rank: seq<nat>, globals: set<GlobalId>, n: ExpressionId)
    requires Acyclic(arena, rank) && n < |arena| && IsTrivial(globals, arena[n].kind)
    ensures Size(arena, rank, n) == 1
  {
    assert Children(arena[n].kind) == [];
    hide Children;
    CostOf(arena, rank, UnitCost(), map[], n);
    NothingPending(arena, rank, UnitCost());
  }

  // ---------------------------------------------------------------- substitution

  lemma BoundRanksAbove(arena: Arena, rank: seq<nat>, x: LocalId, e: ExpressionId)
    requires WellFormed(arena, rank) && Bound(arena, x, e)
    ensures RanksAbove(arena, rank, x, e)
  {
    hide Bound;
    BoundInArena(arena, rank, x, e);
  }

  // A `let` is no occurrence of a local, so that it keeps its bindings.
  lemma BoundStays(before: Arena, after: Arena, x: LocalId, e: ExpressionId, y: LocalId, d: ExpressionId)
    requires Substituted(before, after, x, e) && Bound(before, y, d)
    ensures Bound(after, y, d)
  {
    var n: ExpressionId :| n < |before| && Binds(before[n].kind, y, d);
    assert SubstitutedAt(before, after, x, e, n);
    assert Binds(after[n].kind, y, d);
  }

  // What holds while `x` is substituted by `e` below `root`.
  ghost predicate Substituting(before: Arena, now: Arena, rank: seq<nat>, x: LocalId, e: ExpressionId, root: ExpressionId,
                               done: set<ExpressionId>, pending: seq<ExpressionId>)
  {
    && WellFormed(now, rank) && Reduces(before, now, rank) && Substituted(before, now, x, e) && Bound(now, x, e)
    && RanksAbove(before, rank, x, e) && RanksAbove(now, rank, x, e)
    && InArena(now, pending) && Cleared(now, rank, x, e, done, pending) && (root in done || root in pending)
  }

  // How much is left to visit, if `x` counts as much as what it is substituted by.
  ghost function Remaining(now: Arena, rank: seq<nat>, x: LocalId, w: nat, pending: seq<ExpressionId>): nat
    requires Acyclic(now, rank) && InArena(now, pending)
  {
    Total(now, rank, UnitCost(), map[x := w], pending)
  }

  // The expression that replaces an occurrence of the bound local.
  function Replacement(arena: Arena, n: ExpressionId, binding: Binding): Expression
    requires n < |arena| && binding.expression < |arena|
  {
    var bound := arena[binding.expression];
    Expression(bound.kind, if binding.origin.Some? then arena[n].origin else Or(bound.origin, arena[n].origin))
  }

  method ReplaceLocal(storage: Storage, expression: ExpressionId, binding: Binding)
    requires expression < |storage.expressions| && binding.expression < |storage.expressions|
    modifies storage
    ensures storage.expressions == With(old(storage.expressions), expression, Replacement(old(storage.expressions), expression, binding))
  {
    if binding.origin.Some? {
      storage.ReplaceExpressionKind(expression, storage.expressions[binding.expression].kind);
    } else {
      storage.ReplaceExpression(expression, binding.expression);
    }
  }

  // Replaces every occurrence of the bound local below an expression. None is left there, and
  // nothing else changes.
  method SubstituteLocal(storage: Storage, ghost rank: seq<nat>, root: ExpressionId, binding: Binding)
    requires WellFormed(storage.expressions, rank) && root < |storage.expressions|
    requires Bound(storage.expressions, binding.parameter, binding.expression)
    modifies storage
    ensures WellFormed(storage.expressions, rank) && Reduces(old(storage.expressions), storage.expressions, rank)
    ensures |storage.expressions| == |old(storage.expressions)|
    ensures Substituted(old(storage.expressions), storage.expressions, binding.parameter, binding.expression)
    ensures Uses(storage.expressions, rank, binding.parameter, root) == 0
  {
    hide Children, WellFormed, Acyclic, Substituting, Remaining, InArena, Size, Uses, Bound, Substituted, Reduces, RanksAbove, With, Replacement;
    ghost var before := storage.expressions;
    var x, e := binding.parameter, binding.expression;
    WellFormedIsAcyclic(before, rank);
    BoundRanksAbove(before, rank, x, e);
    RanksBelow(before, rank, x, e);
    ghost var w := Size(before, rank, e);
    var pending := [root];
    ghost var done: set<ExpressionId> := {};
    StartSubstituting(before, rank, x, e, root);
    SubstitutingFits(before, before, rank, x, e, root, done, pending);
    while pending != []
      invariant Substituting(before, storage.expressions, rank, x, e, root, done, pending)
      invariant Acyclic(storage.expressions, rank) && InArena(storage.expressions, pending)
      decreases Remaining(storage.expressions, rank, x, w, pending)
    {
      ghost var now := storage.expressions;
      var expression := pending[|pending| - 1];
      SubstitutingFits(before, now, rank, x, e, root, done, pending);
      var kind := storage.expressions[expression].kind;
      if kind.Local? && kind.local == x {
        SubstituteStep(before, now, rank, binding, root, done, pending);
        ReplaceLocal(storage, expression, binding);
        pending := pending[..|pending| - 1];
      } else {
        EnterStep(before, now, rank, x, e, root, done, pending);
        pending := pending[..|pending| - 1] + Backward(Children(kind));
      }
      done := done + {expression};
    }
    SubstitutingFits(before, storage.expressions, rank, x, e, root, done, pending);
    DoneSubstituting(before, storage.expressions, rank, x, e, root, done);
  }

  lemma StartSubstituting(before: Arena, rank: seq<nat>, x: LocalId, e: ExpressionId, root: ExpressionId)
    requires WellFormed(before, rank) && root < |before| && Bound(before, x, e) && RanksAbove(before, rank, x, e)
    ensures Substituting(before, before, rank, x, e, root, {}, [root])
  {
    hide Bound, WellFormed;
    ReducesToItself(before, rank);
    assert forall m :: 0 <= m < |before| ==> SubstitutedAt(before, before, x, e, m);
  }

  lemma SubstitutingFits(before: Arena, now: Arena, rank: seq<nat>, x: LocalId, e: ExpressionId, root: ExpressionId,
                         done: set<ExpressionId>, pending: seq<ExpressionId>)
    requires Substituting(before, now, rank, x, e, root, done, pending)
    ensures Acyclic(now, rank) && InArena(now, pending) && e < |now| == |before|
    ensures pending != [] ==> pending[|pending| - 1] < |now|
  {
    hide Bound, BoundsBelow, BoundsUnique, Cleared, Substituted, Reduces;
  }

  lemma DoneSubstituting(before: Arena, now: Arena, rank: seq<nat>, x: LocalId, e: ExpressionId, root: ExpressionId, done: set<ExpressionId>)
    requires Substituting(before, now, rank, x, e, root, done, [])
    ensures WellFormed(now, rank) && Reduces(before, now, rank) && Substituted(before, now, x, e)
    ensures root < |now| && Uses(now, rank, x, root) == 0
  {
    hide Bound, BoundsBelow, BoundsUnique, Substituted, Reduces, Uses, Children;
    ClearedHasNoUse(now, rank, x, e, done, root);
  }

  lemma EnterStep(before: Arena, now: Arena, rank: seq<nat>, x: LocalId, e: ExpressionId, root: ExpressionId,
                  done: set<ExpressionId>, pending: seq<ExpressionId>)
    requires Substituting(before, now, rank, x, e, root, done, pending) && pending != [] && Acyclic(now, rank) && InArena(now, pending)
    requires now[pending[|pending| - 1]].kind != Local(x)
    ensures var last := pending[|pending| - 1];
            && InArena(now, Entered(now, pending))
            && Substituting(before, now, rank, x, e, root, done + {last}, Entered(now, pending))
            && forall w: nat :: Remaining(now, rank, x, w, Entered(now, pending)) < Remaining(now, rank, x, w, pending)
  {
    hide Children, Bound, BoundsBelow, BoundsUnique, Substituted, Reduces, Total, RanksAbove;
    RanksBelow(now, rank, x, e);
    var last := pending[|pending| - 1];
    EnterCosts(now, rank, UnitCost(), map[], pending);
    forall w: nat
      ensures Remaining(now, rank, x, w, Entered(now, pending)) < Remaining(now, rank, x, w, pending)
    {
      EnterCosts(now, rank, UnitCost(), map[x := w], pending);
    }
    EnteredMembers(now, pending);
    assert ClearedAt(now, x, done + {last}, Entered(now, pending), last);
    forall m | m in done
      ensures m < |now| && (now[m].kind == now[e].kind || ClearedAt(now, x, done + {last}, Entered(now, pending), m))
    {
      assert now[m].kind == now[e].kind || ClearedAt(now, x, done, pending, m);
    }
  }

  // What is entered is still pending, except the last, whose children are.
  lemma EnteredMembers(arena: Arena, pending: seq<ExpressionId>)
    requires pending != [] && InArena(arena, pending)
    ensures forall m :: m in pending ==> m == pending[|pending| - 1] || m in Entered(arena, pending)
    ensures forall m :: m in Children(arena[pending[|pending| - 1]].kind) ==> m in Entered(arena, pending)
  {
    hide Children;
    var front, last := pending[..|pending| - 1], pending[|pending| - 1];
    var children := Children(arena[last].kind);
    assert pending == front + [last];
    assert forall m :: m in front ==> m in front + Backward(children);
    forall m | m in children
      ensures m in front + Backward(children)
    {
      var k :| 0 <= k < |children| && children[k] == m;
      assert Backward(children)[|children| - 1 - k] == m;
    }
  }

  // In an environment where `x` costs what `e` costs, `e` keeps its cost.
  lemma CostOfSource(before: Arena, now: Arena, rank: seq<nat>, x: LocalId, e: ExpressionId)
    requires Acyclic(before, rank) && RanksAbove(before, rank, x, e) && Substituted(before, now, x, e)
    ensures Acyclic(now, rank) && Cost(now, rank, UnitCost(), map[x := Size(before, rank, e)], e) == Size(before, rank, e)
  {
    hide Substituted;
    var w := Size(before, rank, e);
    NoUseBelow(before, rank, x, e, e);
    CostWithoutUses(before, rank, UnitCost(), x, w, e);
    SubstitutedFolds<nat>(before, now, rank, Additive(UnitCost()), map[x := w], x, e, e);
  }

  lemma RemainingSame(now: Arena, after: Arena, rank: seq<nat>, x: LocalId, e: ExpressionId, w: nat, list: seq<ExpressionId>)
    requires Acyclic(now, rank) && RanksAbove(now, rank, x, e) && Substituted(now, after, x, e) && InArena(now, list)
    requires Cost(now, rank, UnitCost(), map[x := w], e) == w
    ensures Acyclic(after, rank) && InArena(after, list) && Remaining(after, rank, x, w, list) == Remaining(now, rank, x, w, list)
  {
    hide SubstitutedAt, Sum;
    SubstitutedIsAcyclic(now, after, rank, x, e);
    var env: map<LocalId, nat> := map[x := w];
    forall k | 0 <= k < |list|
      ensures Cost(after, rank, UnitCost(), env, list[k]) == Cost(now, rank, UnitCost(), env, list[k])
    {
      SubstitutedFolds<nat>(now, after, rank, Additive(UnitCost()), env, x, e, list[k]);
    }
    assert Costs(after, rank, UnitCost(), env, list) == Costs(now, rank, UnitCost(), env, list);
  }

  lemma SizeIsPositive(arena: Arena, rank: seq<nat>, n: ExpressionId)
    requires Acyclic(arena, rank) && n < |arena|
    ensures Size(arena, rank, n) > 0
  {
    CostOf(arena, rank, UnitCost(), map[], n);
  }

  lemma SubstituteRemaining(before: Arena, now: Arena, after: Arena, rank: seq<nat>, x: LocalId, e: ExpressionId, pending: seq<ExpressionId>)
    requires Acyclic(before, rank) && RanksAbove(before, rank, x, e) && Substituted(before, now, x, e)
    requires Acyclic(now, rank) && RanksAbove(now, rank, x, e) && Substituted(now, after, x, e)
    requires InArena(now, pending) && pending != [] && now[pending[|pending| - 1]].kind == Local(x)
    ensures var front, w := pending[..|pending| - 1], Size(before, rank, e);
            && Acyclic(after, rank) && InArena(after, front)
            && Remaining(after, rank, x, w, front) < Remaining(now, rank, x, w, pending)
  {
    hide Children, Substituted, RanksAbove;
    RanksBelow(before, rank, x, e);
    var front, last, w := pending[..|pending| - 1], pending[|pending| - 1], Size(before, rank, e);
    CostOfSource(before, now, rank, x, e);
    DropLast(now, rank, UnitCost(), map[x := w], pending);
    CostOf(now, rank, UnitCost(), map[x := w], last);
    SizeIsPositive(before, rank, e);
    RemainingSame(now, after, rank, x, e, w, front);
  }

  lemma OneSubstitution(now: Arena, rank: seq<nat>, n: ExpressionId, x: LocalId, e: ExpressionId, expression: Expression)
    requires n < |now| && e < |now| && now[n].kind == Local(x) && expression.kind == now[e].kind
    ensures Substituted(now, With(now, n, expression), x, e)
  {
    assert forall m :: 0 <= m < |now| ==> SubstitutedAt(now, With(now, n, expression), x, e, m);
  }

  lemma SubstituteStep(before: Arena, now: Arena, rank: seq<nat>, binding: Binding, root: ExpressionId,
                       done: set<ExpressionId>, pending: seq<ExpressionId>)
    requires Substituting(before, now, rank, binding.parameter, binding.expression, root, done, pending) && pending != []
    requires Acyclic(before, rank) && Acyclic(now, rank) && InArena(now, pending) && binding.expression < |now| == |before|
    requires now[pending[|pending| - 1]].kind == Local(binding.parameter)
    ensures var front, last, x, e := pending[..|pending| - 1], pending[|pending| - 1], binding.parameter, binding.expression;
            var after, w := With(now, last, Replacement(now, last, binding)), Size(before, rank, e);
            && Acyclic(after, rank) && InArena(after, front)
            && Substituting(before, after, rank, x, e, root, done + {last}, front)
            && Remaining(after, rank, x, w, front) < Remaining(now, rank, x, w, pending)
  {
    hide Children, Bound, BoundsBelow, BoundsUnique, Substituted, RanksAbove, Size, Remaining, IsRewrite, Cleared;
    var front, last, x, e := pending[..|pending| - 1], pending[|pending| - 1], binding.parameter, binding.expression;
    var replacement := Replacement(now, last, binding);
    var after := With(now, last, replacement);
    OneSubstitution(now, rank, last, x, e, replacement);
    SubstituteRemaining(before, now, after, rank, x, e, pending);
    SubstitutedOn(before, now, after, rank, x, e);
    SubstitutedKeepsSource(now, after, rank, x, e);
    BoundStays(now, after, x, e, x, e);
    SubstituteRewrites(now, rank, last, x, e, replacement);
    ReducesNext(before, now, after, rank);
    ClearedNext(now, after, rank, x, e, done, pending);
  }

  lemma SubstituteRewrites(now: Arena, rank: seq<nat>, n: ExpressionId, x: LocalId, e: ExpressionId, expression: Expression)
    requires WellFormed(now, rank) && Bound(now, x, e) && n < |now| && e < |now| && now[n].kind == Local(x) && expression.kind == now[e].kind
    ensures WellFormed(With(now, n, expression), rank) && Rewritten(now, With(now, n, expression), rank)
  {
    hide Bound, BoundsBelow, BoundsUnique, Acyclic;
    assert Substitutes(now, n, expression.kind, e);
    RewriteIsWellFormed(now, rank, n, expression);
    assert RewrittenAt(now, With(now, n, expression), rank, n, expression);
  }

  lemma ClearedNext(now: Arena, after: Arena, rank: seq<nat>, x: LocalId, e: ExpressionId, done: set<ExpressionId>, pending: seq<ExpressionId>)
    requires e < |now| && Cleared(now, rank, x, e, done, pending) && pending != [] && pending[|pending| - 1] < |now| == |after|
    requires var last := pending[|pending| - 1]; after == now[last := after[last]] && after[last].kind == now[e].kind && after[e] == now[e]
    ensures Cleared(after, rank, x, e, done + {pending[|pending| - 1]}, pending[..|pending| - 1])
  {
    hide Children;
    var front, last := pending[..|pending| - 1], pending[|pending| - 1];
    assert pending == front + [last];
    forall m | m in done + {last}
      ensures m < |after| && (after[m].kind == after[e].kind || ClearedAt(after, x, done + {last}, front, m))
    {
      if m != last {
        assert now[m].kind == now[e].kind || ClearedAt(now, x, done, pending, m);
      }
    }
  }

  // ---------------------------------------------------------------- negation

  // What an expression becomes when it is a negation that can be folded.
  function FoldedKind(arena: Arena, n: ExpressionId): Option<ExpressionKind>
    requires n < |arena|
  {
    var kind := arena[n].kind;
    if !kind.Unary? || kind.value >= |arena| then None
    else
      var value := arena[kind.value].kind;
      if kind.unary == BooleanNot && value.Unary? && value.unary == BooleanNot && value.value < |arena| then Some(arena[value.value].kind)
      else
        var literal := FoldedNegation(arena, kind.unary, kind.value);
        if literal.Some? then Some(LiteralKind(literal.value)) else None
  }

  // There is a negation to fold: of the negation of a boolean, of an integer whose opposite is
  // within 32 bits once it is cut to them, or of a number.
  ghost predicate Foldable(arena: Arena, n: ExpressionId)
    requires n < |arena|
  {
    && arena[n].kind.Unary? && arena[n].kind.value < |arena|
    && match (arena[n].kind.unary, arena[arena[n].kind.value].kind)
       case (BooleanNot, Unary(BooleanNot, e)) => e < |arena|
       case (IntegerNegate, LiteralKind(Integer(i))) => FitsInteger32(i) || i == INTEGER_LIMIT
       case (NumberNegate, LiteralKind(Number(_))) => true
       case _ => false
  }

  // Just those negations are folded, an integer to its opposite in 32 bits, and a number to its opposite.
  lemma FoldsExactly(arena: Arena, n: ExpressionId)
    requires n < |arena|
    ensures FoldedKind(arena, n).Some? <==> Foldable(arena, n)
    ensures FoldedKind(arena, n).None? ==> FoldAt(arena, n) == arena
    ensures FoldedKind(arena, n).Some? ==>
              && FoldAt(arena, n) == arena[n := FoldAt(arena, n)[n]]
              && var before, after := arena[arena[n].kind.value].kind, FoldAt(arena, n)[n].kind;
                 match arena[n].kind.unary
                 case BooleanNot => after == arena[before.value].kind
                 case IntegerNegate => after == LiteralKind(Integer(NegatedModulo(before.literal.integer)))
                 case NumberNegate => after.LiteralKind? && after.literal.Number? && NumberOf(after.literal.digits) == Opposite(NumberOf(before.literal.digits))
                 case _ => false
  {
    hide NumberOf, Opposite;
    if Foldable(arena, n) {
      var value := arena[arena[n].kind.value].kind;
      if arena[n].kind.unary == IntegerNegate {
        NegationWraps(value.literal.integer);
      } else if arena[n].kind.unary == NumberNegate {
        NegatedIsOpposite(value.literal.digits);
      }
    }
  }

  // The arena with a negation folded.
  function FoldAt(arena: Arena, n: ExpressionId): Arena
    requires n < |arena|
  {
    var kind, becomes := arena[n].kind, FoldedKind(arena, n);
    if becomes.None? then arena
    else if becomes.value.LiteralKind? && FoldedNegation(arena, kind.unary, kind.value).Some? then
      arena[n := Expression(becomes.value, arena[n].origin)]
    else
      arena[n := Expression(becomes.value, Or(arena[arena[kind.value].kind.value].origin, arena[n].origin))]
  }

  lemma UnaryInArena(arena: Arena, rank: seq<nat>)
    requires Acyclic(arena, rank)
    ensures forall m :: 0 <= m < |arena| && arena[m].kind.Unary? ==> arena[m].kind.value < |arena| && rank[arena[m].kind.value] < rank[m]
  {
    forall m | 0 <= m < |arena| && arena[m].kind.Unary?
      ensures arena[m].kind.value < |arena| && rank[arena[m].kind.value] < rank[m]
    {
      UnaryChildren(arena[m].kind);
      hide Children;
      assert Children(arena[m].kind)[0] == arena[m].kind.value;
    }
  }

  lemma FoldRewrites(arena: Arena, rank: seq<nat>, n: ExpressionId, e: Expression)
    requires WellFormed(arena, rank) && n < |arena| && Negates(arena, n, e.kind)
    ensures WellFormed(With(arena, n, e), rank) && Rewritten(arena, With(arena, n, e), rank)
  {
    hide Bound, BoundsBelow, BoundsUnique, Acyclic, Negates;
    RewriteIsWellFormed(arena, rank, n, e);
    assert RewrittenAt(arena, With(arena, n, e), rank, n, e);
  }

  // Folds a negation, and says whether there was one to fold.
  method FoldNegation(storage: Storage, ghost rank: seq<nat>, expression: ExpressionId) returns (folded: bool)
    requires WellFormed(storage.expressions, rank) && expression < |storage.expressions|
    modifies storage
    ensures WellFormed(storage.expressions, rank) && Reduces(old(storage.expressions), storage.expressions, rank)
    ensures storage.expressions == FoldAt(old(storage.expressions), expression)
    ensures folded == FoldedKind(old(storage.expressions), expression).Some?
  {
    ghost var before := storage.expressions;
    WellFormedIsAcyclic(before, rank);
    UnaryInArena(before, rank);
    ReducesToItself(before, rank);
    hide WellFormed, Acyclic, Reduces;
    var kind := storage.expressions[expression].kind;
    if !kind.Unary? {
      return false;
    }
    var operator, value := kind.unary, kind.value;
    var inner := storage.expressions[value].kind;
    if operator == BooleanNot && inner.Unary? && inner.unary == BooleanNot {
      storage.ReplaceExpression(expression, inner.value);
      FoldRewrites(before, rank, expression, storage.expressions[expression]);
      ReducesNext(before, before, storage.expressions, rank);
      return true;
    }
    var literal := FoldedNegation(storage.expressions, operator, value);
    if literal.None? {
      return false;
    }
    storage.ReplaceExpressionKind(expression, LiteralKind(literal.value));
    FoldRewrites(before, rank, expression, storage.expressions[expression]);
    ReducesNext(before, before, storage.expressions, rank);
    return true;
  }

  // ---------------------------------------------------------------- which bindings are inlined

  // The bindings of a `let` that are left, its body, and where an effect in the body stands.
  datatype LetScope = LetScope(bindings: seq<Binding>, body: ExpressionId, position: EffectPosition)

  function Parts(bindings: seq<Binding>, body: ExpressionId): seq<ExpressionId> {
    BindingChildren(bindings) + [body]
  }

  ghost function ScopeUses(arena: Arena, rank: seq<nat>, scope: LetScope, x: LocalId): nat
    requires Acyclic(arena, rank) && InArena(arena, Parts(scope.bindings, scope.body))
  {
    Total(arena, rank, UseCost(x), map[], Parts(scope.bindings, scope.body))
  }

  ghost predicate ScopeCaptures(arena: Arena, rank: seq<nat>, scope: LetScope, x: LocalId)
    requires Acyclic(arena, rank) && InArena(arena, Parts(scope.bindings, scope.body))
  {
    || (exists k: nat :: k < |scope.bindings| && CapturedAt(arena, rank, Visit(scope.bindings[k].expression, Constructed, false), x))
    || CapturedAt(arena, rank, Visit(scope.body, scope.position, false), x)
  }

  // A binding that is used is inlined if that copies no more than a single expression, or if it
  // is used once, is simple, and is evaluated at most once where it is used.
  ghost predicate Inlinable(arena: Arena, rank: seq<nat>, scope: LetScope, binding: Binding, globals: set<GlobalId>)
    requires Acyclic(arena, rank) && InArena(arena, Parts(scope.bindings, scope.body)) && binding.expression < |arena|
  {
    var uses := ScopeUses(arena, rank, scope, binding.parameter);
    var kind := arena[binding.expression].kind;
    && uses > 0
    && (|| IsTrivial(globals, kind)
        || (&& uses == 1 && Simple(arena, rank, globals, binding.expression)
            && (IsAbstraction(kind) || !ScopeCaptures(arena, rank, scope, binding.parameter))))
  }

  lemma PartsOf(bindings: seq<Binding>, body: ExpressionId)
    ensures |Parts(bindings, body)| == |bindings| + 1 && Parts(bindings, body)[|bindings|] == body
    ensures forall k :: 0 <= k < |bindings| ==> Parts(bindings, body)[k] == bindings[k].expression
  {
  }

  method BindingUses(arena: Arena, ghost rank: seq<nat>, scope: LetScope, parameter: LocalId) returns (uses: nat)
    requires Acyclic(arena, rank) && InArena(arena, Parts(scope.bindings, scope.body))
    ensures uses == ScopeUses(arena, rank, scope, parameter)
  {
    hide Children, Acyclic, Total, Uses;
    var bindings := scope.bindings;
    PartsOf(bindings, scope.body);
    uses := 0;
    NothingPending(arena, rank, UseCost(parameter));
    assert BindingChildren(bindings)[..0] == [];
    for k := 0 to |bindings|
      invariant uses == Total(arena, rank, UseCost(parameter), map[], BindingChildren(bindings)[..k])
    {
      var count := LocalUses(arena, rank, bindings[k].expression, parameter);
      assert bindings[k].expression == Parts(bindings, scope.body)[k];
      MoreUses(arena, rank, parameter, BindingChildren(bindings)[..k], bindings[k].expression);
      assert BindingChildren(bindings)[..k + 1] == BindingChildren(bindings)[..k] + [bindings[k].expression];
      uses := uses + count;
    }
    assert BindingChildren(bindings)[..|bindings|] == BindingChildren(bindings);
    var count := LocalUses(arena, rank, scope.body, parameter);
    MoreUses(arena, rank, parameter, BindingChildren(bindings), scope.body);
    uses := uses + count;
  }

  lemma MoreUses(arena: Arena, rank: seq<nat>, x: LocalId, list: seq<ExpressionId>, n: ExpressionId)
    requires Acyclic(arena, rank) && InArena(arena, list) && n < |arena|
    ensures InArena(arena, list + [n])
    ensures Total(arena, rank, UseCost(x), map[], list + [n]) == Total(arena, rank, UseCost(x), map[], list) + Uses(arena, rank, x, n)
  {
    TotalOfBoth(arena, rank, UseCost(x), map[], list, [n]);
    TotalOfOne(arena, rank, UseCost(x), map[], n);
  }

  method BindingIsCaptured(arena: Arena, ghost rank: seq<nat>, scope: LetScope, parameter: LocalId) returns (captured: bool)
    requires Acyclic(arena, rank) && InArena(arena, Parts(scope.bindings, scope.body))
    ensures captured == ScopeCaptures(arena, rank, scope, parameter)
  {
    hide Children, Acyclic, Captured;
    PartsOf(scope.bindings, scope.body);
    for k := 0 to |scope.bindings|
      invariant forall j: nat :: j < k ==> !CapturedAt(arena, rank, Visit(scope.bindings[j].expression, Constructed, false), parameter)
    {
      var expression := scope.bindings[k].expression;
      assert expression == Parts(scope.bindings, scope.body)[k];
      captured := LocalIsCaptured(arena, rank, expression, Constructed, parameter);
      if captured {
        assert CapturedAt(arena, rank, Visit(expression, Constructed, false), parameter);
        return true;
      }
    }
    assert scope.body == Parts(scope.bindings, scope.body)[|scope.bindings|];
    captured := LocalIsCaptured(arena, rank, scope.body, scope.position, parameter);
  }

  method ShouldInlineBinding(arena: Arena, ghost rank: seq<nat>, scope: LetScope, binding: Binding, globals: set<GlobalId>) returns (r: bool)
    requires Acyclic(arena, rank) && InArena(arena, Parts(scope.bindings, scope.body)) && binding.expression < |arena|
    ensures r == Inlinable(arena, rank, scope, binding, globals)
  {
    hide Children, Acyclic, ScopeUses, Simple, ScopeCaptures;
    var uses := BindingUses(arena, rank, scope, binding.parameter);
    if uses == 0 {
      return false;
    }
    if IsTrivial(globals, arena[binding.expression].kind) {
      return true;
    }
    if uses > 1 {
      return false;
    }
    var simple := IsSimpleExpression(arena, rank, binding.expression, globals);
    if !simple {
      return false;
    }
    if IsAbstraction(arena[binding.expression].kind) {
      return true;
    }
    var captured := BindingIsCaptured(arena, rank, scope, binding.parameter);
    return !captured;
  }

  // The first binding that is to be inlined.
  method FindInlinable(arena: Arena, ghost rank: seq<nat>, scope: LetScope, globals: set<GlobalId>) returns (found: Option<nat>)
    requires Acyclic(arena, rank) && InArena(arena, Parts(scope.bindings, scope.body))
    ensures forall k :: 0 <= k < |scope.bindings| ==> scope.bindings[k].expression < |arena|
    ensures found.Some? ==> found.value < |scope.bindings| && Inlinable(arena, rank, scope, scope.bindings[found.value], globals)
    ensures forall k :: 0 <= k < (if found.Some? then found.value else |scope.bindings|) ==>
              !Inlinable(arena, rank, scope, scope.bindings[k], globals)
  {
    hide Acyclic, Inlinable;
    PartsOf(scope.bindings, scope.body);
    assert forall k :: 0 <= k < |scope.bindings| ==> scope.bindings[k].expression == Parts(scope.bindings, scope.body)[k];
    for k := 0 to |scope.bindings|
      invariant forall j :: 0 <= j < k ==> !Inlinable(arena, rank, scope, scope.bindings[j], globals)
    {
      var inline := ShouldInlineBinding(arena, rank, scope, scope.bindings[k], globals);
      if inline {
        return Some(k);
      }
    }
    return None;
  }
}
