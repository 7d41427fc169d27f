// What an expression of an arena means, and that sequences of rewrites keep it
// (compiler-backend/functional/src/optimize.rs).
module Meanings {
  import opened Numbers
  import opened FunctionalTree
  import opened TreeFolds
  import opened Rewrites
  import opened Wrappers

  // ---------------------------------------------------------------- free locals decide

  // A free local is bound to an expression that ranks below.
  lemma {:induction false} FreeRank(arena: Arena, rank: seq<nat>, n: ExpressionId, y: LocalId, d: ExpressionId)
    requires WellFormed(arena, rank) && n < |arena| && y in Free(arena, rank, n) && Bound(arena, y, d)
    ensures d < |arena| && rank[d] < rank[n]
    decreases rank[n]
  {
    hide Children, Free, FreeKind, FreeInChildren, Bound, BoundsBelow, BoundsUnique;
    var kind := arena[n].kind;
    FreeOf(arena, rank, n);
    FreeInKind(arena, rank, kind, rank[n]);
    if kind.Local? {
      BoundBelow(arena, rank, y, d, n);
    } else {
      InChildren(arena, rank, kind, rank[n], y);
      var k :| 0 <= k < |Children(kind)| && y in Free(arena, rank, Children(kind)[k]);
      FreeRank(arena, rank, Children(kind)[k], y, d);
    }
  }

  ghost predicate AgreeOn<D>(a: map<LocalId, D>, b: map<LocalId, D>, locals: set<LocalId>) {
    forall y :: y in locals ==> SameAt(a, b, y)
  }

  // Two consistent environments that agree on the free locals of an expression give it the same
  // meaning: what a `let` binds is decided by the `let`.
  lemma {:induction false} FreeDecides<D>(arena: Arena, rank: seq<nat>, alg: Algebra<D>, a: map<LocalId, D>, b: map<LocalId, D>, n: ExpressionId)
    requires WellFormed(arena, rank) && Consistent(arena, rank, alg, a) && Consistent(arena, rank, alg, b)
    requires n < |arena| && AgreeOn(a, b, Free(arena, rank, n))
    ensures Fold(arena, rank, alg, a, n) == Fold(arena, rank, alg, b, n)
    decreases rank[n], 0
  {
    hide Children, Free, FreeKind, FreeInChildren, Bound, BoundsBelow, BoundsUnique, Consistent;
    var kind := arena[n].kind;
    var children := Children(kind);
    FreeOf(arena, rank, n);
    FreeInKind(arena, rank, kind, rank[n]);
    if kind.Local? {
      assert SameAt(a, b, kind.local);
      LocalFolds(arena, rank, alg, a, n);
      LocalFolds(arena, rank, alg, b, n);
    } else {
      if kind.Let? && !kind.recursive {
        BindingsDecide(arena, rank, alg, a, b, n);
      }
      assert AgreeOn(a, b, FreeInChildren(arena, rank, kind, rank[n]));
      forall k | 0 <= k < |children|
        ensures Fold(arena, rank, alg, a, children[k]) == Fold(arena, rank, alg, b, children[k])
      {
        ChildAgrees(arena, rank, a, b, kind, rank[n], k);
        FreeDecides(arena, rank, alg, a, b, children[k]);
      }
      assert FoldAll(arena, rank, alg, a, children, rank[n]) == FoldAll(arena, rank, alg, b, children, rank[n]);
    }
  }

  lemma LocalFolds<D>(arena: Arena, rank: seq<nat>, alg: Algebra<D>, env: map<LocalId, D>, n: ExpressionId)
    requires Acyclic(arena, rank) && n < |arena| && arena[n].kind.Local?
    ensures var x := arena[n].kind.local;
            Fold(arena, rank, alg, env, n) == if x in env then env[x] else alg(Local(x), [])
  {
    var kind := arena[n].kind;
    assert Children(kind) == [] && Shape(kind) == kind;
    assert FoldAll(arena, rank, alg, env, [], rank[n]) == [];
  }

  lemma ChildAgrees<D>(arena: Arena, rank: seq<nat>, a: map<LocalId, D>, b: map<LocalId, D>, kind: ExpressionKind, bound: nat, k: nat)
    requires Acyclic(arena, rank) && Lower(rank, Children(kind), bound) && k < |Children(kind)|
    requires AgreeOn(a, b, FreeInChildren(arena, rank, kind, bound))
    ensures AgreeOn(a, b, Free(arena, rank, Children(kind)[k]))
  {
    hide Children, Free, FreeInChildren;
    forall y | y in Free(arena, rank, Children(kind)[k])
      ensures SameAt(a, b, y)
    {
      InChildren(arena, rank, kind, bound, y);
    }
  }

  // The environments agree on what a `let` binds.
  lemma {:induction false} BindingsDecide<D>(arena: Arena, rank: seq<nat>, alg: Algebra<D>, a: map<LocalId, D>, b: map<LocalId, D>, n: ExpressionId)
    requires WellFormed(arena, rank) && Consistent(arena, rank, alg, a) && Consistent(arena, rank, alg, b)
    requires n < |arena| && arena[n].kind.Let? && !arena[n].kind.recursive
    requires AgreeOn(a, b, FreeInChildren(arena, rank, arena[n].kind, rank[n]) - Parameters(arena[n].kind.bindings))
    ensures AgreeOn(a, b, FreeInChildren(arena, rank, arena[n].kind, rank[n]))
    decreases rank[n], 0, 0
  {
    hide Children, Free, FreeKind, FreeInChildren, Bound, BoundsBelow, BoundsUnique, Consistent;
    var bindings := arena[n].kind.bindings;
    LetChildren(arena[n].kind);
    forall x | x in Parameters(bindings)
      ensures SameAt(a, b, x)
    {
      var k :| 0 <= k < |bindings| && bindings[k].parameter == x;
      assert Children(arena[n].kind)[k] == bindings[k].expression;
      BindingDecides(arena, rank, alg, a, b, n, k);
    }
  }

  lemma {:induction false} BindingDecides<D>(arena: Arena, rank: seq<nat>, alg: Algebra<D>, a: map<LocalId, D>, b: map<LocalId, D>, n: ExpressionId, k: nat)
    requires WellFormed(arena, rank) && Consistent(arena, rank, alg, a) && Consistent(arena, rank, alg, b)
    requires n < |arena| && arena[n].kind.Let? && !arena[n].kind.recursive && k < |arena[n].kind.bindings|
    requires arena[n].kind.bindings[k].expression < |arena|
    requires AgreeOn(a, b, FreeInChildren(arena, rank, arena[n].kind, rank[n]) - Parameters(arena[n].kind.bindings))
    ensures SameAt(a, b, arena[n].kind.bindings[k].parameter)
    decreases rank[arena[n].kind.bindings[k].expression], 1
  {
    hide Children, Free, FreeKind, FreeInChildren, BoundsBelow, BoundsUnique;
    var bindings := arena[n].kind.bindings;
    var x, e := bindings[k].parameter, bindings[k].expression;
    assert BindsAt(arena[n].kind, k, x, e);
    assert Bound(arena, x, e);
    LetChildren(arena[n].kind);
    forall y | y in Free(arena, rank, e)
      ensures SameAt(a, b, y)
    {
      InChildren(arena, rank, arena[n].kind, rank[n], y);
      if y in Parameters(bindings) {
        var j: nat :| j < |bindings| && bindings[j].parameter == y;
        assert BindsAt(arena[n].kind, j, y, bindings[j].expression);
        assert Bound(arena, y, bindings[j].expression);
        FreeRank(arena, rank, e, y, bindings[j].expression);
        BindingDecides(arena, rank, alg, a, b, n, j);
      }
    }
    FreeDecides(arena, rank, alg, a, b, e);
  }

  // ---------------------------------------------------------------- the environment of an arena

  ghost function BoundByKind(kind: ExpressionKind): set<LocalId> {
    if kind.Let? && !kind.recursive then Parameters(kind.bindings) else {}
  }

  // The locals bound by a `let` of the arena that is not recursive.
  ghost function BoundLocals(arena: Arena): (locals: set<LocalId>)
    ensures forall x :: x in locals <==> exists n :: 0 <= n < |arena| && x in BoundByKind(arena[n].kind)
  {
    if arena == [] then {}
    else
      var last := |arena| - 1;
      assert arena == arena[..last] + [arena[last]];
      BoundLocals(arena[..last]) + BoundByKind(arena[last].kind)
  }

  lemma BoundIsListed(arena: Arena, x: LocalId)
    ensures x in BoundLocals(arena) <==> exists e: ExpressionId :: Bound(arena, x, e)
  {
    if x in BoundLocals(arena) {
      var n: ExpressionId :| n < |arena| && x in BoundByKind(arena[n].kind);
      var k: nat :| k < |arena[n].kind.bindings| && arena[n].kind.bindings[k].parameter == x;
      assert BindsAt(arena[n].kind, k, x, arena[n].kind.bindings[k].expression);
      assert Bound(arena, x, arena[n].kind.bindings[k].expression);
    }
    if e: ExpressionId :| Bound(arena, x, e) {
      var n: ExpressionId :| n < |arena| && Binds(arena[n].kind, x, e);
      var k: nat :| BindsAt(arena[n].kind, k, x, e);
      assert x in BoundByKind(arena[n].kind);
    }
  }

  // What a local is bound to.
  ghost function Definition(arena: Arena, rank: seq<nat>, x: LocalId): (e: ExpressionId)
    requires Acyclic(arena, rank) && x in BoundLocals(arena)
    ensures Bound(arena, x, e) && e < |arena|
  {
    BoundIsListed(arena, x);
    var e: ExpressionId :| Bound(arena, x, e);
    BoundInArena(arena, rank, x, e);
    e
  }

  // What the locals stand for whose definitions rank below a bound.
  ghost function EnvironmentBelow<D>(arena: Arena, rank: seq<nat>, alg: Algebra<D>, bound: nat): map<LocalId, D>
    requires Acyclic(arena, rank)
    decreases bound
  {
    map x | x in BoundLocals(arena) && rank[Definition(arena, rank, x)] < bound ::
      Fold(arena, rank, alg, EnvironmentBelow(arena, rank, alg, rank[Definition(arena, rank, x)]), Definition(arena, rank, x))
  }

  ghost function Environment<D>(arena: Arena, rank: seq<nat>, alg: Algebra<D>): map<LocalId, D>
    requires Acyclic(arena, rank)
  {
    map x | x in BoundLocals(arena) ::
      Fold(arena, rank, alg, EnvironmentBelow(arena, rank, alg, rank[Definition(arena, rank, x)]), Definition(arena, rank, x))
  }

  lemma EnvironmentAt<D>(arena: Arena, rank: seq<nat>, alg: Algebra<D>, bound: nat, y: LocalId)
    requires Acyclic(arena, rank) && (y in BoundLocals(arena) ==> rank[Definition(arena, rank, y)] < bound)
    ensures SameAt(EnvironmentBelow(arena, rank, alg, bound), Environment(arena, rank, alg), y)
  {
    hide Acyclic, BoundLocals, Definition, Fold;
  }

  lemma EnvironmentAgrees<D>(arena: Arena, rank: seq<nat>, alg: Algebra<D>, e: ExpressionId)
    requires WellFormed(arena, rank) && e < |arena|
    ensures Fold(arena, rank, alg, EnvironmentBelow(arena, rank, alg, rank[e]), e) == Fold(arena, rank, alg, Environment(arena, rank, alg), e)
  {
    hide Lower, Bound, BoundsBelow, BoundsUnique, BoundLocals, Definition, Fold, Environment, EnvironmentBelow, SameAt;
    var below, env := EnvironmentBelow(arena, rank, alg, rank[e]), Environment(arena, rank, alg);
    forall n | 0 <= n < |arena| && rank[n] < rank[e] + 1 && arena[n].kind.Local?
      ensures SameAt(below, env, arena[n].kind.local)
    {
      var y := arena[n].kind.local;
      if y in BoundLocals(arena) {
        BoundBelow(arena, rank, y, Definition(arena, rank, y), n);
      }
      EnvironmentAt(arena, rank, alg, rank[e], y);
    }
    FoldAgrees(arena, rank, alg, below, env, e, rank[e] + 1);
  }

  // Every arena has an environment in which each bound local stands for what it is bound to.
  lemma EnvironmentIsConsistent<D>(arena: Arena, rank: seq<nat>, alg: Algebra<D>)
    requires WellFormed(arena, rank)
    ensures Consistent(arena, rank, alg, Environment(arena, rank, alg))
    ensures Environment(arena, rank, alg).Keys == BoundLocals(arena)
  {
    var env := Environment(arena, rank, alg);
    hide Children, Bound, BoundLocals, Definition, Fold, EnvironmentBelow;
    forall x: LocalId, e: ExpressionId | Bound(arena, x, e) && e < |arena|
      ensures x in env && env[x] == Fold(arena, rank, alg, env, e)
    {
      BoundIsListed(arena, x);
      BoundOnce(arena, rank, x, e, Definition(arena, rank, x));
      EnvironmentAgrees(arena, rank, alg, e);
    }
  }

  // ---------------------------------------------------------------- meaning

  // What an expression gives when every `let` that is not recursive is expanded.
  ghost function Meaning<D>(arena: Arena, rank: seq<nat>, alg: Algebra<D>, n: ExpressionId): D
    requires Acyclic(arena, rank) && n < |arena|
  {
    Fold(arena, rank, alg, Environment(arena, rank, alg), n)
  }

  // A bound local means what it is bound to.
  lemma MeaningOfLocal<D>(arena: Arena, rank: seq<nat>, alg: Algebra<D>, n: ExpressionId, e: ExpressionId)
    requires WellFormed(arena, rank) && n < |arena| && e < |arena| && arena[n].kind.Local? && Bound(arena, arena[n].kind.local, e)
    ensures Meaning(arena, rank, alg, n) == Meaning(arena, rank, alg, e)
  {
    hide Environment, Bound, BoundsBelow, BoundsUnique;
    EnvironmentIsConsistent(arena, rank, alg);
    LocalFolds(arena, rank, alg, Environment(arena, rank, alg), n);
  }

  // A `let` means what its body means.
  lemma MeaningOfLet<D(!new)>(arena: Arena, rank: seq<nat>, alg: Algebra<D>, boolean: D -> bool, n: ExpressionId)
    requires WellFormed(arena, rank) && Lawful(alg, boolean) && n < |arena| && arena[n].kind.Let? && !arena[n].kind.recursive
    ensures arena[n].kind.body < |arena| && Meaning(arena, rank, alg, n) == Meaning(arena, rank, alg, arena[n].kind.body)
  {
    hide Environment, BoundsBelow, BoundsUnique, Children, Shape;
    LetFolds(arena, rank, alg, boolean, Environment(arena, rank, alg), arena[n].kind, rank[n]);
  }

  // ---------------------------------------------------------------- sequences of rewrites

  ghost predicate Rewritten(before: Arena, after: Arena, rank: seq<nat>) {
    Acyclic(before, rank) && exists n: ExpressionId, e: Expression :: RewrittenAt(before, after, rank, n, e)
  }

  ghost predicate RewrittenAt(before: Arena, after: Arena, rank: seq<nat>, n: ExpressionId, e: Expression)
    requires Acyclic(before, rank)
  {
    n < |before| && IsRewrite(before, rank, n, e.kind) && after == With(before, n, e)
  }

  ghost predicate StepAt(trace: seq<Arena>, rank: seq<nat>, k: nat)
    requires 0 < k < |trace|
  {
    Rewritten(trace[k - 1], trace[k], rank)
  }

  ghost predicate IsTrace(trace: seq<Arena>, rank: seq<nat>, before: Arena, after: Arena) {
    && trace != [] && trace[0] == before && trace[|trace| - 1] == after
    && (forall k: nat :: 0 < k < |trace| ==> StepAt(trace, rank, k))
  }

  // Any number of rewrites lead from one arena to the other.
  ghost predicate Reduces(before: Arena, after: Arena, rank: seq<nat>) {
    exists trace :: IsTrace(trace, rank, before, after)
  }

  lemma ReducesToItself(arena: Arena, rank: seq<nat>)
    ensures Reduces(arena, arena, rank)
  {
    assert IsTrace([arena], rank, arena, arena);
  }

  lemma ReducesNext(before: Arena, middle: Arena, after: Arena, rank: seq<nat>)
    requires Reduces(before, middle, rank) && Rewritten(middle, after, rank)
    ensures Reduces(before, after, rank)
  {
    hide Rewritten;
    var trace :| IsTrace(trace, rank, before, middle);
    var longer := trace + [after];
    forall k: nat | 0 < k < |longer|
      ensures StepAt(longer, rank, k)
    {
      if k < |trace| {
        assert StepAt(trace, rank, k);
      }
    }
    assert IsTrace(longer, rank, before, after);
  }

  lemma ReducesOn(before: Arena, middle: Arena, after: Arena, rank: seq<nat>)
    requires Reduces(before, middle, rank) && Reduces(middle, after, rank)
    ensures Reduces(before, after, rank)
  {
    hide Rewritten;
    var p :| IsTrace(p, rank, before, middle);
    var q :| IsTrace(q, rank, middle, after);
    var trace := p + q[1..];
    forall k: nat | 0 < k < |trace|
      ensures StepAt(trace, rank, k)
    {
      if k < |p| {
        assert StepAt(p, rank, k);
      } else {
        assert StepAt(q, rank, k + 1 - |p|);
      }
    }
    assert IsTrace(trace, rank, before, after);
  }

  lemma {:induction false} TraceIsWellFormed(trace: seq<Arena>, rank: seq<nat>, before: Arena, after: Arena, k: nat)
    requires WellFormed(before, rank) && IsTrace(trace, rank, before, after) && k < |trace|
    ensures WellFormed(trace[k], rank) && |trace[k]| == |before|
  {
    hide WellFormed, IsRewrite, Acyclic;
    if k > 0 {
      TraceIsWellFormed(trace, rank, before, after, k - 1);
      assert StepAt(trace, rank, k);
      var n: ExpressionId, e: Expression :| RewrittenAt(trace[k - 1], trace[k], rank, n, e);
      RewriteIsWellFormed(trace[k - 1], rank, n, e);
    }
  }

  // Rewrites keep an arena well-formed, in particular acyclic.
  lemma ReducesIsWellFormed(before: Arena, after: Arena, rank: seq<nat>)
    requires WellFormed(before, rank) && Reduces(before, after, rank)
    ensures WellFormed(after, rank) && |after| == |before|
  {
    hide WellFormed;
    var trace :| IsTrace(trace, rank, before, after);
    TraceIsWellFormed(trace, rank, before, after, |trace| - 1);
  }

  lemma {:induction false} TraceKeepsFolds<D(!new)>(trace: seq<Arena>, rank: seq<nat>, before: Arena, after: Arena, k: nat, alg: Algebra<D>, boolean: D -> bool, env: map<LocalId, D>, root: ExpressionId)
    requires WellFormed(before, rank) && IsTrace(trace, rank, before, after) && k < |trace| && root < |before|
    requires Lawful(alg, boolean) && Consistent(before, rank, alg, env) && Closed(before, rank, root)
    requires NegatesBooleans(before, rank, alg, env, boolean)
    ensures WellFormed(trace[k], rank) && |trace[k]| == |before| && Consistent(trace[k], rank, alg, env)
    ensures NegatesBooleans(trace[k], rank, alg, env, boolean)
    ensures Fold(trace[k], rank, alg, env, root) == Fold(before, rank, alg, env, root)
    ensures Closed(trace[k], rank, root) && Free(trace[k], rank, root) <= Free(before, rank, root)
  {
    hide Lawful, BoundsBelow, BoundsUnique, Lower, Closed, Consistent, Free, Fold, IsRewrite, NegatesBooleans;
    if k > 0 {
      TraceKeepsFolds(trace, rank, before, after, k - 1, alg, boolean, env, root);
      assert StepAt(trace, rank, k);
      var n: ExpressionId, e: Expression :| RewrittenAt(trace[k - 1], trace[k], rank, n, e);
      RewriteKeepsFolds(trace[k - 1], rank, alg, boolean, env, n, e);
      RewriteKeepsClosed(trace[k - 1], rank, n, e, root);
    }
  }

  // What is negated as a boolean means one.
  ghost predicate BooleansNegated<D>(arena: Arena, rank: seq<nat>, alg: Algebra<D>, boolean: D -> bool)
    requires WellFormed(arena, rank)
  {
    forall m: ExpressionId :: m < |arena| && IsNegation(arena[m].kind) && arena[m].kind.value < |arena| ==>
      boolean(Meaning(arena, rank, alg, arena[m].kind.value))
  }

  // Rewrites keep the meaning of a closed expression, in every interpretation that is lawful.
  lemma ReductionKeepsMeaning<D(!new)>(before: Arena, after: Arena, rank: seq<nat>, alg: Algebra<D>, boolean: D -> bool, root: ExpressionId)
    requires WellFormed(before, rank) && Reduces(before, after, rank) && root < |before| && Closed(before, rank, root)
    requires Lawful(alg, boolean) && BooleansNegated(before, rank, alg, boolean)
    ensures WellFormed(after, rank) && |after| == |before| && Closed(after, rank, root)
    ensures Free(after, rank, root) <= Free(before, rank, root)
    ensures Meaning(after, rank, alg, root) == Meaning(before, rank, alg, root)
  {
    hide Lawful, BoundsBelow, BoundsUnique, Lower, Consistent, Fold, Free, Bound, Environment, BoundLocals;
    var env := Environment(before, rank, alg);
    var trace :| IsTrace(trace, rank, before, after);
    EnvironmentIsConsistent(before, rank, alg);
    TraceKeepsFolds(trace, rank, before, after, |trace| - 1, alg, boolean, env, root);
    hide NegatesBooleans, BooleansNegated;
    EnvironmentIsConsistent(after, rank, alg);
    var own := Environment(after, rank, alg);
    forall y | y in Free(after, rank, root)
      ensures SameAt(env, own, y)
    {
      BoundIsListed(before, y);
      BoundIsListed(after, y);
    }
    FreeDecides(after, rank, alg, env, own, root);
  }

  // ---------------------------------------------------------------- expansion as an interpretation

  datatype Tree = Node(shape: ExpressionKind, parts: seq<Tree>) | NumberLeaf(number: Signed)

  predicate IsNot(t: Tree) {
    t.Node? && t.shape == Unary(BooleanNot, 0) && |t.parts| == 1
  }

  predicate IsIntegerLeaf(t: Tree) {
    t.Node? && t.shape.LiteralKind? && t.shape.literal.Integer? && t.parts == []
  }

  // No boolean is negated twice.
  predicate Normal(t: Tree) {
    t.Node? ==>
      && !(IsNot(t) && IsNot(t.parts[0]))
      && (forall k :: 0 <= k < |t.parts| ==> Normal(t.parts[k]))
  }

  type NormalTree = t: Tree | Normal(t) witness Node(TrivialEvidence, [])

  // The tree that is left when every `let` is expanded and negations are folded, with numbers as
  // they are, however they are spelled.
  function Expand(shape: ExpressionKind, parts: seq<NormalTree>): NormalTree {
    if shape.Let? && !shape.recursive && parts != [] then parts[|parts| - 1]
    else if shape == Unary(BooleanNot, 0) && |parts| == 1 && IsNot(parts[0]) then parts[0].parts[0]
    else if shape == Unary(IntegerNegate, 0) && |parts| == 1 && IsIntegerLeaf(parts[0]) then
      Node(LiteralKind(Integer(NegatedModulo(parts[0].shape.literal.integer))), [])
    else if shape.LiteralKind? && shape.literal.Number? then NumberLeaf(NumberOf(shape.literal.digits))
    else if shape == Unary(NumberNegate, 0) && |parts| == 1 && parts[0].NumberLeaf? then NumberLeaf(Opposite(parts[0].number))
    else Node(shape, parts)
  }

  // Expansion is lawful, so that rewrites keep the expanded tree of a closed expression.
  lemma ExpansionIsLawful()
    ensures Lawful<NormalTree>(Expand, _ => true)
  {
    forall d: NormalTree
      ensures NegatesBoolean<NormalTree>(Expand, d)
    {
    }
  }

  // ---------------------------------------------------------------- a strict interpretation

  datatype Outcome = Truth(truth: bool) | Whole(integer: Integer64) | Decimal(number: Signed) | Fault

  // Evaluation of closed expressions over literals, in which an operator at the wrong type is at
  // fault.
  function Strictly(shape: ExpressionKind, parts: seq<Outcome>): Outcome {
    match shape
    case LiteralKind(Boolean(b)) => Truth(b)
    case LiteralKind(Integer(i)) => Whole(i)
    case LiteralKind(Number(digits)) => Decimal(NumberOf(digits))
    case Let(false, _, _) => if parts != [] then parts[|parts| - 1] else Fault
    case Unary(BooleanNot, _) => if |parts| == 1 && parts[0].Truth? then Truth(!parts[0].truth) else Fault
    case Unary(IntegerNegate, _) => if |parts| == 1 && parts[0].Whole? then Whole(NegatedModulo(parts[0].integer)) else Fault
    case Unary(NumberNegate, _) => if |parts| == 1 && parts[0].Decimal? then Decimal(Opposite(parts[0].number)) else Fault
    case _ => Fault
  }

  // It is lawful, and negation undoes itself exactly on booleans and faults.
  lemma StrictIsLawful(d: Outcome)
    ensures Lawful<Outcome>(Strictly, (o: Outcome) => o.Truth?)
    ensures NegatesBoolean<Outcome>(Strictly, d) <==> d.Truth? || d.Fault?
  {
    forall d: Outcome | d.Truth?
      ensures NegatesBoolean<Outcome>(Strictly, d)
    {
    }
  }
}
