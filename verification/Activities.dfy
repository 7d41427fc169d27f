// What evaluating an expression does besides producing a value, and why that lets the optimizer
// move simple expressions (compiler-backend/functional/src/optimize.rs).
module Activities {
  import opened FunctionalTree
  import opened TreeFolds
  import opened Substitutions
  import opened Evaluations
  import opened Optimizer

  // What can be noticed of an evaluation: something new is allocated, a function is called, a
  // branch is chosen, a local is bound, a record is copied, an effect is made or run, or a global
  // is read that may not be initialized yet.
  datatype Activity = Allocating | Calling | Branching | Naming | Copying | Acting | ReadingEarly

  // What the evaluation of an expression does itself, its parts apart. `globals` are those that
  // depend on themselves.
  function ActivitiesOf(globals: set<GlobalId>, kind: ExpressionKind): set<Activity> {
    match kind
    case LiteralKind(_) => {}
    case ArrayKind(_) => {Allocating}
    case ArrayConcatenation(_) => {Allocating}
    case Record(_) => {Allocating}
    case RecordUpdateKind(_, _) => {Allocating, Copying}
    case Project(_, _) => {}
    case Unary(_, _) => {}
    case Binary(_, _, _) => {}
    case Index(_, _) => {}
    case Constructor(_) => {}
    case Global(global) => if global in globals then {ReadingEarly} else {}
    case Local(_) => {}
    case Abstraction(_, _) => {Allocating}
    case UncurriedAbstraction(_, _) => {Allocating}
    case Application(_, _, _) => {Calling}
    case UncurriedApplication(_, _, _) => {Calling}
    case IfThenElse(_, _, _) => {Branching}
    case Case(_, _) => {Branching}
    case Guarded(_) => {Branching}
    case Let(_, _, _) => {Naming}
    case LetPattern(_, _, _) => {Naming}
    case Effect(_) => {Acting}
    case Async(_) => {Acting}
    case SynthesizedEvidence(_) => {}
    case TrivialEvidence => {}
  }

  // Something happens in this evaluation of an expression. The body of a function is not part of
  // making the function.
  ghost predicate Does(arena: Arena, rank: seq<nat>, globals: set<GlobalId>, n: ExpressionId, evaluation: Evaluation, activity: Activity)
    requires Acyclic(arena, rank) && n < |arena|
    decreases rank[n], 1
  {
    var kind := arena[n].kind;
    || activity in ActivitiesOf(globals, kind)
    || (!IsAbstraction(kind) && exists k: nat :: k < |Children(kind)| && ChildDoes(arena, rank, globals, kind, rank[n], evaluation, k, activity))
  }

  ghost predicate ChildDoes(arena: Arena, rank: seq<nat>, globals: set<GlobalId>, kind: ExpressionKind, bound: nat, evaluation: Evaluation, k: nat, activity: Activity)
    requires Acyclic(arena, rank) && Lower(rank, Children(kind), bound) && k < |Children(kind)|
    decreases bound, 0
  {
    k < |evaluation.children| &&
    exists j :: 0 <= j < |evaluation.children[k]| && Does(arena, rank, globals, Children(kind)[k], evaluation.children[k][j], activity)
  }

  // However the expression is evaluated, nothing but an allocation can be noticed.
  ghost predicate Quiet(arena: Arena, rank: seq<nat>, globals: set<GlobalId>, n: ExpressionId)
    requires Acyclic(arena, rank) && n < |arena|
  {
    forall evaluation, activity :: Possible(arena, rank, n, evaluation) && Does(arena, rank, globals, n, evaluation, activity) ==>
      activity == Allocating
  }

  // ---------------------------------------------------------------- simple expressions are quiet

  lemma SimpleKinds(globals: set<GlobalId>, kind: ExpressionKind)
    ensures MayBeSimple(globals, kind) <==> ActivitiesOf(globals, kind) <= {Allocating}
    ensures IsTrivial(globals, kind) ==> Children(kind) == []
    ensures IsTransparent(kind) ==> MayBeSimple(globals, kind) && !IsAbstraction(kind)
  {
    if !MayBeSimple(globals, kind) {
      assert exists a :: a in ActivitiesOf(globals, kind) && a != Allocating by {
        assert Calling in ActivitiesOf(globals, kind) || Branching in ActivitiesOf(globals, kind) || Naming in ActivitiesOf(globals, kind)
               || Copying in ActivitiesOf(globals, kind) || Acting in ActivitiesOf(globals, kind) || ReadingEarly in ActivitiesOf(globals, kind);
      }
    }
  }

  // A trivial expression can be evaluated any number of times unnoticed, and those are all that
  // have no parts.
  lemma TrivialIsUnnoticed(globals: set<GlobalId>, kind: ExpressionKind)
    ensures IsTrivial(globals, kind) <==> ActivitiesOf(globals, kind) == {} && Children(kind) == []
  {
    if kind.Application? || kind.UncurriedApplication? {
      assert Calling in ActivitiesOf(globals, kind);
    }
  }

  lemma {:induction false} SimpleDoesNothing(arena: Arena, rank: seq<nat>, globals: set<GlobalId>, n: ExpressionId, evaluation: Evaluation, activity: Activity)
    requires Acyclic(arena, rank) && n < |arena| && Simple(arena, rank, globals, n)
    requires Possible(arena, rank, n, evaluation) && Does(arena, rank, globals, n, evaluation, activity)
    ensures activity == Allocating
    decreases rank[n]
  {
    hide Children, Simple, ActivitiesOf, MayBeSimple, IsTransparent, IsAbstraction, IsTrivial, Shares;
    var kind := arena[n].kind;
    SimpleOf(arena, rank, globals, n);
    SimpleKinds(globals, kind);
    if activity !in ActivitiesOf(globals, kind) {
      var k: nat :| k < |Children(kind)| && ChildDoes(arena, rank, globals, kind, rank[n], evaluation, k, activity);
      var j :| 0 <= j < |evaluation.children[k]| && Does(arena, rank, globals, Children(kind)[k], evaluation.children[k][j], activity);
      SimpleParts(globals, kind);
      assert Possible(arena, rank, Children(kind)[k], evaluation.children[k][j]);
      SimpleDoesNothing(arena, rank, globals, Children(kind)[k], evaluation.children[k][j], activity);
    }
  }

  lemma SimpleParts(globals: set<GlobalId>, kind: ExpressionKind)
    requires MayBeSimple(globals, kind) && !IsAbstraction(kind) && Children(kind) != []
    ensures IsTransparent(kind)
  {
  }

  // ---------------------------------------------------------------- quiet expressions are simple

  lemma ShareCount(kind: ExpressionKind, mode: Mode)
    ensures |Shares(kind, mode)| == |Children(kind)|
  {
    if !kind.Async? {
      var position := if mode.Run? then Executed else Constructed;
      SharesAgree(kind, position);
      EvaluationCount(kind, position);
    }
  }

  lemma TransparentShares(kind: ExpressionKind)
    requires IsTransparent(kind)
    ensures forall k :: 0 <= k < |Shares(kind, Evaluated)| ==> Shares(kind, Evaluated)[k] == AtMostOnce(Evaluated)
  {
  }

  // An evaluation that goes into none of the parts.
  function Shallow(children: nat): Evaluation {
    Evaluation(Evaluated, Repeat(children, []))
  }

  // An expression that is not simple can be noticed.
  lemma {:induction false} NotSimpleDoes(arena: Arena, rank: seq<nat>, globals: set<GlobalId>, n: ExpressionId) returns (evaluation: Evaluation, activity: Activity)
    requires Acyclic(arena, rank) && n < |arena| && !Simple(arena, rank, globals, n)
    ensures Possible(arena, rank, n, evaluation) && evaluation.mode == Evaluated
    ensures Does(arena, rank, globals, n, evaluation, activity) && activity != Allocating
    decreases rank[n]
  {
    hide Children, Simple, ActivitiesOf, MayBeSimple, IsTransparent, IsAbstraction, IsTrivial, Shares;
    var kind := arena[n].kind;
    var children := Children(kind);
    SimpleOf(arena, rank, globals, n);
    SimpleKinds(globals, kind);
    ShareCount(kind, Evaluated);
    if !MayBeSimple(globals, kind) {
      activity :| activity in ActivitiesOf(globals, kind) && activity != Allocating;
      evaluation := Shallow(|children|);
    } else {
      var k: nat :| k < |children| && !Simple(arena, rank, globals, children[k]);
      var part: Evaluation;
      part, activity := NotSimpleDoes(arena, rank, globals, children[k]);
      evaluation := Evaluation(Evaluated, Repeat(|children|, [])[k := [part]]);
      TransparentShares(kind);
      assert evaluation.children[k][0] == part;
      assert ChildDoes(arena, rank, globals, kind, rank[n], evaluation, k, activity);
    }
  }

  // An expression is simple exactly if its evaluation makes no call, chooses no branch, runs no
  // effect, binds and copies nothing, and reads no global too early, function bodies apart.
  lemma SimpleIsQuiet(arena: Arena, rank: seq<nat>, globals: set<GlobalId>, n: ExpressionId)
    requires Acyclic(arena, rank) && n < |arena|
    ensures Simple(arena, rank, globals, n) <==> Quiet(arena, rank, globals, n)
  {
    hide Simple, Possible, Does;
    if Simple(arena, rank, globals, n) {
      forall evaluation, activity | Possible(arena, rank, n, evaluation) && Does(arena, rank, globals, n, evaluation, activity)
        ensures activity == Allocating
      {
        SimpleDoesNothing(arena, rank, globals, n, evaluation, activity);
      }
    } else {
      var evaluation, activity := NotSimpleDoes(arena, rank, globals, n);
    }
  }

  // ---------------------------------------------------------------- what is inlined

  lemma TrivialIsSimple(arena: Arena, rank: seq<nat>, globals: set<GlobalId>, n: ExpressionId)
    requires Acyclic(arena, rank) && n < |arena| && IsTrivial(globals, arena[n].kind)
    ensures Simple(arena, rank, globals, n)
  {
    hide Children, Simple;
    SimpleOf(arena, rank, globals, n);
  }

  // What is inlined may be evaluated later, again or not at all: nothing but an allocation can be
  // noticed of it, and not even that if it may be read more than once outside of a function.
  lemma InlinedIsQuiet(arena: Arena, rank: seq<nat>, scope: LetScope, binding: Binding, globals: set<GlobalId>)
    requires Acyclic(arena, rank) && InArena(arena, Parts(scope.bindings, scope.body)) && binding.expression < |arena|
    requires Inlinable(arena, rank, scope, binding, globals)
    ensures Quiet(arena, rank, globals, binding.expression)
    ensures ScopeUses(arena, rank, scope, binding.parameter) > 1 ==>
              ActivitiesOf(globals, arena[binding.expression].kind) == {} && Children(arena[binding.expression].kind) == []
  {
    hide Simple, Quiet, ScopeCaptures, ScopeUses, ActivitiesOf, Children, IsTrivial, IsAbstraction;
    var kind := arena[binding.expression].kind;
    if IsTrivial(globals, kind) {
      TrivialIsSimple(arena, rank, globals, binding.expression);
    }
    TrivialIsUnnoticed(globals, kind);
    SimpleIsQuiet(arena, rank, globals, binding.expression);
  }
}
