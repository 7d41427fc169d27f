// Why a binding that is captured is not inlined: it can be read more than once
// (compiler-backend/functional/src/optimize.rs).
module CapturedReads {
  import opened FunctionalTree
  import opened TreeFolds
  import opened Substitutions
  import opened Evaluations
  import opened Optimizer
  import opened Activities
  import opened LetInlining
  import opened Wrappers

  // ---------------------------------------------------------------- evaluations of one part

  // An evaluation that goes into one part only.
  function Into(mode: Mode, children: nat, k: nat, turns: seq<Evaluation>): Evaluation
    requires k < children
  {
    Evaluation(mode, Repeat(children, [])[k := turns])
  }

  lemma {:induction false} SumAtOne(s: seq<nat>, k: nat)
    requires k < |s| && forall j :: 0 <= j < |s| && j != k ==> s[j] == 0
    ensures Sum(s) == s[k]
  {
    if k == 0 {
      SumIsZero(s[1..]);
    } else {
      SumAtOne(s[1..], k - 1);
    }
  }

  lemma IntoReads(arena: Arena, rank: seq<nat>, x: LocalId, n: ExpressionId, mode: Mode, k: nat, turns: seq<Evaluation>)
    requires Acyclic(arena, rank) && n < |arena| && arena[n].kind != Local(x) && k < |Children(arena[n].kind)|
    requires |Shares(arena[n].kind, mode)| == |Children(arena[n].kind)| && Allowed(Shares(arena[n].kind, mode)[k], turns)
    requires forall j :: 0 <= j < |turns| ==> Possible(arena, rank, Children(arena[n].kind)[k], turns[j])
    ensures Possible(arena, rank, n, Into(mode, |Children(arena[n].kind)|, k, turns))
    ensures Reads(arena, rank, x, n, Into(mode, |Children(arena[n].kind)|, k, turns))
         == Sum(TurnReads(arena, rank, x, Children(arena[n].kind)[k], turns, rank[n]))
  {
    hide Children, Shares, Sum, Uses;
    var children := Children(arena[n].kind);
    var evaluation := Into(mode, |children|, k, turns);
    var counts := ChildReads(arena, rank, x, n, evaluation);
    forall j | 0 <= j < |counts| && j != k
      ensures counts[j] == 0
    {
      assert evaluation.children[j] == [];
      NoTurns(arena, rank, x, children[j], rank[n]);
    }
    SumAtOne(counts, k);
  }

  lemma NoTurns(arena: Arena, rank: seq<nat>, x: LocalId, child: ExpressionId, bound: nat)
    requires Acyclic(arena, rank) && child < |arena| && rank[child] < bound
    ensures Sum(TurnReads(arena, rank, x, child, [], bound)) == 0
  {
    assert TurnReads(arena, rank, x, child, [], bound) == [];
  }

  lemma TwoTurns(arena: Arena, rank: seq<nat>, x: LocalId, child: ExpressionId, turn: Evaluation, bound: nat)
    requires Acyclic(arena, rank) && child < |arena| && rank[child] < bound
    ensures Sum(TurnReads(arena, rank, x, child, [turn, turn], bound)) == 2 * Reads(arena, rank, x, child, turn)
  {
    var r := Reads(arena, rank, x, child, turn);
    assert TurnReads(arena, rank, x, child, [turn, turn], bound) == [r, r];
    SumOfTwo(r);
  }

  lemma SumOfTwo(r: nat)
    ensures Sum([r, r]) == 2 * r
  {
    assert [r, r][1..] == [r] && [r][1..] == [];
    assert Sum([r, r]) == r + Sum([r]);
  }

  // ---------------------------------------------------------------- captured locals

  lemma SomeChildUses(arena: Arena, rank: seq<nat>, x: LocalId, n: ExpressionId) returns (k: nat)
    requires Acyclic(arena, rank) && n < |arena| && arena[n].kind != Local(x) && Uses(arena, rank, x, n) > 0
    ensures k < |Children(arena[n].kind)| && Children(arena[n].kind)[k] < |arena| && Uses(arena, rank, x, Children(arena[n].kind)[k]) > 0
  {
    hide Children, Uses, Sum;
    var children := Children(arena[n].kind);
    UsesAreSum(arena, rank, x, n);
    var costs := Costs(arena, rank, UseCost(x), map[], children);
    if forall j: nat :: j < |costs| ==> costs[j] == 0 {
      SumIsZero(costs);
    }
    k :| k < |costs| && costs[k] != 0;
    CostsAre(arena, rank, x, children, k);
  }

  // A local that is used can be read.
  lemma {:induction false} UsedCanBeRead(arena: Arena, rank: seq<nat>, x: LocalId, n: ExpressionId, mode: Mode) returns (evaluation: Evaluation)
    requires Acyclic(arena, rank) && n < |arena| && Uses(arena, rank, x, n) > 0
    ensures Possible(arena, rank, n, evaluation) && evaluation.mode == mode && Reads(arena, rank, x, n, evaluation) > 0
    decreases rank[n]
  {
    var kind := arena[n].kind;
    if kind == Local(x) {
      evaluation := Evaluation(mode, []);
    } else {
      hide Children, Uses, Sum, Shares, Possible, Reads;
      var k := SomeChildUses(arena, rank, x, n);
      ShareCount(kind, mode);
      var share := Shares(kind, mode)[k];
      var turn := UsedCanBeRead(arena, rank, x, Children(kind)[k], if share.AtMostOnce? then share.mode else Evaluated);
      IntoReads(arena, rank, x, n, mode, k, [turn]);
      OneTurn(arena, rank, x, Children(kind)[k], [turn], rank[n]);
      evaluation := Into(mode, |Children(kind)|, k, [turn]);
    }
  }

  lemma {:induction false} CapturedIsUsed(arena: Arena, rank: seq<nat>, n: ExpressionId, position: EffectPosition, captured: bool, x: LocalId)
    requires Acyclic(arena, rank) && n < |arena| && Captured(arena, rank, n, position, captured, x)
    ensures Uses(arena, rank, x, n) > 0
    decreases rank[n]
  {
    hide Children, Uses, ChildEvaluations;
    UsesOf(arena, rank, x, n);
    var kind := arena[n].kind;
    if kind != Local(x) {
      EvaluationCount(kind, position);
      var k: nat :| k < |Children(kind)| && CapturedChild(arena, rank, kind, rank[n], position, captured, x, k);
      var e := ChildEvaluations(kind, position)[k];
      CapturedIsUsed(arena, rank, Children(kind)[k], e.position, captured || e.captured, x);
    }
  }

  // How a child may be evaluated, as its position says.
  lemma ShareOfChild(kind: ExpressionKind, position: EffectPosition, k: nat)
    requires k < |Children(kind)|
    ensures |Shares(kind, ModeOf(position))| == |ChildEvaluations(kind, position)| == |Children(kind)|
    ensures var share, e := Shares(kind, ModeOf(position))[k], ChildEvaluations(kind, position)[k];
            if e.captured then share.AnyNumber? else share.AnyNumber? || share == AtMostOnce(ModeOf(e.position))
  {
    EvaluationCount(kind, position);
    if !kind.Async? {
      SharesAgree(kind, position);
      hide Children, Shares, ChildEvaluations;
      assert Agrees(Shares(kind, ModeOf(position))[k], ChildEvaluations(kind, position)[k]);
    }
  }

  // A local that is captured can be read twice.
  lemma {:induction false} CapturedIsReadTwice(arena: Arena, rank: seq<nat>, x: LocalId, n: ExpressionId, position: EffectPosition) returns (evaluation: Evaluation)
    requires Acyclic(arena, rank) && n < |arena| && Captured(arena, rank, n, position, false, x)
    ensures Possible(arena, rank, n, evaluation) && evaluation.mode == ModeOf(position) && Reads(arena, rank, x, n, evaluation) >= 2
    decreases rank[n]
  {
    hide Children, Uses, Sum, Shares, Possible, Reads, ChildEvaluations;
    var kind := arena[n].kind;
    var children := Children(kind);
    var k: nat :| k < |children| && CapturedChild(arena, rank, kind, rank[n], position, false, x, k);
    ShareOfChild(kind, position, k);
    var e := ChildEvaluations(kind, position)[k];
    var turns: seq<Evaluation>;
    if e.captured {
      CapturedIsUsed(arena, rank, children[k], e.position, true, x);
      var turn := UsedCanBeRead(arena, rank, x, children[k], Evaluated);
      turns := [turn, turn];
      TwoTurns(arena, rank, x, children[k], turn, rank[n]);
    } else {
      var turn := CapturedIsReadTwice(arena, rank, x, children[k], e.position);
      turns := [turn];
      OneTurn(arena, rank, x, children[k], turns, rank[n]);
    }
    IntoReads(arena, rank, x, n, ModeOf(position), k, turns);
    evaluation := Into(ModeOf(position), |children|, k, turns);
  }

  // ---------------------------------------------------------------- what is inlined, exactly

  // An evaluation that goes into no part.
  lemma IdleIsPossible(arena: Arena, rank: seq<nat>, n: ExpressionId, mode: Mode)
    requires Acyclic(arena, rank) && n < |arena|
    ensures Possible(arena, rank, n, Evaluation(mode, Repeat(|Children(arena[n].kind)|, [])))
  {
    hide Children, Shares;
    ShareCount(arena[n].kind, mode);
  }

  function PartMode(scope: LetScope, k: nat): Mode {
    ModeOf(if k < |scope.bindings| then Constructed else scope.position)
  }

  function IdleScope(arena: Arena, scope: LetScope): (r: seq<Evaluation>)
    requires InArena(arena, Parts(scope.bindings, scope.body))
    ensures |r| == |Parts(scope.bindings, scope.body)|
  {
    var parts := Parts(scope.bindings, scope.body);
    seq(|parts|, k requires 0 <= k < |parts| => Evaluation(PartMode(scope, k), Repeat(|Children(arena[parts[k]].kind)|, [])))
  }

  lemma CapturedPart(arena: Arena, rank: seq<nat>, scope: LetScope, x: LocalId) returns (k: nat)
    requires Acyclic(arena, rank) && InArena(arena, Parts(scope.bindings, scope.body)) && ScopeCaptures(arena, rank, scope, x)
    ensures var parts := Parts(scope.bindings, scope.body);
            k < |parts| && Captured(arena, rank, parts[k], if k < |scope.bindings| then Constructed else scope.position, false, x)
  {
    hide Captured;
    PartsOf(scope.bindings, scope.body);
    if CapturedAt(arena, rank, Visit(scope.body, scope.position, false), x) {
      k := |scope.bindings|;
    } else {
      k :| k < |scope.bindings| && CapturedAt(arena, rank, Visit(scope.bindings[k].expression, Constructed, false), x);
    }
  }

  // A binding that is captured can be read twice in one evaluation of the `let`.
  lemma CapturedScopeIsReadTwice(arena: Arena, rank: seq<nat>, scope: LetScope, x: LocalId) returns (evaluations: seq<Evaluation>)
    requires Acyclic(arena, rank) && InArena(arena, Parts(scope.bindings, scope.body)) && ScopeCaptures(arena, rank, scope, x)
    ensures PossibleScope(arena, rank, scope, evaluations)
    ensures Sum(ScopeReads(arena, rank, Parts(scope.bindings, scope.body), x, evaluations)) >= 2
  {
    hide Children, Captured, Possible, Reads, Sum, ScopeCaptures;
    var parts := Parts(scope.bindings, scope.body);
    var k := CapturedPart(arena, rank, scope, x);
    var twice := CapturedIsReadTwice(arena, rank, x, parts[k], if k < |scope.bindings| then Constructed else scope.position);
    evaluations := IdleScope(arena, scope)[k := twice];
    forall j | 0 <= j < |parts|
      ensures Possible(arena, rank, parts[j], evaluations[j])
    {
      IdleIsPossible(arena, rank, parts[j], PartMode(scope, j));
    }
    SumOfMember(ScopeReads(arena, rank, parts, x, evaluations), k);
  }

  // The local is read at most once whenever the `let` is evaluated.
  ghost predicate ReadAtMostOnce(arena: Arena, rank: seq<nat>, scope: LetScope, x: LocalId)
    requires Acyclic(arena, rank) && InArena(arena, Parts(scope.bindings, scope.body))
  {
    forall evaluations :: PossibleScope(arena, rank, scope, evaluations) ==>
      Sum(ScopeReads(arena, rank, Parts(scope.bindings, scope.body), x, evaluations)) <= 1
  }

  lemma AsyncShares(kind: ExpressionKind, mode: Mode, x: LocalId)
    ensures kind.Async? ==> forall k :: 0 <= k < |Shares(kind, mode)| ==> Shares(kind, mode)[k].AnyNumber?
    ensures kind == Local(x) ==> Children(kind) == []
  {
  }

  // A local that is used in an asynchronous program can be read twice.
  lemma {:induction false} AsyncIsReadTwice(arena: Arena, rank: seq<nat>, x: LocalId, n: ExpressionId, mode: Mode) returns (evaluation: Evaluation)
    requires Acyclic(arena, rank) && n < |arena| && BelowAsync(arena, rank, n, x)
    ensures Possible(arena, rank, n, evaluation) && evaluation.mode == mode && Reads(arena, rank, x, n, evaluation) >= 2
    decreases rank[n]
  {
    hide Children, Uses, Sum, Possible, Reads, Shares;
    var kind := arena[n].kind;
    var children := Children(kind);
    var k: nat :| k < |children| && AsyncChild(arena, rank, kind, rank[n], x, k);
    ShareCount(kind, mode);
    AsyncShares(kind, mode, x);
    var share := Shares(kind, mode)[k];
    var turns: seq<Evaluation>;
    if BelowAsync(arena, rank, children[k], x) {
      var turn := AsyncIsReadTwice(arena, rank, x, children[k], if share.AtMostOnce? then share.mode else Evaluated);
      turns := [turn];
      OneTurn(arena, rank, x, children[k], turns, rank[n]);
    } else {
      var turn := UsedCanBeRead(arena, rank, x, children[k], Evaluated);
      turns := [turn, turn];
      TwoTurns(arena, rank, x, children[k], turn, rank[n]);
    }
    IntoReads(arena, rank, x, n, mode, k, turns);
    evaluation := Into(mode, |children|, k, turns);
  }

  lemma AsyncScopeIsReadTwice(arena: Arena, rank: seq<nat>, scope: LetScope, x: LocalId) returns (evaluations: seq<Evaluation>)
    requires Acyclic(arena, rank) && InArena(arena, Parts(scope.bindings, scope.body)) && ScopeBelowAsync(arena, rank, scope, x)
    ensures PossibleScope(arena, rank, scope, evaluations)
    ensures Sum(ScopeReads(arena, rank, Parts(scope.bindings, scope.body), x, evaluations)) >= 2
  {
    hide Children, BelowAsync, Possible, Reads, Sum;
    var parts := Parts(scope.bindings, scope.body);
    var k: nat :| k < |parts| && BelowAsync(arena, rank, parts[k], x);
    var twice := AsyncIsReadTwice(arena, rank, x, parts[k], PartMode(scope, k));
    evaluations := IdleScope(arena, scope)[k := twice];
    forall j | 0 <= j < |parts|
      ensures Possible(arena, rank, parts[j], evaluations[j])
    {
      IdleIsPossible(arena, rank, parts[j], PartMode(scope, j));
    }
    SumOfMember(ScopeReads(arena, rank, parts, x, evaluations), k);
  }

  // A local that occurs once is read at most once exactly if it is neither captured nor used in an
  // asynchronous program.
  lemma ReadOnceExactly(arena: Arena, rank: seq<nat>, scope: LetScope, x: LocalId)
    requires Acyclic(arena, rank) && InArena(arena, Parts(scope.bindings, scope.body)) && ScopeUses(arena, rank, scope, x) == 1
    ensures ReadAtMostOnce(arena, rank, scope, x) <==> !ScopeCaptures(arena, rank, scope, x) && !ScopeBelowAsync(arena, rank, scope, x)
  {
    hide ScopeCaptures, Possible, ScopeReads, ScopeUses, Sum, ScopeBelowAsync;
    if ScopeCaptures(arena, rank, scope, x) {
      var evaluations := CapturedScopeIsReadTwice(arena, rank, scope, x);
    } else if ScopeBelowAsync(arena, rank, scope, x) {
      var evaluations := AsyncScopeIsReadTwice(arena, rank, scope, x);
    } else {
      forall evaluations | PossibleScope(arena, rank, scope, evaluations)
        ensures Sum(ScopeReads(arena, rank, Parts(scope.bindings, scope.body), x, evaluations)) <= 1
      {
        ScopeReadsAreUses(arena, rank, scope, x, evaluations);
      }
    }
  }

  // The binding is used, and either nothing can be noticed of it and it has no parts, or it occurs
  // once, nothing but an allocation can be noticed of it, and it is a function or read `once`.
  ghost predicate WorthInlining(arena: Arena, rank: seq<nat>, scope: LetScope, binding: Binding, globals: set<GlobalId>, once: bool)
    requires Acyclic(arena, rank) && InArena(arena, Parts(scope.bindings, scope.body)) && binding.expression < |arena|
  {
    var kind, uses := arena[binding.expression].kind, ScopeUses(arena, rank, scope, binding.parameter);
    && uses > 0
    && (|| (ActivitiesOf(globals, kind) == {} && Children(kind) == [])
        || (uses == 1 && Quiet(arena, rank, globals, binding.expression) && (kind.Abstraction? || kind.UncurriedAbstraction? || once)))
  }

  // Just the bindings that are worth it are inlined, unless they are used in an asynchronous
  // program, where those are inlined too that may be read more than once.
  lemma InlinableExactly(arena: Arena, rank: seq<nat>, scope: LetScope, binding: Binding, globals: set<GlobalId>)
    requires Acyclic(arena, rank) && InArena(arena, Parts(scope.bindings, scope.body)) && binding.expression < |arena|
    ensures var x := binding.parameter;
            && (WorthInlining(arena, rank, scope, binding, globals, ReadAtMostOnce(arena, rank, scope, x)) ==> Inlinable(arena, rank, scope, binding, globals))
            && (!ScopeBelowAsync(arena, rank, scope, x) ==>
                  (Inlinable(arena, rank, scope, binding, globals) <==>
                   WorthInlining(arena, rank, scope, binding, globals, ReadAtMostOnce(arena, rank, scope, x))))
            && (ScopeBelowAsync(arena, rank, scope, x) ==>
                  (Inlinable(arena, rank, scope, binding, globals) <==>
                   WorthInlining(arena, rank, scope, binding, globals, !ScopeCaptures(arena, rank, scope, x))))
  {
    hide Simple, Quiet, ScopeCaptures, ScopeUses, ActivitiesOf, Children, IsTrivial, ReadAtMostOnce, ScopeBelowAsync;
    TrivialIsUnnoticed(globals, arena[binding.expression].kind);
    SimpleIsQuiet(arena, rank, globals, binding.expression);
    if ScopeUses(arena, rank, scope, binding.parameter) == 1 {
      ReadOnceExactly(arena, rank, scope, binding.parameter);
    }
  }

  // ---------------------------------------------------------------- an array that is built again

  // A `let` binds the local 7 to an empty array, which an asynchronous program returns.
  const REBUILT: Arena := [Expression(ArrayKind([]), None), Expression(Local(7), None), Expression(Async(Program(0, 1)), None)]

  const REBUILT_BINDING := Binding(7, 0, None)

  const REBUILT_SCOPE := LetScope([REBUILT_BINDING], 2, Constructed)

  lemma RebuiltParts()
    ensures Acyclic(REBUILT, [0, 1, 2]) && InArena(REBUILT, Parts(REBUILT_SCOPE.bindings, REBUILT_SCOPE.body))
    ensures Parts(REBUILT_SCOPE.bindings, REBUILT_SCOPE.body) == [0, 2]
    ensures Children(REBUILT[0].kind) == [] && Children(REBUILT[1].kind) == [] && Children(REBUILT[2].kind) == [1]
  {
    RebuiltChildren();
    hide Children;
    assert BindingChildren([REBUILT_BINDING]) == [0];
    assert [0] + [2 as nat] == [0, 2];
  }

  lemma RebuiltChildren()
    ensures Children(REBUILT[0].kind) == [] && Children(REBUILT[1].kind) == [] && Children(REBUILT[2].kind) == [1]
  {
  }

  lemma RebuiltUses()
    ensures Acyclic(REBUILT, [0, 1, 2]) && Uses(REBUILT, [0, 1, 2], 7, 0) == 0 && Uses(REBUILT, [0, 1, 2], 7, 1) == 1 && Uses(REBUILT, [0, 1, 2], 7, 2) == 1
  {
    RebuiltParts();
    var rank := [0, 1, 2];
    hide Children, Acyclic, Uses;
    UsesOf(REBUILT, rank, 7, 0);
    LocalIsUsed(REBUILT, rank, 7, 1);
    UsesAreSum(REBUILT, rank, 7, 2);
    NothingPending(REBUILT, rank, UseCost(7));
    MoreUses(REBUILT, rank, 7, [], 1);
    assert [] + [1 as nat] == [1];
  }

  lemma LocalIsUsed(arena: Arena, rank: seq<nat>, x: LocalId, n: ExpressionId)
    requires Acyclic(arena, rank) && n < |arena| && arena[n].kind == Local(x)
    ensures Uses(arena, rank, x, n) == 1
  {
    assert Children(Local(x)) == [] && Shape(Local(x)) == Local(x);
    hide Children, Shape;
    CostOf(arena, rank, UseCost(x), map[], n);
    NothingPending(arena, rank, UseCost(x));
    CostNames(arena, rank, x, n);
  }

  lemma RebuiltIsNotCaptured()
    ensures Acyclic(REBUILT, [0, 1, 2]) && InArena(REBUILT, Parts(REBUILT_SCOPE.bindings, REBUILT_SCOPE.body))
    ensures !ScopeCaptures(REBUILT, [0, 1, 2], REBUILT_SCOPE, 7)
  {
    RebuiltParts();
    var rank := [0, 1, 2];
    assert !Captured(REBUILT, rank, 0, Constructed, false, 7);
    assert !Captured(REBUILT, rank, 1, Constructed, false, 7);
    assert ChildEvaluations(REBUILT[2].kind, Constructed) == [ChildEvaluation(false, Constructed)];
    assert !CapturedChild(REBUILT, rank, REBUILT[2].kind, rank[2], Constructed, false, 7, 0);
    assert !Captured(REBUILT, rank, 2, Constructed, false, 7);
  }

  // The array is inlined, although it is then built whenever the program is run.
  lemma AsyncIsInlined()
    ensures Acyclic(REBUILT, [0, 1, 2]) && InArena(REBUILT, Parts(REBUILT_SCOPE.bindings, REBUILT_SCOPE.body))
    ensures Inlinable(REBUILT, [0, 1, 2], REBUILT_SCOPE, REBUILT_BINDING, {})
    ensures ActivitiesOf({}, REBUILT[0].kind) == {Allocating} && !ReadAtMostOnce(REBUILT, [0, 1, 2], REBUILT_SCOPE, 7)
  {
    RebuiltParts();
    RebuiltUses();
    RebuiltIsNotCaptured();
    var rank := [0, 1, 2];
    hide Acyclic, Uses, Simple, ScopeCaptures, Captured, ReadAtMostOnce, Total;
    NothingPending(REBUILT, rank, UseCost(7));
    MoreUses(REBUILT, rank, 7, [], 0);
    MoreUses(REBUILT, rank, 7, [0], 2);
    assert [] + [0 as nat] == [0] && [0] + [2 as nat] == [0, 2];
    SimpleOf(REBUILT, rank, {}, 0);
    assert AsyncChild(REBUILT, rank, REBUILT[2].kind, rank[2], 7, 0);
    assert BelowAsync(REBUILT, rank, 2, 7);
    assert Parts(REBUILT_SCOPE.bindings, REBUILT_SCOPE.body)[1] == 2;
    ReadOnceExactly(REBUILT, rank, REBUILT_SCOPE, 7);
  }
}
