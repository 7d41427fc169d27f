// How often the parts of an expression are evaluated, and which uses of a local are captured
// (compiler-backend/functional/src/optimize.rs).
module Evaluations {
  import opened FunctionalTree
  import opened TreeFolds
  import opened Rewrites
  import opened Substitutions
  import opened Wrappers

  // An effect is run where it stands, or made into a value that may be run later.
  datatype EffectPosition = Executed | Constructed

  datatype ChildEvaluation = ChildEvaluation(captured: bool, position: EffectPosition)

  // ---------------------------------------------------------------- captured children

  function Repeat<T>(n: nat, x: T): (r: seq<T>)
    ensures |r| == n && forall k :: 0 <= k < n ==> r[k] == x
  {
    seq(n, _ => x)
  }

  function StatementEvaluations(statement: EffectStatement, position: EffectPosition): seq<ChildEvaluation> {
    var captured := position.Constructed?;
    var value := ChildEvaluation(captured, Constructed);
    var action := ChildEvaluation(captured, position);
    var repeated := ChildEvaluation(true, position);
    match statement
    case WriteStatement(_, _) => [value, value]
    case LoopStatement(RangeLoop(_, _, _)) => [value, value, repeated]
    case LoopStatement(EachLoop(_, _)) => [value, repeated]
    case LoopStatement(WhileLoop(_, _)) => [repeated, repeated]
    case LoopStatement(UntilLoop(_)) => [repeated]
    case WhenStatement(_, _) => [value, action]
  }

  function EffectEvaluations(effect: EffectExpression, position: EffectPosition): seq<ChildEvaluation> {
    var captured := position.Constructed?;
    var value := ChildEvaluation(captured, Constructed);
    var action := ChildEvaluation(captured, position);
    var step := ChildEvaluation(captured, Executed);
    match effect
    case Pure(_) => [value]
    case Bind(_, _, _) => [action, step]
    case Map(_, _) => [value, action]
    case Apply(_, _) => [action, action]
    case ReferenceNew(_) => [value]
    case ReferenceRead(_) => [value]
    case ReferenceWrite(_, _) => [value, value]
    case EffectApplication(_, arguments) => [value] + Repeat(|arguments|, value)
    case Statement(statement, _) => StatementEvaluations(statement, position) + [value]
  }

  function GuardEvaluations(guarded: seq<GuardedAlternative>, value: ChildEvaluation, continuation: ChildEvaluation): seq<ChildEvaluation> {
    if guarded == [] then []
    else Repeat(|guarded[0].guards|, value) + [continuation] + GuardEvaluations(guarded[1..], value, continuation)
  }

  // For each child: whether it may be evaluated again, and where an effect in it stands.
  function ChildEvaluations(kind: ExpressionKind, position: EffectPosition): seq<ChildEvaluation> {
    var value := ChildEvaluation(false, Constructed);
    var continuation := ChildEvaluation(false, position);
    match kind
    case Abstraction(_, _) => [ChildEvaluation(true, Constructed)]
    case UncurriedAbstraction(_, _) => [ChildEvaluation(true, Constructed)]
    case Effect(effect) => EffectEvaluations(effect, position)
    case Let(_, bindings, _) => Repeat(|bindings|, value) + [continuation]
    case LetPattern(_, _, _) => [value, continuation]
    case IfThenElse(_, _, _) => [value, continuation, continuation]
    case Case(scrutinees, alternatives) => Repeat(|scrutinees|, value) + Repeat(|alternatives|, continuation)
    case Guarded(guarded) => GuardEvaluations(guarded, value, continuation)
    case _ => Repeat(|Children(kind)|, value)
  }

  lemma {:induction false} GuardEvaluationCount(guarded: seq<GuardedAlternative>, value: ChildEvaluation, continuation: ChildEvaluation)
    ensures |GuardEvaluations(guarded, value, continuation)| == |GuardChildren(guarded)|
  {
    if guarded != [] {
      GuardEvaluationCount(guarded[1..], value, continuation);
    }
  }

  lemma EvaluationCount(kind: ExpressionKind, position: EffectPosition)
    ensures |ChildEvaluations(kind, position)| == |Children(kind)|
  {
    if kind.Guarded? {
      GuardEvaluationCount(kind.guarded, ChildEvaluation(false, Constructed), ChildEvaluation(false, position));
    }
  }

  // Some use of a local is below a captured child.
  ghost predicate Captured(arena: Arena, rank: seq<nat>, n: ExpressionId, position: EffectPosition, captured: bool, x: LocalId)
    requires Acyclic(arena, rank) && n < |arena|
    decreases rank[n], 1
  {
    var kind := arena[n].kind;
    if kind == Local(x) then captured
    else exists k: nat :: k < |Children(kind)| && CapturedChild(arena, rank, kind, rank[n], position, captured, x, k)
  }

  ghost predicate CapturedChild(arena: Arena, rank: seq<nat>, kind: ExpressionKind, bound: nat, position: EffectPosition, captured: bool, x: LocalId, k: nat)
    requires Acyclic(arena, rank) && Lower(rank, Children(kind), bound) && k < |Children(kind)|
    decreases bound, 0
  {
    EvaluationCount(kind, position);
    var evaluation := ChildEvaluations(kind, position)[k];
    Captured(arena, rank, Children(kind)[k], evaluation.position, captured || evaluation.captured, x)
  }

  // ---------------------------------------------------------------- the search for a captured use

  datatype Visit = Visit(expression: ExpressionId, position: EffectPosition, captured: bool)

  function Expressions(pending: seq<Visit>): (r: seq<ExpressionId>)
    ensures |r| == |pending| && forall k :: 0 <= k < |pending| ==> r[k] == pending[k].expression
  {
    seq(|pending|, k requires 0 <= k < |pending| => pending[k].expression)
  }

  function ChildVisits(kind: ExpressionKind, position: EffectPosition, captured: bool): (r: seq<Visit>)
    ensures |r| == |Children(kind)| && Expressions(r) == Children(kind)
  {
    EvaluationCount(kind, position);
    var children, evaluations := Children(kind), ChildEvaluations(kind, position);
    var r := seq(|children|, k requires 0 <= k < |children| =>
      Visit(children[k], evaluations[k].position, captured || evaluations[k].captured));
    assert Expressions(r) == children;
    r
  }

  ghost predicate SomeCaptured(arena: Arena, rank: seq<nat>, pending: seq<Visit>, x: LocalId)
    requires Acyclic(arena, rank) && InArena(arena, Expressions(pending))
  {
    exists k: nat :: k < |pending| && CapturedAt(arena, rank, pending[k], x)
  }

  ghost predicate CapturedAt(arena: Arena, rank: seq<nat>, visit: Visit, x: LocalId)
    requires Acyclic(arena, rank)
  {
    visit.expression < |arena| && Captured(arena, rank, visit.expression, visit.position, visit.captured, x)
  }

  lemma CapturedInChildren(arena: Arena, rank: seq<nat>, visit: Visit, x: LocalId)
    requires Acyclic(arena, rank) && visit.expression < |arena| && arena[visit.expression].kind != Local(x)
    ensures var visits := ChildVisits(arena[visit.expression].kind, visit.position, visit.captured);
            InArena(arena, Expressions(visits)) && (CapturedAt(arena, rank, visit, x) <==> SomeCaptured(arena, rank, visits, x))
  {
    hide Children, ChildEvaluations;
    var n := visit.expression;
    var kind := arena[n].kind;
    EvaluationCount(kind, visit.position);
    var visits := ChildVisits(kind, visit.position, visit.captured);
    if CapturedAt(arena, rank, visit, x) {
      assert Captured(arena, rank, n, visit.position, visit.captured, x);
      var k: nat :| k < |Children(kind)| && CapturedChild(arena, rank, kind, rank[n], visit.position, visit.captured, x, k);
      assert CapturedAt(arena, rank, visits[k], x);
    }
    if SomeCaptured(arena, rank, visits, x) {
      var k: nat :| k < |visits| && CapturedAt(arena, rank, visits[k], x);
      assert CapturedChild(arena, rank, kind, rank[n], visit.position, visit.captured, x, k);
    }
  }

  lemma CapturedInBoth(arena: Arena, rank: seq<nat>, a: seq<Visit>, b: seq<Visit>, x: LocalId)
    requires Acyclic(arena, rank) && InArena(arena, Expressions(a)) && InArena(arena, Expressions(b))
    ensures Expressions(a + b) == Expressions(a) + Expressions(b) && InArena(arena, Expressions(a + b))
    ensures SomeCaptured(arena, rank, a + b, x) <==> SomeCaptured(arena, rank, a, x) || SomeCaptured(arena, rank, b, x)
  {
    hide Captured, Acyclic;
    assert Expressions(a + b) == Expressions(a) + Expressions(b);
    if k: nat :| k < |a| && CapturedAt(arena, rank, a[k], x) {
      assert (a + b)[k] == a[k];
    } else if k: nat :| k < |b| && CapturedAt(arena, rank, b[k], x) {
      assert (a + b)[|a| + k] == b[k];
    }
  }

  lemma CaptureStep(arena: Arena, rank: seq<nat>, pending: seq<Visit>, x: LocalId)
    requires Acyclic(arena, rank) && InArena(arena, Expressions(pending)) && pending != []
    ensures var front, last := pending[..|pending| - 1], pending[|pending| - 1];
            && last.expression < |arena| && InArena(arena, Expressions(front))
            && Total(arena, rank, UnitCost(), map[], Expressions(front)) < Total(arena, rank, UnitCost(), map[], Expressions(pending))
            && var kind := arena[last.expression].kind;
            && (kind == Local(x) ==>
                (SomeCaptured(arena, rank, pending, x) <==> last.captured || SomeCaptured(arena, rank, front, x)))
            && (kind != Local(x) ==>
                var entered := front + ChildVisits(kind, last.position, last.captured);
                && InArena(arena, Expressions(entered))
                && Total(arena, rank, UnitCost(), map[], Expressions(entered)) < Total(arena, rank, UnitCost(), map[], Expressions(pending))
                && (SomeCaptured(arena, rank, pending, x) <==> SomeCaptured(arena, rank, entered, x)))
  {
    hide Children, ChildEvaluations, Total, ChildVisits;
    var front, last := pending[..|pending| - 1], pending[|pending| - 1];
    assert pending == front + [last];
    assert last.expression == Expressions(pending)[|pending| - 1];
    assert Expressions(front) == Expressions(pending)[..|pending| - 1];
    var kind := arena[last.expression].kind;
    CapturedInBoth(arena, rank, front, [last], x);
    OneCaptured(arena, rank, last, x);
    DropLast(arena, rank, UnitCost(), map[], Expressions(pending));
    CostOf(arena, rank, UnitCost(), map[], last.expression);
    if kind != Local(x) {
      var visits := ChildVisits(kind, last.position, last.captured);
      CapturedInChildren(arena, rank, last, x);
      CapturedInBoth(arena, rank, front, visits, x);
      VisitsOf(kind, last.position, last.captured);
      TotalOfBoth(arena, rank, UnitCost(), map[], Expressions(front), Expressions(visits));
    } else {
      CapturedLocal(arena, rank, last, x);
    }
  }

  lemma VisitsOf(kind: ExpressionKind, position: EffectPosition, captured: bool)
    ensures Expressions(ChildVisits(kind, position, captured)) == Children(kind)
  {
    hide Children;
  }

  lemma CapturedLocal(arena: Arena, rank: seq<nat>, visit: Visit, x: LocalId)
    requires Acyclic(arena, rank) && visit.expression < |arena| && arena[visit.expression].kind == Local(x)
    ensures CapturedAt(arena, rank, visit, x) == visit.captured
  {
  }

  lemma OneCaptured(arena: Arena, rank: seq<nat>, visit: Visit, x: LocalId)
    requires Acyclic(arena, rank) && visit.expression < |arena|
    ensures InArena(arena, Expressions([visit])) && (SomeCaptured(arena, rank, [visit], x) <==> CapturedAt(arena, rank, visit, x))
  {
    hide Captured, Acyclic;
    assert [visit][0] == visit;
  }

  // Whether some use of a local is captured.
  method LocalIsCaptured(arena: Arena, ghost rank: seq<nat>, expression: ExpressionId, position: EffectPosition, parameter: LocalId) returns (captured: bool)
    requires Acyclic(arena, rank) && expression < |arena|
    ensures captured == Captured(arena, rank, expression, position, false, parameter)
  {
    hide Children, ChildEvaluations, ChildVisits, Total, Captured, SomeCaptured, Acyclic;
    var pending := [Visit(expression, position, false)];
    OneCaptured(arena, rank, pending[0], parameter);
    while pending != []
      invariant InArena(arena, Expressions(pending))
      invariant SomeCaptured(arena, rank, pending, parameter) <==> Captured(arena, rank, expression, position, false, parameter)
      decreases Total(arena, rank, UnitCost(), map[], Expressions(pending))
    {
      CaptureStep(arena, rank, pending, parameter);
      var visit := pending[|pending| - 1];
      pending := pending[..|pending| - 1];
      var kind := arena[visit.expression].kind;
      if kind.Local? && kind.local == parameter {
        if visit.captured {
          return true;
        }
        continue;
      }
      pending := pending + ChildVisits(kind, visit.position, visit.captured);
    }
    NoneCaptured(arena, rank, parameter);
    return false;
  }

  lemma NoneCaptured(arena: Arena, rank: seq<nat>, x: LocalId)
    requires Acyclic(arena, rank)
    ensures InArena(arena, Expressions([])) && !SomeCaptured(arena, rank, [], x)
  {
  }

  // ---------------------------------------------------------------- evaluation

  // How an expression is evaluated: to a value, or by running the effect that it is.
  datatype Mode = Evaluated | Run

  // How often a child is evaluated whenever its parent is.
  datatype Share = AtMostOnce(mode: Mode) | AnyNumber

  function ModeOf(position: EffectPosition): Mode {
    if position.Executed? then Run else Evaluated
  }

  // A loop evaluates its bounds or its array once, and the rest in every turn.
  function StatementShares(statement: EffectStatement): seq<Share> {
    var value := AtMostOnce(Evaluated);
    match statement
    case WriteStatement(_, _) => [value, value]
    case LoopStatement(RangeLoop(_, _, _)) => [value, value, AnyNumber]
    case LoopStatement(EachLoop(_, _)) => [value, AnyNumber]
    case LoopStatement(WhileLoop(_, _)) => [AnyNumber, AnyNumber]
    case LoopStatement(UntilLoop(_)) => [AnyNumber]
    case WhenStatement(_, _) => [value, AtMostOnce(Run)]
  }

  // Running an effect runs the actions in it once.
  function RunShares(effect: EffectExpression): seq<Share> {
    var value, action := AtMostOnce(Evaluated), AtMostOnce(Run);
    match effect
    case Pure(_) => [value]
    case Bind(_, _, _) => [action, action]
    case Map(_, _) => [value, action]
    case Apply(_, _) => [action, action]
    case ReferenceNew(_) => [value]
    case ReferenceRead(_) => [value]
    case ReferenceWrite(_, _) => [value, value]
    case EffectApplication(_, arguments) => [value] + Repeat(|arguments|, value)
    case Statement(statement, _) => StatementShares(statement) + [value]
  }

  // The body of a function is evaluated whenever the function is called. An effect that is not
  // run on the spot becomes a value that may be run any number of times. A branch is evaluated
  // like the whole; everything else to a value, at most once.
  function Shares(kind: ExpressionKind, mode: Mode): seq<Share> {
    var value := AtMostOnce(Evaluated);
    match kind
    case Abstraction(_, _) => [AnyNumber]
    case UncurriedAbstraction(_, _) => [AnyNumber]
    case Effect(effect) => if mode.Run? then RunShares(effect) else Repeat(|EffectChildren(effect)|, AnyNumber)
    case Async(a) => Repeat(|AsyncChildren(a)|, AnyNumber)
    case Let(_, bindings, _) => Repeat(|bindings|, value) + [AtMostOnce(mode)]
    case LetPattern(_, _, _) => [value, AtMostOnce(mode)]
    case IfThenElse(_, _, _) => [value, AtMostOnce(mode), AtMostOnce(mode)]
    case Case(scrutinees, alternatives) => Repeat(|scrutinees|, value) + Repeat(|alternatives|, AtMostOnce(mode))
    case Guarded(guarded) => GuardShares(guarded, mode)
    case _ => Repeat(|Children(kind)|, value)
  }

  function GuardShares(guarded: seq<GuardedAlternative>, mode: Mode): seq<Share> {
    if guarded == [] then []
    else Repeat(|guarded[0].guards|, AtMostOnce(Evaluated)) + [AtMostOnce(mode)] + GuardShares(guarded[1..], mode)
  }

  // A child is captured exactly if it may be evaluated any number of times. Otherwise it is evaluated
  // at most once, in the mode of its position.
  ghost predicate Agrees(share: Share, evaluation: ChildEvaluation) {
    if evaluation.captured then share.AnyNumber? else share == AtMostOnce(ModeOf(evaluation.position))
  }

  ghost predicate AllAgree(shares: seq<Share>, evaluations: seq<ChildEvaluation>) {
    |shares| == |evaluations| && forall k :: 0 <= k < |shares| ==> Agrees(shares[k], evaluations[k])
  }

  lemma {:induction false} GuardsAgree(guarded: seq<GuardedAlternative>, position: EffectPosition)
    ensures AllAgree(GuardShares(guarded, ModeOf(position)), GuardEvaluations(guarded, ChildEvaluation(false, Constructed), ChildEvaluation(false, position)))
  {
    if guarded != [] {
      GuardsAgree(guarded[1..], position);
    }
  }

  lemma StatementAgrees(statement: EffectStatement)
    ensures AllAgree(StatementShares(statement), StatementEvaluations(statement, Executed))
  {
  }

  lemma EffectAgrees(effect: EffectExpression, position: EffectPosition)
    ensures AllAgree(if position.Executed? then RunShares(effect) else Repeat(|EffectChildren(effect)|, AnyNumber),
                     EffectEvaluations(effect, position))
  {
    if position.Executed? && effect.Statement? {
      StatementAgrees(effect.statement);
      hide StatementShares, StatementEvaluations;
    }
  }

  // What the enumeration of children says about them is right, asynchronous programs apart.
  lemma SharesAgree(kind: ExpressionKind, position: EffectPosition)
    requires !kind.Async?
    ensures AllAgree(Shares(kind, ModeOf(position)), ChildEvaluations(kind, position))
  {
    hide Children, RunShares, EffectEvaluations, GuardShares, GuardEvaluations;
    if kind.Guarded? {
      GuardsAgree(kind.guarded, position);
    } else if kind.Effect? {
      EffectAgrees(kind.effect, position);
    }
  }

  // ---------------------------------------------------------------- reads of a local

  // One evaluation of an expression: for each child, its evaluations in turn.
  datatype Evaluation = Evaluation(mode: Mode, children: seq<seq<Evaluation>>)

  predicate Allowed(share: Share, turns: seq<Evaluation>) {
    share.AtMostOnce? ==> |turns| <= 1 && forall j :: 0 <= j < |turns| ==> turns[j].mode == share.mode
  }

  // The evaluation keeps to how often each child may be evaluated, whatever the conditions, the
  // numbers of turns and the calls of functions are.
  ghost predicate Possible(arena: Arena, rank: seq<nat>, n: ExpressionId, evaluation: Evaluation)
    requires Acyclic(arena, rank) && n < |arena|
    decreases rank[n]
  {
    var children, shares := Children(arena[n].kind), Shares(arena[n].kind, evaluation.mode);
    && |evaluation.children| == |children| == |shares|
    && (forall k :: 0 <= k < |children| ==> Allowed(shares[k], evaluation.children[k]))
    && (forall k, j :: 0 <= k < |children| && 0 <= j < |evaluation.children[k]| ==>
          Possible(arena, rank, children[k], evaluation.children[k][j]))
  }

  // How often a local is read.
  ghost function Reads(arena: Arena, rank: seq<nat>, x: LocalId, n: ExpressionId, evaluation: Evaluation): nat
    requires Acyclic(arena, rank) && n < |arena|
    decreases rank[n], 2
  {
    if arena[n].kind == Local(x) then 1 else Sum(ChildReads(arena, rank, x, n, evaluation))
  }

  ghost function ChildReads(arena: Arena, rank: seq<nat>, x: LocalId, n: ExpressionId, evaluation: Evaluation): (r: seq<nat>)
    requires Acyclic(arena, rank) && n < |arena|
    ensures |r| == |Children(arena[n].kind)|
    decreases rank[n], 1
  {
    var children := Children(arena[n].kind);
    seq(|children|, k requires 0 <= k < |children| =>
      if k < |evaluation.children| then Sum(TurnReads(arena, rank, x, children[k], evaluation.children[k], rank[n])) else 0)
  }

  ghost function TurnReads(arena: Arena, rank: seq<nat>, x: LocalId, child: ExpressionId, turns: seq<Evaluation>, bound: nat): (r: seq<nat>)
    requires Acyclic(arena, rank) && child < |arena| && rank[child] < bound
    ensures |r| == |turns|
    decreases bound, 0
  {
    seq(|turns|, j requires 0 <= j < |turns| => Reads(arena, rank, x, child, turns[j]))
  }

  lemma {:induction false} SumIsLess(s: seq<nat>, t: seq<nat>)
    requires |s| == |t| && forall k :: 0 <= k < |s| ==> s[k] <= t[k]
    ensures Sum(s) <= Sum(t)
  {
    if s != [] {
      SumIsLess(s[1..], t[1..]);
    }
  }

  // An unused local is not read.
  lemma {:induction false} UnusedIsNotRead(arena: Arena, rank: seq<nat>, x: LocalId, n: ExpressionId, evaluation: Evaluation)
    requires Acyclic(arena, rank) && n < |arena| && Uses(arena, rank, x, n) == 0
    ensures Reads(arena, rank, x, n, evaluation) == 0
    decreases rank[n], 0
  {
    hide Children, Uses, Sum;
    UsesOf(arena, rank, x, n);
    var counts := ChildReads(arena, rank, x, n, evaluation);
    forall k | 0 <= k < |counts|
      ensures counts[k] == 0
    {
      if k < |evaluation.children| {
        UnusedTurns(arena, rank, x, Children(arena[n].kind)[k], evaluation.children[k], rank[n]);
      }
    }
    SumIsZero(counts);
  }

  lemma {:induction false} UnusedTurns(arena: Arena, rank: seq<nat>, x: LocalId, child: ExpressionId, turns: seq<Evaluation>, bound: nat)
    requires Acyclic(arena, rank) && child < |arena| && rank[child] < bound && Uses(arena, rank, x, child) == 0
    ensures Sum(TurnReads(arena, rank, x, child, turns, bound)) == 0
    decreases rank[child], 1
  {
    hide Uses, Sum;
    var counts := TurnReads(arena, rank, x, child, turns, bound);
    forall j | 0 <= j < |counts|
      ensures counts[j] == 0
    {
      UnusedIsNotRead(arena, rank, x, child, turns[j]);
    }
    SumIsZero(counts);
  }

  // Below a captured child, every use is captured.
  lemma {:induction false} NotCapturedIsUnused(arena: Arena, rank: seq<nat>, n: ExpressionId, position: EffectPosition, x: LocalId)
    requires Acyclic(arena, rank) && n < |arena| && !Captured(arena, rank, n, position, true, x)
    ensures Uses(arena, rank, x, n) == 0
    decreases rank[n]
  {
    hide Children, Uses, ChildEvaluations;
    UsesOf(arena, rank, x, n);
    var kind := arena[n].kind;
    EvaluationCount(kind, position);
    forall k: nat | k < |Children(kind)|
      ensures Uses(arena, rank, x, Children(kind)[k]) == 0
    {
      assert !CapturedChild(arena, rank, kind, rank[n], position, true, x, k);
      NotCapturedIsUnused(arena, rank, Children(kind)[k], ChildEvaluations(kind, position)[k].position, x);
    }
  }

  // A use of the local is in an asynchronous program, which may be run again.
  ghost predicate BelowAsync(arena: Arena, rank: seq<nat>, n: ExpressionId, x: LocalId)
    requires Acyclic(arena, rank) && n < |arena|
    decreases rank[n], 1
  {
    exists k: nat :: k < |Children(arena[n].kind)| && AsyncChild(arena, rank, arena[n].kind, rank[n], x, k)
  }

  ghost predicate AsyncChild(arena: Arena, rank: seq<nat>, kind: ExpressionKind, bound: nat, x: LocalId, k: nat)
    requires Acyclic(arena, rank) && Lower(rank, Children(kind), bound) && k < |Children(kind)|
    decreases bound, 0
  {
    BelowAsync(arena, rank, Children(kind)[k], x) || (kind.Async? && Uses(arena, rank, x, Children(kind)[k]) > 0)
  }

  // A local that is neither captured nor in an asynchronous program is read at most as often as it occurs.
  lemma {:induction false} ReadsAreUses(arena: Arena, rank: seq<nat>, x: LocalId, n: ExpressionId, position: EffectPosition, evaluation: Evaluation)
    requires Acyclic(arena, rank) && n < |arena| && !BelowAsync(arena, rank, n, x) && !Captured(arena, rank, n, position, false, x)
    requires Possible(arena, rank, n, evaluation) && evaluation.mode == ModeOf(position)
    ensures Reads(arena, rank, x, n, evaluation) <= Uses(arena, rank, x, n)
    decreases rank[n]
  {
    hide Children, Uses, Sum, ChildEvaluations, Shares;
    var kind := arena[n].kind;
    var children := Children(kind);
    if kind == Local(x) {
      UsesOf(arena, rank, x, n);
    } else {
      var counts, uses := ChildReads(arena, rank, x, n, evaluation), Costs(arena, rank, UseCost(x), map[], children);
      forall k: nat | k < |children|
        ensures counts[k] <= uses[k]
      {
        assert !CapturedChild(arena, rank, kind, rank[n], position, false, x, k) && !AsyncChild(arena, rank, kind, rank[n], x, k);
        if kind.Async? {
          UnusedTurns(arena, rank, x, children[k], evaluation.children[k], rank[n]);
        } else {
          SharesAgree(kind, position);
          ChildReadsAreUses(arena, rank, x, n, position, evaluation, k);
        }
        CostsAre(arena, rank, x, children, k);
      }
      SumIsLess(counts, uses);
      UsesAreSum(arena, rank, x, n);
    }
  }

  lemma CostsAre(arena: Arena, rank: seq<nat>, x: LocalId, list: seq<ExpressionId>, k: nat)
    requires Acyclic(arena, rank) && InArena(arena, list) && k < |list|
    ensures Costs(arena, rank, UseCost(x), map[], list)[k] == Uses(arena, rank, x, list[k])
  {
  }

  lemma UsesAreSum(arena: Arena, rank: seq<nat>, x: LocalId, n: ExpressionId)
    requires Acyclic(arena, rank) && n < |arena| && arena[n].kind != Local(x)
    ensures InArena(arena, Children(arena[n].kind))
    ensures Uses(arena, rank, x, n) == Sum(Costs(arena, rank, UseCost(x), map[], Children(arena[n].kind)))
  {
    NotLocalShape(arena[n].kind, x);
    hide Children, Shape;
    CostOf(arena, rank, UseCost(x), map[], n);
  }

  lemma {:induction false} ChildReadsAreUses(arena: Arena, rank: seq<nat>, x: LocalId, n: ExpressionId, position: EffectPosition, evaluation: Evaluation, k: nat)
    requires Acyclic(arena, rank) && n < |arena| && k < |Children(arena[n].kind)| && !BelowAsync(arena, rank, Children(arena[n].kind)[k], x)
    requires !CapturedChild(arena, rank, arena[n].kind, rank[n], position, false, x, k)
    requires Possible(arena, rank, n, evaluation) && evaluation.mode == ModeOf(position)
    requires AllAgree(Shares(arena[n].kind, ModeOf(position)), ChildEvaluations(arena[n].kind, position))
    ensures ChildReads(arena, rank, x, n, evaluation)[k] <= Uses(arena, rank, x, Children(arena[n].kind)[k])
    decreases rank[n], 0
  {
    hide Children, Uses, Sum, ChildEvaluations, Shares, BelowAsync;
    var kind := arena[n].kind;
    var child, turns := Children(kind)[k], evaluation.children[k];
    EvaluationCount(kind, position);
    var share, e := Shares(kind, evaluation.mode)[k], ChildEvaluations(kind, position)[k];
    assert Agrees(share, e);
    if e.captured {
      NotCapturedIsUnused(arena, rank, child, e.position, x);
      UnusedTurns(arena, rank, x, child, turns, rank[n]);
    } else {
      assert Allowed(share, turns);
      if turns == [] {
        UnusedSum();
      } else {
        assert Possible(arena, rank, child, turns[0]);
        ReadsAreUses(arena, rank, x, child, e.position, turns[0]);
        OneTurn(arena, rank, x, child, turns, rank[n]);
      }
    }
  }

  lemma UnusedSum()
    ensures Sum([]) == 0
  {
  }

  lemma OneTurn(arena: Arena, rank: seq<nat>, x: LocalId, child: ExpressionId, turns: seq<Evaluation>, bound: nat)
    requires Acyclic(arena, rank) && child < |arena| && rank[child] < bound && |turns| == 1
    ensures Sum(TurnReads(arena, rank, x, child, turns, bound)) == Reads(arena, rank, x, child, turns[0])
  {
    var r := Reads(arena, rank, x, child, turns[0]);
    assert TurnReads(arena, rank, x, child, turns, bound) == [r];
    hide Reads;
    assert Sum([r]) == r + Sum([r][1..]);
  }
}
