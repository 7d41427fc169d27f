// The traversal that optimizes an expression (compiler-backend/functional/src/optimize.rs).
module TreeOptimizer {
  import opened FunctionalTree
  import opened TreeFolds
  import opened Rewrites
  import opened Meanings
  import opened Substitutions
  import opened Evaluations
  import opened Optimizer
  import opened LetInlining
  import Graphs
  import opened Wrappers

  // What is pending: an expression to enter, or one to finish once its children are finished, with
  // the position in which it was entered.
  datatype Work =
    | Enter(expression: ExpressionId, position: EffectPosition)
    | Finish(expression: ExpressionId, position: EffectPosition)
    | Inline(expression: ExpressionId, bindings: seq<Binding>, body: ExpressionId, position: EffectPosition)

  // ---------------------------------------------------------------- what finishing an expression does

  predicate IsPlainLet(kind: ExpressionKind) {
    kind.Let? && !kind.recursive
  }

  // A `let` that is not recursive is rewritten in its position, and anything else is folded if it
  // is a negation.
  ghost predicate Finishes(before: Arena, after: Arena, rank: seq<nat>, globals: set<GlobalId>, work: Work) {
    && work.expression < |before| == |after|
    && if IsPlainLet(before[work.expression].kind)
       then LetRewritten(before, after, rank, work.expression, work.position, globals)
       else after == FoldAt(before, work.expression)
  }

  // Finishing an expression changes no other, occurrences of locals apart.
  lemma FinishChanges(before: Arena, after: Arena, rank: seq<nat>, globals: set<GlobalId>, work: Work, m: ExpressionId)
    requires Finishes(before, after, rank, globals, work) && m < |before| && m != work.expression && !before[m].kind.Local?
    ensures after[m] == before[m]
  {
    hide WellFormed, Acyclic, Reduces, NotFree, Shrinks, NoneInlinable, InArena;
    if IsPlainLet(before[work.expression].kind) {
      var now, left :| LetRewrittenVia(before, now, after, rank, work.expression, left, work.position, globals);
    }
  }

  // ---------------------------------------------------------------- the log

  // The expressions finished so far, each after its children and none twice.
  ghost predicate Logged(arenas: seq<Arena>, rank: seq<nat>, globals: set<GlobalId>, log: seq<Work>) {
    && |arenas| == |log| + 1
    && (forall i: nat :: i < |log| ==> LoggedAt(arenas, rank, globals, log, i))
    && (forall i, j :: 0 <= i < j < |log| ==> log[i].expression != log[j].expression)
  }

  ghost predicate LoggedAt(arenas: seq<Arena>, rank: seq<nat>, globals: set<GlobalId>, log: seq<Work>, i: nat)
    requires |arenas| == |log| + 1 && i < |log|
  {
    && Finishes(arenas[i], arenas[i + 1], rank, globals, log[i])
    && (forall c :: c in Children(arenas[i][log[i].expression].kind) ==> InLog(log[..i], c))
  }

  ghost predicate InLog(log: seq<Work>, n: ExpressionId) {
    exists i :: 0 <= i < |log| && log[i].expression == n
  }

  // `child` is a child of an expression of this kind, in the position that its evaluation gives it
  // when the parent stands at `position`.
  ghost predicate IsChildAt(kind: ExpressionKind, position: EffectPosition, child: Work) {
    exists k: nat :: k < |Children(kind)| && k < |ChildEvaluations(kind, position)|
      && Children(kind)[k] == child.expression && ChildEvaluations(kind, position)[k].position == child.position
  }

  // The work at `j` is on the root, which is made into a value, or on a child of an expression that
  // is finished later, where it stands below it.
  ghost predicate PlacedInLog(arenas: seq<Arena>, root: ExpressionId, log: seq<Work>, j: nat)
    requires |arenas| == |log| + 1 && j < |log|
  {
    || IsRoot(root, log[j])
    || exists i :: j < i < |log| && ParentInLog(arenas, log, i, log[j])
  }

  predicate IsRoot(root: ExpressionId, work: Work) {
    work.expression == root && work.position == Constructed
  }

  ghost predicate ParentInLog(arenas: seq<Arena>, log: seq<Work>, i: int, child: Work) {
    && 0 <= i < |log| && i < |arenas| && log[i].expression < |arenas[i]|
    && IsChildAt(arenas[i][log[i].expression].kind, log[i].position, child)
  }

  // The parent of a pending or finished expression is open below.
  ghost predicate ParentOpen(arena: Arena, pending: seq<Work>, bound: int, child: Work) {
    exists s :: 0 <= s < bound && s < |pending| && IsOpen(pending[s]) && pending[s].expression < |arena|
      && IsChildAt(arena[pending[s].expression].kind, pending[s].position, child)
  }

  ghost predicate PlacedAt(arena: Arena, pending: seq<Work>, root: ExpressionId, t: nat)
    requires t < |pending|
  {
    IsRoot(root, pending[t]) || ParentOpen(arena, pending, t, pending[t])
  }

  ghost predicate LogPlaced(arenas: seq<Arena>, arena: Arena, pending: seq<Work>, root: ExpressionId, log: seq<Work>, j: nat)
    requires |arenas| == |log| + 1 && j < |log|
  {
    PlacedInLog(arenas, root, log, j) || ParentOpen(arena, pending, |pending|, log[j])
  }

  // Everything pending or finished has its place.
  ghost predicate AllPlaced(arenas: seq<Arena>, arena: Arena, pending: seq<Work>, root: ExpressionId, log: seq<Work>) {
    && |arenas| == |log| + 1
    && (forall t: nat :: t < |pending| ==> PlacedAt(arena, pending, root, t))
    && (forall j: nat :: j < |log| ==> LogPlaced(arenas, arena, pending, root, log, j))
  }

  lemma LogNext(arenas: seq<Arena>, rank: seq<nat>, globals: set<GlobalId>, log: seq<Work>, after: Arena, work: Work)
    requires Logged(arenas, rank, globals, log) && !InLog(log, work.expression)
    requires Finishes(arenas[|log|], after, rank, globals, work)
    requires forall c :: c in Children(arenas[|log|][work.expression].kind) ==> InLog(log, c)
    ensures Logged(arenas + [after], rank, globals, log + [work])
  {
    hide Finishes, Children;
    var longer, more := arenas + [after], log + [work];
    forall i: nat | i < |more|
      ensures LoggedAt(longer, rank, globals, more, i)
    {
      if i < |log| {
        assert LoggedAt(arenas, rank, globals, log, i);
        assert more[..i] == log[..i];
      } else {
        assert more[..i] == log;
      }
    }
  }

  lemma InLogNext(log: seq<Work>, work: Work, n: ExpressionId)
    ensures InLog(log + [work], n) <==> InLog(log, n) || n == work.expression
  {
    if InLog(log, n) {
      var i :| 0 <= i < |log| && log[i].expression == n;
      assert (log + [work])[i].expression == n;
    }
    assert (log + [work])[|log|] == work;
  }

  // ---------------------------------------------------------------- the stack

  predicate IsOpen(work: Work) {
    !work.Enter?
  }

  // An expression that has been entered and is not finished.
  ghost predicate OpenAt(pending: seq<Work>, n: ExpressionId) {
    exists s :: 0 <= s < |pending| && IsOpen(pending[s]) && pending[s].expression == n
  }

  // The children of an entered expression have been entered or are pending above it.
  ghost predicate ChildrenPending(arena: Arena, visited: set<ExpressionId>, pending: seq<Work>, s: nat)
    requires s < |pending|
  {
    var n := pending[s].expression;
    n < |arena| && forall c :: c in Children(arena[n].kind) ==> c in visited || EntersAbove(pending, s, c)
  }

  ghost predicate EntersAbove(pending: seq<Work>, s: int, c: ExpressionId) {
    exists t :: 0 <= t < |pending| && s < t && pending[t].Enter? && pending[t].expression == c
  }

  ghost predicate OpenHolds(arena: Arena, visited: set<ExpressionId>, pending: seq<Work>, s: nat)
    requires s < |pending|
  {
    var work := pending[s];
    && work.expression in visited && ChildrenPending(arena, visited, pending, s)
    && (work.Inline? <==> IsPlainLet(arena[work.expression].kind))
    && (work.Inline? ==> arena[work.expression].kind == Let(false, work.bindings, work.body))
    && (arena[work.expression].kind.Local? ==> s == |pending| - 1)
  }

  ghost predicate StackHolds(arena: Arena, rank: seq<nat>, visited: set<ExpressionId>, pending: seq<Work>) {
    && |rank| == |arena|
    && (forall s :: 0 <= s < |pending| ==> pending[s].expression < |arena|)
    && (forall s: nat :: s < |pending| && IsOpen(pending[s]) ==> OpenHolds(arena, visited, pending, s))
    && (forall s, t :: 0 <= s < t < |pending| && IsOpen(pending[s]) ==> rank[pending[t].expression] < rank[pending[s].expression])
  }

  // Entered expressions are finished or open.
  ghost predicate VisitedHolds(visited: set<ExpressionId>, pending: seq<Work>, log: seq<Work>) {
    && (forall n :: n in visited <==> InLog(log, n) || OpenAt(pending, n))
    && (forall n :: OpenAt(pending, n) ==> !InLog(log, n))
  }

  // What holds all along.
  ghost predicate Traversing(before: Arena, now: Arena, rank: seq<nat>, globals: set<GlobalId>, root: ExpressionId,
                             visited: set<ExpressionId>, pending: seq<Work>, arenas: seq<Arena>, log: seq<Work>)
  {
    && WellFormed(now, rank) && Reduces(before, now, rank) && |now| == |before|
    && Logged(arenas, rank, globals, log) && arenas[0] == before && arenas[|log|] == now
    && StackHolds(now, rank, visited, pending) && VisitedHolds(visited, pending, log)
    && (root in visited || EntersAbove(pending, -1, root))
    && (forall n :: n in visited ==> n < |now|)
    && AllPlaced(arenas, now, pending, root, log)
  }

  // ---------------------------------------------------------------- steps of the traversal

  lemma OpenFront(pending: seq<Work>, n: ExpressionId)
    requires pending != []
    ensures var front, last := pending[..|pending| - 1], pending[|pending| - 1];
            OpenAt(pending, n) <==> OpenAt(front, n) || (IsOpen(last) && last.expression == n)
  {
    var front := pending[..|pending| - 1];
    if OpenAt(front, n) {
      var s :| 0 <= s < |front| && IsOpen(front[s]) && front[s].expression == n;
      assert pending[s] == front[s];
    }
    if OpenAt(pending, n) {
      var s :| 0 <= s < |pending| && IsOpen(pending[s]) && pending[s].expression == n;
      assert s < |front| ==> front[s] == pending[s];
    }
  }

  // An expression that is entered already is passed over.
  lemma SkipStep(before: Arena, now: Arena, rank: seq<nat>, globals: set<GlobalId>, root: ExpressionId,
                 visited: set<ExpressionId>, pending: seq<Work>, arenas: seq<Arena>, log: seq<Work>)
    requires Traversing(before, now, rank, globals, root, visited, pending, arenas, log) && pending != []
    requires pending[|pending| - 1].Enter? && pending[|pending| - 1].expression in visited
    ensures Traversing(before, now, rank, globals, root, visited, pending[..|pending| - 1], arenas, log)
  {
    hide WellFormed, Reduces, Logged, Children, InLog, AllPlaced;
    var front, last := pending[..|pending| - 1], pending[|pending| - 1];
    SkipPlaced(arenas, now, pending, root, log);
    forall n
      ensures OpenAt(pending, n) <==> OpenAt(front, n)
    {
      OpenFront(pending, n);
    }
    hide OpenAt;
    forall s: nat | s < |front| && IsOpen(front[s])
      ensures OpenHolds(now, visited, front, s)
    {
      assert OpenHolds(now, visited, pending, s);
      StillPending(pending, s, visited);
    }
    StillPending(pending, -1, visited);
  }

  // What is pending above stays so, except for the last.
  lemma StillPending(pending: seq<Work>, s: int, visited: set<ExpressionId>)
    requires pending != [] && pending[|pending| - 1].expression in visited
    ensures forall c :: EntersAbove(pending, s, c) ==> c in visited || EntersAbove(pending[..|pending| - 1], s, c)
  {
    var front := pending[..|pending| - 1];
    forall c | EntersAbove(pending, s, c)
      ensures c in visited || EntersAbove(front, s, c)
    {
      var t :| 0 <= t < |pending| && s < t && pending[t].Enter? && pending[t].expression == c;
      assert t < |front| ==> front[t] == pending[t];
    }
  }

  // A parent stays open as long as what is below stays.
  lemma ParentStays(arena: Arena, pending: seq<Work>, pending': seq<Work>, bound: nat, child: Work)
    requires bound <= |pending| && bound <= |pending'| && pending'[..bound] == pending[..bound]
    requires ParentOpen(arena, pending, bound, child)
    ensures ParentOpen(arena, pending', bound, child)
  {
    hide IsChildAt;
    var s :| 0 <= s < bound && s < |pending| && IsOpen(pending[s]) && pending[s].expression < |arena|
             && IsChildAt(arena[pending[s].expression].kind, pending[s].position, child);
    assert pending'[..bound][s] == pending[..bound][s];
  }

  lemma ParentBelow(arena: Arena, pending: seq<Work>, bound: nat, more: nat, child: Work)
    requires ParentOpen(arena, pending, bound, child) && bound <= more
    ensures ParentOpen(arena, pending, more, child)
  {
    hide IsChildAt;
  }

  // An expression that is still to be entered is no parent.
  lemma ParentIsNotLast(arena: Arena, pending: seq<Work>, child: Work)
    requires pending != [] && pending[|pending| - 1].Enter? && ParentOpen(arena, pending, |pending|, child)
    ensures ParentOpen(arena, pending, |pending| - 1, child)
  {
    hide IsChildAt;
  }

  lemma SkipPlaced(arenas: seq<Arena>, arena: Arena, pending: seq<Work>, root: ExpressionId, log: seq<Work>)
    requires AllPlaced(arenas, arena, pending, root, log) && pending != [] && pending[|pending| - 1].Enter?
    ensures AllPlaced(arenas, arena, pending[..|pending| - 1], root, log)
  {
    hide ParentOpen, PlacedInLog;
    var n := |pending| - 1;
    var front := pending[..n];
    forall t: nat | t < |front|
      ensures PlacedAt(arena, front, root, t)
    {
      assert PlacedAt(arena, pending, root, t) && front[..t] == pending[..t];
      if ParentOpen(arena, pending, t, pending[t]) {
        ParentStays(arena, pending, front, t, pending[t]);
      }
    }
    forall j: nat | j < |log|
      ensures LogPlaced(arenas, arena, front, root, log, j)
    {
      assert LogPlaced(arenas, arena, pending, root, log, j);
      if ParentOpen(arena, pending, |pending|, log[j]) {
        ParentIsNotLast(arena, pending, log[j]);
        ParentStays(arena, pending, front, n, log[j]);
      }
    }
  }

  // Everything is entered above what was pending.
  function EnterAll(visits: seq<Visit>): (r: seq<Work>)
    ensures |r| == |visits|
    ensures forall k :: 0 <= k < |r| ==>
              r[k] == Enter(visits[|visits| - 1 - k].expression, visits[|visits| - 1 - k].position)
  {
    seq(|visits|, k requires 0 <= k < |visits| => Enter(visits[|visits| - 1 - k].expression, visits[|visits| - 1 - k].position))
  }

  // The work that finishes an expression that is entered now.
  function Finishing(arena: Arena, n: ExpressionId, position: EffectPosition): (work: Work)
    requires n < |arena|
    ensures IsOpen(work) && work.expression == n && work.position == position
    ensures work.Inline? <==> IsPlainLet(arena[n].kind)
    ensures work.Inline? ==> arena[n].kind == Let(false, work.bindings, work.body)
  {
    var kind := arena[n].kind;
    if kind.Let? && !kind.recursive then Inline(n, kind.bindings, kind.body, position) else Finish(n, position)
  }

  function Entering(arena: Arena, pending: seq<Work>): seq<Work>
    requires pending != [] && pending[|pending| - 1].Enter? && pending[|pending| - 1].expression < |arena|
  {
    var Enter(n, position) := pending[|pending| - 1];
    pending[..|pending| - 1] + [Finishing(arena, n, position)] + EnterAll(ChildVisits(arena[n].kind, position, false))
  }

  lemma EnteringShape(arena: Arena, pending: seq<Work>)
    requires pending != [] && pending[|pending| - 1].Enter? && pending[|pending| - 1].expression < |arena|
    ensures var n, s0, entering := pending[|pending| - 1].expression, |pending| - 1, Entering(arena, pending);
            var children := Children(arena[n].kind);
            && |entering| == |pending| + |children| && entering[..s0] == pending[..s0]
            && IsOpen(entering[s0]) && entering[s0].expression == n && entering[s0].position == pending[s0].position
            && (entering[s0].Inline? <==> IsPlainLet(arena[n].kind))
            && (entering[s0].Inline? ==> arena[n].kind == Let(false, entering[s0].bindings, entering[s0].body))
            && (forall t :: s0 < t < |entering| ==> entering[t].Enter? && entering[t].expression in children)
            && (forall c :: c in children ==> EntersAbove(entering, s0, c))
  {
    hide Children, ChildEvaluations;
    var Enter(n, position) := pending[|pending| - 1];
    var s0, entering, children := |pending| - 1, Entering(arena, pending), Children(arena[n].kind);
    var visits := ChildVisits(arena[n].kind, position, false);
    assert forall k :: 0 <= k < |visits| ==> visits[k].expression == Expressions(visits)[k];
    forall c | c in children
      ensures EntersAbove(entering, s0, c)
    {
      var k :| 0 <= k < |children| && children[k] == c;
      assert entering[s0 + 1 + (|children| - 1 - k)].expression == c;
    }
  }

  lemma EnterStep(before: Arena, now: Arena, rank: seq<nat>, globals: set<GlobalId>, root: ExpressionId,
                  visited: set<ExpressionId>, pending: seq<Work>, arenas: seq<Arena>, log: seq<Work>)
    requires Traversing(before, now, rank, globals, root, visited, pending, arenas, log) && pending != []
    requires pending[|pending| - 1].Enter? && pending[|pending| - 1].expression !in visited
    ensures pending[|pending| - 1].expression < |now|
    ensures Traversing(before, now, rank, globals, root, visited + {pending[|pending| - 1].expression}, Entering(now, pending), arenas, log)
  {
    hide Reduces, Logged, Children, InLog, BoundsBelow, BoundsUnique, Entering, AllPlaced;
    var n, entering := pending[|pending| - 1].expression, Entering(now, pending);
    EnterPlaced(arenas, now, pending, root, log);
    var more := visited + {n};
    EnteringShape(now, pending);
    EnterVisited(now, pending, visited, log);
    EnterStack(now, rank, visited, pending);
    StillPending(pending, -1, more);
    EntersAboveFront(pending, entering, -1);
  }

  // The children are entered where they stand below the expression that becomes open.
  lemma EnteredChildren(arena: Arena, pending: seq<Work>, t: nat)
    requires pending != [] && pending[|pending| - 1].Enter? && pending[|pending| - 1].expression < |arena|
    requires |pending| <= t < |Entering(arena, pending)|
    ensures ParentOpen(arena, Entering(arena, pending), t, Entering(arena, pending)[t])
  {
    hide Children, ChildEvaluations;
    var Enter(n, position) := pending[|pending| - 1];
    var s0, entering := |pending| - 1, Entering(arena, pending);
    var kind := arena[n].kind;
    var visits := ChildVisits(kind, position, false);
    EvaluationCount(kind, position);
    var k: nat := |visits| - 1 - (t - |pending|);
    assert entering[t] == EnterAll(visits)[t - |pending|] == Enter(visits[k].expression, visits[k].position);
    assert visits[k].expression == Expressions(visits)[k] == Children(kind)[k];
    assert visits[k].position == ChildEvaluations(kind, position)[k].position;
    assert IsChildAt(kind, position, entering[t]);
    assert entering[s0] == Finishing(arena, n, position);
  }

  lemma EnterPlaced(arenas: seq<Arena>, arena: Arena, pending: seq<Work>, root: ExpressionId, log: seq<Work>)
    requires AllPlaced(arenas, arena, pending, root, log) && pending != [] && pending[|pending| - 1].Enter?
    requires pending[|pending| - 1].expression < |arena|
    ensures AllPlaced(arenas, arena, Entering(arena, pending), root, log)
  {
    hide ParentOpen, PlacedInLog, Entering, Children;
    var s0, entering := |pending| - 1, Entering(arena, pending);
    EnteringShape(arena, pending);
    forall t: nat | t < |entering|
      ensures PlacedAt(arena, entering, root, t)
    {
      if t < |pending| {
        assert PlacedAt(arena, pending, root, t);
        assert entering[..t] == entering[..s0][..t] == pending[..s0][..t] == pending[..t];
        assert t < s0 ==> entering[t] == entering[..s0][t] == pending[..s0][t];
        if ParentOpen(arena, pending, t, pending[t]) {
          ParentStays(arena, pending, entering, t, pending[t]);
          SamePlace(arena, entering, t, pending[t], entering[t]);
        }
      } else {
        EnteredChildren(arena, pending, t);
      }
    }
    forall j: nat | j < |log|
      ensures LogPlaced(arenas, arena, entering, root, log, j)
    {
      assert LogPlaced(arenas, arena, pending, root, log, j);
      if ParentOpen(arena, pending, |pending|, log[j]) {
        ParentIsNotLast(arena, pending, log[j]);
        ParentStays(arena, pending, entering, s0, log[j]);
        ParentBelow(arena, entering, s0, |entering|, log[j]);
      }
    }
  }

  lemma SamePlace(arena: Arena, pending: seq<Work>, bound: nat, a: Work, b: Work)
    requires ParentOpen(arena, pending, bound, a) && b.expression == a.expression && b.position == a.position
    ensures ParentOpen(arena, pending, bound, b)
  {
    hide Children, ChildEvaluations;
    var s :| 0 <= s < bound && s < |pending| && IsOpen(pending[s]) && pending[s].expression < |arena|
             && IsChildAt(arena[pending[s].expression].kind, pending[s].position, a);
    SameChild(arena[pending[s].expression].kind, pending[s].position, a, b);
  }

  lemma SameChild(kind: ExpressionKind, position: EffectPosition, a: Work, b: Work)
    requires IsChildAt(kind, position, a) && b.expression == a.expression && b.position == a.position
    ensures IsChildAt(kind, position, b)
  {
    hide Children, ChildEvaluations;
  }

  lemma EntersAboveFront(pending: seq<Work>, entering: seq<Work>, s: int)
    requires pending != [] && |entering| >= |pending| && entering[..|pending| - 1] == pending[..|pending| - 1]
    ensures forall c :: EntersAbove(pending[..|pending| - 1], s, c) ==> EntersAbove(entering, s, c)
  {
    var front := pending[..|pending| - 1];
    forall c | EntersAbove(front, s, c)
      ensures EntersAbove(entering, s, c)
    {
      var t :| 0 <= t < |front| && s < t && front[t].Enter? && front[t].expression == c;
      assert entering[t] == entering[..|front|][t];
    }
  }

  lemma EnterVisited(now: Arena, pending: seq<Work>, visited: set<ExpressionId>, log: seq<Work>)
    requires pending != [] && pending[|pending| - 1].Enter? && pending[|pending| - 1].expression < |now|
    requires pending[|pending| - 1].expression !in visited && VisitedHolds(visited, pending, log)
    ensures VisitedHolds(visited + {pending[|pending| - 1].expression}, Entering(now, pending), log)
  {
    hide InLog, Children, Entering;
    var n, s0, entering := pending[|pending| - 1].expression, |pending| - 1, Entering(now, pending);
    EnteringShape(now, pending);
    forall m
      ensures OpenAt(entering, m) <==> OpenAt(pending, m) || m == n
    {
      assert OpenAt(entering, n) by {
        assert IsOpen(entering[s0]) && entering[s0].expression == n;
      }
      OpenFront(pending, m);
      if OpenAt(pending[..s0], m) {
        var s :| 0 <= s < s0 && IsOpen(pending[..s0][s]) && pending[..s0][s].expression == m;
        assert entering[..s0][s] == entering[s];
      }
      if OpenAt(entering, m) {
        var s :| 0 <= s < |entering| && IsOpen(entering[s]) && entering[s].expression == m;
        assert s < s0 ==> entering[s] == entering[..s0][s] && pending[s] == pending[..s0][s];
      }
    }
  }

  lemma EnterStack(now: Arena, rank: seq<nat>, visited: set<ExpressionId>, pending: seq<Work>)
    requires Acyclic(now, rank) && StackHolds(now, rank, visited, pending) && pending != [] && pending[|pending| - 1].Enter?
    ensures StackHolds(now, rank, visited + {pending[|pending| - 1].expression}, Entering(now, pending))
  {
    hide Children, Entering;
    var n, s0, entering := pending[|pending| - 1].expression, |pending| - 1, Entering(now, pending);
    var more := visited + {n};
    EnteringShape(now, pending);
    assert forall s :: 0 <= s < s0 ==> entering[s] == entering[..s0][s] && pending[s] == pending[..s0][s];
    assert forall c :: c in Children(now[n].kind) ==> c < |now| && rank[c] < rank[n];
    hide Acyclic;
    forall s: nat | s < |entering| && IsOpen(entering[s])
      ensures OpenHolds(now, more, entering, s)
    {
      if s < s0 {
        assert OpenHolds(now, visited, pending, s);
        StillPending(pending, s, more);
        EntersAboveFront(pending, entering, s);
      } else {
        LocalIsLeaf(now[n].kind);
      }
    }
  }

  lemma LocalIsLeaf(kind: ExpressionKind)
    ensures kind.Local? ==> Children(kind) == []
  {
  }

  // When an expression is on top, all its children are finished.
  lemma ChildrenFinished(now: Arena, rank: seq<nat>, visited: set<ExpressionId>, pending: seq<Work>, log: seq<Work>, c: ExpressionId)
    requires Acyclic(now, rank) && StackHolds(now, rank, visited, pending) && VisitedHolds(visited, pending, log)
    requires pending != [] && IsOpen(pending[|pending| - 1]) && c in Children(now[pending[|pending| - 1].expression].kind)
    ensures InLog(log, c)
  {
    hide Children, InLog;
    var top := |pending| - 1;
    var n := pending[top].expression;
    assert OpenHolds(now, visited, pending, top);
    assert !EntersAbove(pending, top, c);
    assert c in visited;
    assert rank[c] < rank[n];
    assert !OpenAt(pending, c);
  }

  lemma FinishStep(before: Arena, now: Arena, after: Arena, rank: seq<nat>, globals: set<GlobalId>, root: ExpressionId,
                   visited: set<ExpressionId>, pending: seq<Work>, arenas: seq<Arena>, log: seq<Work>)
    requires Traversing(before, now, rank, globals, root, visited, pending, arenas, log) && pending != [] && IsOpen(pending[|pending| - 1])
    requires Finishes(now, after, rank, globals, pending[|pending| - 1]) && WellFormed(after, rank) && Reduces(now, after, rank)
    ensures Traversing(before, after, rank, globals, root, visited, pending[..|pending| - 1], arenas + [after], log + [pending[|pending| - 1]])
  {
    hide Reduces, Logged, Children, InLog, BoundsBelow, BoundsUnique, Finishes, OpenAt, AllPlaced;
    var front, work := pending[..|pending| - 1], pending[|pending| - 1];
    var n := work.expression;
    OpenTop(pending);
    LogLength(arenas, rank, globals, log);
    FinishPlaced(arenas, now, after, rank, globals, visited, pending, root, log);
    forall c | c in Children(now[n].kind)
      ensures InLog(log, c)
    {
      ChildrenFinished(now, rank, visited, pending, log, c);
    }
    LogNext(arenas, rank, globals, log, after, work);
    ReducesOn(before, now, after, rank);
    FinishLengths(now, after, rank, globals, work);
    FinishVisited(now, rank, visited, pending, log);
    FinishStack(now, after, rank, globals, visited, pending);
    RootPending(pending, root);
  }

  // Open expressions keep what they are, so that what is below them keeps its place. What was below
  // the one that is finished is below an entry of the log now.
  lemma FinishPlaced(arenas: seq<Arena>, now: Arena, after: Arena, rank: seq<nat>, globals: set<GlobalId>, visited: set<ExpressionId>,
                     pending: seq<Work>, root: ExpressionId, log: seq<Work>)
    requires AllPlaced(arenas, now, pending, root, log) && StackHolds(now, rank, visited, pending)
    requires pending != [] && IsOpen(pending[|pending| - 1]) && |arenas| == |log| + 1 && arenas[|log|] == now
    requires Finishes(now, after, rank, globals, pending[|pending| - 1])
    ensures AllPlaced(arenas + [after], after, pending[..|pending| - 1], root, log + [pending[|pending| - 1]])
  {
    hide ParentOpen, PlacedInLog, Finishes, StackHolds;
    var n, front, work := |pending| - 1, pending[..|pending| - 1], pending[|pending| - 1];
    forall t: nat | t < |front|
      ensures PlacedAt(after, front, root, t)
    {
      assert PlacedAt(now, pending, root, t) && front[..t] == pending[..t];
      if ParentOpen(now, pending, t, pending[t]) {
        ParentKept(now, after, rank, globals, visited, pending, t, pending[t]);
      }
    }
    forall j: nat | j < |log + [work]|
      ensures LogPlaced(arenas + [after], after, front, root, log + [work], j)
    {
      if j < |log| {
        assert LogPlaced(arenas, now, pending, root, log, j);
        if ParentOpen(now, pending, |pending|, log[j]) {
          ParentMoves(arenas, now, after, rank, globals, visited, pending, root, log, j);
        } else {
          LogStays(arenas, after, root, log, work, j);
        }
      } else {
        assert PlacedAt(now, pending, root, n);
        if ParentOpen(now, pending, n, work) {
          ParentKept(now, after, rank, globals, visited, pending, n, work);
        } else {
          RootPlaced(arenas + [after], root, log + [work], j);
        }
      }
    }
  }

  lemma RootPlaced(arenas: seq<Arena>, root: ExpressionId, log: seq<Work>, j: nat)
    requires |arenas| == |log| + 1 && j < |log| && IsRoot(root, log[j])
    ensures PlacedInLog(arenas, root, log, j)
  {
  }

  lemma LogStays(arenas: seq<Arena>, after: Arena, root: ExpressionId, log: seq<Work>, work: Work, j: nat)
    requires |arenas| == |log| + 1 && j < |log| && PlacedInLog(arenas, root, log, j)
    ensures PlacedInLog(arenas + [after], root, log + [work], j)
  {
    hide IsChildAt;
    var longer, more := arenas + [after], log + [work];
    if !IsRoot(root, log[j]) {
      var i :| j < i < |log| && ParentInLog(arenas, log, i, log[j]);
      assert longer[i] == arenas[i] && more[i] == log[i];
      assert ParentInLog(longer, more, i, more[j]);
    }
  }

  // A parent below the one that is finished is still there and is what it was.
  lemma ParentKept(now: Arena, after: Arena, rank: seq<nat>, globals: set<GlobalId>, visited: set<ExpressionId>,
                   pending: seq<Work>, bound: nat, child: Work)
    requires StackHolds(now, rank, visited, pending) && pending != [] && IsOpen(pending[|pending| - 1])
    requires Finishes(now, after, rank, globals, pending[|pending| - 1]) && bound < |pending| && ParentOpen(now, pending, bound, child)
    ensures ParentOpen(after, pending[..|pending| - 1], bound, child) && ParentOpen(after, pending[..|pending| - 1], |pending| - 1, child)
  {
    hide IsChildAt, Finishes;
    var front := pending[..|pending| - 1];
    var s: nat :| s < bound && s < |pending| && IsOpen(pending[s]) && pending[s].expression < |now|
                  && IsChildAt(now[pending[s].expression].kind, pending[s].position, child);
    OpenStays(now, after, rank, globals, visited, pending, s);
    assert front[s] == pending[s];
  }

  lemma OpenStays(now: Arena, after: Arena, rank: seq<nat>, globals: set<GlobalId>, visited: set<ExpressionId>, pending: seq<Work>, s: nat)
    requires StackHolds(now, rank, visited, pending) && pending != [] && IsOpen(pending[|pending| - 1])
    requires Finishes(now, after, rank, globals, pending[|pending| - 1]) && s < |pending| - 1 && IsOpen(pending[s])
    ensures pending[s].expression < |now| == |after| && after[pending[s].expression] == now[pending[s].expression]
  {
    hide Children;
    assert OpenHolds(now, visited, pending, s);
    assert rank[pending[|pending| - 1].expression] < rank[pending[s].expression];
    FinishChanges(now, after, rank, globals, pending[|pending| - 1], pending[s].expression);
  }

  lemma ParentMoves(arenas: seq<Arena>, now: Arena, after: Arena, rank: seq<nat>, globals: set<GlobalId>, visited: set<ExpressionId>,
                    pending: seq<Work>, root: ExpressionId, log: seq<Work>, j: nat)
    requires StackHolds(now, rank, visited, pending) && pending != [] && IsOpen(pending[|pending| - 1])
    requires Finishes(now, after, rank, globals, pending[|pending| - 1])
    requires |arenas| == |log| + 1 && arenas[|log|] == now && j < |log| && ParentOpen(now, pending, |pending|, log[j])
    ensures LogPlaced(arenas + [after], after, pending[..|pending| - 1], root, log + [pending[|pending| - 1]], j)
  {
    hide IsChildAt, Finishes, StackHolds;
    var n, work := |pending| - 1, pending[|pending| - 1];
    var longer, more := arenas + [after], log + [work];
    var s: nat :| s < |pending| && IsOpen(pending[s]) && pending[s].expression < |now|
                  && IsChildAt(now[pending[s].expression].kind, pending[s].position, log[j]);
    if s == n {
      assert longer[|log|] == now && more[|log|] == work;
      assert ParentInLog(longer, more, |log|, more[j]);
    } else {
      assert ParentOpen(now, pending, n, log[j]);
      ParentKept(now, after, rank, globals, visited, pending, n, log[j]);
    }
  }

  lemma LogLength(arenas: seq<Arena>, rank: seq<nat>, globals: set<GlobalId>, log: seq<Work>)
    requires Logged(arenas, rank, globals, log)
    ensures |arenas| == |log| + 1
  {
    hide LoggedAt;
  }

  lemma FinishLengths(now: Arena, after: Arena, rank: seq<nat>, globals: set<GlobalId>, work: Work)
    requires Finishes(now, after, rank, globals, work)
    ensures |after| == |now|
  {
    hide LetRewritten, FoldAt;
  }

  lemma RootPending(pending: seq<Work>, root: ExpressionId)
    requires pending != [] && IsOpen(pending[|pending| - 1])
    ensures EntersAbove(pending, -1, root) ==> EntersAbove(pending[..|pending| - 1], -1, root)
  {
    if EntersAbove(pending, -1, root) {
      var t :| 0 <= t < |pending| && -1 < t && pending[t].Enter? && pending[t].expression == root;
      assert pending[..|pending| - 1][t] == pending[t];
    }
  }

  lemma OpenTop(pending: seq<Work>)
    requires pending != [] && IsOpen(pending[|pending| - 1])
    ensures OpenAt(pending, pending[|pending| - 1].expression)
  {
  }

  lemma FinishVisited(now: Arena, rank: seq<nat>, visited: set<ExpressionId>, pending: seq<Work>, log: seq<Work>)
    requires StackHolds(now, rank, visited, pending) && VisitedHolds(visited, pending, log) && pending != [] && IsOpen(pending[|pending| - 1])
    ensures VisitedHolds(visited, pending[..|pending| - 1], log + [pending[|pending| - 1]])
  {
    hide InLog, OpenHolds;
    var front, work := pending[..|pending| - 1], pending[|pending| - 1];
    assert !OpenAt(front, work.expression);
    hide OpenAt;
    forall n
      ensures OpenAt(pending, n) <==> OpenAt(front, n) || n == work.expression
      ensures InLog(log + [work], n) <==> InLog(log, n) || n == work.expression
    {
      OpenFront(pending, n);
      InLogNext(log, work, n);
    }
  }

  lemma FinishStack(now: Arena, after: Arena, rank: seq<nat>, globals: set<GlobalId>, visited: set<ExpressionId>, pending: seq<Work>)
    requires StackHolds(now, rank, visited, pending) && pending != [] && IsOpen(pending[|pending| - 1]) && |after| == |now|
    requires Finishes(now, after, rank, globals, pending[|pending| - 1])
    ensures StackHolds(after, rank, visited, pending[..|pending| - 1])
  {
    hide Children, Finishes;
    var front, top := pending[..|pending| - 1], |pending| - 1;
    forall s: nat | s < |front| && IsOpen(front[s])
      ensures OpenHolds(after, visited, front, s)
    {
      assert OpenHolds(now, visited, pending, s);
      var m := pending[s].expression;
      FinishChanges(now, after, rank, globals, pending[top], m);
      forall c | EntersAbove(pending, s, c)
        ensures EntersAbove(front, s, c)
      {
        var t :| 0 <= t < |pending| && s < t && pending[t].Enter? && pending[t].expression == c;
        assert front[t] == pending[t];
      }
    }
  }

  // ---------------------------------------------------------------- the traversal

  lemma StartTraversal(before: Arena, rank: seq<nat>, globals: set<GlobalId>, root: ExpressionId)
    requires WellFormed(before, rank) && root < |before|
    ensures Traversing(before, before, rank, globals, root, {}, [Enter(root, Constructed)], [before], [])
  {
    hide BoundsBelow, BoundsUnique, Children;
    ReducesToItself(before, rank);
    assert [Enter(root, Constructed)][0].expression == root;
    assert PlacedAt(before, [Enter(root, Constructed)], root, 0);
  }

  lemma TraversingFits(before: Arena, now: Arena, rank: seq<nat>, globals: set<GlobalId>, root: ExpressionId,
                       visited: set<ExpressionId>, pending: seq<Work>, arenas: seq<Arena>, log: seq<Work>)
    requires Traversing(before, now, rank, globals, root, visited, pending, arenas, log) && pending != []
    ensures WellFormed(now, rank) && pending[|pending| - 1].expression < |now| == |before|
    ensures var work := pending[|pending| - 1]; work.Inline? ==> now[work.expression].kind == Let(false, work.bindings, work.body)
    ensures var work := pending[|pending| - 1]; work.Finish? ==> !IsPlainLet(now[work.expression].kind)
    ensures forall n :: n in visited ==> n < |now|
  {
    hide BoundsBelow, BoundsUnique, Children, Reduces, Logged, VisitedHolds, Acyclic;
    var top: nat := |pending| - 1;
    assert IsOpen(pending[top]) ==> OpenHolds(now, visited, pending, top);
  }

  lemma MoreVisited(visited: set<ExpressionId>, n: ExpressionId, all: nat)
    requires n !in visited && n < all
    ensures |Graphs.Below(all) - (visited + {n})| < |Graphs.Below(all) - visited|
  {
    assert Graphs.Below(all) - visited == (Graphs.Below(all) - (visited + {n})) + {n};
  }

  // A `let` is no negation, so that there is nothing to fold before its bindings are inlined.
  lemma LetIsNotFolded(arena: Arena, n: ExpressionId)
    requires n < |arena| && arena[n].kind.Let?
    ensures FoldedKind(arena, n).None? && FoldAt(arena, n) == arena
  {
  }

  lemma InlineFinishes(before: Arena, after: Arena, rank: seq<nat>, globals: set<GlobalId>, work: Work)
    requires work.Inline? && work.expression < |before| && before[work.expression].kind == Let(false, work.bindings, work.body)
    requires WellFormed(before, rank) && Reduces(before, after, rank)
    requires LetRewritten(before, after, rank, work.expression, work.position, globals)
    ensures Finishes(before, after, rank, globals, work)
  {
    hide WellFormed, Reduces, LetRewritten, FoldAt;
    ReducesIsWellFormed(before, after, rank);
  }

  lemma FoldFinishes(before: Arena, after: Arena, rank: seq<nat>, globals: set<GlobalId>, work: Work)
    requires work.expression < |before| && !IsPlainLet(before[work.expression].kind) && after == FoldAt(before, work.expression)
    ensures Finishes(before, after, rank, globals, work)
  {
  }

  // Optimizes an expression: every expression below it is finished once, after its children, by
  // inlining the bindings of a `let` in the position where it stands or folding a negation, and
  // the result is reached by rewrites that keep meanings.
  method InlineSimpleBindings(storage: Storage, ghost rank: seq<nat>, root: ExpressionId, globals: set<GlobalId>)
    returns (ghost arenas: seq<Arena>, ghost log: seq<Work>)
    requires WellFormed(storage.expressions, rank) && root < |storage.expressions|
    modifies storage
    ensures WellFormed(storage.expressions, rank) && Reduces(old(storage.expressions), storage.expressions, rank)
    ensures Logged(arenas, rank, globals, log) && InLog(log, root)
    ensures forall j: nat :: j < |log| ==> PlacedInLog(arenas, root, log, j)
    ensures arenas[0] == old(storage.expressions) && arenas[|log|] == storage.expressions
  {
    hide WellFormed, Reduces, Logged, InLog, Traversing, FoldAt, Finishes, LetRewritten, Children, Acyclic, Entering, PlacedInLog;
    ghost var before := storage.expressions;
    var visited: set<ExpressionId> := {};
    var pending := [Enter(root, Constructed)];
    arenas, log := [before], [];
    StartTraversal(before, rank, globals, root);
    while pending != []
      invariant Traversing(before, storage.expressions, rank, globals, root, visited, pending, arenas, log)
      decreases |Graphs.Below(|before|) - visited|, |pending|
    {
      ghost var now := storage.expressions;
      TraversingFits(before, now, rank, globals, root, visited, pending, arenas, log);
      var work := pending[|pending| - 1];
      match work {
        case Enter(expression, position) =>
          if expression in visited {
            SkipStep(before, now, rank, globals, root, visited, pending, arenas, log);
            pending := pending[..|pending| - 1];
          } else {
            EnterStep(before, now, rank, globals, root, visited, pending, arenas, log);
            MoreVisited(visited, expression, |before|);
            visited := visited + {expression};
            pending := Entering(storage.expressions, pending);
          }
        case Finish(expression, _) =>
          var folded := FoldNegation(storage, rank, expression);
          FoldFinishes(now, storage.expressions, rank, globals, work);
          FinishStep(before, now, storage.expressions, rank, globals, root, visited, pending, arenas, log);
          pending, arenas, log := pending[..|pending| - 1], arenas + [storage.expressions], log + [work];
        case Inline(expression, bindings, body, position) =>
          LetIsNotFolded(now, expression);
          var folded := FoldNegation(storage, rank, expression);
          if !folded {
            InlineBindings(storage, rank, expression, bindings, body, position, globals);
          }
          InlineFinishes(now, storage.expressions, rank, globals, work);
          FinishStep(before, now, storage.expressions, rank, globals, root, visited, pending, arenas, log);
          pending, arenas, log := pending[..|pending| - 1], arenas + [storage.expressions], log + [work];
      }
    }
    DoneTraversing(before, storage.expressions, rank, globals, root, visited, arenas, log);
  }

  lemma DoneTraversing(before: Arena, now: Arena, rank: seq<nat>, globals: set<GlobalId>, root: ExpressionId,
                       visited: set<ExpressionId>, arenas: seq<Arena>, log: seq<Work>)
    requires Traversing(before, now, rank, globals, root, visited, [], arenas, log)
    ensures WellFormed(now, rank) && Reduces(before, now, rank) && Logged(arenas, rank, globals, log) && InLog(log, root)
    ensures |arenas| == |log| + 1 && arenas[0] == before && arenas[|log|] == now
    ensures forall j: nat :: j < |log| ==> PlacedInLog(arenas, root, log, j)
  {
    hide WellFormed, Reduces, LoggedAt, InLog, PlacedInLog;
    forall j: nat | j < |log|
      ensures PlacedInLog(arenas, root, log, j)
    {
      assert LogPlaced(arenas, now, [], root, log, j);
    }
  }

  // Optimizing a closed expression keeps its meaning, in every lawful interpretation, and frees
  // no local.
  method OptimizeMeaning<D(!new)>(storage: Storage, ghost rank: seq<nat>, root: ExpressionId, globals: set<GlobalId>, ghost alg: Algebra<D>, ghost boolean: D -> bool)
    requires WellFormed(storage.expressions, rank) && root < |storage.expressions|
    requires Lawful(alg, boolean) && BooleansNegated(storage.expressions, rank, alg, boolean) && Closed(storage.expressions, rank, root)
    modifies storage
    ensures WellFormed(storage.expressions, rank) && |storage.expressions| == |old(storage.expressions)| && Closed(storage.expressions, rank, root)
    ensures Free(storage.expressions, rank, root) <= Free(old(storage.expressions), rank, root)
    ensures Meaning(storage.expressions, rank, alg, root) == Meaning(old(storage.expressions), rank, alg, root)
  {
    ghost var before := storage.expressions;
    ghost var arenas, log := InlineSimpleBindings(storage, rank, root, globals);
    ReductionKeepsMeaning(before, storage.expressions, rank, alg, boolean, root);
  }
}
