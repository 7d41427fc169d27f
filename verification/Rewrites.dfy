// The rewrites that the optimizer makes to an arena, and why an expression keeps its meaning
// (compiler-backend/functional/src/optimize.rs). The meaning of an expression is what is left
// when every `let` that is not recursive is expanded, under any interpretation of the other
// expressions that obeys the laws of negation.
module Rewrites {
  import opened Numbers
  import opened FunctionalTree
  import opened TreeFolds
  import opened Wrappers

  // ---------------------------------------------------------------- bindings

  ghost predicate BindsAt(kind: ExpressionKind, k: nat, x: LocalId, e: ExpressionId) {
    && kind.Let? && !kind.recursive && k < |kind.bindings|
    && kind.bindings[k].parameter == x && kind.bindings[k].expression == e
  }

  ghost predicate Binds(kind: ExpressionKind, x: LocalId, e: ExpressionId) {
    exists k: nat :: BindsAt(kind, k, x, e)
  }

  // A `let` of the arena binds the local to the expression.
  ghost predicate Bound(arena: Arena, x: LocalId, e: ExpressionId) {
    exists n: ExpressionId :: n < |arena| && Binds(arena[n].kind, x, e)
  }

  // A local is bound to one expression, which ranks below every occurrence of the local.
  ghost predicate WellFormed(arena: Arena, rank: seq<nat>) {
    Acyclic(arena, rank) && BoundsBelow(arena, rank) && BoundsUnique(arena)
  }

  ghost predicate BoundsBelow(arena: Arena, rank: seq<nat>)
    requires |rank| == |arena|
  {
    forall x: LocalId, e: ExpressionId, n: ExpressionId :: Bound(arena, x, e) && n < |arena| && arena[n].kind == Local(x) ==>
      e < |arena| && rank[e] < rank[n]
  }

  ghost predicate BoundsUnique(arena: Arena) {
    forall x: LocalId, d: ExpressionId, e: ExpressionId :: Bound(arena, x, d) && Bound(arena, x, e) ==> d == e
  }

  lemma BoundIsChild(arena: Arena, rank: seq<nat>, n: ExpressionId, x: LocalId, e: ExpressionId) returns (k: nat)
    requires Acyclic(arena, rank) && n < |arena| && Binds(arena[n].kind, x, e)
    ensures k < |Children(arena[n].kind)| && Children(arena[n].kind)[k] == e && e < |arena| && rank[e] < rank[n]
  {
    k :| BindsAt(arena[n].kind, k, x, e);
    assert Children(arena[n].kind)[k] == e;
  }

  lemma BoundInArena(arena: Arena, rank: seq<nat>, x: LocalId, e: ExpressionId)
    requires Acyclic(arena, rank) && Bound(arena, x, e)
    ensures e < |arena|
  {
    var n: ExpressionId :| n < |arena| && Binds(arena[n].kind, x, e);
    var k := BoundIsChild(arena, rank, n, x, e);
  }

  // Every bound local stands for what it is bound to.
  ghost predicate Consistent<D>(arena: Arena, rank: seq<nat>, alg: Algebra<D>, env: map<LocalId, D>)
    requires Acyclic(arena, rank)
  {
    forall x: LocalId, e: ExpressionId :: Bound(arena, x, e) && e < |arena| ==> x in env && env[x] == Fold(arena, rank, alg, env, e)
  }

  // ---------------------------------------------------------------- negation

  const INTEGER_LIMIT: int := 0x8000_0000

  predicate FitsInteger32(i: int) {
    -INTEGER_LIMIT <= i < INTEGER_LIMIT
  }

  // Two's complement in 32 bits.
  function Wrap32(i: int): (r: Integer64)
    ensures FitsInteger32(r)
  {
    (i + INTEGER_LIMIT) % (2 * INTEGER_LIMIT) - INTEGER_LIMIT
  }

  // What negation gives when the result is cut to 32 bits.
  function NegatedModulo(i: int): Integer64 {
    Wrap32(-i)
  }

  function WrappingNegate(i: int): int
    requires FitsInteger32(i)
  {
    if i == -INTEGER_LIMIT then i else -i
  }

  // A literal beyond 32 bits is negated only when the result is within.
  function NegatedInteger(i: Integer64): Option<Integer64> {
    if FitsInteger32(i) then Some(WrappingNegate(i))
    else if i == -0x8000_0000_0000_0000 then None
    else if FitsInteger32(-i) then Some(-i)
    else None
  }

  function NegatedNumber(digits: string): string {
    if digits != [] && digits[0] == '-' then digits[1..] else ['-'] + digits
  }

  function FoldedNegation(arena: Arena, operator: UnaryOperator, value: ExpressionId): Option<Literal>
    requires value < |arena|
  {
    match (operator, arena[value].kind)
    case (IntegerNegate, LiteralKind(Integer(i))) =>
      var negated := NegatedInteger(i);
      if negated.Some? then Some(Integer(negated.value)) else None
    case (NumberNegate, LiteralKind(Number(digits))) => Some(Number(NegatedNumber(digits)))
    case _ => None
  }

  // Folding a negation gives what negation in 32 bits gives, and is possible exactly for the
  // literals within 32 bits and the one just above.
  lemma NegationWraps(i: Integer64)
    ensures NegatedInteger(i).Some? <==> FitsInteger32(i) || i == INTEGER_LIMIT
    ensures NegatedInteger(i).Some? ==> NegatedInteger(i).value == NegatedModulo(i)
  {
  }

  // Folding the negation of a number gives the spelling of its opposite.
  lemma NegatedIsOpposite(digits: string)
    ensures NumberOf(NegatedNumber(digits)) == Opposite(NumberOf(digits))
  {
    if !(digits != [] && digits[0] == '-') {
      assert (['-'] + digits)[1..] == digits;
    }
  }

  // Negating a number twice gives it back unless it starts with two signs.
  lemma NegatedTwice(digits: string)
    ensures NegatedNumber(NegatedNumber(digits)) == digits <==> !(|digits| >= 2 && digits[0] == '-' && digits[1] == '-')
  {
    if |digits| >= 2 && digits[0] == '-' && digits[1] == '-' {
      assert NegatedNumber(NegatedNumber(digits)) == digits[2..];
    } else if digits != [] && digits[0] == '-' {
      assert ['-'] + digits[1..] == digits;
    } else {
      assert (['-'] + digits)[1..] == digits;
    }
  }

  predicate ExpandsLet<D(==)>(alg: Algebra<D>, bindings: seq<Binding>, parts: seq<D>) {
    parts != [] ==> alg(Let(false, bindings, 0), parts) == parts[|parts| - 1]
  }

  predicate NegatesBoolean<D(==)>(alg: Algebra<D>, d: D) {
    alg(Unary(BooleanNot, 0), [alg(Unary(BooleanNot, 0), [d])]) == d
  }

  predicate NegatesInteger<D(==)>(alg: Algebra<D>, i: Integer64) {
    alg(Unary(IntegerNegate, 0), [alg(LiteralKind(Integer(i)), [])]) == alg(LiteralKind(Integer(NegatedModulo(i))), [])
  }

  predicate NegatesNumber<D(==)>(alg: Algebra<D>, digits: string, opposite: string) {
    NumberOf(opposite) == Opposite(NumberOf(digits)) ==>
      alg(Unary(NumberNegate, 0), [alg(LiteralKind(Number(digits)), [])]) == alg(LiteralKind(Number(opposite)), [])
  }

  // An interpretation that expands a `let` and knows what negation does. Only what `boolean` tells
  // to be booleans is negated twice to itself.
  ghost predicate Lawful<D(!new)>(alg: Algebra<D>, boolean: D -> bool) {
    && (forall bindings, parts :: ExpandsLet(alg, bindings, parts))
    && (forall d :: boolean(d) ==> NegatesBoolean(alg, d))
    && (forall i :: NegatesInteger(alg, i))
    && (forall digits, opposite :: NegatesNumber(alg, digits, opposite))
  }

  // What is negated as a boolean is one.
  ghost predicate NegatesBooleans<D>(arena: Arena, rank: seq<nat>, alg: Algebra<D>, env: map<LocalId, D>, boolean: D -> bool)
    requires Acyclic(arena, rank)
  {
    forall m: ExpressionId :: m < |arena| && IsNegation(arena[m].kind) && arena[m].kind.value < |arena| ==>
      boolean(Fold(arena, rank, alg, env, arena[m].kind.value))
  }

  predicate IsNegation(kind: ExpressionKind) {
    kind.Unary? && kind.unary == BooleanNot
  }

  // ---------------------------------------------------------------- rewrites

  // An occurrence of a bound local becomes what the local is bound to.
  ghost predicate Substitutes(arena: Arena, n: ExpressionId, kind: ExpressionKind, e: ExpressionId) {
    && n < |arena| && e < |arena| && arena[n].kind.Local? && Bound(arena, arena[n].kind.local, e)
    && kind == arena[e].kind
  }

  predicate Within(some: seq<Binding>, all: seq<Binding>) {
    forall k :: 0 <= k < |some| ==> some[k] in all
  }

  // None of the expressions uses a local freely that is bound in `all` and not in `some`.
  ghost predicate NotFree(arena: Arena, rank: seq<nat>, all: seq<Binding>, some: seq<Binding>, expressions: seq<ExpressionId>)
    requires Acyclic(arena, rank)
  {
    forall k, x :: 0 <= k < |expressions| && expressions[k] < |arena| && x in Free(arena, rank, expressions[k]) ==>
      x in Parameters(all) ==> x in Parameters(some)
  }

  // A `let` loses bindings that are not used, or all of them and itself.
  ghost predicate Drops(arena: Arena, rank: seq<nat>, n: ExpressionId, kind: ExpressionKind)
    requires Acyclic(arena, rank)
  {
    && n < |arena| && arena[n].kind.Let? && !arena[n].kind.recursive
    && var bindings, body := arena[n].kind.bindings, arena[n].kind.body;
    && body < |arena|
    && (|| (kind == arena[body].kind && NotFree(arena, rank, bindings, [], [body]))
        || (&& kind.Let? && !kind.recursive && kind.body == body && Within(kind.bindings, bindings)
            && NotFree(arena, rank, bindings, kind.bindings, Children(kind))))
  }

  ghost predicate Negates(arena: Arena, n: ExpressionId, kind: ExpressionKind) {
    && n < |arena| && arena[n].kind.Unary?
    && var operator, value := arena[n].kind.unary, arena[n].kind.value;
    && value < |arena|
    && (|| (&& operator == BooleanNot && arena[value].kind.Unary? && arena[value].kind.unary == BooleanNot
            && arena[value].kind.value < |arena| && kind == arena[arena[value].kind.value].kind)
        || (FoldedNegation(arena, operator, value).Some? && kind == LiteralKind(FoldedNegation(arena, operator, value).value)))
  }

  ghost predicate IsRewrite(arena: Arena, rank: seq<nat>, n: ExpressionId, kind: ExpressionKind)
    requires Acyclic(arena, rank)
  {
    (exists e: ExpressionId :: Substitutes(arena, n, kind, e)) || Drops(arena, rank, n, kind) || Negates(arena, n, kind)
  }

  // ---------------------------------------------------------------- one rewrite keeps the arena well-formed

  lemma LetChildren(kind: ExpressionKind)
    requires kind.Let?
    ensures |Children(kind)| == |kind.bindings| + 1 && Children(kind)[|kind.bindings|] == kind.body
    ensures forall k :: 0 <= k < |kind.bindings| ==> Children(kind)[k] == kind.bindings[k].expression
  {
  }

  lemma UnaryChildren(kind: ExpressionKind)
    requires kind.Unary?
    ensures Children(kind) == [kind.value]
  {
  }

  ghost predicate Copies(arena: Arena, rank: seq<nat>, n: ExpressionId, m: ExpressionId, kind: ExpressionKind)
    requires |rank| == |arena| && n < |arena|
  {
    m < |arena| && rank[m] < rank[n] && kind == arena[m].kind
  }

  ghost predicate Shortens(arena: Arena, n: ExpressionId, kind: ExpressionKind)
    requires n < |arena|
  {
    && arena[n].kind.Let? && !arena[n].kind.recursive && kind.Let? && !kind.recursive
    && kind.body == arena[n].kind.body && Within(kind.bindings, arena[n].kind.bindings)
  }

  // Every rewrite copies an expression that ranks lower, shortens a `let`, or makes a literal.
  lemma RewriteForm(arena: Arena, rank: seq<nat>, n: ExpressionId, kind: ExpressionKind)
    requires WellFormed(arena, rank) && IsRewrite(arena, rank, n, kind)
    ensures n < |arena|
    ensures (exists m: ExpressionId :: Copies(arena, rank, n, m, kind)) || Shortens(arena, n, kind) || kind.LiteralKind?
  {
    hide Children, Free;
    if e: ExpressionId :| Substitutes(arena, n, kind, e) {
      assert Copies(arena, rank, n, e, kind);
    } else if Drops(arena, rank, n, kind) {
      LetChildren(arena[n].kind);
      assert kind == arena[arena[n].kind.body].kind ==> Copies(arena, rank, n, arena[n].kind.body, kind);
    } else {
      NegationForm(arena, rank, n, kind);
    }
  }

  lemma NegationForm(arena: Arena, rank: seq<nat>, n: ExpressionId, kind: ExpressionKind)
    requires Acyclic(arena, rank) && Negates(arena, n, kind)
    ensures n < |arena| && ((exists m: ExpressionId :: Copies(arena, rank, n, m, kind)) || kind.LiteralKind?)
  {
    hide Children;
    UnaryChildren(arena[n].kind);
    var value := arena[n].kind.value;
    assert Children(arena[n].kind)[0] == value;
    if arena[value].kind.Unary? {
      UnaryChildren(arena[value].kind);
      assert Children(arena[value].kind)[0] == arena[value].kind.value;
      assert kind == arena[arena[value].kind.value].kind ==> Copies(arena, rank, n, arena[value].kind.value, kind);
    }
  }

  lemma ShortenedIsLower(arena: Arena, rank: seq<nat>, n: ExpressionId, kind: ExpressionKind)
    requires Acyclic(arena, rank) && n < |arena| && Shortens(arena, n, kind)
    ensures Lower(rank, Children(kind), rank[n])
  {
    hide Children;
    var all, some := arena[n].kind.bindings, kind.bindings;
    var children := Children(arena[n].kind);
    LetChildren(kind);
    LetChildren(arena[n].kind);
    forall k | 0 <= k < |Children(kind)|
      ensures Children(kind)[k] < |rank| && rank[Children(kind)[k]] < rank[n]
    {
      if k < |some| {
        assert some[k] in all;
        var j :| 0 <= j < |all| && all[j] == some[k];
        assert children[j] == some[k].expression;
      } else {
        assert children[|all|] == kind.body;
      }
    }
  }

  lemma CopyIsLower(arena: Arena, rank: seq<nat>, n: ExpressionId, m: ExpressionId, kind: ExpressionKind)
    requires Acyclic(arena, rank) && n < |arena| && Copies(arena, rank, n, m, kind)
    ensures Lower(rank, Children(kind), rank[n])
  {
    hide Children;
  }

  lemma LiteralIsLower(rank: seq<nat>, kind: ExpressionKind, bound: nat)
    requires kind.LiteralKind?
    ensures Lower(rank, Children(kind), bound)
  {
  }

  lemma RewriteIsLower(arena: Arena, rank: seq<nat>, n: ExpressionId, kind: ExpressionKind)
    requires WellFormed(arena, rank) && IsRewrite(arena, rank, n, kind)
    ensures n < |arena| && Lower(rank, Children(kind), rank[n])
  {
    hide Children, Lower, BoundsBelow, BoundsUnique, IsRewrite;
    RewriteForm(arena, rank, n, kind);
    if Shortens(arena, n, kind) {
      ShortenedIsLower(arena, rank, n, kind);
    } else if m: ExpressionId :| Copies(arena, rank, n, m, kind) {
      CopyIsLower(arena, rank, n, m, kind);
    } else {
      LiteralIsLower(rank, kind, rank[n]);
    }
  }

  // A rewrite binds nothing anew.
  lemma RewriteBindsLess(arena: Arena, rank: seq<nat>, n: ExpressionId, e: Expression, x: LocalId, d: ExpressionId)
    requires WellFormed(arena, rank) && IsRewrite(arena, rank, n, e.kind) && n < |arena| && Bound(With(arena, n, e), x, d)
    ensures Bound(arena, x, d)
  {
    RewriteForm(arena, rank, n, e.kind);
    hide Children, IsRewrite;
    var m: ExpressionId :| m < |arena| && Binds(With(arena, n, e)[m].kind, x, d);
    if m == n {
      var k: nat :| BindsAt(e.kind, k, x, d);
      if Shortens(arena, n, e.kind) {
        var all := arena[n].kind.bindings;
        assert e.kind.bindings[k] in all;
        var j: nat :| j < |all| && all[j] == e.kind.bindings[k];
        assert BindsAt(arena[n].kind, j, x, d);
      }
    }
  }

  lemma RewriteToLocal(arena: Arena, rank: seq<nat>, n: ExpressionId, x: LocalId, d: ExpressionId)
    requires WellFormed(arena, rank) && IsRewrite(arena, rank, n, Local(x)) && Bound(arena, x, d)
    ensures n < |arena| && d < |arena| && rank[d] < rank[n]
  {
    RewriteForm(arena, rank, n, Local(x));
    hide WellFormed, IsRewrite, Bound;
    var c: ExpressionId :| Copies(arena, rank, n, c, Local(x));
    BoundBelow(arena, rank, x, d, c);
  }

  lemma BoundBelow(arena: Arena, rank: seq<nat>, x: LocalId, d: ExpressionId, n: ExpressionId)
    requires WellFormed(arena, rank) && Bound(arena, x, d) && n < |arena| && arena[n].kind == Local(x)
    ensures d < |arena| && rank[d] < rank[n]
  {
    hide Acyclic, Bound;
  }

  lemma BoundOnce(arena: Arena, rank: seq<nat>, x: LocalId, d: ExpressionId, e: ExpressionId)
    requires WellFormed(arena, rank) && Bound(arena, x, d) && Bound(arena, x, e)
    ensures d == e
  {
    hide Acyclic, Bound;
  }

  lemma WellFormedIsAcyclic(arena: Arena, rank: seq<nat>)
    requires WellFormed(arena, rank)
    ensures Acyclic(arena, rank)
  {
    hide Acyclic, Bound;
  }

  lemma RewriteBoundBelow(arena: Arena, rank: seq<nat>, n: ExpressionId, e: Expression, x: LocalId, d: ExpressionId, m: ExpressionId)
    requires WellFormed(arena, rank) && IsRewrite(arena, rank, n, e.kind) && n < |arena|
    requires Bound(With(arena, n, e), x, d) && m < |arena| && With(arena, n, e)[m].kind == Local(x)
    ensures d < |arena| && rank[d] < rank[m]
  {
    hide Acyclic, IsRewrite, Bound, WellFormed;
    RewriteBindsLess(arena, rank, n, e, x, d);
    if m == n {
      RewriteToLocal(arena, rank, n, x, d);
    } else {
      BoundBelow(arena, rank, x, d, m);
    }
  }

  lemma Lengths(arena: Arena, rank: seq<nat>)
    requires WellFormed(arena, rank)
    ensures |rank| == |arena|
  {
    hide BoundsBelow, BoundsUnique, Lower;
  }

  lemma RewriteBoundsBelow(arena: Arena, rank: seq<nat>, n: ExpressionId, e: Expression)
    requires WellFormed(arena, rank) && IsRewrite(arena, rank, n, e.kind) && n < |arena|
    ensures BoundsBelow(With(arena, n, e), rank)
  {
    hide IsRewrite, Bound, WellFormed, Acyclic;
    Lengths(arena, rank);
    forall x: LocalId, d: ExpressionId, m: ExpressionId | Bound(With(arena, n, e), x, d) && m < |arena| && With(arena, n, e)[m].kind == Local(x)
      ensures d < |arena| && rank[d] < rank[m]
    {
      RewriteBoundBelow(arena, rank, n, e, x, d, m);
    }
  }

  lemma RewriteBoundsUnique(arena: Arena, rank: seq<nat>, n: ExpressionId, e: Expression)
    requires WellFormed(arena, rank) && IsRewrite(arena, rank, n, e.kind) && n < |arena|
    ensures BoundsUnique(With(arena, n, e))
  {
    hide IsRewrite, Bound, WellFormed, Acyclic;
    var after := With(arena, n, e);
    forall x: LocalId, d: ExpressionId, f: ExpressionId | Bound(after, x, d) && Bound(after, x, f)
      ensures d == f
    {
      RewriteBindsLess(arena, rank, n, e, x, d);
      RewriteBindsLess(arena, rank, n, e, x, f);
      BoundOnce(arena, rank, x, d, f);
    }
  }

  lemma RewriteIsWellFormed(arena: Arena, rank: seq<nat>, n: ExpressionId, e: Expression)
    requires WellFormed(arena, rank) && IsRewrite(arena, rank, n, e.kind)
    ensures n < |arena| && WellFormed(With(arena, n, e), rank)
  {
    hide BoundsBelow, BoundsUnique, IsRewrite;
    RewriteIsLower(arena, rank, n, e.kind);
    OverwriteIsAcyclic(arena, rank, n, e);
    hide Acyclic, With;
    RewriteBoundsBelow(arena, rank, n, e);
    RewriteBoundsUnique(arena, rank, n, e);
  }

  // ---------------------------------------------------------------- one rewrite keeps every meaning

  // A copied expression folds to what the original folds to.
  lemma CopyFolds<D>(arena: Arena, rank: seq<nat>, alg: Algebra<D>, env: map<LocalId, D>, n: ExpressionId, m: ExpressionId)
    requires Acyclic(arena, rank) && n < |arena| && m < |arena| && rank[m] <= rank[n]
    ensures Lower(rank, Children(arena[m].kind), rank[n])
    ensures FoldKind(arena, rank, alg, env, arena[m].kind, rank[n]) == Fold(arena, rank, alg, env, m)
  {
    hide Children;
    FoldKindBound(arena, rank, alg, env, arena[m].kind, rank[m], rank[n]);
  }

  lemma LetFolds<D(!new)>(arena: Arena, rank: seq<nat>, alg: Algebra<D>, boolean: D -> bool, env: map<LocalId, D>, kind: ExpressionKind, bound: nat)
    requires Acyclic(arena, rank) && Lawful(alg, boolean) && kind.Let? && !kind.recursive && Lower(rank, Children(kind), bound)
    ensures kind.body < |arena| && FoldKind(arena, rank, alg, env, kind, bound) == Fold(arena, rank, alg, env, kind.body)
  {
    var shape := Shape(kind);
    assert shape == Let(false, shape.bindings, 0);
    LetChildren(kind);
    hide Shape, Children;
    var parts := FoldAll(arena, rank, alg, env, Children(kind), bound);
    assert parts[|parts| - 1] == Fold(arena, rank, alg, env, kind.body);
    assert ExpandsLet(alg, shape.bindings, parts);
  }

  lemma UnaryFolds<D>(arena: Arena, rank: seq<nat>, alg: Algebra<D>, env: map<LocalId, D>, n: ExpressionId)
    requires Acyclic(arena, rank) && n < |arena| && arena[n].kind.Unary?
    ensures var value := arena[n].kind.value;
            && value < |arena|
            && Fold(arena, rank, alg, env, n) == alg(Unary(arena[n].kind.unary, 0), [Fold(arena, rank, alg, env, value)])
  {
    var kind := arena[n].kind;
    assert Shape(kind) == Unary(kind.unary, 0);
    UnaryChildren(kind);
    hide Shape, Children;
    assert Children(kind)[0] == kind.value;
    assert FoldAll(arena, rank, alg, env, Children(kind), rank[n]) == [Fold(arena, rank, alg, env, kind.value)];
  }

  lemma LiteralFolds<D>(arena: Arena, rank: seq<nat>, alg: Algebra<D>, env: map<LocalId, D>, kind: ExpressionKind, bound: nat)
    requires Acyclic(arena, rank) && kind.LiteralKind?
    ensures Lower(rank, Children(kind), bound) && FoldKind(arena, rank, alg, env, kind, bound) == alg(kind, [])
  {
    assert Children(kind) == [] && Shape(kind) == kind;
    assert FoldAll(arena, rank, alg, env, [], bound) == [];
  }

  lemma NegationFolds<D(!new)>(arena: Arena, rank: seq<nat>, alg: Algebra<D>, boolean: D -> bool, env: map<LocalId, D>, n: ExpressionId, kind: ExpressionKind)
    requires Acyclic(arena, rank) && Lawful(alg, boolean) && Negates(arena, n, kind) && NegatesBooleans(arena, rank, alg, env, boolean)
    ensures n < |arena| && Lower(rank, Children(kind), rank[n])
    ensures FoldKind(arena, rank, alg, env, kind, rank[n]) == Fold(arena, rank, alg, env, n)
  {
    hide Children, Shape;
    var operator, value := arena[n].kind.unary, arena[n].kind.value;
    UnaryFolds(arena, rank, alg, env, n);
    UnaryChildren(arena[n].kind);
    assert Children(arena[n].kind)[0] == value;
    if operator == BooleanNot {
      UnaryFolds(arena, rank, alg, env, value);
      UnaryChildren(arena[value].kind);
      assert Children(arena[value].kind)[0] == arena[value].kind.value;
      CopyFolds(arena, rank, alg, env, n, arena[value].kind.value);
      assert NegatesBoolean(alg, Fold(arena, rank, alg, env, arena[value].kind.value));
    } else {
      LiteralFolds(arena, rank, alg, env, arena[value].kind, rank[value]);
      LiteralFolds(arena, rank, alg, env, kind, rank[n]);
      NegatedLiteral(arena, alg, boolean, operator, value);
    }
  }

  lemma NegatedLiteral<D(!new)>(arena: Arena, alg: Algebra<D>, boolean: D -> bool, operator: UnaryOperator, value: ExpressionId)
    requires Lawful(alg, boolean) && value < |arena| && FoldedNegation(arena, operator, value).Some?
    ensures alg(Unary(operator, 0), [alg(arena[value].kind, [])]) == alg(LiteralKind(FoldedNegation(arena, operator, value).value), [])
  {
    var literal := arena[value].kind.literal;
    if operator == IntegerNegate {
      NegationWraps(literal.integer);
      assert NegatesInteger(alg, literal.integer);
    } else {
      NegatedIsOpposite(literal.digits);
      assert NegatesNumber(alg, literal.digits, NegatedNumber(literal.digits));
    }
  }

  lemma RewriteFolds<D(!new)>(arena: Arena, rank: seq<nat>, alg: Algebra<D>, boolean: D -> bool, env: map<LocalId, D>, n: ExpressionId, kind: ExpressionKind)
    requires WellFormed(arena, rank) && IsRewrite(arena, rank, n, kind) && Lawful(alg, boolean) && Consistent(arena, rank, alg, env)
    requires NegatesBooleans(arena, rank, alg, env, boolean)
    ensures n < |arena| && Lower(rank, Children(kind), rank[n])
    ensures FoldKind(arena, rank, alg, env, kind, rank[n]) == Fold(arena, rank, alg, env, n)
  {
    RewriteIsLower(arena, rank, n, kind);
    hide Children, Shape, Lawful, Lower, NegatesBooleans;
    if e: ExpressionId :| Substitutes(arena, n, kind, e) {
      CopyFolds(arena, rank, alg, env, n, e);
    } else if Negates(arena, n, kind) {
      NegationFolds(arena, rank, alg, boolean, env, n, kind);
    } else {
      DropFolds(arena, rank, alg, boolean, env, n, kind);
    }
  }

  lemma DropFolds<D(!new)>(arena: Arena, rank: seq<nat>, alg: Algebra<D>, boolean: D -> bool, env: map<LocalId, D>, n: ExpressionId, kind: ExpressionKind)
    requires Acyclic(arena, rank) && Drops(arena, rank, n, kind) && Lawful(alg, boolean) && Lower(rank, Children(kind), rank[n])
    ensures FoldKind(arena, rank, alg, env, kind, rank[n]) == Fold(arena, rank, alg, env, n)
  {
    hide Shape, Children, Free, Lawful;
    var body := arena[n].kind.body;
    LetFolds(arena, rank, alg, boolean, env, arena[n].kind, rank[n]);
    LetChildren(arena[n].kind);
    if kind == arena[body].kind {
      CopyFolds(arena, rank, alg, env, n, body);
    } else {
      LetFolds(arena, rank, alg, boolean, env, kind, rank[n]);
    }
  }

  // A rewrite makes up no negation.
  lemma RewriteCopiesNegation(arena: Arena, rank: seq<nat>, n: ExpressionId, kind: ExpressionKind)
    requires Acyclic(arena, rank) && IsRewrite(arena, rank, n, kind) && IsNegation(kind)
    ensures exists m: ExpressionId :: m < |arena| && arena[m].kind == kind
  {
    hide Children, Shape, Free, NotFree;
    if Negates(arena, n, kind) {
      var value := arena[n].kind.value;
      UnaryChildren(arena[n].kind);
      UnaryChildren(arena[value].kind);
      assert Children(arena[n].kind)[0] == value && Children(arena[value].kind)[0] == arena[value].kind.value;
    }
  }

  // No expression of the arena changes its meaning.
  lemma RewriteKeepsFolds<D(!new)>(arena: Arena, rank: seq<nat>, alg: Algebra<D>, boolean: D -> bool, env: map<LocalId, D>, n: ExpressionId, e: Expression)
    requires WellFormed(arena, rank) && IsRewrite(arena, rank, n, e.kind) && Lawful(alg, boolean) && Consistent(arena, rank, alg, env)
    requires NegatesBooleans(arena, rank, alg, env, boolean)
    ensures n < |arena| && WellFormed(With(arena, n, e), rank) && Consistent(With(arena, n, e), rank, alg, env)
    ensures NegatesBooleans(With(arena, n, e), rank, alg, env, boolean)
    ensures forall m: ExpressionId :: m < |arena| ==> Fold(With(arena, n, e), rank, alg, env, m) == Fold(arena, rank, alg, env, m)
  {
    hide Lawful, IsRewrite, Lower, Bound, Children, Acyclic, BoundsBelow, BoundsUnique, Fold, NegatesBooleans;
    RewriteFolds(arena, rank, alg, boolean, env, n, e.kind);
    RewriteIsWellFormed(arena, rank, n, e);
    var after := With(arena, n, e);
    forall m: ExpressionId | m < |arena|
      ensures Fold(after, rank, alg, env, m) == Fold(arena, rank, alg, env, m)
    {
      Overwrite(arena, rank, alg, env, n, e, m);
    }
    forall x: LocalId, d: ExpressionId | Bound(after, x, d) && d < |after|
      ensures x in env && env[x] == Fold(after, rank, alg, env, d)
    {
      RewriteBindsLess(arena, rank, n, e, x, d);
    }
    RewriteKeepsBooleans(arena, rank, alg, boolean, env, n, e);
  }

  lemma RewriteKeepsBooleans<D>(arena: Arena, rank: seq<nat>, alg: Algebra<D>, boolean: D -> bool, env: map<LocalId, D>, n: ExpressionId, e: Expression)
    requires Acyclic(arena, rank) && IsRewrite(arena, rank, n, e.kind) && n < |arena| && Acyclic(With(arena, n, e), rank)
    requires NegatesBooleans(arena, rank, alg, env, boolean)
    requires forall m: ExpressionId :: m < |arena| ==> Fold(With(arena, n, e), rank, alg, env, m) == Fold(arena, rank, alg, env, m)
    ensures NegatesBooleans(With(arena, n, e), rank, alg, env, boolean)
  {
    hide IsRewrite, Lower, Children, Acyclic, Fold;
    if IsNegation(e.kind) {
      RewriteCopiesNegation(arena, rank, n, e.kind);
    }
  }

  // ---------------------------------------------------------------- free locals

  // The locals that are free in some child.
  ghost function FreeInChildren(arena: Arena, rank: seq<nat>, kind: ExpressionKind, bound: nat): set<LocalId>
    requires Acyclic(arena, rank) && Lower(rank, Children(kind), bound)
  {
    Union(FoldAll(arena, rank, FreeAlgebra(), map[], Children(kind), bound))
  }

  ghost function FreeKind(arena: Arena, rank: seq<nat>, kind: ExpressionKind, bound: nat): set<LocalId>
    requires Acyclic(arena, rank) && Lower(rank, Children(kind), bound)
  {
    FoldKind(arena, rank, FreeAlgebra(), map[], kind, bound)
  }

  lemma InChildren(arena: Arena, rank: seq<nat>, kind: ExpressionKind, bound: nat, x: LocalId)
    requires Acyclic(arena, rank) && Lower(rank, Children(kind), bound)
    ensures x in FreeInChildren(arena, rank, kind, bound) <==>
            exists k :: 0 <= k < |Children(kind)| && x in Free(arena, rank, Children(kind)[k])
  {
    hide Children;
    var children := Children(kind);
    var parts := FoldAll(arena, rank, FreeAlgebra(), map[], children, bound);
    assert forall k :: 0 <= k < |children| ==> parts[k] == Free(arena, rank, children[k]);
    hide FreeAlgebra;
  }

  lemma FreeInKind(arena: Arena, rank: seq<nat>, kind: ExpressionKind, bound: nat)
    requires Acyclic(arena, rank) && Lower(rank, Children(kind), bound)
    ensures FreeKind(arena, rank, kind, bound) ==
            if kind.Local? then {kind.local}
            else if kind.Let? && !kind.recursive then FreeInChildren(arena, rank, kind, bound) - Parameters(kind.bindings)
            else FreeInChildren(arena, rank, kind, bound)
  {
    ShapeParameters(kind);
    hide Children, Shape;
  }

  lemma ShapeParameters(kind: ExpressionKind)
    ensures Shape(kind).Local? <==> kind.Local?
    ensures kind.Local? ==> Shape(kind) == kind
    ensures Shape(kind).Let? <==> kind.Let?
    ensures kind.Let? ==> Shape(kind).recursive == kind.recursive && Parameters(Shape(kind).bindings) == Parameters(kind.bindings)
  {
    if kind.Let? {
      var blank := Shape(kind).bindings;
      assert |blank| == |kind.bindings|;
      assert forall k :: 0 <= k < |blank| ==> blank[k].parameter == kind.bindings[k].parameter;
      SameParameters(blank, kind.bindings);
    }
  }

  lemma SameParameters(a: seq<Binding>, b: seq<Binding>)
    requires |a| == |b| && forall k :: 0 <= k < |a| ==> a[k].parameter == b[k].parameter
    ensures Parameters(a) == Parameters(b)
  {
    assert forall k :: 0 <= k < |a| ==> a[k].parameter in Parameters(b);
    assert forall k :: 0 <= k < |b| ==> b[k].parameter in Parameters(a);
  }

  lemma FreeOf(arena: Arena, rank: seq<nat>, n: ExpressionId)
    requires Acyclic(arena, rank) && n < |arena|
    ensures Free(arena, rank, n) == FreeKind(arena, rank, arena[n].kind, rank[n])
  {
  }

  // Where a rewrite that substitutes nothing frees no local, it frees none anywhere.
  lemma {:induction false} FreesNothing(arena: Arena, rank: seq<nat>, n: ExpressionId, e: Expression, m: ExpressionId)
    requires Acyclic(arena, rank) && n < |arena| && m < |arena| && Lower(rank, Children(e.kind), rank[n])
    requires FreeKind(arena, rank, e.kind, rank[n]) <= Free(arena, rank, n)
    ensures Acyclic(With(arena, n, e), rank) && Free(With(arena, n, e), rank, m) <= Free(arena, rank, m)
    decreases rank[m]
  {
    hide Children, Free, FreeKind, FreeInChildren;
    OverwriteIsAcyclic(arena, rank, n, e);
    var after := With(arena, n, e);
    var kind := after[m].kind;
    var children := Children(kind);
    FreeOf(arena, rank, m);
    FreeOf(after, rank, m);
    FreeInKind(arena, rank, kind, rank[m]);
    FreeInKind(after, rank, kind, rank[m]);
    forall x | x in FreeInChildren(after, rank, kind, rank[m])
      ensures x in FreeInChildren(arena, rank, kind, rank[m])
    {
      InChildren(after, rank, kind, rank[m], x);
      InChildren(arena, rank, kind, rank[m], x);
      var k :| 0 <= k < |children| && x in Free(after, rank, children[k]);
      FreesNothing(arena, rank, n, e, children[k]);
    }
  }

  // What becomes free where a local is substituted by the expression it is bound to.
  lemma {:induction false} SubstitutionFrees(arena: Arena, rank: seq<nat>, n: ExpressionId, e: Expression, d: ExpressionId, m: ExpressionId)
    requires WellFormed(arena, rank) && Substitutes(arena, n, e.kind, d) && m < |arena|
    ensures Acyclic(With(arena, n, e), rank)
    ensures var x := arena[n].kind.local;
            Free(With(arena, n, e), rank, m) <= Free(arena, rank, m) + if x in Free(arena, rank, m) then Free(arena, rank, d) else {}
    decreases rank[m]
  {
    hide Children, Free, FreeKind, FreeInChildren, Bound;
    WellFormedIsAcyclic(arena, rank);
    BoundBelow(arena, rank, arena[n].kind.local, d, n);
    CopyIsLower(arena, rank, n, d, e.kind);
    OverwriteIsAcyclic(arena, rank, n, e);
    var after, x := With(arena, n, e), arena[n].kind.local;
    var kind := after[m].kind;
    FreeOf(arena, rank, m);
    FreeInKind(arena, rank, arena[m].kind, rank[m]);
    if m == n {
      CopiedFree(arena, rank, n, e, d);
    } else {
      FreeOf(after, rank, m);
      FreeInKind(after, rank, kind, rank[m]);
      forall y | y in FreeInChildren(after, rank, kind, rank[m])
        ensures y in FreeInChildren(arena, rank, kind, rank[m]) ||
                (x in FreeInChildren(arena, rank, kind, rank[m]) && y in Free(arena, rank, d))
      {
        ChildFrees(arena, rank, n, e, d, m, y);
      }
      if kind.Local? {
        LocalHasNoChildren(arena, rank, kind, rank[m]);
      } else if x in FreeInChildren(arena, rank, kind, rank[m]) && x !in Free(arena, rank, m) {
        BinderFrees(arena, rank, m, x, d);
      }
    }
  }

  lemma LocalHasNoChildren(arena: Arena, rank: seq<nat>, kind: ExpressionKind, bound: nat)
    requires Acyclic(arena, rank) && kind.Local?
    ensures Lower(rank, Children(kind), bound) && FreeInChildren(arena, rank, kind, bound) == {}
  {
    assert Children(kind) == [];
  }

  lemma CopiedFree(arena: Arena, rank: seq<nat>, n: ExpressionId, e: Expression, d: ExpressionId)
    requires Acyclic(arena, rank) && n < |arena| && Copies(arena, rank, n, d, e.kind)
    ensures Acyclic(With(arena, n, e), rank) && Free(With(arena, n, e), rank, n) == Free(arena, rank, d)
  {
    hide Children;
    CopyIsLower(arena, rank, n, d, e.kind);
    OverwriteIsAcyclic(arena, rank, n, e);
    OverwriteBelow(arena, rank, FreeAlgebra(), map[], n, e, d);
    CopyFolds(With(arena, n, e), rank, FreeAlgebra(), map[], n, d);
  }

  lemma ChildFrees(arena: Arena, rank: seq<nat>, n: ExpressionId, e: Expression, d: ExpressionId, m: ExpressionId, y: LocalId)
    requires WellFormed(arena, rank) && Substitutes(arena, n, e.kind, d) && m < |arena| && m != n && Acyclic(With(arena, n, e), rank)
    requires y in FreeInChildren(With(arena, n, e), rank, arena[m].kind, rank[m])
    ensures y in FreeInChildren(arena, rank, arena[m].kind, rank[m]) ||
            (arena[n].kind.local in FreeInChildren(arena, rank, arena[m].kind, rank[m]) && y in Free(arena, rank, d))
    decreases rank[m], 0
  {
    hide Children, Free, FreeInChildren, Bound;
    var kind := arena[m].kind;
    var children := Children(kind);
    InChildren(With(arena, n, e), rank, kind, rank[m], y);
    InChildren(arena, rank, kind, rank[m], y);
    InChildren(arena, rank, kind, rank[m], arena[n].kind.local);
    var k :| 0 <= k < |children| && y in Free(With(arena, n, e), rank, children[k]);
    SubstitutionFrees(arena, rank, n, e, d, children[k]);
  }

  // Where a `let` binds the local, what the local is bound to is among the children.
  lemma BinderFrees(arena: Arena, rank: seq<nat>, m: ExpressionId, x: LocalId, d: ExpressionId)
    requires WellFormed(arena, rank) && m < |arena| && d < |arena| && Bound(arena, x, d)
    requires arena[m].kind.Let? && !arena[m].kind.recursive && x in Parameters(arena[m].kind.bindings)
    ensures Free(arena, rank, d) <= FreeInChildren(arena, rank, arena[m].kind, rank[m])
  {
    hide Children, Free, FreeInChildren;
    var kind := arena[m].kind;
    var k: nat :| k < |kind.bindings| && kind.bindings[k].parameter == x;
    assert BindsAt(kind, k, x, kind.bindings[k].expression);
    assert Bound(arena, x, kind.bindings[k].expression);
    BoundOnce(arena, rank, x, d, kind.bindings[k].expression);
    LetChildren(kind);
    forall y | y in Free(arena, rank, d)
      ensures y in FreeInChildren(arena, rank, kind, rank[m])
    {
      InChildren(arena, rank, kind, rank[m], y);
    }
  }

  // A rewrite that substitutes nothing frees nothing where it happens.
  lemma DropFrees(arena: Arena, rank: seq<nat>, n: ExpressionId, kind: ExpressionKind)
    requires Acyclic(arena, rank) && Drops(arena, rank, n, kind) && Lower(rank, Children(kind), rank[n])
    ensures FreeKind(arena, rank, kind, rank[n]) <= Free(arena, rank, n)
  {
    hide Children, Free, FreeKind, FreeInChildren;
    var whole := arena[n].kind;
    LetChildren(whole);
    FreeOf(arena, rank, n);
    FreeInKind(arena, rank, whole, rank[n]);
    if kind == arena[whole.body].kind && NotFree(arena, rank, whole.bindings, [], [whole.body]) {
      BodyFrees(arena, rank, n);
    } else {
      FreeInKind(arena, rank, kind, rank[n]);
      forall x | x in FreeKind(arena, rank, kind, rank[n])
        ensures x in Free(arena, rank, n)
      {
        ShortenedFrees(arena, rank, n, kind, x);
      }
    }
  }

  lemma BodyFrees(arena: Arena, rank: seq<nat>, n: ExpressionId)
    requires Acyclic(arena, rank) && n < |arena| && arena[n].kind.Let? && !arena[n].kind.recursive && arena[n].kind.body < |arena|
    requires NotFree(arena, rank, arena[n].kind.bindings, [], [arena[n].kind.body])
    ensures Lower(rank, Children(arena[arena[n].kind.body].kind), rank[n])
    ensures FreeKind(arena, rank, arena[arena[n].kind.body].kind, rank[n]) <= Free(arena, rank, n)
  {
    hide Children, FreeInChildren;
    var kind := arena[n].kind;
    LetChildren(kind);
    CopyFolds(arena, rank, FreeAlgebra(), map[], n, kind.body);
    FreeOf(arena, rank, n);
    FreeInKind(arena, rank, kind, rank[n]);
    assert [kind.body][0] == kind.body && Parameters([]) == {};
    hide Free, FreeKind;
    forall x | x in Free(arena, rank, kind.body)
      ensures x in FreeInChildren(arena, rank, kind, rank[n]) && x !in Parameters(kind.bindings)
    {
      InChildren(arena, rank, kind, rank[n], x);
    }
  }

  lemma ShortenedFrees(arena: Arena, rank: seq<nat>, n: ExpressionId, kind: ExpressionKind, x: LocalId)
    requires Acyclic(arena, rank) && n < |arena| && Shortens(arena, n, kind) && Lower(rank, Children(kind), rank[n])
    requires NotFree(arena, rank, arena[n].kind.bindings, kind.bindings, Children(kind))
    requires x in FreeInChildren(arena, rank, kind, rank[n]) && x !in Parameters(kind.bindings)
    ensures x in FreeInChildren(arena, rank, arena[n].kind, rank[n]) && x !in Parameters(arena[n].kind.bindings)
  {
    hide Children, Free, FreeInChildren;
    var all := arena[n].kind.bindings;
    LetChildren(kind);
    LetChildren(arena[n].kind);
    InChildren(arena, rank, kind, rank[n], x);
    InChildren(arena, rank, arena[n].kind, rank[n], x);
    var k :| 0 <= k < |Children(kind)| && x in Free(arena, rank, Children(kind)[k]);
    if k < |kind.bindings| {
      assert kind.bindings[k] in all;
      var j :| 0 <= j < |all| && all[j] == kind.bindings[k];
      assert Children(arena[n].kind)[j] == Children(kind)[k];
    } else {
      assert Children(arena[n].kind)[|all|] == Children(kind)[k];
    }
  }

  lemma NegationFrees(arena: Arena, rank: seq<nat>, n: ExpressionId, kind: ExpressionKind)
    requires Acyclic(arena, rank) && Negates(arena, n, kind) && Lower(rank, Children(kind), rank[n])
    ensures FreeKind(arena, rank, kind, rank[n]) <= Free(arena, rank, n)
  {
    hide Children, FreeInChildren;
    if kind.LiteralKind? {
      LiteralFolds(arena, rank, FreeAlgebra(), map[], kind, rank[n]);
    } else {
      var value := arena[n].kind.value;
      UnaryChildren(arena[n].kind);
      assert Children(arena[n].kind)[0] == value;
      UnaryChildren(arena[value].kind);
      assert Children(arena[value].kind)[0] == arena[value].kind.value;
      CopyFolds(arena, rank, FreeAlgebra(), map[], n, arena[value].kind.value);
      UnaryFrees(arena, rank, n);
      UnaryFrees(arena, rank, value);
    }
  }

  lemma UnaryFrees(arena: Arena, rank: seq<nat>, n: ExpressionId)
    requires Acyclic(arena, rank) && n < |arena| && arena[n].kind.Unary?
    ensures arena[n].kind.value < |arena| && Free(arena, rank, n) == Free(arena, rank, arena[n].kind.value)
  {
    UnaryFolds(arena, rank, FreeAlgebra(), map[], n);
    hide Free;
    var inner := Free(arena, rank, arena[n].kind.value);
    assert Union([inner]) == inner;
  }

  // ---------------------------------------------------------------- closed expressions

  // No local that a `let` of the arena binds is free.
  ghost predicate Closed(arena: Arena, rank: seq<nat>, root: ExpressionId)
    requires Acyclic(arena, rank) && root < |arena|
  {
    forall x: LocalId, e: ExpressionId :: Bound(arena, x, e) ==> x !in Free(arena, rank, root)
  }

  lemma RewriteKeepsClosed(arena: Arena, rank: seq<nat>, n: ExpressionId, e: Expression, root: ExpressionId)
    requires WellFormed(arena, rank) && IsRewrite(arena, rank, n, e.kind) && root < |arena| && Closed(arena, rank, root)
    ensures n < |arena| && Acyclic(With(arena, n, e), rank) && Closed(With(arena, n, e), rank, root)
    ensures Free(With(arena, n, e), rank, root) <= Free(arena, rank, root)
  {
    hide Children, Free, FreeKind, Bound;
    RewriteIsLower(arena, rank, n, e.kind);
    OverwriteIsAcyclic(arena, rank, n, e);
    if d: ExpressionId :| Substitutes(arena, n, e.kind, d) {
      SubstitutionFrees(arena, rank, n, e, d, root);
    } else if Negates(arena, n, e.kind) {
      NegationFrees(arena, rank, n, e.kind);
      FreesNothing(arena, rank, n, e, root);
    } else {
      DropFrees(arena, rank, n, e.kind);
      FreesNothing(arena, rank, n, e, root);
    }
    forall x: LocalId, d: ExpressionId | Bound(With(arena, n, e), x, d)
      ensures x !in Free(With(arena, n, e), rank, root)
    {
      RewriteBindsLess(arena, rank, n, e, x, d);
    }
  }
}
