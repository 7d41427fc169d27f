// Folds over the expressions of an arena: what an expression means, which locals it uses, and how
// large it is when shared parts are counted as often as they occur.
module TreeFolds {
  import opened FunctionalTree
  import opened Wrappers

  // Combines what the children of an expression of some shape give.
  type Algebra<!D> = (ExpressionKind, seq<D>) -> D

  // ---------------------------------------------------------------- acyclic arenas

  predicate Lower(rank: seq<nat>, children: seq<ExpressionId>, bound: nat) {
    forall k :: 0 <= k < |children| ==> children[k] < |rank| && rank[children[k]] < bound
  }

  // Ranks decrease from an expression to its children.
  predicate Acyclic(arena: Arena, rank: seq<nat>) {
    |rank| == |arena| && forall n :: 0 <= n < |arena| ==> Lower(rank, Children(arena[n].kind), rank[n])
  }

  // ---------------------------------------------------------------- folds

  // A local in `env` stands for what `env` gives it.
  ghost function Fold<D>(arena: Arena, rank: seq<nat>, alg: Algebra<D>, env: map<LocalId, D>, n: ExpressionId): D
    requires Acyclic(arena, rank) && n < |arena|
    decreases rank[n], 2
  {
    FoldKind(arena, rank, alg, env, arena[n].kind, rank[n])
  }

  ghost function FoldKind<D>(arena: Arena, rank: seq<nat>, alg: Algebra<D>, env: map<LocalId, D>, kind: ExpressionKind, bound: nat): D
    requires Acyclic(arena, rank) && Lower(rank, Children(kind), bound)
    decreases bound, 1
  {
    if kind.Local? && kind.local in env then env[kind.local]
    else alg(Shape(kind), FoldAll(arena, rank, alg, env, Children(kind), bound))
  }

  ghost function FoldAll<D>(arena: Arena, rank: seq<nat>, alg: Algebra<D>, env: map<LocalId, D>, children: seq<ExpressionId>, bound: nat): (r: seq<D>)
    requires Acyclic(arena, rank) && Lower(rank, children, bound)
    ensures |r| == |children|
    decreases bound, 0
  {
    seq(|children|, k requires 0 <= k < |children| => Fold(arena, rank, alg, env, children[k]))
  }

  lemma FoldKindBound<D>(arena: Arena, rank: seq<nat>, alg: Algebra<D>, env: map<LocalId, D>, kind: ExpressionKind, a: nat, b: nat)
    requires Acyclic(arena, rank) && Lower(rank, Children(kind), a) && Lower(rank, Children(kind), b)
    ensures FoldKind(arena, rank, alg, env, kind, a) == FoldKind(arena, rank, alg, env, kind, b)
  {
    assert FoldAll(arena, rank, alg, env, Children(kind), a) == FoldAll(arena, rank, alg, env, Children(kind), b);
  }

  // The arena with one expression overwritten.
  function With(arena: Arena, n: ExpressionId, e: Expression): Arena
    requires n < |arena|
  {
    arena[n := e]
  }

  lemma OverwriteIsAcyclic(arena: Arena, rank: seq<nat>, n: ExpressionId, e: Expression)
    requires Acyclic(arena, rank) && n < |arena| && Lower(rank, Children(e.kind), rank[n])
    ensures Acyclic(With(arena, n, e), rank)
  {
  }

  // An expression may be overwritten by one that folds to the same: no fold changes.
  lemma {:induction false} Overwrite<D>(arena: Arena, rank: seq<nat>, alg: Algebra<D>, env: map<LocalId, D>, n: ExpressionId, e: Expression, m: ExpressionId)
    requires Acyclic(arena, rank) && n < |arena| && m < |arena| && Lower(rank, Children(e.kind), rank[n])
    requires FoldKind(arena, rank, alg, env, e.kind, rank[n]) == Fold(arena, rank, alg, env, n)
    ensures Acyclic(With(arena, n, e), rank)
    ensures Fold(With(arena, n, e), rank, alg, env, m) == Fold(arena, rank, alg, env, m)
    decreases rank[m]
  {
    OverwriteIsAcyclic(arena, rank, n, e);
    var after := With(arena, n, e);
    var kind := after[m].kind;
    forall k | 0 <= k < |Children(kind)|
      ensures Fold(after, rank, alg, env, Children(kind)[k]) == Fold(arena, rank, alg, env, Children(kind)[k])
    {
      Overwrite(arena, rank, alg, env, n, e, Children(kind)[k]);
    }
    assert FoldAll(after, rank, alg, env, Children(kind), rank[m]) == FoldAll(arena, rank, alg, env, Children(kind), rank[m]);
  }

  // Overwriting an expression changes nothing below it.
  lemma {:induction false} OverwriteBelow<D>(arena: Arena, rank: seq<nat>, alg: Algebra<D>, env: map<LocalId, D>, n: ExpressionId, e: Expression, m: ExpressionId)
    requires Acyclic(arena, rank) && n < |arena| && m < |arena| && Lower(rank, Children(e.kind), rank[n]) && rank[m] <= rank[n] && m != n
    ensures Acyclic(With(arena, n, e), rank)
    ensures Fold(With(arena, n, e), rank, alg, env, m) == Fold(arena, rank, alg, env, m)
    decreases rank[m]
  {
    hide Children;
    OverwriteIsAcyclic(arena, rank, n, e);
    var after := With(arena, n, e);
    var children := Children(after[m].kind);
    forall k | 0 <= k < |children|
      ensures Fold(after, rank, alg, env, children[k]) == Fold(arena, rank, alg, env, children[k])
    {
      OverwriteBelow(arena, rank, alg, env, n, e, children[k]);
    }
    assert FoldAll(after, rank, alg, env, children, rank[m]) == FoldAll(arena, rank, alg, env, children, rank[m]);
  }

  // Two environments that agree on every local below an expression give the same.
  ghost predicate AgreeBelow<D>(arena: Arena, rank: seq<nat>, a: map<LocalId, D>, b: map<LocalId, D>, bound: nat)
    requires |rank| == |arena|
  {
    forall n :: 0 <= n < |arena| && rank[n] < bound && arena[n].kind.Local? ==> SameAt(a, b, arena[n].kind.local)
  }

  ghost predicate SameAt<D>(a: map<LocalId, D>, b: map<LocalId, D>, x: LocalId) {
    (x in a <==> x in b) && (x in a && x in b ==> a[x] == b[x])
  }

  lemma {:induction false} FoldAgrees<D>(arena: Arena, rank: seq<nat>, alg: Algebra<D>, a: map<LocalId, D>, b: map<LocalId, D>, n: ExpressionId, bound: nat)
    requires Acyclic(arena, rank) && n < |arena| && rank[n] < bound && AgreeBelow(arena, rank, a, b, bound)
    ensures Fold(arena, rank, alg, a, n) == Fold(arena, rank, alg, b, n)
    decreases rank[n]
  {
    var children := Children(arena[n].kind);
    forall k | 0 <= k < |children|
      ensures Fold(arena, rank, alg, a, children[k]) == Fold(arena, rank, alg, b, children[k])
    {
      FoldAgrees(arena, rank, alg, a, b, children[k], bound);
    }
    assert FoldAll(arena, rank, alg, a, children, rank[n]) == FoldAll(arena, rank, alg, b, children, rank[n]);
  }

  // ---------------------------------------------------------------- uses, sizes and free locals

  function Sum(s: seq<nat>): nat {
    if s == [] then 0 else s[0] + Sum(s[1..])
  }

  // Adds up what each expression costs, as often as it occurs.
  ghost function Additive(cost: ExpressionKind -> nat): Algebra<nat> {
    (kind: ExpressionKind, parts: seq<nat>) => cost(kind) + Sum(parts)
  }

  function IsLocal(x: LocalId, kind: ExpressionKind): nat {
    if kind == Local(x) then 1 else 0
  }

  function UseCost(x: LocalId): ExpressionKind -> nat {
    kind => IsLocal(x, kind)
  }

  function UnitCost(): ExpressionKind -> nat {
    _ => 1
  }

  // How often a local occurs.
  ghost function Uses(arena: Arena, rank: seq<nat>, x: LocalId, n: ExpressionId): nat
    requires Acyclic(arena, rank) && n < |arena|
  {
    Fold(arena, rank, Additive(UseCost(x)), map[], n)
  }

  // How many expressions an expression consists of.
  ghost function Size(arena: Arena, rank: seq<nat>, n: ExpressionId): nat
    requires Acyclic(arena, rank) && n < |arena|
  {
    Fold(arena, rank, Additive(UnitCost()), map[], n)
  }

  function Union(s: seq<set<LocalId>>): (r: set<LocalId>)
    ensures forall x :: x in r <==> exists k :: 0 <= k < |s| && x in s[k]
  {
    if s == [] then {}
    else
      assert s == [s[0]] + s[1..];
      s[0] + Union(s[1..])
  }

  function Parameters(bindings: seq<Binding>): set<LocalId> {
    set k | 0 <= k < |bindings| :: bindings[k].parameter
  }

  // The locals that occur outside of a `let` that is not recursive and binds them.
  ghost function FreeAlgebra(): Algebra<set<LocalId>> {
    (kind: ExpressionKind, parts: seq<set<LocalId>>) =>
      match kind
      case Local(x) => {x}
      case Let(false, bindings, _) => Union(parts) - Parameters(bindings)
      case _ => Union(parts)
  }

  ghost function Free(arena: Arena, rank: seq<nat>, n: ExpressionId): set<LocalId>
    requires Acyclic(arena, rank) && n < |arena|
  {
    Fold(arena, rank, FreeAlgebra(), map[], n)
  }
}
