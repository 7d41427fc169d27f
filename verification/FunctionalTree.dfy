// The expressions of the functional tree and the arena that stores them
// (compiler-backend/functional/src/tree.rs), with the enumerations of their children
// (compiler-backend/functional/src/optimize.rs).
module FunctionalTree {
  import opened Wrappers

  // ---------------------------------------------------------------- expressions

  type ExpressionId = nat

  type PatternId = nat

  type LocalId = nat

  type GlobalId = nat

  type Origin = nat

  type Field = string

  // The source keeps integers in 64 bits.
  type Integer64 = i: int | -0x8000_0000_0000_0000 <= i < 0x8000_0000_0000_0000

  datatype Literal =
    | Text(units: seq<bv16>)
    | Character(character: char)
    | Boolean(boolean: bool)
    | Integer(integer: Integer64)
    | Number(digits: string)

  datatype UnaryOperator = BooleanNot | IntegerNegate | IntegerComplement | NumberNegate | ArrayLength

  datatype PrimitiveType = BooleanType | IntegerType | NumberType | CharType | StringType

  datatype Comparison = Equal | NotEqual | LessThan | LessThanOrEqual | GreaterThan | GreaterThanOrEqual

  datatype BinaryOperator =
    | BooleanAnd | BooleanOr
    | IntegerAdd | IntegerSubtract | IntegerMultiply | IntegerDivide | IntegerModulo
    | IntegerAnd | IntegerOr | IntegerXor
    | IntegerShiftLeft | IntegerShiftRight | IntegerZeroFillShiftRight
    | NumberAdd | NumberSubtract | NumberMultiply | NumberDivide
    | StringAppend
    | Compare(operand: PrimitiveType, comparison: Comparison)

  datatype ArrayElement = Single(expression: ExpressionId) | Spread(expression: ExpressionId)

  datatype RecordField = RecordField(field: Field, expression: ExpressionId)

  datatype RecordUpdate =
    | Leaf(field: Field, expression: ExpressionId)
    | Branch(field: Field, updates: seq<RecordUpdate>)

  datatype Binding = Binding(parameter: LocalId, expression: ExpressionId, origin: Option<Origin>)

  datatype CaseAlternative = CaseAlternative(patterns: seq<PatternId>, expression: ExpressionId)

  datatype Guard = BooleanGuard(expression: ExpressionId) | PatternGuard(expression: ExpressionId, pattern: PatternId)

  datatype GuardedAlternative = GuardedAlternative(guards: seq<Guard>, expression: ExpressionId)

  datatype EffectLoop =
    | RangeLoop(start: ExpressionId, end: ExpressionId, body: ExpressionId)
    | EachLoop(array_: ExpressionId, body: ExpressionId)
    | WhileLoop(condition: ExpressionId, body: ExpressionId)
    | UntilLoop(condition: ExpressionId)

  datatype EffectStatement =
    | WriteStatement(reference: ExpressionId, value: ExpressionId)
    | LoopStatement(loop: EffectLoop)
    | WhenStatement(condition: ExpressionId, action: ExpressionId)

  datatype EffectExpression =
    | Pure(value: ExpressionId)
    | Bind(action: ExpressionId, parameter: LocalId, body: ExpressionId)
    | Map(function_: ExpressionId, action: ExpressionId)
    | Apply(functionAction: ExpressionId, argumentAction: ExpressionId)
    | ReferenceNew(value: ExpressionId)
    | ReferenceRead(value: ExpressionId)
    | ReferenceWrite(reference: ExpressionId, value: ExpressionId)
    | EffectApplication(function_: ExpressionId, arguments: seq<ExpressionId>)
    | Statement(statement: EffectStatement, unit: ExpressionId)

  datatype AsyncExpression =
    | Program(environment: LocalId, body: ExpressionId)
    | AsyncStep(value: ExpressionId)
    | AsyncEffect(value: ExpressionId)
    | Fail(value: ExpressionId)
    | Catch(body: ExpressionId, parameter: LocalId, handler: ExpressionId)

  datatype ExpressionKind =
    | LiteralKind(literal: Literal)
    | ArrayKind(elements: seq<ExpressionId>)
    | ArrayConcatenation(parts: seq<ArrayElement>)
    | Record(fields: seq<RecordField>)
    | RecordUpdateKind(record: ExpressionId, updates: seq<RecordUpdate>)
    | Project(record: ExpressionId, field: Field)
    | Unary(unary: UnaryOperator, value: ExpressionId)
    | Binary(binary: BinaryOperator, left: ExpressionId, right: ExpressionId)
    | Index(value: ExpressionId, index: ExpressionId)
    | Constructor(global: GlobalId)
    | Global(global: GlobalId)
    | Local(local: LocalId)
    | Abstraction(parameters: seq<PatternId>, body: ExpressionId)
    | UncurriedAbstraction(parameters: seq<PatternId>, body: ExpressionId)
    | Application(function_: ExpressionId, arguments: seq<ExpressionId>, synthetic: bool)
    | UncurriedApplication(function_: ExpressionId, arguments: seq<ExpressionId>, synthetic: bool)
    | IfThenElse(condition: ExpressionId, then_: ExpressionId, else_: ExpressionId)
    | Case(scrutinees: seq<ExpressionId>, alternatives: seq<CaseAlternative>)
    | Guarded(guarded: seq<GuardedAlternative>)
    | Let(recursive: bool, bindings: seq<Binding>, body: ExpressionId)
    | LetPattern(pattern: PatternId, value: ExpressionId, body: ExpressionId)
    | Effect(effect: EffectExpression)
    | Async(async_: AsyncExpression)
    | SynthesizedEvidence(evidence: Literal)
    | TrivialEvidence

  datatype Expression = Expression(kind: ExpressionKind, origin: Option<Origin>)

  type Arena = seq<Expression>

  function Or(a: Option<Origin>, b: Option<Origin>): Option<Origin> {
    if a.Some? then a else b
  }

  class Storage {
    var expressions: Arena

    constructor (expressions: Arena)
      ensures this.expressions == expressions
    {
      this.expressions := expressions;
    }

    // Overwrites what an expression is and keeps where it comes from.
    method ReplaceExpressionKind(expression: ExpressionId, kind: ExpressionKind)
      requires expression < |expressions|
      modifies this
      ensures expressions == old(expressions)[expression := Expression(kind, old(expressions)[expression].origin)]
    {
      expressions := expressions[expression := expressions[expression].(kind := kind)];
    }

    // Overwrites an expression by another, which says where it comes from if it knows.
    method ReplaceExpression(expression: ExpressionId, replacement: ExpressionId)
      requires expression < |expressions| && replacement < |expressions|
      modifies this
      ensures var new_, own := old(expressions)[replacement], old(expressions)[expression];
              expressions == old(expressions)[expression := Expression(new_.kind, Or(new_.origin, own.origin))]
    {
      var Expression(kind, origin) := expressions[replacement];
      expressions := expressions[expression := Expression(kind, Or(origin, expressions[expression].origin))];
    }
  }

  // ---------------------------------------------------------------- children

  function UpdateChildren(updates: seq<RecordUpdate>): seq<ExpressionId> {
    if updates == [] then []
    else UpdateChildrenOf(updates[0]) + UpdateChildren(updates[1..])
  }

  function UpdateChildrenOf(update: RecordUpdate): seq<ExpressionId> {
    match update
    case Leaf(_, expression) => [expression]
    case Branch(_, updates) => UpdateChildren(updates)
  }

  function GuardChildren(guarded: seq<GuardedAlternative>): seq<ExpressionId> {
    if guarded == [] then []
    else
      var first := guarded[0];
      seq(|first.guards|, k requires 0 <= k < |first.guards| => first.guards[k].expression) + [first.expression] + GuardChildren(guarded[1..])
  }

  function LoopOperands(loop: EffectLoop): seq<ExpressionId> {
    match loop
    case RangeLoop(start, end, body) => [start, end, body]
    case EachLoop(a, body) => [a, body]
    case WhileLoop(condition, body) => [condition, body]
    case UntilLoop(condition) => [condition]
  }

  function StatementOperands(statement: EffectStatement): seq<ExpressionId> {
    match statement
    case WriteStatement(reference, value) => [reference, value]
    case LoopStatement(loop) => LoopOperands(loop)
    case WhenStatement(condition, action) => [condition, action]
  }

  function EffectChildren(effect: EffectExpression): seq<ExpressionId> {
    match effect
    case Pure(value) => [value]
    case Bind(action, _, body) => [action, body]
    case Map(f, action) => [f, action]
    case Apply(f, a) => [f, a]
    case ReferenceNew(value) => [value]
    case ReferenceRead(value) => [value]
    case ReferenceWrite(reference, value) => [reference, value]
    case EffectApplication(f, arguments) => [f] + arguments
    case Statement(statement, unit) => StatementOperands(statement) + [unit]
  }

  function AsyncChildren(a: AsyncExpression): seq<ExpressionId> {
    match a
    case Program(_, body) => [body]
    case AsyncStep(value) => [value]
    case AsyncEffect(value) => [value]
    case Fail(value) => [value]
    case Catch(body, _, handler) => [body, handler]
  }

  function BindingChildren(bindings: seq<Binding>): (r: seq<ExpressionId>)
    ensures |r| == |bindings| && forall k :: 0 <= k < |r| ==> r[k] == bindings[k].expression
  {
    seq(|bindings|, k requires 0 <= k < |bindings| => bindings[k].expression)
  }

  // The children of an expression, from left to right.
  function Children(kind: ExpressionKind): seq<ExpressionId> {
    match kind
    case LiteralKind(_) => []
    case ArrayKind(elements) => elements
    case ArrayConcatenation(parts) => seq(|parts|, k requires 0 <= k < |parts| => parts[k].expression)
    case Record(fields) => seq(|fields|, k requires 0 <= k < |fields| => fields[k].expression)
    case RecordUpdateKind(record, updates) => [record] + UpdateChildren(updates)
    case Project(record, _) => [record]
    case Unary(_, value) => [value]
    case Binary(_, left, right) => [left, right]
    case Index(value, index) => [value, index]
    case Constructor(_) => []
    case Global(_) => []
    case Local(_) => []
    case Abstraction(_, body) => [body]
    case UncurriedAbstraction(_, body) => [body]
    case Application(f, arguments, _) => [f] + arguments
    case UncurriedApplication(f, arguments, _) => [f] + arguments
    case IfThenElse(condition, t, e) => [condition, t, e]
    case Case(scrutinees, alternatives) =>
      scrutinees + seq(|alternatives|, k requires 0 <= k < |alternatives| => alternatives[k].expression)
    case Guarded(guarded) => GuardChildren(guarded)
    case Let(_, bindings, body) => BindingChildren(bindings) + [body]
    case LetPattern(_, value, body) => [value, body]
    case Effect(effect) => EffectChildren(effect)
    case Async(a) => AsyncChildren(a)
    case SynthesizedEvidence(_) => []
    case TrivialEvidence => []
  }

  // ---------------------------------------------------------------- shapes

  function BlankUpdate(update: RecordUpdate): RecordUpdate {
    match update
    case Leaf(field, _) => Leaf(field, 0)
    case Branch(field, updates) =>
      Branch(field, seq(|updates|, k requires 0 <= k < |updates| => BlankUpdate(updates[k])))
  }

  function Zeros(n: nat): seq<ExpressionId> {
    seq(n, _ => 0)
  }

  function BlankGuard(guard: Guard): Guard {
    match guard
    case BooleanGuard(_) => BooleanGuard(0)
    case PatternGuard(_, pattern) => PatternGuard(0, pattern)
  }

  function BlankStatement(statement: EffectStatement): EffectStatement {
    match statement
    case WriteStatement(_, _) => WriteStatement(0, 0)
    case LoopStatement(RangeLoop(_, _, _)) => LoopStatement(RangeLoop(0, 0, 0))
    case LoopStatement(EachLoop(_, _)) => LoopStatement(EachLoop(0, 0))
    case LoopStatement(WhileLoop(_, _)) => LoopStatement(WhileLoop(0, 0))
    case LoopStatement(UntilLoop(_)) => LoopStatement(UntilLoop(0))
    case WhenStatement(_, _) => WhenStatement(0, 0)
  }

  function BlankEffect(effect: EffectExpression): EffectExpression {
    match effect
    case Pure(_) => Pure(0)
    case Bind(_, parameter, _) => Bind(0, parameter, 0)
    case Map(_, _) => Map(0, 0)
    case Apply(_, _) => Apply(0, 0)
    case ReferenceNew(_) => ReferenceNew(0)
    case ReferenceRead(_) => ReferenceRead(0)
    case ReferenceWrite(_, _) => ReferenceWrite(0, 0)
    case EffectApplication(_, arguments) => EffectApplication(0, Zeros(|arguments|))
    case Statement(statement, _) => Statement(BlankStatement(statement), 0)
  }

  function BlankAsync(a: AsyncExpression): AsyncExpression {
    match a
    case Program(environment, _) => Program(environment, 0)
    case AsyncStep(_) => AsyncStep(0)
    case AsyncEffect(_) => AsyncEffect(0)
    case Fail(_) => Fail(0)
    case Catch(_, parameter, _) => Catch(0, parameter, 0)
  }

  // An expression without its children: what is left is all that its meaning may depend on,
  // beside the meanings of the children.
  function Shape(kind: ExpressionKind): ExpressionKind {
    match kind
    case LiteralKind(_) => kind
    case ArrayKind(elements) => ArrayKind(Zeros(|elements|))
    case ArrayConcatenation(parts) =>
      ArrayConcatenation(seq(|parts|, k requires 0 <= k < |parts| => parts[k].(expression := 0)))
    case Record(fields) => Record(seq(|fields|, k requires 0 <= k < |fields| => fields[k].(expression := 0)))
    case RecordUpdateKind(_, updates) =>
      RecordUpdateKind(0, seq(|updates|, k requires 0 <= k < |updates| => BlankUpdate(updates[k])))
    case Project(_, field) => Project(0, field)
    case Unary(unary, _) => Unary(unary, 0)
    case Binary(binary, _, _) => Binary(binary, 0, 0)
    case Index(_, _) => Index(0, 0)
    case Constructor(_) => kind
    case Global(_) => kind
    case Local(_) => kind
    case Abstraction(parameters, _) => Abstraction(parameters, 0)
    case UncurriedAbstraction(parameters, _) => UncurriedAbstraction(parameters, 0)
    case Application(_, arguments, synthetic) => Application(0, Zeros(|arguments|), synthetic)
    case UncurriedApplication(_, arguments, synthetic) => UncurriedApplication(0, Zeros(|arguments|), synthetic)
    case IfThenElse(_, _, _) => IfThenElse(0, 0, 0)
    case Case(scrutinees, alternatives) =>
      Case(Zeros(|scrutinees|), seq(|alternatives|, k requires 0 <= k < |alternatives| => alternatives[k].(expression := 0)))
    case Guarded(guarded) =>
      Guarded(seq(|guarded|, k requires 0 <= k < |guarded| =>
        GuardedAlternative(seq(|guarded[k].guards|, j requires 0 <= j < |guarded[k].guards| => BlankGuard(guarded[k].guards[j])), 0)))
    case Let(recursive, bindings, _) =>
      Let(recursive, seq(|bindings|, k requires 0 <= k < |bindings| => Binding(bindings[k].parameter, 0, None)), 0)
    case LetPattern(pattern, _, _) => LetPattern(pattern, 0, 0)
    case Effect(effect) => Effect(BlankEffect(effect))
    case Async(a) => Async(BlankAsync(a))
    case SynthesizedEvidence(_) => kind
    case TrivialEvidence => kind
  }

  // ---------------------------------------------------------------- a shape and children make an expression

  // The same expression, wherever its bindings come from.
  ghost predicate SameKind(a: ExpressionKind, b: ExpressionKind) {
    || a == b
    || (&& a.Let? && b.Let? && a.recursive == b.recursive && a.body == b.body && |a.bindings| == |b.bindings|
        && forall k :: 0 <= k < |a.bindings| ==>
             a.bindings[k].parameter == b.bindings[k].parameter && a.bindings[k].expression == b.bindings[k].expression)
  }

  lemma SplitAlike<T>(a: seq<T>, b: seq<T>, c: seq<T>, d: seq<T>)
    requires |a| == |c| && a + b == c + d
    ensures a == c && b == d
  {
    assert a == (a + b)[..|a|] && c == (c + d)[..|c|];
    assert b == (a + b)[|a|..] && d == (c + d)[|c|..];
  }

  lemma {:induction false} UpdateDecided(u: RecordUpdate, v: RecordUpdate)
    requires BlankUpdate(u) == BlankUpdate(v)
    ensures |UpdateChildrenOf(u)| == |UpdateChildrenOf(v)|
    ensures UpdateChildrenOf(u) == UpdateChildrenOf(v) ==> u == v
  {
    if u.Branch? {
      var blanks := BlankUpdate(u).updates;
      assert |blanks| == |u.updates| == |v.updates|;
      assert forall k :: 0 <= k < |blanks| ==> blanks[k] == BlankUpdate(u.updates[k]) && blanks[k] == BlankUpdate(v.updates[k]);
      UpdatesDecided(u.updates, v.updates);
    }
  }

  lemma {:induction false} UpdatesDecided(us: seq<RecordUpdate>, vs: seq<RecordUpdate>)
    requires |us| == |vs| && forall k :: 0 <= k < |us| ==> BlankUpdate(us[k]) == BlankUpdate(vs[k])
    ensures |UpdateChildren(us)| == |UpdateChildren(vs)|
    ensures UpdateChildren(us) == UpdateChildren(vs) ==> us == vs
  {
    if us != [] {
      UpdateDecided(us[0], vs[0]);
      UpdatesDecided(us[1..], vs[1..]);
      if UpdateChildren(us) == UpdateChildren(vs) {
        SplitAlike(UpdateChildrenOf(us[0]), UpdateChildren(us[1..]), UpdateChildrenOf(vs[0]), UpdateChildren(vs[1..]));
        assert us == [us[0]] + us[1..] && vs == [vs[0]] + vs[1..];
      }
    }
  }

  ghost predicate SameGuards(a: GuardedAlternative, b: GuardedAlternative) {
    |a.guards| == |b.guards| && forall k :: 0 <= k < |a.guards| ==> BlankGuard(a.guards[k]) == BlankGuard(b.guards[k])
  }

  function GuardExpressions(guards: seq<Guard>): (r: seq<ExpressionId>)
    ensures |r| == |guards| && forall k :: 0 <= k < |r| ==> r[k] == guards[k].expression
  {
    seq(|guards|, k requires 0 <= k < |guards| => guards[k].expression)
  }

  lemma {:induction false} GuardsDecided(a: seq<GuardedAlternative>, b: seq<GuardedAlternative>)
    requires |a| == |b| && forall k :: 0 <= k < |a| ==> SameGuards(a[k], b[k])
    ensures GuardChildren(a) == GuardChildren(b) ==> a == b
  {
    if a != [] && GuardChildren(a) == GuardChildren(b) {
      var p, q := GuardExpressions(a[0].guards), GuardExpressions(b[0].guards);
      assert GuardChildren(a) == p + ([a[0].expression] + GuardChildren(a[1..]));
      assert GuardChildren(b) == q + ([b[0].expression] + GuardChildren(b[1..]));
      SplitAlike(p, [a[0].expression] + GuardChildren(a[1..]), q, [b[0].expression] + GuardChildren(b[1..]));
      SplitAlike([a[0].expression], GuardChildren(a[1..]), [b[0].expression], GuardChildren(b[1..]));
      GuardsDecided(a[1..], b[1..]);
      forall k | 0 <= k < |a[0].guards|
        ensures a[0].guards[k] == b[0].guards[k]
      {
        assert p[k] == q[k] && BlankGuard(a[0].guards[k]) == BlankGuard(b[0].guards[k]);
      }
      assert a[0].guards == b[0].guards;
      assert a[0] == b[0];
      assert a == [a[0]] + a[1..] && b == [b[0]] + b[1..];
    }
  }

  lemma ConcatenationDecided(a: ExpressionKind, b: ExpressionKind)
    requires a.ArrayConcatenation? && Shape(a) == Shape(b) && Children(a) == Children(b)
    ensures a == b
  {
    var blanks := Shape(a).parts;
    assert |a.parts| == |blanks| == |b.parts|;
    forall k | 0 <= k < |blanks|
      ensures a.parts[k] == b.parts[k]
    {
      assert blanks[k] == a.parts[k].(expression := 0) && blanks[k] == b.parts[k].(expression := 0);
      assert Children(a)[k] == a.parts[k].expression && Children(b)[k] == b.parts[k].expression;
    }
  }

  lemma RecordDecided(a: ExpressionKind, b: ExpressionKind)
    requires a.Record? && Shape(a) == Shape(b) && Children(a) == Children(b)
    ensures a == b
  {
    var blanks := Shape(a).fields;
    assert |a.fields| == |blanks| == |b.fields|;
    forall k | 0 <= k < |blanks|
      ensures a.fields[k] == b.fields[k]
    {
      assert blanks[k] == a.fields[k].(expression := 0) && blanks[k] == b.fields[k].(expression := 0);
      assert Children(a)[k] == a.fields[k].expression && Children(b)[k] == b.fields[k].expression;
    }
  }

  lemma RecordUpdateDecided(a: ExpressionKind, b: ExpressionKind)
    requires a.RecordUpdateKind? && Shape(a) == Shape(b) && Children(a) == Children(b)
    ensures a == b
  {
    var blanks := Shape(a).updates;
    assert |a.updates| == |blanks| == |b.updates|;
    assert forall k :: 0 <= k < |blanks| ==> blanks[k] == BlankUpdate(a.updates[k]) && blanks[k] == BlankUpdate(b.updates[k]);
    UpdatesDecided(a.updates, b.updates);
    SplitAlike([a.record], UpdateChildren(a.updates), [b.record], UpdateChildren(b.updates));
  }

  lemma CaseDecided(a: ExpressionKind, b: ExpressionKind)
    requires a.Case? && Shape(a) == Shape(b) && Children(a) == Children(b)
    ensures a == b
  {
    var blanks := Shape(a).alternatives;
    assert |Shape(a).scrutinees| == |a.scrutinees| == |b.scrutinees| && |a.alternatives| == |blanks| == |b.alternatives|;
    SplitAlike(a.scrutinees, Children(a)[|a.scrutinees|..], b.scrutinees, Children(b)[|b.scrutinees|..]);
    forall k | 0 <= k < |blanks|
      ensures a.alternatives[k] == b.alternatives[k]
    {
      assert blanks[k] == a.alternatives[k].(expression := 0) && blanks[k] == b.alternatives[k].(expression := 0);
      var j := |a.scrutinees| + k;
      assert Children(a)[j] == a.alternatives[k].expression && Children(b)[j] == b.alternatives[k].expression;
    }
  }

  lemma GuardedDecided(a: ExpressionKind, b: ExpressionKind)
    requires a.Guarded? && Shape(a) == Shape(b) && Children(a) == Children(b)
    ensures a == b
  {
    var blanks := Shape(a).guarded;
    assert |a.guarded| == |blanks| == |b.guarded|;
    forall k | 0 <= k < |blanks|
      ensures SameGuards(a.guarded[k], b.guarded[k])
    {
      var guards := blanks[k].guards;
      assert |guards| == |a.guarded[k].guards| && |guards| == |b.guarded[k].guards|;
      assert forall j :: 0 <= j < |guards| ==> guards[j] == BlankGuard(a.guarded[k].guards[j]) && guards[j] == BlankGuard(b.guarded[k].guards[j]);
    }
    GuardsDecided(a.guarded, b.guarded);
  }

  lemma LetDecided(a: ExpressionKind, b: ExpressionKind)
    requires a.Let? && Shape(a) == Shape(b) && Children(a) == Children(b)
    ensures SameKind(a, b)
  {
    var blanks := Shape(a).bindings;
    assert |a.bindings| == |blanks| == |b.bindings|;
    SplitAlike(BindingChildren(a.bindings), [a.body], BindingChildren(b.bindings), [b.body]);
    forall k | 0 <= k < |blanks|
      ensures a.bindings[k].parameter == b.bindings[k].parameter && a.bindings[k].expression == b.bindings[k].expression
    {
      assert blanks[k] == Binding(a.bindings[k].parameter, 0, None) && blanks[k] == Binding(b.bindings[k].parameter, 0, None);
      assert BindingChildren(a.bindings)[k] == a.bindings[k].expression && BindingChildren(b.bindings)[k] == b.bindings[k].expression;
    }
  }

  lemma ApplicationDecided(a: ExpressionKind, b: ExpressionKind)
    requires a.Application? || a.UncurriedApplication?
    requires Shape(a) == Shape(b) && Children(a) == Children(b)
    ensures a == b
  {
    SplitAlike([a.function_], a.arguments, [b.function_], b.arguments);
  }

  lemma StatementDecided(a: EffectStatement, b: EffectStatement)
    requires BlankStatement(a) == BlankStatement(b)
    ensures |StatementOperands(a)| == |StatementOperands(b)|
    ensures StatementOperands(a) == StatementOperands(b) ==> a == b
  {
    if StatementOperands(a) == StatementOperands(b) {
      var operands := StatementOperands(a);
      assert forall k :: 0 <= k < |operands| ==> operands[k] == StatementOperands(b)[k];
    }
  }

  lemma EffectDecided(a: EffectExpression, b: EffectExpression)
    requires BlankEffect(a) == BlankEffect(b) && EffectChildren(a) == EffectChildren(b)
    ensures a == b
  {
    var children := EffectChildren(a);
    if a.Statement? {
      StatementDecided(a.statement, b.statement);
      SplitAlike(StatementOperands(a.statement), [a.unit], StatementOperands(b.statement), [b.unit]);
    } else if a.EffectApplication? {
      SplitAlike([a.function_], a.arguments, [b.function_], b.arguments);
    } else {
      assert forall k :: 0 <= k < |children| ==> children[k] == EffectChildren(b)[k];
    }
  }

  lemma EffectKindDecided(a: ExpressionKind, b: ExpressionKind)
    requires a.Effect? && Shape(a) == Shape(b) && Children(a) == Children(b)
    ensures a == b
  {
    EffectDecided(a.effect, b.effect);
  }

  lemma PlainDecided(a: ExpressionKind, b: ExpressionKind)
    requires !a.ArrayConcatenation? && !a.Record? && !a.RecordUpdateKind? && !a.Case? && !a.Guarded? && !a.Let? && !a.Effect?
    requires !a.Application? && !a.UncurriedApplication?
    requires Shape(a) == Shape(b) && Children(a) == Children(b)
    ensures a == b
  {
    assert forall k :: 0 <= k < |Children(a)| ==> Children(a)[k] == Children(b)[k];
  }

  lemma SameItself(a: ExpressionKind)
    ensures SameKind(a, a)
  {
  }

  // No part of an expression is missed: its shape and its children make it up.
  lemma ShapeAndChildren(a: ExpressionKind, b: ExpressionKind)
    requires Shape(a) == Shape(b) && Children(a) == Children(b)
    ensures SameKind(a, b)
  {
    hide Children, Shape, SameKind;
    SameItself(a);
    match a
    case ArrayConcatenation(_) => ConcatenationDecided(a, b);
    case Record(_) => RecordDecided(a, b);
    case RecordUpdateKind(_, _) => RecordUpdateDecided(a, b);
    case Case(_, _) => CaseDecided(a, b);
    case Guarded(_) => GuardedDecided(a, b);
    case Let(_, _, _) => LetDecided(a, b);
    case Application(_, _, _) => ApplicationDecided(a, b);
    case UncurriedApplication(_, _, _) => ApplicationDecided(a, b);
    case Effect(effect) => EffectKindDecided(a, b);
    case _ => PlainDecided(a, b);
  }

  // ---------------------------------------------------------------- nested record updates

  // How many updates are left in lists of updates, counting nested ones and the lists themselves.
  ghost function UpdateSize(update: RecordUpdate): nat {
    match update
    case Leaf(_, _) => 1
    case Branch(_, updates) => 2 + UpdatesSize(updates)
  }

  ghost function UpdatesSize(updates: seq<RecordUpdate>): nat {
    if updates == [] then 0 else UpdateSize(updates[0]) + UpdatesSize(updates[1..])
  }

  // What is still to be visited when lists are suspended, the innermost last.
  ghost function PendingChildren(pending: seq<seq<RecordUpdate>>): seq<ExpressionId> {
    if pending == [] then []
    else UpdateChildren(pending[|pending| - 1]) + PendingChildren(pending[..|pending| - 1])
  }

  ghost function PendingSize(pending: seq<seq<RecordUpdate>>): nat {
    if pending == [] then 0
    else 1 + UpdatesSize(pending[|pending| - 1]) + PendingSize(pending[..|pending| - 1])
  }

  lemma PendingPush(pending: seq<seq<RecordUpdate>>, list: seq<RecordUpdate>)
    ensures PendingChildren(pending + [list]) == UpdateChildren(list) + PendingChildren(pending)
    ensures PendingSize(pending + [list]) == 1 + UpdatesSize(list) + PendingSize(pending)
  {
    assert (pending + [list])[..|pending|] == pending;
  }

  // Visits the leaves of nested updates in order, with a stack of the lists entered.
  method VisitUpdates(updates: seq<RecordUpdate>) returns (visited: seq<ExpressionId>)
    ensures visited == UpdateChildren(updates)
  {
    visited := [];
    var pending := [updates];
    PendingPush([], updates);
    while pending != []
      invariant visited + PendingChildren(pending) == UpdateChildren(updates)
      decreases PendingSize(pending)
    {
      var last := |pending| - 1;
      var current := pending[last];
      ghost var outer := pending[..last];
      assert pending == outer + [current];
      PendingPush(outer, current);
      if current == [] {
        pending := pending[..last];
        continue;
      }
      pending := pending[last := current[1..]];
      assert pending == outer + [current[1..]];
      PendingPush(outer, current[1..]);
      ghost var left := PendingChildren(pending);
      assert visited + (UpdateChildrenOf(current[0]) + left) == UpdateChildren(updates) by {
        assert UpdateChildrenOf(current[0]) + left
            == UpdateChildrenOf(current[0]) + UpdateChildren(current[1..]) + PendingChildren(outer);
      }
      match current[0] {
        case Leaf(_, expression) =>
          assert visited + ([expression] + left) == visited + [expression] + left;
          visited := visited + [expression];
        case Branch(_, nested) =>
          PendingPush(pending, nested);
          pending := pending + [nested];
      }
    }
  }
}
