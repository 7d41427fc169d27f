// Queries, the values they produce, and their evaluation from scratch
// (compiler-core/building-types/src/lib.rs and compiler-core/building/src/engine.rs).
module Queries {
  import opened Wrappers

  // ---------------------------------------------------------------- keys and values

  type FileId = index: nat | index < 0x1_0000_0000

  datatype ForeignSourceKind = JavaScriptSource | JsxSource

  datatype ForeignFileId = ForeignFileId(file: FileId, kind: ForeignSourceKind)

  datatype FileQuery =
    | LineIndex | ForeignValidation | Parsed | Stabilized | Indexed | Lowered | Grouped | Resolved
    | Exported | Bracketed | Sectioned | Checked | Documented | Functional | JavaScript | SourceMap

  datatype QueryKey =
    // Inputs
    | Content(file: FileId)
    | Foreign(file: FileId)
    | ForeignContent(foreign: ForeignFileId)
    | Module(name: FileId)
    // Derived queries
    | OfFile(query: FileQuery, file: FileId)
    | ForeignModule(foreign: ForeignFileId)
    | CheckedCore
  {
    predicate IsInput() {
      Content? || Foreign? || ForeignContent? || Module?
    }
  }

  datatype Value =
    | Text(text: string)
    | Candidates(javascript: Option<ForeignFileId>, jsx: Option<ForeignFileId>)
    | ModuleFiles(files: set<FileId>)
    | Artifact(code: string)

  datatype QueryError =
    | Cancelled
    | Cycle(stack: seq<QueryKey>)
    | MissingContent(file: FileId)
    | Unverifiable

  type QueryResult = Result<Value, QueryError>

  // ---------------------------------------------------------------- compute functions

  // The errors that a compute function may swallow. It always passes on a `Cycle` or a
  // `MissingContent`.
  type Unavailability = e: QueryError | e.Cancelled? || e.Unverifiable? witness Cancelled

  // What a compute function learns from one read.
  datatype Answer = Present(value: Value) | Absent | Unavailable(error: Unavailability)

  // What a compute function does after the answers so far. It never makes up a cycle.
  type ComputeError = e: QueryError | !e.Cycle? witness Cancelled

  datatype Action = Return(value: Value) | Raise(error: ComputeError) | Read(key: QueryKey)

  // A compute function is deterministic: the answers to its reads decide what it does next.
  type Rules = (QueryKey, seq<Answer>) -> Action

  type Inputs = map<QueryKey, Value>

  function Lookup(inputs: Inputs, k: QueryKey): Answer {
    if k in inputs then Present(inputs[k]) else Absent
  }

  // ---------------------------------------------------------------- evaluation from scratch

  // Runs the compute function of `k` after `answers`, evaluating every derived read from
  // scratch. `None` means that it failed or ran out of fuel.
  function Evaluate(rules: Rules, inputs: Inputs, k: QueryKey, answers: seq<Answer>, fuel: nat): Option<Value>
    decreases fuel
  {
    if fuel == 0 then None
    else
      match rules(k, answers)
      case Return(v) => Some(v)
      case Raise(_) => None
      case Read(d) =>
        if d.IsInput() then
          Evaluate(rules, inputs, k, answers + [Lookup(inputs, d)], fuel - 1)
        else
          match Evaluate(rules, inputs, d, [], fuel - 1)
          case None => None
          case Some(v) => Evaluate(rules, inputs, k, answers + [Present(v)], fuel - 1)
  }

  // `v` is the value of `k` on `inputs`, computed from scratch.
  ghost predicate IsValue(rules: Rules, inputs: Inputs, k: QueryKey, v: Value) {
    exists fuel: nat :: Evaluate(rules, inputs, k, [], fuel) == Some(v)
  }

  lemma {:induction false} MoreFuel(rules: Rules, inputs: Inputs, k: QueryKey, answers: seq<Answer>, fuel: nat, more: nat)
    requires fuel <= more && Evaluate(rules, inputs, k, answers, fuel).Some?
    ensures Evaluate(rules, inputs, k, answers, more) == Evaluate(rules, inputs, k, answers, fuel)
    decreases fuel
  {
    match rules(k, answers)
    case Return(_) =>
    case Read(d) =>
      if d.IsInput() {
        MoreFuel(rules, inputs, k, answers + [Lookup(inputs, d)], fuel - 1, more - 1);
      } else {
        MoreFuel(rules, inputs, d, [], fuel - 1, more - 1);
        var v := Evaluate(rules, inputs, d, [], fuel - 1).value;
        MoreFuel(rules, inputs, k, answers + [Present(v)], fuel - 1, more - 1);
      }
  }

  lemma ValueIsUnique(rules: Rules, inputs: Inputs, k: QueryKey, v: Value, w: Value)
    requires IsValue(rules, inputs, k, v) && IsValue(rules, inputs, k, w)
    ensures v == w
  {
    var m: nat :| Evaluate(rules, inputs, k, [], m) == Some(v);
    var n: nat :| Evaluate(rules, inputs, k, [], n) == Some(w);
    MoreFuel(rules, inputs, k, [], m, m + n);
    MoreFuel(rules, inputs, k, [], n, m + n);
  }

  // ---------------------------------------------------------------- genuine runs

  // `a` is what a read of `d` yields on `inputs`.
  ghost predicate IsAnswer(rules: Rules, inputs: Inputs, d: QueryKey, a: Answer) {
    if d.IsInput() then a == Lookup(inputs, d)
    else a.Present? && IsValue(rules, inputs, d, a.value)
  }

  // The compute function of `k` asked for each of these answers, and each is what its read
  // yields on `inputs`.
  ghost predicate Genuine(rules: Rules, inputs: Inputs, k: QueryKey, answers: seq<Answer>) {
    forall i :: 0 <= i < |answers| ==>
      rules(k, answers[..i]).Read? && IsAnswer(rules, inputs, rules(k, answers[..i]).key, answers[i])
  }

  // Every key that was read is listed.
  ghost predicate ReadsListed(rules: Rules, k: QueryKey, answers: seq<Answer>, listed: set<QueryKey>) {
    forall i :: 0 <= i < |answers| && rules(k, answers[..i]).Read? ==> rules(k, answers[..i]).key in listed
  }

  ghost predicate WasRead(rules: Rules, k: QueryKey, answers: seq<Answer>, d: QueryKey) {
    exists i :: 0 <= i < |answers| && rules(k, answers[..i]) == Read(d)
  }

  // Every key that is listed was read.
  ghost predicate OnlyReads(rules: Rules, k: QueryKey, answers: seq<Answer>, listed: set<QueryKey>) {
    forall d :: d in listed ==> WasRead(rules, k, answers, d)
  }

  // A genuine run that reads exactly the listed keys returns `v`.
  ghost predicate Certified(rules: Rules, inputs: Inputs, k: QueryKey, listed: set<QueryKey>, v: Value) {
    exists answers ::
      && Genuine(rules, inputs, k, answers)
      && ReadsListed(rules, k, answers, listed)
      && OnlyReads(rules, k, answers, listed)
      && rules(k, answers) == Return(v)
  }

  lemma GenuineExtend(rules: Rules, inputs: Inputs, k: QueryKey, answers: seq<Answer>, a: Answer)
    requires Genuine(rules, inputs, k, answers)
    requires rules(k, answers).Read? && IsAnswer(rules, inputs, rules(k, answers).key, a)
    ensures Genuine(rules, inputs, k, answers + [a])
  {
    forall i | 0 <= i < |answers + [a]|
      ensures (answers + [a])[..i] == answers[..i]
    {
    }
    assert answers[..|answers|] == answers;
  }

  lemma ReadsExtend(rules: Rules, k: QueryKey, answers: seq<Answer>, a: Answer, listed: set<QueryKey>, more: set<QueryKey>)
    requires ReadsListed(rules, k, answers, listed) && listed <= more
    requires rules(k, answers).Read? ==> rules(k, answers).key in more
    ensures ReadsListed(rules, k, answers + [a], more)
  {
    forall i | 0 <= i < |answers + [a]|
      ensures (answers + [a])[..i] == answers[..i]
    {
    }
    assert answers[..|answers|] == answers;
  }

  lemma NothingRead(rules: Rules, inputs: Inputs, k: QueryKey)
    ensures Genuine(rules, inputs, k, []) && ReadsListed(rules, k, [], {}) && OnlyReads(rules, k, [], {})
  {
  }

  lemma WasReadExtend(rules: Rules, k: QueryKey, answers: seq<Answer>, a: Answer, d: QueryKey)
    requires WasRead(rules, k, answers, d) || rules(k, answers) == Read(d)
    ensures WasRead(rules, k, answers + [a], d)
  {
    var longer := answers + [a];
    if i :| 0 <= i < |answers| && rules(k, answers[..i]) == Read(d) {
      assert longer[..i] == answers[..i];
    } else {
      assert longer[..|answers|] == answers;
    }
  }

  lemma OnlyReadsExtend(rules: Rules, k: QueryKey, answers: seq<Answer>, a: Answer, listed: set<QueryKey>)
    requires OnlyReads(rules, k, answers, listed) && rules(k, answers).Read?
    ensures OnlyReads(rules, k, answers + [a], listed + {rules(k, answers).key})
  {
    hide WasRead;
    forall d | d in listed + {rules(k, answers).key}
      ensures WasRead(rules, k, answers + [a], d)
    {
      WasReadExtend(rules, k, answers, a, d);
    }
  }

  // Two genuine runs of the same query agree as far as they go.
  lemma {:induction false} GenuineAgree(rules: Rules, inputs: Inputs, k: QueryKey, a: seq<Answer>, b: seq<Answer>, i: nat)
    requires Genuine(rules, inputs, k, a) && Genuine(rules, inputs, k, b) && i <= |a| && i <= |b|
    ensures a[..i] == b[..i]
  {
    if i > 0 {
      GenuineAgree(rules, inputs, k, a, b, i - 1);
      var d := rules(k, a[..i - 1]).key;
      if !d.IsInput() {
        ValueIsUnique(rules, inputs, d, a[i - 1].value, b[i - 1].value);
      }
      assert a[..i] == a[..i - 1] + [a[i - 1]] && b[..i] == b[..i - 1] + [b[i - 1]];
    }
  }

  // Evaluation from scratch agrees with a genuine run.
  lemma {:induction false} GenuineEvaluates(rules: Rules, inputs: Inputs, k: QueryKey, answers: seq<Answer>, i: nat, v: Value)
    returns (fuel: nat)
    requires Genuine(rules, inputs, k, answers) && rules(k, answers) == Return(v) && i <= |answers|
    ensures Evaluate(rules, inputs, k, answers[..i], fuel) == Some(v)
    decreases |answers| - i
  {
    if i == |answers| {
      assert answers[..i] == answers;
      fuel := 1;
    } else {
      var rest := GenuineEvaluates(rules, inputs, k, answers, i + 1, v);
      var d := rules(k, answers[..i]).key;
      assert answers[..i + 1] == answers[..i] + [answers[i]];
      if d.IsInput() {
        fuel := rest + 1;
      } else {
        var w := answers[i].value;
        var sub: nat :| Evaluate(rules, inputs, d, [], sub) == Some(w);
        MoreFuel(rules, inputs, d, [], sub, rest + sub);
        MoreFuel(rules, inputs, k, answers[..i + 1], rest, rest + sub);
        fuel := rest + sub + 1;
      }
    }
  }

  lemma CertifiedIsValue(rules: Rules, inputs: Inputs, k: QueryKey, listed: set<QueryKey>, v: Value)
    requires Certified(rules, inputs, k, listed, v)
    ensures IsValue(rules, inputs, k, v)
  {
    var answers :| Genuine(rules, inputs, k, answers) && rules(k, answers) == Return(v);
    var fuel := GenuineEvaluates(rules, inputs, k, answers, 0, v);
    assert answers[..0] == [];
  }

  // A certificate carries over to other inputs on which every listed key reads the same.
  lemma CertifiedTransfer(rules: Rules, before: Inputs, after: Inputs, k: QueryKey, listed: set<QueryKey>, v: Value)
    requires Certified(rules, before, k, listed, v)
    requires forall d, a :: d in listed && IsAnswer(rules, before, d, a) ==> IsAnswer(rules, after, d, a)
    ensures Certified(rules, after, k, listed, v)
  {
    hide OnlyReads;
    var answers :| Genuine(rules, before, k, answers) && ReadsListed(rules, k, answers, listed)
                   && OnlyReads(rules, k, answers, listed) && rules(k, answers) == Return(v);
    assert Genuine(rules, after, k, answers);
  }

  // ---------------------------------------------------------------- calls and cycles

  // On `inputs`, the compute function of `k` reads the derived query `d`.
  ghost predicate Calls(rules: Rules, inputs: Inputs, k: QueryKey, d: QueryKey) {
    exists answers :: Genuine(rules, inputs, k, answers) && rules(k, answers) == Read(d) && !d.IsInput()
  }

  ghost predicate CallChain(rules: Rules, inputs: Inputs, chain: seq<QueryKey>) {
    forall i :: 0 <= i < |chain| - 1 ==> Calls(rules, inputs, chain[i], chain[i + 1])
  }

  // The compute functions call each other in a cycle through `k` on `inputs`.
  ghost predicate OnCycle(rules: Rules, inputs: Inputs, k: QueryKey) {
    exists chain :: |chain| > 1 && chain[0] == k && chain[|chain| - 1] == k && CallChain(rules, inputs, chain)
  }

  // A certified result lists only what some run of its query reads.
  lemma ListedWasRead(rules: Rules, inputs: Inputs, k: QueryKey, listed: set<QueryKey>, v: Value, d: QueryKey)
    requires Certified(rules, inputs, k, listed, v) && d in listed
    ensures exists answers :: rules(k, answers) == Read(d)
  {
    var a :| OnlyReads(rules, k, a, listed) && rules(k, a) == Return(v);
    assert OnlyReads(rules, k, a, listed);
    assert WasRead(rules, k, a, d);
  }

  // A certified result lists what its query calls.
  lemma CallsAreListed(rules: Rules, inputs: Inputs, k: QueryKey, listed: set<QueryKey>, v: Value, d: QueryKey)
    requires Certified(rules, inputs, k, listed, v) && Calls(rules, inputs, k, d)
    ensures d in listed
  {
    hide OnlyReads;
    var a :| Genuine(rules, inputs, k, a) && ReadsListed(rules, k, a, listed) && rules(k, a) == Return(v);
    var b :| Genuine(rules, inputs, k, b) && rules(k, b) == Read(d);
    assert a[..|a|] == a && b[..|b|] == b;
    GenuineAgree(rules, inputs, k, a, b, if |b| < |a| then |b| else |a|);
  }

  // Evaluating a query evaluates what it calls, with less fuel.
  lemma {:induction false} CalleeEvaluates(rules: Rules, inputs: Inputs, k: QueryKey, d: QueryKey,
                                           answers: seq<Answer>, i: nat, fuel: nat)
    returns (less: nat)
    requires Genuine(rules, inputs, k, answers) && rules(k, answers) == Read(d) && !d.IsInput()
    requires i <= |answers| && Evaluate(rules, inputs, k, answers[..i], fuel).Some?
    ensures less < fuel && Evaluate(rules, inputs, d, [], less).Some?
    decreases |answers| - i
  {
    if i == |answers| {
      assert answers[..i] == answers;
      less := fuel - 1;
    } else {
      var e := rules(k, answers[..i]).key;
      assert answers[..i + 1] == answers[..i] + [answers[i]];
      if !e.IsInput() {
        var w := Evaluate(rules, inputs, e, [], fuel - 1).value;
        ValueIsUnique(rules, inputs, e, w, answers[i].value);
      }
      less := CalleeEvaluates(rules, inputs, k, d, answers, i + 1, fuel - 1);
    }
  }

  lemma {:induction false} ChainEvaluates(rules: Rules, inputs: Inputs, chain: seq<QueryKey>, fuel: nat)
    returns (less: nat)
    requires |chain| > 1 && CallChain(rules, inputs, chain)
    requires Evaluate(rules, inputs, chain[0], [], fuel).Some?
    ensures less < fuel && Evaluate(rules, inputs, chain[|chain| - 1], [], less).Some?
    decreases |chain|
  {
    assert Calls(rules, inputs, chain[0], chain[1]);
    var answers :| Genuine(rules, inputs, chain[0], answers) && rules(chain[0], answers) == Read(chain[1]);
    assert answers[..0] == [];
    less := CalleeEvaluates(rules, inputs, chain[0], chain[1], answers, 0, fuel);
    if |chain| > 2 {
      assert forall i :: 0 <= i < |chain[1..]| - 1 ==> chain[1..][i] == chain[i + 1];
      less := ChainEvaluates(rules, inputs, chain[1..], less);
    }
  }

  // A query on a cycle has no value: evaluation from scratch never returns one.
  lemma {:induction false} CycleHasNoValue(rules: Rules, inputs: Inputs, k: QueryKey, fuel: nat)
    requires OnCycle(rules, inputs, k)
    ensures Evaluate(rules, inputs, k, [], fuel).None?
    decreases fuel
  {
    if Evaluate(rules, inputs, k, [], fuel).Some? {
      var chain :| |chain| > 1 && chain[0] == k && chain[|chain| - 1] == k && CallChain(rules, inputs, chain);
      var less := ChainEvaluates(rules, inputs, chain, fuel);
      CycleHasNoValue(rules, inputs, k, less);
    }
  }

  // ---------------------------------------------------------------- failure from scratch

  ghost predicate NoValue(rules: Rules, inputs: Inputs, k: QueryKey) {
    forall v :: !IsValue(rules, inputs, k, v)
  }

  lemma CycleIsNoValue(rules: Rules, inputs: Inputs, k: QueryKey)
    requires OnCycle(rules, inputs, k)
    ensures NoValue(rules, inputs, k)
  {
    forall v
      ensures !IsValue(rules, inputs, k, v)
    {
      forall fuel: nat
        ensures Evaluate(rules, inputs, k, [], fuel) != Some(v)
      {
        CycleHasNoValue(rules, inputs, k, fuel);
      }
    }
  }

  lemma CallerHasNoValue(rules: Rules, inputs: Inputs, k: QueryKey, d: QueryKey)
    requires Calls(rules, inputs, k, d) && NoValue(rules, inputs, d)
    ensures NoValue(rules, inputs, k)
  {
    var answers :| Genuine(rules, inputs, k, answers) && rules(k, answers) == Read(d);
    assert answers[..0] == [];
    forall v
      ensures !IsValue(rules, inputs, k, v)
    {
      if IsValue(rules, inputs, k, v) {
        var fuel: nat :| Evaluate(rules, inputs, k, [], fuel) == Some(v);
        var less := CalleeEvaluates(rules, inputs, k, d, answers, 0, fuel);
        assert IsValue(rules, inputs, d, Evaluate(rules, inputs, d, [], less).value);
      }
    }
  }

  // A genuine run that ends in an error leaves the query without a value.
  lemma {:induction false} RaiseEvaluates(rules: Rules, inputs: Inputs, k: QueryKey, answers: seq<Answer>, i: nat, fuel: nat)
    requires Genuine(rules, inputs, k, answers) && rules(k, answers).Raise? && i <= |answers|
    ensures Evaluate(rules, inputs, k, answers[..i], fuel).None?
    decreases |answers| - i
  {
    if i == |answers| {
      assert answers[..i] == answers;
    } else if fuel > 0 {
      var e := rules(k, answers[..i]).key;
      assert answers[..i + 1] == answers[..i] + [answers[i]];
      RaiseEvaluates(rules, inputs, k, answers, i + 1, fuel - 1);
      if !e.IsInput() && Evaluate(rules, inputs, e, [], fuel - 1).Some? {
        var w := Evaluate(rules, inputs, e, [], fuel - 1).value;
        ValueIsUnique(rules, inputs, e, w, answers[i].value);
      }
    }
  }

  lemma RaiseIsNoValue(rules: Rules, inputs: Inputs, k: QueryKey, answers: seq<Answer>)
    requires Genuine(rules, inputs, k, answers) && rules(k, answers).Raise?
    ensures NoValue(rules, inputs, k)
  {
    assert answers[..0] == [];
    forall fuel: nat
      ensures Evaluate(rules, inputs, k, [], fuel).None?
    {
      RaiseEvaluates(rules, inputs, k, answers, 0, fuel);
    }
  }

  // A query whose calls lead to one that has no value has none.
  lemma {:induction false} ChainHasNoValue(rules: Rules, now: Inputs, chain: seq<QueryKey>)
    requires chain != [] && CallChain(rules, now, chain) && NoValue(rules, now, chain[|chain| - 1])
    ensures NoValue(rules, now, chain[0])
  {
    hide Calls, NoValue;
    if |chain| > 1 {
      var rest := chain[1..];
      forall i | 0 <= i < |rest| - 1
        ensures Calls(rules, now, rest[i], rest[i + 1])
      {
        assert rest[i] == chain[i + 1] && rest[i + 1] == chain[i + 2];
      }
      ChainHasNoValue(rules, now, rest);
      assert Calls(rules, now, chain[0], chain[1]);
      CallerHasNoValue(rules, now, chain[0], chain[1]);
    }
  }

  // ---------------------------------------------------------------- errors of compute functions

  // A compute function passes on an unavailability only after it met one.
  ghost predicate HonestRules(rules: Rules) {
    forall k, answers :: rules(k, answers).Raise? && !rules(k, answers).error.MissingContent? ==>
      Unavailable(rules(k, answers).error) in answers
  }

  // A compute function that met an unavailability passes it on.
  ghost predicate PassesOn(rules: Rules) {
    forall k, answers: seq<Answer>, i :: 0 <= i < |answers| && answers[i].Unavailable? ==>
      rules(k, answers).Raise? && !rules(k, answers).error.MissingContent?
  }

  // Some compute function says that the content of this file is missing.
  ghost predicate SaysMissing(rules: Rules, file: FileId) {
    exists k, answers :: rules(k, answers) == Raise(MissingContent(file))
  }

  // On `inputs`, the compute function of `k` itself fails because this content is missing.
  ghost predicate RaisesMissing(rules: Rules, inputs: Inputs, k: QueryKey, file: FileId) {
    exists answers :: Genuine(rules, inputs, k, answers) && rules(k, answers) == Raise(MissingContent(file))
  }
}
