// When the engine refuses a query that has a value: an old result lists a query that fails now,
// although nothing reads it any more (compiler-core/building/src/engine.rs).
module StaleFailures {
  import opened Queries
  import opened QueryCache
  import opened QueryVisits
  import opened QueryEngine
  import opened Wrappers

  // ---------------------------------------------------------------- layers

  // Compute functions read only queries of lower layers.
  ghost predicate Layered(rules: Rules, layer: QueryKey -> nat) {
    forall k, answers ::
      rules(k, answers).Read? && !rules(k, answers).key.IsInput() ==> layer(rules(k, answers).key) < layer(k)
  }

  // What is visited is read by some run.
  lemma VisitedIsRead(rules: Rules, s: Store, k: QueryKey, d: QueryKey)
    requires Sound(rules, s) && Visits(rules, s, k, d)
    ensures exists answers :: rules(k, answers) == Read(d)
  {
    hide Genuine;
    if k in s.entries && d in s.entries[k].dependencies {
      assert EntryHolds(rules, s, k);
      var e := s.entries[k];
      hide Certified, Sound;
      ListedWasRead(rules, s.history[e.trace.built], k, e.dependencies, e.value, d);
    }
  }

  lemma VisitsDescend(rules: Rules, layer: QueryKey -> nat, s: Store, k: QueryKey, d: QueryKey)
    requires Layered(rules, layer) && Sound(rules, s) && Visits(rules, s, k, d)
    ensures layer(d) < layer(k)
  {
    VisitedIsRead(rules, s, k, d);
    hide Sound;
    var answers :| rules(k, answers) == Read(d);
    assert !d.IsInput();
  }

  lemma {:induction false} PathDescends(rules: Rules, layer: QueryKey -> nat, s: Store, path: seq<QueryKey>, i: nat, j: nat)
    requires Layered(rules, layer) && Sound(rules, s) && VisitPath(rules, s, path) && i < j < |path|
    ensures layer(path[j]) < layer(path[i])
    decreases j
  {
    hide Layered, Sound, Visits;
    assert Visits(rules, s, path[j - 1], path[j]);
    VisitsDescend(rules, layer, s, path[j - 1], path[j]);
    if i < j - 1 {
      PathDescends(rules, layer, s, path, i, j - 1);
    }
  }

  // Where compute functions are layered, a query is refused exactly if it is threatened.
  lemma LayeredIsNotEntangled(rules: Rules, layer: QueryKey -> nat, s: Store, k: QueryKey)
    requires Layered(rules, layer) && Sound(rules, s)
    ensures !Entangled(rules, s, k)
  {
    hide Layered, Sound, VisitPath;
    if path :| TangledPath(rules, s, k, path) {
      var j :| 0 <= j < |path| - 1 && path[j] == path[|path| - 1];
      PathDescends(rules, layer, s, path, j, |path| - 1);
    }
  }

  // ---------------------------------------------------------------- three files

  const Main := OfFile(Resolved, 0)
  const Library := OfFile(Exported, 1)
  const ModuleName := Module(0)
  const Importing := Text("import Library")
  const Alone := Text("module Main")

  function FirstUnavailable(answers: seq<Answer>): (first: Option<Unavailability>)
    ensures first.Some? ==> Unavailable(first.value) in answers
    ensures first.None? ==> forall i :: 0 <= i < |answers| ==> !answers[i].Unavailable?
  {
    if answers == [] then None
    else if answers[0].Unavailable? then Some(answers[0].error)
    else FirstUnavailable(answers[1..])
  }

  function ParsedAs(registered: Answer): QueryKey {
    if registered == Present(ModuleFiles({2})) then OfFile(Parsed, 2) else OfFile(Parsed, 3)
  }

  // `Main` reads `Library` if it imports it, `Library` reads the file that a module name is
  // registered to, and a file without content cannot be parsed.
  function Compile(k: QueryKey, answers: seq<Answer>): Action {
    var failed := FirstUnavailable(answers);
    if failed.Some? then Raise(failed.value)
    else if k == Main then
      if answers == [] then Read(Content(0))
      else if answers == [Present(Importing)] then Read(Library)
      else Return(Artifact("main"))
    else if k == Library then
      if answers == [] then Read(ModuleName)
      else if |answers| == 1 then Read(ParsedAs(answers[0]))
      else Return(Artifact("library"))
    else if k.OfFile? && k.query.Parsed? then
      if answers == [] then Read(Content(k.file))
      else if answers[0].Absent? then Raise(MissingContent(k.file))
      else Return(Artifact("parsed"))
    else Return(Artifact(""))
  }

  function Layer(k: QueryKey): nat {
    if k == Main then 2 else if k == Library then 1 else 0
  }

  lemma CompileIsOrderly()
    ensures RulesHold(Compile, 2) && PassesOn(Compile) && Layered(Compile, Layer)
  {
  }

  // While `Main` imports `Library`, its result lists `Library`.
  lemma MainListsLibrary(s: Store)
    requires Sound(Compile, s) && IsCurrent(s, Main)
    requires Content(0) in s.inputs && s.inputs[Content(0)].value == Importing
    ensures Library in s.entries[Main].dependencies
  {
    assert EntryHolds(Compile, s, Main);
    var e := s.entries[Main];
    var now := Values(s.inputs);
    hide Sound, EntryHolds, Certified;
    var answers := [Present(Importing)];
    assert answers[..0] == [];
    assert Genuine(Compile, now, Main, answers) && Compile(Main, answers) == Read(Library);
    assert Calls(Compile, now, Main, Library);
    CallsAreListed(Compile, now, Main, e.dependencies, e.value, Library);
  }

  // Once the module name is registered to a file without content, asking for `Main` visits a
  // query that raises that error.
  lemma MainIsThreatened(s: Store)
    requires Main in s.entries && !IsCurrent(s, Main) && Library in s.entries[Main].dependencies
    requires !IsCurrent(s, Library)
    requires ModuleName in s.inputs && s.inputs[ModuleName].value == ModuleFiles({3}) && Content(3) !in s.inputs
    ensures Threatened(Compile, s, Main) && ThreatenedBy(Compile, s, Main, 3)
  {
    var now := Values(s.inputs);
    var parsed := OfFile(Parsed, 3);
    assert RaisesMissing(Compile, now, parsed, 3) by {
      var answers := [Absent];
      assert answers[..0] == [];
      assert Genuine(Compile, now, parsed, answers) && Compile(parsed, answers) == Raise(MissingContent(3));
    }
    assert Calls(Compile, now, Library, parsed) by {
      var answers := [Present(ModuleFiles({3}))];
      assert answers[..0] == [] && ParsedAs(answers[0]) == parsed;
      assert Genuine(Compile, now, Library, answers) && Compile(Library, answers) == Read(parsed);
    }
    hide RaisesMissing, Calls;
    RaisesIsThreat(Compile, s, parsed, 3);
    ThreatBelow(Compile, s, Library, parsed, 3);
    ThreatBelow(Compile, s, Main, Library, 3);
  }

  lemma MainHasValue(inputs: Inputs)
    requires Content(0) in inputs && inputs[Content(0)] == Alone
    ensures HasValue(Compile, inputs, Main)
  {
    assert Alone != Importing;
    assert Evaluate(Compile, inputs, Main, [Present(Alone)], 1) == Some(Artifact("main"));
    assert [] + [Lookup(inputs, Content(0))] == [Present(Alone)];
    assert Evaluate(Compile, inputs, Main, [], 2) == Some(Artifact("main"));
    assert IsValue(Compile, inputs, Main, Artifact("main"));
  }

  // ---------------------------------------------------------------- before the change

  // The inputs of the first query and of the second.
  const Before: Inputs := map[Content(0) := Importing, ModuleName := ModuleFiles({2}), Content(2) := Text("module Part")]
  const After: Inputs := map[Content(0) := Alone, ModuleName := ModuleFiles({3}), Content(2) := Text("module Part")]

  lemma InputsOf(inputs: map<QueryKey, InputState>)
    ensures forall k :: k in Values(inputs) <==> k in inputs
    ensures forall k :: k in inputs ==> inputs[k].value == Values(inputs)[k]
  {
  }

  // A query that has not been cached visits what it calls, and that is what its only run reads.
  lemma OnlyVisit(s: Store, k: QueryKey, answers: seq<Answer>, d: QueryKey)
    requires s.entries == map[] && Visits(Compile, s, k, d) && Genuine(Compile, Values(s.inputs), k, answers)
    requires |answers| == 1 && (Compile(k, answers).Read? || Compile(k, answers).Return?)
    requires Compile(k, []).Read? && Compile(k, []).key.IsInput()
    requires forall more :: |more| > 1 ==> !Compile(k, more).Read?
    ensures Compile(k, answers) == Read(d)
  {
    var now := Values(s.inputs);
    var run :| Genuine(Compile, now, k, run) && Compile(k, run) == Read(d);
    assert |run| == 1;
    GenuineAgree(Compile, now, k, answers, run, 1);
    assert answers[..1] == answers && run[..1] == run;
  }

  // A content is missing only for the parse of its file.
  lemma OnlyParsesMiss(inputs: Inputs, k: QueryKey, file: FileId)
    requires RaisesMissing(Compile, inputs, k, file)
    ensures k == OfFile(Parsed, file) && Content(file) !in inputs
  {
    var answers :| Genuine(Compile, inputs, k, answers) && Compile(k, answers) == Raise(MissingContent(file));
    assert answers[..0] == [];
    assert IsAnswer(Compile, inputs, Compile(k, answers[..0]).key, answers[0]);
  }

  ghost predicate AtFirst(s: Store) {
    && s.entries == map[] && Content(0) in s.inputs && ModuleName in s.inputs && Content(2) in s.inputs
    && s.inputs[Content(0)].value == Importing && s.inputs[ModuleName].value == ModuleFiles({2})
  }

  // Nothing that `Main` visits at first lacks its content.
  lemma MainIsSafe(s: Store)
    requires AtFirst(s)
    ensures !Threatened(Compile, s, Main)
  {
    hide RaisesMissing, Visits, Threatened;
    if Threatened(Compile, s, Main) {
      var d := NextThreat(s, Main, [Present(Importing)]);
      var e := NextThreat(s, d, [Present(ModuleFiles({2}))]);
      assert e == OfFile(Parsed, 2);
      var f := NextThreat(s, e, [Present(s.inputs[Content(2)].value)]);
    }
  }

  lemma NextThreat(s: Store, k: QueryKey, answers: seq<Answer>) returns (d: QueryKey)
    requires AtFirst(s) && Threatened(Compile, s, k) && k in {Main, Library, OfFile(Parsed, 2)}
    requires |answers| == 1 && answers[0] == Lookup(Values(s.inputs), Compile(k, []).key)
    ensures Compile(k, answers) == Read(d) && Threatened(Compile, s, d)
  {
    hide RaisesMissing, Visits, VisitPath;
    var file: FileId :| ThreatenedBy(Compile, s, k, file);
    var path :| ThreatPath(Compile, s, k, file, path);
    if |path| == 1 {
      OnlyParsesMiss(Values(s.inputs), k, file);
    }
    ThreatSplit(Compile, s, k, file, path);
    d := path[1];
    assert answers[..0] == [];
    assert Genuine(Compile, Values(s.inputs), k, answers);
    OnlyVisit(s, k, answers, d);
  }

  // Whatever `Main` is threatened by is the content of the file to which the name is registered
  // now.
  lemma ThreatIsThree(s: Store, file: FileId)
    requires Sound(Compile, s) && Content(2) in s.inputs && ThreatenedBy(Compile, s, Main, file)
    ensures file == 3
  {
    hide Sound, RaisesMissing, Visits, VisitPath;
    var path :| ThreatPath(Compile, s, Main, file, path);
    ThreatSplit(Compile, s, Main, file, path);
    OnlyParsesMiss(Values(s.inputs), path[|path| - 1], file);
    MainReads(s, path[1]);
    ThreatSplit(Compile, s, path[1], file, path[1..]);
    LibraryReads(s, path[1..][1]);
    ThreatSplit(Compile, s, path[1..][1], file, path[1..][1..]);
    ParsedReads(s, path[1..][1]);
  }

  lemma MainReads(s: Store, d: QueryKey)
    requires Sound(Compile, s) && Visits(Compile, s, Main, d)
    ensures d == Library
  {
    VisitedIsRead(Compile, s, Main, d);
    hide Sound, Calls;
    var answers :| Compile(Main, answers) == Read(d);
  }

  lemma LibraryReads(s: Store, d: QueryKey)
    requires Sound(Compile, s) && Visits(Compile, s, Library, d)
    ensures d == OfFile(Parsed, 2) || d == OfFile(Parsed, 3)
  {
    VisitedIsRead(Compile, s, Library, d);
    hide Sound, Calls;
    var answers :| Compile(Library, answers) == Read(d);
  }

  lemma ParsedReads(s: Store, k: QueryKey)
    requires Sound(Compile, s) && k.OfFile? && k.query.Parsed?
    ensures forall d :: !Visits(Compile, s, k, d)
  {
    hide Sound, Visits;
    forall d | Visits(Compile, s, k, d)
      ensures false
    {
      VisitedIsRead(Compile, s, k, d);
      VisitsQuery(s, k, d);
    }
  }

  lemma VisitsQuery(s: Store, k: QueryKey, d: QueryKey)
    requires Visits(Compile, s, k, d)
    ensures !d.IsInput()
  {
    hide Calls;
  }

  // ---------------------------------------------------------------- across the change

  // The results of `Main`, which lists `Library`, and of `Library`, if any, are older than
  // `revision`.
  predicate Outdated(derived: map<QueryKey, DerivedState>, revision: nat) {
    && Main in derived && derived[Main].Computed? && derived[Main].entry.trace.built < revision
    && Library in derived[Main].entry.dependencies
    && (Library in derived && derived[Library].Computed? ==> derived[Library].entry.trace.built < revision)
  }

  lemma ListedAtFirst(m: State, v: Value)
    requires AtRest(Compile, m) && Delivered(m, Main, v) && Values(m.inputs) == Before
    ensures Outdated(m.derived, m.revision + 1)
  {
    InputsOf(m.inputs);
    hide Values, OwnersHold, FramesHold, Traced, Certified, LinkHolds, InputKept;
    FreshCurrent(Compile, m, Main);
    EntriesAtRest(Compile, m);
    var s := Logical(m);
    assert EntryHolds(Compile, s, Main) && (Library in s.entries ==> EntryHolds(Compile, s, Library));
    MainListsLibrary(s);
  }

  lemma ThreatenedNow(m: State)
    requires AtRest(Compile, m) && Outdated(m.derived, m.revision)
    requires Values(m.inputs) == After
    ensures Threatened(Compile, Logical(m), Main)
  {
    InputsOf(m.inputs);
    hide Valid, Threatened, Values;
    EntriesAtRest(Compile, m);
    MainIsThreatened(Logical(m));
  }

  lemma MissesThree(m: State, file: FileId)
    requires AtRest(Compile, m) && Values(m.inputs) == After && ThreatenedBy(Compile, Logical(m), Main, file)
    ensures file == 3
  {
    InputsOf(m.inputs);
    hide Values, OwnersHold, FramesHold, Traced, ThreatenedBy, Sound;
    ThreatIsThree(Logical(m), file);
  }

  lemma SafeAtFirst(m: State)
    requires AtRest(Compile, m) && m.derived == map[]
    requires Values(m.inputs) == Before
    ensures !Threatened(Compile, Logical(m), Main)
  {
    InputsOf(m.inputs);
    hide Valid, Threatened, Values;
    EntriesAtRest(Compile, m);
    MainIsSafe(Logical(m));
  }

  lemma NeverEntangled(m: State)
    requires AtRest(Compile, m)
    ensures !Entangled(Compile, Logical(m), Main)
  {
    hide Sound, OwnersHold, FramesHold, Traced, Entangled;
    CompileIsOrderly();
    hide RulesHold, PassesOn, Layered;
    LayeredIsNotEntangled(Compile, Layer, Logical(m), Main);
  }

  // A cycle would leave `Main` without a value.
  lemma NoCycle(stack: seq<QueryKey>)
    requires ReportedCycle(Compile, After, stack)
    ensures stack[0] != Main
  {
    hide ReportedCycle, IsValue;
    ReportHasNoValue(Compile, After, stack);
    MainHasValue(After);
  }

  // The first query succeeds. Then the module name is registered to a file without content, and
  // the import is removed. The second query fails, although it has a value.
  method RefuseMain() returns (first: QueryResult, second: QueryResult)
    ensures first.Ok? && second == Err(MissingContent(3))
    ensures HasValue(Compile, After, Main)
  {
    hide RulesHold, AtRest, PassesOn, Layered, Threatened, Entangled, HasValue, Later, IsValue, ReportedCycle, Values, Logical, Outdated;
    CompileIsOrderly();
    MainHasValue(After);
    var engine := new Engine(Compile, 2, _ => false);
    first := AskFirst(engine);
    ListedAtFirst(engine.Model(), first.value);
    second := AskAgain(engine);
  }

  method AskFirst(engine: Engine) returns (r: QueryResult)
    requires engine.rules == Compile && engine.readLimit == 2 && NeverRaised(engine.signal)
    requires AtRest(Compile, engine.Model()) && engine.inputs == map[] && engine.derived == map[]
    modifies engine
    ensures AtRest(Compile, engine.Model()) && r.Ok? && Delivered(engine.Model(), Main, r.value)
    ensures Values(engine.inputs) == Before
  {
    hide RulesHold, AtRest, PassesOn, Threatened, ThreatenedBy, Entangled, HasValue, Later, IsValue, ReportedCycle, Logical, Delivered;
    CompileIsOrderly();
    engine.SetInput(Content(0), Importing);
    engine.SetInput(ModuleName, ModuleFiles({2}));
    engine.SetInput(Content(2), Text("module Part"));
    SafeAtFirst(engine.Model());
    NeverEntangled(engine.Model());
    r := engine.Ask(Main);
  }

  lemma Differs(inputs: map<QueryKey, InputState>)
    requires Values(inputs) == Before
    ensures !(ModuleName in inputs && inputs[ModuleName].value == ModuleFiles({3}))
    ensures Apply(Apply(Before, SetInput(ModuleName, ModuleFiles({3}))), SetInput(Content(0), Alone)) == After
  {
    InputsOf(inputs);
    assert ModuleFiles({2}).files != ModuleFiles({3}).files;
  }

  method Change(engine: Engine)
    requires AtRest(engine.rules, engine.Model()) && Values(engine.inputs) == Before
    modifies engine
    ensures AtRest(engine.rules, engine.Model()) && Values(engine.inputs) == After
    ensures engine.derived == old(engine.derived) && engine.revision > old(engine.revision)
  {
    hide AtRest, Values, Apply;
    Differs(engine.inputs);
    engine.SetInput(ModuleName, ModuleFiles({3}));
    engine.SetInput(Content(0), Alone);
  }

  method AskAgain(engine: Engine) returns (r: QueryResult)
    requires engine.rules == Compile && engine.readLimit == 2 && NeverRaised(engine.signal)
    requires AtRest(Compile, engine.Model()) && Values(engine.inputs) == Before
    requires Outdated(engine.derived, engine.revision + 1)
    modifies engine
    ensures r == Err(MissingContent(3))
  {
    hide RulesHold, AtRest, PassesOn, Threatened, ThreatenedBy, Entangled, HasValue, Later, IsValue, ReportedCycle, Logical, Delivered, Values;
    CompileIsOrderly();
    Change(engine);
    ThreatenedNow(engine.Model());
    NeverEntangled(engine.Model());
    ghost var store := engine.Model();
    r := engine.Ask(Main);
    if r.Err? && r.error.Cycle? {
      NoCycle(r.error.stack);
    } else if r.Err? && r.error.MissingContent? {
      MissesThree(store, r.error.file);
    }
  }
}
