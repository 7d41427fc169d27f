// The step traces kept by the query engine, and why reusing them is sound
// (compiler-core/building/src/engine.rs).
module QueryCache {
  import opened Queries
  import opened Wrappers

  datatype Trace = Trace(built: nat, changed: nat)

  datatype Entry = Entry(value: Value, trace: Trace, dependencies: set<QueryKey>)

  datatype InputState = InputState(value: Value, changed: nat)

  // What the engine remembers at one revision, with the inputs of every revision so far.
  // `entries` holds the cached results, including those set aside while they are verified.
  datatype Store = Store(
    revision: nat,
    inputs: map<QueryKey, InputState>,
    entries: map<QueryKey, Entry>,
    history: seq<Inputs>)

  function Values(inputs: map<QueryKey, InputState>): Inputs {
    map k | k in inputs :: inputs[k].value
  }

  ghost function Now(s: Store): Inputs
    requires |s.history| == s.revision + 1
  {
    s.history[s.revision]
  }

  // Foreign content is read by the query of that foreign module alone, and by nothing else
  // does that query read anything.
  predicate InScope(k: QueryKey, d: QueryKey) {
    && (k.ForeignModule? ==> d == ForeignContent(k.foreign))
    && (d.ForeignContent? ==> k == ForeignModule(d.foreign))
  }

  ghost predicate ScopedRules(rules: Rules) {
    forall k, answers :: rules(k, answers).Read? ==> InScope(k, rules(k, answers).key)
  }

  // ---------------------------------------------------------------- the invariant

  // An input has kept its value since the revision that `changed` names.
  ghost predicate InputKept(s: Store, i: QueryKey)
    requires |s.history| == s.revision + 1 && i in s.inputs
  {
    && s.inputs[i].changed <= s.revision
    && (forall r :: s.inputs[i].changed <= r <= s.revision ==>
          i in s.history[r] && s.history[r][i] == s.inputs[i].value)
  }

  // An entry holds the value of its query at the revision that `built` names, computed from
  // the listed dependencies alone.
  ghost predicate EntryHolds(rules: Rules, s: Store, k: QueryKey)
    requires |s.history| == s.revision + 1 && k in s.entries
  {
    var e := s.entries[k];
    && !k.IsInput()
    && e.trace.changed <= e.trace.built <= s.revision
    && Certified(rules, s.history[e.trace.built], k, e.dependencies, e.value)
  }

  // A dependency that has not changed since its dependent was built still is what the
  // dependent saw.
  ghost predicate LinkHolds(rules: Rules, s: Store, k: QueryKey, d: QueryKey)
    requires |s.history| == s.revision + 1 && k in s.entries && s.entries[k].trace.built <= s.revision
  {
    var built := s.entries[k].trace.built;
    && InScope(k, d)
    && (d.IsInput() && d !in s.inputs ==> d !in s.history[built])
    && (!d.IsInput() && d in s.entries && s.entries[d].trace.changed <= built ==>
          IsValue(rules, s.history[built], d, s.entries[d].value))
  }

  ghost predicate Sound(rules: Rules, s: Store) {
    && |s.history| == s.revision + 1
    && Now(s) == Values(s.inputs)
    && (forall i :: i in s.inputs ==> i.IsInput() && InputKept(s, i))
    && (forall k :: k in s.entries ==> EntryHolds(rules, s, k))
    && (forall k, d :: k in s.entries && d in s.entries[k].dependencies ==> LinkHolds(rules, s, k, d))
  }

  // The entry of `d` was stored or verified at the current revision.
  ghost predicate IsCurrent(s: Store, d: QueryKey) {
    d in s.entries && s.entries[d].trace.built == s.revision
  }

  lemma CurrentIsValue(rules: Rules, s: Store, d: QueryKey)
    requires Sound(rules, s) && IsCurrent(s, d)
    ensures IsValue(rules, Now(s), d, s.entries[d].value)
  {
    assert EntryHolds(rules, s, d);
    CertifiedIsValue(rules, Now(s), d, s.entries[d].dependencies, s.entries[d].value);
  }

  // ---------------------------------------------------------------- verification

  // The change stamps that verification collects: none is later than `latest`.
  ghost predicate VerifiedUpTo(s: Store, d: QueryKey, latest: nat) {
    if d.IsInput() then d in s.inputs ==> s.inputs[d].changed <= latest
    else IsCurrent(s, d) && s.entries[d].trace.changed <= latest
  }

  lemma VerifiedAnswer(rules: Rules, s: Store, k: QueryKey, d: QueryKey, a: Answer)
    requires Sound(rules, s) && k in s.entries && d in s.entries[k].dependencies
    requires VerifiedUpTo(s, d, s.entries[k].trace.built)
    requires IsAnswer(rules, s.history[s.entries[k].trace.built], d, a)
    ensures IsAnswer(rules, Now(s), d, a)
  {
    var built := s.entries[k].trace.built;
    assert EntryHolds(rules, s, k) && LinkHolds(rules, s, k, d);
    if d.IsInput() {
      if d in s.inputs {
        assert InputKept(s, d);
      }
    } else {
      CurrentIsValue(rules, s, d);
      ValueIsUnique(rules, s.history[built], d, a.value, s.entries[d].value);
    }
  }

  function Stamped(e: Entry, built: nat): Entry {
    e.(trace := Trace(built, e.trace.changed))
  }

  // An entry whose dependencies are all unchanged since it was built is current as it stands.
  lemma Reverified(rules: Rules, s: Store, k: QueryKey)
    requires Sound(rules, s) && k in s.entries
    requires forall d :: d in s.entries[k].dependencies ==> VerifiedUpTo(s, d, s.entries[k].trace.built)
    ensures Sound(rules, s.(entries := s.entries[k := Stamped(s.entries[k], s.revision)]))
    ensures Certified(rules, Now(s), k, s.entries[k].dependencies, s.entries[k].value)
  {
    var e := s.entries[k];
    assert EntryHolds(rules, s, k);
    forall d, a | d in e.dependencies && IsAnswer(rules, s.history[e.trace.built], d, a)
      ensures IsAnswer(rules, Now(s), d, a)
    {
      VerifiedAnswer(rules, s, k, d, a);
    }
    CertifiedTransfer(rules, s.history[e.trace.built], Now(s), k, e.dependencies, e.value);
    StoreEntry(rules, s, k, Stamped(e, s.revision));
  }

  // ---------------------------------------------------------------- storing

  // Replaces the entry of `k` by one that is certified now. Its change stamp may be kept only
  // along with its value.
  lemma StoreEntry(rules: Rules, s: Store, k: QueryKey, e: Entry)
    requires Sound(rules, s) && !k.IsInput() && e.trace.built == s.revision
    requires Certified(rules, Now(s), k, e.dependencies, e.value)
    requires e.trace.changed == s.revision
          || (k in s.entries && s.entries[k].value == e.value && s.entries[k].trace.changed == e.trace.changed)
    requires forall d :: d in e.dependencies ==> InScope(k, d) && (d.IsInput() || IsCurrent(s, d))
    ensures Sound(rules, s.(entries := s.entries[k := e]))
  {
    hide Certified, IsValue;
    var s' := s.(entries := s.entries[k := e]);
    CertifiedIsValue(rules, Now(s), k, e.dependencies, e.value);
    if k in s.entries {
      assert EntryHolds(rules, s, k);
    }
    forall j | j in s'.entries
      ensures EntryHolds(rules, s', j)
    {
      assert j != k ==> EntryHolds(rules, s, j);
    }
    forall j, d | j in s'.entries && d in s'.entries[j].dependencies
      ensures LinkHolds(rules, s', j, d)
    {
      if j == k {
        if !d.IsInput() && d != k {
          CurrentIsValue(rules, s, d);
        }
      } else {
        assert EntryHolds(rules, s, j) && LinkHolds(rules, s, j, d);
      }
    }
    forall i | i in s'.inputs
      ensures InputKept(s', i)
    {
      assert InputKept(s, i);
    }
  }

  // Forgetting entries is always sound.
  lemma Forget(rules: Rules, s: Store, entries: map<QueryKey, Entry>)
    requires Sound(rules, s)
    requires forall k :: k in entries ==> k in s.entries && entries[k] == s.entries[k]
    ensures Sound(rules, s.(entries := entries))
  {
    var s' := s.(entries := entries);
    forall j | j in s'.entries
      ensures EntryHolds(rules, s', j)
    {
      assert EntryHolds(rules, s, j);
    }
    forall j, d | j in s'.entries && d in s'.entries[j].dependencies
      ensures LinkHolds(rules, s', j, d)
    {
      assert EntryHolds(rules, s, j) && LinkHolds(rules, s, j, d);
    }
    forall i | i in s'.inputs
      ensures InputKept(s', i)
    {
      assert InputKept(s, i);
    }
  }

  // ---------------------------------------------------------------- new revisions

  function NextRevision(s: Store, inputs: map<QueryKey, InputState>, entries: map<QueryKey, Entry>): Store {
    Store(s.revision + 1, inputs, entries, s.history + [Values(inputs)])
  }

  // A transaction stamps the inputs it writes, and purges every entry that lists an input it
  // removes.
  ghost predicate IsTransaction(s: Store, inputs: map<QueryKey, InputState>, entries: map<QueryKey, Entry>) {
    && (forall i :: i in inputs ==> i.IsInput())
    && (forall i :: i in inputs ==> inputs[i].changed == s.revision + 1 || (i in s.inputs && inputs[i] == s.inputs[i]))
    && (forall k :: k in entries ==> k in s.entries && entries[k] == s.entries[k])
    && (forall i, k :: i in s.inputs && i !in inputs && k in entries ==> i !in entries[k].dependencies)
  }

  lemma TransactionSound(rules: Rules, s: Store, inputs: map<QueryKey, InputState>, entries: map<QueryKey, Entry>)
    requires Sound(rules, s) && IsTransaction(s, inputs, entries)
    ensures Sound(rules, NextRevision(s, inputs, entries))
  {
    var s' := NextRevision(s, inputs, entries);
    forall i | i in inputs
      ensures InputKept(s', i)
    {
      if inputs[i].changed != s.revision + 1 {
        assert InputKept(s, i);
      }
    }
    forall j | j in entries
      ensures EntryHolds(rules, s', j)
    {
      assert EntryHolds(rules, s, j);
      assert s'.history[entries[j].trace.built] == s.history[entries[j].trace.built];
    }
    forall j, d | j in entries && d in entries[j].dependencies
      ensures LinkHolds(rules, s', j, d)
    {
      assert EntryHolds(rules, s, j) && LinkHolds(rules, s, j, d);
      assert s'.history[entries[j].trace.built] == s.history[entries[j].trace.built];
    }
  }

  // ---------------------------------------------------------------- removals

  predicate ReferencesFile(k: QueryKey, file: FileId) {
    (k.Content? || k.Foreign? || k.OfFile?) && k.file == file
  }

  predicate RegistersOnly(state: InputState, file: FileId) {
    state.value.ModuleFiles? && file in state.value.files && state.value.files - {file} == {}
  }

  predicate Registers(k: QueryKey, state: InputState, file: FileId) {
    k.Module? && state.value.ModuleFiles? && file in state.value.files
  }

  // The inputs left once `file` is gone: its contents are dropped, and it is taken out of every
  // module registration, dropping those it leaves empty.
  function InputsWithoutFile(inputs: map<QueryKey, InputState>, file: FileId, changed: nat): map<QueryKey, InputState> {
    map k | k in inputs && k != Content(file) && k != Foreign(file) && !(k.Module? && RegistersOnly(inputs[k], file)) ::
      if Registers(k, inputs[k], file) then InputState(ModuleFiles(inputs[k].value.files - {file}), changed)
      else inputs[k]
  }

  function RemovedModules(inputs: map<QueryKey, InputState>, file: FileId): set<QueryKey> {
    set k | k in inputs && k.Module? && RegistersOnly(inputs[k], file)
  }

  // Whether removing `file` discards the cached result of `k`.
  predicate PurgedWithFile(k: QueryKey, dependencies: set<QueryKey>, file: FileId, removedModules: set<QueryKey>) {
    && !k.ForeignModule?
    && (ReferencesFile(k, file)
        || exists d :: d in dependencies && (ReferencesFile(d, file) || d in removedModules))
  }

  function EntriesWithoutFile(entries: map<QueryKey, Entry>, file: FileId, removedModules: set<QueryKey>): map<QueryKey, Entry> {
    map k | k in entries && !PurgedWithFile(k, entries[k].dependencies, file, removedModules) :: entries[k]
  }

  lemma RemoveFileIsTransaction(rules: Rules, s: Store, file: FileId)
    requires Sound(rules, s)
    ensures IsTransaction(s, InputsWithoutFile(s.inputs, file, s.revision + 1),
                          EntriesWithoutFile(s.entries, file, RemovedModules(s.inputs, file)))
  {
    var inputs := InputsWithoutFile(s.inputs, file, s.revision + 1);
    var removed := RemovedModules(s.inputs, file);
    var entries := EntriesWithoutFile(s.entries, file, removed);
    forall i, k | i in s.inputs && i !in inputs && k in entries
      ensures i !in entries[k].dependencies
    {
      assert ReferencesFile(i, file) || i in removed;
    }
  }

  function WithoutCandidate(value: Value, foreign: ForeignFileId): Value {
    if value.Candidates? && foreign.kind.JavaScriptSource? && value.javascript == Some(foreign) then
      value.(javascript := None)
    else if value.Candidates? && foreign.kind.JsxSource? && value.jsx == Some(foreign) then
      value.(jsx := None)
    else value
  }

  // The candidates of a source file, each in the place of its kind.
  function CandidateIds(value: Value): set<ForeignFileId> {
    if !value.Candidates? then {}
    else (if value.javascript.Some? then {value.javascript.value} else {}) + (if value.jsx.Some? then {value.jsx.value} else {})
  }

  predicate WellPlaced(value: Value) {
    value.Candidates? ==>
      && (value.javascript.Some? ==> value.javascript.value.kind.JavaScriptSource?)
      && (value.jsx.Some? ==> value.jsx.value.kind.JsxSource?)
  }

  // Exactly the removed file is no candidate any more, and the others keep their places.
  lemma CandidateIsGone(value: Value, foreign: ForeignFileId)
    requires WellPlaced(value)
    ensures WellPlaced(WithoutCandidate(value, foreign))
    ensures CandidateIds(WithoutCandidate(value, foreign)) == CandidateIds(value) - {foreign}
    ensures WithoutCandidate(value, foreign).Candidates? <==> value.Candidates?
    ensures foreign !in CandidateIds(value) ==> WithoutCandidate(value, foreign) == value
  {
  }

  function InputsWithoutForeign(inputs: map<QueryKey, InputState>, foreign: ForeignFileId, changed: nat): map<QueryKey, InputState> {
    map k | k in inputs && k != ForeignContent(foreign) ::
      if k.Foreign? && WithoutCandidate(inputs[k].value, foreign) != inputs[k].value then
        InputState(WithoutCandidate(inputs[k].value, foreign), changed)
      else inputs[k]
  }

  predicate PurgedWithForeign(k: QueryKey, dependencies: set<QueryKey>, foreign: ForeignFileId) {
    || k == ForeignModule(foreign)
    || (k.OfFile? && k.query.ForeignValidation? && ForeignModule(foreign) in dependencies)
  }

  function EntriesWithoutForeign(entries: map<QueryKey, Entry>, foreign: ForeignFileId): map<QueryKey, Entry> {
    map k | k in entries && !PurgedWithForeign(k, entries[k].dependencies, foreign) :: entries[k]
  }

  lemma RemoveForeignIsTransaction(rules: Rules, s: Store, foreign: ForeignFileId)
    requires Sound(rules, s)
    ensures IsTransaction(s, InputsWithoutForeign(s.inputs, foreign, s.revision + 1),
                          EntriesWithoutForeign(s.entries, foreign))
  {
    var inputs := InputsWithoutForeign(s.inputs, foreign, s.revision + 1);
    var entries := EntriesWithoutForeign(s.entries, foreign);
    assert forall k :: k in entries ==> forall d :: d in s.entries[k].dependencies ==> LinkHolds(rules, s, k, d);
  }
}
