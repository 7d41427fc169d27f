// The query engine as one snapshot drives it: cached results, verification of their traces, and
// recomputation (compiler-core/building/src/engine.rs).
module QueryEngine {
  import opened Queries
  import opened QueryCache
  import opened QueryVisits
  import opened Reuse
  import opened Wrappers

  datatype DerivedState = InProgress | Computed(entry: Entry)

  datatype QueryFrame = QueryFrame(
    query: QueryKey,
    inProgress: bool,
    verifying: bool,
    dependencies: set<QueryKey>,
    unavailable: Option<QueryError>)
  {
    function Record(dependency: QueryKey): QueryFrame {
      if verifying then this else this.(dependencies := dependencies + {dependency})
    }

    function RecordUnavailable(error: QueryError): QueryFrame {
      if verifying || unavailable.Some? then this
      else if error.Unverifiable? || error.Cancelled? then this.(unavailable := Some(error))
      else this
    }
  }

  function NewFrame(query: QueryKey): QueryFrame {
    QueryFrame(query, false, false, {}, None)
  }

  // ---------------------------------------------------------------- frames

  function Top(frames: seq<QueryFrame>): QueryFrame
    requires frames != []
  {
    frames[|frames| - 1]
  }

  function WithTop(frames: seq<QueryFrame>, top: QueryFrame): seq<QueryFrame>
    requires frames != []
  {
    frames[|frames| - 1 := top]
  }

  // The stack after the frame on top has recorded a dependency, if there is one.
  function Recorded(frames: seq<QueryFrame>, query: QueryKey): seq<QueryFrame> {
    if frames == [] then [] else WithTop(frames, Top(frames).Record(query))
  }

  function Failed(frames: seq<QueryFrame>, error: QueryError): seq<QueryFrame> {
    if frames == [] then [] else WithTop(frames, Top(frames).RecordUnavailable(error))
  }

  // The stack after `query` was asked for and answered with `r`.
  function Answered(frames: seq<QueryFrame>, query: QueryKey, r: QueryResult): seq<QueryFrame> {
    if r.Ok? then Recorded(frames, query) else Failed(Recorded(frames, query), r.error)
  }

  predicate AnyVerifying(frames: seq<QueryFrame>) {
    exists i :: 0 <= i < |frames| && frames[i].verifying
  }

  function Stack(frames: seq<QueryFrame>): (stack: seq<QueryKey>)
    ensures |stack| == |frames| && forall i :: 0 <= i < |frames| ==> stack[i] == frames[i].query
  {
    seq(|frames|, i requires 0 <= i < |frames| => frames[i].query)
  }

  // ---------------------------------------------------------------- the invariant

  // Nothing else explains a recorded unavailability than a cancellation, or a frame at or below
  // it that is verifying.
  ghost predicate Excused(frames: seq<QueryFrame>, i: nat, cancelSeen: bool)
    requires i < |frames|
  {
    cancelSeen || exists j :: 0 <= j <= i && frames[j].verifying
  }

  ghost predicate FramesHold(rules: Rules, now: Inputs, frames: seq<QueryFrame>, cancelSeen: bool) {
    && (forall i :: 0 <= i < |frames| ==> !frames[i].query.IsInput())
    && (forall i :: 0 <= i < |frames| && frames[i].unavailable.Some? ==>
          !frames[i].verifying && Excused(frames, i, cancelSeen))
    && (forall i :: 0 <= i < |frames| - 1 && !frames[i].verifying && frames[i].unavailable.None? ==>
          Calls(rules, now, frames[i].query, frames[i + 1].query))
  }

  predicate Owns(frames: seq<QueryFrame>, i: int, k: QueryKey) {
    0 <= i < |frames| && frames[i].inProgress && frames[i].query == k
  }

  // A query is in progress exactly when one frame owns it.
  ghost predicate OwnersHold(derived: map<QueryKey, DerivedState>, suspended: map<QueryKey, Entry>, frames: seq<QueryFrame>) {
    && (forall k :: k in derived && derived[k].InProgress? ==> exists i :: Owns(frames, i, k))
    && (forall i, k :: Owns(frames, i, k) ==> k in derived && derived[k].InProgress?)
    && (forall i, j, k :: Owns(frames, i, k) && Owns(frames, j, k) ==> i == j)
    && (forall k :: k in suspended ==> k in derived && derived[k].InProgress?)
    && (forall k :: k in derived ==> !k.IsInput())
  }

  function ComputedEntries(derived: map<QueryKey, DerivedState>): map<QueryKey, Entry> {
    map k | k in derived && derived[k].Computed? :: derived[k].entry
  }

  function InProgressKeys(derived: map<QueryKey, DerivedState>): set<QueryKey> {
    set k | k in derived && derived[k].InProgress?
  }

  // A compute function makes a bounded number of reads.
  ghost predicate TerminatingRules(rules: Rules, readLimit: nat) {
    forall k, answers :: rules(k, answers).Read? ==> |answers| < readLimit
  }

  // A reported stack is a chain of calls that closes a cycle.
  ghost predicate ReportedCycle(rules: Rules, now: Inputs, stack: seq<QueryKey>) {
    && |stack| > 1
    && CallChain(rules, now, stack)
    && exists j :: 0 <= j < |stack| - 1 && stack[j] == stack[|stack| - 1]
  }

  lemma ReportedCycleIsCycle(rules: Rules, now: Inputs, stack: seq<QueryKey>)
    requires ReportedCycle(rules, now, stack)
    ensures OnCycle(rules, now, stack[|stack| - 1])
  {
    var j :| 0 <= j < |stack| - 1 && stack[j] == stack[|stack| - 1];
    var chain := stack[j..];
    assert CallChain(rules, now, chain) by {
      forall i | 0 <= i < |chain| - 1
        ensures Calls(rules, now, chain[i], chain[i + 1])
      {
        assert Calls(rules, now, stack[j + i], stack[j + i + 1]);
      }
    }
  }

  // The query from which a cycle was found has no value.
  lemma ReportHasNoValue(rules: Rules, now: Inputs, stack: seq<QueryKey>)
    requires ReportedCycle(rules, now, stack)
    ensures NoValue(rules, now, stack[0])
  {
    hide NoValue;
    ReportedCycleIsCycle(rules, now, stack);
    CycleIsNoValue(rules, now, stack[|stack| - 1]);
    ChainHasNoValue(rules, now, stack);
  }

  // ---------------------------------------------------------------- the finite key space

  predicate Known(file: FileId) {
    true
  }

  ghost function Files(): (files: set<FileId>)
    ensures forall f: FileId :: Known(f) ==> f in files
  {
    set f: FileId | 0 <= f < 0x1_0000_0000 && Known(f)
  }

  ghost function DerivedKeys(): (keys: set<QueryKey>)
    ensures forall k: QueryKey :: !k.IsInput() ==> k in keys
  {
    var ofFile := set q: FileQuery, f | f in Files() :: OfFile(q, f);
    var foreign := set kind: ForeignSourceKind, f | f in Files() :: ForeignModule(ForeignFileId(f, kind));
    assert forall k: QueryKey :: k.OfFile? ==> Known(k.file) && k in ofFile;
    assert forall k: QueryKey :: k.ForeignModule? ==> Known(k.foreign.file) && k in foreign;
    ofFile + foreign + {CheckedCore}
  }

  ghost function Idle(derived: map<QueryKey, DerivedState>): nat {
    |DerivedKeys() - InProgressKeys(derived)|
  }

  lemma KeyStarts(derived: map<QueryKey, DerivedState>, k: QueryKey)
    requires !(k in derived && derived[k].InProgress?)
    ensures InProgressKeys(derived[k := InProgress]) == InProgressKeys(derived) + {k} && k !in InProgressKeys(derived)
  {
  }

  lemma IdleShrinks(derived: map<QueryKey, DerivedState>, k: QueryKey)
    requires !k.IsInput() && !(k in derived && derived[k].InProgress?)
    ensures Idle(derived[k := InProgress]) < Idle(derived)
  {
    hide DerivedKeys, InProgressKeys;
    KeyStarts(derived, k);
    var idle := DerivedKeys() - InProgressKeys(derived);
    assert k in idle && DerivedKeys() - InProgressKeys(derived[k := InProgress]) == idle - {k};
  }

  // ---------------------------------------------------------------- steps of the frame stack

  lemma PushFrame(rules: Rules, now: Inputs, frames: seq<QueryFrame>, query: QueryKey, cancelSeen: bool)
    requires FramesHold(rules, now, frames, cancelSeen) && !query.IsInput()
    requires frames != [] && !Top(frames).verifying && Top(frames).unavailable.None? ==>
               Calls(rules, now, Top(frames).query, query)
    ensures FramesHold(rules, now, Recorded(frames, query) + [NewFrame(query)], cancelSeen)
    ensures FramesHold(rules, now, Recorded(frames, query), cancelSeen)
  {
    hide Calls;
    var recorded := Recorded(frames, query);
    var pushed := recorded + [NewFrame(query)];
    forall i | 0 <= i < |frames| && frames[i].unavailable.Some?
      ensures Excused(recorded, i, cancelSeen) && Excused(pushed, i, cancelSeen)
    {
      if !cancelSeen {
        var j :| 0 <= j <= i && frames[j].verifying;
        assert recorded[j].verifying && pushed[j].verifying;
      }
    }
  }

  // Changing the marks of the frame on top, as long as it has met no unavailability.
  lemma MarkTop(rules: Rules, now: Inputs, frames: seq<QueryFrame>, top: QueryFrame, cancelSeen: bool)
    requires FramesHold(rules, now, frames, cancelSeen) && frames != []
    requires top.query == Top(frames).query && top.unavailable.None?
    ensures FramesHold(rules, now, WithTop(frames, top), cancelSeen)
  {
    hide Calls;
    var marked := WithTop(frames, top);
    forall i | 0 <= i < |frames| - 1 && frames[i].unavailable.Some?
      ensures Excused(marked, i, cancelSeen)
    {
      if !cancelSeen {
        var j :| 0 <= j <= i && frames[j].verifying;
        assert marked[j].verifying;
      }
    }
  }

  lemma PopFrame(rules: Rules, now: Inputs, frames: seq<QueryFrame>, cancelSeen: bool)
    requires FramesHold(rules, now, frames, cancelSeen) && frames != []
    ensures FramesHold(rules, now, frames[..|frames| - 1], cancelSeen)
  {
    hide Calls;
    var popped := frames[..|frames| - 1];
    forall i | 0 <= i < |popped| && popped[i].unavailable.Some?
      ensures Excused(popped, i, cancelSeen)
    {
      if !cancelSeen {
        var j :| 0 <= j <= i && frames[j].verifying;
        assert popped[j].verifying;
      }
    }
  }

  // A failed read is recorded with its excuse.
  lemma RecordFailure(rules: Rules, now: Inputs, frames: seq<QueryFrame>, error: QueryError, cancelSeen: bool)
    requires FramesHold(rules, now, frames, cancelSeen)
    requires error.Unverifiable? ==> AnyVerifying(frames)
    requires error.Cancelled? ==> cancelSeen
    ensures FramesHold(rules, now, Failed(frames, error), cancelSeen)
  {
    hide Calls;
    var failed := Failed(frames, error);
    forall i | 0 <= i < |failed| && failed[i].unavailable.Some?
      ensures Excused(failed, i, cancelSeen)
    {
      if !cancelSeen {
        assert i < |frames| - 1 ==> frames[i] == failed[i];
        if frames[i].unavailable.Some? {
          var j :| 0 <= j <= i && frames[j].verifying;
          assert failed[j].verifying;
        } else {
          var j :| 0 <= j < |frames| && frames[j].verifying;
          assert failed[j].verifying;
        }
      }
    }
  }

  lemma LaterCancel(rules: Rules, now: Inputs, frames: seq<QueryFrame>, before: bool, after: bool)
    requires FramesHold(rules, now, frames, before) && (before ==> after)
    ensures FramesHold(rules, now, frames, after)
  {
    hide Calls;
    forall i | 0 <= i < |frames| && frames[i].unavailable.Some?
      ensures Excused(frames, i, after)
    {
      assert Excused(frames, i, before);
    }
  }

  // The stack that a cycle error reports.
  lemma StackIsCycle(rules: Rules, now: Inputs, derived: map<QueryKey, DerivedState>, suspended: map<QueryKey, Entry>,
                     frames: seq<QueryFrame>, cancelSeen: bool)
    requires FramesHold(rules, now, frames, cancelSeen) && OwnersHold(derived, suspended, frames)
    requires frames != [] && !Top(frames).inProgress && !AnyVerifying(frames) && !cancelSeen
    requires Top(frames).query in derived && derived[Top(frames).query].InProgress?
    ensures ReportedCycle(rules, now, Stack(frames))
  {
    hide Calls;
    var stack := Stack(frames);
    var j :| Owns(frames, j, Top(frames).query);
    assert j < |frames| - 1 && stack[j] == stack[|stack| - 1];
    forall i | 0 <= i < |stack| - 1
      ensures Calls(rules, now, stack[i], stack[i + 1])
    {
      assert !frames[i].verifying;
      assert !Excused(frames, i, cancelSeen);
    }
  }

  // ---------------------------------------------------------------- steps of the store

  ghost function LogicalStore(revision: nat, inputs: map<QueryKey, InputState>, derived: map<QueryKey, DerivedState>,
                              suspended: map<QueryKey, Entry>, history: seq<Inputs>): Store
  {
    Store(revision, inputs, ComputedEntries(derived) + suspended, history)
  }

  // The cached result of `k` was stored or verified at this revision.
  predicate Fresh(derived: map<QueryKey, DerivedState>, revision: nat, k: QueryKey) {
    k in derived && derived[k].Computed? && derived[k].entry.trace.built == revision
  }

  ghost predicate SuspendedInProgress(derived: map<QueryKey, DerivedState>, suspended: map<QueryKey, Entry>) {
    forall k :: k in suspended ==> k in derived && derived[k].InProgress?
  }

  // Setting a result aside does not change what the engine remembers.
  lemma SuspendKeepsEntries(derived: map<QueryKey, DerivedState>, suspended: map<QueryKey, Entry>, k: QueryKey)
    requires SuspendedInProgress(derived, suspended) && k in derived && derived[k].Computed?
    ensures ComputedEntries(derived[k := InProgress]) + suspended[k := derived[k].entry]
         == ComputedEntries(derived) + suspended
  {
  }

  lemma StartKeepsEntries(derived: map<QueryKey, DerivedState>, suspended: map<QueryKey, Entry>, k: QueryKey)
    requires k !in derived
    ensures ComputedEntries(derived[k := InProgress]) + suspended == ComputedEntries(derived) + suspended
  {
  }

  lemma StoreReplacesEntry(derived: map<QueryKey, DerivedState>, suspended: map<QueryKey, Entry>, k: QueryKey, e: Entry)
    requires SuspendedInProgress(derived, suspended)
    ensures ComputedEntries(derived[k := Computed(e)]) + (suspended - {k})
         == (ComputedEntries(derived) + suspended)[k := e]
  {
  }

  lemma CleanUpForgets(rules: Rules, s: Store, derived: map<QueryKey, DerivedState>, suspended: map<QueryKey, Entry>, k: QueryKey)
    requires Sound(rules, s) && s.entries == ComputedEntries(derived) + suspended
    requires SuspendedInProgress(derived, suspended) && k in derived && derived[k].InProgress?
    ensures Sound(rules, s.(entries := ComputedEntries(derived - {k}) + (suspended - {k})))
  {
    Forget(rules, s, ComputedEntries(derived - {k}) + (suspended - {k}));
  }

  // Ownership follows the mark on the frame that starts or ends a query.
  lemma OwnTop(derived: map<QueryKey, DerivedState>, suspended: map<QueryKey, Entry>, suspended': map<QueryKey, Entry>,
               frames: seq<QueryFrame>, top: QueryFrame)
    requires OwnersHold(derived, suspended, frames) && frames != [] && !Top(frames).inProgress
    requires top.inProgress && !top.query.IsInput()
    requires !(top.query in derived && derived[top.query].InProgress?)
    requires forall k :: k in suspended' ==> k in suspended || k == top.query
    ensures OwnersHold(derived[top.query := InProgress], suspended', WithTop(frames, top))
  {
    var marked := WithTop(frames, top);
    var derived' := derived[top.query := InProgress];
    assert Owns(marked, |frames| - 1, top.query);
    forall i: int, k
      ensures Owns(marked, i, k) <==> Owns(frames, i, k) || (i == |frames| - 1 && k == top.query)
    {
    }
    forall k | k in derived' && derived'[k].InProgress?
      ensures exists i :: Owns(marked, i, k)
    {
      if k != top.query {
        var i :| Owns(frames, i, k);
        assert Owns(marked, i, k);
      }
    }
  }

  lemma DisownTop(derived: map<QueryKey, DerivedState>, suspended: map<QueryKey, Entry>, frames: seq<QueryFrame>,
                  derived': map<QueryKey, DerivedState>)
    requires OwnersHold(derived, suspended, frames) && frames != [] && Top(frames).inProgress
    requires derived' - {Top(frames).query} == derived - {Top(frames).query}
    requires Top(frames).query in derived' ==> derived'[Top(frames).query].Computed?
    ensures OwnersHold(derived', suspended - {Top(frames).query}, frames[..|frames| - 1])
  {
    var n := |frames| - 1;
    var query := frames[n].query;
    var popped := frames[..n];
    assert Owns(frames, n, query);
    forall i: int, k
      ensures Owns(popped, i, k) <==> Owns(frames, i, k) && i != n
    {
    }
    forall k | k != query
      ensures k in derived' <==> k in derived
      ensures k in derived ==> derived'[k] == derived[k]
    {
      assert k in derived' - {query} <==> k in derived - {query};
      assert k in derived ==> (derived' - {query})[k] == (derived - {query})[k];
    }
    forall k | k in derived' && derived'[k].InProgress?
      ensures exists i :: Owns(popped, i, k)
    {
      var i :| Owns(frames, i, k);
      assert Owns(popped, i, k);
    }
  }

  // Frames that own nothing, or whose ownership is unchanged, do not matter.
  lemma SameOwners(derived: map<QueryKey, DerivedState>, suspended: map<QueryKey, Entry>, frames: seq<QueryFrame>, frames': seq<QueryFrame>)
    requires OwnersHold(derived, suspended, frames)
    requires forall i, k :: Owns(frames', i, k) <==> Owns(frames, i, k)
    ensures OwnersHold(derived, suspended, frames')
  {
    forall k | k in derived && derived[k].InProgress?
      ensures exists i :: Owns(frames', i, k)
    {
      var i :| Owns(frames, i, k);
      assert Owns(frames', i, k);
    }
  }

  // ---------------------------------------------------------------- the engine's state

  // The query that was asked for from the outside, and the store at that time.
  datatype Origin = Origin(store: Store, root: QueryKey)

  // Besides the fields of the engine: the inputs of every revision, the results set aside for
  // verification, what is being answered, and whether a query in progress was met on the way.
  datatype State = State(
    revision: nat,
    inputs: map<QueryKey, InputState>,
    derived: map<QueryKey, DerivedState>,
    frames: seq<QueryFrame>,
    cancelSeen: bool,
    history: seq<Inputs>,
    suspended: map<QueryKey, Entry>,
    origin: Origin,
    tangled: bool)

  ghost function Logical(s: State): Store {
    LogicalStore(s.revision, s.inputs, s.derived, s.suspended, s.history)
  }

  ghost predicate RulesHold(rules: Rules, readLimit: nat) {
    ScopedRules(rules) && TerminatingRules(rules, readLimit) && HonestRules(rules)
  }

  ghost predicate FramesVisit(rules: Rules, origin: Origin, stack: seq<QueryKey>) {
    stack != [] && stack[0] == origin.root && VisitPath(rules, origin.store, stack)
  }

  ghost predicate SuspendedStale(suspended: map<QueryKey, Entry>, revision: nat) {
    forall k :: k in suspended ==> suspended[k].trace.built != revision
  }

  // The stack is a path of visits from the query that was asked for.
  ghost predicate Traced(rules: Rules, s: State) {
    && SuspendedStale(s.suspended, s.revision) && CurrentClosed(Logical(s))
    && (PassesOn(rules) && s.tangled ==> Entangled(rules, s.origin.store, s.origin.root))
    && (PassesOn(rules) && s.frames != [] ==>
          Later(s.origin.store, Logical(s)) && FramesVisit(rules, s.origin, Stack(s.frames)))
  }

  // Whether other threads have raised the cancellation flag, at each look at it.
  type Signal = nat -> bool

  // The flag is seen only if it was up at some look since the query was asked for.
  ghost predicate FlagHolds(signal: Signal, cancelSeen: bool, since: nat, looks: nat) {
    since <= looks && (cancelSeen ==> RaisedIn(signal, since, looks))
  }

  ghost predicate RaisedIn(signal: Signal, since: nat, looks: nat) {
    exists n: nat :: since <= n < looks && signal(n)
  }

  ghost predicate Valid(rules: Rules, s: State) {
    && Sound(rules, Logical(s))
    && OwnersHold(s.derived, s.suspended, s.frames)
    && FramesHold(rules, Values(s.inputs), s.frames, s.cancelSeen)
    && Traced(rules, s)
  }

  lemma SameTrace(rules: Rules, s: State, t: State)
    requires Traced(rules, s) && t.origin == s.origin && t.tangled == s.tangled && Logical(t) == Logical(s)
    requires SuspendedStale(t.suspended, t.revision)
    requires t.frames == [] || Stack(t.frames) == Stack(s.frames)
    ensures Traced(rules, t)
  {
    hide Later, FramesVisit, PassesOn, Entangled;
  }

  lemma PushTrace(rules: Rules, s: State, query: QueryKey)
    requires Traced(rules, s)
    requires PassesOn(rules) ==>
               if s.frames == [] then s.origin == Origin(Logical(s), query)
               else Visits(rules, Logical(s), Top(s.frames).query, query)
    ensures Traced(rules, Pushed(s, query))
  {
    hide PassesOn, Entangled, Visits;
    var t := Pushed(s, query);
    var stack := Stack(t.frames);
    if PassesOn(rules) {
      if s.frames != [] {
        LaterVisits(rules, s.origin.store, Logical(s), Top(s.frames).query, query);
        forall i | 0 <= i < |stack| - 1
          ensures Visits(rules, s.origin.store, stack[i], stack[i + 1])
        {
          assert stack[i] == Stack(s.frames)[i];
          assert i + 1 < |s.frames| ==> stack[i + 1] == Stack(s.frames)[i + 1];
        }
      }
    }
  }

  lemma PopTrace(rules: Rules, s: State)
    requires Traced(rules, s) && s.frames != []
    ensures Traced(rules, Popped(s))
  {
    hide PassesOn, Entangled, Visits, Later;
    var stack := Stack(Popped(s).frames);
    assert forall i :: 0 <= i < |stack| ==> stack[i] == Stack(s.frames)[i];
  }

  // The entry of the query on top, which is in progress, is replaced by a current one or dropped.
  lemma EntryTrace(rules: Rules, s: State, t: State, query: QueryKey)
    requires Traced(rules, s) && t.origin == s.origin && t.tangled == s.tangled && t.frames == s.frames
    requires Later(Logical(s), Logical(t)) && t.suspended == s.suspended - {query} && t.revision == s.revision
    requires CurrentClosed(Logical(t))
    ensures Traced(rules, t)
  {
    hide PassesOn, Entangled, FramesVisit, CurrentClosed;
    if PassesOn(rules) && s.frames != [] {
      LaterTransitive(s.origin.store, Logical(s), Logical(t));
    }
  }

  lemma NotCurrent(derived: map<QueryKey, DerivedState>, suspended: map<QueryKey, Entry>, s: Store, k: QueryKey)
    requires SuspendedStale(suspended, s.revision) && s.entries == ComputedEntries(derived) + suspended
    requires k in derived && derived[k].InProgress?
    ensures !IsCurrent(s, k)
  {
  }

  // Meeting a query in progress shows that the query that was asked for is entangled.
  lemma StackIsTangled(rules: Rules, s: State)
    requires Valid(rules, s) && s.frames != [] && !Top(s.frames).inProgress
    requires Top(s.frames).query in s.derived && s.derived[Top(s.frames).query].InProgress?
    ensures Valid(rules, s.(tangled := true))
  {
    hide Sound, FramesHold, PassesOn, Visits, Later;
    var stack := Stack(s.frames);
    var j :| Owns(s.frames, j, Top(s.frames).query);
    assert j < |stack| - 1 && stack[j] == stack[|stack| - 1];
    assert PassesOn(rules) ==> TangledPath(rules, s.origin.store, s.origin.root, stack);
  }

  function Popped(s: State): State
    requires s.frames != []
  {
    s.(frames := s.frames[..|s.frames| - 1])
  }

  // Queries leave the inputs and every fresh result alone.
  ghost predicate Steady(s: State, t: State) {
    && t.revision == s.revision && t.inputs == s.inputs && t.history == s.history && t.origin == s.origin
    && (s.cancelSeen ==> t.cancelSeen) && (s.tangled ==> t.tangled)
    && (forall k :: Fresh(s.derived, s.revision, k) ==> k in t.derived && t.derived[k] == s.derived[k])
    && Later(Logical(s), Logical(t))
  }

  lemma SteadyTransitive(s: State, t: State, u: State)
    requires Steady(s, t) && Steady(t, u)
    ensures Steady(s, u)
  {
    hide Later;
    LaterTransitive(Logical(s), Logical(t), Logical(u));
  }

  // The same queries are in progress, with the same results set aside.
  ghost predicate SameProgress(s: State, t: State) {
    t.suspended == s.suspended && InProgressKeys(t.derived) == InProgressKeys(s.derived)
  }

  // As before, except that `query` is no longer in progress.
  ghost predicate ProgressWithout(s: State, t: State, query: QueryKey) {
    t.suspended == s.suspended - {query} && InProgressKeys(t.derived) == InProgressKeys(s.derived) - {query}
  }

  ghost predicate SameBelow(s: State, t: State) {
    && |t.frames| == |s.frames| > 0
    && t.frames[..|t.frames| - 1] == s.frames[..|s.frames| - 1]
  }

  ghost predicate Delivered(t: State, query: QueryKey, v: Value) {
    Fresh(t.derived, t.revision, query) && t.derived[query].entry.value == v
  }

  // Why a query may fail while the frames are as given: a cycle error reports a real cycle that
  // starts with the stack, and no unverifiable dependency is reported unless a frame verifies.
  ghost predicate Explained(rules: Rules, frames: seq<QueryFrame>, t: State, error: QueryError) {
    && (error.Cycle? ==> !AnyVerifying(frames) && t.tangled)
    && (error.Cycle? ==> ReportedCycle(rules, Values(t.inputs), error.stack) && Stack(frames) <= error.stack)
    && (error.Unverifiable? ==> AnyVerifying(frames) && t.tangled)
    && (error.Cancelled? ==> t.cancelSeen)
    && (error.MissingContent? ==> SaysMissing(rules, error.file))
  }

  ghost predicate HasValue(rules: Rules, inputs: Inputs, k: QueryKey) {
    exists v :: IsValue(rules, inputs, k, v)
  }

  // A missing content is reported only if a query that misses just that is visited.
  ghost predicate Definite(rules: Rules, s: State, query: QueryKey, error: QueryError) {
    PassesOn(rules) && error.MissingContent? ==> ThreatenedBy(rules, Logical(s), query, error.file)
  }

  // A success that met no query in progress has left all threats aside.
  ghost predicate Useful(rules: Rules, s: State, t: State) {
    PassesOn(rules) && !t.tangled ==> Productive(rules, Logical(s), Logical(t))
  }

  // A cancellation that was seen is reported.
  ghost predicate Stops(rules: Rules, s: State, t: State, reported: bool) {
    PassesOn(rules) && t.cancelSeen ==> s.cancelSeen || reported
  }

  lemma UsefulTransitive(rules: Rules, s: State, t: State, u: State)
    requires Steady(s, t) && Steady(t, u) && Useful(rules, s, t) && Useful(rules, t, u)
    ensures Useful(rules, s, u)
  {
    hide Later, Productive, PassesOn, LogicalStore;
    if PassesOn(rules) && !u.tangled {
      ProductiveTransitive(rules, Logical(s), Logical(t), Logical(u));
    }
  }

  lemma UsefulAtOnce(rules: Rules, s: State)
    requires Valid(rules, s)
    ensures Useful(rules, s, s)
  {
    hide Sound, Productive, PassesOn;
    ProductiveAtOnce(rules, Logical(s));
  }

  // ---------------------------------------------------------------- asking for a query

  ghost predicate CanAsk(rules: Rules, s: State, query: QueryKey) {
    && Valid(rules, s) && !query.IsInput()
    && (s.frames != [] && !Top(s.frames).verifying && Top(s.frames).unavailable.None? ==>
          Calls(rules, Values(s.inputs), Top(s.frames).query, query))
    && (PassesOn(rules) ==>
          if s.frames == [] then s.origin == Origin(Logical(s), query)
          else Visits(rules, Logical(s), Top(s.frames).query, query))
  }

  ghost predicate Asked(rules: Rules, s: State, query: QueryKey, r: QueryResult, t: State) {
    && Valid(rules, t) && Steady(s, t) && SameProgress(s, t)
    && t.frames == Answered(s.frames, query, r)
    && (r.Ok? ==> Delivered(t, query, r.value) && Useful(rules, s, t))
    && (r.Err? ==> Explained(rules, Pushed(s, query).frames, t, r.error) && Definite(rules, s, query, r.error))
    && Stops(rules, s, t, r == Err(Cancelled))
  }

  function Pushed(s: State, query: QueryKey): State {
    s.(frames := Recorded(s.frames, query) + [NewFrame(query)])
  }

  ghost predicate CoreReady(rules: Rules, s: State, query: QueryKey) {
    Valid(rules, s) && !query.IsInput() && s.frames != [] && Top(s.frames) == NewFrame(query)
  }

  ghost predicate CoreDone(rules: Rules, s: State, query: QueryKey, r: QueryResult, t: State) {
    && Steady(s, t) && SameBelow(s, t) && Top(t.frames).query == query
    && (r.Ok? ==> Valid(rules, Popped(t)) && Delivered(t, query, r.value) && SameProgress(s, t) && Useful(rules, s, t))
    && (r.Err? ==> Valid(rules, t) && Explained(rules, s.frames, t, r.error) && Definite(rules, s, query, r.error))
    && (r.Err? && Top(t.frames).inProgress ==> ProgressWithout(t, s, query))
    && (r.Err? && !Top(t.frames).inProgress ==> SameProgress(s, t))
    && Stops(rules, s, t, r == Err(Cancelled))
  }

  // Leaving a query: a failed one that was in progress is cleaned up.
  function Left(t: State, query: QueryKey, r: QueryResult): State
    requires t.frames != []
  {
    var cleaned :=
      if r.Err? && Top(t.frames).inProgress then Cleaned(t, query) else t;
    var popped := Popped(cleaned);
    if r.Err? then popped.(frames := Failed(popped.frames, r.error)) else popped
  }

  lemma PushOwners(s: State, query: QueryKey)
    requires OwnersHold(s.derived, s.suspended, s.frames)
    ensures OwnersHold(s.derived, s.suspended, Pushed(s, query).frames)
  {
    hide OwnersHold;
    SameOwners(s.derived, s.suspended, s.frames, Pushed(s, query).frames);
  }

  lemma Enter(rules: Rules, s: State, query: QueryKey)
    requires CanAsk(rules, s, query)
    ensures CoreReady(rules, Pushed(s, query), query)
  {
    hide FramesHold, Traced, Visits, Sound, OwnersHold, PassesOn, Calls, LogicalStore;
    PushFrame(rules, Values(s.inputs), s.frames, query, s.cancelSeen);
    PushOwners(s, query);
    PushTrace(rules, s, query);
  }

  function Cleaned(t: State, query: QueryKey): State {
    t.(derived := t.derived - {query}, suspended := t.suspended - {query})
  }

  lemma CleanUp(rules: Rules, t: State)
    requires Valid(rules, t) && t.frames != [] && Top(t.frames).inProgress
    ensures Valid(rules, Popped(Cleaned(t, Top(t.frames).query)))
    ensures Later(Logical(t), Logical(Cleaned(t, Top(t.frames).query)))
    ensures Top(t.frames).query in t.derived && t.derived[Top(t.frames).query].InProgress?
  {
    hide FramesHold, Later, FramesVisit, Entangled, PassesOn, Sound, ComputedEntries;
    var query := Top(t.frames).query;
    assert Owns(t.frames, |t.frames| - 1, query);
    CleanUpForgets(rules, Logical(t), t.derived, t.suspended, query);
    DisownTop(t.derived, t.suspended, t.frames, t.derived - {query});
    PopFrame(rules, Values(t.inputs), t.frames, t.cancelSeen);
    CleanUpLater(t, query);
    EntryTrace(rules, t, Cleaned(t, query), query);
    PopTrace(rules, Cleaned(t, query));
  }

  lemma CleanUpLater(t: State, query: QueryKey)
    requires SuspendedInProgress(t.derived, t.suspended) && SuspendedStale(t.suspended, t.revision)
    requires query in t.derived && t.derived[query].InProgress?
    ensures Later(Logical(t), Logical(Cleaned(t, query)))
    ensures CurrentClosed(Logical(t)) ==> CurrentClosed(Logical(Cleaned(t, query)))
  {
    var s, c := Logical(t), Logical(Cleaned(t, query));
    assert forall k :: k in c.entries ==> k in s.entries && c.entries[k] == s.entries[k];
  }

  lemma PopIdle(rules: Rules, t: State)
    requires Valid(rules, t) && t.frames != [] && !Top(t.frames).inProgress
    ensures Valid(rules, Popped(t))
  {
    hide FramesHold, Traced, Sound;
    PopFrame(rules, Values(t.inputs), t.frames, t.cancelSeen);
    SameOwners(t.derived, t.suspended, t.frames, Popped(t).frames);
    PopTrace(rules, t);
  }

  lemma FailTop(rules: Rules, t: State, error: QueryError)
    requires Valid(rules, t) && Explained(rules, t.frames, t, error)
    ensures Valid(rules, t.(frames := Failed(t.frames, error)))
  {
    hide FramesHold, Traced, Sound;
    RecordFailure(rules, Values(t.inputs), t.frames, error, t.cancelSeen);
    SameOwners(t.derived, t.suspended, t.frames, Failed(t.frames, error));
    StaleTraced(rules, t);
    SameTrace(rules, t, t.(frames := Failed(t.frames, error)));
  }

  lemma VerifyingBelow(frames: seq<QueryFrame>, query: QueryKey)
    requires AnyVerifying(Recorded(frames, query) + [NewFrame(query)])
    ensures AnyVerifying(Recorded(frames, query)) && AnyVerifying(frames)
  {
    var pushed := Recorded(frames, query) + [NewFrame(query)];
    var i :| 0 <= i < |pushed| && pushed[i].verifying;
    assert Recorded(frames, query)[i].verifying && frames[i].verifying;
  }

  lemma Leave(rules: Rules, s: State, query: QueryKey, r: QueryResult, t: State)
    requires CanAsk(rules, s, query) && CoreDone(rules, Pushed(s, query), query, r, t)
    ensures Asked(rules, s, query, r, Left(t, query, r))
  {
    hide Valid, Explained, Definite, Answered, Fresh, Later, InProgressKeys, Productive, PassesOn;
    if r.Ok? {
      assert t.frames[..|t.frames| - 1] == Recorded(s.frames, query);
      AnsweredOk(s.frames, query, r);
    } else if Top(t.frames).inProgress {
      LeaveCleaned(rules, s, query, r, t);
    } else {
      LeaveIdle(rules, s, query, r, t);
    }
  }

  lemma LeaveCleaned(rules: Rules, s: State, query: QueryKey, r: QueryResult, t: State)
    requires CoreDone(rules, Pushed(s, query), query, r, t) && r.Err? && Top(t.frames).inProgress
    ensures Asked(rules, s, query, r, Left(t, query, r))
  {
    hide Valid, Explained, Answered, Fresh, Later, InProgressKeys, ThreatenedBy, PassesOn, Productive;
    assert t.frames[..|t.frames| - 1] == Recorded(s.frames, query);
    AnsweredErr(s.frames, query, r);
    LeaveExplained(rules, s, query, r.error, t);
    CleanUp(rules, t);
    LeaveSteady(Pushed(s, query), t, query);
    FailTop(rules, Popped(Cleaned(t, query)), r.error);
  }

  lemma LeaveIdle(rules: Rules, s: State, query: QueryKey, r: QueryResult, t: State)
    requires CoreDone(rules, Pushed(s, query), query, r, t) && r.Err? && !Top(t.frames).inProgress
    ensures Asked(rules, s, query, r, Left(t, query, r))
  {
    hide Valid, Explained, Answered, Fresh, Later, InProgressKeys, ThreatenedBy, PassesOn, Productive;
    assert t.frames[..|t.frames| - 1] == Recorded(s.frames, query);
    AnsweredErr(s.frames, query, r);
    LeaveExplained(rules, s, query, r.error, t);
    PopIdle(rules, t);
    FailTop(rules, Popped(t), r.error);
  }

  lemma AnsweredOk(frames: seq<QueryFrame>, query: QueryKey, r: QueryResult)
    requires r.Ok?
    ensures Answered(frames, query, r) == Recorded(frames, query)
  {
  }

  lemma AnsweredErr(frames: seq<QueryFrame>, query: QueryKey, r: QueryResult)
    requires r.Err?
    ensures Answered(frames, query, r) == Failed(Recorded(frames, query), r.error)
  {
  }

  lemma LeaveExplained(rules: Rules, s: State, query: QueryKey, error: QueryError, t: State)
    requires Explained(rules, Pushed(s, query).frames, t, error)
    ensures forall u: State :: u.inputs == t.inputs && u.cancelSeen == t.cancelSeen && u.tangled == t.tangled ==>
              Explained(rules, Recorded(s.frames, query), u, error) && Explained(rules, Pushed(s, query).frames, u, error)
  {
    hide ReportedCycle;
    var pushed := Pushed(s, query).frames;
    var recorded := Recorded(s.frames, query);
    if error.Unverifiable? {
      VerifyingBelow(s.frames, query);
    }
    if AnyVerifying(recorded) {
      var i :| 0 <= i < |recorded| && recorded[i].verifying;
      assert pushed[i].verifying;
    }
    assert Stack(pushed)[..|recorded|] == Stack(recorded);
  }

  lemma LeaveSteady(s: State, t: State, query: QueryKey)
    requires Steady(s, t) && query in t.derived && t.derived[query].InProgress?
    requires Later(Logical(t), Logical(Cleaned(t, query)))
    ensures Steady(s, Cleaned(t, query))
    ensures InProgressKeys(Cleaned(t, query).derived) == InProgressKeys(t.derived) - {query}
  {
    hide Later;
    LaterTransitive(Logical(s), Logical(t), Logical(Cleaned(t, query)));
  }

  // ---------------------------------------------------------------- a started query

  // The frame on top has just marked its query as in progress.
  ghost predicate Started(rules: Rules, s: State, query: QueryKey) {
    && Valid(rules, s) && !query.IsInput()
    && s.frames != [] && Top(s.frames) == QueryFrame(query, true, false, {}, None)
  }

  ghost predicate Finished(rules: Rules, s: State, query: QueryKey, r: QueryResult, t: State) {
    && Steady(s, t) && SameBelow(s, t) && Top(t.frames).query == query && Top(t.frames).inProgress
    && (r.Ok? ==> Valid(rules, Popped(t)) && Delivered(t, query, r.value) && ProgressWithout(s, t, query) && Useful(rules, s, t))
    && (r.Err? ==> Valid(rules, t) && SameProgress(s, t))
    && (r.Err? ==> Explained(rules, s.frames, t, r.error) && Definite(rules, s, query, r.error))
    && Stops(rules, s, t, r == Err(Cancelled))
  }

  function Marked(s: State, query: QueryKey): State
    requires s.frames != []
  {
    var top := Top(s.frames).(inProgress := true);
    var suspended :=
      if query in s.derived && s.derived[query].Computed? then s.suspended[query := s.derived[query].entry]
      else s.suspended;
    s.(derived := s.derived[query := InProgress], suspended := suspended, frames := WithTop(s.frames, top))
  }

  lemma Start(rules: Rules, s: State, query: QueryKey)
    requires CoreReady(rules, s, query) && !(query in s.derived && s.derived[query].InProgress?)
    requires !Fresh(s.derived, s.revision, query)
    ensures Started(rules, Marked(s, query), query)
    ensures Idle(Marked(s, query).derived) < Idle(s.derived)
    ensures Logical(Marked(s, query)) == Logical(s)
  {
    hide FramesHold, Sound, Idle, Traced;
    var top := Top(s.frames).(inProgress := true);
    IdleShrinks(s.derived, query);
    MarkTop(rules, Values(s.inputs), s.frames, top, s.cancelSeen);
    OwnTop(s.derived, s.suspended, Marked(s, query).suspended, s.frames, top);
    if query in s.derived {
      SuspendKeepsEntries(s.derived, s.suspended, query);
    } else {
      StartKeepsEntries(s.derived, s.suspended, query);
    }
    StillStale(rules, s, query);
    SameTrace(rules, s, Marked(s, query));
  }

  lemma StillStale(rules: Rules, s: State, query: QueryKey)
    requires Traced(rules, s) && s.frames != [] && !Fresh(s.derived, s.revision, query)
    ensures SuspendedStale(Marked(s, query).suspended, s.revision)
  {
    hide PassesOn, Later, FramesVisit, Entangled;
  }

  lemma NotSuspended(rules: Rules, s: State, query: QueryKey)
    requires Valid(rules, s) && !(query in s.derived && s.derived[query].InProgress?)
    ensures query !in s.suspended
  {
  }

  lemma StartedIsDone(rules: Rules, s: State, query: QueryKey, r: QueryResult, t: State)
    requires CoreReady(rules, s, query) && !(query in s.derived && s.derived[query].InProgress?)
    requires !Fresh(s.derived, s.revision, query)
    requires Logical(Marked(s, query)) == Logical(s)
    requires Finished(rules, Marked(s, query), query, r, t)
    ensures CoreDone(rules, s, query, r, t)
  {
    hide Valid, Explained, LogicalStore, Later, Definite, Useful, Stops, InProgressKeys, Delivered;
    NotSuspended(rules, s, query);
    var m := Marked(s, query);
    KeyStarts(s.derived, query);
    MarkedSame(rules, s, m, query, r, t);
    assert m.suspended - {query} == s.suspended;
    assert m.frames[..|m.frames| - 1] == s.frames[..|s.frames| - 1];
    SameExplained(rules, s.frames, m.frames, t);
  }

  // Claims about the store do not depend on the frames.
  lemma MarkedSame(rules: Rules, s: State, m: State, query: QueryKey, r: QueryResult, t: State)
    requires Logical(m) == Logical(s) && m.cancelSeen == s.cancelSeen
    ensures r.Err? && Definite(rules, m, query, r.error) ==> Definite(rules, s, query, r.error)
    ensures Useful(rules, m, t) ==> Useful(rules, s, t)
    ensures forall b :: Stops(rules, m, t, b) ==> Stops(rules, s, t, b)
  {
    hide ThreatenedBy, Productive, PassesOn, LogicalStore;
  }

  lemma SameExplained(rules: Rules, frames: seq<QueryFrame>, frames': seq<QueryFrame>, t: State)
    requires |frames| == |frames'|
    requires forall i :: 0 <= i < |frames| ==> frames'[i].query == frames[i].query && frames'[i].verifying == frames[i].verifying
    ensures forall e :: Explained(rules, frames', t, e) ==> Explained(rules, frames, t, e)
  {
    hide ReportedCycle;
    assert Stack(frames') == Stack(frames);
  }

  // Storing a result for the query on top.
  function Stored(t: State, query: QueryKey, entry: Entry): State {
    t.(derived := t.derived[query := Computed(entry)], suspended := t.suspended - {query})
  }

  lemma StoreResult(rules: Rules, t: State, query: QueryKey, entry: Entry)
    requires Valid(rules, t) && t.frames != [] && Top(t.frames).inProgress && Top(t.frames).query == query
    requires Sound(rules, Logical(t).(entries := Logical(t).entries[query := entry]))
    requires entry.trace.built == t.revision && AllFresh(t, entry.dependencies)
    ensures var u := Stored(t, query, entry);
            Valid(rules, Popped(u)) && Delivered(u, query, entry.value) && ProgressWithout(t, u, query) && Steady(t, u)
  {
    hide Sound, FramesHold, Steady, ProgressWithout, ComputedEntries, OwnersHold, Traced, Later;
    var u := Stored(t, query, entry);
    StoreOwners(t, query, entry);
    StoreReplacesEntry(t.derived, t.suspended, query, entry);
    PopFrame(rules, Values(t.inputs), t.frames, t.cancelSeen);
    StaleTraced(rules, t);
    StoreSteady(t, query, entry);
    StoreClosed(rules, t, query, entry);
    EntryTrace(rules, t, u, query);
    PopTrace(rules, u);
  }

  lemma StoreClosed(rules: Rules, t: State, query: QueryKey, entry: Entry)
    requires Valid(rules, t) && SuspendedInProgress(t.derived, t.suspended) && Later(Logical(t), Logical(Stored(t, query, entry)))
    requires entry.trace.built == t.revision && AllFresh(t, entry.dependencies)
    ensures CurrentClosed(Logical(Stored(t, query, entry)))
  {
    hide Sound, FramesHold, OwnersHold, PassesOn, FramesVisit, Entangled, ComputedEntries, AllFresh, Fresh;
    var s, u := Logical(t), Logical(Stored(t, query, entry));
    StoreReplacesEntry(t.derived, t.suspended, query, entry);
    forall k, d | IsCurrent(u, k) && d in u.entries[k].dependencies
      ensures d.IsInput() || IsCurrent(u, d)
    {
      if k == query {
        FreshDependency(rules, t, entry.dependencies, d);
      }
    }
  }

  lemma FreshDependency(rules: Rules, t: State, dependencies: set<QueryKey>, d: QueryKey)
    requires Valid(rules, t) && AllFresh(t, dependencies) && d in dependencies
    ensures d.IsInput() || IsCurrent(Logical(t), d)
  {
    hide Valid;
    if !d.IsInput() {
      FreshCurrent(rules, t, d);
    }
  }

  lemma StoreOwners(t: State, query: QueryKey, entry: Entry)
    requires OwnersHold(t.derived, t.suspended, t.frames)
    requires t.frames != [] && Top(t.frames).inProgress && Top(t.frames).query == query
    ensures OwnersHold(Stored(t, query, entry).derived, t.suspended - {query}, Popped(t).frames)
    ensures SuspendedInProgress(t.derived, t.suspended) && query in t.derived && t.derived[query].InProgress?
  {
    assert Owns(t.frames, |t.frames| - 1, query);
    DisownTop(t.derived, t.suspended, t.frames, Stored(t, query, entry).derived);
  }

  lemma StoreSteady(t: State, query: QueryKey, entry: Entry)
    requires SuspendedInProgress(t.derived, t.suspended) && SuspendedStale(t.suspended, t.revision)
    requires query in t.derived && t.derived[query].InProgress? && entry.trace.built == t.revision
    ensures Steady(t, Stored(t, query, entry)) && ProgressWithout(t, Stored(t, query, entry), query)
    ensures Later(Logical(t), Logical(Stored(t, query, entry)))
  {
    StoreReplacesEntry(t.derived, t.suspended, query, entry);
    assert InProgressKeys(Stored(t, query, entry).derived) == InProgressKeys(t.derived) - {query};
  }

  lemma CancelLater(rules: Rules, s: State, cancelled: bool)
    requires Valid(rules, s) && (s.cancelSeen ==> cancelled)
    ensures Valid(rules, s.(cancelSeen := cancelled))
  {
    hide FramesHold, Sound, OwnersHold, Later, FramesVisit, PassesOn, Entangled;
    LaterCancel(rules, Values(s.inputs), s.frames, s.cancelSeen, cancelled);
  }

  // ---------------------------------------------------------------- verifying

  function Verifying(s: State, verifying: bool): State
    requires s.frames != []
  {
    s.(frames := WithTop(s.frames, Top(s.frames).(verifying := verifying)))
  }

  ghost predicate VerifiedIn(t: State, d: QueryKey, latest: nat) {
    if d.IsInput() then d in t.inputs ==> t.inputs[d].changed <= latest
    else Fresh(t.derived, t.revision, d) && t.derived[d].entry.trace.changed <= latest
  }

  // The dependencies outside `remaining` are verified: none changed after `latest`.
  ghost predicate VerifyProgress(rules: Rules, s: State, entry: Entry, remaining: set<QueryKey>, latest: nat, t: State) {
    && Valid(rules, t) && Steady(s, t) && SameProgress(s, t) && t.frames == s.frames
    && (forall d :: d in entry.dependencies - remaining ==> VerifiedIn(t, d, latest))
  }

  lemma BeginVerify(rules: Rules, s: State, query: QueryKey, entry: Entry)
    requires Started(rules, s, query)
    ensures VerifyProgress(rules, Verifying(s, true), entry, entry.dependencies, 0, Verifying(s, true))
  {
    hide FramesHold, Traced, Sound;
    MarkTop(rules, Values(s.inputs), s.frames, Top(s.frames).(verifying := true), s.cancelSeen);
    SameOwners(s.derived, s.suspended, s.frames, Verifying(s, true).frames);
    StaleTraced(rules, s);
    SameTrace(rules, s, Verifying(s, true));
  }

  lemma StaleTraced(rules: Rules, s: State)
    requires Traced(rules, s)
    ensures SuspendedStale(s.suspended, s.revision)
  {
    hide PassesOn, Later, FramesVisit, Entangled;
  }

  lemma EndVerify(rules: Rules, t: State)
    requires Valid(rules, t) && t.frames != [] && Top(t.frames).unavailable.None?
    ensures Valid(rules, Verifying(t, false))
  {
    hide FramesHold, Traced, Sound;
    MarkTop(rules, Values(t.inputs), t.frames, Top(t.frames).(verifying := false), t.cancelSeen);
    SameOwners(t.derived, t.suspended, t.frames, Verifying(t, false).frames);
    StaleTraced(rules, t);
    SameTrace(rules, t, Verifying(t, false));
  }

  function Max(a: nat, b: nat): nat {
    if a < b then b else a
  }

  // The stamp that verification takes into account for a dependency.
  function ChangedOf(t: State, d: QueryKey): nat {
    if d.IsInput() then (if d in t.inputs then t.inputs[d].changed else 0)
    else if d in t.derived && t.derived[d].Computed? then t.derived[d].entry.trace.changed
    else 0
  }

  lemma VerifyOne(rules: Rules, s: State, entry: Entry, remaining: set<QueryKey>, latest: nat, t: State, d: QueryKey)
    requires VerifyProgress(rules, s, entry, remaining, latest, t)
    requires d.IsInput() || Fresh(t.derived, t.revision, d)
    ensures VerifyProgress(rules, s, entry, remaining - {d}, Max(latest, ChangedOf(t, d)), t)
  {
    hide Valid;
    forall e | e in entry.dependencies - (remaining - {d})
      ensures VerifiedIn(t, e, Max(latest, ChangedOf(t, d)))
    {
      assert e != d ==> VerifiedIn(t, e, latest);
    }
  }

  // While its frame verifies, asking for a dependency leaves the frame as it is.
  lemma VerifyAsked(rules: Rules, s: State, entry: Entry, remaining: set<QueryKey>, latest: nat,
                    t: State, d: QueryKey, r: QueryResult, u: State)
    requires VerifyProgress(rules, s, entry, remaining, latest, t) && Asked(rules, t, d, r, u)
    requires t.frames != [] && Top(t.frames).verifying
    ensures VerifyProgress(rules, s, entry, remaining, latest, u)
    ensures u.frames == t.frames && (r.Ok? ==> Fresh(u.derived, u.revision, d))
    ensures r.Ok? && Useful(rules, s, t) ==> Useful(rules, s, u)
    ensures Stops(rules, s, t, false) ==> Stops(rules, s, u, r == Err(Cancelled))
  {
    hide Valid, Steady, Explained, Definite, Useful, PassesOn, InProgressKeys, VerifiedIn, Fresh;
    SteadyTransitive(s, t, u);
    forall e | VerifiedIn(t, e, latest)
      ensures VerifiedIn(u, e, latest)
    {
      StillVerified(t, u, e, latest);
    }
    if r.Ok? && Useful(rules, s, t) {
      UsefulTransitive(rules, s, t, u);
    }
  }

  lemma StillVerified(t: State, u: State, e: QueryKey, latest: nat)
    requires Steady(t, u) && VerifiedIn(t, e, latest)
    ensures VerifiedIn(u, e, latest)
  {
    hide Later;
  }

  // A result is stored whose query visits only what is current.
  lemma StoreUseful(rules: Rules, s: State, t: State, query: QueryKey, entry: Entry)
    requires Valid(rules, t) && Steady(s, t) && Useful(rules, s, t) && entry.trace.built == t.revision
    requires IsValue(rules, Values(s.inputs), query, entry.value)
    requires PassesOn(rules) && !t.tangled ==>
               forall d :: Visits(rules, Logical(s), query, d) ==> Fresh(t.derived, t.revision, d)
    ensures Useful(rules, s, Stored(t, query, entry))
  {
    hide Sound, FramesHold, Traced, PassesOn, Later, IsValue, Visits, Productive;
    if PassesOn(rules) && !t.tangled {
      StoreReplacesEntry(t.derived, t.suspended, query, entry);
      forall d | Visits(rules, Logical(s), query, d)
        ensures IsCurrent(Logical(t), d)
      {
        FreshCurrent(rules, t, d);
      }
      ProductiveStore(rules, Logical(s), Logical(t), query, entry);
    }
  }

  // A result none of whose dependencies changed after it was built is stored as it stands.
  lemma ReuseEntry(rules: Rules, t: State, query: QueryKey, entry: Entry)
    requires Valid(rules, t) && query in t.suspended && t.suspended[query] == entry
    requires forall d :: d in entry.dependencies ==> VerifiedIn(t, d, entry.trace.built)
    ensures Sound(rules, Logical(t).(entries := Logical(t).entries[query := Stamped(entry, t.revision)]))
  {
    forall d | d in entry.dependencies
      ensures VerifiedUpTo(Logical(t), d, entry.trace.built)
    {
      assert VerifiedIn(t, d, entry.trace.built);
    }
    Reverified(rules, Logical(t), query);
  }

  // ---------------------------------------------------------------- computing

  predicate IsUnavailability(error: QueryError) {
    error.Unverifiable? || error.Cancelled?
  }

  ghost predicate MetUnavailability(answers: seq<Answer>) {
    exists i :: 0 <= i < |answers| && answers[i].Unavailable?
  }

  ghost predicate AllScoped(query: QueryKey, dependencies: set<QueryKey>) {
    forall d :: d in dependencies ==> InScope(query, d)
  }

  ghost predicate AllFresh(t: State, dependencies: set<QueryKey>) {
    forall d :: d in dependencies ==> d.IsInput() || Fresh(t.derived, t.revision, d)
  }

  // The compute function of `query` has received `answers`.
  ghost predicate Computing(rules: Rules, s: State, query: QueryKey, answers: seq<Answer>, t: State) {
    && Valid(rules, t) && Steady(s, t) && SameProgress(s, t) && SameBelow(s, t)
    && var top := Top(t.frames);
    && top.query == query == Top(s.frames).query && top.inProgress && !top.verifying && !Top(s.frames).verifying
    && ReadsListed(rules, query, answers, top.dependencies) && OnlyReads(rules, query, answers, top.dependencies)
    && AllScoped(query, top.dependencies)
    && (top.unavailable.None? ==>
          Genuine(rules, Values(t.inputs), query, answers) && AllFresh(t, top.dependencies))
    && (top.unavailable.Some? ==> MetUnavailability(answers))
    && (top.unavailable.Some? ==> IsUnavailability(top.unavailable.value) && Explained(rules, s.frames, t, top.unavailable.value))
    && (forall i :: 0 <= i < |answers| && answers[i].Unavailable? ==> Explained(rules, s.frames, t, answers[i].error))
    && (PassesOn(rules) ==> OnlyLastUnavailable(answers))
    && (MetUnavailability(answers) || Useful(rules, s, t))
    && Stops(rules, s, t, Unavailable(Cancelled) in answers)
  }

  ghost predicate OnlyLastUnavailable(answers: seq<Answer>) {
    forall i :: 0 <= i < |answers| - 1 ==> !answers[i].Unavailable?
  }

  lemma ReadsWhileAvailable(rules: Rules, query: QueryKey, answers: seq<Answer>)
    requires PassesOn(rules) && !(rules(query, answers).Raise? && !rules(query, answers).error.MissingContent?)
    ensures !MetUnavailability(answers)
    ensures forall a :: OnlyLastUnavailable(answers + [a])
    ensures forall e :: Unavailable(e) !in answers
  {
  }

  lemma BeginCompute(rules: Rules, s: State, query: QueryKey)
    requires Started(rules, s, query)
    ensures Computing(rules, s, query, [], s)
  {
    hide Valid;
    UsefulAtOnce(rules, s);
  }

  lemma ComputeInput(rules: Rules, s: State, query: QueryKey, answers: seq<Answer>, t: State)
    requires ScopedRules(rules) && Computing(rules, s, query, answers, t)
    requires rules(query, answers).Read? && rules(query, answers).key.IsInput()
    ensures var d := rules(query, answers).key;
            Computing(rules, s, query, answers + [Lookup(Values(t.inputs), d)], t.(frames := Recorded(t.frames, d)))
  {
    hide Valid, Explained, Genuine, ReadsListed, OnlyReads, MetUnavailability, Later, Useful, PassesOn, OnlyLastUnavailable, InProgressKeys, Stops, LogicalStore;
    var d := rules(query, answers).key;
    var a := Lookup(Values(t.inputs), d);
    var u := t.(frames := Recorded(t.frames, d));
    RecordTop(rules, t, d);
    StillExplained(rules, s.frames, t, u);
    MetExtend(answers, a);
    OnlyReadsExtend(rules, query, answers, a, Top(t.frames).dependencies);
    ComputeInputTrace(rules, s, query, answers, a, t, u);
    if Top(t.frames).unavailable.None? {
      GenuineExtend(rules, Values(t.inputs), query, answers, a);
    }
    ReadsExtend(rules, query, answers, a, Top(t.frames).dependencies, Top(u.frames).dependencies);
  }

  lemma ComputeInputTrace(rules: Rules, s: State, query: QueryKey, answers: seq<Answer>, a: Answer, t: State, u: State)
    requires rules(query, answers).Read? && !a.Unavailable? && u == t.(frames := u.frames)
    requires PassesOn(rules) ==> OnlyLastUnavailable(answers)
    ensures PassesOn(rules) ==> OnlyLastUnavailable(answers + [a])
    ensures Useful(rules, s, t) ==> Useful(rules, s, u)
    ensures Stops(rules, s, t, Unavailable(Cancelled) in answers) ==> Stops(rules, s, u, Unavailable(Cancelled) in answers + [a])
    ensures forall e :: Unavailable(e) in answers + [a] ==> Unavailable(e) in answers
  {
    hide PassesOn, Productive, OnlyLastUnavailable;
    if PassesOn(rules) {
      ReadsWhileAvailable(rules, query, answers);
    }
  }

  lemma MetExtend(answers: seq<Answer>, a: Answer)
    ensures MetUnavailability(answers) || a.Unavailable? ==> MetUnavailability(answers + [a])
  {
    if i :| 0 <= i < |answers| && answers[i].Unavailable? {
      assert (answers + [a])[i].Unavailable?;
    } else if a.Unavailable? {
      assert (answers + [a])[|answers|].Unavailable?;
    }
  }

  lemma RecordTop(rules: Rules, t: State, d: QueryKey)
    requires Valid(rules, t) && t.frames != []
    ensures Valid(rules, t.(frames := Recorded(t.frames, d)))
  {
    hide FramesHold, Traced, Sound;
    RecordOnTop(rules, Values(t.inputs), t.frames, d, t.cancelSeen);
    SameOwners(t.derived, t.suspended, t.frames, Recorded(t.frames, d));
    StaleTraced(rules, t);
    SameTrace(rules, t, t.(frames := Recorded(t.frames, d)));
  }

  lemma RecordOnTop(rules: Rules, now: Inputs, frames: seq<QueryFrame>, d: QueryKey, cancelSeen: bool)
    requires FramesHold(rules, now, frames, cancelSeen)
    ensures FramesHold(rules, now, Recorded(frames, d), cancelSeen)
  {
    hide Calls;
    var recorded := Recorded(frames, d);
    forall i | 0 <= i < |frames| && frames[i].unavailable.Some?
      ensures Excused(recorded, i, cancelSeen)
    {
      if !cancelSeen {
        var j :| 0 <= j <= i && frames[j].verifying;
        assert recorded[j].verifying;
      }
    }
  }

  lemma ComputeCanAsk(rules: Rules, s: State, query: QueryKey, answers: seq<Answer>, t: State)
    requires Computing(rules, s, query, answers, t)
    requires rules(query, answers).Read? && !rules(query, answers).key.IsInput()
    ensures CanAsk(rules, t, rules(query, answers).key) && Idle(t.derived) == Idle(s.derived)
  {
    hide Valid, Genuine, PassesOn, LogicalStore;
    var d := rules(query, answers).key;
    assert Top(t.frames).unavailable.None? ==> Calls(rules, Values(t.inputs), query, d);
    if PassesOn(rules) {
      ReadsWhileAvailable(rules, query, answers);
      TopNotCurrent(rules, t);
      assert Visits(rules, Logical(t), query, d);
    }
  }

  lemma TopNotCurrent(rules: Rules, t: State)
    requires Valid(rules, t) && t.frames != [] && Top(t.frames).inProgress
    ensures !IsCurrent(Logical(t), Top(t.frames).query) && Logical(t).inputs == t.inputs
    ensures Top(t.frames).query in Logical(t).entries <==> Top(t.frames).query in t.suspended
    ensures Top(t.frames).query in t.suspended ==> Logical(t).entries[Top(t.frames).query] == t.suspended[Top(t.frames).query]
  {
    hide Sound, FramesHold;
    assert Owns(t.frames, |t.frames| - 1, Top(t.frames).query);
    StaleTraced(rules, t);
    hide Traced;
    NotCurrent(t.derived, t.suspended, Logical(t), Top(t.frames).query);
  }

  lemma ComputeAsked(rules: Rules, s: State, query: QueryKey, answers: seq<Answer>, t: State, r: QueryResult, u: State)
    requires ScopedRules(rules) && Computing(rules, s, query, answers, t)
    requires rules(query, answers).Read? && !rules(query, answers).key.IsInput()
    requires Asked(rules, t, rules(query, answers).key, r, u)
    requires r.Ok? || r.error.Unverifiable? || r.error.Cancelled?
    ensures Computing(rules, s, query, answers + [if r.Ok? then Present(r.value) else Unavailable(r.error)], u)
  {
    hide Valid, Explained, Genuine, ReadsListed, OnlyReads, IsValue, MetUnavailability, Later, Definite, Useful, PassesOn, OnlyLastUnavailable, InProgressKeys, AllFresh, Stops, LogicalStore, Stack, ScopedRules, AnyVerifying;
    var a := if r.Ok? then Present(r.value) else Unavailable(r.error);
    MetExtend(answers, a);
    LaterTransitive(Logical(s), Logical(t), Logical(u));
    StillExplained(rules, s.frames, t, u);
    ComputeAskedFrame(rules, s, query, answers, t, r, u);
    ComputeAskedTrace(rules, s, query, answers, t, r, u);
    ComputeAskedGenuine(rules, s, query, answers, t, r, u);
    if r.Err? {
      ExplainedAbove(rules, s, t, rules(query, answers).key, u, r.error);
    }
  }

  lemma ComputeAskedGenuine(rules: Rules, s: State, query: QueryKey, answers: seq<Answer>, t: State, r: QueryResult, u: State)
    requires ScopedRules(rules) && Computing(rules, s, query, answers, t)
    requires rules(query, answers).Read? && !rules(query, answers).key.IsInput()
    requires Asked(rules, t, rules(query, answers).key, r, u)
    requires r.Ok? || r.error.Unverifiable? || r.error.Cancelled?
    ensures u.frames != [] && AllScoped(query, Top(u.frames).dependencies)
    ensures Top(u.frames).unavailable.None? ==>
              && r.Ok? && Genuine(rules, Values(u.inputs), query, answers + [Present(r.value)])
              && AllFresh(u, Top(u.frames).dependencies)
  {
    hide Valid, Explained, Genuine, ReadsListed, OnlyReads, IsValue, MetUnavailability, Later, Definite, Useful, PassesOn, OnlyLastUnavailable, InProgressKeys, Stops, LogicalStore, Stack, AnyVerifying;
    if r.Ok? && Top(t.frames).unavailable.None? {
      FreshIsValue(rules, u, rules(query, answers).key);
      GenuineExtend(rules, Values(t.inputs), query, answers, Present(r.value));
    }
  }

  // The frame on top lists the read.
  lemma ComputeAskedFrame(rules: Rules, s: State, query: QueryKey, answers: seq<Answer>, t: State, r: QueryResult, u: State)
    requires Computing(rules, s, query, answers, t)
    requires rules(query, answers).Read? && !rules(query, answers).key.IsInput()
    requires Asked(rules, t, rules(query, answers).key, r, u)
    requires r.Ok? || r.error.Unverifiable? || r.error.Cancelled?
    ensures u.frames != [] && Top(u.frames).dependencies == Top(t.frames).dependencies + {rules(query, answers).key}
    ensures var a := if r.Ok? then Present(r.value) else Unavailable(r.error);
            && ReadsListed(rules, query, answers + [a], Top(u.frames).dependencies)
            && OnlyReads(rules, query, answers + [a], Top(u.frames).dependencies)
  {
    hide Valid, Explained, Genuine, ReadsListed, OnlyReads, MetUnavailability, Later, Definite, Useful, PassesOn, InProgressKeys;
    var a := if r.Ok? then Present(r.value) else Unavailable(r.error);
    ReadsExtend(rules, query, answers, a, Top(t.frames).dependencies, Top(u.frames).dependencies);
    OnlyReadsExtend(rules, query, answers, a, Top(t.frames).dependencies);
  }

  lemma ComputeAskedTrace(rules: Rules, s: State, query: QueryKey, answers: seq<Answer>, t: State, r: QueryResult, u: State)
    requires Computing(rules, s, query, answers, t)
    requires rules(query, answers).Read? && !rules(query, answers).key.IsInput()
    requires Asked(rules, t, rules(query, answers).key, r, u)
    requires r.Ok? || r.error.Unverifiable? || r.error.Cancelled?
    ensures var a := if r.Ok? then Present(r.value) else Unavailable(r.error);
            && (PassesOn(rules) ==> OnlyLastUnavailable(answers + [a]))
            && (MetUnavailability(answers + [a]) || Useful(rules, s, u))
            && Stops(rules, s, u, Unavailable(Cancelled) in answers + [a])
  {
    hide Valid, Explained, Genuine, ReadsListed, OnlyReads, Later, Definite, Useful, PassesOn, MetUnavailability, OnlyLastUnavailable, InProgressKeys;
    var a := if r.Ok? then Present(r.value) else Unavailable(r.error);
    MetExtend(answers, a);
    if PassesOn(rules) {
      ReadsWhileAvailable(rules, query, answers);
    }
    if r.Ok? && Useful(rules, s, t) {
      UsefulTransitive(rules, s, t, u);
    }
    assert r == Err(Cancelled) ==> (answers + [a])[|answers|] == Unavailable(Cancelled);
  }

  lemma StillExplained(rules: Rules, frames: seq<QueryFrame>, t: State, u: State)
    requires t.inputs == u.inputs && (t.cancelSeen ==> u.cancelSeen) && (t.tangled ==> u.tangled)
    ensures forall e :: Explained(rules, frames, t, e) ==> Explained(rules, frames, u, e)
  {
    hide ReportedCycle;
  }

  // The frame on top computes, so a frame that verifies was there before it started.
  lemma ExplainedAbove(rules: Rules, s: State, t: State, d: QueryKey, u: State, error: QueryError)
    requires Explained(rules, Pushed(t, d).frames, u, error) && SameBelow(s, t)
    requires Top(t.frames).query == Top(s.frames).query && !Top(t.frames).verifying && !Top(s.frames).verifying
    ensures Explained(rules, s.frames, u, error)
  {
    hide ReportedCycle;
    var n := |s.frames| - 1;
    var pushed := Pushed(t, d).frames;
    forall i | 0 <= i <= n
      ensures s.frames[i].query == pushed[i].query && s.frames[i].verifying == pushed[i].verifying
    {
      assert i < n ==> t.frames[..n][i] == s.frames[..n][i];
    }
    assert Stack(pushed)[..n + 1] == Stack(s.frames);
    if AnyVerifying(pushed) {
      VerifyingBelow(t.frames, d);
      var i :| 0 <= i < |t.frames| && t.frames[i].verifying;
      assert i <= n && pushed[i].verifying;
    }
  }

  lemma FreshIsValue(rules: Rules, t: State, d: QueryKey)
    requires Valid(rules, t) && Fresh(t.derived, t.revision, d)
    ensures IsValue(rules, Values(t.inputs), d, t.derived[d].entry.value)
  {
    CurrentIsValue(rules, Logical(t), d);
  }

  // What a finished run of the compute function leaves behind.
  ghost predicate Computed'(rules: Rules, s: State, query: QueryKey, r: QueryResult, t: State) {
    && Valid(rules, t) && Steady(s, t) && SameProgress(s, t) && SameBelow(s, t)
    && var top := Top(t.frames);
    && top.query == query && top.inProgress
    && (r.Ok? && top.unavailable.None? ==>
          && Certified(rules, Values(t.inputs), query, top.dependencies, r.value)
          && AllScoped(query, top.dependencies) && AllFresh(t, top.dependencies))
    && (r.Ok? ==> Useful(rules, s, t))
    && (top.unavailable.Some? ==> IsUnavailability(top.unavailable.value) && Explained(rules, s.frames, t, top.unavailable.value))
    && (r.Err? ==> Explained(rules, s.frames, t, r.error) && Definite(rules, s, query, r.error))
    && Stops(rules, s, t, r == Err(Cancelled))
  }

  lemma EndCompute(rules: Rules, s: State, query: QueryKey, answers: seq<Answer>, t: State, r: QueryResult)
    requires HonestRules(rules) && Computing(rules, s, query, answers, t)
    requires match rules(query, answers)
             case Return(v) => r == Ok(v)
             case Raise(e) => r == Err(e)
             case Read(_) => false
    ensures Computed'(rules, s, query, r, t)
  {
    hide Valid, ReportedCycle, Genuine, ThreatenedBy, Productive, PassesOn, Later, InProgressKeys;
    EndIsDefinite(rules, s, query, answers, t, r);
    if rules(query, answers).Return? && Top(t.frames).unavailable.None? {
      assert Certified(rules, Values(t.inputs), query, Top(t.frames).dependencies, rules(query, answers).value);
    }
    if rules(query, answers).Raise? && rules(query, answers).error.MissingContent? {
      assert SaysMissing(rules, r.error.file);
    }
    if rules(query, answers).Raise? && !rules(query, answers).error.MissingContent? {
      var e := rules(query, answers).error;
      assert Unavailable(e) in answers;
      var i :| 0 <= i < |answers| && answers[i] == Unavailable(e);
      assert Explained(rules, s.frames, t, answers[i].error);
    }
  }

  lemma EndIsDefinite(rules: Rules, s: State, query: QueryKey, answers: seq<Answer>, t: State, r: QueryResult)
    requires HonestRules(rules) && Computing(rules, s, query, answers, t)
    requires match rules(query, answers)
             case Return(v) => r == Ok(v)
             case Raise(e) => r == Err(e)
             case Read(_) => false
    ensures r.Ok? ==> Useful(rules, s, t)
    ensures r.Err? ==> Definite(rules, s, query, r.error)
    ensures Stops(rules, s, t, r == Err(Cancelled))
  {
    hide Valid, Explained, Genuine, ThreatenedBy, Productive, Later, PassesOn, MetUnavailability, OnlyLastUnavailable;
    if PassesOn(rules) && (r.Ok? || r.error.MissingContent?) {
      ReadsWhileAvailable(rules, query, answers);
      if r.Err? {
        assert RaisesMissing(rules, Values(s.inputs), query, r.error.file);
        RaisesIsThreat(rules, Logical(s), query, r.error.file);
      }
    } else if PassesOn(rules) && Unavailable(Cancelled) in answers {
      LastIsRaised(answers, r.error);
    }
  }

  lemma LastIsRaised(answers: seq<Answer>, error: Unavailability)
    requires OnlyLastUnavailable(answers) && Unavailable(Cancelled) in answers && Unavailable(error) in answers
    ensures error == Cancelled
  {
  }

  lemma AbortCompute(rules: Rules, s: State, query: QueryKey, answers: seq<Answer>, t: State, r: QueryResult, u: State)
    requires Computing(rules, s, query, answers, t)
    requires rules(query, answers).Read? && !rules(query, answers).key.IsInput()
    requires Asked(rules, t, rules(query, answers).key, r, u)
    requires r.Err? && (r.error.Cycle? || r.error.MissingContent?)
    ensures Computed'(rules, s, query, r, u)
  {
    hide Valid, Explained, Genuine, ReadsListed, OnlyReads, Later, ThreatenedBy, Productive, PassesOn, MetUnavailability, OnlyLastUnavailable, InProgressKeys;
    StillExplained(rules, s.frames, t, u);
    ExplainedAbove(rules, s, t, rules(query, answers).key, u, r.error);
    LaterTransitive(Logical(s), Logical(t), Logical(u));
    AbortIsDefinite(rules, s, query, answers, t, r, u);
  }

  lemma AbortIsDefinite(rules: Rules, s: State, query: QueryKey, answers: seq<Answer>, t: State, r: QueryResult, u: State)
    requires Computing(rules, s, query, answers, t)
    requires rules(query, answers).Read? && !rules(query, answers).key.IsInput()
    requires Asked(rules, t, rules(query, answers).key, r, u)
    requires r.Err? && (r.error.Cycle? || r.error.MissingContent?)
    ensures Definite(rules, s, query, r.error)
    ensures Stops(rules, s, u, r == Err(Cancelled))
  {
    hide Valid, Explained, Genuine, ReadsListed, OnlyReads, Later, ThreatenedBy, Productive, PassesOn, MetUnavailability, OnlyLastUnavailable, LogicalStore;
    var d := rules(query, answers).key;
    if PassesOn(rules) {
      ReadsWhileAvailable(rules, query, answers);
      if r.error.MissingContent? {
        assert Calls(rules, Values(t.inputs), query, d);
        TopNotCurrent(rules, t);
        assert Visits(rules, Logical(t), query, d);
        ThreatBelow(rules, Logical(t), query, d, r.error.file);
        LaterThreat(rules, Logical(s), Logical(t), query, r.error.file);
      }
    }
  }

  // The entry that a successful run stores.
  function NewEntry(revision: nat, top: QueryFrame, previous: Option<Entry>, computed: Value): Entry {
    var changed :=
      if previous.Some? && previous.value.value == computed then previous.value.trace.changed else revision;
    Entry(computed, Trace(revision, changed), top.dependencies)
  }

  ghost predicate IsPrevious(s: State, query: QueryKey, previous: Option<Entry>) {
    if previous.Some? then query in s.suspended && s.suspended[query] == previous.value else query !in s.suspended
  }

  lemma StoreComputed(rules: Rules, s: State, query: QueryKey, previous: Option<Entry>, r: QueryResult, t: State)
    requires Computed'(rules, s, query, r, t) && r.Ok? && Top(t.frames).unavailable.None?
    requires IsPrevious(s, query, previous) && !query.IsInput()
    ensures var entry := NewEntry(t.revision, Top(t.frames), previous, r.value);
            Sound(rules, Logical(t).(entries := Logical(t).entries[query := entry])) && AllFresh(t, entry.dependencies)
  {
    var entry := NewEntry(t.revision, Top(t.frames), previous, r.value);
    forall d | d in entry.dependencies
      ensures InScope(query, d) && (d.IsInput() || IsCurrent(Logical(t), d))
    {
      if !d.IsInput() {
        FreshCurrent(rules, t, d);
      }
    }
    StoreEntry(rules, Logical(t), query, entry);
  }

  lemma FreshCurrent(rules: Rules, t: State, d: QueryKey)
    requires Valid(rules, t) && Fresh(t.derived, t.revision, d)
    ensures IsCurrent(Logical(t), d)
  {
    hide Sound, FramesHold, Traced;
  }

  // What an old result lists is up to date, unless a query in progress was met.
  ghost predicate Prepared(rules: Rules, s: State, previous: Option<Entry>) {
    PassesOn(rules) && !s.tangled && previous.Some? ==>
      forall d :: d in previous.value.dependencies ==> d.IsInput() || Fresh(s.derived, s.revision, d)
  }

  lemma ComputeUseful(rules: Rules, s: State, query: QueryKey, previous: Option<Entry>, r: QueryResult, t: State)
    requires Started(rules, s, query) && IsPrevious(s, query, previous) && Prepared(rules, s, previous)
    requires Computed'(rules, s, query, r, t) && r.Ok? && Top(t.frames).unavailable.None?
    ensures Useful(rules, s, Stored(t, query, NewEntry(t.revision, Top(t.frames), previous, r.value)))
  {
    hide Valid, Later, Productive, PassesOn, Certified, Explained, LogicalStore, InProgressKeys;
    var entry := NewEntry(t.revision, Top(t.frames), previous, r.value);
    CertifiedIsValue(rules, Values(t.inputs), query, Top(t.frames).dependencies, r.value);
    TopNotCurrent(rules, s);
    if PassesOn(rules) && !t.tangled {
      forall d | Visits(rules, Logical(s), query, d)
        ensures Fresh(t.derived, t.revision, d)
      {
        if Calls(rules, Values(t.inputs), query, d) {
          CallsAreListed(rules, Values(t.inputs), query, Top(t.frames).dependencies, r.value, d);
        }
      }
    }
    StoreUseful(rules, s, t, query, entry);
  }

  // ---------------------------------------------------------------- gluing the methods

  lemma CoreKeepsFrame(rules: Rules, s: State, query: QueryKey, r: QueryResult, t: State)
    requires CoreDone(rules, s, query, r, t)
    ensures t.frames != []
  {
  }

  lemma CancelCore(rules: Rules, s: State, query: QueryKey)
    requires CoreReady(rules, s, query)
    ensures CoreDone(rules, s, query, Err(Cancelled), s.(cancelSeen := true))
  {
    CancelLater(rules, s, true);
    hide Valid, ReportedCycle;
  }

  lemma HitCore(rules: Rules, s: State, query: QueryKey)
    requires CoreReady(rules, s, query) && Fresh(s.derived, s.revision, query)
    ensures CoreDone(rules, s, query, Ok(s.derived[query].entry.value), s)
  {
    hide Valid, Productive;
    PopIdle(rules, s);
    UsefulAtOnce(rules, s);
  }

  // A query in progress was met.
  lemma MetInProgress(rules: Rules, s: State, query: QueryKey)
    requires CoreReady(rules, s, query) && query in s.derived && s.derived[query].InProgress? && !s.cancelSeen
    ensures AnyVerifying(s.frames) ==> CoreDone(rules, s, query, Err(Unverifiable), s.(tangled := true))
    ensures !AnyVerifying(s.frames) ==>
              && ReportedCycle(rules, Values(s.inputs), Stack(s.frames))
              && CoreDone(rules, s, query, Err(Cycle(Stack(s.frames))), s.(tangled := true))
  {
    hide FramesHold, Sound, OwnersHold, Traced, ReportedCycle;
    StackIsTangled(rules, s);
    if !AnyVerifying(s.frames) {
      StackIsCycle(rules, Values(s.inputs), s.derived, s.suspended, s.frames, s.cancelSeen);
    }
    hide Valid, PassesOn;
  }

  lemma SameIdle(s: State, t: State)
    requires SameProgress(s, t)
    ensures Idle(t.derived) == Idle(s.derived)
  {
  }

  // Once verification ended, the query is where it was when it started.
  ghost predicate Resumed(s: State, u: State) {
    Steady(s, u) && SameProgress(s, u) && u.frames == s.frames
  }

  lemma VerifyEnded(rules: Rules, s: State, query: QueryKey, entry: Entry, t: State)
    requires Started(rules, s, query)
    requires VerifyProgress(rules, Verifying(s, true), entry, entry.dependencies, 0, t)
    ensures t.frames == Verifying(s, true).frames
    ensures Resumed(s, Verifying(t, false)) && Started(rules, Verifying(t, false), query)
  {
    hide Sound, OwnersHold, FramesHold, Traced;
    EndVerify(rules, t);
  }

  lemma VerifyFailed(rules: Rules, s: State, query: QueryKey, t: State, error: QueryError)
    requires Started(rules, s, query) && t.frames == Verifying(s, true).frames
    requires Resumed(s, Verifying(t, false)) && Started(rules, Verifying(t, false), query)
    requires Explained(rules, t.frames, t, error) && !error.Unverifiable?
    requires Definite(rules, s, query, error) && Stops(rules, s, t, error == Cancelled)
    ensures Finished(rules, s, query, Err(error), Verifying(t, false))
  {
    hide Valid, ReportedCycle, ThreatenedBy, PassesOn, Later;
    assert t.frames[|t.frames| - 1].verifying;
  }

  // A dependency that fails while it is verified is visited.
  lemma VerifyFailureIsDefinite(rules: Rules, s: State, query: QueryKey, entry: Entry, d: QueryKey, error: QueryError)
    requires Started(rules, s, query) && IsPrevious(s, query, Some(entry))
    requires d in entry.dependencies && !d.IsInput()
    requires Definite(rules, Verifying(s, true), d, error)
    ensures Definite(rules, s, query, error)
  {
    hide Valid, PassesOn, ThreatenedBy, LogicalStore;
    if PassesOn(rules) && error.MissingContent? {
      TopNotCurrent(rules, s);
      assert Visits(rules, Logical(s), query, d);
      ThreatBelow(rules, Logical(s), query, d, error.file);
    }
  }

  // Everything that an old result lists has been verified.
  lemma VerifiedIsPrepared(rules: Rules, s: State, entry: Entry, latest: nat, t: State)
    requires VerifyProgress(rules, s, entry, {}, latest, t) && t.frames != []
    ensures Prepared(rules, Verifying(t, false), Some(entry))
  {
    hide Valid, Later, PassesOn;
    forall d | d in entry.dependencies
      ensures d.IsInput() || Fresh(t.derived, t.revision, d)
    {
      assert VerifiedIn(t, d, latest);
    }
  }

  lemma ReuseUseful(rules: Rules, s: State, query: QueryKey, entry: Entry, u: State)
    requires Started(rules, s, query) && IsPrevious(s, query, Some(entry)) && Resumed(s, u) && Valid(rules, u)
    requires Useful(rules, s, u) && Prepared(rules, u, Some(entry))
    requires Sound(rules, Logical(u).(entries := Logical(u).entries[query := Stamped(entry, u.revision)]))
    ensures Useful(rules, s, Stored(u, query, Stamped(entry, u.revision)))
  {
    hide Valid, Later, Productive, PassesOn, LogicalStore, InProgressKeys, Sound;
    var e := Stamped(entry, u.revision);
    StoredIsCertified(rules, u, query, e);
    hide Certified;
    CertifiedIsValue(rules, Values(u.inputs), query, e.dependencies, e.value);
    TopNotCurrent(rules, s);
    if PassesOn(rules) && !u.tangled {
      forall d | Visits(rules, Logical(s), query, d)
        ensures Fresh(u.derived, u.revision, d)
      {
        if Calls(rules, Values(u.inputs), query, d) {
          CallsAreListed(rules, Values(u.inputs), query, e.dependencies, e.value, d);
        }
      }
    }
    StoreUseful(rules, s, u, query, e);
  }

  lemma StoredIsCertified(rules: Rules, u: State, query: QueryKey, e: Entry)
    requires Sound(rules, Logical(u).(entries := Logical(u).entries[query := e])) && e.trace.built == u.revision
    ensures Certified(rules, Values(u.inputs), query, e.dependencies, e.value)
  {
    hide Certified, LinkHolds, InputKept;
    var s := Logical(u).(entries := Logical(u).entries[query := e]);
    assert EntryHolds(rules, s, query);
  }

  lemma ReuseFinished(rules: Rules, s: State, query: QueryKey, entry: Entry, u: State, v: State)
    requires Started(rules, s, query) && Resumed(s, u)
    requires v == Stored(u, query, entry) && Valid(rules, Popped(v)) && Delivered(v, query, entry.value)
    requires ProgressWithout(u, v, query) && Steady(u, v)
    requires Useful(rules, s, v) && Stops(rules, s, u, false)
    ensures Finished(rules, s, query, Ok(entry.value), v)
  {
    hide Valid, Later, InProgressKeys, FramesHold, Useful;
    LaterTransitive(Logical(s), Logical(u), Logical(v));
  }

  lemma FinishedLater(rules: Rules, s: State, u: State, query: QueryKey, r: QueryResult, v: State)
    requires Resumed(s, u) && Finished(rules, u, query, r, v) && Useful(rules, s, u) && Stops(rules, s, u, false)
    ensures Finished(rules, s, query, r, v)
  {
    hide Valid, Explained, Later, Definite, Useful, PassesOn;
    LaterTransitive(Logical(s), Logical(u), Logical(v));
    if r.Err? {
      DefiniteEarlier(rules, s, u, query, r.error);
    } else {
      UsefulTransitive(rules, s, u, v);
    }
  }

  lemma DefiniteEarlier(rules: Rules, s: State, t: State, d: QueryKey, error: QueryError)
    requires Steady(s, t) && Definite(rules, t, d, error)
    ensures Definite(rules, s, d, error)
  {
    hide Later, ThreatenedBy, PassesOn;
    if PassesOn(rules) && error.MissingContent? {
      LaterThreat(rules, Logical(s), Logical(t), d, error.file);
    }
  }

  lemma VerifyStarts(rules: Rules, s: State, entry: Entry)
    requires VerifyProgress(rules, s, entry, entry.dependencies, 0, s)
    ensures Useful(rules, s, s)
  {
    hide Valid, Useful, Later;
    UsefulAtOnce(rules, s);
  }

  // Verification ended without an error, or met a query in progress.
  lemma VerifyResumed(rules: Rules, s: State, entry: Entry, verified: Result<nat, QueryError>, t: State)
    requires s.frames != [] && t.frames == Verifying(s, true).frames && Resumed(s, Verifying(t, false))
    requires verified.Ok? ==> VerifyProgress(rules, Verifying(s, true), entry, {}, verified.value, t) && Useful(rules, Verifying(s, true), t)
    requires verified.Err? ==> verified.error.Unverifiable? && Explained(rules, t.frames, t, verified.error)
    ensures Useful(rules, s, Verifying(t, false)) && Prepared(rules, Verifying(t, false), Some(entry))
  {
    hide Valid, Later, PassesOn, ReportedCycle, Productive, VerifyProgress;
    if verified.Ok? {
      VerifiedIsPrepared(rules, Verifying(s, true), entry, verified.value, t);
    }
  }

  lemma VerifyCanAsk(rules: Rules, s: State, query: QueryKey, entry: Entry, remaining: set<QueryKey>, latest: nat, t: State, d: QueryKey)
    requires VerifyProgress(rules, s, entry, remaining, latest, t)
    requires s.frames != [] && Top(s.frames).verifying && Top(s.frames).inProgress && Top(s.frames).query == query
    requires IsPrevious(s, query, Some(entry)) && d in entry.dependencies && !d.IsInput()
    ensures CanAsk(rules, t, d) && Idle(t.derived) == Idle(s.derived)
  {
    hide Valid, PassesOn, LogicalStore;
    TopNotCurrent(rules, t);
    assert Visits(rules, Logical(t), query, d);
  }

  lemma AskedExplained(rules: Rules, t: State, d: QueryKey, r: QueryResult, u: State)
    requires Asked(rules, t, d, r, u) && r.Err? && t.frames != []
    ensures Explained(rules, t.frames, u, r.error)
  {
    hide Valid, ReportedCycle, Definite, Stops;
    var pushed := Pushed(t, d).frames;
    assert Stack(pushed)[..|t.frames|] == Stack(t.frames);
    assert forall i :: 0 <= i < |t.frames| ==> pushed[i].verifying == t.frames[i].verifying;
    if AnyVerifying(pushed) {
      VerifyingBelow(t.frames, d);
    }
  }

  lemma AskedDefinite(rules: Rules, s: State, entry: Entry, remaining: set<QueryKey>, latest: nat,
                      t: State, d: QueryKey, r: QueryResult, u: State)
    requires VerifyProgress(rules, s, entry, remaining, latest, t) && Asked(rules, t, d, r, u) && r.Err?
    ensures Definite(rules, s, d, r.error)
  {
    hide Valid, Definite, Explained, Later, Useful, Stops;
    DefiniteEarlier(rules, s, t, d, r.error);
  }

  lemma CancelStarted(rules: Rules, s: State, query: QueryKey)
    requires Started(rules, s, query)
    ensures Finished(rules, s, query, Err(Cancelled), s.(cancelSeen := true))
  {
    CancelLater(rules, s, true);
    hide Valid, ReportedCycle;
  }

  lemma ComputedFrame(rules: Rules, s: State, query: QueryKey, r: QueryResult, t: State)
    requires Computed'(rules, s, query, r, t)
    ensures t.frames != [] && Top(t.frames).query == query && Top(t.frames).inProgress && Valid(rules, t)
    ensures t.revision == s.revision
  {
    hide Valid, Certified, ReportedCycle;
  }

  lemma ComputeFailed(rules: Rules, s: State, query: QueryKey, r: QueryResult, error: QueryError, t: State)
    requires Computed'(rules, s, query, r, t) && t.frames != []
    requires if r.Err? then r.error == error else Top(t.frames).unavailable == Some(error)
    ensures Finished(rules, s, query, Err(error), t)
  {
    hide Valid, Certified, ReportedCycle, Later, Productive, ThreatenedBy, PassesOn;
  }

  lemma ComputeStored(rules: Rules, s: State, query: QueryKey, previous: Option<Entry>, r: QueryResult, t: State, u: State)
    requires Computed'(rules, s, query, r, t) && r.Ok?
    requires u == Stored(t, query, NewEntry(t.revision, Top(t.frames), previous, r.value)) && Valid(rules, Popped(u)) && Delivered(u, query, r.value)
    requires ProgressWithout(t, u, query) && Steady(t, u) && Useful(rules, s, u)
    ensures Finished(rules, s, query, r, u)
  {
    hide Valid, Certified, ReportedCycle, Later, InProgressKeys, AllScoped, AllFresh, Definite, Useful, PassesOn;
    LaterTransitive(Logical(s), Logical(t), Logical(u));
  }

  // ---------------------------------------------------------------- reusing results

  // If the query belongs to settled results, it takes no run of a compute function to answer it,
  // unless a query in progress was met or a cancellation seen.
  ghost predicate Spared(s: State, keys: set<QueryKey>, query: QueryKey, ok: bool, t: State, idle: bool) {
    query in keys && AllSettled(Logical(s), keys) && !t.tangled && !t.cancelSeen ==>
      ok && idle && KeepsAll(Logical(s), Logical(t), keys)
  }

  ghost predicate Reuses(s: State, keys: set<QueryKey>, query: QueryKey, r: QueryResult, t: State, idle: bool) {
    && Spared(s, keys, query, r.Ok?, t, idle)
    && (r.Ok? ==> Backdated(Logical(s), query, r.value, Logical(t)) && (!t.tangled ==> CutOff(Logical(s), query, Logical(t))))
  }

  // Only the store and what was met matter.
  lemma ReusesLikewise(s: State, s': State, keys: set<QueryKey>, query: QueryKey, r: QueryResult, t: State, t': State, idle: bool)
    requires Reuses(s, keys, query, r, t, idle) && Logical(s') == Logical(s) && t'.tangled == t.tangled && t'.cancelSeen == t.cancelSeen
    requires r.Ok? ==> Logical(t') == Logical(t)
    ensures Reuses(s', keys, query, r, t', idle)
  {
    hide AllSettled, KeepsAll, Backdated, CutOff, LogicalStore;
  }

  lemma LeftReuses(s: State, keys: set<QueryKey>, query: QueryKey, r: QueryResult, t: State, idle: bool)
    requires t.frames != [] && Reuses(Pushed(s, query), keys, query, r, t, idle)
    ensures Reuses(s, keys, query, r, Left(t, query, r), idle)
  {
    hide Reuses;
    ReusesLikewise(Pushed(s, query), s, keys, query, r, t, Left(t, query, r), idle);
  }

  lemma FreshEntry(rules: Rules, t: State, d: QueryKey)
    requires OwnersHold(t.derived, t.suspended, t.frames) || SuspendedInProgress(t.derived, t.suspended)
    requires Fresh(t.derived, t.revision, d)
    ensures d in Logical(t).entries && Logical(t).entries[d] == t.derived[d].entry
  {
  }

  lemma HitReuses(rules: Rules, s: State, keys: set<QueryKey>, query: QueryKey)
    requires Valid(rules, s) && Fresh(s.derived, s.revision, query)
    ensures Reuses(s, keys, query, Ok(s.derived[query].entry.value), s, true)
  {
    hide Sound, FramesHold, Traced, LogicalStore, OwnersHold;
    FreshEntry(rules, s, query);
    InputsOfLogical(s);
    assert Stamped(s.derived[query].entry, s.revision) == s.derived[query].entry;
    assert AllSettled(Logical(s), keys) ==> KeepsAll(Logical(s), Logical(s), keys) by {
      assert forall k :: k in keys && AllSettled(Logical(s), keys) ==> SettledAt(Logical(s), keys, k);
    }
  }

  // What the run of a compute function leaves as the change stamp.
  predicate StampedAs(entry: Entry, previous: Option<Entry>, revision: nat) {
    entry.trace == Trace(revision, if previous.Some? && previous.value.value == entry.value then previous.value.trace.changed else revision)
  }

  lemma PreviousEntry(rules: Rules, s: State, query: QueryKey, previous: Option<Entry>)
    requires Started(rules, s, query) && IsPrevious(s, query, previous)
    ensures query in Logical(s).entries <==> previous.Some?
    ensures previous.Some? ==> Logical(s).entries[query] == previous.value
  {
    hide Sound, FramesHold, Traced;
    assert Owns(s.frames, |s.frames| - 1, query);
  }

  lemma ComputedIsBackdated(rules: Rules, s: State, query: QueryKey, previous: Option<Entry>, r: QueryResult, t: State)
    requires Started(rules, s, query) && IsPrevious(s, query, previous) && Finished(rules, s, query, r, t) && r.Ok?
    requires StampedAs(t.derived[query].entry, previous, t.revision)
    ensures Backdated(Logical(s), query, r.value, Logical(t))
  {
    hide Sound, FramesHold, Traced, LogicalStore, OwnersHold, Useful, Explained, Definite, Later, InProgressKeys;
    PreviousEntry(rules, s, query, previous);
    StoredEntry(rules, t, query);
    InputsOfLogical(t);
  }

  lemma StoredEntry(rules: Rules, t: State, d: QueryKey)
    requires t.frames != [] && Valid(rules, Popped(t)) && Fresh(t.derived, t.revision, d)
    ensures d in Logical(t).entries && Logical(t).entries[d] == t.derived[d].entry
  {
    hide Sound, FramesHold, Traced, OwnersHold, LogicalStore;
    FreshEntry(rules, Popped(t), d);
  }

  // A query without a previous result.
  lemma FirstReuses(rules: Rules, s: State, keys: set<QueryKey>, query: QueryKey, r: QueryResult, t: State, idle: bool)
    requires Started(rules, s, query) && IsPrevious(s, query, None) && Finished(rules, s, query, r, t)
    requires r.Ok? ==> StampedAs(t.derived[query].entry, None, t.revision)
    ensures Reuses(s, keys, query, r, t, idle)
  {
    hide Valid, LogicalStore, Useful, Explained, Definite, Later, InProgressKeys, KeepsAll, Backdated;
    PreviousEntry(rules, s, query, None);
    assert AllSettled(Logical(s), keys) ==> query !in keys by {
      assert !SettledAt(Logical(s), keys, query);
    }
    if r.Ok? {
      ComputedIsBackdated(rules, s, query, None, r, t);
    }
  }

  // Verification of a settled result has found nothing changed so far.
  ghost predicate VerifySpared(s: State, keys: set<QueryKey>, query: QueryKey, entry: Entry, latest: nat, t: State, idle: bool) {
    query in keys && AllSettled(Logical(s), keys) && !t.tangled && !t.cancelSeen ==>
      latest <= entry.trace.built && idle && KeepsAll(Logical(s), Logical(t), keys)
  }

  lemma VerifySparedAtFirst(s: State, keys: set<QueryKey>, query: QueryKey, entry: Entry)
    ensures VerifySpared(s, keys, query, entry, 0, s, true)
  {
    hide LogicalStore;
    assert forall k :: k in keys && AllSettled(Logical(s), keys) ==> SettledAt(Logical(s), keys, k);
  }

  // The stamp of a settled dependency is not later than its dependent.
  lemma VerifySparedOne(rules: Rules, s: State, keys: set<QueryKey>, query: QueryKey, entry: Entry, latest: nat, t: State, idle: bool, d: QueryKey)
    requires VerifySpared(s, keys, query, entry, latest, t, idle) && t.inputs == s.inputs && Valid(rules, t)
    requires query in Logical(s).entries && Logical(s).entries[query] == entry && d in entry.dependencies
    requires d.IsInput() || Fresh(t.derived, t.revision, d)
    ensures VerifySpared(s, keys, query, entry, Max(latest, ChangedOf(t, d)), t, idle)
  {
    hide Sound, FramesHold, Traced, LogicalStore, OwnersHold;
    if query in keys && AllSettled(Logical(s), keys) && !t.tangled && !t.cancelSeen {
      assert SettledAt(Logical(s), keys, query) && Unmoved(Logical(s), keys, query, d);
      InputsOfLogical(s);
      if !d.IsInput() {
        FreshEntry(rules, t, d);
      }
    }
  }

  lemma InputsOfLogical(s: State)
    ensures Logical(s).inputs == s.inputs && Logical(s).revision == s.revision
  {
  }

  lemma VerifySparedAsked(rules: Rules, s: State, keys: set<QueryKey>, query: QueryKey, entry: Entry, latest: nat, t: State, idle: bool,
                          d: QueryKey, r: QueryResult, u: State, more: bool)
    requires VerifySpared(s, keys, query, entry, latest, t, idle) && Steady(s, t) && Steady(t, u) && Sound(rules, Logical(s))
    requires query in Logical(s).entries && Logical(s).entries[query] == entry && d in entry.dependencies && !d.IsInput()
    requires Reuses(t, keys, d, r, u, more)
    ensures VerifySpared(s, keys, query, entry, latest, u, idle && more)
    ensures query in keys && AllSettled(Logical(s), keys) && !u.tangled && !u.cancelSeen ==> r.Ok?
  {
    hide Sound, LogicalStore, Later, Backdated, CutOff, KeepsAll;
    if query in keys && AllSettled(Logical(s), keys) && !u.tangled && !u.cancelSeen {
      assert SettledAt(Logical(s), keys, query) && Unmoved(Logical(s), keys, query, d);
      InputsOfLogical(s);
      InputsOfLogical(t);
      KeepsSettled(rules, Logical(s), Logical(t), keys);
      KeepsTransitive(Logical(s), Logical(t), Logical(u), keys);
    }
  }

  // The latest change is the change of some dependency.
  ghost predicate LatestIsReal(entry: Entry, latest: nat, t: State) {
    latest == 0 || exists d :: d in entry.dependencies && (d.IsInput() || Fresh(t.derived, t.revision, d)) && ChangedOf(t, d) == latest
  }

  lemma LatestStays(entry: Entry, latest: nat, t: State, u: State)
    requires LatestIsReal(entry, latest, t) && Steady(t, u)
    ensures LatestIsReal(entry, latest, u)
  {
    hide Later, LogicalStore;
    if latest != 0 {
      var d :| d in entry.dependencies && (d.IsInput() || Fresh(t.derived, t.revision, d)) && ChangedOf(t, d) == latest;
      assert ChangedOf(u, d) == latest;
    }
  }

  lemma LatestNext(entry: Entry, latest: nat, t: State, d: QueryKey)
    requires LatestIsReal(entry, latest, t) && d in entry.dependencies && (d.IsInput() || Fresh(t.derived, t.revision, d))
    ensures LatestIsReal(entry, Max(latest, ChangedOf(t, d)), t)
  {
    hide ChangedOf;
  }

  lemma PreviousVerified(rules: Rules, s: State, query: QueryKey, entry: Entry)
    requires VerifyProgress(rules, s, entry, entry.dependencies, 0, s) && IsPrevious(s, query, Some(entry))
    ensures query in Logical(s).entries && Logical(s).entries[query] == entry && Sound(rules, Logical(s))
    ensures LatestIsReal(entry, 0, s)
  {
    hide Sound, FramesHold, Traced;
  }

  lemma VerifyReturned(rules: Rules, s: State, keys: set<QueryKey>, query: QueryKey, entry: Entry, verified: Result<nat, QueryError>, t: State, idle: bool)
    requires s.frames != [] && t.frames != [] && (verified.Err? ==> Explained(rules, t.frames, t, verified.error))
    requires VerifySpared(Verifying(s, true), keys, query, entry, if verified.Ok? then verified.value else 0, t, idle)
    requires verified.Ok? ==> LatestIsReal(entry, verified.value, t)
    ensures VerifySpared(s, keys, query, entry, if verified.Ok? then verified.value else 0, Verifying(t, false), idle)
    ensures verified.Ok? ==> LatestIsReal(entry, verified.value, Verifying(t, false))
    ensures verified == Err(Unverifiable) ==> t.tangled
  {
    hide VerifySpared, LatestIsReal, LogicalStore, ReportedCycle, SaysMissing;
    var latest := if verified.Ok? then verified.value else 0;
    VerifySparedLikewise(Verifying(s, true), s, keys, query, entry, latest, t, Verifying(t, false), idle);
    if verified.Ok? {
      LatestLikewise(entry, latest, t, Verifying(t, false));
    }
  }

  lemma VerifySparedLikewise(s: State, s': State, keys: set<QueryKey>, query: QueryKey, entry: Entry, latest: nat, t: State, t': State, idle: bool)
    requires VerifySpared(s, keys, query, entry, latest, t, idle)
    requires Logical(s') == Logical(s) && Logical(t') == Logical(t) && t'.tangled == t.tangled && t'.cancelSeen == t.cancelSeen
    ensures VerifySpared(s', keys, query, entry, latest, t', idle)
  {
    hide AllSettled, KeepsAll, LogicalStore;
  }

  lemma LatestLikewise(entry: Entry, latest: nat, t: State, t': State)
    requires LatestIsReal(entry, latest, t) && t'.derived == t.derived && t'.inputs == t.inputs && t'.revision == t.revision
    ensures LatestIsReal(entry, latest, t')
  {
    if latest != 0 {
      var d :| d in entry.dependencies && (d.IsInput() || Fresh(t.derived, t.revision, d)) && ChangedOf(t, d) == latest;
      assert ChangedOf(t', d) == latest;
    }
  }

  lemma VerifySparedNext(rules: Rules, s: State, keys: set<QueryKey>, query: QueryKey, entry: Entry, remaining: set<QueryKey>, latest: nat,
                         t: State, idle: bool, d: QueryKey, r: QueryResult, u: State, more: bool)
    requires VerifyProgress(rules, s, entry, remaining, latest, t) && Asked(rules, t, d, r, u) && d in remaining && remaining <= entry.dependencies
    requires query in Logical(s).entries && Logical(s).entries[query] == entry && Sound(rules, Logical(s)) && !d.IsInput()
    requires VerifySpared(s, keys, query, entry, latest, t, idle) && LatestIsReal(entry, latest, t) && Reuses(t, keys, d, r, u, more)
    ensures VerifySpared(s, keys, query, entry, latest, u, idle && more) && LatestIsReal(entry, latest, u)
    ensures VerifySpared(s, keys, query, entry, 0, u, idle && more)
    ensures r.Err? && query in keys && AllSettled(Logical(s), keys) ==> u.tangled || u.cancelSeen
  {
    hide Valid, Reuses, LatestIsReal, AllSettled, KeepsAll, LogicalStore, Steady, Useful, Definite, Explained, Sound, Stops;
    VerifySparedAsked(rules, s, keys, query, entry, latest, t, idle, d, r, u, more);
    LatestStays(entry, latest, t, u);
  }

  lemma VerifyOneSpared(rules: Rules, s: State, keys: set<QueryKey>, query: QueryKey, entry: Entry, remaining: set<QueryKey>, latest: nat,
                        t: State, idle: bool, d: QueryKey)
    requires VerifyProgress(rules, s, entry, remaining, latest, t) && d in remaining && remaining <= entry.dependencies
    requires query in Logical(s).entries && Logical(s).entries[query] == entry
    requires d.IsInput() || Fresh(t.derived, t.revision, d)
    requires VerifySpared(s, keys, query, entry, latest, t, idle) && LatestIsReal(entry, latest, t)
    ensures VerifySpared(s, keys, query, entry, Max(latest, ChangedOf(t, d)), t, idle)
    ensures LatestIsReal(entry, Max(latest, ChangedOf(t, d)), t)
  {
    hide Valid, VerifySpared, LatestIsReal, LogicalStore, ChangedOf, Later;
    VerifySparedOne(rules, s, keys, query, entry, latest, t, idle, d);
    LatestNext(entry, latest, t, d);
  }

  // A result that was verified is kept as it is.
  lemma VerifiedReuses(rules: Rules, s: State, keys: set<QueryKey>, query: QueryKey, entry: Entry, latest: nat, t: State, u: State, idle: bool)
    requires Started(rules, s, query) && IsPrevious(s, query, Some(entry)) && Logical(t).revision == s.revision
    requires VerifySpared(s, keys, query, entry, latest, t, idle)
    requires Valid(rules, t) && u == Stored(t, query, Stamped(entry, s.revision))
    ensures Reuses(s, keys, query, Ok(entry.value), u, idle)
  {
    hide Valid, ComputedEntries;
    PreviousEntry(rules, s, query, Some(entry));
    OwnedSuspended(rules, t);
    StoreReplacesEntry(t.derived, t.suspended, query, Stamped(entry, s.revision));
  }

  lemma OwnedSuspended(rules: Rules, t: State)
    requires Valid(rules, t)
    ensures SuspendedInProgress(t.derived, t.suspended)
  {
    hide Sound, FramesHold, Traced;
  }

  // A result is computed again only if a dependency has changed or a query in progress was met.
  lemma RecomputeReuses(rules: Rules, s: State, keys: set<QueryKey>, query: QueryKey, entry: Entry, latest: nat, t: State,
                        r: QueryResult, u: State, before: bool, after: bool)
    requires Started(rules, s, query) && IsPrevious(s, query, Some(entry)) && Finished(rules, s, query, r, u)
    requires Finished(rules, t, query, r, u) && VerifySpared(s, keys, query, entry, latest, t, before)
    requires t.tangled || (latest > entry.trace.built && LatestIsReal(entry, latest, t))
    requires r.Ok? ==> StampedAs(u.derived[query].entry, Some(entry), u.revision)
    ensures Reuses(s, keys, query, r, u, after)
  {
    hide Valid, LogicalStore, Useful, Explained, Definite, Later, InProgressKeys, KeepsAll, AllSettled, Backdated;
    if r.Ok? {
      ComputedIsBackdated(rules, s, query, Some(entry), r, u);
      PreviousEntry(rules, s, query, Some(entry));
      if !u.tangled {
        var d :| d in entry.dependencies && (d.IsInput() || Fresh(t.derived, t.revision, d)) && ChangedOf(t, d) == latest;
        InputsOfLogical(u);
        if !d.IsInput() {
          StoredEntry(rules, u, d);
        }
        assert ChangedIn(Logical(u), d) == latest;
      }
    }
  }

  // How verification of a previous result ends, back where it started.
  ghost predicate VerifyOutcome(rules: Rules, s: State, keys: set<QueryKey>, query: QueryKey, entry: Entry, verified: Result<nat, QueryError>, u: State, idle: bool) {
    && Started(rules, s, query) && IsPrevious(s, query, Some(entry)) && Started(rules, u, query) && Resumed(s, u)
    && VerifySpared(s, keys, query, entry, if verified.Ok? then verified.value else 0, u, idle)
    && (if verified.Err? && !verified.error.Unverifiable? then
          Finished(rules, s, query, Err(verified.error), u) && Reuses(s, keys, query, Err(verified.error), u, idle)
        else
          Useful(rules, s, u) && Prepared(rules, u, Some(entry)) && Stops(rules, s, u, false))
    && (verified.Ok? ==> LatestIsReal(entry, verified.value, u) && forall d :: d in entry.dependencies ==> VerifiedIn(u, d, verified.value))
    && (verified == Err(Unverifiable) ==> u.tangled)
  }

  lemma VerifyEnds(rules: Rules, s: State, keys: set<QueryKey>, query: QueryKey, entry: Entry, verified: Result<nat, QueryError>, t: State, idle: bool)
    requires Started(rules, s, query) && IsPrevious(s, query, Some(entry))
    requires verified.Ok? ==> VerifyProgress(rules, Verifying(s, true), entry, {}, verified.value, t) && Useful(rules, Verifying(s, true), t)
    requires VerifyProgress(rules, Verifying(s, true), entry, entry.dependencies, 0, t)
    requires t.frames == Verifying(s, true).frames
    requires verified.Err? ==> Explained(rules, t.frames, t, verified.error)
    requires verified.Err? ==> exists d :: d in entry.dependencies && !d.IsInput() && Definite(rules, Verifying(s, true), d, verified.error)
    requires Stops(rules, Verifying(s, true), t, verified == Err(Cancelled))
    requires verified.Ok? ==> LatestIsReal(entry, verified.value, t)
    requires VerifySpared(Verifying(s, true), keys, query, entry, if verified.Ok? then verified.value else 0, t, idle)
    requires verified.Err? && query in keys && AllSettled(Logical(Verifying(s, true)), keys) ==> t.tangled || t.cancelSeen
    ensures VerifyOutcome(rules, s, keys, query, entry, verified, Verifying(t, false), idle)
  {
    hide Valid, Finished, VerifyProgress, Definite, Explained, Useful, PassesOn, Prepared, Later, Reuses, AllSettled, LatestIsReal, VerifySpared;
    hide IsPrevious, Steady, SameProgress, VerifiedIn;
    VerifyEnded(rules, s, query, entry, t);
    VerifyReturned(rules, s, keys, query, entry, verified, t, idle);
    if verified.Err? && !verified.error.Unverifiable? {
      FailedReuses(s, keys, query, verified.error, Verifying(t, false), idle);
      var d :| d in entry.dependencies && !d.IsInput() && Definite(rules, Verifying(s, true), d, verified.error);
      VerifyFailureIsDefinite(rules, s, query, entry, d, verified.error);
      VerifyFailed(rules, s, query, t, verified.error);
    } else {
      VerifyResumed(rules, s, entry, verified, t);
      if verified.Ok? {
        AllVerified(rules, Verifying(s, true), entry, verified.value, t);
      }
    }
  }

  lemma AllVerified(rules: Rules, s: State, entry: Entry, latest: nat, t: State)
    requires VerifyProgress(rules, s, entry, {}, latest, t) && t.frames != []
    ensures forall d :: d in entry.dependencies ==> VerifiedIn(Verifying(t, false), d, latest)
  {
    hide Valid, Steady, SameProgress;
    assert forall d :: d in entry.dependencies ==> VerifiedIn(t, d, latest);
  }

  lemma VerifyGaveUp(rules: Rules, s: State, keys: set<QueryKey>, query: QueryKey, entry: Entry, verified: Result<nat, QueryError>, u: State, idle: bool)
    requires VerifyOutcome(rules, s, keys, query, entry, verified, u, idle) && verified.Err? && !verified.error.Unverifiable?
    ensures Finished(rules, s, query, Err(verified.error), u) && Reuses(s, keys, query, Err(verified.error), u, idle)
  {
    hide Finished, Reuses, Valid, VerifySpared;
  }

  lemma MayKeep(rules: Rules, s: State, keys: set<QueryKey>, query: QueryKey, entry: Entry, verified: Result<nat, QueryError>, u: State, idle: bool)
    requires VerifyOutcome(rules, s, keys, query, entry, verified, u, idle) && verified.Ok? && verified.value <= entry.trace.built
    ensures Valid(rules, u) && u.frames != [] && Top(u.frames).inProgress && Top(u.frames).query == query
    ensures Sound(rules, Logical(u).(entries := Logical(u).entries[query := Stamped(entry, u.revision)])) && AllFresh(u, entry.dependencies)
    ensures Useful(rules, s, Stored(u, query, Stamped(entry, u.revision)))
  {
    hide Valid, Sound, Useful, Prepared, VerifySpared, LatestIsReal, Steady, Stops, LogicalStore;
    ReuseEntry(rules, u, query, entry);
    ReuseUseful(rules, s, query, entry, u);
  }

  lemma HasKept(rules: Rules, s: State, keys: set<QueryKey>, query: QueryKey, entry: Entry, verified: Result<nat, QueryError>, u: State, v: State, idle: bool)
    requires VerifyOutcome(rules, s, keys, query, entry, verified, u, idle) && verified.Ok? && verified.value <= entry.trace.built
    requires v == Stored(u, query, Stamped(entry, u.revision)) && Valid(rules, Popped(v)) && Delivered(v, query, entry.value)
    requires ProgressWithout(u, v, query) && Steady(u, v) && Useful(rules, s, v)
    ensures Finished(rules, s, query, Ok(entry.value), v) && Reuses(s, keys, query, Ok(entry.value), v, idle)
  {
    hide Valid, Useful, Prepared, VerifySpared, LatestIsReal, Stops, Finished, Reuses, Later, InProgressKeys, LogicalStore, IsPrevious;
    InputsOfLogical(u);
    VerifiedReuses(rules, s, keys, query, entry, verified.value, u, v, idle);
    ReuseFinished(rules, s, query, Stamped(entry, u.revision), u, v);
  }

  lemma MayCompute(rules: Rules, s: State, keys: set<QueryKey>, query: QueryKey, entry: Entry, verified: Result<nat, QueryError>, u: State, idle: bool)
    requires VerifyOutcome(rules, s, keys, query, entry, verified, u, idle) && (verified.Ok? || verified.error.Unverifiable?)
    ensures Started(rules, u, query) && IsPrevious(u, query, Some(entry)) && Prepared(rules, u, Some(entry)) && Idle(u.derived) == Idle(s.derived)
  {
    hide Valid, Useful, Prepared, VerifySpared, LatestIsReal, Stops, Idle, Steady;
    SameIdle(s, u);
  }

  lemma HasComputed(rules: Rules, s: State, keys: set<QueryKey>, query: QueryKey, entry: Entry, verified: Result<nat, QueryError>, u: State,
                    r: QueryResult, v: State, before: bool, after: bool)
    requires VerifyOutcome(rules, s, keys, query, entry, verified, u, before) && (verified.Ok? || verified.error.Unverifiable?)
    requires verified.Ok? ==> verified.value > entry.trace.built
    requires Finished(rules, u, query, r, v) && (r.Ok? ==> query in v.derived && v.derived[query].Computed? && StampedAs(v.derived[query].entry, Some(entry), v.revision))
    ensures Finished(rules, s, query, r, v) && Reuses(s, keys, query, r, v, after)
  {
    hide Valid, Useful, Prepared, VerifySpared, LatestIsReal, Stops, Steady, Finished, Reuses, StampedAs, IsPrevious, LogicalStore;
    FinishedLater(rules, s, u, query, r, v);
    RecomputeReuses(rules, s, keys, query, entry, if verified.Ok? then verified.value else 0, u, r, v, before, after);
  }

  // A verification that fails does so because of a query in progress or a cancellation, if the
  // result is settled.
  lemma FailedReuses(s: State, keys: set<QueryKey>, query: QueryKey, error: QueryError, t: State, idle: bool)
    requires query in keys && AllSettled(Logical(s), keys) ==> t.tangled || t.cancelSeen
    ensures Reuses(s, keys, query, Err(error), t, idle)
  {
  }

  // ---------------------------------------------------------------- between queries

  // No query is running.
  ghost predicate AtRest(rules: Rules, s: State) {
    Valid(rules, s) && s.frames == []
  }

  // Before a query from the outside: nothing has been cancelled or met yet.
  function Anew(s: State, store: Store, query: QueryKey): State {
    s.(cancelSeen := false, tangled := false, origin := Origin(store, query))
  }

  lemma AskAnew(rules: Rules, s: State, query: QueryKey)
    requires AtRest(rules, s) && !query.IsInput()
    ensures CanAsk(rules, Anew(s, Logical(s), query), query)
  {
    hide Sound, OwnersHold, PassesOn, Later, FramesVisit, Entangled;
  }

  lemma NothingInProgress(rules: Rules, s: State)
    requires AtRest(rules, s)
    ensures s.suspended == map[] && forall k :: k in s.derived ==> s.derived[k].Computed?
  {
    hide Sound, FramesHold, Traced;
    assert forall i, k :: !Owns(s.frames, i, k);
    assert forall k :: k !in s.suspended;
  }

  lemma EntriesAtRest(rules: Rules, s: State)
    requires AtRest(rules, s)
    ensures Logical(s).entries == ComputedEntries(s.derived)
  {
    hide Valid;
    NothingInProgress(rules, s);
  }

  function Transacted(s: State, inputs: map<QueryKey, InputState>, derived: map<QueryKey, DerivedState>): State {
    s.(revision := s.revision + 1, inputs := inputs, derived := derived, history := s.history + [Values(inputs)])
  }

  // A transaction on an engine at rest: new inputs, and fewer results.
  lemma Transact(rules: Rules, s: State, inputs: map<QueryKey, InputState>, derived: map<QueryKey, DerivedState>)
    requires AtRest(rules, s)
    requires forall k :: k in derived ==> k in s.derived && derived[k] == s.derived[k]
    requires IsTransaction(Logical(s), inputs, ComputedEntries(derived))
    ensures AtRest(rules, Transacted(s, inputs, derived))
  {
    hide Sound, IsTransaction, FramesHold, ComputedEntries, Later, FramesVisit, PassesOn, Entangled, CurrentClosed;
    TransactSound(rules, s, inputs, derived);
    NothingInProgress(rules, s);
    EmptyStack(rules, Values(inputs), derived, s.cancelSeen);
    NothingCurrent(rules, s, inputs, derived);
  }

  lemma NothingCurrent(rules: Rules, s: State, inputs: map<QueryKey, InputState>, derived: map<QueryKey, DerivedState>)
    requires AtRest(rules, s)
    requires IsTransaction(Logical(s), inputs, ComputedEntries(derived))
    ensures CurrentClosed(Logical(Transacted(s, inputs, derived)))
  {
    hide FramesHold, OwnersHold, Traced, Certified;
    NothingInProgress(rules, s);
    var t := Logical(Transacted(s, inputs, derived));
    assert ComputedEntries(derived) + map[] == ComputedEntries(derived);
    forall k
      ensures !IsCurrent(t, k)
    {
      if k in t.entries {
        assert EntryHolds(rules, Logical(s), k);
      }
    }
  }

  lemma EmptyStack(rules: Rules, now: Inputs, derived: map<QueryKey, DerivedState>, cancelSeen: bool)
    requires forall k :: k in derived ==> derived[k].Computed? && !k.IsInput()
    ensures OwnersHold(derived, map[], []) && FramesHold(rules, now, [], cancelSeen)
  {
  }

  lemma TransactSound(rules: Rules, s: State, inputs: map<QueryKey, InputState>, derived: map<QueryKey, DerivedState>)
    requires AtRest(rules, s)
    requires IsTransaction(Logical(s), inputs, ComputedEntries(derived))
    ensures Sound(rules, Logical(Transacted(s, inputs, derived)))
  {
    hide Sound, IsTransaction, FramesHold, OwnersHold, Traced;
    NothingInProgress(rules, s);
    TransactionSound(rules, Logical(s), inputs, ComputedEntries(derived));
    assert ComputedEntries(derived) + map[] == ComputedEntries(derived);
  }

  predicate DiscardedWithFile(k: QueryKey, state: DerivedState, file: FileId, removedModules: set<QueryKey>) {
    && !k.ForeignModule?
    && (state.InProgress? || PurgedWithFile(k, state.entry.dependencies, file, removedModules))
  }

  predicate DiscardedWithForeign(k: QueryKey, state: DerivedState, foreign: ForeignFileId) {
    || k == ForeignModule(foreign)
    || (state.Computed? && PurgedWithForeign(k, state.entry.dependencies, foreign))
  }

  function WithoutFile(derived: map<QueryKey, DerivedState>, file: FileId, removedModules: set<QueryKey>): map<QueryKey, DerivedState> {
    map k | k in derived && !DiscardedWithFile(k, derived[k], file, removedModules) :: derived[k]
  }

  function WithoutForeign(derived: map<QueryKey, DerivedState>, foreign: ForeignFileId): map<QueryKey, DerivedState> {
    map k | k in derived && !DiscardedWithForeign(k, derived[k], foreign) :: derived[k]
  }

  // Something that the result was computed from, or the result itself, belongs to the file or to a
  // module that only the file registered.
  ghost predicate BuiltOn(k: QueryKey, entry: Entry, file: FileId, removedModules: set<QueryKey>) {
    exists q :: (q == k || q in entry.dependencies) && (ReferencesFile(q, file) || q in removedModules)
  }

  // A file takes with it exactly the results that are built on it.
  lemma RemovalIsExact(rules: Rules, s: State, file: FileId, k: QueryKey)
    requires AtRest(rules, s) && k in s.derived
    ensures s.derived[k].Computed?
    ensures k in WithoutFile(s.derived, file, RemovedModules(s.inputs, file)) <==>
              k.ForeignModule? || !BuiltOn(k, s.derived[k].entry, file, RemovedModules(s.inputs, file))
  {
    hide Sound, FramesHold, Traced;
    NothingInProgress(rules, s);
    EntriesAtRest(rules, s);
    var removed := RemovedModules(s.inputs, file);
    if BuiltOn(k, s.derived[k].entry, file, removed) {
      var q :| (q == k || q in s.derived[k].entry.dependencies) && (ReferencesFile(q, file) || q in removed);
      assert q == k ==> ReferencesFile(k, file);
    }
  }

  lemma Write(rules: Rules, s: State, key: QueryKey, value: Value)
    requires AtRest(rules, s) && key.IsInput()
    ensures AtRest(rules, Transacted(s, s.inputs[key := InputState(value, s.revision + 1)], s.derived))
  {
    var written := s.inputs[key := InputState(value, s.revision + 1)];
    EntriesAtRest(rules, s);
    assert IsTransaction(Logical(s), written, ComputedEntries(s.derived)) by {
      assert forall i :: i in s.inputs ==> i.IsInput();
    }
    hide AtRest, IsTransaction;
    Transact(rules, s, written, s.derived);
  }

  lemma DropFile(rules: Rules, s: State, file: FileId)
    requires AtRest(rules, s)
    ensures AtRest(rules, Transacted(s, InputsWithoutFile(s.inputs, file, s.revision + 1),
                                     WithoutFile(s.derived, file, RemovedModules(s.inputs, file))))
  {
    hide Sound, OwnersHold, FramesHold, IsTransaction, InputsWithoutFile, RemovedModules;
    var removed := RemovedModules(s.inputs, file);
    var kept := WithoutFile(s.derived, file, removed);
    NothingInProgress(rules, s);
    EntriesAtRest(rules, s);
    assert ComputedEntries(kept) == EntriesWithoutFile(ComputedEntries(s.derived), file, removed);
    RemoveFileIsTransaction(rules, Logical(s), file);
    Transact(rules, s, InputsWithoutFile(s.inputs, file, s.revision + 1), kept);
  }

  lemma DropForeign(rules: Rules, s: State, foreign: ForeignFileId)
    requires AtRest(rules, s)
    ensures AtRest(rules, Transacted(s, InputsWithoutForeign(s.inputs, foreign, s.revision + 1),
                                     WithoutForeign(s.derived, foreign)))
  {
    hide Sound, OwnersHold, FramesHold, IsTransaction, InputsWithoutForeign;
    var kept := WithoutForeign(s.derived, foreign);
    NothingInProgress(rules, s);
    EntriesAtRest(rules, s);
    assert ComputedEntries(kept) == EntriesWithoutForeign(ComputedEntries(s.derived), foreign);
    RemoveForeignIsTransaction(rules, Logical(s), foreign);
    Transact(rules, s, InputsWithoutForeign(s.inputs, foreign, s.revision + 1), kept);
  }

  // ---------------------------------------------------------------- operations on plain inputs

  // What a client does with the engine between queries, and queries themselves.
  datatype Operation =
    | SetInput(key: QueryKey, value: Value)
    | RemoveFile(file: FileId)
    | RemoveForeignFile(foreign: ForeignFileId)
    | Ask(query: QueryKey)
  {
    predicate WellFormed() {
      (SetInput? ==> key.IsInput()) && (Ask? ==> !query.IsInput())
    }
  }

  // The effect of an operation on the inputs alone, with no cache in sight.
  function Apply(inputs: Inputs, op: Operation): Inputs {
    match op
    case SetInput(k, v) => inputs[k := v]
    case RemoveFile(file) =>
      map k | k in inputs && k != Content(file) && k != Foreign(file) && !(k.Module? && inputs[k] == ModuleFiles({file})) ::
        if k.Module? && inputs[k].ModuleFiles? then ModuleFiles(inputs[k].files - {file}) else inputs[k]
    case RemoveForeignFile(foreign) =>
      map k | k in inputs && k != ForeignContent(foreign) ::
        if k.Foreign? then WithoutCandidate(inputs[k], foreign) else inputs[k]
    case Ask(_) => inputs
  }

  function ApplyAll(inputs: Inputs, ops: seq<Operation>): Inputs {
    if ops == [] then inputs else Apply(ApplyAll(inputs, ops[..|ops| - 1]), ops[|ops| - 1])
  }

  // What an answer says: a value is the one that evaluation from scratch gives, a cycle is real and
  // starts at the query, a missing content is named by a compute function, and an unverifiable
  // dependency is never reported.
  ghost predicate Truthful(rules: Rules, inputs: Inputs, query: QueryKey, r: QueryResult) {
    && (r.Ok? ==> IsValue(rules, inputs, query, r.value))
    && (r.Err? && r.error.Cycle? ==> ReportedCycle(rules, inputs, r.error.stack) && r.error.stack[0] == query)
    && (r.Err? && r.error.MissingContent? ==> SaysMissing(rules, r.error.file))
    && r != Err(Unverifiable)
  }

  // Which queries are answered, if compute functions pass errors on and nothing is cancelled. One
  // that is not threatened is answered exactly if it has a value; one that is not entangled
  // exactly if it is not threatened.
  ghost predicate Conclusive(rules: Rules, store: Store, query: QueryKey, r: QueryResult) {
    PassesOn(rules) && r != Err(Cancelled) ==>
      && (r.Err? && r.error.MissingContent? ==> ThreatenedBy(rules, store, query, r.error.file))
      && (!Threatened(rules, store, query) ==> (r.Ok? <==> HasValue(rules, Values(store.inputs), query)))
      && (!Entangled(rules, store, query) ==> (r.Ok? <==> !Threatened(rules, store, query)))
  }

  ghost predicate NothingMissing(rules: Rules, inputs: Inputs) {
    forall k, file: FileId :: !RaisesMissing(rules, inputs, k, file)
  }

  // Some query misses the content of this file.
  ghost predicate IsMissing(rules: Rules, inputs: Inputs, file: FileId) {
    exists k :: RaisesMissing(rules, inputs, k, file)
  }

  // Only a query is answered, truthfully, with its value whenever no content is missing, and with
  // a content that is missing otherwise, if with any.
  ghost predicate CorrectAnswer(rules: Rules, inputs: Inputs, op: Operation, answer: Option<QueryResult>) {
    && (answer.Some? <==> op.Ask?)
    && (op.Ask? ==> Truthful(rules, inputs, op.query, answer.value))
    && (op.Ask? && PassesOn(rules) && NothingMissing(rules, inputs) && answer.value != Err(Cancelled) ==>
          (answer.value.Ok? <==> HasValue(rules, inputs, op.query)))
    && (op.Ask? && PassesOn(rules) && answer.value.Err? && answer.value.error.MissingContent? ==>
          IsMissing(rules, inputs, answer.value.error.file))
  }

  lemma ThreatIsMissing(rules: Rules, store: Store, query: QueryKey, file: FileId)
    requires ThreatenedBy(rules, store, query, file)
    ensures IsMissing(rules, Values(store.inputs), file) && Threatened(rules, store, query)
  {
    hide RaisesMissing, VisitPath;
  }

  lemma NothingThreatened(rules: Rules, store: Store, query: QueryKey)
    requires NothingMissing(rules, Values(store.inputs))
    ensures !Threatened(rules, store, query)
  {
    hide RaisesMissing, Visits;
  }

  lemma AskedIsTruthful(rules: Rules, s: State, query: QueryKey, r: QueryResult, t: State)
    requires s.frames == [] && Asked(rules, s, query, r, t)
    ensures Truthful(rules, Values(t.inputs), query, r)
  {
    hide Valid, ReportedCycle, Definite, Useful, Stops, Steady, IsValue;
    if r.Ok? {
      FreshIsValue(rules, t, query);
    } else {
      var pushed := Pushed(s, query).frames;
      assert pushed == [NewFrame(query)] && Stack(pushed) == [query] && !AnyVerifying(pushed);
    }
  }

  lemma AskedIsConclusive(rules: Rules, s: State, query: QueryKey, r: QueryResult, t: State)
    requires s.frames == [] && s == Anew(s, Logical(s), query) && Asked(rules, s, query, r, t)
    ensures Conclusive(rules, Logical(s), query, r)
  {
    hide Valid, PassesOn, Threatened, ThreatenedBy, Entangled, IsValue, Later, Productive, ReportedCycle, Stack, InProgressKeys, SaysMissing, IsMissing;
    AskedIsTruthful(rules, s, query, r, t);
    if PassesOn(rules) && r != Err(Cancelled) {
      if r.Err? && r.error.MissingContent? {
        ThreatIsMissing(rules, Logical(s), query, r.error.file);
      }
      TangledIsEntangled(rules, s, query, t);
      if r.Ok? {
        assert HasValue(rules, Values(t.inputs), query);
        if !t.tangled {
          OutOfDanger(rules, s, query, t);
        }
      } else if r.error.Cycle? {
        ReportHasNoValue(rules, Values(t.inputs), r.error.stack);
      }
    }
  }

  // No more is computed than is needed: nothing for a settled query; a result equal to the previous
  // one is not stamped as a change; and a result that lists nothing changed is not replaced.
  ghost predicate Thrifty(rules: Rules, s: Store, query: QueryKey, r: QueryResult, t: Store, idle: bool, raised: bool) {
    && (PassesOn(rules) && !Entangled(rules, s, query) && !raised && Settled(s, query) ==>
          idle && query in s.entries && r == Ok(s.entries[query].value))
    && (r.Ok? ==> Backdated(s, query, r.value, t))
    && (r.Ok? && PassesOn(rules) && !Entangled(rules, s, query) ==> CutOff(s, query, t))
  }

  lemma AskedIsThrifty(rules: Rules, s: State, keys: set<QueryKey>, query: QueryKey, r: QueryResult, t: State, idle: bool, raised: bool)
    requires s.frames == [] && s == Anew(s, Logical(s), query) && Asked(rules, s, query, r, t) && Reuses(s, keys, query, r, t, idle)
    requires (t.cancelSeen ==> raised) && (Settled(Logical(s), query) ==> query in keys && AllSettled(Logical(s), keys))
    ensures Thrifty(rules, Logical(s), query, r, Logical(t), idle, raised)
    ensures r.Ok? ==> Settled(Logical(t), query)
  {
    hide Valid, PassesOn, Entangled, Later, Explained, Definite, Useful, AllSettled, CutOff, LogicalStore, InProgressKeys, Settled;
    if PassesOn(rules) {
      TangledIsEntangled(rules, s, query, t);
      if !t.tangled && !raised && Settled(Logical(s), query) {
        assert Restamped(Logical(s).entries[query], Logical(t).entries[query], Logical(s).revision);
      }
    }
    if r.Ok? {
      CurrentOfValid(rules, t);
      CurrentIsSettled(rules, Logical(t), query);
    }
  }

  lemma CurrentOfValid(rules: Rules, t: State)
    requires Valid(rules, t)
    ensures Sound(rules, Logical(t)) && CurrentClosed(Logical(t))
  {
    hide Sound, CurrentClosed, PassesOn, Later, FramesVisit, Entangled, OwnersHold, FramesHold;
  }

  lemma TangledIsEntangled(rules: Rules, s: State, query: QueryKey, t: State)
    requires PassesOn(rules) && Valid(rules, t) && t.origin == s.origin == Origin(Logical(s), query)
    ensures t.tangled ==> Entangled(rules, Logical(s), query)
  {
    hide Sound, OwnersHold, FramesHold, PassesOn, Later, FramesVisit, Entangled;
  }

  lemma OutOfDanger(rules: Rules, s: State, query: QueryKey, t: State)
    requires Valid(rules, t) && Fresh(t.derived, t.revision, query) && Productive(rules, Logical(s), Logical(t))
    ensures !Threatened(rules, Logical(s), query)
  {
    hide Valid, Threatened;
    FreshCurrent(rules, t, query);
  }

  lemma RemoveFileValues(inputs: map<QueryKey, InputState>, file: FileId, changed: nat)
    ensures Values(InputsWithoutFile(inputs, file, changed)) == Apply(Values(inputs), RemoveFile(file))
  {
    forall k | k in inputs && k.Module?
      ensures RegistersOnly(inputs[k], file) <==> inputs[k].value == ModuleFiles({file})
      ensures inputs[k].value.ModuleFiles? && !Registers(k, inputs[k], file) ==>
                inputs[k].value.files - {file} == inputs[k].value.files
    {
      if RegistersOnly(inputs[k], file) {
        assert inputs[k].value.files == {file};
      }
    }
  }

  lemma RemoveForeignValues(inputs: map<QueryKey, InputState>, foreign: ForeignFileId, changed: nat)
    ensures Values(InputsWithoutForeign(inputs, foreign, changed)) == Apply(Values(inputs), RemoveForeignFile(foreign))
  {
  }

  class Engine {
    const rules: Rules
    ghost const readLimit: nat
    const signal: Signal
    var revision: nat
    var inputs: map<QueryKey, InputState>
    var derived: map<QueryKey, DerivedState>
    var frames: seq<QueryFrame>
    var cancelSeen: bool
    var looks: nat
    ghost var since: nat
    ghost var runs: nat
    ghost var history: seq<Inputs>
    ghost var suspended: map<QueryKey, Entry>
    ghost var origin: Origin
    ghost var tangled: bool

    ghost function Model(): State
      reads this
    {
      State(revision, inputs, derived, frames, cancelSeen, history, suspended, origin, tangled)
    }

    constructor (rules: Rules, ghost readLimit: nat, signal: Signal)
      requires RulesHold(rules, readLimit)
      ensures this.rules == rules && this.readLimit == readLimit && this.signal == signal
      ensures AtRest(rules, Model()) && inputs == map[] && derived == map[]
    {
      this.rules, this.readLimit, this.signal := rules, readLimit, signal;
      revision, inputs, derived, frames := 0, map[], map[], [];
      cancelSeen, looks, since, runs, history, suspended := false, 0, 0, 0, [map[]], map[];
      origin, tangled := Origin(Store(0, map[], map[], [map[]]), CheckedCore), false;
    }

    // Another thread may raise the cancellation flag at any time. It lowers the flag only while it
    // holds the lock that this snapshot holds a share of, so that the flag stays raised once it
    // was seen.
    method LoadCancelled() returns (cancelled: bool)
      requires FlagHolds(signal, cancelSeen, since, looks)
      modifies this`cancelSeen, this`looks
      ensures Model() == old(Model()).(cancelSeen := cancelled) && looks == old(looks) + 1
      ensures cancelled == (old(cancelSeen) || signal(old(looks)))
      ensures FlagHolds(signal, cancelSeen, since, looks)
    {
      cancelled := cancelSeen || signal(looks);
      assert cancelled ==> RaisedIn(signal, since, looks + 1);
      cancelSeen, looks := cancelled, looks + 1;
    }

    // Asks for a derived query, from the outside or from within the compute function of the
    // query whose frame is on top.
    // `keys` are results that may be settled.
    method Query(query: QueryKey, ghost keys: set<QueryKey>) returns (r: QueryResult)
      requires RulesHold(rules, readLimit) && CanAsk(rules, Model(), query)
      requires FlagHolds(signal, cancelSeen, since, looks)
      modifies this
      ensures FlagHolds(signal, cancelSeen, since, looks) && since == old(since)
      ensures Asked(rules, old(Model()), query, r, Model())
      ensures runs >= old(runs) && Reuses(old(Model()), keys, query, r, Model(), runs == old(runs))
      decreases Idle(derived), 3
    {
      hide FlagHolds, CanAsk, CoreReady, CoreDone, Asked, RulesHold, Recorded, Left, Idle, Reuses;
      Enter(rules, Model(), query);
      frames := Recorded(frames, query) + [NewFrame(query)];
      assert Model() == Pushed(old(Model()), query);
      r := QueryCore(query, keys);
      Leave(rules, old(Model()), query, r, Model());
      ghost var t := Model();
      CoreKeepsFrame(rules, Pushed(old(Model()), query), query, r, t);
      LeftReuses(old(Model()), keys, query, r, t, runs == old(runs));
      PopFrame(query, r);
    }

    // Leaves a query, and forgets it if it was in progress and has failed.
    method PopFrame(query: QueryKey, r: QueryResult)
      requires frames != []
      modifies this`derived, this`suspended, this`frames
      ensures Model() == Left(old(Model()), query, r)
    {
      hide Failed;
      if r.Err? && Top(frames).inProgress {
        derived := derived - {query};
        suspended := suspended - {query};
      }
      frames := frames[..|frames| - 1];
      if r.Err? {
        frames := Failed(frames, r.error);
      }
    }

    method QueryCore(query: QueryKey, ghost keys: set<QueryKey>) returns (r: QueryResult)
      requires RulesHold(rules, readLimit) && CoreReady(rules, Model(), query)
      requires FlagHolds(signal, cancelSeen, since, looks)
      modifies this
      ensures FlagHolds(signal, cancelSeen, since, looks) && since == old(since)
      ensures CoreDone(rules, old(Model()), query, r, Model())
      ensures runs >= old(runs) && Reuses(old(Model()), keys, query, r, Model(), runs == old(runs))
      decreases Idle(derived), 2
    {
      hide FlagHolds, RulesHold, Valid, CoreDone, Started, Finished, Idle, Reuses, AllSettled, StampedAs, LogicalStore, Stack, AnyVerifying, ReportedCycle;
      var cancelled := LoadCancelled();
      if cancelled {
        CancelCore(rules, old(Model()), query);
        FailedReuses(old(Model()), keys, query, Cancelled, Model(), true);
        return Err(Cancelled);
      }
      assert Model() == old(Model());
      if Fresh(derived, revision, query) {
        HitCore(rules, Model(), query);
        HitReuses(rules, Model(), keys, query);
        return Ok(derived[query].entry.value);
      }
      if query in derived && derived[query].InProgress? {
        r := CreateFuture(query);
        FailedReuses(old(Model()), keys, query, r.error, Model(), true);
        return;
      }
      ghost var s := Model();
      NotSuspended(rules, s, query);
      Start(rules, s, query);
      var entry := if query in derived then Some(derived[query].entry) else None;
      derived := derived[query := InProgress];
      suspended := if entry.Some? then suspended[query := entry.value] else suspended;
      frames := WithTop(frames, Top(frames).(inProgress := true));
      assert Model() == Marked(s, query);
      if entry.Some? {
        r := VerifyOrCompute(query, entry.value, keys);
      } else {
        r := ComputeCore(query, None);
        FirstReuses(rules, Marked(s, query), keys, query, r, Model(), runs == old(runs));
      }
      ReusesLikewise(Marked(s, query), s, keys, query, r, Model(), Model(), runs == old(runs));
      StartedIsDone(rules, s, query, r, Model());
    }

    // A query that is in progress on the same snapshot: its wait-for edge would close a cycle.
    method CreateFuture(query: QueryKey) returns (r: QueryResult)
      requires CoreReady(rules, Model(), query) && query in derived && derived[query].InProgress? && !cancelSeen
      modifies this`tangled
      ensures Model() == old(Model()).(tangled := true)
      ensures r == if AnyVerifying(frames) then Err(Unverifiable) else Err(Cycle(Stack(frames)))
      ensures r.error.Cycle? ==> ReportedCycle(rules, Values(inputs), Stack(frames))
      ensures CoreDone(rules, old(Model()), query, r, Model())
    {
      hide CoreDone, ReportedCycle, AnyVerifying;
      MetInProgress(rules, Model(), query);
      tangled := true;
      if AnyVerifying(frames) {
        return Err(Unverifiable);
      }
      return Err(Cycle(Stack(frames)));
    }

    // Replaces the in-progress query on top of the stack by its result.
    method FulfillAndStore(query: QueryKey, entry: Entry)
      requires Valid(rules, Model()) && frames != [] && Top(frames).inProgress && Top(frames).query == query
      requires Sound(rules, Logical(Model()).(entries := Logical(Model()).entries[query := entry]))
      requires entry.trace.built == revision && AllFresh(Model(), entry.dependencies)
      modifies this`derived, this`suspended
      ensures Model() == Stored(old(Model()), query, entry)
      ensures Valid(rules, Popped(Model())) && Delivered(Model(), query, entry.value)
      ensures ProgressWithout(old(Model()), Model(), query) && Steady(old(Model()), Model())
    {
      hide Valid, Sound;
      StoreResult(rules, Model(), query, entry);
      derived := derived[query := Computed(entry)];
      suspended := suspended - {query};
    }

    // Verifies the dependencies of a result from an earlier revision, and reuses it if none
    // has changed since.
    method VerifyOrCompute(query: QueryKey, entry: Entry, ghost keys: set<QueryKey>) returns (r: QueryResult)
      requires RulesHold(rules, readLimit) && Started(rules, Model(), query)
      requires IsPrevious(Model(), query, Some(entry)) && entry.trace.built != revision
      requires FlagHolds(signal, cancelSeen, since, looks)
      modifies this
      ensures FlagHolds(signal, cancelSeen, since, looks) && since == old(since)
      ensures Finished(rules, old(Model()), query, r, Model())
      ensures runs >= old(runs) && Reuses(old(Model()), keys, query, r, Model(), runs == old(runs))
      decreases Idle(derived), 7
    {
      hide FlagHolds, RulesHold, Valid, Finished, Idle, Sound, Useful, Prepared, Reuses, StampedAs, VerifyOutcome, LogicalStore, Steady, AllFresh;
      hide IsPrevious, Started;
      ghost var s := Model();
      var verified := VerifyEntry(query, entry, keys);
      ghost var u, idle := Model(), runs == old(runs);
      if verified.Err? && !verified.error.Unverifiable? {
        VerifyGaveUp(rules, s, keys, query, entry, verified, u, idle);
        return Err(verified.error);
      }
      if verified.Ok? && entry.trace.built >= verified.value {
        MayKeep(rules, s, keys, query, entry, verified, u, idle);
        FulfillAndStore(query, Stamped(entry, revision));
        HasKept(rules, s, keys, query, entry, verified, u, Model(), idle);
        return Ok(entry.value);
      }
      MayCompute(rules, s, keys, query, entry, verified, u, idle);
      r := ComputeCore(query, Some(entry));
      HasComputed(rules, s, keys, query, entry, verified, u, r, Model(), idle, runs == old(runs));
    }

    // Verifies the dependencies of a result with its frame marked as verifying.
    method VerifyEntry(query: QueryKey, entry: Entry, ghost keys: set<QueryKey>) returns (verified: Result<nat, QueryError>)
      requires RulesHold(rules, readLimit) && Started(rules, Model(), query)
      requires IsPrevious(Model(), query, Some(entry)) && entry.trace.built != revision
      requires FlagHolds(signal, cancelSeen, since, looks)
      modifies this
      ensures FlagHolds(signal, cancelSeen, since, looks) && since == old(since) && runs >= old(runs)
      ensures VerifyOutcome(rules, old(Model()), keys, query, entry, verified, Model(), runs == old(runs))
      decreases Idle(derived), 6
    {
      hide FlagHolds, RulesHold, Valid, Finished, Idle, VerifyProgress, Sound, Definite, Explained, Useful, PassesOn, Prepared, Later;
      hide Reuses, AllSettled, LatestIsReal, VerifySpared, VerifyOutcome;
      ghost var s := Model();
      BeginVerify(rules, s, query, entry);
      frames := WithTop(frames, Top(frames).(verifying := true));
      assert Model() == Verifying(s, true);
      verified := VerifyCore(query, entry, keys);
      ghost var t := Model();
      frames := WithTop(frames, Top(frames).(verifying := false));
      assert Model() == Verifying(t, false);
      VerifyEnds(rules, s, keys, query, entry, verified, t, runs == old(runs));
    }

    // Brings every dependency up to date, and returns the latest change among them.
    method VerifyCore(query: QueryKey, entry: Entry, ghost keys: set<QueryKey>) returns (r: Result<nat, QueryError>)
      requires RulesHold(rules, readLimit)
      requires VerifyProgress(rules, Model(), entry, entry.dependencies, 0, Model())
      requires frames != [] && Top(frames).verifying && Top(frames).inProgress && Top(frames).query == query
      requires IsPrevious(Model(), query, Some(entry))
      requires FlagHolds(signal, cancelSeen, since, looks)
      modifies this
      ensures FlagHolds(signal, cancelSeen, since, looks) && since == old(since)
      ensures r.Ok? ==> VerifyProgress(rules, old(Model()), entry, {}, r.value, Model()) && Useful(rules, old(Model()), Model())
      ensures VerifyProgress(rules, old(Model()), entry, entry.dependencies, 0, Model())
      ensures frames == old(frames)
      ensures r.Err? ==> Explained(rules, frames, Model(), r.error)
      ensures r.Err? ==> exists d :: d in entry.dependencies && !d.IsInput() &&
                           Definite(rules, old(Model()), d, r.error)
      ensures Stops(rules, old(Model()), Model(), r == Err(Cancelled))
      ensures runs >= old(runs) && (r.Ok? ==> LatestIsReal(entry, r.value, Model()))
      ensures VerifySpared(old(Model()), keys, query, entry, if r.Ok? then r.value else 0, Model(), runs == old(runs))
      ensures r.Err? && query in keys && AllSettled(old(Logical(Model())), keys) ==> tangled || cancelSeen
      decreases Idle(derived), 4
    {
      hide FlagHolds, RulesHold, Valid, VerifyProgress, Asked, Explained, Definite, Idle, ChangedOf, Useful, PassesOn;
      hide Reuses, VerifySpared, LatestIsReal, AllSettled, LogicalStore, Steady;
      ghost var s := Model();
      VerifyStarts(rules, s, entry);
      PreviousVerified(rules, s, query, entry);
      VerifySparedAtFirst(s, keys, query, entry);
      var latest: nat := 0;
      var remaining := entry.dependencies;
      while remaining != {}
        invariant VerifyProgress(rules, s, entry, remaining, latest, Model())
        invariant VerifyProgress(rules, s, entry, entry.dependencies, 0, Model())
        invariant frames == s.frames && remaining <= entry.dependencies
        invariant Useful(rules, s, Model()) && Stops(rules, s, Model(), false)
        invariant FlagHolds(signal, cancelSeen, since, looks) && since == old(since)
        invariant runs >= old(runs) && VerifySpared(s, keys, query, entry, latest, Model(), runs == old(runs))
        invariant LatestIsReal(entry, latest, Model())
        decreases remaining
      {
        var dependency :| dependency in remaining;
        if !dependency.IsInput() && !Fresh(derived, revision, dependency) {
          ghost var t, before := Model(), runs;
          VerifyCanAsk(rules, s, query, entry, remaining, latest, t, dependency);
          var answer := Query(dependency, keys);
          VerifySparedNext(rules, s, keys, query, entry, remaining, latest, t, before == old(runs), dependency, answer, Model(), runs == before);
          VerifyAsked(rules, s, entry, remaining, latest, t, dependency, answer, Model());
          VerifyAsked(rules, s, entry, entry.dependencies, 0, t, dependency, answer, Model());
          if answer.Err? {
            AskedExplained(rules, t, dependency, answer, Model());
            AskedDefinite(rules, s, entry, remaining, latest, t, dependency, answer, Model());
            return Err(answer.error);
          }
        }
        VerifyOneSpared(rules, s, keys, query, entry, remaining, latest, Model(), runs == old(runs), dependency);
        VerifyOne(rules, s, entry, remaining, latest, Model(), dependency);
        latest := Max(latest, Changed(dependency));
        remaining := remaining - {dependency};
      }
      return Ok(latest);
    }

    // The change stamp of a dependency: of an input if it is present, of a query if it is cached.
    function Changed(d: QueryKey): nat
      reads this
      ensures Changed(d) == ChangedOf(Model(), d)
    {
      if d.IsInput() then (if d in inputs then inputs[d].changed else 0)
      else if d in derived && derived[d].Computed? then derived[d].entry.trace.changed
      else 0
    }

    // Runs the compute function and stores its value. An equal value keeps the change stamp of
    // the previous one.
    method ComputeCore(query: QueryKey, previous: Option<Entry>) returns (r: QueryResult)
      requires RulesHold(rules, readLimit) && Started(rules, Model(), query) && IsPrevious(Model(), query, previous)
      requires Prepared(rules, Model(), previous)
      requires FlagHolds(signal, cancelSeen, since, looks)
      modifies this
      ensures FlagHolds(signal, cancelSeen, since, looks) && since == old(since)
      ensures Finished(rules, old(Model()), query, r, Model())
      ensures runs >= old(runs)
      ensures r.Ok? ==> query in derived && derived[query].Computed? && StampedAs(derived[query].entry, previous, revision)
      decreases Idle(derived), 5
    {
      hide FlagHolds, RulesHold, Valid, Finished, Idle, Computed', Sound, Certified, ReportedCycle, Prepared, Useful;
      ghost var s := Model();
      var cancelled := LoadCancelled();
      if cancelled {
        CancelStarted(rules, s, query);
        return Err(Cancelled);
      }
      assert Model() == s;
      r := RunCompute(query);
      ghost var t := Model();
      ComputedFrame(rules, s, query, r, t);
      if r.Err? || Top(frames).unavailable.Some? {
        var error := if r.Err? then r.error else Top(frames).unavailable.value;
        ComputeFailed(rules, s, query, r, error, t);
        return Err(error);
      }
      var entry := NewEntry(revision, Top(frames), previous, r.value);
      ComputeUseful(rules, s, query, previous, r, t);
      StoreComputed(rules, s, query, previous, r, t);
      FulfillAndStore(query, entry);
      ComputeStored(rules, s, query, previous, r, t, Model());
    }

    // Feeds the compute function the answers to its reads until it returns or fails.
    method RunCompute(query: QueryKey) returns (r: QueryResult)
      requires RulesHold(rules, readLimit) && Started(rules, Model(), query) && FlagHolds(signal, cancelSeen, since, looks)
      modifies this
      ensures FlagHolds(signal, cancelSeen, since, looks) && since == old(since)
      ensures Computed'(rules, old(Model()), query, r, Model()) && runs > old(runs)
      decreases Idle(derived), 4
    {
      hide FlagHolds, Valid, Computing, Computed', Asked, Idle, Reuses;
      ghost var s := Model();
      runs := runs + 1;
      BeginCompute(rules, s, query);
      var answers: seq<Answer> := [];
      while true
        invariant Computing(rules, s, query, answers, Model())
        invariant FlagHolds(signal, cancelSeen, since, looks) && since == old(since) && runs > old(runs)
        decreases readLimit - |answers|
      {
        ghost var t := Model();
        var action := rules(query, answers);
        match action
        case Return(v) =>
          EndCompute(rules, s, query, answers, t, Ok(v));
          return Ok(v);
        case Raise(e) =>
          EndCompute(rules, s, query, answers, t, Err(e));
          return Err(e);
        case Read(d) =>
          if d.IsInput() {
            ComputeInput(rules, s, query, answers, t);
            frames := Recorded(frames, d);
            answers := answers + [Lookup(Values(inputs), d)];
          } else {
            ComputeCanAsk(rules, s, query, answers, t);
            var answer := Query(d, {});
            if answer.Err? && (answer.error.Cycle? || answer.error.MissingContent?) {
              AbortCompute(rules, s, query, answers, t, answer, Model());
              return Err(answer.error);
            }
            ComputeAsked(rules, s, query, answers, t, answer, Model());
            answers := answers + [if answer.Ok? then Present(answer.value) else Unavailable(answer.error)];
          }
      }
    }

    // Writes an input. An equal value changes nothing, not even the revision.
    method SetInput(key: QueryKey, value: Value)
      requires AtRest(rules, Model()) && key.IsInput()
      modifies this
      ensures AtRest(rules, Model())
      ensures Values(inputs) == Apply(old(Values(inputs)), Operation.SetInput(key, value))
      ensures revision == old(revision) + (if old(key in inputs && inputs[key].value == value) then 0 else 1)
      ensures derived == old(derived) && looks == old(looks) && runs == old(runs)
      ensures inputs == if revision == old(revision) then old(inputs) else old(inputs)[key := InputState(value, revision)]
    {
      hide AtRest;
      if key in inputs && inputs[key].value == value {
        assert Values(inputs)[key := value] == Values(inputs);
        return;
      }
      Write(rules, Model(), key, value);
      var written := inputs[key := InputState(value, revision + 1)];
      assert Values(written) == Values(inputs)[key := value];
      revision := revision + 1;
      inputs := written;
      history := history + [Values(written)];
      assert Model() == Transacted(old(Model()), written, derived);
    }

    // Removes a source file: its inputs, its registrations, and the results that list them.
    method RemoveFile(file: FileId)
      requires AtRest(rules, Model())
      modifies this
      ensures AtRest(rules, Model())
      ensures Values(inputs) == Apply(old(Values(inputs)), Operation.RemoveFile(file))
      ensures derived == WithoutFile(old(derived), file, RemovedModules(old(inputs), file))
      ensures inputs == InputsWithoutFile(old(inputs), file, revision)
      ensures revision == old(revision) + 1 && looks == old(looks) && runs == old(runs)
    {
      hide AtRest, Apply, InputsWithoutFile, RemovedModules, WithoutFile;
      DropFile(rules, Model(), file);
      RemoveFileValues(inputs, file, revision + 1);
      revision := revision + 1;
      derived := WithoutFile(derived, file, RemovedModules(inputs, file));
      inputs := InputsWithoutFile(inputs, file, revision);
      history := history + [Values(inputs)];
      assert Model() == Transacted(old(Model()), inputs, derived);
    }

    // Removes a foreign file, its candidacies, and the results that read it.
    method RemoveForeignFile(foreign: ForeignFileId)
      requires AtRest(rules, Model())
      modifies this
      ensures AtRest(rules, Model())
      ensures Values(inputs) == Apply(old(Values(inputs)), Operation.RemoveForeignFile(foreign))
      ensures derived == WithoutForeign(old(derived), foreign)
      ensures inputs == InputsWithoutForeign(old(inputs), foreign, revision)
      ensures revision == old(revision) + 1 && looks == old(looks) && runs == old(runs)
    {
      hide AtRest, Apply, InputsWithoutForeign, WithoutForeign;
      DropForeign(rules, Model(), foreign);
      RemoveForeignValues(inputs, foreign, revision + 1);
      revision := revision + 1;
      derived := WithoutForeign(derived, foreign);
      inputs := InputsWithoutForeign(inputs, foreign, revision);
      history := history + [Values(inputs)];
      assert Model() == Transacted(old(Model()), inputs, derived);
    }

    // A query from the outside. Nothing that happened to earlier queries matters to it, except for
    // what they left in the store.
    method Ask(query: QueryKey) returns (r: QueryResult)
      requires RulesHold(rules, readLimit) && AtRest(rules, Model()) && !query.IsInput()
      modifies this
      ensures AtRest(rules, Model()) && inputs == old(inputs) && revision == old(revision)
      ensures Later(old(Logical(Model())), Logical(Model()))
      ensures r.Ok? ==> Delivered(Model(), query, r.value)
      ensures Truthful(rules, Values(inputs), query, r)
      ensures Conclusive(rules, old(Logical(Model())), query, r)
      ensures r == Err(Cancelled) ==> RaisedIn(signal, old(looks), looks)
      ensures looks >= old(looks) && runs >= old(runs)
      ensures Thrifty(rules, old(Logical(Model())), query, r, Logical(Model()), runs == old(runs), RaisedIn(signal, old(looks), looks))
      ensures r.Ok? ==> Settled(Logical(Model()), query)
    {
      hide RulesHold, Valid, ReportedCycle, Later, PassesOn, IsValue, Conclusive, Truthful, LogicalStore, Thrifty, Reuses;
      AskAnew(rules, Model(), query);
      ghost var s := Anew(Model(), Logical(Model()), query);
      cancelSeen := false;
      since := looks;
      tangled, origin := false, Origin(Logical(Model()), query);
      assert Model() == s;
      ghost var keys: set<QueryKey> := {};
      if Settled(Logical(s), query) {
        keys :| query in keys && AllSettled(Logical(s), keys);
      }
      r := Query(query, keys);
      AskedIsTruthful(rules, s, query, r, Model());
      AskedIsConclusive(rules, s, query, r, Model());
      AskedIsThrifty(rules, s, keys, query, r, Model(), runs == old(runs), RaisedIn(signal, old(looks), looks));
    }

    method Perform(op: Operation) returns (answer: Option<QueryResult>)
      requires RulesHold(rules, readLimit) && AtRest(rules, Model()) && op.WellFormed()
      modifies this
      ensures AtRest(rules, Model()) && Values(inputs) == Apply(old(Values(inputs)), op)
      ensures CorrectAnswer(rules, old(Values(inputs)), op, answer)
      ensures op.Ask? ==> Conclusive(rules, old(Logical(Model())), op.query, answer.value)
      ensures answer == Some(Err(Cancelled)) ==> RaisedIn(signal, old(looks), looks)
      ensures looks >= old(looks)
    {
      hide RulesHold, AtRest, Apply, ReportedCycle, Truthful, PassesOn, NothingMissing, Threatened, ThreatenedBy, IsMissing, Entangled, HasValue, Later, Delivered, RaisedIn;
      answer := None;
      match op
      case SetInput(key, value) => SetInput(key, value);
      case RemoveFile(file) => RemoveFile(file);
      case RemoveForeignFile(foreign) => RemoveForeignFile(foreign);
      case Ask(query) =>
        AskKeeps(Values(inputs), query);
        ghost var store := Logical(Model());
        if NothingMissing(rules, Values(store.inputs)) {
          NothingThreatened(rules, store, query);
        }
        var r := Ask(query);
        answer := Some(r);
        if r.Err? && r.error.MissingContent? && PassesOn(rules) {
          ThreatIsMissing(rules, store, query, r.error.file);
        }
    }

    // Any run of operations: every answer is right about the inputs that the operations so far
    // have left.
    method Run(ops: seq<Operation>) returns (answers: seq<Option<QueryResult>>)
      requires RulesHold(rules, readLimit) && AtRest(rules, Model()) && inputs == map[]
      requires forall i :: 0 <= i < |ops| ==> ops[i].WellFormed()
      modifies this
      ensures AtRest(rules, Model()) && Values(inputs) == ApplyAll(map[], ops)
      ensures |answers| == |ops|
      ensures forall i :: 0 <= i < |ops| ==> CorrectAnswer(rules, ApplyAll(map[], ops[..i]), ops[i], answers[i])
      ensures NeverRaised(signal) ==> forall i :: 0 <= i < |ops| ==> answers[i] != Some(Err(Cancelled))
    {
      answers := [];
      assert Values(inputs) == ApplyAll(map[], ops[..0]);
      assert CorrectSoFar(rules, ops, answers);
      hide RulesHold, AtRest, ApplyAll, Apply, Values, CorrectAnswer, CorrectSoFar;
      for i := 0 to |ops|
        invariant |answers| == i
        invariant AtRest(rules, Model()) && Values(inputs) == ApplyAll(map[], ops[..i])
        invariant CorrectSoFar(rules, ops, answers)
        invariant NeverRaised(signal) ==> forall j :: 0 <= j < i ==> answers[j] != Some(Err(Cancelled))
      {
        ApplyNext(ops, i);
        var answer := Perform(ops[i]);
        AnswerNext(rules, ops, answers, answer);
        answers := answers + [answer];
      }
      AllAnswered(rules, ops, answers);
    }
  }

  // No other thread ever raises the flag.
  ghost predicate NeverRaised(signal: Signal) {
    forall n: nat :: !signal(n)
  }

  // The operations answered so far are answered correctly.
  ghost predicate CorrectSoFar(rules: Rules, ops: seq<Operation>, answers: seq<Option<QueryResult>>) {
    && |answers| <= |ops|
    && (forall i :: 0 <= i < |answers| ==> CorrectAnswer(rules, ApplyAll(map[], ops[..i]), ops[i], answers[i]))
  }

  lemma AnswerNext(rules: Rules, ops: seq<Operation>, answers: seq<Option<QueryResult>>, answer: Option<QueryResult>)
    requires |answers| < |ops| && CorrectSoFar(rules, ops, answers)
    requires CorrectAnswer(rules, ApplyAll(map[], ops[..|answers|]), ops[|answers|], answer)
    ensures CorrectSoFar(rules, ops, answers + [answer])
  {
    hide CorrectAnswer, ApplyAll;
  }

  lemma AllAnswered(rules: Rules, ops: seq<Operation>, answers: seq<Option<QueryResult>>)
    requires |answers| == |ops| && CorrectSoFar(rules, ops, answers)
    ensures forall i :: 0 <= i < |ops| ==> CorrectAnswer(rules, ApplyAll(map[], ops[..i]), ops[i], answers[i])
    ensures ops[..|ops|] == ops
  {
    hide CorrectAnswer, ApplyAll;
  }

  lemma ApplyNext(ops: seq<Operation>, i: nat)
    requires i < |ops|
    ensures ApplyAll(map[], ops[..i + 1]) == Apply(ApplyAll(map[], ops[..i]), ops[i])
  {
    assert ops[..i + 1][..i] == ops[..i];
  }

  lemma AskKeeps(inputs: Inputs, query: QueryKey)
    ensures Apply(inputs, Operation.Ask(query)) == inputs
  {
  }
}
