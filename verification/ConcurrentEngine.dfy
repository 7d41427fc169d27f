// The query engine with several snapshots at work, one step for each section that a lock
// protects (compiler-core/building/src/engine.rs).
module ConcurrentEngine {
  import opened Queries
  import opened QueryCache
  import opened SnapshotGraph
  import Graphs
  import opened Wrappers

  // ---------------------------------------------------------------- state

  // What a blocked snapshot waits to learn.
  datatype Promise = Pending | Fulfilled(value: Value) | Transferred

  // How far a query has come.
  datatype Phase =
    | Entering
    | Waiting
    | Verifying(entry: Entry, remaining: set<QueryKey>, latest: nat)
    | Computing(answers: seq<Answer>, previous: Option<Entry>)
    | Leaving(result: QueryResult)

  datatype Frame = Frame(
    query: QueryKey,
    inProgress: bool,
    dependencies: set<QueryKey>,
    unavailable: Option<QueryError>,
    phase: Phase)

  function NewFrame(query: QueryKey): Frame {
    Frame(query, false, {}, None, Entering)
  }

  datatype Reply = Reply(query: QueryKey, revision: nat, result: QueryResult)

  // `slots` and `entries` together are the derived storage: queries in progress and cached
  // results. `suspended` keeps the results that their owners set aside, `history` the inputs
  // of every revision, `replies` what was answered to the outside, and `raises` the revisions at
  // which the cancellation flag was raised.
  datatype State = State(
    revision: nat,
    inputs: map<QueryKey, InputState>,
    entries: map<QueryKey, Entry>,
    slots: map<QueryKey, Slot>,
    graph: WaitFor,
    stacks: map<SnapshotId, seq<Frame>>,
    promises: map<SnapshotId, Promise>,
    suspended: map<QueryKey, Entry>,
    history: seq<Inputs>,
    replies: seq<Reply>,
    cancelled: bool,
    raises: set<nat>)

  function StackOf(s: State, i: SnapshotId): seq<Frame> {
    if i in s.stacks then s.stacks[i] else []
  }

  function PromiseOf(s: State, i: SnapshotId): Promise {
    if i in s.promises then s.promises[i] else Pending
  }

  function WithStack(s: State, i: SnapshotId, stack: seq<Frame>): State {
    s.(stacks := s.stacks[i := stack])
  }

  function Top(stack: seq<Frame>): Frame
    requires stack != []
  {
    stack[|stack| - 1]
  }

  function WithTop(stack: seq<Frame>, top: Frame): seq<Frame>
    requires stack != []
  {
    stack[|stack| - 1 := top]
  }

  predicate IsFresh(s: State, k: QueryKey) {
    k in s.entries && s.entries[k].trace.built == s.revision
  }

  predicate AnyVerifying(stack: seq<Frame>) {
    exists j :: 0 <= j < |stack| && stack[j].phase.Verifying?
  }

  function StackQueries(stack: seq<Frame>): seq<QueryKey> {
    seq(|stack|, j requires 0 <= j < |stack| => stack[j].query)
  }

  ghost function Logical(s: State): Store {
    Store(s.revision, s.inputs, s.entries + s.suspended, s.history)
  }

  // ---------------------------------------------------------------- steps

  // What a snapshot does next with the query on top of its stack.
  datatype Move =
    | Cancel
    | Hit
    | Conflict
    | Wait
    | Start
    | VerifyRead(dependency: QueryKey)
    | VerifyAsk(dependency: QueryKey)
    | VerifyEnd
    | Compute
    | Wake
    | Exit

  datatype Step =
    | Begin(i: SnapshotId, query: QueryKey)
    | Act(i: SnapshotId, move: Move)
    | Transaction(inputs: map<QueryKey, InputState>, entries: map<QueryKey, Entry>)
    | RaiseFlag
    | LowerFlag

  function Max(a: nat, b: nat): nat {
    if a < b then b else a
  }

  function ChangedOf(s: State, d: QueryKey): nat {
    if d.IsInput() then (if d in s.inputs then s.inputs[d].changed else 0)
    else if d in s.entries then s.entries[d].trace.changed
    else 0
  }

  // A wait-for edge to the owner would close a cycle.
  ghost predicate Closes(s: State, i: SnapshotId, k: QueryKey)
    requires k in s.slots
  {
    Leads(s.graph, s.slots[k].owner, i)
  }

  // A query below has met a cancellation. The flag stays up until no query is running, so that
  // every query that is entered meets it too.
  predicate CancelSeen(stack: seq<Frame>) {
    exists j :: 0 <= j < |stack| && stack[j].phase.Computing? && Unavailable(Cancelled) in stack[j].phase.answers
  }

  ghost predicate CanMove(s: State, i: SnapshotId, move: Move)
    requires StackOf(s, i) != []
  {
    var stack := StackOf(s, i);
    var top := Top(stack);
    match move
    case Cancel =>
      && (s.cancelled || CancelSeen(stack))
      && (top.phase.Entering? || (top.phase.Computing? && top.phase.answers == []))
    case Hit => top.phase.Entering? && !CancelSeen(stack) && IsFresh(s, top.query)
    case Conflict =>
      top.phase.Entering? && !CancelSeen(stack) && top.query in s.slots && (AnyVerifying(stack) || Closes(s, i, top.query))
    case Wait =>
      top.phase.Entering? && !CancelSeen(stack) && top.query in s.slots && !AnyVerifying(stack) && !Closes(s, i, top.query)
    case Start => top.phase.Entering? && !CancelSeen(stack) && top.query !in s.slots && !IsFresh(s, top.query)
    case VerifyRead(d) => top.phase.Verifying? && d in top.phase.remaining && (d.IsInput() || IsFresh(s, d))
    case VerifyAsk(d) => top.phase.Verifying? && d in top.phase.remaining && !d.IsInput() && !IsFresh(s, d)
    case VerifyEnd => top.phase.Verifying? && top.phase.remaining == {}
    case Compute => top.phase.Computing?
    case Wake => top.phase.Waiting? && !PromiseOf(s, i).Pending?
    case Exit => top.phase.Leaving?
  }

  ghost predicate Enabled(s: State, step: Step) {
    match step
    case Begin(i, query) => StackOf(s, i) == [] && !query.IsInput()
    case Act(i, move) => StackOf(s, i) != [] && CanMove(s, i, move)
    case Transaction(inputs, entries) =>
      && (forall i :: i in s.stacks ==> s.stacks[i] == [])
      && IsTransaction(Logical(s), inputs, entries)
    case RaiseFlag => true
    case LowerFlag => forall i :: i in s.stacks ==> s.stacks[i] == []
  }

  // Replaces the in-progress query of the frame on top by its result, and fulfills the waiters.
  function Stored(s: State, i: SnapshotId, entry: Entry): State
    requires StackOf(s, i) != [] && Top(StackOf(s, i)).query in s.slots
  {
    var stack := StackOf(s, i);
    var top := Top(stack);
    var waiters := s.slots[top.query].waiters;
    s.(entries := s.entries[top.query := entry],
       suspended := s.suspended - {top.query},
       slots := s.slots - {top.query},
       graph := Released(s.graph, waiters),
       promises := s.promises + map w | w in waiters :: Fulfilled(entry.value),
       stacks := s.stacks[i := WithTop(stack, top.(inProgress := false, phase := Leaving(Ok(entry.value))))])
  }

  // A failed query is forgotten, or handed to the waiter that came last.
  function CleanedUp(s: State, query: QueryKey): State
    requires query in s.slots
  {
    var waiters := s.slots[query].waiters;
    var n := |waiters| - 1;
    s.(suspended := s.suspended - {query},
       slots := if waiters == [] then s.slots - {query} else Inherited(s.slots, query),
       graph := if waiters == [] then s.graph else HandedOff(s.graph, waiters[n], waiters[..n]),
       promises := if waiters == [] then s.promises else s.promises[waiters[n] := Transferred])
  }

  // How the frame below takes the result of the query it asked for.
  function Delivered(f: Frame, r: QueryResult): Frame {
    match f.phase
    case Verifying(entry, _, _) =>
      if r.Ok? then f
      else if r.error.Unverifiable? then f.(phase := Computing([], Some(entry)))
      else f.(phase := Leaving(r))
    case Computing(answers, previous) =>
      if r.Ok? then f.(phase := Computing(answers + [Present(r.value)], previous))
      else if r.error.Unverifiable? || r.error.Cancelled? then
        f.(unavailable := if f.unavailable.Some? then f.unavailable else Some(r.error),
           phase := Computing(answers + [Unavailable(r.error)], previous))
      else f.(phase := Leaving(r))
    case _ => f
  }

  function NewEntry(s: State, f: Frame, v: Value): Entry
    requires f.phase.Computing?
  {
    var previous := f.phase.previous;
    var changed := if previous.Some? && previous.value.value == v then previous.value.trace.changed else s.revision;
    Entry(v, Trace(s.revision, changed), f.dependencies)
  }

  function Computed(rules: Rules, s: State, i: SnapshotId): State
    requires StackOf(s, i) != [] && Top(StackOf(s, i)).phase.Computing?
    requires Top(StackOf(s, i)).query in s.slots
  {
    var stack := StackOf(s, i);
    var top := Top(stack);
    var Computing(answers, previous) := top.phase;
    match rules(top.query, answers)
    case Return(v) =>
      if top.unavailable.Some? then WithStack(s, i, WithTop(stack, top.(phase := Leaving(Err(top.unavailable.value)))))
      else Stored(s, i, NewEntry(s, top, v))
    case Raise(e) => WithStack(s, i, WithTop(stack, top.(phase := Leaving(Err(e)))))
    case Read(d) =>
      var recorded := top.(dependencies := top.dependencies + {d});
      if d.IsInput() then
        var answered := recorded.(phase := Computing(answers + [Lookup(Values(s.inputs), d)], previous));
        WithStack(s, i, WithTop(stack, answered))
      else WithStack(s, i, WithTop(stack, recorded) + [NewFrame(d)])
  }

  function Exited(s: State, i: SnapshotId): State
    requires StackOf(s, i) != [] && Top(StackOf(s, i)).phase.Leaving?
    requires Top(StackOf(s, i)).inProgress ==> Top(StackOf(s, i)).query in s.slots
  {
    var stack := StackOf(s, i);
    var top := Top(stack);
    var r := top.phase.result;
    var below := stack[..|stack| - 1];
    var cleaned := if top.inProgress then CleanedUp(s, top.query) else s;
    if below == [] then
      WithStack(cleaned, i, []).(replies := s.replies + [Reply(top.query, s.revision, r)])
    else WithStack(cleaned, i, WithTop(below, Delivered(Top(below), r)))
  }

  function Conflicted(s: State, i: SnapshotId): State
    requires StackOf(s, i) != []
  {
    var stack := StackOf(s, i);
    var error := if AnyVerifying(stack) then Unverifiable else Cycle(StackQueries(stack));
    WithStack(s, i, WithTop(stack, Top(stack).(phase := Leaving(Err(error)))))
  }

  function Waited(s: State, i: SnapshotId): State
    requires StackOf(s, i) != [] && Top(StackOf(s, i)).query in s.slots
  {
    var stack := StackOf(s, i);
    var top := Top(stack);
    WithStack(s, i, WithTop(stack, top.(phase := Waiting)))
    .(slots := Joined(s.slots, top.query, i),
      graph := s.graph[i := s.slots[top.query].owner],
      promises := s.promises[i := Pending])
  }

  // The snapshot becomes the owner of the query. A result from an earlier revision is set aside
  // to be verified.
  function Started(s: State, i: SnapshotId): State
    requires StackOf(s, i) != []
  {
    var stack := StackOf(s, i);
    var q := Top(stack).query;
    s.(stacks := s.stacks[i := WithTop(stack, StartedFrame(s, Top(stack)))],
       slots := s.slots[q := Slot(i, [])],
       entries := s.entries - {q},
       suspended := if q in s.entries then s.suspended[q := s.entries[q]] else s.suspended)
  }

  function StartedFrame(s: State, f: Frame): Frame {
    if f.query in s.entries then
      var e := s.entries[f.query];
      f.(inProgress := true, phase := Verifying(e, e.dependencies, 0))
    else f.(inProgress := true, phase := Computing([], None))
  }

  function Verified(s: State, i: SnapshotId, d: QueryKey): State
    requires StackOf(s, i) != [] && Top(StackOf(s, i)).phase.Verifying?
  {
    var stack := StackOf(s, i);
    var top := Top(stack);
    var Verifying(e, remaining, latest) := top.phase;
    WithStack(s, i, WithTop(stack, top.(phase := Verifying(e, remaining - {d}, Max(latest, ChangedOf(s, d))))))
  }

  function VerifyEnded(s: State, i: SnapshotId): State
    requires StackOf(s, i) != [] && Top(StackOf(s, i)).phase.Verifying?
    requires Top(StackOf(s, i)).query in s.slots
  {
    var stack := StackOf(s, i);
    var top := Top(stack);
    var Verifying(e, _, latest) := top.phase;
    if e.trace.built >= latest then Stored(s, i, Stamped(e, s.revision))
    else WithStack(s, i, WithTop(stack, top.(phase := Computing([], Some(e)))))
  }

  function Woken(s: State, i: SnapshotId): State
    requires StackOf(s, i) != []
  {
    var stack := StackOf(s, i);
    var top := Top(stack);
    var promise := PromiseOf(s, i);
    if promise.Fulfilled? then WithStack(s, i, WithTop(stack, top.(phase := Leaving(Ok(promise.value)))))
    else WithStack(s, i, WithTop(stack, top.(inProgress := true, phase := Computing([], None))))
  }

  // In every reachable state, a query that its frame marks as in progress is.
  predicate TopOwns(s: State, i: SnapshotId)
    requires StackOf(s, i) != []
  {
    var top := Top(StackOf(s, i));
    top.inProgress || top.phase.Verifying? || top.phase.Computing? ==> top.query in s.slots
  }

  ghost function Moved(rules: Rules, s: State, i: SnapshotId, move: Move): State
    requires StackOf(s, i) != [] && CanMove(s, i, move) && TopOwns(s, i)
  {
    var stack := StackOf(s, i);
    var top := Top(stack);
    match move
    case Cancel => WithStack(s, i, WithTop(stack, top.(phase := Leaving(Err(Cancelled)))))
    case Hit => WithStack(s, i, WithTop(stack, top.(phase := Leaving(Ok(s.entries[top.query].value)))))
    case Conflict => Conflicted(s, i)
    case Wait => Waited(s, i)
    case Start => Started(s, i)
    case VerifyRead(d) => Verified(s, i, d)
    case VerifyAsk(d) => WithStack(s, i, stack + [NewFrame(d)])
    case VerifyEnd => VerifyEnded(s, i)
    case Compute => Computed(rules, s, i)
    case Wake => Woken(s, i)
    case Exit => Exited(s, i)
  }

  ghost function Apply(rules: Rules, s: State, step: Step): State
    requires Enabled(s, step) && (step.Act? ==> TopOwns(s, step.i))
  {
    match step
    case Begin(i, query) => WithStack(s, i, [NewFrame(query)])
    case Act(i, move) => Moved(rules, s, i, move)
    case Transaction(inputs, entries) =>
      s.(revision := s.revision + 1, inputs := inputs, entries := entries, history := s.history + [Values(inputs)], cancelled := false)
    case RaiseFlag => s.(cancelled := true, raises := s.raises + {s.revision})
    case LowerFlag => s.(cancelled := false)
  }

  // ---------------------------------------------------------------- the invariant

  // What the frames of a snapshot rely on.
  datatype View = View(revision: nat, inputs: map<QueryKey, InputState>, entries: map<QueryKey, Entry>, suspended: map<QueryKey, Entry>)

  function ViewOf(s: State): View {
    View(s.revision, s.inputs, s.entries, s.suspended)
  }

  predicate FreshIn(v: View, k: QueryKey) {
    k in v.entries && v.entries[k].trace.built == v.revision
  }

  predicate VerifiedIn(v: View, d: QueryKey, latest: nat) {
    if d.IsInput() then d in v.inputs ==> v.inputs[d].changed <= latest
    else FreshIn(v, d) && v.entries[d].trace.changed <= latest
  }

  // `child` is the query that the frame has asked for and waits to hear from.
  ghost predicate VerifyingHolds(v: View, f: Frame)
    requires f.phase.Verifying?
  {
    var Verifying(entry, remaining, latest) := f.phase;
    && f.inProgress && f.dependencies == {} && f.unavailable.None?
    && f.query in v.suspended && v.suspended[f.query] == entry
    && (forall d :: d in entry.dependencies - remaining ==> VerifiedIn(v, d, latest))
  }

  ghost predicate ComputingHolds(rules: Rules, v: View, f: Frame, child: Option<QueryKey>)
    requires f.phase.Computing?
  {
    var Computing(answers, previous) := f.phase;
    && f.inProgress
    && (if previous.Some? then f.query in v.suspended && v.suspended[f.query] == previous.value
        else f.query !in v.suspended)
    && ReadsListed(rules, f.query, answers, f.dependencies)
    && OnlyReads(rules, f.query, answers, if child.Some? then f.dependencies - {child.value} else f.dependencies)
    && (forall d :: d in f.dependencies ==> InScope(f.query, d))
    && (child.Some? ==> rules(f.query, answers) == Read(child.value) && child.value in f.dependencies)
    && (f.unavailable.None? ==>
          && Genuine(rules, Values(v.inputs), f.query, answers)
          && (forall d :: d in f.dependencies ==> d.IsInput() || Some(d) == child || FreshIn(v, d)))
  }

  ghost predicate FrameHolds(rules: Rules, v: View, f: Frame, child: Option<QueryKey>) {
    && !f.query.IsInput()
    && match f.phase
       case Entering => f == NewFrame(f.query)
       case Waiting => f == NewFrame(f.query).(phase := Waiting)
       case Verifying(_, _, _) => VerifyingHolds(v, f)
       case Computing(_, _) => ComputingHolds(rules, v, f, child)
       case Leaving(r) => r.Ok? ==> !f.inProgress && FreshIn(v, f.query) && v.entries[f.query].value == r.value
  }

  function ChildOf(stack: seq<Frame>, j: nat): Option<QueryKey> {
    if j + 1 < |stack| then Some(stack[j + 1].query) else None
  }

  ghost predicate StackHolds(rules: Rules, v: View, stack: seq<Frame>) {
    && (forall j :: 0 <= j < |stack| ==> FrameHolds(rules, v, stack[j], ChildOf(stack, j)))
    && (forall j :: 0 <= j < |stack| - 1 ==> stack[j].phase.Verifying? || stack[j].phase.Computing?)
  }

  // A frame owns its query once it marked it, or once the query was handed to it.
  predicate OwnsAt(stack: seq<Frame>, promise: Promise, j: int, k: QueryKey) {
    && 0 <= j < |stack| && stack[j].query == k
    && (stack[j].inProgress || (stack[j].phase.Waiting? && promise.Transferred?))
  }

  predicate WaitsFor(stack: seq<Frame>, promise: Promise, k: QueryKey) {
    stack != [] && Top(stack).phase.Waiting? && Top(stack).query == k && promise.Pending?
  }

  ghost predicate OwnersListed(s: State) {
    forall i, j, k :: OwnsAt(StackOf(s, i), PromiseOf(s, i), j, k) ==> k in s.slots && s.slots[k].owner == i
  }

  ghost predicate OwnersUnique(s: State) {
    forall i, j, l, k :: OwnsAt(StackOf(s, i), PromiseOf(s, i), j, k) && OwnsAt(StackOf(s, i), PromiseOf(s, i), l, k) ==> j == l
  }

  ghost predicate OwnersExist(s: State) {
    forall k :: k in s.slots ==> HasOwner(s, k)
  }

  ghost predicate WaitersExact(s: State) {
    forall i, k :: WaitsFor(StackOf(s, i), PromiseOf(s, i), k) <==> WaitsIn(s.slots, i, k)
  }

  // Queries in progress have exactly one owning frame, and their waiters are exactly the
  // snapshots that are blocked on them.
  ghost predicate OwnershipHolds(s: State) {
    OwnersListed(s) && OwnersUnique(s) && OwnersExist(s) && WaitersExact(s)
  }

  ghost predicate HasOwner(s: State, k: QueryKey)
    requires k in s.slots
  {
    var i := s.slots[k].owner;
    exists j :: OwnsAt(StackOf(s, i), PromiseOf(s, i), j, k)
  }

  // A fulfilled promise carries the cached value, and a query that was handed over has no
  // result set aside.
  ghost predicate PromiseHolds(s: State, stack: seq<Frame>, promise: Promise) {
    stack != [] && Top(stack).phase.Waiting? ==>
      match promise
      case Pending => true
      case Fulfilled(v) => IsFresh(s, Top(stack).query) && s.entries[Top(stack).query].value == v
      case Transferred => Top(stack).query !in s.suspended
  }

  ghost predicate PromisesHold(s: State) {
    forall i :: PromiseHolds(s, StackOf(s, i), PromiseOf(s, i))
  }

  ghost predicate RepliesHold(rules: Rules, s: State) {
    forall n :: 0 <= n < |s.replies| && s.replies[n].result.Ok? ==>
      && s.replies[n].revision < |s.history|
      && IsValue(rules, s.history[s.replies[n].revision], s.replies[n].query, s.replies[n].result.value)
  }

  ghost predicate StorageHolds(rules: Rules, s: State) {
    && Sound(rules, Logical(s))
    && s.entries.Keys !! s.slots.Keys
    && s.suspended.Keys <= s.slots.Keys
  }

  ghost predicate Inv(rules: Rules, s: State) {
    && StorageHolds(rules, s)
    && SlotsHold(s.slots, s.graph)
    && OwnershipHolds(s)
    && PromisesHold(s)
    && RepliesHold(rules, s)
    && (forall i :: StackHolds(rules, ViewOf(s), StackOf(s, i)))
  }

  // ---------------------------------------------------------------- stacks

  lemma TopHolds(rules: Rules, v: View, stack: seq<Frame>, top: Frame)
    requires StackHolds(rules, v, stack) && stack != [] && top.query == Top(stack).query
    requires FrameHolds(rules, v, top, None)
    ensures StackHolds(rules, v, WithTop(stack, top))
  {
    hide FrameHolds;
    var stack' := WithTop(stack, top);
    forall j | 0 <= j < |stack'|
      ensures FrameHolds(rules, v, stack'[j], ChildOf(stack', j))
    {
      assert j < |stack| - 1 ==> FrameHolds(rules, v, stack[j], ChildOf(stack, j));
    }
  }

  lemma PushHolds(rules: Rules, v: View, stack: seq<Frame>, top: Frame, d: QueryKey)
    requires StackHolds(rules, v, stack) && stack != [] && top.query == Top(stack).query && !d.IsInput()
    requires FrameHolds(rules, v, top, Some(d)) && (top.phase.Verifying? || top.phase.Computing?)
    ensures StackHolds(rules, v, WithTop(stack, top) + [NewFrame(d)])
  {
    assert FrameHolds(rules, v, NewFrame(d), None);
    hide FrameHolds;
    var stack' := WithTop(stack, top) + [NewFrame(d)];
    forall j | 0 <= j < |stack'|
      ensures FrameHolds(rules, v, stack'[j], ChildOf(stack', j))
    {
      assert j < |stack| - 1 ==> FrameHolds(rules, v, stack[j], ChildOf(stack, j));
    }
  }

  lemma PopHolds(rules: Rules, v: View, stack: seq<Frame>, top: Frame)
    requires StackHolds(rules, v, stack) && |stack| > 1
    requires top.query == stack[|stack| - 2].query && FrameHolds(rules, v, top, None)
    ensures StackHolds(rules, v, WithTop(stack[..|stack| - 1], top))
  {
    hide FrameHolds;
    var stack' := WithTop(stack[..|stack| - 1], top);
    forall j | 0 <= j < |stack'|
      ensures FrameHolds(rules, v, stack'[j], ChildOf(stack', j))
    {
      assert j < |stack'| - 1 ==> FrameHolds(rules, v, stack[j], ChildOf(stack, j));
    }
  }

  // Later views keep what frames rely on: fresh results, and what they set aside themselves.
  ghost predicate LaterView(v: View, w: View) {
    && w.revision == v.revision && w.inputs == v.inputs
    && (forall k :: FreshIn(v, k) ==> k in w.entries && w.entries[k] == v.entries[k])
  }

  ghost predicate SameAside(v: View, w: View, k: QueryKey) {
    (k in w.suspended <==> k in v.suspended) && (k in v.suspended ==> w.suspended[k] == v.suspended[k])
  }

  lemma FrameLater(rules: Rules, v: View, w: View, f: Frame, child: Option<QueryKey>)
    requires FrameHolds(rules, v, f, child) && LaterView(v, w) && (f.inProgress ==> SameAside(v, w, f.query))
    ensures FrameHolds(rules, w, f, child)
  {
    hide Genuine, ReadsListed, OnlyReads;
    if f.phase.Verifying? {
      forall d | d in f.phase.entry.dependencies - f.phase.remaining
        ensures VerifiedIn(w, d, f.phase.latest)
      {
        assert VerifiedIn(v, d, f.phase.latest);
      }
    }
  }

  lemma StackLater(rules: Rules, v: View, w: View, stack: seq<Frame>)
    requires StackHolds(rules, v, stack) && LaterView(v, w)
    requires forall j :: 0 <= j < |stack| && stack[j].inProgress ==> SameAside(v, w, stack[j].query)
    ensures StackHolds(rules, w, stack)
  {
    hide FrameHolds, LaterView, SameAside;
    forall j | 0 <= j < |stack|
      ensures FrameHolds(rules, w, stack[j], ChildOf(stack, j))
    {
      FrameLater(rules, v, w, stack[j], ChildOf(stack, j));
    }
  }

  // ---------------------------------------------------------------- moves within one stack

  ghost predicate SameRole(before: seq<Frame>, after: seq<Frame>, promise: Promise) {
    && (forall j, k :: OwnsAt(after, promise, j, k) <==> OwnsAt(before, promise, j, k))
    && (forall k :: WaitsFor(after, promise, k) <==> WaitsFor(before, promise, k))
    && (after == [] || !Top(after).phase.Waiting?)
  }

  // A move that only rearranges one stack, without taking or giving up a query.
  lemma StackMove(rules: Rules, s: State, i: SnapshotId, stack: seq<Frame>)
    requires Inv(rules, s) && StackHolds(rules, ViewOf(s), stack)
    requires SameRole(StackOf(s, i), stack, PromiseOf(s, i))
    ensures Inv(rules, WithStack(s, i, stack))
  {
    hide StorageHolds, SlotsHold, StackHolds, RepliesHold;
    var t := WithStack(s, i, stack);
    assert forall n :: n != i ==> StackOf(t, n) == StackOf(s, n);
    assert ViewOf(t) == ViewOf(s);
    StackMoveOwners(rules, s, i, stack);
    assert RepliesHold(rules, t) by {
      SameReplies(rules, s, t);
    }
    assert StorageHolds(rules, t) by {
      SameStorage(rules, s, t);
    }
  }

  lemma SameReplies(rules: Rules, s: State, t: State)
    requires RepliesHold(rules, s) && t.history == s.history && t.replies == s.replies
    ensures RepliesHold(rules, t)
  {
  }

  lemma SameStorage(rules: Rules, s: State, t: State)
    requires StorageHolds(rules, s) && Logical(t) == Logical(s)
    requires t.entries == s.entries && t.suspended == s.suspended && t.slots == s.slots
    ensures StorageHolds(rules, t)
  {
  }

  // Ownership carries over where the owning frames and the owners stay the same.
  lemma SameOwners(s: State, t: State)
    requires OwnersListed(s) && OwnersUnique(s) && OwnersExist(s)
    requires forall n, j, k :: OwnsAt(StackOf(t, n), PromiseOf(t, n), j, k) <==> OwnsAt(StackOf(s, n), PromiseOf(s, n), j, k)
    requires t.slots.Keys == s.slots.Keys && forall k :: k in s.slots ==> t.slots[k].owner == s.slots[k].owner
    ensures OwnersListed(t) && OwnersUnique(t) && OwnersExist(t)
  {
    hide OwnsAt;
    forall k | k in t.slots
      ensures HasOwner(t, k)
    {
      assert k in s.slots && HasOwner(s, k);
      var o := s.slots[k].owner;
      var j :| OwnsAt(StackOf(s, o), PromiseOf(s, o), j, k);
      assert OwnsAt(StackOf(t, o), PromiseOf(t, o), j, k);
    }
  }

  lemma StackMoveOwners(rules: Rules, s: State, i: SnapshotId, stack: seq<Frame>)
    requires OwnershipHolds(s) && PromisesHold(s)
    requires SameRole(StackOf(s, i), stack, PromiseOf(s, i))
    ensures OwnershipHolds(WithStack(s, i, stack)) && PromisesHold(WithStack(s, i, stack))
  {
    hide OwnsAt, WaitsFor, WaitsIn;
    var t := WithStack(s, i, stack);
    forall n, j, k
      ensures OwnsAt(StackOf(t, n), PromiseOf(t, n), j, k) <==> OwnsAt(StackOf(s, n), PromiseOf(s, n), j, k)
    {
    }
    SameOwners(s, t);
    forall n
      ensures PromiseHolds(t, StackOf(t, n), PromiseOf(t, n))
    {
      assert PromiseHolds(s, StackOf(s, n), PromiseOf(s, n));
    }
  }

  // Replacing the frame on top by one that owns as much and does not wait.
  lemma TopRole(stack: seq<Frame>, top: Frame, promise: Promise)
    requires stack != [] && top.query == Top(stack).query && !top.phase.Waiting?
    requires !WaitsFor(stack, promise, top.query)
    requires top.inProgress <==> OwnsAt(stack, promise, |stack| - 1, top.query)
    ensures SameRole(stack, WithTop(stack, top), promise)
  {
  }

  lemma PushRole(stack: seq<Frame>, top: Frame, d: QueryKey, promise: Promise)
    requires stack != [] && top.query == Top(stack).query && top.inProgress == Top(stack).inProgress
    requires !top.phase.Waiting? && !Top(stack).phase.Waiting?
    ensures SameRole(stack, WithTop(stack, top) + [NewFrame(d)], promise)
  {
    var after := WithTop(stack, top) + [NewFrame(d)];
    forall j: int, k
      ensures OwnsAt(after, promise, j, k) <==> OwnsAt(stack, promise, j, k)
    {
      assert 0 <= j < |stack| - 1 ==> after[j] == stack[j];
    }
  }

  // ---------------------------------------------------------------- local moves

  lemma LeaveWithError(rules: Rules, s: State, i: SnapshotId, error: QueryError)
    requires Inv(rules, s) && StackOf(s, i) != [] && !Top(StackOf(s, i)).phase.Waiting?
    ensures var stack := StackOf(s, i);
            Inv(rules, WithStack(s, i, WithTop(stack, Top(stack).(phase := Leaving(Err(error))))))
  {
    hide StorageHolds, SlotsHold, RepliesHold, OwnershipHolds, PromisesHold;
    var stack := StackOf(s, i);
    var top := Top(stack).(phase := Leaving(Err(error)));
    assert FrameHolds(rules, ViewOf(s), Top(stack), ChildOf(stack, |stack| - 1));
    TopHolds(rules, ViewOf(s), stack, top);
    TopRole(stack, top, PromiseOf(s, i));
    StackMove(rules, s, i, WithTop(stack, top));
  }

  lemma HitMove(rules: Rules, s: State, i: SnapshotId)
    requires Inv(rules, s) && StackOf(s, i) != [] && CanMove(s, i, Hit)
    ensures Inv(rules, Moved(rules, s, i, Hit))
  {
    hide StorageHolds, SlotsHold, RepliesHold, OwnershipHolds, PromisesHold;
    var stack := StackOf(s, i);
    var top := Top(stack).(phase := Leaving(Ok(s.entries[Top(stack).query].value)));
    assert FrameHolds(rules, ViewOf(s), Top(stack), ChildOf(stack, |stack| - 1));
    TopHolds(rules, ViewOf(s), stack, top);
    TopRole(stack, top, PromiseOf(s, i));
    StackMove(rules, s, i, WithTop(stack, top));
  }

  lemma VerifyReadMove(rules: Rules, s: State, i: SnapshotId, d: QueryKey)
    requires Inv(rules, s) && StackOf(s, i) != [] && CanMove(s, i, VerifyRead(d))
    ensures Inv(rules, Verified(s, i, d))
  {
    hide StorageHolds, SlotsHold, RepliesHold, OwnershipHolds, PromisesHold;
    var stack := StackOf(s, i);
    var Verifying(e, remaining, latest) := Top(stack).phase;
    var latest' := Max(latest, ChangedOf(s, d));
    var top := Top(stack).(phase := Verifying(e, remaining - {d}, latest'));
    assert FrameHolds(rules, ViewOf(s), Top(stack), ChildOf(stack, |stack| - 1));
    forall c | c in e.dependencies - (remaining - {d})
      ensures VerifiedIn(ViewOf(s), c, latest')
    {
      assert c != d ==> VerifiedIn(ViewOf(s), c, latest);
    }
    TopHolds(rules, ViewOf(s), stack, top);
    TopRole(stack, top, PromiseOf(s, i));
    StackMove(rules, s, i, WithTop(stack, top));
  }

  lemma VerifyAskMove(rules: Rules, s: State, i: SnapshotId, d: QueryKey)
    requires Inv(rules, s) && StackOf(s, i) != [] && CanMove(s, i, VerifyAsk(d))
    ensures Inv(rules, WithStack(s, i, StackOf(s, i) + [NewFrame(d)]))
  {
    hide StorageHolds, SlotsHold, RepliesHold, OwnershipHolds, PromisesHold;
    var stack := StackOf(s, i);
    assert FrameHolds(rules, ViewOf(s), Top(stack), ChildOf(stack, |stack| - 1));
    PushHolds(rules, ViewOf(s), stack, Top(stack), d);
    PushRole(stack, Top(stack), d, PromiseOf(s, i));
    assert WithTop(stack, Top(stack)) == stack;
    StackMove(rules, s, i, stack + [NewFrame(d)]);
  }

  // Verification found a change: compute anew.
  lemma RecomputeMove(rules: Rules, s: State, i: SnapshotId)
    requires Inv(rules, s) && StackOf(s, i) != [] && Top(StackOf(s, i)).phase.Verifying?
    ensures var stack := StackOf(s, i);
            Inv(rules, WithStack(s, i, WithTop(stack, Top(stack).(phase := Computing([], Some(Top(stack).phase.entry))))))
  {
    hide StorageHolds, SlotsHold, RepliesHold, OwnershipHolds, PromisesHold;
    var stack := StackOf(s, i);
    var top := Top(stack).(phase := Computing([], Some(Top(stack).phase.entry)));
    assert FrameHolds(rules, ViewOf(s), Top(stack), ChildOf(stack, |stack| - 1));
    TopHolds(rules, ViewOf(s), stack, top);
    TopRole(stack, top, PromiseOf(s, i));
    StackMove(rules, s, i, WithTop(stack, top));
  }

  lemma ReadInputMove(rules: Rules, s: State, i: SnapshotId)
    requires ScopedRules(rules) && Inv(rules, s) && StackOf(s, i) != []
    requires var top := Top(StackOf(s, i));
             && top.phase.Computing? && rules(top.query, top.phase.answers).Read?
             && rules(top.query, top.phase.answers).key.IsInput() && top.query in s.slots
    ensures Inv(rules, Computed(rules, s, i))
  {
    hide StorageHolds, SlotsHold, RepliesHold, OwnershipHolds, PromisesHold, Genuine, ReadsListed, OnlyReads;
    var stack := StackOf(s, i);
    var f := Top(stack);
    var Computing(answers, previous) := f.phase;
    var d := rules(f.query, answers).key;
    var a := Lookup(Values(s.inputs), d);
    var top := f.(dependencies := f.dependencies + {d}, phase := Computing(answers + [a], previous));
    assert FrameHolds(rules, ViewOf(s), f, ChildOf(stack, |stack| - 1));
    if f.unavailable.None? {
      GenuineExtend(rules, Values(s.inputs), f.query, answers, a);
    }
    ReadsExtend(rules, f.query, answers, a, f.dependencies, top.dependencies);
    OnlyReadsExtend(rules, f.query, answers, a, f.dependencies);
    TopHolds(rules, ViewOf(s), stack, top);
    TopRole(stack, top, PromiseOf(s, i));
    StackMove(rules, s, i, WithTop(stack, top));
  }

  lemma ReadQueryMove(rules: Rules, s: State, i: SnapshotId)
    requires ScopedRules(rules) && Inv(rules, s) && StackOf(s, i) != []
    requires var top := Top(StackOf(s, i));
             && top.phase.Computing? && rules(top.query, top.phase.answers).Read?
             && !rules(top.query, top.phase.answers).key.IsInput() && top.query in s.slots
    ensures Inv(rules, Computed(rules, s, i))
  {
    hide StorageHolds, SlotsHold, RepliesHold, OwnershipHolds, PromisesHold;
    var stack := StackOf(s, i);
    var f := Top(stack);
    var d := rules(f.query, f.phase.answers).key;
    var top := f.(dependencies := f.dependencies + {d});
    assert FrameHolds(rules, ViewOf(s), f, ChildOf(stack, |stack| - 1));
    assert FrameHolds(rules, ViewOf(s), top, Some(d));
    PushHolds(rules, ViewOf(s), stack, top, d);
    PushRole(stack, top, d, PromiseOf(s, i));
    StackMove(rules, s, i, WithTop(stack, top) + [NewFrame(d)]);
  }

  lemma WakeMove(rules: Rules, s: State, i: SnapshotId)
    requires Inv(rules, s) && StackOf(s, i) != [] && CanMove(s, i, Wake)
    ensures Inv(rules, Woken(s, i))
  {
    hide StorageHolds, SlotsHold, RepliesHold, OwnershipHolds;
    var stack := StackOf(s, i);
    var promise := PromiseOf(s, i);
    assert PromiseHolds(s, stack, promise);
    assert FrameHolds(rules, ViewOf(s), Top(stack), ChildOf(stack, |stack| - 1));
    if promise.Fulfilled? {
      var top := Top(stack).(phase := Leaving(Ok(promise.value)));
      TopHolds(rules, ViewOf(s), stack, top);
      TopRole(stack, top, promise);
      StackMove(rules, s, i, WithTop(stack, top));
    } else {
      var top := Top(stack).(inProgress := true, phase := Computing([], None));
      TopHolds(rules, ViewOf(s), stack, top);
      TopRole(stack, top, promise);
      StackMove(rules, s, i, WithTop(stack, top));
    }
  }

  lemma BeginMove(rules: Rules, s: State, i: SnapshotId, query: QueryKey)
    requires Inv(rules, s) && StackOf(s, i) == [] && !query.IsInput()
    ensures Inv(rules, WithStack(s, i, [NewFrame(query)]))
  {
    hide StorageHolds, SlotsHold, RepliesHold, OwnershipHolds, PromisesHold;
    StackMove(rules, s, i, [NewFrame(query)]);
  }

  // ---------------------------------------------------------------- waiting and starting

  // A snapshot whose frame on top does not wait has no edge.
  lemma NotWaiting(rules: Rules, s: State, i: SnapshotId)
    requires Inv(rules, s) && (StackOf(s, i) != [] ==> !Top(StackOf(s, i)).phase.Waiting?)
    ensures i !in s.graph
  {
    hide StorageHolds, RepliesHold, StackHolds, Acyclic;
    assert forall k :: !WaitsFor(StackOf(s, i), PromiseOf(s, i), k);
    assert forall k :: !WaitsIn(s.slots, i, k);
    assert !WaitsSomewhere(s.slots, i);
  }

  lemma WaitMove(rules: Rules, s: State, i: SnapshotId)
    requires Inv(rules, s) && StackOf(s, i) != [] && CanMove(s, i, Wait)
    ensures Inv(rules, Waited(s, i))
  {
    hide Sound, RepliesHold, SlotsHold, Closes, OwnersListed, OwnersUnique, OwnersExist, WaitersExact, StackHolds;
    var stack := StackOf(s, i);
    var t := Waited(s, i);
    NotWaiting(rules, s, i);
    JoinSlot(s, i);
    WaitStack(rules, s, i);
    assert t.slots.Keys == s.slots.Keys && Logical(t) == Logical(s);
    WaitOwners(rules, s, i);
    forall n
      ensures PromiseHolds(t, StackOf(t, n), PromiseOf(t, n))
      ensures StackHolds(rules, ViewOf(t), StackOf(t, n))
    {
      assert StackHolds(rules, ViewOf(s), StackOf(s, n));
      assert PromiseHolds(s, StackOf(s, n), PromiseOf(s, n));
    }
    SameReplies(rules, s, t);
  }

  lemma JoinSlot(s: State, i: SnapshotId)
    requires SlotsHold(s.slots, s.graph) && i !in s.graph && StackOf(s, i) != [] && CanMove(s, i, Wait)
    ensures SlotsHold(Waited(s, i).slots, Waited(s, i).graph)
  {
    hide SlotsHold;
    SnapshotGraph.Join(s.slots, s.graph, Top(StackOf(s, i)).query, i);
  }

  lemma WaitStack(rules: Rules, s: State, i: SnapshotId)
    requires StackHolds(rules, ViewOf(s), StackOf(s, i)) && StackOf(s, i) != [] && Top(StackOf(s, i)).phase.Entering?
    requires Top(StackOf(s, i)).query in s.slots
    ensures StackHolds(rules, ViewOf(s), StackOf(Waited(s, i), i))
    ensures Top(StackOf(s, i)) == NewFrame(Top(StackOf(s, i)).query)
  {
    var stack := StackOf(s, i);
    assert FrameHolds(rules, ViewOf(s), Top(stack), ChildOf(stack, |stack| - 1));
    TopHolds(rules, ViewOf(s), stack, Top(stack).(phase := Waiting));
  }

  lemma WaitOwners(rules: Rules, s: State, i: SnapshotId)
    requires OwnershipHolds(s) && StackHolds(rules, ViewOf(s), StackOf(s, i))
    requires StackOf(s, i) != [] && Top(StackOf(s, i)) == NewFrame(Top(StackOf(s, i)).query)
    requires Top(StackOf(s, i)).query in s.slots
    ensures OwnershipHolds(Waited(s, i))
  {
    hide FrameHolds, OwnersListed, OwnersUnique, OwnersExist;
    var stack := StackOf(s, i);
    var q := Top(stack).query;
    var t := Waited(s, i);
    forall n, j: int, k
      ensures OwnsAt(StackOf(t, n), PromiseOf(t, n), j, k) <==> OwnsAt(StackOf(s, n), PromiseOf(s, n), j, k)
    {
      if n == i && 0 <= j < |stack| - 1 {
        assert StackOf(t, n)[j] == stack[j];
      }
    }
    SameOwners(s, t);
    forall n, k
      ensures WaitsFor(StackOf(t, n), PromiseOf(t, n), k) <==> WaitsIn(t.slots, n, k)
    {
      assert WaitsFor(StackOf(s, n), PromiseOf(s, n), k) <==> WaitsIn(s.slots, n, k);
    }
  }

  // ---------------------------------------------------------------- moves about one query

  ghost predicate SameAsideExcept(v: View, w: View, q: QueryKey) {
    forall k :: k != q ==> SameAside(v, w, k)
  }

  // Frames of other snapshots own other queries, so they do not notice.
  lemma StackElsewhere(rules: Rules, s: State, w: View, i: SnapshotId, q: QueryKey, n: SnapshotId)
    requires StackHolds(rules, ViewOf(s), StackOf(s, n)) && OwnersListed(s) && n != i
    requires q in s.slots ==> s.slots[q].owner == i
    requires LaterView(ViewOf(s), w) && SameAsideExcept(ViewOf(s), w, q)
    ensures StackHolds(rules, w, StackOf(s, n))
  {
    hide FrameHolds, LaterView, SameAside;
    var stack := StackOf(s, n);
    forall j | 0 <= j < |stack| && stack[j].inProgress
      ensures SameAside(ViewOf(s), w, stack[j].query)
    {
      assert OwnsAt(stack, PromiseOf(s, n), j, stack[j].query);
    }
    StackLater(rules, ViewOf(s), w, stack);
  }

  lemma StackHere(rules: Rules, v: View, w: View, stack: seq<Frame>, q: QueryKey, top: Frame)
    requires StackHolds(rules, v, stack) && stack != [] && top.query == Top(stack).query
    requires forall j :: 0 <= j < |stack| - 1 && stack[j].inProgress ==> stack[j].query != q
    requires LaterView(v, w) && SameAsideExcept(v, w, q) && FrameHolds(rules, w, top, None)
    ensures StackHolds(rules, w, WithTop(stack, top))
  {
    hide FrameHolds, LaterView, SameAside;
    var stack' := WithTop(stack, top);
    forall j | 0 <= j < |stack'|
      ensures FrameHolds(rules, w, stack'[j], ChildOf(stack', j))
    {
      if j < |stack| - 1 {
        assert FrameHolds(rules, v, stack[j], ChildOf(stack, j));
        FrameLater(rules, v, w, stack[j], ChildOf(stack, j));
      }
    }
  }

  // The frames below the one that owns `q`, or is about to, own other queries.
  lemma BelowOwnsOthers(s: State, i: SnapshotId)
    requires OwnersListed(s) && OwnersUnique(s) && StackOf(s, i) != []
    requires Top(StackOf(s, i)).inProgress || Top(StackOf(s, i)).query !in s.slots
    ensures var stack := StackOf(s, i);
            forall j :: 0 <= j < |stack| - 1 && stack[j].inProgress ==> stack[j].query != Top(stack).query
  {
    var stack := StackOf(s, i);
    forall j | 0 <= j < |stack| - 1 && stack[j].inProgress
      ensures stack[j].query != Top(stack).query
    {
      assert OwnsAt(stack, PromiseOf(s, i), j, stack[j].query);
      if stack[j].query == Top(stack).query {
        assert OwnsAt(stack, PromiseOf(s, i), |stack| - 1, stack[j].query);
      }
    }
  }

  // ---------------------------------------------------------------- starting a query

  lemma StartMove(rules: Rules, s: State, i: SnapshotId)
    requires Inv(rules, s) && StackOf(s, i) != [] && CanMove(s, i, Start)
    ensures Inv(rules, Started(s, i))
  {
    hide Sound, RepliesHold, SlotsHold, OwnersListed, OwnersUnique, OwnersExist, WaitersExact, StackHolds, PromisesHold, LaterView, SameAsideExcept;
    var stack := StackOf(s, i);
    var q := Top(stack).query;
    var t := Started(s, i);
    assert t.history == s.history && t.replies == s.replies && t.graph == s.graph;
    StartShape(s, i);
    hide Started, IsFresh;
    SnapshotGraph.Acquire(s.slots, s.graph, q, i);
    StartStorage(rules, s, i);
    StartView(s, i);
    BelowOwnsOthers(s, i);
    StartStack(rules, s, i);
    StartOwners(rules, s, i);
    StartPromises(s, i);
    forall n
      ensures StackHolds(rules, ViewOf(t), StackOf(t, n))
    {
      if n != i {
        assert StackHolds(rules, ViewOf(s), StackOf(s, n));
        StackElsewhere(rules, s, ViewOf(t), i, q, n);
      }
    }
    SameReplies(rules, s, t);
  }

  lemma StartStorage(rules: Rules, s: State, i: SnapshotId)
    requires StorageHolds(rules, s) && StackOf(s, i) != [] && Top(StackOf(s, i)).query !in s.slots
    ensures StorageHolds(rules, Started(s, i))
  {
    hide Sound;
    var q := Top(StackOf(s, i)).query;
    if q in s.entries {
      SetAside(s.entries, s.suspended, q);
    } else {
      assert s.entries - {q} == s.entries;
    }
  }

  // Moving an entry from the cache aside, and storing one over what was set aside.
  lemma SetAside(entries: map<QueryKey, Entry>, suspended: map<QueryKey, Entry>, q: QueryKey)
    requires q in entries && q !in suspended
    ensures (entries - {q}) + suspended[q := entries[q]] == entries + suspended
  {
  }

  lemma PutBack(entries: map<QueryKey, Entry>, suspended: map<QueryKey, Entry>, q: QueryKey, e: Entry)
    ensures entries[q := e] + (suspended - {q}) == (entries + suspended)[q := e]
  {
  }

  lemma StartView(s: State, i: SnapshotId)
    requires StackOf(s, i) != [] && !IsFresh(s, Top(StackOf(s, i)).query)
    ensures LaterView(ViewOf(s), ViewOf(Started(s, i)))
    ensures SameAsideExcept(ViewOf(s), ViewOf(Started(s, i)), Top(StackOf(s, i)).query)
  {
  }

  lemma StartStack(rules: Rules, s: State, i: SnapshotId)
    requires StorageHolds(rules, s) && StackHolds(rules, ViewOf(s), StackOf(s, i)) && StackOf(s, i) != []
    requires CanMove(s, i, Start)
    requires var stack := StackOf(s, i);
             forall j :: 0 <= j < |stack| - 1 && stack[j].inProgress ==> stack[j].query != Top(stack).query
    ensures StackHolds(rules, ViewOf(Started(s, i)), StackOf(Started(s, i), i))
    ensures Top(StackOf(s, i)) == NewFrame(Top(StackOf(s, i)).query)
  {
    hide Sound, StackHolds, LaterView, SameAsideExcept, FrameHolds;
    var stack := StackOf(s, i);
    var t := Started(s, i);
    StartView(s, i);
    EnteringFrame(rules, ViewOf(s), stack);
    StartFrame(rules, s, i);
    StackHere(rules, ViewOf(s), ViewOf(t), stack, Top(stack).query, Top(StackOf(t, i)));
  }

  lemma StartFrame(rules: Rules, s: State, i: SnapshotId)
    requires s.suspended.Keys <= s.slots.Keys && StackOf(s, i) != [] && Top(StackOf(s, i)) == NewFrame(Top(StackOf(s, i)).query)
    requires !Top(StackOf(s, i)).query.IsInput() && Top(StackOf(s, i)).query !in s.slots
    ensures FrameHolds(rules, ViewOf(Started(s, i)), Top(StackOf(Started(s, i), i)), None)
  {
    hide InScope;
  }

  lemma EnteringFrame(rules: Rules, v: View, stack: seq<Frame>)
    requires StackHolds(rules, v, stack) && stack != []
    ensures !Top(stack).query.IsInput()
    ensures Top(stack).phase.Entering? ==> Top(stack) == NewFrame(Top(stack).query)
    ensures Top(stack).phase.Verifying? || Top(stack).phase.Computing? ==> Top(stack).inProgress
  {
    assert FrameHolds(rules, v, Top(stack), ChildOf(stack, |stack| - 1));
  }

  lemma StartOwners(rules: Rules, s: State, i: SnapshotId)
    requires OwnershipHolds(s) && StackOf(s, i) != [] && Top(StackOf(s, i)) == NewFrame(Top(StackOf(s, i)).query)
    requires Top(StackOf(s, i)).query !in s.slots
    ensures OwnershipHolds(Started(s, i))
  {
    StartShape(s, i);
    hide OwnersListed, OwnersUnique, OwnersExist, WaitersExact, Started, OwnsAt;
    var t := Started(s, i);
    var top := Top(StackOf(t, i));
    OwnTop(s, t, i, top);
    OwnerGained(s, t, i, |StackOf(s, i)| - 1, top.query);
    StartWaiters(s, t, i, top);
  }

  lemma StartShape(s: State, i: SnapshotId)
    requires StackOf(s, i) != []
    ensures var t := Started(s, i);
            && StackOf(t, i) != [] && t.promises == s.promises
            && t.stacks == s.stacks[i := WithTop(StackOf(s, i), Top(StackOf(t, i)))]
            && Top(StackOf(t, i)).query == Top(StackOf(s, i)).query && Top(StackOf(t, i)).inProgress
            && !Top(StackOf(t, i)).phase.Waiting?
            && t.slots == s.slots[Top(StackOf(s, i)).query := Slot(i, [])]
  {
  }

  // The frame on top becomes an owner.
  lemma OwnTop(s: State, t: State, i: SnapshotId, top: Frame)
    requires StackOf(s, i) != [] && Top(StackOf(s, i)) == NewFrame(top.query)
    requires t.stacks == s.stacks[i := WithTop(StackOf(s, i), top)] && t.promises == s.promises && top.inProgress
    ensures forall n, j, k :: OwnsAt(StackOf(t, n), PromiseOf(t, n), j, k)
              <==> OwnsAt(StackOf(s, n), PromiseOf(s, n), j, k) || (n == i && j == |StackOf(s, i)| - 1 && k == top.query)
  {
    var stack := StackOf(s, i);
    forall n, j: int, k
      ensures OwnsAt(StackOf(t, n), PromiseOf(t, n), j, k)
         <==> OwnsAt(StackOf(s, n), PromiseOf(s, n), j, k) || (n == i && j == |stack| - 1 && k == top.query)
    {
      if n == i && 0 <= j < |stack| - 1 {
        assert StackOf(t, n)[j] == stack[j];
      }
    }
  }

  lemma StartWaiters(s: State, t: State, i: SnapshotId, top: Frame)
    requires WaitersExact(s) && StackOf(s, i) != [] && !Top(StackOf(s, i)).phase.Waiting? && !top.phase.Waiting?
    requires t.stacks == s.stacks[i := WithTop(StackOf(s, i), top)] && t.promises == s.promises
    requires top.query !in s.slots && t.slots == s.slots[top.query := Slot(i, [])]
    ensures WaitersExact(t)
  {
    forall n, k
      ensures WaitsFor(StackOf(t, n), PromiseOf(t, n), k) <==> WaitsIn(t.slots, n, k)
    {
      assert WaitsFor(StackOf(s, n), PromiseOf(s, n), k) <==> WaitsIn(s.slots, n, k);
    }
  }

  // A frame that becomes the owner of a query that nobody owns.
  lemma OwnerGained(s: State, t: State, i: SnapshotId, top: int, q: QueryKey)
    requires OwnersListed(s) && OwnersUnique(s) && OwnersExist(s)
    requires q !in s.slots && t.slots.Keys == s.slots.Keys + {q} && t.slots[q].owner == i
    requires forall k :: k in s.slots ==> t.slots[k].owner == s.slots[k].owner
    requires forall n, j, k :: OwnsAt(StackOf(t, n), PromiseOf(t, n), j, k)
               <==> OwnsAt(StackOf(s, n), PromiseOf(s, n), j, k) || (n == i && j == top && k == q)
    ensures OwnersListed(t) && OwnersUnique(t) && OwnersExist(t)
  {
    hide OwnsAt;
    forall k | k in t.slots
      ensures HasOwner(t, k)
    {
      if k == q {
        assert OwnsAt(StackOf(t, i), PromiseOf(t, i), top, q);
      } else {
        assert k in s.slots && HasOwner(s, k);
        var o := s.slots[k].owner;
        var j :| OwnsAt(StackOf(s, o), PromiseOf(s, o), j, k);
        assert OwnsAt(StackOf(t, o), PromiseOf(t, o), j, k);
      }
    }
  }

  lemma StartPromises(s: State, i: SnapshotId)
    requires PromisesHold(s) && OwnersListed(s) && StackOf(s, i) != [] && CanMove(s, i, Start)
    ensures PromisesHold(Started(s, i))
  {
    var q := Top(StackOf(s, i)).query;
    var t := Started(s, i);
    StartShape(s, i);
    StartView(s, i);
    hide Started;
    forall n
      ensures PromiseHolds(t, StackOf(t, n), PromiseOf(t, n))
    {
      if n != i {
        StartPromise(s, t, q, StackOf(s, n), PromiseOf(s, n), n);
      }
    }
  }

  lemma StartPromise(s: State, t: State, q: QueryKey, stack: seq<Frame>, promise: Promise, n: SnapshotId)
    requires PromisesHold(s) && OwnersListed(s) && stack == StackOf(s, n) && promise == PromiseOf(s, n) && q !in s.slots
    requires LaterView(ViewOf(s), ViewOf(t)) && SameAsideExcept(ViewOf(s), ViewOf(t), q)
    ensures PromiseHolds(t, stack, promise)
  {
    assert PromiseHolds(s, stack, promise);
    if stack != [] && Top(stack).phase.Waiting? {
      var k := Top(stack).query;
      if promise.Transferred? {
        assert OwnsAt(stack, promise, |stack| - 1, k);
        assert SameAside(ViewOf(s), ViewOf(t), k);
      } else if promise.Fulfilled? {
        assert FreshIn(ViewOf(s), k);
      }
    }
  }

  // ---------------------------------------------------------------- storing a result

  ghost predicate OwnsTop(s: State, i: SnapshotId) {
    && StackOf(s, i) != [] && Top(StackOf(s, i)).inProgress
    && Top(StackOf(s, i)).query in s.slots && s.slots[Top(StackOf(s, i)).query].owner == i
  }

  lemma TopIsOwner(rules: Rules, s: State, i: SnapshotId)
    requires Inv(rules, s) && StackOf(s, i) != [] && Top(StackOf(s, i)).inProgress
    ensures OwnsTop(s, i) && !Top(StackOf(s, i)).query.IsInput() && !Top(StackOf(s, i)).phase.Waiting?
  {
    hide StorageHolds, SlotsHold, RepliesHold, OwnersUnique, OwnersExist, WaitersExact, PromisesHold;
    var stack := StackOf(s, i);
    assert OwnsAt(stack, PromiseOf(s, i), |stack| - 1, Top(stack).query);
    assert FrameHolds(rules, ViewOf(s), Top(stack), ChildOf(stack, |stack| - 1));
  }

  lemma StoreMove(rules: Rules, s: State, i: SnapshotId, entry: Entry)
    requires Inv(rules, s) && StackOf(s, i) != [] && OwnsTop(s, i)
    requires Sound(rules, Logical(s).(entries := Logical(s).entries[Top(StackOf(s, i)).query := entry]))
    requires entry.trace.built == s.revision
    ensures Inv(rules, Stored(s, i, entry))
  {
    hide Sound, RepliesHold, SlotsHold, OwnersListed, OwnersUnique, OwnersExist, WaitersExact, StackHolds, PromisesHold, LaterView, SameAsideExcept, Stored;
    var q := Top(StackOf(s, i)).query;
    var t := Stored(s, i, entry);
    TopIsOwner(rules, s, i);
    StoreStorage(rules, s, i, entry);
    StoreSlots(s, i, entry);
    StoreView(rules, s, i, entry);
    StoreStack(rules, s, i, entry);
    StoreOwners(rules, s, i, entry);
    StorePromises(rules, s, i, entry);
    StoreElsewhere(s, i, entry);
    forall n
      ensures StackHolds(rules, ViewOf(t), StackOf(t, n))
    {
      if n != i {
        assert StackHolds(rules, ViewOf(s), StackOf(s, n));
        StackElsewhere(rules, s, ViewOf(t), i, q, n);
      }
    }
    SameReplies(rules, s, t);
  }

  lemma StoreElsewhere(s: State, i: SnapshotId, entry: Entry)
    requires OwnsTop(s, i)
    ensures forall n :: n != i ==> StackOf(Stored(s, i, entry), n) == StackOf(s, n)
    ensures Stored(s, i, entry).history == s.history && Stored(s, i, entry).replies == s.replies
  {
  }

  lemma StoreStorage(rules: Rules, s: State, i: SnapshotId, entry: Entry)
    requires StorageHolds(rules, s) && OwnsTop(s, i)
    requires Sound(rules, Logical(s).(entries := Logical(s).entries[Top(StackOf(s, i)).query := entry]))
    ensures StorageHolds(rules, Stored(s, i, entry))
  {
    hide Sound;
    PutBack(s.entries, s.suspended, Top(StackOf(s, i)).query, entry);
  }

  lemma StoreSlots(s: State, i: SnapshotId, entry: Entry)
    requires SlotsHold(s.slots, s.graph) && OwnsTop(s, i)
    ensures SlotsHold(Stored(s, i, entry).slots, Stored(s, i, entry).graph)
  {
    hide SlotsHold;
    Release(s.slots, s.graph, Top(StackOf(s, i)).query);
  }

  lemma StoreView(rules: Rules, s: State, i: SnapshotId, entry: Entry)
    requires StorageHolds(rules, s) && OwnsTop(s, i)
    ensures LaterView(ViewOf(s), ViewOf(Stored(s, i, entry)))
    ensures SameAsideExcept(ViewOf(s), ViewOf(Stored(s, i, entry)), Top(StackOf(s, i)).query)
  {
    hide Sound;
  }

  lemma StoreStack(rules: Rules, s: State, i: SnapshotId, entry: Entry)
    requires StorageHolds(rules, s) && StackHolds(rules, ViewOf(s), StackOf(s, i)) && OwnsTop(s, i)
    requires OwnersListed(s) && OwnersUnique(s) && entry.trace.built == s.revision
    requires !Top(StackOf(s, i)).query.IsInput()
    ensures StackHolds(rules, ViewOf(Stored(s, i, entry)), StackOf(Stored(s, i, entry), i))
  {
    hide Sound, StackHolds, OwnersListed, OwnersUnique, LaterView, SameAsideExcept;
    var stack := StackOf(s, i);
    var t := Stored(s, i, entry);
    BelowOwnsOthers(s, i);
    StoreView(rules, s, i, entry);
    StackHere(rules, ViewOf(s), ViewOf(t), stack, Top(stack).query, Top(StackOf(t, i)));
  }

  // Only waiters get a new promise, and theirs was pending.
  lemma WaitersPending(s: State, q: QueryKey, w: SnapshotId)
    requires WaitersExact(s) && q in s.slots && w in s.slots[q].waiters
    ensures StackOf(s, w) != [] && Top(StackOf(s, w)).phase.Waiting? && Top(StackOf(s, w)).query == q
    ensures PromiseOf(s, w).Pending?
  {
    assert WaitsIn(s.slots, w, q);
    assert WaitsFor(StackOf(s, w), PromiseOf(s, w), q);
  }

  lemma StoreOwners(rules: Rules, s: State, i: SnapshotId, entry: Entry)
    requires OwnershipHolds(s) && OwnsTop(s, i) && !Top(StackOf(s, i)).phase.Waiting?
    ensures OwnershipHolds(Stored(s, i, entry))
  {
    hide OwnersListed, OwnersUnique, OwnersExist, WaitersExact;
    var t := Stored(s, i, entry);
    forall n
      ensures PromiseOf(t, n) == PromiseOf(s, n) || (PromiseOf(s, n).Pending? && PromiseOf(t, n).Fulfilled?)
    {
      if n in s.slots[Top(StackOf(s, i)).query].waiters {
        WaitersPending(s, Top(StackOf(s, i)).query, n);
      }
    }
    DisownTop(s, t, i, Top(StackOf(t, i)));
    OwnerLost(s, t, i, |StackOf(s, i)| - 1, Top(StackOf(s, i)).query);
    StoreWaiters(s, i, entry);
  }

  // The frame on top stops being an owner; promises change only from pending to fulfilled.
  lemma DisownTop(s: State, t: State, i: SnapshotId, top: Frame)
    requires WaitersExact(s) && OwnsTop(s, i) && top.query == Top(StackOf(s, i)).query
    requires t.stacks == s.stacks[i := WithTop(StackOf(s, i), top)] && !top.inProgress && !top.phase.Waiting?
    requires forall n :: PromiseOf(t, n) == PromiseOf(s, n) || (PromiseOf(s, n).Pending? && PromiseOf(t, n).Fulfilled?)
    ensures forall n, j, k :: OwnsAt(StackOf(t, n), PromiseOf(t, n), j, k)
              <==> OwnsAt(StackOf(s, n), PromiseOf(s, n), j, k) && !(n == i && j == |StackOf(s, i)| - 1)
  {
    var stack := StackOf(s, i);
    forall n, j: int, k
      ensures OwnsAt(StackOf(t, n), PromiseOf(t, n), j, k)
         <==> OwnsAt(StackOf(s, n), PromiseOf(s, n), j, k) && !(n == i && j == |stack| - 1)
    {
      if n == i && 0 <= j < |stack| - 1 {
        assert StackOf(t, n)[j] == stack[j];
      }
    }
  }

  lemma OwnerLost(s: State, t: State, i: SnapshotId, top: int, q: QueryKey)
    requires OwnersListed(s) && OwnersUnique(s) && OwnersExist(s)
    requires q in s.slots && t.slots == s.slots - {q} && OwnsAt(StackOf(s, i), PromiseOf(s, i), top, q)
    requires forall n, j, k :: OwnsAt(StackOf(t, n), PromiseOf(t, n), j, k)
               <==> OwnsAt(StackOf(s, n), PromiseOf(s, n), j, k) && !(n == i && j == top)
    ensures OwnersListed(t) && OwnersUnique(t) && OwnersExist(t)
  {
    assert forall j :: OwnsAt(StackOf(s, i), PromiseOf(s, i), j, q) ==> j == top;
    assert forall k :: OwnsAt(StackOf(s, i), PromiseOf(s, i), top, k) ==> k == q;
    hide OwnsAt;
    forall k | k in t.slots
      ensures HasOwner(t, k)
    {
      assert k in s.slots && HasOwner(s, k);
      var o := s.slots[k].owner;
      var j :| OwnsAt(StackOf(s, o), PromiseOf(s, o), j, k);
      assert OwnsAt(StackOf(t, o), PromiseOf(t, o), j, k);
    }
  }

  lemma StoreWaiters(s: State, i: SnapshotId, entry: Entry)
    requires WaitersExact(s) && OwnsTop(s, i) && !Top(StackOf(s, i)).phase.Waiting?
    ensures WaitersExact(Stored(s, i, entry))
  {
    var q := Top(StackOf(s, i)).query;
    var t := Stored(s, i, entry);
    forall n, k
      ensures WaitsFor(StackOf(t, n), PromiseOf(t, n), k) <==> WaitsIn(t.slots, n, k)
    {
      assert WaitsFor(StackOf(s, n), PromiseOf(s, n), k) <==> WaitsIn(s.slots, n, k);
      if n in s.slots[q].waiters {
        WaitersPending(s, q, n);
      }
    }
  }

  lemma StorePromises(rules: Rules, s: State, i: SnapshotId, entry: Entry)
    requires PromisesHold(s) && StorageHolds(rules, s) && WaitersExact(s) && OwnsTop(s, i)
    requires !Top(StackOf(s, i)).phase.Waiting? && entry.trace.built == s.revision
    ensures PromisesHold(Stored(s, i, entry))
  {
    hide Sound;
    var q := Top(StackOf(s, i)).query;
    var t := Stored(s, i, entry);
    forall n
      ensures PromiseHolds(t, StackOf(t, n), PromiseOf(t, n))
    {
      assert PromiseHolds(s, StackOf(s, n), PromiseOf(s, n));
      if n in s.slots[q].waiters {
        WaitersPending(s, q, n);
      }
    }
  }

  // ---------------------------------------------------------------- cleaning up after a failure

  // The state after a failed query gave up its slot, with its frame still on the stack.
  function GivenUp(s: State, i: SnapshotId): State
    requires StackOf(s, i) != [] && Top(StackOf(s, i)).query in s.slots
  {
    var stack := StackOf(s, i);
    WithStack(CleanedUp(s, Top(stack).query), i, WithTop(stack, Top(stack).(inProgress := false)))
  }

  lemma GiveUpMove(rules: Rules, s: State, i: SnapshotId)
    requires Inv(rules, s) && OwnsTop(s, i)
    requires Top(StackOf(s, i)).phase.Leaving? && Top(StackOf(s, i)).phase.result.Err?
    ensures Inv(rules, GivenUp(s, i))
  {
    hide Sound, RepliesHold, SlotsHold, OwnersListed, OwnersUnique, OwnersExist, WaitersExact, StackHolds, PromisesHold, LaterView, SameAsideExcept, GivenUp;
    var q := Top(StackOf(s, i)).query;
    var t := GivenUp(s, i);
    TopIsOwner(rules, s, i);
    GiveUpStorage(rules, s, i);
    GiveUpSlots(s, i);
    GiveUpView(s, i);
    GiveUpStack(rules, s, i);
    WaitersDistinct(s.slots, s.graph, q);
    TopsWait(rules, s);
    GiveUpOwners(rules, s, i);
    GiveUpPromises(s, i);
    forall n
      ensures StackHolds(rules, ViewOf(t), StackOf(t, n))
    {
      if n != i {
        assert StackHolds(rules, ViewOf(s), StackOf(s, n));
        StackElsewhere(rules, s, ViewOf(t), i, q, n);
      }
    }
    SameReplies(rules, s, t);
  }

  lemma GiveUpStorage(rules: Rules, s: State, i: SnapshotId)
    requires StorageHolds(rules, s) && OwnsTop(s, i)
    ensures StorageHolds(rules, GivenUp(s, i))
  {
    hide Sound;
    hide HandedOff;
    Forget(rules, Logical(s), s.entries + (s.suspended - {Top(StackOf(s, i)).query}));
  }

  lemma GiveUpSlots(s: State, i: SnapshotId)
    requires SlotsHold(s.slots, s.graph) && OwnsTop(s, i)
    ensures SlotsHold(GivenUp(s, i).slots, GivenUp(s, i).graph)
  {
    hide SlotsHold;
    var q := Top(StackOf(s, i)).query;
    if s.slots[q].waiters == [] {
      Release(s.slots, s.graph, q);
      assert Released(s.graph, []) == s.graph;
    } else {
      HandOff(s.slots, s.graph, q);
    }
  }

  lemma GiveUpView(s: State, i: SnapshotId)
    requires OwnsTop(s, i)
    ensures var t := GivenUp(s, i);
            && LaterView(ViewOf(s), ViewOf(t)) && SameAsideExcept(ViewOf(s), ViewOf(t), Top(StackOf(s, i)).query)
            && (forall n :: n != i ==> StackOf(t, n) == StackOf(s, n))
            && t.history == s.history && t.replies == s.replies
  {
    var q := Top(StackOf(s, i)).query;
    var t := GivenUp(s, i);
    assert t.stacks == s.stacks[i := StackOf(t, i)] && t.history == s.history && t.replies == s.replies;
    assert ViewOf(t) == ViewOf(s).(suspended := s.suspended - {q});
    hide GivenUp, ViewOf;
    AsideView(ViewOf(s), q);
  }

  lemma AsideView(v: View, q: QueryKey)
    ensures LaterView(v, v.(suspended := v.suspended - {q})) && SameAsideExcept(v, v.(suspended := v.suspended - {q}), q)
  {
  }

  lemma GiveUpStack(rules: Rules, s: State, i: SnapshotId)
    requires StackHolds(rules, ViewOf(s), StackOf(s, i)) && OwnsTop(s, i)
    requires OwnersListed(s) && OwnersUnique(s) && !Top(StackOf(s, i)).query.IsInput()
    requires Top(StackOf(s, i)).phase.Leaving? && Top(StackOf(s, i)).phase.result.Err?
    ensures StackHolds(rules, ViewOf(GivenUp(s, i)), StackOf(GivenUp(s, i), i))
  {
    hide StackHolds, OwnersListed, OwnersUnique, LaterView, SameAsideExcept;
    var stack := StackOf(s, i);
    var t := GivenUp(s, i);
    BelowOwnsOthers(s, i);
    GiveUpView(s, i);
    StackHere(rules, ViewOf(s), ViewOf(t), stack, Top(stack).query, Top(StackOf(t, i)));
  }

  lemma GiveUpOwners(rules: Rules, s: State, i: SnapshotId)
    requires OwnershipHolds(s) && OwnsTop(s, i) && !Top(StackOf(s, i)).phase.Waiting?
    requires Graphs.NoDuplicates(s.slots[Top(StackOf(s, i)).query].waiters) && OnlyTopWaits(s)
    ensures OwnershipHolds(GivenUp(s, i))
  {
    hide OwnersListed, OwnersUnique, OwnersExist, WaitersExact, OwnsAt;
    var q := Top(StackOf(s, i)).query;
    var t := GivenUp(s, i);
    if s.slots[q].waiters == [] {
      DisownTop(s, t, i, Top(StackOf(t, i)));
      assert OwnsAt(StackOf(s, i), PromiseOf(s, i), |StackOf(s, i)| - 1, q) by {
        OwnsTopAt(s, i);
      }
      OwnerLost(s, t, i, |StackOf(s, i)| - 1, q);
      ForgetWaiters(s, i);
    } else {
      HandOffOwners(s, i);
      HandOffWaiters(s, i);
    }
  }

  lemma OwnsTopAt(s: State, i: SnapshotId)
    requires OwnsTop(s, i)
    ensures OwnsAt(StackOf(s, i), PromiseOf(s, i), |StackOf(s, i)| - 1, Top(StackOf(s, i)).query)
  {
  }

  lemma ForgetWaiters(s: State, i: SnapshotId)
    requires WaitersExact(s) && OwnsTop(s, i) && !Top(StackOf(s, i)).phase.Waiting?
    requires s.slots[Top(StackOf(s, i)).query].waiters == []
    ensures WaitersExact(GivenUp(s, i))
  {
    var t := GivenUp(s, i);
    forall n, k
      ensures WaitsFor(StackOf(t, n), PromiseOf(t, n), k) <==> WaitsIn(t.slots, n, k)
    {
      assert WaitsFor(StackOf(s, n), PromiseOf(s, n), k) <==> WaitsIn(s.slots, n, k);
    }
  }

  lemma WaitersDistinct(slots: map<QueryKey, Slot>, g: WaitFor, q: QueryKey)
    requires SlotsHold(slots, g) && q in slots
    ensures Graphs.NoDuplicates(slots[q].waiters)
  {
    hide Acyclic;
  }

  ghost predicate OnlyTopWaits(s: State) {
    forall n, j :: 0 <= j < |StackOf(s, n)| - 1 ==> !StackOf(s, n)[j].phase.Waiting?
  }

  lemma TopsWait(rules: Rules, s: State)
    requires forall i :: StackHolds(rules, ViewOf(s), StackOf(s, i))
    ensures OnlyTopWaits(s)
  {
    hide FrameHolds;
    forall n, j | 0 <= j < |StackOf(s, n)| - 1
      ensures !StackOf(s, n)[j].phase.Waiting?
    {
      assert StackHolds(rules, ViewOf(s), StackOf(s, n));
    }
  }

  function HeirOf(s: State, q: QueryKey): SnapshotId
    requires q in s.slots && s.slots[q].waiters != []
  {
    s.slots[q].waiters[|s.slots[q].waiters| - 1]
  }

  lemma HandOffOwners(s: State, i: SnapshotId)
    requires OwnershipHolds(s) && OwnsTop(s, i) && !Top(StackOf(s, i)).phase.Waiting?
    requires s.slots[Top(StackOf(s, i)).query].waiters != [] && OnlyTopWaits(s)
    ensures OwnersListed(GivenUp(s, i)) && OwnersUnique(GivenUp(s, i)) && OwnersExist(GivenUp(s, i))
  {
    hide OwnersListed, OwnersUnique, OwnersExist, WaitersExact;
    var stack := StackOf(s, i);
    var q := Top(stack).query;
    var heir := HeirOf(s, q);
    var t := GivenUp(s, i);
    WaitersPending(s, q, heir);
    var last := |StackOf(s, heir)| - 1;
    forall n, j: int, k
      ensures OwnsAt(StackOf(t, n), PromiseOf(t, n), j, k)
         <==> (OwnsAt(StackOf(s, n), PromiseOf(s, n), j, k) && !(n == i && j == |stack| - 1))
              || (n == heir && j == last && k == q)
    {
      if n == i && 0 <= j < |stack| - 1 {
        assert StackOf(t, n)[j] == stack[j];
      }
      assert n == heir && 0 <= j < last ==> !StackOf(s, n)[j].phase.Waiting?;
    }
    OwnsTopAt(s, i);
    OwnerPassed(s, t, i, |stack| - 1, heir, last, q);
  }

  lemma OwnerPassed(s: State, t: State, i: SnapshotId, top: int, heir: SnapshotId, last: int, q: QueryKey)
    requires OwnersListed(s) && OwnersUnique(s) && OwnersExist(s)
    requires q in s.slots && t.slots.Keys == s.slots.Keys && t.slots[q].owner == heir != i
    requires forall k :: k in s.slots && k != q ==> t.slots[k].owner == s.slots[k].owner
    requires OwnsAt(StackOf(s, i), PromiseOf(s, i), top, q)
    requires forall n, j, k :: OwnsAt(StackOf(t, n), PromiseOf(t, n), j, k)
               <==> (OwnsAt(StackOf(s, n), PromiseOf(s, n), j, k) && !(n == i && j == top))
                    || (n == heir && j == last && k == q)
    ensures OwnersListed(t) && OwnersUnique(t) && OwnersExist(t)
  {
    assert forall j :: OwnsAt(StackOf(s, i), PromiseOf(s, i), j, q) ==> j == top;
    assert forall k :: OwnsAt(StackOf(s, i), PromiseOf(s, i), top, k) ==> k == q;
    hide OwnsAt;
    forall k | k in t.slots
      ensures HasOwner(t, k)
    {
      if k == q {
        assert OwnsAt(StackOf(t, heir), PromiseOf(t, heir), last, q);
      } else {
        assert k in s.slots && HasOwner(s, k);
        var o := s.slots[k].owner;
        var j :| OwnsAt(StackOf(s, o), PromiseOf(s, o), j, k);
        assert OwnsAt(StackOf(t, o), PromiseOf(t, o), j, k);
      }
    }
  }

  lemma HandOffWaiters(s: State, i: SnapshotId)
    requires WaitersExact(s) && OwnsTop(s, i) && !Top(StackOf(s, i)).phase.Waiting?
    requires s.slots[Top(StackOf(s, i)).query].waiters != []
    requires Graphs.NoDuplicates(s.slots[Top(StackOf(s, i)).query].waiters)
    ensures WaitersExact(GivenUp(s, i))
  {
    var q := Top(StackOf(s, i)).query;
    var heir := HeirOf(s, q);
    var t := GivenUp(s, i);
    WaitersPending(s, q, heir);
    var n := |s.slots[q].waiters| - 1;
    assert s.slots[q].waiters == s.slots[q].waiters[..n] + [heir];
    forall w, k
      ensures WaitsFor(StackOf(t, w), PromiseOf(t, w), k) <==> WaitsIn(t.slots, w, k)
    {
      assert WaitsFor(StackOf(s, w), PromiseOf(s, w), k) <==> WaitsIn(s.slots, w, k);
    }
  }

  lemma GiveUpPromises(s: State, i: SnapshotId)
    requires PromisesHold(s) && WaitersExact(s) && OwnsTop(s, i) && !Top(StackOf(s, i)).phase.Waiting?
    ensures PromisesHold(GivenUp(s, i))
  {
    var q := Top(StackOf(s, i)).query;
    var t := GivenUp(s, i);
    if s.slots[q].waiters != [] {
      WaitersPending(s, q, HeirOf(s, q));
    }
    forall n
      ensures PromiseHolds(t, StackOf(t, n), PromiseOf(t, n))
    {
      assert PromiseHolds(s, StackOf(s, n), PromiseOf(s, n));
    }
  }

  // ---------------------------------------------------------------- leaving a query

  lemma DeliveredHolds(rules: Rules, s: State, f: Frame, child: Frame)
    requires StorageHolds(rules, s) && child.phase.Leaving? && !child.query.IsInput()
    requires FrameHolds(rules, ViewOf(s), f, Some(child.query)) && (f.phase.Verifying? || f.phase.Computing?)
    requires FrameHolds(rules, ViewOf(s), child, None)
    ensures FrameHolds(rules, ViewOf(s), Delivered(f, child.phase.result), None)
  {
    hide StorageHolds, IsValue, VerifiedIn, Genuine, ReadsListed, OnlyReads;
    var r := child.phase.result;
    if f.phase.Computing? {
      if r.Ok? {
        FreshValue(rules, s, child.query);
        AnswerHolds(rules, ViewOf(s), f, child.query, r.value);
      } else if r.error.Unverifiable? || r.error.Cancelled? {
        RefusalHolds(rules, ViewOf(s), f, child.query, r.error);
      }
    } else {
      NothingRead(rules, Values(s.inputs), f.query);
    }
  }

  lemma RefusalHolds(rules: Rules, v: View, f: Frame, d: QueryKey, error: Unavailability)
    requires f.phase.Computing? && ComputingHolds(rules, v, f, Some(d))
    ensures ComputingHolds(rules, v, Delivered(f, Err(error)), None)
  {
    hide Genuine, ReadsListed, OnlyReads;
    var answers := f.phase.answers;
    ReadsExtend(rules, f.query, answers, Unavailable(error), f.dependencies, f.dependencies);
    OnlyReadsExtend(rules, f.query, answers, Unavailable(error), f.dependencies - {d});
    assert f.dependencies - {d} + {d} == f.dependencies;
  }

  lemma AnswerHolds(rules: Rules, v: View, f: Frame, d: QueryKey, w: Value)
    requires f.phase.Computing? && ComputingHolds(rules, v, f, Some(d)) && !d.IsInput()
    requires FreshIn(v, d) && IsValue(rules, Values(v.inputs), d, w)
    ensures ComputingHolds(rules, v, Delivered(f, Ok(w)), None)
  {
    hide IsValue, Genuine, ReadsListed, OnlyReads;
    var answers := f.phase.answers;
    if f.unavailable.None? {
      GenuineExtend(rules, Values(v.inputs), f.query, answers, Present(w));
    }
    ReadsExtend(rules, f.query, answers, Present(w), f.dependencies, f.dependencies);
    OnlyReadsExtend(rules, f.query, answers, Present(w), f.dependencies - {d});
    assert f.dependencies - {d} + {d} == f.dependencies;
  }

  lemma FreshValue(rules: Rules, s: State, k: QueryKey)
    requires StorageHolds(rules, s) && IsFresh(s, k)
    ensures IsValue(rules, Values(s.inputs), k, s.entries[k].value)
  {
    assert k !in s.suspended;
    CurrentIsValue(rules, Logical(s), k);
  }

  // Leaving a query that is not in progress.
  lemma LeaveMove(rules: Rules, s: State, i: SnapshotId)
    requires Inv(rules, s) && StackOf(s, i) != []
    requires Top(StackOf(s, i)).phase.Leaving? && !Top(StackOf(s, i)).inProgress
    ensures Inv(rules, Exited(s, i))
  {
    hide SlotsHold, OwnershipHolds, PromisesHold, RepliesHold, Sound, FrameHolds;
    var stack := StackOf(s, i);
    var child := Top(stack);
    assert FrameHolds(rules, ViewOf(s), child, ChildOf(stack, |stack| - 1));
    if |stack| == 1 {
      EmptyRole(stack, PromiseOf(s, i));
      StackMove(rules, s, i, []);
      LastReply(rules, s, i);
    } else {
      var f := stack[|stack| - 2];
      assert FrameHolds(rules, ViewOf(s), f, ChildOf(stack, |stack| - 2));
      QueryIsDerived(rules, ViewOf(s), child);
      DeliveredHolds(rules, s, f, child);
      PopHolds(rules, ViewOf(s), stack, Delivered(f, child.phase.result));
      DeliverRole(rules, ViewOf(s), stack, PromiseOf(s, i));
      StackMove(rules, s, i, WithTop(stack[..|stack| - 1], Delivered(f, child.phase.result)));
    }
  }

  lemma QueryIsDerived(rules: Rules, v: View, f: Frame)
    requires FrameHolds(rules, v, f, None)
    ensures !f.query.IsInput()
  {
  }

  lemma EmptyRole(stack: seq<Frame>, promise: Promise)
    requires |stack| == 1 && Top(stack).phase.Leaving? && !Top(stack).inProgress
    ensures SameRole(stack, [], promise)
  {
  }

  lemma DeliverRole(rules: Rules, v: View, stack: seq<Frame>, promise: Promise)
    requires |stack| > 1 && Top(stack).phase.Leaving? && !Top(stack).inProgress
    requires StackHolds(rules, v, stack)
    ensures var f := stack[|stack| - 2];
            SameRole(stack, WithTop(stack[..|stack| - 1], Delivered(f, Top(stack).phase.result)), promise)
  {
    hide FrameHolds;
    var f := stack[|stack| - 2];
    var after := WithTop(stack[..|stack| - 1], Delivered(f, Top(stack).phase.result));
    assert f.phase.Verifying? || f.phase.Computing?;
    forall j: int, k
      ensures OwnsAt(after, promise, j, k) <==> OwnsAt(stack, promise, j, k)
    {
      assert 0 <= j < |stack| - 2 ==> after[j] == stack[j];
    }
  }

  // The last frame answers the outside.
  lemma LastReply(rules: Rules, s: State, i: SnapshotId)
    requires Inv(rules, s) && Inv(rules, WithStack(s, i, [])) && |StackOf(s, i)| == 1
    requires Top(StackOf(s, i)).phase.Leaving? && !Top(StackOf(s, i)).inProgress
    ensures Inv(rules, Exited(s, i))
  {
    var t := WithStack(s, i, []);
    var u := Exited(s, i);
    var child := Top(StackOf(s, i));
    assert u == t.(replies := s.replies + [Reply(child.query, s.revision, child.phase.result)]);
    assert RepliesHold(rules, u) by {
      hide SlotsHold, OwnershipHolds, PromisesHold;
      assert StackHolds(rules, ViewOf(s), StackOf(s, i));
      assert FrameHolds(rules, ViewOf(s), child, ChildOf(StackOf(s, i), 0));
      ReplyHolds(rules, s, child);
    }
    hide StorageHolds, SlotsHold, RepliesHold, StackHolds, OwnershipHolds, PromiseHolds;
    SameButReplies(rules, t, u);
  }

  lemma ReplyHolds(rules: Rules, s: State, f: Frame)
    requires StorageHolds(rules, s) && RepliesHold(rules, s) && f.phase.Leaving? && FrameHolds(rules, ViewOf(s), f, None)
    ensures RepliesHold(rules, s.(replies := s.replies + [Reply(f.query, s.revision, f.phase.result)]))
  {
    if f.phase.result.Ok? {
      FreshValue(rules, s, f.query);
    }
  }

  lemma SameButReplies(rules: Rules, t: State, u: State)
    requires Inv(rules, t) && u == t.(replies := u.replies) && RepliesHold(rules, u)
    ensures Inv(rules, u)
  {
    hide SlotsHold, StackHolds, OwnsAt, WaitsFor;
    assert Logical(u) == Logical(t) && ViewOf(u) == ViewOf(t);
    assert forall n :: StackOf(u, n) == StackOf(t, n) && PromiseOf(u, n) == PromiseOf(t, n);
    forall n
      ensures PromiseHolds(u, StackOf(u, n), PromiseOf(u, n))
    {
      assert PromiseHolds(t, StackOf(t, n), PromiseOf(t, n));
    }
    SameOwners(t, u);
  }

  lemma ExitMove(rules: Rules, s: State, i: SnapshotId)
    requires Inv(rules, s) && StackOf(s, i) != [] && Top(StackOf(s, i)).phase.Leaving?
    requires Top(StackOf(s, i)).inProgress ==> Top(StackOf(s, i)).query in s.slots
    ensures Inv(rules, Exited(s, i))
  {
    hide Inv;
    if Top(StackOf(s, i)).inProgress {
      TopIsOwner(rules, s, i);
      LeavingFails(rules, s, i);
      GiveUpMove(rules, s, i);
      ExitGivenUp(s, i);
      hide GivenUp, Exited;
      LeaveMove(rules, GivenUp(s, i), i);
    } else {
      LeaveMove(rules, s, i);
    }
  }

  // Giving up a failed query and then leaving it is what leaving it does.
  lemma ExitGivenUp(s: State, i: SnapshotId)
    requires OwnsTop(s, i) && Top(StackOf(s, i)).phase.Leaving?
    ensures StackOf(GivenUp(s, i), i) != []
    ensures Top(StackOf(GivenUp(s, i), i)).phase.Leaving? && !Top(StackOf(GivenUp(s, i), i)).inProgress
    ensures Exited(GivenUp(s, i), i) == Exited(s, i)
  {
    var stack := StackOf(s, i);
    CleanedUpKeeps(s, Top(stack).query);
    hide CleanedUp, Delivered;
    var c := CleanedUp(s, Top(stack).query);
    var t := GivenUp(s, i);
    assert StackOf(t, i)[..|stack| - 1] == stack[..|stack| - 1];
    assert forall after :: WithStack(t, i, after) == WithStack(c, i, after);
  }

  lemma CleanedUpKeeps(s: State, q: QueryKey)
    requires q in s.slots
    ensures CleanedUp(s, q).stacks == s.stacks && CleanedUp(s, q).replies == s.replies
    ensures CleanedUp(s, q).revision == s.revision
  {
  }

  lemma LeavingFails(rules: Rules, s: State, i: SnapshotId)
    requires Inv(rules, s) && StackOf(s, i) != [] && Top(StackOf(s, i)).phase.Leaving? && Top(StackOf(s, i)).inProgress
    ensures Top(StackOf(s, i)).phase.result.Err?
  {
    hide StorageHolds, SlotsHold, RepliesHold, OwnershipHolds, PromisesHold;
    var stack := StackOf(s, i);
    assert FrameHolds(rules, ViewOf(s), Top(stack), ChildOf(stack, |stack| - 1));
  }

  // ---------------------------------------------------------------- verifying and computing

  predicate EndsVerify(f: Frame) {
    f.phase.Verifying? && f.phase.remaining == {}
  }

  lemma VerifyEndMove(rules: Rules, s: State, i: SnapshotId)
    requires Inv(rules, s) && StackOf(s, i) != [] && EndsVerify(Top(StackOf(s, i)))
    requires Top(StackOf(s, i)).query in s.slots
    ensures Inv(rules, VerifyEnded(s, i))
  {
    hide Inv, Sound;
    var f := Top(StackOf(s, i));
    if f.phase.entry.trace.built >= f.phase.latest {
      ReuseEntry(rules, s, i);
      StoreMove(rules, s, i, Stamped(f.phase.entry, s.revision));
    } else {
      RecomputeMove(rules, s, i);
    }
  }

  lemma ReuseEntry(rules: Rules, s: State, i: SnapshotId)
    requires Inv(rules, s) && StackOf(s, i) != [] && EndsVerify(Top(StackOf(s, i)))
    requires var f := Top(StackOf(s, i)); f.phase.entry.trace.built >= f.phase.latest
    ensures OwnsTop(s, i)
    ensures var f := Top(StackOf(s, i));
            Sound(rules, Logical(s).(entries := Logical(s).entries[f.query := Stamped(f.phase.entry, s.revision)]))
  {
    hide SlotsHold, RepliesHold, OwnershipHolds, PromisesHold, Sound;
    var stack := StackOf(s, i);
    var f := Top(stack);
    assert FrameHolds(rules, ViewOf(s), f, ChildOf(stack, |stack| - 1));
    TopIsOwner(rules, s, i);
    forall d | d in f.phase.entry.dependencies
      ensures VerifiedUpTo(Logical(s), d, f.phase.entry.trace.built)
    {
      assert VerifiedIn(ViewOf(s), d, f.phase.latest);
    }
    Reverified(rules, Logical(s), f.query);
  }

  lemma ReturnMove(rules: Rules, s: State, i: SnapshotId, v: Value)
    requires Inv(rules, s) && StackOf(s, i) != []
    requires var f := Top(StackOf(s, i));
             f.phase.Computing? && f.unavailable.None? && rules(f.query, f.phase.answers) == Return(v)
    ensures OwnsTop(s, i) && Inv(rules, Stored(s, i, NewEntry(s, Top(StackOf(s, i)), v)))
  {
    hide Inv, Sound;
    ComputedEntry(rules, s, i, v);
    StoreMove(rules, s, i, NewEntry(s, Top(StackOf(s, i)), v));
  }

  lemma ComputedEntry(rules: Rules, s: State, i: SnapshotId, v: Value)
    requires Inv(rules, s) && StackOf(s, i) != []
    requires var f := Top(StackOf(s, i));
             f.phase.Computing? && f.unavailable.None? && rules(f.query, f.phase.answers) == Return(v)
    ensures OwnsTop(s, i)
    ensures var f := Top(StackOf(s, i));
            Sound(rules, Logical(s).(entries := Logical(s).entries[f.query := NewEntry(s, f, v)]))
  {
    hide SlotsHold, RepliesHold, OwnershipHolds, PromisesHold;
    var stack := StackOf(s, i);
    var f := Top(stack);
    var e := NewEntry(s, f, v);
    assert FrameHolds(rules, ViewOf(s), f, ChildOf(stack, |stack| - 1));
    TopIsOwner(rules, s, i);
    assert Certified(rules, Values(s.inputs), f.query, f.dependencies, v);
    forall d | d in e.dependencies
      ensures InScope(f.query, d) && (d.IsInput() || IsCurrent(Logical(s), d))
    {
      assert d.IsInput() || FreshIn(ViewOf(s), d);
      assert d in s.entries ==> d !in s.suspended;
    }
    StoreEntry(rules, Logical(s), f.query, e);
  }

  lemma ComputeMove(rules: Rules, s: State, i: SnapshotId)
    requires ScopedRules(rules) && Inv(rules, s) && StackOf(s, i) != [] && Top(StackOf(s, i)).phase.Computing?
    requires Top(StackOf(s, i)).query in s.slots
    ensures Inv(rules, Computed(rules, s, i))
  {
    hide Inv, ScopedRules;
    var f := Top(StackOf(s, i));
    match rules(f.query, f.phase.answers)
    case Return(v) =>
      if f.unavailable.Some? {
        LeaveWithError(rules, s, i, f.unavailable.value);
      } else {
        ReturnMove(rules, s, i, v);
      }
    case Raise(e) => LeaveWithError(rules, s, i, e);
    case Read(d) =>
      if d.IsInput() {
        ReadInputMove(rules, s, i);
      } else {
        ReadQueryMove(rules, s, i);
      }
  }

  // ---------------------------------------------------------------- new revisions

  // With no query running, nothing is in progress and nobody waits.
  lemma AllAtRest(rules: Rules, s: State)
    requires Inv(rules, s) && forall i :: i in s.stacks ==> s.stacks[i] == []
    ensures s.slots == map[] && s.suspended == map[]
  {
    hide RepliesHold, PromisesHold, SlotsHold, Sound;
    forall k
      ensures k !in s.slots
    {
      assert k in s.slots ==> HasOwner(s, k);
    }
    assert s.slots.Keys == {};
    assert s.suspended.Keys == {};
  }

  lemma TransactionMove(rules: Rules, s: State, inputs: map<QueryKey, InputState>, entries: map<QueryKey, Entry>)
    requires Inv(rules, s) && Enabled(s, Transaction(inputs, entries))
    ensures Inv(rules, Apply(rules, s, Transaction(inputs, entries)))
  {
    hide Sound, IsTransaction, Acyclic, RepliesHold;
    var t := Apply(rules, s, Transaction(inputs, entries));
    AllAtRest(rules, s);
    assert forall i :: StackOf(s, i) == [];
    TransactionStorage(rules, s, inputs, entries);
    TransactionReplies(rules, s, t);
    RestHolds(rules, s, t);
  }

  lemma TransactionStorage(rules: Rules, s: State, inputs: map<QueryKey, InputState>, entries: map<QueryKey, Entry>)
    requires StorageHolds(rules, s) && s.slots == map[] && s.suspended == map[]
    requires Enabled(s, Transaction(inputs, entries))
    ensures StorageHolds(rules, Apply(rules, s, Transaction(inputs, entries)))
  {
    hide Sound, IsTransaction;
    var t := Apply(rules, s, Transaction(inputs, entries));
    TransactionSound(rules, Logical(s), inputs, entries);
    assert Logical(t) == NextRevision(Logical(s), inputs, entries);
  }

  lemma TransactionReplies(rules: Rules, s: State, t: State)
    requires RepliesHold(rules, s) && t.replies == s.replies && |t.history| == |s.history| + 1 && t.history[..|s.history|] == s.history
    ensures RepliesHold(rules, t)
  {
    forall n | 0 <= n < |t.replies| && t.replies[n].result.Ok?
      ensures t.replies[n].revision < |t.history|
      ensures IsValue(rules, t.history[t.replies[n].revision], t.replies[n].query, t.replies[n].result.value)
    {
      assert t.history[..|s.history|][t.replies[n].revision] == s.history[s.replies[n].revision];
    }
  }

  // Empty stacks hold in any view.
  lemma RestHolds(rules: Rules, s: State, t: State)
    requires OwnershipHolds(s) && (forall i :: StackOf(s, i) == []) && t.stacks == s.stacks && t.slots == s.slots == map[]
    ensures OwnershipHolds(t) && PromisesHold(t) && forall i :: StackHolds(rules, ViewOf(t), StackOf(t, i))
  {
    forall i
      ensures StackOf(t, i) == []
    {
      assert StackOf(s, i) == [];
    }
  }

  // ---------------------------------------------------------------- every run

  lemma MoveKeepsInv(rules: Rules, s: State, i: SnapshotId, move: Move)
    requires ScopedRules(rules) && Inv(rules, s) && StackOf(s, i) != [] && CanMove(s, i, move)
    ensures TopOwns(s, i) && Inv(rules, Moved(rules, s, i, move))
  {
    TopsOwn(rules, s, i);
    hide Inv, ScopedRules, Moved, CanMove, TopOwns;
    match move
    case Cancel => EnterKeepsInv(rules, s, i, move);
    case Hit => EnterKeepsInv(rules, s, i, move);
    case Conflict => EnterKeepsInv(rules, s, i, move);
    case Wait => TakeKeepsInv(rules, s, i, move);
    case Start => TakeKeepsInv(rules, s, i, move);
    case Wake => TakeKeepsInv(rules, s, i, move);
    case VerifyRead(d) => VerifyKeepsInv(rules, s, i, move);
    case VerifyAsk(d) => VerifyKeepsInv(rules, s, i, move);
    case VerifyEnd => VerifyKeepsInv(rules, s, i, move);
    case Compute => EndKeepsInv(rules, s, i, move);
    case Exit => EndKeepsInv(rules, s, i, move);
  }

  lemma EnterKeepsInv(rules: Rules, s: State, i: SnapshotId, move: Move)
    requires Inv(rules, s) && StackOf(s, i) != [] && CanMove(s, i, move) && TopOwns(s, i)
    requires move.Cancel? || move.Hit? || move.Conflict?
    ensures Inv(rules, Moved(rules, s, i, move))
  {
    hide Inv, Closes, AnyVerifying, StackQueries;
    match move
    case Cancel => LeaveWithError(rules, s, i, Cancelled);
    case Hit => HitMove(rules, s, i);
    case Conflict =>
      LeaveWithError(rules, s, i, if AnyVerifying(StackOf(s, i)) then Unverifiable else Cycle(StackQueries(StackOf(s, i))));
  }

  lemma TakeKeepsInv(rules: Rules, s: State, i: SnapshotId, move: Move)
    requires Inv(rules, s) && StackOf(s, i) != [] && CanMove(s, i, move) && TopOwns(s, i)
    requires move.Wait? || move.Start? || move.Wake?
    ensures Inv(rules, Moved(rules, s, i, move))
  {
    hide Inv, Closes, AnyVerifying, Woken, Started, Waited;
    match move
    case Wait => WaitMove(rules, s, i);
    case Start => StartMove(rules, s, i);
    case Wake => WakeMove(rules, s, i);
  }

  lemma VerifyKeepsInv(rules: Rules, s: State, i: SnapshotId, move: Move)
    requires Inv(rules, s) && StackOf(s, i) != [] && CanMove(s, i, move) && TopOwns(s, i)
    requires move.VerifyRead? || move.VerifyAsk? || move.VerifyEnd?
    ensures Inv(rules, Moved(rules, s, i, move))
  {
    hide Inv, Closes, AnyVerifying, VerifyEnded, Verified;
    match move
    case VerifyRead(d) => VerifyReadMove(rules, s, i, d);
    case VerifyAsk(d) => VerifyAskMove(rules, s, i, d);
    case VerifyEnd => VerifyEndMove(rules, s, i);
  }

  lemma EndKeepsInv(rules: Rules, s: State, i: SnapshotId, move: Move)
    requires ScopedRules(rules) && Inv(rules, s) && StackOf(s, i) != [] && CanMove(s, i, move) && TopOwns(s, i)
    requires move.Compute? || move.Exit?
    ensures Inv(rules, Moved(rules, s, i, move))
  {
    hide Inv, ScopedRules, Closes, AnyVerifying, Exited, Computed;
    match move
    case Compute => ComputeMove(rules, s, i);
    case Exit => ExitMove(rules, s, i);
  }

  lemma TopsOwn(rules: Rules, s: State, i: SnapshotId)
    requires Inv(rules, s) && StackOf(s, i) != []
    ensures TopOwns(s, i)
  {
    hide StorageHolds, SlotsHold, RepliesHold, OwnersUnique, OwnersExist, WaitersExact, PromisesHold;
    var stack := StackOf(s, i);
    assert FrameHolds(rules, ViewOf(s), Top(stack), ChildOf(stack, |stack| - 1));
    if Top(stack).inProgress {
      assert OwnsAt(stack, PromiseOf(s, i), |stack| - 1, Top(stack).query);
    }
  }

  lemma StepKeepsInv(rules: Rules, s: State, step: Step)
    requires ScopedRules(rules) && Inv(rules, s) && Enabled(s, step)
    ensures step.Act? ==> TopOwns(s, step.i)
    ensures Inv(rules, Apply(rules, s, step))
  {
    hide Inv, ScopedRules, CanMove, Moved, IsTransaction;
    match step
    case Begin(i, query) => BeginMove(rules, s, i, query);
    case Act(i, move) => MoveKeepsInv(rules, s, i, move);
    case Transaction(inputs, entries) => TransactionMove(rules, s, inputs, entries);
    case RaiseFlag => FlagMove(rules, s, true, s.raises + {s.revision});
    case LowerFlag => FlagMove(rules, s, false, s.raises);
  }

  // The invariant does not look at the flag.
  lemma FlagMove(rules: Rules, s: State, cancelled: bool, raises: set<nat>)
    requires Inv(rules, s)
    ensures Inv(rules, s.(cancelled := cancelled, raises := raises))
  {
    hide SlotsHold, StackHolds, OwnsAt, WaitsFor, Sound;
    var t := s.(cancelled := cancelled, raises := raises);
    assert Logical(t) == Logical(s) && ViewOf(t) == ViewOf(s);
    assert forall n :: StackOf(t, n) == StackOf(s, n) && PromiseOf(t, n) == PromiseOf(s, n);
    forall n
      ensures PromiseHolds(t, StackOf(t, n), PromiseOf(t, n))
    {
      assert PromiseHolds(s, StackOf(s, n), PromiseOf(s, n));
    }
    SameReplies(rules, s, t);
    SameOwners(s, t);
  }

  const INITIAL := State(0, map[], map[], map[], map[], map[], map[], map[], [map[]], [], false, {})

  // A run: consecutive states are joined by enabled steps.
  ghost predicate IsRun(rules: Rules, states: seq<State>, steps: seq<Step>) {
    && |states| == |steps| + 1 && states[0] == INITIAL
    && forall n :: 0 <= n < |steps| ==> StepTaken(rules, states[n], steps[n], states[n + 1])
  }

  ghost predicate StepTaken(rules: Rules, s: State, step: Step, t: State) {
    Enabled(s, step) && (step.Act? ==> TopOwns(s, step.i)) && t == Apply(rules, s, step)
  }

  // The invariant holds throughout every run.
  lemma {:induction false} RunKeepsInv(rules: Rules, states: seq<State>, steps: seq<Step>, n: nat)
    requires ScopedRules(rules) && IsRun(rules, states, steps) && n < |states|
    ensures Inv(rules, states[n])
  {
    if n == 0 {
      InitialHolds(rules);
    } else {
      RunKeepsInv(rules, states, steps, n - 1);
      assert StepTaken(rules, states[n - 1], steps[n - 1], states[n]);
      StepKeepsInv(rules, states[n - 1], steps[n - 1]);
    }
  }

  lemma InitialHolds(rules: Rules)
    ensures Inv(rules, INITIAL)
  {
    assert forall i :: StackOf(INITIAL, i) == [];
  }

  // ---------------------------------------------------------------- what every run guarantees

  // A value that a query is about to return is its value from scratch on the current inputs.
  lemma RunAnswersAreValues(rules: Rules, states: seq<State>, steps: seq<Step>, n: nat, i: SnapshotId, j: nat)
    requires ScopedRules(rules) && IsRun(rules, states, steps) && n < |states|
    requires j < |StackOf(states[n], i)|
    requires var f := StackOf(states[n], i)[j]; f.phase.Leaving? && f.phase.result.Ok?
    ensures var f := StackOf(states[n], i)[j];
            IsValue(rules, Values(states[n].inputs), f.query, f.phase.result.value)
  {
    RunKeepsInv(rules, states, steps, n);
    var s := states[n];
    assert StackHolds(rules, ViewOf(s), StackOf(s, i));
    assert FrameHolds(rules, ViewOf(s), StackOf(s, i)[j], ChildOf(StackOf(s, i), j));
    FreshValue(rules, s, StackOf(s, i)[j].query);
  }

  // And so is every value that was ever answered, on the inputs of the revision it was asked at.
  lemma RunRepliesAreValues(rules: Rules, states: seq<State>, steps: seq<Step>, n: nat, r: nat)
    requires ScopedRules(rules) && IsRun(rules, states, steps) && n < |states|
    requires r < |states[n].replies| && states[n].replies[r].result.Ok?
    ensures var reply := states[n].replies[r];
            && reply.revision < |states[n].history|
            && IsValue(rules, states[n].history[reply.revision], reply.query, reply.result.value)
  {
    RunKeepsInv(rules, states, steps, n);
  }

  // `w` is blocked on a query that `o` has in progress.
  ghost predicate BlockedOn(s: State, w: SnapshotId, o: SnapshotId) {
    && StackOf(s, w) != [] && Top(StackOf(s, w)).phase.Waiting? && PromiseOf(s, w).Pending?
    && Top(StackOf(s, w)).query in s.slots && s.slots[Top(StackOf(s, w)).query].owner == o
    && exists j :: OwnsAt(StackOf(s, o), PromiseOf(s, o), j, Top(StackOf(s, w)).query)
  }

  // The wait-for edges are exactly the pairs of a blocked snapshot and the owner it is blocked
  // on, and they form no cycle.
  lemma RunEdgesAreExact(rules: Rules, states: seq<State>, steps: seq<Step>, n: nat)
    requires ScopedRules(rules) && IsRun(rules, states, steps) && n < |states|
    ensures forall w, o :: w in states[n].graph && states[n].graph[w] == o <==> BlockedOn(states[n], w, o)
    ensures Acyclic(states[n].graph)
  {
    RunKeepsInv(rules, states, steps, n);
    EdgesAreExact(rules, states[n]);
  }

  lemma EdgesAreExact(rules: Rules, s: State)
    requires Inv(rules, s)
    ensures forall w, o :: w in s.graph && s.graph[w] == o <==> BlockedOn(s, w, o)
  {
    hide StorageHolds, RepliesHold, StackHolds, PromisesHold, Acyclic, OwnsAt;
    forall w, o
      ensures w in s.graph && s.graph[w] == o <==> BlockedOn(s, w, o)
    {
      if w in s.graph && s.graph[w] == o {
        assert WaitsSomewhere(s.slots, w);
        var k :| WaitsIn(s.slots, w, k);
        assert WaitsFor(StackOf(s, w), PromiseOf(s, w), k);
        assert HasOwner(s, k);
      }
      if BlockedOn(s, w, o) {
        var k := Top(StackOf(s, w)).query;
        assert WaitsFor(StackOf(s, w), PromiseOf(s, w), k);
        assert WaitsIn(s.slots, w, k);
      }
    }
  }

  ghost predicate CanAct(s: State, i: SnapshotId) {
    StackOf(s, i) != [] && exists move :: CanMove(s, i, move)
  }

  // A snapshot that is not blocked always has a move.
  lemma NotBlockedCanAct(s: State, i: SnapshotId)
    requires StackOf(s, i) != [] && !(Top(StackOf(s, i)).phase.Waiting? && PromiseOf(s, i).Pending?)
    ensures CanAct(s, i)
  {
    hide IsFresh, AnyVerifying, Closes, CancelSeen;
    var f := Top(StackOf(s, i));
    match f.phase
    case Entering =>
      if CancelSeen(StackOf(s, i)) {
        assert CanMove(s, i, Cancel);
      } else if IsFresh(s, f.query) {
        assert CanMove(s, i, Hit);
      } else if f.query !in s.slots {
        assert CanMove(s, i, Start);
      } else if AnyVerifying(StackOf(s, i)) || Closes(s, i, f.query) {
        assert CanMove(s, i, Conflict);
      } else {
        assert CanMove(s, i, Wait);
      }
    case Waiting => assert CanMove(s, i, Wake);
    case Verifying(entry, remaining, latest) =>
      if remaining == {} {
        assert CanMove(s, i, VerifyEnd);
      } else {
        var d :| d in remaining;
        if d.IsInput() || IsFresh(s, d) {
          assert CanMove(s, i, VerifyRead(d));
        } else {
          assert CanMove(s, i, VerifyAsk(d));
        }
      }
    case Computing(_, _) => assert CanMove(s, i, Compute);
    case Leaving(_) => assert CanMove(s, i, Exit);
  }

  // No deadlock: while some query runs, some snapshot can move, and the chain of edges from a
  // blocked snapshot ends at one that can.
  lemma RunMakesProgress(rules: Rules, states: seq<State>, steps: seq<Step>, n: nat, i: SnapshotId) returns (last: SnapshotId)
    requires ScopedRules(rules) && IsRun(rules, states, steps) && n < |states| && StackOf(states[n], i) != []
    ensures Leads(states[n].graph, i, last) && CanAct(states[n], last)
  {
    RunKeepsInv(rules, states, steps, n);
    EdgesAreExact(rules, states[n]);
    last := UnblockedEnd(rules, states[n], i);
  }

  lemma UnblockedEnd(rules: Rules, s: State, i: SnapshotId) returns (last: SnapshotId)
    requires Inv(rules, s) && StackOf(s, i) != []
    requires forall w, o :: w in s.graph && s.graph[w] == o <==> BlockedOn(s, w, o)
    ensures Leads(s.graph, i, last) && CanAct(s, last)
  {
    hide StorageHolds, RepliesHold, StackHolds, PromisesHold, CanMove;
    var n: nat;
    n, last := ChainEnds(s.graph, i, {});
    EndIsActive(s, i, n, last);
    assert !WaitsIn(s.slots, last, Top(StackOf(s, last)).query);
    assert !WaitsFor(StackOf(s, last), PromiseOf(s, last), Top(StackOf(s, last)).query);
    NotBlockedCanAct(s, last);
  }

  // Whoever is waited for has a query in progress.
  lemma {:induction false} EndIsActive(s: State, i: SnapshotId, n: nat, last: SnapshotId)
    requires StackOf(s, i) != [] && Hop(s.graph, i, n) == Some(last)
    requires forall w, o :: w in s.graph && s.graph[w] == o <==> BlockedOn(s, w, o)
    ensures StackOf(s, last) != []
    decreases n
  {
    if n > 0 {
      assert BlockedOn(s, i, s.graph[i]);
      EndIsActive(s, s.graph[i], n - 1, last);
    }
  }

  // ---------------------------------------------------------------- one owner, one store

  ghost predicate SameAt(s: State, t: State, k: QueryKey) {
    && (k in t.slots <==> k in s.slots) && (k in s.slots ==> t.slots[k] == s.slots[k])
    && (k in t.entries <==> k in s.entries) && (k in s.entries ==> t.entries[k] == s.entries[k])
  }

  // A query in progress stays with its owner.
  ghost predicate SameOwner(s: State, t: State, k: QueryKey) {
    k in s.slots ==> k in t.slots && t.slots[k].owner == s.slots[k].owner
  }

  // A move touches at most the query on top. It ends or passes it on only if the frame owns it,
  // and never replaces a current result.
  ghost predicate Effect(s: State, t: State, top: Frame) {
    && t.revision == s.revision
    && (forall k :: k != top.query ==> SameAt(s, t, k))
    && (!SameOwner(s, t, top.query) ==> top.inProgress)
    && (IsFresh(s, top.query) && top.query !in s.slots ==>
          top.query in t.entries && t.entries[top.query] == s.entries[top.query])
  }

  lemma StackEffect(s: State, i: SnapshotId, stack: seq<Frame>, top: Frame)
    ensures Effect(s, WithStack(s, i, stack), top)
  {
  }

  lemma StoreEffect(s: State, i: SnapshotId, entry: Entry)
    requires StackOf(s, i) != [] && Top(StackOf(s, i)).inProgress && Top(StackOf(s, i)).query in s.slots
    ensures Effect(s, Stored(s, i, entry), Top(StackOf(s, i)))
  {
  }

  lemma StartEffect(s: State, i: SnapshotId)
    requires StackOf(s, i) != [] && CanMove(s, i, Start)
    ensures Effect(s, Started(s, i), Top(StackOf(s, i)))
  {
  }

  lemma WaitEffect(s: State, i: SnapshotId)
    requires StackOf(s, i) != [] && Top(StackOf(s, i)).query in s.slots
    ensures Effect(s, Waited(s, i), Top(StackOf(s, i)))
  {
  }

  lemma ExitEffect(s: State, i: SnapshotId)
    requires StackOf(s, i) != [] && Top(StackOf(s, i)).phase.Leaving? && TopOwns(s, i)
    ensures Effect(s, Exited(s, i), Top(StackOf(s, i)))
  {
    hide CleanedUp, Delivered, Effect;
    var top := Top(StackOf(s, i));
    var c := if top.inProgress then CleanedUp(s, top.query) else s;
    var t := Exited(s, i);
    assert t.slots == c.slots && t.entries == c.entries && t.revision == c.revision;
    hide Exited;
    if top.inProgress {
      CleanUpEffect(s, top);
    }
    SameEffect(s, c, t, top);
  }

  lemma CleanUpEffect(s: State, top: Frame)
    requires top.query in s.slots && top.inProgress
    ensures Effect(s, CleanedUp(s, top.query), top)
  {
    hide HandedOff;
  }

  lemma SameEffect(s: State, c: State, t: State, top: Frame)
    requires c == s || Effect(s, c, top)
    requires t.slots == c.slots && t.entries == c.entries && t.revision == c.revision
    ensures Effect(s, t, top)
  {
    forall k | k != top.query
      ensures SameAt(s, t, k)
    {
      assert SameAt(s, c, k);
    }
  }

  lemma ComputeEffect(rules: Rules, s: State, i: SnapshotId)
    requires StackOf(s, i) != [] && Top(StackOf(s, i)).phase.Computing?
    requires Top(StackOf(s, i)).inProgress && Top(StackOf(s, i)).query in s.slots
    ensures Effect(s, Computed(rules, s, i), Top(StackOf(s, i)))
  {
    hide Effect, Stored;
    var stack := StackOf(s, i);
    var top := Top(stack);
    forall after
      ensures Effect(s, WithStack(s, i, after), top)
    {
      StackEffect(s, i, after, top);
    }
    forall e
      ensures Effect(s, Stored(s, i, e), top)
    {
      StoreEffect(s, i, e);
    }
  }

  lemma MoveEffect(rules: Rules, s: State, i: SnapshotId, move: Move)
    requires Inv(rules, s) && StackOf(s, i) != [] && CanMove(s, i, move) && TopOwns(s, i)
    ensures Effect(s, Moved(rules, s, i, move), Top(StackOf(s, i)))
  {
    MarkedInProgress(rules, s, i);
    hide Inv, Effect, Moved, CanMove, TopOwns;
    if move.Wait? || move.Start? {
      TakeEffect(rules, s, i, move);
    } else if move.VerifyEnd? || move.Compute? || move.Exit? {
      EndEffect(rules, s, i, move);
    } else {
      QuietEffect(rules, s, i, move);
    }
  }

  lemma TakeEffect(rules: Rules, s: State, i: SnapshotId, move: Move)
    requires StackOf(s, i) != [] && CanMove(s, i, move) && TopOwns(s, i) && (move.Wait? || move.Start?)
    ensures Effect(s, Moved(rules, s, i, move), Top(StackOf(s, i)))
  {
    hide Effect, Started, Waited, Closes, AnyVerifying, CancelSeen;
    if move.Wait? {
      WaitEffect(s, i);
    } else {
      StartEffect(s, i);
    }
  }

  lemma EndEffect(rules: Rules, s: State, i: SnapshotId, move: Move)
    requires StackOf(s, i) != [] && CanMove(s, i, move) && TopOwns(s, i) && (move.VerifyEnd? || move.Compute? || move.Exit?)
    requires Top(StackOf(s, i)).phase.Verifying? || Top(StackOf(s, i)).phase.Computing? ==> Top(StackOf(s, i)).inProgress
    ensures Effect(s, Moved(rules, s, i, move), Top(StackOf(s, i)))
  {
    hide Effect, VerifyEnded, Computed, Exited;
    if move.VerifyEnd? {
      VerifyEndEffect(s, i);
    } else if move.Compute? {
      ComputeEffect(rules, s, i);
    } else {
      ExitEffect(s, i);
    }
  }

  // The moves that touch nothing but the stack of the snapshot that makes them.
  lemma QuietEffect(rules: Rules, s: State, i: SnapshotId, move: Move)
    requires StackOf(s, i) != [] && CanMove(s, i, move) && TopOwns(s, i)
    requires !move.Wait? && !move.Start? && !move.VerifyEnd? && !move.Compute? && !move.Exit?
    ensures Effect(s, Moved(rules, s, i, move), Top(StackOf(s, i)))
  {
    hide Effect, Stored, Started, Waited, Exited, Computed, Closes, AnyVerifying, IsFresh, WithStack, CancelSeen, WithTop;
    forall after
      ensures Effect(s, WithStack(s, i, after), Top(StackOf(s, i)))
    {
      StackEffect(s, i, after, Top(StackOf(s, i)));
    }
  }

  lemma VerifyEndEffect(s: State, i: SnapshotId)
    requires StackOf(s, i) != [] && CanMove(s, i, VerifyEnd)
    requires Top(StackOf(s, i)).inProgress && Top(StackOf(s, i)).query in s.slots
    ensures Effect(s, VerifyEnded(s, i), Top(StackOf(s, i)))
  {
    hide Effect, Stored;
    var stack := StackOf(s, i);
    var top := Top(stack);
    StoreEffect(s, i, Stamped(top.phase.entry, s.revision));
    StackEffect(s, i, WithTop(stack, top.(phase := Computing([], Some(top.phase.entry)))), top);
  }

  lemma MarkedInProgress(rules: Rules, s: State, i: SnapshotId)
    requires Inv(rules, s) && StackOf(s, i) != []
    ensures Top(StackOf(s, i)).phase.Verifying? || Top(StackOf(s, i)).phase.Computing? ==> Top(StackOf(s, i)).inProgress
  {
    hide StorageHolds, RepliesHold, PromisesHold, SlotsHold, OwnershipHolds;
    EnteringFrame(rules, ViewOf(s), StackOf(s, i));
  }

  // Nothing but a move of its owner ends a query in progress or passes it on.
  lemma OnlyOwnerEnds(rules: Rules, s: State, step: Step, t: State, k: QueryKey)
    requires Inv(rules, s) && StepTaken(rules, s, step, t) && !SameOwner(s, t, k)
    ensures step.Act? && step.i == s.slots[k].owner
  {
    hide StorageHolds, RepliesHold, StackHolds, PromisesHold, SlotsHold, OwnersUnique, OwnersExist, WaitersExact, CanMove;
    if step.Act? {
      MoveEffect(rules, s, step.i, step.move);
      hide Moved, Effect;
      var stack := StackOf(s, step.i);
      EndsOwn(s, t, Top(stack), k);
      assert OwnsAt(stack, PromiseOf(s, step.i), |stack| - 1, k);
    }
  }

  lemma EndsOwn(s: State, t: State, top: Frame, k: QueryKey)
    requires Effect(s, t, top) && !SameOwner(s, t, k)
    ensures k == top.query && top.inProgress
  {
    assert k != top.query ==> SameAt(s, t, k);
  }

  // A result that is current stays as it is until the revision changes.
  lemma FreshStays(rules: Rules, s: State, step: Step, t: State, k: QueryKey)
    requires Inv(rules, s) && StepTaken(rules, s, step, t) && IsFresh(s, k) && t.revision == s.revision
    ensures k in t.entries && t.entries[k] == s.entries[k]
  {
    hide RepliesHold, StackHolds, PromisesHold, SlotsHold, OwnershipHolds, Sound, CanMove;
    if step.Act? {
      MoveEffect(rules, s, step.i, step.move);
      hide Moved;
      assert k !in s.slots;
      assert k != Top(StackOf(s, step.i)).query ==> SameAt(s, t, k);
    }
  }

  lemma StepRevision(rules: Rules, s: State, step: Step, t: State)
    requires Inv(rules, s) && StepTaken(rules, s, step, t)
    ensures s.revision <= t.revision
  {
    hide Inv, CanMove;
    if step.Act? {
      MoveEffect(rules, s, step.i, step.move);
      hide Moved;
    }
  }

  lemma {:induction false} RevisionGrows(rules: Rules, states: seq<State>, steps: seq<Step>, n: nat, m: nat)
    requires ScopedRules(rules) && IsRun(rules, states, steps) && n <= m < |states|
    ensures states[n].revision <= states[m].revision
    decreases m - n
  {
    hide Inv, ScopedRules, StepTaken;
    if n < m {
      RevisionGrows(rules, states, steps, n, m - 1);
      RunKeepsInv(rules, states, steps, m - 1);
      StepRevision(rules, states[m - 1], steps[m - 1], states[m]);
    }
  }

  lemma {:induction false} RunKeepsFresh(rules: Rules, states: seq<State>, steps: seq<Step>, n: nat, m: nat, k: QueryKey)
    requires ScopedRules(rules) && IsRun(rules, states, steps) && n <= m < |states|
    requires IsFresh(states[n], k) && states[m].revision == states[n].revision
    ensures IsFresh(states[m], k) && states[m].entries[k] == states[n].entries[k]
    decreases m - n
  {
    hide Inv, ScopedRules, StepTaken;
    if n < m {
      RevisionGrows(rules, states, steps, n, m - 1);
      RevisionGrows(rules, states, steps, m - 1, m);
      RunKeepsFresh(rules, states, steps, n, m - 1, k);
      RunKeepsInv(rules, states, steps, m - 1);
      FreshStays(rules, states[m - 1], steps[m - 1], states[m], k);
    }
  }

  ghost predicate Stores(s: State, t: State, k: QueryKey) {
    !IsFresh(s, k) && IsFresh(t, k)
  }

  // Each query is stored at most once per revision, however many snapshots ask for it.
  lemma RunStoresOnce(rules: Rules, states: seq<State>, steps: seq<Step>, n: nat, m: nat, k: QueryKey)
    requires ScopedRules(rules) && IsRun(rules, states, steps) && n < m < |steps|
    requires Stores(states[n], states[n + 1], k) && Stores(states[m], states[m + 1], k)
    ensures states[n + 1].revision < states[m + 1].revision
  {
    hide ScopedRules, StepTaken;
    RevisionGrows(rules, states, steps, n + 1, m);
    RevisionGrows(rules, states, steps, m, m + 1);
    if states[m].revision == states[n + 1].revision {
      RunKeepsFresh(rules, states, steps, n + 1, m, k);
    }
  }
}
