// What the errors say that the query engine answers with when several snapshots are at work
// (compiler-core/building/src/engine.rs).
module ConcurrentErrors {
  import opened Queries
  import opened QueryCache
  import opened SnapshotGraph
  import opened ConcurrentEngine
  import opened Wrappers

  // ---------------------------------------------------------------- what an error says

  // A chain of actual calls that leads to a query on a cycle of actual calls.
  ghost predicate CycleHolds(rules: Rules, now: Inputs, stack: seq<QueryKey>) {
    stack != [] && CallChain(rules, now, stack) && OnCycle(rules, now, stack[|stack| - 1])
  }

  // A compute function names this content, and if compute functions pass errors on, one misses it
  // on these inputs.
  ghost predicate MissingHolds(rules: Rules, now: Inputs, file: FileId) {
    SaysMissing(rules, file) && (PassesOn(rules) ==> IsMissing(rules, now, file))
  }

  ghost predicate IsMissing(rules: Rules, now: Inputs, file: FileId) {
    exists k :: RaisesMissing(rules, now, k, file)
  }

  ghost predicate VerifiesBelow(stack: seq<Frame>, j: nat) {
    exists l :: 0 <= l < j && l < |stack| && stack[l].phase.Verifying?
  }

  // Why the frame at `j` meets an error. `raised` tells whether the cancellation flag was raised at
  // this revision.
  ghost predicate ErrorHolds(rules: Rules, now: Inputs, raised: bool, stack: seq<Frame>, j: nat, error: QueryError)
    requires j < |stack|
  {
    match error
    case Cancelled => raised
    case Cycle(reported) => CycleHolds(rules, now, reported) && StackQueries(stack[..j + 1]) <= reported
    case MissingContent(file) => MissingHolds(rules, now, file)
    case Unverifiable => VerifiesBelow(stack, j)
  }

  // The frame remembers an unavailability exactly if it met one.
  ghost predicate Remembers(unavailable: Option<QueryError>, answers: seq<Answer>) {
    && (unavailable.None? ==> forall e :: Unavailable(e) !in answers)
    && (unavailable.Some? ==> exists e: Unavailability :: unavailable.value == e && Unavailable(e) in answers)
  }

  ghost predicate FrameExplained(rules: Rules, now: Inputs, raised: bool, stack: seq<Frame>, j: nat)
    requires j < |stack|
  {
    match stack[j].phase
    case Leaving(r) => r.Err? ==> ErrorHolds(rules, now, raised, stack, j, r.error)
    case Computing(answers, _) =>
      && Remembers(stack[j].unavailable, answers)
      && (forall e: Unavailability :: Unavailable(e) in answers ==> ErrorHolds(rules, now, raised, stack, j, e))
    case _ => true
  }

  // Every frame computes, and has met no unavailability.
  ghost predicate Clean(stack: seq<Frame>) {
    forall j :: 0 <= j < |stack| ==> !stack[j].phase.Verifying? && stack[j].unavailable.None?
  }

  ghost predicate StackExplained(rules: Rules, now: Inputs, raised: bool, stack: seq<Frame>) {
    && (forall j: nat :: j < |stack| ==> FrameExplained(rules, now, raised, stack, j))
    && (stack != [] && Top(stack).phase.Waiting? ==> Clean(stack))
  }

  // What an error that is answered to the outside says about the inputs of its revision.
  ghost predicate ReplyExplained(rules: Rules, inputs: Inputs, raised: bool, query: QueryKey, error: QueryError) {
    match error
    case Cancelled => raised
    case Cycle(reported) => CycleHolds(rules, inputs, reported) && reported[0] == query
    case MissingContent(file) => MissingHolds(rules, inputs, file)
    case Unverifiable => false
  }

  ghost predicate RepliesExplained(rules: Rules, s: State) {
    forall n: nat :: n < |s.replies| && s.replies[n].result.Err? ==>
      var reply := s.replies[n];
      reply.revision < |s.history| &&
      ReplyExplained(rules, s.history[reply.revision], reply.revision in s.raises, reply.query, reply.result.error)
  }

  ghost predicate Explained(rules: Rules, s: State) {
    && (forall i :: StackExplained(rules, Values(s.inputs), s.revision in s.raises, StackOf(s, i)))
    && (s.cancelled ==> s.revision in s.raises)
    && RepliesExplained(rules, s)
  }

  // ---------------------------------------------------------------- moves within one stack

  // What holds of a frame depends on the frames up to it only.
  lemma SameBelow(rules: Rules, now: Inputs, raised: bool, stack: seq<Frame>, stack': seq<Frame>, j: nat)
    requires j < |stack| && j < |stack'| && stack'[..j] == stack[..j]
    requires stack'[j].query == stack[j].query && stack'[j].phase == stack[j].phase && stack'[j].unavailable == stack[j].unavailable
    requires FrameExplained(rules, now, raised, stack, j)
    ensures FrameExplained(rules, now, raised, stack', j)
  {
    hide CycleHolds, MissingHolds, Remembers;
    forall e | ErrorHolds(rules, now, raised, stack, j, e)
      ensures ErrorHolds(rules, now, raised, stack', j, e)
    {
      SameError(rules, now, raised, stack, j, stack', j, e);
    }
  }

  // An error is explained as well by a stack that agrees below, at the same place or at the one
  // that takes the result.
  lemma SameError(rules: Rules, now: Inputs, raised: bool, stack: seq<Frame>, j: nat, stack': seq<Frame>, k: nat, e: QueryError)
    requires j < |stack| && k < |stack'| && k <= j && stack'[..k] == stack[..k] && stack'[k].query == stack[k].query
    requires k == j || (k + 1 == j && (e.Unverifiable? ==> !stack[k].phase.Verifying?))
    requires ErrorHolds(rules, now, raised, stack, j, e)
    ensures ErrorHolds(rules, now, raised, stack', k, e)
  {
    hide CycleHolds, MissingHolds;
    forall l | 0 <= l <= k
      ensures stack'[l].query == stack[l].query && (l < k ==> stack'[l] == stack[l])
    {
      assert l < k ==> stack'[..k][l] == stack[..k][l];
    }
    if e.Cycle? {
      assert StackQueries(stack'[..k + 1]) == StackQueries(stack[..j + 1])[..k + 1];
    } else if e.Unverifiable? {
      var l :| 0 <= l < j && l < |stack| && stack[l].phase.Verifying?;
      assert l < k && stack'[l].phase.Verifying?;
    }
  }

  lemma TopExplained(rules: Rules, now: Inputs, raised: bool, stack: seq<Frame>, top: Frame)
    requires StackExplained(rules, now, raised, stack) && stack != [] && top.query == Top(stack).query
    requires FrameExplained(rules, now, raised, WithTop(stack, top), |stack| - 1)
    requires top.phase.Waiting? ==> Clean(WithTop(stack, top))
    ensures StackExplained(rules, now, raised, WithTop(stack, top))
  {
    hide FrameExplained;
    var stack' := WithTop(stack, top);
    forall j: nat | j < |stack'|
      ensures FrameExplained(rules, now, raised, stack', j)
    {
      if j < |stack| - 1 {
        assert stack'[..j] == stack[..j];
        SameBelow(rules, now, raised, stack, stack', j);
      }
    }
  }

  lemma PushExplained(rules: Rules, now: Inputs, raised: bool, stack: seq<Frame>, top: Frame, d: QueryKey)
    requires StackExplained(rules, now, raised, stack) && stack != []
    requires top.query == Top(stack).query && top.phase == Top(stack).phase && top.unavailable == Top(stack).unavailable
    ensures StackExplained(rules, now, raised, WithTop(stack, top) + [NewFrame(d)])
  {
    var stack' := WithTop(stack, top) + [NewFrame(d)];
    forall j: nat | j < |stack'|
      ensures FrameExplained(rules, now, raised, stack', j)
    {
      if j < |stack| {
        assert stack'[..j] == stack[..j];
        hide FrameExplained;
        SameBelow(rules, now, raised, stack, stack', j);
      }
    }
  }

  lemma PopExplained(rules: Rules, now: Inputs, raised: bool, stack: seq<Frame>, top: Frame)
    requires StackExplained(rules, now, raised, stack) && |stack| > 1
    requires top.query == stack[|stack| - 2].query && !top.phase.Waiting?
    requires FrameExplained(rules, now, raised, WithTop(stack[..|stack| - 1], top), |stack| - 2)
    ensures StackExplained(rules, now, raised, WithTop(stack[..|stack| - 1], top))
  {
    hide FrameExplained;
    var stack' := WithTop(stack[..|stack| - 1], top);
    forall j: nat | j < |stack'|
      ensures FrameExplained(rules, now, raised, stack', j)
    {
      if j < |stack'| - 1 {
        assert stack'[..j] == stack[..j];
        SameBelow(rules, now, raised, stack, stack', j);
      }
    }
  }

  // How the frame below takes an error keeps it explained.
  lemma DeliverExplained(rules: Rules, now: Inputs, raised: bool, stack: seq<Frame>)
    requires StackExplained(rules, now, raised, stack) && |stack| > 1 && Top(stack).phase.Leaving?
    requires stack[|stack| - 2].phase.Verifying? || stack[|stack| - 2].phase.Computing?
    requires stack[|stack| - 2].phase.Verifying? ==> stack[|stack| - 2].unavailable.None?
    ensures var f := stack[|stack| - 2];
            StackExplained(rules, now, raised, WithTop(stack[..|stack| - 1], Delivered(f, Top(stack).phase.result)))
  {
    hide ErrorHolds, Remembers;
    var k, n := |stack| - 2, |stack| - 1;
    var f, r := stack[k], Top(stack).phase.result;
    var top := Delivered(f, r);
    var stack' := WithTop(stack[..n], top);
    assert FrameExplained(rules, now, raised, stack, n) && FrameExplained(rules, now, raised, stack, k);
    assert stack'[..k] == stack[..k];
    if r.Err? && !(f.phase.Verifying? && r.error.Unverifiable?) {
      SameError(rules, now, raised, stack, n, stack', k, r.error);
    }
    if f.phase.Computing? {
      forall e: Unavailability | ErrorHolds(rules, now, raised, stack, k, e)
        ensures ErrorHolds(rules, now, raised, stack', k, e)
      {
        SameError(rules, now, raised, stack, k, stack', k, e);
      }
      RememberNext(f, r);
      if top.phase.Computing? {
        forall e: Unavailability | Unavailable(e) in top.phase.answers
          ensures ErrorHolds(rules, now, raised, stack', k, e)
        {
          assert Unavailable(e) in f.phase.answers || r == Err(e);
        }
      }
    } else {
      NothingMet();
    }
    assert stack'[k] == top;
    assert FrameExplained(rules, now, raised, stack', k);
    PopExplained(rules, now, raised, stack, top);
  }

  lemma NothingMet()
    ensures Remembers(None, [])
  {
  }

  lemma RememberNext(f: Frame, r: QueryResult)
    requires f.phase.Computing? && Remembers(f.unavailable, f.phase.answers)
    ensures Delivered(f, r).phase.Computing? ==> Remembers(Delivered(f, r).unavailable, Delivered(f, r).phase.answers)
  {
    if r.Err? && (r.error.Unverifiable? || r.error.Cancelled?) {
      var e: Unavailability := r.error;
      var more := f.phase.answers + [Unavailable(e)];
      assert more[|f.phase.answers|] == Unavailable(e);
      if f.unavailable.Some? {
        var d: Unavailability :| f.unavailable.value == d && Unavailable(d) in f.phase.answers;
        assert Unavailable(d) in more;
      }
    }
  }

  // ---------------------------------------------------------------- cycles

  lemma JoinChains(rules: Rules, now: Inputs, a: seq<QueryKey>, b: seq<QueryKey>)
    requires a != [] && b != [] && a[|a| - 1] == b[0] && CallChain(rules, now, a) && CallChain(rules, now, b)
    ensures CallChain(rules, now, a + b[1..])
  {
    hide Calls;
    var joined := a + b[1..];
    forall i | 0 <= i < |joined| - 1
      ensures Calls(rules, now, joined[i], joined[i + 1])
    {
      if i < |a| - 1 {
        assert Calls(rules, now, a[i], a[i + 1]);
      } else {
        assert joined[i] == b[i - |a| + 1] && joined[i + 1] == b[i - |a| + 2];
        assert Calls(rules, now, b[i - |a| + 1], b[i - |a| + 2]);
      }
    }
  }

  lemma SuffixChain(rules: Rules, now: Inputs, chain: seq<QueryKey>, j: nat)
    requires CallChain(rules, now, chain) && j <= |chain|
    ensures CallChain(rules, now, chain[j..])
  {
    hide Calls;
    var rest := chain[j..];
    forall i | 0 <= i < |rest| - 1
      ensures Calls(rules, now, rest[i], rest[i + 1])
    {
      assert Calls(rules, now, chain[j + i], chain[j + i + 1]);
    }
  }

  // The queries of a clean stack call each other.
  lemma CleanChain(rules: Rules, v: View, stack: seq<Frame>)
    requires StackHolds(rules, v, stack) && Clean(stack)
    ensures CallChain(rules, Values(v.inputs), StackQueries(stack))
  {
    hide FrameHolds, Calls;
    var chain := StackQueries(stack);
    forall j | 0 <= j < |chain| - 1
      ensures Calls(rules, Values(v.inputs), chain[j], chain[j + 1])
    {
      assert FrameHolds(rules, v, stack[j], ChildOf(stack, j)) && FrameHolds(rules, v, stack[j + 1], ChildOf(stack, j + 1));
      FrameCalls(rules, v, stack[j], stack[j + 1], ChildOf(stack, j + 1));
    }
  }

  lemma FrameCalls(rules: Rules, v: View, f: Frame, child: Frame, grandchild: Option<QueryKey>)
    requires FrameHolds(rules, v, f, Some(child.query)) && FrameHolds(rules, v, child, grandchild)
    requires f.phase.Computing? && f.unavailable.None?
    ensures Calls(rules, Values(v.inputs), f.query, child.query)
  {
    hide Genuine, ReadsListed, OnlyReads, VerifiedIn;
    assert Genuine(rules, Values(v.inputs), f.query, f.phase.answers);
  }

  // From a query that a snapshot owns, calls lead to the one it waits for, and so on along the
  // edges, up to the query that `i` is about to ask for.
  lemma {:induction false} OwnerCalls(rules: Rules, s: State, i: SnapshotId, a: SnapshotId, n: nat, j: int, k: QueryKey) returns (chain: seq<QueryKey>)
    requires Inv(rules, s) && Explained(rules, s) && Edges(s)
    requires StackOf(s, i) != [] && Top(StackOf(s, i)).phase.Entering? && Clean(StackOf(s, i))
    requires Hop(s.graph, a, n) == Some(i) && OwnsAt(StackOf(s, a), PromiseOf(s, a), j, k)
    ensures |chain| > 1 && chain[0] == k && chain[|chain| - 1] == Top(StackOf(s, i)).query
    ensures CallChain(rules, Values(s.inputs), chain)
    decreases n
  {
    var stack := StackOf(s, a);
    var queries := StackQueries(stack);
    hide StorageHolds, SlotsHold, RepliesHold, OwnershipHolds, PromisesHold, StackHolds, RepliesExplained, FrameExplained, CallChain;
    assert StackHolds(rules, ViewOf(s), stack);
    if n == 0 {
      EnteringFrame(rules, ViewOf(s), stack);
      CleanChain(rules, ViewOf(s), stack);
      SuffixChain(rules, Values(s.inputs), queries, j);
      chain := queries[j..];
    } else {
      var o := s.graph[a];
      assert BlockedOn(s, a, o);
      var asked := Top(stack).query;
      var m :| OwnsAt(StackOf(s, o), PromiseOf(s, o), m, asked);
      var rest := OwnerCalls(rules, s, i, o, n - 1, m, asked);
      assert StackExplained(rules, Values(s.inputs), s.revision in s.raises, stack);
      CleanChain(rules, ViewOf(s), stack);
      SuffixChain(rules, Values(s.inputs), queries, j);
      JoinChains(rules, Values(s.inputs), queries[j..], rest);
      chain := queries[j..] + rest[1..];
    }
  }

  ghost predicate Edges(s: State) {
    forall w, o :: w in s.graph && s.graph[w] == o <==> BlockedOn(s, w, o)
  }

  // A stack that neither verifies nor has met a cancellation is clean when it asks for a query.
  lemma AskingIsClean(rules: Rules, v: View, now: Inputs, raised: bool, stack: seq<Frame>)
    requires StackHolds(rules, v, stack) && StackExplained(rules, now, raised, stack)
    requires stack != [] && Top(stack).phase.Entering? && !AnyVerifying(stack) && !CancelSeen(stack)
    ensures Clean(stack)
  {
    hide Genuine, ReadsListed, OnlyReads, CycleHolds, MissingHolds;
    forall j: nat | j < |stack|
      ensures !stack[j].phase.Verifying? && stack[j].unavailable.None?
    {
      assert FrameExplained(rules, now, raised, stack, j);
      if j == |stack| - 1 {
        EnteringFrame(rules, v, stack);
      }
    }
  }

  // A refused edge means a cycle of actual calls, through any number of snapshots.
  lemma ConflictIsCycle(rules: Rules, s: State, i: SnapshotId)
    requires Inv(rules, s) && Explained(rules, s) && StackOf(s, i) != [] && Top(StackOf(s, i)).phase.Entering?
    requires Top(StackOf(s, i)).query in s.slots && Closes(s, i, Top(StackOf(s, i)).query)
    requires !AnyVerifying(StackOf(s, i)) && !CancelSeen(StackOf(s, i))
    ensures CycleHolds(rules, Values(s.inputs), StackQueries(StackOf(s, i)))
  {
    hide Inv, Explained, OwnsAt, AnyVerifying, CancelSeen, Edges, StackHolds, StackExplained, CallChain, Clean, Hop;
    var stack := StackOf(s, i);
    var q := Top(stack).query;
    EdgesHold(rules, s);
    StacksHold(rules, s, i);
    AskingIsClean(rules, ViewOf(s), Values(s.inputs), s.revision in s.raises, stack);
    CleanChain(rules, ViewOf(s), stack);
    var o := s.slots[q].owner;
    var n: nat :| Hop(s.graph, o, n) == Some(i);
    OwnerExists(rules, s, q);
    var j :| OwnsAt(StackOf(s, o), PromiseOf(s, o), j, q);
    var chain := OwnerCalls(rules, s, i, o, n, j, q);
    assert OnCycle(rules, Values(s.inputs), q);
  }

  lemma EdgesHold(rules: Rules, s: State)
    requires Inv(rules, s)
    ensures Edges(s)
  {
    hide Inv;
    EdgesAreExact(rules, s);
  }

  lemma StacksHold(rules: Rules, s: State, i: SnapshotId)
    requires Inv(rules, s) && Explained(rules, s)
    ensures StackHolds(rules, ViewOf(s), StackOf(s, i))
    ensures StackExplained(rules, Values(s.inputs), s.revision in s.raises, StackOf(s, i))
  {
    hide StorageHolds, SlotsHold, RepliesHold, OwnershipHolds, PromisesHold, StackHolds, StackExplained, RepliesExplained;
  }

  lemma OwnerExists(rules: Rules, s: State, q: QueryKey)
    requires Inv(rules, s) && q in s.slots
    ensures var o := s.slots[q].owner; exists j :: OwnsAt(StackOf(s, o), PromiseOf(s, o), j, q)
  {
    hide StorageHolds, SlotsHold, RepliesHold, PromisesHold, StackHolds, OwnsAt;
    assert HasOwner(s, q);
  }

  // ---------------------------------------------------------------- deadlocks

  // `w` waits for a query that `o` has in progress.
  ghost predicate Blocks(s: State, w: SnapshotId, o: SnapshotId) {
    exists k, j :: WaitsFor(StackOf(s, w), PromiseOf(s, w), k) && OwnsAt(StackOf(s, o), PromiseOf(s, o), j, k)
  }

  // The owner of a query waits for a snapshot that waits for another, and so on up to `i`.
  ghost predicate Deadlock(s: State, i: SnapshotId, k: QueryKey, path: seq<SnapshotId>) {
    && path != [] && path[|path| - 1] == i
    && (exists j :: OwnsAt(StackOf(s, path[0]), PromiseOf(s, path[0]), j, k))
    && (forall x :: 0 <= x < |path| - 1 ==> Blocks(s, path[x], path[x + 1]))
  }

  lemma BlocksIsEdge(rules: Rules, s: State, w: SnapshotId, o: SnapshotId)
    requires Inv(rules, s)
    ensures Blocks(s, w, o) <==> w in s.graph && s.graph[w] == o
  {
    EdgesHold(rules, s);
    hide StorageHolds, RepliesHold, StackHolds, PromisesHold, OwnsAt, Acyclic, OwnersUnique, OwnersExist;
    if Blocks(s, w, o) {
      var k, j :| WaitsFor(StackOf(s, w), PromiseOf(s, w), k) && OwnsAt(StackOf(s, o), PromiseOf(s, o), j, k);
      assert WaitsIn(s.slots, w, k);
    }
    if w in s.graph && s.graph[w] == o {
      assert BlockedOn(s, w, o);
      assert WaitsFor(StackOf(s, w), PromiseOf(s, w), Top(StackOf(s, w)).query);
    }
  }

  lemma {:induction false} HopPath(rules: Rules, s: State, a: SnapshotId, n: nat, i: SnapshotId) returns (path: seq<SnapshotId>)
    requires Inv(rules, s) && Hop(s.graph, a, n) == Some(i)
    ensures path != [] && path[0] == a && path[|path| - 1] == i
    ensures forall x :: 0 <= x < |path| - 1 ==> Blocks(s, path[x], path[x + 1])
    decreases n
  {
    hide Inv, Blocks;
    if n == 0 {
      path := [a];
    } else {
      var rest := HopPath(rules, s, s.graph[a], n - 1, i);
      path := [a] + rest;
      BlocksIsEdge(rules, s, a, s.graph[a]);
      forall x | 0 <= x < |path| - 1
        ensures Blocks(s, path[x], path[x + 1])
      {
        assert x > 0 ==> path[x] == rest[x - 1] && path[x + 1] == rest[x];
      }
    }
  }

  lemma {:induction false} PathHops(rules: Rules, s: State, path: seq<SnapshotId>)
    requires Inv(rules, s) && path != [] && forall x :: 0 <= x < |path| - 1 ==> Blocks(s, path[x], path[x + 1])
    ensures Hop(s.graph, path[0], |path| - 1) == Some(path[|path| - 1])
    decreases |path|
  {
    hide Inv, Blocks;
    if |path| > 1 {
      var rest := path[1..];
      assert Blocks(s, path[0], path[1]);
      BlocksIsEdge(rules, s, path[0], path[1]);
      forall x | 0 <= x < |rest| - 1
        ensures Blocks(s, rest[x], rest[x + 1])
      {
        assert rest[x] == path[x + 1] && rest[x + 1] == path[x + 2];
      }
      PathHops(rules, s, rest);
    }
  }

  // An edge is refused exactly if the snapshot would wait for itself, through those that wait.
  lemma ClosesIsDeadlock(rules: Rules, s: State, i: SnapshotId, k: QueryKey)
    requires Inv(rules, s) && k in s.slots
    ensures Closes(s, i, k) <==> exists path :: Deadlock(s, i, k, path)
  {
    hide Inv, Blocks, OwnsAt;
    if Closes(s, i, k) {
      var n: nat :| Hop(s.graph, s.slots[k].owner, n) == Some(i);
      var path := HopPath(rules, s, s.slots[k].owner, n, i);
      OwnerExists(rules, s, k);
      assert Deadlock(s, i, k, path);
    }
    if path :| Deadlock(s, i, k, path) {
      OwnerIsListed(rules, s, path[0], k);
      PathHops(rules, s, path);
    }
  }

  lemma OwnerIsListed(rules: Rules, s: State, o: SnapshotId, k: QueryKey)
    requires Inv(rules, s) && k in s.slots && exists j :: OwnsAt(StackOf(s, o), PromiseOf(s, o), j, k)
    ensures s.slots[k].owner == o
  {
    hide StorageHolds, SlotsHold, RepliesHold, PromisesHold, StackHolds, OwnsAt;
  }

  // ---------------------------------------------------------------- every step

  // What a move of one snapshot leaves alone.
  ghost predicate SameElsewhere(s: State, t: State, i: SnapshotId) {
    && t.revision == s.revision && t.inputs == s.inputs && t.history == s.history
    && t.cancelled == s.cancelled && t.raises == s.raises
    && (forall n :: n != i ==> StackOf(t, n) == StackOf(s, n))
  }

  lemma MoveExplained(rules: Rules, s: State, t: State, i: SnapshotId)
    requires Explained(rules, s) && SameElsewhere(s, t, i) && t.replies == s.replies
    requires StackExplained(rules, Values(s.inputs), s.revision in s.raises, StackOf(t, i))
    ensures Explained(rules, t)
  {
    hide StackExplained, ReplyExplained;
    forall n
      ensures StackExplained(rules, Values(t.inputs), t.revision in t.raises, StackOf(t, n))
    {
      assert n != i ==> StackExplained(rules, Values(s.inputs), s.revision in s.raises, StackOf(s, n));
    }
  }

  // A move that replaces the frame on top.
  lemma TopMove(rules: Rules, s: State, t: State, i: SnapshotId, top: Frame)
    requires Explained(rules, s) && SameElsewhere(s, t, i) && t.replies == s.replies && StackOf(s, i) != []
    requires StackOf(t, i) == WithTop(StackOf(s, i), top) && top.query == Top(StackOf(s, i)).query
    requires FrameExplained(rules, Values(s.inputs), s.revision in s.raises, WithTop(StackOf(s, i), top), |StackOf(s, i)| - 1)
    requires top.phase.Waiting? ==> Clean(WithTop(StackOf(s, i), top))
    ensures Explained(rules, t)
  {
    hide StackExplained, RepliesExplained, FrameExplained, Clean;
    assert StackExplained(rules, Values(s.inputs), s.revision in s.raises, StackOf(s, i));
    TopExplained(rules, Values(s.inputs), s.revision in s.raises, StackOf(s, i), top);
    MoveExplained(rules, s, t, i);
  }

  // Frames that have met nothing need no explanation.
  predicate IsPlain(f: Frame) {
    match f.phase
    case Leaving(r) => r.Ok?
    case Computing(answers, _) => answers == [] && f.unavailable.None?
    case Waiting => false
    case _ => true
  }

  lemma PlainMove(rules: Rules, s: State, t: State, i: SnapshotId, top: Frame)
    requires Explained(rules, s) && SameElsewhere(s, t, i) && t.replies == s.replies && StackOf(s, i) != []
    requires StackOf(t, i) == WithTop(StackOf(s, i), top) && top.query == Top(StackOf(s, i)).query && IsPlain(top)
    ensures Explained(rules, t)
  {
    NothingMet();
    hide Explained, SameElsewhere, Remembers;
    TopMove(rules, s, t, i, top);
  }

  lemma CancelStep(rules: Rules, s: State, i: SnapshotId)
    requires Explained(rules, s) && StackOf(s, i) != [] && (s.cancelled || CancelSeen(StackOf(s, i)))
    ensures Explained(rules, WithStack(s, i, WithTop(StackOf(s, i), Top(StackOf(s, i)).(phase := Leaving(Err(Cancelled))))))
  {
    hide RepliesExplained;
    var stack := StackOf(s, i);
    assert StackExplained(rules, Values(s.inputs), s.revision in s.raises, stack);
    if CancelSeen(stack) {
      var j: nat :| j < |stack| && stack[j].phase.Computing? && Unavailable(Cancelled) in stack[j].phase.answers;
      assert FrameExplained(rules, Values(s.inputs), s.revision in s.raises, stack, j);
      assert ErrorHolds(rules, Values(s.inputs), s.revision in s.raises, stack, j, Cancelled);
    }
    var top := Top(stack).(phase := Leaving(Err(Cancelled)));
    TopMove(rules, s, WithStack(s, i, WithTop(stack, top)), i, top);
  }

  lemma ConflictStep(rules: Rules, s: State, i: SnapshotId)
    requires Inv(rules, s) && Explained(rules, s) && StackOf(s, i) != [] && CanMove(s, i, Conflict)
    ensures Explained(rules, Conflicted(s, i))
  {
    hide Inv, Explained, Closes, CycleHolds, CancelSeen;
    var stack := StackOf(s, i);
    var error := if AnyVerifying(stack) then Unverifiable else Cycle(StackQueries(stack));
    var top := Top(stack).(phase := Leaving(Err(error)));
    var after := WithTop(stack, top);
    assert ErrorHolds(rules, Values(s.inputs), s.revision in s.raises, after, |stack| - 1, error) by {
      if AnyVerifying(stack) {
        var l :| 0 <= l < |stack| && stack[l].phase.Verifying?;
        assert after[l] == stack[l];
      } else {
        ConflictIsCycle(rules, s, i);
        assert StackQueries(after[..|stack|]) == StackQueries(stack);
      }
    }
    hide AnyVerifying;
    TopMove(rules, s, Conflicted(s, i), i, top);
  }

  lemma WaitStep(rules: Rules, s: State, i: SnapshotId)
    requires Inv(rules, s) && Explained(rules, s) && StackOf(s, i) != [] && CanMove(s, i, Wait)
    ensures Explained(rules, Waited(s, i))
  {
    hide Inv, Explained, Closes, CancelSeen, AnyVerifying, StackHolds, StackExplained;
    var stack := StackOf(s, i);
    StacksHold(rules, s, i);
    AskingIsClean(rules, ViewOf(s), Values(s.inputs), s.revision in s.raises, stack);
    assert SameElsewhere(s, Waited(s, i), i) && StackOf(Waited(s, i), i) == WithTop(stack, Top(stack).(phase := Waiting));
    hide Waited, SameElsewhere;
    TopMove(rules, s, Waited(s, i), i, Top(stack).(phase := Waiting));
  }

  lemma RaiseStep(rules: Rules, s: State, i: SnapshotId, e: ComputeError)
    requires HonestRules(rules) && Inv(rules, s) && Explained(rules, s) && StackOf(s, i) != [] && Top(StackOf(s, i)).phase.Computing?
    requires rules(Top(StackOf(s, i)).query, Top(StackOf(s, i)).phase.answers) == Raise(e)
    ensures Explained(rules, WithStack(s, i, WithTop(StackOf(s, i), Top(StackOf(s, i)).(phase := Leaving(Err(e))))))
  {
    hide Inv, Explained, StackHolds, StackExplained, SameElsewhere, FrameExplained, HonestRules, MissingHolds;
    var stack := StackOf(s, i);
    var top := Top(stack).(phase := Leaving(Err(e)));
    StacksHold(rules, s, i);
    TopIsExplained(rules, Values(s.inputs), s.revision in s.raises, stack);
    if e.MissingContent? {
      RaisedIsMissing(rules, s, i, e.file);
    }
    RaiseExplained(rules, Values(s.inputs), s.revision in s.raises, stack, e);
    StackStep(s, i, WithTop(stack, top));
    TopMove(rules, s, WithStack(s, i, WithTop(stack, top)), i, top);
  }

  lemma TopIsExplained(rules: Rules, now: Inputs, raised: bool, stack: seq<Frame>)
    requires StackExplained(rules, now, raised, stack) && stack != []
    ensures FrameExplained(rules, now, raised, stack, |stack| - 1)
  {
    hide FrameExplained;
  }

  lemma RaiseExplained(rules: Rules, now: Inputs, raised: bool, stack: seq<Frame>, e: ComputeError)
    requires HonestRules(rules) && stack != [] && Top(stack).phase.Computing? && FrameExplained(rules, now, raised, stack, |stack| - 1)
    requires rules(Top(stack).query, Top(stack).phase.answers) == Raise(e) && (e.MissingContent? ==> MissingHolds(rules, now, e.file))
    ensures FrameExplained(rules, now, raised, WithTop(stack, Top(stack).(phase := Leaving(Err(e)))), |stack| - 1)
  {
    hide CycleHolds, MissingHolds, Remembers;
    var n := |stack| - 1;
    var after := WithTop(stack, Top(stack).(phase := Leaving(Err(e))));
    if !e.MissingContent? {
      assert Unavailable(e) in Top(stack).phase.answers;
      assert after[..n] == stack[..n];
      SameError(rules, now, raised, stack, n, after, n, e);
    }
  }

  lemma RaisedIsMissing(rules: Rules, s: State, i: SnapshotId, file: FileId)
    requires Inv(rules, s) && Explained(rules, s) && StackOf(s, i) != [] && Top(StackOf(s, i)).phase.Computing?
    requires rules(Top(StackOf(s, i)).query, Top(StackOf(s, i)).phase.answers) == Raise(MissingContent(file))
    ensures MissingHolds(rules, Values(s.inputs), file)
  {
    hide Inv, Explained;
    var stack := StackOf(s, i);
    var f := Top(stack);
    StacksHold(rules, s, i);
    assert FrameExplained(rules, Values(s.inputs), s.revision in s.raises, stack, |stack| - 1);
    assert FrameHolds(rules, ViewOf(s), f, ChildOf(stack, |stack| - 1));
    hide StackHolds, StackExplained, ErrorHolds, Genuine, ReadsListed, OnlyReads;
    assert SaysMissing(rules, file);
    if PassesOn(rules) {
      NothingUnavailable(rules, f.query, f.phase.answers);
      assert f.unavailable.None?;
      assert RaisesMissing(rules, Values(s.inputs), f.query, file);
    }
  }

  lemma NothingUnavailable(rules: Rules, k: QueryKey, answers: seq<Answer>)
    requires PassesOn(rules) && rules(k, answers).Raise? && rules(k, answers).error.MissingContent?
    ensures forall e :: Unavailable(e) !in answers
  {
  }

  // A compute function that swallowed an unavailability is not believed.
  lemma SwallowStep(rules: Rules, s: State, i: SnapshotId)
    requires Explained(rules, s) && StackOf(s, i) != [] && Top(StackOf(s, i)).phase.Computing? && Top(StackOf(s, i)).unavailable.Some?
    ensures var stack, e := StackOf(s, i), Top(StackOf(s, i)).unavailable.value;
            Explained(rules, WithStack(s, i, WithTop(stack, Top(stack).(phase := Leaving(Err(e))))))
  {
    hide RepliesExplained, CycleHolds, MissingHolds;
    var stack := StackOf(s, i);
    var n, now, raised := |stack| - 1, Values(s.inputs), s.revision in s.raises;
    assert StackExplained(rules, now, raised, stack);
    assert FrameExplained(rules, now, raised, stack, n);
    var e: Unavailability :| Top(stack).unavailable.value == e && Unavailable(e) in Top(stack).phase.answers;
    var top := Top(stack).(phase := Leaving(Err(e)));
    assert WithTop(stack, top)[..n] == stack[..n];
    SameError(rules, now, raised, stack, n, WithTop(stack, top), n, e);
    hide StackExplained, Explained;
    TopMove(rules, s, WithStack(s, i, WithTop(stack, top)), i, top);
  }

  function Answered(f: Frame, d: QueryKey, a: Answer): Frame
    requires f.phase.Computing?
  {
    f.(dependencies := f.dependencies + {d}, phase := Computing(f.phase.answers + [a], f.phase.previous))
  }

  // An answer that is no unavailability adds nothing to explain.
  lemma InputExplained(rules: Rules, now: Inputs, raised: bool, stack: seq<Frame>, d: QueryKey, a: Answer)
    requires stack != [] && Top(stack).phase.Computing? && FrameExplained(rules, now, raised, stack, |stack| - 1) && !a.Unavailable?
    ensures FrameExplained(rules, now, raised, WithTop(stack, Answered(Top(stack), d, a)), |stack| - 1)
  {
    hide ErrorHolds, Remembers;
    var n, f, top := |stack| - 1, Top(stack), Answered(Top(stack), d, a);
    var after := WithTop(stack, top);
    assert after[..n] == stack[..n];
    RememberMore(f.unavailable, f.phase.answers, a);
    forall e: Unavailability | Unavailable(e) in top.phase.answers
      ensures ErrorHolds(rules, now, raised, after, n, e)
    {
      assert Unavailable(e) in f.phase.answers;
      SameError(rules, now, raised, stack, n, after, n, e);
    }
  }

  lemma RememberMore(unavailable: Option<QueryError>, answers: seq<Answer>, a: Answer)
    requires Remembers(unavailable, answers) && !a.Unavailable?
    ensures Remembers(unavailable, answers + [a])
  {
    if unavailable.Some? {
      var e: Unavailability :| unavailable.value == e && Unavailable(e) in answers;
      assert Unavailable(e) in answers + [a];
    }
  }

  lemma InputStep(rules: Rules, s: State, i: SnapshotId, d: QueryKey, a: Answer)
    requires Explained(rules, s) && StackOf(s, i) != [] && Top(StackOf(s, i)).phase.Computing? && !a.Unavailable?
    ensures Explained(rules, WithStack(s, i, WithTop(StackOf(s, i), Answered(Top(StackOf(s, i)), d, a))))
  {
    hide RepliesExplained, FrameExplained, SameElsewhere;
    var stack := StackOf(s, i);
    assert StackExplained(rules, Values(s.inputs), s.revision in s.raises, stack);
    assert FrameExplained(rules, Values(s.inputs), s.revision in s.raises, stack, |stack| - 1);
    hide StackExplained, Explained;
    InputExplained(rules, Values(s.inputs), s.revision in s.raises, stack, d, a);
    StackStep(s, i, WithTop(stack, Answered(Top(stack), d, a)));
    TopMove(rules, s, WithStack(s, i, WithTop(stack, Answered(Top(stack), d, a))), i, Answered(Top(stack), d, a));
  }

  lemma PushStep(rules: Rules, s: State, i: SnapshotId, top: Frame, d: QueryKey)
    requires Explained(rules, s) && StackOf(s, i) != []
    requires top.query == Top(StackOf(s, i)).query && top.phase == Top(StackOf(s, i)).phase && top.unavailable == Top(StackOf(s, i)).unavailable
    ensures Explained(rules, WithStack(s, i, WithTop(StackOf(s, i), top) + [NewFrame(d)]))
  {
    hide StackExplained, RepliesExplained;
    var stack := StackOf(s, i);
    assert StackExplained(rules, Values(s.inputs), s.revision in s.raises, stack);
    PushExplained(rules, Values(s.inputs), s.revision in s.raises, stack, top, d);
    MoveExplained(rules, s, WithStack(s, i, WithTop(stack, top) + [NewFrame(d)]), i);
  }

  lemma StoredStep(rules: Rules, s: State, i: SnapshotId, entry: Entry)
    requires Explained(rules, s) && StackOf(s, i) != [] && Top(StackOf(s, i)).query in s.slots
    ensures Explained(rules, Stored(s, i, entry))
  {
    var t := Stored(s, i, entry);
    var top := Top(StackOf(s, i)).(inProgress := false, phase := Leaving(Ok(entry.value)));
    assert SameElsewhere(s, t, i) && StackOf(t, i) == WithTop(StackOf(s, i), top) && t.replies == s.replies;
    hide Explained, Stored, SameElsewhere;
    PlainMove(rules, s, t, i, top);
  }

  lemma StartedStep(rules: Rules, s: State, i: SnapshotId)
    requires Inv(rules, s) && Explained(rules, s) && StackOf(s, i) != [] && Top(StackOf(s, i)).phase.Entering?
    ensures Explained(rules, Started(s, i))
  {
    hide Inv, Explained;
    MetNothing(rules, s, i);
    var t := Started(s, i);
    var top := StartedFrame(s, Top(StackOf(s, i)));
    assert SameElsewhere(s, t, i) && StackOf(t, i) == WithTop(StackOf(s, i), top);
    hide Started, SameElsewhere;
    PlainMove(rules, s, t, i, top);
  }

  // A frame that does not compute has met no unavailability.
  lemma MetNothing(rules: Rules, s: State, i: SnapshotId)
    requires Inv(rules, s) && StackOf(s, i) != []
    ensures Top(StackOf(s, i)).phase.Entering? || Top(StackOf(s, i)).phase.Waiting? || Top(StackOf(s, i)).phase.Verifying? ==>
              Top(StackOf(s, i)).unavailable.None?
  {
    hide StorageHolds, SlotsHold, RepliesHold, OwnershipHolds, PromisesHold;
    var stack := StackOf(s, i);
    assert StackHolds(rules, ViewOf(s), stack);
    assert FrameHolds(rules, ViewOf(s), Top(stack), ChildOf(stack, |stack| - 1));
  }

  lemma VerifyStep(rules: Rules, s: State, i: SnapshotId, move: Move)
    requires Inv(rules, s) && Explained(rules, s) && StackOf(s, i) != [] && CanMove(s, i, move) && TopOwns(s, i)
    requires move.VerifyRead? || move.VerifyAsk? || move.VerifyEnd?
    ensures Explained(rules, Moved(rules, s, i, move))
  {
    hide Inv, Explained, Stored, SameElsewhere;
    MetNothing(rules, s, i);
    var stack := StackOf(s, i);
    var f := Top(stack);
    var t := Moved(rules, s, i, move);
    if move.VerifyAsk? {
      assert WithTop(stack, f) == stack;
      PushStep(rules, s, i, f, move.dependency);
    } else if move.VerifyEnd? && f.phase.entry.trace.built >= f.phase.latest {
      StoredStep(rules, s, i, Stamped(f.phase.entry, s.revision));
    } else {
      StackStep(s, i, StackOf(t, i));
      PlainMove(rules, s, t, i, Top(StackOf(t, i)));
    }
  }

  lemma StackStep(s: State, i: SnapshotId, stack: seq<Frame>)
    ensures SameElsewhere(s, WithStack(s, i, stack), i) && StackOf(WithStack(s, i, stack), i) == stack
  {
  }

  lemma WakeStep(rules: Rules, s: State, i: SnapshotId)
    requires Inv(rules, s) && Explained(rules, s) && StackOf(s, i) != [] && Top(StackOf(s, i)).phase.Waiting?
    ensures Explained(rules, Woken(s, i))
  {
    hide Inv, Explained, SameElsewhere;
    MetNothing(rules, s, i);
    var t := Woken(s, i);
    StackStep(s, i, StackOf(t, i));
    PlainMove(rules, s, t, i, Top(StackOf(t, i)));
  }

  lemma HitStep(rules: Rules, s: State, i: SnapshotId, v: Value)
    requires Explained(rules, s) && StackOf(s, i) != []
    ensures Explained(rules, WithStack(s, i, WithTop(StackOf(s, i), Top(StackOf(s, i)).(phase := Leaving(Ok(v))))))
  {
    hide Explained, SameElsewhere;
    var top := Top(StackOf(s, i)).(phase := Leaving(Ok(v)));
    StackStep(s, i, WithTop(StackOf(s, i), top));
    PlainMove(rules, s, WithStack(s, i, WithTop(StackOf(s, i), top)), i, top);
  }

  lemma ComputeStep(rules: Rules, s: State, i: SnapshotId)
    requires HonestRules(rules) && Inv(rules, s) && Explained(rules, s) && StackOf(s, i) != []
    requires Top(StackOf(s, i)).phase.Computing? && Top(StackOf(s, i)).query in s.slots
    ensures Explained(rules, Computed(rules, s, i))
  {
    hide Inv, Explained, HonestRules, Stored;
    var f := Top(StackOf(s, i));
    match rules(f.query, f.phase.answers)
    case Return(v) =>
      if f.unavailable.Some? {
        SwallowStep(rules, s, i);
      } else {
        StoredStep(rules, s, i, NewEntry(s, f, v));
      }
    case Raise(e) => RaiseStep(rules, s, i, e);
    case Read(d) =>
      if d.IsInput() {
        InputStep(rules, s, i, d, Lookup(Values(s.inputs), d));
      } else {
        PushStep(rules, s, i, f.(dependencies := f.dependencies + {d}), d);
      }
  }

  lemma ExitShape(s: State, i: SnapshotId)
    requires StackOf(s, i) != [] && Top(StackOf(s, i)).phase.Leaving?
    requires Top(StackOf(s, i)).inProgress ==> Top(StackOf(s, i)).query in s.slots
    ensures var stack, t := StackOf(s, i), Exited(s, i);
            && SameElsewhere(s, t, i)
            && (|stack| == 1 ==>
                StackOf(t, i) == [] && t.replies == s.replies + [Reply(Top(stack).query, s.revision, Top(stack).phase.result)])
            && (|stack| > 1 ==>
                t.replies == s.replies &&
                StackOf(t, i) == WithTop(stack[..|stack| - 1], Delivered(stack[|stack| - 2], Top(stack).phase.result)))
  {
    hide Delivered, HandedOff, Inherited;
    var stack := StackOf(s, i);
    var c := if Top(stack).inProgress then CleanedUp(s, Top(stack).query) else s;
    assert c.stacks == s.stacks && c.replies == s.replies && c.inputs == s.inputs && c.revision == s.revision
           && c.history == s.history && c.cancelled == s.cancelled && c.raises == s.raises;
    hide CleanedUp;
  }

  lemma ExitStep(rules: Rules, s: State, i: SnapshotId)
    requires Inv(rules, s) && Explained(rules, s) && StackOf(s, i) != [] && Top(StackOf(s, i)).phase.Leaving?
    requires Top(StackOf(s, i)).inProgress ==> Top(StackOf(s, i)).query in s.slots
    ensures Explained(rules, Exited(s, i))
  {
    hide Inv, Explained, StackExplained;
    var stack, t := StackOf(s, i), Exited(s, i);
    var now, raised := Values(s.inputs), s.revision in s.raises;
    ExitShape(s, i);
    StacksHold(rules, s, i);
    hide Exited, SameElsewhere;
    if |stack| == 1 {
      LastStep(rules, s, t, i);
    } else {
      BelowTop(rules, ViewOf(s), stack);
      hide StackHolds;
      DeliverExplained(rules, now, raised, stack);
      MoveExplained(rules, s, t, i);
    }
  }

  lemma BelowTop(rules: Rules, v: View, stack: seq<Frame>)
    requires StackHolds(rules, v, stack) && |stack| > 1
    ensures var f := stack[|stack| - 2];
            (f.phase.Verifying? || f.phase.Computing?) && (f.phase.Verifying? ==> f.unavailable.None?)
  {
    assert FrameHolds(rules, v, stack[|stack| - 2], ChildOf(stack, |stack| - 2));
  }

  // The last frame answers the outside.
  lemma LastStep(rules: Rules, s: State, t: State, i: SnapshotId)
    requires Inv(rules, s) && Explained(rules, s) && SameElsewhere(s, t, i)
    requires |StackOf(s, i)| == 1 && Top(StackOf(s, i)).phase.Leaving? && StackOf(t, i) == []
    requires var top := Top(StackOf(s, i)); t.replies == s.replies + [Reply(top.query, s.revision, top.phase.result)]
    ensures Explained(rules, t)
  {
    var stack := StackOf(s, i);
    var top := Top(stack);
    var now, raised := Values(s.inputs), s.revision in s.raises;
    assert |s.history| == s.revision + 1 && s.history[s.revision] == now;
    hide Inv, CycleHolds, MissingHolds;
    assert StackExplained(rules, now, raised, stack);
    assert FrameExplained(rules, now, raised, stack, 0);
    if top.phase.result.Err? {
      assert StackQueries(stack[..1]) == [top.query];
    }
    forall n
      ensures StackExplained(rules, Values(t.inputs), t.revision in t.raises, StackOf(t, n))
    {
      assert n != i ==> StackExplained(rules, now, raised, StackOf(s, n));
    }
  }

  lemma BeginStep(rules: Rules, s: State, i: SnapshotId, query: QueryKey)
    requires Explained(rules, s)
    ensures Explained(rules, WithStack(s, i, [NewFrame(query)]))
  {
    hide RepliesExplained;
    MoveExplained(rules, s, WithStack(s, i, [NewFrame(query)]), i);
  }

  // With every stack empty, only the replies are left to explain.
  lemma RestStep(rules: Rules, s: State, t: State)
    requires Explained(rules, s) && (forall i :: i in s.stacks ==> s.stacks[i] == []) && t.stacks == s.stacks
    requires t.replies == s.replies && s.history <= t.history && t.raises == s.raises && !t.cancelled
    ensures Explained(rules, t)
  {
    hide ReplyExplained;
    assert forall i :: StackOf(t, i) == [];
    forall n: nat | n < |t.replies| && t.replies[n].result.Err?
      ensures var reply := t.replies[n];
              reply.revision < |t.history| &&
              ReplyExplained(rules, t.history[reply.revision], reply.revision in t.raises, reply.query, reply.result.error)
    {
      assert t.history[..|s.history|] == s.history;
      assert t.history[..|s.history|][t.replies[n].revision] == s.history[s.replies[n].revision];
    }
  }

  lemma FlagStep(rules: Rules, s: State)
    requires Explained(rules, s)
    ensures Explained(rules, s.(cancelled := true, raises := s.raises + {s.revision}))
  {
    hide CycleHolds, MissingHolds;
    var t := s.(cancelled := true, raises := s.raises + {s.revision});
    forall i
      ensures StackExplained(rules, Values(t.inputs), true, StackOf(t, i))
    {
      var stack := StackOf(s, i);
      assert StackOf(t, i) == stack && StackExplained(rules, Values(s.inputs), s.revision in s.raises, stack);
      RaisedExplains(rules, Values(s.inputs), s.revision in s.raises, stack);
    }
  }

  lemma RaisedExplains(rules: Rules, now: Inputs, raised: bool, stack: seq<Frame>)
    requires StackExplained(rules, now, raised, stack)
    ensures StackExplained(rules, now, true, stack)
  {
    hide CycleHolds, MissingHolds, Remembers;
    forall j: nat | j < |stack|
      ensures FrameExplained(rules, now, true, stack, j)
    {
      assert FrameExplained(rules, now, raised, stack, j);
    }
  }

  lemma ActExplained(rules: Rules, s: State, i: SnapshotId, move: Move)
    requires HonestRules(rules) && Inv(rules, s) && Explained(rules, s) && StackOf(s, i) != [] && CanMove(s, i, move) && TopOwns(s, i)
    ensures Explained(rules, Moved(rules, s, i, move))
  {
    hide Inv, Explained, HonestRules, Closes, AnyVerifying, CancelSeen, Waited, Started, Woken, Computed, Exited, Conflicted;
    if move.VerifyRead? || move.VerifyAsk? || move.VerifyEnd? {
      VerifyStep(rules, s, i, move);
    } else {
      match move
      case Cancel => CancelStep(rules, s, i);
      case Hit => HitStep(rules, s, i, s.entries[Top(StackOf(s, i)).query].value);
      case Conflict => ConflictStep(rules, s, i);
      case Wait => WaitStep(rules, s, i);
      case Start => StartedStep(rules, s, i);
      case Compute => ComputeStep(rules, s, i);
      case Wake => WakeStep(rules, s, i);
      case Exit => ExitStep(rules, s, i);
    }
  }

  lemma StepKeepsExplained(rules: Rules, s: State, step: Step)
    requires HonestRules(rules) && Inv(rules, s) && Explained(rules, s) && Enabled(s, step) && (step.Act? ==> TopOwns(s, step.i))
    ensures Explained(rules, Apply(rules, s, step))
  {
    hide Inv, Explained, HonestRules, CanMove, Moved, IsTransaction, TopOwns;
    match step
    case Begin(i, query) => BeginStep(rules, s, i, query);
    case Act(i, move) => ActExplained(rules, s, i, move);
    case Transaction(inputs, entries) => RestStep(rules, s, Apply(rules, s, step));
    case RaiseFlag => FlagStep(rules, s);
    case LowerFlag => RestStep(rules, s, Apply(rules, s, step));
  }

  // ---------------------------------------------------------------- every run

  lemma {:induction false} RunKeepsExplained(rules: Rules, states: seq<State>, steps: seq<Step>, n: nat)
    requires ScopedRules(rules) && HonestRules(rules) && IsRun(rules, states, steps) && n < |states|
    ensures Explained(rules, states[n])
  {
    hide Inv, ScopedRules, HonestRules, Enabled, TopOwns, Apply;
    if n == 0 {
      InitialExplained(rules);
    } else {
      RunKeepsExplained(rules, states, steps, n - 1);
      RunKeepsInv(rules, states, steps, n - 1);
      assert StepTaken(rules, states[n - 1], steps[n - 1], states[n]);
      StepKeepsExplained(rules, states[n - 1], steps[n - 1]);
    }
  }

  lemma InitialExplained(rules: Rules)
    ensures Explained(rules, INITIAL)
  {
    assert forall i :: StackOf(INITIAL, i) == [];
  }

  lemma {:induction false} RaisesAreSteps(rules: Rules, states: seq<State>, steps: seq<Step>, n: nat, revision: nat) returns (x: nat)
    requires IsRun(rules, states, steps) && n < |states| && revision in states[n].raises
    ensures x < n && steps[x] == RaiseFlag && states[x].revision == revision
  {
    hide TopOwns, Enabled;
    assert n > 0;
    assert StepTaken(rules, states[n - 1], steps[n - 1], states[n]);
    if revision in states[n - 1].raises {
      hide IsRun, StepTaken;
      x := RaisesAreSteps(rules, states, steps, n - 1, revision);
    } else {
      OnlyFlagRaises(rules, states[n - 1], steps[n - 1], revision);
      x := n - 1;
    }
  }

  lemma OnlyFlagRaises(rules: Rules, s: State, step: Step, revision: nat)
    requires Enabled(s, step) && (step.Act? ==> TopOwns(s, step.i))
    requires revision in Apply(rules, s, step).raises && revision !in s.raises
    ensures step == RaiseFlag && revision == s.revision
  {
    hide CanMove, Moved, TopOwns, IsTransaction;
    if step.Act? {
      MoveRaises(rules, s, step.i, step.move);
    }
  }

  lemma MoveRaises(rules: Rules, s: State, i: SnapshotId, move: Move)
    requires StackOf(s, i) != [] && CanMove(s, i, move) && TopOwns(s, i)
    ensures Moved(rules, s, i, move).raises == s.raises
  {
    hide Closes, AnyVerifying, CancelSeen, IsFresh, Stored, Exited, Computed, VerifyEnded, Started, Waited, WithTop;
    if move.Exit? {
      ExitShape(s, i);
    } else if move.Compute? {
      ComputedRaises(rules, s, i);
    } else if move.VerifyEnd? {
      VerifiedRaises(s, i);
    } else if move.Start? || move.Wait? {
      TakenRaises(s, i);
    }
  }

  lemma TakenRaises(s: State, i: SnapshotId)
    requires StackOf(s, i) != []
    ensures Started(s, i).raises == s.raises
    ensures Top(StackOf(s, i)).query in s.slots ==> Waited(s, i).raises == s.raises
  {
  }

  lemma StoredRaises(s: State, i: SnapshotId, entry: Entry)
    requires StackOf(s, i) != [] && Top(StackOf(s, i)).query in s.slots
    ensures Stored(s, i, entry).raises == s.raises
  {
    hide Released;
  }

  lemma VerifiedRaises(s: State, i: SnapshotId)
    requires StackOf(s, i) != [] && Top(StackOf(s, i)).phase.Verifying? && Top(StackOf(s, i)).query in s.slots
    ensures VerifyEnded(s, i).raises == s.raises
  {
    hide Stored;
    StoredRaises(s, i, Stamped(Top(StackOf(s, i)).phase.entry, s.revision));
  }

  lemma ComputedRaises(rules: Rules, s: State, i: SnapshotId)
    requires StackOf(s, i) != [] && Top(StackOf(s, i)).phase.Computing? && Top(StackOf(s, i)).query in s.slots
    ensures Computed(rules, s, i).raises == s.raises
  {
    hide Stored, NewEntry;
    forall e
      ensures Stored(s, i, e).raises == s.raises
    {
      StoredRaises(s, i, e);
    }
  }

  // Over every interleaving, an error that was answered to the outside is right about the inputs
  // of its revision: a cycle of actual calls, a content that a compute function misses, or a
  // cancellation that was asked for at that revision. An unverifiable dependency never gets out.
  lemma RunRepliesAreExplained(rules: Rules, states: seq<State>, steps: seq<Step>, n: nat, r: nat)
    requires ScopedRules(rules) && HonestRules(rules) && IsRun(rules, states, steps) && n < |states|
    requires r < |states[n].replies| && states[n].replies[r].result.Err?
    ensures states[n].replies[r].revision < |states[n].history| && states[n].replies[r].result != Err(Unverifiable)
    ensures var reply := states[n].replies[r];
            var inputs := states[n].history[reply.revision];
            match reply.result.error
            case Cancelled => exists x :: 0 <= x < n && steps[x] == RaiseFlag && states[x].revision == reply.revision
            case Cycle(stack) => CycleHolds(rules, inputs, stack) && stack[0] == reply.query && NoValue(rules, inputs, reply.query)
            case MissingContent(file) => MissingHolds(rules, inputs, file)
            case Unverifiable => true
  {
    hide IsRun, ScopedRules, HonestRules, MissingHolds, CallChain, OnCycle, NoValue, StackExplained;
    RunKeepsExplained(rules, states, steps, n);
    var reply := states[n].replies[r];
    assert ReplyExplained(rules, states[n].history[reply.revision], reply.revision in states[n].raises, reply.query, reply.result.error);
    if reply.result.error.Cancelled? {
      var x := RaisesAreSteps(rules, states, steps, n, reply.revision);
    } else if reply.result.error.Cycle? {
      var stack, inputs := reply.result.error.stack, states[n].history[reply.revision];
      CycleIsNoValue(rules, inputs, stack[|stack| - 1]);
      ChainHasNoValue(rules, inputs, stack);
    }
  }

  // The same of every error that a query is about to return, at any depth.
  lemma RunErrorsAreExplained(rules: Rules, states: seq<State>, steps: seq<Step>, n: nat, i: SnapshotId, j: nat)
    requires ScopedRules(rules) && HonestRules(rules) && IsRun(rules, states, steps) && n < |states|
    requires j < |StackOf(states[n], i)|
    requires var f := StackOf(states[n], i)[j]; f.phase.Leaving? && f.phase.result.Err?
    ensures var s := states[n];
            ErrorHolds(rules, Values(s.inputs), s.revision in s.raises, StackOf(s, i), j, StackOf(s, i)[j].phase.result.error)
  {
    hide IsRun, ScopedRules, HonestRules, ErrorHolds, RepliesExplained;
    RunKeepsExplained(rules, states, steps, n);
    var s := states[n];
    assert StackExplained(rules, Values(s.inputs), s.revision in s.raises, StackOf(s, i));
    assert FrameExplained(rules, Values(s.inputs), s.revision in s.raises, StackOf(s, i), j);
  }

  // A snapshot that asks for a query in progress, and verifies nothing, is told of a cycle exactly
  // if its waiting would complete a circle of snapshots that wait for each other.
  lemma RunConflictsAreDeadlocks(rules: Rules, states: seq<State>, steps: seq<Step>, n: nat, i: SnapshotId)
    requires ScopedRules(rules) && IsRun(rules, states, steps) && n < |steps|
    requires steps[n] == Act(i, Conflict) || steps[n] == Act(i, Wait)
    requires !AnyVerifying(StackOf(states[n], i))
    ensures StackOf(states[n], i) != []
    ensures steps[n] == Act(i, Conflict) <==> exists path :: Deadlock(states[n], i, Top(StackOf(states[n], i)).query, path)
  {
    RunKeepsInv(rules, states, steps, n);
    assert StepTaken(rules, states[n], steps[n], states[n + 1]);
    hide Inv, IsRun, ScopedRules, Deadlock, Closes, CancelSeen, AnyVerifying, Apply;
    ClosesIsDeadlock(rules, states[n], i, Top(StackOf(states[n], i)).query);
  }
}
