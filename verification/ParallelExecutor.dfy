// Parallel execution of a build plan (compiler-executable/iris-build/src/executor.rs), one step for
// each access to a counter, the failure flag or the error slot, and one for each package built.
module ParallelExecutor {
  import opened Graphs
  import opened Initializers
  import opened PackagePlan
  import opened Executors
  import opened Wrappers

  // ---------------------------------------------------------------- state

  // How far a group has come.
  datatype Task<E> =
    | Waiting
    | Running(succeeded: set<nat>, failed: map<nat, E>)
    | Flagging(error: E)
    | Reporting(error: E)
    | Failed
    | Checking
    | Stopped
    | Releasing(next: nat)
    | Finished

  // `cursor` is how far the caller has come with spawning the groups without dependencies.
  // `started` and `ran` log the groups spawned and the packages built.
  datatype State<E> = State(
    tasks: seq<Task<E>>,
    remaining: seq<int>,
    flag: bool,
    slot: Option<E>,
    cursor: nat,
    started: seq<nat>,
    ran: seq<nat>)

  datatype Step =
    | Root
    | Build(c: nat, p: nat)
    | Break(c: nat, p: nat)
    | Settle(c: nat)
    | Flag(c: nat)
    | Report(c: nat)
    | Check(c: nat)
    | Release(c: nat)
    | Finish(c: nat)

  function PackageSet(group: PackageGroup): set<nat> {
    set p | p in group.packages
  }

  function Packages(groups: seq<PackageGroup>, c: nat): set<nat>
    requires c < |groups|
  {
    PackageSet(groups[c])
  }

  predicate Fits<E>(groups: seq<PackageGroup>, s: State<E>) {
    |s.tasks| == |groups| && |s.remaining| == |groups| && s.cursor <= |groups|
  }

  predicate Enabled<E>(groups: seq<PackageGroup>, s: State<E>, step: Step)
    requires Fits(groups, s)
  {
    match step
    case Root => s.cursor < |groups|
    case Build(c, p) => c < |groups| && s.tasks[c].Running? && p in Packages(groups, c) - s.tasks[c].succeeded - s.tasks[c].failed.Keys
    case Break(c, p) => c < |groups| && s.tasks[c].Running? && p in s.tasks[c].failed
    case Settle(c) => c < |groups| && s.tasks[c].Running? && s.tasks[c].failed == map[] && s.tasks[c].succeeded == Packages(groups, c)
    case Flag(c) => c < |groups| && s.tasks[c].Flagging?
    case Report(c) => c < |groups| && s.tasks[c].Reporting?
    case Check(c) => c < |groups| && s.tasks[c].Checking?
    case Release(c) =>
      c < |groups| && s.tasks[c].Releasing? && s.tasks[c].next < |groups[c].dependents| && groups[c].dependents[s.tasks[c].next] < |groups|
    case Finish(c) => c < |groups| && s.tasks[c].Releasing? && s.tasks[c].next == |groups[c].dependents|
  }

  function WithTask<E>(s: State<E>, c: nat, task: Task<E>): State<E>
    requires c < |s.tasks|
  {
    s.(tasks := s.tasks[c := task])
  }

  function Spawned<E>(s: State<E>, c: nat): State<E>
    requires c < |s.tasks|
  {
    WithTask(s, c, Running({}, map[])).(started := s.started + [c])
  }

  function Built<E>(s: State<E>, c: nat, p: nat, outcome: Option<E>): State<E>
    requires c < |s.tasks| && s.tasks[c].Running?
  {
    var task := s.tasks[c];
    WithTask(s, c, if outcome.None? then task.(succeeded := task.succeeded + {p}) else task.(failed := task.failed[p := outcome.value]))
      .(ran := s.ran + [p])
  }

  // Takes one from the counter of a dependent, and spawns it when that was the last.
  function Released<E>(groups: seq<PackageGroup>, s: State<E>, c: nat): State<E>
    requires Fits(groups, s) && Enabled(groups, s, Release(c))
  {
    var next := s.tasks[c].next;
    var d := groups[c].dependents[next];
    var taken := WithTask(s, c, Releasing(next + 1)).(remaining := s.remaining[d := s.remaining[d] - 1]);
    if s.remaining[d] == 1 then Spawned(taken, d) else taken
  }

  function Apply<E>(groups: seq<PackageGroup>, execute: nat -> Option<E>, s: State<E>, step: Step): State<E>
    requires Fits(groups, s) && Enabled(groups, s, step)
  {
    match step
    case Root =>
      var next := s.(cursor := s.cursor + 1);
      if groups[s.cursor].dependencies == [] then Spawned(next, s.cursor) else next
    case Build(c, p) => Built(s, c, p, execute(p))
    case Break(c, p) => WithTask(s, c, Flagging(s.tasks[c].failed[p]))
    case Settle(c) => WithTask(s, c, Checking)
    case Flag(c) => WithTask(s, c, Reporting(s.tasks[c].error)).(flag := true)
    case Report(c) => WithTask(s, c, Failed).(slot := if s.slot.Some? then s.slot else Some(s.tasks[c].error))
    case Check(c) => WithTask(s, c, if s.flag then Stopped else Releasing(0))
    case Release(c) => Released(groups, s, c)
    case Finish(c) => WithTask(s, c, Finished)
  }

  function Initial<E>(groups: seq<PackageGroup>): State<E> {
    State(seq(|groups|, _ => Waiting),
          seq(|groups|, c requires 0 <= c < |groups| => |groups[c].dependencies|),
          false, None, 0, [], [])
  }

  // ---------------------------------------------------------------- the invariant

  predicate HasReleased<E>(groups: seq<PackageGroup>, s: State<E>, c: nat, d: nat)
    requires c < |groups| && |s.tasks| == |groups|
  {
    match s.tasks[c]
    case Releasing(next) => next <= |groups[c].dependents| && d in groups[c].dependents[..next]
    case Finished => d in groups[c].dependents
    case _ => false
  }

  // The dependencies that a group still waits for.
  ghost function Unreleased<E>(groups: seq<PackageGroup>, s: State<E>, d: nat): set<nat>
    requires d < |groups| && Fits(groups, s)
  {
    set c | c in groups[d].dependencies && (c < |groups| ==> !HasReleased(groups, s, c, d))
  }

  // A group is spawned once nothing is left to wait for.
  ghost predicate CountHolds<E>(groups: seq<PackageGroup>, s: State<E>, d: nat)
    requires d < |groups| && Fits(groups, s)
  {
    && s.remaining[d] == |Unreleased(groups, s, d)|
    && (!s.tasks[d].Waiting? <==> Unreleased(groups, s, d) == {} && (groups[d].dependencies != [] || d < s.cursor))
  }

  // All packages of a group have been built.
  ghost predicate GroupSucceeded<E>(groups: seq<PackageGroup>, execute: nat -> Option<E>, s: State<E>, c: nat)
    requires c < |groups|
  {
    forall p :: p in groups[c].packages ==> p in s.ran && execute(p).None?
  }

  ghost predicate Raised<E>(execute: nat -> Option<E>, s: State<E>, error: E) {
    exists p :: p in s.ran && execute(p) == Some(error)
  }

  ghost predicate TaskHolds<E>(groups: seq<PackageGroup>, execute: nat -> Option<E>, s: State<E>, c: nat)
    requires c < |groups| && Fits(groups, s)
  {
    match s.tasks[c]
    case Waiting => forall p :: p in groups[c].packages ==> p !in s.ran
    case Running(succeeded, failed) =>
      && succeeded + failed.Keys <= Packages(groups, c)
      && (forall p :: p in groups[c].packages ==> (p in s.ran <==> p in succeeded || p in failed))
      && (forall p :: p in succeeded ==> execute(p).None?) && (forall p :: p in failed ==> execute(p) == Some(failed[p]))
    case Flagging(error) => Raised(execute, s, error)
    case Reporting(error) => Raised(execute, s, error) && s.flag
    case Failed => s.flag && s.slot.Some?
    case Checking => GroupSucceeded(groups, execute, s, c)
    case Stopped => GroupSucceeded(groups, execute, s, c) && s.flag
    case Releasing(next) => GroupSucceeded(groups, execute, s, c) && next <= |groups[c].dependents|
    case Finished => GroupSucceeded(groups, execute, s, c)
  }

  // The failure flag is up while an error is on its way to the slot, or there.
  ghost predicate FlagHolds<E>(execute: nat -> Option<E>, s: State<E>) {
    && (s.flag ==> exists c :: 0 <= c < |s.tasks| && (s.tasks[c].Reporting? || s.tasks[c].Failed?))
    && (s.slot.Some? ==> Raised(execute, s, s.slot.value))
  }

  // A package that fails takes its group to the error slot.
  ghost predicate FailuresHold<E>(groups: seq<PackageGroup>, execute: nat -> Option<E>, s: State<E>)
    requires Fits(groups, s)
  {
    forall c: nat, p :: c < |groups| && p in groups[c].packages && p in s.ran && execute(p).Some? ==>
      (s.tasks[c].Running? && p in s.tasks[c].failed) || s.tasks[c].Flagging? || s.tasks[c].Reporting? || s.tasks[c].Failed?
  }

  ghost predicate StartedHolds<E>(s: State<E>) {
    && NoDuplicates(s.started)
    && (forall c :: c in s.started <==> 0 <= c < |s.tasks| && !s.tasks[c].Waiting?)
  }

  ghost predicate Inv<E>(g: Graph, groups: seq<PackageGroup>, execute: nat -> Option<E>, s: State<E>) {
    && Fits(groups, s)
    && (forall d: nat :: d < |groups| ==> CountHolds(groups, s, d))
    && (forall c: nat :: c < |groups| ==> TaskHolds(groups, execute, s, c))
    && FlagHolds(execute, s) && FailuresHold(groups, execute, s) && StartedHolds(s)
    && RunsInOrder(g, s.ran)
    && (forall p :: p in s.ran ==> p < |g|)
  }

  // ---------------------------------------------------------------- moves of one task

  // What `s` and `t` agree on when only one task has moved on.
  ghost predicate SameCounts<E>(groups: seq<PackageGroup>, s: State<E>, t: State<E>) {
    && Fits(groups, s) && Fits(groups, t) && t.remaining == s.remaining && t.cursor == s.cursor && t.started == s.started
    && (forall c: nat :: c < |groups| ==> (t.tasks[c].Waiting? <==> s.tasks[c].Waiting?))
    && (forall c: nat, d: nat :: c < |groups| ==> (HasReleased(groups, t, c, d) <==> HasReleased(groups, s, c, d)))
  }

  lemma CountsKept<E>(groups: seq<PackageGroup>, s: State<E>, t: State<E>, d: nat)
    requires SameCounts(groups, s, t) && d < |groups| && CountHolds(groups, s, d)
    ensures CountHolds(groups, t, d)
  {
    hide HasReleased;
    assert Unreleased(groups, t, d) == Unreleased(groups, s, d);
  }

  lemma TaskKept<E>(groups: seq<PackageGroup>, execute: nat -> Option<E>, s: State<E>, t: State<E>, c: nat)
    requires Fits(groups, s) && Fits(groups, t) && c < |groups| && TaskHolds(groups, execute, s, c) && t.tasks[c] == s.tasks[c]
    requires s.ran <= t.ran && (s.flag ==> t.flag) && (s.slot.Some? ==> t.slot.Some?)
    requires forall p :: p in t.ran && p in groups[c].packages ==> p in s.ran
    ensures TaskHolds(groups, execute, t, c)
  {
    assert forall p :: p in s.ran ==> p in t.ran;
  }

  lemma MoveKeepsInv<E>(g: Graph, groups: seq<PackageGroup>, execute: nat -> Option<E>, s: State<E>, t: State<E>, c: nat)
    requires Inv(g, groups, execute, s) && SameCounts(groups, s, t) && c < |groups| && t.tasks == s.tasks[c := t.tasks[c]]
    requires t.ran == s.ran && (s.flag ==> t.flag) && (s.slot.Some? ==> t.slot.Some?)
    requires TaskHolds(groups, execute, t, c) && FlagHolds(execute, t) && FailuresHold(groups, execute, t)
    ensures Inv(g, groups, execute, t)
  {
    hide CountHolds, TaskHolds, FlagHolds, FailuresHold, HasReleased, RunsInOrder;
    forall d: nat | d < |groups|
      ensures CountHolds(groups, t, d)
    {
      CountsKept(groups, s, t, d);
    }
    forall n: nat | n < |groups|
      ensures TaskHolds(groups, execute, t, n)
    {
      if n != c {
        TaskKept(groups, execute, s, t, n);
      }
    }
  }

  lemma SettleKeepsInv<E>(g: Graph, groups: seq<PackageGroup>, execute: nat -> Option<E>, s: State<E>, step: Step)
    requires Inv(g, groups, execute, s) && Enabled(groups, s, step) && (step.Settle? || step.Break?)
    ensures Inv(g, groups, execute, Apply(groups, execute, s, step))
  {
    hide RunsInOrder;
    var c := step.c;
    var t := Apply(groups, execute, s, step);
    assert TaskHolds(groups, execute, s, c);
    if step.Break? {
      assert step.p in Packages(groups, c) && step.p in s.ran;
    }
    MoveKeepsInv(g, groups, execute, s, t, c);
  }

  lemma FlagKeepsInv<E>(g: Graph, groups: seq<PackageGroup>, execute: nat -> Option<E>, s: State<E>, step: Step)
    requires Inv(g, groups, execute, s) && Enabled(groups, s, step) && (step.Flag? || step.Report?)
    ensures Inv(g, groups, execute, Apply(groups, execute, s, step))
  {
    hide RunsInOrder;
    var c := step.c;
    var t := Apply(groups, execute, s, step);
    assert TaskHolds(groups, execute, s, c);
    assert t.tasks[c].Reporting? || t.tasks[c].Failed?;
    MoveKeepsInv(g, groups, execute, s, t, c);
  }

  lemma CheckKeepsInv<E>(g: Graph, groups: seq<PackageGroup>, execute: nat -> Option<E>, s: State<E>, step: Step)
    requires Inv(g, groups, execute, s) && Enabled(groups, s, step) && (step.Check? || step.Finish?)
    ensures Inv(g, groups, execute, Apply(groups, execute, s, step))
  {
    hide RunsInOrder;
    var c := step.c;
    var t := Apply(groups, execute, s, step);
    assert TaskHolds(groups, execute, s, c);
    assert groups[c].dependents[..|groups[c].dependents|] == groups[c].dependents;
    assert FlagHolds(execute, t) by {
      if s.flag {
        var n :| 0 <= n < |s.tasks| && (s.tasks[n].Reporting? || s.tasks[n].Failed?);
        assert t.tasks[n] == s.tasks[n];
      }
    }
    MoveKeepsInv(g, groups, execute, s, t, c);
  }

  // ---------------------------------------------------------------- building a package

  predicate HasSucceeded<E>(task: Task<E>) {
    task.Releasing? || task.Finished?
  }

  ghost function SucceededGroups<E>(s: State<E>): (r: set<nat>)
    ensures forall c: nat :: c in r <==> c < |s.tasks| && HasSucceeded(s.tasks[c])
  {
    set c: nat | c < |s.tasks| && HasSucceeded(s.tasks[c])
  }

  // A group is spawned only after all the groups it depends on have succeeded.
  lemma DependencySucceeded<E>(g: Graph, groups: seq<PackageGroup>, execute: nat -> Option<E>, s: State<E>, d: nat, c: nat)
    requires LinksHold(groups) && Inv(g, groups, execute, s) && Edge(GroupGraph(groups), d, c) && !s.tasks[d].Waiting?
    ensures c < |groups| && HasSucceeded(s.tasks[c])
  {
    hide TaskHolds, RunsInOrder, FailuresHold, FlagHolds;
    assert CountHolds(groups, s, d);
    assert c !in Unreleased(groups, s, d);
  }

  lemma BuildRunsInOrder<E>(g: Graph, groups: seq<PackageGroup>, execute: nat -> Option<E>, s: State<E>, c: nat, p: nat)
    requires ValidGraph(g) && GroupsHold(g, groups) && Inv(g, groups, execute, s)
    requires c < |groups| && p in groups[c].packages && p !in s.ran && !s.tasks[c].Waiting?
    ensures RunsInOrder(g, s.ran + [p])
  {
    var complete := SucceededGroups(s);
    assert LinksHold(groups);
    hide GroupsHold, LinksHold, RunsInOrder, SucceededGroups, CountHolds, FailuresHold, FlagHolds;
    forall b: nat, d: nat | Edge(GroupGraph(groups), b, d) && (b in complete || b == c)
      ensures d in complete
    {
      hide Inv;
      DependencySucceeded(g, groups, execute, s, b, d);
    }
    assert InComponent(Members(groups), c, p);
    forall q: nat | Reaches(g, p, q)
      ensures q in s.ran || Mutual(g, p, q)
    {
      NothingMissing(g, groups, complete, c, p, q);
      if InGroups(groups, complete, q) {
        var d: nat :| d in complete && InComponent(Members(groups), d, q);
        assert TaskHolds(groups, execute, s, d);
      }
    }
    RunsNext(g, s.ran, p);
  }

  lemma BuildKeepsTask<E>(g: Graph, groups: seq<PackageGroup>, execute: nat -> Option<E>, s: State<E>, c: nat, p: nat, n: nat)
    requires ValidGraph(g) && GroupsHold(g, groups) && Inv(g, groups, execute, s) && Enabled(groups, s, Build(c, p)) && n < |groups|
    ensures TaskHolds(groups, execute, Apply(groups, execute, s, Build(c, p)), n)
  {
    var t := Apply(groups, execute, s, Build(c, p));
    assert TaskHolds(groups, execute, s, n);
    if n != c {
      assert InComponent(Members(groups), c, p);
      assert !InComponent(Members(groups), n, p);
      hide GroupsHold, Inv, TaskHolds, Enabled;
      TaskKept(groups, execute, s, t, n);
    } else {
      assert Fits(groups, s);
      hide GroupsHold, Inv, TaskHolds, Enabled, Apply;
      BuildKeepsOwnTask(groups, execute, s, c, p);
    }
  }

  lemma BuildKeepsOwnTask<E>(groups: seq<PackageGroup>, execute: nat -> Option<E>, s: State<E>, c: nat, p: nat)
    requires c < |groups| && Fits(groups, s) && Enabled(groups, s, Build(c, p)) && TaskHolds(groups, execute, s, c)
    ensures TaskHolds(groups, execute, Apply(groups, execute, s, Build(c, p)), c)
  {
    var t := Apply(groups, execute, s, Build(c, p));
    assert forall q :: q in t.ran <==> q in s.ran || q == p;
  }

  lemma BuildKeepsFailures<E>(g: Graph, groups: seq<PackageGroup>, execute: nat -> Option<E>, s: State<E>, c: nat, p: nat)
    requires ValidGraph(g) && GroupsHold(g, groups) && Inv(g, groups, execute, s) && Enabled(groups, s, Build(c, p))
    ensures FailuresHold(groups, execute, Apply(groups, execute, s, Build(c, p)))
  {
    var t := Apply(groups, execute, s, Build(c, p));
    assert InComponent(Members(groups), c, p);
    forall n: nat, q | n < |groups| && q in groups[n].packages && q in t.ran && execute(q).Some?
      ensures (t.tasks[n].Running? && q in t.tasks[n].failed) || t.tasks[n].Flagging? || t.tasks[n].Reporting? || t.tasks[n].Failed?
    {
      if q == p {
        assert InComponent(Members(groups), n, p);
      }
    }
  }

  lemma BuildKeepsInv<E>(g: Graph, groups: seq<PackageGroup>, execute: nat -> Option<E>, s: State<E>, c: nat, p: nat)
    requires ValidGraph(g) && GroupsHold(g, groups) && Inv(g, groups, execute, s) && Enabled(groups, s, Build(c, p))
    ensures Inv(g, groups, execute, Apply(groups, execute, s, Build(c, p)))
  {
    hide GroupsHold, FailuresHold, RunsInOrder, CountHolds, TaskHolds, FlagHolds, HasReleased, InComponent;
    var t := Apply(groups, execute, s, Build(c, p));
    BuildIsNew(g, groups, execute, s, c, p);
    BuildKeepsFailures(g, groups, execute, s, c, p);
    BuildRunsInOrder(g, groups, execute, s, c, p);
    BuildKeepsFlag(groups, execute, s, c, p);
    BuildSameCounts(groups, execute, s, c, p);
    forall d: nat | d < |groups|
      ensures CountHolds(groups, t, d)
    {
      CountsKept(groups, s, t, d);
    }
    forall n: nat | n < |groups|
      ensures TaskHolds(groups, execute, t, n)
    {
      hide Inv;
      BuildKeepsTask(g, groups, execute, s, c, p, n);
    }
  }

  lemma BuildIsNew<E>(g: Graph, groups: seq<PackageGroup>, execute: nat -> Option<E>, s: State<E>, c: nat, p: nat)
    requires ValidGraph(g) && GroupsHold(g, groups) && Inv(g, groups, execute, s) && Enabled(groups, s, Build(c, p))
    ensures p < |g| && p !in s.ran && InComponent(Members(groups), c, p)
  {
    assert TaskHolds(groups, execute, s, c);
    hide Inv, TaskHolds;
    assert InComponent(Members(groups), c, p);
  }

  lemma BuildKeepsFlag<E>(groups: seq<PackageGroup>, execute: nat -> Option<E>, s: State<E>, c: nat, p: nat)
    requires Fits(groups, s) && FlagHolds(execute, s) && Enabled(groups, s, Build(c, p))
    ensures FlagHolds(execute, Apply(groups, execute, s, Build(c, p)))
  {
    var t := Apply(groups, execute, s, Build(c, p));
    assert forall q :: q in s.ran ==> q in t.ran;
    if s.flag {
      var n :| 0 <= n < |s.tasks| && (s.tasks[n].Reporting? || s.tasks[n].Failed?);
      assert t.tasks[n] == s.tasks[n];
    }
  }

  lemma BuildSameCounts<E>(groups: seq<PackageGroup>, execute: nat -> Option<E>, s: State<E>, c: nat, p: nat)
    requires Fits(groups, s) && Enabled(groups, s, Build(c, p))
    ensures SameCounts(groups, s, Apply(groups, execute, s, Build(c, p)))
  {
  }

  lemma InvCount<E>(g: Graph, groups: seq<PackageGroup>, execute: nat -> Option<E>, s: State<E>, d: nat)
    requires Inv(g, groups, execute, s) && d < |groups|
    ensures Fits(groups, s) && CountHolds(groups, s, d)
  {
    hide CountHolds, TaskHolds, FlagHolds, FailuresHold, StartedHolds, RunsInOrder;
  }

  // ---------------------------------------------------------------- spawning a group

  // The invariant beside the counters and the order of execution.
  ghost predicate TasksHold<E>(groups: seq<PackageGroup>, execute: nat -> Option<E>, s: State<E>) {
    && Fits(groups, s)
    && (forall c: nat :: c < |groups| ==> TaskHolds(groups, execute, s, c))
    && FlagHolds(execute, s) && FailuresHold(groups, execute, s) && StartedHolds(s)
  }

  lemma SpawnKeepsTasks<E>(groups: seq<PackageGroup>, execute: nat -> Option<E>, s: State<E>, d: nat)
    requires TasksHold(groups, execute, s) && d < |groups| && s.tasks[d].Waiting?
    ensures TasksHold(groups, execute, Spawned(s, d))
  {
    var t := Spawned(s, d);
    assert TaskHolds(groups, execute, s, d);
    forall c: nat | c < |groups|
      ensures TaskHolds(groups, execute, t, c)
    {
      if c != d {
        TaskKept(groups, execute, s, t, c);
      }
    }
    assert FlagHolds(execute, t) by {
      if s.flag {
        var n :| 0 <= n < |s.tasks| && (s.tasks[n].Reporting? || s.tasks[n].Failed?);
        assert t.tasks[n] == s.tasks[n];
      }
    }
  }

  lemma CursorKeepsTasks<E>(groups: seq<PackageGroup>, execute: nat -> Option<E>, s: State<E>)
    requires TasksHold(groups, execute, s) && s.cursor < |groups|
    ensures TasksHold(groups, execute, s.(cursor := s.cursor + 1))
  {
    var t := s.(cursor := s.cursor + 1);
    forall c: nat | c < |groups|
      ensures TaskHolds(groups, execute, t, c)
    {
      TaskKept(groups, execute, s, t, c);
    }
    assert FailuresHold(groups, execute, t);
  }

  // Neither the cursor nor a spawn changes what has been released.
  lemma SameUnreleased<E>(groups: seq<PackageGroup>, s: State<E>, t: State<E>, n: nat)
    requires Fits(groups, s) && Fits(groups, t) && n < |groups|
    requires forall c: nat :: c < |groups| ==> t.tasks[c] == s.tasks[c] || (s.tasks[c].Waiting? && t.tasks[c].Running?)
    ensures Unreleased(groups, t, n) == Unreleased(groups, s, n)
  {
    assert forall c: nat :: c < |groups| ==> (HasReleased(groups, t, c, n) <==> HasReleased(groups, s, c, n));
    hide HasReleased;
  }

  lemma RootKeepsInv<E>(g: Graph, groups: seq<PackageGroup>, execute: nat -> Option<E>, s: State<E>)
    requires Inv(g, groups, execute, s) && Enabled(groups, s, Root)
    ensures Inv(g, groups, execute, Apply(groups, execute, s, Root))
  {
    hide RunsInOrder, TaskHolds, FlagHolds, FailuresHold, StartedHolds, Unreleased;
    var d := s.cursor;
    var t := Apply(groups, execute, s, Root);
    InvCount(g, groups, execute, s, d);
    NothingToAwait(groups, s, d);
    assert TasksHold(groups, execute, s);
    assert TasksHold(groups, execute, t) by {
      hide TasksHold, Inv;
      CursorKeepsTasks(groups, execute, s);
      if groups[d].dependencies == [] {
        SpawnKeepsTasks(groups, execute, s.(cursor := d + 1), d);
      }
    }
    forall n: nat | n < |groups|
      ensures CountHolds(groups, t, n)
    {
      hide Inv;
      InvCount(g, groups, execute, s, n);
      SameUnreleased(groups, s, t, n);
    }
    InvParts(g, groups, execute, t);
  }

  lemma NothingToAwait<E>(groups: seq<PackageGroup>, s: State<E>, d: nat)
    requires d < |groups| && Fits(groups, s)
    ensures groups[d].dependencies == [] ==> Unreleased(groups, s, d) == {}
  {
  }

  lemma InvParts<E>(g: Graph, groups: seq<PackageGroup>, execute: nat -> Option<E>, s: State<E>)
    requires TasksHold(groups, execute, s) && RunsInOrder(g, s.ran)
    requires Fits(groups, s) && forall d: nat :: d < |groups| ==> CountHolds(groups, s, d)
    requires forall p :: p in s.ran ==> p < |g|
    ensures Inv(g, groups, execute, s)
  {
  }

  // The state after the counter has been taken from, before a spawn.
  function Taken<E>(groups: seq<PackageGroup>, s: State<E>, c: nat): State<E>
    requires Fits(groups, s) && Enabled(groups, s, Release(c))
  {
    var next := s.tasks[c].next;
    var d := groups[c].dependents[next];
    WithTask(s, c, Releasing(next + 1)).(remaining := s.remaining[d := s.remaining[d] - 1])
  }

  // The counter of a dependent is never taken below zero: what is released was waited for.
  lemma ReleaseCounts<E>(g: Graph, groups: seq<PackageGroup>, execute: nat -> Option<E>, s: State<E>, c: nat)
    requires LinksHold(groups) && Inv(g, groups, execute, s) && Enabled(groups, s, Release(c))
    ensures var d := groups[c].dependents[s.tasks[c].next];
            && d != c && s.tasks[d].Waiting? && s.remaining[d] >= 1 && groups[d].dependencies != []
            && c in Unreleased(groups, s, d)
            && Unreleased(groups, Taken(groups, s, c), d) == Unreleased(groups, s, d) - {c}
    ensures forall n: nat :: n < |groups| && n != groups[c].dependents[s.tasks[c].next] ==>
              Unreleased(groups, Taken(groups, s, c), n) == Unreleased(groups, s, n)
  {
    var next := s.tasks[c].next;
    var dependents := groups[c].dependents;
    var d := dependents[next];
    var t := Taken(groups, s, c);
    assert Increasing(dependents) && dependents[..next + 1] == dependents[..next] + [d];
    assert d in groups[c].dependents && Edge(GroupGraph(groups), d, c);
    assert !HasReleased(groups, s, c, d);
    assert CountHolds(groups, s, d) && CountHolds(groups, s, c);
    hide Inv, TaskHolds, LinksHold, CountHolds;
    assert forall n: nat, m: nat :: n < |groups| ==>
      (HasReleased(groups, t, n, m) <==> HasReleased(groups, s, n, m) || (n == c && m == d));
    hide HasReleased, Taken;
    UnreleasedCounts(groups, s, d, c);
  }

  lemma UnreleasedCounts<E>(groups: seq<PackageGroup>, s: State<E>, d: nat, c: nat)
    requires Fits(groups, s) && d < |groups| && c < |groups| && CountHolds(groups, s, d) && CountHolds(groups, s, c)
    requires c in groups[d].dependencies && !HasReleased(groups, s, c, d) && !s.tasks[c].Waiting?
    ensures c in Unreleased(groups, s, d) && s.tasks[d].Waiting? && s.remaining[d] >= 1 && d != c && groups[d].dependencies != []
  {
    assert c in Unreleased(groups, s, d);
    assert |Unreleased(groups, s, d)| > 0;
  }

  lemma TakeKeepsTasks<E>(groups: seq<PackageGroup>, execute: nat -> Option<E>, s: State<E>, c: nat)
    requires TasksHold(groups, execute, s) && Enabled(groups, s, Release(c))
    ensures TasksHold(groups, execute, Taken(groups, s, c))
  {
    var t := Taken(groups, s, c);
    assert TaskHolds(groups, execute, s, c);
    forall n: nat | n < |groups|
      ensures TaskHolds(groups, execute, t, n)
    {
      if n != c {
        TaskKept(groups, execute, s, t, n);
      }
    }
    assert FlagHolds(execute, t) by {
      if s.flag {
        var n :| 0 <= n < |s.tasks| && (s.tasks[n].Reporting? || s.tasks[n].Failed?);
        assert t.tasks[n] == s.tasks[n];
      }
    }
  }

  lemma ReleaseKeepsCounts<E>(g: Graph, groups: seq<PackageGroup>, execute: nat -> Option<E>, s: State<E>, c: nat, n: nat)
    requires LinksHold(groups) && Inv(g, groups, execute, s) && Enabled(groups, s, Release(c)) && n < |groups|
    ensures CountHolds(groups, Released(groups, s, c), n)
  {
    hide Inv, LinksHold, HasReleased, Unreleased;
    InvCount(g, groups, execute, s, n);
    ReleaseCounts(g, groups, execute, s, c);
    var d := groups[c].dependents[s.tasks[c].next];
    var taken, t := Taken(groups, s, c), Released(groups, s, c);
    InvCount(g, groups, execute, s, d);
    SameUnreleased(groups, taken, t, n);
    assert n == d ==> |Unreleased(groups, s, d) - {c}| == |Unreleased(groups, s, d)| - 1;
  }

  lemma ReleaseKeepsInv<E>(g: Graph, groups: seq<PackageGroup>, execute: nat -> Option<E>, s: State<E>, c: nat)
    requires LinksHold(groups) && Inv(g, groups, execute, s) && Enabled(groups, s, Release(c))
    ensures Inv(g, groups, execute, Released(groups, s, c))
  {
    hide LinksHold, RunsInOrder;
    var t := Released(groups, s, c);
    assert TasksHold(groups, execute, s);
    ReleaseCounts(g, groups, execute, s, c);
    TakeKeepsTasks(groups, execute, s, c);
    hide TasksHold;
    if t != Taken(groups, s, c) {
      SpawnKeepsTasks(groups, execute, Taken(groups, s, c), groups[c].dependents[s.tasks[c].next]);
    }
    hide CountHolds, TaskHolds, FlagHolds, FailuresHold, StartedHolds, Unreleased;
    forall n: nat | n < |groups|
      ensures CountHolds(groups, t, n)
    {
      ReleaseKeepsCounts(g, groups, execute, s, c, n);
    }
    InvParts(g, groups, execute, t);
  }

  lemma StepKeepsInv<E>(g: Graph, groups: seq<PackageGroup>, execute: nat -> Option<E>, s: State<E>, step: Step)
    requires ValidGraph(g) && GroupsHold(g, groups) && Inv(g, groups, execute, s) && Enabled(groups, s, step)
    ensures Inv(g, groups, execute, Apply(groups, execute, s, step))
  {
    assert LinksHold(groups);
    hide GroupsHold, LinksHold, Enabled, CountHolds, TaskHolds, FlagHolds, FailuresHold, StartedHolds, RunsInOrder;
    match step
    case Root => RootKeepsInv(g, groups, execute, s);
    case Build(c, p) => BuildKeepsInv(g, groups, execute, s, c, p);
    case Break(_, _) => SettleKeepsInv(g, groups, execute, s, step);
    case Settle(_) => SettleKeepsInv(g, groups, execute, s, step);
    case Flag(_) => FlagKeepsInv(g, groups, execute, s, step);
    case Report(_) => FlagKeepsInv(g, groups, execute, s, step);
    case Check(_) => CheckKeepsInv(g, groups, execute, s, step);
    case Release(c) => ReleaseKeepsInv(g, groups, execute, s, c);
    case Finish(_) => CheckKeepsInv(g, groups, execute, s, step);
  }

  // ---------------------------------------------------------------- whole runs

  ghost predicate StepAt<E(!new)>(groups: seq<PackageGroup>, execute: nat -> Option<E>, states: seq<State<E>>, k: nat)
    requires 0 < k < |states|
  {
    Next(groups, execute, states[k - 1], states[k])
  }

  ghost predicate Next<E(!new)>(groups: seq<PackageGroup>, execute: nat -> Option<E>, s: State<E>, t: State<E>) {
    Fits(groups, s) && exists step :: Enabled(groups, s, step) && t == Apply(groups, execute, s, step)
  }

  ghost predicate IsRun<E(!new)>(groups: seq<PackageGroup>, execute: nat -> Option<E>, states: seq<State<E>>) {
    && states != [] && states[0] == Initial(groups)
    && (forall k: nat :: 0 < k < |states| ==> StepAt(groups, execute, states, k))
  }

  lemma {:induction false} DependencyCount(dependencies: seq<nat>, all: set<nat>)
    requires Increasing(dependencies) && forall c :: c in all <==> c in dependencies
    ensures |all| == |dependencies|
  {
    if dependencies == [] {
      assert all == {};
    } else {
      var last := dependencies[|dependencies| - 1];
      assert dependencies == dependencies[..|dependencies| - 1] + [last];
      DependencyCount(dependencies[..|dependencies| - 1], all - {last});
    }
  }

  lemma InitialHolds<E>(g: Graph, groups: seq<PackageGroup>, execute: nat -> Option<E>)
    requires LinksHold(groups)
    ensures Inv(g, groups, execute, Initial(groups))
  {
    var s := Initial<E>(groups);
    forall d: nat | d < |groups|
      ensures CountHolds(groups, s, d)
    {
      DependencyCount(groups[d].dependencies, Unreleased(groups, s, d));
    }
  }

  lemma {:induction false} RunKeepsInv<E(!new)>(g: Graph, groups: seq<PackageGroup>, execute: nat -> Option<E>, states: seq<State<E>>, k: nat)
    requires ValidGraph(g) && GroupsHold(g, groups) && IsRun(groups, execute, states) && k < |states|
    ensures Inv(g, groups, execute, states[k])
  {
    assert LinksHold(groups);
    hide GroupsHold, LinksHold, Inv, Enabled, Apply, Initial;
    if k == 0 {
      InitialHolds(g, groups, execute);
    } else {
      RunKeepsInv(g, groups, execute, states, k - 1);
      assert StepAt(groups, execute, states, k);
      var step :| Enabled(groups, states[k - 1], step) && states[k] == Apply(groups, execute, states[k - 1], step);
      StepKeepsInv(g, groups, execute, states[k - 1], step);
    }
  }

  // No group is spawned twice and no package is built twice, each package is built after those it
  // depends on, and no counter is below zero.
  lemma RunBuildsInOrder<E(!new)>(g: Graph, groups: seq<PackageGroup>, execute: nat -> Option<E>, states: seq<State<E>>, k: nat)
    requires ValidGraph(g) && GroupsHold(g, groups) && IsRun(groups, execute, states) && k < |states|
    ensures NoDuplicates(states[k].started) && RunsInOrder(g, states[k].ran)
    ensures forall d :: 0 <= d < |states[k].remaining| ==> states[k].remaining[d] >= 0
  {
    RunKeepsInv(g, groups, execute, states, k);
    var s := states[k];
    forall d | 0 <= d < |s.remaining|
      ensures s.remaining[d] >= 0
    {
      assert CountHolds(groups, s, d);
    }
  }

  // A group is spawned only after the packages of all the groups it depends on have been built.
  lemma RunStartsAfterDependencies<E(!new)>(g: Graph, groups: seq<PackageGroup>, execute: nat -> Option<E>, states: seq<State<E>>, k: nat, d: nat, c: nat, p: nat)
    requires ValidGraph(g) && GroupsHold(g, groups) && IsRun(groups, execute, states) && k < |states|
    requires d in states[k].started && ReachesByEdge(GroupGraph(groups), d, c) && InComponent(Members(groups), c, p)
    ensures p in states[k].ran && execute(p).None?
  {
    RunKeepsInv(g, groups, execute, states, k);
    var s := states[k];
    var n :| Edge(GroupGraph(groups), d, n) && Reaches(GroupGraph(groups), n, c);
    var path :| PathBetween(GroupGraph(groups), path, n, c);
    assert !s.tasks[d].Waiting?;
    assert LinksHold(groups);
    hide GroupsHold, LinksHold, CountHolds, FlagHolds, FailuresHold, RunsInOrder, StartedHolds;
    assert HasSucceeded(s.tasks[c]) by {
      hide Inv, TaskHolds;
      DependencySucceeded(g, groups, execute, s, d, n);
      PathSucceeded(g, groups, execute, s, path);
    }
    assert TaskHolds(groups, execute, s, c);
  }

  lemma {:induction false} PathSucceeded<E>(g: Graph, groups: seq<PackageGroup>, execute: nat -> Option<E>, s: State<E>, path: seq<nat>)
    requires LinksHold(groups) && Inv(g, groups, execute, s) && IsPath(GroupGraph(groups), path) && HasSucceeded(s.tasks[path[0]])
    ensures HasSucceeded(s.tasks[path[|path| - 1]])
    decreases |path|
  {
    hide Inv, LinksHold;
    InvFits(g, groups, execute, s);
    if |path| > 1 {
      assert Edge(GroupGraph(groups), path[0], path[1]);
      DependencySucceeded(g, groups, execute, s, path[0], path[1]);
      PathSucceeded(g, groups, execute, s, path[1..]);
    }
  }

  lemma InvFits<E>(g: Graph, groups: seq<PackageGroup>, execute: nat -> Option<E>, s: State<E>)
    requires Inv(g, groups, execute, s)
    ensures Fits(groups, s)
  {
  }

  // Nothing that depends on a package that fails is ever built, unless they depend on each other.
  lemma RunSkipsDependentsOfFailures<E(!new)>(g: Graph, groups: seq<PackageGroup>, execute: nat -> Option<E>, states: seq<State<E>>, k: nat, p: nat, q: nat)
    requires ValidGraph(g) && GroupsHold(g, groups) && IsRun(groups, execute, states) && k < |states|
    requires execute(q).Some? && Reaches(g, p, q) && !Mutual(g, p, q)
    ensures p !in states[k].ran
  {
    var s := states[k];
    RunKeepsInv(g, groups, execute, states, k);
    if p in s.ran {
      assert Placed(Members(groups), p);
      var c: nat :| InComponent(Members(groups), c, p);
      assert LinksHold(groups);
      hide GroupsHold, LinksHold, CountHolds, FlagHolds, FailuresHold, RunsInOrder, StartedHolds;
      assert TaskHolds(groups, execute, s, c);
      var complete := SucceededGroups(s);
      hide SucceededGroups;
      forall b: nat, d: nat | Edge(GroupGraph(groups), b, d) && (b in complete || b == c)
        ensures d in complete
      {
        hide Inv;
        DependencySucceeded(g, groups, execute, s, b, d);
      }
      NothingMissing(g, groups, complete, c, p, q);
      FailedIsIncomplete(g, groups, execute, s, complete, q);
    }
  }

  lemma FailedIsIncomplete<E>(g: Graph, groups: seq<PackageGroup>, execute: nat -> Option<E>, s: State<E>, complete: set<nat>, q: nat)
    requires Inv(g, groups, execute, s) && execute(q).Some? && forall c: nat :: c in complete ==> c < |s.tasks| && HasSucceeded(s.tasks[c])
    ensures !InGroups(groups, complete, q)
  {
    hide CountHolds, FlagHolds, FailuresHold, RunsInOrder, StartedHolds;
    forall c: nat | c in complete
      ensures !InComponent(Members(groups), c, q)
    {
      assert TaskHolds(groups, execute, s, c);
    }
  }

  // ---------------------------------------------------------------- the end of a run

  ghost predicate AtRest<E>(groups: seq<PackageGroup>, s: State<E>) {
    Fits(groups, s) && forall step :: !Enabled(groups, s, step)
  }

  predicate Resting<E>(task: Task<E>) {
    task.Waiting? || task.Failed? || task.Stopped? || task.Finished?
  }

  // A task that has been spawned and has not come to its end can move.
  lemma TaskCanMove<E>(g: Graph, groups: seq<PackageGroup>, execute: nat -> Option<E>, s: State<E>, c: nat)
    requires LinksHold(groups) && Inv(g, groups, execute, s) && c < |groups| && !Resting(s.tasks[c])
    ensures exists step :: Enabled(groups, s, step)
  {
    hide CountHolds, FlagHolds, FailuresHold, RunsInOrder, StartedHolds;
    assert TaskHolds(groups, execute, s, c);
    match s.tasks[c]
    case Running(succeeded, failed) =>
      if failed != map[] {
        var p :| p in failed;
        assert Enabled(groups, s, Break(c, p));
      } else if p :| p in Packages(groups, c) - succeeded {
        assert Enabled(groups, s, Build(c, p));
      } else {
        assert forall p :: p in Packages(groups, c) ==> p in succeeded || p in Packages(groups, c) - succeeded;
        assert succeeded <= succeeded + failed.Keys;
        assert Enabled(groups, s, Settle(c));
      }
    case Flagging(_) => assert Enabled(groups, s, Flag(c));
    case Reporting(_) => assert Enabled(groups, s, Report(c));
    case Checking => assert Enabled(groups, s, Check(c));
    case Releasing(next) =>
      if next < |groups[c].dependents| {
        DependentBelow(groups, c, next);
        assert Enabled(groups, s, Release(c));
      } else {
        assert Enabled(groups, s, Finish(c));
      }
  }

  lemma RestingTask<E>(g: Graph, groups: seq<PackageGroup>, execute: nat -> Option<E>, s: State<E>, c: nat)
    requires LinksHold(groups) && Inv(g, groups, execute, s) && AtRest(groups, s) && c < |groups|
    ensures Resting(s.tasks[c])
  {
    hide Inv, LinksHold;
    if !Resting(s.tasks[c]) {
      TaskCanMove(g, groups, execute, s, c);
    }
  }

  lemma DependentBelow(groups: seq<PackageGroup>, c: nat, k: nat)
    requires LinksHold(groups) && c < |groups| && k < |groups[c].dependents|
    ensures groups[c].dependents[k] < |groups|
  {
    assert groups[c].dependents[k] in groups[c].dependents;
    assert Edge(GroupGraph(groups), groups[c].dependents[k], c);
  }

  // Without an error, every group has come to its end.
  lemma {:induction false} AllFinished<E>(g: Graph, groups: seq<PackageGroup>, execute: nat -> Option<E>, s: State<E>, rank: seq<nat>, d: nat)
    requires LinksHold(groups) && Ranked(groups, rank) && Inv(g, groups, execute, s) && AtRest(groups, s) && s.slot.None? && d < |groups|
    ensures s.tasks[d].Finished?
    decreases rank[d]
  {
    assert s.cursor == |groups| by {
      assert !Enabled(groups, s, Root);
    }
    assert CountHolds(groups, s, d) && TaskHolds(groups, execute, s, d);
    assert !s.flag by {
      NoFlag(g, groups, execute, s);
    }
    RestingTask(g, groups, execute, s, d);
    hide Inv, AtRest;
    forall c | c in Unreleased(groups, s, d)
      ensures false
    {
      assert Edge(GroupGraph(groups), d, c);
      AllFinished(g, groups, execute, s, rank, c);
    }
  }

  lemma NoFlag<E>(g: Graph, groups: seq<PackageGroup>, execute: nat -> Option<E>, s: State<E>)
    requires LinksHold(groups) && Inv(g, groups, execute, s) && AtRest(groups, s) && s.slot.None?
    ensures !s.flag
  {
    if s.flag {
      var c: nat :| c < |s.tasks| && (s.tasks[c].Reporting? || s.tasks[c].Failed?);
      assert TaskHolds(groups, execute, s, c);
      RestingTask(g, groups, execute, s, c);
    }
  }

  // When the run is over, there is an error exactly when some package of the plan fails, and
  // without one every package has been built.
  lemma RunEnds<E(!new)>(g: Graph, groups: seq<PackageGroup>, execute: nat -> Option<E>, states: seq<State<E>>)
    requires ValidGraph(g) && GroupsHold(g, groups) && IsRun(groups, execute, states) && AtRest(groups, states[|states| - 1])
    ensures var s := states[|states| - 1];
            && (s.slot.None? <==> forall p: nat :: p < |g| ==> execute(p).None?)
            && (s.slot.None? ==> forall p: nat :: p in s.ran <==> p < |g|)
            && (s.slot.Some? ==> exists p: nat :: p in s.ran && execute(p) == s.slot)
  {
    var s := states[|states| - 1];
    RunKeepsInv(g, groups, execute, states, |states| - 1);
    var rank :| Ranked(groups, rank);
    if s.slot.None? {
      forall p: nat | p < |g|
        ensures p in s.ran && execute(p).None?
      {
        assert Placed(Members(groups), p);
        var c: nat :| InComponent(Members(groups), c, p);
        assert LinksHold(groups);
        hide GroupsHold, CountHolds, FlagHolds, FailuresHold, RunsInOrder, StartedHolds;
        AllFinished(g, groups, execute, s, rank, c);
        assert TaskHolds(groups, execute, s, c);
      }
    } else {
      hide GroupsHold, CountHolds, FailuresHold, RunsInOrder, StartedHolds, TaskHolds;
      assert Raised(execute, s, s.slot.value);
    }
  }

  // ---------------------------------------------------------------- runs are finite

  // How many steps a group can still make.
  ghost function Weight<E>(group: PackageGroup, task: Task<E>): nat {
    var dependents := |group.dependents|;
    match task
    case Waiting => |PackageSet(group)| + dependents + 4
    case Running(succeeded, failed) => |PackageSet(group) - succeeded - failed.Keys| + dependents + 3
    case Flagging(_) => 2
    case Reporting(_) => 1
    case Checking => dependents + 2
    case Releasing(next) => if next <= dependents then dependents - next + 1 else 0
    case _ => 0
  }

  ghost function Weights<E>(groups: seq<PackageGroup>, tasks: seq<Task<E>>): nat
    requires |groups| == |tasks|
  {
    if groups == [] then 0
    else Weight(groups[|groups| - 1], tasks[|tasks| - 1]) + Weights(groups[..|groups| - 1], tasks[..|tasks| - 1])
  }

  ghost function Measure<E>(groups: seq<PackageGroup>, s: State<E>): nat
    requires Fits(groups, s)
  {
    |groups| - s.cursor + Weights(groups, s.tasks)
  }

  lemma {:induction false} WeightsUpdate<E>(groups: seq<PackageGroup>, tasks: seq<Task<E>>, c: nat, task: Task<E>)
    requires |groups| == |tasks| && c < |groups|
    ensures Weights(groups, tasks[c := task]) == Weights(groups, tasks) - Weight(groups[c], tasks[c]) + Weight(groups[c], task)
  {
    hide Weights, Weight;
    var n := |groups| - 1;
    var updated := tasks[c := task];
    WeightsOfLast(groups, tasks);
    WeightsOfLast(groups, updated);
    if c < n {
      assert updated[..n] == tasks[..n][c := task];
      WeightsUpdate(groups[..n], tasks[..n], c, task);
    } else {
      assert updated[..n] == tasks[..n];
    }
  }

  lemma WeightsOfLast<E>(groups: seq<PackageGroup>, tasks: seq<Task<E>>)
    requires |groups| == |tasks| > 0
    ensures var n := |groups| - 1;
            Weights(groups, tasks) == Weights(groups[..n], tasks[..n]) + Weight(groups[n], tasks[n])
  {
    hide Weight;
  }

  lemma BuildWeighsLess<E>(group: PackageGroup, task: Task<E>, p: nat, outcome: Option<E>)
    requires task.Running? && p in PackageSet(group) - task.succeeded - task.failed.Keys
    ensures Weight(group, if outcome.None? then task.(succeeded := task.succeeded + {p}) else task.(failed := task.failed[p := outcome.value]))
            < Weight(group, task)
  {
    hide PackageSet;
    if outcome.None? {
      LeftShrinks(PackageSet(group), task.succeeded, task.failed.Keys, task.succeeded + {p}, task.failed.Keys, p);
    } else {
      LeftShrinks(PackageSet(group), task.succeeded, task.failed.Keys, task.succeeded, task.failed[p := outcome.value].Keys, p);
    }
  }

  lemma LeftShrinks(all: set<nat>, succeeded: set<nat>, failed: set<nat>, succeeded': set<nat>, failed': set<nat>, p: nat)
    requires p in all - succeeded - failed && succeeded' + failed' == succeeded + failed + {p}
    ensures |all - succeeded' - failed'| < |all - succeeded - failed|
  {
    var left := all - succeeded - failed;
    assert forall q :: q in succeeded' || q in failed' <==> q in succeeded || q in failed || q == p by {
      assert forall q :: q in succeeded' + failed' <==> q in succeeded + failed + {p};
    }
    assert all - succeeded' - failed' == left - {p};
  }

  // All other steps touch one task.
  lemma OneTaskMoves<E>(groups: seq<PackageGroup>, execute: nat -> Option<E>, s: State<E>, step: Step)
    requires Fits(groups, s) && Enabled(groups, s, step) && !step.Root? && !step.Release?
    ensures var t := Apply(groups, execute, s, step);
            t.tasks == s.tasks[step.c := t.tasks[step.c]] && t.cursor == s.cursor && Fits(groups, t)
  {
    hide PackageSet;
  }

  lemma TaskWeighsLess<E>(groups: seq<PackageGroup>, execute: nat -> Option<E>, s: State<E>, step: Step)
    requires Fits(groups, s) && Enabled(groups, s, step) && !step.Root? && !step.Release?
    ensures Weight(groups[step.c], Apply(groups, execute, s, step).tasks[step.c]) < Weight(groups[step.c], s.tasks[step.c])
  {
    hide PackageSet;
    if step.Build? {
      hide Weight;
      BuildWeighsLess(groups[step.c], s.tasks[step.c], step.p, execute(step.p));
    }
  }

  lemma SpawnWeighsLess<E>(groups: seq<PackageGroup>, s: State<E>, d: nat)
    requires Fits(groups, s) && d < |groups| && s.tasks[d].Waiting?
    ensures Fits(groups, Spawned(s, d)) && Measure(groups, Spawned(s, d)) < Measure(groups, s)
  {
    WeightsUpdate(groups, s.tasks, d, Running({}, map[]));
    var none: map<nat, E> := map[];
    assert PackageSet(groups[d]) - {} - none.Keys == PackageSet(groups[d]);
  }

  lemma RootWeighsLess<E>(groups: seq<PackageGroup>, execute: nat -> Option<E>, s: State<E>)
    requires Fits(groups, s) && Enabled(groups, s, Root) && CountHolds(groups, s, s.cursor)
    ensures var t := Apply(groups, execute, s, Root);
            Fits(groups, t) && Measure(groups, t) < Measure(groups, s)
  {
    hide Weights, Weight;
    if groups[s.cursor].dependencies == [] {
      assert Unreleased(groups, s, s.cursor) == {};
      SpawnWeighsLess(groups, s.(cursor := s.cursor + 1), s.cursor);
    }
  }

  lemma TakeWeighsLess<E>(groups: seq<PackageGroup>, s: State<E>, c: nat)
    requires Fits(groups, s) && Enabled(groups, s, Release(c))
    ensures Fits(groups, Taken(groups, s, c)) && Measure(groups, Taken(groups, s, c)) < Measure(groups, s)
  {
    var next := s.tasks[c].next;
    var taken := Taken(groups, s, c);
    assert taken.tasks == s.tasks[c := Releasing(next + 1)] && taken.cursor == s.cursor;
    assert Weight(groups[c], Task<E>.Releasing(next + 1)) < Weight(groups[c], s.tasks[c]);
    hide Weights, Weight, Taken;
    WeightsUpdate(groups, s.tasks, c, Releasing(next + 1));
  }

  lemma ReleaseWeighsLess<E>(g: Graph, groups: seq<PackageGroup>, execute: nat -> Option<E>, s: State<E>, c: nat)
    requires LinksHold(groups) && Inv(g, groups, execute, s) && Enabled(groups, s, Release(c))
    ensures Fits(groups, Released(groups, s, c)) && Measure(groups, Released(groups, s, c)) < Measure(groups, s)
  {
    ReleaseCounts(g, groups, execute, s, c);
    hide Inv, LinksHold, Unreleased, Measure;
    TakeWeighsLess(groups, s, c);
    var d := groups[c].dependents[s.tasks[c].next];
    if s.remaining[d] == 1 {
      SpawnWeighsLess(groups, Taken(groups, s, c), d);
    }
  }

  // Every step takes the run closer to its end, so that runs are finite.
  lemma StepWeighsLess<E>(g: Graph, groups: seq<PackageGroup>, execute: nat -> Option<E>, s: State<E>, step: Step)
    requires LinksHold(groups) && Inv(g, groups, execute, s) && Enabled(groups, s, step)
    ensures var t := Apply(groups, execute, s, step);
            Fits(groups, t) && Measure(groups, t) < Measure(groups, s)
  {
    hide CountHolds, TaskHolds, LinksHold, Weights, Weight;
    if step.Root? {
      RootWeighsLess(groups, execute, s);
    } else if step.Release? {
      ReleaseWeighsLess(g, groups, execute, s, step.c);
    } else {
      hide Inv, Enabled;
      OneTaskMoves(groups, execute, s, step);
      TaskWeighsLess(groups, execute, s, step);
      WeightsUpdate(groups, s.tasks, step.c, Apply(groups, execute, s, step).tasks[step.c]);
      hide Apply;
    }
  }

  // A run has no more steps than the measure of its initial state.
  lemma {:induction false} RunIsFinite<E(!new)>(g: Graph, groups: seq<PackageGroup>, execute: nat -> Option<E>, states: seq<State<E>>, k: nat)
    requires ValidGraph(g) && GroupsHold(g, groups) && IsRun(groups, execute, states) && k < |states|
    ensures Fits(groups, states[k]) && Fits(groups, states[0]) && k + Measure(groups, states[k]) <= Measure(groups, states[0])
  {
    assert LinksHold(groups);
    hide GroupsHold, LinksHold, Inv, Enabled, Apply, Initial, Measure;
    RunKeepsInv(g, groups, execute, states, k);
    InvFits(g, groups, execute, states[k]);
    if k > 0 {
      RunIsFinite(g, groups, execute, states, k - 1);
      RunKeepsInv(g, groups, execute, states, k - 1);
      assert StepAt(groups, execute, states, k);
      var step :| Enabled(groups, states[k - 1], step) && states[k] == Apply(groups, execute, states[k - 1], step);
      StepWeighsLess(g, groups, execute, states[k - 1], step);
    }
  }
}
