// Attempts to prepare a workspace: starting, cancelling, retrying and shutting down
// (compiler-executable/iris-lsp-workspace/src/preparation.rs).
module Preparations {
  import opened Wrappers

  datatype State =
    | NotStarted
    | Running(generation: nat)
    | Cancelling(generation: nat, retry: Option<nat>)
    | Paused(generation: nat)
    | Finished
    | Failed
    | ShuttingDown

  datatype Disposition = Apply | Discard

  datatype Outcome = Pending | Cancelled | Stopped

  // What happens to attempts: one starts, its progress is ended because it was cancelled, and it
  // returns, with a result that is applied or not.
  datatype Event = Started(generation: nat) | Ended(generation: nat) | Returned(generation: nat, applied: bool)

  // ---------------------------------------------------------------- histories

  function Starts(log: seq<Event>): nat {
    if log == [] then 0 else Starts(log[..|log| - 1]) + if log[|log| - 1].Started? then 1 else 0
  }

  predicate HasReturned(log: seq<Event>, g: nat) {
    Returned(g, true) in log || Returned(g, false) in log
  }

  // What may happen next.
  predicate MayHappen(log: seq<Event>, event: Event) {
    match event
    case Started(g) => g == Starts(log) + 1 && (g == 1 || Returned(g - 1, false) in log)
    case Ended(g) => g == Starts(log) && g > 0 && Ended(g) !in log && !HasReturned(log, g)
    case Returned(g, applied) => g == Starts(log) && g > 0 && !HasReturned(log, g) && (applied <==> Ended(g) !in log)
  }

  // Attempts are numbered from one on, one starts only after the one before has returned
  // cancelled, and each is ended and returns at most once.
  ghost predicate Legal(log: seq<Event>) {
    forall i :: 0 <= i < |log| ==> MayHappen(log[..i], log[i])
  }

  lemma LegalNext(log: seq<Event>, event: Event)
    requires Legal(log) && MayHappen(log, event)
    ensures Legal(log + [event]) && Starts(log + [event]) == Starts(log) + if event.Started? then 1 else 0
  {
    var next := log + [event];
    assert next[..|log|] == log;
    forall i | 0 <= i < |next|
      ensures MayHappen(next[..i], next[i])
    {
      if i < |log| {
        assert next[..i] == log[..i];
      }
    }
  }

  lemma {:induction false} StartsGrow(log: seq<Event>, i: nat)
    requires i <= |log|
    ensures Starts(log[..i]) <= Starts(log)
    decreases |log| - i
  {
    if i < |log| {
      StartsGrow(log, i + 1);
      assert log[..i + 1][..i] == log[..i];
    } else {
      assert log[..i] == log;
    }
  }

  // The result of an attempt is applied, or its progress was ended by a cancellation, never both.
  lemma AppliedIsNotEnded(log: seq<Event>, i: nat, j: nat)
    requires Legal(log) && i < |log| && j < |log| && log[i].Returned? && log[i].applied && log[j].Ended?
    ensures log[i].generation != log[j].generation
  {
    assert MayHappen(log[..i], log[i]) && MayHappen(log[..j], log[j]);
    if i < j {
      assert log[..j][i] == log[i];
    } else {
      assert log[..i][j] == log[j];
    }
  }

  // What every history says of attempts: the one that starts after `n` others is number `n + 1`,
  // the one before has returned and its result was dropped, an attempt is ended and returns at most
  // once, after it has started, and its result is applied exactly if it was not ended.
  ghost predicate Orderly(log: seq<Event>) {
    && (forall i :: 0 <= i < |log| && log[i].Started? ==>
          log[i].generation == Starts(log[..i]) + 1 && (log[i].generation > 1 ==> Returned(log[i].generation - 1, false) in log[..i]))
    && (forall i, j :: 0 <= i < j < |log| && log[i].generation == log[j].generation ==> Follows(log[i], log[j]))
    && (forall i :: 0 <= i < |log| && !log[i].Started? ==> Started(log[i].generation) in log[..i])
    && (forall i :: 0 <= i < |log| && log[i].Returned? ==> (log[i].applied <==> Ended(log[i].generation) !in log))
  }

  // Which events of one attempt may follow each other.
  predicate Follows(first: Event, second: Event) {
    || (first.Started? && !second.Started?)
    || (first.Ended? && second.Returned? && !second.applied)
  }

  // The latest attempt has started.
  lemma {:induction false} LatestStarted(log: seq<Event>)
    requires Legal(log) && Starts(log) > 0
    ensures Started(Starts(log)) in log
  {
    var n := |log| - 1;
    assert MayHappen(log[..n], log[n]);
    if !log[n].Started? {
      LegalPrefix(log, n);
      LatestStarted(log[..n]);
    }
  }

  lemma LegalPrefix(log: seq<Event>, n: nat)
    requires Legal(log) && n <= |log|
    ensures Legal(log[..n])
  {
    forall i | 0 <= i < n
      ensures MayHappen(log[..n][..i], log[..n][i])
    {
      assert log[..n][..i] == log[..i];
    }
  }

  lemma LegalFollows(log: seq<Event>, i: nat, j: nat)
    requires Legal(log) && i < j < |log| && log[i].generation == log[j].generation
    ensures Follows(log[i], log[j])
  {
    hide Legal, Starts;
    LegalAt(log, j);
    assert log[..j][i] == log[i];
    if log[j].Started? {
      StartsHigher(log, i, j);
    }
  }

  lemma LegalAt(log: seq<Event>, i: nat)
    requires Legal(log) && i < |log|
    ensures MayHappen(log[..i], log[i])
  {
    hide MayHappen;
  }

  // An attempt that starts is new.
  lemma StartsHigher(log: seq<Event>, i: nat, j: nat)
    requires Legal(log) && i < j < |log| && log[j].Started?
    ensures log[i].generation < log[j].generation
  {
    LegalAt(log, i);
    LegalAt(log, j);
    hide Legal;
    StartsGrow(log[..j], i + 1);
    assert log[..j][..i + 1] == log[..i + 1] && log[..i + 1][..i] == log[..i] && log[..i + 1][i] == log[i];
  }

  lemma LegalIsOrderly(log: seq<Event>)
    requires Legal(log)
    ensures Orderly(log)
  {
    hide Legal, Starts, Follows;
    forall i, j | 0 <= i < j < |log| && log[i].generation == log[j].generation
      ensures Follows(log[i], log[j])
    {
      LegalFollows(log, i, j);
    }
    forall i | 0 <= i < |log|
      ensures log[i].Started? ==>
                log[i].generation == Starts(log[..i]) + 1 && (log[i].generation > 1 ==> Returned(log[i].generation - 1, false) in log[..i])
      ensures !log[i].Started? ==> Started(log[i].generation) in log[..i]
    {
      LegalAt(log, i);
      if !log[i].Started? {
        LegalPrefix(log, i);
        LatestStarted(log[..i]);
      }
    }
    forall i | 0 <= i < |log| && log[i].Returned?
      ensures log[i].applied <==> Ended(log[i].generation) !in log
    {
      AppliedUnlessEnded(log, i);
    }
  }

  lemma AppliedUnlessEnded(log: seq<Event>, i: nat)
    requires Legal(log) && i < |log| && log[i].Returned?
    ensures log[i].applied <==> Ended(log[i].generation) !in log
  {
    LegalAt(log, i);
    hide Legal, Starts;
    if log[i].applied {
      forall j | 0 <= j < |log| && log[j].Ended?
        ensures log[j].generation != log[i].generation
      {
        AppliedIsNotEnded(log, i, j);
      }
    } else {
      assert Ended(log[i].generation) in log[..i];
    }
  }

  // ---------------------------------------------------------------- the state

  ghost predicate Fits(state: State, log: seq<Event>) {
    var g := Starts(log);
    match state
    case NotStarted => log == []
    case Running(generation) => generation == g > 0 && !HasReturned(log, g) && Ended(g) !in log
    case Cancelling(generation, retry) =>
      generation == g > 0 && !HasReturned(log, g) && Ended(g) in log && (retry.Some? ==> retry.value == g + 1)
    case Paused(generation) => generation == g > 0 && Returned(g, false) in log
    case Finished => Returned(g, true) in log
    case Failed => Returned(g, true) in log
    case ShuttingDown => true
  }

  // A retry that was reserved while a cancelled attempt had not returned is still reserved, or it
  // is what started next, at once when the attempt returned, or preparation was shut down first.
  ghost predicate RetryKept(state: State, log: seq<Event>, state': State, log': seq<Event>) {
    state.Cancelling? && state.retry.Some? ==>
      || (state' == state && log' == log)
      || (state' == ShuttingDown && log' == log)
      || log + [Returned(state.generation, false), Started(state.retry.value)] <= log'
  }

  class Preparation {
    var state: State
    ghost var log: seq<Event>

    ghost predicate Valid()
      reads this
    {
      Legal(log) && Fits(state, log)
    }

    constructor ()
      ensures Valid() && state == NotStarted && log == []
    {
      state, log := NotStarted, [];
    }

    ghost method Record(event: Event)
      requires Legal(log) && MayHappen(log, event)
      modifies this`log
      ensures log == old(log) + [event] && Legal(log)
      ensures Starts(log) == Starts(old(log)) + if event.Started? then 1 else 0
    {
      LegalNext(log, event);
      log := log + [event];
    }

    method StartAttempt(generation: nat)
      requires Legal(log) && MayHappen(log, Started(generation))
      requires !HasReturned(log, generation) && Ended(generation) !in log
      modifies this
      ensures Valid() && state == Running(generation) && log == old(log) + [Started(generation)]
    {
      hide Legal, Starts;
      Record(Started(generation));
      state := Running(generation);
    }

    // Starts the first attempt, once.
    method Start() returns (started: bool)
      requires Valid()
      modifies this
      ensures Valid()
      ensures started == old(state.NotStarted?)
      ensures log == old(log) + if started then [Started(1)] else []
      ensures state == if started then Running(1) else old(state)
    {
      if !state.NotStarted? {
        return false;
      }
      assert log == [];
      StartAttempt(1);
      return true;
    }

    // The attempt that a request should wait for: the one that runs, or the next one, which is
    // reserved while a cancelled one has not returned, and started at once when it has.
    method Demand() returns (generation: Option<nat>)
      requires Valid()
      modifies this
      ensures Valid()
      ensures generation.Some? <==> old(state.Running? || state.Cancelling? || state.Paused?)
      ensures generation.Some? ==> generation.value == Starts(old(log)) + if old(state.Running?) then 0 else 1
      ensures log == old(log) + if old(state.Paused?) then [Started(generation.value)] else []
      ensures old(state.Cancelling?) ==> state == Cancelling(Starts(log), generation)
      ensures old(state.Paused?) ==> state == Running(generation.value)
      ensures !old(state.Cancelling? || state.Paused?) ==> state == old(state)
    {
      hide Legal, Starts;
      match state {
        case Running(g) =>
          return Some(g);
        case Cancelling(g, retry) =>
          var next := if retry.Some? then retry.value else g + 1;
          state := Cancelling(g, Some(next));
          return Some(next);
        case Paused(g) =>
          NotYet(log, g + 1);
          StartAttempt(g + 1);
          return Some(g + 1);
        case _ =>
          return None;
      }
    }

    // A cancelled attempt has returned.
    method Retire(generation: nat, retry: Option<nat>)
      requires Valid() && state == Cancelling(generation, retry)
      modifies this
      ensures Valid()
      ensures retry.Some? ==> state == Running(generation + 1) && log == old(log) + [Returned(generation, false), Started(generation + 1)]
      ensures retry.None? ==> state == Paused(generation) && log == old(log) + [Returned(generation, false)]
    {
      hide Legal, Starts;
      ghost var before := log;
      Record(Returned(generation, false));
      assert Returned(generation, false) in log;
      if retry.Some? {
        NotYet(log, retry.value);
        StartAttempt(retry.value);
        assert log == before + [Returned(generation, false), Started(generation + 1)];
      } else {
        state := Paused(generation);
      }
    }

    // An attempt has returned. A retry that was reserved is started now, and nothing else is.
    method Finish(generation: nat, succeeded: bool) returns (disposition: Option<Disposition>)
      requires Valid()
      modifies this
      ensures Valid() && old(log) <= log
      ensures disposition == Some(Apply) <==> old(state == Running(generation))
      ensures disposition == Some(Discard) <==> old(state.Cancelling? && state.generation == generation)
      ensures disposition == Some(Apply) ==>
                state == (if succeeded then Finished else Failed) && log == old(log) + [Returned(generation, true)]
      ensures disposition == Some(Discard) ==>
                if old(state.retry.Some?) then state == Running(generation + 1) && log == old(log) + [Returned(generation, false), Started(generation + 1)]
                else state == Paused(generation) && log == old(log) + [Returned(generation, false)]
      ensures disposition.None? ==> state == old(state) && log == old(log)
    {
      hide Legal, Starts;
      match state {
        case Running(g) =>
          if g != generation {
            return None;
          }
          Record(Returned(g, true));
          state := if succeeded then Finished else Failed;
          return Some(Apply);
        case Cancelling(g, retry) =>
          if g != generation {
            return None;
          }
          Retire(g, retry);
          return Some(Discard);
        case _ =>
          return None;
      }
    }

    // Cancels the attempt that runs, and only that one.
    method Cancel(generation: nat) returns (cancelled: bool)
      requires Valid()
      modifies this
      ensures Valid()
      ensures cancelled == old(state == Running(generation))
      ensures cancelled ==> state == Cancelling(generation, None) && log == old(log) + [Ended(generation)]
      ensures !cancelled ==> state == old(state) && log == old(log)
    {
      hide Legal, Starts;
      if state != Running(generation) {
        return false;
      }
      Record(Ended(generation));
      state := Cancelling(generation, None);
      return true;
    }

    // Stops preparation for good. The progress of an attempt that runs is ended; that of one that
    // was cancelled has ended before.
    method ShutDown()
      requires Valid()
      modifies this
      ensures Valid() && state == ShuttingDown
      ensures log == old(log) + if old(state.Running?) then [Ended(Starts(old(log)))] else []
    {
      if state.Running? {
        Record(Ended(state.generation));
      }
      state := ShuttingDown;
    }

    // How a request that waits for an attempt should go on.
    method OutcomeOf(generation: nat) returns (outcome: Outcome)
      requires Valid()
      ensures outcome == Stopped <==> state.ShuttingDown?
      ensures outcome == Pending <==>
              || state == Running(generation) || (state.Cancelling? && state.retry == Some(generation))
              || state.Finished? || state.Failed?
    {
      match state
      case ShuttingDown => return Stopped;
      case Running(g) => return if g == generation then Pending else Cancelled;
      case Cancelling(_, retry) => return if retry == Some(generation) then Pending else Cancelled;
      case Finished => return Pending;
      case Failed => return Pending;
      case _ => return Cancelled;
    }

    // Any operation, with any argument.
    method Perform(op: Operation)
      requires Valid()
      modifies this
      ensures Valid() && old(log) <= log
      ensures old(state.ShuttingDown?) ==> state.ShuttingDown? && log == old(log)
      ensures RetryKept(old(state), old(log), state, log)
    {
      hide Legal, Starts;
      match op
      case Start => var started := Start();
      case Demand => var generation := Demand();
      case Finish(g, succeeded) =>
        var disposition := Finish(g, succeeded);
        assert disposition.None? || disposition.value.Apply? || disposition.value.Discard?;
      case Cancel(g) => var cancelled := Cancel(g);
      case ShutDown => ShutDown();
    }

    // Over every run, attempts are orderly, no reserved retry is lost, and nothing happens after a
    // shutdown.
    method Run(ops: seq<Operation>)
      requires Valid()
      modifies this
      ensures Valid() && old(log) <= log
      ensures old(state.ShuttingDown?) ==> state.ShuttingDown? && log == old(log)
      ensures RetryKept(old(state), old(log), state, log)
      ensures Orderly(log)
    {
      hide Orderly, Legal, Starts, Fits;
      for i := 0 to |ops|
        invariant Valid() && old(log) <= log
        invariant RetryKept(old(state), old(log), state, log)
        invariant old(state.ShuttingDown?) ==> state.ShuttingDown? && log == old(log)
      {
        Perform(ops[i]);
      }
      LegalIsOrderly(log);
    }
  }

  datatype Operation = Start | Demand | Finish(generation: nat, succeeded: bool) | Cancel(generation: nat) | ShutDown

  // Nothing has happened to an attempt that has not started.
  lemma NotYet(log: seq<Event>, g: nat)
    requires Legal(log) && g > Starts(log)
    ensures !HasReturned(log, g) && Ended(g) !in log
  {
    forall i | 0 <= i < |log|
      ensures log[i].generation < g
    {
      assert MayHappen(log[..i], log[i]);
      StartsGrow(log, i + 1);
      assert log[..i + 1][..i] == log[..i];
    }
  }
}
