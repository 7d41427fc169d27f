// How the results that concurrent snapshots store are stamped
// (compiler-core/building/src/engine.rs).
module ConcurrentReuse {
  import opened Queries
  import opened QueryCache
  import opened Reuse
  import opened SnapshotGraph
  import opened ConcurrentEngine
  import opened Wrappers

  lemma StoredIsBackdated(s: State, i: SnapshotId, entry: Entry)
    requires StackOf(s, i) != [] && Top(StackOf(s, i)).query in s.slots && entry.trace.built == s.revision
    requires var q := Top(StackOf(s, i)).query;
             entry.trace.changed == if q in Logical(s).entries && Logical(s).entries[q].value == entry.value
                                    then Logical(s).entries[q].trace.changed else s.revision
    ensures Backdated(Logical(s), Top(StackOf(s, i)).query, entry.value, Logical(Stored(s, i, entry)))
  {
    var q := Top(StackOf(s, i)).query;
    assert (s.entries[q := entry] + (s.suspended - {q}))[q] == entry;
  }

  // The frame on top knows the previous result of its query.
  lemma PreviousResult(rules: Rules, s: State, i: SnapshotId)
    requires Inv(rules, s) && StackOf(s, i) != []
    ensures var f := Top(StackOf(s, i));
            && (f.phase.Verifying? ==> f.query in Logical(s).entries && Logical(s).entries[f.query] == f.phase.entry)
            && (f.phase.Computing? && f.query in s.slots ==>
                  if f.phase.previous.Some? then f.query in Logical(s).entries && Logical(s).entries[f.query] == f.phase.previous.value
                  else f.query !in Logical(s).entries)
  {
    hide RepliesHold, PromisesHold, SlotsHold, OwnershipHolds, Sound;
    EnteringFrame(rules, ViewOf(s), StackOf(s, i));
  }

  lemma MoveStamps(rules: Rules, s: State, i: SnapshotId, move: Move, k: QueryKey)
    requires Inv(rules, s) && StackOf(s, i) != [] && CanMove(s, i, move) && TopOwns(s, i)
    requires Stores(s, Moved(rules, s, i, move), k)
    ensures Backdated(Logical(s), k, Moved(rules, s, i, move).entries[k].value, Logical(Moved(rules, s, i, move)))
  {
    hide Inv, Logical, Backdated, CanMove, Moved, Stores, TopOwns;
    PreviousResult(rules, s, i);
    if move.VerifyEnd? {
      VerifyEndMoves(rules, s, i);
      VerifyEndStamps(rules, s, i, k);
    } else if move.Compute? {
      ComputeMoves(rules, s, i);
      ComputeStamps(rules, s, i, k);
    } else {
      OthersStoreNothing(rules, s, i, move, k);
    }
  }

  lemma VerifyEndMoves(rules: Rules, s: State, i: SnapshotId)
    requires StackOf(s, i) != [] && CanMove(s, i, VerifyEnd) && TopOwns(s, i)
    ensures Top(StackOf(s, i)).phase.Verifying? && Top(StackOf(s, i)).query in s.slots && Moved(rules, s, i, VerifyEnd) == VerifyEnded(s, i)
  {
    hide VerifyEnded;
  }

  lemma ComputeMoves(rules: Rules, s: State, i: SnapshotId)
    requires StackOf(s, i) != [] && CanMove(s, i, Compute) && TopOwns(s, i)
    ensures Top(StackOf(s, i)).phase.Computing? && Top(StackOf(s, i)).query in s.slots && Moved(rules, s, i, Compute) == Computed(rules, s, i)
  {
    hide Computed;
  }

  lemma VerifyEndStamps(rules: Rules, s: State, i: SnapshotId, k: QueryKey)
    requires StackOf(s, i) != [] && Top(StackOf(s, i)).phase.Verifying? && Top(StackOf(s, i)).query in s.slots
    requires var f := Top(StackOf(s, i)); f.query in Logical(s).entries && Logical(s).entries[f.query] == f.phase.entry
    requires Stores(s, VerifyEnded(s, i), k)
    ensures Backdated(Logical(s), k, VerifyEnded(s, i).entries[k].value, Logical(VerifyEnded(s, i)))
  {
    hide Logical, Backdated, Released;
    var e := Top(StackOf(s, i)).phase.entry;
    if e.trace.built >= Top(StackOf(s, i)).phase.latest {
      StoredIsBackdated(s, i, Stamped(e, s.revision));
    }
  }

  lemma ComputeStamps(rules: Rules, s: State, i: SnapshotId, k: QueryKey)
    requires StackOf(s, i) != [] && Top(StackOf(s, i)).phase.Computing? && Top(StackOf(s, i)).query in s.slots
    requires var f := Top(StackOf(s, i));
             if f.phase.previous.Some? then f.query in Logical(s).entries && Logical(s).entries[f.query] == f.phase.previous.value
             else f.query !in Logical(s).entries
    requires Stores(s, Computed(rules, s, i), k)
    ensures Backdated(Logical(s), k, Computed(rules, s, i).entries[k].value, Logical(Computed(rules, s, i)))
  {
    hide Logical, Backdated, Released;
    var f := Top(StackOf(s, i));
    if rules(f.query, f.phase.answers).Return? && f.unavailable.None? {
      StoredIsBackdated(s, i, NewEntry(s, f, rules(f.query, f.phase.answers).value));
    }
  }

  lemma OthersStoreNothing(rules: Rules, s: State, i: SnapshotId, move: Move, k: QueryKey)
    requires StackOf(s, i) != [] && CanMove(s, i, move) && TopOwns(s, i) && !move.VerifyEnd? && !move.Compute?
    ensures !Stores(s, Moved(rules, s, i, move), k)
  {
    hide Closes, AnyVerifying, CancelSeen, WithTop, Exited, Started, Joined;
    if move.Exit? {
      ExitStoresNothing(s, i);
    } else if move.Start? {
      StartStoresNothing(s, i);
    }
  }

  lemma ExitStoresNothing(s: State, i: SnapshotId)
    requires StackOf(s, i) != [] && Top(StackOf(s, i)).phase.Leaving? && TopOwns(s, i)
    ensures Exited(s, i).entries == s.entries && Exited(s, i).revision == s.revision
  {
    hide Delivered, WithTop, CleanedUp;
    var top := Top(StackOf(s, i));
    if top.inProgress {
      CleanUpStoresNothing(s, top.query);
    }
  }

  lemma CleanUpStoresNothing(s: State, query: QueryKey)
    requires query in s.slots
    ensures CleanedUp(s, query).entries == s.entries && CleanedUp(s, query).revision == s.revision
  {
    hide HandedOff, Inherited;
  }

  lemma StartStoresNothing(s: State, i: SnapshotId)
    requires StackOf(s, i) != []
    ensures Started(s, i).entries == s.entries - {Top(StackOf(s, i)).query} && Started(s, i).revision == s.revision
  {
    hide StartedFrame, WithTop;
  }

  // Whenever a result is stored, it is stamped as a change exactly if its value is not that of
  // the previous result.
  lemma StepStamps(rules: Rules, s: State, step: Step, t: State, k: QueryKey)
    requires Inv(rules, s) && StepTaken(rules, s, step, t) && Stores(s, t, k)
    ensures Backdated(Logical(s), k, t.entries[k].value, Logical(t))
  {
    hide RepliesHold, PromisesHold, SlotsHold, OwnershipHolds, StackHolds, Moved, CanMove, Backdated;
    if step.Act? {
      MoveStamps(rules, s, step.i, step.move, k);
    } else if step.Transaction? {
      NothingFresh(rules, s, step, t, k);
    }
  }

  // Nothing is current at a new revision.
  lemma NothingFresh(rules: Rules, s: State, step: Step, t: State, k: QueryKey)
    requires StorageHolds(rules, s) && StepTaken(rules, s, step, t) && step.Transaction?
    ensures !IsFresh(t, k)
  {
    if k in step.entries {
      assert Logical(s).entries[k] == step.entries[k] && EntryHolds(rules, Logical(s), k);
    }
  }

  lemma RunStamps(rules: Rules, states: seq<State>, steps: seq<Step>, n: nat, k: QueryKey)
    requires ScopedRules(rules) && IsRun(rules, states, steps) && n < |steps| && Stores(states[n], states[n + 1], k)
    ensures Backdated(Logical(states[n]), k, states[n + 1].entries[k].value, Logical(states[n + 1]))
  {
    hide Inv, ScopedRules, StepTaken, Backdated, Stores;
    RunKeepsInv(rules, states, steps, n);
    StepStamps(rules, states[n], steps[n], states[n + 1], k);
  }
}
