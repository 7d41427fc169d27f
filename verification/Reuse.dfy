// When the query engine reuses what it remembers instead of computing it again
// (compiler-core/building/src/engine.rs).
module Reuse {
  import opened Queries
  import opened QueryCache

  // ---------------------------------------------------------------- settled results

  // A dependency has not changed since its dependent was computed or verified.
  ghost predicate Unmoved(s: Store, keys: set<QueryKey>, k: QueryKey, d: QueryKey)
    requires k in s.entries
  {
    if d.IsInput() then d in s.inputs ==> s.inputs[d].changed <= s.entries[k].trace.built
    else d in keys && d in s.entries && s.entries[d].trace.changed <= s.entries[k].trace.built
  }

  ghost predicate SettledAt(s: Store, keys: set<QueryKey>, k: QueryKey) {
    k in s.entries && forall d :: d in s.entries[k].dependencies ==> Unmoved(s, keys, k, d)
  }

  ghost predicate AllSettled(s: Store, keys: set<QueryKey>) {
    forall k :: k in keys ==> SettledAt(s, keys, k)
  }

  // Nothing that the result depends on, at any distance, has changed since its dependent saw it.
  ghost predicate Settled(s: Store, k: QueryKey) {
    exists keys: set<QueryKey> :: k in keys && AllSettled(s, keys)
  }

  // The results are the same, some of them verified since.
  ghost predicate KeepsAll(s: Store, t: Store, keys: set<QueryKey>) {
    forall k :: k in keys ==> k in s.entries && k in t.entries && Restamped(s.entries[k], t.entries[k], s.revision)
  }

  predicate Restamped(a: Entry, b: Entry, revision: nat) {
    b == a || b == Stamped(a, revision)
  }

  lemma KeepsTransitive(s: Store, t: Store, u: Store, keys: set<QueryKey>)
    requires KeepsAll(s, t, keys) && KeepsAll(t, u, keys) && t.revision == s.revision
    ensures KeepsAll(s, u, keys)
  {
  }

  lemma KeepsSettled(rules: Rules, s: Store, t: Store, keys: set<QueryKey>)
    requires Sound(rules, s) && AllSettled(s, keys) && KeepsAll(s, t, keys) && t.revision == s.revision && t.inputs == s.inputs
    ensures AllSettled(t, keys)
  {
    forall k, d | k in keys && d in t.entries[k].dependencies
      ensures Unmoved(t, keys, k, d)
    {
      assert SettledAt(s, keys, k) && Unmoved(s, keys, k, d) && EntryHolds(rules, s, k);
      if d.IsInput() {
        assert d in s.inputs ==> InputKept(s, d);
      } else {
        assert SettledAt(s, keys, d) && EntryHolds(rules, s, d);
      }
    }
  }

  // Writing an input that none of the results reads leaves them settled.
  lemma UnrelatedWrite(s: Store, keys: set<QueryKey>, key: QueryKey, value: Value)
    requires AllSettled(s, keys) && key.IsInput() && forall k :: k in keys ==> key !in s.entries[k].dependencies
    ensures AllSettled(NextRevision(s, s.inputs[key := InputState(value, s.revision + 1)], s.entries), keys)
  {
    var t := NextRevision(s, s.inputs[key := InputState(value, s.revision + 1)], s.entries);
    forall k, d | k in keys && d in t.entries[k].dependencies
      ensures Unmoved(t, keys, k, d)
    {
      assert SettledAt(s, keys, k) && Unmoved(s, keys, k, d);
    }
  }

  // ---------------------------------------------------------------- stamps

  // Whatever a current result lists is current.
  ghost predicate CurrentClosed(s: Store) {
    forall k, d :: IsCurrent(s, k) && d in s.entries[k].dependencies ==> d.IsInput() || IsCurrent(s, d)
  }

  ghost function CurrentKeys(s: Store): set<QueryKey> {
    set k | k in s.entries && IsCurrent(s, k)
  }

  // A current result is settled.
  lemma CurrentIsSettled(rules: Rules, s: Store, k: QueryKey)
    requires Sound(rules, s) && CurrentClosed(s) && IsCurrent(s, k)
    ensures k in CurrentKeys(s) && AllSettled(s, CurrentKeys(s)) && Settled(s, k)
  {
    var keys := CurrentKeys(s);
    forall j, d | j in keys && d in s.entries[j].dependencies
      ensures Unmoved(s, keys, j, d)
    {
      assert EntryHolds(rules, s, j);
      if d.IsInput() {
        assert d in s.inputs ==> InputKept(s, d);
      } else {
        assert IsCurrent(s, d) && EntryHolds(rules, s, d);
      }
    }
  }

  function ChangedIn(s: Store, d: QueryKey): nat {
    if d.IsInput() then (if d in s.inputs then s.inputs[d].changed else 0)
    else if d in s.entries then s.entries[d].trace.changed
    else 0
  }

  // The result is stamped as changed at this revision, unless its value is that of the previous one.
  ghost predicate Backdated(s: Store, k: QueryKey, v: Value, t: Store) {
    && IsCurrent(t, k) && t.entries[k].value == v
    && t.entries[k].trace.changed == if k in s.entries && s.entries[k].value == v then s.entries[k].trace.changed else t.revision
  }

  // Early cutoff: a previous result is kept as it is if nothing that it lists turns out to have
  // changed, even if some of that was computed again.
  ghost predicate CutOff(s: Store, k: QueryKey, t: Store) {
    k in s.entries && k in t.entries &&
    (forall d :: d in s.entries[k].dependencies ==> ChangedIn(t, d) <= s.entries[k].trace.built) ==>
      t.entries[k] == Stamped(s.entries[k], t.revision)
  }
}
