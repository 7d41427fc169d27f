// Which queries the engine visits to answer one, and what that says of its answer
// (compiler-core/building/src/engine.rs).
module QueryVisits {
  import opened Queries
  import opened QueryCache

  // To answer `k`, whose result is not current, the engine asks for `d`: an old result lists it,
  // or the compute function reads it.
  ghost predicate Visits(rules: Rules, s: Store, k: QueryKey, d: QueryKey) {
    && !IsCurrent(s, k) && !d.IsInput()
    && ((k in s.entries && d in s.entries[k].dependencies) || Calls(rules, Values(s.inputs), k, d))
  }

  ghost predicate VisitPath(rules: Rules, s: Store, path: seq<QueryKey>) {
    forall i :: 0 <= i < |path| - 1 ==> Visits(rules, s, path[i], path[i + 1])
  }

  // A query that misses the content of this file is visited.
  ghost predicate ThreatenedBy(rules: Rules, s: Store, k: QueryKey, file: FileId) {
    exists path :: ThreatPath(rules, s, k, file, path)
  }

  ghost predicate ThreatPath(rules: Rules, s: Store, k: QueryKey, file: FileId, path: seq<QueryKey>) {
    && path != [] && path[0] == k && VisitPath(rules, s, path)
    && RaisesMissing(rules, Values(s.inputs), path[|path| - 1], file)
  }

  ghost predicate Threatened(rules: Rules, s: Store, k: QueryKey) {
    exists file: FileId :: ThreatenedBy(rules, s, k, file)
  }

  // A query is visited while it is itself being answered.
  ghost predicate Entangled(rules: Rules, s: Store, k: QueryKey) {
    exists path :: TangledPath(rules, s, k, path)
  }

  ghost predicate TangledPath(rules: Rules, s: Store, k: QueryKey, path: seq<QueryKey>) {
    && path != [] && path[0] == k && VisitPath(rules, s, path)
    && exists j :: 0 <= j < |path| - 1 && path[j] == path[|path| - 1]
  }

  // ---------------------------------------------------------------- threats

  lemma RaisesIsThreat(rules: Rules, s: Store, k: QueryKey, file: FileId)
    requires RaisesMissing(rules, Values(s.inputs), k, file)
    ensures ThreatenedBy(rules, s, k, file)
  {
    hide RaisesMissing;
    assert ThreatPath(rules, s, k, file, [k]);
  }

  lemma ThreatBelow(rules: Rules, s: Store, k: QueryKey, d: QueryKey, file: FileId)
    requires Visits(rules, s, k, d) && ThreatenedBy(rules, s, d, file)
    ensures ThreatenedBy(rules, s, k, file)
  {
    hide Visits, RaisesMissing;
    var path :| ThreatPath(rules, s, d, file, path);
    var longer := [k] + path;
    forall i | 0 <= i < |longer| - 1
      ensures Visits(rules, s, longer[i], longer[i + 1])
    {
      assert i > 0 ==> longer[i] == path[i - 1] && longer[i + 1] == path[i];
    }
    assert ThreatPath(rules, s, k, file, longer);
  }

  // A threat comes from the query itself or from one that it visits.
  lemma ThreatSplit(rules: Rules, s: Store, k: QueryKey, file: FileId, path: seq<QueryKey>)
    requires ThreatPath(rules, s, k, file, path)
    ensures |path| == 1 ==> RaisesMissing(rules, Values(s.inputs), k, file)
    ensures |path| > 1 ==> Visits(rules, s, k, path[1]) && ThreatPath(rules, s, path[1], file, path[1..]) && Threatened(rules, s, path[1])
  {
    hide Visits, RaisesMissing;
    if |path| > 1 {
      var rest := path[1..];
      forall i | 0 <= i < |rest| - 1
        ensures Visits(rules, s, rest[i], rest[i + 1])
      {
        assert rest[i] == path[i + 1] && rest[i + 1] == path[i + 2];
      }
      assert ThreatPath(rules, s, path[1], file, rest);
      assert ThreatenedBy(rules, s, path[1], file);
    }
  }

  lemma RaisesHasNoValue(rules: Rules, inputs: Inputs, k: QueryKey, file: FileId)
    requires RaisesMissing(rules, inputs, k, file)
    ensures NoValue(rules, inputs, k)
  {
    hide Genuine, NoValue;
    var answers :| Genuine(rules, inputs, k, answers) && rules(k, answers) == Raise(MissingContent(file));
    RaiseIsNoValue(rules, inputs, k, answers);
  }

  lemma CurrentIsSafe(rules: Rules, s: Store, k: QueryKey)
    requires Sound(rules, s) && IsCurrent(s, k)
    ensures !Threatened(rules, s, k)
  {
    CurrentIsValue(rules, s, k);
    assert Now(s) == Values(s.inputs);
    if Threatened(rules, s, k) {
      hide Sound, RaisesMissing, IsValue;
      var file: FileId :| ThreatenedBy(rules, s, k, file);
      var path :| ThreatPath(rules, s, k, file, path);
      ThreatSplit(rules, s, k, file, path);
      if |path| == 1 {
        RaisesHasNoValue(rules, Values(s.inputs), k, file);
      }
    }
  }

  // ---------------------------------------------------------------- as the store is brought up to date

  // A result that is not current is an old one.
  ghost predicate NoNewStale(s: Store, t: Store) {
    forall k :: k in t.entries && t.entries[k].trace.built != t.revision ==>
      k in s.entries && s.entries[k] == t.entries[k]
  }

  // The same revision with more current results, and fewer old ones.
  ghost predicate Later(s: Store, t: Store) {
    && t.revision == s.revision && t.inputs == s.inputs
    && (forall k :: IsCurrent(s, k) ==> IsCurrent(t, k))
    && NoNewStale(s, t)
  }

  lemma LaterTransitive(s: Store, t: Store, u: Store)
    requires Later(s, t) && Later(t, u)
    ensures Later(s, u)
  {
  }

  lemma LaterVisits(rules: Rules, s: Store, t: Store, k: QueryKey, d: QueryKey)
    requires Later(s, t) && Visits(rules, t, k, d)
    ensures Visits(rules, s, k, d)
  {
    hide Calls;
  }

  lemma LaterThreat(rules: Rules, s: Store, t: Store, k: QueryKey, file: FileId)
    requires Later(s, t) && ThreatenedBy(rules, t, k, file)
    ensures ThreatenedBy(rules, s, k, file)
  {
    hide Later, Visits, RaisesMissing;
    var path :| ThreatPath(rules, t, k, file, path);
    forall i | 0 <= i < |path| - 1
      ensures Visits(rules, s, path[i], path[i + 1])
    {
      LaterVisits(rules, s, t, path[i], path[i + 1]);
    }
    LaterInputs(s, t);
    assert ThreatPath(rules, s, k, file, path);
  }

  lemma LaterInputs(s: Store, t: Store)
    requires Later(s, t)
    ensures t.inputs == s.inputs && t.revision == s.revision
  {
  }

  // Nothing was lost on the way from `s` to `t`, and only queries out of danger became current.
  ghost predicate Productive(rules: Rules, s: Store, t: Store) {
    && (forall k :: k in s.entries ==> IsCurrent(t, k) || (k in t.entries && t.entries[k] == s.entries[k]))
    && (forall k :: IsCurrent(t, k) ==> !Threatened(rules, s, k))
  }

  lemma ProductiveAtOnce(rules: Rules, s: Store)
    requires Sound(rules, s)
    ensures Productive(rules, s, s)
  {
    hide Sound, Threatened;
    forall k | IsCurrent(s, k)
      ensures !Threatened(rules, s, k)
    {
      CurrentIsSafe(rules, s, k);
    }
  }

  lemma StaysVisited(rules: Rules, s: Store, t: Store, k: QueryKey, d: QueryKey)
    requires Later(s, t) && Productive(rules, s, t) && Visits(rules, s, k, d) && Threatened(rules, s, k)
    ensures Visits(rules, t, k, d)
  {
    hide Calls, Threatened;
  }

  lemma {:induction false} ThreatStays(rules: Rules, s: Store, t: Store, k: QueryKey, file: FileId, path: seq<QueryKey>)
    requires Later(s, t) && Productive(rules, s, t) && ThreatPath(rules, s, k, file, path)
    ensures ThreatenedBy(rules, t, k, file)
    decreases |path|
  {
    hide Later, Productive, Visits, RaisesMissing, ThreatPath;
    assert ThreatenedBy(rules, s, k, file);
    assert Threatened(rules, s, k);
    hide Threatened, ThreatenedBy;
    ThreatSplit(rules, s, k, file, path);
    LaterInputs(s, t);
    assert |path| > 0 by {
      PathsStart(rules, s, k, file, path);
    }
    if |path| == 1 {
      RaisesIsThreat(rules, t, k, file);
    } else {
      ThreatStays(rules, s, t, path[1], file, path[1..]);
      StaysVisited(rules, s, t, k, path[1]);
      ThreatBelow(rules, t, k, path[1], file);
    }
  }

  lemma PathsStart(rules: Rules, s: Store, k: QueryKey, file: FileId, path: seq<QueryKey>)
    requires ThreatPath(rules, s, k, file, path)
    ensures |path| > 0
  {
  }

  lemma ProductiveTransitive(rules: Rules, s: Store, t: Store, u: Store)
    requires Later(s, t) && Later(t, u) && Productive(rules, s, t) && Productive(rules, t, u)
    ensures Productive(rules, s, u)
  {
    hide ThreatPath;
    forall k | IsCurrent(u, k)
      ensures !Threatened(rules, s, k)
    {
      if Threatened(rules, s, k) {
        var file: FileId :| ThreatenedBy(rules, s, k, file);
        var path :| ThreatPath(rules, s, k, file, path);
        ThreatStays(rules, s, t, k, file, path);
      }
    }
  }

  // A query becomes current when all that it visits is.
  lemma ProductiveStore(rules: Rules, s: Store, t: Store, k: QueryKey, e: Entry)
    requires Productive(rules, s, t) && e.trace.built == t.revision
    requires IsValue(rules, Values(s.inputs), k, e.value)
    requires forall d :: Visits(rules, s, k, d) ==> IsCurrent(t, d)
    ensures Productive(rules, s, t.(entries := t.entries[k := e]))
  {
    hide Visits, RaisesMissing, IsValue;
    var u := t.(entries := t.entries[k := e]);
    assert !Threatened(rules, s, k) by {
      if Threatened(rules, s, k) {
        var file: FileId :| ThreatenedBy(rules, s, k, file);
        var path :| ThreatPath(rules, s, k, file, path);
        ThreatSplit(rules, s, k, file, path);
        if |path| == 1 {
          RaisesHasNoValue(rules, Values(s.inputs), k, file);
        }
      }
    }
    hide Threatened;
    forall j | IsCurrent(u, j)
      ensures !Threatened(rules, s, j)
    {
      assert j != k ==> IsCurrent(t, j);
    }
  }
}
