// The progress that the language server reports for each attempt to prepare the workspace
// (compiler-executable/iris-lsp-server/src/progress.rs), as the Language Server Protocol 3.17
// asks for in the section "Work Done Progress".
module ProgressTokens {
  import opened Wrappers

  // What is sent for a token.
  datatype Message = Begin(title: string) | Report(text: string) | End(text: string)

  datatype Token = Startup(generation: nat) | Foreign(name: string)

  datatype AttemptState = Creating(title: string, latest: Option<string>, end: Option<string>) | Active

  datatype Attempt = Attempt(token: Token, state: AttemptState, cancelRequested: bool)

  // What has become of the token of an attempt.
  datatype Creation = Asked | Accepted | Rejected

  // ---------------------------------------------------------------- what may be sent

  // The history of one attempt: its token, what was sent for it, how it ended, how often it was
  // cancelled, its title, and what it was told to report before it ended.
  datatype History = History(creation: Creation, sent: seq<Message>, ended: Option<string>, cancels: nat, title: string, told: seq<string>)

  function Reports(texts: seq<string>): (r: seq<Message>)
    ensures |r| == |texts| && forall k :: 0 <= k < |r| ==> r[k] == Report(texts[k])
  {
    seq(|texts|, k requires 0 <= k < |texts| => Report(texts[k]))
  }

  // The beginning with the title, the reports from the `m`th on, and the end if there is one.
  function Said(h: History, m: nat): seq<Message>
    requires m <= |h.told|
  {
    [Begin(h.title)] + Reports(h.told[m..]) + if h.ended.Some? then [End(h.ended.value)] else []
  }

  // Of what was told, the latest at least was sent, and all of it after the first that was.
  ghost predicate SaysAll(h: History) {
    exists m: nat :: m <= |h.told| && (h.told != [] ==> m < |h.told|) && h.sent == Said(h, m)
  }

  function Latest(told: seq<string>): Option<string> {
    if told == [] then None else Some(told[|told| - 1])
  }

  // How the history of an attempt fits what the server remembers of it.
  ghost predicate HistoryHolds(h: History, attempt: Option<Attempt>) {
    && (h.creation.Accepted? || h.sent == [])
    && (h.creation.Accepted? ==> SaysAll(h))
    && (attempt.Some? ==> (h.creation.Asked? <==> attempt.value.state.Creating?))
    && (attempt.Some? && h.creation.Asked? ==> attempt.value.state == Creating(h.title, Latest(h.told), h.ended))
    && (attempt.Some? && h.creation.Accepted? ==> h.ended.None?)
    && (attempt.None? ==> h.creation.Rejected? || (h.creation.Accepted? && h.ended.Some?))
    && (h.creation.Rejected? ==> attempt.None?)
    && h.cancels <= 1
    && (attempt.Some? ==> (attempt.value.cancelRequested <==> h.cancels == 1))
  }

  function Remembered(attempts: map<nat, Attempt>, g: nat): Option<Attempt> {
    if g in attempts then Some(attempts[g]) else None
  }

  ghost predicate AllHold(histories: map<nat, History>, attempts: map<nat, Attempt>) {
    && attempts.Keys <= histories.Keys
    && (forall g :: g in attempts ==> attempts[g].token == Startup(g))
    && (forall g :: g in histories ==> HistoryHolds(histories[g], Remembered(attempts, g)))
  }

  // What was sent for a token: nothing before it is accepted or when it is refused, and otherwise
  // the title, the reports from some point on, the latest included, and the end exactly if the
  // attempt has ended.
  ghost predicate Balanced(h: History) {
    && h.cancels <= 1
    && if h.creation.Accepted? then SaysAll(h) else h.sent == []
  }

  lemma MessagesAreBalanced(histories: map<nat, History>, attempts: map<nat, Attempt>, g: nat)
    requires AllHold(histories, attempts) && g in histories
    ensures Balanced(histories[g])
  {
    assert HistoryHolds(histories[g], Remembered(attempts, g));
  }

  function WithAttempt(attempts: map<nat, Attempt>, g: nat, attempt: Option<Attempt>): map<nat, Attempt> {
    if attempt.Some? then attempts[g := attempt.value] else attempts - {g}
  }

  lemma UpdateHolds(histories: map<nat, History>, attempts: map<nat, Attempt>, g: nat, h: History, attempt: Option<Attempt>)
    requires AllHold(histories, attempts) && HistoryHolds(h, attempt) && (attempt.Some? ==> attempt.value.token == Startup(g))
    ensures AllHold(histories[g := h], WithAttempt(attempts, g, attempt))
  {
    hide HistoryHolds;
    var updated := WithAttempt(attempts, g, attempt);
    forall k | k in histories[g := h]
      ensures HistoryHolds(histories[g := h][k], Remembered(updated, k))
    {
      if k != g {
        assert Remembered(updated, k) == Remembered(attempts, k);
      } else {
        assert Remembered(updated, g) == attempt;
      }
    }
  }

  lemma HistoryOf(histories: map<nat, History>, attempts: map<nat, Attempt>, g: nat)
    requires AllHold(histories, attempts) && g in attempts
    ensures g in histories && HistoryHolds(histories[g], Some(attempts[g])) && attempts[g].token == Startup(g)
  {
    hide HistoryHolds;
    assert HistoryHolds(histories[g], Remembered(attempts, g));
  }

  // One more report, or the end, is sent.
  lemma SaysMore(h: History, text: string)
    requires SaysAll(h) && h.ended.None?
    ensures SaysAll(h.(sent := h.sent + [Report(text)], told := h.told + [text]))
    ensures SaysAll(h.(sent := h.sent + [End(text)], ended := Some(text)))
  {
    var m: nat :| m <= |h.told| && (h.told != [] ==> m < |h.told|) && h.sent == Said(h, m);
    var more := h.(sent := h.sent + [Report(text)], told := h.told + [text]);
    var ended := h.(sent := h.sent + [End(text)], ended := Some(text));
    assert more.told[m..] == h.told[m..] + [text];
    assert Reports(more.told[m..]) == Reports(h.told[m..]) + [Report(text)];
    assert more.sent == Said(more, m);
    assert ended.sent == Said(ended, m);
  }

  lemma SaysSame(h: History, cancels: nat)
    requires SaysAll(h)
    ensures SaysAll(h.(cancels := cancels))
  {
    var m: nat :| m <= |h.told| && (h.told != [] ==> m < |h.told|) && h.sent == Said(h, m);
    assert Said(h.(cancels := cancels), m) == Said(h, m);
  }

  // What is sent when a token is accepted: the beginning, and the latest report and the end if
  // there are any.
  function Kept(state: AttemptState): seq<Message>
    requires state.Creating?
  {
    [Begin(state.title)]
    + (if state.latest.Some? then [Report(state.latest.value)] else [])
    + (if state.end.Some? then [End(state.end.value)] else [])
  }

  lemma KeptSaysAll(h: History)
    ensures SaysAll(h.(creation := Accepted, sent := Kept(Creating(h.title, Latest(h.told), h.ended))))
  {
    var sent := Kept(Creating(h.title, Latest(h.told), h.ended));
    var m: nat := if h.told == [] then 0 else |h.told| - 1;
    assert Reports(h.told[m..]) == if h.told == [] then [] else [Report(h.told[|h.told| - 1])];
    assert sent == Said(h.(creation := Accepted, sent := sent), m);
  }

  // The token of an attempt that has not ended has been asked for and not been answered.
  predicate AwaitsToken(attempts: map<nat, Attempt>, g: nat) {
    g in attempts && attempts[g].state.Creating? && attempts[g].state.end.None?
  }

  // The latest report replaces the ones before.
  function WithReport(attempt: Attempt, text: string): Attempt
    requires attempt.state.Creating?
  {
    attempt.(state := attempt.state.(latest := Some(text)))
  }

  function WithEnd(attempt: Attempt, text: string): Attempt
    requires attempt.state.Creating?
  {
    attempt.(state := attempt.state.(end := Some(text)))
  }

  // Nothing that was sent is taken back.
  ghost predicate Grown(before: map<nat, History>, after: map<nat, History>) {
    forall g :: g in before ==> g in after && before[g].sent <= after[g].sent && before[g].cancels <= after[g].cancels
  }

  datatype Operation =
    | Start(generation: nat, title: string)
    | Tell(generation: nat, text: string)
    | Finish(generation: nat, text: string)
    | Answer(generation: nat, accepted: bool)
    | CancelToken(token: Token)

  // Every start has a generation of its own.
  ghost predicate FreshStarts(ops: seq<Operation>, used: set<nat>) {
    ops == [] ||
    if ops[0].Start? then ops[0].generation !in used && FreshStarts(ops[1..], used + {ops[0].generation})
    else FreshStarts(ops[1..], used)
  }

  lemma {:induction false} FewerUsed(ops: seq<Operation>, used: set<nat>, fewer: set<nat>)
    requires FreshStarts(ops, used) && fewer <= used
    ensures FreshStarts(ops, fewer)
  {
    if ops != [] {
      if ops[0].Start? {
        FewerUsed(ops[1..], used + {ops[0].generation}, fewer + {ops[0].generation});
      } else {
        FewerUsed(ops[1..], used, fewer);
      }
    }
  }

  class Progress {
    const supported: bool
    var current: Option<nat>
    var attempts: map<nat, Attempt>
    ghost var histories: map<nat, History>

    ghost predicate Valid()
      reads this
    {
      AllHold(histories, attempts)
    }

    constructor (supported: bool)
      ensures Valid() && histories == map[] && current == None && this.supported == supported
    {
      this.supported := supported;
      current, attempts, histories := None, map[], map[];
    }

    // An attempt starts, with a token of its own. Nothing is sent before the token is accepted.
    method Started(generation: nat, title: string)
      requires Valid() && generation !in histories
      modifies this
      ensures Valid()
      ensures histories == if supported then old(histories)[generation := History(Asked, [], None, 0, title, [])] else old(histories)
      ensures current == if supported then Some(generation) else old(current)
      ensures attempts == if supported then old(attempts)[generation := Attempt(Startup(generation), Creating(title, None, None), false)] else old(attempts)
    {
      hide AllHold, SaysAll;
      if !supported {
        return;
      }
      var attempt := Attempt(Startup(generation), Creating(title, None, None), false);
      UpdateHolds(histories, attempts, generation, History(Asked, [], None, 0, title, []), Some(attempt));
      current := Some(generation);
      attempts := attempts[generation := attempt];
      histories := histories[generation := History(Asked, [], None, 0, title, [])];
    }

    // A report is sent, or kept until the token is accepted. It is dropped once the attempt ended.
    method ReportProgress(generation: nat, text: string)
      requires Valid()
      modifies this`attempts, this`histories
      ensures Valid()
      ensures generation !in old(attempts) ==> histories == old(histories)
      ensures generation in old(attempts) ==>
                generation in old(histories) &&
                var h := old(histories)[generation];
                var more := if old(attempts)[generation].state.Active? then [Report(text)] else [];
                histories == if h.ended.Some? then old(histories)
                             else old(histories)[generation := h.(sent := h.sent + more, told := h.told + [text])]
      ensures attempts == if AwaitsToken(old(attempts), generation)
                          then old(attempts)[generation := WithReport(old(attempts)[generation], text)] else old(attempts)
    {
      hide AllHold, SaysAll;
      if generation !in attempts {
        return;
      }
      HistoryOf(histories, attempts, generation);
      var attempt := attempts[generation];
      ghost var h := histories[generation];
      match attempt.state {
        case Creating(title, _, None) =>
          var updated := attempt.(state := Creating(title, Some(text), None));
          ghost var next := h.(told := h.told + [text]);
          assert h.sent + [] == h.sent;
          UpdateHolds(histories, attempts, generation, next, Some(updated));
          attempts := attempts[generation := updated];
          histories := histories[generation := next];
        case Creating(_, _, Some(_)) =>
        case Active =>
          ghost var next := h.(sent := h.sent + [Report(text)], told := h.told + [text]);
          SaysMore(h, text);
          UpdateHolds(histories, attempts, generation, next, Some(attempt));
          histories := histories[generation := next];
          assert attempts[generation := attempt] == attempts;
      }
    }

    // The attempt ends. The end is sent, or kept until the token is accepted.
    method Ended(generation: nat, text: string)
      requires Valid()
      modifies this`attempts, this`histories
      ensures Valid()
      ensures generation !in old(attempts) ==> histories == old(histories)
      ensures generation in old(attempts) ==>
                generation in old(histories) &&
                var h := old(histories)[generation];
                var more := if old(attempts)[generation].state.Active? then [End(text)] else [];
                histories == if h.ended.Some? then old(histories)
                             else old(histories)[generation := h.(ended := Some(text), sent := h.sent + more)]
      ensures attempts == if AwaitsToken(old(attempts), generation)
                          then old(attempts)[generation := WithEnd(old(attempts)[generation], text)]
                          else if generation in old(attempts) && old(attempts)[generation].state.Active? then old(attempts) - {generation}
                          else old(attempts)
    {
      hide AllHold, SaysAll;
      if generation !in attempts {
        return;
      }
      HistoryOf(histories, attempts, generation);
      var attempt := attempts[generation];
      ghost var h := histories[generation];
      assert h.sent + [] == h.sent;
      match attempt.state {
        case Creating(title, latest, None) =>
          var updated := attempt.(state := Creating(title, latest, Some(text)));
          UpdateHolds(histories, attempts, generation, h.(ended := Some(text)), Some(updated));
          attempts := attempts[generation := updated];
          histories := histories[generation := h.(ended := Some(text))];
        case Creating(_, _, Some(_)) =>
          assert histories[generation := h] == histories;
        case Active =>
          SaysMore(h, text);
          UpdateHolds(histories, attempts, generation, h.(ended := Some(text), sent := h.sent + [End(text)]), None);
          attempts := attempts - {generation};
          histories := histories[generation := h.(ended := Some(text), sent := h.sent + [End(text)])];
      }
    }

    // The editor answers the request to create the token. If it accepts, what was kept is sent,
    // after the beginning; if it refuses, nothing ever is.
    method Created(generation: nat, accepted: bool)
      requires Valid()
      modifies this`attempts, this`histories
      ensures Valid()
      ensures generation !in old(attempts) || old(attempts)[generation].state.Active? ==> histories == old(histories)
      ensures generation in old(attempts) && old(attempts)[generation].state.Creating? ==>
                generation in old(histories) &&
                var h := old(histories)[generation];
                histories == old(histories)[generation :=
                  if accepted then h.(creation := Accepted, sent := Kept(old(attempts)[generation].state)) else h.(creation := Rejected)]
      ensures attempts == if generation !in old(attempts) || old(attempts)[generation].state.Active? then old(attempts)
                          else if accepted && AwaitsToken(old(attempts), generation)
                          then old(attempts)[generation := old(attempts)[generation].(state := Active)]
                          else old(attempts) - {generation}
    {
      hide AllHold, Kept, SaysAll;
      if generation !in attempts || !attempts[generation].state.Creating? {
        return;
      }
      HistoryOf(histories, attempts, generation);
      var attempt := attempts[generation];
      ghost var h := histories[generation];
      if !accepted {
        UpdateHolds(histories, attempts, generation, h.(creation := Rejected), None);
        attempts := attempts - {generation};
        histories := histories[generation := h.(creation := Rejected)];
        return;
      }
      KeptSaysAll(h);
      ghost var next := h.(creation := Accepted, sent := Kept(attempt.state));
      if attempt.state.end.Some? {
        UpdateHolds(histories, attempts, generation, next, None);
        attempts := attempts - {generation};
      } else {
        UpdateHolds(histories, attempts, generation, next, Some(attempt.(state := Active)));
        attempts := attempts[generation := attempt.(state := Active)];
      }
      histories := histories[generation := next];
    }

    // The attempt to cancel, if any: the current one, if it has not ended, and only once.
    method Cancel(token: Token) returns (generation: Option<nat>)
      requires Valid()
      modifies this`attempts, this`histories
      ensures Valid()
      ensures generation.Some? <==>
                && current.Some? && current.value in old(attempts) && token == Startup(current.value)
                && current.value in old(histories) && old(histories)[current.value].ended.None? && old(histories)[current.value].cancels == 0
      ensures generation.Some? ==>
                && current == generation && generation.value in old(attempts) && generation.value in old(histories)
                && attempts == old(attempts)[generation.value := old(attempts)[generation.value].(cancelRequested := true)]
                && var h := old(histories)[generation.value];
                histories == old(histories)[generation.value := h.(cancels := 1)]
      ensures generation.None? ==> histories == old(histories) && attempts == old(attempts)
    {
      hide AllHold, SaysAll;
      if current.None? || current.value !in attempts {
        return None;
      }
      var g := current.value;
      HistoryOf(histories, attempts, g);
      var attempt := attempts[g];
      ghost var h := histories[g];
      if attempt.token != token || (attempt.state.Creating? && attempt.state.end.Some?) || attempt.cancelRequested {
        return None;
      }
      if h.creation.Accepted? {
        SaysSame(h, 1);
      }
      UpdateHolds(histories, attempts, g, h.(cancels := 1), Some(attempt.(cancelRequested := true)));
      attempts := attempts[g := attempt.(cancelRequested := true)];
      histories := histories[g := h.(cancels := 1)];
      return Some(g);
    }

    method Perform(op: Operation)
      requires Valid() && (op.Start? ==> op.generation !in histories)
      modifies this
      ensures Valid() && Grown(old(histories), histories)
      ensures histories.Keys <= old(histories).Keys + if op.Start? then {op.generation} else {}
    {
      hide AllHold, Kept;
      match op
      case Start(g, title) => {
        Started(g, title);
      }
      case Tell(g, text) => {
        ReportProgress(g, text);
      }
      case Finish(g, text) => {
        Ended(g, text);
      }
      case Answer(g, accepted) => {
        if g in attempts {
          HistoryOf(histories, attempts, g);
        }
        Created(g, accepted);
      }
      case CancelToken(token) => {
        var generation := Cancel(token);
      }
    }

    // Over every run, what is sent for every token is balanced, and never taken back.
    method Run(ops: seq<Operation>)
      requires Valid() && FreshStarts(ops, histories.Keys)
      modifies this
      ensures Valid() && Grown(old(histories), histories)
      ensures forall g :: g in histories ==> Balanced(histories[g])
    {
      hide AllHold, Balanced;
      var i := 0;
      while i < |ops|
        invariant 0 <= i <= |ops| && Valid() && FreshStarts(ops[i..], histories.Keys)
        invariant Grown(old(histories), histories)
      {
        ghost var used := if ops[i].Start? then histories.Keys + {ops[i].generation} else histories.Keys;
        assert ops[i..][1..] == ops[i + 1..];
        assert FreshStarts(ops[i + 1..], used);
        Perform(ops[i]);
        FewerUsed(ops[i + 1..], used, histories.Keys);
        i := i + 1;
      }
      forall g | g in histories
        ensures Balanced(histories[g])
      {
        MessagesAreBalanced(histories, attempts, g);
      }
    }
  }
}
