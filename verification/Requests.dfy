// The requests that the language server has received, and the responses it owes
// (compiler-executable/iris-lsp-server/src/server.rs), as the Language Server Protocol 3.17 asks
// for in the sections "Initialize Request" and "Cancellation Support".
module Requests {
  import opened Graphs

  type RequestId = nat

  datatype Lifecycle = Uninitialized | Initializing | Initialized | Ready | ShuttingDown

  datatype Method = Initialize | Shutdown | Other(name: string)

  datatype Waiting = Waiting(sequence: nat, method_: Method)

  datatype Reply = Answered(accepted: bool) | NotInitialized | InvalidRequest | Cancelled | Done | Stopped

  // A response carries the id of the request it answers.
  datatype Response = Response(id: RequestId, reply: Reply)

  // ---------------------------------------------------------------- what is owed

  // The records of the server, with the history of what it received and answered: `received`
  // lists the ids of the requests as they came in, `origin` says which of them a sequence number
  // was given to, and `responses` what each of them was answered.
  datatype Book = Book(
    next: nat,
    waiting: map<RequestId, Waiting>,
    bySequence: map<nat, RequestId>,
    received: seq<RequestId>,
    origin: map<nat, nat>,
    responses: map<nat, Response>)

  // Records by id and by sequence number are each other's inverse.
  ghost predicate Inverse(b: Book) {
    && (forall id :: id in b.waiting ==> b.waiting[id].sequence in b.bySequence && b.bySequence[b.waiting[id].sequence] == id)
    && (forall s :: s in b.bySequence ==> s < b.next && b.bySequence[s] in b.waiting && b.waiting[b.bySequence[s]].sequence == s)
  }

  ghost predicate Origins(b: Book) {
    && (forall s: nat :: s in b.origin <==> s < b.next)
    && (forall s :: s in b.origin ==> b.origin[s] < |b.received|)
    && (forall s, t :: s in b.origin && t in b.origin && b.origin[s] == b.origin[t] ==> s == t)
    && (forall s :: s in b.bySequence ==> s in b.origin && b.received[b.origin[s]] == b.bySequence[s])
  }

  ghost predicate WaitsFor(b: Book, n: nat) {
    exists s :: s in b.bySequence && s in b.origin && b.origin[s] == n
  }

  // Each request has been answered once, under its own id, or waits.
  ghost predicate Owed(b: Book) {
    && (forall n :: n in b.responses ==> n < |b.received| && b.responses[n].id == b.received[n])
    && (forall n: nat :: n < |b.received| ==> (n !in b.responses <==> WaitsFor(b, n)))
  }

  ghost predicate Kept(b: Book) {
    Inverse(b) && Origins(b) && Owed(b)
  }

  // A request is answered at once.
  ghost function Responded(b: Book, id: RequestId, reply: Reply): Book {
    b.(received := b.received + [id], responses := b.responses[|b.received| := Response(id, reply)])
  }

  // A request waits for the answer with the next sequence number.
  ghost function Waited(b: Book, id: RequestId, m: Method): Book {
    b.(next := b.next + 1, waiting := b.waiting[id := Waiting(b.next, m)], bySequence := b.bySequence[b.next := id],
       received := b.received + [id], origin := b.origin[b.next := |b.received|])
  }

  // The request that waits under a sequence number is answered.
  ghost function Settled(b: Book, s: nat, reply: Reply): Book
    requires s in b.bySequence && s in b.origin
  {
    b.(waiting := b.waiting - {b.bySequence[s]}, bySequence := b.bySequence - {s},
       responses := b.responses[b.origin[s] := Response(b.bySequence[s], reply)])
  }

  lemma RespondKeeps(b: Book, id: RequestId, reply: Reply)
    requires Kept(b)
    ensures Kept(Responded(b, id, reply))
  {
    var c := Responded(b, id, reply);
    assert Inverse(c) && Origins(c) by {
      hide Owed;
    }
    assert forall n: nat :: WaitsFor(c, n) ==> n < |b.received| by {
      hide Owed, Inverse;
    }
    RespondOwed(b, id, reply);
  }

  lemma RespondOwed(b: Book, id: RequestId, reply: Reply)
    requires Owed(b) && forall n: nat :: WaitsFor(Responded(b, id, reply), n) ==> n < |b.received|
    ensures Owed(Responded(b, id, reply))
  {
    var c := Responded(b, id, reply);
    forall n: nat
      ensures WaitsFor(c, n) <==> WaitsFor(b, n)
    {
    }
    hide WaitsFor;
  }

  lemma WaitOrigins(b: Book, id: RequestId, m: Method)
    requires Inverse(b) && Origins(b) && id !in b.waiting
    ensures Origins(Waited(b, id, m))
  {
  }

  lemma WaitedFor(b: Book, id: RequestId, m: Method, n: nat)
    requires Inverse(b) && Origins(b)
    ensures WaitsFor(Waited(b, id, m), n) <==> WaitsFor(b, n) || n == |b.received|
  {
    var c := Waited(b, id, m);
    assert c.origin[b.next] == |b.received| && b.next in c.bySequence;
    if WaitsFor(b, n) {
      var s :| s in b.bySequence && s in b.origin && b.origin[s] == n;
      assert s in c.bySequence && c.origin[s] == n;
    }
    if WaitsFor(c, n) {
      var s :| s in c.bySequence && s in c.origin && c.origin[s] == n;
      assert s != b.next ==> s in b.bySequence && b.origin[s] == n;
    }
  }

  lemma WaitKeeps(b: Book, id: RequestId, m: Method)
    requires Kept(b) && id !in b.waiting
    ensures Kept(Waited(b, id, m))
  {
    hide Origins, WaitsFor;
    WaitOrigins(b, id, m);
    forall n: nat
      ensures WaitsFor(Waited(b, id, m), n) <==> WaitsFor(b, n) || n == |b.received|
    {
      WaitedFor(b, id, m, n);
    }
    WaitInverse(b, id, m);
    hide Inverse;
  }

  lemma WaitInverse(b: Book, id: RequestId, m: Method)
    requires Inverse(b) && id !in b.waiting
    ensures Inverse(Waited(b, id, m))
  {
  }

  lemma SettleInverse(b: Book, s: nat, reply: Reply)
    requires Inverse(b) && Origins(b) && s in b.bySequence
    ensures s in b.origin && Inverse(Settled(b, s, reply)) && Origins(Settled(b, s, reply)) && WaitsFor(b, b.origin[s])
  {
  }

  lemma SettledFor(b: Book, s: nat, reply: Reply, n: nat)
    requires Inverse(b) && Origins(b) && s in b.bySequence && s in b.origin
    ensures WaitsFor(Settled(b, s, reply), n) <==> WaitsFor(b, n) && n != b.origin[s]
  {
    var c := Settled(b, s, reply);
    if WaitsFor(c, n) {
      var t :| t in c.bySequence && t in c.origin && c.origin[t] == n;
      assert t in b.bySequence && b.origin[t] == n;
    }
    if n != b.origin[s] && WaitsFor(b, n) {
      var t :| t in b.bySequence && t in b.origin && b.origin[t] == n;
      assert t in c.bySequence;
    }
  }

  // An answer reaches the request that its sequence number was given to, and no other, even when
  // its id has been used again.
  lemma SettleKeeps(b: Book, s: nat, reply: Reply)
    requires Kept(b) && s in b.bySequence
    ensures s in b.origin && b.origin[s] < |b.received| && b.origin[s] !in b.responses && Kept(Settled(b, s, reply))
    ensures Settled(b, s, reply).responses[b.origin[s]] == Response(b.received[b.origin[s]], reply)
  {
    hide WaitsFor;
    SettleInverse(b, s, reply);
    forall n: nat
      ensures WaitsFor(Settled(b, s, reply), n) <==> WaitsFor(b, n) && n != b.origin[s]
    {
      SettledFor(b, s, reply, n);
    }
    assert b.origin[s] < |b.received| && b.received[b.origin[s]] == b.bySequence[s];
    hide Inverse, Origins;
    SettleOwed(b, s, reply);
  }

  lemma SettleOwed(b: Book, s: nat, reply: Reply)
    requires Owed(b) && s in b.bySequence && s in b.origin && WaitsFor(b, b.origin[s])
    requires b.origin[s] < |b.received| && b.received[b.origin[s]] == b.bySequence[s]
    requires forall n: nat :: WaitsFor(Settled(b, s, reply), n) <==> WaitsFor(b, n) && n != b.origin[s]
    ensures Owed(Settled(b, s, reply)) && b.origin[s] !in b.responses
  {
    hide WaitsFor;
  }

  // As many requests have been received as responses sent and requests are waiting.
  lemma RequestsAreCounted(b: Book)
    requires Kept(b)
    ensures |b.received| == |b.responses| + |b.waiting|
  {
    hide Kept;
    RecordsHaveOrigins(b);
    var waits := set s | s in b.bySequence.Keys :: b.origin[s];
    MapCounts(b);
    OriginCounts(b.bySequence.Keys, b.origin, waits);
    WaitsAre(b, waits);
    Partitions(b.responses.Keys, waits, |b.received|);
  }

  lemma RecordsHaveOrigins(b: Book)
    requires Kept(b)
    ensures forall s :: s in b.bySequence ==> s in b.origin
    ensures forall s, t :: s in b.bySequence && t in b.bySequence && b.origin[s] == b.origin[t] ==> s == t
  {
    hide Inverse, Owed;
  }

  lemma Partitions(a: set<nat>, b: set<nat>, n: nat)
    requires (forall k: nat :: k in b <==> k < n && k !in a) && (forall k :: k in a ==> k < n)
    ensures n == |a| + |b|
  {
    assert a !! b && a + b == Below(n);
    assert |a + b| == |a| + |b|;
  }

  lemma WaitsAre(b: Book, waits: set<nat>)
    requires Kept(b) && (forall s :: s in b.bySequence ==> s in b.origin) && waits == set s | s in b.bySequence.Keys :: b.origin[s]
    ensures forall n: nat :: n in waits <==> n < |b.received| && n !in b.responses
    ensures forall n :: n in b.responses ==> n < |b.received|
  {
    forall n: nat
      ensures n in waits <==> WaitsFor(b, n)
    {
    }
    forall n: nat | WaitsFor(b, n)
      ensures n < |b.received|
    {
    }
  }

  lemma {:induction false} OriginCounts(sequences: set<nat>, origin: map<nat, nat>, numbers: set<nat>)
    requires forall s :: s in sequences ==> s in origin
    requires forall s, t :: s in sequences && t in sequences && origin[s] == origin[t] ==> s == t
    requires numbers == set s | s in sequences :: origin[s]
    ensures |numbers| == |sequences|
    decreases sequences
  {
    if s :| s in sequences {
      var fewer := set t | t in sequences - {s} :: origin[t];
      OriginCounts(sequences - {s}, origin, fewer);
      assert numbers == fewer + {origin[s]};
    } else {
      assert numbers == {};
    }
  }

  lemma MapCounts(b: Book)
    requires Kept(b)
    ensures |b.waiting| == |b.bySequence.Keys|
  {
    var ids := set s | s in b.bySequence :: b.bySequence[s];
    OriginCounts(b.bySequence.Keys, b.bySequence, ids);
    assert ids == b.waiting.Keys by {
      forall id | id in b.waiting
        ensures id in ids
      {
        assert b.bySequence[b.waiting[id].sequence] == id;
      }
    }
  }

  lemma FreshNumber(b: Book)
    requires Kept(b)
    ensures |b.received| !in b.responses
  {
  }

  lemma WaitingIsRecorded(b: Book, id: RequestId)
    requires Kept(b)
    ensures id in b.waiting ==>
              b.waiting[id].sequence in b.bySequence && b.bySequence[b.waiting[id].sequence] == id && b.waiting[id].sequence in b.origin
  {
  }

  lemma AllAnswered(b: Book)
    requires Kept(b) && b.waiting == map[]
    ensures forall n: nat :: n < |b.received| ==> n in b.responses
  {
  }

  // ---------------------------------------------------------------- the server

  // The server is initializing while `initialize` waits, which then waits alone.
  ghost predicate LifecycleFits(lifecycle: Lifecycle, waiting: map<RequestId, Waiting>) {
    && (lifecycle.Initializing? <==> exists id :: id in waiting && waiting[id].method_.Initialize?)
    && (lifecycle.Initializing? ==> exists id :: waiting.Keys == {id})
    && (lifecycle.Uninitialized? || lifecycle.Initialized? ==> waiting == map[])
  }

  class Server {
    var lifecycle: Lifecycle
    var nextSequence: nat
    var waiting: map<RequestId, Waiting>
    var bySequence: map<nat, RequestId>
    ghost var received: seq<RequestId>
    ghost var origin: map<nat, nat>
    ghost var responses: map<nat, Response>

    ghost function Records(): Book
      reads this
    {
      Book(nextSequence, waiting, bySequence, received, origin, responses)
    }

    ghost predicate Valid()
      reads this
    {
      Kept(Records()) && LifecycleFits(lifecycle, waiting)
    }

    constructor ()
      ensures Valid() && received == [] && responses == map[] && lifecycle == Uninitialized
    {
      lifecycle, nextSequence, waiting, bySequence := Uninitialized, 0, map[], map[];
      received, origin, responses := [], map[], map[];
    }

    method Respond(id: RequestId, reply: Reply)
      requires Kept(Records())
      modifies this`received, this`responses
      ensures Kept(Records()) && Records() == Responded(old(Records()), id, reply)
    {
      hide Kept;
      RespondKeeps(Records(), id, reply);
      received, responses := received + [id], responses[|received| := Response(id, reply)];
    }

    method Wait(id: RequestId, m: Method)
      requires Kept(Records()) && id !in waiting
      modifies this`nextSequence, this`waiting, this`bySequence, this`received, this`origin
      ensures Kept(Records()) && Records() == Waited(old(Records()), id, m)
    {
      hide Kept;
      WaitKeeps(Records(), id, m);
      var sequence := nextSequence;
      nextSequence := nextSequence + 1;
      bySequence := bySequence[sequence := id];
      waiting := waiting[id := Waiting(sequence, m)];
      received, origin := received + [id], origin[sequence := |received|];
    }

    // The record of a request is removed and its response is sent.
    method Settle(sequence: nat, reply: Reply) returns (settled: Waiting)
      requires Kept(Records()) && sequence in bySequence
      modifies this`waiting, this`bySequence, this`responses
      ensures sequence in old(origin) && Kept(Records()) && Records() == Settled(old(Records()), sequence, reply)
      ensures old(bySequence[sequence]) in old(waiting) && settled == old(waiting[bySequence[sequence]])
      ensures old(origin)[sequence] !in old(responses)
    {
      SettleKeeps(Records(), sequence, reply);
      hide Kept, Owed;
      var id := bySequence[sequence];
      settled := waiting[id];
      bySequence := bySequence - {sequence};
      waiting := waiting - {id};
      responses := responses[origin[sequence] := Response(id, reply)];
    }

    // A request comes in. While the server is not initialized nothing waits, so that the id of
    // `initialize` is never taken.
    method ReceiveRequest(id: RequestId, m: Method)
      requires Valid()
      modifies this
      ensures Valid() && received == old(received) + [id]
      ensures forall n :: n in old(responses) ==> n in responses && responses[n] == old(responses)[n]
      ensures |old(received)| in responses ==>
                responses == old(responses)[|old(received)| := Response(id,
                  if old(lifecycle.Ready? || lifecycle.ShuttingDown?)
                  then if lifecycle != old(lifecycle) then Done else InvalidRequest
                  else NotInitialized)] && waiting == old(waiting)
      ensures |old(received)| !in responses ==>
                responses == old(responses) && waiting == old(waiting)[id := Waiting(old(nextSequence), m)]
      ensures |old(received)| !in responses <==>
              old(id !in waiting && ((lifecycle.Uninitialized? && m.Initialize?) || (lifecycle.Ready? && m.Other?)))
      ensures lifecycle == if old(lifecycle.Uninitialized?) && m.Initialize? then Initializing
                           else if old(lifecycle.Ready?) && m.Shutdown? && old(id !in waiting) then ShuttingDown
                           else old(lifecycle)
    {
      hide Kept;
      FreshNumber(Records());
      if lifecycle.Uninitialized? && m.Initialize? {
        lifecycle := Initializing;
        Wait(id, m);
        assert waiting.Keys == {id} && waiting[id].method_.Initialize?;
      } else if lifecycle.Uninitialized? || lifecycle.Initializing? || lifecycle.Initialized? {
        Respond(id, NotInitialized);
      } else if m.Initialize? || lifecycle.ShuttingDown? || id in waiting {
        Respond(id, InvalidRequest);
      } else if m.Shutdown? {
        lifecycle := ShuttingDown;
        Respond(id, Done);
      } else {
        ghost var before := waiting;
        Wait(id, m);
        assert forall i :: i in waiting ==> i == id || (i in before && waiting[i] == before[i]);
      }
    }

    // A cancelled request is answered at once, and its answer is not waited for.
    method Cancel(id: RequestId)
      requires Valid()
      modifies this
      ensures Valid() && received == old(received)
      ensures id !in waiting && waiting == old(waiting) - {id}
      ensures forall n :: n in old(responses) ==> n in responses && responses[n] == old(responses)[n]
      ensures responses == if old(id in waiting) then old(responses)[old(origin[waiting[id].sequence]) := Response(id, Cancelled)] else old(responses)
      ensures lifecycle == if old(id in waiting && waiting[id].method_.Initialize?) then Uninitialized else old(lifecycle)
    {
      hide Kept;
      WaitingIsRecorded(Records(), id);
      if id !in waiting {
        assert waiting - {id} == waiting;
        return;
      }
      ghost var before := waiting;
      var request := Settle(waiting[id].sequence, Cancelled);
      if request.method_.Initialize? {
        lifecycle := Uninitialized;
        assert waiting == map[];
      }
      assert forall i :: i in waiting ==> i in before && waiting[i] == before[i];
    }

    // An answer arrives. That of a request that was cancelled is dropped.
    method Deliver(sequence: nat, accepted: bool)
      requires Valid()
      modifies this
      ensures Valid() && received == old(received)
      ensures forall n :: n in old(responses) ==> n in responses && responses[n] == old(responses)[n]
      ensures old(sequence !in bySequence) ==> responses == old(responses) && waiting == old(waiting) && lifecycle == old(lifecycle)
      ensures old(sequence in bySequence) ==>
                sequence in old(origin) && responses == old(responses)[old(origin)[sequence] := Response(old(bySequence)[sequence], Answered(accepted))]
                && waiting == old(waiting) - {old(bySequence)[sequence]}
      ensures old(sequence in bySequence) ==>
                lifecycle == if old(lifecycle.Initializing?) then (if accepted then Initialized else Uninitialized) else old(lifecycle)
    {
      hide Kept;
      if sequence !in bySequence {
        return;
      }
      ghost var before := waiting;
      var request := Settle(sequence, Answered(accepted));
      if request.method_.Initialize? {
        lifecycle := if accepted then Initialized else Uninitialized;
        assert waiting == map[];
      }
      assert forall i :: i in waiting ==> i in before && waiting[i] == before[i];
    }

    // The editor has seen the answer to `initialize`.
    method BecomeReady()
      requires Valid()
      modifies this`lifecycle
      ensures Valid() && lifecycle == if old(lifecycle.Initialized?) then Ready else old(lifecycle)
    {
      hide Kept;
      if lifecycle.Initialized? {
        lifecycle := Ready;
      }
    }

    // The workspace has stopped: every request that waits is answered, so that none is left owing.
    method StopWorkspace()
      requires Valid()
      modifies this
      ensures Kept(Records()) && received == old(received) && waiting == map[]
      ensures forall n: nat :: n < |received| ==> n in responses
      ensures forall n :: n in old(responses) ==> n in responses && responses[n] == old(responses)[n]
      ensures forall n :: n in responses && n !in old(responses) ==> responses[n].reply == Stopped
    {
      hide Kept;
      while waiting != map[]
        invariant forall n :: n in responses && n !in old(responses) ==> responses[n].reply == Stopped
        invariant Kept(Records()) && received == old(received)
        invariant forall n :: n in old(responses) ==> n in responses && responses[n] == old(responses)[n]
        decreases |waiting|
      {
        var id :| id in waiting;
        WaitingIsRecorded(Records(), id);
        SettleKeeps(Records(), waiting[id].sequence, Stopped);
        ghost var before := waiting;
        var request := Settle(waiting[id].sequence, Stopped);
        assert before == waiting[id := before[id]];
      }
      AllAnswered(Records());
    }

    method Perform(op: Operation)
      requires Valid()
      modifies this
      ensures Valid() && old(received) <= received
      ensures forall n :: n in old(responses) ==> n in responses && responses[n] == old(responses)[n]
    {
      hide Kept, LifecycleFits;
      match op
      case Receive(id, m) => {
        ReceiveRequest(id, m);
      }
      case CancelRequest(id) => {
        Cancel(id);
      }
      case Answer(sequence, accepted) => {
        Deliver(sequence, accepted);
      }
      case InitializedNotification => {
        BecomeReady();
      }
    }

    // Over every run, each request is answered at most once, under its own id, and requests
    // received are responses sent and requests waiting.
    method Run(ops: seq<Operation>)
      requires Valid()
      modifies this
      ensures Valid() && |received| == |responses| + |waiting|
      ensures forall n :: n in old(responses) ==> n in responses && responses[n] == old(responses)[n]
    {
      hide Kept, LifecycleFits;
      for i := 0 to |ops|
        invariant Valid()
        invariant forall n :: n in old(responses) ==> n in responses && responses[n] == old(responses)[n]
      {
        Perform(ops[i]);
      }
      RequestsAreCounted(Records());
    }
  }

  datatype Operation =
    | Receive(id: RequestId, m: Method)
    | CancelRequest(id: RequestId)
    | Answer(sequence: nat, accepted: bool)
    | InitializedNotification
}
