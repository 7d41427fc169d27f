// The interner that threads share (compiler-core/interner/src/parallel.rs): its arena, its hash
// table and its overflow chain, first as one thread drives them, then with any number of threads
// racing on them. The hash is arbitrary, so any values may collide.
module Interner {
  import opened Wrappers

  type Hash = h: nat | h < 0x1_0000_0000_0000_0000

  const MAX_ID: nat := 0xFFFF_FFFF

  type Id = id: nat | 1 <= id <= MAX_ID witness 1

  datatype Slot<T, M> = Slot(value: T, metadata: M)

  datatype Link = Link(hash: Hash, id: Id)

  datatype Store<T, M> = Store(arena: seq<Slot<T, M>>, table: map<Hash, Id>, overflow: seq<Link>)

  // ---------------------------------------------------------------- what a store holds

  predicate InArena<T, M>(store: Store<T, M>, id: Id) {
    id <= |store.arena|
  }

  function ValueOf<T, M>(store: Store<T, M>, id: Id): T
    requires InArena(store, id)
  {
    store.arena[id - 1].value
  }

  // Links lead into the arena, under the hash of the value there, and only a hash that the
  // table knows has overflowed.
  ghost predicate Valid<T, M>(hash: T -> Hash, store: Store<T, M>) {
    && (forall h :: h in store.table ==> InArena(store, store.table[h]) && hash(ValueOf(store, store.table[h])) == h)
    && (forall k :: 0 <= k < |store.overflow| ==> LinkHolds(hash, store, store.overflow[k]))
  }

  ghost predicate LinkHolds<T, M>(hash: T -> Hash, store: Store<T, M>, link: Link) {
    InArena(store, link.id) && hash(ValueOf(store, link.id)) == link.hash && link.hash in store.table
  }

  predicate Matches<T(==), M>(store: Store<T, M>, link: Link, h: Hash, value: T) {
    link.hash == h && InArena(store, link.id) && ValueOf(store, link.id) == value
  }

  // The last of the first `n` links that leads to the value.
  function Scan<T(==), M>(store: Store<T, M>, h: Hash, value: T, n: nat): (id: Option<Id>)
    requires n <= |store.overflow|
  {
    if n == 0 then None
    else if Matches(store, store.overflow[n - 1], h, value) then Some(store.overflow[n - 1].id)
    else Scan(store, h, value, n - 1)
  }

  // The id under which a value can be found.
  function Find<T(==), M>(hash: T -> Hash, store: Store<T, M>, value: T): Option<Id> {
    var h := hash(value);
    if h !in store.table then None
    else if InArena(store, store.table[h]) && ValueOf(store, store.table[h]) == value then Some(store.table[h])
    else Scan(store, h, value, |store.overflow|)
  }

  ghost predicate SameFound<T(!new), M>(hash: T -> Hash, before: Store<T, M>, after: Store<T, M>) {
    forall v: T :: Find(hash, after, v) == Find(hash, before, v)
  }

  // The value, unknown before, is now known by the id, and nothing else has changed.
  ghost predicate Adds<T(!new), M>(hash: T -> Hash, before: Store<T, M>, after: Store<T, M>, value: T, id: Id) {
    && Find(hash, before, value) == None
    && (forall v: T :: Find(hash, after, v) == if v == value then Some(id) else Find(hash, before, v))
  }

  // A known value keeps its id and its metadata. A new one gets the id of a new slot.
  ghost predicate Interns<T(!new), M>(hash: T -> Hash, before: Store<T, M>, after: Store<T, M>, slot: Slot<T, M>, id: Option<Id>) {
    var known := Find(hash, before, slot.value);
    if known.Some? then after == before && id == known
    else
      && after.arena == before.arena + [slot]
      && (if |before.arena| < MAX_ID then id == Some(|before.arena| + 1) && Adds(hash, before, after, slot.value, |before.arena| + 1)
          else id == None && SameFound(hash, before, after))
  }

  ghost predicate Publishes<T(!new), M>(hash: T -> Hash, before: Store<T, M>, after: Store<T, M>, candidate: Id, id: Id)
    requires InArena(before, candidate)
  {
    var value := ValueOf(before, candidate);
    var known := Find(hash, before, value);
    && after.arena == before.arena
    && (if known.Some? then after == before && id == known.value
        else id == candidate && Adds(hash, before, after, value, candidate))
  }

  lemma AddsAfter<T(!new), M>(hash: T -> Hash, before: Store<T, M>, pushed: Store<T, M>, after: Store<T, M>, value: T, id: Id)
    requires SameFound(hash, before, pushed) && Adds(hash, pushed, after, value, id)
    ensures Adds(hash, before, after, value, id)
  {
  }

  lemma {:induction false} ScanIsNone<T, M>(store: Store<T, M>, h: Hash, value: T, n: nat)
    requires n <= |store.overflow|
    ensures Scan(store, h, value, n) == None <==>
            forall k :: 0 <= k < n ==> !Matches(store, store.overflow[k], h, value)
  {
    if n != 0 {
      ScanIsNone(store, h, value, n - 1);
    }
  }

  lemma {:induction false} ScanFinds<T, M>(store: Store<T, M>, h: Hash, value: T, n: nat)
    requires n <= |store.overflow| && Scan(store, h, value, n).Some?
    ensures var id := Scan(store, h, value, n).value;
            && InArena(store, id) && ValueOf(store, id) == value
            && exists k :: 0 <= k < n && store.overflow[k] == Link(h, id)
  {
    if Matches(store, store.overflow[n - 1], h, value) {
      assert store.overflow[n - 1] == Link(h, store.overflow[n - 1].id);
    } else {
      ScanFinds(store, h, value, n - 1);
    }
  }

  // What is found is in the arena.
  lemma FindIsValue<T, M>(hash: T -> Hash, store: Store<T, M>, value: T)
    requires Find(hash, store, value).Some?
    ensures InArena(store, Find(hash, store, value).value) && ValueOf(store, Find(hash, store, value).value) == value
  {
    if !(InArena(store, store.table[hash(value)]) && ValueOf(store, store.table[hash(value)]) == value) {
      ScanFinds(store, hash(value), value, |store.overflow|);
    }
  }

  // ---------------------------------------------------------------- how a store grows

  function Pushed<T, M>(store: Store<T, M>, slot: Slot<T, M>): Store<T, M> {
    store.(arena := store.arena + [slot])
  }

  function Inserted<T, M>(store: Store<T, M>, h: Hash, id: Id): Store<T, M> {
    store.(table := store.table[h := id])
  }

  function Linked<T, M>(store: Store<T, M>, h: Hash, id: Id): Store<T, M> {
    store.(overflow := store.overflow + [Link(h, id)])
  }

  lemma {:induction false} ScanPushed<T, M>(hash: T -> Hash, store: Store<T, M>, slot: Slot<T, M>, h: Hash, value: T, n: nat)
    requires Valid(hash, store) && n <= |store.overflow|
    ensures Scan(Pushed(store, slot), h, value, n) == Scan(store, h, value, n)
  {
    if n != 0 {
      assert LinkHolds(hash, store, store.overflow[n - 1]);
      ScanPushed(hash, store, slot, h, value, n - 1);
    }
  }

  // A slot that nothing links to is invisible.
  lemma PushKeeps<T(!new), M>(hash: T -> Hash, store: Store<T, M>, slot: Slot<T, M>)
    requires Valid(hash, store)
    ensures Valid(hash, Pushed(store, slot)) && SameFound(hash, store, Pushed(store, slot))
  {
    var pushed := Pushed(store, slot);
    assert forall k :: 0 <= k < |store.overflow| ==> LinkHolds(hash, store, store.overflow[k]);
    forall v: T
      ensures Find(hash, pushed, v) == Find(hash, store, v)
    {
      ScanPushed(hash, store, slot, hash(v), v, |store.overflow|);
    }
  }

  lemma {:induction false} ScanInserted<T, M>(store: Store<T, M>, at: Hash, id: Id, h: Hash, value: T, n: nat)
    requires n <= |store.overflow|
    ensures Scan(Inserted(store, at, id), h, value, n) == Scan(store, h, value, n)
  {
    if n != 0 {
      ScanInserted(store, at, id, h, value, n - 1);
    }
  }

  // The first value with its hash goes into the table.
  lemma InsertKeeps<T(!new), M>(hash: T -> Hash, store: Store<T, M>, h: Hash, value: T, id: Id)
    requires Valid(hash, store) && h !in store.table
    requires InArena(store, id) && ValueOf(store, id) == value && hash(value) == h
    ensures Valid(hash, Inserted(store, h, id)) && Adds(hash, store, Inserted(store, h, id), value, id)
  {
    var inserted := Inserted(store, h, id);
    assert forall k :: 0 <= k < |store.overflow| ==> LinkHolds(hash, store, store.overflow[k]);
    forall v: T
      ensures Find(hash, inserted, v) == if v == value then Some(id) else Find(hash, store, v)
    {
      ScanInserted(store, h, id, hash(v), v, |store.overflow|);
      ScanIsNone(store, hash(v), v, |store.overflow|);
    }
  }

  lemma {:induction false} ScanLinked<T, M>(store: Store<T, M>, at: Hash, id: Id, h: Hash, value: T, n: nat)
    requires n <= |store.overflow|
    ensures Scan(Linked(store, at, id), h, value, n) == Scan(store, h, value, n)
  {
    if n != 0 {
      ScanLinked(store, at, id, h, value, n - 1);
    }
  }

  // The hash of the value is taken by another value.
  predicate Collides<T(==), M>(hash: T -> Hash, store: Store<T, M>, value: T) {
    var h := hash(value);
    h in store.table && InArena(store, store.table[h]) && ValueOf(store, store.table[h]) != value
  }

  // A value whose hash is taken, and that the chain does not know, goes into the chain.
  lemma LinkKeeps<T(!new), M>(hash: T -> Hash, store: Store<T, M>, h: Hash, value: T, id: Id)
    requires Valid(hash, store) && Collides(hash, store, value) && Scan(store, h, value, |store.overflow|) == None
    requires InArena(store, id) && ValueOf(store, id) == value && hash(value) == h
    ensures Valid(hash, Linked(store, h, id)) && Adds(hash, store, Linked(store, h, id), value, id)
  {
    var linked := Linked(store, h, id);
    assert forall k :: 0 <= k < |store.overflow| ==> LinkHolds(hash, store, store.overflow[k]);
    forall v: T
      ensures Find(hash, linked, v) == if v == value then Some(id) else Find(hash, store, v)
    {
      ScanLinked(store, h, id, hash(v), v, |store.overflow|);
    }
  }

  // ---------------------------------------------------------------- one thread

  class Interner<T(==, !new), M> {
    const hash: T -> Hash
    var arena: seq<Slot<T, M>>
    var table: map<Hash, Id>
    var overflow: seq<Link>

    constructor (hash: T -> Hash)
      ensures this.hash == hash && Valid(hash, Contents())
      ensures forall v: T :: Find(hash, Contents(), v) == None
    {
      this.hash := hash;
      arena, table, overflow := [], map[], [];
    }

    function Contents(): Store<T, M>
      reads this
    {
      Store(arena, table, overflow)
    }

    // The last link of the chain that leads to the value.
    method ScanOverflow(h: Hash, value: T) returns (id: Option<Id>)
      requires Valid(hash, Contents())
      ensures id == Scan(Contents(), h, value, |overflow|)
    {
      var n: nat := |overflow|;
      while n != 0
        invariant n <= |overflow| && Scan(Contents(), h, value, |overflow|) == Scan(Contents(), h, value, n)
      {
        n := n - 1;
        var link := overflow[n];
        assert LinkHolds(hash, Contents(), link);
        if link.hash == h && arena[link.id - 1].value == value {
          return Some(link.id);
        }
      }
      return None;
    }

    method Get(value: T) returns (id: Option<Id>)
      requires Valid(hash, Contents())
      ensures id == Find(hash, Contents(), value)
    {
      var h := hash(value);
      if h !in table {
        return None;
      }
      if arena[table[h] - 1].value == value {
        return Some(table[h]);
      }
      id := ScanOverflow(h, value);
    }

    // No id is left for a new value when the arena is full: the source panics there.
    method Intern(value: T, metadata: M) returns (id: Option<Id>)
      requires Valid(hash, Contents())
      modifies this
      ensures Valid(hash, Contents())
      ensures Interns(hash, old(Contents()), Contents(), Slot(value, metadata), id)
    {
      var h := hash(value);
      if h in table {
        if arena[table[h] - 1].value == value {
          return Some(table[h]);
        }
        id := InternAtCollision(h, value, metadata);
        return;
      }
      PushKeeps(hash, Contents(), Slot(value, metadata));
      arena := arena + [Slot(value, metadata)];
      if |arena| > MAX_ID {
        return None;
      }
      ghost var pushed := Contents();
      var candidate := Publish(h, |arena|);
      id := Some(candidate);
      AddsAfter(hash, old(Contents()), pushed, Contents(), value, |arena|);
    }

    // Makes a slot of the arena known, unless its value is known already.
    method Publish(h: Hash, candidate: Id) returns (id: Id)
      requires Valid(hash, Contents()) && InArena(Contents(), candidate) && h == hash(ValueOf(Contents(), candidate))
      modifies this`table, this`overflow
      ensures Valid(hash, Contents())
      ensures Publishes(hash, old(Contents()), Contents(), candidate, id)
    {
      if h !in table {
        InsertKeeps(hash, Contents(), h, ValueOf(Contents(), candidate), candidate);
        table := table[h := candidate];
        return candidate;
      }
      if arena[table[h] - 1].value == arena[candidate - 1].value {
        return table[h];
      }
      id := PublishCollision(h, candidate);
    }

    method PublishCollision(h: Hash, candidate: Id) returns (id: Id)
      requires Valid(hash, Contents()) && InArena(Contents(), candidate) && h == hash(ValueOf(Contents(), candidate))
      requires Collides(hash, Contents(), ValueOf(Contents(), candidate))
      modifies this`overflow
      ensures Valid(hash, Contents())
      ensures Publishes(hash, old(Contents()), Contents(), candidate, id)
    {
      var known := ScanOverflow(h, arena[candidate - 1].value);
      if known.Some? {
        return known.value;
      }
      LinkKeeps(hash, Contents(), h, ValueOf(Contents(), candidate), candidate);
      overflow := overflow + [Link(h, candidate)];
      id := candidate;
    }

    method InternAtCollision(h: Hash, value: T, metadata: M) returns (id: Option<Id>)
      requires Valid(hash, Contents()) && h == hash(value) && Collides(hash, Contents(), value)
      modifies this`arena, this`overflow
      ensures Valid(hash, Contents())
      ensures Interns(hash, old(Contents()), Contents(), Slot(value, metadata), id)
    {
      id := ScanOverflow(h, value);
      if id.Some? {
        return;
      }
      PushKeeps(hash, Contents(), Slot(value, metadata));
      ScanPushed(hash, Contents(), Slot(value, metadata), h, value, |overflow|);
      arena := arena + [Slot(value, metadata)];
      if |arena| > MAX_ID {
        return None;
      }
      ghost var pushed := Contents();
      LinkKeeps(hash, pushed, h, value, |arena|);
      overflow := overflow + [Link(h, |arena|)];
      id := Some(|arena|);
      AddsAfter(hash, old(Contents()), pushed, Contents(), value, |arena|);
    }
  }

  // ---------------------------------------------------------------- many threads

  // What a thread that holds, or is about to take, the lock on the chain does with a value.
  datatype Errand<T, M> =
    | Add(value: T, metadata: M)
    | Offer(value: T, candidate: Id)
    | Seek(value: T)

  // How far a thread has come with the call it makes.
  datatype Phase<T, M> =
    | Idle
    | Looking(value: T, metadata: M)
    | Pushing(value: T, metadata: M)
    | Inserting(value: T, candidate: Id)
    | Getting(value: T)
    | Locking(errand: Errand<T, M>)
    | Scanning(errand: Errand<T, M>, n: nat)
    | Appending(value: T, metadata: M)
    | Linking(value: T, candidate: Id)
    | Panicked

  datatype Reply<T> = Interned(value: T, id: Id) | Looked(value: T, found: Option<Id>)

  type ThreadId = nat

  // `replies` logs what the calls return, in the order in which they take effect.
  datatype State<T, M> = State(
    store: Store<T, M>,
    lock: Option<ThreadId>,
    threads: map<ThreadId, Phase<T, M>>,
    replies: seq<Reply<T>>)

  datatype Step<T, M> =
    | Intern(thread: ThreadId, value: T, metadata: M)
    | Get(thread: ThreadId, value: T)
    | Act(thread: ThreadId)

  function PhaseOf<T, M>(s: State<T, M>, t: ThreadId): Phase<T, M> {
    if t in s.threads then s.threads[t] else Idle
  }

  function Moved<T, M>(s: State<T, M>, t: ThreadId, phase: Phase<T, M>): State<T, M> {
    s.(threads := s.threads[t := phase])
  }

  function Replied<T, M>(s: State<T, M>, t: ThreadId, reply: Reply<T>): State<T, M> {
    s.(threads := s.threads[t := Idle], replies := s.replies + [reply])
  }

  function Unlocked<T, M>(s: State<T, M>): State<T, M> {
    s.(lock := None)
  }

  function Answer<T, M>(errand: Errand<T, M>, id: Id): Reply<T> {
    if errand.Seek? then Looked(errand.value, Some(id)) else Interned(errand.value, id)
  }

  // A thread reads the table.
  function LookedUp<T(==), M>(hash: T -> Hash, s: State<T, M>, t: ThreadId, errand: Errand<T, M>, missing: State<T, M>): State<T, M> {
    var h := hash(errand.value);
    if h !in s.store.table then missing
    else if InArena(s.store, s.store.table[h]) && ValueOf(s.store, s.store.table[h]) == errand.value then
      Replied(s, t, Answer(errand, s.store.table[h]))
    else Moved(s, t, Locking(errand))
  }

  // A thread that holds the lock looks at one link of the chain.
  function Scanned<T(==), M>(hash: T -> Hash, s: State<T, M>, t: ThreadId, errand: Errand<T, M>, n: nat): State<T, M> {
    if n == 0 || n > |s.store.overflow| then
      match errand
      case Add(value, metadata) => Moved(s, t, Appending(value, metadata))
      case Offer(value, candidate) => Moved(s, t, Linking(value, candidate))
      case Seek(value) => Unlocked(Replied(s, t, Looked(value, None)))
    else if Matches(s.store, s.store.overflow[n - 1], hash(errand.value), errand.value) then
      Unlocked(Replied(s, t, Answer(errand, s.store.overflow[n - 1].id)))
    else
      Moved(s, t, Scanning(errand, n - 1))
  }

  predicate Enabled<T, M>(s: State<T, M>, step: Step<T, M>) {
    match step
    case Intern(t, _, _) => PhaseOf(s, t).Idle?
    case Get(t, _) => PhaseOf(s, t).Idle?
    case Act(t) =>
      && !PhaseOf(s, t).Idle? && !PhaseOf(s, t).Panicked?
      && (PhaseOf(s, t).Locking? ==> s.lock.None?)
  }

  function Acted<T(==), M>(hash: T -> Hash, s: State<T, M>, t: ThreadId): State<T, M> {
    match PhaseOf(s, t)
    case Idle => s
    case Looking(value, metadata) =>
      LookedUp(hash, s, t, Add(value, metadata), Moved(s, t, Pushing(value, metadata)))
    case Pushing(value, metadata) =>
      var id := |s.store.arena| + 1;
      Moved(s.(store := Pushed(s.store, Slot(value, metadata))), t, if id <= MAX_ID then Inserting(value, id) else Panicked)
    case Inserting(value, candidate) =>
      LookedUp(hash, s, t, Offer(value, candidate),
               Replied(s.(store := Inserted(s.store, hash(value), candidate)), t, Interned(value, candidate)))
    case Getting(value) =>
      LookedUp(hash, s, t, Seek(value), Replied(s, t, Looked(value, None)))
    case Locking(errand) =>
      Moved(s.(lock := Some(t)), t, Scanning(errand, |s.store.overflow|))
    case Scanning(errand, n) =>
      Scanned(hash, s, t, errand, n)
    case Appending(value, metadata) =>
      var id := |s.store.arena| + 1;
      var pushed := s.(store := Pushed(s.store, Slot(value, metadata)));
      if id <= MAX_ID then Moved(pushed, t, Linking(value, id)) else Unlocked(Moved(pushed, t, Panicked))
    case Linking(value, candidate) =>
      Unlocked(Replied(s.(store := Linked(s.store, hash(value), candidate)), t, Interned(value, candidate)))
    case Panicked => s
  }

  function Apply<T(==), M>(hash: T -> Hash, s: State<T, M>, step: Step<T, M>): State<T, M> {
    match step
    case Intern(t, value, metadata) => Moved(s, t, Looking(value, metadata))
    case Get(t, value) => Moved(s, t, Getting(value))
    case Act(t) => Acted(hash, s, t)
  }

  // ---------------------------------------------------------------- what the replies must say

  // The values interned so far, with their ids.
  function Known<T(==)>(replies: seq<Reply<T>>): map<T, Id> {
    if replies == [] then map[]
    else
      var last := replies[|replies| - 1];
      var known := Known(replies[..|replies| - 1]);
      if last.Interned? then known[last.value := last.id] else known
  }

  function Lookup<T(==)>(known: map<T, Id>, value: T): Option<Id> {
    if value in known then Some(known[value]) else None
  }

  // What one call at a time would return.
  predicate LegalReply<T(==)>(known: map<T, Id>, reply: Reply<T>) {
    match reply
    case Interned(value, id) =>
      if value in known then id == known[value] else id !in known.Values
    case Looked(value, found) =>
      found == Lookup(known, value)
  }

  // The replies are those of a run without concurrency.
  ghost predicate Legal<T>(replies: seq<Reply<T>>) {
    forall j :: 0 <= j < |replies| ==> LegalReply(Known(replies[..j]), replies[j])
  }

  lemma LegalNext<T>(replies: seq<Reply<T>>, reply: Reply<T>)
    requires Legal(replies) && LegalReply(Known(replies), reply)
    ensures Legal(replies + [reply])
    ensures Known(replies + [reply]) ==
            if reply.Interned? then Known(replies)[reply.value := reply.id] else Known(replies)
  {
    var next := replies + [reply];
    assert next[..|replies|] == replies;
    forall j | 0 <= j < |next|
      ensures LegalReply(Known(next[..j]), next[j])
    {
      if j < |replies| {
        assert next[..j] == replies[..j];
      }
    }
  }

  // ---------------------------------------------------------------- the invariant

  // The store refines the map of what has been interned.
  ghost predicate Refines<T(!new), M>(hash: T -> Hash, s: State<T, M>) {
    forall v: T :: Find(hash, s.store, v) == Lookup(Known(s.replies), v)
  }

  predicate CandidateHolds<T(==), M>(store: Store<T, M>, value: T, candidate: Id) {
    InArena(store, candidate) && ValueOf(store, candidate) == value
  }

  ghost predicate ErrandHolds<T, M>(hash: T -> Hash, store: Store<T, M>, errand: Errand<T, M>) {
    && Collides(hash, store, errand.value)
    && (errand.Offer? ==> CandidateHolds(store, errand.value, errand.candidate))
  }

  // No link from `n` on leads to the value.
  ghost predicate NotFrom<T, M>(hash: T -> Hash, store: Store<T, M>, value: T, n: nat) {
    forall k :: n <= k < |store.overflow| ==> !Matches(store, store.overflow[k], hash(value), value)
  }

  predicate Locked<T, M>(phase: Phase<T, M>) {
    phase.Scanning? || phase.Appending? || phase.Linking?
  }

  ghost predicate PhaseHolds<T, M>(hash: T -> Hash, store: Store<T, M>, phase: Phase<T, M>) {
    match phase
    case Inserting(value, candidate) => CandidateHolds(store, value, candidate)
    case Locking(errand) => ErrandHolds(hash, store, errand)
    case Scanning(errand, n) => ErrandHolds(hash, store, errand) && n <= |store.overflow| && NotFrom(hash, store, errand.value, n)
    case Appending(value, _) => Collides(hash, store, value) && NotFrom(hash, store, value, 0)
    case Linking(value, candidate) =>
      Collides(hash, store, value) && CandidateHolds(store, value, candidate) && NotFrom(hash, store, value, 0)
    case _ => true
  }

  ghost predicate Inv<T(!new), M>(hash: T -> Hash, s: State<T, M>) {
    && Valid(hash, s.store) && Refines(hash, s) && Legal(s.replies)
    && (forall t: ThreadId :: PhaseHolds(hash, s.store, PhaseOf(s, t)))
    && (forall t: ThreadId :: Locked(PhaseOf(s, t)) <==> s.lock == Some(t))
  }

  // Nothing is ever taken out of a store.
  ghost predicate Grows<T, M>(before: Store<T, M>, after: Store<T, M>) {
    && before.arena <= after.arena && before.overflow <= after.overflow
    && (forall h :: h in before.table ==> h in after.table && after.table[h] == before.table[h])
  }

  lemma PhaseKept<T, M>(hash: T -> Hash, before: Store<T, M>, after: Store<T, M>, phase: Phase<T, M>)
    requires Valid(hash, before) && Grows(before, after) && PhaseHolds(hash, before, phase)
    requires Locked(phase) ==> after.overflow == before.overflow
    ensures PhaseHolds(hash, after, phase)
  {
    forall k | 0 <= k < |before.overflow|
      ensures after.overflow[k] == before.overflow[k]
      ensures forall h, v :: Matches(after, after.overflow[k], h, v) == Matches(before, before.overflow[k], h, v)
    {
      assert LinkHolds(hash, before, before.overflow[k]);
    }
  }

  predicate LockPasses(before: Option<ThreadId>, after: Option<ThreadId>, t: ThreadId) {
    after == before || ((before == None || before == Some(t)) && (after == None || after == Some(t)))
  }

  // What a move of one thread has to keep.
  lemma MoveKeepsInv<T(!new), M>(hash: T -> Hash, s: State<T, M>, r: State<T, M>, t: ThreadId)
    requires Inv(hash, s) && r.threads == s.threads[t := PhaseOf(r, t)]
    requires Valid(hash, r.store) && Refines(hash, r) && Legal(r.replies) && PhaseHolds(hash, r.store, PhaseOf(r, t))
    requires Grows(s.store, r.store) && (r.store.overflow != s.store.overflow ==> s.lock == Some(t))
    requires LockPasses(s.lock, r.lock, t) && (Locked(PhaseOf(r, t)) <==> r.lock == Some(t))
    ensures Inv(hash, r)
  {
    hide Valid, Refines, Legal, Grows, PhaseHolds;
    forall n: ThreadId
      ensures PhaseHolds(hash, r.store, PhaseOf(r, n))
    {
      if n != t {
        assert PhaseOf(r, n) == PhaseOf(s, n);
        assert Locked(PhaseOf(s, n)) <==> s.lock == Some(n);
        PhaseKept(hash, s.store, r.store, PhaseOf(s, n));
      }
    }
    forall n: ThreadId
      ensures Locked(PhaseOf(r, n)) <==> r.lock == Some(n)
    {
      assert Locked(PhaseOf(s, n)) <==> s.lock == Some(n);
    }
  }

  // A thread goes on without touching the store or replying.
  lemma QuietKeepsInv<T(!new), M>(hash: T -> Hash, s: State<T, M>, t: ThreadId, phase: Phase<T, M>)
    requires Inv(hash, s) && PhaseHolds(hash, s.store, phase) && (Locked(phase) <==> Locked(PhaseOf(s, t)))
    ensures Inv(hash, Moved(s, t, phase))
  {
    hide Valid, Legal, PhaseHolds, Find, Known;
    MoveKeepsInv(hash, s, Moved(s, t, phase), t);
  }

  // A reply that the store agrees with.
  lemma ReplyKeepsInv<T(!new), M>(hash: T -> Hash, s: State<T, M>, t: ThreadId, reply: Reply<T>)
    requires Inv(hash, s)
    requires Find(hash, s.store, reply.value) == if reply.Interned? then Some(reply.id) else reply.found
    ensures Inv(hash, if s.lock == Some(t) then Unlocked(Replied(s, t, reply)) else Replied(s, t, reply))
  {
    var r := if s.lock == Some(t) then Unlocked(Replied(s, t, reply)) else Replied(s, t, reply);
    LegalNext(s.replies, reply);
    assert Refines(hash, r) by {
      hide Find, Legal, Valid, Known;
      assert Known(r.replies) == Known(s.replies);
    }
    hide Valid, Legal, Refines, Find, Known;
    MoveKeepsInv(hash, s, r, t);
  }

  // The slot of an unknown value has no known id.
  lemma FreshId<T(!new), M>(hash: T -> Hash, s: State<T, M>, value: T, id: Id)
    requires Refines(hash, s) && Find(hash, s.store, value) == None && CandidateHolds(s.store, value, id)
    ensures value !in Known(s.replies) && id !in Known(s.replies).Values
  {
    var known := Known(s.replies);
    assert Find(hash, s.store, value) == Lookup(known, value);
    forall v | v in known
      ensures known[v] != id
    {
      assert Find(hash, s.store, v) == Lookup(known, v);
      FindIsValue(hash, s.store, v);
    }
  }

  // A reply by which a candidate becomes known.
  lemma AddKeepsInv<T(!new), M>(hash: T -> Hash, s: State<T, M>, store: Store<T, M>, t: ThreadId, value: T, id: Id)
    requires Inv(hash, s) && Valid(hash, store) && Grows(s.store, store) && Adds(hash, s.store, store, value, id)
    requires CandidateHolds(s.store, value, id) && (store.overflow != s.store.overflow ==> s.lock == Some(t))
    ensures var r := Replied(s.(store := store), t, Interned(value, id));
            Inv(hash, if s.lock == Some(t) then Unlocked(r) else r)
  {
    hide Legal, Valid, Known, Find, PhaseHolds;
    FreshId(hash, s, value, id);
    LegalNext(s.replies, Interned(value, id));
    var moved := Replied(s.(store := store), t, Interned(value, id));
    var r := if s.lock == Some(t) then Unlocked(moved) else moved;
    assert Refines(hash, r);
    hide Refines, Adds;
    assert PhaseHolds(hash, r.store, Idle) by {
      IdleHolds(hash, r.store);
    }
    MoveKeepsInv(hash, s, r, t);
  }

  lemma IdleHolds<T, M>(hash: T -> Hash, store: Store<T, M>)
    ensures PhaseHolds(hash, store, Idle)
  {
  }

  lemma LookKeepsInv<T(!new), M>(hash: T -> Hash, s: State<T, M>, t: ThreadId, errand: Errand<T, M>, missing: State<T, M>)
    requires Inv(hash, s) && !Locked(PhaseOf(s, t))
    requires errand.Offer? ==> CandidateHolds(s.store, errand.value, errand.candidate)
    requires hash(errand.value) !in s.store.table ==> Inv(hash, missing)
    ensures Inv(hash, LookedUp(hash, s, t, errand, missing))
  {
    var h := hash(errand.value);
    if h in s.store.table {
      assert InArena(s.store, s.store.table[h]);
      if ValueOf(s.store, s.store.table[h]) == errand.value {
        assert s.lock != Some(t);
        hide Inv;
        ReplyKeepsInv(hash, s, t, Answer(errand, s.store.table[h]));
      } else {
        hide Inv;
        QuietKeepsInv(hash, s, t, Locking(errand));
      }
    }
  }

  lemma PushKeepsInv<T(!new), M>(hash: T -> Hash, s: State<T, M>, t: ThreadId)
    requires Inv(hash, s) && (PhaseOf(s, t).Pushing? || PhaseOf(s, t).Appending?)
    ensures Inv(hash, Acted(hash, s, t))
  {
    var phase := PhaseOf(s, t);
    var slot := Slot(phase.value, phase.metadata);
    var r := Acted(hash, s, t);
    PushKeeps(hash, s.store, slot);
    assert Refines(hash, r) by {
      hide Find, Legal, Valid, Known;
    }
    PhaseKept(hash, s.store, r.store, phase);
    hide Valid, Legal, Refines, Find, Known;
    MoveKeepsInv(hash, s, r, t);
  }

  lemma InsertKeepsInv<T(!new), M>(hash: T -> Hash, s: State<T, M>, t: ThreadId)
    requires Inv(hash, s) && PhaseOf(s, t).Inserting?
    ensures Inv(hash, Acted(hash, s, t))
  {
    var phase := PhaseOf(s, t);
    var h := hash(phase.value);
    var missing := Replied(s.(store := Inserted(s.store, h, phase.candidate)), t, Interned(phase.value, phase.candidate));
    assert PhaseHolds(hash, s.store, phase);
    assert Locked(phase) <==> s.lock == Some(t);
    if h !in s.store.table {
      InsertKeeps(hash, s.store, h, phase.value, phase.candidate);
      hide Valid, Adds, Inv;
      AddKeepsInv(hash, s, Inserted(s.store, h, phase.candidate), t, phase.value, phase.candidate);
    }
    hide Inv;
    LookKeepsInv(hash, s, t, Offer(phase.value, phase.candidate), missing);
  }

  lemma LinkKeepsInv<T(!new), M>(hash: T -> Hash, s: State<T, M>, t: ThreadId)
    requires Inv(hash, s) && PhaseOf(s, t).Linking?
    ensures Inv(hash, Acted(hash, s, t))
  {
    var phase := PhaseOf(s, t);
    var h := hash(phase.value);
    assert PhaseHolds(hash, s.store, phase);
    assert Locked(phase) <==> s.lock == Some(t);
    ScanIsNone(s.store, h, phase.value, |s.store.overflow|);
    LinkKeeps(hash, s.store, h, phase.value, phase.candidate);
    hide Valid, Adds, Inv;
    AddKeepsInv(hash, s, Linked(s.store, h, phase.candidate), t, phase.value, phase.candidate);
  }

  lemma GetKeepsInv<T(!new), M>(hash: T -> Hash, s: State<T, M>, t: ThreadId)
    requires Inv(hash, s) && PhaseOf(s, t).Getting?
    ensures Inv(hash, Acted(hash, s, t))
  {
    var value := PhaseOf(s, t).value;
    assert Locked(PhaseOf(s, t)) <==> s.lock == Some(t);
    hide Inv;
    if hash(value) !in s.store.table {
      ReplyKeepsInv(hash, s, t, Looked(value, None));
    }
    LookKeepsInv(hash, s, t, Seek(value), Replied(s, t, Looked(value, None)));
  }

  lemma LockKeepsInv<T(!new), M>(hash: T -> Hash, s: State<T, M>, t: ThreadId)
    requires Inv(hash, s) && PhaseOf(s, t).Locking? && s.lock == None
    ensures Inv(hash, Acted(hash, s, t))
  {
    var r := Acted(hash, s, t);
    assert PhaseHolds(hash, s.store, PhaseOf(s, t));
    assert Refines(hash, r) by {
      hide Find, Legal, Valid, Known;
    }
    hide Valid, Legal, Refines;
    MoveKeepsInv(hash, s, r, t);
  }

  lemma {:induction false} ScanFrom<T, M>(hash: T -> Hash, store: Store<T, M>, value: T, n: nat, m: nat)
    requires n <= m <= |store.overflow| && NotFrom(hash, store, value, n)
    ensures Scan(store, hash(value), value, m) == Scan(store, hash(value), value, n)
  {
    if n < m {
      ScanFrom(hash, store, value, n, m - 1);
    }
  }

  lemma ScanKeepsInv<T(!new), M>(hash: T -> Hash, s: State<T, M>, t: ThreadId)
    requires Inv(hash, s) && PhaseOf(s, t).Scanning?
    ensures Inv(hash, Acted(hash, s, t))
  {
    var errand, n := PhaseOf(s, t).errand, PhaseOf(s, t).n;
    assert PhaseHolds(hash, s.store, PhaseOf(s, t));
    assert Locked(PhaseOf(s, t)) <==> s.lock == Some(t);
    ScanFrom(hash, s.store, errand.value, n, |s.store.overflow|);
    hide Inv;
    if n == 0 {
      match errand
      case Add(value, metadata) => QuietKeepsInv(hash, s, t, Appending(value, metadata));
      case Offer(value, candidate) => QuietKeepsInv(hash, s, t, Linking(value, candidate));
      case Seek(value) => ReplyKeepsInv(hash, s, t, Looked(value, None));
    } else if Matches(s.store, s.store.overflow[n - 1], hash(errand.value), errand.value) {
      ReplyKeepsInv(hash, s, t, Answer(errand, s.store.overflow[n - 1].id));
    } else {
      QuietKeepsInv(hash, s, t, Scanning(errand, n - 1));
    }
  }

  lemma StepKeepsInv<T(!new), M>(hash: T -> Hash, s: State<T, M>, step: Step<T, M>)
    requires Inv(hash, s) && Enabled(s, step)
    ensures Inv(hash, Apply(hash, s, step))
  {
    hide Inv;
    match step
    case Intern(t, value, metadata) => QuietKeepsInv(hash, s, t, Looking(value, metadata));
    case Get(t, value) => QuietKeepsInv(hash, s, t, Getting(value));
    case Act(t) => {
      var phase := PhaseOf(s, t);
      match phase
      case Looking(value, metadata) => {
        QuietKeepsInv(hash, s, t, Pushing(value, metadata));
        LookKeepsInv(hash, s, t, Add(value, metadata), Moved(s, t, Pushing(value, metadata)));
      }
      case Pushing(_, _) => PushKeepsInv(hash, s, t);
      case Inserting(_, _) => InsertKeepsInv(hash, s, t);
      case Getting(_) => GetKeepsInv(hash, s, t);
      case Locking(_) => LockKeepsInv(hash, s, t);
      case Scanning(_, _) => ScanKeepsInv(hash, s, t);
      case Appending(_, _) => PushKeepsInv(hash, s, t);
      case Linking(_, _) => LinkKeepsInv(hash, s, t);
    }
  }

  // ---------------------------------------------------------------- whole runs

  predicate Initial<T, M>(s: State<T, M>) {
    s == State(Store([], map[], []), None, map[], [])
  }

  ghost predicate Next<T(!new), M(!new)>(hash: T -> Hash, s: State<T, M>, r: State<T, M>) {
    exists step :: Enabled(s, step) && r == Apply(hash, s, step)
  }

  ghost predicate IsRun<T(!new), M(!new)>(hash: T -> Hash, states: seq<State<T, M>>) {
    && states != [] && Initial(states[0])
    && (forall k: nat :: 0 < k < |states| ==> StepAt(hash, states, k))
  }

  ghost predicate StepAt<T(!new), M(!new)>(hash: T -> Hash, states: seq<State<T, M>>, k: nat)
    requires 0 < k < |states|
  {
    Next(hash, states[k - 1], states[k])
  }

  lemma {:induction false} RunKeepsInv<T(!new), M(!new)>(hash: T -> Hash, states: seq<State<T, M>>, k: nat)
    requires IsRun(hash, states) && k < |states|
    ensures Inv(hash, states[k])
  {
    if k != 0 {
      RunKeepsInv(hash, states, k - 1);
      assert StepAt(hash, states, k);
      var step :| Enabled(states[k - 1], step) && states[k] == Apply(hash, states[k - 1], step);
      hide Inv, Enabled, Apply;
      StepKeepsInv(hash, states[k - 1], step);
    }
  }

  // Whatever the interleaving, the replies are those of the same calls made one at a time.
  lemma RunIsLegal<T(!new), M(!new)>(hash: T -> Hash, states: seq<State<T, M>>, k: nat)
    requires IsRun(hash, states) && k < |states|
    ensures Legal(states[k].replies)
  {
    RunKeepsInv(hash, states, k);
  }

  lemma LegalPrefix<T>(replies: seq<Reply<T>>, n: nat)
    requires Legal(replies) && n <= |replies|
    ensures Legal(replies[..n])
  {
    forall j | 0 <= j < n
      ensures LegalReply(Known(replies[..n][..j]), replies[..n][j])
    {
      assert replies[..n][..j] == replies[..j];
    }
  }

  // The known ids are the ones that interning has returned.
  lemma {:induction false} KnownWasInterned<T>(replies: seq<Reply<T>>, value: T)
    requires value in Known(replies)
    ensures Interned(value, Known(replies)[value]) in replies
  {
    var last := replies[|replies| - 1];
    if !(last.Interned? && last.value == value) {
      KnownWasInterned(replies[..|replies| - 1], value);
    }
  }

  lemma {:induction false} InternedIsKnown<T>(replies: seq<Reply<T>>, reply: Reply<T>)
    requires Legal(replies) && reply in replies && reply.Interned?
    ensures reply.value in Known(replies) && Known(replies)[reply.value] == reply.id
  {
    var n := |replies| - 1;
    assert LegalReply(Known(replies[..n]), replies[n]);
    if reply != replies[n] {
      LegalPrefix(replies, n);
      InternedIsKnown(replies[..n], reply);
    }
  }

  lemma {:induction false} KnownIdsDiffer<T>(replies: seq<Reply<T>>, v: T, w: T)
    requires Legal(replies) && v in Known(replies) && w in Known(replies) && v != w
    ensures Known(replies)[v] != Known(replies)[w]
  {
    var n := |replies| - 1;
    var known := Known(replies[..n]);
    assert LegalReply(known, replies[n]);
    LegalPrefix(replies, n);
    assert forall k :: k in known ==> known[k] in known.Values;
    if v in known && w in known {
      KnownIdsDiffer(replies[..n], v, w);
    }
  }

  // Equal values get equal ids and different values get different ones.
  lemma RunInternsAgree<T(!new), M(!new)>(hash: T -> Hash, states: seq<State<T, M>>, k: nat, a: Reply<T>, b: Reply<T>)
    requires IsRun(hash, states) && k < |states|
    requires a.Interned? && b.Interned? && a in states[k].replies && b in states[k].replies
    ensures a.id == b.id <==> a.value == b.value
  {
    RunIsLegal(hash, states, k);
    InternedIsKnown(states[k].replies, a);
    InternedIsKnown(states[k].replies, b);
    if a.value != b.value {
      KnownIdsDiffer(states[k].replies, a.value, b.value);
    }
  }

  // A lookup finds exactly what has been interned when it takes effect.
  lemma RunLookupsAgree<T(!new), M(!new)>(hash: T -> Hash, states: seq<State<T, M>>, k: nat, j: nat, id: Id)
    requires IsRun(hash, states) && k < |states| && j < |states[k].replies| && states[k].replies[j].Looked?
    ensures states[k].replies[j].found == Some(id) <==>
            Interned(states[k].replies[j].value, id) in states[k].replies[..j]
  {
    var replies := states[k].replies;
    var value := replies[j].value;
    RunIsLegal(hash, states, k);
    assert LegalReply(Known(replies[..j]), replies[j]);
    LegalPrefix(replies, j);
    if value in Known(replies[..j]) {
      KnownWasInterned(replies[..j], value);
    }
    if Interned(value, id) in replies[..j] {
      InternedIsKnown(replies[..j], Interned(value, id));
    }
  }

  lemma StepGrows<T(!new), M(!new)>(hash: T -> Hash, s: State<T, M>, r: State<T, M>)
    requires Inv(hash, s) && Next(hash, s, r)
    ensures Grows(s.store, r.store) && s.replies <= r.replies
  {
    hide Inv, Acted, Grows;
    var step :| Enabled(s, step) && r == Apply(hash, s, step);
    GrowsSelf(s.store);
    if step.Act? {
      ActGrows(hash, s, step.thread);
    }
  }

  ghost predicate Extends<T, M>(s: State<T, M>, r: State<T, M>) {
    Grows(s.store, r.store) && s.replies <= r.replies
  }

  lemma ActGrows<T(!new), M>(hash: T -> Hash, s: State<T, M>, t: ThreadId)
    ensures Extends(s, Acted(hash, s, t))
  {
    hide LookedUp, Scanned;
    match PhaseOf(s, t)
    case Looking(value, metadata) => LookGrows(hash, s, t, Add(value, metadata), Moved(s, t, Pushing(value, metadata)));
    case Inserting(value, candidate) =>
      InsertGrows(hash, s, t, value, candidate);
    case Getting(value) => LookGrows(hash, s, t, Seek(value), Replied(s, t, Looked(value, None)));
    case Scanning(errand, n) => ScanGrows(hash, s, t, errand, n);
    case _ =>
  }

  lemma LookGrows<T(!new), M>(hash: T -> Hash, s: State<T, M>, t: ThreadId, errand: Errand<T, M>, missing: State<T, M>)
    requires hash(errand.value) !in s.store.table ==> Extends(s, missing)
    ensures Extends(s, LookedUp(hash, s, t, errand, missing))
  {
    hide Grows;
    GrowsSelf(s.store);
  }

  lemma InsertGrows<T(!new), M>(hash: T -> Hash, s: State<T, M>, t: ThreadId, value: T, candidate: Id)
    ensures var missing := Replied(s.(store := Inserted(s.store, hash(value), candidate)), t, Interned(value, candidate));
            Extends(s, LookedUp(hash, s, t, Offer(value, candidate), missing))
  {
    hide LookedUp;
    var missing := Replied(s.(store := Inserted(s.store, hash(value), candidate)), t, Interned(value, candidate));
    LookGrows(hash, s, t, Offer(value, candidate), missing);
  }

  lemma ScanGrows<T(!new), M>(hash: T -> Hash, s: State<T, M>, t: ThreadId, errand: Errand<T, M>, n: nat)
    ensures Extends(s, Scanned(hash, s, t, errand, n))
  {
    hide Grows, Matches;
    GrowsSelf(s.store);
  }

  lemma GrowsSelf<T, M>(a: Store<T, M>)
    ensures Grows(a, a)
  {
  }

  lemma GrowsOn<T, M>(a: Store<T, M>, b: Store<T, M>, c: Store<T, M>)
    requires Grows(a, b) && Grows(b, c)
    ensures Grows(a, c)
  {
  }

  lemma {:induction false} RunGrows<T(!new), M(!new)>(hash: T -> Hash, states: seq<State<T, M>>, k: nat, l: nat)
    requires IsRun(hash, states) && k <= l < |states|
    ensures Grows(states[k].store, states[l].store) && states[k].replies <= states[l].replies
  {
    if k < l {
      hide Inv, Next, Grows;
      RunGrows(hash, states, k, l - 1);
      RunKeepsInv(hash, states, l - 1);
      assert StepAt(hash, states, l);
      StepGrows(hash, states[l - 1], states[l]);
      GrowsOn(states[k].store, states[l - 1].store, states[l].store);
    } else {
      GrowsSelf(states[k].store);
    }
  }

  // An id leads to its value, and keeps its slot for ever.
  lemma RunIdsKeepSlots<T(!new), M(!new)>(hash: T -> Hash, states: seq<State<T, M>>, k: nat, l: nat, reply: Reply<T>)
    requires IsRun(hash, states) && k <= l < |states| && reply in states[k].replies && reply.Interned?
    ensures InArena(states[k].store, reply.id) && InArena(states[l].store, reply.id)
    ensures ValueOf(states[l].store, reply.id) == reply.value
    ensures states[l].store.arena[reply.id - 1] == states[k].store.arena[reply.id - 1]
  {
    RunKeepsInv(hash, states, k);
    InternedIsKnown(states[k].replies, reply);
    assert Find(hash, states[k].store, reply.value) == Lookup(Known(states[k].replies), reply.value);
    FindIsValue(hash, states[k].store, reply.value);
    hide Inv;
    RunGrows(hash, states, k, l);
  }

  // ---------------------------------------------------------------- abandoned slots

  // The slot that a thread has pushed and not published yet.
  predicate Owns<T, M>(phase: Phase<T, M>, id: Id) {
    match phase
    case Inserting(_, candidate) => candidate == id
    case Locking(errand) => errand.Offer? && errand.candidate == id
    case Scanning(errand, _) => errand.Offer? && errand.candidate == id
    case Linking(_, candidate) => candidate == id
    case _ => false
  }

  ghost predicate Returned<T, M>(s: State<T, M>, id: Id) {
    exists v :: v in Known(s.replies) && Known(s.replies)[v] == id
  }

  // Each slot in flight has one owner and has not been returned.
  ghost predicate OwnersHold<T, M>(s: State<T, M>) {
    && (forall t: ThreadId, n: ThreadId, id: Id :: Owns(PhaseOf(s, t), id) && Owns(PhaseOf(s, n), id) ==> t == n)
    && (forall t: ThreadId, id: Id :: Owns(PhaseOf(s, t), id) ==> InArena(s.store, id) && !Returned(s, id))
  }

  ghost predicate Abandoned<T, M>(s: State<T, M>, id: Id) {
    InArena(s.store, id) && !Returned(s, id) && forall t: ThreadId :: !Owns(PhaseOf(s, t), id)
  }

  // What a move may do to the slots in flight.
  ghost predicate Effect<T, M>(s: State<T, M>, r: State<T, M>, t: ThreadId) {
    && r.threads == s.threads[t := PhaseOf(r, t)] && s.store.arena <= r.store.arena
    && (forall id :: Owns(PhaseOf(r, t), id) ==>
          Owns(PhaseOf(s, t), id) || (!InArena(s.store, id) && InArena(r.store, id)))
    && (forall id :: Returned(r, id) ==> Returned(s, id) || (Owns(PhaseOf(s, t), id) && !Owns(PhaseOf(r, t), id)))
    && (forall id :: Returned(s, id) ==> Returned(r, id))
  }

  lemma QuietEffect<T, M>(s: State<T, M>, r: State<T, M>, t: ThreadId)
    requires r.threads == s.threads[t := PhaseOf(r, t)] && s.store.arena <= r.store.arena && r.replies == s.replies
    requires forall id :: Owns(PhaseOf(r, t), id) ==>
               Owns(PhaseOf(s, t), id) || (!InArena(s.store, id) && InArena(r.store, id))
    ensures Effect(s, r, t)
  {
    assert forall id :: Returned(r, id) <==> Returned(s, id);
  }

  lemma ReplyEffect<T(!new), M>(hash: T -> Hash, s: State<T, M>, r: State<T, M>, t: ThreadId, reply: Reply<T>)
    requires Inv(hash, s) && Inv(hash, r)
    requires r.threads == s.threads[t := Idle] && r.store.arena == s.store.arena && r.replies == s.replies + [reply]
    requires reply.Interned? ==> Find(hash, s.store, reply.value) == Some(reply.id) || Owns(PhaseOf(s, t), reply.id)
    ensures Effect(s, r, t)
  {
    assert LegalReply(Known(s.replies), reply) by {
      assert r.replies[..|s.replies|] == s.replies && r.replies[|s.replies|] == reply;
    }
    var known := Known(s.replies);
    LegalNext(s.replies, reply);
    assert reply.Interned? ==> Find(hash, s.store, reply.value) == Lookup(known, reply.value);
    hide Inv, Known;
    forall id | Returned(s, id)
      ensures Returned(r, id)
    {
      var v :| v in known && known[v] == id;
      assert v in Known(r.replies) && Known(r.replies)[v] == id;
    }
    forall id | Returned(r, id)
      ensures Returned(s, id) || (Owns(PhaseOf(s, t), id) && !Owns(PhaseOf(r, t), id))
    {
      var v :| v in Known(r.replies) && Known(r.replies)[v] == id;
      assert (reply.Interned? && v == reply.value) || (v in known && known[v] == id);
    }
  }

  lemma LookEffect<T(!new), M>(hash: T -> Hash, s: State<T, M>, t: ThreadId, errand: Errand<T, M>, missing: State<T, M>)
    requires Inv(hash, s) && Inv(hash, LookedUp(hash, s, t, errand, missing))
    requires errand.Offer? ==> Owns(PhaseOf(s, t), errand.candidate)
    requires hash(errand.value) !in s.store.table ==> Effect(s, missing, t)
    ensures Effect(s, LookedUp(hash, s, t, errand, missing), t)
  {
    var h := hash(errand.value);
    var r := LookedUp(hash, s, t, errand, missing);
    if h in s.store.table {
      assert InArena(s.store, s.store.table[h]);
      hide Inv, Effect;
      if ValueOf(s.store, s.store.table[h]) == errand.value {
        ReplyEffect(hash, s, r, t, Answer(errand, s.store.table[h]));
      } else {
        QuietEffect(s, r, t);
      }
    }
  }

  lemma ScanEffect<T(!new), M>(hash: T -> Hash, s: State<T, M>, t: ThreadId)
    requires Inv(hash, s) && Inv(hash, Acted(hash, s, t)) && PhaseOf(s, t).Scanning?
    ensures Effect(s, Acted(hash, s, t), t)
  {
    hide Effect, Valid, Refines, Legal;
    var errand, n := PhaseOf(s, t).errand, PhaseOf(s, t).n;
    var r := Acted(hash, s, t);
    assert PhaseHolds(hash, s.store, PhaseOf(s, t));
    hide Inv;
    if n != 0 && Matches(s.store, s.store.overflow[n - 1], hash(errand.value), errand.value) {
      ScanFrom(hash, s.store, errand.value, n, |s.store.overflow|);
      ReplyEffect(hash, s, r, t, Answer(errand, s.store.overflow[n - 1].id));
    } else if n == 0 && errand.Seek? {
      ReplyEffect(hash, s, r, t, Looked(errand.value, None));
    } else {
      hide NotFrom, Collides;
      QuietEffect(s, r, t);
    }
  }

  lemma ActEffect<T(!new), M>(hash: T -> Hash, s: State<T, M>, t: ThreadId)
    requires Inv(hash, s) && Inv(hash, Acted(hash, s, t)) && Enabled(s, Act(t))
    ensures Effect(s, Acted(hash, s, t), t)
  {
    hide Inv, Effect;
    var r := Acted(hash, s, t);
    var phase := PhaseOf(s, t);
    match phase
    case Looking(value, metadata) => {
      QuietEffect(s, Moved(s, t, Pushing(value, metadata)), t);
      LookEffect(hash, s, t, Add(value, metadata), Moved(s, t, Pushing(value, metadata)));
    }
    case Inserting(value, candidate) => {
      var missing := Replied(s.(store := Inserted(s.store, hash(value), candidate)), t, Interned(value, candidate));
      if hash(value) !in s.store.table {
        ReplyEffect(hash, s, missing, t, Interned(value, candidate));
      }
      LookEffect(hash, s, t, Offer(value, candidate), missing);
    }
    case Getting(value) => {
      var missing := Replied(s, t, Looked(value, None));
      if hash(value) !in s.store.table {
        ReplyEffect(hash, s, missing, t, Looked(value, None));
      }
      LookEffect(hash, s, t, Seek(value), missing);
    }
    case Scanning(_, _) => ScanEffect(hash, s, t);
    case Linking(value, candidate) => ReplyEffect(hash, s, r, t, Interned(value, candidate));
    case _ => QuietEffect(s, r, t);
  }

  lemma StepEffect<T(!new), M>(hash: T -> Hash, s: State<T, M>, step: Step<T, M>)
    requires Inv(hash, s) && Enabled(s, step)
    ensures Effect(s, Apply(hash, s, step), step.thread)
  {
    hide Inv, Effect;
    StepKeepsInv(hash, s, step);
    if step.Act? {
      ActEffect(hash, s, step.thread);
    } else {
      QuietEffect(s, Apply(hash, s, step), step.thread);
    }
  }

  lemma ReturnedInArena<T(!new), M>(hash: T -> Hash, s: State<T, M>, id: Id)
    requires Inv(hash, s) && Returned(s, id)
    ensures InArena(s.store, id)
  {
    var v :| v in Known(s.replies) && Known(s.replies)[v] == id;
    assert Find(hash, s.store, v) == Lookup(Known(s.replies), v);
    FindIsValue(hash, s.store, v);
  }

  lemma EffectKeepsOwners<T(!new), M>(hash: T -> Hash, s: State<T, M>, r: State<T, M>, t: ThreadId)
    requires Inv(hash, s) && OwnersHold(s) && Effect(s, r, t)
    ensures OwnersHold(r)
  {
    hide Inv, Returned, Owns;
    forall n: ThreadId, id: Id | Owns(PhaseOf(r, n), id)
      ensures InArena(r.store, id) && !Returned(r, id)
    {
      assert n != t ==> PhaseOf(r, n) == PhaseOf(s, n);
      if Returned(s, id) {
        ReturnedInArena(hash, s, id);
      }
    }
    forall n: ThreadId, m: ThreadId, id: Id | Owns(PhaseOf(r, n), id) && Owns(PhaseOf(r, m), id)
      ensures n == m
    {
      assert n != t ==> PhaseOf(r, n) == PhaseOf(s, n);
      assert m != t ==> PhaseOf(r, m) == PhaseOf(s, m);
    }
  }

  lemma EffectKeepsAbandoned<T, M>(s: State<T, M>, r: State<T, M>, t: ThreadId, id: Id)
    requires Effect(s, r, t) && Abandoned(s, id)
    ensures Abandoned(r, id)
  {
    hide Returned, Owns;
    forall n: ThreadId
      ensures !Owns(PhaseOf(r, n), id)
    {
      assert n != t ==> PhaseOf(r, n) == PhaseOf(s, n);
    }
  }

  lemma {:induction false} RunKeepsOwners<T(!new), M(!new)>(hash: T -> Hash, states: seq<State<T, M>>, k: nat)
    requires IsRun(hash, states) && k < |states|
    ensures OwnersHold(states[k])
  {
    if k != 0 {
      RunKeepsOwners(hash, states, k - 1);
      RunKeepsInv(hash, states, k - 1);
      assert StepAt(hash, states, k);
      var step :| Enabled(states[k - 1], step) && states[k] == Apply(hash, states[k - 1], step);
      hide Inv, Enabled, Apply, Effect, OwnersHold;
      StepEffect(hash, states[k - 1], step);
      EffectKeepsOwners(hash, states[k - 1], states[k], step.thread);
    }
  }

  // A slot whose owner gives it up without returning it is lost for ever: no call returns it.
  lemma {:induction false} RunNeverReturnsAbandoned<T(!new), M(!new)>(hash: T -> Hash, states: seq<State<T, M>>, k: nat, l: nat, id: Id, value: T)
    requires IsRun(hash, states) && k <= l < |states| && Abandoned(states[k], id)
    ensures Abandoned(states[l], id) && Interned(value, id) !in states[l].replies
  {
    if k < l {
      RunNeverReturnsAbandoned(hash, states, k, l - 1, id, value);
      RunKeepsInv(hash, states, l - 1);
      assert StepAt(hash, states, l);
      var step :| Enabled(states[l - 1], step) && states[l] == Apply(hash, states[l - 1], step);
      hide Inv, Enabled, Apply, Effect, Abandoned;
      StepEffect(hash, states[l - 1], step);
      EffectKeepsAbandoned(states[l - 1], states[l], step.thread, id);
    }
    AbandonedNotReturned(hash, states, l, id, value);
  }

  lemma AbandonedNotReturned<T(!new), M(!new)>(hash: T -> Hash, states: seq<State<T, M>>, l: nat, id: Id, value: T)
    requires IsRun(hash, states) && l < |states| && Abandoned(states[l], id)
    ensures Interned(value, id) !in states[l].replies
  {
    if Interned(value, id) in states[l].replies {
      RunIsLegal(hash, states, l);
      InternedIsKnown(states[l].replies, Interned(value, id));
      assert Returned(states[l], id);
    }
  }

  // A candidate that its owner lets go has been returned by it or is abandoned.
  lemma LosersAreAbandoned<T(!new), M(!new)>(hash: T -> Hash, states: seq<State<T, M>>, k: nat, t: ThreadId, id: Id)
    requires IsRun(hash, states) && k + 1 < |states|
    requires Owns(PhaseOf(states[k], t), id) && !Owns(PhaseOf(states[k + 1], t), id)
    ensures Returned(states[k + 1], id) || Abandoned(states[k + 1], id)
  {
    var s, r := states[k], states[k + 1];
    RunKeepsOwners(hash, states, k);
    RunKeepsInv(hash, states, k);
    assert StepAt(hash, states, k + 1);
    var step :| Enabled(s, step) && r == Apply(hash, s, step);
    hide Inv, Enabled, Apply, Owns, Returned;
    StepEffect(hash, s, step);
    forall n: ThreadId
      ensures !Owns(PhaseOf(r, n), id)
    {
      assert n != step.thread ==> PhaseOf(r, n) == PhaseOf(s, n);
    }
  }

  // ---------------------------------------------------------------- metadata

  // The value and the metadata that a thread has been given to intern, as its phase or the slot
  // that it has pushed remembers them.
  predicate Carries<T(==), M(==)>(store: Store<T, M>, phase: Phase<T, M>, value: T, metadata: M) {
    match phase
    case Looking(v, m) => v == value && m == metadata
    case Pushing(v, m) => v == value && m == metadata
    case Appending(v, m) => v == value && m == metadata
    case Inserting(_, id) => Holds(store, id, value, metadata)
    case Linking(_, id) => Holds(store, id, value, metadata)
    case Locking(errand) => ErrandCarries(store, errand, value, metadata)
    case Scanning(errand, _) => ErrandCarries(store, errand, value, metadata)
    case _ => false
  }

  predicate ErrandCarries<T(==), M(==)>(store: Store<T, M>, errand: Errand<T, M>, value: T, metadata: M) {
    match errand
    case Add(v, m) => v == value && m == metadata
    case Offer(_, id) => Holds(store, id, value, metadata)
    case Seek(_) => false
  }

  predicate Holds<T(==), M(==)>(store: Store<T, M>, id: Id, value: T, metadata: M) {
    InArena(store, id) && store.arena[id - 1] == Slot(value, metadata)
  }

  // At state `i`, the thread was called with the value and the metadata, and is busy ever since.
  predicate CalledAt<T(==), M(==)>(states: seq<State<T, M>>, i: nat, k: nat, t: ThreadId, value: T, metadata: M) {
    && i <= k < |states| && PhaseOf(states[i], t) == Looking(value, metadata)
    && forall x :: i <= x <= k ==> !PhaseOf(states[x], t).Idle?
  }

  ghost predicate Called<T, M>(states: seq<State<T, M>>, k: nat, t: ThreadId, value: T, metadata: M) {
    exists i :: CalledAt(states, i, k, t, value, metadata)
  }

  lemma LookCarries<T(!new), M(!new)>(hash: T -> Hash, s: State<T, M>, t: ThreadId, errand: Errand<T, M>, missing: State<T, M>, value: T, metadata: M)
    requires Carries(LookedUp(hash, s, t, errand, missing).store, PhaseOf(LookedUp(hash, s, t, errand, missing), t), value, metadata)
    requires Carries(missing.store, PhaseOf(missing, t), value, metadata) ==> ErrandCarries(s.store, errand, value, metadata)
    ensures ErrandCarries(s.store, errand, value, metadata)
  {
    hide Holds, InArena, ValueOf;
  }

  lemma ActCarries<T(!new), M(!new)>(hash: T -> Hash, s: State<T, M>, t: ThreadId, value: T, metadata: M)
    requires Carries(Acted(hash, s, t).store, PhaseOf(Acted(hash, s, t), t), value, metadata)
    ensures Carries(s.store, PhaseOf(s, t), value, metadata)
  {
    hide LookedUp, Scanned;
    match PhaseOf(s, t)
    case Looking(v, m) => LookCarries(hash, s, t, Add(v, m), Moved(s, t, Pushing(v, m)), value, metadata);
    case Inserting(v, id) =>
      var missing := Replied(s.(store := Inserted(s.store, hash(v), id)), t, Interned(v, id));
      LookCarries(hash, s, t, Offer(v, id), missing, value, metadata);
    case Getting(v) => LookCarries(hash, s, t, Seek(v), Replied(s, t, Looked(v, None)), value, metadata);
    case Scanning(errand, n) => ScanCarries(hash, s, t, errand, n, value, metadata);
    case _ =>
  }

  lemma ScanCarries<T(!new), M(!new)>(hash: T -> Hash, s: State<T, M>, t: ThreadId, errand: Errand<T, M>, n: nat, value: T, metadata: M)
    requires Carries(Scanned(hash, s, t, errand, n).store, PhaseOf(Scanned(hash, s, t, errand, n), t), value, metadata)
    ensures ErrandCarries(s.store, errand, value, metadata)
  {
    hide Holds, InArena, Matches;
  }

  // A phase that is kept carries the same in a later store.
  lemma CarriedBefore<T(!new), M(!new)>(hash: T -> Hash, s: State<T, M>, r: State<T, M>, phase: Phase<T, M>, value: T, metadata: M)
    requires PhaseHolds(hash, s.store, phase) && Grows(s.store, r.store) && Carries(r.store, phase, value, metadata)
    ensures Carries(s.store, phase, value, metadata)
  {
    hide Collides, NotFrom;
  }

  // What a thread carries at any time it was called with.
  lemma {:induction false} RunCarries<T(!new), M(!new)>(hash: T -> Hash, states: seq<State<T, M>>, k: nat, t: ThreadId, value: T, metadata: M)
    requires IsRun(hash, states) && k < |states| && Carries(states[k].store, PhaseOf(states[k], t), value, metadata)
    ensures Called(states, k, t, value, metadata)
  {
    hide Inv, IsRun, Carries, Grows;
    if PhaseOf(states[k], t) == Looking(value, metadata) {
      assert CalledAt(states, k, k, t, value, metadata);
    } else {
      CarriesLater(hash, states, k, t, value, metadata);
      RunCarries(hash, states, k - 1, t, value, metadata);
      var i :| CalledAt(states, i, k - 1, t, value, metadata);
      CarriesBusy(states[k].store, PhaseOf(states[k], t), value, metadata);
      assert CalledAt(states, i, k, t, value, metadata);
    }
  }

  lemma CarriesBusy<T(!new), M(!new)>(store: Store<T, M>, phase: Phase<T, M>, value: T, metadata: M)
    requires Carries(store, phase, value, metadata)
    ensures !phase.Idle?
  {
  }

  lemma CarriesLater<T(!new), M(!new)>(hash: T -> Hash, states: seq<State<T, M>>, k: nat, t: ThreadId, value: T, metadata: M)
    requires IsRun(hash, states) && k < |states| && Carries(states[k].store, PhaseOf(states[k], t), value, metadata)
    requires PhaseOf(states[k], t) != Looking(value, metadata)
    ensures k > 0 && Carries(states[k - 1].store, PhaseOf(states[k - 1], t), value, metadata)
  {
    hide Inv, Grows;
    if k > 0 {
      assert StepAt(hash, states, k);
      RunKeepsInv(hash, states, k - 1);
      StepGrows(hash, states[k - 1], states[k]);
      StepCarries(hash, states[k - 1], states[k], t, value, metadata);
    }
  }

  lemma StepCarries<T(!new), M(!new)>(hash: T -> Hash, s: State<T, M>, r: State<T, M>, t: ThreadId, value: T, metadata: M)
    requires Inv(hash, s) && Next(hash, s, r) && Grows(s.store, r.store)
    requires Carries(r.store, PhaseOf(r, t), value, metadata) && PhaseOf(r, t) != Looking(value, metadata)
    ensures Carries(s.store, PhaseOf(s, t), value, metadata)
  {
    var step :| Enabled(s, step) && r == Apply(hash, s, step);
    assert PhaseHolds(hash, s.store, PhaseOf(s, t));
    hide Inv, Grows, PhaseHolds, Acted, Enabled;
    if step.Act? && step.thread == t {
      ActCarries(hash, s, t, value, metadata);
    } else {
      if step.Act? {
        OthersStay(hash, s, step.thread, t);
      }
      assert step.thread != t ==> PhaseOf(r, t) == PhaseOf(s, t);
      if step.thread != t {
        CarriedBefore(hash, s, r, PhaseOf(s, t), value, metadata);
      }
    }
  }

  lemma OthersStay<T(!new), M(!new)>(hash: T -> Hash, s: State<T, M>, t: ThreadId, n: ThreadId)
    requires n != t
    ensures PhaseOf(Acted(hash, s, t), n) == PhaseOf(s, n)
  {
    hide Matches, InArena, ValueOf;
  }

  // The reply that makes a value known is that of a call that was given the metadata of its slot.
  // The slot keeps them for ever, whatever later calls for the value bring.
  lemma RunKeepsFirstMetadata<T(!new), M(!new)>(hash: T -> Hash, states: seq<State<T, M>>, k: nat, l: nat, value: T, id: Id)
    returns (t: ThreadId, metadata: M)
    requires IsRun(hash, states) && k < l < |states|
    requires states[k + 1].replies == states[k].replies + [Interned(value, id)] && value !in Known(states[k].replies)
    ensures Called(states, k, t, value, metadata) && PhaseOf(states[k + 1], t).Idle?
    ensures Holds(states[l].store, id, value, metadata)
  {
    var s, r := states[k], states[k + 1];
    RunKeepsInv(hash, states, k);
    RunIdsKeepSlots(hash, states, k + 1, l, Interned(value, id));
    metadata := states[k + 1].store.arena[id - 1].metadata;
    t := Publisher(hash, states, k, value, id);
    PublisherCarries(hash, states, k, t, value, id);
    RunCarries(hash, states, k, t, value, metadata);
  }

  // The thread that makes a value known had pushed its slot.
  lemma Publisher<T(!new), M(!new)>(hash: T -> Hash, states: seq<State<T, M>>, k: nat, value: T, id: Id) returns (t: ThreadId)
    requires IsRun(hash, states) && k + 1 < |states|
    requires states[k + 1].replies == states[k].replies + [Interned(value, id)] && value !in Known(states[k].replies)
    ensures Owns(PhaseOf(states[k], t), id) && PhaseOf(states[k + 1], t).Idle?
  {
    var s, r := states[k], states[k + 1];
    RunKeepsInv(hash, states, k);
    RunIsLegal(hash, states, k + 1);
    assert LegalReply(Known(s.replies), Interned(value, id)) by {
      assert r.replies[..|s.replies|] == s.replies && r.replies[|s.replies|] == Interned(value, id);
    }
    assert StepAt(hash, states, k + 1);
    var step :| Enabled(s, step) && r == Apply(hash, s, step);
    hide Inv, Legal, Known;
    StepEffect(hash, s, step);
    t := step.thread;
    KnownNow(s.replies, value, id);
    assert Returned(r, id) && !Returned(s, id);
    hide Owns, Returned, Effect;
    RepliesIdle(hash, s, step);
  }

  lemma KnownNow<T(!new)>(replies: seq<Reply<T>>, value: T, id: Id)
    ensures value in Known(replies + [Interned(value, id)]) && Known(replies + [Interned(value, id)])[value] == id
  {
    assert (replies + [Interned(value, id)])[..|replies|] == replies;
  }

  lemma RepliesIdle<T(!new), M(!new)>(hash: T -> Hash, s: State<T, M>, step: Step<T, M>)
    requires Apply(hash, s, step).replies != s.replies
    ensures PhaseOf(Apply(hash, s, step), step.thread).Idle?
  {
    hide Matches, InArena, ValueOf;
  }

  lemma PublisherCarries<T(!new), M(!new)>(hash: T -> Hash, states: seq<State<T, M>>, k: nat, t: ThreadId, value: T, id: Id)
    requires IsRun(hash, states) && k + 1 < |states| && Owns(PhaseOf(states[k], t), id)
    requires Interned(value, id) in states[k + 1].replies
    ensures InArena(states[k + 1].store, id)
    ensures Carries(states[k].store, PhaseOf(states[k], t), value, states[k + 1].store.arena[id - 1].metadata)
  {
    RunIdsKeepSlots(hash, states, k + 1, k + 1, Interned(value, id));
    RunKeepsOwners(hash, states, k);
    assert InArena(states[k].store, id);
    RunGrows(hash, states, k, k + 1);
  }

  // ---------------------------------------------------------------- running out of ids

  // A thread that has panicked found no id left.
  ghost predicate PanicsHold<T, M>(s: State<T, M>) {
    forall t: ThreadId :: PhaseOf(s, t).Panicked? ==> |s.store.arena| > MAX_ID
  }

  lemma ActPanics<T(!new), M(!new)>(hash: T -> Hash, s: State<T, M>, t: ThreadId)
    requires !PhaseOf(s, t).Panicked?
    ensures PhaseOf(Acted(hash, s, t), t).Panicked? <==>
            (PhaseOf(s, t).Pushing? || PhaseOf(s, t).Appending?) && |s.store.arena| >= MAX_ID
    ensures PhaseOf(Acted(hash, s, t), t).Panicked? ==> |Acted(hash, s, t).store.arena| > MAX_ID
  {
    hide Matches, InArena, ValueOf;
  }

  lemma StepPanics<T(!new), M(!new)>(hash: T -> Hash, s: State<T, M>, r: State<T, M>)
    requires PanicsHold(s) && Next(hash, s, r) && Grows(s.store, r.store)
    ensures PanicsHold(r)
  {
    hide Acted;
    var step :| Enabled(s, step) && r == Apply(hash, s, step);
    forall t: ThreadId | PhaseOf(r, t).Panicked?
      ensures |r.store.arena| > MAX_ID
    {
      if step.Act? && step.thread == t {
        ActPanics(hash, s, t);
      } else if step.Act? {
        OthersStay(hash, s, step.thread, t);
      }
      assert step.thread != t ==> PhaseOf(r, t) == PhaseOf(s, t);
    }
  }

  // A thread panics only when all ids are given out.
  lemma {:induction false} RunPanicsWhenFull<T(!new), M(!new)>(hash: T -> Hash, states: seq<State<T, M>>, k: nat)
    requires IsRun(hash, states) && k < |states|
    ensures PanicsHold(states[k])
  {
    hide Inv, Next, Grows;
    if k != 0 {
      RunPanicsWhenFull(hash, states, k - 1);
      assert StepAt(hash, states, k);
      RunKeepsInv(hash, states, k - 1);
      StepGrows(hash, states[k - 1], states[k]);
      StepPanics(hash, states[k - 1], states[k]);
    }
  }

  // ---------------------------------------------------------------- progress

  // A call that has begun can go on, or waits for the lock while its holder can.
  lemma RunMakesProgress<T(!new), M(!new)>(hash: T -> Hash, states: seq<State<T, M>>, k: nat, t: ThreadId)
    requires IsRun(hash, states) && k < |states| && !PhaseOf(states[k], t).Idle? && !PhaseOf(states[k], t).Panicked?
    ensures Enabled(states[k], Act(t)) ||
            (PhaseOf(states[k], t).Locking? && states[k].lock.Some? && Enabled(states[k], Act(states[k].lock.value)))
  {
    RunKeepsInv(hash, states, k);
    if states[k].lock.Some? {
      assert Locked(PhaseOf(states[k], states[k].lock.value));
    }
  }
}
