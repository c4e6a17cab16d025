/** The offline queue while the user keeps voting: enqueues interleaved with the
    separate steps of a flush, and where every vote ends up. */
module QueueRuns {
  import opened Options
  import opened Schema
  import opened OfflineQueues

  /** A running flush. `todo` is the unprocessed rest of its snapshot, `removing`
      a vote that was sent or expired but is not yet deleted from the store. */
  datatype Flush = Flush(now: int, todo: seq<nat>, removing: Option<nat>)

  /** Why a vote was deleted unsent: the flush meant to delete `culprit`, which it
      had read when only `taken` votes had been enqueued. */
  datatype Clobber = Clobber(culprit: nat, taken: nat)

  /** Votes are named by the order in which they were enqueued; the store holds names.
      `taken` is the number of votes enqueued when the last flush read the store, and
      `sent` lists the votes the server acknowledged. */
  datatype Queue = Queue(
    votes: seq<PendingVote>,
    store: map<Video, nat>,
    flush: Option<Flush>,
    taken: nat,
    sent: seq<nat>,
    expired: set<nat>,
    superseded: set<nat>,
    clobbered: map<nat, Clobber>)

  const START := Queue([], map[], None, 0, [], {}, {}, map[])

  /** The steps between which the extension may run other code. Send is an
      acknowledged submission and Fail any other outcome; Finish also covers a
      flush that ends early because the user id cannot be obtained. */
  datatype Event =
    | Enqueue(vote: PendingVote)
    | Begin(now: int, order: seq<nat>)
    | Expire
    | Send
    | Fail
    | Remove
    | Finish

  function VideoOf(q: Queue, id: nat): Video {
    if id < |q.votes| then q.votes[id].video else ""
  }

  /** The store holds this very vote, not another one on the same video. */
  predicate IsStored(q: Queue, id: nat) {
    id < |q.votes| && VideoOf(q, id) in q.store && q.store[VideoOf(q, id)] == id
  }

  /** order names each stored vote once. */
  ghost predicate Snapshot(q: Queue, order: seq<nat>) {
    && (forall id: nat :: id in order <==> IsStored(q, id))
    && (forall i, j :: 0 <= i < j < |order| ==> order[i] != order[j])
  }

  predicate Ready(q: Queue) {
    q.flush.Some? && q.flush.value.removing.None? && q.flush.value.todo != []
    && q.flush.value.todo[0] < |q.votes|
  }

  function Head(q: Queue): PendingVote
    requires Ready(q)
  {
    q.votes[q.flush.value.todo[0]]
  }

  ghost predicate Enabled(q: Queue, e: Event) {
    match e
    case Enqueue(_) => true
    // the isFlushing guard: a second flush does nothing
    case Begin(_, order) => q.flush.None? && Snapshot(q, order)
    case Expire => Ready(q) && TooOld(Head(q), q.flush.value.now)
    case Send => Ready(q) && !TooOld(Head(q), q.flush.value.now)
    case Fail => Ready(q) && !TooOld(Head(q), q.flush.value.now)
    case Remove => q.flush.Some? && q.flush.value.removing.Some? && q.flush.value.removing.value < |q.votes|
    case Finish => q.flush.Some? && q.flush.value.removing.None?
  }

  /** Put by key: a pending vote on the same video is replaced. */
  function Enqueued(q: Queue, vote: PendingVote): Queue {
    q.(votes := q.votes + [vote],
       store := q.store[vote.video := |q.votes|],
       superseded := q.superseded + if vote.video in q.store then {q.store[vote.video]} else {})
  }

  /** Delete by key: whatever is stored under the video goes. */
  function Removed(q: Queue, id: nat): Queue
    requires id < |q.votes|
  {
    var v := q.votes[id].video;
    q.(store := q.store - {v},
       clobbered := if v in q.store && q.store[v] != id then q.clobbered[q.store[v] := Clobber(id, q.taken)]
                    else q.clobbered)
  }

  ghost function Next(q: Queue, e: Event): Queue
    requires Enabled(q, e)
  {
    match e
    case Enqueue(vote) => Enqueued(q, vote)
    case Begin(now, order) => q.(flush := Some(Flush(now, order, None)), taken := |q.votes|)
    case Expire =>
      var f := q.flush.value;
      q.(expired := q.expired + {f.todo[0]}, flush := Some(f.(todo := f.todo[1..], removing := Some(f.todo[0]))))
    case Send =>
      var f := q.flush.value;
      q.(sent := q.sent + [f.todo[0]], flush := Some(f.(todo := f.todo[1..], removing := Some(f.todo[0]))))
    case Fail => q.(flush := None)
    case Remove => Removed(q, q.flush.value.removing.value).(flush := Some(q.flush.value.(removing := None)))
    case Finish => q.(flush := None)
  }

  // ---------- where a vote is ----------

  predicate IsSent(q: Queue, id: nat) { id in q.sent }

  predicate IsExpired(q: Queue, id: nat) { id in q.expired }

  predicate IsPending(q: Queue, id: nat) { IsStored(q, id) && id !in q.sent && id !in q.expired }

  predicate IsSuperseded(q: Queue, id: nat) { id in q.superseded && id !in q.sent && id !in q.expired }

  predicate IsClobbered(q: Queue, id: nat) { id in q.clobbered }

  /** Exactly one of the five. */
  predicate Accounted(q: Queue, id: nat) {
    [IsSent(q, id), IsExpired(q, id), IsPending(q, id), IsSuperseded(q, id), IsClobbered(q, id)]
    in [[true, false, false, false, false],
        [false, true, false, false, false],
        [false, false, true, false, false],
        [false, false, false, true, false],
        [false, false, false, false, true]]
  }

  // ---------- the invariant ----------

  predicate StoreInv(q: Queue) {
    && (forall v :: v in q.store ==> q.store[v] < |q.votes| && VideoOf(q, q.store[v]) == v)
    && q.taken <= |q.votes|
  }

  predicate InTodo(q: Queue, id: nat) {
    q.flush.Some? && id in q.flush.value.todo
  }

  predicate IsRemoving(q: Queue, id: nat) {
    q.flush.Some? && q.flush.value.removing == Some(id)
  }

  /** The votes of the snapshot that the running flush still has to delete. */
  predicate InHand(q: Queue, id: nat) {
    InTodo(q, id) || IsRemoving(q, id)
  }

  ghost predicate HandInv(q: Queue) {
    && (forall id: nat :: InHand(q, id) ==> id < q.taken)
    && (forall a: nat, b: nat :: InHand(q, a) && InHand(q, b) && VideoOf(q, a) == VideoOf(q, b) ==> a == b)
    && (forall id: nat :: InHand(q, id) && VideoOf(q, id) in q.store ==>
          q.store[VideoOf(q, id)] == id || q.store[VideoOf(q, id)] >= q.taken)
  }

  ghost predicate TodoInv(q: Queue) {
    && (q.flush.Some? ==>
          forall i, j :: 0 <= i < j < |q.flush.value.todo| ==> q.flush.value.todo[i] != q.flush.value.todo[j])
    && (forall id: nat :: InTodo(q, id) ==>
          !IsRemoving(q, id) && id !in q.sent && id !in q.expired && id !in q.clobbered)
    && (forall id: nat :: IsRemoving(q, id) ==> id in q.sent || id in q.expired)
  }

  predicate Known(q: Queue, id: nat) {
    id in q.sent || id in q.expired || IsStored(q, id) || id in q.superseded || id in q.clobbered
  }

  ghost predicate AllKnown(q: Queue) {
    forall id: nat :: id < |q.votes| ==> Known(q, id)
  }

  ghost predicate FateInv(q: Queue) {
    && (forall id :: id in q.sent ==> id < |q.votes| && id !in q.expired)
    && (forall id :: id in q.expired ==> id < |q.votes|)
    && (forall id: nat :: IsStored(q, id) ==> id !in q.superseded && id !in q.clobbered)
    && (forall id: nat :: IsStored(q, id) && (id in q.sent || id in q.expired) ==> IsRemoving(q, id))
    && (forall id :: id in q.superseded ==> id < |q.votes| && id !in q.clobbered)
  }

  /** A vote is clobbered only in place of an older vote on the same video that was
      sent or had expired, and only if it was enqueued after the flush read the store. */
  predicate FairlyClobbered(q: Queue, id: nat, c: Clobber) {
    && c.culprit < c.taken <= id < |q.votes|
    && VideoOf(q, c.culprit) == VideoOf(q, id)
    && (c.culprit in q.sent || c.culprit in q.expired)
    && id !in q.sent && id !in q.expired
  }

  ghost predicate ClobberInv(q: Queue) {
    forall id :: id in q.clobbered ==> FairlyClobbered(q, id, q.clobbered[id])
  }

  /** Of two queued votes on a video the older one is never acknowledged last. */
  predicate SentInOrder(q: Queue) {
    forall i, j :: 0 <= i < j < |q.sent| && VideoOf(q, q.sent[i]) == VideoOf(q, q.sent[j]) ==> q.sent[i] < q.sent[j]
  }

  ghost predicate SentBefore(q: Queue) {
    && (forall id :: id in q.sent && VideoOf(q, id) in q.store ==> id <= q.store[VideoOf(q, id)])
    && (forall id: nat, t: nat :: id in q.sent && InTodo(q, t) && VideoOf(q, id) == VideoOf(q, t) ==> id < t)
  }

  ghost predicate Inv(q: Queue) {
    && StoreInv(q) && HandInv(q) && TodoInv(q) && AllKnown(q) && FateInv(q)
    && ClobberInv(q) && SentInOrder(q) && SentBefore(q)
  }

  // ---------- single steps ----------

  /** The step changed nothing about the votes cast before it. */
  ghost predicate KeepsVotes(q: Queue, q': Queue) {
    |q.votes| <= |q'.votes| && forall id: nat :: id < |q.votes| ==> VideoOf(q', id) == VideoOf(q, id)
  }

  lemma EnqueueKeepsHand(q: Queue, vote: PendingVote)
    requires StoreInv(q) && HandInv(q)
    ensures var q' := Enqueued(q, vote); StoreInv(q') && HandInv(q')
  {
    var q' := Enqueued(q, vote);
    assert KeepsVotes(q, q');
    forall id: nat | InHand(q', id) ensures InHand(q, id) && id < q.taken && VideoOf(q', id) == VideoOf(q, id) {
      assert InHand(q, id);
    }
  }

  lemma EnqueueKeepsTodo(q: Queue, vote: PendingVote)
    requires TodoInv(q)
    ensures TodoInv(Enqueued(q, vote))
  {
    var q' := Enqueued(q, vote);
    assert forall id: nat :: InTodo(q', id) <==> InTodo(q, id);
    assert forall id: nat :: IsRemoving(q', id) <==> IsRemoving(q, id);
  }

  lemma EnqueueKeepsFate(q: Queue, vote: PendingVote)
    requires StoreInv(q) && AllKnown(q) && FateInv(q) && ClobberInv(q)
    ensures var q' := Enqueued(q, vote); AllKnown(q') && FateInv(q') && ClobberInv(q')
  {
    var q' := Enqueued(q, vote);
    assert KeepsVotes(q, q');
    forall id: nat | id < |q'.votes| ensures Known(q', id) {
      if id < |q.votes| { assert Known(q, id); }
    }
    assert forall id: nat :: IsStored(q', id) ==> id == |q.votes| || IsStored(q, id);
    assert forall id: nat :: IsRemoving(q', id) <==> IsRemoving(q, id);
  }

  lemma {:induction false} EnqueueKeepsOrder(q: Queue, vote: PendingVote)
    requires StoreInv(q) && HandInv(q) && FateInv(q) && SentInOrder(q) && SentBefore(q)
    ensures var q' := Enqueued(q, vote); SentInOrder(q') && SentBefore(q')
  {
    var q' := Enqueued(q, vote);
    assert KeepsVotes(q, q');
    assert forall id: nat :: InTodo(q', id) <==> InTodo(q, id);
    assert forall id: nat :: InTodo(q, id) ==> InHand(q, id);
    assert forall i :: 0 <= i < |q.sent| ==> q.sent[i] in q.sent;
  }

  /** What the flush is about to process is stored, and so neither sent nor expired. */
  lemma BeginTakesStored(q: Queue, now: int, order: seq<nat>)
    requires Inv(q) && Enabled(q, Begin(now, order))
    ensures var q' := Next(q, Begin(now, order));
            && KeepsVotes(q, q')
            && (forall id: nat :: !IsRemoving(q', id))
            && (forall id: nat :: IsStored(q', id) <==> IsStored(q, id))
            && (forall id: nat :: InTodo(q', id) <==> IsStored(q, id))
            && (forall id: nat :: IsStored(q, id) ==> id !in q.sent && id !in q.expired && id !in q.clobbered)
  {
    assert forall id: nat :: !IsRemoving(q, id);
  }

  lemma BeginKeepsHand(q: Queue, now: int, order: seq<nat>)
    requires Inv(q) && Enabled(q, Begin(now, order))
    ensures var q' := Next(q, Begin(now, order)); StoreInv(q') && HandInv(q') && TodoInv(q')
  {
    BeginTakesStored(q, now, order);
  }

  lemma BeginKeepsFate(q: Queue, now: int, order: seq<nat>)
    requires Inv(q) && Enabled(q, Begin(now, order))
    ensures var q' := Next(q, Begin(now, order)); AllKnown(q') && FateInv(q') && ClobberInv(q')
  {
    BeginTakesStored(q, now, order);
    forall id: nat | id < |q.votes| ensures Known(Next(q, Begin(now, order)), id) {
      assert Known(q, id);
    }
  }

  lemma BeginKeepsOrder(q: Queue, now: int, order: seq<nat>)
    requires Inv(q) && Enabled(q, Begin(now, order))
    ensures var q' := Next(q, Begin(now, order)); SentInOrder(q') && SentBefore(q')
  {
    BeginTakesStored(q, now, order);
  }

  lemma RemoveKeepsHand(q: Queue)
    requires Enabled(q, Remove) && StoreInv(q) && HandInv(q) && TodoInv(q) && ClobberInv(q)
    ensures var q' := Next(q, Remove); StoreInv(q') && HandInv(q') && TodoInv(q')
  {
    var q' := Next(q, Remove);
    var id := q.flush.value.removing.value;
    var v := VideoOf(q, id);
    assert IsRemoving(q, id) && InHand(q, id);
    assert KeepsVotes(q, q');
    assert forall x: nat :: InTodo(q', x) <==> InTodo(q, x);
    assert forall x: nat :: InHand(q', x) ==> InHand(q, x);
    assert v in q.store && q.store[v] != id ==> q.store[v] >= q.taken;
    assert forall x: nat :: InTodo(q, x) ==> InHand(q, x) && x < q.taken;
  }

  /** The deletion takes the removed vote or, if another one has replaced it, that one. */
  lemma RemoveTakes(q: Queue)
    requires Enabled(q, Remove) && StoreInv(q) && HandInv(q) && FateInv(q)
    ensures var q' := Next(q, Remove);
            var id := q.flush.value.removing.value;
            var v := VideoOf(q, id);
            && KeepsVotes(q, q')
            && (forall x: nat :: IsStored(q', x) <==> IsStored(q, x) && VideoOf(q, x) != v)
            && (forall x: nat :: IsStored(q, x) && VideoOf(q, x) == v && x != id ==> x in q'.clobbered && x >= q.taken)
            && (forall x :: x in q'.clobbered && x !in q.clobbered ==>
                  IsStored(q, x) && x != id && VideoOf(q, x) == v && q'.clobbered[x] == Clobber(id, q.taken))
            && (forall x :: x in q.clobbered ==> x in q'.clobbered && q'.clobbered[x] == q.clobbered[x])
  {
    assert IsRemoving(q, q.flush.value.removing.value) && InHand(q, q.flush.value.removing.value);
  }

  lemma RemoveKeepsKnown(q: Queue)
    requires Enabled(q, Remove) && StoreInv(q) && HandInv(q) && TodoInv(q) && FateInv(q) && AllKnown(q)
    ensures AllKnown(Next(q, Remove))
  {
    var q' := Next(q, Remove);
    RemoveTakes(q);
    assert IsRemoving(q, q.flush.value.removing.value);
    forall x: nat | x < |q'.votes| ensures Known(q', x) {
      assert Known(q, x);
    }
  }

  lemma RemoveKeepsFate(q: Queue)
    requires Enabled(q, Remove) && StoreInv(q) && HandInv(q) && FateInv(q)
    ensures FateInv(Next(q, Remove))
  {
    RemoveTakes(q);
    assert forall x: nat :: IsRemoving(q, x) ==> x == q.flush.value.removing.value;
  }

  lemma RemoveKeepsClobber(q: Queue)
    requires Enabled(q, Remove) && StoreInv(q) && HandInv(q) && TodoInv(q) && FateInv(q) && ClobberInv(q)
    ensures ClobberInv(Next(q, Remove))
  {
    var q' := Next(q, Remove);
    var id := q.flush.value.removing.value;
    RemoveTakes(q);
    assert IsRemoving(q, id) && InHand(q, id);
    forall x | x in q'.clobbered ensures FairlyClobbered(q', x, q'.clobbered[x]) {
      if x in q.clobbered {
        assert FairlyClobbered(q, x, q.clobbered[x]);
      } else {
        assert IsStored(q, x) && !IsRemoving(q, x);
      }
    }
  }

  lemma RemoveKeepsOrder(q: Queue)
    requires Enabled(q, Remove) && SentInOrder(q) && SentBefore(q)
    ensures var q' := Next(q, Remove); SentInOrder(q') && SentBefore(q')
  {
    var q' := Next(q, Remove);
    assert KeepsVotes(q, q');
    assert forall x: nat :: InTodo(q', x) <==> InTodo(q, x);
  }

  /** Taking the head of the snapshot moves it from todo to removing. */
  lemma TakeMovesHead(q: Queue, e: Event)
    requires Enabled(q, e) && (e.Expire? || e.Send?) && TodoInv(q)
    ensures var id := q.flush.value.todo[0];
            var q' := Next(q, e);
            && InTodo(q, id)
            && (forall x: nat :: InTodo(q', x) <==> InTodo(q, x) && x != id)
            && (forall x: nat :: IsRemoving(q', x) <==> x == id)
            && (forall x: nat :: !IsRemoving(q, x))
  {
  }

  lemma TakeKeepsHand(q: Queue, e: Event)
    requires Enabled(q, e) && (e.Expire? || e.Send?) && StoreInv(q) && HandInv(q) && TodoInv(q)
    ensures var q' := Next(q, e); StoreInv(q') && HandInv(q') && TodoInv(q')
  {
    var q' := Next(q, e);
    TakeMovesHead(q, e);
    assert KeepsVotes(q, q');
    assert forall x: nat :: InHand(q', x) ==> InHand(q, x);
  }

  lemma TakeKeepsFate(q: Queue, e: Event)
    requires Enabled(q, e) && (e.Expire? || e.Send?)
    requires StoreInv(q) && HandInv(q) && TodoInv(q) && AllKnown(q) && FateInv(q) && ClobberInv(q)
    ensures var q' := Next(q, e); AllKnown(q') && FateInv(q') && ClobberInv(q')
  {
    var q' := Next(q, e);
    TakeMovesHead(q, e);
    assert KeepsVotes(q, q');
    assert forall x: nat :: IsStored(q', x) <==> IsStored(q, x);
    forall x: nat | x < |q'.votes| ensures Known(q', x) {
      assert Known(q, x);
    }
  }

  lemma {:induction false} TakeKeepsOrder(q: Queue, e: Event)
    requires Enabled(q, e) && (e.Expire? || e.Send?)
    requires HandInv(q) && TodoInv(q) && SentInOrder(q) && SentBefore(q)
    ensures SentInOrder(Next(q, e))
  {
    TakeMovesHead(q, e);
    assert KeepsVotes(q, Next(q, e));
    assert forall i :: 0 <= i < |q.sent| ==> q.sent[i] in q.sent;
  }

  lemma TakeKeepsBefore(q: Queue, e: Event)
    requires Enabled(q, e) && (e.Expire? || e.Send?)
    requires HandInv(q) && TodoInv(q) && SentBefore(q)
    ensures SentBefore(Next(q, e))
  {
    var q' := Next(q, e);
    var id := q.flush.value.todo[0];
    TakeMovesHead(q, e);
    assert KeepsVotes(q, q');
    assert InHand(q, id);
    assert forall x: nat :: InTodo(q, x) ==> InHand(q, x);
    assert forall x :: x in q'.sent ==> x in q.sent || x == id;
  }

  lemma EndKeeps(q: Queue, e: Event)
    requires Inv(q) && Enabled(q, e) && (e.Fail? || e.Finish?)
    ensures Inv(Next(q, e))
  {
    var q' := Next(q, e);
    assert KeepsVotes(q, q');
    assert forall x: nat :: IsStored(q', x) <==> IsStored(q, x);
    assert forall x: nat :: !IsRemoving(q, x) && !InHand(q', x);
    forall x: nat | x < |q'.votes| ensures Known(q', x) {
      assert Known(q, x);
    }
  }

  lemma EnqueueKeeps(q: Queue, vote: PendingVote)
    requires Inv(q)
    ensures Inv(Enqueued(q, vote))
  {
    EnqueueKeepsHand(q, vote);
    EnqueueKeepsTodo(q, vote);
    EnqueueKeepsFate(q, vote);
    EnqueueKeepsOrder(q, vote);
  }

  lemma TakeKeeps(q: Queue, e: Event)
    requires Inv(q) && Enabled(q, e) && (e.Expire? || e.Send?)
    ensures Inv(Next(q, e))
  {
    TakeKeepsHand(q, e);
    TakeKeepsFate(q, e);
    TakeKeepsOrder(q, e);
    TakeKeepsBefore(q, e);
  }

  lemma RemoveKeeps(q: Queue)
    requires Inv(q) && Enabled(q, Remove)
    ensures Inv(Next(q, Remove))
  {
    RemoveKeepsHand(q);
    RemoveKeepsKnown(q);
    RemoveKeepsFate(q);
    RemoveKeepsClobber(q);
    RemoveKeepsOrder(q);
  }

  lemma StepKeepsInv(q: Queue, e: Event)
    requires Inv(q) && Enabled(q, e)
    ensures Inv(Next(q, e))
  {
    match e
    case Enqueue(vote) => EnqueueKeeps(q, vote);
    case Begin(now, order) =>
      BeginKeepsHand(q, now, order);
      BeginKeepsFate(q, now, order);
      BeginKeepsOrder(q, now, order);
    case Remove => RemoveKeeps(q);
    case Expire => TakeKeeps(q, e);
    case Send => TakeKeeps(q, e);
    case _ => EndKeeps(q, e);
  }

  // ---------- whole runs ----------

  ghost function After(events: seq<Event>): Queue
    requires Possible(events)
    decreases |events|, 1
  {
    if events == [] then START else Next(After(events[..|events| - 1]), events[|events| - 1])
  }

  ghost predicate Possible(events: seq<Event>)
    decreases |events|, 0
  {
    events != [] ==>
      Possible(events[..|events| - 1]) && Enabled(After(events[..|events| - 1]), events[|events| - 1])
  }

  lemma {:induction false} RunKeepsInv(events: seq<Event>)
    requires Possible(events)
    ensures Inv(After(events))
  {
    if events != [] {
      var init := events[..|events| - 1];
      RunKeepsInv(init);
      StepKeepsInv(After(init), events[|events| - 1]);
    }
  }

  /** Conservation: over every interleaving each enqueued vote is in exactly one
      of sent, expired, pending, superseded and clobbered. */
  lemma EveryVoteAccounted(events: seq<Event>, id: nat)
    requires Possible(events) && id < |After(events).votes|
    ensures Accounted(After(events), id)
  {
    RunKeepsInv(events);
    assert Known(After(events), id);
  }

  /** A vote is lost by clobbering only if it was enqueued after a flush had read
      the store and before that flush deleted an older vote on the same video. */
  lemma ClobberedOnlyDuringFlush(events: seq<Event>, id: nat)
    requires Possible(events) && id in After(events).clobbered
    ensures var q := After(events);
            var c := q.clobbered[id];
            && c.culprit < c.taken <= id < |q.votes|
            && q.votes[c.culprit].video == q.votes[id].video
            && (IsSent(q, c.culprit) || IsExpired(q, c.culprit))
  {
    RunKeepsInv(events);
  }

  /** Among the votes that went through the queue: per video they are acknowledged
      in the order in which they were enqueued, each once. */
  lemma QueuedVotesInOrder(events: seq<Event>, i: nat, j: nat)
    requires Possible(events) && i < j < |After(events).sent|
    ensures var q := After(events);
            && q.sent[i] < |q.votes| && q.sent[j] < |q.votes|
            && (q.votes[q.sent[i]].video == q.votes[q.sent[j]].video ==> q.sent[i] < q.sent[j])
            && q.sent[i] != q.sent[j]
  {
    RunKeepsInv(events);
    var q := After(events);
    assert q.sent[i] in q.sent && q.sent[j] in q.sent;
  }

  lemma OneMore(events: seq<Event>, e: Event)
    requires Possible(events) && Enabled(After(events), e)
    ensures Possible(events + [e]) && After(events + [e]) == Next(After(events), e)
  {
  }

  lemma ThreeMore(events: seq<Event>, a: Event, b: Event, c: Event)
    requires Possible(events) && Enabled(After(events), a) && Enabled(Next(After(events), a), b)
    requires Enabled(Next(Next(After(events), a), b), c)
    ensures Possible(events + [a, b, c])
    ensures After(events + [a, b, c]) == Next(Next(Next(After(events), a), b), c)
  {
    OneMore(events, a);
    OneMore(events + [a], b);
    OneMore(events + [a] + [b], c);
    assert events + [a] + [b] + [c] == events + [a, b, c];
  }

  /** A vote is being sent, and has been, but is not deleted yet. */
  lemma SendingExample(first: PendingVote)
    ensures var events: seq<Event> := [] + [Enqueue(first), Begin(first.timestamp, [0]), Send];
            && Possible(events)
            && After(events) == Queue([first], map[first.video := 0], Some(Flush(first.timestamp, [], Some(0))),
                                      1, [0], {}, {}, map[])
  {
    var order: seq<nat> := [0];
    var q1, q2 := Enqueued(START, first), Next(Enqueued(START, first), Begin(first.timestamp, order));
    assert q1 == Queue([first], map[first.video := 0], None, 0, [], {}, {}, map[]);
    assert order[1..] == [] && q2.sent + [0] == order;
    ThreeMore([], Enqueue(first), Begin(first.timestamp, order), Send);
  }

  /** Clobbering does happen: the user changes a vote while the old one is being
      sent, and the flush then deletes the new vote without sending it. */
  lemma ClobberExample(first: PendingVote, second: PendingVote)
    requires first.video == second.video
    ensures var events := [] + [Enqueue(first), Begin(first.timestamp, [0]), Send] + [Enqueue(second), Remove, Finish];
            && Possible(events)
            && After(events).sent == [0]
            && After(events).store == map[]
            && IsClobbered(After(events), 1)
  {
    SendingExample(first);
    ThreeMore([] + [Enqueue(first), Begin(first.timestamp, [0]), Send], Enqueue(second), Remove, Finish);
  }

  // ---------- a flush that nothing interrupts ----------

  ghost predicate PossibleFrom(q: Queue, events: seq<Event>)
    decreases |events|
  {
    events != [] ==> Enabled(q, events[0]) && PossibleFrom(Next(q, events[0]), events[1..])
  }

  ghost function From(q: Queue, events: seq<Event>): Queue
    requires PossibleFrom(q, events)
    decreases |events|
  {
    if events == [] then q else From(Next(q, events[0]), events[1..])
  }

  predicate Cast(votes: seq<PendingVote>, ids: seq<nat>) {
    forall i :: 0 <= i < |ids| ==> ids[i] < |votes|
  }

  function VotesOf(votes: seq<PendingVote>, ids: seq<nat>): seq<PendingVote>
    requires Cast(votes, ids)
  {
    if ids == [] then [] else [votes[ids[0]]] + VotesOf(votes, ids[1..])
  }

  /** The steps a flush takes over the listed votes when no other code runs in between. */
  function StepsFor(listing: seq<PendingVote>, now: int, accepts: PendingVote -> bool): seq<Event> {
    if listing == [] then [Finish]
    else if TooOld(listing[0], now) then [Expire, Remove] + StepsFor(listing[1..], now, accepts)
    else if accepts(listing[0]) then [Send, Remove] + StepsFor(listing[1..], now, accepts)
    else [Fail]
  }

  ghost predicate InHandStored(q: Queue, now: int, todo: seq<nat>) {
    && q.flush == Some(Flush(now, todo, None))
    && (forall i :: 0 <= i < |todo| ==> IsStored(q, todo[i]))
    && (forall i, j :: 0 <= i < j < |todo| ==> VideoOf(q, todo[i]) != VideoOf(q, todo[j]))
  }

  /** What the flush of `listing` made of q: its handled prefix left the store, the
      unexpired part of it was sent in order, and nothing was clobbered. */
  ghost predicate Flushed(q: Queue, q': Queue, listing: seq<PendingVote>, now: int, accepts: PendingVote -> bool) {
    var p := Handled(listing, now, accepts);
    && q'.flush.None? && q'.votes == q.votes && q'.clobbered == q.clobbered
    && q'.store == q.store - Videos(listing[..p])
    && |q.sent| <= |q'.sent| && q'.sent[..|q.sent|] == q.sent
    && Cast(q.votes, q'.sent[|q.sent|..])
    && VotesOf(q.votes, q'.sent[|q.sent|..]) == Current(listing[..p], now)
  }

  lemma {:induction false} CurrentCons(x: PendingVote, rest: seq<PendingVote>, now: int)
    ensures Current([x] + rest, now) == (if TooOld(x, now) then [] else [x]) + Current(rest, now)
  {
    if rest == [] {
      assert [x] + rest == [x];
      assert Current([x][..0], now) == [];
    } else {
      var n := |rest| - 1;
      assert ([x] + rest)[..|rest|] == [x] + rest[..n];
      CurrentCons(x, rest[..n], now);
    }
  }

  /** One vote taken and deleted, with the store as the flush read it. */
  lemma HandleOne(q: Queue, now: int, todo: seq<nat>, e: Event)
    requires InHandStored(q, now, todo) && todo != [] && (e.Expire? || e.Send?) && Enabled(q, e)
    ensures Enabled(Next(q, e), Remove)
    ensures var q' := Next(Next(q, e), Remove);
            var id := todo[0];
            && InHandStored(q', now, todo[1..])
            && q'.votes == q.votes && q'.clobbered == q.clobbered
            && q'.store == q.store - {q.votes[id].video}
            && q'.sent == q.sent + if e.Send? then [id] else []
  {
    var q' := Next(Next(q, e), Remove);
    assert IsStored(q, todo[0]);
    forall i | 0 <= i < |todo[1..]| ensures IsStored(q', todo[1..][i]) {
      assert IsStored(q, todo[i + 1]);
    }
  }

  lemma {:induction false} FlushRest(q: Queue, now: int, todo: seq<nat>, accepts: PendingVote -> bool)
    requires InHandStored(q, now, todo)
    ensures Cast(q.votes, todo)
    ensures var listing := VotesOf(q.votes, todo);
            var steps := StepsFor(listing, now, accepts);
            PossibleFrom(q, steps) && Flushed(q, From(q, steps), listing, now, accepts)
    decreases |todo|
  {
    forall i | 0 <= i < |todo| ensures todo[i] < |q.votes| {
      assert IsStored(q, todo[i]);
    }
    var listing := VotesOf(q.votes, todo);
    var steps := StepsFor(listing, now, accepts);
    if todo == [] || !Passes(listing[0], now, accepts) {
      assert steps[1..] == [];
    } else {
      var e := if TooOld(listing[0], now) then Expire else Send;
      var q' := Next(Next(q, e), Remove);
      HandleOne(q, now, todo, e);
      FlushRest(q', now, todo[1..], accepts);
      assert steps[0] == e && steps[1..][0] == Remove && steps[1..][1..] == StepsFor(listing[1..], now, accepts);
      HandledMore(q, q', From(q', steps[1..][1..]), now, todo, accepts);
    }
  }

  lemma HandledCons(x: PendingVote, rest: seq<PendingVote>, now: int, accepts: PendingVote -> bool)
    requires Passes(x, now, accepts)
    ensures var all := [x] + rest;
            var p := Handled(rest, now, accepts);
            && Handled(all, now, accepts) == p + 1
            && Videos(all[..p + 1]) == {x.video} + Videos(rest[..p])
            && Current(all[..p + 1], now) == (if TooOld(x, now) then [] else [x]) + Current(rest[..p], now)
  {
    var p := Handled(rest, now, accepts);
    assert ([x] + rest)[1..] == rest;
    assert ([x] + rest)[..p + 1] == [x] + rest[..p];
    CurrentCons(x, rest[..p], now);
  }

  lemma SuffixGrows(sent: seq<nat>, ids: seq<nat>, later: seq<nat>)
    requires |sent + ids| <= |later| && later[..|sent + ids|] == sent + ids
    ensures |sent| <= |later| && later[..|sent|] == sent && later[|sent|..] == ids + later[|sent + ids|..]
  {
    assert later == later[..|sent + ids|] + later[|sent + ids|..];
  }

  lemma VotesOfOneMore(votes: seq<PendingVote>, ids: seq<nat>, rest: seq<nat>)
    requires |ids| <= 1 && Cast(votes, ids) && Cast(votes, rest)
    ensures Cast(votes, ids + rest) && VotesOf(votes, ids + rest) == VotesOf(votes, ids) + VotesOf(votes, rest)
  {
    if |ids| == 1 {
      assert (ids + rest)[1..] == rest;
    } else {
      assert ids + rest == rest;
    }
  }

  /** The votes sent since q are one more, or none more, than those sent since q'. */
  lemma SentSince(votes: seq<PendingVote>, sent: seq<nat>, ids: seq<nat>, sent': seq<nat>, later: seq<nat>)
    requires sent' == sent + ids && |ids| <= 1 && Cast(votes, ids)
    requires |sent'| <= |later| && later[..|sent'|] == sent' && Cast(votes, later[|sent'|..])
    ensures |sent| <= |later| && later[..|sent|] == sent && Cast(votes, later[|sent|..])
    ensures VotesOf(votes, later[|sent|..]) == VotesOf(votes, ids) + VotesOf(votes, later[|sent'|..])
  {
    SuffixGrows(sent, ids, later);
    VotesOfOneMore(votes, ids, later[|sent'|..]);
  }

  lemma StoreAfterOne(store: map<Video, nat>, x: PendingVote, rest: set<Video>)
    ensures (store - {x.video}) - rest == store - ({x.video} + rest)
  {
  }

  lemma VotesOfCons(votes: seq<PendingVote>, ids: seq<nat>)
    requires ids != [] && Cast(votes, ids)
    ensures Cast(votes, ids[1..]) && VotesOf(votes, ids) == [votes[ids[0]]] + VotesOf(votes, ids[1..])
    ensures VotesOf(votes, [ids[0]]) == [votes[ids[0]]]
  {
  }

  lemma SentAfterOne(votes: seq<PendingVote>, sent: seq<nat>, id: nat, now: int, sent': seq<nat>, later: seq<nat>)
    requires id < |votes| && sent' == sent + if TooOld(votes[id], now) then [] else [id]
    requires |sent'| <= |later| && later[..|sent'|] == sent' && Cast(votes, later[|sent'|..])
    ensures |sent| <= |later| && later[..|sent|] == sent && Cast(votes, later[|sent|..])
    ensures VotesOf(votes, later[|sent|..])
         == (if TooOld(votes[id], now) then [] else [votes[id]]) + VotesOf(votes, later[|sent'|..])
  {
    SentSince(votes, sent, if TooOld(votes[id], now) then [] else [id], sent', later);
    VotesOfCons(votes, [id]);
  }

  lemma HandledMore(q: Queue, q': Queue, q2: Queue, now: int, todo: seq<nat>, accepts: PendingVote -> bool)
    requires todo != [] && Cast(q.votes, todo) && Passes(q.votes[todo[0]], now, accepts)
    requires q'.votes == q.votes && q'.clobbered == q.clobbered && q'.store == q.store - {q.votes[todo[0]].video}
    requires q'.sent == q.sent + if TooOld(q.votes[todo[0]], now) then [] else [todo[0]]
    requires Flushed(q', q2, VotesOf(q.votes, todo[1..]), now, accepts)
    ensures Flushed(q, q2, VotesOf(q.votes, todo), now, accepts)
  {
    var x, rest := q.votes[todo[0]], VotesOf(q.votes, todo[1..]);
    VotesOfCons(q.votes, todo);
    HandledCons(x, rest, now, accepts);
    StoreAfterOne(q.store, x, Videos(rest[..Handled(rest, now, accepts)]));
    SentAfterOne(q.votes, q.sent, todo[0], now, q'.sent, q2.sent);
  }

  /** Without interruption the separate steps do what the single call does: the
      same prefix leaves the store, the same votes are sent in the same order, and
      nothing is clobbered. */
  lemma UninterruptedFlush(q: Queue, now: int, order: seq<nat>, accepts: PendingVote -> bool)
    requires Inv(q) && Enabled(q, Begin(now, order))
    ensures Cast(q.votes, order)
    ensures var listing := VotesOf(q.votes, order);
            var steps := [Begin(now, order)] + StepsFor(listing, now, accepts);
            PossibleFrom(q, steps) && Flushed(q, From(q, steps), listing, now, accepts)
  {
    var q' := Next(q, Begin(now, order));
    forall i | 0 <= i < |order| ensures order[i] < |q.votes| && IsStored(q', order[i]) {
      assert order[i] in order && IsStored(q, order[i]);
    }
    var steps := StepsFor(VotesOf(q.votes, order), now, accepts);
    forall i, j | 0 <= i < j < |order| ensures VideoOf(q', order[i]) != VideoOf(q', order[j]) {
      assert IsStored(q', order[i]) && IsStored(q', order[j]);
    }
    FlushRest(q', now, order, accepts);
    assert ([Begin(now, order)] + steps)[1..] == steps;
  }

  // ---------- exactly when a vote is clobbered ----------

  /** The flush deletes this vote somewhere along the events. */
  ghost predicate Deletes(q: Queue, events: seq<Event>, id: nat)
    requires PossibleFrom(q, events)
    decreases |events|
  {
    events != [] && ((events[0].Remove? && IsRemoving(q, id)) || Deletes(Next(q, events[0]), events[1..], id))
  }

  predicate NoneOn(events: seq<Event>, v: Video) {
    forall i :: 0 <= i < |events| && events[i].Enqueue? ==> events[i].vote.video != v
  }

  /** A newer vote is stored while the flush still holds an older one on its video. */
  predicate Threatened(q: Queue, older: nat, id: nat) {
    && InHand(q, older) && IsStored(q, id) && older != id && VideoOf(q, older) == VideoOf(q, id)
    && id !in q.clobbered
  }

  /** The flush let go of the older vote without deleting it, or never will see it. */
  ghost predicate Safe(q: Queue, older: nat, id: nat) {
    && older != id && id < |q.votes| && older < |q.votes| && VideoOf(q, older) == VideoOf(q, id) && id !in q.clobbered
    && (VideoOf(q, id) in q.store ==> IsStored(q, id))
    && (forall x: nat :: InHand(q, x) && VideoOf(q, x) == VideoOf(q, id) ==> x == id)
  }

  /** Voting again on a video that the running flush still holds a vote of. */
  lemma EnqueueThreatens(q: Queue, vote: PendingVote, older: nat)
    requires Inv(q) && InHand(q, older) && VideoOf(q, older) == vote.video
    ensures Threatened(Next(q, Enqueue(vote)), older, |q.votes|)
  {
    var q' := Next(q, Enqueue(vote));
    assert InHand(q', older) && older < q.taken;
    EnqueueKeeps(q, vote);
    assert IsStored(q', |q.votes|);
  }

  lemma ThreatenedStep(q: Queue, e: Event, older: nat, id: nat)
    requires Inv(q) && Enabled(q, e) && Threatened(q, older, id)
    requires e.Enqueue? ==> e.vote.video != VideoOf(q, id)
    ensures var q' := Next(q, e);
            && VideoOf(q', id) == VideoOf(q, id)
            && (if e.Remove? && IsRemoving(q, older) then id in q'.clobbered
                else Threatened(q', older, id) || Safe(q', older, id))
  {
    var q' := Next(q, e);
    assert InHand(q, older) && older < q.taken && id < |q.votes|;
    match e
    case Remove => ThreatenedByRemove(q, older, id);
    case Expire => ThreatenedByTake(q, e, older, id);
    case Send => ThreatenedByTake(q, e, older, id);
    case Fail => assert forall x: nat :: !InHand(q', x);
    case Finish => assert forall x: nat :: !InHand(q', x);
    case Enqueue(_) => assert InHand(q', older);
    case Begin(_, _) =>
  }

  lemma ThreatenedByTake(q: Queue, e: Event, older: nat, id: nat)
    requires Inv(q) && Enabled(q, e) && (e.Expire? || e.Send?) && Threatened(q, older, id)
    ensures Threatened(Next(q, e), older, id) && VideoOf(Next(q, e), id) == VideoOf(q, id)
  {
    TakeMovesHead(q, e);
    assert forall x: nat :: !IsRemoving(q, x);
    assert InTodo(q, older);
  }

  lemma ThreatenedByRemove(q: Queue, older: nat, id: nat)
    requires Inv(q) && Enabled(q, Remove) && Threatened(q, older, id)
    ensures VideoOf(Next(q, Remove), id) == VideoOf(q, id)
    ensures if IsRemoving(q, older) then id in Next(q, Remove).clobbered else Threatened(Next(q, Remove), older, id)
  {
    var r := q.flush.value.removing.value;
    RemoveTakes(q);
    assert IsRemoving(q, r) && InHand(q, r);
    assert VideoOf(q, r) == VideoOf(q, older) ==> r == older;
    if !IsRemoving(q, older) {
      assert InTodo(q, older) && InTodo(Next(q, Remove), older);
      assert IsStored(Next(q, Remove), id);
    }
  }

  lemma SafeByRemove(q: Queue, older: nat, id: nat)
    requires Inv(q) && Enabled(q, Remove) && Safe(q, older, id)
    ensures Safe(Next(q, Remove), older, id) && VideoOf(Next(q, Remove), id) == VideoOf(q, id) && !IsRemoving(q, older)
  {
    var q' := Next(q, Remove);
    RemoveTakes(q);
    assert forall x: nat :: InHand(q', x) ==> InHand(q, x);
    assert IsRemoving(q, q.flush.value.removing.value) && InHand(q, q.flush.value.removing.value);
  }

  lemma SafeStep(q: Queue, e: Event, older: nat, id: nat)
    requires Inv(q) && Enabled(q, e) && Safe(q, older, id)
    requires e.Enqueue? ==> e.vote.video != VideoOf(q, id)
    ensures Safe(Next(q, e), older, id) && VideoOf(Next(q, e), id) == VideoOf(q, id)
    ensures !(e.Remove? && IsRemoving(q, older))
  {
    match e
    case Remove => SafeByRemove(q, older, id);
    case Begin(now, order) => BeginTakesStored(q, now, order);
    case _ =>
      if e.Expire? || e.Send? { TakeMovesHead(q, e); }
      assert forall x: nat :: InHand(Next(q, e), x) ==> InHand(q, x);
  }

  lemma {:induction false} SafeStaysSafe(q: Queue, events: seq<Event>, older: nat, id: nat)
    requires Inv(q) && PossibleFrom(q, events) && Safe(q, older, id) && NoneOn(events, VideoOf(q, id))
    ensures id !in From(q, events).clobbered && !Deletes(q, events, older)
    decreases |events|
  {
    if events != [] {
      var e, rest := events[0], events[1..];
      SafeStep(q, e, older, id);
      StepKeepsInv(q, e);
      assert forall i :: 0 <= i < |rest| ==> rest[i] == events[i + 1];
      SafeStaysSafe(Next(q, e), rest, older, id);
    }
  }

  lemma {:induction false} ClobberedStays(q: Queue, events: seq<Event>, id: nat)
    requires PossibleFrom(q, events) && id in q.clobbered
    ensures id in From(q, events).clobbered
    decreases |events|
  {
    if events != [] {
      ClobberedStays(Next(q, events[0]), events[1..], id);
    }
  }

  /** A vote cast while a flush holds an older vote on its video, and not replaced
      by a later one, is clobbered exactly when that flush gets to delete the older
      vote, whatever else happens. */
  lemma {:induction false} ClobberedIff(q: Queue, events: seq<Event>, older: nat, id: nat)
    requires Inv(q) && PossibleFrom(q, events) && Threatened(q, older, id) && NoneOn(events, VideoOf(q, id))
    ensures id in From(q, events).clobbered <==> Deletes(q, events, older)
    decreases |events|
  {
    if events != [] {
      var e, rest := events[0], events[1..];
      ThreatenedStep(q, e, older, id);
      StepKeepsInv(q, e);
      assert forall i :: 0 <= i < |rest| ==> rest[i] == events[i + 1];
      if e.Remove? && IsRemoving(q, older) {
        ClobberedStays(Next(q, e), rest, id);
      } else if Threatened(Next(q, e), older, id) {
        ClobberedIff(Next(q, e), rest, older, id);
      } else {
        SafeStaysSafe(Next(q, e), rest, older, id);
      }
    }
  }

  predicate IsHandled(q: Queue, id: nat) {
    IsSent(q, id) || IsExpired(q, id)
  }

  lemma {:induction false} HandledStays(q: Queue, events: seq<Event>, id: nat)
    requires PossibleFrom(q, events) && IsHandled(q, id)
    ensures IsHandled(From(q, events), id)
    decreases |events|
  {
    if events != [] {
      HandledStays(Next(q, events[0]), events[1..], id);
    }
  }

  /** A vote that the flush deletes was sent or had expired: so the newer vote is
      clobbered exactly if the older one is sent or expires and is then deleted. */
  lemma {:induction false} DeletedWasHandled(q: Queue, events: seq<Event>, id: nat)
    requires Inv(q) && PossibleFrom(q, events) && Deletes(q, events, id)
    ensures IsHandled(From(q, events), id)
    decreases |events|
  {
    if events[0].Remove? && IsRemoving(q, id) {
      HandledStays(q, events, id);
    } else {
      StepKeepsInv(q, events[0]);
      DeletedWasHandled(Next(q, events[0]), events[1..], id);
    }
  }
}
