/** What can still happen to a video after any moment of a session, and exactly when
    no older vote can come back. */
module ServerSafety {
  import opened Schema
  import opened OfflineQueues
  import opened QueueRuns
  import opened ServerOrder

  ghost predicate Follows(s: Session, actions: seq<Action>)
    decreases |actions|
  {
    actions != [] ==> CanDo(s, actions[0]) && Follows(Do(s, actions[0]), actions[1..])
  }

  ghost function Following(s: Session, actions: seq<Action>): Session
    requires Follows(s, actions)
    decreases |actions|
  {
    if actions == [] then s else Following(Do(s, actions[0]), actions[1..])
  }

  predicate NothingNewOn(actions: seq<Action>, v: Video) {
    forall i :: 0 <= i < |actions| && actions[i].Submit? ==> actions[i].video != v
  }

  predicate NoSubmits(actions: seq<Action>) {
    forall i :: 0 <= i < |actions| ==> !actions[i].Submit?
  }

  // ---------- what can still reach the server ----------

  /** The next votes up to and including the one on v have all expired, so the flush
      deletes them one after the other without a request. */
  predicate RunsInto(votes: seq<PendingVote>, todo: seq<nat>, now: int, v: Video) {
    todo != [] && todo[0] < |votes| && TooOld(votes[todo[0]], now)
    && (votes[todo[0]].video == v || RunsInto(votes, todo[1..], now, v))
  }

  /** The running flush deletes what is stored for v before anything can stop it. */
  predicate Doomed(q: Queue, v: Video) {
    q.flush.Some? && var f := q.flush.value;
    (f.removing.Some? && VideoOf(q, f.removing.value) == v) || RunsInto(q.votes, f.todo, f.now, v)
  }

  /** Nothing keeps the vote from being part of the next flush, unless a later one replaces it. */
  predicate StaysPending(q: Queue, id: nat) {
    IsPending(q, id) && !Doomed(q, VideoOf(q, id))
  }

  predicate Sendable(q: Queue, id: nat) {
    InTodo(q, id) && id < |q.votes| && !TooOld(q.votes[id], q.flush.value.now)
  }

  /** The running flush may still ask the server to take this vote: it has not expired,
      and the flush is not waiting for an answer to it, or for one that cannot come. */
  predicate FlushMaySend(s: Session, id: nat) {
    Sendable(s.queue, id)
    && (s.asked.Some? ==>
          CanRequest(s) && id != s.queue.flush.value.todo[0] && (InFlight(s, HeadNumber(s)) || TakenSinceAsked(s)))
  }

  predicate CanArrive(s: Session, n: nat) {
    n < |s.made| && (InFlight(s, n) || (n in s.ids && (FlushMaySend(s, s.ids[n]) || StaysPending(s.queue, s.ids[n]))))
  }

  /** The server is up to date on the video, at most one action on it can still arrive,
      and that one is the newest. */
  ghost predicate Safe(s: Session, v: Video) {
    && UpToDate(s.taken, v)
    && (forall n: nat :: CanArrive(s, n) && VideoOn(s, n) == v ==> !IsOlder(s, n))
    && (forall m: nat, n: nat ::
          CanArrive(s, m) && CanArrive(s, n) && VideoOn(s, m) == v && VideoOn(s, n) == v ==> m == n)
  }

  /** With no flush running, all that is unfinished can arrive. */
  lemma AtRestUnfinishedArrives(s: Session, n: nat)
    requires SessionInv(s) && s.queue.flush.None?
    ensures Unfinished(s, n) <==> CanArrive(s, n)
  {
  }

  lemma RunsIntoOld(votes: seq<PendingVote>, vote: PendingVote, todo: seq<nat>, now: int, v: Video)
    requires forall i :: 0 <= i < |todo| ==> todo[i] < |votes|
    ensures RunsInto(votes + [vote], todo, now, v) <==> RunsInto(votes, todo, now, v)
  {
  }

  lemma EnqueueFrees(q: Queue, vote: PendingVote, id: nat)
    requires Inv(q) && id < |q.votes|
    ensures StaysPending(Enqueued(q, vote), id) ==> StaysPending(q, id)
    ensures Sendable(Enqueued(q, vote), id) <==> Sendable(q, id)
  {
    if q.flush.Some? {
      var f := q.flush.value;
      assert forall i :: 0 <= i < |f.todo| ==> InHand(q, f.todo[i]);
      assert f.removing.Some? ==> InHand(q, f.removing.value);
      RunsIntoOld(q.votes, vote, f.todo, f.now, VideoOf(q, id));
    }
  }

  lemma RefuseArrives(s: Session, r: nat, timestamp: int, n: nat)
    requires SessionInv(s) && CanDo(s, Refuse(r, timestamp)) && CanArrive(Refused(s, r, timestamp), n)
    ensures CanArrive(s, n)
  {
    if n != r && !InFlight(s, n) {
      EnqueueFrees(s.queue, PendingVote(s.made[r].video, s.made[r].category.value, timestamp), s.ids[n]);
    }
  }

  /** The flush moves on from its first vote, sent or expired. */
  lemma MovingOnFrees(q: Queue, e: Event, id: nat)
    requires Inv(q) && Enabled(q, e) && (e.Expire? || e.Send?)
    ensures StaysPending(Next(q, e), id) ==> StaysPending(q, id)
    ensures Sendable(Next(q, e), id) ==> Sendable(q, id) && id != q.flush.value.todo[0]
  {
    var todo := q.flush.value.todo;
    assert todo == [todo[0]] + todo[1..];
  }

  /** No step of a flush saves a vote. */
  lemma StepFrees(q: Queue, e: Event, id: nat)
    requires Inv(q) && Enabled(q, e) && !e.Enqueue? && !e.Begin? && (e.Finish? ==> q.flush.value.todo == [])
    ensures StaysPending(Next(q, e), id) ==> StaysPending(q, id)
    ensures Sendable(Next(q, e), id) ==> Sendable(q, id)
  {
    match e
    case Remove => RemoveTakes(q);
    case Expire => MovingOnFrees(q, e, id);
    case Send => MovingOnFrees(q, e, id);
    case _ =>
  }

  lemma BeginFrees(q: Queue, now: int, order: seq<nat>, id: nat)
    requires Inv(q) && Enabled(q, Begin(now, order))
    requires StaysPending(Next(q, Begin(now, order)), id) || Sendable(Next(q, Begin(now, order)), id)
    ensures StaysPending(q, id)
  {
    BeginTakesStored(q, now, order);
  }

  lemma BeginArrives(s: Session, now: int, order: seq<nat>, n: nat)
    requires SessionInv(s) && CanDo(s, Step(Begin(now, order))) && CanArrive(Do(s, Step(Begin(now, order))), n)
    ensures CanArrive(s, n)
  {
    if !InFlight(s, n) { BeginFrees(s.queue, now, order, s.ids[n]); }
  }

  lemma StepArrives(s: Session, e: Event, n: nat)
    requires SessionInv(s) && CanDo(s, Step(e)) && CanArrive(Do(s, Step(e)), n)
    ensures CanArrive(s, n)
  {
    if e.Begin? {
      BeginArrives(s, e.now, e.order, n);
    } else if !InFlight(s, n) {
      StepFrees(s.queue, e, s.ids[n]);
      if e.Send? { MovingOnFrees(s.queue, e, s.ids[n]); }
    }
  }

  lemma RequestArrives(s: Session, n: nat)
    requires SessionInv(s) && CanDo(s, Request) && CanArrive(Do(s, Request), n)
    ensures CanArrive(s, n)
  {
    var id := s.queue.flush.value.todo[0];
    assert InTodo(s.queue, id) && FlushMaySend(s, id) && s.ids[HeadNumber(s)] == id;
  }

  lemma TakeArrives(s: Session, k: nat, n: nat)
    requires SessionInv(s) && CanDo(s, Take(k))
    ensures CanArrive(Do(s, Take(k)), n) <==> CanArrive(s, n)
  {
    var s' := Do(s, Take(k));
    if s.asked.Some? {
      var x := Taken(VideoOn(s, k), k);
      assert s'.taken[s.asked.value..] == s.taken[s.asked.value..] + [x];
      assert TakenSinceAsked(s') <==> TakenSinceAsked(s) || HeadNumber(s) == k;
    }
  }

  /** Nothing that happens lets an action arrive that could not before, except that the
      user takes a new one. */
  lemma NothingNewArrives(s: Session, a: Action, n: nat)
    requires SessionInv(s) && CanDo(s, a) && CanArrive(Do(s, a), n)
    ensures CanArrive(s, n) || (a.Submit? && n == |s.made| && VideoOn(Do(s, a), n) == a.video)
    ensures n < |s.made| ==> VideoOn(Do(s, a), n) == VideoOn(s, n)
  {
    match a
    case Step(e) => StepArrives(s, e, n);
    case Refuse(r, timestamp) => RefuseArrives(s, r, timestamp, n);
    case Request => RequestArrives(s, n);
    case Take(k) => TakeArrives(s, k, n);
    case _ =>
  }

  lemma SafeStays(s: Session, a: Action, v: Video)
    requires SessionInv(s) && CanDo(s, a) && Safe(s, v) && (a.Submit? ==> a.video != v)
    ensures Safe(Do(s, a), v)
  {
    var s' := Do(s, a);
    forall n: nat | CanArrive(s', n) && VideoOn(s', n) == v ensures CanArrive(s, n) && VideoOn(s, n) == v {
      NothingNewArrives(s, a, n);
    }
    if a.Take? {
      OneMoreTaken(s.taken, Taken(VideoOn(s, a.number), a.number), v);
      assert CanArrive(s, a.number);
      UpToDateAfter(s.taken, Taken(VideoOn(s, a.number), a.number), v);
    }
  }

  lemma UpToDateAfter(taken: seq<Taken>, x: Taken, v: Video)
    requires UpToDate(taken, v)
    ensures UpToDate(taken + [x], v) <==> (x.video == v ==> x.number >= Newest(taken, v))
  {
    OneMoreTaken(taken, x, v);
    NewestIsLargest(taken, v);
    NewestIsLargest(taken + [x], v);
    if Held(taken + [x], v).Some? { UpToDateIff(taken + [x], v); }
    if Held(taken, v).Some? { UpToDateIff(taken, v); }
  }

  lemma {:induction false} SafeForGood(s: Session, actions: seq<Action>, v: Video)
    requires SessionInv(s) && Safe(s, v) && Follows(s, actions) && NothingNewOn(actions, v)
    ensures UpToDate(Following(s, actions).taken, v)
    decreases |actions|
  {
    if actions != [] {
      var a, rest := actions[0], actions[1..];
      SafeStays(s, a, v);
      DoKeeps(s, a);
      assert forall i :: 0 <= i < |rest| ==> rest[i] == actions[i + 1];
      SafeForGood(Do(s, a), rest, v);
    }
  }

  lemma {:induction false} Enumerate(ids: set<nat>) returns (order: seq<nat>)
    ensures (forall id :: id in order <==> id in ids) && forall i, j :: 0 <= i < j < |order| ==> order[i] != order[j]
    decreases ids
  {
    if ids == {} {
      order := [];
    } else {
      var id :| id in ids;
      var rest := Enumerate(ids - {id});
      order := [id] + rest;
      assert forall i :: 0 <= i < |rest| ==> rest[i] in rest;
    }
  }

  /** The store can be read with any of its votes first. */
  lemma SnapshotFrom(q: Queue, id: nat) returns (order: seq<nat>)
    requires IsStored(q, id)
    ensures Snapshot(q, order) && order != [] && order[0] == id
  {
    var stored := set x: nat | x < |q.votes| && IsStored(q, x);
    var rest := Enumerate(stored - {id});
    order := [id] + rest;
    assert forall i :: 0 <= i < |rest| ==> rest[i] in rest;
  }

  /** s' is s after the server took n, up to the state of the queue's flush. */
  ghost predicate JustTook(s: Session, s': Session, n: nat) {
    && SessionInv(s') && s'.made == s.made && s'.taken == s.taken + [Taken(VideoOn(s, n), n)]
    && (forall m: nat :: InFlight(s, m) ==> InFlight(s', m))
  }

  lemma OneFollows(s: Session, a: Action)
    requires CanDo(s, a)
    ensures Follows(s, [a]) && Following(s, [a]) == Do(s, a)
  {
    assert [a][1..] == [];
    assert Follows(Do(s, a), []);
  }

  lemma ThreeFollow(s: Session, a: Action, b: Action, c: Action)
    requires CanDo(s, a) && CanDo(Do(s, a), b) && CanDo(Do(Do(s, a), b), c)
    ensures Follows(s, [a, b, c]) && Following(s, [a, b, c]) == Do(Do(Do(s, a), b), c)
  {
    OneFollows(Do(Do(s, a), b), c);
    assert [a, b, c][1..] == [b, c] && [b, c][1..] == [c];
  }

  lemma {:induction false} FollowsConcat(s: Session, a: seq<Action>, b: seq<Action>)
    requires Follows(s, a) && Follows(Following(s, a), b)
    ensures Follows(s, a + b) && Following(s, a + b) == Following(Following(s, a), b)
    decreases |a|
  {
    if a == [] {
      assert a + b == b;
    } else {
      FollowsConcat(Do(s, a[0]), a[1..], b);
      assert (a + b)[1..] == a[1..] + b;
    }
  }

  lemma FlushAsksFor(s: Session, n: nat, order: seq<nat>)
    requires SessionInv(s) && s.queue.flush.None? && n in s.ids && IsPending(s.queue, s.ids[n])
    requires Snapshot(s.queue, order) && order != [] && order[0] == s.ids[n]
    ensures var begin := Step(Begin(s.queue.votes[s.ids[n]].timestamp, order));
            CanDo(s, begin) && CanDo(Do(s, begin), Request) && HeadNumber(Do(s, begin)) == n
  {
  }

  lemma AskedCanBeTaken(s: Session, s1: Session, n: nat)
    requires SessionInv(s1) && s1.made == s.made && s1.taken == s.taken && s1.awaiting == s.awaiting
          && s1.lingering == s.lingering
    requires CanDo(s1, Request) && HeadNumber(s1) == n
    ensures CanDo(Do(s1, Request), Take(n)) && JustTook(s, Do(Do(s1, Request), Take(n)), n)
  {
    DoKeeps(s1, Request);
    RequestKeeps(s1);
    DoKeeps(Do(s1, Request), Take(n));
  }

  /** With no flush running, the server can be made to take any unfinished action next. */
  lemma CanBeTaken(s: Session, n: nat) returns (actions: seq<Action>)
    requires SessionInv(s) && Unfinished(s, n) && (InFlight(s, n) || s.queue.flush.None?)
    ensures Follows(s, actions) && NoSubmits(actions) && Take(n) in actions
    ensures JustTook(s, Following(s, actions), n)
    ensures InFlight(s, n) ==> Following(s, actions).queue == s.queue && Following(s, actions).ids == s.ids
  {
    if InFlight(s, n) {
      actions := [Take(n)];
      OneFollows(s, Take(n));
      DoKeeps(s, Take(n));
    } else {
      actions := PendingCanBeTaken(s, n);
    }
  }

  /** The flush that begins so asks the server to take n first. */
  ghost predicate Asks(s: Session, begin: Event, n: nat) {
    begin.Begin? && CanDo(s, Step(begin)) && CanDo(Do(s, Step(begin)), Request) && HeadNumber(Do(s, Step(begin))) == n
  }

  lemma SomeFlushAsksFor(s: Session, n: nat) returns (begin: Event)
    requires SessionInv(s) && s.queue.flush.None? && n < |s.made| && n in s.ids && Waiting(s.queue, s.ids[n])
    ensures Asks(s, begin, n)
  {
    var order := SnapshotFrom(s.queue, s.ids[n]);
    begin := Begin(s.queue.votes[s.ids[n]].timestamp, order);
    FlushAsksFor(s, n, order);
  }

  lemma PendingCanBeTaken(s: Session, n: nat) returns (actions: seq<Action>)
    requires SessionInv(s) && s.queue.flush.None? && n < |s.made| && n in s.ids && Waiting(s.queue, s.ids[n])
    ensures Follows(s, actions) && NoSubmits(actions) && Take(n) in actions
    ensures JustTook(s, Following(s, actions), n)
  {
    var begin := SomeFlushAsksFor(s, n);
    BegunCanBeTaken(s, n, begin);
    actions := [Step(begin), Request, Take(n)];
    assert actions[2] == Take(n);
  }

  lemma BegunCanBeTaken(s: Session, n: nat, begin: Event)
    requires SessionInv(s) && Asks(s, begin, n)
    ensures Follows(s, [Step(begin), Request, Take(n)])
    ensures JustTook(s, Following(s, [Step(begin), Request, Take(n)]), n)
  {
    FlushBegun(s, begin);
    AskedCanBeTaken(s, Do(s, Step(begin)), n);
    ThreeFollow(s, Step(begin), Request, Take(n));
  }

  lemma FlushBegun(s: Session, begin: Event)
    requires SessionInv(s) && begin.Begin? && CanDo(s, Step(begin))
    ensures var s1 := Do(s, Step(begin));
            && SessionInv(s1) && s1.made == s.made && s1.taken == s.taken
            && s1.awaiting == s.awaiting && s1.lingering == s.lingering
  {
    DoKeeps(s, Step(begin));
  }

  lemma TakenOutOfDate(s: Session, s': Session, n: nat)
    requires JustTook(s, s', n) && IsOlder(s, n)
    ensures !UpToDate(s'.taken, VideoOn(s, n))
  {
    OneMoreTaken(s.taken, Taken(VideoOn(s, n), n), VideoOn(s, n));
    UpToDateIff(s'.taken, VideoOn(s, n));
  }

  lemma OneUnfinishedPending(s: Session, m: nat, n: nat)
    requires SessionInv(s) && s.queue.flush.None? && Unfinished(s, m) && Unfinished(s, n) && m != n
    requires VideoOn(s, m) == VideoOn(s, n)
    ensures InFlight(s, m) || InFlight(s, n)
  {
    assert !InFlight(s, m) ==> IsStored(s.queue, s.ids[m]) && s.names[s.ids[m]] == m;
    assert !InFlight(s, n) ==> IsStored(s.queue, s.ids[n]) && s.names[s.ids[n]] == n;
  }

  lemma StaysUnfinished(s: Session, s1: Session, older: nat, newer: nat)
    requires SessionInv(s) && s.queue.flush.None? && Unfinished(s, older) && JustTook(s, s1, newer)
    requires InFlight(s, older) || (InFlight(s, newer) && s1.queue == s.queue && s1.ids == s.ids)
    ensures Unfinished(s1, older) && (InFlight(s1, older) || s1.queue.flush.None?)
  {
  }

  lemma NowOlder(s: Session, s1: Session, older: nat, newer: nat)
    requires JustTook(s, s1, newer) && older < newer && VideoOn(s, older) == VideoOn(s, newer)
    ensures IsOlder(s1, older) && VideoOn(s1, older) == VideoOn(s, newer)
  {
    OneMoreTaken(s.taken, Taken(VideoOn(s, newer), newer), VideoOn(s, newer));
  }

  // ---------- every running flush can be brought to a stop ----------

  /** s1 comes after s, and has lost nothing that could arrive on v and taken nothing on it. */
  ghost predicate Keeps(s: Session, s1: Session, v: Video) {
    && SessionInv(s1) && s1.made == s.made && Newest(s1.taken, v) == Newest(s.taken, v)
    && (forall n: nat :: CanArrive(s, n) && VideoOn(s, n) == v ==> CanArrive(s1, n))
  }

  function Restlessness(s: Session): nat {
    match s.queue.flush
    case None => 0
    case Some(f) =>
      1 + 4 * |f.todo| + (if f.removing.Some? then 1 else 0)
      + (if TakenSinceAsked(s) then 0 else if s.asked.Some? then 1 else 2)
  }

  lemma DeletingKeeps(q: Queue, e: Event, id: nat)
    requires Inv(q) && Enabled(q, e) && (e.Remove? || e.Expire? || e.Fail? || (e.Finish? && q.flush.value.todo == []))
    ensures StaysPending(q, id) ==> StaysPending(Next(q, e), id)
    ensures Sendable(q, id) && !e.Fail? ==> Sendable(Next(q, e), id)
  {
    match e
    case Remove => RemoveTakes(q);
    case _ =>
  }

  /** With nothing asked for, deleting and dropping expired votes loses nothing that could arrive. */
  lemma QuietStepKeeps(s: Session, e: Event, v: Video)
    requires SessionInv(s) && CanDo(s, Step(e)) && s.asked.None? && (e.Remove? || e.Expire? || e.Finish?)
    ensures Keeps(s, Do(s, Step(e)), v) && Restlessness(Do(s, Step(e))) < Restlessness(s)
  {
    DoKeeps(s, Step(e));
    forall n: nat | CanArrive(s, n) && !InFlight(s, n) ensures CanArrive(Do(s, Step(e)), n) {
      DeletingKeeps(s.queue, e, s.ids[n]);
    }
  }

  lemma RequestLoses(s: Session, v: Video)
    requires SessionInv(s) && CanDo(s, Request)
    ensures Keeps(s, Do(s, Request), v) && Restlessness(Do(s, Request)) < Restlessness(s)
  {
    DoKeeps(s, Request);
    var s1 := Do(s, Request);
    assert InFlight(s1, HeadNumber(s)) && !TakenSinceAsked(s1);
    assert forall n: nat :: n in s.ids && s.ids[n] == s.queue.flush.value.todo[0] ==> n == HeadNumber(s);
  }

  /** The flush still comes to a vote on v that has not expired. */
  ghost predicate MayReach(s: Session, v: Video) {
    exists id: nat :: FlushMaySend(s, id) && VideoOf(s.queue, id) == v
  }

  lemma FailKeeps(s: Session, v: Video)
    requires SessionInv(s) && s.asked.Some? && !MayReach(s, v)
    ensures CanDo(s, Step(Fail)) && Keeps(s, Do(s, Step(Fail)), v)
    ensures Restlessness(Do(s, Step(Fail))) < Restlessness(s)
  {
    DoKeeps(s, Step(Fail));
    forall n: nat | CanArrive(s, n) && VideoOn(s, n) == v && !InFlight(s, n) ensures CanArrive(Do(s, Step(Fail)), n) {
      assert VideoOf(s.queue, s.ids[n]) == v;
      DeletingKeeps(s.queue, Fail, s.ids[n]);
    }
  }

  lemma HeadIsElsewhere(s: Session, v: Video)
    requires SessionInv(s) && s.asked.Some? && MayReach(s, v)
    ensures VideoOf(s.queue, s.queue.flush.value.todo[0]) != v && VideoOn(s, HeadNumber(s)) != v
  {
    var id: nat :| FlushMaySend(s, id) && VideoOf(s.queue, id) == v;
    assert InHand(s.queue, id) && InHand(s.queue, s.queue.flush.value.todo[0]);
  }

  lemma TakeElsewhereKeeps(s: Session, k: nat, v: Video)
    requires SessionInv(s) && CanDo(s, Take(k)) && VideoOn(s, k) != v
    ensures Keeps(s, Do(s, Take(k)), v)
  {
    DoKeeps(s, Take(k));
    OneMoreTaken(s.taken, Taken(VideoOn(s, k), k), v);
    forall n: nat | CanArrive(s, n) ensures CanArrive(Do(s, Take(k)), n) {
      TakeArrives(s, k, n);
    }
  }

  lemma TakeHeadCalms(s: Session)
    requires SessionInv(s) && s.asked.Some? && InFlight(s, HeadNumber(s))
    ensures CanDo(s, Take(HeadNumber(s))) && TakenSinceAsked(Do(s, Take(HeadNumber(s))))
  {
    var x := Taken(VideoOn(s, HeadNumber(s)), HeadNumber(s));
    assert (s.taken + [x])[s.asked.value..] == s.taken[s.asked.value..] + [x];
  }

  lemma TakeHeadKeeps(s: Session, v: Video)
    requires SessionInv(s) && s.asked.Some? && MayReach(s, v) && !TakenSinceAsked(s)
    ensures CanDo(s, Take(HeadNumber(s))) && Keeps(s, Do(s, Take(HeadNumber(s))), v)
    ensures Restlessness(Do(s, Take(HeadNumber(s)))) < Restlessness(s)
  {
    HeadIsElsewhere(s, v);
    TakeHeadCalms(s);
    TakeElsewhereKeeps(s, HeadNumber(s), v);
  }

  lemma FreshVoteStops(votes: seq<PendingVote>, todo: seq<nat>, now: int, id: nat)
    requires id in todo && id < |votes| && !TooOld(votes[id], now)
    requires forall x: nat :: x in todo && x < |votes| && votes[x].video == votes[id].video ==> x == id
    ensures !RunsInto(votes, todo, now, votes[id].video)
  {
    if todo[0] != id {
      assert todo == [todo[0]] + todo[1..];
      FreshVoteStops(votes, todo[1..], now, id);
    }
  }

  lemma SendingKeeps(q: Queue, x: nat, id: nat)
    requires Inv(q) && Enabled(q, Send) && Sendable(q, x) && x != q.flush.value.todo[0]
    ensures Sendable(q, id) && id != q.flush.value.todo[0] ==> Sendable(Next(q, Send), id)
    ensures StaysPending(q, id) && VideoOf(q, id) == VideoOf(q, x) && id != q.flush.value.todo[0] ==>
              StaysPending(Next(q, Send), id)
  {
    var f := q.flush.value;
    assert f.todo == [f.todo[0]] + f.todo[1..];
    assert InHand(q, f.todo[0]) && InHand(q, x);
    forall y: nat | y in f.todo[1..] && y < |q.votes| && q.votes[y].video == q.votes[x].video ensures y == x {
      assert InHand(q, y) && VideoOf(q, y) == VideoOf(q, x);
    }
    FreshVoteStops(q.votes, f.todo[1..], f.now, x);
  }

  lemma SendLosesNothing(s: Session, x: nat, n: nat)
    requires Inv(s.queue) && NamesInv(s) && TakenSinceAsked(s) && FlushMaySend(s, x)
    requires CanArrive(s, n) && VideoOn(s, n) == VideoOf(s.queue, x)
    requires VideoOf(s.queue, s.queue.flush.value.todo[0]) != VideoOn(s, n)
    ensures CanArrive(Do(s, Step(Send)), n)
  {
    if !InFlight(s, n) {
      assert VideoOf(s.queue, s.ids[n]) == VideoOn(s, n);
      SendingKeeps(s.queue, x, s.ids[n]);
    }
  }

  lemma SendKeeps(s: Session, v: Video)
    requires SessionInv(s) && MayReach(s, v) && TakenSinceAsked(s)
    ensures CanDo(s, Step(Send)) && Keeps(s, Do(s, Step(Send)), v)
    ensures Restlessness(Do(s, Step(Send))) < Restlessness(s)
  {
    HeadIsElsewhere(s, v);
    DoKeeps(s, Step(Send));
    var x: nat :| FlushMaySend(s, x) && VideoOf(s.queue, x) == v;
    forall n: nat | CanArrive(s, n) && VideoOn(s, n) == v ensures CanArrive(Do(s, Step(Send)), n) {
      SendLosesNothing(s, x, n);
    }
  }

  lemma CalmingAction(s: Session, v: Video) returns (a: Action)
    requires SessionInv(s) && s.queue.flush.Some?
    ensures CanDo(s, a) && !a.Submit? && Keeps(s, Do(s, a), v) && Restlessness(Do(s, a)) < Restlessness(s)
  {
    var f := s.queue.flush.value;
    if s.asked.Some? {
      if !MayReach(s, v) {
        a := Step(Fail);
        FailKeeps(s, v);
      } else if TakenSinceAsked(s) {
        a := Step(Send);
        SendKeeps(s, v);
      } else {
        a := Take(HeadNumber(s));
        TakeHeadKeeps(s, v);
      }
    } else {
      a := QuietAction(s);
      if a.Request? { RequestLoses(s, v); } else { QuietStepKeeps(s, a.event, v); }
    }
  }

  lemma QuietAction(s: Session) returns (a: Action)
    requires SessionInv(s) && s.queue.flush.Some? && s.asked.None?
    ensures CanDo(s, a) && (a.Request? || (a.Step? && (a.event.Remove? || a.event.Expire? || a.event.Finish?)))
  {
    var f := s.queue.flush.value;
    if f.removing.Some? {
      assert InHand(s.queue, f.removing.value);
      a := Step(Remove);
    } else if f.todo == [] {
      a := Step(Finish);
    } else {
      assert InHand(s.queue, f.todo[0]);
      a := if TooOld(s.queue.votes[f.todo[0]], f.now) then Step(Expire) else Request;
    }
  }

  lemma {:induction false} CanCalmDown(s: Session, v: Video) returns (actions: seq<Action>)
    requires SessionInv(s)
    ensures Follows(s, actions) && NoSubmits(actions)
    ensures Keeps(s, Following(s, actions), v) && Following(s, actions).queue.flush.None?
    decreases Restlessness(s)
  {
    if s.queue.flush.None? {
      actions := [];
    } else {
      var a := CalmingAction(s, v);
      var rest := CanCalmDown(Do(s, a), v);
      OneFollows(s, a);
      FollowsConcat(s, [a], rest);
      actions := [a] + rest;
    }
  }

  lemma TakenLastUnsafe(s: Session, older: nat) returns (actions: seq<Action>)
    requires SessionInv(s) && Unfinished(s, older) && (InFlight(s, older) || s.queue.flush.None?) && IsOlder(s, older)
    ensures Follows(s, actions) && NoSubmits(actions)
    ensures !UpToDate(Following(s, actions).taken, VideoOn(s, older))
  {
    actions := CanBeTaken(s, older);
    TakenOutOfDate(s, Following(s, actions), older);
  }

  /** Two unfinished actions on a video: the server can take the newer one, then the older one. */
  lemma TwoUnfinishedUnsafe(s: Session, older: nat, newer: nat) returns (actions: seq<Action>)
    requires SessionInv(s) && s.queue.flush.None? && Unfinished(s, older) && Unfinished(s, newer) && older < newer
    requires VideoOn(s, older) == VideoOn(s, newer)
    ensures Follows(s, actions) && NoSubmits(actions)
    ensures !UpToDate(Following(s, actions).taken, VideoOn(s, newer))
  {
    OneUnfinishedPending(s, older, newer);
    var first := CanBeTaken(s, newer);
    var s1 := Following(s, first);
    StaysUnfinished(s, s1, older, newer);
    NowOlder(s, s1, older, newer);
    var second := TakenLastUnsafe(s1, older);
    FollowsConcat(s, first, second);
    actions := first + second;
  }

  lemma {:induction false} TakenCouldArrive(s: Session, actions: seq<Action>, n: nat)
    requires SessionInv(s) && n < |s.made| && Follows(s, actions) && Take(n) in actions
    ensures CanArrive(s, n)
    decreases |actions|
  {
    var a, rest := actions[0], actions[1..];
    if a != Take(n) {
      assert actions == [a] + rest;
      DoKeeps(s, a);
      TakenCouldArrive(Do(s, a), rest, n);
      NothingNewArrives(s, a, n);
    }
  }

  lemma ArrivingCanBeTaken(s: Session, n: nat) returns (actions: seq<Action>)
    requires SessionInv(s) && CanArrive(s, n)
    ensures Follows(s, actions) && Take(n) in actions
  {
    var first := CanCalmDown(s, VideoOn(s, n));
    var second := CanBeTaken(Following(s, first), n);
    FollowsConcat(s, first, second);
    actions := first + second;
  }

  /** CanArrive is exactly that: in some continuation the server takes the action. */
  lemma CanArriveIff(s: Session, n: nat)
    requires SessionInv(s) && n < |s.made|
    ensures CanArrive(s, n) <==> exists actions :: Follows(s, actions) && Take(n) in actions
  {
    if CanArrive(s, n) {
      var actions := ArrivingCanBeTaken(s, n);
    }
    forall actions | Follows(s, actions) && Take(n) in actions ensures CanArrive(s, n) {
      TakenCouldArrive(s, actions, n);
    }
  }

  /** At any moment: nothing that can still happen, short of the user acting again on
      the video, leaves the server with an older action on it than it has taken, exactly
      when the server is up to date, at most one action on the video can still arrive,
      and that one is newer than all it has taken. */
  lemma SafeIff(s: Session, v: Video)
    requires SessionInv(s)
    ensures Safe(s, v) <==>
              forall actions :: Follows(s, actions) && NothingNewOn(actions, v) ==>
                UpToDate(Following(s, actions).taken, v)
  {
    if Safe(s, v) {
      forall actions | Follows(s, actions) && NothingNewOn(actions, v)
        ensures UpToDate(Following(s, actions).taken, v)
      {
        SafeForGood(s, actions, v);
      }
    } else {
      var actions := UnsafeRun(s, v);
    }
  }

  lemma UnsafeRun(s: Session, v: Video) returns (actions: seq<Action>)
    requires SessionInv(s) && !Safe(s, v)
    ensures Follows(s, actions) && NothingNewOn(actions, v) && !UpToDate(Following(s, actions).taken, v)
  {
    if !UpToDate(s.taken, v) {
      actions := [];
    } else {
      var first := CanCalmDown(s, v);
      var s1 := Following(s, first);
      var second := UnsafeFromRest(s, s1, v);
      FollowsConcat(s, first, second);
      actions := first + second;
    }
  }

  lemma UnsafeFromRest(s: Session, s1: Session, v: Video) returns (actions: seq<Action>)
    requires SessionInv(s) && UpToDate(s.taken, v) && !Safe(s, v)
    requires Keeps(s, s1, v) && s1.queue.flush.None?
    ensures Follows(s1, actions) && NoSubmits(actions) && !UpToDate(Following(s1, actions).taken, v)
  {
    if n: nat :| CanArrive(s, n) && VideoOn(s, n) == v && IsOlder(s, n) {
      KeptArrives(s, s1, n, v);
      actions := TakenLastUnsafe(s1, n);
    } else {
      var m: nat, n: nat :|
        CanArrive(s, m) && CanArrive(s, n) && VideoOn(s, m) == v && VideoOn(s, n) == v && m != n;
      KeptArrives(s, s1, m, v);
      KeptArrives(s, s1, n, v);
      actions := TwoUnfinishedUnsafe(s1, if m < n then m else n, if m < n then n else m);
    }
  }

  lemma KeptArrives(s: Session, s1: Session, n: nat, v: Video)
    requires Keeps(s, s1, v) && CanArrive(s, n) && VideoOn(s, n) == v
    ensures Unfinished(s1, n) && VideoOn(s1, n) == v && (IsOlder(s1, n) <==> IsOlder(s, n))
  {
  }

  /** At the moment the server takes the user's latest action on a video: nothing can
      bring an older one back, short of the user acting again, exactly when nothing
      older on the video can still arrive. */
  lemma TakenIsSafeIff(s: Session, n: nat)
    requires SessionInv(s) && CanDo(s, Take(n))
    requires forall m: nat :: m < |s.made| && VideoOn(s, m) == VideoOn(s, n) ==> m <= n
    ensures var v, s1 := VideoOn(s, n), Do(s, Take(n));
            (forall m: nat :: m < n && VideoOn(s, m) == v ==> !CanArrive(s, m)) <==>
              forall actions :: Follows(s1, actions) && NothingNewOn(actions, v) ==>
                UpToDate(Following(s1, actions).taken, v)
  {
    DoKeeps(s, Take(n));
    SafeIff(Do(s, Take(n)), VideoOn(s, n));
    SafeOnceTakenIff(s, n);
  }

  lemma SafeOnceTakenIff(s: Session, n: nat)
    requires SessionInv(s) && CanDo(s, Take(n))
    requires forall m: nat :: m < |s.made| && VideoOn(s, m) == VideoOn(s, n) ==> m <= n
    ensures Safe(Do(s, Take(n)), VideoOn(s, n)) <==>
              forall m: nat :: m < n && VideoOn(s, m) == VideoOn(s, n) ==> !CanArrive(s, m)
  {
    var v, s1 := VideoOn(s, n), Do(s, Take(n));
    LatestTaken(s, n);
    forall m: nat ensures CanArrive(s1, m) <==> CanArrive(s, m) {
      TakeArrives(s, n, m);
    }
    assert CanArrive(s, n);
    forall m: nat | VideoOn(s1, m) == v
      ensures IsOlder(s1, m) <==> m < n
      ensures CanArrive(s1, m) ==> CanArrive(s, m) && m <= n
    {
      assert VideoOn(s, m) == v;
    }
  }

  lemma LatestTaken(s: Session, n: nat)
    requires SessionInv(s) && CanDo(s, Take(n))
    requires forall m: nat :: m < |s.made| && VideoOn(s, m) == VideoOn(s, n) ==> m <= n
    ensures UpToDate(Do(s, Take(n)).taken, VideoOn(s, n)) && Newest(Do(s, Take(n)).taken, VideoOn(s, n)) == n
  {
    var v := VideoOn(s, n);
    NewestWasMade(s, v);
    assert Newest(s.taken, v) >= 0 ==> VideoOn(s, Newest(s.taken, v)) == v;
    assert Newest(s.taken, v) <= n;
    OneMoreTaken(s.taken, Taken(v, n), v);
    UpToDateIff(s.taken + [Taken(v, n)], v);
  }

  lemma NewestWasMade(s: Session, v: Video)
    requires SessionInv(s)
    ensures Newest(s.taken, v) >= 0 ==> VideoOn(s, Newest(s.taken, v)) == v && Newest(s.taken, v) < |s.made|
  {
    NewestIsLargest(s.taken, v);
  }

  /** While a flush is running, the vote it takes next comes back over anything newer. */
  lemma NextVoteReturns(s: Session)
    requires SessionInv(s) && CanDo(s, Request) && IsOlder(s, HeadNumber(s))
    ensures var n := HeadNumber(s);
            && CanDo(Do(s, Request), Take(n))
            && !UpToDate(Do(Do(s, Request), Take(n)).taken, VideoOn(s, n))
  {
    AskedCanBeTaken(s, s, HeadNumber(s));
    TakenOutOfDate(s, Do(Do(s, Request), Take(HeadNumber(s))), HeadNumber(s));
  }
}
