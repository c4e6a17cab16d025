/** What the server ends up holding when the user's votes travel to it on two ways,
    straight and through the offline queue, and requests take their time. */
module ServerOrder {
  import opened Options
  import opened Schema
  import opened OfflineQueues
  import opened QueueRuns

  /** What the user did: a vote, or a withdrawal if there is no category. */
  datatype Made = Made(video: Video, category: Option<Category>)

  /** The server processed the action with this number. */
  datatype Taken = Taken(video: Video, number: nat)

  /** Actions are numbered as the user takes them. `awaiting` are those whose handler
      still waits for an answer, retries included; `lingering` are those with no
      handler any more, or in the flush's hand, of which a request is still under way.
      `names` gives the number of each queued vote and `ids` is its inverse; `asked` is
      set while the flush waits for an answer, to what the server had taken before.
      `overtaken` are the actions that were unfinished when the server took a newer one
      on the same video. */
  datatype Session = Session(
    made: seq<Made>,
    awaiting: set<nat>,
    lingering: set<nat>,
    queue: Queue,
    names: seq<nat>,
    ids: map<nat, nat>,
    asked: Option<nat>,
    taken: seq<Taken>,
    overtaken: set<nat>)

  const FRESH := Session([], {}, {}, START, [], map[], None, [], {})

  /** Refuse is a vote whose handler gave up after its retries and puts it into the
      queue; GiveUp is a withdrawal, which is not queued. Vanish is the end of a
      request that no longer reaches the server. */
  datatype Action =
    | Submit(video: Video, category: Option<Category>)
    | Take(number: nat)
    | Answer(number: nat)
    | Refuse(number: nat, timestamp: int)
    | GiveUp(number: nat)
    | Vanish(number: nat)
    | Request
    | Step(event: Event)

  function VideoOn(s: Session, n: nat): Video {
    if n < |s.made| then s.made[n].video else ""
  }

  /** The server may still receive a request for this action. */
  predicate InFlight(s: Session, n: nat) {
    n in s.awaiting || n in s.lingering
  }

  /** The flush may still send this vote: it is pending, or in the running flush's snapshot. */
  predicate Waiting(q: Queue, id: nat) {
    InTodo(q, id) || IsPending(q, id)
  }

  predicate Unfinished(s: Session, n: nat) {
    n < |s.made| && (InFlight(s, n) || (n in s.ids && Waiting(s.queue, s.ids[n])))
  }

  function OlderUnfinished(s: Session, n: nat): set<nat> {
    set m: nat | m < n && Unfinished(s, m) && VideoOn(s, m) == VideoOn(s, n)
  }

  predicate CanRequest(s: Session) {
    Ready(s.queue) && !TooOld(Head(s.queue), s.queue.flush.value.now) && s.queue.flush.value.todo[0] < |s.names|
  }

  function HeadNumber(s: Session): nat
    requires CanRequest(s)
  {
    s.names[s.queue.flush.value.todo[0]]
  }

  predicate TakenSinceAsked(s: Session) {
    CanRequest(s) && s.asked.Some? && s.asked.value <= |s.taken|
    && Taken(VideoOn(s, HeadNumber(s)), HeadNumber(s)) in s.taken[s.asked.value..]
  }

  /** An answer comes only after the server took the request. A flush ends when it is
      through or fails; one that gets no user id has done nothing and is left out. */
  ghost predicate CanDo(s: Session, a: Action) {
    match a
    case Submit(_, _) => true
    case Take(n) => InFlight(s, n) && n < |s.made|
    case Answer(n) => n in s.awaiting && Taken(VideoOn(s, n), n) in s.taken
    case Refuse(n, _) => n in s.awaiting && n < |s.made| && s.made[n].category.Some?
    case GiveUp(n) => n in s.awaiting && n < |s.made| && s.made[n].category.None?
    case Vanish(n) => n in s.lingering
    case Request => CanRequest(s) && s.asked.None?
    case Step(e) =>
      && Enabled(s.queue, e) && !e.Enqueue?
      && (e.Fail? ==> s.asked.Some?)
      && (e.Send? ==> TakenSinceAsked(s))
      && (e.Finish? ==> s.queue.flush.value.todo == [])
  }

  function ServerTakes(s: Session, n: nat): Session {
    s.(taken := s.taken + [Taken(VideoOn(s, n), n)], overtaken := s.overtaken + OlderUnfinished(s, n))
  }

  function Refused(s: Session, n: nat, timestamp: int): Session
    requires n < |s.made| && s.made[n].category.Some?
  {
    var id := |s.queue.votes|;
    s.(awaiting := s.awaiting - {n}, lingering := s.lingering + {n},
       queue := Enqueued(s.queue, PendingVote(s.made[n].video, s.made[n].category.value, timestamp)),
       names := s.names + [n], ids := s.ids[n := id])
  }

  ghost function Do(s: Session, a: Action): Session
    requires CanDo(s, a)
  {
    match a
    case Submit(v, category) => s.(made := s.made + [Made(v, category)], awaiting := s.awaiting + {|s.made|})
    case Take(n) => ServerTakes(s, n)
    case Answer(n) => s.(awaiting := s.awaiting - {n}, lingering := s.lingering + {n})
    case Refuse(n, timestamp) => Refused(s, n, timestamp)
    case GiveUp(n) => s.(awaiting := s.awaiting - {n}, lingering := s.lingering + {n})
    case Vanish(n) => s.(lingering := s.lingering - {n})
    case Request => s.(lingering := s.lingering + {HeadNumber(s)}, asked := Some(|s.taken|))
    case Step(e) => s.(queue := Next(s.queue, e), asked := None)
  }

  // ---------- the newest action the server has taken ----------

  /** What the server holds for the video: whatever it took last. */
  function Held(taken: seq<Taken>, v: Video): Option<nat> {
    if taken == [] then None
    else if taken[|taken| - 1].video == v then Some(taken[|taken| - 1].number)
    else Held(taken[..|taken| - 1], v)
  }

  /** The largest number the server has taken on the video, or -1. */
  function Newest(taken: seq<Taken>, v: Video): int {
    if taken == [] then -1
    else
      var rest, last := Newest(taken[..|taken| - 1], v), taken[|taken| - 1];
      if last.video == v && last.number > rest then last.number else rest
  }

  /** Nothing the server has taken on the video is newer than what it holds. */
  predicate UpToDate(taken: seq<Taken>, v: Video) {
    Held(taken, v).Some? ==> forall x :: x in taken && x.video == v ==> x.number <= Held(taken, v).value
  }

  lemma {:induction false} NewestIsLargest(taken: seq<Taken>, v: Video)
    ensures forall x :: x in taken && x.video == v ==> x.number <= Newest(taken, v)
    ensures Newest(taken, v) >= 0 ==> Taken(v, Newest(taken, v)) in taken
    ensures Held(taken, v).Some? ==> Taken(v, Held(taken, v).value) in taken
    ensures Held(taken, v).Some? <==> Newest(taken, v) >= 0
  {
    if taken != [] {
      NewestIsLargest(taken[..|taken| - 1], v);
      assert taken == taken[..|taken| - 1] + [taken[|taken| - 1]];
    }
  }

  lemma UpToDateIff(taken: seq<Taken>, v: Video)
    requires Held(taken, v).Some?
    ensures UpToDate(taken, v) <==> Held(taken, v).value == Newest(taken, v)
  {
    NewestIsLargest(taken, v);
  }

  lemma OneMoreTaken(taken: seq<Taken>, x: Taken, v: Video)
    ensures Held(taken + [x], v) == if x.video == v then Some(x.number) else Held(taken, v)
    ensures Newest(taken + [x], v) == if x.video == v && x.number > Newest(taken, v) then x.number else Newest(taken, v)
  {
    assert (taken + [x])[..|taken|] == taken;
  }

  // ---------- what every action keeps ----------

  /** Names and ids are inverse, and what is queued is what the user did. */
  ghost predicate NamesInv(s: Session) {
    && |s.names| == |s.queue.votes|
    && (forall id: nat :: id < |s.names| ==>
          && s.names[id] < |s.made| && s.names[id] in s.ids && s.ids[s.names[id]] == id
          && s.made[s.names[id]] == Made(s.queue.votes[id].video, Some(s.queue.votes[id].category)))
    && (forall n :: n in s.ids ==> s.ids[n] < |s.names| && s.names[s.ids[n]] == n)
    && (forall n :: n in s.awaiting ==> n < |s.made| && n !in s.ids)
    && (forall n :: n in s.lingering ==> n < |s.made|)
  }

  /** Something newer on its video has been taken. */
  predicate IsOlder(s: Session, n: nat) {
    n < Newest(s.taken, VideoOn(s, n))
  }

  ghost predicate OrderInv(s: Session) {
    && (forall v: Video :: Newest(s.taken, v) < |s.made|)
    && (forall x :: x in s.taken ==> VideoOn(s, x.number) == x.video)
    && (forall n: nat :: Unfinished(s, n) && IsOlder(s, n) ==> n in s.overtaken)
    && (forall n :: n in s.overtaken ==> n < |s.made| && IsOlder(s, n))
    && (forall v: Video :: Held(s.taken, v).Some? ==>
          && VideoOn(s, Held(s.taken, v).value) == v
          && (Held(s.taken, v).value == Newest(s.taken, v) <==> Held(s.taken, v).value !in s.overtaken))
  }

  /** Between the flush's request and its outcome its vote stays first in line. */
  predicate AskedInv(s: Session) {
    s.asked.Some? ==> CanRequest(s) && s.asked.value <= |s.taken|
  }

  ghost predicate SessionInv(s: Session) {
    Inv(s.queue) && NamesInv(s) && OrderInv(s) && AskedInv(s)
  }

  lemma TakeKeeps(s: Session, n: nat)
    requires OrderInv(s) && Unfinished(s, n)
    ensures OrderInv(ServerTakes(s, n))
  {
    var s' := ServerTakes(s, n);
    var v := VideoOn(s, n);
    forall u: Video
      ensures Held(s'.taken, u) == if u == v then Some(n) else Held(s.taken, u)
      ensures Newest(s'.taken, u) == if u == v && n > Newest(s.taken, v) then n else Newest(s.taken, u)
    {
      OneMoreTaken(s.taken, Taken(v, n), u);
    }
    forall m: nat
      ensures Unfinished(s', m) && IsOlder(s', m) ==> m in s'.overtaken
      ensures m in s'.overtaken ==> m < |s'.made| && IsOlder(s', m)
    {
      TakeOvertakes(s, n, m);
    }
    assert n in s.overtaken <==> IsOlder(s, n);
    forall x | x in s'.taken ensures VideoOn(s', x.number) == x.video {
      assert x in s.taken || x == Taken(v, n);
    }
  }

  lemma TakeOvertakes(s: Session, n: nat, m: nat)
    requires OrderInv(s) && Unfinished(s, n)
    ensures var s' := ServerTakes(s, n);
            && (Unfinished(s', m) && IsOlder(s', m) ==> m in s'.overtaken)
            && (m in s'.overtaken ==> m < |s'.made| && IsOlder(s', m))
  {
    OneMoreTaken(s.taken, Taken(VideoOn(s, n), n), VideoOn(s, m));
    assert m in OlderUnfinished(s, n) <==> m < n && Unfinished(s, m) && VideoOn(s, m) == VideoOn(s, n);
    assert m in s.overtaken ==> IsOlder(s, m);
    assert Unfinished(ServerTakes(s, n), m) <==> Unfinished(s, m);
  }

  /** Nothing is taken, made or named, and nothing unfinished appears. */
  lemma NothingTakenKeeps(s: Session, s': Session)
    requires OrderInv(s) && s'.made == s.made && s'.taken == s.taken && s'.overtaken == s.overtaken
    requires forall n: nat :: Unfinished(s', n) ==> Unfinished(s, n)
    ensures OrderInv(s')
  {
    forall n: nat ensures IsOlder(s', n) <==> IsOlder(s, n) {
      assert VideoOn(s', n) == VideoOn(s, n);
    }
  }

  lemma SubmitKeeps(s: Session, v: Video, category: Option<Category>)
    requires SessionInv(s)
    ensures SessionInv(Do(s, Submit(v, category)))
  {
    var s' := Do(s, Submit(v, category));
    assert forall n: nat :: n < |s.made| ==> VideoOn(s', n) == VideoOn(s, n);
    forall n: nat | Unfinished(s', n) && IsOlder(s', n) ensures n in s'.overtaken {
      assert n != |s.made|;
      assert Unfinished(s, n) && IsOlder(s, n);
    }
    forall n | n in s'.overtaken ensures n < |s'.made| && IsOlder(s', n) {
      assert IsOlder(s, n);
    }
    forall u: Video | Held(s'.taken, u).Some? ensures VideoOn(s', Held(s'.taken, u).value) == u {
      NewestIsLargest(s.taken, u);
      assert Held(s.taken, u).value <= Newest(s.taken, u);
    }
    forall x | x in s'.taken ensures VideoOn(s', x.number) == x.video {
      NewestIsLargest(s.taken, x.video);
      assert x.number <= Newest(s.taken, x.video) < |s.made|;
    }
  }

  /** A step makes nothing wait that did not wait before, except the vote it enqueues. */
  lemma NothingNewWaits(q: Queue, e: Event, id: nat)
    requires Inv(q) && Enabled(q, e) && Waiting(Next(q, e), id)
    ensures id < |Next(q, e).votes|
    ensures Waiting(q, id) || (e.Enqueue? && id == |q.votes|)
  {
    assert InTodo(q, id) ==> InHand(q, id);
    match e
    case Begin(now, order) => BeginTakesStored(q, now, order);
    case Send => TakeMovesHead(q, e);
    case Expire => TakeMovesHead(q, e);
    case _ =>
  }

  lemma VotesKept(q: Queue, e: Event)
    requires Enabled(q, e)
    ensures |Next(q, e).votes| == |q.votes| + if e.Enqueue? then 1 else 0
    ensures forall id: nat :: id < |q.votes| ==> Next(q, e).votes[id] == q.votes[id]
  {
  }

  lemma StepKeeps(s: Session, e: Event)
    requires SessionInv(s) && CanDo(s, Step(e))
    ensures SessionInv(Do(s, Step(e)))
  {
    var s' := Do(s, Step(e));
    StepKeepsInv(s.queue, e);
    VotesKept(s.queue, e);
    forall n: nat | Unfinished(s', n) ensures Unfinished(s, n) {
      StepUnfinished(s, e, n);
    }
    NothingTakenKeeps(s, s');
  }

  lemma StepUnfinished(s: Session, e: Event, n: nat)
    requires SessionInv(s) && CanDo(s, Step(e)) && Unfinished(Do(s, Step(e)), n)
    ensures Unfinished(s, n)
  {
    if !InFlight(s, n) { NothingNewWaits(s.queue, e, s.ids[n]); }
  }

  lemma RefuseKeepsNames(s: Session, n: nat, timestamp: int)
    requires NamesInv(s) && CanDo(s, Refuse(n, timestamp))
    ensures NamesInv(Refused(s, n, timestamp))
  {
    var s' := Refused(s, n, timestamp);
    assert KeepsVotes(s.queue, s'.queue);
    assert VideoOf(s'.queue, |s.queue.votes|) == s.made[n].video;
    forall id: nat | id < |s'.names|
      ensures s'.names[id] < |s'.made| && s'.names[id] in s'.ids && s'.ids[s'.names[id]] == id
      ensures s'.made[s'.names[id]] == Made(s'.queue.votes[id].video, Some(s'.queue.votes[id].category))
    {
      if id < |s.names| { assert s.names[id] in s.ids && s.names[id] != n; }
    }
  }

  lemma RefuseKeeps(s: Session, n: nat, timestamp: int)
    requires SessionInv(s) && CanDo(s, Refuse(n, timestamp))
    ensures SessionInv(Do(s, Refuse(n, timestamp)))
  {
    var s' := Refused(s, n, timestamp);
    var vote := PendingVote(s.made[n].video, s.made[n].category.value, timestamp);
    EnqueueKeeps(s.queue, vote);
    RefuseKeepsNames(s, n, timestamp);
    forall m: nat | Unfinished(s', m) ensures Unfinished(s, m) {
      if !InFlight(s, m) {
        NothingNewWaits(s.queue, Enqueue(vote), s'.ids[m]);
        assert s.ids[m] == s'.ids[m] < |s.queue.votes|;
      }
    }
    NothingTakenKeeps(s, s');
  }

  lemma RequestKeeps(s: Session)
    requires SessionInv(s) && CanDo(s, Request)
    ensures Unfinished(s, HeadNumber(s))
    ensures SessionInv(Do(s, Request))
  {
    var id := s.queue.flush.value.todo[0];
    assert InTodo(s.queue, id) && Waiting(s.queue, id) && s.ids[HeadNumber(s)] == id;
    NothingTakenKeeps(s, Do(s, Request));
  }

  lemma AnswerKeeps(s: Session, a: Action)
    requires SessionInv(s) && CanDo(s, a) && (a.Answer? || a.GiveUp? || a.Vanish?)
    ensures SessionInv(Do(s, a))
  {
    NothingTakenKeeps(s, Do(s, a));
  }

  lemma DoKeeps(s: Session, a: Action)
    requires SessionInv(s) && CanDo(s, a)
    ensures SessionInv(Do(s, a))
  {
    match a
    case Submit(v, category) => SubmitKeeps(s, v, category);
    case Take(n) => TakeKeeps(s, n);
    case Refuse(n, timestamp) => RefuseKeeps(s, n, timestamp);
    case Request => RequestKeeps(s);
    case Step(e) => StepKeeps(s, e);
    case _ => AnswerKeeps(s, a);
  }

  /** A request that is under way stays so until it is lost: an answer, a refusal or
      giving up does not keep the server from processing it, once more or late. */
  lemma OnlyVanishingEnds(s: Session, a: Action, n: nat)
    requires CanDo(s, a) && InFlight(s, n)
    ensures InFlight(Do(s, a), n) <==> a != Vanish(n) || n in s.awaiting
    ensures InFlight(s, n) && n < |s.made| ==> CanDo(s, Take(n))
  {
  }

  // ---------- whole sessions ----------

  ghost function Reached(actions: seq<Action>): Session
    requires Doable(actions)
    decreases |actions|, 1
  {
    if actions == [] then FRESH else Do(Reached(actions[..|actions| - 1]), actions[|actions| - 1])
  }

  ghost predicate Doable(actions: seq<Action>)
    decreases |actions|, 0
  {
    actions != [] ==>
      Doable(actions[..|actions| - 1]) && CanDo(Reached(actions[..|actions| - 1]), actions[|actions| - 1])
  }

  lemma {:induction false} SessionKeeps(actions: seq<Action>)
    requires Doable(actions)
    ensures SessionInv(Reached(actions))
  {
    if actions != [] {
      SessionKeeps(actions[..|actions| - 1]);
      DoKeeps(Reached(actions[..|actions| - 1]), actions[|actions| - 1]);
    }
  }

  /** What the user did, in order. */
  function Submitted(actions: seq<Action>): seq<Made> {
    if actions == [] then []
    else
      var a := actions[|actions| - 1];
      Submitted(actions[..|actions| - 1]) + if a.Submit? then [Made(a.video, a.category)] else []
  }

  lemma OnlySubmitMakes(s: Session, a: Action)
    requires CanDo(s, a)
    ensures Do(s, a).made == s.made + if a.Submit? then [Made(a.video, a.category)] else []
  {
  }

  lemma {:induction false} MadeIsSubmitted(actions: seq<Action>)
    requires Doable(actions)
    ensures Reached(actions).made == Submitted(actions)
  {
    if actions != [] {
      MadeIsSubmitted(actions[..|actions| - 1]);
      OnlySubmitMakes(Reached(actions[..|actions| - 1]), actions[|actions| - 1]);
    }
  }

  /** In every session each queued vote, pending or not, is a vote the user cast: same
      video, same category. A withdrawal is never queued. */
  lemma QueuedIsWhatTheUserDid(actions: seq<Action>, id: nat)
    requires Doable(actions) && id < |Reached(actions).queue.votes|
    ensures var s, did := Reached(actions), Submitted(actions);
            && id < |s.names| && s.names[id] < |did|
            && did[s.names[id]].video == s.queue.votes[id].video
            && did[s.names[id]].category == Some(s.queue.votes[id].category)
  {
    SessionKeeps(actions);
    MadeIsSubmitted(actions);
  }

  /** So what a flush posts is a vote the user cast, and it is counted under its number. */
  lemma FlushPostsWhatTheUserDid(actions: seq<Action>)
    requires Doable(actions) && CanDo(Reached(actions), Request)
    ensures var s, did := Reached(actions), Submitted(actions);
            var n := HeadNumber(s);
            && n < |did| && did[n] == Made(Head(s.queue).video, Some(Head(s.queue).category))
            && n in Do(s, Request).lingering
  {
    QueuedIsWhatTheUserDid(actions, Reached(actions).queue.flush.value.todo[0]);
  }

  /** A refused vote is stored as it was cast, with the time of its refusal. */
  lemma RefusedIsStored(s: Session, n: nat, timestamp: int)
    requires SessionInv(s) && CanDo(s, Refuse(n, timestamp))
    ensures var s', v := Do(s, Refuse(n, timestamp)), s.made[n].video;
            && v in s'.queue.store && s'.queue.store[v] == |s.queue.votes| < |s'.queue.votes|
            && s'.queue.votes[|s.queue.votes|].video == v
            && Some(s'.queue.votes[|s.queue.votes|].category) == s.made[n].category
            && s'.queue.votes[|s.queue.votes|].timestamp == timestamp
            && (forall u :: u != v && u in s.queue.store ==>
                  u in s'.queue.store && s'.queue.store[u] == s.queue.store[u])
  {
  }

  /** In every session, whatever is retried, refused, queued, lost or late: the server
      holds the newest action it has taken on a video exactly unless what it holds was
      still unfinished, waiting or in flight, when it took a newer one. */
  lemma {:induction false} ServerHoldsNewestIff(actions: seq<Action>, v: Video)
    requires Doable(actions) && Held(Reached(actions).taken, v).Some?
    ensures var s := Reached(actions);
            UpToDate(s.taken, v) <==> Held(s.taken, v).value !in s.overtaken
  {
    SessionKeeps(actions);
    UpToDateIff(Reached(actions).taken, v);
  }

  /** Whenever the server took an action on the video, nothing older on it was unfinished. */
  ghost predicate NeverOvertaking(actions: seq<Action>, v: Video)
    requires Doable(actions)
    decreases |actions|
  {
    actions != [] ==>
      var init, a := actions[..|actions| - 1], actions[|actions| - 1];
      && NeverOvertaking(init, v)
      && (a.Take? && VideoOn(Reached(init), a.number) == v ==> OlderUnfinished(Reached(init), a.number) == {})
  }

  lemma {:induction false} NoneOvertaken(actions: seq<Action>, v: Video)
    requires Doable(actions) && NeverOvertaking(actions, v)
    ensures forall n :: n in Reached(actions).overtaken ==> VideoOn(Reached(actions), n) != v
  {
    if actions != [] {
      var init, a := actions[..|actions| - 1], actions[|actions| - 1];
      NoneOvertaken(init, v);
      SessionKeeps(init);
      NoneMoreOvertaken(Reached(init), a, v);
    }
  }

  lemma NoneMoreOvertaken(s: Session, a: Action, v: Video)
    requires SessionInv(s) && CanDo(s, a)
    requires a.Take? && VideoOn(s, a.number) == v ==> OlderUnfinished(s, a.number) == {}
    requires forall n :: n in s.overtaken ==> VideoOn(s, n) != v
    ensures forall n :: n in Do(s, a).overtaken ==> VideoOn(Do(s, a), n) != v
  {
  }

  /** Then the server is never out of date. */
  lemma NeverOvertakingIsUpToDate(actions: seq<Action>, v: Video)
    requires Doable(actions) && NeverOvertaking(actions, v)
    ensures UpToDate(Reached(actions).taken, v)
  {
    NoneOvertaken(actions, v);
    SessionKeeps(actions);
    if Held(Reached(actions).taken, v).Some? {
      ServerHoldsNewestIff(actions, v);
    }
  }

  // ---------- the three ways it goes wrong ----------

  lemma OneMoreAction(actions: seq<Action>, a: Action)
    requires Doable(actions) && CanDo(Reached(actions), a)
    ensures Doable(actions + [a]) && Reached(actions + [a]) == Do(Reached(actions), a)
  {
    assert (actions + [a])[..|actions|] == actions;
  }

  lemma TwoMoreActions(actions: seq<Action>, a: Action, b: Action)
    requires Doable(actions) && CanDo(Reached(actions), a) && CanDo(Do(Reached(actions), a), b)
    ensures Doable(actions + [a, b]) && Reached(actions + [a, b]) == Do(Do(Reached(actions), a), b)
  {
    OneMoreAction(actions, a);
    OneMoreAction(actions + [a], b);
    assert actions + [a] + [b] == actions + [a, b];
  }

  lemma TwoVotes(v: Video, a: Category, b: Category)
    ensures var actions: seq<Action> := [] + [Submit(v, Some(a)), Submit(v, Some(b))];
            && Doable(actions)
            && Reached(actions) == FRESH.(made := [Made(v, Some(a)), Made(v, Some(b))], awaiting := {0, 1})
  {
    var one := FRESH.(made := [Made(v, Some(a))], awaiting := {0});
    assert Do(FRESH, Submit(v, Some(a))) == one;
    assert Do(one, Submit(v, Some(b))) == FRESH.(made := [Made(v, Some(a)), Made(v, Some(b))], awaiting := {0, 1});
    TwoMoreActions([], Submit(v, Some(a)), Submit(v, Some(b)));
  }

  lemma SecondAnswered(actions: seq<Action>, v: Video)
    requires Doable(actions) && |Reached(actions).made| == 2 && Reached(actions).made[1].video == v
    requires Reached(actions).awaiting == {0, 1} && Reached(actions).taken == []
    ensures var more := actions + [Take(1), Answer(1)];
            && Doable(more)
            && Reached(more).taken == [Taken(v, 1)] && 0 in Reached(more).awaiting
            && Reached(more).made == Reached(actions).made && Reached(more).queue == Reached(actions).queue
            && Reached(more).names == Reached(actions).names && Reached(more).ids == Reached(actions).ids
  {
    var s := Reached(actions);
    assert Do(s, Take(1)).taken == [Taken(v, 1)];
    TwoMoreActions(actions, Take(1), Answer(1));
  }

  lemma FirstAnswered(actions: seq<Action>, v: Video)
    requires Doable(actions) && |Reached(actions).made| == 2 && Reached(actions).made[0].video == v
    requires 0 in Reached(actions).awaiting && Reached(actions).taken == [Taken(v, 1)]
    ensures var more := actions + [Take(0), Answer(0)];
            && Doable(more) && Reached(more).taken == [Taken(v, 1), Taken(v, 0)]
            && Reached(more).queue == Reached(actions).queue
  {
    var s := Reached(actions);
    assert Do(s, Take(0)).taken == [Taken(v, 1), Taken(v, 0)];
    assert Do(s, Take(0)).taken[1] == Taken(v, 0);
    TwoMoreActions(actions, Take(0), Answer(0));
  }

  /** Two votes are on their way at once, say the first one is being retried. The
      server takes the second, answers it, and then takes the first: nothing was ever
      queued, and the server ends with the older vote. */
  lemma LateRetryExample(v: Video, a: Category, b: Category)
    ensures var actions := [] + [Submit(v, Some(a)), Submit(v, Some(b))] + [Take(1), Answer(1)] + [Take(0), Answer(0)];
            && Doable(actions)
            && Reached(actions).queue == START && Reached(actions).taken == [Taken(v, 1), Taken(v, 0)]
            && !UpToDate(Reached(actions).taken, v)
  {
    var two: seq<Action> := [] + [Submit(v, Some(a)), Submit(v, Some(b))];
    TwoVotes(v, a, b);
    SecondAnswered(two, v);
    FirstAnswered(two + [Take(1), Answer(1)], v);
    FirstAfterSecond(v);
  }

  lemma FirstAfterSecond(v: Video)
    ensures !UpToDate([Taken(v, 1), Taken(v, 0)], v)
  {
    var both := [Taken(v, 1), Taken(v, 0)];
    assert both[0] in both && Held(both, v) == Some(0);
  }

  /** The first vote is refused after the second was taken. It is queued, and the flush
      brings it back. */
  lemma LateRefusalExample(v: Video, a: Category, b: Category, now: int)
    ensures var actions := [] + [Submit(v, Some(a)), Submit(v, Some(b))] + [Take(1), Answer(1)]
                           + [Refuse(0, now), Step(Begin(now, [0]))] + [Request, Take(0)];
            && Doable(actions)
            && Reached(actions).taken == [Taken(v, 1), Taken(v, 0)]
            && !UpToDate(Reached(actions).taken, v)
  {
    var two: seq<Action> := [] + [Submit(v, Some(a)), Submit(v, Some(b))];
    TwoVotes(v, a, b);
    SecondAnswered(two, v);
    var answered := two + [Take(1), Answer(1)];
    LateRefusalRuns(answered, v, now);
    FirstAfterSecond(v);
  }

  lemma LateRefusalRuns(actions: seq<Action>, v: Video, now: int)
    requires Doable(actions) && Reached(actions).queue == START && Reached(actions).names == []
          && Reached(actions).ids == map[]
    requires 0 in Reached(actions).awaiting && |Reached(actions).made| > 0
    requires Reached(actions).made[0].video == v && Reached(actions).made[0].category.Some?
    ensures var more := actions + [Refuse(0, now), Step(Begin(now, [0]))] + [Request, Take(0)];
            Doable(more) && Reached(more).taken == Reached(actions).taken + [Taken(v, 0)]
  {
    var s := Reached(actions);
    RefusedFirst(s, v, now);
    TwoMoreActions(actions, Refuse(0, now), Step(Begin(now, [0])));
    TwoMoreActions(actions + [Refuse(0, now), Step(Begin(now, [0]))], Request, Take(0));
  }

  lemma RefusedFirst(s: Session, v: Video, now: int)
    requires s.queue == START && s.names == [] && s.ids == map[] && 0 in s.awaiting
    requires |s.made| > 0 && s.made[0].video == v && s.made[0].category.Some?
    ensures CanDo(s, Refuse(0, now)) && CanDo(Refused(s, 0, now), Step(Begin(now, [0])))
    ensures var s1 := Do(Refused(s, 0, now), Step(Begin(now, [0])));
            CanRequest(s1) && s1.asked.None? && HeadNumber(s1) == 0 && s1.taken == s.taken && s1.made == s.made
  {
    var order: seq<nat> := [0];
    assert order[0] == 0;
    assert forall id: nat :: id in order <==> IsStored(Refused(s, 0, now).queue, id);
  }

  /** Refused in the opposite order, the older vote replaces the newer one in the
      queue: the user's last vote is dropped without ever being sent. */
  lemma RefusedLateReplacesNewer(v: Video, a: Category, b: Category, now: int)
    ensures var actions := [] + [Submit(v, Some(a)), Submit(v, Some(b))] + [Refuse(1, now), Refuse(0, now)];
            && Doable(actions)
            && var s := Reached(actions);
               && s.queue.store == map[v := 1] && s.names == [1, 0]
               && IsSuperseded(s.queue, 0) && s.taken == []
  {
    TwoVotes(v, a, b);
    TwoMoreActions([] + [Submit(v, Some(a)), Submit(v, Some(b))], Refuse(1, now), Refuse(0, now));
  }
}
