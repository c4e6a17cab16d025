/** The score protocol: vote transactions, two score workers (Go and Python) and
    the channel worker, interleaved in any order on one set of tables. */
module Protocol {
  import opened Options
  import opened Sums
  import opened Schema
  import opened Scores
  import opened VoteLedger
  import opened Recalculation
  import opened Channels

  // ---------- state ----------

  /** Where a worker is inside one recalculation transaction. */
  datatype Phase =
    | Idle
    | ReadTotal(video: Video, total: real)
    | ReadSums(video: Video, total: real, sums: map<Category, real>)

  /** A worker's undelivered notifications, its pending set, the batch it is
      flushing and the videos whose last notification it threw away. */
  datatype Worker = Worker(
    listening: bool,
    queue: seq<Video>,
    pending: set<Video>,
    batch: set<Video>,
    phase: Phase,
    lost: set<Video>)

  /** `last` says which worker committed the latest recalculation of a video. */
  datatype State = State(tables: Tables, go: Worker, py: Worker, last: map<Video, Who>)

  datatype Who = Go | Py

  function Get(s: State, who: Who): Worker {
    if who == Go then s.go else s.py
  }

  function Put(s: State, who: Who, w: Worker): State {
    if who == Go then s.(go := w) else s.(py := w)
  }

  function Queued(w: Worker): set<Video> {
    set v | v in w.queue
  }

  function Current(w: Worker): set<Video> {
    if w.phase.Idle? then {} else {w.phase.video}
  }

  /** Everything the worker still owes a recalculation. */
  function Held(w: Worker): set<Video> {
    Queued(w) + w.pending + w.batch + Current(w)
  }

  /** A notification that arrived, or was dropped, after the running recalculation began. */
  function Later(w: Worker): set<Video> {
    Queued(w) + w.pending + w.lost
  }

  // ---------- events ----------

  datatype Event =
    | Vote(op: Op)
    | Deliver(who: Who)
    | Swap(who: Who)
    | Begin(who: Who, video: Video)
    | Read(who: Who)
    | Write(who: Who)
    | Fail(who: Who, video: Video)
    | Disconnect(who: Who)
    | Reconnect(who: Who)
    | Crash(who: Who)
    | Preliminary(channel: Channel)

  /** NOTIFY at commit: queued for every listening connection, gone for the others. */
  function Notified(w: Worker, v: Video): Worker {
    if w.listening then w.(queue := w.queue + [v]) else w.(lost := w.lost + {v})
  }

  /** The video a committed transaction notifies about, if any. */
  function NotifiedVideo(t: Tables, op: Op): Option<Video> {
    match op
    case Submit(v, _, _) => Some(v)
    case Delete(v, u) => if (v, u) in t.votes then Some(v) else None
    case SetTrust(_, _) => None
  }

  predicate Enabled(s: State, e: Event) {
    match e
    // the request handlers reject an empty video id
    case Vote(op) => op.Submit? ==> op.video != ""
    case Deliver(who) => Get(s, who).queue != []
    case Swap(who) => Get(s, who).phase.Idle? && Get(s, who).batch == {} && Get(s, who).pending != {}
    case Begin(who, v) => Get(s, who).phase.Idle? && v in Get(s, who).batch
    case Read(who) => Get(s, who).phase.ReadTotal? && Get(s, who).phase.total != 0.0
    case Write(who) => Get(s, who).phase.ReadSums? || (Get(s, who).phase.ReadTotal? && Get(s, who).phase.total == 0.0)
    case Fail(who, v) => v in Current(Get(s, who)) || (Get(s, who).phase.Idle? && v in Get(s, who).batch)
    case Disconnect(who) => Get(s, who).listening
    case Reconnect(who) => !Get(s, who).listening
    case Crash(_) => true
    case Preliminary(_) => true
  }

  ghost function Next(s: State, e: Event): State {
    match e
    case Vote(op) =>
      var s' := s.(tables := Apply(s.tables, op));
      if NotifiedVideo(s.tables, op).Some?
      then s'.(go := Notified(s.go, NotifiedVideo(s.tables, op).value),
               py := Notified(s.py, NotifiedVideo(s.tables, op).value))
      else s'
    case Preliminary(ch) => s.(tables := s.tables.(videos := MarkPreliminary(s.tables.videos, ch)))
    case _ => WorkerNext(s, e)
  }

  ghost function WorkerNext(s: State, e: Event): State
    requires !e.Vote? && !e.Preliminary?
  {
    var w := Get(s, e.who);
    match e
    // an empty payload is skipped
    case Deliver(who) =>
      if w.queue == [] then s
      else Put(s, who, w.(queue := w.queue[1..], pending := w.pending + if w.queue[0] == "" then {} else {w.queue[0]}))
    case Swap(who) => Put(s, who, w.(batch := w.pending, pending := {}))
    // the first read; any earlier lost notification of v is made good by it
    case Begin(who, v) =>
      Put(s, who, w.(batch := w.batch - {v}, lost := w.lost - {v},
                     phase := ReadTotal(v, TotalWeight(s.tables.votes, v))))
    // the second read, in a later snapshot
    case Read(who) =>
      if w.phase.ReadTotal?
      then Put(s, who, w.(phase := ReadSums(w.phase.video, w.phase.total,
                                            CategoryWeights(s.tables.votes, w.phase.video))))
      else s
    case Write(who) =>
      if w.phase.Idle? then s
      else
        var sums := if w.phase.ReadSums? then w.phase.sums else map[];
        Put(s, who, w.(phase := Idle)).(
          tables := WriteScores(s.tables, w.phase.video, w.phase.total, sums),
          last := s.last[w.phase.video := who])
    // rolled back and skipped, never retried
    case Fail(who, v) => Put(s, who, w.(batch := w.batch - {v}, phase := Idle, lost := w.lost + {v}))
    // what the connection had not delivered is gone, nothing is replayed; the pending set stays
    case Disconnect(who) => Put(s, who, w.(listening := false, queue := [], lost := w.lost + Queued(w)))
    case Reconnect(who) => Put(s, who, w.(listening := true))
    // the process or its listening loop ends, and the pending set with it
    case Crash(who) => Put(s, who, Worker(false, [], {}, {}, Idle, w.lost + Held(w)))
  }

  // ---------- what every step keeps ----------

  ghost predicate NoVotes(t: Tables, v: Video) {
    VotesOn(t.votes, v) == {}
  }

  /** The stored scores are those of the votes, or there are no votes and the
      score is the channel worker's preliminary one. */
  ghost predicate Settled(t: Tables, v: Video) {
    || ScoreRight(t, v)
    || (NoVotes(t, v) && v in t.videos && t.videos[v].score == PRELIMINARY_SCORE && SharesRight(t, v))
  }

  ghost predicate ReadsCurrent(t: Tables, p: Phase) {
    match p
    case Idle => true
    case ReadTotal(v, total) => total == TotalWeight(t.votes, v)
    case ReadSums(v, total, sums) =>
      total == TotalWeight(t.votes, v) && total != 0.0 && sums == CategoryWeights(t.votes, v)
  }

  /** The key lemma's subject: a worker with out-of-date reads of a video still
      has, or has lost, a later notification for it. */
  ghost predicate StaleIsCovered(t: Tables, w: Worker) {
    w.phase.Idle? || ReadsCurrent(t, w.phase) || w.phase.video in Later(w)
  }

  /** The worker still has to recalculate v, or has thrown its notification away. */
  predicate OwedBy(w: Worker, v: Video) {
    v in Held(w) || v in w.lost
  }

  predicate OwedByBoth(s: State, v: Video) {
    OwedBy(s.go, v) && OwedBy(s.py, v)
  }

  predicate OwedByLast(s: State, v: Video) {
    v in s.last && OwedBy(Get(s, s.last[v]), v)
  }

  predicate Owed(s: State, v: Video) {
    OwedByBoth(s, v) || OwedByLast(s, v)
  }

  predicate NoEmptyPayload(w: Worker) {
    "" !in w.queue
  }

  ghost predicate Sound(s: State) {
    && LedgerInv(s.tables)
    && (forall k :: k in s.tables.votes ==> k.0 != "")
    && NoEmptyPayload(s.go) && NoEmptyPayload(s.py)
    && StaleIsCovered(s.tables, s.go) && StaleIsCovered(s.tables, s.py)
  }

  ghost predicate Inv(s: State) {
    Sound(s) && forall v :: v in s.tables.videos ==> Settled(s.tables, v) || Owed(s, v)
  }

  /** Any tables whose ledger is sound and whose scores are all settled, with both workers fresh. */
  ghost predicate Init(s: State) {
    && LedgerInv(s.tables)
    && (forall k :: k in s.tables.votes ==> k.0 != "")
    && (forall v :: v in s.tables.videos ==> Settled(s.tables, v))
    && s.go.phase.Idle? && s.py.phase.Idle?
    && NoEmptyPayload(s.go) && NoEmptyPayload(s.py)
  }

  // ---------- single steps ----------

  lemma ZeroRead(t: Tables, v: Video, sums: map<Category, real>, sums': map<Category, real>)
    ensures WriteScores(t, v, 0.0, sums) == WriteScores(t, v, 0.0, sums')
  {
  }

  /** Scores depend only on a video's own votes and rows. */
  lemma SettledLocally(t: Tables, t': Tables, v: Video)
    requires v in t.videos && Settled(t, v)
    requires v in t'.videos && t'.videos[v].score == t.videos[v].score
    requires TotalWeight(t'.votes, v) == TotalWeight(t.votes, v)
    requires CategoryWeights(t'.votes, v) == CategoryWeights(t.votes, v)
    requires VotesOn(t'.votes, v) == VotesOn(t.votes, v)
    requires forall c :: (v, c) in t'.categories ==>
      (v, c) in t.categories && t'.categories[(v, c)].weightedScore == t.categories[(v, c)].weightedScore
    ensures Settled(t', v)
  {
    assert LiveCategories(t'.votes, v) == CategoryWeights(t'.votes, v).Keys == LiveCategories(t.votes, v);
    forall c | (v, c) in t'.categories && (TotalWeight(t'.votes, v) == 0.0 || c in LiveCategories(t'.votes, v))
      ensures t'.categories[(v, c)].weightedScore == TrueShare(t'.votes, v, c)
    {
      assert TrueShare(t'.votes, v, c) == TrueShare(t.votes, v, c);
    }
  }

  lemma WorkerStepKeeps(s: State, e: Event)
    requires Sound(s) && Enabled(s, e)
    requires !e.Vote? && !e.Preliminary? && !e.Write?
    ensures Next(s, e).tables == s.tables && Next(s, e).last == s.last
    ensures var w, w' := Get(s, e.who), Get(Next(s, e), e.who);
            && NoEmptyPayload(w') && StaleIsCovered(s.tables, w')
            && Held(w) + w.lost <= Held(w') + w'.lost
  {
  }

  /** The written video: right if the reads were current, else covered by a
      later notification of the same worker. */
  lemma {:induction false} WrittenVideo(s: State, who: Who)
    requires Sound(s) && Enabled(s, Write(who))
    ensures var s', v := Next(s, Write(who)), Get(s, who).phase.video;
            v in s'.tables.videos ==>
              || Settled(s'.tables, v)
              || (!ReadsCurrent(s.tables, Get(s, who).phase) && OwedBy(Get(s', who), v) && s'.last == s.last[v := who])
  {
    var w, s', t := Get(s, who), Next(s, Write(who)), s.tables;
    var v := w.phase.video;
    var sums := if w.phase.ReadSums? then w.phase.sums else map[];
    if ReadsCurrent(t, w.phase) {
      ZeroRead(t, v, sums, CategoryWeights(t.votes, v));
      assert s'.tables == Recalculated(t, v);
      if v in t.videos { RecalculationIsRight(t, v); }
    } else {
      assert v in Later(w);
      assert v in Later(Get(s', who));
    }
  }

  lemma UnwrittenVideo(s: State, who: Who, u: Video)
    requires Enabled(s, Write(who)) && u != Get(s, who).phase.video
    ensures var s' := Next(s, Write(who));
            && (u in s'.tables.videos <==> u in s.tables.videos)
            && (u in s.tables.videos ==> (Settled(s'.tables, u) <==> Settled(s.tables, u)))
            && (OwedBy(s.go, u) ==> OwedBy(s'.go, u)) && (OwedBy(s.py, u) ==> OwedBy(s'.py, u))
            && (u in s.last ==> u in s'.last && s'.last[u] == s.last[u])
  {
    var w, s', t := Get(s, who), Next(s, Write(who)), s.tables;
    WritesAreLocal(t, w.phase.video, w.phase.total, if w.phase.ReadSums? then w.phase.sums else map[]);
    if u in t.videos {
      if Settled(t, u) { SettledLocally(t, s'.tables, u); }
      if Settled(s'.tables, u) { SettledLocally(s'.tables, t, u); }
    }
  }

  lemma WriteKeepsSound(s: State, who: Who)
    requires Sound(s) && Enabled(s, Write(who))
    ensures Sound(Next(s, Write(who)))
  {
    var w, s', t := Get(s, who), Next(s, Write(who)), s.tables;
    WritesAreLocal(t, w.phase.video, w.phase.total, if w.phase.ReadSums? then w.phase.sums else map[]);
    SameLedger(t, s'.tables);
  }

  lemma SameLedger(t: Tables, t': Tables)
    requires LedgerInv(t) && t'.votes == t.votes
    requires t'.videos.Keys == t.videos.Keys && t'.categories.Keys == t.categories.Keys
    requires forall v :: v in t.videos ==> t'.videos[v].totalVotes == t.videos[v].totalVotes
    requires forall k :: k in t.categories ==> t'.categories[k].voteCount == t.categories[k].voteCount
    ensures LedgerInv(t')
  {
    forall v, c ensures CountOf(t', v, c) >= |VotesIn(t'.votes, v, c)| {
      assert CountOf(t', v, c) == CountOf(t, v, c);
    }
  }

  /** A vote on v leaves the reads and rows of every other video as they were. */
  lemma VoteIsLocal(t: Tables, op: Op, v: Video)
    requires NotifiedVideo(t, op) != Some(v)
    ensures var t' := Apply(t, op);
            && TotalWeight(t'.votes, v) == TotalWeight(t.votes, v)
            && CategoryWeights(t'.votes, v) == CategoryWeights(t.votes, v)
            && VotesOn(t'.votes, v) == VotesOn(t.votes, v)
            && (v in t'.videos <==> v in t.videos)
            && (v in t.videos ==> t'.videos[v] == t.videos[v])
            && (forall c :: (v, c) in t'.categories <==> (v, c) in t.categories)
            && (forall c :: (v, c) in t.categories ==> t'.categories[(v, c)] == t.categories[(v, c)])
  {
    match op
    case Submit(v0, u, c0) =>
      OtherVideoWeights(t.votes, (v0, u), Schema.Vote(c0, TrustOf(t, u)), v);
      VotesAfterWrite(t.votes, (v0, u), Schema.Vote(c0, TrustOf(t, u)), v, c0);
    case Delete(v0, u) =>
      if (v0, u) in t.votes {
        OtherVideoWeightsRemoved(t.votes, (v0, u), v);
        VotesAfterRemove(t.votes, (v0, u), v, "");
      }
    case SetTrust(_, _) =>
  }

  lemma NotifiedCovers(t: Tables, op: Op, w: Worker, w': Worker)
    requires StaleIsCovered(t, w) && NoEmptyPayload(w)
    requires NotifiedVideo(t, op) != Some("")
    requires w' == if NotifiedVideo(t, op).Some? then Notified(w, NotifiedVideo(t, op).value) else w
    ensures StaleIsCovered(Apply(t, op), w') && NoEmptyPayload(w')
    ensures Held(w) + w.lost <= Held(w') + w'.lost
    ensures NotifiedVideo(t, op).Some? ==> NotifiedVideo(t, op).value in Held(w') + w'.lost
  {
    assert forall v :: v in w.queue ==> v in w'.queue;
    if NotifiedVideo(t, op).Some? {
      var v := NotifiedVideo(t, op).value;
      if w.listening { assert w'.queue[|w.queue|] == v; }
      assert v in Later(w');
    }
    assert Later(w) <= Later(w');
    if !w.phase.Idle? && NotifiedVideo(t, op) != Some(w.phase.video) {
      VoteIsLocal(t, op, w.phase.video);
    }
  }

  /** A committed vote leaves its video owed by both workers, takes nothing off
      either worker, and leaves every other video's sums and rows alone. */
  lemma VoteStep(s: State, op: Op)
    requires Sound(s) && Enabled(s, Event.Vote(op))
    ensures var s' := Next(s, Event.Vote(op));
            && Sound(s') && s'.last == s.last
            && (NotifiedVideo(s.tables, op).Some? ==> OwedByBoth(s', NotifiedVideo(s.tables, op).value))
            && Held(s.go) + s.go.lost <= Held(s'.go) + s'.go.lost
            && Held(s.py) + s.py.lost <= Held(s'.py) + s'.py.lost
            && (forall v :: NotifiedVideo(s.tables, op) != Some(v) ==>
                  && TotalWeight(s'.tables.votes, v) == TotalWeight(s.tables.votes, v)
                  && CategoryWeights(s'.tables.votes, v) == CategoryWeights(s.tables.votes, v)
                  && (v in s'.tables.videos <==> v in s.tables.videos)
                  && (v in s.tables.videos ==> s'.tables.videos[v] == s.tables.videos[v]))
  {
    var s' := Next(s, Event.Vote(op));
    ApplyKeepsLedgerInv(s.tables, op);
    NotifiedCovers(s.tables, op, s.go, s'.go);
    NotifiedCovers(s.tables, op, s.py, s'.py);
    if NotifiedVideo(s.tables, op).Some? {
      assert NotifiedVideo(s.tables, op).value in Held(s'.go) + s'.go.lost;
      assert NotifiedVideo(s.tables, op).value in Held(s'.py) + s'.py.lost;
    }
    forall v | NotifiedVideo(s.tables, op) != Some(v)
      ensures TotalWeight(s'.tables.votes, v) == TotalWeight(s.tables.votes, v)
      ensures CategoryWeights(s'.tables.votes, v) == CategoryWeights(s.tables.votes, v)
      ensures v in s'.tables.videos <==> v in s.tables.videos
      ensures v in s.tables.videos ==> s'.tables.videos[v] == s.tables.videos[v]
    {
      VoteIsLocal(s.tables, op, v);
    }
  }

  lemma OtherVideoStaysSettled(t: Tables, op: Op, v: Video)
    requires NotifiedVideo(t, op) != Some(v) && v in t.videos && Settled(t, v)
    ensures v in Apply(t, op).videos && Settled(Apply(t, op), v)
  {
    VoteIsLocal(t, op, v);
    SettledLocally(t, Apply(t, op), v);
  }

  /** The channel worker only ever scores videos that have no votes. */
  lemma PreliminaryStep(s: State, ch: Channel)
    requires Sound(s)
    ensures var s' := Next(s, Preliminary(ch));
            && Sound(s')
            && s'.tables.videos.Keys == s.tables.videos.Keys
            && forall v :: v in s.tables.videos && Settled(s.tables, v) ==> Settled(s'.tables, v)
  {
    var s' := Next(s, Preliminary(ch));
    var t, t' := s.tables, s'.tables;
    SameLedger(t, t');
    forall v | v in t.videos && Settled(t, v) ensures Settled(t', v) {
      if Fresh(t.videos[v], ch) {
        assert NoVotes(t, v);
        assert SharesRight(t', v);
      } else {
        SettledLocally(t, t', v);
      }
    }
  }

  lemma StepKeepsSound(s: State, e: Event)
    requires Sound(s) && Enabled(s, e)
    ensures Sound(Next(s, e))
  {
    match e
    case Vote(op) => VoteStep(s, op);
    case Write(who) => WriteKeepsSound(s, who);
    case Preliminary(ch) => PreliminaryStep(s, ch);
    case _ => WorkerStepKeeps(s, e);
  }

  /** The video was unsettled before, and nobody gave it up. */
  ghost predicate StillUnsettled(s: State, s': State, v: Video) {
    && v in s.tables.videos && !Settled(s.tables, v)
    && (OwedBy(s.go, v) ==> OwedBy(s'.go, v)) && (OwedBy(s.py, v) ==> OwedBy(s'.py, v))
    && (v in s.last ==> v in s'.last && s'.last[v] == s.last[v])
  }

  /** The step committed a recalculation of v from out-of-date reads. */
  ghost predicate StaleWrite(s: State, e: Event, v: Video) {
    e.Write? && !ReadsCurrent(s.tables, Get(s, e.who).phase) && Get(s, e.who).phase.video == v
  }

  /** The three ways to be unsettled after a step: as before, by a vote, or by a stale write. */
  lemma UnsettledBecause(s: State, e: Event, v: Video)
    requires Sound(s) && Enabled(s, e)
    requires v in Next(s, e).tables.videos && !Settled(Next(s, e).tables, v)
    ensures || StillUnsettled(s, Next(s, e), v)
            || OwedByBoth(Next(s, e), v)
            || (StaleWrite(s, e, v) && OwedBy(Get(Next(s, e), e.who), v) && Next(s, e).last == s.last[v := e.who])
  {
    var s' := Next(s, e);
    match e
    case Vote(op) =>
      VoteStep(s, op);
      if NotifiedVideo(s.tables, op) != Some(v) && v in s.tables.videos && Settled(s.tables, v) {
        OtherVideoStaysSettled(s.tables, op, v);
      }
      assert forall w: Worker :: OwedBy(w, v) <==> v in Held(w) + w.lost;
    case Write(who) =>
      WrittenVideo(s, who);
      if v != Get(s, who).phase.video { UnwrittenVideo(s, who, v); }
    case Preliminary(ch) => PreliminaryStep(s, ch);
    case _ =>
      WorkerStepKeeps(s, e);
      assert forall w: Worker :: OwedBy(w, v) <==> v in Held(w) + w.lost;
  }

  lemma StepKeepsInv(s: State, e: Event)
    requires Inv(s) && Enabled(s, e)
    ensures Inv(Next(s, e))
  {
    StepKeepsSound(s, e);
    forall v | v in Next(s, e).tables.videos && !Settled(Next(s, e).tables, v) ensures Owed(Next(s, e), v) {
      UnsettledBecause(s, e, v);
    }
  }

  // ---------- whole runs ----------

  ghost function After(s: State, es: seq<Event>): State {
    if es == [] then s else Next(After(s, es[..|es| - 1]), es[|es| - 1])
  }

  ghost predicate Possible(s: State, es: seq<Event>) {
    es != [] ==> Possible(s, es[..|es| - 1]) && Enabled(After(s, es[..|es| - 1]), es[|es| - 1])
  }

  lemma {:induction false} RunKeepsInv(s: State, es: seq<Event>)
    requires Inv(s) && Possible(s, es)
    ensures Inv(After(s, es))
  {
    if es != [] {
      RunKeepsInv(s, es[..|es| - 1]);
      StepKeepsInv(After(s, es[..|es| - 1]), es[|es| - 1]);
    }
  }

  /** Eventual consistency: in every reachable state a video whose stored scores
      are not those of its votes is owed by both workers, or by the one that
      recalculated it last. Success at the other worker is enough otherwise. */
  lemma {:induction false} EventualConsistency(s: State, es: seq<Event>)
    requires Init(s) && Possible(s, es)
    ensures var s' := After(s, es);
            forall v :: v in s'.tables.videos && !Settled(s'.tables, v) ==> OwedByBoth(s', v) || OwedByLast(s', v)
  {
    RunKeepsInv(s, es);
  }

  /** The reason: in every reachable state a worker whose reads of a video are out
      of date still has a later notification for it, or has lost one. */
  lemma {:induction false} StaleReadsAreCovered(s: State, es: seq<Event>, who: Who)
    requires Init(s) && Possible(s, es)
    ensures var s' := After(s, es);
            var w := Get(s', who);
            !ReadsCurrent(s'.tables, w.phase) ==> w.phase.video in Queued(w) + w.pending + w.lost
  {
    RunKeepsInv(s, es);
  }

  /** Over every interleaving with channel ticks, a video that has a vote and is
      not owed shows exactly the score of its votes; one without votes shows that or 60. */
  lemma {:induction false} PreliminaryNeverHidesVotes(s: State, es: seq<Event>, v: Video)
    requires Init(s) && Possible(s, es)
    requires v in After(s, es).tables.videos && !OwedByBoth(After(s, es), v) && !OwedByLast(After(s, es), v)
    ensures var t := After(s, es).tables;
            && (t.videos[v].totalVotes > 0 ==> t.videos[v].score == TrueScore(t.votes, v))
            && (t.videos[v].totalVotes == 0 ==> t.videos[v].score == 0.0 || t.videos[v].score == PRELIMINARY_SCORE)
            && SharesRight(t, v)
  {
    RunKeepsInv(s, es);
    var t := After(s, es).tables;
    if t.videos[v].totalVotes == 0 {
      assert VotesOn(t.votes, v) == {};
      NoVotesNoScore(t, v);
    }
  }

  lemma NoVotesNoScore(t: Tables, v: Video)
    requires NoVotes(t, v)
    ensures TrueScore(t.votes, v) == 0.0
  {
    forall k | k in t.votes ensures k.0 != v {
      assert k.0 == v ==> k in VotesOn(t.votes, v);
    }
    SumOfNothing(t.votes, v);
  }

  lemma {:induction false} SumOfNothing(votes: map<(Video, User), Schema.Vote>, v: Video)
    requires forall k :: k in votes ==> k.0 != v
    ensures TotalWeight(votes, v) == 0.0
    decreases votes.Keys
  {
    if votes.Keys != {} {
      var p := Pick(votes.Keys);
      assert (votes - {p}).Keys < votes.Keys;
      SumOfNothing(votes - {p}, v);
    }
  }

  predicate HarmlessTo(e: Event, who: Who) {
    (e.Fail? || e.Disconnect? || e.Crash?) ==> e.who != who
  }

  /** A worker loses nothing in a run without its own failures, lost connections or crashes. */
  lemma {:induction false} NothingLostWithoutFailures(s: State, es: seq<Event>, who: Who)
    requires Get(s, who).listening && Get(s, who).lost == {}
    requires Possible(s, es) && forall e :: e in es ==> HarmlessTo(e, who)
    ensures Get(After(s, es), who).listening && Get(After(s, es), who).lost == {}
  {
    if es != [] {
      var init, last := es[..|es| - 1], es[|es| - 1];
      assert last in es;
      NothingLostWithoutFailures(s, init, who);
    }
  }

  function Other(who: Who): Who {
    if who == Go then Py else Go
  }

  /** This worker never commits a recalculation from out-of-date reads. */
  ghost predicate WritesCurrent(s: State, es: seq<Event>, who: Who) {
    es != [] ==>
      && WritesCurrent(s, es[..|es| - 1], who)
      && (es[|es| - 1] == Write(who) ==>
            ReadsCurrent(After(s, es[..|es| - 1]).tables, Get(After(s, es[..|es| - 1]), who).phase))
  }

  /** One worker suffices as long as the other never commits out-of-date reads:
      whatever else happens to the other, only this worker's losses count. */
  lemma {:induction false} OneWorkerSuffices(s: State, es: seq<Event>, who: Who)
    requires Init(s) && Possible(s, es) && WritesCurrent(s, es, Other(who))
    ensures var s' := After(s, es);
            && (forall v :: v in s'.tables.videos && !Settled(s'.tables, v) ==> OwedBy(Get(s', who), v))
            && (QuietWorker(Get(s', who)) && Get(s', who).lost == {} ==>
                  forall v :: v in s'.tables.videos ==> Settled(s'.tables, v))
  {
    if es != [] {
      var init, e := es[..|es| - 1], es[|es| - 1];
      OneWorkerSuffices(s, init, who);
      RunKeepsInv(s, init);
      forall v | v in After(s, es).tables.videos && !Settled(After(s, es).tables, v)
        ensures OwedBy(Get(After(s, es), who), v)
      {
        UnsettledBecause(After(s, init), e, v);
        StaleWriterIs(After(s, init), e, v, who);
      }
    }
  }

  lemma StaleWriterIs(s: State, e: Event, v: Video, who: Who)
    requires e == Write(Other(who)) ==> ReadsCurrent(s.tables, Get(s, Other(who)).phase)
    ensures StaleWrite(s, e, v) ==> e.who == who
  {
  }

  // ---------- draining ----------

  predicate IsWork(e: Event) {
    e.Deliver? || e.Swap? || e.Begin? || e.Read? || e.Write?
  }

  predicate AllWork(es: seq<Event>) {
    forall e :: e in es ==> IsWork(e)
  }

  function PhaseMeasure(p: Phase): nat {
    match p case Idle => 0 case ReadTotal(_, _) => 2 case ReadSums(_, _, _) => 1
  }

  function WorkerMeasure(w: Worker): nat {
    6 * |w.queue| + 5 * |w.pending| + 4 * |w.batch| + PhaseMeasure(w.phase)
  }

  function Measure(s: State): nat {
    WorkerMeasure(s.go) + WorkerMeasure(s.py)
  }

  predicate QuietWorker(w: Worker) {
    w.queue == [] && w.pending == {} && w.batch == {} && w.phase.Idle?
  }

  predicate Quiet(s: State) {
    QuietWorker(s.go) && QuietWorker(s.py)
  }

  lemma WorkDecreases(s: State, e: Event)
    requires Enabled(s, e) && IsWork(e)
    ensures WorkerMeasure(Get(Next(s, e), e.who)) < WorkerMeasure(Get(s, e.who))
  {
  }

  lemma TotalDecreases(s: State, e: Event)
    requires Enabled(s, e) && IsWork(e)
    ensures Measure(Next(s, e)) < Measure(s)
  {
    WorkDecreases(s, e);
  }

  lemma WorkLosesNothing(s: State, e: Event)
    requires Enabled(s, e) && IsWork(e)
    ensures Next(s, e).go.lost <= s.go.lost && Next(s, e).py.lost <= s.py.lost
    ensures Next(s, e).tables.votes == s.tables.votes
    ensures Next(s, e).tables.videos.Keys == s.tables.videos.Keys
  {
  }

  /** As long as a worker holds anything, some step of it is possible. */
  lemma WorkIsPossible(s: State, who: Who) returns (e: Event)
    requires !QuietWorker(Get(s, who))
    ensures IsWork(e) && Enabled(s, e) && e.who == who
  {
    var w := Get(s, who);
    match w.phase
    case ReadTotal(_, total) => e := if total == 0.0 then Write(who) else Read(who);
    case ReadSums(_, _, _) => e := Write(who);
    case Idle =>
      if w.queue != [] {
        e := Deliver(who);
      } else if w.batch != {} {
        var v :| v in w.batch;
        e := Begin(who, v);
      } else {
        e := Swap(who);
      }
  }

  /** However the workers are scheduled, they stop: no run of work steps is longer than the measure. */
  lemma {:induction false} WorkRunsAreBounded(s: State, es: seq<Event>)
    requires Possible(s, es) && AllWork(es)
    ensures |es| + Measure(After(s, es)) <= Measure(s)
    ensures After(s, es).go.lost <= s.go.lost && After(s, es).py.lost <= s.py.lost
    ensures After(s, es).tables.votes == s.tables.votes
    ensures After(s, es).tables.videos.Keys == s.tables.videos.Keys
  {
    if es != [] {
      var init, last := es[..|es| - 1], es[|es| - 1];
      assert last in es && forall e :: e in init ==> e in es;
      WorkRunsAreBounded(s, init);
      TotalDecreases(After(s, init), last);
      WorkLosesNothing(After(s, init), last);
    }
  }

  /** When no work step is possible any more, every video has the right scores,
      in every schedule, unless its notification was lost by both workers or by
      the one that recalculated it last. */
  lemma DrainedIsSettled(s: State, es: seq<Event>)
    requires Inv(s) && Possible(s, es) && AllWork(es)
    requires forall e :: IsWork(e) ==> !Enabled(After(s, es), e)
    ensures Quiet(After(s, es))
    ensures var s' := After(s, es);
            forall v :: v in s'.tables.videos && !Settled(s'.tables, v) ==>
              || (v in s'.go.lost && v in s'.py.lost)
              || (v in s'.last && v in Get(s', s'.last[v]).lost)
  {
    RunKeepsInv(s, es);
    NothingPossibleIsQuiet(After(s, es));
  }

  lemma NothingPossibleIsQuiet(s: State)
    requires forall e :: IsWork(e) ==> !Enabled(s, e)
    ensures Quiet(s)
  {
    if !Quiet(s) {
      var e := WorkIsPossible(s, if QuietWorker(s.go) then Py else Go);
    }
  }

  // ---------- exactly which videos a drain settles ----------

  /** The worker's reads of v, if it is recalculating v, are up to date, or it
      will recalculate v again. */
  ghost predicate Rereads(t: Tables, w: Worker, v: Video) {
    v in Current(w) ==> ReadsCurrent(t, w.phase) || v in Queued(w) + w.pending + w.batch
  }

  ghost predicate SettledOrHeld(s: State, v: Video) {
    Settled(s.tables, v) || v in Held(s.go) || v in Held(s.py)
  }

  ghost predicate Drainable(s: State, v: Video) {
    && v in s.tables.videos
    && NoEmptyPayload(s.go) && NoEmptyPayload(s.py)
    && Rereads(s.tables, s.go, v) && Rereads(s.tables, s.py, v)
  }

  lemma DeliverMoves(w: Worker)
    requires w.queue != [] && "" !in w.queue
    ensures Queued(w) == Queued(w.(queue := w.queue[1..])) + {w.queue[0]}
    ensures w.queue[0] != "" && "" !in w.queue[1..]
  {
    assert w.queue == [w.queue[0]] + w.queue[1..];
  }

  lemma DeliverKeepsHeld(w: Worker)
    requires w.queue != [] && "" !in w.queue
    ensures Held(w.(queue := w.queue[1..], pending := w.pending + {w.queue[0]})) == Held(w)
  {
    DeliverMoves(w);
  }

  lemma MoveKeepsHeld(s: State, e: Event, v: Video)
    requires NoEmptyPayload(s.go) && NoEmptyPayload(s.py) && Enabled(s, e) && IsWork(e) && !e.Write?
    ensures Next(s, e).tables == s.tables
    ensures v in Held(Get(Next(s, e), e.who)) <==> v in Held(Get(s, e.who))
  {
    if e.Deliver? {
      DeliverMoves(Get(s, e.who));
      DeliverKeepsHeld(Get(s, e.who));
    }
  }

  lemma MoveKeeps(s: State, e: Event, v: Video)
    requires Drainable(s, v) && Enabled(s, e) && IsWork(e) && !e.Write?
    ensures Drainable(Next(s, e), v) && Next(s, e).tables == s.tables
    ensures v in Held(Get(Next(s, e), e.who)) <==> v in Held(Get(s, e.who))
  {
    MoveKeepsHeld(s, e, v);
    MoveKeepsLate(s, e, v);
    ServingStays(s, e, v);
  }

  lemma WriteDrains(s: State, who: Who, v: Video)
    requires Drainable(s, v) && Enabled(s, Write(who))
    ensures Drainable(Next(s, Write(who)), v)
    ensures SettledOrHeld(Next(s, Write(who)), v) <==> SettledOrHeld(s, v)
  {
    var w, s', t := Get(s, who), Next(s, Write(who)), s.tables;
    var sums := if w.phase.ReadSums? then w.phase.sums else map[];
    WritesAreLocal(t, w.phase.video, w.phase.total, sums);
    if w.phase.video != v {
      UnwrittenVideo(s, who, v);
    } else if ReadsCurrent(t, w.phase) {
      ZeroRead(t, v, sums, CategoryWeights(t.votes, v));
      RecalculationIsRight(t, v);
    }
  }

  lemma {:induction false} DrainKeeps(s: State, es: seq<Event>, v: Video)
    requires Drainable(s, v) && Possible(s, es) && AllWork(es)
    ensures Drainable(After(s, es), v) && (SettledOrHeld(After(s, es), v) <==> SettledOrHeld(s, v))
  {
    if es != [] {
      var init, e := es[..|es| - 1], es[|es| - 1];
      assert e in es && forall e :: e in init ==> e in es;
      DrainKeeps(s, init, v);
      if e.Write? {
        WriteDrains(After(s, init), e.who, v);
      } else {
        MoveKeeps(After(s, init), e, v);
      }
    }
  }

  /** Exactly what a complete drain settles, in every schedule: the videos that
      were settled and those that some worker held, as long as no worker is about to
      commit old reads of v for good. */
  lemma DrainSettlesIff(s: State, es: seq<Event>, v: Video)
    requires Drainable(s, v) && Possible(s, es) && AllWork(es)
    requires forall e :: IsWork(e) ==> !Enabled(After(s, es), e)
    ensures Settled(After(s, es).tables, v) <==> Settled(s.tables, v) || v in Held(s.go) || v in Held(s.py)
  {
    DrainKeeps(s, es, v);
    NothingPossibleIsQuiet(After(s, es));
    assert Held(After(s, es).go) == {} && Held(After(s, es).py) == {};
  }

  // ---------- with old reads about to be committed for good ----------

  ghost predicate Late(t: Tables, w: Worker, v: Video) {
    !Rereads(t, w, v)
  }

  /** What the worker's running recalculation commits in a drain: it keeps its total,
      and makes its second read, if that is still to come, from the votes as they are. */
  ghost function Committed(t: Tables, w: Worker): Tables
    requires !w.phase.Idle?
  {
    var sums := if w.phase.ReadSums? then w.phase.sums
                else if w.phase.total == 0.0 then map[]
                else CategoryWeights(t.votes, w.phase.video);
    WriteScores(t, w.phase.video, w.phase.total, sums)
  }

  /** The tables, as far as v goes, once the worker has finished everything it holds. */
  ghost function Finished(t: Tables, w: Worker, v: Video): Tables {
    if v !in Held(w) then t else if Late(t, w, v) then Committed(t, w) else Recalculated(t, v)
  }

  /** The tables, as far as v goes, if the late worker commits last of all. */
  ghost function LateOutcome(s: State, who: Who): Tables
    requires !Get(s, who).phase.Idle?
  {
    Committed(Finished(s.tables, Get(s, Other(who)), Get(s, who).phase.video), Get(s, who))
  }

  ghost predicate LateIsRight(s: State, who: Who, v: Video) {
    Late(s.tables, Get(s, who), v) ==> Settled(LateOutcome(s, who), v)
  }

  /** Either no worker is late and v is settled or held, or every late worker would
      store the right scores by committing last. */
  ghost predicate AlwaysSettles(s: State, v: Video) {
    if Late(s.tables, s.go, v) || Late(s.tables, s.py, v)
    then LateIsRight(s, Go, v) && LateIsRight(s, Py, v)
    else SettledOrHeld(s, v)
  }

  /** Equal in all that decides whether v is settled, and in which rows of v exist. */
  ghost predicate Alike(t: Tables, t': Tables, v: Video) {
    && t'.votes == t.votes && v in t.videos && v in t'.videos
    && t'.videos[v].score == t.videos[v].score
    && (forall c :: (v, c) in t'.categories <==> (v, c) in t.categories)
    && (forall c :: (v, c) in t.categories && (TotalWeight(t.votes, v) == 0.0 || c in LiveCategories(t.votes, v)) ==>
          t'.categories[(v, c)].weightedScore == t.categories[(v, c)].weightedScore)
  }

  lemma AlikeSettled(t: Tables, t': Tables, v: Video)
    requires Alike(t, t', v)
    ensures Settled(t', v) <==> Settled(t, v)
  {
    assert SharesRight(t', v) <==> SharesRight(t, v);
  }

  lemma AlikeWrites(t: Tables, t': Tables, v: Video, total: real, sums: map<Category, real>)
    requires Alike(t, t', v)
    ensures Alike(WriteScores(t, v, total, sums), WriteScores(t', v, total, sums), v)
  {
  }

  lemma OtherWriteAlike(t: Tables, u: Video, v: Video, total: real, sums: map<Category, real>)
    requires v in t.videos && u != v
    ensures Alike(t, WriteScores(t, u, total, sums), v)
  {
  }

  /** A recalculation from current reads decides everything, whatever was there before. */
  lemma RecalculatedAlike(t: Tables, t': Tables, v: Video)
    requires t'.votes == t.votes && v in t.videos && v in t'.videos
    requires forall c :: (v, c) in t'.categories <==> (v, c) in t.categories
    ensures Alike(Recalculated(t, v), Recalculated(t', v), v)
  {
  }

  lemma CommittedAlike(t: Tables, t': Tables, w: Worker)
    requires !w.phase.Idle? && Alike(t, t', w.phase.video)
    ensures Alike(Committed(t, w), Committed(t', w), w.phase.video)
  {
    var sums := if w.phase.ReadSums? then w.phase.sums
                else if w.phase.total == 0.0 then map[]
                else CategoryWeights(t.votes, w.phase.video);
    AlikeWrites(t, t', w.phase.video, w.phase.total, sums);
  }

  ghost predicate Serving(s: State, v: Video) {
    v in s.tables.videos && NoEmptyPayload(s.go) && NoEmptyPayload(s.py)
  }

  lemma ServingStays(s: State, e: Event, v: Video)
    requires Serving(s, v) && Enabled(s, e) && IsWork(e)
    ensures Serving(Next(s, e), v) && Next(s, e).tables.votes == s.tables.votes
    ensures Get(Next(s, e), Other(e.who)) == Get(s, Other(e.who))
  {
    if e.Deliver? { DeliverMoves(Get(s, e.who)); }
  }

  lemma MoveKeepsLate(s: State, e: Event, v: Video)
    requires Serving(s, v) && Enabled(s, e) && IsWork(e) && !e.Write?
    ensures Late(s.tables, Get(Next(s, e), e.who), v) <==> Late(s.tables, Get(s, e.who), v)
  {
    if e.Deliver? { DeliverMoves(Get(s, e.who)); }
  }

  lemma MoveKeepsCommit(s: State, e: Event, b: Tables, v: Video)
    requires Serving(s, v) && Enabled(s, e) && IsWork(e) && !e.Write? && b.votes == s.tables.votes
    requires Late(s.tables, Get(s, e.who), v)
    ensures var w, w' := Get(s, e.who), Get(Next(s, e), e.who);
            && !w'.phase.Idle? && w'.phase.video == w.phase.video == v
            && Committed(b, w') == Committed(b, w)
  {
  }

  lemma MoveFinished(s: State, e: Event, v: Video)
    requires Serving(s, v) && Enabled(s, e) && IsWork(e) && !e.Write?
    ensures Next(s, e).tables == s.tables
    ensures Finished(s.tables, Get(Next(s, e), e.who), v) == Finished(s.tables, Get(s, e.who), v)
  {
    MoveKeepsHeld(s, e, v);
    MoveKeepsLate(s, e, v);
    if Late(s.tables, Get(s, e.who), v) { MoveKeepsCommit(s, e, s.tables, v); }
  }

  lemma LateCommit(s: State, who: Who, v: Video)
    requires Enabled(s, Write(who)) && Late(s.tables, Get(s, who), v)
    ensures var s' := Next(s, Write(who));
            && s'.tables == Committed(s.tables, Get(s, who)) && v in Current(Get(s, who))
            && v !in Held(Get(s', who)) && !Late(s'.tables, Get(s', who), v)
  {
  }

  lemma OtherWriteFinished(s: State, who: Who, v: Video)
    requires Serving(s, v) && Enabled(s, Write(who)) && Get(s, who).phase.video != v
    ensures var s' := Next(s, Write(who));
            && s'.tables.votes == s.tables.votes && v in s'.tables.videos && !Late(s'.tables, Get(s', who), v)
            && Alike(Finished(s.tables, Get(s, who), v), Finished(s'.tables, Get(s', who), v), v)
  {
    var w, s', t := Get(s, who), Next(s, Write(who)), s.tables;
    var sums := if w.phase.ReadSums? then w.phase.sums else map[];
    WritesAreLocal(t, w.phase.video, w.phase.total, sums);
    OtherWriteAlike(t, w.phase.video, v, w.phase.total, sums);
    RecalculatedAlike(t, s'.tables, v);
  }

  lemma HeldFinishes(t: Tables, w: Worker, v: Video)
    requires v in Held(w) && !Late(t, w, v)
    ensures Finished(t, w, v) == Recalculated(t, v)
  {
  }

  lemma CurrentWriteFinished(s: State, who: Who)
    requires Enabled(s, Write(who)) && Serving(s, Get(s, who).phase.video)
    requires ReadsCurrent(s.tables, Get(s, who).phase)
    ensures var v, s' := Get(s, who).phase.video, Next(s, Write(who));
            s'.tables == Recalculated(s.tables, v) && v in s'.tables.videos && s'.tables.votes == s.tables.votes
  {
    var w, t := Get(s, who), s.tables;
    var sums := if w.phase.ReadSums? then w.phase.sums else map[];
    ZeroRead(t, w.phase.video, sums, CategoryWeights(t.votes, w.phase.video));
  }

  lemma WriterIsIdle(s: State, who: Who, v: Video)
    requires Enabled(s, Write(who))
    ensures var w, w' := Get(s, who), Get(Next(s, Write(who)), who);
            && !Late(Next(s, Write(who)).tables, w', v)
            && w'.queue == w.queue && w'.pending == w.pending && w'.batch == w.batch && w'.phase.Idle?
  {
  }

  lemma OwnWriteFinished(s: State, who: Who)
    requires Enabled(s, Write(who)) && Serving(s, Get(s, who).phase.video)
    requires !Late(s.tables, Get(s, who), Get(s, who).phase.video)
    ensures var s', v := Next(s, Write(who)), Get(s, who).phase.video;
            && s'.tables.votes == s.tables.votes && v in s'.tables.videos && !Late(s'.tables, Get(s', who), v)
            && Alike(Finished(s.tables, Get(s, who), v), Finished(s'.tables, Get(s', who), v), v)
  {
    var w, s', t := Get(s, who), Next(s, Write(who)), s.tables;
    var v := w.phase.video;
    var sums := if w.phase.ReadSums? then w.phase.sums else map[];
    WritesAreLocal(t, v, w.phase.total, sums);
    WriterIsIdle(s, who, v);
    RecalculatedAlike(t, s'.tables, v);
    HeldFinishes(t, w, v);
    if v in Held(Get(s', who)) {
      HeldFinishes(s'.tables, Get(s', who), v);
    } else {
      assert ReadsCurrent(t, w.phase);
      CurrentWriteFinished(s, who);
    }
  }

  lemma WriteFinished(s: State, who: Who, v: Video)
    requires Serving(s, v) && Enabled(s, Write(who)) && !Late(s.tables, Get(s, who), v)
    ensures var s' := Next(s, Write(who));
            && s'.tables.votes == s.tables.votes && v in s'.tables.videos && !Late(s'.tables, Get(s', who), v)
            && Alike(Finished(s.tables, Get(s, who), v), Finished(s'.tables, Get(s', who), v), v)
  {
    if Get(s, who).phase.video == v { OwnWriteFinished(s, who); } else { OtherWriteFinished(s, who, v); }
  }

  lemma LateIsCurrent(t: Tables, w: Worker, v: Video)
    requires Late(t, w, v)
    ensures !w.phase.Idle? && w.phase.video == v
  {
  }

  lemma OwnMoveKeepsOutcome(s: State, e: Event, v: Video)
    requires Serving(s, v) && Enabled(s, e) && IsWork(e) && !e.Write? && Late(s.tables, Get(s, e.who), v)
    ensures Late(Next(s, e).tables, Get(Next(s, e), e.who), v)
    ensures LateOutcome(Next(s, e), e.who) == LateOutcome(s, e.who)
  {
    var o := Get(s, Other(e.who));
    ServingStays(s, e, v);
    MoveKeepsHeld(s, e, v);
    MoveKeepsLate(s, e, v);
    FinishedKeepsVotes(s.tables, o, v);
    MoveKeepsCommit(s, e, Finished(s.tables, o, v), v);
  }

  lemma FinishedKeepsVotes(t: Tables, w: Worker, v: Video)
    ensures Finished(t, w, v).votes == t.votes
  {
  }

  lemma OtherMoveKeepsOutcome(s: State, e: Event, v: Video)
    requires Serving(s, v) && Enabled(s, e) && IsWork(e) && !e.Write? && Late(s.tables, Get(s, Other(e.who)), v)
    ensures Late(Next(s, e).tables, Get(Next(s, e), Other(e.who)), v)
    ensures LateOutcome(Next(s, e), Other(e.who)) == LateOutcome(s, Other(e.who))
  {
    ServingStays(s, e, v);
    LateIsCurrent(s.tables, Get(s, Other(e.who)), v);
    MoveFinished(s, e, v);
  }

  lemma OtherWriteKeepsOutcome(s: State, who: Who, v: Video)
    requires Serving(s, v) && Enabled(s, Write(who)) && Late(s.tables, Get(s, Other(who)), v)
    ensures Late(Next(s, Write(who)).tables, Get(Next(s, Write(who)), Other(who)), v)
    ensures Settled(LateOutcome(Next(s, Write(who)), Other(who)), v) <==> Settled(LateOutcome(s, Other(who)), v)
  {
    var s', late := Next(s, Write(who)), Get(s, Other(who));
    ServingStays(s, Write(who), v);
    LateIsCurrent(s.tables, late, v);
    OtherCommits(s, who, v);
    CommittedAlike(Finished(s.tables, Get(s, who), v), Finished(s'.tables, Get(s', who), v), late);
    AlikeSettled(LateOutcome(s, Other(who)), LateOutcome(s', Other(who)), v);
  }

  /** As long as the late worker does not commit, nothing changes what its commit will be worth. */
  lemma OutcomeKept(s: State, e: Event, who: Who, v: Video)
    requires Serving(s, v) && Enabled(s, e) && IsWork(e) && e != Write(who)
    requires Late(s.tables, Get(s, who), v)
    ensures Late(Next(s, e).tables, Get(Next(s, e), who), v)
    ensures Settled(LateOutcome(Next(s, e), who), v) <==> Settled(LateOutcome(s, who), v)
  {
    if e.who == who {
      OwnMoveKeepsOutcome(s, e, v);
    } else if e.Write? {
      OtherWriteKeepsOutcome(s, e.who, v);
    } else {
      OtherMoveKeepsOutcome(s, e, v);
    }
  }

  lemma OtherCommits(s: State, who: Who, v: Video)
    requires Serving(s, v) && Enabled(s, Write(who))
    ensures var s' := Next(s, Write(who));
            Alike(Finished(s.tables, Get(s, who), v), Finished(s'.tables, Get(s', who), v), v)
  {
    if Late(s.tables, Get(s, who), v) {
      LateCommit(s, who, v);
      WritesAreLocal(s.tables, v, Get(s, who).phase.total,
                     if Get(s, who).phase.ReadSums? then Get(s, who).phase.sums else map[]);
    } else {
      WriteFinished(s, who, v);
    }
  }

  lemma LateCommitSettles(s: State, who: Who, v: Video)
    requires Serving(s, v) && Enabled(s, Write(who)) && Late(s.tables, Get(s, who), v)
    requires !Late(s.tables, Get(s, Other(who)), v)
    ensures var s' := Next(s, Write(who));
            && !Late(s'.tables, s'.go, v) && !Late(s'.tables, s'.py, v)
            && (v !in Held(Get(s, Other(who))) ==> (SettledOrHeld(s', v) <==> Settled(LateOutcome(s, who), v)))
            && (v in Held(Get(s, Other(who))) ==> SettledOrHeld(s', v))
  {
    ServingStays(s, Write(who), v);
    LateCommit(s, who, v);
  }

  lemma NotLateStep(s: State, e: Event, v: Video)
    requires Serving(s, v) && Enabled(s, e) && IsWork(e)
    requires !Late(s.tables, s.go, v) && !Late(s.tables, s.py, v)
    ensures AlwaysSettles(Next(s, e), v) <==> AlwaysSettles(s, v)
  {
    if e.Write? { WriteDrains(s, e.who, v); } else { MoveKeeps(s, e, v); }
  }

  lemma WorkKeepsAlways(s: State, e: Event, v: Video)
    requires Serving(s, v) && Enabled(s, e) && IsWork(e) && AlwaysSettles(s, v)
    ensures AlwaysSettles(Next(s, e), v)
  {
    var x, o := e.who, Other(e.who);
    ServingStays(s, e, v);
    if !Late(s.tables, s.go, v) && !Late(s.tables, s.py, v) {
      NotLateStep(s, e, v);
    } else {
      if Late(s.tables, Get(s, o), v) { OutcomeKept(s, e, o, v); }
      if Late(s.tables, Get(s, x), v) {
        if !e.Write? {
          OutcomeKept(s, e, x, v);
        } else if !Late(s.tables, Get(s, o), v) {
          LateCommitSettles(s, x, v);
        } else {
          LateCommit(s, x, v);
        }
      } else if e.Write? {
        WriteFinished(s, x, v);
      } else {
        MoveKeepsHeld(s, e, v);
        MoveKeepsLate(s, e, v);
      }
    }
  }

  lemma {:induction false} DrainKeepsAlways(s: State, es: seq<Event>, v: Video)
    requires Serving(s, v) && AlwaysSettles(s, v) && Possible(s, es) && AllWork(es)
    ensures Serving(After(s, es), v) && AlwaysSettles(After(s, es), v)
  {
    if es != [] {
      var init, e := es[..|es| - 1], es[|es| - 1];
      assert e in es && forall e :: e in init ==> e in es;
      DrainKeepsAlways(s, init, v);
      ServingStays(After(s, init), e, v);
      WorkKeepsAlways(After(s, init), e, v);
    }
  }

  /** Where some schedule goes wrong, one more step can be chosen so that some still does. */
  lemma WrongStep(s: State, v: Video) returns (e: Event)
    requires Serving(s, v) && !AlwaysSettles(s, v) && !Quiet(s)
    ensures Enabled(s, e) && IsWork(e) && Serving(Next(s, e), v) && !AlwaysSettles(Next(s, e), v)
  {
    if !Late(s.tables, s.go, v) && !Late(s.tables, s.py, v) {
      e := WorkIsPossible(s, if QuietWorker(s.go) then Py else Go);
      ServingStays(s, e, v);
      NotLateStep(s, e, v);
    } else {
      var who := if !LateIsRight(s, Go, v) then Go else Py;
      e := WrongLateStep(s, who, v);
    }
  }

  lemma WrongLateStep(s: State, who: Who, v: Video) returns (e: Event)
    requires Serving(s, v) && !LateIsRight(s, who, v)
    ensures Enabled(s, e) && IsWork(e) && Serving(Next(s, e), v) && !AlwaysSettles(Next(s, e), v)
  {
    if !QuietWorker(Get(s, Other(who))) {
      e := WorkIsPossible(s, Other(who));
      ServingStays(s, e, v);
      OutcomeKept(s, e, who, v);
    } else {
      e := WorkIsPossible(s, who);
      ServingStays(s, e, v);
      if e == Write(who) {
        LateCommitSettles(s, who, v);
      } else {
        OutcomeKept(s, e, who, v);
      }
    }
  }

  lemma {:induction false} WrongDrain(s: State, before: seq<Event>, v: Video) returns (es: seq<Event>)
    requires Possible(s, before) && AllWork(before)
    requires Serving(After(s, before), v) && !AlwaysSettles(After(s, before), v)
    ensures Possible(s, es) && AllWork(es) && Quiet(After(s, es)) && !Settled(After(s, es).tables, v)
    decreases Measure(After(s, before))
  {
    var s' := After(s, before);
    if Quiet(s') {
      es := before;
    } else {
      var e := WrongStep(s', v);
      TotalDecreases(s', e);
      OneMore(s, before, e);
      es := WrongDrain(s, before + [e], v);
    }
  }

  /** Exactly when a drain settles v whatever the schedule: if no worker is about to
      commit old reads of v for good, when v is settled or held; else when each worker
      that is would leave v settled by committing after everything else. In particular
      the worst schedule lets a late worker commit last. */
  lemma DrainAlwaysSettlesIff(s: State, v: Video)
    requires Serving(s, v)
    ensures AlwaysSettles(s, v) <==>
              forall es :: Possible(s, es) && AllWork(es) && Quiet(After(s, es)) ==> Settled(After(s, es).tables, v)
  {
    if AlwaysSettles(s, v) {
      forall es | Possible(s, es) && AllWork(es) && Quiet(After(s, es)) ensures Settled(After(s, es).tables, v) {
        DrainKeepsAlways(s, es, v);
      }
    } else {
      var es := WrongDrain(s, [], v);
    }
  }

  /** A complete drain exists from every state. */
  lemma {:induction false} DrainExists(s: State, before: seq<Event>) returns (es: seq<Event>)
    requires Possible(s, before) && AllWork(before)
    ensures before <= es && Possible(s, es) && AllWork(es) && Quiet(After(s, es))
    decreases Measure(After(s, before))
  {
    var s' := After(s, before);
    if Quiet(s') {
      es := before;
    } else {
      var e := WorkIsPossible(s', if QuietWorker(s'.go) then Py else Go);
      TotalDecreases(s', e);
      var longer := before + [e];
      assert longer[..|longer| - 1] == before;
      es := DrainExists(s, longer);
    }
  }

  // ---------- the lost set is needed ----------

  lemma OneMore(s: State, es: seq<Event>, e: Event)
    requires Possible(s, es) && Enabled(After(s, es), e)
    ensures Possible(s, es + [e]) && After(s, es + [e]) == Next(After(s, es), e)
  {
  }

  const STARTED := Worker(true, [], {}, {}, Idle, {})

  function DroppedBy(who: Who, v: Video): seq<Event> {
    [Deliver(who)] + [Swap(who)] + [Fail(who, v)]
  }

  /** A worker that receives one notification and fails it holds nothing afterwards. */
  lemma DropIsPossible(s: State, es: seq<Event>, who: Who, v: Video)
    requires v != "" && Possible(s, es) && Get(After(s, es), who) == STARTED.(queue := [v])
    ensures Possible(s, es + DroppedBy(who, v))
    ensures After(s, es + DroppedBy(who, v)) == Put(After(s, es), who, STARTED.(lost := {v}))
  {
    var e1 := es + [Deliver(who)];
    OneMore(s, es, Deliver(who));
    assert Get(After(s, e1), who) == STARTED.(pending := {v});
    var e2 := e1 + [Swap(who)];
    OneMore(s, e1, Swap(who));
    assert Get(After(s, e2), who) == STARTED.(batch := {v});
    OneMore(s, e2, Fail(who, v));
    assert e2 + [Fail(who, v)] == es + DroppedBy(who, v);
  }

  /** Lost by both: one vote, both workers fail once, nothing is held any more,
      no recalculation was committed, and the score is still zero. */
  lemma LostUpdateExample(v: Video, u: User, c: Category)
    requires v != ""
    ensures var s := State(EMPTY, STARTED, STARTED, map[]);
            var es := [Event.Vote(Submit(v, u, c))] + DroppedBy(Go, v) + DroppedBy(Py, v);
            && Init(s) && Possible(s, es)
            && Quiet(After(s, es)) && After(s, es).last == map[]
            && v in After(s, es).tables.videos && !Settled(After(s, es).tables, v)
  {
    var s := State(EMPTY, STARTED, STARTED, map[]);
    var e1 := [Event.Vote(Submit(v, u, c))];
    EmptyIsInit();
    FirstVote(v, u, c);
    var e2 := e1 + DroppedBy(Go, v);
    DropIsPossible(s, e1, Go, v);
    var e3 := e2 + DroppedBy(Py, v);
    DropIsPossible(s, e2, Py, v);
    FirstVoteUnscored(v, u, c);
    assert After(s, e3) == State(Apply(EMPTY, Submit(v, u, c)), STARTED.(lost := {v}), STARTED.(lost := {v}), map[]);
  }

  /** Lost without any failed recalculation: one worker's connection is down and the
      other worker has crashed when the vote commits. Both come back, nothing is
      replayed, and there is nothing left to do. */
  lemma OutageExample(v: Video, u: User, c: Category)
    requires v != ""
    ensures var s := State(EMPTY, STARTED, STARTED, map[]);
            var es := [] + ([Disconnect(Go)] + [Crash(Py)] + [Event.Vote(Submit(v, u, c))])
                      + ([Reconnect(Go)] + [Reconnect(Py)]);
            && Init(s) && Possible(s, es) && Quiet(After(s, es))
            && After(s, es).go.listening && After(s, es).py.listening
            && v in After(s, es).tables.videos && !Settled(After(s, es).tables, v)
  {
    var s := State(EMPTY, STARTED, STARTED, map[]);
    var none: seq<Event> := [];
    var e3 := none + ([Disconnect(Go)] + [Crash(Py)] + [Event.Vote(Submit(v, u, c))]);
    EmptyIsInit();
    ThreeMore(s, none, Disconnect(Go), Crash(Py), Event.Vote(Submit(v, u, c)));
    OneMore(s, e3, Reconnect(Go));
    OneMore(s, e3 + [Reconnect(Go)], Reconnect(Py));
    assert e3 + [Reconnect(Go)] + [Reconnect(Py)] == e3 + ([Reconnect(Go)] + [Reconnect(Py)]);
    FirstVoteUnscored(v, u, c);
  }

  /** A recalculation whose steps nothing interrupts is the one of the score service:
      right for the votes as they are, and it takes the video off the worker's batch. */
  lemma UninterruptedRecalculation(s: State, who: Who, v: Video)
    requires Get(s, who).phase.Idle? && v in Get(s, who).batch
    ensures Enabled(s, Begin(who, v))
    ensures var s1 := Next(s, Begin(who, v));
            var s2 := if Enabled(s1, Read(who)) then Next(s1, Read(who)) else s1;
            && Enabled(s2, Write(who))
            && var s3, w := Next(s2, Write(who)), Get(s, who);
               && s3.tables == Recalculated(s.tables, v) && s3.last == s.last[v := who]
               && Get(s3, who) == w.(batch := w.batch - {v}, lost := w.lost - {v})
               && Get(s3, Other(who)) == Get(s, Other(who))
  {
    var s1 := Next(s, Begin(who, v));
    var total, sums := TotalWeight(s.tables.votes, v), CategoryWeights(s.tables.votes, v);
    assert Get(s1, who).phase == ReadTotal(v, total) && s1.tables == s.tables && s1.last == s.last;
    if total == 0.0 {
      ZeroRead(s.tables, v, map[], sums);
    } else {
      assert Get(Next(s1, Read(who)), who).phase == ReadSums(v, total, sums);
    }
  }

  /** A lost connection costs a worker exactly what was not delivered, a crash
      everything it held; the other worker and the tables notice neither. */
  lemma OutageLoses(s: State, who: Who)
    requires Get(s, who).listening
    ensures var w := Get(s, who);
            var cut, crashed := Get(Next(s, Disconnect(who)), who), Get(Next(s, Crash(who)), who);
            && !cut.listening && Held(cut) == w.pending + w.batch + Current(w) && cut.lost == w.lost + Queued(w)
            && cut.pending == w.pending && cut.batch == w.batch && cut.phase == w.phase
            && !crashed.listening && Held(crashed) == {} && crashed.lost == w.lost + Held(w)
    ensures forall e :: e in {Disconnect(who), Crash(who)} ==>
              Get(Next(s, e), Other(who)) == Get(s, Other(who)) && Next(s, e).tables == s.tables
  {
  }

  // ---------- one loss is enough if it is the last writer's ----------

  function BeginBy(who: Who, v: Video): seq<Event> {
    [Deliver(who)] + [Swap(who)] + [Begin(who, v)]
  }

  function ReadBy(who: Who, v: Video): seq<Event> {
    BeginBy(who, v) + [Read(who)]
  }

  function ZeroBy(who: Who, v: Video): seq<Event> {
    [Deliver(who)] + BeginBy(who, v) + [Write(who)]
  }

  lemma ThreeMore(s: State, es: seq<Event>, a: Event, b: Event, c: Event)
    requires Possible(s, es) && Enabled(After(s, es), a) && Enabled(Next(After(s, es), a), b)
    requires Enabled(Next(Next(After(s, es), a), b), c)
    ensures Possible(s, es + ([a] + [b] + [c]))
    ensures After(s, es + ([a] + [b] + [c])) == Next(Next(Next(After(s, es), a), b), c)
  {
    OneMore(s, es, a);
    OneMore(s, es + [a], b);
    OneMore(s, es + [a] + [b], c);
    assert es + [a] + [b] + [c] == es + ([a] + [b] + [c]);
  }

  /** The three steps that bring a worker with one notified video to its first read. */
  lemma BeginSteps(s: State, who: Who, v: Video)
    requires v != "" && Get(s, who).(pending := {}) == STARTED.(queue := [v]) && Get(s, who).pending <= {v}
    ensures Enabled(s, Deliver(who)) && Enabled(Next(s, Deliver(who)), Swap(who))
    ensures Enabled(Next(Next(s, Deliver(who)), Swap(who)), Begin(who, v))
    ensures Next(Next(Next(s, Deliver(who)), Swap(who)), Begin(who, v))
         == Put(s, who, STARTED.(phase := ReadTotal(v, TotalWeight(s.tables.votes, v))))
  {
    var s1 := Next(s, Deliver(who));
    assert s1 == Put(s, who, STARTED.(pending := {v}));
    var s2 := Next(s1, Swap(who));
    assert s2 == Put(s, who, STARTED.(batch := {v}));
    assert {v} - {v} == {};
  }

  lemma BeginIsPossible(s: State, es: seq<Event>, who: Who, v: Video)
    requires v != "" && Possible(s, es)
    requires Get(After(s, es), who).(pending := {}) == STARTED.(queue := [v]) && Get(After(s, es), who).pending <= {v}
    ensures Possible(s, es + BeginBy(who, v))
    ensures After(s, es + BeginBy(who, v)) ==
            Put(After(s, es), who, STARTED.(phase := ReadTotal(v, TotalWeight(After(s, es).tables.votes, v))))
  {
    BeginSteps(After(s, es), who, v);
    ThreeMore(s, es, Deliver(who), Swap(who), Begin(who, v));
  }

  /** A worker with one notification starts recalculating and reads twice. */
  lemma ReadIsPossible(s: State, es: seq<Event>, who: Who, v: Video)
    requires v != "" && Possible(s, es) && Get(After(s, es), who) == STARTED.(queue := [v])
    requires TotalWeight(After(s, es).tables.votes, v) != 0.0
    ensures Possible(s, es + ReadBy(who, v))
    ensures var t := After(s, es).tables;
            After(s, es + ReadBy(who, v)) ==
            Put(After(s, es), who,
                STARTED.(phase := ReadSums(v, TotalWeight(t.votes, v), CategoryWeights(t.votes, v))))
  {
    BeginIsPossible(s, es, who, v);
    OneMore(s, es + BeginBy(who, v), Read(who));
    assert es + BeginBy(who, v) + [Read(who)] == es + ReadBy(who, v);
  }

  /** A worker with two notifications of a video without votes recalculates it once. */
  lemma ZeroIsPossible(s: State, es: seq<Event>, who: Who, v: Video)
    requires v != "" && Possible(s, es) && Get(After(s, es), who) == STARTED.(queue := [v, v])
    requires TotalWeight(After(s, es).tables.votes, v) == 0.0
    ensures Possible(s, es + ZeroBy(who, v))
    ensures var s' := After(s, es);
            After(s, es + ZeroBy(who, v)) ==
            Put(s', who, STARTED).(tables := WriteScores(s'.tables, v, 0.0, map[]), last := s'.last[v := who])
  {
    var s1 := Put(After(s, es), who, STARTED.(queue := [v], pending := {v}));
    DeliveredOnce(After(s, es), who, v);
    OneMore(s, es, Deliver(who));
    BeginIsPossible(s, es + [Deliver(who)], who, v);
    ZeroWritten(After(s, es), Put(s1, who, STARTED.(phase := ReadTotal(v, 0.0))), who, v);
    LastOfZero(s, es, who, v);
  }

  lemma LastOfZero(s: State, es: seq<Event>, who: Who, v: Video)
    requires var before := es + [Deliver(who)] + BeginBy(who, v);
             Possible(s, before) && Enabled(After(s, before), Write(who))
    ensures Possible(s, es + ZeroBy(who, v))
    ensures After(s, es + ZeroBy(who, v)) == Next(After(s, es + [Deliver(who)] + BeginBy(who, v)), Write(who))
  {
    var before := es + [Deliver(who)] + BeginBy(who, v);
    OneMore(s, before, Write(who));
    assert before + [Write(who)] == es + ZeroBy(who, v);
  }

  lemma DeliveredOnce(s: State, who: Who, v: Video)
    requires v != "" && Get(s, who) == STARTED.(queue := [v, v])
    ensures Enabled(s, Deliver(who))
    ensures Next(s, Deliver(who)) == Put(s, who, STARTED.(queue := [v], pending := {v}))
  {
  }

  lemma ZeroWritten(s: State, s': State, who: Who, v: Video)
    requires s' == Put(s, who, STARTED.(phase := ReadTotal(v, 0.0)))
    ensures Enabled(s', Write(who))
    ensures Next(s', Write(who)) ==
            Put(s, who, STARTED).(tables := WriteScores(s.tables, v, 0.0, map[]), last := s.last[v := who])
  {
  }

  /** Go reads a vote, and the vote is withdrawn. */
  function ReadThenWithdraw(v: Video, u: User, c: Category): seq<Event> {
    [Event.Vote(Submit(v, u, c))] + ReadBy(Go, v) + [Event.Vote(Delete(v, u))]
  }

  /** After that Py recalculates, Go's connection drops with the second
      notification, and Go commits what it had read. */
  function LateWrite(v: Video, u: User, c: Category): seq<Event> {
    ReadThenWithdraw(v, u, c) + ZeroBy(Py, v) + [Disconnect(Go)] + [Write(Go)]
  }

  function Withdrawn(v: Video, u: User, c: Category): Tables {
    Apply(Apply(EMPTY, Submit(v, u, c)), Delete(v, u))
  }

  ghost function OldReads(v: Video, u: User, c: Category): Phase {
    var votes := Apply(EMPTY, Submit(v, u, c)).votes;
    ReadSums(v, TotalWeight(votes, v), CategoryWeights(votes, v))
  }

  lemma WithdrawnWhileRead(v: Video, u: User, c: Category)
    requires v != ""
    ensures var s, es := State(EMPTY, STARTED, STARTED, map[]), ReadThenWithdraw(v, u, c);
            && Possible(s, es)
            && After(s, es) == State(Withdrawn(v, u, c), STARTED.(phase := OldReads(v, u, c), queue := [v]),
                                     STARTED.(queue := [v, v]), map[])
  {
    var s := State(EMPTY, STARTED, STARTED, map[]);
    FirstVote(v, u, c);
    FirstVoteWeighs(v, u, c);
    var e1 := [Event.Vote(Submit(v, u, c))];
    ReadIsPossible(s, e1, Go, v);
    OneMore(s, e1 + ReadBy(Go, v), Event.Vote(Delete(v, u)));
  }

  lemma LateWriteIsPossible(s: State, es: seq<Event>, v: Video, stale: Phase)
    requires v != "" && Possible(s, es) && stale.ReadSums? && stale.video == v
    requires var s' := After(s, es);
             s'.go == STARTED.(phase := stale, queue := [v]) && s'.py == STARTED && v in s'.last
    ensures Possible(s, es + [Disconnect(Go)] + [Write(Go)])
    ensures var s' := After(s, es);
            After(s, es + [Disconnect(Go)] + [Write(Go)]) ==
            State(WriteScores(s'.tables, v, stale.total, stale.sums),
                  STARTED.(listening := false, lost := {v}), STARTED, s'.last[v := Go])
  {
    var e1 := es + [Disconnect(Go)];
    OneMore(s, es, Disconnect(Go));
    assert After(s, e1).go == STARTED.(phase := stale, listening := false, lost := {v});
    OneMore(s, e1, Write(Go));
  }

  /** Lost by the last writer alone: Py has lost nothing and has scored the video
      correctly, yet the score ends wrong with nothing left to correct it. */
  lemma LateWriteExample(v: Video, u: User, c: Category)
    requires v != ""
    ensures var s := State(EMPTY, STARTED, STARTED, map[]);
            Init(s) && Possible(s, LateWrite(v, u, c))
    ensures var s' := After(State(EMPTY, STARTED, STARTED, map[]), LateWrite(v, u, c));
            && Quiet(s') && s'.py.lost == {} && s'.go.lost == {v} && s'.last == map[v := Go]
            && v in s'.tables.videos && !Settled(s'.tables, v)
  {
    EmptyIsInit();
    LateWriteRuns(v, u, c);
    LateScoreIsWrong(v, u, c);
  }

  lemma LateWriteRuns(v: Video, u: User, c: Category)
    requires v != ""
    ensures var s, stale := State(EMPTY, STARTED, STARTED, map[]), OldReads(v, u, c);
            && Possible(s, LateWrite(v, u, c))
            && After(s, LateWrite(v, u, c)) ==
               State(WriteScores(WriteScores(Withdrawn(v, u, c), v, 0.0, map[]), v, stale.total, stale.sums),
                     STARTED.(listening := false, lost := {v}), STARTED, map[v := Go])
  {
    WithdrawnWhileRead(v, u, c);
    WithdrawnWeighsNothing(v, u, c);
    ZeroThenLate(State(EMPTY, STARTED, STARTED, map[]), ReadThenWithdraw(v, u, c), v, OldReads(v, u, c));
  }

  lemma ZeroThenLate(s: State, es: seq<Event>, v: Video, stale: Phase)
    requires v != "" && Possible(s, es) && stale.ReadSums? && stale.video == v
    requires After(s, es) == State(After(s, es).tables, STARTED.(phase := stale, queue := [v]),
                                   STARTED.(queue := [v, v]), map[])
    requires TotalWeight(After(s, es).tables.votes, v) == 0.0
    ensures var late := es + ZeroBy(Py, v) + [Disconnect(Go)] + [Write(Go)];
            && Possible(s, late)
            && After(s, late) ==
               State(WriteScores(WriteScores(After(s, es).tables, v, 0.0, map[]), v, stale.total, stale.sums),
                     STARTED.(listening := false, lost := {v}), STARTED, map[v := Go])
  {
    var e1 := es + ZeroBy(Py, v);
    ZeroIsPossible(s, es, Py, v);
    assert After(s, e1).go == STARTED.(phase := stale, queue := [v]) && After(s, e1).last == map[v := Py];
    LateWriteIsPossible(s, e1, v, stale);
    assert map[v := Py][v := Go] == map[v := Go];
  }

  lemma FirstVoteWeighs(v: Video, u: User, c: Category)
    ensures var votes := Apply(EMPTY, Submit(v, u, c)).votes;
            && TotalWeight(votes, v) == DEFAULT_TRUST
            && CategoryWeights(votes, v) == map[c := DEFAULT_TRUST]
            && ScoreFrom(DEFAULT_TRUST, CategoryWeights(votes, v)) >= 100.0
  {
    var votes := Apply(EMPTY, Submit(v, u, c)).votes;
    SumUpdate(EMPTY.votes, WeightOn(v), (v, u), Schema.Vote(c, DEFAULT_TRUST));
    SumUpdate(EMPTY.votes, WeightFor(v, c), (v, u), Schema.Vote(c, DEFAULT_TRUST));
    assert LiveCategories(votes, v) == {c} by { assert (v, u) in votes; }
    assert Shares(CategoryWeights(votes, v), DEFAULT_TRUST)[c] == 100.0;
  }

  lemma WithdrawnWeighsNothing(v: Video, u: User, c: Category)
    ensures var t := Withdrawn(v, u, c);
            t.votes == map[] && TotalWeight(t.votes, v) == 0.0 && v in t.videos
  {
    assert Withdrawn(v, u, c).votes == map[];
    SumOfNothing(Withdrawn(v, u, c).votes, v);
  }

  lemma LateScoreIsWrong(v: Video, u: User, c: Category)
    ensures var t := WriteScores(Withdrawn(v, u, c), v, 0.0, map[]);
            var stale := OldReads(v, u, c);
            var t' := WriteScores(t, v, stale.total, stale.sums);
            v in t'.videos && !Settled(t', v)
  {
    FirstVoteWeighs(v, u, c);
    WithdrawnWeighsNothing(v, u, c);
  }

  lemma EmptyIsInit()
    ensures Init(State(EMPTY, STARTED, STARTED, map[]))
  {
  }

  lemma FirstVote(v: Video, u: User, c: Category)
    requires v != ""
    ensures var s, es := State(EMPTY, STARTED, STARTED, map[]), [Event.Vote(Submit(v, u, c))];
            && Possible(s, es)
            && After(s, es) == State(Apply(EMPTY, Submit(v, u, c)), STARTED.(queue := [v]),
                                     STARTED.(queue := [v]), map[])
  {
  }

  lemma FirstVoteUnscored(v: Video, u: User, c: Category)
    ensures var t := Apply(EMPTY, Submit(v, u, c));
            v in t.videos && !Settled(t, v)
  {
    var t := Apply(EMPTY, Submit(v, u, c));
    FirstVoteWeighs(v, u, c);
    assert (v, u) in VotesOn(t.votes, v);
  }
}
