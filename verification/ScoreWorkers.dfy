/** The score worker as a running object: a pending set filled by notifications,
    swapped out and recalculated once per distinct video. */
module ScoreWorkers {
  import opened Schema
  import opened Scores
  import opened Recalculation
  import opened CacheAside

  class ScoreWorker {
    const svc: ScoreService
    const cache: CacheService
    var pending: set<Video>

    constructor (svc: ScoreService, cache: CacheService)
      ensures this.svc == svc && this.cache == cache && pending == {}
    {
      this.svc, this.cache := svc, cache;
      pending := {};
    }

    /** The empty payload is skipped; a repeated notification changes nothing. */
    method OnNotification(payload: Video)
      modifies this
      ensures pending == old(pending) + if payload == "" then {} else {payload}
    {
      if payload == "" {
        return;
      }
      pending := pending + {payload};
    }

    /** Swap out the pending set and recalculate each of its videos once, in any
        order. A failing video is skipped and forgotten: its rows and its cache
        entry stay as they are, and it is not pending any more. A recalculated video
        that Redis cannot invalidate still counts, and keeps its cache entry. */
    method Flush(failing: set<Video>, unreachable: set<Video>) returns (recalculated: nat)
      modifies this, svc.db, cache
      ensures pending == {}
      ensures svc.db.Contents() == Refreshed(old(svc.db.Contents()), old(pending) - failing)
      ensures svc.db.notified == old(svc.db.notified)
      ensures cache.entries == Uncached(old(cache.entries), old(pending) - failing, unreachable)
      ensures cache.enabled ==>
                forall v :: v in old(pending) && v !in failing && v !in unreachable ==> v !in cache.entries
      ensures forall v :: v in old(cache.entries)
                          && !(cache.enabled && v in old(pending) && v !in failing && v !in unreachable) ==>
                v in cache.entries && cache.entries[v] == old(cache.entries)[v]
      ensures forall v :: v in cache.entries ==> v in old(cache.entries)
      ensures recalculated == |old(pending) - failing|
    {
      var batch := pending;
      pending := {};
      ghost var t := svc.db.Contents();
      ghost var done;
      recalculated, done := RecalculateBatch(batch, failing, unreachable);
      BatchingLosesNothing(t, done);
    }

    /** The loop over the batch; `done` is the order in which its videos were recalculated. */
    method RecalculateBatch(videos: set<Video>, failing: set<Video>, unreachable: set<Video>)
      returns (recalculated: nat, ghost done: seq<Video>)
      modifies svc.db, cache
      ensures Members(done) == videos - failing && recalculated == |videos - failing|
      ensures svc.db.Contents() == RecalculatedEach(old(svc.db.Contents()), done)
      ensures svc.db.notified == old(svc.db.notified)
      ensures cache.entries == Uncached(old(cache.entries), videos - failing, unreachable)
    {
      ghost var t, cached := svc.db.Contents(), cache.entries;
      var batch := videos;
      recalculated, done := 0, [];
      while batch != {}
        invariant Progress(videos, batch, failing, done, recalculated)
        invariant svc.db.Contents() == RecalculatedEach(t, done) && svc.db.notified == old(svc.db.notified)
        invariant cache.entries == Uncached(cached, Members(done), unreachable)
      {
        var v :| v in batch;
        ProgressStep(videos, batch, failing, done, recalculated, v);
        batch := batch - {v};
        var ok := RecalculateOne(v, v in failing, unreachable, t, done, cached);
        if ok {
          done := done + [v];
          recalculated := recalculated + 1;
        }
      }
    }

    /** The cache after invalidating these videos, as far as Redis could be reached. */
    ghost function Uncached(cached: map<Video, Response>, videos: set<Video>, unreachable: set<Video>)
      : map<Video, Response>
    {
      if cache.enabled then cached - (videos - unreachable) else cached
    }

    /** Recalculate one video of the batch and, on success, drop its cache entry. */
    method RecalculateOne(v: Video, fails: bool, unreachable: set<Video>,
                          ghost t: Tables, ghost done: seq<Video>, ghost cached: map<Video, Response>)
      returns (ok: bool)
      requires svc.db.Contents() == RecalculatedEach(t, done)
            && cache.entries == Uncached(cached, Members(done), unreachable)
      modifies svc.db, cache
      ensures ok == !fails && svc.db.notified == old(svc.db.notified)
      ensures svc.db.Contents() == RecalculatedEach(t, if ok then done + [v] else done)
      ensures cache.entries == Uncached(cached, Members(if ok then done + [v] else done), unreachable)
    {
      assert (done + [v])[..|done|] == done;
      MembersSnoc(done, v);
      ok := svc.RecalculateVideoScore(v, fails);
      if ok {
        OneMoreUncached(cached, Members(done), unreachable, v);
        var invalidated := cache.InvalidateVideo(v, v in unreachable);
      }
    }
  }

  lemma OneMoreUncached(cached: map<Video, Response>, videos: set<Video>, unreachable: set<Video>, v: Video)
    ensures cached - (videos + {v} - unreachable)
         == if v in unreachable then cached - (videos - unreachable) else cached - (videos - unreachable) - {v}
  {
  }

  ghost function Members(videos: seq<Video>): set<Video> {
    set v | v in videos
  }

  lemma MembersSnoc(videos: seq<Video>, v: Video)
    ensures Members(videos + [v]) == Members(videos) + {v}
  {
  }

  /** done lists the videos of the batch that were taken out and did not fail. */
  ghost predicate Progress(videos: set<Video>, batch: set<Video>, failing: set<Video>, done: seq<Video>, n: nat) {
    batch <= videos && Members(done) == videos - batch - failing && n == |Members(done)|
  }

  lemma ProgressStep(videos: set<Video>, batch: set<Video>, failing: set<Video>, done: seq<Video>, n: nat, v: Video)
    requires v in batch && Progress(videos, batch, failing, done, n)
    ensures v in failing ==> Progress(videos, batch - {v}, failing, done, n)
    ensures v !in failing ==> Progress(videos, batch - {v}, failing, done + [v], n + 1)
  {
    MembersSnoc(done, v);
    assert videos - (batch - {v}) - failing == videos - batch - failing + (if v in failing then {} else {v});
  }

  /** What a reader sees right after a flush: a video of the batch that did not fail and
      whose cache entry could be dropped shows the score of its votes, and every category
      with a live vote its share of them. */
  method FlushThenLookup(w: ScoreWorker, reader: VideoService, v: Video, failing: set<Video>, unreachable: set<Video>)
    returns (answer: Answer)
    requires reader.db == w.svc.db && reader.cache == w.cache
    requires v in w.pending && v !in failing && (v !in unreachable || v !in w.cache.entries)
    modifies w, w.svc.db, w.cache
    ensures w.svc.db.votes == old(w.svc.db.votes)
    ensures answer.Found? <==> v in old(w.svc.db.videos)
    ensures var votes := old(w.svc.db.votes);
            answer.Found? ==>
              && answer.response.row.score == TrueScore(votes, v)
              && forall c :: c in answer.response.categories && c in LiveCategories(votes, v) ==>
                   answer.response.categories[c].weightedScore == TrueShare(votes, v, c)
  {
    var recalculated := w.Flush(failing, unreachable);
    answer := reader.LookupByVideoID(v, Faults(false, false, false));
  }

  /** The distinct videos notified about. */
  function Payloads(notifications: seq<Video>): set<Video> {
    set v | v in notifications && v != ""
  }

  /** Receiving any notifications and flushing once recalculates each distinct
      video once, and leaves the tables of one recalculation per notification. */
  method ReceiveAndFlush(w: ScoreWorker, notifications: seq<Video>, unreachable: set<Video>) returns (recalculated: nat)
    requires w.pending == {}
    modifies w, w.svc.db, w.cache
    ensures w.svc.db.Contents() == Refreshed(old(w.svc.db.Contents()), Payloads(notifications))
    ensures "" !in notifications ==> w.svc.db.Contents() == RecalculatedEach(old(w.svc.db.Contents()), notifications)
    ensures recalculated == |Payloads(notifications)| && w.pending == {}
  {
    ghost var t := w.svc.db.Contents();
    for i := 0 to |notifications|
      invariant w.pending == Payloads(notifications[..i])
      invariant w.svc.db.Contents() == t
    {
      w.OnNotification(notifications[i]);
      assert notifications[..i + 1] == notifications[..i] + [notifications[i]];
    }
    assert notifications[..|notifications|] == notifications;
    recalculated := w.Flush({}, unreachable);
    assert Payloads(notifications) - {} == Payloads(notifications);
    if "" !in notifications {
      BatchingLosesNothing(t, notifications);
      assert Payloads(notifications) == Members(notifications);
    }
  }
}
