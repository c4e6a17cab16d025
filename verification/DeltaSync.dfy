/** Delta synchronisation of the extension's cache: the server's change log, the
    window a client asks for, and how a response is merged. */
module DeltaSync {
  import opened Options

  type Id = string

  // ---------- merging a log of effects, independent of what is stored ----------

  datatype Effect<+T> = Remove(id: Id) | Put(id: Id, value: T) | Nothing

  predicate Touches<T>(e: Effect<T>, id: Id) {
    !e.Nothing? && e.id == id
  }

  function Lookup<T>(m: map<Id, T>, id: Id): Option<T> {
    if id in m then Some(m[id]) else None
  }

  /** The value of the last accepted update of id. */
  function LastPut<T>(log: seq<Effect<T>>, id: Id): Option<T> {
    if log == [] then None
    else
      var e := log[|log| - 1];
      if e.Put? && e.id == id then Some(e.value) else LastPut(log[..|log| - 1], id)
  }

  predicate Removed<T>(log: seq<Effect<T>>, id: Id) {
    exists i :: 0 <= i < |log| && log[i].Remove? && log[i].id == id
  }

  /** Last accepted update if any, else absent if removed, else unchanged. */
  function Merged<T>(cache: map<Id, T>, log: seq<Effect<T>>, id: Id): Option<T> {
    if LastPut(log, id).Some? then LastPut(log, id)
    else if Removed(log, id) then None
    else Lookup(cache, id)
  }

  function Ids<T>(log: seq<Effect<T>>): set<Id> {
    set i | 0 <= i < |log| && !log[i].Nothing? :: log[i].id
  }

  /** The cache after one delta response. */
  function Batch<T>(cache: map<Id, T>, log: seq<Effect<T>>): map<Id, T> {
    map id | id in cache.Keys + Ids(log) && Merged(cache, log, id).Some? :: Merged(cache, log, id).value
  }

  /** The reference: every change applied in the order of the log. */
  function Replay<T>(cache: map<Id, T>, log: seq<Effect<T>>): map<Id, T> {
    if log == [] then cache
    else
      var before := Replay(cache, log[..|log| - 1]);
      match log[|log| - 1]
      case Remove(id) => before - {id}
      case Put(id, value) => before[id := value]
      case Nothing => before
  }

  function LastEffect<T>(log: seq<Effect<T>>, id: Id): Effect<T> {
    if log == [] then Nothing
    else if Touches(log[|log| - 1], id) then log[|log| - 1]
    else LastEffect(log[..|log| - 1], id)
  }

  function Outcome<T>(cache: map<Id, T>, e: Effect<T>, id: Id): Option<T> {
    match e
    case Remove(_) => None
    case Put(_, value) => Some(value)
    case Nothing => Lookup(cache, id)
  }

  /** An accepted update of id is followed by its removal, with nothing after it. */
  predicate RemovedAfterUpdate<T>(log: seq<Effect<T>>, id: Id) {
    LastEffect(log, id).Remove? && LastPut(log, id).Some?
  }

  predicate Orderly<T>(log: seq<Effect<T>>) {
    forall id :: id in Ids(log) ==> !RemovedAfterUpdate(log, id)
  }

  lemma {:induction false} ReplayIsLastEffect<T>(cache: map<Id, T>, log: seq<Effect<T>>, id: Id)
    ensures Lookup(Replay(cache, log), id) == Outcome(cache, LastEffect(log, id), id)
  {
    if log != [] {
      ReplayIsLastEffect(cache, log[..|log| - 1], id);
    }
  }

  lemma {:induction false} LastEffectFound<T>(log: seq<Effect<T>>, id: Id)
    ensures LastEffect(log, id).Nothing? <==> id !in Ids(log)
    ensures !LastEffect(log, id).Nothing? ==> Touches(LastEffect(log, id), id)
    ensures LastEffect(log, id).Put? ==> LastPut(log, id) == Some(LastEffect(log, id).value)
    ensures LastEffect(log, id).Remove? ==> Removed(log, id)
    ensures LastEffect(log, id).Nothing? ==> LastPut(log, id).None? && !Removed(log, id)
  {
    if log != [] {
      var n := |log| - 1;
      var init := log[..n];
      LastEffectFound(init, id);
      assert forall i :: 0 <= i < n ==> log[i] == init[i];
      if Touches(log[n], id) {
        assert id in Ids(log);
      } else if id in Ids(init) {
        var i :| 0 <= i < |init| && !init[i].Nothing? && init[i].id == id;
        assert log[i].id == id && id in Ids(log);
      }
    }
  }

  lemma BatchAt<T>(cache: map<Id, T>, log: seq<Effect<T>>, id: Id)
    ensures Lookup(Batch(cache, log), id) == Merged(cache, log, id)
  {
    LastEffectFound(log, id);
  }

  lemma SameLookups<T>(a: map<Id, T>, b: map<Id, T>)
    requires forall id :: Lookup(a, id) == Lookup(b, id)
    ensures a == b
  {
    forall id ensures id in a <==> id in b {
      assert Lookup(a, id) == Lookup(b, id);
    }
    forall id | id in a ensures a[id] == b[id] {
      assert Lookup(a, id) == Lookup(b, id);
    }
  }

  /** Applying removals first and updates last gives an id the same result as the
      log in order exactly when its last change is not the removal of an update. */
  lemma {:induction false} BatchIsReplayAtIff<T>(cache: map<Id, T>, log: seq<Effect<T>>, id: Id)
    ensures Lookup(Batch(cache, log), id) == Lookup(Replay(cache, log), id) <==> !RemovedAfterUpdate(log, id)
  {
    BatchAt(cache, log, id);
    ReplayIsLastEffect(cache, log, id);
    LastEffectFound(log, id);
  }

  lemma BatchIsReplayIff<T>(cache: map<Id, T>, log: seq<Effect<T>>)
    ensures Batch(cache, log) == Replay(cache, log) <==> Orderly(log)
  {
    forall id
      ensures Lookup(Batch(cache, log), id) == Lookup(Replay(cache, log), id) <==> !RemovedAfterUpdate(log, id)
      ensures RemovedAfterUpdate(log, id) ==> id in Ids(log)
    {
      BatchIsReplayAtIff(cache, log, id);
      LastEffectFound(log, id);
    }
    if Orderly(log) {
      SameLookups(Batch(cache, log), Replay(cache, log));
    }
  }

  /** A response applied twice is applied once. */
  lemma BatchIdempotent<T>(cache: map<Id, T>, log: seq<Effect<T>>)
    ensures Batch(Batch(cache, log), log) == Batch(cache, log)
  {
    var once := Batch(cache, log);
    forall id ensures Lookup(Batch(once, log), id) == Lookup(once, id) {
      BatchAt(once, log, id);
      BatchAt(cache, log, id);
    }
    SameLookups(Batch(once, log), once);
  }

  lemma {:induction false} LastEffectConcat<T>(a: seq<Effect<T>>, b: seq<Effect<T>>, id: Id)
    ensures LastEffect(a + b, id) == if LastEffect(b, id).Nothing? then LastEffect(a, id) else LastEffect(b, id)
    decreases |b|
  {
    if b == [] {
      assert a + b == a;
    } else {
      var n := |b| - 1;
      assert (a + b)[..|a + b| - 1] == a + b[..n];
      LastEffectConcat(a, b[..n], id);
      if Touches(b[n], id) {
        LastEffectFound(b, id);
      }
    }
  }

  /** Redelivery: after part of the log was applied, replaying a part that touches
      everything the skipped-over remainder touched gives what replaying once gives. */
  lemma RedeliveryHarmless<T>(cache: map<Id, T>, head: seq<Effect<T>>, seen: seq<Effect<T>>, again: seq<Effect<T>>)
    requires Ids(seen) <= Ids(again)
    ensures Replay(Replay(cache, head + seen), again) == Replay(cache, head + again)
  {
    var first := Replay(cache, head + seen);
    forall id ensures Lookup(Replay(first, again), id) == Lookup(Replay(cache, head + again), id) {
      ReplayIsLastEffect(first, again, id);
      ReplayIsLastEffect(cache, head + seen, id);
      ReplayIsLastEffect(cache, head + again, id);
      LastEffectConcat(head, again, id);
      LastEffectConcat(head, seen, id);
      LastEffectFound(seen, id);
      LastEffectFound(again, id);
    }
    SameLookups(Replay(first, again), Replay(cache, head + again));
  }

  // ---------- what the server sends ----------

  datatype CategoryScore = CategoryScore(votes: nat, weightedScore: real)
  type Categories = map<string, CategoryScore>

  datatype Backend = Go | Python

  /** One row of the change log; categories is None when its JSON does not parse. */
  datatype Row = Row(video: Id, score: real, categories: Option<Categories>, action: string, changedAt: nat)

  datatype VideoChange = VideoChange(video: Id, action: string, score: Option<real>, categories: Option<Categories>)
  datatype ChannelChange = ChannelChange(channel: Id, action: string, score: Option<real>)

  /** Go leaves out a zero score and empty categories; Python leaves out only what is null. */
  function Wire(backend: Backend, row: Row): VideoChange {
    var categories := if row.action == "update" then row.categories else None;
    match backend
    case Go =>
      VideoChange(row.video, row.action, if row.score == 0.0 then None else Some(row.score),
        if categories.Some? && |categories.value| > 0 then categories else None)
    case Python =>
      VideoChange(row.video, row.action, Some(row.score), categories)
  }

  function Wires(backend: Backend, rows: seq<Row>): seq<VideoChange> {
    seq(|rows|, i requires 0 <= i < |rows| => Wire(backend, rows[i]))
  }

  // ---------- the query: rows after a time, in the order of their stamps ----------

  /** The log is kept in commit order; a row may be stamped earlier than rows
      committed before it. */
  function Before(log: seq<Row>, since: nat): seq<Row> {
    if log == [] then []
    else Before(log[..|log| - 1], since) + if log[|log| - 1].changedAt <= since then [log[|log| - 1]] else []
  }

  function Later(log: seq<Row>, since: nat): seq<Row> {
    if log == [] then []
    else Later(log[..|log| - 1], since) + if log[|log| - 1].changedAt > since then [log[|log| - 1]] else []
  }

  /** row put behind the rows of a sorted list that are stamped no later. */
  function Insert(rows: seq<Row>, row: Row): seq<Row> {
    if rows == [] || rows[|rows| - 1].changedAt <= row.changedAt then rows + [row]
    else Insert(rows[..|rows| - 1], row) + [rows[|rows| - 1]]
  }

  /** By stamp, and in commit order among equal stamps. */
  function ByStamp(rows: seq<Row>): seq<Row> {
    if rows == [] then [] else Insert(ByStamp(rows[..|rows| - 1]), rows[|rows| - 1])
  }

  function Query(log: seq<Row>, since: nat): seq<Row> {
    ByStamp(Later(log, since))
  }

  predicate Sorted(rows: seq<Row>) {
    forall i, j :: 0 <= i < j < |rows| ==> rows[i].changedAt <= rows[j].changedAt
  }

  predicate AllBefore(rows: seq<Row>, since: nat) {
    forall i :: 0 <= i < |rows| ==> rows[i].changedAt <= since
  }

  predicate AllAfter(rows: seq<Row>, since: nat) {
    forall i :: 0 <= i < |rows| ==> rows[i].changedAt > since
  }

  lemma {:induction false} InsertHas(rows: seq<Row>, row: Row)
    ensures multiset(Insert(rows, row)) == multiset(rows) + multiset{row}
  {
    if rows != [] && rows[|rows| - 1].changedAt > row.changedAt {
      InsertHas(rows[..|rows| - 1], row);
      assert rows == rows[..|rows| - 1] + [rows[|rows| - 1]];
    }
  }

  lemma {:induction false} InsertBounded(rows: seq<Row>, row: Row, bound: nat)
    requires AllBefore(rows, bound) && row.changedAt <= bound
    ensures AllBefore(Insert(rows, row), bound)
  {
    if rows != [] && rows[|rows| - 1].changedAt > row.changedAt {
      InsertBounded(rows[..|rows| - 1], row, bound);
    }
  }

  lemma {:induction false} InsertSorts(rows: seq<Row>, row: Row)
    requires Sorted(rows)
    ensures Sorted(Insert(rows, row))
  {
    if rows != [] && rows[|rows| - 1].changedAt > row.changedAt {
      InsertSorts(rows[..|rows| - 1], row);
      InsertBounded(rows[..|rows| - 1], row, rows[|rows| - 1].changedAt);
    }
  }

  lemma MultisetSnoc(rows: seq<Row>)
    requires rows != []
    ensures multiset(rows) == multiset(rows[..|rows| - 1]) + multiset{rows[|rows| - 1]}
  {
    assert rows == rows[..|rows| - 1] + [rows[|rows| - 1]];
  }

  lemma {:induction false} ByStampHas(rows: seq<Row>)
    ensures multiset(ByStamp(rows)) == multiset(rows)
  {
    if rows != [] {
      ByStampHas(rows[..|rows| - 1]);
      InsertHas(ByStamp(rows[..|rows| - 1]), rows[|rows| - 1]);
      MultisetSnoc(rows);
    }
  }

  lemma {:induction false} ByStampSorts(rows: seq<Row>)
    ensures Sorted(ByStamp(rows))
  {
    if rows != [] {
      ByStampSorts(rows[..|rows| - 1]);
      InsertSorts(ByStamp(rows[..|rows| - 1]), rows[|rows| - 1]);
    }
  }

  lemma {:induction false} LaterHas(log: seq<Row>, since: nat, row: Row)
    ensures row in Later(log, since) <==> row in log && row.changedAt > since
    ensures row in Before(log, since) <==> row in log && row.changedAt <= since
  {
    if log != [] {
      LaterHas(log[..|log| - 1], since, row);
      assert log == log[..|log| - 1] + [log[|log| - 1]];
    }
  }

  lemma QueryHas(log: seq<Row>, since: nat, row: Row)
    ensures row in Query(log, since) <==> row in log && row.changedAt > since
  {
    LaterHas(log, since, row);
    ByStampHas(Later(log, since));
    assert row in Query(log, since) <==> row in multiset(Query(log, since));
    assert row in Later(log, since) <==> row in multiset(Later(log, since));
  }

  lemma {:induction false} InsertLeft(a: seq<Row>, b: seq<Row>, row: Row, since: nat)
    requires AllAfter(b, since) && row.changedAt <= since
    ensures Insert(a + b, row) == Insert(a, row) + b
    decreases |b|
  {
    if b == [] {
      assert a + b == a;
    } else {
      var n := |b| - 1;
      assert (a + b)[..|a + b| - 1] == a + b[..n];
      InsertLeft(a, b[..n], row, since);
      assert Insert(a, row) + b[..n] + [b[n]] == Insert(a, row) + b;
    }
  }

  lemma {:induction false} InsertRight(a: seq<Row>, b: seq<Row>, row: Row, since: nat)
    requires AllBefore(a, since) && row.changedAt > since
    ensures Insert(a + b, row) == a + Insert(b, row)
    decreases |b|
  {
    if b == [] {
      assert a + b == a;
      assert Insert(a, row) == a + [row];
    } else if b[|b| - 1].changedAt <= row.changedAt {
      assert a + b + [row] == a + (b + [row]);
    } else {
      var n := |b| - 1;
      assert (a + b)[..|a + b| - 1] == a + b[..n];
      InsertRight(a, b[..n], row, since);
      assert a + Insert(b[..n], row) + [b[n]] == a + (Insert(b[..n], row) + [b[n]]);
    }
  }

  lemma ByStampSnoc(rows: seq<Row>, row: Row)
    ensures ByStamp(rows + [row]) == Insert(ByStamp(rows), row)
  {
    assert (rows + [row])[..|rows|] == rows;
  }

  /** Sorting by stamp puts the rows up to any time first. */
  lemma {:induction false} ByStampSplits(log: seq<Row>, since: nat)
    ensures ByStamp(log) == ByStamp(Before(log, since)) + Query(log, since)
  {
    if log != [] {
      var init, row := log[..|log| - 1], log[|log| - 1];
      ByStampSplits(init, since);
      BeforeAndAfter(init, since);
      if row.changedAt <= since {
        InsertLeft(ByStamp(Before(init, since)), Query(init, since), row, since);
        ByStampSnoc(Before(init, since), row);
        assert Later(log, since) == Later(init, since);
      } else {
        InsertRight(ByStamp(Before(init, since)), Query(init, since), row, since);
        ByStampSnoc(Later(init, since), row);
        assert Before(log, since) == Before(init, since);
      }
    }
  }

  lemma BeforeAndAfter(log: seq<Row>, since: nat)
    ensures AllBefore(ByStamp(Before(log, since)), since) && AllAfter(Query(log, since), since)
  {
    var a, b := ByStamp(Before(log, since)), Query(log, since);
    ByStampHas(Before(log, since));
    forall i | 0 <= i < |a| ensures a[i].changedAt <= since {
      LaterHas(log, since, a[i]);
      assert a[i] in multiset(a) && a[i] in Before(log, since);
    }
    forall i | 0 <= i < |b| ensures b[i].changedAt > since {
      QueryHas(log, since, b[i]);
    }
  }

  /** The response carries whole seconds only. */
  function Truncated(clock: nat): (t: nat)
    ensures t <= clock < t + 1000
  {
    clock / 1000 * 1000
  }

  lemma WiresSnoc(backend: Backend, rows: seq<Row>, i: nat)
    requires i < |rows|
    ensures Wires(backend, rows[..i + 1]) == Wires(backend, rows[..i]) + [Wire(backend, rows[i])]
  {
  }

  /** The server's handler: the rows after since, sorted by the database, and the clock. */
  method QueryChanges(backend: Backend, log: seq<Row>, since: nat, clock: nat)
    returns (changes: seq<VideoChange>, timestamp: nat)
    ensures changes == Wires(backend, Query(log, since))
    ensures timestamp <= clock < timestamp + 1000 && timestamp % 1000 == 0
  {
    var rows := Query(log, since);
    changes := [];
    for i := 0 to |rows|
      invariant changes == Wires(backend, rows[..i])
    {
      WiresSnoc(backend, rows, i);
      changes := changes + [Wire(backend, rows[i])];
    }
    assert rows[..|rows|] == rows;
    timestamp := Truncated(clock);
  }

  // ---------- how the client reads it ----------

  datatype VideoContent = VideoContent(score: real, categories: Categories)
  datatype CachedVideo = CachedVideo(content: VideoContent, channel: Id, lastUpdated: nat)
  datatype CachedChannel = CachedChannel(score: real, autoFlag: bool, lastUpdated: nat)

  datatype Reply = Delta(videos: seq<VideoChange>, channels: seq<ChannelChange>, timestamp: nat) | RateLimited | Failed
  datatype SyncResult =
    | Synced(videosUpdated: nat, videosRemoved: nat, channelsUpdated: nat, channelsRemoved: nat)
    | Threw

  /** An update counts only if it brings both a score and categories. */
  function VideoEffect(c: VideoChange): Effect<VideoContent> {
    if c.action == "remove" then Remove(c.video)
    else if c.action == "update" && c.score.Some? && c.categories.Some? then
      Put(c.video, VideoContent(c.score.value, c.categories.value))
    else Nothing
  }

  function ChannelEffect(c: ChannelChange): Effect<real> {
    if c.action == "remove" then Remove(c.channel)
    else if c.action == "update" && c.score.Some? then Put(c.channel, c.score.value)
    else Nothing
  }

  function VideoEffects(changes: seq<VideoChange>): seq<Effect<VideoContent>> {
    seq(|changes|, i requires 0 <= i < |changes| => VideoEffect(changes[i]))
  }

  function ChannelEffects(changes: seq<ChannelChange>): seq<Effect<real>> {
    seq(|changes|, i requires 0 <= i < |changes| => ChannelEffect(changes[i]))
  }

  function VideoOf(content: VideoContent, timestamp: nat): CachedVideo {
    CachedVideo(content, "", timestamp)
  }

  function ChannelOf(score: real, timestamp: nat): CachedChannel {
    CachedChannel(score, false, timestamp)
  }

  function CountPuts<T>(log: seq<Effect<T>>): nat {
    if log == [] then 0 else CountPuts(log[..|log| - 1]) + if log[|log| - 1].Put? then 1 else 0
  }

  function CountRemoves<T>(log: seq<Effect<T>>): nat {
    if log == [] then 0 else CountRemoves(log[..|log| - 1]) + if log[|log| - 1].Remove? then 1 else 0
  }

  /** after is what one response makes of before: the last accepted update of an
      id, wrapped and stamped, else nothing if the id was removed, else what was there. */
  ghost predicate Applied<T, U>(before: map<Id, U>, log: seq<Effect<T>>, wrap: T -> U, after: map<Id, U>) {
    forall id :: Lookup(after, id) ==
      if LastPut(log, id).Some? then Some(wrap(LastPut(log, id).value))
      else if Removed(log, id) then None
      else Lookup(before, id)
  }

  function Overlaid<T, U>(store: map<Id, U>, log: seq<Effect<T>>, wrap: T -> U): map<Id, U> {
    if log == [] then store
    else
      var e := log[|log| - 1];
      if e.Put? then Overlaid(store, log[..|log| - 1], wrap)[e.id := wrap(e.value)]
      else Overlaid(store, log[..|log| - 1], wrap)
  }

  function Gone<T>(log: seq<Effect<T>>): set<Id> {
    set i | 0 <= i < |log| && log[i].Remove? :: log[i].id
  }

  lemma {:induction false} OverlaidAt<T, U>(store: map<Id, U>, log: seq<Effect<T>>, wrap: T -> U, id: Id)
    ensures Lookup(Overlaid(store, log, wrap), id) ==
      if LastPut(log, id).Some? then Some(wrap(LastPut(log, id).value)) else Lookup(store, id)
  {
    if log != [] {
      OverlaidAt(store, log[..|log| - 1], wrap, id);
    }
  }

  lemma OverlayApplies<T, U>(before: map<Id, U>, log: seq<Effect<T>>, wrap: T -> U)
    ensures Applied(before, log, wrap, Overlaid(before - Gone(log), log, wrap))
  {
    var after := Overlaid(before - Gone(log), log, wrap);
    forall id
      ensures Lookup(after, id) ==
        if LastPut(log, id).Some? then Some(wrap(LastPut(log, id).value))
        else if Removed(log, id) then None
        else Lookup(before, id)
    {
      OverlaidAt(before - Gone(log), log, wrap, id);
      assert id in Gone(log) <==> Removed(log, id);
    }
  }

  // ---------- the client ----------

  class Synchronizer {
    var videos: map<Id, CachedVideo>
    var channels: map<Id, CachedChannel>
    var lastDeltaSync: Option<nat>

    /** One delta sync. `fetch` is the server's reply to the time asked for; the
        first sync asks from the epoch. A reply that failed changes nothing, and
        only a rate-limited one is swallowed. */
    method PerformDeltaSync(fetch: nat -> Reply) returns (result: SyncResult)
      modifies this
      ensures var reply := fetch(if old(lastDeltaSync).Some? then old(lastDeltaSync).value else 0);
        match reply
        case RateLimited => result == Synced(0, 0, 0, 0) && unchanged(this)
        case Failed => result == Threw && unchanged(this)
        case Delta(vs, cs, timestamp) =>
          && Applied(old(videos), VideoEffects(vs), c => VideoOf(c, timestamp), videos)
          && Applied(old(channels), ChannelEffects(cs), c => ChannelOf(c, timestamp), channels)
          && Contents(videos) == Batch(Contents(old(videos)), VideoEffects(vs))
          && ChannelScores(channels) == Batch(ChannelScores(old(channels)), ChannelEffects(cs))
          && (forall i :: 0 <= i < |vs| && Accepts(vs[i]) ==>
                && vs[i].video in videos && videos[vs[i].video].lastUpdated == timestamp
                && videos[vs[i].video].channel == "")
          && (forall i :: 0 <= i < |cs| && AcceptsChannel(cs[i]) ==>
                && cs[i].channel in channels && channels[cs[i].channel].lastUpdated == timestamp
                && !channels[cs[i].channel].autoFlag)
          && lastDeltaSync == Some(timestamp)
          && result == Synced(CountPuts(VideoEffects(vs)), CountRemoves(VideoEffects(vs)),
                              CountPuts(ChannelEffects(cs)), CountRemoves(ChannelEffects(cs)))
    {
      var since := if lastDeltaSync.Some? then lastDeltaSync.value else 0;
      var reply := fetch(since);
      match reply
      case RateLimited => return Synced(0, 0, 0, 0);
      case Failed => return Threw;
      case Delta(vs, cs, timestamp) =>
        var videosUpdated, videosRemoved := ApplyVideos(vs, timestamp);
        var channelsUpdated, channelsRemoved := ApplyChannels(cs, timestamp);
        lastDeltaSync := Some(timestamp);
        AppliedIsBatch(old(videos), VideoEffects(vs), c => VideoOf(c, timestamp), videos);
        AppliedToChannels(old(channels), ChannelEffects(cs), c => ChannelOf(c, timestamp), channels);
        UpdatedVideos(old(videos), vs, timestamp, videos);
        UpdatedChannels(old(channels), cs, timestamp, channels);
        return Synced(videosUpdated, videosRemoved, channelsUpdated, channelsRemoved);
    }

    /** Removals take effect at once, updates are collected and stored afterwards. */
    method ApplyVideos(changes: seq<VideoChange>, timestamp: nat) returns (updated: nat, removed: nat)
      modifies this`videos
      ensures Applied(old(videos), VideoEffects(changes), c => VideoOf(c, timestamp), videos)
      ensures updated == CountPuts(VideoEffects(changes)) && removed == CountRemoves(VideoEffects(changes))
    {
      var upserts;
      upserts, updated, removed := RemoveVideos(changes, timestamp, c => VideoOf(c, timestamp));
      RemovesThenPuts(videos, old(videos), VideoEffects(changes), c => VideoOf(c, timestamp));
      videos := PutAll(videos, upserts);
    }

    method RemoveVideos(changes: seq<VideoChange>, timestamp: nat, ghost wrap: VideoContent -> CachedVideo)
      returns (upserts: seq<(Id, CachedVideo)>, updated: nat, removed: nat)
      requires forall c :: wrap(c) == VideoOf(c, timestamp)
      modifies this`videos
      ensures videos == old(videos) - Gone(VideoEffects(changes))
      ensures upserts == Upserts(VideoEffects(changes), wrap)
      ensures updated == CountPuts(VideoEffects(changes)) && removed == CountRemoves(VideoEffects(changes))
    {
      upserts, updated, removed := [], 0, 0;
      for i := 0 to |changes|
        invariant videos == old(videos) - Gone(VideoEffects(changes)[..i])
        invariant upserts == Upserts(VideoEffects(changes)[..i], wrap)
        invariant updated == CountPuts(VideoEffects(changes)[..i])
        invariant removed == CountRemoves(VideoEffects(changes)[..i])
      {
        var change := changes[i];
        OneMoreEffect(VideoEffects(changes), i, wrap);
        if change.action == "remove" {
          videos := videos - {change.video};
          removed := removed + 1;
        } else if change.action == "update" && change.score.Some? && change.categories.Some? {
          var content := VideoContent(change.score.value, change.categories.value);
          upserts := upserts + [(change.video, VideoOf(content, timestamp))];
          updated := updated + 1;
        }
      }
      assert VideoEffects(changes)[..|changes|] == VideoEffects(changes);
    }

    method ApplyChannels(changes: seq<ChannelChange>, timestamp: nat) returns (updated: nat, removed: nat)
      modifies this`channels
      ensures Applied(old(channels), ChannelEffects(changes), c => ChannelOf(c, timestamp), channels)
      ensures updated == CountPuts(ChannelEffects(changes)) && removed == CountRemoves(ChannelEffects(changes))
    {
      var upserts;
      upserts, updated, removed := RemoveChannels(changes, timestamp, c => ChannelOf(c, timestamp));
      RemovesThenPuts(channels, old(channels), ChannelEffects(changes), c => ChannelOf(c, timestamp));
      channels := PutAll(channels, upserts);
    }

    method RemoveChannels(changes: seq<ChannelChange>, timestamp: nat, ghost wrap: real -> CachedChannel)
      returns (upserts: seq<(Id, CachedChannel)>, updated: nat, removed: nat)
      requires forall c :: wrap(c) == ChannelOf(c, timestamp)
      modifies this`channels
      ensures channels == old(channels) - Gone(ChannelEffects(changes))
      ensures upserts == Upserts(ChannelEffects(changes), wrap)
      ensures updated == CountPuts(ChannelEffects(changes)) && removed == CountRemoves(ChannelEffects(changes))
    {
      upserts, updated, removed := [], 0, 0;
      for i := 0 to |changes|
        invariant channels == old(channels) - Gone(ChannelEffects(changes)[..i])
        invariant upserts == Upserts(ChannelEffects(changes)[..i], wrap)
        invariant updated == CountPuts(ChannelEffects(changes)[..i])
        invariant removed == CountRemoves(ChannelEffects(changes)[..i])
      {
        var change := changes[i];
        OneMoreEffect(ChannelEffects(changes), i, wrap);
        if change.action == "remove" {
          channels := channels - {change.channel};
          removed := removed + 1;
        } else if change.action == "update" && change.score.Some? {
          upserts := upserts + [(change.channel, ChannelOf(change.score.value, timestamp))];
          updated := updated + 1;
        }
      }
      assert ChannelEffects(changes)[..|changes|] == ChannelEffects(changes);
    }
  }

  function Upserts<T, U>(log: seq<Effect<T>>, wrap: T -> U): seq<(Id, U)> {
    if log == [] then []
    else
      var e := log[|log| - 1];
      Upserts(log[..|log| - 1], wrap) + if e.Put? then [(e.id, wrap(e.value))] else []
  }

  function Stored<U>(store: map<Id, U>, upserts: seq<(Id, U)>): map<Id, U> {
    if upserts == [] then store
    else Stored(store, upserts[..|upserts| - 1])[upserts[|upserts| - 1].0 := upserts[|upserts| - 1].1]
  }

  method PutAll<U>(store: map<Id, U>, upserts: seq<(Id, U)>) returns (after: map<Id, U>)
    ensures after == Stored(store, upserts)
  {
    after := store;
    for i := 0 to |upserts|
      invariant after == Stored(store, upserts[..i])
    {
      after := after[upserts[i].0 := upserts[i].1];
      assert upserts[..i + 1][..i] == upserts[..i];
    }
    assert upserts[..|upserts|] == upserts;
  }

  lemma {:induction false} PutsOverlay<T, U>(store: map<Id, U>, log: seq<Effect<T>>, wrap: T -> U)
    ensures Stored(store, Upserts(log, wrap)) == Overlaid(store, log, wrap)
  {
    if log != [] {
      var init := log[..|log| - 1];
      PutsOverlay(store, init, wrap);
      if log[|log| - 1].Put? {
        assert Upserts(log, wrap)[..|Upserts(log, wrap)| - 1] == Upserts(init, wrap);
      } else {
        assert Upserts(log, wrap) == Upserts(init, wrap);
      }
    }
  }

  /** Removing first and storing the collected updates last is the merge. */
  lemma RemovesThenPuts<T, U>(remaining: map<Id, U>, before: map<Id, U>, log: seq<Effect<T>>, wrap: T -> U)
    requires remaining == before - Gone(log)
    ensures Applied(before, log, wrap, Stored(remaining, Upserts(log, wrap)))
  {
    PutsOverlay(remaining, log, wrap);
    OverlayApplies(before, log, wrap);
  }

  lemma OneMoreEffect<T, U>(log: seq<Effect<T>>, i: nat, wrap: T -> U)
    requires i < |log|
    ensures Gone(log[..i + 1]) == Gone(log[..i]) + if log[i].Remove? then {log[i].id} else {}
    ensures Upserts(log[..i + 1], wrap)
         == Upserts(log[..i], wrap) + if log[i].Put? then [(log[i].id, wrap(log[i].value))] else []
    ensures CountPuts(log[..i + 1]) == CountPuts(log[..i]) + if log[i].Put? then 1 else 0
    ensures CountRemoves(log[..i + 1]) == CountRemoves(log[..i]) + if log[i].Remove? then 1 else 0
  {
    assert log[..i + 1][..i] == log[..i];
    assert log[..i + 1][i] == log[i];
    forall id | id in Gone(log[..i]) ensures id in Gone(log[..i + 1]) {
      var k :| 0 <= k < i && log[..i][k].Remove? && log[..i][k].id == id;
      assert log[..i + 1][k] == log[..i][k];
    }
    forall id | id in Gone(log[..i + 1]) && !(log[i].Remove? && log[i].id == id) ensures id in Gone(log[..i]) {
      var k :| 0 <= k < i + 1 && log[..i + 1][k].Remove? && log[..i + 1][k].id == id;
      assert log[..i][k] == log[..i + 1][k];
    }
  }

  // ---------- successive syncs against a growing log ----------

  function Contents(videos: map<Id, CachedVideo>): map<Id, VideoContent> {
    map id | id in videos :: videos[id].content
  }

  /** Up to the time stamps, what one sync does to the cache is Batch. */
  lemma AppliedIsBatch(before: map<Id, CachedVideo>, log: seq<Effect<VideoContent>>,
                       wrap: VideoContent -> CachedVideo, after: map<Id, CachedVideo>)
    requires Applied(before, log, wrap, after) && forall c :: wrap(c).content == c
    ensures Contents(after) == Batch(Contents(before), log)
  {
    forall id ensures Lookup(Contents(after), id) == Lookup(Batch(Contents(before), log), id) {
      BatchAt(Contents(before), log, id);
      assert Lookup(after, id) ==
        if LastPut(log, id).Some? then Some(wrap(LastPut(log, id).value))
        else if Removed(log, id) then None
        else Lookup(before, id);
    }
    SameLookups(Contents(after), Batch(Contents(before), log));
  }

  function ChannelScores(channels: map<Id, CachedChannel>): map<Id, real> {
    map id | id in channels :: channels[id].score
  }

  lemma AppliedToChannels(before: map<Id, CachedChannel>, log: seq<Effect<real>>,
                          wrap: real -> CachedChannel, after: map<Id, CachedChannel>)
    requires Applied(before, log, wrap, after) && forall x :: wrap(x).score == x
    ensures ChannelScores(after) == Batch(ChannelScores(before), log)
  {
    forall id ensures Lookup(ChannelScores(after), id) == Lookup(Batch(ChannelScores(before), log), id) {
      BatchAt(ChannelScores(before), log, id);
      assert LastPut(log, id).Some? ==> wrap(LastPut(log, id).value).score == LastPut(log, id).value;
      assert Lookup(after, id) ==
        if LastPut(log, id).Some? then Some(wrap(LastPut(log, id).value))
        else if Removed(log, id) then None
        else Lookup(before, id);
    }
    SameLookups(ChannelScores(after), Batch(ChannelScores(before), log));
  }

  lemma {:induction false} LastPutAt<T>(log: seq<Effect<T>>, i: nat)
    requires i < |log| && log[i].Put?
    requires forall j :: i < j < |log| && log[j].Put? ==> log[j].id != log[i].id
    ensures LastPut(log, log[i].id) == Some(log[i].value)
  {
    var n := |log| - 1;
    if i < n {
      assert log[..n][i] == log[i];
      assert forall j :: i < j < n ==> log[..n][j] == log[j];
      LastPutAt(log[..n], i);
    }
  }

  lemma {:induction false} NeverPut<T>(log: seq<Effect<T>>, id: Id)
    requires forall j :: 0 <= j < |log| && log[j].Put? ==> log[j].id != id
    ensures LastPut(log, id).None?
  {
    if log != [] {
      assert forall j :: 0 <= j < |log| - 1 ==> log[..|log| - 1][j] == log[j];
      NeverPut(log[..|log| - 1], id);
    }
  }

  lemma {:induction false} AnyPut<T>(log: seq<Effect<T>>, i: nat)
    requires i < |log| && log[i].Put?
    ensures LastPut(log, log[i].id).Some?
  {
    var n := |log| - 1;
    if i < n {
      assert log[..n][i] == log[i];
      AnyPut(log[..n], i);
    }
  }

  lemma AppliedPut<T, U>(before: map<Id, U>, log: seq<Effect<T>>, wrap: T -> U, after: map<Id, U>, id: Id)
    requires Applied(before, log, wrap, after) && LastPut(log, id).Some?
    ensures id in after && after[id] == wrap(LastPut(log, id).value)
  {
    assert Lookup(after, id) == Some(wrap(LastPut(log, id).value));
  }

  lemma AppliedElse<T, U>(before: map<Id, U>, log: seq<Effect<T>>, wrap: T -> U, after: map<Id, U>, id: Id)
    requires Applied(before, log, wrap, after) && LastPut(log, id).None?
    ensures id in after <==> id in before && !Removed(log, id)
    ensures id in after ==> after[id] == before[id]
  {
    assert Lookup(after, id) == if Removed(log, id) then None else Lookup(before, id);
  }

  predicate Accepts(c: VideoChange) {
    c.action == "update" && c.score.Some? && c.categories.Some?
  }

  predicate AcceptsChannel(c: ChannelChange) {
    c.action == "update" && c.score.Some?
  }

  /** One sync in terms of the reply: the last update of a video that brings a score
      and categories is cached as it came, with no channel and the time of the reply. */
  lemma LastUpdateIsCached(before: map<Id, CachedVideo>, changes: seq<VideoChange>, timestamp: nat,
                           after: map<Id, CachedVideo>, i: nat)
    requires Applied(before, VideoEffects(changes), c => VideoOf(c, timestamp), after)
    requires i < |changes| && Accepts(changes[i])
    requires forall j :: i < j < |changes| && changes[j].video == changes[i].video ==> !Accepts(changes[j])
    ensures var c := changes[i];
            && c.video in after
            && after[c.video].content.score == c.score.value && after[c.video].content.categories == c.categories.value
            && after[c.video].channel == "" && after[c.video].lastUpdated == timestamp
  {
    var log := VideoEffects(changes);
    assert forall j :: i <= j < |changes| && log[j].Put? ==> Accepts(changes[j]) && log[j].id == changes[j].video;
    LastPutAt(log, i);
    AppliedPut(before, log, c => VideoOf(c, timestamp), after, changes[i].video);
  }

  lemma UpdatedVideos(before: map<Id, CachedVideo>, changes: seq<VideoChange>, timestamp: nat,
                      after: map<Id, CachedVideo>)
    requires Applied(before, VideoEffects(changes), c => VideoOf(c, timestamp), after)
    ensures forall i :: 0 <= i < |changes| && Accepts(changes[i]) ==>
              && changes[i].video in after && after[changes[i].video].lastUpdated == timestamp
              && after[changes[i].video].channel == ""
  {
    forall i | 0 <= i < |changes| && Accepts(changes[i])
      ensures changes[i].video in after && after[changes[i].video].lastUpdated == timestamp
      ensures after[changes[i].video].channel == ""
    {
      AnyPut(VideoEffects(changes), i);
      AppliedPut(before, VideoEffects(changes), c => VideoOf(c, timestamp), after, changes[i].video);
    }
  }

  lemma UpdatedChannels(before: map<Id, CachedChannel>, changes: seq<ChannelChange>, timestamp: nat,
                        after: map<Id, CachedChannel>)
    requires Applied(before, ChannelEffects(changes), c => ChannelOf(c, timestamp), after)
    ensures forall i :: 0 <= i < |changes| && AcceptsChannel(changes[i]) ==>
              && changes[i].channel in after && after[changes[i].channel].lastUpdated == timestamp
              && !after[changes[i].channel].autoFlag
  {
    forall i | 0 <= i < |changes| && AcceptsChannel(changes[i])
      ensures changes[i].channel in after && after[changes[i].channel].lastUpdated == timestamp
      ensures !after[changes[i].channel].autoFlag
    {
      AnyPut(ChannelEffects(changes), i);
      AppliedPut(before, ChannelEffects(changes), c => ChannelOf(c, timestamp), after, changes[i].channel);
    }
  }

  /** A video without such an update goes if the reply removes it, and else is left as it was. */
  lemma WithoutUpdate(before: map<Id, CachedVideo>, changes: seq<VideoChange>, timestamp: nat,
                      after: map<Id, CachedVideo>, id: Id)
    requires Applied(before, VideoEffects(changes), c => VideoOf(c, timestamp), after)
    requires forall i :: 0 <= i < |changes| && changes[i].video == id ==> !Accepts(changes[i])
    ensures id in after <==>
              id in before
              && forall i :: 0 <= i < |changes| && changes[i].video == id ==> changes[i].action != "remove"
    ensures id in after ==> after[id] == before[id]
  {
    var log := VideoEffects(changes);
    assert forall j :: 0 <= j < |changes| && log[j].Put? ==> Accepts(changes[j]) && log[j].id == changes[j].video;
    NeverPut(log, id);
    AppliedElse(before, log, c => VideoOf(c, timestamp), after, id);
    assert forall j :: 0 <= j < |changes| ==> (log[j].Remove? <==> changes[j].action == "remove");
    assert forall j :: 0 <= j < |changes| && log[j].Remove? ==> log[j].id == changes[j].video;
  }

  /** The same for channels, whose updates need only a score; the flag is not taken over. */
  lemma LastChannelUpdateIsCached(before: map<Id, CachedChannel>, changes: seq<ChannelChange>, timestamp: nat,
                                  after: map<Id, CachedChannel>, i: nat)
    requires Applied(before, ChannelEffects(changes), c => ChannelOf(c, timestamp), after)
    requires i < |changes| && AcceptsChannel(changes[i])
    requires forall j :: i < j < |changes| && changes[j].channel == changes[i].channel ==> !AcceptsChannel(changes[j])
    ensures var c := changes[i];
            && c.channel in after && after[c.channel].score == c.score.value
            && !after[c.channel].autoFlag && after[c.channel].lastUpdated == timestamp
  {
    var log := ChannelEffects(changes);
    assert forall j :: i <= j < |changes| && log[j].Put? ==>
             AcceptsChannel(changes[j]) && log[j].id == changes[j].channel;
    LastPutAt(log, i);
    AppliedPut(before, log, c => ChannelOf(c, timestamp), after, changes[i].channel);
  }

  lemma WithoutChannelUpdate(before: map<Id, CachedChannel>, changes: seq<ChannelChange>, timestamp: nat,
                             after: map<Id, CachedChannel>, id: Id)
    requires Applied(before, ChannelEffects(changes), c => ChannelOf(c, timestamp), after)
    requires forall i :: 0 <= i < |changes| && changes[i].channel == id ==> !AcceptsChannel(changes[i])
    ensures id in after <==>
              id in before
              && forall i :: 0 <= i < |changes| && changes[i].channel == id ==> changes[i].action != "remove"
    ensures id in after ==> after[id] == before[id]
  {
    var log := ChannelEffects(changes);
    assert forall j :: 0 <= j < |changes| && log[j].Put? ==>
             AcceptsChannel(changes[j]) && log[j].id == changes[j].channel;
    NeverPut(log, id);
    AppliedElse(before, log, c => ChannelOf(c, timestamp), after, id);
    assert forall j :: 0 <= j < |changes| ==> (log[j].Remove? <==> changes[j].action == "remove");
    assert forall j :: 0 <= j < |changes| && log[j].Remove? ==> log[j].id == changes[j].channel;
  }

  lemma OneMorePosition<T>(log: seq<Effect<T>>)
    requires log != []
    ensures var n, init := |log| - 1, log[..|log| - 1];
            && (set i | 0 <= i < |log| && log[i].Put?)
               == (set i | 0 <= i < |init| && init[i].Put?) + (if log[n].Put? then {n} else {})
            && (set i | 0 <= i < |log| && log[i].Remove?)
               == (set i | 0 <= i < |init| && init[i].Remove?) + (if log[n].Remove? then {n} else {})
  {
  }

  lemma {:induction false} PutPositions<T>(log: seq<Effect<T>>)
    ensures CountPuts(log) == |set i | 0 <= i < |log| && log[i].Put?|
  {
    if log != [] {
      PutPositions(log[..|log| - 1]);
      OneMorePosition(log);
    }
  }

  lemma {:induction false} RemovePositions<T>(log: seq<Effect<T>>)
    ensures CountRemoves(log) == |set i | 0 <= i < |log| && log[i].Remove?|
  {
    if log != [] {
      RemovePositions(log[..|log| - 1]);
      OneMorePosition(log);
    }
  }

  /** The reported numbers are those of the accepted updates and of the removals in the reply. */
  lemma ReportedIs(vs: seq<VideoChange>, cs: seq<ChannelChange>)
    ensures CountPuts(VideoEffects(vs)) == |set i | 0 <= i < |vs| && Accepts(vs[i])|
    ensures CountRemoves(VideoEffects(vs)) == |set i | 0 <= i < |vs| && vs[i].action == "remove"|
    ensures CountPuts(ChannelEffects(cs)) == |set i | 0 <= i < |cs| && AcceptsChannel(cs[i])|
    ensures CountRemoves(ChannelEffects(cs)) == |set i | 0 <= i < |cs| && cs[i].action == "remove"|
  {
    var ve, ce := VideoEffects(vs), ChannelEffects(cs);
    PutPositions(ve);
    RemovePositions(ve);
    PutPositions(ce);
    RemovePositions(ce);
    assert (set i | 0 <= i < |ve| && ve[i].Put?) == set i | 0 <= i < |vs| && Accepts(vs[i]);
    assert (set i | 0 <= i < |ve| && ve[i].Remove?) == set i | 0 <= i < |vs| && vs[i].action == "remove";
    assert (set i | 0 <= i < |ce| && ce[i].Put?) == set i | 0 <= i < |cs| && AcceptsChannel(cs[i]);
    assert (set i | 0 <= i < |ce| && ce[i].Remove?) == set i | 0 <= i < |cs| && cs[i].action == "remove";
  }

  function RowEffects(backend: Backend, rows: seq<Row>): seq<Effect<VideoContent>> {
    VideoEffects(Wires(backend, rows))
  }

  /** One sync: how many committed rows its query saw, and the clock when it answered. */
  datatype Sync = Sync(visible: nat, clock: nat)

  function Since(syncs: seq<Sync>): nat {
    if syncs == [] then 0 else Truncated(syncs[|syncs| - 1].clock)
  }

  function Seen(syncs: seq<Sync>): nat {
    if syncs == [] then 0 else syncs[|syncs| - 1].visible
  }

  /** Rows stay committed and the server's clock does not run backwards. */
  predicate InOrder(log: seq<Row>, syncs: seq<Sync>) {
    && (forall i :: 0 <= i < |syncs| ==> syncs[i].visible <= |log|)
    && (forall i, j :: 0 <= i <= j < |syncs| ==>
          syncs[i].visible <= syncs[j].visible && syncs[i].clock <= syncs[j].clock)
  }

  function WindowAt(log: seq<Row>, syncs: seq<Sync>, i: nat): seq<Row>
    requires InOrder(log, syncs) && i < |syncs|
  {
    Query(log[..syncs[i].visible], Since(syncs[..i]))
  }

  /** The client's cache after all syncs, starting empty. */
  function Client(backend: Backend, log: seq<Row>, syncs: seq<Sync>): map<Id, VideoContent>
    requires InOrder(log, syncs)
    decreases |syncs|
  {
    if syncs == [] then map[]
    else
      var n := |syncs| - 1;
      Batch(Client(backend, log, syncs[..n]), RowEffects(backend, WindowAt(log, syncs, n)))
  }

  lemma OneMoreSync(backend: Backend, log: seq<Row>, syncs: seq<Sync>, n: nat)
    requires InOrder(log, syncs) && n < |syncs|
    ensures InOrder(log, syncs[..n]) && InOrder(log, syncs[..n + 1])
    ensures Since(syncs[..n]) == if n == 0 then 0 else Truncated(syncs[n - 1].clock)
    ensures Client(backend, log, syncs[..n + 1]) ==
            Batch(Client(backend, log, syncs[..n]),
                  RowEffects(backend, Query(log[..syncs[n].visible], Since(syncs[..n]))))
  {
    assert syncs[..n + 1][..n] == syncs[..n];
  }

  /** One sync against the rows committed so far. */
  method SyncOnce(client: Synchronizer, backend: Backend, seen: seq<Row>, time: nat)
    modifies client
    ensures var since := if old(client.lastDeltaSync).Some? then old(client.lastDeltaSync).value else 0;
            Contents(client.videos) == Batch(Contents(old(client.videos)), RowEffects(backend, Query(seen, since)))
    ensures client.lastDeltaSync == Some(time)
  {
    var result := client.PerformDeltaSync((since: nat) => Delta(Wires(backend, Query(seen, since)), [], time));
  }

  /** The syncs as they run: the client asks from the time it keeps, and the server answers
      from the rows committed by then. From an empty cache they leave Client. */
  method SyncInTurn(client: Synchronizer, backend: Backend, log: seq<Row>, syncs: seq<Sync>)
    requires InOrder(log, syncs) && client.videos == map[] && client.lastDeltaSync == None
    modifies client
    ensures Contents(client.videos) == Client(backend, log, syncs)
  {
    for n := 0 to |syncs|
      invariant InOrder(log, syncs[..n]) && Contents(client.videos) == Client(backend, log, syncs[..n])
      invariant client.lastDeltaSync == if n == 0 then None else Some(Truncated(syncs[n - 1].clock))
    {
      OneMoreSync(backend, log, syncs, n);
      SyncOnce(client, backend, log[..syncs[n].visible], Truncated(syncs[n].clock));
    }
    assert syncs[..|syncs|] == syncs;
  }

  /** No row that a query did not see is stamped at or before the time that query returned. */
  predicate NoneMissed(log: seq<Row>, syncs: seq<Sync>) {
    forall i, k :: 0 <= i < |syncs| && syncs[i].visible <= k < |log| ==> log[k].changedAt > Truncated(syncs[i].clock)
  }

  predicate AllOrderly(backend: Backend, log: seq<Row>, syncs: seq<Sync>)
    requires InOrder(log, syncs)
  {
    forall i :: 0 <= i < |syncs| ==> Orderly(RowEffects(backend, WindowAt(log, syncs, i)))
  }

  lemma RowEffectsConcat(backend: Backend, a: seq<Row>, b: seq<Row>)
    ensures RowEffects(backend, a + b) == RowEffects(backend, a) + RowEffects(backend, b)
  {
  }

  lemma RowEffectsTouch(backend: Backend, a: seq<Row>, b: seq<Row>)
    requires forall row :: row in a ==> row in b
    ensures Ids(RowEffects(backend, a)) <= Ids(RowEffects(backend, b))
  {
    var ea, eb := RowEffects(backend, a), RowEffects(backend, b);
    forall id | id in Ids(ea) ensures id in Ids(eb) {
      var i :| 0 <= i < |ea| && !ea[i].Nothing? && ea[i].id == id;
      assert a[i] in b;
      var j :| 0 <= j < |b| && b[j] == a[i];
      assert eb[j] == ea[i];
    }
  }

  lemma {:induction false} BeforeSeen(log: seq<Row>, seen: nat, since: nat)
    requires seen <= |log| && forall k :: seen <= k < |log| ==> log[k].changedAt > since
    ensures Before(log, since) == Before(log[..seen], since)
  {
    if seen < |log| {
      var init := log[..|log| - 1];
      assert init[..seen] == log[..seen];
      BeforeSeen(init, seen, since);
    } else {
      assert log[..seen] == log;
    }
  }

  /** The rows up to a time, and those after it that were already seen, against those
      after it that are seen now. */
  lemma OneMoreWindow(backend: Backend, rows: seq<Row>, seen: nat, since: nat, id: Id)
    requires seen <= |rows| && (forall k :: seen <= k < |rows| ==> rows[k].changedAt > since)
    ensures var window, whole := RowEffects(backend, Query(rows, since)), RowEffects(backend, ByStamp(rows));
            LastEffect(whole, id) ==
            if id in Ids(window) then LastEffect(window, id)
            else LastEffect(RowEffects(backend, ByStamp(rows[..seen])), id)
  {
    var head, before, again := ByStamp(Before(rows, since)), Query(rows[..seen], since), Query(rows, since);
    BeforeSeen(rows, seen, since);
    ByStampSplits(rows, since);
    ByStampSplits(rows[..seen], since);
    RowEffectsConcat(backend, head, before);
    RowEffectsConcat(backend, head, again);
    forall row | row in before ensures row in again {
      QueryHas(rows, since, row);
      QueryHas(rows[..seen], since, row);
    }
    RowEffectsTouch(backend, before, again);
    LastEffectConcat(RowEffects(backend, head), RowEffects(backend, before), id);
    LastEffectConcat(RowEffects(backend, head), RowEffects(backend, again), id);
    LastEffectFound(RowEffects(backend, before), id);
    LastEffectFound(RowEffects(backend, again), id);
  }

  /** The latest response that touches the id, if any, does not end with the removal of
      an update it accepted. */
  predicate LastTouchOrderly(backend: Backend, log: seq<Row>, syncs: seq<Sync>, id: Id)
    requires InOrder(log, syncs)
    decreases |syncs|
  {
    syncs != [] ==>
      var n := |syncs| - 1;
      var window := RowEffects(backend, WindowAt(log, syncs, n));
      if id in Ids(window) then !RemovedAfterUpdate(window, id) else LastTouchOrderly(backend, log, syncs[..n], id)
  }

  function Replayed(backend: Backend, log: seq<Row>, syncs: seq<Sync>): map<Id, VideoContent>
    requires InOrder(log, syncs)
  {
    assert Seen(syncs) <= |log|;
    Replay(map[], RowEffects(backend, ByStamp(log[..Seen(syncs)])))
  }

  /** Per id, exactly: after successive syncs, with overlapping windows and rows that may
      be committed later than rows with a later stamp, the client holds what replaying
      the change log once, in the order of its stamps, leaves, iff the latest response
      that touches the id is orderly on it. */
  lemma {:induction false} SyncsReplayAtIff(backend: Backend, log: seq<Row>, syncs: seq<Sync>, id: Id)
    requires InOrder(log, syncs) && NoneMissed(log, syncs)
    requires forall k :: 0 <= k < |log| ==> log[k].changedAt > 0
    ensures Lookup(Client(backend, log, syncs), id) == Lookup(Replayed(backend, log, syncs), id)
       <==> LastTouchOrderly(backend, log, syncs, id)
    decreases |syncs|
  {
    if syncs != [] {
      var init := syncs[..|syncs| - 1];
      assert InOrder(log, init) && NoneMissed(log, init);
      SyncsReplayAtIff(backend, log, init, id);
      LatestSyncAt(backend, log, syncs, id);
    }
  }

  lemma LatestWindow(backend: Backend, log: seq<Row>, syncs: seq<Sync>, id: Id)
    requires syncs != [] && InOrder(log, syncs) && NoneMissed(log, syncs)
    requires forall k :: 0 <= k < |log| ==> log[k].changedAt > 0
    ensures var n := |syncs| - 1;
            var window := RowEffects(backend, WindowAt(log, syncs, n));
            && Seen(syncs[..n]) <= |log|
            && LastEffect(RowEffects(backend, ByStamp(log[..Seen(syncs)])), id) ==
               if id in Ids(window) then LastEffect(window, id)
               else LastEffect(RowEffects(backend, ByStamp(log[..Seen(syncs[..n])])), id)
  {
    var n := |syncs| - 1;
    var init, rows := syncs[..n], log[..syncs[n].visible];
    forall k | Seen(init) <= k < |rows| ensures rows[k].changedAt > Since(init) {
      assert rows[k] == log[k];
    }
    assert rows[..Seen(init)] == log[..Seen(init)];
    OneMoreWindow(backend, rows, Seen(init), Since(init), id);
  }

  lemma LatestSyncAt(backend: Backend, log: seq<Row>, syncs: seq<Sync>, id: Id)
    requires syncs != [] && InOrder(log, syncs) && NoneMissed(log, syncs)
    requires forall k :: 0 <= k < |log| ==> log[k].changedAt > 0
    ensures var n := |syncs| - 1;
            var init, window := syncs[..n], RowEffects(backend, WindowAt(log, syncs, n));
            && InOrder(log, init)
            && (id in Ids(window) ==>
                  (Lookup(Client(backend, log, syncs), id) == Lookup(Replayed(backend, log, syncs), id)
                   <==> !RemovedAfterUpdate(window, id)))
            && (id !in Ids(window) ==>
                  && Lookup(Client(backend, log, syncs), id) == Lookup(Client(backend, log, init), id)
                  && Lookup(Replayed(backend, log, syncs), id) == Lookup(Replayed(backend, log, init), id))
  {
    var n := |syncs| - 1;
    var init, window := syncs[..n], RowEffects(backend, WindowAt(log, syncs, n));
    var before := Client(backend, log, init);
    LatestWindow(backend, log, syncs, id);
    ReplayIsLastEffect(map[], RowEffects(backend, ByStamp(log[..Seen(syncs)])), id);
    ReplayIsLastEffect(map[], RowEffects(backend, ByStamp(log[..Seen(init)])), id);
    BatchIsReplayAtIff(before, window, id);
    ReplayIsLastEffect(before, window, id);
    LastEffectFound(window, id);
  }

  lemma {:induction false} AllOrderlyTouches(backend: Backend, log: seq<Row>, syncs: seq<Sync>, id: Id)
    requires InOrder(log, syncs) && AllOrderly(backend, log, syncs)
    ensures LastTouchOrderly(backend, log, syncs, id)
    decreases |syncs|
  {
    if syncs != [] {
      var n := |syncs| - 1;
      EarlierOrderly(backend, log, syncs);
      AllOrderlyTouches(backend, log, syncs[..n], id);
      assert Orderly(RowEffects(backend, WindowAt(log, syncs, n)));
    }
  }

  /** In particular the whole cache is what one replay leaves if every response is orderly. */
  lemma SyncsReplayTheLog(backend: Backend, log: seq<Row>, syncs: seq<Sync>)
    requires InOrder(log, syncs) && NoneMissed(log, syncs) && AllOrderly(backend, log, syncs)
    requires forall k :: 0 <= k < |log| ==> log[k].changedAt > 0
    ensures Client(backend, log, syncs) == Replayed(backend, log, syncs)
  {
    forall id ensures Lookup(Client(backend, log, syncs), id) == Lookup(Replayed(backend, log, syncs), id) {
      SyncsReplayAtIff(backend, log, syncs, id);
      AllOrderlyTouches(backend, log, syncs, id);
    }
    SameLookups(Client(backend, log, syncs), Replayed(backend, log, syncs));
  }

  lemma EarlierOrderly(backend: Backend, log: seq<Row>, syncs: seq<Sync>)
    requires syncs != [] && InOrder(log, syncs) && AllOrderly(backend, log, syncs)
    ensures var init := syncs[..|syncs| - 1]; InOrder(log, init) && AllOrderly(backend, log, init)
  {
    var init := syncs[..|syncs| - 1];
    forall i | 0 <= i < |init| ensures Orderly(RowEffects(backend, WindowAt(log, init, i))) {
      assert init[..i] == syncs[..i];
      assert WindowAt(log, init, i) == WindowAt(log, syncs, i);
    }
  }

  /** A sync delivers exactly the committed rows that are stamped after the time it asks for. */
  lemma DeliveredIff(log: seq<Row>, syncs: seq<Sync>, i: nat, row: Row)
    requires InOrder(log, syncs) && i < |syncs|
    ensures row in WindowAt(log, syncs, i) <==> row in log[..syncs[i].visible] && row.changedAt > Since(syncs[..i])
  {
    QueryHas(log[..syncs[i].visible], Since(syncs[..i]), row);
  }

  /** A row that some query did not see although it is stamped no later than the time
      that query returned is never delivered afterwards. */
  lemma MissedOnceMissedForever(log: seq<Row>, syncs: seq<Sync>, i: nat, j: nat, row: Row)
    requires InOrder(log, syncs) && i < j < |syncs| && row.changedAt <= Truncated(syncs[i].clock)
    ensures row !in WindowAt(log, syncs, j)
  {
    DeliveredIff(log, syncs, j, row);
    assert Since(syncs[..j]) == Truncated(syncs[j - 1].clock) >= Truncated(syncs[i].clock);
  }

  /** So a row is delivered by some sync exactly when it is delivered by the first
      one that sees it committed. */
  lemma DeliveredAtFirstSightIff(log: seq<Row>, syncs: seq<Sync>, first: nat, row: Row)
    requires InOrder(log, syncs) && first < |syncs| && row in log[..syncs[first].visible]
    requires forall i :: 0 <= i < first ==> row !in log[..syncs[i].visible]
    ensures (exists i: nat :: i < |syncs| && row in WindowAt(log, syncs, i)) <==> row.changedAt > Since(syncs[..first])
  {
    DeliveredIff(log, syncs, first, row);
    forall i: nat | i < |syncs| && row in WindowAt(log, syncs, i) ensures row.changedAt > Since(syncs[..first]) {
      DeliveredIff(log, syncs, i, row);
      assert Since(syncs[..i]) >= Since(syncs[..first]);
    }
  }

  // ---------- which changes a client accepts ----------

  /** The client takes an update exactly when the row has categories and, from the
      Go backend, neither a zero score nor an empty set of categories. */
  lemma AcceptedIff(backend: Backend, row: Row)
    ensures var e := VideoEffect(Wire(backend, row));
            && (e.Remove? <==> row.action == "remove")
            && (e.Put? <==> row.action == "update" && row.categories.Some?
                            && (backend.Go? ==> row.score != 0.0 && |row.categories.value| > 0))
            && (e.Put? ==> e == Put(row.video, VideoContent(row.score, row.categories.value)))
            && (e.Remove? ==> e.id == row.video)
  {
  }

  /** Which fields a row has on the wire: what is there is the row's own, and only
      updates carry categories. */
  lemma OnTheWire(backend: Backend, row: Row)
    ensures var wire := Wire(backend, row);
            && wire.video == row.video && wire.action == row.action
            && (wire.score.None? <==> backend.Go? && row.score == 0.0)
            && (wire.score.Some? ==> wire.score.value == row.score)
            && (wire.categories.Some? <==> row.action == "update" && row.categories.Some?
                                           && (backend.Go? ==> row.categories.value != map[]))
            && (wire.categories.Some? ==> wire.categories == row.categories)
  {
  }

  lemma BackendsAgreeIff(row: Row)
    ensures VideoEffect(Wire(Go, row)) == VideoEffect(Wire(Python, row))
       <==> !(row.action == "update" && row.categories.Some? && (row.score == 0.0 || |row.categories.value| == 0))
  {
  }

  function Extended<T>(cache: map<Id, T>, log: seq<Effect<T>>, e: Effect<T>): map<Id, T> {
    if e.Put? then Batch(cache, log)[e.id := e.value]
    else if e.Remove? && LastPut(log, e.id).None? then Batch(cache, log) - {e.id}
    else Batch(cache, log)
  }

  /** What one more change at the end of a response adds: an accepted update lands,
      an unaccepted one is invisible, and a removal works unless the response
      updates the same id. */
  lemma OneMoreChange<T>(cache: map<Id, T>, log: seq<Effect<T>>, e: Effect<T>)
    ensures Batch(cache, log + [e]) == Extended(cache, log, e)
  {
    forall id ensures Lookup(Batch(cache, log + [e]), id) == Lookup(Extended(cache, log, e), id) {
      BatchAt(cache, log, id);
      BatchAt(cache, log + [e], id);
      assert (log + [e])[..|log|] == log;
      RemovedSnoc(log, e, id);
    }
    SameLookups(Batch(cache, log + [e]), Extended(cache, log, e));
  }

  lemma RemovedSnoc<T>(log: seq<Effect<T>>, e: Effect<T>, id: Id)
    ensures Removed(log + [e], id) <==> Removed(log, id) || (e.Remove? && e.id == id)
  {
    var after := log + [e];
    assert after[|log|] == e;
    assert forall i :: 0 <= i < |log| ==> after[i] == log[i];
  }
}
