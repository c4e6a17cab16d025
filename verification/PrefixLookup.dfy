/** Cache-first lookup in the extension: what the cache misses is asked for by hash
    prefix, so that the server learns a group of videos rather than the one watched. */
module PrefixLookup {
  import opened Options
  import opened DeltaSync

  type Prefix = string

  datatype VideoResult = VideoResult(
    video: Id, score: real, categories: Categories, totalVotes: nat, locked: bool,
    channel: Id, channelScore: real, lastUpdated: nat)

  type Entry = (Id, CachedVideo)

  function AsCached(v: VideoResult): CachedVideo {
    CachedVideo(VideoContent(v.score, v.categories), v.channel, v.lastUpdated)
  }

  // ---------- grouping ----------

  function Select(ids: seq<Id>, hash: Id -> Prefix, p: Prefix): seq<Id> {
    if ids == [] then []
    else Select(ids[..|ids| - 1], hash, p) + if hash(ids[|ids| - 1]) == p then [ids[|ids| - 1]] else []
  }

  function Hashes(ids: seq<Id>, hash: Id -> Prefix): set<Prefix> {
    set id | id in ids :: hash(id)
  }

  predicate Distinct<T(==)>(xs: seq<T>) {
    forall i, j :: 0 <= i < j < |xs| ==> xs[i] != xs[j]
  }

  function Joined(order: seq<Prefix>, groups: map<Prefix, seq<Id>>): seq<Id>
    requires forall p :: p in order ==> p in groups
  {
    if order == [] then [] else Joined(order[..|order| - 1], groups) + groups[order[|order| - 1]]
  }

  lemma {:induction false} SelectCounts(ids: seq<Id>, hash: Id -> Prefix, p: Prefix, id: Id)
    ensures multiset(Select(ids, hash, p))[id] == if hash(id) == p then multiset(ids)[id] else 0
  {
    if ids != [] {
      var n := |ids| - 1;
      SelectCounts(ids[..n], hash, p, id);
      assert ids == ids[..n] + [ids[n]];
    }
  }

  lemma {:induction false} SelectHas(ids: seq<Id>, hash: Id -> Prefix, p: Prefix, id: Id)
    ensures id in Select(ids, hash, p) <==> id in ids && hash(id) == p
  {
    SelectCounts(ids, hash, p, id);
    assert id in Select(ids, hash, p) <==> id in multiset(Select(ids, hash, p));
    assert id in ids <==> id in multiset(ids);
  }

  lemma JoinedStep(order: seq<Prefix>, groups: map<Prefix, seq<Id>>, id: Id)
    requires order != [] && forall p :: p in order ==> p in groups
    ensures multiset(Joined(order, groups))[id]
         == multiset(Joined(order[..|order| - 1], groups))[id] + multiset(groups[order[|order| - 1]])[id]
  {
  }

  lemma LastIsNew(order: seq<Prefix>)
    requires order != [] && Distinct(order)
    ensures var init, last := order[..|order| - 1], order[|order| - 1];
            && Distinct(init) && last !in init
            && (forall p :: p in order <==> p in init || p == last)
  {
    assert order == order[..|order| - 1] + [order[|order| - 1]];
  }

  lemma {:induction false} JoinedCounts(
      order: seq<Prefix>, groups: map<Prefix, seq<Id>>, ids: seq<Id>, hash: Id -> Prefix, id: Id)
    requires Distinct(order) && forall p :: p in order ==> p in groups && groups[p] == Select(ids, hash, p)
    ensures multiset(Joined(order, groups))[id] == if hash(id) in order then multiset(ids)[id] else 0
  {
    if order != [] {
      LastIsNew(order);
      JoinedCounts(order[..|order| - 1], groups, ids, hash, id);
      JoinedStep(order, groups, id);
      SelectCounts(ids, hash, order[|order| - 1], id);
    }
  }

  /** The groups partition the misses: together they hold every miss, as often as it
      was asked for, and nothing else. */
  lemma GroupsPartition(order: seq<Prefix>, groups: map<Prefix, seq<Id>>, ids: seq<Id>, hash: Id -> Prefix)
    requires Grouped(order, groups, ids, hash)
    ensures multiset(Joined(order, groups)) == multiset(ids)
    ensures forall p, id :: p in order && id in groups[p] ==> hash(id) == p
  {
    forall id ensures multiset(Joined(order, groups))[id] == multiset(ids)[id] {
      JoinedCounts(order, groups, ids, hash, id);
      assert id in ids <==> id in multiset(ids);
      assert id in ids ==> hash(id) in Hashes(ids, hash);
    }
    forall p, id | p in order && id in groups[p] ensures hash(id) == p {
      SelectHas(ids, hash, p, id);
    }
  }

  ghost predicate Grouped(order: seq<Prefix>, groups: map<Prefix, seq<Id>>, ids: seq<Id>, hash: Id -> Prefix) {
    && Distinct(order)
    && (forall p :: p in order <==> p in groups)
    && groups.Keys == Hashes(ids, hash)
    && (forall p :: p in groups ==> groups[p] == Select(ids, hash, p))
  }

  lemma OneMoreId(ids: seq<Id>, hash: Id -> Prefix, i: nat)
    requires i < |ids|
    ensures Hashes(ids[..i + 1], hash) == Hashes(ids[..i], hash) + {hash(ids[i])}
    ensures forall p :: Select(ids[..i + 1], hash, p)
                     == Select(ids[..i], hash, p) + if hash(ids[i]) == p then [ids[i]] else []
    ensures hash(ids[i]) !in Hashes(ids[..i], hash) ==> Select(ids[..i], hash, hash(ids[i])) == []
  {
    assert ids[..i + 1] == ids[..i] + [ids[i]];
    assert ids[..i + 1][..i] == ids[..i];
    if Select(ids[..i], hash, hash(ids[i])) != [] {
      SelectHas(ids[..i], hash, hash(ids[i]), Select(ids[..i], hash, hash(ids[i]))[0]);
    }
  }

  method GroupByPrefix(ids: seq<Id>, hash: Id -> Prefix) returns (order: seq<Prefix>, groups: map<Prefix, seq<Id>>)
    ensures Grouped(order, groups, ids, hash)
  {
    order, groups := [], map[];
    for i := 0 to |ids|
      invariant Grouped(order, groups, ids[..i], hash)
    {
      OneMoreId(ids, hash, i);
      var prefix := hash(ids[i]);
      if prefix !in groups {
        order := order + [prefix];
        groups := groups[prefix := []];
      }
      groups := groups[prefix := groups[prefix] + [ids[i]]];
    }
    assert ids[..|ids|] == ids;
  }

  // ---------- the reference: one lookup per video ----------

  /** The server's answer to a prefix: each visible video with that prefix once. */
  ghost predicate Lists(vs: seq<VideoResult>, p: Prefix, hash: Id -> Prefix, visible: map<Id, VideoResult>) {
    && (forall i, j :: 0 <= i < j < |vs| ==> vs[i].video != vs[j].video)
    && (forall v :: v in vs ==> v.video in visible && visible[v.video] == v && hash(v.video) == p)
    && (forall id :: id in visible && hash(id) == p ==> visible[id] in vs && visible[id].video == id)
  }

  ghost predicate Serves(fetch: Prefix -> Option<seq<VideoResult>>, hash: Id -> Prefix, visible: map<Id, VideoResult>) {
    forall p :: fetch(p).Some? ==> Lists(fetch(p).value, p, hash, visible)
  }

  /** What a lookup of this one video says: the cached entry, else the server's if
      the call for its prefix succeeds. */
  function Direct(id: Id, cache: map<Id, CachedVideo>, hash: Id -> Prefix,
                  fetch: Prefix -> Option<seq<VideoResult>>, visible: map<Id, VideoResult>): Option<CachedVideo> {
    if id in cache then Some(cache[id])
    else if fetch(hash(id)).Some? && id in visible then Some(AsCached(visible[id]))
    else None
  }

  function Hits(ids: seq<Id>, cache: map<Id, CachedVideo>): seq<Entry> {
    if ids == [] then []
    else
      var id := ids[|ids| - 1];
      Hits(ids[..|ids| - 1], cache) + if id in cache then [(id, cache[id])] else []
  }

  function Misses(ids: seq<Id>, cache: map<Id, CachedVideo>): seq<Id> {
    if ids == [] then []
    else
      var id := ids[|ids| - 1];
      Misses(ids[..|ids| - 1], cache) + if id in cache then [] else [id]
  }

  lemma {:induction false} MissesHave(ids: seq<Id>, cache: map<Id, CachedVideo>)
    ensures forall id :: id in Misses(ids, cache) <==> id in ids && id !in cache
  {
    if ids != [] {
      MissesHave(ids[..|ids| - 1], cache);
      assert ids == ids[..|ids| - 1] + [ids[|ids| - 1]];
    }
  }

  lemma {:induction false} HitsHave(ids: seq<Id>, cache: map<Id, CachedVideo>)
    ensures forall e :: e in Hits(ids, cache) <==> e.0 in ids && e.0 in cache && cache[e.0] == e.1
  {
    if ids != [] {
      HitsHave(ids[..|ids| - 1], cache);
      assert ids == ids[..|ids| - 1] + [ids[|ids| - 1]];
    }
  }

  lemma {:induction false} HitsDistinct(ids: seq<Id>, cache: map<Id, CachedVideo>)
    requires Distinct(ids)
    ensures DistinctIds(Hits(ids, cache))
  {
    if ids != [] {
      var n := |ids| - 1;
      var init := Hits(ids[..n], cache);
      HitsDistinct(ids[..n], cache);
      HitsHave(ids[..n], cache);
      forall i | 0 <= i < |init| ensures init[i].0 != ids[n] {
        assert init[i] in init;
      }
    }
  }

  lemma HitsAndMisses(ids: seq<Id>, cache: map<Id, CachedVideo>)
    ensures forall id :: id in Misses(ids, cache) <==> id in ids && id !in cache
    ensures forall e :: e in Hits(ids, cache) <==> e.0 in ids && e.0 in cache && cache[e.0] == e.1
    ensures Distinct(ids) ==> DistinctIds(Hits(ids, cache))
  {
    MissesHave(ids, cache);
    HitsHave(ids, cache);
    if Distinct(ids) { HitsDistinct(ids, cache); }
  }

  predicate DistinctIds(entries: seq<Entry>) {
    forall i, j :: 0 <= i < j < |entries| ==> entries[i].0 != entries[j].0
  }

  // ---------- what the prefix calls bring back ----------

  function FoundIn(vs: seq<VideoResult>, wanted: seq<Id>): seq<Entry> {
    if vs == [] then []
    else
      var v := vs[|vs| - 1];
      FoundIn(vs[..|vs| - 1], wanted) + if v.video in wanted then [(v.video, AsCached(v))] else []
  }

  /** A prefix whose call fails contributes nothing. */
  function Found(order: seq<Prefix>, groups: map<Prefix, seq<Id>>,
                 fetch: Prefix -> Option<seq<VideoResult>>): seq<Entry>
    requires forall p :: p in order ==> p in groups
  {
    if order == [] then []
    else
      var p := order[|order| - 1];
      Found(order[..|order| - 1], groups, fetch)
      + if fetch(p).Some? then FoundIn(fetch(p).value, groups[p]) else []
  }

  lemma {:induction false} FoundInHas(vs: seq<VideoResult>, wanted: seq<Id>)
    requires forall i, j :: 0 <= i < j < |vs| ==> vs[i].video != vs[j].video
    ensures forall e :: e in FoundIn(vs, wanted) <==>
              e.0 in wanted && exists v :: v in vs && v.video == e.0 && AsCached(v) == e.1
    ensures DistinctIds(FoundIn(vs, wanted))
  {
    if vs != [] {
      var n := |vs| - 1;
      var init := FoundIn(vs[..n], wanted);
      FoundInHas(vs[..n], wanted);
      assert vs == vs[..n] + [vs[n]];
      forall i | 0 <= i < |init| ensures init[i].0 != vs[n].video {
        assert init[i] in init;
      }
    }
  }

  /** Entries for one prefix, when the server lists its videos. */
  lemma FoundInListed(vs: seq<VideoResult>, p: Prefix, hash: Id -> Prefix, visible: map<Id, VideoResult>,
                      wanted: seq<Id>)
    requires Lists(vs, p, hash, visible)
    ensures DistinctIds(FoundIn(vs, wanted))
    ensures forall e :: e in FoundIn(vs, wanted) <==>
              e.0 in wanted && hash(e.0) == p && e.0 in visible && AsCached(visible[e.0]) == e.1
  {
    FoundInHas(vs, wanted);
  }

  lemma {:induction false} FoundHas(order: seq<Prefix>, groups: map<Prefix, seq<Id>>, ids: seq<Id>, hash: Id -> Prefix,
                                    fetch: Prefix -> Option<seq<VideoResult>>, visible: map<Id, VideoResult>)
    requires Distinct(order) && forall p :: p in order ==> p in groups && groups[p] == Select(ids, hash, p)
    requires Serves(fetch, hash, visible)
    ensures DistinctIds(Found(order, groups, fetch))
    ensures forall e :: e in Found(order, groups, fetch) <==>
              && e.0 in ids && hash(e.0) in order && fetch(hash(e.0)).Some?
              && e.0 in visible && AsCached(visible[e.0]) == e.1
  {
    if order != [] {
      var n := |order| - 1;
      var p := order[n];
      var init := Found(order[..n], groups, fetch);
      FoundHas(order[..n], groups, ids, hash, fetch, visible);
      assert order == order[..n] + [p] && p !in order[..n];
      if fetch(p).Some? {
        var more := FoundIn(fetch(p).value, groups[p]);
        FoundInListed(fetch(p).value, p, hash, visible, groups[p]);
        forall id ensures id in groups[p] <==> id in ids && hash(id) == p {
          SelectHas(ids, hash, p, id);
        }
        forall i, j | 0 <= i < |init| && 0 <= j < |more| ensures init[i].0 != more[j].0 {
          assert init[i] in init && more[j] in more;
        }
      }
    }
  }

  /** The answer is that of one direct lookup per video, for whatever hash. */
  ghost predicate Answers(requested: seq<Id>, cache: map<Id, CachedVideo>, hash: Id -> Prefix,
                          fetch: Prefix -> Option<seq<VideoResult>>, visible: map<Id, VideoResult>,
                          result: seq<Entry>) {
    && (forall e :: e in result <==> e.0 in requested && Direct(e.0, cache, hash, fetch, visible) == Some(e.1))
    && (Distinct(requested) ==> DistinctIds(result))
  }

  ghost predicate CacheFilled(requested: seq<Id>, cache: map<Id, CachedVideo>, hash: Id -> Prefix,
                              fetch: Prefix -> Option<seq<VideoResult>>, visible: map<Id, VideoResult>,
                              after: map<Id, CachedVideo>) {
    forall id :: Lookup(after, id) ==
      if id in requested then Direct(id, cache, hash, fetch, visible) else Lookup(cache, id)
  }

  lemma {:induction false} StoredHas(store: map<Id, CachedVideo>, entries: seq<Entry>)
    requires DistinctIds(entries)
    ensures forall e :: e in entries ==> Lookup(Stored(store, entries), e.0) == Some(e.1)
    ensures forall id :: (forall e :: e in entries ==> e.0 != id) ==>
              Lookup(Stored(store, entries), id) == Lookup(store, id)
  {
    if entries != [] {
      var n := |entries| - 1;
      var init := entries[..n];
      StoredHas(store, init);
      assert entries == init + [entries[n]];
      forall e | e in init ensures e.0 != entries[n].0 {
        var i :| 0 <= i < n && init[i] == e;
        assert entries[i] == e;
      }
    }
  }

  lemma FoundIsDirect(requested: seq<Id>, cache: map<Id, CachedVideo>, order: seq<Prefix>, groups: map<Prefix, seq<Id>>,
                      hash: Id -> Prefix, fetch: Prefix -> Option<seq<VideoResult>>, visible: map<Id, VideoResult>)
    requires Grouped(order, groups, Misses(requested, cache), hash) && Serves(fetch, hash, visible)
    ensures var found := Found(order, groups, fetch);
            && DistinctIds(found)
            && (forall e :: e in found <==>
                  e.0 in requested && e.0 !in cache && Direct(e.0, cache, hash, fetch, visible) == Some(e.1))
  {
    var misses := Misses(requested, cache);
    MissesHave(requested, cache);
    FoundHas(order, groups, misses, hash, fetch, visible);
    assert forall id :: id in misses ==> hash(id) in Hashes(misses, hash);
  }

  lemma HitsThenFound(requested: seq<Id>, cache: map<Id, CachedVideo>, found: seq<Entry>,
                      hash: Id -> Prefix, fetch: Prefix -> Option<seq<VideoResult>>, visible: map<Id, VideoResult>)
    requires DistinctIds(found)
    requires forall e :: e in found <==>
               e.0 in requested && e.0 !in cache && Direct(e.0, cache, hash, fetch, visible) == Some(e.1)
    ensures Answers(requested, cache, hash, fetch, visible, Hits(requested, cache) + found)
  {
    var hits := Hits(requested, cache);
    HitsAndMisses(requested, cache);
    forall i, j | 0 <= i < |hits| && 0 <= j < |found| ensures hits[i].0 != found[j].0 {
      assert hits[i] in hits && found[j] in found;
    }
  }

  lemma GroupedLookupIsDirect(requested: seq<Id>, cache: map<Id, CachedVideo>,
                              order: seq<Prefix>, groups: map<Prefix, seq<Id>>, hash: Id -> Prefix,
                              fetch: Prefix -> Option<seq<VideoResult>>, visible: map<Id, VideoResult>)
    requires Grouped(order, groups, Misses(requested, cache), hash) && Serves(fetch, hash, visible)
    ensures var found := Found(order, groups, fetch);
            && DistinctIds(found)
            && (forall e :: e in found <==>
                  e.0 in requested && e.0 !in cache && Direct(e.0, cache, hash, fetch, visible) == Some(e.1))
            && Answers(requested, cache, hash, fetch, visible, Hits(requested, cache) + found)
  {
    FoundIsDirect(requested, cache, order, groups, hash, fetch, visible);
    HitsThenFound(requested, cache, Found(order, groups, fetch), hash, fetch, visible);
  }

  lemma FoundFillsCache(requested: seq<Id>, cache: map<Id, CachedVideo>, found: seq<Entry>,
                        hash: Id -> Prefix, fetch: Prefix -> Option<seq<VideoResult>>, visible: map<Id, VideoResult>)
    requires DistinctIds(found)
    requires forall e :: e in found <==>
               e.0 in requested && e.0 !in cache && Direct(e.0, cache, hash, fetch, visible) == Some(e.1)
    ensures CacheFilled(requested, cache, hash, fetch, visible, Stored(cache, found))
  {
    var after := Stored(cache, found);
    StoredHas(cache, found);
    forall id
      ensures Lookup(after, id) ==
        if id in requested then Direct(id, cache, hash, fetch, visible) else Lookup(cache, id)
    {
      var d := Direct(id, cache, hash, fetch, visible);
      if id in requested && id !in cache && d.Some? {
        assert (id, d.value) in found;
      } else {
        assert forall e :: e in found ==> e.0 != id;
      }
    }
  }

  /** Answer and cache after a request, in terms of what the cache held and what the
      server holds: a cached video as it was cached; a missing one as the server has it,
      if the call for its prefix succeeded; no entry for any other. */
  lemma AnswerIs(requested: seq<Id>, cache: map<Id, CachedVideo>, hash: Id -> Prefix,
                 fetch: Prefix -> Option<seq<VideoResult>>, visible: map<Id, VideoResult>,
                 result: seq<Entry>, after: map<Id, CachedVideo>, id: Id)
    requires Answers(requested, cache, hash, fetch, visible, result)
    requires CacheFilled(requested, cache, hash, fetch, visible, after)
    ensures id in cache ==> id in after && after[id] == cache[id]
    ensures id !in cache && id in requested && id in visible && fetch(hash(id)).Some? ==>
              && id in after
              && after[id].content.score == visible[id].score && after[id].content.categories == visible[id].categories
              && after[id].channel == visible[id].channel && after[id].lastUpdated == visible[id].lastUpdated
    ensures id !in cache && !(id in requested && id in visible && fetch(hash(id)).Some?) ==> id !in after
    ensures forall e :: e in result && e.0 == id ==> id in after && e.1 == after[id]
    ensures id in requested && id in after ==> (id, after[id]) in result
    ensures id !in requested ==> forall e :: e in result ==> e.0 != id
  {
    assert Lookup(after, id) ==
      if id in requested then Direct(id, cache, hash, fetch, visible) else Lookup(cache, id);
  }

  /** Once looked up, a video is answered from the cache alone: the same request made
      offline gets the same answer. */
  lemma AnswersSurviveOffline(requested: seq<Id>, cache: map<Id, CachedVideo>, hash: Id -> Prefix,
                              fetch: Prefix -> Option<seq<VideoResult>>, visible: map<Id, VideoResult>,
                              after: map<Id, CachedVideo>, result: seq<Entry>, again: seq<Entry>)
    requires CacheFilled(requested, cache, hash, fetch, visible, after)
    requires Answers(requested, cache, hash, fetch, visible, result)
    requires Answers(requested, after, hash, p => None, visible, again)
    ensures forall e :: e in again <==> e in result
  {
  }

  // ---------- the message handler ----------

  class Background {
    var videos: map<Id, CachedVideo>

    /** CHECK_VIDEOS. `fetch` is the server's answer to each prefix, None if the call
        fails; `visible` is what the server holds while the calls are made. */
    method CheckVideos(requested: seq<Id>, hash: Id -> Prefix, fetch: Prefix -> Option<seq<VideoResult>>,
                       ghost visible: map<Id, VideoResult>)
      returns (result: seq<Entry>)
      modifies this
      ensures Hits(requested, old(videos)) <= result
      ensures videos == Stored(old(videos), result[|Hits(requested, old(videos))|..])
      ensures Serves(fetch, hash, visible) ==>
                && Answers(requested, old(videos), hash, fetch, visible, result)
                && CacheFilled(requested, old(videos), hash, fetch, visible, videos)
    {
      ghost var before := videos;
      var cached := GetVideos(requested);
      var misses := FilterMisses(requested, cached);
      var apiResults: seq<Entry> := [];
      if |misses| > 0 {
        var order, groups := GroupByPrefix(misses, hash);
        apiResults := LookUpGroups(order, groups, fetch);
        assert (cached + apiResults)[|cached|..] == apiResults;
        if Serves(fetch, hash, visible) {
          GroupedLookupIsDirect(requested, before, order, groups, hash, fetch, visible);
          FoundFillsCache(requested, before, apiResults, hash, fetch, visible);
        }
      } else {
        HitsAndMisses(requested, before);
        AllCached(requested, before, hash, fetch, visible);
      }
      result := cached + apiResults;
    }

    method GetVideos(ids: seq<Id>) returns (found: seq<Entry>)
      ensures found == Hits(ids, videos)
    {
      found := [];
      for i := 0 to |ids|
        invariant found == Hits(ids[..i], videos)
      {
        assert ids[..i + 1][..i] == ids[..i];
        if ids[i] in videos {
          found := found + [(ids[i], videos[ids[i]])];
        }
      }
      assert ids[..|ids|] == ids;
    }

    /** Misses are told apart by the ids of the entries found, not by the cache itself. */
    method FilterMisses(ids: seq<Id>, cached: seq<Entry>) returns (misses: seq<Id>)
      requires cached == Hits(ids, videos)
      ensures misses == Misses(ids, videos)
    {
      var cachedIds := set e | e in cached :: e.0;
      misses := [];
      HitsAndMisses(ids, videos);
      for i := 0 to |ids|
        invariant misses == Misses(ids[..i], videos)
      {
        assert ids[..i + 1][..i] == ids[..i];
        assert ids[i] in videos ==> (ids[i], videos[ids[i]]) in cached;
        if ids[i] !in cachedIds {
          misses := misses + [ids[i]];
        }
      }
      assert ids[..|ids|] == ids;
    }

    method LookUpGroups(order: seq<Prefix>, groups: map<Prefix, seq<Id>>, fetch: Prefix -> Option<seq<VideoResult>>)
      returns (apiResults: seq<Entry>)
      requires forall p :: p in order ==> p in groups
      modifies this
      ensures apiResults == Found(order, groups, fetch)
      ensures videos == Stored(old(videos), apiResults)
    {
      apiResults := [];
      for i := 0 to |order|
        invariant apiResults == Found(order[..i], groups, fetch)
        invariant videos == Stored(old(videos), apiResults)
      {
        assert order[..i + 1][..i] == order[..i];
        var reply := fetch(order[i]);
        if reply.Some? {
          var more := TakeRequested(reply.value, groups[order[i]]);
          StoredTwice(old(videos), apiResults, more);
          apiResults := apiResults + more;
        }
      }
      assert order[..|order|] == order;
    }

    method TakeRequested(reply: seq<VideoResult>, requestedIds: seq<Id>) returns (taken: seq<Entry>)
      modifies this
      ensures taken == FoundIn(reply, requestedIds)
      ensures videos == Stored(old(videos), taken)
    {
      taken := [];
      for i := 0 to |reply|
        invariant taken == FoundIn(reply[..i], requestedIds)
        invariant videos == Stored(old(videos), taken)
      {
        assert reply[..i + 1][..i] == reply[..i];
        var video := reply[i];
        if video.video in requestedIds {
          StoredTwice(old(videos), taken, [(video.video, AsCached(video))]);
          taken := taken + [(video.video, AsCached(video))];
          videos := videos[video.video := AsCached(video)];
        }
      }
      assert reply[..|reply|] == reply;
    }
  }

  lemma {:induction false} StoredTwice(store: map<Id, CachedVideo>, a: seq<Entry>, b: seq<Entry>)
    ensures Stored(store, a + b) == Stored(Stored(store, a), b)
    decreases |b|
  {
    if b == [] {
      assert a + b == a;
    } else {
      var n := |b| - 1;
      assert (a + b)[..|a + b| - 1] == a + b[..n];
      StoredTwice(store, a, b[..n]);
    }
  }

  lemma AllCached(requested: seq<Id>, cache: map<Id, CachedVideo>, hash: Id -> Prefix,
                  fetch: Prefix -> Option<seq<VideoResult>>, visible: map<Id, VideoResult>)
    requires Misses(requested, cache) == []
    ensures Answers(requested, cache, hash, fetch, visible, Hits(requested, cache))
    ensures CacheFilled(requested, cache, hash, fetch, visible, cache)
  {
    HitsAndMisses(requested, cache);
    assert forall id :: id in requested ==> id !in Misses(requested, cache);
  }
}
