/** The Redis cache in front of the video tables: cache-aside fills, invalidations
    after writes, and exactly how a cached response can be out of date. */
module CacheAside {
  import opened Options
  import opened Schema

  // ---------- responses ----------

  datatype Response = Response(row: VideoRow, categories: map<Category, CategoryRow>)

  function CategoriesOf(rows: map<(Video, Category), CategoryRow>, v: Video): map<Category, CategoryRow> {
    map k | k in rows && k.0 == v :: k.1 := rows[k]
  }

  /** A cache that is absent (no Redis) turns every operation into a no-op. A
      Redis error is reported and changes nothing. */
  class CacheService {
    const enabled: bool
    var entries: map<Video, Response>

    constructor (enabled: bool)
      ensures this.enabled == enabled && entries == map[]
    {
      this.enabled := enabled;
      entries := map[];
    }

    /** The entry if there is one; nothing on an error. */
    method GetVideo(v: Video, fails: bool) returns (r: Option<Response>)
      ensures r == if enabled && !fails && v in entries then Some(entries[v]) else None
    {
      r := if enabled && !fails && v in entries then Some(entries[v]) else None;
    }

    method SetVideo(v: Video, r: Response, fails: bool) returns (ok: bool)
      modifies this
      ensures ok <==> !enabled || !fails
      ensures entries == if enabled && ok then old(entries)[v := r] else old(entries)
    {
      if !enabled {
        return true;
      }
      if fails {
        return false;
      }
      entries := entries[v := r];
      ok := true;
    }

    method InvalidateVideo(v: Video, fails: bool) returns (ok: bool)
      modifies this
      ensures ok <==> !enabled || !fails
      ensures entries == if enabled && ok then old(entries) - {v} else old(entries)
    {
      if !enabled {
        return true;
      }
      if fails {
        return false;
      }
      entries := entries - {v};
      ok := true;
    }
  }

  /** Which of the calls of one lookup fail: reading the cache (or decoding what it
      holds), the database, and storing into the cache. */
  datatype Faults = Faults(get: bool, database: bool, put: bool)

  datatype Answer = Found(response: Response) | Missing | Failed

  class VideoService {
    const db: Database
    const cache: CacheService

    constructor (db: Database, cache: CacheService)
      ensures this.db == db && this.cache == cache
    {
      this.db, this.cache := db, cache;
    }

    /** Cache first, then the database; a database answer is cached. Cache errors
        are never seen by the caller: a failed read counts as a miss, a failed store
        leaves the cache as it was. An uninterrupted lookup that misses answers with
        the tables' own rows. */
    method LookupByVideoID(v: Video, faults: Faults) returns (r: Answer)
      modifies cache
      ensures cache.enabled && !faults.get && v in old(cache.entries) ==>
        r == Found(old(cache.entries)[v]) && cache.entries == old(cache.entries)
      ensures !(cache.enabled && !faults.get && v in old(cache.entries)) ==>
        && r == (if faults.database then Failed
                 else if v in db.videos then Found(Response(db.videos[v], CategoriesOf(db.categories, v)))
                 else Missing)
        && cache.entries == (if cache.enabled && !faults.put && r.Found? then old(cache.entries)[v := r.response]
                             else old(cache.entries))
      ensures r.Found? && !(cache.enabled && !faults.get && v in old(cache.entries)) ==>
        && v in db.videos && r.response.row == db.videos[v]
        && (forall c :: c in r.response.categories <==> (v, c) in db.categories)
        && (forall c :: c in r.response.categories ==> r.response.categories[c] == db.categories[(v, c)])
    {
      var cached := cache.GetVideo(v, faults.get);
      if cached.Some? {
        return Found(cached.value);
      }
      if faults.database {
        return Failed;
      }
      if v !in db.videos {
        return Missing;
      }
      var row := db.videos[v];
      var categories := CategoriesOf(db.categories, v);
      var stored := cache.SetVideo(v, Response(row, categories), faults.put);
      r := Found(Response(row, categories));
    }
  }

  // ---------- the interleaved life of one cache key ----------

  datatype Writer = VoteService | ScoreWorker | ChannelWorker

  /** A committed change of the video, and when its writer invalidated the key, if it has. */
  datatype Change = Change(writer: Writer, after: Response, invalidatedAt: Option<nat>)

  /** A lookup that missed: the row it read after `rowAt` changes, then the categories. */
  datatype Fill = Fill(rowAt: nat, row: VideoRow, categories: Option<(nat, map<Category, CategoryRow>)>)

  datatype Entry = Entry(response: Response, rowAt: nat, categoriesAt: nat, storedAt: nat)

  datatype Key = Key(initial: Response, changes: seq<Change>, clock: nat, cached: Option<Entry>, fills: map<nat, Fill>)

  /** What the database held after the first n changes. */
  function Held(k: Key, n: nat): Response
    requires n <= |k.changes|
  {
    if n == 0 then k.initial else k.changes[n - 1].after
  }

  function Current(k: Key): Response {
    Held(k, |k.changes|)
  }

  datatype Step =
    | Commit(writer: Writer, after: Response)
    | Invalidate(change: nat)
    | ReadRow(lookup: nat)
    | ReadCategories(lookup: nat)
    | Store(lookup: nat)
    | Abandon(lookup: nat)
    | Expire

  predicate Enabled(k: Key, s: Step) {
    match s
    // the channel worker never invalidates
    case Invalidate(j) => j < |k.changes| && k.changes[j].invalidatedAt.None? && !k.changes[j].writer.ChannelWorker?
    case ReadRow(p) => p !in k.fills
    case ReadCategories(p) => p in k.fills && k.fills[p].categories.None?
    case Store(p) => p in k.fills && k.fills[p].categories.Some?
    case Abandon(p) => p in k.fills
    case _ => true
  }

  function Next(k: Key, s: Step): Key
    requires Enabled(k, s)
  {
    var k := k.(clock := k.clock + 1);
    match s
    case Commit(w, r) => k.(changes := k.changes + [Change(w, r, None)])
    case Invalidate(j) =>
      k.(changes := k.changes[j := k.changes[j].(invalidatedAt := Some(k.clock))], cached := None)
    case ReadRow(p) => k.(fills := k.fills[p := Fill(|k.changes|, Current(k).row, None)])
    case ReadCategories(p) =>
      k.(fills := k.fills[p := k.fills[p].(categories := Some((|k.changes|, Current(k).categories)))])
    case Store(p) =>
      var f := k.fills[p];
      k.(fills := k.fills - {p},
         cached := Some(Entry(Response(f.row, f.categories.value.1), f.rowAt, f.categories.value.0, k.clock)))
    case Abandon(p) => k.(fills := k.fills - {p})
    case Expire => k.(cached := None)
  }

  predicate FillHonest(k: Key, f: Fill) {
    && f.rowAt <= |k.changes| && f.row == Held(k, f.rowAt).row
    && (f.categories.Some? ==>
          && f.rowAt <= f.categories.value.0 <= |k.changes|
          && f.categories.value.1 == Held(k, f.categories.value.0).categories)
  }

  predicate EntryHonest(k: Key, e: Entry) {
    && e.rowAt <= e.categoriesAt <= |k.changes|
    && e.storedAt <= k.clock
    && e.response == Response(Held(k, e.rowAt).row, Held(k, e.categoriesAt).categories)
  }

  /** Change j was invalidated before the entry was stored, or not at all. */
  predicate Overtaken(k: Key, e: Entry, j: nat)
    requires j < |k.changes|
  {
    k.changes[j].invalidatedAt.Some? ==> k.changes[j].invalidatedAt.value < e.storedAt
  }

  ghost predicate Inv(k: Key) {
    && (forall p :: p in k.fills ==> FillHonest(k, k.fills[p]))
    && (forall j :: 0 <= j < |k.changes| && k.changes[j].writer.ChannelWorker? ==> k.changes[j].invalidatedAt.None?)
    && (forall j :: 0 <= j < |k.changes| && k.changes[j].invalidatedAt.Some? ==>
        k.changes[j].invalidatedAt.value <= k.clock)
    && (k.cached.Some? ==>
          && EntryHonest(k, k.cached.value)
          && forall j :: 0 <= j < |k.changes| ==> Overtaken(k, k.cached.value, j))
  }

  lemma StepKeepsFills(k: Key, s: Step)
    requires Inv(k) && Enabled(k, s)
    ensures forall p :: p in Next(k, s).fills ==> FillHonest(Next(k, s), Next(k, s).fills[p])
    ensures forall n :: 0 <= n <= |k.changes| ==> Held(Next(k, s), n) == Held(k, n)
  {
    var k' := Next(k, s);
    assert forall n :: 0 <= n <= |k.changes| ==> Held(k', n) == Held(k, n);
    forall p | p in k'.fills ensures FillHonest(k', k'.fills[p]) {
      if p in k.fills { assert FillHonest(k, k.fills[p]); }
    }
  }

  lemma StepKeepsEntry(k: Key, s: Step)
    requires Inv(k) && Enabled(k, s) && Next(k, s).cached.Some?
    ensures EntryHonest(Next(k, s), Next(k, s).cached.value)
  {
    StepKeepsFills(k, s);
    if s.Store? {
      assert FillHonest(k, k.fills[s.lookup]);
    } else {
      assert EntryHonest(k, k.cached.value);
    }
  }

  lemma StepKeepsInv(k: Key, s: Step)
    requires Inv(k) && Enabled(k, s)
    ensures Inv(Next(k, s))
  {
    var k' := Next(k, s);
    StepKeepsFills(k, s);
    if k'.cached.Some? {
      StepKeepsEntry(k, s);
      forall j | 0 <= j < |k'.changes| ensures Overtaken(k', k'.cached.value, j) {
        if j < |k.changes| && !s.Store? {
          assert k'.changes[j] == k.changes[j] && Overtaken(k, k.cached.value, j);
        }
      }
    }
  }

  function After(k: Key, steps: seq<Step>): Key
    requires Possible(k, steps)
    decreases |steps|, 1
  {
    if steps == [] then k else Next(After(k, steps[..|steps| - 1]), steps[|steps| - 1])
  }

  predicate Possible(k: Key, steps: seq<Step>)
    decreases |steps|, 0
  {
    steps != [] ==>
      Possible(k, steps[..|steps| - 1]) && Enabled(After(k, steps[..|steps| - 1]), steps[|steps| - 1])
  }

  function Empty(initial: Response): Key {
    Key(initial, [], 0, None, map[])
  }

  lemma {:induction false} RunKeepsInv(initial: Response, steps: seq<Step>)
    requires Possible(Empty(initial), steps)
    ensures Inv(After(Empty(initial), steps))
  {
    if steps != [] {
      var init := steps[..|steps| - 1];
      RunKeepsInv(initial, init);
      StepKeepsInv(After(Empty(initial), init), steps[|steps| - 1]);
    }
  }

  /** Every cached entry is assembled from a row and categories the database held, in that order, during its fill. */
  lemma CachedWasHeld(initial: Response, steps: seq<Step>)
    requires Possible(Empty(initial), steps)
    ensures var k := After(Empty(initial), steps);
            k.cached.Some? ==>
              exists i, j :: 0 <= i <= j <= |k.changes|
                  && k.cached.value.response == Response(Held(k, i).row, Held(k, j).categories)
  {
    RunKeepsInv(initial, steps);
    var k := After(Empty(initial), steps);
    if k.cached.Some? {
      var e := k.cached.value;
      assert 0 <= e.rowAt <= e.categoriesAt <= |k.changes|;
      assert e.response == Response(Held(k, e.rowAt).row, Held(k, e.categoriesAt).categories);
    }
  }

  /** Change j gave the row, or the categories, another value. */
  predicate ChangesRow(k: Key, j: nat)
    requires j < |k.changes|
  {
    Held(k, j).row != Held(k, j + 1).row
  }

  predicate ChangesCategories(k: Key, j: nat)
    requires j < |k.changes|
  {
    Held(k, j).categories != Held(k, j + 1).categories
  }

  /** The entry was assembled before change j altered what the entry shows. */
  predicate Predates(k: Key, e: Entry, j: nat)
    requires j < |k.changes|
  {
    (e.rowAt <= j && ChangesRow(k, j)) || (e.categoriesAt <= j && ChangesCategories(k, j))
  }

  lemma {:induction false} RowChangedSince(k: Key, n: nat, m: nat) returns (j: nat)
    requires n <= m <= |k.changes| && Held(k, n).row != Held(k, m).row
    ensures n <= j < m && ChangesRow(k, j)
    decreases m - n
  {
    if Held(k, n).row != Held(k, n + 1).row {
      j := n;
    } else {
      j := RowChangedSince(k, n + 1, m);
    }
  }

  lemma {:induction false} CategoriesChangedSince(k: Key, n: nat, m: nat) returns (j: nat)
    requires n <= m <= |k.changes| && Held(k, n).categories != Held(k, m).categories
    ensures n <= j < m && ChangesCategories(k, j)
    decreases m - n
  {
    if Held(k, n).categories != Held(k, n + 1).categories {
      j := n;
    } else {
      j := CategoriesChangedSince(k, n + 1, m);
    }
  }

  /** Why a cached response can differ from the database, over every interleaving:
      a change that altered the very part that is stale was committed after the fill
      had read that part, and this change was made by the channel worker, has not
      been invalidated yet, or was invalidated before the fill stored. */
  lemma StaleCacheHasACause(initial: Response, steps: seq<Step>)
    requires Possible(Empty(initial), steps)
    ensures var k := After(Empty(initial), steps);
            k.cached.Some? && k.cached.value.response != Current(k) ==>
              exists j :: 0 <= j < |k.changes| && Predates(k, k.cached.value, j)
                && (k.changes[j].writer.ChannelWorker?
                    || k.changes[j].invalidatedAt.None?
                    || k.changes[j].invalidatedAt.value < k.cached.value.storedAt)
  {
    RunKeepsInv(initial, steps);
    var k := After(Empty(initial), steps);
    if k.cached.Some? && k.cached.value.response != Current(k) {
      var e, n := k.cached.value, |k.changes|;
      var j;
      if e.response.row != Current(k).row {
        j := RowChangedSince(k, e.rowAt, n);
      } else {
        j := CategoriesChangedSince(k, e.categoriesAt, n);
      }
      assert Predates(k, e, j) && Overtaken(k, e, j);
    }
  }

  predicate AllInvalidated(k: Key) {
    forall j :: 0 <= j < |k.changes| ==> k.changes[j].invalidatedAt.Some?
  }

  /** The fill read the row before change j committed and stored after j was invalidated. */
  predicate Straddles(k: Key, e: Entry, j: nat)
    requires j < |k.changes|
  {
    e.rowAt <= j && k.changes[j].invalidatedAt.Some? && k.changes[j].invalidatedAt.value < e.storedAt
  }

  /** Once every change has been invalidated, the entry was read at the last version
      exactly unless its fill straddles a change; and then it shows what the database holds. */
  lemma FreshOnceInvalidatedIff(initial: Response, steps: seq<Step>)
    requires Possible(Empty(initial), steps)
    requires var k := After(Empty(initial), steps); k.cached.Some? && AllInvalidated(k)
    ensures var k := After(Empty(initial), steps);
            var e := k.cached.value;
            && (e.rowAt == |k.changes| <==> forall j :: 0 <= j < |k.changes| ==> !Straddles(k, e, j))
            && (e.rowAt == |k.changes| ==> e.response == Current(k))
  {
    RunKeepsInv(initial, steps);
    var k := After(Empty(initial), steps);
    if k.cached.value.rowAt < |k.changes| {
      assert Overtaken(k, k.cached.value, |k.changes| - 1);
      assert Straddles(k, k.cached.value, |k.changes| - 1);
    }
  }

  /** A fill stores only if nothing was committed since it read the row. */
  predicate StoresGuarded(k: Key, s: Step)
    requires Enabled(k, s)
  {
    s.Store? ==> k.fills[s.lookup].rowAt == |k.changes|
  }

  predicate AllGuarded(k: Key, steps: seq<Step>)
    requires Possible(k, steps)
    decreases |steps|
  {
    steps != [] ==>
      AllGuarded(k, steps[..|steps| - 1]) && StoresGuarded(After(k, steps[..|steps| - 1]), steps[|steps| - 1])
  }

  predicate NothingStraddled(k: Key) {
    k.cached.Some? ==> forall j :: k.cached.value.rowAt <= j < |k.changes| ==> k.changes[j].invalidatedAt.None?
  }

  lemma GuardedStep(k: Key, s: Step)
    requires Inv(k) && Enabled(k, s) && StoresGuarded(k, s) && NothingStraddled(k)
    ensures NothingStraddled(Next(k, s))
  {
  }

  lemma {:induction false} GuardedRun(initial: Response, steps: seq<Step>)
    requires Possible(Empty(initial), steps) && AllGuarded(Empty(initial), steps)
    ensures NothingStraddled(After(Empty(initial), steps))
  {
    if steps != [] {
      var init := steps[..|steps| - 1];
      GuardedRun(initial, init);
      RunKeepsInv(initial, init);
      GuardedStep(After(Empty(initial), init), steps[|steps| - 1]);
    }
  }

  /** If every store were guarded like that, the third cause would vanish: a cached
      response differs from the database only by changes that the channel worker
      made or that are still to be invalidated. */
  lemma GuardedStoresStayFresh(initial: Response, steps: seq<Step>)
    requires Possible(Empty(initial), steps) && AllGuarded(Empty(initial), steps)
    ensures var k := After(Empty(initial), steps);
            k.cached.Some? && AllInvalidated(k) ==> k.cached.value.response == Current(k)
  {
    GuardedRun(initial, steps);
    RunKeepsInv(initial, steps);
    var k := After(Empty(initial), steps);
    assert |k.changes| > 0 && AllInvalidated(k) ==> k.changes[|k.changes| - 1].invalidatedAt.Some?;
  }

  predicate NoStore(steps: seq<Step>) {
    forall i :: 0 <= i < |steps| ==> !steps[i].Store?
  }

  /** The later key has the same entry, and what was committed since is not invalidated. */
  predicate Untouched(k: Key, later: Key) {
    && later.cached == k.cached && later.initial == k.initial && |k.changes| <= |later.changes|
    && (forall j :: 0 <= j < |k.changes| ==> later.changes[j] == k.changes[j])
    && (forall j :: |k.changes| <= j < |later.changes| ==> later.changes[j].invalidatedAt.None?)
  }

  lemma UntouchedStep(k: Key, later: Key, s: Step)
    requires Untouched(k, later) && Enabled(later, s) && !s.Store? && Next(later, s).cached.Some?
    ensures Untouched(k, Next(later, s))
  {
  }

  /** An entry that is still there without another store is the same one, and nothing
      was invalidated meanwhile. */
  lemma {:induction false} KeptUntouched(k: Key, steps: seq<Step>)
    requires Possible(k, steps) && NoStore(steps) && After(k, steps).cached.Some?
    ensures Untouched(k, After(k, steps))
  {
    if steps != [] {
      var n := |steps| - 1;
      assert forall i :: 0 <= i < n ==> steps[..n][i] == steps[i];
      assert !steps[n].Store? && After(k, steps[..n]).cached.Some?;
      KeptUntouched(k, steps[..n]);
      UntouchedStep(k, After(k, steps[..n]), steps[n]);
    }
  }

  /** What the store itself can tell: the stored response can outlive every
      invalidation and be wrong, with no other store, exactly when at this moment no
      change is left to be invalidated and the response is not what the database holds. */
  lemma WrongForGoodIff(k: Key)
    requires k.cached.Some?
    ensures AllInvalidated(k) && k.cached.value.response != Current(k) <==>
              exists steps :: Possible(k, steps) && NoStore(steps) && OutlivesWrongly(After(k, steps))
  {
    if AllInvalidated(k) && k.cached.value.response != Current(k) {
      var none: seq<Step> := [];
      assert Possible(k, none) && NoStore(none) && OutlivesWrongly(After(k, none));
    }
    forall steps | Possible(k, steps) && NoStore(steps) && OutlivesWrongly(After(k, steps))
      ensures AllInvalidated(k) && k.cached.value.response != Current(k)
    {
      KeptUntouched(k, steps);
      NoneAdded(k, After(k, steps));
    }
  }

  predicate OutlivesWrongly(k: Key) {
    k.cached.Some? && AllInvalidated(k) && k.cached.value.response != Current(k)
  }

  lemma NoneAdded(k: Key, later: Key)
    requires Untouched(k, later) && AllInvalidated(later)
    ensures AllInvalidated(k) && Current(later) == Current(k)
  {
    forall j | 0 <= j < |k.changes| ensures k.changes[j].invalidatedAt.Some? {
      assert later.changes[j].invalidatedAt.Some?;
    }
    NoneLeft(later, |k.changes|);
  }

  lemma NoneLeft(k: Key, n: nat)
    requires AllInvalidated(k) && n <= |k.changes|
    requires n < |k.changes| ==> k.changes[n].invalidatedAt.None?
    ensures n == |k.changes|
  {
  }

  /** A cache entry stored before the invalidation of a change never survives it. */
  lemma InvalidationReachesTheCache(initial: Response, steps: seq<Step>, j: nat)
    requires Possible(Empty(initial), steps) && j < |After(Empty(initial), steps).changes|
    ensures var k := After(Empty(initial), steps);
            k.cached.Some? && k.changes[j].invalidatedAt.Some? ==>
                k.changes[j].invalidatedAt.value < k.cached.value.storedAt
  {
    RunKeepsInv(initial, steps);
    var k := After(Empty(initial), steps);
    if k.cached.Some? {
      assert Overtaken(k, k.cached.value, j);
    }
  }

  lemma OneMore(k: Key, steps: seq<Step>, s: Step)
    requires Possible(k, steps) && Enabled(After(k, steps), s)
    ensures Possible(k, steps + [s]) && After(k, steps + [s]) == Next(After(k, steps), s)
  {
  }

  /** A fill that nothing interrupts caches what the database holds. */
  lemma UninterruptedFill(k: Key, p: nat)
    requires p !in k.fills
    ensures var k1 := Next(k, ReadRow(p));
            && Enabled(k1, ReadCategories(p))
            && var k2 := Next(k1, ReadCategories(p));
               && Enabled(k2, Store(p))
               && var k3 := Next(k2, Store(p));
                  && k3.cached.Some? && k3.cached.value.response == Current(k) == Current(k3)
                  && k3.fills == k.fills && k3.changes == k.changes
  {
  }

  /** Invalidation alone is not enough: a vote that commits and invalidates while
      a lookup is between its read and its store leaves the old response cached,
      with nothing left to invalidate it. */
  lemma OvertakenFillExample(before: Response, after: Response)
    requires before.row != after.row
    ensures var steps := [ReadRow(0)] + [ReadCategories(0)]
                         + [Commit(VoteService, after)] + [Invalidate(0)] + [Store(0)];
            && Possible(Empty(before), steps)
            && var k := After(Empty(before), steps);
               && k.cached.Some? && k.cached.value.response == before && Current(k) == after
               && k.fills == map[] && forall j :: 0 <= j < |k.changes| ==> k.changes[j].invalidatedAt.Some?
  {
    var k := Empty(before);
    var s0: seq<Step> := [];
    OneMore(k, s0, ReadRow(0));
    var s1 := [ReadRow(0)];
    assert s0 + s1 == s1;
    OneMore(k, s1, ReadCategories(0));
    var s2 := s1 + [ReadCategories(0)];
    OneMore(k, s2, Commit(VoteService, after));
    var s3 := s2 + [Commit(VoteService, after)];
    OneMore(k, s3, Invalidate(0));
    var s4 := s3 + [Invalidate(0)];
    assert After(k, s4).fills == map[0 := Fill(0, before.row, Some((0, before.categories)))];
    OneMore(k, s4, Store(0));
  }
}
