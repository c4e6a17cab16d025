/** Recalculating a video's score from its votes, one video or a batch at a time. */
module Recalculation {
  import opened Sums
  import opened Schema
  import opened Scores

  // ---------- what a recalculation writes, given what it read ----------

  ghost function WithScore(rows: map<Video, VideoRow>, v: Video, score: real): map<Video, VideoRow> {
    if v in rows then rows[v := rows[v].(score := score)] else rows
  }

  /** Zero total: every category row of the video is reset. Otherwise only the
      categories that were read are written; a category that lost its last vote
      keeps whatever score it had. */
  ghost function WithShares(rows: map<(Video, Category), CategoryRow>, v: Video, total: real, sums: map<Category, real>)
    : map<(Video, Category), CategoryRow>
  {
    map k | k in rows ::
      if k.0 != v then rows[k]
      else if total == 0.0 then rows[k].(weightedScore := 0.0)
      else if k.1 in sums then rows[k].(weightedScore := Share(sums[k.1], total))
      else rows[k]
  }

  /** The committed writes of a recalculation that read `total` and then `sums`. */
  ghost function WriteScores(t: Tables, v: Video, total: real, sums: map<Category, real>): Tables {
    t.(videos := WithScore(t.videos, v, ScoreFrom(total, sums)),
       categories := WithShares(t.categories, v, total, sums))
  }

  /** A recalculation whose reads are current. */
  ghost function Recalculated(t: Tables, v: Video): Tables {
    WriteScores(t, v, TotalWeight(t.votes, v), CategoryWeights(t.votes, v))
  }

  // ---------- when the stored scores of a video are right ----------

  ghost function TrueShare(votes: map<(Video, User), Vote>, v: Video, c: Category): real {
    var total := TotalWeight(votes, v);
    if total == 0.0 || c !in LiveCategories(votes, v) then 0.0
    else Share(CategoryWeights(votes, v)[c], total)
  }

  /** The category rows of v agree with its votes: those with a live vote, and
      all of them when the votes weigh nothing. */
  ghost predicate SharesRight(t: Tables, v: Video) {
    forall c :: (v, c) in t.categories && (TotalWeight(t.votes, v) == 0.0 || c in LiveCategories(t.votes, v)) ==>
      t.categories[(v, c)].weightedScore == TrueShare(t.votes, v, c)
  }

  ghost predicate ScoreRight(t: Tables, v: Video) {
    v in t.videos && t.videos[v].score == TrueScore(t.votes, v) && SharesRight(t, v)
  }

  lemma RecalculationIsRight(t: Tables, v: Video)
    requires v in t.videos
    ensures ScoreRight(Recalculated(t, v), v)
  {
  }

  /** Whatever was read, the writes touch nothing of another video, and no vote or counter at all. */
  lemma WritesAreLocal(t: Tables, v: Video, total: real, sums: map<Category, real>)
    ensures var t' := WriteScores(t, v, total, sums);
            && t'.votes == t.votes && t'.users == t.users && t'.channels == t.channels
            && t'.videos.Keys == t.videos.Keys && t'.categories.Keys == t.categories.Keys
            && (forall u :: u in t.videos && u != v ==> t'.videos[u] == t.videos[u])
            && (forall u :: u in t.videos ==> t'.videos[u].(score := 0.0) == t.videos[u].(score := 0.0))
            && (forall k :: k in t.categories && k.0 != v ==> t'.categories[k] == t.categories[k])
            && (forall k :: k in t.categories ==> t'.categories[k].voteCount == t.categories[k].voteCount)
  {
  }

  // ---------- batches ----------

  /** The tables after recalculating every video of a set, described row by row. */
  ghost function Refreshed(t: Tables, batch: set<Video>): Tables {
    t.(videos := map u | u in t.videos ::
         if u in batch then t.videos[u].(score := TrueScore(t.votes, u)) else t.videos[u],
       categories := map k | k in t.categories ::
         if k.0 in batch && (TotalWeight(t.votes, k.0) == 0.0 || k.1 in LiveCategories(t.votes, k.0))
         then t.categories[k].(weightedScore := TrueShare(t.votes, k.0, k.1))
         else t.categories[k])
  }

  lemma RefreshedOneShares(t: Tables, batch: set<Video>, v: Video)
    ensures Recalculated(Refreshed(t, batch), v).categories == Refreshed(t, batch + {v}).categories
  {
  }

  lemma RefreshedOne(t: Tables, batch: set<Video>, v: Video)
    ensures Recalculated(Refreshed(t, batch), v) == Refreshed(t, batch + {v})
  {
    RefreshedOneShares(t, batch, v);
    assert Recalculated(Refreshed(t, batch), v).videos == Refreshed(t, batch + {v}).videos;
  }

  lemma RefreshedNone(t: Tables)
    ensures Refreshed(t, {}) == t
  {
  }

  /** One recalculation per notification, in the order they arrived. */
  ghost function RecalculatedEach(t: Tables, notifications: seq<Video>): Tables {
    if notifications == [] then t
    else Recalculated(RecalculatedEach(t, notifications[..|notifications| - 1]), notifications[|notifications| - 1])
  }

  /** Batching and deduplication lose nothing: recalculating once per
      notification, in any order and with any repetitions, leaves exactly the
      tables of recalculating each distinct video once. */
  lemma {:induction false} BatchingLosesNothing(t: Tables, notifications: seq<Video>)
    ensures RecalculatedEach(t, notifications) == Refreshed(t, (set v | v in notifications))
  {
    if notifications == [] {
      RefreshedNone(t);
      assert (set v | v in notifications) == {};
    } else {
      var init, last := notifications[..|notifications| - 1], notifications[|notifications| - 1];
      BatchingLosesNothing(t, init);
      RefreshedOne(t, (set v | v in init), last);
      assert notifications == init + [last];
      assert (set v | v in notifications) == (set v | v in init) + {last};
    }
  }

  // ---------- grouping rows by category ----------

  function WeightSoFar(sums: map<Category, real>, c: Category): real {
    if c in sums then sums[c] else 0.0
  }

  function Added(sums: map<Category, real>, x: Vote): map<Category, real> {
    sums[x.category := WeightSoFar(sums, x.category) + x.weight]
  }

  /** sums holds the category weights of the rows not in rest. */
  ghost predicate Grouped(sums: map<Category, real>, rest: map<(Video, User), Vote>, votes: map<(Video, User), Vote>,
                          v: Video) {
    && sums.Keys + LiveCategories(rest, v) == LiveCategories(votes, v)
    && forall c :: WeightSoFar(sums, c) + Sum(rest, WeightFor(v, c)) == Sum(votes, WeightFor(v, c))
  }

  lemma LiveCategoriesStep(rest: map<(Video, User), Vote>, v: Video, k: (Video, User))
    requires k in rest
    ensures LiveCategories(rest, v) == LiveCategories(rest - {k}, v) + (if k.0 == v then {rest[k].category} else {})
  {
    assert forall j :: j in rest <==> j == k || j in rest - {k};
  }

  lemma GroupStep(sums: map<Category, real>, rest: map<(Video, User), Vote>, votes: map<(Video, User), Vote>,
                  v: Video, k: (Video, User))
    requires k in rest && Grouped(sums, rest, votes, v)
    ensures Grouped(if k.0 == v then Added(sums, rest[k]) else sums, rest - {k}, votes, v)
  {
    LiveCategoriesStep(rest, v, k);
    forall c
      ensures WeightSoFar(if k.0 == v then Added(sums, rest[k]) else sums, c) + Sum(rest - {k}, WeightFor(v, c))
           == Sum(votes, WeightFor(v, c))
    {
      assert WeightSoFar(sums, c) + Sum(rest, WeightFor(v, c)) == Sum(votes, WeightFor(v, c));
      SumRemove(rest, WeightFor(v, c), k);
    }
  }

  // ---------- the service ----------

  class ScoreService {
    const db: Database

    constructor (db: Database)
      ensures this.db == db
    {
      this.db := db;
    }

    /** The first read: adds up the votes of the video in whatever order they come. */
    method SelectTotalWeight(v: Video) returns (total: real)
      ensures total == TotalWeight(db.votes, v)
    {
      total := 0.0;
      var rest := db.votes;
      while rest.Keys != {}
        invariant total + Sum(rest, WeightOn(v)) == TotalWeight(db.votes, v)
        decreases rest.Keys
      {
        var k :| k in rest;
        SumRemove(rest, WeightOn(v), k);
        if k.0 == v {
          total := total + rest[k].weight;
        }
        rest := rest - {k};
      }
    }

    /** The second read: groups the votes of the video and adds up each group. */
    method SelectCategoryWeights(v: Video) returns (sums: map<Category, real>)
      ensures sums == CategoryWeights(db.votes, v)
    {
      sums := map[];
      var rest := db.votes;
      while rest.Keys != {}
        invariant Grouped(sums, rest, db.votes, v)
        decreases rest.Keys
      {
        var k :| k in rest;
        GroupStep(sums, rest, db.votes, v, k);
        if k.0 == v {
          sums := Added(sums, rest[k]);
        }
        rest := rest - {k};
      }
      assert LiveCategories(rest, v) == {};
      forall c | c in sums ensures sums[c] == Sum(db.votes, WeightFor(v, c)) {
        assert WeightSoFar(sums, c) + Sum(rest, WeightFor(v, c)) == Sum(db.votes, WeightFor(v, c));
      }
    }

    /** Recalculate and store; on any error the transaction rolls back. */
    method RecalculateVideoScore(v: Video, fails: bool) returns (ok: bool)
      modifies db
      ensures ok == !fails
      ensures db.Contents() == if fails then old(db.Contents()) else Recalculated(old(db.Contents()), v)
      ensures db.notified == old(db.notified)
    {
      if fails {
        return false;
      }
      var total := SelectTotalWeight(v);
      if total == 0.0 {
        StoreScore(v, 0.0);
        ResetShares(v);
        return true;
      }
      var sums := SelectCategoryWeights(v);
      StoreScored(v, total, sums);
      ok := true;
    }

    method StoreScored(v: Video, total: real, sums: map<Category, real>)
      requires total != 0.0
      modifies db`videos, db`categories
      ensures db.Contents() == WriteScores(old(db.Contents()), v, total, sums)
    {
      var scores, maxScore := ScoreCategories(sums, total);
      StoreShares(v, scores);
      StoreScore(v, maxScore);
      assert db.categories == WithShares(old(db.categories), v, total, sums);
    }

    method StoreScore(v: Video, score: real)
      modifies db`videos
      ensures db.videos == WithScore(old(db.videos), v, score)
    {
      if v in db.videos {
        db.videos := db.videos[v := db.videos[v].(score := score)];
      }
    }

    method ResetShares(v: Video)
      modifies db`categories
      ensures db.categories == WithShares(old(db.categories), v, 0.0, map[])
      ensures forall sums :: db.categories == WithShares(old(db.categories), v, 0.0, sums)
    {
      db.categories := map k | k in db.categories ::
        if k.0 == v then db.categories[k].(weightedScore := 0.0) else db.categories[k];
    }

    /** Writes one scored category after the other; a category without a row is left alone. */
    method StoreShares(v: Video, scores: map<Category, real>)
      modifies db`categories
      ensures db.categories == map k | k in old(db.categories) ::
        if k.0 == v && k.1 in scores then old(db.categories)[k].(weightedScore := scores[k.1])
        else old(db.categories)[k]
    {
      var todo := scores.Keys;
      while todo != {}
        invariant todo <= scores.Keys
        invariant db.categories.Keys == old(db.categories).Keys
        invariant forall k :: k in db.categories ==>
          db.categories[k] == (if k.0 == v && k.1 in scores.Keys - todo
                               then old(db.categories)[k].(weightedScore := scores[k.1])
                               else old(db.categories)[k])
      {
        var c :| c in todo;
        if (v, c) in db.categories {
          db.categories := db.categories[(v, c) := db.categories[(v, c)].(weightedScore := scores[c])];
        }
        todo := todo - {c};
      }
    }
  }
}
